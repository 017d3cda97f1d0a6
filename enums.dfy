/**
 * The hub's two enumerations. Both are TypeScript const enums, i.e. plain
 * numbers, so they are modelled as ranges of integers with named constants.
 */
module Enums {

  /** LED and colour-sensor colour codes. Off and Black are the same code. */
  type Color = c: int | 0 <= c <= 10

  const Off: Color := 0
  const Black: Color := 0
  const Pink: Color := 1
  const Purple: Color := 2
  const Blue: Color := 3
  const LightBlue: Color := 4
  const Cyan: Color := 5
  const Green: Color := 6
  const Yellow: Color := 7
  const Orange: Color := 8
  const Red: Color := 9
  const White: Color := 10

  /** The colour codes are consecutive from 0, with Off an alias of Black. */
  lemma ColorCodes()
    ensures Off == Black
    ensures [Black, Pink, Purple, Blue, LightBlue, Cyan, Green, Yellow, Orange, Red, White] == seq(11, i => i)
  {
  }

  /** Orientation codes reported by the tilt sensor in simple mode. */
  type Orientation = o: int | 0 <= o <= 5

  const Back: Orientation := 0
  const Up: Orientation := 1
  const Down: Orientation := 2
  const Left: Orientation := 3
  const Right: Orientation := 4
  const Front: Orientation := 5

  /** The orientation codes are consecutive from 0. */
  lemma OrientationCodes()
    ensures [Back, Up, Down, Left, Right, Front] == seq(6, i => i)
  {
  }
}
