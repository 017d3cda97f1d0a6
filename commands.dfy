/**
 * Outbound commands. Every command is a copy of a fixed template whose first
 * byte is its own length, with a few bytes overwritten at fixed offsets:
 * byte 3 is the port, signed power bytes follow a little-endian duration
 * (u16 at 6..7) or angle (u32 at 6..9), and byte 4 of a subscribe command
 * selects the sensor mode.
 *
 * The functions state each command as a value; the Encode methods build the
 * same bytes the way the hub driver does, by copying the template into a
 * fresh buffer and patching it in place.
 */
module Commands {

  import opened Bytes
  import opened Enums
  import opened Wrappers

  const MotorConstantSingle: seq<Byte> := [0x0a, 0x00, 0x81, 0x00, 0x11, 0x01, 0x00, 0x64, 0x7f, 0x03]
  const MotorConstantGroup: seq<Byte> := [0x0b, 0x00, 0x81, 0x00, 0x11, 0x02, 0x00, 0x00, 0x64, 0x7f, 0x03]
  const MotorTimedSingle: seq<Byte> := [0x0c, 0x00, 0x81, 0x00, 0x11, 0x09, 0x00, 0x00, 0x00, 0x64, 0x7f, 0x03]
  const MotorTimedGroup: seq<Byte> :=
    [0x0d, 0x00, 0x81, 0x00, 0x11, 0x0a, 0x00, 0x00, 0x00, 0x00, 0x64, 0x7f, 0x03]
  const MotorAngledSingle: seq<Byte> :=
    [0x0e, 0x00, 0x81, 0x00, 0x11, 0x0b, 0x00, 0x00, 0x00, 0x00, 0x00, 0x64, 0x7f, 0x03]
  const MotorAngledGroup: seq<Byte> :=
    [0x0f, 0x00, 0x81, 0x00, 0x11, 0x0c, 0x00, 0x00, 0x00, 0x00, 0x00, 0x00, 0x64, 0x7f, 0x03]
  const SubscribeAngle: seq<Byte> := [0x0a, 0x00, 0x41, 0x00, 0x02, 0x01, 0x00, 0x00, 0x00, 0x01]
  const SubscribeSpeed: seq<Byte> := [0x0a, 0x00, 0x41, 0x00, 0x01, 0x01, 0x00, 0x00, 0x00, 0x01]
  const SubscribeDistance: seq<Byte> := [0x0a, 0x00, 0x41, 0x00, 0x08, 0x01, 0x00, 0x00, 0x00, 0x01]
  const SubscribeLuminosity: seq<Byte> := [0x0a, 0x00, 0x41, 0x00, 0x09, 0x01, 0x00, 0x00, 0x00, 0x01]
  const Led: seq<Byte> := [0x08, 0x00, 0x81, 0x32, 0x11, 0x51, 0x00, 0x00]
  const SubscribeButton: seq<Byte> := [0x05, 0x00, 0x01, 0x02, 0x02]
  const SubscribeTiltPrecise: seq<Byte> := [0x0a, 0x00, 0x41, 0x3a, 0x04, 0x08, 0x00, 0x00, 0x00, 0x01]
  const SubscribeTiltSimple: seq<Byte> := [0x0a, 0x00, 0x41, 0x3a, 0x02, 0x01, 0x00, 0x00, 0x00, 0x01]

  /** The range Buffer.writeInt8 accepts. */
  predicate IsInt8(v: int) {
    -128 <= v < 128
  }

  /** An optional second power (the group variants) is a valid int8 when present. */
  predicate OptInt8(v: Option<int>) {
    v.None? || IsInt8(v.value)
  }

  /** r is t with at most the bytes at the offsets in `patched` changed. */
  ghost predicate SameExcept(r: seq<Byte>, t: seq<Byte>, patched: set<int>) {
    |r| == |t| && forall i :: 0 <= i < |t| && i !in patched ==> r[i] == t[i]
  }

  /** The command is as long as its own length prefix says. */
  predicate LengthPrefixed(r: seq<Byte>) {
    |r| > 0 && r[0] == |r|
  }

  /** Overwrites |b| bytes of s from offset off (a multi-byte Buffer write). */
  function Patch(s: seq<Byte>, off: nat, b: seq<Byte>): (r: seq<Byte>)
    requires off + |b| <= |s|
    ensures |r| == |s| && r[off..off + |b|] == b
    ensures forall i :: 0 <= i < |s| && !(off <= i < off + |b|) ==> r[i] == s[i]
  {
    s[..off] + b + s[off + |b|..]
  }

  /** Single-motor templates for None, group templates for Some. */
  function ConstantTemplate(speedB: Option<int>): seq<Byte> {
    if speedB.None? then MotorConstantSingle else MotorConstantGroup
  }

  function TimedTemplate(speedB: Option<int>): seq<Byte> {
    if speedB.None? then MotorTimedSingle else MotorTimedGroup
  }

  function AngledTemplate(speedB: Option<int>): seq<Byte> {
    if speedB.None? then MotorAngledSingle else MotorAngledGroup
  }

  /** The offsets of the second power byte, present only in group commands. */
  function GroupOffset(speedB: Option<int>, off: int): set<int> {
    if speedB.None? then {} else {off}
  }

  /** Start a motor (or a motor pair) at constant power. */
  function ConstantCommand(port: Byte, speed: int, speedB: Option<int>): (r: seq<Byte>)
    requires IsInt8(speed) && OptInt8(speedB)
    ensures LengthPrefixed(r) && SameExcept(r, ConstantTemplate(speedB), {3, 6} + GroupOffset(speedB, 7))
    ensures r[3] == port && ReadInt8(r, 6) == speed
    ensures speedB.Some? ==> ReadInt8(r, 7) == speedB.value
  {
    var t := ConstantTemplate(speedB);
    var t' := if speedB.Some? then t[7 := Int8Byte(speedB.value)] else t;
    t'[3 := port][6 := Int8Byte(speed)]
  }

  /** Run a motor (or pair) for `time` milliseconds. */
  function TimedCommand(port: Byte, time: nat, speed: int, speedB: Option<int>): (r: seq<Byte>)
    requires time < 0x1_0000 && IsInt8(speed) && OptInt8(speedB)
    ensures LengthPrefixed(r) && SameExcept(r, TimedTemplate(speedB), {3, 6, 7, 8} + GroupOffset(speedB, 9))
    ensures r[3] == port && ReadUInt16LE(r, 6) == time && ReadInt8(r, 8) == speed
    ensures speedB.Some? ==> ReadInt8(r, 9) == speedB.value
  {
    var t := TimedTemplate(speedB);
    var t' := if speedB.Some? then t[9 := Int8Byte(speedB.value)] else t;
    Pow256Values();
    var r := Patch(t'[3 := port], 6, ToLE(time, 2))[8 := Int8Byte(speed)];
    assert r[6..8] == ToLE(time, 2);
    UInt16RoundTrip(time);
    r
  }

  /** Turn a motor (or pair) by `angle` degrees. */
  function AngledCommand(port: Byte, angle: nat, speed: int, speedB: Option<int>): (r: seq<Byte>)
    requires angle < 0x1_0000_0000 && IsInt8(speed) && OptInt8(speedB)
    ensures LengthPrefixed(r) && SameExcept(r, AngledTemplate(speedB), {3, 6, 7, 8, 9, 10} + GroupOffset(speedB, 11))
    ensures r[3] == port && ReadUInt32LE(r, 6) == angle && ReadInt8(r, 10) == speed
    ensures speedB.Some? ==> ReadInt8(r, 11) == speedB.value
  {
    var t := AngledTemplate(speedB);
    var t' := if speedB.Some? then t[11 := Int8Byte(speedB.value)] else t;
    Pow256Values();
    var r := Patch(t'[3 := port], 6, ToLE(angle, 4))[10 := Int8Byte(speed)];
    assert r[6..10] == ToLE(angle, 4);
    assert r[6..10][0..4] == r[6..10];
    UInt32RoundTrip(angle);
    r
  }

  /** Stopping is constant power 0 on the single-motor template, which only patches the port. */
  lemma StopPatchesOnlyPort(port: Byte)
    ensures ConstantCommand(port, 0, None) == MotorConstantSingle[3 := port]
  {
  }

  /** Subscribe to motor feedback; byte 4 selects speed (0x01) or angle (0x02). */
  function FeedbackSubscribeCommand(port: Byte, speedMode: bool): (r: seq<Byte>)
    ensures LengthPrefixed(r) && SameExcept(r, SubscribeAngle, {3, 4})
    ensures r[3] == port && r[4] == (if speedMode then 0x01 else 0x02)
  {
    (if speedMode then SubscribeSpeed else SubscribeAngle)[3 := port]
  }

  /** Subscribe to the colour sensor; byte 4 selects luminosity (0x09) or colour and distance (0x08). */
  function SensorSubscribeCommand(port: Byte, luminosity: bool): (r: seq<Byte>)
    ensures LengthPrefixed(r) && SameExcept(r, SubscribeDistance, {3, 4})
    ensures r[3] == port && r[4] == (if luminosity then 0x09 else 0x08)
  {
    (if luminosity then SubscribeLuminosity else SubscribeDistance)[3 := port]
  }

  /** Subscribe to the hub's tilt sensor (port 0x3a) in precise or simple mode. */
  function TiltSubscribeCommand(precise: bool): (r: seq<Byte>)
    ensures LengthPrefixed(r) && SameExcept(r, SubscribeTiltSimple, {4, 5})
    ensures r[3] == 0x3a && r[4] == (if precise then 0x04 else 0x02) && r[5] == (if precise then 0x08 else 0x01)
  {
    if precise then SubscribeTiltPrecise else SubscribeTiltSimple
  }

  /** Set the hub LED; the colour code goes to byte 7, the control port 0x32 stays. */
  function LedCommand(color: Color): (r: seq<Byte>)
    ensures LengthPrefixed(r) && SameExcept(r, Led, {7})
    ensures r[3] == 0x32 && r[7] == color
  {
    Led[7 := color]
  }

  /** Off and Black give the same LED command. */
  lemma OffIsBlack()
    ensures LedCommand(Off) == LedCommand(Black) == Led
  {
  }

  // ---- In-place construction, as the driver does it with Buffer.from and Buffer.write* ----

  /** Buffer.from(template): a fresh copy. */
  method CopyTemplate(t: seq<Byte>) returns (a: array<Byte>)
    ensures fresh(a) && a[..] == t
  {
    a := new Byte[|t|](i requires 0 <= i < |t| => t[i]);
  }

  /** Buffer.writeUInt8(v, off). */
  method WriteUInt8(a: array<Byte>, v: Byte, off: nat)
    requires off < a.Length
    modifies a
    ensures a[..] == old(a[..])[off := v]
  {
    a[off] := v;
  }

  /** Buffer.writeInt8(v, off): the two's-complement byte of v. */
  method WriteInt8(a: array<Byte>, v: int, off: nat)
    requires off < a.Length && IsInt8(v)
    modifies a
    ensures a[..] == old(a[..])[off := Int8Byte(v)]
  {
    a[off] := Int8Byte(v);
  }

  /** Buffer.writeUInt16LE(v, off). */
  method WriteUInt16LE(a: array<Byte>, v: nat, off: nat)
    requires off + 2 <= a.Length && v < 0x1_0000
    modifies a
    ensures a[..] == Patch(old(a[..]), off, ToLE(v, 2))
  {
    Pow256Values();
    var b := ToLE(v, 2);
    a[off] := b[0];
    a[off + 1] := b[1];
  }

  /** Buffer.writeUInt32LE(v, off). */
  method WriteUInt32LE(a: array<Byte>, v: nat, off: nat)
    requires off + 4 <= a.Length && v < 0x1_0000_0000
    modifies a
    ensures a[..] == Patch(old(a[..]), off, ToLE(v, 4))
  {
    Pow256Values();
    var b := ToLE(v, 4);
    a[off] := b[0];
    a[off + 1] := b[1];
    a[off + 2] := b[2];
    a[off + 3] := b[3];
  }

  method EncodeConstant(port: Byte, speed: int, speedB: Option<int>) returns (cmd: seq<Byte>)
    requires IsInt8(speed) && OptInt8(speedB)
    ensures cmd == ConstantCommand(port, speed, speedB)
  {
    var a: array<Byte>;
    if speedB.None? {
      a := CopyTemplate(MotorConstantSingle);
    } else {
      a := CopyTemplate(MotorConstantGroup);
      WriteInt8(a, speedB.value, 7);
    }
    WriteUInt8(a, port, 3);
    WriteInt8(a, speed, 6);
    cmd := a[..];
  }

  method EncodeTimed(port: Byte, time: nat, speed: int, speedB: Option<int>) returns (cmd: seq<Byte>)
    requires time < 0x1_0000 && IsInt8(speed) && OptInt8(speedB)
    ensures cmd == TimedCommand(port, time, speed, speedB)
  {
    var a: array<Byte>;
    if speedB.None? {
      a := CopyTemplate(MotorTimedSingle);
    } else {
      a := CopyTemplate(MotorTimedGroup);
      WriteInt8(a, speedB.value, 9);
    }
    WriteUInt8(a, port, 3);
    WriteUInt16LE(a, time, 6);
    WriteInt8(a, speed, 8);
    cmd := a[..];
  }

  method EncodeAngled(port: Byte, angle: nat, speed: int, speedB: Option<int>) returns (cmd: seq<Byte>)
    requires angle < 0x1_0000_0000 && IsInt8(speed) && OptInt8(speedB)
    ensures cmd == AngledCommand(port, angle, speed, speedB)
  {
    var a: array<Byte>;
    if speedB.None? {
      a := CopyTemplate(MotorAngledSingle);
    } else {
      a := CopyTemplate(MotorAngledGroup);
      WriteInt8(a, speedB.value, 11);
    }
    WriteUInt8(a, port, 3);
    WriteUInt32LE(a, angle, 6);
    WriteInt8(a, speed, 10);
    cmd := a[..];
  }

  method EncodeFeedbackSubscribe(port: Byte, speedMode: bool) returns (cmd: seq<Byte>)
    ensures cmd == FeedbackSubscribeCommand(port, speedMode)
  {
    var a := CopyTemplate(if speedMode then SubscribeSpeed else SubscribeAngle);
    WriteUInt8(a, port, 3);
    cmd := a[..];
  }

  method EncodeSensorSubscribe(port: Byte, luminosity: bool) returns (cmd: seq<Byte>)
    ensures cmd == SensorSubscribeCommand(port, luminosity)
  {
    var a := CopyTemplate(if luminosity then SubscribeLuminosity else SubscribeDistance);
    WriteUInt8(a, port, 3);
    cmd := a[..];
  }

  method EncodeLed(color: Color) returns (cmd: seq<Byte>)
    ensures cmd == LedCommand(color)
  {
    var a := CopyTemplate(Led);
    WriteUInt8(a, color, 7);
    cmd := a[..];
  }
}
