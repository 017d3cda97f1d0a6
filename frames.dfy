/**
 * Inbound notification frames. Each component's data handler matches a
 * frame against an exact 4-byte header (or, for the button, the whole frame)
 * and turns it into one event or nothing. Buffer reads past the end of a frame
 * throw a RangeError in the driver; that outcome is kept as its own case.
 */
module Frames {

  import opened Bytes
  import opened Wrappers

  /** What one data handler does with one frame. */
  datatype Decoded<+E> = Ignored | Event(event: E) | RangeError

  datatype MotorEvent =
    | MotorOn
    | MotorRunning
    | MotorOff
    | Angle(degrees: int)
    | Speed(power: int)

  /** Colour is None where the sensor reports 255; distance is in metres, as an exact real. */
  datatype SensorEvent =
    | Luminosity(level: nat)
    | ColorDistance(color: Option<Byte>, distance: real)

  /** Tilt angles are in degrees, as exact reals; the simple orientation is the raw byte. */
  datatype HubEvent =
    | Pressed
    | Released
    | TiltPrecise(x: real, y: real, z: real)
    | TiltSimple(orientation: Byte)

  const ButtonPressedFrame: seq<Byte> := [0x06, 0x00, 0x01, 0x02, 0x06, 0x01]
  const ButtonReleasedFrame: seq<Byte> := [0x06, 0x00, 0x01, 0x02, 0x06, 0x00]
  const TiltPreciseHeader: seq<Byte> := [0x07, 0x00, 0x45, 0x3a]
  const TiltSimpleHeader: seq<Byte> := [0x05, 0x00, 0x45, 0x3a]

  /** Motor status codes in byte 4 of a 0x82 frame. */
  const StatusOn: Byte := 0x01
  const StatusRunning: Byte := 0x05
  const StatusOff: Byte := 0x0a

  /** Largest luminosity reading that is still delivered, plus one. */
  const LuminosityLimit: nat := 1024

  /** Inches to metres. */
  const MetresPerInch: real := 0.0254

  /** `frame.slice(0, |h|).equals(h)`: a shorter frame never matches. */
  predicate HasHeader(frame: seq<Byte>, h: seq<Byte>) {
    |h| <= |frame| && frame[..|h|] == h
  }

  function StatusHeader(port: Byte): seq<Byte> { [0x05, 0x00, 0x82, port] }
  function AngleHeader(port: Byte): seq<Byte> { [0x08, 0x00, 0x45, port] }
  function SpeedHeader(port: Byte): seq<Byte> { [0x05, 0x00, 0x45, port] }

  /** The motor's data handler: status, then angle feedback, then speed feedback. */
  function DecodeMotor(port: Byte, frame: seq<Byte>): (d: Decoded<MotorEvent>)
    ensures !d.Ignored? ==>
      HasHeader(frame, StatusHeader(port)) || HasHeader(frame, AngleHeader(port)) || HasHeader(frame, SpeedHeader(port))
    ensures d.RangeError? <==>
      || (HasHeader(frame, StatusHeader(port)) && |frame| == 4)
      || (HasHeader(frame, AngleHeader(port)) && |frame| < 8)
      || (HasHeader(frame, SpeedHeader(port)) && |frame| == 4)
    ensures d.Event? && (d.event.MotorOn? || d.event.MotorRunning? || d.event.MotorOff?) ==>
      HasHeader(frame, StatusHeader(port))
    ensures d.Event? && d.event.Angle? ==> HasHeader(frame, AngleHeader(port))
    ensures d.Event? && d.event.Speed? ==> HasHeader(frame, SpeedHeader(port))
  {
    if HasHeader(frame, StatusHeader(port)) then
      if |frame| < 5 then RangeError
      else if frame[4] == StatusOn then Event(MotorOn)
      else if frame[4] == StatusRunning then Event(MotorRunning)
      else if frame[4] == StatusOff then Event(MotorOff)
      else Ignored
    else if HasHeader(frame, AngleHeader(port)) then
      if |frame| < 8 then RangeError else Event(Angle(ReadInt32LE(frame, 4)))
    else if HasHeader(frame, SpeedHeader(port)) then
      if |frame| < 5 then RangeError else Event(Speed(ReadInt8(frame, 4)))
    else Ignored
  }

  /** A status frame for the motor's own port decodes by byte 4 alone: 0x01, 0x05, 0x0a or nothing. */
  lemma MotorStatusDecoding(port: Byte, frame: seq<Byte>)
    requires |frame| >= 5 && frame[..4] == StatusHeader(port)
    ensures DecodeMotor(port, frame) == Event(MotorOn) <==> frame[4] == 0x01
    ensures DecodeMotor(port, frame) == Event(MotorRunning) <==> frame[4] == 0x05
    ensures DecodeMotor(port, frame) == Event(MotorOff) <==> frame[4] == 0x0a
    ensures DecodeMotor(port, frame) == Ignored <==> frame[4] !in {0x01, 0x05, 0x0a}
  {
  }

  /** Feedback decoding is chosen by the header, not by the motor's speed-mode flag. */
  lemma MotorFeedbackDecoding(port: Byte, frame: seq<Byte>)
    ensures HasHeader(frame, AngleHeader(port)) && |frame| >= 8 ==>
      DecodeMotor(port, frame) == Event(Angle(ReadInt32LE(frame, 4)))
    ensures HasHeader(frame, SpeedHeader(port)) && |frame| >= 5 ==>
      DecodeMotor(port, frame) == Event(Speed(ReadInt8(frame, 4)))
  {
  }

  /** whole + 1/partial inches when partial > 0, else whole inches. */
  function DistanceInches(whole: Byte, partial: Byte): (d: real)
    ensures d >= whole as real
    ensures d > 0.0 <==> whole > 0 || partial > 0
  {
    if partial > 0 then whole as real + 1.0 / partial as real else whole as real
  }

  /**
   * The colour-and-distance sensor's data handler. Only frames with the
   * sensor's 0x45 header count, and only once the sensor has an emitter.
   */
  function DecodeSensor(port: Byte, subscribed: bool, luminosity: bool, frame: seq<Byte>): (d: Decoded<SensorEvent>)
    ensures !d.Ignored? ==> subscribed && HasHeader(frame, AngleHeader(port))
    ensures d.RangeError? <==> subscribed && HasHeader(frame, AngleHeader(port)) && |frame| < 8
    ensures d.Event? ==> d.event.Luminosity? == luminosity
  {
    if HasHeader(frame, AngleHeader(port)) && subscribed then
      if |frame| < 8 then RangeError
      else if luminosity then
        var level := ReadUInt32LE(frame, 4);
        if level < LuminosityLimit then Event(Luminosity(level)) else Ignored
      else
        var color := frame[4];
        var inches := DistanceInches(frame[5], frame[7]);
        if inches > 0.0 then
          Event(ColorDistance(if color < 255 then Some(color) else None, inches * MetresPerInch))
        else Ignored
    else Ignored
  }

  /** In luminosity mode a reading is delivered exactly when it is below 1024. */
  lemma LuminosityDelivery(port: Byte, frame: seq<Byte>)
    requires |frame| >= 8 && frame[..4] == AngleHeader(port)
    ensures var level := ReadUInt32LE(frame, 4);
      DecodeSensor(port, true, true, frame) == (if level < 1024 then Event(Luminosity(level)) else Ignored)
  {
  }

  /**
   * In distance mode a reading is delivered exactly when the whole part or the
   * fraction denominator is non-zero; colour 255 becomes "no colour".
   */
  lemma DistanceDelivery(port: Byte, frame: seq<Byte>)
    requires |frame| >= 8 && frame[..4] == AngleHeader(port)
    ensures DecodeSensor(port, true, false, frame).Event? <==> frame[5] > 0 || frame[7] > 0
    ensures DecodeSensor(port, true, false, frame).Event? ==>
      var e := DecodeSensor(port, true, false, frame).event;
      e.ColorDistance? && (e.color.None? <==> frame[4] == 255) && (e.color.Some? ==> e.color.value == frame[4])
  {
  }

  /** Before the first subscription nothing is decoded, not even a short frame. */
  lemma SensorSilentUntilSubscribed(port: Byte, luminosity: bool, frame: seq<Byte>)
    ensures DecodeSensor(port, false, luminosity, frame) == Ignored
  {
  }

  /** Colour 10 at 5 + 1/4 inches is delivered as 0.13335 metres. */
  lemma DistanceExample(port: Byte)
    ensures DecodeSensor(port, true, false, [0x08, 0x00, 0x45, port, 10, 5, 0, 4]) ==
      Event(ColorDistance(Some(10), 0.13335))
  {
    assert DistanceInches(5, 4) == 5.25;
  }

  /** Motor C and the sensor on connector C share port 0x01: one angle frame is decoded by both. */
  lemma SharedPortFrame(frame: seq<Byte>)
    requires |frame| >= 8 && frame[..4] == [0x08, 0x00, 0x45, 0x01]
    requires ReadUInt32LE(frame, 4) < 1024
    ensures DecodeMotor(0x01, frame) == Event(Angle(ReadInt32LE(frame, 4)))
    ensures DecodeSensor(0x01, true, true, frame) == Event(Luminosity(ReadUInt32LE(frame, 4)))
  {
  }

  /** A tilt reading in degrees: value * 360 / 256. */
  function TiltDegrees(v: int): (r: real)
    requires -128 <= v < 128
    ensures -180.0 <= r < 180.0
  {
    v as real * 360.0 / 256.0
  }

  /**
   * The hub's own data handler. The button frames are matched exactly and are
   * checked first; tilt frames only once the tilt channel has an emitter.
   */
  function DecodeHub(frame: seq<Byte>, pressedBefore: bool, buttonSubscribed: bool, tiltSubscribed: bool): (d: Decoded<HubEvent>)
    ensures d == Event(Pressed) <==> frame == ButtonPressedFrame && buttonSubscribed
    ensures d == Event(Released) <==> frame == ButtonReleasedFrame && pressedBefore && buttonSubscribed
    ensures !d.Ignored? ==>
      || frame == ButtonPressedFrame || frame == ButtonReleasedFrame
      || HasHeader(frame, TiltPreciseHeader) || HasHeader(frame, TiltSimpleHeader)
    ensures d.Event? && d.event.TiltPrecise? ==> tiltSubscribed && HasHeader(frame, TiltPreciseHeader)
    ensures d.Event? && d.event.TiltSimple? ==> tiltSubscribed && HasHeader(frame, TiltSimpleHeader)
    ensures d.RangeError? <==>
      && tiltSubscribed
      && ((HasHeader(frame, TiltPreciseHeader) && |frame| < 7) || (HasHeader(frame, TiltSimpleHeader) && |frame| == 4))
  {
    if frame == ButtonPressedFrame || frame == ButtonReleasedFrame then
      assert frame[..4][0] == 0x06;
      if frame == ButtonPressedFrame then
        if buttonSubscribed then Event(Pressed) else Ignored
      else if pressedBefore && buttonSubscribed then Event(Released) else Ignored
    else if HasHeader(frame, TiltPreciseHeader) && tiltSubscribed then
      if |frame| < 7 then RangeError
      else Event(TiltPrecise(TiltDegrees(ReadInt8(frame, 4)), TiltDegrees(ReadInt8(frame, 5)), TiltDegrees(ReadInt8(frame, 6))))
    else if HasHeader(frame, TiltSimpleHeader) && tiltSubscribed then
      if |frame| < 5 then RangeError else Event(TiltSimple(frame[4]))
    else Ignored
  }

  /**
   * A subscribed hub decodes a tilt frame by its header alone: the precise
   * header gives three angles from the signed bytes 4..6, the simple header
   * the raw byte 4, whatever mode was last requested.
   */
  lemma TiltDecoding(frame: seq<Byte>, pressedBefore: bool, buttonSubscribed: bool)
    ensures HasHeader(frame, TiltPreciseHeader) && |frame| >= 7 ==>
      DecodeHub(frame, pressedBefore, buttonSubscribed, true) ==
        Event(TiltPrecise(TiltDegrees(ReadInt8(frame, 4)), TiltDegrees(ReadInt8(frame, 5)), TiltDegrees(ReadInt8(frame, 6))))
    ensures HasHeader(frame, TiltSimpleHeader) && |frame| >= 5 ==>
      DecodeHub(frame, pressedBefore, buttonSubscribed, true) == Event(TiltSimple(frame[4]))
  {
  }

  /** The hub's "button was pressed" flag after a frame: set by a press frame, never cleared. */
  function PressedAfter(frame: seq<Byte>, pressedBefore: bool): (p: bool)
    ensures p <==> pressedBefore || frame == ButtonPressedFrame
  {
    if frame == ButtonPressedFrame then true else pressedBefore
  }

  /** The hub handler's results over a stream of frames, threading the pressed flag. */
  function HubRun(frames: seq<seq<Byte>>, pressed: bool, buttonSubscribed: bool, tiltSubscribed: bool): (ds: seq<Decoded<HubEvent>>)
    ensures |ds| == |frames|
  {
    if frames == [] then []
    else
      [DecodeHub(frames[0], pressed, buttonSubscribed, tiltSubscribed)]
        + HubRun(frames[1..], PressedAfter(frames[0], pressed), buttonSubscribed, tiltSubscribed)
  }

  /** Edge suppression: a release is delivered only after some press frame (or a press seen before the stream). */
  lemma {:induction false} ReleaseNeedsEarlierPress(frames: seq<seq<Byte>>, pressed: bool, b: bool, t: bool, i: nat)
    requires i < |frames| && HubRun(frames, pressed, b, t)[i] == Event(Released)
    ensures pressed || ButtonPressedFrame in frames[..i]
    decreases i
  {
    if i > 0 {
      var rest := HubRun(frames[1..], PressedAfter(frames[0], pressed), b, t);
      assert HubRun(frames, pressed, b, t)[i] == rest[i - 1];
      ReleaseNeedsEarlierPress(frames[1..], PressedAfter(frames[0], pressed), b, t, i - 1);
      assert frames[1..][..i - 1] == frames[1..i];
      assert frames[..i] == [frames[0]] + frames[1..i];
    }
  }

  /** Once a press has been seen by a subscribed hub, every later release frame is delivered. */
  lemma {:induction false} ReleaseAfterPressDelivered(frames: seq<seq<Byte>>, pressed: bool, t: bool, i: nat)
    requires i < |frames| && frames[i] == ButtonReleasedFrame
    requires pressed || ButtonPressedFrame in frames[..i]
    ensures HubRun(frames, pressed, true, t)[i] == Event(Released)
    decreases i
  {
    var after := PressedAfter(frames[0], pressed);
    if i > 0 {
      assert frames[..i] == [frames[0]] + frames[1..][..i - 1];
      assert after || ButtonPressedFrame in frames[1..][..i - 1];
      ReleaseAfterPressDelivered(frames[1..], after, t, i - 1);
    }
  }
}
