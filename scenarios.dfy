/**
 * Client-side runs of the driver objects, for the behaviours the hub's users
 * rely on: subscribe-once, deferred mode switches, button edge suppression and
 * the run-and-wait outcomes driven by decoded status frames.
 */
module Scenarios {

  import opened Bytes
  import opened Wrappers
  import opened Commands
  import opened Frames
  import opened Registry
  import opened Hub
  import Completion

  /**
   * Status subscriptions never write; the first feedback subscription writes
   * one subscribe command, a repeated one writes nothing, and a mode switch
   * while subscribed writes exactly one more. Setting the same mode again writes nothing.
   */
  method MotorSubscribeOnce() returns (ch: Characteristic)
    ensures ch.sent == [FeedbackSubscribeCommand(0x37, false), FeedbackSubscribeCommand(0x37, true)]
  {
    ch := new Characteristic();
    var motor := new Motor(0x37, ch);
    var r := motor.Subscribe(OnKind, 1, true);
    r := motor.Subscribe(AngleKind, 2, true);
    r := motor.Subscribe(SpeedKind, 3, true);
    r := motor.SetSpeedMode(true, true);
    r := motor.SetSpeedMode(true, true);
  }

  /** On a new hub, the first angle subscription on motor A writes the angle subscribe command for port 0x37. */
  method HubMotorFirstSubscribe() returns (ch: Characteristic)
    ensures ch.sent == [FeedbackSubscribeCommand(0x37, false)]
  {
    ch := new Characteristic();
    var hub := new MoveHub(ch);
    var r := hub.motorA.Subscribe(AngleKind, 1, true);
  }

  /**
   * A first subscription whose write fails keeps the emitter but not the
   * listener, and the subscribe command is not sent again later.
   */
  method FailedSubscribeNotResent() returns (ch: Characteristic, r: WriteResult, listeners: seq<Listener<SensorKind>>)
    ensures r == TransportError && ch.sent == [] && listeners == [Listener(LuminosityKind, 2)]
  {
    ch := new Characteristic();
    var sensor := new ColorAndDistance(0x01, ch);
    r := sensor.Subscribe(ColorAndDistanceKind, 1, false);
    var r2 := sensor.Subscribe(LuminosityKind, 2, true);
    listeners := sensor.emitter.value;
  }

  /** A mode switch before any subscription only sets the flag; the first subscription uses it. */
  method TiltModeDeferred() returns (ch: Characteristic)
    ensures ch.sent == [TiltSubscribeCommand(true)]
  {
    ch := new Characteristic();
    var hub := new MoveHub(ch);
    var r := hub.SetTiltPreciseMode(true, true);
    r := hub.SubscribeTilt(SimpleKind, 1, true);
    r := hub.SubscribeTilt(PreciseKind, 2, true);
  }

  /**
   * A release frame before any press reaches no listener; after one press,
   * the press listener and then the release listener are called.
   */
  method ButtonEdgeSuppression() returns (early: seq<nat>, onPress: seq<nat>, onRelease: seq<nat>)
    ensures early == [] && onPress == [7] && onRelease == [8]
  {
    var ch := new Characteristic();
    var hub := new MoveHub(ch);
    var r := hub.SubscribeButton(PressedKind, 7, true);
    r := hub.SubscribeButton(ReleasedKind, 8, true);
    var reg := [Listener(PressedKind, 7), Listener(ReleasedKind, 8)];
    assert hub.buttonEmitter.value == reg;
    assert reg[1..][1..] == [];
    assert Invoked(reg, PressedKind) == [7] && Invoked(reg, ReleasedKind) == [8];
    var d;
    d, early := hub.OnData(ButtonReleasedFrame);
    d, onPress := hub.OnData(ButtonPressedFrame);
    d, onRelease := hub.OnData(ButtonReleasedFrame);
  }

  /** A press seen before anyone subscribed still arms the release notification. */
  method PressBeforeSubscribe() returns (onRelease: seq<nat>)
    ensures onRelease == [3]
  {
    var ch := new Characteristic();
    var hub := new MoveHub(ch);
    var d, invoked := hub.OnData(ButtonPressedFrame);
    var r := hub.SubscribeButton(ReleasedKind, 3, true);
    d, onRelease := hub.OnData(ButtonReleasedFrame);
  }

  /**
   * The run-and-wait input a motor status frame with this code produces, if
   * any: only the three known codes emit an event.
   */
  function StatusInput(port: Byte, code: Byte): (i: Option<Completion.Input>)
    ensures i == Some(Completion.Status(MotorOn)) <==> code == 0x01
    ensures i == Some(Completion.Status(MotorRunning)) <==> code == 0x05
    ensures i == Some(Completion.Status(MotorOff)) <==> code == 0x0a
    ensures i.None? <==> code !in {0x01, 0x05, 0x0a}
  {
    var frame := [0x05, 0x00, 0x82, port, code];
    assert frame[..4] == StatusHeader(port);
    MotorStatusDecoding(port, frame);
    var d := DecodeMotor(port, frame);
    if d.Event? then Some(Completion.Status(d.event)) else None
  }

  /** timedAndWait on motor D: an "on" frame (0x01) then an "off" frame (0x0a) resolve the wait. */
  method TimedAndWaitResolves() returns (w: Completion.Wait)
    ensures w.settled == Completion.Fulfilled && Completion.Valid(w) && Completion.PhaseOf(w) == Completion.Resolved
  {
    var ch := new Characteristic();
    var motor := new Motor(0x02, ch);
    w := motor.TimedAndWait(500, 30, None, true);
    w := Completion.Step(w, StatusInput(0x02, 0x0a).value);
    w := Completion.Step(w, StatusInput(0x02, 0x01).value);
    w := Completion.Step(w, StatusInput(0x02, 0x05).value);
    w := Completion.Step(w, StatusInput(0x02, 0x0a).value);
  }

  /** angledAndWait on a motor that reports "running" (0x05) first is rejected. */
  method AngledAndWaitBusy() returns (w: Completion.Wait)
    ensures w.settled == Completion.Failed(Completion.MotorStillRunning) && Completion.Valid(w) && Completion.PhaseOf(w) == Completion.Rejected
  {
    var ch := new Characteristic();
    var motor := new Motor(0x37, ch);
    w := motor.AngledAndWait(90, -20, None, true);
    w := Completion.Step(w, StatusInput(0x37, 0x05).value);
    w := Completion.Step(w, StatusInput(0x37, 0x01).value);
    w := Completion.Step(w, StatusInput(0x37, 0x0a).value);
  }
}
