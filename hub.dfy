/**
 * The hub driver's objects: the shared characteristic (the transport), the
 * motors, the colour-and-distance sensors and the hub itself with its LED,
 * button and tilt channels.
 *
 * Each component keeps its own subscription and mode flags and its own
 * listener registry. Writes go to the one characteristic all components
 * share; whether the transport accepts a write is an input (`accepted`).
 * Every inbound frame is handed to every component's data handler in the
 * order the handlers were registered.
 */
module Hub {

  import opened Bytes
  import opened Enums
  import opened Wrappers
  import opened Commands
  import opened Frames
  import opened Registry
  import Completion

  datatype WriteResult = Ok | TransportError

  /** What a successful write adds to the transport's log. */
  function Log(accepted: bool, cmd: seq<Byte>): seq<seq<Byte>> {
    if accepted then [cmd] else []
  }

  /** The hub's one GATT characteristic. `sent` records the writes the transport accepted. */
  class Characteristic {
    ghost var sent: seq<seq<Byte>>

    constructor ()
      ensures sent == []
    {
      sent := [];
    }

    /** writeData: resolves when the transport accepts the write, rejects otherwise. */
    method Write(data: seq<Byte>, accepted: bool) returns (r: WriteResult)
      modifies this
      ensures r == (if accepted then Ok else TransportError)
      ensures sent == old(sent) + Log(accepted, data)
    {
      if accepted {
        sent := sent + [data];
        r := Ok;
      } else {
        r := TransportError;
      }
    }
  }

  datatype MotorKind = OnKind | OffKind | RunningKind | AngleKind | SpeedKind

  function MotorKindOf(e: MotorEvent): MotorKind {
    match e
    case MotorOn => OnKind
    case MotorRunning => RunningKind
    case MotorOff => OffKind
    case Angle(_) => AngleKind
    case Speed(_) => SpeedKind
  }

  /** Only feedback subscriptions ask the motor to report; status events come unasked. */
  predicate IsFeedback(kind: MotorKind) {
    kind == AngleKind || kind == SpeedKind
  }

  class Motor {
    const port: Byte
    const ch: Characteristic
    var listeners: seq<Listener<MotorKind>>
    var subscribed: bool
    var speed: bool

    constructor (port: Byte, ch: Characteristic)
      ensures this.port == port && this.ch == ch
      ensures listeners == [] && !subscribed && !speed
    {
      this.port := port;
      this.ch := ch;
      listeners := [];
      subscribed := false;
      speed := false;
    }

    /** Constant power; a second power addresses the pair through the group template. */
    method Constant(speed: int, speedB: Option<int>, accepted: bool) returns (r: WriteResult)
      requires IsInt8(speed) && OptInt8(speedB)
      modifies ch
      ensures r == (if accepted then Ok else TransportError)
      ensures ch.sent == old(ch.sent) + Log(accepted, ConstantCommand(port, speed, speedB))
    {
      var cmd := EncodeConstant(port, speed, speedB);
      r := ch.Write(cmd, accepted);
    }

    method Timed(time: nat, speed: int, speedB: Option<int>, accepted: bool) returns (r: WriteResult)
      requires time < 0x1_0000 && IsInt8(speed) && OptInt8(speedB)
      modifies ch
      ensures r == (if accepted then Ok else TransportError)
      ensures ch.sent == old(ch.sent) + Log(accepted, TimedCommand(port, time, speed, speedB))
    {
      var cmd := EncodeTimed(port, time, speed, speedB);
      r := ch.Write(cmd, accepted);
    }

    method Angled(angle: nat, speed: int, speedB: Option<int>, accepted: bool) returns (r: WriteResult)
      requires angle < 0x1_0000_0000 && IsInt8(speed) && OptInt8(speedB)
      modifies ch
      ensures r == (if accepted then Ok else TransportError)
      ensures ch.sent == old(ch.sent) + Log(accepted, AngledCommand(port, angle, speed, speedB))
    {
      var cmd := EncodeAngled(port, angle, speed, speedB);
      r := ch.Write(cmd, accepted);
    }

    /** Stop is constant power 0 on this motor's own port. */
    method Stop(accepted: bool) returns (r: WriteResult)
      modifies ch
      ensures r == (if accepted then Ok else TransportError)
      ensures ch.sent == old(ch.sent) + Log(accepted, MotorConstantSingle[3 := port])
    {
      StopPatchesOnlyPort(port);
      r := Constant(0, None, accepted);
    }

    /**
     * timedAndWait: the start listeners are armed, then the timed command is
     * written. The returned handshake state then advances with Completion.Step
     * on each status event the motor reports.
     */
    method TimedAndWait(time: nat, speed: int, speedB: Option<int>, accepted: bool) returns (w: Completion.Wait)
      requires time < 0x1_0000 && IsInt8(speed) && OptInt8(speedB)
      modifies ch
      ensures ch.sent == old(ch.sent) + Log(accepted, TimedCommand(port, time, speed, speedB))
      ensures accepted ==> w == Completion.Start
      ensures !accepted ==> w == Completion.Wait(false, false, false, Completion.Failed(Completion.WriteFailed))
    {
      w := Completion.Start;
      var r := Timed(time, speed, speedB, accepted);
      if r == TransportError {
        w := Completion.Step(w, Completion.WriteError);
      }
    }

    /** angledAndWait: as TimedAndWait, with the angled command. */
    method AngledAndWait(angle: nat, speed: int, speedB: Option<int>, accepted: bool) returns (w: Completion.Wait)
      requires angle < 0x1_0000_0000 && IsInt8(speed) && OptInt8(speedB)
      modifies ch
      ensures ch.sent == old(ch.sent) + Log(accepted, AngledCommand(port, angle, speed, speedB))
      ensures accepted ==> w == Completion.Start
      ensures !accepted ==> w == Completion.Wait(false, false, false, Completion.Failed(Completion.WriteFailed))
    {
      w := Completion.Start;
      var r := Angled(angle, speed, speedB, accepted);
      if r == TransportError {
        w := Completion.Step(w, Completion.WriteError);
      }
    }

    /**
     * The first angle or speed subscription sets the flag and writes the
     * feedback subscribe command for the current mode; the listener is added
     * only if that write (when there is one) succeeds.
     */
    method Subscribe(kind: MotorKind, id: nat, accepted: bool) returns (r: WriteResult)
      modifies this, ch
      ensures subscribed == (old(subscribed) || IsFeedback(kind)) && speed == old(speed)
      ensures var writes := !old(subscribed) && IsFeedback(kind);
        && ch.sent == old(ch.sent) + (if writes then Log(accepted, FeedbackSubscribeCommand(port, speed)) else [])
        && r == (if writes && !accepted then TransportError else Ok)
      ensures listeners == old(listeners) + (if r == Ok then [Listener(kind, id)] else [])
    {
      r := Ok;
      if !subscribed && IsFeedback(kind) {
        subscribed := true;
        r := WriteSubscribeCommand(accepted);
        if r == TransportError {
          return;
        }
      }
      listeners := listeners + [Listener(kind, id)];
    }

    /** The speedMode getter. */
    function SpeedMode(): (m: bool)
      reads this
      ensures m <==> speed
    {
      speed
    }

    /** Switching mode rewrites the subscribe command only when already subscribed. */
    method SetSpeedMode(speedMode: bool, accepted: bool) returns (r: WriteResult)
      modifies this, ch
      ensures SpeedMode() == speedMode && subscribed == old(subscribed) && listeners == old(listeners)
      ensures var writes := old(speed) != speedMode && old(subscribed);
        && ch.sent == old(ch.sent) + (if writes then Log(accepted, FeedbackSubscribeCommand(port, speedMode)) else [])
        && r == (if writes && !accepted then TransportError else Ok)
    {
      r := Ok;
      if speed != speedMode {
        speed := speedMode;
        if subscribed {
          r := WriteSubscribeCommand(accepted);
        }
      }
    }

    method WriteSubscribeCommand(accepted: bool) returns (r: WriteResult)
      modifies ch
      ensures r == (if accepted then Ok else TransportError)
      ensures ch.sent == old(ch.sent) + Log(accepted, FeedbackSubscribeCommand(port, speed))
    {
      var cmd := EncodeFeedbackSubscribe(port, speed);
      r := ch.Write(cmd, accepted);
    }

    /** The data handler: the decoded event and the listeners it is delivered to, in order. */
    method OnData(frame: seq<Byte>) returns (d: Decoded<MotorEvent>, invoked: seq<nat>)
      ensures d == DecodeMotor(port, frame)
      ensures invoked == (if d.Event? then Invoked(listeners, MotorKindOf(d.event)) else [])
    {
      d := DecodeMotor(port, frame);
      invoked := [];
      if d.Event? {
        invoked := Invoked(listeners, MotorKindOf(d.event));
      }
    }
  }

  datatype SensorKind = ColorAndDistanceKind | LuminosityKind

  function SensorKindOf(e: SensorEvent): SensorKind {
    match e
    case Luminosity(_) => LuminosityKind
    case ColorDistance(_, _) => ColorAndDistanceKind
  }

  /** A registry that may not exist yet; subscribing creates it. */
  function Registered<K>(emitter: Option<seq<Listener<K>>>): seq<Listener<K>> {
    if emitter.Some? then emitter.value else []
  }

  class ColorAndDistance {
    const port: Byte
    const ch: Characteristic
    var emitter: Option<seq<Listener<SensorKind>>>
    var luminosity: bool

    constructor (port: Byte, ch: Characteristic)
      ensures this.port == port && this.ch == ch
      ensures emitter.None? && !luminosity
    {
      this.port := port;
      this.ch := ch;
      emitter := None;
      luminosity := false;
    }

    /**
     * The first subscription of either kind creates the emitter and writes the
     * subscribe command for the current mode; the listener is added only if
     * that write (when there is one) succeeds.
     */
    method Subscribe(kind: SensorKind, id: nat, accepted: bool) returns (r: WriteResult)
      modifies this, ch
      ensures emitter.Some? && luminosity == old(luminosity)
      ensures var writes := old(emitter).None?;
        && ch.sent == old(ch.sent) + (if writes then Log(accepted, SensorSubscribeCommand(port, luminosity)) else [])
        && r == (if writes && !accepted then TransportError else Ok)
      ensures emitter.value == Registered(old(emitter)) + (if r == Ok then [Listener(kind, id)] else [])
    {
      r := Ok;
      if emitter.None? {
        emitter := Some([]);
        r := WriteSubscribeCommand(accepted);
        if r == TransportError {
          return;
        }
      }
      emitter := Some(emitter.value + [Listener(kind, id)]);
    }

    /** The luminosityMode getter. */
    function LuminosityMode(): (m: bool)
      reads this
      ensures m <==> luminosity
    {
      luminosity
    }

    method SetLuminosityMode(luminosityMode: bool, accepted: bool) returns (r: WriteResult)
      modifies this, ch
      ensures LuminosityMode() == luminosityMode && emitter == old(emitter)
      ensures var writes := old(luminosity) != luminosityMode && old(emitter).Some?;
        && ch.sent == old(ch.sent) + (if writes then Log(accepted, SensorSubscribeCommand(port, luminosityMode)) else [])
        && r == (if writes && !accepted then TransportError else Ok)
    {
      r := Ok;
      if luminosity != luminosityMode {
        luminosity := luminosityMode;
        if emitter.Some? {
          r := WriteSubscribeCommand(accepted);
        }
      }
    }

    method WriteSubscribeCommand(accepted: bool) returns (r: WriteResult)
      modifies ch
      ensures r == (if accepted then Ok else TransportError)
      ensures ch.sent == old(ch.sent) + Log(accepted, SensorSubscribeCommand(port, luminosity))
    {
      var cmd := EncodeSensorSubscribe(port, luminosity);
      r := ch.Write(cmd, accepted);
    }

    method OnData(frame: seq<Byte>) returns (d: Decoded<SensorEvent>, invoked: seq<nat>)
      ensures d == DecodeSensor(port, emitter.Some?, luminosity, frame)
      ensures invoked == (if d.Event? then Invoked(Registered(emitter), SensorKindOf(d.event)) else [])
    {
      d := DecodeSensor(port, emitter.Some?, luminosity, frame);
      invoked := [];
      if d.Event? {
        invoked := Invoked(emitter.value, SensorKindOf(d.event));
      }
    }
  }

  datatype ButtonKind = PressedKind | ReleasedKind

  datatype TiltKind = PreciseKind | SimpleKind

  /** Any component's event, for the fan-out of one frame. */
  datatype AnyEvent = OfMotor(motor: MotorEvent) | OfSensor(sensor: SensorEvent) | OfHub(hub: HubEvent)

  function LiftMotor(d: Decoded<MotorEvent>): Decoded<AnyEvent> {
    match d
    case Ignored => Ignored
    case Event(e) => Event(OfMotor(e))
    case RangeError => RangeError
  }

  function LiftSensor(d: Decoded<SensorEvent>): Decoded<AnyEvent> {
    match d
    case Ignored => Ignored
    case Event(e) => Event(OfSensor(e))
    case RangeError => RangeError
  }

  function LiftHub(d: Decoded<HubEvent>): Decoded<AnyEvent> {
    match d
    case Ignored => Ignored
    case Event(e) => Event(OfHub(e))
    case RangeError => RangeError
  }

  /** The data handlers in the order they are registered on the characteristic. */
  datatype Handler = MotorA | MotorB | MotorAB | MotorC | MotorD | SensorC | SensorD | HubHandler

  const Handlers: seq<Handler> := [MotorA, MotorB, MotorAB, MotorC, MotorD, SensorC, SensorD, HubHandler]

  datatype Delivery = Delivery(handler: Handler, outcome: Decoded<AnyEvent>, invoked: seq<nat>)

  /**
   * EventEmitter.emit calls the handlers in order and stops at the first one
   * that throws: the deliveries up to and including the first RangeError.
   */
  function UntilThrow(ds: seq<Delivery>): (r: seq<Delivery>)
    ensures |r| <= |ds| && r == ds[..|r|]
    ensures forall k :: 0 <= k < |r| - 1 ==> !r[k].outcome.RangeError?
    ensures |r| < |ds| ==> |r| > 0 && r[|r| - 1].outcome.RangeError?
  {
    if ds == [] then []
    else if ds[0].outcome.RangeError? then [ds[0]]
    else [ds[0]] + UntilThrow(ds[1..])
  }

  /** ds is what emit has delivered so far: a prefix of all, with a throw only in its last place. */
  ghost predicate DeliveredSoFar(all: seq<Delivery>, ds: seq<Delivery>, threw: bool) {
    && 0 < |ds| <= |all| && ds == all[..|ds|]
    && (forall k :: 0 <= k < |ds| - 1 ==> !ds[k].outcome.RangeError?)
    && threw == ds[|ds| - 1].outcome.RangeError?
  }

  lemma DeliverNext(all: seq<Delivery>, ds: seq<Delivery>)
    requires |ds| < |all| && (ds == [] || DeliveredSoFar(all, ds, false))
    ensures DeliveredSoFar(all, ds + [all[|ds|]], all[|ds|].outcome.RangeError?)
  {
    assert all[..|ds| + 1] == all[..|ds|] + [all[|ds|]];
  }

  /** Delivery stops exactly at the first handler that throws, or after the last one. */
  lemma {:induction false} DeliveredAll(all: seq<Delivery>, ds: seq<Delivery>, threw: bool)
    requires DeliveredSoFar(all, ds, threw) && (threw || |ds| == |all|)
    ensures ds == UntilThrow(all)
    decreases |ds|
  {
    if |ds| > 1 {
      DeliveredAll(all[1..], ds[1..], threw);
    }
  }

  /** When no handler throws, emit reaches every handler. */
  lemma {:induction false} NoThrowReachesAll(ds: seq<Delivery>)
    requires forall k :: 0 <= k < |ds| ==> !ds[k].outcome.RangeError?
    ensures UntilThrow(ds) == ds
  {
    if ds != [] {
      NoThrowReachesAll(ds[1..]);
    }
  }

  function MotorDelivery(h: Handler, m: Motor, frame: seq<Byte>): Delivery
    reads m
  {
    var d := DecodeMotor(m.port, frame);
    Delivery(h, LiftMotor(d), if d.Event? then Invoked(m.listeners, MotorKindOf(d.event)) else [])
  }

  function SensorDelivery(h: Handler, s: ColorAndDistance, frame: seq<Byte>): Delivery
    reads s
  {
    var d := DecodeSensor(s.port, s.emitter.Some?, s.luminosity, frame);
    Delivery(h, LiftSensor(d), if d.Event? then Invoked(Registered(s.emitter), SensorKindOf(d.event)) else [])
  }

  /** A motor as constructed: unsubscribed, in angle mode, with no listeners. */
  predicate Idle(m: Motor)
    reads m
  {
    m.listeners == [] && !m.subscribed && !m.speed
  }

  /** A sensor as constructed: no emitter yet, in distance mode. */
  predicate SensorIdle(s: ColorAndDistance)
    reads s
  {
    s.emitter.None? && !s.luminosity
  }

  class MoveHub {
    const ch: Characteristic
    const motorA: Motor
    const motorB: Motor
    const motorAB: Motor
    const motorC: Motor
    const motorD: Motor
    const colorAndDistanceC: ColorAndDistance
    const colorAndDistanceD: ColorAndDistance
    var buttonEmitter: Option<seq<Listener<ButtonKind>>>
    var buttonPressed: bool
    var tiltEmitter: Option<seq<Listener<TiltKind>>>
    var precise: bool

    /** The ports the hub assigns, and one characteristic shared by every component. */
    ghost predicate Wired()
      reads this, motorA, motorB, motorAB, motorC, motorD, colorAndDistanceC, colorAndDistanceD
    {
      && motorA.port == 0x37 && motorB.port == 0x38 && motorAB.port == 0x39
      && motorC.port == 0x01 && motorD.port == 0x02
      && colorAndDistanceC.port == 0x01 && colorAndDistanceD.port == 0x02
      && motorA.ch == motorB.ch == motorAB.ch == motorC.ch == motorD.ch == ch
      && colorAndDistanceC.ch == colorAndDistanceD.ch == ch
    }

    /** Motor A, B, the A+B pair, C, D, and the two sensor connectors, all on one characteristic. */
    constructor (ch: Characteristic)
      ensures this.ch == ch && Wired()
      ensures buttonEmitter.None? && !buttonPressed && tiltEmitter.None? && !precise
      ensures Idle(motorA) && Idle(motorB) && Idle(motorAB) && Idle(motorC) && Idle(motorD)
      ensures SensorIdle(colorAndDistanceC) && SensorIdle(colorAndDistanceD)
    {
      this.ch := ch;
      motorA := new Motor(0x37, ch);
      motorB := new Motor(0x38, ch);
      motorAB := new Motor(0x39, ch);
      motorC := new Motor(0x01, ch);
      motorD := new Motor(0x02, ch);
      colorAndDistanceC := new ColorAndDistance(0x01, ch);
      colorAndDistanceD := new ColorAndDistance(0x02, ch);
      buttonEmitter := None;
      buttonPressed := false;
      tiltEmitter := None;
      precise := false;
    }

    method SetLed(color: Color, accepted: bool) returns (r: WriteResult)
      modifies ch
      ensures r == (if accepted then Ok else TransportError)
      ensures ch.sent == old(ch.sent) + Log(accepted, LedCommand(color))
    {
      var cmd := EncodeLed(color);
      r := ch.Write(cmd, accepted);
    }

    /** The first button subscription creates the emitter and writes the fixed button subscribe command. */
    method SubscribeButton(kind: ButtonKind, id: nat, accepted: bool) returns (r: WriteResult)
      modifies this, ch
      ensures buttonEmitter.Some? && buttonPressed == old(buttonPressed)
      ensures tiltEmitter == old(tiltEmitter) && precise == old(precise)
      ensures var writes := old(buttonEmitter).None?;
        && ch.sent == old(ch.sent) + (if writes then Log(accepted, Commands.SubscribeButton) else [])
        && r == (if writes && !accepted then TransportError else Ok)
      ensures buttonEmitter.value == Registered(old(buttonEmitter)) + (if r == Ok then [Listener(kind, id)] else [])
    {
      r := Ok;
      if buttonEmitter.None? {
        buttonEmitter := Some([]);
        r := ch.Write(Commands.SubscribeButton, accepted);
        if r == TransportError {
          return;
        }
      }
      buttonEmitter := Some(buttonEmitter.value + [Listener(kind, id)]);
    }

    /** The first tilt subscription creates the emitter and writes the subscribe command for the current mode. */
    method SubscribeTilt(kind: TiltKind, id: nat, accepted: bool) returns (r: WriteResult)
      modifies this, ch
      ensures tiltEmitter.Some? && precise == old(precise)
      ensures buttonEmitter == old(buttonEmitter) && buttonPressed == old(buttonPressed)
      ensures var writes := old(tiltEmitter).None?;
        && ch.sent == old(ch.sent) + (if writes then Log(accepted, TiltSubscribeCommand(precise)) else [])
        && r == (if writes && !accepted then TransportError else Ok)
      ensures tiltEmitter.value == Registered(old(tiltEmitter)) + (if r == Ok then [Listener(kind, id)] else [])
    {
      r := Ok;
      if tiltEmitter.None? {
        tiltEmitter := Some([]);
        r := ch.Write(TiltSubscribeCommand(precise), accepted);
        if r == TransportError {
          return;
        }
      }
      tiltEmitter := Some(tiltEmitter.value + [Listener(kind, id)]);
    }

    /** The tiltPreciseMode getter. */
    function TiltPreciseMode(): (m: bool)
      reads this
      ensures m <==> precise
    {
      precise
    }

    method SetTiltPreciseMode(preciseMode: bool, accepted: bool) returns (r: WriteResult)
      modifies this, ch
      ensures TiltPreciseMode() == preciseMode && tiltEmitter == old(tiltEmitter)
      ensures buttonEmitter == old(buttonEmitter) && buttonPressed == old(buttonPressed)
      ensures var writes := old(precise) != preciseMode && old(tiltEmitter).Some?;
        && ch.sent == old(ch.sent) + (if writes then Log(accepted, TiltSubscribeCommand(preciseMode)) else [])
        && r == (if writes && !accepted then TransportError else Ok)
    {
      r := Ok;
      if precise != preciseMode {
        precise := preciseMode;
        if tiltEmitter.Some? {
          r := ch.Write(TiltSubscribeCommand(preciseMode), accepted);
        }
      }
    }

    /** The listeners a hub event is delivered to. */
    function HubInvoked(e: HubEvent): seq<nat>
      reads this
    {
      match e
      case Pressed => Invoked(Registered(buttonEmitter), PressedKind)
      case Released => Invoked(Registered(buttonEmitter), ReleasedKind)
      case TiltPrecise(_, _, _) => Invoked(Registered(tiltEmitter), PreciseKind)
      case TiltSimple(_) => Invoked(Registered(tiltEmitter), SimpleKind)
    }

    /** The hub's own data handler: a press frame sets the pressed flag even with no subscriber. */
    method OnData(frame: seq<Byte>) returns (d: Decoded<HubEvent>, invoked: seq<nat>)
      modifies this`buttonPressed
      ensures d == DecodeHub(frame, old(buttonPressed), buttonEmitter.Some?, tiltEmitter.Some?)
      ensures buttonPressed == PressedAfter(frame, old(buttonPressed))
      ensures invoked == (if d.Event? then HubInvoked(d.event) else [])
    {
      d := DecodeHub(frame, buttonPressed, buttonEmitter.Some?, tiltEmitter.Some?);
      buttonPressed := PressedAfter(frame, buttonPressed);
      invoked := [];
      if d.Event? {
        invoked := HubInvoked(d.event);
      }
    }

    function HubDelivery(frame: seq<Byte>): Delivery
      reads this
    {
      var d := DecodeHub(frame, buttonPressed, buttonEmitter.Some?, tiltEmitter.Some?);
      Delivery(HubHandler, LiftHub(d), if d.Event? then HubInvoked(d.event) else [])
    }

    /** What one handler does with the frame in the current state. */
    function DeliveryOf(h: Handler, frame: seq<Byte>): (dl: Delivery)
      reads this, motorA, motorB, motorAB, motorC, motorD, colorAndDistanceC, colorAndDistanceD
      ensures dl.handler == h
    {
      match h
      case MotorA => MotorDelivery(MotorA, motorA, frame)
      case MotorB => MotorDelivery(MotorB, motorB, frame)
      case MotorAB => MotorDelivery(MotorAB, motorAB, frame)
      case MotorC => MotorDelivery(MotorC, motorC, frame)
      case MotorD => MotorDelivery(MotorD, motorD, frame)
      case SensorC => SensorDelivery(SensorC, colorAndDistanceC, frame)
      case SensorD => SensorDelivery(SensorD, colorAndDistanceD, frame)
      case HubHandler => HubDelivery(frame)
    }

    /** What every handler would do with the frame, in registration order. */
    function Deliveries(frame: seq<Byte>): (ds: seq<Delivery>)
      reads this, motorA, motorB, motorAB, motorC, motorD, colorAndDistanceC, colorAndDistanceD
      ensures |ds| == |Handlers| && forall k :: 0 <= k < |ds| ==> ds[k].handler == Handlers[k]
    {
      seq(|Handlers|, k requires 0 <= k < |Handlers| reads this, motorA, motorB, motorAB, motorC, motorD, colorAndDistanceC, colorAndDistanceD
        => DeliveryOf(Handlers[k], frame))
    }

    /** Runs one handler on the frame. */
    method Handle(h: Handler, frame: seq<Byte>) returns (dl: Delivery)
      modifies this`buttonPressed
      ensures dl == old(DeliveryOf(h, frame))
      ensures buttonPressed == if h == HubHandler then PressedAfter(frame, old(buttonPressed)) else old(buttonPressed)
    {
      match h {
        case MotorA =>
          var m, invoked := motorA.OnData(frame);
          dl := Delivery(h, LiftMotor(m), invoked);
        case MotorB =>
          var m, invoked := motorB.OnData(frame);
          dl := Delivery(h, LiftMotor(m), invoked);
        case MotorAB =>
          var m, invoked := motorAB.OnData(frame);
          dl := Delivery(h, LiftMotor(m), invoked);
        case MotorC =>
          var m, invoked := motorC.OnData(frame);
          dl := Delivery(h, LiftMotor(m), invoked);
        case MotorD =>
          var m, invoked := motorD.OnData(frame);
          dl := Delivery(h, LiftMotor(m), invoked);
        case SensorC =>
          var d, invoked := colorAndDistanceC.OnData(frame);
          dl := Delivery(h, LiftSensor(d), invoked);
        case SensorD =>
          var d, invoked := colorAndDistanceD.OnData(frame);
          dl := Delivery(h, LiftSensor(d), invoked);
        case HubHandler =>
          var d, invoked := OnData(frame);
          dl := Delivery(h, LiftHub(d), invoked);
      }
    }

    /**
     * One notification from the characteristic: every handler sees the frame,
     * in registration order, until one of them throws.
     */
    method Dispatch(frame: seq<Byte>) returns (ds: seq<Delivery>)
      modifies this`buttonPressed
      ensures ds == UntilThrow(old(Deliveries(frame)))
      ensures buttonPressed == if |ds| == |Handlers| then PressedAfter(frame, old(buttonPressed)) else old(buttonPressed)
    {
      ghost var all := Deliveries(frame);
      ds := [];
      var threw := false;
      var i := 0;
      while i < |Handlers| && !threw
        invariant 0 <= i <= |Handlers| && |ds| == i
        invariant if i == 0 then !threw else DeliveredSoFar(all, ds, threw)
        invariant i < |Handlers| ==> buttonPressed == old(buttonPressed)
        invariant i == |Handlers| ==> buttonPressed == PressedAfter(frame, old(buttonPressed))
      {
        var dl := Handle(Handlers[i], frame);
        assert dl == all[i];
        DeliverNext(all, ds);
        ds, threw := ds + [dl], dl.outcome.RangeError?;
        i := i + 1;
      }
      DeliveredAll(all, ds, threw);
    }

    /** No handler reads past the end of a frame of 8 bytes or more, so every handler sees it. */
    lemma LongFramesReachEveryHandler(frame: seq<Byte>)
      requires |frame| >= 8
      ensures UntilThrow(Deliveries(frame)) == Deliveries(frame)
    {
      var all := Deliveries(frame);
      forall k | 0 <= k < |all| ensures !all[k].outcome.RangeError? {
        assert all[k] == DeliveryOf(Handlers[k], frame);
      }
      NoThrowReachesAll(all);
    }

    /**
     * Motor C and the sensor on connector C share port 0x01: one angle-feedback
     * frame is decoded by both, as an angle and as a luminosity reading.
     */
    lemma SharedPortFanOut(frame: seq<Byte>)
      requires Wired() && colorAndDistanceC.emitter.Some? && colorAndDistanceC.luminosity
      requires |frame| >= 8 && frame[..4] == [0x08, 0x00, 0x45, 0x01] && ReadUInt32LE(frame, 4) < 1024
      ensures Deliveries(frame)[3].outcome == Event(OfMotor(Angle(ReadInt32LE(frame, 4))))
      ensures Deliveries(frame)[5].outcome == Event(OfSensor(Luminosity(ReadUInt32LE(frame, 4))))
    {
      SharedPortFrame(frame);
      assert Deliveries(frame)[3] == DeliveryOf(MotorC, frame);
      assert Deliveries(frame)[5] == DeliveryOf(SensorC, frame);
    }
  }
}
