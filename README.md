# LEGO Boost Move Hub driver — a Dafny model

This project models the protocol core of the `ts-movehub` driver for the LEGO
Boost Move Hub (`src/moveHub.ts`). The hub talks over a single Bluetooth LE
characteristic. Every command the driver sends is a fixed byte template with a
few bytes patched. Every notification frame the hub sends reaches every
component of the driver, and each component recognises its own frames by an
exact header.

The model has nine modules:

- `Wrappers`: the `Option` type.
- `Bytes`: octets, little-endian unsigned layouts and two's-complement signed
  layouts, as used by Node's `Buffer` readers and writers. It includes
  round-trip lemmas in both directions.
- `Enums`: the `Color` and `Orientation` const enums, as integer ranges with
  named constants.
- `Commands`: the command templates. Each command is stated twice:
  - as a value, with functions that say which bytes differ from the template
    and what reading the patched fields gives back;
  - as the driver builds it, by copying the template into a fresh array and
    patching it in place (the `Encode*` methods). Each method is proved equal to
    the value.
- `Frames`: the data handlers of the motor, the colour-and-distance sensor and
  the hub (button and tilt), as pure decoders from a frame and the component's
  state to "ignored", one event, or a `RangeError`. A `RangeError` is the
  exception `Buffer` throws when a read runs past the end of a short frame.
- `Registry`: an event emitter's ordered listener list, and the listeners one
  emitted event reaches.
- `Completion`: the run-and-wait handshake behind `timedAndWait` and
  `angledAndWait`, as a state machine over explicit inputs. The inputs are status
  events and a write failure. The machine records:
  - which of the one-shot "motorOn", "motorRunning" and "motorOff" listeners
    are registered;
  - whether the promise is pending, fulfilled or rejected.
- `Hub`: the driver's objects as classes. They share one `Characteristic`,
  whose ghost `sent` log stands in for the transport: a write either is appended
  or fails.
  - `Motor`, `ColorAndDistance` and `MoveHub` keep the driver's mutable
    fields: subscribed flag, mode flags, emitters, the button's pressed flag.
  - Their methods state exactly which commands are written and when.
  - `MoveHub.Dispatch` delivers one frame to the eight data handlers in
    registration order (motors A, B, AB, C, D, sensors C and D, then the hub),
    stopping at the first handler that throws.
- `Scenarios`: the objects run through short client sessions: subscribe-once,
  deferred mode switches, button edge suppression, and run-and-wait outcomes.

The getters `speedMode`, `luminosityMode` and `tiltPreciseMode` are the reading
functions `Motor.SpeedMode`, `ColorAndDistance.LuminosityMode` and
`MoveHub.TiltPreciseMode`.

### Behaviour of the code worth knowing

- **Shared port.** Every handler sees every frame. Motor C and the colour
  sensor on connector C both use port 0x01, so one `[0x08, 0x00, 0x45, 0x01, …]`
  frame is decoded by both: as an angle by the motor and as a reading by the
  sensor (`Hub.MoveHub.SharedPortFanOut`).
- **Tilt mode.** A tilt frame is decoded by its header alone. The `precise`
  flag only chooses which subscribe command is written, so frames of both kinds
  are decoded whatever mode was requested (`Frames.TiltDecoding`).
- **Raw codes.** The simple orientation and the sensor colour are passed on as
  the raw byte. Only colour 255 is turned into "no colour".
- **Power range.** Power bytes are any signed 8-bit value, -128..127.
- **Short frames.** A frame that matches a header but is too short for the reads
  makes the handler throw, and the handlers after it do not see the frame.

## Model

| member | source | states |
|---|---|---|
| Enums.ColorCodes | src/moveHub.ts:4-17 | the colour codes are 0..10 in declaration order, with Off equal to Black |
| Enums.OrientationCodes | src/moveHub.ts:19-26 | the orientation codes are 0..5 in declaration order |
| Bytes.ToLE | src/moveHub.ts:71 | the n-byte little-endian layout of a value that fits n bytes has exactly n bytes |
| Bytes.FromLE | src/moveHub.ts:218 | a little-endian byte sequence denotes a value below 256^length |
| Bytes.FromToLE | src/moveHub.ts:89 | reading back a little-endian write gives the value written |
| Bytes.ToFromLE | src/moveHub.ts:162 | writing back a little-endian read gives the same bytes |
| Bytes.ToSigned | src/moveHub.ts:164 | a two's-complement reading lies in the signed range of its width |
| Bytes.FromSigned | src/moveHub.ts:58 | the two's-complement pattern of a signed value fits its width |
| Bytes.SignedRoundTrip | src/moveHub.ts:58 | signed write then read, and read then write, are identities |
| Bytes.Int8Byte | src/moveHub.ts:58 | the byte writeInt8 stores reads back as the same signed value |
| Bytes.ReadInt8 | src/moveHub.ts:164 | readInt8 is in -128..127, is non-negative exactly when the byte is below 128, and is undone by writeInt8 |
| Bytes.ReadUInt16LE | src/moveHub.ts:71 | readUInt16LE is the low byte plus 256 times the high byte, below 65536 |
| Bytes.ReadUInt32LE | src/moveHub.ts:218 | readUInt32LE is below 2^32 |
| Bytes.ReadInt32LE | src/moveHub.ts:162 | readInt32LE is in the signed 32-bit range and is negative exactly when the top bit of byte 3 is set |
| Bytes.Top32 | src/moveHub.ts:162 | a 4-byte little-endian value reaches 2^31 exactly when its last byte has the top bit set |
| Bytes.UInt16RoundTrip | src/moveHub.ts:71 | writeUInt16LE then readUInt16LE returns the value |
| Bytes.UInt32RoundTrip | src/moveHub.ts:89 | writeUInt32LE then readUInt32LE returns the value |
| Commands.Patch | src/moveHub.ts:71 | a multi-byte write puts its bytes at the offset and leaves every other byte alone |
| Commands.ConstantCommand | src/moveHub.ts:49-60 | length equals byte 0; only bytes 3, 6 (and 7 for a pair) differ from the single/group template; byte 3 is the port; bytes 6 and 7 read back as the powers |
| Commands.TimedCommand | src/moveHub.ts:62-74 | length equals byte 0; only bytes 3, 6-8 (and 9) differ from the template; bytes 6..7 read back as the duration, 8 and 9 as the powers |
| Commands.AngledCommand | src/moveHub.ts:80-92 | length equals byte 0; only bytes 3, 6-10 (and 11) differ from the template; bytes 6..9 read back as the angle, 10 and 11 as the powers |
| Commands.StopPatchesOnlyPort | src/moveHub.ts:98-100 | stop is the single constant template with only the port patched |
| Commands.FeedbackSubscribeCommand | src/moveHub.ts:125-129 | port at byte 3, byte 4 is 0x01 in speed mode and 0x02 in angle mode, nothing else changed |
| Commands.SensorSubscribeCommand | src/moveHub.ts:209-213 | port at byte 3, byte 4 is 0x09 in luminosity mode and 0x08 in distance mode, nothing else changed |
| Commands.TiltSubscribeCommand | src/moveHub.ts:249-250 | tilt port 0x3a at byte 3; bytes 4 and 5 are 0x04, 0x08 for precise and 0x02, 0x01 for simple; nothing else differs between the two templates |
| Commands.LedCommand | src/moveHub.ts:281-285 | the colour code at byte 7, control port 0x32 kept, nothing else changed |
| Commands.OffIsBlack | src/moveHub.ts:4-6 | Off and Black give the same LED command, the template itself |
| Commands.CopyTemplate | src/moveHub.ts:52 | Buffer.from gives a fresh array holding the template |
| Commands.WriteUInt8 | src/moveHub.ts:57 | writeUInt8 changes exactly one byte |
| Commands.WriteInt8 | src/moveHub.ts:58 | writeInt8 changes exactly one byte, to the value's two's-complement byte |
| Commands.WriteUInt16LE | src/moveHub.ts:71 | writeUInt16LE patches the two little-endian bytes at the offset |
| Commands.WriteUInt32LE | src/moveHub.ts:89 | writeUInt32LE patches the four little-endian bytes at the offset |
| Commands.EncodeConstant | src/moveHub.ts:49-59 | the in-place construction yields ConstantCommand |
| Commands.EncodeTimed | src/moveHub.ts:62-73 | the in-place construction yields TimedCommand |
| Commands.EncodeAngled | src/moveHub.ts:80-91 | the in-place construction yields AngledCommand |
| Commands.EncodeFeedbackSubscribe | src/moveHub.ts:125-128 | the in-place construction yields FeedbackSubscribeCommand |
| Commands.EncodeSensorSubscribe | src/moveHub.ts:209-212 | the in-place construction yields SensorSubscribeCommand |
| Commands.EncodeLed | src/moveHub.ts:281-284 | the in-place construction yields LedCommand |
| Frames.DecodeMotor | src/moveHub.ts:151-166 | a frame matching none of the port's status, angle and speed headers is ignored; it throws exactly when a matched header's read runs past the end (status or speed header alone, angle header under 8 bytes); each event kind comes only from its own header |
| Frames.MotorStatusDecoding | src/moveHub.ts:152-160 | a status frame gives on, running or off exactly when byte 4 is 0x01, 0x05 or 0x0a, and nothing otherwise |
| Frames.MotorFeedbackDecoding | src/moveHub.ts:161-165 | the 0x08 header gives the int32 angle of bytes 4..7 and the 0x05 header the int8 speed of byte 4, whatever the mode flag |
| Frames.DistanceInches | src/moveHub.ts:224-228 | the distance is at least the whole part, and positive exactly when the whole part or the fraction denominator is |
| Frames.DecodeSensor | src/moveHub.ts:215-237 | nothing happens without an emitter and the sensor's header; it throws exactly on a short frame then; the event kind follows the luminosity flag |
| Frames.LuminosityDelivery | src/moveHub.ts:217-221 | in luminosity mode the u32 reading is delivered exactly when below 1024 |
| Frames.DistanceDelivery | src/moveHub.ts:222-234 | in distance mode a reading is delivered exactly when whole or denominator is non-zero; colour 255 becomes no colour, other colours pass unchanged |
| Frames.SensorSilentUntilSubscribed | src/moveHub.ts:216 | before the first subscription every frame is ignored |
| Frames.DistanceExample | src/moveHub.ts:223-233 | colour 10 at 5 + 1/4 inches is delivered as 0.13335 m |
| Frames.SharedPortFrame | src/moveHub.ts:274-276 | one port-0x01 feedback frame decodes as an angle for motor C and as a luminosity reading for sensor C |
| Frames.TiltDegrees | src/moveHub.ts:335-337 | a tilt reading scaled by 360/256 lies in [-180, 180) degrees |
| Frames.DecodeHub | src/moveHub.ts:322-342 | pressed is delivered exactly for the press frame with an emitter; released exactly for the release frame after a press with an emitter; a precise or simple tilt event only with a tilt emitter and a frame carrying that tilt header; any other frame is ignored; it throws exactly for a subscribed tilt frame too short for its reads |
| Frames.TiltDecoding | src/moveHub.ts:333-340 | with a tilt emitter, a precise-header frame gives the three int8 readings of bytes 4..6 in degrees and a simple-header frame gives byte 4, whatever the mode flag |
| Frames.PressedAfter | src/moveHub.ts:323-324 | the pressed flag is set by a press frame and never cleared |
| Frames.HubRun | src/moveHub.ts:322-342 | one outcome per frame of a stream |
| Frames.ReleaseNeedsEarlierPress | src/moveHub.ts:328-332 | a release is delivered only if a press frame came earlier in the stream (or before it) |
| Frames.ReleaseAfterPressDelivered | src/moveHub.ts:323-332 | once a press was seen, every release frame reaches a subscribed hub |
| Registry.Invoked | src/moveHub.ts:155-164 | emit calls as many listeners as are registered for the kind, each of them registered for it |
| Registry.InvokedComplete | src/moveHub.ts:109 | every listener registered for a kind is called on emit |
| Registry.InvokedAfterAdd | src/moveHub.ts:109 | addListener appends: the new listener runs after all earlier ones, and only for its own kind |
| Completion.Settle | src/moveHub.ts:139 | resolve or reject on a settled promise changes nothing; on a pending one it settles it |
| Completion.Run | src/moveHub.ts:131-149 | after any inputs the state is still valid, and a settled promise keeps its outcome |
| Completion.PhaseOf | src/moveHub.ts:131-149 | armed exactly at the start state; awaiting off exactly when only the off listener is registered and nothing is settled |
| Completion.Step | src/moveHub.ts:133-147 | each event or write failure keeps the handshake's invariant, never re-settles the promise, and never re-arms a start listener |
| Completion.RunAppend | src/moveHub.ts:131-149 | running two input sequences one after the other is running their concatenation |
| Completion.RunInvariant | src/moveHub.ts:135-145 | removed start listeners stay removed after any inputs |
| Completion.QuietKeepsArmed | src/moveHub.ts:141-142 | events other than on and running leave both start listeners armed |
| Completion.AwaitingKeeps | src/moveHub.ts:134 | while waiting for off, nothing but off or a write failure changes the state |
| Completion.RunningBeforeOnRejects | src/moveHub.ts:137-140 | running before on rejects as still running and removes the on listener, for good |
| Completion.OnThenOffResolves | src/moveHub.ts:133-136 | on and then off resolve the wait, whatever comes after |
| Completion.WriteFailureRejects | src/moveHub.ts:143-147 | a write failure before on or running rejects and removes both listeners, for good |
| Completion.NothingArmedStays | src/moveHub.ts:143-147 | with no listener registered and the promise settled, no input changes anything |
| Completion.WriteFailureAfterOnKeepsOffListener | src/moveHub.ts:133-147 | a write failure after on rejects but leaves the off listener registered |
| Completion.FulfilledNeedsOff | src/moveHub.ts:134 | the wait is fulfilled only by an off event arriving while the off listener is registered |
| Completion.OffArmedNeedsOn | src/moveHub.ts:133-134 | the off listener is registered only after an on event |
| Completion.ResolvedOnlyAfterOnThenOff | src/moveHub.ts:131-149 | a resolved wait saw on and, later, off |
| Hub.Characteristic.constructor | src/moveHub.ts:346-356 | nothing has been sent |
| Hub.Characteristic.Write | src/moveHub.ts:346-356 | a write resolves and is logged exactly when the transport accepts it |
| Hub.Motor.constructor | src/moveHub.ts:41-47 | a motor starts unsubscribed, in angle mode, with no listeners |
| Hub.Motor.Constant | src/moveHub.ts:49-60 | writes exactly ConstantCommand and reports the transport's outcome |
| Hub.Motor.Timed | src/moveHub.ts:62-74 | writes exactly TimedCommand |
| Hub.Motor.Angled | src/moveHub.ts:80-92 | writes exactly AngledCommand |
| Hub.Motor.Stop | src/moveHub.ts:98-100 | writes the single constant template with only the port patched |
| Hub.Motor.TimedAndWait | src/moveHub.ts:76-78 | writes TimedCommand; the handshake starts armed, or, when the write fails, is rejected with every listener removed |
| Hub.Motor.AngledAndWait | src/moveHub.ts:94-96 | writes AngledCommand; same handshake outcome as TimedAndWait |
| Hub.Motor.Subscribe | src/moveHub.ts:104-110 | only the first angle/speed subscription writes the feedback command; the flag stays set after a failed write; the listener is added exactly when no write failed |
| Hub.Motor.SpeedMode | src/moveHub.ts:112-114 | the getter reports the mode flag; SetSpeedMode ensures it reports the mode last set |
| Hub.Motor.SetSpeedMode | src/moveHub.ts:116-123 | the getter then reports the new mode; one subscribe command for the new mode is written exactly when the mode changes while subscribed |
| Hub.Motor.WriteSubscribeCommand | src/moveHub.ts:125-129 | writes the feedback subscribe command for the current mode |
| Hub.Motor.OnData | src/moveHub.ts:151-166 | decodes with DecodeMotor and calls exactly the listeners of that event's kind, in order |
| Hub.ColorAndDistance.constructor | src/moveHub.ts:179-184 | no emitter, distance mode |
| Hub.ColorAndDistance.Subscribe | src/moveHub.ts:188-194 | the first subscription of any kind creates the emitter and writes the command for the current mode; later ones write nothing; the listener is added exactly when no write failed |
| Hub.ColorAndDistance.LuminosityMode | src/moveHub.ts:196-198 | the getter reports the mode flag; SetLuminosityMode ensures it reports the mode last set |
| Hub.ColorAndDistance.SetLuminosityMode | src/moveHub.ts:200-207 | the getter then reports the new mode; one command is written exactly when the mode changes and an emitter exists |
| Hub.ColorAndDistance.WriteSubscribeCommand | src/moveHub.ts:209-213 | writes the sensor subscribe command for the current mode |
| Hub.ColorAndDistance.OnData | src/moveHub.ts:215-237 | decodes with DecodeSensor and calls exactly the listeners of that event's kind |
| Hub.UntilThrow | src/moveHub.ts:270-279 | the handlers reached are a prefix of all handlers; none but the last threw; stopping early means the last one threw |
| Hub.DeliverNext | src/moveHub.ts:270-279 | delivering to the next handler extends the delivered prefix |
| Hub.DeliveredAll | src/moveHub.ts:270-279 | a prefix that ends in a throw, or covers every handler, is what emit delivers |
| Hub.NoThrowReachesAll | src/moveHub.ts:270-279 | when no handler throws, every handler is reached |
| Hub.MoveHub.constructor | src/moveHub.ts:270-279 | motors on ports 0x37, 0x38, 0x39, 0x01, 0x02 and sensors on 0x01, 0x02, all on one characteristic; every motor unsubscribed, in angle mode, with no listeners; both sensors without emitter, in distance mode; no hub emitters, not pressed, simple tilt mode |
| Hub.MoveHub.SetLed | src/moveHub.ts:281-285 | writes exactly LedCommand |
| Hub.MoveHub.SubscribeButton | src/moveHub.ts:287-293 | only the first button subscription writes the button subscribe command; the listener is added exactly when no write failed; the pressed flag is untouched |
| Hub.MoveHub.SubscribeTilt | src/moveHub.ts:297-303 | only the first tilt subscription writes the tilt command for the current mode; the listener is added exactly when no write failed |
| Hub.MoveHub.TiltPreciseMode | src/moveHub.ts:305-307 | the getter reports the mode flag; SetTiltPreciseMode ensures it reports the mode last set |
| Hub.MoveHub.SetTiltPreciseMode | src/moveHub.ts:309-316 | the getter then reports the new mode; one tilt command for the new mode is written exactly when the mode changes and a tilt emitter exists |
| Hub.MoveHub.OnData | src/moveHub.ts:322-342 | decodes with DecodeHub against the old pressed flag, updates the flag by PressedAfter, and calls exactly the listeners of that event's kind |
| Hub.MoveHub.DeliveryOf | src/moveHub.ts:270-279 | each handler's delivery is tagged with that handler |
| Hub.MoveHub.Deliveries | src/moveHub.ts:270-279 | one delivery per handler, in registration order |
| Hub.MoveHub.Handle | src/moveHub.ts:270-279 | running one handler gives its delivery; only the hub's own handler touches the pressed flag |
| Hub.MoveHub.Dispatch | src/moveHub.ts:270-279 | one frame reaches the handlers in order until one throws; the pressed flag changes only when the hub's handler ran |
| Hub.MoveHub.LongFramesReachEveryHandler | src/moveHub.ts:270-279 | a frame of 8 bytes or more reaches all eight handlers |
| Hub.MoveHub.SharedPortFanOut | src/moveHub.ts:274-276 | one port-0x01 feedback frame is an angle for motor C and a luminosity reading for sensor C in the same dispatch |
| Scenarios.MotorSubscribeOnce | src/moveHub.ts:104-123 | status subscriptions write nothing, the first feedback subscription writes once, a mode switch once more, a repeated mode nothing |
| Scenarios.HubMotorFirstSubscribe | src/moveHub.ts:271-277 | on a new hub, the first angle subscription on motor A writes the angle subscribe command for port 0x37 |
| Scenarios.FailedSubscribeNotResent | src/moveHub.ts:188-194 | a failed first subscription keeps the emitter, drops its listener, and is not resent |
| Scenarios.TiltModeDeferred | src/moveHub.ts:297-316 | a mode set before subscribing writes nothing, and the first subscription uses it |
| Scenarios.ButtonEdgeSuppression | src/moveHub.ts:323-332 | a release before any press reaches no one; a press then a release reach their listeners |
| Scenarios.PressBeforeSubscribe | src/moveHub.ts:323-332 | a press seen before subscribing still enables the first release |
| Scenarios.StatusInput | src/moveHub.ts:152-160 | a status frame gives the on, running or off input exactly for code 0x01, 0x05 or 0x0a, and no input for any other code |
| Scenarios.TimedAndWaitResolves | src/moveHub.ts:131-149 | off before on is ignored; on, running, then off leave the wait resolved |
| Scenarios.AngledAndWaitBusy | src/moveHub.ts:137-140 | running first leaves the wait rejected as still running, whatever follows |

## Left out

- `discoverMoveHub` (scanning, connecting, timers) and `disconnect` are
  Bluetooth I/O. They are not part of this model. The hub is built directly
  from a `Characteristic`.
- `writeData` is modelled only by its outcome. A write is appended to the
  ghost `sent` log when the transport accepts it, and fails otherwise. The
  outcome is a parameter (`accepted`).
- Node's `EventEmitter` is reduced to an ordered list of listener ids per
  channel. Listener bodies are opaque: a listener that throws, or that
  subscribes from inside a callback, is not modelled.
- Promises and async scheduling are not modelled. Each async method runs as
  one sequential transition. The write's outcome is known when the method
  returns.
- Hub.Motor.TimedAndWait: feeds the write's outcome into the handshake at once.
  In the driver the rejection arrives asynchronously and may follow status
  events; `Completion` covers that ordering with `WriteError` as an input at any
  position.
- Hub.Motor.AngledAndWait: same simplification as TimedAndWait.
- The run-and-wait one-shot listeners live in `Completion`, not in
  `Motor.listeners`. Their calling order relative to user listeners of the same
  event is not modelled.
- Floating point is not modelled. Distances and tilt angles are exact reals:
  `1/partial`, `* 0.0254` and `* 360 / 256` have no rounding here.
- Node `Buffer` range exceptions on writes are not modelled. Out-of-range
  arguments are excluded by `requires`: power in -128..127, duration below
  2^16, angle below 2^32, and the port as a byte. A synchronous throw inside
  `runAndWait` (which would leave both start listeners registered) is
  therefore not modelled.
- Commands.LedCommand: takes a `Color` code, 0..10. `writeUInt8` would also
  write the bytes 11..255, and those LED commands are not modelled.
- Hub.MoveHub.SetLed: same restriction to the `Color` codes 0..10 as
  `Commands.LedCommand`.
- Arguments are whole numbers. In the driver, power, duration and angle are
  JavaScript numbers, and a fractional value is truncated by `Buffer`'s
  writers. Such calls are not modelled.
- Frames.HubRun: states only one outcome per frame. What the outcomes are is
  stated by `Frames.ReleaseNeedsEarlierPress` and
  `Frames.ReleaseAfterPressDelivered`.
- `examples/example1.ts` is a demo driven by standard input and timers. It is
  not part of this model.
