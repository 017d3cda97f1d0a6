/**
 * The run-and-wait handshake of a motor (timedAndWait / angledAndWait).
 *
 * Before the command is written, two one-shot listeners are armed: one for
 * "motorRunning" and one for "motorOn". If "motorRunning" comes first, the
 * wait is rejected (the motor was still busy) and the "motorOn" listener is
 * removed. If "motorOn" comes first, it removes the "motorRunning" listener
 * and arms a one-shot "motorOff" listener, which resolves the wait. If the
 * write fails, the "motorRunning" and "motorOn" listeners are removed and the
 * wait is rejected. A promise settles only once: later resolve or reject
 * calls do nothing.
 *
 * The machine is driven by an explicit sequence of inputs; the write failure
 * is an input too, because it is reported asynchronously and may arrive
 * after status events.
 */
module Completion {

  import opened Frames

  datatype Rejection = MotorStillRunning | WriteFailed

  /** The state of the promise returned by run-and-wait. */
  datatype Settlement = Pending | Fulfilled | Failed(reason: Rejection)

  datatype Input = Status(event: MotorEvent) | WriteError

  /** Which of the three one-shot listeners are registered, and the promise's state. */
  datatype Wait = Wait(onArmed: bool, runningArmed: bool, offArmed: bool, settled: Settlement)

  datatype Phase = Armed | AwaitingOff | Resolved | Rejected

  /** Both start listeners registered, nothing settled. */
  const Start: Wait := Wait(true, true, false, Pending)

  /** The states the handshake can be in. */
  predicate Valid(w: Wait) {
    && w.onArmed == w.runningArmed
    && (w.onArmed ==> !w.offArmed && w.settled.Pending?)
    && (w.settled.Pending? ==> w.onArmed || w.offArmed)
    && (w.settled.Fulfilled? ==> !w.offArmed)
  }

  function PhaseOf(w: Wait): (p: Phase)
    requires Valid(w)
    ensures p == Armed <==> w == Start
    ensures p == AwaitingOff <==> w == Wait(false, false, true, Pending)
  {
    match w.settled
    case Fulfilled => Resolved
    case Failed(_) => Rejected
    case Pending => if w.onArmed then Armed else AwaitingOff
  }

  /** resolve/reject on a promise: only the first call has an effect. */
  function Settle(s: Settlement, t: Settlement): (r: Settlement)
    ensures !s.Pending? ==> r == s
    ensures s.Pending? ==> r == t
  {
    if s.Pending? then t else s
  }

  /** One input delivered to the motor's emitter (or the write's rejection). */
  function Step(w: Wait, i: Input): (w': Wait)
    ensures Valid(w) ==> Valid(w')
    ensures !w.settled.Pending? ==> w'.settled == w.settled
    ensures (w'.onArmed ==> w.onArmed) && (w'.runningArmed ==> w.runningArmed)
  {
    match i
    case WriteError =>
      Wait(false, false, w.offArmed, Settle(w.settled, Failed(WriteFailed)))
    case Status(MotorOn) =>
      if w.onArmed then Wait(false, false, true, w.settled) else w
    case Status(MotorRunning) =>
      if w.runningArmed then Wait(false, false, w.offArmed, Settle(w.settled, Failed(MotorStillRunning))) else w
    case Status(MotorOff) =>
      if w.offArmed then Wait(w.onArmed, w.runningArmed, false, Settle(w.settled, Fulfilled)) else w
    case Status(_) => w
  }

  /** The handshake after a sequence of inputs: every reachable state is valid, and a settled promise stays settled. */
  function Run(w: Wait, ins: seq<Input>): (r: Wait)
    ensures Valid(w) ==> Valid(r)
    ensures !w.settled.Pending? ==> r.settled == w.settled
    decreases |ins|
  {
    if ins == [] then w else Run(Step(w, ins[0]), ins[1..])
  }

  lemma {:induction false} RunAppend(w: Wait, a: seq<Input>, b: seq<Input>)
    ensures Run(w, a + b) == Run(Run(w, a), b)
    decreases |a|
  {
    if a != [] {
      assert (a + b)[1..] == a[1..] + b;
      RunAppend(Step(w, a[0]), a[1..], b);
    } else {
      assert a + b == b;
    }
  }

  /** Start listeners, once removed, are never re-armed. */
  lemma {:induction false} RunInvariant(w: Wait, ins: seq<Input>)
    ensures !w.onArmed && !w.runningArmed ==> !Run(w, ins).onArmed && !Run(w, ins).runningArmed
    decreases |ins|
  {
    if ins != [] {
      RunInvariant(Step(w, ins[0]), ins[1..]);
    }
  }

  /** An input none of the armed start listeners reacts to: anything but on, running and a write failure. */
  predicate Quiet(i: Input) {
    i.Status? && !i.event.MotorOn? && !i.event.MotorRunning?
  }

  lemma {:induction false} QuietKeepsArmed(pre: seq<Input>)
    requires forall k :: 0 <= k < |pre| ==> Quiet(pre[k])
    ensures Run(Start, pre) == Start
    decreases |pre|
  {
    if pre != [] {
      QuietKeepsArmed(pre[1..]);
    }
  }

  /** While awaiting "motorOff", only "motorOff" or a write failure change anything. */
  lemma {:induction false} AwaitingKeeps(mid: seq<Input>)
    requires forall k :: 0 <= k < |mid| ==> mid[k] != Status(MotorOff) && mid[k] != WriteError
    ensures Run(Wait(false, false, true, Pending), mid) == Wait(false, false, true, Pending)
    decreases |mid|
  {
    if mid != [] {
      AwaitingKeeps(mid[1..]);
    }
  }

  /** "motorRunning" before "motorOn": rejected as still running, and the "motorOn" listener is gone. */
  lemma RunningBeforeOnRejects(pre: seq<Input>, post: seq<Input>)
    requires forall k :: 0 <= k < |pre| ==> Quiet(pre[k])
    ensures var w := Run(Start, pre + [Status(MotorRunning)] + post);
      w.settled == Failed(MotorStillRunning) && !w.onArmed && !w.runningArmed
  {
    var w1 := Wait(false, false, false, Failed(MotorStillRunning));
    QuietKeepsArmed(pre);
    RunAppend(Start, pre, [Status(MotorRunning)]);
    assert Run(Start, pre + [Status(MotorRunning)]) == w1;
    RunAppend(Start, pre + [Status(MotorRunning)], post);
    RunInvariant(w1, post);
  }

  /** "motorOn" then "motorOff" (an earlier "motorOff" has no effect): resolved. */
  lemma OnThenOffResolves(pre: seq<Input>, mid: seq<Input>, post: seq<Input>)
    requires forall k :: 0 <= k < |pre| ==> Quiet(pre[k])
    requires forall k :: 0 <= k < |mid| ==> mid[k] != Status(MotorOff) && mid[k] != WriteError
    ensures Run(Start, pre + [Status(MotorOn)] + mid + [Status(MotorOff)] + post).settled == Fulfilled
  {
    var awaiting := Wait(false, false, true, Pending);
    QuietKeepsArmed(pre);
    RunAppend(Start, pre, [Status(MotorOn)]);
    assert Run(Start, pre + [Status(MotorOn)]) == awaiting;
    AwaitingKeeps(mid);
    RunAppend(Start, pre + [Status(MotorOn)], mid);
    RunAppend(Start, pre + [Status(MotorOn)] + mid, [Status(MotorOff)]);
    var done := Run(Start, pre + [Status(MotorOn)] + mid + [Status(MotorOff)]);
    assert done == Wait(false, false, false, Fulfilled);
    RunAppend(Start, pre + [Status(MotorOn)] + mid + [Status(MotorOff)], post);
    RunInvariant(done, post);
  }

  /** A write failure before either start event: rejected and every listener removed, for good. */
  lemma WriteFailureRejects(pre: seq<Input>, post: seq<Input>)
    requires forall k :: 0 <= k < |pre| ==> Quiet(pre[k])
    ensures var w := Run(Start, pre + [WriteError] + post);
      w.settled == Failed(WriteFailed) && !w.onArmed && !w.runningArmed && !w.offArmed
  {
    var failed := Wait(false, false, false, Failed(WriteFailed));
    QuietKeepsArmed(pre);
    RunAppend(Start, pre, [WriteError]);
    RunAppend(Start, pre + [WriteError], post);
    NothingArmedStays(failed, post);
  }

  lemma {:induction false} NothingArmedStays(w: Wait, ins: seq<Input>)
    requires !w.onArmed && !w.runningArmed && !w.offArmed && !w.settled.Pending?
    ensures Run(w, ins) == w
    decreases |ins|
  {
    if ins != [] {
      NothingArmedStays(Step(w, ins[0]), ins[1..]);
    }
  }

  /**
   * A write failure reported after "motorOn" rejects the wait but leaves the
   * one-shot "motorOff" listener registered: the failure handler removes only
   * the two start listeners.
   */
  lemma WriteFailureAfterOnKeepsOffListener(pre: seq<Input>)
    requires forall k :: 0 <= k < |pre| ==> Quiet(pre[k])
    ensures Run(Start, pre + [Status(MotorOn), WriteError]) == Wait(false, false, true, Failed(WriteFailed))
  {
    QuietKeepsArmed(pre);
    RunAppend(Start, pre, [Status(MotorOn), WriteError]);
  }

  lemma {:induction false} FulfilledNeedsOff(w: Wait, ins: seq<Input>) returns (j: nat)
    requires !w.settled.Fulfilled? && Run(w, ins).settled.Fulfilled?
    ensures j < |ins| && ins[j] == Status(MotorOff) && Run(w, ins[..j]).offArmed
    decreases |ins|
  {
    var w1 := Step(w, ins[0]);
    if w1.settled.Fulfilled? {
      j := 0;
    } else {
      var j' := FulfilledNeedsOff(w1, ins[1..]);
      j := j' + 1;
      assert ins[..j][1..] == ins[1..][..j'];
    }
  }

  lemma {:induction false} OffArmedNeedsOn(w: Wait, ins: seq<Input>)
    requires !w.offArmed && Run(w, ins).offArmed
    ensures Status(MotorOn) in ins
    decreases |ins|
  {
    var w1 := Step(w, ins[0]);
    if !w1.offArmed {
      OffArmedNeedsOn(w1, ins[1..]);
    }
  }

  /** The converse: a wait resolves only if "motorOn" was seen and later "motorOff". */
  lemma ResolvedOnlyAfterOnThenOff(ins: seq<Input>)
    requires Run(Start, ins).settled.Fulfilled?
    ensures exists i, j :: 0 <= i < j < |ins| && ins[i] == Status(MotorOn) && ins[j] == Status(MotorOff)
  {
    var j := FulfilledNeedsOff(Start, ins);
    OffArmedNeedsOn(Start, ins[..j]);
    var i :| 0 <= i < j && ins[..j][i] == Status(MotorOn);
    assert ins[i] == Status(MotorOn);
  }
}
