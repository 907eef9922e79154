/** The coalescing change signal of one subscription: callbacks mark it dirty, a
    ticker starts authorized flushes, a flush queues one "changed" frame, and the
    writer sends it. */
module ChangeSignal {
  import opened Options

  /** Where the flush worker is: none, waiting for authorization, about to queue
      its frame, found the queue full and will close, only its last section left. */
  datatype Flush = Idle | Authorizing | Sending | Closing | Ending

  /** The writer's changed frame: none, in the control queue, taken, being written. */
  datatype Frame = NoFrame | Queued | Taken | Writing

  /** `changes` counts the callbacks that found the subscription current, `taken`
      those before the last flush started, `covered` those before the flush whose
      frame was last written. `current` is the liveness test every section makes;
      `broken` means the writer has stopped and is about to close the connection;
      `failed` that the write of the last flushed frame failed and no flush has
      started since. */
  datatype Signal = Signal(
    current: bool, registered: bool, dirty: bool, flush: Flush, changedQueued: bool, frame: Frame, broken: bool,
    failed: bool, changes: nat, taken: nat, covered: nat)

  function Initial(): (s: Signal) {
    Signal(true, false, false, Idle, false, NoFrame, false, false, 0, 0, 0)
  }

  // ---------- sections ----------

  function Changed(s: Signal): (t: Signal) {
    if s.current then s.(dirty := true, changes := s.changes + 1) else s
  }

  predicate FlushDue(s: Signal) {
    s.current && s.registered && s.dirty && s.flush.Idle? && !s.changedQueued
  }

  function Tick(s: Signal, permit: bool): (t: Signal) {
    if FlushDue(s) && permit then s.(flush := Authorizing, dirty := false, failed := false, taken := s.changes) else s
  }

  function FlushBusy(s: Signal): (t: Signal) {
    s.(dirty := s.dirty || s.current, flush := Ending)
  }

  function FlushReady(s: Signal): (t: Signal) {
    if s.current then s.(changedQueued := true, flush := Sending) else s.(flush := Ending)
  }

  /** Queueing the frame: dropped once no longer current, refused by a full queue. */
  function FlushSend(s: Signal, full: bool): (t: Signal) {
    if !s.current then s.(flush := Ending)
    else if full then s.(flush := Closing)
    else s.(frame := Queued, flush := Ending)
  }

  function Written(s: Signal, ok: bool): (t: Signal) {
    s.(changedQueued := false, frame := NoFrame, covered := if ok then s.taken else s.covered,
       broken := s.broken || !ok, failed := !ok)
  }

  // ---------- the machine ----------

  datatype Step =
    | Change
    | Register
    | Ticker(permit: bool)
    | AuthorizeBusy
    | AuthorizeCanceled    // only when the subscription's context ended
    | AuthorizeFailed      // any other failure retires the subscription
    | Authorized
    | Send(full: bool)
    | CloseFull            // the flush worker closes after finding the queue full
    | FinishFlush
    | WriterTake
    | WriterCheck
    | WriterWrote(ok: bool)
    | WriterStops          // another frame or a ping failed
    | Lose                 // close, retirement, expiry, new authentication

  predicate Enabled(s: Signal, step: Step) {
    match step
    case Change => true
    case Register => true
    case Ticker(_) => true
    case AuthorizeBusy => s.flush.Authorizing?
    case AuthorizeCanceled => s.flush.Authorizing? && !s.current
    case AuthorizeFailed => s.flush.Authorizing?
    case Authorized => s.flush.Authorizing?
    case Send(_) => s.flush.Sending?
    case CloseFull => s.flush.Closing?
    case FinishFlush => s.flush.Ending?
    case WriterTake => s.frame.Queued? && !s.broken
    case WriterCheck => s.frame.Taken?
    case WriterWrote(_) => s.frame.Writing?
    case WriterStops => !s.frame.Taken? && !s.frame.Writing?
    case Lose => true
  }

  function Apply(s: Signal, step: Step): (t: Signal)
    requires Enabled(s, step)
  {
    match step
    case Change => Changed(s)
    case Register => s.(registered := true)
    case Ticker(permit) => Tick(s, permit)
    case AuthorizeBusy => FlushBusy(s)
    case AuthorizeCanceled => s.(flush := Ending)
    case AuthorizeFailed => s.(current := false, flush := Ending)
    case Authorized => FlushReady(s)
    case Send(full) => FlushSend(s, full)
    case CloseFull => s.(current := false, flush := Ending)
    case FinishFlush => s.(flush := Idle)
    case WriterTake => s.(frame := Taken)
    case WriterCheck => s.(frame := if s.current then Writing else NoFrame)
    case WriterWrote(ok) => Written(s, ok)
    case WriterStops => s.(broken := true)
    case Lose => s.(current := false)
  }

  function Run(s: Signal, steps: seq<Step>): (r: Option<Signal>)
    decreases |steps|
  {
    if steps == [] then Some(s)
    else if !Enabled(s, steps[0]) then None
    else Run(Apply(s, steps[0]), steps[1..])
  }

  // ---------- no lost signal ----------

  /** Someone still carries the signal of the last started flush. */
  predicate Carried(s: Signal) {
    s.flush.Authorizing? || s.flush.Sending? || s.flush.Closing? || !s.frame.NoFrame?
  }

  predicate Inv(s: Signal) {
    && s.covered <= s.taken <= s.changes
    && (s.current ==> s.dirty || s.taken == s.changes)
    && (s.current && s.covered < s.taken ==> s.dirty || Carried(s) || s.failed)
    && (s.dirty ==> s.covered < s.changes)
    && (Carried(s) ==> s.covered < s.taken)
    && (s.dirty && Carried(s) ==> s.taken < s.changes)
    && (s.failed ==> s.covered < s.taken && !Carried(s))
    && (s.current ==> (s.changedQueued <==> s.flush.Sending? || s.flush.Closing? || !s.frame.NoFrame?))
    && (!s.frame.NoFrame? ==> s.changedQueued && (s.flush.Idle? || s.flush.Ending?))
  }

  lemma StepInv(s: Signal, step: Step)
    requires Inv(s) && Enabled(s, step)
    ensures Inv(Apply(s, step))
  {
  }

  lemma {:induction false} RunInv(s: Signal, steps: seq<Step>)
    requires Inv(s) && Run(s, steps).Some?
    ensures Inv(Run(s, steps).value)
    decreases |steps|
  {
    if steps != [] {
      StepInv(s, steps[0]);
      RunInv(Apply(s, steps[0]), steps[1..]);
    }
  }

  /** Exactly when a change gets lost: on a subscription still current, a change that no
      written frame covers is neither dirty nor carried by a flush or a frame if and
      only if the write of the last flushed frame failed and neither a flush nor a
      change came after it. */
  lemma NoLostChange(steps: seq<Step>)
    requires Run(Initial(), steps).Some?
    ensures var s := Run(Initial(), steps).value;
            s.current && s.covered < s.changes && !s.dirty && !Carried(s) <==> s.current && s.failed && !s.dirty
  {
    RunInv(Initial(), steps);
  }

  lemma {:induction false} FailureIsAWrite(s: Signal, steps: seq<Step>)
    requires !s.failed && Run(s, steps).Some? && WriterWrote(false) !in steps
    ensures !Run(s, steps).value.failed
    decreases |steps|
  {
    if steps != [] {
      assert steps[0] in steps && forall x :: x in steps[1..] ==> x in steps;
      FailureIsAWrite(Apply(s, steps[0]), steps[1..]);
    }
  }

  /** As long as no write of a changed frame fails, every change that no written frame
      covers is dirty or carried, also after the writer has stopped for other reasons. */
  lemma DeliveredUnlessWriteFails(steps: seq<Step>)
    requires Run(Initial(), steps).Some? && WriterWrote(false) !in steps
    ensures var s := Run(Initial(), steps).value;
            s.current && s.covered < s.changes ==> s.dirty || Carried(s)
  {
    FailureIsAWrite(Initial(), steps);
    NoLostChange(steps);
  }

  /** Nothing blocks the next flush of a dirty subscription except a flush or a
      frame already under way: the queued mark is never left behind. */
  lemma DirtyIsFlushed(steps: seq<Step>)
    requires Run(Initial(), steps).Some?
    ensures var s := Run(Initial(), steps).value;
            s.current && s.registered && s.dirty && s.flush.Idle? && s.frame.NoFrame? ==>
              Tick(s, true).flush.Authorizing?
  {
    RunInv(Initial(), steps);
  }

  /** What a failing write loses: in every reachable state in which the changed frame is
      being written, its failure leaves a change with nobody exactly when the
      subscription is current and no change came since the flush. */
  lemma FailedWriteLoses(steps: seq<Step>)
    requires Run(Initial(), steps).Some? && Run(Initial(), steps).value.frame.Writing?
    ensures var s := Run(Initial(), steps).value; var t := Apply(s, WriterWrote(false));
            t.current && t.covered < t.changes && !t.dirty && !Carried(t) <==> s.current && !s.dirty
  {
    RunInv(Initial(), steps);
  }

  /** Such a write is reachable. */
  lemma FailedWriteWindow()
    ensures var steps := [Register, Change, Ticker(true), Authorized] +
              [Send(false), FinishFlush, WriterTake, WriterCheck];
            Run(Initial(), steps) == Some(Signal(true, true, false, Idle, true, Writing, false, false, 1, 1, 0))
  {
    var a, b := [Register, Change, Ticker(true), Authorized], [Send(false), FinishFlush, WriterTake, WriterCheck];
    var s := Signal(true, true, false, Sending, true, NoFrame, false, false, 1, 1, 0);
    assert Run(Initial(), a) == Some(s) by {
      RunStep(Initial(), a);
      RunStep(Apply(Initial(), Register), a[1..]);
      RunStep(Signal(true, true, true, Idle, false, NoFrame, false, false, 1, 0, 0), a[2..]);
      RunStep(Signal(true, true, false, Authorizing, false, NoFrame, false, false, 1, 1, 0), a[3..]);
    }
    RunStep(s, b);
    RunStep(s.(frame := Queued, flush := Ending), b[1..]);
    RunStep(s.(frame := Queued, flush := Idle), b[2..]);
    RunStep(s.(frame := Taken, flush := Idle), b[3..]);
    RunConcat(Initial(), a, b);
  }

  lemma RunStep(s: Signal, steps: seq<Step>)
    requires steps != [] && Enabled(s, steps[0])
    ensures Run(s, steps) == Run(Apply(s, steps[0]), steps[1..])
  {
  }

  lemma {:induction false} RunConcat(s: Signal, a: seq<Step>, b: seq<Step>)
    requires Run(s, a).Some?
    ensures Run(s, a + b) == Run(Run(s, a).value, b)
    decreases |a|
  {
    if a == [] {
      assert a + b == b;
    } else {
      assert (a + b)[1..] == a[1..] + b;
      RunConcat(Apply(s, a[0]), a[1..], b);
    }
  }

  // ---------- the subscription's fields ----------

  class Subscription {
    var current: bool
    var registered: bool
    var dirty: bool
    var flushing: bool
    var changedQueued: bool

    /** The fields agree with a signal state. */
    ghost predicate Shows(s: Signal)
      reads this
    {
      current == s.current && registered == s.registered && dirty == s.dirty && flushing == !s.flush.Idle? &&
      changedQueued == s.changedQueued
    }

    constructor ()
      ensures Shows(Initial())
    {
      current, registered, dirty, flushing, changedQueued := true, false, false, false, false;
    }

    method OnChanged(ghost s: Signal)
      requires Shows(s)
      modifies this
      ensures Shows(Changed(s))
    {
      if current {
        dirty := true;
      }
    }

    method OnTick(permit: bool, ghost s: Signal) returns (started: bool)
      requires Shows(s)
      modifies this
      ensures Shows(Tick(s, permit)) && (started <==> FlushDue(s) && permit)
    {
      if !current || !registered || !dirty || flushing || changedQueued || !permit {
        return false;
      }
      flushing := true;
      dirty := false;
      return true;
    }

    method OnBusy(ghost s: Signal)
      requires Shows(s) && s.flush.Authorizing?
      modifies this
      ensures Shows(FlushBusy(s))
    {
      if current {
        dirty := true;
      }
    }

    method OnAuthorized(ghost s: Signal) returns (send: bool)
      requires Shows(s) && s.flush.Authorizing?
      modifies this
      ensures Shows(FlushReady(s)) && (send <==> s.current)
    {
      if !current {
        return false;
      }
      changedQueued := true;
      return true;
    }

    method OnFlushDone(ghost s: Signal)
      requires Shows(s) && s.flush.Ending?
      modifies this
      ensures Shows(s.(flush := Idle))
    {
      flushing := false;
    }

    method OnWritten(ok: bool, ghost s: Signal)
      requires Shows(s)
      modifies this
      ensures Shows(Written(s, ok))
    {
      changedQueued := false;
    }
  }
}
