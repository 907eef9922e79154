/** The console's session controller: every function is one event-loop turn.
    Requests in flight carry tickets, issued in order. */
module SessionController {
  import opened Options

  type SessionId = nat

  datatype Status = Restoring | Anonymous | Authenticated | SigningOut | Reconciling | Unavailable
  datatype Notice = NoNotice | SessionEnded | LogoutFailed
  datatype Phase = Login | Logout

  /** `OtherFailure` covers network, protocol and server failures. */
  datatype Failure = Unauthorized | Forbidden | InvalidRequest | NotFound | Conflict | Busy | OtherFailure

  datatype View = View(status: Status, session: Option<SessionId>, error: Option<Failure>, notice: Notice,
                       mutation: Option<Phase>)

  /** Overrides a caller of revalidation may give. */
  datatype Overrides = Overrides(notice: Option<Notice>, error: Option<Option<Failure>>)

  const NO_OVERRIDES: Overrides := Overrides(None, None)

  datatype Read = Read(generation: nat, previous: Option<SessionId>, notice: Notice, retained: Option<Failure>,
                       overrides: Overrides)

  datatype Mutation = Mutation(phase: Phase, epoch: nat, previous: View)

  datatype Controller = Controller(
    view: View, connected: bool, epoch: nat, read: Option<nat>, pending: Option<nat>, dirty: bool,
    inFlight: map<nat, Read>, mutations: map<nat, Mutation>, next: nat)

  function Initial(): (c: Controller) {
    Controller(View(Restoring, None, None, NoNotice, None), false, 0, None, None, false, map[], map[], 0)
  }

  // ---------- revalidation ----------

  function ReadStatus(v: View, retained: Option<Failure>): (s: Status) {
    if v.status.Restoring? then Restoring
    else if v.status.Anonymous? && v.session.None? && retained.None? then Anonymous
    else Reconciling
  }

  /** Starts a read, which supersedes any earlier one; while a mutation is pending
      it only notes that a read is due. */
  function Revalidate(c: Controller, o: Overrides): (d: Controller) {
    if !c.connected then c
    else if c.pending.Some? then c.(dirty := true)
    else
      var notice := if o.notice.Some? then o.notice.value else c.view.notice;
      var retained := if o.error.Some? then o.error.value else c.view.error;
      c.(read := Some(c.next), next := c.next + 1, epoch := c.epoch + 1,
         inFlight := c.inFlight[c.next := Read(c.epoch + 1, c.view.session, notice, retained, o)],
         view := c.view.(status := ReadStatus(c.view, retained), notice := notice))
  }

  datatype ReadResult = Found(session: SessionId) | ReadFailed(failure: Failure)

  function ReadView(r: Read, result: ReadResult): (v: View) {
    match result
    case Found(session) =>
      View(Authenticated, Some(session), if r.notice.LogoutFailed? then r.retained else None,
           if r.notice.SessionEnded? then NoNotice else r.notice, None)
    case ReadFailed(failure) =>
      if failure.Unauthorized? then
        View(Anonymous, None, if r.overrides.error.Some? then r.overrides.error.value else None,
             if r.overrides.notice.None? && r.previous.Some? then SessionEnded else r.notice, None)
      else View(Unavailable, r.previous, Some(failure), r.notice, None)
  }

  /** A read settles; only the latest one may publish. */
  function ReadSettles(c: Controller, t: nat, result: ReadResult): (d: Controller)
    requires t in c.inFlight
  {
    var r := c.inFlight[t];
    var e := c.(inFlight := c.inFlight - {t}, read := if c.read == Some(t) then None else c.read);
    if !c.connected || c.epoch != r.generation then e else e.(view := ReadView(r, result))
  }

  // ---------- mutations ----------

  predicate Refused(c: Controller, phase: Phase) {
    || !c.connected || c.pending.Some?
    || (phase.Logout? && c.view.session.Some? &&
        (c.view.status.Unavailable? || (c.view.status.Reconciling? && c.view.error.Some?)))
  }

  function Mutate(c: Controller, phase: Phase): (d: Controller) {
    if Refused(c, phase) || (phase.Logout? && c.view.session.None?) then c
    else
      c.(pending := Some(c.next), next := c.next + 1, epoch := c.epoch + 1, dirty := c.read.Some?,
         mutations := c.mutations[c.next := Mutation(phase, c.epoch + 1, c.view)],
         view := c.view.(status := if phase.Logout? then SigningOut else if c.view.session.None? then Anonymous
                                   else Reconciling,
                         error := None, notice := NoNotice, mutation := Some(phase)))
  }

  datatype MutationResult = LoggedIn(session: SessionId) | LoggedOut | MutationFailed(failure: Failure)

  predicate Fits(phase: Phase, result: MutationResult) {
    match result
    case LoggedIn(_) => phase.Login?
    case LoggedOut => phase.Logout?
    case MutationFailed(_) => true
  }

  predicate Denial(f: Failure) {
    !f.OtherFailure?
  }

  /** What the view becomes once the outcome is known. */
  function SettledView(v: View, m: Mutation, result: MutationResult): (w: View) {
    match result
    case LoggedIn(session) => v.(status := Reconciling, session := Some(session), mutation := None)
    case LoggedOut => v.(session := None, mutation := None)
    case MutationFailed(f) =>
      if m.phase.Logout? && f.Unauthorized? then View(Anonymous, None, None, NoNotice, None)
      else
        m.previous.(
          status := if !Denial(f) || (m.phase.Logout? && f.Forbidden?) then Reconciling
                    else m.previous.status, mutation := None,
          error := if m.phase.Logout? || !Denial(f) then Some(f) else None,
          notice := if m.phase.Logout? then LogoutFailed else m.previous.notice)
  }

  /** Whether the server must be asked again. */
  predicate Reconcile(m: Mutation, result: MutationResult, dirty: bool) {
    match result
    case MutationFailed(f) => !Denial(f) || (m.phase.Logout? && f.Forbidden?) || dirty
    case _ => true
  }

  function SettledOverrides(m: Mutation, result: MutationResult): (o: Overrides) {
    var expired := m.phase.Logout? && result == MutationFailed(Unauthorized);
    Overrides(
      if m.phase.Login? then None else Some(if result.LoggedOut? || expired then NoNotice else LogoutFailed),
      Some(if result.MutationFailed? && (m.phase.Logout? || !Denial(result.failure)) then Some(result.failure)
           else None))
  }

  /** A mutation settles; one abandoned by a disconnect has no effect. */
  function MutationSettles(c: Controller, t: nat, result: MutationResult): (d: Controller)
    requires t in c.mutations
  {
    var m := c.mutations[t];
    var e := c.(mutations := c.mutations - {t});
    if !c.connected || c.pending != Some(t) then e
    else if c.epoch != m.epoch then e.(pending := None)
    else
      var f := e.(pending := None, dirty := false, view := SettledView(c.view, m, result));
      if Reconcile(m, result, c.dirty) then Revalidate(f, SettledOverrides(m, result)) else f
  }

  // ---------- connection ----------

  function Connect(c: Controller): (d: Controller) {
    if c.connected then c
    else Revalidate(c.(connected := true, view := c.view.(status := Restoring, error := None, mutation := None)),
                    NO_OVERRIDES)
  }

  function Disconnect(c: Controller): (d: Controller) {
    c.(connected := false, epoch := c.epoch + 1, read := None, pending := None, dirty := false)
  }

  // ---------- runs ----------

  datatype Step =
    | ConnectStep
    | DisconnectStep
    | RevalidateStep // retry, visibility, another tab, expiry
    | MutateStep(phase: Phase)
    | ReadStep(ticket: nat, read: ReadResult)
    | MutationStep(ticket: nat, outcome: MutationResult)

  predicate Enabled(c: Controller, step: Step) {
    match step
    case ReadStep(t, _) => t in c.inFlight
    case MutationStep(t, result) => t in c.mutations && Fits(c.mutations[t].phase, result)
    case DisconnectStep => c.connected
    case _ => true
  }

  function Apply(c: Controller, step: Step): (d: Controller)
    requires Enabled(c, step)
  {
    match step
    case ConnectStep => Connect(c)
    case DisconnectStep => Disconnect(c)
    case RevalidateStep => Revalidate(c, NO_OVERRIDES)
    case MutateStep(phase) => Mutate(c, phase)
    case ReadStep(t, result) => ReadSettles(c, t, result)
    case MutationStep(t, result) => MutationSettles(c, t, result)
  }

  function Run(c: Controller, steps: seq<Step>): (r: Option<Controller>)
    decreases |steps|
  {
    if steps == [] then Some(c)
    else if !Enabled(c, steps[0]) then None
    else Run(Apply(c, steps[0]), steps[1..])
  }

  // ---------- invariant ----------

  predicate Busy?(s: Status) {
    s.Restoring? || s.Reconciling? || s.SigningOut?
  }

  /** The latest read is in flight and will publish. */
  predicate Reading(c: Controller) {
    c.read.Some? && c.read.value in c.inFlight && c.inFlight[c.read.value].generation == c.epoch
  }

  predicate ViewOk(v: View) {
    (v.status.Authenticated? ==> v.session.Some?) && (v.status.Anonymous? ==> v.session.None?)
  }

  /** The pending mutation is the latest operation, and remembers a sound view; if
      it interrupted a busy view, a read is due. */
  predicate PendingOk(c: Controller) {
    c.pending.Some? ==>
      && c.connected && c.pending.value in c.mutations
      && (forall t :: t in c.inFlight ==> c.inFlight[t].generation < c.epoch)
      && var m := c.mutations[c.pending.value];
         && m.epoch == c.epoch && ViewOk(m.previous)
         && (Busy?(m.previous.status) ==> c.dirty)
         && (m.phase.Logout? ==> c.view.status.SigningOut?)
  }

  predicate TicketsOk(c: Controller) {
    && (forall t :: t in c.inFlight ==> t < c.next && c.inFlight[t].generation <= c.epoch)
    && (forall t :: t in c.mutations ==> t < c.next)
    && (c.read.Some? ==> c.connected && c.read.value in c.inFlight)
  }

  predicate Inv(c: Controller) {
    && ViewOk(c.view)
    && PendingOk(c)
    && TicketsOk(c)
    && (c.connected && Busy?(c.view.status) ==> c.pending.Some? || Reading(c))
  }

  lemma RevalidateInv(c: Controller, o: Overrides)
    requires ViewOk(c.view) && PendingOk(c) && TicketsOk(c)
    ensures c.connected ==> Inv(Revalidate(c, o))
    ensures c.connected && c.pending.None? ==> Reading(Revalidate(c, o)) && Revalidate(c, o).epoch == c.epoch + 1
    ensures !c.connected ==> Revalidate(c, o) == c
  {
  }

  lemma MutationInv(c: Controller, t: nat, result: MutationResult)
    requires Inv(c) && t in c.mutations && Fits(c.mutations[t].phase, result)
    ensures Inv(MutationSettles(c, t, result))
  {
    var m := c.mutations[t];
    if c.connected && c.pending == Some(t) {
      var f := c.(mutations := c.mutations - {t}, pending := None, dirty := false,
                  view := SettledView(c.view, m, result));
      RevalidateInv(f, SettledOverrides(m, result));
    }
  }

  lemma StepInv(c: Controller, step: Step)
    requires Inv(c) && Enabled(c, step)
    ensures Inv(Apply(c, step))
  {
    match step
    case MutationStep(t, result) => MutationInv(c, t, result);
    case _ =>
  }

  lemma {:induction false} RunInv(c: Controller, steps: seq<Step>)
    requires Inv(c) && Run(c, steps).Some?
    ensures Inv(Run(c, steps).value)
    decreases |steps|
  {
    if steps != [] {
      StepInv(c, steps[0]);
      RunInv(Apply(c, steps[0]), steps[1..]);
    }
  }

  // ---------- theorems over every run ----------

  /** A connected controller is never stuck: a busy view has its mutation pending
      or its latest read in flight. */
  lemma NeverStuck(steps: seq<Step>)
    requires Run(Initial(), steps).Some?
    ensures var c := Run(Initial(), steps).value;
            c.connected && Busy?(c.view.status) ==> c.pending.Some? || Reading(c)
  {
    RunInv(Initial(), steps);
  }

  /** Authenticated means a session, anonymous means none. */
  lemma SessionMatchesStatus(steps: seq<Step>)
    requires Run(Initial(), steps).Some?
    ensures var v := Run(Initial(), steps).value.view;
            (v.status.Authenticated? ==> v.session.Some?) && (v.status.Anonymous? ==> v.session.None?)
  {
    RunInv(Initial(), steps);
  }

  // ---------- what later steps cannot undo ----------

  /** How a controller relates to any earlier one: epochs and tickets only grow, an older
      read in flight is unchanged, and a mutation that is no longer pending, or was not, does
      not become pending again. */
  predicate Later(c: Controller, d: Controller) {
    && c.epoch <= d.epoch && c.next <= d.next
    && (forall t :: t in d.inFlight && t < c.next ==> t in c.inFlight && d.inFlight[t] == c.inFlight[t])
    && (d.pending.Some? && d.pending.value < c.next ==> d.pending == c.pending && (c.dirty ==> d.dirty))
  }

  lemma StepLater(c: Controller, step: Step)
    requires Inv(c) && Enabled(c, step)
    ensures Later(c, Apply(c, step))
  {
  }

  lemma {:induction false} RunLater(c: Controller, steps: seq<Step>)
    requires Inv(c) && Run(c, steps).Some?
    ensures Later(c, Run(c, steps).value)
    decreases |steps|
  {
    if steps != [] {
      StepInv(c, steps[0]);
      StepLater(c, steps[0]);
      RunLater(Apply(c, steps[0]), steps[1..]);
    }
  }

  lemma {:induction false} RunConcat(c: Controller, a: seq<Step>, b: seq<Step>)
    requires Run(c, a).Some?
    ensures Run(c, a + b) == Run(Run(c, a).value, b)
    decreases |a|
  {
    if a == [] {
      assert a + b == b;
    } else {
      assert (a + b)[1..] == a[1..] + b;
      RunConcat(Apply(c, a[0]), a[1..], b);
    }
  }

  /** Epochs and tickets only grow along a run. */
  lemma EpochsGrow(before: seq<Step>, after: seq<Step>)
    requires Run(Initial(), before + after).Some? && Run(Initial(), before).Some?
    ensures Run(Initial(), before).value.epoch <= Run(Initial(), before + after).value.epoch
    ensures Run(Initial(), before).value.next <= Run(Initial(), before + after).value.next
  {
    RunInv(Initial(), before);
    RunConcat(Initial(), before, after);
    RunLater(Run(Initial(), before).value, after);
  }

  /** A superseded read is silent for good: once its generation is behind the epoch, then
      whenever and however it settles it changes neither the view nor the epoch, and it
      leaves the latest read alone. */
  lemma SupersededReadSilent(before: seq<Step>, after: seq<Step>, t: nat, result: ReadResult)
    requires Run(Initial(), before).Some?
    requires var c := Run(Initial(), before).value; t in c.inFlight && c.inFlight[t].generation < c.epoch
    requires Run(Run(Initial(), before).value, after).Some? &&
             t in Run(Run(Initial(), before).value, after).value.inFlight
    ensures var d := Run(Run(Initial(), before).value, after).value; var e := Apply(d, ReadStep(t, result));
            e.view == d.view && e.epoch == d.epoch && (Reading(d) ==> Reading(e))
  {
    var c := Run(Initial(), before).value;
    RunInv(Initial(), before);
    RunLater(c, after);
  }

  predicate Starts(c: Controller, step: Step) {
    match step
    case RevalidateStep => c.connected && c.pending.None?
    case MutateStep(phase) => !Refused(c, phase) && (phase.Login? || c.view.session.Some?)
    case DisconnectStep => c.connected
    case _ => false
  }

  /** A read or mutation that starts, or a disconnect, supersedes every read in flight. */
  lemma NewerSupersedes(steps: seq<Step>, step: Step, t: nat)
    requires Run(Initial(), steps).Some?
    requires var c := Run(Initial(), steps).value; Starts(c, step) && t in c.inFlight
    ensures var c := Run(Initial(), steps).value;
            Enabled(c, step) && var d := Apply(c, step); t in d.inFlight && d.inFlight[t].generation < d.epoch
  {
    RunInv(Initial(), steps);
  }

  lemma DirtyIsReconciled(c: Controller, t: nat, result: MutationResult)
    requires Inv(c) && c.pending == Some(t) && c.dirty && Fits(c.mutations[t].phase, result)
    ensures Enabled(c, MutationStep(t, result))
    ensures var d := Apply(c, MutationStep(t, result)); Reading(d) && d.epoch > c.epoch && d.pending.None?
  {
    var f := c.(mutations := c.mutations - {t}, pending := None, dirty := false,
                view := SettledView(c.view, c.mutations[t], result));
    RevalidateInv(f, SettledOverrides(c.mutations[t], result));
  }

  /** A refresh requested while mutation `t` is pending changes nothing visible, and is
      never lost: whatever happens until `t` settles, the turn in which it settles,
      however it does, starts a new read. */
  lemma RefreshFollowsMutation(before: seq<Step>, after: seq<Step>, t: nat, result: MutationResult)
    requires Run(Initial(), before).Some? && Run(Initial(), before).value.pending == Some(t)
    requires Run(Apply(Run(Initial(), before).value, RevalidateStep), after).Some?
    requires var d := Run(Apply(Run(Initial(), before).value, RevalidateStep), after).value;
             d.pending == Some(t) && t in d.mutations && Fits(d.mutations[t].phase, result)
    ensures var c := Run(Initial(), before).value; Apply(c, RevalidateStep).view == c.view
    ensures var d := Run(Apply(Run(Initial(), before).value, RevalidateStep), after).value;
            var e := Apply(d, MutationStep(t, result));
            Reading(e) && e.epoch > d.epoch && e.pending.None?
  {
    var c := Run(Initial(), before).value;
    RunInv(Initial(), before);
    StepInv(c, RevalidateStep);
    PendingStaysDirty(Apply(c, RevalidateStep), after, t, result);
  }

  /** The same for a read that was in flight when the mutation started. */
  lemma InterruptedReadResumes(before: seq<Step>, phase: Phase, after: seq<Step>, result: MutationResult)
    requires Run(Initial(), before).Some?
    requires var c := Run(Initial(), before).value;
             c.read.Some? && c.pending.None? && Apply(c, MutateStep(phase)).pending.Some?
    requires Run(Apply(Run(Initial(), before).value, MutateStep(phase)), after).Some?
    requires var t := Run(Initial(), before).value.next;
             var d := Run(Apply(Run(Initial(), before).value, MutateStep(phase)), after).value;
             d.pending == Some(t) && t in d.mutations && Fits(d.mutations[t].phase, result)
    ensures var t := Run(Initial(), before).value.next;
            var d := Run(Apply(Run(Initial(), before).value, MutateStep(phase)), after).value;
            var e := Apply(d, MutationStep(t, result));
            Reading(e) && e.epoch > d.epoch && e.pending.None?
  {
    var c := Run(Initial(), before).value;
    RunInv(Initial(), before);
    StepInv(c, MutateStep(phase));
    PendingStaysDirty(Apply(c, MutateStep(phase)), after, c.next, result);
  }

  lemma PendingStaysDirty(c: Controller, after: seq<Step>, t: nat, result: MutationResult)
    requires Inv(c) && c.pending == Some(t) && c.dirty && Run(c, after).Some?
    requires var d := Run(c, after).value;
             d.pending == Some(t) && t in d.mutations && Fits(d.mutations[t].phase, result)
    ensures var d := Run(c, after).value; var e := Apply(d, MutationStep(t, result));
            Reading(e) && e.epoch > d.epoch && e.pending.None?
  {
    RunLater(c, after);
    RunInv(c, after);
    DirtyIsReconciled(Run(c, after).value, t, result);
  }

  // ---------- the controller's variables ----------

  class SessionObject {
    var view: View
    var connected: bool
    var epoch: nat
    var read: Option<nat>
    var pending: Option<nat>
    var dirty: bool
    var inFlight: map<nat, Read>
    var mutations: map<nat, Mutation>
    var next: nat

    ghost function Value(): (c: Controller)
      reads this
    {
      Controller(view, connected, epoch, read, pending, dirty, inFlight, mutations, next)
    }

    constructor ()
      ensures Value() == Initial()
    {
      view := View(Restoring, None, None, NoNotice, None);
      connected, epoch, read, pending, dirty, inFlight, mutations, next := false, 0, None, None, false, map[], map[], 0;
    }

    method StartRead(o: Overrides)
      modifies this
      ensures Value() == Revalidate(old(Value()), o)
    {
      if !connected {
        return;
      }
      if pending.Some? {
        dirty := true;
        return;
      }
      epoch := epoch + 1;
      var notice := if o.notice.Some? then o.notice.value else view.notice;
      var retained := if o.error.Some? then o.error.value else view.error;
      read := Some(next);
      inFlight := inFlight[next := Read(epoch, view.session, notice, retained, o)];
      next := next + 1;
      view := view.(status := ReadStatus(view, retained), notice := notice);
    }

    method FinishRead(t: nat, result: ReadResult)
      requires t in inFlight
      modifies this
      ensures Value() == ReadSettles(old(Value()), t, result)
    {
      var r := inFlight[t];
      inFlight := inFlight - {t};
      if connected && epoch == r.generation {
        view := ReadView(r, result);
      }
      if read == Some(t) {
        read := None;
      }
    }

    method StartMutation(phase: Phase) returns (started: bool)
      modifies this
      ensures Value() == Mutate(old(Value()), phase)
      ensures started <==> Value() != old(Value())
    {
      if !connected || pending.Some? {
        return false;
      }
      if phase.Logout? && view.session.None? {
        return false;
      }
      if phase.Logout? && (view.status.Unavailable? || (view.status.Reconciling? && view.error.Some?)) {
        return false;
      }
      epoch := epoch + 1;
      pending := Some(next);
      mutations := mutations[next := Mutation(phase, epoch, view)];
      next := next + 1;
      dirty := read.Some?;
      view := view.(status := if phase.Logout? then SigningOut else if view.session.None? then Anonymous
                              else Reconciling,
                    error := None, notice := NoNotice, mutation := Some(phase));
      return true;
    }

    method FinishMutation(t: nat, result: MutationResult)
      requires t in mutations
      modifies this
      ensures Value() == MutationSettles(old(Value()), t, result)
    {
      var m := mutations[t];
      mutations := mutations - {t};
      if !connected || pending != Some(t) {
        return;
      }
      pending := None;
      if epoch != m.epoch {
        return;
      }
      view := SettledView(view, m, result);
      var reconcile := Reconcile(m, result, dirty);
      dirty := false;
      if reconcile {
        StartRead(SettledOverrides(m, result));
      }
    }

    method Open()
      modifies this
      ensures Value() == Connect(old(Value()))
    {
      if connected {
        return;
      }
      connected := true;
      view := view.(status := Restoring, error := None, mutation := None);
      StartRead(NO_OVERRIDES);
    }

    method Close()
      modifies this
      ensures Value() == Disconnect(old(Value()))
    {
      connected := false;
      epoch := epoch + 1;
      read, pending, dirty := None, None, false;
    }
  }
}
