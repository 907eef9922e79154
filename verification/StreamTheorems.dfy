/** What the reconnecting stream promises, over every run from its creation. */
module StreamTheorems {
  import opened Options
  import opened StreamRegistry
  import opened StreamProtocol
  import opened StreamInvariant
  import opened StreamSafety

  lemma InitialInv()
    ensures Inv(Initial)
  {
    assert FreshPending(Initial.reg.pending, Initial.calls) == {};
    assert Pipe(Initial.link) == [];
  }

  lemma {:induction false} RunInv(s: State, steps: seq<Step>)
    requires Inv(s) && Run(s, steps).Some?
    ensures Inv(Run(s, steps).value)
    decreases |steps|
  {
    if steps != [] {
      StepInv(s, steps[0]);
      RunInv(Apply(s, steps[0]), steps[1..]);
    }
  }

  lemma ReachableInv(steps: seq<Step>)
    requires Run(Initial, steps).Some?
    ensures Inv(Run(Initial, steps).value)
  {
    InitialInv();
    RunInv(Initial, steps);
  }

  /** No register or Unsubscribe call on the newest attempt is under way. */
  predicate Quiet(s: State) {
    QuietCalls(s.calls, Newest(s))
  }

  predicate QuietCalls(calls: seq<Call>, newest: int) {
    forall c :: 0 <= c < |calls| && calls[c].attempt == newest ==> calls[c].phase.Finished? || calls[c].phase.Admitting?
  }

  /** The writer and the wire have nothing left to do. */
  predicate Drained(s: State) {
    s.link.sends == [] && s.link.writer.Idle? && s.link.wire == []
  }

  /** No upstream subscription outlives its registration: whatever was cancelled,
      timed out, rejected, withdrawn while restoring or acknowledged too late,
      the server ends up holding nothing but active subscriptions, and no
      registration slot stays charged. */
  lemma NoLeakedSubscriptions(steps: seq<Step>, s: State)
    requires Run(Initial, steps) == Some(s)
    requires Live(s) && Quiet(s) && Drained(s)
    ensures s.link.held.Keys <= s.reg.active.Keys - s.names.overtaken
    ensures s.reg.pending == map[]
  {
    ReachableInv(steps);
    DrainedState(s);
  }

  lemma DrainedState(s: State)
    requires Inv(s) && Live(s) && Quiet(s) && Drained(s)
    ensures s.link.held.Keys <= s.reg.active.Keys - s.names.overtaken && s.reg.pending == map[]
  {
    assert s.doomed.None?;
    assert Pipe(s.link) == [] && Queue(s.link) == [];
    NothingCharged(s.reg.pending, s.calls, Newest(s), s.link);
    forall id | id in s.link.held ensures id in s.reg.active && id !in s.names.overtaken {
      assert NoLeak(s.reg.active, s.names.overtaken, s.link.held, Pipe(s.link), s.owner, s.calls, Newest(s), id);
      HeldIsActive(s.reg.active, s.names.overtaken, s.link.held, s.owner, s.calls, Newest(s), id);
    }
  }

  lemma HeldIsActive(active: map<Id, Request>, overtaken: set<Id>, held: map<Id, Request>, owner: map<Id, nat>,
                     calls: seq<Call>, newest: int, id: Id)
    requires NoLeak(active, overtaken, held, [], owner, calls, newest, id) && Owners(owner, calls, newest) &&
             QuietCalls(calls, newest) && id in held
    ensures id in active && id !in overtaken
  {
    assert !RemovalPending(calls, newest, id);
    assert Final(true, [], id);
  }

  lemma NothingCharged(pending: map<Id, nat>, calls: seq<Call>, newest: int, l: Link)
    requires Pending(pending, calls, newest) && Discharging(pending, calls, l) && QuietCalls(calls, newest)
    requires Queue(l) == [] && l.writer.Idle?
    ensures pending == map[]
  {
    forall id | id in pending ensures PendingEntry(pending, calls, newest, id) {
    }
    assert forall id :: !CleanupQueued(l, id);
  }

  /** While connected on a live attempt the server holds every active subscription that was
      not overtaken, under the request it was created with. */
  lemma ConnectedServerHoldsActive(steps: seq<Step>, s: State)
    requires Run(Initial, steps) == Some(s) && Live(s) && s.reg.state == Connected
    ensures forall id :: id in s.reg.active && id !in s.names.overtaken ==> id in s.link.held
    ensures forall id :: id in s.reg.active && id in s.link.held ==> s.link.held[id] == s.reg.active[id]
  {
    ReachableInv(steps);
  }

  /** Once quiet and drained, the server holds exactly the active subscriptions that were
      not overtaken: those on whose identifier nobody queued an unsubscribe behind the
      subscribe without having been given it. So server and client agree if and only if
      no active subscription was overtaken on this attempt. */
  lemma ServerMatchesRegistry(steps: seq<Step>, s: State)
    requires Run(Initial, steps) == Some(s)
    requires Live(s) && Quiet(s) && Drained(s) && s.reg.state == Connected
    ensures s.link.held == s.reg.active - s.names.overtaken
    ensures s.link.held == s.reg.active <==> s.reg.active.Keys !! s.names.overtaken
  {
    NoLeakedSubscriptions(steps, s);
    ConnectedServerHoldsActive(steps, s);
    AgreeExcept(s.link.held, s.reg.active, s.names.overtaken);
  }

  lemma AgreeExcept(held: map<Id, Request>, active: map<Id, Request>, overtaken: set<Id>)
    requires held.Keys <= active.Keys - overtaken
    requires forall id :: id in active && id !in overtaken ==> id in held
    requires forall id :: id in active && id in held ==> held[id] == active[id]
    ensures held == active - overtaken && (held == active <==> active.Keys !! overtaken)
  {
    assert held == active - overtaken;
    if active.Keys !! overtaken {
      assert active - overtaken == active;
    }
  }

  /** The connected state names one current attempt, the newest, whose
      generation is the published one, and every active subscription was
      acknowledged by that very attempt. When Status shows it, the attempt is alive. */
  lemma ConnectedMeansRestored(steps: seq<Step>, s: State)
    requires Run(Initial, steps) == Some(s) && s.reg.state == Connected
    ensures s.reg.attempt == Some(Newest(s)) && s.generations[Newest(s)] == s.reg.generation && !s.reg.terminal
    ensures Observed(s).state == Connected ==> Live(s)
    ensures forall id :: id in s.reg.active ==>
              && id in s.owner && s.owner[id] < |s.calls|
              && s.calls[s.owner[id]].id == id && s.calls[s.owner[id]].attempt == Newest(s)
              && s.calls[s.owner[id]].phase == Finished(Accepted)
  {
    ReachableInv(steps);
  }

  /** Each new attempt opens a strictly later generation. */
  lemma GenerationsIncrease(steps: seq<Step>, s: State)
    requires Run(Initial, steps) == Some(s)
    ensures forall i, j :: 0 <= i < j < |s.generations| ==> s.generations[i] < s.generations[j]
    ensures s.reg.attempt.None? ==> forall i :: 0 <= i < |s.generations| ==> s.generations[i] < s.reg.generation
  {
    ReachableInv(steps);
  }

  lemma CapacityRespected(steps: seq<Step>, s: State)
    requires Run(Initial, steps) == Some(s)
    ensures |s.reg.pending| <= REGISTRATION_LIMIT
    ensures |s.reg.active| <= ACTIVE_LIMIT
  {
    ReachableInv(steps);
  }

  // ---------- the delivery fence ----------

  /** What a step can do to the published generation and to what Recv returned. */
  predicate Fenced(s: State, s': State) {
    && s.reg.generation <= s'.reg.generation
    && |s.outputs| <= |s'.outputs|
    && s'.outputs[..|s.outputs|] == s.outputs
    && (forall i :: |s.outputs| <= i < |s'.outputs| ==> s.reg.generation <= s'.outputs[i])
  }

  lemma CallerFenced(s: State, step: CallerStep)
    requires CallerEnabled(s, step)
    ensures Fenced(s, CallerApply(s, step))
  {
  }

  lemma TransportFenced(s: State, step: TransportStep)
    requires TransportEnabled(s, step)
    ensures Fenced(s, TransportApply(s, step))
  {
  }

  lemma LoopFenced(s: State, step: LoopStep)
    requires LoopEnabled(s, step)
    ensures Fenced(s, LoopApply(s, step))
  {
  }

  lemma StepFenced(s: State, step: Step)
    requires Enabled(s, step)
    ensures Fenced(s, Apply(s, step))
  {
    match step
    case ByCaller(x) => CallerFenced(s, x);
    case ByTransport(x) => TransportFenced(s, x);
    case ByLoop(x) => LoopFenced(s, x);
  }

  /** From any state on, Recv returns only deliveries of the generation current
      there or of a later one: a retired generation is never heard again. */
  lemma {:induction false} RetiredGenerationStaysSilent(s: State, steps: seq<Step>)
    requires Run(s, steps).Some?
    ensures Fenced(s, Run(s, steps).value)
    decreases |steps|
  {
    if steps != [] {
      var s1 := Apply(s, steps[0]);
      var s2 := Run(s1, steps[1..]).value;
      StepFenced(s, steps[0]);
      RetiredGenerationStaysSilent(s1, steps[1..]);
      assert s2.outputs[..|s.outputs|] == s2.outputs[..|s1.outputs|][..|s.outputs|];
      forall i | |s.outputs| <= i < |s2.outputs|
        ensures s.reg.generation <= s2.outputs[i]
      {
        if i < |s1.outputs| {
          assert s2.outputs[i] == s2.outputs[..|s1.outputs|][i] == s1.outputs[i];
        }
      }
    }
  }

  lemma DeliveriesInOrder(steps: seq<Step>, s: State)
    requires Run(Initial, steps) == Some(s)
    ensures forall i, j :: 0 <= i < j < |s.outputs| ==> s.outputs[i] <= s.outputs[j]
    ensures forall i :: 0 <= i < |s.outputs| ==> s.outputs[i] <= s.reg.generation
  {
    ReachableInv(steps);
  }
}
