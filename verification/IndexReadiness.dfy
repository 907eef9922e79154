/** The subscription loop of the indexer: replay, readiness barriers, reconnects. */
module IndexReadiness {
  import opened Options
  import opened IndexStore
  import opened IndexService
  import IndexReplay

  const MAX_RETRIES: nat := 10

  /** One try to resume: the loop is cancelled, the boundary check fails for now,
      fails for good, or succeeds. */
  datatype Attempt = Canceled | Temporary | Permanent | Resumable

  /** What storage and the puller answer during a reconnect. */
  datatype Environment = Environment(flushes: bool, loads: bool, attempts: seq<Attempt>)

  /** What the loop receives in one turn. */
  datatype Input =
    | Change(event: Event, marker: Name, faults: Faults)
    | Idle
    | Invalidate(database: Name, fails: bool) // from outside, between two turns
    | Barrier(progress: Name, carriesChange: bool, flushes: bool, canceled: bool)
    | StreamClosed(environment: Environment)
    | RetryableError(environment: Environment)
    | Broken // a fatal, empty or contradictory control event
    | ContextDone
    | Stop

  /** What changed the index since: an applied event, a retired database. */
  datatype Action = Applying(input: IndexReplay.Input) | Dropping(name: Name)

  /** The service after the actions, if every event could be applied. */
  function Perform(s: Service, templates: Templates, actions: seq<Action>): (r: Option<Service>)
    decreases |actions|
  {
    if actions == [] then Some(s)
    else
      match actions[0]
      case Dropping(name) => Perform(Invalidated(s, name, false), templates, actions[1..])
      case Applying(input) =>
        var next := ApplyOutcome(s, templates, Some(input.event), input.marker, NO_FAULTS);
        if next.ok then Perform(next.service, templates, actions[1..]) else None
  }

  /** A barrier that matched: what it named and the service it found. */
  datatype Match = Match(named: Name, found: Service)

  datatype Attachment = Attachment(service: Name, stored: Name)

  /** `matched`, `since`, `attachments` and `attempts` are history: the barrier
      matched and flushed since the last attach, what changed the index after it, the
      markers at every attach, reconnect attempts since the last barrier. */
  datatype Loop = Loop(
    service: Service, verified: bool, running: bool, ready: bool, ended: bool, retries: nat,
    matched: Option<Match>, since: seq<Action>, attachments: seq<Attachment>, attempts: nat)

  // ---------- turns ----------

  function Attach(l: Loop): (r: Loop) {
    l.(matched := None, since := [],
       attachments := l.attachments + [Attachment(l.service.progress, l.service.store.progress)],
       ready := if l.verified then l.ready else true)
  }

  /** The loop returns; its deferred section withdraws readiness. */
  function End(l: Loop): (r: Loop) {
    l.(ready := false, ended := true)
  }

  function Retry(l: Loop, attempts: seq<Attempt>): (r: Loop)
    decreases |attempts|
  {
    if l.retries >= MAX_RETRIES || attempts == [] then End(l)
    else
      var n := l.(retries := l.retries + 1, attempts := l.attempts + 1);
      match attempts[0]
      case Canceled => End(n)
      case Permanent => if l.verified then End(n) else Attach(n)
      case Temporary => if l.verified then Retry(n, attempts[1..]) else Attach(n)
      case Resumable => Attach(n)
  }

  lemma RetryFirst(l: Loop, attempts: seq<Attempt>)
    requires attempts != [] && l.retries < MAX_RETRIES
    ensures var n := l.(retries := l.retries + 1, attempts := l.attempts + 1);
            Retry(l, attempts) ==
            if attempts[0].Canceled? || (l.verified && attempts[0].Permanent?) then End(n)
            else if l.verified && attempts[0].Temporary? then Retry(n, attempts[1..])
            else Attach(n)
  {
  }

  lemma RetryStep(l: Loop, attempts: seq<Attempt>, i: nat)
    requires i < |attempts| && l.retries < MAX_RETRIES
    ensures var n := l.(retries := l.retries + 1, attempts := l.attempts + 1);
            Retry(l, attempts[i..]) ==
            if attempts[i].Canceled? || (l.verified && attempts[i].Permanent?) then End(n)
            else if l.verified && attempts[i].Temporary? then Retry(n, attempts[i + 1..])
            else Attach(n)
  {
    RetryFirst(l, attempts[i..]);
    assert attempts[i..][1..] == attempts[i + 1..];
  }

  function Reloaded(l: Loop): (r: Loop) {
    l.(service := l.service.(progress := l.service.store.progress))
  }

  function Reconnect(l: Loop, env: Environment): (r: Loop) {
    var lowered := l.(ready := false);
    if !env.flushes || !env.loads then End(lowered) else Retry(Reloaded(lowered), env.attempts)
  }

  function Applied(l: Loop, templates: Templates, input: Input): (r: Loop)
    requires input.Change?
  {
    var outcome := ApplyOutcome(l.service, templates, Some(input.event), input.marker, input.faults);
    if !outcome.ok then End(l.(service := outcome.service))
    else
      var n := l.(service := outcome.service,
                  since := l.since + [Applying(IndexReplay.Input(input.event, input.marker))]);
      if l.verified then n else n.(retries := 0)
  }

  function AtBarrier(l: Loop, input: Input): (r: Loop)
    requires input.Barrier?
  {
    if !l.verified || input.carriesChange || input.progress == [] || l.service.progress != input.progress ||
       !input.flushes || input.canceled
    then End(l)
    else l.(retries := 0, attempts := 0, ready := true, matched := Some(Match(input.progress, l.service)), since := [])
  }

  function AfterInvalidation(l: Loop, database: Name, fails: bool): (r: Loop) {
    l.(service := Invalidated(l.service, database, fails),
       since := if fails then l.since else l.since + [Dropping(database)])
  }

  function Turn(l: Loop, templates: Templates, input: Input): (r: Loop) {
    if input.Stop? then l.(running := false, ready := false)
    else if input.Invalidate? then AfterInvalidation(l, input.database, input.fails)
    else if l.ended then l
    else
      match input
      case Change(_, _, _) => Applied(l, templates, input)
      case Idle => l
      case Invalidate(_, _) => l
      case Barrier(_, _, _, _) => AtBarrier(l, input)
      case StreamClosed(env) => Reconnect(l, env)
      case RetryableError(env) => Reconnect(l, env)
      case Broken => End(l)
      case ContextDone => End(l)
      case Stop => l
  }

  function Turns(l: Loop, templates: Templates, inputs: seq<Input>): (r: Loop)
    decreases |inputs|
  {
    if inputs == [] then l else Turns(Turn(l, templates, inputs[0]), templates, inputs[1..])
  }

  /** Startup loads the stored marker and attaches with it. */
  function Started(store: Store, verified: bool): (l: Loop) {
    Attach(Loop(Service(store, store.progress, 0), verified, true, false, false, 0, None, [], [], 0))
  }

  /** Admission of a query. */
  predicate QueryReady(l: Loop) {
    l.running && l.ready
  }

  // ---------- invariant ----------

  predicate Consistent(attachments: seq<Attachment>) {
    forall i :: 0 <= i < |attachments| ==> attachments[i].service == attachments[i].stored
  }

  /** The service is what the matched barrier found, with every event since applied and
      every database retired since gone, in order. */
  predicate Replayed(l: Loop, templates: Templates) {
    l.matched.Some? && Perform(l.matched.value.found, templates, l.since) == Some(l.service)
  }

  predicate MatchOk(m: Match) {
    m.named != [] && m.found.progress == m.named && m.found.store.progress == m.named
  }

  predicate Inv(l: Loop, templates: Templates) {
    && l.service.progress == l.service.store.progress
    && Consistent(l.attachments)
    && (l.ready ==> !l.ended && (l.verified ==> Replayed(l, templates)))
    && (l.matched.Some? ==> MatchOk(l.matched.value))
    && (l.verified ==> l.attempts == l.retries) && l.retries <= MAX_RETRIES
  }

  /** Faults only ever make an event fail. */
  lemma FaultsOnlyFail(s: Service, templates: Templates, event: Event, marker: Name, f: Faults)
    requires ApplyOutcome(s, templates, Some(event), marker, f).ok
    ensures ApplyOutcome(s, templates, Some(event), marker, NO_FAULTS) ==
              ApplyOutcome(s, templates, Some(event), marker, f)
  {
  }

  lemma {:induction false} PerformConcat(s: Service, templates: Templates, a: seq<Action>, b: seq<Action>)
    requires Perform(s, templates, a).Some?
    ensures Perform(s, templates, a + b) == Perform(Perform(s, templates, a).value, templates, b)
    decreases |a|
  {
    if a == [] {
      assert a + b == b;
    } else {
      assert (a + b)[0] == a[0] && (a + b)[1..] == a[1..] + b;
      match a[0]
      case Dropping(name) => PerformConcat(Invalidated(s, name, false), templates, a[1..], b);
      case Applying(input) =>
        PerformConcat(ApplyOutcome(s, templates, Some(input.event), input.marker, NO_FAULTS).service, templates,
                      a[1..], b);
    }
  }

  lemma PerformOne(s: Service, templates: Templates, action: Action)
    ensures action.Dropping? ==> Perform(s, templates, [action]) == Some(Invalidated(s, action.name, false))
    ensures action.Applying? ==>
              var next := ApplyOutcome(s, templates, Some(action.input.event), action.input.marker, NO_FAULTS);
              Perform(s, templates, [action]) == if next.ok then Some(next.service) else None
  {
    assert [action][1..] == [];
  }

  /** Without invalidations the actions are a run of events. */
  lemma {:induction false} PerformEvents(s: Service, templates: Templates, inputs: seq<IndexReplay.Input>)
    ensures Perform(s, templates, Events(inputs)) == IndexReplay.ApplyAll(s, templates, inputs)
    decreases |inputs|
  {
    if inputs != [] {
      assert Events(inputs)[1..] == Events(inputs[1..]);
      PerformEvents(ApplyOutcome(s, templates, Some(inputs[0].event), inputs[0].marker, NO_FAULTS).service, templates,
                    inputs[1..]);
    }
  }

  function Events(inputs: seq<IndexReplay.Input>): (actions: seq<Action>)
    ensures |actions| == |inputs| && forall i :: 0 <= i < |inputs| ==> actions[i] == Applying(inputs[i])
  {
    seq(|inputs|, i requires 0 <= i < |inputs| => Applying(inputs[i]))
  }

  lemma InvalidatedInv(l: Loop, templates: Templates, database: Name, fails: bool)
    requires Inv(l, templates)
    ensures Inv(AfterInvalidation(l, database, fails), templates)
  {
    if l.ready && l.verified && !fails {
      PerformConcat(l.matched.value.found, templates, l.since, [Dropping(database)]);
      PerformOne(l.service, templates, Dropping(database));
    }
  }

  lemma AppliedInv(l: Loop, templates: Templates, input: Input)
    requires Inv(l, templates) && !l.ended && input.Change?
    ensures Inv(Applied(l, templates, input), templates)
  {
    ApplyKeepsMarkers(l.service, templates, Some(input.event), input.marker, input.faults);
    if l.ready && l.verified && ApplyOutcome(l.service, templates, Some(input.event), input.marker, input.faults).ok {
      FaultsOnlyFail(l.service, templates, input.event, input.marker, input.faults);
      var action := Applying(IndexReplay.Input(input.event, input.marker));
      PerformConcat(l.matched.value.found, templates, l.since, [action]);
      PerformOne(l.service, templates, action);
    }
  }

  lemma ApplyKeepsMarkers(s: Service, templates: Templates, event: Option<Event>, marker: Name, f: Faults)
    requires s.progress == s.store.progress
    ensures var t := ApplyOutcome(s, templates, event, marker, f).service; t.progress == t.store.progress
  {
  }

  lemma {:induction false} RetryInv(l: Loop, templates: Templates, attempts: seq<Attempt>)
    requires Inv(l, templates) && !l.ready && !l.ended
    ensures Inv(Retry(l, attempts), templates)
    decreases |attempts|
  {
    if l.retries < MAX_RETRIES && attempts != [] {
      var n := l.(retries := l.retries + 1, attempts := l.attempts + 1);
      if attempts[0].Temporary? && l.verified {
        RetryInv(n, templates, attempts[1..]);
      }
    }
  }

  lemma TurnInv(l: Loop, templates: Templates, input: Input)
    requires Inv(l, templates)
    ensures Inv(Turn(l, templates, input), templates)
  {
    if input.Invalidate? {
      InvalidatedInv(l, templates, input.database, input.fails);
    } else if !l.ended {
      match input
      case Change(_, _, _) => AppliedInv(l, templates, input);
      case StreamClosed(env) => RetryInv(Reloaded(l.(ready := false)), templates, env.attempts);
      case RetryableError(env) => RetryInv(Reloaded(l.(ready := false)), templates, env.attempts);
      case _ =>
    }
  }

  lemma {:induction false} TurnsInv(l: Loop, templates: Templates, inputs: seq<Input>)
    requires Inv(l, templates)
    ensures Inv(Turns(l, templates, inputs), templates)
    decreases |inputs|
  {
    if inputs != [] {
      TurnInv(l, templates, inputs[0]);
      TurnsInv(Turn(l, templates, inputs[0]), templates, inputs[1..]);
    }
  }

  // ---------- theorems over every run ----------

  lemma {:induction false} VerifiedKept(l: Loop, templates: Templates, inputs: seq<Input>)
    ensures Turns(l, templates, inputs).verified == l.verified
    decreases |inputs|
  {
    if inputs != [] {
      if inputs[0].StreamClosed? || inputs[0].RetryableError? {
        RetryVerified(Reloaded(l.(ready := false)), inputs[0].environment.attempts);
      }
      VerifiedKept(Turn(l, templates, inputs[0]), templates, inputs[1..]);
    }
  }

  lemma {:induction false} RetryVerified(l: Loop, attempts: seq<Attempt>)
    ensures Retry(l, attempts).verified == l.verified
    decreases |attempts|
  {
    if attempts != [] && l.retries < MAX_RETRIES {
      RetryVerified(l.(retries := l.retries + 1, attempts := l.attempts + 1), attempts[1..]);
    }
  }

  /** What an admitted query reads in verified mode: since the last attach a barrier was
      matched and flushed, it named the marker both of the service and of its store, and
      the index is what it was then with every event received since applied, none
      failed and none skipped, and every database retired since gone. */
  lemma ReadyMeansReplayed(store: Store, templates: Templates, inputs: seq<Input>)
    ensures var l := Turns(Started(store, true), templates, inputs);
            QueryReady(l) ==> Replayed(l, templates) && MatchOk(l.matched.value) && !l.ended
  {
    TurnsInv(Started(store, true), templates, inputs);
    VerifiedKept(Started(store, true), templates, inputs);
  }

  /** No posting of a retired database is left. */
  ghost predicate Gone(store: Store, database: Name) {
    database in store.meta.retired &&
    forall slot: Slot :: slot.index.database == database ==> Get(store.postings, slot) == []
  }

  lemma EventKeepsGone(s: Service, templates: Templates, event: Event, marker: Name, database: Name)
    requires Gone(s.store, database) && ApplyOutcome(s, templates, Some(event), marker, NO_FAULTS).ok
    ensures Gone(ApplyOutcome(s, templates, Some(event), marker, NO_FAULTS).service.store, database)
  {
    IndexReplay.SuccessIsEffect(s, templates, event, marker);
    var ps := IndexReplay.EffectOf(s.store.meta, templates, event).value;
    forall slot: Slot | slot.index.database == database ensures Get(PutAll(s.store.postings, ps), slot) == [] {
      forall i | 0 <= i < |ps| ensures ps[i].index.database != database {
        IndexReplay.EffectIdentity(s.store.meta, templates, event, i);
      }
      PutAllGet(s.store.postings, ps, slot);
      LastKeysTouched(ps, slot, [], []);
    }
  }

  lemma {:induction false} GoneLasts(s: Service, templates: Templates, database: Name, later: seq<Action>)
    requires Gone(s.store, database) && Perform(s, templates, later).Some?
    ensures Gone(Perform(s, templates, later).value.store, database)
    decreases |later|
  {
    if later != [] {
      match later[0]
      case Dropping(name) =>
        GoneLasts(Invalidated(s, name, false), templates, database, later[1..]);
      case Applying(input) =>
        EventKeepsGone(s, templates, input.event, input.marker, database);
        GoneLasts(ApplyOutcome(s, templates, Some(input.event), input.marker, NO_FAULTS).service, templates, database,
                  later[1..]);
    }
  }

  /** An invalidation empties the database for good: whatever events and invalidations
      follow, none of its postings comes back. */
  lemma InvalidationLasts(s: Service, templates: Templates, database: Name, later: seq<Action>)
    requires Perform(s, templates, [Dropping(database)] + later).Some?
    ensures Gone(Perform(s, templates, [Dropping(database)] + later).value.store, database)
  {
    assert ([Dropping(database)] + later)[1..] == later;
    GoneLasts(Invalidated(s, database, false), templates, database, later);
  }

  /** The service's marker equals the stored one after every turn, and did at
      every attach. */
  lemma MarkersAgree(store: Store, verified: bool, templates: Templates, inputs: seq<Input>)
    ensures var l := Turns(Started(store, verified), templates, inputs);
            l.service.progress == l.service.store.progress && Consistent(l.attachments)
  {
    TurnsInv(Started(store, verified), templates, inputs);
  }

  /** At most ten reconnect attempts are made between barriers. */
  lemma RetriesBounded(store: Store, templates: Templates, inputs: seq<Input>)
    ensures Turns(Started(store, true), templates, inputs).attempts <= MAX_RETRIES
  {
    TurnsInv(Started(store, true), templates, inputs);
    VerifiedKept(Started(store, true), templates, inputs);
  }

  /** While a reconnect runs, no query is admitted in verified mode until a new
      barrier arrives. */
  lemma {:induction false} ReconnectLowersReady(l: Loop, attempts: seq<Attempt>)
    requires l.verified && !l.ready
    ensures !Retry(l, attempts).ready
    decreases |attempts|
  {
    if attempts != [] && l.retries < MAX_RETRIES && attempts[0].Temporary? {
      ReconnectLowersReady(l.(retries := l.retries + 1, attempts := l.attempts + 1), attempts[1..]);
    }
  }

  // ---------- the loop object ----------

  class Subscription {
    const indexer: Indexer
    const verified: bool
    var running: bool
    var ready: bool
    var ended: bool
    var retries: nat
    ghost var matched: Option<Match>
    ghost var since: seq<Action>
    ghost var attachments: seq<Attachment>
    ghost var attempts: nat

    ghost function View(): (l: Loop)
      reads this, indexer
    {
      Loop(indexer.View(), verified, running, ready, ended, retries, matched, since, attachments, attempts)
    }

    constructor (templates: Templates, store: Store, verified: bool)
      ensures fresh(indexer) && indexer.templates == templates && View() == Started(store, verified)
    {
      indexer := new Indexer(templates, store);
      this.verified := verified;
      running, ready, ended, retries := true, !verified, false, 0;
      matched, since, attachments, attempts := None, [], [Attachment(store.progress, store.progress)], 0;
    }

    method AttachStream()
      modifies this
      ensures View() == Attach(old(View()))
    {
      matched, since := None, [];
      attachments := attachments + [Attachment(indexer.progress, indexer.store.progress)];
      if !verified {
        ready := true;
      }
    }

    method ReconnectStream(flushes: bool, loads: bool, outcomes: seq<Attempt>)
      modifies this, indexer
      ensures View() == Reconnect(old(View()), Environment(flushes, loads, outcomes))
    {
      ready := false;
      if !flushes || !loads {
        ended := true;
        return;
      }
      indexer.progress := indexer.store.progress;
      RetryStream(outcomes);
    }

    /** The bounded retry loop of a reconnect; `outcomes` are the successive
        answers of the surroundings, and running out of them is cancellation. */
    method RetryStream(outcomes: seq<Attempt>)
      requires !ready
      modifies this
      ensures View() == Retry(old(View()), outcomes)
    {
      var i := 0;
      assert outcomes[0..] == outcomes;
      while retries < MAX_RETRIES && i < |outcomes|
        invariant 0 <= i <= |outcomes| && !ready
        invariant Retry(View(), outcomes[i..]) == Retry(old(View()), outcomes)
        decreases |outcomes| - i
      {
        RetryStep(View(), outcomes, i);
        retries := retries + 1;
        attempts := attempts + 1;
        if outcomes[i].Canceled? {
          ended := true;
          return;
        }
        if verified && outcomes[i].Permanent? {
          ended := true;
          return;
        }
        if !verified || outcomes[i].Resumable? {
          AttachStream();
          return;
        }
        i := i + 1;
      }
      ended := true;
    }

    method HandleBarrier(progress: Name, carriesChange: bool, flushes: bool, canceled: bool)
      modifies this
      ensures View() == AtBarrier(old(View()), Barrier(progress, carriesChange, flushes, canceled))
    {
      if !verified || carriesChange || progress == [] || indexer.progress != progress || !flushes || canceled {
        ready, ended := false, true;
        return;
      }
      retries := 0;
      attempts := 0;
      matched := Some(Match(progress, indexer.View()));
      since := [];
      ready := true;
    }

    /** Called from outside the loop; the projection lock keeps it out of a turn. */
    method HandleInvalidation(database: Name, fails: bool)
      modifies this, indexer
      ensures View() == AfterInvalidation(old(View()), database, fails)
    {
      var ok := indexer.InvalidateDatabase(database, fails);
      if ok {
        since := since + [Dropping(database)];
      }
    }

    method HandleChange(event: Event, marker: Name, faults: Faults)
      modifies this, indexer
      ensures View() == Applied(old(View()), indexer.templates, Change(event, marker, faults))
    {
      var ok := indexer.ApplyEvent(Some(event), marker, faults);
      if !ok {
        ready, ended := false, true;
        return;
      }
      since := since + [Applying(IndexReplay.Input(event, marker))];
      if !verified {
        retries := 0;
      }
    }
  }
}
