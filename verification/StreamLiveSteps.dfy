/** Every step keeps the facts about the live attempt: who is charged, what is
    queued, what the server holds and what it will hold once the pipe drains. */
module StreamLiveSteps {
  import opened Options
  import opened StreamRegistry
  import opened StreamProtocol
  import opened StreamInvariant
  import opened StreamSteps

  // ---------- what the server side reads of the calls ----------

  /** Later calls know at least as much, and accept no more. */
  ghost predicate Grows(owner: map<Id, nat>, calls: seq<Call>, removed: set<Id>, owner': map<Id, nat>,
                        calls': seq<Call>, removed': set<Id>)
  {
    && (forall id :: Touched(owner, calls, id) ==> Touched(owner', calls', id))
    && (forall id :: UnsubscribeIssued(owner, calls, removed, id) ==> UnsubscribeIssued(owner', calls', removed', id))
  }

  lemma SubscribesGrow(p: seq<Message>, owner: map<Id, nat>, calls: seq<Call>, requests: map<Id, Request>,
                       removed: set<Id>, owner': map<Id, nat>, calls': seq<Call>, removed': set<Id>)
    requires Subscribes(p, owner, calls, requests) && Grows(owner, calls, removed, owner', calls', removed')
    ensures Subscribes(p, owner', calls', requests)
  {
  }

  lemma ServerGrows(held: map<Id, Request>, p: seq<Message>, owner: map<Id, nat>, calls: seq<Call>,
                    requests: map<Id, Request>, removed: set<Id>, owner': map<Id, nat>, calls': seq<Call>,
                    removed': set<Id>)
    requires Server(held, p, owner, calls, requests) && Grows(owner, calls, removed, owner', calls', removed')
    ensures Server(held, p, owner', calls', requests)
  {
  }

  lemma ResponsesGrow(rs: seq<Response>, held: map<Id, Request>, p: seq<Message>, owner: map<Id, nat>,
                      calls: seq<Call>, removed: set<Id>, owner': map<Id, nat>, calls': seq<Call>,
                      removed': set<Id>)
    requires Responses(rs, held, p, owner, calls, removed) && Grows(owner, calls, removed, owner', calls', removed')
    ensures Responses(rs, held, p, owner', calls', removed')
  {
    forall k | 0 <= k < |rs|
      ensures Verdict(held, p, owner', calls', removed', rs[k].id, rs[k].success)
    {
      assert Verdict(held, p, owner, calls, removed, rs[k].id, rs[k].success);
    }
  }

  lemma UnsubscribesGrow(held: map<Id, Request>, p: seq<Message>, owner: map<Id, nat>, calls: seq<Call>,
                         removed: set<Id>, owner': map<Id, nat>, calls': seq<Call>, removed': set<Id>)
    requires Unsubscribes(held, p, owner, calls, removed) && Grows(owner, calls, removed, owner', calls', removed')
    ensures Unsubscribes(held, p, owner', calls', removed')
  {
    forall k | 0 <= k < |p| && p[k].Unsubscribe?
      ensures UnsubscribeIssued(owner', calls', removed', p[k].id) || Harmless(held, p, k)
    {
      assert UnsubscribeIssued(owner, calls, removed, p[k].id) || Harmless(held, p, k);
    }
  }

  lemma ServerSideUpdate(link: Link, p: seq<Message>, owner: map<Id, nat>, calls: seq<Call>, newest: int,
                         names: Names, active: map<Id, Request>, c: nat, y: Call)
    requires ServerSide(link, p, owner, calls, newest, names, active) && c < |calls|
    requires Inert(calls[c], y, newest) && Owners(owner, calls, newest)
    ensures ServerSide(link, p, owner, calls[c := y], newest, names, active)
  {
    var calls' := calls[c := y];
    assert Grows(owner, calls, names.removed, owner, calls', names.removed);
    SubscribesGrow(p, owner, calls, names.requests, names.removed, owner, calls', names.removed);
    ServerGrows(link.held, p, owner, calls, names.requests, names.removed, owner, calls', names.removed);
    ResponsesGrow(link.responses, link.held, p, owner, calls, names.removed, owner, calls', names.removed);
    UnsubscribesGrow(link.held, p, owner, calls, names.removed, owner, calls', names.removed);
    AnswersUpdate(link.held, p, owner, calls, newest, names.removed, c, y);
  }

  lemma AnswersUpdate(held: map<Id, Request>, p: seq<Message>, owner: map<Id, nat>, calls: seq<Call>, newest: int,
                      removed: set<Id>, c: nat, y: Call)
    requires Answers(held, p, owner, calls, newest, removed) && c < |calls| && SameIdentity(calls[c], y)
    requires calls[c].attempt == newest ==> calls[c].response == y.response
    requires Grows(owner, calls, removed, owner, calls[c := y], removed)
    ensures Answers(held, p, owner, calls[c := y], newest, removed)
  {
    var calls' := calls[c := y];
    forall k | 0 <= k < |calls'| && Registering(calls'[k]) && calls'[k].attempt == newest && calls'[k].response.Some?
      ensures Verdict(held, p, owner, calls', removed, calls'[k].id, calls'[k].response.value)
    {
      assert Verdict(held, p, owner, calls, removed, calls[k].id, calls[k].response.value);
    }
  }

  // ---------- a call changes nothing the live attempt depends on ----------

  predicate Inert(x: Call, y: Call, newest: int) {
    && SameIdentity(x, y)
    && (x.attempt == newest ==>
          && x.sent == y.sent && x.sendResult == y.sendResult && x.response == y.response && x.abandoned == y.abandoned
          && (InProgress(x) <==> InProgress(y))
          && (x.phase == Finished(Accepted) <==> y.phase == Finished(Accepted))
          && (x.kind == Remove ==> x.phase == y.phase))
  }

  lemma InertQueued(q: seq<SendOp>, calls: seq<Call>, newest: int, c: nat, y: Call)
    requires Queued(q, calls, newest) && c < |calls| && Inert(calls[c], y, newest)
    ensures Queued(q, calls[c := y], newest)
  {
    forall k | 0 <= k < |q|
      ensures QueueEntry(q[k], calls[c := y], newest)
    {
      assert QueueEntry(q[k], calls, newest);
    }
  }

  lemma InertCallSide(s: State, c: nat, y: Call)
    requires CallSide(s) && Pending(s.reg.pending, s.calls, Newest(s)) && c < |s.calls| &&
             Inert(s.calls[c], y, Newest(s))
    ensures CallSide(SetCall(s, c, y))
  {
    InertQueued(Queue(s.link), s.calls, Newest(s), c, y);
    forall id | id in s.reg.pending
      ensures PendingEntry(s.reg.pending, s.calls, Newest(s), id)
    {
    }
  }

  lemma InertLeaks(doomed: Option<nat>, active: map<Id, Request>, overtaken: set<Id>, held: map<Id, Request>,
                   p: seq<Message>, owner: map<Id, nat>, calls: seq<Call>, newest: int, c: nat, y: Call)
    requires Owners(owner, calls, newest) && NoLeaks(doomed, active, overtaken, held, p, owner, calls, newest)
    requires c < |calls| && Inert(calls[c], y, newest)
    ensures NoLeaks(doomed, active, overtaken, held, p, owner, calls[c := y], newest)
  {
    LeaksProgress(doomed, active, overtaken, held, p, owner, calls, newest, c, y);
  }

  /** A call may change freely as long as it keeps its own flight going. */
  lemma LeaksProgress(doomed: Option<nat>, active: map<Id, Request>, overtaken: set<Id>, held: map<Id, Request>,
                      p: seq<Message>, owner: map<Id, nat>, calls: seq<Call>, newest: int, c: nat, y: Call)
    requires NoLeaks(doomed, active, overtaken, held, p, owner, calls, newest)
    requires Owners(owner, calls, newest)
    requires c < |calls| && SameIdentity(calls[c], y)
    requires calls[c].attempt == newest && InProgress(calls[c]) ==> InProgress(y)
    requires calls[c].attempt == newest && calls[c].sent ==> y.sent
    requires calls[c].attempt == newest && calls[c].kind == Remove && calls[c].phase.Enqueuing? ==> y.phase.Enqueuing?
    ensures NoLeaks(doomed, active, overtaken, held, p, owner, calls[c := y], newest)
  {
    var calls' := calls[c := y];
    forall id | doomed.None?
      ensures NoLeak(active, overtaken, held, p, owner, calls', newest, id)
    {
      assert NoLeak(active, overtaken, held, p, owner, calls, newest, id);
      if RemovalPending(calls, newest, id) {
        var k :| RemovalUnsent(calls, newest, k, id);
        assert RemovalUnsent(calls', newest, k, id);
      }
    }
  }

  lemma InertLive(s: State, c: nat, y: Call)
    requires Base(s) && LiveOk(s) && c < |s.calls| && Inert(s.calls[c], y, Newest(s))
    ensures LiveOk(SetCall(s, c, y))
  {
    InertCallSide(s, c, y);
    ServerSideUpdate(s.link, Pipe(s.link), s.owner, s.calls, Newest(s), s.names, s.reg.active, c, y);
    InertLeaks(s.doomed, s.reg.active, s.names.overtaken, s.link.held, Pipe(s.link), s.owner, s.calls, Newest(s), c, y);
  }

  // ---------- a new call ----------

  lemma AppendGrows(owner: map<Id, nat>, calls: seq<Call>, removed: set<Id>, y: Call)
    ensures Grows(owner, calls, removed, owner, calls + [y], removed)
    ensures y.id !in owner ==> Grows(owner, calls, removed, owner[y.id := |calls|], calls + [y], removed)
  {
  }

  lemma ServerSideAppend(link: Link, p: seq<Message>, owner: map<Id, nat>, owner': map<Id, nat>, calls: seq<Call>,
                         newest: int, names: Names, names': Names, active: map<Id, Request>, y: Call)
    requires ServerSide(link, p, owner, calls, newest, names, active)
    requires owner' == owner || (y.id !in owner && owner' == owner[y.id := |calls|])
    requires y.response.None? && y.phase != Finished(Accepted)
    requires names'.removed == names.removed && names'.overtaken == names.overtaken
    requires forall id :: id in names.requests ==> id in names'.requests && names'.requests[id] == names.requests[id]
    requires forall id :: id in owner ==> owner[id] < |calls|
    ensures ServerSide(link, p, owner', calls + [y], newest, names', active)
  {
    var calls' := calls + [y];
    AppendGrows(owner, calls, names.removed, y);
    SubscribesGrow(p, owner, calls, names.requests, names.removed, owner', calls', names.removed);
    ServerGrows(link.held, p, owner, calls, names.requests, names.removed, owner', calls', names.removed);
    ResponsesGrow(link.responses, link.held, p, owner, calls, names.removed, owner', calls', names.removed);
    UnsubscribesGrow(link.held, p, owner, calls, names.removed, owner', calls', names.removed);
    AnswersAppend(link.held, p, owner, owner', calls, newest, names.removed, y);
    assert forall id :: AcceptedHere(owner', calls', id) ==> AcceptedHere(owner, calls, id);
  }

  lemma AnswersAppend(held: map<Id, Request>, p: seq<Message>, owner: map<Id, nat>, owner': map<Id, nat>,
                      calls: seq<Call>, newest: int, removed: set<Id>, y: Call)
    requires Answers(held, p, owner, calls, newest, removed) && y.response.None?
    requires Grows(owner, calls, removed, owner', calls + [y], removed)
    ensures Answers(held, p, owner', calls + [y], newest, removed)
  {
    var calls' := calls + [y];
    forall k | 0 <= k < |calls'| && Registering(calls'[k]) && calls'[k].attempt == newest && calls'[k].response.Some?
      ensures Verdict(held, p, owner', calls', removed, calls'[k].id, calls'[k].response.value)
    {
      assert Verdict(held, p, owner, calls, removed, calls[k].id, calls[k].response.value);
    }
  }

  lemma QueuedAppend(q: seq<SendOp>, calls: seq<Call>, newest: int, y: Call)
    requires Queued(q, calls, newest)
    ensures Queued(q, calls + [y], newest)
  {
    forall k | 0 <= k < |q|
      ensures QueueEntry(q[k], calls + [y], newest)
    {
      assert QueueEntry(q[k], calls, newest);
    }
  }

  lemma CallSideAppend(s: State, y: Call)
    requires CallSide(s) && Pending(s.reg.pending, s.calls, Newest(s))
    requires !InProgress(y) && y.response.None? && y.sendResult.None?
    ensures CallSide(s.(calls := s.calls + [y]))
  {
    QueuedAppend(Queue(s.link), s.calls, Newest(s), y);
    forall id | id in s.reg.pending
      ensures PendingEntry(s.reg.pending, s.calls, Newest(s), id)
    {
    }
  }

  lemma LeaksAppend(doomed: Option<nat>, active: map<Id, Request>, overtaken: set<Id>, held: map<Id, Request>,
                    p: seq<Message>, owner: map<Id, nat>, calls: seq<Call>, newest: int, owner': map<Id, nat>,
                    y: Call)
    requires NoLeaks(doomed, active, overtaken, held, p, owner, calls, newest)
    requires owner' == owner || (y.id !in owner && owner' == owner[y.id := |calls|])
    ensures NoLeaks(doomed, active, overtaken, held, p, owner', calls + [y], newest)
  {
    var calls' := calls + [y];
    forall id | doomed.None?
      ensures NoLeak(active, overtaken, held, p, owner', calls', newest, id)
    {
      assert NoLeak(active, overtaken, held, p, owner, calls, newest, id);
      if RemovalPending(calls, newest, id) {
        var k :| RemovalUnsent(calls, newest, k, id);
        assert RemovalUnsent(calls', newest, k, id);
      }
    }
  }

  lemma CleanupsAppend(link: Link, owner: map<Id, nat>, owner': map<Id, nat>, calls: seq<Call>, y: Call)
    requires Cleanups(link, owner, calls)
    requires owner' == owner || (y.id !in owner && owner' == owner[y.id := |calls|])
    ensures Cleanups(link, owner', calls + [y])
  {
  }

  lemma LiveAppend(s: State, owner': map<Id, nat>, names': Names, y: Call)
    requires LiveOk(s) && Pending(s.reg.pending, s.calls, Newest(s)) && Owners(s.owner, s.calls, Newest(s))
    requires !InProgress(y) && y.response.None? && y.sendResult.None? && y.phase != Finished(Accepted)
    requires owner' == s.owner || (y.id !in s.owner && owner' == s.owner[y.id := |s.calls|])
    requires names'.removed == s.names.removed && names'.overtaken == s.names.overtaken
    requires forall id :: id in s.names.requests ==>
               id in names'.requests && names'.requests[id] == s.names.requests[id]
    ensures LiveOk(s.(owner := owner', names := names', calls := s.calls + [y]))
  {
    CallSideAppend(s, y);
    CleanupsAppend(s.link, s.owner, owner', s.calls, y);
    ServerSideAppend(s.link, Pipe(s.link), s.owner, owner', s.calls, Newest(s), s.names, names', s.reg.active, y);
    LeaksAppend(s.doomed, s.reg.active, s.names.overtaken, s.link.held, Pipe(s.link), s.owner, s.calls, Newest(s),
                owner', y);
  }

  lemma BeginSubscribeLive(s: State, id: Id, request: Request)
    requires Base(s) && LiveOk(s) && CanBeginSubscribe(s, id)
    ensures LiveOk(BeginSubscribe(s, id, request))
  {
    var s' := BeginSubscribe(s, id, request);
    FreshCalls(s.calls, s.names, s.reg.active, id, request, s.reg.attempt.value);
    assert id !in s.owner;
    LiveAppend(s, s'.owner, s'.names, NewCall(Fresh, id, request, s.reg.attempt.value));
  }

  lemma RestoreNextLive(s: State)
    requires Base(s) && LiveOk(s) && CanRestoreNext(s)
    ensures LiveOk(RestoreNext(s))
  {
    var s' := RestoreNext(s);
    LiveAppend(s, s'.owner, s.names, NewCall(Restore, s.loop.todo[0].0, s.loop.todo[0].1, Newest(s)));
  }

  // ---------- admission ----------

  lemma AdmittedLive(s: State, c: nat)
    requires Base(s) && LiveOk(s) && CanAdmit(s, c) && Registering(s.calls[c])
    requires AdmissionOf(s.reg, s.calls[c].attempt, Dead(s, s.calls[c].attempt), s.calls[c].id,
                         s.calls[c].kind == Restore).Admitted?
    ensures LiveOk(AdmitCall(s, c))
  {
    var y := s.calls[c].(phase := Enqueuing);
    var s' := AdmitCall(s, c);
    assert s.owner[y.id] == c;
    AdmittedCallSide(s, c);
    AdmittedServerSide(s.link, Pipe(s.link), s.owner, s.calls, Newest(s), s.names, s.reg.active, c);
    LeaksProgress(s.doomed, s.reg.active, s.names.overtaken, s.link.held, Pipe(s.link), s.owner, s.calls, Newest(s),
                  c, y);
  }

  lemma AdmittedCallSide(s: State, c: nat)
    requires CallSide(s) && Pending(s.reg.pending, s.calls, Newest(s)) && Owners(s.owner, s.calls, Newest(s))
    requires c < |s.calls| && s.calls[c].phase.Admitting? && Registering(s.calls[c]) && s.calls[c].attempt == Newest(s)
    ensures CallSide(s.(reg := s.reg.(pending := s.reg.pending[s.calls[c].id := c]),
                        calls := s.calls[c := s.calls[c].(phase := Enqueuing)]))
  {
    var y := s.calls[c].(phase := Enqueuing);
    forall k | 0 <= k < |Queue(s.link)|
      ensures QueueEntry(Queue(s.link)[k], s.calls[c := y], Newest(s))
    {
      assert QueueEntry(Queue(s.link)[k], s.calls, Newest(s));
    }
    forall id | id in s.reg.pending
      ensures PendingEntry(s.reg.pending, s.calls, Newest(s), id)
    {
    }
  }

  lemma AdmittedServerSide(link: Link, p: seq<Message>, owner: map<Id, nat>, calls: seq<Call>, newest: int,
                           names: Names, active: map<Id, Request>, c: nat)
    requires ServerSide(link, p, owner, calls, newest, names, active) && c < |calls| && calls[c].phase.Admitting?
    ensures ServerSide(link, p, owner, calls[c := calls[c].(phase := Enqueuing)], newest, names, active)
  {
    ServerSideProgress(link, p, owner, calls, newest, names, active, c, calls[c].(phase := Enqueuing));
  }

  /** A call moves on without answering, forgetting or newly accepting. */
  predicate Progresses(x: Call, y: Call) {
    && SameIdentity(x, y) && x.response == y.response
    && (x.sent ==> y.sent) && (x.abandoned ==> y.abandoned)
    && (y.phase == Finished(Accepted) ==> x.phase == Finished(Accepted))
  }

  lemma ProgressGrows(owner: map<Id, nat>, calls: seq<Call>, removed: set<Id>, c: nat, y: Call)
    requires c < |calls| && Progresses(calls[c], y)
    ensures Grows(owner, calls, removed, owner, calls[c := y], removed)
    ensures forall id :: AcceptedHere(owner, calls[c := y], id) ==> AcceptedHere(owner, calls, id)
  {
  }

  lemma ServerSideProgress(link: Link, p: seq<Message>, owner: map<Id, nat>, calls: seq<Call>, newest: int,
                           names: Names, active: map<Id, Request>, c: nat, y: Call)
    requires ServerSide(link, p, owner, calls, newest, names, active) && c < |calls| && Progresses(calls[c], y)
    ensures ServerSide(link, p, owner, calls[c := y], newest, names, active)
  {
    var calls' := calls[c := y];
    ProgressGrows(owner, calls, names.removed, c, y);
    SubscribesGrow(p, owner, calls, names.requests, names.removed, owner, calls', names.removed);
    ServerGrows(link.held, p, owner, calls, names.requests, names.removed, owner, calls', names.removed);
    ResponsesGrow(link.responses, link.held, p, owner, calls, names.removed, owner, calls', names.removed);
    UnsubscribesGrow(link.held, p, owner, calls, names.removed, owner, calls', names.removed);
    AnswersUpdate(link.held, p, owner, calls, newest, names.removed, c, y);
  }
}
