/** Every step of the stream protocol keeps its invariant: first the registry
    part, which holds in every state, then the part about the live attempt. */
module StreamSteps {
  import opened Options
  import opened StreamRegistry
  import opened StreamProtocol
  import opened StreamInvariant

  // ---------- changing one call ----------

  predicate SameIdentity(x: Call, y: Call) {
    x.kind == y.kind && x.id == y.id && x.request == y.request && x.attempt == y.attempt
  }

  /** A call that changes without leaving its place in the registry. */
  predicate Advances(x: Call, y: Call) {
    && SameIdentity(x, y)
    && (y.phase.Admitting? ==> x.phase.Admitting?)
    && (x.phase == Finished(Accepted) ==> y.phase == Finished(Accepted))
  }

  lemma OwnersUpdate(owner: map<Id, nat>, calls: seq<Call>, newest: int, c: nat, y: Call)
    requires Owners(owner, calls, newest) && c < |calls| && SameIdentity(calls[c], y)
    ensures Owners(owner, calls[c := y], newest)
  {
  }

  lemma PendingUpdate(pending: map<Id, nat>, calls: seq<Call>, newest: int, c: nat, y: Call)
    requires Pending(pending, calls, newest) && c < |calls| && Advances(calls[c], y)
    ensures Pending(pending, calls[c := y], newest)
  {
    forall id | id in pending
      ensures PendingEntry(pending, calls[c := y], newest, id)
    {
      assert PendingEntry(pending, calls, newest, id);
    }
  }

  lemma CapacityUpdate(active: map<Id, Request>, pending: map<Id, nat>, calls: seq<Call>, c: nat, y: Call)
    requires Capacity(active, pending, calls) && c < |calls| && SameIdentity(calls[c], y)
    ensures Capacity(active, pending, calls[c := y])
  {
    assert FreshPending(pending, calls[c := y]) == FreshPending(pending, calls);
  }

  lemma RestorationUpdate(loop: Loop, owner: map<Id, nat>, calls: seq<Call>, newest: int, names: Names,
                          reg: Registry, c: nat, y: Call)
    requires Restoration(loop, owner, calls, newest, names, reg) && c < |calls| && Advances(calls[c], y)
    ensures Restoration(loop, owner, calls[c := y], newest, names, reg)
  {
    forall id | AcceptedHere(owner, calls, id)
      ensures AcceptedHere(owner, calls[c := y], id)
    {
    }
  }

  lemma CallsUpdate(calls: seq<Call>, names: Names, active: map<Id, Request>, c: nat, y: Call)
    requires Calls(calls, names, active) && c < |calls| && CallOk(y, c, names, active)
    ensures Calls(calls[c := y], names, active)
  {
  }

  lemma BaseSetCall(s: State, c: nat, y: Call)
    requires Base(s) && c < |s.calls| && Advances(s.calls[c], y)
    requires CallOk(y, c, s.names, s.reg.active)
    ensures Base(SetCall(s, c, y))
  {
    OwnersUpdate(s.owner, s.calls, Newest(s), c, y);
    PendingUpdate(s.reg.pending, s.calls, Newest(s), c, y);
    CapacityUpdate(s.reg.active, s.reg.pending, s.calls, c, y);
    RestorationUpdate(s.loop, s.owner, s.calls, Newest(s), s.names, s.reg, c, y);
    CallsUpdate(s.calls, s.names, s.reg.active, c, y);
  }

  lemma BaseKill(s: State, a: nat)
    requires Base(s)
    ensures Base(Kill(s, a))
  {
  }

  lemma BaseKillCall(s: State, c: nat, y: Call)
    requires Base(s) && c < |s.calls| && Advances(s.calls[c], y) && CallOk(y, c, s.names, s.reg.active)
    ensures Base(SetCall(Kill(s, s.calls[c].attempt), c, y))
  {
    BaseKill(s, s.calls[c].attempt);
    BaseSetCall(Kill(s, s.calls[c].attempt), c, y);
  }

  lemma PendingDrop(active: map<Id, Request>, pending: map<Id, nat>, calls: seq<Call>, newest: int, ids: set<Id>)
    requires Pending(pending, calls, newest) && Capacity(active, pending, calls)
    ensures Pending(pending - ids, calls, newest) && Capacity(active, pending - ids, calls)
  {
    var p := pending - ids;
    forall id | id in p
      ensures PendingEntry(p, calls, newest, id)
    {
      assert PendingEntry(pending, calls, newest, id);
    }
    SubsetSize(p.Keys, pending.Keys);
    SubsetSize(FreshPending(p, calls), FreshPending(pending, calls));
  }

  lemma BaseDropPending(s: State, ids: set<Id>)
    requires Base(s)
    ensures Base(s.(reg := s.reg.(pending := s.reg.pending - ids)))
  {
    PendingDrop(s.reg.active, s.reg.pending, s.calls, Newest(s), ids);
  }

  lemma {:induction false} SubsetSize(x: set<Id>, y: set<Id>)
    requires x <= y
    ensures |x| <= |y|
  {
    if x != {} {
      var e :| e in x;
      SubsetSize(x - {e}, y - {e});
    }
  }

  // ---------- adding a call ----------

  lemma OwnersAppend(owner: map<Id, nat>, calls: seq<Call>, newest: int, y: Call)
    requires Owners(owner, calls, newest)
    ensures !Registering(y) ==> Owners(owner, calls + [y], newest)
    ensures Registering(y) && y.attempt == newest && y.id !in owner ==>
              Owners(owner[y.id := |calls|], calls + [y], newest)
  {
  }

  lemma PendingAppend(active: map<Id, Request>, pending: map<Id, nat>, calls: seq<Call>, newest: int, y: Call)
    requires Pending(pending, calls, newest) && Capacity(active, pending, calls)
    ensures Pending(pending, calls + [y], newest) && Capacity(active, pending, calls + [y])
  {
    forall id | id in pending
      ensures PendingEntry(pending, calls + [y], newest, id)
    {
      assert PendingEntry(pending, calls, newest, id);
    }
    assert forall id :: id in pending ==> PendingEntry(pending, calls, newest, id);
    assert FreshPending(pending, calls + [y]) == FreshPending(pending, calls);
  }

  lemma CallsAppend(calls: seq<Call>, names: Names, active: map<Id, Request>, y: Call)
    requires Calls(calls, names, active) && CallOk(y, |calls|, names, active)
    ensures Calls(calls + [y], names, active)
  {
  }

  lemma AcceptedAppend(owner: map<Id, nat>, calls: seq<Call>, y: Call, id: Id)
    requires AcceptedHere(owner, calls, id)
    ensures AcceptedHere(owner, calls + [y], id)
    ensures y.id != id ==> AcceptedHere(owner[y.id := |calls|], calls + [y], id)
  {
  }

  function Named(names: Names, id: Id, request: Request, c: nat): (names': Names) {
    names.(issued := names.issued + {id}, requests := names.requests[id := request], origin := names.origin[id := c])
  }

  /** A fresh identifier disturbs no older call. */
  lemma FreshCalls(calls: seq<Call>, names: Names, active: map<Id, Request>, id: Id, request: Request, attempt: nat)
    requires Calls(calls, names, active) && NamesOk(names, active) && id !in names.issued
    ensures Calls(calls + [NewCall(Fresh, id, request, attempt)], Named(names, id, request, |calls|), active)
    ensures forall c :: 0 <= c < |calls| ==> calls[c].id != id
  {
    var names' := Named(names, id, request, |calls|);
    var calls' := calls + [NewCall(Fresh, id, request, attempt)];
    forall c | 0 <= c < |calls'|
      ensures CallOk(calls'[c], c, names', active)
      ensures c < |calls| ==> calls[c].id != id
    {
      if c < |calls| {
        assert CallOk(calls[c], c, names, active);
      }
    }
  }

  lemma BeginSubscribeBase(s: State, id: Id, request: Request)
    requires Base(s) && CanBeginSubscribe(s, id)
    ensures Base(BeginSubscribe(s, id, request))
  {
    var s' := BeginSubscribe(s, id, request);
    var y := NewCall(Fresh, id, request, s.reg.attempt.value);
    FreshCalls(s.calls, s.names, s.reg.active, id, request, s.reg.attempt.value);
    assert id !in s.owner;
    OwnersAppend(s.owner, s.calls, Newest(s), y);
    PendingAppend(s.reg.active, s.reg.pending, s.calls, Newest(s), y);
    forall x | x in s.reg.active
      ensures AcceptedHere(s'.owner, s'.calls, x)
    {
      AcceptedAppend(s.owner, s.calls, y, x);
    }
  }

  lemma RestoreNextBase(s: State)
    requires Base(s) && CanRestoreNext(s)
    ensures Base(RestoreNext(s))
  {
    var s' := RestoreNext(s);
    var (id, request) := s.loop.todo[0];
    var y := NewCall(Restore, id, request, Newest(s));
    OwnersAppend(s.owner, s.calls, Newest(s), y);
    PendingAppend(s.reg.active, s.reg.pending, s.calls, Newest(s), y);
    CallsAppend(s.calls, s.names, s.reg.active, y);
    assert TodoOk(s'.loop.todo, s'.owner, s.names);
    forall x | x in s.reg.active
      ensures AcceptedHere(s'.owner, s'.calls, x) || x == id || InTodo(s'.loop.todo, x)
    {
      if AcceptedHere(s.owner, s.calls, x) {
        AcceptedAppend(s.owner, s.calls, y, x);
      } else {
        var i :| 0 <= i < |s.loop.todo| && s.loop.todo[i].0 == x;
        if i > 0 {
          assert s'.loop.todo[i - 1].0 == x;
        }
      }
    }
  }

  // ---------- the registry part ----------

  lemma AdmitCallBase(s: State, c: nat)
    requires Base(s) && CanAdmit(s, c)
    ensures Base(AdmitCall(s, c))
  {
    var call := s.calls[c];
    assert CallOk(call, c, s.names, s.reg.active);
    match AdmissionOf(s.reg, call.attempt, Dead(s, call.attempt), call.id, call.kind == Restore)
    case Admitted =>
      AdmittedBase(s, c);
    case AlreadyWithdrawn =>
      BaseSetCall(s, c, call.(phase := Finished(Void)));
    case _ =>
      BaseSetCall(s, c, call.(phase := Finished(Failed)));
  }

  lemma AdmitPending(pending: map<Id, nat>, calls: seq<Call>, newest: int, c: nat)
    requires Pending(pending, calls, newest) && |pending| < REGISTRATION_LIMIT
    requires c < |calls| && Registering(calls[c]) && calls[c].attempt == newest && !calls[c].phase.Admitting?
    ensures Pending(pending[calls[c].id := c], calls, newest)
  {
    var p := pending[calls[c].id := c];
    forall id | id in p
      ensures PendingEntry(p, calls, newest, id)
    {
      if id != calls[c].id {
        assert PendingEntry(pending, calls, newest, id);
      }
    }
    assert p.Keys == pending.Keys + {calls[c].id};
  }

  lemma AdmitCapacity(active: map<Id, Request>, pending: map<Id, nat>, calls: seq<Call>, c: nat)
    requires Capacity(active, pending, calls) && c < |calls|
    requires calls[c].kind == Fresh ==> |active| + |pending| < ACTIVE_LIMIT
    ensures Capacity(active, pending[calls[c].id := c], calls)
  {
    var before := FreshPending(pending, calls);
    var after := FreshPending(pending[calls[c].id := c], calls);
    if calls[c].kind == Fresh {
      SubsetSize(after, before + {calls[c].id});
      SubsetSize(before, pending.Keys);
    } else {
      SubsetSize(after, before);
    }
  }

  lemma BaseAddPending(s: State, c: nat)
    requires Base(s) && c < |s.calls| && Registering(s.calls[c]) && s.calls[c].attempt == Newest(s) &&
             !s.calls[c].phase.Admitting?
    requires s.reg.attempt.Some? && |s.reg.pending| < REGISTRATION_LIMIT
    requires s.calls[c].kind == Fresh ==> |s.reg.active| + |s.reg.pending| < ACTIVE_LIMIT
    ensures Base(s.(reg := s.reg.(pending := s.reg.pending[s.calls[c].id := c])))
  {
    AdmitPending(s.reg.pending, s.calls, Newest(s), c);
    AdmitCapacity(s.reg.active, s.reg.pending, s.calls, c);
  }

  lemma AdmittedBase(s: State, c: nat)
    requires Base(s) && CanAdmit(s, c) && CallOk(s.calls[c], c, s.names, s.reg.active)
    requires AdmissionOf(s.reg, s.calls[c].attempt, Dead(s, s.calls[c].attempt), s.calls[c].id,
                         s.calls[c].kind == Restore).Admitted?
    ensures Base(AdmitCall(s, c))
  {
    var y := s.calls[c].(phase := Enqueuing);
    var s1 := SetCall(s, c, y);
    assert s.reg.attempt == Some(s.calls[c].attempt) && s.calls[c].attempt == Newest(s);
    assert Base(s1) by { BaseSetCall(s, c, y); }
    assert AdmitCall(s, c) == s1.(reg := s1.reg.(pending := s1.reg.pending[y.id := c]));
    BaseAddPending(s1, c);
  }

  lemma EnqueueSendBase(s: State, c: nat)
    requires Base(s) && CanEnqueueSend(s, c)
    ensures Base(EnqueueSend(s, c))
  {
    assert CallOk(s.calls[c], c, s.names, s.reg.active);
    NamesSentBase(s, c);
    SentBase(s.(names := NamesSent(s, c)), c);
  }

  lemma SentBase(s: State, c: nat)
    requires Base(s) && c < |s.calls| && s.calls[c].phase.Enqueuing? && CallOk(s.calls[c], c, s.names, s.reg.active)
    ensures Base(SetCall(s, c, s.calls[c].(phase := AwaitingSend, sent := true)))
  {
    BaseSetCall(s, c, s.calls[c].(phase := AwaitingSend, sent := true));
  }

  lemma NamesSentBase(s: State, c: nat)
    requires Base(s) && c < |s.calls|
    ensures Base(s.(names := NamesSent(s, c))) && CallOk(s.calls[c], c, NamesSent(s, c), s.reg.active)
  {
    var names' := NamesSent(s, c);
    assert CallOk(s.calls[c], c, s.names, s.reg.active);
    CallsRemoved(s.calls, s.names, s.reg.active, names'.removed, names'.overtaken);
  }

  lemma FailCallBase(s: State, c: nat)
    requires Base(s) && c < |s.calls| && !s.calls[c].phase.Finished? && !s.calls[c].phase.Admitting?
    ensures Base(FailCall(s, c))
  {
    var call := s.calls[c];
    assert CallOk(call, c, s.names, s.reg.active);
    if call.kind == Remove {
      BaseKillCall(s, c, call.(phase := Finished(Failed)));
    } else {
      BaseSetCall(s, c, call.(phase := Abandoning(Failed)));
    }
  }

  lemma FinishSendBase(s: State, c: nat)
    requires Base(s) && CanFinishSend(s, c)
    ensures Base(FinishSend(s, c))
  {
    var call := s.calls[c];
    assert CallOk(call, c, s.names, s.reg.active);
    if call.sendResult.value {
      BaseSetCall(s, c, call.(phase := if call.kind == Remove then Finished(Void) else AwaitingResponse));
    } else {
      FailCallBase(s, c);
    }
  }

  lemma TakeWithdrawalBase(s: State, c: nat)
    requires Base(s) && CanTakeWithdrawal(s, c)
    ensures Base(TakeWithdrawal(s, c))
  {
    assert CallOk(s.calls[c], c, s.names, s.reg.active);
    BaseSetCall(s, c, s.calls[c].(phase := Abandoning(Void)));
  }

  lemma TakeResponseBase(s: State, c: nat)
    requires Base(s) && CanTakeResponse(s, c)
    ensures Base(TakeResponse(s, c))
  {
    var call := s.calls[c];
    assert CallOk(call, c, s.names, s.reg.active);
    match Settlement(s, c)
    case Acknowledged =>
      assert TakeResponse(s, c) == Acknowledge(s, c);
      AcknowledgedBase(s, c);
    case Refused =>
      BaseDropPending(s, {call.id});
      BaseSetCall(s.(reg := s.reg.(pending := s.reg.pending - {call.id})), c, call.(phase := Finished(Failed)));
    case Gone =>
      BaseSetCall(s, c, call.(phase := Abandoning(Void)));
    case Stale =>
      BaseSetCall(s, c, call.(phase := Abandoning(Failed)));
  }

  lemma AcknowledgedCalls(calls: seq<Call>, names: Names, active: map<Id, Request>, c: nat)
    requires Calls(calls, names, active) && c < |calls| && calls[c].phase.AwaitingResponse?
    requires calls[c].kind == Fresh || (calls[c].kind == Restore && calls[c].id in active)
    ensures Calls(calls[c := calls[c].(phase := Finished(Accepted))], names.(known := names.known + {calls[c].id}),
                  active[calls[c].id := calls[c].request])
  {
    var id := calls[c].id;
    var calls' := calls[c := calls[c].(phase := Finished(Accepted))];
    var names' := names.(known := names.known + {id});
    var active' := active[id := calls[c].request];
    assert CallOk(calls[c], c, names, active);
    forall k | 0 <= k < |calls'|
      ensures CallOk(calls'[k], k, names', active')
    {
      assert CallOk(calls[k], k, names, active);
    }
  }

  function Acknowledge(s: State, c: nat): (s': State)
    requires c < |s.calls|
  {
    var call := s.calls[c];
    s.(reg := s.reg.(active := s.reg.active[call.id := call.request], pending := s.reg.pending - {call.id}),
       names := s.names.(known := s.names.known + {call.id}),
       calls := s.calls[c := call.(phase := Finished(Accepted))])
  }

  lemma AcknowledgedCore(s: State, c: nat)
    requires Core(s) && c < |s.calls| && CallOk(s.calls[c], c, s.names, s.reg.active)
    requires s.calls[c].phase.AwaitingResponse?
    requires s.calls[c].kind == Fresh || (s.calls[c].kind == Restore && s.calls[c].id in s.reg.active)
    ensures Core(Acknowledge(s, c))
  {
  }

  lemma AcknowledgedBase(s: State, c: nat)
    requires Base(s) && c < |s.calls| && s.calls[c].phase.AwaitingResponse? && s.calls[c].attempt == Newest(s)
    requires s.calls[c].id in s.reg.pending && s.reg.pending[s.calls[c].id] == c
    requires s.calls[c].kind == Fresh || (s.calls[c].kind == Restore && s.calls[c].id in s.reg.active)
    requires CallOk(s.calls[c], c, s.names, s.reg.active)
    ensures Base(Acknowledge(s, c))
  {
    AcknowledgedCore(s, c);
    AcknowledgedLedger(s, c);
  }

  lemma AcknowledgedLedger(s: State, c: nat)
    requires Ledger(s) && c < |s.calls| && s.calls[c].phase.AwaitingResponse? && s.calls[c].attempt == Newest(s)
    requires s.calls[c].id in s.reg.pending && s.reg.pending[s.calls[c].id] == c
    requires s.calls[c].kind == Fresh || (s.calls[c].kind == Restore && s.calls[c].id in s.reg.active)
    ensures Ledger(Acknowledge(s, c))
  {
    AcknowledgedCalls(s.calls, s.names, s.reg.active, c);
    OwnersUpdate(s.owner, s.calls, Newest(s), c, s.calls[c].(phase := Finished(Accepted)));
    AcknowledgedRegistry(s.reg, s.calls, Newest(s), c);
    AcknowledgedRestoration(s.loop, s.owner, s.calls, Newest(s), s.names, s.reg, c);
  }

  lemma AcknowledgedRegistry(reg: Registry, calls: seq<Call>, newest: int, c: nat)
    requires Pending(reg.pending, calls, newest) && Capacity(reg.active, reg.pending, calls) && c < |calls|
    requires calls[c].phase.AwaitingResponse?
    requires calls[c].id in reg.pending && reg.pending[calls[c].id] == c
    requires calls[c].kind == Fresh || calls[c].id in reg.active
    ensures Pending(reg.pending - {calls[c].id}, calls[c := calls[c].(phase := Finished(Accepted))], newest)
    ensures Capacity(reg.active[calls[c].id := calls[c].request], reg.pending - {calls[c].id},
                     calls[c := calls[c].(phase := Finished(Accepted))])
  {
    var y := calls[c].(phase := Finished(Accepted));
    PendingDrop(reg.active, reg.pending, calls, newest, {calls[c].id});
    PendingUpdate(reg.pending - {calls[c].id}, calls, newest, c, y);
    AcknowledgedCapacity(reg.active, reg.pending, calls, c);
    CapacityUpdate(reg.active[calls[c].id := calls[c].request], reg.pending - {calls[c].id}, calls, c, y);
  }

  lemma AcknowledgedRestoration(loop: Loop, owner: map<Id, nat>, calls: seq<Call>, newest: int, names: Names,
                                reg: Registry, c: nat)
    requires Restoration(loop, owner, calls, newest, names, reg) && Owners(owner, calls, newest)
    requires c < |calls| && calls[c].phase.AwaitingResponse? && Registering(calls[c]) && calls[c].attempt == newest
    ensures Restoration(loop, owner, calls[c := calls[c].(phase := Finished(Accepted))], newest,
                        names.(known := names.known + {calls[c].id}),
                        reg.(active := reg.active[calls[c].id := calls[c].request],
                             pending := reg.pending - {calls[c].id}))
  {
    var y := calls[c].(phase := Finished(Accepted));
    RestorationUpdate(loop, owner, calls, newest, names, reg, c, y);
    assert AcceptedHere(owner, calls[c := y], calls[c].id);
  }

  /** A fresh charge turns into an active subscription; a restored one already was. */
  lemma AcknowledgedCapacity(active: map<Id, Request>, pending: map<Id, nat>, calls: seq<Call>, c: nat)
    requires Capacity(active, pending, calls) && c < |calls|
    requires calls[c].id in pending && pending[calls[c].id] == c
    requires calls[c].kind == Fresh || calls[c].id in active
    ensures Capacity(active[calls[c].id := calls[c].request], pending - {calls[c].id}, calls)
  {
    var id := calls[c].id;
    var before := FreshPending(pending, calls);
    assert FreshPending(pending - {id}, calls) == before - {id};
    assert active[id := calls[c].request].Keys == active.Keys + {id};
    if calls[c].kind == Fresh {
      assert id in before;
    } else {
      assert active.Keys + {id} == active.Keys;
    }
  }

  lemma AbandonCallBase(s: State, c: nat)
    requires Base(s) && CanAbandon(s, c)
    ensures Base(AbandonCall(s, c))
  {
    var call := s.calls[c];
    assert CallOk(call, c, s.names, s.reg.active);
    BaseDropPending(s, {call.id});
    var s1 := s.(reg := Abandon(s.reg, call.attempt, Dead(s, call.attempt), call.id, c));
    BaseSetCall(s1, c, AbandonCall(s, c).calls[c]);
  }

  lemma EnqueueCleanupBase(s: State, c: nat)
    requires Base(s) && CanEnqueueCleanup(s, c)
    ensures Base(EnqueueCleanup(s, c))
  {
    var call := s.calls[c];
    assert CallOk(call, c, s.names, s.reg.active);
    if call.attempt == Newest(s) && QueueFull(s) {
      BaseKillCall(s, c, call.(phase := Finished(call.phase.result)));
    } else if call.attempt == Newest(s) {
      BaseSetCall(s, c, call.(phase := Finished(call.phase.result), abandoned := true));
    } else {
      BaseSetCall(s, c, call.(phase := Finished(call.phase.result)));
    }
  }

  lemma ExpireBase(s: State, c: nat)
    requires Base(s) && c < |s.calls|
    ensures Base(Expire(s, c))
  {
    assert CallOk(s.calls[c], c, s.names, s.reg.active);
    BaseSetCall(s, c, s.calls[c].(expired := true));
  }

  /** First half of Unsubscribe: the identifier leaves the registry for good. */
  function Forgotten(s: State, id: Id): (s': State) {
    s.(reg := Withdraw(s.reg, id),
       names := NamesAfter(s.names, id))
  }

  lemma ForgottenBase(s: State, id: Id)
    requires Base(s) && CanBeginUnsubscribe(s)
    ensures Base(Forgotten(s, id))
  {
    var s' := Forgotten(s, id);
    forall c | 0 <= c < |s.calls|
      ensures CallOk(s.calls[c], c, s'.names, s'.reg.active)
    {
      assert CallOk(s.calls[c], c, s.names, s.reg.active);
    }
    assert s'.reg.active.Keys == s.reg.active.Keys - {id};
    SubsetSize(s'.reg.active.Keys, s.reg.active.Keys);
  }

  lemma AppendRemovalBase(s: State, id: Id)
    requires Base(s) && id in s.names.issued && s.reg.attempt.Some?
    ensures Base(s.(calls := s.calls + [NewCall(Remove, id, Request("", "", []), s.reg.attempt.value)]))
  {
    var y := NewCall(Remove, id, Request("", "", []), s.reg.attempt.value);
    OwnersAppend(s.owner, s.calls, Newest(s), y);
    PendingAppend(s.reg.active, s.reg.pending, s.calls, Newest(s), y);
    CallsAppend(s.calls, s.names, s.reg.active, y);
    forall x | AcceptedHere(s.owner, s.calls, x)
      ensures AcceptedHere(s.owner, s.calls + [y], x)
    {
      AcceptedAppend(s.owner, s.calls, y, x);
    }
  }

  function Marked(s: State, id: Id): (s': State) {
    if RestorePending(s, id)
    then SetCall(s, s.reg.pending[id], s.calls[s.reg.pending[id]].(withdrawn := true)) else s
  }

  lemma MarkedBase(s: State, id: Id)
    requires Base(s) && id !in s.reg.active
    ensures Base(Marked(s, id))
  {
    if RestorePending(s, id) {
      assert PendingEntry(s.reg.pending, s.calls, Newest(s), id);
      assert CallOk(s.calls[s.reg.pending[id]], s.reg.pending[id], s.names, s.reg.active);
      BaseSetCall(s, s.reg.pending[id], s.calls[s.reg.pending[id]].(withdrawn := true));
    }
  }

  lemma BeginUnsubscribeBase(s: State, id: Id)
    requires Base(s) && CanBeginUnsubscribe(s)
    ensures Base(BeginUnsubscribe(s, id))
  {
    var s1 := Forgotten(s, id);
    var s2 := Marked(s1, id);
    ForgottenBase(s, id);
    MarkedBase(s1, id);
    if s.reg.attempt.Some? && !Dead(s, s.reg.attempt.value) {
      AppendRemovalBase(s2, id);
      assert BeginUnsubscribe(s, id) ==
               s2.(calls := s2.calls + [NewCall(Remove, id, Request("", "", []), s.reg.attempt.value)]);
    } else {
      assert BeginUnsubscribe(s, id) == s2;
    }
  }

  lemma ReportBase(s: State, op: SendOp, ok: bool)
    requires Base(s) && CallerExists(s, op)
    ensures Base(s.(calls := Report(s.calls, op.caller, ok)))
  {
    if op.caller.Some? {
      var c := op.caller.value;
      assert CallOk(s.calls[c], c, s.names, s.reg.active);
      BaseSetCall(s, c, s.calls[c].(sendResult := Some(ok)));
    }
  }

  lemma ReadResponseBase(s: State)
    requires Base(s) && CanReadResponse(s)
    ensures Base(ReadResponse(s))
  {
    var r := s.link.responses[0];
    if s.reg.attempt == Some(Newest(s)) && EntryOfNewest(s, r.id) && s.calls[s.reg.pending[r.id]].response.None? {
      var c := s.reg.pending[r.id];
      assert PendingEntry(s.reg.pending, s.calls, Newest(s), r.id);
      assert CallOk(s.calls[c], c, s.names, s.reg.active);
      BaseSetCall(s, c, s.calls[c].(response := Some(r.success)));
    }
  }

  lemma TakeSnapshotBase(s: State, order: seq<Id>)
    requires Base(s) && CanTakeSnapshot(s, order)
    ensures Base(TakeSnapshot(s, order))
  {
    var s' := TakeSnapshot(s, order);
    forall id | id in s.reg.active
      ensures InTodo(s'.loop.todo, id)
    {
      var i :| 0 <= i < |order| && order[i] == id;
      assert s'.loop.todo[i].0 == id;
    }
  }

  lemma RestoreDoneBase(s: State)
    requires Base(s) && CanRestoreDone(s)
    ensures Base(RestoreDone(s))
  {
    var call := s.calls[s.loop.call];
    assert CallOk(call, s.loop.call, s.names, s.reg.active);
    if call.phase.result == Failed {
      BaseKill(s, Newest(s));
    } else {
      assert s.owner[call.id] == s.loop.call;
    }
  }

  lemma DropPendingBase(s: State)
    requires Base(s) && CanDropPending(s)
    ensures Base(DropPending(s))
  {
    var ids := set id | id in s.reg.pending && EntryOfNewest(s, id);
    forall id | id in s.reg.pending
      ensures id in ids
    {
      assert PendingEntry(s.reg.pending, s.calls, Newest(s), id);
    }
    BaseDropPending(s, ids);
    assert s.reg.pending - ids == map[];
  }

  lemma AttachNextBase(s: State)
    requires Base(s) && CanAttachNext(s)
    ensures Base(AttachNext(s))
  {
    CallsRemoved(s.calls, s.names, s.reg.active, {}, {});
    assert FreshPending(map[], s.calls) == {};
  }

  /** What was unsubscribed is of no account for a call's own record. */
  lemma CallsRemoved(calls: seq<Call>, names: Names, active: map<Id, Request>, removed: set<Id>, overtaken: set<Id>)
    requires Calls(calls, names, active)
    ensures Calls(calls, names.(removed := removed, overtaken := overtaken), active)
  {
    forall c | 0 <= c < |calls|
      ensures CallOk(calls[c], c, names.(removed := removed, overtaken := overtaken), active)
    {
      assert CallOk(calls[c], c, names, active);
    }
  }
}
