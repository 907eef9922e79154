/** The steps that move messages: callers and cleanups appending to the queue,
    the writer draining it, the server consuming the wire, the reader handing
    answers back. */
module StreamLinkSteps {
  import opened Options
  import opened StreamRegistry
  import opened StreamProtocol
  import opened StreamInvariant
  import opened StreamSteps
  import opened StreamLiveSteps

  // ---------- how the pipeline changes ----------

  lemma PipeAppend(l: Link, op: SendOp)
    ensures Queue(Append(l, op)) == Queue(l) + [op]
    ensures Pipe(Append(l, op)) == Pipe(l) + [op.message]
  {
    assert Messages(Queue(l) + [op]) == Messages(Queue(l)) + [op.message];
  }

  lemma CleanupAppend(l: Link, op: SendOp, id: Id)
    ensures CleanupQueued(Append(l, op), id) <==> CleanupQueued(l, id) || op == SendOp(Unsubscribe(id), None)
  {
    PipeAppend(l, op);
  }

  lemma LeaksShrink(doomed: Option<nat>, active: map<Id, Request>, overtaken: set<Id>, held: map<Id, Request>,
                    p: seq<Message>, owner: map<Id, nat>, calls: seq<Call>, newest: int, held': map<Id, Request>,
                    p': seq<Message>)
    requires NoLeaks(doomed, active, overtaken, held, p, owner, calls, newest)
    requires forall id :: Final(id in held', p', id) ==> Final(id in held, p, id)
    ensures NoLeaks(doomed, active, overtaken, held', p', owner, calls, newest)
  {
    forall id | doomed.None?
      ensures NoLeak(active, overtaken, held', p', owner, calls, newest, id)
    {
      assert NoLeak(active, overtaken, held, p, owner, calls, newest, id);
    }
  }

  /** A change that concerns one identifier only, and settles it. */
  lemma LeaksAbout(doomed: Option<nat>, active: map<Id, Request>, overtaken: set<Id>, held: map<Id, Request>,
                   p: seq<Message>, owner: map<Id, nat>, calls: seq<Call>, newest: int, active': map<Id, Request>,
                   p': seq<Message>, c: nat, y: Call)
    requires NoLeaks(doomed, active, overtaken, held, p, owner, calls, newest) && Owners(owner, calls, newest)
    requires c < |calls| && SameIdentity(calls[c], y)
    requires forall id :: id != y.id ==> (id in active' <==> id in active)
    requires forall id :: Final(id in held, p', id) ==> Final(id in held, p, id)
    requires calls[c].sent ==> y.sent
    requires y.id in active' || !Final(y.id in held, p', y.id)
    ensures NoLeaks(doomed, active', overtaken, held, p', owner, calls[c := y], newest)
  {
    var calls' := calls[c := y];
    forall id | doomed.None?
      ensures NoLeak(active', overtaken, held, p', owner, calls', newest, id)
    {
      assert NoLeak(active, overtaken, held, p, owner, calls, newest, id);
      if id != y.id && RemovalPending(calls, newest, id) {
        var k :| RemovalUnsent(calls, newest, k, id);
        assert RemovalUnsent(calls', newest, k, id);
      }
    }
  }

  // ---------- a caller queues its message ----------

  predicate Silent(link: Link, p: seq<Message>, calls: seq<Call>, newest: int, id: Id) {
    && NoSubscribe(p, id) && id !in link.held
    && (forall k :: 0 <= k < |link.responses| ==> link.responses[k].id != id)
    && (forall c ::
          0 <= c < |calls| && Registering(calls[c]) && calls[c].attempt == newest && calls[c].response.Some? ==>
            calls[c].id != id)
  }

  lemma UntouchedIsSilent(link: Link, p: seq<Message>, owner: map<Id, nat>, calls: seq<Call>, newest: int,
                          names: Names, active: map<Id, Request>, id: Id)
    requires ServerSide(link, p, owner, calls, newest, names, active) && !Touched(owner, calls, id)
    ensures Silent(link, p, calls, newest, id)
  {
    forall k | 0 <= k < |link.responses|
      ensures link.responses[k].id != id
    {
      assert Verdict(link.held, p, owner, calls, names.removed, link.responses[k].id, link.responses[k].success);
    }
    forall c | 0 <= c < |calls| && Registering(calls[c]) && calls[c].attempt == newest && calls[c].response.Some?
      ensures calls[c].id != id
    {
      assert Verdict(link.held, p, owner, calls, names.removed, calls[c].id, calls[c].response.value);
    }
  }

  lemma VerdictPush(held: map<Id, Request>, p: seq<Message>, owner: map<Id, nat>, calls: seq<Call>,
                    removed: set<Id>, id: Id, success: bool, m: Message)
    requires Verdict(held, p, owner, calls, removed, id, success) && (m.Subscribe? ==> m.id != id)
    ensures Verdict(held, p + [m], owner, calls, removed, id, success)
  {
  }

  lemma UnsubscribesPush(held: map<Id, Request>, p: seq<Message>, owner: map<Id, nat>, calls: seq<Call>,
                         removed: set<Id>, m: Message)
    requires Unsubscribes(held, p, owner, calls, removed)
    requires m.Unsubscribe? ==>
               UnsubscribeIssued(owner, calls, removed, m.id) || (m.id !in held && NoSubscribe(p, m.id))
    ensures Unsubscribes(held, p + [m], owner, calls, removed)
  {
    var q := p + [m];
    forall k | 0 <= k < |q| && q[k].Unsubscribe?
      ensures UnsubscribeIssued(owner, calls, removed, q[k].id) || Harmless(held, q, k)
    {
      if k < |p| {
        assert q[..k] == p[..k];
        assert UnsubscribeIssued(owner, calls, removed, p[k].id) || Harmless(held, p, k);
      } else {
        assert q[..k] == p;
      }
    }
  }

  lemma ServerSidePush(link: Link, p: seq<Message>, owner: map<Id, nat>, calls: seq<Call>, newest: int,
                       names: Names, active: map<Id, Request>, m: Message)
    requires ServerSide(link, p, owner, calls, newest, names, active)
    requires m.Subscribe? ==> Silent(link, p, calls, newest, m.id) && Touched(owner, calls, m.id)
                              && m.id in names.requests && names.requests[m.id] == m.request
    requires m.Unsubscribe? ==>
               UnsubscribeIssued(owner, calls, names.removed, m.id) || (m.id !in link.held && NoSubscribe(p, m.id))
    ensures ServerSide(link, p + [m], owner, calls, newest, names, active)
  {
    UnsubscribesPush(link.held, p, owner, calls, names.removed, m);
    forall k | 0 <= k < |link.responses|
      ensures Verdict(link.held, p + [m], owner, calls, names.removed, link.responses[k].id, link.responses[k].success)
    {
      VerdictPush(link.held, p, owner, calls, names.removed, link.responses[k].id, link.responses[k].success, m);
    }
    forall c | 0 <= c < |calls| && Registering(calls[c]) && calls[c].attempt == newest && calls[c].response.Some?
      ensures Verdict(link.held, p + [m], owner, calls, names.removed, calls[c].id, calls[c].response.value)
    {
      VerdictPush(link.held, p, owner, calls, names.removed, calls[c].id, calls[c].response.value, m);
    }
  }

  lemma QueuedPush(q: seq<SendOp>, calls: seq<Call>, newest: int, c: nat, y: Call)
    requires Queued(q, calls, newest) && c < |calls| && !calls[c].sent &&
             y == calls[c].(phase := AwaitingSend, sent := true)
    requires calls[c].attempt == newest && calls[c].sendResult.None?
    ensures Queued(q + [SendOp(MessageOf(calls[c]), Some(c))], calls[c := y], newest)
  {
    var q' := q + [SendOp(MessageOf(calls[c]), Some(c))];
    forall k | 0 <= k < |q'|
      ensures QueueEntry(q'[k], calls[c := y], newest)
      ensures k < |q| ==> q[k].caller != Some(c)
    {
      if k < |q| {
        assert QueueEntry(q[k], calls, newest);
      }
    }
  }

  lemma CallSidePush(s: State, c: nat)
    requires CallSide(s) && c < |s.calls| && s.calls[c].phase.Enqueuing? && !s.calls[c].sent &&
             s.calls[c].attempt == Newest(s)
    ensures CallSide(s.(calls := s.calls[c := s.calls[c].(phase := AwaitingSend, sent := true)],
                        link := Append(s.link, SendOp(MessageOf(s.calls[c]), Some(c)))))
  {
    var y := s.calls[c].(phase := AwaitingSend, sent := true);
    var op := SendOp(MessageOf(s.calls[c]), Some(c));
    PipeAppend(s.link, op);
    QueuedPush(Queue(s.link), s.calls, Newest(s), c, y);
    forall id | CleanupQueued(s.link, id)
      ensures CleanupQueued(Append(s.link, op), id)
    {
      CleanupAppend(s.link, op, id);
    }
  }

  lemma CleanupsPush(link: Link, owner: map<Id, nat>, calls: seq<Call>, op: SendOp, c: nat, y: Call)
    requires Cleanups(link, owner, calls) && c < |calls| && (calls[c].abandoned ==> y.abandoned)
    requires op.caller.None? ==> OwnedAs(owner, calls, op.message.id) && owner[op.message.id] == c && y.abandoned
    ensures Cleanups(Append(link, op), owner, calls[c := y])
  {
    forall id | CleanupQueued(Append(link, op), id)
      ensures OwnedAs(owner, calls[c := y], id) && calls[c := y][owner[id]].abandoned
    {
      CleanupAppend(link, op, id);
    }
  }

  lemma EnqueueRegistrationLive(s: State, c: nat)
    requires LiveOk(s) && Owners(s.owner, s.calls, Newest(s)) && c < |s.calls| &&
             CallOk(s.calls[c], c, s.names, s.reg.active)
    requires s.calls[c].phase.Enqueuing? && s.calls[c].attempt == Newest(s) && Registering(s.calls[c])
    ensures LiveOk(s.(calls := s.calls[c := s.calls[c].(phase := AwaitingSend, sent := true)],
                      link := Append(s.link, SendOp(MessageOf(s.calls[c]), Some(c)))))
  {
    var y := s.calls[c].(phase := AwaitingSend, sent := true);
    var op := SendOp(MessageOf(s.calls[c]), Some(c));
    var calls' := s.calls[c := y];
    var p := Pipe(s.link);
    PipeAppend(s.link, op);
    CallSidePush(s, c);
    CleanupsPush(s.link, s.owner, s.calls, op, c, y);
    assert s.owner[y.id] == c;
    UntouchedIsSilent(s.link, p, s.owner, s.calls, Newest(s), s.names, s.reg.active, y.id);
    ServerSideProgress(s.link, p, s.owner, s.calls, Newest(s), s.names, s.reg.active, c, y);
    ServerSidePush(s.link, p, s.owner, calls', Newest(s), s.names, s.reg.active, op.message);
    LeaksProgress(s.doomed, s.reg.active, s.names.overtaken, s.link.held, p, s.owner, s.calls, Newest(s), c, y);
    LeaksSubscribe(s.doomed, s.reg.active, s.names.overtaken, s.link.held, p, s.owner, calls', Newest(s), op.message);
  }

  lemma LeaksSubscribe(doomed: Option<nat>, active: map<Id, Request>, overtaken: set<Id>, held: map<Id, Request>,
                       p: seq<Message>, owner: map<Id, nat>, calls: seq<Call>, newest: int, m: Message)
    requires NoLeaks(doomed, active, overtaken, held, p, owner, calls, newest) &&
             RegistrationInFlight(owner, calls, m.id) && m.id !in overtaken
    ensures NoLeaks(doomed, active, overtaken, held, p + [m], owner, calls, newest)
  {
    forall id | doomed.None?
      ensures NoLeak(active, overtaken, held, p + [m], owner, calls, newest, id)
    {
      assert NoLeak(active, overtaken, held, p, owner, calls, newest, id);
      FinalAppend(id in held, p, m, id);
    }
  }

  lemma LeaksUnsubscribe(doomed: Option<nat>, active: map<Id, Request>, overtaken: set<Id>, held: map<Id, Request>,
                         p: seq<Message>, owner: map<Id, nat>, calls: seq<Call>, newest: int, c: nat, y: Call)
    requires NoLeaks(doomed, active, overtaken, held, p, owner, calls, newest) && Owners(owner, calls, newest)
    requires c < |calls| && SameIdentity(calls[c], y) && (calls[c].sent ==> y.sent)
    ensures NoLeaks(doomed, active, overtaken, held, p + [Unsubscribe(y.id)], owner, calls[c := y], newest)
    ensures !Final(y.id in held, p + [Unsubscribe(y.id)], y.id)
  {
    forall id
      ensures Final(id in held, p + [Unsubscribe(y.id)], id) == (id != y.id && Final(id in held, p, id))
    {
      FinalAppend(id in held, p, Unsubscribe(y.id), id);
    }
    LeaksAbout(doomed, active, overtaken, held, p, owner, calls, newest, active, p + [Unsubscribe(y.id)], c, y);
  }

  lemma EnqueueRemovalLive(s: State, c: nat)
    requires LiveOk(s) && Owners(s.owner, s.calls, Newest(s)) && c < |s.calls| &&
             CallOk(s.calls[c], c, s.names, s.reg.active)
    requires s.calls[c].phase.Enqueuing? && s.calls[c].attempt == Newest(s) && s.calls[c].kind == Remove
    ensures LiveOk(s.(calls := s.calls[c := s.calls[c].(phase := AwaitingSend, sent := true)], names := NamesSent(s, c),
                      link := Append(s.link, SendOp(MessageOf(s.calls[c]), Some(c)))))
  {
    var y := s.calls[c].(phase := AwaitingSend, sent := true);
    var op := SendOp(MessageOf(s.calls[c]), Some(c));
    var p := Pipe(s.link);
    PipeAppend(s.link, op);
    CallSidePush(s, c);
    CleanupsPush(s.link, s.owner, s.calls, op, c, y);
    RemovalServerSide(s, p, c, y);
    LeaksUnsubscribe(s.doomed, s.reg.active, s.names.overtaken, s.link.held, p, s.owner, s.calls, Newest(s), c, y);
    if Overtakes(s, c) {
      assert Touched(s.owner, s.calls[c := y], y.id);
      LeaksOvertaken(s.doomed, s.reg.active, s.names.overtaken, s.link.held, p + [op.message], s.owner,
                     s.calls[c := y], Newest(s), y.id);
    }
  }

  lemma RemovalServerSide(s: State, p: seq<Message>, c: nat, y: Call)
    requires ServerSide(s.link, p, s.owner, s.calls, Newest(s), s.names, s.reg.active) && c < |s.calls|
    requires s.calls[c].kind == Remove && s.calls[c].attempt == Newest(s) && Progresses(s.calls[c], y)
    ensures ServerSide(s.link, p + [Unsubscribe(y.id)], s.owner, s.calls[c := y], Newest(s), NamesSent(s, c),
                       s.reg.active)
  {
    var names' := NamesSent(s, c);
    if y.id !in names'.removed {
      UntouchedIsSilent(s.link, p, s.owner, s.calls, Newest(s), s.names, s.reg.active, y.id);
    }
    ServerSideProgress(s.link, p, s.owner, s.calls, Newest(s), s.names, s.reg.active, c, y);
    ServerSideNames(s.link, p, s.owner, s.calls[c := y], Newest(s), s.names, names', s.reg.active);
    ServerSidePush(s.link, p, s.owner, s.calls[c := y], Newest(s), names', s.reg.active, Unsubscribe(y.id));
  }

  /** An identifier whose fate is sealed joins the overtaken ones. */
  lemma LeaksOvertaken(doomed: Option<nat>, active: map<Id, Request>, overtaken: set<Id>, held: map<Id, Request>,
                       p: seq<Message>, owner: map<Id, nat>, calls: seq<Call>, newest: int, id: Id)
    requires NoLeaks(doomed, active, overtaken, held, p, owner, calls, newest) && Touched(owner, calls, id) &&
             !Final(id in held, p, id)
    ensures NoLeaks(doomed, active, overtaken + {id}, held, p, owner, calls, newest)
  {
    forall x | doomed.None?
      ensures NoLeak(active, overtaken + {id}, held, p, owner, calls, newest, x)
    {
      assert NoLeak(active, overtaken, held, p, owner, calls, newest, x);
    }
  }

  // ---------- a call ends ----------

  lemma QueuedWithout(q: seq<SendOp>, calls: seq<Call>, newest: int, c: nat, y: Call)
    requires Queued(q, calls, newest) && c < |calls|
    requires SameIdentity(calls[c], y) && (calls[c].sent ==> y.sent) && calls[c].sendResult == y.sendResult
    requires calls[c].kind == Remove && calls[c].attempt == newest ==> calls[c].sendResult.Some?
    ensures Queued(q, calls[c := y], newest)
  {
    forall k | 0 <= k < |q|
      ensures QueueEntry(q[k], calls[c := y], newest)
    {
      assert QueueEntry(q[k], calls, newest);
    }
  }

  lemma CleanupsUpdate(link: Link, owner: map<Id, nat>, calls: seq<Call>, c: nat, y: Call)
    requires Cleanups(link, owner, calls) && c < |calls| && (calls[c].abandoned ==> y.abandoned)
    ensures Cleanups(link, owner, calls[c := y])
  {
  }

  lemma RemovalSentCallSide(s: State, c: nat, y: Call)
    requires CallSide(s) && Pending(s.reg.pending, s.calls, Newest(s)) && c < |s.calls|
    requires s.calls[c].phase.AwaitingSend? && s.calls[c].kind == Remove && s.calls[c].sendResult == Some(true)
    requires y == s.calls[c].(phase := Finished(Void))
    ensures CallSide(SetCall(s, c, y))
  {
    QueuedWithout(Queue(s.link), s.calls, Newest(s), c, y);
    forall id | id in s.reg.pending
      ensures PendingEntry(s.reg.pending, s.calls, Newest(s), id)
    {
    }
  }

  lemma RemovalSentLive(s: State, c: nat)
    requires LiveOk(s) && Owners(s.owner, s.calls, Newest(s)) && Pending(s.reg.pending, s.calls, Newest(s))
    requires c < |s.calls| && s.calls[c].phase.AwaitingSend? && s.calls[c].kind == Remove &&
             s.calls[c].sendResult == Some(true)
    ensures LiveOk(SetCall(s, c, s.calls[c].(phase := Finished(Void))))
  {
    var y := s.calls[c].(phase := Finished(Void));
    RemovalSentCallSide(s, c, y);
    CleanupsUpdate(s.link, s.owner, s.calls, c, y);
    ServerSideProgress(s.link, Pipe(s.link), s.owner, s.calls, Newest(s), s.names, s.reg.active, c, y);
    LeaksProgress(s.doomed, s.reg.active, s.names.overtaken, s.link.held, Pipe(s.link), s.owner, s.calls, Newest(s),
                  c, y);
  }

  lemma SettledCallSide(s: State, c: nat, y: Call)
    requires CallSide(s) && Pending(s.reg.pending, s.calls, Newest(s)) && Owners(s.owner, s.calls, Newest(s))
    requires c < |s.calls| && s.calls[c].attempt == Newest(s) && Registering(s.calls[c])
    requires SameIdentity(s.calls[c], y) && y.phase.Finished? && s.calls[c].sent == y.sent
    requires s.calls[c].sendResult == y.sendResult && s.calls[c].response == y.response
    ensures CallSide(s.(reg := s.reg.(pending := s.reg.pending - {y.id}), calls := s.calls[c := y]))
  {
    QueuedWithout(Queue(s.link), s.calls, Newest(s), c, y);
    SettledCharges(s.reg.pending, s.calls, Newest(s), s.owner, s.link, c, y);
  }

  lemma SettledCharges(pending: map<Id, nat>, calls: seq<Call>, newest: int, owner: map<Id, nat>, l: Link, c: nat,
                       y: Call)
    requires Charged(pending, calls, newest) && Discharging(pending, calls, l) && Pending(pending, calls, newest) &&
             Owners(owner, calls, newest)
    requires c < |calls| && calls[c].attempt == newest && Registering(calls[c])
    requires SameIdentity(calls[c], y) && y.phase.Finished?
    ensures Charged(pending - {y.id}, calls[c := y], newest) && Discharging(pending - {y.id}, calls[c := y], l)
  {
    forall id | id in pending ensures PendingEntry(pending, calls, newest, id) {
    }
  }

  lemma AcknowledgedLive(s: State, c: nat)
    requires LiveOk(s) && Pending(s.reg.pending, s.calls, Newest(s)) && Owners(s.owner, s.calls, Newest(s)) &&
             NamesOk(s.names, s.reg.active)
    requires c < |s.calls| && CallOk(s.calls[c], c, s.names, s.reg.active) && s.calls[c].attempt == Newest(s)
    requires s.calls[c].phase.AwaitingResponse? && s.calls[c].response == Some(true)
    requires s.calls[c].kind == Fresh || (s.calls[c].kind == Restore && s.calls[c].id in s.reg.active)
    ensures LiveOk(Acknowledge(s, c))
  {
    var y := s.calls[c].(phase := Finished(Accepted));
    var p := Pipe(s.link);
    var active' := s.reg.active[y.id := y.request];
    SettledCallSide(s, c, y);
    CleanupsUpdate(s.link, s.owner, s.calls, c, y);
    assert s.owner[y.id] == c;
    assert y.id in s.names.removed ==> y.id in s.names.overtaken;
    AcknowledgedServerSide(s.link, p, s.owner, s.calls, Newest(s), s.names, s.reg.active, c);
    LeaksAbout(s.doomed, s.reg.active, s.names.overtaken, s.link.held, p, s.owner, s.calls, Newest(s), active', p, c,
               y);
  }

  lemma AcknowledgedServerSide(link: Link, p: seq<Message>, owner: map<Id, nat>, calls: seq<Call>, newest: int,
                               names: Names, active: map<Id, Request>, c: nat)
    requires ServerSide(link, p, owner, calls, newest, names, active) && c < |calls|
    requires Registering(calls[c]) && calls[c].attempt == newest && calls[c].response == Some(true)
    requires Owners(owner, calls, newest) && !calls[c].abandoned &&
             (calls[c].id in names.removed ==> calls[c].id in names.overtaken)
    ensures ServerSide(link, p, owner, calls[c := calls[c].(phase := Finished(Accepted))], newest,
                       names.(known := names.known + {calls[c].id}), active[calls[c].id := calls[c].request])
  {
    var y := calls[c].(phase := Finished(Accepted));
    var calls' := calls[c := y];
    assert Verdict(link.held, p, owner, calls, names.removed, calls[c].id, calls[c].response.value);
    assert Grows(owner, calls, names.removed, owner, calls', names.removed);
    SubscribesGrow(p, owner, calls, names.requests, names.removed, owner, calls', names.removed);
    ServerGrows(link.held, p, owner, calls, names.requests, names.removed, owner, calls', names.removed);
    ResponsesGrow(link.responses, link.held, p, owner, calls, names.removed, owner, calls', names.removed);
    UnsubscribesGrow(link.held, p, owner, calls, names.removed, owner, calls', names.removed);
    AnswersUpdate(link.held, p, owner, calls, newest, names.removed, c, y);
  }

  lemma RefusalSettles(link: Link, p: seq<Message>, owner: map<Id, nat>, calls: seq<Call>, newest: int,
                       names: Names, active: map<Id, Request>, c: nat)
    requires ServerSide(link, p, owner, calls, newest, names, active) && c < |calls|
    requires Registering(calls[c]) && calls[c].attempt == newest && calls[c].response == Some(false)
    ensures !Final(calls[c].id in link.held, p, calls[c].id)
  {
    assert Verdict(link.held, p, owner, calls, names.removed, calls[c].id, calls[c].response.value);
    FinalWithoutSubscribe(p, calls[c].id);
  }

  lemma LeaksSettled(doomed: Option<nat>, active: map<Id, Request>, overtaken: set<Id>, held: map<Id, Request>,
                     p: seq<Message>, owner: map<Id, nat>, calls: seq<Call>, newest: int, c: nat, y: Call)
    requires NoLeaks(doomed, active, overtaken, held, p, owner, calls, newest) && Owners(owner, calls, newest)
    requires c < |calls| && SameIdentity(calls[c], y) && (calls[c].sent ==> y.sent) && !Final(y.id in held, p, y.id)
    ensures NoLeaks(doomed, active, overtaken, held, p, owner, calls[c := y], newest)
  {
    LeaksAbout(doomed, active, overtaken, held, p, owner, calls, newest, active, p, c, y);
  }

  lemma RefusedLive(s: State, c: nat)
    requires LiveOk(s) && Pending(s.reg.pending, s.calls, Newest(s)) && Owners(s.owner, s.calls, Newest(s))
    requires c < |s.calls| && s.calls[c].attempt == Newest(s) && Registering(s.calls[c])
    requires s.calls[c].phase.AwaitingResponse? && s.calls[c].response == Some(false)
    ensures LiveOk(s.(reg := s.reg.(pending := s.reg.pending - {s.calls[c].id}),
                      calls := s.calls[c := s.calls[c].(phase := Finished(Failed))]))
  {
    var y := s.calls[c].(phase := Finished(Failed));
    var p := Pipe(s.link);
    SettledCallSide(s, c, y);
    CleanupsUpdate(s.link, s.owner, s.calls, c, y);
    RefusalSettles(s.link, p, s.owner, s.calls, Newest(s), s.names, s.reg.active, c);
    ServerSideProgress(s.link, p, s.owner, s.calls, Newest(s), s.names, s.reg.active, c, y);
    LeaksSettled(s.doomed, s.reg.active, s.names.overtaken, s.link.held, p, s.owner, s.calls, Newest(s), c, y);
  }

  // ---------- a cleanup is queued ----------

  lemma CleanupCallSide(s: State, c: nat, y: Call, op: SendOp)
    requires CallSide(s) && Owners(s.owner, s.calls, Newest(s)) && c < |s.calls| && Registering(s.calls[c]) &&
             s.calls[c].attempt == Newest(s)
    requires y == s.calls[c].(phase := y.phase, abandoned := true) && y.phase.Finished? &&
             op == SendOp(Unsubscribe(y.id), None)
    requires Pending(s.reg.pending, s.calls, Newest(s))
    ensures CallSide(s.(calls := s.calls[c := y], link := Append(s.link, op)))
  {
    PipeAppend(s.link, op);
    QueuedWithout(Queue(s.link), s.calls, Newest(s), c, y);
    QueuedCleanup(Queue(s.link), s.calls[c := y], Newest(s), op);
    forall id | id in s.reg.pending && s.reg.pending[id] < |s.calls| && !InProgress(s.calls[c := y][s.reg.pending[id]])
      ensures CleanupQueued(Append(s.link, op), id)
    {
      assert PendingEntry(s.reg.pending, s.calls, Newest(s), id);
      CleanupAppend(s.link, op, id);
    }
  }

  lemma QueuedCleanup(q: seq<SendOp>, calls: seq<Call>, newest: int, op: SendOp)
    requires Queued(q, calls, newest) && op.caller.None? && op.message.Unsubscribe?
    ensures Queued(q + [op], calls, newest)
  {
    forall k | 0 <= k < |q + [op]|
      ensures QueueEntry((q + [op])[k], calls, newest)
    {
      if k < |q| {
        assert QueueEntry(q[k], calls, newest);
      }
    }
  }

  lemma EnqueueCleanupLive(s: State, c: nat)
    requires LiveOk(s) && Pending(s.reg.pending, s.calls, Newest(s)) && Owners(s.owner, s.calls, Newest(s))
    requires c < |s.calls| && s.calls[c].attempt == Newest(s) && Registering(s.calls[c]) && s.calls[c].phase.CleaningUp?
    requires s.calls[c].phase.result != Accepted
    ensures LiveOk(SetCall(s, c, s.calls[c].(phase := Finished(s.calls[c].phase.result), abandoned := true)).(
                     link := Append(s.link, SendOp(Unsubscribe(s.calls[c].id), None))))
  {
    var y := s.calls[c].(phase := Finished(s.calls[c].phase.result), abandoned := true);
    var op := SendOp(Unsubscribe(y.id), None);
    var p := Pipe(s.link);
    PipeAppend(s.link, op);
    assert s.owner[y.id] == c;
    CleanupCallSide(s, c, y, op);
    CleanupsPush(s.link, s.owner, s.calls, op, c, y);
    ServerSideProgress(s.link, p, s.owner, s.calls, Newest(s), s.names, s.reg.active, c, y);
    ServerSidePush(s.link, p, s.owner, s.calls[c := y], Newest(s), s.names, s.reg.active, op.message);
    LeaksUnsubscribe(s.doomed, s.reg.active, s.names.overtaken, s.link.held, p, s.owner, s.calls, Newest(s), c, y);
  }

  // ---------- an identifier is withdrawn ----------

  lemma ForgottenServerSide(link: Link, p: seq<Message>, owner: map<Id, nat>, calls: seq<Call>, newest: int,
                            names: Names, names': Names, active: map<Id, Request>, id: Id)
    requires ServerSide(link, p, owner, calls, newest, names, active)
    requires names'.requests == names.requests && names.removed <= names'.removed && names.overtaken <= names'.overtaken
    ensures ServerSide(link, p, owner, calls, newest, names', active - {id})
  {
    ServerSideNames(link, p, owner, calls, newest, names, names', active);
  }

  lemma ServerSideNames(link: Link, p: seq<Message>, owner: map<Id, nat>, calls: seq<Call>, newest: int,
                        names: Names, names': Names, active: map<Id, Request>)
    requires ServerSide(link, p, owner, calls, newest, names, active)
    requires names'.requests == names.requests && names.removed <= names'.removed && names.overtaken <= names'.overtaken
    ensures ServerSide(link, p, owner, calls, newest, names', active)
  {
    assert Grows(owner, calls, names.removed, owner, calls, names'.removed);
    ResponsesGrow(link.responses, link.held, p, owner, calls, names.removed, owner, calls, names'.removed);
    UnsubscribesGrow(link.held, p, owner, calls, names.removed, owner, calls, names'.removed);
    forall k | 0 <= k < |calls| && Registering(calls[k]) && calls[k].attempt == newest && calls[k].response.Some?
      ensures Verdict(link.held, p, owner, calls, names'.removed, calls[k].id, calls[k].response.value)
    {
      assert Verdict(link.held, p, owner, calls, names.removed, calls[k].id, calls[k].response.value);
    }
  }

  /** Marking a withdrawn restoration and adding the removal in one go. */
  lemma LeaksWithdraw(doomed: Option<nat>, active: map<Id, Request>, overtaken: set<Id>, held: map<Id, Request>,
                      p: seq<Message>, owner: map<Id, nat>, calls: seq<Call>, newest: nat, id: Id)
    requires NoLeaks(doomed, active, overtaken, held, p, owner, calls, newest)
    ensures NoLeaks(doomed, active - {id}, overtaken, held, p, owner,
                    calls + [NewCall(Remove, id, Request("", "", []), newest)], newest)
  {
    var calls' := calls + [NewCall(Remove, id, Request("", "", []), newest)];
    forall x | doomed.None?
      ensures NoLeak(active - {id}, overtaken, held, p, owner, calls', newest, x)
    {
      assert NoLeak(active, overtaken, held, p, owner, calls, newest, x);
      if x == id {
        assert RemovalUnsent(calls', newest, |calls|, id);
      } else if RemovalPending(calls, newest, x) {
        var k :| RemovalUnsent(calls, newest, k, x);
        assert RemovalUnsent(calls', newest, k, x);
      }
    }
  }

  /** The identifier is withdrawn and its removal called on the newest attempt. */
  function Removing(s: State, id: Id): (s': State)
    requires |s.generations| > 0
  {
    s.(reg := Withdraw(s.reg, id), names := NamesAfter(s.names, id),
       calls := s.calls + [NewCall(Remove, id, Request("", "", []), Newest(s))])
  }

  lemma WithdrawnCallSide(s: State, id: Id)
    requires CallSide(s) && Pending(s.reg.pending, s.calls, Newest(s)) && |s.generations| > 0
    ensures CallSide(Removing(s, id))
  {
    CallSideAppend(s, NewCall(Remove, id, Request("", "", []), Newest(s)));
  }

  lemma LeaksNamed(doomed: Option<nat>, active: map<Id, Request>, names: Names, held: map<Id, Request>,
                   p: seq<Message>, owner: map<Id, nat>, calls: seq<Call>, newest: nat, id: Id)
    requires NoLeaks(doomed, active, names.overtaken, held, p, owner, calls, newest)
    ensures NoLeaks(doomed, active - {id}, NamesAfter(names, id).overtaken, held, p, owner,
                    calls + [NewCall(Remove, id, Request("", "", []), newest)], newest)
  {
    LeaksWithdraw(doomed, active, names.overtaken, held, p, owner, calls, newest, id);
  }

  lemma WithdrawnLive(s: State, id: Id)
    requires LiveOk(s) && Pending(s.reg.pending, s.calls, Newest(s)) && Owners(s.owner, s.calls, Newest(s)) &&
             |s.generations| > 0
    ensures LiveOk(Removing(s, id))
  {
    var y := NewCall(Remove, id, Request("", "", []), Newest(s));
    WithdrawnCallSide(s, id);
    CleanupsAppend(s.link, s.owner, s.owner, s.calls, y);
    WithdrawnServerSide(s.link, Pipe(s.link), s.owner, s.calls, Newest(s), s.names, s.reg.active, id, y);
    LeaksNamed(s.doomed, s.reg.active, s.names, s.link.held, Pipe(s.link), s.owner, s.calls, Newest(s), id);
  }

  lemma WithdrawnServerSide(link: Link, p: seq<Message>, owner: map<Id, nat>, calls: seq<Call>, newest: int,
                            names: Names, active: map<Id, Request>, id: Id, y: Call)
    requires ServerSide(link, p, owner, calls, newest, names, active) && Owners(owner, calls, newest)
    requires y.kind == Remove && y.id == id && y.response.None? && y.phase != Finished(Accepted)
    ensures ServerSide(link, p, owner, calls + [y], newest, NamesAfter(names, id), active - {id})
  {
    ForgottenServerSide(link, p, owner, calls, newest, names, NamesAfter(names, id), active, id);
    ServerSideAppend(link, p, owner, owner, calls, newest, NamesAfter(names, id), NamesAfter(names, id),
                     active - {id}, y);
  }

  lemma UnsubscribeIs(s: State, id: Id)
    requires Live(s) && CanBeginUnsubscribe(s)
    ensures BeginUnsubscribe(s, id) == Removing(Marked(s, id), id)
  {
  }

  lemma BeginUnsubscribeLive(s: State, id: Id)
    requires Base(s) && LiveOk(s) && Live(s) && CanBeginUnsubscribe(s)
    ensures LiveOk(BeginUnsubscribe(s, id))
  {
    UnsubscribeIs(s, id);
    if RestorePending(s, id) {
      MarkedLive(s, s.reg.pending[id]);
    }
    WithdrawnLive(Marked(s, id), id);
  }

  lemma MarkedLive(s: State, c: nat)
    requires Base(s) && LiveOk(s) && c < |s.calls|
    ensures var s1 := SetCall(s, c, s.calls[c].(withdrawn := true));
            LiveOk(s1) && Pending(s1.reg.pending, s1.calls, Newest(s1)) && Owners(s1.owner, s1.calls, Newest(s1))
  {
    var y := s.calls[c].(withdrawn := true);
    InertLive(s, c, y);
    OwnersUpdate(s.owner, s.calls, Newest(s), c, y);
    PendingUpdate(s.reg.pending, s.calls, Newest(s), c, y);
  }

  // ---------- the writer ----------

  /** The head of the queue leaves it and its outcome is reported. */
  lemma QueuedTail(q: seq<SendOp>, calls: seq<Call>, newest: int, ok: bool)
    requires Queued(q, calls, newest) && q != [] && (q[0].caller.Some? ==> q[0].caller.value < |calls|)
    ensures Queued(q[1..], Report(calls, q[0].caller, ok), newest)
  {
    forall k | 0 <= k < |q[1..]|
      ensures QueueEntry(q[1..][k], Report(calls, q[0].caller, ok), newest)
    {
      assert QueueEntry(q[k + 1], calls, newest);
    }
  }

  lemma ReportedCallSide(s: State, op: SendOp, ok: bool, l': Link, doomed': Option<nat>)
    requires CallSide(s) && Pending(s.reg.pending, s.calls, Newest(s))
    requires Queue(s.link) != [] && op == Queue(s.link)[0] && CallerExists(s, op) && QueueEntry(op, s.calls, Newest(s))
    requires Queue(l') == Queue(s.link)[1..]
    requires forall id :: CleanupQueued(s.link, id) ==> CleanupQueued(l', id)
    requires doomed' == s.doomed || (doomed' == op.caller && op.caller.Some? && op.message.Unsubscribe? && !ok)
    ensures CallSide(s.(calls := Report(s.calls, op.caller, ok), link := l', doomed := doomed'))
  {
    QueuedTail(Queue(s.link), s.calls, Newest(s), ok);
    ReportedCharges(s.reg.pending, s.calls, Newest(s), s.link, l', op.caller, ok);
  }

  lemma ReportedCharges(pending: map<Id, nat>, calls: seq<Call>, newest: int, l: Link, l': Link,
                        caller: Option<nat>, ok: bool)
    requires Charged(pending, calls, newest) && Discharging(pending, calls, l) && Unsent(calls, newest) &&
             Pending(pending, calls, newest)
    requires forall id :: CleanupQueued(l, id) ==> CleanupQueued(l', id)
    requires caller.Some? ==>
               caller.value < |calls| && (calls[caller.value].attempt == newest ==> calls[caller.value].sent)
    ensures Charged(pending, Report(calls, caller, ok), newest) && Discharging(pending, Report(calls, caller, ok), l')
    ensures Unsent(Report(calls, caller, ok), newest)
  {
    forall id | id in pending ensures PendingEntry(pending, calls, newest, id) {
    }
  }

  lemma ServerSideReport(link: Link, p: seq<Message>, owner: map<Id, nat>, calls: seq<Call>, newest: int,
                         names: Names, active: map<Id, Request>, caller: Option<nat>, ok: bool)
    requires ServerSide(link, p, owner, calls, newest, names, active) && (caller.Some? ==> caller.value < |calls|)
    ensures ServerSide(link, p, owner, Report(calls, caller, ok), newest, names, active)
  {
    if caller.Some? {
      ServerSideProgress(link, p, owner, calls, newest, names, active, caller.value,
                         calls[caller.value].(sendResult := Some(ok)));
    }
  }

  lemma LeaksReport(doomed: Option<nat>, active: map<Id, Request>, overtaken: set<Id>, held: map<Id, Request>,
                    p: seq<Message>, owner: map<Id, nat>, calls: seq<Call>, newest: int, caller: Option<nat>,
                    ok: bool)
    requires NoLeaks(doomed, active, overtaken, held, p, owner, calls, newest) && Owners(owner, calls, newest)
    requires caller.Some? ==> caller.value < |calls|
    ensures NoLeaks(doomed, active, overtaken, held, p, owner, Report(calls, caller, ok), newest)
  {
    if caller.Some? {
      LeaksProgress(doomed, active, overtaken, held, p, owner, calls, newest, caller.value,
                    calls[caller.value].(sendResult := Some(ok)));
    }
  }

  lemma VerdictDrop(held: map<Id, Request>, u: seq<Message>, m: Message, v: seq<Message>, owner: map<Id, nat>,
                    calls: seq<Call>, removed: set<Id>, id: Id, success: bool)
    requires Verdict(held, u + [m] + v, owner, calls, removed, id, success)
    ensures Verdict(held, u + v, owner, calls, removed, id, success)
  {
    NoSubscribeDrop(u, m, v, id);
  }

  lemma NoSubscribeDrop(u: seq<Message>, m: Message, v: seq<Message>, id: Id)
    requires NoSubscribe(u + [m] + v, id)
    ensures NoSubscribe(u + v, id)
  {
    forall k | 0 <= k < |u + v| && (u + v)[k].Subscribe?
      ensures (u + v)[k].id != id
    {
      assert (u + v)[k] == (u + [m] + v)[if k < |u| then k else k + 1];
    }
  }

  lemma UnsubscribesDrop(held: map<Id, Request>, u: seq<Message>, m: Message, v: seq<Message>, owner: map<Id, nat>,
                         calls: seq<Call>, removed: set<Id>)
    requires Unsubscribes(held, u + [m] + v, owner, calls, removed)
    ensures Unsubscribes(held, u + v, owner, calls, removed)
  {
    var p, q := u + [m] + v, u + v;
    forall k | 0 <= k < |q| && q[k].Unsubscribe?
      ensures UnsubscribeIssued(owner, calls, removed, q[k].id) || Harmless(held, q, k)
    {
      var j := if k < |u| then k else k + 1;
      assert p[j] == q[k];
      assert UnsubscribeIssued(owner, calls, removed, p[j].id) || Harmless(held, p, j);
      if Harmless(held, p, j) {
        if k < |u| {
          assert q[..k] == p[..j];
        } else {
          assert p[..j] == u + [m] + v[..k - |u|] && q[..k] == u + v[..k - |u|];
          NoSubscribeDrop(u, m, v[..k - |u|], q[k].id);
        }
      }
    }
  }

  /** A message that the writer drops unsent takes nothing else with it. */
  lemma ServerSideDrop(link: Link, u: seq<Message>, m: Message, v: seq<Message>, owner: map<Id, nat>,
                       calls: seq<Call>, newest: int, names: Names, active: map<Id, Request>)
    requires ServerSide(link, u + [m] + v, owner, calls, newest, names, active)
    ensures ServerSide(link, u + v, owner, calls, newest, names, active)
  {
    var p := u + [m] + v;
    assert forall k :: 0 <= k < |u + v| ==> (u + v)[k] == p[if k < |u| then k else k + 1];
    UnsubscribesDrop(link.held, u, m, v, owner, calls, names.removed);
    forall id | id in link.held
      ensures NoSubscribe(u + v, id)
    {
      NoSubscribeDrop(u, m, v, id);
    }
    forall k | 0 <= k < |link.responses|
      ensures Verdict(link.held, u + v, owner, calls, names.removed, link.responses[k].id, link.responses[k].success)
    {
      assert Verdict(link.held, p, owner, calls, names.removed, link.responses[k].id, link.responses[k].success);
      VerdictDrop(link.held, u, m, v, owner, calls, names.removed, link.responses[k].id, link.responses[k].success);
    }
    forall c | 0 <= c < |calls| && Registering(calls[c]) && calls[c].attempt == newest && calls[c].response.Some?
      ensures Verdict(link.held, u + v, owner, calls, names.removed, calls[c].id, calls[c].response.value)
    {
      assert Verdict(link.held, p, owner, calls, names.removed, calls[c].id, calls[c].response.value);
      VerdictDrop(link.held, u, m, v, owner, calls, names.removed, calls[c].id, calls[c].response.value);
    }
  }

  lemma PipeSkip(l: Link)
    requires l.writer.Idle? && l.sends != []
    ensures Queue(l) == l.sends && Queue(l.(sends := l.sends[1..])) == l.sends[1..]
    ensures Pipe(l) == l.wire + [l.sends[0].message] + Messages(l.sends[1..])
    ensures Pipe(l.(sends := l.sends[1..])) == l.wire + Messages(l.sends[1..])
  {
    assert Messages(l.sends) == [l.sends[0].message] + Messages(l.sends[1..]);
  }

  lemma CleanupsReport(l: Link, l': Link, owner: map<Id, nat>, calls: seq<Call>, caller: Option<nat>, ok: bool)
    requires Cleanups(l, owner, calls) && (caller.Some? ==> caller.value < |calls|)
    requires forall id :: CleanupQueued(l', id) ==> CleanupQueued(l, id)
    ensures Cleanups(l', owner, Report(calls, caller, ok))
  {
  }

  lemma LeaksSkip(doomed: Option<nat>, active: map<Id, Request>, overtaken: set<Id>, held: map<Id, Request>,
                  u: seq<Message>, m: Message, v: seq<Message>, owner: map<Id, nat>, calls: seq<Call>, newest: int)
    requires NoLeaks(doomed, active, overtaken, held, u + [m] + v, owner, calls, newest) &&
             (m.Subscribe? || doomed.Some?)
    ensures NoLeaks(doomed, active, overtaken, held, u + v, owner, calls, newest)
  {
    if m.Subscribe? {
      forall id
        ensures Final(id in held, u + v, id) ==> Final(id in held, u + [m] + v, id)
      {
        FinalDrop(id in held, u, m, v, id);
      }
      LeaksShrink(doomed, active, overtaken, held, u + [m] + v, owner, calls, newest, held, u + v);
    }
  }

  lemma WriterSkipCalls(s: State)
    requires LiveOk(s) && Pending(s.reg.pending, s.calls, Newest(s)) && Owners(s.owner, s.calls, Newest(s)) &&
             CanWriterTake(s)
    requires s.link.sends[0].caller.Some? && ContextDone(s.calls[s.link.sends[0].caller.value])
    ensures CallSide(WriterTake(s)) && Cleanups(WriterTake(s).link, s.owner, WriterTake(s).calls)
  {
    var op := s.link.sends[0];
    var l' := s.link.(sends := s.link.sends[1..]);
    PipeSkip(s.link);
    assert QueueEntry(Queue(s.link)[0], s.calls, Newest(s));
    ReportedCallSide(s, op, false, l', if op.message.Unsubscribe? then op.caller else s.doomed);
    CleanupsReport(s.link, l', s.owner, s.calls, op.caller, false);
  }

  lemma WriterSkipLive(s: State)
    requires LiveOk(s) && Pending(s.reg.pending, s.calls, Newest(s)) && Owners(s.owner, s.calls, Newest(s)) &&
             CanWriterTake(s)
    requires s.link.sends[0].caller.Some? && ContextDone(s.calls[s.link.sends[0].caller.value])
    ensures LiveOk(WriterTake(s))
  {
    var op := s.link.sends[0];
    var l' := s.link.(sends := s.link.sends[1..]);
    var doomed' := if op.message.Unsubscribe? then op.caller else s.doomed;
    var v := Messages(s.link.sends[1..]);
    WriterSkipCalls(s);
    PipeSkip(s.link);
    assert QueueEntry(Queue(s.link)[0], s.calls, Newest(s));
    ServerSideDrop(s.link, s.link.wire, op.message, v, s.owner, s.calls, Newest(s), s.names, s.reg.active);
    ServerSideReport(s.link, Pipe(l'), s.owner, s.calls, Newest(s), s.names, s.reg.active, op.caller, false);
    LeaksSkip(doomed', s.reg.active, s.names.overtaken, s.link.held, s.link.wire, op.message, v, s.owner, s.calls,
              Newest(s));
    LeaksReport(doomed', s.reg.active, s.names.overtaken, s.link.held, Pipe(l'), s.owner, s.calls, Newest(s),
                op.caller, false);
  }

  lemma WriterHoldLive(s: State)
    requires LiveOk(s) && CanWriterTake(s)
    ensures LiveOk(s.(link := s.link.(sends := s.link.sends[1..], writer := Holding(s.link.sends[0]))))
  {
    var l' := s.link.(sends := s.link.sends[1..], writer := Holding(s.link.sends[0]));
    assert Queue(l') == Queue(s.link) && Pipe(l') == Pipe(s.link);
  }

  lemma WriterTakeLive(s: State)
    requires LiveOk(s) && Pending(s.reg.pending, s.calls, Newest(s)) && Owners(s.owner, s.calls, Newest(s)) &&
             CanWriterTake(s)
    ensures LiveOk(WriterTake(s))
  {
    var op := s.link.sends[0];
    if op.caller.Some? && ContextDone(s.calls[op.caller.value]) {
      WriterSkipLive(s);
    } else {
      WriterHoldLive(s);
    }
  }

  lemma PipeSend(l: Link)
    requires l.writer.Holding?
    ensures Queue(l) == [l.writer.op] + l.sends
    ensures Pipe(l) == l.wire + [l.writer.op.message] + Messages(l.sends)
  {
    assert Messages(Queue(l)) == [l.writer.op.message] + Messages(l.sends);
  }

  lemma WriterSendLive(s: State)
    requires LiveOk(s) && Pending(s.reg.pending, s.calls, Newest(s)) && Owners(s.owner, s.calls, Newest(s)) &&
             CanWriterSend(s)
    ensures LiveOk(WriterSend(s))
  {
    var op := s.link.writer.op;
    var l' := WriterSend(s).link;
    PipeSend(s.link);
    assert Queue(l') == Queue(s.link)[1..];
    assert Pipe(l') == Pipe(s.link);
    assert QueueEntry(Queue(s.link)[0], s.calls, Newest(s));
    ReportedCallSide(s, op, true, l', s.doomed);
    CleanupsReport(s.link, l', s.owner, s.calls, op.caller, true);
    ServerSideReport(s.link, Pipe(l'), s.owner, s.calls, Newest(s), s.names, s.reg.active, op.caller, true);
    LeaksReport(s.doomed, s.reg.active, s.names.overtaken, s.link.held, Pipe(l'), s.owner, s.calls, Newest(s),
                op.caller, true);
  }

  lemma DischargedCallSide(s: State, l': Link)
    requires CallSide(s) && Pending(s.reg.pending, s.calls, Newest(s)) && Owners(s.owner, s.calls, Newest(s)) &&
             s.link.writer.Wrote?
    requires OwnedAs(s.owner, s.calls, s.link.writer.id) && s.calls[s.owner[s.link.writer.id]].phase.Finished?
    requires l' == s.link.(writer := Idle)
    ensures CallSide(s.(reg := s.reg.(pending := s.reg.pending - {s.link.writer.id}), link := l'))
  {
    assert Queue(l') == Queue(s.link);
    forall x | x in s.reg.pending
      ensures PendingEntry(s.reg.pending, s.calls, Newest(s), x)
    {
    }
  }

  lemma DischargedLive(s: State, l': Link)
    requires LiveOk(s) && Pending(s.reg.pending, s.calls, Newest(s)) && Owners(s.owner, s.calls, Newest(s)) &&
             s.link.writer.Wrote?
    requires OwnedAs(s.owner, s.calls, s.link.writer.id) && s.calls[s.owner[s.link.writer.id]].phase.Finished?
    requires l' == s.link.(writer := Idle)
    ensures LiveOk(s.(reg := s.reg.(pending := s.reg.pending - {s.link.writer.id}), link := l'))
  {
    DischargedCallSide(s, l');
    assert Queue(l') == Queue(s.link) && Pipe(l') == Pipe(s.link);
  }

  lemma WrittenFinished(s: State)
    requires Cleanups(s.link, s.owner, s.calls) && Calls(s.calls, s.names, s.reg.active) && CanWriterDischarge(s)
    ensures OwnedAs(s.owner, s.calls, s.link.writer.id) && s.calls[s.owner[s.link.writer.id]].phase.Finished?
  {
    var id := s.link.writer.id;
    assert CleanupQueued(s.link, id);
    assert CallOk(s.calls[s.owner[id]], s.owner[id], s.names, s.reg.active);
  }

  lemma DischargeDrops(s: State)
    requires Pending(s.reg.pending, s.calls, Newest(s)) && CanWriterDischarge(s)
    ensures WriterDischarge(s) ==
              s.(reg := s.reg.(pending := s.reg.pending - {s.link.writer.id}), link := s.link.(writer := Idle))
  {
    var id := s.link.writer.id;
    if id in s.reg.pending {
      assert PendingEntry(s.reg.pending, s.calls, Newest(s), id);
    } else {
      assert s.reg.pending - {id} == s.reg.pending;
    }
  }

  lemma WriterDischargeLive(s: State)
    requires LiveOk(s) && Pending(s.reg.pending, s.calls, Newest(s)) && Owners(s.owner, s.calls, Newest(s)) &&
             CanWriterDischarge(s)
    requires Calls(s.calls, s.names, s.reg.active)
    ensures LiveOk(WriterDischarge(s))
  {
    WrittenFinished(s);
    DischargedLive(s, s.link.(writer := Idle));
    DischargeDrops(s);
  }

  // ---------- the server and the reader ----------

  lemma PipeServe(l: Link)
    requires l.wire != []
    ensures Pipe(l) != [] && Pipe(l)[0] == l.wire[0]
    ensures Queue(l.(wire := l.wire[1..])) == Queue(l)
    ensures Pipe(l.(wire := l.wire[1..])) == Pipe(l)[1..]
  {
  }

  lemma ServerSideTail(link: Link, p: seq<Message>, owner: map<Id, nat>, calls: seq<Call>, newest: int,
                       names: Names, active: map<Id, Request>)
    requires p != [] && ServerSide(link, p, owner, calls, newest, names, active)
    ensures ServerSide(link, p[1..], owner, calls, newest, names, active)
  {
    assert [] + p[1..] == p[1..] && [] + [p[0]] + p[1..] == p;
    ServerSideDrop(link, [], p[0], p[1..], owner, calls, newest, names, active);
  }

  /** An unsubscribe with nothing to undo is not behind the subscribe being answered. */
  lemma UnsubscribesAnswered(held: map<Id, Request>, p: seq<Message>, owner: map<Id, nat>, calls: seq<Call>,
                             removed: set<Id>, held': map<Id, Request>)
    requires Unsubscribes(held, p, owner, calls, removed) && p != [] && p[0].Subscribe? &&
             held'.Keys <= held.Keys + {p[0].id}
    ensures Unsubscribes(held', p[1..], owner, calls, removed)
  {
    var q := p[1..];
    forall k | 0 <= k < |q| && q[k].Unsubscribe?
      ensures UnsubscribeIssued(owner, calls, removed, q[k].id) || Harmless(held', q, k)
    {
      assert q[k] == p[k + 1];
      assert UnsubscribeIssued(owner, calls, removed, p[k + 1].id) || Harmless(held, p, k + 1);
      if Harmless(held, p, k + 1) {
        assert p[..k + 1][0] == p[0];
        assert forall i :: 0 <= i < k ==> q[..k][i] == p[..k + 1][i + 1];
      }
    }
  }

  /** The server answers the subscribe at the head of the wire. */
  lemma AnsweredServerSide(link: Link, p: seq<Message>, owner: map<Id, nat>, calls: seq<Call>, newest: int,
                           names: Names, active: map<Id, Request>, accept: bool)
    requires p != [] && p[0].Subscribe? && ServerSide(link, p, owner, calls, newest, names, active)
    ensures ServerSide(link.(held := if accept then link.held[p[0].id := p[0].request] else link.held,
                             responses := link.responses + [Response(p[0].id, accept)]),
                       p[1..], owner, calls, newest, names, active)
  {
    var m := p[0];
    var q := p[1..];
    var held' := if accept then link.held[m.id := m.request] else link.held;
    var rs := link.responses + [Response(m.id, accept)];
    ServerSideTail(link, p, owner, calls, newest, names, active);
    UnsubscribesAnswered(link.held, p, owner, calls, names.removed, held');
    assert NoSubscribe(q, m.id);
    assert !NoSubscribe(p, m.id);
    forall k | 0 <= k < |rs|
      ensures Verdict(held', q, owner, calls, names.removed, rs[k].id, rs[k].success)
    {
      if k < |link.responses| {
        assert Verdict(link.held, p, owner, calls, names.removed, link.responses[k].id, link.responses[k].success);
        assert Verdict(link.held, q, owner, calls, names.removed, link.responses[k].id, link.responses[k].success);
      }
    }
    forall c | 0 <= c < |calls| && Registering(calls[c]) && calls[c].attempt == newest && calls[c].response.Some?
      ensures Verdict(held', q, owner, calls, names.removed, calls[c].id, calls[c].response.value)
    {
      assert Verdict(link.held, p, owner, calls, names.removed, calls[c].id, calls[c].response.value);
      assert Verdict(link.held, q, owner, calls, names.removed, calls[c].id, calls[c].response.value);
    }
  }

  lemma ServerSubscribeLive(s: State, accept: bool)
    requires LiveOk(s) && CanServerSubscribe(s)
    ensures LiveOk(ServerSubscribe(s, accept))
  {
    var p := Pipe(s.link);
    var l' := ServerSubscribe(s, accept).link;
    PipeServe(s.link);
    assert Queue(l') == Queue(s.link) && Pipe(l') == p[1..];
    AnsweredServerSide(s.link, p, s.owner, s.calls, Newest(s), s.names, s.reg.active, accept);
    forall id
      ensures Final(id in l'.held, p[1..], id) ==> Final(id in s.link.held, p, id)
    {
      FinalMonotone(p[1..], id);
    }
    LeaksShrink(s.doomed, s.reg.active, s.names.overtaken, s.link.held, p, s.owner, s.calls, Newest(s), l'.held,
                p[1..]);
  }

  lemma UnsubscribesFewer(held: map<Id, Request>, p: seq<Message>, owner: map<Id, nat>, calls: seq<Call>,
                          removed: set<Id>, held': map<Id, Request>)
    requires Unsubscribes(held, p, owner, calls, removed) && held'.Keys <= held.Keys
    ensures Unsubscribes(held', p, owner, calls, removed)
  {
    forall k | 0 <= k < |p| && p[k].Unsubscribe?
      ensures UnsubscribeIssued(owner, calls, removed, p[k].id) || Harmless(held', p, k)
    {
      assert UnsubscribeIssued(owner, calls, removed, p[k].id) || Harmless(held, p, k);
    }
  }

  lemma RemovedServerSide(link: Link, p: seq<Message>, owner: map<Id, nat>, calls: seq<Call>, newest: int,
                          names: Names, active: map<Id, Request>)
    requires p != [] && p[0].Unsubscribe? && ServerSide(link, p, owner, calls, newest, names, active)
    requires active.Keys * names.removed <= names.overtaken && Calls(calls, names, active)
    ensures ServerSide(link.(held := link.held - {p[0].id}), p[1..], owner, calls, newest, names, active)
  {
    var id := p[0].id;
    var q := p[1..];
    var held' := link.held - {id};
    assert UnsubscribeIssued(owner, calls, names.removed, id) || Harmless(link.held, p, 0);
    ServerSideTail(link, p, owner, calls, newest, names, active);
    UnsubscribesFewer(link.held, q, owner, calls, names.removed, held');
    if OwnedAs(owner, calls, id) {
      assert CallOk(calls[owner[id]], owner[id], names, active);
    }
    forall k | 0 <= k < |link.responses|
      ensures Verdict(held', q, owner, calls, names.removed, link.responses[k].id, link.responses[k].success)
    {
      assert Verdict(link.held, q, owner, calls, names.removed, link.responses[k].id, link.responses[k].success);
    }
    forall c | 0 <= c < |calls| && Registering(calls[c]) && calls[c].attempt == newest && calls[c].response.Some?
      ensures Verdict(held', q, owner, calls, names.removed, calls[c].id, calls[c].response.value)
    {
      assert Verdict(link.held, q, owner, calls, names.removed, calls[c].id, calls[c].response.value);
    }
  }

  lemma ServerUnsubscribeLive(s: State)
    requires LiveOk(s) && CanServerUnsubscribe(s) && NamesOk(s.names, s.reg.active) &&
             Calls(s.calls, s.names, s.reg.active)
    ensures LiveOk(ServerUnsubscribe(s))
  {
    var p := Pipe(s.link);
    var l' := ServerUnsubscribe(s).link;
    PipeServe(s.link);
    assert Queue(l') == Queue(s.link) && Pipe(l') == p[1..];
    RemovedServerSide(s.link, p, s.owner, s.calls, Newest(s), s.names, s.reg.active);
    LeaksShrink(s.doomed, s.reg.active, s.names.overtaken, s.link.held, p, s.owner, s.calls, Newest(s), l'.held,
                p[1..]);
  }

  lemma DeliveredServerSide(link: Link, p: seq<Message>, owner: map<Id, nat>, calls: seq<Call>, newest: int,
                            names: Names, active: map<Id, Request>, c: nat)
    requires ServerSide(link, p, owner, calls, newest, names, active) && link.responses != [] && c < |calls|
    requires Registering(calls[c]) && calls[c].attempt == newest && calls[c].id == link.responses[0].id &&
             calls[c].response.None?
    ensures ServerSide(link.(responses := link.responses[1..]), p, owner,
                       calls[c := calls[c].(response := Some(link.responses[0].success))], newest, names, active)
  {
    var r := link.responses[0];
    var y := calls[c].(response := Some(r.success));
    var calls' := calls[c := y];
    assert Verdict(link.held, p, owner, calls, names.removed, link.responses[0].id, link.responses[0].success);
    assert Grows(owner, calls, names.removed, owner, calls', names.removed);
    SubscribesGrow(p, owner, calls, names.requests, names.removed, owner, calls', names.removed);
    ServerGrows(link.held, p, owner, calls, names.requests, names.removed, owner, calls', names.removed);
    ResponsesGrow(link.responses, link.held, p, owner, calls, names.removed, owner, calls', names.removed);
    UnsubscribesGrow(link.held, p, owner, calls, names.removed, owner, calls', names.removed);
    ResponsesTail(link.responses, link.held, p, owner, calls', names.removed);
    forall k | 0 <= k < |calls'| && Registering(calls'[k]) && calls'[k].attempt == newest && calls'[k].response.Some?
      ensures Verdict(link.held, p, owner, calls', names.removed, calls'[k].id, calls'[k].response.value)
    {
      if k != c {
        assert Verdict(link.held, p, owner, calls, names.removed, calls[k].id, calls[k].response.value);
      }
    }
  }

  lemma ResponsesTail(rs: seq<Response>, held: map<Id, Request>, p: seq<Message>, owner: map<Id, nat>,
                      calls: seq<Call>, removed: set<Id>)
    requires rs != [] && Responses(rs, held, p, owner, calls, removed)
    ensures Responses(rs[1..], held, p, owner, calls, removed)
  {
    forall k | 0 <= k < |rs[1..]|
      ensures Verdict(held, p, owner, calls, removed, rs[1..][k].id, rs[1..][k].success)
    {
      assert Verdict(held, p, owner, calls, removed, rs[k + 1].id, rs[k + 1].success);
    }
  }

  lemma DeliveredCallSide(s: State, c: nat, success: bool)
    requires CallSide(s) && Pending(s.reg.pending, s.calls, Newest(s)) && c < |s.calls| && s.calls[c].sent
    ensures CallSide(SetCall(s, c, s.calls[c].(response := Some(success))))
  {
    var y := s.calls[c].(response := Some(success));
    forall k | 0 <= k < |Queue(s.link)|
      ensures QueueEntry(Queue(s.link)[k], s.calls[c := y], Newest(s))
    {
      assert QueueEntry(Queue(s.link)[k], s.calls, Newest(s));
    }
  }

  lemma AnsweredWasSent(s: State, c: nat)
    requires ServerSide(s.link, Pipe(s.link), s.owner, s.calls, Newest(s), s.names, s.reg.active)
    requires Owners(s.owner, s.calls, Newest(s)) && CanReadResponse(s)
    requires c < |s.calls| && Registering(s.calls[c]) && s.calls[c].attempt == Newest(s) &&
             s.calls[c].id == s.link.responses[0].id
    ensures s.calls[c].sent
  {
    assert Verdict(s.link.held, Pipe(s.link), s.owner, s.calls, s.names.removed, s.link.responses[0].id,
                   s.link.responses[0].success);
  }

  lemma DeliveredLive(s: State, c: nat, l': Link)
    requires LiveOk(s) && Pending(s.reg.pending, s.calls, Newest(s)) && Owners(s.owner, s.calls, Newest(s)) &&
             CanReadResponse(s)
    requires c < |s.calls| && Registering(s.calls[c]) && s.calls[c].attempt == Newest(s) && s.calls[c].response.None?
    requires s.calls[c].id == s.link.responses[0].id && l' == s.link.(responses := s.link.responses[1..])
    ensures LiveOk(s.(link := l', calls := s.calls[c := s.calls[c].(response := Some(s.link.responses[0].success))]))
  {
    var y := s.calls[c].(response := Some(s.link.responses[0].success));
    assert Queue(l') == Queue(s.link) && Pipe(l') == Pipe(s.link);
    AnsweredWasSent(s, c);
    DeliveredCallSide(s, c, s.link.responses[0].success);
    CleanupsUpdate(s.link, s.owner, s.calls, c, y);
    DeliveredServerSide(s.link, Pipe(s.link), s.owner, s.calls, Newest(s), s.names, s.reg.active, c);
    LeaksProgress(s.doomed, s.reg.active, s.names.overtaken, s.link.held, Pipe(s.link), s.owner, s.calls, Newest(s),
                  c, y);
  }

  lemma IgnoredLive(s: State, l': Link)
    requires LiveOk(s) && CanReadResponse(s) && l' == s.link.(responses := s.link.responses[1..])
    ensures LiveOk(s.(link := l'))
  {
    assert Queue(l') == Queue(s.link) && Pipe(l') == Pipe(s.link);
    ResponsesTail(s.link.responses, s.link.held, Pipe(s.link), s.owner, s.calls, s.names.removed);
  }

  lemma ReadResponseLive(s: State)
    requires LiveOk(s) && Pending(s.reg.pending, s.calls, Newest(s)) && Owners(s.owner, s.calls, Newest(s)) &&
             CanReadResponse(s)
    ensures LiveOk(ReadResponse(s))
  {
    var r := s.link.responses[0];
    var l' := s.link.(responses := s.link.responses[1..]);
    if s.reg.attempt == Some(Newest(s)) && EntryOfNewest(s, r.id) && s.calls[s.reg.pending[r.id]].response.None? {
      assert PendingEntry(s.reg.pending, s.calls, Newest(s), r.id);
      DeliveredLive(s, s.reg.pending[r.id], l');
    } else {
      IgnoredLive(s, l');
    }
  }
}
