/** Callers who unsubscribe only what they were given find server and client in
    agreement; and why others may not: from any state at rest, an Unsubscribe that names
    a registration still waiting for its answer can end with an active subscription that
    the server does not hold. */
module StreamGuess {
  import opened Options
  import opened StreamRegistry
  import opened StreamProtocol
  import opened StreamInvariant
  import opened StreamSafety
  import opened StreamTheorems

  // ---------- callers who name what they were given ----------

  /** The caller's rule about `x`: Unsubscribe it once Subscribe has returned it, or while
      it is not in use at all. */
  predicate Polite(s: State, step: Step, x: Id) {
    step == ByCaller(UnsubscribeStep(x)) ==> x in s.names.known || x !in s.names.issued
  }

  predicate PoliteRun(s: State, steps: seq<Step>, x: Id)
    decreases |steps|
  {
    steps == [] || (Enabled(s, steps[0]) && Polite(s, steps[0], x) && PoliteRun(Apply(s, steps[0]), steps[1..], x))
  }

  /** `x` was not overtaken, and every removal of it still to be queued was announced. */
  predicate Announced(s: State, x: Id) {
    && x !in s.names.overtaken
    && AllAnnounced(s.calls, Newest(s), s.names.removed, x)
  }

  predicate AllAnnounced(calls: seq<Call>, newest: int, removed: set<Id>, x: Id) {
    forall c ::
      0 <= c < |calls| && calls[c].kind == Remove && calls[c].attempt == newest && calls[c].phase.Enqueuing? &&
      calls[c].id == x ==>
        x in removed
  }

  lemma CallerAnnounced(s: State, x: Id, step: CallerStep)
    requires Base(s) && Announced(s, x) && CallerEnabled(s, step) && Polite(s, ByCaller(step), x)
    ensures Announced(CallerApply(s, step), x)
  {
    match step
    case SubscribeStep(id, request) => SubscribeAnnounced(s, x, id, request);
    case AdmitStep(c) =>
      assert CallOk(s.calls[c], c, s.names, s.reg.active);
      AdmitAnnounced(s, x, c);
    case EnqueueStep(c) => EnqueueAnnounced(s, x, c);
    case FinishSendStep(c) => FinishAnnounced(s, x, c);
    case GiveUpStep(c) => FailAnnounced(s, x, c);
    case WithdrawalStep(c) => CallAnnounced(s, x, c, TakeWithdrawal(s, c).calls[c]);
    case ResponseStep(c) => ResponseAnnounced(s, x, c);
    case AbandonStep(c) => CallAnnounced(s, x, c, AbandonCall(s, c).calls[c]);
    case CleanupStep(c) => CleanupAnnounced(s, x, c);
    case ExpireStep(c) => CallAnnounced(s, x, c, s.calls[c].(expired := true));
    case UnsubscribeStep(id) => UnsubscribeAnnounced(s, x, id);
  }

  /** A call that does not become a removal to be queued. */
  lemma CallAnnounced(s: State, x: Id, c: nat, y: Call)
    requires Announced(s, x) && c < |s.calls|
    requires y.kind == s.calls[c].kind && y.id == s.calls[c].id && y.attempt == s.calls[c].attempt
    requires y.phase.Enqueuing? ==> s.calls[c].phase.Enqueuing?
    ensures Announced(SetCall(s, c, y), x)
  {
  }

  lemma SubscribeAnnounced(s: State, x: Id, id: Id, request: Request)
    requires Announced(s, x) && CanBeginSubscribe(s, id)
    ensures Announced(BeginSubscribe(s, id, request), x)
  {
  }

  lemma EnqueueAnnounced(s: State, x: Id, c: nat)
    requires Announced(s, x) && CanEnqueueSend(s, c)
    ensures Announced(EnqueueSend(s, c), x)
  {
    CallAnnounced(s, x, c, s.calls[c].(phase := AwaitingSend, sent := true));
  }

  lemma FinishAnnounced(s: State, x: Id, c: nat)
    requires Announced(s, x) && CanFinishSend(s, c)
    ensures Announced(FinishSend(s, c), x)
  {
    if s.calls[c].sendResult.value {
      CallAnnounced(s, x, c, FinishSend(s, c).calls[c]);
    } else {
      FailAnnounced(s, x, c);
    }
  }

  lemma CleanupAnnounced(s: State, x: Id, c: nat)
    requires Announced(s, x) && CanEnqueueCleanup(s, c)
    ensures Announced(EnqueueCleanup(s, c), x)
  {
    CallAnnounced(s, x, c, EnqueueCleanup(s, c).calls[c]);
  }

  lemma AdmitAnnounced(s: State, x: Id, c: nat)
    requires Announced(s, x) && CanAdmit(s, c) && Registering(s.calls[c])
    ensures Announced(AdmitCall(s, c), x)
  {
  }

  lemma FailAnnounced(s: State, x: Id, c: nat)
    requires Announced(s, x) && c < |s.calls|
    ensures Announced(FailCall(s, c), x)
  {
  }

  lemma ResponseAnnounced(s: State, x: Id, c: nat)
    requires Announced(s, x) && CanTakeResponse(s, c)
    ensures Announced(TakeResponse(s, c), x)
  {
  }

  lemma UnsubscribeAnnounced(s: State, x: Id, id: Id)
    requires Announced(s, x) && CanBeginUnsubscribe(s) && (id == x ==> x in s.names.known || x !in s.names.issued)
    ensures Announced(BeginUnsubscribe(s, id), x)
  {
  }

  lemma TransportAnnounced(s: State, x: Id, step: TransportStep)
    requires Announced(s, x) && TransportEnabled(s, step)
    ensures Announced(TransportApply(s, step), x)
  {
  }

  lemma LoopAnnounced(s: State, x: Id, step: LoopStep)
    requires Base(s) && Announced(s, x) && LoopEnabled(s, step)
    ensures Announced(LoopApply(s, step), x)
  {
    if step.AttachStep? {
      assert Shape(s.reg.attempt, Newest(s), s.calls);
    }
  }

  lemma {:induction false} PoliteInv(s: State, steps: seq<Step>, x: Id)
    requires Inv(s) && Announced(s, x) && PoliteRun(s, steps, x)
    ensures Run(s, steps).Some? && Announced(Run(s, steps).value, x)
    decreases |steps|
  {
    if steps != [] {
      match steps[0] {
        case ByCaller(step) => CallerAnnounced(s, x, step);
        case ByTransport(step) => TransportAnnounced(s, x, step);
        case ByLoop(step) => LoopAnnounced(s, x, step);
      }
      StepInv(s, steps[0]);
      PoliteInv(Apply(s, steps[0]), steps[1..], x);
    }
  }

  /** An identifier about which callers keep the rule is never overtaken, whatever they do
      about others: connected, quiet and drained, the server holds it exactly when it is
      active, and under its request. */
  lemma PoliteCallersServed(steps: seq<Step>, s: State, x: Id)
    requires PoliteRun(Initial, steps, x) && Run(Initial, steps) == Some(s)
    ensures x !in s.names.overtaken
    ensures Live(s) && Quiet(s) && Drained(s) && s.reg.state == Connected ==>
              && (x in s.link.held <==> x in s.reg.active)
              && (x in s.link.held ==> s.link.held[x] == s.reg.active[x])
  {
    InitialInv();
    PoliteInv(Initial, steps, x);
    if Live(s) && Quiet(s) && Drained(s) && s.reg.state == Connected {
      ServerMatchesRegistry(steps, s);
    }
  }

  /** When callers keep the rule about every identifier, server and client agree. */
  lemma PoliteCallersAgree(steps: seq<Step>, s: State)
    requires Run(Initial, steps) == Some(s) && forall x :: PoliteRun(Initial, steps, x)
    ensures s.names.overtaken == {}
    ensures Live(s) && Quiet(s) && Drained(s) && s.reg.state == Connected ==> s.link.held == s.reg.active
  {
    forall x: Id ensures x !in s.names.overtaken {
      PoliteCallersServed(steps, s, x);
    }
    if Live(s) && Quiet(s) && Drained(s) && s.reg.state == Connected {
      ServerMatchesRegistry(steps, s);
    }
  }

  // ---------- one who guesses ----------

  /** Connected, with nothing under way. */
  predicate AtRest(s: State) {
    Live(s) && Quiet(s) && Drained(s) && s.link.responses == [] && s.reg.state == Connected
  }

  lemma {:induction false} RunConcat(s: State, a: seq<Step>, b: seq<Step>)
    requires Run(s, a).Some?
    ensures Run(s, a + b) == Run(Run(s, a).value, b)
    decreases |a|
  {
    if a == [] {
      assert a + b == b;
    } else {
      assert (a + b)[0] == a[0] && (a + b)[1..] == a[1..] + b;
      RunConcat(Apply(s, a[0]), a[1..], b);
    }
  }

  // ---------- one message through an empty queue ----------

  predicate Sendable(s: State, c: nat) {
    && |s.generations| > 0 && c < |s.calls| && s.calls[c].phase.Enqueuing? && s.calls[c].attempt == Newest(s)
    && !s.calls[c].expired
    && s.link.sends == [] && s.link.writer.Idle?
  }

  function SendSteps(c: nat): (steps: seq<Step>) {
    [ByCaller(EnqueueStep(c)), ByTransport(WriterTakeStep), ByTransport(WriterSendStep), ByCaller(FinishSendStep(c))]
  }

  /** The call once its message is on the wire and reported. */
  function Sent(call: Call): (call': Call) {
    call.(phase := if call.kind == Remove then Finished(Void) else AwaitingResponse, sent := true,
          sendResult := Some(true))
  }

  function AfterSend(s: State, c: nat): (s': State)
    requires c < |s.calls|
  {
    s.(calls := s.calls[c := Sent(s.calls[c])], names := NamesSent(s, c),
       link := s.link.(wire := s.link.wire + [MessageOf(s.calls[c])]))
  }

  lemma SendThrough(s: State, c: nat)
    requires Sendable(s, c)
    ensures Run(s, SendSteps(c)) == Some(AfterSend(s, c))
  {
    var call := s.calls[c];
    var op := SendOp(MessageOf(call), Some(c));
    var s1 := EnqueueSend(s, c);
    assert s1.link == s.link.(sends := [op]);
    var s2 := WriterTake(s1);
    assert s2.link == s.link.(writer := Holding(op));
    var s3 := WriterSend(s2);
    assert s3.calls[c] == call.(phase := AwaitingSend, sent := true, sendResult := Some(true));
    assert FinishSend(s3, c) == AfterSend(s, c) by {
      assert FinishSend(s3, c).calls == AfterSend(s, c).calls;
    }
    Four(s, s1, s2, s3, SendSteps(c));
  }

  /** Four enabled steps in a row. */
  lemma Four(s: State, s1: State, s2: State, s3: State, steps: seq<Step>)
    requires |steps| == 4
    requires Enabled(s, steps[0]) && s1 == Apply(s, steps[0])
    requires Enabled(s1, steps[1]) && s2 == Apply(s1, steps[1])
    requires Enabled(s2, steps[2]) && s3 == Apply(s2, steps[2])
    requires Enabled(s3, steps[3])
    ensures Run(s, steps) == Some(Apply(s3, steps[3]))
  {
    One(s3, steps[3]);
    assert steps[3..] == [steps[3]];
    assert steps[2..][1..] == steps[3..] && Run(s2, steps[2..]) == Run(s3, steps[3..]);
    assert steps[1..][1..] == steps[2..] && Run(s1, steps[1..]) == Run(s2, steps[2..]);
  }

  lemma One(s: State, step: Step)
    requires Enabled(s, step)
    ensures Run(s, [step]) == Some(Apply(s, step))
  {
    assert [step][1..] == [];
  }

  // ---------- the registration that is overtaken ----------

  function Entered(s: State, id: Id, request: Request): (s': State)
    requires |s.generations| > 0
  {
    s.(reg := s.reg.(pending := map[id := |s.calls|]),
       owner := s.owner[id := |s.calls|],
       calls := s.calls + [NewCall(Fresh, id, request, Newest(s)).(phase := Enqueuing)],
       names := s.names.(issued := s.names.issued + {id}, requests := s.names.requests[id := request],
                         origin := s.names.origin[id := |s.calls|]))
  }

  predicate Free(s: State, id: Id) {
    && AtRest(s) && !s.closing && !s.reg.terminal && s.reg.pending == map[]
    && |s.reg.active| < ACTIVE_LIMIT && id !in s.names.issued && id !in s.names.known && id !in s.reg.active
    && id !in s.link.held
  }

  lemma Enters(s: State, id: Id, request: Request)
    requires Free(s, id)
    ensures Run(s, [ByCaller(SubscribeStep(id, request)), ByCaller(AdmitStep(|s.calls|))]) ==
              Some(Entered(s, id, request))
  {
    var s1 := BeginSubscribe(s, id, request);
    assert AdmitCall(s1, |s.calls|) == Entered(s, id, request);
    var steps := [ByCaller(SubscribeStep(id, request)), ByCaller(AdmitStep(|s.calls|))];
    One(s1, steps[1]);
    assert steps[1..] == [steps[1]];
  }

  function Guessed(s: State, id: Id): (s': State)
    requires |s.generations| > 0
  {
    s.(calls := s.calls + [NewCall(Remove, id, Request("", "", []), Newest(s))])
  }

  lemma Guesses(s: State, id: Id)
    requires Live(s) && !s.reg.terminal && !s.closing && id in s.names.issued && id !in s.names.known &&
             id !in s.reg.active
    requires id in s.reg.pending && s.reg.pending[id] < |s.calls| && s.calls[s.reg.pending[id]].kind == Fresh
    ensures Run(s, [ByCaller(UnsubscribeStep(id))]) == Some(Guessed(s, id))
  {
    assert s.reg.active - {id} == s.reg.active;
    assert BeginUnsubscribe(s, id) == Guessed(s, id);
    One(s, ByCaller(UnsubscribeStep(id)));
  }

  // ---------- the server's side ----------

  function ServeSteps(c: nat): (steps: seq<Step>) {
    [ByTransport(ServerSubscribeStep(true)), ByTransport(ServerUnsubscribeStep), ByTransport(ReadResponseStep),
     ByCaller(ResponseStep(c))]
  }

  predicate Servable(s: State, c: nat, id: Id, request: Request) {
    && Live(s) && !s.reg.terminal && s.link.wire == [Subscribe(id, request), Unsubscribe(id)] && s.link.responses == []
    && id !in s.link.held && s.reg.pending == map[id := c] && c < |s.calls|
    && s.calls[c] == Sent(NewCall(Fresh, id, request, Newest(s)))
  }

  function Settled(s: State, c: nat, id: Id, request: Request): (s': State)
    requires c < |s.calls|
  {
    s.(reg := s.reg.(active := s.reg.active[id := request], pending := map[]),
       link := s.link.(wire := []),
       calls := s.calls[c := s.calls[c].(phase := Finished(Accepted), response := Some(true))],
       names := s.names.(known := s.names.known + {id}))
  }

  lemma Serves(s: State, c: nat, id: Id, request: Request)
    requires Servable(s, c, id, request)
    ensures Run(s, ServeSteps(c)) == Some(Settled(s, c, id, request))
  {
    var s1 := ServerSubscribe(s, true);
    var s2 := s.(link := s.link.(wire := [], responses := [Response(id, true)]));
    ServerForgets(s, c, id, request);
    var s3 := s.(link := s.link.(wire := []), calls := s.calls[c := s.calls[c].(response := Some(true))]);
    assert ReadResponse(s2) == s3;
    AnswerTaken(s3, c, id, request);
    assert s3.calls[c := s.calls[c].(phase := Finished(Accepted), response := Some(true))] ==
           s.calls[c := s.calls[c].(phase := Finished(Accepted), response := Some(true))];
    Four(s, s1, s2, s3, ServeSteps(c));
  }

  lemma ServerForgets(s: State, c: nat, id: Id, request: Request)
    requires Servable(s, c, id, request)
    ensures CanServerUnsubscribe(ServerSubscribe(s, true))
    ensures ServerUnsubscribe(ServerSubscribe(s, true)) ==
              s.(link := s.link.(wire := [], responses := [Response(id, true)]))
  {
    assert s.link.held[id := request] - {id} == s.link.held;
  }

  lemma AnswerTaken(s: State, c: nat, id: Id, request: Request)
    requires Live(s) && !s.reg.terminal && c < |s.calls| && s.reg.pending == map[id := c]
    requires s.calls[c] == Sent(NewCall(Fresh, id, request, Newest(s))).(response := Some(true))
    ensures CanTakeResponse(s, c)
    ensures TakeResponse(s, c) ==
            s.(reg := s.reg.(active := s.reg.active[id := request], pending := map[]),
               calls := s.calls[c := s.calls[c].(phase := Finished(Accepted))],
               names := s.names.(known := s.names.known + {id}))
  {
    assert map[id := c] - {id} == map[];
  }

  // ---------- the whole run ----------

  /** Subscribe `id`, unsubscribe it before the answer, and let everything settle. */
  function Script(c: nat, id: Id, request: Request): (steps: seq<Step>) {
    RegisterSteps(c, id, request) + GuessSteps(c, id) + ServeSteps(c)
  }

  function RegisterSteps(c: nat, id: Id, request: Request): (steps: seq<Step>) {
    [ByCaller(SubscribeStep(id, request)), ByCaller(AdmitStep(c))] + SendSteps(c)
  }

  function GuessSteps(c: nat, id: Id): (steps: seq<Step>) {
    [ByCaller(UnsubscribeStep(id))] + SendSteps(c + 1)
  }

  /** Registered, written, and waiting for the answer. */
  function Unanswered(s: State, id: Id, request: Request): (s': State)
    requires |s.generations| > 0
  {
    AfterSend(Entered(s, id, request), |s.calls|)
  }

  function Overtaken(s: State, id: Id, request: Request): (s': State)
    requires |s.generations| > 0
  {
    AfterSend(Guessed(Unanswered(s, id, request), id), |s.calls| + 1)
  }

  lemma ScriptRuns(s: State, id: Id, request: Request)
    requires Free(s, id)
    ensures Run(s, Script(|s.calls|, id, request)) == Some(Settled(Overtaken(s, id, request), |s.calls|, id, request))
  {
    var c := |s.calls|;
    FirstHalf(s, id, request);
    SecondHalf(s, id, request);
    Serves(Overtaken(s, id, request), c, id, request);
    RunConcat(s, RegisterSteps(c, id, request), GuessSteps(c, id));
    RunConcat(s, RegisterSteps(c, id, request) + GuessSteps(c, id), ServeSteps(c));
  }

  lemma FirstHalf(s: State, id: Id, request: Request)
    requires Free(s, id)
    ensures Run(s, RegisterSteps(|s.calls|, id, request)) == Some(Unanswered(s, id, request))
  {
    Enters(s, id, request);
    SendThrough(Entered(s, id, request), |s.calls|);
    RunConcat(s, [ByCaller(SubscribeStep(id, request)), ByCaller(AdmitStep(|s.calls|))], SendSteps(|s.calls|));
  }

  lemma SecondHalf(s: State, id: Id, request: Request)
    requires Free(s, id)
    ensures Run(Unanswered(s, id, request), GuessSteps(|s.calls|, id)) == Some(Overtaken(s, id, request))
    ensures Servable(Overtaken(s, id, request), |s.calls|, id, request)
  {
    var w := Unanswered(s, id, request);
    Guesses(w, id);
    SendThrough(Guessed(w, id), |s.calls| + 1);
    RunConcat(w, [ByCaller(UnsubscribeStep(id))], SendSteps(|s.calls| + 1));
  }

  lemma RestIsFree(steps: seq<Step>, s: State, id: Id)
    requires Run(Initial, steps) == Some(s) && AtRest(s) && |s.reg.active| < ACTIVE_LIMIT && id !in s.names.issued
    ensures Free(s, id)
  {
    ReachableInv(steps);
    NoLeakedSubscriptions(steps, s);
  }

  lemma SettledQuiet(s: State, id: Id, request: Request)
    requires Free(s, id)
    ensures var t := Settled(Overtaken(s, id, request), |s.calls|, id, request);
            && AtRest(t) && t.reg.active == s.reg.active[id := request] && t.link.held == s.link.held
  {
    var t := Settled(Overtaken(s, id, request), |s.calls|, id, request);
    forall c | 0 <= c < |t.calls| && t.calls[c].attempt == Newest(t)
      ensures t.calls[c].phase.Finished? || t.calls[c].phase.Admitting?
    {
      if c < |s.calls| {
        assert t.calls[c] == s.calls[c];
      }
    }
  }

  /** In every reachable state at rest with room for one more subscription, and for every
      fresh identifier and request: unsubscribing the identifier while its registration
      waits for the answer can end, at rest again, with the identifier active and not
      held by the server. */
  lemma GuessDisagrees(steps: seq<Step>, s: State, id: Id, request: Request)
    requires Run(Initial, steps) == Some(s) && AtRest(s) && |s.reg.active| < ACTIVE_LIMIT && id !in s.names.issued
    ensures var r := Run(Initial, steps + Script(|s.calls|, id, request));
            r.Some? && AtRest(r.value) && id in r.value.reg.active && id !in r.value.link.held
  {
    RestIsFree(steps, s, id);
    ScriptRuns(s, id, request);
    SettledQuiet(s, id, request);
    RunConcat(Initial, steps, Script(|s.calls|, id, request));
  }
}
