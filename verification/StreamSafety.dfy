/** Safety of the reconnecting stream over whole runs. */
module StreamSafety {
  import opened Options
  import opened StreamRegistry
  import opened StreamProtocol
  import opened StreamInvariant
  import opened StreamSteps
  import opened StreamLiveSteps
  import opened StreamLinkSteps

  // ---------- one step, the registry part ----------

  lemma LinkFree(s: State, link: Link, doomed: Option<nat>)
    requires Base(s)
    ensures Base(s.(link := link, doomed := doomed))
  {
  }

  lemma WriterTakeBase(s: State)
    requires Base(s) && CanWriterTake(s)
    ensures Base(WriterTake(s))
  {
    var op, s' := s.link.sends[0], WriterTake(s);
    if op.caller.Some? && ContextDone(s.calls[op.caller.value]) {
      ReportBase(s, op, false);
      LinkFree(s.(calls := Report(s.calls, op.caller, false)), s'.link, s'.doomed);
    } else {
      LinkFree(s, s'.link, s'.doomed);
    }
  }

  lemma WriterSendBase(s: State)
    requires Base(s) && CanWriterSend(s)
    ensures Base(WriterSend(s))
  {
    ReportBase(s, s.link.writer.op, true);
  }

  lemma WriterErrorBase(s: State)
    requires Base(s) && CanWriterSend(s)
    ensures Base(WriterError(s))
  {
    var s1 := s.(calls := Report(s.calls, s.link.writer.op.caller, false), link := s.link.(writer := Idle));
    assert Base(s1) by { ReportBase(s, s.link.writer.op, false); }
    BaseKill(s1, Newest(s));
  }

  lemma WriterDischargeBase(s: State)
    requires Base(s) && CanWriterDischarge(s)
    ensures Base(WriterDischarge(s))
  {
    if EntryOfNewest(s, s.link.writer.id) {
      BaseDropPending(s, {s.link.writer.id});
    }
  }

  lemma ReceiveBase(s: State)
    requires Base(s) && CanReceive(s)
    ensures Base(Receive(s))
  {
    ObservedBase(s);
    InboxBase(s.(reg := Observed(s)));
  }

  lemma RetireBase(s: State)
    requires Base(s)
    ensures |s.generations| > 0 && Base(s.(reg := Retired(s.reg, Newest(s))))
  {
  }

  lemma ObservedBase(s: State)
    requires Base(s)
    ensures Base(s.(reg := Observed(s)))
  {
    RetireBase(s);
  }

  /** A delivery of the current generation, or none, leaves the inbox. */
  lemma InboxBase(s: State)
    requires Base(s) && s.inbox != []
    ensures Base(s.(inbox := s.inbox[1..]))
    ensures !s.reg.terminal && s.inbox[0] == s.reg.generation ==>
              Base(s.(inbox := s.inbox[1..], outputs := s.outputs + [s.inbox[0]]))
  {
  }

  lemma FinishRestoreBase(s: State)
    requires Base(s) && CanFinishRestore(s)
    ensures Base(FinishRestore(s))
  {
  }

  lemma LeaveServeBase(s: State)
    requires Base(s) && CanLeaveServe(s)
    ensures Base(LeaveServe(s))
  {
    BaseKill(s, Newest(s));
  }

  lemma CallerBase(s: State, step: CallerStep)
    requires Base(s) && CallerEnabled(s, step)
    ensures Base(CallerApply(s, step))
  {
    match step
    case SubscribeStep(id, request) => BeginSubscribeBase(s, id, request);
    case AdmitStep(c) => AdmitCallBase(s, c);
    case EnqueueStep(c) => EnqueueSendBase(s, c);
    case FinishSendStep(c) => FinishSendBase(s, c);
    case GiveUpStep(c) => FailCallBase(s, c);
    case WithdrawalStep(c) => TakeWithdrawalBase(s, c);
    case ResponseStep(c) => TakeResponseBase(s, c);
    case AbandonStep(c) => AbandonCallBase(s, c);
    case CleanupStep(c) => EnqueueCleanupBase(s, c);
    case ExpireStep(c) => ExpireBase(s, c);
    case UnsubscribeStep(id) => BeginUnsubscribeBase(s, id);
  }

  lemma TransportBase(s: State, step: TransportStep)
    requires Base(s) && TransportEnabled(s, step)
    ensures Base(TransportApply(s, step))
  {
    match step
    case WriterTakeStep => WriterTakeBase(s);
    case WriterSendStep => WriterSendBase(s);
    case WriterErrorStep => WriterErrorBase(s);
    case DischargeStep => WriterDischargeBase(s);
    case ServerSubscribeStep(accept) =>
    case ServerUnsubscribeStep =>
    case ReadResponseStep => ReadResponseBase(s);
    case ReadDeliveryStep =>
    case ReceiveStep => ReceiveBase(s);
  }

  lemma LoopBase(s: State, step: LoopStep)
    requires Base(s) && LoopEnabled(s, step)
    ensures Base(LoopApply(s, step))
  {
    match step
    case RetireStep => RetireBase(s);
    case CancelStep =>
    case SnapshotStep(order) => TakeSnapshotBase(s, order);
    case RestoreNextStep => RestoreNextBase(s);
    case RestoreDoneStep => RestoreDoneBase(s);
    case FinishRestoreStep => FinishRestoreBase(s);
    case LeaveStep => LeaveServeBase(s);
    case DropPendingStep => DropPendingBase(s);
    case AttachStep => AttachNextBase(s);
    case TerminateStep =>
    case CloseStep =>
  }

  // ---------- one step, the live attempt ----------

  lemma AdmitLive(s: State, c: nat)
    requires Base(s) && LiveOk(s) && CanAdmit(s, c)
    ensures LiveOk(AdmitCall(s, c))
  {
    var call := s.calls[c];
    assert CallOk(call, c, s.names, s.reg.active);
    match AdmissionOf(s.reg, call.attempt, Dead(s, call.attempt), call.id, call.kind == Restore)
    case Admitted => AdmittedLive(s, c);
    case AlreadyWithdrawn => InertLive(s, c, call.(phase := Finished(Void)));
    case _ => InertLive(s, c, call.(phase := Finished(Failed)));
  }

  lemma EnqueueLive(s: State, c: nat)
    requires Base(s) && LiveOk(s) && CanEnqueueSend(s, c)
    ensures LiveOk(EnqueueSend(s, c))
  {
    var call := s.calls[c];
    assert CallOk(call, c, s.names, s.reg.active);
    if call.attempt != Newest(s) {
      InertLive(s, c, call.(phase := AwaitingSend, sent := true));
    } else if call.kind == Remove {
      EnqueueRemovalLive(s, c);
    } else {
      EnqueueRegistrationLive(s, c);
    }
  }

  lemma FailLive(s: State, c: nat)
    requires Base(s) && LiveOk(s) && c < |s.calls| && !s.calls[c].phase.Finished? && !s.calls[c].phase.Admitting?
    ensures Live(FailCall(s, c)) ==> LiveOk(FailCall(s, c))
  {
    var call := s.calls[c];
    if call.kind == Remove {
      if call.attempt != Newest(s) {
        InertLive(s, c, call.(phase := Finished(Failed)));
      }
    } else {
      InertLive(s, c, call.(phase := Abandoning(Failed)));
    }
  }

  lemma FinishSendLive(s: State, c: nat)
    requires Base(s) && LiveOk(s) && CanFinishSend(s, c)
    ensures Live(FinishSend(s, c)) ==> LiveOk(FinishSend(s, c))
  {
    var call := s.calls[c];
    if !call.sendResult.value {
      FailLive(s, c);
    } else if call.kind == Remove {
      RemovalSentLive(s, c);
    } else {
      InertLive(s, c, call.(phase := AwaitingResponse));
    }
  }

  lemma WithdrawalLive(s: State, c: nat)
    requires Base(s) && LiveOk(s) && CanTakeWithdrawal(s, c)
    ensures LiveOk(TakeWithdrawal(s, c))
  {
    assert CallOk(s.calls[c], c, s.names, s.reg.active);
    InertLive(s, c, s.calls[c].(phase := Abandoning(Void)));
  }

  lemma ResponseLive(s: State, c: nat)
    requires Base(s) && LiveOk(s) && CanTakeResponse(s, c)
    ensures LiveOk(TakeResponse(s, c))
  {
    var call := s.calls[c];
    assert CallOk(call, c, s.names, s.reg.active);
    match Settlement(s, c)
    case Acknowledged => AcknowledgedLive(s, c);
    case Refused => RefusedLive(s, c);
    case Gone => GoneLive(s, c);
    case Stale => StaleLive(s, c);
  }

  lemma GoneLive(s: State, c: nat)
    requires Base(s) && LiveOk(s) && CanTakeResponse(s, c) && Settlement(s, c) == Gone
    ensures LiveOk(TakeResponse(s, c))
  {
    assert CallOk(s.calls[c], c, s.names, s.reg.active);
    InertLive(s, c, s.calls[c].(phase := Abandoning(Void)));
  }

  lemma StaleLive(s: State, c: nat)
    requires Base(s) && LiveOk(s) && CanTakeResponse(s, c) && Settlement(s, c) == Stale
    ensures LiveOk(TakeResponse(s, c))
  {
    assert CallOk(s.calls[c], c, s.names, s.reg.active);
    InertLive(s, c, s.calls[c].(phase := Abandoning(Failed)));
  }

  /** On a live attempt an abandoned registration always has to be cleaned up;
      an older attempt's registration no longer owns anything. */
  lemma AbandonLive(s: State, c: nat)
    requires Base(s) && Live(s) && LiveOk(s) && CanAbandon(s, c)
    ensures LiveOk(AbandonCall(s, c))
  {
    var call := s.calls[c];
    assert CallOk(call, c, s.names, s.reg.active);
    if call.attempt == Newest(s) {
      InertLive(s, c, call.(phase := CleaningUp(call.phase.result)));
    } else {
      if call.id in s.reg.pending {
        assert PendingEntry(s.reg.pending, s.calls, Newest(s), call.id);
      }
      InertLive(s, c, call.(phase := Finished(call.phase.result)));
    }
  }

  lemma CleanupLive(s: State, c: nat)
    requires Base(s) && LiveOk(s) && CanEnqueueCleanup(s, c)
    ensures Live(EnqueueCleanup(s, c)) ==> LiveOk(EnqueueCleanup(s, c))
  {
    var call := s.calls[c];
    assert CallOk(call, c, s.names, s.reg.active);
    if call.attempt != Newest(s) {
      InertLive(s, c, call.(phase := Finished(call.phase.result)));
    } else if !QueueFull(s) {
      EnqueueCleanupLive(s, c);
    }
  }

  lemma CallerLive(s: State, step: CallerStep)
    requires Base(s) && Live(s) && LiveOk(s) && CallerEnabled(s, step)
    ensures Live(CallerApply(s, step)) ==> LiveOk(CallerApply(s, step))
  {
    match step
    case SubscribeStep(id, request) => BeginSubscribeLive(s, id, request);
    case AdmitStep(c) => AdmitLive(s, c);
    case EnqueueStep(c) => EnqueueLive(s, c);
    case FinishSendStep(c) => FinishSendLive(s, c);
    case GiveUpStep(c) => FailLive(s, c);
    case WithdrawalStep(c) => WithdrawalLive(s, c);
    case ResponseStep(c) => ResponseLive(s, c);
    case AbandonStep(c) => AbandonLive(s, c);
    case CleanupStep(c) => CleanupLive(s, c);
    case ExpireStep(c) => InertLive(s, c, s.calls[c].(expired := true));
    case UnsubscribeStep(id) => BeginUnsubscribeLive(s, id);
  }

  lemma TransportLive(s: State, step: TransportStep)
    requires Base(s) && Live(s) && LiveOk(s) && TransportEnabled(s, step)
    ensures Live(TransportApply(s, step)) ==> LiveOk(TransportApply(s, step))
  {
    match step
    case WriterTakeStep => WriterTakeLive(s);
    case WriterSendStep => WriterSendLive(s);
    case WriterErrorStep =>
    case DischargeStep => WriterDischargeLive(s);
    case ServerSubscribeStep(accept) => ServerSubscribeLive(s, accept);
    case ServerUnsubscribeStep => ServerUnsubscribeLive(s);
    case ReadResponseStep => ReadResponseLive(s);
    case ReadDeliveryStep =>
    case ReceiveStep =>
  }

  lemma FreshCallSide(s: State)
    requires Base(s) && CanAttachNext(s)
    ensures CallSide(AttachNext(s)) && Pipe(AttachNext(s).link) == []
  {
  }

  /** No call has anything to do with an attempt that is newer than all of them. */
  lemma FreshServerSide(calls: seq<Call>, newest: int, names: Names, active: map<Id, Request>)
    requires forall c :: 0 <= c < |calls| ==> calls[c].attempt < newest
    ensures Cleanups(EmptyLink, map[], calls) && ServerSide(EmptyLink, [], map[], calls, newest, names, active)
    ensures NoLeaks(None, active, {}, map[], [], map[], calls, newest)
  {
  }

  lemma FreshAttemptLive(s: State)
    requires Base(s) && CanAttachNext(s)
    ensures LiveOk(AttachNext(s))
  {
    FreshCallSide(s);
    FreshServerSide(s.calls, |s.generations|, s.names, s.reg.active);
  }

  lemma LoopLive(s: State, step: LoopStep)
    requires Base(s) && (Live(s) ==> LiveOk(s)) && LoopEnabled(s, step)
    ensures Live(LoopApply(s, step)) ==> LiveOk(LoopApply(s, step))
  {
    match step
    case RestoreNextStep => if Live(s) { RestoreNextLive(s); }
    case AttachStep => FreshAttemptLive(s);
    case _ =>
  }

  lemma CallerKeepsDead(s: State, step: CallerStep)
    requires CallerEnabled(s, step) && !Live(s)
    ensures !Live(CallerApply(s, step))
  {
  }

  lemma TransportKeepsDead(s: State, step: TransportStep)
    requires TransportEnabled(s, step) && !Live(s)
    ensures !Live(TransportApply(s, step))
  {
  }

  lemma StepInv(s: State, step: Step)
    requires Inv(s) && Enabled(s, step)
    ensures Inv(Apply(s, step))
  {
    match step
    case ByCaller(x) =>
      CallerBase(s, x);
      if Live(s) { CallerLive(s, x); } else { CallerKeepsDead(s, x); }
    case ByTransport(x) =>
      TransportBase(s, x);
      if Live(s) { TransportLive(s, x); } else { TransportKeepsDead(s, x); }
    case ByLoop(x) =>
      LoopBase(s, x);
      LoopLive(s, x);
  }
}
