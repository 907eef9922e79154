/** The reconnecting stream as a distributed protocol: callers registering and
    removing subscriptions, one FIFO writer and reader per transport attempt, an
    abstract server, and the loop that replaces dead attempts. A step is one
    critical section, one channel operation or one event of the environment. */
module StreamProtocol {
  import opened Options
  import opened StreamRegistry

  // ---------- entities ----------

  datatype Message = Subscribe(id: Id, request: Request) | Unsubscribe(id: Id)

  /** `caller` is the call whose context guards the send; a cleanup send is
      guarded by the attempt itself and has no caller. */
  datatype SendOp = SendOp(message: Message, caller: Option<nat>)

  datatype Response = Response(id: Id, success: bool)

  datatype Writer = Idle | Holding(op: SendOp) | Wrote(id: Id)

  /** The transport of the newest attempt, both ends: the send queue, the
      operation in the writer's hands, the messages on the wire, what the server
      holds and what it has answered. */
  datatype Link = Link(
    sends: seq<SendOp>,
    writer: Writer,
    wire: seq<Message>,
    held: map<Id, Request>,
    responses: seq<Response>)

  datatype Kind = Fresh | Restore | Remove

  /** What the call returns: a registration, nothing without an error, an error. */
  datatype Outcome = Accepted | Void | Failed

  datatype Phase =
    | Admitting
    | Enqueuing
    | AwaitingSend
    | AwaitingResponse
    | Abandoning(result: Outcome)
    | CleaningUp(result: Outcome)
    | Finished(result: Outcome)

  /** A register or unsubscribe call with its entry. `sent` and `abandoned`
      are history: its message was queued, its cleanup was queued. */
  datatype Call = Call(
    kind: Kind,
    id: Id,
    request: Request,
    attempt: nat,
    phase: Phase,
    expired: bool,
    sent: bool,
    sendResult: Option<bool>,
    withdrawn: bool,
    response: Option<bool>,
    abandoned: bool)

  datatype Loop =
    | Snapshot
    | Restoring(todo: seq<(Id, Request)>)
    | Waiting(call: nat, todo: seq<(Id, Request)>)
    | Ready
    | Cleaning
    | Backoff
    | Ended

  /** History of identifiers: every one ever used, every one a caller has seen,
      those whose unsubscribing the newest attempt has to expect, those of them whose
      Unsubscribe a caller queued behind their Subscribe although it was not given them,
      and the request each was created for. */
  datatype Names = Names(
    issued: set<Id>,
    known: set<Id>,
    removed: set<Id>,
    overtaken: set<Id>,
    requests: map<Id, Request>,
    origin: map<Id, nat>)

  /** `generations` lists the attempts so far; `dead` says that the newest one's
      context is cancelled (all older ones are). `owner` is the register call of
      each identifier on the newest attempt, `doomed` the removal whose
      unsubscribe the writer dropped unsent. */
  datatype State = State(
    reg: Registry,
    generations: seq<nat>,
    dead: bool,
    link: Link,
    owner: map<Id, nat>,
    doomed: Option<nat>,
    calls: seq<Call>,
    loop: Loop,
    closing: bool,
    inbox: seq<nat>,
    outputs: seq<nat>,
    names: Names)

  const INBOX_LIMIT: nat := 100

  const EmptyLink: Link := Link([], Idle, [], map[], [])

  function NewCall(kind: Kind, id: Id, request: Request, attempt: nat): (c: Call) {
    Call(kind, id, request, attempt, if kind == Remove then Enqueuing else Admitting,
         false, false, None, false, None, false)
  }

  const Initial: State :=
    State(Registry(Connected, 1, false, Some(0), map[], map[]), [1], false, EmptyLink, map[], None,
          [], Ready, false, [], [], Names({}, {}, {}, {}, map[], map[]))

  // ---------- vocabulary ----------

  function Newest(s: State): (a: int) {
    |s.generations| - 1
  }

  predicate Dead(s: State, a: nat) {
    a != Newest(s) || s.dead
  }

  predicate ContextDone(call: Call) {
    call.expired || call.phase.Finished?
  }

  predicate QueueFull(s: State) {
    |s.link.sends| >= REGISTRATION_LIMIT
  }

  predicate Distinct(ids: seq<Id>) {
    forall i, j :: 0 <= i < j < |ids| ==> ids[i] != ids[j]
  }

  predicate CallerExists(s: State, op: SendOp) {
    op.caller.Some? ==> op.caller.value < |s.calls|
  }

  function SetCall(s: State, c: nat, call: Call): (s': State)
    requires c < |s.calls|
  {
    s.(calls := s.calls[c := call])
  }

  /** `fail`: the registry retires the attempt and its context is cancelled. */
  function Kill(s: State, a: nat): (s': State) {
    if a == Newest(s) then s.(reg := Retired(s.reg, a), dead := true) else s
  }

  function Append(l: Link, op: SendOp): (l': Link) {
    l.(sends := l.sends + [op])
  }

  // ---------- callers ----------

  predicate CanBeginSubscribe(s: State, id: Id) {
    s.reg.attempt.Some? && s.reg.state == Connected && !s.reg.terminal && id !in s.names.issued
  }

  function BeginSubscribe(s: State, id: Id, request: Request): (s': State)
    requires CanBeginSubscribe(s, id)
  {
    s.(calls := s.calls + [NewCall(Fresh, id, request, s.reg.attempt.value)],
       owner := s.owner[id := |s.calls|],
       names := s.names.(issued := s.names.issued + {id},
                         requests := s.names.requests[id := request],
                         origin := s.names.origin[id := |s.calls|]))
  }

  predicate CanAdmit(s: State, c: nat) {
    c < |s.calls| && s.calls[c].phase.Admitting?
  }

  function AdmitCall(s: State, c: nat): (s': State)
    requires CanAdmit(s, c)
  {
    var call := s.calls[c];
    var dead := Dead(s, call.attempt);
    var restoring := call.kind == Restore;
    match AdmissionOf(s.reg, call.attempt, dead, call.id, restoring)
    case Admitted =>
      SetCall(s.(reg := Admit(s.reg, call.attempt, dead, call.id, restoring, c)), c, call.(phase := Enqueuing))
    case AlreadyWithdrawn => SetCall(s, c, call.(phase := Finished(Void)))
    case _ => SetCall(s, c, call.(phase := Finished(Failed)))
  }

  function MessageOf(call: Call): (m: Message) {
    if call.kind == Remove then Unsubscribe(call.id) else Subscribe(call.id, call.request)
  }

  predicate CanEnqueueSend(s: State, c: nat) {
    c < |s.calls| && s.calls[c].phase.Enqueuing? && (s.calls[c].attempt == Newest(s) ==> !QueueFull(s))
  }

  /** A removal that nobody announced overtakes a registration when its message is queued
      behind the one that subscribes. */
  predicate Overtakes(s: State, c: nat)
    requires c < |s.calls|
  {
    var id := s.calls[c].id;
    && s.calls[c].kind == Remove && s.calls[c].attempt == Newest(s) && id !in s.names.removed
    && id in s.owner && s.owner[id] < |s.calls| && s.calls[s.owner[id]].sent
  }

  function NamesSent(s: State, c: nat): (names: Names)
    requires c < |s.calls|
  {
    if Overtakes(s, c) then
      s.names.(removed := s.names.removed + {s.calls[c].id}, overtaken := s.names.overtaken + {s.calls[c].id})
    else s.names
  }

  /** The queue of an older attempt has no reader left; sends to it go nowhere. */
  function EnqueueSend(s: State, c: nat): (s': State)
    requires CanEnqueueSend(s, c)
  {
    var call := s.calls[c];
    SetCall(s, c, call.(phase := AwaitingSend, sent := true)).(
      names := NamesSent(s, c),
      link := if call.attempt == Newest(s) then Append(s.link, SendOp(MessageOf(call), Some(c))) else s.link)
  }

  predicate CanFinishSend(s: State, c: nat) {
    c < |s.calls| && s.calls[c].phase.AwaitingSend? && s.calls[c].sendResult.Some?
  }

  function FinishSend(s: State, c: nat): (s': State)
    requires CanFinishSend(s, c)
  {
    var call := s.calls[c];
    if call.sendResult.value then
      SetCall(s, c, call.(phase := if call.kind == Remove then Finished(Void) else AwaitingResponse))
    else FailCall(s, c)
  }

  predicate CanGiveUp(s: State, c: nat) {
    && c < |s.calls|
    && var call := s.calls[c];
    && (call.phase.Enqueuing? || call.phase.AwaitingSend? || call.phase.AwaitingResponse?)
    && (call.expired || Dead(s, call.attempt) || (call.phase.Enqueuing? && QueueFull(s)))
  }

  /** A failed removal fails its attempt; a failed registration is abandoned. */
  function FailCall(s: State, c: nat): (s': State)
    requires c < |s.calls|
  {
    var call := s.calls[c];
    if call.kind == Remove then SetCall(Kill(s, call.attempt), c, call.(phase := Finished(Failed)))
    else SetCall(s, c, call.(phase := Abandoning(Failed)))
  }

  predicate CanTakeWithdrawal(s: State, c: nat) {
    c < |s.calls| && s.calls[c].phase.AwaitingResponse? && s.calls[c].withdrawn
  }

  function TakeWithdrawal(s: State, c: nat): (s': State)
    requires CanTakeWithdrawal(s, c)
  {
    SetCall(s, c, s.calls[c].(phase := Abandoning(Void)))
  }

  predicate CanTakeResponse(s: State, c: nat) {
    c < |s.calls| && s.calls[c].phase.AwaitingResponse? && s.calls[c].response.Some?
  }

  function Settlement(s: State, c: nat): (v: Completion)
    requires CanTakeResponse(s, c)
  {
    var call := s.calls[c];
    CompletionOf(s.reg, call.attempt, Dead(s, call.attempt), call.expired, call.id, call.kind == Restore, c,
                 call.response.value)
  }

  function TakeResponse(s: State, c: nat): (s': State)
    requires CanTakeResponse(s, c)
  {
    var call := s.calls[c];
    var v := Settlement(s, c);
    var s1 := s.(reg := Complete(s.reg, v, call.id, call.request));
    match v
    case Acknowledged =>
      SetCall(s1.(names := s.names.(known := s.names.known + {call.id})), c, call.(phase := Finished(Accepted)))
    case Refused => SetCall(s1, c, call.(phase := Finished(Failed)))
    case Gone => SetCall(s1, c, call.(phase := Abandoning(Void)))
    case Stale => SetCall(s1, c, call.(phase := Abandoning(Failed)))
  }

  predicate CanAbandon(s: State, c: nat) {
    c < |s.calls| && s.calls[c].phase.Abandoning?
  }

  function AbandonCall(s: State, c: nat): (s': State)
    requires CanAbandon(s, c)
  {
    var call := s.calls[c];
    var dead := Dead(s, call.attempt);
    var next := if MustCleanUp(s.reg, call.attempt, dead, call.id, c)
                then CleaningUp(call.phase.result) else Finished(call.phase.result);
    SetCall(s.(reg := Abandon(s.reg, call.attempt, dead, call.id, c)), c, call.(phase := next))
  }

  predicate CanEnqueueCleanup(s: State, c: nat) {
    c < |s.calls| && s.calls[c].phase.CleaningUp?
  }

  function EnqueueCleanup(s: State, c: nat): (s': State)
    requires CanEnqueueCleanup(s, c)
  {
    var call := s.calls[c];
    var done := Finished(call.phase.result);
    if call.attempt != Newest(s) then SetCall(s, c, call.(phase := done))
    else if !QueueFull(s) then
      SetCall(s, c,
              call.(phase := done, abandoned := true)).(link := Append(s.link, SendOp(Unsubscribe(call.id), None)))
    else SetCall(Kill(s, call.attempt), c, call.(phase := done))
  }

  function Expire(s: State, c: nat): (s': State)
    requires c < |s.calls|
  {
    SetCall(s, c, s.calls[c].(expired := true))
  }

  /** A caller can name any identifier, also one it was never given. */
  predicate CanBeginUnsubscribe(s: State) {
    !s.reg.terminal && !s.closing
  }

  /** Naming an identifier in use that Subscribe has not returned removes nothing. */
  function NamesAfter(names: Names, id: Id): (names': Names) {
    if id in names.issued && id !in names.known then names
    else names.(known := names.known + {id}, issued := names.issued + {id}, removed := names.removed + {id})
  }

  predicate RestorePending(s: State, id: Id) {
    id in s.reg.pending && s.reg.pending[id] < |s.calls| && s.calls[s.reg.pending[id]].kind == Restore
  }

  function BeginUnsubscribe(s: State, id: Id): (s': State)
    requires CanBeginUnsubscribe(s)
  {
    var marked := if RestorePending(s, id)
                  then s.calls[s.reg.pending[id] := s.calls[s.reg.pending[id]].(withdrawn := true)] else s.calls;
    s.(reg := Withdraw(s.reg, id),
       names := NamesAfter(s.names, id),
       calls := if s.reg.attempt.Some? && !Dead(s, s.reg.attempt.value)
                then marked + [NewCall(Remove, id, Request("", "", []), s.reg.attempt.value)] else marked)
  }

  // ---------- the newest attempt: writer, server, reader ----------

  function Report(calls: seq<Call>, caller: Option<nat>, ok: bool): (calls': seq<Call>)
    requires caller.Some? ==> caller.value < |calls|
  {
    if caller.None? then calls
    else calls[caller.value := calls[caller.value].(sendResult := Some(ok))]
  }

  predicate CanWriterTake(s: State) {
    s.link.writer.Idle? && s.link.sends != [] && CallerExists(s, s.link.sends[0])
  }

  function WriterTake(s: State): (s': State)
    requires CanWriterTake(s)
  {
    var op := s.link.sends[0];
    if op.caller.Some? && ContextDone(s.calls[op.caller.value]) then
      s.(calls := Report(s.calls, op.caller, false),
         link := s.link.(sends := s.link.sends[1..]),
         doomed := if op.message.Unsubscribe? then op.caller else s.doomed)
    else s.(link := s.link.(sends := s.link.sends[1..], writer := Holding(op)))
  }

  predicate CanWriterSend(s: State) {
    |s.generations| > 0 && s.link.writer.Holding? && CallerExists(s, s.link.writer.op)
  }

  function WriterSend(s: State): (s': State)
    requires CanWriterSend(s)
  {
    var op := s.link.writer.op;
    s.(calls := Report(s.calls, op.caller, true),
       link := s.link.(wire := s.link.wire + [op.message],
                       writer := if op.caller.None? then Wrote(op.message.id) else Idle))
  }

  function WriterError(s: State): (s': State)
    requires CanWriterSend(s)
  {
    Kill(s.(calls := Report(s.calls, s.link.writer.op.caller, false), link := s.link.(writer := Idle)), Newest(s))
  }

  predicate CanWriterDischarge(s: State) {
    s.link.writer.Wrote?
  }

  predicate EntryOfNewest(s: State, id: Id) {
    id in s.reg.pending && s.reg.pending[id] < |s.calls| && s.calls[s.reg.pending[id]].attempt == Newest(s)
  }

  function WriterDischarge(s: State): (s': State)
    requires CanWriterDischarge(s)
  {
    var id := s.link.writer.id;
    s.(reg := Discharge(s.reg, id, EntryOfNewest(s, id)), link := s.link.(writer := Idle))
  }

  predicate CanServerSubscribe(s: State) {
    s.link.wire != [] && s.link.wire[0].Subscribe?
  }

  function ServerSubscribe(s: State, accept: bool): (s': State)
    requires CanServerSubscribe(s)
  {
    var m := s.link.wire[0];
    s.(link := s.link.(wire := s.link.wire[1..],
                       held := if accept then s.link.held[m.id := m.request] else s.link.held,
                       responses := s.link.responses + [Response(m.id, accept)]))
  }

  predicate CanServerUnsubscribe(s: State) {
    s.link.wire != [] && s.link.wire[0].Unsubscribe?
  }

  function ServerUnsubscribe(s: State): (s': State)
    requires CanServerUnsubscribe(s)
  {
    s.(link := s.link.(wire := s.link.wire[1..], held := s.link.held - {s.link.wire[0].id}))
  }

  predicate CanReadResponse(s: State) {
    s.link.responses != []
  }

  /** The reader hands a response to the entry of the current attempt; the
      entry's slot keeps the first one. */
  function ReadResponse(s: State): (s': State)
    requires CanReadResponse(s)
  {
    var r := s.link.responses[0];
    var takes := s.reg.attempt == Some(Newest(s)) && EntryOfNewest(s, r.id) &&
                 s.calls[s.reg.pending[r.id]].response.None?;
    s.(link := s.link.(responses := s.link.responses[1..]),
       calls := if takes then s.calls[s.reg.pending[r.id] := s.calls[s.reg.pending[r.id]].(response := Some(r.success))]
                else s.calls)
  }

  predicate CanReadDelivery(s: State) {
    |s.generations| > 0 && |s.inbox| < INBOX_LIMIT
  }

  function ReadDelivery(s: State): (s': State)
    requires CanReadDelivery(s)
  {
    s.(inbox := s.inbox + [s.generations[Newest(s)]])
  }

  /** Status first retires a current attempt whose context has ended. */
  function Observed(s: State): (r: Registry) {
    if s.reg.attempt.Some? && Dead(s, s.reg.attempt.value) then Retired(s.reg, s.reg.attempt.value) else s.reg
  }

  predicate CanReceive(s: State) {
    s.inbox != []
  }

  function Receive(s: State): (s': State)
    requires CanReceive(s)
  {
    var r := Observed(s);
    var g := s.inbox[0];
    s.(reg := r, inbox := s.inbox[1..],
       outputs := if !r.terminal && g == r.generation then s.outputs + [g] else s.outputs)
  }

  // ---------- the loop that replaces attempts ----------

  predicate CanTakeSnapshot(s: State, order: seq<Id>) {
    && s.loop.Snapshot? && Distinct(order)
    && (forall i :: 0 <= i < |order| ==> order[i] in s.reg.active)
    && (forall id :: id in s.reg.active ==> id in order)
  }

  function TakeSnapshot(s: State, order: seq<Id>): (s': State)
    requires CanTakeSnapshot(s, order)
  {
    s.(loop := Restoring(seq(|order|, i requires 0 <= i < |order| => (order[i], s.reg.active[order[i]]))))
  }

  predicate CanRestoreNext(s: State) {
    s.loop.Restoring? && s.loop.todo != [] && |s.generations| > 0
  }

  function RestoreNext(s: State): (s': State)
    requires CanRestoreNext(s)
  {
    var (id, request) := s.loop.todo[0];
    s.(calls := s.calls + [NewCall(Restore, id, request, Newest(s))],
       owner := s.owner[id := |s.calls|],
       loop := Waiting(|s.calls|, s.loop.todo[1..]))
  }

  predicate CanRestoreDone(s: State) {
    s.loop.Waiting? && s.loop.call < |s.calls| && s.calls[s.loop.call].phase.Finished? && |s.generations| > 0
  }

  function RestoreDone(s: State): (s': State)
    requires CanRestoreDone(s)
  {
    if s.calls[s.loop.call].phase.result == Failed then Kill(s, Newest(s)).(loop := Cleaning)
    else s.(loop := Restoring(s.loop.todo))
  }

  predicate CanFinishRestore(s: State) {
    s.loop == Restoring([]) && |s.generations| > 0
  }

  function FinishRestore(s: State): (s': State)
    requires CanFinishRestore(s)
  {
    s.(reg := Restored(s.reg, Newest(s), s.dead, s.closing), loop := Ready)
  }

  predicate CanLeaveServe(s: State) {
    s.loop.Ready? && |s.generations| > 0 && (s.dead || s.reg.attempt != Some(Newest(s)))
  }

  function LeaveServe(s: State): (s': State)
    requires CanLeaveServe(s)
  {
    Kill(s, Newest(s)).(loop := Cleaning)
  }

  predicate CanDropPending(s: State) {
    s.loop.Cleaning?
  }

  function DropPending(s: State): (s': State)
    requires CanDropPending(s)
  {
    s.(reg := DropAttempt(s.reg, set id | id in s.reg.pending && EntryOfNewest(s, id)), loop := Backoff)
  }

  predicate CanAttachNext(s: State) {
    s.loop.Backoff? && !s.closing
  }

  function AttachNext(s: State): (s': State)
    requires CanAttachNext(s)
  {
    s.(reg := Attached(s.reg, |s.generations|), generations := s.generations + [s.reg.generation],
       dead := false, link := EmptyLink, owner := map[], doomed := None, loop := Snapshot,
       names := s.names.(removed := {}, overtaken := {}))
  }

  predicate CanTerminate(s: State) {
    s.loop.Backoff?
  }

  function Terminate(s: State): (s': State)
    requires CanTerminate(s)
  {
    s.(reg := Terminated(s.reg), loop := Ended, closing := true)
  }

  function CancelStream(s: State): (s': State) {
    s.(closing := true, dead := true)
  }

  // ---------- runs ----------

  datatype CallerStep =
    | SubscribeStep(newId: Id, request: Request)
    | AdmitStep(c: nat)
    | EnqueueStep(c: nat)
    | FinishSendStep(c: nat)
    | GiveUpStep(c: nat)
    | WithdrawalStep(c: nat)
    | ResponseStep(c: nat)
    | AbandonStep(c: nat)
    | CleanupStep(c: nat)
    | ExpireStep(c: nat)
    | UnsubscribeStep(oldId: Id)

  datatype TransportStep =
    | WriterTakeStep
    | WriterSendStep
    | WriterErrorStep
    | DischargeStep
    | ServerSubscribeStep(accept: bool)
    | ServerUnsubscribeStep
    | ReadResponseStep
    | ReadDeliveryStep
    | ReceiveStep

  datatype LoopStep =
    | RetireStep
    | CancelStep
    | SnapshotStep(order: seq<Id>)
    | RestoreNextStep
    | RestoreDoneStep
    | FinishRestoreStep
    | LeaveStep
    | DropPendingStep
    | AttachStep
    | TerminateStep
    | CloseStep

  datatype Step = ByCaller(caller: CallerStep) | ByTransport(transport: TransportStep) | ByLoop(inLoop: LoopStep)

  predicate CallerEnabled(s: State, step: CallerStep) {
    match step
    case SubscribeStep(id, _) => CanBeginSubscribe(s, id)
    case AdmitStep(c) => CanAdmit(s, c)
    case EnqueueStep(c) => CanEnqueueSend(s, c)
    case FinishSendStep(c) => CanFinishSend(s, c)
    case GiveUpStep(c) => CanGiveUp(s, c)
    case WithdrawalStep(c) => CanTakeWithdrawal(s, c)
    case ResponseStep(c) => CanTakeResponse(s, c)
    case AbandonStep(c) => CanAbandon(s, c)
    case CleanupStep(c) => CanEnqueueCleanup(s, c)
    case ExpireStep(c) => c < |s.calls|
    case UnsubscribeStep(_) => CanBeginUnsubscribe(s)
  }

  function CallerApply(s: State, step: CallerStep): (s': State)
    requires CallerEnabled(s, step)
  {
    match step
    case SubscribeStep(id, request) => BeginSubscribe(s, id, request)
    case AdmitStep(c) => AdmitCall(s, c)
    case EnqueueStep(c) => EnqueueSend(s, c)
    case FinishSendStep(c) => FinishSend(s, c)
    case GiveUpStep(c) => FailCall(s, c)
    case WithdrawalStep(c) => TakeWithdrawal(s, c)
    case ResponseStep(c) => TakeResponse(s, c)
    case AbandonStep(c) => AbandonCall(s, c)
    case CleanupStep(c) => EnqueueCleanup(s, c)
    case ExpireStep(c) => Expire(s, c)
    case UnsubscribeStep(id) => BeginUnsubscribe(s, id)
  }

  predicate TransportEnabled(s: State, step: TransportStep) {
    match step
    case WriterTakeStep => CanWriterTake(s)
    case WriterSendStep => CanWriterSend(s)
    case WriterErrorStep => CanWriterSend(s)
    case DischargeStep => CanWriterDischarge(s)
    case ServerSubscribeStep(_) => CanServerSubscribe(s)
    case ServerUnsubscribeStep => CanServerUnsubscribe(s)
    case ReadResponseStep => CanReadResponse(s)
    case ReadDeliveryStep => CanReadDelivery(s)
    case ReceiveStep => CanReceive(s)
  }

  function TransportApply(s: State, step: TransportStep): (s': State)
    requires TransportEnabled(s, step)
  {
    match step
    case WriterTakeStep => WriterTake(s)
    case WriterSendStep => WriterSend(s)
    case WriterErrorStep => WriterError(s)
    case DischargeStep => WriterDischarge(s)
    case ServerSubscribeStep(accept) => ServerSubscribe(s, accept)
    case ServerUnsubscribeStep => ServerUnsubscribe(s)
    case ReadResponseStep => ReadResponse(s)
    case ReadDeliveryStep => ReadDelivery(s)
    case ReceiveStep => Receive(s)
  }

  predicate LoopEnabled(s: State, step: LoopStep) {
    match step
    case RetireStep => |s.generations| > 0
    case CancelStep => true
    case SnapshotStep(order) => CanTakeSnapshot(s, order)
    case RestoreNextStep => CanRestoreNext(s)
    case RestoreDoneStep => CanRestoreDone(s)
    case FinishRestoreStep => CanFinishRestore(s)
    case LeaveStep => CanLeaveServe(s)
    case DropPendingStep => CanDropPending(s)
    case AttachStep => CanAttachNext(s)
    case TerminateStep => CanTerminate(s)
    case CloseStep => true
  }

  /** Retiring and cancelling may strike at any time: a transport error, an
      activity timeout, a reader failure, a closed parent context. */
  function LoopApply(s: State, step: LoopStep): (s': State)
    requires LoopEnabled(s, step)
  {
    match step
    case RetireStep => s.(reg := Retired(s.reg, Newest(s)))
    case CancelStep => s.(dead := true)
    case SnapshotStep(order) => TakeSnapshot(s, order)
    case RestoreNextStep => RestoreNext(s)
    case RestoreDoneStep => RestoreDone(s)
    case FinishRestoreStep => FinishRestore(s)
    case LeaveStep => LeaveServe(s)
    case DropPendingStep => DropPending(s)
    case AttachStep => AttachNext(s)
    case TerminateStep => Terminate(s)
    case CloseStep => CancelStream(s)
  }

  predicate Enabled(s: State, step: Step) {
    match step
    case ByCaller(x) => CallerEnabled(s, x)
    case ByTransport(x) => TransportEnabled(s, x)
    case ByLoop(x) => LoopEnabled(s, x)
  }

  function Apply(s: State, step: Step): (s': State)
    requires Enabled(s, step)
  {
    match step
    case ByCaller(x) => CallerApply(s, x)
    case ByTransport(x) => TransportApply(s, x)
    case ByLoop(x) => LoopApply(s, x)
  }

  /** The state after a run, if every step of it was enabled. */
  function Run(s: State, steps: seq<Step>): (end: Option<State>)
    decreases |steps|
  {
    if steps == [] then Some(s)
    else if Enabled(s, steps[0]) then Run(Apply(s, steps[0]), steps[1..])
    else None
  }
}
