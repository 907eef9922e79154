/** What every reachable state of the stream protocol satisfies. Each predicate
    names exactly the components it reads, so that a step which leaves them
    alone leaves the predicate alone. */
module StreamInvariant {
  import opened Options
  import opened StreamRegistry
  import opened StreamProtocol

  // ---------- the pipeline of the newest attempt ----------

  function Messages(ops: seq<SendOp>): (ms: seq<Message>)
    ensures |ms| == |ops|
    ensures forall k :: 0 <= k < |ops| ==> ms[k] == ops[k].message
  {
    seq(|ops|, k requires 0 <= k < |ops| => ops[k].message)
  }

  /** Operations the writer has not put on the wire yet, oldest first. */
  function Queue(l: Link): (ops: seq<SendOp>) {
    (if l.writer.Holding? then [l.writer.op] else []) + l.sends
  }

  /** Messages the server has not processed yet, oldest first. */
  function Pipe(l: Link): (ms: seq<Message>) {
    l.wire + Messages(Queue(l))
  }

  function Effect(holds: bool, m: Message, id: Id): (r: bool) {
    if m.id != id then holds else m.Subscribe?
  }

  /** Whether the server can end up holding `id` once the pipe has drained. */
  function Final(holds: bool, pipe: seq<Message>, id: Id): (r: bool)
    decreases |pipe|
  {
    if pipe == [] then holds else Final(Effect(holds, pipe[0], id), pipe[1..], id)
  }

  predicate NoSubscribe(pipe: seq<Message>, id: Id) {
    forall k :: 0 <= k < |pipe| && pipe[k].Subscribe? ==> pipe[k].id != id
  }

  lemma {:induction false} FinalSplit(holds: bool, p: seq<Message>, q: seq<Message>, id: Id)
    ensures Final(holds, p + q, id) == Final(Final(holds, p, id), q, id)
    decreases |p|
  {
    if p == [] {
      assert p + q == q;
    } else {
      assert (p + q)[1..] == p[1..] + q;
      FinalSplit(Effect(holds, p[0], id), p[1..], q, id);
    }
  }

  lemma {:induction false} FinalMonotone(pipe: seq<Message>, id: Id)
    ensures Final(false, pipe, id) ==> Final(true, pipe, id)
    decreases |pipe|
  {
    if pipe != [] {
      FinalMonotone(pipe[1..], id);
    }
  }

  lemma {:induction false} FinalWithoutSubscribe(pipe: seq<Message>, id: Id)
    requires NoSubscribe(pipe, id)
    ensures !Final(false, pipe, id)
    decreases |pipe|
  {
    if pipe != [] {
      assert pipe[0] == pipe[0];
      forall k | 0 <= k < |pipe[1..]| && pipe[1..][k].Subscribe?
        ensures pipe[1..][k].id != id
      {
        assert pipe[1..][k] == pipe[k + 1];
      }
      FinalWithoutSubscribe(pipe[1..], id);
    }
  }

  lemma FinalAppend(holds: bool, p: seq<Message>, m: Message, id: Id)
    ensures Final(holds, p + [m], id) == Effect(Final(holds, p, id), m, id)
  {
    FinalSplit(holds, p, [m], id);
    assert [m][1..] == [];
  }

  /** Dropping a subscribe can only lower the final outcome. */
  lemma FinalDrop(holds: bool, p: seq<Message>, m: Message, q: seq<Message>, id: Id)
    requires m.Subscribe? || m.id != id
    ensures Final(holds, p + q, id) ==> Final(holds, p + [m] + q, id)
  {
    FinalSplit(holds, p, q, id);
    FinalSplit(holds, p + [m], q, id);
    FinalAppend(holds, p, m, id);
    FinalMonotone(q, id);
  }

  // ---------- vocabulary ----------

  predicate Registering(call: Call) {
    call.kind != Remove
  }

  predicate InProgress(call: Call) {
    Registering(call) && !call.phase.Admitting? && !call.phase.Finished?
  }

  /** The newest attempt is current and its context is alive. */
  predicate Live(s: State) {
    |s.generations| > 0 && s.reg.attempt == Some(Newest(s)) && !s.dead
  }

  predicate OwnedAs(owner: map<Id, nat>, calls: seq<Call>, id: Id) {
    id in owner && owner[id] < |calls|
  }

  predicate AcceptedHere(owner: map<Id, nat>, calls: seq<Call>, id: Id) {
    OwnedAs(owner, calls, id) && calls[owner[id]].phase == Finished(Accepted)
  }

  predicate Touched(owner: map<Id, nat>, calls: seq<Call>, id: Id) {
    OwnedAs(owner, calls, id) && calls[owner[id]].sent
  }

  predicate UnsubscribeIssued(owner: map<Id, nat>, calls: seq<Call>, removed: set<Id>, id: Id) {
    id in removed || (OwnedAs(owner, calls, id) && calls[owner[id]].abandoned)
  }

  predicate RegistrationInFlight(owner: map<Id, nat>, calls: seq<Call>, id: Id) {
    OwnedAs(owner, calls, id) && InProgress(calls[owner[id]])
  }

  predicate RemovalUnsent(calls: seq<Call>, newest: int, c: nat, id: Id) {
    && c < |calls| && calls[c].kind == Remove && calls[c].id == id
    && calls[c].phase.Enqueuing? && calls[c].attempt == newest
  }

  ghost predicate RemovalPending(calls: seq<Call>, newest: int, id: Id) {
    exists c :: RemovalUnsent(calls, newest, c, id)
  }

  predicate CleanupQueued(l: Link, id: Id) {
    || l.writer == Wrote(id)
    || SendOp(Unsubscribe(id), None) in Queue(l)
  }

  // ---------- registry, identifiers and the loop ----------

  predicate Shape(attempt: Option<nat>, newest: int, calls: seq<Call>) {
    && newest >= 0
    && (attempt.Some? ==> attempt.value == newest)
    && (forall c :: 0 <= c < |calls| ==> calls[c].attempt <= newest)
  }

  predicate Generations(generations: seq<nat>, generation: nat, attempt: Option<nat>) {
    && (forall i, j :: 0 <= i < j < |generations| ==> generations[i] < generations[j])
    && (forall i :: 0 <= i < |generations| ==> generations[i] <= generation)
    && (attempt.None? ==> forall i :: 0 <= i < |generations| ==> generations[i] < generation)
    && (attempt.Some? ==> attempt.value < |generations| && generations[attempt.value] == generation)
  }

  predicate Deliveries(inbox: seq<nat>, outputs: seq<nat>, generation: nat) {
    && (forall i :: 0 <= i < |inbox| ==> inbox[i] <= generation)
    && (forall i :: 0 <= i < |outputs| ==> outputs[i] <= generation)
    && (forall i, j :: 0 <= i < j < |outputs| ==> outputs[i] <= outputs[j])
  }

  predicate Phases(reg: Registry, loop: Loop, closing: bool, dead: bool) {
    && (reg.state == Connected ==> loop.Ready? && reg.attempt.Some?)
    && (loop.Cleaning? || loop.Backoff? || loop.Ended? ==> reg.attempt.None?)
    && (loop.Backoff? || loop.Ended? ==> reg.pending == map[])
    && (reg.terminal ==> loop.Ended?)
    && (closing || loop.Cleaning? || loop.Backoff? || loop.Ended? ==> dead)
  }

  predicate NamesOk(names: Names, active: map<Id, Request>) {
    && active.Keys <= names.known <= names.issued
    && names.removed <= names.known + names.overtaken
    && names.overtaken <= names.issued
    && active.Keys * names.removed <= names.overtaken
    && names.requests.Keys <= names.issued
    && (forall id :: id in active ==> id in names.requests && names.requests[id] == active[id])
  }

  /** How a call's own record, its identifier and the registry hang together. */
  predicate CallOk(call: Call, c: nat, names: Names, active: map<Id, Request>) {
    && call.id in names.issued
    && (call.kind == Remove ==> !call.withdrawn && call.response.None? && !call.abandoned)
    && (call.kind == Restore ==> call.id in names.known)
    && (call.kind == Fresh ==> call.id in names.origin && names.origin[call.id] == c && !call.withdrawn)
    && (call.kind == Fresh && call.phase != Finished(Accepted) ==> call.id !in names.known)
    && (Registering(call) ==> call.id in names.requests && names.requests[call.id] == call.request)
    && (call.withdrawn ==> call.id !in active)
    && (call.phase.Admitting? || call.phase.Enqueuing? ==> !call.sent)
    && (call.abandoned ==> call.phase.Finished? && call.phase.result != Accepted)
    && (call.kind == Remove ==>
          call.phase.Enqueuing? || call.phase.AwaitingSend? || call.phase == Finished(Void) ||
          call.phase == Finished(Failed))
    && (call.phase.Abandoning? || call.phase.CleaningUp? ==> call.phase.result != Accepted)
    && (call.kind == Restore && (call.phase.Abandoning? || call.phase.CleaningUp? || call.phase.Finished?) &&
        call.phase.result == Void
        ==> call.id !in active)
  }

  predicate Calls(calls: seq<Call>, names: Names, active: map<Id, Request>) {
    forall c {:trigger CallOk(calls[c], c, names, active)} :: 0 <= c < |calls| ==> CallOk(calls[c], c, names, active)
  }

  predicate Owners(owner: map<Id, nat>, calls: seq<Call>, newest: int) {
    && (forall c :: 0 <= c < |calls| && Registering(calls[c]) && calls[c].attempt == newest
          ==> calls[c].id in owner && owner[calls[c].id] == c)
    && (forall id :: id in owner ==>
          && owner[id] < |calls|
          && calls[owner[id]].id == id
          && Registering(calls[owner[id]])
          && calls[owner[id]].attempt == newest)
  }

  predicate PendingEntry(pending: map<Id, nat>, calls: seq<Call>, newest: int, id: Id)
    requires id in pending
  {
    && pending[id] < |calls| && calls[pending[id]].id == id && Registering(calls[pending[id]])
    && calls[pending[id]].attempt == newest && !calls[pending[id]].phase.Admitting?
  }

  predicate Pending(pending: map<Id, nat>, calls: seq<Call>, newest: int) {
    && |pending| <= REGISTRATION_LIMIT
    && (forall id {:trigger PendingEntry(pending, calls, newest, id)} :: id in pending ==>
          PendingEntry(pending, calls, newest, id))
  }

  /** Identifiers charged to registrations that may still become active. */
  function FreshPending(pending: map<Id, nat>, calls: seq<Call>): (ids: set<Id>) {
    set id | id in pending && pending[id] < |calls| && calls[pending[id]].kind == Fresh
  }

  predicate Capacity(active: map<Id, Request>, pending: map<Id, nat>, calls: seq<Call>) {
    |active| + |FreshPending(pending, calls)| <= ACTIVE_LIMIT
  }

  predicate TodoOk(todo: seq<(Id, Request)>, owner: map<Id, nat>, names: Names) {
    && (forall i :: 0 <= i < |todo| ==>
          && todo[i].0 in names.known && todo[i].0 !in owner
          && todo[i].0 in names.requests && names.requests[todo[i].0] == todo[i].1)
    && (forall i, j :: 0 <= i < j < |todo| ==> todo[i].0 != todo[j].0)
  }

  predicate InTodo(todo: seq<(Id, Request)>, id: Id) {
    exists i :: 0 <= i < |todo| && todo[i].0 == id
  }

  /** While restoring, each active identifier is acknowledged or still to do. */
  predicate Restoration(loop: Loop, owner: map<Id, nat>, calls: seq<Call>, newest: int, names: Names, reg: Registry) {
    && (loop.Snapshot? ==> owner == map[])
    && (loop.Restoring? ==>
          && TodoOk(loop.todo, owner, names)
          && (forall id :: id in reg.active ==> AcceptedHere(owner, calls, id) || InTodo(loop.todo, id)))
    && (loop.Waiting? ==>
          && TodoOk(loop.todo, owner, names)
          && loop.call < |calls| && calls[loop.call].kind == Restore && calls[loop.call].attempt == newest
          && (forall id :: id in reg.active ==>
                AcceptedHere(owner, calls, id) || id == calls[loop.call].id || InTodo(loop.todo, id)))
    && (reg.state == Connected ==> forall id :: id in reg.active ==> AcceptedHere(owner, calls, id))
  }

  predicate Core(s: State) {
    && Shape(s.reg.attempt, Newest(s), s.calls)
    && Generations(s.generations, s.reg.generation, s.reg.attempt)
    && Deliveries(s.inbox, s.outputs, s.reg.generation)
    && Phases(s.reg, s.loop, s.closing, s.dead)
    && NamesOk(s.names, s.reg.active)
  }

  predicate Ledger(s: State) {
    && Calls(s.calls, s.names, s.reg.active)
    && Owners(s.owner, s.calls, Newest(s))
    && Pending(s.reg.pending, s.calls, Newest(s))
    && Capacity(s.reg.active, s.reg.pending, s.calls)
    && Restoration(s.loop, s.owner, s.calls, Newest(s), s.names, s.reg)
  }

  predicate Base(s: State) {
    Core(s) && Ledger(s)
  }

  // ---------- the live attempt ----------

  /** On a live attempt every running registration keeps its charge. */
  predicate Charged(pending: map<Id, nat>, calls: seq<Call>, newest: int) {
    forall c :: 0 <= c < |calls| && InProgress(calls[c]) && calls[c].attempt == newest
      ==> calls[c].id in pending && pending[calls[c].id] == c
  }

  /** A charge without a running registration has its cleanup under way. */
  predicate Discharging(pending: map<Id, nat>, calls: seq<Call>, l: Link) {
    forall id :: id in pending && pending[id] < |calls| && !InProgress(calls[pending[id]]) ==> CleanupQueued(l, id)
  }

  /** Nothing has come back to a call that has not sent. */
  predicate Unsent(calls: seq<Call>, newest: int) {
    forall c :: 0 <= c < |calls| && calls[c].attempt == newest && !calls[c].sent
      ==> calls[c].response.None? && calls[c].sendResult.None?
  }

  /** A cleanup under way belongs to a registration that was abandoned. */
  ghost predicate Cleanups(l: Link, owner: map<Id, nat>, calls: seq<Call>) {
    forall id :: CleanupQueued(l, id) ==> OwnedAs(owner, calls, id) && calls[owner[id]].abandoned
  }

  predicate QueueEntry(op: SendOp, calls: seq<Call>, newest: int) {
    && (op.caller.None? ==> op.message.Unsubscribe?)
    && (op.caller.Some? ==>
          && op.caller.value < |calls|
          && var call := calls[op.caller.value];
          && call.id == op.message.id && call.attempt == newest
          && (call.kind == Remove <==> op.message.Unsubscribe?)
          && call.sent && call.sendResult.None?
          && (call.kind == Remove ==> call.phase.AwaitingSend?))
  }

  predicate Queued(q: seq<SendOp>, calls: seq<Call>, newest: int) {
    && (forall k {:trigger QueueEntry(q[k], calls, newest)} :: 0 <= k < |q| ==> QueueEntry(q[k], calls, newest))
    && (forall i, j :: 0 <= i < j < |q| && q[i].caller.Some? ==> q[i].caller != q[j].caller)
  }

  predicate DoomedOk(doomed: Option<nat>, calls: seq<Call>, newest: int) {
    doomed.Some? ==>
      && doomed.value < |calls| && calls[doomed.value].kind == Remove && calls[doomed.value].attempt == newest
      && calls[doomed.value].phase.AwaitingSend? && calls[doomed.value].sendResult == Some(false)
  }

  /** Each subscribe belongs to one sent registration and travels once. */
  predicate Subscribes(p: seq<Message>, owner: map<Id, nat>, calls: seq<Call>, requests: map<Id, Request>) {
    && (forall k :: 0 <= k < |p| && p[k].Subscribe? ==>
          Touched(owner, calls, p[k].id) && p[k].id in requests && requests[p[k].id] == p[k].request)
    && (forall i, j :: 0 <= i < j < |p| && p[i].Subscribe? && p[j].Subscribe? ==> p[i].id != p[j].id)
  }

  predicate Server(held: map<Id, Request>, p: seq<Message>, owner: map<Id, nat>, calls: seq<Call>,
                   requests: map<Id, Request>)
  {
    forall id :: id in held ==>
      Touched(owner, calls, id) && NoSubscribe(p, id) && id in requests && requests[id] == held[id]
  }

  predicate Verdict(held: map<Id, Request>, p: seq<Message>, owner: map<Id, nat>, calls: seq<Call>,
                    removed: set<Id>, id: Id, success: bool)
  {
    && Touched(owner, calls, id)
    && NoSubscribe(p, id)
    && (success ==> id in held || UnsubscribeIssued(owner, calls, removed, id))
    && (!success ==> id !in held)
  }

  predicate Responses(rs: seq<Response>, held: map<Id, Request>, p: seq<Message>, owner: map<Id, nat>,
                      calls: seq<Call>, removed: set<Id>)
  {
    forall k {:trigger Verdict(held, p, owner, calls, removed, rs[k].id, rs[k].success)} :: 0 <= k < |rs| ==>
      Verdict(held, p, owner, calls, removed, rs[k].id, rs[k].success)
  }

  predicate Answers(held: map<Id, Request>, p: seq<Message>, owner: map<Id, nat>, calls: seq<Call>, newest: int,
                    removed: set<Id>)
  {
    forall c {:trigger Verdict(held, p, owner, calls, removed, calls[c].id, calls[c].response.value)} ::
      0 <= c < |calls| && Registering(calls[c]) && calls[c].attempt == newest && calls[c].response.Some?
      ==> Verdict(held, p, owner, calls, removed, calls[c].id, calls[c].response.value)
  }

  /** An unsubscribe with nothing before it that it could undo. */
  predicate Harmless(held: map<Id, Request>, p: seq<Message>, k: nat)
    requires k < |p|
  {
    p[k].id !in held && NoSubscribe(p[..k], p[k].id)
  }

  predicate Unsubscribes(held: map<Id, Request>, p: seq<Message>, owner: map<Id, nat>, calls: seq<Call>,
                         removed: set<Id>)
  {
    forall k {:trigger Harmless(held, p, k)} :: 0 <= k < |p| && p[k].Unsubscribe? ==>
      UnsubscribeIssued(owner, calls, removed, p[k].id) || Harmless(held, p, k)
  }

  predicate HeldWhenAccepted(active: map<Id, Request>, held: map<Id, Request>, owner: map<Id, nat>,
                             calls: seq<Call>, overtaken: set<Id>)
  {
    forall id :: id in active && id !in overtaken && AcceptedHere(owner, calls, id) ==> id in held
  }

  /** The heart of the matter: an identifier that is not active ends up absent from the
      server, unless a call on it has yet to send; one that was overtaken ends up absent
      in any case. */
  ghost predicate NoLeak(active: map<Id, Request>, overtaken: set<Id>, held: map<Id, Request>, p: seq<Message>,
                         owner: map<Id, nat>, calls: seq<Call>, newest: int, id: Id)
  {
    && (id in overtaken ==> !Final(id in held, p, id))
    && (id !in active ==>
          !Final(id in held, p, id) || RegistrationInFlight(owner, calls, id) || RemovalPending(calls, newest, id))
  }

  ghost predicate NoLeaks(doomed: Option<nat>, active: map<Id, Request>, overtaken: set<Id>, held: map<Id, Request>,
                          p: seq<Message>, owner: map<Id, nat>, calls: seq<Call>, newest: int) {
    && (forall id :: id in overtaken ==> Touched(owner, calls, id))
    && (doomed.None? ==>
          forall id {:trigger NoLeak(active, overtaken, held, p, owner, calls, newest, id)} ::
            NoLeak(active, overtaken, held, p, owner, calls, newest, id))
  }

  predicate CallSide(s: State) {
    && Charged(s.reg.pending, s.calls, Newest(s))
    && Discharging(s.reg.pending, s.calls, s.link)
    && Unsent(s.calls, Newest(s))
    && Queued(Queue(s.link), s.calls, Newest(s))
    && DoomedOk(s.doomed, s.calls, Newest(s))
  }

  predicate ServerSide(
      link: Link, p: seq<Message>, owner: map<Id, nat>, calls: seq<Call>, newest: int, names: Names,
      active: map<Id, Request>)
  {
    && Subscribes(p, owner, calls, names.requests)
    && Server(link.held, p, owner, calls, names.requests)
    && Responses(link.responses, link.held, p, owner, calls, names.removed)
    && Answers(link.held, p, owner, calls, newest, names.removed)
    && Unsubscribes(link.held, p, owner, calls, names.removed)
    && HeldWhenAccepted(active, link.held, owner, calls, names.overtaken)
  }

  ghost predicate LiveOk(s: State) {
    && CallSide(s)
    && Cleanups(s.link, s.owner, s.calls)
    && ServerSide(s.link, Pipe(s.link), s.owner, s.calls, Newest(s), s.names, s.reg.active)
    && NoLeaks(s.doomed, s.reg.active, s.names.overtaken, s.link.held, Pipe(s.link), s.owner, s.calls, Newest(s))
  }

  ghost predicate Inv(s: State) {
    Base(s) && (Live(s) ==> LiveOk(s))
  }

}
