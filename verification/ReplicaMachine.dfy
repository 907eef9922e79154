/** Every interleaving of one replica connection's critical sections, with the
    other connections' use of the shared ledger as the environment. */
module ReplicaMachine {
  import opened Options
  import opened Sums
  import opened ReplicaConnection

  datatype Step =
    | Record(id: Id)                 // an identifier is recorded, then refused for lack of capacity
    | Admit(id: Id, bytes: int)
    | Acquire(sub: nat)              // the hub acknowledges the registration to the worker
    | Commit(sub: nat, current: bool)
    | EndRegistration(sub: nat)
    | ReturnPending(sub: nat)
    | Retire(sub: nat)               // failure, invalidation, timeout, unsubscribe, page expiry
    | ReturnBackend(sub: nat)        // a handed-over release function runs
    | StartRead(sub: nat, request: Id)
    | FailPage(page: nat)
    | QueuePage(page: nat)
    | AbandonPage(page: nat)
    | FinishPage(page: nat)
    | Ack(sub: nat, request: Id)
    | WriterTake
    | WriterAccept
    | WriterReject
    | WriterDiscard
    | WriterWrote(ok: bool)
    | WriterStop
    | WriterGone
    | Close
    | StartAuth
    | EndAuth
    | StartFlush
    | EndFlush
    | Others(share: Ledger)

  predicate ValidSub(c: Conn, i: nat) {
    i < |c.subs|
  }

  predicate Holding(c: Conn, phase: Phase) {
    c.writer.hand.Some? && c.writer.phase == phase && ValidPage(c, c.writer.hand.value)
  }

  predicate NonNegative(l: Ledger) {
    l.subscriptions >= 0 && l.sourceBytes >= 0 && l.pending >= 0 && l.readers >= 0 && l.pageBytes >= 0
  }

  predicate Within(l: Ledger, cfg: Config) {
    && l.subscriptions <= cfg.subscriptions && l.sourceBytes <= cfg.sourceBytes && l.pending <= cfg.pending
    && l.readers <= cfg.readers && l.pageBytes <= cfg.pageBytes
  }

  function Exchanged(used: Ledger, mine: Ledger, theirs: Ledger): (r: Ledger) {
    Ledger(used.subscriptions - mine.subscriptions + theirs.subscriptions,
           used.sourceBytes - mine.sourceBytes + theirs.sourceBytes,
           used.pending - mine.pending + theirs.pending, used.readers - mine.readers + theirs.readers,
           used.pageBytes - mine.pageBytes + theirs.pageBytes)
  }

  predicate Enabled(c: Conn, step: Step, cfg: Config) {
    match step
    case Record(id) => CanRecord(c, cfg, id)
    case Admit(id, bytes) => CanAdmit(c, cfg, id, bytes)
    case Acquire(i) => ValidSub(c, i) && c.subs[i].registering && c.subs[i].backend.Absent?
    case Commit(i, current) => ValidSub(c, i) && c.subs[i].backend.WithWorker? && (current ==> !c.subs[i].retired)
    case EndRegistration(i) => ValidSub(c, i) && c.subs[i].registering && !c.subs[i].backend.WithWorker?
    case ReturnPending(i) => ValidSub(c, i) && !c.subs[i].registering && c.subs[i].hasPending
    case Retire(i) => CanRetire(c, i)
    case ReturnBackend(i) => ValidSub(c, i) && c.subs[i].backend.Handed?
    case StartRead(i, request) => CanRead(c, cfg, i, request)
    case FailPage(p) => ValidPage(c, p) && c.pages[p].producing
    case QueuePage(p) => Current(c, p) && c.pages[p].producing
    case AbandonPage(p) => ValidPage(c, p) && c.pages[p].producing
    case FinishPage(p) => ValidPage(c, p) && !c.pages[p].producing && !c.pages[p].workDone
    case Ack(i, request) => CanAck(c, i, request)
    case WriterTake =>
      c.writer.hand.None? && c.data != [] && (c.writer.mode.Running? || (c.writer.mode.Stopping? && c.closed))
    case WriterAccept => Holding(c, Took) && Current(c, c.writer.hand.value)
    case WriterReject => Holding(c, Took)
    case WriterDiscard => Holding(c, Discarding)
    case WriterWrote(_) => Holding(c, Writing)
    case WriterStop => c.writer.hand.None? && c.writer.mode.Running?
    case WriterGone => c.writer.hand.None? && c.writer.mode.Stopping? && c.closed && c.data == []
    case Close => CanRetireAll(c)
    case StartAuth => !c.closed && Room(c.used.pending, 1, cfg.pending) && CanRetireAll(c)
    case EndAuth => c.authWorkers > 0
    case StartFlush => !c.closed && Room(c.used.pending, 1, cfg.pending)
    case EndFlush => c.flushWorkers > 0
    case Others(share) => NonNegative(share) && Within(Exchanged(c.used, c.others, share), cfg)
  }

  function Apply(c: Conn, step: Step, cfg: Config): (d: Conn)
    requires Enabled(c, step, cfg)
  {
    match step
    case Record(id) => c.(seen := c.seen + {id})
    case Admit(id, bytes) => ReplicaConnection.Admit(c, id, bytes)
    case Acquire(i) => PutSub(c, i, c.subs[i].(backend := WithWorker))
    case Commit(i, current) => ReplicaConnection.Commit(c, i, current)
    case EndRegistration(i) => ReplicaConnection.EndRegistration(c, i)
    case ReturnPending(i) => ReplicaConnection.ReturnPending(c, i)
    case Retire(i) => RetireSub(c, i)
    case ReturnBackend(i) => PutSub(c, i, c.subs[i].(backend := Returned))
    case StartRead(i, request) => ReplicaConnection.StartRead(c, i, request)
    case FailPage(p) => ReplicaConnection.FailPage(c, p)
    case QueuePage(p) => ReplicaConnection.QueuePage(c, p)
    case AbandonPage(p) => ReplicaConnection.AbandonPage(c, p)
    case FinishPage(p) => ReplicaConnection.FinishPage(c, p)
    case Ack(i, _) => ReplicaConnection.Ack(c, i)
    case WriterTake =>
      c.(data := c.data[1..],
         writer := c.writer.(hand := Some(c.data[0]), phase := if c.writer.mode.Running? then Took else Discarding))
    case WriterAccept => MarkSent(c, c.writer.hand.value).(writer := c.writer.(phase := Writing))
    case WriterReject => c.(writer := c.writer.(phase := Discarding))
    case WriterDiscard => Discard(c, c.writer.hand.value).(writer := c.writer.(hand := None))
    case WriterWrote(ok) =>
      Wrote(c, c.writer.hand.value).(writer := c.writer.(hand := None, mode := if ok then c.writer.mode else Stopping))
    case WriterStop => c.(writer := c.writer.(mode := Stopping))
    case WriterGone => c.(writer := c.writer.(mode := Gone))
    case Close => RetireFrom(c, 0).(closed := true)
    case StartAuth =>
      var d := RetireFrom(c, 0);
      d.(authWorkers := c.authWorkers + 1, used := d.used.(pending := d.used.pending + 1))
    case EndAuth => c.(authWorkers := c.authWorkers - 1, used := c.used.(pending := c.used.pending - 1))
    case StartFlush => c.(flushWorkers := c.flushWorkers + 1, used := c.used.(pending := c.used.pending + 1))
    case EndFlush => c.(flushWorkers := c.flushWorkers - 1, used := c.used.(pending := c.used.pending - 1))
    case Others(share) => c.(used := Exchanged(c.used, c.others, share), others := share)
  }

  function Run(c: Conn, steps: seq<Step>, cfg: Config): (r: Option<Conn>)
    decreases |steps|
  {
    if steps == [] then Some(c)
    else if !Enabled(c, steps[0], cfg) then None
    else Run(Apply(c, steps[0], cfg), steps[1..], cfg)
  }

  /** A fresh connection, while others already use part of the ledger. */
  function Initial(others: Ledger): (c: Conn) {
    Conn(false, map[], {}, [], [], 0, 0, 0, [], Writer(Running, None, Took), 0, 0, others, others)
  }

  // ---------- invariant: subscriptions and pages ----------

  predicate PageOk(subs: seq<Sub>, page: Page, p: nat) {
    && page.sub < |subs|
    && (page.creditReleased <==> Freed(page)) && (page.hasBytes <==> !page.creditReleased)
    && (page.hasRead <==> !page.workDone)
    && (page.producing ==> !page.workDone && !page.bufferHeld && !page.sent)
    && (page.acked ==> page.sent)
    && (page.workDone && !page.bufferHeld && !page.sent ==> page.retired)
    && (!page.acked && !page.retired ==> subs[page.sub].page == Some(p) && !subs[page.sub].retired)
  }

  predicate SubOk(pages: seq<Page>, index: map<Id, nat>, seen: set<Id>, s: Sub, i: nat) {
    && s.id in seen && s.bytes > 0
    && (s.page.Some? ==>
          var p := s.page.value;
          p < |pages| && pages[p].sub == i && !pages[p].acked && !pages[p].retired && !s.retired)
    && (s.hasSource <==> !s.retired || s.registering)
    && (s.registering ==> s.hasPending)
    && (s.backend.Held? ==> !s.retired && s.registered) && (s.backend.WithWorker? ==> s.registering)
    && (!s.retired <==> s.id in index && index[s.id] == i)
  }

  ghost predicate PagesOk(subs: seq<Sub>, pages: seq<Page>) {
    forall p {:trigger PageOk(subs, pages[p], p)} :: 0 <= p < |pages| ==> PageOk(subs, pages[p], p)
  }

  ghost predicate SubsOk(subs: seq<Sub>, pages: seq<Page>, index: map<Id, nat>, seen: set<Id>) {
    forall i {:trigger SubOk(pages, index, seen, subs[i], i)} :: 0 <= i < |subs| ==>
      SubOk(pages, index, seen, subs[i], i)
  }

  predicate IndexOk(subs: seq<Sub>, index: map<Id, nat>) {
    forall id :: id in index ==> index[id] < |subs| && subs[index[id]].id == id
  }

  /** Exactly the buffered pages are in the queue or in the writer's hand. */
  predicate QueueOk(pages: seq<Page>, data: seq<nat>, hand: Option<nat>) {
    && (forall p :: p in data ==> p < |pages|) && (hand.Some? ==> hand.value < |pages|)
    && (forall p :: 0 <= p < |pages| ==> (pages[p].bufferHeld <==> p in data || hand == Some(p)))
    && (forall i, j :: 0 <= i < j < |data| ==> data[i] != data[j])
    && (hand.Some? ==> hand.value !in data)
  }

  predicate WriterOk(pages: seq<Page>, data: seq<nat>, writer: Writer, closed: bool) {
    && (writer.hand.Some? && writer.hand.value < |pages| && writer.phase.Writing? ==> pages[writer.hand.value].sent)
    && (writer.mode.Gone? ==> closed && data == [] && writer.hand.None?)
  }

  ghost predicate Shape(c: Conn) {
    && PagesOk(c.subs, c.pages)
    && SubsOk(c.subs, c.pages, c.index, c.seen)
    && IndexOk(c.subs, c.index)
    && QueueOk(c.pages, c.data, c.writer.hand)
    && WriterOk(c.pages, c.data, c.writer, c.closed)
    && (c.closed ==> c.index == map[])
  }

  // ---------- invariant: counters and ledger ----------

  function CreditOf(p: Page): (n: int) { if p.creditReleased then 0 else 1 }
  function ReadOf(p: Page): (n: int) { if p.hasRead then 1 else 0 }
  function SourceOf(s: Sub): (n: int) { if s.hasSource then 1 else 0 }
  function BytesOf(s: Sub): (n: int) { if s.hasSource then s.bytes else 0 }
  function PendingOf(s: Sub): (n: int) { if s.hasPending then 1 else 0 }

  predicate Counts(c: Conn) {
    && c.credits == Sum(c.pages, CreditOf)
    && c.sourceCount == Sum(c.subs, SourceOf)
    && c.sourceBytes == Sum(c.subs, BytesOf)
    && c.used.subscriptions == c.sourceCount + c.others.subscriptions
    && c.used.sourceBytes == c.sourceBytes + c.others.sourceBytes
    && c.used.pending == Sum(c.subs, PendingOf) + c.authWorkers + c.flushWorkers + c.others.pending
    && c.used.readers == Sum(c.pages, ReadOf) + c.others.readers
    && c.used.pageBytes == FRAME * c.credits + c.others.pageBytes
  }

  predicate Bounded(c: Conn, cfg: Config) {
    NonNegative(c.others) && Within(c.used, cfg) && c.credits <= CreditLimit(cfg)
  }

  ghost predicate Inv(c: Conn, cfg: Config) {
    Shape(c) && Counts(c) && Bounded(c, cfg)
  }
}
