/** One replica data connection: subscriptions, page credits, the data queue and
    the connection's share of the global reservation ledger. Each function is one
    critical section. Subscriptions and pages are numbered in creation order. */
module ReplicaConnection {
  import opened Options

  type Id = string

  /** Bytes reserved for one page frame: 16 MiB of page and 1 KiB of envelope. */
  const FRAME: int := 16777216 + 1024

  /** Capacity of the data channel. */
  const DATA_CAPACITY: nat := 4

  datatype Config = Config(
    subscriptions: int, subscriptionsPerConnection: int, pending: int, sourceBytes: int, sourceBytesPerConnection: int,
    readers: int, pageBytes: int, pageCredits: int)

  function CreditLimit(cfg: Config): (n: int) {
    if cfg.pageCredits < 4 then cfg.pageCredits else 4
  }

  /** Where a subscription's upstream registration is: not yet made, in the hands
      of its worker, stored, handed to a caller that will release it, released. */
  datatype Backend = Absent | WithWorker | Held | Handed | Returned

  datatype Sub = Sub(
    id: Id, bytes: int, registering: bool, registered: bool, retired: bool,
    hasSource: bool, hasPending: bool, backend: Backend, page: Option<nat>, lastAck: Option<Id>)

  /** `producing` holds until the page's worker has queued a frame or given up. */
  datatype Page = Page(
    sub: nat, request: Id, producing: bool, workDone: bool, bufferHeld: bool, sent: bool, acked: bool, retired: bool,
    creditReleased: bool, hasRead: bool, hasBytes: bool)

  datatype Mode = Running | Stopping | Gone
  datatype Phase = Took | Writing | Discarding
  datatype Writer = Writer(mode: Mode, hand: Option<nat>, phase: Phase)

  /** Global reservations. */
  datatype Ledger = Ledger(subscriptions: int, sourceBytes: int, pending: int, readers: int, pageBytes: int)

  datatype Conn = Conn(
    closed: bool, index: map<Id, nat>, seen: set<Id>, subs: seq<Sub>, pages: seq<Page>,
    credits: int, sourceCount: int, sourceBytes: int, data: seq<nat>, writer: Writer,
    authWorkers: nat, flushWorkers: nat, used: Ledger, others: Ledger)

  // ---------- pages ----------

  /** Finished with the peer, the worker and the buffer. */
  predicate Freed(p: Page) {
    (p.acked || p.retired) && p.workDone && !p.bufferHeld
  }

  function Settled(p: Page): (q: Page) {
    if Freed(p) then p.(creditReleased := true, hasBytes := false) else p
  }

  /** Stores a page and returns its credit and bytes once it is finished. */
  function PutPage(c: Conn, i: nat, p: Page): (d: Conn)
    requires i < |c.pages|
  {
    c.(pages := c.pages[i := Settled(p)],
       credits := c.credits - (if Freed(p) && !p.creditReleased then 1 else 0),
       used := c.used.(pageBytes := c.used.pageBytes - (if Freed(p) && p.hasBytes then FRAME else 0)))
  }

  function Unlinked(sub: Sub, p: nat): (r: Sub) {
    if sub.page == Some(p) then sub.(page := None) else sub
  }

  predicate ValidPage(c: Conn, p: nat) {
    p < |c.pages| && c.pages[p].sub < |c.subs|
  }

  /** Ends a page: `x` is its new record, its subscription lets go of it. */
  function EndPage(c: Conn, p: nat, x: Page): (d: Conn)
    requires ValidPage(c, p)
  {
    var i := c.pages[p].sub;
    PutPage(c.(subs := c.subs[i := Unlinked(c.subs[i], p)]), p, x)
  }

  // ---------- subscriptions ----------

  /** Returns the source reservation once the subscription is retired and its
      registration worker has ended. */
  function FinishSource(c: Conn, i: nat): (d: Conn)
    requires i < |c.subs|
  {
    var s := c.subs[i];
    if s.retired && !s.registering && s.hasSource then
      c.(subs := c.subs[i := s.(hasSource := false)], sourceCount := c.sourceCount - 1,
         sourceBytes := c.sourceBytes - s.bytes,
         used := c.used.(subscriptions := c.used.subscriptions - 1, sourceBytes := c.used.sourceBytes - s.bytes))
    else c
  }

  function RetiredSub(s: Sub): (r: Sub) {
    s.(retired := true, page := None, backend := if s.backend.Held? then Handed else s.backend)
  }

  function Unindexed(c: Conn, i: nat): (d: Conn)
    requires i < |c.subs|
  {
    var id := c.subs[i].id;
    if id in c.index && c.index[id] == i then c.(index := c.index - {id}) else c
  }

  function RetirePage(c: Conn, i: nat): (d: Conn)
    requires i < |c.subs| && (c.subs[i].page.Some? ==> c.subs[i].page.value < |c.pages|)
  {
    match c.subs[i].page
    case None => c
    case Some(p) => PutPage(c, p, c.pages[p].(retired := true))
  }

  predicate CanRetire(c: Conn, i: nat) {
    i < |c.subs| && (c.subs[i].page.Some? ==> c.subs[i].page.value < |c.pages|)
  }

  function RetireSub(c: Conn, i: nat): (d: Conn)
    requires CanRetire(c, i)
    ensures |d.subs| == |c.subs| && |d.pages| == |c.pages|
  {
    if c.subs[i].retired then c
    else
      var e := RetirePage(Unindexed(c, i), i);
      FinishSource(e.(subs := e.subs[i := RetiredSub(c.subs[i])]), i)
  }

  predicate CanRetireAll(c: Conn) {
    forall i :: 0 <= i < |c.subs| ==> CanRetire(c, i)
  }

  lemma RetireKeepsCan(c: Conn, k: nat)
    requires k < |c.subs| && CanRetireAll(c)
    ensures CanRetireAll(RetireSub(c, k))
  {
    assert CanRetire(c, k);
    var d := RetireSub(c, k);
    forall i | 0 <= i < |d.subs| ensures CanRetire(d, i) {
      assert CanRetire(c, i);
    }
  }

  /** Retires every subscription from number `k` on. */
  function RetireFrom(c: Conn, k: nat): (d: Conn)
    requires k <= |c.subs| && CanRetireAll(c)
    ensures |d.subs| == |c.subs| && |d.pages| == |c.pages|
    decreases |c.subs| - k
  {
    if k == |c.subs| then c
    else
      assert CanRetire(c, k);
      RetireKeepsCan(c, k);
      RetireFrom(RetireSub(c, k), k + 1)
  }

  // ---------- subscribing ----------

  predicate Room(used: int, amount: int, maximum: int) {
    amount > 0 && amount <= maximum - used
  }

  /** A subscription identifier is recorded before any capacity is checked. */
  predicate CanRecord(c: Conn, cfg: Config, id: Id) {
    !c.closed && id !in c.seen && |c.seen| < cfg.subscriptions
  }

  predicate CanAdmit(c: Conn, cfg: Config, id: Id, bytes: int) {
    && CanRecord(c, cfg, id)
    && c.sourceCount < cfg.subscriptionsPerConnection && bytes <= cfg.sourceBytesPerConnection - c.sourceBytes
    && bytes > 0 && c.used.subscriptions < cfg.subscriptions && bytes <= cfg.sourceBytes - c.used.sourceBytes
    && Room(c.used.pending, 1, cfg.pending)
  }

  function Admit(c: Conn, id: Id, bytes: int): (d: Conn) {
    var s := Sub(id, bytes, true, false, false, true, true, Absent, None, None);
    c.(seen := c.seen + {id}, subs := c.subs + [s], index := c.index[id := |c.subs|],
       sourceCount := c.sourceCount + 1, sourceBytes := c.sourceBytes + bytes,
       used := c.used.(subscriptions := c.used.subscriptions + 1, sourceBytes := c.used.sourceBytes + bytes,
                       pending := c.used.pending + 1))
  }

  function PutSub(c: Conn, i: nat, s: Sub): (d: Conn)
    requires i < |c.subs|
  {
    c.(subs := c.subs[i := s])
  }

  /** The worker stores the upstream registration, or releases it when the
      subscription is no longer current. */
  function Commit(c: Conn, i: nat, current: bool): (d: Conn)
    requires i < |c.subs|
  {
    var s := c.subs[i];
    PutSub(c, i, if current then s.(registered := true, backend := Held) else s.(backend := Returned))
  }

  function EndRegistration(c: Conn, i: nat): (d: Conn)
    requires i < |c.subs|
  {
    FinishSource(PutSub(c, i, c.subs[i].(registering := false)), i)
  }

  function ReturnPending(c: Conn, i: nat): (d: Conn)
    requires i < |c.subs|
  {
    PutSub(c, i, c.subs[i].(hasPending := false)).(used := c.used.(pending := c.used.pending - 1))
  }

  // ---------- reading pages ----------

  predicate CanRead(c: Conn, cfg: Config, i: nat, request: Id) {
    && i < |c.subs| && !c.subs[i].retired && c.subs[i].registered && c.subs[i].page.None?
    && c.subs[i].lastAck != Some(request)
    && c.credits < CreditLimit(cfg) && Room(c.used.readers, 1, cfg.readers)
    && Room(c.used.pageBytes, FRAME, cfg.pageBytes)
  }

  function StartRead(c: Conn, i: nat, request: Id): (d: Conn)
    requires i < |c.subs|
  {
    c.(pages := c.pages + [Page(i, request, true, false, false, false, false, false, false, true, true)],
       subs := c.subs[i := c.subs[i].(page := Some(|c.pages|))], credits := c.credits + 1,
       used := c.used.(readers := c.used.readers + 1, pageBytes := c.used.pageBytes + FRAME))
  }

  /** The page is still the current one of a subscription in force. */
  predicate Current(c: Conn, p: nat) {
    ValidPage(c, p) && !c.closed && !c.subs[c.pages[p].sub].retired && c.subs[c.pages[p].sub].page == Some(p) &&
    !c.pages[p].retired
  }

  function FailPage(c: Conn, p: nat): (d: Conn)
    requires ValidPage(c, p)
  {
    EndPage(c, p, c.pages[p].(retired := true, producing := false))
  }

  /** The worker queues its frame; with a full queue the connection is closed. */
  function QueuePage(c: Conn, p: nat): (d: Conn)
    requires p < |c.pages|
  {
    if |c.data| < DATA_CAPACITY then
      c.(pages := c.pages[p := c.pages[p].(bufferHeld := true, producing := false)], data := c.data + [p])
    else c.(pages := c.pages[p := c.pages[p].(bufferHeld := false, producing := false)])
  }

  function AbandonPage(c: Conn, p: nat): (d: Conn)
    requires p < |c.pages|
  {
    c.(pages := c.pages[p := c.pages[p].(producing := false)])
  }

  /** The worker's last act. */
  function FinishPage(c: Conn, p: nat): (d: Conn)
    requires ValidPage(c, p)
  {
    var page := c.pages[p].(workDone := true, hasRead := false);
    var e := c.(used := c.used.(readers := c.used.readers - 1));
    if !page.bufferHeld && !page.sent && !page.acked then EndPage(e, p, page.(retired := true)) else PutPage(e, p, page)
  }

  predicate CanAck(c: Conn, i: nat, request: Id) {
    && i < |c.subs| && !c.subs[i].retired && c.subs[i].registered && c.subs[i].lastAck != Some(request)
    && c.subs[i].page.Some? && c.subs[i].page.value < |c.pages|
    && c.pages[c.subs[i].page.value].request == request && c.pages[c.subs[i].page.value].sent
  }

  function Ack(c: Conn, i: nat): (d: Conn)
    requires i < |c.subs| && c.subs[i].page.Some? && c.subs[i].page.value < |c.pages|
  {
    var p := c.subs[i].page.value;
    var s := c.subs[i].(page := None, lastAck := Some(c.pages[p].request));
    PutPage(c.(subs := c.subs[i := s]), p, c.pages[p].(acked := true))
  }

  // ---------- writing ----------

  function Discard(c: Conn, p: nat): (d: Conn)
    requires ValidPage(c, p)
  {
    EndPage(c, p, c.pages[p].(bufferHeld := false, retired := true))
  }

  function MarkSent(c: Conn, p: nat): (d: Conn)
    requires p < |c.pages|
  {
    c.(pages := c.pages[p := c.pages[p].(sent := true)])
  }

  function Wrote(c: Conn, p: nat): (d: Conn)
    requires p < |c.pages|
  {
    PutPage(c, p, c.pages[p].(bufferHeld := false))
  }

  predicate QueueValid(c: Conn) {
    forall p :: p in c.data ==> ValidPage(c, p)
  }

  lemma DiscardKeepsQueue(c: Conn)
    requires QueueValid(c) && c.data != []
    ensures ValidPage(c, c.data[0]) && QueueValid(Discard(c.(data := c.data[1..]), c.data[0]))
  {
    assert c.data[0] in c.data;
    var d := Discard(c.(data := c.data[1..]), c.data[0]);
    forall p | p in d.data ensures ValidPage(d, p) {
      assert p in c.data;
    }
  }

  /** Drops every frame left in the queue, oldest first. */
  function DiscardAll(c: Conn): (d: Conn)
    requires QueueValid(c)
    ensures d.data == []
    decreases |c.data|
  {
    if c.data == [] then c
    else
      DiscardKeepsQueue(c);
      DiscardAll(Discard(c.(data := c.data[1..]), c.data[0]))
  }
}
