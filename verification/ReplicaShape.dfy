/** Subscriptions, pages, the queue and the writer stay consistent at every step. */
module ReplicaShape {
  import opened Options
  import opened ReplicaConnection
  import opened ReplicaMachine

  // ---------- generic updates ----------

  /** A page changes without starting or ending. */
  lemma PageTouched(subs: seq<Sub>, pages: seq<Page>, index: map<Id, nat>, seen: set<Id>, p: nat, x: Page)
    requires PagesOk(subs, pages) && SubsOk(subs, pages, index, seen) && p < |pages| && PageOk(subs, x, p)
    requires x.sub == pages[p].sub && x.acked == pages[p].acked && x.retired == pages[p].retired
    ensures PagesOk(subs, pages[p := x]) && SubsOk(subs, pages[p := x], index, seen)
  {
    var after := pages[p := x];
    forall q | 0 <= q < |after| ensures PageOk(subs, after[q], q) {
      assert q != p ==> PageOk(subs, pages[q], q);
    }
    forall i | 0 <= i < |subs| ensures SubOk(after, index, seen, subs[i], i) {
      assert SubOk(pages, index, seen, subs[i], i);
    }
  }

  /** A page ends and its subscription lets go of it. */
  lemma PageEnded(subs: seq<Sub>, pages: seq<Page>, index: map<Id, nat>, seen: set<Id>, p: nat, x: Page, y: Sub)
    requires PagesOk(subs, pages) && SubsOk(subs, pages, index, seen) && p < |pages|
    requires x.sub == pages[p].sub < |subs| && (x.acked || x.retired) && PageOk(subs, x, p)
    requires var s := subs[x.sub]; y == Unlinked(s, p).(lastAck := y.lastAck)
    ensures PagesOk(subs[x.sub := y], pages[p := x]) && SubsOk(subs[x.sub := y], pages[p := x], index, seen)
  {
    var i := x.sub;
    var after, held := pages[p := x], subs[i := y];
    forall q | 0 <= q < |after| ensures PageOk(held, after[q], q) {
      assert PageOk(subs, pages[q], q);
      OtherPage(subs, pages[q], q, p, y, i);
    }
    forall j | 0 <= j < |held| ensures SubOk(after, index, seen, held[j], j) {
      assert SubOk(pages, index, seen, subs[j], j);
      OtherSub(pages, index, seen, subs[j], j, p, x);
    }
  }

  lemma OtherPage(subs: seq<Sub>, page: Page, q: nat, p: nat, y: Sub, i: nat)
    requires PageOk(subs, page, q) && i < |subs| && y == Unlinked(subs[i], p).(lastAck := y.lastAck)
    ensures q != p ==> PageOk(subs[i := y], page, q)
  {
  }

  lemma OtherSub(pages: seq<Page>, index: map<Id, nat>, seen: set<Id>, s: Sub, j: nat, p: nat, x: Page)
    requires SubOk(pages, index, seen, s, j) && p < |pages|
    ensures SubOk(pages[p := x], index, seen, Unlinked(s, p), j)
    ensures pages[p].sub != j ==> SubOk(pages[p := x], index, seen, s, j)
  {
  }

  /** A subscription changes without touching its page or its retirement. */
  lemma SubTouched(subs: seq<Sub>, pages: seq<Page>, index: map<Id, nat>, seen: set<Id>, i: nat, y: Sub)
    requires PagesOk(subs, pages) && SubsOk(subs, pages, index, seen) && i < |subs|
    requires SubOk(pages, index, seen, y, i) && y.page == subs[i].page && y.retired == subs[i].retired &&
             y.id == subs[i].id
    ensures PagesOk(subs[i := y], pages) && SubsOk(subs[i := y], pages, index, seen)
    ensures IndexOk(subs, index) ==> IndexOk(subs[i := y], index)
  {
    var held := subs[i := y];
    forall q | 0 <= q < |pages| ensures PageOk(held, pages[q], q) {
      assert PageOk(subs, pages[q], q);
    }
    forall j | 0 <= j < |held| ensures SubOk(pages, index, seen, held[j], j) {
      assert j != i ==> SubOk(pages, index, seen, subs[j], j);
    }
  }

  /** A subscription without a page is retired and leaves the index. */
  lemma SubRetired(subs: seq<Sub>, pages: seq<Page>, index: map<Id, nat>, seen: set<Id>, i: nat, y: Sub)
    requires PagesOk(subs, pages) && SubsOk(subs, pages, index, seen) && IndexOk(subs, index) && i < |subs|
    requires !subs[i].retired && subs[i].page.None?
    requires y == RetiredSub(subs[i]).(hasSource := subs[i].registering)
    ensures var rest := index - {subs[i].id};
            PagesOk(subs[i := y], pages) && SubsOk(subs[i := y], pages, rest, seen) && IndexOk(subs[i := y], rest)
  {
    var held, rest := subs[i := y], index - {subs[i].id};
    assert SubOk(pages, index, seen, subs[i], i);
    forall q | 0 <= q < |pages| ensures PageOk(held, pages[q], q) {
      assert PageOk(subs, pages[q], q);
    }
    forall j | 0 <= j < |held| ensures SubOk(pages, rest, seen, held[j], j) {
      assert SubOk(pages, index, seen, subs[j], j);
    }
  }

  lemma QueueKept(pages: seq<Page>, data: seq<nat>, writer: Writer, closed: bool, p: nat, x: Page)
    requires QueueOk(pages, data, writer.hand) && WriterOk(pages, data, writer, closed) && p < |pages|
    requires x.bufferHeld == pages[p].bufferHeld && (pages[p].sent ==> x.sent)
    ensures QueueOk(pages[p := x], data, writer.hand) && WriterOk(pages[p := x], data, writer, closed)
  {
  }

  // ---------- pages ----------

  lemma SettledOk(subs: seq<Sub>, x: Page, p: nat)
    requires x.sub < |subs| && (x.hasBytes <==> !x.creditReleased) && (x.hasRead <==> !x.workDone)
    requires x.creditReleased ==> Freed(x)
    requires x.producing ==> !x.workDone && !x.bufferHeld && !x.sent
    requires x.acked ==> x.sent
    requires x.workDone && !x.bufferHeld && !x.sent ==> x.retired
    requires !x.acked && !x.retired ==> subs[x.sub].page == Some(p) && !subs[x.sub].retired
    ensures PageOk(subs, Settled(x), p)
  {
  }

  /** Ending a page that is not in a buffer, or that leaves it now. */
  lemma EndPageShape(c: Conn, p: nat, x: Page, y: Sub)
    requires PagesOk(c.subs, c.pages) && SubsOk(c.subs, c.pages, c.index, c.seen) && IndexOk(c.subs, c.index) &&
             p < |c.pages|
    requires x.sub == c.pages[p].sub < |c.subs| && (x.acked || x.retired)
    requires (x.hasBytes <==> !x.creditReleased) && (x.hasRead <==> !x.workDone)
    requires x.creditReleased ==> Freed(x)
    requires (x.producing ==> !x.workDone && !x.bufferHeld && !x.sent) && (x.acked ==> x.sent)
    requires x.workDone && !x.bufferHeld && !x.sent ==> x.retired
    requires var s := c.subs[x.sub]; y == Unlinked(s, p).(lastAck := y.lastAck)
    ensures var subs, pages := c.subs[x.sub := y], c.pages[p := Settled(x)];
            PagesOk(subs, pages) && SubsOk(subs, pages, c.index, c.seen) && IndexOk(subs, c.index)
  {
    SettledOk(c.subs, x, p);
    PageEnded(c.subs, c.pages, c.index, c.seen, p, Settled(x), y);
  }

  lemma FailPageShape(c: Conn, p: nat)
    requires Shape(c) && p < |c.pages| && c.pages[p].producing
    ensures ValidPage(c, p) && Shape(ReplicaConnection.FailPage(c, p))
  {
    assert PageOk(c.subs, c.pages[p], p);
    var x := c.pages[p].(retired := true, producing := false);
    EndPageShape(c, p, x, Unlinked(c.subs[x.sub], p));
    QueueKept(c.pages, c.data, c.writer, c.closed, p, Settled(x));
  }

  lemma AckShape(c: Conn, i: nat, request: Id)
    requires Shape(c) && CanAck(c, i, request)
    ensures Shape(ReplicaConnection.Ack(c, i))
  {
    var p := c.subs[i].page.value;
    assert PageOk(c.subs, c.pages[p], p);
    assert SubOk(c.pages, c.index, c.seen, c.subs[i], i);
    var x := c.pages[p].(acked := true);
    EndPageShape(c, p, x, c.subs[i].(page := None, lastAck := Some(c.pages[p].request)));
    QueueKept(c.pages, c.data, c.writer, c.closed, p, Settled(x));
  }

  lemma AbandonShape(c: Conn, p: nat)
    requires Shape(c) && p < |c.pages| && c.pages[p].producing
    ensures Shape(ReplicaConnection.AbandonPage(c, p))
  {
    assert PageOk(c.subs, c.pages[p], p);
    var x := c.pages[p].(producing := false);
    PageTouched(c.subs, c.pages, c.index, c.seen, p, x);
    QueueKept(c.pages, c.data, c.writer, c.closed, p, x);
  }

  lemma QueueShape(c: Conn, p: nat)
    requires Shape(c) && Current(c, p) && c.pages[p].producing && |c.data| < DATA_CAPACITY
    ensures Shape(ReplicaConnection.QueuePage(c, p))
  {
    assert PageOk(c.subs, c.pages[p], p);
    var x := c.pages[p].(bufferHeld := true, producing := false);
    PageTouched(c.subs, c.pages, c.index, c.seen, p, x);
    QueueAppended(c.pages, c.data, c.writer.hand, p, x);
  }

  lemma QueueAppended(pages: seq<Page>, data: seq<nat>, hand: Option<nat>, p: nat, x: Page)
    requires QueueOk(pages, data, hand) && p < |pages| && !pages[p].bufferHeld && x.bufferHeld
    ensures QueueOk(pages[p := x], data + [p], hand)
  {
  }

  lemma FinishShape(c: Conn, p: nat)
    requires Shape(c) && p < |c.pages| && !c.pages[p].producing && !c.pages[p].workDone
    ensures ValidPage(c, p) && Shape(ReplicaConnection.FinishPage(c, p))
  {
    assert PageOk(c.subs, c.pages[p], p);
    var x := c.pages[p].(workDone := true, hasRead := false);
    if !x.bufferHeld && !x.sent && !x.acked {
      var z := x.(retired := true);
      EndPageShape(c, p, z, Unlinked(c.subs[x.sub], p));
      QueueKept(c.pages, c.data, c.writer, c.closed, p, Settled(z));
    } else {
      SettledOk(c.subs, x, p);
      PageTouched(c.subs, c.pages, c.index, c.seen, p, Settled(x));
      QueueKept(c.pages, c.data, c.writer, c.closed, p, Settled(x));
    }
  }

  lemma ReadShape(c: Conn, cfg: Config, i: nat, request: Id)
    requires Shape(c) && CanRead(c, cfg, i, request)
    ensures Shape(ReplicaConnection.StartRead(c, i, request))
  {
    var d := ReplicaConnection.StartRead(c, i, request);
    assert SubOk(c.pages, c.index, c.seen, c.subs[i], i);
    forall q | 0 <= q < |d.pages| ensures PageOk(d.subs, d.pages[q], q) {
      assert q < |c.pages| ==> PageOk(c.subs, c.pages[q], q);
    }
    forall j | 0 <= j < |d.subs| ensures SubOk(d.pages, d.index, d.seen, d.subs[j], j) {
      assert SubOk(c.pages, c.index, c.seen, c.subs[j], j);
    }
  }

  // ---------- the writer ----------

  lemma TakeShape(c: Conn)
    requires Shape(c) && c.writer.hand.None? && c.data != [] && !c.writer.mode.Gone?
    ensures forall phase :: phase != Writing ==>
              Shape(c.(data := c.data[1..], writer := c.writer.(hand := Some(c.data[0]), phase := phase)))
  {
    QueueTaken(c.pages, c.data);
  }

  lemma QueueTaken(pages: seq<Page>, data: seq<nat>)
    requires QueueOk(pages, data, None) && data != []
    ensures QueueOk(pages, data[1..], Some(data[0]))
  {
    assert data[0] in data;
    assert forall p :: p in data <==> p == data[0] || p in data[1..];
  }

  lemma AcceptShape(c: Conn)
    requires Shape(c) && Holding(c, Took)
    ensures Shape(MarkSent(c, c.writer.hand.value).(writer := c.writer.(phase := Writing)))
  {
    var p := c.writer.hand.value;
    assert PageOk(c.subs, c.pages[p], p);
    var x := c.pages[p].(sent := true);
    PageTouched(c.subs, c.pages, c.index, c.seen, p, x);
    QueueKept(c.pages, c.data, c.writer, c.closed, p, x);
  }

  lemma DiscardShape(c: Conn)
    requires Shape(c) && Holding(c, Discarding)
    ensures Shape(Discard(c, c.writer.hand.value).(writer := c.writer.(hand := None)))
  {
    var p := c.writer.hand.value;
    assert PageOk(c.subs, c.pages[p], p);
    var x := c.pages[p].(bufferHeld := false, retired := true);
    EndPageShape(c, p, x, Unlinked(c.subs[x.sub], p));
    HandEmptied(c.pages, c.data, p, Settled(x));
  }

  lemma HandEmptied(pages: seq<Page>, data: seq<nat>, p: nat, x: Page)
    requires QueueOk(pages, data, Some(p)) && !x.bufferHeld
    ensures QueueOk(pages[p := x], data, None)
  {
  }

  lemma WroteShape(c: Conn, mode: Mode)
    requires Shape(c) && Holding(c, Writing) && (mode == c.writer.mode || mode == Stopping)
    ensures Shape(Wrote(c, c.writer.hand.value).(writer := c.writer.(hand := None, mode := mode)))
  {
    var p := c.writer.hand.value;
    assert PageOk(c.subs, c.pages[p], p);
    var x := c.pages[p].(bufferHeld := false);
    SettledOk(c.subs, x, p);
    PageTouched(c.subs, c.pages, c.index, c.seen, p, Settled(x));
    HandEmptied(c.pages, c.data, p, Settled(x));
  }

  // ---------- subscriptions ----------

  lemma AdmitShape(c: Conn, cfg: Config, id: Id, bytes: int)
    requires Shape(c) && CanAdmit(c, cfg, id, bytes)
    ensures Shape(ReplicaConnection.Admit(c, id, bytes))
  {
    var d := ReplicaConnection.Admit(c, id, bytes);
    forall q | 0 <= q < |d.pages| ensures PageOk(d.subs, d.pages[q], q) {
      assert PageOk(c.subs, c.pages[q], q);
    }
    forall j | 0 <= j < |d.subs| ensures SubOk(d.pages, d.index, d.seen, d.subs[j], j) {
      assert j < |c.subs| ==> SubOk(c.pages, c.index, c.seen, c.subs[j], j);
    }
    forall k | k in d.index ensures d.index[k] < |d.subs| && d.subs[d.index[k]].id == k {
      assert k != id ==> c.subs[c.index[k]].id == k;
    }
  }

  lemma RecordShape(c: Conn, id: Id)
    requires Shape(c)
    ensures Shape(c.(seen := c.seen + {id}))
  {
    var d := c.(seen := c.seen + {id});
    forall j | 0 <= j < |d.subs| ensures SubOk(d.pages, d.index, d.seen, d.subs[j], j) {
      assert SubOk(c.pages, c.index, c.seen, c.subs[j], j);
    }
  }

  lemma PutSubShape(c: Conn, i: nat, y: Sub)
    requires Shape(c) && i < |c.subs| && SubOk(c.pages, c.index, c.seen, y, i)
    requires y.page == c.subs[i].page && y.retired == c.subs[i].retired && y.id == c.subs[i].id
    ensures Shape(c.(subs := c.subs[i := y]))
  {
    SubTouched(c.subs, c.pages, c.index, c.seen, i, y);
  }

  /** Steps of the registration worker and of a handed-over release. */
  lemma WorkerShape(c: Conn, i: nat)
    requires Shape(c) && i < |c.subs|
    ensures var s := c.subs[i];
            && (s.registering && s.backend.Absent? ==> Shape(PutSub(c, i, s.(backend := WithWorker))))
            && (s.backend.WithWorker? && !s.retired ==> Shape(ReplicaConnection.Commit(c, i, true)))
            && (s.backend.WithWorker? ==> Shape(ReplicaConnection.Commit(c, i, false)))
            && (s.backend.Handed? ==> Shape(PutSub(c, i, s.(backend := Returned))))
            && (!s.registering ==> Shape(ReplicaConnection.ReturnPending(c, i)))
  {
    var s := c.subs[i];
    assert SubOk(c.pages, c.index, c.seen, s, i);
    if s.registering && s.backend.Absent? {
      PutSubShape(c, i, s.(backend := WithWorker));
    }
    if s.backend.WithWorker? {
      if !s.retired {
        PutSubShape(c, i, s.(registered := true, backend := Held));
      }
      PutSubShape(c, i, s.(backend := Returned));
    }
    if s.backend.Handed? {
      PutSubShape(c, i, s.(backend := Returned));
    }
    if !s.registering {
      PutSubShape(c, i, s.(hasPending := false));
    }
  }

  lemma EndRegistrationShape(c: Conn, i: nat)
    requires Shape(c) && i < |c.subs| && c.subs[i].registering && !c.subs[i].backend.WithWorker?
    ensures Shape(ReplicaConnection.EndRegistration(c, i))
  {
    var s := c.subs[i];
    assert SubOk(c.pages, c.index, c.seen, s, i);
    var y := s.(registering := false, hasSource := !s.retired);
    PutSubShape(c, i, y);
    var d := ReplicaConnection.EndRegistration(c, i);
    assert d.subs == c.subs[i := y];
  }

  // ---------- retirement ----------

  lemma RetireParts(c: Conn, i: nat)
    requires CanRetire(c, i) && !c.subs[i].retired && c.subs[i].hasSource
    ensures var d, s := RetireSub(c, i), c.subs[i];
            && d.subs == c.subs[i := RetiredSub(s).(hasSource := s.registering)]
            && d.index == (if s.id in c.index && c.index[s.id] == i then c.index - {s.id} else c.index)
            && d.pages ==
                 (if s.page.Some? then c.pages[s.page.value := Settled(c.pages[s.page.value].(retired := true))]
                  else c.pages)
            && d.seen == c.seen && d.data == c.data && d.writer == c.writer && d.closed == c.closed
  {
  }

  lemma RetireShape(c: Conn, i: nat)
    requires Shape(c) && CanRetire(c, i)
    ensures Shape(RetireSub(c, i))
  {
    var s := c.subs[i];
    assert SubOk(c.pages, c.index, c.seen, s, i);
    if !s.retired {
      RetireParts(c, i);
      var y := RetiredSub(s).(hasSource := s.registering);
      if s.page.None? {
        SubRetired(c.subs, c.pages, c.index, c.seen, i, y);
      } else {
        var p := s.page.value;
        assert PageOk(c.subs, c.pages[p], p);
        var x := c.pages[p].(retired := true);
        var z := s.(page := None);
        EndPageShape(c, p, x, z);
        QueueKept(c.pages, c.data, c.writer, c.closed, p, Settled(x));
        SubRetired(c.subs[i := z], c.pages[p := Settled(x)], c.index, c.seen, i, y);
        assert c.subs[i := z][i := y] == c.subs[i := y];
      }
    }
  }
}
