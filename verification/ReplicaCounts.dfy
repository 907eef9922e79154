/** The counters and the ledger follow the subscriptions and pages at every step. */
module ReplicaCounts {
  import opened Options
  import opened Sums
  import opened ReplicaConnection
  import opened ReplicaMachine

  lemma PutPageCounts(c: Conn, p: nat, x: Page)
    requires Counts(c) && p < |c.pages|
    requires x.creditReleased == c.pages[p].creditReleased && x.hasRead == c.pages[p].hasRead &&
             (x.hasBytes <==> !x.creditReleased)
    ensures Counts(PutPage(c, p, x))
  {
    SumUpdate(c.pages, p, Settled(x), CreditOf);
    SumUpdate(c.pages, p, Settled(x), ReadOf);
  }

  lemma PutSubCounts(c: Conn, i: nat, s: Sub)
    requires Counts(c) && i < |c.subs|
    requires s.hasSource == c.subs[i].hasSource && s.bytes == c.subs[i].bytes && s.hasPending == c.subs[i].hasPending
    ensures Counts(c.(subs := c.subs[i := s]))
  {
    SumUpdate(c.subs, i, s, SourceOf);
    SumUpdate(c.subs, i, s, BytesOf);
    SumUpdate(c.subs, i, s, PendingOf);
  }

  lemma FinishSourceCounts(c: Conn, i: nat)
    requires Counts(c) && i < |c.subs|
    ensures Counts(FinishSource(c, i))
  {
    var s := c.subs[i].(hasSource := false);
    SumUpdate(c.subs, i, s, SourceOf);
    SumUpdate(c.subs, i, s, BytesOf);
    SumUpdate(c.subs, i, s, PendingOf);
  }

  lemma EndPageCounts(c: Conn, p: nat, x: Page)
    requires Counts(c) && ValidPage(c, p)
    requires x.creditReleased == c.pages[p].creditReleased && x.hasRead == c.pages[p].hasRead &&
             (x.hasBytes <==> !x.creditReleased)
    ensures Counts(EndPage(c, p, x))
  {
    var i := c.pages[p].sub;
    PutSubCounts(c, i, Unlinked(c.subs[i], p));
    PutPageCounts(c.(subs := c.subs[i := Unlinked(c.subs[i], p)]), p, x);
  }

  lemma PageConsistent(c: Conn, p: nat)
    requires PagesOk(c.subs, c.pages) && p < |c.pages|
    ensures ValidPage(c, p) && (c.pages[p].hasBytes <==> !c.pages[p].creditReleased) &&
            (c.pages[p].hasRead <==> !c.pages[p].workDone)
  {
    assert PageOk(c.subs, c.pages[p], p);
  }

  lemma RetireCounts(c: Conn, i: nat)
    requires Counts(c) && CanRetire(c, i) && PagesOk(c.subs, c.pages)
    ensures Counts(RetireSub(c, i))
  {
    if !c.subs[i].retired {
      var d := Unindexed(c, i);
      var e := RetirePage(d, i);
      if c.subs[i].page.Some? {
        var p := c.subs[i].page.value;
        PageConsistent(c, p);
        PutPageCounts(d, p, c.pages[p].(retired := true));
      }
      PutSubCounts(e, i, RetiredSub(c.subs[i]));
      FinishSourceCounts(e.(subs := e.subs[i := RetiredSub(c.subs[i])]), i);
    }
  }

  lemma AdmitCounts(c: Conn, id: Id, bytes: int)
    requires Counts(c)
    ensures Counts(ReplicaConnection.Admit(c, id, bytes))
  {
    var s := Sub(id, bytes, true, false, false, true, true, Absent, None, None);
    SumAppend(c.subs, s, SourceOf);
    SumAppend(c.subs, s, BytesOf);
    SumAppend(c.subs, s, PendingOf);
  }

  lemma ReadCounts(c: Conn, i: nat, request: Id)
    requires Counts(c) && i < |c.subs|
    ensures Counts(ReplicaConnection.StartRead(c, i, request))
  {
    var page := Page(i, request, true, false, false, false, false, false, false, true, true);
    SumAppend(c.pages, page, CreditOf);
    SumAppend(c.pages, page, ReadOf);
    PutSubCounts(c, i, c.subs[i].(page := Some(|c.pages|)));
  }

  lemma ReturnPendingCounts(c: Conn, i: nat)
    requires Counts(c) && i < |c.subs| && c.subs[i].hasPending
    ensures Counts(ReplicaConnection.ReturnPending(c, i))
  {
    var s := c.subs[i].(hasPending := false);
    SumUpdate(c.subs, i, s, SourceOf);
    SumUpdate(c.subs, i, s, BytesOf);
    SumUpdate(c.subs, i, s, PendingOf);
  }

  lemma EndRegistrationCounts(c: Conn, i: nat)
    requires Counts(c) && i < |c.subs|
    ensures Counts(ReplicaConnection.EndRegistration(c, i))
  {
    var s := c.subs[i].(registering := false);
    PutSubCounts(c, i, s);
    FinishSourceCounts(PutSub(c, i, s), i);
  }

  /** The worker's permit goes back together with its mark on the page. */
  lemma WorkDoneCounts(c: Conn, p: nat) returns (d: Conn)
    requires Counts(c) && p < |c.pages| && c.pages[p].hasRead
    ensures d == c.(pages := c.pages[p := c.pages[p].(workDone := true, hasRead := false)],
                    used := c.used.(readers := c.used.readers - 1))
    ensures Counts(d)
  {
    var x := c.pages[p].(workDone := true, hasRead := false);
    d := c.(pages := c.pages[p := x], used := c.used.(readers := c.used.readers - 1));
    SumUpdate(c.pages, p, x, CreditOf);
    SumUpdate(c.pages, p, x, ReadOf);
  }

  lemma FinishPageCounts(c: Conn, p: nat)
    requires Counts(c) && PagesOk(c.subs, c.pages) && p < |c.pages| && !c.pages[p].workDone
    ensures ValidPage(c, p) && Counts(ReplicaConnection.FinishPage(c, p))
  {
    PageConsistent(c, p);
    var d := WorkDoneCounts(c, p);
    var page := d.pages[p];
    if !page.bufferHeld && !page.sent && !page.acked {
      EndPageCounts(d, p, page.(retired := true));
      assert d.pages[p := Settled(page.(retired := true))] == c.pages[p := Settled(page.(retired := true))];
    } else {
      PutPageCounts(d, p, page);
      assert d.pages[p := Settled(page)] == c.pages[p := Settled(page)];
    }
  }

  lemma AckCounts(c: Conn, i: nat)
    requires Counts(c) && PagesOk(c.subs, c.pages) && i < |c.subs| && c.subs[i].page.Some? &&
             c.subs[i].page.value < |c.pages|
    ensures Counts(ReplicaConnection.Ack(c, i))
  {
    var p := c.subs[i].page.value;
    PageConsistent(c, p);
    var s := c.subs[i].(page := None, lastAck := Some(c.pages[p].request));
    PutSubCounts(c, i, s);
    PutPageCounts(c.(subs := c.subs[i := s]), p, c.pages[p].(acked := true));
  }

  lemma TouchCounts(c: Conn, p: nat, x: Page)
    requires Counts(c) && p < |c.pages| && x.creditReleased == c.pages[p].creditReleased &&
             x.hasRead == c.pages[p].hasRead
    ensures Counts(c.(pages := c.pages[p := x]))
  {
    SumUpdate(c.pages, p, x, CreditOf);
    SumUpdate(c.pages, p, x, ReadOf);
  }

  lemma QueueCounts(c: Conn, p: nat)
    requires Counts(c) && p < |c.pages|
    ensures Counts(ReplicaConnection.QueuePage(c, p)) && Counts(ReplicaConnection.AbandonPage(c, p)) &&
            Counts(MarkSent(c, p))
  {
    TouchCounts(c, p, c.pages[p].(bufferHeld := true, producing := false));
    TouchCounts(c, p, c.pages[p].(bufferHeld := false, producing := false));
    TouchCounts(c, p, c.pages[p].(producing := false));
    TouchCounts(c, p, c.pages[p].(sent := true));
  }
}
