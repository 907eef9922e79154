/** The connection object: each method is a lock section that updates the fields
    in place, proved against the function that specifies it. `authCurrent` is the
    caller's reading of the session clock and generation under the lock. */
module ReplicaClient {
  import opened Options
  import opened ReplicaConnection

  datatype Refusal = NotCurrent | ProtocolError | TransportBusy | SourceBusy

  class Client {
    const cfg: Config
    var closed: bool
    var index: map<Id, nat>
    var seen: set<Id>
    var subs: seq<Sub>
    var pages: seq<Page>
    var credits: int
    var sourceCount: int
    var sourceBytes: int
    var data: seq<nat>
    var writer: Writer
    var authWorkers: nat
    var flushWorkers: nat
    var used: Ledger
    ghost var others: Ledger

    ghost function View(): (c: Conn)
      reads this
    {
      Conn(closed, index, seen, subs, pages, credits, sourceCount, sourceBytes, data, writer, authWorkers,
           flushWorkers, used, others)
    }

    constructor (cfg: Config, used: Ledger)
      ensures this.cfg == cfg
      ensures View() == Conn(false, map[], {}, [], [], 0, 0, 0, [], Writer(Running, None, Took), 0, 0, used, used)
    {
      this.cfg := cfg;
      closed, index, seen, subs, pages := false, map[], {}, [], [];
      credits, sourceCount, sourceBytes, data := 0, 0, 0, [];
      writer := Writer(Running, None, Took);
      authWorkers, flushWorkers := 0, 0;
      this.used := used;
      others := used;
    }

    /** Returns credit and bytes of a page finished with peer, worker and buffer. */
    method ReleasePageLocked(p: nat)
      requires p < |pages|
      modifies this
      ensures View() == PutPage(old(View()), p, old(pages)[p])
    {
      var page := pages[p];
      if (page.acked || page.retired) && page.workDone && !page.bufferHeld && !page.creditReleased {
        pages := pages[p := pages[p].(creditReleased := true)];
        credits := credits - 1;
      }
      if (page.acked || page.retired) && page.workDone && !page.bufferHeld && page.hasBytes {
        used := used.(pageBytes := used.pageBytes - FRAME);
        pages := pages[p := pages[p].(hasBytes := false)];
      }
      assert pages == old(pages)[p := Settled(old(pages)[p])];
    }

    method FinishSourceLocked(i: nat)
      requires i < |subs|
      modifies this
      ensures View() == FinishSource(old(View()), i)
    {
      var sub := subs[i];
      if sub.retired && !sub.registering && sub.hasSource {
        used := used.(subscriptions := used.subscriptions - 1, sourceBytes := used.sourceBytes - sub.bytes);
        subs := subs[i := sub.(hasSource := false)];
        sourceCount := sourceCount - 1;
        sourceBytes := sourceBytes - sub.bytes;
      }
    }

    /** `release` says whether the caller now has an upstream release to run. */
    method RetireSubLocked(i: nat) returns (release: bool)
      requires CanRetire(View(), i)
      modifies this
      ensures View() == RetireSub(old(View()), i)
      ensures release <==> !old(subs)[i].retired && old(subs)[i].backend.Held?
    {
      if subs[i].retired {
        return false;
      }
      ghost var start := View();
      var sub := subs[i];
      if sub.id in index && index[sub.id] == i {
        index := index - {sub.id};
      }
      assert View() == Unindexed(start, i);
      if sub.page.Some? {
        var p := sub.page.value;
        pages := pages[p := pages[p].(retired := true)];
        ghost var marked := View();
        ReleasePageLocked(p);
        RetireMarked(start, marked, i);
      }
      assert View() == RetirePage(Unindexed(start, i), i);
      release := sub.backend.Held?;
      subs := subs[i := sub.(retired := true, page := None, backend := if release then Handed else sub.backend)];
      FinishSourceLocked(i);
    }

    /** Closing retires every subscription still in force. */
    method Close()
      requires CanRetireAll(View())
      modifies this
      ensures View() == if old(closed) then old(View()) else RetireFrom(old(View()), 0).(closed := true)
    {
      if closed {
        return;
      }
      var k := 0;
      while k < |subs|
        invariant 0 <= k <= |subs| && CanRetireAll(View()) && !closed
        invariant RetireFrom(View(), k) == RetireFrom(old(View()), 0)
        decreases |subs| - k
      {
        ghost var before := View();
        assert CanRetire(before, k);
        RetireKeepsCan(before, k);
        var release := RetireSubLocked(k);
        k := k + 1;
      }
      closed := true;
    }

    /** Admission of a subscription; the identifier is spent even when refused for
        lack of capacity. */
    method StartSubscribe(id: Id, bytes: int, authCurrent: bool) returns (r: Result<nat, Refusal>)
      requires authCurrent ==> !closed
      modifies this
      ensures r.Ok? <==> authCurrent && CanAdmit(old(View()), cfg, id, bytes)
      ensures r.Ok? ==> View() == Admit(old(View()), id, bytes) && r.value == |old(subs)|
      ensures r.Err? ==>
                View() == old(View()).(seen := if authCurrent && CanRecord(old(View()), cfg, id) then old(seen) + {id}
                                               else old(seen))
    {
      if !authCurrent {
        return Err(NotCurrent);
      }
      if id in seen {
        return Err(ProtocolError);
      }
      if |seen| >= cfg.subscriptions {
        return Err(TransportBusy);
      }
      seen := seen + {id};
      if sourceCount >= cfg.subscriptionsPerConnection || bytes > cfg.sourceBytesPerConnection - sourceBytes {
        return Err(TransportBusy);
      }
      if bytes <= 0 || used.subscriptions >= cfg.subscriptions || bytes > cfg.sourceBytes - used.sourceBytes {
        return Err(TransportBusy);
      }
      if 1 > cfg.pending - used.pending {
        return Err(SourceBusy);
      }
      used := used.(subscriptions := used.subscriptions + 1, sourceBytes := used.sourceBytes + bytes,
                    pending := used.pending + 1);
      r := Ok(|subs|);
      index := index[id := |subs|];
      subs := subs + [Sub(id, bytes, true, false, false, true, true, Absent, None, None)];
      sourceCount := sourceCount + 1;
      sourceBytes := sourceBytes + bytes;
    }

    /** Admission of a page read; nothing changes when it is refused. */
    method StartRead(i: nat, request: Id, authCurrent: bool) returns (r: Result<nat, Refusal>)
      requires i < |subs|
      modifies this
      ensures r.Ok? <==> authCurrent && CanRead(old(View()), cfg, i, request)
      ensures r.Ok? ==> View() == ReplicaConnection.StartRead(old(View()), i, request) && r.value == |old(pages)|
      ensures r.Err? ==> View() == old(View())
    {
      var sub := subs[i];
      if !authCurrent || sub.retired || !sub.registered || sub.page.Some? || sub.lastAck == Some(request) {
        return Err(ProtocolError);
      }
      if credits >= CreditLimit(cfg) {
        return Err(TransportBusy);
      }
      if 1 > cfg.readers - used.readers {
        return Err(SourceBusy);
      }
      if FRAME > cfg.pageBytes - used.pageBytes {
        return Err(TransportBusy);
      }
      used := used.(readers := used.readers + 1, pageBytes := used.pageBytes + FRAME);
      r := Ok(|pages|);
      subs := subs[i := sub.(page := Some(|pages|))];
      pages := pages + [Page(i, request, true, false, false, false, false, false, false, true, true)];
      credits := credits + 1;
    }

    /** The read worker offers its frame. `full` asks the caller to close. */
    method OfferPage(p: nat, authCurrent: bool) returns (full: bool)
      requires ValidPage(View(), p)
      modifies this
      ensures authCurrent && Current(old(View()), p) ==>
                View() == QueuePage(old(View()), p) && (full <==> |old(data)| >= DATA_CAPACITY)
      ensures !(authCurrent && Current(old(View()), p)) ==> View() == AbandonPage(old(View()), p) && !full
    {
      var page := pages[p];
      var sub := subs[page.sub];
      if !authCurrent || closed || sub.retired || sub.page != Some(p) || page.retired {
        pages := pages[p := page.(producing := false)];
        return false;
      }
      if |data| < DATA_CAPACITY {
        pages := pages[p := page.(bufferHeld := true, producing := false)];
        data := data + [p];
        return false;
      }
      pages := pages[p := page.(bufferHeld := false, producing := false)];
      return true;
    }

    method EndLocked(p: nat)
      requires ValidPage(View(), p)
      modifies this
      ensures View() == EndPage(old(View()), p, old(pages)[p])
    {
      var i := pages[p].sub;
      if subs[i].page == Some(p) {
        subs := subs[i := subs[i].(page := None)];
      }
      assert subs == old(subs)[i := Unlinked(old(subs)[i], p)];
      ReleasePageLocked(p);
    }

    method PageFailure(p: nat)
      requires ValidPage(View(), p)
      modifies this
      ensures View() == FailPage(old(View()), p)
    {
      pages := pages[p := pages[p].(retired := true, producing := false)];
      EndLocked(p);
      assert old(pages)[p := old(pages)[p].(retired := true, producing := false)][p := pages[p]] ==
               old(pages)[p := pages[p]];
    }

    /** The read worker's deferred section. */
    method FinishRead(p: nat)
      requires ValidPage(View(), p)
      modifies this
      ensures View() == FinishPage(old(View()), p)
    {
      ghost var was := pages;
      used := used.(readers := used.readers - 1);
      pages := pages[p := pages[p].(workDone := true, hasRead := false)];
      if !pages[p].bufferHeld && !pages[p].sent && !pages[p].acked {
        pages := pages[p := pages[p].(retired := true)];
        EndLocked(p);
      } else {
        ReleasePageLocked(p);
      }
      assert pages == was[p := pages[p]];
    }

    method Acknowledge(i: nat, request: Id, authCurrent: bool) returns (accepted: bool)
      requires i < |subs| && (subs[i].page.Some? ==> subs[i].page.value < |pages|)
      modifies this
      ensures accepted <==> authCurrent && CanAck(old(View()), i, request)
      ensures View() == if accepted then Ack(old(View()), i) else old(View())
    {
      var sub := subs[i];
      if !authCurrent || sub.retired || !sub.registered || sub.lastAck == Some(request) {
        return false;
      }
      if sub.page.None? || pages[sub.page.value].request != request || !pages[sub.page.value].sent {
        return false;
      }
      var p := sub.page.value;
      ghost var was := pages;
      pages := pages[p := pages[p].(acked := true)];
      subs := subs[i := sub.(page := None, lastAck := Some(pages[p].request))];
      ReleasePageLocked(p);
      assert pages == was[p := pages[p]];
      return true;
    }

    /** Drops a queued or held frame and ends its page. */
    method DiscardFrame(p: nat)
      requires ValidPage(View(), p)
      modifies this
      ensures View() == Discard(old(View()), p)
    {
      ghost var was := pages;
      pages := pages[p := pages[p].(bufferHeld := false, retired := true)];
      EndLocked(p);
      assert pages == was[p := pages[p]];
    }

    /** The writer's last act: whatever is still queued gives its buffer back. */
    method DrainQueue()
      requires QueueValid(View())
      modifies this
      ensures View() == DiscardAll(old(View())) && data == []
    {
      while data != []
        invariant QueueValid(View()) && DiscardAll(View()) == DiscardAll(old(View()))
        decreases |data|
      {
        DiscardKeepsQueue(View());
        var p := data[0];
        data := data[1..];
        DiscardFrame(p);
      }
    }

    /** After the write returns, whatever its outcome. */
    method AfterWrite(p: nat)
      requires p < |pages|
      modifies this
      ensures View() == Wrote(old(View()), p)
    {
      ghost var was := pages;
      pages := pages[p := pages[p].(bufferHeld := false)];
      ReleasePageLocked(p);
      assert pages == was[p := pages[p]];
    }
  }

  lemma RetireMarked(start: Conn, marked: Conn, i: nat)
    requires CanRetire(start, i) && start.subs[i].page.Some?
    requires var p := start.subs[i].page.value;
             marked == Unindexed(start, i).(pages := start.pages[p := start.pages[p].(retired := true)])
    ensures var p := start.subs[i].page.value;
            PutPage(marked, p, marked.pages[p]) == RetirePage(Unindexed(start, i), i)
  {
    var p := start.subs[i].page.value;
    var x := start.pages[p].(retired := true);
    assert start.pages[p := x][p := Settled(x)] == start.pages[p := Settled(x)];
  }
}
