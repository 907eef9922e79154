/** Page credits, the data queue and every reservation, over every run. */
module ReplicaSafety {
  import opened Options
  import opened Sums
  import opened ReplicaConnection
  import opened ReplicaMachine
  import opened ReplicaCounts
  import opened ReplicaShape

  // ---------- the queue has room ----------

  lemma {:induction false} DistinctSize(data: seq<nat>)
    requires forall i, j :: 0 <= i < j < |data| ==> data[i] != data[j]
    ensures |Elements(data)| == |data| && forall x :: x in Elements(data) <==> x in data
    decreases |data|
  {
    if data != [] {
      var n := |data| - 1;
      DistinctSize(data[..n]);
      assert data == data[..n] + [data[n]];
      assert data[n] !in data[..n];
    }
  }

  function Elements(data: seq<nat>): (r: set<nat>) {
    if data == [] then {} else Elements(data[..|data| - 1]) + {data[|data| - 1]}
  }

  /** Queued frames belong to distinct pages that still hold their credit. */
  lemma QueuedHoldCredit(c: Conn, p: nat)
    requires Shape(c) && (p in c.data || (p < |c.pages| && (c.pages[p].producing || c.writer.hand == Some(p))))
    ensures p < |c.pages| && CreditOf(c.pages[p]) == 1
  {
    assert PageOk(c.subs, c.pages[p], p);
  }

  /** When a worker is about to queue a frame the queue is not full. */
  lemma QueueRoom(c: Conn, cfg: Config, p: nat)
    requires Inv(c, cfg) && p < |c.pages| && c.pages[p].producing
    ensures |c.data| < DATA_CAPACITY
  {
    assert PageOk(c.subs, c.pages[p], p);
    DistinctSize(c.data);
    var chosen := Elements(c.data) + {p};
    forall q | q in chosen ensures q < |c.pages| && CreditOf(c.pages[q]) >= 1 {
      QueuedHoldCredit(c, q);
    }
    assert p !in c.data;
    SumCovers(c.pages, CreditOf, chosen);
  }

  // ---------- every step ----------

  lemma LedgerBounds(c: Conn)
    requires Shape(c) && Counts(c) && NonNegative(c.others)
    ensures c.credits >= 0 && c.sourceCount >= 0 && c.sourceBytes >= 0 && NonNegative(c.used)
    ensures Sum(c.subs, PendingOf) >= 0 && Sum(c.pages, ReadOf) >= 0
  {
    forall i | 0 <= i < |c.subs| ensures BytesOf(c.subs[i]) >= 0 {
      assert SubOk(c.pages, c.index, c.seen, c.subs[i], i);
    }
    SumNonNegative(c.pages, CreditOf);
    SumNonNegative(c.pages, ReadOf);
    SumNonNegative(c.subs, SourceOf);
    SumNonNegative(c.subs, BytesOf);
    SumNonNegative(c.subs, PendingOf);
  }

  /** Retiring only gives back. */
  predicate Eased(c: Conn, d: Conn) {
    && d.others == c.others && d.credits <= c.credits && d.authWorkers == c.authWorkers
    && d.flushWorkers == c.flushWorkers
    && d.used.subscriptions <= c.used.subscriptions && d.used.sourceBytes <= c.used.sourceBytes
    && d.used.pending <= c.used.pending
    && d.used.readers <= c.used.readers && d.used.pageBytes <= c.used.pageBytes
  }

  lemma RetireEases(c: Conn, i: nat)
    requires Shape(c) && CanRetire(c, i)
    ensures Eased(c, RetireSub(c, i)) && RetireSub(c, i).used.pending == c.used.pending
  {
    assert SubOk(c.pages, c.index, c.seen, c.subs[i], i);
  }

  /** A retired subscription stays retired while others are. */
  lemma RetireKeepsRetired(c: Conn, i: nat, j: nat)
    requires CanRetire(c, i) && j < |c.subs|
    ensures c.subs[j].retired || j == i ==> RetireSub(c, i).subs[j].retired
  {
  }

  lemma {:induction false} RetireFromInv(c: Conn, k: nat)
    requires Shape(c) && Counts(c) && CanRetireAll(c) && k <= |c.subs|
    requires forall j :: 0 <= j < k ==> c.subs[j].retired
    ensures var d := RetireFrom(c, k);
            && Shape(d) && Counts(d) && Eased(c, d) && d.used.pending == c.used.pending
            && (forall j :: 0 <= j < |d.subs| ==> d.subs[j].retired)
            && d.closed == c.closed && d.data == c.data && d.writer == c.writer
    decreases |c.subs| - k
  {
    if k < |c.subs| {
      assert CanRetire(c, k);
      RetireKeepsCan(c, k);
      RetireShape(c, k);
      RetireCounts(c, k);
      RetireEases(c, k);
      var d := RetireSub(c, k);
      forall j | 0 <= j < k + 1 ensures d.subs[j].retired {
        RetireKeepsRetired(c, k, j);
      }
      RetireFromInv(d, k + 1);
    }
  }

  /** With every subscription retired, none is indexed. */
  lemma RetiredIndexEmpty(c: Conn)
    requires Shape(c) && forall j :: 0 <= j < |c.subs| ==> c.subs[j].retired
    ensures c.index == map[]
  {
    forall i | 0 <= i < |c.subs| ensures !(c.subs[i].id in c.index && c.index[c.subs[i].id] == i) {
      assert SubOk(c.pages, c.index, c.seen, c.subs[i], i);
    }
    assert c.index.Keys == {};
  }

  lemma CloseInv(c: Conn, cfg: Config)
    requires Inv(c, cfg) && CanRetireAll(c)
    ensures Inv(RetireFrom(c, 0).(closed := true), cfg)
  {
    RetireFromInv(c, 0);
    RetiredIndexEmpty(RetireFrom(c, 0));
  }

  lemma StartAuthInv(c: Conn, cfg: Config)
    requires Inv(c, cfg) && Enabled(c, StartAuth, cfg)
    ensures Inv(Apply(c, StartAuth, cfg), cfg)
  {
    RetireFromInv(c, 0);
  }

  predicate SubStep(step: Step) {
    step.Record? || step.Admit? || step.Acquire? || step.Commit? || step.EndRegistration? || step.ReturnPending? ||
    step.Retire? || step.ReturnBackend?
  }

  predicate PageStep(step: Step) {
    step.StartRead? || step.FailPage? || step.Ack?
  }

  predicate WorkerStep(step: Step) {
    step.QueuePage? || step.AbandonPage? || step.FinishPage?
  }

  lemma SubStepInv(c: Conn, step: Step, cfg: Config)
    requires Inv(c, cfg) && SubStep(step) && Enabled(c, step, cfg)
    ensures Inv(Apply(c, step, cfg), cfg)
  {
    match step
    case Record(id) => RecordShape(c, id);
    case Admit(id, bytes) =>
      AdmitShape(c, cfg, id, bytes);
      AdmitCounts(c, id, bytes);
    case Acquire(i) =>
      WorkerShape(c, i);
      PutSubCounts(c, i, c.subs[i].(backend := WithWorker));
    case Commit(i, current) =>
      WorkerShape(c, i);
      PutSubCounts(c, i,
                   if current then c.subs[i].(registered := true, backend := Held)
                   else c.subs[i].(backend := Returned));
    case EndRegistration(i) =>
      EndRegistrationShape(c, i);
      EndRegistrationCounts(c, i);
      assert SubOk(c.pages, c.index, c.seen, c.subs[i], i);
    case ReturnPending(i) =>
      WorkerShape(c, i);
      ReturnPendingCounts(c, i);
    case Retire(i) =>
      RetireShape(c, i);
      RetireCounts(c, i);
      RetireEases(c, i);
    case ReturnBackend(i) =>
      WorkerShape(c, i);
      PutSubCounts(c, i, c.subs[i].(backend := Returned));
  }

  lemma PageStepInv(c: Conn, step: Step, cfg: Config)
    requires Inv(c, cfg) && PageStep(step) && Enabled(c, step, cfg)
    ensures Inv(Apply(c, step, cfg), cfg)
  {
    match step
    case StartRead(i, request) =>
      ReadShape(c, cfg, i, request);
      ReadCounts(c, i, request);
    case FailPage(p) =>
      FailPageShape(c, p);
      PageConsistent(c, p);
      EndPageCounts(c, p, c.pages[p].(retired := true, producing := false));
    case Ack(i, request) =>
      AckShape(c, i, request);
      AckCounts(c, i);
  }

  lemma WorkerStepInv(c: Conn, step: Step, cfg: Config)
    requires Inv(c, cfg) && WorkerStep(step) && Enabled(c, step, cfg)
    ensures Inv(Apply(c, step, cfg), cfg)
  {
    match step
    case QueuePage(p) =>
      QueueRoom(c, cfg, p);
      QueueShape(c, p);
      QueueCounts(c, p);
    case AbandonPage(p) =>
      AbandonShape(c, p);
      QueueCounts(c, p);
    case FinishPage(p) =>
      FinishShape(c, p);
      FinishPageCounts(c, p);
  }

  lemma WriterStepInv(c: Conn, step: Step, cfg: Config)
    requires Inv(c, cfg) && !SubStep(step) && !PageStep(step) && !WorkerStep(step) && Enabled(c, step, cfg)
    ensures Inv(Apply(c, step, cfg), cfg)
  {
    match step
    case WriterTake => TakeShape(c);
    case WriterAccept =>
      AcceptShape(c);
      QueueCounts(c, c.writer.hand.value);
    case WriterReject =>
    case WriterDiscard =>
      var p := c.writer.hand.value;
      PageConsistent(c, p);
      DiscardShape(c);
      EndPageCounts(c, p, c.pages[p].(bufferHeld := false, retired := true));
    case WriterWrote(ok) =>
      var p := c.writer.hand.value;
      PageConsistent(c, p);
      WroteShape(c, if ok then c.writer.mode else Stopping);
      PutPageCounts(c, p, c.pages[p].(bufferHeld := false));
    case WriterStop =>
    case WriterGone =>
    case Close => CloseInv(c, cfg);
    case StartAuth => StartAuthInv(c, cfg);
    case EndAuth =>
    case StartFlush =>
    case EndFlush =>
    case Others(share) =>
  }

  lemma StepInv(c: Conn, step: Step, cfg: Config)
    requires Inv(c, cfg) && Enabled(c, step, cfg)
    ensures Inv(Apply(c, step, cfg), cfg)
  {
    if SubStep(step) {
      SubStepInv(c, step, cfg);
    } else if PageStep(step) {
      PageStepInv(c, step, cfg);
    } else if WorkerStep(step) {
      WorkerStepInv(c, step, cfg);
    } else {
      WriterStepInv(c, step, cfg);
    }
  }

  lemma {:induction false} RunInv(c: Conn, steps: seq<Step>, cfg: Config)
    requires Inv(c, cfg) && Run(c, steps, cfg).Some?
    ensures Inv(Run(c, steps, cfg).value, cfg)
    decreases |steps|
  {
    if steps != [] {
      StepInv(c, steps[0], cfg);
      RunInv(Apply(c, steps[0], cfg), steps[1..], cfg);
    }
  }

  // ---------- theorems over every run ----------

  /** What configuration defaulting and validation guarantee. */
  predicate ValidConfig(cfg: Config) {
    cfg.pageCredits >= 1
  }

  lemma Reachable(others: Ledger, steps: seq<Step>, cfg: Config)
    requires ValidConfig(cfg) && NonNegative(others) && Within(others, cfg) && Run(Initial(others), steps, cfg).Some?
    ensures Inv(Run(Initial(others), steps, cfg).value, cfg)
  {
    RunInv(Initial(others), steps, cfg);
  }

  /** The credit counter is the number of pages whose credit is out, and stays
      within the limit. */
  lemma CreditsConserved(others: Ledger, steps: seq<Step>, cfg: Config)
    requires ValidConfig(cfg) && NonNegative(others) && Within(others, cfg) && Run(Initial(others), steps, cfg).Some?
    ensures var c := Run(Initial(others), steps, cfg).value;
            c.credits == Sum(c.pages, CreditOf) && 0 <= c.credits <= CreditLimit(cfg)
  {
    Reachable(others, steps, cfg);
    LedgerBounds(Run(Initial(others), steps, cfg).value);
  }

  /** Frames in the data queue and the writer's hand belong to distinct pages that
      still hold their credit; a worker about to queue a frame always finds room,
      so the branch that closes the connection on a full queue never runs. */
  lemma QueueNeverFull(others: Ledger, steps: seq<Step>, cfg: Config, p: nat)
    requires ValidConfig(cfg) && NonNegative(others) && Within(others, cfg) && Run(Initial(others), steps, cfg).Some?
    ensures var c := Run(Initial(others), steps, cfg).value;
            && (p in c.data || c.writer.hand == Some(p) ==> p < |c.pages| && !c.pages[p].creditReleased)
            && (forall i, j :: 0 <= i < j < |c.data| ==> c.data[i] != c.data[j])
            && (p < |c.pages| && c.pages[p].producing ==> |c.data| < DATA_CAPACITY)
  {
    Reachable(others, steps, cfg);
    var c := Run(Initial(others), steps, cfg).value;
    if p < |c.pages| && c.pages[p].producing {
      QueueRoom(c, cfg, p);
    }
    if p in c.data || c.writer.hand == Some(p) {
      QueuedHoldCredit(c, p);
    }
  }

  /** Every ledger counter is this connection's share plus the others', between
      zero and its maximum. */
  lemma LedgerExact(others: Ledger, steps: seq<Step>, cfg: Config)
    requires ValidConfig(cfg) && NonNegative(others) && Within(others, cfg) && Run(Initial(others), steps, cfg).Some?
    ensures var c := Run(Initial(others), steps, cfg).value;
            NonNegative(c.used) && Within(c.used, cfg) && Counts(c)
  {
    Reachable(others, steps, cfg);
    LedgerBounds(Run(Initial(others), steps, cfg).value);
  }

  /** Closed, and every worker, writer and handed-over release has finished. */
  predicate Quiet(c: Conn) {
    && c.closed && c.writer.mode.Gone? && c.authWorkers == 0 && c.flushWorkers == 0
    && (forall i :: 0 <= i < |c.subs| ==> !c.subs[i].registering && !c.subs[i].hasPending && !c.subs[i].backend.Handed?)
    && (forall p :: 0 <= p < |c.pages| ==> c.pages[p].workDone)
  }

  lemma QuietReturned(c: Conn)
    requires Shape(c) && Quiet(c)
    ensures forall p :: 0 <= p < |c.pages| ==> CreditOf(c.pages[p]) == 0 && ReadOf(c.pages[p]) == 0
    ensures forall i :: 0 <= i < |c.subs| ==>
              SourceOf(c.subs[i]) == 0 && BytesOf(c.subs[i]) == 0 && PendingOf(c.subs[i]) == 0
    ensures forall i :: 0 <= i < |c.subs| ==> c.subs[i].backend.Absent? || c.subs[i].backend.Returned?
  {
    forall i | 0 <= i < |c.subs|
      ensures c.subs[i].retired && SourceOf(c.subs[i]) == 0 && BytesOf(c.subs[i]) == 0 && PendingOf(c.subs[i]) == 0
      ensures c.subs[i].backend.Absent? || c.subs[i].backend.Returned?
    {
      assert SubOk(c.pages, c.index, c.seen, c.subs[i], i);
    }
    forall p | 0 <= p < |c.pages| ensures CreditOf(c.pages[p]) == 0 && ReadOf(c.pages[p]) == 0 {
      assert PageOk(c.subs, c.pages[p], p);
    }
  }

  /** After close and exit of all workers, every counter of the connection is zero,
      its share of the ledger is zero, and no upstream registration is left. */
  lemma EverythingReturned(others: Ledger, steps: seq<Step>, cfg: Config)
    requires ValidConfig(cfg) && NonNegative(others) && Within(others, cfg) && Run(Initial(others), steps, cfg).Some?
    ensures var c := Run(Initial(others), steps, cfg).value;
            Quiet(c) ==>
              && c.credits == 0 && c.sourceCount == 0 && c.sourceBytes == 0 && c.used == c.others
              && forall i :: 0 <= i < |c.subs| ==> c.subs[i].backend.Absent? || c.subs[i].backend.Returned?
  {
    Reachable(others, steps, cfg);
    var c := Run(Initial(others), steps, cfg).value;
    if Quiet(c) {
      QuietReturned(c);
      SumZero(c.pages, CreditOf);
      SumZero(c.pages, ReadOf);
      SumZero(c.subs, SourceOf);
      SumZero(c.subs, BytesOf);
      SumZero(c.subs, PendingOf);
    }
  }
}
