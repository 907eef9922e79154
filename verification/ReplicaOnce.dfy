/** No reservation, once returned, is ever taken back into the same hands. */
module ReplicaOnce {
  import opened ReplicaConnection
  import opened ReplicaMachine
  import opened ReplicaShape
  import opened ReplicaSafety

  function Rank(b: Backend): (n: nat) {
    match b
    case Absent => 0
    case WithWorker => 1
    case Held => 2
    case Handed => 3
    case Returned => 4
  }

  /** Reservations of a subscription only go back, and its upstream registration
      only moves towards its release. */
  predicate SubForward(s: Sub, t: Sub) {
    && t.id == s.id && t.bytes == s.bytes && (s.retired ==> t.retired)
    && (t.hasSource ==> s.hasSource) && (t.hasPending ==> s.hasPending) && Rank(s.backend) <= Rank(t.backend)
  }

  predicate PageForward(p: Page, q: Page) {
    && q.sub == p.sub && (p.creditReleased ==> q.creditReleased) && (q.hasRead ==> p.hasRead)
    && (q.hasBytes ==> p.hasBytes)
    && (p.acked ==> q.acked) && (p.retired ==> q.retired) && (p.workDone ==> q.workDone)
  }

  ghost predicate Forward(c: Conn, d: Conn) {
    && |c.subs| <= |d.subs| && |c.pages| <= |d.pages|
    && (forall i {:trigger SubForward(c.subs[i], d.subs[i])} :: 0 <= i < |c.subs| ==> SubForward(c.subs[i], d.subs[i]))
    && (forall p {:trigger PageForward(c.pages[p], d.pages[p])} :: 0 <= p < |c.pages| ==>
          PageForward(c.pages[p], d.pages[p]))
  }

  lemma ForwardTransitive(c: Conn, d: Conn, e: Conn)
    requires Forward(c, d) && Forward(d, e)
    ensures Forward(c, e)
  {
    forall i | 0 <= i < |c.subs| ensures SubForward(c.subs[i], e.subs[i]) {
      assert SubForward(c.subs[i], d.subs[i]) && SubForward(d.subs[i], e.subs[i]);
    }
    forall p | 0 <= p < |c.pages| ensures PageForward(c.pages[p], e.pages[p]) {
      assert PageForward(c.pages[p], d.pages[p]) && PageForward(d.pages[p], e.pages[p]);
    }
  }

  /** One subscription and one page changed, both forward. */
  lemma ForwardUpdate(c: Conn, d: Conn, i: nat, p: nat)
    requires |d.subs| == |c.subs| && |d.pages| == |c.pages|
    requires forall j :: 0 <= j < |c.subs| && j != i ==> d.subs[j] == c.subs[j]
    requires forall q :: 0 <= q < |c.pages| && q != p ==> d.pages[q] == c.pages[q]
    requires i < |c.subs| ==> SubForward(c.subs[i], d.subs[i])
    requires p < |c.pages| ==> PageForward(c.pages[p], d.pages[p])
    ensures Forward(c, d)
  {
  }

  lemma RetireForward(c: Conn, i: nat)
    requires CanRetire(c, i) && Shape(c)
    ensures Forward(c, RetireSub(c, i))
  {
    assert SubOk(c.pages, c.index, c.seen, c.subs[i], i);
    var p := if c.subs[i].page.Some? then c.subs[i].page.value else |c.pages|;
    ForwardUpdate(c, RetireSub(c, i), i, p);
  }

  lemma {:induction false} RetireFromForward(c: Conn, k: nat)
    requires Shape(c) && CanRetireAll(c) && k <= |c.subs|
    ensures Forward(c, RetireFrom(c, k))
    decreases |c.subs| - k
  {
    if k < |c.subs| {
      assert CanRetire(c, k);
      RetireKeepsCan(c, k);
      RetireShape(c, k);
      RetireForward(c, k);
      RetireFromForward(RetireSub(c, k), k + 1);
      ForwardTransitive(c, RetireSub(c, k), RetireFrom(c, k));
    }
  }

  predicate OfSub(step: Step) {
    step.Acquire? || step.Commit? || step.EndRegistration? || step.ReturnPending? || step.ReturnBackend?
  }

  lemma SubStepForward(c: Conn, step: Step, cfg: Config)
    requires Shape(c) && Enabled(c, step, cfg) && OfSub(step)
    ensures Forward(c, Apply(c, step, cfg))
  {
    ForwardUpdate(c, Apply(c, step, cfg), step.sub, |c.pages|);
  }

  lemma EndPageForward(c: Conn, p: nat, x: Page)
    requires ValidPage(c, p) && PageForward(c.pages[p], x)
    ensures Forward(c, EndPage(c, p, x))
  {
    ForwardUpdate(c, EndPage(c, p, x), c.pages[p].sub, p);
  }

  lemma PutPageForward(c: Conn, p: nat, x: Page)
    requires p < |c.pages| && PageForward(c.pages[p], x)
    ensures Forward(c, PutPage(c, p, x)) && Forward(c, c.(pages := c.pages[p := x]))
  {
    ForwardUpdate(c, PutPage(c, p, x), |c.subs|, p);
    ForwardUpdate(c, c.(pages := c.pages[p := x]), |c.subs|, p);
  }

  lemma QueueForward(c: Conn, p: nat)
    requires p < |c.pages|
    ensures Forward(c, ReplicaConnection.QueuePage(c, p))
  {
    PutPageForward(c, p, c.pages[p].(bufferHeld := true, producing := false));
    PutPageForward(c, p, c.pages[p].(bufferHeld := false, producing := false));
  }

  predicate OfPage(step: Step) {
    step.FailPage? || step.QueuePage? || step.AbandonPage?
  }

  lemma PageStepForward(c: Conn, step: Step, cfg: Config)
    requires Shape(c) && Enabled(c, step, cfg) && OfPage(step)
    ensures Forward(c, Apply(c, step, cfg))
  {
    var x := c.pages[step.page];
    match step
    case FailPage(p) => EndPageForward(c, p, x.(retired := true, producing := false));
    case QueuePage(p) => QueueForward(c, p);
    case AbandonPage(p) => PutPageForward(c, p, x.(producing := false));
  }

  lemma FinishForward(c: Conn, p: nat)
    requires ValidPage(c, p)
    ensures Forward(c, ReplicaConnection.FinishPage(c, p))
  {
    ForwardUpdate(c, ReplicaConnection.FinishPage(c, p), c.pages[p].sub, p);
  }

  lemma AckForward(c: Conn, i: nat, request: Id)
    requires Shape(c) && CanAck(c, i, request)
    ensures Forward(c, ReplicaConnection.Ack(c, i))
  {
    ForwardUpdate(c, ReplicaConnection.Ack(c, i), i, c.subs[i].page.value);
  }

  predicate OfWriter(step: Step) {
    step.WriterAccept? || step.WriterDiscard? || step.WriterWrote?
  }

  lemma WriterStepForward(c: Conn, step: Step, cfg: Config)
    requires Shape(c) && Enabled(c, step, cfg) && OfWriter(step)
    ensures Forward(c, Apply(c, step, cfg))
  {
    var p := c.writer.hand.value;
    var x := c.pages[p];
    match step
    case WriterAccept => PutPageForward(c, p, x.(sent := true));
    case WriterDiscard => EndPageForward(c, p, x.(bufferHeld := false, retired := true));
    case WriterWrote(_) => PutPageForward(c, p, x.(bufferHeld := false));
  }

  predicate Wide(step: Step) {
    step.Close? || step.StartAuth? || step.Retire? || step.Ack? || step.FinishPage?
  }

  lemma WideForward(c: Conn, step: Step, cfg: Config)
    requires Shape(c) && Enabled(c, step, cfg) && Wide(step)
    ensures Forward(c, Apply(c, step, cfg))
  {
    match step
    case Close => RetireFromForward(c, 0);
    case StartAuth => RetireFromForward(c, 0);
    case Retire(i) => RetireForward(c, i);
    case Ack(i, request) => AckForward(c, i, request);
    case FinishPage(p) => FinishForward(c, p);
  }

  lemma OtherForward(c: Conn, step: Step, cfg: Config)
    requires Enabled(c, step, cfg) && !Wide(step) && !OfSub(step) && !OfPage(step) && !OfWriter(step)
    ensures Forward(c, Apply(c, step, cfg))
  {
    if step.Admit? {
      AdmitForward(c, step.id, step.bytes);
    } else if step.StartRead? {
      ReadForward(c, step.sub, step.request);
    } else {
      ForwardUpdate(c, Apply(c, step, cfg), |c.subs|, |c.pages|);
    }
  }

  lemma AdmitForward(c: Conn, id: Id, bytes: int)
    ensures Forward(c, ReplicaConnection.Admit(c, id, bytes))
  {
  }

  lemma ReadForward(c: Conn, i: nat, request: Id)
    requires i < |c.subs|
    ensures Forward(c, ReplicaConnection.StartRead(c, i, request))
  {
  }

  /** Every step only returns: nothing handed back becomes held again. */
  lemma StepForward(c: Conn, step: Step, cfg: Config)
    requires Shape(c) && Enabled(c, step, cfg)
    ensures Forward(c, Apply(c, step, cfg))
  {
    if Wide(step) {
      WideForward(c, step, cfg);
    } else if OfSub(step) {
      SubStepForward(c, step, cfg);
    } else if OfPage(step) {
      PageStepForward(c, step, cfg);
    } else if OfWriter(step) {
      WriterStepForward(c, step, cfg);
    } else {
      OtherForward(c, step, cfg);
    }
  }

  /** Over every run: what a subscription or page has given back, it has given
      back for good. */
  lemma {:induction false} RunForward(c: Conn, steps: seq<Step>, cfg: Config)
    requires Inv(c, cfg) && Run(c, steps, cfg).Some?
    ensures Forward(c, Run(c, steps, cfg).value)
    decreases |steps|
  {
    if steps != [] {
      var d := Apply(c, steps[0], cfg);
      StepForward(c, steps[0], cfg);
      StepInv(c, steps[0], cfg);
      RunForward(d, steps[1..], cfg);
      ForwardTransitive(c, d, Run(c, steps, cfg).value);
    }
  }
}
