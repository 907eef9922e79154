/** Every run of the authorization scheduler: order, concurrency, rate, progress. */
module AuthSchedulerSafety {
  import opened Options
  import opened AuthScheduler

  datatype Grant = Grant(ticket: nat, time: real)

  /** The scheduler together with what its callers hold: `granted` were woken but
      have not returned yet, `holding` returned with a permit, `released` gave it
      back. `grants` is the history of permits. */
  datatype Machine = Machine(
    sched: Scheduler, issued: nat, granted: set<nat>, holding: set<nat>, released: set<nat>, grants: seq<Grant>)

  // ---------- steps ----------

  function GrantOne(m: Machine): (n: Machine)
    requires m.sched.waiters != []
  {
    var t := m.sched.waiters[0];
    m.(sched := GrantFirst(m.sched), granted := m.granted + {t}, grants := m.grants + [Grant(t, m.sched.updated)])
  }

  function GrantMany(m: Machine, cfg: Config): (n: Machine)
    decreases |m.sched.waiters|
  {
    if CanGrant(m.sched, cfg) then GrantMany(GrantOne(m), cfg) else m
  }

  function Dispatched(m: Machine, now: real, cfg: Config): (n: Machine) {
    var after := GrantMany(m.(sched := Refilled(m.sched, now, cfg)), cfg);
    after.(sched := Armed(after.sched, cfg))
  }

  datatype Step =
    | Enter(now: real)              // a caller asks for a permit
    | Take(ticket: nat)             // a woken caller returns with its permit
    | Abort(ticket: nat, now: real) // a woken caller finds its context ended
    | Leave(ticket: nat, now: real) // a waiting caller's context ends
    | Release(ticket: nat, now: real) // the release function is called, perhaps again
    | Refill(now: real)             // the refill timer fires

  predicate Enabled(m: Machine, step: Step) {
    match step
    case Enter(now) => now >= m.sched.updated
    case Take(t) => t in m.granted
    case Abort(t, now) => t in m.granted && now >= m.sched.updated
    case Leave(t, now) => t in m.sched.waiters && now >= m.sched.updated
    case Release(t, now) => (t in m.holding || t in m.released) && now >= m.sched.updated
    case Refill(now) => now >= m.sched.updated
  }

  function Entered(m: Machine): (n: Machine) {
    m.(sched := m.sched.(waiters := m.sched.waiters + [m.issued]), issued := m.issued + 1)
  }

  function Returned(m: Machine, t: nat): (n: Machine) {
    m.(sched := m.sched.(running := m.sched.running - 1), granted := m.granted - {t}, holding := m.holding - {t},
       released := m.released + {t})
  }

  function Left(m: Machine, t: nat): (n: Machine) {
    m.(sched := m.sched.(waiters := Without(m.sched.waiters, t)))
  }

  function Apply(m: Machine, step: Step, cfg: Config): (n: Machine)
    requires Enabled(m, step)
  {
    match step
    case Enter(now) =>
      if |m.sched.waiters| >= cfg.capacity then m
      else Dispatched(Entered(m), now, cfg)
    case Take(t) => m.(granted := m.granted - {t}, holding := m.holding + {t})
    case Abort(t, now) => Dispatched(Returned(m, t), now, cfg)
    case Leave(t, now) => Dispatched(Left(m, t), now, cfg)
    case Release(t, now) =>
      if t !in m.holding then m else Dispatched(Returned(m, t), now, cfg)
    case Refill(now) => Dispatched(m, now, cfg)
  }

  /** The scheduler component moves exactly as the object's methods say. */
  lemma {:induction false} GrantManySched(m: Machine, cfg: Config)
    ensures GrantMany(m, cfg).sched == GrantAll(m.sched, cfg)
    decreases |m.sched.waiters|
  {
    if CanGrant(m.sched, cfg) {
      GrantManySched(GrantOne(m), cfg);
    }
  }

  lemma ApplyRefines(m: Machine, step: Step, cfg: Config)
    requires Enabled(m, step)
    ensures var s := m.sched;
            Apply(m, step, cfg).sched ==
            match step
            case Enter(now) => if |s.waiters| >= cfg.capacity then s else Enqueue(s, m.issued, now, cfg)
            case Take(_) => s
            case Abort(t, now) => AuthScheduler.Release(s, now, cfg)
            case Leave(t, now) => Cancel(s, t, false, now, cfg)
            case Release(t, now) => if t in m.holding then AuthScheduler.Release(s, now, cfg) else s
            case Refill(now) => Dispatch(s, now, cfg)
  {
    match step
    case Enter(now) => GrantManySched(Entered(m).(sched := Refilled(Entered(m).sched, now, cfg)), cfg);
    case Take(_) =>
    case Abort(t, now) => GrantManySched(Returned(m, t).(sched := Refilled(Returned(m, t).sched, now, cfg)), cfg);
    case Leave(t, now) => GrantManySched(Left(m, t).(sched := Refilled(Left(m, t).sched, now, cfg)), cfg);
    case Release(t, now) => GrantManySched(Returned(m, t).(sched := Refilled(Returned(m, t).sched, now, cfg)), cfg);
    case Refill(now) => GrantManySched(m.(sched := Refilled(m.sched, now, cfg)), cfg);
  }

  function Run(m: Machine, steps: seq<Step>, cfg: Config): (r: Option<Machine>)
    decreases |steps|
  {
    if steps == [] then Some(m)
    else if !Enabled(m, steps[0]) then None
    else Run(Apply(m, steps[0], cfg), steps[1..], cfg)
  }

  function Start(cfg: Config, now: real): (m: Machine) {
    Machine(AuthScheduler.Initial(cfg, now), 0, {}, {}, {}, [])
  }

  // ---------- invariant ----------

  /** Arrival order: waiting tickets ascend, are all newer than any grant, and
      grants ascend. */
  predicate Ordered(waiters: seq<nat>, grants: seq<Grant>, issued: nat) {
    && (forall i, j :: 0 <= i < j < |waiters| ==> waiters[i] < waiters[j])
    && (forall i, j :: 0 <= i < j < |grants| ==> grants[i].ticket < grants[j].ticket)
    && (forall i, j :: 0 <= i < |grants| && 0 <= j < |waiters| ==> grants[i].ticket < waiters[j])
    && (forall j :: 0 <= j < |waiters| ==> waiters[j] < issued)
    && (forall i :: 0 <= i < |grants| ==> grants[i].ticket < issued)
  }

  function Tickets(grants: seq<Grant>): (r: set<nat>) {
    if grants == [] then {} else Tickets(grants[..|grants| - 1]) + {grants[|grants| - 1].ticket}
  }

  /** Each permit ever granted is woken, held or released, and never two of them;
      the running count is the number not yet released. */
  predicate Accounted(running: int, granted: set<nat>, holding: set<nat>, released: set<nat>, grants: seq<Grant>) {
    && granted !! holding && granted !! released && holding !! released
    && granted + holding + released == Tickets(grants)
    && running == |granted| + |holding|
  }

  /** Tokens that flow in over the first `t` seconds. */
  function Earned(t: real, cfg: Config): (r: real) {
    cfg.rate as real * t
  }

  /** The bucket never holds more than what the grants since any earlier one, and
      the time since, leave. */
  predicate BucketAt(tokens: real, updated: real, grants: seq<Grant>, i: nat, cfg: Config)
    requires i < |grants|
  {
    tokens + (|grants| - i) as real <= cfg.burst as real + Earned(updated, cfg) - Earned(grants[i].time, cfg)
  }

  predicate WindowAt(grants: seq<Grant>, i: nat, j: nat, cfg: Config)
    requires i < |grants| && j < |grants|
  {
    i <= j ==>
      grants[i].time <= grants[j].time &&
      (j - i + 1) as real <= cfg.burst as real + Earned(grants[j].time, cfg) - Earned(grants[i].time, cfg)
  }

  ghost predicate Paced(tokens: real, updated: real, grants: seq<Grant>, cfg: Config) {
    && 0.0 <= tokens <= cfg.burst as real
    && (forall i {:trigger BucketAt(tokens, updated, grants, i, cfg)} :: 0 <= i < |grants| ==>
          BucketAt(tokens, updated, grants, i, cfg))
    && (forall i, j {:trigger WindowAt(grants, i, j, cfg)} :: 0 <= i <= j < |grants| ==> WindowAt(grants, i, j, cfg))
    && (forall i :: 0 <= i < |grants| ==> grants[i].time <= updated)
  }

  ghost predicate Core(m: Machine, cfg: Config) {
    && Ordered(m.sched.waiters, m.grants, m.issued)
    && Accounted(m.sched.running, m.granted, m.holding, m.released, m.grants)
    && m.sched.running <= cfg.concurrency
    && Paced(m.sched.tokens, m.sched.updated, m.grants, cfg)
    && |m.sched.waiters| <= cfg.capacity
  }

  predicate NotStranded(s: Scheduler, cfg: Config) {
    s.waiters == [] || s.running >= cfg.concurrency || s.armed
  }

  ghost predicate Inv(m: Machine, cfg: Config) {
    Core(m, cfg) && NotStranded(m.sched, cfg)
  }

  // ---------- preservation ----------

  lemma GrantOrdered(waiters: seq<nat>, grants: seq<Grant>, issued: nat, now: real)
    requires Ordered(waiters, grants, issued) && waiters != []
    ensures Ordered(waiters[1..], grants + [Grant(waiters[0], now)], issued)
  {
  }

  lemma GrantAccounted(running: int, granted: set<nat>, holding: set<nat>, released: set<nat>, grants: seq<Grant>,
                       g: Grant)
    requires Accounted(running, granted, holding, released, grants) && g.ticket !in Tickets(grants)
    ensures Accounted(running + 1, granted + {g.ticket}, holding, released, grants + [g])
  {
    TicketsAppend(grants, g);
  }

  lemma TakeAccounted(running: int, granted: set<nat>, holding: set<nat>, released: set<nat>, grants: seq<Grant>,
                      t: nat)
    requires Accounted(running, granted, holding, released, grants) && t in granted
    ensures Accounted(running, granted - {t}, holding + {t}, released, grants)
  {
    assert granted - {t} + (holding + {t}) + released == granted + holding + released;
  }

  lemma ReturnAccounted(running: int, granted: set<nat>, holding: set<nat>, released: set<nat>, grants: seq<Grant>,
                        t: nat)
    requires Accounted(running, granted, holding, released, grants) && (t in granted || t in holding)
    ensures Accounted(running - 1, granted - {t}, holding - {t}, released + {t}, grants)
  {
    MoveOut(granted, holding, released, t);
  }

  lemma MoveOut(granted: set<nat>, holding: set<nat>, released: set<nat>, t: nat)
    requires granted !! holding && (t in granted || t in holding)
    ensures granted - {t} + (holding - {t}) + (released + {t}) == granted + holding + released
    ensures |granted - {t}| + |holding - {t}| == |granted| + |holding| - 1
  {
    if t in granted {
      assert holding - {t} == holding;
    } else {
      assert granted - {t} == granted;
    }
  }

  lemma TicketsAppend(grants: seq<Grant>, g: Grant)
    ensures Tickets(grants + [g]) == Tickets(grants) + {g.ticket}
  {
    assert (grants + [g])[..|grants|] == grants;
  }

  lemma GrantPaced(tokens: real, now: real, grants: seq<Grant>, t: nat, cfg: Config)
    requires ValidConfig(cfg) && Paced(tokens, now, grants, cfg) && tokens >= 1.0
    ensures Paced(tokens - 1.0, now, grants + [Grant(t, now)], cfg)
  {
    var more := grants + [Grant(t, now)];
    var less := tokens - 1.0;
    forall i | 0 <= i < |more| ensures BucketAt(less, now, more, i, cfg) {
      if i < |grants| {
        assert BucketAt(tokens, now, grants, i, cfg);
      }
    }
    forall i, j | 0 <= i <= j < |more| ensures WindowAt(more, i, j, cfg) {
      if j < |grants| {
        assert WindowAt(grants, i, j, cfg);
      } else {
        assert BucketAt(less, now, more, i, cfg);
      }
    }
  }

  lemma RefillPaced(s: Scheduler, now: real, grants: seq<Grant>, cfg: Config)
    requires ValidConfig(cfg) && Paced(s.tokens, s.updated, grants, cfg) && now >= s.updated
    ensures Paced(Refilled(s, now, cfg).tokens, now, grants, cfg)
  {
    var tokens, inflow := Refilled(s, now, cfg).tokens, Inflow(s.updated, now, cfg);
    InflowEarned(s.updated, now, cfg);
    assert 0.0 <= tokens <= s.tokens + inflow && tokens <= cfg.burst as real;
    forall i | 0 <= i < |grants| ensures BucketAt(tokens, now, grants, i, cfg) {
      assert BucketAt(s.tokens, s.updated, grants, i, cfg);
      BucketRefilled(s.tokens, tokens, inflow, (|grants| - i) as real, cfg.burst as real,
                     Earned(s.updated, cfg), Earned(now, cfg), Earned(grants[i].time, cfg));
    }
    forall i, j | 0 <= i <= j < |grants| ensures WindowAt(grants, i, j, cfg) {
      assert WindowAt(grants, i, j, cfg);
    }
  }

  lemma BucketRefilled(before: real, after: real, inflow: real, count: real, burst: real, earlier: real,
                       later: real, granted: real)
    requires after <= before + inflow && inflow == later - earlier && before + count <= burst + earlier - granted
    ensures after + count <= burst + later - granted
  {
  }

  lemma InflowEarned(from: real, to: real, cfg: Config)
    requires ValidConfig(cfg) && from <= to
    ensures Inflow(from, to, cfg) == Earned(to, cfg) - Earned(from, cfg) && Inflow(from, to, cfg) >= 0.0
  {
    Distribute(cfg.rate as real, to, from);
    Product(to - from, cfg.rate as real);
  }

  lemma Product(x: real, y: real)
    requires x >= 0.0 && y >= 0.0
    ensures x * y >= 0.0
  {
  }

  lemma Distribute(r: real, a: real, b: real)
    ensures (a - b) * r == r * a - r * b && r * (a - b) == r * a - r * b
  {
  }

  lemma GrantCore(m: Machine, cfg: Config)
    requires ValidConfig(cfg) && Core(m, cfg) && CanGrant(m.sched, cfg)
    ensures Core(GrantOne(m), cfg)
  {
    GrantOneOrdered(m);
    GrantOneAccounted(m);
    GrantPaced(m.sched.tokens, m.sched.updated, m.grants, m.sched.waiters[0], cfg);
  }

  lemma GrantOneOrdered(m: Machine)
    requires m.sched.waiters != [] && Ordered(m.sched.waiters, m.grants, m.issued)
    ensures var n := GrantOne(m); Ordered(n.sched.waiters, n.grants, n.issued)
  {
    GrantOrdered(m.sched.waiters, m.grants, m.issued, m.sched.updated);
  }

  lemma GrantOneAccounted(m: Machine)
    requires m.sched.waiters != [] && Ordered(m.sched.waiters, m.grants, m.issued)
    requires Accounted(m.sched.running, m.granted, m.holding, m.released, m.grants)
    ensures var n := GrantOne(m); Accounted(n.sched.running, n.granted, n.holding, n.released, n.grants)
  {
    GrantFresh(m.sched.waiters, m.grants, m.issued);
    GrantAccounted(m.sched.running, m.granted, m.holding, m.released, m.grants,
                   Grant(m.sched.waiters[0], m.sched.updated));
  }

  lemma GrantFresh(waiters: seq<nat>, grants: seq<Grant>, issued: nat)
    requires Ordered(waiters, grants, issued) && waiters != []
    ensures waiters[0] !in Tickets(grants)
  {
    FreshTicket(grants, waiters[0]);
  }

  lemma {:induction false} FreshTicket(grants: seq<Grant>, t: nat)
    requires forall i :: 0 <= i < |grants| ==> grants[i].ticket < t
    ensures t !in Tickets(grants)
  {
    if grants != [] {
      FreshTicket(grants[..|grants| - 1], t);
    }
  }

  lemma {:induction false} GrantManyCore(m: Machine, cfg: Config)
    requires ValidConfig(cfg) && Core(m, cfg)
    ensures Core(GrantMany(m, cfg), cfg) && !CanGrant(GrantMany(m, cfg).sched, cfg)
    decreases |m.sched.waiters|
  {
    if CanGrant(m.sched, cfg) {
      GrantCore(m, cfg);
      GrantManyCore(GrantOne(m), cfg);
    }
  }

  lemma DispatchInv(m: Machine, now: real, cfg: Config)
    requires ValidConfig(cfg) && Core(m, cfg) && now >= m.sched.updated
    ensures Inv(Dispatched(m, now, cfg), cfg)
  {
    RefillPaced(m.sched, now, m.grants, cfg);
    GrantManyCore(m.(sched := Refilled(m.sched, now, cfg)), cfg);
  }

  lemma {:induction false} WithoutKept(waiters: seq<nat>, t: nat)
    ensures |Without(waiters, t)| <= |waiters|
    ensures forall x :: x in Without(waiters, t) ==> x in waiters
    ensures (forall i, j :: 0 <= i < j < |waiters| ==> waiters[i] < waiters[j]) ==>
            forall i, j :: 0 <= i < j < |Without(waiters, t)| ==> Without(waiters, t)[i] < Without(waiters, t)[j]
  {
    if waiters != [] && waiters[0] != t {
      WithoutKept(waiters[1..], t);
      var rest := Without(waiters[1..], t);
      if forall i, j :: 0 <= i < j < |waiters| ==> waiters[i] < waiters[j] {
        forall j | 0 <= j < |rest| ensures waiters[0] < rest[j] {
          assert rest[j] in waiters[1..];
        }
      }
    }
  }

  lemma LeaveOrdered(waiters: seq<nat>, grants: seq<Grant>, issued: nat, t: nat)
    requires Ordered(waiters, grants, issued)
    ensures Ordered(Without(waiters, t), grants, issued) && |Without(waiters, t)| <= |waiters|
  {
    WithoutKept(waiters, t);
    var rest := Without(waiters, t);
    forall j | 0 <= j < |rest| ensures rest[j] in waiters {
    }
  }

  lemma EnterOrdered(waiters: seq<nat>, grants: seq<Grant>, issued: nat)
    requires Ordered(waiters, grants, issued)
    ensures Ordered(waiters + [issued], grants, issued + 1)
  {
  }

  lemma EnteredCore(m: Machine, cfg: Config)
    requires Core(m, cfg) && |m.sched.waiters| < cfg.capacity
    ensures Core(Entered(m), cfg)
  {
    EnterOrdered(m.sched.waiters, m.grants, m.issued);
  }

  lemma ReturnedCore(m: Machine, t: nat, cfg: Config)
    requires Core(m, cfg) && (t in m.granted || t in m.holding)
    ensures Core(Returned(m, t), cfg)
  {
    ReturnAccounted(m.sched.running, m.granted, m.holding, m.released, m.grants, t);
  }

  lemma LeftCore(m: Machine, t: nat, cfg: Config)
    requires Core(m, cfg)
    ensures Core(Left(m, t), cfg)
  {
    LeaveOrdered(m.sched.waiters, m.grants, m.issued, t);
  }

  lemma TakeInv(m: Machine, t: nat, cfg: Config)
    requires Inv(m, cfg) && t in m.granted
    ensures Inv(m.(granted := m.granted - {t}, holding := m.holding + {t}), cfg)
  {
    TakeAccounted(m.sched.running, m.granted, m.holding, m.released, m.grants, t);
  }

  /** Each step keeps the invariant. */
  lemma StepInv(m: Machine, step: Step, cfg: Config)
    requires ValidConfig(cfg) && Inv(m, cfg) && Enabled(m, step)
    ensures Inv(Apply(m, step, cfg), cfg)
  {
    match step
    case Enter(now) =>
      if |m.sched.waiters| < cfg.capacity {
        EnteredCore(m, cfg);
        DispatchInv(Entered(m), now, cfg);
      }
    case Take(t) => TakeInv(m, t, cfg);
    case Abort(t, now) =>
      ReturnedCore(m, t, cfg);
      DispatchInv(Returned(m, t), now, cfg);
    case Leave(t, now) =>
      LeftCore(m, t, cfg);
      DispatchInv(Left(m, t), now, cfg);
    case Release(t, now) =>
      if t in m.holding {
        ReturnedCore(m, t, cfg);
        DispatchInv(Returned(m, t), now, cfg);
      }
    case Refill(now) => DispatchInv(m, now, cfg);
  }

  lemma {:induction false} RunInv(m: Machine, steps: seq<Step>, cfg: Config)
    requires ValidConfig(cfg) && Inv(m, cfg) && Run(m, steps, cfg).Some?
    ensures Inv(Run(m, steps, cfg).value, cfg)
    decreases |steps|
  {
    if steps != [] {
      StepInv(m, steps[0], cfg);
      RunInv(Apply(m, steps[0], cfg), steps[1..], cfg);
    }
  }

  lemma Reachable(cfg: Config, start: real, steps: seq<Step>)
    requires ValidConfig(cfg) && Run(Start(cfg, start), steps, cfg).Some?
    ensures Inv(Run(Start(cfg, start), steps, cfg).value, cfg)
  {
    RunInv(Start(cfg, start), steps, cfg);
  }

  // ---------- theorems over every run ----------

  /** Permits are granted in arrival order, and nobody still waiting arrived
      before a caller already served. */
  lemma FirstComeFirstServed(cfg: Config, start: real, steps: seq<Step>)
    requires ValidConfig(cfg) && Run(Start(cfg, start), steps, cfg).Some?
    ensures var m := Run(Start(cfg, start), steps, cfg).value;
            (forall i, j :: 0 <= i < j < |m.grants| ==> m.grants[i].ticket < m.grants[j].ticket) &&
            (forall g, w :: g in m.grants && w in m.sched.waiters ==> g.ticket < w)
  {
    Reachable(cfg, start, steps);
  }

  /** Running permits never exceed the limit, and are exactly those granted and
      not released; each permit is released at most once. */
  lemma ConcurrencyBounded(cfg: Config, start: real, steps: seq<Step>)
    requires ValidConfig(cfg) && Run(Start(cfg, start), steps, cfg).Some?
    ensures var m := Run(Start(cfg, start), steps, cfg).value;
            0 <= m.sched.running <= cfg.concurrency && |m.sched.waiters| <= cfg.capacity &&
            m.sched.running == |Tickets(m.grants) - m.released| && m.released <= Tickets(m.grants)
  {
    Reachable(cfg, start, steps);
    var m := Run(Start(cfg, start), steps, cfg).value;
    assert Tickets(m.grants) - m.released == m.granted + m.holding;
  }

  lemma ReachablePaced(cfg: Config, start: real, steps: seq<Step>)
    requires ValidConfig(cfg) && Run(Start(cfg, start), steps, cfg).Some?
    ensures var m := Run(Start(cfg, start), steps, cfg).value;
            Paced(m.sched.tokens, m.sched.updated, m.grants, cfg)
  {
    Reachable(cfg, start, steps);
  }

  lemma PacedWindow(tokens: real, updated: real, grants: seq<Grant>, cfg: Config, i: nat, j: nat)
    requires Paced(tokens, updated, grants, cfg) && i <= j < |grants|
    ensures grants[i].time <= grants[j].time
    ensures (j - i + 1) as real <= cfg.burst as real + cfg.rate as real * (grants[j].time - grants[i].time)
  {
    assert WindowAt(grants, i, j, cfg);
    Distribute(cfg.rate as real, grants[j].time, grants[i].time);
  }

  /** Permits are issued in time order, and those between any two of them fit the
      burst plus what flows in between. */
  lemma RateBounded(cfg: Config, start: real, steps: seq<Step>, i: nat, j: nat)
    requires ValidConfig(cfg) && Run(Start(cfg, start), steps, cfg).Some?
    requires i <= j < |Run(Start(cfg, start), steps, cfg).value.grants|
    ensures var grants := Run(Start(cfg, start), steps, cfg).value.grants;
            grants[i].time <= grants[j].time &&
            (j - i + 1) as real <= cfg.burst as real + cfg.rate as real * (grants[j].time - grants[i].time)
  {
    var m := Run(Start(cfg, start), steps, cfg).value;
    ReachablePaced(cfg, start, steps);
    PacedWindow(m.sched.tokens, m.sched.updated, m.grants, cfg, i, j);
  }

  /** No waiter is stranded: a nonempty queue means the limit is reached or the
      refill timer is armed. */
  lemma NeverStranded(cfg: Config, start: real, steps: seq<Step>)
    requires ValidConfig(cfg) && Run(Start(cfg, start), steps, cfg).Some?
    ensures var s := Run(Start(cfg, start), steps, cfg).value.sched;
            s.waiters != [] ==> s.running >= cfg.concurrency || s.armed
  {
    Reachable(cfg, start, steps);
  }

  /** By the time the armed timer fires, the bucket has a token, so the dispatch
      it runs serves the oldest waiter. */
  lemma TimerServes(s: Scheduler, now: real, cfg: Config)
    requires ValidConfig(cfg) && s.waiters != [] && s.running < cfg.concurrency && 0.0 <= s.tokens
    requires now >= s.updated + DelayNs(s, cfg) as real / 1000000000.0
    ensures CanGrant(Refilled(s, now, cfg), cfg)
    ensures |Dispatch(s, now, cfg).waiters| < |s.waiters|
  {
    EnoughInflow(s.tokens, cfg.rate as real, DelayNs(s, cfg), now - s.updated);
    var r := Refilled(s, now, cfg);
    assert r.tokens >= 1.0;
    GrantShrinks(GrantFirst(r), cfg);
  }

  lemma EnoughInflow(tokens: real, rate: real, ns: int, wait: real)
    requires rate >= 1.0 && ns as real >= (1.0 - tokens) / rate * 1000000000.0 && wait >= ns as real / 1000000000.0
    ensures wait * rate >= 1.0 - tokens
  {
    var need := (1.0 - tokens) / rate;
    assert wait >= need;
    RatioTimes(1.0 - tokens, rate, wait);
  }

  lemma {:induction false} GrantShrinks(s: Scheduler, cfg: Config)
    ensures |GrantAll(s, cfg).waiters| <= |s.waiters|
    decreases |s.waiters|
  {
    if CanGrant(s, cfg) {
      GrantShrinks(GrantFirst(s), cfg);
    }
  }
}
