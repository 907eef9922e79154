/** The authorization scheduler: a bounded FIFO queue in front of a token bucket
    and a concurrency limit, with one shared refill timer. Waiters are numbered in
    arrival order; times are seconds. */
module AuthScheduler {
  import opened Options

  datatype Config = Config(concurrency: int, rate: int, burst: int, capacity: int)

  /** What defaulting guarantees of a configuration. */
  predicate ValidConfig(cfg: Config) {
    cfg.concurrency >= 1 && cfg.rate >= 1 && cfg.burst >= 1 && cfg.capacity >= 1
  }

  datatype Scheduler = Scheduler(waiters: seq<nat>, tokens: real, updated: real, running: int, armed: bool)

  // ---------- specification of the critical sections ----------

  function Min(x: real, y: real): (r: real) {
    if x < y then x else y
  }

  /** Tokens that flow in between two instants. */
  function Inflow(from: real, to: real, cfg: Config): (r: real) {
    (to - from) * cfg.rate as real
  }

  function Refilled(s: Scheduler, now: real, cfg: Config): (r: Scheduler) {
    s.(tokens := Min(cfg.burst as real, s.tokens + Inflow(s.updated, now, cfg)), updated := now, armed := false)
  }

  predicate CanGrant(s: Scheduler, cfg: Config) {
    s.waiters != [] && s.running < cfg.concurrency && s.tokens >= 1.0
  }

  function GrantFirst(s: Scheduler): (r: Scheduler)
    requires s.waiters != []
  {
    s.(waiters := s.waiters[1..], tokens := s.tokens - 1.0, running := s.running + 1)
  }

  function GrantAll(s: Scheduler, cfg: Config): (r: Scheduler)
    decreases |s.waiters|
  {
    if CanGrant(s, cfg) then GrantAll(GrantFirst(s), cfg) else s
  }

  function Armed(s: Scheduler, cfg: Config): (r: Scheduler) {
    s.(armed := s.waiters != [] && s.running < cfg.concurrency)
  }

  function Dispatch(s: Scheduler, now: real, cfg: Config): (r: Scheduler) {
    Armed(GrantAll(Refilled(s, now, cfg), cfg), cfg)
  }

  function Enqueue(s: Scheduler, ticket: nat, now: real, cfg: Config): (r: Scheduler) {
    Dispatch(s.(waiters := s.waiters + [ticket]), now, cfg)
  }

  function Without(waiters: seq<nat>, ticket: nat): (r: seq<nat>)
    ensures ticket !in waiters ==> r == waiters
  {
    if waiters == [] then []
    else if waiters[0] == ticket then waiters[1..]
    else [waiters[0]] + Without(waiters[1..], ticket)
  }

  /** Removing the first occurrence is a shift of everything behind it. */
  lemma {:induction false} WithoutAt(waiters: seq<nat>, i: nat, ticket: nat)
    requires i <= |waiters| && ticket !in waiters[..i] && (i < |waiters| ==> waiters[i] == ticket)
    ensures Without(waiters, ticket) == if i < |waiters| then waiters[..i] + waiters[i + 1..] else waiters
    decreases |waiters|
  {
    if i == |waiters| {
      assert waiters[..i] == waiters;
    } else if i > 0 {
      assert waiters[0] == waiters[..i][0];
      assert waiters[1..][..i - 1] == waiters[..i][1..];
      WithoutAt(waiters[1..], i - 1, ticket);
    }
  }

  function Cancel(s: Scheduler, ticket: nat, granted: bool, now: real, cfg: Config): (r: Scheduler) {
    if granted then Release(s, now, cfg)
    else Dispatch(s.(waiters := Without(s.waiters, ticket)), now, cfg)
  }

  function Release(s: Scheduler, now: real, cfg: Config): (r: Scheduler) {
    Dispatch(s.(running := s.running - 1), now, cfg)
  }

  function Ceil(x: real): (n: int)
    ensures n as real >= x && n as real < x + 1.0
  {
    if x.Floor as real == x then x.Floor else x.Floor + 1
  }

  /** Seconds an overloaded caller is told to wait. */
  function RetryAfter(s: Scheduler, cfg: Config): (seconds: int)
    requires ValidConfig(cfg)
    ensures seconds >= 1 && seconds as real * cfg.rate as real >= |s.waiters| as real + 1.0
  {
    var wait := Ceil((|s.waiters| + 1) as real / cfg.rate as real);
    assert wait as real * cfg.rate as real >= (|s.waiters| + 1) as real by {
      RatioTimes((|s.waiters| + 1) as real, cfg.rate as real, wait as real);
    }
    if wait < 1 then 1 else wait
  }

  lemma RatioTimes(a: real, b: real, c: real)
    requires b > 0.0 && c >= a / b
    ensures c * b >= a
  {
    assert a / b * b == a;
  }

  /** Nanoseconds until the armed timer fires. */
  function DelayNs(s: Scheduler, cfg: Config): (ns: int)
    requires ValidConfig(cfg)
    ensures ns >= 1
  {
    var delay := Ceil((1.0 - s.tokens) / cfg.rate as real * 1000000000.0);
    if delay < 1 then 1 else delay
  }

  // ---------- the scheduler object ----------

  class AuthBudget {
    const cfg: Config
    var waiters: seq<nat>
    var tokens: real
    var updated: real
    var running: int
    var armed: bool

    ghost function View(): (s: Scheduler)
      reads this
    {
      Scheduler(waiters, tokens, updated, running, armed)
    }

    constructor (cfg: Config, now: real)
      requires ValidConfig(cfg)
      ensures this.cfg == cfg && View() == Initial(cfg, now)
    {
      this.cfg := cfg;
      waiters, tokens, updated, running, armed := [], cfg.burst as real, now, 0, false;
    }

    method DispatchLocked(now: real)
      modifies this
      ensures View() == Dispatch(old(View()), now, cfg)
    {
      armed := false;
      tokens := Min(cfg.burst as real, tokens + Inflow(updated, now, cfg));
      updated := now;
      ghost var refilled := View();
      assert refilled == Refilled(old(View()), now, cfg);
      while |waiters| > 0 && running < cfg.concurrency && tokens >= 1.0
        invariant !armed && GrantAll(View(), cfg) == GrantAll(refilled, cfg)
        decreases |waiters|
      {
        ghost var before := View();
        waiters := waiters[1..];
        tokens := tokens - 1.0;
        running := running + 1;
        assert View() == GrantFirst(before);
      }
      ghost var granted := View();
      assert granted == GrantAll(refilled, cfg);
      if |waiters| > 0 && running < cfg.concurrency {
        armed := true;
      }
      assert View() == Armed(granted, cfg);
    }

    /** Refuses when the queue is full; otherwise queues and dispatches. */
    method Enter(ticket: nat, now: real) returns (busy: Option<int>)
      requires ValidConfig(cfg)
      modifies this
      ensures busy.Some? <==> |old(waiters)| >= cfg.capacity
      ensures busy.Some? ==> View() == old(View()) && busy.value == RetryAfter(old(View()), cfg)
      ensures busy.None? ==> View() == Enqueue(old(View()), ticket, now, cfg)
    {
      if |waiters| >= cfg.capacity {
        return Some(RetryAfter(Scheduler(waiters, tokens, updated, running, armed), cfg));
      }
      waiters := waiters + [ticket];
      DispatchLocked(now);
      return None;
    }

    method RemoveWaiter(ticket: nat)
      modifies this`waiters
      ensures waiters == Without(old(waiters), ticket)
    {
      var i := 0;
      while i < |waiters| && waiters[i] != ticket
        invariant 0 <= i <= |waiters| && waiters == old(waiters)
        invariant ticket !in waiters[..i]
      {
        i := i + 1;
      }
      WithoutAt(waiters, i, ticket);
      if i < |waiters| {
        waiters := waiters[..i] + waiters[i + 1..];
      }
    }

    /** The caller's context ended while it waited. */
    method Leave(ticket: nat, granted: bool, now: real)
      modifies this
      ensures View() == Cancel(old(View()), ticket, granted, now, cfg)
    {
      if granted {
        running := running - 1;
      } else {
        RemoveWaiter(ticket);
      }
      DispatchLocked(now);
    }

    method ReleaseAuth(now: real)
      modifies this
      ensures View() == Release(old(View()), now, cfg)
    {
      running := running - 1;
      DispatchLocked(now);
    }
  }

  function Initial(cfg: Config, now: real): (s: Scheduler) {
    Scheduler([], cfg.burst as real, now, 0, false)
  }
}
