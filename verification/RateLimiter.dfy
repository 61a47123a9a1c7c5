/** The per-IP token bucket with lazy cleanup. Clock readings are parameters; a check reads the clock when
    it considers cleanup, when it creates a missing bucket, and when it refills. */
module RateLimiter {
  import opened Seqs

  datatype Bucket = Bucket(tokens: real, lastRefill: real)

  type Buckets = map<string, Bucket>

  /** burst tokens at most, refilled over window seconds. */
  datatype Config = Config(burst: real, window: real) {
    ghost predicate Valid() {
      burst >= 0.0 && window > 0.0
    }

    function Rate(): real
      requires window != 0.0
    {
      burst / window
    }
  }

  const CLEANUP_INTERVAL := 300.0

  datatype Limiter = Limiter(buckets: Buckets, lastCleanup: real)

  datatype Check = Check(ip: string, t0: real, t1: real, t2: real)

  function Min(a: real, b: real): real {
    if a <= b then a else b
  }

  /** The tokens that d seconds bring. */
  function Refill(cfg: Config, d: real): real
    requires cfg.window != 0.0
  {
    d * cfg.Rate()
  }

  function Refilled(b: Bucket, cfg: Config, now: real): Bucket
    requires cfg.window != 0.0
  {
    Bucket(Min(cfg.burst, b.tokens + Refill(cfg, now - b.lastRefill)), now)
  }

  function Cleaned(l: Limiter, cfg: Config, now: real): Limiter {
    if now - l.lastCleanup < CLEANUP_INTERVAL then l
    else Limiter(map ip | ip in l.buckets && !(now - l.buckets[ip].lastRefill > cfg.window * 2.0) :: l.buckets[ip], now)
  }

  function Fetched(l: Limiter, cfg: Config, c: Check): Bucket
    requires cfg.window != 0.0
  {
    Refilled(if c.ip in l.buckets then l.buckets[c.ip] else Bucket(cfg.burst, c.t1), cfg, c.t2)
  }

  function Spent(b: Bucket): Bucket {
    if b.tokens >= 1.0 then b.(tokens := b.tokens - 1.0) else b
  }

  /** A check without cleanup: the new limiter and whether the request is allowed. */
  function Served(l: Limiter, cfg: Config, c: Check): (Limiter, bool)
    requires cfg.window != 0.0
  {
    var b := Fetched(l, cfg, c);
    (l.(buckets := l.buckets[c.ip := Spent(b)]), b.tokens >= 1.0)
  }

  function Checked(l: Limiter, cfg: Config, c: Check): (Limiter, bool)
    requires cfg.window != 0.0
  {
    Served(Cleaned(l, cfg, c.t0), cfg, c)
  }

  class RateLimiter {
    const cfg: Config
    var buckets: Buckets
    var lastCleanup: real

    ghost function State(): Limiter
      reads this
    {
      Limiter(buckets, lastCleanup)
    }

    /** `burst` falls back to `rate` when it is absent or 0. */
    constructor (rate: int, window: int, burst: Option<int>, now: real)
      ensures State() == Limiter(map[], now) && cfg.window == window as real
      ensures cfg.burst == (if burst.Some? && burst.value != 0 then burst.value else rate) as real
    {
      cfg := Config((if burst.Some? && burst.value != 0 then burst.value else rate) as real, window as real);
      buckets, lastCleanup := map[], now;
    }

    method MaybeCleanup(now: real)
      modifies this
      ensures State() == Cleaned(old(State()), cfg, now)
      ensures now - old(lastCleanup) < 300.0 ==> buckets == old(buckets) && lastCleanup == old(lastCleanup)
      ensures now - old(lastCleanup) >= 300.0 ==> lastCleanup == now
      ensures now - old(lastCleanup) >= 300.0 ==>
                forall ip :: ip in buckets <==> ip in old(buckets) && now - old(buckets)[ip].lastRefill <= 2.0 * cfg.window
    {
      if now - lastCleanup < CLEANUP_INTERVAL { return; }
      lastCleanup := now;
      var stale := set ip | ip in buckets && now - buckets[ip].lastRefill > cfg.window * 2.0;
      var todo := stale;
      while todo != {}
        invariant todo <= stale && buckets == old(buckets) - (stale - todo) && lastCleanup == now
      {
        var ip :| ip in todo;
        buckets := buckets - {ip};
        todo := todo - {ip};
      }
    }

    method DoCheck(ip: string, t0: real, t1: real, t2: real) returns (allowed: bool)
      requires cfg.window != 0.0
      modifies this
      ensures (State(), allowed) == Checked(old(State()), cfg, Check(ip, t0, t1, t2))
    {
      ghost var clean := Cleaned(State(), cfg, t0);
      MaybeCleanup(t0);
      if ip !in buckets {
        buckets := buckets[ip := Bucket(cfg.burst, t1)];
      }
      buckets := buckets[ip := Refilled(buckets[ip], cfg, t2)];
      allowed := false;
      if buckets[ip].tokens >= 1.0 {
        buckets := buckets[ip := buckets[ip].(tokens := buckets[ip].tokens - 1.0)];
        allowed := true;
      }
      assert buckets == clean.buckets[ip := Spent(Fetched(clean, cfg, Check(ip, t0, t1, t2)))];
    }

    method Reset(ip: Option<string>)
      modifies this
      ensures lastCleanup == old(lastCleanup)
      ensures buckets == if ip.Some? && ip.value != "" then old(buckets) - {ip.value} else map[]
    {
      if ip.Some? && ip.value != "" {
        buckets := buckets - {ip.value};
      } else {
        buckets := map[];
      }
    }
  }

  // ----- runs -----

  predicate Monotone(now: real, cs: seq<Check>)
    decreases |cs|
  {
    cs != [] ==> now <= cs[0].t0 <= cs[0].t1 <= cs[0].t2 && Monotone(cs[0].t2, cs[1..])
  }

  function Answers(l: Limiter, cfg: Config, cs: seq<Check>): (r: seq<bool>)
    requires cfg.window != 0.0
    ensures |r| == |cs|
    decreases |cs|
  {
    if cs == [] then [] else [Checked(l, cfg, cs[0]).1] + Answers(Checked(l, cfg, cs[0]).0, cfg, cs[1..])
  }

  /** The same, by a limiter that never deletes a bucket. */
  function KeepersAnswers(l: Limiter, cfg: Config, cs: seq<Check>): (r: seq<bool>)
    requires cfg.window != 0.0
    ensures |r| == |cs|
    decreases |cs|
  {
    if cs == [] then [] else [Served(l, cfg, cs[0]).1] + KeepersAnswers(Served(l, cfg, cs[0]).0, cfg, cs[1..])
  }

  ghost predicate Sane(l: Limiter, cfg: Config, now: real) {
    forall ip | ip in l.buckets :: 0.0 <= l.buckets[ip].tokens <= cfg.burst && l.buckets[ip].lastRefill <= now
  }

  lemma FullAfterWindow(cfg: Config, d: real)
    requires cfg.Valid()
    ensures d >= cfg.window ==> Refill(cfg, d) >= cfg.burst
    ensures d >= 0.0 ==> Refill(cfg, d) >= 0.0
    ensures Refill(cfg, 0.0) == 0.0
  {
    var r := cfg.Rate();
    assert cfg.window * r == cfg.burst;
    assert r >= 0.0;
    if d >= cfg.window { assert (d - cfg.window) * r >= 0.0; }
  }

  lemma ServedStaysSane(l: Limiter, cfg: Config, c: Check, now: real)
    requires cfg.Valid() && Sane(l, cfg, now) && now <= c.t1 <= c.t2
    ensures Sane(Served(l, cfg, c).0, cfg, c.t2)
  {
    hide Refill;
    var b := if c.ip in l.buckets then l.buckets[c.ip] else Bucket(cfg.burst, c.t1);
    FullAfterWindow(cfg, c.t2 - b.lastRefill);
  }

  // ----- cleanup is unobservable -----

  /** b holds what a holds, and beyond it only buckets idle for at least a window. */
  ghost predicate Covers(a: Limiter, b: Limiter, cfg: Config, now: real) {
    && (forall ip | ip in a.buckets :: ip in b.buckets && a.buckets[ip] == b.buckets[ip])
    && (forall ip | ip in b.buckets && ip !in a.buckets :: now - b.buckets[ip].lastRefill >= cfg.window)
  }

  lemma CleanupStaysCovered(a: Limiter, b: Limiter, cfg: Config, now: real, t: real)
    requires cfg.Valid() && Covers(a, b, cfg, now) && now <= t
    ensures Covers(Cleaned(a, cfg, t), b, cfg, t)
  {
  }

  lemma CoveredServesAlike(a: Limiter, b: Limiter, cfg: Config, c: Check, now: real)
    requires cfg.Valid() && Covers(a, b, cfg, now) && Sane(b, cfg, now) && now <= c.t1 <= c.t2
    ensures Served(a, cfg, c).1 == Served(b, cfg, c).1
    ensures Covers(Served(a, cfg, c).0, Served(b, cfg, c).0, cfg, c.t2)
  {
    hide Refill;
    FullAfterWindow(cfg, c.t2 - c.t1);
    if c.ip in b.buckets { FullAfterWindow(cfg, c.t2 - b.buckets[c.ip].lastRefill); }
    assert Fetched(a, cfg, c) == Fetched(b, cfg, c);
  }

  /** Deleting stale buckets never changes an answer. */
  lemma {:induction false} CleanupIsUnobservable(a: Limiter, b: Limiter, cfg: Config, cs: seq<Check>, now: real)
    requires cfg.Valid() && Covers(a, b, cfg, now) && Sane(b, cfg, now) && Monotone(now, cs)
    ensures Answers(a, cfg, cs) == KeepersAnswers(b, cfg, cs)
    decreases |cs|
  {
    if cs != [] {
      var c := cs[0];
      CleanupStaysCovered(a, b, cfg, now, c.t0);
      CoveredServesAlike(Cleaned(a, cfg, c.t0), b, cfg, c, c.t0);
      ServedStaysSane(b, cfg, c, c.t0);
      CleanupIsUnobservable(Checked(a, cfg, c).0, Served(b, cfg, c).0, cfg, cs[1..], c.t2);
    }
  }

  // ----- the rate bound -----

  /** The tokens ip would have at time t. */
  function Level(l: Limiter, cfg: Config, ip: string, t: real): real
    requires cfg.window != 0.0
  {
    if ip in l.buckets then Refilled(l.buckets[ip], cfg, t).tokens else cfg.burst
  }

  function Max(a: real, b: real): real {
    if a >= b then a else b
  }

  /** The allowed checks of ip decided within [s, e]. */
  function Allowed(cs: seq<Check>, answers: seq<bool>, ip: string, s: real, e: real): nat
    requires |cs| == |answers|
    decreases |cs|
  {
    if cs == [] then 0
    else (if cs[0].ip == ip && answers[0] && s <= cs[0].t2 <= e then 1 else 0) + Allowed(cs[1..], answers[1..], ip, s, e)
  }

  lemma LevelGrowsSlowly(l: Limiter, cfg: Config, ip: string, t: real, u: real)
    requires cfg.Valid() && t <= u
    ensures Level(l, cfg, ip, u) <= Level(l, cfg, ip, t) + Refill(cfg, u - t)
    ensures Level(l, cfg, ip, u) <= cfg.burst
  {
    hide Refill;
    FullAfterWindow(cfg, u - t);
    if ip in l.buckets {
      RefillAdds(cfg, l.buckets[ip].lastRefill, t, u);
    }
  }

  lemma CleanupKeepsLevel(l: Limiter, cfg: Config, ip: string, t0: real, t: real)
    requires cfg.Valid() && Sane(l, cfg, t0) && t0 <= t
    ensures Level(Cleaned(l, cfg, t0), cfg, ip, t) == Level(l, cfg, ip, t)
    ensures Sane(Cleaned(l, cfg, t0), cfg, t0)
  {
    hide Refill;
    if ip in l.buckets && ip !in Cleaned(l, cfg, t0).buckets {
      FullAfterWindow(cfg, t - l.buckets[ip].lastRefill);
    }
  }

  /** Right after a check the level of its ip has dropped by one if it was allowed; other levels are untouched. */
  lemma ServingSpends(l: Limiter, cfg: Config, c: Check, ip: string, u: real)
    requires cfg.Valid() && c.t1 <= c.t2 <= u
    ensures c.ip != ip ==> Level(Served(l, cfg, c).0, cfg, ip, u) == Level(l, cfg, ip, u)
    ensures c.ip == ip ==>
      Level(Served(l, cfg, c).0, cfg, ip, c.t2) == Level(l, cfg, ip, c.t2) - (if Served(l, cfg, c).1 then 1.0 else 0.0)
  {
    hide Refill;
    FullAfterWindow(cfg, c.t2 - c.t1);
    assert c.t2 - c.t2 == 0.0;
  }

  lemma {:induction false} NothingLater(cs: seq<Check>, answers: seq<bool>, ip: string, s: real, e: real, now: real)
    requires |cs| == |answers| && Monotone(now, cs) && e < now
    ensures Allowed(cs, answers, ip, s, e) == 0
    decreases |cs|
  {
    if cs != [] {
      NothingLater(cs[1..], answers[1..], ip, s, e, cs[0].t2);
    }
  }

  lemma RefillAdds(cfg: Config, a: real, b: real, c: real)
    requires cfg.Valid()
    ensures Refill(cfg, b - a) + Refill(cfg, c - b) == Refill(cfg, c - a)
  {
  }

    lemma {:induction false} PaidFor(l: Limiter, cfg: Config, cs: seq<Check>, ip: string, s: real, e: real, now: real)
    requires cfg.Valid() && Sane(l, cfg, now) && Monotone(now, cs) && Max(now, s) <= e
    ensures Allowed(cs, Answers(l, cfg, cs), ip, s, e) as real
         <= Level(l, cfg, ip, Max(now, s)) + Refill(cfg, e - Max(now, s))
    decreases |cs|
  {
    hide Refill, Level, Served, Cleaned, Sane;
    var m := Max(now, s);
    FullAfterWindow(cfg, e - m);
    LevelAtLeastZero(l, cfg, ip, now, m);
    if cs != [] {
      var c := cs[0];
      var clean := Cleaned(l, cfg, c.t0);
      var (next, ok) := Served(clean, cfg, c);
      assert Answers(l, cfg, cs)[1..] == Answers(next, cfg, cs[1..]);
      SaneLater(l, cfg, now, c.t0);
      if c.t2 > e {
        NothingLater(cs[1..], Answers(next, cfg, cs[1..]), ip, s, e, c.t2);
      } else {
        var n := Max(c.t2, s);
        CleanupKeepsLevel(l, cfg, ip, c.t0, n);
        CleanupKeepsLevel(l, cfg, ip, c.t0, c.t2);
        ServedStaysSane(clean, cfg, c, c.t0);
        PaidFor(next, cfg, cs[1..], ip, s, e, c.t2);
        LevelGrowsSlowly(l, cfg, ip, m, n);
        RefillAdds(cfg, m, n, e);
        ServingSpends(clean, cfg, c, ip, n);
        if c.ip == ip && c.t2 < s {
          AfterServingNoHigher(clean, cfg, c, s);
        }
      }
    }
  }

  lemma SaneLater(l: Limiter, cfg: Config, now: real, t: real)
    requires Sane(l, cfg, now) && now <= t
    ensures Sane(l, cfg, t)
  {
  }

  lemma LevelAtLeastZero(l: Limiter, cfg: Config, ip: string, now: real, t: real)
    requires cfg.Valid() && Sane(l, cfg, now) && now <= t
    ensures Level(l, cfg, ip, t) >= 0.0
  {
    hide Refill;
    if ip in l.buckets { FullAfterWindow(cfg, t - l.buckets[ip].lastRefill); }
  }

  lemma AfterServingNoHigher(l: Limiter, cfg: Config, c: Check, u: real)
    requires cfg.Valid() && c.t1 <= c.t2 <= u
    ensures Level(Served(l, cfg, c).0, cfg, c.ip, u) <= Level(l, cfg, c.ip, u)
  {
    hide Refill;
    FullAfterWindow(cfg, u - c.t2);
    if c.ip in l.buckets {
      RefillAdds(cfg, l.buckets[c.ip].lastRefill, c.t2, u);
    }
  }

  lemma {:induction false} RefillBound(l: Limiter, cfg: Config, cs: seq<Check>, ip: string, s: real, e: real, now: real)
    requires cfg.Valid() && Sane(l, cfg, now) && Monotone(now, cs) && s <= e
    ensures Allowed(cs, Answers(l, cfg, cs), ip, s, e) as real <= cfg.burst + Refill(cfg, e - s)
  {
    hide Refill, Level, Sane, Allowed, Answers, Monotone;
    FullAfterWindow(cfg, e - s);
    if now > e {
      NothingLater(cs, Answers(l, cfg, cs), ip, s, e, now);
    } else {
      var m := Max(now, s);
      PaidFor(l, cfg, cs, ip, s, e, now);
      LevelGrowsSlowly(l, cfg, ip, m, m);
      FullAfterWindow(cfg, m - s);
      RefillAdds(cfg, s, m, e);
    }
  }

  // ----- in plain arithmetic -----

  lemma RefillIs(cfg: Config, d: real)
    requires cfg.window > 0.0
    ensures Refill(cfg, d) == d * cfg.burst / cfg.window
  {
    var r := cfg.burst / cfg.window;
    assert r * cfg.window == cfg.burst;
    assert d * r * cfg.window == d * cfg.burst;
  }

  /** The tokens of ip at time t: what its bucket held, refilled at burst / window, and never more than burst. */
  function Tokens(l: Limiter, cfg: Config, ip: string, t: real): real
    requires cfg.window > 0.0
  {
    if ip !in l.buckets then cfg.burst
    else
      var sum := l.buckets[ip].tokens + (t - l.buckets[ip].lastRefill) * cfg.burst / cfg.window;
      if sum <= cfg.burst then sum else cfg.burst
  }

  lemma LevelIsTokens(l: Limiter, cfg: Config, ip: string, t: real)
    requires cfg.window > 0.0
    ensures Level(l, cfg, ip, t) == Tokens(l, cfg, ip, t)
  {
    hide Refill;
    if ip in l.buckets { RefillIs(cfg, t - l.buckets[ip].lastRefill); }
  }

  /** A check is allowed if and only if its ip has a token, cleanup or not. */
  lemma AllowedExactlyWithToken(l: Limiter, cfg: Config, c: Check, now: real)
    requires cfg.Valid() && Sane(l, cfg, now) && now <= c.t0 <= c.t1 <= c.t2
    ensures Checked(l, cfg, c).1 <==> Tokens(l, cfg, c.ip, c.t2) >= 1.0
  {
    hide Refill;
    SaneLater(l, cfg, now, c.t0);
    CleanupKeepsLevel(l, cfg, c.ip, c.t0, c.t2);
    LevelIsTokens(l, cfg, c.ip, c.t2);
    FullAfterWindow(cfg, c.t2 - c.t1);
  }

  /** From any moment m on, the checks allowed until e are paid for by the tokens at m and the refill since. */
  lemma {:induction false} AllowedIsPaidFor(l: Limiter, cfg: Config, cs: seq<Check>, ip: string, s: real, e: real, now: real)
    requires cfg.Valid() && Sane(l, cfg, now) && Monotone(now, cs) && s <= e && now <= e
    ensures var m := if now >= s then now else s;
      Allowed(cs, Answers(l, cfg, cs), ip, s, e) as real <= Tokens(l, cfg, ip, m) + (e - m) * cfg.burst / cfg.window
  {
    hide Refill, Level, Tokens, Sane, Allowed, Answers, Monotone;
    var m := Max(now, s);
    PaidFor(l, cfg, cs, ip, s, e, now);
    LevelIsTokens(l, cfg, ip, m);
    RefillIs(cfg, e - m);
  }

  /** In every run and every interval [s, e], an IP gets at most burst + (e - s) * burst / window requests
      through, cleanup included. */
  lemma {:induction false} AtMostBurstPlusRefill(l: Limiter, cfg: Config, cs: seq<Check>, ip: string, s: real, e: real, now: real)
    requires cfg.Valid() && Sane(l, cfg, now) && Monotone(now, cs) && s <= e
    ensures Allowed(cs, Answers(l, cfg, cs), ip, s, e) as real <= cfg.burst + (e - s) * cfg.burst / cfg.window
  {
    hide Refill, Sane, Allowed, Answers, Monotone;
    RefillBound(l, cfg, cs, ip, s, e, now);
    RefillIs(cfg, e - s);
  }

  // ----- the other side: who keeps to the rate is served -----

  /** The checks of ip come window / burst apart or more, the first of them not before `ready`. */
  predicate Spaced(cfg: Config, cs: seq<Check>, ip: string, ready: real)
    requires cfg.burst > 0.0
    decreases |cs|
  {
    cs != [] ==>
      if cs[0].ip == ip then ready <= cs[0].t2 && Spaced(cfg, cs[1..], ip, cs[0].t2 + cfg.window / cfg.burst)
      else Spaced(cfg, cs[1..], ip, ready)
  }

  /** Whenever it is asked from `ready` on, ip has a token. */
  ghost predicate Ready(l: Limiter, cfg: Config, ip: string, ready: real)
    requires cfg.window != 0.0
  {
    forall t :: t >= ready ==> Level(l, cfg, ip, t) >= 1.0
  }

  lemma TokenPerSpacing(cfg: Config, d: real)
    requires cfg.Valid() && cfg.burst >= 1.0 && d >= cfg.window / cfg.burst
    ensures Refill(cfg, d) >= 1.0
  {
    var r, gap := cfg.burst / cfg.window, cfg.window / cfg.burst;
    assert r * cfg.window == cfg.burst && gap * cfg.burst == cfg.window;
    assert r * gap * cfg.burst == r * cfg.window;
    assert r * gap == 1.0;
    assert r > 0.0;
    assert (d - gap) * r >= 0.0;
  }

  lemma ServedIsReadyAgain(l: Limiter, cfg: Config, c: Check)
    requires cfg.Valid() && cfg.burst >= 1.0 && c.t1 <= c.t2 && Served(l, cfg, c).1
    requires 0.0 <= Served(l, cfg, c).0.buckets[c.ip].tokens
    ensures Ready(Served(l, cfg, c).0, cfg, c.ip, c.t2 + cfg.window / cfg.burst)
  {
    hide Refill;
    var next := Served(l, cfg, c).0;
    forall t | t >= c.t2 + cfg.window / cfg.burst ensures Level(next, cfg, c.ip, t) >= 1.0 {
      TokenPerSpacing(cfg, t - c.t2);
    }
  }

  lemma OthersKeepReady(l: Limiter, cfg: Config, c: Check, ip: string, ready: real, now: real)
    requires cfg.Valid() && Sane(l, cfg, now) && now <= c.t0 <= c.t1 <= c.t2 && Ready(l, cfg, ip, ready) && c.ip != ip
    requires now <= ready
    ensures Ready(Checked(l, cfg, c).0, cfg, ip, Max(ready, c.t2))
  {
    hide Level, Sane, Cleaned, Served;
    SaneLater(l, cfg, now, c.t0);
    forall t | t >= Max(ready, c.t2) ensures Level(Checked(l, cfg, c).0, cfg, ip, t) >= 1.0 {
      CleanupKeepsLevel(l, cfg, ip, c.t0, t);
      ServingSpends(Cleaned(l, cfg, c.t0), cfg, c, ip, t);
    }
  }

  lemma {:induction false} SpacedLater(cfg: Config, cs: seq<Check>, ip: string, ready: real, now: real)
    requires cfg.burst > 0.0 && Spaced(cfg, cs, ip, ready) && Monotone(now, cs)
    ensures Spaced(cfg, cs, ip, Max(ready, now))
    decreases |cs|
  {
    if cs != [] && cs[0].ip != ip {
      SpacedLater(cfg, cs[1..], ip, ready, cs[0].t2);
      SpacedEarlier(cfg, cs[1..], ip, Max(ready, cs[0].t2), Max(ready, now));
    }
  }

  lemma {:induction false} SpacedEarlier(cfg: Config, cs: seq<Check>, ip: string, ready: real, earlier: real)
    requires cfg.burst > 0.0 && Spaced(cfg, cs, ip, ready) && earlier <= ready
    ensures Spaced(cfg, cs, ip, earlier)
    decreases |cs|
  {
    if cs != [] && cs[0].ip != ip { SpacedEarlier(cfg, cs[1..], ip, ready, earlier); }
  }

  /** An ip that spaces its requests by window / burst or more is never refused, whatever other ips do and however
      often buckets are cleaned up. */
  lemma {:induction false} SpacedRequestsAreServed(l: Limiter, cfg: Config, cs: seq<Check>, ip: string, ready: real, now: real)
    requires cfg.Valid() && cfg.burst >= 1.0 && Sane(l, cfg, now) && Monotone(now, cs) && now <= ready
    requires Ready(l, cfg, ip, ready) && Spaced(cfg, cs, ip, ready)
    ensures forall i :: 0 <= i < |cs| && cs[i].ip == ip ==> Answers(l, cfg, cs)[i]
    decreases |cs|
  {
    if cs != [] {
      hide Level, Sane, Cleaned, Served, Ready;
      var c, rest := cs[0], cs[1..];
      var clean := Cleaned(l, cfg, c.t0);
      var next := Checked(l, cfg, c).0;
      SaneLater(l, cfg, now, c.t0);
      CleanupKeepsLevel(l, cfg, c.ip, c.t0, c.t2);
      ServedStaysSane(clean, cfg, c, c.t0);
      assert Answers(l, cfg, cs)[1..] == Answers(next, cfg, rest);
      if c.ip == ip {
        ReadyIsAllowed(l, cfg, c, ready, now);
        TokensAfter(clean, cfg, c, c.t0);
        ServedIsReadyAgain(clean, cfg, c);
        GapIsPositive(cfg);
        SpacedRequestsAreServed(next, cfg, rest, ip, c.t2 + cfg.window / cfg.burst, c.t2);
      } else {
        OthersKeepReady(l, cfg, c, ip, ready, now);
        SpacedLater(cfg, rest, ip, ready, c.t2);
        SpacedRequestsAreServed(next, cfg, rest, ip, Max(ready, c.t2), c.t2);
      }
      forall i | 0 <= i < |cs| && cs[i].ip == ip ensures Answers(l, cfg, cs)[i] {
        if i > 0 { assert cs[i] == rest[i - 1] && Answers(l, cfg, cs)[i] == Answers(next, cfg, rest)[i - 1]; }
      }
    }
  }

  lemma GapIsPositive(cfg: Config)
    requires cfg.Valid() && cfg.burst >= 1.0
    ensures cfg.window / cfg.burst >= 0.0
  {
  }

  lemma ReadyIsAllowed(l: Limiter, cfg: Config, c: Check, ready: real, now: real)
    requires cfg.Valid() && Sane(l, cfg, now) && now <= c.t0 <= c.t1 <= c.t2
    requires Ready(l, cfg, c.ip, ready) && ready <= c.t2
    ensures Checked(l, cfg, c).1
  {
    hide Sane, Level, Tokens, Cleaned, Served;
    AllowedExactlyWithToken(l, cfg, c, now);
    LevelIsTokens(l, cfg, c.ip, c.t2);
  }

  lemma TokensAfter(l: Limiter, cfg: Config, c: Check, now: real)
    requires cfg.Valid() && Sane(l, cfg, now) && now <= c.t1 <= c.t2
    ensures c.ip in Served(l, cfg, c).0.buckets && Served(l, cfg, c).0.buckets[c.ip].tokens >= 0.0
  {
    hide Served;
    ServedStaysSane(l, cfg, c, now);
    ServedHasBucket(l, cfg, c);
  }

  lemma ServedHasBucket(l: Limiter, cfg: Config, c: Check)
    requires cfg.window != 0.0
    ensures c.ip in Served(l, cfg, c).0.buckets
  {
  }

  /** A new ip starts out ready. */
  lemma NewcomersAreReady(l: Limiter, cfg: Config, ip: string, now: real)
    requires cfg.Valid() && cfg.burst >= 1.0 && ip !in l.buckets
    ensures Ready(l, cfg, ip, now)
  {
  }
}
