/** The in-memory lease lock. Every clock reading of a method is a parameter. */
module ResourceLock {
  import opened Seqs

  datatype LockRecord = LockRecord(resource: string, holder: string, acquiredAt: int, expiresAt: int)

  type Locks = map<string, LockRecord>

  /** `ttl or default_ttl`: an absent ttl and 0 both mean the default. */
  function Lasting(ttl: Option<int>, default: int): int {
    if ttl.Some? && ttl.value != 0 then ttl.value else default
  }

  /** What garbage collection at time `now` leaves. */
  function Swept(locks: Locks, now: int): Locks {
    map r | r in locks && locks[r].expiresAt > now :: locks[r]
  }

  // ----- the effect of each call -----

  /** The clock readings of a call come first to last: `_gc`, the expiry test, the new record. */
  datatype Call =
    | Acquire(resource: string, holder: string, lasting: int, t0: int, t1: int, t2: int)
    | Release(resource: string, holder: string)
    | Heartbeat(resource: string, holder: string, lasting: int, t: int)
    | Inspect(resource: string, t: int)

  predicate Busy(locks: Locks, resource: string, holder: string, t0: int, t1: int) {
    var kept := Swept(locks, t0);
    resource in kept && kept[resource].holder != holder && kept[resource].expiresAt > t1
  }

  predicate Held(locks: Locks, resource: string, holder: string) {
    resource in locks && locks[resource].holder == holder
  }

  /** Whether the call reports success. */
  predicate Succeeds(locks: Locks, c: Call) {
    match c
    case Acquire(r, h, _, t0, t1, _) => !Busy(locks, r, h, t0, t1)
    case Release(r, h) => Held(locks, r, h)
    case Heartbeat(r, h, _, _) => Held(locks, r, h)
    case Inspect(r, t) => r in Swept(locks, t)
  }

  function After(locks: Locks, c: Call): Locks {
    match c
    case Acquire(r, h, d, t0, _, t2) =>
      if Succeeds(locks, c) then Swept(locks, t0)[r := LockRecord(r, h, t2, t2 + d)] else Swept(locks, t0)
    case Release(r, h) => if Held(locks, r, h) then locks - {r} else locks
    case Heartbeat(r, h, d, t) => if Held(locks, r, h) then locks[r := locks[r].(expiresAt := t + d)] else locks
    case Inspect(_, t) => Swept(locks, t)
  }

  class ResourceLock {
    var locks: Locks
    const defaultTtl: int

    constructor (defaultTtl: int := 300)
      ensures locks == map[] && this.defaultTtl == defaultTtl
    {
      locks := map[];
      this.defaultTtl := defaultTtl;
    }

    method Collect(now: int)
      modifies this`locks
      ensures locks == Swept(old(locks), now)
    {
      var expired := set r | r in locks && locks[r].expiresAt <= now;
      var todo := expired;
      while todo != {}
        invariant todo <= expired && locks == old(locks) - (expired - todo)
      {
        var r :| r in todo;
        locks := locks - {r};
        todo := todo - {r};
      }
    }

    method TryAcquire(resource: string, holder: string, ttl: Option<int>, t0: int, t1: int, t2: int) returns (ok: bool)
      modifies this`locks
      ensures var c := Acquire(resource, holder, Lasting(ttl, defaultTtl), t0, t1, t2);
        ok == Succeeds(old(locks), c) && locks == After(old(locks), c)
      ensures ok <==> !(resource in old(locks) && old(locks)[resource].holder != holder
                        && old(locks)[resource].expiresAt > t0 && old(locks)[resource].expiresAt > t1)
      ensures ok ==> resource in locks && locks[resource] == LockRecord(resource, holder, t2,
                       t2 + if ttl.None? || ttl.value == 0 then defaultTtl else ttl.value)
    {
      Collect(t0);
      if resource in locks {
        var existing := locks[resource];
        if existing.holder != holder && existing.expiresAt > t1 { return false; }
      }
      locks := locks[resource := LockRecord(resource, holder, t2, t2 + Lasting(ttl, defaultTtl))];
      ok := true;
    }

    method DoRelease(resource: string, holder: string) returns (ok: bool)
      modifies this`locks
      ensures ok == Succeeds(old(locks), Release(resource, holder)) && locks == After(old(locks), Release(resource, holder))
      ensures ok <==> resource in old(locks) && old(locks)[resource].holder == holder
      ensures locks == if ok then old(locks) - {resource} else old(locks)
    {
      if resource !in locks { return false; }
      if locks[resource].holder != holder { return false; }
      locks := locks - {resource};
      ok := true;
    }

    /** Unlike acquire, a heartbeat does not look at the expiry time: a lapsed record not yet collected revives. */
    method DoHeartbeat(resource: string, holder: string, ttl: Option<int>, t: int) returns (ok: bool)
      modifies this`locks
      ensures var c := Heartbeat(resource, holder, Lasting(ttl, defaultTtl), t);
        ok == Succeeds(old(locks), c) && locks == After(old(locks), c)
      ensures ok <==> resource in old(locks) && old(locks)[resource].holder == holder
      ensures ok ==> resource in locks && locks[resource] == old(locks)[resource].(expiresAt :=
                       t + if ttl.None? || ttl.value == 0 then defaultTtl else ttl.value)
    {
      if resource !in locks || locks[resource].holder != holder { return false; }
      locks := locks[resource := locks[resource].(expiresAt := t + Lasting(ttl, defaultTtl))];
      ok := true;
    }

    method GetHolder(resource: string, t: int) returns (holder: Option<string>)
      modifies this`locks
      ensures locks == After(old(locks), Inspect(resource, t))
      ensures holder == if resource in old(locks) && old(locks)[resource].expiresAt > t
                        then Some(old(locks)[resource].holder) else None
    {
      Collect(t);
      holder := if resource in locks then Some(locks[resource].holder) else None;
    }
  }

  // ----- who gets the lock -----

  /** An acquire is refused exactly when another holder's record is unexpired at both readings of the call. Granted,
      it holds until the last reading plus the ttl; other resources only lose expired records. */
  lemma AcquireGrantsExactly(locks: Locks, r: string, h: string, d: int, t0: int, t1: int, t2: int)
    ensures var c := Acquire(r, h, d, t0, t1, t2);
      && (Succeeds(locks, c) <==> !(r in locks && locks[r].holder != h && locks[r].expiresAt > t0 && locks[r].expiresAt > t1))
      && (Succeeds(locks, c) ==> r in After(locks, c) && After(locks, c)[r] == LockRecord(r, h, t2, t2 + d))
      && (!Succeeds(locks, c) ==> r in After(locks, c) && After(locks, c)[r] == locks[r])
      && (forall q :: q != r ==> (q in After(locks, c) <==> q in locks && locks[q].expiresAt > t0))
      && (forall q :: q != r && q in After(locks, c) ==> q in locks && After(locks, c)[q] == locks[q])
  {
  }

  /** Release and heartbeat succeed exactly for the holder on record, expired or not, and touch no other resource. */
  lemma OwnersAloneSucceed(locks: Locks, r: string, h: string, d: int, t: int)
    ensures Succeeds(locks, Release(r, h)) <==> r in locks && locks[r].holder == h
    ensures After(locks, Release(r, h)) == if r in locks && locks[r].holder == h then locks - {r} else locks
    ensures Succeeds(locks, Heartbeat(r, h, d, t)) <==> r in locks && locks[r].holder == h
    ensures After(locks, Heartbeat(r, h, d, t))
         == if r in locks && locks[r].holder == h then locks[r := locks[r].(expiresAt := t + d)] else locks
  {
  }

  /** After a release, and once a lease has run out, the next acquire by anybody is granted. */
  lemma FreedIsGranted(w: World, r: string, h: string, g: string, d: int, t0: int, t1: int, t2: int)
    requires Backed(w) && InOrder(w.now, Acquire(r, g, d, t0, t1, t2))
    requires r in w.locks ==> w.locks[r].holder == h
    ensures Succeeds(Step(w, Release(r, h)).locks, Acquire(r, g, d, t0, t1, t2))
    ensures (r in w.locks ==> w.locks[r].expiresAt <= t1) ==> Succeeds(w.locks, Acquire(r, g, d, t0, t1, t2))
    ensures var c := Acquire(r, g, d, t0, t1, t2);
      Succeeds(w.locks, c) && d > 0 ==> Leased(Step(w, c), r, g)
  {
  }

  // ----- runs -----

  /** The clock after a call: its last reading. */
  function Clock(now: int, c: Call): int {
    match c
    case Acquire(_, _, _, _, _, t2) => t2
    case Release(_, _) => now
    case Heartbeat(_, _, _, t) => t
    case Inspect(_, t) => t
  }

  /** The call reads a clock that never goes back. */
  predicate InOrder(now: int, c: Call) {
    match c
    case Acquire(_, _, _, t0, t1, t2) => now <= t0 <= t1 <= t2
    case Release(_, _) => true
    case Heartbeat(_, _, _, t) => now <= t
    case Inspect(_, t) => now <= t
  }

  /** The locks, the clock, and until when each holder was last told that it holds each resource. */
  datatype World = World(locks: Locks, now: int, leases: map<(string, string), int>)

  const START := World(map[], 0, map[])

  function Step(w: World, c: Call): World {
    World(After(w.locks, c), Clock(w.now, c),
          if !Succeeds(w.locks, c) then w.leases else
          match c
          case Acquire(r, h, d, _, _, t2) => w.leases[(r, h) := t2 + d]
          case Release(r, h) => w.leases - {(r, h)}
          case Heartbeat(r, h, d, t) => w.leases[(r, h) := t + d]
          case Inspect(_, _) => w.leases)
  }

  predicate Monotone(w: World, calls: seq<Call>)
    decreases |calls|
  {
    calls != [] ==> InOrder(w.now, calls[0]) && Monotone(Step(w, calls[0]), calls[1..])
  }

  function Run(w: World, calls: seq<Call>): World
    decreases |calls|
  {
    if calls == [] then w else Run(Step(w, calls[0]), calls[1..])
  }

  predicate Leased(w: World, r: string, h: string) {
    (r, h) in w.leases && w.now < w.leases[(r, h)]
  }

  ghost predicate Exclusive(w: World) {
    forall r, g, h :: Leased(w, r, g) && Leased(w, r, h) ==> g == h
  }

  /** An unexpired lease is backed by a record with the same expiry. */
  ghost predicate Backed(w: World) {
    forall r, h :: Leased(w, r, h) ==> Held(w.locks, r, h) && w.locks[r].expiresAt == w.leases[(r, h)]
  }

  lemma StepKeepsBacked(w: World, c: Call)
    requires Backed(w) && InOrder(w.now, c)
    ensures Backed(Step(w, c))
  {
    var x := Step(w, c);
    forall r, h | Leased(x, r, h) ensures Held(x.locks, r, h) && x.locks[r].expiresAt == x.leases[(r, h)] {
      if Leased(w, r, h) {
        assert Held(w.locks, r, h) && w.locks[r].expiresAt == w.leases[(r, h)];
      }
    }
  }

  /** Whatever the timing, at most one holder per resource has an unexpired lease. */
  lemma {:induction false} RunIsExclusive(w: World, calls: seq<Call>)
    requires Backed(w) && Monotone(w, calls)
    ensures Backed(Run(w, calls)) && Exclusive(Run(w, calls))
    decreases |calls|
  {
    if calls != [] {
      StepKeepsBacked(w, calls[0]);
      RunIsExclusive(Step(w, calls[0]), calls[1..]);
    }
  }

  // ----- a diligent holder keeps its lock -----

  predicate Renews(c: Call, r: string, h: string) {
    (c.Acquire? || c.Heartbeat?) && c.resource == r && c.holder == h
  }

  /** The run ends, or h renews r, before time `until`. */
  predicate RenewsBefore(now: int, calls: seq<Call>, r: string, h: string, until: int)
    decreases |calls|
  {
    if calls == [] then now < until
    else if Renews(calls[0], r, h) then Clock(now, calls[0]) < until
    else RenewsBefore(Clock(now, calls[0]), calls[1..], r, h, until)
  }

  /** Each renewal of r by h, and the end of the run, comes less than the ttl then in force after the
      renewal before it; h does not release r. */
  predicate Diligent(now: int, calls: seq<Call>, r: string, h: string, until: int)
    decreases |calls|
  {
    && RenewsBefore(now, calls, r, h, until)
    && (calls != [] ==>
      && calls[0] != Release(r, h)
      && Diligent(Clock(now, calls[0]), calls[1..], r, h,
                  if Renews(calls[0], r, h) then Clock(now, calls[0]) + calls[0].lasting else until))
  }

  lemma {:induction false} StillTimely(w: World, calls: seq<Call>, r: string, h: string, until: int)
    requires Monotone(w, calls) && RenewsBefore(w.now, calls, r, h, until)
    ensures w.now < until
    decreases |calls|
  {
    if calls != [] {
      if !Renews(calls[0], r, h) {
        StillTimely(Step(w, calls[0]), calls[1..], r, h, until);
      }
    }
  }

  lemma TimelyStepKeeps(w: World, c: Call, r: string, h: string)
    requires Held(w.locks, r, h) && InOrder(w.now, c) && Clock(w.now, c) < w.locks[r].expiresAt
    requires c != Release(r, h)
    ensures var x := Step(w, c);
      && Held(x.locks, r, h)
      && x.locks[r].expiresAt == if Renews(c, r, h) then Clock(w.now, c) + c.lasting else w.locks[r].expiresAt
  {
  }

  /** A holder that keeps every gap between renewals below its ttl holds the lock throughout. */
  lemma {:induction false} DiligentHolderStays(w: World, calls: seq<Call>, r: string, h: string)
    requires Held(w.locks, r, h) && Monotone(w, calls) && Diligent(w.now, calls, r, h, w.locks[r].expiresAt)
    ensures Held(Run(w, calls).locks, r, h)
    ensures Run(w, calls).now < Run(w, calls).locks[r].expiresAt
    decreases |calls|
  {
    if calls != [] {
      var c := calls[0];
      var x := Step(w, c);
      if !Renews(c, r, h) {
        StillTimely(x, calls[1..], r, h, w.locks[r].expiresAt);
      }
      TimelyStepKeeps(w, c, r, h);
      DiligentHolderStays(x, calls[1..], r, h);
    }
  }
}
