/** The bounded LRU dictionary and the memoising wrapper around it. */
module LruCache {
  import opened Seqs
  import opened Recency

  type Entries<K, V> = seq<(K, V)>

  function Names<K, V>(c: Entries<K, V>): (r: seq<K>)
    ensures |r| == |c| && forall i :: 0 <= i < |c| ==> r[i] == c[i].0
  {
    Map(c, (e: (K, V)) => e.0)
  }

  /** The position of k, or the length when it is absent. */
  function Position<K(==), V>(c: Entries<K, V>, k: K): (i: nat)
    ensures i <= |c| && (i < |c| ==> c[i].0 == k)
    ensures i < |c| <==> k in Names(c)
  {
    if c == [] then 0
    else if c[0].0 == k then assert Names(c)[0] == k; 0
    else
      assert Names(c) == [c[0].0] + Names(c[1..]);
      Position(c[1..], k) + 1
  }

  function MovedToEnd<K, V>(c: Entries<K, V>, i: nat): Entries<K, V>
    requires i < |c|
  {
    c[..i] + c[i + 1..] + [c[i]]
  }

  /** `cache[k] = v`: to the end, evicting the oldest entry when the size exceeds the maximum. */
  function Put<K(==), V>(c: Entries<K, V>, k: K, v: V, maxsize: int): Entries<K, V> {
    var i := Position(c, k);
    var d := (if i < |c| then c[..i] + c[i + 1..] else c) + [(k, v)];
    if |d| > maxsize then d[1..] else d
  }

  ghost predicate Sound<K(!new), V>(c: Entries<K, V>, f: K -> V, maxsize: nat) {
    |c| <= maxsize && Distinct(Names(c)) && forall i :: 0 <= i < |c| ==> c[i].1 == f(c[i].0)
  }

  class ThreadSafeLRU<K(==,!new), V> {
    var entries: Entries<K, V>
    const maxsize: int

    constructor (maxsize: int)
      ensures Valid() && entries == [] && this.maxsize == maxsize
    {
      entries := [];
      this.maxsize := maxsize;
    }

    ghost predicate Valid()
      reads this
    {
      Distinct(Names(entries))
    }

    predicate Contains(k: K)
      reads this
    {
      Position(entries, k) < |entries|
    }

    method MoveToEnd(k: K)
      requires Valid() && Contains(k)
      modifies this
      ensures Valid() && entries == MovedToEnd(old(entries), Position(old(entries), k))
    {
      var i := Position(entries, k);
      MovedNames(entries, i);
      entries := entries[..i] + entries[i + 1..] + [entries[i]];
    }

    method SetItem(k: K, v: V)
      requires Valid()
      modifies this
      ensures Valid() && entries == Put(old(entries), k, v, maxsize)
    {
      hide Names;
      PutKeepsDistinct(entries, k, v, maxsize);
      if Contains(k) {
        MoveToEnd(k);
        entries := entries[|entries| - 1 := (k, v)];
      } else {
        entries := entries + [(k, v)];
      }
      if |entries| > maxsize {
        entries := entries[1..];
      }
    }

    /** None is the KeyError. */
    method GetItem(k: K) returns (v: Option<V>)
      requires Valid()
      modifies this
      ensures Valid()
      ensures v == if old(Contains(k)) then Some(old(entries)[Position(old(entries), k)].1) else None
      ensures entries == if v.Some? then MovedToEnd(old(entries), Position(old(entries), k)) else old(entries)
    {
      if !Contains(k) { return None; }
      v := Some(entries[Position(entries, k)].1);
      MoveToEnd(k);
    }
  }

  // ----- the wrapper's two atomic steps -----

  datatype Event<K> = Lookup(key: K) | Store(key: K)

  function After<K(==), V>(c: Entries<K, V>, e: Event<K>, f: K -> V, maxsize: int): Entries<K, V> {
    match e
    case Lookup(k) => if Position(c, k) < |c| then MovedToEnd(c, Position(c, k)) else c
    case Store(k) => Put(c, k, f(k), maxsize)
  }

  /** What the caller gets back at this step: a hit returns the cached value, a store the computed one. */
  function Returned<K(==), V>(c: Entries<K, V>, e: Event<K>, f: K -> V): Option<V> {
    match e
    case Lookup(k) => if Position(c, k) < |c| then Some(c[Position(c, k)].1) else None
    case Store(k) => Some(f(k))
  }

  class Memo<K(==,!new), V> {
    const cache: ThreadSafeLRU<K, V>
    const f: K -> V

    constructor (maxsize: int, f: K -> V)
      ensures fresh(cache) && cache.Valid() && cache.entries == [] && cache.maxsize == maxsize && this.f == f
    {
      this.f := f;
      cache := new ThreadSafeLRU(maxsize);
    }

    method LookUp(k: K) returns (v: Option<V>)
      requires cache.Valid()
      modifies cache
      ensures cache.Valid()
      ensures v == Returned(old(cache.entries), Lookup(k), f)
      ensures cache.entries == After(old(cache.entries), Lookup(k), f, cache.maxsize)
    {
      if !cache.Contains(k) { return None; }
      cache.MoveToEnd(k);
      MovingTwice(old(cache.entries), Position(old(cache.entries), k));
      v := cache.GetItem(k);
    }

    method StoreResult(k: K, v: V)
      requires cache.Valid() && v == f(k)
      modifies cache
      ensures cache.Valid()
      ensures cache.entries == After(old(cache.entries), Store(k), f, cache.maxsize)
    {
      cache.SetItem(k, v);
    }

    /** One caller, undisturbed. */
    method Call(k: K) returns (v: V)
      requires cache.maxsize >= 0 && Sound(cache.entries, f, cache.maxsize)
      modifies cache
      ensures v == f(k) && Sound(cache.entries, f, cache.maxsize)
      ensures cache.entries == Called(old(cache.entries), k, f, cache.maxsize)
    {
      StepStaysSound(cache.entries, Lookup(k), f, cache.maxsize);
      var hit := LookUp(k);
      if hit.Some? { return hit.value; }
      v := f(k);
      StepStaysSound(cache.entries, Store(k), f, cache.maxsize);
      StoreResult(k, v);
    }
  }

  /** A whole call: a lookup and, on a miss, a store. */
  function Called<K(==), V>(c: Entries<K, V>, k: K, f: K -> V, maxsize: int): Entries<K, V> {
    if Position(c, k) < |c| then After(c, Lookup(k), f, maxsize) else After(c, Store(k), f, maxsize)
  }

  // ----- lemmas -----

  /** With distinct keys, an entry's index is its position. */
  lemma {:induction false} PositionOf<K(!new), V>(c: Entries<K, V>, i: nat)
    requires i < |c| && Distinct(Names(c))
    ensures Position(c, c[i].0) == i
  {
    var p := Position(c, c[i].0);
    assert Names(c)[i] == c[i].0;
    assert p < |c| && Names(c)[p] == Names(c)[i];
  }

  lemma {:induction false} MovedNames<K(!new), V>(c: Entries<K, V>, i: nat)
    requires i < |c| && Distinct(Names(c))
    ensures var d := MovedToEnd(c, i);
      Names(d) == Without(Names(c), c[i].0) + [c[i].0] && Distinct(Names(d)) && |d| == |c|
  {
    var ks := Names(c);
    WithoutAt(ks, i);
    assert Names(MovedToEnd(c, i)) == ks[..i] + ks[i + 1..] + [ks[i]];
    MoveKeepsDistinct(ks, i);
  }

  lemma MoveKeepsDistinct<K(!new)>(s: seq<K>, i: nat)
    requires i < |s| && Distinct(s)
    ensures Distinct(s[..i] + s[i + 1..] + [s[i]])
  {
    var t := s[..i] + s[i + 1..] + [s[i]];
    assert forall j :: 0 <= j < |t| ==> t[j] == if j < i then s[j] else if j < |s| - 1 then s[j + 1] else s[i];
  }

  /** The wrapper moves a hit to the end twice; the second move changes nothing. */
  lemma {:induction false} MovingTwice<K(!new), V>(c: Entries<K, V>, i: nat)
    requires i < |c| && Distinct(Names(c))
    ensures var d := MovedToEnd(c, i);
      Position(d, c[i].0) == |c| - 1 && d[|c| - 1] == c[i] && MovedToEnd(d, |c| - 1) == d
  {
    MovedNames(c, i);
    PositionOf(MovedToEnd(c, i), |c| - 1);
  }

  lemma {:induction false} PutKeepsDistinct<K(!new), V>(c: Entries<K, V>, k: K, v: V, maxsize: int)
    requires Distinct(Names(c))
    ensures Distinct(Names(Put(c, k, v, maxsize)))
  {
    var i := Position(c, k);
    var ks := Names(c);
    var d := (if i < |c| then c[..i] + c[i + 1..] else c) + [(k, v)];
    if i < |c| {
      assert Names(d) == ks[..i] + ks[i + 1..] + [k];
      MoveKeepsDistinct(ks, i);
    } else {
      assert Names(d) == ks + [k];
    }
    assert Names(d[1..]) == Names(d)[1..];
    TailDistinct(Names(d));
  }

  lemma {:induction false} PutNames<K(!new), V>(c: Entries<K, V>, k: K, v: V, maxsize: nat)
    requires Distinct(Names(c)) && |c| <= maxsize
    ensures var d := Put(c, k, v, maxsize);
      Names(d) == Touch(Names(c), k, maxsize) && Distinct(Names(d)) && |d| <= maxsize
    ensures forall j :: 0 <= j < |Put(c, k, v, maxsize)| ==>
              Put(c, k, v, maxsize)[j] in c || Put(c, k, v, maxsize)[j] == (k, v)
  {
    var i := Position(c, k);
    var ks := Names(c);
    if i < |c| {
      WithoutAt(ks, i);
      assert Names(c[..i] + c[i + 1..] + [(k, v)]) == ks[..i] + ks[i + 1..] + [k];
      MoveKeepsDistinct(ks, i);
    } else {
      var d := c + [(k, v)];
      assert Names(d) == ks + [k];
      assert Names(d[1..]) == (ks + [k])[1..];
      assert Distinct(ks + [k]);
      TailDistinct(ks + [k]);
    }
  }

  /** Every step by any caller keeps the size bound and only true values in the cache. */
  lemma {:induction false} StepStaysSound<K(!new), V>(c: Entries<K, V>, e: Event<K>, f: K -> V, maxsize: nat)
    requires Sound(c, f, maxsize)
    ensures Sound(After(c, e, f, maxsize), f, maxsize)
    ensures Returned(c, e, f).Some? ==> Returned(c, e, f).value == f(e.key)
  {
    match e
    case Lookup(k) =>
      var i := Position(c, k);
      if i < |c| {
        MovedNames(c, i);
        assert forall x | x in MovedToEnd(c, i) :: x in c;
      }
    case Store(k) => PutNames(c, k, f(k), maxsize);
  }

  // ----- runs -----

  function Run<K(==), V>(events: seq<Event<K>>, f: K -> V, maxsize: int): Entries<K, V> {
    if events == [] then [] else After(Run(events[..|events| - 1], f, maxsize), events[|events| - 1], f, maxsize)
  }

  /** Under any interleaving of lookups and stores by any callers, every value handed out is the function's,
      and the cache never exceeds its size. */
  lemma {:induction false} MemoIsTransparent<K(!new), V>(events: seq<Event<K>>, e: Event<K>, f: K -> V, maxsize: nat)
    ensures Sound(Run(events, f, maxsize), f, maxsize)
    ensures Returned(Run(events, f, maxsize), e, f).Some? ==> Returned(Run(events, f, maxsize), e, f).value == f(e.key)
  {
    if events != [] {
      var last := |events| - 1;
      MemoIsTransparent(events[..last], events[last], f, maxsize);
      StepStaysSound(Run(events[..last], f, maxsize), events[last], f, maxsize);
    }
    StepStaysSound(Run(events, f, maxsize), e, f, maxsize);
  }

  /** The cache after a history of undisturbed calls. */
  function Calls<K(==), V>(h: seq<K>, f: K -> V, maxsize: int): Entries<K, V> {
    if h == [] then [] else Called(Calls(h[..|h| - 1], f, maxsize), h[|h| - 1], f, maxsize)
  }

  /** After sequential calls the cache holds the maxsize most recent distinct keys, in recency order. */
  lemma {:induction false} CallsHoldMostRecent<K(!new), V>(h: seq<K>, f: K -> V, maxsize: nat)
    ensures Sound(Calls(h, f, maxsize), f, maxsize)
    ensures Names(Calls(h, f, maxsize)) == LastN(ByLastUse(h), maxsize)
  {
    if h != [] {
      var init, k := h[..|h| - 1], h[|h| - 1];
      assert h == init + [k];
      CallsHoldMostRecent(init, f, maxsize);
      var c := Calls(init, f, maxsize);
      hide Distinct, ByLastUse, Without;
      TouchTracksRecency(init, k, maxsize);
      if Position(c, k) < |c| {
        StepStaysSound(c, Lookup(k), f, maxsize);
        MovedNames(c, Position(c, k));
      } else {
        StepStaysSound(c, Store(k), f, maxsize);
        PutNames(c, k, f(k), maxsize);
      }
    }
  }

  /** A call hits exactly when fewer than maxsize other keys were used since its last use; so whenever a
      cache hits, so does any larger one. */
  lemma {:induction false} HitsAreRecentAndGrow<K(!new), V>(h: seq<K>, k: K, f: K -> V, m: nat, n: nat)
    requires m <= n
    ensures Position(Calls(h, f, m), k) < |Calls(h, f, m)| <==> AmongLast(h, k, m)
    ensures Position(Calls(h, f, m), k) < |Calls(h, f, m)| ==> Position(Calls(h, f, n), k) < |Calls(h, f, n)|
  {
    CallsHoldMostRecent(h, f, m);
    CallsHoldMostRecent(h, f, n);
    LastNIsAmongLast(h, k, m);
    LastNGrows(ByLastUse(h), m, n);
  }
}
