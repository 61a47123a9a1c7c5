/** The order in which distinct keys were last used, and the window of the n most recent ones. */
module Recency {
  import opened Seqs

  function Without<K(==)>(s: seq<K>, k: K): seq<K> {
    if s == [] then [] else (if s[0] == k then [] else [s[0]]) + Without(s[1..], k)
  }

  /** The distinct keys of a history, least recently used first. */
  function ByLastUse<K(==)>(h: seq<K>): seq<K> {
    if h == [] then [] else Without(ByLastUse(h[..|h| - 1]), h[|h| - 1]) + [h[|h| - 1]]
  }

  function LastN<T>(s: seq<T>, n: nat): seq<T> {
    if |s| <= n then s else s[|s| - n..]
  }

  /** How a bounded least-recently-used list reacts to a use of k. */
  function Touch<K(==)>(c: seq<K>, k: K, n: nat): seq<K> {
    if k in c then Without(c, k) + [k] else LastN(c + [k], n)
  }

  /** The keys used after the last use of k. */
  function UsedSince<K(==)>(h: seq<K>, k: K): set<K> {
    if h == [] || h[|h| - 1] == k then {} else UsedSince(h[..|h| - 1], k) + {h[|h| - 1]}
  }

  /** The keys used since are those used at some moment at or after which k was not. */
  lemma {:induction false} UsedSinceMeans<K(!new)>(h: seq<K>, k: K, x: K)
    ensures x in UsedSince(h, k) <==> exists i :: 0 <= i < |h| && h[i] == x && forall j :: i <= j < |h| ==> h[j] != k
  {
    if h != [] && h[|h| - 1] != k {
      var init := h[..|h| - 1];
      UsedSinceMeans(init, k, x);
      if i :| 0 <= i < |init| && init[i] == x && forall j :: i <= j < |init| ==> init[j] != k {
        assert h[i] == x;
        forall j | i <= j < |h| ensures h[j] != k { if j < |init| { assert h[j] == init[j]; } }
      }
      if i :| 0 <= i < |h| && h[i] == x && forall j :: i <= j < |h| ==> h[j] != k {
        if i < |init| { assert init[i] == x && forall j :: i <= j < |init| ==> init[j] == h[j]; }
      }
    }
  }

  /** k is among the n most recently used distinct keys: fewer than n others were used since. */
  predicate AmongLast<K(==)>(h: seq<K>, k: K, n: nat) {
    k in h && |UsedSince(h, k)| < n
  }

  lemma {:induction false} WithoutMembers<K>(s: seq<K>, k: K)
    ensures forall x | x in Without(s, k) :: x in s && x != k
    ensures forall x | x in s && x != k :: x in Without(s, k)
    ensures |Without(s, k)| <= |s|
  {
    if s != [] {
      WithoutMembers(s[1..], k);
    }
  }

  lemma {:induction false} WithoutAbsent<K>(s: seq<K>, k: K)
    requires k !in s
    ensures Without(s, k) == s
  {
    if s != [] {
      WithoutAbsent(s[1..], k);
    }
  }

  lemma {:induction false} WithoutConcat<K>(a: seq<K>, b: seq<K>, k: K)
    ensures Without(a + b, k) == Without(a, k) + Without(b, k)
  {
    if a == [] {
      assert a + b == b;
    } else {
      assert (a + b)[1..] == a[1..] + b;
      WithoutConcat(a[1..], b, k);
    }
  }

  lemma {:induction false} WithoutKeepsDistinct<K(!new)>(s: seq<K>, k: K)
    requires Distinct(s)
    ensures Distinct(Without(s, k))
    ensures k in s ==> |Without(s, k)| == |s| - 1
  {
    if s != [] {
      TailDistinct(s);
      WithoutKeepsDistinct(s[1..], k);
      WithoutMembers(s[1..], k);
      if s[0] == k { WithoutAbsent(s[1..], k); }
    }
  }

  lemma {:induction false} WithoutAt<K(!new)>(s: seq<K>, i: nat)
    requires Distinct(s) && i < |s|
    ensures Without(s, s[i]) == s[..i] + s[i + 1..]
  {
    hide Without;
    var before, x, after := s[..i], s[i], s[i + 1..];
    assert s == before + ([x] + after);
    assert forall k :: 0 <= k < |before| ==> before[k] == s[k] && before[k] != x;
    assert forall k :: 0 <= k < |after| ==> after[k] == s[i + 1 + k] && after[k] != x;
    WithoutConcat(before, [x] + after, x);
    WithoutConcat([x], after, x);
    WithoutAbsent(before, x);
    WithoutAbsent(after, x);
    WithoutOne(x);
  }

  lemma WithoutOne<K>(x: K)
    ensures Without([x], x) == []
  {
  }

  lemma TailDistinct<K(!new)>(s: seq<K>)
    requires Distinct(s) && s != []
    ensures Distinct(s[1..]) && s[0] !in s[1..]
  {
    assert forall i :: 0 <= i < |s[1..]| ==> s[1..][i] == s[i + 1];
  }

  lemma {:induction false} ByLastUseDistinct<K(!new)>(h: seq<K>)
    ensures Distinct(ByLastUse(h)) && forall x :: x in ByLastUse(h) <==> x in h
  {
    if h != [] {
      var init, k := h[..|h| - 1], h[|h| - 1];
      ByLastUseDistinct(init);
      WithoutKeepsDistinct(ByLastUse(init), k);
      WithoutMembers(ByLastUse(init), k);
      assert h == init + [k];
    }
  }

  /** A bounded list that touches each key as it is used holds the n most recent distinct keys, in order. */
  lemma {:induction false} TouchTracksRecency<K(!new)>(h: seq<K>, k: K, n: nat)
    ensures LastN(ByLastUse(h + [k]), n) == Touch(LastN(ByLastUse(h), n), k, n)
  {
    hide Distinct, ByLastUse, Without;
    ByLastUseStep(h, k);
    var r := ByLastUse(h);
    ByLastUseDistinct(h);
    var c := LastN(r, n);
    var older := r[..|r| - |c|];
    assert r == older + c;
    WithoutConcat(older, c, k);
    WithoutMembers(older, k);
    if k in c {
      InSuffixOnly(older, c, k);
      WithoutAbsent(older, k);
      SuffixDistinct(older, c);
      WithoutKeepsDistinct(c, k);
      assert Without(r, k) + [k] == older + (Without(c, k) + [k]);
      LastNOfConcat(older, Without(c, k) + [k], n);
    } else {
      WithoutAbsent(c, k);
      assert Without(r, k) + [k] == Without(older, k) + (c + [k]);
      LastNOfConcat(Without(older, k), c + [k], n);
    }
  }

  lemma ByLastUseStep<K>(h: seq<K>, k: K)
    ensures ByLastUse(h + [k]) == Without(ByLastUse(h), k) + [k]
  {
    assert (h + [k])[..|h|] == h;
  }

  lemma LastNOfConcat<K>(a: seq<K>, b: seq<K>, n: nat)
    requires |b| >= n || a == []
    ensures LastN(a + b, n) == LastN(b, n)
  {
    assert a == [] ==> a + b == b;
  }

  lemma LastNDistinct<K(!new)>(s: seq<K>, n: nat)
    requires Distinct(s)
    ensures Distinct(LastN(s, n))
  {
    assert s == s[..|s| - |LastN(s, n)|] + LastN(s, n);
    SuffixDistinct(s[..|s| - |LastN(s, n)|], LastN(s, n));
  }

  lemma InSuffixOnly<K(!new)>(a: seq<K>, b: seq<K>, k: K)
    requires Distinct(a + b) && k in b
    ensures k !in a
  {
    var j :| 0 <= j < |b| && b[j] == k;
    assert (a + b)[|a| + j] == k;
    assert forall i :: 0 <= i < |a| ==> a[i] == (a + b)[i];
  }

  lemma SuffixDistinct<K(!new)>(a: seq<K>, b: seq<K>)
    requires Distinct(a + b)
    ensures Distinct(b)
  {
    assert forall i :: 0 <= i < |b| ==> b[i] == (a + b)[|a| + i];
  }

  // ----- the window, without reference to the list -----

  /** What comes after k in s. */
  function Behind<K(==)>(s: seq<K>, k: K): seq<K> {
    if s == [] then [] else if s[0] == k then s[1..] else Behind(s[1..], k)
  }

  lemma {:induction false} BehindOfWithout<K>(s: seq<K>, k: K, x: K)
    requires x != k && k in s
    ensures Behind(Without(s, x) + [x], k) == Without(Behind(s, k), x) + [x]
  {
    var t := Without(s[1..], x);
    if s[0] == k {
      assert Without(s, x) + [x] == [k] + (t + [x]);
      assert ([k] + (t + [x]))[1..] == t + [x];
    } else {
      BehindOfWithout(s[1..], k, x);
      if s[0] == x {
        assert Without(s, x) == t;
      } else {
        assert Without(s, x) + [x] == [s[0]] + (t + [x]);
        assert ([s[0]] + (t + [x]))[1..] == t + [x];
      }
    }
  }

  lemma {:induction false} BehindOfLast<K>(s: seq<K>, k: K)
    requires k !in s
    ensures Behind(s + [k], k) == []
  {
    if s != [] {
      assert (s + [k])[1..] == s[1..] + [k];
      BehindOfLast(s[1..], k);
    }
  }

  lemma {:induction false} BehindIsUsedSince<K(!new)>(h: seq<K>, k: K)
    requires k in h
    ensures forall x :: x in Behind(ByLastUse(h), k) <==> x in UsedSince(h, k)
  {
    var init, x := h[..|h| - 1], h[|h| - 1];
    assert h == init + [x];
    var r := ByLastUse(init);
    ByLastUseDistinct(init);
    if x == k {
      WithoutMembers(r, k);
      BehindOfLast(Without(r, k), k);
    } else {
      BehindIsUsedSince(init, k);
      BehindOfWithout(r, k, x);
      WithoutMembers(Behind(r, k), x);
    }
  }

  lemma {:induction false} BehindIsSuffix<K(!new)>(s: seq<K>, k: K) returns (i: nat)
    requires k in s
    ensures i < |s| && s[i] == k && Behind(s, k) == s[i + 1..]
  {
    if s[0] == k {
      i := 0;
    } else {
      var j := BehindIsSuffix(s[1..], k);
      i := j + 1;
    }
  }

  lemma {:induction false} DistinctSize<K(!new)>(s: seq<K>, members: set<K>)
    requires Distinct(s) && forall x :: x in s <==> x in members
    ensures |s| == |members|
  {
    if s == [] {
      assert members == {};
    } else {
      TailDistinct(s);
      DistinctSize(s[1..], members - {s[0]});
    }
  }

  /** The list and the window agree: the last n of the recency order are the keys with fewer than n
      distinct keys used since. */
  lemma {:induction false} LastNIsAmongLast<K(!new)>(h: seq<K>, k: K, n: nat)
    ensures k in LastN(ByLastUse(h), n) <==> AmongLast(h, k, n)
  {
    ByLastUseDistinct(h);
    var r := ByLastUse(h);
    if k in h {
      var i := BehindIsSuffix(r, k);
      BehindIsUsedSince(h, k);
      assert r == r[..i + 1] + r[i + 1..];
      SuffixDistinct(r[..i + 1], r[i + 1..]);
      DistinctSize(r[i + 1..], UsedSince(h, k));
      var c := LastN(r, n);
      if |r| > n {
        assert forall j :: 0 <= j < n ==> c[j] == r[|r| - n + j];
        if i >= |r| - n { assert c[i - (|r| - n)] == k; }
      }
    }
  }

  lemma LastNGrows<T>(s: seq<T>, m: nat, n: nat)
    requires m <= n
    ensures forall x | x in LastN(s, m) :: x in LastN(s, n)
  {
    forall x | x in LastN(s, m) ensures x in LastN(s, n) {
      var c, d := LastN(s, m), LastN(s, n);
      var j :| 0 <= j < |c| && c[j] == x;
      assert d[|d| - |c| + j] == x;
    }
  }
}
