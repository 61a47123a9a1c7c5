/** The order in which a breadth-first search discovers nodes, as a function of the graph, and which targets
    `path` meets before it gives up. */
module GraphSweep {
  import opened Seqs
  import opened GraphModel
  import opened GraphSearch

  /** The nodes discovered once these links are followed, one after the other. */
  function Followed(found: seq<Id>, links: seq<Link>, forward: bool): seq<Id>
    decreases |links|
  {
    if links == [] then found
    else
      var end := FarEnd(links[0], forward);
      Followed(if end in found then found else found + [end], links[1..], forward)
  }

  /** The nodes discovered once u is expanded: outgoing links first, then incoming ones. */
  function Expanded(v: View, found: seq<Id>, u: Id): seq<Id> {
    Followed(Followed(found, At(v.out, u), true), At(v.inc, u), false)
  }

  /** The nodes discovered from s once the first k of them are expanded, in order of discovery. */
  function Sweep(v: View, s: Id, k: nat): seq<Id> {
    if k == 0 then [s]
    else
      var found := Sweep(v, s, k - 1);
      if k - 1 < |found| then Expanded(v, found, found[k - 1]) else found
  }

  /** The search from s first meets t while it expands its k-th discovery. */
  predicate MeetsAt(v: View, s: Id, t: Id, k: nat) {
    t !in Sweep(v, s, k) && t in Sweep(v, s, k + 1)
  }

  /** t is the start, or met while no more nodes than the limit had been visited. */
  ghost predicate MetInTime(v: View, s: Id, t: Id) {
    s == t || exists k: nat :: MeetsAt(v, s, t, k) && |Sweep(v, s, k)| <= 10000
  }

  function Ids(order: seq<Entry>): seq<Id> {
    Map(order, (e: Entry) => e.id)
  }

  lemma SeenIsIds(order: seq<Entry>, id: Id)
    ensures id in Seen(order) <==> id in Ids(order)
  {
    if id in Seen(order) {
      var i :| 0 <= i < |order| && order[i].id == id;
      assert Ids(order)[i] == id;
    }
    if id in Ids(order) {
      var i :| 0 <= i < |order| && Ids(order)[i] == id;
      assert order[i] in order;
    }
  }

  lemma IdsGrow(order: seq<Entry>, e: Entry)
    ensures Ids(order + [e]) == Ids(order) + [e.id]
  {
  }

  lemma {:induction false} FollowedKeeps(found: seq<Id>, links: seq<Link>, forward: bool)
    ensures found <= Followed(found, links, forward)
    decreases |links|
  {
    if links != [] {
      var end := FarEnd(links[0], forward);
      FollowedKeeps(if end in found then found else found + [end], links[1..], forward);
    }
  }

  lemma ExpandedKeeps(v: View, found: seq<Id>, u: Id)
    ensures found <= Followed(found, At(v.out, u), true) <= Expanded(v, found, u)
  {
    FollowedKeeps(found, At(v.out, u), true);
    FollowedKeeps(Followed(found, At(v.out, u), true), At(v.inc, u), false);
  }

  lemma {:induction false} SweepGrows(v: View, s: Id, j: nat, k: nat)
    requires j <= k
    ensures Sweep(v, s, j) <= Sweep(v, s, k)
    decreases k
  {
    if j < k {
      SweepGrows(v, s, j, k - 1);
      var found := Sweep(v, s, k - 1);
      if k - 1 < |found| { ExpandedKeeps(v, found, found[k - 1]); }
    }
  }

  /** With every discovery expanded, nothing more is found. */
  lemma {:induction false} SweepEnds(v: View, s: Id, h: nat, k: nat)
    requires h <= k && |Sweep(v, s, h)| <= h
    ensures Sweep(v, s, k) == Sweep(v, s, h)
    decreases k
  {
    if h < k { SweepEnds(v, s, h, k - 1); }
  }

  // ----- what `path` relies on -----

  lemma TargetFollowed(found: seq<Id>, links: seq<Link>, forward: bool, t: Id)
    requires links != [] && FarEnd(links[0], forward) == t
    ensures t in Followed(found, links, forward)
  {
    var more := if t in found then found else found + [t];
    FollowedKeeps(more, links[1..], forward);
    assert t in more;
  }

  lemma HitIsInTime(v: View, s: Id, t: Id, h: nat)
    requires h < |Sweep(v, s, h)| <= VISITED_LIMIT && t !in Sweep(v, s, h)
    requires t in Expanded(v, Sweep(v, s, h), Sweep(v, s, h)[h])
    ensures MetInTime(v, s, t)
  {
    assert MeetsAt(v, s, t, h);
  }

  lemma {:induction false} CutOffIsTooLate(v: View, s: Id, t: Id, h: nat)
    requires s != t && t !in Sweep(v, s, h) && |Sweep(v, s, h)| > VISITED_LIMIT
    ensures !MetInTime(v, s, t)
  {
    hide Sweep;
    forall k: nat | MeetsAt(v, s, t, k) ensures |Sweep(v, s, k)| > VISITED_LIMIT {
      if k < h { SweepGrows(v, s, k + 1, h); } else { SweepGrows(v, s, h, k); }
    }
  }

  lemma {:induction false} ExhaustedIsNeverMet(v: View, s: Id, t: Id, h: nat)
    requires s != t && t !in Sweep(v, s, h) && |Sweep(v, s, h)| <= h
    ensures !MetInTime(v, s, t)
  {
    hide Sweep;
    forall k: nat ensures !MeetsAt(v, s, t, k) {
      if k < h { SweepGrows(v, s, k + 1, h); } else { SweepEnds(v, s, h, k + 1); }
    }
  }

  lemma DistinctIds(v: View, s: Id, order: seq<Entry>)
    requires Layered(v, s, order)
    ensures |Seen(order)| == |order|
  {
    hide OnSphere;
    SeenCounted(order);
  }

  lemma {:induction false} SeenCounted(order: seq<Entry>)
    requires forall i, j :: 0 <= i < j < |order| ==> order[i].id != order[j].id
    ensures |Seen(order)| == |order|
  {
    if order != [] {
      var n := |order| - 1;
      SeenCounted(order[..n]);
      assert order == order[..n] + [order[n]];
      assert Seen(order) == Seen(order[..n]) + {order[n].id};
    }
  }

  // ----- meeting a target is a matter of distance -----

  lemma {:induction false} FollowedFinds(found: seq<Id>, links: seq<Link>, forward: bool, id: Id)
    ensures id in Followed(found, links, forward) <==> id in found || exists l :: l in links && FarEnd(l, forward) == id
    decreases |links|
  {
    if links != [] {
      var end := FarEnd(links[0], forward);
      FollowedFinds(if end in found then found else found + [end], links[1..], forward, id);
      assert forall l :: l in links <==> l == links[0] || l in links[1..];
    }
  }

  lemma ExpandedFinds(v: View, found: seq<Id>, u: Id, id: Id)
    ensures id in Expanded(v, found, u) <==> id in found || id in Near(v, u)
  {
    FollowedFinds(found, At(v.out, u), true, id);
    FollowedFinds(Followed(found, At(v.out, u), true), At(v.inc, u), false, id);
  }

  lemma {:induction false} SweepStaysInReach(v: View, s: Id, k: nat, id: Id) returns (d: nat)
    requires id in Sweep(v, s, k)
    ensures id in Ball(v, s, d)
    decreases k
  {
    hide Ball, Near, Expanded;
    if k == 0 {
      d := 0;
      BallOfRadiusZero(v, s);
    } else {
      var found := Sweep(v, s, k - 1);
      if id in found {
        d := SweepStaysInReach(v, s, k - 1, id);
      } else {
        var u := found[k - 1];
        ExpandedFinds(v, found, u, id);
        var e := SweepStaysInReach(v, s, k - 1, u);
        BallReachesNear(v, s, u, id, e);
        d := e + 1;
      }
    }
  }

  lemma SweepStarts(v: View, s: Id)
    ensures Sweep(v, s, 0) == [s]
  {
  }

  /** Whatever is within reach is discovered, sooner or later. */
  lemma {:induction false} SweepReaches(v: View, s: Id, id: Id, d: nat) returns (k: nat)
    requires id in Ball(v, s, d)
    ensures id in Sweep(v, s, k)
    decreases d
  {
    hide Sweep, Ball, Near;
    if d == 0 {
      k := 0;
      BallOfRadiusZero(v, s);
      SweepStarts(v, s);
    } else if id in Ball(v, s, d - 1) {
      k := SweepReaches(v, s, id, d - 1);
    } else {
      var u := BallOrigin(v, s, id, d);
      var j := SweepReaches(v, s, u, d - 1);
      var i :| 0 <= i < |Sweep(v, s, j)| && Sweep(v, s, j)[i] == u;
      var m := if i < j then j else i;
      SweepGrows(v, s, j, m);
      k := m + 1;
      Rediscovers(v, s, i, m, u, id);
    }
  }

  /** Once the i-th discovery is expanded, its neighbours are discovered. */
  lemma {:induction false} Rediscovers(v: View, s: Id, i: nat, m: nat, u: Id, id: Id)
    requires i <= m && i < |Sweep(v, s, m)| && Sweep(v, s, m)[i] == u && id in Near(v, u)
    ensures id in Sweep(v, s, m + 1)
  {
    DiscoveredByItsTurn(v, s, i, m);
    hide Near;
    SweepGrows(v, s, i, m);
    SweepGrows(v, s, i + 1, m + 1);
    ExpandedFinds(v, Sweep(v, s, i), u, id);
  }

  /** The i-th discovery is made before it is its turn to be expanded. */
  lemma {:induction false} DiscoveredByItsTurn(v: View, s: Id, i: nat, m: nat)
    requires i <= m && i < |Sweep(v, s, m)|
    ensures i < |Sweep(v, s, i)| && Sweep(v, s, i)[i] == Sweep(v, s, m)[i]
  {
    hide Sweep;
    SweepGrows(v, s, i, m);
    if |Sweep(v, s, i)| <= i { SweepEnds(v, s, i, m); }
  }

  /** A target at some distance is met, and the number of nodes visited by then decides whether `path` reports it. */
  lemma {:induction false} ReachableIsMet(v: View, s: Id, t: Id, d: nat) returns (k: nat)
    requires s != t && t in Ball(v, s, d)
    ensures MeetsAt(v, s, t, k)
    ensures MetInTime(v, s, t) <==> |Sweep(v, s, k)| <= 10000
  {
    hide Ball;
    var m := SweepReaches(v, s, t, d);
    k := FirstMeeting(v, s, t, m);
    forall j: nat | MeetsAt(v, s, t, j) ensures j == k {
      if j < k { SweepGrows(v, s, j + 1, k); } else if k < j { SweepGrows(v, s, k + 1, j); }
    }
  }

  lemma {:induction false} FirstMeeting(v: View, s: Id, t: Id, m: nat) returns (k: nat)
    requires s != t && t in Sweep(v, s, m)
    ensures k < m && MeetsAt(v, s, t, k)
    decreases m
  {
    if m == 1 || t !in Sweep(v, s, m - 1) {
      k := m - 1;
    } else {
      k := FirstMeeting(v, s, t, m - 1);
    }
  }
}
