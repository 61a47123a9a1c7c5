/** What a breadth-first search keeps: the reasoning shared by `neighbors` and `path`. */
module GraphSearch {
  import opened GraphModel

  /** A discovered node with the depth at which the search found it. */
  datatype Entry = Entry(id: Id, depth: nat)

  function Seen(order: seq<Entry>): set<Id> {
    set e | e in order :: e.id
  }

  /** The nodes in discovery order: the start first, true depths, never decreasing, no repeats. */
  ghost predicate Layered(v: View, x: Id, order: seq<Entry>) {
    && order != [] && order[0] == Entry(x, 0)
    && (forall i :: 0 <= i < |order| ==> OnSphere(v, x, order[i].id, order[i].depth))
    && (forall i, j :: 0 <= i < j < |order| ==> order[i].depth <= order[j].depth)
    && (forall i, j :: 0 <= i < j < |order| ==> order[i].id != order[j].id)
  }

  function Deepest(order: seq<Entry>): nat {
    if order == [] then 0 else order[|order| - 1].depth
  }

  /** Every link of a node found below depth k leads to a node already seen. */
  ghost predicate Scanned(v: View, order: seq<Entry>, k: int) {
    forall i :: 0 <= i < |order| && order[i].depth < k ==> Near(v, order[i].id) <= Seen(order)
  }

  /** Once everything below depth k is scanned, the whole ball of radius k has been seen. */
  lemma {:induction false} ScannedCoversBall(v: View, x: Id, order: seq<Entry>, k: nat)
    requires Layered(v, x, order) && Scanned(v, order, k)
    ensures Ball(v, x, k) <= Seen(order)
  {
    hide Ball;
    if k == 0 {
      BallOfRadiusZero(v, x);
      assert order[0] in order;
    } else {
      ScannedCoversBall(v, x, order, k - 1);
      forall w | w in Ball(v, x, k) ensures w in Seen(order) {
        if w !in Ball(v, x, k - 1) {
          var u := BallOrigin(v, x, w, k);
          var i :| 0 <= i < |order| && order[i].id == u;
          SphereWithinBall(v, x, u, order[i].depth, k - 1);
        }
      }
    }
  }

  /** A new neighbour of a node at depth c, when the ball of radius c is already seen, is at depth c + 1. */
  lemma {:induction false} Discover(v: View, x: Id, order: seq<Entry>, c: nat, u: Id, w: Id)
    requires Layered(v, x, order) && Deepest(order) <= c + 1
    requires Ball(v, x, c) <= Seen(order)
    requires u in Ball(v, x, c) && w in Near(v, u) && w !in Seen(order)
    ensures Layered(v, x, order + [Entry(w, c + 1)])
    ensures Seen(order + [Entry(w, c + 1)]) == Seen(order) + {w}
  {
    hide Ball;
    var longer := order + [Entry(w, c + 1)];
    BallReachesNear(v, x, u, w, c);
    forall e | e in order ensures e in longer {
      var i :| 0 <= i < |order| && order[i] == e;
      assert longer[i] == e;
    }
    assert longer[|order|] in longer;
    forall i | 0 <= i < |order| ensures order[i].id != w {
      assert order[i] in order;
    }
  }

  /** Everything seen lies within the ball of the deepest entry. */
  lemma {:induction false} SeenWithinBall(v: View, x: Id, order: seq<Entry>, n: nat)
    requires Layered(v, x, order) && Deepest(order) <= n
    ensures Seen(order) <= Ball(v, x, n)
  {
    hide Ball;
    forall e | e in order ensures e.id in Ball(v, x, n) {
      var i :| 0 <= i < |order| && order[i] == e;
      BallMonotone(v, x, e.depth, n);
    }
  }

  // ----- what the two searches promise -----

  datatype Neighbor = Neighbor(node: Node, link: Link, depth: nat)

  /** The link of a result leads to a node one step nearer to x. */
  ghost predicate StepsNearer(v: View, x: Id, r: Neighbor) {
    r.depth > 0 && exists u :: OnSphere(v, x, u, r.depth - 1) && Joins(v, r.link, u, r.node.id)
  }

  /** rs lists the nodes at distance 1..d from x, each once, by increasing depth. */
  ghost predicate ExactBall(v: View, x: Id, d: int, rs: seq<Neighbor>) {
    && (forall i :: 0 <= i < |rs| ==> 1 <= rs[i].depth <= d && OnSphere(v, x, rs[i].node.id, rs[i].depth))
    && (forall i :: 0 <= i < |rs| ==> rs[i].node.id in v.nodes && rs[i].node == v.nodes[rs[i].node.id])
    && (forall i :: 0 <= i < |rs| ==> StepsNearer(v, x, rs[i]))
    && (forall i, j :: 0 <= i < j < |rs| ==> rs[i].depth <= rs[j].depth && rs[i].node.id != rs[j].node.id)
    && (forall y, k: nat :: 1 <= k <= d && OnSphere(v, x, y, k) ==> exists i :: 0 <= i < |rs| && rs[i].node.id == y)
  }

  type Trail = seq<(Node, Link)>

  function Stop(trail: Trail, end: Id, i: nat): Id {
    if i < |trail| then trail[i].0.id else end
  }

  /** trail leads from x to y: each entry's link joins its node to the next one. */
  ghost predicate Leads(v: View, x: Id, y: Id, trail: Trail) {
    && Stop(trail, y, 0) == x
    && (forall i :: 0 <= i < |trail| ==> trail[i].0.id in v.nodes && trail[i].0 == v.nodes[trail[i].0.id])
    && (forall i :: 0 <= i < |trail| ==> Joins(v, trail[i].1, trail[i].0.id, Stop(trail, y, i + 1)))
  }

  lemma JoinsNear(v: View, l: Link, a: Id, b: Id)
    requires Joins(v, l, a, b)
    ensures b in Near(v, a)
  {
  }

  lemma LeadsFurther(v: View, x: Id, u: Id, w: Id, trail: Trail, l: Link)
    requires Consistent(v) && Leads(v, x, u, trail) && u in v.nodes && Joins(v, l, u, w)
    ensures Leads(v, x, w, trail + [(v.nodes[u], l)])
  {
    var longer := trail + [(v.nodes[u], l)];
    forall i | 0 <= i < |longer| ensures Joins(v, longer[i].1, longer[i].0.id, Stop(longer, w, i + 1)) {
      assert i < |trail| ==> Stop(longer, w, i + 1) == Stop(trail, u, i + 1);
    }
  }

  datatype PathResult = PathResult(found: bool, path: Trail, length: nat)

  /** `path` adds a last entry for the target, repeating the last link. */
  ghost predicate ShortestPath(v: View, s: Id, t: Id, r: PathResult) {
    && OnSphere(v, s, t, r.length)
    && if r.length == 0 then r.path == []
       else
         && |r.path| == r.length + 1
         && Leads(v, s, t, r.path[..r.length])
         && t in v.nodes
         && r.path[r.length] == (v.nodes[t], r.path[r.length - 1].1)
  }

  function FarEnd(l: Link, forward: bool): Id {
    if forward then l.target else l.source
  }

  // ----- loop invariants -----

  /** The results so far are the discovered nodes other than the start. */
  ghost predicate Found(v: View, x: Id, order: seq<Entry>, rs: seq<Neighbor>) {
    && Layered(v, x, order) && |order| == |rs| + 1
    && (forall i :: 0 <= i < |rs| ==> rs[i].node.id == order[i + 1].id && rs[i].depth == order[i + 1].depth)
    && (forall i :: 0 <= i < |rs| ==> rs[i].node.id in v.nodes && rs[i].node == v.nodes[rs[i].node.id])
    && (forall i :: 0 <= i < |rs| ==> StepsNearer(v, x, rs[i]))
  }

  /** While a node at depth c is expanded, its ball has been seen and nothing deeper than c + 1 has. */
  ghost predicate Frontier(v: View, x: Id, order: seq<Entry>, visited: set<Id>, c: nat) {
    visited == Seen(order) && visited <= v.nodes.Keys && Ball(v, x, c) <= visited && Deepest(order) <= c + 1
  }

  /** The queue holds the discovered nodes from position h on, except those at the depth limit. */
  ghost predicate Waiting(order: seq<Entry>, h: nat, queue: seq<(Id, nat)>, limit: int) {
    && h + |queue| <= |order|
    && (forall i :: 0 <= i < |queue| ==> Entry(queue[i].0, queue[i].1) == order[h + i])
    && (forall i :: h + |queue| <= i < |order| ==> order[i].depth >= limit)
  }

  ghost predicate ScannedUpTo(v: View, order: seq<Entry>, h: nat, limit: int) {
    h <= |order| && forall i :: 0 <= i < h && order[i].depth < limit ==> Near(v, order[i].id) <= Seen(order)
  }

  lemma {:induction false} HeadIsCovered(v: View, x: Id, order: seq<Entry>, h: nat, limit: int)
    requires Layered(v, x, order) && h < |order| && order[h].depth < limit && ScannedUpTo(v, order, h, limit)
    ensures Ball(v, x, order[h].depth) <= Seen(order)
  {
    hide Ball;
    ScannedCoversBall(v, x, order, order[h].depth);
  }

  /** A node with all its links followed in both directions is scanned. */
  lemma {:induction false} BothDirectionsScanned(v: View, order: seq<Entry>, u: Id)
    requires forall l | l in At(v.out, u) :: l.target in Seen(order)
    requires forall l | l in At(v.inc, u) :: l.source in Seen(order)
    ensures Near(v, u) <= Seen(order)
  {
  }

  lemma {:induction false} SeenGrows(order: seq<Entry>, longer: seq<Entry>)
    requires order <= longer
    ensures Seen(order) <= Seen(longer)
  {
    assert forall e | e in order :: e in longer;
  }

  lemma LinkEnds(v: View, u: Id, l: Link, forward: bool)
    requires Consistent(v) && l in At(if forward then v.out else v.inc, u)
    ensures FarEnd(l, forward) in v.nodes && v.nodes[FarEnd(l, forward)].id == FarEnd(l, forward)
    ensures Joins(v, l, u, FarEnd(l, forward))
  {
  }

  lemma {:induction false} AddFound(v: View, x: Id, order: seq<Entry>, rs: seq<Neighbor>,
                                    visited: set<Id>, u: Id, c: nat, l: Link, w: Id)
    requires Found(v, x, order, rs) && Frontier(v, x, order, visited, c)
    requires OnSphere(v, x, u, c) && Joins(v, l, u, w) && w in v.nodes && v.nodes[w].id == w && w !in visited
    ensures Found(v, x, order + [Entry(w, c + 1)], rs + [Neighbor(v.nodes[w], l, c + 1)])
    ensures Frontier(v, x, order + [Entry(w, c + 1)], visited + {w}, c)
  {
    hide Ball;
    assert w in Near(v, u);
    Discover(v, x, order, c, u, w);
    assert StepsNearer(v, x, Neighbor(v.nodes[w], l, c + 1));
  }

  lemma {:induction false} AddWaiting(v: View, x: Id, order: seq<Entry>, rs: seq<Neighbor>, visited: set<Id>,
                                      c: nat, h: nat, queue: seq<(Id, nat)>, limit: int, w: Id)
    requires Waiting(order, h, queue, limit)
    requires Found(v, x, order, rs) && Frontier(v, x, order, visited, c)
    ensures Waiting(order + [Entry(w, c + 1)], h, if c + 1 < limit then queue + [(w, c + 1)] else queue, limit)
  {
    hide Ball;
    var longer := order + [Entry(w, c + 1)];
    assert c + 1 < limit ==> h + |queue| == |order|;
    assert forall i :: 0 <= i < |order| ==> longer[i] == order[i];
  }

  /** Between two steps of `neighbors`: everything before position h is dealt with. */
  ghost predicate Searching(v: View, x: Id, order: seq<Entry>, visited: set<Id>, h: nat,
                            queue: seq<(Id, nat)>, limit: int) {
    && visited == Seen(order) && visited <= v.nodes.Keys
    && Waiting(order, h, queue, limit) && ScannedUpTo(v, order, h, limit)
    && (Deepest(order) <= limit || |order| == 1)
    && (queue != [] ==> Deepest(order) <= queue[0].1 + 1)
  }

  lemma {:induction false} StartSearching(v: View, x: Id, limit: int)
    requires Consistent(v) && x in v.nodes
    ensures Found(v, x, [Entry(x, 0)], []) && Searching(v, x, [Entry(x, 0)], {x}, 0, [(x, 0)], limit)
  {
    BallOfRadiusZero(v, x);
  }

  lemma {:induction false} TakeHead(v: View, x: Id, order: seq<Entry>, rs: seq<Neighbor>, visited: set<Id>,
                                    h: nat, queue: seq<(Id, nat)>, limit: int)
    requires Found(v, x, order, rs) && Searching(v, x, order, visited, h, queue, limit) && queue != []
    ensures h < |order| && order[h] == Entry(queue[0].0, queue[0].1)
    ensures Waiting(order, h + 1, queue[1..], limit) && ScannedUpTo(v, order, h, limit)
    ensures OnSphere(v, x, queue[0].0, queue[0].1)
    ensures queue[0].1 < limit ==> Frontier(v, x, order, visited, queue[0].1) && queue[0].0 in v.nodes
    ensures queue[0].1 >= limit ==> Searching(v, x, order, visited, h + 1, queue[1..], limit)
  {
    hide Ball;
    assert order[h] == Entry(queue[0].0, queue[0].1);
    assert order[h] in order;
    if queue[0].1 < limit {
      HeadIsCovered(v, x, order, h, limit);
    }
  }

  lemma {:induction false} HeadDone(v: View, x: Id, order: seq<Entry>, longer: seq<Entry>, rs: seq<Neighbor>,
                                    visited: set<Id>, h: nat, queue: seq<(Id, nat)>, limit: int, u: Id, c: nat)
    requires h < |order| && order[h] == Entry(u, c) && c < limit && order <= longer
    requires ScannedUpTo(v, order, h, limit) && Found(v, x, longer, rs)
    requires Frontier(v, x, longer, visited, c) && Waiting(longer, h + 1, queue, limit)
    requires forall l | l in At(v.out, u) :: FarEnd(l, true) in visited
    requires forall l | l in At(v.inc, u) :: FarEnd(l, false) in visited
    ensures Searching(v, x, longer, visited, h + 1, queue, limit) && visited <= v.nodes.Keys
  {
    hide Ball, Near, Found, Consistent;
    SeenGrows(order, longer);
    BothDirectionsScanned(v, longer, u);
    NextIsNoNearer(v, x, longer, rs, h, queue, limit);
  }

  lemma {:induction false} NextIsNoNearer(v: View, x: Id, order: seq<Entry>, rs: seq<Neighbor>, h: nat,
                                          queue: seq<(Id, nat)>, limit: int)
    requires Found(v, x, order, rs) && h < |order| && Waiting(order, h + 1, queue, limit)
    ensures queue != [] ==> order[h].depth <= queue[0].1
  {
    hide Ball, OnSphere, StepsNearer;
    if queue != [] {
      assert order[h + 1].depth == queue[0].1;
    }
  }

  /** An exhausted search of limited depth has found the whole ball. */
  lemma {:induction false} ExhaustedIsExact(v: View, x: Id, d: int, order: seq<Entry>, visited: set<Id>, h: nat,
                                            rs: seq<Neighbor>)
    requires Found(v, x, order, rs) && Searching(v, x, order, visited, h, [], d)
    ensures ExactBall(v, x, d, rs)
  {
    hide Ball;
    forall i | 0 <= i < |rs| ensures 1 <= rs[i].depth <= d && OnSphere(v, x, rs[i].node.id, rs[i].depth) {
      assert order[i + 1].id != order[0].id;
    }
    forall y, k: nat | 1 <= k <= d && OnSphere(v, x, y, k) ensures exists i :: 0 <= i < |rs| && rs[i].node.id == y {
      ScannedCoversBall(v, x, order, d);
      SphereWithinBall(v, x, y, k, d);
      var i :| 0 <= i < |order| && order[i].id == y;
      BallOfRadiusZero(v, x);
      BallMonotone(v, x, 0, k - 1);
      assert i != 0;
      assert rs[i - 1].node.id == y;
    }
  }

  const VISITED_LIMIT: nat := 10000

  lemma {:induction false} SubsetSize<T>(a: set<T>, b: set<T>)
    requires a <= b
    ensures |a| <= |b|
  {
    var rest := b - a;
    assert a + rest == b;
    assert |a + rest| == |a| + |rest|;
  }

  /** The nodes a search has still to discover. */
  ghost function Unseen(v: View, visited: set<Id>): nat {
    |v.nodes.Keys - visited|
  }

  lemma FewerUnseen(v: View, less: set<Id>, more: set<Id>)
    requires less < more <= v.nodes.Keys
    ensures Unseen(v, more) < Unseen(v, less)
  {
    var all := v.nodes.Keys;
    var w :| w in more && w !in less;
    SubsetSize((all - more) + {w}, all - less);
  }

  /** A search that has seen the ball of radius c and more than the limit, but not t, finds t
      only in a ball larger than the limit. */
  lemma {:induction false} CutOffMeansLargeBall(v: View, s: Id, t: Id, order: seq<Entry>, c: nat, d: nat)
    requires Layered(v, s, order) && Deepest(order) <= c + 1
    requires Ball(v, s, c) <= Seen(order) && t !in Seen(order) && |Seen(order)| > VISITED_LIMIT
    requires OnSphere(v, s, t, d)
    ensures |Ball(v, s, d)| > VISITED_LIMIT + 1
  {
    hide Ball;
    SphereWithinBall(v, s, t, d, c);
    SeenWithinBall(v, s, order, c + 1);
    BallMonotone(v, s, c + 1, d);
    SubsetSize(Seen(order) + {t}, Ball(v, s, d));
  }

  // ----- loop invariants of `path` -----

  /** The queue holds every discovered node from position h on, each with a trail leading to it. */
  ghost predicate Trails(v: View, s: Id, order: seq<Entry>, h: nat, queue: seq<(Id, Trail)>) {
    && h + |queue| == |order|
    && (forall i :: 0 <= i < |queue| ==> Entry(queue[i].0, |queue[i].1|) == order[h + i])
    && (forall i :: 0 <= i < |queue| ==> Leads(v, s, queue[i].0, queue[i].1))
  }

  ghost predicate AllScanned(v: View, order: seq<Entry>, h: nat) {
    h <= |order| && forall i :: 0 <= i < h ==> Near(v, order[i].id) <= Seen(order)
  }

  /** Between two steps of `path`: t is still undiscovered and the visited limit is not exceeded. */
  ghost predicate Tracing(v: View, s: Id, t: Id, order: seq<Entry>, visited: set<Id>, h: nat,
                          queue: seq<(Id, Trail)>) {
    && Layered(v, s, order) && visited == Seen(order) && visited <= v.nodes.Keys
    && Trails(v, s, order, h, queue) && AllScanned(v, order, h)
    && (queue != [] ==> Deepest(order) <= |queue[0].1| + 1)
    && t !in visited
  }

  lemma {:induction false} StartTracing(v: View, s: Id, t: Id)
    requires Consistent(v) && s in v.nodes && s != t
    ensures Tracing(v, s, t, [Entry(s, 0)], {s}, 0, [(s, [])])
  {
    BallOfRadiusZero(v, s);
  }

  lemma {:induction false} TakeTrail(v: View, s: Id, t: Id, order: seq<Entry>, visited: set<Id>, h: nat,
                                     queue: seq<(Id, Trail)>)
    requires Tracing(v, s, t, order, visited, h, queue) && queue != []
    ensures h < |order| && order[h] == Entry(queue[0].0, |queue[0].1|)
    ensures Layered(v, s, order) && AllScanned(v, order, h) && Trails(v, s, order, h + 1, queue[1..])
    ensures Frontier(v, s, order, visited, |queue[0].1|) && t !in visited
    ensures queue[0].0 in v.nodes && Leads(v, s, queue[0].0, queue[0].1)
    ensures OnSphere(v, s, queue[0].0, |queue[0].1|)
  {
    hide Ball, Leads;
    assert order[h] == Entry(queue[0].0, |queue[0].1|);
    assert order[h] in order;
    HeadIsCovered(v, s, order, h, order[h].depth + 1);
  }

  lemma {:induction false} AddTrail(v: View, s: Id, order: seq<Entry>, visited: set<Id>, h: nat,
                                    queue: seq<(Id, Trail)>, u: Id, trail: Trail, l: Link, w: Id)
    requires Consistent(v) && Layered(v, s, order) && Frontier(v, s, order, visited, |trail|)
    requires Trails(v, s, order, h, queue)
    requires OnSphere(v, s, u, |trail|) && Leads(v, s, u, trail) && u in v.nodes
    requires Joins(v, l, u, w) && w in v.nodes && w !in visited
    ensures Layered(v, s, order + [Entry(w, |trail| + 1)])
    ensures Frontier(v, s, order + [Entry(w, |trail| + 1)], visited + {w}, |trail|)
    ensures Trails(v, s, order + [Entry(w, |trail| + 1)], h, queue + [(w, trail + [(v.nodes[u], l)])])
  {
    hide Ball, Leads, Near, Consistent, Joins, Layered, OnSphere;
    JoinsNear(v, l, u, w);
    LeadsFurther(v, s, u, w, trail, l);
    SphereWithinBall(v, s, u, |trail|, |trail|);
    Discover(v, s, order, |trail|, u, w);
  }

  lemma {:induction false} TargetHit(v: View, s: Id, t: Id, order: seq<Entry>, visited: set<Id>,
                                     u: Id, trail: Trail, l: Link)
    requires Consistent(v) && Layered(v, s, order) && Frontier(v, s, order, visited, |trail|)
    requires OnSphere(v, s, u, |trail|) && Leads(v, s, u, trail) && u in v.nodes
    requires Joins(v, l, u, t) && t in v.nodes && t !in visited
    ensures ShortestPath(v, s, t, PathResult(true, trail + [(v.nodes[u], l), (v.nodes[t], l)], |trail| + 1))
  {
    hide Ball, Leads, Near, Consistent, Joins, Layered;
    JoinsNear(v, l, u, t);
    LeadsFurther(v, s, u, t, trail, l);
    BallReachesNear(v, s, u, t, |trail|);
    var path := trail + [(v.nodes[u], l), (v.nodes[t], l)];
    assert path[..|trail| + 1] == trail + [(v.nodes[u], l)];
  }

  lemma {:induction false} TrailDone(v: View, s: Id, t: Id, order: seq<Entry>, longer: seq<Entry>, visited: set<Id>,
                                     h: nat, queue: seq<(Id, Trail)>, u: Id, c: nat)
    requires h < |order| && order[h] == Entry(u, c) && order <= longer && AllScanned(v, order, h)
    requires Layered(v, s, longer) && Frontier(v, s, longer, visited, c) && Trails(v, s, longer, h + 1, queue)
    requires forall l | l in At(v.out, u) :: FarEnd(l, true) in visited
    requires forall l | l in At(v.inc, u) :: FarEnd(l, false) in visited
    requires t !in visited
    ensures Tracing(v, s, t, longer, visited, h + 1, queue) && visited <= v.nodes.Keys
  {
    hide Ball, Near, Leads, OnSphere, Consistent;
    SeenGrows(order, longer);
    BothDirectionsScanned(v, longer, u);
    if queue != [] {
      assert longer[h + 1].depth == |queue[0].1|;
    }
  }

  /** When the queue runs empty without meeting t, t lies in no ball around s. */
  lemma {:induction false} ExhaustedIsUnreachable(v: View, s: Id, t: Id, order: seq<Entry>, visited: set<Id>,
                                                  h: nat, d: nat)
    requires Tracing(v, s, t, order, visited, h, [])
    ensures t !in Ball(v, s, d)
  {
    hide Ball, Near, OnSphere;
    ScannedCoversBall(v, s, order, d);
  }

  lemma {:induction false} CutOffIsLarge(v: View, s: Id, t: Id, order: seq<Entry>, visited: set<Id>, c: nat)
    requires Layered(v, s, order) && Frontier(v, s, order, visited, c) && t !in visited && |visited| > VISITED_LIMIT
    ensures OnlyInLargeBall(v, s, t)
  {
    hide Ball, OnSphere, Layered;
    forall d: nat | OnSphere(v, s, t, d) ensures |Ball(v, s, d)| > VISITED_LIMIT + 1 {
      CutOffMeansLargeBall(v, s, t, order, c, d);
    }
  }

  lemma {:induction false} Exhausted(v: View, s: Id, t: Id, order: seq<Entry>, visited: set<Id>, h: nat)
    requires Tracing(v, s, t, order, visited, h, [])
    ensures OnlyInLargeBall(v, s, t)
  {
    hide Ball, Tracing;
    forall d: nat ensures !OnSphere(v, s, t, d) {
      ExhaustedIsUnreachable(v, s, t, order, visited, h, d);
    }
  }

  lemma FrontierBall(v: View, s: Id, order: seq<Entry>, visited: set<Id>, c: nat)
    requires Frontier(v, s, order, visited, c)
    ensures |Ball(v, s, c)| <= |visited|
  {
    hide Ball;
    SubsetSize(Ball(v, s, c), visited);
  }

  /** t is out of reach, or so far away that the ball reaching it exceeds the visited limit. */
  ghost predicate OnlyInLargeBall(v: View, s: Id, t: Id) {
    forall d: nat :: OnSphere(v, s, t, d) ==> |Ball(v, s, d)| > VISITED_LIMIT + 1
  }

  /** What `path` promises about its answer. */
  ghost predicate PathAnswer(v: View, s: Id, t: Id, r: PathResult) {
    && (r.found ==> s in v.nodes && t in v.nodes && ShortestPath(v, s, t, r))
    && (r.found && r.length > 0 ==> |Ball(v, s, r.length - 1)| <= VISITED_LIMIT)
    && (!r.found ==> r == PathResult(false, [], 0))
    && (!r.found && s in v.nodes && t in v.nodes ==> OnlyInLargeBall(v, s, t))
  }

  /** A target at distance d is found, with that length, whenever the ball reaching it holds at most
      10001 nodes, and is missed whenever the ball just short of it holds more than 10000. */
  lemma {:induction false} PathWindow(v: View, s: Id, t: Id, d: nat, r: PathResult)
    requires PathAnswer(v, s, t, r) && s in v.nodes && t in v.nodes && OnSphere(v, s, t, d)
    ensures |Ball(v, s, d)| <= 10001 ==> r.found
    ensures d > 0 && |Ball(v, s, d - 1)| > 10000 ==> !r.found
    ensures r.found ==> r.length == d && AtDistance(v, s, t, r.length)
  {
    hide Ball, Leads, AtDistance;
    if r.found {
      SphereWithinBall(v, s, t, d, r.length);
      SphereWithinBall(v, s, t, r.length, d);
      SphereIsDistance(v, s, t, d);
    }
  }
}
