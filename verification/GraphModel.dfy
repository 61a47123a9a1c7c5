/** The memory graph as a value: its four indexes, the operations on them, and undirected distance. */
module GraphModel {
  import opened Seqs

  type Id = string
  type Time = int // microseconds

  const DAY: int := 86_400_000_000

  datatype NodeType =
    | Task | Output | Failure | Experience | Tool | User | Prompt | Schema | Decision | Feedback | Event

  datatype LinkType =
    | RefersTo | Embeds | CausedBy | Causes | Triggered | EvolvedFrom | Supersedes | DeprecatedBy
    | DiscussedWith | HandedOffTo | EscalatedTo | ValidatedBy | TestedBy | FailedWith | References
    | BelongsTo | PartOf | CreatedBy | ModifiedBy | ApprovedBy | Before | After | Concurrent

  datatype Value = Null | Bool(b: bool) | Num(n: real) | Str(s: string)

  datatype Node = Node(id: Id, kind: NodeType, content: map<string, Value>, metadata: map<string, Value>,
                       createdAt: Time, updatedAt: Time)

  datatype Link = Link(source: Id, target: Id, kind: LinkType, weight: real, context: map<string, Value>,
                       createdAt: Time, createdBy: string)

  type Adjacency = map<Id, seq<Link>>

  /** A snapshot of the graph object: `_nodes`, `_outgoing`, `_incoming` and `_type_index`. */
  datatype View = View(nodes: map<Id, Node>, out: Adjacency, inc: Adjacency, index: map<NodeType, set<Id>>)

  const EMPTY := View(map[], map[], map[], map[])

  function At(m: Adjacency, id: Id): seq<Link> {
    if id in m then m[id] else []
  }

  function Ids(v: View, kind: NodeType): set<Id> {
    if kind in v.index then v.index[kind] else {}
  }

  function Joining(s: Id, t: Id): Link -> bool {
    (l: Link) => l.source == s && l.target == t
  }

  /** The links from s to t, in the order in which `ls` holds them. */
  function Between(ls: seq<Link>, s: Id, t: Id): seq<Link> {
    Filter(ls, Joining(s, t))
  }

  // ----- values -----

  function TypeName(kind: NodeType): string {
    match kind
    case Task => "task"
    case Output => "output"
    case Failure => "failure"
    case Experience => "experience"
    case Tool => "tool"
    case User => "user"
    case Prompt => "prompt"
    case Schema => "schema"
    case Decision => "decision"
    case Feedback => "feedback"
    case Event => "event"
  }

  function AfterPrefix(prefix: string, name: string): string
    requires prefix <= name
  {
    name[|prefix|..]
  }

  function Lookup(m: map<string, Value>, key: string): Value {
    if key in m then m[key] else Null
  }

  predicate Numeric(v: Value) {
    v.Num? || v.Bool?
  }

  function Number(v: Value): real
    requires Numeric(v)
  {
    match v
    case Num(n) => n
    case Bool(b) => if b then 1.0 else 0.0
  }

  predicate SameValue(a: Value, b: Value) {
    if Numeric(a) && Numeric(b) then Number(a) == Number(b) else a == b
  }

  // ----- the index invariant -----

  ghost predicate Anchored(v: View) {
    && (forall s | s in v.out :: forall l | l in v.out[s] :: l.source == s && s in v.nodes && l.target in v.nodes)
    && (forall t | t in v.inc :: forall l | l in v.inc[t] :: l.target == t && t in v.nodes && l.source in v.nodes)
  }

  /** Both link indexes list the links from s to t alike, order and multiplicity included. */
  ghost predicate Mirrored(v: View) {
    forall s, t :: Between(At(v.out, s), s, t) == Between(At(v.inc, t), s, t)
  }

  ghost predicate Keyed(v: View) {
    forall id | id in v.nodes :: v.nodes[id].id == id
  }

  ghost predicate Consistent(v: View) {
    Keyed(v) && Anchored(v) && Mirrored(v)
  }

  ghost predicate IndexExact(v: View) {
    forall kind: NodeType, id: Id :: id in Ids(v, kind) <==> id in v.nodes && v.nodes[id].kind == kind
  }

  /** Every link is listed equally often under its source and under its target. */
  lemma SameLinksBothWays(v: View, l: Link)
    requires Consistent(v)
    ensures multiset(At(v.out, l.source))[l] == multiset(At(v.inc, l.target))[l]
    ensures l in At(v.out, l.source) <==> l in At(v.inc, l.target)
  {
    var s, t := l.source, l.target;
    FilterMultiplicity(At(v.out, s), Joining(s, t), l);
    FilterMultiplicity(At(v.inc, t), Joining(s, t), l);
    assert Between(At(v.out, s), s, t) == Between(At(v.inc, t), s, t);
  }

  // ----- operations -----

  function AddNode(v: View, node: Node, now: Time): View {
    var created := if node.id in v.nodes then v.nodes[node.id].createdAt else node.createdAt;
    v.(nodes := v.nodes[node.id := node.(createdAt := created, updatedAt := now)],
       index := v.index[node.kind := Ids(v, node.kind) + {node.id}])
  }

  function AddLink(v: View, l: Link): View {
    v.(out := v.out[l.source := At(v.out, l.source) + [l]],
       inc := v.inc[l.target := At(v.inc, l.target) + [l]])
  }

  function Sparing(s: Id, t: Id, kind: Option<LinkType>): Link -> bool {
    (l: Link) => !(l.source == s && l.target == t && (kind.None? || l.kind == kind.value))
  }

  function Unlink(v: View, s: Id, t: Id, kind: Option<LinkType>): View {
    v.(out := v.out[s := Filter(At(v.out, s), Sparing(s, t, kind))],
       inc := v.inc[t := Filter(At(v.inc, t), Sparing(s, t, kind))])
  }

  function Avoiding(id: Id): Link -> bool {
    (l: Link) => l.source != id && l.target != id
  }

  /** What `delete_node` and `archive_node` leave of a link index. */
  function Detach(m: Adjacency, id: Id): Adjacency {
    map k | k in m && k != id :: Filter(m[k], Avoiding(id))
  }

  function Remove(v: View, id: Id): View
    requires id in v.nodes
  {
    View(v.nodes - {id}, Detach(v.out, id), Detach(v.inc, id),
         v.index[v.nodes[id].kind := Ids(v, v.nodes[id].kind) - {id}])
  }

  // ----- the operations keep the invariant -----

  lemma AddNodeConsistent(v: View, node: Node, now: Time)
    requires Consistent(v)
    ensures Consistent(AddNode(v, node, now))
  {
    var w := AddNode(v, node, now);
    forall s, t ensures Between(At(w.out, s), s, t) == Between(At(w.inc, t), s, t) {
      assert Between(At(v.out, s), s, t) == Between(At(v.inc, t), s, t);
    }
  }

  /** Re-adding an id under another type leaves it listed under the old one: the type index
      stays exact exactly when the id is new or keeps its type. */
  lemma AddNodeIndexExact(v: View, node: Node, now: Time)
    requires IndexExact(v)
    ensures IndexExact(AddNode(v, node, now)) <==> (node.id !in v.nodes || v.nodes[node.id].kind == node.kind)
  {
    var w := AddNode(v, node, now);
    if node.id in v.nodes && v.nodes[node.id].kind != node.kind {
      var prior := v.nodes[node.id].kind;
      assert node.id in Ids(v, prior);
      assert node.id in Ids(w, prior) && w.nodes[node.id].kind != prior;
    } else {
      forall kind: NodeType, id: Id
        ensures id in Ids(w, kind) <==> id in w.nodes && w.nodes[id].kind == kind
      {
        assert id in Ids(v, kind) <==> id in v.nodes && v.nodes[id].kind == kind;
      }
    }
  }

  lemma AddLinkMirrors(v: View, l: Link, s: Id, t: Id)
    requires Between(At(v.out, s), s, t) == Between(At(v.inc, t), s, t)
    ensures Between(At(AddLink(v, l).out, s), s, t) == Between(At(AddLink(v, l).inc, t), s, t)
  {
    FilterConcat(At(v.out, s), [l], Joining(s, t));
    FilterConcat(At(v.inc, t), [l], Joining(s, t));
    if !(l.source == s && l.target == t) {
      assert Filter([l], Joining(s, t)) == [];
    }
  }

  lemma AddLinkConsistent(v: View, l: Link)
    requires Consistent(v) && l.source in v.nodes && l.target in v.nodes
    ensures Consistent(AddLink(v, l))
  {
    forall s, t
      ensures Between(At(AddLink(v, l).out, s), s, t) == Between(At(AddLink(v, l).inc, t), s, t)
    {
      assert Between(At(v.out, s), s, t) == Between(At(v.inc, t), s, t);
      AddLinkMirrors(v, l, s, t);
    }
  }

  function And(p: Link -> bool, q: Link -> bool): Link -> bool {
    (l: Link) => p(l) && q(l)
  }

  lemma BetweenOfFilter(ls: seq<Link>, p: Link -> bool, s: Id, t: Id)
    ensures Between(Filter(ls, p), s, t) == Filter(Between(ls, s, t), p)
  {
    FilterFilter(ls, p, Joining(s, t), And(p, Joining(s, t)));
    FilterFilter(ls, Joining(s, t), p, And(p, Joining(s, t)));
  }

  lemma UnlinkConsistent(v: View, s: Id, t: Id, kind: Option<LinkType>)
    requires Consistent(v)
    ensures Consistent(Unlink(v, s, t, kind))
  {
    hide Anchored, Mirrored;
    UnlinkAnchored(v, s, t, kind);
    UnlinkMirrored(v, s, t, kind);
  }

  lemma UnlinkAnchored(v: View, s: Id, t: Id, kind: Option<LinkType>)
    requires Anchored(v)
    ensures Anchored(Unlink(v, s, t, kind))
  {
  }

  /** Only the pair itself loses links. */
  lemma SparedBetween(ls: seq<Link>, s: Id, t: Id, kind: Option<LinkType>, a: Id, b: Id)
    ensures Between(Filter(ls, Sparing(s, t, kind)), a, b) ==
      if a == s && b == t then Filter(Between(ls, a, b), Sparing(s, t, kind)) else Between(ls, a, b)
  {
    BetweenOfFilter(ls, Sparing(s, t, kind), a, b);
    if !(a == s && b == t) {
      FilterAll(Between(ls, a, b), Sparing(s, t, kind));
    }
  }

  /** Unlinking takes exactly the links of the pair, and of the type if one is given, from both indexes, and keeps
      the others in number and order. */
  lemma UnlinkTakesExactly(v: View, s: Id, t: Id, kind: Option<LinkType>, l: Link, u: Id)
    ensures var w := Unlink(v, s, t, kind);
      var taken := l.source == s && l.target == t && (kind.None? || l.kind == kind.value);
      && w.nodes == v.nodes && w.index == v.index
      && (u == s ==> multiset(At(w.out, u))[l] == if taken then 0 else multiset(At(v.out, u))[l])
      && (u == t ==> multiset(At(w.inc, u))[l] == if taken then 0 else multiset(At(v.inc, u))[l])
      && (u != s ==> At(w.out, u) == At(v.out, u)) && (u != t ==> At(w.inc, u) == At(v.inc, u))
  {
    FilterMultiplicity(At(v.out, s), Sparing(s, t, kind), l);
    FilterMultiplicity(At(v.inc, t), Sparing(s, t, kind), l);
  }

  /** A node keeps the time of its first adding however often it is added again, and is updated each time; what else
      it holds is what was added last. */
  lemma AddingAgainKeepsCreation(v: View, node: Node, again: Node, now: Time, later: Time)
    requires node.id !in v.nodes && again.id == node.id
    ensures var n := AddNode(AddNode(v, node, now), again, later).nodes[node.id];
      && n.createdAt == node.createdAt && n.updatedAt == later
      && n.kind == again.kind && n.content == again.content && n.metadata == again.metadata
    ensures AddNode(v, node, now).nodes.Keys == v.nodes.Keys + {node.id}
    ensures forall id :: id in v.nodes ==> AddNode(v, node, now).nodes[id] == v.nodes[id]
  {
  }

  lemma UnlinkMirrored(v: View, s: Id, t: Id, kind: Option<LinkType>)
    requires Mirrored(v)
    ensures Mirrored(Unlink(v, s, t, kind))
  {
    hide Between, Sparing;
    var w := Unlink(v, s, t, kind);
    forall a, b ensures Between(At(w.out, a), a, b) == Between(At(w.inc, b), a, b) {
      assert Between(At(v.out, a), a, b) == Between(At(v.inc, b), a, b);
      SparedBetween(At(v.out, a), s, t, kind, a, b);
      SparedBetween(At(v.inc, b), s, t, kind, a, b);
    }
  }

  /** Removing a node takes its own links away and leaves every other pair's links as they were. */
  lemma DetachBetween(m: Adjacency, id: Id, k: Id, s: Id, t: Id)
    requires k == s || k == t
    ensures Between(At(Detach(m, id), k), s, t) == if s == id || t == id then [] else Between(At(m, k), s, t)
  {
    if k != id {
      BetweenOfFilter(At(m, k), Avoiding(id), s, t);
      if s == id || t == id {
        FilterNone(Between(At(m, k), s, t), Avoiding(id));
      } else {
        FilterAll(Between(At(m, k), s, t), Avoiding(id));
      }
    }
  }

  lemma RemoveMirrors(v: View, id: Id)
    requires Mirrored(v) && id in v.nodes
    ensures Mirrored(Remove(v, id))
  {
    var w := Remove(v, id);
    forall a, b ensures Between(At(w.out, a), a, b) == Between(At(w.inc, b), a, b) {
      assert Between(At(v.out, a), a, b) == Between(At(v.inc, b), a, b);
      DetachBetween(v.out, id, a, a, b);
      DetachBetween(v.inc, id, b, a, b);
    }
  }

  lemma RemoveConsistent(v: View, id: Id)
    requires Consistent(v) && id in v.nodes
    ensures Consistent(Remove(v, id))
  {
    RemoveMirrors(v, id);
  }

  lemma RemoveIndexExact(v: View, id: Id)
    requires IndexExact(v) && id in v.nodes
    ensures IndexExact(Remove(v, id))
  {
    var w := Remove(v, id);
    forall kind: NodeType, x: Id
      ensures x in Ids(w, kind) <==> x in w.nodes && w.nodes[x].kind == kind
    {
      assert x in Ids(v, kind) <==> x in v.nodes && v.nodes[x].kind == kind;
    }
  }

  lemma RemoveKeepsOtherLinks(v: View, id: Id, s: Id, t: Id)
    requires id in v.nodes
    ensures Between(At(Remove(v, id).out, s), s, t)
         == if s == id || t == id then [] else Between(At(v.out, s), s, t)
  {
    DetachBetween(v.out, id, s, s, t);
  }

  // ----- undirected distance -----

  /** The nodes one link away from u, followed in either direction. */
  function Near(v: View, u: Id): set<Id> {
    (set l | l in At(v.out, u) :: l.target) + (set l | l in At(v.inc, u) :: l.source)
  }

  /** l is a stored link between a and b, in one direction or the other. */
  ghost predicate Joins(v: View, l: Link, a: Id, b: Id) {
    (l in At(v.out, a) && l.target == b) || (l in At(v.inc, a) && l.source == b)
  }

  lemma NearIsSymmetric(v: View, a: Id, b: Id)
    requires Consistent(v) && b in Near(v, a)
    ensures a in Near(v, b)
  {
    if l :| l in At(v.out, a) && l.target == b {
      SameLinksBothWays(v, l);
      assert l in At(v.inc, b) && l.source == a;
    } else {
      var l :| l in At(v.inc, a) && l.source == b;
      SameLinksBothWays(v, l);
      assert l in At(v.out, b) && l.target == a;
    }
  }

  ghost predicate Walk(v: View, p: seq<Id>) {
    p != [] && forall i :: 0 <= i < |p| - 1 ==> p[i + 1] in Near(v, p[i])
  }

  ghost predicate WalkFromTo(v: View, p: seq<Id>, x: Id, y: Id, n: nat) {
    Walk(v, p) && |p| == n + 1 && p[0] == x && p[n] == y
  }

  /** y is exactly d undirected steps from x: some walk has d steps and none has fewer. */
  ghost predicate AtDistance(v: View, x: Id, y: Id, d: nat) {
    && (exists p :: WalkFromTo(v, p, x, y, d))
    && (forall p, k: nat :: WalkFromTo(v, p, x, y, k) ==> d <= k)
  }

  /** The ids at most n undirected steps from x. */
  ghost function Ball(v: View, x: Id, n: nat): set<Id> {
    if n == 0 then {x}
    else Ball(v, x, n - 1) + (set u, w | u in Ball(v, x, n - 1) && w in Near(v, u) :: w)
  }

  ghost predicate OnSphere(v: View, x: Id, y: Id, d: nat) {
    y in Ball(v, x, d) && (d > 0 ==> y !in Ball(v, x, d - 1))
  }

  lemma {:induction false} BallMonotone(v: View, x: Id, m: nat, n: nat)
    requires m <= n
    ensures Ball(v, x, m) <= Ball(v, x, n)
    decreases n
  {
    if m < n {
      BallMonotone(v, x, m, n - 1);
    }
  }

  lemma BallOfRadiusZero(v: View, x: Id)
    ensures Ball(v, x, 0) == {x}
  {
  }

  lemma {:induction false} BallReachesNear(v: View, x: Id, u: Id, w: Id, n: nat)
    requires u in Ball(v, x, n) && w in Near(v, u)
    ensures w in Ball(v, x, n + 1)
  {
  }

  lemma {:induction false} BallOrigin(v: View, x: Id, w: Id, n: nat) returns (u: Id)
    requires n > 0 && w in Ball(v, x, n) && w !in Ball(v, x, n - 1)
    ensures u in Ball(v, x, n - 1) && w in Near(v, u)
  {
    u :| u in Ball(v, x, n - 1) && w in Near(v, u);
  }

  lemma {:induction false} WalkStaysInBall(v: View, p: seq<Id>, x: Id, y: Id, n: nat)
    requires WalkFromTo(v, p, x, y, n)
    ensures y in Ball(v, x, n)
  {
    if n > 0 {
      WalkStaysInBall(v, p[..n], x, p[n - 1], n - 1);
      assert p[(n - 1) + 1] in Near(v, p[n - 1]);
    }
  }

  lemma {:induction false} BallHasWalk(v: View, x: Id, y: Id, n: nat) returns (p: seq<Id>, k: nat)
    requires y in Ball(v, x, n)
    ensures k <= n && WalkFromTo(v, p, x, y, k)
    decreases n
  {
    hide Near, WalkFromTo;
    if n == 0 {
      p, k := [x], 0;
      WalkStarts(v, x);
    } else if y in Ball(v, x, n - 1) {
      p, k := BallHasWalk(v, x, y, n - 1);
    } else {
      var u :| u in Ball(v, x, n - 1) && y in Near(v, u);
      var q, j := BallHasWalk(v, x, u, n - 1);
      WalkExtends(v, q, x, u, y, j);
      p, k := q + [y], j + 1;
    }
  }

  lemma WalkStarts(v: View, x: Id)
    ensures WalkFromTo(v, [x], x, x, 0)
  {
  }

  lemma WalkExtends(v: View, q: seq<Id>, x: Id, u: Id, y: Id, j: nat)
    requires WalkFromTo(v, q, x, u, j) && y in Near(v, u)
    ensures WalkFromTo(v, q + [y], x, y, j + 1)
  {
    hide Near;
    var p := q + [y];
    assert forall i :: 0 <= i < |q| ==> p[i] == q[i];
  }

  /** The balls measure distance by walks: the radius at which y first appears is the length of
      a shortest walk from x to y. */
  lemma {:induction false} SphereIsDistance(v: View, x: Id, y: Id, d: nat)
    ensures OnSphere(v, x, y, d) <==> AtDistance(v, x, y, d)
  {
    if OnSphere(v, x, y, d) {
      var p, k := BallHasWalk(v, x, y, d);
      forall q, j: nat | WalkFromTo(v, q, x, y, j) ensures d <= j {
        WalkStaysInBall(v, q, x, y, j);
        if j < d { BallMonotone(v, x, j, d - 1); }
      }
      assert k == d;
    }
    if AtDistance(v, x, y, d) {
      var p :| WalkFromTo(v, p, x, y, d);
      WalkStaysInBall(v, p, x, y, d);
      if d > 0 && y in Ball(v, x, d - 1) {
        var q, k := BallHasWalk(v, x, y, d - 1);
        assert false;
      }
    }
  }

  /** Every member of a ball lies on exactly one of its spheres. */
  lemma {:induction false} BallHasSphere(v: View, x: Id, y: Id, n: nat) returns (d: nat)
    requires y in Ball(v, x, n)
    ensures d <= n && OnSphere(v, x, y, d)
  {
    if n == 0 || y !in Ball(v, x, n - 1) {
      d := n;
    } else {
      d := BallHasSphere(v, x, y, n - 1);
    }
  }

  lemma {:induction false} SphereWithinBall(v: View, x: Id, y: Id, d: nat, n: nat)
    requires OnSphere(v, x, y, d)
    ensures y in Ball(v, x, n) <==> d <= n
  {
    if d <= n {
      BallMonotone(v, x, d, n);
    } else {
      BallMonotone(v, x, n, d - 1);
    }
  }

  lemma {:induction false} BallStaysInGraph(v: View, x: Id, n: nat)
    requires Consistent(v) && x in v.nodes
    ensures Ball(v, x, n) <= v.nodes.Keys
  {
    if n > 0 {
      BallStaysInGraph(v, x, n - 1);
    }
  }

  /** Graphs with the same links have the same balls. */
  lemma {:induction false} SameNearSameBall(v: View, w: View, x: Id, n: nat)
    requires forall u :: Near(v, u) == Near(w, u)
    ensures Ball(v, x, n) == Ball(w, x, n)
  {
    if n > 0 {
      SameNearSameBall(v, w, x, n - 1);
    }
  }

  /** Taking a node out never brings two others closer together. */
  lemma {:induction false} RemoveNeverShortens(v: View, id: Id, x: Id, n: nat)
    requires id in v.nodes
    ensures Ball(Remove(v, id), x, n) <= Ball(v, x, n)
  {
    if n > 0 {
      RemoveNeverShortens(v, id, x, n - 1);
      forall u ensures Near(Remove(v, id), u) <= Near(v, u) {
      }
    }
  }
}
