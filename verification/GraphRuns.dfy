/** Whole histories of a memory graph, and the graphs on which `path` gives up. */
module GraphRuns {
  import opened Seqs
  import opened GraphModel
  import opened GraphSearch

  datatype Op =
    | AddOp(node: Node, now: Time)
    | LinkOp(link: Link)
    | UnlinkOp(source: Id, target: Id, kind: Option<LinkType>)
    | DeleteOp(id: Id)
    | ArchiveOp(id: Id, stored: bool)

  /** The effect of one call, as the methods of the graph state it. */
  function Apply(v: View, op: Op): View {
    match op
    case AddOp(node, now) => AddNode(v, node, now)
    case LinkOp(l) => if l.source in v.nodes && l.target in v.nodes then AddLink(v, l) else v
    case UnlinkOp(s, t, kind) => Unlink(v, s, t, kind)
    case DeleteOp(id) => if id in v.nodes then Remove(v, id) else v
    case ArchiveOp(id, stored) => if id in v.nodes && stored then Remove(v, id) else v
  }

  function Run(ops: seq<Op>): View {
    if ops == [] then EMPTY else Apply(Run(ops[..|ops| - 1]), ops[|ops| - 1])
  }

  /** In every history, links are mirrored, anchored at stored nodes, and nodes keyed by their id. */
  lemma {:induction false} RunIsConsistent(ops: seq<Op>)
    ensures Consistent(Run(ops))
  {
    if ops != [] {
      var v := Run(ops[..|ops| - 1]);
      RunIsConsistent(ops[..|ops| - 1]);
      match ops[|ops| - 1]
      case AddOp(node, now) => AddNodeConsistent(v, node, now);
      case LinkOp(l) => if l.source in v.nodes && l.target in v.nodes { AddLinkConsistent(v, l); }
      case UnlinkOp(s, t, kind) => UnlinkConsistent(v, s, t, kind);
      case DeleteOp(id) => if id in v.nodes { RemoveConsistent(v, id); }
      case ArchiveOp(id, stored) => if id in v.nodes { RemoveConsistent(v, id); }
    }
  }

  /** op does not give an existing id another type. */
  predicate KeepsTypes(v: View, op: Op) {
    op.AddOp? && op.node.id in v.nodes ==> v.nodes[op.node.id].kind == op.node.kind
  }

  /** One call keeps the type index exact if and only if it does not retype a stored node. */
  lemma {:induction false} ApplyIndexExact(v: View, op: Op)
    requires IndexExact(v)
    ensures IndexExact(Apply(v, op)) <==> KeepsTypes(v, op)
  {
    hide Remove, AddNode, AddLink, Unlink;
    match op
    case AddOp(node, now) => AddNodeIndexExact(v, node, now);
    case LinkOp(l) => SameIndex(v, op);
    case UnlinkOp(s, t, kind) => SameIndex(v, op);
    case DeleteOp(id) => if id in v.nodes { RemoveIndexExact(v, id); }
    case ArchiveOp(id, stored) => if id in v.nodes { RemoveIndexExact(v, id); }
  }

  lemma SameIndex(v: View, op: Op)
    requires IndexExact(v) && (op.LinkOp? || op.UnlinkOp?)
    ensures IndexExact(Apply(v, op))
  {
    var w := Apply(v, op);
    forall kind: NodeType, id: Id ensures id in Ids(w, kind) <==> id in w.nodes && w.nodes[id].kind == kind {
      assert Ids(w, kind) == Ids(v, kind);
    }
  }

  lemma {:induction false} RunIndexExact(ops: seq<Op>)
    requires forall i :: 0 <= i < |ops| ==> KeepsTypes(Run(ops[..i]), ops[i])
    ensures IndexExact(Run(ops))
  {
    if ops != [] {
      var init := ops[..|ops| - 1];
      forall i | 0 <= i < |init| ensures KeepsTypes(Run(init[..i]), init[i]) {
        assert init[..i] == ops[..i];
      }
      RunIndexExact(init);
      ApplyIndexExact(Run(init), ops[|ops| - 1]);
    }
  }

  /** Re-adding a task under the type `output` leaves its id listed among the tasks. */
  lemma RetypedNodeStaysListed(node: Node, now: Time)
    requires node.kind == Task
    ensures var v := Run([AddOp(node, now), AddOp(node.(kind := Output), now)]);
      node.id in Ids(v, Task) && v.nodes[node.id].kind == Output && !IndexExact(v)
  {
    var ops := [AddOp(node, now), AddOp(node.(kind := Output), now)];
    assert ops[..1] == [ops[0]] && ops[..1][..0] == [];
    var v := Run(ops);
    assert Run(ops[..1]) == AddNode(EMPTY, node, now);
    assert node.id in Ids(v, Task);
  }

  // ----- a target two steps away that `path` does not report -----

  function Leaf(i: nat): Id {
    if i == 0 then "leaf" else Leaf(i - 1) + "."
  }

  lemma {:induction false} LeafLength(i: nat)
    ensures |Leaf(i)| == i + 4
  {
    if i > 0 { LeafLength(i - 1); }
  }

  function Plain(id: Id): Node {
    Node(id, Task, map[], map[], 0, 0)
  }

  function Spoke(s: Id, t: Id): Link {
    Link(s, t, RefersTo, 1.0, map[], 0, "system")
  }

  /** A hub linked to leaves 0 .. n - 1. */
  function Star(n: nat): View {
    if n == 0 then AddNode(EMPTY, Plain("hub"), 0)
    else AddLink(AddNode(Star(n - 1), Plain(Leaf(n - 1)), 0), Spoke("hub", Leaf(n - 1)))
  }

  ghost function Leaves(n: nat): set<Id> {
    if n == 0 then {} else Leaves(n - 1) + {Leaf(n - 1)}
  }

  lemma {:induction false} LeavesCounted(n: nat)
    ensures |Leaves(n)| == n
    ensures forall id | id in Leaves(n) :: 4 <= |id| < n + 4
  {
    if n > 0 {
      LeavesCounted(n - 1);
      LeafLength(n - 1);
    }
  }

  /** Only the hub has outgoing links and nothing links to it. */
  ghost predicate StarLike(v: View, ids: set<Id>) {
    && Consistent(v) && Near(v, "hub") == ids
    && v.nodes.Keys == ids + {"hub"} && At(v.inc, "hub") == []
  }

  lemma {:induction false} AddSpoke(v: View, ids: set<Id>, id: Id)
    requires StarLike(v, ids) && id != "hub"
    ensures StarLike(AddLink(AddNode(v, Plain(id), 0), Spoke("hub", id)), ids + {id})
  {
    hide Consistent;
    AddNodeConsistent(v, Plain(id), 0);
    AddLinkConsistent(AddNode(v, Plain(id), 0), Spoke("hub", id));
    var w := AddLink(AddNode(v, Plain(id), 0), Spoke("hub", id));
    assert At(w.out, "hub") == At(v.out, "hub") + [Spoke("hub", id)];
    assert At(w.inc, "hub") == [];
  }

  lemma LoneHub()
    ensures StarLike(AddNode(EMPTY, Plain("hub"), 0), {})
  {
    AddNodeConsistent(EMPTY, Plain("hub"), 0);
  }

  lemma {:induction false} StarShape(n: nat)
    ensures StarLike(Star(n), Leaves(n))
  {
    hide StarLike, Leaf, AddLink, AddNode;
    if n == 0 {
      LoneHub();
    } else {
      StarShape(n - 1);
      LeafLength(n - 1);
      AddSpoke(Star(n - 1), Leaves(n - 1), Leaf(n - 1));
    }
  }

  /** The calls that build the star. */
  function StarOps(n: nat): seq<Op> {
    if n == 0 then [AddOp(Plain("hub"), 0)]
    else StarOps(n - 1) + [AddOp(Plain(Leaf(n - 1)), 0), LinkOp(Spoke("hub", Leaf(n - 1)))]
  }

  /** The star, and behind its first leaf one more node. */
  function TailedOps(n: nat): seq<Op> {
    StarOps(n) + [AddOp(Plain("t"), 0), LinkOp(Spoke(Leaf(0), "t"))]
  }

  lemma RunTwo(ops: seq<Op>, a: Op, b: Op)
    ensures Run(ops + [a, b]) == Apply(Apply(Run(ops), a), b)
  {
    var all := ops + [a, b];
    assert all[..|all| - 1] == ops + [a] && (ops + [a])[..|ops|] == ops;
  }

  lemma {:induction false} StarIsBuilt(n: nat)
    ensures Run(StarOps(n)) == Star(n)
  {
    hide StarLike, Leaf, AddLink, AddNode;
    if n == 0 {
      assert StarOps(0)[..0] == [];
    } else {
      StarIsBuilt(n - 1);
      RunTwo(StarOps(n - 1), AddOp(Plain(Leaf(n - 1)), 0), LinkOp(Spoke("hub", Leaf(n - 1))));
      StarShape(n - 1);
      StarHolds(Star(n - 1), Leaves(n - 1), "hub");
      NodeIsAdded(Star(n - 1), Plain(Leaf(n - 1)));
    }
  }

  lemma StarHolds(v: View, ids: set<Id>, id: Id)
    requires StarLike(v, ids) && id in ids + {"hub"}
    ensures id in v.nodes
  {
  }

  lemma NodeIsAdded(v: View, node: Node)
    ensures AddNode(v, node, 0).nodes.Keys == v.nodes.Keys + {node.id}
  {
  }

  /** Past the visited limit a close target is missed: after a history that links a hub to 10001 leaves and one of
      them to another node, `path` does not report that node, two steps away from the hub. */
  lemma {:induction false} CutOffHidesCloseTarget(r: PathResult)
    ensures var v := Run(TailedOps(10001));
      Consistent(v) && OnSphere(v, "hub", "t", 2) && (PathAnswer(v, "hub", "t", r) ==> !r.found)
  {
    hide PathAnswer, TailedOps, Run, Ball, Consistent, OnSphere;
    StarWithTail(10001);
    var v := Run(TailedOps(10001));
    if PathAnswer(v, "hub", "t", r) {
      PathWindow(v, "hub", "t", 2, r);
    }
  }

  lemma {:induction false} StarWithTail(n: nat)
    requires n > 0
    ensures var v := Run(TailedOps(n));
      && Consistent(v) && "hub" in v.nodes && "t" in v.nodes
      && OnSphere(v, "hub", "t", 2) && |Ball(v, "hub", 1)| >= n
  {
    hide Star, Leaves, Leaf, Consistent, Ball, OnSphere;
    StarShape(n);
    StarIsBuilt(n);
    FirstLeaf(n);
    LeavesCounted(n);
    RunTwo(StarOps(n), AddOp(Plain("t"), 0), LinkOp(Spoke(Leaf(0), "t")));
    var w := AddNode(Star(n), Plain("t"), 0);
    AddNodeConsistent(Star(n), Plain("t"), 0);
    var v := AddLink(w, Spoke(Leaf(0), "t"));
    AddLinkConsistent(w, Spoke(Leaf(0), "t"));
    LeafLength(0);
    assert At(v.out, Leaf(0)) == At(w.out, Leaf(0)) + [Spoke(Leaf(0), "t")];
    assert At(v.out, Leaf(0))[|At(w.out, Leaf(0))|] == Spoke(Leaf(0), "t");
    BehindALeaf(v, n, Leaf(0));
  }

  lemma {:induction false} FirstLeaf(n: nat)
    requires n > 0
    ensures Leaf(0) in Leaves(n)
  {
    if n > 1 { FirstLeaf(n - 1); }
  }

  lemma {:induction false} BehindALeaf(v: View, n: nat, leaf: Id)
    requires Near(v, "hub") == Leaves(n) && leaf in Leaves(n) && "t" in Near(v, leaf)
    ensures OnSphere(v, "hub", "t", 2) && |Ball(v, "hub", 1)| >= n
  {
    LeavesCounted(n);
    BallOfRadiusZero(v, "hub");
    hide Near, Leaves;
    assert Ball(v, "hub", 1) == {"hub"} + Leaves(n);
    hide Ball;
    BallReachesNear(v, "hub", leaf, "t", 1);
    SubsetSize(Leaves(n), Ball(v, "hub", 1));
  }
}
