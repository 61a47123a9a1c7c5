/** The mutable memory graph and its searches. Clock readings are parameters. */
module MemoryGraph {
  import opened Seqs
  import opened GraphModel
  import opened GraphSearch
  import GraphSweep

  /** The nodes `find_orphan_nodes` reports: old enough, not excluded, without any link. */
  ghost predicate Orphan(v: View, id: Id, now: Time, windowDays: int, exclude: seq<NodeType>) {
    && id in v.nodes
    && v.nodes[id].kind !in exclude
    && v.nodes[id].createdAt <= now - windowDays * 86_400_000_000
    && At(v.out, id) == [] && At(v.inc, id) == []
  }

  /** The orphans that are also older than the stricter cutoff and whose archive file gets written. */
  ghost function Stale(v: View, now: Time, later: Time, olderDays: int, windowDays: int, exclude: seq<NodeType>,
                       stored: Id -> bool): set<Id> {
    set id | id in v.nodes && Orphan(v, id, now, windowDays, exclude) &&
             v.nodes[id].createdAt < later - olderDays * 86_400_000_000 && stored(id)
  }

  /** Compaction takes the nodes without links, of a type not excluded, created by the end of the window and before
      the stricter cutoff, whose file gets written. */
  lemma StaleMeans(v: View, now: Time, later: Time, olderDays: int, windowDays: int, exclude: seq<NodeType>,
                   stored: Id -> bool, id: Id)
    ensures id in Stale(v, now, later, olderDays, windowDays, exclude, stored) <==>
      && id in v.nodes && v.nodes[id].kind !in exclude && stored(id)
      && (id in v.out ==> v.out[id] == []) && (id in v.inc ==> v.inc[id] == [])
      && v.nodes[id].createdAt <= now - windowDays * 86_400_000_000
      && v.nodes[id].createdAt < later - olderDays * 86_400_000_000
  {
  }

  function Older(cutoff: Time): Node -> bool {
    (n: Node) => n.createdAt < cutoff
  }

  ghost function Archived(list: seq<Node>, stored: Id -> bool): set<Id> {
    set n | n in list && stored(n.id) :: n.id
  }

  lemma NothingArchived(v: View, list: seq<Node>, stored: Id -> bool)
    requires Consistent(v)
    ensures Compacted(v, v, {}) && Archived(list[..0], stored) == {}
  {
  }

  lemma ArchivedStep(list: seq<Node>, i: nat, stored: Id -> bool)
    requires i < |list| && forall i, j :: 0 <= i < j < |list| ==> list[i].id != list[j].id
    ensures list[i].id !in Archived(list[..i], stored)
    ensures Archived(list[..i + 1], stored)
         == Archived(list[..i], stored) + if stored(list[i].id) then {list[i].id} else {}
  {
    assert list[..i + 1] == list[..i] + [list[i]];
    forall n | n in list[..i] ensures n.id != list[i].id {
      var j :| 0 <= j < i && list[j] == n;
    }
  }

  lemma StaleAmongOrphans(v: View, orphans: seq<Node>, now: Time, later: Time, olderDays: int, windowDays: int,
                          exclude: seq<NodeType>, stored: Id -> bool)
    requires forall i :: 0 <= i < |orphans| ==> orphans[i].id in v.nodes && v.nodes[orphans[i].id] == orphans[i]
    requires forall i, j :: 0 <= i < j < |orphans| ==> orphans[i].id != orphans[j].id
    requires forall id :: Orphan(v, id, now, windowDays, exclude) <==> exists i :: 0 <= i < |orphans| && orphans[i].id == id
    ensures Archived(Filter(orphans, Older(later - olderDays * DAY)), stored)
         == Stale(v, now, later, olderDays, windowDays, exclude, stored)
    ensures var list := Filter(orphans, Older(later - olderDays * DAY));
      && (forall i :: 0 <= i < |list| ==> Orphan(v, list[i].id, now, windowDays, exclude))
      && (forall i, j :: 0 <= i < j < |list| ==> list[i].id != list[j].id)
  {
    var list := Filter(orphans, Older(later - olderDays * DAY));
    forall id | Orphan(v, id, now, windowDays, exclude) ensures v.nodes[id] in orphans && v.nodes[id].id == id {
      var i :| 0 <= i < |orphans| && orphans[i].id == id;
      assert orphans[i] in orphans;
    }
    forall i | 0 <= i < |list| ensures Orphan(v, list[i].id, now, windowDays, exclude) {
      assert list[i] in orphans;
    }
    FilterKeepsDistinctIds(orphans, Older(later - olderDays * DAY));
  }

  lemma {:induction false} FilterKeepsDistinctIds(ns: seq<Node>, p: Node -> bool)
    requires forall i, j :: 0 <= i < j < |ns| ==> ns[i].id != ns[j].id
    ensures forall i, j :: 0 <= i < j < |Filter(ns, p)| ==> Filter(ns, p)[i].id != Filter(ns, p)[j].id
  {
    if ns != [] {
      FilterKeepsDistinctIds(ns[1..], p);
      var rest := Filter(ns[1..], p);
      forall j | 0 <= j < |rest| ensures rest[j].id != ns[0].id {
        assert rest[j] in ns[1..];
        var k :| 0 <= k < |ns[1..]| && ns[1..][k] == rest[j];
        assert ns[k + 1].id != ns[0].id;
      }
      assert Filter(ns, p) == (if p(ns[0]) then [ns[0]] else []) + rest;
    }
  }

  ghost predicate SameLinks(v: View, w: View) {
    forall u :: At(v.out, u) == At(w.out, u) && At(v.inc, u) == At(w.inc, u)
  }

  lemma RemoveIsolated(v: View, id: Id)
    requires Consistent(v) && id in v.nodes && At(v.out, id) == [] && At(v.inc, id) == []
    ensures SameLinks(v, Remove(v, id))
  {
    var w := Remove(v, id);
    forall u ensures At(v.out, u) == At(w.out, u) && At(v.inc, u) == At(w.inc, u) {
      if u != id {
        forall l | l in At(v.out, u) ensures Avoiding(id)(l) { SameLinksBothWays(v, l); }
        forall l | l in At(v.inc, u) ensures Avoiding(id)(l) { SameLinksBothWays(v, l); }
        FilterAll(At(v.out, u), Avoiding(id));
        FilterAll(At(v.inc, u), Avoiding(id));
      }
    }
  }

  /** Graphs with the same link lists have the same distances. */
  lemma {:induction false} SameLinksSameDistances(v: View, w: View, x: Id, y: Id, d: nat)
    requires SameLinks(v, w)
    ensures OnSphere(v, x, y, d) <==> OnSphere(w, x, y, d)
  {
    hide Ball;
    forall u ensures Near(v, u) == Near(w, u) {
      assert At(v.out, u) == At(w.out, u) && At(v.inc, u) == At(w.inc, u);
    }
    SameNearSameBall(v, w, x, d);
    if d > 0 { SameNearSameBall(v, w, x, d - 1); }
  }

  /** The nodes of `find_nodes(node_type)`: the listed ids that still exist. */
  function Listed(nodes: map<Id, Node>, listing: seq<Id>): (found: seq<Node>)
    ensures |found| <= |listing|
  {
    if listing == [] then []
    else (if listing[0] in nodes then [nodes[listing[0]]] else []) + Listed(nodes, listing[1..])
  }

  lemma {:induction false} ListedConcat(nodes: map<Id, Node>, a: seq<Id>, b: seq<Id>)
    ensures Listed(nodes, a + b) == Listed(nodes, a) + Listed(nodes, b)
  {
    if a == [] {
      assert a + b == b;
    } else {
      assert (a + b)[1..] == a[1..] + b;
      ListedConcat(nodes, a[1..], b);
    }
  }

  lemma ListedNone(nodes: map<Id, Node>)
    ensures Listed(nodes, []) == []
  {
  }

  lemma ListedOne(nodes: map<Id, Node>, id: Id)
    ensures Listed(nodes, [id]) == if id in nodes then [nodes[id]] else []
  {
    assert [id][1..] == [];
  }

  /** What `getattr` finds under a name that is no content or metadata key; `members` are the other attributes of a
      node object, none of which equals a text, a number, a boolean or None. */
  predicate TopLevelIs(n: Node, key: string, value: Value, members: set<string>) {
    if key == "id" then SameValue(Str(n.id), value)
    else if key == "type" then SameValue(Str(TypeName(n.kind)), value)
    else if key in {"content", "metadata", "created_at", "updated_at"} + members then false
    else value.Null?
  }

  predicate Passes(n: Node, key: string, value: Value, members: set<string>) {
    if "content." <= key then SameValue(Lookup(n.content, AfterPrefix("content.", key)), value)
    else if "metadata." <= key then SameValue(Lookup(n.metadata, AfterPrefix("metadata.", key)), value)
    else TopLevelIs(n, key, value, members)
  }

  function PassingAll(filters: seq<(string, Value)>, members: set<string>): Node -> bool {
    (n: Node) => forall f | f in filters :: Passes(n, f.0, f.1, members)
  }

  lemma {:induction false} CountUnlinked(ls: seq<Link>, s: Id, t: Id, kind: Option<LinkType>)
    ensures |ls| - |Filter(ls, Sparing(s, t, kind))|
         == |Between(ls, s, t)| - |Between(Filter(ls, Sparing(s, t, kind)), s, t)|
    ensures kind.None? ==> Between(Filter(ls, Sparing(s, t, kind)), s, t) == []
  {
    if ls != [] {
      CountUnlinked(ls[1..], s, t, kind);
      var kept := Filter(ls[1..], Sparing(s, t, kind));
      assert Sparing(s, t, kind)(ls[0]) ==> ([ls[0]] + kept)[1..] == kept;
    }
  }

  function NotTo(t: Id, kind: Option<LinkType>): Link -> bool {
    (l: Link) => !(l.target == t && (kind.None? || l.kind == kind.value))
  }

  function NotFrom(s: Id, kind: Option<LinkType>): Link -> bool {
    (l: Link) => !(l.source == s && (kind.None? || l.kind == kind.value))
  }

  /** In the list of one end, testing the other end is enough. */
  lemma PairDropped(v: View, s: Id, t: Id, kind: Option<LinkType>)
    requires Consistent(v)
    ensures Filter(At(v.out, s), NotTo(t, kind)) == Filter(At(v.out, s), Sparing(s, t, kind))
    ensures Filter(At(v.inc, t), NotFrom(s, kind)) == Filter(At(v.inc, t), Sparing(s, t, kind))
  {
    FilterAgree(At(v.out, s), NotTo(t, kind), Sparing(s, t, kind));
    FilterAgree(At(v.inc, t), NotFrom(s, kind), Sparing(s, t, kind));
  }

  function Pruned(m: Adjacency, keep: Link -> bool): Adjacency {
    map k | k in m :: Filter(m[k], keep)
  }

  /** The loop that filters every list of a link index. */
  method Prune(m: Adjacency, keep: Link -> bool) returns (r: Adjacency)
    ensures r == Pruned(m, keep)
  {
    r := m;
    var todo := m.Keys;
    while todo != {}
      invariant todo <= m.Keys == r.Keys
      invariant forall k | k in m :: r[k] == if k in todo then m[k] else Filter(m[k], keep)
    {
      var k :| k in todo;
      r := r[k := Filter(r[k], keep)];
      todo := todo - {k};
    }
  }

  lemma DetachIs(m: Adjacency, id: Id, keep: Link -> bool)
    requires forall k | k in m && k != id :: forall l | l in m[k] :: keep(l) == Avoiding(id)(l)
    ensures Pruned(m - {id}, keep) == Detach(m, id)
  {
    forall k | k in m && k != id ensures Filter(m[k], keep) == Filter(m[k], Avoiding(id)) {
      FilterAgree(m[k], keep, Avoiding(id));
    }
  }

  function TargetsOther(id: Id): Link -> bool {
    (l: Link) => l.target != id
  }

  function SourcesOther(id: Id): Link -> bool {
    (l: Link) => l.source != id
  }

  /** Under the index invariant, dropping the lists of id and filtering the others by their far
      end detaches id altogether. */
  lemma TakenOut(v: View, id: Id)
    requires Consistent(v) && id in v.nodes
    ensures Consistent(Remove(v, id))
    ensures Remove(v, id) == View(v.nodes - {id}, Pruned(v.out - {id}, TargetsOther(id)),
                                  Pruned(v.inc - {id}, SourcesOther(id)),
                                  v.index[v.nodes[id].kind := Ids(v, v.nodes[id].kind) - {id}])
  {
    RemoveConsistent(v, id);
    DetachIs(v.out, id, TargetsOther(id));
    DetachIs(v.inc, id, SourcesOther(id));
  }

  /** w is v without the linkless nodes `gone`. */
  ghost predicate Compacted(v: View, w: View, gone: set<Id>) {
    && Consistent(w) && SameLinks(v, w) && w.nodes == v.nodes - gone
    && (IndexExact(v) ==> IndexExact(w))
  }

  lemma CompactStep(v: View, w: View, gone: set<Id>, id: Id)
    requires Compacted(v, w, gone) && id in v.nodes - gone && At(v.out, id) == [] && At(v.inc, id) == []
    ensures id in w.nodes && Compacted(v, Remove(w, id), gone + {id})
  {
    RemoveConsistent(w, id);
    if IndexExact(v) { RemoveIndexExact(w, id); }
    hide Consistent, IndexExact;
    assert At(w.out, id) == At(v.out, id) && At(w.inc, id) == At(v.inc, id);
    RemoveIsolated(w, id);
    var u := Remove(w, id);
    forall k ensures At(v.out, k) == At(u.out, k) && At(v.inc, k) == At(u.inc, k) {
      assert At(v.out, k) == At(w.out, k) && At(v.inc, k) == At(w.inc, k);
    }
  }

  predicate IsExperience(n: Neighbor) {
    n.node.kind == Experience
  }

  ghost predicate IsPathTo(v: View, x: Id, n: Neighbor, p: PathResult) {
    n.node.kind == Experience && p.found && p.length == n.depth && ShortestPath(v, x, n.node.id, p)
  }

  ghost predicate Matched(v: View, x: Id, ns: seq<Neighbor>, ps: seq<PathResult>) {
    |ps| == |ns| && forall i :: 0 <= i < |ps| ==> IsPathTo(v, x, ns[i], ps[i])
  }

  ghost predicate PathsAmong(v: View, x: Id, ns: seq<Neighbor>, ps: seq<PathResult>) {
    forall j :: 0 <= j < |ps| ==> exists i :: 0 <= i < |ns| && IsPathTo(v, x, ns[i], ps[j])
  }

  lemma NoPaths(v: View, x: Id)
    ensures forall ns :: PathsAmong(v, x, ns, []) && Matched(v, x, Filter(ns[..0], IsExperience), [])
  {
  }

  lemma AddPath(v: View, x: Id, ns: seq<Neighbor>, i: nat, ps: seq<PathResult>, p: PathResult)
    requires i < |ns| && IsPathTo(v, x, ns[i], p) && PathsAmong(v, x, ns, ps)
    ensures PathsAmong(v, x, ns, ps + [p])
    ensures Matched(v, x, Filter(ns[..i], IsExperience), ps) ==>
            Matched(v, x, Filter(ns[..i + 1], IsExperience), ps + [p])
  {
    hide ShortestPath;
    assert ns[..i + 1] == ns[..i] + [ns[i]];
    FilterConcat(ns[..i], [ns[i]], IsExperience);
    forall j | 0 <= j < |ps + [p]| ensures exists k :: 0 <= k < |ns| && IsPathTo(v, x, ns[k], (ps + [p])[j]) {
      if j < |ps| { assert (ps + [p])[j] == ps[j]; }
    }
  }

  lemma SkipNeighbor(ns: seq<Neighbor>, i: nat)
    requires i < |ns| && !IsExperience(ns[i])
    ensures Filter(ns[..i + 1], IsExperience) == Filter(ns[..i], IsExperience)
  {
    assert ns[..i + 1] == ns[..i] + [ns[i]];
    FilterConcat(ns[..i], [ns[i]], IsExperience);
  }

  /** The path to a listed neighbour has that neighbour's depth, and is found when the ball fits. */
  lemma {:induction false} ExactNeighbor(v: View, x: Id, d: int, ns: seq<Neighbor>, i: nat, p: PathResult)
    requires ExactBall(v, x, d, ns) && i < |ns| && ns[i].node.kind == Experience
    requires p.found ==> ShortestPath(v, x, ns[i].node.id, p)
    requires !p.found && ns[i].node.id in v.nodes ==> OnlyInLargeBall(v, x, ns[i].node.id)
    ensures p.found ==> IsPathTo(v, x, ns[i], p)
    ensures |Ball(v, x, d)| <= 10001 ==> p.found
  {
    hide Ball, StepsNearer;
    var n := ns[i];
    if p.found {
      hide Leads;
      SphereWithinBall(v, x, n.node.id, p.length, n.depth);
      SphereWithinBall(v, x, n.node.id, n.depth, p.length);
    } else {
      BallMonotone(v, x, n.depth, d);
      SubsetSize(Ball(v, x, n.depth), Ball(v, x, d));
    }
  }

  lemma VisitedIsFound(v: View, s: Id, order: seq<Entry>, visited: set<Id>, c: nat, id: Id)
    requires Frontier(v, s, order, visited, c)
    ensures id in visited <==> id in GraphSweep.Ids(order)
  {
    hide Ball;
    GraphSweep.SeenIsIds(order, id);
  }

  lemma StartIsMet(v: View, s: Id)
    ensures GraphSweep.MetInTime(v, s, s)
  {
  }

  lemma StartIsSwept(v: View, s: Id)
    ensures GraphSweep.Ids([Entry(s, 0)]) == GraphSweep.Sweep(v, s, 0)
  {
  }

  /** Between two steps of `path` its bookkeeping is the sweep's. */
  lemma TracingSwept(v: View, s: Id, t: Id, order: seq<Entry>, visited: set<Id>, h: nat, queue: seq<(Id, Trail)>)
    requires Tracing(v, s, t, order, visited, h, queue)
    ensures |GraphSweep.Ids(order)| == |order| == |visited| && t !in GraphSweep.Ids(order) && h + |queue| == |order|
    ensures forall i :: 0 <= i < |order| ==> GraphSweep.Ids(order)[i] == order[i].id
  {
    hide OnSphere, AllScanned, Leads;
    GraphSweep.DistinctIds(v, s, order);
    GraphSweep.SeenIsIds(order, t);
  }

  method PassesFilters(n: Node, filters: seq<(string, Value)>, members: set<string>) returns (pass: bool)
    ensures pass == PassingAll(filters, members)(n)
  {
    hide Passes;
    for j := 0 to |filters|
      invariant forall f | f in filters[..j] :: Passes(n, f.0, f.1, members)
    {
      if !Passes(n, filters[j].0, filters[j].1, members) { return false; }
    }
    assert filters[..|filters|] == filters;
    pass := true;
  }

  /** The filtering loop of `find_nodes`. */
  method Filtered(candidates: seq<Node>, filters: seq<(string, Value)>, members: set<string>) returns (found: seq<Node>)
    ensures found == Filter(candidates, PassingAll(filters, members))
  {
    hide PassingAll;
    found := [];
    var p := PassingAll(filters, members);
    for i := 0 to |candidates|
      invariant found == Filter(candidates[..i], p)
    {
      assert candidates[..i + 1] == candidates[..i] + [candidates[i]];
      FilterConcat(candidates[..i], [candidates[i]], p);
      FilterOne(candidates[i], p);
      var pass := PassesFilters(candidates[i], filters, members);
      if pass { found := found + [candidates[i]]; }
    }
    assert candidates[..|candidates|] == candidates;
  }

  lemma NoFilterPasses(members: set<string>)
    ensures forall n :: PassingAll([], members)(n)
  {
  }

  lemma FilterOne<T>(x: T, p: T -> bool)
    ensures Filter([x], p) == if p(x) then [x] else []
  {
    assert [x][1..] == [];
  }

  class MultiLinkGraph {
    var nodes: map<Id, Node>
    var outgoing: Adjacency
    var incoming: Adjacency
    var typeIndex: map<NodeType, set<Id>>

    ghost function State(): View
      reads this
    {
      View(nodes, outgoing, incoming, typeIndex)
    }

    ghost predicate Valid()
      reads this
    {
      Consistent(State())
    }

    constructor ()
      ensures Valid() && State() == EMPTY && IndexExact(State())
    {
      nodes, outgoing, incoming, typeIndex := map[], map[], map[], map[];
    }

    method Add(node: Node, now: Time) returns (id: Id)
      requires Valid()
      modifies this
      ensures Valid() && id == node.id
      ensures State() == AddNode(old(State()), node, now)
      ensures nodes == old(nodes)[node.id := Node(node.id, node.kind, node.content, node.metadata,
                if node.id in old(nodes) then old(nodes)[node.id].createdAt else node.createdAt, now)]
      ensures outgoing == old(outgoing) && incoming == old(incoming)
    {
      AddNodeConsistent(State(), node, now);
      var stored := node;
      if node.id in nodes {
        stored := stored.(createdAt := nodes[node.id].createdAt);
      }
      stored := stored.(updatedAt := now);
      nodes := nodes[node.id := stored];
      typeIndex := typeIndex[node.kind := (if node.kind in typeIndex then typeIndex[node.kind] else {}) + {node.id}];
      id := node.id;
    }

    method LinkNodes(source: Id, target: Id, kind: LinkType, weight: real, context: map<string, Value>,
                     createdBy: string, now: Time)
      returns (ok: bool)
      requires Valid()
      modifies this
      ensures Valid()
      ensures ok <==> source in old(nodes) && target in old(nodes)
      ensures State() == if ok then AddLink(old(State()), Link(source, target, kind, weight, context, now, createdBy))
                         else old(State())
      ensures ok ==>
                var l := Link(source, target, kind, weight, context, now, createdBy);
                && At(outgoing, source) == At(old(outgoing), source) + [l]
                && At(incoming, target) == At(old(incoming), target) + [l]
                && nodes == old(nodes) && typeIndex == old(typeIndex)
    {
      if source !in nodes { return false; }
      if target !in nodes { return false; }
      var link := Link(source, target, kind, weight, context, now, createdBy);
      AddLinkConsistent(State(), link);
      outgoing := outgoing[source := At(outgoing, source) + [link]];
      incoming := incoming[target := At(incoming, target) + [link]];
      ok := true;
    }

    method DeleteLinks(source: Id, target: Id, kind: Option<LinkType>) returns (removed: nat)
      requires Valid()
      modifies this
      ensures Valid() && State() == Unlink(old(State()), source, target, kind)
      ensures removed == |Between(At(old(outgoing), source), source, target)|
                       - |Between(At(outgoing, source), source, target)|
      ensures kind.None? ==> Between(At(outgoing, source), source, target) == []
      ensures forall l :: l in At(outgoing, source) <==>
                l in At(old(outgoing), source) && !(l.target == target && (kind.None? || l.kind == kind.value))
      ensures forall u :: u != source ==> At(outgoing, u) == At(old(outgoing), u)
      ensures removed == |At(old(outgoing), source)| - |At(outgoing, source)|
      ensures nodes == old(nodes) && typeIndex == old(typeIndex)
    {
      hide Consistent, Between, Sparing;
      var before := |At(outgoing, source)|;
      UnlinkConsistent(State(), source, target, kind);
      CountUnlinked(At(outgoing, source), source, target, kind);
      PairDropped(State(), source, target, kind);
      outgoing := outgoing[source := Filter(At(outgoing, source), NotTo(target, kind))];
      incoming := incoming[target := Filter(At(incoming, target), NotFrom(source, kind))];
      removed := before - |At(outgoing, source)|;
    }

    /** Shared by `delete_node` and `archive_node`: take a stored node out of all four indexes. */
    method TakeOut(id: Id)
      requires Valid() && id in nodes
      modifies this
      ensures Valid() && State() == Remove(old(State()), id)
    {
      hide Consistent, Remove, Pruned, TargetsOther, SourcesOther;
      TakenOut(State(), id);
      var node := nodes[id];
      nodes := nodes - {id};
      typeIndex := typeIndex[node.kind := (if node.kind in typeIndex then typeIndex[node.kind] else {}) - {id}];
      outgoing := Prune(outgoing - {id}, TargetsOther(id));
      incoming := Prune(incoming - {id}, SourcesOther(id));
    }

    method DeleteNode(id: Id) returns (ok: bool)
      requires Valid()
      modifies this
      ensures Valid() && (ok <==> id in old(nodes))
      ensures State() == if ok then Remove(old(State()), id) else old(State())
      ensures nodes == old(nodes) - {id}
    {
      if id !in nodes { return false; }
      TakeOut(id);
      ok := true;
    }

    /** `stored` says whether writing the archive file succeeds. */
    method ArchiveNode(id: Id, stored: bool) returns (ok: bool)
      requires Valid()
      modifies this
      ensures Valid() && (ok <==> id in old(nodes) && stored)
      ensures State() == if ok then Remove(old(State()), id) else old(State())
    {
      if id !in nodes { return false; }
      if !stored { return false; }
      TakeOut(id);
      ok := true;
    }

    method FindOrphanNodes(now: Time, windowDays: int, exclude: seq<NodeType>) returns (orphans: seq<Node>)
      requires Valid()
      ensures forall i :: 0 <= i < |orphans| ==> orphans[i].id in nodes && nodes[orphans[i].id] == orphans[i]
      ensures forall i, j :: 0 <= i < j < |orphans| ==> orphans[i].id != orphans[j].id
      ensures forall id :: Orphan(State(), id, now, windowDays, exclude)
                <==> exists i :: 0 <= i < |orphans| && orphans[i].id == id
      ensures forall i :: 0 <= i < |orphans| ==>
                && orphans[i].kind !in exclude && orphans[i].createdAt <= now - windowDays * 86_400_000_000
                && At(outgoing, orphans[i].id) == [] && At(incoming, orphans[i].id) == []
    {
      var cutoff := now - windowDays * DAY;
      orphans := [];
      var todo := nodes.Keys;
      while todo != {}
        invariant todo <= nodes.Keys
        invariant forall i :: 0 <= i < |orphans| ==> orphans[i].id in nodes.Keys - todo && nodes[orphans[i].id] == orphans[i]
        invariant forall i, j :: 0 <= i < j < |orphans| ==> orphans[i].id != orphans[j].id
        invariant forall id :: Orphan(State(), id, now, windowDays, exclude) && id !in todo
                    <==> exists i :: 0 <= i < |orphans| && orphans[i].id == id
      {
        var id :| id in todo;
        todo := todo - {id};
        var node := nodes[id];
        if node.kind in exclude { continue; }
        if node.createdAt > cutoff { continue; }
        if At(outgoing, node.id) != [] || At(incoming, node.id) != [] { continue; }
        ghost var before := orphans;
        orphans := orphans + [node];
        assert orphans[|before|].id == id;
        assert forall i :: 0 <= i < |before| ==> orphans[i] == before[i];
      }
    }

    /** Archives the linkless nodes older than both cutoffs. `stored(id)` says whether writing that
        node's archive file succeeds; `later` is the second clock reading. */
    method Compact(now: Time, later: Time, olderDays: int, windowDays: int, exclude: seq<NodeType>, stored: Id -> bool)
      returns (count: nat)
      requires Valid()
      modifies this
      ensures Valid() && count == |Stale(old(State()), now, later, olderDays, windowDays, exclude, stored)|
      ensures Compacted(old(State()), State(), Stale(old(State()), now, later, olderDays, windowDays, exclude, stored))
    {
      var orphans := FindOrphanNodes(now, windowDays, exclude);
      ghost var stale := Stale(State(), now, later, olderDays, windowDays, exclude, stored);
      if orphans == [] {
        assert stale == {};
        return 0;
      }
      StaleAmongOrphans(State(), orphans, now, later, olderDays, windowDays, exclude, stored);
      hide Stale, Consistent, Compacted, Archived, Orphan;
      count := ArchiveEach(Filter(orphans, Older(later - olderDays * DAY)), stored);
    }

    method ArchiveEach(list: seq<Node>, stored: Id -> bool) returns (count: nat)
      requires Valid()
      requires forall i :: 0 <= i < |list| ==> At(outgoing, list[i].id) == [] && At(incoming, list[i].id) == []
      requires forall i :: 0 <= i < |list| ==> list[i].id in nodes
      requires forall i, j :: 0 <= i < j < |list| ==> list[i].id != list[j].id
      modifies this
      ensures Valid() && count == |Archived(list, stored)|
      ensures Compacted(old(State()), State(), Archived(list, stored))
    {
      hide Compacted, Consistent, Archived, Remove;
      count := 0;
      ghost var v: View, gone: set<Id> := State(), {};
      NothingArchived(v, list, stored);
      for i := 0 to |list|
        invariant Valid() && Compacted(v, State(), gone) && count == |gone| && gone == Archived(list[..i], stored)
      {
        var node := list[i];
        ArchivedStep(list, i, stored);
        CompactStep(v, State(), gone, node.id);
        var ok := ArchiveNode(node.id, stored(node.id));
        if ok {
          count := count + 1;
          gone := gone + {node.id};
        }
      }
      assert list[..|list|] == list;
    }

    /** `listing` is the order in which Python happens to iterate the type's id set, or all nodes. */
    method FindNodes(kind: Option<NodeType>, filters: seq<(string, Value)>, listing: seq<Id>, members: set<string>)
      returns (found: seq<Node>)
      requires Valid() && Distinct(listing)
      requires forall id :: id in listing <==> if kind.Some? then id in Ids(State(), kind.value) else id in nodes
      ensures found == Filter(Listed(nodes, listing), PassingAll(filters, members))
      ensures filters == [] ==> found == Listed(nodes, listing)
    {
      hide Listed, PassingAll, Consistent;
      var candidates := [];
      ListedNone(nodes);
      assert listing[..0] == [];
      for i := 0 to |listing|
        invariant candidates == Listed(nodes, listing[..i])
      {
        assert listing[..i + 1] == listing[..i] + [listing[i]];
        ListedConcat(nodes, listing[..i], [listing[i]]);
        ListedOne(nodes, listing[i]);
        if listing[i] in nodes {
          candidates := candidates + [nodes[listing[i]]];
        }
      }
      assert listing[..|listing|] == listing;
      if filters == [] {
        NoFilterPasses(members);
        FilterAll(candidates, PassingAll([], members));
        return candidates;
      }
      found := Filtered(candidates, filters, members);
    }

    /** One of the two inner loops of `neighbors`: follow the outgoing (forward) or incoming links
        of the node at queue position h - 1, found at depth c. */
    method ScanLinks(links: seq<Link>, forward: bool, current: Id, c: nat, limit: int, x: Id,
                     visited0: set<Id>, queue0: seq<(Id, nat)>, results0: seq<Neighbor>,
                     ghost order0: seq<Entry>, ghost h: nat)
      returns (visited: set<Id>, queue: seq<(Id, nat)>, results: seq<Neighbor>, ghost order: seq<Entry>)
      requires Valid() && current in nodes && c < limit
      requires links == At(if forward then outgoing else incoming, current)
      requires Found(State(), x, order0, results0) && Waiting(order0, h, queue0, limit)
      requires Frontier(State(), x, order0, visited0, c) && OnSphere(State(), x, current, c)
      ensures order0 <= order && Found(State(), x, order, results) && Waiting(order, h, queue, limit)
      ensures Frontier(State(), x, order, visited, c) && visited0 <= visited
      ensures forall l | l in links :: FarEnd(l, forward) in visited
      ensures visited == visited0 ==> queue == queue0
    {
      hide Ball, Consistent, OnSphere, Joins, FarEnd, Found, Waiting, Frontier;
      visited, queue, results, order := visited0, queue0, results0, order0;
      ghost var v := State();
      for k := 0 to |links|
        invariant order0 <= order && Found(v, x, order, results) && Waiting(order, h, queue, limit)
        invariant Frontier(v, x, order, visited, c) && visited0 <= visited
        invariant forall j :: 0 <= j < k ==> FarEnd(links[j], forward) in visited
        invariant visited == visited0 ==> queue == queue0
      {
        var link := links[k];
        var end := FarEnd(link, forward);
        LinkEnds(v, current, link, forward);
        if end !in visited {
          AddFound(v, x, order, results, visited, current, c, link, end);
          AddWaiting(v, x, order, results, visited, c, h, queue, limit, end);
          order := order + [Entry(end, c + 1)];
          visited := visited + {end};
          if end in nodes {
            results := results + [Neighbor(nodes[end], link, c + 1)];
          }
          if c + 1 < limit {
            queue := queue + [(end, c + 1)];
          }
        }
      }
    }

    /** The body of the outer loop of `neighbors`. */
    method Expand(current: Id, c: nat, limit: int, x: Id, visited0: set<Id>, queue0: seq<(Id, nat)>,
                  results0: seq<Neighbor>, ghost order0: seq<Entry>, ghost h: nat)
      returns (visited: set<Id>, queue: seq<(Id, nat)>, results: seq<Neighbor>, ghost order: seq<Entry>)
      requires Valid() && current in nodes && c < limit && h < |order0| && order0[h] == Entry(current, c)
      requires Found(State(), x, order0, results0) && Waiting(order0, h + 1, queue0, limit)
      requires ScannedUpTo(State(), order0, h, limit)
      requires Frontier(State(), x, order0, visited0, c) && OnSphere(State(), x, current, c)
      ensures Found(State(), x, order, results) && Searching(State(), x, order, visited, h + 1, queue, limit)
      ensures (visited == visited0 && queue == queue0) || Unseen(State(), visited) < Unseen(State(), visited0)
    {
      hide Ball, Found, Frontier, Unseen, Searching, Waiting, ScannedUpTo, OnSphere, Consistent;
      visited, queue, results, order :=
        ScanLinks(At(outgoing, current), true, current, c, limit, x, visited0, queue0, results0, order0, h + 1);
      ghost var between := visited;
      visited, queue, results, order :=
        ScanLinks(At(incoming, current), false, current, c, limit, x, visited, queue, results, order, h + 1);
      HeadDone(State(), x, order0, order, results, visited, h, queue, limit, current, c);
      if visited != visited0 {
        FewerUnseen(State(), visited0, visited);
      }
    }

    method Neighbors(id: Id, depth: int, maxDepth: int) returns (results: seq<Neighbor>)
      requires Valid()
      ensures depth > maxDepth || id !in nodes ==> results == []
      ensures depth <= maxDepth && id in nodes ==> ExactBall(State(), id, depth, results)
    {
      results := [];
      if depth > maxDepth { return; }
      if id !in nodes { return; }
      var visited := {id};
      var queue: seq<(Id, nat)> := [(id, 0)];
      ghost var v, order, h := State(), [Entry(id, 0)], 0;
      StartSearching(v, id, depth);
      hide Ball, Found, Frontier, Unseen, Searching, Waiting, ScannedUpTo, OnSphere, ExactBall, Consistent;
      while queue != []
        invariant Found(v, id, order, results) && Searching(v, id, order, visited, h, queue, depth)
        decreases Unseen(v, visited), |queue|
      {
        TakeHead(v, id, order, results, visited, h, queue, depth);
        var (current, c) := queue[0];
        queue := queue[1..];
        if c < depth {
          visited, queue, results, order := Expand(current, c, depth, id, visited, queue, results, order, h);
        }
        h := h + 1;
      }
      ExhaustedIsExact(v, id, depth, order, visited, h, results);
    }

    /** One of the two inner loops of `path`. */
    method ScanForTarget(links: seq<Link>, forward: bool, current: Id, trail: Trail, s: Id, t: Id,
                         visited0: set<Id>, queue0: seq<(Id, Trail)>, ghost order0: seq<Entry>, ghost h: nat)
      returns (hit: Option<PathResult>, visited: set<Id>, queue: seq<(Id, Trail)>, ghost order: seq<Entry>)
      requires Valid() && current in nodes && t in nodes && t !in visited0
      requires links == At(if forward then outgoing else incoming, current)
      requires Layered(State(), s, order0) && Frontier(State(), s, order0, visited0, |trail|)
      requires Trails(State(), s, order0, h, queue0)
      requires OnSphere(State(), s, current, |trail|) && Leads(State(), s, current, trail)
      ensures hit.Some? ==> hit.value.found && hit.value.length == |trail| + 1 && ShortestPath(State(), s, t, hit.value)
      ensures hit.None? ==>
        && order0 <= order && Layered(State(), s, order) && Frontier(State(), s, order, visited, |trail|)
        && Trails(State(), s, order, h, queue) && t !in visited && visited0 <= visited
        && (forall l | l in links :: FarEnd(l, forward) in visited)
        && (visited == visited0 ==> queue == queue0)
      ensures var followed := GraphSweep.Followed(GraphSweep.Ids(order0), links, forward);
        if hit.Some? then t in followed else GraphSweep.Ids(order) == followed
    {
      hide Ball, Consistent, OnSphere, Joins, FarEnd, Layered, Trails, Frontier, Leads, ShortestPath, GraphSweep.Ids;
      hit, visited, queue, order := None, visited0, queue0, order0;
      ghost var v := State();
      assert links[0..] == links;
      for k := 0 to |links|
        invariant hit.None? && order0 <= order && Layered(v, s, order) && Frontier(v, s, order, visited, |trail|)
        invariant Trails(v, s, order, h, queue) && t !in visited && visited0 <= visited
        invariant forall j :: 0 <= j < k ==> FarEnd(links[j], forward) in visited
        invariant visited == visited0 ==> queue == queue0
        invariant GraphSweep.Followed(GraphSweep.Ids(order0), links, forward)
               == GraphSweep.Followed(GraphSweep.Ids(order), links[k..], forward)
      {
        assert links[k..][1..] == links[k + 1..];
        var link := links[k];
        var end := FarEnd(link, forward);
        LinkEnds(v, current, link, forward);
        if end == t {
          TargetHit(v, s, t, order, visited, current, trail, link);
          GraphSweep.TargetFollowed(GraphSweep.Ids(order), links[k..], forward, t);
          hit := Some(PathResult(true, trail + [(nodes[current], link), (nodes[t], link)], |trail| + 1));
          return;
        }
        VisitedIsFound(v, s, order, visited, |trail|, end);
        if end !in visited {
          GraphSweep.IdsGrow(order, Entry(end, |trail| + 1));
          AddTrail(v, s, order, visited, h, queue, current, trail, link, end);
          order := order + [Entry(end, |trail| + 1)];
          visited := visited + {end};
          queue := queue + [(end, trail + [(nodes[current], link)])];
        }
      }
    }

    /** The body of the outer loop of `path`, up to the cut-off test. */
    method Trace(current: Id, trail: Trail, s: Id, t: Id, visited0: set<Id>, queue0: seq<(Id, Trail)>,
                 ghost order0: seq<Entry>, ghost h: nat)
      returns (hit: Option<PathResult>, visited: set<Id>, queue: seq<(Id, Trail)>, ghost order: seq<Entry>)
      requires Valid() && current in nodes && t in nodes && t !in visited0
      requires h < |order0| && order0[h] == Entry(current, |trail|) && AllScanned(State(), order0, h)
      requires Layered(State(), s, order0) && Frontier(State(), s, order0, visited0, |trail|)
      requires Trails(State(), s, order0, h + 1, queue0)
      requires OnSphere(State(), s, current, |trail|) && Leads(State(), s, current, trail)
      ensures hit.Some? ==> hit.value.found && hit.value.length == |trail| + 1 && ShortestPath(State(), s, t, hit.value)
      ensures hit.None? ==>
        && Tracing(State(), s, t, order, visited, h + 1, queue)
        && (|visited| > VISITED_LIMIT ==> OnlyInLargeBall(State(), s, t))
        && ((visited == visited0 && queue == queue0) || Unseen(State(), visited) < Unseen(State(), visited0))
      ensures var expanded := GraphSweep.Expanded(State(), GraphSweep.Ids(order0), current);
        if hit.Some? then t in expanded else GraphSweep.Ids(order) == expanded
    {
      hide Ball, Consistent, OnSphere, Layered, Trails, Frontier, Leads, ShortestPath, Tracing, AllScanned, Unseen,
           OnlyInLargeBall, GraphSweep.Ids;
      GraphSweep.ExpandedKeeps(State(), GraphSweep.Ids(order0), current);
      hit, visited, queue, order :=
        ScanForTarget(At(outgoing, current), true, current, trail, s, t, visited0, queue0, order0, h + 1);
      if hit.Some? { return; }
      hit, visited, queue, order :=
        ScanForTarget(At(incoming, current), false, current, trail, s, t, visited, queue, order, h + 1);
      if hit.Some? { return; }
      TrailDone(State(), s, t, order0, order, visited, h, queue, current, |trail|);
      if |visited| > VISITED_LIMIT {
        CutOffIsLarge(State(), s, t, order, visited, |trail|);
      }
      if visited != visited0 {
        FewerUnseen(State(), visited0, visited);
      }
    }

    method Path(s: Id, t: Id) returns (r: PathResult)
      requires Valid()
      ensures PathAnswer(State(), s, t, r)
      ensures r.found <==> s in nodes && t in nodes && GraphSweep.MetInTime(State(), s, t)
    {
      hide Ball, Consistent, Leads, Tracing, AllScanned, Unseen, Trails, Layered, Frontier, GraphSweep.Ids,
           GraphSweep.MetInTime, GraphSweep.Expanded;
      r := PathResult(false, [], 0);
      if s !in nodes || t !in nodes { return; }
      if s == t {
        BallOfRadiusZero(State(), s);
        StartIsMet(State(), s);
        return PathResult(true, [], 0);
      }
      var visited := {s};
      var queue: seq<(Id, Trail)> := [(s, [])];
      ghost var v, order, h := State(), [Entry(s, 0)], 0;
      StartTracing(v, s, t);
      StartIsSwept(v, s);
      hide OnSphere, ShortestPath, OnlyInLargeBall;
      while queue != []
        invariant Tracing(v, s, t, order, visited, h, queue) && |visited| <= VISITED_LIMIT
        invariant GraphSweep.Ids(order) == GraphSweep.Sweep(v, s, h)
        decreases Unseen(v, visited), |queue|
      {
        TakeTrail(v, s, t, order, visited, h, queue);
        TracingSwept(v, s, t, order, visited, h, queue);
        var (current, trail) := queue[0];
        queue := queue[1..];
        FrontierBall(v, s, order, visited, |trail|);
        var hit;
        hit, visited, queue, order := Trace(current, trail, s, t, visited, queue, order, h);
        if hit.Some? {
          GraphSweep.HitIsInTime(v, s, t, h);
          return hit.value;
        }
        h := h + 1;
        TracingSwept(v, s, t, order, visited, h, queue);
        if |visited| > VISITED_LIMIT {
          GraphSweep.CutOffIsTooLate(v, s, t, h);
          return;
        }
      }
      TracingSwept(v, s, t, order, visited, h, queue);
      GraphSweep.ExhaustedIsNeverMet(v, s, t, h);
      Exhausted(v, s, t, order, visited, h);
    }

    /** `related_with_context`: the neighbours with the default `max_depth` of 3, and a path to each
        neighbouring experience node. */
    method RelatedWithContext(id: Id, depth: int) returns (neighbors: seq<Neighbor>, paths: seq<PathResult>)
      requires Valid()
      ensures id !in nodes || depth > 3 ==> neighbors == [] && paths == []
      ensures id in nodes && depth <= 3 ==> ExactBall(State(), id, depth, neighbors)
      ensures PathsAmong(State(), id, neighbors, paths)
      ensures 0 <= depth && |Ball(State(), id, depth)| <= 10001 ==>
        Matched(State(), id, Filter(neighbors, IsExperience), paths)
    {
      hide Ball, Consistent, OnlyInLargeBall, ShortestPath, Filter, Matched, PathsAmong, IsPathTo, ExactBall;
      neighbors, paths := [], [];
      NoPaths(State(), id);
      if id !in nodes { return; }
      neighbors := Neighbors(id, depth, 3);
      ghost var v := State();
      ghost var small := 0 <= depth && |Ball(v, id, depth)| <= VISITED_LIMIT + 1;
      for i := 0 to |neighbors|
        invariant PathsAmong(v, id, neighbors, paths) && |paths| <= i
        invariant small ==> Matched(v, id, Filter(neighbors[..i], IsExperience), paths)
      {
        var n := neighbors[i];
        if n.node.kind == Experience {
          var p := Path(id, n.node.id);
          ExactNeighbor(v, id, depth, neighbors, i, p);
          if p.found {
            AddPath(v, id, neighbors, i, paths, p);
            paths := paths + [p];
          }
        } else {
          SkipNeighbor(neighbors, i);
        }
      }
      assert neighbors[..|neighbors|] == neighbors;
    }
  }
}
