/** Laws of query answers: what WHERE selects, how aggregates and sub-queries relate to it, and what
    ORDER BY and LIMIT do to the rows. */
module DataviewLaws {
  import opened Seqs
  import opened GraphModel
  import opened MemoryGraph
  import opened DataviewSyntax
  import opened DataviewQuery
  import opened DataviewOrder
  import opened DataviewValues

  // ----- WHERE -----

  /** The error a condition raises on every node it is tried on. */
  ghost function Fault(c: Condition, v: View, env: Env): Option<QueryError>
    requires Enumerates(env, v)
  {
    if c.InClause? && Denote(c.subquery, v, env).Err? then Some(Denote(c.subquery, v, env).error) else None
  }

  /** What a faultless condition says of a node, in relational terms. */
  ghost predicate Holds(c: Condition, n: Node, v: View, env: Env)
    requires Enumerates(env, v)
  {
    match c
    case Comparison(f, op, value) => Related(Resolve(n, f.name, env), op, value)
    case InClause(f, sub) => Denote(sub, v, env).Ok? && InRows(Resolve(n, f.name, env), Denote(sub, v, env).value.rows)
    case StepsClause(depth, ref) =>
      Origin(ref, env).Some? && exists d: nat :: d <= depth && AtDistance(v, Origin(ref, env).value, n.id, d)
  }

  ghost function Selects(c: Condition, v: View, env: Env): Node -> bool
    requires Enumerates(env, v)
  {
    (n: Node) => Holds(c, n, v, env)
  }

  lemma {:induction false} BallIsBoundedDistance(v: View, x: Id, y: Id, n: nat)
    ensures y in Ball(v, x, n) <==> exists d: nat :: d <= n && AtDistance(v, x, y, d)
  {
    hide Ball, AtDistance;
    if y in Ball(v, x, n) {
      var d := BallHasSphere(v, x, y, n);
      SphereIsDistance(v, x, y, d);
    }
    if d: nat :| d <= n && AtDistance(v, x, y, d) {
      SphereIsDistance(v, x, y, d);
      BallMonotone(v, x, d, n);
    }
  }

  lemma {:induction false} MatchesMeaning(c: Condition, n: Node, v: View, env: Env)
    requires Enumerates(env, v)
    ensures Matches(c, n, v, env) == if Fault(c, v, env).Some? then Err(Fault(c, v, env).value) else Ok(Holds(c, n, v, env))
  {
    hide Ball, AtDistance, Enumerates, Denote, Compare, Related, Resolve;
    if c.Comparison? { CompareMeans(Resolve(n, c.field.name, env), c.op, c.value); }
    if c.StepsClause? && Origin(c.nodeRef, env).Some? {
      BallIsBoundedDistance(v, Origin(c.nodeRef, env).value, n.id, c.depth);
    }
  }

  /** WHERE is a filter; a faulty condition raises as soon as there is a node to try it on. */
  lemma {:induction false} MatchingIsFilter(c: Condition, ns: seq<Node>, v: View, env: Env)
    requires Enumerates(env, v)
    ensures Matching(c, ns, v, env) ==
            if ns != [] && Fault(c, v, env).Some? then Err(Fault(c, v, env).value)
            else Ok(Filter(ns, Selects(c, v, env)))
  {
    hide Holds, Enumerates, Matches, Fault;
    if ns != [] {
      MatchesMeaning(c, ns[0], v, env);
      MatchingIsFilter(c, ns[1..], v, env);
    }
  }

  /** The listing of a type yields each stored node of that type once. */
  lemma {:induction false} ListedNodes(v: View, listing: seq<Id>)
    requires Keyed(v) && Distinct(listing)
    ensures forall n: Node :: n in Listed(v.nodes, listing) <==> n.id in v.nodes && v.nodes[n.id] == n && n.id in listing
    ensures Distinct(Listed(v.nodes, listing))
  {
    if listing != [] {
      var ids := listing[1..];
      assert forall i, j :: 0 <= i < j < |ids| ==> ids[i] == listing[i + 1] && ids[j] == listing[j + 1];
      ListedNodes(v, ids);
      var rest := Listed(v.nodes, ids);
      assert forall id :: id in listing <==> id == listing[0] || id in ids;
      assert forall k :: 0 <= k < |ids| ==> ids[k] == listing[k + 1] && ids[k] != listing[0];
      if listing[0] in v.nodes {
        var n := v.nodes[listing[0]];
        assert Listed(v.nodes, listing) == [n] + rest;
        assert n !in rest;
        forall i, j | 0 <= i < j < |[n] + rest| ensures ([n] + rest)[i] != ([n] + rest)[j] {
          if i > 0 { assert rest[i - 1] != rest[j - 1]; } else { assert rest[j - 1] in rest; }
        }
      } else {
        assert Listed(v.nodes, listing) == rest;
      }
    }
  }

  /** With an exact type index, the candidates of a query are exactly the nodes of its type that satisfy
      its condition, each once. */
  lemma {:induction false} CandidatesAreTheMatches(s: SelectStmt, v: View, env: Env)
    requires Enumerates(env, v) && Keyed(v) && IndexExact(v) && Candidates(s, v, env).Ok?
    ensures NodeTypeNamed(s.nodeType).Some? && Distinct(Candidates(s, v, env).value)
    ensures forall n: Node :: n in Candidates(s, v, env).value <==>
              (n.id in v.nodes && v.nodes[n.id] == n && n.kind == NodeTypeNamed(s.nodeType).value &&
               (s.where.Some? ==> Holds(s.where.value, n, v, env)))
  {
    var kind := NodeTypeNamed(s.nodeType).value;
    var listing := env.listing[kind];
    ListedNodes(v, listing);
    forall n: Node | n.id in v.nodes && v.nodes[n.id] == n ensures n.id in listing <==> n.kind == kind {
      assert n.id in Ids(v, kind) <==> n.id in v.nodes && v.nodes[n.id].kind == kind;
    }
    if s.where.Some? {
      var ns := Listed(v.nodes, listing);
      MatchingIsFilter(s.where.value, ns, v, env);
      FilterKeepsDistinct(ns, Selects(s.where.value, v, env));
    }
  }

  lemma {:induction false} FilterKeepsDistinct<T(!new)>(s: seq<T>, p: T -> bool)
    requires Distinct(s)
    ensures Distinct(Filter(s, p))
  {
    if s != [] {
      assert forall i, j :: 0 <= i < j < |s[1..]| ==> s[1..][i] == s[i + 1] && s[1..][j] == s[j + 1];
      FilterKeepsDistinct(s[1..], p);
      var rest := Filter(s[1..], p);
      assert forall k :: 0 <= k < |s[1..]| ==> s[1..][k] == s[k + 1] && s[1..][k] != s[0];
      forall i, j | 0 <= i < j < |[s[0]] + rest| ensures ([s[0]] + rest)[i] != ([s[0]] + rest)[j] {
        if i > 0 { assert rest[i - 1] != rest[j - 1]; } else { assert rest[j - 1] in rest; }
      }
    }
  }

  /** `WHERE f op v` selects exactly the nodes of the type whose value of f stands in that relation to v. */
  lemma {:induction false} ComparisonSelects(s: SelectStmt, v: View, env: Env, f: FieldRef, op: CmpOp, value: Value)
    requires Enumerates(env, v) && Keyed(v) && IndexExact(v)
    requires NodeTypeNamed(s.nodeType).Some? && s.where == Some(Comparison(f, op, value))
    ensures Candidates(s, v, env).Ok?
    ensures forall n: Node :: n in Candidates(s, v, env).value <==>
              (n.id in v.nodes && v.nodes[n.id] == n && n.kind == NodeTypeNamed(s.nodeType).value &&
               Related(Resolve(n, f.name, env), op, value))
  {
    var kind := NodeTypeNamed(s.nodeType).value;
    MatchingIsFilter(s.where.value, Listed(v.nodes, env.listing[kind]), v, env);
    hide Related, Resolve;
    CandidatesAreTheMatches(s, v, env);
  }

  /** `WHERE n STEPS FROM x` selects the nodes of the type at undirected distance at most n from x. */
  lemma {:induction false} StepsSelectsTheBall(s: SelectStmt, v: View, env: Env, depth: nat, ref: string)
    requires Enumerates(env, v) && Keyed(v) && IndexExact(v)
    requires NodeTypeNamed(s.nodeType).Some? && s.where == Some(StepsClause(depth, ref))
    ensures Candidates(s, v, env).Ok?
    ensures forall n: Node :: n in Candidates(s, v, env).value <==>
              (n.id in v.nodes && v.nodes[n.id] == n && n.kind == NodeTypeNamed(s.nodeType).value &&
               Origin(ref, env).Some? && exists d: nat :: d <= depth && AtDistance(v, Origin(ref, env).value, n.id, d))
  {
    var kind := NodeTypeNamed(s.nodeType).value;
    MatchingIsFilter(s.where.value, Listed(v.nodes, env.listing[kind]), v, env);
    hide AtDistance, Ball;
    CandidatesAreTheMatches(s, v, env);
  }

  /** The start node of STEPS FROM is at distance 0 from itself, so it is always selected. */
  lemma StartIsSelected(v: View, x: Id)
    ensures AtDistance(v, x, x, 0)
  {
    BallOfRadiusZero(v, x);
    hide AtDistance;
    SphereIsDistance(v, x, x, 0);
  }

  // ----- IN -----

  /** The cells of an answer that IN can match. */
  ghost predicate Offers(rows: seq<Row>, w: Value) {
    w != Null && exists i, k :: 0 <= i < |rows| && k in rows[i] && rows[i][k] == w
  }

  /** `f IN (sub)` is the semi-join with the answer of sub, computed once. */
  lemma {:induction false} InIsSemiJoin(s: SelectStmt, f: FieldRef, sub: SelectStmt, v: View, env: Env)
    requires Enumerates(env, v) && s.where == Some(InClause(f, sub))
    requires Denote(sub, v, env).Ok? && Candidates(s.(where := None), v, env).Ok?
    ensures Candidates(s, v, env).Ok?
    ensures var rows := Denote(sub, v, env).value.rows;
      var all := Candidates(s.(where := None), v, env).value;
      && Candidates(s, v, env).value == Filter(all, Selects(s.where.value, v, env))
      && forall n: Node :: n in Candidates(s, v, env).value <==>
           n in all && exists w :: Offers(rows, w) && Alike(Resolve(n, f.name, env), w)
  {
    var all := Candidates(s.(where := None), v, env).value;
    var rows := Denote(sub, v, env).value.rows;
    MatchingIsFilter(s.where.value, all, v, env);
    forall n ensures Holds(s.where.value, n, v, env) <==> exists w :: Offers(rows, w) && Alike(Resolve(n, f.name, env), w) {
      InRowsOffers(Resolve(n, f.name, env), rows);
    }
  }

  lemma InRowsOffers(actual: Value, rows: seq<Row>)
    ensures InRows(actual, rows) <==> exists w :: Offers(rows, w) && Alike(actual, w)
  {
    if InRows(actual, rows) {
      var i, k :| 0 <= i < |rows| && k in rows[i] && rows[i][k] != Null && SameValue(actual, rows[i][k]);
      LessMeans(actual, rows[i][k]);
      assert Offers(rows, rows[i][k]);
    }
    if w :| Offers(rows, w) && Alike(actual, w) {
      LessMeans(actual, w);
      var i, k :| 0 <= i < |rows| && k in rows[i] && rows[i][k] == w;
    }
  }

  /** An aggregate answer has no rows, so IN over it selects nothing. */
  lemma {:induction false} InOverAggregatesIsEmpty(f: FieldRef, sub: SelectStmt, n: Node, v: View, env: Env)
    requires Enumerates(env, v) && sub.aggregationOnly
    ensures !Holds(InClause(f, sub), n, v, env)
  {
  }

  // ----- aggregates -----

  /** FILTER (WHERE c) on an aggregate is the same as WHERE c on the query, errors included. */
  lemma {:induction false} FilterIsWhere(s: SelectStmt, agg: Agg, f: FieldRef, alias: Option<string>, c: Condition,
                                         v: View, env: Env)
    requires Enumerates(env, v)
    ensures Denote(s.(exprs := [AggExpr(agg, f, alias, Some(c))], where := None, aggregationOnly := true), v, env)
         == Denote(s.(exprs := [AggExpr(agg, f, alias, None)], where := Some(c), aggregationOnly := true), v, env)
  {
    var filtered := s.(exprs := [AggExpr(agg, f, alias, Some(c))], where := None, aggregationOnly := true);
    var whered := s.(exprs := [AggExpr(agg, f, alias, None)], where := Some(c), aggregationOnly := true);
    OneSummary(filtered.exprs[0], filtered, v, env);
    OneSummary(whered.exprs[0], whered, v, env);
    assert Map(filtered.exprs, ColumnName) == Map(whered.exprs, ColumnName);
  }

  lemma {:induction false} OneSummary(e: SelectExpr, s: SelectStmt, v: View, env: Env)
    requires Enumerates(env, v) && e.AggExpr? && s.exprs == [e] && s.aggregationOnly
    ensures Denote(s, v, env) ==
      match Candidates(s, v, env)
      case Err(x) => Err(x)
      case Ok(ns) =>
        match Compute(e, ns, v, env)
        case Err(x) => Err(x)
        case Ok(x) => Ok(QueryResult([], Map(s.exprs, ColumnName), map[ColumnName(e) := x]))
  {
    hide Compute, Candidates, Enumerates;
    if Candidates(s, v, env).Ok? {
      var ns := Candidates(s, v, env).value;
      assert s.exprs[1..] == [];
      if Compute(e, ns, v, env).Ok? {
        var x := Compute(e, ns, v, env).value;
        var acc: map<string, real> := map[];
        assert acc[ColumnName(e) := x] == map[ColumnName(e) := x];
        assert Summaries(acc[ColumnName(e) := x], s.exprs[1..], ns, v, env) == Ok(map[ColumnName(e) := x]);
      }
    }
  }

  /** Counting the nodes with f = value and those with f != value counts them all. */
  lemma {:induction false} EqualAndUnequalCountAll(f: FieldRef, value: Value, ns: seq<Node>, v: View, env: Env)
    requires Enumerates(env, v)
    ensures var star := (c: Option<Condition>) => AggExpr(COUNT, FieldRef("*"), None, c);
      var eq := Compute(star(Some(Comparison(f, EQ, value))), ns, v, env);
      var neq := Compute(star(Some(Comparison(f, NEQ, value))), ns, v, env);
      && eq.Ok? && neq.Ok? && Compute(star(None), ns, v, env) == Ok(eq.value + neq.value)
  {
    var eq, neq := Comparison(f, EQ, value), Comparison(f, NEQ, value);
    MatchingIsFilter(eq, ns, v, env);
    MatchingIsFilter(neq, ns, v, env);
    forall n: Node ensures Selects(eq, v, env)(n) != Selects(neq, v, env)(n) {
      hide Resolve;
    }
    Complements(ns, Selects(eq, v, env), Selects(neq, v, env));
  }

  /** Through all branches, exactly one of `=` and `!=` holds. */
  lemma EqualOrUnequal(actual: Value, value: Value)
    ensures Compare(actual, EQ, value) != Compare(actual, NEQ, value)
  {
  }

  lemma {:induction false} Complements<T>(s: seq<T>, p: T -> bool, q: T -> bool)
    requires forall x | x in s :: p(x) != q(x)
    ensures |Filter(s, p)| + |Filter(s, q)| == |s|
  {
    if s != [] {
      Complements(s[1..], p, q);
    }
  }

  /** `<` and `>=` together cover a value exactly when Python can order it against the literal, and never both;
      likewise `<=` and `>`. */
  lemma LessOrAtLeast(actual: Value, value: Value)
    ensures Compare(actual, LT, value) || Compare(actual, GTE, value) <==> Comparable(actual, value)
    ensures !(Compare(actual, LT, value) && Compare(actual, GTE, value))
    ensures Compare(actual, LTE, value) || Compare(actual, GT, value) <==> Comparable(actual, value)
    ensures !(Compare(actual, LTE, value) && Compare(actual, GT, value))
  {
    if actual.Str? && value.Str? { TextOrder(actual.s, value.s, value.s); }
  }
}
