/** The executor: loops over candidate nodes of a live graph, refining what the query denotes. */
module DataviewExecutor {
  import opened Seqs
  import opened GraphModel
  import opened GraphSearch
  import opened MemoryGraph
  import opened DataviewSyntax
  import opened DataviewQuery

  /** A node that is not stored reaches only itself. */
  lemma {:induction false} StrangerReachesItself(v: View, x: Id, n: nat)
    requires Consistent(v) && x !in v.nodes
    ensures Ball(v, x, n) == {x}
  {
    if n > 0 {
      StrangerReachesItself(v, x, n - 1);
    }
  }

  /** The ids `neighbors` reports, with the start, are the ball. */
  lemma {:induction false} NeighborsFillBall(v: View, x: Id, d: nat, ns: seq<Neighbor>, y: Id)
    requires ExactBall(v, x, d, ns) && y != x
    ensures y in Ball(v, x, d) <==> exists i :: 0 <= i < |ns| && ns[i].node.id == y
  {
    hide Ball, StepsNearer;
    if y in Ball(v, x, d) {
      var k := BallHasSphere(v, x, y, d);
      BallOfRadiusZero(v, x);
    }
    if i :| 0 <= i < |ns| && ns[i].node.id == y {
      BallMonotone(v, x, ns[i].depth, d);
    }
  }

  /** The values a sub-query contributes to IN. */
  method CollectValues(rows: seq<Row>) returns (values: set<Value>)
    ensures forall w :: w in values <==> exists i, k :: 0 <= i < |rows| && k in rows[i] && rows[i][k] == w && w != Null
  {
    values := {};
    for i := 0 to |rows|
      invariant forall w :: w in values <==> exists j, k :: 0 <= j < i && k in rows[j] && rows[j][k] == w && w != Null
    {
      ghost var before := values;
      var keys := rows[i].Keys;
      while keys != {}
        invariant keys <= rows[i].Keys
        invariant forall w :: w in values <==>
          (w in before || exists k :: k in rows[i].Keys - keys && rows[i][k] == w && w != Null)
      {
        var k :| k in keys;
        keys := keys - {k};
        if rows[i][k] != Null {
          values := values + {rows[i][k]};
        }
      }
    }
  }

  lemma InRowsByValue(actual: Value, rows: seq<Row>, values: set<Value>)
    requires forall w :: w in values <==> exists i, k :: 0 <= i < |rows| && k in rows[i] && rows[i][k] == w && w != Null
    ensures InRows(actual, rows) <==> exists w :: w in values && SameValue(actual, w)
  {
    if InRows(actual, rows) {
      var i, k :| 0 <= i < |rows| && k in rows[i] && rows[i][k] != Null && SameValue(actual, rows[i][k]);
      assert rows[i][k] in values;
    }
  }

  method StepsMatch(n: Node, depth: nat, ref: string, g: MultiLinkGraph, env: Env) returns (b: bool)
    requires g.Valid()
    ensures b <==> Origin(ref, env).Some? && n.id in Ball(g.State(), Origin(ref, env).value, depth)
  {
    hide Ball, Consistent, ExactBall;
    var target := if ref == "current" then env.current else Some(ref);
    if target.None? || target.value == "" { return false; }
    var x := target.value;
    BallOfRadiusZero(g.State(), x);
    BallMonotone(g.State(), x, 0, depth);
    if x == n.id { return true; }
    if depth == 0 { return false; }
    var ns := g.Neighbors(x, depth, depth);
    var ids := set m | m in ns :: m.node.id;
    b := n.id in ids;
    if x in g.nodes {
      NeighborsFillBall(g.State(), x, depth, ns, n.id);
    } else {
      StrangerReachesItself(g.State(), x, depth);
    }
  }

  method NodeMatches(n: Node, c: Condition, g: MultiLinkGraph, env: Env) returns (r: Result<bool, QueryError>)
    requires g.Valid() && Enumerates(env, g.State())
    ensures r == Matches(c, n, g.State(), env)
    decreases c, 0
  {
    match c
    case Comparison(f, op, value) =>
      r := Ok(Compare(Resolve(n, f.name, env), op, value));
    case InClause(f, sub) =>
      var result :- ExecuteQuery(sub, g, env);
      var values := CollectValues(result.rows);
      var actual := Resolve(n, f.name, env);
      InRowsByValue(actual, result.rows, values);
      r := Ok(exists w :: w in values && SameValue(actual, w));
    case StepsClause(depth, ref) =>
      var b := StepsMatch(n, depth, ref, g, env);
      r := Ok(b);
  }

  /** A loop that has collected `done` and has `rest` to come computes `whole`. */
  ghost predicate Resumes<T>(whole: Result<seq<T>, QueryError>, done: seq<T>, rest: Result<seq<T>, QueryError>) {
    match rest
    case Ok(r) => whole == Ok(done + r)
    case Err(e) => whole == Err(e)
  }

  lemma StartResumes<T>(whole: Result<seq<T>, QueryError>)
    ensures Resumes(whole, [], whole)
  {
    if whole.Ok? {
      assert [] + whole.value == whole.value;
    }
  }

  lemma StepResumes<T>(whole: Result<seq<T>, QueryError>, done: seq<T>, x: seq<T>, rest: Result<seq<T>, QueryError>)
    requires match rest case Ok(r) => whole == Ok(done + (x + r)) case Err(e) => whole == Err(e)
    ensures Resumes(whole, done + x, rest)
  {
    if rest.Ok? {
      assert done + x + rest.value == done + (x + rest.value);
    }
  }

  method FilterNodes(ns: seq<Node>, c: Condition, g: MultiLinkGraph, env: Env)
    returns (r: Result<seq<Node>, QueryError>)
    requires g.Valid() && Enumerates(env, g.State())
    ensures r == Matching(c, ns, g.State(), env)
    decreases c, |ns| + 1
  {
    hide Matches, Enumerates, Consistent;
    var kept: seq<Node> := [];
    assert ns[0..] == ns;
    ghost var whole := Matching(c, ns, g.State(), env);
    StartResumes(whole);
    for i := 0 to |ns|
      invariant Resumes(whole, kept, Matching(c, ns[i..], g.State(), env))
    {
      assert ns[i..][1..] == ns[i + 1..];
      var keep :- NodeMatches(ns[i], c, g, env);
      if keep {
        StepResumes(whole, kept, [ns[i]], Matching(c, ns[i + 1..], g.State(), env));
        kept := kept + [ns[i]];
      }
    }
    assert kept + [] == kept;
    r := Ok(kept);
  }

  method CollectFloats(ns: seq<Node>, name: string, env: Env) returns (values: seq<real>)
    ensures values == Floats(ns, name, env)
  {
    hide Resolve, ToFloat;
    values := [];
    assert ns[0..] == ns;
    for i := 0 to |ns|
      invariant Floats(ns, name, env) == values + Floats(ns[i..], name, env)
    {
      assert ns[i..][1..] == ns[i + 1..];
      var x := ToFloat(Resolve(ns[i], name, env), env);
      if x.Some? {
        values := values + [x.value];
      }
    }
  }

  method ComputeAgg(e: SelectExpr, ns: seq<Node>, g: MultiLinkGraph, env: Env) returns (r: Result<real, QueryError>)
    requires g.Valid() && Enumerates(env, g.State()) && e.AggExpr?
    ensures r == Compute(e, ns, g.State(), env)
    decreases e, 0
  {
    var filtered := ns;
    if e.filter.Some? {
      filtered :- FilterNodes(ns, e.filter.value, g, env);
    }
    if e.agg == COUNT {
      if e.field.name == "*" { return Ok(|filtered| as real); }
      var present := Filter(filtered, Present(e.field.name, env));
      return Ok(|present| as real);
    }
    if e.field.name == "*" { return Err(StarNotSupported); }
    var values := CollectFloats(filtered, e.field.name, env);
    if values == [] { return Ok(0.0); }
    match e.agg
    case AVG => r := Ok(Total(values) / |values| as real);
    case SUM => r := Ok(Total(values));
    case MIN => r := Ok(Least(values));
    case MAX => r := Ok(Greatest(values));
  }

  method BuildRow(es: seq<SelectExpr>, n: Node, g: MultiLinkGraph, env: Env) returns (r: Result<Row, QueryError>)
    requires g.Valid() && Enumerates(env, g.State())
    ensures r == Extend(map[], es, n, g.State(), env)
    decreases es, 0
  {
    var row: Row := map[];
    assert es[0..] == es;
    for i := 0 to |es|
      invariant Extend(map[], es, n, g.State(), env) == Extend(row, es[i..], n, g.State(), env)
    {
      assert es[i..][1..] == es[i + 1..] && es[i..][0] == es[i];
      match es[i]
      case FieldExpr(f, _) =>
        row := row[ColumnName(es[i]) := Resolve(n, f.name, env)];
      case AggExpr(_, _, _, _) =>
        var x :- ComputeAgg(es[i], [n], g, env);
        row := row[ColumnName(es[i]) := Num(x)];
    }
    r := Ok(row);
  }

  method BuildRows(es: seq<SelectExpr>, ns: seq<Node>, g: MultiLinkGraph, env: Env)
    returns (r: Result<seq<Row>, QueryError>)
    requires g.Valid() && Enumerates(env, g.State())
    ensures r == Project(es, ns, g.State(), env)
    decreases es, 1
  {
    var rows: seq<Row> := [];
    assert ns[0..] == ns;
    ghost var whole := Project(es, ns, g.State(), env);
    StartResumes(whole);
    for i := 0 to |ns|
      invariant Resumes(whole, rows, Project(es, ns[i..], g.State(), env))
    {
      assert ns[i..][1..] == ns[i + 1..];
      var row :- BuildRow(es, ns[i], g, env);
      StepResumes(whole, rows, [row], Project(es, ns[i + 1..], g.State(), env));
      rows := rows + [row];
    }
    assert rows + [] == rows;
    r := Ok(rows);
  }

  method BuildSummaries(es: seq<SelectExpr>, ns: seq<Node>, g: MultiLinkGraph, env: Env)
    returns (r: Result<map<string, real>, QueryError>)
    requires g.Valid() && Enumerates(env, g.State())
    ensures r == Summaries(map[], es, ns, g.State(), env)
    decreases es, 1
  {
    var sums: map<string, real> := map[];
    for i := 0 to |es|
      invariant Summaries(map[], es, ns, g.State(), env) == Summaries(sums, es[i..], ns, g.State(), env)
    {
      assert es[i..][1..] == es[i + 1..] && es[i..][0] == es[i];
      if !es[i].AggExpr? { return Err(NotAnAggregate); }
      var x :- ComputeAgg(es[i], ns, g, env);
      sums := sums[ColumnName(es[i]) := x];
    }
    r := Ok(sums);
  }

  method ExecuteQuery(s: SelectStmt, g: MultiLinkGraph, env: Env) returns (r: Result<QueryResult, QueryError>)
    requires g.Valid() && Enumerates(env, g.State())
    ensures r == Denote(s, g.State(), env)
    decreases s, 0
  {
    var kind := NodeTypeNamed(s.nodeType);
    if kind.None? { return Err(UnknownNodeType); }
    var candidates := g.FindNodes(kind, [], env.listing[kind.value], {});
    hide Matching, Listed;
    if s.where.Some? {
      assert Candidates(s, g.State(), env) == Matching(s.where.value, candidates, g.State(), env);
      candidates :- FilterNodes(candidates, s.where.value, g, env);
    }
    assert Candidates(s, g.State(), env) == Ok(candidates);
    var columns := Map(s.exprs, ColumnName);
    if s.aggregationOnly {
      var sums :- BuildSummaries(s.exprs, candidates, g, env);
      return Ok(QueryResult([], columns, sums));
    }
    var rows :- BuildRows(s.exprs, candidates, g, env);
    if s.order.Some? && rows != [] {
      rows := Arrange(rows, s.order, env);
    }
    if s.limit.Some? {
      rows := Take(rows, s.limit);
    }
    r := Ok(QueryResult(rows, columns, map[]));
  }
}
