/** What names and aggregates mean: fields, columns, node types, and the numbers an aggregate gives. */
module DataviewMeanings {
  import opened Seqs
  import opened GraphModel
  import opened MemoryGraph
  import opened DataviewSyntax
  import opened DataviewQuery
  import opened DataviewOrder
  import opened DataviewValues

  // ----- names -----

  predicate BuiltInName(name: string) {
    name in {"*", "id", "type", "created_at", "updated_at"}
  }

  /** A prefixed name is looked up where it says, any other one in the content and then in the metadata; what is
      missing is None. */
  lemma FieldsResolve(n: Node, x: string, env: Env)
    ensures Resolve(n, "content." + x, env) == if x in n.content then n.content[x] else Null
    ensures Resolve(n, "metadata." + x, env) == if x in n.metadata then n.metadata[x] else Null
    ensures Resolve(n, "id", env) == Str(n.id) && Resolve(n, "*", env) == Null
    ensures Resolve(n, "created_at", env) == Str(env.iso(n.createdAt))
    ensures Resolve(n, "updated_at", env) == Str(env.iso(n.updatedAt))
    ensures Resolve(n, "type", env) == Str(KindText(n.kind))
    ensures !BuiltInName(x) && !("content." <= x) && !("metadata." <= x) ==>
              Resolve(n, x, env) == if x in n.content then n.content[x] else if x in n.metadata then n.metadata[x] else Null
  {
    var c, m := "content." + x, "metadata." + x;
    assert "content." <= c && AfterPrefix("content.", c) == x && c[1] == 'o' && c[0] == 'c';
    assert "metadata." <= m && AfterPrefix("metadata.", m) == x && m[0] == 'm';
    assert TypeName(n.kind) == KindText(n.kind);
  }

  function KindText(kind: NodeType): (text: string)
    ensures |text| >= 4
  {
    match kind
    case Task => "task"
    case Output => "output"
    case Failure => "failure"
    case Experience => "experience"
    case Tool => "tool"
    case User => "user"
    case Prompt => "prompt"
    case Schema => "schema"
    case Decision => "decision"
    case Feedback => "feedback"
    case Event => "event"
  }

  /** Length and last characters tell the names apart. */
  lemma KindTextsDiffer(j: NodeType, k: NodeType)
    ensures KindText(j) == KindText(k) ==> j == k
    ensures KindText(j) != KindText(k) + "s"
  {
    var s, t := KindText(j), KindText(k);
    assert s[|s| - 1] != 's';
    if s == t {
      assert s[0] == t[0] && s[1] == t[1] && s[2] == t[2] && s[3] == t[3] && |s| == |t|;
    }
  }

  lemma {:induction false} FindKindFinds(kinds: seq<NodeType>, name: string, kind: NodeType)
    ensures kind in kinds && KindText(kind) == name ==> FindKind(kinds, name) == Some(kind)
    ensures FindKind(kinds, name) == Some(kind) ==> KindText(kind) == name
  {
    if kinds != [] {
      hide KindText;
      SameTexts(kinds[0]);
      KindTextsDiffer(kinds[0], kind);
      FindKindFinds(kinds[1..], name, kind);
    }
  }

  lemma SameTexts(kind: NodeType)
    ensures TypeName(kind) == KindText(kind)
  {
  }

  lemma EveryKindIsListed(kind: NodeType)
    ensures kind in KINDS
  {
    assert KINDS[0] == Task && KINDS[1] == Output && KINDS[2] == Failure && KINDS[3] == Experience && KINDS[4] == Tool;
    assert KINDS[5] == User && KINDS[6] == Prompt && KINDS[7] == Schema && KINDS[8] == Decision && KINDS[9] == Feedback;
    assert KINDS[10] == NodeType.Event;
  }

  /** A FROM name means a node type if and only if, in any case, it is the name of the type or its plural. */
  lemma {:induction false} NodeTypesAreNamed(text: string, kind: NodeType)
    ensures NodeTypeNamed(text) == Some(kind) <==> Lower(text) == KindText(kind) || Lower(text) == KindText(kind) + "s"
  {
    hide KindText, FindKind, KINDS;
    var name := Lower(text);
    EveryKindIsListed(kind);
    FindKindFinds(KINDS, name, kind);
    if FindKind(KINDS, name).Some? {
      var other := FindKind(KINDS, name).value;
      FindKindFinds(KINDS, name, other);
      KindTextsDiffer(other, kind);
    } else if |name| > 3 && name[|name| - 1] == 's' {
      var stem := name[..|name| - 1];
      assert name == stem + "s";
      FindKindFinds(KINDS, stem, kind);
    }
    if name == KindText(kind) + "s" { assert name[..|name| - 1] == KindText(kind); }
  }

  function AggText(agg: Agg): string {
    match agg
    case COUNT => "count"
    case AVG => "avg"
    case SUM => "sum"
    case MIN => "min"
    case MAX => "max"
  }

  /** A column is called by its alias; without one, by the field without its prefix, or by the aggregate and field. */
  lemma ColumnsAreNamed(x: string, alias: string, agg: Agg, c: Option<Condition>)
    ensures alias != "" ==> ColumnName(FieldExpr(FieldRef(x), Some(alias))) == alias
    ensures alias != "" ==> ColumnName(AggExpr(agg, FieldRef(x), Some(alias), c)) == alias
    ensures ColumnName(FieldExpr(FieldRef("content." + x), None)) == x
    ensures ColumnName(FieldExpr(FieldRef("metadata." + x), None)) == x
    ensures !("content." <= x) && !("metadata." <= x) ==> ColumnName(FieldExpr(FieldRef(x), None)) == x
    ensures x != "*" ==> ColumnName(AggExpr(agg, FieldRef(x), None, c)) == AggText(agg) + "_" + x
    ensures ColumnName(AggExpr(COUNT, FieldRef("*"), None, c)) == "count"
  {
    var d, m := "content." + x, "metadata." + x;
    assert "content." <= d && AfterPrefix("content.", d) == x;
    assert m[0] == 'm' && "metadata." <= m && AfterPrefix("metadata.", m) == x;
  }

  /** STEPS FROM starts at the named node, or at the current one if there is one. */
  lemma StepsStart(ref: string, env: Env)
    ensures ref != "current" && ref != "" ==> Origin(ref, env) == Some(ref)
    ensures env.current.Some? && env.current.value != "" ==> Origin("current", env) == env.current
    ensures env.current == None || env.current == Some("") ==> Origin("current", env) == None
    ensures Origin("", env) == None
  {
  }

  /** A `find_nodes` filter compares the value under its prefix, or the id or type, with the one asked for. */
  lemma FiltersPass(n: Node, x: string, value: Value, members: set<string>)
    ensures Passes(n, "content." + x, value, members) <==> Alike(if x in n.content then n.content[x] else Null, value)
    ensures Passes(n, "metadata." + x, value, members) <==> Alike(if x in n.metadata then n.metadata[x] else Null, value)
    ensures Passes(n, "id", value, members) <==> value == Str(n.id)
    ensures Passes(n, "type", value, members) <==> value == Str(KindText(n.kind))
    ensures var unknown := x !in members && x !in {"id", "type", "content", "metadata", "created_at", "updated_at"};
      unknown && !("content." <= x) && !("metadata." <= x) ==> (Passes(n, x, value, members) <==> value == Null)
  {
    var c, m := "content." + x, "metadata." + x;
    assert "content." <= c && AfterPrefix("content.", c) == x;
    assert m[0] == 'm' && "metadata." <= m && AfterPrefix("metadata.", m) == x;
    hide Precedes;
    LessMeans(Lookup(n.content, x), value);
    LessMeans(Lookup(n.metadata, x), value);
    SameTexts(n.kind);
  }

  // ----- aggregates -----

  /** The number an aggregate takes from a node, if any: numbers and booleans as they are, texts as `float` reads them. */
  function FloatOf(n: Node, name: string, env: Env): Option<real> {
    var v := Resolve(n, name, env);
    if v.Str? then env.toFloat(v.s) else AsReal(v)
  }

  lemma OneFloat(n: Node, name: string, env: Env)
    ensures ToFloat(Resolve(n, name, env), env) == FloatOf(n, name, env)
    ensures Floats([n], name, env) == if FloatOf(n, name, env).Some? then [FloatOf(n, name, env).value] else []
  {
    hide Resolve;
    assert [n][1..] == [];
  }

  lemma {:induction false} FloatsAreTheirs(ns: seq<Node>, name: string, env: Env, x: real)
    ensures x in Floats(ns, name, env) <==> exists n :: n in ns && FloatOf(n, name, env) == Some(x)
  {
    hide FloatOf, Resolve;
    if ns != [] {
      OneFloat(ns[0], name, env);
      FloatsAreTheirs(ns[1..], name, env, x);
      assert ns == [ns[0]] + ns[1..];
    }
  }

  lemma {:induction false} LeastIsLeast(xs: seq<real>)
    requires xs != []
    ensures Least(xs) in xs && forall x :: x in xs ==> Least(xs) <= x
    ensures Greatest(xs) in xs && forall x :: x in xs ==> x <= Greatest(xs)
  {
    if |xs| > 1 { LeastIsLeast(xs[1..]); }
    assert xs == [xs[0]] + xs[1..];
  }

  /** MIN and MAX give the smallest and the largest number of the nodes, and 0 if no node has one. */
  lemma {:induction false} ExtremesAreExtreme(ns: seq<Node>, name: string, env: Env)
    requires name != "*"
    ensures Aggregate(MIN, name, ns, env).Ok? && Aggregate(MAX, name, ns, env).Ok?
    ensures (forall n :: n in ns ==> FloatOf(n, name, env).None?) ==>
              Aggregate(MIN, name, ns, env) == Ok(0.0) && Aggregate(MAX, name, ns, env) == Ok(0.0)
    ensures (exists n :: n in ns && FloatOf(n, name, env).Some?) ==>
              var least, most := Aggregate(MIN, name, ns, env).value, Aggregate(MAX, name, ns, env).value;
              && (exists n :: n in ns && FloatOf(n, name, env) == Some(least))
              && (exists n :: n in ns && FloatOf(n, name, env) == Some(most))
              && (forall n :: n in ns && FloatOf(n, name, env).Some? ==> least <= FloatOf(n, name, env).value <= most)
  {
    hide FloatOf, Resolve, Least, Greatest, Floats;
    var xs := Floats(ns, name, env);
    forall x ensures x in xs <==> exists n :: n in ns && FloatOf(n, name, env) == Some(x) {
      FloatsAreTheirs(ns, name, env, x);
    }
    if xs != [] { LeastIsLeast(xs); }
    if n :| n in ns && FloatOf(n, name, env).Some? { assert FloatOf(n, name, env).value in xs; }
    HeadIsMember(xs);
  }

  lemma {:induction false} TotalAdds(xs: seq<real>, ys: seq<real>)
    ensures Total(xs + ys) == Total(xs) + Total(ys)
  {
    if xs == [] { assert xs + ys == ys; } else { assert (xs + ys)[1..] == xs[1..] + ys; TotalAdds(xs[1..], ys); }
  }

  lemma {:induction false} FloatsAdd(a: seq<Node>, b: seq<Node>, name: string, env: Env)
    ensures Floats(a + b, name, env) == Floats(a, name, env) + Floats(b, name, env)
  {
    hide Resolve, ToFloat;
    if a == [] { assert a + b == b; } else { assert (a + b)[1..] == a[1..] + b; FloatsAdd(a[1..], b, name, env); }
  }

  /** SUM is additive over the nodes, each giving its number or 0. */
  lemma {:induction false} SumAddsUp(a: seq<Node>, n: Node, name: string, env: Env)
    requires name != "*"
    ensures Aggregate(SUM, name, [], env) == Ok(0.0) && Aggregate(SUM, name, a, env).Ok?
    ensures Aggregate(SUM, name, a + [n], env)
         == Ok(Aggregate(SUM, name, a, env).value + if FloatOf(n, name, env).Some? then FloatOf(n, name, env).value else 0.0)
  {
    hide Floats, FloatOf, Resolve;
    NoFloats(name, env);
    FloatsAdd(a, [n], name, env);
    OneFloat(n, name, env);
    TotalAdds(Floats(a, name, env), Floats([n], name, env));
  }

  lemma NoFloats(name: string, env: Env)
    ensures Floats([], name, env) == [] && Total([]) == 0.0
  {
  }

  function HasFloat(name: string, env: Env): Node -> bool {
    (n: Node) => FloatOf(n, name, env).Some?
  }

  lemma {:induction false} FloatsCount(ns: seq<Node>, name: string, env: Env)
    ensures |Floats(ns, name, env)| == |Filter(ns, HasFloat(name, env))|
  {
    hide FloatOf, Resolve;
    if ns != [] {
      OneFloat(ns[0], name, env);
      FloatsCount(ns[1..], name, env);
    }
  }

  /** AVG times the number of nodes that have a number is SUM; without any it is 0. */
  lemma {:induction false} AverageTimesCountIsSum(ns: seq<Node>, name: string, env: Env)
    requires name != "*"
    ensures Aggregate(AVG, name, ns, env).Ok? && Aggregate(SUM, name, ns, env).Ok?
    ensures var n := |Filter(ns, HasFloat(name, env))|;
      && Aggregate(AVG, name, ns, env).value * n as real == Aggregate(SUM, name, ns, env).value
      && (n == 0 ==> Aggregate(AVG, name, ns, env) == Ok(0.0))
  {
    hide FloatOf, Resolve, Floats;
    FloatsCount(ns, name, env);
  }

  /** COUNT counts all nodes, or those that have the field; the other aggregates do not take the star. */
  lemma {:induction false} CountCounts(a: seq<Node>, n: Node, name: string, agg: Agg, env: Env)
    ensures Aggregate(COUNT, "*", a, env) == Ok(|a| as real)
    ensures agg != COUNT ==> Aggregate(agg, "*", a, env) == Err(StarNotSupported)
    ensures name != "*" ==> Aggregate(COUNT, name, [], env) == Ok(0.0) && Aggregate(COUNT, name, a, env).Ok?
    ensures name != "*" ==>
              Aggregate(COUNT, name, a + [n], env)
              == Ok(Aggregate(COUNT, name, a, env).value + if Resolve(n, name, env) == Null then 0.0 else 1.0)
  {
    hide Resolve, Floats;
    FilterConcat(a, [n], Present(name, env));
    assert [n][1..] == [];
    assert Filter([n], Present(name, env)) == if Resolve(n, name, env) == Null then [] else [n];
  }

  // ----- where aggregates appear -----

  /** In an aggregate-only answer each aggregate stands under its name, computed over the candidates. */
  lemma {:induction false} SummariesShow(acc: map<string, real>, es: seq<SelectExpr>, ns: seq<Node>, i: nat, v: View, env: Env)
    requires Enumerates(env, v) && Summaries(acc, es, ns, v, env).Ok? && i < |es|
    requires forall j :: i < j < |es| ==> ColumnName(es[j]) != ColumnName(es[i])
    ensures es[i].AggExpr? && ColumnName(es[i]) in Summaries(acc, es, ns, v, env).value
    ensures Compute(es[i], ns, v, env) == Ok(Summaries(acc, es, ns, v, env).value[ColumnName(es[i])])
    decreases |es|
  {
    hide Compute, ColumnName, Enumerates;
    var x := Compute(es[0], ns, v, env).value;
    var next := acc[ColumnName(es[0]) := x];
    if i == 0 {
      assert forall j :: 0 <= j < |es[1..]| ==> es[1..][j] == es[j + 1];
      SummariesKeep(next, es[1..], ns, ColumnName(es[0]), v, env);
    } else {
      SummariesShow(next, es[1..], ns, i - 1, v, env);
    }
  }

  lemma {:induction false} SummariesKeep(acc: map<string, real>, es: seq<SelectExpr>, ns: seq<Node>, name: string,
                                         v: View, env: Env)
    requires Enumerates(env, v) && Summaries(acc, es, ns, v, env).Ok? && name in acc
    requires forall j :: 0 <= j < |es| ==> ColumnName(es[j]) != name
    ensures name in Summaries(acc, es, ns, v, env).value && Summaries(acc, es, ns, v, env).value[name] == acc[name]
    decreases |es|
  {
    hide Compute, ColumnName, Enumerates;
    if es != [] {
      SummariesKeep(acc[ColumnName(es[0]) := Compute(es[0], ns, v, env).value], es[1..], ns, name, v, env);
    }
  }

  /** Whether a query is aggregate-only decides what the answer holds: summaries of the candidates, or their rows;
      its columns are the names of the select expressions, in order. */
  lemma AnswerHolds(s: SelectStmt, v: View, env: Env)
    requires Enumerates(env, v) && Denote(s, v, env).Ok?
    ensures Candidates(s, v, env).Ok?
    ensures var r, ns := Denote(s, v, env).value, Candidates(s, v, env).value;
      && |r.columns| == |s.exprs| && (forall i :: 0 <= i < |s.exprs| ==> r.columns[i] == ColumnName(s.exprs[i]))
      && (s.aggregationOnly ==> r.rows == [] && Summaries(map[], s.exprs, ns, v, env) == Ok(r.aggregations))
      && (!s.aggregationOnly ==> r.aggregations == map[])
  {
    hide Candidates, Summaries, Project, Enumerates;
  }
}
