/** Which ORDER BY clauses sort by the field they name. */
module DataviewKeys {
  import opened Seqs
  import opened GraphModel
  import opened MemoryGraph
  import opened DataviewSyntax
  import opened DataviewQuery
  import opened DataviewOrder

  /** The select expression that has the last word on a column. */
  function LastNamed(es: seq<SelectExpr>, name: string): (r: Option<nat>)
    ensures r.Some? ==> r.value < |es| && ColumnName(es[r.value]) == name
    ensures r.Some? ==> forall j :: r.value < j < |es| ==> ColumnName(es[j]) != name
    ensures r.None? ==> forall j :: 0 <= j < |es| ==> ColumnName(es[j]) != name
  {
    if es == [] then None
    else if ColumnName(es[|es| - 1]) == name then Some(|es| - 1)
    else LastNamed(es[..|es| - 1], name)
  }

  /** On every graph, the key ORDER BY f sorts a node's row by is the node's value of f. */
  ghost predicate SortsByField(es: seq<SelectExpr>, f: FieldRef) {
    forall v, env, n: Node ::
      Enumerates(env, v) && Keyed(v) && Stored(v, n) && Extend(map[], es, n, v, env).Ok? ==>
        Cell(Extend(map[], es, n, v, env).value, f.name) == Resolve(n, f.name, env)
  }

  predicate Stored(v: View, n: Node) {
    n.id in v.nodes && v.nodes[n.id] == n
  }

  /** No aggregate among the expressions ever fails. */
  ghost predicate NeverRaises(es: seq<SelectExpr>) {
    forall v, env, n: Node :: Enumerates(env, v) ==> Extend(map[], es, n, v, env).Ok?
  }

  /** ORDER BY f sorts by f if and only if the last column of that name selects the field f itself: not a prefixed
      field shown under the shorter name, not an alias of another field, not an aggregate, and not no column. */
  lemma {:induction false} SortsByFieldExactly(es: seq<SelectExpr>, f: FieldRef)
    requires f.name != "*" && NeverRaises(es)
    ensures SortsByField(es, f) <==>
      var last := LastNamed(es, f.name);
      last.Some? && es[last.value].FieldExpr? && es[last.value].field == f
  {
    hide SortsByField, NeverRaises, Extend, Enumerates, Resolve;
    var last := LastNamed(es, f.name);
    if last.Some? && es[last.value].FieldExpr? && es[last.value].field == f {
      ShownFieldSorts(es, f, last.value);
    } else {
      var g := if last.Some? && es[last.value].FieldExpr? then es[last.value].field.name else "*";
      var n, env := Apart(f.name, g);
      var v := Only(n);
      NotSorted(es, f, n, v, env);
    }
  }

  /** Where it does sort, a row answer is the LIMIT prefix of the stable sort of the candidates' rows by their own
      values of the field. */
  lemma OrdersByShownField(s: SelectStmt, i: nat, v: View, env: Env) returns (rows: seq<Row>, sorted: seq<Row>)
    requires Enumerates(env, v) && !s.aggregationOnly && Denote(s, v, env).Ok? && s.order.Some?
    requires LastNamed(s.exprs, s.order.value.field.name) == Some(i)
    requires s.exprs[i].FieldExpr? && s.exprs[i].field == s.order.value.field
    ensures Candidates(s, v, env).Ok? && |rows| == |Candidates(s, v, env).value|
    ensures var f, ns := s.order.value.field.name, Candidates(s, v, env).value;
      forall k :: 0 <= k < |rows| ==> Cell(rows[k], f) == Resolve(ns[k], f, env)
    ensures OneType(rows, s.order.value.field.name) ==>
      IsStableSort(sorted, rows, s.order.value.field.name, s.order.value.descending)
    ensures Denote(s, v, env).value.rows == if s.limit.Some? && s.limit.value < |sorted| then sorted[..s.limit.value] else sorted
  {
    hide Denote, Candidates, Extend, Enumerates, Resolve, Cell, OneType, IsStableSort;
    rows, sorted := RowsAreSortedPrefix(s, v, env);
    var f, ns := s.order.value.field.name, Candidates(s, v, env).value;
    forall k | 0 <= k < |rows| ensures Cell(rows[k], f) == Resolve(ns[k], f, env) {
      FieldIsShown(s.exprs, i, map[], ns[k], v, env);
    }
  }

  lemma {:induction false} ShownFieldSorts(es: seq<SelectExpr>, f: FieldRef, i: nat)
    requires i < |es| && es[i].FieldExpr? && es[i].field == f && ColumnName(es[i]) == f.name
    requires forall j :: i < j < |es| ==> ColumnName(es[j]) != f.name
    ensures SortsByField(es, f)
  {
    hide Extend, Enumerates, Resolve;
    forall v, env, n: Node |
      Enumerates(env, v) && Keyed(v) && Stored(v, n) && Extend(map[], es, n, v, env).Ok?
      ensures Cell(Extend(map[], es, n, v, env).value, f.name) == Resolve(n, f.name, env)
    {
      FieldIsShown(es, i, map[], n, v, env);
    }
  }

  lemma {:induction false} NotSorted(es: seq<SelectExpr>, f: FieldRef, n: Node, v: View, env: Env)
    requires NeverRaises(es) && Enumerates(env, v) && Keyed(v) && Stored(v, n)
    requires var last := LastNamed(es, f.name);
      if last.Some? && es[last.value].FieldExpr?
      then Resolve(n, es[last.value].field.name, env) != Resolve(n, f.name, env)
      else Resolve(n, f.name, env).Str?
    ensures !SortsByField(es, f)
  {
    hide Extend, Enumerates, Resolve;
    var row := Extend(map[], es, n, v, env).value;
    var last := LastNamed(es, f.name);
    if last.None? {
      ExtendKeys(map[], es, n, v, env);
      assert f.name !in row;
    } else if es[last.value].FieldExpr? {
      FieldIsShown(es, last.value, map[], n, v, env);
    } else {
      AggregateIsShown(es, last.value, map[], n, v, env);
    }
    assert Cell(row, f.name) != Resolve(n, f.name, env);
  }

  /** An aggregate column shows the aggregate of the row's own node. */
  lemma {:induction false} AggregateIsShown(es: seq<SelectExpr>, i: nat, row: Row, n: Node, v: View, env: Env)
    requires Enumerates(env, v) && Extend(row, es, n, v, env).Ok? && i < |es| && es[i].AggExpr?
    requires forall j :: i < j < |es| ==> ColumnName(es[j]) != ColumnName(es[i])
    ensures Compute(es[i], [n], v, env).Ok?
    ensures Cell(Extend(row, es, n, v, env).value, ColumnName(es[i])) == Num(Compute(es[i], [n], v, env).value)
    decreases es
  {
    hide Compute, Enumerates, Resolve, ColumnName;
    var value := if es[0].FieldExpr? then Resolve(n, es[0].field.name, env) else Num(Compute(es[0], [n], v, env).value);
    var next := row[ColumnName(es[0]) := value];
    if i == 0 {
      assert forall j :: 0 <= j < |es[1..]| ==> es[1..][j] == es[j + 1];
      ExtendKeys(next, es[1..], n, v, env);
    } else {
      AggregateIsShown(es[1..], i - 1, next, n, v, env);
    }
  }

  // ----- a graph that tells two fields apart -----

  /** The graph with one node and no links. */
  function Only(n: Node): View {
    View(map[n.id := n], map[], map[], map[n.kind := {n.id}])
  }

  function Zeros(t: Time): string {
    if t == 0 then "zero" else "other"
  }

  /** Lists the one task "i", and tells time 0 from others. */
  function Plain(): Env {
    Env(None, map[Task := ["i"], Output := [], Failure := [], Experience := [], Tool := [], User := [], Prompt := [],
                  Schema := [], Decision := [], Feedback := [], NodeType.Event := []],
        Zeros, (s: string) => None, (rows: seq<Row>, column: string, desc: bool) => rows)
  }

  lemma PlainEnumerates(n: Node)
    requires n.id == "i" && n.kind == Task
    ensures Enumerates(Plain(), Only(n)) && Keyed(Only(n)) && Stored(Only(n), n)
  {
    var env, v := Plain(), Only(n);
    forall kind: NodeType
      ensures kind in env.listing && Distinct(env.listing[kind])
      ensures forall id :: id in env.listing[kind] <==> id in Ids(v, kind)
    {
      assert env.listing[Task] == ["i"] && Ids(v, Task) == {"i"};
      match kind
      case Task =>
      case _ => assert env.listing[kind] == [] && Ids(v, kind) == {};
    }
  }

  predicate BuiltIn(name: string) {
    name in {"*", "id", "type", "created_at", "updated_at"}
  }

  /** Looked up in the content first, then in the metadata. */
  predicate Unprefixed(name: string) {
    !BuiltIn(name) && !("content." <= name) && !("metadata." <= name)
  }

  lemma SamePrefixSameName(prefix: string, f: string, g: string)
    requires prefix <= f && prefix <= g && AfterPrefix(prefix, f) == AfterPrefix(prefix, g)
    ensures f == g
  {
    assert f == prefix + AfterPrefix(prefix, f) && g == prefix + AfterPrefix(prefix, g);
  }

  /** Some node has different values for two fields; against `*`, a text value for f. */
  lemma Apart(f: string, g: string) returns (n: Node, env: Env)
    requires f != g && f != "*"
    ensures Enumerates(env, Only(n)) && Keyed(Only(n)) && Stored(Only(n), n)
    ensures Resolve(n, f, env) != Resolve(n, g, env)
    ensures g == "*" ==> Resolve(n, f, env).Str?
  {
    hide Enumerates, Keyed, Resolve;
    env := Plain();
    n := Telling(f, g);
    if BuiltIn(f) {
      BuiltInApart(f, g);
    } else if "content." <= f {
      ContentApart(f, g);
    } else if "metadata." <= f {
      MetadataApart(f, g);
    } else {
      PlainApart(f, g);
    }
    PlainEnumerates(n);
  }

  /** A node on which f and g differ. */
  function Telling(f: string, g: string): (n: Node)
    ensures n.id == "i" && n.kind == Task && n.createdAt == 0 && n.updatedAt == 1
  {
    var c, m := Str("c"), Str("m");
    if BuiltIn(f) then Node("i", Task, map[], map[], 0, 1)
    else if "content." <= f then
      var x := AfterPrefix("content.", f);
      if g == x && Unprefixed(g) then Node("i", Task, map[], map[x := m], 0, 1) else Node("i", Task, map[x := c], map[], 0, 1)
    else if "metadata." <= f then
      var x := AfterPrefix("metadata.", f);
      if g == x && Unprefixed(g) then Node("i", Task, map[x := c], map[], 0, 1) else Node("i", Task, map[], map[x := m], 0, 1)
    else if "content." <= g && AfterPrefix("content.", g) == f then Node("i", Task, map[], map[f := m], 0, 1)
    else Node("i", Task, map[f := c], map[], 0, 1)
  }

  /** The values of the built-in fields are all different, and none of those stored. */
  lemma BuiltInValues(n: Node, name: string)
    requires n.id == "i" && n.kind == Task && n.createdAt == 0 && n.updatedAt == 1 && BuiltIn(name)
    ensures Resolve(n, name, Plain()) ==
      if name == "*" then Null else if name == "id" then Str("i") else if name == "type" then Str("task")
      else if name == "created_at" then Str("zero") else Str("other")
  {
  }

  /** The value of any other field is looked up. */
  lemma StoredValues(n: Node, name: string)
    requires !BuiltIn(name)
    ensures Resolve(n, name, Plain()) ==
      if "content." <= name then Lookup(n.content, AfterPrefix("content.", name))
      else if "metadata." <= name then Lookup(n.metadata, AfterPrefix("metadata.", name))
      else if name in n.content then n.content[name] else Lookup(n.metadata, name)
  {
  }

  lemma ValuesOf(n: Node, f: string, g: string)
    requires n.id == "i" && n.kind == Task && n.createdAt == 0 && n.updatedAt == 1
    ensures BuiltIn(f) || Resolve(n, f, Plain()) ==
      if "content." <= f then Lookup(n.content, AfterPrefix("content.", f))
      else if "metadata." <= f then Lookup(n.metadata, AfterPrefix("metadata.", f))
      else if f in n.content then n.content[f] else Lookup(n.metadata, f)
    ensures BuiltIn(g) ==> Resolve(n, g, Plain()) in {Null, Str("i"), Str("task"), Str("zero"), Str("other")}
  {
    hide Resolve;
    if BuiltIn(g) { BuiltInValues(n, g); }
    if !BuiltIn(f) { StoredValues(n, f); }
  }

  lemma BuiltInApart(f: string, g: string)
    requires f != g && f != "*" && BuiltIn(f)
    ensures Resolve(Telling(f, g), f, Plain()) != Resolve(Telling(f, g), g, Plain())
    ensures Resolve(Telling(f, g), f, Plain()).Str?
  {
    hide Resolve;
    var n := Telling(f, g);
    BuiltInValues(n, f);
    if BuiltIn(g) { BuiltInValues(n, g); } else { StoredValues(n, g); }
  }

  lemma ContentApart(f: string, g: string)
    requires f != g && !BuiltIn(f) && "content." <= f
    ensures Resolve(Telling(f, g), f, Plain()) != Resolve(Telling(f, g), g, Plain())
    ensures g == "*" ==> Resolve(Telling(f, g), f, Plain()).Str?
  {
    hide Resolve, BuiltIn;
    var n := Telling(f, g);
    ValuesOf(n, f, g);
    ValuesOf(n, g, f);
    if "content." <= g && AfterPrefix("content.", g) == AfterPrefix("content.", f) { SamePrefixSameName("content.", f, g); }
    StarIsBuiltIn(g);
  }

  lemma MetadataApart(f: string, g: string)
    requires f != g && !BuiltIn(f) && !("content." <= f) && "metadata." <= f
    ensures Resolve(Telling(f, g), f, Plain()) != Resolve(Telling(f, g), g, Plain())
    ensures g == "*" ==> Resolve(Telling(f, g), f, Plain()).Str?
  {
    hide Resolve, BuiltIn;
    var n := Telling(f, g);
    ValuesOf(n, f, g);
    ValuesOf(n, g, f);
    if "metadata." <= g && AfterPrefix("metadata.", g) == AfterPrefix("metadata.", f) { SamePrefixSameName("metadata.", f, g); }
    StarIsBuiltIn(g);
  }

  lemma PlainApart(f: string, g: string)
    requires f != g && !BuiltIn(f) && !("content." <= f) && !("metadata." <= f)
    ensures Resolve(Telling(f, g), f, Plain()) != Resolve(Telling(f, g), g, Plain())
    ensures g == "*" ==> Resolve(Telling(f, g), f, Plain()).Str?
  {
    hide Resolve, BuiltIn;
    var n := Telling(f, g);
    ValuesOf(n, f, g);
    ValuesOf(n, g, f);
    StarIsBuiltIn(g);
  }

  lemma StarIsBuiltIn(g: string)
    ensures g == "*" ==> BuiltIn(g)
  {
  }

  // ----- an answer out of order -----

  function TaskWith(id: Id, field: string, x: real): Node {
    Node(id, Task, map[field := Num(x)], map[], 0, 0)
  }

  /** Two tasks, the first of them with the larger value. */
  function TwoTasks(field: string): View {
    View(map["a" := TaskWith("a", field, 2.0), "b" := TaskWith("b", field, 1.0)], map[], map[], map[Task := {"a", "b"}])
  }

  function ListingTwo(): Env {
    Plain().(listing := Plain().listing[Task := ["a", "b"]])
  }

  lemma ListsTwo(field: string)
    ensures Enumerates(ListingTwo(), TwoTasks(field))
  {
    var env, v := ListingTwo(), TwoTasks(field);
    forall kind: NodeType
      ensures kind in env.listing && Distinct(env.listing[kind])
      ensures forall id :: id in env.listing[kind] <==> id in Ids(v, kind)
    {
      assert env.listing[Task] == ["a", "b"] && Ids(v, Task) == {"a", "b"};
      match kind
      case Task =>
      case _ => assert env.listing[kind] == [] && Ids(v, kind) == {};
    }
  }

  lemma TwoTasksAreSound(field: string)
    ensures IndexExact(TwoTasks(field)) && Consistent(TwoTasks(field))
  {
  }

  /** `SELECT content.x FROM task ORDER BY content.x` answers 2 before 1. */
  lemma {:induction false} PrefixedAnswerOutOfOrder(field: string)
    ensures Enumerates(ListingTwo(), TwoTasks(field)) && IndexExact(TwoTasks(field)) && Consistent(TwoTasks(field))
    ensures var name := FieldRef("content." + field);
      var s := SelectStmt([FieldExpr(name, None)], "task", None, Some(OrderClause(name, false)), None, false);
      var r := Denote(s, TwoTasks(field), ListingTwo());
      r.Ok? && r.value.rows == [map[field := Num(2.0)], map[field := Num(1.0)]]
  {
    var env, v := ListingTwo(), TwoTasks(field);
    ListsTwo(field);
    TwoTasksAreSound(field);
    var name := FieldRef("content." + field);
    var es := [FieldExpr(name, None)];
    var s := SelectStmt(es, "task", None, Some(OrderClause(name, false)), None, false);
    PrefixedOrderIsIgnored(field, false, "task", v, env);
    TasksAreTasks();
    var a, b := TaskWith("a", field, 2.0), TaskWith("b", field, 1.0);
    TwoListed(field);
    OneColumn(field, a, v, env);
    OneColumn(field, b, v, env);
    TwoRows(es, a, b, v, env, map[field := Num(2.0)], map[field := Num(1.0)]);
    assert Candidates(s.(order := None), v, env) == Ok([a, b]);
  }

  lemma TasksAreTasks()
    ensures NodeTypeNamed("task") == Some(Task)
  {
    assert Lower("task") == "task";
    assert TypeName(KINDS[0]) == "task";
  }

  lemma TwoListed(field: string)
    ensures Listed(TwoTasks(field).nodes, ["a", "b"]) == [TaskWith("a", field, 2.0), TaskWith("b", field, 1.0)]
  {
    assert ["a", "b"][1..] == ["b"];
  }

  lemma OneColumn(field: string, n: Node, v: View, env: Env)
    requires Enumerates(env, v) && field in n.content
    ensures Extend(map[], [FieldExpr(FieldRef("content." + field), None)], n, v, env) == Ok(map[field := n.content[field]])
  {
    hide Enumerates, Compute;
    var name := "content." + field;
    var es := [FieldExpr(FieldRef(name), None)];
    assert "content." <= name && AfterPrefix("content.", name) == field;
    assert ColumnName(es[0]) == field;
    assert name[1] == 'o';
    assert Resolve(n, name, env) == n.content[field];
    assert es[1..] == [] && Extend(map[field := n.content[field]], [], n, v, env) == Ok(map[field := n.content[field]]);
    assert map[][field := n.content[field]] == map[field := n.content[field]];
  }

  lemma OneMoreRow(es: seq<SelectExpr>, n: Node, ns: seq<Node>, v: View, env: Env, x: Row, xs: seq<Row>)
    requires Enumerates(env, v) && Extend(map[], es, n, v, env) == Ok(x) && Project(es, ns, v, env) == Ok(xs)
    ensures Project(es, [n] + ns, v, env) == Ok([x] + xs)
  {
    hide Enumerates, Extend;
    assert ([n] + ns)[1..] == ns;
  }

  lemma TwoRows(es: seq<SelectExpr>, a: Node, b: Node, v: View, env: Env, x: Row, y: Row)
    requires Enumerates(env, v) && Extend(map[], es, a, v, env) == Ok(x) && Extend(map[], es, b, v, env) == Ok(y)
    ensures Project(es, [a, b], v, env) == Ok([x, y])
  {
    hide Enumerates, Extend;
    assert [b] + [] == [b] && [y] + [] == [y] && [a] + [b] == [a, b] && [x] + [y] == [x, y];
    assert Project(es, [], v, env) == Ok([]);
    OneMoreRow(es, b, [], v, env, y, []);
    OneMoreRow(es, a, [b], v, env, x, [y]);
  }
}
