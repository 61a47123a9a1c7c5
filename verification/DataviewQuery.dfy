/** What a query denotes: filtering, projecting, aggregating, ordering and limiting the nodes of one type.
    A query of a snapshot v runs in an environment that fixes what the program leaves to Python. */
module DataviewQuery {
  import opened Seqs
  import opened GraphModel
  import opened MemoryGraph
  import opened DataviewSyntax

  type Row = map<string, Value>

  /** current: the node `current` refers to. listing: the order in which Python iterates each type's id set.
      iso: `isoformat` of a time. toFloat: `float` of a string. mixedSort: what `list.sort` and its string
      fallback leave of rows whose sort column mixes strings with numbers. */
  datatype Env = Env(current: Option<Id>, listing: map<NodeType, seq<Id>>, iso: Time -> string,
                     toFloat: string -> Option<real>, mixedSort: (seq<Row>, string, bool) -> seq<Row>)

  ghost predicate Enumerates(env: Env, v: View) {
    forall kind: NodeType :: kind in env.listing && Distinct(env.listing[kind]) &&
      forall id :: id in env.listing[kind] <==> id in Ids(v, kind)
  }

  datatype QueryError = UnknownNodeType | StarNotSupported | NotAnAggregate

  datatype QueryResult = QueryResult(rows: seq<Row>, columns: seq<string>, aggregations: map<string, real>)

  // ----- names -----

  const KINDS := [Task, Output, Failure, Experience, Tool, User, Prompt, Schema, Decision, Feedback, Event]

  function FindKind(kinds: seq<NodeType>, name: string): Option<NodeType> {
    if kinds == [] then None
    else if TypeName(kinds[0]) == name then Some(kinds[0])
    else FindKind(kinds[1..], name)
  }

  /** Singular or plural type names, in any case. */
  function NodeTypeNamed(text: string): Option<NodeType> {
    var name := Lower(text);
    if FindKind(KINDS, name).Some? then FindKind(KINDS, name)
    else if |name| > 3 && name[|name| - 1] == 's' then FindKind(KINDS, name[..|name| - 1])
    else None
  }

  function Resolve(n: Node, name: string, env: Env): Value {
    if name == "*" then Null
    else if name == "id" then Str(n.id)
    else if name == "type" then Str(TypeName(n.kind))
    else if name == "created_at" then Str(env.iso(n.createdAt))
    else if name == "updated_at" then Str(env.iso(n.updatedAt))
    else if "content." <= name then Lookup(n.content, AfterPrefix("content.", name))
    else if "metadata." <= name then Lookup(n.metadata, AfterPrefix("metadata.", name))
    else if name in n.content then n.content[name]
    else Lookup(n.metadata, name)
  }

  function DisplayName(name: string): string {
    if "content." <= name then AfterPrefix("content.", name)
    else if "metadata." <= name then AfterPrefix("metadata.", name)
    else name
  }

  function AggName(agg: Agg): string {
    match agg
    case COUNT => "count"
    case AVG => "avg"
    case SUM => "sum"
    case MIN => "min"
    case MAX => "max"
  }

  function Named(alias: Option<string>, default: string): string {
    if alias.Some? && alias.value != "" then alias.value else default
  }

  function ColumnName(e: SelectExpr): string {
    match e
    case FieldExpr(f, alias) => Named(alias, DisplayName(f.name))
    case AggExpr(agg, f, alias, _) =>
      Named(alias, if f.name == "*" then AggName(agg) else AggName(agg) + "_" + f.name)
  }

  // ----- comparison of Python values -----

  /** Python orders two numbers or two strings and raises on anything else. */
  predicate Comparable(a: Value, b: Value) {
    (Numeric(a) && Numeric(b)) || (a.Str? && b.Str?)
  }

  predicate TextLess(a: string, b: string) {
    b != [] && (a == [] || a[0] < b[0] || (a[0] == b[0] && TextLess(a[1..], b[1..])))
  }

  predicate Less(a: Value, b: Value)
    requires Comparable(a, b)
  {
    if a.Str? then TextLess(a.s, b.s) else Number(a) < Number(b)
  }

  /** Python's `!=`. */
  predicate Differs(a: Value, b: Value) {
    match a
    case Null => b != Null
    case Str(s) => b.Str? ==> s != b.s
    case _ => Numeric(b) ==> Number(a) != Number(b)
  }

  /** Python's `<` and `<=`; None stands for a TypeError. */
  function LessThan(a: Value, b: Value): Option<bool> {
    if Comparable(a, b) then Some(Less(a, b)) else None
  }

  function AtMost(a: Value, b: Value): Option<bool> {
    if Comparable(a, b) then Some(Less(a, b) || SameValue(a, b)) else None
  }

  /** `_compare`: None answers for itself, and a TypeError counts as false. */
  predicate Compare(actual: Value, op: CmpOp, expected: Value) {
    if actual.Null? then
      match op
      case EQ => expected.Null?
      case NEQ => !expected.Null?
      case _ => false
    else
      match op
      case EQ => SameValue(actual, expected)
      case NEQ => Differs(actual, expected)
      case GT => LessThan(expected, actual) == Some(true)
      case LT => LessThan(actual, expected) == Some(true)
      case GTE => AtMost(expected, actual) == Some(true)
      case LTE => AtMost(actual, expected) == Some(true)
  }

  // ----- ordering -----

  function Cell(row: Row, column: string): Value {
    Lookup(row, column)
  }

  /** None sorts after every other value. */
  predicate KeyLeq(a: Value, b: Value) {
    b.Null? || (!a.Null? && Comparable(a, b) && !Less(b, a))
  }

  predicate RowLeq(column: string, desc: bool, a: Row, b: Row) {
    if desc then KeyLeq(Cell(b, column), Cell(a, column)) else KeyLeq(Cell(a, column), Cell(b, column))
  }

  /** All values of the column other than None compare with each other. */
  predicate OneType(rows: seq<Row>, column: string) {
    || (forall i :: 0 <= i < |rows| ==> Cell(rows[i], column).Null? || Numeric(Cell(rows[i], column)))
    || (forall i :: 0 <= i < |rows| ==> Cell(rows[i], column).Null? || Cell(rows[i], column).Str?)
  }

  function Insert(row: Row, sorted: seq<Row>, column: string, desc: bool): seq<Row> {
    if sorted == [] || RowLeq(column, desc, row, sorted[0]) then [row] + sorted
    else [sorted[0]] + Insert(row, sorted[1..], column, desc)
  }

  function StableSort(rows: seq<Row>, column: string, desc: bool): seq<Row> {
    if rows == [] then [] else Insert(rows[0], StableSort(rows[1..], column, desc), column, desc)
  }

  function Arrange(rows: seq<Row>, order: Option<OrderClause>, env: Env): seq<Row> {
    match order
    case None => rows
    case Some(OrderClause(f, desc)) =>
      if OneType(rows, f.name) then StableSort(rows, f.name, desc) else env.mixedSort(rows, f.name, desc)
  }

  function Take(rows: seq<Row>, limit: Option<nat>): seq<Row> {
    if limit.Some? && limit.value < |rows| then rows[..limit.value] else rows
  }

  // ----- aggregates -----

  function ToFloat(v: Value, env: Env): Option<real> {
    match v
    case Null => None
    case Bool(b) => Some(if b then 1.0 else 0.0)
    case Num(n) => Some(n)
    case Str(s) => env.toFloat(s)
  }

  function Floats(ns: seq<Node>, name: string, env: Env): seq<real> {
    if ns == [] then []
    else
      var f := ToFloat(Resolve(ns[0], name, env), env);
      (if f.Some? then [f.value] else []) + Floats(ns[1..], name, env)
  }

  function Total(xs: seq<real>): real {
    if xs == [] then 0.0 else xs[0] + Total(xs[1..])
  }

  function Least(xs: seq<real>): real
    requires xs != []
  {
    if |xs| == 1 || xs[0] <= Least(xs[1..]) then xs[0] else Least(xs[1..])
  }

  function Greatest(xs: seq<real>): real
    requires xs != []
  {
    if |xs| == 1 || xs[0] >= Greatest(xs[1..]) then xs[0] else Greatest(xs[1..])
  }

  function Present(name: string, env: Env): Node -> bool {
    (n: Node) => !Resolve(n, name, env).Null?
  }

  function Aggregate(agg: Agg, name: string, ns: seq<Node>, env: Env): Result<real, QueryError> {
    if agg == COUNT then
      Ok((if name == "*" then |ns| else |Filter(ns, Present(name, env))|) as real)
    else if name == "*" then Err(StarNotSupported)
    else
      var xs := Floats(ns, name, env);
      if xs == [] then Ok(0.0) else
      match agg
      case AVG => Ok(Total(xs) / |xs| as real)
      case SUM => Ok(Total(xs))
      case MIN => Ok(Least(xs))
      case MAX => Ok(Greatest(xs))
  }

  // ----- conditions and queries -----

  /** The id a STEPS FROM clause starts at; empty and missing references select nothing. */
  function Origin(ref: string, env: Env): Option<Id> {
    var target := if ref == "current" then env.current else Some(ref);
    if target.Some? && target.value != "" then target else None
  }

  /** Some cell of the rows, None aside, equals the value. */
  predicate InRows(actual: Value, rows: seq<Row>) {
    exists i, k :: 0 <= i < |rows| && k in rows[i] && rows[i][k] != Null && SameValue(actual, rows[i][k])
  }

  ghost function Matches(c: Condition, n: Node, v: View, env: Env): Result<bool, QueryError>
    requires Enumerates(env, v)
    decreases c, 0
  {
    match c
    case Comparison(f, op, value) => Ok(Compare(Resolve(n, f.name, env), op, value))
    case InClause(f, sub) =>
      var r :- Denote(sub, v, env);
      Ok(InRows(Resolve(n, f.name, env), r.rows))
    case StepsClause(depth, ref) =>
      var x := Origin(ref, env);
      Ok(x.Some? && n.id in Ball(v, x.value, depth))
  }

  ghost function Matching(c: Condition, ns: seq<Node>, v: View, env: Env): Result<seq<Node>, QueryError>
    requires Enumerates(env, v)
    decreases c, |ns| + 1
  {
    if ns == [] then Ok([]) else
    var keep :- Matches(c, ns[0], v, env);
    var rest :- Matching(c, ns[1..], v, env);
    Ok(if keep then [ns[0]] + rest else rest)
  }

  ghost function Kept(c: Option<Condition>, ns: seq<Node>, v: View, env: Env): Result<seq<Node>, QueryError>
    requires Enumerates(env, v)
    decreases c
  {
    if c.None? then Ok(ns) else Matching(c.value, ns, v, env)
  }

  ghost function Compute(e: SelectExpr, ns: seq<Node>, v: View, env: Env): Result<real, QueryError>
    requires Enumerates(env, v) && e.AggExpr?
    decreases e
  {
    var kept :- Kept(e.filter, ns, v, env);
    Aggregate(e.agg, e.field.name, kept, env)
  }

  ghost function Extend(row: Row, es: seq<SelectExpr>, n: Node, v: View, env: Env): Result<Row, QueryError>
    requires Enumerates(env, v)
    decreases es, 0
  {
    if es == [] then Ok(row) else
    match es[0]
    case FieldExpr(f, _) => Extend(row[ColumnName(es[0]) := Resolve(n, f.name, env)], es[1..], n, v, env)
    case AggExpr(_, _, _, _) =>
      var x :- Compute(es[0], [n], v, env);
      Extend(row[ColumnName(es[0]) := Num(x)], es[1..], n, v, env)
  }

  ghost function Project(es: seq<SelectExpr>, ns: seq<Node>, v: View, env: Env): Result<seq<Row>, QueryError>
    requires Enumerates(env, v)
    decreases es, |ns| + 1
  {
    if ns == [] then Ok([]) else
    var row :- Extend(map[], es, ns[0], v, env);
    var rows :- Project(es, ns[1..], v, env);
    Ok([row] + rows)
  }

  ghost function Summaries(acc: map<string, real>, es: seq<SelectExpr>, ns: seq<Node>, v: View, env: Env)
    : Result<map<string, real>, QueryError>
    requires Enumerates(env, v)
    decreases es
  {
    if es == [] then Ok(acc)
    else if !es[0].AggExpr? then Err(NotAnAggregate) else
    var x :- Compute(es[0], ns, v, env);
    Summaries(acc[ColumnName(es[0]) := x], es[1..], ns, v, env)
  }

  /** The nodes of the FROM type that satisfy WHERE. */
  ghost function Candidates(s: SelectStmt, v: View, env: Env): Result<seq<Node>, QueryError>
    requires Enumerates(env, v)
    decreases s, 0
  {
    var kind := NodeTypeNamed(s.nodeType);
    if kind.None? then Err(UnknownNodeType)
    else Kept(s.where, Listed(v.nodes, env.listing[kind.value]), v, env)
  }

  ghost function Denote(s: SelectStmt, v: View, env: Env): Result<QueryResult, QueryError>
    requires Enumerates(env, v)
    decreases s, 1
  {
    var ns :- Candidates(s, v, env);
    var columns := Map(s.exprs, ColumnName);
    if s.aggregationOnly then
      var sums :- Summaries(map[], s.exprs, ns, v, env);
      Ok(QueryResult([], columns, sums))
    else
      var rows :- Project(s.exprs, ns, v, env);
      Ok(QueryResult(Take(Arrange(rows, s.order, env), s.limit), columns, map[]))
  }
}
