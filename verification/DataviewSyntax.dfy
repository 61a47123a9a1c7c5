/** Dataview queries: tokens, the abstract syntax the parser builds, and the grammar it accepts. */
module DataviewSyntax {
  import opened Seqs
  import opened GraphModel

  type UReal = r: real | r >= 0.0 witness 0.0

  datatype Agg = COUNT | AVG | SUM | MIN | MAX

  datatype CmpOp = EQ | NEQ | GT | LT | GTE | LTE

  datatype Token =
    | SELECT | FROM | WHERE | IN | STEPS | ORDER | BY | ASC | DESC | LIMIT | AS | FILTER | AND | OR | NOT
    | DISTINCT | ALL | AGG(agg: Agg) | OP(op: CmpOp)
    | COMMA | SEMI | LPAREN | RPAREN | STAR | DOT
    | IDENT(name: string) | STRING(text: string) | NUMBER(value: UReal) | EOF

  // ----- abstract syntax (source positions left out) -----

  datatype FieldRef = FieldRef(name: string)

  datatype Condition =
    | Comparison(field: FieldRef, op: CmpOp, value: Value)
    | InClause(field: FieldRef, subquery: SelectStmt)
    | StepsClause(depth: nat, nodeRef: string)

  datatype SelectExpr =
    | AggExpr(agg: Agg, field: FieldRef, alias: Option<string>, filter: Option<Condition>)
    | FieldExpr(field: FieldRef, alias: Option<string>)

  datatype OrderClause = OrderClause(field: FieldRef, descending: bool)

  datatype SelectStmt = SelectStmt(exprs: seq<SelectExpr>, nodeType: string, where: Option<Condition>,
                                   order: Option<OrderClause>, limit: Option<nat>, aggregationOnly: bool)

  // ----- concrete syntax: one constructor field per choice the grammar leaves to the writer -----

  datatype FieldC = FieldC(head: string, tail: seq<string>)

  datatype ValueC = TextV(text: string) | NumberV(n: UReal) | WordV(word: string)

  datatype RefC = NameRef(name: string) | TextRef(text: string)

  datatype CondC =
    | CompareC(field: FieldC, op: CmpOp, value: ValueC)
    | InC(field: FieldC, sub: SelectC)
    | StepsC(count: Option<UReal>, ref: RefC)

  datatype FilterC = FilterC(cond: CondC, alias: Option<string>)

  datatype AggArg = CountAll | Over(agg: Agg, field: FieldC)

  datatype ExprC =
    | AggC(arg: AggArg, alias: Option<string>, filter: Option<FilterC>)
    | PlainC(field: FieldC, alias: Option<string>)

  /** dir is None when neither ASC nor DESC is written, Some(true) for DESC. */
  datatype OrderC = OrderC(field: FieldC, dir: Option<bool>)

  /** noise lists the DISTINCT (true) and ALL (false) keywords after SELECT. */
  datatype SelectC = SelectC(noise: seq<bool>, first: ExprC, more: seq<ExprC>, nodeType: string,
                             where: Option<CondC>, order: Option<OrderC>, limit: Option<UReal>)

  datatype QueryC = QueryC(select: SelectC, semi: bool)

  // ----- token lists -----

  /** EOF closes the list and occurs nowhere else, as in what `tokenize` returns. */
  predicate Ended(ts: seq<Token>) {
    ts != [] && ts[|ts| - 1] == EOF && forall i :: 0 <= i < |ts| - 1 ==> ts[i] != EOF
  }

  function Then(t: Token, ts: seq<Token>): (r: seq<Token>)
    ensures |r| == |ts| + 1 && r[0] == t && r[1..] == ts
    ensures Ended(ts) && t != EOF ==> Ended(r)
  {
    [t] + ts
  }

  /** The tokens after the first. */
  function Next(ts: seq<Token>): (r: seq<Token>)
    requires Ended(ts) && ts[0] != EOF
    ensures Ended(r) && |r| < |ts| && ts == Then(ts[0], r)
  {
    ts[1..]
  }

  // ----- the tokens of a concrete query, followed by `rest` -----

  function PartsTokens(parts: seq<string>, rest: seq<Token>): seq<Token> {
    if parts == [] then rest else Then(DOT, Then(IDENT(parts[0]), PartsTokens(parts[1..], rest)))
  }

  function FieldTokens(f: FieldC, rest: seq<Token>): seq<Token> {
    Then(IDENT(f.head), PartsTokens(f.tail, rest))
  }

  function AliasTokens(alias: Option<string>, rest: seq<Token>): seq<Token> {
    match alias
    case None => rest
    case Some(a) => Then(AS, Then(IDENT(a), rest))
  }

  function ValueToken(v: ValueC): Token {
    match v
    case TextV(s) => STRING(s)
    case NumberV(n) => NUMBER(n)
    case WordV(w) => IDENT(w)
  }

  function RefToken(r: RefC): Token {
    match r
    case NameRef(s) => IDENT(s)
    case TextRef(s) => STRING(s)
  }

  function CountTokens(count: Option<UReal>, rest: seq<Token>): seq<Token> {
    match count
    case None => rest
    case Some(n) => Then(NUMBER(n), rest)
  }

  function CondTokens(c: CondC, rest: seq<Token>): seq<Token>
    decreases c
  {
    match c
    case CompareC(f, op, v) => FieldTokens(f, Then(OP(op), Then(ValueToken(v), rest)))
    case InC(f, sub) => FieldTokens(f, Then(IN, Then(LPAREN, SelectTokens(sub, Then(RPAREN, rest)))))
    case StepsC(n, r) => CountTokens(n, Then(STEPS, Then(FROM, Then(RefToken(r), rest))))
  }

  function FilterTokens(f: Option<FilterC>, rest: seq<Token>): seq<Token>
    decreases f
  {
    match f
    case None => rest
    case Some(FilterC(c, alias)) =>
      Then(FILTER, Then(LPAREN, Then(WHERE, CondTokens(c, Then(RPAREN, AliasTokens(alias, rest))))))
  }

  function ArgTokens(arg: AggArg, rest: seq<Token>): seq<Token> {
    match arg
    case CountAll => Then(AGG(COUNT), Then(LPAREN, Then(STAR, Then(RPAREN, rest))))
    case Over(agg, f) => Then(AGG(agg), Then(LPAREN, FieldTokens(f, Then(RPAREN, rest))))
  }

  function ExprTokens(e: ExprC, rest: seq<Token>): seq<Token>
    decreases e
  {
    match e
    case AggC(arg, alias, filter) => ArgTokens(arg, AliasTokens(alias, FilterTokens(filter, rest)))
    case PlainC(f, alias) => FieldTokens(f, AliasTokens(alias, rest))
  }

  function MoreTokens(es: seq<ExprC>, rest: seq<Token>): seq<Token>
    decreases es
  {
    if es == [] then rest else Then(COMMA, ExprTokens(es[0], MoreTokens(es[1..], rest)))
  }

  function NoiseTokens(noise: seq<bool>, rest: seq<Token>): seq<Token> {
    if noise == [] then rest else Then(if noise[0] then DISTINCT else ALL, NoiseTokens(noise[1..], rest))
  }

  function WhereTokens(w: Option<CondC>, rest: seq<Token>): seq<Token>
    decreases w
  {
    match w
    case None => rest
    case Some(c) => Then(WHERE, CondTokens(c, rest))
  }

  function DirTokens(dir: Option<bool>, rest: seq<Token>): seq<Token> {
    match dir
    case None => rest
    case Some(desc) => Then(if desc then DESC else ASC, rest)
  }

  function OrderTokens(o: Option<OrderC>, rest: seq<Token>): seq<Token> {
    match o
    case None => rest
    case Some(OrderC(f, dir)) => Then(ORDER, Then(BY, FieldTokens(f, DirTokens(dir, rest))))
  }

  function LimitTokens(limit: Option<UReal>, rest: seq<Token>): seq<Token> {
    match limit
    case None => rest
    case Some(n) => Then(LIMIT, Then(NUMBER(n), rest))
  }

  function SelectTokens(s: SelectC, rest: seq<Token>): seq<Token>
    decreases s
  {
    Then(SELECT, NoiseTokens(s.noise, ExprTokens(s.first, MoreTokens(s.more,
      Then(FROM, Then(IDENT(s.nodeType),
        WhereTokens(s.where, OrderTokens(s.order, LimitTokens(s.limit, rest)))))))))
  }

  function QueryTokens(q: QueryC): seq<Token> {
    SelectTokens(q.select, if q.semi then Then(SEMI, [EOF]) else [EOF])
  }

  // ----- the meaning of a concrete query -----

  function Join(head: string, tail: seq<string>): string
    decreases |tail|
  {
    if tail == [] then head else Join(head + "." + tail[0], tail[1..])
  }

  function LowerChar(c: char): char {
    if 'A' <= c <= 'Z' then c - 'A' + 'a' else c
  }

  function Lower(s: string): string {
    Map(s, LowerChar)
  }

  function AbsField(f: FieldC): FieldRef {
    FieldRef(Join(f.head, f.tail))
  }

  function AbsValue(v: ValueC): Value {
    match v
    case TextV(s) => Str(s)
    case NumberV(n) => Num(n)
    case WordV(w) =>
      if Lower(w) == "true" then Bool(true)
      else if Lower(w) == "false" then Bool(false)
      else if Lower(w) == "null" then Null
      else Str(w)
  }

  function AbsRef(r: RefC): string {
    match r
    case NameRef(s) => s
    case TextRef(s) => s
  }

  function AbsCond(c: CondC): Condition
    decreases c
  {
    match c
    case CompareC(f, op, v) => Comparison(AbsField(f), op, AbsValue(v))
    case InC(f, sub) => InClause(AbsField(f), AbsSelect(sub))
    case StepsC(n, r) => StepsClause(if n.None? then 1 else n.value.Floor, AbsRef(r))
  }

  function AbsFilter(f: Option<FilterC>): Option<Condition>
    decreases f
  {
    match f
    case None => None
    case Some(FilterC(c, _)) => Some(AbsCond(c))
  }

  /** An alias written after FILTER replaces one written before it. */
  function AbsAlias(alias: Option<string>, f: Option<FilterC>): Option<string> {
    if f.Some? && f.value.alias.Some? then f.value.alias else alias
  }

  function AbsExpr(e: ExprC): SelectExpr
    decreases e
  {
    match e
    case AggC(CountAll, alias, f) => AggExpr(COUNT, FieldRef("*"), AbsAlias(alias, f), AbsFilter(f))
    case AggC(Over(agg, field), alias, f) => AggExpr(agg, AbsField(field), AbsAlias(alias, f), AbsFilter(f))
    case PlainC(field, alias) => FieldExpr(AbsField(field), alias)
  }

  function AbsMore(es: seq<ExprC>): (r: seq<SelectExpr>)
    ensures |r| == |es|
    decreases es
  {
    if es == [] then [] else [AbsExpr(es[0])] + AbsMore(es[1..])
  }

  function AbsWhere(w: Option<CondC>): Option<Condition>
    decreases w
  {
    match w
    case None => None
    case Some(c) => Some(AbsCond(c))
  }

  function AbsOrder(o: Option<OrderC>): Option<OrderClause> {
    match o
    case None => None
    case Some(OrderC(f, dir)) => Some(OrderClause(AbsField(f), dir == Some(true)))
  }

  predicate AllAggregates(es: seq<SelectExpr>) {
    forall i :: 0 <= i < |es| ==> es[i].AggExpr?
  }

  function AbsSelect(s: SelectC): SelectStmt
    decreases s
  {
    var exprs := [AbsExpr(s.first)] + AbsMore(s.more);
    SelectStmt(exprs, s.nodeType, AbsWhere(s.where), AbsOrder(s.order),
               if s.limit.None? then None else Some(s.limit.value.Floor), AllAggregates(exprs))
  }
}
