/** Recursive descent over a token list that ends in EOF, producing concrete syntax. This is the
    specification the imperative parser meets; the grammar theorems are about it. */
module DataviewGrammar {
  import opened Seqs
  import opened DataviewSyntax

  /** How many tokens were left, the offending one included. */
  datatype SyntaxError = SyntaxError(left: nat)

  /** What remains of `all` after reading some tokens. */
  predicate Tail(all: seq<Token>, ts: seq<Token>) {
    Ended(ts) && |ts| <= |all|
  }

  type Parsed<+C> = Result<(C, seq<Token>), SyntaxError>

  predicate Shrinks<C>(ts: seq<Token>, p: Parsed<C>) {
    p.Ok? ==> Ended(p.value.1) && |p.value.1| < |ts|
  }

  function Expect(ts: seq<Token>, t: Token): (r: Result<seq<Token>, SyntaxError>)
    requires Ended(ts) && t != EOF
    ensures r.Ok? ==> Ended(r.value) && ts == Then(t, r.value)
  {
    if ts[0] == t then Ok(Next(ts)) else Err(SyntaxError(|ts|))
  }

  function ParseIdent(ts: seq<Token>): (r: Parsed<string>)
    requires Ended(ts)
    ensures Shrinks(ts, r)
  {
    if ts[0].IDENT? then Ok((ts[0].name, Next(ts))) else Err(SyntaxError(|ts|))
  }

  function ParseParts(ts: seq<Token>): (r: Parsed<seq<string>>)
    requires Ended(ts)
    ensures r.Ok? ==> Tail(ts, r.value.1)
    decreases |ts|
  {
    if ts[0] != DOT then Ok(([], ts)) else
    var (part, ts) :- ParseIdent(Next(ts));
    var (more, ts) :- ParseParts(ts);
    Ok(([part] + more, ts))
  }

  function ParseField(ts: seq<Token>): (r: Parsed<FieldC>)
    requires Ended(ts)
    ensures Shrinks(ts, r)
  {
    var (head, ts) :- ParseIdent(ts);
    var (tail, ts) :- ParseParts(ts);
    Ok((FieldC(head, tail), ts))
  }

  function ParseAlias(ts: seq<Token>): (r: Parsed<Option<string>>)
    requires Ended(ts)
    ensures r.Ok? ==> Tail(ts, r.value.1)
  {
    if ts[0] != AS then Ok((None, ts)) else
    var (a, ts) :- ParseIdent(Next(ts));
    Ok((Some(a), ts))
  }

  function ParseValue(ts: seq<Token>): (r: Parsed<ValueC>)
    requires Ended(ts)
    ensures Shrinks(ts, r)
  {
    match ts[0]
    case STRING(s) => Ok((TextV(s), Next(ts)))
    case NUMBER(n) => Ok((NumberV(n), Next(ts)))
    case IDENT(w) => Ok((WordV(w), Next(ts)))
    case _ => Err(SyntaxError(|ts|))
  }

  function ParseRef(ts: seq<Token>): (r: Parsed<RefC>)
    requires Ended(ts)
    ensures Shrinks(ts, r)
  {
    match ts[0]
    case STRING(s) => Ok((TextRef(s), Next(ts)))
    case IDENT(s) => Ok((NameRef(s), Next(ts)))
    case _ => Err(SyntaxError(|ts|))
  }

  function ParseSteps(ts: seq<Token>): (r: Parsed<CondC>)
    requires Ended(ts)
    ensures Shrinks(ts, r)
  {
    var count := if ts[0].NUMBER? then Some(ts[0].value) else None;
    var ts :- Expect(if ts[0].NUMBER? then Next(ts) else ts, STEPS);
    var ts :- Expect(ts, FROM);
    var (ref, ts) :- ParseRef(ts);
    Ok((StepsC(count, ref), ts))
  }

  predicate StartsSteps(ts: seq<Token>)
    requires Ended(ts)
  {
    ts[0] == STEPS || (ts[0].NUMBER? && ts[1] == STEPS)
  }

  function ParseCond(ts: seq<Token>): (r: Parsed<CondC>)
    requires Ended(ts)
    ensures Shrinks(ts, r)
    decreases |ts|
  {
    if StartsSteps(ts) then ParseSteps(ts) else
    var (f, ts) :- ParseField(ts);
    if ts[0] == IN then
      var ts :- Expect(Next(ts), LPAREN);
      var (sub, ts) :- ParseSelect(ts);
      var ts :- Expect(ts, RPAREN);
      Ok((InC(f, sub), ts))
    else if ts[0].OP? then
      var op := ts[0].op;
      var (v, ts) :- ParseValue(Next(ts));
      Ok((CompareC(f, op, v), ts))
    else Err(SyntaxError(|ts|))
  }

  /** What follows the keyword FILTER: `(WHERE cond)`. */
  function ParseGuard(ts: seq<Token>): (r: Parsed<CondC>)
    requires Ended(ts)
    ensures Shrinks(ts, r)
    decreases |ts|
  {
    var ts :- Expect(ts, LPAREN);
    var ts :- Expect(ts, WHERE);
    var (c, ts) :- ParseCond(ts);
    var ts :- Expect(ts, RPAREN);
    Ok((c, ts))
  }

  function ParseFilter(ts: seq<Token>): (r: Parsed<Option<FilterC>>)
    requires Ended(ts)
    ensures r.Ok? ==> Tail(ts, r.value.1)
    decreases |ts|
  {
    if ts[0] != FILTER then Ok((None, ts)) else
    var (c, ts) :- ParseGuard(Next(ts));
    var (alias, ts) :- ParseAlias(ts);
    Ok((Some(FilterC(c, alias)), ts))
  }

  /** From the token after the aggregate keyword; `*` is for COUNT only, and the error for it points at the keyword. */
  function ParseArg(agg: Agg, ts: seq<Token>): (r: Parsed<AggArg>)
    requires Ended(ts)
    ensures Shrinks(ts, r)
  {
    var keyword := |ts| + 1;
    var ts :- Expect(ts, LPAREN);
    if ts[0] == STAR then
      if agg != COUNT then Err(SyntaxError(keyword)) else
      var ts :- Expect(Next(ts), RPAREN);
      Ok((CountAll, ts))
    else
      var (f, ts) :- ParseField(ts);
      var ts :- Expect(ts, RPAREN);
      Ok((Over(agg, f), ts))
  }

  function ParseExpr(ts: seq<Token>): (r: Parsed<ExprC>)
    requires Ended(ts)
    ensures Shrinks(ts, r)
    decreases |ts|
  {
    if ts[0].AGG? then
      var (arg, ts) :- ParseArg(ts[0].agg, Next(ts));
      var (alias, ts) :- ParseAlias(ts);
      var (filter, ts) :- ParseFilter(ts);
      Ok((AggC(arg, alias, filter), ts))
    else
      var (f, ts) :- ParseField(ts);
      var (alias, ts) :- ParseAlias(ts);
      Ok((PlainC(f, alias), ts))
  }

  function ParseMore(ts: seq<Token>): (r: Parsed<seq<ExprC>>)
    requires Ended(ts)
    ensures r.Ok? ==> Tail(ts, r.value.1)
    decreases |ts|
  {
    if ts[0] != COMMA then Ok(([], ts)) else
    var (e, ts) :- ParseExpr(Next(ts));
    var (es, ts) :- ParseMore(ts);
    Ok(([e] + es, ts))
  }

  function ParseNoise(ts: seq<Token>): (r: (seq<bool>, seq<Token>))
    requires Ended(ts)
    ensures Tail(ts, r.1)
    decreases |ts|
  {
    if ts[0] != DISTINCT && ts[0] != ALL then ([], ts) else
    var (noise, rest) := ParseNoise(Next(ts));
    ([ts[0] == DISTINCT] + noise, rest)
  }

  function ParseWhere(ts: seq<Token>): (r: Parsed<Option<CondC>>)
    requires Ended(ts)
    ensures r.Ok? ==> Tail(ts, r.value.1)
    decreases |ts|
  {
    if ts[0] != WHERE then Ok((None, ts)) else
    var (c, ts) :- ParseCond(Next(ts));
    Ok((Some(c), ts))
  }

  function ParseDir(ts: seq<Token>): (r: (Option<bool>, seq<Token>))
    requires Ended(ts)
    ensures Tail(ts, r.1)
  {
    if ts[0] == DESC then (Some(true), Next(ts))
    else if ts[0] == ASC then (Some(false), Next(ts))
    else (None, ts)
  }

  function ParseOrder(ts: seq<Token>): (r: Parsed<Option<OrderC>>)
    requires Ended(ts)
    ensures r.Ok? ==> Tail(ts, r.value.1)
  {
    if ts[0] != ORDER then Ok((None, ts)) else
    var ts :- Expect(Next(ts), BY);
    var (f, ts) :- ParseField(ts);
    var (dir, ts) := ParseDir(ts);
    Ok((Some(OrderC(f, dir)), ts))
  }

  function ParseLimit(ts: seq<Token>): (r: Parsed<Option<UReal>>)
    requires Ended(ts)
    ensures r.Ok? ==> Tail(ts, r.value.1)
  {
    if ts[0] != LIMIT then Ok((None, ts))
    else if ts[1].NUMBER? then Ok((Some(ts[1].value), Next(Next(ts))))
    else Err(SyntaxError(|ts| - 1))
  }

  function ParseSelect(ts: seq<Token>): (r: Parsed<SelectC>)
    requires Ended(ts)
    ensures Shrinks(ts, r)
    decreases |ts|
  {
    var ts :- Expect(ts, SELECT);
    var (noise, ts) := ParseNoise(ts);
    var (first, ts) :- ParseExpr(ts);
    var (more, ts) :- ParseMore(ts);
    var ts :- Expect(ts, FROM);
    var (nodeType, ts) :- ParseIdent(ts);
    var (where, ts) :- ParseWhere(ts);
    var (order, ts) :- ParseOrder(ts);
    var (limit, ts) :- ParseLimit(ts);
    Ok((SelectC(noise, first, more, nodeType, where, order, limit), ts))
  }

  function ParseQuery(ts: seq<Token>): (r: Result<QueryC, SyntaxError>)
    requires Ended(ts)
  {
    var (select, ts) :- ParseSelect(ts);
    var semi := ts[0] == SEMI;
    var ts := if semi then Next(ts) else ts;
    if ts[0] == EOF then Ok(QueryC(select, semi)) else Err(SyntaxError(|ts|))
  }
}
