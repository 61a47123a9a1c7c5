/** The parser accepts exactly the grammar, and printing a query undoes parsing it. */
module DataviewTheorems {
  import opened Seqs
  import opened GraphModel
  import opened DataviewSyntax
  import opened DataviewGrammar

  // ----- soundness: what was parsed is what was read -----

  lemma {:induction false} PartsSound(ts: seq<Token>)
    requires Ended(ts) && ParseParts(ts).Ok?
    ensures ts == PartsTokens(ParseParts(ts).value.0, ParseParts(ts).value.1)
    decreases |ts|
  {
    hide Then;
    if ts[0] == DOT {
      PartsSound(Next(Next(ts)));
    }
  }

  lemma {:induction false} FieldSound(ts: seq<Token>)
    requires Ended(ts) && ParseField(ts).Ok?
    ensures ts == FieldTokens(ParseField(ts).value.0, ParseField(ts).value.1)
  {
    hide Then;
    PartsSound(Next(ts));
  }

  lemma {:induction false} AliasSound(ts: seq<Token>)
    requires Ended(ts) && ParseAlias(ts).Ok?
    ensures ts == AliasTokens(ParseAlias(ts).value.0, ParseAlias(ts).value.1)
  {
    hide Then;
  }

  lemma RefSound(ts: seq<Token>)
    requires Ended(ts) && ParseRef(ts).Ok?
    ensures ts == Then(RefToken(ParseRef(ts).value.0), ParseRef(ts).value.1)
  {
    hide Then;
  }

  lemma {:induction false} StepsSound(ts: seq<Token>)
    requires Ended(ts) && ParseSteps(ts).Ok?
    ensures ts == CondTokens(ParseSteps(ts).value.0, ParseSteps(ts).value.1)
  {
    hide Then, Expect, ParseRef, RefToken, FieldTokens, SelectTokens;
    var t1 := Expect(if ts[0].NUMBER? then Next(ts) else ts, STEPS).value;
    RefSound(Expect(t1, FROM).value);
  }

  lemma {:induction false} CondSound(ts: seq<Token>)
    requires Ended(ts) && ParseCond(ts).Ok?
    ensures ts == CondTokens(ParseCond(ts).value.0, ParseCond(ts).value.1)
    decreases |ts|
  {
    hide Then, Expect, ParseField, FieldTokens, ParseSelect, SelectTokens, ParseSteps;
    if StartsSteps(ts) {
      StepsSound(ts);
    } else {
      FieldSound(ts);
      var t1 := ParseField(ts).value.1;
      if t1[0] == IN {
        var t2 := Expect(Next(t1), LPAREN).value;
        SelectSound(t2);
      }
    }
  }

  lemma {:induction false} GuardSound(ts: seq<Token>)
    requires Ended(ts) && ParseGuard(ts).Ok?
    ensures var (c, rest) := ParseGuard(ts).value; ts == Then(LPAREN, Then(WHERE, CondTokens(c, Then(RPAREN, rest))))
    decreases |ts|
  {
    hide Then, Expect, ParseCond, CondTokens;
    var t1 := Expect(ts, LPAREN).value;
    var t2 := Expect(t1, WHERE).value;
    CondSound(t2);
  }

  lemma {:induction false} FilterSound(ts: seq<Token>)
    requires Ended(ts) && ParseFilter(ts).Ok?
    ensures ts == FilterTokens(ParseFilter(ts).value.0, ParseFilter(ts).value.1)
    decreases |ts|
  {
    hide Then, ParseGuard, CondTokens, ParseAlias, AliasTokens;
    if ts[0] == FILTER {
      GuardSound(Next(ts));
      AliasSound(ParseGuard(Next(ts)).value.1);
    }
  }

  lemma {:induction false} ArgSound(agg: Agg, ts: seq<Token>)
    requires Ended(ts)
    ensures var p := ParseArg(agg, ts);
      p.Ok? ==> Then(AGG(agg), ts) == ArgTokens(p.value.0, p.value.1)
  {
    hide Then, Expect, ParseField, FieldTokens;
    if ParseArg(agg, ts).Ok? {
      var t1 := Expect(ts, LPAREN).value;
      if t1[0] != STAR {
        FieldSound(t1);
      }
    }
  }

  lemma {:induction false} ExprSound(ts: seq<Token>)
    requires Ended(ts) && ParseExpr(ts).Ok?
    ensures ts == ExprTokens(ParseExpr(ts).value.0, ParseExpr(ts).value.1)
    decreases |ts|
  {
    hide Then, ParseArg, ArgTokens, ParseAlias, AliasTokens, ParseFilter, FilterTokens, ParseField, FieldTokens;
    if ts[0].AGG? {
      ArgSound(ts[0].agg, Next(ts));
      var t1 := ParseArg(ts[0].agg, Next(ts)).value.1;
      AliasSound(t1);
      FilterSound(ParseAlias(t1).value.1);
    } else {
      FieldSound(ts);
      AliasSound(ParseField(ts).value.1);
    }
  }

  lemma {:induction false} MoreSound(ts: seq<Token>)
    requires Ended(ts) && ParseMore(ts).Ok?
    ensures ts == MoreTokens(ParseMore(ts).value.0, ParseMore(ts).value.1)
    decreases |ts|
  {
    hide Then, ParseExpr, ExprTokens;
    if ts[0] == COMMA {
      ExprSound(Next(ts));
      MoreSound(ParseExpr(Next(ts)).value.1);
    }
  }

  lemma {:induction false} NoiseSound(ts: seq<Token>)
    requires Ended(ts)
    ensures ts == NoiseTokens(ParseNoise(ts).0, ParseNoise(ts).1)
    decreases |ts|
  {
    hide Then;
    if ts[0] == DISTINCT || ts[0] == ALL {
      NoiseSound(Next(ts));
    }
  }

  lemma {:induction false} OrderSound(ts: seq<Token>)
    requires Ended(ts) && ParseOrder(ts).Ok?
    ensures ts == OrderTokens(ParseOrder(ts).value.0, ParseOrder(ts).value.1)
  {
    hide Then, Expect, ParseField, FieldTokens;
    if ts[0] == ORDER {
      FieldSound(Expect(Next(ts), BY).value);
    }
  }

  lemma {:induction false} LimitSound(ts: seq<Token>)
    requires Ended(ts)
    ensures var p := ParseLimit(ts); p.Ok? ==> ts == LimitTokens(p.value.0, p.value.1)
  {
    hide Then;
    assert ts[0] != EOF ==> ts[1] == Next(ts)[0];
  }

  lemma {:induction false} WhereSound(ts: seq<Token>)
    requires Ended(ts) && ParseWhere(ts).Ok?
    ensures ts == WhereTokens(ParseWhere(ts).value.0, ParseWhere(ts).value.1)
    decreases |ts|, 1
  {
    hide Then, ParseCond, CondTokens;
    if ts[0] == WHERE {
      CondSound(Next(ts));
    }
  }

  lemma {:induction false} SelectSound(ts: seq<Token>)
    requires Ended(ts)
    ensures var p := ParseSelect(ts); p.Ok? ==> ts == SelectTokens(p.value.0, p.value.1)
    decreases |ts|
  {
    hide Then, Expect, ParseNoise, NoiseTokens, ParseExpr, ExprTokens, ParseMore, MoreTokens, ParseWhere, WhereTokens;
    hide ParseOrder, OrderTokens, ParseLimit, LimitTokens;
    if ParseSelect(ts).Ok? {
      var t1 := Expect(ts, SELECT).value;
      NoiseSound(t1);
      var t2 := ParseNoise(t1).1;
      ExprSound(t2);
      var t3 := ParseExpr(t2).value.1;
      MoreSound(t3);
      var t4 := Expect(ParseMore(t3).value.1, FROM).value;
      var t5 := ParseIdent(t4).value.1;
      WhereSound(t5);
      var t6 := ParseWhere(t5).value.1;
      OrderSound(t6);
      LimitSound(ParseOrder(t6).value.1);
    }
  }

  // ----- completeness: every rendering parses back to what it renders -----

  lemma {:induction false} PartsComplete(parts: seq<string>, rest: seq<Token>)
    requires Ended(rest) && rest[0] != DOT
    ensures var ts := PartsTokens(parts, rest); Ended(ts) && ParseParts(ts) == Ok((parts, rest))
  {
    hide Ended, Then;
    if parts != [] {
      PartsComplete(parts[1..], rest);
      assert parts == [parts[0]] + parts[1..];
    }
  }

  lemma {:induction false} FieldComplete(f: FieldC, rest: seq<Token>)
    requires Ended(rest) && rest[0] != DOT
    ensures var ts := FieldTokens(f, rest); Ended(ts) && ts[0].IDENT? && ParseField(ts) == Ok((f, rest))
  {
    hide Ended, Then;
    PartsComplete(f.tail, rest);
  }

  lemma {:induction false} AliasComplete(alias: Option<string>, rest: seq<Token>)
    requires Ended(rest) && rest[0] != AS
    ensures var ts := AliasTokens(alias, rest);
      Ended(ts) && ParseAlias(ts) == Ok((alias, rest)) && (ts[0] == AS || ts == rest)
  {
    hide Ended, Then;
  }

  lemma {:induction false} StepsComplete(count: Option<UReal>, ref: RefC, rest: seq<Token>)
    requires Ended(rest)
    ensures var ts := CondTokens(StepsC(count, ref), rest);
      Ended(ts) && StartsSteps(ts) && ParseSteps(ts) == Ok((StepsC(count, ref), rest))
  {
    hide Ended, Then;
    var t1 := Then(STEPS, Then(FROM, Then(RefToken(ref), rest)));
    if count.Some? {
      assert Next(CountTokens(count, t1)) == t1;
    }
  }

  lemma {:induction false} CondComplete(c: CondC, rest: seq<Token>)
    requires Ended(rest)
    ensures var ts := CondTokens(c, rest); Ended(ts) && ParseCond(ts) == Ok((c, rest))
    decreases c
  {
    hide Ended, Then, ParseField, FieldTokens, ParseSelect, SelectTokens, ParseSteps;
    match c
    case StepsC(count, ref) => StepsComplete(count, ref, rest);
    case CompareC(f, op, v) => FieldComplete(f, Then(OP(op), Then(ValueToken(v), rest)));
    case InC(f, sub) =>
      SelectComplete(sub, Then(RPAREN, rest));
      FieldComplete(f, Then(IN, Then(LPAREN, SelectTokens(sub, Then(RPAREN, rest)))));
  }

  lemma {:induction false} FilterComplete(f: Option<FilterC>, rest: seq<Token>)
    requires Ended(rest) && rest[0] != FILTER && rest[0] != AS
    ensures var ts := FilterTokens(f, rest);
      Ended(ts) && ts[0] != AS && ParseFilter(ts) == Ok((f, rest))
    decreases f
  {
    hide Ended, Then, ParseGuard, CondTokens, ParseAlias, AliasTokens;
    if f.Some? {
      AliasComplete(f.value.alias, rest);
      CondComplete(f.value.cond, Then(RPAREN, AliasTokens(f.value.alias, rest)));
      GuardComplete(f.value.cond, AliasTokens(f.value.alias, rest));
    }
  }

  lemma GuardComplete(c: CondC, rest: seq<Token>)
    requires Ended(rest) && Ended(CondTokens(c, Then(RPAREN, rest)))
    requires ParseCond(CondTokens(c, Then(RPAREN, rest))) == Ok((c, Then(RPAREN, rest)))
    ensures var ts := Then(LPAREN, Then(WHERE, CondTokens(c, Then(RPAREN, rest))));
      Ended(ts) && ParseGuard(ts) == Ok((c, rest))
  {
    hide Ended, Then, ParseCond, CondTokens;
  }

  lemma {:induction false} ArgComplete(arg: AggArg, rest: seq<Token>)
    requires Ended(rest)
    ensures var ts := ArgTokens(arg, rest);
      && Ended(ts) && ts[0].AGG? && Ended(Next(ts)) && ParseArg(ts[0].agg, Next(ts)) == Ok((arg, rest))
  {
    hide Ended, Then, ParseField, FieldTokens;
    if arg.Over? {
      FieldComplete(arg.field, Then(RPAREN, rest));
    }
  }

  lemma {:induction false} ExprComplete(e: ExprC, rest: seq<Token>)
    requires Ended(rest) && (rest[0] == COMMA || rest[0] == FROM)
    ensures var ts := ExprTokens(e, rest);
      Ended(ts) && ts[0] != DISTINCT && ts[0] != ALL && ParseExpr(ts) == Ok((e, rest))
    decreases e
  {
    hide Ended, Then, ParseArg, ArgTokens, ParseAlias, AliasTokens, ParseFilter, FilterTokens, ParseField, FieldTokens;
    match e
    case AggC(arg, alias, filter) =>
      FilterComplete(filter, rest);
      AliasComplete(alias, FilterTokens(filter, rest));
      ArgComplete(arg, AliasTokens(alias, FilterTokens(filter, rest)));
    case PlainC(f, alias) =>
      AliasComplete(alias, rest);
      FieldComplete(f, AliasTokens(alias, rest));
  }

  lemma {:induction false} MoreComplete(es: seq<ExprC>, rest: seq<Token>)
    requires Ended(rest) && rest[0] == FROM
    ensures var ts := MoreTokens(es, rest);
      Ended(ts) && (ts[0] == COMMA || ts[0] == FROM) && ParseMore(ts) == Ok((es, rest))
    decreases es
  {
    hide Ended, Then, ParseExpr, ExprTokens;
    if es != [] {
      MoreComplete(es[1..], rest);
      ExprComplete(es[0], MoreTokens(es[1..], rest));
      assert es == [es[0]] + es[1..];
    }
  }

  lemma {:induction false} NoiseComplete(noise: seq<bool>, rest: seq<Token>)
    requires Ended(rest) && rest[0] != DISTINCT && rest[0] != ALL
    ensures var ts := NoiseTokens(noise, rest); Ended(ts) && ParseNoise(ts) == (noise, rest)
  {
    hide Ended, Then;
    if noise != [] {
      NoiseComplete(noise[1..], rest);
      assert noise == [noise[0]] + noise[1..];
    }
  }

  predicate EndsSelect(t: Token) {
    t == RPAREN || t == SEMI || t == EOF
  }

  lemma {:induction false} LimitComplete(limit: Option<UReal>, rest: seq<Token>)
    requires Ended(rest) && EndsSelect(rest[0])
    ensures var ts := LimitTokens(limit, rest);
      Ended(ts) && (ts[0] == LIMIT || EndsSelect(ts[0])) && ParseLimit(ts) == Ok((limit, rest))
  {
    hide Ended, Then;
    if limit.Some? {
      var ts := LimitTokens(limit, rest);
      assert ts[1] == ts[1..][0];
    }
  }

  lemma {:induction false} OrderComplete(o: Option<OrderC>, rest: seq<Token>)
    requires Ended(rest) && (rest[0] == LIMIT || EndsSelect(rest[0]))
    ensures var ts := OrderTokens(o, rest);
      Ended(ts) && (ts[0] == ORDER || ts == rest) && ParseOrder(ts) == Ok((o, rest))
  {
    hide Ended, Then, ParseField, FieldTokens;
    if o.Some? {
      FieldComplete(o.value.field, DirTokens(o.value.dir, rest));
    }
  }

  lemma {:induction false} WhereComplete(w: Option<CondC>, rest: seq<Token>)
    requires Ended(rest) && rest[0] != WHERE
    ensures var ts := WhereTokens(w, rest); Ended(ts) && ParseWhere(ts) == Ok((w, rest))
    decreases w
  {
    hide Ended, Then, ParseCond, CondTokens;
    if w.Some? {
      CondComplete(w.value, rest);
    }
  }

  lemma {:induction false} SelectComplete(s: SelectC, rest: seq<Token>)
    requires Ended(rest) && EndsSelect(rest[0])
    ensures var ts := SelectTokens(s, rest); Ended(ts) && ParseSelect(ts) == Ok((s, rest))
    decreases s
  {
    hide Ended, Then, ParseNoise, NoiseTokens, ParseExpr, ExprTokens, ParseMore, MoreTokens, ParseWhere, WhereTokens;
    hide ParseOrder, OrderTokens, ParseLimit, LimitTokens, Tail, Shrinks;
    var t5 := LimitTokens(s.limit, rest);
    LimitComplete(s.limit, rest);
    var t4 := OrderTokens(s.order, t5);
    OrderComplete(s.order, t5);
    var t3 := Then(FROM, Then(IDENT(s.nodeType), WhereTokens(s.where, t4)));
    WhereComplete(s.where, t4);
    var t2 := MoreTokens(s.more, t3);
    MoreComplete(s.more, t3);
    var t1 := ExprTokens(s.first, t2);
    ExprComplete(s.first, t2);
    NoiseComplete(s.noise, t1);
  }

  lemma {:induction false} QuerySound(ts: seq<Token>)
    requires Ended(ts)
    ensures ParseQuery(ts).Ok? ==> ts == QueryTokens(ParseQuery(ts).value)
  {
    hide SelectTokens, ParseSelect, Then;
    if ParseQuery(ts).Ok? {
      SelectSound(ts);
      var rest := ParseSelect(ts).value.1;
      var end := if rest[0] == SEMI then Next(rest) else rest;
      assert end == [EOF];
    }
  }

  /** The parser accepts exactly the token lists the grammar renders, and recovers which query it was. */
  lemma {:induction false} ParsesExactlyTheGrammar(ts: seq<Token>, q: QueryC)
    requires Ended(ts)
    ensures ParseQuery(ts) == Ok(q) <==> ts == QueryTokens(q)
  {
    hide SelectTokens, ParseSelect, Then;
    if ParseQuery(ts) == Ok(q) {
      QuerySound(ts);
    }
    if ts == QueryTokens(q) {
      SelectComplete(q.select, if q.semi then Then(SEMI, [EOF]) else [EOF]);
    }
  }

  // ----- the abstract view: print and parse -----

  /** What `Parser(tokens).parse()` returns. */
  function Parse(ts: seq<Token>): Result<SelectStmt, SyntaxError>
    requires Ended(ts)
  {
    var q :- ParseQuery(ts);
    Ok(AbsSelect(q.select))
  }

  function Split(name: string): FieldC {
    if name == "" || name[0] == '.' then
      if name == "" then FieldC("", [])
      else var f := Split(name[1..]); FieldC("", [f.head] + f.tail)
    else
      var f := Split(name[1..]); FieldC([name[0]] + f.head, f.tail)
  }

  lemma {:induction false} JoinPrefix(p: string, head: string, tail: seq<string>)
    ensures Join(p + head, tail) == p + Join(head, tail)
    decreases |tail|
  {
    if tail != [] {
      JoinPrefix(p, head + "." + tail[0], tail[1..]);
      assert p + (head + "." + tail[0]) == p + head + "." + tail[0];
    }
  }

  lemma {:induction false} JoinSplit(name: string)
    ensures Join(Split(name).head, Split(name).tail) == name
  {
    if name != "" {
      var f := Split(name[1..]);
      JoinSplit(name[1..]);
      assert name == [name[0]] + name[1..];
      if name[0] == '.' {
        assert ([f.head] + f.tail)[1..] == f.tail;
        assert "" + "." + f.head == "." + f.head;
        JoinPrefix(".", f.head, f.tail);
      } else {
        JoinPrefix([name[0]], f.head, f.tail);
      }
    }
  }

  predicate GoodCond(c: Condition)
    decreases c
  {
    match c
    case Comparison(_, _, v) => v.Num? ==> v.n >= 0.0
    case InClause(_, sub) => GoodSelect(sub)
    case StepsClause(_, _) => true
  }

  predicate GoodExpr(e: SelectExpr)
    decreases e
  {
    e.AggExpr? && e.filter.Some? ==> GoodCond(e.filter.value)
  }

  predicate GoodExprs(es: seq<SelectExpr>)
    decreases es
  {
    es != [] ==> GoodExpr(es[0]) && GoodExprs(es[1..])
  }

  /** No negative literals (the lexer has none), at least one select expression, and the flag right. */
  predicate GoodSelect(s: SelectStmt)
    decreases s
  {
    && s.exprs != [] && GoodExprs(s.exprs) && s.aggregationOnly == AllAggregates(s.exprs)
    && (s.where.Some? ==> GoodCond(s.where.value))
  }

  function CanonValue(v: Value): ValueC
    requires v.Num? ==> v.n >= 0.0
  {
    match v
    case Null => WordV("null")
    case Bool(b) => WordV(if b then "true" else "false")
    case Num(n) => NumberV(n)
    case Str(s) => TextV(s)
  }

  function CanonCond(c: Condition): CondC
    requires GoodCond(c)
    decreases c
  {
    match c
    case Comparison(f, op, v) => CompareC(Split(f.name), op, CanonValue(v))
    case InClause(f, sub) => InC(Split(f.name), CanonSelect(sub))
    case StepsClause(n, ref) => StepsC(Some(n as real), TextRef(ref))
  }

  function CanonExpr(e: SelectExpr): ExprC
    requires GoodExpr(e)
    decreases e
  {
    match e
    case FieldExpr(f, alias) => PlainC(Split(f.name), alias)
    case AggExpr(agg, f, alias, filter) =>
      AggC(if agg == COUNT && f.name == "*" then CountAll else Over(agg, Split(f.name)), alias,
           if filter.None? then None else Some(FilterC(CanonCond(filter.value), None)))
  }

  function CanonExprs(es: seq<SelectExpr>): (r: seq<ExprC>)
    requires GoodExprs(es)
    ensures |r| == |es|
    decreases es
  {
    if es == [] then [] else [CanonExpr(es[0])] + CanonExprs(es[1..])
  }

  function CanonOrder(o: Option<OrderClause>): Option<OrderC> {
    match o
    case None => None
    case Some(OrderClause(f, desc)) => Some(OrderC(Split(f.name), if desc then Some(true) else None))
  }

  function CanonSelect(s: SelectStmt): SelectC
    requires GoodSelect(s)
    decreases s
  {
    var es := CanonExprs(s.exprs);
    SelectC([], es[0], es[1..], s.nodeType, if s.where.None? then None else Some(CanonCond(s.where.value)),
            CanonOrder(s.order), if s.limit.None? then None else Some(s.limit.value as real))
  }

  function Print(s: SelectStmt): seq<Token>
    requires GoodSelect(s)
  {
    QueryTokens(QueryC(CanonSelect(s), false))
  }

  lemma {:induction false} CanonCondAbs(c: Condition)
    requires GoodCond(c)
    ensures AbsCond(CanonCond(c)) == c
    decreases c
  {
    match c
    case Comparison(f, op, v) => JoinSplit(f.name); CanonValueAbs(v);
    case InClause(f, sub) => JoinSplit(f.name); CanonSelectAbs(sub);
    case StepsClause(_, _) =>
  }

  lemma CanonValueAbs(v: Value)
    requires v.Num? ==> v.n >= 0.0
    ensures AbsValue(CanonValue(v)) == v
  {
    assert Lower("true") == "true" && Lower("false") == "false" && Lower("null") == "null";
  }

  lemma {:induction false} CanonExprAbs(e: SelectExpr)
    requires GoodExpr(e)
    ensures AbsExpr(CanonExpr(e)) == e
    decreases e
  {
    JoinSplit(e.field.name);
    if e.AggExpr? && e.filter.Some? { CanonCondAbs(e.filter.value); }
  }

  lemma {:induction false} CanonExprsAbs(es: seq<SelectExpr>)
    requires GoodExprs(es)
    ensures AbsMore(CanonExprs(es)) == es
    decreases es
  {
    if es != [] {
      CanonExprAbs(es[0]);
      CanonExprsAbs(es[1..]);
      assert CanonExprs(es)[1..] == CanonExprs(es[1..]);
    }
  }

  lemma {:induction false} CanonSelectAbs(s: SelectStmt)
    requires GoodSelect(s)
    ensures AbsSelect(CanonSelect(s)) == s
    decreases s
  {
    CanonExprsAbs(s.exprs);
    if s.where.Some? { CanonCondAbs(s.where.value); }
    if s.order.Some? { JoinSplit(s.order.value.field.name); }
    var es := CanonExprs(s.exprs);
    assert es == [es[0]] + es[1..];
  }

  lemma PrintIsEnded(s: SelectStmt)
    requires GoodSelect(s)
    ensures Ended(Print(s))
  {
    SelectComplete(CanonSelect(s), [EOF]);
  }

  /** Printing a query and parsing the result gives the query back, nested sub-queries included. */
  lemma {:induction false} RoundTrip(s: SelectStmt)
    requires GoodSelect(s)
    ensures Ended(Print(s)) && Parse(Print(s)) == Ok(s)
  {
    PrintIsEnded(s);
    hide CanonSelect, AbsSelect, QueryTokens, ParseQuery;
    ParsesExactlyTheGrammar(Print(s), QueryC(CanonSelect(s), false));
    CanonSelectAbs(s);
  }

  lemma {:induction false} AbsCondGood(c: CondC)
    ensures GoodCond(AbsCond(c))
    decreases c
  {
    match c
    case CompareC(_, _, _) =>
    case InC(_, sub) => AbsSelectGood(sub);
    case StepsC(_, _) =>
  }

  lemma {:induction false} AbsExprGood(e: ExprC)
    ensures GoodExpr(AbsExpr(e))
    decreases e
  {
    if e.AggC? && e.filter.Some? { AbsCondGood(e.filter.value.cond); }
  }

  lemma {:induction false} AbsMoreGood(es: seq<ExprC>)
    ensures GoodExprs(AbsMore(es))
    decreases es
  {
    if es != [] {
      AbsExprGood(es[0]);
      AbsMoreGood(es[1..]);
      assert AbsMore(es)[1..] == AbsMore(es[1..]);
    }
  }

  lemma {:induction false} AbsSelectGood(s: SelectC)
    ensures GoodSelect(AbsSelect(s))
    decreases s
  {
    AbsExprGood(s.first);
    AbsMoreGood(s.more);
    var exprs := [AbsExpr(s.first)] + AbsMore(s.more);
    assert exprs[1..] == AbsMore(s.more);
    if s.where.Some? { AbsCondGood(s.where.value); }
  }

  /** Whatever variant spelling was parsed (noise words, either AS/FILTER order, an implicit step count,
      ASC, a trailing semicolon), printing and parsing again changes nothing. */
  lemma {:induction false} ParsePrintParse(ts: seq<Token>)
    requires Ended(ts)
    ensures Parse(ts).Ok? ==>
      var s := Parse(ts).value; GoodSelect(s) && Ended(Print(s)) && Parse(Print(s)) == Ok(s)
  {
    if ParseQuery(ts).Ok? {
      var q := ParseQuery(ts).value;
      AbsSelectGood(q.select);
      RoundTrip(AbsSelect(q.select));
    }
  }
}
