/** The parser object: a token list and a position that only moves forward. */
module DataviewParser {
  import opened Seqs
  import opened GraphModel
  import opened DataviewSyntax
  import opened DataviewGrammar
  import opened DataviewTheorems

  /** r and the tokens left agree with what the grammar reads, abstracted by abs. */
  ghost predicate Agrees<C, A>(p: Parsed<C>, abs: C -> A, r: Result<A, SyntaxError>, rest: seq<Token>) {
    match p
    case Ok((c, ts)) => r == Ok(abs(c)) && rest == ts
    case Err(e) => r == Err(e)
  }

  function Same<T>(x: T): T {
    x
  }

  function AbsArg(arg: AggArg): FieldRef {
    match arg
    case CountAll => FieldRef("*")
    case Over(_, f) => AbsField(f)
  }

  function AbsLimit(n: Option<UReal>): Option<nat> {
    if n.None? then None else Some(n.value.Floor)
  }

  function ParseExprs(ts: seq<Token>): (r: Parsed<(ExprC, seq<ExprC>)>)
    requires Ended(ts)
    ensures Shrinks(ts, r)
  {
    var (first, ts) :- ParseExpr(ts);
    var (more, ts) :- ParseMore(ts);
    Ok(((first, more), ts))
  }

  function AbsExprs(es: (ExprC, seq<ExprC>)): seq<SelectExpr> {
    [AbsExpr(es.0)] + AbsMore(es.1)
  }

  function AbsTail(f: Option<FilterC>): (Option<Condition>, Option<string>) {
    match f
    case None => (None, None)
    case Some(FilterC(c, alias)) => (Some(AbsCond(c)), alias)
  }

  lemma AbsMoreEmpty(exprs: seq<SelectExpr>)
    ensures exprs + AbsMore([]) == exprs
  {
  }

  lemma AbsMoreStep(exprs: seq<SelectExpr>, e: ExprC, es: seq<ExprC>)
    ensures exprs + AbsMore([e] + es) == exprs + [AbsExpr(e)] + AbsMore(es)
  {
    assert ([e] + es)[1..] == es;
  }

  lemma ArgIsOf(agg: Agg, ts: seq<Token>)
    requires Ended(ts)
    ensures ParseArg(agg, ts).Ok? ==>
      match ParseArg(agg, ts).value.0
      case CountAll => agg == COUNT
      case Over(a, _) => a == agg
  {
    hide Ended, Then, Next, Expect, ParseField;
  }

  class Parser {
    const tokens: seq<Token>
    var pos: nat

    ghost predicate Valid()
      reads this
    {
      pos < |tokens| && Ended(tokens[pos..])
    }

    ghost function Rest(): (r: seq<Token>)
      reads this
      requires Valid()
      ensures r != [] && Ended(r)
    {
      tokens[pos..]
    }

    constructor (tokens: seq<Token>)
      requires Ended(tokens)
      ensures Valid() && Rest() == tokens
    {
      this.tokens := tokens;
      pos := 0;
    }

    function Peek(offset: nat): (t: Token)
      requires Valid()
      reads this
      ensures t == Rest()[if offset < |Rest()| then offset else |Rest()| - 1]
    {
      tokens[if pos + offset < |tokens| then pos + offset else |tokens| - 1]
    }

    method Advance() returns (t: Token)
      requires Valid()
      modifies this`pos
      ensures Valid() && t == old(Rest())[0]
      ensures Rest() == if t == EOF then old(Rest()) else Next(old(Rest()))
    {
      t := tokens[pos];
      if t != EOF {
        NextIsSlice(tokens, pos);
        pos := pos + 1;
      }
    }

    function Fail(): (e: SyntaxError)
      reads this
      requires Valid()
      ensures e == SyntaxError(|Rest()|)
    {
      SyntaxError(|tokens| - pos)
    }

    method Consume(t: Token) returns (r: Result<(), SyntaxError>)
      requires Valid() && t != EOF
      modifies this`pos
      ensures Valid()
      ensures match Expect(old(Rest()), t)
              case Ok(ts) => r.Ok? && Rest() == ts
              case Err(e) => r == Err(e)
    {
      if Peek(0) != t { return Err(Fail()); }
      var _ := Advance();
      r := Ok(());
    }

    method ConsumeIdent() returns (r: Result<string, SyntaxError>)
      requires Valid()
      modifies this`pos
      ensures Valid() && Agrees(ParseIdent(old(Rest())), Same<string>, r, Rest())
    {
      if !Peek(0).IDENT? { return Err(Fail()); }
      var t := Advance();
      r := Ok(t.name);
    }

    method ParseFieldRef() returns (r: Result<FieldRef, SyntaxError>)
      requires Valid()
      modifies this`pos
      ensures Valid() && Agrees(ParseField(old(Rest())), AbsField, r, Rest())
    {
      hide Valid, Rest, Peek, Fail, Ended, Then, Next;
      var name :- ConsumeIdent();
      ghost var head, start := name, Rest();
      while Peek(0) == DOT
        invariant Valid()
        invariant match ParseParts(start)
          case Ok((all, ts)) => ParseParts(Rest()).Ok? && ParseParts(Rest()).value.1 == ts &&
                                Join(name, ParseParts(Rest()).value.0) == Join(head, all)
          case Err(e) => ParseParts(Rest()) == Err(e)
        decreases |Rest()|
      {
        var _ := Advance();
        var part :- ConsumeIdent();
        name := name + "." + part;
      }
      r := Ok(FieldRef(name));
    }

    /** An optional `AS name`. */
    method ParseAliasOpt() returns (r: Result<Option<string>, SyntaxError>)
      requires Valid()
      modifies this`pos
      ensures Valid() && Agrees(ParseAlias(old(Rest())), Same<Option<string>>, r, Rest())
    {
      hide Valid, Rest, Peek, Fail, Ended, Then, Next;
      if Peek(0) != AS { return Ok(None); }
      var _ := Advance();
      var alias :- ConsumeIdent();
      r := Ok(Some(alias));
    }

    method ParseValueLiteral() returns (r: Result<Value, SyntaxError>)
      requires Valid()
      modifies this`pos
      ensures Valid() && Agrees(ParseValue(old(Rest())), AbsValue, r, Rest())
    {
      hide Valid, Rest, Peek, Fail, Ended, Then, Next;
      match Peek(0)
      case STRING(s) =>
        var _ := Advance();
        r := Ok(Str(s));
      case NUMBER(n) =>
        var _ := Advance();
        r := Ok(Num(n));
      case IDENT(w) =>
        var _ := Advance();
        if Lower(w) == "true" { return Ok(Bool(true)); }
        if Lower(w) == "false" { return Ok(Bool(false)); }
        if Lower(w) == "null" { return Ok(Null); }
        r := Ok(Str(w));
      case _ => r := Err(Fail());
    }

    method ParseNodeRef() returns (r: Result<string, SyntaxError>)
      requires Valid()
      modifies this`pos
      ensures Valid() && Agrees(ParseRef(old(Rest())), AbsRef, r, Rest())
    {
      hide Valid, Rest, Peek, Fail, Ended, Then, Next;
      match Peek(0)
      case IDENT(s) =>
        var _ := Advance();
        r := Ok(s);
      case STRING(s) =>
        var _ := Advance();
        r := Ok(s);
      case _ => r := Err(Fail());
    }

    method ParseStepsClause() returns (r: Result<Condition, SyntaxError>)
      requires Valid()
      modifies this`pos
      ensures Valid() && Agrees(ParseSteps(old(Rest())), AbsCond, r, Rest())
    {
      hide Valid, Rest, Peek, Fail, Ended, Then, Next, Expect, AbsRef, ParseRef;
      var depth := 1;
      if Peek(0).NUMBER? {
        var n := Advance();
        depth := n.value.Floor;
        var _ :- Consume(STEPS);
      } else {
        var _ :- Consume(STEPS);
      }
      var _ :- Consume(FROM);
      var ref :- ParseNodeRef();
      r := Ok(StepsClause(depth, ref));
    }

    predicate AtSteps(): (r: bool)
      requires Valid()
      reads this
      ensures r == StartsSteps(Rest())
    {
      (Peek(0).NUMBER? && Peek(1) == STEPS) || Peek(0) == STEPS
    }

    method ParseCondition() returns (r: Result<Condition, SyntaxError>)
      requires Valid()
      modifies this`pos
      ensures Valid() && Agrees(ParseCond(old(Rest())), AbsCond, r, Rest())
      decreases |Rest()|, 0
    {
      hide Valid, Rest, Peek, Fail, Ended, Then, Next, Expect, AbsField, AbsSelect, AbsValue, StartsSteps, ParseSteps, ParseField, ParseSelect, ParseValue;
      if AtSteps() {
        r := ParseStepsClause();
        return;
      }
      var field :- ParseFieldRef();
      if Peek(0) == IN {
        var _ := Advance();
        var _ :- Consume(LPAREN);
        var sub :- ParseSelectStmt();
        var _ :- Consume(RPAREN);
        return Ok(InClause(field, sub));
      }
      var op := Peek(0);
      if !op.OP? { return Err(Fail()); }
      var _ := Advance();
      var value :- ParseValueLiteral();
      r := Ok(Comparison(field, op.op, value));
    }

    /** What follows an aggregate keyword: the argument in parentheses. */
    method ParseAggArg(agg: Agg) returns (r: Result<FieldRef, SyntaxError>)
      requires Valid()
      modifies this`pos
      ensures Valid() && Agrees(ParseArg(agg, old(Rest())), AbsArg, r, Rest())
    {
      hide Shrinks, Tail, Valid, Rest, Peek, Fail, Ended, Then, Next, Expect, ParseField, AbsField;
      var keyword := Fail();
      var _ :- Consume(LPAREN);
      var field;
      if Peek(0) == STAR {
        var _ := Advance();
        field := FieldRef("*");
        if agg != COUNT { return Err(SyntaxError(keyword.left + 1)); }
      } else {
        field :- ParseFieldRef();
      }
      var _ :- Consume(RPAREN);
      r := Ok(field);
    }

    method ParseAggExpr(agg: Agg) returns (r: Result<SelectExpr, SyntaxError>)
      requires Valid() && Rest()[0] == AGG(agg)
      modifies this`pos
      ensures Valid() && Agrees(ParseExpr(old(Rest())), AbsExpr, r, Rest())
      decreases |Rest()|, 0
    {
      hide Valid, Rest, Peek, Fail, Ended, Then, Next, ParseArg, ParseAlias, ParseFilter, AbsField, AbsCond;
      ArgIsOf(agg, Next(Rest()));
      var _ := Advance();
      var field :- ParseAggArg(agg);
      var alias :- ParseAliasOpt();
      var tail :- ParseFilterOpt();
      var (filter, after) := tail;
      if after.Some? {
        alias := after;
      }
      r := Ok(AggExpr(agg, field, alias, filter));
    }

    /** What follows the keyword FILTER. */
    method ParseGuardClause() returns (r: Result<Condition, SyntaxError>)
      requires Valid()
      modifies this`pos
      ensures Valid() && Agrees(ParseGuard(old(Rest())), AbsCond, r, Rest())
      decreases |Rest()|, 1
    {
      hide Valid, Rest, Peek, Fail, Ended, Then, Next, Expect, AbsCond, ParseCond;
      var _ :- Consume(LPAREN);
      var _ :- Consume(WHERE);
      var cond :- ParseCondition();
      var _ :- Consume(RPAREN);
      r := Ok(cond);
    }

    /** An optional `FILTER (WHERE cond)` and the alias that may follow it. */
    method ParseFilterOpt() returns (r: Result<(Option<Condition>, Option<string>), SyntaxError>)
      requires Valid()
      modifies this`pos
      ensures Valid() && Agrees(ParseFilter(old(Rest())), AbsTail, r, Rest())
      decreases |Rest()|, 1
    {
      hide Valid, Rest, Peek, Fail, Ended, Then, Next, AbsCond, ParseGuard, ParseAlias;
      if Peek(0) != FILTER { return Ok((None, None)); }
      var _ := Advance();
      var cond :- ParseGuardClause();
      var after :- ParseAliasOpt();
      r := Ok((Some(cond), after));
    }

    method ParseSelectExpr() returns (r: Result<SelectExpr, SyntaxError>)
      requires Valid()
      modifies this`pos
      ensures Valid() && Agrees(ParseExpr(old(Rest())), AbsExpr, r, Rest())
      decreases |Rest()|, 1
    {
      hide Valid, Rest, Peek, Fail, Ended, Then, Next, ParseAlias;
      var t := Peek(0);
      if t.AGG? {
        r := ParseAggExpr(t.agg);
        return;
      }
      if t == STAR { return Err(Fail()); }
      var field :- ParseFieldRef();
      var alias :- ParseAliasOpt();
      r := Ok(FieldExpr(field, alias));
    }

    method ParseSelectExprs() returns (r: Result<seq<SelectExpr>, SyntaxError>)
      requires Valid()
      modifies this`pos
      ensures Valid() && Agrees(ParseExprs(old(Rest())), AbsExprs, r, Rest())
      decreases |Rest()|, 2
    {
      hide Valid, Rest, Peek, Fail, Ended, Then, Next, ParseExpr, AbsExpr, AbsMore;
      var first :- ParseSelectExpr();
      var exprs := [first];
      ghost var start := Rest();
      while Peek(0) == COMMA
        invariant Valid() && |Rest()| <= |start| < |old(Rest())|
        invariant match ParseMore(start)
          case Ok((all, ts)) => ParseMore(Rest()).Ok? && ParseMore(Rest()).value.1 == ts &&
                                exprs + AbsMore(ParseMore(Rest()).value.0) == [first] + AbsMore(all)
          case Err(e) => ParseMore(Rest()) == Err(e)
        decreases |Rest()|
      {
        var _ := Advance();
        ghost var here := Rest();
        var e :- ParseSelectExpr();
        if ParseMore(Rest()).Ok? {
          AbsMoreStep(exprs, ParseExpr(here).value.0, ParseMore(Rest()).value.0);
        }
        exprs := exprs + [e];
      }
      AbsMoreEmpty(exprs);
      r := Ok(exprs);
    }

    method ParseOrderOpt() returns (r: Result<Option<OrderClause>, SyntaxError>)
      requires Valid()
      modifies this`pos
      ensures Valid() && Agrees(ParseOrder(old(Rest())), AbsOrder, r, Rest())
    {
      hide Valid, Rest, Peek, Fail, Ended, Then, Next, Expect, ParseField, AbsField;
      if Peek(0) != ORDER { return Ok(None); }
      var _ := Advance();
      var _ :- Consume(BY);
      var field :- ParseFieldRef();
      var descending := false;
      if Peek(0) == DESC {
        var _ := Advance();
        descending := true;
      } else if Peek(0) == ASC {
        var _ := Advance();
      }
      r := Ok(Some(OrderClause(field, descending)));
    }

    method ParseLimitOpt() returns (r: Result<Option<nat>, SyntaxError>)
      requires Valid()
      modifies this`pos
      ensures Valid() && Agrees(ParseLimit(old(Rest())), AbsLimit, r, Rest())
    {
      hide Valid, Rest, Peek, Fail, Ended, Then, Next;
      if Peek(0) != LIMIT { return Ok(None); }
      var _ := Advance();
      if !Peek(0).NUMBER? { return Err(Fail()); }
      var n := Advance();
      r := Ok(Some(n.value.Floor));
    }

    method SkipNoise()
      requires Valid()
      modifies this`pos
      ensures Valid() && Rest() == ParseNoise(old(Rest())).1
    {
      hide Valid, Rest, Peek, Fail, Ended, Then, Next;
      while Peek(0) == DISTINCT || Peek(0) == ALL
        invariant Valid() && ParseNoise(Rest()).1 == ParseNoise(old(Rest())).1
        decreases |Rest()|
      {
        var _ := Advance();
      }
    }

    method ParseWhereOpt() returns (r: Result<Option<Condition>, SyntaxError>)
      requires Valid()
      modifies this`pos
      ensures Valid() && Agrees(ParseWhere(old(Rest())), AbsWhere, r, Rest())
      decreases |Rest()|, 1
    {
      hide Valid, Rest, Peek, Fail, Ended, Then, Next, ParseCond;
      if Peek(0) != WHERE { return Ok(None); }
      var _ := Advance();
      var cond :- ParseCondition();
      r := Ok(Some(cond));
    }

    /** Both `_parse_select_stmt` and its twin for sub-queries. */
    method ParseSelectStmt() returns (r: Result<SelectStmt, SyntaxError>)
      requires Valid()
      modifies this`pos
      ensures Valid() && Agrees(ParseSelect(old(Rest())), AbsSelect, r, Rest())
      decreases |Rest()|, 0
    {
      hide Valid, Rest, Peek, Fail, Ended, Then, Next, Expect, AbsExpr, AbsMore, AbsWhere, AbsOrder, ParseNoise, ParseExpr, ParseMore, ParseWhere, ParseOrder, ParseLimit, ParseIdent, AllAggregates;
      var _ :- Consume(SELECT);
      SkipNoise();
      var exprs :- ParseSelectExprs();
      var _ :- Consume(FROM);
      var nodeType :- ConsumeIdent();
      var where :- ParseWhereOpt();
      var order :- ParseOrderOpt();
      var limit :- ParseLimitOpt();
      r := Ok(SelectStmt(exprs, nodeType, where, order, limit, AllAggregates(exprs)));
    }

    /** `parse`: a statement, an optional semicolon, and nothing else. */
    method ParseStatement() returns (r: Result<SelectStmt, SyntaxError>)
      requires Valid()
      modifies this`pos
      ensures Valid() && r == Parse(old(Rest()))
    {
      hide Valid, Rest, Peek, Fail, Ended, Then, Next, ParseSelect, AbsSelect;
      var stmt :- ParseSelectStmt();
      if Peek(0) == SEMI {
        var _ := Advance();
      }
      if Peek(0) != EOF { return Err(Fail()); }
      r := Ok(stmt);
    }
  }

  lemma NextIsSlice(tokens: seq<Token>, pos: nat)
    requires pos < |tokens| && Ended(tokens[pos..]) && tokens[pos] != EOF
    ensures pos + 1 < |tokens| && Next(tokens[pos..]) == tokens[pos + 1..]
  {
  }
}
