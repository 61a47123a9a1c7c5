/** What the parser makes of each clause, token by token: the defaults, directions and precedences of the language. */
module DataviewReadings {
  import opened Seqs
  import opened GraphModel
  import opened DataviewSyntax
  import opened DataviewGrammar
  import opened DataviewTheorems

  predicate Reads(ts: seq<Token>, s: SelectStmt) {
    Ended(ts) && Parse(ts) == Ok(s)
  }

  const END: seq<Token> := [EOF]

  /** `SELECT a FROM t` and then the tail. */
  function Basic(a: string, t: string, tail: seq<Token>): seq<Token> {
    Then(SELECT, Then(IDENT(a), Then(FROM, Then(IDENT(t), tail))))
  }

  function BasicStmt(a: string, t: string, where: Option<Condition>, order: Option<OrderClause>, limit: Option<nat>)
    : SelectStmt
  {
    SelectStmt([FieldExpr(FieldRef(a), None)], t, where, order, limit, false)
  }

  function Plain(name: string): FieldC {
    FieldC(name, [])
  }

  lemma PlainField(name: string, rest: seq<Token>)
    ensures AbsField(Plain(name)) == FieldRef(name) && FieldTokens(Plain(name), rest) == Then(IDENT(name), rest)
  {
    hide Ended, Then;
  }

  lemma {:induction false} ReadsTokens(q: QueryC)
    ensures Reads(QueryTokens(q), AbsSelect(q.select))
  {
    hide SelectTokens, AbsSelect;
    SelectComplete(q.select, if q.semi then Then(SEMI, [EOF]) else [EOF]);
    ParsesExactlyTheGrammar(QueryTokens(q), q);
  }

  /** A query with a list of select expressions, after any DISTINCT and ALL. */
  lemma {:induction false} ExprReads(noise: seq<bool>, first: ExprC, more: seq<ExprC>, t: string, ts: seq<Token>, es: seq<SelectExpr>)
    requires ts == NoiseTokens(noise, ExprTokens(first, MoreTokens(more, Then(FROM, Then(IDENT(t), END)))))
    requires es == [AbsExpr(first)] + AbsMore(more)
    ensures Reads(Then(SELECT, ts), SelectStmt(es, t, None, None, None, AllAggregates(es)))
  {
    hide Reads, Ended, Then, NoiseTokens, ExprTokens, MoreTokens, AbsExpr, AbsMore, AllAggregates;
    var s := SelectC(noise, first, more, t, None, None, None);
    ReadsTokens(QueryC(s, false));
    assert WhereTokens(None, OrderTokens(None, LimitTokens(None, END))) == END;
    assert SelectTokens(s, END) == Then(SELECT, ts);
  }

  lemma {:induction false} BasicReads(a: string, t: string, where: Option<CondC>, order: Option<OrderC>, limit: Option<UReal>,
                                      end: seq<Token>)
    requires end == END || end == Then(SEMI, END)
    ensures Reads(Basic(a, t, WhereTokens(where, OrderTokens(order, LimitTokens(limit, end)))),
                  BasicStmt(a, t, AbsWhere(where), AbsOrder(order), if limit.None? then None else Some(limit.value.Floor)))
  {
    hide WhereTokens, OrderTokens, LimitTokens, AbsWhere, AbsOrder, Reads, Then;
    var s := SelectC([], PlainC(Plain(a), None), [], t, where, order, limit);
    ReadsTokens(QueryC(s, end != END));
    BasicTokens(a, t, s, end);
    BasicMeaning(a, t, s);
  }

  lemma BasicTokens(a: string, t: string, s: SelectC, end: seq<Token>)
    requires s.noise == [] && s.first == PlainC(Plain(a), None) && s.more == [] && s.nodeType == t
    ensures SelectTokens(s, end) == Basic(a, t, WhereTokens(s.where, OrderTokens(s.order, LimitTokens(s.limit, end))))
  {
    hide WhereTokens, OrderTokens, LimitTokens, Then, FieldTokens;
    PlainField(a, Then(FROM, Then(IDENT(t), WhereTokens(s.where, OrderTokens(s.order, LimitTokens(s.limit, end))))));
  }

  lemma BasicMeaning(a: string, t: string, s: SelectC)
    requires s.first == PlainC(Plain(a), None) && s.more == [] && s.nodeType == t
    ensures AbsSelect(s) == BasicStmt(a, t, AbsWhere(s.where), AbsOrder(s.order),
                                      if s.limit.None? then None else Some(s.limit.value.Floor))
  {
    hide AbsWhere, AbsOrder, AbsField;
    PlainField(a, []);
    var es := [AbsExpr(s.first)] + AbsMore(s.more);
    assert AbsMore([]) == [];
    assert es == [FieldExpr(FieldRef(a), None)] && !es[0].AggExpr?;
  }

  // ----- ORDER BY and LIMIT -----

  lemma {:induction false} DirReads(a: string, t: string, f: string, dir: Option<bool>, ts: seq<Token>)
    requires ts == DirTokens(dir, END)
    ensures Reads(Basic(a, t, Then(ORDER, Then(BY, Then(IDENT(f), ts)))),
                  BasicStmt(a, t, None, Some(OrderClause(FieldRef(f), dir == Some(true))), None))
  {
    hide Reads, Ended, Basic, BasicStmt, Then, FieldTokens, AbsField, DirTokens;
    PlainField(f, ts);
    BasicReads(a, t, None, Some(OrderC(Plain(f), dir)), None, END);
  }

  /** DESC sorts downwards; ASC, or nothing, upwards. */
  lemma {:induction false} OrderReads(a: string, t: string, f: string)
    ensures Reads(Basic(a, t, Then(ORDER, Then(BY, Then(IDENT(f), Then(DESC, END))))),
                  BasicStmt(a, t, None, Some(OrderClause(FieldRef(f), true)), None))
    ensures Reads(Basic(a, t, Then(ORDER, Then(BY, Then(IDENT(f), Then(ASC, END))))),
                  BasicStmt(a, t, None, Some(OrderClause(FieldRef(f), false)), None))
    ensures Reads(Basic(a, t, Then(ORDER, Then(BY, Then(IDENT(f), END)))),
                  BasicStmt(a, t, None, Some(OrderClause(FieldRef(f), false)), None))
  {
    hide Reads, Ended, Basic, BasicStmt, Then;
    DirReads(a, t, f, Some(true), Then(DESC, END));
    DirReads(a, t, f, Some(false), Then(ASC, END));
    DirReads(a, t, f, None, END);
  }

  /** LIMIT takes the whole part of its number; a semicolon may end the query, and nothing need follow FROM. */
  lemma {:induction false} LimitReads(a: string, t: string, n: UReal)
    ensures Reads(Basic(a, t, Then(LIMIT, Then(NUMBER(n), END))), BasicStmt(a, t, None, None, Some(n.Floor)))
    ensures Reads(Basic(a, t, END), BasicStmt(a, t, None, None, None))
    ensures Reads(Basic(a, t, Then(SEMI, END)), BasicStmt(a, t, None, None, None))
  {
    hide Reads, Ended, Basic, BasicStmt, Then;
    BasicReads(a, t, None, None, Some(n), END);
    BasicReads(a, t, None, None, None, END);
    BasicReads(a, t, None, None, None, Then(SEMI, END));
  }

  // ----- WHERE -----

  lemma {:induction false} WhereReads(a: string, t: string, c: CondC, ts: seq<Token>)
    requires ts == CondTokens(c, END)
    ensures Reads(Basic(a, t, Then(WHERE, ts)), BasicStmt(a, t, Some(AbsCond(c)), None, None))
  {
    hide Reads, Ended, Basic, BasicStmt, CondTokens, AbsCond, Then;
    BasicReads(a, t, Some(c), None, None, END);
  }

  /** `n STEPS FROM x` reaches n steps, the whole part of it, and 1 when no number is given. */
  lemma {:induction false} StepsReads(a: string, t: string, x: string, n: UReal)
    ensures Reads(Basic(a, t, Then(WHERE, Then(STEPS, Then(FROM, Then(IDENT(x), END))))),
                  BasicStmt(a, t, Some(StepsClause(1, x)), None, None))
    ensures Reads(Basic(a, t, Then(WHERE, Then(STEPS, Then(FROM, Then(STRING(x), END))))),
                  BasicStmt(a, t, Some(StepsClause(1, x)), None, None))
    ensures Reads(Basic(a, t, Then(WHERE, Then(NUMBER(n), Then(STEPS, Then(FROM, Then(IDENT(x), END)))))),
                  BasicStmt(a, t, Some(StepsClause(n.Floor, x)), None, None))
  {
    hide Reads, Ended, Basic, BasicStmt, Then;
    CountedSteps(a, t, None, NameRef(x), Then(STEPS, Then(FROM, Then(IDENT(x), END))));
    CountedSteps(a, t, None, TextRef(x), Then(STEPS, Then(FROM, Then(STRING(x), END))));
    CountedSteps(a, t, Some(n), NameRef(x), Then(NUMBER(n), Then(STEPS, Then(FROM, Then(IDENT(x), END)))));
  }

  lemma {:induction false} CountedSteps(a: string, t: string, count: Option<UReal>, ref: RefC, ts: seq<Token>)
    requires ts == CountTokens(count, Then(STEPS, Then(FROM, Then(RefToken(ref), END))))
    ensures Reads(Basic(a, t, Then(WHERE, ts)),
                  BasicStmt(a, t, Some(StepsClause(if count.None? then 1 else count.value.Floor, AbsRef(ref))), None, None))
  {
    hide Reads, Ended, Basic, BasicStmt, Then, FieldTokens, SelectTokens, AbsField, AbsSelect, RefToken, AbsRef, CountTokens;
    WhereReads(a, t, StepsC(count, ref), ts);
  }

  /** A comparison keeps field, operator and literal as written; the words true, false and null, in any case, are
      values, every other word is a text. */
  lemma {:induction false} ComparisonReads(a: string, t: string, f: string, op: CmpOp, s: string, n: UReal)
    ensures Reads(Basic(a, t, Then(WHERE, Then(IDENT(f), Then(OP(op), Then(STRING(s), END))))),
                  BasicStmt(a, t, Some(Comparison(FieldRef(f), op, Str(s))), None, None))
    ensures Reads(Basic(a, t, Then(WHERE, Then(IDENT(f), Then(OP(op), Then(NUMBER(n), END))))),
                  BasicStmt(a, t, Some(Comparison(FieldRef(f), op, Num(n))), None, None))
    ensures var v := if Lower(s) == "true" then Bool(true) else if Lower(s) == "false" then Bool(false)
                     else if Lower(s) == "null" then Null else Str(s);
      Reads(Basic(a, t, Then(WHERE, Then(IDENT(f), Then(OP(op), Then(IDENT(s), END))))),
            BasicStmt(a, t, Some(Comparison(FieldRef(f), op, v)), None, None))
  {
    hide Reads, Ended, Basic, BasicStmt, Then, Lower, FieldTokens, AbsField, SelectTokens, AbsSelect, CountTokens;
    PlainField(f, Then(OP(op), Then(STRING(s), END)));
    PlainField(f, Then(OP(op), Then(NUMBER(n), END)));
    PlainField(f, Then(OP(op), Then(IDENT(s), END)));
    WhereReads(a, t, CompareC(Plain(f), op, TextV(s)), Then(IDENT(f), Then(OP(op), Then(STRING(s), END))));
    WhereReads(a, t, CompareC(Plain(f), op, NumberV(n)), Then(IDENT(f), Then(OP(op), Then(NUMBER(n), END))));
    WhereReads(a, t, CompareC(Plain(f), op, WordV(s)), Then(IDENT(f), Then(OP(op), Then(IDENT(s), END))));
  }

  /** `f IN (SELECT b FROM u)` holds the sub-query. */
  lemma {:induction false} InReads(a: string, t: string, f: string, b: string, u: string)
    ensures Reads(Basic(a, t, Then(WHERE, Then(IDENT(f), Then(IN, Then(LPAREN, Basic(b, u, Then(RPAREN, END))))))),
                  BasicStmt(a, t, Some(InClause(FieldRef(f), BasicStmt(b, u, None, None, None))), None, None))
  {
    hide Reads, Ended, Basic, BasicStmt, AbsSelect, SelectTokens, Then, FieldTokens, AbsField;
    var sub := SelectC([], PlainC(Plain(b), None), [], u, None, None, None);
    var end := Then(RPAREN, END);
    BasicMeaning(b, u, sub);
    BasicTokens(b, u, sub, end);
    assert WhereTokens(None, OrderTokens(None, LimitTokens(None, end))) == end;
    PlainField(f, Then(IN, Then(LPAREN, SelectTokens(sub, end))));
    WhereReads(a, t, InC(Plain(f), sub), Then(IDENT(f), Then(IN, Then(LPAREN, Basic(b, u, end)))));
  }

  // ----- SELECT -----

  function Call(agg: Agg, f: string, rest: seq<Token>): seq<Token> {
    Then(AGG(agg), Then(LPAREN, Then(IDENT(f), Then(RPAREN, rest))))
  }

  function CountStar(rest: seq<Token>): seq<Token> {
    Then(AGG(COUNT), Then(LPAREN, Then(STAR, Then(RPAREN, rest))))
  }

  function As(alias: string, rest: seq<Token>): seq<Token> {
    Then(AS, Then(IDENT(alias), rest))
  }

  /** `FILTER (WHERE g = 's')` */
  function Filtering(g: string, s: string, rest: seq<Token>): seq<Token> {
    Then(FILTER, Then(LPAREN, Then(WHERE, Then(IDENT(g), Then(OP(EQ), Then(STRING(s), Then(RPAREN, rest)))))))
  }

  function From(t: string): seq<Token> {
    Then(FROM, Then(IDENT(t), END))
  }

  lemma OneMore(e: ExprC, rest: seq<Token>)
    ensures MoreTokens([], rest) == rest && MoreTokens([e], rest) == Then(COMMA, ExprTokens(e, rest))
    ensures AbsMore([]) == [] && AbsMore([e]) == [AbsExpr(e)]
  {
    hide Ended, Then, ExprTokens, AbsExpr;
    assert [e][1..] == [];
  }

  lemma OnePart(x: string, y: string, rest: seq<Token>)
    ensures FieldTokens(FieldC(x, [y]), rest) == Then(IDENT(x), Then(DOT, Then(IDENT(y), rest)))
    ensures AbsField(FieldC(x, [y])) == FieldRef(x + "." + y)
  {
    hide Ended, Then;
    var none: seq<string> := [];
    assert [y][1..] == none && [y][0] == y;
    assert PartsTokens(none, rest) == rest && PartsTokens([y], rest) == Then(DOT, Then(IDENT(y), PartsTokens(none, rest)));
    assert Join(x + "." + y, none) == x + "." + y && Join(x, [y]) == Join(x + "." + y, none);
  }

  lemma SomeNoise(rest: seq<Token>)
    ensures NoiseTokens([true, false], rest) == Then(DISTINCT, Then(ALL, rest)) && NoiseTokens([], rest) == rest
  {
    hide Ended, Then;
    var none: seq<bool> := [];
    assert [true, false][1..] == [false] && [false][1..] == none;
    assert NoiseTokens(none, rest) == rest && NoiseTokens([false], rest) == Then(ALL, NoiseTokens(none, rest));
  }

  lemma PlainExpr(g: string, rest: seq<Token>)
    ensures ExprTokens(PlainC(Plain(g), None), rest) == Then(IDENT(g), rest)
    ensures AbsExpr(PlainC(Plain(g), None)) == FieldExpr(FieldRef(g), None)
  {
    hide Ended, Then, FieldTokens, AbsField;
    PlainField(g, rest);
  }

  lemma DottedExpr(x: string, y: string, alias: string, rest: seq<Token>)
    ensures ExprTokens(PlainC(FieldC(x, [y]), Some(alias)), rest) == Then(IDENT(x), Then(DOT, Then(IDENT(y), As(alias, rest))))
    ensures AbsExpr(PlainC(FieldC(x, [y]), Some(alias))) == FieldExpr(FieldRef(x + "." + y), Some(alias))
  {
    hide Ended, Then, FieldTokens, AbsField;
    OnePart(x, y, As(alias, rest));
  }

  lemma CallExpr(agg: Agg, f: string, alias: Option<string>, filter: Option<FilterC>, rest: seq<Token>)
    ensures ExprTokens(AggC(Over(agg, Plain(f)), alias, filter), rest) == Call(agg, f, AliasTokens(alias, FilterTokens(filter, rest)))
    ensures AbsExpr(AggC(Over(agg, Plain(f)), alias, filter))
         == AggExpr(agg, FieldRef(f), AbsAlias(alias, filter), AbsFilter(filter))
  {
    hide Ended, Then, FieldTokens, AbsField, AliasTokens, FilterTokens, AbsFilter, AbsAlias;
    PlainField(f, Then(RPAREN, AliasTokens(alias, FilterTokens(filter, rest))));
  }

  lemma PlainCall(agg: Agg, f: string, rest: seq<Token>)
    ensures ExprTokens(AggC(Over(agg, Plain(f)), None, None), rest) == Call(agg, f, rest)
    ensures AbsExpr(AggC(Over(agg, Plain(f)), None, None)) == AggExpr(agg, FieldRef(f), None, None)
    ensures ExprTokens(AggC(CountAll, None, None), rest) == CountStar(rest)
    ensures AbsExpr(AggC(CountAll, None, None)) == AggExpr(COUNT, FieldRef("*"), None, None)
  {
    CallExpr(agg, f, None, None, rest);
    hide Ended, Then, FieldTokens, AbsField, Call;
  }

  lemma EqualsIs(g: string, s: string, rest: seq<Token>)
    ensures CondTokens(CompareC(Plain(g), EQ, TextV(s)), rest) == Then(IDENT(g), Then(OP(EQ), Then(STRING(s), rest)))
    ensures AbsCond(CompareC(Plain(g), EQ, TextV(s))) == Comparison(FieldRef(g), EQ, Str(s))
  {
    hide Ended, Then, FieldTokens, AbsField, SelectTokens, AbsSelect;
    PlainField(g, Then(OP(EQ), Then(STRING(s), rest)));
  }

  lemma FilterIs(g: string, s: string, late: string, rest: seq<Token>)
    ensures var filter := Some(FilterC(CompareC(Plain(g), EQ, TextV(s)), Some(late)));
      && FilterTokens(filter, rest) == Filtering(g, s, As(late, rest))
      && AbsFilter(filter) == Some(Comparison(FieldRef(g), EQ, Str(s)))
  {
    hide Ended, Then, CondTokens, AbsCond, As;
    EqualsIs(g, s, Then(RPAREN, AliasTokens(Some(late), rest)));
    AliasIs(late, rest);
  }

  lemma AliasIs(alias: string, rest: seq<Token>)
    ensures AliasTokens(Some(alias), rest) == As(alias, rest)
  {
    hide Ended, Then;
  }

  /** Dotted names are joined, an alias is kept, DISTINCT and ALL change nothing, and a query of plain fields is no
      aggregate-only query. */
  lemma {:induction false} FieldsRead(x: string, y: string, alias: string, t: string)
    ensures Reads(Then(SELECT, Then(DISTINCT, Then(ALL, Then(IDENT(x), Then(DOT, Then(IDENT(y), As(alias, From(t)))))))),
                  SelectStmt([FieldExpr(FieldRef(x + "." + y), Some(alias))], t, None, None, None, false))
  {
    hide Reads, Ended, Then, As, ExprTokens, AbsExpr, NoiseTokens, MoreTokens, AbsMore;
    var e := PlainC(FieldC(x, [y]), Some(alias));
    DottedExpr(x, y, alias, From(t));
    OneMore(e, From(t));
    SomeNoise(ExprTokens(e, From(t)));
    var es := [FieldExpr(FieldRef(x + "." + y), Some(alias))];
    assert es == [AbsExpr(e)] + AbsMore([]) && !es[0].AggExpr?;
    ExprReads([true, false], e, [], t, NoiseTokens([true, false], ExprTokens(e, From(t))), es);
  }

  /** `COUNT(*)`, and an aggregate of a field: a query of aggregates only. */
  lemma {:induction false} AggregatesRead(agg: Agg, f: string, t: string)
    ensures Reads(Then(SELECT, CountStar(Then(COMMA, Call(agg, f, From(t))))),
                  SelectStmt([AggExpr(COUNT, FieldRef("*"), None, None), AggExpr(agg, FieldRef(f), None, None)], t,
                             None, None, None, true))
  {
    hide Reads, Ended, Then, Call, CountStar, ExprTokens, AbsExpr, NoiseTokens, MoreTokens, AbsMore;
    var first, second := AggC(CountAll, None, None), AggC(Over(agg, Plain(f)), None, None);
    OneMore(second, From(t));
    PlainCall(agg, f, From(t));
    var rest := MoreTokens([second], From(t));
    PlainCall(agg, f, rest);
    SomeNoise(ExprTokens(first, rest));
    var es := [AggExpr(COUNT, FieldRef("*"), None, None), AggExpr(agg, FieldRef(f), None, None)];
    assert es == [AbsExpr(first)] + AbsMore([second]) && es[0].AggExpr? && es[1].AggExpr?;
    ExprReads([], first, [second], t, ExprTokens(first, rest), es);
  }

  /** A mixed list is not aggregate-only; of two aliases the one after FILTER counts. */
  lemma {:induction false} FilterReads(agg: Agg, f: string, early: string, late: string, g: string, s: string, t: string)
    ensures Reads(Then(SELECT, Call(agg, f, As(early, Filtering(g, s, As(late, Then(COMMA, Then(IDENT(g), From(t)))))))),
                  SelectStmt([AggExpr(agg, FieldRef(f), Some(late), Some(Comparison(FieldRef(g), EQ, Str(s)))),
                              FieldExpr(FieldRef(g), None)], t, None, None, None, false))
  {
    hide Reads, Ended, Then, Call, As, Filtering, From, ExprTokens, AbsExpr, NoiseTokens, MoreTokens, AbsMore, FilterTokens,
         AbsFilter, AliasTokens, CondTokens, AbsCond;
    var filter := Some(FilterC(CompareC(Plain(g), EQ, TextV(s)), Some(late)));
    var first, second := AggC(Over(agg, Plain(f)), Some(early), filter), PlainC(Plain(g), None);
    PlainExpr(g, From(t));
    OneMore(second, From(t));
    var rest := MoreTokens([second], From(t));
    FilterIs(g, s, late, rest);
    AliasIs(early, FilterTokens(filter, rest));
    CallExpr(agg, f, Some(early), filter, rest);
    SomeNoise(ExprTokens(first, rest));
    var es := [AggExpr(agg, FieldRef(f), Some(late), Some(Comparison(FieldRef(g), EQ, Str(s)))), FieldExpr(FieldRef(g), None)];
    assert es == [AbsExpr(first)] + AbsMore([second]) && !es[1].AggExpr?;
    FromIs(t);
    ExprReads([], first, [second], t, ExprTokens(first, rest), es);
  }

  lemma FromIs(t: string)
    ensures From(t) == Then(FROM, Then(IDENT(t), END))
  {
  }
}
