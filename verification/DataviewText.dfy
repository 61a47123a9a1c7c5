/** What the lexer guarantees: it reads every spelling back, and where its positions are right. */
module DataviewText {
  import opened Seqs
  import opened DataviewSyntax
  import opened DataviewGrammar
  import opened DataviewTheorems
  import opened DataviewLexer
  import opened DataviewSpelling

  // ----- spellings -----

  predicate IsWord(text: string) {
    text != "" && IdentStart(text[0]) && forall i :: 0 <= i < |text| ==> IdentPart(text[i])
  }

  predicate IsDigits(text: string) {
    text != "" && forall i :: 0 <= i < |text| ==> Digit(text[i])
  }

  /** Digits, possibly a point and more digits; `point` is the number of digits before it. */
  predicate IsNumber(text: string, point: nat) {
    && point <= |text| && IsDigits(text[..point])
    && (point < |text| ==> text[point] == '.' && IsDigits(text[point + 1..]))
  }

  predicate IsQuoted(text: string, content: string) {
    || (text == ['\''] + content + ['\''] && '\'' !in content)
    || (text == ['"'] + content + ['"'] && '"' !in content)
  }

  function OpText(op: CmpOp): string {
    match op
    case EQ => "="
    case NEQ => "!="
    case GT => ">"
    case LT => "<"
    case GTE => ">="
    case LTE => "<="
  }

  /** Whether text is a way to write t. */
  ghost predicate Spells(text: string, t: Token) {
    match t
    case STRING(content) => IsQuoted(text, content)
    case NUMBER(v) => exists point :: IsNumber(text, point) && Stands(text, point, v)
    case OP(op) => text == OpText(op)
    case COMMA => text == ","
    case SEMI => text == ";"
    case LPAREN => text == "("
    case RPAREN => text == ")"
    case STAR => text == "*"
    case DOT => text == "."
    case _ => IsWord(text) && SpellsWord(text, t)
  }

  lemma NumberMeans(text: string, point: nat, v: UReal)
    requires IsNumber(text, point)
    ensures v == NumberValue(text) <==> Stands(text, point, v)
  {
    hide NumberValue, Stands;
    forall i | 0 <= i < point ensures Digit(text[i]) { assert text[i] == text[..point][i]; }
    forall i | point < i < |text| ensures Digit(text[i]) { assert text[i] == text[point + 1..][i - point - 1]; }
    NumberValueStands(text, point, v);
  }

  /** White space, possibly none. */
  predicate IsGap(text: string) {
    forall i :: 0 <= i < |text| ==> Space(text[i])
  }

  /** Nothing at the front of rest would be read as part of text, which spells t: a word is not followed by a
      word character, a number by a digit or by a point and a digit, nor `<` or `>` by `=`. */
  predicate Apart(text: string, t: Token, rest: string) {
    match t
    case STRING(_) => true
    case NUMBER(_) =>
      && (rest != "" ==> !Digit(rest[0]))
      && ('.' !in text && |rest| > 1 && rest[0] == '.' ==> !Digit(rest[1]))
    case OP(op) => op == LT || op == GT ==> rest == "" || rest[0] != '='
    case COMMA => true
    case SEMI => true
    case LPAREN => true
    case RPAREN => true
    case STAR => true
    case DOT => true
    case _ => rest != "" ==> !IdentPart(rest[0])
  }

  // ----- a spelling that stands apart is matched whole -----

  predicate NumberApart(text: string, rest: string) {
    && (rest != "" ==> !Digit(rest[0]))
    && ('.' !in text && |rest| > 1 && rest[0] == '.' ==> !Digit(rest[1]))
  }

  lemma NumberIsMatched(text: string, point: nat, rest: string)
    requires IsNumber(text, point) && NumberApart(text, rest)
    ensures var s := text + rest; s != "" && Digit(s[0]) && NumberEnd(s) == |text|
  {
    var s := text + rest;
    assert forall i :: 0 <= i < |text| ==> s[i] == text[i];
    assert forall i :: 0 <= i < |rest| ==> s[|text| + i] == rest[i];
    assert forall i :: 0 <= i < point ==> text[i] == text[..point][i];
    SpanIs(s, 0, Digit, point);
    if point < |text| {
      assert forall i :: point + 1 <= i < |text| ==> text[i] == text[point + 1..][i - point - 1];
      assert Digit(s[point + 1]);
      SpanIs(s, point + 1, Digit, |text|);
    } else {
      assert text == text[..point] && '.' !in text;
    }
  }

  lemma WordIsMatched(text: string, rest: string)
    requires IsWord(text) && (rest != "" ==> !IdentPart(rest[0]))
    ensures MatchAt(text + rest) == Some((Tok(WordToken(text)), |text|))
  {
    hide WordToken;
    var s := text + rest;
    assert rest != "" ==> s[|text|] == rest[0];
    SpanIs(s, 0, IdentPart, |text|);
    assert s[..|text|] == text;
  }

  lemma QuotedIsMatched(text: string, content: string, rest: string)
    requires IsQuoted(text, content)
    ensures MatchAt(text + rest) == Some((Tok(STRING(content)), |text|))
  {
    hide WordToken;
    var s := text + rest;
    var q := text[0];
    var e := |content| + 1;
    assert forall i :: 1 <= i < e ==> s[i] == content[i - 1];
    assert s[e] == q;
    SpanIs(s, 1, Other(q), e);
    assert s[1..e] == content;
  }

  lemma NumberTokenIsMatched(text: string, v: UReal, rest: string)
    requires Spells(text, NUMBER(v)) && NumberApart(text, rest)
    ensures MatchAt(text + rest) == Some((Tok(NUMBER(v)), |text|))
  {
    hide WordToken, NumberEnd, NumberValue, NumberApart;
    hide Stands;
    var point: nat :| IsNumber(text, point) && Stands(text, point, v);
    NumberMeans(text, point, v);
    NumberIsMatched(text, point, rest);
    assert (text + rest)[..|text|] == text;
  }

  lemma OpIsMatched(op: CmpOp, rest: string)
    requires Apart(OpText(op), OP(op), rest)
    ensures MatchAt(OpText(op) + rest) == Some((Tok(OP(op)), |OpText(op)|))
  {
    var s := OpText(op) + rest;
    assert rest != "" ==> s[|OpText(op)|] == rest[0];
  }

  lemma SpellingIsMatched(text: string, t: Token, rest: string)
    requires Spells(text, t) && Apart(text, t, rest)
    ensures MatchAt(text + rest) == Some((Tok(t), |text|)) && text != ""
  {
    hide WordToken, SpellsWord;
    match t
    case STRING(content) => QuotedIsMatched(text, content, rest);
    case NUMBER(v) => NumberTokenIsMatched(text, v, rest);
    case OP(op) => OpIsMatched(op, rest);
    case COMMA =>
    case SEMI =>
    case LPAREN =>
    case RPAREN =>
    case STAR =>
    case DOT =>
    case _ =>
      WordTokenExactly(text, t);
      WordIsMatched(text, rest);
  }

  lemma GapIsMatched(gap: string, rest: string)
    requires IsGap(gap) && gap != "" && (rest != "" ==> !Space(rest[0]))
    ensures MatchAt(gap + rest) == Some((Blank, |gap|))
  {
    var s := gap + rest;
    assert rest != "" ==> s[|gap|] == rest[0];
    SpanIs(s, 0, Space, |gap|);
  }

  // ----- every token piece spells its token -----

  lemma {:induction false} MatchedTokenIsSpelled(s: string)
    requires s != "" && MatchAt(s).Some? && MatchAt(s).value.0.Tok?
    ensures Spells(s[..MatchAt(s).value.1], MatchAt(s).value.0.token)
  {
    hide WordToken, NumberValue, SpellsWord, Stands;
    var n := MatchAt(s).value.1;
    var text := s[..n];
    if Digit(s[0]) {
      MatchedNumber(s);
      var point: nat :| IsNumber(text, point);
      NumberMeans(text, point, NumberValue(text));
    } else if s[0] == '\'' || s[0] == '"' {
      var content := s[1..n - 1];
      assert text == [s[0]] + content + [s[0]];
      assert forall i :: 0 <= i < |content| ==> content[i] == s[i + 1];
    } else if IdentStart(s[0]) {
      assert IsWord(text);
      WordTokenIsWord(text);
      WordTokenExactly(text, WordToken(text));
    } else {
      if OpAt(s).Some? {
        assert text == OpText(OpAt(s).value.0);
      } else {
        assert text == [s[0]];
      }
    }
  }

  lemma WordTokenIsWord(text: string)
    ensures var t := WordToken(text);
      !(t.STRING? || t.NUMBER? || t.OP? || t.COMMA? || t.SEMI? || t.LPAREN? || t.RPAREN? || t.STAR? || t.DOT?)
  {
  }

  lemma MatchedNumber(s: string)
    requires s != "" && Digit(s[0])
    ensures exists point :: IsNumber(s[..NumberEnd(s)], point)
  {
    var n := NumberEnd(s);
    var text := s[..n];
    var a := Span(s, 0, Digit);
    assert forall i :: 0 <= i < n ==> text[i] == s[i];
    assert IsDigits(text[..a]);
    if a < n {
      assert Digit(s[a + 1]);
      var part := text[a + 1..];
      forall i | 0 <= i < |part| ensures Digit(part[i]) {
        assert part[i] == s[a + 1 + i];
      }
    }
    assert IsNumber(text, a);
  }

  lemma {:induction false} MatchedTokenIsApart(s: string)
    requires s != "" && MatchAt(s).Some? && MatchAt(s).value.0.Tok?
    ensures var n := MatchAt(s).value.1; Apart(s[..n], MatchAt(s).value.0.token, s[n..])
  {
    hide WordToken, NumberValue;
    if Digit(s[0]) {
      MatchedNumberIsApart(s);
    } else if !(s[0] == '\'' || s[0] == '"') && IdentStart(s[0]) {
      WordTokenIsWord(s[..MatchAt(s).value.1]);
    }
  }

  lemma MatchedNumberIsApart(s: string)
    requires s != "" && Digit(s[0])
    ensures NumberApart(s[..NumberEnd(s)], s[NumberEnd(s)..])
  {
    var n := NumberEnd(s);
    var a := Span(s, 0, Digit);
    if a < n { assert s[..n][a] == '.'; }
  }

  /** Which token comes first in s, and how long it is: the one whose spelling stands apart from what follows. */
  lemma {:induction false} MatchIsExact(s: string, t: Token, n: nat)
    requires 0 < n <= |s|
    ensures MatchAt(s) == Some((Tok(t), n)) <==> Spells(s[..n], t) && Apart(s[..n], t, s[n..])
  {
    hide MatchAt, Spells, Apart;
    if MatchAt(s) == Some((Tok(t), n)) {
      MatchedTokenIsSpelled(s);
      MatchedTokenIsApart(s);
    }
    if Spells(s[..n], t) && Apart(s[..n], t, s[n..]) {
      SpellingIsMatched(s[..n], t, s[n..]);
      assert s[..n] + s[n..] == s;
    }
  }

  // ----- reading text back -----

  /** The texts in order, each followed by its gap. */
  function Laid(texts: seq<string>, gaps: seq<string>): string
    requires |texts| == |gaps|
  {
    if texts == [] then "" else texts[0] + (gaps[0] + Laid(texts[1..], gaps[1..]))
  }

  /** Each text spells its token and stands apart from all that follows it; gaps may be empty. */
  ghost predicate Legible(texts: seq<string>, gaps: seq<string>, ts: seq<Token>)
    requires |texts| == |gaps|
    decreases |texts|
  {
    && |ts| == |texts|
    && (texts != [] ==>
          && Spells(texts[0], ts[0]) && IsGap(gaps[0])
          && Apart(texts[0], ts[0], gaps[0] + Laid(texts[1..], gaps[1..]))
          && Legible(texts[1..], gaps[1..], ts[1..]))
  }

  ghost predicate LaidOut(sql: string, lead: string, texts: seq<string>, gaps: seq<string>, ts: seq<Token>) {
    |texts| == |gaps| && IsGap(lead) && sql == lead + Laid(texts, gaps) && Legible(texts, gaps, ts)
  }

  /** sql is some way to write the tokens down: spellings, and white space wherever it is wanted or needed. */
  ghost predicate Writes(sql: string, ts: seq<Token>) {
    exists lead, texts, gaps :: LaidOut(sql, lead, texts, gaps, ts)
  }

  function TokensOf(ls: seq<Located>): seq<Token> {
    Map(ls, (l: Located) => l.token)
  }

  /** The tokens of a text, EOF left off. */
  ghost predicate LexesTo(sql: string, at: nat, line: nat, col: nat, ts: seq<Token>) {
    var r := Lexed(sql, at, line, col);
    r.Ok? && TokensOf(r.value) == ts + [EOF]
  }

  lemma SpellingStartsInk(text: string, t: Token)
    requires Spells(text, t)
    ensures text != "" && !Space(text[0])
  {
    hide SpellsWord, Stands;
    if t.NUMBER? {
      var point: nat :| IsNumber(text, point) && Stands(text, point, t.value);
      assert text[0] == text[..point][0];
    }
  }

  lemma LaidStartsInk(texts: seq<string>, gaps: seq<string>, ts: seq<Token>)
    requires |texts| == |gaps| && Legible(texts, gaps, ts)
    ensures Laid(texts, gaps) != "" ==> !Space(Laid(texts, gaps)[0])
  {
    if texts != [] {
      SpellingStartsInk(texts[0], ts[0]);
    }
  }

  /** White space in front of ink is skipped. */
  lemma GapIsSkipped(gap: string, rest: string, at: nat, line: nat, col: nat) returns (l: nat, c: nat)
    requires IsGap(gap) && (rest != "" ==> !Space(rest[0]))
    ensures Lexed(gap + rest, at, line, col) == Lexed(rest, at + |gap|, l, c)
  {
    hide Skip, MatchAt, IsGap;
    if gap == "" {
      l, c := line, col;
      assert gap + rest == rest;
    } else {
      GapIsMatched(gap, rest);
      assert (gap + rest)[|gap|..] == rest;
      var p := Skip((gap + rest)[..|gap|], line, col);
      l, c := p.0, p.1;
    }
  }

  lemma TokenIsTaken(s: string, n: nat, t: Token, at: nat, line: nat, col: nat)
    requires s != "" && MatchAt(s) == Some((Tok(t), n))
    ensures Lexed(s, at, line, col) == Prepend([Located(t, at, line, col)], Lexed(s[n..], at + n, line, col + n))
  {
    hide Skip, MatchAt;
  }

  lemma OneMoreToken(x: Located, r: Result<seq<Located>, LexError>, ts: seq<Token>)
    requires r.Ok? && TokensOf(r.value) == ts + [EOF]
    ensures Prepend([x], r).Ok? && TokensOf(Prepend([x], r).value) == [x.token] + ts + [EOF]
  {
    assert TokensOf([x] + r.value) == [x.token] + TokensOf(r.value);
    assert [x.token] + (ts + [EOF]) == [x.token] + ts + [EOF];
  }

  lemma LexedNothing(at: nat, line: nat, col: nat)
    ensures LexesTo("", at, line, col, [])
  {
  }

  lemma {:induction false} LegibleIsLexed(lead: string, texts: seq<string>, gaps: seq<string>, ts: seq<Token>,
                                          at: nat, line: nat, col: nat)
    requires |texts| == |gaps| && IsGap(lead) && Legible(texts, gaps, ts)
    ensures LexesTo(lead + Laid(texts, gaps), at, line, col, ts)
    decreases |texts|
  {
    hide Spells, Apart, IsGap, MatchAt, Skip, Lexed, TokensOf, Prepend;
    var s := Laid(texts, gaps);
    LaidStartsInk(texts, gaps, ts);
    var l, c := GapIsSkipped(lead, s, at, line, col);
    if texts == [] {
      LexedNothing(at + |lead|, l, c);
    } else {
      var text, rest := texts[0], gaps[0] + Laid(texts[1..], gaps[1..]);
      SpellingIsMatched(text, ts[0], rest);
      assert s[|text|..] == rest;
      var after := at + |lead| + |text|;
      TokenIsTaken(s, |text|, ts[0], at + |lead|, l, c);
      LegibleIsLexed(gaps[0], texts[1..], gaps[1..], ts[1..], after, l, c + |text|);
      OneMoreToken(Located(ts[0], at + |lead|, l, c), Lexed(rest, after, l, c + |text|), ts[1..]);
      assert ts == [ts[0]] + ts[1..];
    }
  }

  lemma {:induction false} LexedIsLegible(s: string, at: nat, line: nat, col: nat)
    returns (lead: string, texts: seq<string>, gaps: seq<string>)
    requires Lexed(s, at, line, col).Ok?
    ensures LaidOut(s, lead, texts, gaps, Ink(Lexed(s, at, line, col).value))
    decreases |s|
  {
    hide Spells, Apart, IsGap, Skip, MatchAt, Legible, Ink;
    lead, texts, gaps := "", [], [];
    if s == "" {
      NothingIsLegible(Located(EOF, at, line, col));
    } else {
      var (lexeme, n) := MatchAt(s).value;
      match lexeme {
        case Blank =>
          var (l, c) := Skip(s[..n], line, col);
          lead, texts, gaps := LexedIsLegible(s[n..], at + n, l, c);
          MatchedBlankIsGap(s, lead);
          assert s == s[..n] + s[n..];
          lead := s[..n] + lead;
          assert s == lead + Laid(texts, gaps);
        case Tok(t) =>
          var gap, more, spaces := LexedIsLegible(s[n..], at + n, line, col + n);
          var ls := Lexed(s[n..], at + n, line, col + n).value;
          MatchedTokenIsSpelled(s);
          MatchedTokenIsApart(s);
          texts, gaps := [s[..n]] + more, [gap] + spaces;
          assert s == s[..n] + s[n..] && texts[1..] == more && gaps[1..] == spaces;
          assert lead + Laid(texts, gaps) == s;
          OneMoreLegible(texts, gaps, Located(t, at, line, col), ls);
          NoGap();
      }
    }
  }

  /** Neither white space nor any token is written at the front of s. */
  ghost predicate Unreadable(s: string) {
    && s != "" && !Space(s[0])
    && forall t: Token, k: nat :: 0 < k <= |s| ==> !(Spells(s[..k], t) && Apart(s[..k], t, s[k..]))
  }

  lemma NoMatchIsUnreadable(s: string)
    requires s != "" && MatchAt(s).None?
    ensures Unreadable(s)
  {
    hide Spells, Apart;
    forall t: Token, k: nat | 0 < k <= |s| ensures !(Spells(s[..k], t) && Apart(s[..k], t, s[k..])) {
      MatchIsExact(s, t, k);
    }
  }

  /** When lexing fails, the character reported is the first of an unreadable rest. */
  lemma {:induction false} FailsWhereUnreadable(s: string, at: nat, line: nat, col: nat) returns (n: nat)
    requires Lexed(s, at, line, col).Err?
    ensures n < |s| && Unreadable(s[n..]) && Lexed(s, at, line, col).error.found == s[n]
    decreases |s|
  {
    hide Spells, Apart, Skip, MatchAt, Unreadable;
    if MatchAt(s).None? {
      n := 0;
      NoMatchIsUnreadable(s);
      assert s[0..] == s;
    } else {
      var (lexeme, m) := MatchAt(s).value;
      var (l, c) := if lexeme.Blank? then Skip(s[..m], line, col) else (line, col + m);
      var k := FailsWhereUnreadable(s[m..], at + m, l, c);
      n := m + k;
      assert s[m..][k..] == s[n..];
    }
  }

  lemma NoGap()
    ensures IsGap("")
  {
  }

  /** The tokens of a lexed list, without its closing EOF. */
  function Ink(ls: seq<Located>): seq<Token> {
    if ls == [] then [] else TokensOf(ls[..|ls| - 1])
  }

  lemma NothingIsLegible(x: Located)
    ensures IsGap("") && Legible([], [], Ink([x]))
  {
  }

  lemma MatchedBlankIsGap(s: string, lead: string)
    requires s != "" && MatchAt(s).Some? && MatchAt(s).value.0.Blank? && IsGap(lead)
    ensures IsGap(s[..MatchAt(s).value.1] + lead)
  {
    hide NumberEnd, NumberValue, WordToken;
  }

  lemma OneMoreLegible(texts: seq<string>, gaps: seq<string>, x: Located, ls: seq<Located>)
    requires |texts| == |gaps| && texts != [] && ls != []
    requires Spells(texts[0], x.token) && IsGap(gaps[0]) && Legible(texts[1..], gaps[1..], Ink(ls))
    requires Apart(texts[0], x.token, gaps[0] + Laid(texts[1..], gaps[1..]))
    ensures Legible(texts, gaps, Ink([x] + ls))
  {
    hide Spells, IsGap, Apart;
    var all := [x] + ls;
    assert all[..|all| - 1] == [x] + ls[..|ls| - 1];
    assert Ink(all) == [x.token] + Ink(ls);
    assert Ink(all)[1..] == Ink(ls);
  }

  lemma {:induction false} LexedEndsInEof(s: string, at: nat, line: nat, col: nat)
    requires Lexed(s, at, line, col).Ok?
    ensures var ls := Lexed(s, at, line, col).value; TokensOf(ls) == Ink(ls) + [EOF]
    decreases |s|
  {
    hide MatchAt, Skip, TokensOf, Ink;
    if s == "" {
      OnlyToken(Located(EOF, at, line, col));
    } else {
      var (lexeme, n) := MatchAt(s).value;
      match lexeme
      case Blank =>
        var (l, c) := Skip(s[..n], line, col);
        LexedEndsInEof(s[n..], at + n, l, c);
      case Tok(t) =>
        LexedEndsInEof(s[n..], at + n, line, col + n);
        LastToken(Located(t, at, line, col), Lexed(s[n..], at + n, line, col + n).value);
    }
  }

  lemma OnlyToken(x: Located)
    requires x.token == EOF
    ensures TokensOf([x]) == Ink([x]) + [EOF]
  {
  }

  lemma LastToken(x: Located, ls: seq<Located>)
    requires ls != [] && TokensOf(ls) == Ink(ls) + [EOF]
    ensures TokensOf([x] + ls) == Ink([x] + ls) + [EOF]
  {
    var all := [x] + ls;
    assert all[|all| - 1] == ls[|ls| - 1];
    assert TokensOf(ls)[|ls| - 1] == ls[|ls| - 1].token;
  }

  /** A text lexes to given tokens if and only if it writes them down: any spellings, any white space, and none
      where two spellings do not run together. */
  lemma {:induction false} LexesExactlyWhatIsWritten(sql: string, ts: seq<Token>)
    ensures LexesTo(sql, 0, 1, 1, ts) <==> Writes(sql, ts)
  {
    hide Lexed, LaidOut, Ink, TokensOf;
    if LexesTo(sql, 0, 1, 1, ts) {
      var lead, texts, gaps := LexedIsLegible(sql, 0, 1, 1);
      LexedEndsInEof(sql, 0, 1, 1);
      var ink := Ink(Lexed(sql, 0, 1, 1).value);
      assert ink == (ink + [EOF])[..|ink|] && ts == (ts + [EOF])[..|ts|];
    }
    if Writes(sql, ts) {
      var lead, texts, gaps :| LaidOut(sql, lead, texts, gaps, ts);
      WrittenIsLexed(sql, lead, texts, gaps, ts);
    }
  }

  lemma WrittenIsLexed(sql: string, lead: string, texts: seq<string>, gaps: seq<string>, ts: seq<Token>)
    requires LaidOut(sql, lead, texts, gaps, ts)
    ensures LexesTo(sql, 0, 1, 1, ts)
  {
    hide Lexed, Legible, TokensOf, IsGap;
    LegibleIsLexed(lead, texts, gaps, ts, 0, 1, 1);
  }

  // ----- from text to syntax -----

  /** The tokens of a written query before EOF. */
  function InkOf(ts: seq<Token>): seq<Token> {
    if ts == [] then [] else ts[..|ts| - 1]
  }

  lemma QueryEndsInEof(q: QueryC)
    ensures QueryTokens(q) == InkOf(QueryTokens(q)) + [EOF] && Ended(QueryTokens(q))
  {
    hide SelectTokens, ParseSelect, Ended;
    var end := if q.semi then Then(SEMI, [EOF]) else [EOF];
    assert Ended(end) && EndsSelect(end[0]) by { EndIsEnded(q.semi); }
    SelectComplete(q.select, end);
    EndedSplits(QueryTokens(q));
  }

  lemma EndIsEnded(semi: bool)
    ensures Ended(if semi then Then(SEMI, [EOF]) else [EOF])
  {
    assert Ended([EOF]);
  }

  lemma EndedSplits(ts: seq<Token>)
    requires Ended(ts)
    ensures ts == InkOf(ts) + [EOF]
  {
  }

  /** What lexing and parsing a text gives: the query it was recognised as. */
  ghost predicate ReadsAs(sql: string, q: QueryC) {
    exists ts :: LexesTo(sql, 0, 1, 1, ts) && Ended(ts + [EOF]) && ParseQuery(ts + [EOF]) == Ok(q)
  }

  /** A text is read as a query if and only if it writes that query's tokens down. */
  lemma {:induction false} TextsAreExactlyTheGrammar(sql: string, q: QueryC)
    ensures ReadsAs(sql, q) <==> Writes(sql, InkOf(QueryTokens(q)))
  {
    hide LexesTo, Writes, QueryTokens, ParseQuery, Ended;
    QueryEndsInEof(q);
    var ink := InkOf(QueryTokens(q));
    LexesExactlyWhatIsWritten(sql, ink);
    ParsesExactlyTheGrammar(ink + [EOF], q);
    if ReadsAs(sql, q) {
      var ts :| LexesTo(sql, 0, 1, 1, ts) && Ended(ts + [EOF]) && ParseQuery(ts + [EOF]) == Ok(q);
      ParsesExactlyTheGrammar(ts + [EOF], q);
      assert ts == (ts + [EOF])[..|ts|] && ink == (ink + [EOF])[..|ink|];
    }
  }

  /** A query written out as text, in any spelling and layout, is lexed and parsed back to itself. */
  lemma {:induction false} TextRoundTrip(s: SelectStmt, sql: string)
    requires GoodSelect(s) && Writes(sql, InkOf(Print(s)))
    ensures var r := Lexed(sql, 0, 1, 1);
      r.Ok? && Ended(TokensOf(r.value)) && Parse(TokensOf(r.value)) == Ok(s)
  {
    hide Print, GoodSelect, Parse, Lexed, Writes, TokensOf, Ended;
    RoundTrip(s);
    PrintEndsInEof(s);
    LexesExactlyWhatIsWritten(sql, InkOf(Print(s)));
  }

  lemma PrintEndsInEof(s: SelectStmt)
    requires GoodSelect(s)
    ensures Print(s) == InkOf(Print(s)) + [EOF]
  {
    hide QueryTokens, CanonSelect;
    QueryEndsInEof(QueryC(CanonSelect(s), false));
  }

  /** Starting with ink, sql writes the tokens down. */
  ghost predicate WritesInk(sql: string, ts: seq<Token>) {
    exists texts, gaps :: LaidOut(sql, "", texts, gaps, ts)
  }

  lemma WritesNothing()
    ensures WritesInk("", [])
  {
    assert LaidOut("", "", [], [], []);
  }

  lemma WritesCons(text: string, gap: string, t: Token, sql: string, ts: seq<Token>, sql': string, ts': seq<Token>)
    requires WritesInk(sql, ts) && Spells(text, t) && IsGap(gap) && Apart(text, t, gap + sql)
    requires sql' == text + (gap + sql) && ts' == [t] + ts
    ensures WritesInk(sql', ts')
  {
    hide Spells, IsGap, Apart;
    var texts, gaps :| LaidOut(sql, "", texts, gaps, ts);
    var texts', gaps' := [text] + texts, [gap] + gaps;
    assert texts'[1..] == texts && gaps'[1..] == gaps && ts'[1..] == ts;
    assert "" + Laid(texts, gaps) == Laid(texts, gaps) && "" + Laid(texts', gaps') == Laid(texts', gaps');
    assert LaidOut(sql', "", texts', gaps', ts') by { NoGap(); }
  }

  lemma KeywordSpelled(text: string, t: Token)
    requires IsWord(text) && KeywordText(t) == Some(text)
    ensures Spells(text, t)
  {
  }

  lemma PlainWordSpelled(text: string)
    requires IsWord(text) && forall k :: KeywordText(k) != Some(text)
    ensures Spells(text, IDENT(text))
  {
    hide KeywordText;
  }

  const EXAMPLE: seq<Token> := [SELECT, AGG(COUNT), LPAREN, STAR, RPAREN, FROM, IDENT("tasks"), SEMI]

  /** The example in the documentation of `query`, where almost every token touches the next. */
  lemma DocumentedQueryIsWritten()
    ensures Writes("SELECT COUNT(*) FROM tasks;", EXAMPLE)
  {
    hide WritesInk, WordToken, Spells, KEYWORDS;
    ExampleWords();
    ExampleCall();
    WritesCons("SELECT", " ", SELECT, "COUNT(*) FROM tasks;", EXAMPLE[1..], "SELECT COUNT(*) FROM tasks;", EXAMPLE);
    InkIsWriting("SELECT COUNT(*) FROM tasks;", EXAMPLE);
  }

  lemma ExampleCall()
    ensures WritesInk("COUNT(*) FROM tasks;", EXAMPLE[1..])
  {
    hide WritesInk, WordToken, Spells, KEYWORDS;
    ExampleWords();
    ExampleArgument();
    WritesCons("COUNT", "", AGG(COUNT), "(*) FROM tasks;", EXAMPLE[2..], "COUNT(*) FROM tasks;", EXAMPLE[1..]);
  }

  lemma ExampleArgument()
    ensures WritesInk("(*) FROM tasks;", EXAMPLE[2..])
  {
    hide WritesInk, WordToken, Spells, KEYWORDS;
    ExampleMarks();
    ExampleStar();
    WritesCons("(", "", LPAREN, "*) FROM tasks;", EXAMPLE[3..], "(*) FROM tasks;", EXAMPLE[2..]);
  }

  lemma ExampleStar()
    ensures WritesInk("*) FROM tasks;", EXAMPLE[3..])
  {
    hide WritesInk, WordToken, Spells, KEYWORDS;
    ExampleMarks();
    ExampleFrom();
    WritesCons(")", " ", RPAREN, "FROM tasks;", EXAMPLE[5..], ") FROM tasks;", EXAMPLE[4..]);
    WritesCons("*", "", STAR, ") FROM tasks;", EXAMPLE[4..], "*) FROM tasks;", EXAMPLE[3..]);
  }

  lemma ExampleFrom()
    ensures WritesInk("FROM tasks;", EXAMPLE[5..])
  {
    hide WritesInk, WordToken, Spells, KEYWORDS;
    ExampleWords();
    ExampleMarks();
    WritesNothing();
    WritesCons(";", "", SEMI, "", [], ";", EXAMPLE[7..]);
    WritesCons("tasks", "", IDENT("tasks"), ";", EXAMPLE[7..], "tasks;", EXAMPLE[6..]);
    WritesCons("FROM", " ", FROM, "tasks;", EXAMPLE[6..], "FROM tasks;", EXAMPLE[5..]);
  }

  lemma ExampleMarks()
    ensures Spells(";", SEMI) && Spells(")", RPAREN) && Spells("*", STAR) && Spells("(", LPAREN)
  {
  }

  lemma ExampleWords()
    ensures Spells("SELECT", SELECT) && Spells("COUNT", AGG(COUNT)) && Spells("FROM", FROM)
    ensures Spells("tasks", IDENT("tasks"))
  {
    hide Spells;
    KeywordSpelled("SELECT", SELECT);
    KeywordSpelled("COUNT", AGG(COUNT));
    KeywordSpelled("FROM", FROM);
    PlainWordSpelled("tasks");
  }

  lemma InkIsWriting(sql: string, ts: seq<Token>)
    requires WritesInk(sql, ts)
    ensures Writes(sql, ts)
  {
  }

  // ----- positions -----

  function Newlines(text: string): nat {
    if text == "" then 0 else Newlines(text[..|text| - 1]) + if text[|text| - 1] == '\n' then 1 else 0
  }

  /** The line of the position right after `before`. */
  function LineAfter(before: string): nat {
    1 + Newlines(before)
  }

  /** The column of the position right after `before`. */
  function ColumnAfter(before: string): nat {
    if before == "" || before[|before| - 1] == '\n' then 1 else 1 + ColumnAfter(before[..|before| - 1])
  }

  /** Newlines inside string literals, which the tokenizer does not count. */
  function Hidden(ls: seq<Located>): nat {
    if ls == [] then 0 else (if ls[0].token.STRING? then Newlines(ls[0].token.text) else 0) + Hidden(ls[1..])
  }

  lemma {:induction false} NewlinesConcat(a: string, b: string)
    ensures Newlines(a + b) == Newlines(a) + Newlines(b)
  {
    if b == "" {
      assert a + b == a;
    } else {
      assert (a + b)[..|a + b| - 1] == a + b[..|b| - 1];
      NewlinesConcat(a, b[..|b| - 1]);
    }
  }

  lemma {:induction false} NoNewlines(text: string)
    ensures Newlines(text) == 0 <==> '\n' !in text
  {
    if text != "" {
      assert text == text[..|text| - 1] + [text[|text| - 1]];
      NoNewlines(text[..|text| - 1]);
    }
  }

  lemma {:induction false} ColumnGrows(before: string, text: string)
    requires '\n' !in text
    ensures ColumnAfter(before + text) == ColumnAfter(before) + |text|
  {
    if text == "" {
      assert before + text == before;
    } else {
      var n := |text| - 1;
      assert text[n] in text && forall c :: c in text[..n] ==> c in text;
      assert (before + text)[..|before| + n] == before + text[..n];
      ColumnGrows(before, text[..n]);
    }
  }

  lemma {:induction false} SkipCounts(before: string, text: string, line: nat, col: nat)
    ensures Skip(text, line, col).0 == line + Newlines(text)
    ensures col == ColumnAfter(before) ==> Skip(text, line, col).1 == ColumnAfter(before + text)
    decreases |text|
  {
    if text == "" {
      assert before + text == before;
    } else {
      var one, rest := text[..1], text[1..];
      assert text == one + rest && before + text == before + one + rest;
      NewlinesConcat(one, rest);
      assert one[..0] == "" && (before + one)[..|before|] == before;
      if text[0] == '\n' {
        SkipCounts(before + one, rest, line + 1, 1);
      } else {
        SkipCounts(before + one, rest, line, col + 1);
      }
    }
  }

  /** A token's text has no newline outside a string, and a string has those of its content. */
  lemma TokenNewlines(text: string, t: Token)
    requires Spells(text, t)
    ensures Newlines(text) == if t.STRING? then Newlines(t.text) else 0
  {
    hide SpellsWord, Stands, Newlines;
    if t.STRING? {
      var q := [text[0]];
      NewlinesConcat(q + t.text, q);
      NewlinesConcat(q, t.text);
      NoNewlines(q);
    } else {
      if t.NUMBER? {
        var point: nat :| IsNumber(text, point) && Stands(text, point, t.value);
        NumberHasNoNewline(text, point);
      }
      NoNewlines(text);
    }
  }

  lemma NumberHasNoNewline(text: string, point: nat)
    requires IsNumber(text, point)
    ensures '\n' !in text
  {
    assert text == text[..point] + text[point..];
    forall i | 0 <= i < |text| ensures text[i] != '\n' {
      if i < point { assert text[i] == text[..point][i]; }
      if i > point { assert text[i] == text[point + 1..][i - point - 1]; }
    }
  }

  /** The invariant of the tokenizer's line and column after reading `before`, with `hidden` newlines missed. */
  ghost predicate Tracking(before: string, at: nat, line: nat, col: nat, hidden: nat) {
    && at == |before| && LineAfter(before) == line + hidden
    && (hidden == 0 ==> col == ColumnAfter(before))
  }

  lemma BlankTracks(before: string, text: string, at: nat, line: nat, col: nat, hidden: nat)
    requires Tracking(before, at, line, col, hidden)
    ensures var (l, c) := Skip(text, line, col); Tracking(before + text, at + |text|, l, c, hidden)
  {
    hide Newlines, ColumnAfter, Skip;
    NewlinesConcat(before, text);
    SkipCounts(before, text, line, col);
  }

  lemma TokenTracks(before: string, text: string, t: Token, at: nat, line: nat, col: nat, hidden: nat)
    requires Tracking(before, at, line, col, hidden) && Spells(text, t)
    ensures Tracking(before + text, at + |text|, line, col + |text|,
                     hidden + if t.STRING? then Newlines(t.text) else 0)
  {
    hide Newlines, ColumnAfter, Spells;
    NewlinesConcat(before, text);
    TokenNewlines(text, t);
    NoNewlines(text);
    if '\n' !in text { ColumnGrows(before, text); }
  }

  /** x stands inside whole and its reported position misses `hidden` newlines. */
  ghost predicate OnTrack(whole: string, x: Located, hidden: nat) {
    x.at <= |whole| && Tracking(whole[..x.at], x.at, x.line, x.col, hidden)
  }

  lemma {:induction false} LexedTracks(before: string, s: string, at: nat, line: nat, col: nat, hidden: nat, k: nat)
    requires Tracking(before, at, line, col, hidden)
    requires Lexed(s, at, line, col).Ok? && k < |Lexed(s, at, line, col).value|
    ensures var ls := Lexed(s, at, line, col).value; OnTrack(before + s, ls[k], hidden + Hidden(ls[..k]))
    decreases |s|
  {
    hide OnTrack, Tracking, MatchAt, Skip, Spells, Newlines, Hidden;
    var ls := Lexed(s, at, line, col).value;
    if s == "" {
      FirstOnTrack(before, s, ls, hidden);
    } else {
      var (lexeme, n) := MatchAt(s).value;
      var text, rest := s[..n], s[n..];
      assert before + s == before + text + rest;
      match lexeme
      case Blank =>
        var (l, c) := Skip(text, line, col);
        BlankTracks(before, text, at, line, col, hidden);
        LexedTracks(before + text, rest, at + n, l, c, hidden, k);
      case Tok(t) =>
        if k == 0 {
          FirstOnTrack(before, s, ls, hidden);
        } else {
          MatchedTokenIsSpelled(s);
          TokenTracks(before, text, t, at, line, col, hidden);
          var missed := if t.STRING? then Newlines(t.text) else 0;
          LexedTracks(before + text, rest, at + n, line, col + n, hidden + missed, k - 1);
          HiddenCons(ls[0], Lexed(rest, at + n, line, col + n).value, k - 1);
        }
    }
  }

  lemma FirstOnTrack(before: string, s: string, ls: seq<Located>, hidden: nat)
    requires ls != [] && Tracking(before, ls[0].at, ls[0].line, ls[0].col, hidden)
    ensures OnTrack(before + s, ls[0], hidden + Hidden(ls[..0]))
  {
    assert ls[..0] == [] && (before + s)[..|before|] == before;
    NothingHidden();
  }

  lemma NothingHidden()
    ensures Hidden([]) == 0
  {
  }

  lemma HiddenCons(x: Located, later: seq<Located>, k: nat)
    requires k <= |later|
    ensures Hidden(([x] + later)[..k + 1]) ==
      (if x.token.STRING? then Newlines(x.token.text) else 0) + Hidden(later[..k])
  {
    var some := ([x] + later)[..k + 1];
    assert some[0] == x && some[1..] == later[..k];
  }

  lemma {:induction false} HiddenIsNone(ls: seq<Located>)
    ensures Hidden(ls) == 0 <==> forall i :: 0 <= i < |ls| && ls[i].token.STRING? ==> '\n' !in ls[i].token.text
  {
    hide Newlines;
    if ls != [] {
      HiddenIsNone(ls[1..]);
      assert forall i :: 0 < i < |ls| ==> ls[i] == ls[1..][i - 1];
      if ls[0].token.STRING? { NoNewlines(ls[0].token.text); }
    }
  }

  /** A reported position is the true one if and only if no string literal before it contains a newline. */
  lemma {:induction false} PositionsAreExact(sql: string, k: nat)
    requires Lexed(sql, 0, 1, 1).Ok? && k < |Lexed(sql, 0, 1, 1).value|
    ensures var ls := Lexed(sql, 0, 1, 1).value;
      && ls[k].at <= |sql|
      && ((ls[k].line == LineAfter(sql[..ls[k].at]) && ls[k].col == ColumnAfter(sql[..ls[k].at])) <==>
          forall i :: 0 <= i < k && ls[i].token.STRING? ==> '\n' !in ls[i].token.text)
  {
    hide Lexed, Newlines, Hidden;
    var ls := Lexed(sql, 0, 1, 1).value;
    assert "" + sql == sql && Tracking("", 0, 1, 1, 0) by { NothingRead(); }
    LexedTracks("", sql, 0, 1, 1, 0, k);
    HiddenIsNone(ls[..k]);
    assert forall i :: 0 <= i < k ==> ls[..k][i] == ls[i];
  }

  lemma NothingRead()
    ensures Tracking("", 0, 1, 1, 0)
  {
  }
}
