/** A query from its text to its answer: lex, parse, execute. */
module DataviewRun {
  import opened Seqs
  import opened GraphModel
  import opened MemoryGraph
  import opened DataviewSyntax
  import opened DataviewGrammar
  import opened DataviewTheorems
  import opened DataviewLexer
  import opened DataviewText
  import opened DataviewParser
  import opened DataviewQuery
  import opened DataviewExecutor

  datatype Failure = BadText(lex: LexError) | BadSyntax(syntax: SyntaxError) | BadQuery(query: QueryError)

  /** The lexer's token list ends in EOF and has no other, so the parser can take it. */
  lemma {:induction false} LexedIsEnded(s: string, at: nat, line: nat, col: nat)
    requires Lexed(s, at, line, col).Ok?
    ensures Ended(TokensOf(Lexed(s, at, line, col).value))
    decreases |s|
  {
    hide Skip, MatchAt, TokensOf, Ended;
    if s == "" {
      EndIsEnded(Located(EOF, at, line, col));
    } else {
      var (lexeme, n) := MatchAt(s).value;
      match lexeme
      case Blank =>
        var (l, c) := Skip(s[..n], line, col);
        LexedIsEnded(s[n..], at + n, l, c);
      case Tok(t) =>
        LexedIsEnded(s[n..], at + n, line, col + n);
        MatchIsNotEof(s);
        OneMoreEnded(Located(t, at, line, col), Lexed(s[n..], at + n, line, col + n).value);
    }
  }

  lemma EndIsEnded(x: Located)
    requires x.token == EOF
    ensures Ended(TokensOf([x]))
  {
  }

  lemma OneMoreEnded(x: Located, ls: seq<Located>)
    requires Ended(TokensOf(ls)) && x.token != EOF
    ensures Ended(TokensOf([x] + ls))
  {
    assert TokensOf([x] + ls) == Then(x.token, TokensOf(ls));
  }

  lemma MatchIsNotEof(s: string)
    requires s != "" && MatchAt(s).Some?
    ensures MatchAt(s).value.0 != Tok(EOF)
  {
    hide Span, NumberEnd, NumberValue;
  }

  /** What a query text means on a graph. */
  ghost function Answer(sql: string, v: View, env: Env): Result<QueryResult, Failure>
    requires Enumerates(env, v)
  {
    match Lexed(sql, 0, 1, 1)
    case Err(e) => Err(BadText(e))
    case Ok(ls) =>
      LexedIsEnded(sql, 0, 1, 1);
      match Parse(TokensOf(ls))
      case Err(e) => Err(BadSyntax(e))
      case Ok(s) => Meaning(s, v, env)
  }

  ghost function Meaning(s: SelectStmt, v: View, env: Env): Result<QueryResult, Failure>
    requires Enumerates(env, v)
  {
    match Denote(s, v, env)
    case Err(e) => Err(BadQuery(e))
    case Ok(r) => Ok(r)
  }

  method RunQuery(sql: string, g: MultiLinkGraph, env: Env) returns (r: Result<QueryResult, Failure>)
    requires g.Valid() && Enumerates(env, g.State())
    ensures r == Answer(sql, g.State(), env)
  {
    hide Lexed, Parse, Denote, Enumerates, Ended;
    var located := Tokenize(sql);
    if located.Err? { return Err(BadText(located.error)); }
    LexedIsEnded(sql, 0, 1, 1);
    var tokens := TokensOf(located.value);
    var parser := new Parser(tokens);
    var stmt := parser.ParseStatement();
    if stmt.Err? { return Err(BadSyntax(stmt.error)); }
    var answer := ExecuteQuery(stmt.value, g, env);
    if answer.Err? { return Err(BadQuery(answer.error)); }
    r := Ok(answer.value);
  }

  /** Every way of writing a query down is answered with what the query denotes. */
  lemma {:induction false} EveryTextIsAnswered(s: SelectStmt, sql: string, v: View, env: Env)
    requires Enumerates(env, v) && GoodSelect(s) && Writes(sql, InkOf(Print(s)))
    ensures Answer(sql, v, env) == Meaning(s, v, env)
  {
    hide Lexed, Parse, Denote, Enumerates, Ended, Writes, Print, GoodSelect;
    TextRoundTrip(s, sql);
  }

  /** Whether a text is a query at all, whatever the graph: it is answered by a denotation exactly when it writes
      down one of the grammar's queries. */
  lemma {:induction false} AnsweredExactlyWhenWritten(sql: string, v: View, env: Env)
    requires Enumerates(env, v)
    ensures (Answer(sql, v, env).Ok? || Answer(sql, v, env).error.BadQuery?) <==>
              exists q :: Writes(sql, InkOf(QueryTokens(q)))
  {
    hide Lexed, ParseQuery, Denote, Enumerates, Ended, Writes, QueryTokens, TokensOf, AbsSelect;
    if Lexed(sql, 0, 1, 1).Ok? {
      LexedIsEnded(sql, 0, 1, 1);
      LexedEndsInEof(sql, 0, 1, 1);
      var ls := Lexed(sql, 0, 1, 1).value;
      if ParseQuery(TokensOf(ls)).Ok? {
        var q := ParseQuery(TokensOf(ls)).value;
        assert LexesTo(sql, 0, 1, 1, Ink(ls)) && ReadsAs(sql, q);
        TextsAreExactlyTheGrammar(sql, q);
      }
    }
    if q :| Writes(sql, InkOf(QueryTokens(q))) {
      TextsAreExactlyTheGrammar(sql, q);
    }
  }
}
