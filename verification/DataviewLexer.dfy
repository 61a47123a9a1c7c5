/** From query text to tokens: maximal-munch lexing and the line and column it reports. */
module DataviewLexer {
  import opened Seqs
  import opened DataviewSyntax

  // ----- characters -----

  /** The characters Python counts as white space. */
  predicate Space(c: char) {
    var n := c as int;
    || 9 <= n <= 13 || 28 <= n <= 32 || n == 0x85 || n == 0xA0 || n == 0x1680 || 0x2000 <= n <= 0x200A
    || n == 0x2028 || n == 0x2029 || n == 0x202F || n == 0x205F || n == 0x3000
  }

  predicate Digit(c: char) {
    '0' <= c <= '9'
  }

  predicate IdentStart(c: char) {
    'A' <= c <= 'Z' || 'a' <= c <= 'z' || c == '_'
  }

  predicate IdentPart(c: char) {
    IdentStart(c) || Digit(c)
  }

  function Other(q: char): char -> bool {
    (c: char) => c != q
  }

  /** The end of the longest stretch from `from` of characters satisfying p. */
  function Span(s: string, from: nat, p: char -> bool): (e: nat)
    requires from <= |s|
    ensures from <= e <= |s| && (forall i :: from <= i < e ==> p(s[i])) && (e < |s| ==> !p(s[e]))
    decreases |s| - from
  {
    if from < |s| && p(s[from]) then Span(s, from + 1, p) else from
  }

  lemma {:induction false} SpanIs(s: string, from: nat, p: char -> bool, e: nat)
    requires from <= e <= |s| && (forall i :: from <= i < e ==> p(s[i])) && (e < |s| ==> !p(s[e]))
    ensures Span(s, from, p) == e
    decreases e - from
  {
    if from < e { SpanIs(s, from + 1, p, e); }
  }

  // ----- lexemes -----

  datatype Lexeme = Blank | Tok(token: Token)

  const KEYWORDS: map<string, Token> := map[
    "SELECT" := SELECT, "FROM" := FROM, "WHERE" := WHERE, "IN" := IN, "STEPS" := STEPS, "ORDER" := ORDER,
    "BY" := BY, "ASC" := ASC, "DESC" := DESC, "LIMIT" := LIMIT, "AS" := AS, "FILTER" := FILTER, "AND" := AND,
    "OR" := OR, "NOT" := NOT, "COUNT" := AGG(COUNT), "AVG" := AGG(AVG), "SUM" := AGG(SUM), "MIN" := AGG(MIN),
    "MAX" := AGG(MAX), "DISTINCT" := DISTINCT, "ALL" := ALL]

  function WordToken(text: string): Token {
    if text in KEYWORDS then KEYWORDS[text] else IDENT(text)
  }

  function NumberEnd(s: string): (e: nat)
    requires s != "" && Digit(s[0])
    ensures 0 < e <= |s|
  {
    var a := Span(s, 0, Digit);
    if a + 1 < |s| && s[a] == '.' && Digit(s[a + 1]) then Span(s, a + 1, Digit) else a
  }

  function Decimal(s: string): nat {
    if s == "" then 0
    else 10 * Decimal(s[..|s| - 1]) + if Digit(s[|s| - 1]) then (s[|s| - 1] - '0') as int else 0
  }

  function Pow10(n: nat): (p: nat)
    ensures p > 0
  {
    if n == 0 then 1 else 10 * Pow10(n - 1)
  }

  function NumberValue(text: string): UReal {
    var a := Span(text, 0, Digit);
    var whole := Decimal(text[..a]) as real;
    if a == |text| then whole
    else
      var part := text[a + 1..];
      whole + Decimal(part) as real / Pow10(|part|) as real
  }

  function OpAt(s: string): (r: Option<(CmpOp, nat)>)
    requires s != ""
    ensures r.Some? ==> 0 < r.value.1 <= |s|
  {
    var eq := |s| > 1 && s[1] == '=';
    match s[0]
    case '>' => Some(if eq then (GTE, 2) else (GT, 1))
    case '<' => Some(if eq then (LTE, 2) else (LT, 1))
    case '!' => if eq then Some((NEQ, 2)) else None
    case '=' => Some((EQ, 1))
    case _ => None
  }

  function Punctuation(c: char): Option<Token> {
    match c
    case ',' => Some(COMMA)
    case ';' => Some(SEMI)
    case '(' => Some(LPAREN)
    case ')' => Some(RPAREN)
    case '*' => Some(STAR)
    case '.' => Some(DOT)
    case _ => None
  }

  /** The token pattern at the front of s, and how many characters it takes. */
  function MatchAt(s: string): (m: Option<(Lexeme, nat)>)
    requires s != ""
    ensures m.Some? ==> 0 < m.value.1 <= |s|
  {
    var c := s[0];
    if Space(c) then Some((Blank, Span(s, 0, Space)))
    else if Digit(c) then
      var n := NumberEnd(s);
      Some((Tok(NUMBER(NumberValue(s[..n]))), n))
    else if c == '\'' || c == '"' then
      var e := Span(s, 1, Other(c));
      if e < |s| then Some((Tok(STRING(s[1..e])), e + 1)) else None
    else if IdentStart(c) then
      var n := Span(s, 0, IdentPart);
      Some((Tok(WordToken(s[..n])), n))
    else
      match OpAt(s)
      case Some((op, n)) => Some((Tok(OP(op)), n))
      case None =>
        match Punctuation(c)
        case Some(t) => Some((Tok(t), 1))
        case None => None
  }

  // ----- the tokenizer -----

  /** A token with the offset of its first character and the line and column reported for it. */
  datatype Located = Located(token: Token, at: nat, line: nat, col: nat)

  datatype LexError = LexError(found: char, line: nat, col: nat)

  function Skip(text: string, line: nat, col: nat): (nat, nat) {
    if text == "" then (line, col)
    else if text[0] == '\n' then Skip(text[1..], line + 1, 1)
    else Skip(text[1..], line, col + 1)
  }

  function Lexed(s: string, at: nat, line: nat, col: nat): (r: Result<seq<Located>, LexError>)
    ensures r.Ok? ==> r.value != []
    decreases |s|
  {
    if s == "" then Ok([Located(EOF, at, line, col)])
    else
      match MatchAt(s)
      case None => Err(LexError(s[0], line, col))
      case Some((Blank, n)) =>
        var (l, c) := Skip(s[..n], line, col);
        Lexed(s[n..], at + n, l, c)
      case Some((Tok(t), n)) =>
        var rest :- Lexed(s[n..], at + n, line, col + n);
        Ok([Located(t, at, line, col)] + rest)
  }

  method Tokenize(sql: string) returns (r: Result<seq<Located>, LexError>)
    ensures r == Lexed(sql, 0, 1, 1)
  {
    hide MatchAt, Skip;
    var tokens: seq<Located> := [];
    var pos, line, col := 0, 1, 1;
    assert sql[0..] == sql;
    PrependNone(Lexed(sql, 0, 1, 1));
    while pos < |sql|
      invariant pos <= |sql|
      invariant Lexed(sql, 0, 1, 1) == Prepend(tokens, Lexed(sql[pos..], pos, line, col))
    {
      var m := MatchAt(sql[pos..]);
      if m.None? { return Err(LexError(sql[pos], line, col)); }
      var (lexeme, n) := m.value;
      var text := sql[pos..pos + n];
      assert sql[pos..][..n] == text && sql[pos..][n..] == sql[pos + n..];
      match lexeme {
        case Blank =>
          line, col := SkipBlank(text, line, col);
        case Tok(t) =>
          PrependOne(tokens, Located(t, pos, line, col), Lexed(sql[pos + n..], pos + n, line, col + n));
          tokens := tokens + [Located(t, pos, line, col)];
          col := col + n;
      }
      pos := pos + n;
    }
    return Ok(tokens + [Located(EOF, pos, line, col)]);
  }

  method SkipBlank(text: string, line0: nat, col0: nat) returns (line: nat, col: nat)
    ensures (line, col) == Skip(text, line0, col0)
  {
    line, col := line0, col0;
    assert text[0..] == text;
    for i := 0 to |text|
      invariant Skip(text, line0, col0) == Skip(text[i..], line, col)
    {
      assert text[i..][1..] == text[i + 1..];
      if text[i] == '\n' { line, col := line + 1, 1; } else { col := col + 1; }
    }
  }

  function Prepend(done: seq<Located>, r: Result<seq<Located>, LexError>): Result<seq<Located>, LexError> {
    if r.Ok? then Ok(done + r.value) else r
  }

  lemma PrependNone(r: Result<seq<Located>, LexError>)
    ensures Prepend([], r) == r
  {
    if r.Ok? { assert [] + r.value == r.value; }
  }

  lemma PrependOne(done: seq<Located>, x: Located, r: Result<seq<Located>, LexError>)
    ensures Prepend(done, Prepend([x], r)) == Prepend(done + [x], r)
  {
    if r.Ok? { assert done + ([x] + r.value) == done + [x] + r.value; }
  }
}
