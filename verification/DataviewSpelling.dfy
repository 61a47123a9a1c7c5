/** The written form of keywords, numbers and characters, apart from the lexer that reads them. */
module DataviewSpelling {
  import opened Seqs
  import opened DataviewSyntax
  import opened DataviewLexer

  // ----- characters -----

  const UPPER: string := "ABCDEFGHIJKLMNOPQRSTUVWXYZ"

  const LOWER: string := "abcdefghijklmnopqrstuvwxyz"

  /** Tab, line feed, vertical tab, form feed, carriage return, the four separators, space, and the spaces beyond
      ASCII. */
  const BLANKS: set<int> := {9, 10, 11, 12, 13, 28, 29, 30, 31, 32, 0x85, 0xA0, 0x1680, 0x2000, 0x2001, 0x2002, 0x2003,
                             0x2004, 0x2005, 0x2006, 0x2007, 0x2008, 0x2009, 0x200A, 0x2028, 0x2029, 0x202F, 0x205F, 0x3000}

  /** Words are made of ASCII letters, digits and underscores and do not start with a digit. */
  lemma CharactersAreSorted(c: char)
    ensures Digit(c) <==> c in "0123456789"
    ensures IdentStart(c) <==> c in UPPER || c in LOWER || c == '_'
    ensures IdentPart(c) <==> c in UPPER || c in LOWER || c == '_' || c in "0123456789"
    ensures Space(c) <==> c as int in BLANKS
  {
    hide UPPER, LOWER, BLANKS;
    var digits := "0123456789";
    if Digit(c) { assert digits[c as int - '0' as int] == c; }
    UpperLetters(c);
    LowerLetters(c);
    Blanks(c);
  }

  lemma UpperLetters(c: char)
    ensures 'A' <= c <= 'Z' <==> c in UPPER
  {
    assert |UPPER| == 26;
    assert forall i :: 0 <= i < 26 ==> UPPER[i] as int == 'A' as int + i;
    if 'A' <= c <= 'Z' { assert UPPER[c as int - 'A' as int] == c; }
  }

  lemma LowerLetters(c: char)
    ensures 'a' <= c <= 'z' <==> c in LOWER
  {
    assert |LOWER| == 26;
    assert forall i :: 0 <= i < 26 ==> LOWER[i] as int == 'a' as int + i;
    if 'a' <= c <= 'z' { assert LOWER[c as int - 'a' as int] == c; }
  }

  lemma Blanks(c: char)
    ensures Space(c) <==> c as int in BLANKS
  {
  }

  // ----- words -----

  function AggKeyword(agg: Agg): string {
    match agg
    case COUNT => "COUNT"
    case AVG => "AVG"
    case SUM => "SUM"
    case MIN => "MIN"
    case MAX => "MAX"
  }

  /** How a keyword is written; other tokens are not keywords. */
  function KeywordText(t: Token): Option<string> {
    match t
    case SELECT => Some("SELECT")
    case FROM => Some("FROM")
    case WHERE => Some("WHERE")
    case IN => Some("IN")
    case STEPS => Some("STEPS")
    case ORDER => Some("ORDER")
    case BY => Some("BY")
    case ASC => Some("ASC")
    case DESC => Some("DESC")
    case LIMIT => Some("LIMIT")
    case AS => Some("AS")
    case FILTER => Some("FILTER")
    case AND => Some("AND")
    case OR => Some("OR")
    case NOT => Some("NOT")
    case DISTINCT => Some("DISTINCT")
    case ALL => Some("ALL")
    case AGG(agg) => Some(AggKeyword(agg))
    case _ => None
  }

  /** A word is the keyword written that way, or the identifier of that name when there is no such keyword. */
  ghost predicate SpellsWord(text: string, t: Token) {
    match t
    case IDENT(name) => text == name && forall k :: KeywordText(k) != Some(text)
    case _ => KeywordText(t) == Some(text)
  }

  lemma EarlyKeywords(t: Token)
    requires t in {SELECT, FROM, WHERE, IN, STEPS, ORDER, BY, ASC}
    ensures KeywordText(t).value in KEYWORDS && KEYWORDS[KeywordText(t).value] == t
  {
  }

  lemma LateKeywords(t: Token)
    requires t in {DESC, LIMIT, AS, FILTER, AND, OR, NOT, DISTINCT, ALL}
    ensures KeywordText(t).value in KEYWORDS && KEYWORDS[KeywordText(t).value] == t
  {
  }

  lemma AggKeywords(agg: Agg)
    ensures AggKeyword(agg) in KEYWORDS && KEYWORDS[AggKeyword(agg)] == AGG(agg)
  {
  }

  lemma KeywordsAreListed(t: Token)
    requires KeywordText(t).Some?
    ensures KeywordText(t).value in KEYWORDS && KEYWORDS[KeywordText(t).value] == t
  {
    hide KEYWORDS;
    if t.AGG? { AggKeywords(t.agg); } else if t in {SELECT, FROM, WHERE, IN, STEPS, ORDER, BY, ASC} { EarlyKeywords(t); } else { LateKeywords(t); }
  }

  lemma ListedAreKeywords(text: string)
    requires text in KEYWORDS
    ensures KeywordText(KEYWORDS[text]) == Some(text)
  {
  }

  lemma {:induction false} WordTokenExactly(text: string, t: Token)
    ensures t == WordToken(text) <==> SpellsWord(text, t)
  {
    hide KEYWORDS, KeywordText;
    NamesAreNoKeywords();
    if text in KEYWORDS { ListedAreKeywords(text); }
    forall k | KeywordText(k) == Some(text) ensures text in KEYWORDS && KEYWORDS[text] == k {
      KeywordsAreListed(k);
    }
  }

  lemma NamesAreNoKeywords()
    ensures forall name :: KeywordText(IDENT(name)) == None
  {
  }

  // ----- numbers -----

  function DigitValue(c: char): nat {
    match c
    case '1' => 1
    case '2' => 2
    case '3' => 3
    case '4' => 4
    case '5' => 5
    case '6' => 6
    case '7' => 7
    case '8' => 8
    case '9' => 9
    case _ => 0
  }

  function Power(n: nat): nat {
    if n == 0 then 1 else Power(n - 1) * 10
  }

  /** Each digit counts ten times the next. */
  function Numeral(digits: string): nat {
    if digits == "" then 0 else DigitValue(digits[0]) * Power(|digits| - 1) + Numeral(digits[1..])
  }

  /** v is the number written with its decimal point, if any, after `point` digits. */
  ghost predicate Stands(text: string, point: nat, v: real)
    requires point <= |text|
  {
    if point == |text| then v == Numeral(text) as real
    else v * Power(|text| - point - 1) as real == Numeral(text[..point] + text[point + 1..]) as real
  }

  lemma {:induction false} PowersAgree(n: nat)
    ensures Power(n) == Pow10(n) && Power(n) > 0
  {
    if n > 0 { PowersAgree(n - 1); }
  }

  lemma {:induction false} PowersMultiply(m: nat, n: nat)
    ensures Power(m + n) == Power(m) * Power(n)
  {
    if n > 0 {
      PowersMultiply(m, n - 1);
      assert Power(m + n) == Power(m + n - 1) * 10 == Power(m) * Power(n - 1) * 10;
    }
  }

  lemma Spread(d: nat, p: nat, r: nat, q: nat, pq: nat, e: nat)
    requires pq == p * q
    ensures d * pq + (r * q + e) == (d * p + r) * q + e
  {
    assert d * (p * q) == d * p * q;
    assert (d * p + r) * q == d * p * q + r * q;
  }

  lemma NumeralCons(s: string)
    requires s != ""
    ensures Numeral(s) == DigitValue(s[0]) * Power(|s| - 1) + Numeral(s[1..])
  {
  }

  lemma {:induction false} NumeralConcat(a: string, b: string)
    ensures Numeral(a + b) == Numeral(a) * Power(|b|) + Numeral(b)
    decreases |a|
  {
    hide DigitValue, Power;
    if a == "" {
      assert a + b == b;
    } else {
      hide Numeral;
      assert (a + b)[1..] == a[1..] + b && (a + b)[0] == a[0];
      NumeralCons(a + b);
      NumeralCons(a);
      NumeralConcat(a[1..], b);
      PowersMultiply(|a| - 1, |b|);
      Spread(DigitValue(a[0]), Power(|a| - 1), Numeral(a[1..]), Power(|b|), Power(|a| - 1 + |b|), Numeral(b));
    }
  }

  lemma OneDigit(c: char)
    ensures Numeral([c]) == DigitValue(c) && Power(1) == 10
    ensures Digit(c) ==> DigitValue(c) == (c - '0') as int
  {
    assert [c][1..] == "" && Power(0) == 1;
  }

  lemma {:induction false} DecimalIsNumeral(s: string)
    requires forall i :: 0 <= i < |s| ==> Digit(s[i])
    ensures Decimal(s) == Numeral(s)
  {
    if s != "" {
      hide Numeral, Power, DigitValue;
      var init, c := s[..|s| - 1], s[|s| - 1];
      DecimalIsNumeral(init);
      assert s == init + [c];
      NumeralConcat(init, [c]);
      OneDigit(c);
    }
  }

  lemma {:induction false} NumberValueStands(text: string, point: nat, v: UReal)
    requires 0 < point <= |text| && (forall i :: 0 <= i < point ==> Digit(text[i]))
    requires point < |text| ==> text[point] == '.' && forall i :: point < i < |text| ==> Digit(text[i])
    ensures v == NumberValue(text) <==> Stands(text, point, v)
  {
    hide Numeral, Decimal, Power, Pow10;
    SpanIs(text, 0, Digit, point);
    var whole := text[..point];
    DecimalIsNumeral(whole);
    if point < |text| {
      var part := text[point + 1..];
      forall i | 0 <= i < |part| ensures Digit(part[i]) { assert part[i] == text[point + 1 + i]; }
      DecimalIsNumeral(part);
      NumeralConcat(whole, part);
      PowersAgree(|part|);
      Fraction(Numeral(whole) as real, Numeral(part) as real, Power(|part|) as real, v);
    } else {
      assert whole == text;
    }
  }

  lemma Fraction(w: real, p: real, q: real, v: real)
    requires q > 0.0
    ensures v == w + p / q <==> v * q == w * q + p
  {
    assert (p / q) * q == p;
    assert (w + p / q) * q == w * q + p;
  }
}
