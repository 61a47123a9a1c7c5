/** What the comparison of field values means, in terms of numbers and of the characters of texts. */
module DataviewValues {
  import opened Seqs
  import opened GraphModel
  import opened DataviewSyntax
  import opened DataviewQuery

  /** The number a value counts as, if it is one: booleans are 1 and 0. */
  function AsReal(v: Value): Option<real> {
    match v
    case Num(x) => Some(x)
    case Bool(true) => Some(1.0)
    case Bool(false) => Some(0.0)
    case Str(_) => None
    case Null => None
  }

  /** s comes before t: where they first differ s has the smaller character, or s is a proper prefix of t. */
  ghost predicate TextBefore(s: string, t: string) {
    exists i: nat :: AgreeUpTo(s, t, i) && i < |t| && (i == |s| || s[i] < t[i])
  }

  ghost predicate AgreeUpTo(s: string, t: string, i: nat) {
    i <= |s| && i <= |t| && forall j :: 0 <= j < i ==> s[j] == t[j]
  }

  ghost predicate Precedes(a: Value, b: Value) {
    || (AsReal(a).Some? && AsReal(b).Some? && AsReal(a).value < AsReal(b).value)
    || (a.Str? && b.Str? && TextBefore(a.s, b.s))
  }

  /** Two numbers that are the same, two equal texts, or nothing twice. */
  predicate Alike(a: Value, b: Value) {
    || (AsReal(a).Some? && AsReal(b).Some? && AsReal(a).value == AsReal(b).value)
    || (a.Str? && b.Str? && a.s == b.s)
    || (a.Null? && b.Null?)
  }

  /** What `actual op expected` selects. Values that cannot be ordered satisfy `!=` alone. */
  ghost predicate Related(actual: Value, op: CmpOp, expected: Value) {
    match op
    case EQ => Alike(actual, expected)
    case NEQ => !Alike(actual, expected)
    case GT => Precedes(expected, actual)
    case LT => Precedes(actual, expected)
    case GTE => Precedes(expected, actual) || (Alike(actual, expected) && !actual.Null?)
    case LTE => Precedes(actual, expected) || (Alike(actual, expected) && !actual.Null?)
  }

  lemma {:induction false} TextLessIsBefore(s: string, t: string)
    ensures TextLess(s, t) <==> TextBefore(s, t)
  {
    if TextLess(s, t) {
      if s == [] || s[0] < t[0] {
        assert AgreeUpTo(s, t, 0);
      } else {
        TextLessIsBefore(s[1..], t[1..]);
        var i: nat :| AgreeUpTo(s[1..], t[1..], i) && i < |t[1..]| && (i == |s[1..]| || s[1..][i] < t[1..][i]);
        forall j | 0 <= j < i + 1 ensures s[j] == t[j] {
          if j > 0 { assert s[1..][j - 1] == t[1..][j - 1]; }
        }
        assert AgreeUpTo(s, t, i + 1);
      }
    }
    if i: nat :| AgreeUpTo(s, t, i) && i < |t| && (i == |s| || s[i] < t[i]) {
      if i > 0 {
        assert AgreeUpTo(s[1..], t[1..], i - 1);
        TextLessIsBefore(s[1..], t[1..]);
      }
    }
  }

  /** Every operator selects exactly what it says, through all branches of the comparison. */
  lemma {:induction false} CompareMeans(actual: Value, op: CmpOp, expected: Value)
    ensures Compare(actual, op, expected) <==> Related(actual, op, expected)
  {
    hide TextLess, TextBefore;
    if actual.Str? && expected.Str? {
      TextLessIsBefore(actual.s, expected.s);
      TextLessIsBefore(expected.s, actual.s);
    }
  }

  /** Values are ordered by Less, where they can be, exactly when one comes before the other. */
  lemma {:induction false} LessMeans(a: Value, b: Value)
    ensures Comparable(a, b) && Less(a, b) <==> Precedes(a, b)
    ensures Comparable(a, b) <==> (AsReal(a).Some? && AsReal(b).Some?) || (a.Str? && b.Str?)
    ensures SameValue(a, b) <==> Alike(a, b)
  {
    hide TextLess, TextBefore;
    if a.Str? && b.Str? { TextLessIsBefore(a.s, b.s); }
  }
}
