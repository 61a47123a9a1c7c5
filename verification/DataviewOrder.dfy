/** What ORDER BY and LIMIT do to the rows of an answer. */
module DataviewOrder {
  import opened Seqs
  import opened GraphModel
  import opened DataviewSyntax
  import opened DataviewQuery
  import opened DataviewValues

  // ----- the order of values -----

  lemma {:induction false} TextOrder(a: string, b: string, c: string)
    ensures !TextLess(a, a)
    ensures TextLess(a, b) || TextLess(b, a) || a == b
    ensures !(TextLess(a, b) && TextLess(b, a))
    ensures TextLess(a, b) && TextLess(b, c) ==> TextLess(a, c)
    decreases |a| + |b| + |c|
  {
    if a != [] {
      if b != [] && c != [] {
        TextOrder(a[1..], b[1..], c[1..]);
      } else if b != [] {
        TextOrder(a[1..], b[1..], []);
      } else {
        TextOrder(a[1..], [], []);
      }
      assert b != [] && a[0] == b[0] && a[1..] == b[1..] ==> a == b by {
        if b != [] && a[0] == b[0] && a[1..] == b[1..] {
          assert a == [a[0]] + a[1..] && b == [b[0]] + b[1..];
        }
      }
    }
  }

  /** The values one column may hold: None, and either numbers or strings. */
  predicate Sortable(v: Value, text: bool) {
    v.Null? || (if text then v.Str? else Numeric(v))
  }

  lemma {:induction false} KeyOrder(a: Value, b: Value, c: Value, text: bool)
    requires Sortable(a, text) && Sortable(b, text) && Sortable(c, text)
    ensures KeyLeq(a, a) && (KeyLeq(a, b) || KeyLeq(b, a))
    ensures KeyLeq(a, b) && KeyLeq(b, c) ==> KeyLeq(a, c)
  {
    if a.Str? && b.Str? && c.Str? {
      TextOrder(a.s, b.s, c.s);
      TextOrder(c.s, a.s, b.s);
    } else if a.Str? && b.Str? {
      TextOrder(a.s, b.s, a.s);
    } else if a.Str? {
      TextOrder(a.s, a.s, a.s);
    }
  }

  ghost predicate Typed(rows: seq<Row>, column: string, text: bool) {
    forall r | r in rows :: Sortable(Cell(r, column), text)
  }

  lemma OneTypeIsTyped(rows: seq<Row>, column: string) returns (text: bool)
    requires OneType(rows, column)
    ensures Typed(rows, column, text)
  {
    text := forall i :: 0 <= i < |rows| ==> Cell(rows[i], column).Null? || Cell(rows[i], column).Str?;
    forall r | r in rows ensures Sortable(Cell(r, column), text) {
      var i :| 0 <= i < |rows| && rows[i] == r;
    }
  }

  lemma {:induction false} RowOrder(a: Row, b: Row, c: Row, column: string, desc: bool, text: bool)
    requires Sortable(Cell(a, column), text) && Sortable(Cell(b, column), text) && Sortable(Cell(c, column), text)
    ensures RowLeq(column, desc, a, a) && (RowLeq(column, desc, a, b) || RowLeq(column, desc, b, a))
    ensures RowLeq(column, desc, a, b) && RowLeq(column, desc, b, c) ==> RowLeq(column, desc, a, c)
  {
    KeyOrder(Cell(a, column), Cell(b, column), Cell(c, column), text);
    KeyOrder(Cell(c, column), Cell(b, column), Cell(a, column), text);
  }

  // ----- stable sorting, without reference to an algorithm -----

  ghost predicate Sorted(rows: seq<Row>, column: string, desc: bool) {
    forall i, j :: 0 <= i < j < |rows| ==> RowLeq(column, desc, rows[i], rows[j])
  }

  /** The rows that tie with k. */
  function Tied(k: Row, column: string, desc: bool): Row -> bool {
    (r: Row) => RowLeq(column, desc, r, k) && RowLeq(column, desc, k, r)
  }

  /** out is in order and lists the rows of each tie exactly as they came. */
  ghost predicate SortsStably(out: seq<Row>, rows: seq<Row>, column: string, desc: bool) {
    && Sorted(out, column, desc)
    && (forall r :: r in out <==> r in rows)
    && (forall k :: k in rows ==> Filter(out, Tied(k, column, desc)) == Filter(rows, Tied(k, column, desc)))
  }

  lemma {:induction false} InsertSorted(row: Row, s: seq<Row>, column: string, desc: bool, text: bool)
    requires Sorted(s, column, desc) && Typed([row] + s, column, text)
    ensures Sorted(Insert(row, s, column, desc), column, desc)
    ensures forall r :: r in Insert(row, s, column, desc) <==> r == row || r in s
  {
    hide RowLeq, Sortable;
    assert row in [row] + s && forall r | r in s :: r in [row] + s;
    if s != [] {
      RowOrder(row, s[0], s[0], column, desc, text);
      if RowLeq(column, desc, row, s[0]) {
        forall j | 0 <= j < |s| ensures RowLeq(column, desc, row, s[j]) {
          RowOrder(row, s[0], s[j], column, desc, text);
        }
        SortedCons(row, s, column, desc);
      } else {
        var rest := s[1..];
        assert forall i, j :: 0 <= i < j < |rest| ==> rest[i] == s[i + 1] && rest[j] == s[j + 1];
        assert forall r | r in [row] + rest :: r in [row] + s;
        InsertSorted(row, rest, column, desc, text);
        var tail := Insert(row, rest, column, desc);
        forall j | 0 <= j < |tail| ensures RowLeq(column, desc, s[0], tail[j]) {
          assert tail[j] in tail;
          if tail[j] != row {
            var k :| 0 <= k < |rest| && rest[k] == tail[j];
            assert s[k + 1] == tail[j];
          }
        }
        SortedCons(s[0], tail, column, desc);
      }
    }
  }

  lemma SortedCons(row: Row, s: seq<Row>, column: string, desc: bool)
    requires Sorted(s, column, desc) && forall j :: 0 <= j < |s| ==> RowLeq(column, desc, row, s[j])
    ensures Sorted([row] + s, column, desc)
  {
    hide RowLeq;
    forall i, j | 0 <= i < j < |[row] + s| ensures RowLeq(column, desc, ([row] + s)[i], ([row] + s)[j]) {
      if i > 0 { assert RowLeq(column, desc, s[i - 1], s[j - 1]); }
    }
  }

  /** Inserting in front of its ties keeps every tie in arrival order. */
  lemma {:induction false} InsertStable(row: Row, s: seq<Row>, k: Row, column: string, desc: bool, text: bool)
    requires Sorted(s, column, desc) && Typed([row, k] + s, column, text)
    ensures Filter(Insert(row, s, column, desc), Tied(k, column, desc)) == Filter([row] + s, Tied(k, column, desc))
  {
    hide RowLeq, Sortable;
    if s != [] && !RowLeq(column, desc, row, s[0]) {
      var rest := s[1..];
      assert forall i, j :: 0 <= i < j < |rest| ==> rest[i] == s[i + 1] && rest[j] == s[j + 1];
      assert forall r | r in [row, k] + rest :: r in [row, k] + s;
      InsertStable(row, rest, k, column, desc, text);
      NotBothTied(row, s[0], k, column, desc, text);
      assert s == [s[0]] + rest;
      Reordered(row, s[0], rest, Insert(row, rest, column, desc), Tied(k, column, desc));
    }
  }

  /** Of two rows in strict order only one can tie with k. */
  lemma NotBothTied(row: Row, first: Row, k: Row, column: string, desc: bool, text: bool)
    requires Typed([row, k, first], column, text) && !RowLeq(column, desc, row, first)
    ensures !(Tied(k, column, desc)(row) && Tied(k, column, desc)(first))
  {
    hide RowLeq, Sortable;
    assert row in [row, k, first] && k in [row, k, first] && first in [row, k, first];
    RowOrder(row, k, first, column, desc, text);
    RowOrder(first, k, row, column, desc, text);
  }

  lemma Reordered<T>(row: T, first: T, rest: seq<T>, inserted: seq<T>, p: T -> bool)
    requires !(p(row) && p(first)) && Filter(inserted, p) == Filter([row] + rest, p)
    ensures Filter([first] + inserted, p) == Filter([row] + ([first] + rest), p)
  {
    FilterCons(row, [first] + rest, p);
    FilterCons(first, rest, p);
    FilterCons(row, rest, p);
    FilterCons(first, inserted, p);
  }

  lemma FilterCons<T>(x: T, s: seq<T>, p: T -> bool)
    ensures Filter([x] + s, p) == (if p(x) then [x] else []) + Filter(s, p)
  {
    assert ([x] + s)[1..] == s;
  }

  lemma {:induction false} InsertKeepsStable(row: Row, s: seq<Row>, rest: seq<Row>, k: Row, column: string, desc: bool,
                                             text: bool)
    requires SortsStably(s, rest, column, desc) && Typed([row] + rest, column, text) && k in [row] + rest
    ensures Filter(Insert(row, s, column, desc), Tied(k, column, desc)) == Filter([row] + rest, Tied(k, column, desc))
  {
    hide RowLeq, Sortable, Tied, Sorted;
    assert row in [row] + rest && forall r | r in rest :: r in [row] + rest;
    InsertStable(row, s, k, column, desc, text);
    FilterCons(row, s, Tied(k, column, desc));
    FilterCons(row, rest, Tied(k, column, desc));
    TiesOf(s, rest, k, column, desc, text);
  }

  lemma {:induction false} SortIsStable(rows: seq<Row>, column: string, desc: bool, text: bool)
    requires Typed(rows, column, text)
    ensures SortsStably(StableSort(rows, column, desc), rows, column, desc)
  {
    hide RowLeq, Sortable, Insert, Tied, Sorted, Filter;
    if rows == [] {
      NothingIsSorted(column, desc);
    } else {
      var rest := rows[1..];
      assert rows == [rows[0]] + rest && forall r | r in rest :: r in rows;
      SortIsStable(rest, column, desc, text);
      var s := StableSort(rest, column, desc);
      assert forall r | r in [rows[0]] + s :: r in rows;
      InsertSorted(rows[0], s, column, desc, text);
      forall k | k in rows
        ensures Filter(StableSort(rows, column, desc), Tied(k, column, desc)) == Filter(rows, Tied(k, column, desc))
      {
        InsertKeepsStable(rows[0], s, rest, k, column, desc, text);
      }
    }
  }

  // ----- the same in terms of values -----

  /** A row showing a may stand before one showing b: ascending by value with None last, or the other way round. */
  ghost predicate InPlace(a: Value, b: Value, desc: bool) {
    if desc then a.Null? || (!b.Null? && !Precedes(a, b)) else b.Null? || (!a.Null? && !Precedes(b, a))
  }

  /** The rows that show the same value as k. */
  function ShowsLike(k: Row, column: string): Row -> bool {
    (r: Row) => Alike(Cell(r, column), Cell(k, column))
  }

  /** out has the rows in the order of their values, smallest or largest first, and rows of equal value as they came. */
  ghost predicate IsStableSort(out: seq<Row>, rows: seq<Row>, column: string, desc: bool) {
    && (forall i, j :: 0 <= i < j < |out| ==> InPlace(Cell(out[i], column), Cell(out[j], column), desc))
    && (forall r :: r in out <==> r in rows)
    && (forall k :: k in rows ==> Filter(out, ShowsLike(k, column)) == Filter(rows, ShowsLike(k, column)))
  }

  lemma {:induction false} KeysMean(a: Value, b: Value, text: bool)
    requires Sortable(a, text) && Sortable(b, text)
    ensures KeyLeq(a, b) <==> InPlace(a, b, false)
    ensures KeyLeq(b, a) <==> InPlace(a, b, true)
    ensures KeyLeq(a, b) && KeyLeq(b, a) <==> Alike(a, b)
  {
    hide TextLess, TextBefore;
    LessMeans(a, b);
    LessMeans(b, a);
    if a.Str? && b.Str? { TextOrder(a.s, b.s, a.s); }
  }

  lemma {:induction false} SortingMeans(out: seq<Row>, rows: seq<Row>, column: string, desc: bool, text: bool)
    requires SortsStably(out, rows, column, desc) && Typed(rows, column, text)
    ensures IsStableSort(out, rows, column, desc)
  {
    hide KeyLeq, InPlace, Alike, Sortable, Cell, Filter;
    forall i, j | 0 <= i < j < |out| ensures InPlace(Cell(out[i], column), Cell(out[j], column), desc) {
      assert out[i] in out && out[j] in out;
      KeysMean(Cell(out[i], column), Cell(out[j], column), text);
    }
    forall k | k in rows ensures Filter(out, ShowsLike(k, column)) == Filter(rows, ShowsLike(k, column)) {
      forall r | r in rows ensures Tied(k, column, desc)(r) == ShowsLike(k, column)(r) {
        KeysMean(Cell(r, column), Cell(k, column), text);
        KeysMean(Cell(k, column), Cell(r, column), text);
      }
      FilterAgree(out, Tied(k, column, desc), ShowsLike(k, column));
      FilterAgree(rows, Tied(k, column, desc), ShowsLike(k, column));
    }
  }

  lemma NothingIsSorted(column: string, desc: bool)
    ensures Sorted([], column, desc)
  {
  }

  /** Stability for the ties of a row carries over to any k, in the list or not. */
  lemma {:induction false} TiesOf(out: seq<Row>, rows: seq<Row>, k: Row, column: string, desc: bool, text: bool)
    requires SortsStably(out, rows, column, desc) && Typed([k] + rows, column, text)
    ensures Filter(out, Tied(k, column, desc)) == Filter(rows, Tied(k, column, desc))
  {
    hide RowLeq, Sortable, Sorted;
    var p := Tied(k, column, desc);
    assert k in [k] + rows && forall r | r in rows :: r in [k] + rows;
    if m :| m in rows && p(m) {
      forall r | r in rows ensures p(r) == Tied(m, column, desc)(r) {
        RowOrder(r, k, m, column, desc, text);
        RowOrder(r, m, k, column, desc, text);
        RowOrder(m, k, r, column, desc, text);
        RowOrder(k, m, r, column, desc, text);
      }
      FilterAgree(rows, p, Tied(m, column, desc));
      FilterAgree(out, p, Tied(m, column, desc));
    } else {
      FilterNone(rows, p);
      FilterNone(out, p);
    }
  }

  /** Any two stable sorts of the same rows are equal, so the answer does not depend on the algorithm. */
  lemma {:induction false} StableSortIsUnique(a: seq<Row>, b: seq<Row>, column: string, desc: bool, text: bool)
    requires Typed(a, column, text) && Sorted(a, column, desc) && Sorted(b, column, desc)
    requires forall r :: r in a <==> r in b
    requires forall k :: k in a ==> Filter(a, Tied(k, column, desc)) == Filter(b, Tied(k, column, desc))
    ensures a == b
    decreases |a|
  {
    hide RowLeq, Sortable, Tied, Filter, Typed, Sorted;
    if a == [] {
      HeadIsMember(b);
    } else {
      HeadsTie(a, b, column, desc, text);
      SameHead(a, b, Tied(a[0], column, desc));
      TailsAgree(a, b, column, desc, text);
      assert a == [a[0]] + a[1..] && b == [b[0]] + b[1..];
      StableSortIsUnique(a[1..], b[1..], column, desc, text);
    }
  }

  lemma SameHead(a: seq<Row>, b: seq<Row>, p: Row -> bool)
    requires a != [] && b != [] && p(a[0]) && p(b[0]) && Filter(a, p) == Filter(b, p)
    ensures a[0] == b[0]
  {
    assert Filter(a, p)[0] == a[0] && Filter(b, p)[0] == b[0];
  }

  lemma Cancel<T>(c: seq<T>, x: seq<T>, y: seq<T>)
    requires c + x == c + y
    ensures x == y
  {
    assert (c + x)[|c|..] == x && (c + y)[|c|..] == y;
  }

  lemma {:induction false} TailsAgree(a: seq<Row>, b: seq<Row>, column: string, desc: bool, text: bool)
    requires a != [] && b != [] && a[0] == b[0]
    requires Typed(a, column, text) && Sorted(a, column, desc) && Sorted(b, column, desc)
    requires forall r :: r in a <==> r in b
    requires forall k :: k in a ==> Filter(a, Tied(k, column, desc)) == Filter(b, Tied(k, column, desc))
    ensures Typed(a[1..], column, text) && Sorted(a[1..], column, desc) && Sorted(b[1..], column, desc)
    ensures forall r :: r in a[1..] <==> r in b[1..]
    ensures forall k :: k in a[1..] ==> Filter(a[1..], Tied(k, column, desc)) == Filter(b[1..], Tied(k, column, desc))
  {
    hide RowLeq, Sortable, Tied, Filter;
    var a', b' := a[1..], b[1..];
    assert a == [a[0]] + a' && b == [a[0]] + b';
    forall k | k in a ensures Filter(a', Tied(k, column, desc)) == Filter(b', Tied(k, column, desc)) {
      var p := Tied(k, column, desc);
      FilterCons(a[0], a', p);
      FilterCons(a[0], b', p);
      Cancel(if p(a[0]) then [a[0]] else [], Filter(a', p), Filter(b', p));
    }
    SameMembers(a', b', column, desc, text, a);
  }

  lemma {:induction false} HeadsTie(a: seq<Row>, b: seq<Row>, column: string, desc: bool, text: bool)
    requires a != [] && Typed(a, column, text) && Sorted(a, column, desc) && Sorted(b, column, desc)
    requires forall r :: r in a <==> r in b
    ensures b != [] && Tied(a[0], column, desc)(a[0]) && Tied(a[0], column, desc)(b[0])
  {
    hide RowLeq, Sortable;
    assert a[0] in b;
    assert b[0] in b;
    RowOrder(a[0], a[0], a[0], column, desc, text);
    RowOrder(b[0], b[0], b[0], column, desc, text);
    var i :| 0 <= i < |b| && b[i] == a[0];
    var j :| 0 <= j < |a| && a[j] == b[0];
    assert i > 0 ==> RowLeq(column, desc, b[0], b[i]);
    assert j > 0 ==> RowLeq(column, desc, a[0], a[j]);
  }

  lemma {:induction false} SameMembers(a: seq<Row>, b: seq<Row>, column: string, desc: bool, text: bool, all: seq<Row>)
    requires Typed(all, column, text) && (forall r :: r in a ==> r in all) && (forall r :: r in b ==> r in all)
    requires forall k :: k in all ==> Filter(a, Tied(k, column, desc)) == Filter(b, Tied(k, column, desc))
    ensures forall r :: r in a <==> r in b
  {
    hide RowLeq, Sortable;
    forall r | r in all ensures r in a <==> r in b {
      RowOrder(r, r, r, column, desc, text);
      assert r in a <==> r in Filter(a, Tied(r, column, desc));
      assert r in b <==> r in Filter(b, Tied(r, column, desc));
    }
  }

  // ----- rows of an answer -----

  lemma {:induction false} ProjectRows(es: seq<SelectExpr>, ns: seq<Node>, v: View, env: Env)
    requires Enumerates(env, v) && Project(es, ns, v, env).Ok?
    ensures |Project(es, ns, v, env).value| == |ns|
    ensures forall i :: 0 <= i < |ns| ==> Extend(map[], es, ns[i], v, env) == Ok(Project(es, ns, v, env).value[i])
  {
    hide Extend, Enumerates;
    if ns != [] {
      ProjectRows(es, ns[1..], v, env);
    }
  }

  /** The answer of a row query: one row for each candidate node, in candidate order when there is no ORDER BY,
      otherwise the one stable sort by the named column, cut to the LIMIT. */
  lemma {:induction false} RowsAreSortedPrefix(s: SelectStmt, v: View, env: Env) returns (rows: seq<Row>, sorted: seq<Row>)
    requires Enumerates(env, v) && !s.aggregationOnly && Denote(s, v, env).Ok?
    ensures Candidates(s, v, env).Ok? && |rows| == |Candidates(s, v, env).value|
    ensures forall i :: 0 <= i < |rows| ==> Extend(map[], s.exprs, Candidates(s, v, env).value[i], v, env) == Ok(rows[i])
    ensures s.order.None? ==> sorted == rows
    ensures s.order.Some? && OneType(rows, s.order.value.field.name) ==>
      IsStableSort(sorted, rows, s.order.value.field.name, s.order.value.descending)
    ensures Denote(s, v, env).value.rows == if s.limit.Some? && s.limit.value < |sorted| then sorted[..s.limit.value] else sorted
  {
    var ns := Candidates(s, v, env).value;
    ProjectRows(s.exprs, ns, v, env);
    hide Project, Extend, Enumerates, Candidates, SortsStably, IsStableSort, StableSort, OneType;
    rows := Project(s.exprs, ns, v, env).value;
    sorted := Arrange(rows, s.order, env);
    if s.order.Some? && OneType(rows, s.order.value.field.name) {
      var text := OneTypeIsTyped(rows, s.order.value.field.name);
      SortIsStable(rows, s.order.value.field.name, s.order.value.descending, text);
      SortingMeans(sorted, rows, s.order.value.field.name, s.order.value.descending, text);
    }
  }

  /** The columns of a row are the display names of the select expressions. */
  lemma {:induction false} ExtendKeys(row: Row, es: seq<SelectExpr>, n: Node, v: View, env: Env)
    requires Enumerates(env, v) && Extend(row, es, n, v, env).Ok?
    ensures forall k :: k in Extend(row, es, n, v, env).value <==>
              k in row || exists i :: 0 <= i < |es| && ColumnName(es[i]) == k
    ensures forall k :: k in row && (forall i :: 0 <= i < |es| ==> ColumnName(es[i]) != k) ==>
              Extend(row, es, n, v, env).value[k] == row[k]
    decreases es
  {
    hide Compute, Enumerates, Resolve, ColumnName;
    if es != [] {
      var value := if es[0].FieldExpr? then Resolve(n, es[0].field.name, env) else Num(Compute(es[0], [n], v, env).value);
      var next := row[ColumnName(es[0]) := value];
      var rest := es[1..];
      ExtendKeys(next, rest, n, v, env);
      var all := Extend(row, es, n, v, env).value;
      assert Extend(next, rest, n, v, env).value == all;
      forall k ensures k in all <==> k in row || exists i :: 0 <= i < |es| && ColumnName(es[i]) == k {
        if i :| 0 <= i < |es| && ColumnName(es[i]) == k {
          if i > 0 { assert rest[i - 1] == es[i]; }
        }
        if i :| 0 <= i < |rest| && ColumnName(rest[i]) == k { assert es[i + 1] == rest[i]; }
      }
      forall k | k in row && forall i :: 0 <= i < |es| ==> ColumnName(es[i]) != k ensures all[k] == row[k] {
        assert forall i :: 0 <= i < |rest| ==> rest[i] == es[i + 1];
        assert ColumnName(es[0]) != k;
      }
    }
  }

  /** A selected field is shown under its display name, unless a later expression reuses that name. */
  lemma {:induction false} FieldIsShown(es: seq<SelectExpr>, i: nat, row: Row, n: Node, v: View, env: Env)
    requires Enumerates(env, v) && Extend(row, es, n, v, env).Ok? && i < |es| && es[i].FieldExpr?
    requires forall j :: i < j < |es| ==> ColumnName(es[j]) != ColumnName(es[i])
    ensures Cell(Extend(row, es, n, v, env).value, ColumnName(es[i])) == Resolve(n, es[i].field.name, env)
    decreases es
  {
    hide Compute, Enumerates, Resolve, ColumnName;
    var value := if es[0].FieldExpr? then Resolve(n, es[0].field.name, env) else Num(Compute(es[0], [n], v, env).value);
    var next := row[ColumnName(es[0]) := value];
    if i == 0 {
      assert forall j :: 0 <= j < |es[1..]| ==> es[1..][j] == es[j + 1];
      ExtendKeys(next, es[1..], n, v, env);
    } else {
      FieldIsShown(es[1..], i - 1, next, n, v, env);
    }
  }

  lemma {:induction false} SortOfBlankColumn(rows: seq<Row>, column: string, desc: bool)
    requires forall r | r in rows :: Cell(r, column).Null?
    ensures StableSort(rows, column, desc) == rows
  {
    if rows != [] {
      SortOfBlankColumn(rows[1..], column, desc);
      assert rows == [rows[0]] + rows[1..];
    }
  }

  /** ORDER BY looks its name up among the output columns: a name that is none of them, such as the
      prefixed `content.x` of a column shown as `x`, leaves the rows as they are. */
  lemma {:induction false} OrderByHiddenNameDoesNothing(s: SelectStmt, v: View, env: Env)
    requires Enumerates(env, v) && s.order.Some?
    requires forall e | e in s.exprs :: ColumnName(e) != s.order.value.field.name
    ensures Denote(s, v, env) == Denote(s.(order := None), v, env)
  {
    var plain := s.(order := None);
    assert Candidates(s, v, env) == Candidates(plain, v, env);
    if Candidates(s, v, env).Ok? && !s.aggregationOnly {
      var ns := Candidates(s, v, env).value;
      if Project(s.exprs, ns, v, env).Ok? {
        var rows := Project(s.exprs, ns, v, env).value;
        BlankColumn(s.exprs, ns, s.order.value.field.name, v, env);
        SortOfBlankColumn(rows, s.order.value.field.name, s.order.value.descending);
      }
    }
  }

  lemma {:induction false} BlankColumn(es: seq<SelectExpr>, ns: seq<Node>, column: string, v: View, env: Env)
    requires Enumerates(env, v) && Project(es, ns, v, env).Ok?
    requires forall e | e in es :: ColumnName(e) != column
    ensures forall r | r in Project(es, ns, v, env).value :: Cell(r, column).Null?
    ensures OneType(Project(es, ns, v, env).value, column)
  {
    ProjectRows(es, ns, v, env);
    hide Project, Extend, Enumerates;
    var rows := Project(es, ns, v, env).value;
    forall i | 0 <= i < |rows| ensures Cell(rows[i], column).Null? {
      ExtendKeys(map[], es, ns[i], v, env);
    }
  }

  /** The very column one selects cannot be sorted on by the name one selected it by. */
  lemma PrefixedOrderIsIgnored(field: string, desc: bool, kind: string, v: View, env: Env)
    requires Enumerates(env, v)
    ensures var name := FieldRef("content." + field);
      var s := SelectStmt([FieldExpr(name, None)], kind, None, Some(OrderClause(name, desc)), None, false);
      Denote(s, v, env) == Denote(s.(order := None), v, env)
  {
    var name := FieldRef("content." + field);
    var s := SelectStmt([FieldExpr(name, None)], kind, None, Some(OrderClause(name, desc)), None, false);
    assert AfterPrefix("content.", name.name) == field;
    assert |field| != |name.name|;
    OrderByHiddenNameDoesNothing(s, v, env);
  }
}
