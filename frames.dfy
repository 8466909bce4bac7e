/**
 * Small in-memory tables as the generator sees them (pandas data frames):
 * a column list and a sequence of rows, each row a map from column name to
 * cell.  A cell is either a value (already in its display form) or Python's
 * `None`.
 */
module Frames {

  datatype Cell = Null | Str(value: string)

  /** An optional value (an optional argument, or a result that may be missing). */
  datatype Option<T> = None | Some(value: T)

  type Row = map<string, Cell>

  datatype Frame = Frame(columns: seq<string>, rows: seq<Row>)

  predicate Distinct<T(==)>(xs: seq<T>)
  {
    forall i, j :: 0 <= i < j < |xs| ==> xs[i] != xs[j]
  }

  /** A data frame proper: column names are unique and every row has exactly those columns. */
  predicate WellFormed(f: Frame)
  {
    && Distinct(f.columns)
    && forall i :: 0 <= i < |f.rows| ==> f.rows[i].Keys == set c | c in f.columns
  }

  /** `row.get(col)`: the cell, or `None` when the row has no such column. */
  function Get(row: Row, col: string): Cell
  {
    if col in row then row[col] else Null
  }

  /** `row.get(col, default)`. */
  function GetOr(row: Row, col: string, default: Cell): Cell
  {
    if col in row then row[col] else default
  }

  /** Python's `str(value)`: `None` prints as "None". */
  function Display(c: Cell): string
  {
    match c
    case Null => "None"
    case Str(s) => s
  }

  /** The column `f[col]`, one cell per row. */
  function Column(f: Frame, col: string): seq<Cell>
  {
    CellsOf(f.rows, col)
  }

  function CellsOf(rows: seq<Row>, col: string): seq<Cell>
  {
    seq(|rows|, i requires 0 <= i < |rows| => Get(rows[i], col))
  }

  /** A cell value occurs in a column exactly when some row holds it there. */
  lemma CellsOfHas(rows: seq<Row>, col: string, c: Cell)
    ensures c in CellsOf(rows, col) <==> exists r :: r in rows && Get(r, col) == c
  {
    var cells := CellsOf(rows, col);
    if c in cells {
      var k :| 0 <= k < |cells| && cells[k] == c;
      assert rows[k] in rows;
    }
    if exists r :: r in rows && Get(r, col) == c {
      var r :| r in rows && Get(r, col) == c;
      var k :| 0 <= k < |rows| && rows[k] == r;
      assert cells[k] == c;
    }
  }

  /** `[x for x in xs if p(x)]`. */
  function Filter<T(!new)>(xs: seq<T>, p: T -> bool): (r: seq<T>)
    ensures |r| <= |xs|
    ensures forall x :: x in r <==> x in xs && p(x)
  {
    if xs == [] then []
    else
      var init := xs[..|xs| - 1];
      var last := xs[|xs| - 1];
      assert xs == init + [last];
      if p(last) then Filter(init, p) + [last] else Filter(init, p)
  }

  /** pandas `mask.sum()`: how many elements satisfy `p`. */
  function Count<T(!new)>(xs: seq<T>, p: T -> bool): (n: nat)
    ensures n <= |xs|
    ensures n == 0 <==> forall x :: x in xs ==> !p(x)
    ensures n == |xs| <==> forall x :: x in xs ==> p(x)
  {
    if xs == [] then 0
    else
      var init := xs[..|xs| - 1];
      var last := xs[|xs| - 1];
      assert xs == init + [last];
      Count(init, p) + (if p(last) then 1 else 0)
  }

  /** Counting distributes over concatenation. */
  lemma {:induction false} CountAppend<T(!new)>(xs: seq<T>, ys: seq<T>, p: T -> bool)
    ensures Count(xs + ys, p) == Count(xs, p) + Count(ys, p)
    decreases |ys|
  {
    if ys == [] {
      assert xs + ys == xs;
    } else {
      var init := ys[..|ys| - 1];
      assert (xs + ys)[..|xs + ys| - 1] == xs + init;
      assert (xs + ys)[|xs + ys| - 1] == ys[|ys| - 1];
      CountAppend(xs, init, p);
    }
  }

  /** Two tests that agree on every element count the same. */
  lemma {:induction false} CountSame<T(!new)>(xs: seq<T>, p: T -> bool, q: T -> bool)
    requires forall i :: 0 <= i < |xs| ==> p(xs[i]) == q(xs[i])
    ensures Count(xs, p) == Count(xs, q)
  {
    if xs != [] {
      CountSame(xs[..|xs| - 1], p, q);
    }
  }

  /** Filtering keeps every wanted element as often as it occurs, and no other. */
  lemma {:induction false} FilterMultiset<T(!new)>(xs: seq<T>, p: T -> bool, x: T)
    ensures multiset(Filter(xs, p))[x] == if p(x) then multiset(xs)[x] else 0
  {
    if xs != [] {
      var init := xs[..|xs| - 1];
      assert xs == init + [xs[|xs| - 1]];
      FilterMultiset(init, p, x);
    }
  }

  /** Filtering keeps the order of the kept elements: it distributes over concatenation. */
  lemma {:induction false} FilterAppend<T(!new)>(xs: seq<T>, ys: seq<T>, p: T -> bool)
    ensures Filter(xs + ys, p) == Filter(xs, p) + Filter(ys, p)
    decreases |ys|
  {
    if ys != [] {
      var init := ys[..|ys| - 1];
      assert xs + ys == (xs + init) + [ys[|ys| - 1]];
      assert (xs + ys)[..|xs + ys| - 1] == xs + init;
      FilterAppend(xs, init, p);
    } else {
      assert xs + ys == xs;
    }
  }

  /** The pieces `f(x)` for every `x` of `xs`, one after another. */
  function Flatten<T, U>(xs: seq<T>, f: T -> seq<U>): seq<U>
  {
    if xs == [] then [] else Flatten(xs[..|xs| - 1], f) + f(xs[|xs| - 1])
  }

  /** Flattening distributes over concatenation. */
  lemma {:induction false} FlattenAppend<T, U>(xs: seq<T>, ys: seq<T>, f: T -> seq<U>)
    ensures Flatten(xs + ys, f) == Flatten(xs, f) + Flatten(ys, f)
    decreases |ys|
  {
    if ys == [] {
      assert xs + ys == xs;
    } else {
      var init := ys[..|ys| - 1];
      assert (xs + ys)[..|xs + ys| - 1] == xs + init;
      assert (xs + ys)[|xs + ys| - 1] == ys[|ys| - 1];
      FlattenAppend(xs, init, f);
    }
  }

  /** The index of the first occurrence of `x`. */
  function FirstIndex<T(==)>(xs: seq<T>, x: T): (k: nat)
    requires x in xs
    ensures k < |xs| && xs[k] == x
    ensures forall j :: 0 <= j < k ==> xs[j] != x
  {
    if xs[0] == x then 0 else 1 + FirstIndex(xs[1..], x)
  }

  lemma {:induction false} FirstIndexPrefix<T>(xs: seq<T>, n: nat, x: T)
    requires n <= |xs| && x in xs[..n]
    ensures FirstIndex(xs[..n], x) == FirstIndex(xs, x)
  {
    var k := FirstIndex(xs[..n], x);
    assert forall j :: 0 <= j < k ==> xs[j] == xs[..n][j];
  }

  /**
   * pandas `column.dropna().unique()`: the distinct values of the non-null
   * cells, in order of first occurrence.
   */
  function DistinctNonNull(cells: seq<Cell>): (r: seq<string>)
    ensures Distinct(r)
    ensures forall x :: x in r <==> Str(x) in cells
    ensures |r| <= |cells|
  {
    if cells == [] then []
    else
      var init := cells[..|cells| - 1];
      var last := cells[|cells| - 1];
      assert cells == init + [last];
      var rest := DistinctNonNull(init);
      if last.Str? && last.value !in rest then rest + [last.value] else rest
  }

  /** The distinct values come out in the order in which each first appears. */
  lemma {:induction false} DistinctNonNullOrder(cells: seq<Cell>, i: nat, j: nat)
    requires i < j < |DistinctNonNull(cells)|
    ensures FirstIndex(cells, Str(DistinctNonNull(cells)[i])) < FirstIndex(cells, Str(DistinctNonNull(cells)[j]))
    decreases |cells|
  {
    var r := DistinctNonNull(cells);
    var n := |cells| - 1;
    var init := cells[..n];
    var rest := DistinctNonNull(init);
    var last := cells[n];
    assert cells == init + [last];
    assert Str(r[i]) in cells && Str(r[j]) in cells;
    if last.Str? && last.value !in rest {
      assert r == rest + [last.value];
      assert r[i] in rest;
      FirstIndexPrefix(cells, n, Str(r[i]));
      if j < |rest| {
        assert r[j] in rest;
        FirstIndexPrefix(cells, n, Str(r[j]));
        DistinctNonNullOrder(init, i, j);
      } else {
        assert Str(r[j]) !in init;
        assert FirstIndex(cells, Str(r[j])) == n;
      }
    } else {
      assert r == rest;
      assert r[i] in rest && r[j] in rest;
      FirstIndexPrefix(cells, n, Str(r[i]));
      FirstIndexPrefix(cells, n, Str(r[j]));
      DistinctNonNullOrder(init, i, j);
    }
  }
}
