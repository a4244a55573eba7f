/**
 * Column sums over a view (`df["Sales"].sum()` and friends, in exact
 * arithmetic) and the per-period breakdowns that the groupby pipelines
 * compute, with the fact that a breakdown by mutually exclusive, exhaustive
 * tests loses and duplicates nothing.
 */
module Measures {
  import opened Tabular
  import opened RowFilter

  datatype Measure = SalesOf | ProfitOf | DiscountOf

  function Value(r: Row, m: Measure): real
  {
    match m
    case SalesOf => r.sales
    case ProfitOf => r.profit
    case DiscountOf => r.discount
  }

  /** The column sum of measure `m`; 0 for no rows, as pandas' `sum` of an empty column. */
  function Total(rows: seq<Row>, m: Measure): real
  {
    if rows == [] then 0.0 else Value(rows[0], m) + Total(rows[1..], m)
  }

  /** `df["Quantity"].sum()`: an integer column sum. */
  function QuantityTotal(rows: seq<Row>): int
  {
    if rows == [] then 0 else rows[0].quantity + QuantityTotal(rows[1..])
  }

  lemma {:induction false} TotalAppend(a: seq<Row>, b: seq<Row>, m: Measure)
    ensures Total(a + b, m) == Total(a, m) + Total(b, m)
  {
    if a != [] {
      assert (a + b)[1..] == a[1..] + b;
      TotalAppend(a[1..], b, m);
    } else {
      assert a + b == b;
    }
  }

  /** One more value in [lo, hi] on top of a sum of n such values. */
  lemma BoundsStep(v: real, t: real, n: nat, lo: real, hi: real)
    requires lo <= v <= hi
    requires n as real * lo <= t <= n as real * hi
    ensures (n + 1) as real * lo <= v + t <= (n + 1) as real * hi
  {
    assert (n + 1) as real * lo == n as real * lo + lo;
    assert (n + 1) as real * hi == n as real * hi + hi;
  }

  /** If every row's value lies in [lo, hi], the sum lies in [n * lo, n * hi]. */
  lemma {:induction false} TotalBounds(rows: seq<Row>, m: Measure, lo: real, hi: real)
    requires forall r :: r in rows ==> lo <= Value(r, m) <= hi
    ensures |rows| as real * lo <= Total(rows, m) <= |rows| as real * hi
  {
    if rows != [] {
      TotalBounds(rows[1..], m, lo, hi);
      assert rows[0] in rows;
      assert Total(rows, m) == Value(rows[0], m) + Total(rows[1..], m);
      BoundsStep(Value(rows[0], m), Total(rows[1..], m), |rows[1..]|, lo, hi);
    }
  }

  /** The sum over `Profit / Sales`, row by row; defined when no row has zero sales. */
  function RatioTotal(rows: seq<Row>): real
    requires forall r :: r in rows ==> r.sales != 0.0
  {
    if rows == [] then 0.0 else rows[0].profit / rows[0].sales + RatioTotal(rows[1..])
  }

  /** If every ratio lies in [lo, hi], the sum of n ratios lies in [n * lo, n * hi]. */
  lemma {:induction false} RatioTotalBounds(rows: seq<Row>, lo: real, hi: real)
    requires forall r :: r in rows ==> r.sales != 0.0 && lo <= r.profit / r.sales <= hi
    ensures |rows| as real * lo <= RatioTotal(rows) <= |rows| as real * hi
  {
    if rows != [] {
      assert rows[0] in rows;
      var q := rows[0].profit / rows[0].sales;
      assert lo <= q <= hi;
      RatioTotalBounds(rows[1..], lo, hi);
      BoundsStep(q, RatioTotal(rows[1..]), |rows[1..]|, lo, hi);
    }
  }

  function SeqSum(vs: seq<real>): real
  {
    if vs == [] then 0.0 else vs[0] + SeqSum(vs[1..])
  }

  /** How many of the tests row `r` passes. */
  function Hits(ts: seq<Test>, r: Row): nat
  {
    if ts == [] then 0 else (if Holds(ts[0], r) then 1 else 0) + Hits(ts[1..], r)
  }

  /** A row passing exactly the test at index `i` is counted once. */
  lemma {:induction false} HitsOnce(ts: seq<Test>, r: Row, i: int)
    requires 0 <= i < |ts| && Holds(ts[i], r)
    requires forall j :: 0 <= j < |ts| && j != i ==> !Holds(ts[j], r)
    ensures Hits(ts, r) == 1
  {
    if i == 0 {
      HitsNone(ts[1..], r);
    } else {
      HitsOnce(ts[1..], r, i - 1);
    }
  }

  lemma {:induction false} HitsNone(ts: seq<Test>, r: Row)
    requires forall j :: 0 <= j < |ts| ==> !Holds(ts[j], r)
    ensures Hits(ts, r) == 0
  {
    if ts != [] { HitsNone(ts[1..], r); }
  }

  /** The sum of measure `m` over the rows passing each test: one entry per test. */
  function Breakdown(rows: seq<Row>, ts: seq<Test>, m: Measure): (vs: seq<real>)
    ensures |vs| == |ts|
    ensures forall i :: 0 <= i < |ts| ==> vs[i] == Total(Sift(rows, [ts[i]]), m)
  {
    if ts == [] then [] else [Total(Sift(rows, [ts[0]]), m)] + Breakdown(rows, ts[1..], m)
  }

  lemma {:induction false} BreakdownOfNothing(ts: seq<Test>, m: Measure)
    ensures SeqSum(Breakdown([], ts, m)) == 0.0
  {
    if ts != [] { BreakdownOfNothing(ts[1..], m); }
  }

  lemma SiftConsTotal(r: Row, rest: seq<Row>, t: Test, m: Measure)
    ensures Total(Sift([r] + rest, [t]), m)
         == (if Holds(t, r) then Value(r, m) else 0.0) + Total(Sift(rest, [t]), m)
  {
    assert ([r] + rest)[1..] == rest;
    SatisfiesOne(t, r);
  }

  /** The value of `r` counted once for every test it passes. */
  function HitValue(ts: seq<Test>, r: Row, m: Measure): real
  {
    if ts == [] then 0.0 else (if Holds(ts[0], r) then Value(r, m) else 0.0) + HitValue(ts[1..], r, m)
  }

  lemma {:induction false} HitValueOnce(ts: seq<Test>, r: Row, m: Measure)
    requires Hits(ts, r) <= 1
    ensures HitValue(ts, r, m) == if Hits(ts, r) == 1 then Value(r, m) else 0.0
  {
    if ts != [] { HitValueOnce(ts[1..], r, m); }
  }

  /** Adding a row to the front adds its value once for every test it passes. */
  lemma {:induction false} BreakdownCons(r: Row, rest: seq<Row>, ts: seq<Test>, m: Measure)
    ensures SeqSum(Breakdown([r] + rest, ts, m)) == HitValue(ts, r, m) + SeqSum(Breakdown(rest, ts, m))
  {
    if ts != [] {
      BreakdownCons(r, rest, ts[1..], m);
      SiftConsTotal(r, rest, ts[0], m);
    }
  }

  /**
   * When every row passes exactly one of the tests, the breakdown's entries add
   * up to the total of the whole view.
   */
  lemma {:induction false} PartitionTotal(rows: seq<Row>, ts: seq<Test>, m: Measure)
    requires forall r :: r in rows ==> Hits(ts, r) == 1
    ensures SeqSum(Breakdown(rows, ts, m)) == Total(rows, m)
  {
    if rows == [] {
      BreakdownOfNothing(ts, m);
    } else {
      assert rows == [rows[0]] + rows[1..];
      BreakdownCons(rows[0], rows[1..], ts, m);
      HitValueOnce(ts, rows[0], m);
      PartitionTotal(rows[1..], ts, m);
    }
  }

  /** No row passes a test: its entry is 0. */
  lemma {:induction false} TotalOfEmptySift(rows: seq<Row>, ts: seq<Test>, m: Measure)
    requires forall r :: r in rows ==> !Satisfies(ts, r)
    ensures Sift(rows, ts) == [] && Total(Sift(rows, ts), m) == 0.0
  {
    if rows != [] {
      assert rows[0] in rows;
      TotalOfEmptySift(rows[1..], ts, m);
    }
  }
}
