/**
 * The tabular filter: the boolean-mask selections `df = df[df[col] == x]`
 * that the handlers apply one after another, and the shared front part of
 * `get_kpis` and `get_grouped_data` (date column check, month resolution,
 * month, vendor and product filters).
 */
module RowFilter {
  import opened Tabular

  /** A row predicate the handlers filter or group by. */
  datatype Test =
    | MonthIs(month: Month)
    | YearIs(year: int)
    | DayIs(day: int)
    | VendorIs(vendor: string)
    | ProductIs(product: string)
    | KeyIs(field: string, key: Cell)

  /**
   * Whether row `r` passes test `t`. A NaT date compares unequal to every
   * month, year and day; a null name unequal to every string.
   */
  predicate Holds(t: Test, r: Row)
  {
    match t
    case MonthIs(m) => r.orderDate.Some? && r.orderDate.value.month == m
    case YearIs(y) => r.orderDate.Some? && r.orderDate.value.year == y
    case DayIs(d) => r.orderDate.Some? && r.orderDate.value.day == d
    case VendorIs(v) => r.customer == Some(v)
    case ProductIs(p) => r.product == Some(p)
    case KeyIs(f, k) => FieldValue(r, f) == k
  }

  predicate Satisfies(ts: seq<Test>, r: Row)
  {
    forall i :: 0 <= i < |ts| ==> Holds(ts[i], r)
  }

  lemma SatisfiesOne(t: Test, r: Row)
    ensures Satisfies([t], r) <==> Holds(t, r)
  {
    assert [t][0] == t;
  }

  /** The rows that pass every test in `ts`, in their original order. */
  function Sift(rows: seq<Row>, ts: seq<Test>): (view: seq<Row>)
    ensures |view| <= |rows|
    ensures forall r :: r in view <==> r in rows && Satisfies(ts, r)
  {
    if rows == [] then []
    else if Satisfies(ts, rows[0]) then [rows[0]] + Sift(rows[1..], ts)
    else Sift(rows[1..], ts)
  }

  /** `a` is obtained from `b` by deleting elements. */
  predicate Subseq<T(==)>(a: seq<T>, b: seq<T>)
    decreases |b|
  {
    if b == [] then a == []
    else (a != [] && a[0] == b[0] && Subseq(a[1..], b[1..])) || Subseq(a, b[1..])
  }

  /** The filtered view is a subsequence of the rows it came from. */
  lemma {:induction false} SiftIsSubseq(rows: seq<Row>, ts: seq<Test>)
    ensures Subseq(Sift(rows, ts), rows)
  {
    if rows != [] {
      SiftIsSubseq(rows[1..], ts);
    }
  }

  /** A row occurs in the view exactly as often as in the input when it passes, and never otherwise. */
  lemma {:induction false} SiftCounts(rows: seq<Row>, ts: seq<Test>, x: Row)
    ensures multiset(Sift(rows, ts))[x] == if Satisfies(ts, x) then multiset(rows)[x] else 0
  {
    if rows != [] {
      SiftCounts(rows[1..], ts, x);
      assert rows == [rows[0]] + rows[1..];
    }
  }

  /** Filtering by `a` and then by `b` is filtering once by both. */
  lemma {:induction false} SiftSift(rows: seq<Row>, a: seq<Test>, b: seq<Test>)
    ensures Sift(Sift(rows, a), b) == Sift(rows, a + b)
  {
    if rows != [] {
      SiftSift(rows[1..], a, b);
      var r := rows[0];
      assert Satisfies(a + b, r) <==> Satisfies(a, r) && Satisfies(b, r) by {
        if Satisfies(a, r) && Satisfies(b, r) {
          forall i | 0 <= i < |a + b| ensures Holds((a + b)[i], r) {
            if i >= |a| { assert (a + b)[i] == b[i - |a|]; }
          }
        }
        if Satisfies(a + b, r) {
          forall i | 0 <= i < |b| ensures Holds(b[i], r) { assert (a + b)[|a| + i] == b[i]; }
          forall i | 0 <= i < |a| ensures Holds(a[i], r) { assert (a + b)[i] == a[i]; }
        }
      }
    }
  }

  /** Only what the tests say about the rows at hand matters, not how they are listed. */
  lemma {:induction false} SiftEquivalent(rows: seq<Row>, a: seq<Test>, b: seq<Test>)
    requires forall r :: r in rows ==> (Satisfies(a, r) <==> Satisfies(b, r))
    ensures Sift(rows, a) == Sift(rows, b)
  {
    if rows != [] {
      SiftEquivalent(rows[1..], a, b);
    }
  }

  lemma SiftIdempotent(rows: seq<Row>, ts: seq<Test>)
    ensures Sift(Sift(rows, ts), ts) == Sift(rows, ts)
  {
    SiftSift(rows, ts, ts);
    forall r | r in rows ensures Satisfies(ts + ts, r) <==> Satisfies(ts, r) {
      if Satisfies(ts, r) {
        forall i | 0 <= i < |ts + ts| ensures Holds((ts + ts)[i], r) {
          if i >= |ts| { assert (ts + ts)[i] == ts[i - |ts|]; }
        }
      }
      if Satisfies(ts + ts, r) {
        forall i | 0 <= i < |ts| ensures Holds(ts[i], r) { assert (ts + ts)[i] == ts[i]; }
      }
    }
    SiftEquivalent(rows, ts + ts, ts);
  }

  /**
   * The handlers' successive rebinding `df = df[mask]`, one test at a time:
   * the rows left are those of the input that pass every test.
   */
  function Chain(rows: seq<Row>, ts: seq<Test>): (view: seq<Row>)
    ensures |view| <= |rows|
    ensures forall r :: r in view <==> r in rows && Satisfies(ts, r)
    decreases |ts|
  {
    if ts == [] then rows
    else
      var view := Chain(Sift(rows, [ts[0]]), ts[1..]);
      forall r ensures Satisfies(ts, r) <==> Holds(ts[0], r) && Satisfies(ts[1..], r) {
        if Holds(ts[0], r) && Satisfies(ts[1..], r) {
          forall i | 0 <= i < |ts| ensures Holds(ts[i], r) {
            if i > 0 { assert ts[i] == ts[1..][i - 1]; }
          }
        }
        if Satisfies(ts, r) {
          forall i | 0 <= i < |ts[1..]| ensures Holds(ts[1..][i], r) { assert ts[1..][i] == ts[i + 1]; }
        }
      }
      forall r ensures Satisfies([ts[0]], r) <==> Holds(ts[0], r) { SatisfiesOne(ts[0], r); }
      view
  }

  /** Filtering one test after another is filtering once by all of them. */
  lemma {:induction false} ChainIsSift(rows: seq<Row>, ts: seq<Test>)
    ensures Chain(rows, ts) == Sift(rows, ts)
    decreases |ts|
  {
    if ts == [] {
      SiftAll(rows);
    } else {
      ChainIsSift(Sift(rows, [ts[0]]), ts[1..]);
      SiftSift(rows, [ts[0]], ts[1..]);
      assert [ts[0]] + ts[1..] == ts;
    }
  }

  lemma {:induction false} SiftAll(rows: seq<Row>)
    ensures Sift(rows, []) == rows
  {
    if rows != [] { SiftAll(rows[1..]); }
  }

  /** The order in which the filters are applied does not change the view. */
  lemma ChainOrderIrrelevant(rows: seq<Row>, a: seq<Test>, b: seq<Test>)
    requires forall t :: t in a <==> t in b
    ensures Chain(rows, a) == Chain(rows, b)
  {
    ChainIsSift(rows, a);
    ChainIsSift(rows, b);
    forall r | r in rows ensures Satisfies(a, r) <==> Satisfies(b, r) {
      if Satisfies(a, r) {
        forall i | 0 <= i < |b| ensures Holds(b[i], r) { assert b[i] in a; }
      }
      if Satisfies(b, r) {
        forall i | 0 <= i < |a| ensures Holds(a[i], r) { assert a[i] in b; }
      }
    }
    SiftEquivalent(rows, a, b);
  }

  lemma ChainIdempotent(rows: seq<Row>, ts: seq<Test>)
    ensures Chain(Chain(rows, ts), ts) == Chain(rows, ts)
  {
    ChainIsSift(rows, ts);
    ChainIsSift(Sift(rows, ts), ts);
    SiftIdempotent(rows, ts);
  }

  /** Python truthiness of the optional `month` query text: absent and empty mean "no month". */
  predicate MonthGiven(month: Option<string>)
  {
    month.Some? && month.value != ""
  }

  /** Calls the month parser only when a month was given; its failure is `InvalidMonth`. */
  function ResolveMonth(month: Option<string>, parse: string -> Option<Month>): (r: Result<Option<Month>>)
    ensures r.Ok? && r.value.None? <==> !MonthGiven(month)
    ensures r.Err? <==> MonthGiven(month) && parse(month.value).None?
    ensures r.Err? ==> r.error == InvalidMonth(month.value)
    ensures r.Ok? && r.value.Some? ==> MonthGiven(month) && parse(month.value) == r.value
  {
    if !MonthGiven(month) then Ok(None)
    else match parse(month.value)
      case None => Err(InvalidMonth(month.value))
      case Some(m) => Ok(Some(m))
  }

  /** The tests the KPI and grouping handlers apply, in their order. */
  function QueryTests(mm: Option<Month>, vendor: string, product: string): seq<Test>
  {
    (if mm.Some? then [MonthIs(mm.value)] else [])
    + (if vendor != ALL then [VendorIs(vendor)] else [])
    + (if product != ALL then [ProductIs(product)] else [])
  }

  /** The reference conjunction: which rows the query keeps, stated on the row itself. */
  predicate Passes(mm: Option<Month>, vendor: string, product: string, r: Row)
  {
    && (mm.Some? ==> r.orderDate.Some? && r.orderDate.value.month == mm.value)
    && (vendor != ALL ==> r.customer == Some(vendor))
    && (product != ALL ==> r.product == Some(product))
  }

  lemma QueryTestsMeanPasses(mm: Option<Month>, vendor: string, product: string, r: Row)
    ensures Satisfies(QueryTests(mm, vendor, product), r) <==> Passes(mm, vendor, product, r)
  {
    var ts := QueryTests(mm, vendor, product);
    var a := if mm.Some? then [MonthIs(mm.value)] else [];
    var b := if vendor != ALL then [VendorIs(vendor)] else [];
    var c := if product != ALL then [ProductIs(product)] else [];
    assert ts == a + b + c;
    if mm.Some? { assert ts[0] == MonthIs(mm.value); }
    if vendor != ALL { assert ts[|a|] == VendorIs(vendor); }
    if product != ALL { assert ts[|a| + |b|] == ProductIs(product); }
    if Passes(mm, vendor, product, r) {
      forall i | 0 <= i < |ts| ensures Holds(ts[i], r) {
        if i < |a| { assert ts[i] == a[i]; }
        else if i < |a| + |b| { assert ts[i] == b[i - |a|]; }
        else { assert ts[i] == c[i - |a| - |b|]; }
      }
    }
  }

  /**
   * The front part of `get_kpis` and `get_grouped_data`: `Order Date` must be a
   * column, the month text must parse, and a vendor or product filter looks up
   * its column (an uncaught KeyError when it is absent).
   */
  function FilterView(ds: Dataset, month: Option<string>, vendor: string, product: string,
                      parse: string -> Option<Month>): Result<seq<Row>>
  {
    if ORDER_DATE !in ds.columns then Err(MissingColumn(ORDER_DATE))
    else match ResolveMonth(month, parse)
      case Err(e) => Err(e)
      case Ok(mm) =>
        if vendor != ALL && CUSTOMER !in ds.columns then Err(KeyLookup(CUSTOMER))
        else if product != ALL && PRODUCT !in ds.columns then Err(KeyLookup(PRODUCT))
        else Ok(Chain(ds.rows, QueryTests(mm, vendor, product)))
  }

  /** When the filter fails, and with which error, in the handlers' order of checks. */
  lemma FilterViewErrors(ds: Dataset, month: Option<string>, vendor: string, product: string,
                         parse: string -> Option<Month>)
    ensures var v := FilterView(ds, month, vendor, product, parse);
      && (v.Err? <==>
            || ORDER_DATE !in ds.columns
            || (MonthGiven(month) && parse(month.value).None?)
            || (vendor != ALL && CUSTOMER !in ds.columns)
            || (product != ALL && PRODUCT !in ds.columns))
      && (ORDER_DATE !in ds.columns ==> v == Err(MissingColumn(ORDER_DATE)))
      && ((ORDER_DATE in ds.columns && MonthGiven(month) && parse(month.value).None?)
          ==> v == Err(InvalidMonth(month.value)))
      && ((ORDER_DATE in ds.columns && !(MonthGiven(month) && parse(month.value).None?)
           && vendor != ALL && CUSTOMER !in ds.columns)
          ==> v == Err(KeyLookup(CUSTOMER)))
      && ((ORDER_DATE in ds.columns && !(MonthGiven(month) && parse(month.value).None?)
           && (vendor == ALL || CUSTOMER in ds.columns) && product != ALL && PRODUCT !in ds.columns)
          ==> v == Err(KeyLookup(PRODUCT)))
  {
  }

  /**
   * A successful view is a subsequence of the ledger, and it holds every row
   * that passes the month, vendor and product conditions, with its multiplicity,
   * and no other row. A row with an unknown date passes no month filter.
   */
  lemma FilterViewSpec(ds: Dataset, month: Option<string>, vendor: string, product: string,
                       parse: string -> Option<Month>)
    requires FilterView(ds, month, vendor, product, parse).Ok?
    ensures var view := FilterView(ds, month, vendor, product, parse).value;
      var mm := ResolveMonth(month, parse).value;
      && mm == (if MonthGiven(month) then parse(month.value) else None)
      && Subseq(view, ds.rows)
      && (forall x :: multiset(view)[x] == if Passes(mm, vendor, product, x) then multiset(ds.rows)[x] else 0)
      && (forall x :: x in view <==> x in ds.rows && Passes(mm, vendor, product, x))
  {
    var mm := ResolveMonth(month, parse).value;
    var ts := QueryTests(mm, vendor, product);
    ChainIsSift(ds.rows, ts);
    SiftIsSubseq(ds.rows, ts);
    forall x ensures multiset(Sift(ds.rows, ts))[x] == if Passes(mm, vendor, product, x) then multiset(ds.rows)[x] else 0 {
      SiftCounts(ds.rows, ts, x);
      QueryTestsMeanPasses(mm, vendor, product, x);
    }
    forall x ensures x in Sift(ds.rows, ts) <==> x in ds.rows && Passes(mm, vendor, product, x) {
      QueryTestsMeanPasses(mm, vendor, product, x);
    }
  }

  /** Filtering the view again with the same query gives the view back. */
  lemma FilterViewIdempotent(ds: Dataset, month: Option<string>, vendor: string, product: string,
                             parse: string -> Option<Month>)
    requires FilterView(ds, month, vendor, product, parse).Ok?
    ensures var view := FilterView(ds, month, vendor, product, parse).value;
      FilterView(Dataset(ds.columns, view), month, vendor, product, parse) == Ok(view)
  {
    var mm := ResolveMonth(month, parse).value;
    ChainIdempotent(ds.rows, QueryTests(mm, vendor, product));
  }
}
