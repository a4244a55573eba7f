/**
 * The trend builder of `sales_trend` (backend/main.py): a year-scoped view,
 * optionally narrowed to one month, pivoted into one sales series per vendor,
 * by month (twelve entries) or by day (one entry per calendar day). The daily
 * path as written is modelled beside the intended one.
 */
module TrendQuery {
  import opened Tabular
  import opened RowFilter
  import opened Measures
  import opened Ordering
  import opened Calendar
  import opened Labels

  datatype Series = Series(vendor: string, values: seq<real>)

  datatype Trend = Trend(labels: seq<string>, datasets: seq<Series>)

  /** The non-null customer names of the rows, in row order. */
  function CustomerNames(rows: seq<Row>): (names: seq<string>)
    ensures forall v :: v in names <==> exists r :: r in rows && r.customer == Some(v)
  {
    if rows == [] then []
    else
      assert rows == [rows[0]] + rows[1..];
      (match rows[0].customer case Some(v) => [v] case None => []) + CustomerNames(rows[1..])
  }

  /**
   * The pivot's columns: the distinct non-null vendors of the view, ascending
   * (the grouped index is sorted; rows with a null vendor are dropped).
   */
  function Vendors(view: seq<Row>): (vs: seq<string>)
    ensures Ascending(StrLt, vs) && Distinct(vs)
    ensures forall v :: v in vs <==> exists r :: r in view && r.customer == Some(v)
  {
    StrLtIsStrictTotal();
    var vs := SortUnique(StrLt, CustomerNames(view));
    AscendingIsDistinct(StrLt, vs);
    vs
  }

  /** Whether a row takes part in the daily pivot: a known date and a non-null vendor. */
  predicate Pivoted(r: Row)
  {
    r.customer.Some? && r.orderDate.Some?
  }

  /** The day of month of every pivoted row, in row order. */
  function DayNumbers(rows: seq<Row>): (days: seq<int>)
    ensures forall d :: d in days <==> exists r :: r in rows && Pivoted(r) && r.orderDate.value.day == d
  {
    if rows == [] then []
    else
      assert rows == [rows[0]] + rows[1..];
      (if Pivoted(rows[0]) then [rows[0].orderDate.value.day] else []) + DayNumbers(rows[1..])
  }

  /** The pivot's index in daily mode: the distinct days with data, ascending. */
  function DaysPresent(view: seq<Row>): (days: seq<int>)
    ensures Ascending(IntLt, days) && Distinct(days)
    ensures forall d :: d in days <==> exists r :: r in view && Pivoted(r) && r.orderDate.value.day == d
  {
    IntLtIsStrictTotal();
    var days := SortUnique(IntLt, DayNumbers(view));
    AscendingIsDistinct(IntLt, days);
    days
  }

  /** One test per month of the year, January first. */
  function MonthTests(): seq<Test>
  {
    seq(12, i requires 0 <= i < 12 => MonthIs(i + 1))
  }

  /** One test per listed day. */
  function DayTests(days: seq<int>): seq<Test>
  {
    seq(|days|, i requires 0 <= i < |days| => DayIs(days[i]))
  }

  function VendorRows(view: seq<Row>, v: string): seq<Row>
  {
    Sift(view, [VendorIs(v)])
  }

  /** Monthly mode: twelve labels and, per vendor, the sales of each month, 0 where there are none. */
  function MonthlyTrend(view: seq<Row>, year: int): Trend
  {
    var vs := Vendors(view);
    Trend(MonthLabels(year),
      seq(|vs|, i requires 0 <= i < |vs| => Series(vs[i], Breakdown(VendorRows(view, vs[i]), MonthTests(), SalesOf))))
  }

  /** The days 1..n of a month, in order. */
  function CalendarDays(n: nat): (ds: seq<int>)
    ensures |ds| == n && Ascending(IntLt, ds)
    ensures forall d :: d in ds <==> 1 <= d <= n
  {
    var ds := seq(n, i requires 0 <= i < n => i + 1);
    forall d | 1 <= d <= n ensures d in ds { assert ds[d - 1] == d; }
    ds
  }

  /**
   * Daily mode as evidently intended: one label per calendar day of
   * (year, month) and, per vendor, one value per label, the sales of that day.
   */
  function DailyTrend(view: seq<Row>, text: string, year: int, month: Month): Trend
  {
    var vs := Vendors(view);
    var n := DaysInMonth(year, month);
    Trend(DayLabels(text, n),
      seq(|vs|, i requires 0 <= i < |vs| => Series(vs[i], Breakdown(VendorRows(view, vs[i]), DayTests(CalendarDays(n)), SalesOf))))
  }

  /**
   * Daily mode as written (once `calendar` is available): the labels cover
   * every calendar day, but each vendor's values are its pivot column, which
   * has one entry per day with data in the view, in ascending day order.
   */
  function DailyTrendAsWritten(view: seq<Row>, text: string, year: int, month: Month): Trend
  {
    var vs := Vendors(view);
    var days := DaysPresent(view);
    Trend(DayLabels(text, DaysInMonth(year, month)),
      seq(|vs|, i requires 0 <= i < |vs| => Series(vs[i], Breakdown(VendorRows(view, vs[i]), DayTests(days), SalesOf))))
  }

  /** Summing a vendor's rows by a test is summing the view's rows that pass both. */
  lemma VendorBreakdownAt(view: seq<Row>, v: string, ts: seq<Test>, i: int)
    requires 0 <= i < |ts|
    ensures Breakdown(VendorRows(view, v), ts, SalesOf)[i] == Total(Sift(view, [VendorIs(v), ts[i]]), SalesOf)
  {
    SiftSift(view, [VendorIs(v)], [ts[i]]);
    assert [VendorIs(v)] + [ts[i]] == [VendorIs(v), ts[i]];
  }

  /**
   * Monthly mode: the labels are `"{year}-01"`..`"{year}-12"`; there is one
   * series per vendor of the view, ascending; each has twelve values, and the
   * value at `m - 1` sums the vendor's sales in month `m` (0 when it has none).
   */
  lemma MonthlyTrendSpec(view: seq<Row>, year: int)
    ensures var t := MonthlyTrend(view, year);
      && t.labels == MonthLabels(year) && |t.labels| == 12
      && |t.datasets| == |Vendors(view)|
      && (forall i :: 0 <= i < |t.datasets| ==> t.datasets[i].vendor == Vendors(view)[i])
      && (forall i :: 0 <= i < |t.datasets| ==> |t.datasets[i].values| == 12)
      && (forall i, m :: 0 <= i < |t.datasets| && 1 <= m <= 12 ==>
            t.datasets[i].values[m - 1] == Total(Sift(view, [VendorIs(t.datasets[i].vendor), MonthIs(m)]), SalesOf))
  {
    var t := MonthlyTrend(view, year);
    forall i, m | 0 <= i < |t.datasets| && 1 <= m <= 12
      ensures t.datasets[i].values[m - 1] == Total(Sift(view, [VendorIs(t.datasets[i].vendor), MonthIs(m)]), SalesOf)
    {
      assert MonthTests()[m - 1] == MonthIs(m);
      VendorBreakdownAt(view, t.datasets[i].vendor, MonthTests(), m - 1);
    }
  }

  /** The view's sales of vendor `v` that pass `t` are 0 when no row of `v` passes `t`. */
  lemma VendorCellZero(view: seq<Row>, v: string, t: Test)
    requires forall r :: r in view && r.customer == Some(v) ==> !Holds(t, r)
    ensures Total(Sift(view, [VendorIs(v), t]), SalesOf) == 0.0
  {
    var ts := [VendorIs(v), t];
    forall r | r in view ensures !Satisfies(ts, r) {
      if r.customer == Some(v) {
        assert !Holds(ts[1], r);
      } else {
        assert !Holds(ts[0], r);
      }
    }
    TotalOfEmptySift(view, ts, SalesOf);
  }

  /** A vendor with no row in month `m` gets 0 there. */
  lemma MonthlyZeroFill(view: seq<Row>, year: int, v: string, m: Month)
    requires forall r :: r in view && r.customer == Some(v) ==> !Holds(MonthIs(m), r)
    ensures var t := MonthlyTrend(view, year);
      forall i :: 0 <= i < |t.datasets| && t.datasets[i].vendor == v ==> t.datasets[i].values[m - 1] == 0.0
  {
    VendorBreakdownAt(view, v, MonthTests(), m - 1);
    VendorCellZero(view, v, MonthIs(m));
  }

  /** Every dated row falls in exactly one month. */
  lemma MonthTestsPartition(rows: seq<Row>)
    requires forall r :: r in rows ==> r.orderDate.Some?
    ensures forall r :: r in rows ==> Hits(MonthTests(), r) == 1
  {
    var ts := MonthTests();
    forall r | r in rows ensures Hits(ts, r) == 1 {
      var k: int := r.orderDate.value.month as int - 1;
      forall j | 0 <= j < 12 && j != k ensures !Holds(ts[j], r) {
        assert ts[j] == MonthIs(j + 1);
      }
      assert ts[k] == MonthIs(k + 1);
      HitsOnce(ts, r, k);
    }
  }

  /** When every row of the view is dated, a vendor's twelve values add up to its total sales. */
  lemma MonthlyValuesAddUp(view: seq<Row>, year: int, i: int)
    requires forall r :: r in view ==> r.orderDate.Some?
    requires 0 <= i < |MonthlyTrend(view, year).datasets|
    ensures var s := MonthlyTrend(view, year).datasets[i];
      SeqSum(s.values) == Total(VendorRows(view, s.vendor), SalesOf)
  {
    var s := MonthlyTrend(view, year).datasets[i];
    MonthTestsPartition(VendorRows(view, s.vendor));
    PartitionTotal(VendorRows(view, s.vendor), MonthTests(), SalesOf);
  }

  /**
   * Daily mode: one label per calendar day of (year, month), each the month
   * text as supplied, a dash and the two-digit day; one series per vendor of the
   * view, ascending; each has one value per label, and the value at `d - 1`
   * sums the vendor's sales on day `d`.
   */
  lemma DailyTrendSpec(view: seq<Row>, text: string, year: int, month: Month)
    ensures var t := DailyTrend(view, text, year, month);
      var n := DaysInMonth(year, month);
      && t.labels == DayLabels(text, n) && |t.labels| == n
      && |t.datasets| == |Vendors(view)|
      && (forall i :: 0 <= i < |t.datasets| ==> t.datasets[i].vendor == Vendors(view)[i])
      && (forall i :: 0 <= i < |t.datasets| ==> |t.datasets[i].values| == n)
      && (forall i, d :: 0 <= i < |t.datasets| && 1 <= d <= n ==>
            t.datasets[i].values[d - 1] == Total(Sift(view, [VendorIs(t.datasets[i].vendor), DayIs(d)]), SalesOf))
  {
    var t := DailyTrend(view, text, year, month);
    var n := DaysInMonth(year, month);
    forall i, d | 0 <= i < |t.datasets| && 1 <= d <= n
      ensures t.datasets[i].values[d - 1] == Total(Sift(view, [VendorIs(t.datasets[i].vendor), DayIs(d)]), SalesOf)
    {
      assert DayTests(CalendarDays(n))[d - 1] == DayIs(d);
      VendorBreakdownAt(view, t.datasets[i].vendor, DayTests(CalendarDays(n)), d - 1);
    }
  }

  /** A vendor with no row on day `d` gets 0 there. */
  lemma DailyZeroFill(view: seq<Row>, text: string, year: int, month: Month, v: string, d: int)
    requires 1 <= d <= DaysInMonth(year, month)
    requires forall r :: r in view && r.customer == Some(v) ==> !Holds(DayIs(d), r)
    ensures var t := DailyTrend(view, text, year, month);
      forall i :: 0 <= i < |t.datasets| && t.datasets[i].vendor == v ==> t.datasets[i].values[d - 1] == 0.0
  {
    var ts := DayTests(CalendarDays(DaysInMonth(year, month)));
    assert ts[d - 1] == DayIs(d);
    VendorBreakdownAt(view, v, ts, d - 1);
    VendorCellZero(view, v, DayIs(d));
  }

  /** A date whose day lies within its month. */
  predicate ValidDate(d: Date)
  {
    1 <= d.day <= DaysInMonth(d.year, d.month)
  }

  /** Every row dated within days 1..n falls on exactly one of them. */
  lemma CalendarDaysPartition(rows: seq<Row>, n: nat)
    requires forall r :: r in rows ==> r.orderDate.Some? && 1 <= r.orderDate.value.day <= n
    ensures forall r :: r in rows ==> Hits(DayTests(CalendarDays(n)), r) == 1
  {
    var ts := DayTests(CalendarDays(n));
    forall r | r in rows ensures Hits(ts, r) == 1 {
      var k := r.orderDate.value.day - 1;
      forall j | 0 <= j < n && j != k ensures !Holds(ts[j], r) {
        assert ts[j] == DayIs(j + 1);
      }
      assert ts[k] == DayIs(k + 1);
      HitsOnce(ts, r, k);
    }
  }

  /**
   * When every row of the view carries a valid date of (year, month), a
   * vendor's daily values add up to its total sales: no sale is lost.
   */
  lemma DailyValuesAddUp(view: seq<Row>, text: string, year: int, month: Month, i: int)
    requires forall r :: r in view ==>
      (r.orderDate.Some? && ValidDate(r.orderDate.value)
       && r.orderDate.value.year == year && r.orderDate.value.month == month)
    requires 0 <= i < |DailyTrend(view, text, year, month).datasets|
    ensures var s := DailyTrend(view, text, year, month).datasets[i];
      SeqSum(s.values) == Total(VendorRows(view, s.vendor), SalesOf)
  {
    var s := DailyTrend(view, text, year, month).datasets[i];
    var n := DaysInMonth(year, month);
    CalendarDaysPartition(VendorRows(view, s.vendor), n);
    PartitionTotal(VendorRows(view, s.vendor), DayTests(CalendarDays(n)), SalesOf);
  }

  /**
   * As written, each series has one value per day with data, whatever the
   * number of labels; the value at `j` sums the vendor's sales on the `j`-th
   * such day.
   */
  lemma DailyTrendAsWrittenSpec(view: seq<Row>, text: string, year: int, month: Month)
    ensures var t := DailyTrendAsWritten(view, text, year, month);
      var days := DaysPresent(view);
      && t.labels == DayLabels(text, DaysInMonth(year, month))
      && |t.labels| == DaysInMonth(year, month)
      && |t.datasets| == |Vendors(view)|
      && (forall i :: 0 <= i < |t.datasets| ==> t.datasets[i].vendor == Vendors(view)[i])
      && (forall i :: 0 <= i < |t.datasets| ==> |t.datasets[i].values| == |days|)
      && (forall i, j :: 0 <= i < |t.datasets| && 0 <= j < |days| ==>
            t.datasets[i].values[j] == Total(Sift(view, [VendorIs(t.datasets[i].vendor), DayIs(days[j])]), SalesOf))
  {
    var t := DailyTrendAsWritten(view, text, year, month);
    var days := DaysPresent(view);
    forall i, j | 0 <= i < |t.datasets| && 0 <= j < |days|
      ensures t.datasets[i].values[j] == Total(Sift(view, [VendorIs(t.datasets[i].vendor), DayIs(days[j])]), SalesOf)
    {
      assert DayTests(days)[j] == DayIs(days[j]);
      VendorBreakdownAt(view, t.datasets[i].vendor, DayTests(days), j);
    }
  }

  /** The pivot's inputs: a day view or a month view, after all checks and filters. */
  datatype Scope = Months(view: seq<Row>) | Days(text: string, month: Month, view: seq<Row>)

  /** The filters of `sales_trend`: year, then month when given, then vendor unless `"Todos"`. */
  function TrendTests(year: int, mm: Option<Month>, vendor: string): seq<Test>
  {
    [YearIs(year)]
    + (if mm.Some? then [MonthIs(mm.value)] else [])
    + (if vendor != ALL then [VendorIs(vendor)] else [])
  }

  predicate InTrend(year: int, mm: Option<Month>, vendor: string, r: Row)
  {
    && r.orderDate.Some? && r.orderDate.value.year == year
    && (mm.Some? ==> r.orderDate.value.month == mm.value)
    && (vendor != ALL ==> r.customer == Some(vendor))
  }

  lemma TrendTestsMeanInTrend(year: int, mm: Option<Month>, vendor: string, r: Row)
    ensures Satisfies(TrendTests(year, mm, vendor), r) <==> InTrend(year, mm, vendor, r)
  {
    var ts := TrendTests(year, mm, vendor);
    var b := if mm.Some? then [MonthIs(mm.value)] else [];
    var c := if vendor != ALL then [VendorIs(vendor)] else [];
    assert ts == [YearIs(year)] + b + c;
    assert ts[0] == YearIs(year);
    if mm.Some? { assert ts[1] == MonthIs(mm.value); }
    if vendor != ALL { assert ts[1 + |b|] == VendorIs(vendor); }
    if InTrend(year, mm, vendor, r) {
      forall i | 0 <= i < |ts| ensures Holds(ts[i], r) {
        if i == 0 { }
        else if i < 1 + |b| { assert ts[i] == b[i - 1]; }
        else { assert ts[i] == c[i - 1 - |b|]; }
      }
    }
  }

  /**
   * Everything `sales_trend` does before pivoting: the `Order Date` check, the
   * month text, and the pandas lookups of `Customer Name` (the vendor filter and
   * the groupby key) and `Sales`, which raise an uncaught KeyError when absent.
   */
  function TrendScope(ds: Dataset, year: int, month: Option<string>, vendor: string,
                      parse: string -> Option<Month>): Result<Scope>
  {
    if ORDER_DATE !in ds.columns then Err(MissingColumn(ORDER_DATE))
    else match ResolveMonth(month, parse)
      case Err(e) => Err(e)
      case Ok(mm) =>
        if CUSTOMER !in ds.columns then Err(KeyLookup(CUSTOMER))
        else if SALES !in ds.columns then Err(KeyLookup(SALES))
        else
          var view := Chain(ds.rows, TrendTests(year, mm, vendor));
          if mm.Some? then Ok(Days(month.value, mm.value, view)) else Ok(Months(view))
  }

  /**
   * The view the trend pivots is a subsequence of the ledger holding exactly
   * the rows dated in `year` (and in the month, when given) of the vendor
   * (unless `"Todos"`); the mode follows the month text.
   */
  lemma TrendScopeSpec(ds: Dataset, year: int, month: Option<string>, vendor: string,
                       parse: string -> Option<Month>)
    requires TrendScope(ds, year, month, vendor, parse).Ok?
    ensures var sc := TrendScope(ds, year, month, vendor, parse).value;
      var mm := if MonthGiven(month) then parse(month.value) else None;
      && (sc.Days? <==> MonthGiven(month))
      && (sc.Days? ==> sc.text == month.value && Some(sc.month) == mm)
      && Subseq(sc.view, ds.rows)
      && (forall x :: multiset(sc.view)[x] == if InTrend(year, mm, vendor, x) then multiset(ds.rows)[x] else 0)
      && (forall r :: r in sc.view <==> r in ds.rows && InTrend(year, mm, vendor, r))
      && (forall r :: r in sc.view ==> r.orderDate.Some?)
  {
    var mm := ResolveMonth(month, parse).value;
    var ts := TrendTests(year, mm, vendor);
    ChainIsSift(ds.rows, ts);
    SiftIsSubseq(ds.rows, ts);
    forall r ensures Satisfies(ts, r) <==> InTrend(year, mm, vendor, r) {
      TrendTestsMeanInTrend(year, mm, vendor, r);
    }
    forall x ensures multiset(Sift(ds.rows, ts))[x] == if InTrend(year, mm, vendor, x) then multiset(ds.rows)[x] else 0 {
      SiftCounts(ds.rows, ts, x);
    }
  }

  /**
   * `sales_trend` as evidently intended: the day count of Python's
   * `calendar.monthrange`, and one daily value per label.
   */
  function SalesTrend(ds: Dataset, year: int, month: Option<string>, vendor: string,
                      parse: string -> Option<Month>): (r: Result<Trend>)
    ensures ORDER_DATE !in ds.columns ==> r == Err(MissingColumn(ORDER_DATE))
    ensures (ORDER_DATE in ds.columns && MonthGiven(month) && parse(month.value).None?)
      ==> r == Err(InvalidMonth(month.value))
    ensures (ORDER_DATE in ds.columns && !(MonthGiven(month) && parse(month.value).None?)
             && CUSTOMER !in ds.columns)
      ==> r == Err(KeyLookup(CUSTOMER))
    ensures (ORDER_DATE in ds.columns && !(MonthGiven(month) && parse(month.value).None?)
             && CUSTOMER in ds.columns && SALES !in ds.columns)
      ==> r == Err(KeyLookup(SALES))
    ensures r.Ok? <==>
      && ORDER_DATE in ds.columns
      && !(MonthGiven(month) && parse(month.value).None?)
      && CUSTOMER in ds.columns && SALES in ds.columns
    ensures (r.Ok? && !MonthGiven(month)) ==> |r.value.labels| == 12
    ensures (r.Ok? && MonthGiven(month)) ==> |r.value.labels| == DaysInMonth(year, parse(month.value).value)
    ensures r.Ok? ==> match TrendScope(ds, year, month, vendor, parse).value
      case Months(view) => r.value == MonthlyTrend(view, year)
      case Days(text, m, view) => r.value == DailyTrend(view, text, year, m)
  {
    match TrendScope(ds, year, month, vendor, parse)
    case Err(e) => Err(e)
    case Ok(Months(view)) => Ok(MonthlyTrend(view, year))
    case Ok(Days(text, m, view)) => Ok(DailyTrend(view, text, year, m))
  }

  /**
   * The caller of the corrected handler sees a 400 exactly for a month that
   * does not parse, and a 500 for a missing column.
   */
  lemma TrendErrorStatus(ds: Dataset, year: int, month: Option<string>, vendor: string,
                         parse: string -> Option<Month>)
    requires SalesTrend(ds, year, month, vendor, parse).Err?
    ensures Status(SalesTrend(ds, year, month, vendor, parse).error) == 400
      <==> ORDER_DATE in ds.columns && MonthGiven(month) && parse(month.value).None?
  {
  }

  /** `sales_trend` as written: daily mode reaches `calendar.monthrange` with `calendar` never imported. */
  function SalesTrendAsWritten(ds: Dataset, year: int, month: Option<string>, vendor: string,
                               parse: string -> Option<Month>): (r: Result<Trend>)
    ensures MonthGiven(month) ==> r.Err?
    ensures TrendScope(ds, year, month, vendor, parse).Err? ==> r == Err(TrendScope(ds, year, month, vendor, parse).error)
    ensures MonthGiven(month) && TrendScope(ds, year, month, vendor, parse).Ok? ==> r == Err(NameError("calendar"))
    ensures !MonthGiven(month) ==> r == SalesTrend(ds, year, month, vendor, parse)
  {
    match TrendScope(ds, year, month, vendor, parse)
    case Err(e) => Err(e)
    case Ok(Months(view)) => Ok(MonthlyTrend(view, year))
    case Ok(Days(_, _, _)) => Err(NameError("calendar"))
  }

  /**
   * As written, no daily trend is ever returned: wherever the intended
   * function answers in daily mode, the code raises NameError. Monthly mode
   * is unaffected.
   */
  lemma DailyModeAsWrittenFails(ds: Dataset, year: int, month: Option<string>, vendor: string,
                                parse: string -> Option<Month>)
    ensures MonthGiven(month) && SalesTrend(ds, year, month, vendor, parse).Ok?
      ==> SalesTrendAsWritten(ds, year, month, vendor, parse) == Err(NameError("calendar"))
    ensures !MonthGiven(month)
      ==> SalesTrendAsWritten(ds, year, month, vendor, parse) == SalesTrend(ds, year, month, vendor, parse)
  {
  }

  /** A concrete request that shows it: an empty ledger, 2020, January. */
  lemma DailyModeCounterexample(parse: string -> Option<Month>)
    requires parse("enero") == Some(1)
    ensures var ds := Dataset({ORDER_DATE, CUSTOMER, SALES}, []);
      && SalesTrend(ds, 2020, Some("enero"), ALL, parse) == Ok(Trend(DayLabels("enero", 31), []))
      && SalesTrendAsWritten(ds, 2020, Some("enero"), ALL, parse) == Err(NameError("calendar"))
  {
    var ds := Dataset({ORDER_DATE, CUSTOMER, SALES}, []);
    assert MonthGiven(Some("enero"));
    assert ResolveMonth(Some("enero"), parse) == Ok(Some(1));
    ChainIsSift([], TrendTests(2020, Some(1), ALL));
    assert TrendScope(ds, 2020, Some("enero"), ALL, parse) == Ok(Days("enero", 1, []));
    assert Vendors([]) == [];
    assert DaysInMonth(2020, 1) == 31;
    assert DailyTrend([], "enero", 2020, 1) == Trend(DayLabels("enero", 31), []);
  }

  /** February of a leap year has 29 labels, of a common year 28. */
  lemma FebruaryLabels(text: string)
    ensures |DailyTrend([], text, 2020, 2).labels| == 29
    ensures |DailyTrend([], text, 2021, 2).labels| == 28
    ensures |DailyTrend([], text, 1900, 2).labels| == 28
    ensures |DailyTrend([], text, 2000, 2).labels| == 29
  {
  }

  lemma FirstTwoEqual(vs: seq<string>, x: string)
    requires |vs| >= 2
    requires forall i :: 0 <= i < |vs| ==> vs[i] == x
    ensures vs[0] == vs[1]
  {
  }

  lemma AtMostOne(vs: seq<string>, x: string)
    requires Distinct(vs)
    requires forall i :: 0 <= i < |vs| ==> vs[i] == x
    ensures |vs| <= 1
  {
    if |vs| >= 2 {
      FirstTwoEqual(vs, x);
      assert false;
    }
  }

  /** With a vendor filter, only that vendor can have a series. */
  lemma VendorFilterSingleSeries(ds: Dataset, year: int, month: Option<string>, vendor: string,
                                 parse: string -> Option<Month>)
    requires vendor != ALL
    requires SalesTrend(ds, year, month, vendor, parse).Ok?
    ensures var t := SalesTrend(ds, year, month, vendor, parse).value;
      |t.datasets| <= 1 && forall i :: 0 <= i < |t.datasets| ==> t.datasets[i].vendor == vendor
  {
    TrendScopeSpec(ds, year, month, vendor, parse);
    var sc := TrendScope(ds, year, month, vendor, parse).value;
    var vs := Vendors(sc.view);
    forall i | 0 <= i < |vs| ensures vs[i] == vendor {
      assert vs[i] in vs;
      var r :| r in sc.view && r.customer == Some(vs[i]);
    }
    AtMostOne(vs, vendor);
    if sc.Days? {
      DailyTrendSpec(sc.view, sc.text, year, sc.month);
    } else {
      MonthlyTrendSpec(sc.view, year);
    }
  }


  lemma LedgerScope(parse: string -> Option<Month>)
    ensures TrendScope(Dataset({ORDER_DATE, SALES, CUSTOMER}, Ledger()), 2020, None, ALL, parse) == Ok(Months(Ledger()))
  {
    var rows := Ledger();
    var r1, r2, r3 := rows[0], rows[1], rows[2];
    assert rows == [r1, r2, r3];
    assert rows[1..] == [r2, r3] && [r2, r3][1..] == [r3] && [r3][1..] == [];
    assert ResolveMonth(None, parse) == Ok(None);
    assert TrendTests(2020, None, ALL) == [YearIs(2020)];
    ChainIsSift(rows, [YearIs(2020)]);
    SatisfiesOne(YearIs(2020), r1);
    SatisfiesOne(YearIs(2020), r2);
    SatisfiesOne(YearIs(2020), r3);
    assert Sift([r3], [YearIs(2020)]) == [r3];
    assert Sift([r2, r3], [YearIs(2020)]) == [r2, r3];
    assert Sift(rows, [YearIs(2020)]) == rows;
  }

  lemma LedgerNames()
    ensures CustomerNames(Ledger()) == ["Acme", "Acme", "Beta"]
  {
    var rows := Ledger();
    var r1, r2, r3 := rows[0], rows[1], rows[2];
    assert rows == [r1, r2, r3];
    assert rows[1..] == [r2, r3] && [r2, r3][1..] == [r3] && [r3][1..] == [];
    assert CustomerNames([r3]) == ["Beta"];
    assert CustomerNames([r2, r3]) == ["Acme", "Beta"];
  }

  lemma LedgerVendors()
    ensures Vendors(Ledger()) == ["Acme", "Beta"]
  {
    var names := ["Acme", "Acme", "Beta"];
    LedgerNames();
    StrLtIsStrictTotal();
    assert names[..2] == ["Acme", "Acme"] && names[..2][..1] == ["Acme"] && names[..2][..1][..0] == [];
    assert SortUnique(StrLt, []) == [];
    assert Insert(StrLt, "Acme", []) == ["Acme"];
    assert SortUnique(StrLt, ["Acme"]) == ["Acme"];
    assert Insert(StrLt, "Acme", ["Acme"]) == ["Acme"];
    assert SortUnique(StrLt, ["Acme", "Acme"]) == ["Acme"];
    assert "Beta" != "Acme" && !StrLt("Beta", "Acme");
    assert ["Acme"][1..] == [];
    assert Insert(StrLt, "Beta", ["Acme"]) == ["Acme", "Beta"];
    assert SortUnique(StrLt, names) == ["Acme", "Beta"];
  }

  /** The ledger's sales of vendor `v` in month `m`. */
  lemma LedgerCell(v: string, m: Month)
    ensures Total(Sift(Ledger(), [VendorIs(v), MonthIs(m)]), SalesOf)
      == if v == "Acme" && m == 1 then 100.0 else if v == "Acme" && m == 2 then 50.0
         else if v == "Beta" && m == 1 then 200.0 else 0.0
  {
    var rows := Ledger();
    var r1, r2, r3 := rows[0], rows[1], rows[2];
    assert rows == [r1, r2, r3];
    assert rows[1..] == [r2, r3] && [r2, r3][1..] == [r3] && [r3][1..] == [];
    var ts := [VendorIs(v), MonthIs(m)];
    assert ts[0] == VendorIs(v) && ts[1] == MonthIs(m);
    assert Satisfies(ts, r1) <==> v == "Acme" && m == 1;
    assert Satisfies(ts, r2) <==> v == "Acme" && m == 2;
    assert Satisfies(ts, r3) <==> v == "Beta" && m == 1;
    var s3 := Sift([r3], ts);
    var s2 := Sift([r2, r3], ts);
    assert Total(s3, SalesOf) == if v == "Beta" && m == 1 then 200.0 else 0.0;
    assert Total(s2, SalesOf) == Total(s3, SalesOf) + if v == "Acme" && m == 2 then 50.0 else 0.0;
  }

  lemma LedgerMonth(v: string, m: Month)
    ensures Breakdown(VendorRows(Ledger(), v), MonthTests(), SalesOf)[m - 1]
      == if v == "Acme" && m == 1 then 100.0 else if v == "Acme" && m == 2 then 50.0
         else if v == "Beta" && m == 1 then 200.0 else 0.0
  {
    VendorBreakdownAt(Ledger(), v, MonthTests(), m - 1);
    LedgerCell(v, m);
  }

  /** Twelve values that are `a`, `b` and then zeros. */
  lemma TwoThenZeros(vs: seq<real>, a: real, b: real)
    requires |vs| == 12 && vs[0] == a && vs[1] == b
    requires forall i :: 2 <= i < 12 ==> vs[i] == 0.0
    ensures vs == [a, b, 0.0, 0.0, 0.0, 0.0, 0.0, 0.0, 0.0, 0.0, 0.0, 0.0]
  {
  }

  /** A vendor's monthly values in the ledger from March on are 0. */
  lemma LedgerFromMarch(v: string)
    ensures var vs := Breakdown(VendorRows(Ledger(), v), MonthTests(), SalesOf);
      |vs| == 12 && forall i :: 2 <= i < 12 ==> vs[i] == 0.0
  {
    var vs := Breakdown(VendorRows(Ledger(), v), MonthTests(), SalesOf);
    forall i | 2 <= i < 12 ensures vs[i] == 0.0 {
      LedgerMonth(v, i + 1);
    }
  }

  /** Acme's twelve monthly values in the ledger: 100 in January, 50 in February, 0 after. */
  lemma LedgerAcmeSeries()
    ensures Breakdown(VendorRows(Ledger(), "Acme"), MonthTests(), SalesOf) == [100.0, 50.0, 0.0, 0.0, 0.0, 0.0, 0.0, 0.0, 0.0, 0.0, 0.0, 0.0]
  {
    LedgerMonth("Acme", 1);
    LedgerMonth("Acme", 2);
    LedgerFromMarch("Acme");
    TwoThenZeros(Breakdown(VendorRows(Ledger(), "Acme"), MonthTests(), SalesOf), 100.0, 50.0);
  }

  /** Beta's twelve monthly values in the ledger: 200 in January, 0 after. */
  lemma LedgerBetaSeries()
    ensures Breakdown(VendorRows(Ledger(), "Beta"), MonthTests(), SalesOf) == [200.0, 0.0, 0.0, 0.0, 0.0, 0.0, 0.0, 0.0, 0.0, 0.0, 0.0, 0.0]
  {
    LedgerMonth("Beta", 1);
    LedgerMonth("Beta", 2);
    LedgerFromMarch("Beta");
    TwoThenZeros(Breakdown(VendorRows(Ledger(), "Beta"), MonthTests(), SalesOf), 200.0, 0.0);
  }

  /** The monthly trend of a view with exactly two vendors. */
  lemma TwoVendorTrend(view: seq<Row>, year: int, a: string, b: string)
    requires Vendors(view) == [a, b]
    ensures MonthlyTrend(view, year) == Trend(MonthLabels(year),
      [Series(a, Breakdown(VendorRows(view, a), MonthTests(), SalesOf)),
       Series(b, Breakdown(VendorRows(view, b), MonthTests(), SalesOf))])
  {
  }

  lemma LedgerMonthlyTrend()
    ensures MonthlyTrend(Ledger(), 2020) == Trend(MonthLabels(2020),
      [Series("Acme", [100.0, 50.0, 0.0, 0.0, 0.0, 0.0, 0.0, 0.0, 0.0, 0.0, 0.0, 0.0]), Series("Beta", [200.0, 0.0, 0.0, 0.0, 0.0, 0.0, 0.0, 0.0, 0.0, 0.0, 0.0, 0.0])])
  {
    LedgerVendors();
    LedgerAcmeSeries();
    LedgerBetaSeries();
    TwoVendorTrend(Ledger(), 2020, "Acme", "Beta");
  }

  /**
   * The ledger monthly for every vendor: Acme sold 100 in January and 50 in
   * February, Beta 200 in January, and every other month is 0.
   */
  lemma MonthlyExample(parse: string -> Option<Month>)
    ensures SalesTrend(Dataset({ORDER_DATE, SALES, CUSTOMER}, Ledger()), 2020, None, ALL, parse)
      == Ok(Trend(MonthLabels(2020),
              [Series("Acme", [100.0, 50.0, 0.0, 0.0, 0.0, 0.0, 0.0, 0.0, 0.0, 0.0, 0.0, 0.0]), Series("Beta", [200.0, 0.0, 0.0, 0.0, 0.0, 0.0, 0.0, 0.0, 0.0, 0.0, 0.0, 0.0])]))
  {
    var ds := Dataset({ORDER_DATE, SALES, CUSTOMER}, Ledger());
    LedgerScope(parse);
    LedgerMonthlyTrend();
    assert SalesTrend(ds, 2020, None, ALL, parse) == Ok(MonthlyTrend(Ledger(), 2020));
  }

  /** Every series of a trend has one value per label. */
  lemma SalesTrendDense(ds: Dataset, year: int, month: Option<string>, vendor: string,
                        parse: string -> Option<Month>)
    requires SalesTrend(ds, year, month, vendor, parse).Ok?
    ensures var t := SalesTrend(ds, year, month, vendor, parse).value;
      forall i :: 0 <= i < |t.datasets| ==> |t.datasets[i].values| == |t.labels|
  {
    var sc := TrendScope(ds, year, month, vendor, parse).value;
    if sc.Days? {
      DailyTrendSpec(sc.view, sc.text, year, sc.month);
    } else {
      MonthlyTrendSpec(sc.view, year);
    }
  }

  /**
   * When the ledger's dates are valid calendar dates, each series of a trend
   * adds up to the vendor's total sales in the filtered view, in either mode.
   */
  lemma SalesTrendValuesAddUp(ds: Dataset, year: int, month: Option<string>, vendor: string,
                              parse: string -> Option<Month>, i: int)
    requires forall r :: r in ds.rows && r.orderDate.Some? ==> ValidDate(r.orderDate.value)
    requires SalesTrend(ds, year, month, vendor, parse).Ok?
    requires 0 <= i < |SalesTrend(ds, year, month, vendor, parse).value.datasets|
    ensures var s := SalesTrend(ds, year, month, vendor, parse).value.datasets[i];
      SeqSum(s.values) == Total(VendorRows(TrendScope(ds, year, month, vendor, parse).value.view, s.vendor), SalesOf)
  {
    TrendScopeSpec(ds, year, month, vendor, parse);
    var sc := TrendScope(ds, year, month, vendor, parse).value;
    if sc.Days? {
      DailyValuesAddUp(sc.view, sc.text, year, sc.month, i);
    } else {
      MonthlyValuesAddUp(sc.view, year, i);
    }
  }

  lemma SingleSalePivot()
    ensures Vendors([Ledger()[0]]) == ["Acme"] && DaysPresent([Ledger()[0]]) == [5]
  {
    var r := Ledger()[0];
    var view := [r];
    assert [r][1..] == [];
    assert CustomerNames(view) == ["Acme"];
    StrLtIsStrictTotal();
    assert ["Acme"][..0] == [];
    assert SortUnique(StrLt, ["Acme"]) == ["Acme"];
    assert DayNumbers(view) == [5];
    IntLtIsStrictTotal();
    assert [5][..0] == [];
    assert SortUnique(IntLt, [5]) == [5];
  }

  /** The single sale passes the vendor-and-day test of day 5 only. */
  lemma SingleSaleDay(d: int)
    ensures Total(Sift([Ledger()[0]], [VendorIs("Acme"), DayIs(d)]), SalesOf) == if d == 5 then 100.0 else 0.0
  {
    var r := Ledger()[0];
    var ts := [VendorIs("Acme"), DayIs(d)];
    assert ts[0] == VendorIs("Acme") && ts[1] == DayIs(d);
    assert [r][1..] == [];
    if d == 5 {
      assert Satisfies(ts, r);
      assert Sift([r], ts) == [r];
    } else {
      assert !Holds(ts[1], r);
      assert Sift([r], ts) == [];
    }
  }

  lemma SingleSaleAsWritten()
    ensures var w := DailyTrendAsWritten([Ledger()[0]], "enero", 2020, 1);
      |w.labels| == 31 && w.datasets == [Series("Acme", [100.0])]
  {
    var view := [Ledger()[0]];
    SingleSalePivot();
    assert DaysInMonth(2020, 1) == 31;
    SingleSaleDay(5);
    VendorBreakdownAt(view, "Acme", DayTests([5]), 0);
    var w := DailyTrendAsWritten(view, "enero", 2020, 1);
    assert w.datasets[0].values == [w.datasets[0].values[0]];
  }

  lemma SingleSaleIntended()
    ensures var t := DailyTrend([Ledger()[0]], "enero", 2020, 1);
      && |t.labels| == 31 && |t.datasets| == 1 && t.datasets[0].vendor == "Acme"
      && |t.datasets[0].values| == 31
      && t.datasets[0].values[0] == 0.0 && t.datasets[0].values[4] == 100.0
  {
    var view := [Ledger()[0]];
    SingleSalePivot();
    assert DaysInMonth(2020, 1) == 31;
    SingleSaleDay(1);
    SingleSaleDay(5);
    VendorBreakdownAt(view, "Acme", DayTests(CalendarDays(31)), 0);
    VendorBreakdownAt(view, "Acme", DayTests(CalendarDays(31)), 4);
  }

  /**
   * The sparse series misaligns with its labels: one Acme sale of 100 on
   * 5 January 2020 gives, as written, 31 labels but the single value 100,
   * which a chart draws under "enero-01"; the intended series has 31 values,
   * 0 on the first and 100 on the fifth.
   */
  lemma SparseDailyMisaligned()
    ensures var w := DailyTrendAsWritten([Ledger()[0]], "enero", 2020, 1);
      var t := DailyTrend([Ledger()[0]], "enero", 2020, 1);
      && |w.labels| == 31 && w.datasets == [Series("Acme", [100.0])]
      && |w.datasets[0].values| != |w.labels|
      && |t.labels| == 31 && |t.datasets| == 1 && |t.datasets[0].values| == |t.labels|
      && t.datasets[0].values[0] == 0.0 && t.datasets[0].values[4] == 100.0
  {
    SingleSaleAsWritten();
    SingleSaleIntended();
  }
}
