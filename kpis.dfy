/**
 * The KPI aggregator of `get_kpis` (backend/main.py): total sales, the mean
 * per-row profit ratio, the row count and the mean sale of the filtered view.
 */
module KpiQuery {
  import opened Tabular
  import opened RowFilter
  import opened Measures

  datatype Kpi = Kpi(totalSales: real, avgProfitPct: real, saleCount: nat, avgSales: real)

  /**
   * The per-row ratios `Profit / Sales` are only computed when the total is
   * non-zero, and then they need a non-zero `Sales` on every row (IEEE
   * infinities and NaN are not modelled).
   */
  predicate RatiosDefined(view: seq<Row>)
  {
    Total(view, SalesOf) != 0.0 ==> forall r :: r in view ==> r.sales != 0.0
  }

  /** The four KPIs of a view, each guarded as the handler guards it. */
  function Aggregate(view: seq<Row>): (k: Kpi)
    requires RatiosDefined(view)
    ensures k.saleCount == |view|
    ensures k.totalSales == Total(view, SalesOf)
    ensures |view| > 0 ==> k.avgSales * |view| as real == k.totalSales
    ensures k.totalSales != 0.0 ==> |view| > 0 && k.avgProfitPct * |view| as real == RatioTotal(view)
    ensures k.totalSales == 0.0 ==> k.avgProfitPct == 0.0
    ensures view == [] ==> k == Kpi(0.0, 0.0, 0, 0.0)
  {
    var total := Total(view, SalesOf);
    var count := |view|;
    Kpi(total,
        if total != 0.0 then RatioTotal(view) / count as real else 0.0,
        count,
        if count != 0 then total / count as real else 0.0)
  }

  /** The mean sale lies between the smallest and the largest sale of the view. */
  lemma AvgSalesBetween(view: seq<Row>, lo: real, hi: real)
    // RatiosDefined is not needed by the mean sale itself; it is the
    // precondition of Aggregate, which also computes the mean profit ratio.
    requires RatiosDefined(view) && view != []
    requires forall r :: r in view ==> lo <= r.sales <= hi
    ensures lo <= Aggregate(view).avgSales <= hi
  {
    TotalBounds(view, SalesOf, lo, hi);
    var n := |view| as real;
    assert Aggregate(view).avgSales == Total(view, SalesOf) / n;
    MeanBetween(Total(view, SalesOf), n, lo, hi);
  }

  /** When total sales is non-zero, the mean profit ratio lies between the smallest and the largest ratio. */
  lemma AvgProfitPctBetween(view: seq<Row>, lo: real, hi: real)
    requires Total(view, SalesOf) != 0.0
    requires forall r :: r in view ==> r.sales != 0.0 && lo <= r.profit / r.sales <= hi
    ensures RatiosDefined(view)
    ensures lo <= Aggregate(view).avgProfitPct <= hi
  {
    RatioTotalBounds(view, lo, hi);
    var n := |view| as real;
    assert Aggregate(view).avgProfitPct == RatioTotal(view) / n;
    MeanBetween(RatioTotal(view), n, lo, hi);
  }

  lemma MeanBetween(t: real, n: real, lo: real, hi: real)
    requires n > 0.0 && n * lo <= t <= n * hi
    ensures lo <= t / n <= hi
  {
    var q := t / n;
    assert q * n == t;
    assert (q - lo) * n == t - n * lo;
    assert (hi - q) * n == n * hi - t;
    NonNegativeFactor(q - lo, n);
    NonNegativeFactor(hi - q, n);
  }

  lemma NonNegativeFactor(x: real, n: real)
    requires n > 0.0 && x * n >= 0.0
    ensures x >= 0.0
  {
  }

  /** What `get_kpis` needs of the data: the ratios of the view it will aggregate are defined. */
  predicate KpiDefined(ds: Dataset, month: Option<string>, vendor: string, product: string,
                       parse: string -> Option<Month>)
  {
    var v := FilterView(ds, month, vendor, product, parse);
    v.Ok? ==> RatiosDefined(v.value)
  }

  /**
   * `get_kpis` on an already loaded dataset: the filter, then the `Sales` and
   * `Profit` column checks, then the aggregation.
   */
  function GetKpis(ds: Dataset, month: Option<string>, vendor: string, product: string,
                   parse: string -> Option<Month>): (r: Result<Kpi>)
    requires KpiDefined(ds, month, vendor, product, parse)
    ensures ORDER_DATE !in ds.columns ==> r == Err(MissingColumn(ORDER_DATE))
    ensures r.Ok? <==> FilterView(ds, month, vendor, product, parse).Ok? && SALES in ds.columns && PROFIT in ds.columns
    ensures (FilterView(ds, month, vendor, product, parse).Ok? && SALES !in ds.columns)
      ==> r == Err(MissingColumn(SALES))
    ensures (FilterView(ds, month, vendor, product, parse).Ok? && SALES in ds.columns && PROFIT !in ds.columns)
      ==> r == Err(MissingColumn(PROFIT))
    ensures FilterView(ds, month, vendor, product, parse).Err? ==> r == Err(FilterView(ds, month, vendor, product, parse).error)
    ensures r.Ok? ==> var view := FilterView(ds, month, vendor, product, parse).value;
      && r.value == Aggregate(view)
      && r.value.saleCount == |view|
      && r.value.totalSales == Total(view, SalesOf)
  {
    match FilterView(ds, month, vendor, product, parse)
    case Err(e) => Err(e)
    case Ok(view) =>
      if SALES !in ds.columns then Err(MissingColumn(SALES))
      else if PROFIT !in ds.columns then Err(MissingColumn(PROFIT))
      else Ok(Aggregate(view))
  }

  /** Without month, vendor or product the KPIs are those of the whole ledger. */
  lemma KpisOfWholeLedger(ds: Dataset, parse: string -> Option<Month>)
    requires {ORDER_DATE, SALES, PROFIT} <= ds.columns
    requires RatiosDefined(ds.rows)
    ensures GetKpis(ds, None, ALL, ALL, parse) == Ok(Aggregate(ds.rows))
    ensures GetKpis(ds, Some(""), ALL, ALL, parse) == Ok(Aggregate(ds.rows))
  {
    assert QueryTests(None, ALL, ALL) == [];
  }

  /** An empty view yields zeros, not an error. */
  lemma KpisOfEmptyView(ds: Dataset, month: Option<string>, vendor: string, product: string,
                        parse: string -> Option<Month>)
    requires FilterView(ds, month, vendor, product, parse) == Ok([])
    requires SALES in ds.columns && PROFIT in ds.columns
    ensures GetKpis(ds, month, vendor, product, parse) == Ok(Kpi(0.0, 0.0, 0, 0.0))
  {
  }

  lemma LedgerJanuary(parse: string -> Option<Month>)
    requires parse("enero") == Some(1)
    ensures FilterView(Dataset({ORDER_DATE, SALES, PROFIT, CUSTOMER}, Ledger()), Some("enero"), ALL, ALL, parse)
      == Ok([Ledger()[0], Ledger()[2]])
  {
    var rows := Ledger();
    var r1, r2, r3 := rows[0], rows[1], rows[2];
    assert rows == [r1, r2, r3];
    assert rows[1..] == [r2, r3] && [r2, r3][1..] == [r3] && [r3][1..] == [];
    assert ResolveMonth(Some("enero"), parse) == Ok(Some(1));
    assert QueryTests(Some(1), ALL, ALL) == [MonthIs(1)];
    SatisfiesOne(MonthIs(1), r1);
    SatisfiesOne(MonthIs(1), r2);
    SatisfiesOne(MonthIs(1), r3);
    assert Sift([r3], [MonthIs(1)]) == [r3];
    assert Sift([r2, r3], [MonthIs(1)]) == [r3];
    assert Sift(rows, [MonthIs(1)]) == [r1, r3];
  }

  lemma LedgerJanuaryKpis()
    ensures RatiosDefined([Ledger()[0], Ledger()[2]])
    ensures Aggregate([Ledger()[0], Ledger()[2]]) == Kpi(300.0, 0.2, 2, 150.0)
  {
    var r1, r3 := Ledger()[0], Ledger()[2];
    assert [r1, r3][1..] == [r3] && [r3][1..] == [];
    assert Total([r3], SalesOf) == 200.0;
    assert Total([r1, r3], SalesOf) == 300.0;
    assert RatioTotal([r3]) == 0.2;
    assert RatioTotal([r1, r3]) == 0.4;
  }

  /** The sample ledger queried for January: two sales, 300 in total, 20% mean profit ratio. */
  lemma KpiExample(parse: string -> Option<Month>)
    requires parse("enero") == Some(1)
    ensures var ds := Dataset({ORDER_DATE, SALES, PROFIT, CUSTOMER}, Ledger());
      && KpiDefined(ds, Some("enero"), ALL, ALL, parse)
      && GetKpis(ds, Some("enero"), ALL, ALL, parse) == Ok(Kpi(300.0, 0.2, 2, 150.0))
  {
    LedgerJanuary(parse);
    LedgerJanuaryKpis();
  }
}
