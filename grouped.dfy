/**
 * The grouped aggregator of `get_grouped_data` (backend/main.py): one record
 * per distinct value of the grouping column (null kept, `dropna=False`),
 * with three sums and one mean, sorted by total sales, largest first.
 */
module GroupedQuery {
  import opened Tabular
  import opened RowFilter
  import opened Measures
  import opened Ordering

  datatype GroupRow = GroupRow(group: Cell, totalSales: real, totalQuantity: int, avgDiscount: real, totalProfit: real)

  /** The distinct values of `field` among `rows`, in first-seen order. */
  function Keys(rows: seq<Row>, field: string): (ks: seq<Cell>)
    ensures Distinct(ks)
    ensures forall k :: k in ks <==> exists r :: r in rows && FieldValue(r, field) == k
  {
    if rows == [] then []
    else
      var init := Keys(rows[..|rows| - 1], field);
      var k := FieldValue(rows[|rows| - 1], field);
      assert rows == rows[..|rows| - 1] + [rows[|rows| - 1]];
      if k in init then init else init + [k]
  }

  /** The rows of one group. */
  function Members(rows: seq<Row>, field: string, k: Cell): seq<Row>
  {
    Sift(rows, [KeyIs(field, k)])
  }

  /** The aggregate record of the group with key `k`: `sum`, `sum`, `mean`, `sum`. */
  function Summarize(rows: seq<Row>, field: string, k: Cell): (g: GroupRow)
    requires k in Keys(rows, field)
    ensures var m := Members(rows, field, k);
      && g.group == k
      && |m| > 0
      && g.totalSales == Total(m, SalesOf)
      && g.totalQuantity == QuantityTotal(m)
      && g.totalProfit == Total(m, ProfitOf)
      && g.avgDiscount * |m| as real == Total(m, DiscountOf)
  {
    var m := Members(rows, field, k);
    var r :| r in rows && FieldValue(r, field) == k;
    SatisfiesOne(KeyIs(field, k), r);
    assert r in m;
    MeanTimesCount(Total(m, DiscountOf), |m| as real);
    GroupRow(k, Total(m, SalesOf), QuantityTotal(m), Total(m, DiscountOf) / |m| as real, Total(m, ProfitOf))
  }

  lemma MeanTimesCount(t: real, n: real)
    requires n > 0.0
    ensures (t / n) * n == t
  {
  }

  /**
   * The unsorted table, in key order: one record per distinct value of
   * `field`, and each record the summary of the rows holding its value.
   */
  function Groups(rows: seq<Row>, field: string): (gs: seq<GroupRow>)
    ensures DistinctGroups(gs)
    ensures forall k :: k in Keys(rows, field) <==> exists i :: 0 <= i < |gs| && gs[i].group == k
    ensures forall g :: g in gs ==> g.group in Keys(rows, field) && g == Summarize(rows, field, g.group)
  {
    var ks := Keys(rows, field);
    var gs := seq(|ks|, i requires 0 <= i < |ks| => Summarize(rows, field, ks[i]));
    forall k | k in ks ensures exists i :: 0 <= i < |gs| && gs[i].group == k {
      var i :| 0 <= i < |ks| && ks[i] == k;
      assert gs[i].group == k;
    }
    gs
  }

  predicate NonIncreasing(gs: seq<GroupRow>)
  {
    forall i, j :: 0 <= i < j < |gs| ==> gs[i].totalSales >= gs[j].totalSales
  }

  predicate DistinctGroups(gs: seq<GroupRow>)
  {
    forall i, j :: 0 <= i < j < |gs| ==> gs[i].group != gs[j].group
  }

  lemma ConsNonIncreasing(x: GroupRow, tail: seq<GroupRow>)
    requires NonIncreasing(tail)
    requires forall y :: y in tail ==> y.totalSales <= x.totalSales
    ensures NonIncreasing([x] + tail)
  {
    var r := [x] + tail;
    forall i, j | 0 <= i < j < |r| ensures r[i].totalSales >= r[j].totalSales {
      assert r[j] == tail[j - 1];
      if i > 0 { assert r[i] == tail[i - 1]; } else { assert tail[j - 1] in tail; }
    }
  }

  lemma MembersOfInsert(g: GroupRow, s: seq<GroupRow>, tail: seq<GroupRow>)
    requires multiset(tail) == multiset(s) + multiset{g}
    ensures forall y :: y in tail ==> y in s || y == g
  {
    forall y | y in tail ensures y in s || y == g {
      assert y in multiset(tail);
    }
  }

  /** Places `g` before the first record with no larger total. */
  function InsertBySales(g: GroupRow, s: seq<GroupRow>): (r: seq<GroupRow>)
    requires NonIncreasing(s)
    ensures NonIncreasing(r)
    ensures multiset(r) == multiset(s) + multiset{g}
  {
    if s == [] then [g]
    else if s[0].totalSales <= g.totalSales then [g] + s
    else
      var tail := InsertBySales(g, s[1..]);
      assert s == [s[0]] + s[1..];
      MembersOfInsert(g, s[1..], tail);
      forall y | y in s[1..] ensures y.totalSales <= s[0].totalSales {
        var k :| 0 <= k < |s[1..]| && s[1..][k] == y;
        assert s[k + 1] == y;
      }
      ConsNonIncreasing(s[0], tail);
      [s[0]] + tail
  }

  /** `sort_values("total_sales", ascending=False)`: largest total first. */
  function SortBySales(gs: seq<GroupRow>): (r: seq<GroupRow>)
    ensures NonIncreasing(r)
    ensures multiset(r) == multiset(gs)
  {
    if gs == [] then []
    else
      assert gs == [gs[0]] + gs[1..];
      InsertBySales(gs[0], SortBySales(gs[1..]))
  }

  lemma ConsDistinctGroups(x: GroupRow, tail: seq<GroupRow>)
    requires DistinctGroups(tail)
    requires forall y :: y in tail ==> y.group != x.group
    ensures DistinctGroups([x] + tail)
  {
    var r := [x] + tail;
    forall i, j | 0 <= i < j < |r| ensures r[i].group != r[j].group {
      assert r[j] == tail[j - 1];
      if i > 0 { assert r[i] == tail[i - 1]; } else { assert tail[j - 1] in tail; }
    }
  }

  lemma {:induction false} InsertKeepsGroupsDistinct(g: GroupRow, s: seq<GroupRow>)
    requires NonIncreasing(s) && DistinctGroups(s)
    requires forall x :: x in s ==> x.group != g.group
    ensures DistinctGroups(InsertBySales(g, s))
  {
    if s == [] {
    } else if s[0].totalSales <= g.totalSales {
      ConsDistinctGroups(g, s);
    } else {
      assert s == [s[0]] + s[1..];
      InsertKeepsGroupsDistinct(g, s[1..]);
      var tail := InsertBySales(g, s[1..]);
      MembersOfInsert(g, s[1..], tail);
      forall y | y in s[1..] ensures y.group != s[0].group {
        var k :| 0 <= k < |s[1..]| && s[1..][k] == y;
        assert s[k + 1] == y;
      }
      ConsDistinctGroups(s[0], tail);
    }
  }

  lemma {:induction false} SortKeepsGroupsDistinct(gs: seq<GroupRow>)
    requires DistinctGroups(gs)
    ensures DistinctGroups(SortBySales(gs))
  {
    if gs != [] {
      SortKeepsGroupsDistinct(gs[1..]);
      var sorted := SortBySales(gs[1..]);
      forall x | x in sorted ensures x.group != gs[0].group {
        assert x in multiset(gs[1..]);
        var j :| 0 <= j < |gs[1..]| && gs[1..][j] == x;
        assert gs[j + 1] == x;
      }
      InsertKeepsGroupsDistinct(gs[0], sorted);
    }
  }

  /** The sum of the `total_sales` column of a table. */
  function SalesSum(gs: seq<GroupRow>): real
  {
    if gs == [] then 0.0 else gs[0].totalSales + SalesSum(gs[1..])
  }

  lemma {:induction false} InsertSalesSum(g: GroupRow, s: seq<GroupRow>)
    requires NonIncreasing(s)
    ensures SalesSum(InsertBySales(g, s)) == g.totalSales + SalesSum(s)
  {
    if s != [] && s[0].totalSales > g.totalSales {
      InsertSalesSum(g, s[1..]);
    }
  }

  lemma {:induction false} SortSalesSum(gs: seq<GroupRow>)
    ensures SalesSum(SortBySales(gs)) == SalesSum(gs)
  {
    if gs != [] {
      SortSalesSum(gs[1..]);
      InsertSalesSum(gs[0], SortBySales(gs[1..]));
    }
  }

  lemma {:induction false} SalesSumMatches(gs: seq<GroupRow>, vs: seq<real>)
    requires |gs| == |vs| && forall i :: 0 <= i < |gs| ==> gs[i].totalSales == vs[i]
    ensures SalesSum(gs) == SeqSum(vs)
  {
    if gs != [] { SalesSumMatches(gs[1..], vs[1..]); }
  }

  /** The grouped table the handler returns: sorted, one record per key. */
  function GroupTable(rows: seq<Row>, field: string): (out: seq<GroupRow>)
    ensures NonIncreasing(out) && DistinctGroups(out)
    ensures multiset(out) == multiset(Groups(rows, field))
  {
    SortKeepsGroupsDistinct(Groups(rows, field));
    SortBySales(Groups(rows, field))
  }

  /**
   * The table is sorted by total sales, largest first; it holds exactly one
   * record per distinct value of `field` among the rows (null included), and
   * each record aggregates exactly the rows holding its value.
   */
  lemma GroupTableSpec(rows: seq<Row>, field: string)
    ensures var out := GroupTable(rows, field);
      && NonIncreasing(out)
      && DistinctGroups(out)
      && multiset(out) == multiset(Groups(rows, field))
      && (forall k :: k in Keys(rows, field) <==> exists i :: 0 <= i < |out| && out[i].group == k)
      && (forall g :: g in out ==> g.group in Keys(rows, field) && g == Summarize(rows, field, g.group))
  {
    var gs := Groups(rows, field);
    var out := GroupTable(rows, field);
    forall g | g in out ensures g in gs {
      assert g in multiset(gs);
    }
    forall k | k in Keys(rows, field)
      ensures exists i :: 0 <= i < |out| && out[i].group == k
    {
      var i :| 0 <= i < |gs| && gs[i].group == k;
      assert gs[i] in multiset(out);
      var j :| 0 <= j < |out| && out[j] == gs[i];
      assert out[j].group == k;
    }
  }

  /** One test per key: the mask of each group. */
  function KeyTests(field: string, ks: seq<Cell>): seq<Test>
  {
    seq(|ks|, i requires 0 <= i < |ks| => KeyIs(field, ks[i]))
  }

  /** Every row lies in exactly one group. */
  lemma KeyTestsPartition(rows: seq<Row>, field: string)
    ensures var ts := KeyTests(field, Keys(rows, field));
      forall r :: r in rows ==> Hits(ts, r) == 1
  {
    var ks := Keys(rows, field);
    var ts := KeyTests(field, ks);
    forall r | r in rows ensures Hits(ts, r) == 1 {
      var k := FieldValue(r, field);
      assert k in ks;
      var i :| 0 <= i < |ks| && ks[i] == k;
      forall j | 0 <= j < |ts| && j != i ensures !Holds(ts[j], r) {
        assert ts[j] == KeyIs(field, ks[j]);
      }
      assert ts[i] == KeyIs(field, k);
      HitsOnce(ts, r, i);
    }
  }

  /** The unsorted table's sales column is the breakdown of the view by the group masks. */
  lemma GroupsSalesAreBreakdown(rows: seq<Row>, field: string)
    ensures SalesSum(Groups(rows, field)) == SeqSum(Breakdown(rows, KeyTests(field, Keys(rows, field)), SalesOf))
  {
    var ks := Keys(rows, field);
    var gs := Groups(rows, field);
    var ts := KeyTests(field, ks);
    var vs := Breakdown(rows, ts, SalesOf);
    forall i | 0 <= i < |gs| ensures gs[i].totalSales == vs[i] {
      assert gs[i] == Summarize(rows, field, ks[i]);
      assert ts[i] == KeyIs(field, ks[i]);
    }
    SalesSumMatches(gs, vs);
  }

  /** The groups' total sales add up to the total sales of the view. */
  lemma GroupTotalsAddUp(rows: seq<Row>, field: string)
    ensures SalesSum(GroupTable(rows, field)) == Total(rows, SalesOf)
  {
    var ts := KeyTests(field, Keys(rows, field));
    SortSalesSum(Groups(rows, field));
    GroupsSalesAreBreakdown(rows, field);
    KeyTestsPartition(rows, field);
    PartitionTotal(rows, ts, SalesOf);
  }

  /**
   * `get_grouped_data` on an already loaded dataset: the filter, then the
   * grouping field check, then the four measure column checks, then the table.
   */
  function GetGroupedData(ds: Dataset, field: string, month: Option<string>, vendor: string, product: string,
                          parse: string -> Option<Month>): (r: Result<seq<GroupRow>>)
    ensures ORDER_DATE !in ds.columns ==> r == Err(MissingColumn(ORDER_DATE))
    ensures FilterView(ds, month, vendor, product, parse).Err?
      ==> r == Err(FilterView(ds, month, vendor, product, parse).error)
    ensures (FilterView(ds, month, vendor, product, parse).Ok? && field !in ds.columns)
      ==> r == Err(UnknownField(field))
    ensures r.Ok? <==>
      && FilterView(ds, month, vendor, product, parse).Ok?
      && field in ds.columns
      && {SALES, QUANTITY, DISCOUNT, PROFIT} <= ds.columns
    ensures (FilterView(ds, month, vendor, product, parse).Ok? && field in ds.columns && SALES !in ds.columns)
      ==> r == Err(MissingColumn(SALES))
    ensures (FilterView(ds, month, vendor, product, parse).Ok? && field in ds.columns && SALES in ds.columns
             && QUANTITY !in ds.columns)
      ==> r == Err(MissingColumn(QUANTITY))
    ensures (FilterView(ds, month, vendor, product, parse).Ok? && field in ds.columns && {SALES, QUANTITY} <= ds.columns
             && DISCOUNT !in ds.columns)
      ==> r == Err(MissingColumn(DISCOUNT))
    ensures (FilterView(ds, month, vendor, product, parse).Ok? && field in ds.columns
             && {SALES, QUANTITY, DISCOUNT} <= ds.columns && PROFIT !in ds.columns)
      ==> r == Err(MissingColumn(PROFIT))
    ensures r.Err? && r.error.MissingColumn? ==> r.error.column !in ds.columns
    ensures r.Err? && r.error.UnknownField? ==> r.error.field !in ds.columns
    ensures r.Ok? ==> r.value == GroupTable(FilterView(ds, month, vendor, product, parse).value, field)
  {
    match FilterView(ds, month, vendor, product, parse)
    case Err(e) => Err(e)
    case Ok(view) =>
      if field !in ds.columns then Err(UnknownField(field))
      else if SALES !in ds.columns then Err(MissingColumn(SALES))
      else if QUANTITY !in ds.columns then Err(MissingColumn(QUANTITY))
      else if DISCOUNT !in ds.columns then Err(MissingColumn(DISCOUNT))
      else if PROFIT !in ds.columns then Err(MissingColumn(PROFIT))
      else Ok(GroupTable(view, field))
  }

  /**
   * The caller sees a 400 exactly for a month that does not parse or an
   * unknown grouping field, and a 500 for every other failure.
   */
  lemma GroupedErrorStatus(ds: Dataset, field: string, month: Option<string>, vendor: string, product: string,
                           parse: string -> Option<Month>)
    requires GetGroupedData(ds, field, month, vendor, product, parse).Err?
    ensures var e := GetGroupedData(ds, field, month, vendor, product, parse).error;
      Status(e) == 400 <==>
        && ORDER_DATE in ds.columns
        && ((MonthGiven(month) && parse(month.value).None?)
            || (FilterView(ds, month, vendor, product, parse).Ok? && field !in ds.columns))
  {
  }

  /** The grouped total sales equal the KPI total sales of the same filtered view. */
  lemma GroupedMatchesKpiTotal(ds: Dataset, field: string, month: Option<string>, vendor: string, product: string,
                               parse: string -> Option<Month>)
    requires GetGroupedData(ds, field, month, vendor, product, parse).Ok?
    ensures SalesSum(GetGroupedData(ds, field, month, vendor, product, parse).value)
         == Total(FilterView(ds, month, vendor, product, parse).value, SalesOf)
  {
    GroupTotalsAddUp(FilterView(ds, month, vendor, product, parse).value, field);
  }

  lemma LedgerKeys()
    ensures Keys(Ledger(), CUSTOMER) == [Text("Acme"), Text("Beta")]
  {
    var rows := Ledger();
    var r1, r2, r3 := rows[0], rows[1], rows[2];
    assert rows == [r1, r2, r3];
    assert FieldValue(r1, CUSTOMER) == Text("Acme");
    assert FieldValue(r2, CUSTOMER) == Text("Acme");
    assert FieldValue(r3, CUSTOMER) == Text("Beta");
    assert rows[..2] == [r1, r2] && [r1, r2][..1] == [r1] && [r1][..0] == [];
    assert Keys([r1], CUSTOMER) == [Text("Acme")];
    assert Keys([r1, r2], CUSTOMER) == [Text("Acme")];
  }

  lemma LedgerMembers()
    ensures Members(Ledger(), CUSTOMER, Text("Acme")) == [Ledger()[0], Ledger()[1]]
    ensures Members(Ledger(), CUSTOMER, Text("Beta")) == [Ledger()[2]]
  {
    var rows := Ledger();
    var r1, r2, r3 := rows[0], rows[1], rows[2];
    assert rows == [r1, r2, r3];
    assert rows[1..] == [r2, r3] && [r2, r3][1..] == [r3] && [r3][1..] == [];
    var a := KeyIs(CUSTOMER, Text("Acme"));
    var b := KeyIs(CUSTOMER, Text("Beta"));
    SatisfiesOne(a, r1);
    SatisfiesOne(a, r2);
    SatisfiesOne(a, r3);
    SatisfiesOne(b, r1);
    SatisfiesOne(b, r2);
    SatisfiesOne(b, r3);
    assert Sift([r3], [a]) == [];
    assert Sift([r2, r3], [a]) == [r2];
    assert Sift([r3], [b]) == [r3];
    assert Sift([r2, r3], [b]) == [r3];
  }

  lemma LedgerAcme()
    ensures Summarize(Ledger(), CUSTOMER, Text("Acme")) == GroupRow(Text("Acme"), 150.0, 2, 0.0, 10.0)
  {
    var rows := Ledger();
    LedgerKeys();
    LedgerMembers();
    var am := [rows[0], rows[1]];
    assert am[1..] == [rows[1]] && [rows[1]][1..] == [];
    assert Total(am, SalesOf) == 150.0 && Total(am, ProfitOf) == 10.0 && Total(am, DiscountOf) == 0.0;
    assert QuantityTotal(am) == 2;
  }

  lemma LedgerBeta()
    ensures Summarize(Ledger(), CUSTOMER, Text("Beta")) == GroupRow(Text("Beta"), 200.0, 1, 0.0, 40.0)
  {
    var rows := Ledger();
    LedgerKeys();
    LedgerMembers();
    var bm := [rows[2]];
    assert bm[1..] == [];
    assert Total(bm, SalesOf) == 200.0 && Total(bm, ProfitOf) == 40.0 && Total(bm, DiscountOf) == 0.0;
    assert QuantityTotal(bm) == 1;
  }

  lemma LedgerTable()
    ensures GroupTable(Ledger(), CUSTOMER)
      == [GroupRow(Text("Beta"), 200.0, 1, 0.0, 40.0), GroupRow(Text("Acme"), 150.0, 2, 0.0, 10.0)]
  {
    var rows := Ledger();
    LedgerKeys();
    LedgerAcme();
    LedgerBeta();
    var acme := GroupRow(Text("Acme"), 150.0, 2, 0.0, 10.0);
    var beta := GroupRow(Text("Beta"), 200.0, 1, 0.0, 40.0);
    var gs := Groups(rows, CUSTOMER);
    assert gs[0] == acme && gs[1] == beta;
    assert gs == [acme, beta];
    assert gs[1..] == [beta] && [beta][1..] == [];
    assert SortBySales([beta]) == [beta];
    assert InsertBySales(acme, []) == [acme];
    assert InsertBySales(acme, [beta]) == [beta, acme];
  }

  /**
   * The sample ledger grouped by customer: Beta's 200 comes before Acme's 150
   * (two sales, 2 units, profit 10).
   */
  lemma GroupedExample(parse: string -> Option<Month>)
    ensures GetGroupedData(Dataset({ORDER_DATE, SALES, QUANTITY, DISCOUNT, PROFIT, CUSTOMER}, Ledger()),
                           CUSTOMER, None, ALL, ALL, parse)
      == Ok([GroupRow(Text("Beta"), 200.0, 1, 0.0, 40.0), GroupRow(Text("Acme"), 150.0, 2, 0.0, 10.0)])
  {
    assert QueryTests(None, ALL, ALL) == [];
    assert FilterView(Dataset({ORDER_DATE, SALES, QUANTITY, DISCOUNT, PROFIT, CUSTOMER}, Ledger()), None, ALL, ALL, parse)
      == Ok(Ledger());
    LedgerTable();
  }
}
