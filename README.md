# Sales analytics query engine — Dafny model

This project models the query core of a sales-forecasting backend: the three
read-only endpoints of `backend/main.py` that answer questions about an
uploaded sales ledger.

- `get_kpis` returns total sales, the mean per-row profit ratio, the number of
  sales and the mean sale. It works on the ledger filtered by month name,
  vendor (`Customer Name`) and product (`Product Name`).
- `get_grouped_data` groups the same filtered view by any column, null values
  included. Each group gets the sum of `Sales`, the sum of `Quantity`, the mean
  of `Discount` and the sum of `Profit`. Groups are sorted by total sales,
  largest first.
- `sales_trend` builds one sales series per vendor for a year. By default the
  series has one value per month. When a month is given, the intended
  behaviour is one value per calendar day of that month: the labels cover
  every day, and the `[0]*len(days)` default at main.py:238 is a
  one-value-per-day series. The code does not
  reach that: it calls `calendar.monthrange` without importing `calendar`, and
  its daily values have one entry per day with data. Both are findings below.

The ledger is a `Dataset`: a set of column names and a sequence of rows whose
`Order Date` has already been parsed (an unparseable date is `None`). Each
handler is a pure function from a dataset and the query to a `Result`. The
error branches are those of the code:

- a missing `Order Date` is a 500;
- a month name that does not parse is a 400;
- an unknown grouping field is a 400;
- a missing measure column is a 500;
- an uncaught pandas `KeyError` (filtering or grouping on a missing column) is
  a 500.

The month-name parser is a parameter `parse: string -> Option<Month>`.

Modules: `Tabular` (rows, cells, errors, column names), `Calendar` (days per
month, Gregorian rule), `Ordering` (ascending de-duplicated sort, Python's
string order), `Labels` (integer formatting, `02d` padding, trend labels),
`RowFilter` (the boolean masks and their composition), `Measures` (column
sums and per-period breakdowns), `KpiQuery`, `GroupedQuery` and `TrendQuery`.

The trend handler is modelled twice:

- `TrendQuery.SalesTrend` is the corrected handler. It assumes that
  `calendar` is imported, and its daily mode (`DailyTrend`) has one value per
  calendar day, the intended behaviour that the `[0]*len(days)` default at
  main.py:238 shows. The rows below that describe daily values
  state this corrected behaviour, and they say so.
- `TrendQuery.SalesTrendAsWritten` is the code as written: daily mode raises
  NameError at line 232. `TrendQuery.DailyTrendAsWritten` is the daily path as
  it would run once `calendar` is imported: the values are the pivot columns
  of line 238, one per day with data. `DailyTrendAsWrittenSpec`,
  `DailyModeAsWrittenFails`, `DailyModeCounterexample` and
  `SparseDailyMisaligned` are about these.

Everywhere else the code is followed as written. For example, `get_kpis`
(main.py:135-137) and `get_grouped_data` (main.py:182-184) check their
measure columns and answer a "missing column" 500, but `sales_trend` has no
such check: there a missing `Customer Name` or `Sales` column is an uncaught
`KeyError`, also a 500.

## Model

| member | source | states |
|---|---|---|
| Tabular.Status | backend/main.py:115-137 | Month-parse failures and unknown grouping fields are HTTP 400. Every other error, including the ones FastAPI turns into 500, is HTTP 500. |
| Calendar.DaysInMonth | backend/main.py:232 | A month has 28 to 31 days. Exactly January, March, May, July, August, October and December have 31, and exactly April, June, September and November have 30. February has 29 exactly in leap years. This holds for every integer year, as `calendar.monthrange` computes it. |
| Calendar.YearLength | backend/main.py:232 | The twelve month lengths add up to 366 in a leap year and 365 otherwise. |
| Ordering.SortUnique | backend/main.py:248-251 | The grouped index or pivot columns are strictly ascending and hold exactly the distinct input values. |
| Ordering.AscendingIsDistinct | backend/main.py:248-251 | Under a strict order, an ascending sequence has no duplicates. |
| Ordering.StrLtIsStrictTotal | backend/main.py:248-251 | Python's string comparison is irreflexive, transitive and total. |
| Labels.NatToString | backend/main.py:254 | The decimal text of a natural number is non-empty, all digits, and has no leading zero. |
| Labels.IntToString | backend/main.py:254 | `str(year)` starts with a minus sign exactly for a negative year. Every other character is a digit, and there is no leading zero. |
| Labels.NatToStringRoundTrip | backend/main.py:254 | Parsing the decimal text of a natural number gives the number back. |
| Labels.IntToStringRoundTrip | backend/main.py:254 | Parsing the decimal text of any integer, sign included, gives the integer back. |
| Labels.Pad2 | backend/main.py:233 | `02d` formatting of a number below 100 is two decimal digits that parse back to the number. Together these fix the text: the tens digit, then the units digit. |
| Labels.MonthLabels | backend/main.py:253-254 | There are exactly twelve monthly labels. |
| Labels.MonthLabelsDecode | backend/main.py:253-254 | Monthly label i is exactly `IntToString(year)`, a dash and `Pad2(i + 1)`. The last two characters are digits. The part before the dash parses back to the year and the two digits to i + 1. |
| Labels.MonthLabelsDistinct | backend/main.py:253-254 | The twelve monthly labels are pairwise different. |
| Labels.DayLabels | backend/main.py:232-233 | A month of n days has exactly n daily labels. |
| Labels.DayLabelsDecode | backend/main.py:232-233 | Daily label i is exactly the month text as supplied, a dash and `Pad2(i + 1)`: two digits that parse to i + 1. |
| Labels.DayLabelsDistinct | backend/main.py:232-233 | The daily labels are pairwise different. |
| RowFilter.Sift | backend/main.py:126-132 | A mask keeps at most the rows it was given. A row is in the result exactly when it was in the input and passes every test. |
| RowFilter.SiftIsSubseq | backend/main.py:126-132 | A filtered view keeps the ledger's row order: it is a subsequence of the rows. |
| RowFilter.SiftCounts | backend/main.py:126-132 | A row passing the tests keeps its multiplicity. Any other row has multiplicity 0. |
| RowFilter.SiftSift | backend/main.py:126-132 | Filtering by `a` and then by `b` equals filtering once by `a + b`. |
| RowFilter.SiftEquivalent | backend/main.py:126-132 | Test lists that accept the same rows give the same view. |
| RowFilter.SiftIdempotent | backend/main.py:126-132 | Filtering a filtered view again by the same tests changes nothing. |
| RowFilter.Chain | backend/main.py:120-132 | Rebinding `df = df[mask]` once per test keeps at most the input rows. A row remains exactly when it was in the input and passes every test. |
| RowFilter.ChainIsSift | backend/main.py:120-132 | Rebinding `df = df[mask]` once per test equals a single filter by all the tests. |
| RowFilter.ChainOrderIrrelevant | backend/main.py:120-132 | The order of the month, vendor and product filters does not change the view. |
| RowFilter.ChainIdempotent | backend/main.py:120-132 | Re-applying the chain of filters to its result changes nothing. |
| RowFilter.ResolveMonth | backend/main.py:121-126 | A missing or empty month applies no month filter. Otherwise the month text either parses to a month or fails with InvalidMonth carrying that text. |
| RowFilter.QueryTestsMeanPasses | backend/main.py:120-132 | A row passes the handler's masks exactly when its date has the requested month, its customer is the vendor unless "Todos", and its product is the product unless "Todos". |
| RowFilter.FilterViewErrors | backend/main.py:113-132 | This is the error contract of `FilterView`. The filter fails exactly when one of these holds: `Order Date` is missing; a given month does not parse; the vendor filter needs a missing `Customer Name`; the product filter needs a missing `Product Name`. The error is the first of these in code order: MissingColumn, then InvalidMonth with the month text, then KeyLookup of `Customer Name`, then KeyLookup of `Product Name`. |
| RowFilter.FilterViewSpec | backend/main.py:120-132 | This is the success contract of `FilterView`. A successful view is a subsequence of the ledger holding exactly the passing rows, each with its multiplicity. |
| RowFilter.FilterViewIdempotent | backend/main.py:120-132 | Filtering the filtered view again with the same query returns it unchanged. |
| Measures.TotalAppend | backend/main.py:139 | The sum over two concatenated row lists is the sum of the two sums. |
| Measures.TotalBounds | backend/main.py:139-142 | If every value lies in [lo, hi], the sum of n values lies in [n·lo, n·hi]. |
| Measures.RatioTotalBounds | backend/main.py:140 | If every row's `Profit/Sales` lies in [lo, hi], the sum of the n ratios lies in [n·lo, n·hi]. |
| Measures.Breakdown | backend/main.py:248-252 | A breakdown has one entry per test. Each entry is the sum over the rows passing that test. |
| Measures.PartitionTotal | backend/main.py:248-252 | When every row passes exactly one test, the breakdown's entries add up to the total: nothing is lost or counted twice. |
| Measures.TotalOfEmptySift | backend/main.py:230 | A period with no matching rows gets the filtered sum 0, as with `fill_value=0`. |
| KpiQuery.Aggregate | backend/main.py:139-148 | The sale count is the number of rows and total sales is the column sum. Mean sale × count equals the total when there are rows. The mean profit ratio × count equals the sum of `Profit/Sales` when the total is non-zero, and is 0 when the total is 0. An empty view gives all zeros. |
| KpiQuery.AvgSalesBetween | backend/main.py:142 | The mean sale lies between the smallest and the largest sale. The lemma also requires defined profit ratios only because `Aggregate`, which computes the mean profit ratio too, needs them. |
| KpiQuery.AvgProfitPctBetween | backend/main.py:140 | When total sales is non-zero, the mean profit ratio lies between the smallest and the largest per-row ratio. |
| KpiQuery.GetKpis | backend/main.py:113-148 | The result is Ok exactly when the filter succeeds and `Sales` and `Profit` exist. Otherwise the error is the filter's own error, then a missing `Sales`, then a missing `Profit`. On success the KPIs are `Aggregate` of the filtered view: count, total, mean sale and mean profit ratio as `Aggregate` states them. |
| KpiQuery.KpisOfWholeLedger | backend/main.py:120-148 | With no month, or an empty one, and vendor and product "Todos", the KPIs are those of the whole ledger. |
| KpiQuery.KpisOfEmptyView | backend/main.py:139-148 | An empty filtered view gives zeros, not an error. |
| KpiQuery.KpiExample | backend/main.py:107-148 | The three-row sample ledger queried for January gives total 300, mean ratio 0.2, 2 sales and mean sale 150. |
| GroupedQuery.Keys | backend/main.py:187 | The group keys are pairwise distinct and are exactly the values, null included, that some row holds in the field. |
| GroupedQuery.Summarize | backend/main.py:186-193 | A group record carries its key and aggregates exactly the non-empty set of rows holding that key: `Sales` sum, `Quantity` sum, `Profit` sum, and a `Discount` mean whose product with the group size is the `Discount` sum. |
| GroupedQuery.Groups | backend/main.py:186-195 | The unsorted table has pairwise distinct group keys. A value is a key of the table exactly when some row holds it in the field. Every record is the summary of the rows holding its key. |
| GroupedQuery.SortBySales | backend/main.py:196 | The sorted table is in non-increasing total sales and is a permutation of its input. |
| GroupedQuery.SortKeepsGroupsDistinct | backend/main.py:196 | Sorting keeps the group keys pairwise distinct. |
| GroupedQuery.SortSalesSum | backend/main.py:196 | Sorting does not change the sum of the `total_sales` column. |
| GroupedQuery.GroupTable | backend/main.py:186-197 | The returned table is in non-increasing total sales, its keys are pairwise distinct, and it is a permutation of the unsorted table. |
| GroupedQuery.GroupTableSpec | backend/main.py:186-197 | The returned table is sorted by total sales, largest first, and is a permutation of the per-key records. It has exactly one record per distinct value of the field, and each record is that value's summary. |
| GroupedQuery.GroupTotalsAddUp | backend/main.py:186-197 | The groups' total sales add up to the total sales of the view. |
| GroupedQuery.GetGroupedData | backend/main.py:154-199 | The result is Ok exactly when the filter succeeds, the field exists and all four measure columns exist. A failed filter gives the filter's own error (MissingColumn, InvalidMonth or KeyLookup), before any field check. With a successful filter, an unknown field is reported before any missing measure column. The measure columns are checked in the order `Sales`, `Quantity`, `Discount`, `Profit`, and the first missing one is named. On success the table is the grouped table of the filtered view. |
| GroupedQuery.GroupedErrorStatus | backend/main.py:165-183 | A failed grouped query is a 400 exactly when the month does not parse or, after a successful filter, the field is unknown. Every other failure is a 500. |
| GroupedQuery.GroupedMatchesKpiTotal | backend/main.py:139-192 | The grouped table's sales sum equals the KPI total of the same filtered view. |
| GroupedQuery.GroupedExample | backend/main.py:154-199 | The sample ledger grouped by customer gives Beta (200) before Acme (150, 2 units, profit 10). |
| TrendQuery.Vendors | backend/main.py:248-252 | The series' vendors are ascending and distinct. They are exactly the non-null customers present in the view. |
| TrendQuery.DaysPresent | backend/main.py:226-231 | The as-written daily pivot index is ascending and distinct. It holds exactly the days of the view's rows that have a vendor. |
| TrendQuery.MonthlyTrendSpec | backend/main.py:243-265 | There are twelve monthly labels and one series per vendor, ascending. Each series has twelve values, and value m - 1 is the vendor's sales in month m. |
| TrendQuery.MonthlyZeroFill | backend/main.py:250-261 | A vendor with no sale in a month gets 0 there. |
| TrendQuery.MonthlyValuesAddUp | backend/main.py:248-261 | A vendor's twelve monthly values add up to its total sales in the view. |
| TrendQuery.DailyTrendSpec | backend/main.py:226-241 | Corrected handler, not the code as written (see DailyTrendAsWrittenSpec). In daily mode there is one label per calendar day of the month, formatted as month text, dash, two-digit day. There is one series per vendor, ascending. Each series has one value per label, and value d - 1 is the vendor's sales on day d. |
| TrendQuery.DailyZeroFill | backend/main.py:238 | Corrected handler: the zero fill that the `[0]*len(days)` default evidently intends. A vendor with no sale on a day gets 0 there. The code as written does not do this. |
| TrendQuery.DailyValuesAddUp | backend/main.py:226-241 | Corrected handler: with valid dates of the requested month, a vendor's daily values add up to its total sales. |
| TrendQuery.CalendarDays | backend/main.py:232 | The corrected day list `range(1, monthrange(...)[1] + 1)` has n entries, ascending, and holds exactly the days 1 to n. |
| TrendQuery.DailyTrendAsWrittenSpec | backend/main.py:226-241 | As written, the labels are the daily labels of every calendar day of the month, and series i belongs to the i-th vendor of the pivot columns. Every series has one value per day with data, not one per label. The j-th value is the vendor's sales on the j-th such day. |
| TrendQuery.TrendTestsMeanInTrend | backend/main.py:213-245 | A row passes the trend's masks exactly when it is dated in the year, in the month when one is given, and belongs to the vendor unless "Todos". |
| TrendQuery.TrendScopeSpec | backend/main.py:210-245 | Daily mode is chosen exactly when a month is given. The pivoted view is a subsequence of the ledger. Every row matching the year, month and vendor keeps its multiplicity, and every other row has none. All rows of the view are dated. |
| TrendQuery.SalesTrend | backend/main.py:204-265 | Corrected handler (`calendar` imported, dense daily values); the code as written is SalesTrendAsWritten. The errors come in code order: a missing `Order Date` gives MissingColumn; a given month that does not parse gives InvalidMonth with its text; then a missing `Customer Name` gives KeyLookup, then a missing `Sales`. The result is Ok exactly when none of these happens. On success the trend is MonthlyTrend of the scope's view without a month, and DailyTrend of it with a month, with 12 labels or as many labels as the month has days. |
| TrendQuery.TrendErrorStatus | backend/main.py:206-221 | A failed trend query is a 400 exactly when `Order Date` exists and a given month does not parse. Every other failure is a 500. |
| TrendQuery.SalesTrendDense | backend/main.py:232-261 | Corrected handler: every series has exactly one value per label, in both modes. The code as written has this only in monthly mode. |
| TrendQuery.SalesTrendValuesAddUp | backend/main.py:226-261 | Corrected handler: when the ledger dates are valid, each series adds up to its vendor's total sales in the trend's view. |
| TrendQuery.VendorFilterSingleSeries | backend/main.py:223-224 | With a vendor filter, the trend has at most one series, and it is that vendor's. |
| TrendQuery.FebruaryLabels | backend/main.py:232-233 | Corrected handler: February has 29 daily labels in 2020 and 2000, and 28 in 2021 and 1900. |
| TrendQuery.MonthlyExample | backend/main.py:243-265 | The sample ledger for 2020 gives twelve labels and exactly two series: Acme (100, 50, then ten zeros) and Beta (200, then eleven zeros). |
| TrendQuery.SalesTrendAsWritten | backend/main.py:204-232 | As written, a failure before line 232 keeps its own error: MissingColumn, InvalidMonth (400) or KeyLookup. Every remaining request with a month raises NameError("calendar"). Without a month the result is that of the corrected handler. |
| TrendQuery.DailyModeAsWrittenFails | backend/main.py:232 | Wherever the intended handler answers in daily mode, the code as written raises NameError. In monthly mode both agree. |
| TrendQuery.DailyModeCounterexample | backend/main.py:232 | For an empty ledger, 2020 and "enero", the intended answer is 31 labels and no series. The code as written raises NameError("calendar"). |
| TrendQuery.SparseDailyMisaligned | backend/main.py:238 | One Acme sale of 100 on 5 January 2020 gives, as written, 31 labels but the values [100]. The intended series has 31 values, with 0 on day 1 and 100 on day 5. |

## Left out

- The HTTP layer is not modelled. That covers the FastAPI app, CORS, static files, `serve_frontend` (lines 42-47), the CSV upload (52-63) and the JSON encoding of responses. The handlers receive an already loaded `Dataset`. `Status` records only the status code each error maps to.
- `_get_df` (65-69) is not modelled: it reads the uploaded CSV from disk. Its "no CSV uploaded" 400 error happens before any query logic.
- `metrics_xgb_endpoint`, `predict_csv` and `predict_json` (74-102) are not modelled. They call into the forecasting model, and `backend/model_utils.py` is not part of this model.
- `parse_month` is not modelled. `backend/models/util.py` is not part of this model, so the month parser is the parameter `parse`. A `None` result stands for its `ValueError`.
- `pd.to_datetime(..., errors="coerce")` is not modelled. Rows carry an already parsed `Option<Date>`. Dates are not constrained to be real calendar dates, so the add-up lemmas take `ValidDate` as a hypothesis.
- Floating point is not modelled. Sums and means are exact real arithmetic, with no rounding, NaN, infinity or `float()` conversion.
- KpiQuery.GetKpis: requires that, whenever the view's total sales is non-zero, no row of the view has zero `Sales`. Pandas would produce infinities or NaN in the profit-ratio mean, and those are not modelled.
- Null values in the numeric columns (`Sales`, `Profit`, `Quantity`, `Discount`) are not modelled. Pandas skips them in `sum` and `mean`, but every row here carries numbers. Nulls are modelled for the customer, the product and other columns.
- GroupedQuery.SortBySales: records with equal total sales keep their first-seen key order. Pandas's default quicksort guarantees no order among ties.
- Grouping by one of the four aggregated columns uses the ordinary definition (group by the value, then aggregate). Pandas's behaviour for that case is not modelled.

## Findings

| source | as written | input that shows it | evidently intended | confidence | as-written member | corrected member |
|---|---|---|---|---|---|---|
| backend/main.py:232 | `calendar.monthrange` is called but `calendar` is never imported, so every daily-mode request that passes the column and month validation raises NameError (HTTP 500) | an empty ledger with columns `Order Date`, `Customer Name`, `Sales`; year 2020, month "enero" (parsed as 1) | 31 labels "enero-01".."enero-31" and no series | high; not executed | TrendQuery.DailyModeCounterexample | TrendQuery.SalesTrend |
| backend/main.py:238 | each daily series is its pivot column, with one value per day that has data, while the labels cover every day of the month | one Acme sale of 100 on 2020-01-05, month "enero": 31 labels, values [100.0], drawn under "enero-01" | one value per label: 0 on day 1 and 100 on day 5 (the `[0]*len(days)` default shows the intended length) | high; not executed | TrendQuery.SparseDailyMisaligned | TrendQuery.DailyTrendSpec |
