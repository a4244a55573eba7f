/**
 * The data model of the sales ledger as the query handlers of backend/main.py
 * see it: rows whose `Order Date` has already been parsed (an unparseable date
 * is `None`, pandas' NaT), the set of column names the uploaded CSV has, and
 * the errors a query can end in.
 */
module Tabular {

  datatype Option<+T> = None | Some(value: T)

  /** Why a query fails. Each carries the column, field or month text that caused it. */
  datatype Error =
    | MissingColumn(column: string)  // the handler's own HTTP 500 for an absent column
    | InvalidMonth(month: string)    // parse_month's ValueError, re-raised as HTTP 400
    | UnknownField(field: string)    // the handler's own HTTP 400 for an unknown grouping field
    | KeyLookup(column: string)      // an uncaught pandas KeyError on an absent column
    | NameError(name: string)        // an uncaught NameError on an unbound module name

  datatype Result<+T> = Ok(value: T) | Err(error: Error)

  /** The HTTP status the caller sees: a client error for bad query text, a server error otherwise. */
  function Status(e: Error): (code: int)
    ensures code == 400 || code == 500
    ensures code == 400 <==> e.InvalidMonth? || e.UnknownField?
  {
    match e
    case InvalidMonth(_) => 400
    case UnknownField(_) => 400
    case _ => 500
  }

  /** A calendar month number. */
  type Month = m: int | 1 <= m <= 12 witness 1

  datatype Date = Date(year: int, month: Month, day: int)

  /** A value of an arbitrary column, as the grouping aggregator sees it; `Null` is pandas' NaN/NaT. */
  datatype Cell = Null | Text(text: string) | Num(number: real) | Stamp(date: Date)

  /**
   * One ledger row. The numeric measures are exact reals (see README); the
   * two name columns may be null; `others` holds every further column's value.
   */
  datatype Row = Row(
    orderDate: Option<Date>,
    sales: real,
    profit: real,
    quantity: int,
    discount: real,
    customer: Option<string>,
    product: Option<string>,
    others: map<string, Cell>)

  /** A dataset: the CSV's column names and its rows, in file order. */
  datatype Dataset = Dataset(columns: set<string>, rows: seq<Row>)

  const ORDER_DATE := "Order Date"
  const SALES := "Sales"
  const PROFIT := "Profit"
  const QUANTITY := "Quantity"
  const DISCOUNT := "Discount"
  const CUSTOMER := "Customer Name"
  const PRODUCT := "Product Name"

  /** The vendor/product value meaning "no filter". */
  const ALL := "Todos"

  /** The value a row holds in column `field`; absent or null values are `Null`. */
  function FieldValue(r: Row, field: string): Cell
  {
    if field == ORDER_DATE then (match r.orderDate case Some(d) => Stamp(d) case None => Null)
    else if field == SALES then Num(r.sales)
    else if field == PROFIT then Num(r.profit)
    else if field == QUANTITY then Num(r.quantity as real)
    else if field == DISCOUNT then Num(r.discount)
    else if field == CUSTOMER then (match r.customer case Some(s) => Text(s) case None => Null)
    else if field == PRODUCT then (match r.product case Some(s) => Text(s) case None => Null)
    else if field in r.others then r.others[field]
    else Null
  }

  /**
   * A sample ledger of three dated sales: Acme on 5 January and 5 February
   * 2020, Beta on 9 January 2020.
   */
  function Ledger(): seq<Row>
  {
    [Row(Some(Date(2020, 1, 5)), 100.0, 20.0, 1, 0.0, Some("Acme"), None, map[]),
     Row(Some(Date(2020, 2, 5)), 50.0, -10.0, 1, 0.0, Some("Acme"), None, map[]),
     Row(Some(Date(2020, 1, 9)), 200.0, 40.0, 1, 0.0, Some("Beta"), None, map[])]
  }
}
