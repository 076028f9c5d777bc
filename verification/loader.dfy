/**
 * The preparation steps of the data loader that compute something: the derived
 * date and revenue columns of the joined sales table, the delivered-orders filter
 * with its date bounds, and the delivery-time columns.  Reading the CSV files and
 * the pandas joins are not modelled; each step starts from the already joined rows.
 */
module DataLoader {
  import opened Wrappers
  import opened Collections
  import opened Records

  /** One line of the order-items / orders join, before any derived column exists. */
  datatype SalesLine = SalesLine(
    orderId: string,
    orderItemId: int,
    productId: string,
    price: real,
    freightValue: real,
    orderStatus: Option<string>,
    purchase: Timestamp,
    delivered: Option<Timestamp>,
    customerId: string)

  /** pandas `.dt.quarter`: the quarter whose three months contain `month`. */
  function Quarter(month: int): (q: int)
    ensures 1 <= month <= 12 ==> 1 <= q <= 4 && 3 * (q - 1) < month <= 3 * q
  {
    (month - 1) / 3 + 1
  }

  function PrepareRow(l: SalesLine): (r: Row)
    ensures r.totalRevenue == l.price + l.freightValue
    ensures r.year == l.purchase.date.year && r.month == l.purchase.date.month
    ensures r.quarter == Quarter(l.purchase.date.month)
  {
    Row(l.orderId, l.orderItemId, l.productId, l.customerId, l.price, l.freightValue,
        l.orderStatus, l.purchase, l.delivered,
        l.purchase.date.year, l.purchase.date.month, Quarter(l.purchase.date.month),
        l.price + l.freightValue,
        None, None, None, None, None)
  }

  /**
   * `prepare_sales_data` after the join: adds `year`, `month`, `quarter` from the
   * purchase timestamp and `total_revenue = price + freight_value`, row by row.
   */
  function PrepareSalesData(lines: seq<SalesLine>): (t: Table)
    ensures t.schema == Schema(true, false, false, false, false, false)
    ensures |t.rows| == |lines|
    ensures forall i :: 0 <= i < |lines| ==>
      && t.rows[i].orderId == lines[i].orderId
      && t.rows[i].orderItemId == lines[i].orderItemId
      && t.rows[i].productId == lines[i].productId
      && t.rows[i].customerId == lines[i].customerId
      && t.rows[i].price == lines[i].price
      && t.rows[i].freightValue == lines[i].freightValue
      && t.rows[i].orderStatus == lines[i].orderStatus
      && t.rows[i].purchase == lines[i].purchase
      && t.rows[i].delivered == lines[i].delivered
      && t.rows[i].totalRevenue == lines[i].price + lines[i].freightValue
      && t.rows[i].year == lines[i].purchase.date.year
      && t.rows[i].month == lines[i].purchase.date.month
      && t.rows[i].quarter == Quarter(lines[i].purchase.date.month)
  {
    Table(Schema(true, false, false, false, false, false), Map(lines, PrepareRow))
  }

  /** Every row's revenue is its price plus its freight. */
  ghost predicate RevenueIsPricePlusFreight(rows: seq<Row>)
  {
    forall r :: r in rows ==> r.totalRevenue == r.price + r.freightValue
  }

  /** Total revenue splits into total price and total freight. */
  lemma PreparedRevenueSplits(lines: seq<SalesLine>)
    ensures RevenueIsPricePlusFreight(PrepareSalesData(lines).rows)
    ensures SumOf(PrepareSalesData(lines).rows, Revenue)
         == SumOf(PrepareSalesData(lines).rows, Price) + SumOf(PrepareSalesData(lines).rows, Freight)
  {
    var rows := PrepareSalesData(lines).rows;
    SumOfLinear(rows, Revenue, Price, Freight);
  }

  /** The date parts of a valid purchase timestamp are a valid month and its quarter. */
  lemma PreparedDateParts(lines: seq<SalesLine>)
    requires forall l :: l in lines ==> ValidTimestamp(l.purchase)
    ensures forall r :: r in PrepareSalesData(lines).rows ==>
      && 1 <= r.month <= 12
      && 1 <= r.quarter <= 4
      && MonthIndex(r.year, r.month) == MonthIndex(r.purchase.date.year, r.purchase.date.month)
      && 3 * (r.quarter - 1) < r.month <= 3 * r.quarter
  {
    var t := PrepareSalesData(lines);
    forall r | r in t.rows
      ensures 1 <= r.month <= 12 && 1 <= r.quarter <= 4
      ensures 3 * (r.quarter - 1) < r.month <= 3 * r.quarter
    {
      var i :| 0 <= i < |t.rows| && t.rows[i] == r;
      assert ValidTimestamp(lines[i].purchase);
    }
  }

  // ---------------------------------------------------------------- filter

  predicate IsDelivered(r: Row)
  {
    r.orderStatus == Some("delivered")
  }

  /**
   * Whether `filter_delivered_orders` keeps a row: delivered status, then the year,
   * the month (only when a year is given too), and the purchase time between the
   * first instant of `start` and the first instant of `end`, both inclusive.
   */
  predicate Selected(r: Row, year: Option<int>, month: Option<int>, start: Option<Date>, end: Option<Date>)
  {
    && IsDelivered(r)
    && (year.None? || r.year == year.value)
    && (year.None? || month.None? || r.month == month.value)
    && (start.None? || NotAfter(Midnight(start.value), r.purchase))
    && (end.None? || NotAfter(r.purchase, Midnight(end.value)))
  }

  function Selection(year: Option<int>, month: Option<int>, start: Option<Date>, end: Option<Date>): Row -> bool
  {
    (r: Row) => Selected(r, year, month, start, end)
  }

  function YearIs(year: int): Row -> bool { (r: Row) => r.year == year }

  function MonthIs(month: int): Row -> bool { (r: Row) => r.month == month }

  function StartsBy(start: Date): Row -> bool { (r: Row) => NotAfter(Midnight(start), r.purchase) }

  function EndsBy(end: Date): Row -> bool { (r: Row) => NotAfter(r.purchase, Midnight(end)) }

  /**
   * `filter_delivered_orders`: narrows the table mask by mask; the result is the
   * single mask `Selected` applied to the input.
   */
  method FilterDeliveredOrders(t: Table, year: Option<int>, month: Option<int>, start: Option<Date>, end: Option<Date>)
    returns (filtered: Table)
    requires t.schema.hasStatus
    ensures filtered.schema == t.schema
    ensures filtered.rows == Filter(t.rows, Selection(year, month, start, end))
  {
    var rows := Filter(t.rows, IsDelivered);
    FilterExt(t.rows, IsDelivered, Selection(None, None, None, None));
    if year.Some? {
      FilterCompose(t.rows, Selection(None, None, None, None), YearIs(year.value), Selection(year, None, None, None));
      rows := Filter(rows, YearIs(year.value));
    } else {
      FilterExt(t.rows, Selection(None, None, None, None), Selection(year, None, None, None));
    }
    if month.Some? && year.Some? {
      FilterCompose(t.rows, Selection(year, None, None, None), MonthIs(month.value), Selection(year, month, None, None));
      rows := Filter(rows, MonthIs(month.value));
    } else {
      FilterExt(t.rows, Selection(year, None, None, None), Selection(year, month, None, None));
    }
    if start.Some? {
      FilterCompose(t.rows, Selection(year, month, None, None), StartsBy(start.value), Selection(year, month, start, None));
      rows := Filter(rows, StartsBy(start.value));
    } else {
      FilterExt(t.rows, Selection(year, month, None, None), Selection(year, month, start, None));
    }
    if end.Some? {
      FilterCompose(t.rows, Selection(year, month, start, None), EndsBy(end.value), Selection(year, month, start, end));
      rows := Filter(rows, EndsBy(end.value));
    } else {
      FilterExt(t.rows, Selection(year, month, start, None), Selection(year, month, start, end));
    }
    filtered := Table(t.schema, rows);
  }

  /**
   * The filtered rows are an order-preserving subsequence of the input, each row
   * that meets every condition is kept as often as it occurs, and every kept row is
   * delivered and inside the bounds.
   */
  lemma FilteredRowsSound(t: Table, year: Option<int>, month: Option<int>, start: Option<Date>, end: Option<Date>)
    ensures SubsequenceOf(Filter(t.rows, Selection(year, month, start, end)), t.rows)
    ensures forall r :: r in Filter(t.rows, Selection(year, month, start, end)) ==>
      && r.orderStatus == Some("delivered")
      && (year.Some? ==> r.year == year.value)
      && (year.Some? && month.Some? ==> r.month == month.value)
      && (start.Some? ==> NotAfter(Midnight(start.value), r.purchase))
      && (end.Some? ==> NotAfter(r.purchase, Midnight(end.value)))
    ensures forall r :: multiset(Filter(t.rows, Selection(year, month, start, end)))[r]
                     == if Selected(r, year, month, start, end) then multiset(t.rows)[r] else 0
  {
    FilterSubsequence(t.rows, Selection(year, month, start, end));
    FilterMultiset(t.rows, Selection(year, month, start, end));
  }

  /** Without a year, a month argument filters nothing. */
  lemma MonthNeedsYear(r: Row, month: Option<int>, start: Option<Date>, end: Option<Date>)
    ensures Selected(r, None, month, start, end) == Selected(r, None, None, start, end)
  {
  }

  /**
   * The end bound is the first instant of the end date: a purchase made on the end
   * date after midnight is dropped.
   */
  lemma EndDateAfterMidnightExcluded(r: Row, year: Option<int>, month: Option<int>, start: Option<Date>, end: Date)
    requires r.purchase.date == end && r.purchase.second > 0
    ensures !Selected(r, year, month, start, Some(end))
  {
  }

  // ---------------------------------------------------------------- delivery columns

  /**
   * pandas `Timedelta.days`: the whole days in a span of seconds, rounded toward
   * negative infinity.
   */
  function WholeDays(seconds: int): (d: int)
    ensures d * 86400 <= seconds < (d + 1) * 86400
  {
    seconds / 86400
  }

  /** `delivery_days`: set exactly when the row has a delivered date. */
  function DeliveryDays(r: Row): (d: Option<int>)
    ensures d.Some? <==> r.delivered.Some?
    ensures d.Some? ==>
      d.value * 86400 <= EpochSeconds(r.delivered.value) - EpochSeconds(r.purchase) < (d.value + 1) * 86400
  {
    match r.delivered
    case None => None
    case Some(at) => Some(WholeDays(EpochSeconds(at) - EpochSeconds(r.purchase)))
  }

  /** The inner `categorize_delivery_speed` of the loader. */
  function CategorizeDeliverySpeed(days: Option<int>): (c: string)
    ensures c == "Unknown" <==> days.None?
    ensures c == "1-3 days" <==> days.Some? && days.value <= 3
    ensures c == "4-7 days" <==> days.Some? && 3 < days.value <= 7
    ensures c == "8+ days" <==> days.Some? && days.value > 7
  {
    match days
    case None => "Unknown"
    case Some(n) =>
      if n <= 3 then "1-3 days"
      else if n <= 7 then "4-7 days"
      else "8+ days"
  }

  /** The position of a speed bucket, fastest first. */
  function SpeedRank(c: string): int
  {
    if c == "1-3 days" then 0 else if c == "4-7 days" then 1 else 2
  }

  /** A delivery that took longer never lands in a faster bucket. */
  lemma SpeedBucketsMonotone(a: int, b: int)
    requires a <= b
    ensures SpeedRank(CategorizeDeliverySpeed(Some(a))) <= SpeedRank(CategorizeDeliverySpeed(Some(b)))
  {
  }

  function WithDelivery(r: Row): Row
  {
    r.(deliveryDays := DeliveryDays(r), deliveryCategory := Some(CategorizeDeliverySpeed(DeliveryDays(r))))
  }

  /**
   * The delivery part of `add_customer_experience_data`: writes `delivery_days` for
   * the rows with a delivered date and `delivery_category` for every row; every
   * other column is unchanged.
   */
  function AddDeliveryColumns(t: Table): (e: Table)
    ensures e.schema == t.schema.(hasDeliveryDays := true, hasDeliveryCategory := true)
    ensures |e.rows| == |t.rows|
    ensures forall i :: 0 <= i < |t.rows| ==>
      e.rows[i] == t.rows[i].(deliveryDays := e.rows[i].deliveryDays, deliveryCategory := e.rows[i].deliveryCategory)
    ensures forall i :: 0 <= i < |t.rows| ==>
      && e.rows[i].deliveryDays == DeliveryDays(t.rows[i])
      && (e.rows[i].deliveryDays.Some? <==> t.rows[i].delivered.Some?)
      && e.rows[i].deliveryCategory == Some(CategorizeDeliverySpeed(e.rows[i].deliveryDays))
  {
    Table(t.schema.(hasDeliveryDays := true, hasDeliveryCategory := true), Map(t.rows, WithDelivery))
  }

  /** Rows with a delivery time are never in the "Unknown" bucket. */
  lemma TimedRowsHaveKnownSpeed(t: Table)
    ensures forall r :: r in AddDeliveryColumns(t).rows && r.deliveryDays.Some? ==>
      r.deliveryCategory.Some? && r.deliveryCategory.value != "Unknown"
  {
    var e := AddDeliveryColumns(t);
    forall r | r in e.rows && r.deliveryDays.Some?
      ensures r.deliveryCategory.Some? && r.deliveryCategory.value != "Unknown"
    {
      var i :| 0 <= i < |e.rows| && e.rows[i] == r;
    }
  }
}
