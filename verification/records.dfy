/**
 * The sales table every analysis reads: one row per order line item, with the
 * columns the pipeline derives or joins in.  A column the table may lack is an
 * `Option` in every row, and a `Schema` flag says whether the column exists at all
 * (a pandas frame without the column raises `KeyError` where an aggregation names it).
 */
module Records {
  import opened Wrappers

  /** A calendar date. */
  datatype Date = Date(year: int, month: int, day: int)

  /** A parsed pandas timestamp: a calendar date and the second within that day. */
  datatype Timestamp = Timestamp(date: Date, second: int)

  predicate IsLeapYear(y: int)
  {
    y % 4 == 0 && (y % 100 != 0 || y % 400 == 0)
  }

  function DaysInMonth(y: int, m: int): int
  {
    if m == 2 then (if IsLeapYear(y) then 29 else 28)
    else if m == 4 || m == 6 || m == 9 || m == 11 then 30
    else 31
  }

  predicate ValidDate(d: Date)
  {
    1 <= d.month <= 12 && 1 <= d.day <= DaysInMonth(d.year, d.month)
  }

  predicate ValidTimestamp(t: Timestamp)
  {
    ValidDate(t.date) && 0 <= t.second < 86400
  }

  /** `pd.to_datetime("YYYY-MM-DD")`: the first instant of a date. */
  function Midnight(d: Date): Timestamp
  {
    Timestamp(d, 0)
  }

  /** `a <= b` on timestamps: calendar fields compared most significant first. */
  predicate NotAfter(a: Timestamp, b: Timestamp)
  {
    if a.date.year != b.date.year then a.date.year < b.date.year
    else if a.date.month != b.date.month then a.date.month < b.date.month
    else if a.date.day != b.date.day then a.date.day < b.date.day
    else a.second <= b.second
  }

  /**
   * Days from 1970-01-01 to the date (proleptic Gregorian calendar), counting
   * 400-year eras of 146097 days; `/` here is floor division, as eras need.
   */
  function DayNumber(d: Date): int
  {
    var y := if d.month <= 2 then d.year - 1 else d.year;
    var era := y / 400;
    var yearOfEra := y - era * 400;
    var shiftedMonth := if d.month > 2 then d.month - 3 else d.month + 9;
    var dayOfYear := (153 * shiftedMonth + 2) / 5 + d.day - 1;
    var dayOfEra := yearOfEra * 365 + yearOfEra / 4 - yearOfEra / 100 + dayOfYear;
    era * 146097 + dayOfEra - 719468
  }

  /** Seconds from 1970-01-01T00:00:00 to the timestamp. */
  function EpochSeconds(t: Timestamp): int
  {
    DayNumber(t.date) * 86400 + t.second
  }

  /** A pandas monthly period, as the integer `year * 12 + month`. */
  function MonthIndex(year: int, month: int): int
  {
    year * 12 + month
  }

  /** One order line item of the sales table. */
  datatype Row = Row(
    orderId: string,
    orderItemId: int,
    productId: string,
    customerId: string,
    price: real,
    freightValue: real,
    orderStatus: Option<string>,
    purchase: Timestamp,
    delivered: Option<Timestamp>,
    year: int,
    month: int,
    quarter: int,
    totalRevenue: real,
    category: Option<string>,
    state: Option<string>,
    reviewScore: Option<int>,
    deliveryDays: Option<int>,
    deliveryCategory: Option<string>)

  /** Which of the optional columns the frame has. */
  datatype Schema = Schema(
    hasStatus: bool,
    hasCategory: bool,
    hasState: bool,
    hasReview: bool,
    hasDeliveryDays: bool,
    hasDeliveryCategory: bool)

  datatype Table = Table(schema: Schema, rows: seq<Row>)

  // Column accessors, named so that sums and groupings over a column agree.

  function Revenue(r: Row): real { r.totalRevenue }

  function Price(r: Row): real { r.price }

  function Freight(r: Row): real { r.freightValue }

  function OrderKey(r: Row): Option<string> { Some(r.orderId) }

  function CustomerKey(r: Row): Option<string> { Some(r.customerId) }

  function CategoryKey(r: Row): Option<string> { r.category }

  function StateKey(r: Row): Option<string> { r.state }
}
