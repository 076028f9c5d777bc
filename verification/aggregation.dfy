/**
 * `aggregate_by_time_period`: the frame gains a `period` column derived from the
 * purchase timestamp (written into the caller's frame), and is then grouped by
 * that column, counting distinct identifiers and summing the other metrics.
 */
module PeriodAggregation {
  import opened Wrappers
  import opened Collections
  import opened Sorting
  import opened Records
  import DataLoader

  /**
   * A period label: the calendar fields a period keeps, 0 where it keeps none.  A
   * day keeps year, month and day; a month its year and month; a quarter its year
   * and quarter number; a year only the year.
   */
  datatype Period = Period(year: int, part: int, day: int)

  datatype Unit = Daily | Monthly | Quarterly | Yearly

  /** The period names the function recognises; any other name assigns nothing. */
  function UnitNamed(name: string): (u: Option<Unit>)
    ensures u.Some? <==> name in ["day", "month", "quarter", "year"]
  {
    if name == "day" then Some(Daily)
    else if name == "month" then Some(Monthly)
    else if name == "quarter" then Some(Quarterly)
    else if name == "year" then Some(Yearly)
    else None
  }

  /** `.dt.date`, `.dt.to_period('M')`, `('Q')` and `('Y')` of the purchase timestamp. */
  function PeriodOf(unit: Unit): Row -> Period
  {
    (r: Row) =>
      var d := r.purchase.date;
      match unit
      case Daily => Period(d.year, d.month, d.day)
      case Monthly => Period(d.year, d.month, 0)
      case Quarterly => Period(d.year, DataLoader.Quarter(d.month), 0)
      case Yearly => Period(d.year, 0, 0)
  }

  /** Two purchases share a monthly period exactly when they have the same month index. */
  lemma MonthlyPeriodsAreMonthIndices(a: Row, b: Row)
    requires 1 <= a.purchase.date.month <= 12 && 1 <= b.purchase.date.month <= 12
    ensures PeriodOf(Monthly)(a) == PeriodOf(Monthly)(b) <==>
      MonthIndex(a.purchase.date.year, a.purchase.date.month) == MonthIndex(b.purchase.date.year, b.purchase.date.month)
  {
    var x, y := a.purchase.date, b.purchase.date;
    if x.year < y.year {
      assert MonthIndex(x.year, x.month) <= x.year * 12 + 12 <= y.year * 12 < MonthIndex(y.year, y.month);
    } else if y.year < x.year {
      assert MonthIndex(y.year, y.month) <= y.year * 12 + 12 <= x.year * 12 < MonthIndex(x.year, x.month);
    }
  }

  /** Labels of one frequency in chronological order, as `groupby` sorts them. */
  function PeriodLe(a: Period, b: Period): bool
  {
    if a.year != b.year then a.year < b.year
    else if a.part != b.part then a.part < b.part
    else a.day <= b.day
  }

  lemma PeriodLeIsTotal()
    ensures TotalPreorder(PeriodLe)
  {
  }

  /**
   * The columns of the enriched sales frame that `sum` or `nunique` can aggregate:
   * the numeric ones, and the two identifiers the function counts.
   */
  datatype Column =
    | TotalRevenue | Price | Freight | OrderId | CustomerId
    | OrderItemId | Year | Month | Quarter | ReviewScore | DeliveryDays

  function ColumnNamed(name: string): (c: Option<Column>)
  {
    if name == "total_revenue" then Some(TotalRevenue)
    else if name == "price" then Some(Price)
    else if name == "freight_value" then Some(Freight)
    else if name == "order_id" then Some(OrderId)
    else if name == "customer_id" then Some(CustomerId)
    else if name == "order_item_id" then Some(OrderItemId)
    else if name == "year" then Some(Year)
    else if name == "month" then Some(Month)
    else if name == "quarter" then Some(Quarter)
    else if name == "review_score" then Some(ReviewScore)
    else if name == "delivery_days" then Some(DeliveryDays)
    else None
  }

  function ColumnName(c: Column): string
  {
    match c
    case TotalRevenue => "total_revenue"
    case Price => "price"
    case Freight => "freight_value"
    case OrderId => "order_id"
    case CustomerId => "customer_id"
    case OrderItemId => "order_item_id"
    case Year => "year"
    case Month => "month"
    case Quarter => "quarter"
    case ReviewScore => "review_score"
    case DeliveryDays => "delivery_days"
  }

  /** The optional columns exist only when the frame has them; the others always do. */
  predicate Present(schema: Schema, c: Column)
  {
    match c
    case ReviewScore => schema.hasReview
    case DeliveryDays => schema.hasDeliveryDays
    case _ => true
  }

  /** The column a metric names in a frame with these columns, if it has one. */
  function ColumnIn(schema: Schema, name: string): (c: Option<Column>)
    ensures c.Some? <==> ColumnNamed(name).Some? && Present(schema, ColumnNamed(name).value)
    ensures c.Some? ==> c == ColumnNamed(name)
  {
    match ColumnNamed(name)
    case Some(c) => if Present(schema, c) then Some(c) else None
    case None => None
  }

  /** Column names and columns correspond one to one. */
  lemma ColumnNamesRoundTrip(c: Column, name: string)
    ensures ColumnNamed(ColumnName(c)) == Some(c)
    ensures ColumnNamed(name) == Some(c) ==> ColumnName(c) == name
  {
  }

  datatype How = NUnique | Sum

  /** `order_id` and `customer_id` are counted distinct; every other metric is summed. */
  function HowOf(metric: string): How
  {
    if metric == "order_id" || metric == "customer_id" then NUnique else Sum
  }

  /** The summed metrics with a column are the value columns; the counted ones are the identifiers. */
  lemma HowMatchesColumn(name: string)
    ensures HowOf(name) == NUnique ==> ColumnNamed(name) == Some(OrderId) || ColumnNamed(name) == Some(CustomerId)
    ensures HowOf(name) == Sum && ColumnNamed(name).Some? ==>
      ColumnNamed(name).value != OrderId && ColumnNamed(name).value != CustomerId
  {
  }

  /** One entry of `agg_dict`. */
  datatype AggEntry = AggEntry(metric: string, how: How)

  function EntryMetric(e: AggEntry): string { e.metric }

  /**
   * `agg_dict` after the loop: a dictionary keeps each key once, at the position of
   * its first assignment.
   */
  function AggDict(metrics: seq<string>): (d: seq<AggEntry>)
    ensures Distinct(Map(d, EntryMetric))
    ensures forall m :: m in Map(d, EntryMetric) <==> m in metrics
    ensures forall e :: e in d ==> e.how == HowOf(e.metric)
  {
    if |metrics| == 0 then []
    else
      var init := AggDict(metrics[..|metrics| - 1]);
      var m := metrics[|metrics| - 1];
      assert forall x :: x in metrics <==> x in metrics[..|metrics| - 1] || x == m;
      if m in Map(init, EntryMetric) then init
      else
        var e := AggEntry(m, HowOf(m));
        MapAppend(init, [e], EntryMetric);
        assert Map([e], EntryMetric) == [m];
        init + [e]
  }

  /** The loop that fills `agg_dict`. */
  method BuildAggDict(metrics: seq<string>) returns (dict: seq<AggEntry>)
    ensures dict == AggDict(metrics)
  {
    dict := [];
    for i := 0 to |metrics|
      invariant dict == AggDict(metrics[..i])
    {
      assert metrics[..i + 1][..i] == metrics[..i];
      var metric := metrics[i];
      if metric !in Map(dict, EntryMetric) {
        dict := dict + [AggEntry(metric, HowOf(metric))];
      }
    }
    assert metrics[..|metrics|] == metrics;
  }

  /** A row together with its `period` cell. */
  datatype Tagged = Tagged(row: Row, period: Period)

  function Tag(rows: seq<Row>, periods: seq<Period>): (t: seq<Tagged>)
    requires |rows| == |periods|
    ensures |t| == |rows|
    ensures forall i :: 0 <= i < |rows| ==> t[i] == Tagged(rows[i], periods[i])
  {
    seq(|rows|, i requires 0 <= i < |rows| => Tagged(rows[i], periods[i]))
  }

  function TagKey(t: Tagged): Option<Period> { Some(t.period) }

  /**
   * The value a summed column contributes for one row: `sum` skips a missing
   * value, so it contributes 0.  The identifiers are never summed and contribute 0.
   */
  function RowValue(c: Column): Row -> real
  {
    (r: Row) =>
      match c
      case TotalRevenue => r.totalRevenue
      case Price => r.price
      case Freight => r.freightValue
      case OrderItemId => r.orderItemId as real
      case Year => r.year as real
      case Month => r.month as real
      case Quarter => r.quarter as real
      case ReviewScore => if r.reviewScore.Some? then r.reviewScore.value as real else 0.0
      case DeliveryDays => if r.deliveryDays.Some? then r.deliveryDays.value as real else 0.0
      case _ => 0.0
  }

  function TaggedValue(c: Column): Tagged -> real
  {
    (t: Tagged) => RowValue(c)(t.row)
  }

  function TaggedOrder(t: Tagged): Option<string> { Some(t.row.orderId) }

  function TaggedCustomer(t: Tagged): Option<string> { Some(t.row.customerId) }

  /** One aggregated value of a group: `nunique` for identifiers, `sum` otherwise. */
  function Measure(c: Column, g: seq<Tagged>): real
  {
    match c
    case OrderId => |Keys(g, TaggedOrder)| as real
    case CustomerId => |Keys(g, TaggedCustomer)| as real
    case _ => SumOf(g, TaggedValue(c))
  }

  function MeasureIn(g: seq<Tagged>): Column -> real
  {
    (c: Column) => Measure(c, g)
  }

  /** One row of the result: a period and one value per aggregated column. */
  datatype PeriodRow = PeriodRow(period: Period, values: seq<real>)

  function GroupRow(tagged: seq<Tagged>, columns: seq<Column>): Period -> PeriodRow
  {
    (p: Period) => PeriodRow(p, Map(columns, MeasureIn(Members(tagged, TagKey, p))))
  }

  function ByPeriod(a: PeriodRow, b: PeriodRow): bool { PeriodLe(a.period, b.period) }

  lemma ByPeriodIsTotal()
    ensures TotalPreorder(ByPeriod)
  {
  }

  /** The columns of the dictionary, or `KeyError` for a metric the frame has no column for. */
  function Resolve(schema: Schema, dict: seq<AggEntry>): (r: Result<seq<Column>>)
    ensures r.Failure? <==> exists e :: e in dict && ColumnIn(schema, e.metric).None?
    ensures r.Failure? ==> r.error.MissingColumn? && ColumnIn(schema, r.error.name).None?
    ensures r.Success? ==> |r.value| == |dict|
    ensures r.Success? ==> forall i :: 0 <= i < |dict| ==> ColumnIn(schema, dict[i].metric) == Some(r.value[i])
  {
    if |dict| == 0 then Success([])
    else
      var init := dict[..|dict| - 1];
      var e := dict[|dict| - 1];
      assert forall x :: x in dict <==> x in init || x == e;
      match Resolve(schema, init)
      case Failure(err) => Failure(err)
      case Success(columns) =>
        match ColumnIn(schema, e.metric)
        case None => Failure(MissingColumn(e.metric))
        case Some(c) => Success(columns + [c])
  }

  /** The period groups in order of first occurrence, each with its aggregated values. */
  function Groups(tagged: seq<Tagged>, columns: seq<Column>): (g: seq<PeriodRow>)
    ensures |g| == |Keys(tagged, TagKey)|
    ensures forall p :: p in g ==>
      && p.period in Keys(tagged, TagKey)
      && p == GroupRow(tagged, columns)(p.period)
      && |p.values| == |columns|
  {
    var g := Map(Keys(tagged, TagKey), GroupRow(tagged, columns));
    forall p | p in g
      ensures p.period in Keys(tagged, TagKey) && p == GroupRow(tagged, columns)(p.period)
    {
      var i :| 0 <= i < |g| && g[i] == p;
    }
    g
  }

  /** `groupby` output: the groups in chronological order of their periods. */
  function SortedGroups(tagged: seq<Tagged>, columns: seq<Column>): (s: seq<PeriodRow>)
    ensures Sorted(s, ByPeriod)
    ensures multiset(s) == multiset(Groups(tagged, columns))
  {
    ByPeriodIsTotal();
    SortBy(Groups(tagged, columns), ByPeriod)
  }

  /** `df.groupby('period').agg(agg_dict).reset_index()` over a frame with a period column. */
  function Aggregate(schema: Schema, rows: seq<Row>, periods: seq<Period>, dict: seq<AggEntry>): (r: Result<seq<PeriodRow>>)
    requires |rows| == |periods|
    ensures r.Failure? <==> Resolve(schema, dict).Failure?
    ensures r.Failure? ==> r.error == Resolve(schema, dict).error
    ensures r.Success? ==> r.value == SortedGroups(Tag(rows, periods), Resolve(schema, dict).value)
  {
    match Resolve(schema, dict)
    case Failure(e) => Failure(e)
    case Success(columns) => Success(SortedGroups(Tag(rows, periods), columns))
  }

  /** Each sorted group is the group of a period that occurs, with one value per column. */
  lemma SortedGroupsAreGroups(tagged: seq<Tagged>, columns: seq<Column>)
    ensures |SortedGroups(tagged, columns)| == |Keys(tagged, TagKey)|
    ensures forall p :: p in SortedGroups(tagged, columns) ==>
      && p.period in Keys(tagged, TagKey)
      && p == GroupRow(tagged, columns)(p.period)
      && |p.values| == |columns|
  {
    var out := SortedGroups(tagged, columns);
    assert |out| == |multiset(out)| == |Groups(tagged, columns)|;
    forall p | p in out
      ensures p in Groups(tagged, columns)
    {
      assert p in multiset(out);
    }
  }

  /** The groups appear strictly in chronological order, one per period. */
  lemma SortedGroupsAscending(tagged: seq<Tagged>, columns: seq<Column>)
    ensures var out := SortedGroups(tagged, columns);
      forall i, j :: 0 <= i < j < |out| ==> PeriodLe(out[i].period, out[j].period) && out[i].period != out[j].period
  {
    var ks := Keys(tagged, TagKey);
    var out := SortedGroups(tagged, columns);
    MapDistinct(ks, GroupRow(tagged, columns));
    PermutationDistinct(Groups(tagged, columns), out);
    SortedGroupsAreGroups(tagged, columns);
    forall i, j | 0 <= i < j < |out|
      ensures out[i].period != out[j].period
    {
      assert out[i] in out && out[j] in out;
    }
  }

  /**
   * The result has one row per period that occurs in the column, strictly in
   * chronological order, each with one value per entry of the dictionary.
   */
  lemma AggregatedPeriodsAscending(schema: Schema, rows: seq<Row>, periods: seq<Period>, dict: seq<AggEntry>)
    requires |rows| == |periods|
    requires Aggregate(schema, rows, periods, dict).Success?
    ensures var out := Aggregate(schema, rows, periods, dict).value;
      && |out| == |Keys(Tag(rows, periods), TagKey)|
      && (forall i, j :: 0 <= i < j < |out| ==> PeriodLe(out[i].period, out[j].period) && out[i].period != out[j].period)
      && (forall p :: p in out ==> p.period in periods && |p.values| == |dict|)
  {
    var tagged := Tag(rows, periods);
    var columns := Resolve(schema, dict).value;
    SortedGroupsAscending(tagged, columns);
    SortedGroupsAreGroups(tagged, columns);
    forall p | p in SortedGroups(tagged, columns)
      ensures p.period in periods
    {
      var i :| 0 <= i < |tagged| && TagKey(tagged[i]) == Some(p.period);
    }
  }

  /** The `k`-th aggregated value of a result row. */
  function ValueAt(k: nat): PeriodRow -> real
  {
    (p: PeriodRow) => if k < |p.values| then p.values[k] else 0.0
  }

  /** The tagged rows carry every row's value, in the frame's order. */
  lemma TaggedSum(rows: seq<Row>, periods: seq<Period>, c: Column)
    requires |rows| == |periods|
    ensures SumOf(Tag(rows, periods), TaggedValue(c)) == SumOf(rows, RowValue(c))
  {
    SumOfPointwise(Tag(rows, periods), TaggedValue(c), rows, RowValue(c));
  }

  function HasReviewScore(r: Row): bool { r.reviewScore.Some? }

  function HasDeliveryDays(r: Row): bool { r.deliveryDays.Some? }

  /**
   * Summing an optional column skips its missing values: the total is that of the
   * rows that have one.
   */
  lemma MissingValuesSkipped(rows: seq<Row>)
    ensures SumOf(rows, RowValue(ReviewScore)) == SumOf(Filter(rows, HasReviewScore), RowValue(ReviewScore))
    ensures SumOf(rows, RowValue(DeliveryDays)) == SumOf(Filter(rows, HasDeliveryDays), RowValue(DeliveryDays))
  {
    FilterSumZeros(rows, HasReviewScore, RowValue(ReviewScore));
    FilterSumZeros(rows, HasDeliveryDays, RowValue(DeliveryDays));
  }

  /** A summed column's group values add up to its total over the tagged rows. */
  lemma GroupSums(tagged: seq<Tagged>, columns: seq<Column>, k: nat)
    requires k < |columns| && columns[k] != OrderId && columns[k] != CustomerId
    ensures SumOf(SortedGroups(tagged, columns), ValueAt(k)) == SumOf(tagged, TaggedValue(columns[k]))
  {
    var c := columns[k];
    var ks := Keys(tagged, TagKey);
    SumOfPermutation(SortedGroups(tagged, columns), Groups(tagged, columns), ValueAt(k));
    SumOfMap(ks, GroupRow(tagged, columns), ValueAt(k), GroupTotal(tagged, TagKey, TaggedValue(c)));
    SumOverGroups(tagged, TagKey, TaggedValue(c));
    FilterAll(tagged, HasKey(TagKey));
  }

  /**
   * A summed column's values over all periods add up to the column's total over
   * the frame: grouping by period loses no row and counts none twice.
   */
  lemma AggregatedSumsAddUp(schema: Schema, rows: seq<Row>, periods: seq<Period>, dict: seq<AggEntry>, k: nat)
    requires |rows| == |periods|
    requires Aggregate(schema, rows, periods, dict).Success?
    requires k < |dict| && HowOf(dict[k].metric) == Sum
    ensures ColumnIn(schema, dict[k].metric).Some?
    ensures SumOf(Aggregate(schema, rows, periods, dict).value, ValueAt(k))
      == SumOf(rows, RowValue(ColumnIn(schema, dict[k].metric).value))
  {
    var columns := Resolve(schema, dict).value;
    HowMatchesColumn(dict[k].metric);
    GroupSums(Tag(rows, periods), columns, k);
    TaggedSum(rows, periods, columns[k]);
  }

  /** A distinct-count value of a group is at least 1 and at most the group's row count. */
  lemma GroupCountsBounded(tagged: seq<Tagged>, columns: seq<Column>, k: nat)
    requires k < |columns| && (columns[k] == OrderId || columns[k] == CustomerId)
    ensures forall p :: p in SortedGroups(tagged, columns) ==>
      k < |p.values| && 1.0 <= p.values[k] <= |Members(tagged, TagKey, p.period)| as real
  {
    SortedGroupsAreGroups(tagged, columns);
    forall p | p in SortedGroups(tagged, columns)
      ensures k < |p.values| && 1.0 <= p.values[k] <= |Members(tagged, TagKey, p.period)| as real
    {
      var g := Members(tagged, TagKey, p.period);
      GroupNonEmpty(tagged, TagKey, p.period);
      KeysBound(g, TaggedOrder);
      KeysBound(g, TaggedCustomer);
    }
  }

  /** A distinct-count cell of a period is at least 1 and at most the period's row count. */
  lemma DistinctCountsBounded(schema: Schema, rows: seq<Row>, periods: seq<Period>, dict: seq<AggEntry>, k: nat)
    requires |rows| == |periods|
    requires Aggregate(schema, rows, periods, dict).Success?
    requires k < |dict| && HowOf(dict[k].metric) == NUnique
    ensures forall p :: p in Aggregate(schema, rows, periods, dict).value ==>
      k < |p.values| && 1.0 <= p.values[k] <= |Members(Tag(rows, periods), TagKey, p.period)| as real
  {
    var columns := Resolve(schema, dict).value;
    HowMatchesColumn(dict[k].metric);
    GroupCountsBounded(Tag(rows, periods), columns, k);
  }

  /** `metrics=None`: total revenue, distinct orders and distinct customers. */
  const DefaultMetrics: seq<string> := ["total_revenue", "order_id", "customer_id"]

  /**
   * A sales frame whose `period` column `aggregate_by_time_period` writes into the
   * caller's frame: a later call with an unrecognised period name groups by the
   * column an earlier call left behind.
   */
  class Frame {
    var schema: Schema
    var rows: seq<Row>
    var period: Option<seq<Period>>

    ghost predicate Valid()
      reads this
    {
      period.Some? ==> |period.value| == |rows|
    }

    constructor (t: Table)
      ensures Valid() && schema == t.schema && rows == t.rows && period.None?
    {
      schema := t.schema;
      rows := t.rows;
      period := None;
    }

    /** `df['period'] = ...` for a recognised period name; nothing otherwise. */
    method AssignPeriod(name: string)
      requires Valid()
      modifies this`period
      ensures Valid()
      ensures period == match UnitNamed(name)
                        case None => old(period)
                        case Some(u) => Some(Map(rows, PeriodOf(u)))
    {
      match UnitNamed(name)
      case None =>
      case Some(u) => period := Some(Map(rows, PeriodOf(u)));
    }

    /**
     * `aggregate_by_time_period(df, period, metrics)`: without a period column,
     * grouping raises `KeyError`; a metric without a column raises `KeyError`.
     */
    method AggregateByTimePeriod(name: string, metrics: Option<seq<string>>) returns (result: Result<seq<PeriodRow>>)
      requires Valid()
      requires name != "week"
      modifies this`period
      ensures Valid()
      ensures period == match UnitNamed(name)
                        case None => old(period)
                        case Some(u) => Some(Map(rows, PeriodOf(u)))
      ensures period.None? ==> result == Failure(MissingColumn("period"))
      ensures period.Some? ==>
        result == Aggregate(schema, rows, period.value, AggDict(if metrics.None? then DefaultMetrics else metrics.value))
    {
      var names := if metrics.None? then DefaultMetrics else metrics.value;
      AssignPeriod(name);
      var dict := BuildAggDict(names);
      if period.None? {
        return Failure(MissingColumn("period"));
      }
      result := Aggregate(schema, rows, period.value, dict);
    }
  }
}
