/**
 * `calculate_revenue_metrics` and `compare_periods`: totals, per-order statistics,
 * growth rates against a comparison table, and the metric-by-metric comparison of
 * two periods.
 */
module Revenue {
  import opened Wrappers
  import opened Floats
  import opened Collections
  import opened Sorting
  import opened Records

  // ---------------------------------------------------------------- statistics

  /** pandas `mean()` of a series of floats: NaN when empty. */
  function MeanOf(values: seq<real>): (m: Num)
    ensures m.NaN? <==> |values| == 0
    ensures m.Finite? ==> m.v * |values| as real == SumOf(values, Id)
  {
    if |values| == 0 then NaN else Finite(SumOf(values, Id) / |values| as real)
  }

  function SquaredDeviation(mean: real): real -> real
  {
    x => (x - mean) * (x - mean)
  }

  lemma {:induction false} SquaresNonNegative(values: seq<real>, mean: real)
    ensures SumOf(values, SquaredDeviation(mean)) >= 0.0
  {
    forall x | x in values ensures SquaredDeviation(mean)(x) >= 0.0 {
      var d := x - mean;
      assert d * d >= 0.0;
    }
    SumOfNonNegative(values, SquaredDeviation(mean));
  }

  /**
   * The sample variance (`ddof = 1`) whose square root `std()` returns: NaN with
   * fewer than two values.
   */
  function SampleVariance(values: seq<real>): (s: Num)
    ensures s.NaN? <==> |values| < 2
    ensures s.Finite? ==> s.v >= 0.0
  {
    if |values| < 2 then NaN
    else
      var mean := SumOf(values, Id) / |values| as real;
      SquaresNonNegative(values, mean);
      Finite(SumOf(values, SquaredDeviation(mean)) / (|values| - 1) as real)
  }

  /** pandas `median()`: NaN when empty. */
  function MedianOf(values: seq<real>): (m: Num)
    ensures m.NaN? <==> |values| == 0
    ensures m.Finite? ==> (2 * |Filter(values, AtMostOf(m.v))| >= |values|
                           && 2 * |Filter(values, AtLeastOf(m.v))| >= |values|)
  {
    if |values| == 0 then NaN else Finite(Median(values))
  }

  // ---------------------------------------------------------------- per-order sums

  /** `groupby('order_id')['total_revenue'].sum()`: one revenue per distinct order. */
  function OrderValues(rows: seq<Row>): (values: seq<real>)
    ensures |values| == |Keys(rows, OrderKey)|
    ensures SumOf(values, Id) == SumOf(rows, Revenue)
  {
    var ks := Keys(rows, OrderKey);
    var values := Map(ks, GroupTotal(rows, OrderKey, Revenue));
    SumOfMap(ks, GroupTotal(rows, OrderKey, Revenue), Id, GroupTotal(rows, OrderKey, Revenue));
    SumOverGroups(rows, OrderKey, Revenue);
    FilterAll(rows, HasKey(OrderKey));
    values
  }

  /** There are orders exactly when there are rows; never more orders than rows. */
  lemma OrderCount(rows: seq<Row>)
    ensures |Keys(rows, OrderKey)| == 0 <==> |rows| == 0
    ensures |Keys(rows, OrderKey)| <= |rows|
    ensures |Keys(rows, OrderKey)| == |set i | 0 <= i < |rows| :: rows[i].orderId|
  {
    KeysBound(rows, OrderKey);
    var ks := Keys(rows, OrderKey);
    DistinctCardinality(ks);
    var ids := set i | 0 <= i < |rows| :: rows[i].orderId;
    forall x | x in ids ensures x in ks {
      var i :| 0 <= i < |rows| && rows[i].orderId == x;
      assert OrderKey(rows[i]) == Some(x);
    }
    assert (set x | x in ks) == ids;
  }

  // ---------------------------------------------------------------- metrics

  /** The three growth rates against a comparison table. */
  datatype Growth = Growth(revenue: Num, orders: real, aov: Num)

  datatype RevenueMetrics = RevenueMetrics(
    totalRevenue: real,
    totalOrders: nat,
    totalItemsSold: nat,
    averageOrderValue: Num,
    averageItemPrice: Num,
    medianOrderValue: Num,
    revenueVariance: Num,
    growth: Option<Growth>)

  /** The metrics of one table, without growth rates. */
  function BasicMetrics(rows: seq<Row>): (m: RevenueMetrics)
    ensures m.totalRevenue == SumOf(rows, Revenue)
    ensures m.totalOrders == |Keys(rows, OrderKey)|
    ensures m.totalItemsSold == |rows|
    ensures m.averageOrderValue.NaN? <==> |rows| == 0
    ensures m.averageItemPrice.NaN? <==> |rows| == 0
    ensures m.medianOrderValue.NaN? <==> |rows| == 0
    ensures m.revenueVariance.NaN? <==> m.totalOrders < 2
    ensures m.growth.None?
  {
    OrderCount(rows);
    var values := OrderValues(rows);
    RevenueMetrics(
      SumOf(rows, Revenue),
      |Keys(rows, OrderKey)|,
      |rows|,
      MeanOf(values),
      MeanOf(Map(rows, Price)),
      MedianOf(values),
      SampleVariance(values),
      None)
  }

  /**
   * The average order value is the mean of the per-order sums, so it is total
   * revenue over the number of distinct orders, whatever the number of items.
   */
  lemma AverageOrderValueIsRevenuePerOrder(rows: seq<Row>)
    requires |rows| > 0
    ensures BasicMetrics(rows).totalOrders > 0
    ensures BasicMetrics(rows).averageOrderValue
         == Finite(BasicMetrics(rows).totalRevenue / BasicMetrics(rows).totalOrders as real)
  {
    OrderCount(rows);
  }

  /** The average item price is the row mean of `price`. */
  lemma AverageItemPriceIsRowMean(rows: seq<Row>)
    requires |rows| > 0
    ensures BasicMetrics(rows).averageItemPrice == Finite(SumOf(rows, Price) / |rows| as real)
  {
    SumOfMap(rows, Price, Id, Price);
  }

  /**
   * The growth rates `(current - base) / base` against a base with orders: a finite
   * rate carries the base to the current value, and the revenue rate is NaN only
   * for a zero over a zero.
   */
  function GrowthRates(current: RevenueMetrics, base: RevenueMetrics): (g: Growth)
    requires base.totalOrders > 0
    ensures g.revenue.Finite? <==> base.totalRevenue != 0.0
    ensures g.revenue.NaN? <==> base.totalRevenue == 0.0 && current.totalRevenue == 0.0
    ensures g.revenue.Finite? ==> base.totalRevenue * (1.0 + g.revenue.v) == current.totalRevenue
    ensures base.totalOrders as real * (1.0 + g.orders) == current.totalOrders as real
    ensures g.aov.Finite? ==> current.averageOrderValue.Finite? && base.averageOrderValue.Finite?
    ensures g.aov.Finite? ==> base.averageOrderValue.v * (1.0 + g.aov.v) == current.averageOrderValue.v
  {
    var b := base.totalOrders as real;
    var orders := (current.totalOrders as real - b) / b;
    assert b * (1.0 + orders) == current.totalOrders as real;
    var revenue := Div(current.totalRevenue - base.totalRevenue, base.totalRevenue);
    var aov := Quot(Sub(current.averageOrderValue, base.averageOrderValue), base.averageOrderValue);
    Growth(revenue, orders, aov)
  }

  /** `calculate_revenue_metrics(df, comparison_df)`. */
  function CalculateRevenueMetrics(t: Table, comparison: Option<Table>): (r: Result<RevenueMetrics>)
    ensures r.Failure? <==> comparison.Some? && |comparison.value.rows| == 0
    ensures r.Failure? ==> r.error == ZeroDivision
    ensures r.Success? ==> r.value.(growth := None) == BasicMetrics(t.rows)
    ensures r.Success? && comparison.None? ==> r.value.growth.None?
    ensures r.Success? && comparison.Some? ==>
      r.value.growth == Some(GrowthRates(BasicMetrics(t.rows), BasicMetrics(comparison.value.rows)))
  {
    var m := BasicMetrics(t.rows);
    match comparison
    case None => Success(m)
    case Some(c) =>
      var base := BasicMetrics(c.rows);
      OrderCount(c.rows);
      if base.totalOrders == 0 then
        // `order_growth_rate` divides two Python ints
        Failure(ZeroDivision)
      else
        Success(m.(growth := Some(GrowthRates(m, base))))
  }

  /**
   * A comparison table with orders whose revenue is zero leaves the revenue growth
   * undefined (infinite or NaN), without failing.
   */
  lemma ZeroBaseRevenueGrowthUndefined(t: Table, c: Table)
    requires |c.rows| > 0 && SumOf(c.rows, Revenue) == 0.0
    ensures CalculateRevenueMetrics(t, Some(c)).Success?
    ensures !CalculateRevenueMetrics(t, Some(c)).value.growth.value.revenue.Finite?
    ensures CalculateRevenueMetrics(t, Some(c)).value.growth.value.revenue.NaN?
        <==> SumOf(t.rows, Revenue) == 0.0
  {
    OrderCount(c.rows);
  }

  // ---------------------------------------------------------------- compare_periods

  /** The names `calculate_revenue_metrics` returns without a comparison table. */
  predicate IsMetricName(name: string)
  {
    name in {"total_revenue", "total_orders", "total_items_sold", "average_order_value",
             "average_item_price", "median_order_value"}
  }

  /** A metric of the result map, looked up by name. */
  function MetricValue(m: RevenueMetrics, name: string): (v: Option<Num>)
    ensures v.Some? <==> IsMetricName(name)
  {
    if name == "total_revenue" then Some(Finite(m.totalRevenue))
    else if name == "total_orders" then Some(Finite(m.totalOrders as real))
    else if name == "total_items_sold" then Some(Finite(m.totalItemsSold as real))
    else if name == "average_order_value" then Some(m.averageOrderValue)
    else if name == "average_item_price" then Some(m.averageItemPrice)
    else if name == "median_order_value" then Some(m.medianOrderValue)
    else None
  }

  datatype MetricComparison = MetricComparison(
    metric: string,
    currentPeriod: Num,
    previousPeriod: Num,
    absoluteChange: Num,
    percentChange: Num)

  /** The percent change, NaN when the previous value is zero. */
  function PercentChange(current: Num, previous: Num): (p: Num)
    ensures previous == Finite(0.0) ==> p.NaN?
    ensures current.Finite? && previous.Finite? && previous.v != 0.0 ==>
      p == Finite((current.v - previous.v) / previous.v * 100.0)
    ensures p.Finite? ==> current.Finite? && previous.Finite? && previous.v != 0.0
  {
    if previous != Finite(0.0) then Scale(Quot(Sub(current, previous), previous), 100.0) else NaN
  }

  /** The entry for one requested metric: none when the metric map lacks it. */
  function CompareMetric(current: RevenueMetrics, previous: RevenueMetrics, name: string): seq<MetricComparison>
  {
    match (MetricValue(current, name), MetricValue(previous, name))
    case (Some(c), Some(p)) => [MetricComparison(name, c, p, Sub(c, p), PercentChange(c, p))]
    case _ => []
  }

  /** The comparison table for a list of metric names, in list order. */
  function Comparisons(current: RevenueMetrics, previous: RevenueMetrics, names: seq<string>): seq<MetricComparison>
  {
    if |names| == 0 then []
    else Comparisons(current, previous, names[..|names| - 1]) + CompareMetric(current, previous, names[|names| - 1])
  }

  const DefaultComparisonMetrics: seq<string> := ["total_revenue", "total_orders", "average_order_value"]

  /**
   * The loop of `compare_periods(current_df, previous_df, metrics)` over the metric
   * maps of the two periods: one entry appended per requested metric both maps hold.
   */
  method CompareMetrics(current: RevenueMetrics, previous: RevenueMetrics, names: seq<string>)
    returns (comparison: seq<MetricComparison>)
    ensures comparison == Comparisons(current, previous, names)
  {
    comparison := [];
    for i := 0 to |names|
      invariant comparison == Comparisons(current, previous, names[..i])
    {
      var name := names[i];
      assert names[..i + 1] == names[..i] + [name];
      var c := MetricValue(current, name);
      var p := MetricValue(previous, name);
      if c.Some? && p.Some? {
        var change := if p.value != Finite(0.0) then Scale(Quot(Sub(c.value, p.value), p.value), 100.0) else NaN;
        comparison := comparison + [MetricComparison(name, c.value, p.value, Sub(c.value, p.value), change)];
      }
    }
    assert names[..|names|] == names;
  }

  /** `compare_periods(current_df, previous_df, metrics)`: the metrics of both tables, compared. */
  method ComparePeriods(current: Table, previous: Table, metrics: Option<seq<string>>)
    returns (comparison: seq<MetricComparison>)
    ensures comparison == Comparisons(BasicMetrics(current.rows), BasicMetrics(previous.rows),
                                      if metrics.None? then DefaultComparisonMetrics else metrics.value)
  {
    var names := if metrics.None? then DefaultComparisonMetrics else metrics.value;
    comparison := CompareMetrics(BasicMetrics(current.rows), BasicMetrics(previous.rows), names);
  }

  /**
   * One entry per requested name the metric maps hold, in the order requested; each
   * entry carries both values, their difference and the percent change.
   */
  lemma {:induction false} ComparisonsFollowRequest(current: RevenueMetrics, previous: RevenueMetrics, names: seq<string>)
    ensures Map(Comparisons(current, previous, names), (e: MetricComparison) => e.metric) == Filter(names, IsMetricName)
    ensures forall e :: e in Comparisons(current, previous, names) ==>
      && e.currentPeriod == MetricValue(current, e.metric).value
      && e.previousPeriod == MetricValue(previous, e.metric).value
      && e.absoluteChange == Sub(e.currentPeriod, e.previousPeriod)
      && e.percentChange == PercentChange(e.currentPeriod, e.previousPeriod)
  {
    if |names| > 0 {
      var init := names[..|names| - 1];
      ComparisonsFollowRequest(current, previous, init);
      var rest := Comparisons(current, previous, init);
      var last := CompareMetric(current, previous, names[|names| - 1]);
      assert Map(rest + last, (e: MetricComparison) => e.metric)
          == Map(rest, (e: MetricComparison) => e.metric) + Map(last, (e: MetricComparison) => e.metric);
    }
  }

  /**
   * For finite values the percent change of an entry is undefined exactly when the
   * previous value is zero.
   */
  lemma PercentChangeUndefinedIffZeroBase(current: Num, previous: Num)
    requires current.Finite? && previous.Finite?
    ensures PercentChange(current, previous).Finite? <==> previous.v != 0.0
  {
  }
}
