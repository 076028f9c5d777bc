/**
 * `calculate_monthly_trends`: one row per calendar month present, in chronological
 * order, with month-over-month percent changes of revenue, orders and average
 * order value.
 */
module MonthlyTrends {
  import opened Wrappers
  import opened Floats
  import opened Collections
  import opened Sorting
  import opened Records

  /** A `(year, month)` group key. */
  datatype YearMonth = YearMonth(year: int, month: int)

  /** The `(year, month)` group key of a row. */
  function MonthKey(r: Row): Option<YearMonth> { Some(YearMonth(r.year, r.month)) }

  /** The aggregates of one month, before sorting. */
  datatype MonthTotals = MonthTotals(year: int, month: int, revenue: real, orders: nat, itemsSold: nat)

  function MonthRows(rows: seq<Row>, ym: YearMonth): seq<Row>
  {
    Members(rows, MonthKey, ym)
  }

  /** `agg({'total_revenue': 'sum', 'order_id': 'nunique', 'order_item_id': 'count'})` of one month. */
  function TotalsOf(rows: seq<Row>): YearMonth -> MonthTotals
  {
    (ym: YearMonth) => MonthTotals(ym.year, ym.month, SumOf(MonthRows(rows, ym), Revenue),
                      |Keys(MonthRows(rows, ym), OrderKey)|, |MonthRows(rows, ym)|)
  }

  /** Chronological order of `(year, month)`. */
  predicate MonthBefore(y1: int, m1: int, y2: int, m2: int)
  {
    y1 < y2 || (y1 == y2 && m1 < m2)
  }

  function Chronological(a: MonthTotals, b: MonthTotals): bool
  {
    !MonthBefore(b.year, b.month, a.year, a.month)
  }

  lemma ChronologicalIsTotal()
    ensures TotalPreorder(Chronological)
  {
  }

  datatype MonthlyTrend = MonthlyTrend(
    year: int,
    month: int,
    revenue: real,
    orders: nat,
    itemsSold: nat,
    revenueMomGrowth: Num,
    ordersMomGrowth: Num,
    avgOrderValue: real,
    aovMomGrowth: Num)

  /** pandas `pct_change()` between two consecutive finite values: `current / previous - 1`. */
  function PctChange(previous: real, current: real): (p: Num)
    ensures p.Finite? <==> previous != 0.0
    ensures p.Finite? ==> previous * (1.0 + p.v) == current
    ensures p.NaN? <==> previous == 0.0 && current == 0.0
  {
    Div(current - previous, previous)
  }

  /** `revenue / orders`, defined for the months that have orders. */
  function Aov(m: MonthTotals): (a: real)
    ensures m.orders >= 1 ==> a * m.orders as real == m.revenue
  {
    if m.orders == 0 then 0.0 else m.revenue / m.orders as real
  }

  /** Row `i` of the sorted months with its changes against row `i - 1`. */
  function TrendAt(months: seq<MonthTotals>, i: nat): (t: MonthlyTrend)
    requires i < |months|
    ensures t.year == months[i].year && t.month == months[i].month
    ensures t.revenue == months[i].revenue && t.orders == months[i].orders
    ensures t.itemsSold == months[i].itemsSold && t.avgOrderValue == Aov(months[i])
    ensures i == 0 ==> t.revenueMomGrowth.NaN? && t.ordersMomGrowth.NaN? && t.aovMomGrowth.NaN?
    ensures i > 0 ==>
      && t.revenueMomGrowth == PctChange(months[i - 1].revenue, months[i].revenue)
      && t.ordersMomGrowth == PctChange(months[i - 1].orders as real, months[i].orders as real)
      && t.aovMomGrowth == PctChange(Aov(months[i - 1]), Aov(months[i]))
  {
    var m := months[i];
    if i == 0 then
      MonthlyTrend(m.year, m.month, m.revenue, m.orders, m.itemsSold, NaN, NaN, Aov(m), NaN)
    else
      var p := months[i - 1];
      MonthlyTrend(m.year, m.month, m.revenue, m.orders, m.itemsSold,
                   PctChange(p.revenue, m.revenue), PctChange(p.orders as real, m.orders as real),
                   Aov(m), PctChange(Aov(p), Aov(m)))
  }

  /** The months present, each with its totals, sorted chronologically. */
  function SortedMonths(rows: seq<Row>): (months: seq<MonthTotals>)
    ensures Sorted(months, Chronological)
    ensures multiset(months) == multiset(Map(Keys(rows, MonthKey), TotalsOf(rows)))
    ensures |months| == |Keys(rows, MonthKey)|
  {
    ChronologicalIsTotal();
    SortBy(Map(Keys(rows, MonthKey), TotalsOf(rows)), Chronological)
  }

  /** Every sorted month is the totals of its own key, and that key occurs in the rows. */
  lemma SortedMonthsAreGroups(rows: seq<Row>)
    ensures forall m :: m in SortedMonths(rows) ==>
      && YearMonth(m.year, m.month) in Keys(rows, MonthKey)
      && m == TotalsOf(rows)(YearMonth(m.year, m.month))
  {
    var months := SortedMonths(rows);
    forall m | m in months
      ensures YearMonth(m.year, m.month) in Keys(rows, MonthKey) && m == TotalsOf(rows)(YearMonth(m.year, m.month))
    {
      assert m in multiset(months);
    }
  }

  /** No two sorted months share a key, so the order is strict. */
  lemma SortedMonthsStrictlyAscending(rows: seq<Row>)
    ensures forall i, j :: 0 <= i < j < |SortedMonths(rows)| ==>
      MonthBefore(SortedMonths(rows)[i].year, SortedMonths(rows)[i].month,
                  SortedMonths(rows)[j].year, SortedMonths(rows)[j].month)
  {
    var ks := Keys(rows, MonthKey);
    var groups := Map(ks, TotalsOf(rows));
    var months := SortedMonths(rows);
    MapDistinct(ks, TotalsOf(rows));
    PermutationDistinct(groups, months);
    SortedMonthsAreGroups(rows);
    forall i, j | 0 <= i < j < |months|
      ensures MonthBefore(months[i].year, months[i].month, months[j].year, months[j].month)
    {
      assert months[i] in months && months[j] in months;
      assert months[i] != months[j];
      assert Chronological(months[i], months[j]);
    }
  }

  /** Each sorted month is the totals of its key and has at least one order. */
  lemma SortedMonthsCover(rows: seq<Row>)
    ensures |SortedMonths(rows)| == |Keys(rows, MonthKey)|
    ensures forall m :: m in SortedMonths(rows) ==> m.orders >= 1
    ensures forall i :: 0 <= i < |SortedMonths(rows)| ==>
      SortedMonths(rows)[i] == TotalsOf(rows)(TotalsKey(SortedMonths(rows)[i]))
  {
    var months := SortedMonths(rows);
    SortedMonthsAreGroups(rows);
    assert |months| == |multiset(months)| == |Keys(rows, MonthKey)|;
    forall m | m in months
      ensures m.orders >= 1
    {
      var ym := YearMonth(m.year, m.month);
      GroupNonEmpty(rows, MonthKey, ym);
      KeysBound(MonthRows(rows, ym), OrderKey);
    }
    forall i | 0 <= i < |months|
      ensures months[i] == TotalsOf(rows)(TotalsKey(months[i]))
    {
      assert months[i] in months;
    }
  }

  function TotalsKey(m: MonthTotals): YearMonth { YearMonth(m.year, m.month) }

  function TrendKey(m: MonthlyTrend): YearMonth { YearMonth(m.year, m.month) }

  /** The trend rows of sorted months: each month's own columns plus its changes against the previous row. */
  function WithChanges(months: seq<MonthTotals>): (trends: seq<MonthlyTrend>)
    ensures |trends| == |months|
    ensures forall i :: 0 <= i < |months| ==> trends[i] == TrendAt(months, i)
  {
    seq(|months|, i requires 0 <= i < |months| => TrendAt(months, i))
  }

  /** The rows' months are in strictly ascending order. */
  predicate MonthsAscending(trends: seq<MonthlyTrend>)
  {
    forall i, j :: 0 <= i < j < |trends| ==>
      MonthBefore(trends[i].year, trends[i].month, trends[j].year, trends[j].month)
  }

  /** `pct_change`: the first row's changes are undefined, every later row's are taken against the row before. */
  predicate ChangesChained(trends: seq<MonthlyTrend>)
  {
    && (|trends| > 0 ==>
          trends[0].revenueMomGrowth.NaN? && trends[0].ordersMomGrowth.NaN? && trends[0].aovMomGrowth.NaN?)
    && forall i :: 0 < i < |trends| ==>
         && trends[i].revenueMomGrowth == PctChange(trends[i - 1].revenue, trends[i].revenue)
         && trends[i].ordersMomGrowth == PctChange(trends[i - 1].orders as real, trends[i].orders as real)
         && trends[i].aovMomGrowth == PctChange(trends[i - 1].avgOrderValue, trends[i].avgOrderValue)
  }

  /** Each trend row's changes are taken against the trend row before it. */
  lemma WithChangesChain(months: seq<MonthTotals>)
    ensures ChangesChained(WithChanges(months))
  {
    var trends := WithChanges(months);
    forall i | 0 < i < |trends|
      ensures trends[i].revenueMomGrowth == PctChange(trends[i - 1].revenue, trends[i].revenue)
      ensures trends[i].ordersMomGrowth == PctChange(trends[i - 1].orders as real, trends[i].orders as real)
      ensures trends[i].aovMomGrowth == PctChange(trends[i - 1].avgOrderValue, trends[i].avgOrderValue)
    {
      var p, t := TrendAt(months, i - 1), TrendAt(months, i);
      assert trends[i - 1] == p && trends[i] == t;
      assert p.revenue == months[i - 1].revenue && p.avgOrderValue == Aov(months[i - 1]);
    }
  }

  /**
   * `calculate_monthly_trends(df)`: one row per month with sales, the months in
   * strictly ascending order, the first row's changes undefined and every later
   * row's changes taken against the row before it.
   */
  function CalculateMonthlyTrends(t: Table): (trends: seq<MonthlyTrend>)
    ensures |trends| == |Keys(t.rows, MonthKey)|
    ensures MonthsAscending(trends)
    ensures ChangesChained(trends)
  {
    TrendsAscending(t.rows);
    WithChangesChain(SortedMonths(t.rows));
    WithChanges(SortedMonths(t.rows))
  }

  /** The trend rows of a table's sorted months are in strictly ascending month order. */
  lemma TrendsAscending(rows: seq<Row>)
    ensures MonthsAscending(WithChanges(SortedMonths(rows)))
  {
    SortedMonthsStrictlyAscending(rows);
    WithChangesAscending(SortedMonths(rows));
  }

  /** The trend rows keep the months' order. */
  lemma WithChangesAscending(months: seq<MonthTotals>)
    requires forall i, j :: 0 <= i < j < |months| ==>
      MonthBefore(months[i].year, months[i].month, months[j].year, months[j].month)
    ensures MonthsAscending(WithChanges(months))
  {
    var trends := WithChanges(months);
    forall i, j | 0 <= i < j < |trends|
      ensures MonthBefore(trends[i].year, trends[i].month, trends[j].year, trends[j].month)
    {
      assert trends[i] == TrendAt(months, i) && trends[j] == TrendAt(months, j);
    }
  }

  /** The trend rows' months are the table's distinct months, each exactly once. */
  lemma MonthlyTrendsCoverMonths(t: Table)
    ensures multiset(Map(CalculateMonthlyTrends(t), TrendKey)) == multiset(Keys(t.rows, MonthKey))
  {
    var ks := Keys(t.rows, MonthKey);
    var months := SortedMonths(t.rows);
    var trends := CalculateMonthlyTrends(t);
    assert Map(trends, TrendKey) == Map(months, TotalsKey);
    MapPermutation(months, Map(ks, TotalsOf(t.rows)), TotalsKey);
    assert Map(Map(ks, TotalsOf(t.rows)), TotalsKey) == ks;
  }

  /**
   * Each trend row holds its month's revenue, distinct orders and items; every month
   * has an order, so its average order value is revenue over orders.
   */
  lemma MonthlyTrendsAreMonthGroups(t: Table)
    ensures forall i :: 0 <= i < |CalculateMonthlyTrends(t)| ==>
      var m := CalculateMonthlyTrends(t)[i];
      && m.revenue == SumOf(MonthRows(t.rows, TrendKey(m)), Revenue)
      && m.orders == |Keys(MonthRows(t.rows, TrendKey(m)), OrderKey)|
      && m.itemsSold == |MonthRows(t.rows, TrendKey(m))|
      && m.orders >= 1
      && m.avgOrderValue == m.revenue / m.orders as real
  {
    var months := SortedMonths(t.rows);
    var trends := CalculateMonthlyTrends(t);
    SortedMonthsCover(t.rows);
    forall i | 0 <= i < |trends|
      ensures trends[i].revenue == SumOf(MonthRows(t.rows, TrendKey(trends[i])), Revenue)
      ensures trends[i].orders == |Keys(MonthRows(t.rows, TrendKey(trends[i])), OrderKey)|
      ensures trends[i].itemsSold == |MonthRows(t.rows, TrendKey(trends[i]))|
      ensures trends[i].orders >= 1
      ensures trends[i].avgOrderValue == trends[i].revenue / trends[i].orders as real
    {
      assert months[i] in months;
    }
  }

  function TrendRevenue(m: MonthlyTrend): real { m.revenue }

  function TrendItems(m: MonthlyTrend): real { m.itemsSold as real }

  function TotalsRevenue(m: MonthTotals): real { m.revenue }

  function TotalsItems(m: MonthTotals): real { m.itemsSold as real }

  /** Summing a column over the sorted months gives its total over the rows. */
  lemma SortedMonthsSum(rows: seq<Row>, column: MonthTotals -> real, f: Row -> real)
    requires forall ym :: column(TotalsOf(rows)(ym)) == SumOf(MonthRows(rows, ym), f)
    ensures SumOf(SortedMonths(rows), column) == SumOf(rows, f)
  {
    var ks := Keys(rows, MonthKey);
    SumOfPermutation(SortedMonths(rows), Map(ks, TotalsOf(rows)), column);
    SumOfMap(ks, TotalsOf(rows), column, GroupTotal(rows, MonthKey, f));
    SumOverGroups(rows, MonthKey, f);
    FilterAll(rows, HasKey(MonthKey));
  }

  /** The monthly revenues add up to the table's total revenue, and the monthly item counts to its row count. */
  lemma MonthlyTotalsAddUp(t: Table)
    ensures SumOf(CalculateMonthlyTrends(t), TrendRevenue) == SumOf(t.rows, Revenue)
    ensures SumOf(CalculateMonthlyTrends(t), TrendItems) == |t.rows| as real
  {
    var months := SortedMonths(t.rows);
    var trends := CalculateMonthlyTrends(t);
    SumOfPointwise(trends, TrendRevenue, months, TotalsRevenue);
    SumOfPointwise(trends, TrendItems, months, TotalsItems);
    SortedMonthsSum(t.rows, TotalsRevenue, Revenue);
    forall ym
      ensures TotalsItems(TotalsOf(t.rows)(ym)) == SumOf(MonthRows(t.rows, ym), One)
    {
      SumOfOnes(MonthRows(t.rows, ym));
    }
    SortedMonthsSum(t.rows, TotalsItems, One);
    SumOfOnes(t.rows);
  }
}
