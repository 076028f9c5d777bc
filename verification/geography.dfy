/**
 * `analyze_geographic_performance`: customer states ranked by revenue, with revenue
 * per customer, and the states with the most distinct customers.
 */
module Geography {
  import opened Wrappers
  import opened Floats
  import opened Collections
  import opened Sorting
  import opened Records

  /** One row of `state_performance`. */
  datatype StatePerformance = StatePerformance(
    state: string,
    totalRevenue: real,
    totalOrders: nat,
    uniqueCustomers: nat,
    avgItemPrice: real,
    revenuePerCustomer: real)

  /** The line items of customers in one state. */
  function StateRows(rows: seq<Row>, s: string): seq<Row>
  {
    Members(rows, StateKey, s)
  }

  /**
   * `agg({'total_revenue': 'sum', 'order_id': 'nunique', 'customer_id': 'nunique', 'price': 'mean'})`
   * of one state, with `revenue_per_customer = total_revenue / unique_customers`.
   */
  function StateTotals(rows: seq<Row>): string -> StatePerformance
  {
    (s: string) =>
      var g := StateRows(rows, s);
      var customers := |Keys(g, CustomerKey)|;
      StatePerformance(s, SumOf(g, Revenue), |Keys(g, OrderKey)|, customers,
                       if |g| == 0 then 0.0 else Mean(g, Price),
                       if customers == 0 then 0.0 else SumOf(g, Revenue) / customers as real)
  }

  function StateGroups(rows: seq<Row>): seq<StatePerformance>
  {
    Map(Keys(rows, StateKey), StateTotals(rows))
  }

  /** `sort_values('total_revenue', ascending=False)`. */
  function ByRevenueDesc(a: StatePerformance, b: StatePerformance): bool
  {
    a.totalRevenue >= b.totalRevenue
  }

  /** `nlargest(top_n, 'unique_customers')`. */
  function ByCustomersDesc(a: StatePerformance, b: StatePerformance): bool
  {
    a.uniqueCustomers >= b.uniqueCustomers
  }

  lemma RankingsAreTotal()
    ensures TotalPreorder(ByRevenueDesc)
    ensures TotalPreorder(ByCustomersDesc)
  {
  }

  /** Every state, highest revenue first. */
  function RankedStates(rows: seq<Row>): (ranked: seq<StatePerformance>)
    ensures Sorted(ranked, ByRevenueDesc)
    ensures multiset(ranked) == multiset(StateGroups(rows))
  {
    RankingsAreTotal();
    SortBy(StateGroups(rows), ByRevenueDesc)
  }

  /** The states with the most customers, most first. */
  function MostCustomers(rows: seq<Row>, topN: int): (top: seq<StatePerformance>)
    ensures Sorted(top, ByCustomersDesc)
    ensures |top| == if topN <= 0 then 0 else Min(topN, |Keys(rows, StateKey)|)
    ensures multiset(top) <= multiset(StateGroups(rows))
    ensures forall g, i :: g in StateGroups(rows) && g !in top && 0 <= i < |top| ==>
      top[i].uniqueCustomers >= g.uniqueCustomers
  {
    RankingsAreTotal();
    var ranked := RankedStates(rows);
    var top := NLargest(ranked, ByCustomersDesc, topN);
    assert |ranked| == |multiset(ranked)| == |StateGroups(rows)|;
    forall g | g in StateGroups(rows)
      ensures g in ranked
    {
      assert g in multiset(StateGroups(rows));
    }
    top
  }

  /** One row of `top_customer_states`: the columns `state`, `unique_customers`, `total_revenue`. */
  datatype StateCustomers = StateCustomers(state: string, uniqueCustomers: nat, totalRevenue: real)

  function CustomerColumns(s: StatePerformance): StateCustomers
  {
    StateCustomers(s.state, s.uniqueCustomers, s.totalRevenue)
  }

  datatype GeographicPerformance = GeographicPerformance(
    statePerformance: seq<StatePerformance>,
    topCustomerStates: seq<StateCustomers>)

  /**
   * `analyze_geographic_performance(df, top_n)`: the first `top_n` states by revenue,
   * and separately the `top_n` states by customer count.  Grouping by a column the
   * frame lacks raises `KeyError`.
   */
  function AnalyzeGeographicPerformance(t: Table, topN: int): (g: GeographicPerformance)
    requires t.schema.hasState
    ensures g.statePerformance == Head(RankedStates(t.rows), topN)
    ensures |g.topCustomerStates| == |MostCustomers(t.rows, topN)|
    ensures forall i :: 0 <= i < |g.topCustomerStates| ==>
      && g.topCustomerStates[i].state == MostCustomers(t.rows, topN)[i].state
      && g.topCustomerStates[i].uniqueCustomers == MostCustomers(t.rows, topN)[i].uniqueCustomers
      && g.topCustomerStates[i].totalRevenue == MostCustomers(t.rows, topN)[i].totalRevenue
  {
    GeographicPerformance(Head(RankedStates(t.rows), topN), Map(MostCustomers(t.rows, topN), CustomerColumns))
  }

  /** Each ranked state is the totals of a state that occurs. */
  lemma RankedStatesAreGroups(rows: seq<Row>)
    ensures forall s :: s in RankedStates(rows) ==>
      s.state in Keys(rows, StateKey) && s == StateTotals(rows)(s.state)
  {
    var ranked := RankedStates(rows);
    forall s | s in ranked
      ensures s.state in Keys(rows, StateKey) && s == StateTotals(rows)(s.state)
    {
      assert s in multiset(ranked);
    }
  }

  /** Revenue per customer of a state group with customers, times its customers, is its revenue. */
  lemma RevenuePerCustomerSplits(s: StatePerformance)
    requires s.uniqueCustomers >= 1
    requires s.revenuePerCustomer == s.totalRevenue / s.uniqueCustomers as real
    ensures s.revenuePerCustomer * s.uniqueCustomers as real == s.totalRevenue
  {
    RatioTimes(s.totalRevenue, s.uniqueCustomers as real, s.revenuePerCustomer);
  }

  /**
   * Each state group has at least one order and one customer, and its revenue per
   * customer times its customer count is its revenue.
   */
  lemma StateGroupsAreTotals(rows: seq<Row>)
    ensures forall s :: s in StateGroups(rows) ==>
      && s.state in Keys(rows, StateKey)
      && s == StateTotals(rows)(s.state)
      && s.totalRevenue == SumOf(StateRows(rows, s.state), Revenue)
      && s.totalOrders >= 1 && s.uniqueCustomers >= 1
      && s.revenuePerCustomer * s.uniqueCustomers as real == s.totalRevenue
  {
    var groups := StateGroups(rows);
    forall s | s in groups
      ensures s.state in Keys(rows, StateKey) && s == StateTotals(rows)(s.state)
      ensures s.totalRevenue == SumOf(StateRows(rows, s.state), Revenue)
      ensures s.totalOrders >= 1 && s.uniqueCustomers >= 1
      ensures s.revenuePerCustomer * s.uniqueCustomers as real == s.totalRevenue
    {
      var i :| 0 <= i < |groups| && groups[i] == s;
      var g := StateRows(rows, s.state);
      GroupNonEmpty(rows, StateKey, s.state);
      KeysBound(g, OrderKey);
      KeysBound(g, CustomerKey);
      RevenuePerCustomerSplits(s);
    }
  }

  /**
   * `state_performance` holds the `top_n` highest-revenue states, highest first: no
   * state left out has more revenue than one reported.
   */
  lemma StatePerformanceIsTopN(t: Table, topN: int)
    requires t.schema.hasState
    ensures var top := AnalyzeGeographicPerformance(t, topN).statePerformance;
      && |top| == HeadLength(|Keys(t.rows, StateKey)|, topN)
      && Sorted(top, ByRevenueDesc)
      && multiset(top) <= multiset(StateGroups(t.rows))
      && forall g, i :: g in StateGroups(t.rows) && g !in top && 0 <= i < |top| ==>
           top[i].totalRevenue >= g.totalRevenue
  {
    RankingsAreTotal();
    var top := AnalyzeGeographicPerformance(t, topN).statePerformance;
    assert top == TopN(StateGroups(t.rows), ByRevenueDesc, topN);
  }
}
