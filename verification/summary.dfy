/**
 * `generate_executive_summary`: the revenue metrics, the names of the five
 * highest-revenue categories and states, the customer-experience keys and the
 * overall health score, under a period label.
 */
module Summary {
  import opened Wrappers
  import opened Floats
  import opened Collections
  import opened Sorting
  import opened Records
  import opened Revenue
  import opened Experience
  import opened Health
  import Products
  import Geography

  /** How many categories and states the summary names. */
  const TopCount: int := 5

  datatype ExecutiveSummary = ExecutiveSummary(
    period: string,
    revenue: RevenueMetrics,
    topCategories: seq<string>,
    topStates: seq<string>,
    experience: CustomerExperience,
    healthScore: Num)

  function CategoryName(c: Products.CategoryPerformance): string { c.category }

  function StateName(s: Geography.StatePerformance): string { s.state }

  /**
   * `generate_executive_summary(df, comparison_df, period_label)`.  Grouping by a
   * category or state column the frame lacks raises `KeyError`; the other failures
   * are those of the health score, whose analyses run in the same order.
   */
  function GenerateExecutiveSummary(t: Table, comparison: Option<Table>, periodLabel: string): (s: Result<ExecutiveSummary>)
    requires t.schema.hasCategory && t.schema.hasState
    ensures s.Failure? <==> CalculateBusinessHealthScore(t, comparison).Failure?
    ensures s.Failure? ==> s.error == CalculateBusinessHealthScore(t, comparison).error
    ensures s.Success? ==>
      && s.value.period == periodLabel
      && s.value.revenue == CalculateRevenueMetrics(t, comparison).value
      && s.value.topCategories == Map(Products.AnalyzeProductPerformance(t, TopCount).categoryPerformance, CategoryName)
      && s.value.topStates == Map(Geography.AnalyzeGeographicPerformance(t, TopCount).statePerformance, StateName)
      && s.value.experience == AnalyzeCustomerExperience(t).value
      && s.value.healthScore == CalculateBusinessHealthScore(t, comparison).value.overallHealthScore
  {
    match CalculateRevenueMetrics(t, comparison)
    case Failure(e) => Failure(e)
    case Success(revenue) =>
      var categories := Map(Products.AnalyzeProductPerformance(t, TopCount).categoryPerformance, CategoryName);
      var states := Map(Geography.AnalyzeGeographicPerformance(t, TopCount).statePerformance, StateName);
      match AnalyzeCustomerExperience(t)
      case Failure(e) => Failure(e)
      case Success(cx) =>
        match CalculateBusinessHealthScore(t, comparison)
        case Failure(e) => Failure(e)
        case Success(health) =>
          Success(ExecutiveSummary(periodLabel, revenue, categories, states, cx, health.overallHealthScore))
  }

  /** The revenue of the rows of one category. */
  function CategoryRevenueOf(rows: seq<Row>, c: string): real
  {
    SumOf(Products.CategoryRows(rows, c), Records.Revenue)
  }

  /** The revenue of the rows of one state. */
  function StateRevenueOf(rows: seq<Row>, s: string): real
  {
    SumOf(Geography.StateRows(rows, s), Records.Revenue)
  }

  /** The ranked category groups carry distinct names, in non-increasing revenue order. */
  lemma RankedCategoryNames(rows: seq<Row>)
    ensures var names := Map(Products.RankedCategories(rows), CategoryName);
      && Distinct(names)
      && (forall c :: c in names ==> c in Keys(rows, CategoryKey))
      && forall i, j :: 0 <= i < j < |names| ==> CategoryRevenueOf(rows, names[i]) >= CategoryRevenueOf(rows, names[j])
  {
    var ranked := Products.RankedCategories(rows);
    var ks := Keys(rows, CategoryKey);
    Products.CategoryGroupsAreTotals(rows);
    MapDistinct(ks, Products.CategoryTotals(rows));
    PermutationDistinct(Products.CategoryGroups(rows), ranked);
    MapDistinct(ranked, CategoryName);
    var names := Map(ranked, CategoryName);
    forall i, j | 0 <= i < j < |names|
      ensures CategoryRevenueOf(rows, names[i]) >= CategoryRevenueOf(rows, names[j])
    {
      assert ranked[i] in ranked && ranked[j] in ranked;
    }
  }

  /** The ranked state groups carry distinct names, in non-increasing revenue order. */
  lemma RankedStateNames(rows: seq<Row>)
    ensures var names := Map(Geography.RankedStates(rows), StateName);
      && Distinct(names)
      && (forall s :: s in names ==> s in Keys(rows, StateKey))
      && forall i, j :: 0 <= i < j < |names| ==> StateRevenueOf(rows, names[i]) >= StateRevenueOf(rows, names[j])
  {
    var ranked := Geography.RankedStates(rows);
    var ks := Keys(rows, StateKey);
    Geography.RankedStatesAreGroups(rows);
    MapDistinct(ks, Geography.StateTotals(rows));
    PermutationDistinct(Geography.StateGroups(rows), ranked);
    MapDistinct(ranked, StateName);
    var names := Map(ranked, StateName);
    forall i, j | 0 <= i < j < |names|
      ensures StateRevenueOf(rows, names[i]) >= StateRevenueOf(rows, names[j])
    {
      assert ranked[i] in ranked && ranked[j] in ranked;
    }
  }

  /** The first `n` of a sequence of names keep its properties. */
  lemma NamesHead(names: seq<string>, n: int, value: string -> real, present: seq<string>)
    requires Distinct(names)
    requires forall c :: c in names ==> c in present
    requires forall i, j :: 0 <= i < j < |names| ==> value(names[i]) >= value(names[j])
    ensures var top := Head(names, n);
      && Distinct(top)
      && (forall c :: c in top ==> c in present)
      && forall i, j :: 0 <= i < j < |top| ==> value(top[i]) >= value(top[j])
  {
    HeadMembers(names, n);
  }

  function CategoryRevenueIn(rows: seq<Row>): string -> real { (c: string) => CategoryRevenueOf(rows, c) }

  function StateRevenueIn(rows: seq<Row>): string -> real { (s: string) => StateRevenueOf(rows, s) }

  /** The five highest-revenue category names. */
  lemma TopCategoryNames(rows: seq<Row>)
    ensures var top := Map(Head(Products.RankedCategories(rows), TopCount), CategoryName);
      && |top| == Min(TopCount, |Keys(rows, CategoryKey)|)
      && Distinct(top)
      && (forall c :: c in top ==> c in Keys(rows, CategoryKey))
      && forall i, j :: 0 <= i < j < |top| ==> CategoryRevenueOf(rows, top[i]) >= CategoryRevenueOf(rows, top[j])
  {
    var ranked := Products.RankedCategories(rows);
    RankedCategoryNames(rows);
    HeadMap(ranked, CategoryName, TopCount);
    NamesHead(Map(ranked, CategoryName), TopCount, CategoryRevenueIn(rows), Keys(rows, CategoryKey));
    assert Map(Head(ranked, TopCount), CategoryName) == Head(Map(ranked, CategoryName), TopCount);
  }

  /** The five highest-revenue state names. */
  lemma TopStateNames(rows: seq<Row>)
    ensures var top := Map(Head(Geography.RankedStates(rows), TopCount), StateName);
      && |top| == Min(TopCount, |Keys(rows, StateKey)|)
      && Distinct(top)
      && (forall c :: c in top ==> c in Keys(rows, StateKey))
      && forall i, j :: 0 <= i < j < |top| ==> StateRevenueOf(rows, top[i]) >= StateRevenueOf(rows, top[j])
  {
    var ranked := Geography.RankedStates(rows);
    RankedStateNames(rows);
    HeadMap(ranked, StateName, TopCount);
    NamesHead(Map(ranked, StateName), TopCount, StateRevenueIn(rows), Keys(rows, StateKey));
    assert Map(Head(ranked, TopCount), StateName) == Head(Map(ranked, StateName), TopCount);
    assert |ranked| == |multiset(ranked)| == |Geography.StateGroups(rows)|;
  }

  /**
   * The summary names at most five categories and five states, all distinct, all
   * present in the table, each list in non-increasing revenue order.
   */
  lemma TopNamesRanked(t: Table, comparison: Option<Table>, periodLabel: string)
    requires t.schema.hasCategory && t.schema.hasState
    requires GenerateExecutiveSummary(t, comparison, periodLabel).Success?
    ensures var s := GenerateExecutiveSummary(t, comparison, periodLabel).value;
      && |s.topCategories| == Min(TopCount, |Keys(t.rows, CategoryKey)|)
      && Distinct(s.topCategories)
      && (forall c :: c in s.topCategories ==> c in Keys(t.rows, CategoryKey))
      && (forall i, j :: 0 <= i < j < |s.topCategories| ==>
            CategoryRevenueOf(t.rows, s.topCategories[i]) >= CategoryRevenueOf(t.rows, s.topCategories[j]))
      && |s.topStates| == Min(TopCount, |Keys(t.rows, StateKey)|)
      && Distinct(s.topStates)
      && (forall c :: c in s.topStates ==> c in Keys(t.rows, StateKey))
      && (forall i, j :: 0 <= i < j < |s.topStates| ==>
            StateRevenueOf(t.rows, s.topStates[i]) >= StateRevenueOf(t.rows, s.topStates[j]))
  {
    TopCategoryNames(t.rows);
    TopStateNames(t.rows);
  }
}
