/**
 * `analyze_product_performance`: the product categories ranked by revenue, each
 * category's share of the table's revenue, and the average number of a category's
 * line items per order that contains it.
 */
module Products {
  import opened Wrappers
  import opened Floats
  import opened Collections
  import opened Sorting
  import opened Records

  /** One row of `category_performance`. */
  datatype CategoryPerformance = CategoryPerformance(
    category: string,
    totalRevenue: real,
    uniqueOrders: nat,
    itemsSold: nat,
    avgPrice: real)

  /** The line items of one category. */
  function CategoryRows(rows: seq<Row>, c: string): seq<Row>
  {
    Members(rows, CategoryKey, c)
  }

  /** `agg({'total_revenue': 'sum', 'order_id': 'nunique', 'order_item_id': 'count', 'price': 'mean'})` of one category. */
  function CategoryTotals(rows: seq<Row>): string -> CategoryPerformance
  {
    (c: string) =>
      var g := CategoryRows(rows, c);
      CategoryPerformance(c, SumOf(g, Revenue), |Keys(g, OrderKey)|, |g|,
                          if |g| == 0 then 0.0 else Mean(g, Price))
  }

  /** The category groups in pandas' group order. */
  function CategoryGroups(rows: seq<Row>): seq<CategoryPerformance>
  {
    Map(Keys(rows, CategoryKey), CategoryTotals(rows))
  }

  /** `sort_values('total_revenue', ascending=False)`. */
  function ByRevenueDesc(a: CategoryPerformance, b: CategoryPerformance): bool
  {
    a.totalRevenue >= b.totalRevenue
  }

  lemma ByRevenueDescIsTotal()
    ensures TotalPreorder(ByRevenueDesc)
  {
  }

  /** Every category, highest revenue first. */
  function RankedCategories(rows: seq<Row>): (ranked: seq<CategoryPerformance>)
    ensures Sorted(ranked, ByRevenueDesc)
    ensures multiset(ranked) == multiset(CategoryGroups(rows))
    ensures |ranked| == |Keys(rows, CategoryKey)|
  {
    ByRevenueDescIsTotal();
    SortBy(CategoryGroups(rows), ByRevenueDesc)
  }

  /** One row of `market_share`. */
  datatype MarketShare = MarketShare(category: string, marketShare: Num)

  /** A category's revenue over the whole table's revenue, rows without a category included. */
  function ShareOf(total: real): CategoryPerformance -> MarketShare
  {
    (c: CategoryPerformance) => MarketShare(c.category, Div(c.totalRevenue, total))
  }

  /** The `(order_id, product_category_name)` group key; rows without a category have none. */
  datatype OrderCategory = OrderCategory(orderId: string, category: string)

  function PairKey(r: Row): Option<OrderCategory>
  {
    if r.category.Some? then Some(OrderCategory(r.orderId, r.category.value)) else None
  }

  /** One row of `groupby(['order_id', 'product_category_name']).size()`. */
  datatype PairSize = PairSize(orderId: string, category: string, size: nat)

  function SizeOf(rows: seq<Row>): OrderCategory -> PairSize
  {
    (p: OrderCategory) => PairSize(p.orderId, p.category, |Members(rows, PairKey, p)|)
  }

  function PairSizes(rows: seq<Row>): seq<PairSize>
  {
    Map(Keys(rows, PairKey), SizeOf(rows))
  }

  function PairCategory(p: PairSize): Option<string> { Some(p.category) }

  function Size(p: PairSize): real { p.size as real }

  /** One row of `items_per_order`. */
  datatype CategoryItems = CategoryItems(category: string, itemsPerOrder: real)

  /** `groupby('product_category_name')['items_per_order'].mean()` of one category. */
  function AverageSize(pairs: seq<PairSize>): string -> CategoryItems
  {
    (c: string) =>
      var g := Members(pairs, PairCategory, c);
      CategoryItems(c, if |g| == 0 then 0.0 else Mean(g, Size))
  }

  function ItemGroups(rows: seq<Row>): seq<CategoryItems>
  {
    Map(Keys(PairSizes(rows), PairCategory), AverageSize(PairSizes(rows)))
  }

  function ByItemsDesc(a: CategoryItems, b: CategoryItems): bool
  {
    a.itemsPerOrder >= b.itemsPerOrder
  }

  lemma ByItemsDescIsTotal()
    ensures TotalPreorder(ByItemsDesc)
  {
  }

  /** Every category's items per order, highest first. */
  function RankedItems(rows: seq<Row>): (ranked: seq<CategoryItems>)
    ensures Sorted(ranked, ByItemsDesc)
    ensures multiset(ranked) == multiset(ItemGroups(rows))
  {
    ByItemsDescIsTotal();
    SortBy(ItemGroups(rows), ByItemsDesc)
  }

  datatype ProductPerformance = ProductPerformance(
    categoryPerformance: seq<CategoryPerformance>,
    marketShare: seq<MarketShare>,
    itemsPerOrder: seq<CategoryItems>)

  /** `market_share`: the shares of the `top_n` highest-revenue categories, in the same order. */
  function MarketShares(rows: seq<Row>, topN: int): (shares: seq<MarketShare>)
    ensures |shares| == |Head(RankedCategories(rows), topN)|
    ensures forall i :: 0 <= i < |shares| ==>
      && shares[i].category == Head(RankedCategories(rows), topN)[i].category
      && shares[i].marketShare == Div(Head(RankedCategories(rows), topN)[i].totalRevenue, SumOf(rows, Revenue))
  {
    var total := SumOf(rows, Revenue);
    HeadMap(RankedCategories(rows), ShareOf(total), topN);
    Head(Map(RankedCategories(rows), ShareOf(total)), topN)
  }

  /**
   * `analyze_product_performance(df, top_n)`: the first `top_n` categories by revenue,
   * their market shares in the same order, and the first `top_n` categories by
   * items per order.  Grouping by a column the frame lacks raises `KeyError`.
   */
  function AnalyzeProductPerformance(t: Table, topN: int): (p: ProductPerformance)
    requires t.schema.hasCategory
    ensures p.categoryPerformance == Head(RankedCategories(t.rows), topN)
    ensures p.marketShare == MarketShares(t.rows, topN)
    ensures |p.marketShare| == |p.categoryPerformance|
    ensures forall i :: 0 <= i < |p.marketShare| ==>
      && p.marketShare[i].category == p.categoryPerformance[i].category
      && p.marketShare[i].marketShare == Div(p.categoryPerformance[i].totalRevenue, SumOf(t.rows, Revenue))
    ensures p.itemsPerOrder == Head(RankedItems(t.rows), topN)
  {
    ProductPerformance(Head(RankedCategories(t.rows), topN), MarketShares(t.rows, topN), Head(RankedItems(t.rows), topN))
  }

  /**
   * `category_performance` holds the `top_n` highest-revenue categories, highest
   * first: no category left out has more revenue than one reported.
   */
  lemma CategoryPerformanceIsTopN(t: Table, topN: int)
    requires t.schema.hasCategory
    ensures var top := AnalyzeProductPerformance(t, topN).categoryPerformance;
      && |top| == HeadLength(|Keys(t.rows, CategoryKey)|, topN)
      && Sorted(top, ByRevenueDesc)
      && multiset(top) <= multiset(CategoryGroups(t.rows))
      && forall g, i :: g in CategoryGroups(t.rows) && g !in top && 0 <= i < |top| ==>
           top[i].totalRevenue >= g.totalRevenue
  {
    ByRevenueDescIsTotal();
    var top := AnalyzeProductPerformance(t, topN).categoryPerformance;
    assert top == TopN(CategoryGroups(t.rows), ByRevenueDesc, topN);
  }

  /** `items_per_order` holds the `top_n` categories with the most items per order, highest first. */
  lemma ItemsPerOrderIsTopN(t: Table, topN: int)
    requires t.schema.hasCategory
    ensures var top := AnalyzeProductPerformance(t, topN).itemsPerOrder;
      && Sorted(top, ByItemsDesc)
      && multiset(top) <= multiset(ItemGroups(t.rows))
      && forall g, i :: g in ItemGroups(t.rows) && g !in top && 0 <= i < |top| ==>
           top[i].itemsPerOrder >= g.itemsPerOrder
  {
    ByItemsDescIsTotal();
    var top := AnalyzeProductPerformance(t, topN).itemsPerOrder;
    assert top == TopN(ItemGroups(t.rows), ByItemsDesc, topN);
  }

  /**
   * Each ranked category is the totals of a category that occurs, with at least one
   * item and one order, and its average price is its price sum over its item count.
   */
  lemma CategoryGroupsAreTotals(rows: seq<Row>)
    ensures forall c :: c in RankedCategories(rows) ==>
      && c.category in Keys(rows, CategoryKey)
      && c == CategoryTotals(rows)(c.category)
      && c.itemsSold >= 1 && c.uniqueOrders >= 1
      && c.avgPrice == SumOf(CategoryRows(rows, c.category), Price) / c.itemsSold as real
  {
    var ranked := RankedCategories(rows);
    forall c | c in ranked
      ensures c.category in Keys(rows, CategoryKey) && c == CategoryTotals(rows)(c.category)
      ensures c.itemsSold >= 1 && c.uniqueOrders >= 1
      ensures c.avgPrice == SumOf(CategoryRows(rows, c.category), Price) / c.itemsSold as real
    {
      assert c in multiset(ranked);
      var g := CategoryRows(rows, c.category);
      GroupNonEmpty(rows, CategoryKey, c.category);
      KeysBound(g, OrderKey);
    }
  }

  function CategoryRevenue(c: CategoryPerformance): real { c.totalRevenue }

  function ShareFraction(total: real): CategoryPerformance -> real
  {
    (c: CategoryPerformance) => if total == 0.0 then 0.0 else c.totalRevenue / total
  }

  /** The value of a finite share, 0 otherwise. */
  function ShareValue(m: MarketShare): real
  {
    if m.marketShare.Finite? then m.marketShare.v else 0.0
  }

  /** The ranked categories' revenues add up to the revenue of the rows that have a category. */
  lemma RankedRevenueIsCategorisedRevenue(rows: seq<Row>)
    ensures SumOf(RankedCategories(rows), CategoryRevenue)
         == SumOf(Filter(rows, HasKey(CategoryKey)), Revenue)
  {
    var ks := Keys(rows, CategoryKey);
    SumOfPermutation(RankedCategories(rows), CategoryGroups(rows), CategoryRevenue);
    SumOfMap(ks, CategoryTotals(rows), CategoryRevenue, GroupTotal(rows, CategoryKey, Revenue));
    SumOverGroups(rows, CategoryKey, Revenue);
  }

  /** Against a non-zero total every share is finite, and its value is the revenue over the total. */
  lemma ShareTerms(ranked: seq<CategoryPerformance>, total: real)
    requires total != 0.0
    ensures forall c :: c in ranked ==>
      && ShareFraction(total)(c) == ShareValue(ShareOf(total)(c))
      && ShareFraction(total)(c) == CategoryRevenue(c) / total
    ensures forall m :: m in Map(ranked, ShareOf(total)) ==> m.marketShare.Finite?
  {
    var all := Map(ranked, ShareOf(total));
    forall m | m in all
      ensures m.marketShare.Finite?
    {
      var i :| 0 <= i < |all| && all[i] == m;
      assert m == ShareOf(total)(ranked[i]);
    }
  }

  /**
   * With a positive total, the shares of all categories add up to the categorised
   * revenue over the total: exactly 1 when every row has a category, less when
   * uncategorised rows carry revenue.
   */
  lemma AllSharesSum(rows: seq<Row>)
    requires SumOf(rows, Revenue) != 0.0
    ensures forall m :: m in Map(RankedCategories(rows), ShareOf(SumOf(rows, Revenue))) ==> m.marketShare.Finite?
    ensures SumOf(Map(RankedCategories(rows), ShareOf(SumOf(rows, Revenue))), ShareValue)
         == SumOf(Filter(rows, HasKey(CategoryKey)), Revenue) / SumOf(rows, Revenue)
  {
    var total := SumOf(rows, Revenue);
    var ranked := RankedCategories(rows);
    ShareTerms(ranked, total);
    SumOfMap(ranked, ShareOf(total), ShareValue, ShareFraction(total));
    SumOfDiv(ranked, CategoryRevenue, ShareFraction(total), total);
    RankedRevenueIsCategorisedRevenue(rows);
  }

  /** With non-negative revenues and a positive total, every category's share is finite and non-negative. */
  lemma SharesNonNegative(rows: seq<Row>)
    requires forall r :: r in rows ==> Revenue(r) >= 0.0
    requires SumOf(rows, Revenue) > 0.0
    ensures forall m :: m in Map(RankedCategories(rows), ShareOf(SumOf(rows, Revenue))) ==>
      m.marketShare.Finite? && m.marketShare.v >= 0.0
  {
    var total := SumOf(rows, Revenue);
    var ranked := RankedCategories(rows);
    var all := Map(ranked, ShareOf(total));
    CategoryGroupsAreTotals(rows);
    forall m | m in all
      ensures m.marketShare.Finite? && m.marketShare.v >= 0.0
    {
      var i :| 0 <= i < |all| && all[i] == m;
      var c := ranked[i];
      assert c in ranked;
      assert c.totalRevenue == SumOf(CategoryRows(rows, c.category), Revenue);
      SumOfNonNegative(CategoryRows(rows, c.category), Revenue);
      DivNonNegative(c.totalRevenue, total);
      assert m == ShareOf(total)(c);
    }
  }

  /**
   * With non-negative revenues and a positive total, every reported share is a
   * finite non-negative number and the reported shares add up to at most 1.
   */
  lemma MarketSharesBounded(rows: seq<Row>, topN: int)
    requires forall r :: r in rows ==> Revenue(r) >= 0.0
    requires SumOf(rows, Revenue) > 0.0
    ensures forall m :: m in MarketShares(rows, topN) ==> m.marketShare.Finite? && m.marketShare.v >= 0.0
    ensures SumOf(MarketShares(rows, topN), ShareValue) <= 1.0
  {
    var total := SumOf(rows, Revenue);
    var all := Map(RankedCategories(rows), ShareOf(total));
    assert MarketShares(rows, topN) == Head(all, topN);
    SharesNonNegative(rows);
    AllSharesSum(rows);
    HeadMembers(all, topN);
    HeadSumBound(all, topN, ShareValue);
    FilterSumBound(rows, HasKey(CategoryKey), Revenue);
    SumOfNonNegative(Filter(rows, HasKey(CategoryKey)), Revenue);
    RatioAtMostOne(SumOf(Filter(rows, HasKey(CategoryKey)), Revenue), total);
  }

  /** When every row has a category and every category is reported, the shares add up to 1. */
  lemma MarketSharesComplete(rows: seq<Row>, topN: int)
    requires forall r :: r in rows ==> r.category.Some?
    requires SumOf(rows, Revenue) != 0.0
    requires topN >= |Keys(rows, CategoryKey)|
    ensures SumOf(MarketShares(rows, topN), ShareValue) == 1.0
  {
    var total := SumOf(rows, Revenue);
    var all := Map(RankedCategories(rows), ShareOf(total));
    assert MarketShares(rows, topN) == Head(all, topN);
    HeadAll(all, topN);
    AllSharesSum(rows);
    FilterAll(rows, HasKey(CategoryKey));
    RatioOfSelf(total);
  }

  /** Every `(order, category)` group has at least one row. */
  lemma PairSizesPositive(rows: seq<Row>)
    ensures forall p :: p in PairSizes(rows) ==> 1 <= p.size <= |rows|
  {
    forall p | p in PairSizes(rows)
      ensures 1 <= p.size <= |rows|
    {
      var i :| 0 <= i < |PairSizes(rows)| && PairSizes(rows)[i] == p;
      GroupNonEmpty(rows, PairKey, Keys(rows, PairKey)[i]);
    }
  }

  /** Every category's average items per order is at least 1. */
  lemma ItemsPerOrderAtLeastOne(t: Table, topN: int)
    requires t.schema.hasCategory
    ensures forall e :: e in AnalyzeProductPerformance(t, topN).itemsPerOrder ==> e.itemsPerOrder >= 1.0
  {
    var pairs := PairSizes(t.rows);
    var groups := ItemGroups(t.rows);
    var top := AnalyzeProductPerformance(t, topN).itemsPerOrder;
    PairSizesPositive(t.rows);
    forall e | e in groups
      ensures e.itemsPerOrder >= 1.0
    {
      var i :| 0 <= i < |groups| && groups[i] == e;
      var c := Keys(pairs, PairCategory)[i];
      var g := Members(pairs, PairCategory, c);
      GroupNonEmpty(pairs, PairCategory, c);
      MeanBounds(g, Size, 1.0, |t.rows| as real);
    }
    var ranked := RankedItems(t.rows);
    assert top == Head(ranked, topN);
    HeadMembers(ranked, topN);
    forall e | e in top
      ensures e.itemsPerOrder >= 1.0
    {
      assert e in multiset(ranked);
    }
  }

  /** Every category that occurs has an `(order, category)` group. */
  lemma CategoriesHavePairs(rows: seq<Row>)
    ensures forall c :: c in Keys(rows, CategoryKey) ==> c in Keys(PairSizes(rows), PairCategory)
  {
    var pairs := PairSizes(rows);
    var pk := Keys(rows, PairKey);
    forall c | c in Keys(rows, CategoryKey)
      ensures c in Keys(pairs, PairCategory)
    {
      var i :| 0 <= i < |rows| && CategoryKey(rows[i]) == Some(c);
      var p := OrderCategory(rows[i].orderId, c);
      assert PairKey(rows[i]) == Some(p);
      KeyOfRow(rows, PairKey, rows[i]);
      var j :| 0 <= j < |pk| && pk[j] == p;
      assert pairs[j] in pairs && PairCategory(pairs[j]) == Some(c);
      KeyOfRow(pairs, PairCategory, pairs[j]);
    }
  }

  /** Every `(order, category)` group's category occurs. */
  lemma PairsHaveCategories(rows: seq<Row>)
    ensures forall c :: c in Keys(PairSizes(rows), PairCategory) ==> c in Keys(rows, CategoryKey)
  {
    var pairs := PairSizes(rows);
    var pk := Keys(rows, PairKey);
    forall c | c in Keys(pairs, PairCategory)
      ensures c in Keys(rows, CategoryKey)
    {
      var j :| 0 <= j < |pairs| && PairCategory(pairs[j]) == Some(c);
      assert pk[j] in pk;
      var i :| 0 <= i < |rows| && PairKey(rows[i]) == Some(pk[j]);
      assert CategoryKey(rows[i]) == Some(c);
    }
  }

  /** The categories of `items_per_order` are exactly the categories that occur. */
  lemma ItemGroupsCoverCategories(rows: seq<Row>)
    ensures forall c :: c in Keys(PairSizes(rows), PairCategory) <==> c in Keys(rows, CategoryKey)
  {
    CategoriesHavePairs(rows);
    PairsHaveCategories(rows);
  }
}
