# notebook-to-dashboard metrics core, in Dafny

This project models the computational core of an e-commerce analytics dashboard.

- The dashboard loads a table of sales line items: order items merged with orders, customers, products and reviews.
- It prepares derived columns: revenue, date parts, and delivery days and their speed bucket.
- It narrows the table to delivered orders in a date range.
- It then computes business metrics from the table:
  - revenue totals and growth against a comparison period;
  - a month-over-month trend series;
  - category and state rankings;
  - review, Net Promoter and delivery statistics;
  - a calendar-month cohort retention table;
  - a weighted business health score;
  - an executive summary;
  - per-period aggregation;
  - a period-to-period metric comparison.
- The dashboard also formats numbers, draws trend arrows and derives the comparison date window.

Modules, by source file:

- `business_metrics.py`:
  - `Revenue`: revenue metrics, growth rates, `compare_periods`.
  - `MonthlyTrends`: the monthly series.
  - `Products`: categories, market share, items per order.
  - `Geography`: states.
  - `Experience`: reviews and delivery.
  - `Cohort`: the retention table.
  - `Health`: the health score.
  - `Summary`: the executive summary.
  - `PeriodAggregation`: `aggregate_by_time_period`. This is the only operation that writes into its caller's table, so it is the `Frame` class. Its `period` column is a field, which `AggregateByTimePeriod` assigns before grouping.
- `data_loader.py`: `DataLoader`.
- `streamlit_dashboard.py`: `Dashboard`.
- Shared building blocks:
  - `Records`: the row, the table and its column flags, calendar dates and timestamps.
  - `Floats`: IEEE-style values with NaN and the infinities, and Python's `min`/`max` on them.
  - `Collections`: sums, filters and group-by over sequences.
  - `Sorting`: a comparator sort, `head`, `nlargest`, the median.
  - `Wrappers`: `Option` and `Result`.

Modelling choices:

- **Tables:**
  - A table is a sequence of rows plus one flag per optional column, saying whether the column exists.
  - A missing value in a present column is `None`.
  - Grouping a column the table lacks raises `KeyError` in pandas. The model makes that a `requires` on the flag.
  - An analysis that the source skips when a column is absent checks the flag instead.
- **Numbers:**
  - Money is `real`. Float rounding is not modelled.
  - A value pandas can make NaN or infinite is a `Num`: `Finite`, `PosInf`, `NegInf` or `NaN`. Python's comparisons on such values are written out, and comparisons with NaN are false.
  - Dividing a Python `int` by zero raises `ZeroDivisionError`. This is a `Failure(ZeroDivision)` result.
- **Sorting:**
  - `sort_values` is not stable and breaks no ties.
  - Every ranking therefore promises only this: sorted by its key, and a (sub-)permutation of the groups.
  - `head(n)` follows pandas for negative `n`: it drops the last `-n` rows.
  - `nlargest(n)` with `n <= 0` is empty.
- **Dates:**
  - A date is a civil year/month/day.
  - A timestamp is a date plus a second of the day.
  - Day numbers count days since 1970-01-01.
  - Month indices are `year * 12 + month`.
- **Undefined values:** growth with a zero base, an empty review subset, and an empty delivery subset each give an explicit undefined value (NaN or `None`), never a silent 0.

Behaviours of the code that are easy to misread:

- **Zero-base growth:**
  - `order_growth_rate` divides two Python `int`s (`nunique()` counts), so a comparison table with no rows raises `ZeroDivisionError` (business_metrics.py:52-55).
  - `Revenue.CalculateRevenueMetrics` fails exactly then.
  - The `float` growth rates give `±inf` or NaN instead.
- **Tie-breaks:** the category and state rankings sort by revenue with no tie-break, so equal revenues may come in any order (business_metrics.py:118, 130, 158).
- **Items per order:** `groupby(['order_id', 'product_category_name']).size()` counts the rows of each (order, category) pair, not distinct categories (business_metrics.py:128).
- **Revenue score:**
  - The growth test is `> 0`, so zero growth takes the `max(…, -30)` branch, with the same value as the other branch (business_metrics.py:271-274).
  - A NaN growth rate makes the score NaN, because Python's `min`/`max` return their first argument when comparing with NaN.
- **Fulfillment score:** it divides by `len(df)`, so a table with an `order_status` column and no rows raises `ZeroDivisionError` (business_metrics.py:307).
- **End date:** the end date is parsed to midnight, so `end_date` excludes every purchase later than 00:00:00 on that day (data_loader.py:111-113).
- **Customer-experience score:** the score keeps the literal formula `70 + ((r - 1) / 4) * 30 - 30` (business_metrics.py:284-285).

## Model

| member | source | states |
|---|---|---|
| DataLoader.Quarter | data_loader.py:68 | The quarter of a month 1..12 is 1..4 and is the one whose three months contain it |
| DataLoader.PrepareRow | data_loader.py:66-71 | A prepared row's revenue is price plus freight, and its year, month and quarter come from the purchase timestamp |
| DataLoader.PrepareSalesData | data_loader.py:43-76 | The prepared table has one row per line, in order. The ids, order item id, product id, price, freight, status and timestamps are kept; the derived columns are price plus freight and the purchase date's year, month and quarter. Category, state, review and the delivery columns are absent (flags false) until the later merges |
| DataLoader.PreparedRevenueSplits | data_loader.py:71 | Every prepared row's revenue is price plus freight, so total revenue is total price plus total freight |
| DataLoader.PreparedDateParts | data_loader.py:66-68 | For valid timestamps, each prepared row has month 1..12 and quarter 1..4, and the quarter contains the month |
| DataLoader.FilterDeliveredOrders | data_loader.py:98-113 | The step-by-step narrowing equals the single combined selection applied to the input; the column flags are unchanged |
| DataLoader.Selected | data_loader.py:98-113 | Definition only: delivered, in the year, in the month when a year is given, and within the inclusive midnight bounds; FilteredRowsSound and MonthNeedsYear state its consequences |
| DataLoader.FilteredRowsSound | data_loader.py:98-113 | The filtered rows are an order-preserving subsequence of the input. Each is delivered, in the given year, in the given month when a year is given, and within the inclusive bounds. Every selected row keeps its multiplicity |
| DataLoader.MonthNeedsYear | data_loader.py:104-105 | Without a year, the month filter has no effect |
| DataLoader.EndDateAfterMidnightExcluded | data_loader.py:111-113 | A purchase on the end date after 00:00:00 is filtered out |
| DataLoader.WholeDays | data_loader.py:201-204 | Whole days of a duration are its floor division by 86400 seconds, including negative durations |
| DataLoader.DeliveryDays | data_loader.py:200-204 | Delivery days exist exactly for rows with a delivered date, and are the whole days between purchase and delivery |
| DataLoader.CategorizeDeliverySpeed | data_loader.py:207-215 | Missing days map to "Unknown", days up to 3 (zero and negative included) to "1-3 days", 4..7 to "4-7 days", and more to "8+ days"; each bucket holds exactly those inputs |
| DataLoader.SpeedBucketsMonotone | data_loader.py:207-215 | More delivery days never land in a faster bucket |
| DataLoader.AddDeliveryColumns | data_loader.py:199-217 | The enriched table adds the two delivery columns and changes nothing else. Each row's days are its whole days between purchase and delivery, existing iff a delivered date does, and the category is the bucket of the days |
| DataLoader.TimedRowsHaveKnownSpeed | data_loader.py:207-217 | A row with delivery days never has the "Unknown" category |
| Revenue.MeanOf | business_metrics.py:36-37 | The mean is NaN exactly for no values; otherwise mean times count is the sum |
| Revenue.SampleVariance | business_metrics.py:42 | The sample variance (ddof 1) is NaN exactly for fewer than two values, and is otherwise non-negative |
| Revenue.MedianOf | business_metrics.py:41 | The median is NaN exactly for no values; otherwise at least half the values are at most it and at least half are at least it |
| Revenue.OrderValues | business_metrics.py:36-40 | There is one per-order revenue sum per distinct order id, and together they add up to total revenue |
| Revenue.OrderCount | business_metrics.py:34 | The number of distinct order ids is the size of the set of order ids. It is at most the row count, and zero exactly for no rows |
| Revenue.BasicMetrics | business_metrics.py:33-42 | Total revenue is the row sum, orders the distinct order ids, items the row count. AOV, item price and median are NaN exactly on an empty table; the variance is NaN exactly below two orders |
| Revenue.AverageOrderValueIsRevenuePerOrder | business_metrics.py:36 | On a non-empty table, the AOV (mean of per-order sums) equals total revenue over total orders |
| Revenue.AverageItemPriceIsRowMean | business_metrics.py:37 | On a non-empty table, the average item price is total price over the row count |
| Revenue.GrowthRates | business_metrics.py:48-59 | Revenue growth is finite iff the base revenue is non-zero, NaN iff both are zero, and otherwise satisfies base × (1 + g) = current. Order growth always satisfies this equation. A finite AOV growth satisfies it for the two AOVs |
| Revenue.CalculateRevenueMetrics | business_metrics.py:18-61 | Fails with a zero division exactly when an empty comparison table is given. Otherwise: the basic metrics of the table; no growth without a comparison; with one, the growth against the comparison's basic metrics |
| Revenue.ZeroBaseRevenueGrowthUndefined | business_metrics.py:48-51 | A comparison with rows but zero revenue gives a non-finite revenue growth, NaN exactly when current revenue is also zero, without failing |
| Revenue.MetricValue | business_metrics.py:431-433 | A metric name is found exactly when it is one of the names in the revenue metric map |
| Revenue.CompareMetric | business_metrics.py:431-446 | Definition only: one entry when both metric maps hold the name, with both values, their difference and percent change, none otherwise; ComparisonsFollowRequest states it over the request |
| Revenue.PercentChange | business_metrics.py:435-438 | NaN when the previous value is zero. For finite values with a non-zero previous value, (current - previous) / previous × 100. It is finite only in that case |
| Revenue.CompareMetrics | business_metrics.py:429-446 | The loop's appended entries equal the comparison table of the requested names |
| Revenue.ComparePeriods | business_metrics.py:423-448 | The comparison of two tables' metrics over the requested names, or the three default names |
| Revenue.ComparisonsFollowRequest | business_metrics.py:430-446 | Entries come in request order, one per requested name that both metric maps hold. Each carries both values, their difference and their percent change |
| Revenue.PercentChangeUndefinedIffZeroBase | business_metrics.py:435-438 | For finite values, the percent change is defined exactly when the previous value is non-zero |
| MonthlyTrends.PctChange | business_metrics.py:86-91 | `pct_change` is finite iff the previous value is non-zero, NaN iff both are zero, and otherwise satisfies previous × (1 + p) = current |
| MonthlyTrends.TotalsOf | business_metrics.py:75-82 | Definition only: a month's revenue sum, distinct orders and row count; MonthlyTrendsAreMonthGroups and MonthlyTotalsAddUp state its properties |
| MonthlyTrends.Aov | business_metrics.py:90 | A month's AOV times its orders is its revenue |
| MonthlyTrends.TrendAt | business_metrics.py:82-91 | A trend row copies its month's columns. In the first row all three growths are NaN; in later rows each growth is the change from the previous row |
| MonthlyTrends.SortedMonths | business_metrics.py:75-85 | The month groups, chronologically sorted, one per (year, month) present |
| MonthlyTrends.SortedMonthsAreGroups | business_metrics.py:75-82 | Each sorted entry is the aggregate of a (year, month) that occurs |
| MonthlyTrends.SortedMonthsStrictlyAscending | business_metrics.py:85 | The months are strictly ascending |
| MonthlyTrends.SortedMonthsCover | business_metrics.py:75-82 | One entry per month present; every month has at least one order |
| MonthlyTrends.WithChanges | business_metrics.py:86-91 | Each trend row is the month's columns with its changes against the previous row |
| MonthlyTrends.WithChangesChain | business_metrics.py:86-91 | In the trend rows, the first row's growths are NaN, and each later growth is the change from the row before |
| MonthlyTrends.CalculateMonthlyTrends | business_metrics.py:64-93 | One row per month present, in strictly ascending months, with the growths chained row to row |
| MonthlyTrends.TrendsAscending | business_metrics.py:85 | The trend rows' months are strictly ascending |
| MonthlyTrends.WithChangesAscending | business_metrics.py:85-91 | Adding the change columns keeps a strictly ascending month order |
| MonthlyTrends.MonthlyTrendsCoverMonths | business_metrics.py:75-82 | The trend rows' months are exactly the months present, each once |
| MonthlyTrends.MonthlyTrendsAreMonthGroups | business_metrics.py:75-90 | Each row's revenue, orders and items are those of its month's rows; orders ≥ 1 and AOV is revenue over orders |
| MonthlyTrends.MonthlyTotalsAddUp | business_metrics.py:75-82 | Monthly revenues sum to total revenue and monthly items to the row count |
| Products.RankedCategories | business_metrics.py:110-118 | The category groups sorted by revenue, highest first, one per category present |
| Products.CategoryTotals | business_metrics.py:110-117 | Definition only: a category's revenue sum, distinct orders, item count and mean price; CategoryGroupsAreTotals states its properties |
| Products.ItemGroups | business_metrics.py:128-129 | Definition only: per category, the mean size of its (order, category) pairs; ItemGroupsCoverCategories and ItemsPerOrderAtLeastOne state its properties |
| Products.RankedItems | business_metrics.py:128-130 | The items-per-order groups sorted by their mean, highest first |
| Products.MarketShares | business_metrics.py:123-125 | The first `top_n` ranked categories, each with its revenue divided by the whole table's revenue |
| Products.AnalyzeProductPerformance | business_metrics.py:96-133 | The `head(top_n)` of the revenue ranking. Market shares sit row for row beside it, over the full total. Also the `head(top_n)` of the items-per-order ranking |
| Products.CategoryPerformanceIsTopN | business_metrics.py:118-120 | At most `top_n` categories, sorted by revenue, drawn from the groups; no category left out has more revenue than one kept |
| Products.ItemsPerOrderIsTopN | business_metrics.py:130-131 | Items per order is sorted descending, drawn from the groups, and no category left out ranks above one kept |
| Products.CategoryGroupsAreTotals | business_metrics.py:110-117 | Each ranked category occurs, has at least one item and order, and its mean price is its price total over its items |
| Products.RankedRevenueIsCategorisedRevenue | business_metrics.py:110-124 | The category revenues add up to the revenue of the rows that have a category |
| Products.AllSharesSum | business_metrics.py:123-124 | With non-zero total revenue, all shares are finite and sum to categorised revenue over total revenue |
| Products.SharesNonNegative | business_metrics.py:123-124 | With non-negative revenues and a positive total, every share is finite and non-negative |
| Products.MarketSharesBounded | business_metrics.py:123-125 | With non-negative revenues, the reported shares are non-negative and sum to at most 1 |
| Products.MarketSharesComplete | business_metrics.py:123-125 | When every row has a category and all categories are reported, the shares sum to 1 |
| Products.PairSizesPositive | business_metrics.py:128 | Each (order, category) size is between 1 and the row count |
| Products.ItemsPerOrderAtLeastOne | business_metrics.py:128-131 | Every reported items-per-order value is at least 1 |
| Products.CategoriesHavePairs | business_metrics.py:128-129 | Every category present has an (order, category) pair |
| Products.PairsHaveCategories | business_metrics.py:128-129 | Every pair's category is a category present |
| Products.ItemGroupsCoverCategories | business_metrics.py:128-129 | The items-per-order groups are exactly the categories present |
| Geography.RankedStates | business_metrics.py:150-158 | The state groups sorted by revenue, highest first |
| Geography.StateTotals | business_metrics.py:150-163 | Definition only: a state's revenue sum, distinct orders and customers, mean price, and revenue per customer; StateGroupsAreTotals states its properties |
| Geography.MostCustomers | business_metrics.py:168-170 | `nlargest`: at most `top_n` states (none when `top_n <= 0`), sorted by customer count, drawn from the groups; no state left out has more customers than one kept |
| Geography.AnalyzeGeographicPerformance | business_metrics.py:136-172 | The `head(top_n)` of the revenue ranking. Separately, the state, customer count and revenue columns of the `top_n` states by customers |
| Geography.RankedStatesAreGroups | business_metrics.py:150-158 | Each ranked state occurs and carries its own totals |
| Geography.RevenuePerCustomerSplits | business_metrics.py:161-163 | Revenue per customer times customers is the state's revenue |
| Geography.StateGroupsAreTotals | business_metrics.py:150-163 | Each state group has at least one order and one customer, its revenue is its rows' sum, and revenue per customer times customers is revenue |
| Geography.StatePerformanceIsTopN | business_metrics.py:158-165 | At most `top_n` states, sorted by revenue, drawn from the groups; no state left out has more revenue than one kept |
| Experience.ScoreDistribution | business_metrics.py:192 | One share per distinct score, sorted by share, highest first |
| Experience.NetPromoterScore | business_metrics.py:194-200 | NPS lies in [-100, 100] |
| Experience.NpsWithin | business_metrics.py:200 | (promoters - detractors) / total × 100 lies in [-100, 100] when both counts are at most the total |
| Experience.ReviewAnalysis | business_metrics.py:188-200 | Review statistics exist exactly when the column exists and some score is present. They are then the mean score, the distribution and the NPS of the scored rows |
| Experience.AverageReviewWithinScale | business_metrics.py:191 | With scores in 1..5, the average review lies in [1, 5] |
| Experience.ScoreCountsSum | business_metrics.py:192 | The per-score counts add up to the number of scored rows |
| Experience.SharesAreFractions | business_metrics.py:192 | The shares sum to the counts' total over the number of scored rows |
| Experience.DistributionSumsToOne | business_metrics.py:192 | The normalised distribution sums to 1 |
| Experience.DistributionSharesPositive | business_metrics.py:192 | Every share lies in (0, 1] |
| Experience.DeliverySatisfaction | business_metrics.py:211-215 | One entry per delivery category present, ordered by category name |
| Experience.SatisfactionOf | business_metrics.py:211-214 | Definition only: a speed bucket's mean review (NaN without scores) and distinct orders; BucketAggregate states its properties |
| Experience.DeliveryAnalysis | business_metrics.py:203-215 | Delivery statistics exist exactly when delivery days exist and some are present. They are then the mean and median days, plus the per-category satisfaction when that column exists. Grouping without a review column raises `KeyError` |
| Experience.AnalyzeCustomerExperience | business_metrics.py:175-217 | The review and delivery results together, failing exactly when the delivery part does |
| Experience.AverageDeliveryWithin | business_metrics.py:206 | The average delivery days lie within any bounds that hold for every row |
| Experience.SatisfactionGroups | business_metrics.py:211-214 | Each satisfaction entry is the aggregate of a category present |
| Experience.BucketAggregate | business_metrics.py:211-214 | A bucket has at least one order, and its mean review is NaN exactly when none of its rows has a score |
| Experience.SatisfactionBuckets | business_metrics.py:211-215 | Buckets are distinct and in name order. Each occurs and has at least one order, and its review is NaN iff no row in it has a score |
| Experience.NoUnknownBucket | business_metrics.py:204-215 | After enrichment, rows with delivery days never form an "Unknown" bucket |
| Cohort.Earliest | business_metrics.py:231 | The earliest row of a customer is one of theirs, and no row of theirs is earlier |
| Cohort.CohortOf | business_metrics.py:231-232 | Definition only: the month of the customer's earliest purchase; CohortIsFirstPurchaseMonth states its properties |
| Cohort.PeriodNumber | business_metrics.py:239-241 | Definition only: months from the customer's cohort to the purchase; PeriodsNonNegative states that it is never negative |
| Cohort.CellCustomers | business_metrics.py:244 | Definition only: the distinct customers of a (cohort, period) group; CellCustomersStartedInCohort and CellsWithinCohortSize state its properties |
| Cohort.NotAfterMonth | business_metrics.py:232-236 | An earlier timestamp never has a later month |
| Cohort.Ascending | business_metrics.py:245-247 | The pivot's labels are sorted strictly ascending, a permutation of the distinct keys |
| Cohort.CalculateCohortAnalysis | business_metrics.py:220-249 | Cohort rows and period columns are exactly the keys present, strictly ascending. A cell exists exactly for a present (cohort, period) pair, and holds its distinct-customer count |
| Cohort.CohortIsFirstPurchaseMonth | business_metrics.py:231-232 | A customer's cohort is the month of one of their purchases and no later than any of them |
| Cohort.PeriodsNonNegative | business_metrics.py:239-241 | Every period number is ≥ 0 |
| Cohort.FirstPurchaseInPeriodZero | business_metrics.py:231-244 | A customer is counted in their cohort's period 0 |
| Cohort.EveryCustomerInPeriodZero | business_metrics.py:231-244 | Every customer's (cohort, 0) cell exists and is at least 1 |
| Cohort.CellCustomersStartedInCohort | business_metrics.py:244 | A customer counted in a cell is counted in that cohort's period 0 |
| Cohort.CellWithinCohort | business_metrics.py:244 | A present cell's cohort has a period-0 cell, and the cell's count is between 1 and that cell's |
| Cohort.CellsWithinCohortSize | business_metrics.py:244-247 | Every cell is at least 1 and at most its cohort's size (the period-0 cell) |
| Health.RevenueScore | business_metrics.py:268-276 | 70 without a comparison. With one, 70 plus the growth × 100 clamped to [-30, 30]: 100 for +inf, 40 for -inf, NaN for NaN growth. A finite score lies in [40, 100] |
| Health.ExperienceScore | business_metrics.py:280-287 | 70 without reviews, otherwise `40 + 7.5(r - 1)` clamped to [0, 100] |
| Health.ExperienceScoreOnScale | business_metrics.py:284-285 | For averages in [1, 5] no clamping happens. The score rises with the average and lies in [40, 70] |
| Health.OperationalScore | business_metrics.py:290-303 | 90, 80, 70 or 50 by the 5/10/15-day steps, each step exactly its range; 70 without delivery data |
| Health.OperationalScoreMonotone | business_metrics.py:294-301 | Slower delivery never scores higher |
| Health.DeliveredPercent | business_metrics.py:307-308 | The delivered share × 100 lies in [0, 100]; it is 100 iff every row is delivered and 0 iff none is |
| Health.FulfillmentScore | business_metrics.py:306-312 | 70 without a status column. With one, a zero division on an empty table, otherwise the delivered percentage |
| Health.Overall | business_metrics.py:315-322 | The weighted sum 0.30, 0.25, 0.20, 0.25 of the components, NaN exactly when the revenue score is |
| Health.CalculateBusinessHealthScore | business_metrics.py:252-325 | Fails exactly when the revenue metrics, the experience analysis or the fulfillment score fails, with the first failing part's error (a zero division for the revenue metrics and for the fulfillment fraction). Otherwise each component is its score function and the overall is their weighted sum |
| Health.OverallWithin | business_metrics.py:315-322 | Components in [0, 100] give a weighted score in [0, 100], since the weights sum to 1 |
| Health.HealthScoreWithin | business_metrics.py:264-323 | The overall score is NaN exactly when revenue growth is NaN, and otherwise finite in [0, 100] |
| Health.DefaultsScoreSeventy | business_metrics.py:268-310 | With no comparison, status, review or delivery data, the overall score is 70 |
| Summary.GenerateExecutiveSummary | business_metrics.py:328-364 | Fails exactly as the health score does. Otherwise: the period label, the revenue metrics, the names of the top 5 categories and states, the experience metrics and the overall health score |
| Summary.RankedCategoryNames | business_metrics.py:349-350 | The ranked category names are distinct, present, and in non-increasing revenue |
| Summary.RankedStateNames | business_metrics.py:353-354 | The ranked state names are distinct, present, and in non-increasing revenue |
| Summary.TopCategoryNames | business_metrics.py:349-350 | min(5, categories) names, distinct, present, in non-increasing revenue |
| Summary.TopStateNames | business_metrics.py:353-354 | min(5, states) names, distinct, present, in non-increasing revenue |
| Summary.TopNamesRanked | business_metrics.py:342-362 | The summary's top categories and top states each hold min(5, present) distinct names in non-increasing revenue |
| PeriodAggregation.UnitNamed | business_metrics.py:386-395 | A period unit is recognised exactly for "day", "month", "quarter" and "year" |
| PeriodAggregation.PeriodOf | business_metrics.py:386-395 | Definition only: the purchase date, or its month, quarter or year; MonthlyPeriodsAreMonthIndices states the monthly case |
| PeriodAggregation.MonthlyPeriodsAreMonthIndices | business_metrics.py:390-391 | Two rows share a monthly period exactly when their month indices agree |
| PeriodAggregation.ColumnNamesRoundTrip | business_metrics.py:405 | Looking up a column's own name finds it, and a name that finds a column is that column's name |
| PeriodAggregation.HowOf | business_metrics.py:399-403 | Definition only: `nunique` for order_id and customer_id, `sum` otherwise; HowMatchesColumn relates it to the columns |
| PeriodAggregation.HowMatchesColumn | business_metrics.py:399-403 | `nunique` exactly for the order and customer id columns, `sum` for every other column |
| PeriodAggregation.AggDict | business_metrics.py:398-403 | The aggregation dictionary has each requested metric once, and no other, with `nunique` for ids and `sum` otherwise |
| PeriodAggregation.BuildAggDict | business_metrics.py:398-403 | The loop's dictionary is the aggregation dictionary of the metric list |
| PeriodAggregation.Tag | business_metrics.py:386-395 | Each row is paired with its own period value |
| PeriodAggregation.ColumnIn | business_metrics.py:405 | A metric names a column of the frame exactly when it is a column name and, for review_score and delivery_days, the frame has that column |
| PeriodAggregation.Resolve | business_metrics.py:405 | Fails exactly when some metric names no column of the frame, with a missing-column error naming such a metric; otherwise resolves every entry in order |
| PeriodAggregation.Groups | business_metrics.py:405 | One group per period present, each that period's aggregate, with one value per column |
| PeriodAggregation.SortedGroups | business_metrics.py:405 | The groups sorted by period |
| PeriodAggregation.SortedGroupsAreGroups | business_metrics.py:405 | Each sorted group is the aggregate of a period present, with one value per column, one group per period |
| PeriodAggregation.SortedGroupsAscending | business_metrics.py:405 | The periods are strictly ascending |
| PeriodAggregation.Aggregate | business_metrics.py:405 | Fails exactly when a metric names no column of the frame; otherwise the period-sorted groups |
| PeriodAggregation.AggregatedPeriodsAscending | business_metrics.py:397-405 | One row per period present, periods strictly ascending, each with one value per metric |
| PeriodAggregation.AggregatedSumsAddUp | business_metrics.py:397-405 | A summed metric names a column of the frame, and its values over all periods add up to the column's total |
| PeriodAggregation.MissingValuesSkipped | business_metrics.py:405 | Summing review_score or delivery_days skips missing values: the total is that of the rows that have one |
| PeriodAggregation.GroupCountsBounded | business_metrics.py:400-401 | A distinct-id count in a group lies between 1 and the group's row count |
| PeriodAggregation.Measure | business_metrics.py:405 | Definition only: the distinct-id count of a group for the id columns and the column sum otherwise; GroupCountsBounded, AggregatedSumsAddUp and MissingValuesSkipped state its properties |
| PeriodAggregation.DistinctCountsBounded | business_metrics.py:400-405 | Each period's distinct-id counts lie between 1 and the period's row count |
| PeriodAggregation.Frame.constructor | business_metrics.py:368-370 | A frame over the table's rows and columns, with no period column |
| PeriodAggregation.Frame.AssignPeriod | business_metrics.py:385-395 | A recognised unit writes every row's period into the frame's period column; an unrecognised one leaves it as it was |
| PeriodAggregation.Frame.AggregateByTimePeriod | business_metrics.py:368-406 | The period column is written as above. Without one, a missing-column failure; otherwise the aggregation of the rows by it, over the requested or default metrics |
| Sorting.SortBy | business_metrics.py:118 | `sort_values` with no tie-break: the result is sorted by the comparator and a permutation of the input |
| Sorting.Head | business_metrics.py:120 | `head(n)` is a prefix, of length min(n, size) for n ≥ 0 and of size + n (at least 0) for negative n |
| Sorting.NLargest | business_metrics.py:168-170 | `nlargest(n)`: empty for n ≤ 0, otherwise min(n, size) elements, sorted, a sub-multiset of the input, and no element left out ranks above one kept |
| Sorting.Median | business_metrics.py:41 | The median of a non-empty list lies between two of its values, with at least half the values at most it and at least half at least it |
| Floats.PyMin | business_metrics.py:271-276 | Python's `min` returns one of its arguments, and a NaN first argument is returned as is |
| Floats.PyMax | business_metrics.py:271-276 | Python's `max` returns one of its arguments, and a NaN first argument is returned as is |
| Records.DayNumber | streamlit_dashboard.py:232-239 | Definition only: days since 1970-01-01 of a civil date, the arithmetic behind `timedelta` and the date comparisons; DefaultRangeDays, MinDateDay and DefaultComparisonDays fix it at the dashboard's constants |
| Dashboard.FormatNumber | streamlit_dashboard.py:181-188 | Suffix "M" exactly at ≥ 1e6, "K" exactly at ≥ 1e3 below that, none otherwise (NaN included), with the scaled amount and 1, 0, 0 decimals |
| Dashboard.FormatCurrency | streamlit_dashboard.py:172-179 | The same branches and amounts as `format_number`, with a "$" prefix |
| Dashboard.ScaledAmountsInRange | streamlit_dashboard.py:174-188 | The "M" amount times 1e6 is the value and is ≥ 1; the "K" amount times 1e3 is the value and lies in [1, 1000) |
| Dashboard.Abs | streamlit_dashboard.py:204 | The absolute value is never negative infinity, is NaN exactly for NaN, and negates negative finite values |
| Dashboard.TrendIndicator | streamlit_dashboard.py:190-204 | Empty exactly when the previous value is 0. Otherwise "trend-up"/↗ exactly when the percent change is > 0, else "trend-down"/↘, with the change's absolute value |
| Dashboard.TrendDirection | streamlit_dashboard.py:195-202 | For a non-zero previous value, the trend is up exactly when the current value moves away from zero past the previous one. Equal values point down, and the percentage is finite and non-negative |
| Dashboard.ComparisonWindows | streamlit_dashboard.py:216-239 | Two selected dates, or the defaults otherwise. The comparison ends the day before the start, starts no earlier than 2016-01-01, and has the selection's length unless it was clamped |
| Dashboard.WindowsDisjoint | streamlit_dashboard.py:233 | The comparison window ends before the selected one starts |
| Dashboard.EarlyStartEmptiesComparison | streamlit_dashboard.py:234-239 | A selection starting on or before 2016-01-01 leaves a comparison window that starts after it ends |
| Dashboard.DefaultRangeDays | streamlit_dashboard.py:216-217 | The default range is days 18993..19722 |
| Dashboard.MinDateDay | streamlit_dashboard.py:237 | The earliest comparison date is day 16801 |
| Dashboard.DefaultComparisonDays | streamlit_dashboard.py:232-234 | 2020-01-02 and 2021-12-31 are days 18263 and 18992 |
| Dashboard.DefaultWindows | streamlit_dashboard.py:225-239 | A selection of other than two dates compares 2022-01-01..2023-12-31 against 2020-01-02..2021-12-31 |

## Left out

- Reading CSV files, `load_raw_data`, `get_data_summary`, every `print`, and `create_analysis_dataset`: file I/O and logging.
- The pandas merges (order items with orders, reviews, customers, products). The model takes the merged table as input. A review merge that duplicates rows of an order with several reviews is therefore not modelled.
- `pd.to_datetime`: timestamps and the filter's date strings arrive already parsed.
- Streamlit layout, CSS, Plotly charts, caching, and the rest of `main`: rendering and framework behaviour.
- `datetime.now()` as the date picker's upper bound: a clock reading that only limits the widget.
- Float rendering: the `.1f`, `.0f` and `.2f` text in the dashboard helpers. `Dashboard.FormatNumber` returns the chosen branch, the scaled amount and the number of decimals instead of a string.
- `round(overall_score, 1)`: `Health.Overall` is the unrounded weighted sum.
- Float rounding in general: money is exact `real`, and IEEE signed zero is not distinguished.
- Revenue.BasicMetrics: keeps the sample variance of the per-order sums (ddof 1) instead of `revenue_std`, its square root, since Dafny's reals have no square root.
- Revenue.MetricValue: does not look up "revenue_std", because the model keeps the variance rather than the standard deviation. A comparison that requests it gets no entry, where the source would emit one.
- PeriodAggregation.Frame.AggregateByTimePeriod: requires a period name other than "week". pandas' weekly `to_period('W')` buckets depend on its weekly anchor convention, which is not modelled.
- PeriodAggregation.Resolve: promises only that the error names some metric that is not a modelled column, not which one pandas reports first.
- PeriodAggregation.ColumnIn: the numeric columns (total_revenue, price, freight_value, order_item_id, year, month, quarter, review_score, delivery_days) and the two id columns can be aggregated. The text columns (product_id, order_status, the product category, the customer state, customer_city, delivery_category) and the timestamps are treated as missing columns, where pandas would concatenate strings or raise a `TypeError`.
- Products.AnalyzeProductPerformance, Geography.AnalyzeGeographicPerformance, DataLoader.FilterDeliveredOrders, Summary.GenerateExecutiveSummary: require the category, state or status column instead of modelling pandas' `KeyError` on a table without it; the dashboard always passes them the merged sales table, which has these columns. Experience.DeliveryAnalysis, by contrast, models its `KeyError` as a failure.
- Records.DayNumber: is a days-from-civil formula. It is not proved to step by one across every calendar day; the dashboard's dates are checked only at the constants it uses.
