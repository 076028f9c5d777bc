/**
 * `calculate_business_health_score`: four component scores and their weighted sum.
 * Revenue (weight 0.30) starts at 70 and moves with revenue growth by at most 30
 * either way; customer experience (0.25) maps the average review onto a 0-100
 * scale; operations (0.20) steps down as average delivery time grows; fulfillment
 * (0.25) is the percentage of delivered rows.
 */
module Health {
  import opened Wrappers
  import opened Floats
  import opened Collections
  import opened Records
  import opened DataLoader
  import opened Revenue
  import opened Experience

  /**
   * `revenue_score`: 70, plus the revenue growth in percent capped at +30 when the
   * growth is positive and floored at -30 otherwise, then clamped to [0, 100].  A
   * NaN growth fails `> 0` and propagates through Python's `min`/`max`.
   */
  function RevenueScore(m: RevenueMetrics): (s: Num)
    ensures m.growth.None? ==> s == Finite(70.0)
    ensures s.NaN? <==> m.growth.Some? && m.growth.value.revenue.NaN?
    ensures s.Finite? || s.NaN?
    ensures s.Finite? ==> 40.0 <= s.v <= 100.0
    ensures m.growth.Some? && m.growth.value.revenue.PosInf? ==> s == Finite(100.0)
    ensures m.growth.Some? && m.growth.value.revenue.NegInf? ==> s == Finite(40.0)
    ensures m.growth.Some? && m.growth.value.revenue.Finite? ==>
      s == Finite(70.0 + Clamp(100.0 * m.growth.value.revenue.v, -30.0, 30.0))
  {
    var score :=
      match m.growth
      case None => Finite(70.0)
      case Some(g) =>
        var pct := Scale(g.revenue, 100.0);
        if Less(Finite(0.0), g.revenue) then Shift(PyMin(pct, Finite(30.0)), 70.0)
        else Shift(PyMax(pct, Finite(-30.0)), 70.0);
    PyClamp(score, 0.0, 100.0)
  }

  /**
   * `customer_experience_score`: with an average review `r`, `70 + ((r - 1) / 4) * 30 - 30`,
   * that is `40 + 7.5 (r - 1)`, clamped to [0, 100]; 70 without reviews.
   */
  function ExperienceScore(review: Option<ReviewStats>): (s: real)
    ensures 0.0 <= s <= 100.0
    ensures review.None? ==> s == 70.0
    ensures review.Some? ==> s == Clamp(40.0 + 7.5 * (review.value.avgReviewScore - 1.0), 0.0, 100.0)
  {
    var cx :=
      match review
      case None => 70.0
      case Some(stats) => 70.0 + ((stats.avgReviewScore - 1.0) / 4.0) * 30.0 - 30.0;
    Clamp(cx, 0.0, 100.0)
  }

  /** A review average on the 1-5 scale maps to [40, 70], unclamped and increasing. */
  lemma ExperienceScoreOnScale(stats: ReviewStats, other: ReviewStats)
    requires 1.0 <= stats.avgReviewScore <= other.avgReviewScore <= 5.0
    ensures ExperienceScore(Some(stats)) == 40.0 + 7.5 * (stats.avgReviewScore - 1.0)
    ensures 40.0 <= ExperienceScore(Some(stats)) <= ExperienceScore(Some(other)) <= 70.0
  {
  }

  /**
   * `operational_score`: 90 up to 5 days of average delivery, 80 up to 10, 70 up
   * to 15, 50 beyond; 70 without delivery data.
   */
  function OperationalScore(delivery: Option<DeliveryStats>): (s: real)
    ensures s == 90.0 || s == 80.0 || s == 70.0 || s == 50.0
    ensures delivery.None? ==> s == 70.0
    ensures delivery.Some? ==>
      var d := delivery.value.avgDeliveryDays;
      && (s == 90.0 <==> d <= 5.0)
      && (s == 80.0 <==> 5.0 < d <= 10.0)
      && (s == 70.0 <==> 10.0 < d <= 15.0)
      && (s == 50.0 <==> 15.0 < d)
  {
    match delivery
    case None => 70.0
    case Some(stats) =>
      if stats.avgDeliveryDays <= 5.0 then 90.0
      else if stats.avgDeliveryDays <= 10.0 then 80.0
      else if stats.avgDeliveryDays <= 15.0 then 70.0
      else 50.0
  }

  /** Faster average delivery never scores lower. */
  lemma OperationalScoreMonotone(fast: DeliveryStats, slow: DeliveryStats)
    requires fast.avgDeliveryDays <= slow.avgDeliveryDays
    ensures OperationalScore(Some(fast)) >= OperationalScore(Some(slow))
  {
  }

  /** The percentage of rows whose status is "delivered". */
  function DeliveredPercent(rows: seq<Row>): (p: real)
    requires |rows| > 0
    ensures 0.0 <= p <= 100.0
    ensures p == 100.0 <==> forall r :: r in rows ==> IsDelivered(r)
    ensures p == 0.0 <==> forall r :: r in rows ==> !IsDelivered(r)
  {
    var delivered := |Filter(rows, IsDelivered)|;
    FilterFull(rows, IsDelivered);
    FilterEmpty(rows, IsDelivered);
    PercentBounds(delivered as real, |rows| as real);
    delivered as real / |rows| as real * 100.0
  }

  /**
   * `fulfillment_score`: the delivered percentage, or 70 without a status column.
   * The fraction divides two Python ints, so an empty table with a status column
   * raises `ZeroDivisionError`.
   */
  function FulfillmentScore(t: Table): (s: Result<real>)
    ensures s.Failure? <==> t.schema.hasStatus && |t.rows| == 0
    ensures s.Failure? ==> s.error == ZeroDivision
    ensures s.Success? ==> 0.0 <= s.value <= 100.0
    ensures !t.schema.hasStatus ==> s == Success(70.0)
    ensures s.Success? && t.schema.hasStatus ==> s.value == DeliveredPercent(t.rows)
  {
    if !t.schema.hasStatus then Success(70.0)
    else if |t.rows| == 0 then Failure(ZeroDivision)
    else Success(DeliveredPercent(t.rows))
  }

  datatype HealthMetrics = HealthMetrics(
    revenueScore: Num,
    customerExperienceScore: real,
    operationalScore: real,
    fulfillmentScore: real,
    overallHealthScore: Num)

  /** The component weights; they add up to 1. */
  const RevenueWeight: real := 0.30
  const ExperienceWeight: real := 0.25
  const OperationalWeight: real := 0.20
  const FulfillmentWeight: real := 0.25

  /** `sum(health_metrics[metric] * weight ...)` in the order of the weights dictionary. */
  function Overall(revenue: Num, cx: real, ops: real, fulfillment: real): (o: Num)
    ensures o.NaN? <==> revenue.NaN?
    ensures revenue.Finite? ==> o == Finite(revenue.v * RevenueWeight + cx * ExperienceWeight + ops * OperationalWeight + fulfillment * FulfillmentWeight)
  {
    match revenue
    case Finite(v) => Finite(v * RevenueWeight + cx * ExperienceWeight + ops * OperationalWeight + fulfillment * FulfillmentWeight)
    case NaN => NaN
    case _ => revenue
  }

  /**
   * `calculate_business_health_score(df, comparison_df)`: the revenue metrics may
   * raise `ZeroDivisionError`, the customer-experience analysis `KeyError`, and the
   * fulfillment fraction `ZeroDivisionError`, in that order.
   */
  function CalculateBusinessHealthScore(t: Table, comparison: Option<Table>): (h: Result<HealthMetrics>)
    ensures h.Failure? <==>
      || CalculateRevenueMetrics(t, comparison).Failure?
      || AnalyzeCustomerExperience(t).Failure?
      || FulfillmentScore(t).Failure?
    ensures h.Failure? && CalculateRevenueMetrics(t, comparison).Failure? ==> h.error == ZeroDivision
    ensures h.Failure? && CalculateRevenueMetrics(t, comparison).Success? && AnalyzeCustomerExperience(t).Failure? ==>
      h.error == AnalyzeCustomerExperience(t).error
    ensures h.Failure? && CalculateRevenueMetrics(t, comparison).Success? && AnalyzeCustomerExperience(t).Success? ==>
      h.error == ZeroDivision
    ensures h.Success? ==>
      var cx := AnalyzeCustomerExperience(t).value;
      && h.value.revenueScore == RevenueScore(CalculateRevenueMetrics(t, comparison).value)
      && h.value.customerExperienceScore == ExperienceScore(cx.review)
      && h.value.operationalScore == OperationalScore(cx.delivery)
      && h.value.fulfillmentScore == FulfillmentScore(t).value
      && h.value.overallHealthScore == Overall(h.value.revenueScore, h.value.customerExperienceScore,
                                               h.value.operationalScore, h.value.fulfillmentScore)
  {
    match CalculateRevenueMetrics(t, comparison)
    case Failure(e) => Failure(e)
    case Success(metrics) =>
      match AnalyzeCustomerExperience(t)
      case Failure(e) => Failure(e)
      case Success(cx) =>
        match FulfillmentScore(t)
        case Failure(e) => Failure(e)
        case Success(fulfillment) =>
          var revenue := RevenueScore(metrics);
          var experience := ExperienceScore(cx.review);
          var operational := OperationalScore(cx.delivery);
          Success(HealthMetrics(revenue, experience, operational, fulfillment,
                                Overall(revenue, experience, operational, fulfillment)))
  }

  /** With every component in [0, 100] and weights adding up to 1, so is the overall score. */
  lemma OverallWithin(revenue: Num, cx: real, ops: real, fulfillment: real)
    requires revenue.Finite? ==> 0.0 <= revenue.v <= 100.0
    requires 0.0 <= cx <= 100.0 && 0.0 <= ops <= 100.0 && 0.0 <= fulfillment <= 100.0
    ensures Overall(revenue, cx, ops, fulfillment).Finite? ==> 0.0 <= Overall(revenue, cx, ops, fulfillment).v <= 100.0
  {
    assert RevenueWeight + ExperienceWeight + OperationalWeight + FulfillmentWeight == 1.0;
  }

  /** The overall health score is undefined only for a NaN revenue growth, and otherwise lies in [0, 100]. */
  lemma HealthScoreWithin(t: Table, comparison: Option<Table>)
    requires CalculateBusinessHealthScore(t, comparison).Success?
    ensures var h := CalculateBusinessHealthScore(t, comparison).value;
      && (h.overallHealthScore.NaN? <==> CalculateRevenueMetrics(t, comparison).value.growth.Some?
                                         && CalculateRevenueMetrics(t, comparison).value.growth.value.revenue.NaN?)
      && (h.overallHealthScore.Finite? || h.overallHealthScore.NaN?)
      && (h.overallHealthScore.Finite? ==> 0.0 <= h.overallHealthScore.v <= 100.0)
  {
    var h := CalculateBusinessHealthScore(t, comparison).value;
    OverallWithin(h.revenueScore, h.customerExperienceScore, h.operationalScore, h.fulfillmentScore);
  }

  /** A table with no comparison and none of the optional columns scores 70 on every component and overall. */
  lemma DefaultsScoreSeventy(t: Table)
    requires !t.schema.hasStatus && !t.schema.hasReview && !t.schema.hasDeliveryDays
    ensures CalculateBusinessHealthScore(t, None).Success?
    ensures CalculateBusinessHealthScore(t, None).value.overallHealthScore == Finite(70.0)
  {
  }
}
