/**
 * `analyze_customer_experience`: review-score statistics with a net promoter score
 * (5 stars promote, 1 or 2 stars detract), and delivery-time statistics with the
 * mean review and order count of each delivery-speed bucket.
 */
module Experience {
  import opened Wrappers
  import opened Floats
  import opened Collections
  import opened Sorting
  import opened Records
  import opened DataLoader

  // ---------------------------------------------------------------- reviews

  function ScoreKey(r: Row): Option<int> { r.reviewScore }

  /** `dropna(subset=['review_score'])`. */
  function HasScore(r: Row): bool { r.reviewScore.Some? }

  function Score(r: Row): real { if r.reviewScore.Some? then r.reviewScore.value as real else 0.0 }

  function IsPromoter(r: Row): bool { r.reviewScore == Some(5) }

  function IsDetractor(r: Row): bool { r.reviewScore == Some(1) || r.reviewScore == Some(2) }

  /** One entry of `value_counts(normalize=True)`: a score and the fraction of reviews that gave it. */
  datatype ScoreShare = ScoreShare(score: int, share: real)

  /** How many reviews gave each score. */
  function ScoreCount(scored: seq<Row>): int -> real
  {
    (s: int) => |Members(scored, ScoreKey, s)| as real
  }

  /** The fraction of reviews that gave a score. */
  function Fraction(scored: seq<Row>, s: int): real
  {
    if |scored| == 0 then 0.0 else ScoreCount(scored)(s) / |scored| as real
  }

  function ShareOfScore(scored: seq<Row>): int -> ScoreShare
  {
    (s: int) => ScoreShare(s, Fraction(scored, s))
  }

  /** `value_counts` lists the most frequent value first. */
  function ByShareDesc(a: ScoreShare, b: ScoreShare): bool { a.share >= b.share }

  lemma ByShareDescIsTotal()
    ensures TotalPreorder(ByShareDesc)
  {
  }

  function ScoreDistribution(scored: seq<Row>): (d: seq<ScoreShare>)
    ensures Sorted(d, ByShareDesc)
    ensures multiset(d) == multiset(Map(Keys(scored, ScoreKey), ShareOfScore(scored)))
  {
    ByShareDescIsTotal();
    SortBy(Map(Keys(scored, ScoreKey), ShareOfScore(scored)), ByShareDesc)
  }

  /** `(promoters - detractors) / total_reviews * 100` of a non-empty set of reviews. */
  function NetPromoterScore(scored: seq<Row>): (nps: real)
    requires |scored| > 0
    ensures -100.0 <= nps <= 100.0
  {
    var promoters := |Filter(scored, IsPromoter)|;
    var detractors := |Filter(scored, IsDetractor)|;
    NpsWithin(promoters, detractors, |scored|);
    (promoters - detractors) as real / |scored| as real * 100.0
  }

  lemma NpsWithin(promoters: nat, detractors: nat, total: nat)
    requires total > 0 && promoters <= total && detractors <= total
    ensures -100.0 <= (promoters - detractors) as real / total as real * 100.0 <= 100.0
  {
    RatioWithinUnit((promoters - detractors) as real, total as real);
  }

  datatype ReviewStats = ReviewStats(avgReviewScore: real, distribution: seq<ScoreShare>, npsScore: real)

  /** The review keys of the metrics: present only when the column exists and some score is present. */
  function ReviewAnalysis(t: Table): (r: Option<ReviewStats>)
    ensures r.Some? <==> t.schema.hasReview && exists x :: x in t.rows && HasScore(x)
    ensures r.Some? ==>
      var scored := Filter(t.rows, HasScore);
      && |scored| > 0
      && r.value.avgReviewScore == Mean(scored, Score)
      && r.value.distribution == ScoreDistribution(scored)
      && r.value.npsScore == NetPromoterScore(scored)
  {
    var scored := Filter(t.rows, HasScore);
    FilterEmpty(t.rows, HasScore);
    if t.schema.hasReview && |scored| > 0 then
      Some(ReviewStats(Mean(scored, Score), ScoreDistribution(scored), NetPromoterScore(scored)))
    else
      None
  }

  /** With every score in 1..5, the average review score lies in [1, 5]. */
  lemma AverageReviewWithinScale(t: Table)
    requires forall r :: r in t.rows && r.reviewScore.Some? ==> 1 <= r.reviewScore.value <= 5
    ensures ReviewAnalysis(t).Some? ==>
      1.0 <= ReviewAnalysis(t).value.avgReviewScore <= 5.0
  {
    if ReviewAnalysis(t).Some? {
      var scored := Filter(t.rows, HasScore);
      MeanBounds(scored, Score, 1.0, 5.0);
    }
  }

  function Share(s: ScoreShare): real { s.share }

  /** Counting each distinct score's reviews counts every scored review once. */
  lemma ScoreCountsSum(scored: seq<Row>)
    requires forall r :: r in scored ==> r.reviewScore.Some?
    ensures SumOf(Keys(scored, ScoreKey), ScoreCount(scored)) == |scored| as real
  {
    var ks := Keys(scored, ScoreKey);
    forall s ensures ScoreCount(scored)(s) == GroupTotal(scored, ScoreKey, One)(s) {
      SumOfOnes(Members(scored, ScoreKey, s));
    }
    SumOfExt(ks, ScoreCount(scored), GroupTotal(scored, ScoreKey, One));
    SumOverGroups(scored, ScoreKey, One);
    FilterAll(scored, HasKey(ScoreKey));
    SumOfOnes(scored);
  }

  /** The shares are the score counts divided by the number of reviews. */
  lemma SharesAreFractions(scored: seq<Row>)
    requires |scored| > 0
    ensures SumOf(Map(Keys(scored, ScoreKey), ShareOfScore(scored)), Share)
      == SumOf(Keys(scored, ScoreKey), ScoreCount(scored)) / |scored| as real
  {
    var ks := Keys(scored, ScoreKey);
    var n := |scored| as real;
    var fraction := (s: int) => Fraction(scored, s);
    SumOfMap(ks, ShareOfScore(scored), Share, fraction);
    SumOfDiv(ks, ScoreCount(scored), fraction, n);
  }

  /** The normalised score counts add up to 1. */
  lemma DistributionSumsToOne(scored: seq<Row>)
    requires |scored| > 0
    requires forall r :: r in scored ==> r.reviewScore.Some?
    ensures SumOf(ScoreDistribution(scored), Share) == 1.0
  {
    SumOfPermutation(ScoreDistribution(scored), Map(Keys(scored, ScoreKey), ShareOfScore(scored)), Share);
    SharesAreFractions(scored);
    ScoreCountsSum(scored);
    RatioOfSelf(|scored| as real);
  }

  /** Every score listed in the distribution was given at least once. */
  lemma DistributionSharesPositive(scored: seq<Row>)
    ensures forall s :: s in ScoreDistribution(scored) ==> 0.0 < s.share <= 1.0
  {
    var ks := Keys(scored, ScoreKey);
    var d := ScoreDistribution(scored);
    forall s | s in d
      ensures 0.0 < s.share <= 1.0
    {
      assert s in multiset(d);
      var i :| 0 <= i < |ks| && ShareOfScore(scored)(ks[i]) == s;
      var m := Members(scored, ScoreKey, ks[i]);
      assert s.share == |m| as real / |scored| as real;
      GroupNonEmpty(scored, ScoreKey, ks[i]);
      RatioPositive(|m| as real, |scored| as real);
      RatioAtMostOne(|m| as real, |scored| as real);
    }
  }

  // ---------------------------------------------------------------- delivery

  /** `dropna(subset=['delivery_days'])`. */
  function HasDays(r: Row): bool { r.deliveryDays.Some? }

  function Days(r: Row): real { if r.deliveryDays.Some? then r.deliveryDays.value as real else 0.0 }

  function SpeedKey(r: Row): Option<string> { r.deliveryCategory }

  /** One row of `delivery_satisfaction`: a speed bucket's mean review (NaN when none) and distinct orders. */
  datatype Satisfaction = Satisfaction(deliveryCategory: string, reviewScore: Num, orders: nat)

  function SatisfactionOf(delivered: seq<Row>): string -> Satisfaction
  {
    (c: string) =>
      var g := Members(delivered, SpeedKey, c);
      var scored := Filter(g, HasScore);
      Satisfaction(c, if |scored| == 0 then NaN else Finite(Mean(scored, Score)), |Keys(g, OrderKey)|)
  }

  /** `groupby` sorts its string keys. */
  function ByCategoryName(a: Satisfaction, b: Satisfaction): bool
  {
    LexLe(a.deliveryCategory, b.deliveryCategory)
  }

  lemma ByCategoryNameIsTotal()
    ensures TotalPreorder(ByCategoryName)
  {
    forall a: Satisfaction, b: Satisfaction
      ensures ByCategoryName(a, b) || ByCategoryName(b, a)
    {
      LexTotal(a.deliveryCategory, b.deliveryCategory);
    }
    forall a: Satisfaction, b: Satisfaction, c: Satisfaction | ByCategoryName(a, b) && ByCategoryName(b, c)
      ensures ByCategoryName(a, c)
    {
      LexTransitive(a.deliveryCategory, b.deliveryCategory, c.deliveryCategory);
    }
  }

  /** `groupby('delivery_category').agg({'review_score': 'mean', 'order_id': 'nunique'})`. */
  function DeliverySatisfaction(delivered: seq<Row>): (s: seq<Satisfaction>)
    ensures Sorted(s, ByCategoryName)
    ensures multiset(s) == multiset(Map(Keys(delivered, SpeedKey), SatisfactionOf(delivered)))
  {
    ByCategoryNameIsTotal();
    SortBy(Map(Keys(delivered, SpeedKey), SatisfactionOf(delivered)), ByCategoryName)
  }

  datatype DeliveryStats = DeliveryStats(
    avgDeliveryDays: real,
    medianDeliveryDays: real,
    satisfaction: Option<seq<Satisfaction>>)

  /**
   * The delivery keys of the metrics: present only when the column exists and some
   * row has delivery days.  The bucket table is built only when `delivery_category`
   * exists, and its aggregation names `review_score`, so it raises `KeyError` when
   * that column is missing.
   */
  function DeliveryAnalysis(t: Table): (r: Result<Option<DeliveryStats>>)
    ensures r.Failure? <==>
      && t.schema.hasDeliveryDays && t.schema.hasDeliveryCategory && !t.schema.hasReview
      && exists x :: x in t.rows && HasDays(x)
    ensures r.Failure? ==> r.error == MissingColumn("review_score")
    ensures r.Success? && r.value.Some? <==>
      && t.schema.hasDeliveryDays && (exists x :: x in t.rows && HasDays(x))
      && (t.schema.hasDeliveryCategory ==> t.schema.hasReview)
    ensures r.Success? && r.value.Some? ==>
      var delivered := Filter(t.rows, HasDays);
      && |delivered| > 0
      && r.value.value.avgDeliveryDays == Mean(delivered, Days)
      && r.value.value.medianDeliveryDays == Median(Map(delivered, Days))
      && (r.value.value.satisfaction.Some? <==> t.schema.hasDeliveryCategory)
      && (r.value.value.satisfaction.Some? ==> r.value.value.satisfaction.value == DeliverySatisfaction(delivered))
  {
    var delivered := Filter(t.rows, HasDays);
    FilterEmpty(t.rows, HasDays);
    if !t.schema.hasDeliveryDays || |delivered| == 0 then Success(None)
    else if t.schema.hasDeliveryCategory && !t.schema.hasReview then Failure(MissingColumn("review_score"))
    else
      var satisfaction := if t.schema.hasDeliveryCategory then Some(DeliverySatisfaction(delivered)) else None;
      Success(Some(DeliveryStats(Mean(delivered, Days), Median(Map(delivered, Days)), satisfaction)))
  }

  datatype CustomerExperience = CustomerExperience(review: Option<ReviewStats>, delivery: Option<DeliveryStats>)

  /** `analyze_customer_experience(df)`: the review keys, then the delivery keys; a `KeyError` in the latter escapes. */
  function AnalyzeCustomerExperience(t: Table): (r: Result<CustomerExperience>)
    ensures r.Failure? <==> DeliveryAnalysis(t).Failure?
    ensures r.Success? ==> r.value.review == ReviewAnalysis(t) && r.value.delivery == DeliveryAnalysis(t).value
  {
    match DeliveryAnalysis(t)
    case Failure(e) => Failure(e)
    case Success(delivery) => Success(CustomerExperience(ReviewAnalysis(t), delivery))
  }

  /** The average delivery time lies within any bounds on the individual delivery times. */
  lemma AverageDeliveryWithin(t: Table, lo: real, hi: real)
    requires forall r :: r in t.rows && r.deliveryDays.Some? ==> lo <= r.deliveryDays.value as real <= hi
    ensures DeliveryAnalysis(t).Success? && DeliveryAnalysis(t).value.Some? ==>
      lo <= DeliveryAnalysis(t).value.value.avgDeliveryDays <= hi
  {
    var delivered := Filter(t.rows, HasDays);
    if DeliveryAnalysis(t).Success? && DeliveryAnalysis(t).value.Some? {
      MeanBounds(delivered, Days, lo, hi);
    }
  }

  /** Each row of the bucket table is the aggregate of one speed bucket that occurs. */
  lemma SatisfactionGroups(delivered: seq<Row>)
    ensures forall s :: s in DeliverySatisfaction(delivered) ==>
      s.deliveryCategory in Keys(delivered, SpeedKey) && s == SatisfactionOf(delivered)(s.deliveryCategory)
  {
    var sat := DeliverySatisfaction(delivered);
    forall s | s in sat
      ensures s.deliveryCategory in Keys(delivered, SpeedKey) && s == SatisfactionOf(delivered)(s.deliveryCategory)
    {
      assert s in multiset(sat);
    }
  }

  /** A bucket that occurs has an order, and its mean review is undefined exactly when none of its rows has a review. */
  lemma BucketAggregate(delivered: seq<Row>, c: string)
    requires c in Keys(delivered, SpeedKey)
    ensures SatisfactionOf(delivered)(c).orders >= 1
    ensures SatisfactionOf(delivered)(c).reviewScore.NaN? <==>
      forall r :: r in Members(delivered, SpeedKey, c) ==> r.reviewScore.None?
  {
    var g := Members(delivered, SpeedKey, c);
    GroupNonEmpty(delivered, SpeedKey, c);
    KeysBound(g, OrderKey);
    FilterEmpty(g, HasScore);
  }

  /**
   * The bucket table lists each speed bucket that occurs among delivered rows once,
   * in strictly ascending name order; each has an order, and its mean review is
   * undefined exactly when none of its rows has a review.
   */
  lemma SatisfactionBuckets(delivered: seq<Row>)
    ensures forall i, j :: 0 <= i < j < |DeliverySatisfaction(delivered)| ==>
      && LexLe(DeliverySatisfaction(delivered)[i].deliveryCategory, DeliverySatisfaction(delivered)[j].deliveryCategory)
      && DeliverySatisfaction(delivered)[i].deliveryCategory != DeliverySatisfaction(delivered)[j].deliveryCategory
    ensures forall s :: s in DeliverySatisfaction(delivered) ==>
      && s.deliveryCategory in Keys(delivered, SpeedKey)
      && s.orders >= 1
      && (s.reviewScore.NaN? <==> forall r :: r in Members(delivered, SpeedKey, s.deliveryCategory) ==> r.reviewScore.None?)
  {
    var ks := Keys(delivered, SpeedKey);
    var sat := DeliverySatisfaction(delivered);
    MapDistinct(ks, SatisfactionOf(delivered));
    PermutationDistinct(Map(ks, SatisfactionOf(delivered)), sat);
    SatisfactionGroups(delivered);
    forall s | s in sat
      ensures s.orders >= 1
      ensures s.reviewScore.NaN? <==> forall r :: r in Members(delivered, SpeedKey, s.deliveryCategory) ==> r.reviewScore.None?
    {
      BucketAggregate(delivered, s.deliveryCategory);
    }
    forall i, j | 0 <= i < j < |sat|
      ensures sat[i].deliveryCategory != sat[j].deliveryCategory
    {
      assert sat[i] in sat && sat[j] in sat;
    }
  }

  /**
   * On a table whose delivery columns were derived from its delivery dates, no
   * bucket of the satisfaction table is "Unknown": rows without delivery days are
   * dropped first.
   */
  lemma NoUnknownBucket(t: Table)
    ensures forall s :: s in DeliverySatisfaction(Filter(AddDeliveryColumns(t).rows, HasDays)) ==>
      s.deliveryCategory != "Unknown"
  {
    var delivered := Filter(AddDeliveryColumns(t).rows, HasDays);
    SatisfactionBuckets(delivered);
    TimedRowsHaveKnownSpeed(t);
    forall s | s in DeliverySatisfaction(delivered)
      ensures s.deliveryCategory != "Unknown"
    {
      var i :| 0 <= i < |delivered| && SpeedKey(delivered[i]) == Some(s.deliveryCategory);
      assert delivered[i] in delivered;
    }
  }
}
