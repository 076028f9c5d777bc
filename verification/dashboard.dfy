/**
 * The pure helpers of the dashboard: the number-formatting branches, the trend
 * indicator beside each KPI, and the comparison window placed immediately before
 * the selected date range.
 */
module Dashboard {
  import opened Wrappers
  import opened Floats
  import opened Collections
  import opened Records

  /** Python's `a >= b` against a finite bound: false for NaN. */
  predicate AtLeast(a: Num, b: real)
  {
    match a
    case Finite(x) => x >= b
    case PosInf => true
    case _ => false
  }

  /**
   * A formatted figure: its prefix, the amount printed, the number of decimals it
   * is printed with, and its suffix.  Rendering the amount as text is left out.
   */
  datatype Formatted = Formatted(prefix: string, amount: Num, decimals: nat, suffix: string)

  /** `format_number(value)`: millions with one decimal, thousands and units with none. */
  function FormatNumber(value: Num): (f: Formatted)
    ensures f.prefix == ""
    ensures f.suffix == "M" <==> AtLeast(value, 1000000.0)
    ensures f.suffix == "K" <==> !AtLeast(value, 1000000.0) && AtLeast(value, 1000.0)
    ensures f.suffix == "" <==> !AtLeast(value, 1000.0)
    ensures f.decimals == if f.suffix == "M" then 1 else 0
    ensures f.suffix == "M" ==> f.amount == Scale(value, 0.000001)
    ensures f.suffix == "K" ==> f.amount == Scale(value, 0.001)
    ensures f.suffix == "" ==> f.amount == value
  {
    if AtLeast(value, 1000000.0) then Formatted("", Scale(value, 0.000001), 1, "M")
    else if AtLeast(value, 1000.0) then Formatted("", Scale(value, 0.001), 0, "K")
    else Formatted("", value, 0, "")
  }

  /** `format_currency(value)`: the same branches as `format_number`, after a dollar sign. */
  function FormatCurrency(value: Num): (f: Formatted)
    ensures f.prefix == "$"
    ensures f.(prefix := "") == FormatNumber(value)
  {
    if AtLeast(value, 1000000.0) then Formatted("$", Scale(value, 0.000001), 1, "M")
    else if AtLeast(value, 1000.0) then Formatted("$", Scale(value, 0.001), 0, "K")
    else Formatted("$", value, 0, "")
  }

  /** A finite scaled amount is the value in millions or thousands: at least 1, and under 1000 for thousands. */
  lemma ScaledAmountsInRange(value: real)
    ensures FormatNumber(Finite(value)).suffix == "M" ==>
      FormatNumber(Finite(value)).amount.v * 1000000.0 == value && FormatNumber(Finite(value)).amount.v >= 1.0
    ensures FormatNumber(Finite(value)).suffix == "K" ==>
      FormatNumber(Finite(value)).amount.v * 1000.0 == value && 1.0 <= FormatNumber(Finite(value)).amount.v < 1000.0
  {
  }

  /** The trend badge: its arrow, its CSS class and the absolute percentage change. */
  datatype Trend = Trend(arrow: string, colorClass: string, percent: Num)

  /** `abs` of a float. */
  function Abs(a: Num): (r: Num)
    ensures a.Finite? ==> r == Finite(if a.v < 0.0 then -a.v else a.v)
    ensures a.NaN? <==> r.NaN?
    ensures !r.NegInf?
  {
    match a
    case Finite(x) => Finite(if x < 0.0 then -x else x)
    case NaN => NaN
    case _ => PosInf
  }

  /**
   * `create_trend_indicator(current, previous)`: nothing against a zero baseline;
   * otherwise up exactly when the percentage change is positive, down for a zero
   * or negative (or NaN) change, with the magnitude of the change.
   */
  function TrendIndicator(current: Num, previous: Num): (t: Option<Trend>)
    ensures t.None? <==> previous == Finite(0.0)
    ensures t.Some? ==>
      var change := Scale(Quot(Sub(current, previous), previous), 100.0);
      && (t.value.colorClass == "trend-up" <==> Less(Finite(0.0), change))
      && (t.value.colorClass == "trend-up" ==> t.value.arrow == "↗")
      && (t.value.colorClass != "trend-up" ==> t.value.colorClass == "trend-down" && t.value.arrow == "↘")
      && t.value.percent == Abs(change)
  {
    if previous == Finite(0.0) then None
    else
      var change := Scale(Quot(Sub(current, previous), previous), 100.0);
      if Less(Finite(0.0), change) then Some(Trend("↗", "trend-up", Abs(change)))
      else Some(Trend("↘", "trend-down", Abs(change)))
  }

  /** The quotient of a difference by a non-zero baseline is positive exactly when both have the same sign. */
  lemma ChangeSign(d: real, b: real)
    requires b != 0.0
    ensures d / b > 0.0 <==> (b > 0.0 && d > 0.0) || (b < 0.0 && d < 0.0)
  {
    if b > 0.0 {
      assert d / b * b == d;
    } else {
      assert d / b * b == d;
    }
  }

  /**
   * For finite figures and a non-zero baseline the badge points up exactly when the
   * figure moved away from zero in the baseline's direction: above a positive
   * baseline, or below a negative one.  An unchanged figure points down.
   */
  lemma TrendDirection(current: real, previous: real)
    requires previous != 0.0
    ensures TrendIndicator(Finite(current), Finite(previous)).Some?
    ensures TrendIndicator(Finite(current), Finite(previous)).value.colorClass == "trend-up" <==>
      (previous > 0.0 && current > previous) || (previous < 0.0 && current < previous)
    ensures current == previous ==> TrendIndicator(Finite(current), Finite(previous)).value.arrow == "↘"
    ensures TrendIndicator(Finite(current), Finite(previous)).value.percent.Finite?
    ensures TrendIndicator(Finite(current), Finite(previous)).value.percent.v >= 0.0
  {
    ChangeSign(current - previous, previous);
  }

  /** The date range the dashboard opens with, and the earliest date with data, as day numbers. */
  function DefaultStart(): int { DayNumber(Date(2022, 1, 1)) }

  function DefaultEnd(): int { DayNumber(Date(2023, 12, 31)) }

  function MinDate(): int { DayNumber(Date(2016, 1, 1)) }

  /** The selected range and the comparison range, as day numbers. */
  datatype Windows = Windows(start: int, end: int, comparisonStart: int, comparisonEnd: int)

  /**
   * The period computation in `main`: a selection of other than two dates falls
   * back to the default range; the comparison range ends the day before the start,
   * spans as many days as the selection, and is moved up to 2016-01-01 when it
   * would begin earlier.
   */
  function ComparisonWindows(selection: seq<Date>): (w: Windows)
    ensures |selection| == 2 ==> w.start == DayNumber(selection[0]) && w.end == DayNumber(selection[1])
    ensures |selection| != 2 ==> w.start == DefaultStart() && w.end == DefaultEnd()
    ensures w.comparisonEnd == w.start - 1
    ensures w.comparisonStart >= MinDate()
    ensures w.comparisonStart == MinDate() || w.comparisonEnd - w.comparisonStart == w.end - w.start
    ensures w.comparisonEnd - (w.end - w.start) >= MinDate() ==> w.comparisonEnd - w.comparisonStart == w.end - w.start
  {
    var start := if |selection| == 2 then DayNumber(selection[0]) else DefaultStart();
    var end := if |selection| == 2 then DayNumber(selection[1]) else DefaultEnd();
    var periodLength := end - start;
    var comparisonEnd := start - 1;
    var comparisonStart := comparisonEnd - periodLength;
    Windows(start, end, if comparisonStart < MinDate() then MinDate() else comparisonStart, comparisonEnd)
  }

  /** The comparison range ends before the selection starts: the two never overlap. */
  lemma WindowsDisjoint(selection: seq<Date>)
    ensures ComparisonWindows(selection).comparisonEnd < ComparisonWindows(selection).start
  {
  }

  /** A selection starting on or before 2016-01-01 leaves an empty comparison range. */
  lemma EarlyStartEmptiesComparison(selection: seq<Date>)
    requires ComparisonWindows(selection).start <= MinDate()
    ensures ComparisonWindows(selection).comparisonStart > ComparisonWindows(selection).comparisonEnd
  {
  }

  /** The day numbers of the default range's ends. */
  lemma DefaultRangeDays()
    ensures DefaultStart() == 18993
    ensures DefaultEnd() == 19722
  {
  }

  /** The day number of the earliest date with data. */
  lemma MinDateDay()
    ensures MinDate() == 16801
  {
  }

  /** The day numbers of the default comparison range's ends. */
  lemma DefaultComparisonDays()
    ensures DayNumber(Date(2020, 1, 2)) == 18263
    ensures DayNumber(Date(2021, 12, 31)) == 18992
  {
  }

  /** The default range is 2022-01-01 to 2023-12-31, compared with 2020-01-02 to 2021-12-31. */
  lemma DefaultWindows(selection: seq<Date>)
    requires |selection| != 2
    ensures ComparisonWindows(selection) ==
      Windows(DayNumber(Date(2022, 1, 1)), DayNumber(Date(2023, 12, 31)),
              DayNumber(Date(2020, 1, 2)), DayNumber(Date(2021, 12, 31)))
  {
    DefaultRangeDays();
    MinDateDay();
    DefaultComparisonDays();
  }
}
