/**
 * `calculate_cohort_analysis`: customers grouped by the calendar month of their
 * first purchase, and for each such cohort and each number of months since then,
 * how many distinct customers of the cohort bought in that month.
 */
module Cohort {
  import opened Wrappers
  import opened Collections
  import opened Sorting
  import opened Records

  /** `order_purchase_timestamp.dt.to_period('M')`, as a month index. */
  function PurchaseMonth(r: Row): int
  {
    MonthIndex(r.purchase.date.year, r.purchase.date.month)
  }

  /** A row with the earliest purchase timestamp of a non-empty group. */
  function Earliest(g: seq<Row>): (e: Row)
    requires |g| > 0
    ensures e in g
    ensures forall r :: r in g ==> NotAfter(e.purchase, r.purchase)
  {
    if |g| == 1 then g[0]
    else
      var rest := Earliest(g[1..]);
      assert forall r :: r in g ==> r == g[0] || r in g[1..];
      if NotAfter(g[0].purchase, rest.purchase) then g[0] else rest
  }

  /** An earlier timestamp never falls in a later calendar month. */
  lemma NotAfterMonth(a: Timestamp, b: Timestamp)
    requires 1 <= a.date.month <= 12 && 1 <= b.date.month <= 12
    requires NotAfter(a, b)
    ensures MonthIndex(a.date.year, a.date.month) <= MonthIndex(b.date.year, b.date.month)
  {
  }

  function CustomerRows(rows: seq<Row>, c: string): seq<Row>
  {
    Members(rows, CustomerKey, c)
  }

  /**
   * `groupby('customer_id')['order_purchase_timestamp'].min()` taken to its month:
   * the customer's cohort.
   */
  function CohortOf(rows: seq<Row>, c: string): int
  {
    var g := CustomerRows(rows, c);
    if |g| == 0 then 0 else PurchaseMonth(Earliest(g))
  }

  /** `period_number`: whole calendar months from the customer's cohort to this purchase. */
  function PeriodNumber(rows: seq<Row>, r: Row): int
  {
    PurchaseMonth(r) - CohortOf(rows, r.customerId)
  }

  /** One cell of the pivot: a cohort and a period number. */
  datatype Cell = Cell(cohort: int, period: int)

  function CellKey(rows: seq<Row>): Row -> Option<Cell>
  {
    (r: Row) => Some(Cell(CohortOf(rows, r.customerId), PeriodNumber(rows, r)))
  }

  function CohortKey(rows: seq<Row>): Row -> Option<int>
  {
    (r: Row) => Some(CohortOf(rows, r.customerId))
  }

  function PeriodKey(rows: seq<Row>): Row -> Option<int>
  {
    (r: Row) => Some(PeriodNumber(rows, r))
  }

  /** The distinct customers who bought in a cell: `['customer_id'].nunique()` of its group. */
  function CellCustomers(rows: seq<Row>, cell: Cell): seq<string>
  {
    Keys(Members(rows, CellKey(rows), cell), CustomerKey)
  }

  function IntLe(a: int, b: int): bool { a <= b }

  lemma IntLeIsTotal()
    ensures TotalPreorder(IntLe)
  {
  }

  /** Distinct labels in ascending order, as `pivot` lays out its index and columns. */
  function Ascending(ks: seq<int>): (r: seq<int>)
    requires Distinct(ks)
    ensures multiset(r) == multiset(ks)
    ensures forall i, j :: 0 <= i < j < |r| ==> r[i] < r[j]
  {
    IntLeIsTotal();
    var r := SortBy(ks, IntLe);
    PermutationDistinct(ks, r);
    r
  }

  /**
   * The pivoted table: its row labels (cohorts), its column labels (period numbers)
   * and the cells that hold a count; every other cell is NaN.
   */
  datatype CohortTable = CohortTable(cohorts: seq<int>, periods: seq<int>, counts: map<Cell, nat>)

  /**
   * `calculate_cohort_analysis(df)`.  The merge with the per-customer cohorts is an
   * inner join on `customer_id` that every row matches once, so each row is kept.
   */
  function CalculateCohortAnalysis(t: Table): (c: CohortTable)
    ensures forall i, j :: 0 <= i < j < |c.cohorts| ==> c.cohorts[i] < c.cohorts[j]
    ensures forall k :: k in c.cohorts <==> k in Keys(t.rows, CohortKey(t.rows))
    ensures forall i, j :: 0 <= i < j < |c.periods| ==> c.periods[i] < c.periods[j]
    ensures forall p :: p in c.periods <==> p in Keys(t.rows, PeriodKey(t.rows))
    ensures forall cell :: cell in c.counts <==> cell in Keys(t.rows, CellKey(t.rows))
    ensures forall cell :: cell in c.counts ==> c.counts[cell] == |CellCustomers(t.rows, cell)|
  {
    var cells := Keys(t.rows, CellKey(t.rows));
    var cohorts := Ascending(Keys(t.rows, CohortKey(t.rows)));
    var periods := Ascending(Keys(t.rows, PeriodKey(t.rows)));
    assert forall k :: k in cohorts <==> k in multiset(cohorts);
    assert forall p :: p in periods <==> p in multiset(periods);
    CohortTable(cohorts, periods, map cell | cell in cells :: |CellCustomers(t.rows, cell)|)
  }

  /** Purchase timestamps carry a month in 1..12, as every pandas timestamp does. */
  ghost predicate ValidMonths(rows: seq<Row>)
  {
    forall r :: r in rows ==> 1 <= r.purchase.date.month <= 12
  }

  /**
   * A customer's cohort is the month of one of their purchases, and no purchase of
   * theirs falls in an earlier month.
   */
  lemma CohortIsFirstPurchaseMonth(rows: seq<Row>, r: Row)
    requires ValidMonths(rows)
    requires r in rows
    ensures CohortOf(rows, r.customerId) <= PurchaseMonth(r)
    ensures exists e :: e in rows && e.customerId == r.customerId && PurchaseMonth(e) == CohortOf(rows, r.customerId)
  {
    var g := CustomerRows(rows, r.customerId);
    assert r in g;
    var e := Earliest(g);
    NotAfterMonth(e.purchase, r.purchase);
  }

  /** Every period number is at least 0. */
  lemma PeriodsNonNegative(t: Table)
    requires ValidMonths(t.rows)
    ensures forall p :: p in CalculateCohortAnalysis(t).periods ==> p >= 0
    ensures forall cell :: cell in CalculateCohortAnalysis(t).counts ==> cell.period >= 0
  {
    var rows := t.rows;
    forall p | p in Keys(rows, PeriodKey(rows))
      ensures p >= 0
    {
      var i :| 0 <= i < |rows| && PeriodKey(rows)(rows[i]) == Some(p);
      CohortIsFirstPurchaseMonth(rows, rows[i]);
    }
    forall cell | cell in Keys(rows, CellKey(rows))
      ensures cell.period >= 0
    {
      var i :| 0 <= i < |rows| && CellKey(rows)(rows[i]) == Some(cell);
      CohortIsFirstPurchaseMonth(rows, rows[i]);
    }
  }

  /** The row of a customer's first purchase lies in period 0 of their cohort. */
  lemma FirstPurchaseInPeriodZero(rows: seq<Row>, c: string)
    requires |CustomerRows(rows, c)| > 0
    ensures Cell(CohortOf(rows, c), 0) in Keys(rows, CellKey(rows))
    ensures c in CellCustomers(rows, Cell(CohortOf(rows, c), 0))
  {
    var e := Earliest(CustomerRows(rows, c));
    assert CellKey(rows)(e) == Some(Cell(CohortOf(rows, c), 0));
    KeyOfRow(rows, CellKey(rows), e);
    KeyOfRow(Members(rows, CellKey(rows), Cell(CohortOf(rows, c), 0)), CustomerKey, e);
  }

  /** Every customer is counted in period 0 of their own cohort. */
  lemma EveryCustomerInPeriodZero(t: Table)
    ensures forall r :: r in t.rows ==>
      && Cell(CohortOf(t.rows, r.customerId), 0) in CalculateCohortAnalysis(t).counts
      && CalculateCohortAnalysis(t).counts[Cell(CohortOf(t.rows, r.customerId), 0)] >= 1
  {
    forall r | r in t.rows
      ensures Cell(CohortOf(t.rows, r.customerId), 0) in Keys(t.rows, CellKey(t.rows))
      ensures |CellCustomers(t.rows, Cell(CohortOf(t.rows, r.customerId), 0))| >= 1
    {
      assert r in CustomerRows(t.rows, r.customerId);
      FirstPurchaseInPeriodZero(t.rows, r.customerId);
    }
  }

  /** Every customer counted in a cell is also counted in period 0 of the same cohort. */
  lemma CellCustomersStartedInCohort(rows: seq<Row>, cell: Cell, c: string)
    requires c in CellCustomers(rows, cell)
    ensures c in CellCustomers(rows, Cell(cell.cohort, 0))
  {
    var g := Members(rows, CellKey(rows), cell);
    var i :| 0 <= i < |g| && CustomerKey(g[i]) == Some(c);
    assert g[i] in g;
    assert g[i] in CustomerRows(rows, c);
    FirstPurchaseInPeriodZero(rows, c);
  }

  /**
   * No cell counts more customers than its cohort has: a cohort's size is its
   * period-0 count, and every cell holds at least one customer.
   */
  lemma CellsWithinCohortSize(t: Table)
    ensures forall cell :: cell in CalculateCohortAnalysis(t).counts ==>
      && Cell(cell.cohort, 0) in CalculateCohortAnalysis(t).counts
      && 1 <= CalculateCohortAnalysis(t).counts[cell] <= CalculateCohortAnalysis(t).counts[Cell(cell.cohort, 0)]
  {
    forall cell | cell in Keys(t.rows, CellKey(t.rows))
      ensures Cell(cell.cohort, 0) in Keys(t.rows, CellKey(t.rows))
      ensures 1 <= |CellCustomers(t.rows, cell)| <= |CellCustomers(t.rows, Cell(cell.cohort, 0))|
    {
      CellWithinCohort(t.rows, cell);
    }
  }

  /** One cell that occurs: its cohort's period-0 cell occurs and holds all of its customers. */
  lemma CellWithinCohort(rows: seq<Row>, cell: Cell)
    requires cell in Keys(rows, CellKey(rows))
    ensures Cell(cell.cohort, 0) in Keys(rows, CellKey(rows))
    ensures 1 <= |CellCustomers(rows, cell)| <= |CellCustomers(rows, Cell(cell.cohort, 0))|
  {
    var i :| 0 <= i < |rows| && CellKey(rows)(rows[i]) == Some(cell);
    var r := rows[i];
    assert r in CustomerRows(rows, r.customerId);
    FirstPurchaseInPeriodZero(rows, r.customerId);
    KeyOfRow(Members(rows, CellKey(rows), cell), CustomerKey, r);
    forall c | c in CellCustomers(rows, cell)
      ensures c in CellCustomers(rows, Cell(cell.cohort, 0))
    {
      CellCustomersStartedInCohort(rows, cell, c);
    }
    DistinctSubsetLength(CellCustomers(rows, cell), CellCustomers(rows, Cell(cell.cohort, 0)));
  }
}
