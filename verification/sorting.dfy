/**
 * Ranking: pandas `sort_values`, `head` and `nlargest`.  `sort_values` uses an
 * unstable sort, so every contract here promises only an order consistent with
 * the comparison and a permutation of the input, never a particular order of ties.
 */
module Sorting {
  import opened Collections

  /** `le(a, b)`: `a` may come before `b`.  A total preorder ranks every pair. */
  ghost predicate TotalPreorder<T(!new)>(le: (T, T) -> bool)
  {
    && (forall a, b :: le(a, b) || le(b, a))
    && (forall a, b, c :: le(a, b) && le(b, c) ==> le(a, c))
  }

  ghost predicate Sorted<T>(s: seq<T>, le: (T, T) -> bool)
  {
    forall i, j :: 0 <= i < j < |s| ==> le(s[i], s[j])
  }

  function Insert<T(!new)>(x: T, s: seq<T>, le: (T, T) -> bool): (r: seq<T>)
    requires TotalPreorder(le) && Sorted(s, le)
    ensures Sorted(r, le)
    ensures multiset(r) == multiset(s) + multiset{x}
  {
    if |s| == 0 then [x]
    else if le(x, s[0]) then
      assert forall j :: 0 < j < |s| ==> le(x, s[j]);
      [x] + s
    else
      var rest := Insert(x, s[1..], le);
      InsertAfterHead(x, s, rest, le);
      [s[0]] + rest
  }

  /** Putting the head of `s` before a sorted insertion into its tail keeps the order. */
  lemma InsertAfterHead<T(!new)>(x: T, s: seq<T>, rest: seq<T>, le: (T, T) -> bool)
    requires TotalPreorder(le) && Sorted(s, le) && |s| > 0 && !le(x, s[0])
    requires Sorted(rest, le) && multiset(rest) == multiset(s[1..]) + multiset{x}
    ensures Sorted([s[0]] + rest, le)
    ensures multiset([s[0]] + rest) == multiset(s) + multiset{x}
  {
    assert s == [s[0]] + s[1..];
    forall j | 0 <= j < |rest|
      ensures le(s[0], rest[j])
    {
      assert rest[j] in multiset(rest);
      if rest[j] != x {
        assert rest[j] in multiset(s[1..]);
        var k :| 0 <= k < |s[1..]| && s[1..][k] == rest[j];
        assert s[k + 1] == rest[j];
      }
    }
    var r := [s[0]] + rest;
    forall i, j | 0 <= i < j < |r|
      ensures le(r[i], r[j])
    {
      if i > 0 {
        assert r[i] == rest[i - 1] && r[j] == rest[j - 1];
      } else {
        assert r[j] == rest[j - 1];
      }
    }
  }

  /** A sorted permutation of `s`. */
  function SortBy<T(!new)>(s: seq<T>, le: (T, T) -> bool): (r: seq<T>)
    requires TotalPreorder(le)
    ensures Sorted(r, le)
    ensures multiset(r) == multiset(s)
    ensures |r| == |s|
  {
    if |s| == 0 then []
    else
      assert s == s[..|s| - 1] + [s[|s| - 1]];
      var r := Insert(s[|s| - 1], SortBy(s[..|s| - 1], le), le);
      assert |r| == |multiset(r)| == |multiset(s)| == |s|;
      r
  }

  /** How many rows pandas' `head(n)` keeps of `len`: a negative `n` drops the last `-n`. */
  function HeadLength(len: nat, n: int): nat
  {
    if n >= 0 then Min(n, len) else Max(len + n, 0)
  }

  /** pandas `head(n)`. */
  function Head<T>(s: seq<T>, n: int): (r: seq<T>)
    ensures |r| == HeadLength(|s|, n)
    ensures r == s[..|r|]
  {
    s[..HeadLength(|s|, n)]
  }

  /** The first rows of a mapped sequence are the images of its first rows. */
  lemma HeadMap<A(!new), B(!new)>(s: seq<A>, f: A -> B, n: int)
    ensures |Head(Map(s, f), n)| == |Head(s, n)|
    ensures forall i :: 0 <= i < |Head(s, n)| ==> Head(Map(s, f), n)[i] == f(Head(s, n)[i])
  {
  }

  /** Asking for at least as many rows as there are keeps them all. */
  lemma HeadAll<T>(s: seq<T>, n: int)
    requires n >= |s|
    ensures Head(s, n) == s
  {
  }

  /** The first rows of a sequence are rows of it. */
  lemma HeadMembers<T>(s: seq<T>, n: int)
    ensures forall x :: x in Head(s, n) ==> x in s
  {
  }

  /** The first rows of a sequence of non-negative values sum to at most the whole. */
  lemma HeadSumBound<T(!new)>(s: seq<T>, n: int, f: T -> real)
    requires forall x :: x in s ==> f(x) >= 0.0
    ensures SumOf(Head(s, n), f) <= SumOf(s, f)
  {
    SumOfPrefix(s, |Head(s, n)|, f);
  }

  /**
   * `sort_values(...).head(n)`: the first rows of a sorted permutation of `s`.
   * Nothing left out of the result ranks strictly before anything kept in it.
   */
  function TopN<T(!new)>(s: seq<T>, le: (T, T) -> bool, n: int): (r: seq<T>)
    requires TotalPreorder(le)
    ensures Sorted(r, le)
    ensures |r| == HeadLength(|s|, n)
    ensures multiset(r) <= multiset(s)
    ensures forall g, i :: g in s && g !in r && 0 <= i < |r| ==> le(r[i], g)
  {
    var sorted := SortBy(s, le);
    var r := Head(sorted, n);
    assert sorted == r + sorted[|r|..];
    assert multiset(sorted) == multiset(r) + multiset(sorted[|r|..]);
    PrefixRanksFirst(sorted, |r|, le);
    assert forall g :: g in s ==> g in multiset(sorted);
    r
  }

  /** In a sorted sequence, every element past the first `k` ranks after each of the first `k`. */
  lemma PrefixRanksFirst<T(!new)>(sorted: seq<T>, k: nat, le: (T, T) -> bool)
    requires k <= |sorted| && Sorted(sorted, le)
    ensures forall g, i :: g in sorted && g !in sorted[..k] && 0 <= i < k ==> le(sorted[i], g)
  {
    forall g, i | g in sorted && g !in sorted[..k] && 0 <= i < k
      ensures le(sorted[i], g)
    {
      var j :| 0 <= j < |sorted| && sorted[j] == g;
      assert j >= k;
    }
  }

  /** pandas `nlargest(n, column)`: nothing for `n <= 0`, otherwise the top `n`. */
  function NLargest<T(!new)>(s: seq<T>, le: (T, T) -> bool, n: int): (r: seq<T>)
    requires TotalPreorder(le)
    ensures Sorted(r, le)
    ensures |r| == if n <= 0 then 0 else Min(n, |s|)
    ensures multiset(r) <= multiset(s)
    ensures forall g, i :: g in s && g !in r && 0 <= i < |r| ==> le(r[i], g)
  {
    if n <= 0 then [] else TopN(s, le, n)
  }

  function AtMost(a: real, b: real): bool { a <= b }

  function AtMostOf(m: real): real -> bool { x => x <= m }

  function AtLeastOf(m: real): real -> bool { x => x >= m }

  /** pandas `median()`: the middle value, or the mean of the two middle values; NaN when empty. */
  function Median(values: seq<real>): (m: real)
    requires |values| > 0
    ensures exists i :: 0 <= i < |values| && values[i] <= m
    ensures exists j :: 0 <= j < |values| && m <= values[j]
    ensures 2 * |Filter(values, AtMostOf(m))| >= |values|
    ensures 2 * |Filter(values, AtLeastOf(m))| >= |values|
  {
    var sorted := SortBy(values, AtMost);
    var lo, hi := sorted[(|values| - 1) / 2], sorted[|values| / 2];
    var m := (lo + hi) / 2.0;
    MedianWithin(values, sorted, m);
    MedianCounts(values, sorted, m);
    m
  }

  lemma MedianWithin(values: seq<real>, sorted: seq<real>, m: real)
    requires |values| > 0
    requires sorted == SortBy(values, AtMost)
    requires m == (sorted[(|values| - 1) / 2] + sorted[|values| / 2]) / 2.0
    ensures sorted[(|values| - 1) / 2] <= m <= sorted[|values| / 2]
    ensures exists i :: 0 <= i < |values| && values[i] <= m
    ensures exists j :: 0 <= j < |values| && m <= values[j]
  {
    var n := |values|;
    var lo, hi := sorted[(n - 1) / 2], sorted[n / 2];
    assert (n - 1) / 2 == n / 2 || AtMost(lo, hi);
    assert lo in multiset(values);
    assert hi in multiset(values);
    var i :| 0 <= i < n && values[i] == lo;
    var j :| 0 <= j < n && values[j] == hi;
  }

  lemma MedianCounts(values: seq<real>, sorted: seq<real>, m: real)
    requires |values| > 0
    requires sorted == SortBy(values, AtMost)
    requires sorted[(|values| - 1) / 2] <= m <= sorted[|values| / 2]
    ensures 2 * |Filter(values, AtMostOf(m))| >= |values|
    ensures 2 * |Filter(values, AtLeastOf(m))| >= |values|
  {
    var n := |values|;
    FilterPermutation(values, sorted, AtMostOf(m));
    FilterPermutation(values, sorted, AtLeastOf(m));
    CountBelow(sorted, (n - 1) / 2, m);
    CountAbove(sorted, n / 2, m);
  }

  lemma CountBelow(sorted: seq<real>, k: nat, m: real)
    requires Sorted(sorted, AtMost) && k < |sorted| && sorted[k] <= m
    ensures |Filter(sorted, AtMostOf(m))| >= k + 1
  {
    forall i | 0 <= i < k + 1
      ensures AtMostOf(m)(sorted[i])
    {
      assert i == k || AtMost(sorted[i], sorted[k]);
    }
    FilterPrefixCount(sorted, k + 1, AtMostOf(m));
  }

  lemma CountAbove(sorted: seq<real>, k: nat, m: real)
    requires Sorted(sorted, AtMost) && k < |sorted| && m <= sorted[k]
    ensures |Filter(sorted, AtLeastOf(m))| >= |sorted| - k
  {
    forall i | k <= i < |sorted|
      ensures AtLeastOf(m)(sorted[i])
    {
      assert i == k || AtMost(sorted[k], sorted[i]);
    }
    FilterSuffixCount(sorted, k, AtLeastOf(m));
  }

  /** Lexicographic order of strings, the order pandas gives string group keys. */
  function LexLe(a: string, b: string): bool
  {
    if |a| == 0 then true
    else if |b| == 0 then false
    else if a[0] != b[0] then a[0] < b[0]
    else LexLe(a[1..], b[1..])
  }

  lemma {:induction false} LexTotal(a: string, b: string)
    ensures LexLe(a, b) || LexLe(b, a)
  {
    if |a| > 0 && |b| > 0 && a[0] == b[0] {
      LexTotal(a[1..], b[1..]);
    }
  }

  lemma {:induction false} LexTransitive(a: string, b: string, c: string)
    requires LexLe(a, b) && LexLe(b, c)
    ensures LexLe(a, c)
  {
    if |a| > 0 && |b| > 0 && |c| > 0 && a[0] == b[0] && b[0] == c[0] {
      LexTransitive(a[1..], b[1..], c[1..]);
    }
  }

  lemma {:induction false} LexAntisymmetric(a: string, b: string)
    requires LexLe(a, b) && LexLe(b, a)
    ensures a == b
  {
    if |a| > 0 && |b| > 0 {
      LexAntisymmetric(a[1..], b[1..]);
      assert a == [a[0]] + a[1..] && b == [b[0]] + b[1..];
    }
  }
}
