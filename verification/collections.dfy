/**
 * Sequence machinery shared by every analysis: sums, filters (pandas boolean
 * masks), distinct keys in first-occurrence order (pandas `groupby` keys and
 * `nunique`), and the lemmas that relate them.
 */
module Collections {
  import opened Wrappers

  ghost predicate Distinct<T>(s: seq<T>)
  {
    forall i, j :: 0 <= i < j < |s| ==> s[i] != s[j]
  }

  function Map<A(!new), B(!new)>(s: seq<A>, f: A -> B): (r: seq<B>)
    ensures |r| == |s|
    ensures forall i :: 0 <= i < |s| ==> r[i] == f(s[i])
  {
    seq(|s|, i requires 0 <= i < |s| => f(s[i]))
  }

  /** The sum of `f` over `s`; 0 for an empty sequence, as pandas' `sum()` gives. */
  function SumOf<T(!new)>(s: seq<T>, f: T -> real): real
  {
    if |s| == 0 then 0.0 else SumOf(s[..|s| - 1], f) + f(s[|s| - 1])
  }

  /** The rows a boolean mask keeps, in their original order. */
  function Filter<T(!new)>(s: seq<T>, p: T -> bool): (r: seq<T>)
    ensures |r| <= |s|
    ensures forall x :: x in r <==> x in s && p(x)
  {
    if |s| == 0 then []
    else
      assert s == s[..|s| - 1] + [s[|s| - 1]];
      Filter(s[..|s| - 1], p) + if p(s[|s| - 1]) then [s[|s| - 1]] else []
  }

  /** A mask keeps nothing exactly when no element passes it. */
  lemma FilterEmpty<T(!new)>(s: seq<T>, p: T -> bool)
    ensures |Filter(s, p)| == 0 <==> forall x :: x in s ==> !p(x)
  {
    if |Filter(s, p)| > 0 {
      assert Filter(s, p)[0] in Filter(s, p);
    }
  }

  /** A mask keeps every occurrence of the elements it accepts and none of the others. */
  lemma {:induction false} FilterMultiset<T(!new)>(s: seq<T>, p: T -> bool)
    ensures forall x :: multiset(Filter(s, p))[x] == if p(x) then multiset(s)[x] else 0
  {
    if |s| > 0 {
      FilterMultiset(s[..|s| - 1], p);
      assert s == s[..|s| - 1] + [s[|s| - 1]];
    }
  }

  /** The distinct non-missing keys of `s`, in order of first occurrence. */
  function Keys<T(!new), K(==,!new)>(s: seq<T>, key: T -> Option<K>): (ks: seq<K>)
    ensures Distinct(ks)
    ensures forall k :: k in ks <==> exists i :: 0 <= i < |s| && key(s[i]) == Some(k)
  {
    if |s| == 0 then []
    else
      var init := s[..|s| - 1];
      var ks := Keys(init, key);
      assert forall k :: (exists i :: 0 <= i < |init| && key(init[i]) == Some(k)) ==>
                         (exists i :: 0 <= i < |s| && key(s[i]) == Some(k));
      match key(s[|s| - 1])
      case None => ks
      case Some(k) => if k in ks then ks else ks + [k]
  }

  /** The rows whose key is `k`: one pandas group. */
  function Members<T(!new), K(==,!new)>(s: seq<T>, key: T -> Option<K>, k: K): (g: seq<T>)
    ensures |g| <= |s|
    ensures forall x :: x in g <==> x in s && key(x) == Some(k)
  {
    Filter(s, x => key(x) == Some(k))
  }

  /** The mask of rows that have a key. */
  function HasKey<T, K>(key: T -> Option<K>): T -> bool
  {
    x => key(x).Some?
  }

  /** The total of `f` over each group, as a function of the group's key. */
  function GroupTotal<T(!new), K(==,!new)>(s: seq<T>, key: T -> Option<K>, f: T -> real): K -> real
  {
    k => SumOf(Members(s, key, k), f)
  }

  function Mean<T(!new)>(s: seq<T>, f: T -> real): real
    requires |s| > 0
  {
    SumOf(s, f) / |s| as real
  }

  function Min(a: int, b: int): int { if a <= b then a else b }

  function Max(a: int, b: int): int { if a >= b then a else b }

  function Id(x: real): real { x }

  function One<T(!new)>(x: T): real { 1.0 }

  // ---------------------------------------------------------------- sums

  lemma {:induction false} SumOfAppend<T(!new)>(a: seq<T>, b: seq<T>, f: T -> real)
    ensures SumOf(a + b, f) == SumOf(a, f) + SumOf(b, f)
    decreases |b|
  {
    if |b| == 0 {
      assert a + b == a;
    } else {
      assert (a + b)[..|a + b| - 1] == a + b[..|b| - 1];
      SumOfAppend(a, b[..|b| - 1], f);
    }
  }

  lemma {:induction false} SumOfLinear<T(!new)>(s: seq<T>, f: T -> real, g: T -> real, h: T -> real)
    requires forall x :: x in s ==> f(x) == g(x) + h(x)
    ensures SumOf(s, f) == SumOf(s, g) + SumOf(s, h)
  {
    if |s| > 0 {
      SumOfLinear(s[..|s| - 1], f, g, h);
    }
  }

  lemma {:induction false} SumOfExt<T(!new)>(s: seq<T>, f: T -> real, g: T -> real)
    requires forall x :: x in s ==> f(x) == g(x)
    ensures SumOf(s, f) == SumOf(s, g)
  {
    if |s| > 0 {
      SumOfExt(s[..|s| - 1], f, g);
    }
  }

  lemma {:induction false} SumOfNonNegative<T(!new)>(s: seq<T>, f: T -> real)
    requires forall x :: x in s ==> f(x) >= 0.0
    ensures SumOf(s, f) >= 0.0
  {
    if |s| > 0 {
      SumOfNonNegative(s[..|s| - 1], f);
    }
  }

  lemma {:induction false} SumOfBounds<T(!new)>(s: seq<T>, f: T -> real, lo: real, hi: real)
    requires forall x :: x in s ==> lo <= f(x) <= hi
    ensures lo * |s| as real <= SumOf(s, f) <= hi * |s| as real
  {
    if |s| > 0 {
      SumOfBounds(s[..|s| - 1], f, lo, hi);
    }
  }

  /** The mean of values within bounds lies within the same bounds. */
  lemma MeanBounds<T(!new)>(s: seq<T>, f: T -> real, lo: real, hi: real)
    requires |s| > 0
    requires forall x :: x in s ==> lo <= f(x) <= hi
    ensures lo <= Mean(s, f) <= hi
  {
    SumOfBounds(s, f, lo, hi);
    var n := |s| as real;
    assert Mean(s, f) * n == SumOf(s, f);
  }

  /** A mean times the count is the sum. */
  lemma MeanTimesCount<T(!new)>(s: seq<T>, f: T -> real)
    requires |s| > 0
    ensures Mean(s, f) * |s| as real == SumOf(s, f)
  {
  }

  lemma {:induction false} SumOfOnes<T(!new)>(s: seq<T>)
    ensures SumOf(s, One) == |s| as real
  {
    if |s| > 0 {
      SumOfOnes(s[..|s| - 1]);
    }
  }

  lemma {:induction false} SumOfDiv<T(!new)>(s: seq<T>, f: T -> real, g: T -> real, c: real)
    requires c != 0.0
    requires forall x :: x in s ==> g(x) == f(x) / c
    ensures SumOf(s, g) == SumOf(s, f) / c
  {
    if |s| > 0 {
      SumOfDiv(s[..|s| - 1], f, g, c);
    }
  }

  lemma {:induction false} SumOfMap<A(!new), B(!new)>(s: seq<A>, m: A -> B, f: B -> real, g: A -> real)
    requires forall x :: x in s ==> g(x) == f(m(x))
    ensures SumOf(Map(s, m), f) == SumOf(s, g)
  {
    if |s| > 0 {
      assert Map(s, m)[..|s| - 1] == Map(s[..|s| - 1], m);
      SumOfMap(s[..|s| - 1], m, f, g);
    }
  }

  /** Two sequences whose terms agree position by position have the same sum. */
  lemma {:induction false} SumOfPointwise<A(!new), B(!new)>(a: seq<A>, f: A -> real, b: seq<B>, g: B -> real)
    requires |a| == |b|
    requires forall i :: 0 <= i < |a| ==> f(a[i]) == g(b[i])
    ensures SumOf(a, f) == SumOf(b, g)
  {
    if |a| > 0 {
      SumOfPointwise(a[..|a| - 1], f, b[..|b| - 1], g);
    }
  }

  /** Taking out the element at `j` takes one copy of it out of the multiset. */
  lemma RemoveAt<T>(s: seq<T>, j: nat)
    requires j < |s|
    ensures multiset(s[..j] + s[j + 1..]) == multiset(s) - multiset{s[j]}
  {
    assert s == s[..j] + [s[j]] + s[j + 1..];
  }

  /** Taking out the element at `j` takes its term out of the sum. */
  lemma SumOfRemove<T(!new)>(s: seq<T>, j: nat, f: T -> real)
    requires j < |s|
    ensures SumOf(s, f) == SumOf(s[..j] + s[j + 1..], f) + f(s[j])
  {
    var l, x, r := s[..j], s[j], s[j + 1..];
    assert SumOf(l + [x], f) == SumOf(l, f) + f(x) by {
      assert (l + [x])[..|l|] == l;
    }
    assert s == (l + [x]) + r;
    SumOfAppend(l + [x], r, f);
    SumOfAppend(l, r, f);
  }

  /** A sum does not depend on the order of its terms. */
  lemma {:induction false} SumOfPermutation<T(!new)>(a: seq<T>, b: seq<T>, f: T -> real)
    requires multiset(a) == multiset(b)
    ensures SumOf(a, f) == SumOf(b, f)
    decreases |a|
  {
    if |a| == 0 {
      assert |b| == |multiset(b)| == 0;
    } else {
      var x := a[|a| - 1];
      assert x in multiset(b);
      var j :| 0 <= j < |b| && b[j] == x;
      var a', b' := a[..|a| - 1] + a[|a|..], b[..j] + b[j + 1..];
      RemoveAt(a, |a| - 1);
      RemoveAt(b, j);
      assert multiset(a') == multiset(b');
      SumOfPermutation(a', b', f);
      SumOfRemove(a, |a| - 1, f);
      SumOfRemove(b, j, f);
    }
  }

  /** The sum over a prefix of non-negative terms is at most the whole sum. */
  lemma {:induction false} SumOfPrefix<T(!new)>(s: seq<T>, n: nat, f: T -> real)
    requires n <= |s|
    requires forall x :: x in s ==> f(x) >= 0.0
    ensures SumOf(s[..n], f) <= SumOf(s, f)
  {
    assert s == s[..n] + s[n..];
    SumOfAppend(s[..n], s[n..], f);
    SumOfNonNegative(s[n..], f);
  }

  /** A distinct key sequence mentions `k0` at most once. */
  lemma {:induction false} SumOfIndicator<K(!new)>(ks: seq<K>, k0: K, v: real, f: K -> real)
    requires Distinct(ks)
    requires forall k :: k in ks ==> f(k) == if k == k0 then v else 0.0
    ensures SumOf(ks, f) == if k0 in ks then v else 0.0
  {
    if |ks| > 0 {
      var init := ks[..|ks| - 1];
      assert Distinct(init);
      SumOfIndicator(init, k0, v, f);
      assert ks == init + [ks[|ks| - 1]];
    }
  }

  // ---------------------------------------------------------------- filters

  lemma {:induction false} FilterAppend<T(!new)>(a: seq<T>, b: seq<T>, p: T -> bool)
    ensures Filter(a + b, p) == Filter(a, p) + Filter(b, p)
    decreases |b|
  {
    if |b| == 0 {
      assert a + b == a;
    } else {
      assert (a + b)[..|a + b| - 1] == a + b[..|b| - 1];
      FilterAppend(a, b[..|b| - 1], p);
    }
  }

  /** Two masks applied one after the other keep what their conjunction keeps. */
  lemma {:induction false} FilterCompose<T(!new)>(s: seq<T>, p: T -> bool, q: T -> bool, pq: T -> bool)
    requires forall x :: pq(x) == (p(x) && q(x))
    ensures Filter(Filter(s, p), q) == Filter(s, pq)
  {
    if |s| > 0 {
      var init := s[..|s| - 1];
      var x := s[|s| - 1];
      FilterCompose(init, p, q, pq);
      FilterAppend(Filter(init, p), if p(x) then [x] else [], q);
      assert Filter([x], q) == if q(x) then [x] else [] by {
        assert [x][..0] == [];
      }
      assert Filter([], q) == [];
    }
  }

  lemma {:induction false} FilterExt<T(!new)>(s: seq<T>, p: T -> bool, q: T -> bool)
    requires forall x :: x in s ==> p(x) == q(x)
    ensures Filter(s, p) == Filter(s, q)
  {
    if |s| > 0 {
      FilterExt(s[..|s| - 1], p, q);
    }
  }

  lemma {:induction false} FilterAll<T(!new)>(s: seq<T>, p: T -> bool)
    requires forall x :: x in s ==> p(x)
    ensures Filter(s, p) == s
  {
    if |s| > 0 {
      var init, last := s[..|s| - 1], s[|s| - 1];
      forall x | x in init
        ensures p(x)
      {
        assert x in s;
      }
      FilterAll(init, p);
      assert p(last);
      assert s == init + [last];
    }
  }

  /** A mask keeps every element exactly when every element passes it. */
  lemma {:induction false} FilterFull<T(!new)>(s: seq<T>, p: T -> bool)
    ensures |Filter(s, p)| == |s| <==> forall x :: x in s ==> p(x)
  {
    if |s| > 0 {
      var init := s[..|s| - 1];
      FilterFull(init, p);
      assert forall x :: x in s <==> x in init || x == s[|s| - 1];
    }
  }

  /** `|Filter|` depends only on the multiset of the input. */
  lemma FilterPermutation<T(!new)>(a: seq<T>, b: seq<T>, p: T -> bool)
    requires multiset(a) == multiset(b)
    ensures multiset(Filter(a, p)) == multiset(Filter(b, p))
    ensures |Filter(a, p)| == |Filter(b, p)|
  {
    var fa, fb := Filter(a, p), Filter(b, p);
    FilterMultiset(a, p);
    FilterMultiset(b, p);
    assert multiset(fa) == multiset(fb);
    assert |fa| == |multiset(fa)| == |multiset(fb)| == |fb|;
  }

  /** Dropping rows never raises a sum of non-negative values. */
  lemma {:induction false} FilterSumBound<T(!new)>(s: seq<T>, p: T -> bool, f: T -> real)
    requires forall x :: x in s ==> f(x) >= 0.0
    ensures SumOf(Filter(s, p), f) <= SumOf(s, f)
  {
    if |s| > 0 {
      var init := s[..|s| - 1];
      assert forall x :: x in init ==> x in s;
      FilterSumBound(init, p, f);
      if p(s[|s| - 1]) {
        SumOfAppend(Filter(init, p), [s[|s| - 1]], f);
      } else {
        assert Filter(s, p) == Filter(init, p);
      }
    }
  }

  /** Dropping only rows that contribute 0 leaves a sum unchanged. */
  lemma {:induction false} FilterSumZeros<T(!new)>(s: seq<T>, p: T -> bool, f: T -> real)
    requires forall x :: x in s && !p(x) ==> f(x) == 0.0
    ensures SumOf(Filter(s, p), f) == SumOf(s, f)
  {
    if |s| > 0 {
      var init := s[..|s| - 1];
      assert forall x :: x in init ==> x in s;
      FilterSumZeros(init, p, f);
      if p(s[|s| - 1]) {
        SumOfAppend(Filter(init, p), [s[|s| - 1]], f);
      } else {
        assert Filter(s, p) == Filter(init, p);
      }
    }
  }

  /** A mask that every element of a prefix passes keeps at least that prefix's length. */
  lemma {:induction false} FilterPrefixCount<T(!new)>(s: seq<T>, n: nat, p: T -> bool)
    requires n <= |s|
    requires forall i :: 0 <= i < n ==> p(s[i])
    ensures |Filter(s, p)| >= n
  {
    assert s == s[..n] + s[n..];
    FilterAppend(s[..n], s[n..], p);
    FilterAll(s[..n], p);
  }

  /** A mask that every element of a suffix passes keeps at least that suffix's length. */
  lemma {:induction false} FilterSuffixCount<T(!new)>(s: seq<T>, n: nat, p: T -> bool)
    requires n <= |s|
    requires forall i :: n <= i < |s| ==> p(s[i])
    ensures |Filter(s, p)| >= |s| - n
  {
    assert s == s[..n] + s[n..];
    FilterAppend(s[..n], s[n..], p);
    FilterAll(s[n..], p);
  }

  // ---------------------------------------------------------------- keys

  lemma {:induction false} KeysAppend<T(!new), K(!new)>(s: seq<T>, key: T -> Option<K>)
    requires |s| > 0
    ensures Keys(s, key) == match key(s[|s| - 1])
                            case None => Keys(s[..|s| - 1], key)
                            case Some(k) =>
                              if k in Keys(s[..|s| - 1], key) then Keys(s[..|s| - 1], key)
                              else Keys(s[..|s| - 1], key) + [k]
  {
  }

  /** Appending one row changes one group's total by that row's value. */
  lemma MembersStep<T(!new), K(!new)>(s: seq<T>, key: T -> Option<K>, f: T -> real, k: K)
    requires |s| > 0
    ensures SumOf(Members(s, key, k), f)
         == SumOf(Members(s[..|s| - 1], key, k), f) + if key(s[|s| - 1]) == Some(k) then f(s[|s| - 1]) else 0.0
  {
    var x := s[|s| - 1];
    var pk := (y: T) => key(y) == Some(k);
    var tail := if pk(x) then [x] else [];
    assert Members(s, key, k) == Filter(s[..|s| - 1], pk) + tail;
    SumOfAppend(Filter(s[..|s| - 1], pk), tail, f);
    assert SumOf([x], f) == f(x) by {
      assert [x][..0] == [];
    }
  }

  /** Appending one row adds its value to the sum of the group totals when it has a key. */
  lemma GroupTotalsStep<T(!new), K(!new)>(s: seq<T>, key: T -> Option<K>, f: T -> real)
    requires |s| > 0
    ensures SumOf(Keys(s, key), GroupTotal(s, key, f))
         == SumOf(Keys(s[..|s| - 1], key), GroupTotal(s[..|s| - 1], key, f))
            + if key(s[|s| - 1]).Some? then f(s[|s| - 1]) else 0.0
  {
    var init := s[..|s| - 1];
    var x := s[|s| - 1];
    var ks' := Keys(init, key);
    var g := GroupTotal(s, key, f);
    var g' := GroupTotal(init, key, f);
    var ind := (k: K) => if key(x) == Some(k) then f(x) else 0.0;
    forall k | true
      ensures g(k) == g'(k) + ind(k)
    {
      MembersStep(s, key, f, k);
    }
    KeysAppend(s, key);
    if key(x).None? {
      SumOfExt(ks', g, g');
    } else {
      var kx := key(x).value;
      SumOfLinear(ks', g, g', ind);
      SumOfIndicator(ks', kx, f(x), ind);
      if kx !in ks' {
        NewGroupTotal(s, key, f, kx, g);
      }
    }
  }

  /** A key met for the first time in the last row opens a group holding only that row. */
  lemma NewGroupTotal<T(!new), K(!new)>(s: seq<T>, key: T -> Option<K>, f: T -> real, kx: K, g: K -> real)
    requires |s| > 0 && key(s[|s| - 1]) == Some(kx) && kx !in Keys(s[..|s| - 1], key)
    requires forall k :: g(k) == SumOf(Members(s, key, k), f)
    ensures SumOf(Keys(s[..|s| - 1], key) + [kx], g) == SumOf(Keys(s[..|s| - 1], key), g) + f(s[|s| - 1])
  {
    var init := s[..|s| - 1];
    SumOfAppend(Keys(init, key), [kx], g);
    assert SumOf([kx], g) == g(kx) by {
      assert [kx][..0] == [];
    }
    NoMembers(init, key, kx);
    MembersStep(s, key, f, kx);
  }

  /**
   * Summing `f` group by group and adding up the group totals gives the total of
   * `f` over every row that has a key: grouping loses nothing and counts nothing twice.
   */
  lemma {:induction false} SumOverGroups<T(!new), K(!new)>(s: seq<T>, key: T -> Option<K>, f: T -> real)
    ensures SumOf(Keys(s, key), GroupTotal(s, key, f)) == SumOf(Filter(s, HasKey(key)), f)
  {
    if |s| > 0 {
      var hasKey := HasKey(key);
      var init := s[..|s| - 1];
      var x := s[|s| - 1];
      var tail := if hasKey(x) then [x] else [];
      SumOverGroups(init, key, f);
      GroupTotalsStep(s, key, f);
      assert Filter(s, hasKey) == Filter(init, hasKey) + tail;
      SumOfAppend(Filter(init, hasKey), tail, f);
      assert SumOf([x], f) == f(x) by {
        assert [x][..0] == [];
      }
    }
  }

  /** A key that no row has selects an empty group. */
  lemma NoMembers<T(!new), K(!new)>(s: seq<T>, key: T -> Option<K>, k: K)
    requires k !in Keys(s, key)
    ensures Members(s, key, k) == []
  {
    var m := Members(s, key, k);
    if |m| > 0 {
      HeadIsMember(m);
      assert false;
    }
  }

  lemma HeadIsMember<T>(m: seq<T>)
    ensures |m| > 0 ==> m[0] in m
  {
  }

  /** Every group is non-empty. */
  lemma GroupNonEmpty<T(!new), K(!new)>(s: seq<T>, key: T -> Option<K>, k: K)
    requires k in Keys(s, key)
    ensures |Members(s, key, k)| >= 1
  {
    var i :| 0 <= i < |s| && key(s[i]) == Some(k);
    assert s[i] in Members(s, key, k);
  }

  /** A distinct sequence has as many elements as its set. */
  lemma {:induction false} DistinctCardinality<T(!new)>(s: seq<T>)
    requires Distinct(s)
    ensures |set x | x in s| == |s|
  {
    if |s| > 0 {
      var init := s[..|s| - 1];
      DistinctCardinality(init);
      assert (set x | x in s) == (set x | x in init) + {s[|s| - 1]};
    }
  }

  /** A distinct sequence whose elements all occur in another distinct sequence is no longer. */
  lemma DistinctSubsetLength<T(!new)>(a: seq<T>, b: seq<T>)
    requires Distinct(a) && Distinct(b)
    requires forall x :: x in a ==> x in b
    ensures |a| <= |b|
  {
    DistinctCardinality(a);
    DistinctCardinality(b);
    var sa, sb := set x | x in a, set x | x in b;
    assert sb == sa + (sb - sa) && sa * (sb - sa) == {};
  }

  /** The key of any row that has one is among the distinct keys. */
  lemma KeyOfRow<T(!new), K(!new)>(s: seq<T>, key: T -> Option<K>, x: T)
    requires x in s && key(x).Some?
    ensures key(x).value in Keys(s, key)
  {
    var i :| 0 <= i < |s| && s[i] == x;
  }

  /** `nunique()`: the number of distinct keys is the size of the set of keys the rows carry. */
  lemma KeysCardinality<T(!new), K(!new)>(s: seq<T>, key: T -> Option<K>)
    ensures |Keys(s, key)| == |set i | 0 <= i < |s| && key(s[i]).Some? :: key(s[i]).value|
  {
    var ks := Keys(s, key);
    DistinctCardinality(ks);
    assert (set k | k in ks) == (set i | 0 <= i < |s| && key(s[i]).Some? :: key(s[i]).value) by {
      forall k | k in ks ensures k in (set i | 0 <= i < |s| && key(s[i]).Some? :: key(s[i]).value) {
        var i :| 0 <= i < |s| && key(s[i]) == Some(k);
      }
    }
  }

  /** Every distinct key is also the key of a group; no group is empty and there are at most as many as rows. */
  lemma {:induction false} KeysBound<T(!new), K(!new)>(s: seq<T>, key: T -> Option<K>)
    ensures |Keys(s, key)| <= |s|
    ensures |s| > 0 && (forall x :: x in s ==> key(x).Some?) ==> |Keys(s, key)| >= 1
  {
    if |s| > 0 {
      KeysBound(s[..|s| - 1], key);
    }
  }

  // ---------------------------------------------------------------- order

  /** `a` is `b` with some elements deleted: the order of what remains is kept. */
  ghost predicate SubsequenceOf<T>(a: seq<T>, b: seq<T>)
    decreases |b|
  {
    if |a| == 0 then true
    else if |b| == 0 then false
    else (a[|a| - 1] == b[|b| - 1] && SubsequenceOf(a[..|a| - 1], b[..|b| - 1]))
         || SubsequenceOf(a, b[..|b| - 1])
  }

  /** A mask keeps the surviving rows in their original order. */
  lemma {:induction false} FilterSubsequence<T(!new)>(s: seq<T>, p: T -> bool)
    ensures SubsequenceOf(Filter(s, p), s)
  {
    if |s| > 0 {
      var init := s[..|s| - 1];
      var x := s[|s| - 1];
      FilterSubsequence(init, p);
      var r := Filter(s, p);
      if p(x) {
        assert r == Filter(init, p) + [x];
        assert r[..|r| - 1] == Filter(init, p);
      } else {
        assert r == Filter(init, p);
      }
    }
  }

  // ---------------------------------------------------------------- distinctness

  /** A distinct sequence holds each value at most once. */
  lemma {:induction false} DistinctMultiset<T>(s: seq<T>)
    requires Distinct(s)
    ensures forall x :: multiset(s)[x] <= 1
  {
    if |s| > 0 {
      var init := s[..|s| - 1];
      assert Distinct(init);
      DistinctMultiset(init);
      assert s == init + [s[|s| - 1]];
      assert s[|s| - 1] !in init;
    }
  }

  /** A value at two positions occurs at least twice. */
  lemma DuplicateMultiset<T>(s: seq<T>, i: nat, j: nat)
    requires i < j < |s| && s[i] == s[j]
    ensures multiset(s)[s[i]] >= 2
  {
    assert s == s[..j] + [s[j]] + s[j + 1..];
    assert s[i] in s[..j];
  }

  /** Reordering a distinct sequence leaves it distinct. */
  lemma PermutationDistinct<T>(a: seq<T>, b: seq<T>)
    requires Distinct(a) && multiset(a) == multiset(b)
    ensures Distinct(b)
  {
    DistinctMultiset(a);
    forall i, j | 0 <= i < j < |b|
      ensures b[i] != b[j]
    {
      if b[i] == b[j] {
        DuplicateMultiset(b, i, j);
        assert false;
      }
    }
  }

  /** Mapping a concatenation maps each part. */
  lemma MapAppend<A(!new), B(!new)>(a: seq<A>, b: seq<A>, f: A -> B)
    ensures Map(a + b, f) == Map(a, f) + Map(b, f)
  {
  }

  /** Taking out the element at `j` takes its image out of the mapped sequence. */
  lemma MapRemove<A(!new), B(!new)>(s: seq<A>, j: nat, f: A -> B)
    requires j < |s|
    ensures multiset(Map(s, f)) == multiset(Map(s[..j] + s[j + 1..], f)) + multiset{f(s[j])}
  {
    var l, r := s[..j], s[j + 1..];
    assert s == l + [s[j]] + r;
    MapAppend(l + [s[j]], r, f);
    MapAppend(l, [s[j]], f);
    MapAppend(l, r, f);
  }

  /** Mapping preserves permutation. */
  lemma {:induction false} MapPermutation<A(!new), B(!new)>(a: seq<A>, b: seq<A>, f: A -> B)
    requires multiset(a) == multiset(b)
    ensures multiset(Map(a, f)) == multiset(Map(b, f))
    decreases |a|
  {
    if |a| == 0 {
      assert |b| == |multiset(b)| == 0;
    } else {
      var x := a[|a| - 1];
      assert x in multiset(b);
      var j :| 0 <= j < |b| && b[j] == x;
      MapRemove(a, |a| - 1, f);
      MapRemove(b, j, f);
      RemoveAt(a, |a| - 1);
      RemoveAt(b, j);
      MapPermutation(a[..|a| - 1] + a[|a|..], b[..j] + b[j + 1..], f);
    }
  }

  /** An injective map of a distinct sequence is distinct. */
  lemma MapDistinct<A(!new), B(!new)>(s: seq<A>, f: A -> B)
    requires Distinct(s)
    requires forall x, y :: x in s && y in s && f(x) == f(y) ==> x == y
    ensures Distinct(Map(s, f))
  {
  }
}
