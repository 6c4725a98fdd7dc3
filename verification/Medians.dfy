// The median of a volatility window: partial selection against sorting.

module Medians {

  predicate Sorted(s: seq<real>) { forall i, j :: 0 <= i < j < |s| ==> s[i] <= s[j] }

  function Insert(s: seq<real>, x: real): (r: seq<real>)
    requires Sorted(s)
    ensures Sorted(r) && multiset(r) == multiset(s) + multiset{x}
    ensures r != [] && r[0] == if s == [] || x <= s[0] then x else s[0]
  {
    if s == [] || x <= s[0] then [x] + s
    else
      assert s == [s[0]] + s[1..];
      [s[0]] + Insert(s[1..], x)
  }

  function SortedOf(s: seq<real>): (r: seq<real>)
    ensures Sorted(r) && multiset(r) == multiset(s) && |r| == |s|
  {
    if s == [] then []
    else
      assert s == s[..|s| - 1] + [s[|s| - 1]];
      assert |s| == |multiset(s)|;
      Insert(SortedOf(s[..|s| - 1]), s[|s| - 1])
  }

  // The middle of the sorted values, or the mean of the two middle ones.
  function Median(s: seq<real>): real
    requires s != []
  {
    Middle(SortedOf(s))
  }

  function Middle(t: seq<real>): real
    requires t != []
  {
    var middle := |t| / 2;
    if |t| % 2 == 0 then 0.5 * (t[middle - 1] + t[middle]) else t[middle]
  }

  // What nth_element promises of its result.
  predicate Selected(before: seq<real>, after: seq<real>, k: nat) {
    multiset(before) == multiset(after) && |before| == |after| && k < |after| &&
    (forall i :: 0 <= i < k ==> after[i] <= after[k]) && (forall i :: k < i < |after| ==> after[k] <= after[i])
  }

  // Any arrangement will do; sorting gives one.
  method NthElement(values: seq<real>, k: nat) returns (r: seq<real>)
    requires k < |values|
    ensures Selected(values, r, k)
  {
    r := SortedOf(values);
  }

  method MaxElement(values: seq<real>) returns (m: real)
    requires values != []
    ensures m in values && forall i :: 0 <= i < |values| ==> values[i] <= m
  {
    m := values[0];
    for i := 1 to |values|
      invariant m in values && forall j :: 0 <= j < i ==> values[j] <= m
    {
      if values[i] > m {
        m := values[i];
      }
    }
  }

  method MedianBySelection(series: seq<real>) returns (median: real)
    requires series != []
    ensures median == Median(series)
  {
    var middle := |series| / 2;
    ghost var t := SortedOf(series);
    var values := NthElement(series, middle);
    median := values[middle];
    SelectedIsNth(series, values, t, middle);
    if |values| % 2 == 0 {
      var lower := MaxElement(values[..middle]);
      LowerMaximumIsPrevious(series, values, t, middle, middle - 1, lower);
      median := 0.5 * (lower + median);
    }
  }

  // ----------------------------------------------------------------- counting

  function Count(s: seq<real>, keep: real -> bool): nat {
    if s == [] then 0 else Count(s[..|s| - 1], keep) + if keep(s[|s| - 1]) then 1 else 0
  }

  lemma {:induction false} CountConcat(s: seq<real>, t: seq<real>, keep: real -> bool)
    ensures Count(s + t, keep) == Count(s, keep) + Count(t, keep)
  {
    if t == [] {
      assert s + t == s;
    } else {
      assert (s + t)[..|s + t| - 1] == s + t[..|t| - 1];
      CountConcat(s, t[..|t| - 1], keep);
    }
  }

  lemma CountWithout(t: seq<real>, j: nat, keep: real -> bool)
    requires j < |t|
    ensures Count(t, keep) == Count(t[..j] + t[j + 1..], keep) + if keep(t[j]) then 1 else 0
  {
    var before, after := t[..j], t[j + 1..];
    assert t == before + [t[j]] + after;
    CountAround(t, before, t[j], after, keep);
  }

  lemma CountAround(t: seq<real>, before: seq<real>, x: real, after: seq<real>, keep: real -> bool)
    requires t == before + [x] + after
    ensures Count(t, keep) == Count(before + after, keep) + if keep(x) then 1 else 0
  {
    CountConcat(before + [x], after, keep);
    CountConcat(before, [x], keep);
    CountConcat(before, after, keep);
    CountOne(x, keep);
  }

  lemma MultisetWithout(t: seq<real>, j: nat)
    requires j < |t|
    ensures multiset(t[..j] + t[j + 1..]) == multiset(t) - multiset{t[j]}
  {
    assert t == t[..j] + [t[j]] + t[j + 1..];
  }

  // A count depends on the values only, not on their order.
  lemma {:induction false} CountOfPermutation(s: seq<real>, t: seq<real>, keep: real -> bool)
    requires multiset(s) == multiset(t)
    ensures Count(s, keep) == Count(t, keep)
  {
    if s == [] {
      assert |multiset(t)| == 0;
    } else {
      var n := |s| - 1;
      assert s[n] in multiset(t);
      var j :| 0 <= j < |t| && t[j] == s[n];
      assert s[..n] + s[n + 1..] == s[..n];
      MultisetWithout(s, n);
      MultisetWithout(t, j);
      CountOfPermutation(s[..n], t[..j] + t[j + 1..], keep);
      CountWithout(t, j, keep);
    }
  }

  lemma CountOne(x: real, keep: real -> bool)
    ensures Count([x], keep) == if keep(x) then 1 else 0
  {
    assert [x][..0] == [];
  }

  lemma {:induction false} CountAll(s: seq<real>, keep: real -> bool)
    requires forall i :: 0 <= i < |s| ==> keep(s[i])
    ensures Count(s, keep) == |s|
  {
    if s != [] {
      CountAll(s[..|s| - 1], keep);
    }
  }

  lemma {:induction false} CountNone(s: seq<real>, keep: real -> bool)
    requires forall i :: 0 <= i < |s| ==> !keep(s[i])
    ensures Count(s, keep) == 0
  {
    if s != [] {
      CountNone(s[..|s| - 1], keep);
    }
  }

  lemma {:induction false} CountAtMost(s: seq<real>, keep: real -> bool)
    ensures Count(s, keep) <= |s|
  {
    if s != [] {
      CountAtMost(s[..|s| - 1], keep);
    }
  }

  function Below(x: real): real -> bool { y => y < x }

  function UpTo(x: real): real -> bool { y => y <= x }

  lemma ManyBelow(s: seq<real>, k: nat, x: real)
    requires Sorted(s) && k < |s| && s[k] < x
    ensures Count(s, Below(x)) > k
  {
    var low, high := s[..k + 1], s[k + 1..];
    assert s == low + high;
    CountAll(low, Below(x));
    CountConcat(low, high, Below(x));
  }

  lemma FewUpTo(s: seq<real>, k: nat, x: real)
    requires Sorted(s) && k < |s| && s[k] > x
    ensures Count(s, UpTo(x)) <= k
  {
    var low, high := s[..k], s[k..];
    assert s == low + high;
    CountNone(high, UpTo(x));
    CountAtMost(low, UpTo(x));
    CountConcat(low, high, UpTo(x));
  }

  // In a sorted sequence the k-th value is the one with at most k values
  // below it and more than k values up to it.
  lemma SortedAt(s: seq<real>, k: nat, x: real)
    requires Sorted(s) && k < |s| && Count(s, Below(x)) <= k < Count(s, UpTo(x))
    ensures s[k] == x
  {
    if s[k] < x {
      ManyBelow(s, k, x);
    } else if s[k] > x {
      FewUpTo(s, k, x);
    }
  }

  lemma NthByCounts(values: seq<real>, sorted: seq<real>, k: nat, x: real)
    requires Sorted(sorted) && multiset(sorted) == multiset(values) && k < |sorted|
    requires Count(values, Below(x)) <= k < Count(values, UpTo(x))
    ensures sorted[k] == x
  {
    CountOfPermutation(values, sorted, Below(x));
    CountOfPermutation(values, sorted, UpTo(x));
    SortedAt(sorted, k, x);
  }

  // The selected value is the k-th of the sorted values.
  lemma SelectedIsNth(series: seq<real>, values: seq<real>, sorted: seq<real>, k: nat)
    requires Selected(series, values, k) && Sorted(sorted)
    requires multiset(sorted) == multiset(series) && |sorted| == |series|
    ensures sorted[k] == values[k]
  {
    var x := values[k];
    assert values == values[..k] + values[k..] && values == values[..k + 1] + values[k + 1..];
    CountConcat(values[..k], values[k..], Below(x));
    CountAtMost(values[..k], Below(x));
    CountNone(values[k..], Below(x));
    CountConcat(values[..k + 1], values[k + 1..], UpTo(x));
    CountAll(values[..k + 1], UpTo(x));
    NthByCounts(values, sorted, k, x);
  }

  // The maximum of the values before the selected one is the previous of the
  // sorted values.
  lemma LowerMaximumIsPrevious(series: seq<real>, values: seq<real>, sorted: seq<real>, k: nat, previous: nat, m: real)
    requires Selected(series, values, k) && Sorted(sorted)
    requires multiset(sorted) == multiset(series) && |sorted| == |series|
    requires previous + 1 == k
    requires m in values[..k] && forall i :: 0 <= i < k ==> values[..k][i] <= m
    ensures sorted[previous] == m
  {
    var lower, upper := values[..k], values[k..];
    assert values == lower + upper;
    var j :| 0 <= j < k && lower[j] == m;
    CountConcat(lower, upper, Below(m));
    CountConcat(lower, upper, UpTo(m));
    CountAll(lower, UpTo(m));
    CountNone(upper, Below(m));
    CountWithout(lower, j, Below(m));
    CountAtMost(lower[..j] + lower[j + 1..], Below(m));
    NthByCounts(values, sorted, previous, m);
  }

  // ------------------------------------------------------- what a median is

  function AtLeast(x: real): real -> bool { y => y >= x }

  lemma ManyUpTo(t: seq<real>, k: nat, m: real)
    requires k <= |t| && forall i :: 0 <= i < k ==> t[i] <= m
    ensures Count(t, UpTo(m)) >= k
  {
    var low, high := t[..k], t[k..];
    assert t == low + high;
    CountAll(low, UpTo(m));
    CountConcat(low, high, UpTo(m));
  }

  lemma ManyAtLeast(t: seq<real>, k: nat, m: real)
    requires k <= |t| && forall i :: k <= i < |t| ==> t[i] >= m
    ensures Count(t, AtLeast(m)) >= |t| - k
  {
    var low, high := t[..k], t[k..];
    assert t == low + high;
    CountAll(high, AtLeast(m));
    CountConcat(low, high, AtLeast(m));
  }

  lemma MiddleIsBetween(t: seq<real>, half: nat)
    requires Sorted(t) && t != [] && half == |t| / 2
    ensures forall i :: 0 <= i < |t| - half ==> t[i] <= Middle(t)
    ensures forall i :: half <= i < |t| ==> t[i] >= Middle(t)
  {
    if |t| % 2 == 0 {
      assert t[half - 1] <= t[half];
    }
  }

  lemma HalvesOfSorted(t: seq<real>)
    requires Sorted(t) && t != []
    ensures 2 * Count(t, UpTo(Middle(t))) >= |t| && 2 * Count(t, AtLeast(Middle(t))) >= |t|
  {
    var half := |t| / 2;
    MiddleIsBetween(t, half);
    ManyUpTo(t, |t| - half, Middle(t));
    ManyAtLeast(t, half, Middle(t));
  }

  // At least half of the values are no higher than the median, and at least
  // half are no lower.
  lemma MedianHalves(s: seq<real>)
    requires s != []
    ensures 2 * Count(s, UpTo(Median(s))) >= |s| && 2 * Count(s, AtLeast(Median(s))) >= |s|
  {
    HalvesOfSorted(SortedOf(s));
    CountOfPermutation(s, SortedOf(s), UpTo(Median(s)));
    CountOfPermutation(s, SortedOf(s), AtLeast(Median(s)));
  }

  function Negated(s: seq<real>): (r: seq<real>)
    ensures |r| == |s|
  {
    seq(|s|, k requires 0 <= k < |s| => -s[k])
  }

  function Reversed(s: seq<real>): (r: seq<real>)
    ensures |r| == |s| && multiset(r) == multiset(s)
    ensures forall k :: 0 <= k < |s| ==> r[k] == s[|s| - 1 - k]
  {
    if s == [] then []
    else
      assert s == s[..|s| - 1] + [s[|s| - 1]];
      [s[|s| - 1]] + Reversed(s[..|s| - 1])
  }

  lemma {:induction false} NegatedCount(s: seq<real>, x: real)
    ensures multiset(Negated(s))[x] == multiset(s)[-x]
  {
    if s != [] {
      var n := |s| - 1;
      NegatedCount(s[..n], x);
      assert s == s[..n] + [s[n]];
      assert Negated(s) == Negated(s[..n]) + [-s[n]];
    }
  }

  lemma NegatedPermutation(s: seq<real>, t: seq<real>)
    requires multiset(s) == multiset(t)
    ensures multiset(Negated(s)) == multiset(Negated(t))
  {
    forall x: real
      ensures multiset(Negated(s))[x] == multiset(Negated(t))[x]
    {
      NegatedCount(s, x);
      NegatedCount(t, x);
    }
  }

  lemma SortedIsUnique(s: seq<real>, t: seq<real>)
    requires Sorted(s) && Sorted(t) && multiset(s) == multiset(t)
    ensures s == t
  {
    assert |s| == |multiset(s)| == |t|;
    forall k | 0 <= k < |s|
      ensures s[k] == t[k]
    {
      SelectedIsNth(s, t, s, k);
    }
  }

  lemma MirroredSort(s: seq<real>)
    ensures SortedOf(Negated(s)) == Reversed(Negated(SortedOf(s)))
  {
    var t := SortedOf(s);
    NegatedPermutation(s, t);
    SortedIsUnique(SortedOf(Negated(s)), Reversed(Negated(t)));
  }

  lemma MirroredMiddle(t: seq<real>)
    requires t != []
    ensures Middle(Reversed(Negated(t))) == -Middle(t)
  {
    var r, half := Reversed(Negated(t)), |t| / 2;
    assert r[half] == -t[|t| - 1 - half];
    if |t| % 2 == 0 {
      assert r[half - 1] == -t[half];
    }
  }

  // It takes no side: turning all values over turns the median over.
  lemma MedianMirror(s: seq<real>)
    requires s != []
    ensures Median(Negated(s)) == -Median(s)
  {
    MirroredSort(s);
    MirroredMiddle(SortedOf(s));
  }
}
