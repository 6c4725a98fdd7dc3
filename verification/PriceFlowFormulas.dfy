// What the numbers of the price-flow divergence are, apart from how they are
// computed: means, variances, flows and scores.

module PriceFlowFormulas {
  import opened PriceFlow

  // ------------------------------------------------------ mean and variance

  lemma ScaledQuotient(a: real, n: real)
    requires n != 0.0
    ensures a / n * n == a
  {
  }

  lemma {:induction false} SumOfDeviations(xs: seq<real>, m: real)
    ensures Sum(Deviations(xs, m)) == Sum(xs) - |xs| as real * m
  {
    if xs == [] {
      assert Deviations(xs, m) == [];
    } else {
      var n := |xs| - 1;
      SumOfDeviations(xs[..n], m);
      assert xs == xs[..n] + [xs[n]];
      assert Deviations(xs, m) == Deviations(xs[..n], m) + [xs[n] - m];
      SumSnoc(Deviations(xs[..n], m), xs[n] - m);
      SumSnoc(xs[..n], xs[n]);
      OneMore(n as real, m);
    }
  }

  lemma OneMore(n: real, m: real)
    ensures (n + 1.0) * m == n * m + m
  {
  }

  function Deviations(xs: seq<real>, m: real): (ds: seq<real>)
    ensures |ds| == |xs|
  {
    seq(|xs|, k requires 0 <= k < |xs| => xs[k] - m)
  }

  // The mean is the one number from which the values deviate by nothing in sum.
  lemma MeanIff(xs: seq<real>, m: real)
    requires xs != []
    ensures m == Mean(xs) <==> Sum(Deviations(xs, m)) == 0.0
  {
    SumOfDeviations(xs, m);
    ScaledQuotient(Sum(xs), |xs| as real);
    var n := |xs| as real;
    if n * m == Sum(xs) {
      SameQuotientIff(n * m, Sum(xs), n);
      CancelFactor(m, n);
    }
  }

  lemma CancelFactor(m: real, n: real)
    requires n != 0.0
    ensures n * m / n == m
  {
  }

  // The squared differences of all pairs.
  function PairSquares(xs: seq<real>): real {
    if xs == [] then 0.0
    else PairSquares(xs[..|xs| - 1]) + SumOfSquares(xs[..|xs| - 1], xs[|xs| - 1])
  }

  lemma {:induction false} SquaresAround(xs: seq<real>, m: real)
    ensures SumOfSquares(xs, m) == Around(SumOfSquares(xs, 0.0), Sum(xs), |xs| as real, m)
  {
    if xs != [] {
      var n := |xs| - 1;
      SquaresAround(xs[..n], m);
      LastSquare(xs, m);
      LastSquare(xs, 0.0);
      OneSquare(SumOfSquares(xs[..n], 0.0), Sum(xs[..n]), n as real, xs[n], m);
      assert xs == xs[..n] + [xs[n]];
      SumSnoc(xs[..n], xs[n]);
    }
  }

  lemma LastSquare(xs: seq<real>, m: real)
    requires xs != []
    ensures SumOfSquares(xs, m) == SumOfSquares(xs[..|xs| - 1], m) + Squared(xs[|xs| - 1] - m)
  {
  }

  function Squared(x: real): real { x * x }

  // The squares around m, from the squares q, the sum s and the number n.
  function Around(q: real, s: real, n: real, m: real): real { q - 2.0 * (m * s) + n * Squared(m) }

  lemma OneSquare(q: real, s: real, n: real, x: real, m: real)
    ensures Around(q, s, n, m) + Squared(x - m) == Around(q + Squared(x - 0.0), s + x, n + 1.0, m)
  {
    assert (x - m) * (x - m) == x * x - 2.0 * (m * x) + m * m;
    assert m * (s + x) == m * s + m * x;
    assert (n + 1.0) * (m * m) == n * (m * m) + m * m;
  }

  // The squared differences of all pairs, from the same three numbers.
  function Pairwise(q: real, s: real, n: real): real { n * q - Squared(s) }

  // The number, the sum and the squares of some values, and their pairs.
  lemma {:induction false} PairSquaresAre(xs: seq<real>) returns (q: real, s: real, n: real)
    ensures q == SumOfSquares(xs, 0.0) && s == Sum(xs) && n == |xs| as real
    ensures PairSquares(xs) == Pairwise(q, s, n)
  {
    if xs == [] {
      q, s, n := 0.0, 0.0, 0.0;
    } else {
      var init, x := xs[..|xs| - 1], xs[|xs| - 1];
      var q0, s0, n0 := PairSquaresAre(init);
      var around := SquaresWith(init, x, q0, s0, n0);
      LastSquare(xs, 0.0);
      assert xs == init + [x];
      SumSnoc(init, x);
      q, s, n := q0 + Squared(x - 0.0), s0 + x, n0 + 1.0;
      OnePair(q0, s0, n0, x);
    }
  }

  lemma SquaresWith(xs: seq<real>, m: real, q: real, s: real, n: real) returns (around: real)
    requires q == SumOfSquares(xs, 0.0) && s == Sum(xs) && n == |xs| as real
    ensures around == SumOfSquares(xs, m) == Around(q, s, n, m)
  {
    SquaresAround(xs, m);
    around := SumOfSquares(xs, m);
  }

  lemma OnePair(q: real, s: real, n: real, x: real)
    ensures Pairwise(q, s, n) + Around(q, s, n, x) == Pairwise(q + Squared(x - 0.0), s + x, n + 1.0)
  {
    assert (n + 1.0) * (q + x * x) == n * q + n * (x * x) + q + x * x;
    assert (s + x) * (s + x) == s * s + 2.0 * (x * s) + x * x;
  }

  lemma VarianceParts(xs: seq<real>) returns (n: real, m: real, v: real)
    requires |xs| >= 2
    ensures n == |xs| as real && m == Mean(xs) && v == Variance(xs)
    ensures m == Sum(xs) / n && v == SumOfSquares(xs, m) / (n - 1.0)
  {
    n, m, v := |xs| as real, Mean(xs), Variance(xs);
  }

  // The variance v of n values is what all their n * (n - 1) / 2 pairs differ
  // by, squared: no mean is needed to say it.
  lemma VarianceIsPairwise(xs: seq<real>) returns (n: real, k: real, v: real)
    requires |xs| >= 2
    ensures n == |xs| as real && k == n - 1.0 && v == Variance(xs)
    ensures v * (n * k) == PairSquares(xs)
  {
    var m, q, s, squares, pairs;
    q, s, n := PairSquaresAre(xs);
    n, m, v := VarianceParts(xs);
    k, pairs := n - 1.0, PairSquares(xs);
    squares := SquaresWith(xs, m, q, s, n);
    VarianceAlgebra(v, squares, q, s, n, k, m, pairs);
  }

  lemma VarianceAlgebra(v: real, squares: real, q: real, s: real, n: real, k: real, m: real, pairs: real)
    requires n != 0.0 && k != 0.0 && m == s / n && v == squares / k
    requires squares == Around(q, s, n, m) && pairs == Pairwise(q, s, n)
    ensures v * (n * k) == pairs
  {
    ScaledQuotient(s, n);
    AroundTheMean(q, s, n, m);
    UnscaledVariance(v, squares, n, k);
  }

  lemma AroundTheMean(q: real, s: real, n: real, m: real)
    requires m * n == s
    ensures n * Around(q, s, n, m) == Pairwise(q, s, n)
  {
    assert n * (2.0 * (m * s)) == 2.0 * ((m * n) * s);
    assert n * (n * (m * m)) == (m * n) * (m * n);
  }

  lemma UnscaledVariance(v: real, squares: real, n: real, k: real)
    requires k != 0.0 && v == squares / k
    ensures v * (n * k) == n * squares
  {
    ScaledQuotient(squares, k);
    assert v * (n * k) == n * (v * k);
  }

  // ------------------------------------------------------------ flow and score

  // The flow of an interval with volume, times that volume, is what was bought
  // beyond what was sold; without volume it is zero.
  lemma FlowIsShare(buyVol: real, sellVol: real)
    ensures var total := buyVol + sellVol;
            if total < NO_VOLUME then FlowOf(buyVol, sellVol) == 0.0
            else FlowOf(buyVol, sellVol) * total == buyVol - sellVol
  {
    if buyVol + sellVol >= NO_VOLUME {
      ScaledQuotient(buyVol - sellVol, buyVol + sellVol);
    }
  }

  // A function that is a square root where the formulas use it.
  predicate RootAt(c: Settings, y: real) { c.sqrt(y) >= 0.0 && c.sqrt(y) * c.sqrt(y) == y }

  lemma RootTimesRoot(a: real, b: real, x: real, y: real)
    requires a * a == x && b * b == y
    ensures (a * b) * (a * b) == x * y
  {
  }

  lemma ScoreTimes(x: real, sigPx: real, y: real, stdFlow: real)
    requires sigPx != 0.0 && stdFlow != 0.0
    ensures (x / sigPx - y / stdFlow) * (sigPx * stdFlow) == x * stdFlow - y * sigPx
  {
    ScaledQuotient(x, sigPx);
    ScaledQuotient(y, stdFlow);
    var a, b := x / sigPx, y / stdFlow;
    assert (a - b) * (sigPx * stdFlow) == (a * sigPx) * stdFlow - (b * stdFlow) * sigPx;
  }

  lemma ChangeIsGrowth(from: Price, to: Price)
    ensures Grew(from as real, to as real, Change(from, to))
  {
    ScaledQuotient(to as real, from as real);
  }

  predicate Grew(from: real, to: real, change: real) { from * (1.0 + change) == to }

  lemma ReturnsGrow(prices: seq<Price>, k: nat)
    requires k + 1 < |prices|
    ensures Grew(prices[k] as real, prices[k + 1] as real, Returns(prices)[k])
  {
    ChangeIsGrowth(prices[k], prices[k + 1]);
  }

  // What the window of interval i holds: the growth over its length and from
  // each interval to the next, and the flows up to flowEnd.
  lemma WindowMeans(c: Settings, h: Series, i: nat, flowEnd: nat, k: nat)
    requires Proper(c) && c.window <= i < |h.prices| && c.window - 1 <= flowEnd < |h.flows| && k < c.window
    ensures var w, first := WindowAt(c, h, i, flowEnd), i - c.window;
            && Grew(h.prices[first] as real, h.prices[i] as real, w.change)
            && Grew(h.prices[first + k] as real, h.prices[first + k + 1] as real, w.steps[k])
            && w.flows[k] == h.flows[flowEnd + 1 - c.window + k]
  {
    ChangeIsGrowth(h.prices[i - c.window], h.prices[i]);
    ReturnsGrow(h.prices, i - c.window + k);
  }

  // The components of a window: with a true square root the two deviations are
  // the roots of the variances of returns (scaled to the window) and flows, and
  // the score, cleared of its denominators, is momentum less flow.
  lemma ComponentsMean(c: Settings, w: Window)
    requires Proper(c) && |w.steps| >= 2 && |w.flows| >= 2
    ensures var x := WindowComponents(c, w);
            && x.tr == w.change && x.meanFlow == Mean(w.flows)
            && (RootAt(c, Variance(w.steps)) && RootAt(c, c.window as real) ==>
                  x.sigPx >= 0.0 && x.sigPx * x.sigPx == Variance(w.steps) * c.window as real)
            && (RootAt(c, Variance(w.flows)) ==> x.stdFlow * x.stdFlow == Variance(w.flows))
            && (if x.sigPx >= TINY && x.stdFlow >= TINY
                then x.comb * (x.sigPx * x.stdFlow) ==
                     x.tr * x.stdFlow - x.meanFlow * c.sqrt(c.window as real) * x.sigPx
                else x.comb == 0.0)
  {
    var x := WindowComponents(c, w);
    var a, b := c.sqrt(Variance(w.steps)), c.sqrt(c.window as real);
    if RootAt(c, Variance(w.steps)) && RootAt(c, c.window as real) {
      RootTimesRoot(a, b, Variance(w.steps), c.window as real);
      assert a * b >= 0.0;
    }
    if IsValid(x.sigPx, x.stdFlow) {
      ScoreTimes(x.tr, x.sigPx, x.meanFlow * b, x.stdFlow);
    }
  }

  // ------------------------------------------------------------ kept windows

  predicate ValidAt(xs: seq<Components>, k: nat) {
    k < |xs| && xs[k].sigPx >= TINY && xs[k].stdFlow >= TINY
  }

  // The values are the volatilities at these intervals, in order, and these
  // are all the valid ones.
  predicate KeptFrom(xs: seq<Components>, vols: seq<real>, at: seq<nat>) {
    && |at| == |vols|
    && (forall j :: 0 <= j < |at| ==> ValidAt(xs, at[j]) && vols[j] == xs[at[j]].sigPx)
    && (forall j, k :: 0 <= j < k < |at| ==> at[j] < at[k])
    && (forall k :: 0 <= k < |xs| && ValidAt(xs, k) ==> k in at)
  }

  lemma KeptWith(xs: seq<Components>, x: Components, vols: seq<real>, at: seq<nat>)
    requires KeptFrom(xs, vols, at) && IsValid(x.sigPx, x.stdFlow)
    ensures KeptFrom(xs + [x], vols + [x.sigPx], at + [|xs|])
  {
    var more := at + [|xs|];
    assert more[|at|] == |xs|;
    forall k | 0 <= k <= |xs| && ValidAt(xs + [x], k)
      ensures k in more
    {
      assert k < |xs| ==> ValidAt(xs, k);
    }
  }

  lemma KeptWithout(xs: seq<Components>, x: Components, vols: seq<real>, at: seq<nat>)
    requires KeptFrom(xs, vols, at) && !IsValid(x.sigPx, x.stdFlow)
    ensures KeptFrom(xs + [x], vols, at)
  {
    forall k | 0 <= k <= |xs| && ValidAt(xs + [x], k)
      ensures k in at
    {
      assert ValidAt(xs, k);
    }
  }

  // The valid volatilities are those of the valid intervals, each once and in
  // order.
  lemma {:induction false} ValidVolsAre(xs: seq<Components>) returns (at: seq<nat>)
    ensures KeptFrom(xs, ValidVols(xs), at)
  {
    if xs == [] {
      at := [];
    } else {
      var init, x := xs[..|xs| - 1], xs[|xs| - 1];
      assert xs == init + [x];
      at := ValidVolsAre(init);
      if IsValid(x.sigPx, x.stdFlow) {
        KeptWith(init, x, ValidVols(init), at);
        at := at + [|init|];
      } else {
        KeptWithout(init, x, ValidVols(init), at);
        assert ValidVols(init) + [] == ValidVols(init);
      }
    }
  }
}
