// The drawdown of research_on_data/pfd_optimizer/pfd_optimizer/metrics.py.

module BacktestMetrics {

  // Equity after each trade, starting from zero.
  function Equity(pnl: seq<real>): (eq: seq<real>)
    ensures |eq| == |pnl| + 1 && eq[0] == 0.0
    ensures forall k :: 0 <= k < |pnl| ==> eq[k + 1] - eq[k] == pnl[k]
  {
    if pnl == [] then [0.0]
    else
      var n := |pnl| - 1;
      var eq := Equity(pnl[..n]);
      eq + [eq[n] + pnl[n]]
  }

  function Higher(x: real, y: real): real { if x < y then y else x }

  // np.maximum.accumulate
  function Peaks(eq: seq<real>): (peaks: seq<real>)
    ensures |peaks| == |eq|
  {
    if |eq| <= 1 then eq
    else
      var n := |eq| - 1;
      var peaks := Peaks(eq[..n]);
      peaks + [Higher(peaks[n - 1], eq[n])]
  }

  function MaxOf(xs: seq<real>): (m: real)
    requires xs != []
    ensures m in xs && forall k :: 0 <= k < |xs| ==> xs[k] <= m
  {
    if |xs| == 1 then xs[0] else Higher(MaxOf(xs[..|xs| - 1]), xs[|xs| - 1])
  }

  function Falls(eq: seq<real>): (dd: seq<real>)
    ensures |dd| == |eq|
  {
    seq(|eq|, k requires 0 <= k < |eq| => Peaks(eq)[k] - eq[k])
  }

  function MaxDrawdown(pnl: seq<real>): real {
    if pnl == [] then 0.0 else MaxOf(Falls(Equity(pnl)))
  }

  // A peak is the highest value so far.
  lemma {:induction false} PeakIsHighest(eq: seq<real>, j: nat)
    requires j < |eq|
    ensures forall i :: 0 <= i <= j ==> eq[i] <= Peaks(eq)[j]
    ensures exists i :: 0 <= i <= j && eq[i] == Peaks(eq)[j]
  {
    var n := |eq| - 1;
    if j < n {
      PeakIsHighest(eq[..n], j);
      assert forall i :: 0 <= i <= j ==> eq[..n][i] == eq[i];
    } else if n > 0 {
      PeakIsHighest(eq[..n], n - 1);
      assert forall i :: 0 <= i < n ==> eq[..n][i] == eq[i];
    }
  }

  lemma FallsAreBounded(eq: seq<real>, m: real, i: nat, j: nat)
    requires i <= j < |eq| && forall k :: 0 <= k < |eq| ==> Falls(eq)[k] <= m
    ensures eq[i] - eq[j] <= m
  {
    PeakIsHighest(eq, j);
    assert Falls(eq)[j] == Peaks(eq)[j] - eq[j];
  }

  lemma FallIsTaken(eq: seq<real>, m: real)
    requires m in Falls(eq)
    ensures exists i, j :: 0 <= i <= j < |eq| && eq[i] - eq[j] == m
  {
    var j :| 0 <= j < |eq| && Falls(eq)[j] == m;
    PeakIsHighest(eq, j);
  }

  lemma DrawdownIsAFall(pnl: seq<real>, eq: seq<real>, m: real)
    requires eq == Equity(pnl) && m == MaxDrawdown(pnl)
    ensures m in Falls(eq) && forall k :: 0 <= k < |eq| ==> Falls(eq)[k] <= m
  {
    if pnl == [] {
      assert Peaks(eq) == eq;
      assert Falls(eq)[0] == Peaks(eq)[0] - eq[0] == 0.0;
    }
  }

  // The maximum drawdown is the deepest fall between two moments, the later
  // one not before the earlier.
  lemma DrawdownIsDeepestFall(pnl: seq<real>, eq: seq<real>, m: real)
    requires eq == Equity(pnl) && m == MaxDrawdown(pnl)
    ensures forall i, j :: 0 <= i <= j < |eq| ==> eq[i] - eq[j] <= m
    ensures exists i, j :: 0 <= i <= j < |eq| && eq[i] - eq[j] == m
  {
    DrawdownIsAFall(pnl, eq, m);
    forall i, j | 0 <= i <= j < |eq|
      ensures eq[i] - eq[j] <= m
    {
      FallsAreBounded(eq, m, i, j);
    }
    FallIsTaken(eq, m);
  }

  lemma {:induction false} Rises(eq: seq<real>, i: nat, j: nat)
    requires i <= j < |eq| && forall k :: 0 <= k < |eq| - 1 ==> eq[k] <= eq[k + 1]
    ensures eq[i] <= eq[j]
    decreases j
  {
    if i < j {
      Rises(eq, i, j - 1);
    }
  }

  // It is never negative, and zero exactly when no trade lost.
  lemma NoDrawdownIff(pnl: seq<real>)
    ensures MaxDrawdown(pnl) >= 0.0
    ensures MaxDrawdown(pnl) == 0.0 <==> forall k :: 0 <= k < |pnl| ==> pnl[k] >= 0.0
  {
    var eq, m := Equity(pnl), MaxDrawdown(pnl);
    DrawdownIsDeepestFall(pnl, eq, m);
    assert eq[0] - eq[0] <= m;
    if forall k :: 0 <= k < |pnl| ==> pnl[k] >= 0.0 {
      var i, j :| 0 <= i <= j < |eq| && eq[i] - eq[j] == m;
      assert forall k :: 0 <= k < |eq| - 1 ==> eq[k + 1] - eq[k] == pnl[k];
      Rises(eq, i, j);
    } else {
      var k :| 0 <= k < |pnl| && pnl[k] < 0.0;
      assert eq[k] - eq[k + 1] <= m;
    }
  }
}
