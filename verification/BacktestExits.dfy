// Properties of the exit of a single position.

module BacktestExits {
  import opened Options
  import opened Backtest

  // ------------------------------------------------- vectorised = bar by bar

  predicate Untouched(b: Bars, p: Position, k: nat)
    requires GoodBars(b) && k < |b.ts|
  {
    !HitsTp(b, p, k) && !HitsStop(b, p, k, SlThreshold(p))
  }

  lemma {:induction false} ScanSkips(b: Bars, p: Position, conservative: bool, k: nat, m: nat)
    requires GoodBars(b) && p.e1 <= |b.ts| && k <= m <= p.e1
    requires forall i :: k <= i < m ==> Untouched(b, p, i)
    ensures ScanExit(b, p, conservative, k) == ScanExit(b, p, conservative, m)
    decreases m - k
  {
    if k < m {
      assert Untouched(b, p, k);
      ScanSkips(b, p, conservative, k + 1, m);
    }
  }

  // The argmax exit of run_backtest is the exit found by scanning the bars.
  lemma FastExitIsScan(b: Bars, p: Position, conservative: bool)
    requires GoodBars(b) && p.e1 <= |b.ts|
    ensures FastExit(b, p, conservative) == ScanExit(b, p, conservative, p.e0)
  {
    if p.e0 < p.e1 {
      var iTp, iSl := FirstHit(TpHits(b, p)), FirstHit(SlHits(b, p));
      var n := p.e1 - p.e0;
      var first := if iTp < 0 && iSl < 0 then n
                   else if iTp < 0 || (0 <= iSl && iSl < iTp) then iSl else iTp;
      forall i | p.e0 <= i < p.e0 + first
        ensures Untouched(b, p, i)
      {
        assert !TpHits(b, p)[i - p.e0] && !SlHits(b, p)[i - p.e0];
      }
      ScanSkips(b, p, conservative, p.e0, p.e0 + first);
      FirstDecides(b, p, conservative, first);
    }
  }

  lemma FirstDecides(b: Bars, p: Position, conservative: bool, first: nat)
    requires GoodBars(b) && p.e0 < p.e1 <= |b.ts| && first <= p.e1 - p.e0
    requires var iTp, iSl := FirstHit(TpHits(b, p)), FirstHit(SlHits(b, p));
             first == if iTp < 0 && iSl < 0 then p.e1 - p.e0
                      else if iTp < 0 || (0 <= iSl && iSl < iTp) then iSl else iTp
    ensures FastExit(b, p, conservative) == ScanExit(b, p, conservative, p.e0 + first)
  {
    if first < p.e1 - p.e0 {
      assert TpHits(b, p)[first] == HitsTp(b, p, p.e0 + first);
      assert SlHits(b, p)[first] == HitsStop(b, p, p.e0 + first, SlThreshold(p));
    }
  }

  // ------------------------------------------------------------- time bounds

  predicate Windowed(b: Bars, p: Position) {
    && GoodBars(b) && p.e1 <= |b.ts| && p.scanEnd <= p.holdEnd
    && (forall k :: p.e0 <= k < |b.ts| ==> b.ts[k] > p.ts)
    && (forall k :: 0 <= k < p.e1 ==> b.ts[k] <= p.scanEnd)
  }

  lemma OpenedIsWindowed(b: Bars, sig: Signal, holdMs: int, end: Option<int>, tp: real, sl: real)
    requires GoodBars(b) && sig.px.Finite?
    ensures Windowed(b, OpenPosition(b, sig, holdMs, end, tp, sl))
  {
  }

  predicate InWindow(p: Position, ts: int) {
    p.ts <= ts <= Max(p.ts, p.scanEnd)
  }

  // With bars in the window the timeout is exactly at its end: the branch that
  // falls back on the last bar's time is not taken.
  lemma {:induction false} TimeoutInWindow(b: Bars, p: Position)
    requires Windowed(b, p)
    ensures InWindow(p, Timeout(b, p).ts)
    ensures p.e0 < p.e1 ==> Timeout(b, p).ts == p.scanEnd > p.ts
  {
    if p.e0 < p.e1 {
      assert p.ts < b.ts[p.e1 - 1] <= p.scanEnd;
    }
  }

  lemma {:induction false} ScanInWindow(b: Bars, p: Position, conservative: bool, k: nat)
    requires Windowed(b, p) && p.e0 <= k
    ensures InWindow(p, ScanExit(b, p, conservative, k).ts)
    decreases p.e1 - k
  {
    TimeoutInWindow(b, p);
    if k < p.e1 {
      ScanInWindow(b, p, conservative, k + 1);
    }
  }

  lemma {:induction false} TrailInWindow(b: Bars, p: Position, t: Trail, conservative: bool, k: nat)
    requires Windowed(b, p) && p.e0 <= k
    ensures InWindow(p, TrailExit(b, p, t, conservative, k).ts)
    decreases p.e1 - k
  {
    TimeoutInWindow(b, p);
    if k < p.e1 {
      TrailInWindow(b, p, t, conservative, k + 1);
    }
  }

  lemma {:induction false} EarlyInWindow(s: Scores, p: Position, threshold: real, exit: Exit)
    requires GoodScores(s) && InWindow(p, exit.ts)
    requires forall i, j :: 0 <= i < j < |s.ts| ==> s.ts[i] <= s.ts[j]
    ensures InWindow(p, EarlyExit(s, p, threshold, exit).ts)
  {
  }

  // --------------------------------------------- trailing that never activates

  // Strictly short of the take-profit.
  predicate ShortOfTp(p: Position, px: real) {
    if p.dir == 1 then px < TpThreshold(p) else px > TpThreshold(p)
  }

  // No price short of the take-profit moves the stop: it does not activate the
  // trail, or the trailed stop is still behind the initial one even there.
  predicate NeverTightens(p: Position, t: Trail) {
    t.activation >= p.tp ||
    if p.dir == 1 then t.distance <= 1.0 && (1.0 + p.tp) * (1.0 - t.distance) <= 1.0 - p.sl
    else t.distance >= -1.0 && (1.0 - p.tp) * (1.0 + t.distance) >= 1.0 + p.sl
  }

  lemma ShortIsNotActivated(p: Position, t: Trail, px: real)
    requires p.px > 0.0 && t.activation >= p.tp && ShortOfTp(p, px)
    ensures !Activated(p, t, px)
  {
    if p.dir == 1 {
      assert p.px * (1.0 + t.activation) >= p.px * (1.0 + p.tp);
    } else {
      assert p.px * (1.0 - t.activation) <= p.px * (1.0 - p.tp);
    }
  }

  lemma Scaled(x: real, y: real, f: real)
    requires x <= y && f >= 0.0
    ensures x * f <= y * f && f * x <= f * y
  {
  }

  lemma Reordered(px: real, f: real, g: real)
    ensures px * f * g == px * (f * g)
  {
  }

  lemma ShortDoesNotTighten(p: Position, t: Trail, px: real)
    requires p.px > 0.0 && NeverTightens(p, t) && t.activation < p.tp && ShortOfTp(p, px)
    ensures NoBetter(p.dir, Candidate(p, t, px), SlThreshold(p))
  {
    if p.dir == 1 {
      Scaled(px, TpThreshold(p), 1.0 - t.distance);
      Reordered(p.px, 1.0 + p.tp, 1.0 - t.distance);
      Scaled((1.0 + p.tp) * (1.0 - t.distance), 1.0 - p.sl, p.px);
    } else {
      Scaled(TpThreshold(p), px, 1.0 + t.distance);
      Reordered(p.px, 1.0 - p.tp, 1.0 + t.distance);
      Scaled(1.0 + p.sl, (1.0 - p.tp) * (1.0 + t.distance), p.px);
    }
  }

  lemma {:induction false} NeverTrails(b: Bars, p: Position, t: Trail, k: nat)
    requires GoodBars(b) && p.e0 <= k <= |b.ts|
    requires p.px > 0.0 && p.tp > 0.0 && NeverTightens(p, t)
    requires forall i :: p.e0 <= i < k ==> !HitsTp(b, p, i)
    ensures TrailAt(b, p, t, k).stop == SlThreshold(p) && ShortOfTp(p, TrailAt(b, p, t, k).best)
  {
    if k <= p.e0 {
      assert p.px * p.tp > 0.0;
    } else {
      NeverTrails(b, p, t, k - 1);
      assert !HitsTp(b, p, k - 1);
      var best := TrailAt(b, p, t, k).best;
      if t.activation >= p.tp {
        ShortIsNotActivated(p, t, best);
      } else {
        ShortDoesNotTighten(p, t, best);
      }
    }
  }

  // A stop that never tightens before a positive take-profit never trails: the
  // exit is that of the fixed stop.
  lemma {:induction false} TrailIsScan(b: Bars, p: Position, t: Trail, conservative: bool, k: nat)
    requires GoodBars(b) && p.e1 <= |b.ts| && p.e0 <= k
    requires p.px > 0.0 && p.tp > 0.0 && NeverTightens(p, t)
    requires forall i :: p.e0 <= i < k && i < |b.ts| ==> !HitsTp(b, p, i)
    ensures TrailExit(b, p, t, conservative, k) == ScanExit(b, p, conservative, k)
    decreases p.e1 - k
  {
    if k < p.e1 {
      NeverTrails(b, p, t, k);
      if !HitsTp(b, p, k) {
        TrailIsScan(b, p, t, conservative, k + 1);
      }
    }
  }

  // ------------------------------------------------------------- conservatism

  // px1 is no better an exit price than px2.
  predicate NoBetter(dir: Direction, px1: real, px2: real) {
    if dir == 1 then px1 <= px2 else px1 >= px2
  }

  lemma NoBetterPnl(entry: real, dir: Direction, px1: real, px2: real, feeBps: real)
    requires entry > 0.0 && dir != 0
    ensures NoBetter(dir, px1, px2) <==> CalcPnl(entry, px1, dir, feeBps) <= CalcPnl(entry, px2, dir, feeBps)
  {
    var q1, q2 := px1 / entry, px2 / entry;
    assert q1 * entry == px1 && q2 * entry == px2;
    if q1 <= q2 {
      assert q1 * entry <= q2 * entry;
    }
    if q2 <= q1 {
      assert q2 * entry <= q1 * entry;
    }
  }

  // When stop and take-profit are touched in the same bar, preferring the stop
  // is no better exactly if the two thresholds are not crossed.
  lemma {:induction false} TieDominanceIff(p: Position, feeBps: real)
    requires p.px > 0.0 && p.dir != 0
    ensures CalcPnl(p.px, SlThreshold(p), p.dir, feeBps) <= CalcPnl(p.px, TpThreshold(p), p.dir, feeBps) <==>
            p.tp + p.sl >= 0.0
  {
    NoBetterPnl(p.px, p.dir, SlThreshold(p), TpThreshold(p), feeBps);
    var s := p.tp + p.sl;
    assert p.px * (1.0 + p.tp) - p.px * (1.0 - p.sl) == p.px * s;
    assert p.px * (1.0 + p.sl) - p.px * (1.0 - p.tp) == p.px * s;
    if s >= 0.0 {
      assert p.px * s >= 0.0;
    } else {
      assert p.px * s < 0.0;
    }
  }

  // The same moment, at a price that is no better.
  predicate Dominated(dir: Direction, low: Exit, high: Exit) {
    low.ts == high.ts && NoBetter(dir, low.px, high.px)
  }

  lemma {:induction false} ScanDominance(b: Bars, p: Position, k: nat)
    requires GoodBars(b) && p.e1 <= |b.ts| && p.px > 0.0 && p.dir != 0 && p.tp + p.sl >= 0.0
    ensures Dominated(p.dir, ScanExit(b, p, true, k), ScanExit(b, p, false, k))
    decreases p.e1 - k
  {
    if k < p.e1 {
      TieDominanceIff(p, 0.0);
      NoBetterPnl(p.px, p.dir, SlThreshold(p), TpThreshold(p), 0.0);
      ScanDominance(b, p, k + 1);
    }
  }

  lemma FastDominance(b: Bars, p: Position)
    requires GoodBars(b) && p.e1 <= |b.ts| && p.px > 0.0 && p.dir != 0 && p.tp + p.sl >= 0.0
    ensures Dominated(p.dir, FastExit(b, p, true), FastExit(b, p, false))
  {
    FastExitIsScan(b, p, true);
    FastExitIsScan(b, p, false);
    ScanDominance(b, p, p.e0);
  }

  lemma {:induction false} EarlyDominance(s: Scores, p: Position, threshold: real, low: Exit, high: Exit)
    requires GoodScores(s) && Dominated(p.dir, low, high)
    ensures Dominated(p.dir, EarlyExit(s, p, threshold, low), EarlyExit(s, p, threshold, high))
  {
  }

  // ------------------------------------------------------- the trailing stop

  // Prices and settings under which a stop makes sense: nothing is negative
  // that must not be.
  predicate SaneTrail(b: Bars, p: Position, t: Trail) {
    && GoodBars(b) && p.e1 <= |b.ts|
    && p.px > 0.0 && p.dir != 0 && p.tp >= 0.0 && p.sl >= 0.0 && t.distance >= 0.0
    && (forall k :: 0 <= k < |b.ts| ==> b.low[k] >= 0.0)
  }

  lemma CandidateNoBetter(p: Position, t: Trail, best: real)
    requires best >= 0.0 && t.distance >= 0.0
    ensures NoBetter(p.dir, Candidate(p, t, best), best)
  {
    assert best * t.distance >= 0.0;
  }

  lemma ThresholdsInOrder(p: Position)
    requires p.px > 0.0 && p.tp >= 0.0 && p.sl >= 0.0
    ensures NoBetter(p.dir, SlThreshold(p), p.px) && NoBetter(p.dir, p.px, TpThreshold(p))
    ensures NoBetter(p.dir, SlThreshold(p), TpThreshold(p))
  {
    assert p.px * p.tp >= 0.0 && p.px * p.sl >= 0.0;
  }

  // While the take-profit is not touched, neither the best price nor the stop
  // crosses it, and the stop is never worse than the initial one.
  lemma {:induction false} StopStaysInside(b: Bars, p: Position, t: Trail, k: nat)
    requires SaneTrail(b, p, t) && p.e0 <= k <= |b.ts|
    requires forall i :: p.e0 <= i < k ==> !HitsTp(b, p, i)
    ensures var st := TrailAt(b, p, t, k);
            && st.best >= 0.0
            && NoBetter(p.dir, st.best, TpThreshold(p))
            && NoBetter(p.dir, st.stop, TpThreshold(p))
            && NoBetter(p.dir, SlThreshold(p), st.stop)
  {
    ThresholdsInOrder(p);
    if k > p.e0 {
      StopStaysInside(b, p, t, k - 1);
      assert !HitsTp(b, p, k - 1);
      CandidateNoBetter(p, t, TrailAt(b, p, t, k).best);
    }
  }

  // From one bar to the next the stop never moves against the position.
  lemma {:induction false} StopNeverRetreats(b: Bars, p: Position, t: Trail, k: nat)
    requires GoodBars(b) && p.e0 <= k < |b.ts|
    ensures NoBetter(p.dir, TrailAt(b, p, t, k).stop, TrailAt(b, p, t, k + 1).stop)
  {
  }

  lemma {:induction false} TrailDominance(b: Bars, p: Position, t: Trail, k: nat)
    requires SaneTrail(b, p, t) && p.e0 <= k
    requires forall i :: p.e0 <= i < k && i < |b.ts| ==> !HitsTp(b, p, i)
    ensures Dominated(p.dir, TrailExit(b, p, t, true, k), TrailExit(b, p, t, false, k))
    decreases p.e1 - k
  {
    if k < p.e1 {
      StopStaysInside(b, p, t, k);
      if !HitsTp(b, p, k) {
        TrailDominance(b, p, t, k + 1);
      }
    }
  }

  // ----------------------------------------------------- closed form of stop

  // The entry price and the highs (for a short: the lows) of the bars seen.
  function BestSeen(b: Bars, p: Position, k: nat): real
    requires GoodBars(b) && k <= |b.ts|
  {
    if k <= p.e0 then p.px else BetterPx(p, BestSeen(b, p, k - 1), b, k - 1)
  }

  // BestSeen is the best of those prices: one of them, and no other is better.
  lemma {:induction false} BestSeenIsBest(b: Bars, p: Position, k: nat)
    requires GoodBars(b) && p.e0 <= k <= |b.ts|
    ensures var best := BestSeen(b, p, k);
            var px := if p.dir == 1 then b.high else b.low;
            && NoBetter(p.dir, p.px, best)
            && (forall i :: p.e0 <= i < k ==> NoBetter(p.dir, px[i], best))
            && (best == p.px || exists i :: p.e0 <= i < k && px[i] == best)
  {
    if k > p.e0 {
      BestSeenIsBest(b, p, k - 1);
    }
  }

  function ClosedFormStop(b: Bars, p: Position, t: Trail, k: nat): real
    requires GoodBars(b) && k <= |b.ts|
  {
    var best := BestSeen(b, p, k);
    if k > p.e0 && Activated(p, t, best) then TighterStop(p, SlThreshold(p), Candidate(p, t, best))
    else SlThreshold(p)
  }

  lemma Product(x: real, y: real)
    requires x >= 0.0 && y >= 0.0
    ensures x * y >= 0.0
  {
  }

  lemma BetterBestBetterCandidate(p: Position, t: Trail, best: real, better: real)
    requires -1.0 <= t.distance <= 1.0 && NoBetter(p.dir, best, better)
    ensures NoBetter(p.dir, Candidate(p, t, best), Candidate(p, t, better))
  {
    if p.dir == 1 {
      Product(better - best, 1.0 - t.distance);
    } else {
      Product(best - better, 1.0 + t.distance);
    }
  }

  // At every bar the stop is the initial stop until activation, and from then
  // on the better of it and the best price seen less (plus) the distance.
  lemma {:induction false} StopClosedForm(b: Bars, p: Position, t: Trail, k: nat)
    requires GoodBars(b) && p.e0 <= k <= |b.ts| && -1.0 <= t.distance <= 1.0
    ensures TrailAt(b, p, t, k) == TrailState(ClosedFormStop(b, p, t, k), BestSeen(b, p, k))
  {
    if k > p.e0 {
      StopClosedForm(b, p, t, k - 1);
      BetterBestBetterCandidate(p, t, BestSeen(b, p, k - 1), BestSeen(b, p, k));
    }
  }

  // A stop-out, trailing or not, loses at most the stop distance and two fees.
  lemma {:induction false} StopOutIsBounded(b: Bars, p: Position, t: Trail, conservative: bool, k: nat, feeBps: real)
    requires SaneTrail(b, p, t) && p.e0 <= k
    requires forall i :: p.e0 <= i < k && i < |b.ts| ==> !HitsTp(b, p, i)
    ensures var e := TrailExit(b, p, t, conservative, k);
            e.reason.StopLossHit? || e.reason.TrailHit? ==>
              CalcPnl(p.px, e.px, p.dir, feeBps) >= -(p.sl + 2.0 * (feeBps / 10000.0)) * 100.0
    decreases p.e1 - k
  {
    if k < p.e1 {
      var stop := TrailAt(b, p, t, k).stop;
      StopStaysInside(b, p, t, k);
      NoBetterPnl(p.px, p.dir, SlThreshold(p), stop, feeBps);
      PnlAtStop(p, feeBps);
      if !HitsTp(b, p, k) {
        StopOutIsBounded(b, p, t, conservative, k + 1, feeBps);
      }
    }
  }

  lemma PnlAtStop(p: Position, feeBps: real)
    requires p.px > 0.0 && p.dir != 0
    ensures CalcPnl(p.px, SlThreshold(p), p.dir, feeBps) == -(p.sl + 2.0 * (feeBps / 10000.0)) * 100.0
  {
    var q := SlThreshold(p) / p.px;
    assert q * p.px == SlThreshold(p);
    if p.dir == 1 {
      assert (q - (1.0 - p.sl)) * p.px == 0.0;
    } else {
      assert (q - (1.0 + p.sl)) * p.px == 0.0;
    }
  }

  // ------------------------------------------- exactly when the trail matters

  // Settings of a trailing stop that are all positive.
  predicate PositiveSettings(p: Position, t: Trail) {
    p.px > 0.0 && p.dir != 0 && p.tp > 0.0 && p.sl > 0.0 && 0.0 < t.distance < 1.0
  }

  // A price that activates the trail and moves the stop, short of the take-profit.
  predicate Tightens(p: Position, t: Trail, q: real) {
    && ShortOfTp(p, q) && NoBetter(p.dir, p.px, q) && Activated(p, t, q)
    && NoBetter(p.dir, SlThreshold(p), Candidate(p, t, q)) && Candidate(p, t, q) != SlThreshold(p)
  }

  // Between two bounds there is a number no lower than two others below the top.
  lemma Between(bottom: real, top: real, x: real, y: real) returns (q: real)
    requires bottom < top && x < top && y < top
    ensures bottom < q < top && x <= q && y <= q
  {
    q := (top + bottom) / 2.0;
    if q < x {
      q := x;
    }
    if q < y {
      q := y;
    }
  }

  lemma Between'(bottom: real, top: real, x: real, y: real) returns (q: real)
    requires bottom < top && bottom < x && bottom < y
    ensures bottom < q < top && q <= x && q <= y
  {
    var negative := Between(-top, -bottom, -x, -y);
    q := -negative;
  }

  lemma Quotient(s: real, f: real) returns (x: real)
    requires f > 0.0
    ensures x * f == s
  {
    x := s / f;
  }

  // Room for such a price, on either side.
  lemma LongRoom(p: Position, t: Trail, f: real)
    requires PositiveSettings(p, t) && p.dir == 1 && !NeverTightens(p, t) && f == 1.0 - t.distance
    ensures SlThreshold(p) < TpThreshold(p) * f && ActivationPx(p, t) < TpThreshold(p) && p.px < TpThreshold(p)
  {
    Reordered(p.px, 1.0 + p.tp, f);
    Stretched(1.0 - p.sl, (1.0 + p.tp) * f, p.px);
    Stretched(1.0 + t.activation, 1.0 + p.tp, p.px);
    Stretched(1.0, 1.0 + p.tp, p.px);
  }

  lemma ShortRoom(p: Position, t: Trail, f: real)
    requires PositiveSettings(p, t) && p.dir == -1 && !NeverTightens(p, t) && f == 1.0 + t.distance
    ensures SlThreshold(p) > TpThreshold(p) * f && ActivationPx(p, t) > TpThreshold(p) && p.px > TpThreshold(p)
  {
    Reordered(p.px, 1.0 - p.tp, f);
    Stretched((1.0 - p.tp) * f, 1.0 + p.sl, p.px);
    Stretched(1.0 - p.tp, 1.0 - t.activation, p.px);
    Stretched(1.0 - p.tp, 1.0, p.px);
  }

  lemma LongTightens(p: Position, t: Trail, f: real) returns (q: real)
    requires PositiveSettings(p, t) && p.dir == 1 && !NeverTightens(p, t) && f == 1.0 - t.distance
    ensures Tightens(p, t, q)
  {
    LongRoom(p, t, f);
    var bottom := Quotient(SlThreshold(p), f);
    Cancelled(bottom, TpThreshold(p), f);
    q := Between(bottom, TpThreshold(p), p.px, ActivationPx(p, t));
    Stretched(bottom, q, f);
    CandidateIs(p, t, q, f);
  }

  lemma ShortTightens(p: Position, t: Trail, f: real) returns (q: real)
    requires PositiveSettings(p, t) && p.dir == -1 && !NeverTightens(p, t) && f == 1.0 + t.distance
    ensures Tightens(p, t, q)
  {
    ShortRoom(p, t, f);
    var top := Quotient(SlThreshold(p), f);
    Cancelled(TpThreshold(p), top, f);
    q := Between'(TpThreshold(p), top, p.px, ActivationPx(p, t));
    Stretched(q, top, f);
    CandidateIs(p, t, q, f);
  }

  lemma CandidateIs(p: Position, t: Trail, q: real, f: real)
    requires f == if p.dir == 1 then 1.0 - t.distance else 1.0 + t.distance
    ensures Candidate(p, t, q) == q * f
  {
  }

  lemma Stretched(x: real, y: real, f: real)
    requires x < y && f > 0.0
    ensures x * f < y * f && f * x < f * y
  {
    assert (y - x) * f > 0.0;
  }

  lemma Cancelled(x: real, y: real, f: real)
    requires x * f < y * f && f > 0.0
    ensures x < y
  {
    if x >= y {
      Scaled(y, x, f);
    }
  }

  function Flat(n: nat, at: nat, q: real, rest: real): seq<real> {
    seq(n, k => if k == at then q else rest)
  }

  // Bars that stand still at q first and then between the two stops.
  function WitnessBars(p: Position, t: Trail, q: real): Bars {
    var stop := Candidate(p, t, q);
    var rest := if p.dir == 1 || stop > q then stop else q;
    var px := Flat(p.e1, p.e0, q, rest);
    Bars(seq(p.e1, _ => 0), px, px, px)
  }

  lemma WitnessTrails(p: Position, t: Trail, conservative: bool, q: real)
    requires PositiveSettings(p, t) && p.e0 + 2 <= p.e1 && Tightens(p, t, q)
    ensures var b := WitnessBars(p, t, q);
            GoodBars(b) && TrailExit(b, p, t, conservative, p.e0).reason == TrailHit
  {
    var b, stop, k := WitnessBars(p, t, q), Candidate(p, t, q), p.e0 + 1;
    assert p.dir == 1 ==> q * t.distance > 0.0;
    assert b.high[p.e0] == b.low[p.e0] == q;
    assert !HitsStop(b, p, p.e0, SlThreshold(p)) && !HitsTp(b, p, p.e0);
    assert TrailAt(b, p, t, p.e0) == TrailStart(p);
    assert TrailAt(b, p, t, k) == TrailState(stop, q);
    assert HitsStop(b, p, k, stop) && !HitsTp(b, p, k);
    assert TrailExit(b, p, t, conservative, k) == BarExit(b, p, conservative, k, stop);
  }

  lemma FastNeverTrails(b: Bars, p: Position, conservative: bool)
    requires GoodBars(b) && p.e1 <= |b.ts|
    ensures FastExit(b, p, conservative).reason != TrailHit
  {
  }

  // For all bars: the trailing exit of a position is the plain exit exactly if
  // the window has less than two bars or the stop never tightens short of the
  // take-profit, a condition on the settings alone.
  lemma TrailingEqualsFastIff(p: Position, t: Trail, conservative: bool)
    requires PositiveSettings(p, t)
    ensures (forall b :: GoodBars(b) && p.e1 <= |b.ts| ==>
               TrailExit(b, p, t, conservative, p.e0) == FastExit(b, p, conservative)) <==>
            p.e1 < p.e0 + 2 || NeverTightens(p, t)
  {
    if p.e1 < p.e0 + 2 || NeverTightens(p, t) {
      forall b | GoodBars(b) && p.e1 <= |b.ts|
        ensures TrailExit(b, p, t, conservative, p.e0) == FastExit(b, p, conservative)
      {
        FastExitIsScan(b, p, conservative);
        if NeverTightens(p, t) {
          TrailIsScan(b, p, t, conservative, p.e0);
        } else {
          OneBarIsScan(b, p, t, conservative);
        }
      }
    } else {
      var q;
      if p.dir == 1 {
        q := LongTightens(p, t, 1.0 - t.distance);
      } else {
        q := ShortTightens(p, t, 1.0 + t.distance);
      }
      WitnessTrails(p, t, conservative, q);
      FastNeverTrails(WitnessBars(p, t, q), p, conservative);
    }
  }

  lemma OneBarIsScan(b: Bars, p: Position, t: Trail, conservative: bool)
    requires GoodBars(b) && p.e1 <= |b.ts| && p.e1 < p.e0 + 2
    ensures TrailExit(b, p, t, conservative, p.e0) == ScanExit(b, p, conservative, p.e0)
  {
    if p.e0 < p.e1 {
      var k := p.e0 + 1;
      assert TrailExit(b, p, t, conservative, k) == Timeout(b, p) == ScanExit(b, p, conservative, k);
    }
  }

  // A pair of bars with plain numbers: the second falls through the trailed
  // stop, and the plain backtest holds on to the end of the window.
  lemma {:induction false} EarlyActivationDiffers(conservative: bool)
    ensures var b := Bars([1000, 2000], [106.0, 105.0], [100.0, 104.0], [105.0, 104.0]);
            var p := Position(1, 0, 100.0, 0, 2, 5000, 5000, 0.1, 0.05);
            GoodBars(b) &&
            TrailExit(b, p, Trail(0.01, 0.05), conservative, 0) == Exit(2000, 104.94, TrailHit) &&
            FastExit(b, p, conservative) == Exit(5000, 104.0, TimedOut)
  {
    var b := Bars([1000, 2000], [106.0, 105.0], [100.0, 104.0], [105.0, 104.0]);
    var p, t := Position(1, 0, 100.0, 0, 2, 5000, 5000, 0.1, 0.05), Trail(0.01, 0.05);
    FastExitIsScan(b, p, conservative);
    assert TrailAt(b, p, t, 0) == TrailState(95.0, 100.0);
    assert TrailAt(b, p, t, 1) == TrailState(104.94, 106.0);
    assert ScanExit(b, p, conservative, 1) == ScanExit(b, p, conservative, 2);
    assert TrailExit(b, p, t, conservative, 1) == BarExit(b, p, conservative, 1, 104.94);
  }
}
