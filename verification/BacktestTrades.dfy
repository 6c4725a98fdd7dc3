// What a trade of either backtester is, said of signals and bars alone: where
// it ends, at which price, for which reason, and what it earns.

module BacktestTrades {
  import opened Options
  import opened Backtest
  import opened BacktestExits
  import opened BacktestSchedule
  import opened BacktestRuns

  // ---------------------------------------------------- prices and touches

  function Limit(sig: Signal, holdMs: int, end: Option<int>): int {
    if end.Some? && end.value < sig.ts + holdMs then end.value else sig.ts + holdMs
  }

  // The bars strictly after the signal and not after the limit.
  predicate InReach(b: Bars, sig: Signal, limit: int, k: int) {
    0 <= k < |b.ts| && sig.ts < b.ts[k] <= limit
  }

  function WinPrice(sig: Signal, share: real): real
    requires sig.px.Finite?
  {
    if sig.dir == 1 then sig.px.value * (1.0 + share) else sig.px.value * (1.0 - share)
  }

  function LossPrice(sig: Signal, share: real): real
    requires sig.px.Finite?
  {
    if sig.dir == 1 then sig.px.value * (1.0 - share) else sig.px.value * (1.0 + share)
  }

  // The bar went at least as far as the price, with the trade or against it.
  predicate Won(b: Bars, sig: Signal, k: int, price: real)
    requires GoodBars(b) && 0 <= k < |b.ts|
  {
    if sig.dir == 1 then b.high[k] >= price else b.low[k] <= price
  }

  predicate Lost(b: Bars, sig: Signal, k: int, price: real)
    requires GoodBars(b) && 0 <= k < |b.ts|
  {
    if sig.dir == 1 then b.low[k] <= price else b.high[k] >= price
  }

  // ------------------------------------------------------------ plain exits

  predicate Touched(b: Bars, sig: Signal, tp: real, sl: real, k: int)
    requires GoodBars(b) && 0 <= k < |b.ts| && sig.px.Finite?
  {
    Won(b, sig, k, WinPrice(sig, tp)) || Lost(b, sig, k, LossPrice(sig, sl))
  }

  // The first touched bar ends the trade at the touched price; the stop-loss
  // first, when both were touched and the setting is conservative.
  predicate EndsAt(b: Bars, sig: Signal, tp: real, sl: real, conservative: bool, k: int, e: Exit)
    requires GoodBars(b) && 0 <= k < |b.ts| && sig.px.Finite?
  {
    var won, lost := Won(b, sig, k, WinPrice(sig, tp)), Lost(b, sig, k, LossPrice(sig, sl));
    e == if lost && (conservative || !won) then Exit(b.ts[k], LossPrice(sig, sl), StopLossHit)
         else Exit(b.ts[k], WinPrice(sig, tp), TakeProfitHit)
  }

  // No bar in reach: the trade ends where it began.  Otherwise it ends at the
  // limit, at the close of the last bar in reach.
  ghost predicate TimesOut(b: Bars, sig: Signal, limit: int, e: Exit)
    requires GoodBars(b) && sig.px.Finite?
  {
    if forall k :: 0 <= k < |b.ts| ==> !InReach(b, sig, limit, k) then
      e == Exit(sig.ts, sig.px.value, TimedOut)
    else
      exists k :: InReach(b, sig, limit, k) && (forall i :: k < i < |b.ts| ==> !InReach(b, sig, limit, i)) &&
                  e == Exit(limit, b.close[k], TimedOut)
  }

  ghost predicate PlainExit(b: Bars, sig: Signal, tp: real, sl: real, limit: int, conservative: bool, e: Exit)
    requires GoodBars(b) && sig.px.Finite?
  {
    if forall k :: InReach(b, sig, limit, k) ==> !Touched(b, sig, tp, sl, k) then TimesOut(b, sig, limit, e)
    else
      exists k :: InReach(b, sig, limit, k) && Touched(b, sig, tp, sl, k) &&
                  (forall i :: InReach(b, sig, limit, i) && i < k ==> !Touched(b, sig, tp, sl, i)) &&
                  EndsAt(b, sig, tp, sl, conservative, k, e)
  }

  // --------------------------------------------------------- trailing exits

  // The best price of the entry and the bars in reach before bar k.
  ghost predicate IsBest(b: Bars, sig: Signal, limit: int, k: int, best: real)
    requires GoodBars(b) && k <= |b.ts| && sig.px.Finite?
  {
    && NoBetter(sig.dir, sig.px.value, best)
    && (forall i :: InReach(b, sig, limit, i) && i < k ==> NoBetter(sig.dir, Favourable(b, sig, i), best))
    && (best == sig.px.value || exists i :: InReach(b, sig, limit, i) && i < k && Favourable(b, sig, i) == best)
  }

  function Favourable(b: Bars, sig: Signal, i: int): real
    requires GoodBars(b) && 0 <= i < |b.ts|
  {
    if sig.dir == 1 then b.high[i] else b.low[i]
  }

  // Where the stop trails to after bar i, once the best price up to and with
  // that bar has gone far enough.
  ghost predicate TrailsTo(b: Bars, sig: Signal, t: Trail, limit: int, i: int, stop: real)
    requires GoodBars(b) && 0 <= i < |b.ts| && sig.px.Finite?
  {
    exists best :: IsBest(b, sig, limit, i + 1, best) && NoBetter(sig.dir, WinPrice(sig, t.activation), best) &&
                   stop == if sig.dir == 1 then best * (1.0 - t.distance) else best * (1.0 + t.distance)
  }

  // The stop at bar k: the tightest of the initial one and those that earlier
  // bars have led to.
  ghost predicate IsStop(b: Bars, sig: Signal, sl: real, t: Trail, limit: int, k: int, stop: real)
    requires GoodBars(b) && k <= |b.ts| && sig.px.Finite?
  {
    && NoBetter(sig.dir, LossPrice(sig, sl), stop)
    && (forall i, other :: InReach(b, sig, limit, i) && i < k && TrailsTo(b, sig, t, limit, i, other) ==>
          NoBetter(sig.dir, other, stop))
    && (stop == LossPrice(sig, sl) ||
        exists i :: InReach(b, sig, limit, i) && i < k && TrailsTo(b, sig, t, limit, i, stop))
  }

  ghost predicate TrailTouched(b: Bars, sig: Signal, tp: real, sl: real, t: Trail, limit: int, k: int)
    requires GoodBars(b) && 0 <= k < |b.ts| && sig.px.Finite?
  {
    Won(b, sig, k, WinPrice(sig, tp)) || exists stop :: IsStop(b, sig, sl, t, limit, k, stop) && Lost(b, sig, k, stop)
  }

  ghost predicate TrailEndsAt(b: Bars, sig: Signal, tp: real, sl: real, t: Trail, limit: int, conservative: bool,
                              k: int, e: Exit)
    requires GoodBars(b) && 0 <= k < |b.ts| && sig.px.Finite?
  {
    exists stop :: IsStop(b, sig, sl, t, limit, k, stop) &&
      (var won, lost := Won(b, sig, k, WinPrice(sig, tp)), Lost(b, sig, k, stop);
       e == if lost && (conservative || !won)
            then Exit(b.ts[k], stop, if stop == LossPrice(sig, sl) then StopLossHit else TrailHit)
            else Exit(b.ts[k], WinPrice(sig, tp), TakeProfitHit))
  }

  ghost predicate TrailingExit(b: Bars, sig: Signal, tp: real, sl: real, t: Trail, limit: int, conservative: bool,
                               e: Exit)
    requires GoodBars(b) && sig.px.Finite?
  {
    if forall k :: InReach(b, sig, limit, k) ==> !TrailTouched(b, sig, tp, sl, t, limit, k)
    then TimesOut(b, sig, limit, e)
    else
      exists k :: InReach(b, sig, limit, k) && TrailTouched(b, sig, tp, sl, t, limit, k) &&
                  (forall i :: InReach(b, sig, limit, i) && i < k ==> !TrailTouched(b, sig, tp, sl, t, limit, i)) &&
                  TrailEndsAt(b, sig, tp, sl, t, limit, conservative, k, e)
  }

  // ------------------------------------------------------------ score exits

  // A finite score at least as far against the trade as the threshold.
  predicate Turned(s: Scores, sig: Signal, threshold: real, limit: int, k: int)
    requires GoodScores(s)
  {
    && 0 <= k < |s.ts| && sig.ts < s.ts[k] <= limit && s.score[k].Some?
    && (if sig.dir == 1 then s.score[k].value <= -threshold else s.score[k].value >= threshold)
  }

  // The first such score ends the trade at its own price, if it comes before
  // the exit that the trade would have otherwise.
  ghost predicate ScoreExit(s: Scores, sig: Signal, threshold: real, limit: int, exit: Exit, e: Exit)
    requires GoodScores(s)
  {
    if forall k :: 0 <= k < |s.ts| ==> !Turned(s, sig, threshold, limit, k) then e == exit
    else
      exists k :: Turned(s, sig, threshold, limit, k) &&
                  (forall i :: 0 <= i < k ==> !Turned(s, sig, threshold, limit, i)) &&
                  e == if s.ts[k] < exit.ts then Exit(s.ts[k], s.px[k], SignalExit) else exit
  }

  // ---------------------------------------------------------------- proofs

  lemma Opened(b: Bars, sig: Signal, holdMs: int, end: Option<int>, tp: real, sl: real)
    requires GoodBars(b) && sig.px.Finite?
    ensures var p, limit := OpenPosition(b, sig, holdMs, end, tp, sl), Limit(sig, holdMs, end);
            && p.scanEnd == limit && p.px == sig.px.value && p.dir == sig.dir
            && TpThreshold(p) == WinPrice(sig, tp) && SlThreshold(p) == LossPrice(sig, sl)
            && p.e1 <= |b.ts| && forall k :: InReach(b, sig, limit, k) <==> p.e0 <= k < p.e1
  {
  }

  lemma TimeoutIs(b: Bars, sig: Signal, holdMs: int, end: Option<int>, tp: real, sl: real)
    requires GoodBars(b) && sig.px.Finite?
    ensures TimesOut(b, sig, Limit(sig, holdMs, end), Timeout(b, OpenPosition(b, sig, holdMs, end, tp, sl)))
  {
    var p, limit := OpenPosition(b, sig, holdMs, end, tp, sl), Limit(sig, holdMs, end);
    Opened(b, sig, holdMs, end, tp, sl);
    OpenedIsWindowed(b, sig, holdMs, end, tp, sl);
    TimeoutInWindow(b, p);
    if p.e0 < p.e1 {
      assert InReach(b, sig, limit, p.e1 - 1);
    }
  }

  // From bar k on, with no touch before it, the scan ends as it should.
  lemma {:induction false} ScanIs(b: Bars, sig: Signal, holdMs: int, end: Option<int>, tp: real, sl: real,
                                  conservative: bool, k: nat)
    requires GoodBars(b) && sig.px.Finite?
    requires var p := OpenPosition(b, sig, holdMs, end, tp, sl);
             p.e0 <= k && forall i :: p.e0 <= i < k && i < p.e1 ==> !Touched(b, sig, tp, sl, i)
    ensures var p := OpenPosition(b, sig, holdMs, end, tp, sl);
            PlainExit(b, sig, tp, sl, Limit(sig, holdMs, end), conservative, ScanExit(b, p, conservative, k))
    decreases |b.ts| - k
  {
    var p, limit := OpenPosition(b, sig, holdMs, end, tp, sl), Limit(sig, holdMs, end);
    Opened(b, sig, holdMs, end, tp, sl);
    if k >= p.e1 {
      TimeoutIs(b, sig, holdMs, end, tp, sl);
    } else if Touched(b, sig, tp, sl, k) {
      assert InReach(b, sig, limit, k);
      assert EndsAt(b, sig, tp, sl, conservative, k, ScanExit(b, p, conservative, k));
    } else {
      ScanIs(b, sig, holdMs, end, tp, sl, conservative, k + 1);
    }
  }

  lemma FastExitIs(b: Bars, sig: Signal, holdMs: int, end: Option<int>, tp: real, sl: real, conservative: bool)
    requires GoodBars(b) && sig.px.Finite?
    ensures PlainExit(b, sig, tp, sl, Limit(sig, holdMs, end), conservative,
                      FastExit(b, OpenPosition(b, sig, holdMs, end, tp, sl), conservative))
  {
    var p := OpenPosition(b, sig, holdMs, end, tp, sl);
    FastExitIsScan(b, p, conservative);
    ScanIs(b, sig, holdMs, end, tp, sl, conservative, p.e0);
  }

  // ------------------------------------------------------ trailing, proved

  lemma BestIs(b: Bars, sig: Signal, p: Position, limit: int, k: nat, best: real)
    requires GoodBars(b) && sig.px.Finite? && sig.dir != 0 && p.e0 <= k <= p.e1 <= |b.ts|
    requires p.px == sig.px.value && p.dir == sig.dir
    requires forall i :: InReach(b, sig, limit, i) <==> p.e0 <= i < p.e1
    ensures IsBest(b, sig, limit, k, best) <==> best == BestSeen(b, p, k)
  {
    BestSeenIsBest(b, p, k);
    var seen := BestSeen(b, p, k);
    if seen != p.px {
      var px := if p.dir == 1 then b.high else b.low;
      var i :| p.e0 <= i < k && px[i] == seen;
      assert InReach(b, sig, limit, i) && Favourable(b, sig, i) == seen;
    }
  }

  lemma AllBest(b: Bars, sig: Signal, p: Position, limit: int, k: nat)
    requires GoodBars(b) && sig.px.Finite? && sig.dir != 0 && p.e0 <= k <= p.e1 <= |b.ts|
    requires p.px == sig.px.value && p.dir == sig.dir
    requires forall i :: InReach(b, sig, limit, i) <==> p.e0 <= i < p.e1
    ensures forall best :: IsBest(b, sig, limit, k, best) <==> best == BestSeen(b, p, k)
  {
    forall best
      ensures IsBest(b, sig, limit, k, best) <==> best == BestSeen(b, p, k)
    {
      BestIs(b, sig, p, limit, k, best);
    }
  }

  lemma TrailsToIs(b: Bars, sig: Signal, p: Position, t: Trail, tp: real, sl: real, limit: int, i: nat, stop: real)
    requires GoodBars(b) && sig.px.Finite? && Holds(b, sig, p, t, tp, sl, limit) && p.e0 <= i < p.e1
    ensures TrailsTo(b, sig, t, limit, i, stop) <==>
            Activated(p, t, BestSeen(b, p, i + 1)) && stop == Candidate(p, t, BestSeen(b, p, i + 1))
  {
    var seen := BestSeen(b, p, i + 1);
    AllBest(b, sig, p, limit, i + 1);
    assert IsBest(b, sig, limit, i + 1, seen);
    assert NoBetter(sig.dir, WinPrice(sig, t.activation), seen) <==> Activated(p, t, seen);
  }

  lemma {:induction false} TrailedIsStop(b: Bars, sig: Signal, p: Position, t: Trail, tp: real, sl: real, limit: int,
                                         k: nat)
    requires GoodBars(b) && sig.px.Finite? && Holds(b, sig, p, t, tp, sl, limit) && p.e0 <= k <= p.e1
    ensures TrailAt(b, p, t, k).best == BestSeen(b, p, k) && IsStop(b, sig, sl, t, limit, k, TrailAt(b, p, t, k).stop)
  {
    if k > p.e0 {
      var before, stop := TrailAt(b, p, t, k - 1).stop, TrailAt(b, p, t, k).stop;
      TrailedIsStop(b, sig, p, t, tp, sl, limit, k - 1);
      forall i, other | InReach(b, sig, limit, i) && i < k && TrailsTo(b, sig, t, limit, i, other)
        ensures NoBetter(sig.dir, other, stop)
      {
        if i == k - 1 {
          TrailsToIs(b, sig, p, t, tp, sl, limit, i, other);
        } else {
          assert NoBetter(sig.dir, other, before);
        }
      }
      if stop != before {
        assert InReach(b, sig, limit, k - 1);
        TrailsToIs(b, sig, p, t, tp, sl, limit, k - 1, stop);
      }
    }
  }

  lemma OneStop(b: Bars, sig: Signal, sl: real, t: Trail, limit: int, k: int, x: real, y: real)
    requires GoodBars(b) && k <= |b.ts| && sig.px.Finite? && sig.dir != 0
    requires IsStop(b, sig, sl, t, limit, k, x) && IsStop(b, sig, sl, t, limit, k, y)
    ensures x == y
  {
  }

  // The position of a signal, with its prices and the bars in its reach.
  predicate Holds(b: Bars, sig: Signal, p: Position, t: Trail, tp: real, sl: real, limit: int)
    requires GoodBars(b) && sig.px.Finite?
  {
    && sig.dir != 0 && p.e1 <= |b.ts| && p.px == sig.px.value && p.dir == sig.dir
    && SlThreshold(p) == LossPrice(sig, sl) && TpThreshold(p) == WinPrice(sig, tp)
    && ActivationPx(p, t) == WinPrice(sig, t.activation)
    && (forall i :: 0 <= i < |b.ts| ==> (InReach(b, sig, limit, i) <==> p.e0 <= i < p.e1))
  }

  ghost predicate NoTouchBefore(b: Bars, sig: Signal, tp: real, sl: real, t: Trail, limit: int, k: int)
    requires GoodBars(b) && sig.px.Finite?
  {
    forall i :: InReach(b, sig, limit, i) && i < k ==> !TrailTouched(b, sig, tp, sl, t, limit, i)
  }

  lemma {:induction false} TrailScanIs(b: Bars, sig: Signal, p: Position, t: Trail, tp: real, sl: real, limit: int,
                                       conservative: bool, k: nat)
    requires GoodBars(b) && sig.px.Finite? && Holds(b, sig, p, t, tp, sl, limit) && p.e0 <= k
    requires TimesOut(b, sig, limit, Timeout(b, p)) && NoTouchBefore(b, sig, tp, sl, t, limit, k)
    ensures TrailingExit(b, sig, tp, sl, t, limit, conservative, TrailExit(b, p, t, conservative, k))
    decreases |b.ts| - k
  {
    if k < p.e1 {
      var stop := TrailAt(b, p, t, k).stop;
      StopIsUnique(b, sig, p, t, tp, sl, limit, k);
      TouchIs(b, sig, tp, sl, t, limit, k, stop);
      if Won(b, sig, k, WinPrice(sig, tp)) || Lost(b, sig, k, stop) {
        EndIs(b, sig, p, tp, sl, t, limit, conservative, k, stop);
      } else {
        TrailScanIs(b, sig, p, t, tp, sl, limit, conservative, k + 1);
      }
    }
  }

  lemma StopIsUnique(b: Bars, sig: Signal, p: Position, t: Trail, tp: real, sl: real, limit: int, k: nat)
    requires GoodBars(b) && sig.px.Finite? && Holds(b, sig, p, t, tp, sl, limit) && p.e0 <= k < p.e1
    ensures forall other :: IsStop(b, sig, sl, t, limit, k, other) <==> other == TrailAt(b, p, t, k).stop
  {
    TrailedIsStop(b, sig, p, t, tp, sl, limit, k);
    forall other | IsStop(b, sig, sl, t, limit, k, other)
      ensures other == TrailAt(b, p, t, k).stop
    {
      OneStop(b, sig, sl, t, limit, k, other, TrailAt(b, p, t, k).stop);
    }
  }

  lemma TouchIs(b: Bars, sig: Signal, tp: real, sl: real, t: Trail, limit: int, k: nat, stop: real)
    requires GoodBars(b) && k < |b.ts| && sig.px.Finite?
    requires forall other :: IsStop(b, sig, sl, t, limit, k, other) <==> other == stop
    ensures TrailTouched(b, sig, tp, sl, t, limit, k) <==> Won(b, sig, k, WinPrice(sig, tp)) || Lost(b, sig, k, stop)
  {
    assert IsStop(b, sig, sl, t, limit, k, stop);
  }

  lemma EndIs(b: Bars, sig: Signal, p: Position, tp: real, sl: real, t: Trail, limit: int, conservative: bool,
              k: nat, stop: real)
    requires GoodBars(b) && k < p.e1 <= |b.ts| && sig.px.Finite? && IsStop(b, sig, sl, t, limit, k, stop)
    requires p.dir == sig.dir && SlThreshold(p) == LossPrice(sig, sl) && TpThreshold(p) == WinPrice(sig, tp)
    requires stop == TrailAt(b, p, t, k).stop && (Won(b, sig, k, WinPrice(sig, tp)) || Lost(b, sig, k, stop))
    ensures TrailEndsAt(b, sig, tp, sl, t, limit, conservative, k, TrailExit(b, p, t, conservative, k))
  {
    assert TrailExit(b, p, t, conservative, k) == BarExit(b, p, conservative, k, stop);
  }

  lemma TrailExitIs(b: Bars, sig: Signal, holdMs: int, end: Option<int>, tp: real, sl: real, t: Trail,
                    conservative: bool)
    requires GoodBars(b) && sig.px.Finite? && sig.dir != 0
    ensures var p := OpenPosition(b, sig, holdMs, end, tp, sl);
            TrailingExit(b, sig, tp, sl, t, Limit(sig, holdMs, end), conservative,
                         TrailExit(b, p, t, conservative, p.e0))
  {
    var p := OpenPosition(b, sig, holdMs, end, tp, sl);
    Opened(b, sig, holdMs, end, tp, sl);
    TimeoutIs(b, sig, holdMs, end, tp, sl);
    TrailScanIs(b, sig, p, t, tp, sl, Limit(sig, holdMs, end), conservative, p.e0);
  }

  // -------------------------------------------------------- scores, proved

  lemma HitTurns(s: Scores, sig: Signal, threshold: real, limit: int, k: nat)
    requires GoodScores(s) && k < |s.ts| && sig.ts < s.ts[k] <= limit
    ensures ScoreHit(s.score[k], sig.dir, threshold) == Turned(s, sig, threshold, limit, k)
  {
  }

  // The scores in reach of the trade are those from k0 to k1.
  predicate ScoresInReach(s: Scores, sig: Signal, limit: int, k0: nat, k1: nat) {
    k1 <= |s.ts| && forall k :: 0 <= k < |s.ts| ==> (sig.ts < s.ts[k] <= limit <==> k0 <= k < k1)
  }

  lemma NoTurnBefore(s: Scores, sig: Signal, p: Position, threshold: real, limit: int, k0: nat, k1: nat, n: nat)
    requires GoodScores(s) && ScoresInReach(s, sig, limit, k0, k1) && k0 < k1 && n <= k1 - k0 && p.dir == sig.dir
    requires forall i :: 0 <= i < n ==> !ScoreHits(s, p, threshold, k0, k1)[i]
    ensures forall k :: 0 <= k < |s.ts| && (k < k0 + n || k >= k1) ==> !Turned(s, sig, threshold, limit, k)
  {
    forall k | 0 <= k < |s.ts| && (k < k0 + n || k >= k1)
      ensures !Turned(s, sig, threshold, limit, k)
    {
      if k0 <= k < k0 + n {
        assert !ScoreHits(s, p, threshold, k0, k1)[k - k0];
        HitTurns(s, sig, threshold, limit, k);
      }
    }
  }

  lemma FirstTurn(s: Scores, sig: Signal, p: Position, threshold: real, limit: int, k0: nat, k1: nat, idx: nat)
    requires GoodScores(s) && ScoresInReach(s, sig, limit, k0, k1) && idx < k1 - k0 && p.dir == sig.dir
    requires ScoreHits(s, p, threshold, k0, k1)[idx]
    requires forall i :: 0 <= i < idx ==> !ScoreHits(s, p, threshold, k0, k1)[i]
    ensures Turned(s, sig, threshold, limit, k0 + idx)
    ensures forall k :: 0 <= k < k0 + idx ==> !Turned(s, sig, threshold, limit, k)
  {
    NoTurnBefore(s, sig, p, threshold, limit, k0, k1, idx);
    HitTurns(s, sig, threshold, limit, k0 + idx);
  }

  lemma ReachOfScores(s: Scores, sig: Signal, limit: int)
    requires forall i, j :: 0 <= i < j < |s.ts| ==> s.ts[i] <= s.ts[j]
    ensures ScoresInReach(s, sig, limit, UpperBound(s.ts, sig.ts), UpperBound(s.ts, limit))
  {
  }

  // The exit by the first turned score, once it is known where that is.
  lemma ScoreExitFrom(s: Scores, sig: Signal, p: Position, threshold: real, limit: int, exit: Exit, k0: nat, k1: nat)
    requires GoodScores(s) && ScoresInReach(s, sig, limit, k0, k1) && k0 < k1 && p.dir == sig.dir
    ensures var idx := FirstHit(ScoreHits(s, p, threshold, k0, k1));
            ScoreExit(s, sig, threshold, limit, exit,
                      if idx >= 0 && s.ts[k0 + idx] < exit.ts then Exit(s.ts[k0 + idx], s.px[k0 + idx], SignalExit)
                      else exit)
  {
    var idx := FirstHit(ScoreHits(s, p, threshold, k0, k1));
    if idx >= 0 {
      FirstTurn(s, sig, p, threshold, limit, k0, k1, idx);
    } else {
      NoTurnBefore(s, sig, p, threshold, limit, k0, k1, k1 - k0);
    }
  }

  lemma ScoreExitIs(s: Scores, sig: Signal, p: Position, threshold: real, limit: int, exit: Exit)
    requires GoodScores(s) && p.ts == sig.ts && p.dir == sig.dir && p.scanEnd == limit
    requires forall i, j :: 0 <= i < j < |s.ts| ==> s.ts[i] <= s.ts[j]
    ensures ScoreExit(s, sig, threshold, limit, exit, EarlyExit(s, p, threshold, exit))
  {
    ReachOfScores(s, sig, limit);
    var k0, k1 := UpperBound(s.ts, p.ts), UpperBound(s.ts, p.scanEnd);
    if k0 < k1 {
      ScoreExitFrom(s, sig, p, threshold, limit, exit, k0, k1);
    } else {
      NoScoreInReach(s, sig, threshold, limit, exit, k0, k1);
    }
  }

  lemma NoScoreInReach(s: Scores, sig: Signal, threshold: real, limit: int, exit: Exit, k0: nat, k1: nat)
    requires GoodScores(s) && ScoresInReach(s, sig, limit, k0, k1) && k0 >= k1
    ensures ScoreExit(s, sig, threshold, limit, exit, exit)
  {
  }

  // ---------------------------------------------------------------- trades

  // A signal that may be traded in the fold.
  predicate Tradable(sig: Signal, f: Fold) {
    && (sig.dir == 1 || sig.dir == -1) && sig.px.Finite? && sig.px.value > 0.0
    && (f.start.None? || f.start.value <= sig.ts) && (f.end.None? || sig.ts <= f.end.value)
  }

  // The net result in percent: what the price moved with the trade, as a share
  // of the entry price, less the fee at entry and at exit.
  predicate NetResult(t: ClosedTrade, feeBps: real) {
    (t.pnlPct / 100.0 + 2.0 * (feeBps / 10000.0)) * t.entryPx ==
    if t.side == 1 then t.exitPx - t.entryPx else t.entryPx - t.exitPx
  }

  // The trade enters at its signal and leaves at the exit.
  predicate Records(t: ClosedTrade, sig: Signal, exit: Exit, f: Fold)
    requires sig.px.Finite?
  {
    && t.entryTs == sig.ts && t.side == sig.dir && t.entryPx == sig.px.value
    && t.exitTs == exit.ts && t.exitPx == exit.px && t.reason == exit.reason
    && NetResult(t, f.feeBps)
    && (exit.ts >= sig.ts ==> t.holdSec * 1000 <= exit.ts - sig.ts < (t.holdSec + 1) * 1000)
  }

  lemma MadeTradeRecords(sig: Signal, exit: Exit, f: Fold)
    requires Eligible(sig, f)
    ensures Records(MakeTrade(sig, exit, f), sig, exit, f) && Tradable(sig, f)
  {
    var fee := f.feeBps / 10000.0;
    var q := exit.px / sig.px.value;
    assert q * sig.px.value == exit.px;
    var net := sig.dir as real * (q - 1.0) - 2.0 * fee;
    assert CalcPnl(sig.px.value, exit.px, sig.dir, f.feeBps) == net * 100.0;
  }

  lemma EligibleIff(sig: Signal, f: Fold)
    ensures Eligible(sig, f) <==> Tradable(sig, f)
  {
  }

  function TakeProfitOf(a: Args, j: nat): real
    requires !Rejected(a) && j < |a.sigs|
  {
    if a.tpArr.Some? then a.tpArr.value[j] else a.takeProfit
  }

  function StopLossOf(a: Args, j: nat): real
    requires !Rejected(a) && j < |a.sigs|
  {
    if a.slArr.Some? then a.slArr.value[j] else a.stopLoss
  }

  // The exit of a trade of run_backtest: the plain exit, or the score's.
  ghost predicate FastExitOf(a: Args, j: nat, e: Exit)
    requires GoodBars(a.bars) && !Rejected(a) && j < |a.sigs| && a.sigs[j].px.Finite?
  {
    var sig, limit := a.sigs[j], Limit(a.sigs[j], a.maxHoldSec * 1000, a.fold.end);
    exists plain ::
      && PlainExit(a.bars, sig, TakeProfitOf(a, j), StopLossOf(a, j), limit, a.conservative, plain)
      && (if a.score.None? then e == plain
          else
            var scores := Scores(a.scoreTs.value, a.score.value, a.scorePx.value);
            ScoreExit(scores, sig, a.scoreThreshold, limit, plain, e))
  }

  ghost predicate IsFastTrade(a: Args, j: nat, trade: ClosedTrade)
    requires GoodBars(a.bars) && !Rejected(a) && j < |a.sigs| && a.sigs[j].px.Finite?
  {
    exists e :: FastExitOf(a, j, e) && Records(trade, a.sigs[j], e, a.fold)
  }

  ghost predicate IsTrailTrade(a: Args, t: Trail, j: nat, trade: ClosedTrade)
    requires GoodBars(a.bars) && j < |a.sigs| && a.sigs[j].px.Finite?
  {
    exists e ::
      && TrailingExit(a.bars, a.sigs[j], a.takeProfit, a.stopLoss, t,
                      Limit(a.sigs[j], a.maxHoldSec * 1000, a.fold.end), a.conservative, e)
      && Records(trade, a.sigs[j], e, a.fold)
  }

  // From which signals the trades come, and that every other tradable signal
  // lies strictly before the exit of an earlier trade.
  ghost predicate Picks(sigs: seq<Signal>, trades: seq<ClosedTrade>, picked: seq<nat>, f: Fold) {
    && |picked| == |trades| && Increasing(picked)
    && (forall i :: 0 <= i < |picked| ==> picked[i] < |sigs| && Tradable(sigs[picked[i]], f))
    && (forall j :: 0 <= j < |sigs| && Tradable(sigs[j], f) && j !in picked ==>
          sigs[j].ts < -1 || exists i :: 0 <= i < |trades| && picked[i] < j && sigs[j].ts < trades[i].exitTs)
  }

  lemma SchedulePicks(sigs: seq<Signal>, exits: seq<Exit>, f: Fold)
    requires |exits| == |sigs|
    ensures var book := Schedule(sigs, exits, f);
            Picks(sigs, book.trades, book.picked, f)
    ensures var book := Schedule(sigs, exits, f);
            forall i :: 0 <= i < |book.trades| ==>
              Records(book.trades[i], sigs[book.picked[i]], exits[book.picked[i]], f)
  {
    var book := Schedule(sigs, exits, f);
    TradesComeFromSignals(sigs, exits, f);
    forall i | 0 <= i < |book.trades|
      ensures Tradable(sigs[book.picked[i]], f)
      ensures Records(book.trades[i], sigs[book.picked[i]], exits[book.picked[i]], f)
    {
      MadeTradeRecords(sigs[book.picked[i]], exits[book.picked[i]], f);
    }
    forall j | 0 <= j < |sigs| && Tradable(sigs[j], f) && j !in book.picked
      ensures sigs[j].ts < -1 ||
              exists i :: 0 <= i < |book.trades| && book.picked[i] < j && sigs[j].ts < book.trades[i].exitTs
    {
      EligibleIff(sigs[j], f);
      SkippedSignalsAreCovered(sigs, exits, f, j);
    }
  }

  // Every trade of run_backtest, for every list of signals: taken from a
  // tradable signal, ended where and why the bars (or the scores) say, and
  // booked with its net result.
  lemma FastTradesMean(a: Args) returns (picked: seq<nat>)
    requires GoodBars(a.bars) && !Rejected(a) && ScoresSorted(a) && !NothingToDo(a)
    ensures Backtested(a).Done? && Picks(a.sigs, Backtested(a).trades, picked, a.fold)
    ensures forall i :: 0 <= i < |picked| ==> IsFastTrade(a, picked[i], Backtested(a).trades[i])
  {
    var book := Schedule(a.sigs, Exits(a), a.fold);
    picked := book.picked;
    SchedulePicks(a.sigs, Exits(a), a.fold);
    forall i | 0 <= i < |picked|
      ensures IsFastTrade(a, picked[i], book.trades[i])
    {
      assert Records(book.trades[i], a.sigs[picked[i]], Exits(a)[picked[i]], a.fold);
      FastTradeMeans(a, picked[i], book.trades[i]);
    }
  }

  lemma FastTradeMeans(a: Args, j: nat, trade: ClosedTrade)
    requires GoodBars(a.bars) && !Rejected(a) && ScoresSorted(a) && j < |a.sigs| && a.sigs[j].px.Finite?
    requires Records(trade, a.sigs[j], ExitAt(a, j), a.fold)
    ensures IsFastTrade(a, j, trade)
  {
    FastExitMeans(a, j);
  }

  lemma TrailTradeMeans(a: Args, t: Trail, j: nat, trade: ClosedTrade)
    requires GoodBars(a.bars) && Plain(a) && j < |a.sigs| && a.sigs[j].px.Finite? && a.sigs[j].dir != 0
    requires Records(trade, a.sigs[j], TrailExitAt(a, t, j), a.fold)
    ensures IsTrailTrade(a, t, j, trade)
  {
    TrailExitIs(a.bars, a.sigs[j], HoldMs(a.maxHoldSec), a.fold.end, a.takeProfit, a.stopLoss, t, a.conservative);
  }

  lemma FastExitMeans(a: Args, j: nat)
    requires GoodBars(a.bars) && !Rejected(a) && ScoresSorted(a) && j < |a.sigs| && a.sigs[j].px.Finite?
    ensures FastExitOf(a, j, ExitAt(a, j))
  {
    var sig, holdMs := a.sigs[j], HoldMs(a.maxHoldSec);
    var tp, sl, limit := TakeProfitOf(a, j), StopLossOf(a, j), Limit(sig, holdMs, a.fold.end);
    var p := PositionAt(a, j);
    Opened(a.bars, sig, holdMs, a.fold.end, tp, sl);
    FastExitIs(a.bars, sig, holdMs, a.fold.end, tp, sl, a.conservative);
    var plain := FastExit(a.bars, p, a.conservative);
    assert PlainExit(a.bars, sig, tp, sl, limit, a.conservative, plain);
    if a.score.Some? {
      ScoreExitIs(ScoresOf(a), sig, p, a.scoreThreshold, limit, plain);
    }
  }

  // The same for run_backtest_trailing.
  lemma TrailTradesMean(a: Args, t: Trail) returns (picked: seq<nat>)
    requires GoodBars(a.bars) && Plain(a) && !NothingToDo(a)
    ensures Picks(a.sigs, TrailBacktested(a, t), picked, a.fold)
    ensures forall i :: 0 <= i < |picked| ==> IsTrailTrade(a, t, picked[i], TrailBacktested(a, t)[i])
  {
    var book := Schedule(a.sigs, TrailExits(a, t), a.fold);
    picked := book.picked;
    SchedulePicks(a.sigs, TrailExits(a, t), a.fold);
    forall i | 0 <= i < |picked|
      ensures IsTrailTrade(a, t, picked[i], book.trades[i])
    {
      assert Records(book.trades[i], a.sigs[picked[i]], TrailExits(a, t)[picked[i]], a.fold);
      TrailTradeMeans(a, t, picked[i], book.trades[i]);
    }
  }
}
