// run_backtest and run_backtest_trailing, and what relates whole runs.

module BacktestRuns {
  import opened Options
  import opened Backtest
  import opened BacktestExits
  import opened BacktestSchedule

  // The arguments of run_backtest.  The lists given together are parallel.
  datatype Args = Args(
    sigs: seq<Signal>, bars: Bars, takeProfit: real, stopLoss: real, maxHoldSec: int,
    conservative: bool, fold: Fold,
    scoreTs: Option<seq<int>>, score: Option<seq<Option<real>>>, scorePx: Option<seq<real>>,
    scoreThreshold: real,
    tpArr: Option<seq<real>>, slArr: Option<seq<real>>)

  datatype Outcome = Done(trades: seq<ClosedTrade>) | ValueError

  function HoldMs(maxHoldSec: int): int { maxHoldSec * 1000 }

  // The checks that make run_backtest raise ValueError.
  predicate Rejected(a: Args) {
    || (a.tpArr.Some? != a.slArr.Some?)
    || (a.tpArr.Some? && a.slArr.Some? &&
        (|a.tpArr.value| != |a.sigs| || |a.slArr.value| != |a.sigs|))
    || (a.score.Some? &&
        (a.scoreTs.None? || a.scorePx.None? ||
         |a.scoreTs.value| != |a.score.value| || |a.scorePx.value| != |a.score.value|))
  }

  predicate NothingToDo(a: Args) { a.sigs == [] || a.bars.ts == [] }

  function PositionAt(a: Args, j: nat): Position
    requires !Rejected(a) && j < |a.sigs| && a.sigs[j].px.Finite?
  {
    OpenPosition(a.bars, a.sigs[j], HoldMs(a.maxHoldSec), a.fold.end,
                 if a.tpArr.Some? then a.tpArr.value[j] else a.takeProfit,
                 if a.slArr.Some? then a.slArr.value[j] else a.stopLoss)
  }

  function ScoresOf(a: Args): Scores
    requires !Rejected(a) && a.score.Some?
  {
    Scores(a.scoreTs.value, a.score.value, a.scorePx.value)
  }

  // The exit that the signal at j leads to if it is taken.
  function ExitAt(a: Args, j: nat): Exit
    requires GoodBars(a.bars) && !Rejected(a) && j < |a.sigs|
  {
    if a.sigs[j].px.NotFinite? then Exit(a.sigs[j].ts, 0.0, TimedOut)
    else
      var p := PositionAt(a, j);
      var exit := FastExit(a.bars, p, a.conservative);
      if a.score.Some? then EarlyExit(ScoresOf(a), p, a.scoreThreshold, exit) else exit
  }

  function Exits(a: Args): (exits: seq<Exit>)
    requires GoodBars(a.bars) && !Rejected(a)
    ensures |exits| == |a.sigs|
    ensures forall j :: 0 <= j < |exits| ==> exits[j] == ExitAt(a, j)
  {
    seq(|a.sigs|, j requires 0 <= j < |a.sigs| => ExitAt(a, j))
  }

  function Backtested(a: Args): Outcome
    requires GoodBars(a.bars)
  {
    if NothingToDo(a) then Done([])
    else if Rejected(a) then ValueError
    else Done(Schedule(a.sigs, Exits(a), a.fold).trades)
  }

  // The rates of the signals come both or not at all, one for each signal.
  predicate RatesMatch(tp: Option<seq<real>>, sl: Option<seq<real>>, count: nat) {
    (tp == None && sl == None) || (tp.Some? && sl.Some? && |tp.value| == |sl.value| == count)
  }

  // With scores there are as many times and prices.
  predicate ScoresMatch(score: Option<seq<Option<real>>>, ts: Option<seq<int>>, px: Option<seq<real>>) {
    score.Some? ==> ts.Some? && px.Some? && |score.value| == |ts.value| == |px.value|
  }

  method RunBacktest(a: Args) returns (result: Outcome)
    requires GoodBars(a.bars)
    ensures result == Backtested(a)
    ensures a.sigs == [] || a.bars.ts == [] ==> result == Done([])
    ensures a.sigs != [] && a.bars.ts != [] ==>
              (result.Done? <==> RatesMatch(a.tpArr, a.slArr, |a.sigs|) && ScoresMatch(a.score, a.scoreTs, a.scorePx))
  {
    if NothingToDo(a) {
      return Done([]);
    }
    if Rejected(a) {
      return ValueError;
    }
    ghost var exits := Exits(a);
    var out: seq<ClosedTrade> := [];
    var lastExit := -1;
    for j := 0 to |a.sigs|
      invariant out == Schedule(a.sigs[..j], exits[..j], a.fold).trades
      invariant lastExit == Schedule(a.sigs[..j], exits[..j], a.fold).lastExit
    {
      assert a.sigs[..j + 1][..j] == a.sigs[..j] && exits[..j + 1][..j] == exits[..j];
      var sig := a.sigs[j];
      if !Eligible(sig, a.fold) || sig.ts < lastExit {
        continue;
      }
      var p := PositionAt(a, j);
      var exit := FastExit(a.bars, p, a.conservative);
      if a.score.Some? {
        exit := EarlyExit(ScoresOf(a), p, a.scoreThreshold, exit);
      }
      out := out + [MakeTrade(sig, exit, a.fold)];
      if exit.ts > lastExit {
        lastExit := exit.ts;
      }
    }
    assert a.sigs[..|a.sigs|] == a.sigs && exits[..|a.sigs|] == exits;
    return Done(out);
  }

  // ---------------------------------------------------------------- trailing

  function TrailExitAt(a: Args, t: Trail, j: nat): Exit
    requires GoodBars(a.bars) && !Rejected(a) && j < |a.sigs|
  {
    if a.sigs[j].px.NotFinite? then Exit(a.sigs[j].ts, 0.0, TimedOut)
    else TrailExit(a.bars, PositionAt(a, j), t, a.conservative, PositionAt(a, j).e0)
  }

  function TrailExits(a: Args, t: Trail): (exits: seq<Exit>)
    requires GoodBars(a.bars) && !Rejected(a)
    ensures |exits| == |a.sigs|
    ensures forall j :: 0 <= j < |exits| ==> exits[j] == TrailExitAt(a, t, j)
  {
    seq(|a.sigs|, j requires 0 <= j < |a.sigs| => TrailExitAt(a, t, j))
  }

  // run_backtest_trailing has none of the optional lists.
  predicate Plain(a: Args) { a.tpArr.None? && a.slArr.None? && a.score.None? }

  function TrailBacktested(a: Args, t: Trail): seq<ClosedTrade>
    requires GoodBars(a.bars) && Plain(a)
  {
    if NothingToDo(a) then [] else Schedule(a.sigs, TrailExits(a, t), a.fold).trades
  }

  // The bar loop of one position: stop and best are updated until a touch.
  method ScanPosition(b: Bars, p: Position, t: Trail, conservative: bool) returns (exit: Exit)
    requires GoodBars(b) && p.e1 <= |b.ts|
    ensures exit == TrailExit(b, p, t, conservative, p.e0)
  {
    var stop, best := SlThreshold(p), p.px;
    var k := p.e0;
    while k < p.e1
      invariant p.e0 <= k && (k <= p.e1 || k == p.e0)
      invariant k <= |b.ts| ==> TrailAt(b, p, t, k) == TrailState(stop, best)
      invariant TrailExit(b, p, t, conservative, p.e0) == TrailExit(b, p, t, conservative, k)
    {
      var hitStop, hitTp := HitsStop(b, p, k, stop), HitsTp(b, p, k);
      if hitStop && hitTp {
        if conservative {
          return Exit(b.ts[k], stop, if stop != SlThreshold(p) then TrailHit else StopLossHit);
        }
        return Exit(b.ts[k], TpThreshold(p), TakeProfitHit);
      }
      if hitStop {
        return Exit(b.ts[k], stop, if stop != SlThreshold(p) then TrailHit else StopLossHit);
      }
      if hitTp {
        return Exit(b.ts[k], TpThreshold(p), TakeProfitHit);
      }
      stop, best := MoveStop(b, p, t, k, stop, best);
      k := k + 1;
    }
    return Timeout(b, p);
  }

  // The end of the loop body: the best price, and the stop that trails it.
  method MoveStop(b: Bars, p: Position, t: Trail, k: nat, stop0: real, best0: real)
    returns (stop: real, best: real)
    requires GoodBars(b) && k < |b.ts|
    ensures TrailState(stop, best) == TrailStep(b, p, t, TrailState(stop0, best0), k)
  {
    stop, best := stop0, best0;
    if p.dir == 1 {
      if b.high[k] > best {
        best := b.high[k];
      }
      if best >= ActivationPx(p, t) {
        var candidate := best * (1.0 - t.distance);
        if candidate > stop {
          stop := candidate;
        }
      }
    } else {
      if b.low[k] < best {
        best := b.low[k];
      }
      if best <= ActivationPx(p, t) {
        var candidate := best * (1.0 + t.distance);
        if candidate < stop {
          stop := candidate;
        }
      }
    }
  }

  method RunBacktestTrailing(a: Args, t: Trail) returns (out: seq<ClosedTrade>)
    requires GoodBars(a.bars) && Plain(a)
    ensures out == TrailBacktested(a, t)
  {
    out := [];
    if NothingToDo(a) {
      return;
    }
    ghost var exits := TrailExits(a, t);
    var lastExit := -1;
    for j := 0 to |a.sigs|
      invariant out == Schedule(a.sigs[..j], exits[..j], a.fold).trades
      invariant lastExit == Schedule(a.sigs[..j], exits[..j], a.fold).lastExit
    {
      assert a.sigs[..j + 1][..j] == a.sigs[..j] && exits[..j + 1][..j] == exits[..j];
      var sig := a.sigs[j];
      if !Eligible(sig, a.fold) || sig.ts < lastExit {
        continue;
      }
      var exit := ScanPosition(a.bars, PositionAt(a, j), t, a.conservative);
      out := out + [MakeTrade(sig, exit, a.fold)];
      if exit.ts > lastExit {
        lastExit := exit.ts;
      }
    }
    assert a.sigs[..|a.sigs|] == a.sigs && exits[..|a.sigs|] == exits;
  }

  // ------------------------------------------------------------ whole runs

  // A trailing backtest with a positive take-profit, whose stop tightens for no
  // signal before it, returns exactly the trades of the fast backtest; so does
  // any whose activation is at least the take-profit.
  lemma TrailingRefinesFast(a: Args, t: Trail)
    requires GoodBars(a.bars) && Plain(a) && a.takeProfit > 0.0
    requires forall j :: 0 <= j < |a.sigs| && Eligible(a.sigs[j], a.fold) ==>
                           t.activation >= a.takeProfit || NeverTightens(PositionAt(a, j), t)
    ensures Backtested(a) == Done(TrailBacktested(a, t))
  {
    forall j | 0 <= j < |a.sigs| && Eligible(a.sigs[j], a.fold)
      ensures Exits(a)[j] == TrailExits(a, t)[j]
    {
      var p := PositionAt(a, j);
      FastExitIsScan(a.bars, p, a.conservative);
      TrailIsScan(a.bars, p, t, a.conservative, p.e0);
    }
    SameExitsSameSchedule(a.sigs, Exits(a), TrailExits(a, t), a.fold);
  }

  predicate ScoresSorted(a: Args) {
    a.scoreTs.Some? ==> forall i, j :: 0 <= i < j < |a.scoreTs.value| ==> a.scoreTs.value[i] <= a.scoreTs.value[j]
  }

  lemma FastExitsInWindow(a: Args)
    requires GoodBars(a.bars) && !Rejected(a) && ScoresSorted(a)
    ensures ExitsInWindow(a.sigs, Exits(a), HoldMs(a.maxHoldSec), a.fold)
  {
    forall j | 0 <= j < |a.sigs| && Eligible(a.sigs[j], a.fold)
      ensures InWindow(PositionAt(a, j), Exits(a)[j].ts)
    {
      var p := PositionAt(a, j);
      OpenedIsWindowed(a.bars, a.sigs[j], HoldMs(a.maxHoldSec), a.fold.end, p.tp, p.sl);
      FastExitIsScan(a.bars, p, a.conservative);
      ScanInWindow(a.bars, p, a.conservative, p.e0);
      if a.score.Some? {
        EarlyInWindow(ScoresOf(a), p, a.scoreThreshold, FastExit(a.bars, p, a.conservative));
      }
    }
  }

  lemma TrailExitsInWindow(a: Args, t: Trail)
    requires GoodBars(a.bars) && Plain(a)
    ensures ExitsInWindow(a.sigs, TrailExits(a, t), HoldMs(a.maxHoldSec), a.fold)
  {
    forall j | 0 <= j < |a.sigs| && Eligible(a.sigs[j], a.fold)
      ensures InWindow(PositionAt(a, j), TrailExits(a, t)[j].ts)
    {
      var p := PositionAt(a, j);
      OpenedIsWindowed(a.bars, a.sigs[j], HoldMs(a.maxHoldSec), a.fold.end, p.tp, p.sl);
      TrailInWindow(a.bars, p, t, a.conservative, p.e0);
    }
  }

  // The schedule of either backtester, for every list of signals: trades one at
  // a time, each inside the fold and its holding window, and together no
  // longer than the fold.
  predicate WellScheduled(trades: seq<ClosedTrade>, a: Args) {
    && OneAtATime(trades)
    && (forall t :: t in trades ==> InHoldingWindow(t, HoldMs(a.maxHoldSec), a.fold))
    && TimeInPositionSec(trades, a.fold.start, a.fold.end) == HeldMs(trades) as real / 1000.0
    && (a.fold.start.Some? && a.fold.end.Some? ==>
          TimeInPositionSec(trades, a.fold.start, a.fold.end) <=
          Max(0, a.fold.end.value - a.fold.start.value) as real / 1000.0)
  }

  lemma WellScheduledIf(a: Args, exits: seq<Exit>)
    requires |exits| == |a.sigs| && ExitsInWindow(a.sigs, exits, HoldMs(a.maxHoldSec), a.fold)
    ensures WellScheduled(Schedule(a.sigs, exits, a.fold).trades, a)
  {
    TradesDoNotOverlap(a.sigs, exits, a.fold);
    TradesInHoldingWindow(a.sigs, exits, HoldMs(a.maxHoldSec), a.fold);
    CoveredIsHeld(Schedule(a.sigs, exits, a.fold).trades, HoldMs(a.maxHoldSec), a.fold);
    if a.fold.start.Some? && a.fold.end.Some? {
      TimeInPositionFitsFold(a.sigs, exits, HoldMs(a.maxHoldSec), a.fold);
    }
  }

  lemma FastRunIsWellScheduled(a: Args)
    requires GoodBars(a.bars) && ScoresSorted(a) && Backtested(a).Done?
    ensures WellScheduled(Backtested(a).trades, a)
  {
    if !NothingToDo(a) {
      FastExitsInWindow(a);
      WellScheduledIf(a, Exits(a));
    }
  }

  lemma TrailRunIsWellScheduled(a: Args, t: Trail)
    requires GoodBars(a.bars) && Plain(a)
    ensures WellScheduled(TrailBacktested(a, t), a)
  {
    if !NothingToDo(a) {
      TrailExitsInWindow(a, t);
      WellScheduledIf(a, TrailExits(a, t));
    }
  }

  // No signal's thresholds are crossed.
  predicate ThresholdsApart(a: Args)
    requires !Rejected(a)
  {
    forall j :: 0 <= j < |a.sigs| && a.sigs[j].px.Finite? ==> PositionAt(a, j).tp + PositionAt(a, j).sl >= 0.0
  }

  // Preferring the stop on ties leaves every entry, exit time and side as they
  // were and makes no trade more profitable.
  lemma ConservativeFastRunIsDominated(a: Args)
    requires GoodBars(a.bars) && !Rejected(a) && ThresholdsApart(a)
    ensures DominatedRun(Backtested(a.(conservative := true)).trades,
                         Backtested(a.(conservative := false)).trades)
  {
    var low, high := a.(conservative := true), a.(conservative := false);
    forall j | 0 <= j < |a.sigs| && Eligible(a.sigs[j], a.fold)
      ensures Dominated(a.sigs[j].dir, Exits(low)[j], Exits(high)[j])
    {
      var p := PositionAt(a, j);
      assert PositionAt(low, j) == p == PositionAt(high, j);
      FastDominance(a.bars, p);
      if a.score.Some? {
        EarlyDominance(ScoresOf(a), p, a.scoreThreshold, FastExit(a.bars, p, true), FastExit(a.bars, p, false));
      }
    }
    DominatedSchedule(a.sigs, Exits(low), Exits(high), a.fold);
  }

  lemma ConservativeTrailRunIsDominated(a: Args, t: Trail)
    requires GoodBars(a.bars) && Plain(a)
    requires a.takeProfit >= 0.0 && a.stopLoss >= 0.0 && t.distance >= 0.0
    requires forall k :: 0 <= k < |a.bars.ts| ==> a.bars.low[k] >= 0.0
    ensures DominatedRun(TrailBacktested(a.(conservative := true), t),
                         TrailBacktested(a.(conservative := false), t))
  {
    var low, high := a.(conservative := true), a.(conservative := false);
    forall j | 0 <= j < |a.sigs| && Eligible(a.sigs[j], a.fold)
      ensures Dominated(a.sigs[j].dir, TrailExits(low, t)[j], TrailExits(high, t)[j])
    {
      var p := PositionAt(a, j);
      assert PositionAt(low, j) == p == PositionAt(high, j);
      TrailDominance(a.bars, p, t, p.e0);
    }
    DominatedSchedule(a.sigs, TrailExits(low, t), TrailExits(high, t), a.fold);
  }
}
