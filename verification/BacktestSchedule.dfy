// Which signals become trades: properties of whole schedules.

module BacktestSchedule {
  import opened Options
  import opened Backtest
  import opened BacktestExits

  // --------------------------------------------------------------- structure

  predicate Increasing(s: seq<nat>) {
    forall i, j :: 0 <= i < j < |s| ==> s[i] < s[j]
  }

  // Every trade is made from a signal that qualifies, in signal order.
  predicate MadeFrom(book: Book, sigs: seq<Signal>, exits: seq<Exit>, f: Fold)
    requires |exits| == |sigs|
  {
    && |book.picked| == |book.trades| && Increasing(book.picked)
    && forall i :: 0 <= i < |book.trades| ==>
         && book.picked[i] < |sigs| && Eligible(sigs[book.picked[i]], f)
         && book.trades[i] == MakeTrade(sigs[book.picked[i]], exits[book.picked[i]], f)
  }

  lemma {:induction false} TradesComeFromSignals(sigs: seq<Signal>, exits: seq<Exit>, f: Fold)
    requires |exits| == |sigs|
    ensures MadeFrom(Schedule(sigs, exits, f), sigs, exits, f)
  {
    if sigs != [] {
      TradesComeFromSignals(sigs[..|sigs| - 1], exits[..|sigs| - 1], f);
    }
  }

  // One position at a time: a trade begins only when all before it have ended.
  predicate OneAtATime(trades: seq<ClosedTrade>) {
    forall i, j :: 0 <= i < j < |trades| ==> trades[i].exitTs <= trades[j].entryTs
  }

  predicate LastExitIsLatest(book: Book) {
    && book.lastExit >= -1
    && (forall i :: 0 <= i < |book.trades| ==> book.trades[i].exitTs <= book.lastExit)
    && (book.lastExit == -1 || exists i :: 0 <= i < |book.trades| && book.trades[i].exitTs == book.lastExit)
  }

  lemma {:induction false} TradesDoNotOverlap(sigs: seq<Signal>, exits: seq<Exit>, f: Fold)
    requires |exits| == |sigs|
    ensures OneAtATime(Schedule(sigs, exits, f).trades) && LastExitIsLatest(Schedule(sigs, exits, f))
  {
    if sigs != [] {
      var n := |sigs| - 1;
      var before := Schedule(sigs[..n], exits[..n], f);
      var book := Schedule(sigs, exits, f);
      TradesDoNotOverlap(sigs[..n], exits[..n], f);
      if book != before {
        assert book.trades[|before.trades|] == MakeTrade(sigs[n], exits[n], f);
        if before.lastExit != -1 {
          var i :| 0 <= i < |before.trades| && before.trades[i].exitTs == before.lastExit;
          assert book.trades[i].exitTs == before.lastExit;
        }
      }
    }
  }

  // A qualifying signal is passed over only because it lies strictly before
  // the exit of a trade taken earlier (or before the initial bound of -1 ms).
  predicate Covered(j: nat, book: Book, sigs: seq<Signal>)
    requires j < |sigs| && |book.picked| == |book.trades|
  {
    || sigs[j].ts < -1
    || exists i :: 0 <= i < |book.trades| && book.picked[i] < j && sigs[j].ts < book.trades[i].exitTs
  }

  lemma {:induction false} SkippedSignalsAreCovered(sigs: seq<Signal>, exits: seq<Exit>, f: Fold, j: nat)
    requires |exits| == |sigs| && j < |sigs| && Eligible(sigs[j], f)
    ensures |Schedule(sigs, exits, f).picked| == |Schedule(sigs, exits, f).trades|
    ensures j in Schedule(sigs, exits, f).picked || Covered(j, Schedule(sigs, exits, f), sigs)
  {
    var n := |sigs| - 1;
    var before := Schedule(sigs[..n], exits[..n], f);
    var book := Schedule(sigs, exits, f);
    TradesComeFromSignals(sigs, exits, f);
    TradesComeFromSignals(sigs[..n], exits[..n], f);
    TradesDoNotOverlap(sigs[..n], exits[..n], f);
    if j == n {
      if book == before && sigs[n].ts >= -1 {
        var i :| 0 <= i < |before.trades| && before.trades[i].exitTs == before.lastExit;
        assert book.picked[i] < j && sigs[j].ts < book.trades[i].exitTs;
      } else if book != before {
        assert book.picked[|before.picked|] == n;
      }
    } else {
      SkippedSignalsAreCovered(sigs[..n], exits[..n], f, j);
      if j in before.picked {
        var i :| 0 <= i < |before.picked| && before.picked[i] == j;
        assert book.picked[i] == j;
      } else if sigs[j].ts >= -1 {
        var i :| 0 <= i < |before.trades| && before.picked[i] < j && sigs[j].ts < before.trades[i].exitTs;
        assert book.picked[i] < j && sigs[j].ts < book.trades[i].exitTs;
      }
    }
  }

  // ------------------------------------------------------------------- time

  // A trade lies inside the fold and its holding window.
  predicate InHoldingWindow(t: ClosedTrade, holdMs: int, f: Fold) {
    && (f.start.Some? ==> f.start.value <= t.entryTs)
    && t.entryTs <= t.exitTs <= Max(t.entryTs, ScanEnd(t.entryTs, holdMs, f.end))
    && (f.end.Some? ==> t.exitTs <= f.end.value)
  }

  predicate ExitsInWindow(sigs: seq<Signal>, exits: seq<Exit>, holdMs: int, f: Fold)
    requires |exits| == |sigs|
  {
    forall j :: 0 <= j < |sigs| && Eligible(sigs[j], f) ==>
      sigs[j].ts <= exits[j].ts <= Max(sigs[j].ts, ScanEnd(sigs[j].ts, holdMs, f.end))
  }

  lemma {:induction false} TradesInHoldingWindow(sigs: seq<Signal>, exits: seq<Exit>, holdMs: int, f: Fold)
    requires |exits| == |sigs| && ExitsInWindow(sigs, exits, holdMs, f)
    ensures forall t :: t in Schedule(sigs, exits, f).trades ==> InHoldingWindow(t, holdMs, f)
  {
    TradesComeFromSignals(sigs, exits, f);
  }

  // metrics.py: milliseconds covered by the trades, clipped to the fold.
  function CoveredMs(trades: seq<ClosedTrade>, start: Option<int>, end: Option<int>): nat {
    if trades == [] then 0
    else
      var t := trades[|trades| - 1];
      var lo := if start.Some? then Max(t.entryTs, start.value) else t.entryTs;
      var hi := if end.Some? then Min(t.exitTs, end.value) else t.exitTs;
      CoveredMs(trades[..|trades| - 1], start, end) + Max(0, hi - lo)
  }

  function TimeInPositionSec(trades: seq<ClosedTrade>, start: Option<int>, end: Option<int>): real {
    CoveredMs(trades, start, end) as real / 1000.0
  }

  // The time from entry to exit of all trades.
  function HeldMs(trades: seq<ClosedTrade>): int {
    if trades == [] then 0
    else HeldMs(trades[..|trades| - 1]) + (trades[|trades| - 1].exitTs - trades[|trades| - 1].entryTs)
  }

  // Trades inside the fold are covered from entry to exit.
  lemma {:induction false} CoveredIsHeld(trades: seq<ClosedTrade>, holdMs: int, f: Fold)
    requires forall k :: 0 <= k < |trades| ==> InHoldingWindow(trades[k], holdMs, f)
    ensures CoveredMs(trades, f.start, f.end) == HeldMs(trades)
  {
    if trades != [] {
      assert InHoldingWindow(trades[|trades| - 1], holdMs, f);
      CoveredIsHeld(trades[..|trades| - 1], holdMs, f);
    }
  }

  lemma {:induction false} CoveredUpTo(trades: seq<ClosedTrade>, start: int, end: int, latest: int)
    requires OneAtATime(trades)
    requires forall i :: 0 <= i < |trades| ==> trades[i].entryTs <= trades[i].exitTs <= latest
    ensures CoveredMs(trades, Some(start), Some(end)) <= Max(0, Min(end, latest) - start)
  {
    if trades != [] {
      var last := trades[|trades| - 1];
      CoveredUpTo(trades[..|trades| - 1], start, end, last.entryTs);
    }
  }

  // The time in position never exceeds the length of the fold.
  lemma {:induction false} TimeInPositionFitsFold(sigs: seq<Signal>, exits: seq<Exit>, holdMs: int, f: Fold)
    requires |exits| == |sigs| && ExitsInWindow(sigs, exits, holdMs, f)
    requires f.start.Some? && f.end.Some?
    ensures TimeInPositionSec(Schedule(sigs, exits, f).trades, f.start, f.end) <=
            Max(0, f.end.value - f.start.value) as real / 1000.0
  {
    var trades := Schedule(sigs, exits, f).trades;
    TradesDoNotOverlap(sigs, exits, f);
    TradesInHoldingWindow(sigs, exits, holdMs, f);
    assert forall i :: 0 <= i < |trades| ==> trades[i] in trades;
    CoveredUpTo(trades, f.start.value, f.end.value, f.end.value);
  }

  // ------------------------------------------------------- comparing two runs

  lemma {:induction false} SameExitsSameSchedule(sigs: seq<Signal>, a: seq<Exit>, b: seq<Exit>, f: Fold)
    requires |a| == |b| == |sigs|
    requires forall j :: 0 <= j < |sigs| && Eligible(sigs[j], f) ==> a[j] == b[j]
    ensures Schedule(sigs, a, f) == Schedule(sigs, b, f)
  {
    if sigs != [] {
      var n := |sigs| - 1;
      SameExitsSameSchedule(sigs[..n], a[..n], b[..n], f);
    }
  }

  // The same trade except for its exit price and reason, with no more profit.
  predicate DominatedTrade(low: ClosedTrade, high: ClosedTrade) {
    && low.entryTs == high.entryTs && low.exitTs == high.exitTs && low.side == high.side
    && low.entryPx == high.entryPx && low.holdSec == high.holdSec
    && low.pnlPct <= high.pnlPct
  }

  predicate DominatedRun(low: seq<ClosedTrade>, high: seq<ClosedTrade>) {
    |low| == |high| && forall i :: 0 <= i < |low| ==> DominatedTrade(low[i], high[i])
  }

  lemma {:induction false} DominatedSchedule(sigs: seq<Signal>, low: seq<Exit>, high: seq<Exit>, f: Fold)
    requires |low| == |high| == |sigs|
    requires forall j :: 0 <= j < |sigs| && Eligible(sigs[j], f) ==> Dominated(sigs[j].dir, low[j], high[j])
    ensures DominatedRun(Schedule(sigs, low, f).trades, Schedule(sigs, high, f).trades)
    ensures Schedule(sigs, low, f).lastExit == Schedule(sigs, high, f).lastExit
  {
    if sigs != [] {
      var n := |sigs| - 1;
      DominatedSchedule(sigs[..n], low[..n], high[..n], f);
      if Eligible(sigs[n], f) {
        NoBetterPnl(sigs[n].px.value, sigs[n].dir, low[n].px, high[n].px, f.feeBps);
      }
    }
  }
}
