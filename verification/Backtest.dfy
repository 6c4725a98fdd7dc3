// The backtest engine of research_on_data/pfd_optimizer/pfd_optimizer/backtest.py:
// data, the exit of a single trade, and the schedule of accepted trades.

module Backtest {
  import opened Options

  // One-second bars, as parallel arrays of one data frame sorted by time.
  datatype Bars = Bars(ts: seq<int>, high: seq<real>, low: seq<real>, close: seq<real>)

  predicate GoodBars(b: Bars) {
    && |b.high| == |b.ts| && |b.low| == |b.ts| && |b.close| == |b.ts|
    && forall i, j :: 0 <= i < j < |b.ts| ==> b.ts[i] <= b.ts[j]
  }

  datatype Price = Finite(value: real) | NotFinite

  type Direction = d: int | -1 <= d <= 1

  datatype Signal = Signal(ts: int, dir: Direction, px: Price)

  datatype Reason = TakeProfitHit | StopLossHit | TimedOut | TrailHit | SignalExit

  datatype Exit = Exit(ts: int, px: real, reason: Reason)

  datatype ClosedTrade = ClosedTrade(
    entryTs: int, exitTs: int, side: Direction, entryPx: real, exitPx: real,
    pnlPct: real, holdSec: int, reason: Reason)

  // The interval of signals that count, and the fee.
  datatype Fold = Fold(start: Option<int>, end: Option<int>, feeBps: real)

  function Min(a: int, b: int): int { if a < b then a else b }

  function Max(a: int, b: int): int { if a < b then b else a }

  // np.searchsorted(ts, x, side="right")
  function UpperBound(ts: seq<int>, x: int): (k: nat)
    ensures k <= |ts|
    ensures forall i :: 0 <= i < k ==> ts[i] <= x
    ensures k < |ts| ==> ts[k] > x
  {
    if ts == [] || ts[0] > x then 0 else 1 + UpperBound(ts[1..], x)
  }

  // np.argmax of a boolean array: the first true index, 0 if there is none.
  function ArgMax(hits: seq<bool>): (k: nat)
    requires hits != []
    ensures k < |hits|
    ensures hits[k] ==> forall i :: 0 <= i < k ==> !hits[i]
    ensures !hits[k] ==> k == 0 && forall i :: 0 <= i < |hits| ==> !hits[i]
  {
    if hits[0] || |hits| == 1 then 0
    else
      var k := ArgMax(hits[1..]);
      if hits[1..][k] then k + 1 else 0
  }

  function CalcPnl(entry: real, exit: real, side: Direction, feeBps: real): real
    requires entry != 0.0
  {
    var fee := feeBps / 10000.0;
    (side as real * (exit / entry - 1.0) - 2.0 * fee) * 100.0
  }

  // ------------------------------------------------------------ one position

  // A position opened at px: the bars it is checked on are e0 .. e1 - 1.
  datatype Position = Position(
    dir: Direction, ts: int, px: real, e0: nat, e1: nat, holdEnd: int, scanEnd: int,
    tp: real, sl: real)

  function ScanEnd(ts: int, holdMs: int, end: Option<int>): int {
    match end
    case None => ts + holdMs
    case Some(e) => Min(ts + holdMs, e)
  }

  function OpenPosition(b: Bars, sig: Signal, holdMs: int, end: Option<int>, tp: real, sl: real): (p: Position)
    requires sig.px.Finite?
    ensures p.e1 <= |b.ts|
  {
    var scanEnd := ScanEnd(sig.ts, holdMs, end);
    Position(sig.dir, sig.ts, sig.px.value, UpperBound(b.ts, sig.ts), UpperBound(b.ts, scanEnd),
             sig.ts + holdMs, scanEnd, tp, sl)
  }

  function TpThreshold(p: Position): real {
    if p.dir == 1 then p.px * (1.0 + p.tp) else p.px * (1.0 - p.tp)
  }

  function SlThreshold(p: Position): real {
    if p.dir == 1 then p.px * (1.0 - p.sl) else p.px * (1.0 + p.sl)
  }

  predicate HitsTp(b: Bars, p: Position, k: nat)
    requires GoodBars(b) && k < |b.ts|
  {
    if p.dir == 1 then b.high[k] >= TpThreshold(p) else b.low[k] <= TpThreshold(p)
  }

  predicate HitsStop(b: Bars, p: Position, k: nat, stop: real)
    requires GoodBars(b) && k < |b.ts|
  {
    if p.dir == 1 then b.low[k] <= stop else b.high[k] >= stop
  }

  // No threshold was touched: the last close, at the end of the window.
  function Timeout(b: Bars, p: Position): Exit
    requires GoodBars(b) && p.e1 <= |b.ts|
  {
    if p.e1 > p.e0 then
      var ts := Min(p.holdEnd, p.scanEnd);
      Exit(if ts <= p.ts then b.ts[p.e1 - 1] + 1000 else ts, b.close[p.e1 - 1], TimedOut)
    else Exit(p.ts, p.px, TimedOut)
  }

  function TpHits(b: Bars, p: Position): (hits: seq<bool>)
    requires GoodBars(b) && p.e0 < p.e1 <= |b.ts|
    ensures |hits| == p.e1 - p.e0
    ensures forall i :: 0 <= i < |hits| ==> hits[i] == HitsTp(b, p, p.e0 + i)
  {
    seq(p.e1 - p.e0, i requires 0 <= i < p.e1 - p.e0 => HitsTp(b, p, p.e0 + i))
  }

  function SlHits(b: Bars, p: Position): (hits: seq<bool>)
    requires GoodBars(b) && p.e0 < p.e1 <= |b.ts|
    ensures |hits| == p.e1 - p.e0
    ensures forall i :: 0 <= i < |hits| ==> hits[i] == HitsStop(b, p, p.e0 + i, SlThreshold(p))
  {
    seq(p.e1 - p.e0, i requires 0 <= i < p.e1 - p.e0 => HitsStop(b, p, p.e0 + i, SlThreshold(p)))
  }

  // The argmax, or -1 if it is not a hit.
  function FirstHit(hits: seq<bool>): (k: int)
    requires hits != []
    ensures -1 <= k < |hits|
    ensures k >= 0 ==> hits[k] && forall i :: 0 <= i < k ==> !hits[i]
    ensures k < 0 ==> forall i :: 0 <= i < |hits| ==> !hits[i]
  {
    if hits[ArgMax(hits)] then ArgMax(hits) else -1
  }

  // The vectorised exit of run_backtest.
  function FastExit(b: Bars, p: Position, conservative: bool): Exit
    requires GoodBars(b) && p.e1 <= |b.ts|
  {
    if p.e0 >= p.e1 then Exit(p.ts, p.px, TimedOut)
    else
      var iTp, iSl := FirstHit(TpHits(b, p)), FirstHit(SlHits(b, p));
      if iTp < 0 && iSl < 0 then Timeout(b, p)
      else if iSl < 0 then Exit(b.ts[p.e0 + iTp], TpThreshold(p), TakeProfitHit)
      else if iTp < 0 then Exit(b.ts[p.e0 + iSl], SlThreshold(p), StopLossHit)
      else if iSl < iTp then Exit(b.ts[p.e0 + iSl], SlThreshold(p), StopLossHit)
      else if iTp < iSl then Exit(b.ts[p.e0 + iTp], TpThreshold(p), TakeProfitHit)
      else if conservative then Exit(b.ts[p.e0 + iTp], SlThreshold(p), StopLossHit)
      else Exit(b.ts[p.e0 + iTp], TpThreshold(p), TakeProfitHit)
  }

  // The same by looking at one bar after the other.
  function ScanExit(b: Bars, p: Position, conservative: bool, k: nat): Exit
    requires GoodBars(b) && p.e1 <= |b.ts|
    decreases p.e1 - k
  {
    if k >= p.e1 then Timeout(b, p)
    else if HitsStop(b, p, k, SlThreshold(p)) && (conservative || !HitsTp(b, p, k)) then
      Exit(b.ts[k], SlThreshold(p), StopLossHit)
    else if HitsTp(b, p, k) then Exit(b.ts[k], TpThreshold(p), TakeProfitHit)
    else ScanExit(b, p, conservative, k + 1)
  }

  // ------------------------------------------------------------ trailing stop

  datatype Trail = Trail(distance: real, activation: real)

  function ActivationPx(p: Position, t: Trail): real {
    if p.dir == 1 then p.px * (1.0 + t.activation) else p.px * (1.0 - t.activation)
  }

  function BetterPx(p: Position, best: real, b: Bars, k: nat): real
    requires GoodBars(b) && k < |b.ts|
  {
    if p.dir == 1 then (if b.high[k] > best then b.high[k] else best)
    else (if b.low[k] < best then b.low[k] else best)
  }

  predicate Activated(p: Position, t: Trail, best: real) {
    if p.dir == 1 then best >= ActivationPx(p, t) else best <= ActivationPx(p, t)
  }

  function Candidate(p: Position, t: Trail, best: real): real {
    if p.dir == 1 then best * (1.0 - t.distance) else best * (1.0 + t.distance)
  }

  // The better of two stops for the position.
  function TighterStop(p: Position, stop: real, candidate: real): real {
    if p.dir == 1 then (if candidate > stop then candidate else stop)
    else (if candidate < stop then candidate else stop)
  }

  datatype TrailState = TrailState(stop: real, best: real)

  function TrailStart(p: Position): TrailState { TrailState(SlThreshold(p), p.px) }

  function TrailStep(b: Bars, p: Position, t: Trail, st: TrailState, k: nat): TrailState
    requires GoodBars(b) && k < |b.ts|
  {
    var best := BetterPx(p, st.best, b, k);
    TrailState(if Activated(p, t, best) then TighterStop(p, st.stop, Candidate(p, t, best)) else st.stop, best)
  }

  // Stop and best price when bar k is looked at, no exit having happened before.
  function TrailAt(b: Bars, p: Position, t: Trail, k: nat): TrailState
    requires GoodBars(b) && k <= |b.ts|
  {
    if k <= p.e0 then TrailStart(p) else TrailStep(b, p, t, TrailAt(b, p, t, k - 1), k - 1)
  }

  // The exit that a touched stop or take-profit at bar k leads to.
  function BarExit(b: Bars, p: Position, conservative: bool, k: nat, stop: real): Exit
    requires GoodBars(b) && k < |b.ts|
  {
    if HitsStop(b, p, k, stop) && (conservative || !HitsTp(b, p, k)) then
      Exit(b.ts[k], stop, if stop != SlThreshold(p) then TrailHit else StopLossHit)
    else Exit(b.ts[k], TpThreshold(p), TakeProfitHit)
  }

  function TrailExit(b: Bars, p: Position, t: Trail, conservative: bool, k: nat): Exit
    requires GoodBars(b) && p.e1 <= |b.ts|
    decreases p.e1 - k
  {
    if k >= p.e1 then Timeout(b, p)
    else
      var stop := TrailAt(b, p, t, k).stop;
      if HitsStop(b, p, k, stop) || HitsTp(b, p, k) then BarExit(b, p, conservative, k, stop)
      else TrailExit(b, p, t, conservative, k + 1)
  }

  // ------------------------------------------------------- early exit by score

  // Interval scores; None stands for a value that is not finite.
  datatype Scores = Scores(ts: seq<int>, score: seq<Option<real>>, px: seq<real>)

  predicate GoodScores(s: Scores) { |s.score| == |s.ts| && |s.px| == |s.ts| }

  predicate ScoreHit(score: Option<real>, dir: Direction, threshold: real) {
    score.Some? && (if dir == 1 then score.value <= -threshold else score.value >= threshold)
  }

  function ScoreHits(s: Scores, p: Position, threshold: real, k0: nat, k1: nat): (hits: seq<bool>)
    requires GoodScores(s) && k0 < k1 <= |s.ts|
    ensures |hits| == k1 - k0
    ensures forall i :: 0 <= i < |hits| ==> hits[i] == ScoreHit(s.score[k0 + i], p.dir, threshold)
  {
    seq(k1 - k0, i requires 0 <= i < k1 - k0 => ScoreHit(s.score[k0 + i], p.dir, threshold))
  }

  function EarlyExit(s: Scores, p: Position, threshold: real, exit: Exit): Exit
    requires GoodScores(s)
  {
    var k0, k1 := UpperBound(s.ts, p.ts), UpperBound(s.ts, p.scanEnd);
    if k0 >= k1 then exit
    else
      var idx := FirstHit(ScoreHits(s, p, threshold, k0, k1));
      if idx >= 0 && s.ts[k0 + idx] < exit.ts then Exit(s.ts[k0 + idx], s.px[k0 + idx], SignalExit)
      else exit
  }

  // --------------------------------------------------------------- schedule

  predicate Eligible(sig: Signal, f: Fold) {
    && sig.dir != 0
    && (f.start.Some? ==> f.start.value <= sig.ts)
    && (f.end.Some? ==> sig.ts <= f.end.value)
    && sig.px.Finite? && sig.px.value > 0.0
  }

  function MakeTrade(sig: Signal, exit: Exit, f: Fold): ClosedTrade
    requires Eligible(sig, f)
  {
    ClosedTrade(sig.ts, exit.ts, sig.dir, sig.px.value, exit.px,
          CalcPnl(sig.px.value, exit.px, sig.dir, f.feeBps),
          Max(0, (exit.ts - sig.ts) / 1000), exit.reason)
  }

  // The trades taken, which signals they came from, and the latest exit time.
  datatype Book = Book(trades: seq<ClosedTrade>, picked: seq<nat>, lastExit: int)

  // The trades taken from signals whose exits, if taken, would be as given.
  function Schedule(sigs: seq<Signal>, exits: seq<Exit>, f: Fold): (book: Book)
    requires |exits| == |sigs|
  {
    if sigs == [] then Book([], [], -1)
    else
      var n := |sigs| - 1;
      var before := Schedule(sigs[..n], exits[..n], f);
      if !Eligible(sigs[n], f) || sigs[n].ts < before.lastExit then before
      else
        Book(before.trades + [MakeTrade(sigs[n], exits[n], f)], before.picked + [n],
             Max(before.lastExit, exits[n].ts))
  }
}
