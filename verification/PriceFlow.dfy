// The price-flow divergence: the array formulas of pfd_indicator.py, and the
// ring buffers of price_flow_divergence.cpp that compute them interval by
// interval. Square root is a parameter, so nothing depends on how it rounds.

module PriceFlow {
  import opened Medians

  type Price = p: real | p > 0.0 witness 1.0

  datatype Side = Unknown | Buy | Sell

  datatype Settings = Settings(window: nat, sigma: real, confirm: nat, volWindow: nat, volMin: real, volMax: real,
                               sqrt: real -> real)

  predicate Proper(c: Settings) { c.window >= 2 && c.sigma > 0.0 }

  const TINY := 0.000000001

  // ----------------------------------------------------------- array formulas

  function Sum(xs: seq<real>): real {
    if xs == [] then 0.0 else Sum(xs[..|xs| - 1]) + xs[|xs| - 1]
  }

  function SumOfSquares(xs: seq<real>, mean: real): real {
    if xs == [] then 0.0
    else
      var x := xs[|xs| - 1];
      SumOfSquares(xs[..|xs| - 1], mean) + (x - mean) * (x - mean)
  }

  function Mean(xs: seq<real>): real
    requires xs != []
  {
    Sum(xs) / |xs| as real
  }

  // The sample variance.
  function Variance(xs: seq<real>): real
    requires |xs| >= 2
  {
    SumOfSquares(xs, Mean(xs)) / (|xs| - 1) as real
  }

  function Change(from: Price, to: Price): real { to as real / from as real - 1.0 }

  // The return that ends at each price but the first.
  function Returns(prices: seq<Price>): (rs: seq<real>)
    ensures |rs| == if prices == [] then 0 else |prices| - 1
  {
    if prices == [] then [] else seq(|prices| - 1, k requires 0 <= k < |prices| - 1 => Change(prices[k], prices[k + 1]))
  }

  // The closing price and the normalized flow of every interval.
  datatype Series = Series(prices: seq<Price>, flows: seq<real>)

  predicate Aligned(h: Series) { |h.prices| == |h.flows| }

  function Appended(h: Series, price: Price, flow: real): Series {
    Series(h.prices + [price], h.flows + [flow])
  }

  datatype Components = Components(tr: real, sigPx: real, meanFlow: real, stdFlow: real, comb: real)

  predicate IsValid(sigPx: real, stdFlow: real) { sigPx >= TINY && stdFlow >= TINY }

  // What the formulas read: the change over the window, its returns and flows.
  datatype Window = Window(change: real, steps: seq<real>, flows: seq<real>)

  // The components of a window; the score is zero when a deviation is too small.
  function WindowComponents(c: Settings, w: Window): Components
    requires |w.steps| >= 2 && |w.flows| >= 2
  {
    var sqrtW := c.sqrt(c.window as real);
    var sigPx, stdFlow := c.sqrt(Variance(w.steps)) * sqrtW, c.sqrt(Variance(w.flows));
    Components(w.change, sigPx, Mean(w.flows), stdFlow,
               if IsValid(sigPx, stdFlow) then w.change / sigPx - Mean(w.flows) * sqrtW / stdFlow else 0.0)
  }

  // The window of interval i; the flows end at flowEnd.
  function WindowAt(c: Settings, h: Series, i: nat, flowEnd: nat): (w: Window)
    requires Proper(c) && c.window <= i < |h.prices| && c.window - 1 <= flowEnd < |h.flows|
    ensures |w.steps| == |w.flows| == c.window
  {
    Window(Change(h.prices[i - c.window], h.prices[i]), Returns(h.prices)[i - c.window..i],
           h.flows[flowEnd + 1 - c.window..flowEnd + 1])
  }

  function ComponentsAt(c: Settings, h: Series, i: nat, flowEnd: nat): Components
    requires Proper(c) && c.window <= i < |h.prices| && c.window - 1 <= flowEnd < |h.flows|
  {
    WindowComponents(c, WindowAt(c, h, i, flowEnd))
  }

  // The arrays of compute_pfd_components end the flow window one interval back.
  function ArrayComponents(c: Settings, h: Series, i: nat): Components
    requires Proper(c) && Aligned(h) && c.window <= i < |h.prices|
  {
    ComponentsAt(c, h, i, i - 1)
  }

  // The components of every interval that has a full window.
  ghost predicate Describes(c: Settings, h: Series, xs: seq<Components>)
    requires Proper(c) && Aligned(h)
  {
    |xs| == (if |h.prices| <= c.window then 0 else |h.prices| - c.window) &&
    forall i {:trigger ComponentsAt(c, h, i, i)} :: c.window <= i < |h.prices| ==>
                                                      xs[i - c.window] == ComponentsAt(c, h, i, i)
  }

  function RawSide(c: Settings, comb: real): Side {
    if comb >= c.sigma then Buy else if comb <= -c.sigma then Sell else Unknown
  }

  function RawSides(c: Settings, xs: seq<Components>): (raws: seq<Side>)
    ensures |raws| == |xs|
  {
    seq(|xs|, k requires 0 <= k < |xs| => RawSide(c, xs[k].comb))
  }

  // The raw signals of all intervals; those without a full window have none.
  function Raws(c: Settings, xs: seq<Components>): seq<Side> {
    seq(c.window, _ => Unknown) + RawSides(c, xs)
  }

  // A raw signal and the n before it are the same side.
  function ConfirmedAt(raws: seq<Side>, i: nat, n: nat): Side
    requires i < |raws|
  {
    if i >= n && (forall j :: i - n <= j < i ==> raws[j] == raws[i]) then raws[i] else Unknown
  }

  // The confirmation loop of compute_signals_from_components.
  method ConfirmLoop(signal: seq<Side>, confirmIntervals: nat) returns (confirmed: seq<Side>)
    ensures |confirmed| == |signal|
    ensures forall i :: 0 <= i < |signal| ==> confirmed[i] == ConfirmedAt(signal, i, confirmIntervals)
  {
    confirmed := seq(|signal|, _ => Unknown);
    if confirmIntervals == 0 {
      return signal;
    }
    var i := confirmIntervals;
    while i < |signal|
      invariant |confirmed| == |signal|
      invariant forall k :: 0 <= k < i && k < |signal| ==> confirmed[k] == ConfirmedAt(signal, k, confirmIntervals)
      invariant forall k :: i <= k < |signal| ==> confirmed[k] == Unknown
      invariant i >= confirmIntervals
    {
      if signal[i] != Unknown {
        var ok := true;
        var j := 1;
        while ok && j <= confirmIntervals
          invariant 1 <= j <= confirmIntervals + 1
          invariant ok ==> forall k :: i - j < k < i ==> signal[k] == signal[i]
          invariant !ok ==> exists k :: i - confirmIntervals <= k < i && signal[k] != signal[i]
        {
          if signal[i - j] != signal[i] {
            ok := false;
          }
          j := j + 1;
        }
        if ok {
          confirmed := confirmed[i := signal[i]];
        }
      }
      i := i + 1;
    }
  }

  // The volatilities of the valid intervals.
  function ValidVols(xs: seq<Components>): seq<real> {
    if xs == [] then []
    else
      var x := xs[|xs| - 1];
      ValidVols(xs[..|xs| - 1]) + if IsValid(x.sigPx, x.stdFlow) then [x.sigPx] else []
  }

  function Last<T>(xs: seq<T>, n: nat): seq<T> { if |xs| <= n then xs else xs[|xs| - n..] }

  // The ratio of a volatility to the median lies in the range.
  predicate InRegime(c: Settings, sigPx: real, median: real) {
    median > 0.0 && c.volMin <= sigPx / median <= c.volMax
  }

  // Whether the full window of volatilities lets a volatility pass.
  predicate WindowOk(c: Settings, vols: seq<real>, sigPx: real) {
    c.volWindow < 2 || (|vols| >= c.volWindow && InRegime(c, sigPx, Median(vols)))
  }

  predicate VolOk(c: Settings, xs: seq<Components>)
    requires xs != []
  {
    var x := xs[|xs| - 1];
    IsValid(x.sigPx, x.stdFlow) && WindowOk(c, Last(ValidVols(xs), c.volWindow), x.sigPx)
  }

  // The signal after all components so far.
  function SignalAfter(c: Settings, xs: seq<Components>): Side {
    if xs == [] || !VolOk(c, xs) then Unknown
    else
      var raws := Raws(c, xs);
      ConfirmedAt(raws, |raws| - 1, c.confirm)
  }

  // --------------------------------------------------- what a signal stands for

  // The last interval has deviations, and a volatility in the band around the
  // median of the last valid ones, when the filter is on.
  predicate Tradable(c: Settings, xs: seq<Components>) {
    xs != [] && xs[|xs| - 1].sigPx >= TINY && xs[|xs| - 1].stdFlow >= TINY &&
    (c.volWindow < 2 ||
     (|ValidVols(xs)| >= c.volWindow && InBand(c, xs[|xs| - 1].sigPx, Median(Last(ValidVols(xs), c.volWindow)))))
  }

  // The last score and those of the intervals that confirm it are all high.
  predicate ScoresHigh(c: Settings, xs: seq<Components>) {
    |xs| > c.confirm && forall k :: |xs| - 1 - c.confirm <= k < |xs| ==> xs[k].comb >= c.sigma
  }

  predicate ScoresLow(c: Settings, xs: seq<Components>) {
    |xs| > c.confirm && forall k :: |xs| - 1 - c.confirm <= k < |xs| ==> xs[k].comb <= -c.sigma
  }

  lemma VolOkIsTradable(c: Settings, xs: seq<Components>)
    requires xs != []
    ensures VolOk(c, xs) <==> Tradable(c, xs)
  {
    if c.volWindow >= 2 && |ValidVols(xs)| >= c.volWindow {
      BandIsRegime(c, xs[|xs| - 1].sigPx, Median(Last(ValidVols(xs), c.volWindow)));
    }
  }

  // When a known side is confirmed.
  lemma ConfirmedIff(raws: seq<Side>, i: nat, n: nat, side: Side)
    requires i < |raws| && side != Unknown
    ensures ConfirmedAt(raws, i, n) == side <==> i >= n && forall j :: i - n <= j <= i ==> raws[j] == side
  {
  }

  lemma ScoresAreRaws(c: Settings, xs: seq<Components>)
    requires Proper(c) && xs != []
    ensures var raws := Raws(c, xs);
            var i := |raws| - 1;
            && (ScoresHigh(c, xs) <==> i >= c.confirm && forall j :: i - c.confirm <= j <= i ==> raws[j] == Buy)
            && (ScoresLow(c, xs) <==> i >= c.confirm && forall j :: i - c.confirm <= j <= i ==> raws[j] == Sell)
  {
    var raws := Raws(c, xs);
    var i := |raws| - 1;
    if |xs| > c.confirm {
      assert forall k :: 0 <= k < |xs| ==> raws[c.window + k] == RawSide(c, xs[k].comb);
      assert forall j :: c.window <= j <= i ==> raws[j] == RawSide(c, xs[j - c.window].comb);
    } else if i >= c.confirm {
      assert raws[i - c.confirm] == Unknown;
    }
  }

  // A signal to buy is exactly a tradable interval with high scores, a signal
  // to sell one with low scores.
  lemma SignalIff(c: Settings, xs: seq<Components>)
    requires Proper(c)
    ensures SignalAfter(c, xs) == Buy <==> Tradable(c, xs) && ScoresHigh(c, xs)
    ensures SignalAfter(c, xs) == Sell <==> Tradable(c, xs) && ScoresLow(c, xs)
  {
    if xs != [] {
      var raws := Raws(c, xs);
      VolOkIsTradable(c, xs);
      ConfirmedIff(raws, |raws| - 1, c.confirm, Buy);
      ConfirmedIff(raws, |raws| - 1, c.confirm, Sell);
      ScoresAreRaws(c, xs);
    }
  }

  // -------------------------------------------------------------- ring buffers

  // push_back of a circular buffer.
  function Push<T>(buffer: seq<T>, capacity: nat, x: T): seq<T> { Last(buffer + [x], capacity) }

  lemma PushIsLast<T>(xs: seq<T>, capacity: nat, x: T)
    ensures Push(Last(xs, capacity), capacity, x) == Last(xs + [x], capacity)
  {
  }

  lemma SumSnoc(xs: seq<real>, x: real)
    ensures Sum(xs + [x]) == Sum(xs) + x
  {
    assert (xs + [x])[..|xs|] == xs;
  }

  lemma SquaresSnoc(xs: seq<real>, x: real, mean: real)
    ensures SumOfSquares(xs + [x], mean) == SumOfSquares(xs, mean) + (x - mean) * (x - mean)
  {
    assert (xs + [x])[..|xs|] == xs;
  }

  method ReturnAt(buf: seq<Price>, i: nat) returns (r: real)
    requires 1 <= i < |buf|
    ensures r == Returns(buf)[i - 1]
  {
    r := Change(buf[i - 1], buf[i]);
  }

  // The volatility part of rollInterval, without the square root.
  method ReturnVariance(buf: seq<Price>) returns (variance: real)
    requires |buf| >= 3
    ensures variance == Variance(Returns(buf))
  {
    ghost var rs := Returns(buf);
    var meanRet := 0.0;
    for i := 1 to |buf|
      invariant meanRet == Sum(rs[..i - 1])
    {
      var r := ReturnAt(buf, i);
      SumSnoc(rs[..i - 1], r);
      assert rs[..i] == rs[..i - 1] + [r];
      meanRet := meanRet + r;
    }
    assert rs[..|buf| - 1] == rs;
    meanRet := meanRet / (|buf| - 1) as real;
    var sumDeltaSquare := 0.0;
    for i := 1 to |buf|
      invariant sumDeltaSquare == SumOfSquares(rs[..i - 1], meanRet)
    {
      var r := ReturnAt(buf, i);
      SquaresSnoc(rs[..i - 1], r, meanRet);
      assert rs[..i] == rs[..i - 1] + [r];
      sumDeltaSquare := sumDeltaSquare + (r - meanRet) * (r - meanRet);
    }
    variance := sumDeltaSquare / (|buf| - 2) as real;
  }

  // calcLastStats, without the square root.
  method CalcLastStats(buf: seq<real>, count: nat) returns (mean: real, variance: real)
    requires 2 <= count <= |buf|
    ensures mean == Mean(Last(buf, count)) && variance == Variance(Last(buf, count))
  {
    ghost var last := Last(buf, count);
    var first := |buf| - count;
    mean := CalcMean(buf, first, last);
    var sumDeltaSquare := 0.0;
    for i := first to |buf|
      invariant sumDeltaSquare == SumOfSquares(last[..i - first], mean)
    {
      ghost var k := i - first;
      SquaresSnoc(last[..k], buf[i], mean);
      assert last[..k + 1] == last[..k] + [buf[i]];
      sumDeltaSquare := sumDeltaSquare + (buf[i] - mean) * (buf[i] - mean);
    }
    assert last[..count] == last;
    variance := sumDeltaSquare / (count - 1) as real;
  }

  method CalcMean(buf: seq<real>, first: nat, ghost last: seq<real>) returns (mean: real)
    requires first < |buf| && last == buf[first..]
    ensures mean == Mean(last)
  {
    var sum := 0.0;
    for i := first to |buf|
      invariant sum == Sum(last[..i - first])
    {
      ghost var k := i - first;
      SumSnoc(last[..k], buf[i]);
      assert last[..k + 1] == last[..k] + [buf[i]];
      sum := sum + buf[i];
    }
    assert last[..|last|] == last;
    mean := sum / (|buf| - first) as real;
  }

  // The confirmation of checkSignal against the buffer of previous signals.
  function Confirmed(buffer: seq<Side>, capacity: nat, raw: Side): Side {
    if |buffer| == capacity && (forall k :: 0 <= k < |buffer| ==> buffer[k] == raw) then raw else Unknown
  }

  method Confirm(buffer: seq<Side>, capacity: nat, rawSignal: Side) returns (confirmedSignal: Side)
    requires |buffer| <= capacity
    ensures confirmedSignal == Confirmed(buffer, capacity, rawSignal)
  {
    confirmedSignal := rawSignal;
    if |buffer| < capacity {
      return Unknown;
    }
    for k := 0 to |buffer|
      invariant forall j :: 0 <= j < k ==> buffer[j] == rawSignal
    {
      if buffer[k] != rawSignal {
        return Unknown;
      }
    }
  }

  // The buffer of the last signals confirms as the loop over the whole array
  // does, when the first ones are unknown and are left out of the buffer.
  lemma BufferConfirmsAsLoop(raws: seq<Side>, w: nat, n: nat)
    requires w < |raws| && forall k :: 0 <= k < w ==> raws[k] == Unknown
    ensures var i := |raws| - 1;
            Confirmed(Last(raws[w..i], n), n, raws[i]) == ConfirmedAt(raws, i, n)
  {
    var i := |raws| - 1;
    var buffer := Last(raws[w..i], n);
    if |buffer| == n {
      assert buffer == raws[i - n..i];
      assert forall k :: i - n <= k < i ==> raws[k] == buffer[k - (i - n)];
    } else if i >= n && raws[i] != Unknown {
      assert raws[i - n] == Unknown;
    }
  }

  // ------------------------------------------------------------- prefix lemmas

  lemma WindowGrows(c: Settings, h: Series, price: Price, flow: real, i: nat)
    requires Proper(c) && Aligned(h) && c.window <= i < |h.prices|
    ensures WindowAt(c, Appended(h, price, flow), i, i) == WindowAt(c, h, i, i)
  {
    var h' := Appended(h, price, flow);
    assert Returns(h'.prices)[i - c.window..i] == Returns(h.prices)[i - c.window..i];
    assert h'.flows[i + 1 - c.window..i + 1] == h.flows[i + 1 - c.window..i + 1];
  }

  lemma ComponentsGrow(c: Settings, h: Series, price: Price, flow: real, i: nat)
    requires Proper(c) && Aligned(h) && c.window <= i < |h.prices|
    ensures ComponentsAt(c, Appended(h, price, flow), i, i) == ComponentsAt(c, h, i, i)
  {
    WindowGrows(c, h, price, flow, i);
  }

  lemma DescriptionGrows(c: Settings, h: Series, price: Price, flow: real, xs: seq<Components>, x: Components)
    requires Proper(c) && Aligned(h) && Describes(c, h, xs)
    requires |h.prices| >= c.window && x == ComponentsAt(c, Appended(h, price, flow), |h.prices|, |h.prices|)
    ensures Describes(c, Appended(h, price, flow), xs + [x])
  {
    var h' := Appended(h, price, flow);
    forall i | c.window <= i < |h.prices|
      ensures ComponentsAt(c, h', i, i) == ComponentsAt(c, h, i, i)
    {
      ComponentsGrow(c, h, price, flow, i);
    }
  }

  lemma DescriptionStarts(c: Settings, h: Series, price: Price, flow: real, xs: seq<Components>)
    requires Proper(c) && Aligned(h) && Describes(c, h, xs)
    ensures |h.prices| < c.window ==> Describes(c, Appended(h, price, flow), xs)
  {
  }

  // The full buffers hold the window of the last interval.
  lemma {:induction false} BuffersHoldWindow(c: Settings, h: Series)
    requires Proper(c) && Aligned(h) && |h.prices| > c.window
    ensures var i, buf := |h.prices| - 1, Last(h.prices, c.window + 1);
            |buf| == c.window + 1 && WindowAt(c, h, i, i) ==
            Window(Change(buf[0], buf[c.window]), Returns(buf), Last(Last(h.flows, c.window + 1), c.window))
  {
    var i, buf := |h.prices| - 1, Last(h.prices, c.window + 1);
    assert buf == h.prices[i - c.window..];
    assert Returns(buf) == Returns(h.prices)[i - c.window..i];
    assert Last(Last(h.flows, c.window + 1), c.window) == h.flows[i + 1 - c.window..i + 1];
  }

  // The components from the buffers.
  method CalcComponents(c: Settings, prices: seq<Price>, flows: seq<real>) returns (x: Components)
    requires Proper(c) && |prices| == |flows| == c.window + 1
    ensures var tr := Change(prices[0], prices[c.window]);
            x == WindowComponents(c, Window(tr, Returns(prices), Last(flows, c.window)))
  {
    var tr := Change(prices[0], prices[c.window]);
    var variance := ReturnVariance(prices);
    var meanFlow, flowVariance := CalcLastStats(flows, c.window);
    x := ScoreOf(c, tr, variance, meanFlow, flowVariance);
  }

  function ScoreOf(c: Settings, tr: real, variance: real, meanFlow: real, flowVariance: real): Components {
    var sqrtW := c.sqrt(c.window as real);
    var sigPx, stdFlow := c.sqrt(variance) * sqrtW, c.sqrt(flowVariance);
    Components(tr, sigPx, meanFlow, stdFlow,
               if sigPx < TINY || stdFlow < TINY then 0.0 else tr / sigPx - meanFlow * sqrtW / stdFlow)
  }

  // What one more interval does to the buffers and to the signal.
  lemma ConfirmationGrows(c: Settings, xs: seq<Components>, x: Components)
    ensures var before, raw, raws := Last(RawSides(c, xs), c.confirm), RawSide(c, x.comb), Raws(c, xs + [x]);
            Last(RawSides(c, xs + [x]), c.confirm) == Push(before, c.confirm, raw) &&
            ConfirmedAt(raws, |raws| - 1, c.confirm) == Confirmed(before, c.confirm, raw)
  {
    var raw, raws := RawSide(c, x.comb), Raws(c, xs + [x]);
    var i := |raws| - 1;
    assert RawSides(c, xs + [x]) == RawSides(c, xs) + [raw];
    PushIsLast(RawSides(c, xs), c.confirm, raw);
    assert raws[c.window..i] == RawSides(c, xs);
    BufferConfirmsAsLoop(raws, c.window, c.confirm);
  }

  lemma SignalGrows(c: Settings, xs: seq<Components>, x: Components)
    ensures SignalAfter(c, xs + [x]) ==
            if VolOk(c, xs + [x])
            then Confirmed(Last(RawSides(c, xs), c.confirm), c.confirm, RawSide(c, x.comb)) else Unknown
  {
    ConfirmationGrows(c, xs, x);
  }

  lemma VolatilityGrows(c: Settings, xs: seq<Components>, x: Components)
    ensures var before := Last(ValidVols(xs), c.volWindow);
            Last(ValidVols(xs + [x]), c.volWindow) ==
            if IsValid(x.sigPx, x.stdFlow) then Push(before, c.volWindow, x.sigPx) else before
  {
    assert (xs + [x])[..|xs|] == xs;
    if IsValid(x.sigPx, x.stdFlow) {
      PushIsLast(ValidVols(xs), c.volWindow, x.sigPx);
    } else {
      assert ValidVols(xs) + [] == ValidVols(xs);
    }
  }

  // The test of updateVolatilityRegime, which multiplies.
  predicate InBand(c: Settings, sigPx: real, median: real) {
    median > 0.0 && sigPx >= c.volMin * median && sigPx <= c.volMax * median
  }

  lemma {:induction false} BandIsRegime(c: Settings, sigPx: real, median: real)
    ensures InBand(c, sigPx, median) <==> InRegime(c, sigPx, median)
  {
    if median > 0.0 {
      var ratio := sigPx / median;
      assert sigPx == ratio * median;
      ScaledOrder(c.volMin, ratio, median);
      ScaledOrder(ratio, c.volMax, median);
    }
  }

  method CheckMedian(c: Settings, sigPx: real, median: real) returns (ok: bool)
    ensures ok == InRegime(c, sigPx, median)
  {
    ok := median > 0.0 && sigPx >= c.volMin * median && sigPx <= c.volMax * median;
    BandIsRegime(c, sigPx, median);
  }

  lemma ScaledOrder(x: real, y: real, m: real)
    requires m > 0.0
    ensures x <= y <==> x * m <= y * m
  {
    if x < y {
      assert (y - x) * m > 0.0;
    } else if x > y {
      assert (x - y) * m > 0.0;
    }
  }

  // ---------------------------------------------------------------- indicator

  class PriceFlowDivergence {
    const c: Settings
    var midPrice: Price
    var buyVolAccum: real
    var sellVolAccum: real
    var priceSeries: seq<Price>
    var flowSeries: seq<real>
    var sigPxSeries: seq<real>
    var rawSignalSeries: seq<Side>
    var stats: Components
    var volOk: bool
    var signal: Side
    var signalVersion: nat
    // The intervals rolled so far and their components.
    ghost var history: Series
    ghost var components: seq<Components>

    ghost predicate Valid()
      reads this`history, this`components, this`priceSeries, this`flowSeries, this`sigPxSeries, this`rawSignalSeries
      reads this`signal, this`signalVersion
    {
      Proper(c) && Aligned(history) && Describes(c, history, components) &&
      priceSeries == Last(history.prices, c.window + 1) && flowSeries == Last(history.flows, c.window + 1) &&
      SeriesHold() &&
      signal == SignalAfter(c, components) && signalVersion == |components|
    }

    constructor (settings: Settings, price: Price)
      requires Proper(settings)
      ensures Valid() && c == settings && history == Series([], []) && components == []
    {
      c := settings;
      midPrice, buyVolAccum, sellVolAccum := price, 0.0, 0.0;
      priceSeries, flowSeries, sigPxSeries, rawSignalSeries := [], [], [], [];
      stats := Components(0.0, 0.0, 0.0, 0.0, 0.0);
      volOk, signal, signalVersion := true, Unknown, 0;
      history, components := Series([], []), [];
    }

    method SetMidPrice(price: Price)
      modifies this`midPrice
      ensures midPrice == price
    {
      midPrice := price;
    }

    // setPublicTrade adds up the volume of each side.
    method AddTrades(trades: seq<(bool, real)>)
      modifies this`buyVolAccum, this`sellVolAccum
      ensures buyVolAccum == old(buyVolAccum) + VolumeOf(trades, true)
      ensures sellVolAccum == old(sellVolAccum) + VolumeOf(trades, false)
    {
      for i := 0 to |trades|
        invariant buyVolAccum == old(buyVolAccum) + VolumeOf(trades[..i], true)
        invariant sellVolAccum == old(sellVolAccum) + VolumeOf(trades[..i], false)
      {
        assert trades[..i + 1][..i] == trades[..i];
        if trades[i].0 {
          buyVolAccum := buyVolAccum + trades[i].1;
        } else {
          sellVolAccum := sellVolAccum + trades[i].1;
        }
      }
      assert trades[..|trades|] == trades;
    }

    method UpdateVolatilityRegime()
      modifies this`sigPxSeries, this`volOk
      ensures sigPxSeries == if c.volWindow < 2 || stats.sigPx < TINY then old(sigPxSeries)
                             else Push(old(sigPxSeries), c.volWindow, stats.sigPx)
      ensures volOk == WindowOk(c, sigPxSeries, stats.sigPx)
    {
      if c.volWindow < 2 {
        volOk := true;
        return;
      }
      if stats.sigPx >= TINY {
        sigPxSeries := Push(sigPxSeries, c.volWindow, stats.sigPx);
      }
      if |sigPxSeries| < c.volWindow {
        volOk := false;
        return;
      }
      var median := MedianBySelection(sigPxSeries);
      volOk := CheckMedian(c, stats.sigPx, median);
    }

    method CheckSignal()
      requires |rawSignalSeries| <= c.confirm
      modifies this`rawSignalSeries, this`signal, this`signalVersion
      ensures rawSignalSeries == Push(old(rawSignalSeries), c.confirm, RawSide(c, stats.comb))
      ensures signal == if volOk then Confirmed(old(rawSignalSeries), c.confirm, RawSide(c, stats.comb)) else Unknown
      ensures signalVersion == old(signalVersion) + 1
    {
      var rawSignal := Unknown;
      if stats.comb >= c.sigma {
        rawSignal := Buy;
      } else if stats.comb <= -c.sigma {
        rawSignal := Sell;
      }
      var confirmedSignal := rawSignal;
      if c.confirm > 0 {
        confirmedSignal := Confirm(rawSignalSeries, c.confirm, rawSignal);
        rawSignalSeries := Push(rawSignalSeries, c.confirm, rawSignal);
      }
      if !volOk {
        confirmedSignal := Unknown;
      }
      signal, signalVersion := confirmedSignal, signalVersion + 1;
    }

    // The statistics of the last window.
    method CalcStats(ghost h: Series, ghost flow: real)
      requires Proper(c) && Aligned(h) && |h.prices| >= c.window && history == Appended(h, midPrice, flow)
      requires priceSeries == Last(history.prices, c.window + 1) && flowSeries == Last(history.flows, c.window + 1)
      requires Describes(c, h, components)
      modifies this`stats
      ensures Describes(c, history, components + [stats])
    {
      BuffersHoldWindow(c, history);
      stats := CalcComponents(c, priceSeries, flowSeries);
      DescriptionGrows(c, h, midPrice, flow, components, stats);
    }

    method RollInterval()
      requires Valid()
      modifies this
      ensures Valid()
      ensures Describes(c, history, components)
      ensures signal == Buy <==> Tradable(c, components) && ScoresHigh(c, components)
      ensures signal == Sell <==> Tradable(c, components) && ScoresLow(c, components)
      ensures history == Appended(old(history), old(midPrice), FlowOf(old(buyVolAccum), old(sellVolAccum)))
      ensures buyVolAccum == sellVolAccum == 0.0 && midPrice == old(midPrice)
    {
      var flow := FlowOf(buyVolAccum, sellVolAccum);
      PushInterval(flow);
      buyVolAccum, sellVolAccum := 0.0, 0.0;
      DescriptionStarts(c, old(history), midPrice, flow, components);
      if |priceSeries| == c.window + 1 {
        CalcStats(old(history), flow);
        Judge();
      }
      SignalIff(c, components);
    }

    // The new interval enters both series.
    method PushInterval(flow: real)
      requires priceSeries == Last(history.prices, c.window + 1) && flowSeries == Last(history.flows, c.window + 1)
      modifies this`history, this`priceSeries, this`flowSeries
      ensures history == Appended(old(history), midPrice, flow)
      ensures priceSeries == Last(history.prices, c.window + 1) && flowSeries == Last(history.flows, c.window + 1)
    {
      PushIsLast(history.prices, c.window + 1, midPrice);
      PushIsLast(history.flows, c.window + 1, flow);
      priceSeries := Push(priceSeries, c.window + 1, midPrice);
      flowSeries := Push(flowSeries, c.window + 1, flow);
      history := Appended(history, midPrice, flow);
    }

    ghost predicate SeriesHold()
      reads this`components, this`sigPxSeries, this`rawSignalSeries
    {
      sigPxSeries == (if c.volWindow < 2 then [] else Last(ValidVols(components), c.volWindow)) &&
      rawSignalSeries == Last(RawSides(c, components), c.confirm)
    }

    // The volatility part of the rest of rollInterval: the ring and the flag.
    method JudgeVolatility()
      requires sigPxSeries == (if c.volWindow < 2 then [] else Last(ValidVols(components), c.volWindow))
      modifies this`sigPxSeries, this`volOk
      ensures sigPxSeries == if c.volWindow < 2 then [] else Last(ValidVols(components + [stats]), c.volWindow)
      ensures volOk == VolOk(c, components + [stats])
    {
      VolatilityGrows(c, components, stats);
      if stats.sigPx < TINY || stats.stdFlow < TINY {
        volOk := false;
      } else {
        UpdateVolatilityRegime();
      }
    }

    // The rest of rollInterval, once the statistics are known.
    method Judge()
      requires SeriesHold()
      modifies this`components, this`sigPxSeries, this`rawSignalSeries, this`volOk, this`signal, this`signalVersion
      ensures SeriesHold() && components == old(components) + [stats]
      ensures signal == SignalAfter(c, components) && signalVersion == old(signalVersion) + 1
    {
      SignalGrows(c, components, stats);
      ConfirmationGrows(c, components, stats);
      JudgeVolatility();
      CheckSignal();
      components := components + [stats];
    }
  }

  const NO_VOLUME := 0.000000000001

  // The normalized flow of an interval.
  function FlowOf(buyVol: real, sellVol: real): real {
    if buyVol + sellVol < NO_VOLUME then 0.0 else (buyVol - sellVol) / (buyVol + sellVol)
  }

  function VolumeOf(trades: seq<(bool, real)>, buys: bool): real {
    if trades == [] then 0.0
    else VolumeOf(trades[..|trades| - 1], buys) + if trades[|trades| - 1].0 == buys then trades[|trades| - 1].1 else 0.0
  }

  function VolumeOfAll(trades: seq<(bool, real)>): real {
    if trades == [] then 0.0 else VolumeOfAll(trades[..|trades| - 1]) + trades[|trades| - 1].1
  }

  // Each trade's volume counts on its own side, and on no other.
  lemma {:induction false} SidesShareVolume(trades: seq<(bool, real)>)
    ensures VolumeOf(trades, true) + VolumeOf(trades, false) == VolumeOfAll(trades)
    ensures forall side :: (forall k :: 0 <= k < |trades| ==> trades[k].0 != side) ==> VolumeOf(trades, side) == 0.0
  {
    if trades != [] {
      SidesShareVolume(trades[..|trades| - 1]);
    }
  }

  // --------------------------------------------------- streaming and batch

  // The streamed price terms of an interval are those of the arrays; the
  // streamed flow terms are those of the arrays one interval later.
  lemma FlowLagsByOne(c: Settings, h: Series, xs: seq<Components>, i: nat)
    requires Proper(c) && Aligned(h) && Describes(c, h, xs) && c.window <= i < |h.prices|
    ensures xs[i - c.window].tr == ArrayComponents(c, h, i).tr
    ensures xs[i - c.window].sigPx == ArrayComponents(c, h, i).sigPx
    ensures i + 1 < |h.prices| ==>
              xs[i - c.window].meanFlow == ArrayComponents(c, h, i + 1).meanFlow &&
              xs[i - c.window].stdFlow == ArrayComponents(c, h, i + 1).stdFlow
  {
    assert xs[i - c.window] == ComponentsAt(c, h, i, i);
  }

  // What a window loses and gains when it moves by one interval.
  lemma {:induction false} SumCons(x: real, xs: seq<real>)
    ensures Sum([x] + xs) == x + Sum(xs)
  {
    if xs == [] {
      SumSnoc([], x);
      assert [x] + xs == [] + [x];
    } else {
      var init, last := xs[..|xs| - 1], xs[|xs| - 1];
      SumCons(x, init);
      assert [x] + xs == ([x] + init) + [last] && xs == init + [last];
      SumSnoc([x] + init, last);
    }
  }

  lemma {:induction false} SquaresCons(x: real, xs: seq<real>, mean: real)
    ensures SumOfSquares([x] + xs, mean) == (x - mean) * (x - mean) + SumOfSquares(xs, mean)
  {
    if xs == [] {
      SquaresSnoc([], x, mean);
      assert [x] + xs == [] + [x];
    } else {
      var init, last := xs[..|xs| - 1], xs[|xs| - 1];
      SquaresCons(x, init, mean);
      assert [x] + xs == ([x] + init) + [last] && xs == init + [last];
      SquaresSnoc([x] + init, last, mean);
    }
  }

  lemma SameQuotientIff(a: real, b: real, n: real)
    requires n > 0.0
    ensures a / n == b / n <==> a == b
  {
    assert a / n * n == a && b / n * n == b;
  }

  lemma MovedMeanIff(x: real, middle: seq<real>, y: real)
    ensures Mean([x] + middle) == Mean(middle + [y]) <==> x == y
  {
    SumCons(x, middle);
    SumSnoc(middle, y);
    SameQuotientIff(Sum([x] + middle), Sum(middle + [y]), (|middle| + 1) as real);
  }

  lemma MovedVariance(x: real, middle: seq<real>)
    requires middle != []
    ensures Mean([x] + middle) == Mean(middle + [x]) && Variance([x] + middle) == Variance(middle + [x])
  {
    MovedMeanIff(x, middle, x);
    var mean := Mean([x] + middle);
    SquaresCons(x, middle, mean);
    SquaresSnoc(middle, x, mean);
  }

  // The two flow windows of an interval share all but one flow each.
  lemma FlowWindows(c: Settings, h: Series, i: nat) returns (middle: seq<real>)
    requires Proper(c) && Aligned(h) && c.window <= i < |h.prices|
    ensures middle != []
    ensures WindowAt(c, h, i, i - 1).flows == [h.flows[i - c.window]] + middle
    ensures WindowAt(c, h, i, i).flows == middle + [h.flows[i]]
  {
    middle := h.flows[i + 1 - c.window..i];
  }

  lemma WindowIsScored(c: Settings, w: Window)
    requires |w.steps| >= 2 && |w.flows| >= 2
    ensures WindowComponents(c, w) == ScoreOf(c, w.change, Variance(w.steps), Mean(w.flows), Variance(w.flows))
  {
  }

  lemma SameComponents(c: Settings, w: Window, w': Window)
    requires |w.steps| >= 2 && |w.flows| >= 2 && |w'.flows| >= 2
    requires w'.change == w.change && w'.steps == w.steps
    requires Mean(w.flows) == Mean(w'.flows) && Variance(w.flows) == Variance(w'.flows)
    ensures WindowComponents(c, w) == WindowComponents(c, w')
  {
    WindowIsScored(c, w);
    WindowIsScored(c, w');
  }

  // At the same interval the two programs agree, on the flow terms and so on
  // the score, exactly when the flow that enters the streamed window is the one
  // that has left it.
  lemma SameIntervalIff(c: Settings, h: Series, i: nat)
    requires Proper(c) && Aligned(h) && c.window <= i < |h.prices|
    ensures ComponentsAt(c, h, i, i).meanFlow == ArrayComponents(c, h, i).meanFlow <==>
            h.flows[i] == h.flows[i - c.window]
    ensures ComponentsAt(c, h, i, i) == ArrayComponents(c, h, i) <==> h.flows[i] == h.flows[i - c.window]
  {
    var middle := FlowWindows(c, h, i);
    var entering, leaving := h.flows[i], h.flows[i - c.window];
    MovedMeanIff(leaving, middle, entering);
    if entering == leaving {
      MovedVariance(entering, middle);
      SameComponents(c, WindowAt(c, h, i, i), WindowAt(c, h, i, i - 1));
    }
  }

  // A series on which they differ: only the last flow is not zero.
  lemma FlowTermsDiffer(c: Settings, h: Series)
    requires c.window == 2 && c.sigma > 0.0 && h.flows == [0.0, 0.0, 1.0] && |h.prices| == 3
    ensures ComponentsAt(c, h, 2, 2).meanFlow != ArrayComponents(c, h, 2).meanFlow
  {
    SameIntervalIff(c, h, 2);
  }

  // A too small deviation gives no raw signal, as the arrays demand with a
  // separate flag.
  lemma {:induction false} SilentWhenInvalid(c: Settings, h: Series, i: nat)
    requires Proper(c) && Aligned(h) && c.window <= i < |h.prices|
    ensures var x := ComponentsAt(c, h, i, i);
            !IsValid(x.sigPx, x.stdFlow) ==> RawSide(c, x.comb) == Unknown
  {
  }

  function AllVols(xs: seq<Components>): seq<real> {
    seq(|xs|, k requires 0 <= k < |xs| => xs[k].sigPx)
  }

  // The window of valid volatilities is the plain window of the arrays
  // whenever every interval in it is valid.
  lemma {:induction false} ValidWindowIsPlain(xs: seq<Components>, n: nat)
    requires n <= |xs| && forall k :: |xs| - n <= k < |xs| ==> IsValid(xs[k].sigPx, xs[k].stdFlow)
    ensures |ValidVols(xs)| >= n && Last(ValidVols(xs), n) == Last(AllVols(xs), n)
  {
    if n > 0 {
      var init, x := xs[..|xs| - 1], xs[|xs| - 1];
      ValidWindowIsPlain(init, n - 1);
      assert AllVols(xs) == AllVols(init) + [x.sigPx];
      LastSnoc(ValidVols(init), n, x.sigPx);
      LastSnoc(AllVols(init), n, x.sigPx);
    } else {
      assert Last(ValidVols(xs), 0) == [] == Last(AllVols(xs), 0);
    }
  }

  lemma LastSnoc<T>(xs: seq<T>, n: nat, x: T)
    requires 0 < n <= |xs| + 1
    ensures Last(xs + [x], n) == Last(xs, n - 1) + [x]
  {
  }
}
