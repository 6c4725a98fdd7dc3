// Runs that show what three assumptions about the exchange are needed for: each
// order ends once, and a filled order reports its quantity, when it opens a
// trade and when it closes the rest of one.

module TradeCounterexamples {
  import opened Options
  import opened OrderIds
  import opened TradeMachine
  import opened TradeInvariants
  import opened TradeExchange
  import opened TradeOpening
  import opened TradeLedger

  function Event(role: Role, status: OrderStatus, cum: real, avg: real): OrderEvent {
    OrderEvent(Show(MakeReqId(FIRST_TRADE_NUMBER, role)), Buy, status, 0.0, 0.0, avg, cum, 0.0)
  }

  function Report(role: Role, status: OrderStatus, cum: real, avg: real): Input {
    Input(SetOrderCall(Event(role, status, cum, avg)), 0, true)
  }

  lemma EventNames(role: Role, status: OrderStatus, cum: real, avg: real)
    requires !role.UnknownRole?
    ensures FromChars(Event(role, status, cum, avg).orderLinkId) == MakeReqId(FIRST_TRADE_NUMBER, role)
    ensures RoleOf(MakeReqId(FIRST_TRADE_NUMBER, role)) == role
  {
    LinkIdRoundTrip(MakeReqId(FIRST_TRADE_NUMBER, role));
    Registered(FIRST_TRADE_NUMBER, role);
  }

  const Opening: seq<Input> := [Input(MakeTradeCall(100.0, Buy), 0, true)]

  // The limit is cancelled unfilled and the fallback opens the trade.
  function MissedRun(): seq<Input> { Opening + [Report(OpenLimit, Cancelled, 0.0, 0.0)] }

  function FallbackRun(): seq<Input> { MissedRun() + [Report(OpenMarket, Filled, 0.001, 100.0)] }

  // The limit opens the trade.
  function LimitRun(): seq<Input> { Opening + [Report(OpenLimit, Filled, 0.001, 100.0)] }

  // A limit close is placed, half filled and cancelled.
  function WithHalfClose(inputs: seq<Input>): seq<Input> {
    inputs + [Input(CloseTradeCall(Manual), 0, true)] + [Report(CloseLimit, Cancelled, 0.0005, 100.0)]
  }

  predicate FirstTrade(s: State) {
    s.side == Some(Buy) && s.trade.currentNumber == FIRST_TRADE_NUMBER
  }

  lemma Opened()
    ensures var s := Run(Opening);
            && FirstTrade(s) && s.waits == NoWaits.(openLimit := true) && s.money == NoMoney
            && MakeReqId(FIRST_TRADE_NUMBER, OpenLimit) in s.trade.status && s.closed == []
  {
    assert Opening == [] + Opening;
    RunSnoc([], Opening[0]);
  }

  // Half of the trade is closed, and then the exchange ends the fallback a
  // second time.
  function ReEntryRun(): seq<Input> {
    WithHalfClose(FallbackRun()) + [Report(OpenMarket, Cancelled, 0.0001, 100.0)]
  }

  lemma ReEntryLeavesNothingToClose()
    ensures var s := Run(ReEntryRun()); s.waits.isOpen && Remaining(s.money) < 0.0
  {
    var inputs := WithHalfClose(FallbackRun());
    EnteredByFallback();
    HalfClosed(FallbackRun());
    ReEntered(Run(inputs), Report(OpenMarket, Cancelled, 0.0001, 100.0));
    RunSnoc(inputs, Report(OpenMarket, Cancelled, 0.0001, 100.0));
  }

  lemma ReEntered(s: State, last: Input)
    requires last == Report(OpenMarket, Cancelled, 0.0001, 100.0) && FirstTrade(s)
    requires MakeReqId(FIRST_TRADE_NUMBER, OpenMarket) in s.trade.status && s.money.closePartial == 0.0005
    ensures Step(s, last).waits.isOpen && Remaining(Step(s, last).money) < 0.0
  {
    EventNames(OpenMarket, Cancelled, 0.0001, 100.0);
    assert Step(s, last).money.openQty == 0.0001;
  }

  lemma MissedLimit()
    ensures var s := Run(MissedRun());
            && FirstTrade(s) && s.waits == NoWaits.(openMarket := true) && s.money == NoMoney
            && MakeReqId(FIRST_TRADE_NUMBER, OpenMarket) in s.trade.status
  {
    Opened();
    EventNames(OpenLimit, Cancelled, 0.0, 0.0);
    RunSnoc(Opening, Report(OpenLimit, Cancelled, 0.0, 0.0));
  }

  lemma EnteredByFallback()
    ensures var s := Run(FallbackRun());
            && FirstTrade(s) && s.waits == Entered && s.money == NoMoney.(openQty := 0.001, openPrice := 100.0)
            && MakeReqId(FIRST_TRADE_NUMBER, OpenMarket) in s.trade.status
  {
    MissedLimit();
    EventNames(OpenMarket, Filled, 0.001, 100.0);
    RunSnoc(MissedRun(), Report(OpenMarket, Filled, 0.001, 100.0));
  }

  lemma ClosePlaced(s: State)
    requires FirstTrade(s) && s.waits == Entered && s.money == NoMoney.(openQty := 0.001, openPrice := 100.0)
    ensures var t := Step(s, Input(CloseTradeCall(Manual), 0, true));
            && FirstTrade(t) && t.waits == Entered.(closeLimit := true) && t.closed == s.closed
            && t.money == s.money.(pendingCloseQty := 0.001)
            && MakeReqId(FIRST_TRADE_NUMBER, CloseLimit) in t.trade.status
            && s.trade.status.Keys <= t.trade.status.Keys
  {
  }

  lemma HalfFilled(s: State)
    requires FirstTrade(s) && s.waits == Entered.(closeLimit := true)
    requires s.money == NoMoney.(openQty := 0.001, openPrice := 100.0, pendingCloseQty := 0.001)
    requires MakeReqId(FIRST_TRADE_NUMBER, CloseLimit) in s.trade.status
    ensures var t := Step(s, Report(CloseLimit, Cancelled, 0.0005, 100.0));
            && FirstTrade(t) && t.waits == Entered.(closeMarket := true) && t.closed == s.closed
            && t.money == s.money.(closePartial := 0.0005, closeNotional := 0.05, pendingCloseQty := 0.0005)
            && MakeReqId(FIRST_TRADE_NUMBER, CloseMarket) in t.trade.status
            && s.trade.status.Keys <= t.trade.status.Keys
  {
    EventNames(CloseLimit, Cancelled, 0.0005, 100.0);
  }

  lemma HalfClosed(inputs: seq<Input>)
    requires FirstTrade(Run(inputs)) && Run(inputs).waits == Entered
    requires Run(inputs).money == NoMoney.(openQty := 0.001, openPrice := 100.0)
    ensures var s := Run(WithHalfClose(inputs));
            && FirstTrade(s) && s.waits == Entered.(closeMarket := true) && s.closed == Run(inputs).closed
            && s.money.openPrice == 100.0
            && s.money.closePartial == 0.0005 && s.money.pendingCloseQty == 0.0005
            && s.money.closeNotional == 0.05 && s.money.openQty == 0.001
            && MakeReqId(FIRST_TRADE_NUMBER, CloseMarket) in s.trade.status
            && Run(inputs).trade.status.Keys <= s.trade.status.Keys
  {
    var i1, i2 := Input(CloseTradeCall(Manual), 0, true), Report(CloseLimit, Cancelled, 0.0005, 100.0);
    RunSnoc(inputs, i1);
    ClosePlaced(Run(inputs));
    HalfFilled(Run(inputs + [i1]));
    RunSnoc(inputs + [i1], i2);
  }

  lemma EnteredByLimit()
    ensures var s := Run(LimitRun());
            && FirstTrade(s) && s.waits == Entered && s.closed == []
            && s.money == NoMoney.(openQty := 0.001, openPrice := 100.0)
  {
    Opened();
    EventNames(OpenLimit, Filled, 0.001, 100.0);
    RunSnoc(Opening, Report(OpenLimit, Filled, 0.001, 100.0));
  }

  // The same half close at the open price, its remainder then filled at twice
  // that price by an event that does not say how much.
  function SilentFillRun(): seq<Input> { WithHalfClose(LimitRun()) + [SilentFill()] }

  function SilentFill(): Input { Report(CloseMarket, Filled, 0.0, 200.0) }

  // An exchange that breaks nothing the opening and the ledger assume of it.
  predicate Allowed(inputs: seq<Input>) { ExchangeOk(inputs) && OpensSound(inputs) && FillsSound(inputs) }

  lemma ExchangeSnoc(inputs: seq<Input>, i: Input)
    requires ExchangeOk(inputs) && (EndsOpenOrder(i) ==> EndIsNew(Run(inputs), Finals(inputs), i))
    ensures ExchangeOk(inputs + [i])
  {
    assert (inputs + [i])[..|inputs|] == inputs;
  }

  lemma AllowedSnoc(inputs: seq<Input>, i: Input)
    requires Allowed(inputs) && ExchangeOk(inputs + [i])
    requires EndsOpenOrder(i) ==> OpenSound(i.call.ev)
    requires EndsCloseOrder(i) ==> FillSound(i.call.ev)
    ensures Allowed(inputs + [i])
  {
  }

  lemma AllowedClose(inputs: seq<Input>, i: Input)
    requires Allowed(inputs) && !EndsOpenOrder(i) && (EndsCloseOrder(i) ==> FillSound(i.call.ev))
    ensures Allowed(inputs + [i])
  {
    ExchangeSnoc(inputs, i);
    AllowedSnoc(inputs, i);
  }

  lemma AllowedOpening()
    ensures Allowed(Opening) && Finals(Opening) == map[]
  {
    assert Opening == [] + Opening;
    AllowedClose([], Opening[0]);
    assert Opening[..0] == [];
  }

  // The end of the opening limit, reported right after it was sent, is new.
  lemma LimitEndIsNew(i: Input)
    requires i.call.SetOrderCall? && EventId(i) == MakeReqId(FIRST_TRADE_NUMBER, OpenLimit)
    requires 0.0 <= i.call.ev.cumExecQty <= DEFAULT_QTY
    ensures ExchangeOk(Opening + [i])
  {
    AllowedOpening();
    assert Opening == [] + Opening;
    RunSnoc([], Opening[0]);
    assert |Run(Opening).trade.sent| == 1;
    assert Run(Opening).trade.sent[0].order.reqId == EventId(i);
    ExchangeSnoc(Opening, i);
  }

  lemma AllowedLimitRun()
    ensures Allowed(LimitRun())
  {
    var i := Report(OpenLimit, Filled, 0.001, 100.0);
    EventNames(OpenLimit, Filled, 0.001, 100.0);
    AllowedOpening();
    LimitEndIsNew(i);
    AllowedSnoc(Opening, i);
  }

  lemma SilentFillIsAllowed()
    ensures Allowed(SilentFillRun())
  {
    EventNames(CloseLimit, Cancelled, 0.0005, 100.0);
    EventNames(CloseMarket, Filled, 0.0, 200.0);
    AllowedLimitRun();
    AllowedClose(LimitRun(), Input(CloseTradeCall(Manual), 0, true));
    var placed := LimitRun() + [Input(CloseTradeCall(Manual), 0, true)];
    AllowedClose(placed, Report(CloseLimit, Cancelled, 0.0005, 100.0));
    AllowedClose(WithHalfClose(LimitRun()), SilentFill());
  }

  // The witness of the condition in the ledger: its guard holds before the last
  // event, and a gain of 0.05 is logged as a loss of as much.
  lemma SilentFillFalsifiesLedger()
    ensures Allowed(SilentFillRun())
    ensures LosesPrice(Run(WithHalfClose(LimitRun())).money, SilentFill().call.ev)
    ensures var s := Run(SilentFillRun());
            && |s.closed| == 1 && s.closed[0].qty == 0.001 && s.closed[0].openPrice == 100.0
            && s.closed[0].gross == -0.05
  {
    SilentFillIsAllowed();
    var before := WithHalfClose(LimitRun());
    EnteredByLimit();
    HalfClosed(LimitRun());
    var s := Run(before);
    EventNames(CloseMarket, Filled, 0.0, 200.0);
    RunSnoc(before, SilentFill());
    SilentFillBooks(s.money, SilentFill().call.ev, s.currentPrice);
  }

  // The opening limit is reported as filled, without a quantity and for an
  // order of five: the manager books five.
  function SilentOpening(): Input {
    var ev := Event(OpenLimit, Filled, 0.0, 100.0).(qty := 5.0);
    Input(SetOrderCall(ev), 0, true)
  }

  lemma SilentOpeningBooksTooMuch()
    ensures ExchangeOk(Opening + [SilentOpening()]) && !OpensSound(Opening + [SilentOpening()])
    ensures Run(Opening + [SilentOpening()]).waits.isOpen && Run(Opening + [SilentOpening()]).money.openQty == 5.0
  {
    EventNames(OpenLimit, Filled, 0.0, 100.0);
    LimitEndIsNew(SilentOpening());
    Opened();
    RunSnoc(Opening, SilentOpening());
    assert (Opening + [SilentOpening()])[1] == SilentOpening();
  }

  lemma SilentFillBooks(m: Money, ev: OrderEvent, currentPrice: real)
    requires m.openPrice == 100.0 && m.closePartial == 0.0005 && m.pendingCloseQty == 0.0005
    requires m.closeNotional == 0.05 && ev.cumExecQty == 0.0
    ensures BookMarketFill(m, ev, currentPrice).closeQty == 0.001
    ensures GrossOf(BookMarketFill(m, ev, currentPrice), Buy) == -0.05
  {
    assert 0.05 / 0.001 == 50.0;
  }
}
