// The trade lifecycle of trading_strategy/trade_manager: what each public call
// of TradeManager does to its state, as functions.  The calls that place orders
// take the sender's answer (accept) and all calls take the clock (now, in
// milliseconds) as inputs.

module TradeMachine {
  import opened Options
  import opened OrderIds

  // ---------------------------------------------------------------- settings

  const QTY_EPSILON: real := 0.000000000001
  const DEFAULT_QTY: real := 0.001
  const COEF_TAKE_PROFIT: real := 0.02
  const COEF_STOP_LOSS: real := 0.005
  const SPACE_TO_LIMIT_PRICE: real := 0.000001
  const PRICE_TICK_SIZE: real := 0.1
  const TICK_EPSILON: real := 0.000000001
  const TRADE_TIMEOUT: int := 86_400_000
  const WAIT_OPEN_LIMIT: int := 5_000
  const WAIT_CLOSE_LIMIT: int := 5_000
  const CLOSE_RETRY: int := 1_000
  const FIRST_TRADE_NUMBER: nat := 25_010

  // ------------------------------------------------------------------- data

  datatype Side = SideUnknown | Buy | Sell

  datatype OrderStatus =
    | StatusUnknown | Created | StatusNew | PartiallyFilled | Filled
    | Cancelled | Rejected | Expired | Deactivated | Triggered

  datatype CloseReason = NoReason | TakeProfit | StopLoss | Timeout | InverseSignal | Manual

  datatype RequestKind = CancelRequest | ReplaceRequest | NewRequest

  datatype OrderRequest = OrderRequest(
    reqId: nat, kind: RequestKind, linkId: string, side: Side, market: bool,
    qty: real, price: real, reduceOnly: bool)

  // A request given to the sender, and whether it was accepted.
  datatype Sent = Sent(order: OrderRequest, accepted: bool)

  datatype OrderEvent = OrderEvent(
    orderLinkId: string, side: Side, status: OrderStatus, price: real, qty: real,
    avgPrice: real, cumExecQty: real, cumExecFee: real)

  datatype RequestResult = RequestResult(request: OrderRequest, success: bool)

  datatype TradeData = TradeData(
    tradeNumber: nat, currentNumber: nat, nextWsRequestId: nat,
    takeProfit: real, stopLoss: real,
    openLimit: OrderRequest, openMarket: OrderRequest,
    closeLimit: OrderRequest, closeMarket: OrderRequest, cancel: OrderRequest,
    status: map<nat, OrderStatus>,
    sent: seq<Sent>)

  datatype Waits = Waits(
    openLimit: bool, openMarket: bool, cancelOpenLimit: bool,
    closeLimit: bool, closeMarket: bool, cancelCloseLimit: bool, isOpen: bool)

  datatype Money = Money(
    openPrice: real, closePrice: real, openQty: real, closeQty: real, pendingCloseQty: real,
    closePartial: real, closeNotional: real, entryFee: real, exitFee: real)

  datatype Times = Times(start: int, placeOpen: int, placeOpenMarket: int, placeClose: int)

  // A line of the trades log.
  datatype TradeResult = TradeResult(
    number: nat, side: Side, reason: CloseReason, byMarket: bool,
    openPrice: real, qty: real, gross: real, fees: real, net: real)

  datatype State = State(
    side: Option<Side>, waits: Waits, money: Money, times: Times, trade: TradeData,
    currentPrice: real, closeReason: CloseReason, openByMarket: bool, totalProfit: real,
    entered: seq<nat>,          // trade number at each enterTrade so far
    closed: seq<TradeResult>)   // the trades log

  const NoWaits: Waits := Waits(false, false, false, false, false, false, false)
  const Entered: Waits := Waits(false, false, false, false, false, false, true)
  const NoMoney: Money := Money(0.0, 0.0, 0.0, 0.0, 0.0, 0.0, 0.0, 0.0, 0.0)

  function Fresh(kind: RequestKind, market: bool, reduceOnly: bool): OrderRequest {
    OrderRequest(0, kind, "", SideUnknown, market, DEFAULT_QTY, 0.0, reduceOnly)
  }

  function InitTrade(): TradeData {
    TradeData(FIRST_TRADE_NUMBER, 0, FIRST_WS_REQUEST_ID, 0.0, 0.0,
          Fresh(NewRequest, false, false), Fresh(NewRequest, true, false),
          Fresh(NewRequest, false, true), Fresh(NewRequest, true, true),
          Fresh(CancelRequest, false, false).(qty := 0.0), map[], [])
  }

  function Init(): State {
    State(None, NoWaits, NoMoney, Times(0, 0, 0, 0), InitTrade(), 0.0, NoReason, false, 0.0, [], [])
  }

  predicate IsTerminal(status: OrderStatus) {
    status.Filled? || EndsUnfilled(status)
  }

  predicate EndsUnfilled(status: OrderStatus) {
    status.Cancelled? || status.Rejected? || status.Expired? || status.Deactivated?
  }

  // ------------------------------------------------------------- limit price

  function Ceil(x: real): int { -((-x).Floor) }

  function RoundToTick(price: real, side: Side): real {
    var ticks := price / PRICE_TICK_SIZE;
    (if side.Buy? then (ticks + TICK_EPSILON).Floor else Ceil(ticks - TICK_EPSILON)) as real
      * PRICE_TICK_SIZE
  }

  function CalcLimitPrice(price: real, side: Side): real {
    var delta := SPACE_TO_LIMIT_PRICE * price;
    RoundToTick(if side.Buy? then price - delta else price + delta, side)
  }

  // ------------------------------------------------------------------ orders

  // Trade::makeTradeByLimitOrder and its siblings: prepare the order, register
  // its id and give it to the sender.
  function MakeOpenLimit(t: TradeData, price: real, side: Side, accept: bool): TradeData {
    var id := MakeReqId(t.tradeNumber, OpenLimit);
    var order := t.openLimit.(reqId := id, side := side, price := price);
    t.(currentNumber := t.tradeNumber, tradeNumber := t.tradeNumber + 1, openLimit := order,
       status := map[id := StatusUnknown], sent := t.sent + [Sent(order, accept)])
  }

  function MakeOpenMarket(t: TradeData, side: Side, accept: bool): TradeData {
    var id := MakeReqId(t.currentNumber, OpenMarket);
    var order := t.openMarket.(reqId := id, side := side);
    t.(openMarket := order, status := t.status[id := StatusUnknown],
       sent := t.sent + [Sent(order, accept)])
  }

  function MakeCloseLimit(t: TradeData, price: real, side: Side, qty: real, accept: bool): TradeData {
    var id := MakeReqId(t.currentNumber, CloseLimit);
    var order := t.closeLimit.(reqId := id, side := side, price := price, qty := qty);
    t.(closeLimit := order, status := t.status[id := StatusUnknown],
       sent := t.sent + [Sent(order, accept)])
  }

  function MakeCloseMarket(t: TradeData, side: Side, qty: real, accept: bool): TradeData {
    var id := MakeReqId(t.currentNumber, CloseMarket);
    var order := t.closeMarket.(reqId := id, side := side, qty := qty);
    t.(closeMarket := order, status := t.status[id := StatusUnknown],
       sent := t.sent + [Sent(order, accept)])
  }

  function CancelOrder(t: TradeData, id: nat, accept: bool): TradeData {
    var order := t.cancel.(reqId := t.nextWsRequestId, linkId := Show(id));
    t.(nextWsRequestId := t.nextWsRequestId + 1, cancel := order,
       sent := t.sent + [Sent(order, accept)])
  }

  function CalcSLTP(t: TradeData, price: real, side: Side): TradeData {
    match side
    case Buy => t.(takeProfit := price + COEF_TAKE_PROFIT * price, stopLoss := price - COEF_STOP_LOSS * price)
    case Sell => t.(takeProfit := price - COEF_TAKE_PROFIT * price, stopLoss := price + COEF_STOP_LOSS * price)
    case SideUnknown => t
  }

  // ---------------------------------------------------------- shared handlers

  predicate CloseInProgress(w: Waits) {
    w.closeLimit || w.closeMarket || w.cancelCloseLimit
  }

  function Opposite(side: Option<Side>): Side {
    if side == Some(Buy) then Sell else Buy
  }

  function Remaining(m: Money): real { m.openQty - m.closePartial }

  function ResetTradeState(s: State): State {
    s.(waits := NoWaits, money := NoMoney, closeReason := NoReason, openByMarket := false)
  }

  function Drop(s: State): State {
    s.(waits := NoWaits, money := NoMoney, closeReason := NoReason, openByMarket := false, side := None)
  }

  // The result that finishTrade logs for the amounts booked so far.
  function ClosePriceOf(m: Money): real {
    if m.closeQty > QTY_EPSILON && m.closeNotional > 0.0 then m.closeNotional / m.closeQty
    else m.closePrice
  }

  function GrossOf(m: Money, side: Side): real {
    var up := (ClosePriceOf(m) - m.openPrice) * m.closeQty;
    if side.Sell? then -up else up
  }

  function ResultOf(s: State): TradeResult
    requires s.side.Some?
  {
    var gross := GrossOf(s.money, s.side.value);
    var fees := s.money.entryFee + s.money.exitFee;
    TradeResult(s.trade.currentNumber, s.side.value, s.closeReason, s.openByMarket,
                s.money.openPrice, s.money.closeQty, gross, fees, gross - fees)
  }

  function FinishTrade(s: State): State {
    if s.side.None? then s
    else
      var result := ResultOf(s);
      s.(money := s.money.(closePrice := ClosePriceOf(s.money)),
         totalProfit := s.totalProfit + result.net, closed := s.closed + [result], side := None,
         waits := s.waits.(closeLimit := false, closeMarket := false, cancelCloseLimit := false,
                           isOpen := false))
  }

  function EnterSide(s: State, ev: OrderEvent): Side {
    if s.side.None? || s.side.value.SideUnknown? then ev.side else s.side.value
  }

  function OpenPriceOf(s: State, ev: OrderEvent): real {
    if ev.avgPrice > 0.0 then ev.avgPrice else if ev.price > 0.0 then ev.price else s.currentPrice
  }

  function OpenQtyOf(ev: OrderEvent): real {
    if ev.cumExecQty > QTY_EPSILON then ev.cumExecQty
    else if ev.qty > QTY_EPSILON then ev.qty else DEFAULT_QTY
  }

  function EnterTrade(s: State, ev: OrderEvent, byMarket: bool, now: int): State {
    var side := EnterSide(s, ev);
    if side.SideUnknown? then Drop(s)
    else Entering(s, side, OpenPriceOf(s, ev), OpenQtyOf(ev), ev.cumExecFee, byMarket, now)
  }

  function Entering(s: State, side: Side, price: real, qty: real, fee: real, byMarket: bool, now: int): State {
    s.(side := Some(side), waits := Entered, openByMarket := byMarket,
       times := s.times.(start := now),
       money := s.money.(openPrice := price, openQty := qty, entryFee := fee),
       trade := CalcSLTP(s.trade, price, side), entered := s.entered + [s.trade.currentNumber])
  }

  function SendOpenMarketFallback(s: State, now: int, accept: bool): State {
    if s.side.None? then s
    else
      var trade := MakeOpenMarket(s.trade, s.side.value, accept);
      if !accept then Drop(s.(trade := trade))
      else s.(trade := trade, waits := s.waits.(openMarket := true),
              times := s.times.(placeOpenMarket := now))
  }

  function SendCloseMarket(s: State, qty: real, now: int, accept: bool): State {
    if !s.waits.isOpen || s.side.None? || qty <= QTY_EPSILON then s
    else
      var trade := MakeCloseMarket(s.trade, Opposite(s.side), qty, accept);
      if !accept then s.(trade := trade, times := s.times.(placeClose := now))
      else s.(trade := trade, times := s.times.(placeClose := now),
              money := s.money.(pendingCloseQty := qty), waits := s.waits.(closeMarket := true))
  }

  // ------------------------------------------------------------ order events

  function HandleOpenLimit(s: State, ev: OrderEvent, now: int, accept: bool): State {
    if !IsTerminal(ev.status) || s.waits.isOpen then s
    else
      var s1 := s.(waits := s.waits.(openLimit := false, cancelOpenLimit := false));
      if ev.status.Filled? || ev.cumExecQty > QTY_EPSILON then EnterTrade(s1, ev, false, now)
      else if !s.waits.openMarket then SendOpenMarketFallback(s1, now, accept)
      else s1
  }

  function HandleOpenMarket(s: State, ev: OrderEvent, now: int): State {
    if ev.status.Filled? then
      if s.waits.isOpen then s
      else EnterTrade(s.(waits := s.waits.(openMarket := false)), ev, true, now)
    else if EndsUnfilled(ev.status) then
      if ev.cumExecQty > QTY_EPSILON
      then EnterTrade(s.(waits := s.waits.(openMarket := false)), ev, true, now)
      else Drop(s)
    else s
  }

  function BookLimitFill(m: Money, ev: OrderEvent, orderPrice: real): Money {
    var got := ev.cumExecQty > QTY_EPSILON;
    m.(closePrice := if ev.avgPrice > 0.0 then ev.avgPrice else orderPrice,
       closeQty := m.closePartial + (if got then ev.cumExecQty else m.pendingCloseQty),
       closeNotional := if got then m.closeNotional + ev.avgPrice * ev.cumExecQty else m.closeNotional,
       exitFee := m.exitFee + ev.cumExecFee)
  }

  function BookPartial(m: Money, ev: OrderEvent): Money {
    m.(closePartial := m.closePartial + ev.cumExecQty,
       closeNotional := m.closeNotional + ev.avgPrice * ev.cumExecQty,
       exitFee := m.exitFee + ev.cumExecFee)
  }

  // The last partial fill exhausted the position.
  function Exhausted(m: Money, ev: OrderEvent, fallbackPrice: real): Money {
    m.(closePrice := if ev.avgPrice > 0.0 then ev.avgPrice else fallbackPrice,
       closeQty := m.closePartial)
  }

  function HandleCloseLimit(s: State, ev: OrderEvent, now: int, accept: bool): State {
    if !IsTerminal(ev.status) || !s.waits.isOpen then s
    else
      var waits := s.waits.(closeLimit := false, cancelCloseLimit := false);
      if ev.status.Filled? then
        FinishTrade(s.(waits := waits, money := BookLimitFill(s.money, ev, s.trade.closeLimit.price)))
      else
        var money := BookPartial(s.money, ev);
        if Remaining(money) <= QTY_EPSILON
        then FinishTrade(s.(waits := waits, money := Exhausted(money, ev, s.trade.closeLimit.price)))
        else SendCloseMarket(s.(waits := waits, money := money), Remaining(money), now, accept)
  }

  function BookMarketFill(m: Money, ev: OrderEvent, currentPrice: real): Money {
    var price := if ev.avgPrice > 0.0 then ev.avgPrice else currentPrice;
    m.(closePrice := price,
       closeQty := m.closePartial + (if ev.cumExecQty <= QTY_EPSILON then m.pendingCloseQty else ev.cumExecQty),
       closeNotional := m.closeNotional + price * ev.cumExecQty,
       exitFee := m.exitFee + ev.cumExecFee)
  }

  function HandleCloseMarket(s: State, ev: OrderEvent): State {
    if !IsTerminal(ev.status) then s
    else
      var waits := s.waits.(closeMarket := false);
      if ev.status.Filled? then
        FinishTrade(s.(waits := waits, money := BookMarketFill(s.money, ev, s.currentPrice)))
      else
        var money := if ev.cumExecQty > QTY_EPSILON then BookPartial(s.money, ev) else s.money;
        if Remaining(money) <= QTY_EPSILON
        then FinishTrade(s.(waits := waits, money := Exhausted(money, ev, s.currentPrice)))
        else s.(waits := waits, money := money)
  }

  function RecordStatus(s: State, id: nat, status: OrderStatus): State {
    s.(trade := s.trade.(status := s.trade.status[id := status]))
  }

  function Dispatch(s: State, role: Role, ev: OrderEvent, now: int, accept: bool): State {
    match role
    case OpenLimit => HandleOpenLimit(s, ev, now, accept)
    case OpenMarket => HandleOpenMarket(s, ev, now)
    case CloseLimit => HandleCloseLimit(s, ev, now, accept)
    case CloseMarket => HandleCloseMarket(s, ev)
    case UnknownRole => s
  }

  function SetOrder(s: State, ev: OrderEvent, now: int, accept: bool): State {
    var id := FromChars(ev.orderLinkId);
    if id !in s.trade.status then s
    else
      var s1 := RecordStatus(s, id, ev.status);
      if s.side.None? then s1 else Dispatch(s1, RoleOf(id), ev, now, accept)
  }

  // --------------------------------------------------------- request results

  function TargetOf(request: OrderRequest): nat {
    if request.kind.NewRequest? then request.reqId else FromChars(request.linkId)
  }

  function RequestFailed(s: State, role: Role, now: int, accept: bool): State {
    match role
    case OpenLimit => if s.waits.openLimit then Drop(s) else s
    case OpenMarket => if s.waits.openMarket then Drop(s) else s
    case CloseLimit =>
      if !s.waits.closeLimit && !s.waits.cancelCloseLimit then s
      else
        var s1 := s.(waits := s.waits.(closeLimit := false, cancelCloseLimit := false));
        if Remaining(s.money) > QTY_EPSILON then SendCloseMarket(s1, Remaining(s.money), now, accept)
        else FinishTrade(s1)
    case CloseMarket =>
      if s.waits.closeMarket
      then s.(waits := s.waits.(closeMarket := false), times := s.times.(placeClose := now))
      else s
    case UnknownRole => s
  }

  function OnRequestResult(s: State, result: RequestResult, now: int, accept: bool): State {
    var id := TargetOf(result.request);
    if id !in s.trade.status || result.success || s.side.None? then s
    else RequestFailed(s, RoleOf(id), now, accept)
  }

  // -------------------------------------------------------------- the strategy

  function MakeTrade(s: State, price: real, side: Side, now: int, accept: bool): State {
    if s.side.Some? then
      if s.waits.isOpen && s.side.value == side then s.(times := s.times.(start := now)) else s
    else
      var trade := MakeOpenLimit(s.trade, CalcLimitPrice(price, side), side, accept);
      if accept then
        ResetTradeState(s).(trade := trade, side := Some(side), times := s.times.(placeOpen := now),
                            waits := NoWaits.(openLimit := true))
      else Drop(s).(trade := trade.(status := map[]))
  }

  function CloseTrade(s: State, reason: CloseReason, now: int, accept: bool): State {
    if !s.waits.isOpen || s.side.None? || CloseInProgress(s.waits) then s
    else
      var pending := if s.money.openQty > QTY_EPSILON then Remaining(s.money) else s.trade.openLimit.qty;
      var s1 := s.(closeReason := reason, money := s.money.(pendingCloseQty := pending));
      if pending <= QTY_EPSILON then FinishTrade(s1) else SendCloseLimit(s1, now, accept)
  }

  function SendCloseLimit(s: State, now: int, accept: bool): State {
    var side := Opposite(s.side);
    s.(trade := MakeCloseLimit(s.trade, CalcLimitPrice(s.currentPrice, side), side, s.money.pendingCloseQty, accept),
       times := s.times.(placeClose := now),
       waits := if accept then s.waits.(closeLimit := true) else s.waits)
  }

  function CancelOpenLimit(s: State, now: int, accept: bool): State {
    if !s.waits.openLimit then s
    else
      var trade := CancelOrder(s.trade, s.trade.openLimit.reqId, accept);
      if !accept then s.(trade := trade)
      else s.(trade := trade, waits := s.waits.(openLimit := false, cancelOpenLimit := true),
              times := s.times.(placeOpen := now))
  }

  function CancelCloseLimit(s: State, now: int, accept: bool): State {
    if !s.waits.closeLimit then s
    else
      var trade := CancelOrder(s.trade, s.trade.closeLimit.reqId, accept);
      if !accept then s.(trade := trade)
      else s.(trade := trade, waits := s.waits.(closeLimit := false, cancelCloseLimit := true),
              times := s.times.(placeClose := now))
  }

  function CheckInverseSignal(s: State, side: Side, now: int, accept: bool): State {
    if s.side.None? then s
    else
      var s1 := if !s.waits.openLimit then s
                else if s.side.value == side then s.(times := s.times.(placeOpen := now))
                else CancelOpenLimit(s, now, accept);
      if !s1.waits.isOpen || s.side.value == side || CloseInProgress(s1.waits) then s1
      else CloseTrade(s1, InverseSignal, now, accept)
  }

  function RetryClose(s: State, now: int, accept: bool): State {
    if !s.waits.isOpen || CloseInProgress(s.waits) then s
    else if Remaining(s.money) <= QTY_EPSILON then FinishTrade(s)
    else if s.closeReason.StopLoss? then SendCloseMarket(s, Remaining(s.money), now, accept)
    else CloseTrade(s, s.closeReason, now, accept)
  }

  predicate StopLossHit(s: State) {
    (s.side == Some(Sell) && s.currentPrice >= s.trade.stopLoss) ||
    (s.side == Some(Buy) && s.currentPrice <= s.trade.stopLoss)
  }

  predicate TakeProfitHit(s: State) {
    (s.side == Some(Sell) && s.currentPrice <= s.trade.takeProfit) ||
    (s.side == Some(Buy) && s.currentPrice >= s.trade.takeProfit)
  }

  function CheckSLTP(s: State, now: int, accept: bool): State {
    if s.side.None? || !s.waits.isOpen then s
    else if StopLossHit(s) then
      SendCloseMarket(s.(closeReason := StopLoss), Remaining(s.money), now, accept)
    else if TakeProfitHit(s) then
      if s.money.closePartial > QTY_EPSILON
      then SendCloseMarket(s, Remaining(s.money), now, accept)
      else CloseTrade(s, TakeProfit, now, accept)
    else s
  }

  // A cancel that was sent but not confirmed is sent again.
  function RepeatCancelOpen(s: State, now: int, accept: bool): State {
    s.(trade := CancelOrder(s.trade, s.trade.openLimit.reqId, accept),
       times := if accept then s.times.(placeOpen := now) else s.times)
  }

  function RepeatCancelClose(s: State, now: int, accept: bool): State {
    s.(trade := CancelOrder(s.trade, s.trade.closeLimit.reqId, accept),
       times := if accept then s.times.(placeClose := now) else s.times)
  }

  function CheckCurrentPrice(s0: State, price: real, now: int, accept: bool): State {
    var s := s0.(currentPrice := price);
    var w, t := s.waits, s.times;
    if s.side.None? then s
    else if w.isOpen && now - t.start > TRADE_TIMEOUT && !CloseInProgress(w) then
      CloseTrade(s, Timeout, now, accept)
    else if w.openLimit && now - t.placeOpen > WAIT_OPEN_LIMIT then CancelOpenLimit(s, now, accept)
    else if w.cancelOpenLimit && now - t.placeOpen > WAIT_OPEN_LIMIT then RepeatCancelOpen(s, now, accept)
    else if w.closeLimit && !w.closeMarket && now - t.placeClose > WAIT_CLOSE_LIMIT then
      CancelCloseLimit(s, now, accept)
    else if w.cancelCloseLimit && now - t.placeClose > WAIT_CLOSE_LIMIT then
      RepeatCancelClose(s, now, accept)
    else if !CloseInProgress(w) && !s.closeReason.NoReason? && now - t.placeClose > CLOSE_RETRY then
      RetryClose(s, now, accept)
    else if !CloseInProgress(w) then CheckSLTP(s, now, accept)
    else s
  }

  // ------------------------------------------------------------------- runs

  datatype Call =
    | SetOrderCall(ev: OrderEvent)
    | RequestResultCall(result: RequestResult)
    | MakeTradeCall(price: real, side: Side)
    | CloseTradeCall(reason: CloseReason)
    | InverseSignalCall(side: Side)
    | PriceCall(price: real)

  // A call, the clock when it is made, and the answer of the sender to the
  // order it sends, if it sends one.
  datatype Input = Input(call: Call, now: int, accept: bool)

  function Step(s: State, i: Input): State {
    match i.call
    case SetOrderCall(ev) => SetOrder(s, ev, i.now, i.accept)
    case RequestResultCall(result) => OnRequestResult(s, result, i.now, i.accept)
    case MakeTradeCall(price, side) => MakeTrade(s, price, side, i.now, i.accept)
    case CloseTradeCall(reason) => CloseTrade(s, reason, i.now, i.accept)
    case InverseSignalCall(side) => CheckInverseSignal(s, side, i.now, i.accept)
    case PriceCall(price) => CheckCurrentPrice(s, price, i.now, i.accept)
  }

  function Run(inputs: seq<Input>): State {
    if inputs == [] then Init()
    else Step(Run(inputs[..|inputs| - 1]), inputs[|inputs| - 1])
  }

  lemma RunSnoc(inputs: seq<Input>, i: Input)
    ensures Run(inputs + [i]) == Step(Run(inputs), i)
  {
    assert (inputs + [i])[..|inputs|] == inputs;
  }
}
