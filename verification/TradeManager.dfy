// The Trade and TradeManager objects of trading_strategy/trade_manager, with
// their fields.  Every method is tied to the TradeMachine function of its call.

module TradeManager {
  import opened Options
  import opened OrderIds
  import opened TradeMachine
  import opened TradeInvariants

  class Trade {
    var tradeNumber: nat
    var currentTradeNumber: nat
    var nextWsRequestId: nat
    var takeProfitPrice: real
    var stopLossPrice: real
    var openLimitOrder: OrderRequest
    var openMarketOrder: OrderRequest
    var closeLimitOrder: OrderRequest
    var closeMarketOrder: OrderRequest
    var orderCancel: OrderRequest
    var ordersStatus: map<nat, OrderStatus>
    ghost var sent: seq<Sent>

    ghost function Data(): TradeData
      reads this
    {
      TradeData(tradeNumber, currentTradeNumber, nextWsRequestId, takeProfitPrice, stopLossPrice,
                openLimitOrder, openMarketOrder, closeLimitOrder, closeMarketOrder, orderCancel,
                ordersStatus, sent)
    }

    constructor ()
      ensures Data() == InitTrade()
    {
      tradeNumber, currentTradeNumber := FIRST_TRADE_NUMBER, 0;
      nextWsRequestId := FIRST_WS_REQUEST_ID;
      takeProfitPrice, stopLossPrice := 0.0, 0.0;
      openLimitOrder := Fresh(NewRequest, false, false);
      openMarketOrder := Fresh(NewRequest, true, false);
      closeLimitOrder := Fresh(NewRequest, false, true);
      closeMarketOrder := Fresh(NewRequest, true, true);
      orderCancel := Fresh(CancelRequest, false, false).(qty := 0.0);
      ordersStatus, sent := map[], [];
    }

    // The sender's answer is an input: no sender, or a refusal, is false.
    method SendOrder(order: OrderRequest, accept: bool) returns (ok: bool)
      modifies `sent
      ensures ok == accept && sent == old(sent) + [Sent(order, accept)]
    {
      sent := sent + [Sent(order, accept)];
      return accept;
    }

    method ClearStatuses()
      modifies `ordersStatus
      ensures ordersStatus == map[]
    {
      ordersStatus := map[];
    }

    method MakeTradeByLimitOrder(price: real, side: Side, accept: bool) returns (ok: bool)
      modifies this
      ensures ok == accept && Data() == MakeOpenLimit(old(Data()), price, side, accept)
    {
      currentTradeNumber := tradeNumber;
      tradeNumber := tradeNumber + 1;
      ordersStatus := map[];
      openLimitOrder := openLimitOrder.(reqId := MakeReqId(currentTradeNumber, OpenLimit),
                                        side := side, price := price);
      ordersStatus := ordersStatus[openLimitOrder.reqId := StatusUnknown];
      ok := SendOrder(openLimitOrder, accept);
    }

    method MakeTradeByMarketOrder(side: Side, accept: bool) returns (ok: bool)
      modifies this
      ensures ok == accept && Data() == MakeOpenMarket(old(Data()), side, accept)
    {
      openMarketOrder := openMarketOrder.(reqId := MakeReqId(currentTradeNumber, OpenMarket), side := side);
      ordersStatus := ordersStatus[openMarketOrder.reqId := StatusUnknown];
      ok := SendOrder(openMarketOrder, accept);
    }

    method MakeCloseLimitOrder(price: real, side: Side, qty: real, accept: bool) returns (ok: bool)
      modifies this
      ensures ok == accept && Data() == MakeCloseLimit(old(Data()), price, side, qty, accept)
    {
      closeLimitOrder := closeLimitOrder.(reqId := MakeReqId(currentTradeNumber, CloseLimit),
                                          side := side, price := price, qty := qty);
      ordersStatus := ordersStatus[closeLimitOrder.reqId := StatusUnknown];
      ok := SendOrder(closeLimitOrder, accept);
    }

    method MakeCloseMarketOrder(side: Side, qty: real, accept: bool) returns (ok: bool)
      modifies this
      ensures ok == accept && Data() == MakeCloseMarket(old(Data()), side, qty, accept)
    {
      closeMarketOrder := closeMarketOrder.(reqId := MakeReqId(currentTradeNumber, CloseMarket),
                                            side := side, qty := qty);
      ordersStatus := ordersStatus[closeMarketOrder.reqId := StatusUnknown];
      ok := SendOrder(closeMarketOrder, accept);
    }

    method CancelById(orderId: nat, accept: bool) returns (ok: bool)
      modifies this
      ensures ok == accept && Data() == CancelOrder(old(Data()), orderId, accept)
    {
      orderCancel := orderCancel.(reqId := nextWsRequestId, linkId := Show(orderId));
      nextWsRequestId := nextWsRequestId + 1;
      ok := SendOrder(orderCancel, accept);
    }

    method SetSLTP(price: real, side: Side)
      modifies `takeProfitPrice, `stopLossPrice
      ensures Data() == CalcSLTP(old(Data()), price, side)
    {
      match side {
        case Buy =>
          takeProfitPrice := price + COEF_TAKE_PROFIT * price;
          stopLossPrice := price - COEF_STOP_LOSS * price;
        case Sell =>
          takeProfitPrice := price - COEF_TAKE_PROFIT * price;
          stopLossPrice := price + COEF_STOP_LOSS * price;
        case SideUnknown =>
      }
    }
  }

  // The close price and the profit before fees, as finishTrade computes them.
  method GrossPnl(m: Money, side: Side) returns (closePrice: real, grossPnl: real)
    ensures closePrice == ClosePriceOf(m) && grossPnl == GrossOf(m, side)
  {
    closePrice := m.closePrice;
    if m.closeQty > QTY_EPSILON && m.closeNotional > 0.0 {
      closePrice := m.closeNotional / m.closeQty;
    }
    grossPnl := (closePrice - m.openPrice) * m.closeQty;
    if side.Sell? {
      grossPnl := -grossPnl;
    }
  }

  class TradeManager {
    var currentTradeSide: Option<Side>
    const currentTrade: Trade
    var currentPrice: real
    // The source keeps each flag, amount and time point as a field of its own.
    var waits: Waits
    var money: Money
    var times: Times
    var closeReason: CloseReason
    var openByMarket: bool
    var totalProfit: real
    var trades: seq<TradeResult>   // the trades log
    ghost var entered: seq<nat>

    ghost function Abs(): State
      reads this, currentTrade
    {
      State(currentTradeSide, waits, money, times, currentTrade.Data(), currentPrice,
            closeReason, openByMarket, totalProfit, entered, trades)
    }

    constructor ()
      ensures Abs() == Init() && fresh(currentTrade)
    {
      currentTradeSide := None;
      currentTrade := new Trade();
      waits, money, times, currentPrice := NoWaits, NoMoney, Times(0, 0, 0, 0), 0.0;
      closeReason, openByMarket, totalProfit := NoReason, false, 0.0;
      trades, entered := [], [];
    }

    predicate IsCloseInProgress()
      reads this
    {
      waits.closeLimit || waits.closeMarket || waits.cancelCloseLimit
    }

    method ResetState()
      modifies this
      ensures Abs() == ResetTradeState(old(Abs()))
    {
      waits := NoWaits;
      money := NoMoney;
      closeReason := NoReason;
      openByMarket := false;
    }

    method DropTrade()
      modifies this
      ensures Abs() == Drop(old(Abs()))
    {
      ResetState();
      currentTradeSide := None;
    }

    method Finish()
      modifies this
      ensures Abs() == FinishTrade(old(Abs()))
    {
      if currentTradeSide.None? {
        return;
      }
      var side := currentTradeSide.value;
      var closePrice, grossPnl := GrossPnl(money, side);
      money := money.(closePrice := closePrice);
      var fees := money.entryFee + money.exitFee;
      var netPnl := grossPnl - fees;
      totalProfit := totalProfit + netPnl;
      trades := trades + [TradeResult(currentTrade.currentTradeNumber, side, closeReason, openByMarket,
                                      money.openPrice, money.closeQty, grossPnl, fees, netPnl)];
      waits := waits.(closeLimit := false, closeMarket := false, cancelCloseLimit := false, isOpen := false);
      currentTradeSide := None;
    }

    method Enter(order: OrderEvent, byMarket: bool, now: int)
      modifies this, currentTrade
      ensures Abs() == EnterTrade(old(Abs()), order, byMarket, now)
    {
      var side := if currentTradeSide.Some? then currentTradeSide.value else order.side;
      if side.SideUnknown? {
        side := order.side;
      }
      if side.SideUnknown? {
        DropTrade();
        return;
      }
      var price := if order.avgPrice > 0.0 then order.avgPrice
                   else if order.price > 0.0 then order.price else currentPrice;
      var qty := if order.cumExecQty > QTY_EPSILON then order.cumExecQty
                 else if order.qty > QTY_EPSILON then order.qty else DEFAULT_QTY;
      Begin(side, price, qty, order.cumExecFee, byMarket, now);
    }

    // The end of enterTrade, once side, price and quantity are known.
    method Begin(side: Side, price: real, qty: real, fee: real, byMarket: bool, now: int)
      modifies this, currentTrade
      ensures Abs() == Entering(old(Abs()), side, price, qty, fee, byMarket, now)
    {
      currentTradeSide, openByMarket := Some(side), byMarket;
      waits := NoWaits.(isOpen := true);
      times := times.(start := now);
      money := money.(openPrice := price, openQty := qty, entryFee := fee);
      entered := entered + [currentTrade.currentTradeNumber];
      currentTrade.SetSLTP(price, side);
    }

    method SendOpenFallback(now: int, accept: bool)
      modifies this, currentTrade
      ensures Abs() == SendOpenMarketFallback(old(Abs()), now, accept)
    {
      if currentTradeSide.None? {
        return;
      }
      var ok := currentTrade.MakeTradeByMarketOrder(currentTradeSide.value, accept);
      if !ok {
        DropTrade();
        return;
      }
      waits := waits.(openMarket := true);
      times := times.(placeOpenMarket := now);
    }

    method SendMarketClose(qty: real, now: int, accept: bool)
      modifies this, currentTrade
      ensures Abs() == SendCloseMarket(old(Abs()), qty, now, accept)
    {
      if !waits.isOpen || currentTradeSide.None? || qty <= QTY_EPSILON {
        return;
      }
      var side := if currentTradeSide == Some(Buy) then Sell else Buy;
      var ok := currentTrade.MakeCloseMarketOrder(side, qty, accept);
      times := times.(placeClose := now);
      if !ok {
        return;
      }
      money := money.(pendingCloseQty := qty);
      waits := waits.(closeMarket := true);
    }

    method HandleOpenLimitOrder(order: OrderEvent, now: int, accept: bool)
      modifies this, currentTrade
      ensures Abs() == HandleOpenLimit(old(Abs()), order, now, accept)
    {
      if order.status.Filled? {
        if waits.isOpen {
          return;
        }
        waits := waits.(openLimit := false, cancelOpenLimit := false);
        Enter(order, false, now);
      } else if EndsUnfilled(order.status) {
        if waits.isOpen {
          return;
        }
        waits := waits.(openLimit := false, cancelOpenLimit := false);
        if order.cumExecQty > QTY_EPSILON {
          Enter(order, false, now);
        } else if !waits.openMarket {
          SendOpenFallback(now, accept);
        }
      }
    }

    method HandleOpenMarketOrder(order: OrderEvent, now: int)
      modifies this, currentTrade
      ensures Abs() == HandleOpenMarket(old(Abs()), order, now)
    {
      if order.status.Filled? {
        if waits.isOpen {
          return;
        }
        waits := waits.(openMarket := false);
        Enter(order, true, now);
      } else if EndsUnfilled(order.status) {
        waits := waits.(openMarket := false);
        if order.cumExecQty > QTY_EPSILON {
          Enter(order, true, now);
        } else {
          DropTrade();
        }
      }
    }

    method HandleCloseLimitOrder(order: OrderEvent, now: int, accept: bool)
      modifies this, currentTrade
      ensures Abs() == HandleCloseLimit(old(Abs()), order, now, accept)
    {
      if !IsTerminal(order.status) || !waits.isOpen {
        return;
      }
      if order.status.Filled? {
        money := money.(closePrice :=
                    if order.avgPrice > 0.0 then order.avgPrice else currentTrade.closeLimitOrder.price);
        money := money.(closeQty := money.closePartial +
                    (if order.cumExecQty > QTY_EPSILON then order.cumExecQty else money.pendingCloseQty));
        if order.cumExecQty > QTY_EPSILON {
          money := money.(closeNotional := money.closeNotional + order.avgPrice * order.cumExecQty);
        }
        money := money.(exitFee := money.exitFee + order.cumExecFee);
        waits := waits.(closeLimit := false, cancelCloseLimit := false);
        assert money == BookLimitFill(old(money), order, currentTrade.closeLimitOrder.price);
        Finish();
        return;
      }
      waits := waits.(closeLimit := false, cancelCloseLimit := false);
      money := money.(closePartial := money.closePartial + order.cumExecQty);
      money := money.(closeNotional := money.closeNotional + order.avgPrice * order.cumExecQty);
      money := money.(exitFee := money.exitFee + order.cumExecFee);
      var remaining := money.openQty - money.closePartial;
      if remaining <= QTY_EPSILON {
        money := money.(closePrice :=
                    if order.avgPrice > 0.0 then order.avgPrice else currentTrade.closeLimitOrder.price);
        money := money.(closeQty := money.closePartial);
        Finish();
      } else {
        SendMarketClose(remaining, now, accept);
      }
    }

    method HandleCloseMarketOrder(order: OrderEvent)
      modifies this
      ensures Abs() == HandleCloseMarket(old(Abs()), order)
    {
      if order.status.Filled? {
        money := money.(closeQty := money.closePartial + order.cumExecQty);
        if order.cumExecQty <= QTY_EPSILON {
          money := money.(closeQty := money.closePartial + money.pendingCloseQty);
        }
        money := money.(closePrice := if order.avgPrice > 0.0 then order.avgPrice else currentPrice);
        money := money.(closeNotional := money.closeNotional + money.closePrice * order.cumExecQty);
        money := money.(exitFee := money.exitFee + order.cumExecFee);
        waits := waits.(closeMarket := false);
        assert money == BookMarketFill(old(money), order, currentPrice);
        Finish();
      } else if EndsUnfilled(order.status) {
        waits := waits.(closeMarket := false);
        if order.cumExecQty > QTY_EPSILON {
          money := money.(closePartial := money.closePartial + order.cumExecQty);
          money := money.(closeNotional := money.closeNotional + order.avgPrice * order.cumExecQty);
          money := money.(exitFee := money.exitFee + order.cumExecFee);
        }
        ghost var booked := if order.cumExecQty > QTY_EPSILON then BookPartial(old(money), order) else old(money);
        assert money == booked;
        if money.openQty - money.closePartial <= QTY_EPSILON {
          money := money.(closePrice := if order.avgPrice > 0.0 then order.avgPrice else currentPrice);
          money := money.(closeQty := money.closePartial);
          Finish();
        }
      }
    }

    method SetOrderEvent(order: OrderEvent, now: int, accept: bool)
      modifies this, currentTrade
      ensures Abs() == SetOrder(old(Abs()), order, now, accept)
    {
      var orderLinkId := FromChars(order.orderLinkId);
      if orderLinkId !in currentTrade.ordersStatus {
        return;
      }
      currentTrade.ordersStatus := currentTrade.ordersStatus[orderLinkId := order.status];
      assert Abs() == RecordStatus(old(Abs()), orderLinkId, order.status);
      if currentTradeSide.None? {
        return;
      }
      match RoleOf(orderLinkId) {
        case OpenLimit => HandleOpenLimitOrder(order, now, accept);
        case OpenMarket => HandleOpenMarketOrder(order, now);
        case CloseLimit => HandleCloseLimitOrder(order, now, accept);
        case CloseMarket => HandleCloseMarketOrder(order);
        case UnknownRole =>
      }
    }

    method OnOrderRequestResult(result: RequestResult, now: int, accept: bool)
      modifies this, currentTrade
      ensures Abs() == OnRequestResult(old(Abs()), result, now, accept)
    {
      var targetOrderId := result.request.reqId;
      if result.request.kind.CancelRequest? || result.request.kind.ReplaceRequest? {
        targetOrderId := FromChars(result.request.linkId);
      }
      if targetOrderId !in currentTrade.ordersStatus || result.success || currentTradeSide.None? {
        return;
      }
      match RoleOf(targetOrderId) {
        case OpenLimit =>
          if waits.openLimit {
            DropTrade();
          }
        case OpenMarket =>
          if waits.openMarket {
            DropTrade();
          }
        case CloseLimit =>
          if waits.closeLimit || waits.cancelCloseLimit {
            waits := waits.(closeLimit := false, cancelCloseLimit := false);
            var remaining := money.openQty - money.closePartial;
            if remaining > QTY_EPSILON {
              SendMarketClose(remaining, now, accept);
            } else {
              Finish();
            }
          }
        case CloseMarket =>
          if waits.closeMarket {
            waits := waits.(closeMarket := false);
            times := times.(placeClose := now);
          }
        case UnknownRole =>
      }
    }

    method MakeNewTrade(price: real, side: Side, now: int, accept: bool)
      modifies this, currentTrade
      ensures Abs() == MakeTrade(old(Abs()), price, side, now, accept)
    {
      if currentTradeSide.Some? {
        if waits.isOpen && currentTradeSide.value == side {
          times := times.(start := now);
        }
        return;
      }
      ResetState();
      currentTradeSide := None;
      var ok := currentTrade.MakeTradeByLimitOrder(CalcLimitPrice(price, side), side, accept);
      if ok {
        currentTradeSide := Some(side);
        times := times.(placeOpen := now);
        waits := waits.(openLimit := true);
      } else {
        currentTrade.ClearStatuses();
        ResetState();
      }
    }

    method Close(reason: CloseReason, now: int, accept: bool)
      modifies this, currentTrade
      ensures Abs() == CloseTrade(old(Abs()), reason, now, accept)
    {
      if !waits.isOpen || currentTradeSide.None? || IsCloseInProgress() {
        return;
      }
      closeReason := reason;
      money := money.(pendingCloseQty := if money.openQty > QTY_EPSILON then money.openQty - money.closePartial
                         else currentTrade.openLimitOrder.qty);
      if money.pendingCloseQty <= QTY_EPSILON {
        Finish();
        return;
      }
      SendCloseLimitOrder(now, accept);
    }

    // The end of closeTrade, once there is something to close.
    method SendCloseLimitOrder(now: int, accept: bool)
      modifies this, currentTrade
      ensures Abs() == SendCloseLimit(old(Abs()), now, accept)
    {
      var side := if currentTradeSide == Some(Buy) then Sell else Buy;
      var limitPrice := CalcLimitPrice(currentPrice, side);
      var ok := currentTrade.MakeCloseLimitOrder(limitPrice, side, money.pendingCloseQty, accept);
      times := times.(placeClose := now);
      if !ok {
        return;
      }
      waits := waits.(closeLimit := true);
    }

    method CancelOpenLimitOrder(now: int, accept: bool)
      modifies this, currentTrade
      ensures Abs() == CancelOpenLimit(old(Abs()), now, accept)
    {
      if !waits.openLimit {
        return;
      }
      var ok := currentTrade.CancelById(currentTrade.openLimitOrder.reqId, accept);
      if !ok {
        return;
      }
      waits := waits.(openLimit := false, cancelOpenLimit := true);
      times := times.(placeOpen := now);
    }

    method CancelCloseLimitOrder(now: int, accept: bool)
      modifies this, currentTrade
      ensures Abs() == CancelCloseLimit(old(Abs()), now, accept)
    {
      if !waits.closeLimit {
        return;
      }
      var ok := currentTrade.CancelById(currentTrade.closeLimitOrder.reqId, accept);
      if !ok {
        return;
      }
      waits := waits.(closeLimit := false, cancelCloseLimit := true);
      times := times.(placeClose := now);
    }

    method CheckInverse(side: Side, now: int, accept: bool)
      modifies this, currentTrade
      ensures Abs() == CheckInverseSignal(old(Abs()), side, now, accept)
    {
      if currentTradeSide.None? {
        return;
      }
      if waits.openLimit {
        if currentTradeSide.value == side {
          times := times.(placeOpen := now);
        } else {
          CancelOpenLimitOrder(now, accept);
        }
      }
      if !waits.isOpen || currentTradeSide == Some(side) || IsCloseInProgress() {
        return;
      }
      Close(InverseSignal, now, accept);
    }

    method Retry(now: int, accept: bool)
      modifies this, currentTrade
      ensures Abs() == RetryClose(old(Abs()), now, accept)
    {
      if !waits.isOpen || IsCloseInProgress() {
        return;
      }
      var remaining := money.openQty - money.closePartial;
      if remaining <= QTY_EPSILON {
        Finish();
        return;
      }
      if closeReason.StopLoss? {
        SendMarketClose(remaining, now, accept);
      } else {
        Close(closeReason, now, accept);
      }
    }

    method CheckStops(now: int, accept: bool)
      modifies this, currentTrade
      ensures Abs() == CheckSLTP(old(Abs()), now, accept)
    {
      if currentTradeSide.None? || !waits.isOpen {
        return;
      }
      var stopLoss := (currentTradeSide == Some(Sell) && currentPrice >= currentTrade.stopLossPrice) ||
                      (currentTradeSide == Some(Buy) && currentPrice <= currentTrade.stopLossPrice);
      if stopLoss {
        closeReason := StopLoss;
        SendMarketClose(money.openQty - money.closePartial, now, accept);
        return;
      }
      var takeProfit := (currentTradeSide == Some(Sell) && currentPrice <= currentTrade.takeProfitPrice) ||
                        (currentTradeSide == Some(Buy) && currentPrice >= currentTrade.takeProfitPrice);
      if takeProfit {
        if money.closePartial > QTY_EPSILON {
          SendMarketClose(money.openQty - money.closePartial, now, accept);
          return;
        }
        Close(TakeProfit, now, accept);
      }
    }

    method CheckPrice(price: real, now: int, accept: bool)
      modifies this, currentTrade
      ensures Abs() == CheckCurrentPrice(old(Abs()), price, now, accept)
    {
      currentPrice := price;
      if currentTradeSide.None? {
        return;
      }
      if waits.isOpen && now - times.start > TRADE_TIMEOUT && !IsCloseInProgress() {
        Close(Timeout, now, accept);
        return;
      }
      if waits.openLimit && now - times.placeOpen > WAIT_OPEN_LIMIT {
        CancelOpenLimitOrder(now, accept);
        return;
      }
      if waits.cancelOpenLimit && now - times.placeOpen > WAIT_OPEN_LIMIT {
        var ok := currentTrade.CancelById(currentTrade.openLimitOrder.reqId, accept);
        if ok {
          times := times.(placeOpen := now);
        }
        return;
      }
      CheckClosing(now, accept);
    }

    // The second half of checkCurrentPrice, from the closing limit on.
    method CheckClosing(now: int, accept: bool)
      requires currentTradeSide.Some?
      requires !(waits.isOpen && now - times.start > TRADE_TIMEOUT && !IsCloseInProgress())
      requires !(waits.openLimit && now - times.placeOpen > WAIT_OPEN_LIMIT)
      requires !(waits.cancelOpenLimit && now - times.placeOpen > WAIT_OPEN_LIMIT)
      modifies this, currentTrade
      ensures Abs() == CheckCurrentPrice(old(Abs()), old(currentPrice), now, accept)
    {
      if waits.closeLimit && !waits.closeMarket && now - times.placeClose > WAIT_CLOSE_LIMIT {
        CancelCloseLimitOrder(now, accept);
        return;
      }
      if waits.cancelCloseLimit && now - times.placeClose > WAIT_CLOSE_LIMIT {
        var ok := currentTrade.CancelById(currentTrade.closeLimitOrder.reqId, accept);
        if ok {
          times := times.(placeClose := now);
        }
        return;
      }
      if !IsCloseInProgress() && !closeReason.NoReason? && now - times.placeClose > CLOSE_RETRY {
        Retry(now, accept);
        return;
      }
      if !IsCloseInProgress() {
        CheckStops(now, accept);
      }
    }

    // Any call keeps the manager in exactly one phase.
    method Serve(i: Input)
      requires Inv(Abs())
      modifies this, currentTrade
      ensures Abs() == Step(old(Abs()), i) && Inv(Abs())
    {
      StepKeeps(Abs(), i);
      match i.call {
        case SetOrderCall(ev) => SetOrderEvent(ev, i.now, i.accept);
        case RequestResultCall(result) => OnOrderRequestResult(result, i.now, i.accept);
        case MakeTradeCall(price, side) => MakeNewTrade(price, side, i.now, i.accept);
        case CloseTradeCall(reason) => Close(reason, i.now, i.accept);
        case InverseSignalCall(side) => CheckInverse(side, i.now, i.accept);
        case PriceCall(price) => CheckPrice(price, i.now, i.accept);
      }
    }
  }
}
