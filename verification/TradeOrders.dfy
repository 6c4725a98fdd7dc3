// The orders the trade manager sends, and the quantities it keeps while a
// trade is open.

module TradeOrders {
  import opened Options
  import opened OrderIds
  import opened TradeMachine
  import opened TradeInvariants

  // ------------------------------------------------------------ what is sent

  // An order sent by a call that ends in state t.
  predicate OrderFits(o: Sent, t: State) {
    var order := o.order;
    if order.kind.CancelRequest? then
      order.linkId == Show(t.trade.openLimit.reqId) || order.linkId == Show(t.trade.closeLimit.reqId)
    else if IsCloseRole(RoleOf(order.reqId)) then
      && order.reqId / MULTIPLIER == t.trade.currentNumber
      && t.side.Some? && t.waits.isOpen
      && order.reduceOnly && order.side == Opposite(t.side)
      && order.qty == Remaining(t.money) && order.qty > QTY_EPSILON
    else
      && order.reqId / MULTIPLIER == t.trade.currentNumber
      && (RoleOf(order.reqId).OpenLimit? || RoleOf(order.reqId).OpenMarket?)
      && !order.reduceOnly && order.qty == DEFAULT_QTY
      && (if o.accepted then t.side == Some(order.side) && !t.waits.isOpen else t.side.None?)
  }

  // At most one order was added, and it fits the state reached.
  predicate SentOk(before: seq<Sent>, t: State) {
    t.trade.sent == before ||
    (|t.trade.sent| == |before| + 1 && t.trade.sent[..|before|] == before &&
     OrderFits(t.trade.sent[|before|], t))
  }

  lemma SentBySendCloseMarket(s: State, now: int, accept: bool)
    requires Inv(s)
    ensures SentOk(s.trade.sent, SendCloseMarket(s, Remaining(s.money), now, accept))
  {
    Registered(s.trade.currentNumber, CloseMarket);
  }

  lemma SentByCloseTrade(s: State, reason: CloseReason, now: int, accept: bool)
    requires Inv(s)
    ensures SentOk(s.trade.sent, CloseTrade(s, reason, now, accept))
  {
    Registered(s.trade.currentNumber, CloseLimit);
  }

  lemma SentByFallback(s: State, now: int, accept: bool)
    requires s.side.Some? && !s.waits.isOpen && OrdersOk(s.trade)
    ensures SentOk(s.trade.sent, SendOpenMarketFallback(s, now, accept))
  {
    Registered(s.trade.currentNumber, OpenMarket);
  }

  lemma SentByMakeTrade(s: State, price: real, side: Side, now: int, accept: bool)
    requires Inv(s)
    ensures SentOk(s.trade.sent, MakeTrade(s, price, side, now, accept))
  {
    Registered(s.trade.tradeNumber, OpenLimit);
  }

  lemma SentByCancels(s: State, now: int, accept: bool)
    requires Inv(s)
    ensures SentOk(s.trade.sent, CancelOpenLimit(s, now, accept))
    ensures SentOk(s.trade.sent, CancelCloseLimit(s, now, accept))
    ensures SentOk(s.trade.sent, RepeatCancelOpen(s, now, accept))
    ensures SentOk(s.trade.sent, RepeatCancelClose(s, now, accept))
  {
  }

  lemma SentByOpenLimit(s: State, ev: OrderEvent, now: int, accept: bool)
    requires Inv(s) && s.side.Some?
    ensures SentOk(s.trade.sent, HandleOpenLimit(s, ev, now, accept))
  {
    if !s.waits.isOpen {
      SentByFallback(s.(waits := s.waits.(openLimit := false, cancelOpenLimit := false)), now, accept);
    }
  }

  lemma SentByCloseLimit(s: State, ev: OrderEvent, now: int, accept: bool)
    requires Inv(s) && s.side.Some?
    ensures SentOk(s.trade.sent, HandleCloseLimit(s, ev, now, accept))
  {
    var s1 := s.(waits := s.waits.(closeLimit := false, cancelCloseLimit := false),
                 money := BookPartial(s.money, ev));
    if s.waits.isOpen {
      SentBySendCloseMarket(s1, now, accept);
    }
  }

  lemma SentByDispatch(s: State, role: Role, ev: OrderEvent, now: int, accept: bool)
    requires Inv(s) && s.side.Some?
    ensures SentOk(s.trade.sent, Dispatch(s, role, ev, now, accept))
  {
    match role {
      case OpenLimit => SentByOpenLimit(s, ev, now, accept);
      case OpenMarket =>
      case CloseLimit => SentByCloseLimit(s, ev, now, accept);
      case CloseMarket =>
      case UnknownRole =>
    }
  }

  lemma SentBySetOrder(s: State, ev: OrderEvent, now: int, accept: bool)
    requires Inv(s)
    ensures SentOk(s.trade.sent, SetOrder(s, ev, now, accept))
  {
    var id := FromChars(ev.orderLinkId);
    if id in s.trade.status && s.side.Some? {
      SentByDispatch(RecordStatus(s, id, ev.status), RoleOf(id), ev, now, accept);
    }
  }

  lemma SentByRequestResult(s: State, result: RequestResult, now: int, accept: bool)
    requires Inv(s)
    ensures SentOk(s.trade.sent, OnRequestResult(s, result, now, accept))
  {
    var s1 := s.(waits := s.waits.(closeLimit := false, cancelCloseLimit := false));
    if s.waits.closeLimit || s.waits.cancelCloseLimit {
      SentBySendCloseMarket(s1, now, accept);
    }
  }

  lemma SentByRetry(s: State, now: int, accept: bool)
    requires Inv(s)
    ensures SentOk(s.trade.sent, RetryClose(s, now, accept))
  {
    SentBySendCloseMarket(s, now, accept);
    SentByCloseTrade(s, s.closeReason, now, accept);
  }

  lemma SentByCheckSLTP(s: State, now: int, accept: bool)
    requires Inv(s)
    ensures SentOk(s.trade.sent, CheckSLTP(s, now, accept))
  {
    SentBySendCloseMarket(s.(closeReason := StopLoss), now, accept);
    SentBySendCloseMarket(s, now, accept);
    SentByCloseTrade(s, TakeProfit, now, accept);
  }

  lemma SentByCurrentPrice(s: State, price: real, now: int, accept: bool)
    requires Inv(s)
    ensures SentOk(s.trade.sent, CheckCurrentPrice(s, price, now, accept))
  {
    var s1 := s.(currentPrice := price);
    SentByCancels(s1, now, accept);
    SentByCloseTrade(s1, Timeout, now, accept);
    SentByRetry(s1, now, accept);
    SentByCheckSLTP(s1, now, accept);
  }

  // No call sends more than one order.  A close order is reduce-only, on the
  // other side, of the trade's exact remainder; an opening order is for the
  // default quantity.  This needs nothing of the exchange.
  lemma {:induction false} OrdersAreSized(inputs: seq<Input>, i: Input)
    ensures SentOk(Run(inputs).trade.sent, Step(Run(inputs), i))
  {
    var s := Run(inputs);
    PhaseInvariant(inputs);
    match i.call {
      case SetOrderCall(ev) => SentBySetOrder(s, ev, i.now, i.accept);
      case RequestResultCall(result) => SentByRequestResult(s, result, i.now, i.accept);
      case MakeTradeCall(price, side) => SentByMakeTrade(s, price, side, i.now, i.accept);
      case CloseTradeCall(reason) => SentByCloseTrade(s, reason, i.now, i.accept);
      case InverseSignalCall(side) =>
        SentByCancels(s, i.now, i.accept);
        SentByCloseTrade(s, InverseSignal, i.now, i.accept);
      case PriceCall(price) => SentByCurrentPrice(s, price, i.now, i.accept);
    }
  }

  // --------------------------------------------------------------- remainder

  // While a trade is open something is left to close.
  predicate SizeOk(s: State) {
    s.waits.isOpen ==> Remaining(s.money) > QTY_EPSILON
  }

  // An unfilled end of the market fallback that reports a fill although the
  // trade is already open: the code enters the trade a second time.
  predicate ReEnters(s: State, i: Input) {
    && i.call.SetOrderCall?
    && FromChars(i.call.ev.orderLinkId) in s.trade.status
    && RoleOf(FromChars(i.call.ev.orderLinkId)).OpenMarket?
    && s.waits.isOpen && EndsUnfilled(i.call.ev.status) && i.call.ev.cumExecQty > QTY_EPSILON
    && !EnterSide(s, i.call.ev).SideUnknown?
  }

  lemma SizeByDispatch(s: State, role: Role, ev: OrderEvent, now: int, accept: bool)
    requires Inv(s) && SizeOk(s) && s.side.Some?
    requires role.OpenMarket? && s.waits.isOpen && EndsUnfilled(ev.status) && ev.cumExecQty > QTY_EPSILON ==>
               EnterSide(s, ev).SideUnknown?
    ensures SizeOk(Dispatch(s, role, ev, now, accept))
  {
    match role {
      case OpenLimit => SizeByOpenLimit(s, ev, now, accept);
      case OpenMarket => SizeByOpenMarket(s, ev, now);
      case CloseLimit => SizeByCloseLimit(s, ev, now, accept);
      case CloseMarket => SizeByCloseMarket(s, ev);
      case UnknownRole =>
    }
  }

  lemma SizeBySetOrder(s: State, i: Input)
    requires Inv(s) && SizeOk(s) && i.call.SetOrderCall? && !ReEnters(s, i)
    ensures SizeOk(SetOrder(s, i.call.ev, i.now, i.accept))
  {
    var ev := i.call.ev;
    var id := FromChars(ev.orderLinkId);
    if id in s.trade.status && s.side.Some? {
      SizeByDispatch(RecordStatus(s, id, ev.status), RoleOf(id), ev, i.now, i.accept);
    }
  }

  lemma SizeByFallback(s: State, now: int, accept: bool)
    requires !s.waits.isOpen
    ensures SizeOk(SendOpenMarketFallback(s, now, accept))
  {
  }

  lemma SizeByOpenLimit(s: State, ev: OrderEvent, now: int, accept: bool)
    requires Inv(s) && SizeOk(s) && s.side.Some?
    ensures SizeOk(HandleOpenLimit(s, ev, now, accept))
  {
    if IsTerminal(ev.status) && !s.waits.isOpen {
      var s1 := s.(waits := s.waits.(openLimit := false, cancelOpenLimit := false));
      SizeByEntry(s1, ev, false, now);
      SizeByFallback(s1, now, accept);
    }
  }

  lemma SizeByOpenMarket(s: State, ev: OrderEvent, now: int)
    requires Inv(s) && SizeOk(s) && s.side.Some?
    requires s.waits.isOpen && EndsUnfilled(ev.status) && ev.cumExecQty > QTY_EPSILON ==>
               EnterSide(s, ev).SideUnknown?
    ensures SizeOk(HandleOpenMarket(s, ev, now))
  {
    var s1 := s.(waits := s.waits.(openMarket := false));
    if !s.waits.isOpen || EnterSide(s1, ev).SideUnknown? {
      SizeByEntry(s1, ev, true, now);
    }
  }

  lemma SizeByEntry(s: State, ev: OrderEvent, byMarket: bool, now: int)
    requires EnterSide(s, ev).SideUnknown? || s.money.closePartial == 0.0
    ensures SizeOk(EnterTrade(s, ev, byMarket, now))
  {
  }

  lemma SizeByCloseLimit(s: State, ev: OrderEvent, now: int, accept: bool)
    requires Inv(s) && SizeOk(s)
    ensures SizeOk(HandleCloseLimit(s, ev, now, accept))
  {
  }

  lemma SizeByCloseMarket(s: State, ev: OrderEvent)
    requires Inv(s) && SizeOk(s) && s.side.Some?
    ensures SizeOk(HandleCloseMarket(s, ev))
  {
  }

  // The call left the books alone and reported no finished trade.
  predicate Quiet(s: State, t: State) {
    && t.closed == s.closed
    && (t.waits.isOpen ==> s.waits.isOpen && t.money == s.money.(pendingCloseQty := t.money.pendingCloseQty))
  }

  lemma QuietClose(s: State, reason: CloseReason, now: int, accept: bool)
    requires Inv(s) && SizeOk(s)
    ensures Quiet(s, CloseTrade(s, reason, now, accept))
  {
  }

  lemma QuietRetry(s: State, now: int, accept: bool)
    requires Inv(s) && SizeOk(s)
    ensures Quiet(s, RetryClose(s, now, accept))
  {
    QuietClose(s, s.closeReason, now, accept);
  }

  lemma QuietCheckSLTP(s: State, now: int, accept: bool)
    requires Inv(s) && SizeOk(s)
    ensures Quiet(s, CheckSLTP(s, now, accept))
  {
    QuietClose(s, TakeProfit, now, accept);
  }

  lemma QuietCurrentPrice(s: State, price: real, now: int, accept: bool)
    requires Inv(s) && SizeOk(s)
    ensures Quiet(s, CheckCurrentPrice(s, price, now, accept))
  {
    var s1 := s.(currentPrice := price);
    QuietClose(s1, Timeout, now, accept);
    QuietRetry(s1, now, accept);
    QuietCheckSLTP(s1, now, accept);
  }

  lemma QuietRequestResult(s: State, result: RequestResult, now: int, accept: bool)
    requires Inv(s) && SizeOk(s)
    ensures Quiet(s, OnRequestResult(s, result, now, accept))
  {
  }

  lemma QuietMakeTrade(s: State, price: real, side: Side, now: int, accept: bool)
    requires Inv(s)
    ensures Quiet(s, MakeTrade(s, price, side, now, accept))
  {
  }

  // With a positive remainder only order events touch the books or finish a
  // trade: the other branches that lead to finishTrade are not taken.
  lemma {:induction false} OnlyEventsTouchTheBooks(s: State, i: Input)
    requires Inv(s) && SizeOk(s) && !i.call.SetOrderCall?
    ensures Quiet(s, Step(s, i)) && SizeOk(Step(s, i))
  {
    match i.call {
      case SetOrderCall(_) =>
      case RequestResultCall(result) => QuietRequestResult(s, result, i.now, i.accept);
      case MakeTradeCall(price, side) => QuietMakeTrade(s, price, side, i.now, i.accept);
      case CloseTradeCall(reason) => QuietClose(s, reason, i.now, i.accept);
      case InverseSignalCall(side) => QuietClose(s, InverseSignal, i.now, i.accept);
      case PriceCall(price) => QuietCurrentPrice(s, price, i.now, i.accept);
    }
  }

  // A call keeps the remainder positive exactly when it is not a re-entry for
  // a quantity that the fills already booked exhaust.
  lemma {:induction false} SizeIff(s: State, i: Input)
    requires Inv(s) && SizeOk(s)
    ensures SizeOk(Step(s, i)) <==>
            !(ReEnters(s, i) && i.call.ev.cumExecQty - s.money.closePartial <= QTY_EPSILON)
  {
    if i.call.SetOrderCall? {
      if !ReEnters(s, i) {
        SizeBySetOrder(s, i);
      }
    } else {
      OnlyEventsTouchTheBooks(s, i);
    }
  }
}
