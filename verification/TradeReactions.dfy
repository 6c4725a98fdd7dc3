// What the trade manager does when something happens: the one order that each
// kind of call sends, or that it sends none, in terms of what is booked.

module TradeReactions {
  import opened Options
  import opened OrderIds
  import opened TradeMachine
  import opened TradeInvariants

  // ------------------------------------------------------------ what is sent

  // The call sent exactly one order, with the sender's answer.
  predicate SendsOne(s: State, t: State, accept: bool) {
    |t.trade.sent| == |s.trade.sent| + 1 && t.trade.sent[..|s.trade.sent|] == s.trade.sent &&
    t.trade.sent[|s.trade.sent|].accepted == accept
  }

  predicate SendsNothing(s: State, t: State) { t.trade.sent == s.trade.sent }

  function NewOrder(s: State, t: State): OrderRequest
    requires |t.trade.sent| > |s.trade.sent|
  {
    t.trade.sent[|s.trade.sent|].order
  }

  function OtherSide(side: Option<Side>): Side { if side == Some(Buy) then Sell else Buy }

  // A reduce-only order for the whole remainder, on the other side.
  predicate ClosesRemainder(o: OrderRequest, s: State, money: Money) {
    && o.kind.NewRequest? && o.reduceOnly && o.side == OtherSide(s.side)
    && o.qty == money.openQty - money.closePartial
  }

  // The order that was just sent is registered: its events will be heard.
  predicate Registers(s: State, t: State, role: Role)
    requires |t.trade.sent| > |s.trade.sent|
  {
    NewOrder(s, t).reqId == MakeReqId(s.trade.currentNumber, role) && NewOrder(s, t).reqId in t.trade.status
  }

  predicate SendsMarketClose(s: State, t: State, money: Money, now: int, accept: bool) {
    && SendsOne(s, t, accept) && NewOrder(s, t).market && ClosesRemainder(NewOrder(s, t), s, money)
    && Registers(s, t, CloseMarket)
    && t.waits == Entered.(closeMarket := accept || s.waits.closeMarket)
    && t.times == s.times.(placeClose := now) && t.side == s.side
  }

  predicate SendsLimitClose(s: State, t: State, price: real, now: int, accept: bool) {
    && SendsOne(s, t, accept) && !NewOrder(s, t).market && ClosesRemainder(NewOrder(s, t), s, s.money)
    && Registers(s, t, CloseLimit)
    && NewOrder(s, t).price == CalcLimitPrice(price, OtherSide(s.side))
    && t.waits == Entered.(closeLimit := accept) && t.times == s.times.(placeClose := now) && t.side == s.side
  }

  // A cancel names the order by its link id, under a request id of its own.
  predicate SendsCancel(s: State, t: State, role: Role, accept: bool) {
    && SendsOne(s, t, accept) && NewOrder(s, t).kind.CancelRequest?
    && NewOrder(s, t).linkId == Show(MakeReqId(s.trade.currentNumber, role))
    && NewOrder(s, t).reqId == s.trade.nextWsRequestId && t.trade.nextWsRequestId == s.trade.nextWsRequestId + 1
    && t.side == s.side && t.money == s.money
  }

  // The trade is over and logged, with its reason and how it was opened.
  predicate Finishes(s: State, t: State, reason: CloseReason) {
    && SendsNothing(s, t) && t.side.None? && t.waits == NoWaits
    && |t.closed| == |s.closed| + 1 && t.closed[..|s.closed|] == s.closed
    && (var r := t.closed[|s.closed|];
        && r.number == s.trade.currentNumber && Some(r.side) == s.side
        && r.reason == reason && r.byMarket == s.openByMarket)
  }

  // ---------------------------------------------------- what is always true

  // The booked price, moved by a share of it.
  function Moved(price: real, share: real): real { price + share * price }

  // The orders carry the ids of their trade, and an open trade has a side and
  // stops at fixed shares of its open price.
  predicate Named(s: State) {
    && (s.side.Some? ==> s.trade.openLimit.reqId == MakeReqId(s.trade.currentNumber, OpenLimit))
    && (s.waits.closeLimit || s.waits.cancelCloseLimit ==>
          s.trade.closeLimit.reqId == MakeReqId(s.trade.currentNumber, CloseLimit))
    && (s.waits.isOpen ==>
          if s.side == Some(Buy) then
            s.trade.takeProfit == Moved(s.money.openPrice, COEF_TAKE_PROFIT) &&
            s.trade.stopLoss == Moved(s.money.openPrice, -COEF_STOP_LOSS)
          else
            s.side == Some(Sell) &&
            s.trade.takeProfit == Moved(s.money.openPrice, -COEF_TAKE_PROFIT) &&
            s.trade.stopLoss == Moved(s.money.openPrice, COEF_STOP_LOSS))
  }

  lemma NamedBySendCloseMarket(s: State, qty: real, now: int, accept: bool)
    requires Named(s)
    ensures Named(SendCloseMarket(s, qty, now, accept))
  {
  }

  lemma NamedBySendCloseLimit(s: State, now: int, accept: bool)
    requires Named(s)
    ensures Named(SendCloseLimit(s, now, accept))
  {
  }

  lemma NamedByClose(s: State, reason: CloseReason, now: int, accept: bool)
    requires Named(s)
    ensures Named(CloseTrade(s, reason, now, accept))
  {
    var pending := if s.money.openQty > QTY_EPSILON then Remaining(s.money) else s.trade.openLimit.qty;
    var s1 := s.(closeReason := reason, money := s.money.(pendingCloseQty := pending));
    NamedBySendCloseLimit(s1, now, accept);
    NamedByFinish(s1);
  }

  lemma NamedByFinish(s: State)
    requires Named(s)
    ensures Named(FinishTrade(s))
  {
  }

  lemma NamedByEntry(s: State, ev: OrderEvent, byMarket: bool, now: int)
    requires Named(s) && s.side.Some? && !s.waits.closeLimit && !s.waits.cancelCloseLimit
    ensures Named(EnterTrade(s, ev, byMarket, now))
  {
  }

  lemma NamedByCancels(s: State, now: int, accept: bool)
    requires Named(s)
    ensures Named(CancelOpenLimit(s, now, accept)) && Named(CancelCloseLimit(s, now, accept))
    ensures Named(RepeatCancelOpen(s, now, accept)) && Named(RepeatCancelClose(s, now, accept))
  {
  }

  lemma NamedByRetry(s: State, now: int, accept: bool)
    requires Named(s)
    ensures Named(RetryClose(s, now, accept))
  {
    NamedBySendCloseMarket(s, Remaining(s.money), now, accept);
    NamedByClose(s, s.closeReason, now, accept);
  }

  lemma NamedByStops(s: State, now: int, accept: bool)
    requires Named(s)
    ensures Named(CheckSLTP(s, now, accept))
  {
    NamedBySendCloseMarket(s.(closeReason := StopLoss), Remaining(s.money), now, accept);
    NamedBySendCloseMarket(s, Remaining(s.money), now, accept);
    NamedByClose(s, TakeProfit, now, accept);
  }

  lemma NamedByPrice(s: State, price: real, now: int, accept: bool)
    requires Named(s)
    ensures Named(CheckCurrentPrice(s, price, now, accept))
  {
    var s1 := s.(currentPrice := price);
    NamedByCancels(s1, now, accept);
    NamedByClose(s1, Timeout, now, accept);
    NamedByRetry(s1, now, accept);
    NamedByStops(s1, now, accept);
  }

  lemma NamedByInverse(s: State, side: Side, now: int, accept: bool)
    requires Named(s)
    ensures Named(CheckInverseSignal(s, side, now, accept))
  {
    NamedByCancels(s, now, accept);
    NamedByClose(CancelOpenLimit(s, now, accept), InverseSignal, now, accept);
    NamedByClose(s, InverseSignal, now, accept);
  }

  lemma NamedByOpenLimit(s: State, ev: OrderEvent, now: int, accept: bool)
    requires Named(s) && Inv(s) && s.side.Some?
    ensures Named(HandleOpenLimit(s, ev, now, accept))
  {
    if !s.waits.isOpen {
      NamedByEntry(s.(waits := s.waits.(openLimit := false, cancelOpenLimit := false)), ev, false, now);
    }
  }

  lemma NamedByOpenMarket(s: State, ev: OrderEvent, now: int)
    requires Named(s) && Inv(s) && s.side.Some?
    ensures Named(HandleOpenMarket(s, ev, now))
  {
  }

  lemma NamedByCloseLimit(s: State, ev: OrderEvent, now: int, accept: bool)
    requires Named(s) && Inv(s) && s.side.Some?
    ensures Named(HandleCloseLimit(s, ev, now, accept))
  {
    var waits := s.waits.(closeLimit := false, cancelCloseLimit := false);
    var money := BookPartial(s.money, ev);
    NamedBySendCloseMarket(s.(waits := waits, money := money), Remaining(money), now, accept);
  }

  lemma NamedByCloseMarket(s: State, ev: OrderEvent)
    requires Named(s) && Inv(s) && s.side.Some?
    ensures Named(HandleCloseMarket(s, ev))
  {
  }

  lemma NamedByEvent(s: State, ev: OrderEvent, now: int, accept: bool)
    requires Named(s) && Inv(s)
    ensures Named(SetOrder(s, ev, now, accept))
  {
    var id := FromChars(ev.orderLinkId);
    if id in s.trade.status && s.side.Some? {
      var s1 := RecordStatus(s, id, ev.status);
      NamedByOpenLimit(s1, ev, now, accept);
      NamedByOpenMarket(s1, ev, now);
      NamedByCloseLimit(s1, ev, now, accept);
      NamedByCloseMarket(s1, ev);
    }
  }

  lemma NamedByRequestResult(s: State, result: RequestResult, now: int, accept: bool)
    requires Named(s)
    ensures Named(OnRequestResult(s, result, now, accept))
  {
  }

  lemma NamedByMakeTrade(s: State, price: real, side: Side, now: int, accept: bool)
    requires Named(s) && Inv(s)
    ensures Named(MakeTrade(s, price, side, now, accept))
  {
  }

  lemma NamedStep(s: State, i: Input)
    requires Named(s) && Inv(s)
    ensures Named(Step(s, i))
  {
    match i.call {
      case SetOrderCall(ev) => NamedByEvent(s, ev, i.now, i.accept);
      case RequestResultCall(result) => NamedByRequestResult(s, result, i.now, i.accept);
      case MakeTradeCall(price, side) => NamedByMakeTrade(s, price, side, i.now, i.accept);
      case CloseTradeCall(reason) => NamedByClose(s, reason, i.now, i.accept);
      case InverseSignalCall(side) => NamedByInverse(s, side, i.now, i.accept);
      case PriceCall(price) => NamedByPrice(s, price, i.now, i.accept);
    }
  }

  lemma {:induction false} NamedRun(inputs: seq<Input>)
    ensures Named(Run(inputs))
  {
    if inputs != [] {
      NamedRun(inputs[..|inputs| - 1]);
      PhaseInvariant(inputs[..|inputs| - 1]);
      NamedStep(Run(inputs[..|inputs| - 1]), inputs[|inputs| - 1]);
    }
  }

  // ------------------------------------------------------------ what is due

  // An open trade without a close order under way.
  predicate Free(s: State) {
    s.waits.isOpen && !s.waits.closeLimit && !s.waits.closeMarket && !s.waits.cancelCloseLimit
  }

  predicate NothingLeft(s: State) { s.money.openQty - s.money.closePartial <= QTY_EPSILON }

  predicate HeldTooLong(s: State, now: int) { Free(s) && now - s.times.start > TRADE_TIMEOUT }

  predicate RetryDue(s: State, now: int) {
    Free(s) && !HeldTooLong(s, now) && s.closeReason != NoReason && now - s.times.placeClose > CLOSE_RETRY
  }

  // The price has moved against the trade, or with it, by a share of the open
  // price, and nothing else is due.
  predicate AtLoss(s: State, price: real, now: int) {
    Free(s) && !HeldTooLong(s, now) && !RetryDue(s, now) &&
    if s.side == Some(Buy) then price <= Moved(s.money.openPrice, -COEF_STOP_LOSS)
    else price >= Moved(s.money.openPrice, COEF_STOP_LOSS)
  }

  predicate AtWin(s: State, price: real, now: int) {
    Free(s) && !HeldTooLong(s, now) && !RetryDue(s, now) && !AtLoss(s, price, now) &&
    if s.side == Some(Buy) then price >= Moved(s.money.openPrice, COEF_TAKE_PROFIT)
    else price <= Moved(s.money.openPrice, -COEF_TAKE_PROFIT)
  }

  // An order, or its cancel, has been waited for too long.
  predicate OpenOverdue(s: State, now: int) {
    (s.waits.openLimit || s.waits.cancelOpenLimit) && now - s.times.placeOpen > WAIT_OPEN_LIMIT
  }

  predicate CloseOverdue(s: State, now: int) {
    (s.waits.closeLimit || s.waits.cancelCloseLimit) && now - s.times.placeClose > WAIT_CLOSE_LIMIT
  }

  function Priced(s: State, price: real, now: int, accept: bool): State {
    Step(s, Input(PriceCall(price), now, accept))
  }

  predicate Ready(s: State) { Inv(s) && Named(s) }

  lemma RunIsReady(inputs: seq<Input>)
    ensures Ready(Run(inputs))
  {
    PhaseInvariant(inputs);
    NamedRun(inputs);
  }

  // ------------------------------------------------------------ prices, proved

  lemma SendsMarket(s: State, now: int, accept: bool)
    requires Ready(s) && Free(s)
    ensures var t := SendCloseMarket(s, Remaining(s.money), now, accept);
            if NothingLeft(s) then t == s
            else SendsMarketClose(s, t, s.money, now, accept) && t.closeReason == s.closeReason
  {
  }

  // The remainder is closed by a limit; a trade with nothing left is finished.
  predicate Closes(s: State, t: State, price: real, reason: CloseReason, now: int, accept: bool) {
    && t.closeReason == reason
    && if NothingLeft(s) then Finishes(s, t, reason) else SendsLimitClose(s, t, price, now, accept)
  }

  lemma SendsLimit(s: State, reason: CloseReason, now: int, accept: bool)
    requires Ready(s) && Free(s)
    ensures Closes(s, CloseTrade(s, reason, now, accept), s.currentPrice, reason, now, accept)
  {
    if NothingLeft(s) {
      FinishesFrom(s, s.(closeReason := reason, money := s.money.(pendingCloseQty := Remaining(s.money))));
    }
  }

  lemma FinishesFrom(s: State, s1: State)
    requires Ready(s) && Free(s) && s1 == s.(closeReason := s1.closeReason, money := s1.money)
    ensures Finishes(s, FinishTrade(s1), s1.closeReason)
  {
  }

  lemma TimeoutReaction(s: State, price: real, now: int, accept: bool)
    requires Ready(s) && HeldTooLong(s, now)
    ensures Closes(s, Priced(s, price, now, accept), price, Timeout, now, accept)
  {
    SendsLimit(s.(currentPrice := price), Timeout, now, accept);
  }

  // A close is tried again: a stopped loss by the market, any other by a limit.
  predicate ClosesAgain(s: State, t: State, price: real, now: int, accept: bool) {
    if !s.closeReason.StopLoss? || NothingLeft(s) then Closes(s, t, price, s.closeReason, now, accept)
    else SendsMarketClose(s, t, s.money, now, accept) && t.closeReason == StopLoss
  }

  lemma RetryReaction(s: State, price: real, now: int, accept: bool)
    requires Ready(s) && RetryDue(s, now)
    ensures ClosesAgain(s, Priced(s, price, now, accept), price, now, accept)
  {
    var s1 := s.(currentPrice := price);
    RetryIsDue(s, price, now, accept);
    if NothingLeft(s) {
      FinishesFrom(s1, s1);
    } else {
      SendsMarket(s1, now, accept);
      SendsLimit(s1, s.closeReason, now, accept);
    }
  }

  lemma RetryIsDue(s: State, price: real, now: int, accept: bool)
    requires Ready(s) && RetryDue(s, now)
    ensures Priced(s, price, now, accept) == RetryClose(s.(currentPrice := price), now, accept)
  {
  }

  // A loss is stopped by the market.
  predicate StopsLoss(s: State, t: State, price: real, now: int, accept: bool) {
    && t.closeReason == StopLoss
    && if NothingLeft(s) then t == s.(currentPrice := price, closeReason := StopLoss)
       else SendsMarketClose(s, t, s.money, now, accept)
  }

  lemma LossReaction(s: State, price: real, now: int, accept: bool)
    requires Ready(s) && AtLoss(s, price, now)
    ensures StopsLoss(s, Priced(s, price, now, accept), price, now, accept)
  {
    OnlyStopsAreLeft(s, price, now, accept);
    StopsSay(s.(currentPrice := price), now);
    SendsMarket(s.(currentPrice := price, closeReason := StopLoss), now, accept);
  }

  // What the stops of an open trade say of its current price.
  lemma StopsSay(s: State, now: int)
    requires Ready(s) && Free(s) && !HeldTooLong(s, now) && !RetryDue(s, now)
    ensures StopLossHit(s) <==> AtLoss(s, s.currentPrice, now)
    ensures !StopLossHit(s) ==> (TakeProfitHit(s) <==> AtWin(s, s.currentPrice, now))
  {
  }

  // With nothing else due, only the stops are looked at.
  lemma OnlyStopsAreLeft(s: State, price: real, now: int, accept: bool)
    requires Ready(s) && Free(s) && !HeldTooLong(s, now) && !RetryDue(s, now)
    ensures Priced(s, price, now, accept) == CheckSLTP(s.(currentPrice := price), now, accept)
  {
  }

  // A win is taken by a limit, and what a partial close has left by the market.
  predicate TakesWin(s: State, t: State, price: real, now: int, accept: bool) {
    if s.money.closePartial <= QTY_EPSILON then Closes(s, t, price, TakeProfit, now, accept)
    else if NothingLeft(s) then t == s.(currentPrice := price)
    else SendsMarketClose(s, t, s.money, now, accept) && t.closeReason == s.closeReason
  }

  lemma WinReaction(s: State, price: real, now: int, accept: bool)
    requires Ready(s) && AtWin(s, price, now)
    ensures TakesWin(s, Priced(s, price, now, accept), price, now, accept)
  {
    OnlyStopsAreLeft(s, price, now, accept);
    StopsSay(s.(currentPrice := price), now);
    SendsMarket(s.(currentPrice := price), now, accept);
    SendsLimit(s.(currentPrice := price), TakeProfit, now, accept);
  }

  // An overdue order is cancelled, by its id, and the wait begins again.
  predicate CancelsOpen(s: State, t: State, now: int, accept: bool) {
    && SendsCancel(s, t, OpenLimit, accept)
    && t.waits == (if accept then NoWaits.(cancelOpenLimit := true) else s.waits)
    && t.times == (if accept then s.times.(placeOpen := now) else s.times)
  }

  predicate CancelsClose(s: State, t: State, now: int, accept: bool) {
    && SendsCancel(s, t, CloseLimit, accept)
    && t.waits == (if accept then Entered.(cancelCloseLimit := true) else s.waits)
    && t.times == (if accept then s.times.(placeClose := now) else s.times)
  }

  lemma OpenOverdueReaction(s: State, price: real, now: int, accept: bool)
    requires Ready(s) && OpenOverdue(s, now)
    ensures CancelsOpen(s, Priced(s, price, now, accept), now, accept)
  {
  }

  lemma CloseOverdueReaction(s: State, price: real, now: int, accept: bool)
    requires Ready(s) && CloseOverdue(s, now)
    ensures CancelsClose(s, Priced(s, price, now, accept), now, accept)
  {
  }

  lemma NoReaction(s: State, price: real, now: int, accept: bool)
    requires Ready(s) && !OpenOverdue(s, now) && !CloseOverdue(s, now)
    requires !HeldTooLong(s, now) && !RetryDue(s, now) && !AtLoss(s, price, now) && !AtWin(s, price, now)
    ensures Priced(s, price, now, accept) == s.(currentPrice := price)
  {
    if Free(s) {
      OnlyStopsAreLeft(s, price, now, accept);
      StopsSay(s.(currentPrice := price), now);
    } else {
      NothingToStop(s, price, now, accept);
    }
  }

  lemma NothingToStop(s: State, price: real, now: int, accept: bool)
    requires Ready(s) && !OpenOverdue(s, now) && !CloseOverdue(s, now) && !Free(s)
    ensures Priced(s, price, now, accept) == s.(currentPrice := price)
  {
    if s.waits.isOpen {
      CloseIsAwaited(s, price, now, accept);
    } else {
      OpeningIsAwaited(s, price, now, accept);
    }
  }

  lemma CloseIsAwaited(s: State, price: real, now: int, accept: bool)
    requires Ready(s) && s.waits.isOpen && CloseInProgress(s.waits) && !CloseOverdue(s, now)
    ensures Priced(s, price, now, accept) == s.(currentPrice := price)
  {
    assert !s.waits.openLimit && !s.waits.cancelOpenLimit;
  }

  lemma OpeningIsAwaited(s: State, price: real, now: int, accept: bool)
    requires Ready(s) && !s.waits.isOpen && !OpenOverdue(s, now)
    ensures Priced(s, price, now, accept) == s.(currentPrice := price)
  {
    assert !s.waits.closeLimit && !s.waits.cancelCloseLimit && !s.waits.closeMarket;
  }

  // What a price does: exactly one of these.
  predicate ReactsToPrice(s: State, price: real, now: int, accept: bool) {
    var t := Priced(s, price, now, accept);
    if OpenOverdue(s, now) then CancelsOpen(s, t, now, accept)
    else if CloseOverdue(s, now) then CancelsClose(s, t, now, accept)
    else if HeldTooLong(s, now) then Closes(s, t, price, Timeout, now, accept)
    else if RetryDue(s, now) then ClosesAgain(s, t, price, now, accept)
    else if AtLoss(s, price, now) then StopsLoss(s, t, price, now, accept)
    else if AtWin(s, price, now) then TakesWin(s, t, price, now, accept)
    else t == s.(currentPrice := price)
  }

  // In every run the next price stops a loss by the market, takes a win and
  // ends a trade held too long by a limit, retries a close, cancels what is
  // overdue, and otherwise does nothing.
  lemma PricesAreActedOn(inputs: seq<Input>, price: real, now: int, accept: bool)
    ensures ReactsToPrice(Run(inputs), price, now, accept)
  {
    var s := Run(inputs);
    RunIsReady(inputs);
    if OpenOverdue(s, now) {
      OpenOverdueReaction(s, price, now, accept);
    } else if CloseOverdue(s, now) {
      CloseOverdueReaction(s, price, now, accept);
    } else if HeldTooLong(s, now) {
      TimeoutReaction(s, price, now, accept);
    } else if RetryDue(s, now) {
      RetryReaction(s, price, now, accept);
    } else if AtLoss(s, price, now) {
      LossReaction(s, price, now, accept);
    } else if AtWin(s, price, now) {
      WinReaction(s, price, now, accept);
    } else {
      NoReaction(s, price, now, accept);
    }
  }
}
