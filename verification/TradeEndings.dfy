// How an open trade stops being open, and what is logged then.

module TradeEndings {
  import opened OrderIds
  import opened TradeMachine
  import opened TradeInvariants
  import opened TradeExchange

  // An unfilled end of the market fallback that the code takes although the
  // trade is already open, and that does not enter it again: the trade is gone.
  predicate DropsOpenTrade(s: State, i: Input) {
    && s.waits.isOpen && i.call.SetOrderCall?
    && EventId(i) in s.trade.status && RoleOf(EventId(i)).OpenMarket? && EndsUnfilled(i.call.ev.status)
    && (i.call.ev.cumExecQty > QTY_EPSILON ==> EnterSide(s, i.call.ev).SideUnknown?)
  }

  // Still open and nothing logged, or over and logged once.
  predicate EndsLogged(s: State, t: State) {
    if t.waits.isOpen then t.closed == s.closed
    else |t.closed| == |s.closed| + 1 && t.closed[..|s.closed|] == s.closed
  }

  predicate IsOpenTrade(s: State) { s.waits.isOpen && s.side.Some? }

  lemma SendCloseLogged(s: State, qty: real, now: int, accept: bool)
    requires IsOpenTrade(s)
    ensures EndsLogged(s, SendCloseMarket(s, qty, now, accept))
  {
  }

  lemma CloseLogged(s: State, reason: CloseReason, now: int, accept: bool)
    requires IsOpenTrade(s)
    ensures EndsLogged(s, CloseTrade(s, reason, now, accept))
  {
  }

  lemma CloseLimitLogged(s: State, ev: OrderEvent, now: int, accept: bool)
    requires IsOpenTrade(s)
    ensures EndsLogged(s, HandleCloseLimit(s, ev, now, accept))
  {
  }

  lemma CloseMarketLogged(s: State, ev: OrderEvent)
    requires IsOpenTrade(s)
    ensures EndsLogged(s, HandleCloseMarket(s, ev))
  {
  }

  lemma OpenLimitLogged(s: State, ev: OrderEvent, now: int, accept: bool)
    requires IsOpenTrade(s)
    ensures EndsLogged(s, HandleOpenLimit(s, ev, now, accept))
  {
  }

  lemma OpenMarketLogged(s: State, ev: OrderEvent, now: int)
    requires IsOpenTrade(s)
    ensures var t := HandleOpenMarket(s, ev, now);
            if EndsUnfilled(ev.status) && (ev.cumExecQty > QTY_EPSILON ==> EnterSide(s, ev).SideUnknown?)
            then !t.waits.isOpen && t.closed == s.closed else EndsLogged(s, t)
  {
  }

  lemma RequestResultLogged(s: State, result: RequestResult, now: int, accept: bool)
    requires Inv(s) && s.waits.isOpen
    ensures EndsLogged(s, OnRequestResult(s, result, now, accept))
  {
  }

  lemma RetryLogged(s: State, now: int, accept: bool)
    requires IsOpenTrade(s)
    ensures EndsLogged(s, RetryClose(s, now, accept))
  {
    SendCloseLogged(s, Remaining(s.money), now, accept);
    CloseLogged(s, s.closeReason, now, accept);
  }

  lemma StopsLogged(s: State, now: int, accept: bool)
    requires IsOpenTrade(s)
    ensures EndsLogged(s, CheckSLTP(s, now, accept))
  {
    SendCloseLogged(s.(closeReason := StopLoss), Remaining(s.money), now, accept);
    SendCloseLogged(s, Remaining(s.money), now, accept);
    CloseLogged(s, TakeProfit, now, accept);
  }

  lemma CancelsLogged(s: State, now: int, accept: bool)
    requires IsOpenTrade(s)
    ensures EndsLogged(s, CancelOpenLimit(s, now, accept)) && EndsLogged(s, CancelCloseLimit(s, now, accept))
    ensures EndsLogged(s, RepeatCancelOpen(s, now, accept)) && EndsLogged(s, RepeatCancelClose(s, now, accept))
  {
  }

  lemma PriceLogged(s: State, price: real, now: int, accept: bool)
    requires IsOpenTrade(s)
    ensures EndsLogged(s, CheckCurrentPrice(s, price, now, accept))
  {
    var s1 := s.(currentPrice := price);
    CancelsLogged(s1, now, accept);
    CloseLogged(s1, Timeout, now, accept);
    RetryLogged(s1, now, accept);
    StopsLogged(s1, now, accept);
  }

  lemma InverseLogged(s: State, side: Side, now: int, accept: bool)
    requires Inv(s) && s.waits.isOpen
    ensures EndsLogged(s, CheckInverseSignal(s, side, now, accept))
  {
    CloseLogged(s, InverseSignal, now, accept);
  }

  lemma EventLogged(s: State, i: Input)
    requires Inv(s) && s.waits.isOpen && i.call.SetOrderCall?
    ensures if DropsOpenTrade(s, i) then !Step(s, i).waits.isOpen && Step(s, i).closed == s.closed
            else EndsLogged(s, Step(s, i))
  {
    var ev, id := i.call.ev, EventId(i);
    if id in s.trade.status {
      var s1 := RecordStatus(s, id, ev.status);
      match RoleOf(id) {
        case OpenLimit => OpenLimitLogged(s1, ev, i.now, i.accept);
        case OpenMarket => OpenMarketLogged(s1, ev, i.now);
        case CloseLimit => CloseLimitLogged(s1, ev, i.now, i.accept);
        case CloseMarket => CloseMarketLogged(s1, ev);
        case UnknownRole =>
      }
    }
  }

  lemma StepLogged(s: State, i: Input)
    requires Inv(s) && s.waits.isOpen && !i.call.SetOrderCall?
    ensures EndsLogged(s, Step(s, i))
  {
    match i.call {
      case SetOrderCall(_) =>
      case RequestResultCall(result) => RequestResultLogged(s, result, i.now, i.accept);
      case MakeTradeCall(_, _) =>
      case CloseTradeCall(reason) => CloseLogged(s, reason, i.now, i.accept);
      case InverseSignalCall(side) => InverseLogged(s, side, i.now, i.accept);
      case PriceCall(price) => PriceLogged(s, price, i.now, i.accept);
    }
  }

  // Whatever the exchange does: an open trade stops being open without a logged
  // result exactly by such an end of the fallback; otherwise a call leaves it
  // open and logs nothing, or ends it and logs exactly one result.
  lemma OpenTradeEndsIff(s: State, i: Input)
    requires Inv(s) && s.waits.isOpen
    ensures !Step(s, i).waits.isOpen && Step(s, i).closed == s.closed <==> DropsOpenTrade(s, i)
    ensures !DropsOpenTrade(s, i) ==> EndsLogged(s, Step(s, i))
  {
    if i.call.SetOrderCall? {
      EventLogged(s, i);
    } else {
      StepLogged(s, i);
    }
  }

  // Against an exchange that ends an opening order at most once, an open trade
  // ends only by logging exactly one result.
  lemma NoTradeVanishes(inputs: seq<Input>, i: Input)
    requires ExchangeOk(inputs + [i]) && Run(inputs).waits.isOpen
    ensures EndsLogged(Run(inputs), Step(Run(inputs), i))
  {
    assert (inputs + [i])[..|inputs|] == inputs;
    PhaseInvariant(inputs);
    EntryRun(inputs);
    OpenTradeEndsIff(Run(inputs), i);
  }
}
