// What the trade manager does with a signal, a request to close, a failed
// request and an order event: the order it sends and the phase it enters.

module TradeResponses {
  import opened Options
  import opened OrderIds
  import opened TradeMachine
  import opened TradeInvariants
  import opened TradeExchange
  import opened TradeReactions

  // ----------------------------------------------------------------- signals

  // A limit order for the default quantity, at the passive price of its side.
  predicate IsOpeningLimit(o: OrderRequest, tradeNumber: nat, side: Side, price: real) {
    && o.kind.NewRequest? && !o.market && !o.reduceOnly && o.side == side && o.qty == DEFAULT_QTY
    && o.reqId == MakeReqId(tradeNumber, OpenLimit) && o.price == CalcLimitPrice(price, side)
  }

  // Without a trade, a signal opens one with a limit order; a refused order
  // leaves no trade.  With a trade it sends nothing, and only extends the
  // holding time of an open trade of the same side.
  lemma SignalResponse(inputs: seq<Input>, price: real, side: Side, now: int, accept: bool)
    ensures var s, t := Run(inputs), Step(Run(inputs), Input(MakeTradeCall(price, side), now, accept));
            if s.side.None? then
              && SendsOne(s, t, accept) && IsOpeningLimit(NewOrder(s, t), s.trade.tradeNumber, side, price)
              && t.money == NoMoney && t.closed == s.closed
              && (if accept then
                    && t.side == Some(side) && t.waits == NoWaits.(openLimit := true)
                    && t.times.placeOpen == now && t.trade.currentNumber == s.trade.tradeNumber
                    && IsKnown(t, NewOrder(s, t).reqId, OpenLimit)
                  else t.side.None? && t.waits == NoWaits)
            else if s.waits.isOpen && s.side == Some(side) then t == s.(times := s.times.(start := now))
            else t == s
  {
    RunIsReady(inputs);
  }

  // A request to close sends a limit order for the remainder of an open trade
  // that has no close order under way (or finishes a trade with nothing left),
  // and otherwise does nothing.
  lemma CloseResponse(inputs: seq<Input>, reason: CloseReason, now: int, accept: bool)
    ensures var s, t := Run(inputs), Step(Run(inputs), Input(CloseTradeCall(reason), now, accept));
            if Free(s) then Closes(s, t, s.currentPrice, reason, now, accept) else t == s
  {
    RunIsReady(inputs);
    if Free(Run(inputs)) {
      SendsLimit(Run(inputs), reason, now, accept);
    }
  }

  // An inverse signal cancels an opening limit of the other side, or extends
  // the wait for one of the same side; it closes an open trade of the other side.
  lemma InverseResponse(inputs: seq<Input>, side: Side, now: int, accept: bool)
    ensures var s, t := Run(inputs), Step(Run(inputs), Input(InverseSignalCall(side), now, accept));
            if s.waits.openLimit then
              if s.side == Some(side) then t == s.(times := s.times.(placeOpen := now))
              else
                && SendsCancel(s, t, OpenLimit, accept)
                && t.waits == (if accept then NoWaits.(cancelOpenLimit := true) else s.waits)
            else if Free(s) && s.side != Some(side) then
              Closes(s, t, s.currentPrice, InverseSignal, now, accept)
            else t == s
  {
    RunIsReady(inputs);
    if Free(Run(inputs)) {
      SendsLimit(Run(inputs), InverseSignal, now, accept);
    }
  }

  // --------------------------------------------------------- failed requests

  // A registered order of the current trade, by its role.
  predicate IsKnown(s: State, id: nat, role: Role) {
    id in s.trade.status && id == MakeReqId(s.trade.currentNumber, role)
  }

  // The order that a request is about: its own, or the one that a cancel or a
  // replacement names.
  predicate IsAbout(request: OrderRequest, id: nat) {
    if request.kind.NewRequest? then request.reqId == id else FromChars(request.linkId) == id
  }

  predicate NoTrade(s: State, t: State) {
    SendsNothing(s, t) && t.side.None? && t.waits == NoWaits && t.closed == s.closed
  }

  // What a failed request of an order of some role does.
  predicate RespondsToFailure(s: State, t: State, role: Role, now: int, accept: bool) {
    match role
    case OpenLimit => if s.waits.openLimit then NoTrade(s, t) else t == s
    case OpenMarket => if s.waits.openMarket then NoTrade(s, t) else t == s
    case CloseLimit =>
      if !s.waits.closeLimit && !s.waits.cancelCloseLimit then t == s
      else if NothingLeft(s) then Finishes(s, t, s.closeReason) && t.closeReason == s.closeReason
      else SendsMarketClose(s, t, s.money, now, accept) && t.closeReason == s.closeReason
    case CloseMarket =>
      if s.waits.closeMarket then t == s.(waits := Entered, times := s.times.(placeClose := now)) else t == s
    case UnknownRole => true
  }

  lemma OpeningFails(s: State, role: Role, now: int, accept: bool)
    requires Ready(s) && s.side.Some? && (role.OpenLimit? || role.OpenMarket?)
    ensures RespondsToFailure(s, RequestFailed(s, role, now, accept), role, now, accept)
  {
  }

  lemma CloseLimitFails(s: State, now: int, accept: bool)
    requires Ready(s) && s.side.Some?
    ensures RespondsToFailure(s, RequestFailed(s, CloseLimit, now, accept), CloseLimit, now, accept)
  {
    if s.waits.closeLimit || s.waits.cancelCloseLimit {
      var s1 := s.(waits := s.waits.(closeLimit := false, cancelCloseLimit := false));
      SendsMarket(s1, now, accept);
      if NothingLeft(s) {
        FinishesFrom(s1, s1);
      }
    }
  }

  lemma CloseMarketFails(s: State, now: int, accept: bool)
    requires Ready(s) && s.side.Some?
    ensures RespondsToFailure(s, RequestFailed(s, CloseMarket, now, accept), CloseMarket, now, accept)
  {
  }

  // A failed request of an order that is waited for: an opening order gives the
  // trade up, a closing limit (or its cancel) is followed by the market, and a
  // failed market close is left to the retry.  Anything else is ignored.
  lemma FailureResponse(inputs: seq<Input>, result: RequestResult, id: nat, role: Role, now: int, accept: bool)
    requires IsAbout(result.request, id) && IsKnown(Run(inputs), id, role) && !role.UnknownRole?
    ensures var s, t := Run(inputs), Step(Run(inputs), Input(RequestResultCall(result), now, accept));
            if result.success || s.side.None? then t == s else RespondsToFailure(s, t, role, now, accept)
  {
    var s := Run(inputs);
    RunIsReady(inputs);
    ResultReaches(s, result, id, role, now, accept);
    if s.side.Some? {
      RoleFails(s, role, now, accept);
    }
  }

  lemma ResultReaches(s: State, result: RequestResult, id: nat, role: Role, now: int, accept: bool)
    requires IsAbout(result.request, id) && IsKnown(s, id, role) && !role.UnknownRole?
    ensures OnRequestResult(s, result, now, accept) ==
            if result.success || s.side.None? then s else RequestFailed(s, role, now, accept)
  {
    Registered(s.trade.currentNumber, role);
  }

  lemma RoleFails(s: State, role: Role, now: int, accept: bool)
    requires Ready(s) && s.side.Some? && !role.UnknownRole?
    ensures RespondsToFailure(s, RequestFailed(s, role, now, accept), role, now, accept)
  {
    match role {
      case OpenLimit => OpeningFails(s, role, now, accept);
      case OpenMarket => OpeningFails(s, role, now, accept);
      case CloseLimit => CloseLimitFails(s, now, accept);
      case CloseMarket => CloseMarketFails(s, now, accept);
    }
  }

  // ------------------------------------------------------------ order events

  // The order is over, with or without having been filled.
  predicate Failed(status: OrderStatus) {
    status == Cancelled || status == Rejected || status == Expired || status == Deactivated
  }

  predicate Over(status: OrderStatus) { status == Filled || Failed(status) }

  predicate KnownSide(s: State) { s.side == Some(Buy) || s.side == Some(Sell) }

  // Of two numbers the first that is positive.
  function Positive(x: real, y: real): real { if x > 0.0 then x else y }

  // The trade is open, at the price and for the quantity that the event reports.
  predicate Opens(s: State, t: State, ev: OrderEvent, byMarket: bool, now: int) {
    && SendsNothing(s, t) && t.side == s.side && t.waits == Entered && t.times.start == now
    && t.openByMarket == byMarket && t.entered == s.entered + [s.trade.currentNumber]
    && t.money.openPrice == Positive(ev.avgPrice, Positive(ev.price, s.currentPrice))
    && t.money.entryFee == ev.cumExecFee && (ev.cumExecQty > QTY_EPSILON ==> t.money.openQty == ev.cumExecQty)
  }

  // Only the status of the order is noted.
  predicate OnlyNotes(s: State, t: State, ev: OrderEvent) {
    t == s.(trade := s.trade.(status := s.trade.status[FromChars(ev.orderLinkId) := ev.status]))
  }

  // A market order for the default quantity on the trade's side.
  predicate SendsFallback(s: State, t: State, now: int, accept: bool) {
    && SendsOne(s, t, accept)
    && (var o := NewOrder(s, t);
        && o.kind.NewRequest? && o.market && !o.reduceOnly && Some(o.side) == s.side && o.qty == DEFAULT_QTY)
    && Registers(s, t, OpenMarket)
    && (if accept then t.side == s.side && t.waits == NoWaits.(openMarket := true)
        else t.side.None? && t.waits == NoWaits)
  }

  function Event(s: State, ev: OrderEvent, now: int, accept: bool): State {
    Step(s, Input(SetOrderCall(ev), now, accept))
  }

  // While there is a trade, its orders stay registered, so their events and
  // failures are heard.
  lemma OrdersStayRegistered(inputs: seq<Input>, i: Input)
    requires Run(inputs).side.Some?
    ensures Run(inputs).trade.status.Keys <= Step(Run(inputs), i).trade.status.Keys
  {
    var s := Run(inputs);
    RunIsReady(inputs);
    if EndsOpenOrder(i) {
      EndsKeepRegistered(s, i);
    } else if !i.call.MakeTradeCall? {
      CalmStep(s, i);
    }
  }

  lemma EndsKeepRegistered(s: State, i: Input)
    requires Inv(s) && s.side.Some? && EndsOpenOrder(i)
    ensures s.trade.status.Keys <= Step(s, i).trade.status.Keys
  {
  }

  // An event that is not an end, or comes after the trade, only notes the
  // status of a registered order.
  lemma ProgressResponse(inputs: seq<Input>, ev: OrderEvent, now: int, accept: bool)
    requires !Over(ev.status) || Run(inputs).side.None?
    ensures var s, t := Run(inputs), Event(Run(inputs), ev, now, accept);
            if FromChars(ev.orderLinkId) in s.trade.status then OnlyNotes(s, t, ev) else t == s
  {
    RunIsReady(inputs);
  }

  // The end of the opening limit: filled at all, it opens the trade; otherwise
  // the fallback is sent.  An open trade is not opened again.
  lemma OpenLimitResponse(inputs: seq<Input>, ev: OrderEvent, now: int, accept: bool)
    requires Over(ev.status) && IsKnown(Run(inputs), FromChars(ev.orderLinkId), OpenLimit)
    requires KnownSide(Run(inputs))
    ensures var s, t := Run(inputs), Event(Run(inputs), ev, now, accept);
            if s.waits.isOpen then OnlyNotes(s, t, ev)
            else if ev.status == Filled || ev.cumExecQty > QTY_EPSILON then Opens(s, t, ev, false, now)
            else if s.waits.openMarket then SendsNothing(s, t) && t.side == s.side && t.waits == s.waits
            else SendsFallback(s, t, now, accept)
  {
    var s := Run(inputs);
    RunIsReady(inputs);
    Registered(s.trade.currentNumber, OpenLimit);
    LimitEnds(RecordStatus(s, FromChars(ev.orderLinkId), ev.status), ev, now, accept);
  }

  lemma LimitEnds(s: State, ev: OrderEvent, now: int, accept: bool)
    requires Ready(s) && Over(ev.status) && KnownSide(s)
    ensures var t := HandleOpenLimit(s, ev, now, accept);
            if s.waits.isOpen then t == s
            else if ev.status == Filled || ev.cumExecQty > QTY_EPSILON then Opens(s, t, ev, false, now)
            else if s.waits.openMarket then SendsNothing(s, t) && t.side == s.side && t.waits == s.waits
            else SendsFallback(s, t, now, accept)
  {
  }

  // The end of the fallback: filled at all, it opens the trade (an open one is
  // opened again only by an end that is not a fill); otherwise there is none.
  lemma OpenMarketResponse(inputs: seq<Input>, ev: OrderEvent, now: int, accept: bool)
    requires Over(ev.status) && IsKnown(Run(inputs), FromChars(ev.orderLinkId), OpenMarket)
    requires KnownSide(Run(inputs))
    ensures var s, t := Run(inputs), Event(Run(inputs), ev, now, accept);
            if s.waits.isOpen && ev.status == Filled then OnlyNotes(s, t, ev)
            else if ev.status == Filled || ev.cumExecQty > QTY_EPSILON then Opens(s, t, ev, true, now)
            else NoTrade(s, t)
  {
    var s := Run(inputs);
    RunIsReady(inputs);
    Registered(s.trade.currentNumber, OpenMarket);
    FallbackEnds(RecordStatus(s, FromChars(ev.orderLinkId), ev.status), ev, now);
  }

  lemma FallbackEnds(s: State, ev: OrderEvent, now: int)
    requires Ready(s) && Over(ev.status) && KnownSide(s)
    ensures var t := HandleOpenMarket(s, ev, now);
            if s.waits.isOpen && ev.status == Filled then t == s
            else if ev.status == Filled || ev.cumExecQty > QTY_EPSILON then Opens(s, t, ev, true, now)
            else NoTrade(s, t)
  {
  }

  // What is booked after a partial fill.
  function AfterFill(m: Money, ev: OrderEvent): Money {
    m.(closePartial := m.closePartial + ev.cumExecQty,
       closeNotional := m.closeNotional + ev.avgPrice * ev.cumExecQty, exitFee := m.exitFee + ev.cumExecFee)
  }

  // The end of the closing limit: filled, it ends the trade; otherwise its
  // partial fill is booked, and what remains is closed by the market.
  lemma CloseLimitResponse(inputs: seq<Input>, ev: OrderEvent, now: int, accept: bool)
    requires Over(ev.status) && IsKnown(Run(inputs), FromChars(ev.orderLinkId), CloseLimit)
    requires Run(inputs).waits.isOpen
    ensures var s, t := Run(inputs), Event(Run(inputs), ev, now, accept);
            var m := AfterFill(s.money, ev);
            if ev.status == Filled || m.openQty - m.closePartial <= QTY_EPSILON then Finishes(s, t, s.closeReason)
            else
              && SendsMarketClose(s, t, m, now, accept) && t.closeReason == s.closeReason
              && t.money == (if accept then m.(pendingCloseQty := m.openQty - m.closePartial) else m)
  {
    var s := Run(inputs);
    RunIsReady(inputs);
    Registered(s.trade.currentNumber, CloseLimit);
    CloseLimitEnds(RecordStatus(s, FromChars(ev.orderLinkId), ev.status), ev, now, accept);
  }

  lemma CloseLimitEnds(s: State, ev: OrderEvent, now: int, accept: bool)
    requires Ready(s) && Over(ev.status) && s.waits.isOpen
    ensures var t, m := HandleCloseLimit(s, ev, now, accept), AfterFill(s.money, ev);
            if ev.status == Filled || m.openQty - m.closePartial <= QTY_EPSILON then Finishes(s, t, s.closeReason)
            else
              && SendsMarketClose(s, t, m, now, accept) && t.closeReason == s.closeReason
              && t.money == (if accept then m.(pendingCloseQty := m.openQty - m.closePartial) else m)
  {
  }

  // The end of the closing market order: filled, or with nothing left, it ends
  // the trade; otherwise what it filled is booked and the retry is waited for.
  lemma CloseMarketResponse(inputs: seq<Input>, ev: OrderEvent, now: int, accept: bool)
    requires Over(ev.status) && IsKnown(Run(inputs), FromChars(ev.orderLinkId), CloseMarket)
    requires Run(inputs).waits.isOpen
    ensures var s, t := Run(inputs), Event(Run(inputs), ev, now, accept);
            var m := if ev.cumExecQty > QTY_EPSILON then AfterFill(s.money, ev) else s.money;
            if ev.status == Filled || m.openQty - m.closePartial <= QTY_EPSILON then Finishes(s, t, s.closeReason)
            else
              && SendsNothing(s, t) && t.side == s.side && t.money == m
              && t.waits == s.waits.(closeMarket := false) && t.closed == s.closed
  {
    var s := Run(inputs);
    RunIsReady(inputs);
    Registered(s.trade.currentNumber, CloseMarket);
    CloseMarketEnds(RecordStatus(s, FromChars(ev.orderLinkId), ev.status), ev);
  }

  lemma CloseMarketEnds(s: State, ev: OrderEvent)
    requires Ready(s) && Over(ev.status) && s.waits.isOpen
    ensures var t := HandleCloseMarket(s, ev);
            var m := if ev.cumExecQty > QTY_EPSILON then AfterFill(s.money, ev) else s.money;
            if ev.status == Filled || m.openQty - m.closePartial <= QTY_EPSILON then Finishes(s, t, s.closeReason)
            else
              && SendsNothing(s, t) && t.side == s.side && t.money == m
              && t.waits == s.waits.(closeMarket := false) && t.closed == s.closed
  {
  }
}
