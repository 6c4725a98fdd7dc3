// The trade manager against an exchange that ends each opening order at most
// once: one entry per trade, and never more opened than the default quantity.

module TradeExchange {
  import opened OrderIds
  import opened TradeMachine
  import opened TradeInvariants
  import opened TradeOrders

  predicate IsOpenRole(role: Role) { role.OpenLimit? || role.OpenMarket? }

  // The call reports the end of an opening order.
  predicate EndsOpenOrder(i: Input) {
    && i.call.SetOrderCall? && IsTerminal(i.call.ev.status)
    && IsOpenRole(RoleOf(FromChars(i.call.ev.orderLinkId)))
  }

  function EventId(i: Input): nat
    requires i.call.SetOrderCall?
  {
    FromChars(i.call.ev.orderLinkId)
  }

  // What the exchange finally executed of each opening order it has ended.
  function Finals(inputs: seq<Input>): map<nat, real> {
    if inputs == [] then map[]
    else
      var before, i := Finals(inputs[..|inputs| - 1]), inputs[|inputs| - 1];
      if EndsOpenOrder(i) then before[EventId(i) := i.call.ev.cumExecQty] else before
  }

  predicate WasSent(sent: seq<Sent>, id: nat) {
    exists k :: 0 <= k < |sent| && sent[k].order.kind.NewRequest? && sent[k].order.reqId == id
  }

  // The exchange ends only opening orders it was sent, each at most once, and
  // executes no more of one than its quantity.
  predicate ExchangeOk(inputs: seq<Input>) {
    inputs == [] ||
    (var prefix, i := inputs[..|inputs| - 1], inputs[|inputs| - 1];
     ExchangeOk(prefix) && (EndsOpenOrder(i) ==> EndIsNew(Run(prefix), Finals(prefix), i)))
  }

  predicate EndIsNew(s: State, finals: map<nat, real>, i: Input)
    requires i.call.SetOrderCall?
  {
    && EventId(i) !in finals
    && WasSent(s.trade.sent, EventId(i))
    && 0.0 <= i.call.ev.cumExecQty <= DEFAULT_QTY
  }

  predicate NoRepeats(s: seq<nat>) {
    forall i, j :: 0 <= i < j < |s| ==> s[i] != s[j]
  }

  // A market fallback was sent only for a limit that ended without a fill.
  predicate FallbacksOk(sent: seq<Sent>, finals: map<nat, real>) {
    forall k :: 0 <= k < |sent| && sent[k].order.kind.NewRequest? && RoleOf(sent[k].order.reqId).OpenMarket? ==>
      LimitMissed(sent[k].order.reqId, finals)
  }

  // The limit order of the trade whose market order is id has ended unfilled.
  predicate LimitMissed(id: nat, finals: map<nat, real>) {
    id > 0 && id - 1 in finals && finals[id - 1] <= QTY_EPSILON
  }

  predicate FinalsOk(finals: map<nat, real>) {
    forall id :: id in finals ==>
      && 0.0 <= finals[id] <= DEFAULT_QTY
      && (RoleOf(id).OpenMarket? ==> LimitMissed(id, finals))
  }

  predicate MarketStatusOk(s: State, finals: map<nat, real>) {
    forall id :: id in s.trade.status && RoleOf(id).OpenMarket? ==> s.waits.isOpen ==> id in finals
  }

  predicate IsOpening(o: Sent) { o.order.kind.NewRequest? && IsOpenRole(RoleOf(o.order.reqId)) }

  // Opening orders carry numbers of trades made so far; those of the current
  // trade are registered.
  predicate OpeningsKnown(s: State) {
    forall k :: 0 <= k < |s.trade.sent| && IsOpening(s.trade.sent[k]) ==>
      var id := s.trade.sent[k].order.reqId;
      && id / MULTIPLIER < s.trade.tradeNumber
      && (s.side.Some? && id / MULTIPLIER == s.trade.currentNumber ==> id in s.trade.status)
  }

  predicate EntryInv(s: State, finals: map<nat, real>) {
    && NoRepeats(s.entered)
    && (forall n :: n in s.entered ==> n < s.trade.tradeNumber)
    && (s.side.Some? && !s.waits.isOpen ==> s.trade.currentNumber !in s.entered)
    && (s.side.Some? && s.waits.openMarket ==> MakeReqId(s.trade.currentNumber, OpenLimit) in finals)
    && MarketStatusOk(s, finals)
    && OpeningsKnown(s)
    && FallbacksOk(s.trade.sent, finals)
    && FinalsOk(finals)
  }

  // ------------------------------------------------ calls that open nothing

  predicate NoOpeningSent(before: seq<Sent>, after: seq<Sent>) {
    after == before ||
    (|after| == |before| + 1 && after[..|before|] == before && !IsOpening(after[|before|]))
  }

  predicate Calm(s: State, t: State) {
    && t.entered == s.entered
    && t.trade.currentNumber == s.trade.currentNumber && t.trade.tradeNumber == s.trade.tradeNumber
    && (t.side.Some? ==>
          s.side.Some? && t.waits.isOpen == s.waits.isOpen && (t.waits.openMarket ==> s.waits.openMarket))
    && (t.side.None? ==> !t.waits.isOpen)
    && (forall id :: id in t.trade.status && RoleOf(id).OpenMarket? ==> id in s.trade.status)
    && s.trade.status.Keys <= t.trade.status.Keys
    && NoOpeningSent(s.trade.sent, t.trade.sent)
  }

  lemma CalmSendCloseMarket(s: State, qty: real, now: int, accept: bool)
    requires Inv(s)
    ensures Calm(s, SendCloseMarket(s, qty, now, accept))
  {
    Registered(s.trade.currentNumber, CloseMarket);
  }

  lemma CalmCloseTrade(s: State, reason: CloseReason, now: int, accept: bool)
    requires Inv(s)
    ensures Calm(s, CloseTrade(s, reason, now, accept))
  {
    Registered(s.trade.currentNumber, CloseLimit);
  }

  lemma CalmCloseLimit(s: State, ev: OrderEvent, now: int, accept: bool)
    requires Inv(s)
    ensures Calm(s, HandleCloseLimit(s, ev, now, accept))
  {
    Registered(s.trade.currentNumber, CloseMarket);
  }

  lemma CalmCloseMarket(s: State, ev: OrderEvent)
    requires Inv(s) && s.side.Some? && s.waits.isOpen
    ensures Calm(s, HandleCloseMarket(s, ev))
  {
  }

  lemma CalmRequestResult(s: State, result: RequestResult, now: int, accept: bool)
    requires Inv(s)
    ensures Calm(s, OnRequestResult(s, result, now, accept))
  {
    Registered(s.trade.currentNumber, CloseMarket);
  }

  lemma CalmRetry(s: State, now: int, accept: bool)
    requires Inv(s)
    ensures Calm(s, RetryClose(s, now, accept))
  {
    CalmSendCloseMarket(s, Remaining(s.money), now, accept);
    CalmCloseTrade(s, s.closeReason, now, accept);
  }

  lemma CalmCheckSLTP(s: State, now: int, accept: bool)
    requires Inv(s)
    ensures Calm(s, CheckSLTP(s, now, accept))
  {
    CalmSendCloseMarket(s.(closeReason := StopLoss), Remaining(s.money), now, accept);
    CalmSendCloseMarket(s, Remaining(s.money), now, accept);
    CalmCloseTrade(s, TakeProfit, now, accept);
  }

  lemma CalmCancels(s: State, now: int, accept: bool)
    requires Inv(s)
    ensures Calm(s, CancelOpenLimit(s, now, accept)) && Calm(s, CancelCloseLimit(s, now, accept))
    ensures Calm(s, RepeatCancelOpen(s, now, accept)) && Calm(s, RepeatCancelClose(s, now, accept))
  {
  }

  lemma CalmCurrentPrice(s: State, price: real, now: int, accept: bool)
    requires Inv(s)
    ensures Calm(s, CheckCurrentPrice(s, price, now, accept))
  {
    var s1 := s.(currentPrice := price);
    CalmCancels(s1, now, accept);
    CalmCloseTrade(s1, Timeout, now, accept);
    CalmRetry(s1, now, accept);
    CalmCheckSLTP(s1, now, accept);
  }

  lemma CalmInverse(s: State, side: Side, now: int, accept: bool)
    requires Inv(s)
    ensures Calm(s, CheckInverseSignal(s, side, now, accept))
  {
    CalmCancels(s, now, accept);
    CalmCloseTrade(s, InverseSignal, now, accept);
  }

  lemma CalmEvent(s: State, i: Input)
    requires Inv(s) && i.call.SetOrderCall? && !EndsOpenOrder(i)
    ensures Calm(s, Step(s, i))
  {
    var ev, id := i.call.ev, EventId(i);
    if id in s.trade.status && s.side.Some? {
      var s1 := RecordStatus(s, id, ev.status);
      match RoleOf(id) {
        case CloseLimit => CalmCloseLimit(s1, ev, i.now, i.accept);
        case CloseMarket => CalmCloseMarket(s1, ev);
        case _ =>
      }
    }
  }

  lemma CalmStep(s: State, i: Input)
    requires Inv(s) && !EndsOpenOrder(i) && !i.call.MakeTradeCall?
    ensures Calm(s, Step(s, i))
  {
    match i.call {
      case SetOrderCall(_) => CalmEvent(s, i);
      case RequestResultCall(result) => CalmRequestResult(s, result, i.now, i.accept);
      case MakeTradeCall(_, _) =>
      case CloseTradeCall(reason) => CalmCloseTrade(s, reason, i.now, i.accept);
      case InverseSignalCall(side) => CalmInverse(s, side, i.now, i.accept);
      case PriceCall(price) => CalmCurrentPrice(s, price, i.now, i.accept);
    }
  }

  lemma EntryByCalm(s: State, t: State, finals: map<nat, real>)
    requires EntryInv(s, finals) && Calm(s, t) && Inv(s)
    ensures EntryInv(t, finals)
  {
  }

  lemma EntryByMakeTrade(s: State, price: real, side: Side, now: int, accept: bool, finals: map<nat, real>)
    requires EntryInv(s, finals) && Inv(s)
    ensures EntryInv(MakeTrade(s, price, side, now, accept), finals)
  {
    Registered(s.trade.tradeNumber, OpenLimit);
  }

  // -------------------------------------------------- ends of opening orders

  lemma FinalsGrow(s: State, finals: map<nat, real>, i: Input)
    requires EntryInv(s, finals) && EndsOpenOrder(i) && EndIsNew(s, finals, i)
    ensures EntryInv(s, finals[EventId(i) := i.call.ev.cumExecQty])
  {
    var id := EventId(i);
    var more := finals[id := i.call.ev.cumExecQty];
    assert forall m :: LimitMissed(m, finals) ==> LimitMissed(m, more);
    if RoleOf(id).OpenMarket? {
      assert LimitMissed(id, finals);
    }
  }

  // The order that just ended, when it is a registered limit, was not ended
  // before, so no fallback can be under way.
  lemma EntryByLimitEnd(s: State, finals: map<nat, real>, i: Input)
    requires EntryInv(s, finals) && Inv(s) && s.side.Some?
    requires EndsOpenOrder(i) && EndIsNew(s, finals, i) && EventId(i) in s.trade.status
    requires RoleOf(EventId(i)).OpenLimit?
    ensures EntryInv(HandleOpenLimit(s, i.call.ev, i.now, i.accept), finals[EventId(i) := i.call.ev.cumExecQty])
  {
    var ev, id := i.call.ev, EventId(i);
    var more := finals[id := ev.cumExecQty];
    FinalsGrow(s, finals, i);
    assert id == MakeReqId(s.trade.currentNumber, OpenLimit);
    if !s.waits.isOpen {
      assert !s.waits.openMarket;
      var s1 := s.(waits := s.waits.(openLimit := false, cancelOpenLimit := false));
      if ev.status.Filled? || ev.cumExecQty > QTY_EPSILON {
        EntryByEntering(s1, more, ev, false, i.now);
      } else {
        EntryByFallback(s1, more, i.now, i.accept);
      }
    }
  }

  lemma EntryByEntering(s: State, finals: map<nat, real>, ev: OrderEvent, byMarket: bool, now: int)
    requires EntryInv(s, finals) && s.side.Some? && !s.waits.isOpen
    requires s.trade.currentNumber < s.trade.tradeNumber
    requires forall id :: id in s.trade.status && RoleOf(id).OpenMarket? ==> id in finals
    ensures EntryInv(EnterTrade(s, ev, byMarket, now), finals)
  {
  }

  lemma EntryByFallback(s: State, finals: map<nat, real>, now: int, accept: bool)
    requires EntryInv(s, finals) && s.side.Some? && !s.waits.isOpen
    requires s.trade.currentNumber < s.trade.tradeNumber
    requires MakeReqId(s.trade.currentNumber, OpenLimit) in finals
    requires finals[MakeReqId(s.trade.currentNumber, OpenLimit)] <= QTY_EPSILON
    ensures EntryInv(SendOpenMarketFallback(s, now, accept), finals)
  {
    Registered(s.trade.currentNumber, OpenMarket);
    assert LimitMissed(MakeReqId(s.trade.currentNumber, OpenMarket), finals);
  }

  lemma EntryByMarketEnd(s: State, finals: map<nat, real>, i: Input)
    requires EntryInv(s, finals) && Inv(s) && s.side.Some?
    requires EndsOpenOrder(i) && EndIsNew(s, finals, i) && EventId(i) in s.trade.status
    requires RoleOf(EventId(i)).OpenMarket?
    ensures EntryInv(HandleOpenMarket(s, i.call.ev, i.now), finals[EventId(i) := i.call.ev.cumExecQty])
  {
    var ev, id := i.call.ev, EventId(i);
    var more := finals[id := ev.cumExecQty];
    FinalsGrow(s, finals, i);
    assert !s.waits.isOpen;
    forall other | other in s.trade.status && RoleOf(other).OpenMarket?
      ensures other in more
    {
      assert other == MakeReqId(s.trade.currentNumber, OpenMarket) == id;
    }
    EntryByEntering(s.(waits := s.waits.(openMarket := false)), more, ev, true, i.now);
  }

  lemma EntryByEnd(s: State, finals: map<nat, real>, i: Input)
    requires EntryInv(s, finals) && Inv(s) && EndsOpenOrder(i) && EndIsNew(s, finals, i)
    ensures EntryInv(Step(s, i), finals[EventId(i) := i.call.ev.cumExecQty])
    ensures !ReEnters(s, i)
  {
    var id := EventId(i);
    var s1 := RecordStatus(s, id, i.call.ev.status);
    FinalsGrow(s, finals, i);
    if id in s.trade.status && s.side.Some? {
      if RoleOf(id).OpenLimit? {
        EntryByLimitEnd(s1, finals, i);
      } else {
        EntryByMarketEnd(s1, finals, i);
      }
    }
  }

  lemma {:induction false} EntryRun(inputs: seq<Input>)
    requires ExchangeOk(inputs)
    ensures EntryInv(Run(inputs), Finals(inputs))
  {
    if inputs != [] {
      var prefix, i := inputs[..|inputs| - 1], inputs[|inputs| - 1];
      var s := Run(prefix);
      EntryRun(prefix);
      PhaseInvariant(prefix);
      if EndsOpenOrder(i) {
        EntryByEnd(s, Finals(prefix), i);
      } else if i.call.MakeTradeCall? {
        EntryByMakeTrade(s, i.call.price, i.call.side, i.now, i.accept, Finals(prefix));
      } else {
        CalmStep(s, i);
        EntryByCalm(s, Step(s, i), Finals(prefix));
      }
    }
  }

  // enterTrade runs at most once per trade.
  lemma {:induction false} OneEntryPerTrade(inputs: seq<Input>)
    requires ExchangeOk(inputs)
    ensures NoRepeats(Run(inputs).entered)
  {
    EntryRun(inputs);
  }

  // The market fallback of a trade is sent only after its opening limit has
  // ended with no fill.
  lemma {:induction false} FallbackOnlyAfterMiss(inputs: seq<Input>, k: nat)
    requires ExchangeOk(inputs) && k < |Run(inputs).trade.sent|
    requires var o := Run(inputs).trade.sent[k].order; o.kind.NewRequest? && RoleOf(o.reqId).OpenMarket?
    ensures LimitMissed(Run(inputs).trade.sent[k].order.reqId, Finals(inputs))
  {
    EntryRun(inputs);
  }

  function Executed(finals: map<nat, real>, id: nat): real {
    if id in finals then finals[id] else 0.0
  }

  // What the exchange executes for the two opening orders of any one trade
  // never exceeds the default quantity by more than the epsilon.
  lemma NoDoubleEntry(inputs: seq<Input>, tradeNumber: nat)
    requires ExchangeOk(inputs)
    ensures Executed(Finals(inputs), MakeReqId(tradeNumber, OpenLimit)) +
            Executed(Finals(inputs), MakeReqId(tradeNumber, OpenMarket)) <= DEFAULT_QTY + QTY_EPSILON
  {
    EntryRun(inputs);
    Registered(tradeNumber, OpenMarket);
  }

  // ------------------------------------------------------------ close sizing

  // With such an exchange the remainder of an open trade is always positive,
  // and trades are finished by order events only.
  lemma {:induction false} RemainderStaysPositive(inputs: seq<Input>)
    requires ExchangeOk(inputs)
    ensures SizeOk(Run(inputs))
  {
    if inputs != [] {
      var prefix, i := inputs[..|inputs| - 1], inputs[|inputs| - 1];
      RemainderStaysPositive(prefix);
      PhaseInvariant(prefix);
      EntryRun(prefix);
      if EndsOpenOrder(i) {
        EntryByEnd(Run(prefix), Finals(prefix), i);
      }
      SizeIff(Run(prefix), i);
    }
  }
}
