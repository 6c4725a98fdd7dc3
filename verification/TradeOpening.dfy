// What the manager books when it opens a trade, against what the exchange
// executed of the two opening orders.

module TradeOpening {
  import opened OrderIds
  import opened TradeMachine
  import opened TradeInvariants
  import opened TradeOrders
  import opened TradeExchange

  datatype Fill = Fill(qty: real, price: real, fee: real)

  // The call reports an execution of one of the opening orders of a trade.
  predicate Executes(i: Input, tradeNumber: nat) {
    EndsOpenOrder(i) && EventId(i) / MULTIPLIER == tradeNumber && i.call.ev.cumExecQty > QTY_EPSILON
  }

  function OpeningFill(i: Input): Fill
    requires i.call.SetOrderCall?
  {
    Fill(i.call.ev.cumExecQty, i.call.ev.avgPrice, i.call.ev.cumExecFee)
  }

  // The executions of a trade's opening orders, read off the calls.
  function OpeningFills(inputs: seq<Input>, tradeNumber: nat): seq<Fill> {
    if inputs == [] then []
    else
      var before, i := OpeningFills(inputs[..|inputs| - 1], tradeNumber), inputs[|inputs| - 1];
      if Executes(i, tradeNumber) then before + [OpeningFill(i)] else before
  }

  // A filled order reports its quantity, an executed one its price.
  predicate OpenSound(ev: OrderEvent) {
    && (ev.status.Filled? ==> ev.cumExecQty > QTY_EPSILON)
    && (ev.cumExecQty > QTY_EPSILON ==> ev.avgPrice > 0.0)
  }

  predicate OpensSound(inputs: seq<Input>) {
    forall k :: 0 <= k < |inputs| && EndsOpenOrder(inputs[k]) ==> OpenSound(inputs[k].call.ev)
  }

  predicate EndedWith(finals: map<nat, real>, id: nat, qty: real) { id in finals && finals[id] == qty }

  // The open trade was opened by exactly one execution, and is booked as such.
  predicate OpeningOk(s: State, finals: map<nat, real>, fills: seq<Fill>) {
    && (s.side.Some? && !s.waits.isOpen ==> fills == [])
    && (s.waits.isOpen ==>
          && fills == [Fill(s.money.openQty, s.money.openPrice, s.money.entryFee)]
          && (EndedWith(finals, MakeReqId(s.trade.currentNumber, OpenLimit), s.money.openQty) ||
              EndedWith(finals, MakeReqId(s.trade.currentNumber, OpenMarket), s.money.openQty)))
  }

  // ------------------------------------------------ calls that open nothing

  predicate KeepsEntry(s: State, t: State) {
    t.waits.isOpen ==>
      t.money.openQty == s.money.openQty && t.money.openPrice == s.money.openPrice &&
      t.money.entryFee == s.money.entryFee
  }

  lemma CloseEventsKeepEntry(s: State, ev: OrderEvent, now: int, accept: bool)
    ensures KeepsEntry(s, HandleCloseLimit(s, ev, now, accept))
    ensures KeepsEntry(s, HandleCloseMarket(s, ev))
  {
  }

  lemma EventKeepsEntry(s: State, i: Input)
    requires Inv(s) && i.call.SetOrderCall? && !EndsOpenOrder(i)
    ensures KeepsEntry(s, Step(s, i))
  {
    var ev, id := i.call.ev, EventId(i);
    if id in s.trade.status && s.side.Some? {
      CloseEventsKeepEntry(RecordStatus(s, id, ev.status), ev, i.now, i.accept);
    }
  }

  lemma OpeningByCalm(s: State, t: State, finals: map<nat, real>, fills: seq<Fill>)
    requires OpeningOk(s, finals, fills) && Calm(s, t) && KeepsEntry(s, t)
    ensures OpeningOk(t, finals, fills)
  {
  }

  lemma CalmKeepsOpening(s: State, i: Input, finals: map<nat, real>, fills: seq<Fill>)
    requires Inv(s) && SizeOk(s) && OpeningOk(s, finals, fills)
    requires !EndsOpenOrder(i) && !i.call.MakeTradeCall?
    ensures OpeningOk(Step(s, i), finals, fills)
  {
    CalmStep(s, i);
    if i.call.SetOrderCall? {
      EventKeepsEntry(s, i);
    } else {
      OnlyEventsTouchTheBooks(s, i);
    }
    OpeningByCalm(s, Step(s, i), finals, fills);
  }

  // ------------------------------------------------------------- new trades

  lemma EndIsOfKnownTrade(s: State, finals: map<nat, real>, i: Input)
    requires EntryInv(s, finals) && EndsOpenOrder(i) && EndIsNew(s, finals, i)
    ensures EventId(i) / MULTIPLIER < s.trade.tradeNumber
    ensures s.side.Some? && EventId(i) / MULTIPLIER == s.trade.currentNumber ==> EventId(i) in s.trade.status
  {
    var k :| 0 <= k < |s.trade.sent| && s.trade.sent[k].order.kind.NewRequest? &&
             s.trade.sent[k].order.reqId == EventId(i);
    assert IsOpening(s.trade.sent[k]);
  }

  lemma NumbersOnlyGrow(s: State, i: Input)
    requires Inv(s)
    ensures Step(s, i).trade.tradeNumber >= s.trade.tradeNumber
  {
    if !EndsOpenOrder(i) && !i.call.MakeTradeCall? {
      CalmStep(s, i);
    }
  }

  // Nothing is executed for trades that were not made yet.
  lemma {:induction false} NothingForNewTrades(inputs: seq<Input>, tradeNumber: nat)
    requires ExchangeOk(inputs) && tradeNumber >= Run(inputs).trade.tradeNumber
    ensures OpeningFills(inputs, tradeNumber) == []
  {
    if inputs != [] {
      var prefix, i := inputs[..|inputs| - 1], inputs[|inputs| - 1];
      PhaseInvariant(prefix);
      NumbersOnlyGrow(Run(prefix), i);
      NothingForNewTrades(prefix, tradeNumber);
      EntryRun(prefix);
      if EndsOpenOrder(i) {
        EndIsOfKnownTrade(Run(prefix), Finals(prefix), i);
      }
    }
  }

  lemma OpeningByMakeTrade(s: State, i: Input, finals: map<nat, real>, fills: seq<Fill>)
    requires i.call.MakeTradeCall? && Inv(s) && OpeningOk(s, finals, fills)
    ensures OpeningOk(Step(s, i), finals, if s.side.Some? then fills else [])
  {
  }

  // -------------------------------------------------- ends of opening orders

  // While a trade is open both its opening orders have ended, or the second
  // was never sent, so no end of theirs can be new.
  lemma NoEndWhileOpen(s: State, finals: map<nat, real>, fills: seq<Fill>, i: Input)
    requires Inv(s) && EntryInv(s, finals) && OpeningOk(s, finals, fills) && s.waits.isOpen
    requires EndsOpenOrder(i) && EventId(i) / MULTIPLIER == s.trade.currentNumber
    ensures !EndIsNew(s, finals, i)
  {
    var limit, market := MakeReqId(s.trade.currentNumber, OpenLimit), MakeReqId(s.trade.currentNumber, OpenMarket);
    Registered(s.trade.currentNumber, OpenLimit);
    Registered(s.trade.currentNumber, OpenMarket);
    if EndedWith(finals, market, s.money.openQty) {
      assert LimitMissed(market, finals);
    } else if EventId(i) == market {
      assert !LimitMissed(market, finals);
      EndedMarketMissedLimit(s, finals, i);
    }
  }

  // The fallback of a trade is sent, and so ends, only after a missed limit.
  lemma EndedMarketMissedLimit(s: State, finals: map<nat, real>, i: Input)
    requires EntryInv(s, finals) && EndsOpenOrder(i) && RoleOf(EventId(i)).OpenMarket?
    ensures EndIsNew(s, finals, i) ==> LimitMissed(EventId(i), finals)
  {
  }

  lemma EntryBooksTheFill(s: State, ev: OrderEvent, byMarket: bool, now: int)
    requires ev.cumExecQty > QTY_EPSILON && ev.avgPrice > 0.0
    ensures var t := EnterTrade(s, ev, byMarket, now);
            t.side.Some? ==>
              t.waits.isOpen && t.trade.currentNumber == s.trade.currentNumber &&
              t.money.openQty == ev.cumExecQty && t.money.openPrice == ev.avgPrice &&
              t.money.entryFee == ev.cumExecFee
  {
  }

  // Entering books the executed quantity exactly when the end reports one.
  lemma BookedQtyIff(s: State, ev: OrderEvent, byMarket: bool, now: int)
    requires !EnterSide(s, ev).SideUnknown?
    ensures EnterTrade(s, ev, byMarket, now).money.openQty == ev.cumExecQty <==> ev.cumExecQty > QTY_EPSILON
  {
  }

  // The end of an opening order of a trade that waits for it.
  lemma OpeningByEnd(s: State, finals: map<nat, real>, i: Input)
    requires Inv(s) && EntryInv(s, finals) && s.side.Some? && !s.waits.isOpen
    requires EndsOpenOrder(i) && EndIsNew(s, finals, i) && OpenSound(i.call.ev)
    requires EventId(i) / MULTIPLIER == s.trade.currentNumber
    ensures var fills := if Executes(i, s.trade.currentNumber) then [OpeningFill(i)] else [];
            OpeningOk(Step(s, i), finals[EventId(i) := i.call.ev.cumExecQty], fills)
  {
    var ev, id := i.call.ev, EventId(i);
    EndIsOfKnownTrade(s, finals, i);
    var s1 := RecordStatus(s, id, ev.status);
    if RoleOf(id).OpenLimit? {
      LimitEndOpens(s1, ev, i.now, i.accept, finals[id := ev.cumExecQty]);
    } else {
      MarketEndOpens(s1, ev, i.now, finals[id := ev.cumExecQty]);
    }
  }

  lemma LimitEndOpens(s: State, ev: OrderEvent, now: int, accept: bool, finals: map<nat, real>)
    requires s.side.Some? && !s.waits.isOpen && IsTerminal(ev.status) && OpenSound(ev)
    requires EndedWith(finals, MakeReqId(s.trade.currentNumber, OpenLimit), ev.cumExecQty)
    ensures var fills := if ev.cumExecQty > QTY_EPSILON then [Fill(ev.cumExecQty, ev.avgPrice, ev.cumExecFee)] else [];
            OpeningOk(HandleOpenLimit(s, ev, now, accept), finals, fills)
  {
    if ev.cumExecQty > QTY_EPSILON {
      EntryBooksTheFill(s.(waits := s.waits.(openLimit := false, cancelOpenLimit := false)), ev, false, now);
    }
  }

  lemma MarketEndOpens(s: State, ev: OrderEvent, now: int, finals: map<nat, real>)
    requires s.side.Some? && !s.waits.isOpen && IsTerminal(ev.status) && OpenSound(ev)
    requires EndedWith(finals, MakeReqId(s.trade.currentNumber, OpenMarket), ev.cumExecQty)
    ensures var fills := if ev.cumExecQty > QTY_EPSILON then [Fill(ev.cumExecQty, ev.avgPrice, ev.cumExecFee)] else [];
            OpeningOk(HandleOpenMarket(s, ev, now), finals, fills)
  {
    if ev.cumExecQty > QTY_EPSILON {
      EntryBooksTheFill(s.(waits := s.waits.(openMarket := false)), ev, true, now);
    }
  }

  // The end of any other opening order, or of one whose trade is over.
  lemma OpeningByForeignEnd(s: State, i: Input, finals: map<nat, real>, fills: seq<Fill>)
    requires Inv(s) && OpeningOk(s, finals, fills) && EndsOpenOrder(i) && EventId(i) !in finals
    requires s.side.Some? ==> EventId(i) / MULTIPLIER != s.trade.currentNumber
    ensures Step(s, i).trade.currentNumber == s.trade.currentNumber
    ensures Step(s, i).side.Some? ==> OpeningOk(Step(s, i), finals[EventId(i) := i.call.ev.cumExecQty], fills)
    ensures Step(s, i).side == s.side && Step(s, i).waits == s.waits
  {
  }

  // The books of an open trade's entry, after any calls.
  lemma {:induction false} OpeningRun(inputs: seq<Input>)
    requires ExchangeOk(inputs) && OpensSound(inputs)
    ensures OpeningOk(Run(inputs), Finals(inputs), OpeningFills(inputs, Run(inputs).trade.currentNumber))
  {
    if inputs != [] {
      var prefix, i := inputs[..|inputs| - 1], inputs[|inputs| - 1];
      var s := Run(prefix);
      OpeningRun(prefix);
      PhaseInvariant(prefix);
      EntryRun(prefix);
      RemainderStaysPositive(prefix);
      if EndsOpenOrder(i) {
        OpeningAfterEnd(prefix, i);
      } else if i.call.MakeTradeCall? {
        OpeningByMakeTrade(s, i, Finals(prefix), OpeningFills(prefix, s.trade.currentNumber));
        NothingForNewTrades(prefix, s.trade.tradeNumber);
      } else {
        CalmStep(s, i);
        CalmKeepsOpening(s, i, Finals(prefix), OpeningFills(prefix, s.trade.currentNumber));
      }
    }
  }

  lemma OpeningAfterEnd(prefix: seq<Input>, i: Input)
    requires ExchangeOk(prefix) && EndsOpenOrder(i) && OpenSound(i.call.ev)
    requires EndIsNew(Run(prefix), Finals(prefix), i)
    requires OpeningOk(Run(prefix), Finals(prefix), OpeningFills(prefix, Run(prefix).trade.currentNumber))
    ensures var s, t := Run(prefix), Step(Run(prefix), i);
            var before := OpeningFills(prefix, s.trade.currentNumber);
            && t.trade.currentNumber == s.trade.currentNumber
            && OpeningOk(t, Finals(prefix)[EventId(i) := i.call.ev.cumExecQty],
                         if Executes(i, s.trade.currentNumber) then before + [OpeningFill(i)] else before)
  {
    var s, finals := Run(prefix), Finals(prefix);
    var before := OpeningFills(prefix, s.trade.currentNumber);
    PhaseInvariant(prefix);
    EntryRun(prefix);
    if s.side.Some? && EventId(i) / MULTIPLIER == s.trade.currentNumber {
      if s.waits.isOpen {
        NoEndWhileOpen(s, finals, before, i);
      } else {
        OpeningByEnd(s, finals, i);
      }
    } else {
      OpeningByForeignEnd(s, i, finals, before);
    }
  }

  // While a trade is open, the exchange has executed exactly one of its opening
  // orders, and the booked quantity, price and fee are those of that execution;
  // the quantity is at most the default one.
  lemma {:induction false} OpenedAsExecuted(inputs: seq<Input>)
    requires ExchangeOk(inputs) && OpensSound(inputs) && Run(inputs).waits.isOpen
    ensures var s := Run(inputs);
            && OpeningFills(inputs, s.trade.currentNumber) ==
               [Fill(s.money.openQty, s.money.openPrice, s.money.entryFee)]
            && (EndedWith(Finals(inputs), MakeReqId(s.trade.currentNumber, OpenLimit), s.money.openQty) ||
                EndedWith(Finals(inputs), MakeReqId(s.trade.currentNumber, OpenMarket), s.money.openQty))
            && QTY_EPSILON < s.money.openQty <= DEFAULT_QTY
  {
    OpeningRun(inputs);
    EntryRun(inputs);
    PhaseInvariant(inputs);
  }
}
