// The books of a closed trade: quantity, gross result and fees against the
// fills the exchange reported for its opening and close orders.

module TradeLedger {
  import opened OrderIds
  import opened TradeMachine
  import opened TradeInvariants
  import opened TradeOrders
  import opened TradeExchange
  import opened TradeOpening

  function SumQty(fills: seq<Fill>): real {
    if fills == [] then 0.0 else SumQty(fills[..|fills| - 1]) + fills[|fills| - 1].qty
  }

  function SumNotional(fills: seq<Fill>): real {
    if fills == [] then 0.0
    else SumNotional(fills[..|fills| - 1]) + fills[|fills| - 1].price * fills[|fills| - 1].qty
  }

  function SumFee(fills: seq<Fill>): real {
    if fills == [] then 0.0 else SumFee(fills[..|fills| - 1]) + fills[|fills| - 1].fee
  }

  lemma SumsSnoc(fills: seq<Fill>, f: Fill)
    ensures SumQty(fills + [f]) == SumQty(fills) + f.qty
    ensures SumNotional(fills + [f]) == SumNotional(fills) + f.price * f.qty
    ensures SumFee(fills + [f]) == SumFee(fills) + f.fee
  {
    assert (fills + [f])[..|fills|] == fills;
  }

  // The call reports the end of a close order.
  predicate EndsCloseOrder(i: Input) {
    && i.call.SetOrderCall? && IsTerminal(i.call.ev.status)
    && IsCloseRole(RoleOf(FromChars(i.call.ev.orderLinkId)))
  }

  // The end of a close order of the trade that is open now.
  predicate TakesFill(s: State, i: Input) {
    EndsCloseOrder(i) && s.side.Some? && s.waits.isOpen && EventId(i) in s.trade.status
  }

  // A filled close order whose report leaves out the quantity.
  predicate IsSilent(ev: OrderEvent) { ev.status.Filled? && ev.cumExecQty == 0.0 }

  // What the end of a close order executed: the reported quantity, or all that
  // was pending when a filled order reports none, at the reported price.
  function FillOf(m: Money, ev: OrderEvent): Fill {
    Fill(if IsSilent(ev) then m.pendingCloseQty else ev.cumExecQty, ev.avgPrice, ev.cumExecFee)
  }

  // The fills of the close orders of the latest trade, read off the calls.
  function Fills(inputs: seq<Input>): seq<Fill> {
    if inputs == [] then []
    else
      var prefix, i := inputs[..|inputs| - 1], inputs[|inputs| - 1];
      var s := Run(prefix);
      if i.call.MakeTradeCall? && s.side.None? then []
      else if TakesFill(s, i) then Fills(prefix) + [FillOf(s.money, i.call.ev)]
      else Fills(prefix)
  }

  // A reported end is either without any quantity, and free of charge unless
  // filled, or has one above the epsilon; what executed has a price.
  predicate FillSound(ev: OrderEvent) {
    && (ev.cumExecQty == 0.0 || ev.cumExecQty > QTY_EPSILON)
    && (ev.cumExecQty == 0.0 && !ev.status.Filled? ==> ev.cumExecFee == 0.0)
    && (ev.cumExecQty > QTY_EPSILON || ev.status.Filled? ==> ev.avgPrice > 0.0)
  }

  predicate FillsSound(inputs: seq<Input>) {
    forall k :: 0 <= k < |inputs| && EndsCloseOrder(inputs[k]) ==> FillSound(inputs[k].call.ev)
  }

  // ------------------------------------------------------------ open trades

  predicate SumsSound(qty: real, notional: real) {
    (qty == 0.0 && notional == 0.0) || (qty > QTY_EPSILON && notional > 0.0)
  }

  predicate BooksAgree(m: Money, fills: seq<Fill>) {
    && m.closePartial == SumQty(fills)
    && m.closeNotional == SumNotional(fills)
    && m.exitFee == SumFee(fills)
    && SumsSound(SumQty(fills), SumNotional(fills))
  }

  predicate BooksInv(s: State, fills: seq<Fill>) {
    && (s.waits.isOpen ==> BooksAgree(s.money, fills))
    && (s.side.Some? && !s.waits.isOpen ==> fills == [])
  }

  lemma SoundSum(qty: real, notional: real, f: Fill)
    requires SumsSound(qty, notional)
    requires (f.qty == 0.0) || (f.qty > QTY_EPSILON && f.price > 0.0)
    ensures SumsSound(qty + f.qty, notional + f.price * f.qty)
    ensures f.qty > 0.0 ==> notional + f.price * f.qty > 0.0
  {
    if f.qty > 0.0 {
      assert f.price * f.qty > 0.0;
    }
  }

  lemma PartialAgrees(m: Money, fills: seq<Fill>, ev: OrderEvent)
    requires BooksAgree(m, fills) && FillSound(ev) && !IsSilent(ev)
    ensures BooksAgree(BookPartial(m, ev), fills + [FillOf(m, ev)])
    ensures ev.cumExecQty == 0.0 ==> BooksAgree(m, fills + [FillOf(m, ev)])
  {
    SumsSnoc(fills, FillOf(m, ev));
    SoundSum(SumQty(fills), SumNotional(fills), FillOf(m, ev));
  }

  lemma BooksByCloseEnd(s: State, i: Input, fills: seq<Fill>)
    requires Inv(s) && BooksInv(s, fills) && TakesFill(s, i) && FillSound(i.call.ev)
    ensures BooksInv(Step(s, i), fills + [FillOf(s.money, i.call.ev)])
  {
    var ev := i.call.ev;
    var s1 := RecordStatus(s, EventId(i), ev.status);
    if !IsSilent(ev) {
      PartialAgrees(s.money, fills, ev);
    }
    if RoleOf(EventId(i)).CloseLimit? {
      BooksByLimitEnd(s1, ev, i.now, i.accept, fills);
    } else {
      BooksByMarketEnd(s1, ev, fills);
    }
  }

  lemma BooksByLimitEnd(s: State, ev: OrderEvent, now: int, accept: bool, fills: seq<Fill>)
    requires s.side.Some? && s.waits.isOpen && IsTerminal(ev.status)
    requires !ev.status.Filled? ==> BooksAgree(BookPartial(s.money, ev), fills + [FillOf(s.money, ev)])
    ensures BooksInv(HandleCloseLimit(s, ev, now, accept), fills + [FillOf(s.money, ev)])
  {
  }

  lemma BooksByMarketEnd(s: State, ev: OrderEvent, fills: seq<Fill>)
    requires s.side.Some? && s.waits.isOpen && IsTerminal(ev.status) && FillSound(ev)
    requires !ev.status.Filled? ==> BooksAgree(BookPartial(s.money, ev), fills + [FillOf(s.money, ev)])
    requires !ev.status.Filled? && ev.cumExecQty == 0.0 ==> BooksAgree(s.money, fills + [FillOf(s.money, ev)])
    ensures BooksInv(HandleCloseMarket(s, ev), fills + [FillOf(s.money, ev)])
  {
  }

  // Entering, or ending an opening order otherwise, leaves the close books alone.
  lemma BooksByOpenEnd(s: State, i: Input, fills: seq<Fill>)
    requires Inv(s) && BooksInv(s, fills) && EndsOpenOrder(i)
    ensures BooksInv(Step(s, i), fills)
  {
    var ev, id := i.call.ev, EventId(i);
    var s1 := RecordStatus(s, id, ev.status);
    if id in s.trade.status && s.side.Some? {
      if RoleOf(id).OpenLimit? {
        BooksByLimitEntry(s1, ev, i.now, i.accept, fills);
      } else {
        BooksByMarketEntry(s1, ev, i.now, fills);
      }
    }
  }

  lemma BooksByEntering(s: State, ev: OrderEvent, byMarket: bool, now: int, fills: seq<Fill>)
    requires BooksAgree(s.money, fills)
    ensures BooksInv(EnterTrade(s, ev, byMarket, now), fills)
  {
  }

  lemma BooksByLimitEntry(s: State, ev: OrderEvent, now: int, accept: bool, fills: seq<Fill>)
    requires Inv(s) && BooksInv(s, fills) && s.side.Some?
    ensures BooksInv(HandleOpenLimit(s, ev, now, accept), fills)
  {
    var s1 := s.(waits := s.waits.(openLimit := false, cancelOpenLimit := false));
    BooksByEntering(s1, ev, false, now, fills);
  }

  lemma BooksByMarketEntry(s: State, ev: OrderEvent, now: int, fills: seq<Fill>)
    requires Inv(s) && BooksInv(s, fills) && s.side.Some?
    ensures BooksInv(HandleOpenMarket(s, ev, now), fills)
  {
    BooksByEntering(s.(waits := s.waits.(openMarket := false)), ev, true, now, fills);
  }

  lemma BooksByMakeTrade(s: State, price: real, side: Side, now: int, accept: bool, fills: seq<Fill>)
    requires Inv(s) && BooksInv(s, fills)
    ensures BooksInv(MakeTrade(s, price, side, now, accept), if s.side.None? then [] else fills)
  {
  }

  // Any other call that does not finish a trade keeps the close books.
  lemma BooksByOthers(s: State, i: Input, fills: seq<Fill>)
    requires Inv(s) && SizeOk(s) && BooksInv(s, fills)
    requires !EndsOpenOrder(i) && !i.call.MakeTradeCall? && !TakesFill(s, i)
    ensures BooksInv(Step(s, i), fills)
  {
    CalmStep(s, i);
    if i.call.SetOrderCall? {
      BooksByIdleEvent(s, i);
    } else {
      OnlyEventsTouchTheBooks(s, i);
    }
  }

  lemma BooksByIdleEvent(s: State, i: Input)
    requires Inv(s) && i.call.SetOrderCall? && !EndsOpenOrder(i) && !TakesFill(s, i)
    ensures Step(s, i).money == s.money && Step(s, i).closed == s.closed
  {
    StepKeeps(s, i);
  }

  lemma {:induction false} BooksRun(inputs: seq<Input>)
    requires ExchangeOk(inputs) && FillsSound(inputs)
    ensures BooksInv(Run(inputs), Fills(inputs))
  {
    if inputs != [] {
      var prefix, i := inputs[..|inputs| - 1], inputs[|inputs| - 1];
      var s, fills := Run(prefix), Fills(prefix);
      BooksRun(prefix);
      PhaseInvariant(prefix);
      RemainderStaysPositive(prefix);
      if TakesFill(s, i) {
        BooksByCloseEnd(s, i, fills);
      } else if EndsOpenOrder(i) {
        BooksByOpenEnd(s, i, fills);
      } else if i.call.MakeTradeCall? {
        BooksByMakeTrade(s, i.call.price, i.call.side, i.now, i.accept, fills);
      } else {
        BooksByOthers(s, i, fills);
      }
    }
  }

  // --------------------------------------------------------- finished trades

  function Signed(side: Side, x: real): real { if side.Sell? then -x else x }

  // What a quantity brought beyond what it cost at the open price.
  function TrueGross(side: Side, openPrice: real, qty: real, notional: real): real {
    Signed(side, notional - openPrice * qty)
  }

  lemma {:induction false} GrossIsDifference(m: Money, side: Side)
    requires SumsSound(m.closeQty, m.closeNotional)
    ensures GrossOf(m, side) == TrueGross(side, m.openPrice, m.closeQty, m.closeNotional)
  {
    if m.closeQty > QTY_EPSILON {
      Quotient(m.closeNotional, m.closeQty, m.openPrice);
    }
  }

  lemma Quotient(n: real, q: real, p: real)
    requires q > 0.0
    ensures (n / q - p) * q == n - p * q
  {
    assert (n / q) * q == n;
  }

  // A silent end whose quantity is booked but whose turnover is not, on top of
  // partial closes that left a turnover: their average price is then taken for
  // the whole, and the last price is lost.
  predicate LosesPrice(m: Money, ev: OrderEvent) {
    IsSilent(ev) && m.closePartial > 0.0 && m.pendingCloseQty > 0.0
  }

  // The money after a filled end: what is pending is booked as closed, and
  // priced at the end's own price only when there is no turnover yet.
  predicate SilentlyBooked(m: Money, ev: OrderEvent, books: Money) {
    && books.closeQty == m.closePartial + m.pendingCloseQty
    && books.closeNotional == m.closeNotional && books.closePrice == ev.avgPrice
    && books.openPrice == m.openPrice
  }

  lemma SilentGross(m: Money, ev: OrderEvent, books: Money, side: Side)
    requires SilentlyBooked(m, ev, books) && PendingOk(m) && SumsSound(m.closePartial, m.closeNotional)
    ensures GrossOf(books, side) ==
            TrueGross(side, m.openPrice, books.closeQty,
                      m.closeNotional + if m.closePartial > 0.0 then 0.0 else ev.avgPrice * m.pendingCloseQty)
  {
    if m.closePartial > 0.0 {
      Quotient(m.closeNotional, books.closeQty, m.openPrice);
    }
  }

  // For every state of the books: the gross result of a silent end is the
  // signed difference of turnovers if and only if nothing was booked before
  // (or nothing was pending); for the market and for the limit.
  lemma SilentEndIff(m: Money, ev: OrderEvent, side: Side, fallbackPrice: real)
    requires IsSilent(ev) && ev.avgPrice > 0.0 && PendingOk(m) && SumsSound(m.closePartial, m.closeNotional)
    ensures var truth := TrueGross(side, m.openPrice, m.closePartial + m.pendingCloseQty,
                                   m.closeNotional + ev.avgPrice * m.pendingCloseQty);
            && (GrossOf(BookMarketFill(m, ev, fallbackPrice), side) == truth <==> !LosesPrice(m, ev))
            && (GrossOf(BookLimitFill(m, ev, fallbackPrice), side) == truth <==> !LosesPrice(m, ev))
  {
    SilentGross(m, ev, BookMarketFill(m, ev, fallbackPrice), side);
    SilentGross(m, ev, BookLimitFill(m, ev, fallbackPrice), side);
    if m.pendingCloseQty > 0.0 {
      assert ev.avgPrice * m.pendingCloseQty > 0.0;
    }
  }

  // A logged result against an entry and the fills of the close orders:
  // everything but the gross result.
  predicate BookedRightly(r: TradeResult, entry: Fill, fills: seq<Fill>) {
    && r.qty == SumQty(fills) && r.openPrice == entry.price
    && r.fees == entry.fee + SumFee(fills) && r.net == r.gross - r.fees
  }

  predicate GrossIsTrue(r: TradeResult, entry: Fill, fills: seq<Fill>) {
    r.gross == TrueGross(r.side, entry.price, SumQty(fills), SumNotional(fills))
  }

  // The result is right, its gross result exactly unless the end lost its price.
  predicate ResultAgrees(r: TradeResult, m: Money, ev: OrderEvent, fills: seq<Fill>) {
    && BookedRightly(r, EntryOf(m), fills)
    && (GrossIsTrue(r, EntryOf(m), fills) <==> !LosesPrice(m, ev))
  }

  function EntryOf(m: Money): Fill { Fill(m.openQty, m.openPrice, m.entryFee) }

  // Booked amounts that match the fills make a result that does.
  lemma FinishAgrees(s: State, m: Money, ev: OrderEvent, fills: seq<Fill>)
    requires s.side.Some? && s.money.closeQty == SumQty(fills) && EntryOf(s.money) == EntryOf(m)
    requires s.money.closeNotional == SumNotional(fills) && s.money.exitFee == SumFee(fills)
    requires SumsSound(SumQty(fills), SumNotional(fills)) && !IsSilent(ev)
    ensures ResultAgrees(ResultOf(s), m, ev, fills)
  {
    GrossIsDifference(s.money, s.side.value);
  }

  // A silent end agrees exactly unless it loses its price.
  lemma SilentAgrees(s: State, m: Money, ev: OrderEvent, fills: seq<Fill>)
    requires s.side.Some? && BooksAgree(m, fills) && PendingOk(m) && EntryOf(s.money) == EntryOf(m)
    requires IsSilent(ev) && FillSound(ev) && SilentlyBooked(m, ev, s.money)
    requires s.money.exitFee == m.exitFee + ev.cumExecFee
    ensures ResultAgrees(ResultOf(s), m, ev, fills + [FillOf(m, ev)])
  {
    SumsSnoc(fills, FillOf(m, ev));
    SilentGross(m, ev, s.money, s.side.value);
    if m.pendingCloseQty > 0.0 {
      assert ev.avgPrice * m.pendingCloseQty > 0.0;
    }
  }

  // The call logged nothing, or it finished the trade with one result.
  predicate FinishedWell(s: State, t: State, ev: OrderEvent, fills: seq<Fill>)
    requires s.side.Some?
  {
    t.closed == s.closed ||
    (|t.closed| == |s.closed| + 1 && t.closed[..|s.closed|] == s.closed &&
     var r := t.closed[|s.closed|];
     && r.number == s.trade.currentNumber && r.side == s.side.value
     && t.side.None? && t.totalProfit == s.totalProfit + r.net
     && ResultAgrees(r, s.money, ev, fills))
  }

  lemma FinishTradeLogs(s: State, books: State, ev: OrderEvent, fills: seq<Fill>)
    requires s.side.Some? && books.side == s.side && books.closed == s.closed
    requires books.totalProfit == s.totalProfit && books.trade.currentNumber == s.trade.currentNumber
    requires ResultAgrees(ResultOf(books), s.money, ev, fills)
    ensures FinishedWell(s, FinishTrade(books), ev, fills)
  {
  }

  lemma FilledAgrees(m: Money, fills: seq<Fill>, ev: OrderEvent)
    requires BooksAgree(m, fills) && FillSound(ev) && ev.status.Filled? && !IsSilent(ev)
    ensures var all := fills + [FillOf(m, ev)];
            && SumsSound(SumQty(all), SumNotional(all))
            && m.closePartial + ev.cumExecQty == SumQty(all)
            && m.closeNotional + ev.avgPrice * ev.cumExecQty == SumNotional(all)
            && m.exitFee + ev.cumExecFee == SumFee(all)
  {
    PartialAgrees(m, fills, ev);
  }

  lemma ResultByLimitFill(s: State, ev: OrderEvent, books: State, fills: seq<Fill>)
    requires s.side.Some? && books.side == s.side && ev.status.Filled? && FillSound(ev)
    requires BooksAgree(s.money, fills) && PendingOk(s.money)
    requires books.money == BookLimitFill(s.money, ev, s.trade.closeLimit.price)
    ensures ResultAgrees(ResultOf(books), s.money, ev, fills + [FillOf(s.money, ev)])
  {
    if IsSilent(ev) {
      SilentAgrees(books, s.money, ev, fills);
    } else {
      FilledAgrees(s.money, fills, ev);
      FinishAgrees(books, s.money, ev, fills + [FillOf(s.money, ev)]);
    }
  }

  lemma ResultByMarketFill(s: State, ev: OrderEvent, books: State, fills: seq<Fill>)
    requires s.side.Some? && books.side == s.side && ev.status.Filled? && FillSound(ev)
    requires BooksAgree(s.money, fills) && PendingOk(s.money)
    requires books.money == BookMarketFill(s.money, ev, s.currentPrice)
    ensures ResultAgrees(ResultOf(books), s.money, ev, fills + [FillOf(s.money, ev)])
  {
    if IsSilent(ev) {
      SilentAgrees(books, s.money, ev, fills);
    } else {
      FilledAgrees(s.money, fills, ev);
      FinishAgrees(books, s.money, ev, fills + [FillOf(s.money, ev)]);
    }
  }

  lemma ResultByLimitEnd(s: State, ev: OrderEvent, now: int, accept: bool, fills: seq<Fill>)
    requires s.side.Some? && s.waits.isOpen && IsTerminal(ev.status)
    requires BooksAgree(s.money, fills) && PendingOk(s.money) && FillSound(ev)
    ensures FinishedWell(s, HandleCloseLimit(s, ev, now, accept), ev, fills + [FillOf(s.money, ev)])
  {
    var all := fills + [FillOf(s.money, ev)];
    var waits := s.waits.(closeLimit := false, cancelCloseLimit := false);
    if ev.status.Filled? {
      var books := s.(waits := waits, money := BookLimitFill(s.money, ev, s.trade.closeLimit.price));
      ResultByLimitFill(s, ev, books, fills);
      FinishTradeLogs(s, books, ev, all);
    } else {
      PartialAgrees(s.money, fills, ev);
      var books := s.(waits := waits,
                      money := Exhausted(BookPartial(s.money, ev), ev, s.trade.closeLimit.price));
      FinishAgrees(books, s.money, ev, all);
      FinishTradeLogs(s, books, ev, all);
    }
  }

  lemma ResultByMarketEnd(s: State, ev: OrderEvent, fills: seq<Fill>)
    requires s.side.Some? && s.waits.isOpen && IsTerminal(ev.status)
    requires BooksAgree(s.money, fills) && PendingOk(s.money) && FillSound(ev)
    ensures FinishedWell(s, HandleCloseMarket(s, ev), ev, fills + [FillOf(s.money, ev)])
  {
    var all := fills + [FillOf(s.money, ev)];
    var waits := s.waits.(closeMarket := false);
    if ev.status.Filled? {
      var books := s.(waits := waits, money := BookMarketFill(s.money, ev, s.currentPrice));
      ResultByMarketFill(s, ev, books, fills);
      FinishTradeLogs(s, books, ev, all);
    } else {
      PartialAgrees(s.money, fills, ev);
      var money := if ev.cumExecQty > QTY_EPSILON then BookPartial(s.money, ev) else s.money;
      var books := s.(waits := waits, money := Exhausted(money, ev, s.currentPrice));
      FinishAgrees(books, s.money, ev, all);
      FinishTradeLogs(s, books, ev, all);
    }
  }

  lemma ResultByCloseEnd(s: State, i: Input, fills: seq<Fill>)
    requires Inv(s) && BooksInv(s, fills) && TakesFill(s, i) && FillSound(i.call.ev)
    ensures FinishedWell(s, Step(s, i), i.call.ev, fills + [FillOf(s.money, i.call.ev)])
  {
    var s1 := RecordStatus(s, EventId(i), i.call.ev.status);
    if RoleOf(EventId(i)).CloseLimit? {
      ResultByLimitEnd(s1, i.call.ev, i.now, i.accept, fills);
    } else {
      ResultByMarketEnd(s1, i.call.ev, fills);
    }
  }

  // Opening a trade, or failing to, logs no result.
  lemma OpeningLogsNothing(s: State, i: Input)
    requires EndsOpenOrder(i) || i.call.MakeTradeCall?
    ensures Step(s, i).closed == s.closed
  {
  }

  // Whenever a call finishes a trade: the call is the end of one of its close
  // orders, the logged quantity is the sum of that trade's close fills, the
  // fees are the entry fee plus the fees of all those fills, and the gross
  // result is the signed difference between what they brought and what the
  // same quantity cost at the open price, if and only if the end does not leave
  // out the quantity of its fill after partial closes.
  lemma {:induction false} LedgerIdentity(inputs: seq<Input>, i: Input)
    requires ExchangeOk(inputs + [i]) && FillsSound(inputs + [i])
    ensures var s, t := Run(inputs), Step(Run(inputs), i);
            t.closed != s.closed ==>
              TakesFill(s, i) && FinishedWell(s, t, i.call.ev, Fills(inputs + [i]))
  {
    assert (inputs + [i])[..|inputs|] == inputs;
    assert FillsSound(inputs) by {
      forall k | 0 <= k < |inputs| && EndsCloseOrder(inputs[k])
        ensures FillSound(inputs[k].call.ev)
      {
        assert (inputs + [i])[k] == inputs[k];
      }
    }
    var s := Run(inputs);
    BooksRun(inputs);
    PhaseInvariant(inputs);
    RemainderStaysPositive(inputs);
    if TakesFill(s, i) {
      assert (inputs + [i])[|inputs|] == i;
      ResultByCloseEnd(s, i, Fills(inputs));
    } else if EndsOpenOrder(i) || i.call.MakeTradeCall? {
      OpeningLogsNothing(s, i);
    } else if i.call.SetOrderCall? {
      BooksByIdleEvent(s, i);
    } else {
      OnlyEventsTouchTheBooks(s, i);
    }
  }

  // The same with both sides of the trade read off the exchange's reports: one
  // execution opened it, and the result is that execution against the fills of
  // the close orders.
  lemma LedgerOfWholeTrade(inputs: seq<Input>, i: Input)
    requires ExchangeOk(inputs + [i]) && FillsSound(inputs + [i]) && OpensSound(inputs)
    requires Step(Run(inputs), i).closed != Run(inputs).closed
    ensures var s, t := Run(inputs), Step(Run(inputs), i);
            var opens, fills := OpeningFills(inputs, s.trade.currentNumber), Fills(inputs + [i]);
            && i.call.SetOrderCall? && |opens| == 1 && |t.closed| == |s.closed| + 1
            && BookedRightly(t.closed[|s.closed|], opens[0], fills)
            && (GrossIsTrue(t.closed[|s.closed|], opens[0], fills) <==> !LosesPrice(s.money, i.call.ev))
  {
    assert (inputs + [i])[..|inputs|] == inputs;
    LedgerIdentity(inputs, i);
    OpenedAsExecuted(inputs);
  }
}
