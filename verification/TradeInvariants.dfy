// What every call of the trade manager keeps, whatever the exchange reports and
// whatever the sender answers.

module TradeInvariants {
  import opened Options
  import opened OrderIds
  import opened TradeMachine

  function B(b: bool): nat { if b then 1 else 0 }

  // ------------------------------------------------------------- the phases

  // No trade: no flag.  A trade: exactly one of waiting for the opening limit,
  // cancelling it, waiting for the market fallback, and open; at most one of
  // the close flags, and only while open.
  predicate PhaseOk(side: Option<Side>, w: Waits) {
    && (side.None? ==> w == NoWaits)
    && (side.Some? ==> B(w.openLimit) + B(w.cancelOpenLimit) + B(w.openMarket) + B(w.isOpen) == 1)
    && B(w.closeLimit) + B(w.closeMarket) + B(w.cancelCloseLimit) <= B(w.isOpen)
  }

  predicate IsCloseRole(role: Role) { role.CloseLimit? || role.CloseMarket? }

  // A registered close order implies an open trade; a registered market
  // fallback implies that the limit is no longer waited for.
  predicate StatusOk(status: map<nat, OrderStatus>, w: Waits) {
    forall id :: id in status ==>
      && (IsCloseRole(RoleOf(id)) ==> w.isOpen)
      && (RoleOf(id).OpenMarket? ==> w.isOpen || w.openMarket)
  }

  // Every registered id belongs to the current trade.
  predicate KeysOk(t: TradeData) {
    && (forall id :: id in t.status ==>
          id / MULTIPLIER == t.currentNumber && !RoleOf(id).UnknownRole?)
    && t.currentNumber < t.tradeNumber
  }

  predicate OrdersOk(t: TradeData) {
    && t.openLimit.kind.NewRequest? && t.openMarket.kind.NewRequest?
    && t.openLimit.qty == t.openMarket.qty == DEFAULT_QTY
    && !t.openLimit.reduceOnly && !t.openMarket.reduceOnly
    && !t.openLimit.market && t.openMarket.market
    && t.closeLimit.kind.NewRequest? && t.closeMarket.kind.NewRequest?
    && t.closeLimit.reduceOnly && t.closeMarket.reduceOnly
    && !t.closeLimit.market && t.closeMarket.market
    && t.cancel.kind.CancelRequest?
  }

  // The quantity of the close orders under way.
  predicate PendingOk(m: Money) { m.pendingCloseQty == 0.0 || m.pendingCloseQty > QTY_EPSILON }

  predicate MoneyOk(w: Waits, side: Option<Side>, m: Money) {
    && (w.isOpen ==> m.openQty > QTY_EPSILON && PendingOk(m))
    && (side.Some? && !w.isOpen ==> m == NoMoney)
  }

  predicate Inv(s: State) {
    && PhaseOk(s.side, s.waits)
    && (s.side.Some? ==> StatusOk(s.trade.status, s.waits))
    && KeysOk(s.trade) && OrdersOk(s.trade)
    && MoneyOk(s.waits, s.side, s.money)
  }

  // Registering an order of the current trade keeps the trade record sound.
  lemma Registered(n: nat, role: Role)
    requires !role.UnknownRole?
    ensures var id := MakeReqId(n, role); id / MULTIPLIER == n && RoleOf(id) == role
  {
    ReqIdsAreInjective(n, role, n, role);
  }

  lemma FinishKeeps(s: State)
    requires s.side.Some? && s.waits.isOpen && KeysOk(s.trade) && OrdersOk(s.trade)
    requires !s.waits.openLimit && !s.waits.openMarket && !s.waits.cancelOpenLimit
    ensures Inv(FinishTrade(s)) && FinishTrade(s).side.None?
  {
  }

  lemma EnterKeeps(s: State, ev: OrderEvent, byMarket: bool, now: int)
    requires s.side.Some? && KeysOk(s.trade) && OrdersOk(s.trade) && PendingOk(s.money)
    ensures Inv(EnterTrade(s, ev, byMarket, now))
  {
  }

  // A market close may already be under way when the limit's last event comes.
  lemma SendCloseMarketKeeps(s: State, qty: real, now: int, accept: bool)
    requires Inv(s) && !s.waits.closeLimit && !s.waits.cancelCloseLimit
    ensures Inv(SendCloseMarket(s, qty, now, accept))
  {
    Registered(s.trade.currentNumber, CloseMarket);
  }

  lemma FallbackKeeps(s: State, now: int, accept: bool)
    requires s.side.Some? && s.waits == NoWaits && KeysOk(s.trade) && OrdersOk(s.trade)
    requires s.money == NoMoney
    requires forall id :: id in s.trade.status ==> !IsCloseRole(RoleOf(id))
    ensures Inv(SendOpenMarketFallback(s, now, accept))
  {
    Registered(s.trade.currentNumber, OpenMarket);
  }

  lemma CloseTradeKeeps(s: State, reason: CloseReason, now: int, accept: bool)
    requires Inv(s)
    ensures Inv(CloseTrade(s, reason, now, accept))
  {
    Registered(s.trade.currentNumber, CloseLimit);
  }

  lemma OpenLimitKeeps(s: State, ev: OrderEvent, now: int, accept: bool)
    requires Inv(s) && s.side.Some?
    ensures Inv(HandleOpenLimit(s, ev, now, accept))
  {
    var s1 := s.(waits := s.waits.(openLimit := false, cancelOpenLimit := false));
    EnterKeeps(s1, ev, false, now);
    if !s.waits.isOpen && !s.waits.openMarket {
      FallbackKeeps(s1, now, accept);
    }
  }

  lemma OpenMarketKeeps(s: State, ev: OrderEvent, now: int)
    requires Inv(s) && s.side.Some?
    ensures Inv(HandleOpenMarket(s, ev, now))
  {
    EnterKeeps(s.(waits := s.waits.(openMarket := false)), ev, true, now);
  }

  lemma CloseLimitKeeps(s: State, ev: OrderEvent, now: int, accept: bool)
    requires Inv(s) && s.side.Some?
    ensures Inv(HandleCloseLimit(s, ev, now, accept))
  {
    if s.waits.isOpen {
      var waits := s.waits.(closeLimit := false, cancelCloseLimit := false);
      var money := BookPartial(s.money, ev);
      FinishKeeps(s.(waits := waits, money := BookLimitFill(s.money, ev, s.trade.closeLimit.price)));
      FinishKeeps(s.(waits := waits, money := Exhausted(money, ev, s.trade.closeLimit.price)));
      SendCloseMarketKeeps(s.(waits := waits, money := money), Remaining(money), now, accept);
    }
  }

  lemma CloseMarketKeeps(s: State, ev: OrderEvent)
    requires Inv(s) && s.side.Some? && s.waits.isOpen
    ensures Inv(HandleCloseMarket(s, ev))
  {
    var waits := s.waits.(closeMarket := false);
    var money := if ev.cumExecQty > QTY_EPSILON then BookPartial(s.money, ev) else s.money;
    FinishKeeps(s.(waits := waits, money := BookMarketFill(s.money, ev, s.currentPrice)));
    FinishKeeps(s.(waits := waits, money := Exhausted(money, ev, s.currentPrice)));
  }

  lemma SetOrderKeeps(s: State, ev: OrderEvent, now: int, accept: bool)
    requires Inv(s)
    ensures Inv(SetOrder(s, ev, now, accept))
  {
    var id := FromChars(ev.orderLinkId);
    if id in s.trade.status && s.side.Some? {
      var s1 := RecordStatus(s, id, ev.status);
      match RoleOf(id) {
        case OpenLimit => OpenLimitKeeps(s1, ev, now, accept);
        case OpenMarket => OpenMarketKeeps(s1, ev, now);
        case CloseLimit => CloseLimitKeeps(s1, ev, now, accept);
        case CloseMarket => CloseMarketKeeps(s1, ev);
        case UnknownRole =>
      }
    }
  }

  lemma RequestResultKeeps(s: State, result: RequestResult, now: int, accept: bool)
    requires Inv(s)
    ensures Inv(OnRequestResult(s, result, now, accept))
  {
    if s.waits.closeLimit || s.waits.cancelCloseLimit {
      var s1 := s.(waits := s.waits.(closeLimit := false, cancelCloseLimit := false));
      SendCloseMarketKeeps(s1, Remaining(s.money), now, accept);
      FinishKeeps(s1);
    }
  }

  lemma MakeTradeKeeps(s: State, price: real, side: Side, now: int, accept: bool)
    requires Inv(s)
    ensures Inv(MakeTrade(s, price, side, now, accept))
  {
    Registered(s.trade.tradeNumber, OpenLimit);
  }

  lemma InverseSignalKeeps(s: State, side: Side, now: int, accept: bool)
    requires Inv(s)
    ensures Inv(CheckInverseSignal(s, side, now, accept))
  {
    CloseTradeKeeps(s, InverseSignal, now, accept);
  }

  lemma RetryCloseKeeps(s: State, now: int, accept: bool)
    requires Inv(s)
    ensures Inv(RetryClose(s, now, accept))
  {
    if s.waits.isOpen && !CloseInProgress(s.waits) {
      FinishKeeps(s);
      SendCloseMarketKeeps(s, Remaining(s.money), now, accept);
      CloseTradeKeeps(s, s.closeReason, now, accept);
    }
  }

  lemma CheckSLTPKeeps(s: State, now: int, accept: bool)
    requires Inv(s) && !CloseInProgress(s.waits)
    ensures Inv(CheckSLTP(s, now, accept))
  {
    SendCloseMarketKeeps(s.(closeReason := StopLoss), Remaining(s.money), now, accept);
    SendCloseMarketKeeps(s, Remaining(s.money), now, accept);
    CloseTradeKeeps(s, TakeProfit, now, accept);
  }

  lemma CancelOpenKeeps(s: State, now: int, accept: bool)
    requires Inv(s)
    ensures Inv(CancelOpenLimit(s, now, accept)) && Inv(RepeatCancelOpen(s, now, accept))
  {
  }

  lemma CancelCloseKeeps(s: State, now: int, accept: bool)
    requires Inv(s)
    ensures Inv(CancelCloseLimit(s, now, accept)) && Inv(RepeatCancelClose(s, now, accept))
  {
  }

  lemma CurrentPriceKeeps(s: State, price: real, now: int, accept: bool)
    requires Inv(s)
    ensures Inv(CheckCurrentPrice(s, price, now, accept))
  {
    var s1 := s.(currentPrice := price);
    CancelOpenKeeps(s1, now, accept);
    CancelCloseKeeps(s1, now, accept);
    CloseTradeKeeps(s1, Timeout, now, accept);
    RetryCloseKeeps(s1, now, accept);
    if !CloseInProgress(s1.waits) {
      CheckSLTPKeeps(s1, now, accept);
    }
  }

  lemma {:induction false} StepKeeps(s: State, i: Input)
    requires Inv(s)
    ensures Inv(Step(s, i))
  {
    match i.call {
      case SetOrderCall(ev) => SetOrderKeeps(s, ev, i.now, i.accept);
      case RequestResultCall(result) => RequestResultKeeps(s, result, i.now, i.accept);
      case MakeTradeCall(price, side) => MakeTradeKeeps(s, price, side, i.now, i.accept);
      case CloseTradeCall(reason) => CloseTradeKeeps(s, reason, i.now, i.accept);
      case InverseSignalCall(side) => InverseSignalKeeps(s, side, i.now, i.accept);
      case PriceCall(price) => CurrentPriceKeeps(s, price, i.now, i.accept);
    }
  }

  // Every reachable state is in exactly one phase, against any exchange.
  lemma {:induction false} PhaseInvariant(inputs: seq<Input>)
    ensures Inv(Run(inputs))
  {
    if inputs != [] {
      PhaseInvariant(inputs[..|inputs| - 1]);
      StepKeeps(Run(inputs[..|inputs| - 1]), inputs[|inputs| - 1]);
    }
  }

  // ----------------------------------------------------- stale-event isolation

  // Events and request results that name an order of another trade, or no
  // order at all, change nothing.
  lemma {:induction false} StaleEventsAreIgnored(
    inputs: seq<Input>, ev: OrderEvent, result: RequestResult, now: int, accept: bool)
    ensures var s := Run(inputs);
            && (FromChars(ev.orderLinkId) / MULTIPLIER != s.trade.currentNumber ==>
                  SetOrder(s, ev, now, accept) == s)
            && (TargetOf(result.request) / MULTIPLIER != s.trade.currentNumber ==>
                  OnRequestResult(s, result, now, accept) == s)
  {
    PhaseInvariant(inputs);
  }
}
