// The prices of orders and stops in trading_strategy/trade_manager.

module TradePrices {
  import opened Options
  import opened TradeMachine

  // A multiple of the tick.
  function Ticks(n: int): real { n as real * PRICE_TICK_SIZE }

  ghost predicate OnTick(price: real) { exists n: int :: price == Ticks(n) }

  lemma FloorIsBelow(x: real, n: int)
    requires n == x.Floor
    ensures n as real <= x < n as real + 1.0
  {
  }

  // A limit price lies on a tick, less than a tick and the offset away from the
  // price, and on the passive side of it: for a buy always, for a sell exactly
  // unless the price with its offset is within the epsilon of no tick at all.
  lemma LimitIsPassive(price: real)
    requires price >= 0.0
    ensures OnTick(CalcLimitPrice(price, Buy)) && OnTick(CalcLimitPrice(price, Sell))
    ensures price * (1.0 - SPACE_TO_LIMIT_PRICE) - PRICE_TICK_SIZE < CalcLimitPrice(price, Buy) <= price
    ensures CalcLimitPrice(price, Sell) < price * (1.0 + SPACE_TO_LIMIT_PRICE) + PRICE_TICK_SIZE
    ensures price <= CalcLimitPrice(price, Sell) <==>
            price == 0.0 || price * (1.0 + SPACE_TO_LIMIT_PRICE) > TICK_EPSILON * PRICE_TICK_SIZE
  {
    var buy := (price - SPACE_TO_LIMIT_PRICE * price) / PRICE_TICK_SIZE + TICK_EPSILON;
    var sell := (price + SPACE_TO_LIMIT_PRICE * price) / PRICE_TICK_SIZE - TICK_EPSILON;
    FloorIsBelow(buy, buy.Floor);
    FloorIsBelow(-sell, (-sell).Floor);
    assert CalcLimitPrice(price, Buy) == Ticks(buy.Floor);
    assert CalcLimitPrice(price, Sell) == Ticks(Ceil(sell));
  }

  // Whatever the side, the stop-loss lies on the losing and the take-profit on
  // the winning side of the price they were set from, so neither is hit there
  // and no price hits both.
  lemma StopsBracketThePrice(s: State, price: real, side: Side)
    requires price > 0.0 && s.side == Some(side) && !side.SideUnknown?
    ensures var t := s.(trade := CalcSLTP(s.trade, price, side));
            && (t.currentPrice == price ==> !StopLossHit(t) && !TakeProfitHit(t))
            && !(StopLossHit(t) && TakeProfitHit(t))
            && (StopLossHit(t) ==> if side.Buy? then t.currentPrice < price else t.currentPrice > price)
            && (TakeProfitHit(t) ==> if side.Buy? then t.currentPrice > price else t.currentPrice < price)
  {
  }
}
