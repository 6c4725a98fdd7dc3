// The strategy object of trading_strategy/imbalance_and_large: its two queues
// and the order in which one update feeds the trade manager.

module Strategy {
  import opened TradeMachine
  import opened TradeInvariants
  import opened TradeOrders
  import Manager = TradeManager

  function ResultCalls(results: seq<RequestResult>, now: int, answers: nat -> bool): (calls: seq<Input>)
    ensures |calls| == |results|
    ensures forall i :: 0 <= i < |results| ==> calls[i] == Input(RequestResultCall(results[i]), now, answers(i))
  {
    seq(|results|, i requires 0 <= i < |results| => Input(RequestResultCall(results[i]), now, answers(i)))
  }

  function OrderCalls(events: seq<OrderEvent>, now: int, answers: nat -> bool): (calls: seq<Input>)
    ensures |calls| == |events|
    ensures forall i :: 0 <= i < |events| ==> calls[i] == Input(SetOrderCall(events[i]), now, answers(i))
  {
    seq(|events|, i requires 0 <= i < |events| => Input(SetOrderCall(events[i]), now, answers(i)))
  }

  // What the sender answers to the order of each call, by kind of call.
  datatype Answers = Answers(results: nat -> bool, orders: nat -> bool, price: bool, signal: bool)

  function PriceCalls(midPrice: real, now: int, accept: bool): seq<Input> {
    if midPrice > 0.0 then [Input(PriceCall(midPrice), now, accept)] else []
  }

  // A signal is used once, when its version is new; Side_Unknown is no signal.
  function SignalCalls(isNew: bool, signal: Side, ask: real, bid: real, now: int, accept: bool): seq<Input> {
    if !isNew || signal.SideUnknown? then []
    else [Input(MakeTradeCall(if signal.Buy? then ask else bid, signal), now, accept)]
  }

  class ImbalanceAndLarge {
    const tradeManager: Manager.TradeManager
    var orderQueue: seq<OrderEvent>
    var orderRequestResults: seq<RequestResult>
    var currentMidPrice: real
    var currentBestAskPrice: real
    var currentBestBidPrice: real
    var lastSignalVersion: nat
    // Every call the trade manager has served.
    ghost var served: seq<Input>

    // The manager is in the state of the run of all calls served, so whatever
    // holds of runs holds of it.
    ghost predicate Valid()
      reads this, tradeManager, tradeManager.currentTrade
    {
      tradeManager.Abs() == Run(served)
    }

    constructor ()
      ensures Valid() && fresh(tradeManager) && fresh(tradeManager.currentTrade)
      ensures served == [] && orderQueue == [] && orderRequestResults == []
    {
      tradeManager := new Manager.TradeManager();
      orderQueue, orderRequestResults, served := [], [], [];
      currentMidPrice, currentBestAskPrice, currentBestBidPrice := 0.0, 0.0, 0.0;
      lastSignalVersion := 0;
    }

    method SetOrder(event: OrderEvent)
      requires Valid()
      modifies `orderQueue
      ensures Valid() && orderQueue == old(orderQueue) + [event]
    {
      orderQueue := orderQueue + [event];
    }

    method SetOrderRequestResult(result: RequestResult)
      requires Valid()
      modifies `orderRequestResults
      ensures Valid() && orderRequestResults == old(orderRequestResults) + [result]
    {
      orderRequestResults := orderRequestResults + [result];
    }

    // One call of the trade manager.  It sends at most one order, and that one
    // fits the trade.
    method Serve(i: Input)
      requires Valid()
      modifies `served, tradeManager, tradeManager.currentTrade
      ensures Valid() && served == old(served) + [i]
      ensures SentOk(old(tradeManager.currentTrade.sent), tradeManager.Abs())
    {
      PhaseInvariant(served);
      OrdersAreSized(served, i);
      RunSnoc(served, i);
      tradeManager.Serve(i);
      served := served + [i];
    }

    method DrainOrderRequestResults(now: int, answers: nat -> bool)
      requires Valid()
      modifies `orderRequestResults, `served, tradeManager, tradeManager.currentTrade
      ensures Valid() && orderRequestResults == []
      ensures served == old(served) + ResultCalls(old(orderRequestResults), now, answers)
    {
      var results := orderRequestResults;
      orderRequestResults := [];
      ghost var calls := ResultCalls(results, now, answers);
      for i := 0 to |results|
        invariant Valid() && served == old(served) + calls[..i] && orderRequestResults == []
      {
        assert calls[..i + 1] == calls[..i] + [calls[i]];
        Serve(Input(RequestResultCall(results[i]), now, answers(i)));
      }
    }

    method DrainOrderUpdates(now: int, answers: nat -> bool)
      requires Valid()
      modifies `orderQueue, `served, tradeManager, tradeManager.currentTrade
      ensures Valid() && orderQueue == []
      ensures served == old(served) + OrderCalls(old(orderQueue), now, answers)
    {
      var events := orderQueue;
      orderQueue := [];
      ghost var calls := OrderCalls(events, now, answers);
      for i := 0 to |events|
        invariant Valid() && served == old(served) + calls[..i] && orderQueue == []
      {
        assert calls[..i + 1] == calls[..i] + [calls[i]];
        Serve(Input(SetOrderCall(events[i]), now, answers(i)));
      }
    }

    // Request results first, then order events, then stops, and a new signal
    // last; both queues are empty afterwards and nothing in them was skipped.
    method OnMarketUpdate(signalVersion: nat, signal: Side, now: int, answers: Answers)
      requires Valid()
      modifies this, tradeManager, tradeManager.currentTrade
      ensures Valid() && orderQueue == [] && orderRequestResults == [] && lastSignalVersion == signalVersion
      ensures served == old(served) +
                        ResultCalls(old(orderRequestResults), now, answers.results) +
                        OrderCalls(old(orderQueue), now, answers.orders) +
                        PriceCalls(old(currentMidPrice), now, answers.price) +
                        SignalCalls(signalVersion != old(lastSignalVersion), signal,
                                    old(currentBestAskPrice), old(currentBestBidPrice), now, answers.signal)
    {
      DrainOrderRequestResults(now, answers.results);
      DrainOrderUpdates(now, answers.orders);
      CheckPrice(now, answers.price);
      CheckSignal(signalVersion, signal, now, answers.signal);
    }

    // The part of onMarketUpdate that passes the price on.
    method CheckPrice(now: int, accept: bool)
      requires Valid()
      modifies `served, tradeManager, tradeManager.currentTrade
      ensures Valid() && served == old(served) + PriceCalls(currentMidPrice, now, accept)
      ensures currentMidPrice > 0.0 ==> served == old(served) + [Input(PriceCall(currentMidPrice), now, accept)]
      ensures currentMidPrice <= 0.0 ==> served == old(served)
    {
      var midPrice := currentMidPrice;
      if midPrice > 0.0 {
        Serve(Input(PriceCall(midPrice), now, accept));
      }
    }

    // The part of onMarketUpdate that acts on a new signal.
    method CheckSignal(signalVersion: nat, signal: Side, now: int, accept: bool)
      requires Valid()
      modifies `lastSignalVersion, `served, tradeManager, tradeManager.currentTrade
      ensures Valid() && lastSignalVersion == signalVersion
      ensures served == old(served) +
                        SignalCalls(signalVersion != old(lastSignalVersion), signal, currentBestAskPrice,
                                    currentBestBidPrice, now, accept)
      ensures signalVersion == old(lastSignalVersion) || signal.SideUnknown? ==> served == old(served)
      ensures signalVersion != old(lastSignalVersion) && signal.Buy? ==>
                served == old(served) + [Input(MakeTradeCall(currentBestAskPrice, Buy), now, accept)]
      ensures signalVersion != old(lastSignalVersion) && signal.Sell? ==>
                served == old(served) + [Input(MakeTradeCall(currentBestBidPrice, Sell), now, accept)]
    {
      if signalVersion == lastSignalVersion {
        return;
      }
      lastSignalVersion := signalVersion;
      if signal.SideUnknown? {
        return;
      }
      if signal.Buy? {
        Serve(Input(MakeTradeCall(currentBestAskPrice, Buy), now, accept));
      } else {
        Serve(Input(MakeTradeCall(currentBestBidPrice, Sell), now, accept));
      }
    }
  }
}
