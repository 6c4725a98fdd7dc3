// The hand-off from the data threads to the strategy thread: the wait loop of
// trading_strategy/base_trading_strategy.cpp and the queues of
// trading_strategy/imbalance_and_large/imbalance_and_large.cpp, step by step.

module StrategyHandOff {
  import opened Options

  // Where the strategy thread is.  It holds dataMutex_ from Test to Clear.
  datatype Pc =
    | NotStarted
    | LoopTop                    // while (running_)
    | WantLock
    | Test                       // evaluates the predicate of the wait
    | GoToSleep                  // the predicate was false
    | Blocked(woken: bool)       // in the wait, mutex released
    | Awake                      // the wait returned
    | Clear                      // newData_ := false, unlock
    | SwapResults
    | GiveResults(results: seq<nat>)
    | SwapOrders
    | GiveOrders(orders: seq<nat>)
    | Exited

  datatype Stopper = NotStopping | Stored | Locked | Notified

  // Messages are named by numbers.  Pushed and delivered are what has happened.
  datatype Line = Line(queue: seq<nat>, pushed: seq<nat>, delivered: seq<nat>)

  datatype State = State(
    pc: Pc, newData: bool, running: bool, stopper: Stopper,
    toSet: set<nat>,      // producers between their push and setting newData_
    toNotify: set<nat>,   // producers between setting newData_ and notify_all
    results: Line, orders: Line)

  function Init(): State {
    State(NotStarted, false, false, NotStopping, {}, {}, Line([], [], []), Line([], [], []))
  }

  predicate HoldsMutex(pc: Pc) {
    pc.Test? || pc.GoToSleep? || pc.Awake? || pc.Clear?
  }

  datatype Action =
    | Start
    | PushResult(producer: nat, msg: nat)
    | PushOrder(producer: nat, msg: nat)
    | PushMarketData(producer: nat)
    | SetNewData(producer: nat)    // lock, store, unlock
    | NotifyNewData(producer: nat)
    | Strategy                     // the next step of the strategy thread
    | SpuriousWake
    | StopStore
    | StopLock                     // lock and unlock dataMutex_
    | StopNotify

  predicate IsIdle(s: State, p: nat) { p !in s.toSet && p !in s.toNotify }

  predicate Enabled(s: State, a: Action) {
    match a
    case Start => s.pc.NotStarted? && s.stopper.NotStopping?
    case PushResult(p, _) => IsIdle(s, p)
    case PushOrder(p, _) => IsIdle(s, p)
    case PushMarketData(p) => IsIdle(s, p)
    case SetNewData(p) => p in s.toSet && !HoldsMutex(s.pc)
    case NotifyNewData(p) => p in s.toNotify
    case Strategy => !s.pc.NotStarted? && !s.pc.Exited? && s.pc != Blocked(false)
    case SpuriousWake => s.pc.Blocked?
    case StopStore => s.stopper.NotStopping?
    case StopLock => s.stopper.Stored? && !HoldsMutex(s.pc)
    case StopNotify => s.stopper.Locked?
  }

  function Push(l: Line, msg: nat): Line {
    Line(l.queue + [msg], l.pushed + [msg], l.delivered)
  }

  function Deliver(l: Line, msg: nat): Line {
    l.(delivered := l.delivered + [msg])
  }

  function Wake(pc: Pc): Pc { if pc.Blocked? then Blocked(true) else pc }

  function StrategyStep(s: State): State
    requires Enabled(s, Strategy)
  {
    match s.pc
    case LoopTop => s.(pc := if s.running then WantLock else Exited)
    case WantLock => s.(pc := Test)
    case Test => s.(pc := if s.newData || !s.running then Awake else GoToSleep)
    case GoToSleep => s.(pc := Blocked(false))
    case Blocked(_) => s.(pc := WantLock)
    case Awake => s.(pc := if s.running then Clear else Exited)
    case Clear => s.(newData := false, pc := SwapResults)
    case SwapResults => s.(pc := GiveResults(s.results.queue), results := s.results.(queue := []))
    case GiveResults(batch) =>
      if batch == [] then s.(pc := SwapOrders)
      else s.(pc := GiveResults(batch[1..]), results := Deliver(s.results, batch[0]))
    case SwapOrders => s.(pc := GiveOrders(s.orders.queue), orders := s.orders.(queue := []))
    case GiveOrders(batch) =>
      if batch == [] then s.(pc := LoopTop)
      else s.(pc := GiveOrders(batch[1..]), orders := Deliver(s.orders, batch[0]))
  }

  function Step(s: State, a: Action): State
    requires Enabled(s, a)
  {
    match a
    case Start => s.(pc := LoopTop, running := true)
    case PushResult(p, msg) => s.(results := Push(s.results, msg), toSet := s.toSet + {p})
    case PushOrder(p, msg) => s.(orders := Push(s.orders, msg), toSet := s.toSet + {p})
    case PushMarketData(p) => s.(toSet := s.toSet + {p})
    case SetNewData(p) => s.(newData := true, toSet := s.toSet - {p}, toNotify := s.toNotify + {p})
    case NotifyNewData(p) => s.(toNotify := s.toNotify - {p}, pc := Wake(s.pc))
    case Strategy => StrategyStep(s)
    case SpuriousWake => s.(pc := Blocked(true))
    case StopStore => s.(running := false, stopper := Stored)
    case StopLock => s.(stopper := Locked)
    case StopNotify => s.(stopper := Notified, pc := Wake(s.pc))
  }

  function After(acts: seq<Action>): Option<State> {
    if acts == [] then Some(Init())
    else
      var before := After(acts[..|acts| - 1]);
      if before.Some? && Enabled(before.value, acts[|acts| - 1])
      then Some(Step(before.value, acts[|acts| - 1])) else None
  }

  // -------------------------------------------------- exactly once, in order

  function ResultsInHand(pc: Pc): seq<nat> { if pc.GiveResults? then pc.results else [] }

  function OrdersInHand(pc: Pc): seq<nat> { if pc.GiveOrders? then pc.orders else [] }

  predicate LineOk(l: Line, inHand: seq<nat>) {
    l.pushed == l.delivered + inHand + l.queue
  }

  predicate Conserved(s: State) {
    LineOk(s.results, ResultsInHand(s.pc)) && LineOk(s.orders, OrdersInHand(s.pc))
  }

  lemma DeliverKeeps(l: Line, batch: seq<nat>)
    requires LineOk(l, batch) && batch != []
    ensures LineOk(Deliver(l, batch[0]), batch[1..])
  {
    assert batch == [batch[0]] + batch[1..];
  }

  lemma ConservedStrategy(s: State)
    requires Conserved(s) && Enabled(s, Strategy)
    ensures Conserved(StrategyStep(s))
  {
    if s.pc.GiveResults? && s.pc.results != [] {
      DeliverKeeps(s.results, s.pc.results);
    } else if s.pc.GiveOrders? && s.pc.orders != [] {
      DeliverKeeps(s.orders, s.pc.orders);
    }
  }

  lemma ConservedStep(s: State, a: Action)
    requires Conserved(s) && Enabled(s, a)
    ensures Conserved(Step(s, a))
  {
    if a.Strategy? {
      ConservedStrategy(s);
    }
  }

  // In each queue, what was pushed is what was delivered, then the batch being
  // worked off, then the queue, in this order.
  lemma {:induction false} DeliveredOnceInOrder(acts: seq<Action>)
    requires After(acts).Some?
    ensures Conserved(After(acts).value)
  {
    if acts != [] {
      DeliveredOnceInOrder(acts[..|acts| - 1]);
      ConservedStep(After(acts[..|acts| - 1]).value, acts[|acts| - 1]);
    }
  }

  // ------------------------------------------------------------ no lost wake-up

  predicate Signalled(s: State) {
    && (s.results.queue != [] ==> s.newData || s.toSet != {} || s.pc.SwapResults?)
    && (s.orders.queue != [] ==>
          s.newData || s.toSet != {} || s.pc.SwapResults? || s.pc.GiveResults? || s.pc.SwapOrders?)
  }

  predicate Wakeable(s: State) {
    && (s.pc.GoToSleep? ==> !s.newData && (s.running || s.stopper.Stored?))
    && (s.pc == Blocked(false) ==>
          && (s.newData ==> s.toNotify != {})
          && (s.running || s.stopper.Stored? || s.stopper.Locked?))
    && (s.pc.NotStarted? || s.running || !s.stopper.NotStopping?)
    && (s.running ==> s.stopper.NotStopping?)
  }

  lemma SignalledStep(s: State, a: Action)
    requires Signalled(s) && Enabled(s, a)
    ensures Signalled(Step(s, a))
  {
    match a {
      case PushResult(p, _) => assert p in Step(s, a).toSet;
      case PushOrder(p, _) => assert p in Step(s, a).toSet;
      case PushMarketData(p) => assert p in Step(s, a).toSet;
      case _ =>
    }
  }

  lemma WakeableStep(s: State, a: Action)
    requires Wakeable(s) && Enabled(s, a)
    ensures Wakeable(Step(s, a))
  {
    if a.SetNewData? {
      assert a.producer in Step(s, a).toNotify;
    }
  }

  lemma {:induction false} WakeRun(acts: seq<Action>)
    requires After(acts).Some?
    ensures Signalled(After(acts).value) && Wakeable(After(acts).value)
  {
    if acts != [] {
      var s := After(acts[..|acts| - 1]).value;
      WakeRun(acts[..|acts| - 1]);
      SignalledStep(s, acts[|acts| - 1]);
      WakeableStep(s, acts[|acts| - 1]);
    }
  }

  // While the strategy sleeps with newData_ down and no producer is between
  // its push and its store, there is nothing it has not taken.
  lemma SleepingMeansDrained(acts: seq<Action>)
    requires After(acts).Some?
    requires After(acts).value.pc.Blocked? && !After(acts).value.newData && After(acts).value.toSet == {}
    ensures var s := After(acts).value;
            s.results.delivered == s.results.pushed && s.orders.delivered == s.orders.pushed
  {
    WakeRun(acts);
    DeliveredOnceInOrder(acts);
  }

  // A sleeping strategy that has work, or that has been stopped, still has a
  // notification coming.
  lemma NoWakeUpIsLost(acts: seq<Action>)
    requires After(acts).Some? && After(acts).value.pc == Blocked(false)
    ensures var s := After(acts).value;
            && (s.newData || s.results.queue != [] || s.orders.queue != [] ==> s.toSet != {} || s.toNotify != {})
            && (!s.running ==> s.stopper.Stored? || s.stopper.Locked?)
  {
    WakeRun(acts);
  }

  // The thread leaves its loop only after a stop.
  lemma {:induction false} ExitedMeansStopped(acts: seq<Action>)
    requires After(acts).Some? && After(acts).value.pc.Exited?
    ensures !After(acts).value.running
  {
    var prefix, a := acts[..|acts| - 1], acts[|acts| - 1];
    if After(prefix).value.pc.Exited? {
      ExitedMeansStopped(prefix);
    }
  }

  // ------------------------------------------------------------ left alone

  // How far the thread is from falling asleep or leaving, were it to run alone.
  function Distance(s: State): nat {
    match s.pc
    case NotStarted => 0
    case Exited => 0
    case Blocked(woken) => if !woken then 0 else if s.newData then 25 else 7
    case SwapResults => if s.newData then 29 else 11
    case GiveResults(_) => if s.newData then 28 else 10
    case SwapOrders => if s.newData then 27 else 9
    case GiveOrders(_) => if s.newData then 26 else 8
    case LoopTop => if s.newData then 25 else 7
    case WantLock => if s.newData then 24 else 6
    case Test => if s.newData then 23 else 5
    case GoToSleep => 4
    case Awake => if s.newData then 22 else if s.running then 13 else 3
    case Clear => if s.newData then 21 else 12
  }

  // Steps of the strategy thread only.
  predicate Alone(acts: seq<Action>, longer: seq<Action>) {
    |acts| <= |longer| && longer[..|acts|] == acts && forall k :: |acts| <= k < |longer| ==> longer[k] == Strategy
  }

  lemma StepsCloser(s: State)
    requires Enabled(s, Strategy)
    ensures var t := StrategyStep(s);
            && t.running == s.running && t.toSet == s.toSet
            && t.results.pushed == s.results.pushed && t.orders.pushed == s.orders.pushed
            && (Distance(t) < Distance(s) ||
                (Distance(t) == Distance(s) &&
                 |ResultsInHand(t.pc)| + |OrdersInHand(t.pc)| < |ResultsInHand(s.pc)| + |OrdersInHand(s.pc)|))
            && (t.pc == GoToSleep ==> s.running) && (t.pc == Blocked(false) ==> s.pc.GoToSleep?)
  {
  }

  lemma {:induction false} RunsAlone(start: seq<Action>, acts: seq<Action>, s: State)
    returns (longer: seq<Action>, t: State)
    requires Alone(start, acts) && After(acts) == Some(s) && !s.pc.NotStarted?
    ensures Alone(start, longer) && After(longer) == Some(t) && (t.pc == Blocked(false) || t.pc.Exited?)
    ensures t.running == s.running && t.toSet == s.toSet
    ensures t.results.pushed == s.results.pushed && t.orders.pushed == s.orders.pushed
    ensures !s.running && !s.pc.GoToSleep? && !s.pc.Blocked? ==> t.pc.Exited?
    decreases Distance(s), |ResultsInHand(s.pc)| + |OrdersInHand(s.pc)|
  {
    if !Enabled(s, Strategy) {
      longer, t := acts, s;
    } else {
      StepsCloser(s);
      var next := acts + [Strategy];
      assert next[..|acts|] == acts;
      longer, t := RunsAlone(start, next, StrategyStep(s));
    }
  }

  // Left alone while running, the thread works everything off and falls asleep;
  // left alone after a stop, it leaves.
  lemma LeftAloneItSettles(acts: seq<Action>) returns (longer: seq<Action>, t: State)
    requires After(acts).Some? && !After(acts).value.pc.NotStarted?
    ensures Alone(acts, longer) && After(longer) == Some(t)
    ensures var s := After(acts).value;
            && t.results.pushed == s.results.pushed && t.orders.pushed == s.orders.pushed
            && (s.running ==> t.pc == Blocked(false))
            && (!s.running && !s.pc.GoToSleep? && !s.pc.Blocked? ==> t.pc.Exited?)
            && (s.running && s.toSet == {} && !t.newData ==>
                  t.results.delivered == s.results.pushed && t.orders.delivered == s.orders.pushed)
  {
    longer, t := RunsAlone(acts, acts, After(acts).value);
    if t.pc.Exited? {
      ExitedMeansStopped(longer);
    } else if !t.newData && t.toSet == {} {
      SleepingMeansDrained(longer);
    }
  }
}
