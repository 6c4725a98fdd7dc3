// The OrderSender object of websocket_client/order_sender.{h,cpp}.  Each method
// here runs without interruption; its contract says which steps of the
// OrderSendProtocol machine that is, so that the run-level results hold of it.

module OrderSender {
  import opened Options
  import opened OrderSendProtocol

  function Rank(pc: IoPc): nat {
    match pc
    case PopCancel => 9
    case PopReplace => 8
    case PopNew => 7
    case ResetFlag => 6
    case CheckCancel => 5
    case CheckReplace => 4
    case CheckNew => 3
    case Sending(_) => 2
    case Rearm => 1
    case Idle => 0
  }

  // The running io handler carried on to its end.
  function RunHandler(s: State): (t: State)
    ensures t.io.Idle?
    decreases Rank(s.io)
  {
    if s.io.Idle? then s else RunHandler(IoStepOf(s))
  }

  // The steps of one placeOrder with no other thread in between.
  function PlaceAlone(s: State, p: nat, order: OrderRequest): State
    requires p !in s.threads.checked && p !in s.threads.pushed && p !in s.threads.posting
  {
    if !s.authenticated then s
    else
      var s1 := PushStep(Step(s, PassAuth(p, order)), p);
      if p !in s1.threads.pushed then s1
      else
        var s2 := ExchangeStep(s1, p);
        if p !in s2.threads.posting then s2 else PostStep(s2, p)
  }

  lemma RankDrops(s: State)
    requires !s.io.Idle?
    ensures Rank(IoStepOf(s).io) < Rank(s.io)
  {
    match s.io {
      case PopCancel => case PopReplace => case PopNew => case Sending(_) => case ResetFlag =>
      case CheckCancel => case CheckReplace => case CheckNew => case Rearm =>
    }
  }

  lemma ExtendByIo(acts: seq<Action>, s: State, t: State) returns (longer: seq<Action>)
    requires After(acts) == Some(s) && !s.io.Idle? && t == IoStepOf(s)
    ensures After(longer) == Some(t) && Kicks(longer) == Kicks(acts)
    ensures NoWriteError(acts) ==> NoWriteError(longer)
  {
    longer := Extend(acts, s, IoStep, t);
  }

  // A whole handler is a run of the machine, so what holds of all runs holds
  // of the object between calls.
  lemma {:induction false} HandlerIsARun(acts: seq<Action>, s: State) returns (longer: seq<Action>)
    requires After(acts) == Some(s)
    ensures After(longer) == Some(RunHandler(s)) && Kicks(longer) == Kicks(acts)
    ensures NoWriteError(acts) ==> NoWriteError(longer)
    decreases Rank(s.io)
  {
    if s.io.Idle? {
      longer := acts;
    } else {
      var t := IoStepOf(s);
      var more := ExtendByIo(acts, s, t);
      RankDrops(s);
      longer := HandlerIsARun(more, t);
    }
  }

  datatype OrderRequestResult = OrderRequestResult(request: OrderRequest, success: bool, retCode: int)

  class OrderSender {
    var authenticated: bool
    var orderQueueCancel: seq<OrderRequest>
    var orderQueueReplace: seq<OrderRequest>
    var orderQueueNew: seq<OrderRequest>
    var startSending: bool
    var writeBuffer: Option<OrderRequest>
    var pendingRequests: map<nat, OrderRequest>
    // The io context: closures posted to it and writes it has not completed.
    var posted: nat
    var inFlight: nat
    ghost var deadEnd: bool
    ghost var log: Log

    // The object between calls, with no thread inside placeOrder.
    ghost function Abs(): State
      reads this
    {
      State(authenticated, startSending, Queues(orderQueueCancel, orderQueueReplace, orderQueueNew),
            Threads(map[], {}, {}), posted, Idle, false, inFlight, writeBuffer, pendingRequests,
            deadEnd, log)
    }

    constructor ()
      ensures Abs() == Init()
    {
      authenticated, startSending, writeBuffer := false, false, None;
      orderQueueCancel, orderQueueReplace, orderQueueNew := [], [], [];
      pendingRequests, posted, inFlight := map[], 0, 0;
      deadEnd, log := false, Log([], [], [], 0, false);
    }

    method PlaceOrder(order: OrderRequest) returns (ok: bool)
      modifies this
      ensures Abs() == PlaceAlone(old(Abs()), 0, order)
      ensures log.accepted == old(log.accepted) + if ok then [order] else []
      ensures ok <==> old(authenticated) && !order.kind.Unknown? &&
                      |Queue(old(Abs()).queues, order.kind)| < MAX_QUEUE_SIZE
    {
      if !authenticated {
        return false;
      }
      ok := false;
      match order.kind {
        case Unknown =>
          return false;
        case Cancel =>
          if |orderQueueCancel| < MAX_QUEUE_SIZE {
            orderQueueCancel := orderQueueCancel + [order];
            ok := true;
          }
        case Replace =>
          if |orderQueueReplace| < MAX_QUEUE_SIZE {
            orderQueueReplace := orderQueueReplace + [order];
            ok := true;
          }
        case New =>
          if |orderQueueNew| < MAX_QUEUE_SIZE {
            orderQueueNew := orderQueueNew + [order];
            ok := true;
          }
      }
      if !ok {
        return false;
      }
      log := log.(accepted := log.accepted + [order]);
      if !startSending {
        startSending := true;
        deadEnd := false;
        posted := posted + 1;
      }
    }

    method SendOrder(order: OrderRequest)
      modifies this
      ensures Abs() == SendStep(old(Abs()), order)
    {
      if order.reqId != 0 {
        pendingRequests := pendingRequests[order.reqId := order];
      }
      if order.kind.Unknown? {
        return;
      }
      writeBuffer := Some(order);
      log := log.(handed := log.handed + [order], clobbered := log.clobbered || inFlight > 0);
      inFlight := inFlight + 1;
    }

    // pop on one of the three queues.
    method Pop(k: RequestType) returns (order: Option<OrderRequest>)
      requires !k.Unknown?
      modifies `orderQueueCancel, `orderQueueReplace, `orderQueueNew
      ensures Queue(old(Abs()).queues, k) == [] ==> order == None && Abs() == old(Abs())
      ensures Queue(old(Abs()).queues, k) != [] ==>
                && order == Some(Queue(old(Abs()).queues, k)[0])
                && Abs() == old(Abs()).(queues := WithoutFirst(old(Abs()).queues, k))
    {
      order := None;
      match k {
        case Cancel =>
          if orderQueueCancel != [] {
            order, orderQueueCancel := Some(orderQueueCancel[0]), orderQueueCancel[1..];
          }
        case Replace =>
          if orderQueueReplace != [] {
            order, orderQueueReplace := Some(orderQueueReplace[0]), orderQueueReplace[1..];
          }
        case New =>
          if orderQueueNew != [] {
            order, orderQueueNew := Some(orderQueueNew[0]), orderQueueNew[1..];
          }
      }
    }

    // One pop of sendNext and, when it yields an order, its sending.
    method SendFrom(k: RequestType) returns (sent: bool)
      requires !k.Unknown?
      modifies this
      ensures var s := old(Abs());
              sent == (Queue(s.queues, k) != []) &&
              Abs() == if sent then SendStep(s.(queues := WithoutFirst(s.queues, k)), Queue(s.queues, k)[0]) else s
    {
      var order := Pop(k);
      sent := order.Some?;
      if sent {
        SendOrder(order.value);
      }
    }

    // The three pops of sendNext.
    method SendUrgent() returns (sent: bool)
      modifies this
      ensures var s, k := old(Abs()), Urgent(old(Abs()).queues);
              sent == !k.Unknown? &&
              Abs() == if sent then SendStep(s.(queues := WithoutFirst(s.queues, k)), Queue(s.queues, k)[0]) else s
    {
      sent := SendFrom(Cancel);
      if sent {
        return;
      }
      sent := SendFrom(Replace);
      if sent {
        return;
      }
      sent := SendFrom(New);
    }

    method SendNext()
      modifies this
      ensures Abs() == RunHandler(old(Abs()).(io := PopCancel))
    {
      RunSendNext(Abs().(io := PopCancel));
      var sent := SendUrgent();
      if sent {
        return;
      }
      ResetAndRecheck();
    }

    // The end of sendNext, on whatever the queues hold by then.
    method ResetAndRecheck()
      modifies this
      ensures Abs() == RunHandler(old(Abs()).(io := ResetFlag))
    {
      RunReset(Abs().(io := ResetFlag));
      startSending := false;
      deadEnd := false;
      if orderQueueCancel != [] || orderQueueReplace != [] || orderQueueNew != [] {
        if !startSending {
          startSending := true;
          posted := posted + 1;
        }
      }
    }

    // The io context runs a posted sendNext.
    method RunPosted()
      requires posted > 0
      modifies this
      ensures Abs() == RunHandler(Step(old(Abs()), StartPosted))
    {
      posted := posted - 1;
      log := Marked(log);
      SendNext();
    }

    method OnWrite(ec: bool)
      requires inFlight > 0
      modifies this
      ensures Abs() == RunHandler(Step(old(Abs()), WriteDone(!ec)))
    {
      inFlight := inFlight - 1;
      if ec {
        startSending := false;
        deadEnd := !AllEmpty(Abs().queues);
        return;
      }
      log := Marked(log);
      SendNext();
    }

    // inKick only records, in the machine, which handler is running.
    method CheckStatus(retCode: int)
      modifies this
      ensures Abs() == RunHandler(Step(old(Abs()), AuthReply(retCode == 0)).(inKick := false))
    {
      if retCode == 0 {
        authenticated := true;
        deadEnd := false;
        log := Marked(log);
        SendNext();
      }
    }

    method HandleOrderResponse(reqId: nat, retCode: int) returns (result: Option<OrderRequestResult>)
      modifies this
      ensures Abs() == Step(old(Abs()), Response(reqId))
      ensures result == if reqId == 0 || reqId !in old(pendingRequests) then None
                        else Some(OrderRequestResult(old(pendingRequests)[reqId], retCode == 0, retCode))
    {
      if reqId == 0 || reqId !in pendingRequests {
        return None;
      }
      result := Some(OrderRequestResult(pendingRequests[reqId], retCode == 0, retCode));
      log := log.(results := log.results + [pendingRequests[reqId]]);
      pendingRequests := pendingRequests - {reqId};
    }
  }

  lemma RunReset(s: State)
    requires s.io.ResetFlag?
    ensures RunHandler(s) ==
            if AllEmpty(s.queues) then s.(startSending := false, deadEnd := false, io := Idle, inKick := false)
            else s.(startSending := true, deadEnd := false, posted := s.posted + 1, io := Idle, inKick := false)
  {
    var s1 := IoStepOf(s);
    var s2 := IoStepOf(s1);
    assert RunHandler(s) == RunHandler(s2);
    if s2.io.Rearm? {
      assert RunHandler(s2) == RearmStep(s2);
    } else {
      RunCheckReplace(s2);
    }
  }

  lemma RunCheckReplace(s: State)
    requires s.io.CheckReplace? && !s.startSending && !s.deadEnd
    ensures RunHandler(s) ==
            if s.queues.replace == [] && s.queues.create == [] then s.(io := Idle, inKick := false)
            else s.(startSending := true, posted := s.posted + 1, io := Idle, inKick := false)
  {
    var s1 := IoStepOf(s);
    if s1.io.Rearm? {
      assert RunHandler(s1) == RearmStep(s1);
    } else if s1.queues.create != [] {
      assert RunHandler(s1) == RunHandler(s1.(io := Rearm)) == RearmStep(s1);
    } else {
      assert RunHandler(s1) == IoStepOf(s1);
    }
  }

  lemma RunSending(s: State, order: OrderRequest, t: State)
    requires t.io == Sending(order) && s == t.(io := s.io)
    ensures RunHandler(t) == SendStep(s, order)
  {
    assert IoStepOf(t).io.Idle?;
  }

  // The most urgent kind of order that is queued, Unknown if none is.
  function Urgent(q: Queues): RequestType {
    if q.cancel != [] then Cancel else if q.replace != [] then Replace
    else if q.create != [] then New else Unknown
  }

  function WithoutFirst(q: Queues, k: RequestType): Queues
    requires Queue(q, k) != []
  {
    SetQueue(q, k, Queue(q, k)[1..])
  }

  // One undisturbed sendNext sends the front of the most urgent nonempty
  // queue; with all queues empty it drops the flag and rechecks.
  lemma RunSendNext(s: State)
    requires s.io.PopCancel?
    ensures var k := Urgent(s.queues);
            RunHandler(s) ==
            if k.Unknown? then RunHandler(s.(io := ResetFlag))
            else SendStep(s.(queues := WithoutFirst(s.queues, k)), Queue(s.queues, k)[0])
  {
    var k := Urgent(s.queues);
    var s1 := IoStepOf(s);
    if k.Cancel? {
      RunSending(s.(queues := WithoutFirst(s.queues, k)), s.queues.cancel[0], s1);
      return;
    }
    var s2 := IoStepOf(s1);
    if k.Replace? {
      RunSending(s.(queues := WithoutFirst(s.queues, k)), s.queues.replace[0], s2);
      return;
    }
    RunPopNew(s2, s);
  }

  lemma RunPopNew(t: State, s: State)
    requires t.io.PopNew? && t == s.(io := PopNew)
    ensures RunHandler(t) ==
            if s.queues.create == []
            then RunHandler(s.(io := ResetFlag))
            else SendStep(s.(queues := WithoutFirst(s.queues, New)), s.queues.create[0])
  {
    var t1 := IoStepOf(t);
    if s.queues.create != [] {
      RunSending(s.(queues := WithoutFirst(s.queues, New)), s.queues.create[0], t1);
    } else {
      assert t1 == s.(io := ResetFlag);
    }
  }
}
