// What the writes carry: the content of the write buffer, when it is filled and
// when a write completes; which ids wait for a response; and when orders are let in.

module OrderSendWire {
  import opened Options
  import opened OrderSendProtocol

  // ------------------------------------------------------------- the buffer

  predicate BufferIsLast(s: State) {
    s.writeBuffer == if s.log.handed == [] then None else Some(s.log.handed[|s.log.handed| - 1])
  }

  lemma BufferStep(s: State, a: Action)
    requires Enabled(s, a) && BufferIsLast(s) && (s.io.Sending? ==> !s.io.order.kind.Unknown?)
    ensures BufferIsLast(Step(s, a))
  {
    if a.IoStep? {
      BufferIo(s);
    }
  }

  lemma BufferIo(s: State)
    requires !s.io.Idle? && BufferIsLast(s) && (s.io.Sending? ==> !s.io.order.kind.Unknown?)
    ensures BufferIsLast(IoStepOf(s))
  {
    if !s.io.Sending? {
      assert IoStepOf(s).writeBuffer == s.writeBuffer && IoStepOf(s).log == s.log;
    }
  }

  // In every interleaving the buffer holds the order handed over last, and
  // nothing before the first.
  lemma {:induction false} BufferHoldsLastHanded(acts: seq<Action>)
    requires After(acts).Some?
    ensures BufferIsLast(After(acts).value)
  {
    if acts != [] {
      var prefix := acts[..|acts| - 1];
      BufferHoldsLastHanded(prefix);
      OnlyKnownOrdersAreSent(prefix);
      BufferStep(After(prefix).value, acts[|acts| - 1]);
    }
  }

  // --------------------------------------------------------------- the writes

  // What the buffer held each time a write completed.
  function Completed(acts: seq<Action>): seq<Option<OrderRequest>>
    requires After(acts).Some?
  {
    if acts == [] then []
    else
      var prefix, a := acts[..|acts| - 1], acts[|acts| - 1];
      Completed(prefix) + if a.WriteDone? then [After(prefix).value.writeBuffer] else []
  }

  function Contents(orders: seq<OrderRequest>): (cs: seq<Option<OrderRequest>>)
    ensures |cs| == |orders|
  {
    seq(|orders|, k requires 0 <= k < |orders| => Some(orders[k]))
  }

  // The completed writes carried the handed orders, all but those unfinished.
  predicate WritesOk(s: State, done: seq<Option<OrderRequest>>) {
    && |done| + s.inFlight == |s.log.handed|
    && done == Contents(s.log.handed)[..|done|]
  }

  lemma WritesIo(s: State, done: seq<Option<OrderRequest>>)
    requires !s.io.Idle? && WritesOk(s, done) && (s.io.Sending? ==> !s.io.order.kind.Unknown?)
    ensures WritesOk(IoStepOf(s), done)
  {
    if s.io.Sending? {
      var handed := s.log.handed + [s.io.order];
      assert Contents(handed)[..|done|] == Contents(s.log.handed)[..|done|];
    } else {
      assert IoStepOf(s).inFlight == s.inFlight && IoStepOf(s).log == s.log;
    }
  }

  lemma WritesDone(s: State, ok: bool, done: seq<Option<OrderRequest>>)
    requires s.inFlight == 1 && WritesOk(s, done) && BufferIsLast(s)
    ensures WritesOk(WriteDoneStep(s, ok), done + [s.writeBuffer])
  {
    var n := |s.log.handed|;
    assert Contents(s.log.handed)[..n] == Contents(s.log.handed)[..n - 1] + [Contents(s.log.handed)[n - 1]];
  }

  lemma WritesOther(s: State, a: Action, done: seq<Option<OrderRequest>>)
    requires Enabled(s, a) && !a.IoStep? && !a.WriteDone? && WritesOk(s, done)
    ensures WritesOk(Step(s, a), done)
  {
    if !a.Push? {
      OthersMoveNoOrder(s, a);
    }
    assert Step(s, a).inFlight == s.inFlight && Step(s, a).log.handed == s.log.handed;
  }

  lemma {:induction false} WritesRun(acts: seq<Action>)
    requires After(acts).Some? && KickIsolated(acts)
    ensures WritesOk(After(acts).value, Completed(acts))
  {
    if acts != [] {
      var prefix, a := acts[..|acts| - 1], acts[|acts| - 1];
      var s := After(prefix).value;
      WritesRun(prefix);
      OnlyKnownOrdersAreSent(prefix);
      if a.IoStep? {
        WritesIo(s, Completed(prefix));
      } else if a.WriteDone? {
        SingleFlightWhenKickIsolated(prefix);
        BufferHoldsLastHanded(prefix);
        WritesDone(s, a.ok, Completed(prefix));
      } else {
        WritesOther(s, a, Completed(prefix));
      }
    }
  }

  // With the kick isolated, each write carries its own order until it ends: the
  // buffer contents at the ends of the writes are the handed orders, in order
  // and each once, and the one that may be unfinished is still in the buffer.
  lemma {:induction false} WritesCarryTheirOrders(acts: seq<Action>)
    requires After(acts).Some? && KickIsolated(acts)
    ensures var s, done := After(acts).value, Completed(acts);
            if s.inFlight == 0 then done == Contents(s.log.handed)
            else s.inFlight == 1 && done + [s.writeBuffer] == Contents(s.log.handed)
  {
    WritesRun(acts);
    SingleFlightWhenKickIsolated(acts);
    BufferHoldsLastHanded(acts);
    AllButUnfinished(After(acts).value, Completed(acts));
  }

  lemma AllButUnfinished(s: State, done: seq<Option<OrderRequest>>)
    requires WritesOk(s, done) && BufferIsLast(s) && s.inFlight <= 1
    ensures if s.inFlight == 0 then done == Contents(s.log.handed)
            else done + [s.writeBuffer] == Contents(s.log.handed)
  {
    var all, n := Contents(s.log.handed), |done|;
    if s.inFlight == 0 {
      assert all[..n] == all;
    } else {
      assert all == all[..n] + [all[n]];
    }
  }

  // ---------------------------------------------------------- outstanding ids

  // The request last sent under an id, unless it was answered since.
  function Outstanding(acts: seq<Action>, id: nat): Option<OrderRequest>
    requires After(acts).Some?
  {
    if acts == [] then None
    else
      var prefix, a := acts[..|acts| - 1], acts[|acts| - 1];
      var io := After(prefix).value.io;
      if a.IoStep? && io.Sending? && io.order.reqId == id && id != 0 then Some(io.order)
      else if a == Response(id) then None
      else Outstanding(prefix, id)
  }

  function PendingAt(s: State, id: nat): Option<OrderRequest> {
    if id in s.pending then Some(s.pending[id]) else None
  }

  lemma PendingMoves(s: State, a: Action, id: nat)
    requires Enabled(s, a) && 0 !in s.pending
    ensures PendingAt(Step(s, a), id) ==
            if a.IoStep? && s.io.Sending? && s.io.order.reqId == id && id != 0 then Some(s.io.order)
            else if a == Response(id) then None
            else PendingAt(s, id)
    ensures 0 !in Step(s, a).pending
  {
    if a.IoStep? && !s.io.Sending? {
      assert IoStepOf(s).pending == s.pending;
    }
  }

  // Exactly the ids sent and not answered since are outstanding.
  lemma {:induction false} PendingIsOutstanding(acts: seq<Action>, id: nat)
    requires After(acts).Some?
    ensures PendingAt(After(acts).value, id) == Outstanding(acts, id) && 0 !in After(acts).value.pending
  {
    if acts != [] {
      var prefix := acts[..|acts| - 1];
      PendingIsOutstanding(prefix, id);
      PendingMoves(After(prefix).value, acts[|acts| - 1], id);
    }
  }

  // --------------------------------------------------------- authentication

  lemma OnlyRepliesAuthenticate(s: State, a: Action)
    requires Enabled(s, a)
    ensures Step(s, a).authenticated == (s.authenticated || a == AuthReply(true))
  {
    if a.IoStep? {
      assert IoStepOf(s).authenticated == s.authenticated;
    }
  }

  // Orders are let in exactly after a successful authentication.
  lemma {:induction false} AuthenticatedIff(acts: seq<Action>)
    requires After(acts).Some?
    ensures After(acts).value.authenticated <==> AuthReply(true) in acts
  {
    if acts != [] {
      var prefix, a := acts[..|acts| - 1], acts[|acts| - 1];
      AuthenticatedIff(prefix);
      OnlyRepliesAuthenticate(After(prefix).value, a);
      assert acts == prefix + [a];
    }
  }
}
