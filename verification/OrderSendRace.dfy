// What an unbalanced authentication kick leads to: exactly then some later
// interleaving rewrites the write buffer during a write.

module OrderSendRace {
  import opened Options
  import opened OrderSendProtocol

  // More steps, without another kick and without a write error.
  predicate Quietly(acts: seq<Action>, longer: seq<Action>) {
    && |acts| <= |longer| && longer[..|acts|] == acts
    && (forall k :: |acts| <= k < |longer| ==> !IsKick(longer[k]) && longer[k] != WriteDone(false))
  }

  // The run goes on from start without a kick or an error and is in state s,
  // between handlers.
  predicate On(start: seq<Action>, acts: seq<Action>, s: State) {
    Quietly(start, acts) && After(acts) == Some(s) && s.authenticated
  }

  // What matters of a state: the flag, how many cancel orders are queued, the
  // tokens of each kind, and whether the buffer was ever rewritten.
  datatype View = View(flag: bool, cancels: nat, posting: nat, posted: nat, inFlight: nat, clobbered: bool)

  function ViewOf(s: State): View {
    View(s.startSending, |s.queues.cancel|, |s.threads.posting|, s.posted, s.inFlight, s.log.clobbered)
  }

  // ------------------------------------------------------------ single steps

  lemma Go(start: seq<Action>, acts: seq<Action>, s: State, a: Action, t: State) returns (longer: seq<Action>)
    requires On(start, acts, s) && Enabled(s, a) && !IsKick(a) && a != WriteDone(false) && t == Step(s, a)
    requires t.authenticated
    ensures On(start, longer, t)
  {
    longer := Extend(acts, s, a, t);
  }

  lemma PushView(s: State, p: nat)
    requires p in s.threads.checked && s.threads.checked[p].kind.Cancel? && |s.queues.cancel| < MAX_QUEUE_SIZE
    ensures var t := PushStep(s, p);
            && ViewOf(t) == ViewOf(s).(cancels := |s.queues.cancel| + 1)
            && t.io == s.io && t.authenticated == s.authenticated
            && p in t.threads.pushed && t.threads.posting == s.threads.posting
  {
  }

  lemma ExchangeView(s: State, p: nat)
    requires p !in s.threads.posting
    ensures var v, t := ViewOf(s), ExchangeStep(s, p);
            && ViewOf(t) == v.(flag := true, posting := if v.flag then v.posting else v.posting + 1)
            && t.io == s.io && t.authenticated == s.authenticated
  {
    if !s.startSending {
      assert |s.threads.posting + {p}| == |s.threads.posting| + 1;
    }
  }

  lemma PostView(s: State, p: nat)
    requires p in s.threads.posting
    ensures var v, t := ViewOf(s), PostStep(s, p);
            && v.posting > 0 && ViewOf(t) == v.(posting := v.posting - 1, posted := v.posted + 1)
            && t.io == s.io && t.authenticated == s.authenticated
  {
    assert |s.threads.posting - {p}| == |s.threads.posting| - 1;
  }

  lemma PopView(s: State)
    requires s.io.PopCancel? && s.queues.cancel != []
    ensures var v, t := ViewOf(s), IoStepOf(s);
            && ViewOf(t) == v.(cancels := v.cancels - 1)
            && t.io == Sending(s.queues.cancel[0]) && t.authenticated == s.authenticated
  {
  }

  lemma SendView(s: State)
    requires s.io.Sending? && !s.io.order.kind.Unknown?
    ensures var v, t := ViewOf(s), IoStepOf(s);
            && ViewOf(t) == v.(inFlight := v.inFlight + 1, clobbered := v.clobbered || v.inFlight > 0)
            && t.io.Idle? && t.authenticated == s.authenticated
  {
  }

  // ------------------------------------------------------- several steps

  lemma {:induction false} Above(xs: set<nat>) returns (p: nat)
    ensures forall x :: x in xs ==> x < p
    decreases |xs|
  {
    if xs == {} {
      p := 0;
    } else {
      var x :| x in xs;
      var q := Above(xs - {x});
      p := if q > x then q else x + 1;
      forall y | y in xs
        ensures y < p
      {
        if y != x {
          assert y in xs - {x};
        }
      }
    }
  }

  // A new thread places a cancel order.
  lemma Place(start: seq<Action>, acts: seq<Action>, s: State) returns (longer: seq<Action>, t: State)
    requires On(start, acts, s) && s.io.Idle? && |s.queues.cancel| < MAX_QUEUE_SIZE
    ensures On(start, longer, t) && t.io.Idle?
    ensures var v := ViewOf(s);
            ViewOf(t) == v.(cancels := v.cancels + 1, flag := true,
                            posting := if v.flag then v.posting else v.posting + 1)
  {
    var order := OrderRequest(0, Cancel, 0);
    var taken := s.threads.checked.Keys + s.threads.pushed + s.threads.posting;
    var p := Above(taken);
    assert p !in taken;
    var s1 := Step(s, PassAuth(p, order));
    longer := Go(start, acts, s, PassAuth(p, order), s1);
    PushView(s1, p);
    var s2 := PushStep(s1, p);
    longer := Go(start, longer, s1, Push(p), s2);
    ExchangeView(s2, p);
    t := ExchangeStep(s2, p);
    longer := Go(start, longer, s2, Exchange(p), t);
  }

  lemma PostOne(start: seq<Action>, acts: seq<Action>, s: State) returns (longer: seq<Action>, t: State)
    requires On(start, acts, s) && s.io.Idle? && ViewOf(s).posting > 0
    ensures On(start, longer, t) && t.io.Idle?
    ensures ViewOf(t) == ViewOf(s).(posting := ViewOf(s).posting - 1, posted := ViewOf(s).posted + 1)
  {
    assert s.threads.posting != {};
    var p :| p in s.threads.posting;
    PostView(s, p);
    t := PostStep(s, p);
    longer := Go(start, acts, s, Post(p), t);
  }

  // A handler that has just started sends the first cancel order.
  lemma SendOne(start: seq<Action>, acts: seq<Action>, s: State) returns (longer: seq<Action>, t: State)
    requires On(start, acts, s) && s.io.PopCancel? && s.queues.cancel != []
    ensures On(start, longer, t) && t.io.Idle?
    ensures var v := ViewOf(s);
            ViewOf(t) == v.(cancels := v.cancels - 1, inFlight := v.inFlight + 1,
                            clobbered := v.clobbered || v.inFlight > 0)
  {
    OnlyKnownOrdersAreSent(acts);
    PopView(s);
    var s1 := IoStepOf(s);
    longer := Go(start, acts, s, IoStep, s1);
    SendView(s1);
    t := IoStepOf(s1);
    longer := Go(start, longer, s1, IoStep, t);
  }

  lemma RunPosted(start: seq<Action>, acts: seq<Action>, s: State) returns (longer: seq<Action>, t: State)
    requires On(start, acts, s) && s.io.Idle? && s.posted > 0 && s.queues.cancel != []
    ensures On(start, longer, t) && t.io.Idle?
    ensures var v := ViewOf(s);
            ViewOf(t) == v.(posted := v.posted - 1, cancels := v.cancels - 1, inFlight := v.inFlight + 1,
                            clobbered := v.clobbered || v.inFlight > 0)
  {
    var s1 := Step(s, StartPosted);
    longer := Go(start, acts, s, StartPosted, s1);
    longer, t := SendOne(start, longer, s1);
  }

  lemma CompleteWrite(start: seq<Action>, acts: seq<Action>, s: State) returns (longer: seq<Action>, t: State)
    requires On(start, acts, s) && s.io.Idle? && s.inFlight > 0 && s.queues.cancel != []
    ensures On(start, longer, t) && t.io.Idle?
    ensures var v := ViewOf(s);
            ViewOf(t) == v.(cancels := v.cancels - 1, clobbered := v.clobbered || v.inFlight > 1)
  {
    var s1 := Step(s, WriteDone(true));
    longer := Go(start, acts, s, WriteDone(true), s1);
    longer, t := SendOne(start, longer, s1);
  }

  // --------------------------------------------------------------- the race

  function TokensIn(v: View): nat { v.posting + v.posted + v.inFlight }

  // Two tokens, one of them a write, and an order to send: it clobbers.
  lemma RaceFromWrite(start: seq<Action>, acts: seq<Action>, s: State) returns (longer: seq<Action>, t: State)
    requires On(start, acts, s) && s.io.Idle? && ViewOf(s).cancels > 0
    requires ViewOf(s).inFlight > 0 && TokensIn(ViewOf(s)) >= 2
    ensures On(start, longer, t) && t.log.clobbered
  {
    if s.posted > 0 {
      longer, t := RunPosted(start, acts, s);
    } else if ViewOf(s).posting > 0 {
      var s1;
      longer, s1 := PostOne(start, acts, s);
      longer, t := RunPosted(start, longer, s1);
    } else {
      longer, t := CompleteWrite(start, acts, s);
    }
  }

  // Some token becomes a write.
  lemma StartWrite(start: seq<Action>, acts: seq<Action>, s: State) returns (longer: seq<Action>, t: State)
    requires On(start, acts, s) && s.io.Idle? && ViewOf(s).cancels > 0
    requires TokensIn(ViewOf(s)) >= 1
    ensures On(start, longer, t) && t.io.Idle?
    ensures var v, w := ViewOf(s), ViewOf(t);
            && w.cancels + 1 == v.cancels && w.inFlight > 0
            && TokensIn(w) == TokensIn(v) && w.flag == v.flag
  {
    if s.inFlight > 0 {
      longer, t := CompleteWrite(start, acts, s);
    } else if s.posted > 0 {
      longer, t := RunPosted(start, acts, s);
    } else {
      var s1;
      longer, s1 := PostOne(start, acts, s);
      longer, t := RunPosted(start, longer, s1);
    }
  }

  lemma RaceFromTwo(start: seq<Action>, acts: seq<Action>, s: State) returns (longer: seq<Action>, t: State)
    requires On(start, acts, s) && s.io.Idle? && ViewOf(s).flag && TokensIn(ViewOf(s)) >= 2
    ensures On(start, longer, t) && t.log.clobbered
  {
    var s1 := s;
    longer := acts;
    if ViewOf(s1).cancels == 0 {
      longer, s1 := Place(start, longer, s1);
    }
    if ViewOf(s1).cancels == 1 {
      longer, s1 := Place(start, longer, s1);
    }
    longer, s1 := StartWrite(start, longer, s1);
    longer, t := RaceFromWrite(start, longer, s1);
  }

  // With a token too many between handlers, the race is always possible.
  lemma RaceFromExcess(start: seq<Action>, acts: seq<Action>, s: State) returns (longer: seq<Action>, t: State)
    requires On(start, acts, s) && s.io.Idle? && Excess(s) >= 1
    ensures On(start, longer, t) && t.log.clobbered
  {
    var s1 := s;
    longer := acts;
    if !ViewOf(s).flag {
      if ViewOf(s).cancels == MAX_QUEUE_SIZE {
        longer, s1 := StartWrite(start, longer, s1);
      }
      QueuesAreBounded(acts);
      longer, s1 := Place(start, longer, s1);
    }
    longer, t := RaceFromTwo(start, longer, s1);
  }

  lemma {:induction false} QueuesAreBounded(acts: seq<Action>)
    requires After(acts).Some?
    ensures |After(acts).value.queues.cancel| <= MAX_QUEUE_SIZE
  {
    if acts != [] {
      var prefix, a := acts[..|acts| - 1], acts[|acts| - 1];
      QueuesAreBounded(prefix);
      QueueStaysBounded(After(prefix).value, a);
    }
  }

  lemma QueueStaysBounded(s: State, a: Action)
    requires Enabled(s, a) && |s.queues.cancel| <= MAX_QUEUE_SIZE
    ensures |Step(s, a).queues.cancel| <= MAX_QUEUE_SIZE
  {
    if a.IoStep? {
      IoKeepsBound(s);
    }
  }

  lemma IoKeepsBound(s: State)
    requires !s.io.Idle? && |s.queues.cancel| <= MAX_QUEUE_SIZE
    ensures |IoStepOf(s).queues.cancel| <= MAX_QUEUE_SIZE
  {
    if !HoldsToken(s.io) {
      RecheckKeepsQueues(s);
    }
  }

  // ------------------------------------------------------ balanced: no race

  lemma NoExcessStep(s: State, a: Action)
    requires Typed(s) && Enabled(s, a) && !IsKick(a) && Excess(s) == 0 && !s.log.clobbered
    ensures Excess(Step(s, a)) <= 0 && !Step(s, a).log.clobbered
  {
    ExcessStep(s, a);
    if a.IoStep? && s.io.Sending? {
      assert s.inFlight == 0;
    }
  }

  lemma {:induction false} NoRaceWithoutExcess(acts: seq<Action>, longer: seq<Action>)
    requires Quietly(acts, longer) && After(longer).Some? && After(acts).Some?
    requires Excess(After(acts).value) == 0 && !After(acts).value.log.clobbered
    ensures Excess(After(longer).value) == 0 && !After(longer).value.log.clobbered
    decreases |longer|
  {
    if |longer| == |acts| {
      assert longer == acts;
    } else {
      var prefix, a := longer[..|longer| - 1], longer[|longer| - 1];
      assert prefix[..|acts|] == acts;
      NoRaceWithoutExcess(acts, prefix);
      OnlyKnownOrdersAreSent(prefix);
      NoExcessStep(After(prefix).value, a);
      TokenAccounting(longer);
    }
  }

  // ---------------------------------------------------------------- exactly

  lemma {:induction false} KickedIsAuthenticated(acts: seq<Action>)
    requires After(acts).Some? && Kicks(acts) > 0
    ensures After(acts).value.authenticated
  {
    var prefix, a := acts[..|acts| - 1], acts[|acts| - 1];
    if Kicks(prefix) > 0 {
      KickedIsAuthenticated(prefix);
    }
    StaysAuthenticated(After(prefix).value, a);
  }

  lemma StaysAuthenticated(s: State, a: Action)
    requires Enabled(s, a) && (s.authenticated || IsKick(a))
    ensures Step(s, a).authenticated
  {
  }

  predicate CanClobber(acts: seq<Action>, longer: seq<Action>) {
    Quietly(acts, longer) && After(longer).Some? && After(longer).value.log.clobbered
  }

  // Between handlers, in every reachable state in which it has not happened
  // yet: the buffer can still be rewritten during a write, without another kick
  // and without a write error, if and only if a kick is unbalanced.
  lemma RaceIff(acts: seq<Action>)
    requires After(acts).Some? && After(acts).value.io.Idle? && !After(acts).value.log.clobbered
    ensures (exists longer :: CanClobber(acts, longer)) <==> Kicks(acts) != UnflaggedEnds(acts)
  {
    var s := After(acts).value;
    TokenAccounting(acts);
    if Kicks(acts) == UnflaggedEnds(acts) {
      forall longer
        ensures !CanClobber(acts, longer)
      {
        if Quietly(acts, longer) && After(longer).Some? {
          NoRaceWithoutExcess(acts, longer);
        }
      }
    } else {
      KickedIsAuthenticated(acts);
      var longer, t := RaceFromExcess(acts, acts, s);
      assert CanClobber(acts, longer);
    }
  }
}
