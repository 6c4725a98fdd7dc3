// The order-send protocol of websocket_client/order_sender.cpp as a state
// machine.  Any number of threads may be inside placeOrder; one io thread runs
// one handler at a time.  Every access to shared state is a step of its own, so
// a run of the machine is an interleaving under sequential consistency.

module OrderSendProtocol {

  import opened Options

  datatype RequestType = Unknown | Cancel | Replace | New

  // body stands for the fields that the protocol only carries along.
  datatype OrderRequest = OrderRequest(reqId: nat, kind: RequestType, body: nat)

  const MAX_QUEUE_SIZE: nat := 1000

  // Where the io thread is.  The Pop states, Sending and ResetFlag are inside
  // sendNext before the flag is dropped; the Check states and Rearm follow it.
  datatype IoPc =
    | Idle
    | PopCancel
    | PopReplace
    | PopNew
    | Sending(order: OrderRequest)
    | ResetFlag
    | CheckCancel
    | CheckReplace
    | CheckNew
    | Rearm

  // Inside sendNext or sendOrder, before the flag is dropped.
  predicate HoldsToken(pc: IoPc) {
    pc.PopCancel? || pc.PopReplace? || pc.PopNew? || pc.Sending? || pc.ResetFlag?
  }

  datatype Queues = Queues(
    cancel: seq<OrderRequest>, replace: seq<OrderRequest>, create: seq<OrderRequest>)

  // Threads inside placeOrder: past the authentication test with their order;
  // between the push and the exchange; past a won exchange, before the post.
  datatype Threads = Threads(checked: map<nat, OrderRequest>, pushed: set<nat>, posting: set<nat>)

  // What has happened so far: successful pushes, orders given to the socket,
  // requests reported to the result callback; how many orders were accepted
  // when the running sendNext began; whether write_buffer_ was ever rewritten
  // during a write.
  datatype Log = Log(
    accepted: seq<OrderRequest>, handed: seq<OrderRequest>, results: seq<OrderRequest>,
    mark: nat, clobbered: bool)

  datatype State = State(
    authenticated: bool,
    startSending: bool,
    queues: Queues,
    threads: Threads,
    posted: nat,         // sendNext closures waiting in the io context
    io: IoPc,
    inKick: bool,        // the running handler is checkStatus
    inFlight: nat,       // async writes not yet completed
    writeBuffer: Option<OrderRequest>,
    pending: map<nat, OrderRequest>,
    deadEnd: bool,       // a write error left orders queued, nothing started since
    log: Log)

  function Init(): State {
    State(false, false, Queues([], [], []), Threads(map[], {}, {}), 0, Idle, false, 0, None, map[],
          false, Log([], [], [], 0, false))
  }

  datatype Action =
    | PassAuth(thread: nat, order: OrderRequest)
    | Push(thread: nat)
    | Exchange(thread: nat)
    | Post(thread: nat)
    | StartPosted
    | IoStep
    | WriteDone(ok: bool)
    | AuthReply(ok: bool)
    | Response(reqId: nat)

  predicate Enabled(s: State, a: Action) {
    match a
    case PassAuth(p, _) =>
      s.authenticated && p !in s.threads.checked && p !in s.threads.pushed && p !in s.threads.posting
    case Push(p) => p in s.threads.checked
    case Exchange(p) => p in s.threads.pushed
    case Post(p) => p in s.threads.posting
    case StartPosted => s.io.Idle? && s.posted > 0
    case IoStep => !s.io.Idle?
    case WriteDone(_) => s.io.Idle? && s.inFlight > 0
    case AuthReply(_) => s.io.Idle?
    case Response(_) => s.io.Idle?
  }

  function Queue(q: Queues, k: RequestType): seq<OrderRequest> {
    match k
    case Cancel => q.cancel
    case Replace => q.replace
    case New => q.create
    case Unknown => []
  }

  function SetQueue(q: Queues, k: RequestType, orders: seq<OrderRequest>): Queues {
    match k
    case Cancel => q.(cancel := orders)
    case Replace => q.(replace := orders)
    case New => q.(create := orders)
    case Unknown => q
  }

  function Enqueue(q: Queues, order: OrderRequest): Queues {
    SetQueue(q, order.kind, Queue(q, order.kind) + [order])
  }

  predicate AllEmpty(q: Queues) {
    q.cancel == [] && q.replace == [] && q.create == []
  }

  // bounded_push into the queue of the order's type.
  function PushStep(s: State, p: nat): State
    requires p in s.threads.checked
  {
    var order := s.threads.checked[p];
    var checked := s.threads.checked - {p};
    if order.kind.Unknown? || |Queue(s.queues, order.kind)| >= MAX_QUEUE_SIZE then
      s.(threads := s.threads.(checked := checked))
    else
      s.(queues := Enqueue(s.queues, order),
         threads := s.threads.(checked := checked, pushed := s.threads.pushed + {p}),
         log := s.log.(accepted := s.log.accepted + [order]))
  }

  function ExchangeStep(s: State, p: nat): State {
    var pushed := s.threads.pushed - {p};
    if s.startSending then s.(threads := s.threads.(pushed := pushed))
    else
      s.(startSending := true, deadEnd := false,
         threads := s.threads.(pushed := pushed, posting := s.threads.posting + {p}))
  }

  function PostStep(s: State, p: nat): State {
    s.(threads := s.threads.(posting := s.threads.posting - {p}), posted := s.posted + 1)
  }

  function Marked(log: Log): Log { log.(mark := |log.accepted|) }

  function PopStep(s: State, k: RequestType, onEmpty: IoPc): State {
    var q := Queue(s.queues, k);
    if q == [] then s.(io := onEmpty)
    else s.(queues := SetQueue(s.queues, k, q[1..]), io := Sending(q[0]))
  }

  // sendOrder; its default branch returns without starting a write.
  function SendStep(s: State, order: OrderRequest): State {
    var pending := if order.reqId != 0 then s.pending[order.reqId := order] else s.pending;
    if order.kind.Unknown? then s.(pending := pending, io := Idle, inKick := false)
    else
      s.(pending := pending, writeBuffer := Some(order), inFlight := s.inFlight + 1,
         io := Idle, inKick := false,
         log := s.log.(handed := s.log.handed + [order],
                       clobbered := s.log.clobbered || s.inFlight > 0))
  }

  function CheckStep(s: State, k: RequestType, onEmpty: IoPc): State {
    if Queue(s.queues, k) != [] then s.(io := Rearm)
    else s.(io := onEmpty, inKick := s.inKick && !onEmpty.Idle?)
  }

  function RearmStep(s: State): State {
    if s.startSending then s.(io := Idle, inKick := false)
    else s.(startSending := true, posted := s.posted + 1, deadEnd := false, io := Idle, inKick := false)
  }

  function SendNextStep(s: State): State
    requires HoldsToken(s.io)
  {
    match s.io
    case PopCancel => PopStep(s, Cancel, PopReplace)
    case PopReplace => PopStep(s, Replace, PopNew)
    case PopNew => PopStep(s, New, ResetFlag)
    case Sending(order) => SendStep(s, order)
    case ResetFlag => s.(startSending := false, deadEnd := false, io := CheckCancel)
  }

  function RecheckStep(s: State): State
    requires !s.io.Idle? && !HoldsToken(s.io)
  {
    match s.io
    case CheckCancel => CheckStep(s, Cancel, CheckReplace)
    case CheckReplace => CheckStep(s, Replace, CheckNew)
    case CheckNew => CheckStep(s, New, Idle)
    case Rearm => RearmStep(s)
  }

  function IoStepOf(s: State): State
    requires !s.io.Idle?
  {
    if HoldsToken(s.io) then SendNextStep(s) else RecheckStep(s)
  }

  function WriteDoneStep(s: State, ok: bool): State
    requires s.inFlight > 0
  {
    if ok then s.(inFlight := s.inFlight - 1, io := PopCancel, log := Marked(s.log))
    else s.(inFlight := s.inFlight - 1, startSending := false, deadEnd := !AllEmpty(s.queues))
  }

  function AuthReplyStep(s: State, ok: bool): State {
    if ok then
      s.(authenticated := true, inKick := true, deadEnd := false, io := PopCancel, log := Marked(s.log))
    else s
  }

  function ResponseStep(s: State, id: nat): State {
    if id == 0 || id !in s.pending then s
    else
      s.(pending := s.pending - {id}, log := s.log.(results := s.log.results + [s.pending[id]]))
  }

  function Step(s: State, a: Action): State
    requires Enabled(s, a)
  {
    match a
    case PassAuth(p, order) => s.(threads := s.threads.(checked := s.threads.checked[p := order]))
    case Push(p) => PushStep(s, p)
    case Exchange(p) => ExchangeStep(s, p)
    case Post(p) => PostStep(s, p)
    case StartPosted => s.(posted := s.posted - 1, io := PopCancel, log := Marked(s.log))
    case IoStep => IoStepOf(s)
    case WriteDone(ok) => WriteDoneStep(s, ok)
    case AuthReply(ok) => AuthReplyStep(s, ok)
    case Response(id) => ResponseStep(s, id)
  }

  // The state after a sequence of actions, if each was possible when it was taken.
  function After(acts: seq<Action>): Option<State> {
    if acts == [] then Some(Init())
    else
      var before := After(acts[..|acts| - 1]);
      var a := acts[|acts| - 1];
      if before.Some? && Enabled(before.value, a) then Some(Step(before.value, a)) else None
  }

  // ---------------------------------------------------------------- tokens

  function B(b: bool): int { if b then 1 else 0 }

  // The licences to send that exist: posts not yet made or not yet run, the
  // running sendNext until it drops the flag, and unfinished writes.
  function Tokens(s: State): int {
    |s.threads.posting| + s.posted + B(HoldsToken(s.io)) + s.inFlight
  }

  // Tokens that the flag does not account for.
  function Excess(s: State): int {
    Tokens(s) - B(s.startSending)
  }

  // A successful authentication starts a sendNext without taking the flag.
  predicate IsKick(a: Action) { a == AuthReply(true) }

  // A token ends while the flag is already down.
  predicate EndsUnflagged(s: State, a: Action) {
    !s.startSending && ((a.IoStep? && s.io.ResetFlag?) || a == WriteDone(false))
  }

  predicate AllOfKind(q: seq<OrderRequest>, k: RequestType) {
    forall i :: 0 <= i < |q| ==> q[i].kind == k
  }

  predicate ThreadsApart(t: Threads) {
    && t.pushed !! t.posting && t.checked.Keys !! t.pushed && t.checked.Keys !! t.posting
  }

  predicate Typed(s: State) {
    && AllOfKind(s.queues.cancel, Cancel)
    && AllOfKind(s.queues.replace, Replace)
    && AllOfKind(s.queues.create, New)
    && (s.io.Sending? ==> !s.io.order.kind.Unknown?)
    && ThreadsApart(s.threads)
  }

  lemma TypedSendNext(s: State)
    requires Typed(s) && HoldsToken(s.io)
    ensures Typed(SendNextStep(s))
  {
  }

  lemma TypedRecheck(s: State)
    requires Typed(s) && !s.io.Idle? && !HoldsToken(s.io)
    ensures Typed(RecheckStep(s))
  {
  }

  lemma TypedStep(s: State, a: Action)
    requires Typed(s) && Enabled(s, a)
    ensures Typed(Step(s, a))
  {
    if !a.IoStep? {
    } else if HoldsToken(s.io) {
      TypedSendNext(s);
    } else {
      TypedRecheck(s);
    }
  }

  // The default branch of sendOrder, which would drop the token, is never taken.
  lemma {:induction false} OnlyKnownOrdersAreSent(acts: seq<Action>)
    requires After(acts).Some?
    ensures Typed(After(acts).value)
  {
    if acts != [] {
      OnlyKnownOrdersAreSent(acts[..|acts| - 1]);
      TypedStep(After(acts[..|acts| - 1]).value, acts[|acts| - 1]);
    }
  }

  lemma ExcessPop(s: State)
    requires Typed(s) && (s.io.PopCancel? || s.io.PopReplace? || s.io.PopNew?)
    ensures Excess(SendNextStep(s)) == Excess(s)
  {
  }

  lemma ExcessSendNext(s: State)
    requires Typed(s) && HoldsToken(s.io)
    ensures Excess(SendNextStep(s)) == Excess(s) - B(EndsUnflagged(s, IoStep))
  {
    if !s.io.Sending? && !s.io.ResetFlag? {
      ExcessPop(s);
    }
  }

  lemma ExcessRearm(s: State)
    requires s.io.Rearm?
    ensures Excess(RearmStep(s)) == Excess(s)
  {
  }

  lemma ExcessRecheck(s: State)
    requires !s.io.Idle? && !HoldsToken(s.io)
    ensures Excess(RecheckStep(s)) == Excess(s)
  {
    match s.io {
      case CheckCancel =>
      case CheckReplace =>
      case CheckNew =>
      case Rearm => ExcessRearm(s);
    }
  }

  lemma ExcessIo(s: State)
    requires Typed(s) && !s.io.Idle?
    ensures Excess(IoStepOf(s)) == Excess(s) - B(EndsUnflagged(s, IoStep))
  {
    if HoldsToken(s.io) {
      ExcessSendNext(s);
    } else {
      ExcessRecheck(s);
    }
  }

  // The steps of a placeOrder.
  predicate OfThread(a: Action) { a.PassAuth? || a.Push? || a.Exchange? || a.Post? }

  lemma ExcessExchange(s: State, p: nat)
    requires p !in s.threads.posting
    ensures Excess(ExchangeStep(s, p)) == Excess(s)
  {
    if !s.startSending {
      assert |s.threads.posting + {p}| == |s.threads.posting| + 1;
    }
  }

  lemma ExcessPost(s: State, p: nat)
    requires p in s.threads.posting
    ensures Excess(PostStep(s, p)) == Excess(s)
  {
    assert |s.threads.posting - {p}| == |s.threads.posting| - 1;
  }

  lemma ExcessThread(s: State, a: Action)
    requires Typed(s) && Enabled(s, a) && OfThread(a)
    ensures Excess(Step(s, a)) == Excess(s)
  {
    if a.Exchange? {
      ExcessExchange(s, a.thread);
    } else if a.Post? {
      ExcessPost(s, a.thread);
    }
  }

  // The io thread starts a handler.
  lemma ExcessHandler(s: State, a: Action)
    requires Typed(s) && Enabled(s, a) && !OfThread(a) && !a.IoStep?
    ensures Excess(Step(s, a)) == Excess(s) + B(IsKick(a)) - B(EndsUnflagged(s, a))
  {
  }

  lemma ExcessStep(s: State, a: Action)
    requires Typed(s) && Enabled(s, a)
    ensures Excess(Step(s, a)) == Excess(s) + B(IsKick(a)) - B(EndsUnflagged(s, a))
  {
    if a.IoStep? {
      ExcessIo(s);
    } else if OfThread(a) {
      ExcessThread(s, a);
    } else {
      ExcessHandler(s, a);
    }
  }

  function Kicks(acts: seq<Action>): nat {
    if acts == [] then 0 else Kicks(acts[..|acts| - 1]) + B(IsKick(acts[|acts| - 1]))
  }

  function UnflaggedEnds(acts: seq<Action>): nat
    requires After(acts).Some?
  {
    if acts == [] then 0
    else
      UnflaggedEnds(acts[..|acts| - 1]) +
      B(EndsUnflagged(After(acts[..|acts| - 1]).value, acts[|acts| - 1]))
  }

  // In every interleaving the flag, when up, is backed by a token, and the
  // tokens beyond the flag are exactly the kicks that no unflagged end has
  // balanced yet.
  lemma {:induction false} TokenAccounting(acts: seq<Action>)
    requires After(acts).Some?
    ensures Excess(After(acts).value) == Kicks(acts) - UnflaggedEnds(acts)
    ensures Excess(After(acts).value) >= 0
  {
    if acts != [] {
      var prefix, a := acts[..|acts| - 1], acts[|acts| - 1];
      var s := After(prefix).value;
      TokenAccounting(prefix);
      OnlyKnownOrdersAreSent(prefix);
      ExcessStep(s, a);
    }
  }

  // One token at most, and the flag says whether it exists.
  predicate SingleFlight(s: State) {
    Tokens(s) <= 1 && (s.startSending <==> Tokens(s) == 1)
  }

  // Exactly when the flag is trustworthy: every kick so far has been balanced
  // by a token that ended with the flag down.
  lemma {:induction false} SingleFlightIff(acts: seq<Action>)
    requires After(acts).Some?
    ensures SingleFlight(After(acts).value) <==> Kicks(acts) == UnflaggedEnds(acts)
  {
    TokenAccounting(acts);
  }

  // ------------------------------------------------- the authentication kick

  // One successful authentication per connection, and no thread gets past the
  // authentication test of placeOrder while its handler is still running.
  predicate KickIsolated(acts: seq<Action>)
    requires After(acts).Some?
  {
    acts == [] ||
    (var prefix, a := acts[..|acts| - 1], acts[|acts| - 1];
     && KickIsolated(prefix)
     && (IsKick(a) ==> !After(prefix).value.authenticated)
     && (a.PassAuth? ==> !After(prefix).value.inKick))
  }

  predicate NothingStarted(s: State) {
    && AllEmpty(s.queues) && !s.startSending
    && s.threads.checked == map[] && s.threads.pushed == {} && s.threads.posting == {}
    && s.posted == 0 && s.inFlight == 0
  }

  predicate IsolatedInv(s: State) {
    && (!s.authenticated ==> NothingStarted(s) && s.io.Idle? && !s.inKick)
    && (s.inKick ==> NothingStarted(s) && !s.io.Idle? && !s.io.Sending? && !s.io.Rearm?)
    && (!s.inKick ==> Excess(s) == 0)
    && !s.log.clobbered
  }

  lemma IsolatedStep(s: State, a: Action)
    requires Typed(s) && IsolatedInv(s) && Enabled(s, a)
    requires IsKick(a) ==> !s.authenticated
    requires a.PassAuth? ==> !s.inKick
    ensures IsolatedInv(Step(s, a))
  {
    ExcessStep(s, a);
    if a.IoStep? && s.io.Sending? && !s.inKick {
      assert s.inFlight == 0;
    }
  }

  lemma {:induction false} IsolatedRun(acts: seq<Action>)
    requires After(acts).Some? && KickIsolated(acts)
    ensures IsolatedInv(After(acts).value)
  {
    if acts != [] {
      var prefix := acts[..|acts| - 1];
      IsolatedRun(prefix);
      OnlyKnownOrdersAreSent(prefix);
      IsolatedStep(After(prefix).value, acts[|acts| - 1]);
    }
  }

  // With the kick isolated there is never a second token, the flag is up
  // exactly while one exists (outside the kick itself), and write_buffer_ is
  // never rewritten under an unfinished write, write errors included.
  lemma {:induction false} SingleFlightWhenKickIsolated(acts: seq<Action>)
    requires After(acts).Some? && KickIsolated(acts)
    ensures var s := After(acts).value;
            && Tokens(s) <= 1
            && (!s.inKick ==> SingleFlight(s))
            && (s.inKick ==> Tokens(s) == B(HoldsToken(s.io)) && AllEmpty(s.queues))
            && !s.log.clobbered
  {
    IsolatedRun(acts);
  }

  lemma Extend(acts: seq<Action>, s: State, a: Action, t: State) returns (longer: seq<Action>)
    requires After(acts) == Some(s) && Enabled(s, a) && t == Step(s, a)
    ensures longer == acts + [a] && After(longer) == Some(t)
    ensures Kicks(longer) == Kicks(acts) + B(IsKick(a))
    ensures NoWriteError(acts) && a != WriteDone(false) ==> NoWriteError(longer)
  {
    longer := acts + [a];
    assert longer[..|acts|] == acts;
  }

  // Without that hypothesis the code does rewrite the buffer during a write:
  // the kick takes one order, and the sendNext that placeOrder posted
  // meanwhile takes another before the first write has completed.
  const KickRace: seq<Action> := [
    AuthReply(true),
    PassAuth(1, OrderRequest(1, Cancel, 0)), Push(1), PassAuth(2, OrderRequest(2, Cancel, 0)), Push(2), Exchange(1),
    IoStep, IoStep, Post(1), StartPosted, IoStep, IoStep]

  lemma KickRaceClobbersBuffer()
    ensures After(KickRace).Some? && After(KickRace).value.log.clobbered
    ensures Kicks(KickRace) == 1 && NoWriteError(KickRace)
  {
    var acts, s9 := KickRaceGoesOn();
    var s10 := Step(s9, StartPosted);
    var s11 := Step(s10, IoStep);
    acts := Extend(acts, s9, StartPosted, s10);
    acts := Extend(acts, s10, IoStep, s11);
    acts := Extend(acts, s11, IoStep, Step(s11, IoStep));
    assert acts == KickRace;
  }

  lemma KickRaceGoesOn() returns (acts: seq<Action>, s: State)
    ensures acts == KickRace[..9] && After(acts) == Some(s) && Kicks(acts) == 1 && NoWriteError(acts)
    ensures s.io.Idle? && s.posted == 1 && s.inFlight == 1
    ensures s.queues == Queues([OrderRequest(2, Cancel, 0)], [], [])
  {
    var s6;
    acts, s6 := KickRaceBegins();
    var s7 := Step(s6, IoStep);
    var s8 := Step(s7, IoStep);
    s := Step(s8, Post(1));
    acts := Extend(acts, s6, IoStep, s7);
    acts := Extend(acts, s7, IoStep, s8);
    acts := Extend(acts, s8, Post(1), s);
  }

  lemma KickRaceBegins() returns (acts: seq<Action>, s: State)
    ensures acts == KickRace[..6] && After(acts) == Some(s) && Kicks(acts) == 1 && NoWriteError(acts)
    ensures s.io.PopCancel? && s.startSending && s.threads.posting == {1} && s.posted == 0 && s.inFlight == 0
    ensures s.queues == Queues([OrderRequest(1, Cancel, 0), OrderRequest(2, Cancel, 0)], [], [])
  {
    var s5;
    acts, s5 := KickRaceSecondOrder();
    s := Step(s5, Exchange(1));
    assert s.threads.posting == {1};
    acts := Extend(acts, s5, Exchange(1), s);
  }

  lemma KickRaceSecondOrder() returns (acts: seq<Action>, s: State)
    ensures acts == KickRace[..5] && After(acts) == Some(s) && Kicks(acts) == 1 && NoWriteError(acts)
    ensures s.io.PopCancel? && !s.startSending && s.posted == 0 && s.inFlight == 0
    ensures 1 in s.threads.pushed && s.threads.posting == {}
    ensures s.queues == Queues([OrderRequest(1, Cancel, 0), OrderRequest(2, Cancel, 0)], [], [])
  {
    var two := OrderRequest(2, Cancel, 0);
    var s3;
    acts, s3 := KickRaceFirstOrder();
    var s4 := Step(s3, PassAuth(2, two));
    acts := Extend(acts, s3, PassAuth(2, two), s4);
    s := Step(s4, Push(2));
    acts := Extend(acts, s4, Push(2), s);
  }

  lemma KickRaceFirstOrder() returns (acts: seq<Action>, s: State)
    ensures acts == KickRace[..3] && After(acts) == Some(s) && Kicks(acts) == 1 && NoWriteError(acts)
    ensures s.authenticated && s.io.PopCancel? && !s.startSending && s.posted == 0 && s.inFlight == 0
    ensures s.threads == Threads(map[], {1}, {})
    ensures s.queues == Queues([OrderRequest(1, Cancel, 0)], [], [])
  {
    var one := OrderRequest(1, Cancel, 0);
    var s1 := Step(Init(), AuthReply(true));
    var s2 := Step(s1, PassAuth(1, one));
    s := Step(s2, Push(1));
    acts := Extend([], Init(), AuthReply(true), s1);
    acts := Extend(acts, s1, PassAuth(1, one), s2);
    acts := Extend(acts, s2, Push(1), s);
  }

  // ------------------------------------------------------------ no stranding

  predicate StillToCheck(pc: IoPc, k: RequestType) {
    match pc
    case CheckCancel => true
    case CheckReplace => !k.Cancel?
    case CheckNew => k.New?
    case Rearm => true
    case _ => false
  }

  predicate Attended(s: State, k: RequestType) {
    Queue(s.queues, k) != [] ==>
      Tokens(s) > 0 || s.threads.pushed != {} || StillToCheck(s.io, k) || s.deadEnd
  }

  predicate AttendedInv(s: State) {
    && Attended(s, Cancel) && Attended(s, Replace) && Attended(s, New)
    && (s.deadEnd && Tokens(s) == 0 ==> !AllEmpty(s.queues) && s.io.Idle?)
  }

  lemma AttendedIo(s: State)
    requires Typed(s) && Excess(s) >= 0 && AttendedInv(s) && !s.io.Idle?
    ensures AttendedInv(IoStepOf(s))
  {
    ExcessIo(s);
    if HoldsToken(s.io) && !s.io.ResetFlag? {
      assert IoStepOf(s).startSending == s.startSending;
      assert Tokens(IoStepOf(s)) > 0;
    } else if !s.io.ResetFlag? {
      RecheckKeepsQueues(s);
    }
  }

  lemma AttendedOther(s: State, a: Action)
    requires Typed(s) && Excess(s) >= 0 && AttendedInv(s) && Enabled(s, a)
    requires !a.IoStep? && !a.Push?
    ensures AttendedInv(Step(s, a))
  {
    ExcessStep(s, a);
  }

  lemma AttendedPush(s: State, p: nat)
    requires Typed(s) && AttendedInv(s) && p in s.threads.checked
    ensures AttendedInv(PushStep(s, p))
  {
    if PushStep(s, p).log != s.log {
      assert p in PushStep(s, p).threads.pushed;
    }
  }

  lemma AttendedStep(s: State, a: Action)
    requires Typed(s) && Excess(s) >= 0 && AttendedInv(s) && Enabled(s, a)
    ensures AttendedInv(Step(s, a))
  {
    if a.IoStep? {
      AttendedIo(s);
    } else if a.Push? {
      AttendedPush(s, a.thread);
    } else {
      AttendedOther(s, a);
    }
  }

  lemma {:induction false} AttendedRun(acts: seq<Action>)
    requires After(acts).Some?
    ensures AttendedInv(After(acts).value)
  {
    if acts != [] {
      var prefix := acts[..|acts| - 1];
      AttendedRun(prefix);
      OnlyKnownOrdersAreSent(prefix);
      TokenAccounting(prefix);
      AttendedStep(After(prefix).value, acts[|acts| - 1]);
    }
  }

  // No placeOrder between its push and its post, nothing posted, no handler
  // running and no write unfinished.
  predicate Quiescent(s: State) {
    s.io.Idle? && s.threads.pushed == {} && Tokens(s) == 0
  }

  // In every interleaving, with or without the kick hypothesis: at rest the
  // queues are empty unless a write error gave up while orders were queued.
  lemma {:induction false} NoOrderStranded(acts: seq<Action>)
    requires After(acts).Some? && Quiescent(After(acts).value)
    ensures AllEmpty(After(acts).value.queues) <==> !After(acts).value.deadEnd
  {
    AttendedRun(acts);
  }

  predicate NoWriteError(acts: seq<Action>) {
    WriteDone(false) !in acts
  }

  lemma {:induction false} NoDeadEndWithoutError(acts: seq<Action>)
    requires After(acts).Some? && NoWriteError(acts)
    ensures !After(acts).value.deadEnd
  {
    if acts != [] {
      var prefix := acts[..|acts| - 1];
      assert acts[|acts| - 1] in acts;
      NoDeadEndWithoutError(prefix);
    }
  }

  lemma {:induction false} NoOrderStrandedWithoutError(acts: seq<Action>)
    requires After(acts).Some? && Quiescent(After(acts).value) && NoWriteError(acts)
    ensures AllEmpty(After(acts).value.queues)
  {
    NoOrderStranded(acts);
    NoDeadEndWithoutError(acts);
  }

  // ------------------------------------------------- exactly once, in order

  function OfKind(s: seq<OrderRequest>, k: RequestType): seq<OrderRequest> {
    if s == [] then []
    else
      var rest := OfKind(s[..|s| - 1], k);
      if s[|s| - 1].kind == k then rest + [s[|s| - 1]] else rest
  }

  lemma OfKindSnoc(s: seq<OrderRequest>, r: OrderRequest, k: RequestType)
    ensures OfKind(s + [r], k) == if r.kind == k then OfKind(s, k) + [r] else OfKind(s, k)
  {
    assert (s + [r])[..|s|] == s;
  }

  lemma {:induction false} OfKindPrefix(s: seq<OrderRequest>, n: nat, k: RequestType)
    requires n <= |s|
    ensures OfKind(s[..n], k) <= OfKind(s, k)
  {
    if n < |s| {
      OfKindPrefix(s[..|s| - 1], n, k);
      assert s[..|s| - 1][..n] == s[..n];
    } else {
      assert s[..n] == s;
    }
  }

  function InHand(s: State, k: RequestType): seq<OrderRequest> {
    if s.io.Sending? && s.io.order.kind == k then [s.io.order] else []
  }

  predicate Conserved(s: State, k: RequestType) {
    OfKind(s.log.accepted, k) == OfKind(s.log.handed, k) + InHand(s, k) + Queue(s.queues, k)
  }

  lemma ConservedPop(s: State, popped: RequestType, onEmpty: IoPc, k: RequestType)
    requires AllOfKind(Queue(s.queues, popped), popped) && !popped.Unknown? && !k.Unknown?
    requires !s.io.Sending? && !onEmpty.Sending? && Conserved(s, k)
    ensures Conserved(PopStep(s, popped, onEmpty), k)
  {
    var q := Queue(s.queues, popped);
    if q != [] {
      assert q[0].kind == popped;
      assert q == [q[0]] + q[1..];
    }
  }

  lemma ConservedSend(s: State, k: RequestType)
    requires s.io.Sending? && !s.io.order.kind.Unknown? && Conserved(s, k)
    ensures Conserved(SendStep(s, s.io.order), k)
  {
    OfKindSnoc(s.log.handed, s.io.order, k);
  }

  lemma ConservedIo(s: State, k: RequestType)
    requires Typed(s) && !s.io.Idle? && Conserved(s, k) && !k.Unknown?
    ensures Conserved(IoStepOf(s), k)
  {
    if s.io.PopCancel? {
      ConservedPop(s, Cancel, PopReplace, k);
    } else if s.io.PopReplace? {
      ConservedPop(s, Replace, PopNew, k);
    } else if s.io.PopNew? {
      ConservedPop(s, New, ResetFlag, k);
    } else if s.io.Sending? {
      ConservedSend(s, k);
    } else if !s.io.ResetFlag? {
      RecheckKeepsQueues(s);
    }
  }

  lemma RecheckKeepsQueues(s: State)
    requires !s.io.Idle? && !HoldsToken(s.io)
    ensures RecheckStep(s).queues == s.queues && RecheckStep(s).log == s.log
    ensures !HoldsToken(RecheckStep(s).io)
  {
    match s.io {
      case CheckCancel =>
      case CheckReplace =>
      case CheckNew =>
      case Rearm =>
    }
  }

  lemma ConservedEnqueue(s: State, t: State, order: OrderRequest, k: RequestType)
    requires Conserved(s, k) && !k.Unknown? && t.io == s.io && t.log.handed == s.log.handed
    requires t.log.accepted == s.log.accepted + [order] && t.queues == Enqueue(s.queues, order)
    ensures Conserved(t, k)
  {
    OfKindSnoc(s.log.accepted, order, k);
    if order.kind == k {
      assert Queue(t.queues, k) == Queue(s.queues, k) + [order];
    } else {
      assert Queue(t.queues, k) == Queue(s.queues, k);
    }
  }

  lemma ConservedPush(s: State, p: nat, k: RequestType)
    requires p in s.threads.checked && Conserved(s, k) && !k.Unknown?
    ensures Conserved(PushStep(s, p), k)
  {
    if PushStep(s, p).log != s.log {
      ConservedEnqueue(s, PushStep(s, p), s.threads.checked[p], k);
    }
  }

  lemma OthersMoveNoOrder(s: State, a: Action)
    requires Enabled(s, a) && !a.IoStep? && !a.Push?
    ensures var t := Step(s, a);
            && t.queues == s.queues && t.log.accepted == s.log.accepted && t.log.handed == s.log.handed
            && (t.io == s.io || (s.io.Idle? && t.io.PopCancel?))
  {
  }

  lemma ConservedStep(s: State, a: Action, k: RequestType)
    requires Typed(s) && Enabled(s, a) && Conserved(s, k) && !k.Unknown?
    ensures Conserved(Step(s, a), k)
  {
    if a.IoStep? {
      ConservedIo(s, k);
    } else if a.Push? {
      ConservedPush(s, a.thread, k);
    } else {
      OthersMoveNoOrder(s, a);
    }
  }

  // Per class, the accepted orders are the orders handed to the socket, then
  // the one being sent, then the queue: nothing lost, repeated or reordered.
  lemma {:induction false} ExactlyOnceInOrder(acts: seq<Action>, k: RequestType)
    requires After(acts).Some? && !k.Unknown?
    ensures Conserved(After(acts).value, k)
  {
    if acts != [] {
      var prefix := acts[..|acts| - 1];
      ExactlyOnceInOrder(prefix, k);
      OnlyKnownOrdersAreSent(prefix);
      ConservedStep(After(prefix).value, acts[|acts| - 1], k);
    }
  }

  // The io thread has, in the running sendNext, found the queue of kind k empty.
  predicate PassedOver(pc: IoPc, k: RequestType) {
    match k
    case Cancel =>
      pc.PopReplace? || pc.PopNew? || (pc.Sending? && (pc.order.kind.Replace? || pc.order.kind.New?))
    case Replace => pc.PopNew? || (pc.Sending? && pc.order.kind.New?)
    case _ => false
  }

  predicate MarkedHanded(s: State, k: RequestType) {
    s.log.mark <= |s.log.accepted| &&
    (PassedOver(s.io, k) ==> OfKind(s.log.accepted[..s.log.mark], k) <= OfKind(s.log.handed, k))
  }

  lemma MarkedHandedPop(s: State, popped: RequestType, onEmpty: IoPc, k: RequestType)
    requires AllOfKind(Queue(s.queues, popped), popped) && Conserved(s, k) && MarkedHanded(s, k)
    requires !s.io.Sending? && !popped.Unknown? && !k.Unknown?
    requires PassedOver(onEmpty, k) ==> PassedOver(s.io, k) || k == popped
    requires PassedOver(Sending(OrderRequest(0, popped, 0)), k) ==> PassedOver(s.io, k)
    ensures MarkedHanded(PopStep(s, popped, onEmpty), k)
  {
    var q := Queue(s.queues, popped);
    if q != [] {
      assert q[0].kind == popped;
    } else {
      OfKindPrefix(s.log.accepted, s.log.mark, k);
    }
  }

  lemma MarkedHandedIo(s: State, k: RequestType)
    requires Typed(s) && !s.io.Idle? && !k.Unknown? && Conserved(s, k) && MarkedHanded(s, k)
    ensures MarkedHanded(IoStepOf(s), k)
  {
    if s.io.PopCancel? {
      MarkedHandedPop(s, Cancel, PopReplace, k);
    } else if s.io.PopReplace? {
      MarkedHandedPop(s, Replace, PopNew, k);
    } else if s.io.PopNew? {
      MarkedHandedPop(s, New, ResetFlag, k);
    } else if s.io.Sending? {
      assert IoStepOf(s).io.Idle?;
    } else if !s.io.ResetFlag? {
      RecheckKeepsQueues(s);
    }
  }

  lemma MarkedHandedStep(s: State, a: Action, k: RequestType)
    requires Typed(s) && Enabled(s, a) && !k.Unknown? && Conserved(s, k) && MarkedHanded(s, k)
    ensures MarkedHanded(Step(s, a), k)
  {
    if a.IoStep? {
      MarkedHandedIo(s, k);
    } else if a.Push? {
      assert PushStep(s, a.thread).log.accepted[..s.log.mark] == s.log.accepted[..s.log.mark];
    }
  }

  lemma {:induction false} MarkedHandedRun(acts: seq<Action>, k: RequestType)
    requires After(acts).Some? && !k.Unknown?
    ensures MarkedHanded(After(acts).value, k)
  {
    if acts != [] {
      var prefix := acts[..|acts| - 1];
      MarkedHandedRun(prefix, k);
      OnlyKnownOrdersAreSent(prefix);
      ExactlyOnceInOrder(prefix, k);
      MarkedHandedStep(After(prefix).value, acts[|acts| - 1], k);
    }
  }

  // Priority: an order about to be sent never overtakes an order of a more
  // urgent class that was accepted before the running sendNext began.
  lemma NoOvertaking(acts: seq<Action>)
    requires After(acts).Some? && After(acts).value.io.Sending?
    ensures var s := After(acts).value;
            && s.log.mark <= |s.log.accepted|
            && (!s.io.order.kind.Cancel? ==>
                  OfKind(s.log.accepted[..s.log.mark], Cancel) <= OfKind(s.log.handed, Cancel))
            && (s.io.order.kind.New? ==>
                  OfKind(s.log.accepted[..s.log.mark], Replace) <= OfKind(s.log.handed, Replace))
  {
    OnlyKnownOrdersAreSent(acts);
    MarkedHandedRun(acts, Cancel);
    MarkedHandedRun(acts, Replace);
  }

  // ------------------------------------------------------- pending requests

  function LastWithId(s: seq<OrderRequest>, id: nat): Option<OrderRequest> {
    if s == [] then None
    else if s[|s| - 1].reqId == id then Some(s[|s| - 1])
    else LastWithId(s[..|s| - 1], id)
  }

  function CountId(s: seq<OrderRequest>, id: nat): nat {
    if s == [] then 0 else CountId(s[..|s| - 1], id) + B(s[|s| - 1].reqId == id)
  }

  lemma WithIdSnoc(s: seq<OrderRequest>, r: OrderRequest, id: nat)
    ensures LastWithId(s + [r], id) == if r.reqId == id then Some(r) else LastWithId(s, id)
    ensures CountId(s + [r], id) == CountId(s, id) + B(r.reqId == id)
  {
    assert (s + [r])[..|s|] == s;
  }

  // An outstanding id maps to the latest request handed to the socket under
  // it, and there are never more results than requests.
  predicate PendingInv(s: State, id: nat) {
    && (id in s.pending ==> id != 0 && LastWithId(s.log.handed, id) == Some(s.pending[id]))
    && CountId(s.log.results, id) + B(id in s.pending) <= CountId(s.log.handed, id)
  }

  predicate PendingKeyed(s: State) {
    forall i :: i in s.pending ==> s.pending[i].reqId == i
  }

  lemma KeyedSend(s: State, order: OrderRequest)
    requires s.io == Sending(order) && PendingKeyed(s)
    ensures PendingKeyed(SendStep(s, order))
  {
  }

  lemma PendingSend(s: State, order: OrderRequest, id: nat)
    requires s.io == Sending(order) && !order.kind.Unknown? && PendingInv(s, id)
    ensures PendingInv(SendStep(s, order), id)
  {
    WithIdSnoc(s.log.handed, order, id);
  }

  lemma PendingResponse(s: State, got: nat, id: nat)
    requires PendingInv(s, id) && PendingKeyed(s)
    ensures PendingInv(ResponseStep(s, got), id) && PendingKeyed(ResponseStep(s, got))
  {
    if got in s.pending {
      WithIdSnoc(s.log.results, s.pending[got], id);
    }
  }

  lemma PendingIo(s: State, id: nat)
    requires Typed(s) && !s.io.Idle? && PendingInv(s, id) && PendingKeyed(s)
    ensures PendingInv(IoStepOf(s), id) && PendingKeyed(IoStepOf(s))
  {
    if s.io.Sending? {
      PendingSend(s, s.io.order, id);
      KeyedSend(s, s.io.order);
    } else {
      assert IoStepOf(s).pending == s.pending && IoStepOf(s).log == s.log;
    }
  }

  lemma PendingStep(s: State, a: Action, id: nat)
    requires Typed(s) && Enabled(s, a) && PendingInv(s, id) && PendingKeyed(s)
    ensures PendingInv(Step(s, a), id) && PendingKeyed(Step(s, a))
  {
    if a.IoStep? {
      PendingIo(s, id);
    } else if a.Response? {
      PendingResponse(s, a.reqId, id);
    } else {
      var t := Step(s, a);
      assert t.pending == s.pending && t.log.handed == s.log.handed && t.log.results == s.log.results;
    }
  }

  lemma {:induction false} PendingRun(acts: seq<Action>, id: nat)
    requires After(acts).Some?
    ensures PendingInv(After(acts).value, id) && PendingKeyed(After(acts).value)
  {
    if acts != [] {
      var prefix := acts[..|acts| - 1];
      PendingRun(prefix, id);
      OnlyKnownOrdersAreSent(prefix);
      PendingStep(After(prefix).value, acts[|acts| - 1], id);
    }
  }

  // A response to an outstanding id reports the request last sent under that
  // id; any other response reports nothing.
  lemma {:induction false} ResponseMatchesRequest(acts: seq<Action>, id: nat)
    requires After(acts).Some? && Enabled(After(acts).value, Response(id))
    ensures var s := After(acts).value; var t := Step(s, Response(id));
            if id in s.pending
            then LastWithId(s.log.handed, id).Some? && id !in t.pending &&
                 t.log.results == s.log.results + [LastWithId(s.log.handed, id).value]
            else t == s
  {
    PendingRun(acts, id);
  }
}
