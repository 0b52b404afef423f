/** Sessions over whole runs: wake-ups, the send watchdog, generations, and shutting down. */
module Sessions {
  import opened Wire
  import opened IoContext
  import opened Engine
  import opened Actors
  import opened Delivery

  // ---- Wake-ups ----

  /** An unlimited sleep is a sleep over an empty deque. */
  predicate Attentive(s: State) {
    s.io.invoker.waits > 0 && s.io.invoker.expiry == Infinite ==> s.store.deque == []
  }

  /** Sleeping without a limit happens only when there is nothing to send. */
  lemma AwaitAttends(io: Io, now: nat, delay: Option<nat>, next: Option<Flight>)
    requires io.invoker.waits > 0 && io.invoker.expiry == Infinite ==> next.None?
    ensures var k := io.Await(now, delay, next).invoker;
            k.waits > 0 && k.expiry == Infinite ==> next.None?
  {
  }

  lemma StartActorsAttends(io: Io, now: nat, watched: bool, next: Option<Flight>)
    requires io.invoker.waits > 0 && io.invoker.expiry == Infinite ==> next.None?
    ensures var k := io.StartActors(now, watched, next).invoker;
            k.waits > 0 && k.expiry == Infinite ==> next.None?
  {
    AwaitAttends(io, now, None, next);
    hide Io.Await;
  }

  lemma SendDoneAttends(s: State, f: Flight, result: SendResult)
    requires DequeKnown(s.store) && f.id < |s.store.log| && Attentive(s)
    ensures Attentive(HandleSend(s, f, result))
  {
    var a := Account(s, f, result);
    hide AfterSend, Signalled;
    AwaitAttends(a.io, a.now, if result == Failed(NoBufferSpace) then Some(RETRY_DELAY) else None,
                 Next(PopIfComplete(a, f.id)));
    hide Io.Await;
  }

  lemma StartSessionAttends(s: State)
    requires DequeKnown(s.store) && Attentive(s)
    ensures Attentive(StartSession(s))
  {
    var s1 := TurnReady(s);
    StartActorsAttends(s1.io, s1.now, s1.mode == Client, Next(s1));
    hide Io.StartActors;
  }

  lemma StartersAttend(s: State, ok: bool, opening: Opening)
    requires DequeKnown(s.store) && Attentive(s)
    ensures Attentive(HandleConnectDone(s, ok)) && Attentive(HandleBind(s, opening))
  {
    StartSessionAttends(s);
    StartSessionAttends(s.(io := s.io.Replaced(0), bound := true));
    hide StartSession;
  }

  lemma OthersAttend(s: State, t: Task, opening: Opening)
    requires Attentive(s)
    ensures t.Push? ==> Attentive(HandlePush(s, FreshEntry(t.kind, t.body, t.to, t.callback)))
    ensures t.ReceiveDone? ==> Attentive(HandleReceive(s, t.datagram))
    ensures Attentive(HandleClose(s)) && Attentive(HandleConnect(s, opening)) && Attentive(CheckSendDeadline(s))
  {
    hide Io.Leftovers;
  }

  lemma RunKeepsAttention(s: State, opening: Opening)
    requires Known(s) && s.io.queue != [] && Attentive(s)
    ensures Attentive(Apply(s, Run(opening)))
  {
    var t, s' := s.io.queue[0], TakeFront(s);
    hide HandlePush, HandleClose, HandleConnect, HandleBind, AwaitSendEntry, HandleSend, HandleConnectDone, CheckSendDeadline, HandleReceive;
    match t {
      case SendDone(flight, result) => SendDoneAttends(s', flight, result);
      case ConnectDone(ok) => StartersAttend(s', ok, opening);
      case Bind => StartersAttend(s', true, opening);
      case Wake => WakeAttends(s');
      case _ => OthersAttend(s', t, opening);
    }
  }

  lemma WakeAttends(s: State)
    requires DequeKnown(s.store) && Attentive(s)
    ensures Attentive(AwaitSendEntry(s, None))
  {
    AwaitAttends(s.io, s.now, None, Next(s));
    hide Io.Await;
  }

  lemma StepKeepsAttention(s: State, ev: Event)
    requires Known(s) && Enabled(s, ev) && Attentive(s)
    ensures Attentive(Apply(s, ev))
  {
    if ev.Run? {
      RunKeepsAttention(s, ev.opening);
    }
  }

  // ---- Watchdog ----

  /** While a session runs, every send in play is one of this session, and the watchdog's
      timer is exactly the send's start plus the deadline, or unlimited when no send is in
      play or the send was started by `start_actors`. */
  predicate Watched(s: State) {
    && (forall f <- InPlay(s.io) :: f.startedAt <= s.now)
    && (s.io.Running() ==>
          && (forall f <- InPlay(s.io) :: f.session == s.generation)
          && (InPlay(s.io) == [] ==> !s.blind)
          && s.io.deadline.expiry ==
               if InPlay(s.io) == [] || s.blind then Infinite
               else At(InPlay(s.io)[0].startedAt + SEND_DEADLINE))
  }

  predicate SameWatch(io: Io, io': Io) {
    InPlay(io') == InPlay(io) && io'.deadline.expiry == io.deadline.expiry && (io'.Running() ==> io.Running())
  }

  lemma QuietlyWatched(s: State, s': State)
    requires Watched(s) && SameWatch(s.io, s'.io)
    requires s'.now >= s.now && s'.generation == s.generation && s'.blind == s.blind
    ensures Watched(s')
  {
  }

  lemma NoSendInPlay(mode: Mode, io: Io, owe: Debt)
    requires owe.sender && Live(mode, io, owe)
    ensures InPlay(io) == []
  {
    LandedCounted(io.queue);
  }

  /** A sender that goes on, and a start with a socket, find no send in play. */
  predicate Vacant(s: State) {
    s.io.queue != [] ==>
      var t := s.io.queue[0];
      RoleOf(t) == Sender || (RoleOf(t) == Starter && (s.io.socket.Some? || t.Bind?)) ==> InPlay(Rest(s.io)) == []
  }

  lemma NoWaitPending(s: State)
    requires OneOfEach(s) && s.io.queue != []
    requires RoleOf(s.io.queue[0]) == Sender || RoleOf(s.io.queue[0]) == Starter
    ensures s.io.invoker.waits == 0 && InPlay(Rest(s.io)) == []
  {
    FrontPays(s.mode, s.io);
    hide OneOfEach;
    NoSendInPlay(s.mode, Rest(s.io), DebtOf(RoleOf(s.io.queue[0])));
  }

  /** The sender goes on with no send in play. */
  lemma AwaitWatched(s: State, delay: Option<nat>)
    requires DequeKnown(s.store) && InPlay(s.io) == [] && !s.blind
    requires s.io.Running() ==> s.io.deadline.expiry == Infinite
    ensures Watched(AwaitSendEntry(s, delay))
  {
    AwaitMoves(s.io, s.now, delay, Next(s));
  }

  lemma StartSessionWatched(s: State)
    requires DequeKnown(s.store) && Watched(s) && (s.io.socket.Some? ==> InPlay(s.io) == [])
    ensures Watched(StartSession(s))
  {
    var s1 := TurnReady(s);
    StartActorsMoves(s1.io, s1.now, s1.mode == Client, Next(s1));
    NextIsFront(s1);
    StartActorsDisarms(s1.io, s1.now, s1.mode == Client, Next(s1));
    hide Io.StartActors;
  }

  lemma StartActorsDisarms(io: Io, now: nat, watched: bool, next: Option<Flight>)
    ensures io.StartActors(now, watched, next).deadline.expiry == Infinite
    ensures io.StartActors(now, watched, next).Running() == io.Running()
  {
  }

  lemma CloseWatched(s: State)
    requires Watched(s)
    ensures Watched(HandleClose(s))
  {
    if s.io.socket.Some? {
      ClosedMoves(s.io);
      hide Io.Leftovers;
    }
  }

  lemma OpeningWatched(s: State, opening: Opening)
    requires Watched(s)
    ensures Watched(HandleConnect(s, opening))
  {
    if s.io.socket.None? {
      ReplacedMoves(s.io, 0);
      ReplacedMoves(s.io, 1);
    }
  }

  lemma BindWatched(s: State, opening: Opening)
    requires Watched(s) && s.io.socket.None? && DequeKnown(s.store) && InPlay(s.io) == []
    ensures Watched(HandleBind(s, opening))
  {
    ReplacedMoves(s.io, 0);
    if opening.Open? {
      hide StartSession, Watched;
      StartSessionWatched(s.(io := s.io.Replaced(0), bound := true));
    }
  }

  lemma SendDoneWatched(s: State, f: Flight, result: SendResult)
    requires DequeKnown(s.store) && f.id < |s.store.log| && InPlay(s.io) == []
    ensures Watched(HandleSend(s, f, result))
  {
    var a := Account(s, f, result);
    SetDeadlineMoves(s.io, Infinite);
    PostMoves(a.io, Close);
    hide Watched, AfterSend, Signalled, Io.Await;
    if ClosesSession(s.mode, result) {
      NothingInPlay(a.(io := a.io.Post(Close)));
    } else {
      AwaitWatched(PopIfComplete(a, f.id), if result == Failed(NoBufferSpace) then Some(RETRY_DELAY) else None);
    }
  }

  lemma NothingInPlay(s: State)
    requires InPlay(s.io) == [] && !s.blind && s.io.deadline.expiry == Infinite
    ensures Watched(s)
  {
  }

  lemma TakeFrontWatched(s: State)
    requires Watched(s) && s.io.queue != [] && !s.io.queue[0].SendDone?
    ensures Watched(TakeFront(s))
  {
    assert Landed(s.io.queue) == Landed(s.io.queue[1..]);
  }

  lemma WakeWatched(s: State)
    requires DequeKnown(s.store) && Watched(s) && InPlay(s.io) == []
    ensures Watched(AwaitSendEntry(s, None))
  {
    if s.io.Running() { AwaitWatched(s, None); }
  }

  lemma ConnectDoneWatched(s: State, ok: bool)
    requires DequeKnown(s.store) && Watched(s) && (s.io.socket.Some? && ok ==> InPlay(s.io) == [])
    ensures Watched(HandleConnectDone(s, ok))
  {
    if ok { StartSessionWatched(s); }
    hide StartSession, InPlay;
  }

  lemma PlainWatched(s: State, e: Entry, datagram: Option<Datagram>)
    requires Watched(s)
    ensures Watched(HandlePush(s, e)) && Watched(CheckSendDeadline(s)) && Watched(HandleReceive(s, datagram))
  {
    SetInvokerMoves(s.io, At(s.now));
    CheckMoves(s.io, s.now);
    ReceiveMoves(s.io);
    hide InPlay, ReportsOf;
  }

  lemma RunKeepsWatch(s: State, opening: Opening)
    requires Known(s) && s.io.queue != [] && OneSender(s) && Vacant(s) && Watched(s)
    ensures Watched(Apply(s, Run(opening)))
  {
    var t, s' := s.io.queue[0], TakeFront(s);
    if !t.SendDone? { TakeFrontWatched(s); }
    hide Watched, InPlay, HandlePush, HandleClose, HandleConnect, HandleBind, AwaitSendEntry, HandleSend, HandleConnectDone, CheckSendDeadline, HandleReceive;
    match t {
      case Push(kind, body, to, callback) =>
        PlainWatched(s', FreshEntry(kind, body, to, callback), None);
      case Close => CloseWatched(s');
      case Connect => OpeningWatched(s', opening);
      case Bind => BindWatched(s', opening);
      case Wake => WakeWatched(s');
      case SendDone(flight, result) => SendDoneWatched(s', flight, result);
      case ConnectDone(ok) => ConnectDoneWatched(s', ok);
      case DeadlineWake => PlainWatched(s', FreshEntry(UserData, [], None, false), None);
      case ReceiveDone(datagram) => PlainWatched(s', FreshEntry(UserData, [], None, false), datagram);
    }
  }

  lemma StepKeepsWatch(s: State, ev: Event)
    requires Known(s) && Enabled(s, ev) && OneSender(s) && Vacant(s) && Watched(s)
    ensures Watched(Apply(s, ev))
  {
    hide OneSender, Vacant, Watched, Apply;
    match ev {
      case Run(opening) => RunKeepsWatch(s, opening);
      case Restart => RestartWatched(s);
      case _ => ElsewhereWatched(s, ev);
    }
  }

  lemma RestartWatched(s: State)
    requires Known(s) && Enabled(s, Restart)
    ensures Watched(Apply(s, Restart))
  {
    LandedNone(FreshIo(Server).queue);
  }

  lemma ElsewhereWatched(s: State, ev: Event)
    requires Known(s) && Enabled(s, ev) && Watched(s) && !ev.Run? && !ev.Restart?
    ensures Watched(Apply(s, ev))
  {
    StepMoves(s, ev);
    hide InPlay;
    QuietlyWatched(s, Apply(s, ev));
  }

  // ---- What handlers append to the queue ----

  /** An aborted completion, a wake-up, or a request to close: nothing that opens a socket or
      starts a session, and no send but aborted ones. */
  predicate Modest(t: Task) {
    || (Actor(t) && (t.SendDone? ==> t.result == Failed(OperationAborted)))
    || t.Close? || t == ConnectDone(false)
  }

  /** Only modest tasks were appended. */
  predicate Extends(q: seq<Task>, q': seq<Task>) {
    && |q| <= |q'| && q'[..|q|] == q
    && forall i :: |q| <= i < |q'| ==> Modest(q'[i])
  }

  lemma ExtendsTransitive(a: seq<Task>, b: seq<Task>, c: seq<Task>)
    requires Extends(a, b) && Extends(b, c)
    ensures Extends(a, c)
  {
    assert c[..|a|] == c[..|b|][..|a|];
    forall i | |a| <= i < |c| ensures Modest(c[i]) {
      if i < |b| { assert c[i] == c[..|b|][i]; }
    }
  }

  lemma AwaitExtends(io: Io, now: nat, delay: Option<nat>, next: Option<Flight>)
    ensures Extends(io.queue, io.Await(now, delay, next).queue)
  {
  }

  lemma StartActorsExtends(io: Io, now: nat, watched: bool, next: Option<Flight>)
    ensures Extends(io.queue, io.StartActors(now, watched, next).queue)
  {
    AwaitExtends(io, now, None, next);
    var io1 := io.Await(now, None, next);
    hide Io.Await;
    var io2 := io1.SetDeadline(Infinite);
    ExtendsTransitive(io.queue, io1.queue, io2.queue);
    ExtendsTransitive(io.queue, io2.queue, io2.Check(now).queue);
  }

  lemma StartSessionExtends(s: State)
    requires DequeKnown(s.store)
    ensures Extends(s.io.queue, StartSession(s).io.queue)
  {
    var s1 := TurnReady(s);
    StartActorsExtends(s1.io, s1.now, s1.mode == Client, Next(s1));
    hide Io.StartActors;
  }

  lemma LeftoversAborted(io: Io)
    ensures forall t <- io.Leftovers() :: t.SendDone? ==> t.result == Failed(OperationAborted)
  {
  }

  lemma LeftoversExtend(io: Io)
    requires io.socket.Some?
    ensures Extends(io.queue, io.Closed().queue)
  {
    LeftoverCounts(io);
    LeftoversAborted(io);
    forall i | |io.queue| <= i < |io.Closed().queue| ensures Modest(io.Closed().queue[i]) {
      assert io.Closed().queue[i] == io.Leftovers()[i - |io.queue|];
      assert io.Closed().queue[i] in io.Leftovers();
    }
    hide Io.Leftovers;
  }

  lemma BindExtends(s: State, opening: Opening)
    requires DequeKnown(s.store)
    ensures Extends(s.io.queue, HandleBind(s, opening).io.queue)
  {
    var s1 := s.(io := s.io.Replaced(0), bound := true);
    assert Extends(s.io.queue, s1.io.queue) by { hide AbortedOperations; AbortsAreModest(s.io.socket); }
    StartSessionExtends(s1);
    hide StartSession, Extends;
    if opening.Open? { ExtendsTransitive(s.io.queue, s1.io.queue, HandleBind(s, opening).io.queue); }
  }

  lemma AbortsAreModest(socket: Option<Socket>)
    ensures forall i :: 0 <= i < |AbortedOperations(socket)| ==> Modest(AbortedOperations(socket)[i])
  {
  }

  lemma SendDoneExtends(s: State, f: Flight, result: SendResult)
    requires DequeKnown(s.store) && f.id < |s.store.log|
    ensures Extends(s.io.queue, HandleSend(s, f, result).io.queue)
  {
    var a := Account(s, f, result);
    hide AfterSend, Signalled;
    if ClosesSession(s.mode, result) {
      ExtendsTransitive(s.io.queue, a.io.queue, a.io.Post(Close).queue);
    } else {
      var p, delay := PopIfComplete(a, f.id), if result == Failed(NoBufferSpace) then Some(RETRY_DELAY) else None;
      AwaitExtends(a.io, a.now, delay, Next(p));
      ExtendsTransitive(s.io.queue, a.io.queue, a.io.Await(a.now, delay, Next(p)).queue);
      hide Io.Await;
    }
  }

  lemma ConnectExtends(s: State, opening: Opening)
    ensures Extends(s.io.queue, HandleConnect(s, opening).io.queue)
  {
    if s.io.socket.None? {
      assert s.io.queue + AbortedOperations(s.io.socket) == s.io.queue;
    }
  }

  lemma CloseExtends(s: State)
    ensures Extends(s.io.queue, HandleClose(s).io.queue)
  {
    if s.io.socket.Some? { LeftoversExtend(s.io); }
    hide Io.Closed;
  }

  lemma ConnectDoneExtends(s: State, ok: bool)
    requires DequeKnown(s.store)
    ensures Extends(s.io.queue, HandleConnectDone(s, ok).io.queue)
  {
    StartSessionExtends(s);
    hide StartSession;
  }

  lemma ActorExtends(s: State, t: Task)
    requires DequeKnown(s.store)
    ensures Extends(s.io.queue, AwaitSendEntry(s, None).io.queue)
    ensures Extends(s.io.queue, CheckSendDeadline(s).io.queue)
    ensures t.ReceiveDone? ==> Extends(s.io.queue, HandleReceive(s, t.datagram).io.queue)
    ensures t.Push? ==> Extends(s.io.queue, HandlePush(s, FreshEntry(t.kind, t.body, t.to, t.callback)).io.queue)
  {
    AwaitExtends(s.io, s.now, None, Next(s));
    hide Io.Await;
  }

  lemma RunExtends(s: State, opening: Opening)
    requires Known(s) && s.io.queue != []
    ensures Extends(s.io.queue[1..], Apply(s, Run(opening)).io.queue)
  {
    var t, s' := s.io.queue[0], TakeFront(s);
    hide Extends, HandlePush, HandleClose, HandleConnect, HandleBind, AwaitSendEntry, HandleSend, HandleConnectDone, CheckSendDeadline, HandleReceive;
    match t {
      case Close => CloseExtends(s');
      case Connect => ConnectExtends(s', opening);
      case Bind => BindExtends(s', opening);
      case SendDone(flight, result) => SendDoneExtends(s', flight, result);
      case ConnectDone(ok) => ConnectDoneExtends(s', ok);
      case _ => ActorExtends(s', t);
    }
  }

  // ---- Generations ----

  /** Session accounting, per engine. */
  predicate Counted(s: State) {
    && s.generation == s.starts + s.closes
    && s.closes + (if s.io.ready then 1 else 0) <= s.starts
    && (s.mode == Server ==>
          && Count(s.io.queue, Starter) + s.starts <= 1
          && (s.io.ready <==> s.starts == s.closes + 1)
          && (s.io.ready <==> s.bound)
          && Connect !in s.io.queue && ConnectDone(true) !in s.io.queue && Pending(s.io, Starter) == 0)
  }

  lemma {:induction false} ExtendsStarters(q: seq<Task>, q': seq<Task>)
    requires Extends(q, q')
    ensures Count(q', Starter) == Count(q, Starter)
  {
    var b := q'[|q|..];
    assert q' == q + b;
    CountConcat(q, b, Starter);
    CountPositive(b, Starter);
    assert forall i :: 0 <= i < |b| ==> b[i] == q'[|q| + i];
  }

  lemma ExtendsConnects(q: seq<Task>, q': seq<Task>)
    requires Extends(q, q')
    ensures forall t <- q' :: t.Connect? || t.Bind? || t == ConnectDone(true) ==> t in q
  {
    forall t <- q' | t.Connect? || t.Bind? || t == ConnectDone(true) ensures t in q {
      var i :| 0 <= i < |q'| && q'[i] == t;
      assert i < |q| && q'[..|q|][i] == t;
    }
  }

  /** The handler keeps the session, and whether a socket exists. */
  predicate SameSession(s: State, s': State) {
    && s'.mode == s.mode && s'.generation == s.generation && s'.starts == s.starts && s'.closes == s.closes
    && s'.bound == s.bound && s'.io.ready == s.io.ready && s'.io.socket.Some? == s.io.socket.Some?
    && Pending(s'.io, Starter) == Pending(s.io, Starter)
  }

  /** The handler starts a session. */
  predicate Starts(s: State, s': State) {
    && s'.mode == s.mode && s'.generation == s.generation + 1 && s'.starts == s.starts + 1 && s'.closes == s.closes
    && s'.io.ready
  }

  lemma AwaitFrame(io: Io, now: nat, delay: Option<nat>, next: Option<Flight>)
    ensures var io' := io.Await(now, delay, next);
            io'.ready == io.ready && io'.socket.Some? == io.socket.Some? && Pending(io', Starter) == Pending(io, Starter)
  {
  }

  lemma SendDoneFrame(s: State, f: Flight, result: SendResult)
    requires DequeKnown(s.store) && f.id < |s.store.log|
    ensures SameSession(s, HandleSend(s, f, result))
  {
    AccountFrame(s, f, result);
    ProceedFrame(Account(s, f, result), f.id, result);
    hide Account, Proceed;
  }

  lemma AccountFrame(s: State, f: Flight, result: SendResult)
    requires DequeKnown(s.store) && f.id < |s.store.log|
    ensures var a := Account(s, f, result);
            SameSession(s, a) && a.store.deque == s.store.deque && |a.store.log| == |s.store.log|
  {
    hide AfterSend, Signalled;
  }

  lemma ProceedFrame(s: State, id: nat, result: SendResult)
    requires DequeKnown(s.store) && id < |s.store.log|
    ensures SameSession(s, Proceed(s, id, result))
  {
    AwaitFrame(s.io, s.now, if result == Failed(NoBufferSpace) then Some(RETRY_DELAY) else None,
               Next(PopIfComplete(s, id)));
    hide Io.Await, PopReports;
  }

  lemma StartSessionFrame(s: State)
    requires DequeKnown(s.store)
    ensures var s' := StartSession(s);
            && Starts(s, s') && s'.bound == s.bound && s'.io.socket.Some? == s.io.socket.Some?
            && Pending(s'.io, Starter) == Pending(s.io, Starter)
  {
    var s1 := TurnReady(s);
    AwaitFrame(s1.io, s1.now, None, Next(s1));
    hide Io.Await;
  }

  /** How the handler `t` moves the session counters, and when it leaves a socket. */
  predicate Ledger(s: State, t: Task, opening: Opening, s': State) {
    match t
    case ConnectDone(true) =>
      && Starts(s, s') && s'.bound == s.bound && s'.io.socket.Some? == s.io.socket.Some?
      && Pending(s'.io, Starter) == Pending(s.io, Starter)
    case Bind =>
      && s'.io.socket.Some? && Pending(s'.io, Starter) == 0
      && (if opening.Open? then Starts(s, s') && s'.bound
          else s'.mode == s.mode && s'.generation == s.generation && s'.starts == s.starts
               && s'.closes == s.closes && s'.bound == s.bound && !s'.io.ready)
    case Connect =>
      && s'.io.socket.Some? && s'.mode == s.mode && s'.generation == s.generation
      && s'.starts == s.starts && s'.closes == s.closes && (s'.io.ready ==> s.io.ready)
    case Close =>
      && s'.io.socket.None? && s'.mode == s.mode && s'.starts == s.starts
      && (if s.io.Running()
          then s'.closes == s.closes + 1 && s'.generation == s.generation + 1 && !s'.io.ready && !s'.bound
          else s'.closes == s.closes && s'.generation == s.generation
               && s'.bound == s.bound && s'.io.ready == s.io.ready)
    case _ => SameSession(s, s')
  }

  lemma SocketLedger(s: State, opening: Opening)
    ensures Ledger(s, Close, opening, HandleClose(s)) && Ledger(s, Connect, opening, HandleConnect(s, opening))
  {
    hide Io.Leftovers, AbortedOperations;
  }

  lemma StarterLedger(s: State, ok: bool, opening: Opening)
    requires DequeKnown(s.store)
    ensures Ledger(s, Bind, opening, HandleBind(s, opening))
    ensures Ledger(s, ConnectDone(ok), opening, HandleConnectDone(s, ok))
  {
    hide StartSession;
    StartSessionFrame(s);
    StartSessionFrame(s.(io := s.io.Replaced(0), bound := true));
  }

  lemma CheckFrame(io: Io, now: nat)
    ensures io.Check(now).ready == io.ready && io.Check(now).socket == io.socket
    ensures io.Receive().ready == io.ready && io.Receive().socket.Some? == io.socket.Some?
    ensures Pending(io.Receive(), Starter) == Pending(io, Starter)
  {
  }

  lemma ActorFrame(s: State, t: Task)
    requires DequeKnown(s.store)
    ensures SameSession(s, AwaitSendEntry(s, None)) && SameSession(s, CheckSendDeadline(s))
    ensures t.ReceiveDone? ==> SameSession(s, HandleReceive(s, t.datagram))
    ensures t.Push? ==> SameSession(s, HandlePush(s, FreshEntry(t.kind, t.body, t.to, t.callback)))
  {
    AwaitFrame(s.io, s.now, None, Next(s));
    CheckFrame(s.io, s.now);
    hide Io.Await, Io.Check, Io.Receive;
  }

  lemma RunCounts(s: State, opening: Opening)
    requires Known(s) && s.io.queue != []
    ensures Ledger(TakeFront(s), s.io.queue[0], opening, Apply(s, Run(opening)))
  {
    var t, s' := s.io.queue[0], TakeFront(s);
    hide SameSession, Starts, HandlePush, HandleClose, HandleConnect, HandleBind, AwaitSendEntry, HandleSend, HandleConnectDone, CheckSendDeadline, HandleReceive;
    match t {
      case SendDone(flight, result) => SendDoneFrame(s', flight, result);
      case ConnectDone(ok) => StarterLedger(s', ok, opening);
      case Connect => SocketLedger(s', opening);
      case Bind => StarterLedger(s', false, opening);
      case Close => SocketLedger(s', opening);
      case _ => ActorFrame(s', t);
    }
  }

  lemma RunKeepsCount(s: State, opening: Opening)
    requires Known(s) && s.io.queue != [] && Counted(s)
    ensures Counted(Apply(s, Run(opening)))
  {
    hide Extends, Apply;
    RunExtends(s, opening);
    ExtendsStarters(s.io.queue[1..], Apply(s, Run(opening)).io.queue);
    ExtendsConnects(s.io.queue[1..], Apply(s, Run(opening)).io.queue);
    assert s.io.queue[0] in s.io.queue && forall t <- s.io.queue[1..] :: t in s.io.queue;
    RunCounts(s, opening);
    assert Count(s.io.queue, Starter) ==
      (if RoleOf(s.io.queue[0]) == Starter then 1 else 0) + Count(s.io.queue[1..], Starter);
    hide Count;
  }

  lemma StepKeepsCount(s: State, ev: Event)
    requires Known(s) && Enabled(s, ev) && Counted(s)
    ensures Counted(Apply(s, ev))
  {
    match ev {
      case Run(opening) => RunKeepsCount(s, opening);
      case Restart =>
        assert [Close, Bind][1..] == [Bind];
        assert [Bind][1..] == [];
      case ConnectCompletes(ok) =>
      case _ => ElsewhereKeepsCount(s, ev);
    }
  }

  /** What the environment appends itself. */
  lemma ElsewhereKeepsCount(s: State, ev: Event)
    requires Known(s) && Enabled(s, ev) && Counted(s) && !ev.Run? && !ev.Restart? && !ev.ConnectCompletes?
    ensures Counted(Apply(s, ev))
  {
    var b := match ev
      case Posted(t) => [t]
      case Retire => [Close]
      case SendCompletes(result) => [SendDone(s.io.socket.value.sends[0], result)]
      case ReceiveCompletes(datagram) => [ReceiveDone(datagram)]
      case InvokerFires => Repeat(Wake, s.io.invoker.waits)
      case DeadlineFires => Repeat(DeadlineWake, s.io.deadline.waits)
      case _ => [];
    CountConcat(s.io.queue, b, Starter);
    CountPositive(b, Starter);
    assert s.io.queue + [] == s.io.queue;
    hide Count;
  }

  // ---- Shutting down ----

  /** Running the queue to its end leaves no socket, whatever connects and binds do. */
  predicate EndsClosed(q: seq<Task>, open: bool) {
    if q == [] then !open
    else EndsClosed(q[1..], if q[0].Close? then false else open || q[0].Connect? || q[0].Bind?)
  }

  predicate Doomed(s: State) {
    s.retired ==> EndsClosed(s.io.queue, s.io.socket.Some?)
  }

  lemma {:induction false} EndsClosedGrow(q: seq<Task>, b: seq<Task>, open: bool)
    requires EndsClosed(q, open) && forall i :: 0 <= i < |b| ==> !b[i].Connect? && !b[i].Bind?
    ensures EndsClosed(q + b, open)
  {
    if q != [] {
      assert (q + b)[1..] == q[1..] + b;
      EndsClosedGrow(q[1..], b, if q[0].Close? then false else open || q[0].Connect? || q[0].Bind?);
    } else if b != [] {
      assert q + b == b;
      assert [] + b[1..] == b[1..];
      EndsClosedGrow([], b[1..], false);
    } else {
      assert q + b == [];
    }
  }

  lemma {:induction false} LastCloseEnds(q: seq<Task>, open: bool)
    ensures EndsClosed(q + [Close], open)
  {
    if q == [] {
      assert q + [Close] == [Close];
      assert [Close][1..] == [];
    } else {
      assert (q + [Close])[1..] == q[1..] + [Close];
      LastCloseEnds(q[1..], if q[0].Close? then false else open || q[0].Connect? || q[0].Bind?);
    }
  }

  lemma DoomExtends(q: seq<Task>, q': seq<Task>, open: bool)
    requires EndsClosed(q, open) && Extends(q, q')
    ensures EndsClosed(q', open)
  {
    var b := q'[|q|..];
    assert q' == q + b;
    forall i | 0 <= i < |b| ensures !b[i].Connect? && !b[i].Bind? {
      assert b[i] == q'[|q| + i];
    }
    EndsClosedGrow(q, b, open);
  }

  lemma RunKeepsDoom(s: State, opening: Opening)
    requires Known(s) && s.io.queue != [] && EndsClosed(s.io.queue, s.io.socket.Some?)
    ensures var s' := Apply(s, Run(opening)); EndsClosed(s'.io.queue, s'.io.socket.Some?)
  {
    RunExtends(s, opening);
    RunCounts(s, opening);
    var open := Apply(s, Run(opening)).io.socket.Some?;
    hide Apply, Extends;
    assert EndsClosed(s.io.queue[1..], open);
    DoomExtends(s.io.queue[1..], Apply(s, Run(opening)).io.queue, open);
  }

  lemma StepKeepsDoom(s: State, ev: Event)
    requires Known(s) && Enabled(s, ev) && Doomed(s)
    ensures Doomed(Apply(s, ev))
  {
    if Apply(s, ev).retired {
      match ev {
        case Retire => LastCloseEnds(s.io.queue, s.io.socket.Some?);
        case Run(opening) => RunKeepsDoom(s, opening);
        case SendCompletes(result) =>
          EndsClosedGrow(s.io.queue, [SendDone(s.io.socket.value.sends[0], result)], true);
        case ConnectCompletes(ok) => EndsClosedGrow(s.io.queue, [ConnectDone(ok)], true);
        case ReceiveCompletes(datagram) => EndsClosedGrow(s.io.queue, [ReceiveDone(datagram)], true);
        case InvokerFires => EndsClosedGrow(s.io.queue, Repeat(Wake, s.io.invoker.waits), s.io.socket.Some?);
        case DeadlineFires => EndsClosedGrow(s.io.queue, Repeat(DeadlineWake, s.io.deadline.waits), s.io.socket.Some?);
        case _ =>
      }
    }
  }
}
