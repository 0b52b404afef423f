/** What holds in every run of the engine, however its connects overlap. */
module Basics {
  import opened Wire
  import opened IoContext
  import opened Engine
  import opened Actors
  import opened Delivery
  import opened Sessions
  import opened Naps
  import opened Fences

  /** The events can happen in this order from `s`, whatever the connects. */
  ghost predicate Feasible(s: State, evs: seq<Event>)
    decreases |evs|
  {
    evs == [] || (Known(s) && Enabled(s, evs[0]) && Feasible(Apply(s, evs[0]), evs[1..]))
  }

  ghost function Outcome(s: State, evs: seq<Event>): State
    requires Feasible(s, evs)
    decreases |evs|
  {
    if evs == [] then s else Outcome(Apply(s, evs[0]), evs[1..])
  }

  /** A guarded run is one of these runs, and leads to the same state. */
  lemma {:induction false} AllowedIsFeasible(s: State, evs: seq<Event>)
    requires Allowed(s, evs)
    ensures Feasible(s, evs) && Outcome(s, evs) == Reached(s, evs)
    decreases |evs|
  {
    hide Apply, Known, Enabled, Guarded;
    if evs != [] {
      AllowedIsFeasible(Apply(s, evs[0]), evs[1..]);
    }
  }

  /** Some run of a fresh engine, guarded or not, leads to `s`. */
  ghost predicate Conceivable(s: State) {
    exists mode, bufferSize: nat, evs ::
      Feasible(Init(mode, bufferSize), evs) && s == Outcome(Init(mode, bufferSize), evs)
  }

  // ---- What a handler brings into play ----

  /** The sends `xs` enter play behind those that were, and they are of the entry at the front. */
  predicate Enters(io: Io, s': State, xs: seq<Flight>) {
    InPlay(s'.io) == InPlay(io) + xs && forall f <- xs :: f.id in s'.store.deque && FrontSend(s'.store, f)
  }

  lemma AwaitEnters(s: State, delay: Option<nat>) returns (xs: seq<Flight>)
    requires DequeKnown(s.store)
    ensures Enters(s.io, AwaitSendEntry(s, delay), xs)
  {
    AwaitMoves(s.io, s.now, delay, Next(s));
    xs := if s.io.Running() && delay.None? && Next(s).Some? then [Next(s).value] else [];
    hide Io.Await, InPlay;
  }

  lemma StartSessionEnters(s: State) returns (xs: seq<Flight>)
    requires DequeKnown(s.store)
    ensures Enters(s.io, StartSession(s), xs)
  {
    var s1 := TurnReady(s);
    StartActorsMoves(s1.io, s1.now, s1.mode == Client, Next(s1));
    xs := if s1.io.Running() && Next(s1).Some? then [Next(s1).value] else [];
    assert InPlay(s1.io) == InPlay(s.io);
    hide Io.StartActors, InPlay;
  }

  lemma SendDoneEnters(s: State, f: Flight, result: SendResult) returns (xs: seq<Flight>)
    requires DequeKnown(s.store) && f.id < |s.store.log|
    ensures Enters(s.io, HandleSend(s, f, result), xs)
  {
    var a := Account(s, f, result);
    SetDeadlineMoves(s.io, Infinite);
    PostMoves(a.io, Close);
    hide InPlay, AfterSend, Signalled, AwaitSendEntry, Io.SetDeadline, Io.Post, PopReports;
    if ClosesSession(s.mode, result) {
      xs := [];
    } else {
      xs := AwaitEnters(PopIfComplete(a, f.id), if result == Failed(NoBufferSpace) then Some(RETRY_DELAY) else None);
    }
  }

  /** Replacing a socket aborts its sends, which leaves them in play. */
  lemma ReplacedLands(io: Io, connecting: nat)
    ensures InPlay(io.Replaced(connecting)) == InPlay(io)
  {
    if io.socket.Some? {
      var k := io.socket.value;
      var a := Repeat(ReceiveDone(None), k.receiving) + Repeat(ConnectDone(false), k.connecting);
      LandedConcat(io.queue, a + Aborted(k.sends));
      LandedConcat(a, Aborted(k.sends));
      LandedNone(a);
      LandedAborted(k.sends);
    } else {
      assert io.queue + AbortedOperations(io.socket) == io.queue;
    }
  }

  lemma OpeningEnters(s: State, opening: Opening) returns (xs: seq<Flight>)
    requires DequeKnown(s.store)
    ensures Enters(s.io, HandleConnect(s, opening), []) && Enters(s.io, HandleBind(s, opening), xs)
  {
    ReplacedLands(s.io, 0);
    ReplacedLands(s.io, 1);
    hide InPlay, Io.Replaced, StartSession;
    xs := [];
    if opening.Open? {
      xs := StartSessionEnters(s.(io := s.io.Replaced(0), bound := true));
    }
  }

  lemma QuietEnters(s: State, e: Entry, datagram: Option<Datagram>)
    ensures Enters(s.io, HandlePush(s, e), []) && Enters(s.io, CheckSendDeadline(s), [])
    ensures Enters(s.io, HandleReceive(s, datagram), []) && Enters(s.io, HandleClose(s), [])
  {
    SetInvokerMoves(s.io, At(s.now));
    CheckMoves(s.io, s.now);
    ReceiveMoves(s.io);
    if s.io.socket.Some? { ClosedMoves(s.io); }
    hide InPlay, Io.SetInvoker, Io.Check, Io.Receive, Io.Closed, ReportsOf;
  }

  /** Whatever handler runs, only sends of entries of the deque enter play. */
  lemma RunEnters(s: State, opening: Opening) returns (xs: seq<Flight>)
    requires Known(s) && s.io.queue != []
    ensures Enters(TakeFront(s).io, Apply(s, Run(opening)), xs)
  {
    var t, s0 := s.io.queue[0], TakeFront(s);
    xs := [];
    hide Enters, HandlePush, HandleClose, HandleConnect, HandleBind, AwaitSendEntry, HandleSend, StartSession,
      CheckSendDeadline, HandleReceive;
    match t {
      case Wake => xs := AwaitEnters(s0, None);
      case SendDone(flight, result) => xs := SendDoneEnters(s0, flight, result);
      case ConnectDone(ok) =>
        if ok { xs := StartSessionEnters(s0); } else { FailureEnters(s0); }
      case Push(kind, body, to, callback) => QuietEnters(s0, FreshEntry(kind, body, to, callback), None);
      case ReceiveDone(datagram) => QuietEnters(s0, FreshEntry(UserData, [], None, false), datagram);
      case Close => QuietEnters(s0, FreshEntry(UserData, [], None, false), None);
      case DeadlineWake => QuietEnters(s0, FreshEntry(UserData, [], None, false), None);
      case Connect => var ys := OpeningEnters(s0, opening);
      case Bind => xs := OpeningEnters(s0, opening);
    }
  }

  lemma FailureEnters(s: State)
    ensures Enters(s.io, s.(reports := s.reports + [OpenFailed]), [])
  {
  }

  lemma RunKeepsClock(s: State, opening: Opening)
    requires Known(s) && s.io.queue != []
    ensures Apply(s, Run(opening)).retired == s.retired && Apply(s, Run(opening)).now == s.now
  {
    hide Io.Await, Io.StartActors, Io.Closed, Io.Replaced, Io.Check, Io.Receive, Io.SetInvoker, Io.SetDeadline,
      AfterSend, Signalled, PopReports, ReportsOf;
  }

  // ---- Positions stay known ----

  predicate Ids(s: State) {
    DequeKnown(s.store) && forall f <- InPlay(s.io) :: f.id < |s.store.log|
  }

  lemma IdsKnow(s: State)
    requires Ids(s)
    ensures Known(s)
  {
    forall i | 0 <= i < |s.io.queue| && s.io.queue[i].SendDone? ensures s.io.queue[i].flight.id < |s.store.log| {
      LandedMember(s.io.queue, i);
      assert s.io.queue[i].flight in InPlay(s.io);
    }
  }

  /** Entries are added to the log, never taken from it. */
  lemma LogGrows(s: State, opening: Opening)
    requires Known(s) && s.io.queue != []
    ensures var b := Apply(s, Run(opening)).store; DequeKnown(b) && |s.store.log| <= |b.log|
  {
    var t, s0 := s.io.queue[0], TakeFront(s);
    hide HandlePush, HandleClose, HandleConnect, HandleBind, AwaitSendEntry, HandleSend, HandleConnectDone,
      CheckSendDeadline, HandleReceive;
    match t {
      case Push(kind, body, to, callback) => PushGrowsLog(s0, FreshEntry(kind, body, to, callback));
      case SendDone(flight, result) => SendDoneKeepsLog(s0, flight, result);
      case _ => SessionsKeepStore(s0, t, opening);
    }
  }

  lemma PushGrowsLog(s: State, e: Entry)
    requires DequeKnown(s.store)
    ensures var b := HandlePush(s, e).store; DequeKnown(b) && |b.log| == |s.store.log| + 1
  {
  }

  lemma SendDoneKeepsLog(s: State, f: Flight, result: SendResult)
    requires DequeKnown(s.store) && f.id < |s.store.log|
    ensures var b := HandleSend(s, f, result).store; DequeKnown(b) && |b.log| == |s.store.log|
  {
    hide AfterSend, Io.Await;
  }

  lemma RunKeepsIds(s: State, opening: Opening)
    requires Ids(s) && Known(s) && s.io.queue != []
    ensures Ids(Apply(s, Run(opening)))
  {
    RestMoves(s.io);
    LogGrows(s, opening);
    var xs := RunEnters(s, opening);
    hide Apply, InPlay;
  }

  lemma StepKeepsIds(s: State, ev: Event)
    requires Ids(s) && Known(s) && Enabled(s, ev)
    ensures Ids(Apply(s, ev))
  {
    match ev {
      case Run(opening) => RunKeepsIds(s, opening);
      case Restart => LandedNone(FreshIo(Server).queue);
      case _ => StepMoves(s, ev);
    }
    hide InPlay, RunTask;
  }

  // ---- A running session is manned ----

  predicate Asked(mode: Mode, io: Io) {
    mode == Client && Count(io.queue, Closer) > 0
  }

  /** Without a socket no timer is waited for; a running session has a sender, and a client's a
      watchdog, or was asked to close. */
  predicate Manned(mode: Mode, io: Io) {
    && (io.socket.None? ==> io.invoker.waits == 0 && io.deadline.waits == 0)
    && (io.Running() ==> Asked(mode, io) || Operations(io, Sender) > 0)
    && (io.Running() && mode == Client ==> Asked(mode, io) || Operations(io, Watchdog) > 0)
  }

  /** No session starts, no sender, watchdog or request to close goes. */
  predicate Retains(io: Io, io': Io) {
    && (io'.Running() ==> io.Running()) && (io'.socket.None? ==> io.socket.None?)
    && io'.invoker.waits <= io.invoker.waits && io'.deadline.waits <= io.deadline.waits
    && Operations(io', Sender) >= Operations(io, Sender) && Operations(io', Watchdog) >= Operations(io, Watchdog)
    && Count(io'.queue, Closer) >= Count(io.queue, Closer)
  }

  lemma TimersRetain(io: Io, e: Expiry)
    ensures Retains(io, io.SetInvoker(e)) && Retains(io, io.SetDeadline(e))
  {
    Grow(io.queue, Repeat(Wake, io.invoker.waits));
    Grow(io.queue, Repeat(DeadlineWake, io.deadline.waits));
    CountRepeat(Wake, io.invoker.waits);
    CountRepeat(DeadlineWake, io.deadline.waits);
    hide Count;
  }

  lemma PostRetains(io: Io, t: Task)
    ensures Retains(io, io.Post(t)) && (t == Close ==> Count(io.Post(t).queue, Closer) > 0)
  {
    Grow(io.queue, [t]);
    One(t);
    hide Count;
  }

  /** The sender goes on: there is one while the session runs. */
  lemma AwaitMans(mode: Mode, io: Io, io0: Io, now: nat, delay: Option<nat>, next: Option<Flight>)
    requires Manned(mode, io0) && io.socket == io0.socket && io.ready == io0.ready
    requires io.invoker.waits <= io0.invoker.waits && io.deadline.waits <= io0.deadline.waits
    requires Operations(io, Watchdog) >= Operations(io0, Watchdog) && Count(io.queue, Closer) >= Count(io0.queue, Closer)
    ensures Manned(mode, io.Await(now, delay, next))
  {
    if io.Running() {
      AwaitAddsSender(io, now, delay, next);
      TimersRetain(io, Infinite);
      TimersRetain(io, At(now + SEND_DEADLINE));
      if delay.Some? { TimersRetain(io, At(now + delay.value)); }
    }
    hide Count, Io.SetInvoker, Io.SetDeadline;
    AwaitKeepsWatchdogs(io, now, delay, next);
  }

  lemma AwaitKeepsWatchdogs(io: Io, now: nat, delay: Option<nat>, next: Option<Flight>)
    ensures var io' := io.Await(now, delay, next);
            && Operations(io', Watchdog) >= Operations(io, Watchdog) && Count(io'.queue, Closer) >= Count(io.queue, Closer)
            && io'.Running() == io.Running() && io'.socket.None? == io.socket.None?
            && (io.socket.None? ==> io' == io)
  {
    TimersRetain(io, Infinite);
    TimersRetain(io, At(now + SEND_DEADLINE));
    if delay.Some? { TimersRetain(io, At(now + delay.value)); }
    hide Count;
  }

  lemma SendDoneMans(s: State, f: Flight, result: SendResult, io0: Io)
    requires DequeKnown(s.store) && f.id < |s.store.log| && Manned(s.mode, io0)
    requires io0.queue != [] && io0.queue[0] == SendDone(f, result) && s.io == Rest(io0)
    ensures Manned(s.mode, HandleSend(s, f, result).io)
  {
    var a := Account(s, f, result);
    TimersRetain(s.io, Infinite);
    PostRetains(a.io, Close);
    assert Count(io0.queue, Closer) == Count(s.io.queue, Closer) && Count(io0.queue, Watchdog) == Count(s.io.queue, Watchdog);
    hide Manned, Count, AfterSend, Signalled, PopReports, Io.Await, Io.Post, Io.SetDeadline, Next;
    if ClosesSession(s.mode, result) {
      AskedMans(s.mode, a.io.Post(Close), io0);
    } else {
      assert a.io.invoker.waits <= io0.invoker.waits && a.io.deadline.waits <= io0.deadline.waits;
      assert a.io.socket == io0.socket && a.io.ready == io0.ready by { SetDeadlineFrame(s.io); }
      AwaitMans(s.mode, a.io, io0, a.now, if result == Failed(NoBufferSpace) then Some(RETRY_DELAY) else None,
                Next(PopIfComplete(a, f.id)));
    }
  }

  lemma SetDeadlineFrame(io: Io)
    ensures io.SetDeadline(Infinite).socket == io.socket && io.SetDeadline(Infinite).ready == io.ready
  {
  }

  lemma AskedMans(mode: Mode, io: Io, io0: Io)
    requires Manned(mode, io0) && mode == Client && Count(io.queue, Closer) > 0
    requires io.socket.None? ==> io0.socket.None?
    requires io.invoker.waits <= io0.invoker.waits && io.deadline.waits <= io0.deadline.waits
    ensures Manned(mode, io)
  {
  }

  /** A session that starts on a socket has its sender, and a client's its watchdog. */
  lemma StartSessionMans(s: State)
    requires DequeKnown(s.store) && (s.io.socket.None? ==> s.io.invoker.waits == 0 && s.io.deadline.waits == 0)
    ensures Manned(s.mode, StartSession(s).io)
  {
    if s.io.socket.Some? {
      StartSessionAddsSender(s);
    }
    StartSessionWatches(s);
    hide StartSession, Count;
  }

  lemma StartSessionWatches(s: State)
    requires DequeKnown(s.store)
    ensures var io := StartSession(s).io;
            && (io.socket.None? <==> s.io.socket.None?)
            && (s.io.socket.Some? && s.mode == Client ==> io.deadline.waits > 0)
            && (s.io.socket.None? ==> io.invoker.waits == s.io.invoker.waits && io.deadline.waits == 0)
  {
  }

  lemma QuietMans(s: State, t: Task, opening: Opening)
    requires Manned(s.mode, s.io)
    ensures t.Push? ==> Manned(s.mode, HandlePush(s, FreshEntry(t.kind, t.body, t.to, t.callback)).io)
    ensures t.ReceiveDone? ==> Manned(s.mode, HandleReceive(s, t.datagram).io)
    ensures Manned(s.mode, HandleConnect(s, opening).io)
  {
    TimersRetain(s.io, At(s.now));
    hide Count, ReportsOf, Io.SetInvoker;
  }

  lemma CloseMans(s: State)
    requires s.io.socket.None? ==> s.io.invoker.waits == 0 && s.io.deadline.waits == 0
    ensures Manned(s.mode, HandleClose(s).io)
  {
    hide Io.Leftovers;
  }

  lemma CheckMans(s: State, io0: Io)
    requires Manned(s.mode, io0) && io0.queue != [] && io0.queue[0] == DeadlineWake && s.io == Rest(io0)
    ensures Manned(s.mode, CheckSendDeadline(s).io)
  {
    PostRetains(s.io, Close);
    assert Count(io0.queue, Closer) == Count(s.io.queue, Closer) && Count(io0.queue, Sender) == Count(s.io.queue, Sender);
    hide Count;
  }

  lemma BindMans(s: State, opening: Opening)
    requires DequeKnown(s.store)
    ensures Manned(s.mode, HandleBind(s, opening).io)
  {
    StartSessionMans(s.(io := s.io.Replaced(0), bound := true));
    hide StartSession, AbortedOperations;
  }

  lemma ConnectDoneMans(s: State, ok: bool)
    requires DequeKnown(s.store) && Manned(s.mode, s.io)
    ensures Manned(s.mode, HandleConnectDone(s, ok).io)
  {
    StartSessionMans(s);
    hide StartSession;
  }

  lemma TakeFrontManned(mode: Mode, io: Io)
    requires Manned(mode, io) && io.queue != []
    requires var r := RoleOf(io.queue[0]); r != Sender && r != Watchdog && r != Closer
    ensures Manned(mode, Rest(io))
  {
  }

  lemma WakeMans(s: State, io0: Io)
    requires DequeKnown(s.store) && Manned(s.mode, io0)
    requires io0.queue != [] && io0.queue[0] == Wake && s.io == Rest(io0)
    ensures Manned(s.mode, AwaitSendEntry(s, None).io)
  {
    assert Count(io0.queue, Closer) == Count(s.io.queue, Closer);
    assert Count(io0.queue, Watchdog) == Count(s.io.queue, Watchdog);
    hide Count, Manned, Io.Await;
    AwaitMans(s.mode, s.io, io0, s.now, None, Next(s));
  }

  lemma RunStaysManned(s: State, opening: Opening)
    requires Known(s) && s.io.queue != [] && Manned(s.mode, s.io)
    ensures Manned(s.mode, Apply(s, Run(opening)).io)
  {
    var t, s0 := s.io.queue[0], TakeFront(s);
    if RoleOf(t) in {Receiver, Starter, Plain} { TakeFrontManned(s.mode, s.io); }
    IdleManned(s.mode, s.io);
    assert s0.io == Rest(s.io);
    hide Manned, Count, HandlePush, HandleClose, HandleConnect, HandleBind, AwaitSendEntry, HandleSend,
      HandleConnectDone, CheckSendDeadline, HandleReceive;
    match t {
      case Wake => WakeMans(s0, s.io);
      case SendDone(flight, result) => SendDoneMans(s0, flight, result, s.io);
      case ConnectDone(ok) => ConnectDoneMans(s0, ok);
      case DeadlineWake => CheckMans(s0, s.io);
      case Close => CloseMans(s0);
      case Bind => BindMans(s0, opening);
      case _ => QuietMans(s0, t, opening);
    }
  }

  lemma IdleManned(mode: Mode, io: Io)
    requires Manned(mode, io)
    ensures io.socket.None? ==> io.invoker.waits == 0 && io.deadline.waits == 0
  {
  }

  lemma CompletedRetains(s: State, ev: Event)
    requires IsCompletion(ev) && Enabled(s, ev)
    ensures Retains(s.io, Completed(s, ev))
  {
    var t := match ev
      case SendCompletes(result) => SendDone(s.io.socket.value.sends[0], result)
      case ConnectCompletes(ok) => ConnectDone(ok)
      case ReceiveCompletes(datagram) => ReceiveDone(datagram);
    Grow(s.io.queue, [t]);
    One(t);
    hide Count;
  }

  lemma StepStaysManned(s: State, ev: Event)
    requires Known(s) && Enabled(s, ev) && Manned(s.mode, s.io)
    ensures Manned(Apply(s, ev).mode, Apply(s, ev).io)
  {
    match ev {
      case Run(opening) =>
        RunCounts(s, opening);
        RunStaysManned(s, opening);
      case Posted(t) => PostRetains(s.io, t);
      case Retire => PostRetains(s.io, Close);
      case InvokerFires => TimersRetain(s.io, s.io.invoker.expiry);
      case DeadlineFires => TimersRetain(s.io, s.io.deadline.expiry);
      case Tick(_) =>
      case Restart =>
      case _ => CompletedRetains(s, ev);
    }
    hide RunTask, Count;
  }

  // ---- Every run ----

  predicate Basic(s: State) {
    Ids(s) && Counted(s) && Doomed(s) && Attentive(s) && Rested(s.io, s.now) && Manned(s.mode, s.io)
  }

  lemma InitBasic(mode: Mode, bufferSize: nat)
    ensures Basic(Init(mode, bufferSize))
  {
    LandedNone(FreshIo(mode).queue);
    if mode == Server {
      assert [Close, Bind][1..] == [Bind] && [Bind][1..] == [];
    }
  }

  lemma StepKeepsBasic(s: State, ev: Event)
    requires Basic(s) && Enabled(s, ev)
    ensures Known(s) && Basic(Apply(s, ev))
  {
    IdsKnow(s);
    hide Ids, Counted, Doomed, Attentive, Rested, Manned, Apply, Known, Enabled;
    StepKeepsIds(s, ev);
    StepKeepsCount(s, ev);
    StepKeepsDoom(s, ev);
    StepKeepsAttention(s, ev);
    StepRests(s, ev);
    StepStaysManned(s, ev);
  }

  lemma {:induction false} RunsKeepBasic(s: State, evs: seq<Event>)
    requires Basic(s) && Feasible(s, evs)
    ensures Basic(Outcome(s, evs))
    decreases |evs|
  {
    hide Basic, Apply, Known, Enabled;
    if evs != [] {
      StepKeepsBasic(s, evs[0]);
      RunsKeepBasic(Apply(s, evs[0]), evs[1..]);
    }
  }

  lemma ConceivableIsBasic(s: State)
    requires Conceivable(s)
    ensures Basic(s)
  {
    hide Basic;
    var mode, bufferSize: nat, evs :|
      Feasible(Init(mode, bufferSize), evs) && s == Outcome(Init(mode, bufferSize), evs);
    InitBasic(mode, bufferSize);
    RunsKeepBasic(Init(mode, bufferSize), evs);
  }
}
