/** One sender, whatever starters are queued: it is enough that a client connects only where a
    close fences the new session off from the starters that are queued. */
module Fences {
  import opened Wire
  import opened IoContext
  import opened Engine
  import opened Actors
  import opened Sessions

  /** Reading the queue of a client with a socket up to the first close: at most one session
      starts, none while one runs, no sender's handler is behind the start, and only a client
      without a session has a connect pending. A handler behind the start counts even past the
      close, where it may turn out harmless: the fence is exact for two sender operations, and
      enough, but not always needed, for the entries to fare well. */
  predicate Fence(q: seq<Task>, running: bool, connecting: nat) {
    if q == [] then connecting <= 1 && (running ==> connecting == 0)
    else if q[0] == Close then true
    else if RoleOf(q[0]) == Starter then !running && Count(q[1..], Sender) == 0 && Fence(q[1..], true, connecting)
    else Fence(q[1..], running, connecting)
  }

  predicate Fenced(io: Io) {
    && Operations(io, Sender) <= 1
    && (!io.Running() ==> Pending(io, Sender) == 0)
    && (io.socket.Some? ==> Fence(io.queue, io.ready, io.socket.value.connecting))
    && Bind !in io.queue
  }

  /** The guard of a connect that creates a socket: the queue fences its session off. Every calm
      connect passes it; a server does not connect. */
  predicate Guarded(s: State, ev: Event) {
    ev.Run? && s.io.queue != [] && s.io.queue[0].Connect? && s.io.socket.None? ==>
      Fence(s.io.queue[1..], false, if ev.opening.Open? then 1 else 0)
  }

  /** The events can happen in this order from `s`, every connect being guarded. */
  ghost predicate Allowed(s: State, evs: seq<Event>)
    decreases |evs|
  {
    evs == [] || (Known(s) && Enabled(s, evs[0]) && Guarded(s, evs[0]) && Allowed(Apply(s, evs[0]), evs[1..]))
  }

  ghost function Reached(s: State, evs: seq<Event>): State
    requires Allowed(s, evs)
    decreases |evs|
  {
    if evs == [] then s else Reached(Apply(s, evs[0]), evs[1..])
  }

  lemma CalmIsGuarded(s: State, ev: Event)
    requires Calm(s, ev)
    ensures Guarded(s, ev)
  {
    if ev.Run? && s.io.queue != [] && s.io.queue[0].Connect? && s.io.socket.None? {
      NoneCounted(s.io.queue[1..]);
      FenceWithoutStarters(s.io.queue[1..], false, if ev.opening.Open? then 1 else 0);
    }
  }

  /** Every possible run is allowed, and leads to the same state. */
  lemma {:induction false} PossibleIsAllowed(s: State, evs: seq<Event>)
    requires Possible(s, evs)
    ensures Allowed(s, evs) && Reached(s, evs) == After(s, evs)
    decreases |evs|
  {
    hide Apply, Known, Enabled, Calm, Guarded;
    if evs != [] {
      CalmIsGuarded(s, evs[0]);
      PossibleIsAllowed(Apply(s, evs[0]), evs[1..]);
    }
  }

  lemma AllowedNone(s: State)
    ensures Allowed(s, []) && Reached(s, []) == s
  {
  }

  /** One event, then the rest of a run. */
  lemma AllowedFirst(s: State, ev: Event, rest: seq<Event>)
    requires Known(s) && Enabled(s, ev) && Guarded(s, ev) && Allowed(Apply(s, ev), rest)
    ensures Allowed(s, [ev] + rest) && Reached(s, [ev] + rest) == Reached(Apply(s, ev), rest)
  {
    assert ([ev] + rest)[1..] == rest;
    hide Apply, Known, Enabled, Guarded;
  }

  /** Two stretches of an allowed run. */
  lemma {:induction false} AllowedConcat(s: State, a: seq<Event>, b: seq<Event>)
    requires Allowed(s, a) && Allowed(Reached(s, a), b)
    ensures Allowed(s, a + b) && Reached(s, a + b) == Reached(Reached(s, a), b)
    decreases |a|
  {
    hide Apply, Known, Enabled, Guarded;
    if a == [] {
      assert a + b == b;
    } else {
      assert (a + b)[1..] == a[1..] + b;
      AllowedConcat(Apply(s, a[0]), a[1..], b);
    }
  }

  // ---- Counting senders ----

  lemma AwaitAddsSender(io: Io, now: nat, delay: Option<nat>, next: Option<Flight>)
    requires io.Running()
    ensures Operations(io.Await(now, delay, next), Sender) == Operations(io, Sender) + 1
  {
    SetInvokerKeepsSenders(io, if delay.Some? then At(now + delay.value) else Infinite);
    SetDeadlineKeepsSenders(io, At(now + SEND_DEADLINE));
  }

  lemma SetInvokerKeepsSenders(io: Io, e: Expiry)
    ensures Operations(io.SetInvoker(e), Sender) == Operations(io, Sender)
  {
    CountConcat(io.queue, Repeat(Wake, io.invoker.waits), Sender);
    CountAll(Repeat(Wake, io.invoker.waits), Sender, Sender);
  }

  lemma SetDeadlineKeepsSenders(io: Io, e: Expiry)
    ensures Operations(io.SetDeadline(e), Sender) == Operations(io, Sender)
  {
    CountConcat(io.queue, Repeat(DeadlineWake, io.deadline.waits), Sender);
    CountAll(Repeat(DeadlineWake, io.deadline.waits), Watchdog, Sender);
  }

  lemma CheckKeepsSenders(io: Io, now: nat)
    ensures Operations(io.Check(now), Sender) == Operations(io, Sender)
  {
    CountConcat(io.queue, [Close], Sender);
    One(Close);
  }

  lemma StartSessionAddsSender(s: State)
    requires DequeKnown(s.store) && s.io.socket.Some?
    ensures Operations(StartSession(s).io, Sender) == Operations(s.io, Sender) + 1
  {
    var s1 := TurnReady(s);
    var io1 := s1.io.Await(s1.now, None, Next(s1));
    AwaitAddsSender(s1.io, s1.now, None, Next(s1));
    SetDeadlineKeepsSenders(io1, Infinite);
    CheckKeepsSenders(io1.SetDeadline(Infinite), s1.now);
    hide Io.Await, Io.SetDeadline, Io.Check, Count;
  }

  // ---- The fence and the queue ----

  lemma {:induction false} FenceGrows(q: seq<Task>, b: seq<Task>, running: bool, connecting: nat)
    requires Fence(q, running, connecting)
    requires forall t <- b :: RoleOf(t) != Starter
    requires running || Count(b, Sender) == 0
    ensures Fence(q + b, running, connecting)
  {
    if q == [] {
      assert q + b == b;
      FenceWithoutStarters(b, running, connecting);
    } else if q[0] != Close {
      assert (q + b)[1..] == q[1..] + b;
      CountConcat(q[1..], b, Sender);
      FenceGrows(q[1..], b, running || RoleOf(q[0]) == Starter, connecting);
    }
  }

  lemma {:induction false} FenceWithoutStarters(q: seq<Task>, running: bool, connecting: nat)
    requires forall t <- q :: RoleOf(t) != Starter
    requires connecting <= 1 && (running ==> connecting == 0)
    ensures Fence(q, running, connecting)
  {
    if q != [] {
      assert q[0] in q && forall t <- q[1..] :: t in q;
      FenceWithoutStarters(q[1..], running, connecting);
    }
  }

  /** The connect completes: its completion starts a session, or not, behind everything queued. */
  lemma {:induction false} FenceConnects(q: seq<Task>, running: bool, connecting: nat, ok: bool)
    requires Fence(q, running, connecting) && connecting > 0
    ensures Fence(q + [ConnectDone(ok)], running, connecting - 1)
  {
    if q == [] {
      assert [] + [ConnectDone(ok)] == [ConnectDone(ok)];
      assert [ConnectDone(ok)][1..] == [];
    } else if q[0] != Close {
      assert (q + [ConnectDone(ok)])[1..] == q[1..] + [ConnectDone(ok)];
      CountConcat(q[1..], [ConnectDone(ok)], Sender);
      One(ConnectDone(ok));
      FenceConnects(q[1..], running || RoleOf(q[0]) == Starter, connecting, ok);
    }
  }

  // ---- Senders, handler by handler ----

  /** The handler adds `n` senders at most to a running session, and none without one. */
  predicate Adds(io: Io, io': Io, n: nat) {
    && Operations(io', Sender) <= Operations(io, Sender) + (if io'.Running() then n else 0)
    && (!io'.Running() ==> Pending(io', Sender) <= Pending(io, Sender))
    && (io.socket.Some? ==> io'.socket.Some? && io'.socket.value.connecting == io.socket.value.connecting)
  }

  lemma AwaitAdds(io: Io, now: nat, delay: Option<nat>, next: Option<Flight>)
    ensures Adds(io, io.Await(now, delay, next), 1)
  {
    if io.Running() { AwaitAddsSender(io, now, delay, next); }
  }

  lemma SendDoneAdds(s: State, f: Flight, result: SendResult)
    requires DequeKnown(s.store) && f.id < |s.store.log|
    ensures Adds(s.io, HandleSend(s, f, result).io, 1)
  {
    var a := Account(s, f, result);
    hide AfterSend, Signalled, Proceed, Adds;
    ProceedAdds(a, f.id, result);
    DisarmAdds(s.io, Proceed(a, f.id, result).io);
  }

  lemma DisarmAdds(io: Io, io': Io)
    requires Adds(io.SetDeadline(Infinite), io', 1)
    ensures Adds(io, io', 1)
  {
    SetDeadlineKeepsSenders(io, Infinite);
  }

  lemma ProceedAdds(s: State, id: nat, result: SendResult)
    requires id < |s.store.log| && DequeKnown(s.store)
    ensures Adds(s.io, Proceed(s, id, result).io, 1)
  {
    hide Adds, Io.Await, PopReports;
    if ClosesSession(s.mode, result) {
      PostCloseAdds(s.io);
    } else {
      AwaitAdds(s.io, s.now, if result == Failed(NoBufferSpace) then Some(RETRY_DELAY) else None,
                Next(PopIfComplete(s, id)));
    }
  }

  lemma PostCloseAdds(io: Io)
    ensures Adds(io, io.Post(Close), 1)
  {
    CountConcat(io.queue, [Close], Sender);
    One(Close);
  }

  lemma StartSessionAdds(s: State)
    requires DequeKnown(s.store)
    ensures Adds(s.io, StartSession(s).io, 1)
  {
    if s.io.socket.Some? {
      StartSessionAddsSender(s);
    } else {
      SetDeadlineKeepsSenders(s.io.(ready := true), Infinite);
    }
    hide Io.Await, Count;
    StartSessionKeepsConnecting(s);
  }

  lemma StartSessionKeepsConnecting(s: State)
    requires DequeKnown(s.store)
    ensures var io, io' := s.io, StartSession(s).io;
            && (io.socket.Some? ==> io'.socket.Some? && io'.socket.value.connecting == io.socket.value.connecting)
            && (io.socket.None? ==> io'.socket.None? && Pending(io', Sender) == Pending(io, Sender))
  {
  }

  lemma PlainAdds(s: State, t: Task, opening: Opening)
    requires DequeKnown(s.store)
    ensures t.Push? ==> Adds(s.io, HandlePush(s, FreshEntry(t.kind, t.body, t.to, t.callback)).io, 0)
    ensures Adds(s.io, CheckSendDeadline(s).io, 0)
    ensures t.ReceiveDone? ==> Adds(s.io, HandleReceive(s, t.datagram).io, 0)
    ensures s.io.socket.Some? ==> HandleConnect(s, opening).io == s.io
  {
    SetInvokerKeepsSenders(s.io, At(s.now));
    CheckKeepsSenders(s.io, s.now);
    hide Count, ReportsOf;
  }

  /** The handlers that keep the socket. */
  lemma RunAdds(s: State, opening: Opening)
    requires Known(s) && s.io.queue != []
    requires var t := s.io.queue[0]; !t.Close? && !t.Bind? && (t.Connect? ==> s.io.socket.Some?)
    ensures var r := RoleOf(s.io.queue[0]);
            Adds(TakeFront(s).io, Apply(s, Run(opening)).io, if r == Sender || r == Starter then 1 else 0)
  {
    var t, s0 := s.io.queue[0], TakeFront(s);
    hide Adds, HandlePush, HandleConnect, HandleSend, HandleConnectDone, CheckSendDeadline, HandleReceive, Io.Await;
    match t {
      case Wake => AwaitAdds(s0.io, s0.now, None, Next(s0));
      case SendDone(flight, result) => SendDoneAdds(s0, flight, result);
      case ConnectDone(ok) => ConnectDoneAdds(s0, ok);
      case _ =>
        PlainAdds(s0, t, opening);
        AddsNothing(s0.io);
    }
  }

  lemma ConnectDoneAdds(s: State, ok: bool)
    requires DequeKnown(s.store)
    ensures Adds(s.io, HandleConnectDone(s, ok).io, if ok then 1 else 0)
  {
    if ok { StartSessionAdds(s); } else { AddsNothing(s.io); }
    hide Adds, StartSession;
  }

  lemma AddsNothing(io: Io)
    ensures Adds(io, io, 0)
  {
  }

  // ---- Every guarded step ----

  lemma RunKeepsFence(s: State, opening: Opening)
    requires Known(s) && s.mode == Client && s.io.queue != [] && Fenced(s.io)
    requires var t := s.io.queue[0]; !t.Close? && (t.Connect? ==> s.io.socket.Some?)
    ensures Fenced(Apply(s, Run(opening)).io)
  {
    var s' := Apply(s, Run(opening));
    assert s.io.queue[0] in s.io.queue;
    hide RunTask, Fence, Adds, Extends;
    RunAdds(s, opening);
    RunCounts(s, opening);
    RunExtends(s, opening);
    var b := Appended(s.io.queue[1..], s'.io.queue);
    assert forall t <- s'.io.queue :: t in s.io.queue[1..] || t in b;
    KeepsFence(s.io, s'.io, b);
  }

  lemma Appended(q: seq<Task>, q': seq<Task>) returns (b: seq<Task>)
    requires Extends(q, q')
    ensures q' == q + b && forall t <- b :: RoleOf(t) != Starter && !t.Bind?
  {
    b := q'[|q|..];
    forall t <- b ensures RoleOf(t) != Starter && !t.Bind? {
      var i :| 0 <= i < |b| && b[i] == t;
      assert Modest(q'[|q| + i]);
    }
  }

  /** Taking the front handler and appending `b` keeps the fence. */
  lemma KeepsFence(io: Io, io': Io, b: seq<Task>)
    requires Fenced(io) && io.queue != [] && io.queue[0] != Close && io'.queue == io.queue[1..] + b
    requires forall t <- b :: RoleOf(t) != Starter
    requires var r := RoleOf(io.queue[0]);
             && Adds(io.(queue := io.queue[1..]), io', if r == Sender || r == Starter then 1 else 0)
             && io'.ready == (io.ready || r == Starter) && io'.socket.Some? == io.socket.Some?
    requires Bind !in io'.queue
    ensures Fenced(io')
  {
    var q := io.queue[1..];
    CountConcat(q, b, Sender);
    assert Count(io.queue, Sender) == Count(q, Sender) + if RoleOf(io.queue[0]) == Sender then 1 else 0;
    if io.socket.Some? {
      assert Fence(q, io'.ready, io.socket.value.connecting);
      FenceGrows(q, b, io'.ready, io.socket.value.connecting);
    }
  }

  lemma CloseUnfences(s: State)
    requires Known(s) && s.io.queue != [] && s.io.queue[0] == Close && Fenced(s.io)
    ensures Fenced(HandleClose(TakeFront(s)).io)
  {
    var io := TakeFront(s).io;
    assert Count(io.queue, Sender) <= Count(s.io.queue, Sender);
    if io.socket.Some? {
      LeftoverCounts(io);
      CountConcat(io.queue, io.Leftovers(), Sender);
      assert forall t <- io.Leftovers() :: !t.Bind?;
    }
    hide Io.Leftovers, Count, Fence;
  }

  lemma ConnectFences(s: State, opening: Opening)
    requires s.io.socket.None? && Fenced(s.io) && Fence(s.io.queue, false, if opening.Open? then 1 else 0)
    ensures Fenced(HandleConnect(s, opening).io)
  {
    assert s.io.queue + AbortedOperations(None) == s.io.queue;
  }

  lemma TakeFrontFenced(s: State)
    requires s.io.queue != [] && s.io.queue[0] == Connect && s.io.socket.None? && Fenced(s.io)
    ensures Fenced(TakeFront(s).io) && Count(TakeFront(s).io.queue, Starter) == Count(s.io.queue, Starter)
  {
    assert forall t <- s.io.queue[1..] :: t in s.io.queue;
  }

  /** What the environment appends, other than a successful connect. */
  lemma AppendKeepsFence(io: Io, io': Io, b: seq<Task>)
    requires Fenced(io) && io'.queue == io.queue + b && io'.ready == io.ready && io'.socket.Some? == io.socket.Some?
    requires io.socket.Some? ==> io'.socket.value.connecting == io.socket.value.connecting
    requires forall t <- b :: RoleOf(t) != Starter && !t.Bind?
    requires Count(b, Sender) + Pending(io', Sender) == Pending(io, Sender)
    ensures Fenced(io')
  {
    CountConcat(io.queue, b, Sender);
    if io.socket.Some? { FenceGrows(io.queue, b, io.ready, io.socket.value.connecting); }
  }

  lemma ConnectCompletesFenced(s: State, ok: bool)
    requires Enabled(s, ConnectCompletes(ok)) && Fenced(s.io)
    ensures Fenced(Completed(s, ConnectCompletes(ok)))
  {
    FenceConnects(s.io.queue, s.io.ready, s.io.socket.value.connecting, ok);
    CountConcat(s.io.queue, [ConnectDone(ok)], Sender);
    One(ConnectDone(ok));
  }

  lemma EnvironmentFenced(s: State, ev: Event)
    requires Known(s) && Enabled(s, ev) && s.mode == Client && Fenced(s.io) && !ev.Run? && !ev.ConnectCompletes?
    ensures Fenced(Apply(s, ev).io)
  {
    var b := match ev
      case Posted(t) => [t]
      case Retire => [Close]
      case SendCompletes(result) => [SendDone(s.io.socket.value.sends[0], result)]
      case ReceiveCompletes(datagram) => [ReceiveDone(datagram)]
      case InvokerFires => Repeat(Wake, s.io.invoker.waits)
      case DeadlineFires => Repeat(DeadlineWake, s.io.deadline.waits)
      case _ => [];
    assert s.io.queue + [] == s.io.queue;
    if |b| == 1 { One(b[0]); assert b == [b[0]]; }
    CountRepeat(Wake, s.io.invoker.waits);
    CountRepeat(DeadlineWake, s.io.deadline.waits);
    hide Fenced, Count;
    AppendKeepsFence(s.io, Apply(s, ev).io, b);
  }

  lemma StepKeepsFence(s: State, ev: Event)
    requires Known(s) && Enabled(s, ev) && Guarded(s, ev) && s.mode == Client && Fenced(s.io)
    ensures Fenced(Apply(s, ev).io) && Apply(s, ev).mode == Client
  {
    match ev {
      case Run(opening) =>
        RunCounts(s, opening);
        assert s.io.queue[0] in s.io.queue;
        hide Fenced, RunTask;
        RunFenced(s, opening);
      case ConnectCompletes(ok) => ConnectCompletesFenced(s, ok);
      case _ => EnvironmentFenced(s, ev);
    }
  }

  lemma RunFenced(s: State, opening: Opening)
    requires Known(s) && s.io.queue != [] && Guarded(s, Run(opening)) && s.mode == Client && Fenced(s.io)
    ensures Fenced(Apply(s, Run(opening)).io)
  {
    var t := s.io.queue[0];
    hide Fenced, HandleClose, HandleConnect;
    if t == Close {
      CloseUnfences(s);
    } else if t == Connect && s.io.socket.None? {
      TakeFrontFenced(s);
      ConnectFences(TakeFront(s), opening);
    } else {
      hide RunTask;
      RunKeepsFence(s, opening);
    }
  }

  /** In every guarded run from a fenced client there is at most one sender. */
  lemma {:induction false} RunsKeepFence(s: State, evs: seq<Event>)
    requires s.mode == Client && Fenced(s.io) && Allowed(s, evs)
    ensures Fenced(Reached(s, evs).io) && Operations(Reached(s, evs).io, Sender) <= 1
    decreases |evs|
  {
    if evs == [] {
    } else {
      hide Fenced, Apply, Known, Enabled, Guarded;
      StepKeepsFence(s, evs[0]);
      RunsKeepFence(Apply(s, evs[0]), evs[1..]);
    }
  }
}
