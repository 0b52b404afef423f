/** At most one sender, one watchdog, one receiver and one session starter exist at any time,
    whatever is pending, queued or left over from a closed session. */
module Actors {
  import opened Wire
  import opened IoContext
  import opened Engine

  /** Operations of a role that are not in the queue yet. */
  function Pending(io: Io, r: Role): nat {
    match r
    case Sender => io.invoker.waits + (if io.socket.Some? then |io.socket.value.sends| else 0)
    case Watchdog => io.deadline.waits
    case Receiver => if io.socket.Some? then io.socket.value.receiving else 0
    case Starter => if io.socket.Some? then io.socket.value.connecting else 0
    case _ => 0
  }

  function Operations(io: Io, r: Role): nat {
    Pending(io, r) + Count(io.queue, r)
  }

  /** A running session has exactly one operation of the role, or the client has just asked
      for the session to be closed. */
  predicate Alive(mode: Mode, io: Io, r: Role) {
    Operations(io, r) == 1 || (mode == Client && Count(io.queue, Closer) > 0)
  }

  /** The handlers that only one of the two modes uses. */
  predicate ModeTasks(mode: Mode, io: Io) {
    if mode == Server then
      && (forall t <- io.queue :: !t.Connect? && !t.ConnectDone?)
      && Pending(io, Starter) == 0 && Operations(io, Watchdog) == 0
      && (Bind in io.queue ==> io.socket.None?)
    else
      Bind !in io.queue
  }

  /** What a handler still owes: it was the role's only operation and has not renewed it. */
  datatype Debt = Debt(sender: bool, watchdog: bool, receiver: bool)

  const NOTHING := Debt(false, false, false)
  const ALL := Debt(true, true, true)

  /** The invariant, up to what the handler being run owes. */
  predicate Live(mode: Mode, io: Io, owe: Debt) {
    && Operations(io, Sender) <= (if owe.sender then 0 else 1)
    && Operations(io, Watchdog) <= (if owe.watchdog then 0 else 1)
    && Operations(io, Receiver) <= (if owe.receiver then 0 else 1)
    && Operations(io, Starter) <= 1
    && Settled(io.queue)
    && ModeTasks(mode, io)
    && (!io.Running() ==> Pending(io, Sender) == Pending(io, Watchdog) == Pending(io, Receiver) == 0)
    && (io.Running() ==>
          && Operations(io, Starter) == 0
          && (owe.sender || Alive(mode, io, Sender))
          && (owe.receiver || Operations(io, Receiver) == 1)
          && (owe.watchdog || mode == Server || Alive(mode, io, Watchdog)))
  }

  predicate OneOfEach(s: State) {
    Live(s.mode, s.io, NOTHING)
  }

  // ---- Queues ----

  lemma Grow(q: seq<Task>, b: seq<Task>)
    ensures forall r :: Count(q + b, r) == Count(q, r) + Count(b, r)
    ensures forall t :: t in q + b <==> t in q || t in b
  {
    forall r ensures Count(q + b, r) == Count(q, r) + Count(b, r) { CountConcat(q, b, r); }
  }

  lemma SettledGrow(q: seq<Task>, b: seq<Task>)
    requires Settled(q)
    requires forall i :: 0 <= i < |b| ==> RoleOf(b[i]) != Starter || |b| == 1
    requires Count(q, Starter) == 0 || forall i :: 0 <= i < |b| ==> !Actor(b[i])
    ensures Settled(q + b)
  {
    CountPositive(q, Starter);
    forall i, j | 0 <= i < j < |q + b| && RoleOf((q + b)[i]) == Starter ensures !Actor((q + b)[j]) {
      if j >= |q| {
        if i < |q| {
          assert RoleOf(q[i]) == Starter;
          assert !Actor(b[j - |q|]);
        }
      }
    }
  }

  lemma One(t: Task)
    ensures forall r :: Count([t], r) == if RoleOf(t) == r then 1 else 0
  {
    assert [t][1..] == [];
  }

  lemma CountRepeat(t: Task, n: nat)
    ensures forall r :: Count(Repeat(t, n), r) == if RoleOf(t) == r then n else 0
  {
    forall r ensures Count(Repeat(t, n), r) == if RoleOf(t) == r then n else 0 {
      CountAll(Repeat(t, n), RoleOf(t), r);
    }
  }

  lemma NoneCounted(q: seq<Task>)
    ensures Count(q, Sender) == Count(q, Watchdog) == Count(q, Receiver) == 0 <==>
              forall i :: 0 <= i < |q| ==> !Actor(q[i])
    ensures Count(q, Starter) == 0 <==> forall i :: 0 <= i < |q| ==> RoleOf(q[i]) != Starter
  {
    CountPositive(q, Sender);
    CountPositive(q, Watchdog);
    CountPositive(q, Receiver);
    CountPositive(q, Starter);
  }

  // ---- Moves of the io thread ----

  lemma PostKeeps(mode: Mode, io: Io, t: Task, owe: Debt)
    requires Live(mode, io, owe) && RoleOf(t) in {Closer, Plain}
    requires mode == Server ==> t.Push? || t.Close?
    ensures Live(mode, io.Post(t), owe)
  {
    Grow(io.queue, [t]);
    One(t);
    SettledGrow(io.queue, [t]);
  }

  lemma SetInvokerKeeps(mode: Mode, io: Io, e: Expiry, owe: Debt)
    requires Live(mode, io, owe)
    ensures Live(mode, io.SetInvoker(e), owe)
  {
    var b := Repeat(Wake, io.invoker.waits);
    Grow(io.queue, b);
    CountRepeat(Wake, io.invoker.waits);
    SettledGrow(io.queue, b);
  }

  lemma SetDeadlineKeeps(mode: Mode, io: Io, e: Expiry, owe: Debt)
    requires Live(mode, io, owe)
    ensures Live(mode, io.SetDeadline(e), owe)
  {
    var b := Repeat(DeadlineWake, io.deadline.waits);
    Grow(io.queue, b);
    CountRepeat(DeadlineWake, io.deadline.waits);
    SettledGrow(io.queue, b);
  }

  lemma OnePaysSender(mode: Mode, io: Io, flight: Option<Flight>, owe: Debt)
    requires io.Running() && owe.sender && Live(mode, io, owe)
    ensures Live(mode, if flight.None? then io.WaitInvoker() else io.StartSend(flight.value), owe.(sender := false))
  {
  }

  lemma StoppedOwesNothing(mode: Mode, io: Io, owe: Debt, owe': Debt)
    requires !io.Running() && Live(mode, io, owe)
    requires (owe'.sender ==> owe.sender) && (owe'.watchdog ==> owe.watchdog) && (owe'.receiver ==> owe.receiver)
    ensures Live(mode, io, owe')
  {
  }

  lemma AwaitPaysSender(mode: Mode, io: Io, now: nat, delay: Option<nat>, next: Option<Flight>, owe: Debt)
    requires owe.sender && Live(mode, io, owe)
    ensures Live(mode, io.Await(now, delay, next), owe.(sender := false))
  {
    hide Live;
    if !io.Running() {
      StoppedOwesNothing(mode, io, owe, owe.(sender := false));
    } else if delay.Some? {
      SetInvokerKeeps(mode, io, At(now + delay.value), owe);
      OnePaysSender(mode, io.SetInvoker(At(now + delay.value)), None, owe);
    } else if next.None? {
      SetInvokerKeeps(mode, io, Infinite, owe);
      OnePaysSender(mode, io.SetInvoker(Infinite), None, owe);
    } else {
      SetDeadlineKeeps(mode, io, At(now + SEND_DEADLINE), owe);
      OnePaysSender(mode, io.SetDeadline(At(now + SEND_DEADLINE)), next, owe);
    }
  }

  lemma ClosePays(mode: Mode, io: Io, owe: Debt)
    requires mode == Client && Live(mode, io, owe)
    ensures Live(mode, io.Post(Close), owe.(sender := false, watchdog := false))
  {
    Grow(io.queue, [Close]);
    One(Close);
    SettledGrow(io.queue, [Close]);
  }

  lemma WaitPaysWatchdog(mode: Mode, io: Io, owe: Debt)
    requires io.Running() && mode == Client && owe.watchdog && Live(mode, io, owe)
    ensures Live(mode, io.WaitDeadline(), owe.(watchdog := false))
  {
  }

  lemma CheckPaysWatchdog(io: Io, now: nat, owe: Debt)
    requires !owe.sender && owe.watchdog && Live(Client, io, owe)
    ensures Live(Client, io.Check(now), owe.(watchdog := false))
  {
    hide Live;
    if !io.Running() {
      StoppedOwesNothing(Client, io, owe, owe.(watchdog := false));
    } else if io.deadline.expiry.At? && io.deadline.expiry.time < now {
      ClosePays(Client, io, owe);
    } else {
      WaitPaysWatchdog(Client, io, owe);
    }
  }

  lemma ReceivePaysReceiver(mode: Mode, io: Io, owe: Debt)
    requires owe.receiver && Live(mode, io, owe)
    ensures Live(mode, io.Receive(), owe.(receiver := false))
  {
  }

  lemma ServerOwesNoWatchdog(io: Io, owe: Debt)
    requires Live(Server, io, owe)
    ensures Live(Server, io, owe.(watchdog := false))
  {
  }

  lemma StartPaysAll(mode: Mode, io: Io, now: nat, next: Option<Flight>)
    requires Live(mode, io, ALL)
    ensures Live(mode, io.StartActors(now, mode == Client, next), NOTHING)
  {
    AwaitPaysSender(mode, io, now, None, next, ALL);
    hide Live;
    var io1 := io.Await(now, None, next);
    var owe := Debt(false, true, true);
    SetDeadlineKeeps(mode, io1, Infinite, owe);
    var io2 := io1.SetDeadline(Infinite);
    if mode == Client {
      CheckPaysWatchdog(io2, now, owe);
      ReceivePaysReceiver(mode, io2.Check(now), Debt(false, false, true));
    } else {
      ServerOwesNoWatchdog(io2, owe);
      ReceivePaysReceiver(mode, io2, Debt(false, false, true));
    }
  }

  // ---- Closing ----

  lemma AbortCounts(socket: Option<Socket>)
    requires socket.Some?
    ensures var q := AbortedOperations(socket);
            && Count(q, Sender) == |socket.value.sends| && Count(q, Receiver) == socket.value.receiving
            && Count(q, Watchdog) == Count(q, Starter) == Count(q, Closer) == 0
            && (forall t <- q :: t.ReceiveDone? || (t == ConnectDone(false) && socket.value.connecting > 0) || t.SendDone?)
  {
    var s := socket.value;
    var a, b, c := Repeat(ReceiveDone(None), s.receiving), Repeat(ConnectDone(false), s.connecting), Aborted(s.sends);
    Grow(a, b);
    Grow(a + b, c);
    CountRepeat(ReceiveDone(None), s.receiving);
    CountRepeat(ConnectDone(false), s.connecting);
    forall r ensures Count(c, r) == if r == Sender then |s.sends| else 0 { CountAll(c, Sender, r); }
  }

  lemma LeftoverCounts(io: Io)
    requires io.socket.Some?
    ensures var q := io.Leftovers();
            && Count(q, Sender) == Pending(io, Sender)
            && Count(q, Watchdog) == Pending(io, Watchdog)
            && Count(q, Receiver) == Pending(io, Receiver)
            && Count(q, Starter) == Count(q, Closer) == 0
            && (forall t <- q :: Actor(t) || (t == ConnectDone(false) && io.socket.value.connecting > 0))
  {
    var a, b := AbortedOperations(io.socket), Repeat(Wake, io.invoker.waits) + Repeat(DeadlineWake, io.deadline.waits);
    assert io.Leftovers() == a + b;
    AbortCounts(io.socket);
    TimerCounts(io);
    Grow(a, b);
    hide AbortedOperations, Repeat, Count, Io.Leftovers;
  }

  lemma TimerCounts(io: Io)
    ensures var q := Repeat(Wake, io.invoker.waits) + Repeat(DeadlineWake, io.deadline.waits);
            && Count(q, Sender) == io.invoker.waits && Count(q, Watchdog) == io.deadline.waits
            && Count(q, Receiver) == Count(q, Starter) == Count(q, Closer) == 0
            && forall t <- q :: t.Wake? || t.DeadlineWake?
  {
    Grow(Repeat(Wake, io.invoker.waits), Repeat(DeadlineWake, io.deadline.waits));
    CountRepeat(Wake, io.invoker.waits);
    CountRepeat(DeadlineWake, io.deadline.waits);
    hide Count;
  }

  lemma LeftoversSettle(io: Io)
    requires io.socket.Some? && Settled(io.queue)
    requires Count(io.queue, Starter) > 0 ==>
               Pending(io, Sender) == Pending(io, Watchdog) == Pending(io, Receiver) == 0
    ensures Settled(io.queue + io.Leftovers())
  {
    LeftoverCounts(io);
    NoneCounted(io.Leftovers());
    hide Settled;
    SettledGrow(io.queue, io.Leftovers());
  }

  lemma ModeTasksGrow(mode: Mode, io: Io, io': Io, b: seq<Task>)
    requires ModeTasks(mode, io) && io'.queue == io.queue + b && io'.socket.None?
    requires Operations(io', Watchdog) == Operations(io, Watchdog)
    requires forall t <- b :: Actor(t) || (t == ConnectDone(false) && Pending(io, Starter) > 0)
    ensures ModeTasks(mode, io')
  {
    hide Count;
  }

  lemma ClosedModeTasks(mode: Mode, io: Io)
    requires io.socket.Some? && ModeTasks(mode, io)
    ensures ModeTasks(mode, io.Closed())
  {
    LeftoverCounts(io);
    CountConcat(io.queue, io.Leftovers(), Watchdog);
    hide Io.Leftovers, ModeTasks;
    ModeTasksGrow(mode, io, io.Closed(), io.Leftovers());
  }

  /** Closing moves every operation of the session into the queue, where it is a leftover. */
  lemma ClosedKeeps(mode: Mode, io: Io)
    requires io.socket.Some? && Settled(io.queue) && ModeTasks(mode, io)
    requires Operations(io, Sender) <= 1 && Operations(io, Watchdog) <= 1
    requires Operations(io, Receiver) <= 1 && Operations(io, Starter) <= 1
    requires Count(io.queue, Starter) > 0 ==>
               Pending(io, Sender) == Pending(io, Watchdog) == Pending(io, Receiver) == 0
    ensures Live(mode, io.Closed(), NOTHING)
  {
    ClosedModeTasks(mode, io);
    LeftoversSettle(io);
    LeftoverCounts(io);
    Grow(io.queue, io.Leftovers());
    hide Settled, Io.Leftovers, ModeTasks;
  }

  // ---- The handler at the front ----

  function Rest(io: Io): Io
    requires io.queue != []
  {
    io.(queue := io.queue[1..])
  }

  /** The debt of a handler taken from the queue. */
  function DebtOf(r: Role): Debt {
    if r == Starter then ALL else Debt(r == Sender, r == Watchdog, r == Receiver)
  }

  /** Taking a handler other than a request to close leaves its debt. */
  lemma FrontPays(mode: Mode, io: Io)
    requires Live(mode, io, NOTHING) && io.queue != [] && io.queue[0] != Close
    ensures Live(mode, Rest(io), DebtOf(RoleOf(io.queue[0])))
    ensures RoleOf(io.queue[0]) == Starter ==> Operations(Rest(io), Starter) == 0 && !io.Running()
  {
    assert forall t <- io.queue[1..] :: t in io.queue;
    if RoleOf(io.queue[0]) == Starter {
      NoneCounted(io.queue[1..]);
      assert forall j :: 0 <= j < |io.queue[1..]| ==> io.queue[1..][j] == io.queue[j + 1];
    }
  }

  lemma FrontMode(mode: Mode, io: Io)
    requires Live(mode, io, NOTHING) && io.queue != []
    ensures io.queue[0].Connect? || io.queue[0].DeadlineWake? || io.queue[0].ConnectDone? ==> mode == Client
    ensures io.queue[0].Bind? ==> mode == Server && io.socket.None? && Bind !in io.queue[1..]
  {
    assert io.queue[0] in io.queue;
    if io.queue[0].Bind? {
      assert Count(io.queue[1..], Starter) == 0;
      NoneCounted(io.queue[1..]);
    }
  }

  /** `FrontMode`, for a whole state. */
  lemma FrontOf(s: State)
    requires OneOfEach(s) && s.io.queue != []
    ensures s.io.queue[0].Connect? || s.io.queue[0].DeadlineWake? || s.io.queue[0].ConnectDone? ==> s.mode == Client
    ensures s.io.queue[0].Bind? ==> s.mode == Server && s.io.socket.None? && Bind !in s.io.queue[1..]
  {
    hide Live;
    FrontMode(s.mode, s.io);
  }

  lemma CloseRuns(s: State)
    requires OneOfEach(s) && s.io.queue != [] && s.io.queue[0] == Close
    ensures OneOfEach(HandleClose(TakeFront(s)))
  {
    assert forall t <- s.io.queue[1..] :: t in s.io.queue;
    if s.io.socket.Some? {
      ClosedKeeps(s.mode, Rest(s.io));
    }
  }

  lemma ReplacedKeeps(mode: Mode, io: Io, connecting: nat, owe: Debt)
    requires io.socket.None? && Live(mode, io, owe) && connecting <= 1
    requires connecting == 1 ==> mode == Client && Count(io.queue, Starter) == 0
    requires Bind !in io.queue
    ensures Live(mode, io.Replaced(connecting), owe)
    ensures Operations(io.Replaced(connecting), Starter) == Operations(io, Starter) + connecting
  {
    assert io.queue + AbortedOperations(io.socket) == io.queue;
  }

  lemma ReadyOwesAll(mode: Mode, io: Io)
    requires Live(mode, io, ALL) && Operations(io, Starter) == 0
    ensures Live(mode, io.(ready := true), ALL)
  {
  }

  lemma StartSessionKeeps(s: State)
    requires DequeKnown(s.store) && Live(s.mode, s.io, ALL) && Operations(s.io, Starter) == 0
    ensures OneOfEach(StartSession(s))
  {
    ReadyOwesAll(s.mode, s.io);
    hide Live;
    var s' := TurnReady(s);
    StartPaysAll(s'.mode, s'.io, s'.now, Next(s'));
  }

  lemma BindKeeps(s: State, opening: Opening)
    requires Known(s) && OneOfEach(s) && s.io.queue != [] && s.io.queue[0] == Bind
    ensures OneOfEach(HandleBind(TakeFront(s), opening))
  {
    FrontMode(s.mode, s.io);
    FrontPays(s.mode, s.io);
    ReplacedKeeps(s.mode, Rest(s.io), 0, ALL);
    var s1 := TakeFront(s).(io := Rest(s.io).Replaced(0));
    if opening.Open? {
      hide Live;
      StartSessionKeeps(s1.(bound := true));
    } else {
      StoppedOwesNothing(s.mode, s1.io, ALL, NOTHING);
    }
  }

  lemma ConnectKeeps(s: State, opening: Opening)
    requires Live(s.mode, s.io, NOTHING) && s.mode == Client
    requires s.io.socket.None? ==> Count(s.io.queue, Starter) == 0
    ensures OneOfEach(HandleConnect(s, opening))
  {
    if s.io.socket.None? {
      ReplacedKeeps(s.mode, s.io, if opening.Open? then 1 else 0, NOTHING);
    }
  }

  lemma ProceedPaysSender(s: State, id: nat, result: SendResult)
    requires id < |s.store.log| && DequeKnown(s.store) && Live(s.mode, s.io, DebtOf(Sender))
    ensures OneOfEach(Proceed(s, id, result))
  {
    hide Live;
    if ClosesSession(s.mode, result) {
      ClosePays(s.mode, s.io, DebtOf(Sender));
    } else {
      var s' := PopIfComplete(s, id);
      AwaitPaysSender(s.mode, s.io, s.now,
                      if result == Failed(NoBufferSpace) then Some(RETRY_DELAY) else None, Next(s'), DebtOf(Sender));
    }
  }

  lemma SendDoneKeeps(s: State, f: Flight, result: SendResult)
    requires DequeKnown(s.store) && f.id < |s.store.log|
    requires Live(s.mode, s.io, DebtOf(Sender))
    ensures OneOfEach(HandleSend(s, f, result))
  {
    hide Live, Proceed, AfterSend, Signalled;
    SetDeadlineKeeps(s.mode, s.io, Infinite, DebtOf(Sender));
    ProceedPaysSender(Account(s, f, result), f.id, result);
  }

  // ---- Every step ----

  lemma ConnectDoneKeeps(s: State, ok: bool)
    requires Known(s) && OneOfEach(s) && s.io.queue != [] && s.io.queue[0] == ConnectDone(ok)
    ensures OneOfEach(HandleConnectDone(TakeFront(s), ok))
  {
    FrontPays(s.mode, s.io);
    hide Live, StartSession;
    if ok { StartSessionKeeps(TakeFront(s)); }
  }

  lemma ActorRuns(s: State, t: Task)
    requires DequeKnown(s.store) && Live(s.mode, s.io, DebtOf(RoleOf(t)))
    requires t.DeadlineWake? ==> s.mode == Client
    ensures t.Wake? ==> OneOfEach(AwaitSendEntry(s, None))
    ensures t.DeadlineWake? ==> OneOfEach(CheckSendDeadline(s))
    ensures t.ReceiveDone? ==> OneOfEach(HandleReceive(s, t.datagram))
    ensures t.Push? ==> OneOfEach(HandlePush(s, FreshEntry(t.kind, t.body, t.to, t.callback)))
  {
    hide Live, Io.Await, Io.Check, Io.Receive, Io.SetInvoker;
    match t {
      case Push(_, _, _, _) => SetInvokerKeeps(s.mode, s.io, At(s.now), NOTHING);
      case Wake => AwaitPaysSender(s.mode, s.io, s.now, None, Next(s), DebtOf(Sender));
      case DeadlineWake => CheckPaysWatchdog(s.io, s.now, DebtOf(Watchdog));
      case ReceiveDone(datagram) => ReceivePaysReceiver(s.mode, s.io, DebtOf(Receiver));
      case _ =>
    }
  }

  lemma RunKeeps(s: State, opening: Opening)
    requires Known(s) && OneOfEach(s) && s.io.queue != [] && Calm(s, Run(opening))
    ensures OneOfEach(Apply(s, Run(opening)))
  {
    var t, s' := s.io.queue[0], TakeFront(s);
    if t != Close {
      FrontMode(s.mode, s.io);
      FrontPays(s.mode, s.io);
    }
    hide OneOfEach, Live, HandlePush, HandleClose, HandleConnect, HandleBind, AwaitSendEntry, HandleSend, HandleConnectDone, CheckSendDeadline, HandleReceive;
    match t {
      case Close => CloseRuns(s);
      case Connect => ConnectKeeps(s', opening);
      case Bind => BindKeeps(s, opening);
      case SendDone(flight, result) => SendDoneKeeps(s', flight, result);
      case ConnectDone(ok) => ConnectDoneKeeps(s, ok);
      case _ => ActorRuns(s', t);
    }
  }

  lemma CompletionKeeps(s: State, ev: Event)
    requires IsCompletion(ev) && Enabled(s, ev) && OneOfEach(s)
    ensures Live(s.mode, Completed(s, ev), NOTHING)
  {
    var t := match ev
      case SendCompletes(result) => SendDone(s.io.socket.value.sends[0], result)
      case ConnectCompletes(ok) => ConnectDone(ok)
      case ReceiveCompletes(datagram) => ReceiveDone(datagram);
    Grow(s.io.queue, [t]);
    One(t);
    SettledGrow(s.io.queue, [t]);
    hide Settled;
  }

  lemma FreshIsClean(mode: Mode)
    ensures Live(mode, FreshIo(mode), NOTHING)
  {
    if mode == Server {
      assert [Close, Bind] == [Close] + [Bind];
      Grow([Close], [Bind]);
      One(Close);
      One(Bind);
    }
  }

  lemma StepKeepsActors(s: State, ev: Event)
    requires Known(s) && Enabled(s, ev) && Calm(s, ev) && OneOfEach(s)
    ensures OneOfEach(Apply(s, ev))
  {
    hide Live;
    match ev {
      case Posted(t) => PostKeeps(s.mode, s.io, t, NOTHING);
      case Retire => PostKeeps(s.mode, s.io, Close, NOTHING);
      case Restart => FreshIsClean(Server);
      case Run(opening) => RunKeeps(s, opening);
      case SendCompletes(_) => CompletionKeeps(s, ev);
      case ConnectCompletes(_) => CompletionKeeps(s, ev);
      case ReceiveCompletes(_) => CompletionKeeps(s, ev);
      case InvokerFires => SetInvokerKeeps(s.mode, s.io, s.io.invoker.expiry, NOTHING);
      case DeadlineFires => SetDeadlineKeeps(s.mode, s.io, s.io.deadline.expiry, NOTHING);
      case Tick(_) =>
    }
  }
}
