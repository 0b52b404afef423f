/** What every run of the engine keeps to, however its connects overlap: no wake-up is lost,
    generations count sessions, and the thread of a destroyed engine ends. */
module Lifetimes {
  import opened Wire
  import opened IoContext
  import opened Engine
  import opened Actors
  import opened Delivery
  import opened Sessions
  import opened Naps
  import opened Basics

  // ---- No lost wake-up ----

  /** A running session with something to send is sending it, has a handler queued that will
      look at the deque or close the session, or sleeps for the retry delay at most. */
  lemma NoLostWakeUp(s: State)
    requires Conceivable(s) && s.io.Running() && s.store.deque != []
    ensures || s.io.socket.value.sends != []
            || (exists t <- s.io.queue :: RoleOf(t) == Sender)
            || (s.mode == Client && Close in s.io.queue)
            || (s.io.invoker.waits > 0 && s.io.invoker.expiry.At? && s.io.invoker.expiry.time <= s.now + 100)
  {
    ConceivableIsBasic(s);
    hide Conceivable, Ids, Counted, Doomed;
    if Count(s.io.queue, Sender) > 0 {
      HasRole(s.io.queue, Sender);
    } else if Count(s.io.queue, Closer) > 0 {
      HasRole(s.io.queue, Closer);
    }
  }

  lemma HasRole(q: seq<Task>, r: Role)
    requires Count(q, r) > 0
    ensures exists t <- q :: RoleOf(t) == r
    ensures r == Closer ==> Close in q
  {
    CountPositive(q, r);
    var i :| 0 <= i < |q| && RoleOf(q[i]) == r;
    assert q[i] in q;
  }

  // ---- Sessions ----

  /** The generation counts sessions started and closed; a server is ready exactly while it
      is bound, in its one odd generation, with one start more than closes. */
  lemma SessionAccounts(s: State)
    requires Conceivable(s)
    ensures s.generation == s.starts + s.closes && s.closes <= s.starts
    ensures s.io.ready ==> s.closes < s.starts
    ensures s.mode == Server ==>
              && s.starts <= 1
              && (s.io.ready <==> s.starts == s.closes + 1)
              && (s.io.ready <==> s.generation % 2 == 1)
              && (s.io.ready <==> s.bound)
  {
    ConceivableIsBasic(s);
    hide Conceivable, Ids, Attentive, Rested, Manned, Doomed;
  }

  // ---- The io thread of a destroyed engine ends ----

  /** How many handlers run until the socket is closed and no connect or bind is queued. */
  function Due(q: seq<Task>, open: bool): nat {
    if q == [] || (!open && forall t <- q :: !t.Connect? && !t.Bind?) then 0
    else 1 + Due(q[1..], if q[0].Close? then false else open || q[0].Connect? || q[0].Bind?)
  }

  lemma {:induction false} DueWithin(q: seq<Task>, open: bool)
    ensures Due(q, open) <= |q|
  {
    if q != [] { DueWithin(q[1..], if q[0].Close? then false else open || q[0].Connect? || q[0].Bind?); }
  }

  /** What is appended once the destructor has run does not put the end off. */
  lemma {:induction false} DueGrows(q: seq<Task>, b: seq<Task>, open: bool)
    requires EndsClosed(q, open) && forall t <- b :: !t.Connect? && !t.Bind?
    ensures Due(q + b, open) == Due(q, open)
  {
    if q == [] {
      assert q + b == b;
    } else {
      assert (q + b)[1..] == q[1..] + b;
      assert forall t <- q + b :: t in q || t in b;
      assert forall t <- q :: t in q + b;
      DueGrows(q[1..], b, if q[0].Close? then false else open || q[0].Connect? || q[0].Bind?);
    }
  }

  predicate Idle(io: Io) {
    io.socket.None? && io.invoker.waits == 0 && io.deadline.waits == 0
  }

  /** The engine is being destroyed and its socket is gone for good. */
  predicate Shut(s: State) {
    && s.retired && Idle(s.io)
    && forall t <- s.io.queue :: !t.Connect? && !t.Bind?
  }

  predicate Ending(s: State) {
    Basic(s) && s.retired
  }

  function DueOf(s: State): nat {
    Due(s.io.queue, s.io.socket.Some?)
  }

  /** Every handler brings the end nearer, and nothing puts it off. */
  lemma StepKeepsDue(s: State, ev: Event)
    requires Ending(s) && Enabled(s, ev) && !ev.Restart?
    ensures Known(s)
    ensures var s1 := Apply(s, ev);
            && Ending(s1) && DueOf(s1) == if ev.Run? && DueOf(s) > 0 then DueOf(s) - 1 else DueOf(s)
  {
    StepKeepsBasic(s, ev);
    hide Counted, Attentive, Rested, Manned, Ids;
    if ev.Run? {
      RunNearsEnd(s, ev.opening);
    } else {
      ElsewhereKeepsDue(s, ev);
    }
  }

  lemma RunNearsEnd(s: State, opening: Opening)
    requires Known(s) && s.io.queue != [] && s.retired && Doomed(s)
    ensures var s1 := Apply(s, Run(opening)); DueOf(s1) == (if DueOf(s) > 0 then DueOf(s) - 1 else 0) && s1.retired
  {
    RunExtends(s, opening);
    RunCounts(s, opening);
    RunKeepsClock(s, opening);
    var q, s1 := s.io.queue[1..], Apply(s, Run(opening));
    var b := s1.io.queue[|q|..];
    assert s1.io.queue == q + b by { assert Extends(q, s1.io.queue); }
    forall t <- b ensures !t.Connect? && !t.Bind? {
      var i :| 0 <= i < |b| && b[i] == t;
      assert Modest(s1.io.queue[|q| + i]);
    }
    assert s.io.queue[0] in s.io.queue && forall t <- q :: t in s.io.queue;
    hide Apply, Extends;
    DueGrows(q, b, s1.io.socket.Some?);
  }

  lemma ElsewhereKeepsDue(s: State, ev: Event)
    requires Known(s) && Enabled(s, ev) && s.retired && Doomed(s) && !ev.Run? && !ev.Restart?
    ensures DueOf(Apply(s, ev)) == DueOf(s) && Apply(s, ev).retired
  {
    var b := match ev
      case SendCompletes(result) => [SendDone(s.io.socket.value.sends[0], result)]
      case ConnectCompletes(ok) => [ConnectDone(ok)]
      case ReceiveCompletes(datagram) => [ReceiveDone(datagram)]
      case InvokerFires => Repeat(Wake, s.io.invoker.waits)
      case DeadlineFires => Repeat(DeadlineWake, s.io.deadline.waits)
      case _ => [];
    assert s.io.queue + [] == s.io.queue;
    hide Due;
    DueGrows(s.io.queue, b, s.io.socket.Some?);
  }

  /** The handlers that ran. */
  function Handled(evs: seq<Event>): nat {
    if evs == [] then 0 else (if evs[0].Run? then 1 else 0) + Handled(evs[1..])
  }

  lemma {:induction false} RunsKeepDue(s: State, evs: seq<Event>)
    requires Ending(s) && Feasible(s, evs) && Restart !in evs
    ensures Ending(Outcome(s, evs))
    ensures DueOf(Outcome(s, evs)) == if Handled(evs) < DueOf(s) then DueOf(s) - Handled(evs) else 0
    decreases |evs|
  {
    hide Ending, Apply, Known, Enabled, DueOf;
    if evs != [] {
      assert evs[0] in evs;
      StepKeepsDue(s, evs[0]);
      RunsKeepDue(Apply(s, evs[0]), evs[1..]);
    }
  }

  lemma NothingDue(s: State)
    requires Ending(s) && DueOf(s) == 0
    ensures Shut(s)
  {
    hide Ids, Counted, Attentive, Rested;
  }

  /** Once the destructor has posted its close, the handlers queued by then are enough to close
      the socket for good; no handler gets stuck; and once none is queued, nothing is pending
      either: joining the io thread returns. */
  lemma JoinReturns(s: State, evs: seq<Event>)
    requires Conceivable(s) && s.retired && Feasible(s, evs) && Restart !in evs
    ensures var s' := Outcome(s, evs);
            && (Handled(evs) >= |s.io.queue| ==> Shut(s'))
            && (s'.io.queue != [] ==> Known(s') && Enabled(s', Run(CannotOpen)))
            && (s'.io.queue == [] ==> Drained(s'.io))
  {
    ConceivableIsBasic(s);
    RunsKeepDue(s, evs);
    DueWithin(s.io.queue, s.io.socket.Some?);
    var s' := Outcome(s, evs);
    hide Conceivable, Feasible, Outcome, Counted, Attentive, Rested, Manned, Doomed;
    if DueOf(s') == 0 { NothingDue(s'); }
    IdsKnow(s');
  }

  // ---- After the socket is gone ----

  /** What is left to run: a completion may still ask for one more close. */
  function Remaining(q: seq<Task>): nat {
    |q| + |Landed(q)|
  }

  lemma SendDoneIdles(s: State, f: Flight, result: SendResult)
    requires Idle(s.io) && DequeKnown(s.store) && f.id < |s.store.log|
    ensures var io := HandleSend(s, f, result).io; Idle(io) && (io.queue == s.io.queue || io.queue == s.io.queue + [Close])
  {
    assert s.io.queue + Repeat(DeadlineWake, 0) == s.io.queue;
    hide AfterSend, Signalled, PopReports;
  }

  lemma StartIdles(s: State)
    requires Idle(s.io) && DequeKnown(s.store)
    ensures var io := StartSession(s).io; Idle(io) && io.queue == s.io.queue
  {
    assert s.io.queue + Repeat(DeadlineWake, 0) == s.io.queue;
  }

  lemma OthersIdle(s: State, t: Task)
    requires Idle(s.io) && DequeKnown(s.store)
    ensures HandleClose(s) == s && AwaitSendEntry(s, None) == s && CheckSendDeadline(s) == s
    ensures t.Push? ==> var io := HandlePush(s, FreshEntry(t.kind, t.body, t.to, t.callback)).io;
                        Idle(io) && io.queue == s.io.queue
    ensures t.ReceiveDone? ==> HandleReceive(s, t.datagram).io == s.io
  {
    assert s.io.queue + Repeat(Wake, 0) == s.io.queue;
    hide ReportsOf;
  }

  lemma RunIdles(s: State, opening: Opening)
    requires Idle(s.io) && Known(s) && s.io.queue != [] && !s.io.queue[0].Connect? && !s.io.queue[0].Bind?
    ensures var q, io := s.io.queue[1..], Apply(s, Run(opening)).io;
            Idle(io) && (io.queue == q || (io.queue == q + [Close] && s.io.queue[0].SendDone?))
  {
    var t, s0 := s.io.queue[0], TakeFront(s);
    assert Idle(s0.io);
    hide Idle, HandlePush, HandleClose, AwaitSendEntry, HandleSend, StartSession, CheckSendDeadline, HandleReceive;
    match t {
      case SendDone(flight, result) => SendDoneIdles(s0, flight, result);
      case ConnectDone(ok) => StartIdles(s0);
      case _ => OthersIdle(s0, t);
    }
  }

  lemma ShutRuns(s: State, opening: Opening)
    requires Shut(s) && Known(s) && s.io.queue != []
    ensures var s1 := Apply(s, Run(opening)); Shut(s1) && Remaining(s1.io.queue) < Remaining(s.io.queue)
  {
    var t, q := s.io.queue[0], s.io.queue[1..];
    assert t in s.io.queue && forall x <- q :: x in s.io.queue;
    RunIdles(s, opening);
    RunKeepsClock(s, opening);
    QueueGrows(q, [Close]);
    hide Apply;
  }

  lemma ShutStays(s: State, ev: Event)
    requires Shut(s) && Known(s) && Enabled(s, ev) && !ev.Restart?
    ensures var s1 := Apply(s, ev);
            Shut(s1) && Remaining(s1.io.queue) + (if ev.Run? then 1 else 0) <= Remaining(s.io.queue)
  {
    if ev.Run? { ShutRuns(s, ev.opening); }
    hide RunTask;
  }

  /** The queue then only gets shorter, whatever happens, and its end is the end of the thread. */
  lemma {:induction false} ThreadEnds(s: State, evs: seq<Event>)
    requires Shut(s) && Feasible(s, evs) && Restart !in evs
    ensures var s' := Outcome(s, evs);
            && Shut(s') && Handled(evs) + Remaining(s'.io.queue) <= Remaining(s.io.queue)
            && (Handled(evs) == Remaining(s.io.queue) ==> Drained(s'.io))
    decreases |evs|
  {
    hide Apply, Known, Enabled;
    if evs != [] {
      assert evs[0] in evs;
      ShutStays(s, evs[0]);
      ThreadEnds(Apply(s, evs[0]), evs[1..]);
    }
  }
}
