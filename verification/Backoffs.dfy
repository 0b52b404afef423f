/** What the sender does next: it goes on at once, sleeps until something is pushed, or backs off
    for exactly the retry delay. */
module Backoffs {
  import opened Wire
  import opened IoContext
  import opened Engine
  import opened Actors
  import opened Delivery
  import opened Sessions
  import opened Fences
  import opened Runs
  import opened Guards
  import opened Basics

  /** The sender's one operation is a wait on its timer. */
  predicate Sleeps(s: State, expiry: Expiry) {
    s.io.Running() && s.io.invoker == Timer(expiry, 1) && InPlay(s.io) == [] && Count(s.io.queue, Sender) == 0
  }

  /** The sender's one operation is a send of the front entry that starts now. */
  predicate SendsNow(s: State) {
    && s.io.Running() && s.io.invoker.waits == 0 && s.store.deque != [] && DequeKnown(s.store)
    && s.io.socket.value.sends == [Next(s).value] && Landed(s.io.queue) == [] && Count(s.io.queue, Sender) == 0
  }

  /** The sender goes on: it sends the entry at the front, or sleeps until one is pushed. */
  predicate GoesOn(s: State) {
    if s.store.deque == [] then Sleeps(s, Infinite) else SendsNow(s)
  }

  /** The sender had no other operation. */
  predicate Idle(io: Io) {
    io.invoker.waits == 0 && (io.socket.Some? ==> io.socket.value.sends == []) && Count(io.queue, Sender) == 0
  }

  lemma IdleLands(io: Io)
    requires Idle(io)
    ensures Landed(io.queue) == [] && InPlay(io) == []
  {
    LandedCounted(io.queue);
  }

  lemma FrontIdles(s: State)
    requires Intact(s) && s.io.queue != [] && RoleOf(s.io.queue[0]) == Sender
    ensures Idle(TakeFront(s).io)
  {
    IntactHasOneSender(s);
    hide Intact;
  }

  lemma AwaitsNext(s: State)
    requires DequeKnown(s.store) && s.io.Running() && Idle(s.io)
    ensures GoesOn(AwaitSendEntry(s, None))
  {
    IdleLands(s.io);
    CountConcat(s.io.queue, Repeat(DeadlineWake, s.io.deadline.waits), Sender);
    CountAll(Repeat(DeadlineWake, s.io.deadline.waits), Watchdog, Sender);
    QueueGrows(s.io.queue, Repeat(DeadlineWake, s.io.deadline.waits));
    assert s.io.queue + Repeat(Wake, 0) == s.io.queue;
  }

  lemma AwaitsDelay(s: State, delay: nat)
    requires DequeKnown(s.store) && s.io.Running() && Idle(s.io)
    ensures Sleeps(AwaitSendEntry(s, Some(delay)), At(s.now + delay))
  {
    IdleLands(s.io);
    assert s.io.queue + Repeat(Wake, 0) == s.io.queue;
  }

  /** What is left after the accounting of a completion. */
  lemma AccountIdles(s: State, f: Flight, result: SendResult)
    requires f.id < |s.store.log| && Idle(s.io)
    ensures var a := Account(s, f, result);
            Idle(a.io) && a.io.Running() == s.io.Running() && a.now == s.now
  {
    CountConcat(s.io.queue, Repeat(DeadlineWake, s.io.deadline.waits), Sender);
    CountAll(Repeat(DeadlineWake, s.io.deadline.waits), Watchdog, Sender);
    hide AfterSend, Signalled;
  }

  lemma PopIdles(s: State, id: nat)
    requires id < |s.store.log| && DequeKnown(s.store)
    ensures var p := PopIfComplete(s, id); p.io == s.io && p.now == s.now && DequeKnown(p.store)
  {
    hide PopReports;
  }

  lemma ProceedsIdle(s: State, id: nat, result: SendResult)
    requires id < |s.store.log| && DequeKnown(s.store) && s.io.Running() && Idle(s.io) && !ClosesSession(s.mode, result)
    ensures var s' := Proceed(s, id, result);
            if result == Failed(NoBufferSpace) then Sleeps(s', At(s.now + 100)) else GoesOn(s')
  {
    var p := PopIfComplete(s, id);
    PopIdles(s, id);
    hide PopIfComplete, Sleeps, GoesOn, Idle, AwaitSendEntry;
    if result == Failed(NoBufferSpace) {
      AwaitsDelay(p, RETRY_DELAY);
    } else {
      AwaitsNext(p);
    }
  }

  /** A completion in a running session that keeps it: after a lack of buffer space, even one
      that ended the entry, the sender's next move is 100 ms away; after anything else it goes on
      at once. */
  lemma BackOffExact(s: State, opening: Opening)
    requires Attainable(s) && s.io.Running() && s.io.queue != [] && s.io.queue[0].SendDone?
    requires !ClosesSession(s.mode, s.io.queue[0].result)
    ensures Known(s)
    ensures var s' := Apply(s, Run(opening));
            if s.io.queue[0].result == Failed(NoBufferSpace) then Sleeps(s', At(s.now + 100)) else GoesOn(s')
  {
    SenderFront(s);
    hide *;
    CompletionGoesOn(s, opening);
  }

  /** A sender's handler at the front is its only operation. */
  lemma SenderFront(s: State)
    requires Attainable(s) && s.io.queue != [] && RoleOf(s.io.queue[0]) == Sender
    ensures Known(s) && Idle(TakeFront(s).io)
  {
    AttainableIsIntact(s);
    IntactHasOneSender(s);
    hide Attainable, Intact, Idle;
    FrontIdles(s);
  }

  lemma CompletionProceeds(s: State, opening: Opening)
    requires Known(s) && s.io.queue != [] && s.io.queue[0].SendDone?
    ensures var f, result := s.io.queue[0].flight, s.io.queue[0].result;
            var a := Account(TakeFront(s), f, result);
            && a.mode == s.mode && DequeKnown(a.store) && f.id < |a.store.log|
            && Apply(s, Run(opening)) == Proceed(a, f.id, result)
  {
    hide AfterSend, Signalled, Proceed, Io.SetDeadline;
  }

  lemma CompletionGoesOn(s: State, opening: Opening)
    requires Known(s) && s.io.Running() && s.io.queue != [] && s.io.queue[0].SendDone? && Idle(TakeFront(s).io)
    requires !ClosesSession(s.mode, s.io.queue[0].result)
    ensures var s' := Apply(s, Run(opening));
            if s.io.queue[0].result == Failed(NoBufferSpace) then Sleeps(s', At(s.now + 100)) else GoesOn(s')
  {
    var f, result, s0 := s.io.queue[0].flight, s.io.queue[0].result, TakeFront(s);
    AccountIdles(s0, f, result);
    CompletionProceeds(s, opening);
    hide *;
    ProceedsIdle(Account(s0, f, result), f.id, result);
  }

  /** A sender that is woken in a running session goes on at once. */
  lemma WakeGoesOn(s: State, opening: Opening)
    requires Attainable(s) && s.io.Running() && s.io.queue != [] && s.io.queue[0] == Wake
    ensures Known(s) && GoesOn(Apply(s, Run(opening)))
  {
    SenderFront(s);
    hide Attainable, Idle, GoesOn;
    AwaitsNext(TakeFront(s));
  }

  /** A push wakes a sender that sleeps, however long it would have slept. */
  lemma PushWakes(s: State, expiry: Expiry, opening: Opening)
    requires Known(s) && Sleeps(s, expiry) && s.io.queue != [] && s.io.queue[0].Push?
    ensures var s' := Apply(s, Run(opening));
            && s'.io.Running() && s'.io.invoker.waits == 0 && s'.io.queue == s.io.queue[1..] + [Wake]
            && s'.store.deque == s.store.deque + [|s.store.log|]
  {
    assert Repeat(Wake, 1) == [Wake];
  }

  // ---- The back-off lasts ----

  /** The handler pushes or closes. */
  predicate Interrupts(s: State, ev: Event) {
    ev.Run? && s.io.queue != [] && (s.io.queue[0].Push? || s.io.queue[0].Close?)
  }

  ghost predicate Uninterrupted(s: State, evs: seq<Event>)
    requires Allowed(s, evs)
    decreases |evs|
  {
    evs == [] || (!Interrupts(s, evs[0]) && Uninterrupted(Apply(s, evs[0]), evs[1..]))
  }

  /** The handlers that may run meanwhile leave the sender alone. */
  lemma HandlersLeave(s: State, t: Task, opening: Opening)
    requires DequeKnown(s.store) && s.io.Running() && RoleOf(t) != Sender && RoleOf(t) != Starter && !t.Push? && !t.Close?
    ensures var io := RunTask(s, t, opening).io;
            && io.Running() && io.invoker == s.io.invoker && io.socket.value.sends == s.io.socket.value.sends
            && (io.queue == s.io.queue || io.queue == s.io.queue + [Close])
  {
    hide ReportsOf;
  }

  lemma RunStaysAsleep(s: State, opening: Opening, expiry: Expiry)
    requires Known(s) && Sleeps(s, expiry) && s.io.queue != [] && !Interrupts(s, Run(opening))
    requires RoleOf(s.io.queue[0]) != Starter
    ensures var s' := Apply(s, Run(opening)); Sleeps(s', expiry) && s'.now == s.now
  {
    var t, s0 := s.io.queue[0], TakeFront(s);
    assert RoleOf(t) != Sender && Landed(s.io.queue) == [];
    assert Landed(s0.io.queue) == [] && Count(s0.io.queue, Sender) == 0;
    CountConcat(s0.io.queue, [Close], Sender);
    QueueGrows(s0.io.queue, [Close]);
    assert Count([Close], Sender) == 0 by { assert [Close][1..] == []; }
    HandlersLeave(s0, t, opening);
    RunKeepsClock(s, opening);
    hide RunTask;
  }

  lemma ElsewhereAsleep(s: State, ev: Event, until: nat)
    requires Known(s) && Enabled(s, ev) && Sleeps(s, At(until)) && !ev.Run? && (ev.InvokerFires? ==> s.now < until)
    ensures var s' := Apply(s, ev); Sleeps(s', At(until)) && s'.now >= s.now
  {
    StepMoves(s, ev);
    var b := match ev
      case Posted(t) => [t]
      case Retire => [Close]
      case ConnectCompletes(ok) => [ConnectDone(ok)]
      case ReceiveCompletes(datagram) => [ReceiveDone(datagram)]
      case DeadlineFires => Repeat(DeadlineWake, s.io.deadline.waits)
      case _ => [];
    NoSenders(s.io.queue, b);
    assert s.io.queue + [] == s.io.queue;
    assert Apply(s, ev).io.queue == s.io.queue + b;
    hide Count, InPlay;
  }

  lemma NoSenders(q: seq<Task>, b: seq<Task>)
    requires forall i :: 0 <= i < |b| ==> RoleOf(b[i]) != Sender
    ensures Count(q + b, Sender) == Count(q, Sender)
  {
    CountConcat(q, b, Sender);
    CountPositive(b, Sender);
  }

  /** While a session runs, no handler ahead of a close starts another. */
  lemma NoStarterFirst(s: State)
    requires Intact(s) && s.io.Running() && s.io.queue != []
    ensures RoleOf(s.io.queue[0]) != Starter
  {
    if s.mode == Client {
    } else {
      ServerNeverStartsTwice(s);
    }
    hide Delivered;
  }

  lemma ServerNeverStartsTwice(s: State)
    requires s.mode == Server && OneOfEach(s) && s.io.Running() && s.io.queue != []
    ensures RoleOf(s.io.queue[0]) != Starter
  {
    if s.io.queue[0] != Close { FrontPays(s.mode, s.io); }
  }

  lemma StaysAsleep(s: State, ev: Event, until: nat)
    requires Intact(s) && Known(s) && Enabled(s, ev) && Sleeps(s, At(until)) && !Interrupts(s, ev)
    requires ev.InvokerFires? ==> s.now < until
    ensures var s' := Apply(s, ev); Sleeps(s', At(until)) && s'.now >= s.now
  {
    if ev.Run? {
      NoStarterFirst(s);
      hide Intact, Sleeps, Apply;
      RunStaysAsleep(s, ev.opening, At(until));
    } else {
      hide Intact, Sleeps, Apply;
      ElsewhereAsleep(s, ev, until);
    }
  }

  lemma {:induction false} TimeGrows(s: State, evs: seq<Event>)
    requires Allowed(s, evs)
    ensures s.now <= Reached(s, evs).now
    decreases |evs|
  {
    hide Apply, Known, Enabled, Guarded;
    if evs != [] {
      StepTakesTime(s, evs[0]);
      TimeGrows(Apply(s, evs[0]), evs[1..]);
    }
  }

  lemma StepTakesTime(s: State, ev: Event)
    requires Known(s) && Enabled(s, ev)
    ensures s.now <= Apply(s, ev).now
  {
    if ev.Run? { RunKeepsClock(s, ev.opening); }
    hide RunTask;
  }

  /** In every guarded run from there that handles no push and no close: before the sleep is over
      nothing is sent, and as long as its timer has not fired it can fire exactly from then on. */
  lemma {:induction false} BackOffLasts(s: State, evs: seq<Event>, until: nat)
    requires Intact(s) && Sleeps(s, At(until)) && Allowed(s, evs) && Uninterrupted(s, evs)
    requires Reached(s, evs).now < until || InvokerFires !in evs
    ensures var s' := Reached(s, evs);
            Sleeps(s', At(until)) && InPlay(s'.io) == [] && (until <= s'.now <==> Enabled(s', InvokerFires))
    decreases |evs|
  {
    if evs == [] {
    } else {
      var s1 := Apply(s, evs[0]);
      assert evs[0] in evs && forall ev <- evs[1..] :: ev in evs;
      TimeGrows(s, evs);
      StaysAsleep(s, evs[0], until);
      StepKeepsIntact(s, evs[0]);
      hide Intact, Apply, Known, Guarded, Interrupts, InPlay;
      BackOffLasts(s1, evs[1..], until);
    }
  }
}
