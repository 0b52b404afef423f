/** The main results: what holds in every state that the engine can reach, over any mix of
    sends, errors, closes, reconnects and server restarts. */
module Runs {
  import opened Wire
  import opened IoContext
  import opened Engine
  import opened Actors
  import opened Delivery
  import opened Sessions

  predicate Inv(s: State) {
    && OneOfEach(s) && Delivered(s) && Attentive(s) && Watched(s) && Counted(s) && Doomed(s)
  }

  lemma InitHolds(mode: Mode, bufferSize: nat)
    ensures Inv(Init(mode, bufferSize))
  {
    var s := Init(mode, bufferSize);
    FreshIsClean(mode);
    FreshDelivers(s, s.store, mode);
    LandedNone(s.io.queue);
    if mode == Server {
      assert s.io.queue == [Close] + [Bind];
      Grow([Close], [Bind]);
      One(Close);
      One(Bind);
    }
    hide OneOfEach, Delivered;
  }

  lemma StepHolds(s: State, ev: Event)
    requires Inv(s) && Known(s) && Enabled(s, ev) && Calm(s, ev)
    ensures Inv(Apply(s, ev))
  {
    hide OneOfEach, Delivered, Attentive, Watched, Counted, Doomed, Apply, Known, Enabled, Calm, Vacant, OneSender;
    StepKeepsActors(s, ev);
    OneSenderAtMost(s);
    StepKeepsDelivery(s, ev);
    StepKeepsAttention(s, ev);
    IsVacant(s);
    StepKeepsWatch(s, ev);
    StepKeepsCount(s, ev);
    StepKeepsDoom(s, ev);
  }

  lemma IsVacant(s: State)
    requires OneOfEach(s)
    ensures Vacant(s)
  {
    hide OneOfEach, InPlay;
    if s.io.queue != [] && (RoleOf(s.io.queue[0]) == Sender || RoleOf(s.io.queue[0]) == Starter) { NoWaitPending(s); }
  }

  lemma OneSenderAtMost(s: State)
    requires OneOfEach(s)
    ensures OneSender(s)
  {
    if s.io.queue != [] { FrontOf(s); }
  }

  lemma {:induction false} RunHolds(s: State, evs: seq<Event>)
    requires Inv(s) && Possible(s, evs)
    ensures Inv(After(s, evs))
    decreases |evs|
  {
    hide Inv, Apply;
    if evs != [] {
      StepHolds(s, evs[0]);
      RunHolds(Apply(s, evs[0]), evs[1..]);
    }
  }

  /** Some run of a fresh engine leads to `s`. */
  ghost predicate Reachable(s: State) {
    exists mode, bufferSize: nat, evs ::
      Possible(Init(mode, bufferSize), evs) && s == After(Init(mode, bufferSize), evs)
  }

  lemma ReachableHolds(s: State)
    requires Reachable(s)
    ensures Inv(s)
  {
    hide Inv;
    var mode, bufferSize: nat, evs :|
      Possible(Init(mode, bufferSize), evs) && s == After(Init(mode, bufferSize), evs);
    InitHolds(mode, bufferSize);
    RunHolds(Init(mode, bufferSize), evs);
  }

  /** In a reachable state every enabled, calm event can happen: `Known` never stands in the way. */
  lemma {:induction false} RunsExtend(s: State, evs: seq<Event>, ev: Event)
    requires Inv(s) && Possible(s, evs)
    requires Enabled(After(s, evs), ev) && Calm(After(s, evs), ev)
    ensures Possible(s, evs + [ev])
    ensures Known(After(s, evs)) && After(s, evs + [ev]) == Apply(After(s, evs), ev)
    decreases |evs|
  {
    hide Inv, Apply, Enabled, Calm, Known;
    if evs == [] {
      InvKnows(s);
      assert evs + [ev] == [ev];
      assert [ev][1..] == [];
    } else {
      assert (evs + [ev])[1..] == evs[1..] + [ev];
      StepHolds(s, evs[0]);
      RunsExtend(Apply(s, evs[0]), evs[1..], ev);
    }
  }

  lemma InvKnows(s: State)
    requires Inv(s)
    ensures Known(s)
  {
    hide OneOfEach, Attentive, Watched, Counted, Doomed, Delivered;
    DeliveredKnows(s);
  }

  // ---- One sender, and it works at the front ----

  /** At most one sender, watchdog, receiver and starter exist; the send in play is of the
      entry at the front of the deque, offers exactly the bytes the entry still owes, and,
      while a session runs, was started in it. */
  lemma SingleChain(s: State)
    requires Reachable(s)
    ensures Operations(s.io, Sender) <= 1 && Operations(s.io, Watchdog) <= 1
    ensures Operations(s.io, Receiver) <= 1 && Operations(s.io, Starter) <= 1
    ensures |InPlay(s.io)| <= 1
    ensures forall f <- InPlay(s.io) ::
              && s.store.deque != [] && f.id == s.store.deque[0] < |s.store.log|
              && f.slice == MakeBuffer(s.store.log[f.id]) && f.to == s.store.log[f.id].to
              && (s.io.Running() ==> f.session == s.generation)
  {
    ReachableHolds(s);
    LandedCounted(s.io.queue);
  }

  /** What a closed session left in the queue has run before the next one starts: a handler
      that starts a session finds no sender, watchdog or receiver operation anywhere. */
  lemma LeftoversDieFirst(s: State)
    requires Reachable(s) && s.io.queue != [] && RoleOf(s.io.queue[0]) == Starter
    ensures !s.io.Running()
    ensures Operations(s.io, Sender) == Operations(s.io, Watchdog) == Operations(s.io, Receiver) == 0
  {
    ReachableHolds(s);
    FrontPays(s.mode, s.io);
  }

  // ---- The watchdog ----

  lemma CheckDecides(io: Io, now: nat)
    requires io.Running()
    ensures io.Check(now) == io.Post(Close) <==> io.deadline.expiry.At? && io.deadline.expiry.time < now
  {
    assert |io.Post(Close).queue| == |io.queue| + 1;
  }

  /** A running client session has one watchdog, unless it was just asked to close; a server
      has none. */
  lemma OneWatchdog(s: State)
    requires Reachable(s)
    ensures s.mode == Client && s.io.Running() && Count(s.io.queue, Closer) == 0 ==> Operations(s.io, Watchdog) == 1
    ensures s.mode == Server ==> Operations(s.io, Watchdog) == 0
  {
    ReachableHolds(s);
  }

  /** The send that starts a session is never watched: `start_actors` re-arms the watchdog
      without a limit after starting it. That is so exactly for a session that starts with
      entries waiting. */
  lemma FirstSendUnwatched(s: State)
    requires Inv(s) && s.io.socket.Some? && s.io.queue != [] && s.io.queue[0] == ConnectDone(true)
    ensures DequeKnown(s.store)
    ensures var s' := HandleConnectDone(TakeFront(s), true);
            && s'.io.deadline.expiry == Infinite
            && (InPlay(s'.io) != [] <==> s.store.deque != [])
            && (s'.blind <==> s.store.deque != [])
  {
    InvKnows(s);
    NoWaitPending(s);
    var s1 := TurnReady(TakeFront(s));
    StartActorsMoves(s1.io, s1.now, s1.mode == Client, Next(s1));
    StartActorsDisarms(s1.io, s1.now, s1.mode == Client, Next(s1));
    hide Inv, Io.StartActors;
  }

  // ---- Sessions ----

  /** A generation is never used twice: within one engine every step keeps it or moves it on. */
  lemma GenerationsMoveOn(s: State, ev: Event)
    requires Known(s) && Enabled(s, ev) && !ev.Restart?
    ensures s.generation <= Apply(s, ev).generation <= s.generation + 1
  {
    if ev.Run? { RunCounts(s, ev.opening); }
    hide RunTask;
  }
}
