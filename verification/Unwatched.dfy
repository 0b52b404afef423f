/** The send that starts a client's session is out of the watchdog's sight for as long as its
    completion is not handled, however long that takes. */
module Unwatched {
  import opened Wire
  import opened IoContext
  import opened Engine
  import opened Actors
  import opened Delivery
  import opened Sessions
  import opened Runs

  /** The event is not the handling of a send's completion. */
  predicate Unhandled(s: State, ev: Event) {
    !(ev.Run? && s.io.queue != [] && s.io.queue[0].SendDone?)
  }

  ghost predicate LeavesUnhandled(s: State, evs: seq<Event>)
    requires Possible(s, evs)
    decreases |evs|
  {
    evs == [] || (Unhandled(s, evs[0]) && LeavesUnhandled(Apply(s, evs[0]), evs[1..]))
  }

  /** A session runs, and the send in play was started by `start_actors`. */
  predicate Blind(s: State) {
    s.mode == Client && s.blind && s.io.Running()
  }

  /** With a send in play there is no other sender that could wake up. */
  lemma NoSleeper(s: State)
    requires OneOfEach(s) && InPlay(s.io) != [] && s.io.queue != []
    ensures s.io.queue[0] != Wake
  {
    LandedCounted(s.io.queue[1..]);
  }

  /** The handlers that may run while the send is in play. */
  lemma QuietRuns(s: State, t: Task, opening: Opening)
    requires DequeKnown(s.store) && s.io.Running() && RoleOf(t) != Sender && RoleOf(t) != Starter && !t.Close?
    ensures var s' := RunTask(s, t, opening); s'.mode == s.mode && s'.blind == s.blind && SameSends(s.io, s'.io)
    ensures RunTask(s, t, opening).io.Running() && RunTask(s, t, opening).generation == s.generation
  {
    SetInvokerMoves(s.io, At(s.now));
    CheckMoves(s.io, s.now);
    ReceiveMoves(s.io);
    hide InPlay, ResultsFit, ReportsOf;
  }

  lemma RunStaysBlind(s: State, opening: Opening)
    requires Inv(s) && Known(s) && Blind(s) && s.io.queue != [] && !s.io.queue[0].SendDone?
    requires Apply(s, Run(opening)).generation == s.generation
    ensures var s' := Apply(s, Run(opening)); Blind(s') && InPlay(s'.io) == InPlay(s.io)
  {
    var t := s.io.queue[0];
    RunCounts(s, opening);
    NoSleeper(s);
    if t != Close { FrontPays(s.mode, s.io); }
    QuietFront(s);
    hide Inv, RunTask, InPlay, Live;
    QuietRuns(TakeFront(s), t, opening);
  }

  lemma QuietFront(s: State)
    requires s.io.queue != [] && !s.io.queue[0].SendDone?
    ensures InPlay(TakeFront(s).io) == InPlay(s.io)
  {
  }

  lemma StaysBlind(s: State, ev: Event)
    requires Inv(s) && Known(s) && Enabled(s, ev) && Blind(s) && Unhandled(s, ev)
    requires Apply(s, ev).generation == s.generation
    ensures var s' := Apply(s, ev); Blind(s') && InPlay(s'.io) == InPlay(s.io)
  {
    if ev.Run? {
      RunStaysBlind(s, ev.opening);
    } else {
      StepMoves(s, ev);
      hide Inv, InPlay;
    }
  }

  lemma {:induction false} GenerationsGrow(s: State, evs: seq<Event>)
    requires s.mode == Client && Inv(s) && Possible(s, evs)
    ensures s.generation <= After(s, evs).generation
    decreases |evs|
  {
    if evs != [] {
      GenerationsMoveOn(s, evs[0]);
      StepHolds(s, evs[0]);
      ModeStays(s, evs[0]);
      hide Inv, Apply;
      GenerationsGrow(Apply(s, evs[0]), evs[1..]);
    }
  }

  lemma ModeStays(s: State, ev: Event)
    requires Known(s) && Enabled(s, ev) && s.mode == Client
    ensures Apply(s, ev).mode == Client
  {
    if ev.Run? { RunCounts(s, ev.opening); }
    hide RunTask;
  }

  lemma {:induction false} RunsStayBlind(s: State, evs: seq<Event>)
    requires Inv(s) && Blind(s) && Possible(s, evs) && LeavesUnhandled(s, evs)
    requires After(s, evs).generation == s.generation
    ensures Inv(After(s, evs)) && Blind(After(s, evs)) && InPlay(After(s, evs).io) == InPlay(s.io)
    decreases |evs|
  {
    if evs != [] {
      var s1 := Apply(s, evs[0]);
      StepHolds(s, evs[0]);
      GenerationsMoveOn(s, evs[0]);
      ModeStays(s, evs[0]);
      hide Inv, Apply, InPlay;
      GenerationsGrow(s1, evs[1..]);
      StaysBlind(s, evs[0]);
      RunsStayBlind(s1, evs[1..]);
    }
  }

  /** Until its completion is handled or its session ends, the send that started a session
      stays in play and every check of the watchdog waits on, whatever the time. */
  lemma NeverWatched(s: State, evs: seq<Event>)
    requires Inv(s) && s.mode == Client && s.blind && s.io.Running()
    requires Possible(s, evs) && LeavesUnhandled(s, evs) && After(s, evs).generation == s.generation
    ensures var s' := After(s, evs);
            && s'.blind && InPlay(s'.io) == InPlay(s.io) != []
            && s'.io.Check(s'.now) == s'.io.WaitDeadline() != s'.io.Post(Close)
  {
    RunsStayBlind(s, evs);
    var s' := After(s, evs);
    BlindSleeps(s);
    BlindSleeps(s');
    hide Inv, InPlay, Possible, After;
  }

  lemma BlindSleeps(s: State)
    requires Inv(s) && Blind(s)
    ensures InPlay(s.io) != [] && s.io.Check(s.now) == s.io.WaitDeadline() != s.io.Post(Close)
  {
    CheckDecides(s.io, s.now);
  }
}
