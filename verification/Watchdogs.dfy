/** The sender and its watchdog, in every run whose connects are guarded: one sender at the
    front of the deque, when the check closes the session, and that the check comes. */
module Watchdogs {
  import opened Wire
  import opened IoContext
  import opened Engine
  import opened Actors
  import opened Delivery
  import opened Sessions
  import opened Runs
  import opened Fences
  import opened Guards
  import opened Basics

  /** A client's fence is enough for a sender that goes on to find no send in play. */
  lemma FencedVacant(s: State)
    requires s.mode == Client && Fenced(s.io)
    ensures Vacant(s)
  {
    if s.io.queue != [] {
      LandedCounted(s.io.queue[1..]);
      assert s.io.queue[0] in s.io.queue;
    }
  }

  lemma StepStaysWatched(s: State, ev: Event)
    requires Intact(s) && Watched(s) && Enabled(s, ev)
    ensures Known(s) && Watched(Apply(s, ev))
  {
    IntactHasOneSender(s);
    if s.mode == Client { FencedVacant(s); } else { IsVacant(s); }
    hide Intact, OneSender, Vacant, Watched, Apply;
    StepKeepsWatch(s, ev);
  }

  lemma {:induction false} RunStaysWatched(s: State, evs: seq<Event>)
    requires Intact(s) && Watched(s) && Allowed(s, evs)
    ensures Watched(Reached(s, evs))
    decreases |evs|
  {
    hide Intact, Watched, Apply, Known, Enabled, Guarded;
    if evs != [] {
      StepStaysWatched(s, evs[0]);
      StepKeepsIntact(s, evs[0]);
      RunStaysWatched(Apply(s, evs[0]), evs[1..]);
    }
  }

  lemma AttainableIsWatched(s: State)
    requires Attainable(s)
    ensures Watched(s) && Manned(s.mode, s.io)
  {
    hide Inv, Fenced, Delivered, Watched, Basic;
    var mode, bufferSize: nat, evs :|
      Allowed(Init(mode, bufferSize), evs) && s == Reached(Init(mode, bufferSize), evs);
    InitIntact(mode, bufferSize);
    InitHolds(mode, bufferSize);
    assert Watched(Init(mode, bufferSize)) by { assert Inv(Init(mode, bufferSize)); InvWatched(Init(mode, bufferSize)); }
    RunStaysWatched(Init(mode, bufferSize), evs);
    AllowedIsFeasible(Init(mode, bufferSize), evs);
    ConceivableIsBasic(s);
    BasicManned(s);
  }

  lemma InvWatched(s: State)
    requires Inv(s)
    ensures Watched(s)
  {
  }

  lemma BasicManned(s: State)
    requires Basic(s)
    ensures Manned(s.mode, s.io)
  {
  }

  /** At most one sender exists; the send in play is of the entry at the front of the deque,
      offers exactly the bytes the entry still owes, and, while a session runs, was started in
      it. */
  lemma SingleSender(s: State)
    requires Attainable(s)
    ensures Operations(s.io, Sender) <= 1 && |InPlay(s.io)| <= 1
    ensures forall f <- InPlay(s.io) ::
              && s.store.deque != [] && f.id == s.store.deque[0] < |s.store.log|
              && f.slice == MakeBuffer(s.store.log[f.id]) && f.to == s.store.log[f.id].to
              && f.startedAt <= s.now && (s.io.Running() ==> f.session == s.generation)
  {
    AttainableIsWatched(s);
    AttainableIsIntact(s);
    IntactHasOneSender(s);
    LandedCounted(s.io.queue);
    assert SoundSends(s.store, s.io) by { hide SoundSends; }
    hide Attainable, InPlay, Intact, MakeBuffer;
  }

  /** A watchdog check closes the session exactly when the send in play (there is at most one)
      was not started by `start_actors` and is unhandled more than 5000 ms after its start,
      which was in this session. */
  lemma WatchdogExact(s: State)
    requires Attainable(s) && s.io.Running()
    ensures s.io.Check(s.now) == s.io.Post(Close) <==>
              !s.blind && InPlay(s.io) != [] && InPlay(s.io)[0].session == s.generation
              && InPlay(s.io)[0].startedAt + 5000 < s.now
  {
    AttainableIsWatched(s);
    CheckDecides(s.io, s.now);
    hide Attainable, InPlay, Io.Check, Io.Post;
    ExpiryDecides(s);
  }

  lemma ExpiryDecides(s: State)
    requires Watched(s) && s.io.Running()
    ensures s.io.deadline.expiry.At? && s.io.deadline.expiry.time < s.now <==>
              !s.blind && InPlay(s.io) != [] && InPlay(s.io)[0].session == s.generation
              && InPlay(s.io)[0].startedAt + SEND_DEADLINE < s.now
  {
    hide InPlay;
    if InPlay(s.io) != [] { assert InPlay(s.io)[0] in InPlay(s.io); }
  }

  /** The check comes: once a send is overdue that the watchdog watches, the check is queued or
      its timer can fire, unless the session was asked to close. */
  lemma WatchdogComes(s: State)
    requires Attainable(s) && s.mode == Client && s.io.Running() && Close !in s.io.queue
    requires !s.blind && InPlay(s.io) != [] && InPlay(s.io)[0].startedAt + 5000 <= s.now
    ensures DeadlineWake in s.io.queue || Enabled(s, DeadlineFires)
  {
    AttainableIsWatched(s);
    CountPositive(s.io.queue, Closer);
    CountPositive(s.io.queue, Watchdog);
    hide Attainable, InPlay;
  }
}
