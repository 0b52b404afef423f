/** A lost entry stays lost: once an entry has left the deque and no send of it is in play, no
    run of the engine sends anything of it again, whatever its connects do. */
module Permanence {
  import opened Wire
  import opened IoContext
  import opened Engine
  import opened Actors
  import opened Delivery
  import opened Basics

  /** Nothing is left that could send the entry: it is not in the deque, and no send of it is
      pending or has its completion queued. */
  predicate Gone(s: State, i: nat) {
    i !in s.store.deque && forall f <- InPlay(s.io) :: f.id != i
  }

  /** Some offset of the buffer was never among the bytes reported as transferred. */
  predicate Missing(e: Entry) {
    exists k :: 0 <= k < |e.buffer| && k !in e.reached
  }

  /** The entry left the deque, was not given up, misses some of its bytes, and always will. */
  predicate Lost(s: State, i: nat) {
    && i < |s.store.log| && i in s.store.processed && Gone(s, i)
    && s.store.log[i].dropped.None? && Missing(s.store.log[i])
  }

  // ---- What a handler does to the store ----

  /** The entry `i` is left alone: as it was, not put back into the deque, still processed. */
  predicate Spares(b: Store, b': Store, i: nat) {
    i < |b.log| ==>
      && i < |b'.log| && b'.log[i] == b.log[i]
      && (i !in b.deque ==> i !in b'.deque) && (i in b.processed ==> i in b'.processed)
  }

  lemma RunSpares(s: State, opening: Opening, i: nat)
    requires Known(s) && s.io.queue != []
    requires s.io.queue[0].SendDone? ==> s.io.queue[0].flight.id != i
    ensures Spares(s.store, Apply(s, Run(opening)).store, i)
  {
    var t, s0 := s.io.queue[0], TakeFront(s);
    hide HandlePush, HandleClose, HandleConnect, HandleBind, AwaitSendEntry, HandleSend, HandleConnectDone,
      CheckSendDeadline, HandleReceive;
    match t {
      case Push(kind, body, to, callback) => PushSpares(s0, FreshEntry(kind, body, to, callback), i);
      case SendDone(flight, result) => SendDoneSpares(s0, flight, result, i);
      case _ => SessionsKeepStore(s0, t, opening);
    }
  }

  lemma PushSpares(s: State, e: Entry, i: nat)
    ensures Spares(s.store, HandlePush(s, e).store, i)
  {
  }

  lemma SendDoneSpares(s: State, f: Flight, result: SendResult, i: nat)
    requires DequeKnown(s.store) && f.id < |s.store.log| && f.id != i
    ensures Spares(s.store, HandleSend(s, f, result).store, i)
  {
    hide AfterSend, Io.Await;
  }

  // ---- For good ----

  lemma RunStaysLost(s: State, opening: Opening, i: nat)
    requires Known(s) && s.io.queue != [] && Lost(s, i)
    ensures Lost(Apply(s, Run(opening)), i)
  {
    if s.io.queue[0].SendDone? { assert s.io.queue[0].flight in InPlay(s.io); }
    RestMoves(s.io);
    RunSpares(s, opening, i);
    var xs := RunEnters(s, opening);
    hide Apply, InPlay;
  }

  lemma StaysLost(s: State, ev: Event, i: nat)
    requires Known(s) && Enabled(s, ev) && Lost(s, i)
    ensures Lost(Apply(s, ev), i)
  {
    match ev {
      case Run(opening) => RunStaysLost(s, opening, i);
      case Restart => LandedNone(FreshIo(Server).queue);
      case _ => StepMoves(s, ev);
    }
    hide InPlay, RunTask;
  }

  /** A lost entry is lost in every later state, over closes, reconnects and restarts. */
  lemma {:induction false} LostForGood(s: State, evs: seq<Event>, i: nat)
    requires Lost(s, i) && Feasible(s, evs)
    ensures Lost(Outcome(s, evs), i)
    decreases |evs|
  {
    hide Lost, Apply, Known, Enabled;
    if evs != [] {
      StaysLost(s, evs[0], i);
      LostForGood(Apply(s, evs[0]), evs[1..], i);
    }
  }
}
