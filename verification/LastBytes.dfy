/** What two senders cannot lose: the last byte of the last entry of a client being destroyed. */
module LastBytes {
  import opened Wire
  import opened IoContext
  import opened Engine
  import opened Actors
  import opened Delivery
  import opened Sessions
  import opened Fences
  import opened Basics
  import opened Permanence

  // ---- The last byte of the last entry of a client being destroyed ----

  /** Given up, or every offset was reached, perhaps more than once. */
  predicate Over(e: Entry) {
    e.dropped.Some? || !Missing(e)
  }

  /** All but the last byte were reached, and that one is owed. */
  predicate LastByte(e: Entry) {
    && e.dropped.None? && e.transferred + 1 == |e.buffer|
    && forall k :: 0 <= k < |e.buffer| - 1 ==> k in e.reached
  }

  /** The entry `i` is the last of the log and owes its last byte, or is over, as it is once it
      left the deque. */
  predicate Lone(b: Store, i: nat) {
    && |b.log| == i + 1 && (b.deque == [] || b.deque == [i])
    && (forall j :: 0 <= j < i ==> Over(b.log[j]))
    && (Over(b.log[i]) || LastByte(b.log[i]))
    && (i in b.processed ==> Over(b.log[i]))
  }

  /** The sends in play are of the entry `i`, and of its last byte unless it is over. */
  predicate LastSends(b: Store, io: Io, i: nat) {
    i < |b.log| && forall f <- InPlay(io) :: f.id == i && (!Over(b.log[i]) ==> |f.slice| == 1)
  }

  /** A client being destroyed with no push to come: whatever senders are at work, they send
      the last byte of the last entry. */
  predicate Alone(s: State, i: nat) {
    && s.mode == Client && s.retired && Lone(s.store, i) && LastSends(s.store, s.io, i)
    && (forall t <- s.io.queue :: !t.Push? && !t.Bind?) && ResultsFit(s.io.queue)
  }

  lemma AloneLosesNothing(s: State, i: nat, j: nat)
    requires Alone(s, i)
    ensures !Lost(s, j)
  {
    if j < i { assert Over(s.store.log[j]); }
  }

  /** A completion ends the entry, leaves it as it is but for its counters, or covers what an
      entry that is over had covered. */
  lemma CompletionEnds(e: Entry, slice: seq<byte>, result: SendResult)
    requires Over(e) || (LastByte(e) && |slice| == 1)
    requires result.Sent? ==> 1 <= result.n <= |slice|
    ensures var e' := AfterSend(Client, e, slice, result);
            && (Over(e) ==> Over(e')) && (Over(e') || (LastByte(e') && !TransferComplete(e')))
  {
    var e' := AfterSend(Client, e, slice, result);
    assert e'.buffer == e.buffer && e.reached <= e'.reached && (e.dropped.Some? ==> e'.dropped.Some?);
    if result.Sent? && !Over(e) {
      assert |e.buffer| - 1 in e'.reached;
    }
    hide Span;
  }

  lemma SendDoneAlone(s: State, f: Flight, result: SendResult)
    requires s.mode == Client && Lone(s.store, f.id) && (!Over(s.store.log[f.id]) ==> |f.slice| == 1)
    requires result.Sent? ==> 1 <= result.n <= |f.slice|
    ensures var b := HandleSend(s, f, result).store;
            Lone(b, f.id) && (Over(s.store.log[f.id]) ==> Over(b.log[f.id]))
  {
    AccountsLone(s, f, result);
    hide Account, Io.Await, PopReports, Over, LastByte;
  }

  lemma AccountsLone(s: State, f: Flight, result: SendResult)
    requires s.mode == Client && Lone(s.store, f.id) && (!Over(s.store.log[f.id]) ==> |f.slice| == 1)
    requires result.Sent? ==> 1 <= result.n <= |f.slice|
    ensures var b, i := Account(s, f, result).store, f.id;
            && b.deque == s.store.deque && Lone(b, i) && (TransferComplete(b.log[i]) ==> Over(b.log[i]))
            && (Over(s.store.log[i]) ==> Over(b.log[i]))
  {
    CompletionEnds(s.store.log[f.id], f.slice, result);
    hide AfterSend, Signalled, Over, LastByte;
  }

  lemma StoreStaysLone(s: State, opening: Opening, i: nat)
    requires Alone(s, i) && Known(s) && s.io.queue != []
    ensures var b := Apply(s, Run(opening)).store;
            Lone(b, i) && (Over(s.store.log[i]) ==> Over(b.log[i]))
  {
    var t, s0 := s.io.queue[0], TakeFront(s);
    assert t in s.io.queue;
    if t.SendDone? { assert t.flight in InPlay(s.io); }
    hide InPlay, HandleSend, HandleClose, HandleConnect, HandleBind, AwaitSendEntry, HandleConnectDone, CheckSendDeadline,
      HandleReceive, Lone, Over;
    if t.SendDone? {
      SendDoneAlone(s0, t.flight, t.result);
    } else {
      SessionsKeepStore(s0, t, opening);
    }
  }

  /** What enters play is of the last byte too. */
  lemma SendsStayLast(s: State, s1: State, xs: seq<Flight>, i: nat)
    requires LastSends(s.store, s.io, i) && Lone(s1.store, i) && (i < |s.store.log| && Over(s.store.log[i]) ==> Over(s1.store.log[i]))
    requires s.io.queue != [] && Enters(TakeFront(s).io, s1, xs)
    ensures LastSends(s1.store, s1.io, i)
  {
    RestMoves(s.io);
    forall f <- xs ensures f.id == i && (!Over(s1.store.log[i]) ==> |f.slice| == 1) { }
    hide InPlay, Over;
  }

  lemma RunStaysAloneOnce(s: State, opening: Opening, i: nat)
    requires Alone(s, i) && Known(s) && s.io.queue != []
    ensures Alone(Apply(s, Run(opening)), i)
  {
    var q, s1 := s.io.queue[1..], Apply(s, Run(opening));
    assert s.io.queue[0] in s.io.queue;
    StoreStaysLone(s, opening, i);
    RunCounts(s, opening);
    RunExtends(s, opening);
    RunKeepsClock(s, opening);
    var xs := RunEnters(s, opening);
    SendsStayLast(s, s1, xs, i);
    assert ResultsFit(q);
    ExtendsFit(q, s1.io.queue);
    hide RunTask, InPlay, Extends, ResultsFit, Over, LastSends, Lone;
  }

  lemma ExtendsFit(q: seq<Task>, q': seq<Task>)
    requires Extends(q, q') && (forall t <- q :: !t.Push? && !t.Bind?) && ResultsFit(q)
    ensures (forall t <- q' :: !t.Push? && !t.Bind?) && ResultsFit(q')
  {
    assert forall i :: 0 <= i < |q| ==> q'[i] == q'[..|q|][i] == q[i];
    forall i | 0 <= i < |q'| ensures !q'[i].Push? && !q'[i].Bind? {
      if i < |q| { assert q[i] in q; }
    }
  }

  lemma {:induction false} RunStaysAlone(s: State, evs: seq<Event>, i: nat)
    requires Alone(s, i) && Allowed(s, evs)
    ensures Alone(Reached(s, evs), i)
    decreases |evs|
  {
    if evs != [] {
      StaysAlone(s, evs[0], i);
      hide Alone, Apply, Known, Enabled, Guarded;
      RunStaysAlone(Apply(s, evs[0]), evs[1..], i);
    }
  }

  lemma StaysAlone(s: State, ev: Event, i: nat)
    requires Alone(s, i) && Known(s) && Enabled(s, ev)
    ensures Alone(Apply(s, ev), i)
  {
    if ev.Run? {
      RunStaysAloneOnce(s, ev.opening, i);
    } else {
      StepMoves(s, ev);
    }
    hide InPlay, RunTask, ResultsFit, Over, Lone;
  }
}
