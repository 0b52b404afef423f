/** Two senders on one socket lose an entry, or part of one, for good: exactly the connects that
    break their guard lead there, if there is more than one byte to send. */
module Losses {
  import opened Wire
  import opened IoContext
  import opened Engine
  import opened Actors
  import opened Delivery
  import opened Sessions
  import opened Fences
  import opened Basics
  import opened Guards
  import opened Permanence
  import opened Overlap
  import opened Twins
  import opened Pops
  import opened LastBytes

  /** Some continuation in which every further connect is guarded loses an entry for good. */
  ghost predicate CanLose(s: State) {
    exists evs, i: nat :: Allowed(s, evs) && Lost(Reached(s, evs), i)
  }

  // ---- An empty deque ----

  /** A client that no close will stop: none is queued and the watchdog is not overdue. What
      waits is not slept on. */
  predicate Undisturbed(s: State) {
    && Close !in s.io.queue && (s.store.deque != [] ==> s.io.invoker.waits == 0)
    && (s.io.ready && s.io.deadline.expiry.At? ==> s.now <= s.io.deadline.expiry.time)
  }

  lemma AwaitUndisturbed(s: State)
    requires DequeKnown(s.store) && Undisturbed(s)
    ensures Undisturbed(AwaitSendEntry(s, None))
  {
  }

  lemma StartUndisturbed(s: State)
    requires DequeKnown(s.store) && Close !in s.io.queue && (s.store.deque != [] ==> s.io.invoker.waits == 0)
    ensures Undisturbed(StartSession(s))
  {
    var s1 := TurnReady(s);
    AwaitUndisturbed(s1.(io := s1.io.SetDeadline(Infinite)));
  }

  lemma PlainUndisturbed(s: State, e: Entry, datagram: Option<Datagram>)
    requires Undisturbed(s)
    ensures Undisturbed(HandlePush(s, e)) && Undisturbed(CheckSendDeadline(s)) && Undisturbed(HandleReceive(s, datagram))
  {
    hide ReportsOf;
  }

  lemma StaysUndisturbed(s: State)
    requires Known(s) && Undisturbed(s) && s.io.socket.Some? && s.io.queue != []
    requires var t := s.io.queue[0]; t != Connect && t != Bind && !t.SendDone?
    ensures Undisturbed(Apply(s, Run(CannotOpen)))
  {
    var t, s0 := s.io.queue[0], TakeFront(s);
    assert t in s.io.queue && forall x <- s0.io.queue :: x in s.io.queue;
    assert Undisturbed(s0);
    hide Undisturbed, HandlePush, StartSession, CheckSendDeadline, HandleReceive, AwaitSendEntry;
    match t {
      case Wake => AwaitUndisturbed(s0);
      case ConnectDone(ok) => ConnectDoneUndisturbed(s0, ok);
      case Push(kind, body, to, callback) => PlainUndisturbed(s0, FreshEntry(kind, body, to, callback), None);
      case ReceiveDone(datagram) => PlainUndisturbed(s0, FreshEntry(UserData, [], None, false), datagram);
      case _ => PlainUndisturbed(s0, FreshEntry(UserData, [], None, false), None);
    }
  }

  lemma ConnectDoneUndisturbed(s: State, ok: bool)
    requires DequeKnown(s.store) && Undisturbed(s)
    ensures Undisturbed(HandleConnectDone(s, ok))
  {
    StartUndisturbed(s);
    hide StartSession;
  }

  /** A running session keeps its senders, and a starter adds one. */
  lemma SendersStay(s: State)
    requires Armed(s) && Known(s) && s.io.queue != [] && s.io.queue[0] != Close && s.io.ready
    ensures Operations(Apply(s, Run(CannotOpen)).io, Sender) >= Operations(s.io, Sender)
  {
    var t, s0 := s.io.queue[0], TakeFront(s);
    LandedMember0(s.io.queue);
    FrontSenders(s);
    AwaitAddsSender(s0.io, s0.now, None, Next(s0));
    assert Count(s.io.queue, Sender) == Count(s0.io.queue, Sender) + if RoleOf(t) == Sender then 1 else 0;
    assert t.Wake? ==> Apply(s, Run(CannotOpen)) == AwaitSendEntry(s0, None);
    hide RunTask, Io.Await, Count, Ids;
  }

  /** One handler of an armed, undisturbed client. */
  lemma HerdStep(s: State)
    requires Armed(s) && Undisturbed(s) && s.io.queue != []
    ensures Known(s) && Enabled(s, Run(CannotOpen)) && Guarded(s, Run(CannotOpen))
    ensures var t, q, s1 := s.io.queue[0], s.io.queue[1..], Apply(s, Run(CannotOpen));
            && Armed(s1) && Undisturbed(s1) && Grown(s.store, s1.store) && s1.retired == s.retired
            && |s1.store.deque| == |s.store.deque| + (if t.Push? then 1 else 0)
            && |q| <= |s1.io.queue| && s1.io.queue[..|q|] == q
            && (s.io.ready ==> s1.io.ready && Operations(s1.io, Sender) >= Operations(s.io, Sender))
  {
    assert s.io.queue[0] in s.io.queue;
    LandedMember0(s.io.queue);
    ArmedStep(s);
    StaysUndisturbed(s);
    if s.io.ready { SendersStay(s); }
    hide Undisturbed, RunTask, Operations, Entries, Ids, Grown;
  }

  lemma {:induction false} HerdRuns(s: State, evs: seq<Event>)
    requires Armed(s) && Undisturbed(s) && Allowed(s, evs) && forall ev <- evs :: ev == Run(CannotOpen)
    ensures var s' := Reached(s, evs);
            Armed(s') && Undisturbed(s') && Grown(s.store, s'.store) && s'.retired == s.retired
    decreases |evs|
  {
    if evs == [] {
      NothingGrows(s.store);
    } else {
      assert evs[0] in evs && forall ev <- evs[1..] :: ev in evs;
      HerdStep(s);
      var s1 := Apply(s, evs[0]);
      hide Apply, Armed, Undisturbed, Grown;
      HerdRuns(s1, evs[1..]);
      GrownTransitive(s.store, s1.store, Reached(s, evs).store);
    }
  }

  /** Two senders, and the push at position `n` is run: something waits then. */
  lemma RunToPush(s: State, n: nat) returns (evs: seq<Event>)
    requires Armed(s) && Undisturbed(s) && s.io.ready && Operations(s.io, Sender) > 1
    requires n < |s.io.queue| && s.io.queue[n].Push?
    ensures Allowed(s, evs)
    ensures var s' := Reached(s, evs);
            && Armed(s') && Undisturbed(s') && s'.io.ready && Operations(s'.io, Sender) > 1
            && Grown(s.store, s'.store) && s'.retired == s.retired && s'.store.deque != []
    decreases n
  {
    HerdStep(s);
    var q, s1 := s.io.queue[1..], Apply(s, Run(CannotOpen));
    var rest: seq<Event> := [];
    if n > 0 {
      assert s1.io.queue[n - 1] == s1.io.queue[..|q|][n - 1] == s.io.queue[n];
      hide Apply, Armed, Undisturbed, Grown, Operations;
      rest := RunToPush(s1, n - 1);
      GrownTransitive(s.store, s1.store, Reached(s1, rest).store);
    } else {
      AllowedNone(s1);
    }
    hide Apply, Armed, Undisturbed, Grown, Operations;
    AllowedFirst(s, Run(CannotOpen), rest);
    evs := [Run(CannotOpen)] + rest;
  }

  lemma {:induction false} WakesStart(q: seq<Task>)
    requires Landed(q) == [] && Close !in q
    ensures Starting(q, true) >= Count(q, Sender)
  {
    if q != [] {
      assert q[0] in q && forall t <- q[1..] :: t in q;
      WakesStart(q[1..]);
    }
  }

  /** Two senders over an empty deque, and two pushes to come. */
  lemma HerdRobs(s: State) returns (b: Store, evs: seq<Event>)
    requires Armed(s) && Undisturbed(s) && s.io.ready && Operations(s.io, Sender) > 1 && !s.retired
    ensures Grown(s.store, b) && Entries(Client, b)
    ensures Allowed(s, evs) && Robbed(Reached(s, evs), b) && Gone(Reached(s, evs), b.deque[1])
  {
    LaterPosted(s);
    var s1, n := Apply(s, Posted(LATER)), |s.io.queue|;
    CountConcat(s.io.queue, [LATER], Sender);
    assert s1.io.queue[n] == LATER;
    NothingGrows(s.store);
    hide Robbed, Gone, Grown, Armed, Undisturbed, Apply, Known;
    var first := RunToPush(s1, n);
    var s2 := Reached(s1, first);
    StartsTwice(s2);
    var second;
    b, second := StartingRobs(s2);
    GrownTransitive(s.store, s2.store, b);
    AllowedConcat(s1, first, second);
    AllowedFirst(s, Posted(LATER), first + second);
    evs := [Posted(LATER)] + (first + second);
  }

  lemma StartsTwice(s: State)
    requires Armed(s) && Undisturbed(s) && s.io.ready && Operations(s.io, Sender) > 1 && s.store.deque != []
    ensures |s.io.socket.value.sends| + Starting(s.io.queue, s.io.ready) > 1
  {
    WakesStart(s.io.queue);
  }

  // ---- Both flows ----

  /** Two sends of the front that have started or will, and a second entry to rob. */
  lemma StartingRobs(s: State) returns (b: Store, evs: seq<Event>)
    requires Armed(s) && s.store.deque != [] && Second(s)
    requires |s.io.socket.value.sends| + Starting(s.io.queue, s.io.ready) > 1
    ensures Grown(s.store, b) && Entries(Client, b)
    ensures Allowed(s, evs) && Robbed(Reached(s, evs), b) && Gone(Reached(s, evs), b.deque[1])
  {
    assert s.io.queue[..|s.io.queue|] == s.io.queue;
    var first := SendTwice(s, |s.io.queue|);
    var s1 := Reached(s, first);
    assert s1.store.deque != [];
    hide Armed, Second, Robbed, Gone, Grown, Starting, Entries;
    var second;
    b, second := SendingRobs(s1);
    GrownTransitive(s.store, s1.store, b);
    AllowedConcat(s, first, second);
    evs := first + second;
  }

  lemma SendingRobs(s: State) returns (b: Store, evs: seq<Event>)
    requires Armed(s) && s.store.deque != [] && Second(s)
    requires |s.io.socket.value.sends| > 1
    ensures Grown(s.store, b) && Entries(Client, b)
    ensures Allowed(s, evs) && Robbed(Reached(s, evs), b) && Gone(Reached(s, evs), b.deque[1])
  {
    if Paired(s, |s.io.queue|) {
      b, evs := LandingRobs(s);
    } else {
      LaterPosted(s);
      var s1 := Apply(s, Posted(LATER));
      assert s1.io.queue[|s.io.queue|].Push? && Paired(s1, |s1.io.queue|);
      hide Armed, Robbed, Gone, Grown, Entries, Apply, Known, Paired;
      var rest;
      b, rest := LandingRobs(s1);
      AllowedFirst(s, Posted(LATER), rest);
      evs := [Posted(LATER)] + rest;
    }
  }

  lemma LandingRobs(s: State) returns (b: Store, evs: seq<Event>)
    requires Armed(s) && s.store.deque != [] && |s.io.socket.value.sends| > 1 && Paired(s, |s.io.queue|)
    ensures Grown(s.store, b) && Entries(Client, b)
    ensures Allowed(s, evs) && Robbed(Reached(s, evs), b) && Gone(Reached(s, evs), b.deque[1])
  {
    FrontWaits(s.store);
    var n := Owed(s.store);
    var first := TwinsLand(s, n, n);
    hide Armed, Twinned, Robbed, Gone, Grown, Entries, Paired;
    var second;
    b, second := TwinsRob(Reached(s, first), |s.io.queue|, n);
    AllowedConcat(s, first, second);
    evs := first + second;
  }

  /** Two sends of the front that have started or will, and at least two bytes to send. */
  lemma StartingGaps(s: State) returns (b: Store, evs: seq<Event>)
    requires Armed(s) && s.store.deque != [] && Owed(s.store) > 1
    requires |s.io.socket.value.sends| + Starting(s.io.queue, s.io.ready) > 1
    ensures Grown(s.store, b) && Entries(Client, b)
    ensures Allowed(s, evs) && Gapped(Reached(s, evs), b) && Gone(Reached(s, evs), b.deque[0])
  {
    assert s.io.queue[..|s.io.queue|] == s.io.queue;
    var first := SendTwice(s, |s.io.queue|);
    var s1, n := Reached(s, first), Owed(s.store);
    GrownOwes(s.store, s1.store);
    var second := TwinsLand(s1, 1, n - 1);
    hide Armed, Second, Gapped, Gone, Grown, Starting, Entries, Twinned, Paired, Owed;
    var s2 := Reached(s1, second);
    var third;
    b, third := TwinsGap(s2, |s1.io.queue|, n - 1);
    GrownTransitive(s.store, s1.store, b);
    AllowedConcat(s1, second, third);
    AllowedConcat(s, first, second + third);
    evs := first + (second + third);
  }

  /** Something waits, or it can be pushed before the session ends. */
  predicate CanGrow(s: State) {
    s.store.deque != [] || (!s.retired && Close !in s.io.queue)
  }

  // ---- Exactly the connects that break their guard ----

  /** A connect at the front of a client's queue that makes a socket, with nothing of an old
      session in play, no sleeper of one behind a close, and no further connect queued. */
  predicate Opens(s: State) {
    && s.mode == Client && Fenced(s.io) && Delivered(s)
    && s.io.queue != [] && s.io.queue[0] == Connect && s.io.socket.None?
    && InPlay(s.io) == [] && Tidy(s.io.queue) && Connect !in s.io.queue[1..] && CanGrow(s)
  }

  /** There is something to lose: a second entry, or the last byte of an entry that owes more. */
  predicate Losable(s: State)
    requires DequeKnown(s.store)
  {
    Second(s) || (s.store.deque != [] && Owed(s.store) > 1)
  }

  /** Such a connect that opens its socket can lose an entry exactly if it breaks its guard and
      there is more than one byte to send, or can be: of a second entry, or of the front. */
  lemma LossExact(s: State, withPath: bool)
    requires Opens(s)
    ensures Known(s)
    ensures CanLose(Apply(s, Run(Open(withPath)))) <==> !Fence(s.io.queue[1..], false, 1) && Losable(s)
  {
    DeliveredKnows(s);
    var s1 := Apply(s, Run(Open(withPath)));
    if Fence(s.io.queue[1..], false, 1) {
      StepKeepsIntact(s, Run(Open(withPath)));
      forall evs, i: nat | Allowed(s1, evs) ensures !Lost(Reached(s1, evs), i) {
        RunStaysIntact(s1, evs);
        DeliveredLosesNothing(Reached(s1, evs), i);
      }
    } else if Second(s) {
      var b, evs := BreachRobs(s, withPath);
      assert Lost(Reached(s1, evs), b.deque[1]);
    } else if Owed(s.store) > 1 {
      var b, evs := BreachGaps(s, withPath);
      assert Lost(Reached(s1, evs), b.deque[0]);
    } else {
      LastIsAlone(s, withPath);
      forall evs, i: nat | Allowed(s1, evs) ensures !Lost(Reached(s1, evs), i) {
        RunStaysAlone(s1, evs, s.store.deque[0]);
        AloneLosesNothing(Reached(s1, evs), s.store.deque[0], i);
      }
    }
  }

  lemma LastIsLone(s: State)
    requires Entries(Client, s.store) && |s.store.deque| == 1 && Owed(s.store) <= 1
    ensures Lone(s.store, s.store.deque[0])
  {
    var i := s.store.deque[0];
    forall j | 0 <= j < i ensures Over(s.store.log[j]) { assert Finished(Client, s.store.log[j]); }
    assert Waiting(s.store.log[i]);
    hide Span;
  }

  lemma LastIsAlone(s: State, withPath: bool)
    requires Opens(s) && Known(s) && !Losable(s)
    ensures s.store.deque != [] && Alone(Apply(s, Run(Open(withPath))), s.store.deque[0])
  {
    DeliveredIds(s);
    LastIsLone(s);
    ConnectOpens(s, Open(withPath));
    RunKeepsClock(s, Open(withPath));
    RestOfQueue(s.io.queue);
    assert ResultsFit(s.io.queue) by { hide Entries, Told; }
    hide Delivered, Entries, Lone, RunTask, Fence, Tidy, Ids, InPlay, ResultsFit, Over;
  }

  lemma RestOfQueue(q: seq<Task>)
    requires q != [] && ResultsFit(q) && Bind !in q && forall i :: 0 <= i < |q| ==> !q[i].Push?
    ensures ResultsFit(q[1..]) && forall t <- q[1..] :: !t.Push? && !t.Bind?
  {
    forall t <- q[1..] ensures !t.Push? && !t.Bind? {
      var i :| 0 <= i < |q[1..]| && q[1..][i] == t;
      assert q[i + 1] == t && t in q;
    }
  }

  lemma DeliveredLosesNothing(s: State, i: nat)
    requires Delivered(s)
    ensures !Lost(s, i)
  {
    if i in s.store.processed {
      var k :| 0 <= k < |s.store.processed| && s.store.processed[k] == i;
      assert Finished(s.mode, s.store.log[i]);
    }
  }

  /** After a connect that breaks its guard, and perhaps its completion, the breach is queued. */
  lemma BreachPoised(s: State, withPath: bool) returns (evs: seq<Event>)
    requires Opens(s) && !Fence(s.io.queue[1..], false, 1)
    ensures Known(s) && Allowed(Apply(s, Run(Open(withPath))), evs)
    ensures var s0 := Reached(Apply(s, Run(Open(withPath))), evs);
            && Poised(s0) && !Fence(s0.io.queue, false, 0) && s0.store == s.store && (Second(s) ==> Second(s0))
  {
    DeliveredKnows(s);
    OpensPoised(s, withPath);
    var q, s1 := s.io.queue[1..], Apply(s, Run(Open(withPath)));
    hide Apply, Opens, Poised, Fence, Second;
    AllowedNone(s1);
    evs := [];
    if Fence(q, false, 0) {
      EndBreaches(q, false);
      CompletesPoised(s1);
      var s2 := Apply(s1, ConnectCompletes(true));
      AllowedNone(s2);
      AllowedFirst(s1, ConnectCompletes(true), []);
      evs := [ConnectCompletes(true)] + [];
    }
  }

  /** Breaking the guard loses the second of the entries that wait by then. */
  lemma BreachRobs(s: State, withPath: bool) returns (b: Store, evs: seq<Event>)
    requires Opens(s) && !Fence(s.io.queue[1..], false, 1) && Second(s)
    ensures Known(s) && Allowed(Apply(s, Run(Open(withPath))), evs)
    ensures Grown(s.store, b) && Entries(Client, b)
    ensures var s' := Reached(Apply(s, Run(Open(withPath))), evs); Robbed(s', b) && Lost(s', b.deque[1])
  {
    var first := BreachPoised(s, withPath);
    var s1 := Apply(s, Run(Open(withPath)));
    var s0 := Reached(s1, first);
    hide Apply, Opens, Poised, Robbed, Grown, Fence, Second, Allowed, Reached, Known, Lost, Gone, Entries;
    var rest;
    b, rest := PoisedRobs(s0);
    AllowedConcat(s1, first, rest);
    evs := first + rest;
    RobbedLoses(Reached(s1, evs), b);
  }

  /** Breaking the guard loses the last byte of an entry that owes more than one, although its
      callback is scheduled and nothing else waits. */
  lemma BreachGaps(s: State, withPath: bool) returns (b: Store, evs: seq<Event>)
    requires Opens(s) && !Fence(s.io.queue[1..], false, 1) && DequeKnown(s.store) && s.store.deque != [] && Owed(s.store) > 1
    ensures Known(s) && Allowed(Apply(s, Run(Open(withPath))), evs)
    ensures Grown(s.store, b) && Entries(Client, b)
    ensures var s' := Reached(Apply(s, Run(Open(withPath))), evs); Gapped(s', b) && Lost(s', b.deque[0])
  {
    var first := BreachPoised(s, withPath);
    var s1 := Apply(s, Run(Open(withPath)));
    var s0 := Reached(s1, first);
    PoisedStarts(s0);
    hide Apply, Opens, Poised, Gapped, Grown, Fence, Second, Allowed, Reached, Known, Lost, Gone, Entries, Armed, Starting;
    var rest;
    b, rest := StartingGaps(s0);
    AllowedConcat(s1, first, rest);
    evs := first + rest;
    GappedLoses(Reached(s1, evs), b);
  }

  lemma PoisedStarts(s: State)
    requires Poised(s) && !Fence(s.io.queue, false, 0)
    ensures Armed(s) && |s.io.socket.value.sends| + Starting(s.io.queue, s.io.ready) > 1
  {
    BreachStarts(s.io.queue, false);
  }

  lemma GappedLoses(s: State, b: Store)
    requires Gapped(s, b) && Gone(s, b.deque[0])
    ensures Lost(s, b.deque[0])
  {
    assert s.store.processed[|b.processed|] == b.deque[0];
    hide MakeBuffer;
  }

  lemma SecondOpens(s: State, s1: State)
    requires s.io.queue != [] && s.io.queue[0] == Connect
    requires s1.store == s.store && s1.retired == s.retired && s1.io.queue == s.io.queue[1..]
    ensures Second(s) ==> Second(s1)
  {
    if i :| 0 <= i < |s.io.queue| && s.io.queue[i].Push? { assert s1.io.queue[i - 1].Push?; }
  }

  /** The socket is there, nothing is sent yet, and something waits or can come. */
  predicate Poised(s: State) {
    && Armed(s) && Connected(s) && !s.io.ready && s.io.socket.value.sends == [] && s.io.invoker.waits == 0
    && Tidy(s.io.queue) && CanGrow(s)
  }

  /** Two starts up to the next close, or one over a sleeper. */
  lemma PoisedRobs(s: State) returns (b: Store, evs: seq<Event>)
    requires Poised(s) && !Fence(s.io.queue, false, 0) && Second(s)
    ensures Grown(s.store, b) && Entries(Client, b)
    ensures Allowed(s, evs) && Robbed(Reached(s, evs), b) && Gone(Reached(s, evs), b.deque[1])
  {
    if s.store.deque != [] {
      PoisedStarts(s);
      b, evs := StartingRobs(s);
    } else {
      assert s.io.queue[..|s.io.queue|] == s.io.queue;
      var first := RunToBreach(s, |s.io.queue|);
      HerdRuns(s, first);
      var s1 := Reached(s, first);
      hide Armed, Undisturbed, Robbed, Gone, Grown, Entries, Fence, Tidy, Connected;
      var second;
      b, second := HerdRobs(s1);
      GrownTransitive(s.store, s1.store, b);
      AllowedConcat(s, first, second);
      evs := first + second;
    }
  }

  lemma OpensPoised(s: State, withPath: bool)
    requires Opens(s) && Known(s)
    ensures var s1 := Apply(s, Run(Open(withPath)));
            && Poised(s1) && (Second(s) ==> Second(s1)) && Known(s1) && s1.io.queue == s.io.queue[1..] && s1.store == s.store
            && s1.io.socket.value.connecting == 1
  {
    DeliveredIds(s);
    ConnectOpens(s, Open(withPath));
    var q, s1 := s.io.queue[1..], Apply(s, Run(Open(withPath)));
    assert Landed(q) == [] && Tidy(q) && forall t <- q :: t in s.io.queue;
    SecondOpens(s, s1);
    hide Delivered, Entries, Fence, Landed, Ids, Tidy;
  }

  lemma CompletesPoised(s: State)
    requires Poised(s) && Known(s) && s.io.socket.value.connecting == 1
    ensures var ev := ConnectCompletes(true);
            && Enabled(s, ev) && Guarded(s, ev)
            && var s2 := Apply(s, ev);
               Poised(s2) && (Second(s) ==> Second(s2)) && s2.io.queue == s.io.queue + [ConnectDone(true)] && s2.store == s.store
  {
    var q, t := s.io.queue, ConnectDone(true);
    TidyGrows(q, t);
    QueueGrows(q, [t]);
    CompletedMoves(s, ConnectCompletes(true));
    assert forall i :: 0 <= i < |q| ==> (q + [t])[i] == q[i];
    hide Entries, Landed, InPlay, Tidy;
  }

  lemma DeliveredIds(s: State)
    requires Delivered(s) && s.mode == Client
    ensures Ids(s) && Entries(Client, s.store)
  {
  }

  lemma RobbedLoses(s: State, b: Store)
    requires Robbed(s, b) && Entries(Client, b) && Gone(s, b.deque[1])
    ensures Lost(s, b.deque[1])
  {
    assert s.store.processed[|b.processed| + 1] == b.deque[1];
    assert Waiting(b.log[b.deque[1]]);
    assert b.log[b.deque[1]].transferred !in b.log[b.deque[1]].reached;
  }
}
