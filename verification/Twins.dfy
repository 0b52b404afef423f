/** How two senders come to send the same entry: a client whose queue starts two sends of the
    entry at the front, run until both have completed and their completions are queued. */
module Twins {
  import opened Wire
  import opened IoContext
  import opened Engine
  import opened Actors
  import opened Delivery
  import opened Sessions
  import opened Fences
  import opened Basics
  import opened Overlap

  // ---- Where the second sender comes from ----

  /** No sleeper left over from an old session is behind the first close. */
  predicate Tidy(q: seq<Task>) {
    q == [] || if q[0] == Close then Count(q[1..], Sender) == 0 else Tidy(q[1..])
  }

  /** How many sends the handlers up to the first close start while something waits. */
  function Starting(q: seq<Task>, running: bool): nat {
    if q == [] || q[0] == Close then 0
    else if RoleOf(q[0]) == Starter then 1 + Starting(q[1..], true)
    else (if running && q[0] == Wake then 1 else 0) + Starting(q[1..], running)
  }

  lemma {:induction false} SleeperStarts(q: seq<Task>)
    requires Tidy(q) && Landed(q) == [] && Count(q, Sender) > 0
    ensures Starting(q, true) > 0
  {
    if q[0] != Close && q[0] != Wake {
      SleeperStarts(q[1..]);
    }
  }

  /** A breach of the fence starts two sends. */
  lemma {:induction false} BreachStarts(q: seq<Task>, running: bool)
    requires !Fence(q, running, 0) && Tidy(q) && Landed(q) == []
    ensures Starting(q, running) + (if running then 1 else 0) > 1
  {
    var starter := RoleOf(q[0]) == Starter;
    if starter && Count(q[1..], Sender) > 0 {
      SleeperStarts(q[1..]);
    } else if !(starter && running) {
      BreachStarts(q[1..], running || starter);
    }
  }

  lemma {:induction false} TidyGrows(q: seq<Task>, t: Task)
    requires Tidy(q) && RoleOf(t) == Starter
    ensures Tidy(q + [t])
  {
    if q == [] {
      assert [] + [t] == [t] && [t][1..] == [];
    } else {
      assert (q + [t])[1..] == q[1..] + [t];
      CountConcat(q[1..], [t], Sender);
      One(t);
      if q[0] != Close { TidyGrows(q[1..], t); }
    }
  }

  // ---- A client on which no connect is queued ----

  predicate Steady(s: State) {
    s.mode == Client && Ids(s) && Bind !in s.io.queue && Connect !in s.io.queue
  }

  /** Not the completion of a send that the client would go on from. */
  predicate Closing(t: Task) {
    t.SendDone? ==> ClosesSession(Client, t.result)
  }

  predicate AllClosing(q: seq<Task>) {
    forall i :: 0 <= i < |q| ==> Closing(q[i])
  }

  /** Entries were pushed, and nothing else happened to the store. */
  predicate Grown(b: Store, b': Store) {
    && b.log <= b'.log && b.deque <= b'.deque && b'.processed == b.processed
    && forall i <- b'.deque :: i in b.deque || i >= |b.log|
  }

  /** The front entry stays as it was. */
  lemma GrownOwes(b: Store, b': Store)
    requires Grown(b, b') && DequeKnown(b) && DequeKnown(b') && b.deque != []
    ensures b'.deque != [] && Owed(b') == Owed(b)
  {
    assert b'.log[b.deque[0]] == b.log[b.deque[0]];
    hide RestBytes;
  }

  lemma GrownTransitive(a: Store, b: Store, c: Store)
    requires Grown(a, b) && Grown(b, c)
    ensures Grown(a, c)
  {
  }

  /** Running the handler at the front, whatever it is. */
  lemma SteadyStep(s: State)
    requires Steady(s) && s.io.queue != []
    ensures Known(s) && Enabled(s, Run(CannotOpen)) && Guarded(s, Run(CannotOpen))
    ensures var q, s1 := s.io.queue[1..], Apply(s, Run(CannotOpen));
            && Steady(s1) && s1.retired == s.retired && s1.now == s.now
            && |q| <= |s1.io.queue| && s1.io.queue[..|q|] == q && AllClosing(s1.io.queue[|q|..])
  {
    IdsKnow(s);
    var q, t, s1 := s.io.queue[1..], s.io.queue[0], Apply(s, Run(CannotOpen));
    assert t in s.io.queue;
    RunKeepsIds(s, CannotOpen);
    RunCounts(s, CannotOpen);
    RunExtends(s, CannotOpen);
    RunKeepsClock(s, CannotOpen);
    hide Apply, Ids, Extends;
    var b := Appended(q, s1.io.queue);
    NoConnects(q, b, s1.io.queue);
    assert forall x <- s1.io.queue :: x in q || x in b;
  }

  lemma NoConnects(q: seq<Task>, b: seq<Task>, q': seq<Task>)
    requires Extends(q, q') && q' == q + b
    ensures Connect !in b && |q| <= |q'| && q'[..|q|] == q && AllClosing(q'[|q|..])
  {
    forall t <- b ensures t != Connect {
      var i :| 0 <= i < |b| && b[i] == t;
      assert Modest(q'[|q| + i]);
    }
  }

  /** Only a push changes the store, unless the front is a completion to go on from. */
  lemma FrontGrows(s: State)
    requires Known(s) && s.mode == Client && s.io.queue != [] && Closing(s.io.queue[0])
    ensures var t, s1 := s.io.queue[0], Apply(s, Run(CannotOpen));
            && Grown(s.store, s1.store) && s.reports <= s1.reports
            && |s1.store.deque| == |s.store.deque| + (if t.Push? then 1 else 0)
            && (Entries(Client, s.store) ==> Entries(Client, s1.store))
  {
    var t, s0 := s.io.queue[0], TakeFront(s);
    hide Entries, Grown, HandleClose, HandleConnect, HandleBind, AwaitSendEntry, HandleConnectDone, CheckSendDeadline,
      HandleReceive, HandleSend, HandlePush, FreshEntry;
    match t {
      case Push(kind, body, to, callback) =>
        FreshWaits(kind, body, to, callback);
        PushGrows(s0, FreshEntry(kind, body, to, callback));
      case SendDone(flight, result) =>
        LostConnectionKeepsEntry(s0, flight, result);
        NothingGrows(s.store);
      case _ =>
        OthersReport(s0, t);
        NothingGrows(s.store);
        hide RunTask;
    }
  }

  /** Handlers other than pushes and completions of sends: they report at most. */
  lemma OthersReport(s: State, t: Task)
    requires DequeKnown(s.store) && !t.Push? && !t.SendDone?
    ensures var s1 := RunTask(s, t, CannotOpen); s1.store == s.store && s.reports <= s1.reports
  {
    SessionsKeepStore(s, t, CannotOpen);
    ReportsGrow(s, t);
    hide HandleClose, HandleConnect, HandleBind, AwaitSendEntry, HandleConnectDone, CheckSendDeadline, HandleReceive;
  }

  lemma NothingGrows(b: Store)
    ensures Grown(b, b)
  {
  }

  lemma PushGrows(s: State, e: Entry)
    ensures var s1 := HandlePush(s, e);
            && Grown(s.store, s1.store) && s1.reports == s.reports && |s1.store.deque| == |s.store.deque| + 1
            && (Entries(Client, s.store) && Waiting(e) ==> Entries(Client, s1.store))
  {
    hide Waiting, Finished;
  }

  lemma ReportsGrow(s: State, t: Task)
    requires DequeKnown(s.store)
    ensures s.reports <= HandleClose(s).reports && s.reports <= HandleConnect(s, CannotOpen).reports
    ensures s.reports <= HandleBind(s, CannotOpen).reports && s.reports <= AwaitSendEntry(s, None).reports
    ensures t.ConnectDone? ==> s.reports <= HandleConnectDone(s, t.ok).reports
    ensures s.reports <= CheckSendDeadline(s).reports
    ensures t.ReceiveDone? ==> s.reports <= HandleReceive(s, t.datagram).reports
  {
    hide Io.Await, Io.StartActors, Io.Closed, Io.Replaced, Io.Check, Io.Receive, ReportsOf;
  }

  // ---- Both send the first entry ----

  /** A steady client with a socket whose sends are all of the front entry, none completed. */
  predicate Armed(s: State) {
    && Steady(s) && Entries(Client, s.store) && s.io.socket.Some? && Landed(s.io.queue) == []
    && forall f <- s.io.socket.value.sends :: FrontSend(s.store, f)
  }

  /** A handler adds the sends of a sender that goes on, and nothing else to the sends in play. */
  predicate AddsSends(io: Io, io': Io, fs: seq<Flight>) {
    && io.socket.Some? && io'.socket.Some?
    && io'.socket.value.sends == io.socket.value.sends + fs && InPlay(io') == InPlay(io) + fs
  }

  lemma AwaitSends(s: State)
    requires DequeKnown(s.store) && s.io.socket.Some?
    ensures AddsSends(s.io, AwaitSendEntry(s, None).io,
                      if s.io.Running() && Next(s).Some? then [Next(s).value] else [])
  {
    AwaitMoves(s.io, s.now, None, Next(s));
    hide InPlay, Next;
  }

  lemma StartSends(s: State)
    requires DequeKnown(s.store) && s.io.socket.Some?
    ensures var next := Next(TurnReady(s));
            AddsSends(s.io, StartSession(s).io, if next.Some? then [next.value] else [])
  {
    var s1 := TurnReady(s);
    StartActorsMoves(s1.io, s1.now, s1.mode == Client, Next(s1));
    hide InPlay, Next;
  }

  lemma PlainSends(s: State, e: Entry, datagram: Option<Datagram>)
    requires s.io.socket.Some?
    ensures AddsSends(s.io, HandlePush(s, e).io, []) && AddsSends(s.io, CheckSendDeadline(s).io, [])
    ensures AddsSends(s.io, HandleReceive(s, datagram).io, []) && AddsSends(s.io, s.io, [])
  {
    SetInvokerMoves(s.io, At(s.now));
    CheckMoves(s.io, s.now);
    ReceiveMoves(s.io);
    hide InPlay, ReportsOf;
  }

  /** What the handler at the front sends. */
  function Adding(s: State): seq<Flight>
    requires Known(s) && s.io.queue != []
  {
    var t, s0 := s.io.queue[0], TakeFront(s);
    if (t == Wake && s.io.ready) || t == ConnectDone(true) then
      var next := Next(if t == Wake then s0 else TurnReady(s0));
      if next.Some? then [next.value] else []
    else []
  }

  lemma FrontSends(s: State)
    requires Known(s) && s.io.socket.Some? && s.io.queue != []
    requires var t := s.io.queue[0]; t != Close && t != Bind && t != Connect && !t.SendDone?
    ensures AddsSends(TakeFront(s).io, Apply(s, Run(CannotOpen)).io, Adding(s))
  {
    var t, s0 := s.io.queue[0], TakeFront(s);
    hide AddsSends, HandlePush, StartSession, CheckSendDeadline, HandleReceive, AwaitSendEntry, Next;
    match t {
      case Wake => AwaitSends(s0);
      case ConnectDone(ok) =>
        StartSends(s0);
        PlainSends(s0, FreshEntry(UserData, [], None, false), None);
      case Push(kind, body, to, callback) => PlainSends(s0, FreshEntry(kind, body, to, callback), None);
      case ReceiveDone(datagram) => PlainSends(s0, FreshEntry(UserData, [], None, false), datagram);
      case _ => PlainSends(s0, FreshEntry(UserData, [], None, false), None);
    }
  }

  lemma LandsNothing(io: Io, io': Io, fs: seq<Flight>)
    requires AddsSends(io, io', fs) && Landed(io.queue) == []
    ensures Landed(io'.queue) == []
  {
    assert |InPlay(io')| == |Landed(io'.queue)| + |io'.socket.value.sends|;
  }

  lemma LandedMember0(q: seq<Task>)
    requires Landed(q) == [] && q != []
    ensures !q[0].SendDone? && Landed(q[1..]) == []
  {
  }

  /** One handler of an armed client. */
  lemma ArmedStep(s: State)
    requires Armed(s) && s.io.queue != [] && s.io.queue[0] != Close
    ensures Known(s) && Enabled(s, Run(CannotOpen)) && Guarded(s, Run(CannotOpen))
    ensures var t, q, s1 := s.io.queue[0], s.io.queue[1..], Apply(s, Run(CannotOpen));
            && Armed(s1) && Grown(s.store, s1.store) && s1.retired == s.retired
            && |s1.store.deque| == |s.store.deque| + (if t.Push? then 1 else 0)
            && |q| <= |s1.io.queue| && s1.io.queue[..|q|] == q
            && (s1.io.ready <==> s.io.ready || RoleOf(t) == Starter)
            && s1.io.socket.value.sends == s.io.socket.value.sends + Adding(s)
  {
    SteadyStep(s);
    var t, s1 := s.io.queue[0], Apply(s, Run(CannotOpen));
    assert t in s.io.queue;
    LandedMember0(s.io.queue);
    FrontGrows(s);
    RunCounts(s, CannotOpen);
    FrontSends(s);
    LandsNothing(TakeFront(s).io, s1.io, Adding(s));
    AddingIsFront(s);
    hide RunTask, Ids, Landed, InPlay, Entries, Adding, MakeBuffer;
  }

  lemma AddingIsFront(s: State)
    requires Known(s) && s.io.queue != []
    ensures forall f <- Adding(s) :: FrontSend(s.store, f)
    ensures s.store.deque != [] ==>
              |Adding(s)| == if (s.io.queue[0] == Wake && s.io.ready) || s.io.queue[0] == ConnectDone(true) then 1 else 0
  {
  }

  /** A second entry waits, or can still be pushed ahead of what happens next. */
  predicate Second(s: State) {
    |s.store.deque| > 1 || !s.retired || exists i :: 0 <= i < |s.io.queue| && s.io.queue[i].Push?
  }

  lemma SecondStays(s: State, s1: State)
    requires Second(s) && s.store.deque != [] && s.io.queue != [] && s1.retired == s.retired
    requires |s1.store.deque| == |s.store.deque| + (if s.io.queue[0].Push? then 1 else 0)
    requires var q := s.io.queue[1..]; |q| <= |s1.io.queue| && s1.io.queue[..|q|] == q
    ensures Second(s1)
  {
    if i :| 1 <= i < |s.io.queue| && s.io.queue[i].Push? {
      assert s1.io.queue[i - 1] == s1.io.queue[..|s.io.queue| - 1][i - 1] == s.io.queue[i];
    }
  }

  /** Running on until two sends are pending. */
  lemma SendTwice(s: State, n: nat) returns (evs: seq<Event>)
    requires Armed(s) && s.store.deque != [] && n <= |s.io.queue|
    requires |s.io.socket.value.sends| + Starting(s.io.queue[..n], s.io.ready) > 1
    ensures Allowed(s, evs)
    ensures var s' := Reached(s, evs);
            && Armed(s') && |s'.io.socket.value.sends| > 1 && Grown(s.store, s'.store)
            && (Second(s) ==> Second(s'))
    decreases n
  {
    if |s.io.socket.value.sends| > 1 {
      evs := [];
    } else {
      var q := s.io.queue[..n];
      assert q != [] && q[0] == s.io.queue[0] && q[1..] == s.io.queue[1..n];
      assert q[0] in s.io.queue;
      ArmedStep(s);
      AddingIsFront(s);
      var s1 := Apply(s, Run(CannotOpen));
      assert s1.io.queue[..n - 1] == s.io.queue[1..][..n - 1] == q[1..];
      if Second(s) { SecondStays(s, s1); }
      hide Apply, Armed, Known, Adding, Grown, Second;
      assert s1.store.deque != [];
      var rest := SendTwice(s1, n - 1);
      GrownTransitive(s.store, s1.store, Reached(s1, rest).store);
      AllowedFirst(s, Run(CannotOpen), rest);
      evs := [Run(CannotOpen)] + rest;
    }
  }

  // ---- Both succeed ----

  /** The completions of two sends of the front entry are queued, from position `k` on, with `m`
      and `n` bytes transferred; other completions are behind them. */
  predicate TwinsAt(q: seq<Task>, b: Store, k: nat, m: nat, n: nat) {
    && k + 1 < |q|
    && (forall i :: 0 <= i < k ==> !q[i].SendDone?)
    && q[k].SendDone? && FrontSend(b, q[k].flight) && q[k].result == Sent(m)
    && q[k + 1].SendDone? && FrontSend(b, q[k + 1].flight) && q[k + 1].result == Sent(n)
    && (forall i :: k + 1 < i < |q| ==> Closing(q[i]))
  }

  /** Such completions on a steady client, of at most what the entry owes. */
  predicate Twinned(s: State, k: nat, m: nat, n: nat) {
    && Steady(s) && Entries(Client, s.store) && s.store.deque != []
    && 0 < m <= Owed(s.store) && 0 < n <= Owed(s.store) && TwinsAt(s.io.queue, s.store, k, m, n)
  }

  /** One handler nearer. */
  lemma TwinsNearer(q: seq<Task>, q': seq<Task>, b: Store, b': Store, k: nat, m: nat, n: nat)
    requires TwinsAt(q, b, k, m, n) && k > 0 && Grown(b, b')
    requires |q| - 1 <= |q'| && q'[..|q| - 1] == q[1..] && AllClosing(q'[|q| - 1..])
    ensures TwinsAt(q', b', k - 1, m, n)
  {
    forall i | 0 <= i < |q'| ensures q'[i] == if i < |q| - 1 then q[i + 1] else q'[|q| - 1..][i - (|q| - 1)] {
      if i < |q| - 1 { assert q'[..|q| - 1][i] == q[1..][i]; }
    }
    hide Closing, MakeBuffer;
  }

  /** The bytes that the front entry still owes. */
  function Owed(b: Store): nat
    requires DequeKnown(b) && b.deque != []
  {
    RestBytes(b.log[b.deque[0]])
  }

  /** A second entry waits, or is pushed by the first `k` handlers. */
  predicate Paired(s: State, k: nat) {
    |s.store.deque| > 1 || exists i :: 0 <= i < k <= |s.io.queue| && s.io.queue[i].Push?
  }

  /** The first of the pending sends completes. */
  lemma SendLands(s: State, result: SendResult)
    requires Steady(s) && Enabled(s, SendCompletes(result))
    ensures var ev := SendCompletes(result);
            && Known(s) && Guarded(s, ev)
            && var s1 := Apply(s, ev);
               && Steady(s1) && s1.store == s.store && s1.reports == s.reports && s1.retired == s.retired
               && s1.io.socket.Some? && s1.io.socket.value.sends == s.io.socket.value.sends[1..]
               && s1.io.queue == s.io.queue + [SendDone(s.io.socket.value.sends[0], result)]
  {
    IdsKnow(s);
    CompletedMoves(s, SendCompletes(result));
    hide InPlay;
  }

  lemma NothingDone(q: seq<Task>)
    requires Landed(q) == []
    ensures forall i :: 0 <= i < |q| ==> !q[i].SendDone?
  {
    forall i | 0 <= i < |q| ensures !q[i].SendDone? { if q[i].SendDone? { LandedMember(q, i); } }
  }

  const LATER := Push(UserData, [], None, true)

  /** An entry is pushed on a client that is not being destroyed. */
  lemma LaterPosted(s: State)
    requires Armed(s) && !s.retired
    ensures Known(s) && Enabled(s, Posted(LATER)) && Guarded(s, Posted(LATER))
    ensures var s1 := Apply(s, Posted(LATER)); Armed(s1) && s1 == s.(io := s.io.Post(LATER))
  {
    IdsKnow(s);
    PostMoves(s.io, LATER);
    QueueGrows(s.io.queue, [LATER]);
    hide InPlay, Entries, MakeBuffer;
  }

  /** Two sends of the front land, with any numbers of bytes. */
  lemma TwinsLand(s: State, m: nat, n: nat) returns (evs: seq<Event>)
    requires Armed(s) && s.store.deque != [] && |s.io.socket.value.sends| > 1
    requires 0 < m <= Owed(s.store) && 0 < n <= Owed(s.store)
    ensures Allowed(s, evs)
    ensures var s', k := Reached(s, evs), |s.io.queue|;
            Twinned(s', k, m, n) && s'.store == s.store && (Paired(s, k) ==> Paired(s', k))
  {
    var sends, q, k := s.io.socket.value.sends, s.io.queue, |s.io.queue|;
    var f, g := sends[0], sends[1];
    assert f in sends && g in sends && sends[1..][0] == g;
    FrontOwes(s.store, f);
    FrontOwes(s.store, g);
    var done, done' := SendCompletes(Sent(m)), SendCompletes(Sent(n));
    SendLands(s, done.result);
    var s1 := Apply(s, done);
    SendLands(s1, done'.result);
    var s2 := Apply(s1, done');
    assert s2.io.queue == q + [SendDone(f, done.result), SendDone(g, done'.result)];
    NothingDone(q);
    assert forall i :: 0 <= i < k ==> s2.io.queue[i] == q[i];
    assert Twinned(s2, k, m, n) by { hide Apply, Steady, Entries, FrontSend, Owed, Closing; }
    assert Paired(s, k) ==> Paired(s2, k);
    hide *;
    AllowedNone(s2);
    AllowedFirst(s1, done', []);
    AllowedFirst(s, done, [done'] + []);
    evs := [done] + ([done'] + []);
  }

  lemma FrontOwes(b: Store, f: Flight)
    requires Entries(Client, b) && FrontSend(b, f)
    ensures |f.slice| == Owed(b) >= 1 && Waiting(b.log[f.id])
  {
  }
}
