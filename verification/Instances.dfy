/** Concrete runs of a fresh client that lead to the states the results warn about. */
module Instances {
  import opened Wire
  import opened IoContext
  import opened Engine
  import opened Actors
  import opened Delivery
  import opened Sessions
  import opened Runs
  import opened Fences
  import opened Guards
  import opened Permanence
  import opened Twins
  import opened Pops
  import opened Losses
  import opened Coupling
  import opened Unwatched

  /** A calm run from `Init(Client, 64)`, and where it leads. */
  ghost predicate LeadsTo(evs: seq<Event>, s: State) {
    Possible(Init(Client, 64), evs) && s == After(Init(Client, 64), evs)
  }

  lemma Go(evs: seq<Event>, s: State, ev: Event) returns (evs': seq<Event>, s': State)
    requires LeadsTo(evs, s) && Enabled(s, ev) && Calm(s, ev)
    ensures Known(s) && LeadsTo(evs', s') && s' == Apply(s, ev)
  {
    hide Inv, Apply, Enabled, Calm, Known, Possible, After;
    InitHolds(Client, 64);
    RunsExtend(Init(Client, 64), evs, ev);
    evs', s' := evs + [ev], Apply(s, ev);
  }

  const FIRST := FreshEntry(UserData, [7], None, false)
  const SECOND := FreshEntry(UserData, [8], None, true)
  const WAITING := Store([FIRST, SECOND], [0, 1], [])
  const NEXT := Run(Open(false))
  const IDLE := Timer(At(0), 0)

  predicate ClientAt(s: State, io: Io, b: Store) {
    s.mode == Client && s.now == 0 && !s.retired && s.io == io && s.store == b
  }

  /** An entry is pushed on an idle client. */
  lemma Pushed(evs0: seq<Event>, s0: State, body: seq<byte>, callback: bool) returns (evs: seq<Event>, s: State)
    requires LeadsTo(evs0, s0) && s0.mode == Client && s0.now == 0 && !s0.retired
    requires s0.io.queue == [] && s0.io.invoker.waits == 0
    ensures LeadsTo(evs, s) && s.mode == Client && s.now == 0 && !s.retired
    ensures s.io == s0.io.(invoker := IDLE)
    ensures s.store == Append(s0.store, FreshEntry(UserData, body, None, callback))
  {
    hide LeadsTo;
    var t := Push(UserData, body, None, callback);
    evs, s := Go(evs0, s0, Posted(t));
    assert s.io.queue == [t];
    evs, s := Go(evs, s, NEXT);
    assert s.io.queue == [];
  }

  /** An idle client with two entries waiting. */
  lemma TwoWait() returns (evs: seq<Event>, s: State)
    ensures LeadsTo(evs, s) && ClientAt(s, Io([], None, false, IDLE, UNUSED), WAITING)
  {
    hide LeadsTo;
    evs, s := [], Init(Client, 64);
    StartsHere();
    evs, s := Pushed(evs, s, [7], false);
    assert s.store.log == [FIRST];
    evs, s := Pushed(evs, s, [8], true);
    assert s.store.log == [FIRST, SECOND];
  }

  lemma StartsHere()
    ensures LeadsTo([], Init(Client, 64))
  {
  }

  lemma LeadsThere(evs: seq<Event>, s: State)
    requires LeadsTo(evs, s)
    ensures Possible(Init(Client, 64), evs) && s == After(Init(Client, 64), evs) && Inv(s)
  {
    hide Inv, Possible, After;
    InitHolds(Client, 64);
    RunHolds(Init(Client, 64), evs);
  }

  /** The queue becomes [Connect, Close, Connect] and the first connect is started. */
  lemma ThreeHandlers(evs0: seq<Event>, s0: State) returns (evs: seq<Event>, s: State)
    requires LeadsTo(evs0, s0) && ClientAt(s0, Io([], None, false, IDLE, UNUSED), WAITING)
    ensures LeadsTo(evs, s)
    ensures ClientAt(s, Io([Close, Connect], Some(Socket(1, [], 0)), false, IDLE, UNUSED), WAITING)
  {
    hide LeadsTo;
    evs, s := Go(evs0, s0, Posted(Connect));
    evs, s := Go(evs, s, Posted(Close));
    evs, s := Go(evs, s, Posted(Connect));
    assert s.io.queue == [Connect, Close, Connect];
    NoneCounted(s.io.queue);
    evs, s := Go(evs, s, NEXT);
    assert s.io.queue == [Close, Connect];
  }

  /** The first connect completes before the close runs. */
  lemma FirstClosed(evs0: seq<Event>, s0: State) returns (evs: seq<Event>, s: State)
    requires LeadsTo(evs0, s0)
    requires ClientAt(s0, Io([Close, Connect], Some(Socket(1, [], 0)), false, IDLE, UNUSED), WAITING)
    ensures LeadsTo(evs, s)
    ensures ClientAt(s, Io([Connect, ConnectDone(true)], None, false, IDLE, UNUSED), WAITING)
  {
    hide LeadsTo;
    evs, s := Go(evs0, s0, ConnectCompletes(true));
    assert s.io.queue == [Close, Connect, ConnectDone(true)];
    evs, s := Go(evs, s, NEXT);
    assert s.io.queue == [Connect, ConnectDone(true)];
  }

  /** From a fresh client a calm run leads to a connect that breaks its guard; after it the
      second entry is processed, its callback scheduled, none of its bytes was ever sent and
      none ever will be, while the bytes of the first were sent twice. */
  lemma OverlapLosesEntry() returns (evs: seq<Event>, rest: seq<Event>)
    ensures Possible(Init(Client, 64), evs)
    ensures var s := After(Init(Client, 64), evs);
            && Known(s) && Enabled(s, NEXT) && !Guarded(s, NEXT) && Allowed(Apply(s, NEXT), rest)
            && var s' := Reached(Apply(s, NEXT), rest);
               && s'.store.processed == [0, 1] && |s'.store.log| >= 2 && Processed(1) in s'.reports
               && s'.store.log[0].sent == FIRST.buffer + FIRST.buffer
               && s'.store.log[1] == SECOND && SECOND.sent == [] && SECOND.dropped == None && Lost(s', 1)
  {
    var s;
    hide LeadsTo, Possible, After, Allowed, Reached, Delivered, Fenced, Fence, Apply, Inv, Lost;
    evs, s := TwoWait();
    evs, s := ThreeHandlers(evs, s);
    evs, s := FirstClosed(evs, s);
    LeadsThere(evs, s);
    PossibleIsAllowed(Init(Client, 64), evs);
    InitIntact(Client, 64);
    RunStaysIntact(Init(Client, 64), evs);
    LastTwo(s);
    var b;
    b, rest := BreachRobs(s, false);
    FirstAndSecond(Reached(Apply(s, NEXT), rest), b);
  }

  lemma LastTwo(s: State)
    requires ClientAt(s, Io([Connect, ConnectDone(true)], None, false, IDLE, UNUSED), WAITING)
    requires Delivered(s) && Fenced(s.io)
    ensures Opens(s) && Second(s) && !Fence(s.io.queue[1..], false, 1)
    ensures Known(s) && Enabled(s, NEXT) && !Guarded(s, NEXT)
  {
    var q := s.io.queue[1..];
    assert q == [ConnectDone(true)] && q[1..] == [];
    assert Count([], Sender) == 0 && !Fence([], true, 1) && Landed([]) == [];
    assert Landed(q) == [] && Tidy(q);
    hide Delivered, Fenced;
  }

  lemma FirstAndSecond(s: State, b: Store)
    requires Grown(WAITING, b) && Robbed(s, b) && Lost(s, b.deque[1])
    ensures s.store.processed == [0, 1] && |s.store.log| >= 2 && Processed(1) in s.reports
    ensures s.store.log[0].sent == FIRST.buffer + FIRST.buffer && s.store.log[1] == SECOND && Lost(s, 1)
  {
    assert b.deque[0] == [0, 1][0] && b.deque[1] == [0, 1][1];
    assert b.log[0] == [FIRST, SECOND][0] && b.log[1] == [FIRST, SECOND][1];
    assert FIRST.buffer == [1, 7] == MakeBuffer(FIRST) && FIRST.sent == [];
    assert FIRST.sent + MakeBuffer(FIRST) == FIRST.buffer;
    assert b.processed + [0, 1] == [0, 1];
    hide Lost;
  }

  // ---- A session starts ----

  /** An idle client connects, and the completion is queued. */
  lemma Connects(evs0: seq<Event>, s0: State) returns (evs: seq<Event>, s: State)
    requires LeadsTo(evs0, s0) && s0.mode == Client && !s0.retired && s0.io.queue == [] && s0.io.socket.None?
    ensures LeadsTo(evs, s) && s.io.queue == [ConnectDone(true)] && s.io.socket == Some(Socket(0, [], 0))
    ensures s.io.invoker == s0.io.invoker && s.io.deadline == s0.io.deadline && s.store == s0.store
    ensures s.mode == Client && !s.retired && s.now == s0.now
    ensures s.reports == s0.reports && s.generation == s0.generation
  {
    hide LeadsTo;
    evs, s := Go(evs0, s0, Posted(Connect));
    assert s.io.queue == [Connect];
    NoneCounted(s.io.queue);
    evs, s := Go(evs, s, NEXT);
    assert s.io.queue == [];
    evs, s := Go(evs, s, ConnectCompletes(true));
    assert s.io.queue == [ConnectDone(true)];
  }

  /** The connect completes, and a session runs. */
  lemma SessionStarts(evs0: seq<Event>, s0: State) returns (evs: seq<Event>, s: State)
    requires LeadsTo(evs0, s0) && s0.mode == Client && !s0.retired && s0.io.queue == [] && s0.io.socket.None?
    requires s0.io.invoker.waits == 0 && s0.io.deadline.waits == 0
    ensures LeadsTo(evs, s) && s.mode == Client && !s.retired && s.now == s0.now && s.io.Running()
    ensures s.io.queue == [] && s.io.socket.value.receiving == 1
    ensures s.blind <==> s0.store.deque != []
    ensures s.reports == s0.reports + [Opened(true)] && s.generation == s0.generation + 1
  {
    hide LeadsTo;
    evs, s := Connects(evs0, s0);
    var s1 := s;
    evs, s := Go(evs, s1, NEXT);
    assert s == StartSession(TakeFront(s1));
    hide StartSession;
    Starts(TakeFront(s1));
  }

  lemma Starts(s: State)
    requires DequeKnown(s.store) && s.mode == Client && s.io.queue == [] && s.io.socket == Some(Socket(0, [], 0))
    requires s.io.invoker.waits == 0 && s.io.deadline.waits == 0
    ensures var s' := StartSession(s);
            && s'.io.queue == [] && s'.io.Running() && s'.io.socket.value.receiving == 1 && s'.now == s.now
            && (s'.blind <==> s.store.deque != []) && s'.mode == Client && s'.retired == s.retired
            && s'.reports == s.reports + [Opened(true)] && s'.generation == s.generation + 1
  {
  }

  /** The send that starts a session is more than 5000 ms old, and the watchdog waits on. */
  lemma OldSendUnwatched() returns (evs: seq<Event>)
    ensures Possible(Init(Client, 64), evs)
    ensures var s := After(Init(Client, 64), evs);
            && s.io.Running() && s.blind && InPlay(s.io) != [] && InPlay(s.io)[0].startedAt + SEND_DEADLINE < s.now
            && s.io.Check(s.now) == s.io.WaitDeadline()
  {
    hide LeadsTo, Inv, Possible, After, InPlay;
    var s := Init(Client, 64);
    StartsHere();
    evs, s := Pushed([], s, [7], false);
    evs, s := SessionStarts(evs, s);
    LeadsThere(evs, s);
    StartedBefore(s);
    evs, s := Go(evs, s, Tick(6000));
    LeadsThere(evs, s);
    BlindSleeps(s);
  }

  /** The send in play started in the past, and time alone changes nothing else. */
  lemma StartedBefore(s: State)
    requires Inv(s) && Blind(s)
    ensures InPlay(s.io) != [] && InPlay(s.io)[0].startedAt <= s.now
  {
    BlindSleeps(s);
    assert InPlay(s.io)[0] in InPlay(s.io);
  }

  const LATE := Datagram(Layout(Heartbeat, HeartbeatBody(1)), "peer")

  /** A heartbeat is received while the close of its session is queued, and it strays. */
  lemma LateHeartbeatStrays() returns (evs: seq<Event>)
    ensures Possible(Init(Client, 64), evs)
    ensures var s := After(Init(Client, 64), evs);
            && s.io.Running() && s.io.queue == [Close, ReceiveDone(Some(LATE))]
            && Known(s) && CanStray(Apply(s, Run(CannotOpen)))
  {
    hide LeadsTo, Inv, Possible, After, Decode, Layout, HeartbeatBody, CanStray;
    var s := Init(Client, 64);
    StartsHere();
    evs, s := SessionStarts([], s);
    evs, s := Go(evs, s, Posted(Close));
    assert s.io.queue == [Close];
    LateIsStampable();
    evs, s := Go(evs, s, ReceiveCompletes(Some(LATE)));
    assert s.io.queue == [Close, ReceiveDone(Some(LATE))] && s.io.queue[1] in s.io.queue;
    LeadsThere(evs, s);
    InvKnows(s);
    FirstSessionCoupled(s);
    StrayExact(s, CannotOpen);
  }

  lemma FirstSessionCoupled(s: State)
    requires s.reports == [Opened(true)] && s.generation == 1 && s.io.Running()
    ensures Coupled(s)
  {
    assert [Opened(true)][..0] == [];
    ReportOne([], Opened(true));
    assert [] + [Opened(true)] == [Opened(true)];
  }

  lemma LateIsStampable()
    ensures Stampable(ReceiveDone(Some(LATE))) && |LATE.bytes| == 5
  {
    HeartbeatRoundTrip(1, 64);
  }
}
