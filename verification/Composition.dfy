/** A client or a server as a whole: the dispatcher thread's side posts to the io thread's side.
    What the user sends while there is an engine reaches the deque, in order. */
module Composition {
  import opened Wire
  import opened IoContext
  import opened Delivery
  import opened Sessions
  import opened Actors
  import opened Runs
  import opened Fences
  import opened Guards
  import E = Engine
  import F = Facades
  import H = Handovers
  import B = Basics

  /** What the sends of the user stand for: their bytes, whether they have a callback, and, from
      a server, where they go. */
  datatype Messages = Messages(body: nat -> seq<byte>, wants: nat -> bool, to: nat -> Path)

  datatype System = System(facade: F.State, engine: E.State)

  datatype Event =
    | Dispatcher(facade: F.Event)
    | Io(engine: E.Event)

  /** A server has no engine before it first binds: what stands for it has nothing queued or
      pending, and is ready to be replaced. */
  function NoEngine(bufferSize: nat): E.State {
    E.Init(E.Server, bufferSize).(io := IoContext.Io.Io([], None, false, UNUSED, UNUSED), retired := true)
  }

  function Init(mode: E.Mode, bufferSize: nat, interval: bool): System {
    System(F.Init(mode, interval), if mode == E.Client then E.Init(mode, bufferSize) else NoEngine(bufferSize))
  }

  /** A client's engine is connected; a server's sends go to their destinations. */
  function Destination(m: Messages, mode: E.Mode, id: nat): Option<Path> {
    if mode == E.Client then None else Some(m.to(id))
  }

  function PushOf(m: Messages, mode: E.Mode, id: nat): Task {
    Push(UserData, m.body(id), Destination(m, mode, id), m.wants(id))
  }

  /** What a handler of the dispatcher thread does to the engine: sending pushes; starting and
      ticking connect a client, and make an engine for a server that has none; stopping destroys
      the engine, and so does a loss on a server. */
  function Posts(m: Messages, f: F.State, ev: F.Event): seq<E.Event> {
    if ev.Lost? then (if f.mode == E.Server && f.impl then [E.Retire] else [])
    else if !ev.Run? || f.queue == [] then []
    else
      match f.queue[0]
      case Send(id, _) => if f.impl then [E.Posted(PushOf(m, f.mode, id))] else []
      case Start => Opens(f)
      case TimerTick => Opens(f)
      case Stop => if f.impl then [E.Retire] else []
      case _ => []
  }

  function Opens(f: F.State): seq<E.Event> {
    if f.mode == E.Client then (if f.impl then [E.Posted(Connect)] else [])
    else if f.impl then [] else [E.Restart]
  }

  /** The io thread posts the rest itself: closes, and the heartbeats of a client. */
  predicate Own(mode: E.Mode, ev: E.Event) {
    && !ev.Retire? && !ev.Restart?
    && (ev.Posted? ==> (mode == E.Client && ev.task.Push? && ev.task.kind == Heartbeat) || ev.task.Close?)
  }

  /** A send has a callback exactly if its message wants one. */
  predicate Worded(m: Messages, ev: F.Event) {
    ev.Enqueued? && ev.task.Send? ==> ev.task.callback == m.wants(ev.task.id)
  }

  /** The events of both threads can happen in this order, every connect being guarded. */
  ghost predicate Possible(m: Messages, s: System, evs: seq<Event>)
    decreases |evs|
  {
    evs == [] ||
    match evs[0]
    case Dispatcher(ev) =>
      && F.Enabled(s.facade, ev) && Worded(m, ev) && Allowed(s.engine, Posts(m, s.facade, ev))
      && Possible(m, System(F.Apply(s.facade, ev), Reached(s.engine, Posts(m, s.facade, ev))), evs[1..])
    case Io(ev) =>
      && Own(s.facade.mode, ev) && Allowed(s.engine, [ev])
      && Possible(m, System(s.facade, Reached(s.engine, [ev])), evs[1..])
  }

  ghost function After(m: Messages, s: System, evs: seq<Event>): System
    requires Possible(m, s, evs)
    decreases |evs|
  {
    if evs == [] then s
    else
      match evs[0]
      case Dispatcher(ev) =>
        After(m, System(F.Apply(s.facade, ev), Reached(s.engine, Posts(m, s.facade, ev))), evs[1..])
      case Io(ev) => After(m, System(s.facade, Reached(s.engine, [ev])), evs[1..])
  }

  /** What the user enqueued. */
  function Asked(evs: seq<Event>): seq<F.Event> {
    if evs == [] then [] else (if evs[0].Dispatcher? then [evs[0].facade] else []) + Asked(evs[1..])
  }

  // ---- User data among the entries ----

  function UserDrafts(ds: seq<Draft>): seq<Draft> {
    if ds == [] then []
    else
      (if ds[0].buffer != [] && ds[0].buffer[0] == TypeByte(UserData) then [ds[0]] else []) + UserDrafts(ds[1..])
  }

  function DraftsOf(m: Messages, mode: E.Mode, ids: seq<nat>): seq<Draft> {
    seq(|ids|, i requires 0 <= i < |ids| =>
      Draft(Layout(UserData, m.body(ids[i])), Destination(m, mode, ids[i]), m.wants(ids[i])))
  }

  lemma {:induction false} UserDraftsConcat(a: seq<Draft>, b: seq<Draft>)
    ensures UserDrafts(a + b) == UserDrafts(a) + UserDrafts(b)
  {
    if a == [] {
      assert a + b == b;
    } else {
      assert (a + b)[1..] == a[1..] + b;
      UserDraftsConcat(a[1..], b);
      Reassociate(if a[0].buffer != [] && a[0].buffer[0] == TypeByte(UserData) then [a[0]] else [],
                  UserDrafts(a[1..]), UserDrafts(b));
    }
  }

  lemma {:induction false} SubmittedConcat(a: seq<E.Event>, b: seq<E.Event>)
    ensures Submitted(a + b) == Submitted(a) + Submitted(b)
  {
    if a == [] {
      assert a + b == b;
    } else {
      assert (a + b)[1..] == a[1..] + b;
      SubmittedConcat(a[1..], b);
      Reassociate(OnTheWay(if a[0].Posted? then [a[0].task] else []), Submitted(a[1..]), Submitted(b));
    }
  }

  // ---- Every step ----

  /** The user data submitted by `trace` is what the facade pushed. */
  predicate Matches(m: Messages, f: F.State, trace: seq<E.Event>) {
    UserDrafts(Submitted(trace)) == DraftsOf(m, f.mode, f.pushed)
  }

  /** One event submits at most one draft. */
  lemma SubmittedOne(ev: E.Event)
    ensures Submitted([ev]) == if ev.Posted? && ev.task.Push?
                               then [Draft(Layout(ev.task.kind, ev.task.body), ev.task.to, ev.task.callback)] else []
  {
    assert [ev][1..] == [] && Submitted([]) == [] && OnTheWay([]) == [];
    if ev.Posted? { OneOnTheWay(ev.task); }
  }

  lemma DraftsSnoc(m: Messages, mode: E.Mode, ids: seq<nat>, id: nat)
    ensures DraftsOf(m, mode, ids + [id])
         == DraftsOf(m, mode, ids) + [Draft(Layout(UserData, m.body(id)), Destination(m, mode, id), m.wants(id))]
  {
  }

  /** One more event of the engine: user data is one more draft, anything else none. */
  lemma OneMatches(m: Messages, f: F.State, f': F.State, ev: E.Event, trace: seq<E.Event>)
    requires Matches(m, f, trace) && f'.mode == f.mode && Paired(m, f, f', ev)
    ensures Matches(m, f', trace + [ev])
  {
    SubmittedConcat(trace, [ev]);
    UserDraftsConcat(Submitted(trace), Submitted([ev]));
    SubmittedOne(ev);
    assert UserDrafts([]) == [];
    if Submitted([ev]) != [] { assert Submitted([ev])[1..] == []; }
    assert UserDrafts(Submitted(trace)) + [] == UserDrafts(Submitted(trace));
    if id :| f'.pushed == f.pushed + [id] && ev == E.Posted(PushOf(m, f.mode, id)) {
      DraftsSnoc(m, f.mode, f.pushed, id);
    }
    hide DraftsOf, Submitted;
  }

  /** The facade and the engine move together. */
  ghost predicate Paired(m: Messages, f: F.State, f': F.State, ev: E.Event) {
    if ev.Posted? && ev.task.Push? && ev.task.kind == UserData
    then exists id :: f'.pushed == f.pushed + [id] && ev.task == PushOf(m, f.mode, id)
    else f'.pushed == f.pushed
  }

  lemma PostsPair(m: Messages, f: F.State, ev: F.Event)
    requires F.Enabled(f, ev)
    ensures var p, f' := Posts(m, f, ev), F.Apply(f, ev);
            && f'.mode == f.mode && |p| <= 1 && (if p == [] then f'.pushed == f.pushed else Paired(m, f, f', p[0]))
  {
    if ev.Run? && f.impl && f.queue[0].Send? { assert F.Apply(f, ev).pushed == f.pushed + [f.queue[0].id]; }
  }

  lemma DispatcherMatches(m: Messages, f: F.State, ev: F.Event, trace: seq<E.Event>)
    requires Matches(m, f, trace) && F.Enabled(f, ev)
    ensures Matches(m, F.Apply(f, ev), trace + Posts(m, f, ev))
  {
    var p := Posts(m, f, ev);
    PostsPair(m, f, ev);
    hide F.Apply, Posts, UserDrafts, Submitted, Paired;
    if p == [] {
      assert trace + p == trace;
    } else {
      assert p == [p[0]];
      OneMatches(m, f, F.Apply(f, ev), p[0], trace);
    }
  }

  /** The engine goes through one guarded run, and what it was given as user data is what the
      facade pushed; the facade goes through one of its own runs. */
  lemma {:induction false} RunMatches(m: Messages, start: E.State, trace: seq<E.Event>, s: System, evs: seq<Event>)
    returns (trace': seq<E.Event>)
    requires Allowed(start, trace) && Reached(start, trace) == s.engine
    requires Matches(m, s.facade, trace) && Possible(m, s, evs)
    ensures Allowed(start, trace') && Reached(start, trace') == After(m, s, evs).engine
    ensures Matches(m, After(m, s, evs).facade, trace')
    ensures F.Possible(s.facade, Asked(evs)) && F.After(s.facade, Asked(evs)) == After(m, s, evs).facade
    decreases |evs|
  {
    if evs == [] {
      trace' := trace;
    } else {
      match evs[0] {
        case Dispatcher(ev) =>
          var p := Posts(m, s.facade, ev);
          DispatcherMatches(m, s.facade, ev, trace);
          AllowedConcat(start, trace, p);
          assert Asked(evs) == [ev] + Asked(evs[1..]);
          assert Asked(evs)[0] == ev && Asked(evs)[1..] == Asked(evs[1..]);
          hide F.Apply, Posts, Matches, Allowed, Reached;
          trace' := RunMatches(m, start, trace + p, System(F.Apply(s.facade, ev), Reached(s.engine, p)), evs[1..]);
        case Io(ev) =>
          OneMatches(m, s.facade, s.facade, ev, trace);
          assert [] + Asked(evs[1..]) == Asked(evs[1..]);
          AllowedConcat(start, trace, [ev]);
          hide F.Apply, Posts, Matches, Allowed, Reached;
          trace' := RunMatches(m, start, trace + [ev], System(s.facade, Reached(s.engine, [ev])), evs[1..]);
      }
    }
  }

  // ---- No engine, to begin with ----

  lemma NoEngineIntact(bufferSize: nat)
    ensures Intact(NoEngine(bufferSize))
  {
    var s := NoEngine(bufferSize);
    assert Landed([]) == [] && Callbacks([]) == [] && GiveUps([]) == [];
  }

  lemma InitIsIntact(mode: E.Mode, bufferSize: nat, interval: bool)
    ensures var e := Init(mode, bufferSize, interval).engine;
            Intact(e) && e.store.log == [] && OnTheWay(e.io.queue) == []
  {
    if mode == E.Client { InitIntact(mode, bufferSize); } else { NoEngineIntact(bufferSize); }
    assert OnTheWay([]) == [];
  }

  // ---- The two sides stay linked ----

  /** The dispatcher's side has an engine exactly while the io side is not being destroyed. */
  predicate Linked(s: System) {
    Intact(s.engine) && s.engine.mode == s.facade.mode && (s.facade.impl <==> !s.engine.retired)
  }

  /** What the facade's handler posts fits whether it has an engine, before and after. */
  lemma PostsFit(m: Messages, f: F.State, ev: F.Event)
    requires F.Enabled(f, ev)
    ensures var p, f' := Posts(m, f, ev), F.Apply(f, ev);
            && |p| <= 1 && f'.mode == f.mode && (p == [] ==> f'.impl == f.impl)
            && (p != [] ==>
                  || (p[0] == E.Retire && f.impl && !f'.impl)
                  || (p[0] == E.Restart && f.mode == E.Server && !f.impl && f'.impl)
                  || (p[0].Posted? && f.impl && f'.impl && (p[0].task.Push? || (p[0].task == Connect && f.mode == E.Client))))
  {
  }

  /** The engine takes it. */
  lemma PostTaken(e: E.State, ev: E.Event)
    requires Intact(e)
    requires || (ev == E.Retire && !e.retired)
             || (ev == E.Restart && e.mode == E.Server && e.retired && E.Drained(e.io))
             || (ev.Posted? && !e.retired && (ev.task.Push? || (ev.task == Connect && e.mode == E.Client)))
    ensures Allowed(e, [ev])
    ensures var e' := Reached(e, [ev]); Intact(e') && e'.mode == e.mode && (e'.retired <==> ev == E.Retire)
  {
    IntactHasOneSender(e);
    assert E.Enabled(e, ev) && Guarded(e, ev);
    StepKeepsIntact(e, ev);
    var e' := E.Apply(e, ev);
    assert [ev] + [] == [ev];
    hide Intact, OneSender;
    AllowedNone(e');
    AllowedFirst(e, ev, []);
  }

  /** What a handler of the dispatcher posts is never refused; only a bind waits until the last
      engine's thread was joined. */
  lemma PostsAllowed(m: Messages, s: System, ev: F.Event)
    requires Linked(s) && F.Enabled(s.facade, ev)
    requires Posts(m, s.facade, ev) == [E.Restart] ==> E.Drained(s.engine.io)
    ensures Allowed(s.engine, Posts(m, s.facade, ev))
    ensures Linked(System(F.Apply(s.facade, ev), Reached(s.engine, Posts(m, s.facade, ev))))
  {
    var p := Posts(m, s.facade, ev);
    PostsFit(m, s.facade, ev);
    hide Intact, Posts, F.Apply, E.Drained;
    if p != [] {
      assert p == [p[0]];
      PostTaken(s.engine, p[0]);
    } else {
      AllowedNone(s.engine);
    }
  }

  lemma OwnStaysLinked(s: System, ev: E.Event)
    requires Linked(s) && Own(s.facade.mode, ev) && Allowed(s.engine, [ev])
    ensures Linked(System(s.facade, Reached(s.engine, [ev])))
  {
    assert [ev][1..] == [];
    var e' := E.Apply(s.engine, ev);
    AllowedNone(e');
    assert Reached(s.engine, [ev]) == e';
    StepKeepsIntact(s.engine, ev);
    if ev.Run? {
      B.RunKeepsClock(s.engine, ev.opening);
      RunCounts(s.engine, ev.opening);
    }
    hide Intact, E.RunTask;
  }

  lemma {:induction false} RunStaysLinked(m: Messages, s: System, evs: seq<Event>)
    requires Linked(s) && Possible(m, s, evs)
    ensures Linked(After(m, s, evs))
    decreases |evs|
  {
    if evs != [] {
      match evs[0] {
        case Dispatcher(ev) =>
          assert Posts(m, s.facade, ev) == [E.Restart] ==> E.Drained(s.engine.io);
          PostsAllowed(m, s, ev);
          hide Linked, F.Apply, Posts, Allowed, Reached;
          RunStaysLinked(m, System(F.Apply(s.facade, ev), Reached(s.engine, Posts(m, s.facade, ev))), evs[1..]);
        case Io(ev) =>
          OwnStaysLinked(s, ev);
          hide Linked, F.Apply, Posts, Allowed, Reached;
          RunStaysLinked(m, System(s.facade, Reached(s.engine, [ev])), evs[1..]);
      }
    }
  }

  /** Whatever the user, the io thread and the environment do, over stops, losses and new engines:
      the user data among the entries processed, in the deque, or on the way to it is, in order,
      with its destinations and callbacks, what was sent while there was an engine. The sends
      handled without one had their callbacks scheduled, and the rest is still queued. */
  lemma SentReachesDeque(m: Messages, mode: E.Mode, bufferSize: nat, interval: bool, evs: seq<Event>)
    requires Possible(m, Init(mode, bufferSize, interval), evs)
    ensures F.Possible(F.Init(mode, interval), Asked(evs))
    ensures var s := After(m, Init(mode, bufferSize, interval), evs);
            var b, fates := s.engine.store, H.Fates(F.Init(mode, interval), Asked(evs));
            && b.processed + b.deque == seq(|b.log|, i => i)
            && UserDrafts(Drafts(b.log) + OnTheWay(s.engine.io.queue)) == DraftsOf(m, mode, H.Accepted(fates))
            && H.All(fates) + F.Sends(s.facade.queue) == F.Sends(F.Requests(Asked(evs)))
            && s.facade.scheduled == H.Refused(fates) && (s.facade.impl <==> !s.engine.retired)
  {
    var s0 := Init(mode, bufferSize, interval);
    assert Submitted([]) == [] && UserDrafts([]) == [] && DraftsOf(m, mode, []) == [];
    InitIsIntact(mode, bufferSize, interval);
    AllowedNone(s0.engine);
    var trace := RunMatches(m, s0.engine, [], s0, evs);
    RunStaysIntact(s0.engine, trace);
    RunConserves(s0.engine, trace);
    RunStaysLinked(m, s0, evs);
    H.SendsAccounted(s0.facade, Asked(evs));
    assert F.Sends([]) == [] && Drafts([]) == [];
    ModeAfter(s0.facade, Asked(evs));
    var e := After(m, s0, evs).engine;
    IntactDelivers(e);
    hide Possible, After, Allowed, Reached, UserDrafts, Submitted, F.Sends, F.Requests, Drafts, OnTheWay, Intact,
      H.All, H.Accepted, H.Refused, SoundSends, Told, Finished, Waiting;
    InOrder(e);
    Empty(Submitted(trace), F.Sends(F.Requests(Asked(evs))), H.Accepted(H.Fates(s0.facade, Asked(evs))),
          H.Refused(H.Fates(s0.facade, Asked(evs))));
  }

  lemma Empty(a: seq<Draft>, b: seq<nat>, c: seq<nat>, d: seq<nat>)
    ensures [] + [] + a == a && [] + b == b && [] + c == c && [] + d == d
  {
  }

  lemma {:induction false} ModeAfter(f: F.State, evs: seq<F.Event>)
    requires F.Possible(f, evs)
    ensures F.After(f, evs).mode == f.mode
    decreases |evs|
  {
    if evs != [] {
      ModeAfter(F.Apply(f, evs[0]), evs[1..]);
    }
  }

  /** A client's pushes are the first of what it was given, and until it is stopped, the rest is
      queued behind them. */
  lemma ClientSendsAll(m: Messages, bufferSize: nat, interval: bool, evs: seq<Event>)
    requires Possible(m, Init(E.Client, bufferSize, interval), evs)
    ensures var s := After(m, Init(E.Client, bufferSize, interval), evs);
            var b, given := s.engine.store, F.Sends(F.Requests(Asked(evs)));
            && UserDrafts(Drafts(b.log) + OnTheWay(s.engine.io.queue)) == DraftsOf(m, E.Client, s.facade.pushed)
            && s.facade.pushed <= given
            && (s.facade.impl ==> s.facade.pushed + F.Sends(s.facade.queue) == given)
  {
    var s0 := Init(E.Client, bufferSize, interval);
    assert Submitted([]) == [] && UserDrafts([]) == [] && DraftsOf(m, E.Client, []) == [];
    assert F.HandsOver(s0.facade, []) by { assert F.Sends([]) == []; }
    AllowedNone(s0.engine);
    var trace := RunMatches(m, s0.engine, [], s0, evs);
    NothingLost(E.Client, bufferSize, trace);
    F.ClientHandsOver(s0.facade, Asked(evs), []);
    assert [] + F.Sends(F.Requests(Asked(evs))) == F.Sends(F.Requests(Asked(evs)));
    hide Possible, After, Allowed, Reached, UserDrafts, Submitted, F.Sends, F.Requests, Drafts, OnTheWay;
  }
}
