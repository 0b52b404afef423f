/** `client.hpp` and `server.hpp`: what the dispatcher thread runs for one of them. A stopped
    client stays stopped; a stopped server can be bound again by its reconnect timer, and it is
    said exactly when.

    `interval` tells whether a reconnect interval is set, `running` whether the reconnect timer
    has a function to call, `deferred` how many of its delayed starts are pending. A delayed
    start reads the interval without looking whether it was cleared; it starts the timer here
    in either case. */
module Facades {
  import Engine
  import I = IoContext

  datatype Task =
    // Enqueued by the user
    | Start
    | Stop
    | Send(id: nat, callback: bool)
    // Enqueued by the timer
    | TimerStart
    | TimerStop
    | TimerTick
    // The callback of an entry that was not sent
    | CallProcessed(id: nat)

  /** `attempts`, `pushed` and `scheduled` are history: connects or binds posted, entries handed
      to the engine, and callbacks scheduled for entries that were not. */
  datatype State = State(
    mode: Engine.Mode, impl: bool, interval: bool, running: bool, deferred: nat, queue: seq<Task>,
    attempts: nat, pushed: seq<nat>, scheduled: seq<nat>)

  datatype Event =
    | Enqueued(task: Task)     // async_start, async_stop, async_send
    | Run                      // the dispatcher runs the handler at the front
    | Lost                     // the engine signals that it failed or closed
    | DeferredRuns
    | IntervalElapses

  /** A client owns its engine from the start, a server makes one to bind. */
  function Init(mode: Engine.Mode, interval: bool): State {
    State(mode, mode == Engine.Client, interval, false, 0, [], 0, [], [])
  }

  predicate Stopped(s: State) {
    !s.impl && !s.interval
  }

  function Enqueue(s: State, t: Task): State {
    s.(queue := s.queue + [t])
  }

  /** `client::connect` and `server::bind`. */
  function Attempt(s: State): State {
    match s.mode
    case Client => if s.impl then s.(attempts := s.attempts + 1) else s
    case Server => if s.impl then s else s.(impl := true, attempts := s.attempts + 1)
  }

  function StartReconnectTimer(s: State): State {
    if s.interval then s.(deferred := s.deferred + 1) else Enqueue(s, TimerStop)
  }

  function HandleStop(s: State): State {
    s.(interval := false, impl := false)
  }

  function HandleTick(s: State): State {
    Attempt(if s.interval then s else Enqueue(s, TimerStop))
  }

  function HandleSend(s: State, id: nat, callback: bool): State {
    if s.impl then s.(pushed := s.pushed + [id])
    else if callback then Enqueue(s, CallProcessed(id)).(scheduled := s.scheduled + [id])
    else s
  }

  function RunTask(s: State, t: Task): State {
    match t
    case Start => Attempt(s)
    case Stop => HandleStop(s)
    case Send(id, callback) => HandleSend(s, id, callback)
    case TimerStart => Enqueue(s, TimerTick).(running := true)
    case TimerStop => s.(running := false)
    case TimerTick => HandleTick(s)
    case CallProcessed(_) => s
  }

  /** The handlers of the engine's `closed` and of its failures to connect or bind: a server
      drops its engine, a client keeps it. */
  function HandleLost(s: State): State {
    StartReconnectTimer(if s.mode == Engine.Server then s.(impl := false) else s)
  }

  /** The dispatcher sorts by time, and what is enqueued for now sorts first: a delayed start and
      the timer's next call run only when nothing else is queued. */
  predicate Enabled(s: State, ev: Event) {
    match ev
    case Enqueued(t) => t.Start? || t.Stop? || t.Send?
    case Run => s.queue != []
    case Lost => s.impl
    case DeferredRuns => s.deferred > 0 && s.queue == []
    case IntervalElapses => s.running && s.queue == []
  }

  function Apply(s: State, ev: Event): State
    requires Enabled(s, ev)
  {
    match ev
    case Enqueued(t) => Enqueue(s, t)
    case Run => RunTask(s.(queue := s.queue[1..]), s.queue[0])
    case Lost => HandleLost(s)
    case DeferredRuns => Enqueue(s.(deferred := s.deferred - 1), TimerStart)
    case IntervalElapses => Enqueue(s, TimerTick)
  }

  ghost predicate Possible(s: State, evs: seq<Event>)
    decreases |evs|
  {
    evs == [] || (Enabled(s, evs[0]) && Possible(Apply(s, evs[0]), evs[1..]))
  }

  ghost function After(s: State, evs: seq<Event>): State
    requires Possible(s, evs)
    decreases |evs|
  {
    if evs == [] then s else After(Apply(s, evs[0]), evs[1..])
  }

  // ---- A stopped client ----

  /** The entries with a callback among queued tasks, in order. */
  function Wanted(q: seq<Task>): seq<nat> {
    if q == [] then []
    else (if q[0].Send? && q[0].callback then [q[0].id] else []) + Wanted(q[1..])
  }

  function Requests(evs: seq<Event>): seq<Task> {
    if evs == [] then [] else (if evs[0].Enqueued? then [evs[0].task] else []) + Requests(evs[1..])
  }

  lemma {:induction false} WantedConcat(a: seq<Task>, b: seq<Task>)
    ensures Wanted(a + b) == Wanted(a) + Wanted(b)
  {
    if a == [] {
      assert a + b == b;
    } else {
      assert (a + b)[1..] == a[1..] + b;
      WantedConcat(a[1..], b);
    }
  }

  lemma WantedOne(t: Task)
    ensures Wanted([t]) == if t.Send? && t.callback then [t.id] else []
  {
    assert Wanted([t][1..]) == [];
  }

  lemma StoppedClientStep(s: State, ev: Event)
    requires s.mode == Engine.Client && Stopped(s) && Enabled(s, ev)
    ensures var s' := Apply(s, ev);
            && s'.mode == Engine.Client && Stopped(s') && s'.attempts == s.attempts && s'.pushed == s.pushed
            && s'.scheduled + Wanted(s'.queue)
                 == s.scheduled + Wanted(s.queue) + Wanted(if ev.Enqueued? then [ev.task] else [])
  {
    assert Wanted([]) == [];
    if ev.Run? {
      StoppedClientRuns(s);
    } else {
      var b := match ev
        case Enqueued(t) => [t]
        case DeferredRuns => [TimerStart]
        case IntervalElapses => [TimerTick]
        case Lost => [];
      if !ev.Enqueued? { WantedOne(b[0]); }
      hide Wanted;
      WantedConcat(s.queue, b);
    }
  }

  lemma StoppedClientRuns(s: State)
    requires s.mode == Engine.Client && Stopped(s) && s.queue != []
    ensures var s' := Apply(s, Run);
            && s'.mode == Engine.Client && Stopped(s') && s'.attempts == s.attempts && s'.pushed == s.pushed
            && s'.scheduled + Wanted(s'.queue) == s.scheduled + Wanted(s.queue)
  {
    var t, rest := s.queue[0], s.queue[1..];
    var b := StoppedClientHandles(s.(queue := rest), t);
    WantedOne(t);
    assert Wanted(s.queue) == Wanted([t]) + Wanted(rest);
    hide Wanted, RunTask;
    WantedConcat(rest, b);
    I.Reassociate(s.scheduled, Wanted([t]), Wanted(rest));
  }

  lemma StoppedClientHandles(s: State, t: Task) returns (b: seq<Task>)
    requires s.mode == Engine.Client && Stopped(s)
    ensures var s' := RunTask(s, t);
            && s'.mode == Engine.Client && Stopped(s') && s'.attempts == s.attempts && s'.pushed == s.pushed
            && s'.queue == s.queue + b && Wanted(b) == [] && s'.scheduled == s.scheduled + Wanted([t])
  {
    b := match t
      case Send(id, callback) => if callback then [CallProcessed(id)] else []
      case TimerStart => [TimerTick]
      case TimerTick => [TimerStop]
      case _ => [];
    WantedOne(t);
    if b == [] { assert s.queue + b == s.queue; } else { WantedOne(b[0]); }
    assert s.scheduled + [] == s.scheduled;
  }

  /** After a client's stop was handled, in every run: it posts no connect and pushes no entry,
      and the callbacks of what is sent to it are scheduled once each, in order, when their
      tasks run. */
  lemma {:induction false} ClientStopIsFinal(s: State, evs: seq<Event>)
    requires s.mode == Engine.Client && Stopped(s) && Possible(s, evs)
    ensures var s' := After(s, evs);
            && Stopped(s') && s'.attempts == s.attempts && s'.pushed == s.pushed
            && s'.scheduled + Wanted(s'.queue) == s.scheduled + Wanted(s.queue) + Wanted(Requests(evs))
    decreases |evs|
  {
    if evs != [] {
      StoppedClientStep(s, evs[0]);
      ClientStopIsFinal(Apply(s, evs[0]), evs[1..]);
      var b := if evs[0].Enqueued? then [evs[0].task] else [];
      WantedConcat(b, Requests(evs[1..]));
      hide Apply, Possible, Wanted;
      I.Reassociate(s.scheduled + Wanted(s.queue), Wanted(b), Wanted(Requests(evs[1..])));
    }
  }

  // ---- A client hands over what it is given, in order ----

  /** The sends among queued handlers, in order. */
  function Sends(q: seq<Task>): seq<nat> {
    if q == [] then [] else (if q[0].Send? then [q[0].id] else []) + Sends(q[1..])
  }

  lemma {:induction false} SendsConcat(a: seq<Task>, b: seq<Task>)
    ensures Sends(a + b) == Sends(a) + Sends(b)
  {
    if a == [] {
      assert a + b == b;
    } else {
      assert (a + b)[1..] == a[1..] + b;
      SendsConcat(a[1..], b);
      I.Reassociate(if a[0].Send? then [a[0].id] else [], Sends(a[1..]), Sends(b));
    }
  }

  /** `given` is everything the user sent: pushed so far, and, while there is an engine, queued
      behind it. */
  predicate HandsOver(s: State, given: seq<nat>) {
    s.mode == Engine.Client && s.pushed <= given && (s.impl ==> s.pushed + Sends(s.queue) == given)
  }

  lemma SendsOne(t: Task)
    ensures Sends([t]) == if t.Send? then [t.id] else []
  {
    assert Sends([t][1..]) == [];
  }

  /** A handler appends no send, and pushes its own while there is an engine. */
  lemma TaskHandsOver(s: State, t: Task) returns (b: seq<Task>)
    requires s.mode == Engine.Client
    ensures var s' := RunTask(s, t);
            && s'.mode == s.mode && (s'.impl ==> s.impl) && s'.queue == s.queue + b && Sends(b) == []
            && s'.pushed == s.pushed + (if s.impl then Sends([t]) else [])
  {
    b := match t
      case Send(id, callback) => if callback && !s.impl then [CallProcessed(id)] else []
      case TimerStart => [TimerTick]
      case TimerTick => if s.interval then [] else [TimerStop]
      case _ => [];
    SendsOne(t);
    if b == [] { assert s.queue + b == s.queue; } else { SendsOne(b[0]); }
    assert s.pushed + [] == s.pushed;
  }

  lemma RunHandsOver(s: State, given: seq<nat>)
    requires HandsOver(s, given) && s.queue != []
    ensures HandsOver(Apply(s, Run), given)
  {
    var t, rest := s.queue[0], s.queue[1..];
    SendsOne(t);
    assert Sends(s.queue) == Sends([t]) + Sends(rest);
    var b := TaskHandsOver(s.(queue := rest), t);
    hide Sends, RunTask;
    SendsConcat(rest, b);
    I.Reassociate(s.pushed, Sends([t]), Sends(rest));
    if s.impl { assert s.pushed + Sends([t]) == given[..|s.pushed + Sends([t])|]; }
  }

  lemma StepHandsOver(s: State, ev: Event, given: seq<nat>)
    requires HandsOver(s, given) && Enabled(s, ev)
    ensures HandsOver(Apply(s, ev), given + Sends(if ev.Enqueued? then [ev.task] else []))
  {
    assert Sends([]) == [] && given + [] == given;
    if ev.Run? {
      RunHandsOver(s, given);
    } else {
      var b := match ev
        case Enqueued(t) => [t]
        case DeferredRuns => [TimerStart]
        case IntervalElapses => [TimerTick]
        case Lost => if s.interval then [] else [TimerStop];
      if b == [] { assert s.queue + b == s.queue; } else { SendsOne(b[0]); }
      assert Apply(s, ev).queue == s.queue + b;
      hide Sends;
      SendsConcat(s.queue, b);
      I.Reassociate(s.pushed, Sends(s.queue), Sends(b));
    }
  }

  /** In every run of a client, what it pushed is the first of what it was given, in order; and
      until it is stopped, the rest is queued behind it. */
  lemma {:induction false} ClientHandsOver(s: State, evs: seq<Event>, given: seq<nat>)
    requires HandsOver(s, given) && Possible(s, evs)
    ensures HandsOver(After(s, evs), given + Sends(Requests(evs)))
    decreases |evs|
  {
    if evs == [] {
      assert given + [] == given;
    } else {
      var b := if evs[0].Enqueued? then [evs[0].task] else [];
      StepHandsOver(s, evs[0], given);
      ClientHandsOver(Apply(s, evs[0]), evs[1..], given + Sends(b));
      SendsConcat(b, Requests(evs[1..]));
      hide Apply, Possible, HandsOver, Sends;
      I.Reassociate(given, Sends(b), Sends(Requests(evs[1..])));
    }
  }

  // ---- A stopped server ----

  /** Something that is on its way to binding. */
  predicate Binder(t: Task) {
    t.Start? || t.TimerStart? || t.TimerTick?
  }

  /** The timer was running with no stop of it queued, a delayed start of it was pending, or a
      handler was queued that leads to binding. */
  predicate Haunted(s: State) {
    (s.running && TimerStop !in s.queue) || s.deferred > 0 || exists t :: t in s.queue && Binder(t)
  }

  /** No one asks for a start. */
  predicate Unasked(evs: seq<Event>) {
    forall ev <- evs :: ev != Enqueued(Start)
  }

  ghost predicate CanBind(s: State) {
    exists evs :: Possible(s, evs) && Unasked(evs) && After(s, evs).attempts > s.attempts
  }

  lemma {:induction false} UnhauntedStays(s: State, evs: seq<Event>)
    requires s.mode == Engine.Server && Stopped(s) && !Haunted(s) && Possible(s, evs) && Unasked(evs)
    ensures After(s, evs).attempts == s.attempts && Stopped(After(s, evs))
    decreases |evs|
  {
    if evs != [] {
      var ev, s' := evs[0], Apply(s, evs[0]);
      assert ev in evs && forall x <- evs[1..] :: x in evs;
      assert ev.Run? ==> s.queue[0] in s.queue;
      forall t | t in s'.queue ensures !Binder(t) {
        if t in s.queue { assert !Binder(t); }
      }
      UnhauntedStays(s', evs[1..]);
    }
  }

  lemma ServerRuns(s: State)
    requires s.mode == Engine.Server && s.queue != []
    ensures var t, s' := s.queue[0], Apply(s, Run);
            && s'.mode == s.mode && s'.attempts >= s.attempts
            && s.queue[1..] <= s'.queue && (s'.impl && !s.impl ==> s'.attempts > s.attempts)
            && (t.Start? || t.TimerTick? ==> s'.impl)
            && (t.TimerStart? ==> s'.queue == s.queue[1..] + [TimerTick] && s'.impl == s.impl)
  {
  }

  /** Running the queue up to a task that leads to binding. */
  lemma {:induction false} ReachBinder(s: State, k: nat) returns (evs: seq<Event>)
    requires s.mode == Engine.Server && k < |s.queue| && Binder(s.queue[k])
    ensures Possible(s, evs) && Unasked(evs) && After(s, evs).attempts >= s.attempts
    ensures !s.impl ==> After(s, evs).attempts > s.attempts
    decreases if s.queue[k].TimerStart? then 1 else 0, k
  {
    var s1 := Apply(s, Run);
    ServerRuns(s);
    assert s1.queue[..|s.queue| - 1] == s.queue[1..];
    hide RunTask;
    var rest;
    if k > 0 {
      assert s1.queue[k - 1] == s.queue[k];
      rest := ReachBinder(s1, k - 1);
    } else if s.queue[0].TimerStart? {
      rest := ReachBinder(s1, |s1.queue| - 1);
    } else {
      rest := [];
    }
    evs := [Run] + rest;
    assert evs[1..] == rest;
  }

  /** A server that handled its stop can bind again, with no one asking for it, exactly when
      its reconnect timer was running and no stop of it was queued, a delayed start of the timer
      was pending, or a handler that leads to binding was queued. */
  lemma ServerStopExact(s: State)
    requires s.mode == Engine.Server && Stopped(s)
    ensures CanBind(s) <==> Haunted(s)
  {
    if Haunted(s) {
      var evs := Revive(s);
      assert Possible(s, evs) && Unasked(evs);
    }
    forall evs | !Haunted(s) && Possible(s, evs) && Unasked(evs) ensures After(s, evs).attempts == s.attempts {
      UnhauntedStays(s, evs);
    }
  }

  lemma Revive(s: State) returns (evs: seq<Event>)
    requires s.mode == Engine.Server && Stopped(s) && Haunted(s)
    ensures Possible(s, evs) && Unasked(evs) && After(s, evs).attempts > s.attempts
    decreases Weight(s.queue)
  {
    if t :| t in s.queue && Binder(t) {
      var k :| 0 <= k < |s.queue| && s.queue[k] == t;
      evs := ReachBinder(s, k);
    } else {
      var ev := if s.queue != [] then Run else if s.running then IntervalElapses else DeferredRuns;
      var s1 := Apply(s, ev);
      var rest;
      if ev == Run {
        HarmlessRun(s);
        rest := Revive(s1);
      } else {
        rest := ReachBinder(s1, 0);
      }
      evs := [ev] + rest;
      assert evs[1..] == rest;
    }
  }

  /** How many handlers the queue amounts to: a send may schedule a callback. */
  function Weight(q: seq<Task>): nat {
    if q == [] then 0 else (if q[0].Send? then 2 else 1) + Weight(q[1..])
  }

  lemma {:induction false} WeightSnoc(q: seq<Task>, t: Task)
    ensures Weight(q + [t]) == Weight(q) + Weight([t])
  {
    if q == [] {
      assert q + [t] == [t];
    } else {
      assert (q + [t])[1..] == q[1..] + [t];
      WeightSnoc(q[1..], t);
    }
  }

  /** A stopped server that is not about to bind runs a handler: it stays as haunted as it was. */
  lemma HarmlessRun(s: State)
    requires s.mode == Engine.Server && Stopped(s) && Haunted(s) && s.queue != []
    requires forall t <- s.queue :: !Binder(t)
    ensures var s1 := Apply(s, Run);
            && s1.mode == s.mode && Stopped(s1) && Haunted(s1) && s1.attempts == s.attempts
            && Weight(s1.queue) < Weight(s.queue)
  {
    var t, q := s.queue[0], s.queue[1..];
    assert t in s.queue && forall x <- q :: x in s.queue;
    if t.Send? {
      WeightSnoc(q, CallProcessed(t.id));
      assert Weight([CallProcessed(t.id)][1..]) == 0;
    }
  }

  /** A server that lost its engine once and was bound again by its timer binds once more after
      it handled its stop. */
  lemma StoppedServerBinds()
    ensures exists evs :: Possible(Init(Engine.Server, true), evs)
                          && var s := After(Init(Engine.Server, true), evs);
                             Stopped(s) && s.attempts == 2 && s.queue == [] && CanBind(s)
  {
    var s0 := Init(Engine.Server, true);
    assert Possible(s0, []) && After(s0, []) == s0;
    hide Possible, After, CanBind;
    var evs1, s1 := Extend(s0, [], s0, Enqueued(Start));
    var evs2, s2 := Extend(s0, evs1, s1, Run);
    var evs3, s3 := Extend(s0, evs2, s2, Lost);
    var evs4, s4 := Extend(s0, evs3, s3, DeferredRuns);
    var evs5, s5 := Extend(s0, evs4, s4, Run);
    var evs6, s6 := Extend(s0, evs5, s5, Run);
    var evs7, s7 := Extend(s0, evs6, s6, Enqueued(Stop));
    var evs8, s8 := Extend(s0, evs7, s7, Run);
    ServerStopExact(s8);
  }

  lemma {:induction false} Extend(s: State, evs: seq<Event>, last: State, ev: Event) returns (evs': seq<Event>, s': State)
    requires Possible(s, evs) && After(s, evs) == last && Enabled(last, ev)
    ensures evs' == evs + [ev] && s' == Apply(last, ev) && Possible(s, evs') && After(s, evs') == s'
    decreases |evs|
  {
    evs', s' := evs + [ev], Apply(last, ev);
    if evs == [] {
      assert ([] + [ev])[1..] == [] && Possible(s', []);
    } else {
      assert (evs + [ev])[1..] == evs[1..] + [ev];
      var r, _ := Extend(Apply(s, evs[0]), evs[1..], last, ev);
    }
  }
}
