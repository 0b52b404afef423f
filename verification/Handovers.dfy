/** What becomes of the sends, the engine and the reconnect timer of a client or a server, against
    the handlers that the dispatcher ran, over every run. */
module Handovers {
  import E = Engine
  import I = IoContext
  import opened Facades

  // ---- Sends ----

  /** A handled send: its entry, whether it has a callback, and whether there was an engine. */
  datatype Fate = Fate(id: nat, callback: bool, engine: bool)

  function FateOf(s: State, ev: Event): seq<Fate> {
    if ev.Run? && s.queue != [] && s.queue[0].Send? then [Fate(s.queue[0].id, s.queue[0].callback, s.impl)] else []
  }

  /** The sends that were handled, in order. */
  ghost function Fates(s: State, evs: seq<Event>): seq<Fate>
    requires Possible(s, evs)
    decreases |evs|
  {
    if evs == [] then [] else FateOf(s, evs[0]) + Fates(Apply(s, evs[0]), evs[1..])
  }

  function All(fs: seq<Fate>): seq<nat> {
    if fs == [] then [] else [fs[0].id] + All(fs[1..])
  }

  /** Those that found an engine. */
  function Accepted(fs: seq<Fate>): seq<nat> {
    if fs == [] then [] else (if fs[0].engine then [fs[0].id] else []) + Accepted(fs[1..])
  }

  /** Those that found none and have a callback. */
  function Refused(fs: seq<Fate>): seq<nat> {
    if fs == [] then [] else (if !fs[0].engine && fs[0].callback then [fs[0].id] else []) + Refused(fs[1..])
  }

  lemma FatesConcat(a: seq<Fate>, b: seq<Fate>)
    ensures All(a + b) == All(a) + All(b)
    ensures Accepted(a + b) == Accepted(a) + Accepted(b) && Refused(a + b) == Refused(a) + Refused(b)
  {
    AllConcat(a, b);
    AcceptedConcat(a, b);
    RefusedConcat(a, b);
  }

  lemma {:induction false} AllConcat(a: seq<Fate>, b: seq<Fate>)
    ensures All(a + b) == All(a) + All(b)
  {
    if a == [] {
      assert a + b == b;
    } else {
      assert (a + b)[1..] == a[1..] + b;
      AllConcat(a[1..], b);
    }
  }

  lemma {:induction false} AcceptedConcat(a: seq<Fate>, b: seq<Fate>)
    ensures Accepted(a + b) == Accepted(a) + Accepted(b)
  {
    if a == [] {
      assert a + b == b;
    } else {
      assert (a + b)[1..] == a[1..] + b;
      AcceptedConcat(a[1..], b);
      I.Reassociate(if a[0].engine then [a[0].id] else [], Accepted(a[1..]), Accepted(b));
    }
  }

  lemma {:induction false} RefusedConcat(a: seq<Fate>, b: seq<Fate>)
    ensures Refused(a + b) == Refused(a) + Refused(b)
  {
    if a == [] {
      assert a + b == b;
    } else {
      assert (a + b)[1..] == a[1..] + b;
      RefusedConcat(a[1..], b);
      I.Reassociate(if !a[0].engine && a[0].callback then [a[0].id] else [], Refused(a[1..]), Refused(b));
    }
  }

  lemma OneFate(f: Fate)
    ensures All([f]) == [f.id] && Accepted([f]) == (if f.engine then [f.id] else [])
    ensures Refused([f]) == if !f.engine && f.callback then [f.id] else []
    ensures All([]) == [] && Accepted([]) == [] && Refused([]) == []
  {
    assert [f][1..] == [];
  }

  /** The callbacks queued to be called, and those that were. */
  function Calls(q: seq<Task>): seq<nat> {
    if q == [] then [] else (if q[0].CallProcessed? then [q[0].id] else []) + Calls(q[1..])
  }

  ghost function Called(s: State, evs: seq<Event>): seq<nat>
    requires Possible(s, evs)
    decreases |evs|
  {
    if evs == [] then []
    else Calls(if evs[0].Run? then [s.queue[0]] else []) + Called(Apply(s, evs[0]), evs[1..])
  }

  lemma {:induction false} CallsConcat(a: seq<Task>, b: seq<Task>)
    ensures Calls(a + b) == Calls(a) + Calls(b)
  {
    if a == [] {
      assert a + b == b;
    } else {
      assert (a + b)[1..] == a[1..] + b;
      CallsConcat(a[1..], b);
    }
  }

  lemma OneTask(t: Task)
    ensures Calls([t]) == (if t.CallProcessed? then [t.id] else []) && Calls([]) == []
    ensures Sends([t]) == (if t.Send? then [t.id] else []) && Sends([]) == []
  {
    assert [t][1..] == [];
  }

  /** What a handler, or the environment, appends to the queue. */
  lemma Appends(s: State, ev: Event) returns (b: seq<Task>)
    requires Enabled(s, ev)
    ensures Apply(s, ev).queue == (if ev.Run? then s.queue[1..] else s.queue) + b
    ensures Sends(b) == (if ev.Enqueued? && ev.task.Send? then [ev.task.id] else [])
    ensures Calls(b) == Refused(FateOf(s, ev))
  {
    b := match ev
      case Enqueued(t) => [t]
      case Lost => if s.interval then [] else [TimerStop]
      case DeferredRuns => [TimerStart]
      case IntervalElapses => [TimerTick]
      case Run =>
        match s.queue[0]
        case Send(id, callback) => if callback && !s.impl then [CallProcessed(id)] else []
        case TimerStart => [TimerTick]
        case TimerTick => if s.interval then [] else [TimerStop]
        case _ => [];
    OneFate(Fate(0, false, false));
    if FateOf(s, ev) != [] { OneFate(FateOf(s, ev)[0]); }
    OneTask(Stop);
    if b != [] { OneTask(b[0]); }
    hide Sends, Calls, Refused;
  }

  /** One step: who was handed over, and who was refused. */
  lemma StepHandsOut(s: State, ev: Event)
    requires Enabled(s, ev)
    ensures var s', f := Apply(s, ev), FateOf(s, ev);
            s'.pushed == s.pushed + Accepted(f) && s'.scheduled == s.scheduled + Refused(f)
  {
    var f := FateOf(s, ev);
    OneFate(if f != [] then f[0] else Fate(0, false, false));
    assert s.pushed + [] == s.pushed && s.scheduled + [] == s.scheduled;
    hide Refused, Accepted, All;
  }

  /** And what is still queued. */
  lemma StepQueues(s: State, ev: Event)
    requires Enabled(s, ev)
    ensures var s', f, ran := Apply(s, ev), FateOf(s, ev), if ev.Run? then [s.queue[0]] else [];
            && All(f) + Sends(s'.queue) == Sends(s.queue) + Sends(if ev.Enqueued? then [ev.task] else [])
            && Calls(ran) + Calls(s'.queue) == Calls(s.queue) + Refused(f)
  {
    var f, ran, q := FateOf(s, ev), if ev.Run? then [s.queue[0]] else [], if ev.Run? then s.queue[1..] else s.queue;
    var asked := if ev.Enqueued? then [ev.task] else [];
    var b := Appends(s, ev);
    assert s.queue == ran + q;
    OneFate(if f != [] then f[0] else Fate(0, false, false));
    OneTask(if ev.Run? then s.queue[0] else Stop);
    assert All(f) == Sends(ran);
    OneTask(if ev.Enqueued? then ev.task else Stop);
    assert Sends(b) == Sends(asked);
    hide Sends, Calls, Refused, Accepted, All, FateOf, Apply;
    SendsConcat(q, b);
    CallsConcat(q, b);
    SendsConcat(ran, q);
    CallsConcat(ran, q);
    I.Reassociate(Sends(ran), Sends(q), Sends(b));
    I.Reassociate(Calls(ran), Calls(q), Calls(b));
  }

  /** Over every run of a client or a server, bound or not, stopped or not: the sends handled,
      then those still queued, are what was sent, in order. Those handled while there was an
      engine are what it was given, in order; the callbacks of the others are scheduled once
      each, in order, and called in that order. */
  lemma {:induction false} SendsAccounted(s: State, evs: seq<Event>)
    requires Possible(s, evs)
    ensures var s', f := After(s, evs), Fates(s, evs);
            && All(f) + Sends(s'.queue) == Sends(s.queue) + Sends(Requests(evs))
            && s'.pushed == s.pushed + Accepted(f) && s'.scheduled == s.scheduled + Refused(f)
            && Called(s, evs) + Calls(s'.queue) == Calls(s.queue) + Refused(f)
    decreases |evs|
  {
    OneFate(Fate(0, false, false));
    if evs == [] {
      OneTask(Stop);
      assert s.pushed + [] == s.pushed && s.scheduled + [] == s.scheduled;
      assert Sends(s.queue) + [] == [] + Sends(s.queue) && Calls(s.queue) + [] == [] + Calls(s.queue);
    } else {
      var s1, f, g := Apply(s, evs[0]), FateOf(s, evs[0]), Fates(Apply(s, evs[0]), evs[1..]);
      var asked := if evs[0].Enqueued? then [evs[0].task] else [];
      var ran := if evs[0].Run? then [s.queue[0]] else [];
      var s' := After(s, evs);
      StepHandsOut(s, evs[0]);
      StepQueues(s, evs[0]);
      SendsAccounted(s1, evs[1..]);
      FatesConcat(f, g);
      SendsConcat(asked, Requests(evs[1..]));
      hide Apply, Possible, After, Sends, Calls, Refused, Accepted, All, FateOf;
      I.Reassociate(All(f), All(g), Sends(s'.queue));
      I.Reassociate(All(f), Sends(s1.queue), Sends(Requests(evs[1..])));
      I.Reassociate(Sends(s.queue), Sends(asked), Sends(Requests(evs[1..])));
      I.Reassociate(s.pushed, Accepted(f), Accepted(g));
      I.Reassociate(s.scheduled, Refused(f), Refused(g));
      I.Reassociate(Calls(ran), Called(s1, evs[1..]), Calls(s'.queue));
      I.Reassociate(Calls(ran), Calls(s1.queue), Refused(g));
      I.Reassociate(Calls(s.queue), Refused(f), Refused(g));
    }
  }

  // ---- The engine ----

  /** A handler that starts, a handled stop, or a loss. */
  datatype Turn = Up | Down | Off

  function TurnOf(s: State, ev: Event): seq<Turn> {
    if ev.Lost? then [Off]
    else if ev.Run? && s.queue != [] && (s.queue[0].Start? || s.queue[0].TimerTick?) then [Up]
    else if ev.Run? && s.queue != [] && s.queue[0].Stop? then [Down]
    else []
  }

  ghost function Turns(s: State, evs: seq<Event>): seq<Turn>
    requires Possible(s, evs)
    decreases |evs|
  {
    if evs == [] then [] else TurnOf(s, evs[0]) + Turns(Apply(s, evs[0]), evs[1..])
  }

  /** Starts and ticks that reach an engine to connect, or make one to bind. */
  ghost function Tries(s: State, evs: seq<Event>): nat
    requires Possible(s, evs)
    decreases |evs|
  {
    if evs == [] then 0
    else (if TurnOf(s, evs[0]) == [Up] && s.impl == (s.mode == E.Client) then 1 else 0) + Tries(Apply(s, evs[0]), evs[1..])
  }

  /** A client has its engine until it handles a stop. A server has one exactly if the last that
      happened of a start, a tick, a stop and a loss was a start or a tick. A connect or bind is
      asked for once for each start and tick, by a client that has its engine, by a server that
      has none. */
  lemma {:induction false} EngineExact(s: State, evs: seq<Event>)
    requires Possible(s, evs)
    ensures var s', turns := After(s, evs), Turns(s, evs);
            && s'.mode == s.mode && s'.attempts == s.attempts + Tries(s, evs)
            && (s.mode == E.Client ==> (s'.impl <==> s.impl && Down !in turns))
            && (s.mode == E.Server ==> (s'.impl <==> if turns == [] then s.impl else turns[|turns| - 1] == Up))
            && (s'.interval <==> s.interval && Down !in turns)
    decreases |evs|
  {
    if evs != [] {
      var a, b := TurnOf(s, evs[0]), Turns(Apply(s, evs[0]), evs[1..]);
      StepTurns(s, evs[0]);
      EngineExact(Apply(s, evs[0]), evs[1..]);
      hide Apply, Possible, TurnOf;
      assert a + b != [] && b != [] ==> (a + b)[|a + b| - 1] == b[|b| - 1];
      assert b == [] ==> a + b == a;
      assert Down in a + b <==> Down in a || Down in b;
    }
  }

  lemma StepTurns(s: State, ev: Event)
    requires Enabled(s, ev)
    ensures var s', turn := Apply(s, ev), TurnOf(s, ev);
            && |turn| <= 1 && s'.mode == s.mode
            && s'.attempts == s.attempts + (if turn == [Up] && s.impl == (s.mode == E.Client) then 1 else 0)
            && (s.mode == E.Client ==> (s'.impl <==> s.impl && turn != [Down]))
            && (s.mode == E.Server ==> (s'.impl <==> if turn == [] then s.impl else turn == [Up]))
            && (s'.interval <==> s.interval && turn != [Down])
  {
  }

  // ---- The reconnect timer ----

  /** A loss leads to a delayed start of the timer if an interval is set, and stops the timer
      otherwise; a server loses its engine. */
  lemma LossSchedules(s: State)
    requires Enabled(s, Lost)
    ensures var s' := Apply(s, Lost);
            && s'.deferred == s.deferred + (if s.interval then 1 else 0)
            && s'.queue == s.queue + (if s.interval then [] else [TimerStop])
            && s'.impl == (s.mode == E.Client) && s'.attempts == s.attempts
  {
    assert s.queue + [] == s.queue;
  }

  /** A delayed start stays pending until it runs. */
  lemma {:induction false} StartStaysPending(s: State, evs: seq<Event>)
    requires Possible(s, evs) && DeferredRuns !in evs
    ensures After(s, evs).deferred >= s.deferred
    decreases |evs|
  {
    if evs != [] {
      assert evs[0] in evs;
      StartStaysPending(Apply(s, evs[0]), evs[1..]);
    }
  }

  /** What the queue amounts to in handlers. */
  function Load(q: seq<Task>): nat {
    if q == [] then 0
    else (match q[0] case TimerStart => 3 case Send(_, _) => 2 case TimerTick => 2 case _ => 1) + Load(q[1..])
  }

  lemma {:induction false} LoadConcat(a: seq<Task>, b: seq<Task>)
    ensures Load(a + b) == Load(a) + Load(b)
  {
    if a == [] {
      assert a + b == b;
    } else {
      assert (a + b)[1..] == a[1..] + b;
      LoadConcat(a[1..], b);
    }
  }

  /** What a handler appends is less than the handler itself. */
  lemma HandlerAppends(s: State) returns (b: seq<Task>)
    requires s.queue != []
    ensures Apply(s, Run).queue == s.queue[1..] + b && Load(b) < Load([s.queue[0]]) && Stop !in b
    ensures Apply(s, Run).deferred == s.deferred
  {
    var t := s.queue[0];
    b := match t
      case Send(id, callback) => if callback && !s.impl then [CallProcessed(id)] else []
      case TimerStart => [TimerTick]
      case TimerTick => if s.interval then [] else [TimerStop]
      case _ => [];
    assert [t][1..] == [] && Load([]) == 0;
    if b != [] { assert b == [b[0]] && b[1..] == []; }
  }

  /** Every handler lightens the queue; without a stop it leaves the engine of a client alone. */
  lemma RunLightens(s: State)
    requires s.queue != [] && Stop !in s.queue
    ensures var s1 := Apply(s, Run);
            && Load(s1.queue) < Load(s.queue) && Stop !in s1.queue && s1.mode == s.mode && s1.deferred == s.deferred
            && s1.attempts >= s.attempts && (s1.impl == s.impl || s1.attempts > s.attempts)
  {
    var t, q := s.queue[0], s.queue[1..];
    assert t in s.queue && forall x <- q :: x in s.queue;
    StepTurns(s, Run);
    var b := HandlerAppends(s);
    assert s.queue == [t] + q;
    hide Load, Apply;
    LoadConcat(q, b);
    LoadConcat([t], q);
    assert forall x <- q + b :: x in q || x in b;
  }

  /** Running the queue to its end, unless something connects or binds meanwhile. */
  lemma RunOut(s: State) returns (evs: seq<Event>)
    requires Stop !in s.queue
    ensures Possible(s, evs) && forall ev <- evs :: ev == Run
    ensures var s' := After(s, evs);
            && s'.mode == s.mode && s'.deferred == s.deferred && s'.queue == []
            && s'.attempts >= s.attempts && (s'.impl == s.impl || s'.attempts > s.attempts)
    decreases Load(s.queue)
  {
    if s.queue == [] {
      evs := [];
    } else {
      RunLightens(s);
      var s1 := Apply(s, Run);
      hide Apply;
      var rest := RunOut(s1);
      evs := [Run] + rest;
      assert evs[1..] == rest;
    }
  }

  /** A client that has its engine, or a server that has none, with a delayed start pending and
      no stop queued: with nobody asking, a run leads to one more attempt. */
  lemma PendingStartTries(s: State) returns (evs: seq<Event>)
    requires s.deferred > 0 && Stop !in s.queue && s.impl == (s.mode == E.Client)
    ensures Possible(s, evs) && (forall ev <- evs :: ev == Run || ev == DeferredRuns)
    ensures After(s, evs).attempts > s.attempts
  {
    evs := RunOut(s);
    var s1 := After(s, evs);
    if s1.attempts == s.attempts {
      var more := [DeferredRuns, Run, Run];
      FireTries(s1);
      PossibleConcat(s, evs, more);
      evs := evs + more;
    }
  }

  lemma FireTries(s: State)
    requires s.deferred > 0 && s.queue == [] && s.impl == (s.mode == E.Client)
    ensures Possible(s, [DeferredRuns, Run, Run]) && After(s, [DeferredRuns, Run, Run]).attempts > s.attempts
  {
    var more := [DeferredRuns, Run, Run];
    assert more[1..] == [Run, Run] && more[1..][1..] == [Run] && more[1..][1..][1..] == [];
    var s1 := Apply(s, DeferredRuns);
    assert s1.queue == [TimerStart];
    var s2 := Apply(s1, Run);
    assert s2.queue == [TimerTick];
    var s3 := Apply(s2, Run);
    assert s3.attempts == s.attempts + 1;
    assert Possible(s3, []) && Possible(s2, [Run]) && Possible(s1, [Run, Run]);
    assert After(s2, [Run]) == After(s3, []) == s3;
    assert After(s1, [Run, Run]) == After(s2, [Run]);
  }

  lemma {:induction false} PossibleConcat(s: State, a: seq<Event>, b: seq<Event>)
    requires Possible(s, a) && Possible(After(s, a), b)
    ensures Possible(s, a + b) && After(s, a + b) == After(After(s, a), b)
    decreases |a|
  {
    if a == [] {
      assert a + b == b;
    } else {
      assert (a + b)[1..] == a[1..] + b;
      hide Apply, Enabled;
      PossibleConcat(Apply(s, a[0]), a[1..], b);
    }
  }

  /** After a loss, with an interval set and no stop queued, a run with nobody asking leads to one
      more attempt. */
  lemma LossReconnects(s: State) returns (evs: seq<Event>)
    requires Enabled(s, Lost) && s.interval && Stop !in s.queue
    ensures var s1 := Apply(s, Lost);
            && s1.deferred > 0 && Possible(s1, evs) && (forall ev <- evs :: ev == Run || ev == DeferredRuns)
            && After(s1, evs).attempts > s.attempts
  {
    LossSchedules(s);
    assert s.queue + [] == s.queue;
    evs := PendingStartTries(Apply(s, Lost));
  }

  /** What a handler tells the timer: to start, or to stop. */
  function OrderOf(s: State, ev: Event): seq<bool> {
    if ev.Run? && s.queue != [] && s.queue[0].TimerStart? then [true]
    else if ev.Run? && s.queue != [] && s.queue[0].TimerStop? then [false]
    else []
  }

  ghost function Orders(s: State, evs: seq<Event>): seq<bool>
    requires Possible(s, evs)
    decreases |evs|
  {
    if evs == [] then [] else OrderOf(s, evs[0]) + Orders(Apply(s, evs[0]), evs[1..])
  }

  lemma StepOrders(s: State, ev: Event)
    requires Enabled(s, ev)
    ensures var o := OrderOf(s, ev); |o| <= 1 && (Apply(s, ev).running <==> if o == [] then s.running else o[0])
  {
  }

  /** The reconnect timer runs exactly if the last it was told was to start. */
  lemma {:induction false} TimerExact(s: State, evs: seq<Event>)
    requires Possible(s, evs)
    ensures var orders := Orders(s, evs);
            After(s, evs).running <==> if orders == [] then s.running else orders[|orders| - 1]
    decreases |evs|
  {
    hide Apply, OrderOf;
    if evs != [] {
      var a, b := OrderOf(s, evs[0]), Orders(Apply(s, evs[0]), evs[1..]);
      StepOrders(s, evs[0]);
      TimerExact(Apply(s, evs[0]), evs[1..]);
      assert b != [] ==> (a + b)[|a + b| - 1] == b[|b| - 1];
      assert b == [] ==> a + b == a;
    }
  }

  /** A running timer ticks whenever its interval has passed and nothing is queued, and at once
      when it starts; a tick without an interval tells it to stop. */
  lemma TimerTicks(s: State)
    ensures Enabled(s, IntervalElapses) <==> s.running && s.queue == []
    ensures s.queue != [] && s.queue[0] == TimerStart ==>
              Apply(s, Run).queue == s.queue[1..] + [TimerTick] && Apply(s, Run).running
    ensures s.queue != [] && s.queue[0] == TimerTick ==>
              Apply(s, Run).queue == s.queue[1..] + if s.interval then [] else [TimerStop]
  {
  }
}
