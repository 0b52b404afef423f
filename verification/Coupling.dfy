/** The engine drives the heartbeat machine: what the io thread reports, read as the events
    of that machine, keeps its assumption as long as no heartbeat is still queued when a
    running session is closed, and breaks it otherwise. */
module Coupling {
  import opened Wire
  import opened IoContext
  import opened Engine
  import opened Actors
  import opened Delivery
  import opened Sessions
  import opened Runs
  import H = Heartbeats

  /** A received heartbeat that will be stamped: it has a deadline and a named sender. */
  predicate Stampable(t: Task) {
    && t.ReceiveDone? && t.datagram.Some?
    && Decode(t.datagram.value.bytes).NextHeartbeat? && NonEmptyFilesystemPath(t.datagram.value.sender)
  }

  predicate Mixes(q: seq<Task>) {
    exists t <- q :: Stampable(t)
  }

  /** A running session is closed with no such heartbeat queued, and the engine is not replaced. */
  predicate Clean(s: State, ev: Event) {
    !ev.Restart? && (ev.Run? && s.io.queue != [] && s.io.queue[0] == Close && s.io.Running() ==> !Mixes(s.io.queue))
  }

  ghost predicate CleanRun(s: State, evs: seq<Event>)
    requires Possible(s, evs)
    decreases |evs|
  {
    evs == [] || (Clean(s, evs[0]) && CleanRun(Apply(s, evs[0]), evs[1..]))
  }

  /** The generation and the openness that the reports amount to. */
  function Fold(reports: seq<Report>): (nat, bool) {
    if reports == [] then (0, false)
    else
      var (generation, open) := Fold(reports[..|reports| - 1]);
      match reports[|reports| - 1]
      case Opened(live) => (generation + 1, live)
      case Closed => (generation + 1, false)
      case _ => (generation, open)
  }

  /** Sessions open and close in turn, and heartbeats are reported in an open session, with
      its generation and a deadline. */
  predicate InSession(reports: seq<Report>) {
    reports == [] ||
    (InSession(reports[..|reports| - 1]) &&
     var (generation, open) := Fold(reports[..|reports| - 1]);
     match reports[|reports| - 1]
     case Opened(_) => !open
     case Closed => open
     case HeartbeatFrom(g, _, deadline) => open && g == generation && deadline > 0
     case _ => true)
  }

  /** The reports as events of the heartbeat machine. */
  function IoEvents(reports: seq<Report>): seq<H.Event> {
    if reports == [] then []
    else IoEvents(reports[..|reports| - 1]) +
         (match reports[|reports| - 1]
          case Opened(live) => [if live then H.Start else H.StaleStart]
          case Closed => [H.Stop]
          case HeartbeatFrom(_, sender, deadline) => [H.Receive(sender, deadline)]
          case _ => [])
  }

  /** The heartbeats among the reports, as the tasks the dispatcher gets. */
  function Stamps(reports: seq<Report>): seq<H.Task> {
    if reports == [] then []
    else Stamps(reports[..|reports| - 1]) +
         (match reports[|reports| - 1]
          case HeartbeatFrom(g, sender, deadline) => [H.Beat(g, sender, deadline)]
          case _ => [])
  }

  // ---- The engine keeps the assumption ----

  /** The reports keep the assumption, and amount to the engine's generation and session. */
  predicate Synced(s: State) {
    InSession(s.reports) && Fold(s.reports) == (s.generation, s.io.Running())
  }

  predicate Coupled(s: State) {
    Synced(s) && (Mixes(s.io.queue) ==> s.io.Running())
  }

  /** A report that neither opens, closes nor carries a heartbeat. */
  predicate Neutral(r: Report) {
    !r.Opened? && !r.Closed? && !r.HeartbeatFrom?
  }

  lemma ReportOne(reports: seq<Report>, r: Report)
    requires InSession(reports)
    ensures Fold(reports + [r]) ==
              (match r
               case Opened(live) => (Fold(reports).0 + 1, live)
               case Closed => (Fold(reports).0 + 1, false)
               case _ => Fold(reports))
    ensures InSession(reports + [r]) <==>
              (match r
               case Opened(_) => !Fold(reports).1
               case Closed => Fold(reports).1
               case HeartbeatFrom(g, _, deadline) => Fold(reports) == (g, true) && deadline > 0
               case _ => true)
  {
    assert (reports + [r])[..|reports|] == reports;
  }

  lemma ReportQuietly(reports: seq<Report>, rs: seq<Report>)
    requires InSession(reports) && |rs| <= 1 && forall r <- rs :: Neutral(r)
    ensures InSession(reports + rs) && Fold(reports + rs) == Fold(reports)
  {
    if rs == [] {
      assert reports + rs == reports;
    } else {
      assert rs == [rs[0]] && Neutral(rs[0]);
      ReportOne(reports, rs[0]);
    }
  }

  lemma QuietlySynced(s: State, s': State, rs: seq<Report>)
    requires Synced(s) && s'.reports == s.reports + rs && |rs| <= 1 && forall r <- rs :: Neutral(r)
    requires s'.generation == s.generation && s'.io.Running() == s.io.Running()
    ensures Synced(s')
  {
    ReportQuietly(s.reports, rs);
    hide InSession, Fold;
  }

  lemma StartSessionSyncs(s: State)
    requires DequeKnown(s.store) && Synced(s) && !s.io.Running()
    ensures Synced(StartSession(s))
  {
    ReportOne(s.reports, Opened(s.io.socket.Some?));
    StartSessionFrame(s);
    hide InSession, Fold, Io.StartActors;
  }

  lemma CloseSyncs(s: State)
    requires Synced(s)
    ensures Synced(HandleClose(s))
  {
    if s.io.socket.Some? {
      ReportOne(s.reports, Closed);
      hide Io.Leftovers, InSession, Fold;
    }
  }

  lemma ConnectSyncs(s: State, opening: Opening)
    requires Synced(s)
    ensures Synced(HandleConnect(s, opening))
  {
    if s.io.socket.None? {
      ReportOne(s.reports, OpenFailed);
      hide InSession, Fold, AbortedOperations;
    }
  }

  lemma BindSyncs(s: State, opening: Opening)
    requires DequeKnown(s.store) && Synced(s) && s.io.socket.None?
    ensures Synced(HandleBind(s, opening))
  {
    var s1 := s.(io := s.io.Replaced(0));
    assert Synced(s1.(bound := true));
    ReportOne(s.reports, OpenFailed);
    hide StartSession, InSession, Fold;
    if opening.Open? { StartSessionSyncs(s1.(bound := true)); }
  }

  lemma SendDoneSyncs(s: State, f: Flight, result: SendResult)
    requires DequeKnown(s.store) && f.id < |s.store.log| && Synced(s)
    ensures Synced(HandleSend(s, f, result))
  {
    var a := Account(s, f, result);
    hide AfterSend, Signalled, Synced;
    QuietlySynced(s, a, if Signalled(s.mode, s.store.log[f.id], result) then [ErrorOccurred(result.error, f.id)] else []);
    ProceedSyncs(a, f.id, result);
  }

  lemma ProceedSyncs(s: State, id: nat, result: SendResult)
    requires id < |s.store.log| && DequeKnown(s.store) && Synced(s)
    ensures Synced(Proceed(s, id, result))
  {
    hide Synced, Io.Await;
    assert s.reports + [] == s.reports;
    if ClosesSession(s.mode, result) {
      QuietlySynced(s, s.(io := s.io.Post(Close)), []);
    } else {
      var p := PopIfComplete(s, id);
      QuietlySynced(s, p, if TransferComplete(s.store.log[id]) then PopReports(s.store) else []);
      AwaitSyncs(p, if result == Failed(NoBufferSpace) then Some(RETRY_DELAY) else None);
    }
  }

  lemma AwaitSyncs(s: State, delay: Option<nat>)
    requires DequeKnown(s.store) && Synced(s)
    ensures Synced(AwaitSendEntry(s, delay))
  {
    AwaitFrame(s.io, s.now, delay, Next(s));
    hide Io.Await;
  }

  lemma ReceiveSyncs(s: State, datagram: Option<Datagram>)
    requires Synced(s) && (Stampable(ReceiveDone(datagram)) ==> s.io.Running())
    ensures Synced(HandleReceive(s, datagram))
  {
    var rs := ReportsOf(s.generation, datagram);
    assert s.reports + [] == s.reports;
    if rs != [] { ReportOne(s.reports, rs[0]); }
    assert datagram.Some? && Decode(datagram.value.bytes).NextHeartbeat? ==> Decode(datagram.value.bytes).deadline > 0;
    hide InSession, Fold, Decode;
  }

  lemma PlainSyncs(s: State, t: Task)
    requires Synced(s)
    ensures t.Push? ==> Synced(HandlePush(s, FreshEntry(t.kind, t.body, t.to, t.callback)))
    ensures Synced(CheckSendDeadline(s))
  {
    hide InSession, Fold;
  }

  lemma ConnectDoneSyncs(s: State, ok: bool)
    requires DequeKnown(s.store) && Synced(s) && (ok ==> !s.io.Running())
    ensures Synced(HandleConnectDone(s, ok))
  {
    if ok { StartSessionSyncs(s); } else { QuietlySynced(s, HandleConnectDone(s, ok), [OpenFailed]); }
    hide StartSession;
  }

  lemma FrontCases(s: State)
    requires OneOfEach(s) && s.io.queue != []
    ensures s.io.queue[0] == ConnectDone(true) || s.io.queue[0] == Bind ==> !s.io.Running()
    ensures s.io.queue[0] == Bind ==> s.io.socket.None?
  {
    FrontMode(s.mode, s.io);
    if s.io.queue[0] != Close { FrontPays(s.mode, s.io); }
  }

  /** Running a handler keeps the assumption, unless it is a heartbeat outside a session. */
  lemma RunSyncs(s: State, opening: Opening)
    requires Known(s) && OneOfEach(s) && Synced(s) && s.io.queue != []
    requires Stampable(s.io.queue[0]) ==> s.io.Running()
    ensures Synced(Apply(s, Run(opening)))
  {
    var t, s' := s.io.queue[0], TakeFront(s);
    FrontCases(s);
    hide OneOfEach, HandlePush, HandleClose, HandleConnect, HandleBind, AwaitSendEntry, HandleSend,
      HandleConnectDone, CheckSendDeadline, HandleReceive, InSession, Fold, Stampable;
    match t {
      case Close => CloseSyncs(s');
      case Connect => ConnectSyncs(s', opening);
      case Bind => BindSyncs(s', opening);
      case Wake => AwaitSyncs(s', None);
      case SendDone(flight, result) => SendDoneSyncs(s', flight, result);
      case ConnectDone(ok) => ConnectDoneSyncs(s', ok);
      case ReceiveDone(datagram) => ReceiveSyncs(s', datagram);
      case _ => PlainSyncs(s', t);
    }
  }

  // ---- Handlers append no heartbeat: those come from completed receives alone ----

  predicate NoBeats(q: seq<Task>, q': seq<Task>) {
    forall t <- q' :: Stampable(t) ==> t in q
  }

  lemma AwaitNoBeats(io: Io, now: nat, delay: Option<nat>, next: Option<Flight>)
    ensures NoBeats(io.queue, io.Await(now, delay, next).queue)
  {
    hide Decode;
  }

  lemma StartActorsNoBeats(io: Io, now: nat, watched: bool, next: Option<Flight>)
    ensures NoBeats(io.queue, io.StartActors(now, watched, next).queue)
  {
    AwaitNoBeats(io, now, None, next);
    hide Io.Await, Decode;
  }

  lemma StartSessionNoBeats(s: State)
    requires DequeKnown(s.store)
    ensures NoBeats(s.io.queue, StartSession(s).io.queue)
  {
    var s1 := TurnReady(s);
    StartActorsNoBeats(s1.io, s1.now, s1.mode == Client, Next(s1));
    hide Io.StartActors, NoBeats;
  }

  lemma SendDoneNoBeats(s: State, f: Flight, result: SendResult)
    requires DequeKnown(s.store) && f.id < |s.store.log|
    ensures NoBeats(s.io.queue, HandleSend(s, f, result).io.queue)
  {
    var a := Account(s, f, result);
    AwaitNoBeats(a.io, a.now, if result == Failed(NoBufferSpace) then Some(RETRY_DELAY) else None,
                 Next(PopIfComplete(a, f.id)));
    hide AfterSend, Signalled, Io.Await, PopReports, Decode;
  }

  lemma OpeningNoBeats(s: State, opening: Opening)
    requires DequeKnown(s.store)
    ensures NoBeats(s.io.queue, HandleConnect(s, opening).io.queue)
    ensures s.io.socket.None? ==> NoBeats(s.io.queue, HandleBind(s, opening).io.queue)
  {
    assert s.io.queue + AbortedOperations(None) == s.io.queue;
    StartSessionNoBeats(s.(io := s.io.Replaced(0), bound := true));
    hide StartSession, Decode;
  }

  lemma OnlyReceives(io: Io)
    ensures forall t :: Stampable(t) ==> t.ReceiveDone?
    ensures forall t <- io.Leftovers() :: !Stampable(t)
  {
    hide Decode;
  }

  lemma CloseNoBeats(s: State)
    ensures NoBeats(s.io.queue, HandleClose(s).io.queue)
  {
    if s.io.socket.Some? { OnlyReceives(s.io); }
    hide Io.Leftovers, Decode;
  }

  lemma PlainNoBeats(s: State, t: Task)
    requires DequeKnown(s.store)
    ensures t.Push? ==> NoBeats(s.io.queue, HandlePush(s, FreshEntry(t.kind, t.body, t.to, t.callback)).io.queue)
    ensures NoBeats(s.io.queue, CheckSendDeadline(s).io.queue)
    ensures t.ReceiveDone? ==> NoBeats(s.io.queue, HandleReceive(s, t.datagram).io.queue)
  {
    hide Decode, ReportsOf;
  }

  lemma RunNoBeats(s: State, opening: Opening)
    requires Known(s) && s.io.queue != [] && (s.io.queue[0].Bind? ==> s.io.socket.None?)
    ensures NoBeats(s.io.queue[1..], Apply(s, Run(opening)).io.queue)
  {
    var t, s' := s.io.queue[0], TakeFront(s);
    hide NoBeats, HandlePush, HandleClose, HandleConnect, HandleBind, HandleSend, HandleConnectDone, CheckSendDeadline,
      HandleReceive, AwaitSendEntry;
    match t {
      case Close => CloseNoBeats(s');
      case Connect => OpeningNoBeats(s', opening);
      case Bind => OpeningNoBeats(s', opening);
      case Wake => WakeNoBeats(s');
      case SendDone(flight, result) => SendDoneNoBeats(s', flight, result);
      case ConnectDone(ok) => ConnectDoneNoBeats(s', ok);
      case _ => PlainNoBeats(s', t);
    }
  }

  lemma WakeNoBeats(s: State)
    requires DequeKnown(s.store)
    ensures NoBeats(s.io.queue, AwaitSendEntry(s, None).io.queue)
  {
    AwaitNoBeats(s.io, s.now, None, Next(s));
    hide NoBeats, Io.Await;
  }

  lemma ConnectDoneNoBeats(s: State, ok: bool)
    requires DequeKnown(s.store)
    ensures NoBeats(s.io.queue, HandleConnectDone(s, ok).io.queue)
  {
    StartSessionNoBeats(s);
    hide StartSession, Decode;
  }

  // ---- Every step ----

  lemma StepCouples(s: State, ev: Event)
    requires Inv(s) && Known(s) && Enabled(s, ev) && Clean(s, ev) && Coupled(s)
    ensures Coupled(Apply(s, ev))
  {
    if ev.Run? {
      RunCouples(s, ev.opening);
    } else {
      ElsewhereCoupled(s, ev);
    }
  }

  lemma RunCouples(s: State, opening: Opening)
    requires OneOfEach(s) && Known(s) && Coupled(s) && s.io.queue != [] && Clean(s, Run(opening))
    ensures Coupled(Apply(s, Run(opening)))
  {
    var s' := Apply(s, Run(opening));
    assert s.io.queue[0] in s.io.queue;
    FrontCases(s);
    RunSyncs(s, opening);
    RunNoBeats(s, opening);
    RunCounts(s, opening);
    hide OneOfEach, Synced, RunTask, Stampable;
    if Mixes(s'.io.queue) {
      var t :| t in s'.io.queue && Stampable(t);
      assert t in s.io.queue[1..] && t in s.io.queue;
      StaysRunning(s, opening);
    }
  }

  lemma StaysRunning(s: State, opening: Opening)
    requires Known(s) && s.io.queue != [] && s.io.Running() && s.io.queue[0] != Close && s.io.queue[0] != Bind
    ensures Apply(s, Run(opening)).io.Running()
  {
    RunCounts(s, opening);
    hide HandlePush, AwaitSendEntry, HandleSend, HandleConnectDone, CheckSendDeadline, HandleReceive;
  }

  lemma ElsewhereCoupled(s: State, ev: Event)
    requires OneOfEach(s) && Known(s) && Enabled(s, ev) && Coupled(s) && !ev.Run? && !ev.Restart?
    ensures Coupled(Apply(s, ev))
  {
    hide InSession, Fold, Stampable;
    assert ev.ReceiveCompletes? ==> s.io.Running();
    assert !ev.ReceiveCompletes? ==> forall t <- Apply(s, ev).io.queue :: t.ReceiveDone? ==> t in s.io.queue;
    OnlyReceives(s.io);
  }

  lemma {:induction false} RunsCouple(s: State, evs: seq<Event>)
    requires Inv(s) && Coupled(s) && Possible(s, evs) && CleanRun(s, evs)
    ensures Coupled(After(s, evs))
    decreases |evs|
  {
    hide Inv, Coupled, Apply, Clean;
    if evs != [] {
      StepCouples(s, evs[0]);
      StepHolds(s, evs[0]);
      RunsCouple(Apply(s, evs[0]), evs[1..]);
    }
  }

  // ---- The heartbeat machine accepts it ----

  /** The reports of sessions in turn are a run of the heartbeat machine's io side that keeps
      its assumption, with the same generation, the same openness and the same stamps. */
  lemma {:induction false} ReportsAreARun(reports: seq<Report>)
    requires InSession(reports)
    ensures H.Possible(H.Init(), IoEvents(reports))
    ensures var h := H.After(H.Init(), IoEvents(reports));
            && (h.generation, h.open) == Fold(reports) && h.stamped == Stamps(reports)
            && h.busy.None? && h.firing.None?
  {
    if reports != [] {
      var before := reports[..|reports| - 1];
      ReportsAreARun(before);
      var h := H.After(H.Init(), IoEvents(before));
      match reports[|reports| - 1] {
        case Opened(live) => OneMore(IoEvents(before), if live then H.Start else H.StaleStart);
        case Closed => OneMore(IoEvents(before), H.Stop);
        case HeartbeatFrom(_, sender, deadline) => OneMore(IoEvents(before), H.Receive(sender, deadline));
        case _ => assert IoEvents(before) + [] == IoEvents(before); assert Stamps(before) + [] == Stamps(before);
      }
    }
  }

  lemma OneMore(evs: seq<H.Event>, ev: H.Event)
    requires H.Possible(H.Init(), evs)
    requires var h := H.After(H.Init(), evs); H.Sane(h) && H.Enabled(h, ev) && H.Punctual(h, ev)
    ensures H.Possible(H.Init(), evs + [ev])
    ensures H.After(H.Init(), evs + [ev]) == H.Apply(H.After(H.Init(), evs), ev)
  {
    var h := H.After(H.Init(), evs);
    assert [ev][1..] == [];
    assert H.Possible(H.Apply(h, ev), []);
    assert H.Possible(h, [ev]) && H.After(h, [ev]) == H.Apply(h, ev);
    H.PossibleConcat(H.Init(), evs, [ev]);
  }

  /** Every run of an engine that closes its sessions with no received datagram queued drives
      the heartbeat machine within its assumption, stamping with the generation it is in. */
  lemma EngineDrivesHeartbeats(mode: Mode, bufferSize: nat, evs: seq<Event>)
    requires Possible(Init(mode, bufferSize), evs) && CleanRun(Init(mode, bufferSize), evs)
    ensures var s := After(Init(mode, bufferSize), evs);
            && H.Possible(H.Init(), IoEvents(s.reports))
            && var h := H.After(H.Init(), IoEvents(s.reports));
               h.generation == s.generation && h.open == s.io.Running() && h.stamped == Stamps(s.reports)
  {
    InitHolds(mode, bufferSize);
    assert Coupled(Init(mode, bufferSize));
    RunsCouple(Init(mode, bufferSize), evs);
    hide Inv, Possible, After, CleanRun, InSession, Fold;
    ReportsAreARun(After(Init(mode, bufferSize), evs).reports);
  }

  // ---- Interleaved with the dispatcher ----

  /** The events of the heartbeat machine can happen in this order, punctual or not. */
  ghost predicate Woven(h: H.State, evs: seq<H.Event>)
    decreases |evs|
  {
    evs == [] || (H.Sane(h) && H.Enabled(h, evs[0]) && Woven(H.Apply(h, evs[0]), evs[1..]))
  }

  /** The events of the io thread among them. */
  function IoPart(evs: seq<H.Event>): seq<H.Event> {
    if evs == [] then []
    else
      (if evs[0].Start? || evs[0].StaleStart? || evs[0].Stop? || evs[0].Receive? then [evs[0]] else [])
      + IoPart(evs[1..])
  }

  /** What the dispatcher does in between does not make the io thread unpunctual. */
  lemma {:induction false} WovenIsPossible(h: H.State, g: H.State, evs: seq<H.Event>)
    requires Woven(h, evs) && H.Possible(g, IoPart(evs)) && h.open == g.open
    ensures H.Possible(h, evs)
    decreases |evs|
  {
    if evs != [] {
      var io := IoPart(evs);
      if evs[0].Start? || evs[0].StaleStart? || evs[0].Stop? || evs[0].Receive? {
        assert io == [evs[0]] + IoPart(evs[1..]) && io[0] == evs[0] && io[1..] == IoPart(evs[1..]);
        assert H.Possible(H.Apply(g, evs[0]), io[1..]);
        WovenIsPossible(H.Apply(h, evs[0]), H.Apply(g, evs[0]), evs[1..]);
      } else {
        assert io == IoPart(evs[1..]);
        WovenIsPossible(H.Apply(h, evs[0]), g, evs[1..]);
      }
    }
  }

  /** However the dispatcher's checks, effects, timers and the passing of time are interleaved
      with the reports of an engine that closes cleanly, no heartbeat crosses sessions and no
      sender has two timers. */
  lemma EngineNeverCrosses(mode: Mode, bufferSize: nat, evs: seq<Event>, woven: seq<H.Event>)
    requires Possible(Init(mode, bufferSize), evs) && CleanRun(Init(mode, bufferSize), evs)
    requires Woven(H.Init(), woven) && IoPart(woven) == IoEvents(After(Init(mode, bufferSize), evs).reports)
    ensures H.Possible(H.Init(), woven)
    ensures !H.Crosses(H.After(H.Init(), woven)) && H.Distinct(H.After(H.Init(), woven).timers)
  {
    EngineDrivesHeartbeats(mode, bufferSize, evs);
    hide Possible, After, CleanRun, IoEvents;
    WovenIsPossible(H.Init(), H.Init(), woven);
    H.SessionsDoNotMix(woven);
  }

  // ---- And exactly then ----

  /** Some continuation with clean closes only reports a heartbeat outside its session. */
  ghost predicate CanStray(s: State) {
    exists evs :: Possible(s, evs) && CleanRun(s, evs) && !InSession(After(s, evs).reports)
  }

  /** Closing a running session lets a later heartbeat report stray exactly if a heartbeat that
      will be stamped is queued behind the close, wherever it is. */
  lemma StrayExact(s: State, opening: Opening)
    requires Inv(s) && Coupled(s) && s.io.Running() && s.io.queue != [] && s.io.queue[0] == Close
    ensures Known(s) && (CanStray(Apply(s, Run(opening))) <==> Mixes(s.io.queue))
  {
    InvKnows(s);
    var s1 := Apply(s, Run(opening));
    StepHolds(s, Run(opening));
    if Mixes(s.io.queue) {
      var k := ClosedOverBeat(s, opening);
      var evs := StrayReached(s1, k);
    } else {
      StepCouples(s, Run(opening));
      hide Inv, Apply, Fold;
      forall evs | Possible(s1, evs) && CleanRun(s1, evs) ensures InSession(After(s1, evs).reports) {
        RunsCouple(s1, evs);
      }
    }
  }

  /** After the close the heartbeat is still queued, and nothing that starts a session is. */
  lemma ClosedOverBeat(s: State, opening: Opening) returns (k: nat)
    requires Inv(s) && Known(s) && Coupled(s) && s.io.Running() && s.io.queue != [] && s.io.queue[0] == Close
    requires Mixes(s.io.queue)
    ensures var s1 := Apply(s, Run(opening));
            && Synced(s1) && !s1.io.Running() && k < |s1.io.queue| && Stampable(s1.io.queue[k])
            && Count(s1.io.queue, Starter) == 0
  {
    var q, s1 := s.io.queue[1..], Apply(s, Run(opening));
    RunCounts(s, opening);
    RunExtends(s, opening);
    ExtendsStarters(q, s1.io.queue);
    hide Inv, Delivered, Attentive, Watched, Counted, Doomed, Stampable, Extends, Synced;
    CloseStays(s, opening);
    var t :| t in s.io.queue && Stampable(t);
    OnlyReceives(s.io);
    assert t in q;
    k :| 0 <= k < |q| && q[k] == t;
    assert s1.io.queue[..|q|][k] == t by { assert Extends(q, s1.io.queue); ExtendsPrefix(q, s1.io.queue); }
  }

  lemma ExtendsPrefix(q: seq<Task>, q': seq<Task>)
    requires Extends(q, q')
    ensures |q| <= |q'| && q'[..|q|] == q
  {
  }

  lemma CloseStays(s: State, opening: Opening)
    requires Known(s) && Synced(s) && OneOfEach(s) && s.io.Running() && s.io.queue != [] && s.io.queue[0] == Close
    ensures Synced(Apply(s, Run(opening))) && Count(s.io.queue[1..], Starter) == 0
  {
    CloseSyncs(TakeFront(s));
    hide HandleClose, InSession, Fold;
  }

  /** With no session and nothing to start one, the heartbeat's turn comes before any session. */
  lemma StrayReached(s: State, k: nat) returns (evs: seq<Event>)
    requires Inv(s) && Synced(s) && !s.io.Running() && Count(s.io.queue, Starter) == 0
    requires k < |s.io.queue| && Stampable(s.io.queue[k])
    ensures Possible(s, evs) && CleanRun(s, evs) && !InSession(After(s, evs).reports)
    decreases k
  {
    InvKnows(s);
    var ev := Run(CannotOpen);
    var s1 := Apply(s, ev);
    evs := [ev];
    assert evs[1..] == [];
    if Stampable(s.io.queue[0]) {
      BeatStrays(s);
      assert Possible(s1, []);
    } else {
      StepHolds(s, ev);
      StaysStopped(s);
      hide Inv, Apply, Synced, InSession;
      var rest := StrayReached(s1, k - 1);
      evs := [ev] + rest;
      assert evs[1..] == rest;
    }
  }

  lemma BeatStrays(s: State)
    requires Known(s) && Synced(s) && !s.io.Running() && s.io.queue != [] && Stampable(s.io.queue[0])
    ensures !InSession(Apply(s, Run(CannotOpen)).reports)
  {
    var d, s0 := s.io.queue[0].datagram.value, TakeFront(s);
    var r := HeartbeatFrom(s.generation, d.sender, Decode(d.bytes).deadline);
    assert ReportsOf(s.generation, Some(d)) == [r];
    ReportOne(s.reports, r);
    hide InSession, Fold, Decode;
  }

  /** One handler nearer. */
  lemma StaysStopped(s: State)
    requires OneOfEach(s) && Known(s) && Synced(s) && !s.io.Running()
    requires s.io.queue != [] && Count(s.io.queue, Starter) == 0 && !Stampable(s.io.queue[0])
    ensures var q', s1 := s.io.queue[1..], Apply(s, Run(CannotOpen));
            && Synced(s1) && !s1.io.Running() && Count(s1.io.queue, Starter) == 0
            && |q'| <= |s1.io.queue| && s1.io.queue[..|q'|] == q'
  {
    FrontOf(s);
    RunSyncs(s, CannotOpen);
    RunCounts(s, CannotOpen);
    RunExtends(s, CannotOpen);
    ExtendsStarters(s.io.queue[1..], Apply(s, Run(CannotOpen)).io.queue);
    ConnectStops(TakeFront(s));
    hide OneOfEach, Synced, HandlePush, HandleClose, HandleConnect, HandleBind, AwaitSendEntry, HandleSend,
      HandleConnectDone, CheckSendDeadline, HandleReceive;
  }

  lemma ConnectStops(s: State)
    requires !s.io.Running()
    ensures !HandleConnect(s, CannotOpen).io.Running()
  {
  }
}
