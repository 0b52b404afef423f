/** What is reported over a whole run, kind by kind, against the handlers that ran: openings and
    closings, received datagrams, and lost connections, in order and with nothing else. */
module Transcripts {
  import opened Wire
  import opened IoContext
  import opened Engine
  import opened Delivery
  import opened Basics

  datatype Kind = Session | Traffic | Loss | Entries

  function KindOf(r: Report): Kind {
    match r
    case Opened(_) => Session
    case OpenFailed => Session
    case Closed => Session
    case Received(_, _) => Traffic
    case HeartbeatFrom(_, _, _) => Traffic
    case WarningReported => Traffic
    case ErrorOccurred(error, _) => if error.ConnectionError? || error.OperationAborted? then Loss else Entries
    case Processed(_) => Entries
  }

  /** The reports of one kind, in order. */
  function Of(reports: seq<Report>, k: Kind): seq<Report> {
    if reports == [] then []
    else (if KindOf(reports[0]) == k then [reports[0]] else []) + Of(reports[1..], k)
  }

  lemma {:induction false} OfConcat(a: seq<Report>, b: seq<Report>, k: Kind)
    ensures Of(a + b, k) == Of(a, k) + Of(b, k)
  {
    if a == [] {
      assert a + b == b;
    } else {
      assert (a + b)[1..] == a[1..] + b;
      OfConcat(a[1..], b, k);
    }
  }

  // ---- What each handler has to say ----

  /** A connect or bind that fails, at once or later, is reported; one that succeeds opens a
      session; a close is reported if a session was running. */
  function SessionNews(s: State, t: Task, opening: Opening): seq<Report> {
    match t
    case ConnectDone(ok) => [if ok then Opened(s.io.socket.Some?) else OpenFailed]
    case Connect => if s.io.socket.None? && !opening.Open? then [OpenFailed] else []
    case Bind => [if opening.Open? then Opened(true) else OpenFailed]
    case Close => if s.io.socket.Some? && s.io.ready then [Closed] else []
    case _ => []
  }

  /** The 32-bit number in little-endian order behind the type byte. */
  function DeadlineIn(bytes: seq<byte>): nat
    requires |bytes| >= 5
  {
    bytes[1] as int + 0x100 * bytes[2] as int + 0x1_0000 * bytes[3] as int + 0x100_0000 * bytes[4] as int
  }

  /** A datagram of type 1 is handed on without its type byte, an empty one included. One of
      type 0 with a deadline is a heartbeat of the generation, if its sender has a path in the
      file system, and a warning otherwise. Anything else is ignored. */
  function TrafficNews(generation: nat, t: Task): seq<Report> {
    if !t.ReceiveDone? || t.datagram.None? then []
    else
      var d := t.datagram.value;
      if |d.bytes| >= 1 && d.bytes[0] == 1 then [Received(d.bytes[1..], d.sender)]
      else if |d.bytes| >= 5 && d.bytes[0] == 0 && DeadlineIn(d.bytes) > 0 then
        if |d.sender| > 0 && d.sender[0] != '\0' then [HeartbeatFrom(generation, d.sender, DeadlineIn(d.bytes))]
        else [WarningReported]
      else []
  }

  /** A client reports the loss of its connection. */
  function LossNews(mode: Mode, t: Task): seq<Report> {
    if t.SendDone? && t.result.Failed? && mode == Client
       && (t.result.error == ConnectionError || t.result.error == OperationAborted)
    then [ErrorOccurred(t.result.error, t.flight.id)] else []
  }

  function News(s: State, ev: Event, k: Kind): seq<Report>
    requires Enabled(s, ev)
  {
    if !ev.Run? then []
    else
      match k
      case Session => SessionNews(s, s.io.queue[0], ev.opening)
      case Traffic => TrafficNews(s.generation, s.io.queue[0])
      case Loss => LossNews(s.mode, s.io.queue[0])
      case Entries => []
  }

  ghost function AllNews(s: State, evs: seq<Event>, k: Kind): seq<Report>
    requires Feasible(s, evs)
    decreases |evs|
  {
    if evs == [] then [] else News(s, evs[0], k) + AllNews(Apply(s, evs[0]), evs[1..], k)
  }

  // ---- Every handler ----

  /** `xs` is reported, and it is the news of each kind. */
  predicate Tells(s: State, t: Task, opening: Opening, s': State, xs: seq<Report>) {
    && s'.reports == s.reports + xs
    && Of(xs, Session) == SessionNews(s, t, opening)
    && Of(xs, Traffic) == TrafficNews(s.generation, t)
    && Of(xs, Loss) == LossNews(s.mode, t)
  }

  lemma OfOne(r: Report)
    ensures forall k :: Of([r], k) == if KindOf(r) == k then [r] else []
    ensures forall k :: Of([], k) == []
  {
    assert [r][1..] == [];
  }

  lemma CloseTells(s: State, opening: Opening) returns (xs: seq<Report>)
    ensures Tells(s, Close, opening, HandleClose(s), xs)
  {
    xs := if s.io.socket.Some? && s.io.ready then [Closed] else [];
    OfOne(Closed);
    assert s.reports + [] == s.reports;
    hide Of, Io.Leftovers;
  }

  lemma ConnectTells(s: State, opening: Opening) returns (xs: seq<Report>)
    ensures Tells(s, Connect, opening, HandleConnect(s, opening), xs)
  {
    xs := if s.io.socket.None? && !opening.Open? then [OpenFailed] else [];
    OfOne(OpenFailed);
    assert s.reports + [] == s.reports;
    hide Of, AbortedOperations;
  }

  lemma StartTells(s: State)
    requires DequeKnown(s.store)
    ensures StartSession(s).reports == s.reports + [Opened(s.io.socket.Some?)]
  {
    hide Io.StartActors;
  }

  lemma BindTells(s: State, opening: Opening) returns (xs: seq<Report>)
    requires DequeKnown(s.store)
    ensures Tells(s, Bind, opening, HandleBind(s, opening), xs)
  {
    xs := [if opening.Open? then Opened(true) else OpenFailed];
    OfOne(xs[0]);
    StartTells(s.(io := s.io.Replaced(0), bound := true));
    hide Of, StartSession, AbortedOperations;
  }

  lemma ConnectDoneTells(s: State, ok: bool, opening: Opening) returns (xs: seq<Report>)
    requires DequeKnown(s.store)
    ensures Tells(s, ConnectDone(ok), opening, HandleConnectDone(s, ok), xs)
  {
    xs := [if ok then Opened(s.io.socket.Some?) else OpenFailed];
    OfOne(xs[0]);
    StartTells(s);
    hide Of, StartSession;
  }

  lemma ReceiveTells(s: State, datagram: Option<Datagram>, opening: Opening) returns (xs: seq<Report>)
    ensures Tells(s, ReceiveDone(datagram), opening, HandleReceive(s, datagram), xs)
  {
    xs := ReportsOf(s.generation, datagram);
    if xs != [] { OfOne(xs[0]); } else { OfOne(Closed); }
    if datagram.Some? { DecodedNews(datagram.value.bytes); }
    hide Of, Decode;
  }

  /** The decoder reads the bytes as the news do. */
  lemma DecodedNews(bs: seq<byte>)
    ensures |bs| >= 1 && bs[0] == 1 ==> Decode(bs) == User(bs[1..])
    ensures |bs| >= 5 && bs[0] == 0 ==> Decode(bs) == if DeadlineIn(bs) > 0 then NextHeartbeat(DeadlineIn(bs)) else Ignored
    ensures !(|bs| >= 1 && bs[0] == 1) && !(|bs| >= 5 && bs[0] == 0) ==> Decode(bs) == Ignored
  {
  }

  /** The error that a completion signals, if any. */
  lemma AccountTells(s: State, f: Flight, result: SendResult) returns (xs: seq<Report>)
    requires f.id < |s.store.log|
    ensures Account(s, f, result).reports == s.reports + xs
    ensures Of(xs, Session) == Of(xs, Traffic) == [] && Of(xs, Loss) == LossNews(s.mode, SendDone(f, result))
  {
    xs := if Signalled(s.mode, s.store.log[f.id], result) then [ErrorOccurred(result.error, f.id)] else [];
    if xs != [] { OfOne(xs[0]); } else { OfOne(Closed); }
    hide Of, AfterSend, OutOfPatience;
  }

  lemma SendDoneTells(s: State, f: Flight, result: SendResult, opening: Opening) returns (xs: seq<Report>)
    requires DequeKnown(s.store) && f.id < |s.store.log|
    ensures Tells(s, SendDone(f, result), opening, HandleSend(s, f, result), xs)
  {
    var a := Account(s, f, result);
    var e := AccountTells(s, f, result);
    var p := if !ClosesSession(s.mode, result) && TransferComplete(a.store.log[f.id]) then PopReports(a.store) else [];
    assert DequeKnown(a.store) && f.id < |a.store.log| && a.mode == s.mode;
    ProceedReports(a, f.id, result);
    assert p == [] || (p == [p[0]] && p[0].Processed?);
    xs := e + p;
    hide Of, AfterSend, Account, Proceed, PopReports, LossNews, ClosesSession, TransferComplete, HandleSend;
    CallbackAdds(e, p);
    Reassociate(s.reports, e, p);
    assert HandleSend(s, f, result).reports == Proceed(a, f.id, result).reports by { SendIsBoth(s, f, result); }
  }

  lemma SendIsBoth(s: State, f: Flight, result: SendResult)
    requires DequeKnown(s.store) && f.id < |s.store.log|
    ensures var a := Account(s, f, result);
            DequeKnown(a.store) && f.id < |a.store.log| && HandleSend(s, f, result) == Proceed(a, f.id, result)
  {
  }

  /** A scheduled callback is none of the other kinds. */
  lemma CallbackAdds(e: seq<Report>, p: seq<Report>)
    requires p == [] || (p == [p[0]] && p[0].Processed?)
    ensures Of(e + p, Session) == Of(e, Session) && Of(e + p, Traffic) == Of(e, Traffic) && Of(e + p, Loss) == Of(e, Loss)
  {
    if p != [] { OfOne(p[0]); } else { OfOne(Closed); }
    OfConcat(e, p, Session);
    OfConcat(e, p, Traffic);
    OfConcat(e, p, Loss);
    hide Of;
  }

  lemma ProceedReports(s: State, id: nat, result: SendResult)
    requires id < |s.store.log| && DequeKnown(s.store)
    ensures Proceed(s, id, result).reports == s.reports +
              (if !ClosesSession(s.mode, result) && TransferComplete(s.store.log[id]) then PopReports(s.store) else [])
  {
    assert s.reports + [] == s.reports;
    hide Io.Await;
  }

  lemma QuietTells(s: State, t: Task, opening: Opening)
    requires DequeKnown(s.store) && (t.Push? || t.Wake? || t.DeadlineWake?)
    ensures Tells(s, t, opening, RunTask(s, t, opening), [])
  {
    assert s.reports + [] == s.reports;
    hide Io.Await, Io.Check, Io.SetInvoker;
  }

  lemma RunTells(s: State, opening: Opening) returns (xs: seq<Report>)
    requires Known(s) && s.io.queue != []
    ensures Tells(s, s.io.queue[0], opening, Apply(s, Run(opening)), xs)
  {
    var t, s0 := s.io.queue[0], TakeFront(s);
    hide Of, TrafficNews, LossNews, HandlePush, HandleClose, HandleConnect, HandleBind, AwaitSendEntry, HandleSend,
      HandleConnectDone, CheckSendDeadline, HandleReceive;
    match t {
      case Close => xs := CloseTells(s0, opening);
      case Connect => xs := ConnectTells(s0, opening);
      case Bind => xs := BindTells(s0, opening);
      case SendDone(flight, result) => xs := SendDoneTells(s0, flight, result, opening);
      case ConnectDone(ok) => xs := ConnectDoneTells(s0, ok, opening);
      case ReceiveDone(datagram) => xs := ReceiveTells(s0, datagram, opening);
      case _ =>
        QuietTells(s0, t, opening);
        xs := [];
    }
  }

  lemma StepTells(s: State, ev: Event, k: Kind)
    requires Known(s) && Enabled(s, ev) && k != Entries
    ensures Of(Apply(s, ev).reports, k) == Of(s.reports, k) + News(s, ev, k)
  {
    if ev.Run? {
      var xs := RunTells(s, ev.opening);
      OfConcat(s.reports, xs, k);
      hide Of, SessionNews, TrafficNews, LossNews, Apply;
    } else {
      assert Of(s.reports, k) + [] == Of(s.reports, k);
      hide Of;
    }
  }

  // ---- Every run ----

  /** Over every run, the reports of each kind are, in order and with nothing else, the news of
      the handlers that ran. */
  lemma {:induction false} AllTold(s: State, evs: seq<Event>, k: Kind)
    requires Feasible(s, evs) && k != Entries
    ensures Of(Outcome(s, evs).reports, k) == Of(s.reports, k) + AllNews(s, evs, k)
    decreases |evs|
  {
    hide Apply, Known, Enabled, Of, News;
    if evs == [] {
      assert Of(s.reports, k) + [] == Of(s.reports, k);
    } else {
      StepTells(s, evs[0], k);
      AllTold(Apply(s, evs[0]), evs[1..], k);
      Reassociate(Of(s.reports, k), News(s, evs[0], k), AllNews(Apply(s, evs[0]), evs[1..], k));
    }
  }

  // ---- Counting openings ----

  function Number(reports: seq<Report>, what: Report -> bool): nat {
    if reports == [] then 0 else (if what(reports[0]) then 1 else 0) + Number(reports[1..], what)
  }

  lemma {:induction false} NumberConcat(a: seq<Report>, b: seq<Report>, what: Report -> bool)
    ensures Number(a + b, what) == Number(a, what) + Number(b, what)
  {
    if a == [] {
      assert a + b == b;
    } else {
      assert (a + b)[1..] == a[1..] + b;
      NumberConcat(a[1..], b, what);
    }
  }

  /** A handler that fails to open: a connect that completed with an error, one that found no
      socket and could not open or bind one, or a bind that could not. */
  predicate Fails(s: State, ev: Event) {
    ev.Run? && s.io.queue != [] &&
    match s.io.queue[0]
    case ConnectDone(ok) => !ok
    case Connect => s.io.socket.None? && !ev.opening.Open?
    case Bind => !ev.opening.Open?
    case _ => false
  }

  /** A handler that starts a session. */
  predicate Begins(s: State, ev: Event) {
    ev.Run? && s.io.queue != [] && (s.io.queue[0] == ConnectDone(true) || (s.io.queue[0] == Bind && ev.opening.Open?))
  }

  /** A handler that ends a running one. */
  predicate Ends(s: State, ev: Event) {
    ev.Run? && s.io.queue != [] && s.io.queue[0] == Close && s.io.Running()
  }

  ghost function Times(s: State, evs: seq<Event>, what: (State, Event) -> bool): nat
    requires Feasible(s, evs)
    decreases |evs|
  {
    if evs == [] then 0 else (if what(s, evs[0]) then 1 else 0) + Times(Apply(s, evs[0]), evs[1..], what)
  }

  lemma NewsCounted(s: State, ev: Event)
    requires Enabled(s, ev)
    ensures var n := News(s, ev, Session);
            && Number(n, (r: Report) => r.OpenFailed?) == (if Fails(s, ev) then 1 else 0)
            && Number(n, (r: Report) => r.Opened?) == (if Begins(s, ev) then 1 else 0)
            && Number(n, (r: Report) => r.Closed?) == (if Ends(s, ev) then 1 else 0)
  {
    var n := News(s, ev, Session);
    if n != [] { assert n == [n[0]] && n[1..] == []; }
  }

  lemma {:induction false} AllNewsCounted(s: State, evs: seq<Event>)
    requires Feasible(s, evs)
    ensures var n := AllNews(s, evs, Session);
            && Number(n, (r: Report) => r.OpenFailed?) == Times(s, evs, Fails)
            && Number(n, (r: Report) => r.Opened?) == Times(s, evs, Begins)
            && Number(n, (r: Report) => r.Closed?) == Times(s, evs, Ends)
    decreases |evs|
  {
    if evs != [] {
      var a, b := News(s, evs[0], Session), AllNews(Apply(s, evs[0]), evs[1..], Session);
      NewsCounted(s, evs[0]);
      AllNewsCounted(Apply(s, evs[0]), evs[1..]);
      NumberConcat(a, b, (r: Report) => r.OpenFailed?);
      NumberConcat(a, b, (r: Report) => r.Opened?);
      NumberConcat(a, b, (r: Report) => r.Closed?);
      hide Apply, News, Number, Known, Enabled;
    }
  }

  /** Reports of a kind are counted among those of all kinds. */
  lemma {:induction false} NumberOf(reports: seq<Report>, what: Report -> bool)
    requires forall r :: what(r) ==> KindOf(r) == Session
    ensures Number(Of(reports, Session), what) == Number(reports, what)
  {
    if reports != [] {
      NumberOf(reports[1..], what);
      var x := if KindOf(reports[0]) == Session then [reports[0]] else [];
      NumberConcat(x, Of(reports[1..], Session), what);
      if x != [] { assert x[1..] == []; }
    }
  }

  /** Over every run of a fresh engine: a failure to open is reported once for each connect or
      bind that failed, an opening once for each session that started, and a close once for each
      that was closed. */
  lemma OpeningsCounted(mode: Mode, bufferSize: nat, evs: seq<Event>)
    requires Feasible(Init(mode, bufferSize), evs)
    ensures var s0 := Init(mode, bufferSize);
            var reports := Outcome(s0, evs).reports;
            && Number(reports, (r: Report) => r.OpenFailed?) == Times(s0, evs, Fails)
            && Number(reports, (r: Report) => r.Opened?) == Times(s0, evs, Begins)
            && Number(reports, (r: Report) => r.Closed?) == Times(s0, evs, Ends)
  {
    var s0 := Init(mode, bufferSize);
    var reports := Outcome(s0, evs).reports;
    AllTold(s0, evs, Session);
    AllNewsCounted(s0, evs);
    assert [] + AllNews(s0, evs, Session) == AllNews(s0, evs, Session);
    NumberOf(reports, (r: Report) => r.OpenFailed?);
    NumberOf(reports, (r: Report) => r.Opened?);
    NumberOf(reports, (r: Report) => r.Closed?);
    hide Feasible, Outcome, AllNews, Number, Times;
  }

  // ---- The path of the socket ----

  /** What a handler says about the path that is removed at a close: a bind, or a connect with a
      path of its own, records it, and the close of a running session clears it. */
  function PathNews(s: State, ev: Event): seq<bool> {
    if !ev.Run? || s.io.queue == [] then []
    else
      match s.io.queue[0]
      case Bind => if ev.opening.Open? then [true] else []
      case Connect => if s.io.socket.None? && ev.opening == Open(true) then [true] else []
      case Close => if s.io.socket.Some? && s.io.ready then [false] else []
      case _ => []
  }

  ghost function AllPathNews(s: State, evs: seq<Event>): seq<bool>
    requires Feasible(s, evs)
    decreases |evs|
  {
    if evs == [] then [] else PathNews(s, evs[0]) + AllPathNews(Apply(s, evs[0]), evs[1..])
  }

  lemma StepMovesPath(s: State, ev: Event)
    requires Known(s) && Enabled(s, ev) && !ev.Restart?
    ensures var n := PathNews(s, ev); |n| <= 1 && (Apply(s, ev).bound <==> if n == [] then s.bound else n[0])
  {
    hide Io.Await, Io.StartActors, Io.Closed, Io.Replaced, Io.Check, Io.Receive, Io.SetInvoker, Io.SetDeadline,
      AfterSend, Signalled, PopReports, ReportsOf;
  }

  /** Over every run of one engine, a path is recorded exactly if the last said about it was a
      bind or a connect with a path, with no close of a running session since. */
  lemma {:induction false} PathExact(s: State, evs: seq<Event>)
    requires Feasible(s, evs) && Restart !in evs
    ensures var n := AllPathNews(s, evs); Outcome(s, evs).bound <==> if n == [] then s.bound else n[|n| - 1]
    decreases |evs|
  {
    hide Apply, Known, Enabled, PathNews;
    if evs != [] {
      assert evs[0] in evs;
      var a, b := PathNews(s, evs[0]), AllPathNews(Apply(s, evs[0]), evs[1..]);
      StepMovesPath(s, evs[0]);
      PathExact(Apply(s, evs[0]), evs[1..]);
      assert b != [] ==> (a + b)[|a + b| - 1] == b[|b| - 1];
      assert b == [] ==> a + b == a;
    }
  }

  /** User data sent whole from `p`: what the user is handed is exactly what was sent, up to the
      receive buffer, and where it came from. */
  lemma UserDataArrives(s: State, opening: Opening, v: seq<byte>, p: Path)
    requires Known(s) && s.io.queue != []
    requires s.io.queue[0] == ReceiveDone(Some(Datagram(Receive(Layout(UserData, v), s.bufferSize), p)))
    ensures Apply(s, Run(opening)).reports
         == s.reports + [Received(if |v| <= s.bufferSize + 31 then v else v[..s.bufferSize + 31], p)]
  {
    UserDataRoundTrip(v, s.bufferSize);
    hide Decode, Receive, Layout, Io.Receive;
  }
}
