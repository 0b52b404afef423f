/** What becomes of the entries, in every run whose connects are guarded: a server's runs, and
    those of a client that connects only where its queue fences the new session off. */
module Guards {
  import opened Wire
  import opened IoContext
  import opened Engine
  import opened Actors
  import opened Delivery
  import opened Sessions
  import opened Runs
  import opened Fences

  /** A client needs its fence only; a server has the whole invariant. */
  predicate Intact(s: State) {
    Delivered(s) && (if s.mode == Client then Fenced(s.io) else Inv(s))
  }

  lemma InitIntact(mode: Mode, bufferSize: nat)
    ensures Intact(Init(mode, bufferSize))
  {
    InitHolds(mode, bufferSize);
  }

  lemma IntactHasOneSender(s: State)
    requires Intact(s)
    ensures OneSender(s) && Known(s)
  {
    DeliveredKnows(s);
    if s.mode == Client {
      assert s.io.queue != [] ==> s.io.queue[0] in s.io.queue;
    } else {
      OneSenderAtMost(s);
    }
  }

  lemma StepKeepsIntact(s: State, ev: Event)
    requires Intact(s) && Enabled(s, ev) && Guarded(s, ev)
    ensures Known(s) && Intact(Apply(s, ev))
  {
    IntactHasOneSender(s);
    if s.mode == Client {
      StepKeepsDelivery(s, ev);
      StepKeepsFence(s, ev);
      hide Delivered, Fenced, OneSender, Apply;
    } else {
      ServerIsCalm(s, ev);
      StepHolds(s, ev);
      ServerStays(s, ev);
      hide OneOfEach, Attentive, Watched, Counted, Doomed, Delivered, OneSender, Apply;
    }
  }

  lemma ServerIsCalm(s: State, ev: Event)
    requires s.mode == Server && OneOfEach(s)
    ensures Calm(s, ev)
  {
    if s.io.queue != [] { FrontOf(s); }
  }

  lemma ServerStays(s: State, ev: Event)
    requires Known(s) && Enabled(s, ev) && s.mode == Server
    ensures Apply(s, ev).mode == Server
  {
    if ev.Run? { RunCounts(s, ev.opening); }
    hide RunTask;
  }

  lemma {:induction false} RunStaysIntact(s: State, evs: seq<Event>)
    requires Intact(s) && Allowed(s, evs)
    ensures Intact(Reached(s, evs))
    decreases |evs|
  {
    hide Intact, Apply, Known, Enabled, Guarded;
    if evs != [] {
      StepKeepsIntact(s, evs[0]);
      RunStaysIntact(Apply(s, evs[0]), evs[1..]);
    }
  }

  /** Some guarded run of a fresh engine leads to `s`. */
  ghost predicate Attainable(s: State) {
    exists mode, bufferSize: nat, evs ::
      Allowed(Init(mode, bufferSize), evs) && s == Reached(Init(mode, bufferSize), evs)
  }

  lemma AttainableIsIntact(s: State)
    requires Attainable(s)
    ensures Intact(s)
  {
    hide Intact;
    var mode, bufferSize: nat, evs :|
      Allowed(Init(mode, bufferSize), evs) && s == Reached(Init(mode, bufferSize), evs);
    InitIntact(mode, bufferSize);
    RunStaysIntact(Init(mode, bufferSize), evs);
  }

  lemma AttainableDelivers(s: State)
    requires Attainable(s)
    ensures Delivered(s)
  {
    AttainableIsIntact(s);
    IntactDelivers(s);
    hide Intact;
  }

  lemma IntactDelivers(s: State)
    requires Intact(s)
    ensures Delivered(s)
  {
  }

  /** What calm runs reach, guarded runs reach. */
  lemma ReachableIsAttainable(s: State)
    requires Reachable(s)
    ensures Attainable(s)
  {
    var mode, bufferSize: nat, evs :|
      Possible(Init(mode, bufferSize), evs) && s == After(Init(mode, bufferSize), evs);
    PossibleIsAllowed(Init(mode, bufferSize), evs);
  }

  // ---- Nothing lost, duplicated or reordered ----

  /** What `async_send` was asked to deliver. */
  datatype Draft = Draft(buffer: seq<byte>, to: Option<Path>, callback: bool)

  function DraftOf(e: Entry): Draft {
    Draft(e.buffer, e.to, e.callback)
  }

  function Drafts(log: seq<Entry>): (ds: seq<Draft>)
    ensures |ds| == |log|
  {
    seq(|log|, i requires 0 <= i < |log| => DraftOf(log[i]))
  }

  /** The entries still on their way to the deque. */
  function OnTheWay(q: seq<Task>): seq<Draft> {
    if q == [] then []
    else
      (if q[0].Push? then [Draft(Layout(q[0].kind, q[0].body), q[0].to, q[0].callback)] else []) + OnTheWay(q[1..])
  }

  /** The entries submitted by a run, in the order of the calls. */
  function Submitted(evs: seq<Event>): seq<Draft> {
    if evs == [] then []
    else OnTheWay(if evs[0].Posted? then [evs[0].task] else []) + Submitted(evs[1..])
  }

  lemma {:induction false} OnTheWayConcat(a: seq<Task>, b: seq<Task>)
    ensures OnTheWay(a + b) == OnTheWay(a) + OnTheWay(b)
  {
    if a == [] {
      assert a + b == b;
    } else {
      assert (a + b)[1..] == a[1..] + b;
      OnTheWayConcat(a[1..], b);
      Reassociate(if a[0].Push? then [Draft(Layout(a[0].kind, a[0].body), a[0].to, a[0].callback)] else [],
                  OnTheWay(a[1..]), OnTheWay(b));
    }
  }

  lemma {:induction false} OnTheWayNone(q: seq<Task>)
    requires forall i :: 0 <= i < |q| ==> !q[i].Push?
    ensures OnTheWay(q) == []
  {
    if q != [] { OnTheWayNone(q[1..]); }
  }

  lemma ExtendsOnTheWay(q: seq<Task>, q': seq<Task>)
    requires Extends(q, q')
    ensures OnTheWay(q') == OnTheWay(q)
  {
    var b := q'[|q|..];
    assert q' == q + b;
    OnTheWayConcat(q, b);
    forall i | 0 <= i < |b| ensures !b[i].Push? { assert b[i] == q'[|q| + i]; }
    OnTheWayNone(b);
  }

  lemma SendDoneKeepsDrafts(s: State, f: Flight, result: SendResult)
    requires DequeKnown(s.store) && f.id < |s.store.log|
    ensures Drafts(HandleSend(s, f, result).store.log) == Drafts(s.store.log)
  {
    var log, log' := s.store.log, HandleSend(s, f, result).store.log;
    assert log' == log[f.id := AfterSend(s.mode, log[f.id], f.slice, result)];
    assert DraftOf(AfterSend(s.mode, log[f.id], f.slice, result)) == DraftOf(log[f.id]);
    hide AfterSend, DraftOf;
  }

  lemma OneOnTheWay(t: Task)
    ensures OnTheWay([t]) == if t.Push? then [Draft(Layout(t.kind, t.body), t.to, t.callback)] else []
  {
    assert OnTheWay([t][1..]) == [];
  }

  /** Handlers change an entry's progress, never what it is; only `Push` adds one. */
  lemma RunKeepsDrafts(s: State, opening: Opening)
    requires Known(s) && s.io.queue != []
    ensures var t, log' := s.io.queue[0], Apply(s, Run(opening)).store.log;
            Drafts(log') == if t.Push? then Drafts(s.store.log) + [Draft(Layout(t.kind, t.body), t.to, t.callback)]
                            else Drafts(s.store.log)
  {
    var t, s' := s.io.queue[0], TakeFront(s);
    hide Drafts, HandlePush, HandleClose, HandleConnect, HandleBind, AwaitSendEntry, HandleSend,
      HandleConnectDone, CheckSendDeadline, HandleReceive;
    match t {
      case SendDone(flight, result) => SendDoneKeepsDrafts(s', flight, result);
      case Push(kind, body, to, callback) => PushAddsDraft(s', kind, body, to, callback);
      case _ => SessionsKeepStore(s', t, opening);
    }
  }

  lemma PushAddsDraft(s: State, kind: MessageType, body: seq<byte>, to: Option<Path>, callback: bool)
    ensures Drafts(HandlePush(s, FreshEntry(kind, body, to, callback)).store.log)
         == Drafts(s.store.log) + [Draft(Layout(kind, body), to, callback)]
  {
  }

  lemma StepConserves(s: State, ev: Event)
    requires Known(s) && Enabled(s, ev) && OneSender(s)
    ensures var s' := Apply(s, ev);
            Drafts(s'.store.log) + OnTheWay(s'.io.queue)
              == Drafts(s.store.log) + OnTheWay(s.io.queue) + Submitted([ev])
  {
    assert Submitted([ev]) == OnTheWay(if ev.Posted? then [ev.task] else []) + Submitted([ev][1..]);
    assert OnTheWay([]) == [];
    hide OneSender, Apply, OnTheWay, Drafts;
    match ev {
      case Run(opening) => RunTaskConserves(s, opening);
      case Restart => RestartConserves(s);
      case _ =>
        EnvironmentAppends(s, ev);
    }
  }

  lemma RunTaskConserves(s: State, opening: Opening)
    requires Known(s) && OneSender(s) && s.io.queue != []
    ensures var s' := Apply(s, Run(opening));
            Drafts(s'.store.log) + OnTheWay(s'.io.queue) == Drafts(s.store.log) + OnTheWay(s.io.queue)
  {
    RunKeepsDrafts(s, opening);
    RunExtends(s, opening);
    var q, s' := s.io.queue, Apply(s, Run(opening));
    ExtendsOnTheWay(q[1..], s'.io.queue);
    OneOnTheWay(q[0]);
    assert OnTheWay(q) == OnTheWay([q[0]]) + OnTheWay(q[1..]);
    hide OneSender, Apply, Extends, Drafts, OnTheWay, Known;
    Reassociate(Drafts(s.store.log), OnTheWay([q[0]]), OnTheWay(q[1..]));
  }

  lemma RestartConserves(s: State)
    requires Known(s) && Enabled(s, Restart)
    ensures Apply(s, Restart).store == s.store
    ensures OnTheWay(Apply(s, Restart).io.queue) == OnTheWay(s.io.queue) == []
  {
    OnTheWayNone(FreshIo(Server).queue);
  }

  lemma EnvironmentAppends(s: State, ev: Event)
    requires Known(s) && Enabled(s, ev) && !ev.Run? && !ev.Restart?
    ensures OnTheWay(Apply(s, ev).io.queue) == OnTheWay(s.io.queue) + OnTheWay(if ev.Posted? then [ev.task] else [])
    ensures Apply(s, ev).store == s.store
  {
    var b := match ev
      case Posted(t) => [t]
      case Retire => [Close]
      case SendCompletes(result) => [SendDone(s.io.socket.value.sends[0], result)]
      case ConnectCompletes(ok) => [ConnectDone(ok)]
      case ReceiveCompletes(datagram) => [ReceiveDone(datagram)]
      case InvokerFires => Repeat(Wake, s.io.invoker.waits)
      case DeadlineFires => Repeat(DeadlineWake, s.io.deadline.waits)
      case _ => [];
    OnTheWayConcat(s.io.queue, b);
    assert s.io.queue + [] == s.io.queue;
    if !ev.Posted? { OnTheWayNone(b); }
  }

  lemma {:induction false} RunConserves(s: State, evs: seq<Event>)
    requires Intact(s) && Allowed(s, evs)
    ensures var s' := Reached(s, evs);
            Drafts(s'.store.log) + OnTheWay(s'.io.queue)
              == Drafts(s.store.log) + OnTheWay(s.io.queue) + Submitted(evs)
    decreases |evs|
  {
    hide Intact, OneSender, Apply, OnTheWay, Drafts, Guarded;
    if evs != [] {
      IntactHasOneSender(s);
      StepConserves(s, evs[0]);
      StepKeepsIntact(s, evs[0]);
      RunConserves(Apply(s, evs[0]), evs[1..]);
      assert [evs[0]][1..] == [];
    } else {
      assert Submitted(evs) == [];
    }
  }

  /** Everything submitted is, in submission order: processed, then in the deque, then still
      queued on its way to it. Nothing is lost, duplicated or reordered. */
  lemma NothingLost(mode: Mode, bufferSize: nat, evs: seq<Event>)
    requires Allowed(Init(mode, bufferSize), evs)
    ensures var s := Reached(Init(mode, bufferSize), evs);
            && s.store.processed + s.store.deque == seq(|s.store.log|, i => i)
            && Drafts(s.store.log) + OnTheWay(s.io.queue) == Submitted(evs)
  {
    InitIntact(mode, bufferSize);
    RunStaysIntact(Init(mode, bufferSize), evs);
    RunConserves(Init(mode, bufferSize), evs);
    NothingAtFirst(mode, bufferSize, Submitted(evs));
    hide OnTheWay, Drafts, Submitted, Reached, Allowed, Inv, Fenced, SoundSends, Told, Finished, Waiting;
    InOrder(Reached(Init(mode, bufferSize), evs));
  }

  lemma NothingAtFirst(mode: Mode, bufferSize: nat, all: seq<Draft>)
    ensures var s := Init(mode, bufferSize); Drafts(s.store.log) + OnTheWay(s.io.queue) + all == all
  {
    OnTheWayNone(FreshIo(mode).queue);
  }

  lemma InOrder(s: State)
    requires Delivered(s)
    ensures s.store.processed + s.store.deque == seq(|s.store.log|, i => i)
  {
    hide SoundSends, Told, Finished, Waiting;
  }

  /** The callbacks scheduled are those of the processed entries that asked for one, once each
      and in push order. */
  lemma CallbacksOnce(s: State)
    requires Attainable(s)
    ensures |s.store.processed| <= |s.store.log|
    ensures Callbacks(s.reports) == WantCallback(s.store.log, |s.store.processed|)
  {
    AttainableDelivers(s);
    hide SoundSends, Entries;
  }

  /** The bytes of an entry reported as transferred, over all attempts and reconnects, are, offset
      by offset, a prefix of the type byte and the payload; they are all of it exactly when the entry left
      the deque without being given up. */
  lemma BytesExact(s: State, i: nat)
    requires Attainable(s) && i < |s.store.log|
    ensures var e := s.store.log[i];
            && |e.sent| <= |e.buffer| && e.sent == e.buffer[..|e.sent|] && e.reached == Span(0, |e.sent|)
            && (e.sent == e.buffer <==> i < |s.store.processed| && e.dropped.None?)
            && (i >= |s.store.processed| ==> |e.sent| == e.transferred && RestBytes(e) > 0)
  {
    AttainableDelivers(s);
    hide SoundSends, Told;
    assert if i < |s.store.processed| then Finished(s.mode, s.store.log[i]) else Waiting(s.store.log[i]);
  }

  /** An entry in the deque has had at most 100 errors for lack of buffer space, at most 10 if
      nothing of it was sent; one given up for that reason had the 11th with nothing sent or
      the 101st otherwise. No entry of buffer size `n` has more than `n + 100` completions. */
  lemma RetriesBounded(s: State, i: nat)
    requires Attainable(s) && i < |s.store.log|
    ensures var e := s.store.log[i];
            && (i >= |s.store.processed| ==>
                  e.dropped.None? && e.errors <= if e.sent == [] then 10 else 100)
            && (e.dropped == Some(NoBufferSpace) ==> e.errors == if e.sent == [] then 11 else 101)
            && (e.dropped in {Some(ConnectionError), Some(OperationAborted)} ==> s.mode == Server)
            && e.attempts <= |e.buffer| + 100
  {
    AttainableDelivers(s);
    hide SoundSends, Told;
    assert if i < |s.store.processed| then Finished(s.mode, s.store.log[i]) else Waiting(s.store.log[i]);
  }

  /** Every entry given up for lack of buffer space or for its size was signalled once, with
      that error, in the order of the entries; nothing else was signalled as such. */
  lemma GiveUpsSignalled(s: State)
    requires Attainable(s)
    ensures |s.store.processed| <= |s.store.log|
    ensures GiveUps(s.reports) == GivenUp(s.store.log, |s.store.processed|)
  {
    AttainableDelivers(s);
    hide SoundSends, Entries;
  }
}
