/** Every completion that does not close a client's session uses up some of the queue's work,
    so a queue drains within a bound that its entries determine. */
module Drain {
  import opened Wire
  import opened IoContext
  import opened Engine
  import opened Actors
  import opened Delivery
  import opened Sessions
  import opened Fences
  import opened Guards

  /** The work left in an entry: the bytes it owes and the errors it may still have. */
  function Left(e: Entry): nat {
    RestBytes(e) + (if e.errors <= GIVE_UP then GIVE_UP - e.errors else 0)
  }

  /** The work left in the entries from position `n` on. */
  function WorkFrom(log: seq<Entry>, n: nat): nat
    decreases |log| - n
  {
    if n >= |log| then 0 else Left(log[n]) + WorkFrom(log, n + 1)
  }

  function Work(s: State): nat {
    WorkFrom(s.store.log, |s.store.processed|)
  }

  /** The event handles a send completion and goes on with the session. */
  predicate Progresses(s: State, ev: Event) {
    ev.Run? && s.io.queue != [] && s.io.queue[0].SendDone? && !ClosesSession(s.mode, s.io.queue[0].result)
  }

  /** The work that the event adds to the deque. */
  function Added(s: State, ev: Event): nat {
    if ev.Run? && s.io.queue != [] && s.io.queue[0].Push?
    then |Layout(s.io.queue[0].kind, s.io.queue[0].body)| + GIVE_UP else 0
  }

  ghost function Progress(s: State, evs: seq<Event>): nat
    requires Allowed(s, evs)
    decreases |evs|
  {
    if evs == [] then 0
    else (if Progresses(s, evs[0]) then 1 else 0) + Progress(Apply(s, evs[0]), evs[1..])
  }

  ghost function TotalAdded(s: State, evs: seq<Event>): nat
    requires Allowed(s, evs)
    decreases |evs|
  {
    if evs == [] then 0 else Added(s, evs[0]) + TotalAdded(Apply(s, evs[0]), evs[1..])
  }

  lemma {:induction false} WorkAgrees(a: seq<Entry>, b: seq<Entry>, n: nat)
    requires |a| == |b| && forall i :: n <= i < |a| ==> a[i] == b[i]
    ensures WorkFrom(a, n) == WorkFrom(b, n)
    decreases |a| - n
  {
    if n < |a| { WorkAgrees(a, b, n + 1); }
  }

  lemma {:induction false} WorkAppends(log: seq<Entry>, e: Entry, n: nat)
    requires n <= |log|
    ensures WorkFrom(log + [e], n) == WorkFrom(log, n) + Left(e)
    decreases |log| - n
  {
    if n < |log| {
      WorkAppends(log, e, n + 1);
    } else {
      assert WorkFrom(log + [e], n + 1) == 0;
    }
  }

  /** No work is left exactly when the deque is empty. */
  lemma WorkMeansEntries(s: State)
    requires Delivered(s)
    ensures Work(s) == 0 <==> s.store.deque == []
  {
    if s.store.deque != [] {
      assert Waiting(s.store.log[|s.store.processed|]);
    }
  }

  /** A completion takes at least one unit of work from its entry, or finishes it. */
  lemma CompletionWorks(mode: Mode, e: Entry, result: SendResult)
    requires Waiting(e) && !ClosesSession(mode, result)
    requires result.Sent? ==> 1 <= result.n <= |MakeBuffer(e)|
    ensures var e' := AfterSend(mode, e, MakeBuffer(e), result);
            TransferComplete(e') || Left(e') + 1 <= Left(e)
    ensures Left(e) >= 1
  {
  }

  lemma SendDoneWorks(s: State, f: Flight, result: SendResult)
    requires Intact(s) && Known(s) && s.io.queue != [] && s.io.queue[0] == SendDone(f, result)
    requires !ClosesSession(s.mode, result)
    ensures f.id < |s.store.log| && Work(HandleSend(TakeFront(s), f, result)) + 1 <= Work(s)
  {
    IntactHasOneSender(s);
    OnlyOneInPlay(s, f);
    IntactDelivers(s);
    assert result.Sent? ==> 1 <= result.n <= |f.slice| by { hide InPlay; assert ResultsFit(s.io.queue); }
    hide Intact, HandleSend, Left, MakeBuffer, Waiting, WorkFrom, ClosesSession;
    FrontWorks(TakeFront(s), f, result);
  }

  lemma FrontWorks(s: State, f: Flight, result: SendResult)
    requires DequeKnown(s.store) && s.store.deque != [] && f.id == s.store.deque[0] == |s.store.processed| < |s.store.log|
    requires Waiting(s.store.log[f.id]) && f.slice == MakeBuffer(s.store.log[f.id]) && !ClosesSession(s.mode, result)
    requires result.Sent? ==> 1 <= result.n <= |f.slice|
    ensures Work(HandleSend(s, f, result)) + 1 <= Work(s)
  {
    var n := |s.store.processed|;
    var s' := HandleSend(s, f, result);
    CompletionWorks(s.mode, s.store.log[n], result);
    CompletionStore(s, f, result);
    hide HandleSend, AfterSend, Left, MakeBuffer;
    WorkAgrees(s.store.log, s'.store.log, n + 1);
  }

  lemma CompletionStore(s: State, f: Flight, result: SendResult)
    requires DequeKnown(s.store) && s.store.deque != [] && f.id == s.store.deque[0]
    requires !ClosesSession(s.mode, result)
    ensures var b, e' := HandleSend(s, f, result).store, AfterSend(s.mode, s.store.log[f.id], f.slice, result);
            && b.log == s.store.log[f.id := e']
            && |b.processed| == |s.store.processed| + (if TransferComplete(e') then 1 else 0)
  {
    hide AfterSend, Signalled, Io.Await, PopReports;
  }

  lemma StepWorks(s: State, ev: Event)
    requires Intact(s) && Known(s) && Enabled(s, ev)
    ensures Work(Apply(s, ev)) + (if Progresses(s, ev) then 1 else 0) <= Work(s) + Added(s, ev)
  {
    if Progresses(s, ev) {
      SendDoneWorks(s, s.io.queue[0].flight, s.io.queue[0].result);
    } else if ev.Run? && s.io.queue[0].SendDone? {
      LostConnectionWorks(s, s.io.queue[0].flight, s.io.queue[0].result);
    } else if ev.Run? && s.io.queue[0].Push? {
      var t := s.io.queue[0];
      WorkAppends(s.store.log, FreshEntry(t.kind, t.body, t.to, t.callback), |s.store.processed|);
      hide Intact, WorkFrom, Io.SetInvoker;
    } else {
      hide Intact, WorkFrom;
      OthersLeaveStore(s, ev);
    }
  }

  lemma OthersLeaveStore(s: State, ev: Event)
    requires Known(s) && Enabled(s, ev)
    requires ev.Run? ==> !s.io.queue[0].SendDone? && !s.io.queue[0].Push?
    ensures Apply(s, ev).store == s.store
  {
    hide HandleSend, HandlePush, Io.Await, Io.StartActors, Io.Closed, Io.Replaced;
  }

  lemma LostConnectionWorks(s: State, f: Flight, result: SendResult)
    requires Intact(s) && Known(s) && s.io.queue != [] && s.io.queue[0] == SendDone(f, result)
    requires ClosesSession(s.mode, result)
    ensures f.id < |s.store.log| && HandleSend(TakeFront(s), f, result).store == s.store
  {
    assert AfterSend(s.mode, s.store.log[f.id], f.slice, result) == s.store.log[f.id];
    hide Intact, Io.SetDeadline, Io.Post;
  }

  /** Over any run with guarded connects: the completions that keep a session, plus the work
      left at the end, never exceed the work at the start plus the work pushed meanwhile. */
  lemma {:induction false} WorkBoundsProgress(s: State, evs: seq<Event>)
    requires Intact(s) && Allowed(s, evs)
    ensures Progress(s, evs) + Work(Reached(s, evs)) <= Work(s) + TotalAdded(s, evs)
    decreases |evs|
  {
    hide Intact, Apply, Work, Progresses, Added, Guarded, Known, Enabled;
    if evs != [] {
      StepWorks(s, evs[0]);
      StepKeepsIntact(s, evs[0]);
      WorkBoundsProgress(Apply(s, evs[0]), evs[1..]);
    }
  }

  /** With nothing pushed, a queue is empty at the latest after as many such completions as
      its entries have bytes and tolerated errors left. */
  lemma QueueDrains(s: State, evs: seq<Event>)
    requires Intact(s) && Allowed(s, evs) && TotalAdded(s, evs) == 0
    ensures Progress(s, evs) <= Work(s)
    ensures Progress(s, evs) == Work(s) ==> Reached(s, evs).store.deque == []
  {
    WorkBoundsProgress(s, evs);
    RunStaysIntact(s, evs);
    hide Intact, Allowed, Reached, Progress;
    IntactDelivers(Reached(s, evs));
    WorkMeansEntries(Reached(s, evs));
  }

  /** On a server no completion is excluded: every one of them makes progress. */
  lemma ServerAlwaysProgresses(s: State, ev: Event)
    requires s.mode == Server && ev.Run? && s.io.queue != [] && s.io.queue[0].SendDone?
    ensures Progresses(s, ev)
  {
  }
}
