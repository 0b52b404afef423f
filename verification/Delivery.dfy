/** What happens to entries: order, bytes, retries, callbacks and error signals. */
module Delivery {
  import opened Wire
  import opened IoContext
  import opened Engine
  import opened Actors

  // ---- One entry ----

  /** An entry in the deque: something is left to send, what was sent is a prefix of the
      buffer, offset by offset, and the retry count has not run out. */
  predicate Waiting(e: Entry) {
    && e.dropped.None?
    && e.transferred < |e.buffer|
    && e.sent == e.buffer[..e.transferred] && e.reached == Span(0, e.transferred)
    && e.errors <= GIVE_UP
    && (e.transferred == 0 ==> e.errors <= GIVE_UP_UNSENT)
    && e.attempts + RestBytes(e) + (GIVE_UP - e.errors) <= |e.buffer| + GIVE_UP
  }

  /** An entry that left the deque: sent in full, or given up with a proper prefix sent. An
      entry given up for lack of buffer space had its 11th such error with nothing sent, or
      its 101st after something was sent. */
  predicate Finished(mode: Mode, e: Entry) {
    && TransferComplete(e) && e.reached == Span(0, |e.sent|)
    && e.attempts <= |e.buffer| + GIVE_UP
    && match e.dropped
       case None => e.sent == e.buffer
       case Some(error) =>
         && |e.sent| < |e.buffer| && e.sent == e.buffer[..|e.sent|]
         && (error == NoBufferSpace ==> e.errors == if e.sent == [] then GIVE_UP_UNSENT + 1 else GIVE_UP + 1)
         && (error in {ConnectionError, OperationAborted} ==> mode == Server)
  }

  predicate Loud(dropped: Option<Error>) {
    dropped == Some(NoBufferSpace) || dropped == Some(MessageSize)
  }

  lemma FreshWaits(kind: MessageType, body: seq<byte>, to: Option<Path>, callback: bool)
    ensures Waiting(FreshEntry(kind, body, to, callback))
  {
    assert Span(0, 0) == {};
  }

  lemma SpanGrows(a: nat, n: nat)
    ensures Span(0, a) + Span(a, n) == Span(0, a + n)
  {
  }

  lemma BytesAdvance(e: Entry, n: nat)
    requires Waiting(e) && n <= |MakeBuffer(e)|
    ensures e.sent + Taken(MakeBuffer(e), n) == e.buffer[..e.transferred + n]
    ensures e.reached + Offsets(|e.buffer|, MakeBuffer(e), n) == Span(0, e.transferred + n)
  {
    SpanGrows(e.transferred, n);
    assert e.buffer[..e.transferred] + MakeBuffer(e)[..n] == e.buffer[..e.transferred + n];
  }

  /** The fate of a waiting entry after one completion of the slice it offered: it waits on,
      or it is finished; a lost connection leaves it as it was; and an error is signalled
      exactly when the entry is given up for lack of buffer space or for its size, or when a
      client lost its connection. */
  lemma CompletionFate(mode: Mode, e: Entry, result: SendResult)
    requires Waiting(e)
    requires result.Sent? ==> 1 <= result.n <= |MakeBuffer(e)|
    ensures var e' := AfterSend(mode, e, MakeBuffer(e), result);
            && (if TransferComplete(e') then Finished(mode, e') else Waiting(e'))
            && (ClosesSession(mode, result) ==> e' == e)
            && e'.errors == e.errors + (if result == Failed(NoBufferSpace) then 1 else 0)
            && (result.Failed? && (result.error == MessageSize || (mode == Server && result.error != NoBufferSpace)) ==>
                  e'.dropped == Some(result.error))
            && (e'.dropped.Some? ==> result == Failed(e'.dropped.value))
            && (Loud(e'.dropped) ==> TransferComplete(e'))
            && (Signalled(mode, e, result) <==> Loud(e'.dropped) || ClosesSession(mode, result))
  {
    if result.Sent? { BytesAdvance(e, result.n); }
    hide Span, Offsets, Taken;
  }

  // ---- The store ----

  /** Popped entries and the deque partition the log in push order. */
  predicate Fifo(b: Store) {
    && |b.processed| + |b.deque| == |b.log|
    && (forall i :: 0 <= i < |b.processed| ==> b.processed[i] == i)
    && (forall i :: 0 <= i < |b.deque| ==> b.deque[i] == |b.processed| + i)
  }

  predicate Entries(mode: Mode, b: Store) {
    && Fifo(b)
    && (forall i :: 0 <= i < |b.processed| ==> Finished(mode, b.log[i]))
    && (forall i :: |b.processed| <= i < |b.log| ==> Waiting(b.log[i]))
  }

  // ---- Sends in play ----

  /** Sends that the sender has not handled yet, pending or with their completion queued. */
  function InPlay(io: Io): seq<Flight> {
    Landed(io.queue) + (if io.socket.Some? then io.socket.value.sends else [])
  }

  /** A send of the entry at the front, of exactly the bytes it still owes, to its destination. */
  predicate FrontSend(b: Store, f: Flight) {
    && b.deque != [] && f.id == b.deque[0] && f.id < |b.log|
    && f.slice == MakeBuffer(b.log[f.id]) && f.to == b.log[f.id].to
  }

  predicate ResultsFit(q: seq<Task>) {
    forall i :: 0 <= i < |q| && q[i].SendDone? && q[i].result.Sent? ==> 1 <= q[i].result.n <= |q[i].flight.slice|
  }

  predicate SoundSends(b: Store, io: Io) {
    && (forall f <- InPlay(io) :: FrontSend(b, f))
    && ResultsFit(io.queue)
  }

  // ---- Reports ----

  /** The entries whose callbacks were scheduled, in order. */
  function Callbacks(reports: seq<Report>): seq<nat> {
    if reports == [] then []
    else Callbacks(reports[..|reports| - 1]) +
         (var r := reports[|reports| - 1]; if r.Processed? then [r.id] else [])
  }

  /** The errors that were signalled because an entry was given up, in order. */
  function GiveUps(reports: seq<Report>): seq<(Error, nat)> {
    if reports == [] then []
    else GiveUps(reports[..|reports| - 1]) +
         (var r := reports[|reports| - 1];
          if r.ErrorOccurred? && Loud(Some(r.error)) then [(r.error, r.id)] else [])
  }

  /** Those of the first `n` entries that asked for a callback. */
  function WantCallback(log: seq<Entry>, n: nat): seq<nat>
    requires n <= |log|
  {
    if n == 0 then [] else WantCallback(log, n - 1) + (if log[n - 1].callback then [n - 1] else [])
  }

  /** Those of the first `n` entries that were dropped for lack of buffer space or for their size. */
  function GivenUp(log: seq<Entry>, n: nat): seq<(Error, nat)>
    requires n <= |log|
  {
    if n == 0 then []
    else GivenUp(log, n - 1) + (if Loud(log[n - 1].dropped) then [(log[n - 1].dropped.value, n - 1)] else [])
  }

  predicate Told(b: Store, reports: seq<Report>) {
    && |b.processed| <= |b.log|
    && Callbacks(reports) == WantCallback(b.log, |b.processed|)
    && GiveUps(reports) == GivenUp(b.log, |b.processed|)
  }

  lemma TellOne(reports: seq<Report>, r: Report)
    ensures Callbacks(reports + [r]) == Callbacks(reports) + (if r.Processed? then [r.id] else [])
    ensures GiveUps(reports + [r]) == GiveUps(reports) +
              (if r.ErrorOccurred? && Loud(Some(r.error)) then [(r.error, r.id)] else [])
  {
    assert (reports + [r])[..|reports|] == reports;
  }

  lemma TellQuietly(reports: seq<Report>, rs: seq<Report>)
    requires |rs| <= 1 && forall r <- rs :: !r.Processed? && !(r.ErrorOccurred? && Loud(Some(r.error)))
    ensures Callbacks(reports + rs) == Callbacks(reports) && GiveUps(reports + rs) == GiveUps(reports)
  {
    if rs == [] {
      assert reports + rs == reports;
    } else {
      assert rs == [rs[0]];
      TellOne(reports, rs[0]);
    }
  }

  lemma {:induction false} LogsAgree(a: seq<Entry>, b: seq<Entry>, n: nat)
    requires n <= |a| && n <= |b| && forall i :: 0 <= i < n ==> a[i] == b[i]
    ensures WantCallback(a, n) == WantCallback(b, n) && GivenUp(a, n) == GivenUp(b, n)
  {
    if n > 0 {
      LogsAgree(a, b, n - 1);
    }
  }

  // ---- The invariant ----

  predicate Delivered(s: State) {
    && Entries(s.mode, s.store) && Told(s.store, s.reports) && SoundSends(s.store, s.io)
  }

  lemma DeliveredKnows(s: State)
    requires Delivered(s)
    ensures Known(s)
  {
    forall i | 0 <= i < |s.io.queue| && s.io.queue[i].SendDone? ensures s.io.queue[i].flight.id < |s.store.log| {
      LandedMember(s.io.queue, i);
      assert s.io.queue[i].flight in InPlay(s.io);
    }
  }

  // ---- Moves of the io thread ----

  /** No send enters play, and no completion with an unfit result is queued. */
  predicate NoNewSends(io: Io, io': Io) {
    && (forall f <- InPlay(io') :: f in InPlay(io))
    && (ResultsFit(io.queue) ==> ResultsFit(io'.queue))
  }

  /** Exactly the same sends stay in play. */
  predicate SameSends(io: Io, io': Io) {
    && InPlay(io') == InPlay(io)
    && (ResultsFit(io.queue) ==> ResultsFit(io'.queue))
  }

  lemma QueueGrows(q: seq<Task>, b: seq<Task>)
    requires forall i :: 0 <= i < |b| ==> !b[i].SendDone?
    ensures Landed(q + b) == Landed(q)
    ensures ResultsFit(q) ==> ResultsFit(q + b)
  {
    LandedConcat(q, b);
    LandedNone(b);
  }

  lemma PostMoves(io: Io, t: Task)
    requires !t.SendDone?
    ensures SameSends(io, io.Post(t))
  {
    QueueGrows(io.queue, [t]);
  }

  lemma SetInvokerMoves(io: Io, e: Expiry)
    ensures SameSends(io, io.SetInvoker(e))
  {
    QueueGrows(io.queue, Repeat(Wake, io.invoker.waits));
  }

  lemma SetDeadlineMoves(io: Io, e: Expiry)
    ensures SameSends(io, io.SetDeadline(e))
  {
    QueueGrows(io.queue, Repeat(DeadlineWake, io.deadline.waits));
  }

  /** Sleeping starts no send; otherwise the next entry's send, if any, enters play. */
  lemma AwaitMoves(io: Io, now: nat, delay: Option<nat>, next: Option<Flight>)
    ensures var io' := io.Await(now, delay, next);
            && (ResultsFit(io.queue) ==> ResultsFit(io'.queue))
            && InPlay(io') == InPlay(io) +
                 (if io.Running() && delay.None? && next.Some? then [next.value] else [])
  {
    SetDeadlineMoves(io, At(now + SEND_DEADLINE));
    SetInvokerMoves(io, Infinite);
    if delay.Some? {
      SetInvokerMoves(io, At(now + delay.value));
    }
    if io.Running() && delay.None? && next.Some? {
      var io1 := io.SetDeadline(At(now + SEND_DEADLINE));
      assert InPlay(io1.StartSend(next.value)) == InPlay(io1) + [next.value];
    }
  }

  lemma CheckMoves(io: Io, now: nat)
    ensures SameSends(io, io.Check(now))
  {
    PostMoves(io, Close);
  }

  lemma ReceiveMoves(io: Io)
    ensures SameSends(io, io.Receive())
  {
  }

  lemma StartActorsMoves(io: Io, now: nat, watched: bool, next: Option<Flight>)
    ensures var io' := io.StartActors(now, watched, next);
            && (ResultsFit(io.queue) ==> ResultsFit(io'.queue))
            && InPlay(io') == InPlay(io) + (if io.Running() && next.Some? then [next.value] else [])
  {
    AwaitMoves(io, now, None, next);
    var io1 := io.Await(now, None, next);
    SetDeadlineMoves(io1, Infinite);
    var io2 := io1.SetDeadline(Infinite);
    CheckMoves(io2, now);
    ReceiveMoves(if watched then io2.Check(now) else io2);
    hide InPlay, ResultsFit, Io.Await, Io.Check, Io.Receive, Io.SetDeadline;
  }

  lemma LeftoversLand(io: Io)
    requires io.socket.Some?
    ensures Landed(io.queue + io.Leftovers()) == Landed(io.queue) + io.socket.value.sends
    ensures ResultsFit(io.queue) ==> ResultsFit(io.queue + io.Leftovers())
  {
    var k := io.socket.value;
    var a := Repeat(ReceiveDone(None), k.receiving) + Repeat(ConnectDone(false), k.connecting);
    var b := Aborted(k.sends);
    var c := Repeat(Wake, io.invoker.waits) + Repeat(DeadlineWake, io.deadline.waits);
    assert io.Leftovers() == a + b + c;
    LandedConcat(io.queue, io.Leftovers());
    LandedConcat(a + b, c);
    LandedConcat(a, b);
    LandedNone(a);
    LandedAborted(k.sends);
    LandedNone(c);
    forall t <- io.Leftovers() ensures t.SendDone? ==> t.result.Failed? { }
    hide Io.Leftovers;
  }

  lemma ClosedMoves(io: Io)
    requires io.socket.Some?
    ensures SameSends(io, io.Closed())
  {
    LeftoversLand(io);
    hide Io.Leftovers;
  }

  lemma ReplacedMoves(io: Io, connecting: nat)
    requires io.socket.None?
    ensures SameSends(io, io.Replaced(connecting))
  {
    assert io.queue + AbortedOperations(io.socket) == io.queue;
  }

  lemma RestMoves(io: Io)
    requires io.queue != []
    ensures NoNewSends(io, Rest(io))
  {
  }

  lemma CompletedMoves(s: State, ev: Event)
    requires IsCompletion(ev) && Enabled(s, ev)
    ensures SameSends(s.io, Completed(s, ev))
  {
    match ev {
      case SendCompletes(result) =>
        var flights := s.io.socket.value.sends;
        LandedConcat(s.io.queue, [SendDone(flights[0], result)]);
        assert Landed([SendDone(flights[0], result)]) == [flights[0]];
        assert flights == [flights[0]] + flights[1..];
      case ConnectCompletes(ok) => QueueGrows(s.io.queue, [ConnectDone(ok)]);
      case ReceiveCompletes(datagram) => QueueGrows(s.io.queue, [ReceiveDone(datagram)]);
    }
  }

  // ---- Handlers that do not touch entries ----

  lemma QuietlyDelivers(s: State, s': State)
    requires Delivered(s)
    requires s'.mode == s.mode && s'.store == s.store && (SameSends(s.io, s'.io) || NoNewSends(s.io, s'.io))
    requires Callbacks(s'.reports) == Callbacks(s.reports) && GiveUps(s'.reports) == GiveUps(s.reports)
    ensures Delivered(s')
  {
  }

  lemma NextIsFront(s: State)
    requires DequeKnown(s.store)
    ensures Next(s).Some? ==> FrontSend(s.store, Next(s).value)
    ensures Next(s).None? <==> s.store.deque == []
  {
  }

  lemma AwaitDelivers(s: State, delay: Option<nat>)
    requires Delivered(s)
    ensures DequeKnown(s.store) && Delivered(AwaitSendEntry(s, delay))
  {
    AwaitMoves(s.io, s.now, delay, Next(s));
    NextIsFront(s);
    hide Io.Await;
  }

  lemma StartSessionDelivers(s: State)
    requires Delivered(s)
    ensures DequeKnown(s.store) && Delivered(StartSession(s))
  {
    var s1 := TurnReady(s);
    TellQuietly(s.reports, [Opened(s.io.socket.Some?)]);
    StartActorsMoves(s1.io, s1.now, s1.mode == Client, Next(s1));
    NextIsFront(s1);
    hide Io.StartActors;
  }

  lemma CloseDelivers(s: State)
    requires Delivered(s)
    ensures Delivered(HandleClose(s))
  {
    if s.io.socket.Some? {
      ClosedMoves(s.io);
      TellQuietly(s.reports, [Closed]);
      hide Io.Closed, Delivered;
      QuietlyDelivers(s, HandleClose(s));
    }
  }

  lemma OpeningFails(s: State)
    requires Delivered(s)
    ensures Delivered(s.(reports := s.reports + [OpenFailed]))
  {
    TellQuietly(s.reports, [OpenFailed]);
  }

  lemma ReplacedDelivers(s: State, connecting: nat, bound: bool)
    requires Delivered(s) && s.io.socket.None?
    ensures Delivered(s.(io := s.io.Replaced(connecting), bound := bound))
  {
    ReplacedMoves(s.io, connecting);
    hide Io.Replaced;
  }

  lemma ConnectDelivers(s: State, opening: Opening)
    requires Delivered(s)
    ensures Delivered(HandleConnect(s, opening))
  {
    if s.io.socket.None? {
      if opening.Open? {
        ReplacedDelivers(s, 1, s.bound || opening.withPath);
      } else {
        ReplacedDelivers(s, 0, s.bound);
        OpeningFails(s.(io := s.io.Replaced(0), bound := s.bound));
      }
      hide Delivered, Io.Replaced;
    }
  }

  lemma BindDelivers(s: State, opening: Opening)
    requires Delivered(s) && s.io.socket.None?
    ensures DequeKnown(s.store) && Delivered(HandleBind(s, opening))
  {
    ReplacedDelivers(s, 0, true);
    ReplacedDelivers(s, 0, s.bound);
    hide Delivered, StartSession, Io.Replaced;
    if opening.Open? {
      StartSessionDelivers(s.(io := s.io.Replaced(0), bound := true));
    } else {
      OpeningFails(s.(io := s.io.Replaced(0), bound := s.bound));
    }
  }

  lemma ConnectDoneDelivers(s: State, ok: bool)
    requires Delivered(s)
    ensures DequeKnown(s.store) && Delivered(HandleConnectDone(s, ok))
  {
    StartSessionDelivers(s);
    OpeningFails(s);
    hide Delivered, StartSession;
  }

  lemma WaitersDeliver(s: State, datagram: Option<Datagram>)
    requires Delivered(s)
    ensures Delivered(CheckSendDeadline(s)) && Delivered(HandleReceive(s, datagram))
  {
    CheckMoves(s.io, s.now);
    ReceiveMoves(s.io);
    TellQuietly(s.reports, ReportsOf(s.generation, datagram));
    hide Io.Check, Io.Receive;
    QuietlyDelivers(s, HandleReceive(s, datagram));
  }

  /** The handlers that start, close or keep sessions leave the store alone. */
  lemma SessionsKeepStore(s: State, t: Task, opening: Opening)
    requires DequeKnown(s.store)
    ensures HandleClose(s).store == s.store && HandleConnect(s, opening).store == s.store
    ensures HandleBind(s, opening).store == s.store && AwaitSendEntry(s, None).store == s.store
    ensures t.ConnectDone? ==> HandleConnectDone(s, t.ok).store == s.store
    ensures CheckSendDeadline(s).store == s.store
    ensures t.ReceiveDone? ==> HandleReceive(s, t.datagram).store == s.store
  {
    hide Io.Await, Io.StartActors, Io.Closed, Io.Replaced, Io.Check, Io.Receive;
  }

  // ---- Handlers that touch entries ----

  lemma PushDelivers(s: State, e: Entry)
    requires Delivered(s) && Waiting(e)
    ensures Delivered(HandlePush(s, e))
  {
    SetInvokerMoves(s.io, At(s.now));
    LogsAgree(s.store.log, s.store.log + [e], |s.store.processed|);
  }

  lemma OnlyOneInPlay(s: State, f: Flight)
    requires Operations(s.io, Sender) <= 1 && Delivered(s)
    requires s.io.queue != [] && s.io.queue[0].SendDone? && s.io.queue[0].flight == f
    ensures InPlay(s.io) == [f] && InPlay(Rest(s.io)) == []
    ensures FrontSend(s.store, f) && f.id == |s.store.processed| && Waiting(s.store.log[f.id])
  {
    LandedCounted(s.io.queue[1..]);
    assert Landed(s.io.queue) == [f] + Landed(s.io.queue[1..]);
    assert InPlay(s.io)[0] == f;
  }

  /** `b` is `a` with a new value at the front entry. */
  predicate FrontChanged(a: Store, b: Store) {
    && a.deque != [] && a.deque[0] == |a.processed| < |a.log|
    && b == a.(log := b.log) && |b.log| == |a.log|
    && forall i :: 0 <= i < |a.log| && i != |a.processed| ==> b.log[i] == a.log[i]
  }

  lemma PopKeepsEntries(mode: Mode, a: Store, b: Store)
    requires Entries(mode, a) && FrontChanged(a, b)
    requires var e' := b.log[|a.processed|];
             if TransferComplete(e') then Finished(mode, e') else Waiting(e')
    ensures Entries(mode, if TransferComplete(b.log[|a.processed|]) then Pop(b) else b)
  {
    hide Finished, Waiting;
  }

  /** Popping schedules the callback of the entry at the front if it asked for one. */
  lemma PopCallsBack(b: Store, told: seq<Report>)
    requires b.deque != [] && b.deque[0] == |b.processed| < |b.log| && DequeKnown(b)
    requires Callbacks(told) == WantCallback(b.log, |b.processed|)
    ensures Callbacks(told + PopReports(b)) == WantCallback(b.log, |b.processed| + 1)
    ensures GiveUps(told + PopReports(b)) == GiveUps(told)
  {
    assert told + [] == told;
    TellOne(told, Processed(|b.processed|));
  }

  lemma PopTells(a: Store, b: Store, told: seq<Report>, error: seq<Report>)
    requires Told(a, told) && FrontChanged(a, b) && DequeKnown(b)
    requires var e' := b.log[|a.processed|];
             && (Loud(e'.dropped) ==> TransferComplete(e'))
             && (if Loud(e'.dropped) then error == [ErrorOccurred(e'.dropped.value, |a.processed|)] else error == [])
    ensures if TransferComplete(b.log[|a.processed|]) then Told(Pop(b), told + error + PopReports(b))
            else Told(b, told + error)
  {
    LogsAgree(a.log, b.log, |a.processed|);
    ErrorTells(b.log, |a.processed|, told, error);
    hide WantCallback, GivenUp, Callbacks, GiveUps, PopReports;
    PopCallsBack(b, told + error);
  }

  /** The error signalled, if any, is the one the entry at `n` was given up for. */
  lemma ErrorTells(log: seq<Entry>, n: nat, told: seq<Report>, error: seq<Report>)
    requires n < |log|
    requires error == if Loud(log[n].dropped) then [ErrorOccurred(log[n].dropped.value, n)] else []
    ensures Callbacks(told + error) == Callbacks(told)
    ensures GiveUps(told) == GivenUp(log, n) ==>
              GiveUps(told + error) == GivenUp(log, n + 1)
              && (!Loud(log[n].dropped) ==> GiveUps(told + error) == GivenUp(log, n))
  {
    assert told + [] == told;
    if error != [] { TellOne(told, error[0]); }
    hide Callbacks, GiveUps;
  }

  /** The entry accounted for is finished and popped, or waits on at the front. */
  lemma PopDelivers(s: State, f: Flight, result: SendResult)
    requires Entries(s.mode, s.store) && Told(s.store, s.reports) && ResultsFit(s.io.queue) && InPlay(s.io) == []
    requires FrontSend(s.store, f)
    requires result.Sent? ==> 1 <= result.n <= |f.slice|
    requires !ClosesSession(s.mode, result)
    ensures var a := Account(s, f, result);
            DequeKnown(a.store) && Delivered(PopIfComplete(a, f.id))
  {
    var a := Account(s, f, result);
    CompletionFate(s.mode, s.store.log[f.id], result);
    SetDeadlineMoves(s.io, Infinite);
    hide AfterSend, MakeBuffer, Finished, Waiting;
    PopKeepsEntries(s.mode, s.store, a.store);
    PopTells(s.store, a.store, s.reports,
             if Signalled(s.mode, s.store.log[f.id], result) then [ErrorOccurred(result.error, f.id)] else []);
  }

  lemma LostConnectionKeepsEntry(s: State, f: Flight, result: SendResult)
    requires f.id < |s.store.log| && DequeKnown(s.store) && ClosesSession(s.mode, result)
    ensures var s' := HandleSend(s, f, result);
            && s'.mode == s.mode && s'.store == s.store && s'.io == s.io.SetDeadline(Infinite).Post(Close)
            && s'.reports == s.reports + [ErrorOccurred(result.error, f.id)]
  {
    hide Io.SetDeadline, Io.Post;
  }

  lemma LostConnectionDelivers(s: State, f: Flight, result: SendResult)
    requires Delivered(s) && FrontSend(s.store, f) && ClosesSession(s.mode, result)
    ensures DequeKnown(s.store) && Delivered(HandleSend(s, f, result))
  {
    LostConnectionKeepsEntry(s, f, result);
    SetDeadlineMoves(s.io, Infinite);
    PostMoves(s.io.SetDeadline(Infinite), Close);
    TellQuietly(s.reports, [ErrorOccurred(result.error, f.id)]);
    hide Delivered, HandleSend, Io.SetDeadline, Io.Post, InPlay, ResultsFit, FrontSend;
    QuietlyDelivers(s, HandleSend(s, f, result));
  }

  /** The heart of the protocol: because one sender exists, the completion being handled is of
      the entry at the front, so popping the front removes the entry that completed. */
  lemma SendDoneDelivers(s: State, f: Flight, result: SendResult)
    requires Operations(s.io, Sender) <= 1 && Delivered(s)
    requires s.io.queue != [] && s.io.queue[0] == SendDone(f, result)
    ensures DequeKnown(s.store) && f.id < |s.store.log| && Delivered(HandleSend(TakeFront(s), f, result))
  {
    var s' := TakeFront(s);
    OnlyOneInPlay(s, f);
    RestMoves(s.io);
    QuietlyDelivers(s, s');
    if ClosesSession(s.mode, result) {
      LostConnectionDelivers(s', f, result);
    } else {
      PopDelivers(s', f, result);
      hide Delivered, Account, PopIfComplete, FrontSend;
      AwaitDelivers(PopIfComplete(Account(s', f, result), f.id),
                    if result == Failed(NoBufferSpace) then Some(RETRY_DELAY) else None);
    }
  }

  // ---- Every step ----

  lemma TakeFrontDelivers(s: State)
    requires Delivered(s) && s.io.queue != []
    ensures Delivered(TakeFront(s))
  {
    RestMoves(s.io);
    QuietlyDelivers(s, TakeFront(s));
  }

  /** What keeping the deliveries needs of the actors: one sender, and a server bound once. */
  predicate OneSender(s: State) {
    Operations(s.io, Sender) <= 1 && (s.io.queue != [] && s.io.queue[0] == Bind ==> s.io.socket.None?)
  }

  lemma RunDelivers(s: State, opening: Opening)
    requires Delivered(s) && OneSender(s) && s.io.queue != [] && Known(s)
    ensures Delivered(Apply(s, Run(opening)))
  {
    hide Delivered, Operations, HandlePush, HandleClose, HandleConnect, HandleBind, AwaitSendEntry, HandleSend, HandleConnectDone, CheckSendDeadline, HandleReceive;
    var t, s' := s.io.queue[0], TakeFront(s);
    TakeFrontDelivers(s);
    match t {
      case Push(kind, body, to, callback) =>
        FreshWaits(kind, body, to, callback);
        PushDelivers(s', FreshEntry(kind, body, to, callback));
      case Close => CloseDelivers(s');
      case Connect => ConnectDelivers(s', opening);
      case Bind => BindDelivers(s', opening);
      case Wake => AwaitDelivers(s', None);
      case SendDone(flight, result) => SendDoneDelivers(s, flight, result);
      case ConnectDone(ok) => ConnectDoneDelivers(s', ok);
      case DeadlineWake => WaitersDeliver(s', None);
      case ReceiveDone(datagram) => WaitersDeliver(s', datagram);
    }
  }

  lemma FreshDelivers(s: State, b: Store, mode: Mode)
    requires Entries(mode, b) && Told(b, s.reports) && s.mode == mode && s.store == b && s.io == FreshIo(mode)
    ensures Delivered(s)
  {
    LandedNone(s.io.queue);
  }

  lemma StepKeepsDelivery(s: State, ev: Event)
    requires Known(s) && Enabled(s, ev) && OneSender(s) && Delivered(s)
    ensures Delivered(Apply(s, ev))
  {
    match ev {
      case Run(opening) => RunDelivers(s, opening);
      case Restart => FreshDelivers(Apply(s, ev), s.store, Server);
      case _ =>
        StepMoves(s, ev);
        QuietlyDelivers(s, Apply(s, ev));
    }
  }

  lemma StepMoves(s: State, ev: Event)
    requires Known(s) && Enabled(s, ev) && !ev.Run? && !ev.Restart?
    ensures SameSends(s.io, Apply(s, ev).io)
  {
    match ev {
      case Posted(t) => PostMoves(s.io, t);
      case Retire => PostMoves(s.io, Close);
      case InvokerFires => SetInvokerMoves(s.io, s.io.invoker.expiry);
      case DeadlineFires => SetDeadlineMoves(s.io, s.io.deadline.expiry);
      case Tick(_) =>
      case _ => CompletedMoves(s, ev);
    }
  }
}
