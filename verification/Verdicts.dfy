/** What becomes of an entry, against the completions of its sends: how many errors it is
    allowed, which of them end it, and at which. */
module Verdicts {
  import opened Wire
  import opened IoContext
  import opened Engine
  import opened Actors
  import opened Delivery
  import opened Sessions
  import opened Fences
  import opened Guards
  import opened Drain

  // ---- The completions of one entry ----

  function ResultOf(s: State, ev: Event, i: nat): seq<SendResult> {
    if ev.Run? && s.io.queue != [] && s.io.queue[0].SendDone? && s.io.queue[0].flight.id == i
    then [s.io.queue[0].result] else []
  }

  /** The results of the sends of entry `i` that were handled, in order. */
  ghost function Results(s: State, evs: seq<Event>, i: nat): seq<SendResult>
    requires Allowed(s, evs)
    decreases |evs|
  {
    if evs == [] then [] else ResultOf(s, evs[0], i) + Results(Apply(s, evs[0]), evs[1..], i)
  }

  /** How many failed for lack of buffer space. */
  function Shortages(rs: seq<SendResult>): nat {
    if rs == [] then 0 else (if rs[0] == Failed(NoBufferSpace) then 1 else 0) + Shortages(rs[1..])
  }

  /** How many bytes they transferred. */
  function Bytes(rs: seq<SendResult>): nat {
    if rs == [] then 0 else (if rs[0].Sent? then rs[0].n else 0) + Bytes(rs[1..])
  }

  /** Does not end the entry by itself: bytes were transferred, the kernel was out of buffer
      space, or a client lost its connection. */
  predicate Lingers(mode: Mode, r: SendResult) {
    match r
    case Sent(_) => true
    case Failed(NoBufferSpace) => true
    case Failed(MessageSize) => false
    case Failed(_) => mode == Client
  }

  predicate AllLinger(mode: Mode, rs: seq<SendResult>) {
    forall r <- rs :: Lingers(mode, r)
  }

  /** The entry is what its completions make of it. While it waits, none of them ended it. When
      it is finished, the last one did: by transferring the rest, or by the error it was dropped
      for. */
  predicate Recorded(mode: Mode, e: Entry, finished: bool, rs: seq<SendResult>) {
    && e.errors == Shortages(rs) && |e.sent| == Bytes(rs)
    && if !finished then e.dropped.None? && AllLinger(mode, rs)
       else
         && rs != [] && AllLinger(mode, rs[..|rs| - 1])
         && rs[|rs| - 1].Failed? == e.dropped.Some? && (e.dropped.Some? ==> rs[|rs| - 1] == Failed(e.dropped.value))
  }

  lemma {:induction false} SumsConcat(a: seq<SendResult>, b: seq<SendResult>)
    ensures Shortages(a + b) == Shortages(a) + Shortages(b) && Bytes(a + b) == Bytes(a) + Bytes(b)
  {
    if a == [] {
      assert a + b == b;
    } else {
      assert (a + b)[1..] == a[1..] + b;
      SumsConcat(a[1..], b);
    }
  }

  /** One more completion of a waiting entry. */
  lemma OneMore(mode: Mode, e: Entry, rs: seq<SendResult>, result: SendResult)
    requires Waiting(e) && Recorded(mode, e, false, rs) && (result.Sent? ==> 1 <= result.n <= |MakeBuffer(e)|)
    ensures var e' := AfterSend(mode, e, MakeBuffer(e), result);
            Recorded(mode, e', TransferComplete(e'), rs + [result])
  {
    SumsConcat(rs, [result]);
    assert [result][1..] == [] && Shortages([]) == 0 && Bytes([]) == 0;
    assert (rs + [result])[..|rs|] == rs;
    hide Span, Offsets;
  }

  // ---- Every step ----

  predicate RecordedAt(mode: Mode, b: Store, i: nat, rs: seq<SendResult>) {
    if i < |b.log| then Recorded(mode, b.log[i], i < |b.processed|, rs) else rs == []
  }

  lemma SendDoneRecords(s: State, f: Flight, result: SendResult, i: nat, rs: seq<SendResult>)
    requires Intact(s) && Known(s) && s.io.queue != [] && s.io.queue[0] == SendDone(f, result)
    requires RecordedAt(s.mode, s.store, i, rs)
    ensures RecordedAt(s.mode, HandleSend(TakeFront(s), f, result).store, i, rs + if f.id == i then [result] else [])
  {
    IntactHasOneSender(s);
    OnlyOneInPlay(s, f);
    ResultFits(s);
    hide Intact, HandleSend, Waiting, Recorded, MakeBuffer, InPlay;
    CompletionRecords(TakeFront(s), f, result, i, rs);
  }

  lemma CompletionRecords(s: State, f: Flight, result: SendResult, i: nat, rs: seq<SendResult>)
    requires DequeKnown(s.store) && s.store.deque != [] && f.id == s.store.deque[0] == |s.store.processed| < |s.store.log|
    requires Waiting(s.store.log[f.id]) && f.slice == MakeBuffer(s.store.log[f.id])
    requires result.Sent? ==> 1 <= result.n <= |f.slice|
    requires RecordedAt(s.mode, s.store, i, rs)
    ensures RecordedAt(s.mode, HandleSend(s, f, result).store, i, rs + if f.id == i then [result] else [])
  {
    assert rs + [] == rs;
    if f.id == i { OneMore(s.mode, s.store.log[i], rs, result); }
    hide HandleSend, AfterSend, Waiting, Recorded, MakeBuffer;
    if ClosesSession(s.mode, result) {
      LostConnectionKeepsEntry(s, f, result);
      LostConnectionLeaves(s.mode, s.store.log[f.id], f.slice, result);
    } else {
      CompletionStore(s, f, result);
    }
  }

  lemma LostConnectionLeaves(mode: Mode, e: Entry, slice: seq<byte>, result: SendResult)
    requires ClosesSession(mode, result)
    ensures AfterSend(mode, e, slice, result) == e
    ensures Waiting(e) ==> !TransferComplete(e)
  {
  }

  lemma ResultFits(s: State)
    requires Intact(s) && s.io.queue != [] && s.io.queue[0].SendDone?
    ensures s.io.queue[0].result.Sent? ==> 1 <= s.io.queue[0].result.n <= |s.io.queue[0].flight.slice|
  {
    assert ResultsFit(s.io.queue);
  }

  lemma StepRecords(s: State, ev: Event, i: nat, rs: seq<SendResult>)
    requires Intact(s) && Enabled(s, ev) && Known(s) && RecordedAt(s.mode, s.store, i, rs)
    ensures RecordedAt(s.mode, Apply(s, ev).store, i, rs + ResultOf(s, ev, i))
  {
    if ev.Run? && s.io.queue[0].SendDone? {
      var f, result := s.io.queue[0].flight, s.io.queue[0].result;
      assert Apply(s, ev) == HandleSend(TakeFront(s), f, result);
      hide Intact, RecordedAt, HandleSend, Apply;
      SendDoneRecords(s, f, result, i, rs);
    } else {
      assert rs + [] == rs && ResultOf(s, ev, i) == [];
      ProcessedWithin(s);
      hide Intact, Apply, RecordedAt, ResultOf;
      OthersKeepRecord(s, ev, i, rs);
    }
  }

  lemma ProcessedWithin(s: State)
    requires Intact(s)
    ensures |s.store.processed| <= |s.store.log|
  {
    IntactDelivers(s);
    hide Intact;
  }

  lemma OthersKeepRecord(s: State, ev: Event, i: nat, rs: seq<SendResult>)
    requires Known(s) && Enabled(s, ev) && (ev.Run? ==> !s.io.queue[0].SendDone?)
    requires |s.store.processed| <= |s.store.log| && RecordedAt(s.mode, s.store, i, rs)
    ensures RecordedAt(s.mode, Apply(s, ev).store, i, rs)
  {
    OthersRecord(s, ev, i);
    hide Apply, Recorded;
  }

  lemma OthersRecord(s: State, ev: Event, i: nat)
    requires Known(s) && Enabled(s, ev) && (ev.Run? ==> !s.io.queue[0].SendDone?)
    requires |s.store.processed| <= |s.store.log|
    ensures i >= |s.store.log| ==> RecordedAt(s.mode, Apply(s, ev).store, i, [])
    ensures var s' := Apply(s, ev);
            s'.store.processed == s.store.processed && s.store.log <= s'.store.log
  {
    if ev.Run? && s.io.queue[0].Push? {
      var t := s.io.queue[0];
      hide Io.SetInvoker;
    } else {
      OthersLeaveStore(s, ev);
      hide RunTask;
    }
  }

  lemma ModeStays(s: State, ev: Event)
    requires Known(s) && Enabled(s, ev)
    ensures Apply(s, ev).mode == s.mode
  {
    if ev.Run? { RunCounts(s, ev.opening); }
    hide RunTask;
  }

  lemma {:induction false} RunRecords(s: State, evs: seq<Event>, i: nat, rs: seq<SendResult>)
    requires Intact(s) && Allowed(s, evs) && RecordedAt(s.mode, s.store, i, rs)
    ensures RecordedAt(s.mode, Reached(s, evs).store, i, rs + Results(s, evs, i))
    decreases |evs|
  {
    hide Intact, RecordedAt, Apply, Known, Enabled, Guarded, ResultOf;
    if evs == [] {
      assert rs + [] == rs;
    } else {
      var a := ResultOf(s, evs[0], i);
      StepRecords(s, evs[0], i, rs);
      ModeStays(s, evs[0]);
      StepKeepsIntact(s, evs[0]);
      RunRecords(Apply(s, evs[0]), evs[1..], i, rs + a);
      assert (rs + a) + Results(Apply(s, evs[0]), evs[1..], i) == rs + (a + Results(Apply(s, evs[0]), evs[1..], i));
    }
  }

  lemma {:induction false} RunKeepsMode(s: State, evs: seq<Event>)
    requires Allowed(s, evs)
    ensures Reached(s, evs).mode == s.mode
    decreases |evs|
  {
    hide Apply, Known, Enabled, Guarded;
    if evs != [] {
      ModeStays(s, evs[0]);
      RunKeepsMode(Apply(s, evs[0]), evs[1..]);
    }
  }

  /** In every guarded run an entry's errors are the completions of its sends that failed for
      lack of buffer space, its bytes those they transferred. While it waits there were at most
      10 such errors, or 100 once bytes were transferred, and no other error but a client's lost
      connection. It is finished by the completion that transfers the rest, or by an error: its
      size, any other error on a server, or the 11th or 101st for lack of buffer space. */
  lemma EntryHistory(mode: Mode, bufferSize: nat, evs: seq<Event>, i: nat)
    requires Allowed(Init(mode, bufferSize), evs) && i < |Reached(Init(mode, bufferSize), evs).store.log|
    ensures var b, rs := Reached(Init(mode, bufferSize), evs).store, Results(Init(mode, bufferSize), evs, i);
            var e := b.log[i];
            && e.errors == Shortages(rs) && |e.sent| == Bytes(rs)
            && if i >= |b.processed| then
                 AllLinger(mode, rs) && e.dropped.None? && Shortages(rs) <= (if Bytes(rs) == 0 then 10 else 100)
               else
                 && rs != [] && AllLinger(mode, rs[..|rs| - 1])
                 && match rs[|rs| - 1]
                    case Sent(_) => e.dropped.None? && Bytes(rs) == |e.buffer|
                    case Failed(error) =>
                      && e.dropped == Some(error) && Bytes(rs) < |e.buffer|
                      && (error == NoBufferSpace ==> Shortages(rs) == if Bytes(rs) == 0 then 11 else 101)
                      && (error == ConnectionError || error == OperationAborted ==> mode == Server)
  {
    var s0 := Init(mode, bufferSize);
    var s := Reached(s0, evs);
    InitIntact(mode, bufferSize);
    RunStaysIntact(s0, evs);
    RunRecords(s0, evs, i, []);
    assert [] + Results(s0, evs, i) == Results(s0, evs, i);
    RunKeepsMode(s0, evs);
    IntactDelivers(s);
    hide Intact, Allowed, Reached, Results;
    RecordedEnds(s, i, Results(s0, evs, i));
  }

  /** The record, with the thresholds in numbers. */
  lemma RecordedEnds(s: State, i: nat, rs: seq<SendResult>)
    requires Delivered(s) && i < |s.store.log| && RecordedAt(s.mode, s.store, i, rs)
    ensures var b, e := s.store, s.store.log[i];
            && e.errors == Shortages(rs) && |e.sent| == Bytes(rs)
            && if i >= |b.processed| then
                 AllLinger(s.mode, rs) && e.dropped.None? && Shortages(rs) <= (if Bytes(rs) == 0 then 10 else 100)
               else
                 && rs != [] && AllLinger(s.mode, rs[..|rs| - 1])
                 && match rs[|rs| - 1]
                    case Sent(_) => e.dropped.None? && Bytes(rs) == |e.buffer|
                    case Failed(error) =>
                      && e.dropped == Some(error) && Bytes(rs) < |e.buffer|
                      && (error == NoBufferSpace ==> Shortages(rs) == if Bytes(rs) == 0 then 11 else 101)
                      && (error == ConnectionError || error == OperationAborted ==> s.mode == Server)
  {
    assert if i < |s.store.processed| then Finished(s.mode, s.store.log[i]) else Waiting(s.store.log[i]);
    hide SoundSends, Told, Span, AllLinger, Shortages, Bytes;
  }

  /** An entry whose size is refused, or that a server cannot send for any error but lack of
      buffer space, is dropped by that very completion: it leaves the deque, its error count and
      every other entry stay as they are, its callback is scheduled, and only the size is
      signalled. */
  lemma DroppedAtOnce(s: State, opening: Opening)
    requires Attainable(s) && s.io.queue != [] && s.io.queue[0].SendDone? && s.io.queue[0].result.Failed?
    requires var error := s.io.queue[0].result.error;
             error == MessageSize || (s.mode == Server && (error == ConnectionError || error == OperationAborted))
    ensures Known(s)
    ensures var s', i, error := Apply(s, Run(opening)), s.io.queue[0].flight.id, s.io.queue[0].result.error;
            && s.store.deque != [] && i == s.store.deque[0] < |s.store.log| == |s'.store.log|
            && s'.store.processed == s.store.processed + [i] && s'.store.deque == s.store.deque[1..]
            && s'.store.log[i].dropped == Some(error) && s'.store.log[i].errors == s.store.log[i].errors
            && s'.store.log[i].sent == s.store.log[i].sent && s'.store.log[i].buffer == s.store.log[i].buffer
            && (forall j :: 0 <= j < |s.store.log| && j != i ==> s'.store.log[j] == s.store.log[j])
            && s'.reports == s.reports + (if error == MessageSize then [ErrorOccurred(error, i)] else [])
                                       + (if s.store.log[i].callback then [Processed(i)] else [])
  {
    var f, result := s.io.queue[0].flight, s.io.queue[0].result;
    FrontCompletes(s);
    assert Apply(s, Run(opening)) == HandleSend(TakeFront(s), f, result);
    hide Attainable, Apply, HandleSend, Waiting;
    DropsFront(TakeFront(s), f, result);
  }

  lemma FrontCompletes(s: State)
    requires Attainable(s) && s.io.queue != [] && s.io.queue[0].SendDone?
    ensures Known(s) && s.store.deque != [] && s.io.queue[0].flight.id == s.store.deque[0] < |s.store.log|
  {
    AttainableIsIntact(s);
    IntactHasOneSender(s);
    IntactDelivers(s);
    OnlyOneInPlay(s, s.io.queue[0].flight);
    hide Attainable, Intact, Delivered, InPlay;
  }

  lemma DropsEntry(mode: Mode, e: Entry, slice: seq<byte>, error: Error)
    requires error == MessageSize || (mode == Server && (error == ConnectionError || error == OperationAborted))
    ensures var e' := AfterSend(mode, e, slice, Failed(error));
            && TransferComplete(e') && e'.dropped == Some(error) && e'.errors == e.errors && e'.sent == e.sent
            && e'.buffer == e.buffer && e'.callback == e.callback
    ensures Signalled(mode, e, Failed(error)) <==> error == MessageSize
    ensures !ClosesSession(mode, Failed(error))
  {
  }

  lemma DropsFront(s: State, f: Flight, result: SendResult)
    requires DequeKnown(s.store) && s.store.deque != [] && f.id == s.store.deque[0] < |s.store.log| && result.Failed?
    requires var error := result.error;
             error == MessageSize || (s.mode == Server && (error == ConnectionError || error == OperationAborted))
    ensures var s', i, error := HandleSend(s, f, result), f.id, result.error;
            && |s'.store.log| == |s.store.log|
            && s'.store.processed == s.store.processed + [i] && s'.store.deque == s.store.deque[1..]
            && s'.store.log[i].dropped == Some(error) && s'.store.log[i].errors == s.store.log[i].errors
            && s'.store.log[i].sent == s.store.log[i].sent && s'.store.log[i].buffer == s.store.log[i].buffer
            && (forall j :: 0 <= j < |s.store.log| && j != i ==> s'.store.log[j] == s.store.log[j])
            && s'.reports == s.reports + (if error == MessageSize then [ErrorOccurred(error, i)] else [])
                                       + (if s.store.log[i].callback then [Processed(i)] else [])
  {
    DropsEntry(s.mode, s.store.log[f.id], f.slice, result.error);
    hide AfterSend, Signalled, ClosesSession, TransferComplete, Io.Await;
  }
}
