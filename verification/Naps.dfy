/** How long the sender sleeps: at most the retry delay, or until it is woken. */
module Naps {
  import opened Wire
  import opened IoContext
  import opened Engine

  /** The sender's timer is never set more than the retry delay ahead, unless without a limit. */
  predicate Rested(io: Io, now: nat) {
    io.invoker.expiry.At? ==> io.invoker.expiry.time <= now + RETRY_DELAY
  }

  lemma AwaitRests(io: Io, now: nat, delay: Option<nat>, next: Option<Flight>)
    requires Rested(io, now) && (delay.Some? ==> delay.value <= RETRY_DELAY)
    ensures Rested(io.Await(now, delay, next), now)
    ensures delay.None? ==> forall watched :: Rested(io.StartActors(now, watched, next), now)
  {
  }

  lemma SendDoneRests(s: State, f: Flight, result: SendResult)
    requires Rested(s.io, s.now) && f.id < |s.store.log| && DequeKnown(s.store)
    ensures Rested(HandleSend(s, f, result).io, s.now) && HandleSend(s, f, result).now == s.now
  {
    var a := Account(s, f, result);
    var p := PopIfComplete(a, f.id);
    assert Rested(p.io, s.now);
    hide AfterSend, Signalled, Io.Await, PopReports;
    AwaitRests(p.io, s.now, if result == Failed(NoBufferSpace) then Some(RETRY_DELAY) else None, Next(p));
  }

  lemma StartRests(s: State)
    requires Rested(s.io, s.now) && DequeKnown(s.store)
    ensures Rested(StartSession(s).io, s.now) && StartSession(s).now == s.now
  {
    var s1 := TurnReady(s);
    AwaitRests(s1.io, s1.now, None, Next(s1));
    hide Io.StartActors;
  }

  lemma StartersRest(s: State, ok: bool, opening: Opening)
    requires Rested(s.io, s.now) && DequeKnown(s.store)
    ensures Rested(HandleConnectDone(s, ok).io, s.now) && Rested(HandleBind(s, opening).io, s.now)
    ensures HandleConnectDone(s, ok).now == HandleBind(s, opening).now == s.now
  {
    hide StartSession, AbortedOperations;
    StartRests(s);
    StartRests(s.(io := s.io.Replaced(0), bound := true));
  }

  lemma PushRests(s: State, e: Entry)
    requires Rested(s.io, s.now)
    ensures Rested(HandlePush(s, e).io, s.now) && HandlePush(s, e).now == s.now
  {
  }

  lemma OthersRest(s: State, opening: Opening, datagram: Option<Datagram>)
    requires Rested(s.io, s.now)
    ensures Rested(HandleReceive(s, datagram).io, s.now) && HandleReceive(s, datagram).now == s.now
    ensures Rested(HandleClose(s).io, s.now) && HandleClose(s).now == s.now
    ensures Rested(HandleConnect(s, opening).io, s.now) && HandleConnect(s, opening).now == s.now
    ensures Rested(CheckSendDeadline(s).io, s.now) && CheckSendDeadline(s).now == s.now
  {
    hide AbortedOperations, ReportsOf;
  }

  lemma RunRests(s: State, opening: Opening)
    requires Known(s) && s.io.queue != [] && Rested(s.io, s.now)
    ensures var s' := Apply(s, Run(opening)); s'.now == s.now && Rested(s'.io, s'.now)
  {
    var t, s0 := s.io.queue[0], TakeFront(s);
    hide HandlePush, HandleClose, HandleConnect, HandleBind, HandleSend, HandleConnectDone, CheckSendDeadline,
      HandleReceive, Io.Await, FreshEntry;
    match t {
      case SendDone(flight, result) => SendDoneRests(s0, flight, result);
      case Wake => AwaitRests(s0.io, s0.now, None, Next(s0));
      case Bind => StartersRest(s0, false, opening);
      case ConnectDone(ok) => StartersRest(s0, ok, opening);
      case Push(kind, body, to, callback) => PushRests(s0, FreshEntry(kind, body, to, callback));
      case ReceiveDone(datagram) => OthersRest(s0, opening, datagram);
      case _ => OthersRest(s0, opening, None);
    }
  }

  lemma StepRests(s: State, ev: Event)
    requires Known(s) && Enabled(s, ev) && Rested(s.io, s.now)
    ensures Rested(Apply(s, ev).io, Apply(s, ev).now)
  {
    hide RunTask;
    if ev.Run? { RunRests(s, ev.opening); }
  }
}
