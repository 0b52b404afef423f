/** `send_entry`, `base_impl` and its two children as objects updated in place, each method
    proved to take the step of the state machine that its handler stands for. */
module BaseImpls {
  import opened Wire
  import opened IoContext
  import opened Engine
  import opened Actors
  import opened Runs
  import opened Fences
  import opened Guards

  class SendEntry {
    const buffer: seq<byte>
    const to: Option<Path>
    const callback: bool
    var bytesTransferred: nat
    var noBufferSpaceErrorCount: nat
    // History
    ghost var sent: seq<byte>
    ghost var reached: set<int>
    ghost var dropped: Option<Error>
    ghost var attempts: nat

    ghost function View(): Entry
      reads this
    {
      Entry(buffer, to, callback, bytesTransferred, noBufferSpaceErrorCount, sent, reached, dropped, attempts)
    }

    constructor Empty(t: MessageType, to: Option<Path>, callback: bool)
      ensures View() == FreshEntry(t, [], to, callback)
    {
      this.buffer := [TypeByte(t)];
      this.to, this.callback := to, callback;
      bytesTransferred, noBufferSpaceErrorCount := 0, 0;
      sent, reached, dropped, attempts := [], {}, None, 0;
      new;
      assert Layout(t, []) == buffer;
    }

    constructor FromVector(t: MessageType, v: seq<byte>, to: Option<Path>, callback: bool)
      ensures View() == FreshEntry(t, v, to, callback)
    {
      this.buffer := [TypeByte(t)] + v;
      this.to, this.callback := to, callback;
      bytesTransferred, noBufferSpaceErrorCount := 0, 0;
      sent, reached, dropped, attempts := [], {}, None, 0;
    }

    /** The raw-pointer overload: a null pointer or a zero length leaves only the type byte. */
    constructor FromPointer(t: MessageType, p: Option<seq<byte>>, to: Option<Path>, callback: bool)
      ensures View() == FreshEntry(t, if p.Some? then p.value else [], to, callback)
    {
      this.buffer := if p.Some? && |p.value| > 0 then [TypeByte(t)] + p.value else [TypeByte(t)];
      this.to, this.callback := to, callback;
      bytesTransferred, noBufferSpaceErrorCount := 0, 0;
      sent, reached, dropped, attempts := [], {}, None, 0;
      new;
      assert Layout(t, []) == [TypeByte(t)];
    }

    function TransferCompleted(): (r: bool)
      reads this
      ensures r == TransferComplete(View())
    {
      bytesTransferred >= |buffer|
    }

    function Rest(): (r: nat)
      reads this
      ensures r == RestBytes(View())
    {
      if bytesTransferred >= |buffer| then 0 else |buffer| - bytesTransferred
    }

    function Slice(): (r: seq<byte>)
      reads this
      ensures r == MakeBuffer(View())
      ensures |r| == Rest()
    {
      if bytesTransferred >= |buffer| then [] else buffer[bytesTransferred..]
    }

    method AddBytesTransferred(value: nat)
      modifies this`bytesTransferred
      ensures bytesTransferred == old(bytesTransferred) + value
    {
      bytesTransferred := bytesTransferred + value;
    }

    method SetNoBufferSpaceErrorCount(value: nat)
      modifies this`noBufferSpaceErrorCount
      ensures noBufferSpaceErrorCount == value
    {
      noBufferSpaceErrorCount := value;
    }

    /** Giving the entry up: what is left is counted as transferred, so that it is complete. */
    method GiveUp(error: Error)
      modifies this`bytesTransferred, this`dropped
      ensures View() == Drop(old(View()), error) && TransferCompleted()
    {
      AddBytesTransferred(Rest());
      dropped := Some(error);
    }

    /** One more error for lack of buffer space; too many of them give the entry up. */
    method CountNoBufferSpace() returns (gaveUp: bool)
      modifies this`bytesTransferred, this`noBufferSpaceErrorCount, this`dropped
      ensures gaveUp == old(OutOfPatience(View().(errors := View().errors + 1)))
      ensures View() == (var e := old(View().(errors := View().errors + 1));
                         if gaveUp then Drop(e, NoBufferSpace) else e)
    {
      gaveUp := false;
      SetNoBufferSpaceErrorCount(noBufferSpaceErrorCount + 1);
      if noBufferSpaceErrorCount > GIVE_UP_UNSENT {
        if bytesTransferred == 0 || noBufferSpaceErrorCount > GIVE_UP {
          GiveUp(NoBufferSpace);
          gaveUp := true;
        }
      }
    }

    /** What `handle_send` does to the entry, and whether the error is signalled. */
    method Complete(mode: Mode, ghost slice: seq<byte>, result: SendResult) returns (signalled: bool)
      modifies this
      ensures View() == AfterSend(mode, old(View()), slice, result)
      ensures noBufferSpaceErrorCount == old(noBufferSpaceErrorCount) + if result == Failed(NoBufferSpace) then 1 else 0
      ensures result.Failed? && (result.error == MessageSize || (mode == Server && result.error != NoBufferSpace)) ==>
                TransferCompleted() && dropped == Some(result.error)
      ensures signalled == Signalled(mode, old(View()), result) && (signalled ==> result.Failed?)
    {
      signalled := result.Failed?;
      match result {
        case Sent(n) =>
          AddBytesTransferred(n);
          sent := sent + Taken(slice, n);
          reached := reached + Offsets(|buffer|, slice, n);
        case Failed(NoBufferSpace) =>
          signalled := CountNoBufferSpace();
        case Failed(MessageSize) =>
          GiveUp(MessageSize);
        case Failed(error) =>
          // A server gives the entry up, a client keeps it and loses the connection.
          if mode == Client {
            return;
          }
          GiveUp(error);
          signalled := false;
      }
      attempts := attempts + 1;
    }
  }

  ghost function Views(entries: seq<SendEntry>): (log: seq<Entry>)
    reads entries
    ensures |log| == |entries| && forall i :: 0 <= i < |entries| ==> log[i] == entries[i].View()
  {
    if entries == [] then [] else [entries[0].View()] + Views(entries[1..])
  }

  /** The io thread's side of `base_impl`, `client_impl` and `server_impl`. `entries` is the
      table of the shared entries; the deque and the sends in play refer to it by position. */
  class BaseImpl {
    const mode: Mode
    const bufferSize: nat
    var now: nat
    var queue: seq<Task>
    var socket: Option<Socket>
    var socketReady: bool
    var sendInvoker: Timer
    var sendDeadline: Timer
    var entries: seq<SendEntry>
    var sendEntries: seq<nat>
    var outbox: seq<Report>
    var bound: bool
    var generation: nat
    var retired: bool
    // History
    ghost var processed: seq<nat>
    ghost var starts: nat
    ghost var closes: nat
    ghost var blind: bool

    ghost predicate Valid()
      reads this
    {
      && (forall i, j :: 0 <= i < j < |entries| ==> entries[i] != entries[j])
      && (forall i :: 0 <= i < |sendEntries| ==> sendEntries[i] < |entries|)
    }

    function IoView(): Io
      reads this
    {
      Io(queue, socket, socketReady, sendInvoker, sendDeadline)
    }

    /** The state of the machine when the entries are worth `log`. */
    ghost function Over(log: seq<Entry>): State
      reads this
    {
      State(mode, now, bufferSize, IoView(), Store(log, sendEntries, processed), outbox,
            bound, generation, starts, closes, blind, retired)
    }

    ghost function View(): State
      reads this, entries
    {
      Over(Views(entries))
    }

    constructor (mode: Mode, bufferSize: nat)
      ensures Valid() && View() == Init(mode, bufferSize)
    {
      this.mode, this.bufferSize := mode, bufferSize;
      now := 0;
      queue := if mode == Server then [Close, Bind] else [];
      socket, socketReady := None, false;
      sendInvoker, sendDeadline := UNUSED, UNUSED;
      entries, sendEntries, outbox := [], [], [];
      bound, generation, retired := false, 0, false;
      processed, starts, closes, blind := [], 0, 0, false;
    }

    // ---- Timers and the sockets' operations ----

    method ExpireInvoker(expiry: Expiry)
      modifies this`queue, this`sendInvoker
      ensures IoView() == old(IoView()).SetInvoker(expiry) && sendInvoker == Timer(expiry, 0)
    {
      queue := queue + Repeat(Wake, sendInvoker.waits);
      sendInvoker := Timer(expiry, 0);
    }

    method ExpireDeadline(expiry: Expiry)
      modifies this`queue, this`sendDeadline
      ensures IoView() == old(IoView()).SetDeadline(expiry)
    {
      queue := queue + Repeat(DeadlineWake, sendDeadline.waits);
      sendDeadline := Timer(expiry, 0);
    }

    method PostTask(t: Task)
      modifies this`queue
      ensures IoView() == old(IoView()).Post(t)
    {
      queue := queue + [t];
    }

    // ---- Sender ----

    /** The send that the front of the deque asks for. */
    function NextFlight(): (r: Option<Flight>)
      requires Valid()
      reads this, entries
      ensures r == Next(View())
    {
      if sendEntries == [] then None
      else
        var entry := entries[sendEntries[0]];
        Some(Flight(sendEntries[0], entry.Slice(), entry.to, now, generation))
    }

    method AwaitSendEntry(delay: Option<nat>)
      requires Valid()
      modifies this`queue, this`sendInvoker, this`sendDeadline, this`socket
      ensures IoView() == old(IoView()).Await(now, delay, old(NextFlight()))
      ensures socket.Some? && socketReady && delay.Some? ==> sendInvoker == Timer(At(now + delay.value), 1)
    {
      hide Io.SetInvoker, Io.SetDeadline, Next;
      if socket.None? || !socketReady {
        return;
      }
      if delay.Some? {
        Sleep(At(now + delay.value));
      } else if sendEntries == [] {
        Sleep(Infinite);
      } else {
        ExpireDeadline(At(now + SEND_DEADLINE));
        socket := Some(socket.value.(sends := socket.value.sends + [NextFlight().value]));
      }
    }

    method Sleep(expiry: Expiry)
      modifies this`queue, this`sendInvoker
      ensures IoView() == old(IoView()).SetInvoker(expiry).WaitInvoker() && sendInvoker == Timer(expiry, 1)
    {
      ExpireInvoker(expiry);
      sendInvoker := sendInvoker.(waits := sendInvoker.waits + 1);
    }

    method PopFrontSendEntry()
      requires Valid()
      modifies this`sendEntries, this`processed, this`outbox
      ensures Valid()
      ensures View().store == Pop(old(View()).store) && outbox == old(outbox) + PopReports(old(View()).store)
    {
      if sendEntries == [] {
        assert outbox + [] == outbox;
        return;
      }
      var entry := entries[sendEntries[0]];
      if entry.callback {
        outbox := outbox + [Processed(sendEntries[0])];
      }
      processed := processed + [sendEntries[0]];
      sendEntries := sendEntries[1..];
    }

    /** What the completion does to the captured entry; `stop` when the session is lost. */
    method AccountSend(f: Flight, result: SendResult) returns (nextDelay: Option<nat>, stop: bool)
      requires Valid() && f.id < |entries|
      modifies this`queue, this`sendDeadline, this`outbox, this`blind, entries[f.id]
      ensures Valid() && View() == Account(old(View()), f, result)
      ensures stop == ClosesSession(mode, result)
      ensures nextDelay == if result == Failed(NoBufferSpace) then Some(100) else None
    {
      hide AfterSend, Signalled, ClosesSession, Io.SetDeadline, SendEntry.View;
      nextDelay, stop := UpdateEntry(f, result);
      assert Views(entries) == old(Views(entries))[f.id := entries[f.id].View()];
    }

    method UpdateEntry(f: Flight, result: SendResult) returns (nextDelay: Option<nat>, stop: bool)
      requires Valid() && f.id < |entries|
      modifies this`queue, this`sendDeadline, this`outbox, this`blind, entries[f.id]
      ensures Valid()
      ensures entries[f.id].View() == AfterSend(mode, old(entries[f.id].View()), f.slice, result)
      ensures IoView() == old(IoView()).SetDeadline(Infinite) && !blind
      ensures outbox == old(outbox) +
                (if Signalled(mode, old(entries[f.id].View()), result) then [ErrorOccurred(result.error, f.id)] else [])
      ensures stop == ClosesSession(mode, result)
      ensures nextDelay == if result == Failed(NoBufferSpace) then Some(100) else None
    {
      hide AfterSend, Signalled, Io.SetDeadline, SendEntry.View;
      var signalled := entries[f.id].Complete(mode, f.slice, result);
      ExpireDeadline(Infinite);
      blind := false;
      if signalled {
        outbox := outbox + [ErrorOccurred(result.error, f.id)];
      }
      stop := mode == Client && result.Failed? && (result.error == ConnectionError || result.error == OperationAborted);
      nextDelay := if result == Failed(NoBufferSpace) then Some(RETRY_DELAY) else None;
      assert old(outbox) + [] == old(outbox);
    }

    /** The end of `handle_send`: an entry that is complete leaves the deque, and the sender
        goes on. */
    method GoOn(id: nat, nextDelay: Option<nat>)
      requires Valid() && id < |entries|
      modifies this`queue, this`sendInvoker, this`sendDeadline, this`socket, this`outbox
      modifies this`sendEntries, this`processed
      ensures Valid()
      ensures View() == Engine.AwaitSendEntry(PopIfComplete(old(View()), id), nextDelay)
    {
      hide PopIfComplete, Engine.AwaitSendEntry;
      PopIfDone(id);
      WakeUp(nextDelay);
    }

    method PopIfDone(id: nat)
      requires Valid() && id < |entries|
      modifies this`sendEntries, this`processed, this`outbox
      ensures Valid() && View() == PopIfComplete(old(View()), id)
    {
      hide TransferComplete, PopReports, Pop;
      if entries[id].TransferCompleted() {
        PopFrontSendEntry();
      }
    }

    /** What `await_send_entry` does to the whole machine. */
    method WakeUp(delay: Option<nat>)
      requires Valid()
      modifies this`queue, this`sendInvoker, this`sendDeadline, this`socket
      ensures View() == Engine.AwaitSendEntry(old(View()), delay)
    {
      hide Io.Await, Next;
      AwaitSendEntry(delay);
    }

    method HandleSend(f: Flight, result: SendResult)
      requires Valid() && f.id < |entries|
      modifies this`queue, this`sendInvoker, this`sendDeadline, this`socket, this`blind, this`outbox
      modifies this`sendEntries, this`processed, entries[f.id]
      ensures Valid() && View() == Engine.HandleSend(old(View()), f, result)
    {
      hide AfterSend, Signalled, Io.SetDeadline, Io.Await, PopIfComplete, Engine.AwaitSendEntry, Account;
      var nextDelay, stop := AccountSend(f, result);
      if stop {
        PostTask(Close);
      } else {
        GoOn(f.id, nextDelay);
      }
    }

    // ---- Watchdog and receiver ----

    method CheckSendDeadline()
      modifies this`queue, this`sendDeadline
      ensures IoView() == old(IoView()).Check(now)
    {
      if socket.None? || !socketReady {
        return;
      }
      if sendDeadline.expiry.At? && sendDeadline.expiry.time < now {
        PostTask(Close);
        return;
      }
      sendDeadline := sendDeadline.(waits := sendDeadline.waits + 1);
    }

    method AsyncReceive()
      modifies this`socket
      ensures IoView() == old(IoView()).Receive()
    {
      if socket.None? || !socketReady {
        return;
      }
      socket := Some(socket.value.(receiving := socket.value.receiving + 1));
    }

    /** What a completed receive enqueues to the dispatcher. */
    method Deliver(datagram: Option<Datagram>)
      modifies this`outbox
      ensures outbox == old(outbox) + ReportsOf(generation, datagram)
      ensures datagram.Some? && |datagram.value.bytes| > 0 && datagram.value.bytes[0] == 1 ==>
                outbox == old(outbox) + [Received(datagram.value.bytes[1..], datagram.value.sender)]
    {
      if datagram.Some? && |datagram.value.bytes| > 0 {
        var bytes := datagram.value.bytes;
        if bytes[0] == TypeByte(Heartbeat) {
          if |bytes| - 1 >= 4 {
            var nextHeartbeatDeadline := DecodeUint32(bytes[1..5]);
            if nextHeartbeatDeadline > 0 {
              if !NonEmptyFilesystemPath(datagram.value.sender) {
                outbox := outbox + [WarningReported];
              } else {
                outbox := outbox + [HeartbeatFrom(generation, datagram.value.sender, nextHeartbeatDeadline)];
              }
            }
          }
        } else if bytes[0] == TypeByte(UserData) {
          outbox := outbox + [Received(bytes[1..], datagram.value.sender)];
        }
      }
      assert old(outbox) + [] == old(outbox);
    }

    /** The completion handler of `async_receive`. */
    method HandleReceive(datagram: Option<Datagram>, ghost log: seq<Entry>)
      modifies this`socket, this`outbox
      ensures Over(log) == Engine.HandleReceive(old(Over(log)), datagram)
      ensures datagram.Some? && |datagram.value.bytes| > 0 && datagram.value.bytes[0] == 1 ==>
                outbox == old(outbox) + [Received(datagram.value.bytes[1..], datagram.value.sender)]
    {
      hide Io.Receive, ReportsOf;
      Deliver(datagram);
      AsyncReceive();
    }

    /** The completion handler of the watchdog's wait. */
    method HandleDeadlineWake(ghost log: seq<Entry>)
      modifies this`queue, this`sendDeadline
      ensures Over(log) == Engine.CheckSendDeadline(old(Over(log)))
    {
      hide Io.Check;
      CheckSendDeadline();
    }

    // ---- Sessions ----

    method StartActors()
      requires Valid()
      modifies this`queue, this`sendInvoker, this`sendDeadline, this`socket, this`blind
      ensures IoView() == old(IoView()).StartActors(now, mode == Client, old(NextFlight()))
      ensures blind == old(socket.Some? && socketReady && sendEntries != [])
    {
      hide Io.Await, Io.Check, Io.Receive;
      blind := socket.Some? && socketReady && sendEntries != [];
      AwaitSendEntry(None);
      ExpireDeadline(Infinite);
      if mode == Client {
        CheckSendDeadline();
      }
      AsyncReceive();
    }

    /** Closing the socket, then cancelling the two timers: everything pending is queued as aborted. */
    method CloseSocket()
      modifies this`queue, this`socket, this`sendInvoker, this`sendDeadline
      ensures IoView().(ready := false) == old(IoView()).Closed()
    {
      hide AbortedOperations, Repeat;
      queue := queue + (AbortedOperations(socket) + Repeat(Wake, sendInvoker.waits) + Repeat(DeadlineWake, sendDeadline.waits));
      socket := None;
      sendInvoker := sendInvoker.(waits := 0);
      sendDeadline := sendDeadline.(waits := 0);
    }

    method ReplaceSocket()
      modifies this`queue, this`socket, this`socketReady
      ensures IoView() == old(IoView()).Replaced(0)
    {
      socketReady := false;
      queue := queue + AbortedOperations(socket);
      socket := Some(Socket(0, [], 0));
    }

    /** The handler posted by `async_close`. */
    method HandleClose(ghost log: seq<Entry>)
      modifies this`queue, this`socket, this`sendInvoker, this`sendDeadline, this`blind
      modifies this`socketReady, this`generation, this`closes, this`bound, this`outbox
      ensures Over(log) == Engine.HandleClose(old(Over(log)))
    {
      hide Io.Closed;
      if socket.Some? {
        CloseSocket();
        blind := false;
        if socketReady {
          EndSession(log);
        }
      }
    }

    method EndSession(ghost log: seq<Entry>)
      modifies this`socketReady, this`generation, this`closes, this`bound, this`outbox
      ensures Over(log) == old(Over(log)).(io := old(IoView()).(ready := false), bound := false, generation := old(generation) + 1,
                                           closes := old(closes) + 1, reports := old(outbox) + [Closed])
    {
      socketReady := false;
      generation := generation + 1;
      closes := closes + 1;
      bound := false;
      outbox := outbox + [Closed];
    }

    method TurnReady(ghost log: seq<Entry>)
      modifies this`socketReady, this`generation, this`starts, this`outbox
      ensures Over(log) == Engine.TurnReady(old(Over(log)))
    {
      socketReady := true;
      generation := generation + 1;
      starts := starts + 1;
      outbox := outbox + [Opened(socket.Some?)];
    }

    method StartSession()
      requires Valid()
      modifies this`queue, this`sendInvoker, this`sendDeadline, this`socket, this`blind
      modifies this`socketReady, this`generation, this`starts, this`outbox
      ensures View() == Engine.StartSession(old(View()))
    {
      hide Io.StartActors, Next, Engine.TurnReady;
      TurnReady(Views(entries));
      StartActors();
    }

    /** The handler posted by `async_connect`. */
    method HandleConnect(opening: Opening, ghost log: seq<Entry>)
      modifies this`socket, this`socketReady, this`bound, this`outbox
      ensures Over(log) == Engine.HandleConnect(old(Over(log)), opening)
    {
      if socket.Some? {
        return;
      }
      assert queue + AbortedOperations(None) == queue;
      socket := Some(Socket(0, [], 0));
      socketReady := false;
      if !opening.Open? {
        outbox := outbox + [OpenFailed];
        return;
      }
      if opening.withPath {
        bound := true;
      }
      socket := Some(socket.value.(connecting := 1));
    }

    /** The completion handler of the connect. */
    method HandleConnectDone(ok: bool)
      requires Valid()
      modifies this`queue, this`sendInvoker, this`sendDeadline, this`socket, this`blind
      modifies this`socketReady, this`generation, this`starts, this`outbox
      ensures View() == Engine.HandleConnectDone(old(View()), ok)
      ensures !ok ==> outbox == old(outbox) + [OpenFailed]
    {
      hide Engine.StartSession;
      if !ok {
        outbox := outbox + [OpenFailed];
      } else {
        StartSession();
      }
    }

    /** The handler posted by `async_bind`. */
    method HandleBind(opening: Opening)
      requires Valid()
      modifies this`queue, this`sendInvoker, this`sendDeadline, this`socket, this`blind
      modifies this`socketReady, this`generation, this`starts, this`outbox, this`bound
      ensures View() == Engine.HandleBind(old(View()), opening)
    {
      hide Engine.StartSession, Io.Replaced;
      OpenSocket(opening, Views(entries));
      if opening.Open? {
        StartSession();
      }
    }

    method OpenSocket(opening: Opening, ghost log: seq<Entry>)
      modifies this`queue, this`socket, this`socketReady, this`outbox, this`bound
      ensures Over(log) == (var s := old(Over(log)).(io := old(IoView()).Replaced(0));
                            if opening.Open? then s.(bound := true) else s.(reports := s.reports + [OpenFailed]))
    {
      hide Io.Replaced;
      ReplaceSocket();
      if opening.Open? {
        bound := true;
      } else {
        outbox := outbox + [OpenFailed];
      }
    }

    /** Waking the sender up: its timer expires now. */
    method Interrupt(ghost log: seq<Entry>)
      modifies this`queue, this`sendInvoker
      ensures Over(log) == old(Over(log)).(io := old(IoView()).SetInvoker(At(now)))
    {
      hide Io.SetInvoker;
      ExpireInvoker(At(now));
    }

    /** The handler posted by `async_send`. */
    method HandlePush(entry: SendEntry)
      requires Valid() && entry !in entries
      modifies this`entries, this`sendEntries, this`queue, this`sendInvoker
      ensures Valid() && View() == Engine.HandlePush(old(View()), old(entry.View()))
      ensures entries == old(entries) + [entry]
    {
      hide Io.SetInvoker, FreshEntry;
      Enqueue(entry);
      Interrupt(Views(entries));
    }

    method Enqueue(entry: SendEntry)
      requires Valid() && entry !in entries
      modifies this`entries, this`sendEntries
      ensures Valid() && entries == old(entries) + [entry]
      ensures View() == old(View()).(store := Append(old(View()).store, entry.View()))
    {
      entries := entries + [entry];
      sendEntries := sendEntries + [|entries| - 1];
      assert Views(entries) == old(Views(entries)) + [entry.View()];
    }

    method PushNew(kind: MessageType, body: seq<byte>, to: Option<Path>, callback: bool)
      requires Valid()
      modifies this`entries, this`sendEntries, this`queue, this`sendInvoker
      ensures Valid() && View() == Engine.HandlePush(old(View()), FreshEntry(kind, body, to, callback))
      ensures old(entries) <= entries
    {
      var entry := new SendEntry.FromVector(kind, body, to, callback);
      HandlePush(entry);
    }

    // ---- The io thread ----

    method RunTask(t: Task, opening: Opening)
      requires Valid() && (t.SendDone? ==> t.flight.id < |entries|)
      modifies this, entries
      ensures Valid() && View() == Engine.RunTask(old(View()), t, opening)
    {
      hide Engine.RunTask;
      match t {
        case Push(_, _, _, _) => RunSender(t, opening);
        case Wake => RunSender(t, opening);
        case SendDone(_, _) => RunSender(t, opening);
        case DeadlineWake => RunWaiter(t, opening);
        case ReceiveDone(_) => RunWaiter(t, opening);
        case _ => RunSession(t, opening);
      }
    }

    method RunSender(t: Task, ghost opening: Opening)
      requires Valid() && (t.SendDone? ==> t.flight.id < |entries|) && (t.Push? || t.Wake? || t.SendDone?)
      modifies this, entries
      ensures Valid() && View() == Engine.RunTask(old(View()), t, opening)
    {
      hide Engine.HandlePush, Engine.AwaitSendEntry, Engine.HandleSend, FreshEntry, Views;
      match t {
        case Push(kind, body, to, callback) => PushNew(kind, body, to, callback);
        case Wake => WakeUp(None);
        case SendDone(flight, result) => HandleSend(flight, result);
      }
    }

    method RunWaiter(t: Task, ghost opening: Opening)
      requires Valid() && (t.DeadlineWake? || t.ReceiveDone?)
      modifies this
      ensures Valid() && View() == Engine.RunTask(old(View()), t, opening) && entries == old(entries)
    {
      hide Engine.CheckSendDeadline, Engine.HandleReceive, Views;
      match t {
        case DeadlineWake => HandleDeadlineWake(Views(entries));
        case ReceiveDone(datagram) => HandleReceive(datagram, Views(entries));
      }
    }

    method RunSession(t: Task, opening: Opening)
      requires Valid() && (t.Close? || t.Connect? || t.Bind? || t.ConnectDone?)
      modifies this
      ensures Valid() && View() == Engine.RunTask(old(View()), t, opening) && entries == old(entries)
    {
      hide Engine.HandleClose, Engine.HandleConnect, Engine.HandleBind, Engine.HandleConnectDone, Views;
      match t {
        case Close => HandleClose(Views(entries));
        case Connect => HandleConnect(opening, Views(entries));
        case Bind => HandleBind(opening);
        case ConnectDone(ok) => HandleConnectDone(ok);
      }
    }

    method TakeTask() returns (t: Task)
      requires Valid() && queue != []
      modifies this`queue
      ensures t == old(queue[0]) && View() == TakeFront(old(View()))
    {
      t := queue[0];
      queue := queue[1..];
    }

    /** Running the handler at the front of the queue is one step of the machine, and keeps
        its invariant; a guarded step keeps what the entries need. */
    method RunOne(opening: Opening)
      requires Valid() && Known(View()) && queue != []
      modifies this, entries
      ensures Valid() && View() == Apply(old(View()), Run(opening))
      ensures old(Inv(View()) && Calm(View(), Run(opening))) ==> Inv(View())
      ensures old(Intact(View()) && Guarded(View(), Run(opening))) ==> Intact(View())
    {
      hide Inv, Calm, Intact, Guarded, Engine.RunTask;
      ghost var before := View();
      var t := TakeTask();
      RunTask(t, opening);
      if Inv(before) && Calm(before, Run(opening)) {
        StepHolds(before, Run(opening));
      }
      if Intact(before) && Guarded(before, Run(opening)) {
        StepKeepsIntact(before, Run(opening));
      }
    }
  }
}
