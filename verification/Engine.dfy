/** The state machine of `base_impl`, `client_impl` and `server_impl`: one value for every
    field the io thread touches, one function for every handler it runs, and the events the
    environment may interleave with them. */
module Engine {
  import opened Wire
  import opened IoContext

  datatype Mode = Server | Client

  /** A `send_entry`. `sent`, `reached`, `dropped` and `attempts` are history: the bytes the
      socket reported as transferred, in that order; the offsets of the buffer among them; the
      error the entry was given up for; and how many of its send completions were handled
      without closing the session. */
  datatype Entry = Entry(
    buffer: seq<byte>, to: Option<Path>, callback: bool,
    transferred: nat, errors: nat,
    sent: seq<byte>, reached: set<int>, dropped: Option<Error>, attempts: nat)

  /** What the io thread enqueues to the dispatcher, in order. */
  datatype Report =
    | Opened(live: bool)
    | OpenFailed
    | Closed
    | Processed(id: nat)
    | ErrorOccurred(error: Error, id: nat)
    | Received(payload: seq<byte>, sender: Path)
    | HeartbeatFrom(generation: nat, sender: Path, deadline: nat)
    | WarningReported

  /** `log` is every entry ever pushed, in push order; the deque holds positions of it. The
      positions popped so far are kept in `processed`. */
  datatype Store = Store(log: seq<Entry>, deque: seq<nat>, processed: seq<nat>)

  /** `starts`, `closes` and `blind` are history: sessions started and closed, and whether the
      send in play was started by `start_actors`. */
  datatype State = State(
    mode: Mode, now: nat, bufferSize: nat,
    io: Io, store: Store, reports: seq<Report>,
    bound: bool, generation: nat, starts: nat, closes: nat, blind: bool,
    retired: bool)

  const RETRY_DELAY := 100
  const GIVE_UP_UNSENT := 10
  const GIVE_UP := 100

  predicate DequeKnown(b: Store) {
    forall i :: 0 <= i < |b.deque| ==> b.deque[i] < |b.log|
  }

  // ---- send_entry ----

  predicate TransferComplete(e: Entry) {
    e.transferred >= |e.buffer|
  }

  function RestBytes(e: Entry): nat {
    if TransferComplete(e) then 0 else |e.buffer| - e.transferred
  }

  function MakeBuffer(e: Entry): seq<byte> {
    if TransferComplete(e) then [] else e.buffer[e.transferred..]
  }

  function FreshEntry(kind: MessageType, body: seq<byte>, to: Option<Path>, callback: bool): Entry {
    Entry(Layout(kind, body), to, callback, 0, 0, [], {}, None, 0)
  }

  function Drop(e: Entry, error: Error): Entry {
    e.(transferred := e.transferred + RestBytes(e), dropped := Some(error))
  }

  // ---- The deque ----

  function Append(b: Store, e: Entry): Store {
    b.(log := b.log + [e], deque := b.deque + [|b.log|])
  }

  function Pop(b: Store): Store {
    if b.deque == [] then b
    else b.(deque := b.deque[1..], processed := b.processed + [b.deque[0]])
  }

  /** The callback that `pop_front_send_entry` schedules. */
  function PopReports(b: Store): seq<Report>
    requires DequeKnown(b)
  {
    if b.deque != [] && b.log[b.deque[0]].callback then [Processed(b.deque[0])] else []
  }

  // ---- Sender ----

  /** The send that the entry at the front asks for. */
  function Next(s: State): Option<Flight>
    requires DequeKnown(s.store)
  {
    if s.store.deque == [] then None
    else
      var id := s.store.deque[0];
      var e := s.store.log[id];
      Some(Flight(id, MakeBuffer(e), e.to, s.now, s.generation))
  }

  function AwaitSendEntry(s: State, delay: Option<nat>): State
    requires DequeKnown(s.store)
  {
    s.(io := s.io.Await(s.now, delay, Next(s)))
  }

  /** The first `n` bytes of a slice. */
  function Taken(slice: seq<byte>, n: nat): seq<byte> {
    if n <= |slice| then slice[..n] else slice
  }

  /** The `n` offsets from `start` on. */
  function Span(start: int, n: nat): (r: set<int>)
    ensures forall i :: i in r <==> start <= i < start + n
  {
    if n == 0 then {} else Span(start, n - 1) + {start + n - 1}
  }

  /** The offsets in a buffer of `size` bytes of the first `n` bytes of a slice: a slice is what
      is left of the buffer. */
  function Offsets(size: nat, slice: seq<byte>, n: nat): set<int> {
    Span(size - |slice|, |Taken(slice, n)|)
  }

  /** Too many errors for lack of buffer space: more than 10 with nothing sent, or more than 100. */
  predicate OutOfPatience(e: Entry) {
    e.errors > GIVE_UP_UNSENT && (e.transferred == 0 || e.errors > GIVE_UP)
  }

  /** What one send completion does to the entry it captured. */
  function AfterSend(mode: Mode, e: Entry, slice: seq<byte>, result: SendResult): Entry {
    match result
    case Sent(n) =>
      e.(transferred := e.transferred + n, sent := e.sent + Taken(slice, n),
         reached := e.reached + Offsets(|e.buffer|, slice, n), attempts := e.attempts + 1)
    case Failed(NoBufferSpace) =>
      var e' := e.(errors := e.errors + 1, attempts := e.attempts + 1);
      if OutOfPatience(e') then Drop(e', NoBufferSpace) else e'
    case Failed(MessageSize) =>
      Drop(e.(attempts := e.attempts + 1), MessageSize)
    case Failed(error) =>
      if mode == Server then Drop(e.(attempts := e.attempts + 1), error) else e
  }

  /** The completion closes the client's session and keeps the entry. */
  predicate ClosesSession(mode: Mode, result: SendResult) {
    mode == Client && result.Failed? && result.error in {ConnectionError, OperationAborted}
  }

  /** The error is signalled: a drop for lack of buffer space or for its size, or a lost connection. */
  predicate Signalled(mode: Mode, e: Entry, result: SendResult) {
    result.Failed? &&
    match result.error
    case NoBufferSpace => OutOfPatience(e.(errors := e.errors + 1))
    case MessageSize => true
    case _ => mode == Client
  }

  /** The first half of a completion: the entry is updated and the watchdog is disarmed. */
  function Account(s: State, f: Flight, result: SendResult): State
    requires f.id < |s.store.log|
  {
    var e := s.store.log[f.id];
    s.(store := s.store.(log := s.store.log[f.id := AfterSend(s.mode, e, f.slice, result)]),
       io := s.io.SetDeadline(Infinite),
       blind := false,
       reports := s.reports +
         (if Signalled(s.mode, e, result) then [ErrorOccurred(result.error, f.id)] else []))
  }

  /** Removing the entry at the front if the entry that completed is done. */
  function PopIfComplete(s: State, id: nat): State
    requires id < |s.store.log| && DequeKnown(s.store)
  {
    if TransferComplete(s.store.log[id]) then
      s.(store := Pop(s.store), reports := s.reports + PopReports(s.store))
    else s
  }

  /** The second half: a lost connection is closed; otherwise a completed entry leaves the
      deque at its front and the sender goes on. */
  function Proceed(s: State, id: nat, result: SendResult): State
    requires id < |s.store.log| && DequeKnown(s.store)
  {
    if ClosesSession(s.mode, result) then
      s.(io := s.io.Post(Close))
    else
      AwaitSendEntry(PopIfComplete(s, id), if result == Failed(NoBufferSpace) then Some(RETRY_DELAY) else None)
  }

  function HandleSend(s: State, f: Flight, result: SendResult): State
    requires f.id < |s.store.log| && DequeKnown(s.store)
  {
    Proceed(Account(s, f, result), f.id, result)
  }

  // ---- Watchdog and receiver ----

  function CheckSendDeadline(s: State): State {
    s.(io := s.io.Check(s.now))
  }

  predicate NonEmptyFilesystemPath(p: Path) {
    p != "" && p[0] != '\0'
  }

  /** The reports of one completed receive. */
  function ReportsOf(generation: nat, datagram: Option<Datagram>): seq<Report> {
    if datagram.None? then []
    else
      match Decode(datagram.value.bytes)
      case Ignored => []
      case NextHeartbeat(deadline) =>
        if NonEmptyFilesystemPath(datagram.value.sender)
        then [HeartbeatFrom(generation, datagram.value.sender, deadline)]
        else [WarningReported]
      case User(payload) => [Received(payload, datagram.value.sender)]
  }

  function HandleReceive(s: State, datagram: Option<Datagram>): State {
    s.(reports := s.reports + ReportsOf(s.generation, datagram), io := s.io.Receive())
  }

  // ---- Sessions ----

  /** Turning ready: the generation moves on. */
  function TurnReady(s: State): State {
    s.(io := s.io.(ready := true), generation := s.generation + 1, starts := s.starts + 1,
       reports := s.reports + [Opened(s.io.socket.Some?)])
  }

  function StartActors(s: State): State
    requires DequeKnown(s.store)
  {
    s.(io := s.io.StartActors(s.now, s.mode == Client, Next(s)),
       blind := s.io.Running() && s.store.deque != [])
  }

  function StartSession(s: State): State
    requires DequeKnown(s.store)
  {
    StartActors(TurnReady(s))
  }

  function HandleClose(s: State): State {
    if s.io.socket.None? then s
    else if s.io.ready then
      s.(io := s.io.Closed(), blind := false, bound := false,
         generation := s.generation + 1, closes := s.closes + 1, reports := s.reports + [Closed])
    else
      s.(io := s.io.Closed(), blind := false)
  }

  /** How opening and binding the socket goes. */
  datatype Opening = CannotOpen | CannotBind | Open(withPath: bool)

  function HandleConnect(s: State, opening: Opening): State {
    if s.io.socket.Some? then s
    else
      match opening
      case Open(withPath) => s.(io := s.io.Replaced(1), bound := s.bound || withPath)
      case _ => s.(io := s.io.Replaced(0), reports := s.reports + [OpenFailed])
  }

  function HandleConnectDone(s: State, ok: bool): State
    requires DequeKnown(s.store)
  {
    if ok then StartSession(s) else s.(reports := s.reports + [OpenFailed])
  }

  function HandleBind(s: State, opening: Opening): State
    requires DequeKnown(s.store)
  {
    var s1 := s.(io := s.io.Replaced(0));
    if opening.Open? then StartSession(s1.(bound := true)) else s1.(reports := s1.reports + [OpenFailed])
  }

  function HandlePush(s: State, e: Entry): State {
    s.(store := Append(s.store, e), io := s.io.SetInvoker(At(s.now)))
  }

  // ---- One step ----

  /** Every position the machine holds is a position of the log. */
  predicate Known(s: State) {
    && DequeKnown(s.store)
    && (forall i :: 0 <= i < |s.io.queue| && s.io.queue[i].SendDone? ==> s.io.queue[i].flight.id < |s.store.log|)
  }

  function TakeFront(s: State): State
    requires s.io.queue != []
  {
    s.(io := s.io.(queue := s.io.queue[1..]))
  }

  function RunTask(s: State, t: Task, opening: Opening): State
    requires DequeKnown(s.store)
    requires t.SendDone? ==> t.flight.id < |s.store.log|
  {
    match t
    case Push(kind, body, to, callback) => HandlePush(s, FreshEntry(kind, body, to, callback))
    case Close => HandleClose(s)
    case Connect => HandleConnect(s, opening)
    case Bind => HandleBind(s, opening)
    case Wake => AwaitSendEntry(s, None)
    case SendDone(flight, result) => HandleSend(s, flight, result)
    case ConnectDone(ok) => HandleConnectDone(s, ok)
    case DeadlineWake => CheckSendDeadline(s)
    case ReceiveDone(datagram) => HandleReceive(s, datagram)
  }

  datatype Event =
    | Posted(task: Task)              // async_send, async_close, async_connect from other threads
    | Retire                          // the destructor: a last async_close, then the io thread is joined
    | Restart                         // server::bind makes a new server_impl over the same deque
    | Run(opening: Opening)           // the io thread runs the handler at the front
    | SendCompletes(result: SendResult)
    | ConnectCompletes(ok: bool)
    | ReceiveCompletes(datagram: Option<Datagram>)
    | InvokerFires
    | DeadlineFires
    | Tick(elapsed: nat)

  /** A fresh io thread: a `server_impl` is bound once, by whoever constructs it. */
  function FreshIo(mode: Mode): Io {
    Io(if mode == Server then [Close, Bind] else [], None, false, UNUSED, UNUSED)
  }

  function Init(mode: Mode, bufferSize: nat): State {
    State(mode, 0, bufferSize, FreshIo(mode), Store([], [], []), [], false, 0, 0, 0, false, false)
  }

  /** No handler is queued and no operation is pending: `io_context::run` returns. */
  predicate Drained(io: Io) {
    && io.queue == []
    && io.invoker.waits == 0 && io.deadline.waits == 0
    && (io.socket.Some? ==>
          io.socket.value.connecting == 0 && io.socket.value.sends == [] && io.socket.value.receiving == 0)
  }

  predicate Enabled(s: State, ev: Event) {
    match ev
    case Posted(t) => !s.retired && (t.Push? || t.Close? || (t.Connect? && s.mode == Client))
    case Retire => !s.retired
    case Restart => s.mode == Server && s.retired && Drained(s.io)
    case Run(_) => s.io.queue != []
    case SendCompletes(result) =>
      && s.io.socket.Some? && s.io.socket.value.sends != []
      && (result.Sent? ==> 1 <= result.n <= |s.io.socket.value.sends[0].slice|)
    case ConnectCompletes(_) => s.io.socket.Some? && s.io.socket.value.connecting > 0
    case ReceiveCompletes(datagram) =>
      && s.io.socket.Some? && s.io.socket.value.receiving > 0
      && (datagram.Some? ==> |datagram.value.bytes| <= s.bufferSize + RECEIVE_MARGIN)
    case InvokerFires => s.io.invoker.waits > 0 && s.io.invoker.expiry.At? && s.io.invoker.expiry.time <= s.now
    case DeadlineFires => s.io.deadline.waits > 0 && s.io.deadline.expiry.At? && s.io.deadline.expiry.time <= s.now
    case Tick(_) => true
  }

  /** The one assumption on the client: a `Connect` handler that creates a socket does not find
      a successful completion of an earlier connect still queued. */
  predicate Calm(s: State, ev: Event) {
    ev.Run? && s.io.queue != [] && s.io.queue[0].Connect? && s.io.socket.None? ==>
      Count(s.io.queue, Starter) == 0
  }

  predicate IsCompletion(ev: Event) {
    ev.SendCompletes? || ev.ConnectCompletes? || ev.ReceiveCompletes?
  }

  /** The io side of an operation completing. */
  function Completed(s: State, ev: Event): Io
    requires IsCompletion(ev) && Enabled(s, ev)
  {
    var k := s.io.socket.value;
    match ev
    case SendCompletes(result) =>
      s.io.(socket := Some(k.(sends := k.sends[1..]))).Post(SendDone(k.sends[0], result))
    case ConnectCompletes(ok) =>
      s.io.(socket := Some(k.(connecting := k.connecting - 1))).Post(ConnectDone(ok))
    case ReceiveCompletes(datagram) =>
      s.io.(socket := Some(k.(receiving := k.receiving - 1))).Post(ReceiveDone(datagram))
  }

  function Apply(s: State, ev: Event): State
    requires Known(s) && Enabled(s, ev)
  {
    match ev
    case Posted(t) => s.(io := s.io.Post(t))
    case Retire => s.(io := s.io.Post(Close), retired := true)
    case Restart =>
      Init(Server, s.bufferSize).(now := s.now, store := s.store, reports := s.reports)
    case Run(opening) => RunTask(TakeFront(s), s.io.queue[0], opening)
    case SendCompletes(_) => s.(io := Completed(s, ev))
    case ConnectCompletes(_) => s.(io := Completed(s, ev))
    case ReceiveCompletes(_) => s.(io := Completed(s, ev))
    case InvokerFires => s.(io := s.io.SetInvoker(s.io.invoker.expiry))
    case DeadlineFires => s.(io := s.io.SetDeadline(s.io.deadline.expiry))
    case Tick(elapsed) => s.(now := s.now + elapsed)
  }

  // ---- Runs ----

  /** The events can happen in this order from `s`, every connect being calm. */
  ghost predicate Possible(s: State, evs: seq<Event>)
    decreases |evs|
  {
    evs == [] || (Known(s) && Enabled(s, evs[0]) && Calm(s, evs[0]) && Possible(Apply(s, evs[0]), evs[1..]))
  }

  ghost function After(s: State, evs: seq<Event>): State
    requires Possible(s, evs)
    decreases |evs|
  {
    if evs == [] then s else After(Apply(s, evs[0]), evs[1..])
  }
}
