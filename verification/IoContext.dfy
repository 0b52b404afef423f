/** The parts of asio that the engine stands on, reduced to what it can observe.

    `io_ctx_` is a FIFO of ready handlers run by one thread. A timer or a socket holds
    operations that are not ready yet. Cancelling, re-arming a timer or closing a socket
    moves its operations to the back of the FIFO as aborted completions; otherwise the
    environment decides when an operation completes and with which result.
 */
module IoContext {
  import opened Wire

  datatype Option<+T> = None | Some(value: T)

  type Path = string

  datatype Error = NoBufferSpace | MessageSize | ConnectionError | OperationAborted

  datatype SendResult = Sent(n: nat) | Failed(error: Error)

  /** An asynchronous send: the entry the completion handler captured (the position of the
      entry in push order stands for the shared pointer), the slice of its buffer handed to
      the socket, the destination, and, as history, when and in which generation it started. */
  datatype Flight = Flight(id: nat, slice: seq<byte>, to: Option<Path>, startedAt: nat, session: nat)

  datatype Expiry = Infinite | At(time: nat)

  datatype Timer = Timer(expiry: Expiry, waits: nat)

  /** Operations pending on an open or half-open socket. */
  datatype Socket = Socket(connecting: nat, sends: seq<Flight>, receiving: nat)

  datatype Datagram = Datagram(bytes: seq<byte>, sender: Path)

  datatype Task =
    // Posted handlers
    | Push(kind: MessageType, body: seq<byte>, to: Option<Path>, callback: bool)
    | Close
    | Connect
    | Bind
    // Completion handlers
    | Wake
    | SendDone(flight: Flight, result: SendResult)
    | ConnectDone(ok: bool)
    | DeadlineWake
    | ReceiveDone(datagram: Option<Datagram>)

  const UNUSED := Timer(Infinite, 0)

  function Repeat(t: Task, n: nat): (q: seq<Task>)
    ensures |q| == n && forall i :: 0 <= i < n ==> q[i] == t
  {
    seq(n, _ => t)
  }

  function Aborted(flights: seq<Flight>): (q: seq<Task>)
    ensures |q| == |flights|
    ensures forall i :: 0 <= i < |q| ==> q[i] == SendDone(flights[i], Failed(OperationAborted))
  {
    seq(|flights|, i requires 0 <= i < |flights| => SendDone(flights[i], Failed(OperationAborted)))
  }

  /** The completions queued when a socket is cancelled and closed. */
  function AbortedOperations(socket: Option<Socket>): seq<Task> {
    match socket
    case None => []
    case Some(s) =>
      Repeat(ReceiveDone(None), s.receiving) + Repeat(ConnectDone(false), s.connecting) + Aborted(s.sends)
  }

  const SEND_DEADLINE := 5000

  /** The io thread: its queue, the socket and its operations, and the two timers. The members
      are the primitive moves of the handlers. */
  datatype Io = Io(queue: seq<Task>, socket: Option<Socket>, ready: bool, invoker: Timer, deadline: Timer) {

    predicate Running() {
      socket.Some? && ready
    }

    function Post(t: Task): Io {
      this.(queue := queue + [t])
    }

    /** `send_invoker_.expires_at` or `expires_after`: what waited on the timer is aborted. */
    function SetInvoker(expiry: Expiry): Io {
      this.(invoker := Timer(expiry, 0), queue := queue + Repeat(Wake, invoker.waits))
    }

    /** `send_deadline_.expires_at` or `expires_after`. */
    function SetDeadline(expiry: Expiry): Io {
      this.(deadline := Timer(expiry, 0), queue := queue + Repeat(DeadlineWake, deadline.waits))
    }

    function WaitInvoker(): Io {
      this.(invoker := invoker.(waits := invoker.waits + 1))
    }

    function WaitDeadline(): Io {
      this.(deadline := deadline.(waits := deadline.waits + 1))
    }

    function StartSend(flight: Flight): Io
      requires socket.Some?
    {
      this.(socket := Some(socket.value.(sends := socket.value.sends + [flight])))
    }

    /** `await_send_entry`: sleep for a retry, sleep until an entry is pushed, or send the
        next entry under the watchdog's eyes. */
    function Await(now: nat, delay: Option<nat>, next: Option<Flight>): Io {
      if !Running() then this
      else if delay.Some? then SetInvoker(At(now + delay.value)).WaitInvoker()
      else if next.None? then SetInvoker(Infinite).WaitInvoker()
      else SetDeadline(At(now + SEND_DEADLINE)).StartSend(next.value)
    }

    /** `check_send_deadline`. */
    function Check(now: nat): Io {
      if !Running() then this
      else if deadline.expiry.At? && deadline.expiry.time < now then Post(Close)
      else WaitDeadline()
    }

    /** `async_receive`. */
    function Receive(): Io {
      if !Running() then this
      else this.(socket := Some(socket.value.(receiving := socket.value.receiving + 1)))
    }

    /** `start_actors`. */
    function StartActors(now: nat, watched: bool, next: Option<Flight>): Io {
      var io := Await(now, None, next).SetDeadline(Infinite);
      (if watched then io.Check(now) else io).Receive()
    }

    /** What closing appends to the queue. */
    function Leftovers(): seq<Task> {
      AbortedOperations(socket) + Repeat(Wake, invoker.waits) + Repeat(DeadlineWake, deadline.waits)
    }

    /** `async_close` on an existing socket. */
    function Closed(): Io {
      Io(queue + Leftovers(), None, false, invoker.(waits := 0), deadline.(waits := 0))
    }

    /** A socket object in place of whatever was there. */
    function Replaced(connecting: nat): Io {
      this.(queue := queue + AbortedOperations(socket), socket := Some(Socket(connecting, [], 0)), ready := false)
    }
  }

  // ---- Counting the handlers of a queue ----

  datatype Role = Sender | Watchdog | Receiver | Starter | Closer | Plain

  function RoleOf(t: Task): Role {
    match t
    case Wake => Sender
    case SendDone(_, _) => Sender
    case DeadlineWake => Watchdog
    case ReceiveDone(_) => Receiver
    case ConnectDone(ok) => if ok then Starter else Plain
    case Bind => Starter
    case Close => Closer
    case Push(_, _, _, _) => Plain
    case Connect => Plain
  }

  function Count(q: seq<Task>, r: Role): nat {
    if q == [] then 0 else (if RoleOf(q[0]) == r then 1 else 0) + Count(q[1..], r)
  }

  /** The sends whose completion is queued, in order. */
  function Landed(q: seq<Task>): seq<Flight> {
    if q == [] then []
    else if q[0].SendDone? then [q[0].flight] + Landed(q[1..])
    else Landed(q[1..])
  }

  /** Belongs to a session that already started: its sender, its watchdog or its receiver. */
  predicate Actor(t: Task) {
    RoleOf(t) == Sender || RoleOf(t) == Watchdog || RoleOf(t) == Receiver
  }

  /** No actor is queued behind a starter: what an old session left runs before the next starts. */
  predicate Settled(q: seq<Task>) {
    forall i, j :: 0 <= i < j < |q| && RoleOf(q[i]) == Starter ==> !Actor(q[j])
  }

  lemma Reassociate<T>(a: seq<T>, b: seq<T>, c: seq<T>)
    ensures (a + b) + c == a + (b + c) && a + [] == a && c + [] == c
  {
  }

  lemma {:induction false} CountConcat(a: seq<Task>, b: seq<Task>, r: Role)
    ensures Count(a + b, r) == Count(a, r) + Count(b, r)
  {
    if a == [] {
      assert a + b == b;
    } else {
      assert (a + b)[1..] == a[1..] + b;
      CountConcat(a[1..], b, r);
    }
  }

  lemma {:induction false} LandedConcat(a: seq<Task>, b: seq<Task>)
    ensures Landed(a + b) == Landed(a) + Landed(b)
  {
    if a == [] {
      assert a + b == b;
    } else {
      assert (a + b)[1..] == a[1..] + b;
      LandedConcat(a[1..], b);
    }
  }

  lemma {:induction false} CountAll(q: seq<Task>, k: Role, r: Role)
    requires forall i :: 0 <= i < |q| ==> RoleOf(q[i]) == k
    ensures Count(q, r) == if r == k then |q| else 0
  {
    if q != [] {
      CountAll(q[1..], k, r);
    }
  }

  lemma {:induction false} LandedNone(q: seq<Task>)
    requires forall i :: 0 <= i < |q| ==> !q[i].SendDone?
    ensures Landed(q) == []
  {
    if q != [] {
      LandedNone(q[1..]);
    }
  }

  lemma {:induction false} LandedAborted(flights: seq<Flight>)
    ensures Landed(Aborted(flights)) == flights
  {
    if flights != [] {
      assert Aborted(flights)[1..] == Aborted(flights[1..]);
      LandedAborted(flights[1..]);
      assert flights == [flights[0]] + flights[1..];
    }
  }

  /** A role is counted exactly when some queued handler has it. */
  lemma {:induction false} CountPositive(q: seq<Task>, r: Role)
    ensures Count(q, r) > 0 <==> exists i :: 0 <= i < |q| && RoleOf(q[i]) == r
  {
    if q != [] {
      CountPositive(q[1..], r);
      if Count(q[1..], r) > 0 {
        var i :| 0 <= i < |q[1..]| && RoleOf(q[1..][i]) == r;
        assert RoleOf(q[i + 1]) == r;
      }
      if i :| 1 <= i < |q| && RoleOf(q[i]) == r {
        assert RoleOf(q[1..][i - 1]) == r;
      }
    }
  }

  lemma {:induction false} LandedCounted(q: seq<Task>)
    ensures |Landed(q)| <= Count(q, Sender)
  {
    if q != [] {
      LandedCounted(q[1..]);
    }
  }

  lemma {:induction false} LandedMember(q: seq<Task>, i: nat)
    requires i < |q| && q[i].SendDone?
    ensures q[i].flight in Landed(q)
  {
    if i > 0 {
      LandedMember(q[1..], i - 1);
    }
  }
}
