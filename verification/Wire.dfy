/** The datagram layout of `send_entry` and the decoder of `async_receive`.

    A datagram is one type byte followed by a body: a 32-bit heartbeat deadline in
    milliseconds, or the user's bytes. The source copies the deadline with `memcpy`
    on both sides of a local socket, so one byte order is used at both ends; it is
    written here as little-endian.
 */
module Wire {

  newtype byte = x: int | 0 <= x < 256

  datatype MessageType = Heartbeat | UserData

  /** What one received datagram means to the receiver. */
  datatype Message =
    | Ignored
    | NextHeartbeat(deadline: nat)
    | User(payload: seq<byte>)

  const UINT32_LIMIT := 0x1_0000_0000

  /** The margin added to `buffer_size` for the receive buffer. */
  const RECEIVE_MARGIN := 32

  function TypeByte(t: MessageType): byte {
    match t
    case Heartbeat => 0
    case UserData => 1
  }

  /** The buffer a `send_entry` holds: the type byte, then the body. */
  function Layout(t: MessageType, body: seq<byte>): seq<byte> {
    [TypeByte(t)] + body
  }

  /** The conversion of a millisecond count to `uint32_t`, which keeps its residue. */
  function ToUint32(count: int): nat {
    count % UINT32_LIMIT
  }

  function EncodeUint32(n: nat): (bs: seq<byte>)
    requires n < UINT32_LIMIT
    ensures |bs| == 4
  {
    [(n % 256) as byte, (n / 256 % 256) as byte, (n / 65536 % 256) as byte, (n / 16777216) as byte]
  }

  function DecodeUint32(bs: seq<byte>): nat
    requires |bs| == 4
  {
    bs[0] as int + 256 * bs[1] as int + 65536 * bs[2] as int + 16777216 * bs[3] as int
  }

  /** The body of the heartbeat sent by `check_server`; no deadline is sent as zero. */
  function HeartbeatBody(deadline: int): seq<byte> {
    EncodeUint32(ToUint32(deadline))
  }

  /** What the kernel leaves in the receive buffer of a socket opened with `bufferSize`. */
  function Receive(datagram: seq<byte>, bufferSize: nat): seq<byte> {
    if |datagram| <= bufferSize + RECEIVE_MARGIN then datagram else datagram[..bufferSize + RECEIVE_MARGIN]
  }

  /** The switch on the type byte in the completion handler of `async_receive`. */
  function Decode(bs: seq<byte>): Message {
    if |bs| == 0 then
      Ignored
    else if bs[0] == TypeByte(Heartbeat) then
      if |bs| - 1 >= 4 then
        var deadline := DecodeUint32(bs[1..5]);
        if deadline > 0 then NextHeartbeat(deadline) else Ignored
      else
        Ignored
    else if bs[0] == TypeByte(UserData) then
      User(bs[1..])
    else
      Ignored
  }

  // ---- Round trips ----

  lemma Uint32RoundTrip(n: nat)
    requires n < UINT32_LIMIT
    ensures DecodeUint32(EncodeUint32(n)) == n
    ensures n < 256 ==> EncodeUint32(n) == [n as byte, 0, 0, 0]
  {
    var a, b, c := n / 256, n / 65536, n / 16777216;
    assert b == a / 256 && c == b / 256;
    assert n == 256 * a + n % 256 && a == 256 * b + a % 256 && b == 256 * c + b % 256;
  }

  lemma Uint32Injective(a: seq<byte>, b: seq<byte>)
    requires |a| == |b| == 4
    requires DecodeUint32(a) == DecodeUint32(b)
    ensures a == b
  {
    var ha, hb := a[1] as int + 256 * a[2] as int + 65536 * a[3] as int, b[1] as int + 256 * b[2] as int + 65536 * b[3] as int;
    LowByte(a[0], ha, b[0], hb);
    LowByte(a[1], a[2] as int + 256 * a[3] as int, b[1], b[2] as int + 256 * b[3] as int);
    LowByte(a[2], a[3] as int, b[2], b[3] as int);
  }

  lemma LowByte(x: byte, xs: int, y: byte, ys: int)
    requires x as int + 256 * xs == y as int + 256 * ys
    ensures x == y && xs == ys
  {
  }

  /** User data sent as one datagram arrives unchanged up to the receive buffer: the
      receiver is handed the first `bufferSize + 31` bytes, never the type byte. */
  lemma UserDataRoundTrip(v: seq<byte>, bufferSize: nat)
    ensures Decode(Receive(Layout(UserData, v), bufferSize))
         == User(if |v| <= bufferSize + 31 then v else v[..bufferSize + 31])
    ensures |v| <= bufferSize ==> Decode(Receive(Layout(UserData, v), bufferSize)) == User(v)
  {
    var d := Layout(UserData, v);
    var r := Receive(d, bufferSize);
    assert d[1..] == v;
    if |v| > bufferSize + 31 {
      assert r[1..] == v[..bufferSize + 31];
    }
  }

  /** A heartbeat survives every receive buffer; the deadline arrives modulo 2^32, and a
      deadline whose residue is zero is not a deadline at all. */
  lemma HeartbeatRoundTrip(deadline: int, bufferSize: nat)
    ensures var r := Decode(Receive(Layout(Heartbeat, HeartbeatBody(deadline)), bufferSize));
            if deadline % UINT32_LIMIT == 0 then r == Ignored
            else r == NextHeartbeat(deadline % UINT32_LIMIT)
  {
    var d := Layout(Heartbeat, HeartbeatBody(deadline));
    assert d[1..5] == HeartbeatBody(deadline);
    Uint32RoundTrip(ToUint32(deadline));
  }

  /** The decoder accepts exactly the layouts: what it reads as user data is one user-data
      layout, what it reads as a deadline is a heartbeat layout possibly followed by bytes
      it does not look at, and everything else is ignored. */
  lemma DecodeExact(bs: seq<byte>)
    ensures forall v :: Decode(bs) == User(v) <==> bs == Layout(UserData, v)
    ensures forall n: nat :: Decode(bs) == NextHeartbeat(n) <==>
              0 < n < UINT32_LIMIT && |bs| >= 5 && bs[..5] == Layout(Heartbeat, EncodeUint32(n))
  {
    forall v ensures Decode(bs) == User(v) <==> bs == Layout(UserData, v) {
      if |bs| > 0 {
        assert bs == [bs[0]] + bs[1..];
        assert Layout(UserData, v)[1..] == v;
      }
    }
    forall n: nat
      ensures Decode(bs) == NextHeartbeat(n) <==>
                0 < n < UINT32_LIMIT && |bs| >= 5 && bs[..5] == Layout(Heartbeat, EncodeUint32(n))
    {
      if |bs| >= 5 {
        assert bs[..5] == [bs[0]] + bs[1..5];
        if 0 < n < UINT32_LIMIT {
          Uint32RoundTrip(n);
          if DecodeUint32(bs[1..5]) == n {
            Uint32Injective(bs[1..5], EncodeUint32(n));
          }
          if bs[..5] == Layout(Heartbeat, EncodeUint32(n)) {
            assert bs[1..5] == bs[..5][1..] == EncodeUint32(n);
            assert bs[0] == bs[..5][0];
          }
        }
      }
    }
  }
}
