/** The SOCKS5 handshake of src/client/proxy.rs, without authentication. */
module Socks5Proxy {
  import opened Wrappers
  import opened BigEndian
  import opened ByteStreams

  const GREETING: Bytes := [5, 1, 0]

  /** The connection request; the length octet keeps only the low eight bits of the length. */
  function ConnectTo(host: Bytes, port: u16): Bytes {
    [5, 1, 0, 3, |host| % 256] + host + Bytes16(port)
  }

  datatype Verdict =
    | Tunnel
    | Ended                 // the stream ends in the middle of a reply
    | MethodRefused
    | ConnectFailed(code: byte)
    | UnknownAddressType

  /** How many bytes the bound address takes, given its type and what follows the type. */
  function AddressSize(kind: byte, rest: Bytes): Option<nat> {
    if kind == 1 then Some(4)
    else if kind == 4 then Some(16)
    else if rest == [] then None
    else Some(1 + rest[0] as int)
  }

  predicate KnownType(kind: byte) {
    kind == 1 || kind == 3 || kind == 4
  }

  /** The reply to the connection request, as a function of what is left of the stream. */
  function ReplyOf(rest: Bytes): (r: (Verdict, nat))
    ensures r.0 == Tunnel ==> r.1 <= |rest|
  {
    if |rest| < 4 then (Ended, 0)
    else if rest[0] != 5 || rest[1] != 0 then (ConnectFailed(rest[1]), 0)
    else if !KnownType(rest[3]) then (UnknownAddressType, 0)
    else
      var size := AddressSize(rest[3], rest[4..]);
      if size == None || |rest| < 4 + size.value + 2 then (Ended, 0) else (Tunnel, 4 + size.value + 2)
  }

  /** The verdict on the bytes the server sends, and how many of them the handshake takes for a tunnel. */
  function Replies(all: Bytes): (r: (Verdict, nat))
    ensures r.0 == Tunnel ==> r.1 <= |all|
  {
    if |all| < 2 then (Ended, 0)
    else if all[0] != 5 || all[1] != 0 then (MethodRefused, 0)
    else (ReplyOf(all[2..]).0, 2 + ReplyOf(all[2..]).1)
  }

  /** Drains the bound address, which has one of three shapes. */
  method DrainAddress(stream: ByteStream, kind: byte) returns (ok: bool)
    requires stream.Valid() && KnownType(kind)
    modifies stream`incoming
    ensures stream.Valid()
    ensures var size := AddressSize(kind, old(stream.Rest()));
      && (ok <==> size.Some? && size.value <= |old(stream.Rest())|)
      && (ok ==> stream.Rest() == old(stream.Rest())[size.value..])
  {
    if kind == 1 {
      var addr := stream.ReadExact(4);
      ok := addr.Some?;
    } else if kind == 3 {
      var len := stream.ReadExact(1);
      if len == None {
        return false;
      }
      var n := len.value[0] as int;
      var domain := stream.ReadExact(n);
      ok := domain.Some?;
      if ok {
        assert old(stream.Rest())[1..][n..] == old(stream.Rest())[1 + n..];
      }
    } else {
      var addr := stream.ReadExact(16);
      ok := addr.Some?;
    }
  }

  method DialSocks5(stream: ByteStream, host: Bytes, port: u16) returns (v: Verdict)
    requires stream.Valid()
    modifies stream
    ensures stream.Valid()
    ensures v == Replies(old(stream.Rest())).0
    ensures v == Tunnel ==> stream.Rest() == old(stream.Rest())[Replies(old(stream.Rest())).1..]
    ensures stream.outgoing == old(stream.outgoing) + [5, 1, 0]
            + if |old(stream.Rest())| >= 2 && old(stream.Rest())[..2] == [5, 0] then ConnectTo(host, port) else []
  {
    ghost var all := stream.Rest();
    stream.WriteAll(GREETING);
    var response := stream.ReadExact(2);
    if response == None {
      return Ended;
    }
    if response.value[0] != 5 || response.value[1] != 0 {
      return MethodRefused;
    }
    var req := [5, 1, 0, 3, |host| % 256];
    req := req + host;
    req := req + Bytes16(port);
    stream.WriteAll(req);
    v := ReadReply(stream);
    assert v == Tunnel ==> all[2..][ReplyOf(all[2..]).1..] == all[Replies(all).1..];
  }

  method ReadReply(stream: ByteStream) returns (v: Verdict)
    requires stream.Valid()
    modifies stream`incoming
    ensures stream.Valid() && v == ReplyOf(old(stream.Rest())).0
    ensures v == Tunnel ==> stream.Rest() == old(stream.Rest())[ReplyOf(old(stream.Rest())).1..]
  {
    ghost var all := stream.Rest();
    var head := stream.ReadExact(4);
    if head == None {
      return Ended;
    }
    if head.value[0] != 5 || head.value[1] != 0 {
      return ConnectFailed(head.value[1]);
    }
    if !KnownType(head.value[3]) {
      return UnknownAddressType;
    }
    ghost var size := AddressSize(head.value[3], all[4..]);
    var drained := DrainAddress(stream, head.value[3]);
    if !drained {
      return Ended;
    }
    assert stream.Rest() == all[4..][size.value..] == all[4 + size.value..];
    var bound := stream.ReadExact(2);
    if bound == None {
      return Ended;
    }
    assert stream.Rest() == all[4 + size.value..][2..] == all[4 + size.value + 2..];
    return Tunnel;
  }

  /**
   The failures, byte by byte: a refused method selection, a failed connection with its code, an
   unknown address type, or a stream that ends too soon.
   */
  lemma FailuresMean(all: Bytes)
    ensures Replies(all).0 == MethodRefused <==> |all| >= 2 && (all[0] != 5 || all[1] != 0)
    ensures forall code :: Replies(all).0 == ConnectFailed(code)
              <==> && |all| >= 6 && all[0] == 5 && all[1] == 0
                   && (all[2] != 5 || all[3] != 0) && code == all[3]
    ensures Replies(all).0 == UnknownAddressType
       <==> && |all| >= 6 && all[0] == 5 && all[1] == 0 && all[2] == 5 && all[3] == 0
            && all[5] != 1 && all[5] != 3 && all[5] != 4
    ensures Replies(all).0 == Ended
       <==> || |all| < 2
            || (all[0] == 5 && all[1] == 0
                && (|all| < 6
                    || (all[2] == 5 && all[3] == 0
                        && ((all[5] == 1 && |all| < 12) || (all[5] == 4 && |all| < 24)
                            || (all[5] == 3 && (|all| < 7 || |all| < 9 + all[6] as int))))))
  {
    if |all| >= 6 {
      assert all[2..][0] == all[2] && all[2..][1] == all[3] && all[2..][3] == all[5];
      assert all[2..][4..] == all[6..];
    }
  }

  // ----- the replies a server may send -----

  /** The bound address of a successful reply. */
  datatype Bound = V4(address: Bytes) | Domain(name: Bytes) | V6(address: Bytes)

  predicate WellFormed(b: Bound) {
    match b
    case V4(a) => |a| == 4
    case Domain(n) => |n| < 256
    case V6(a) => |a| == 16
  }

  function BoundBytes(b: Bound): Bytes
    requires WellFormed(b)
  {
    match b
    case V4(a) => [1] + a
    case Domain(n) => [3, |n|] + n
    case V6(a) => [4] + a
  }

  /** A method selection and a success reply, as the protocol writes them (sections 3 and 6 of RFC 1928). */
  function ServerReplies(reserved: byte, b: Bound, port: u16): Bytes
    requires WellFormed(b)
  {
    [5, 0] + [5, 0, reserved] + BoundBytes(b) + Bytes16(port)
  }

  lemma ReplyReads(reserved: byte, b: Bound, port: u16, tunnel: Bytes, rest: Bytes)
    requires WellFormed(b) && rest == [5, 0, reserved] + BoundBytes(b) + Bytes16(port) + tunnel
    ensures ReplyOf(rest) == (Tunnel, 5 + |BoundBytes(b)|)
  {
    assert rest[3] == BoundBytes(b)[0];
    assert b.Domain? ==> rest[4..][0] == BoundBytes(b)[1] == |b.name|;
  }

  /** After the two replies of a server the very next byte belongs to the tunnel. */
  lemma TunnelStartsAtNextByte(reserved: byte, b: Bound, port: u16, tunnel: Bytes)
    requires WellFormed(b)
    ensures var all := ServerReplies(reserved, b, port) + tunnel;
      Replies(all).0 == Tunnel && all[Replies(all).1..] == tunnel
  {
    hide BoundBytes, ReplyOf, Bytes16;
    var said := ServerReplies(reserved, b, port);
    var all := said + tunnel;
    assert all[0] == 5 && all[1] == 0;
    assert all[2..] == [5, 0, reserved] + BoundBytes(b) + Bytes16(port) + tunnel;
    ReplyReads(reserved, b, port, tunnel, all[2..]);
    assert Replies(all).1 == |said|;
    assert all[|said|..] == tunnel;
  }

  /** And only such replies open a tunnel: what was taken is one selection and one success reply. */
  lemma TunnelTakesExactlyTheReplies(all: Bytes)
    requires Replies(all).0 == Tunnel
    ensures exists reserved: byte, b: Bound, port: u16 ::
              WellFormed(b) && all[..Replies(all).1] == ServerReplies(reserved, b, port)
  {
    var size := Replies(all).1;
    assert all[2..][3] == all[5] && all[2..][4..] == all[6..];
    var b := if all[5] == 1 then V4(all[6..10])
             else if all[5] == 4 then V6(all[6..22])
             else Domain(all[7..7 + all[6] as int]);
    var port := Number16(all[size - 2..size]);
    assert WellFormed(b);
    assert BoundBytes(b) == all[5..size - 2];
    assert Bytes16(port) == all[size - 2..size];
    assert all[..size] == all[..2] + all[2..5] + all[5..size - 2] + all[size - 2..size];
    assert all[..2] == [5, 0] && all[2..5] == [5, 0, all[4]];
    assert all[..size] == ServerReplies(all[4], b, port);
  }

  // ----- the request as the server reads it -----

  /** A server's reading of a connect request for a domain name (section 4 of RFC 1928). */
  function ParseRequest(b: Bytes): Option<(Bytes, u16)> {
    if |b| < 5 || b[..4] != [5, 1, 0, 3] then None
    else
      var end := 5 + b[4] as int;
      if |b| != end + 2 then None else Some((b[5..end], b[end] as int * 256 + b[end + 1] as int))
  }

  /** The request says the host and the port it was made from exactly when the host fits its length octet. */
  lemma RequestRoundTrip(host: Bytes, port: u16)
    ensures ParseRequest(ConnectTo(host, port)) == Some((host, port)) <==> |host| <= 255
  {
    var b := ConnectTo(host, port);
    assert b[..4] == [5, 1, 0, 3] && b[4] == |host| % 256;
    if |host| <= 255 {
      assert b[5..5 + |host|] == host;
      assert b[5 + |host|..] == Bytes16(port);
      Number16OfBytes(port);
    }
  }
}
