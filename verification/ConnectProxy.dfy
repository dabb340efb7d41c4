/** The HTTP CONNECT handshake of src/client/proxy.rs. */
module ConnectProxy {
  import opened Wrappers
  import opened Responses
  import opened Decimals
  import opened ByteStreams

  const BUFFER: nat := 4096

  /** CR LF CR LF. */
  const BLANK_LINE: Bytes := [13, 10, 13, 10]

  /** Text whose characters are single bytes. */
  function Ascii(s: string): Bytes
    requires forall i :: 0 <= i < |s| ==> s[i] < 128 as char
  {
    seq(|s|, i requires 0 <= i < |s| => s[i] as int)
  }

  const OK_11: Bytes := [72, 84, 84, 80, 47, 49, 46, 49, 32, 50, 48, 48]   // HTTP/1.1 200
  const OK_10: Bytes := [72, 84, 84, 80, 47, 49, 46, 48, 32, 50, 48, 48]   // HTTP/1.0 200

  function ConnectRequest(host: Bytes, port: nat): Bytes {
    var target := host + [58] + Ascii(Decimal(port));
    Ascii("CONNECT ") + target + Ascii(" HTTP/1.1\r\nHost: ") + target + Ascii("\r\n\r\n")
  }

  datatype Verdict = Accepted | Rejected | Aborted

  predicate SaysOk(b: Bytes) {
    OK_11 <= b || OK_10 <= b
  }

  /**
   The verdict as a function of the bytes alone: the blank line must end within the first
   4096 bytes, and then the stream must begin with a 200 status line.
   */
  function VerdictOf(all: Bytes): Verdict {
    if !Contains(all[..Smaller(BUFFER, |all|)], BLANK_LINE) then Aborted
    else if SaysOk(all) then Accepted
    else Rejected
  }

  /** Where the first blank line ends. */
  function HeaderEnd(all: Bytes): (e: nat)
    requires Contains(all, BLANK_LINE)
    ensures 4 <= e <= |all| && OccursAt(all, BLANK_LINE, e - 4)
    ensures forall i: nat :: i < e - 4 ==> !OccursAt(all, BLANK_LINE, i)
  {
    EndFrom(all, 0)
  }

  function EndFrom(all: Bytes, i: nat): (e: nat)
    requires exists j: nat :: i <= j <= |all| && OccursAt(all, BLANK_LINE, j)
    requires forall j: nat :: j < i ==> !OccursAt(all, BLANK_LINE, j)
    ensures 4 <= e <= |all| && OccursAt(all, BLANK_LINE, e - 4)
    ensures forall j: nat :: j < e - 4 ==> !OccursAt(all, BLANK_LINE, j)
    decreases |all| - i
  {
    if OccursAt(all, BLANK_LINE, i) then i + 4 else EndFrom(all, i + 1)
  }

  /** At byte e the stream has CR LF CR LF. */
  predicate BlankAt(all: Bytes, e: nat) {
    e + 4 <= |all| && all[e] == 13 && all[e + 1] == 10 && all[e + 2] == 13 && all[e + 3] == 10
  }

  lemma BlankHere(all: Bytes, m: nat, e: nat)
    requires m <= |all|
    ensures e <= m && OccursAt(all[..m], BLANK_LINE, e) <==> BlankAt(all, e) && e + 4 <= m
  {
    if e + 4 <= m {
      assert all[..m][e..e + 4] == [all[e], all[e + 1], all[e + 2], all[e + 3]];
    }
  }

  /**
   The verdict, byte by byte: the handshake fails unless CR LF CR LF ends within the first 4096
   bytes, and then the stream must begin with "HTTP/1.1 200" or "HTTP/1.0 200".
   */
  lemma VerdictMeans(all: Bytes)
    ensures VerdictOf(all) == Aborted <==> forall e: nat :: BlankAt(all, e) ==> e + 4 > 4096
    ensures VerdictOf(all) == Accepted
       <==> && (exists e: nat :: BlankAt(all, e) && e + 4 <= 4096)
            && (Ascii("HTTP/1.1 200") <= all || Ascii("HTTP/1.0 200") <= all)
  {
    hide BlankAt, OccursAt;
    var m := Smaller(BUFFER, |all|);
    forall e: nat
      ensures e <= m && OccursAt(all[..m], BLANK_LINE, e) <==> BlankAt(all, e) && e + 4 <= m
      ensures BlankAt(all, e) ==> e + 4 <= |all|
    {
      BlankHere(all, m, e);
      BlankInside(all, e);
    }
    StatusLines();
  }

  lemma BlankInside(all: Bytes, e: nat)
    ensures BlankAt(all, e) ==> e + 4 <= |all|
  {
  }

  lemma StatusLines()
    ensures Ascii("HTTP/1.1 200") == OK_11 && Ascii("HTTP/1.0 200") == OK_10
  {
  }

  /** A prefix holds a blank line exactly when it reaches the end of the first one. */
  lemma PrefixContains(all: Bytes, m: nat)
    requires m <= |all|
    ensures Contains(all[..m], BLANK_LINE) <==> Contains(all, BLANK_LINE) && HeaderEnd(all) <= m
  {
    if Contains(all[..m], BLANK_LINE) {
      var i: nat :| i <= m && OccursAt(all[..m], BLANK_LINE, i);
      assert all[..m][i..i + 4] == all[i..i + 4];
      assert OccursAt(all, BLANK_LINE, i);
    }
    if Contains(all, BLANK_LINE) && HeaderEnd(all) <= m {
      var i := HeaderEnd(all) - 4;
      assert all[..m][i..i + 4] == all[i..i + 4];
      assert OccursAt(all[..m], BLANK_LINE, i);
    }
  }

  /** Once a blank line is in, the status line can no longer change. */
  lemma StatusSettled(all: Bytes, m: nat)
    requires m <= |all| && Contains(all[..m], BLANK_LINE)
    ensures SaysOk(all[..m]) <==> SaysOk(all)
  {
    var i: nat :| i <= m && OccursAt(all[..m], BLANK_LINE, i);
    BlankHere(all, m, i);
    assert all[i] == 13;
    assert OK_11 <= all ==> i >= 12;
    assert OK_10 <= all ==> i >= 12;
  }

  function TotalSize(segments: seq<Bytes>): nat {
    |Flatten(segments)|
  }

  /** The first segment boundary at or after byte `e`. */
  function BoundaryFrom(segments: seq<Bytes>, e: nat): nat
    requires e <= TotalSize(segments)
  {
    if e == 0 then 0
    else
      var head := |segments[0]|;
      if e <= head then head else head + BoundaryFrom(segments[1..], e - head)
  }

  lemma {:induction false} BoundaryAt(segments: seq<Bytes>, e: nat, i: nat)
    requires i < |segments| && TotalSize(segments[..i]) < e <= TotalSize(segments[..i + 1])
    ensures e <= TotalSize(segments)
    ensures BoundaryFrom(segments, e) == TotalSize(segments[..i + 1])
  {
    FlattenCut(segments, i + 1);
    var head := |segments[0]|;
    if i == 0 {
      assert segments[..1][1..] == [];
      assert Flatten(segments[..1]) == segments[0] + [];
    } else {
      assert segments[..i][1..] == segments[1..][..i - 1] && segments[..i + 1][1..] == segments[1..][..i];
      assert segments[..i][0] == segments[0] && segments[..i + 1][0] == segments[0];
      BoundaryAt(segments[1..], e - head, i - 1);
    }
  }

  /**
   The read loop. Its verdict depends on the bytes alone, however they are cut into
   segments; and once a blank line has come it has taken exactly the bytes up to the
   segment boundary at or after the end of that line, capped by the buffer.
   */
  method DialHttp(stream: ByteStream, host: Bytes, port: nat) returns (v: Verdict, ghost taken: nat)
    requires stream.Valid()
    modifies stream
    ensures v == VerdictOf(old(stream.Rest()))
    ensures stream.outgoing == old(stream.outgoing) + ConnectRequest(host, port)
    ensures taken <= |old(stream.Rest())| && stream.Rest() == old(stream.Rest())[taken..]
    ensures v != Aborted ==>
              && Contains(old(stream.Rest()), BLANK_LINE)
              && taken == Smaller(4096, BoundaryFrom(old(stream.incoming), HeaderEnd(old(stream.Rest()))))
  {
    ghost var all, segments := stream.Rest(), stream.incoming;
    stream.WriteAll(ConnectRequest(host, port));
    var buf := new byte[BUFFER];
    var read := 0;
    ghost var i := 0;
    assert segments[0..] == segments && Flatten(segments[..0]) == [];
    while true
      invariant stream.Valid() && 0 <= read <= BUFFER && read <= |all| && fresh(buf) && buf.Length == BUFFER
      invariant stream.outgoing == old(stream.outgoing) + ConnectRequest(host, port)
      invariant buf[..read] == all[..read] && stream.Rest() == all[read..]
      invariant !Contains(all[..read], BLANK_LINE)
      invariant 0 <= i <= |segments|
      invariant read == BUFFER || (stream.incoming == segments[i..] && read == TotalSize(segments[..i]))
      decreases BUFFER - read
    {
      taken := read;
      var n := stream.Read(buf, read);
      if n == 0 {
        assert read == Smaller(BUFFER, |all|);
        return Aborted, taken;
      }
      ghost var before := read;
      read := read + n;
      Taken(all, segments, i, before, n);
      assert buf[..read] == buf[..before] + buf[before..read];
      assert buf[..read] == all[..read];
      taken := read;
      if Contains(buf[..read], BLANK_LINE) {
        PrefixContains(all, before);
        PrefixContains(all, read);
        PrefixContains(all, Smaller(BUFFER, |all|));
        StatusSettled(all, read);
        Reached(segments, HeaderEnd(all), i, before, read);
        if SaysOk(buf[..read]) {
          return Accepted, taken;
        } else {
          return Rejected, taken;
        }
      }
      i := i + 1;
    }
  }

  /** A read that begins at the boundary before segment i ends within it. */
  lemma Taken(all: Bytes, segments: seq<Bytes>, i: nat, before: nat, n: nat)
    requires all == Flatten(segments) && i < |segments| && before == TotalSize(segments[..i])
    requires 0 < n <= |segments[i]|
    ensures TotalSize(segments[..i + 1]) == before + |segments[i]|
    ensures before + n <= |all|
  {
    FlattenCut(segments, i);
    FlattenCut(segments[..i + 1], i);
    assert segments[..i + 1][..i] == segments[..i] && segments[..i + 1][i..] == [segments[i]];
    assert Flatten([segments[i]]) == segments[i] + Flatten([]);
    assert Flatten(segments[i..]) == segments[i] + Flatten(segments[i..][1..]);
  }

  /** The read that completes the blank line ends at the boundary after it, or where the buffer ends. */
  lemma Reached(segments: seq<Bytes>, e: nat, i: nat, before: nat, read: nat)
    requires i < |segments| && before == TotalSize(segments[..i]) < e <= read
    requires TotalSize(segments[..i + 1]) == before + |segments[i]|
    requires before < BUFFER && read == before + Smaller(|segments[i]|, BUFFER - before)
    ensures e <= TotalSize(segments)
    ensures read == Smaller(BUFFER, BoundaryFrom(segments, e))
  {
    BoundaryAt(segments, e, i);
  }

  /** The boundary is the byte itself exactly when some segments end there. */
  lemma {:induction false} BoundaryExact(segments: seq<Bytes>, e: nat)
    requires e <= TotalSize(segments)
    ensures e <= BoundaryFrom(segments, e) <= TotalSize(segments)
    ensures BoundaryFrom(segments, e) == e <==> exists i: nat :: i <= |segments| && TotalSize(segments[..i]) == e
    decreases |segments|
  {
    if e == 0 {
      assert segments[..0] == [];
      assert TotalSize(segments[..0]) == 0;
    } else {
      var head := |segments[0]|;
      if e > head {
        BoundaryExact(segments[1..], e - head);
        if i: nat :| i <= |segments| - 1 && TotalSize(segments[1..][..i]) == e - head {
          assert segments[..i + 1][1..] == segments[1..][..i];
          assert TotalSize(segments[..i + 1]) == e;
        }
      } else {
        assert Flatten(segments) == segments[0] + Flatten(segments[1..]);
        assert segments[..1][1..] == [] && segments[..1][0] == segments[0];
        assert Flatten(segments[..1]) == segments[0] + Flatten([]) == segments[0];
      }
      forall i: nat | i <= |segments| && TotalSize(segments[..i]) == e
        ensures BoundaryFrom(segments, e) == e
      {
        assert i > 0;
        assert segments[..i][1..] == segments[1..][..i - 1];
        assert TotalSize(segments[..i]) == head + TotalSize(segments[1..][..i - 1]);
        if e > head {
          assert TotalSize(segments[1..][..i - 1]) == e - head;
        }
      }
    }
  }

  /**
   The tunnel starts at the next byte exactly when the blank line ends where a segment
   does or where the buffer does; otherwise bytes of the tunnel are taken with it and lost.
   */
  lemma NothingSwallowed(segments: seq<Bytes>)
    requires Contains(Flatten(segments), BLANK_LINE) && HeaderEnd(Flatten(segments)) <= 4096
    ensures var e := HeaderEnd(Flatten(segments));
      Smaller(4096, BoundaryFrom(segments, e)) == e
      <==> e == 4096 || exists i: nat :: i <= |segments| && TotalSize(segments[..i]) == e
  {
    BoundaryExact(segments, HeaderEnd(Flatten(segments)));
  }

  // ----- the request as a proxy reads it -----

  /** The bytes before the first space or control character. */
  function Word(b: Bytes): (w: Bytes)
    ensures w <= b && forall i :: 0 <= i < |w| ==> w[i] > 32
    ensures |w| == |b| || b[|w|] <= 32
  {
    if b == [] || b[0] <= 32 then [] else [b[0]] + Word(b[1..])
  }

  predicate Digits(b: Bytes) {
    b != [] && forall i :: 0 <= i < |b| ==> 48 <= b[i] <= 57
  }

  /** The number that a run of digits denotes. */
  function Denoted(b: Bytes): nat
    requires Digits(b)
  {
    Value(seq(|b|, i requires 0 <= i < |b| => b[i] as char))
  }

  /** The last colon of a target. */
  function PortMark(b: Bytes): (i: nat)
    requires 58 in b
    ensures i < |b| && b[i] == 58 && 58 !in b[i + 1..]
  {
    if b[|b| - 1] == 58 then |b| - 1
    else
      assert b == b[..|b| - 1] + [b[|b| - 1]];
      PortMark(b[..|b| - 1])
  }

  /** Host and port of a target in authority form, cut at its last colon. */
  function ParseTarget(target: Bytes): Option<(Bytes, nat)> {
    if 58 !in target then None
    else
      var i := PortMark(target);
      if Digits(target[i + 1..]) then Some((target[..i], Denoted(target[i + 1..]))) else None
  }

  /** The rest of the request line, and a Host header that repeats the target. */
  function AfterTarget(target: Bytes): Bytes {
    Ascii(" HTTP/1.1\r\nHost: ") + target + Ascii("\r\n\r\n")
  }

  /** A proxy's reading of a CONNECT request (sections 3.2 and 3.2.3 of RFC 9112). */
  function ParseConnect(b: Bytes): Option<(Bytes, nat)> {
    if !(Ascii("CONNECT ") <= b) then None
    else
      var target := Word(b[|Ascii("CONNECT ")|..]);
      if b == Ascii("CONNECT ") + target + AfterTarget(target) then ParseTarget(target) else None
  }

  lemma PortText(port: nat)
    ensures var d := Ascii(Decimal(port)); Digits(d) && Denoted(d) == port && 58 !in d
  {
    var text := Decimal(port);
    var d := Ascii(text);
    assert seq(|d|, i requires 0 <= i < |d| => d[i] as char) == text;
    ValueOfDecimal(port);
  }

  lemma TargetWord(target: Bytes, rest: Bytes)
    requires (forall i :: 0 <= i < |target| ==> target[i] > 32) && rest != [] && rest[0] <= 32
    ensures Word(target + rest) == target
  {
    var w := Word(target + rest);
    assert w == (target + rest)[..|w|];
    assert (target + rest)[|target|] == rest[0];
  }

  lemma MarkAt(host: Bytes, digits: Bytes)
    requires 58 !in digits
    ensures PortMark(host + [58] + digits) == |host|
  {
    var target := host + [58] + digits;
    assert target[|host|] == 58;
    assert target[|host| + 1..] == digits;
  }

  lemma RequestParts(host: Bytes, port: nat)
    ensures var target := host + [58] + Ascii(Decimal(port));
      && ConnectRequest(host, port) == Ascii("CONNECT ") + target + AfterTarget(target)
      && |Ascii("CONNECT ")| == 8 && AfterTarget(target) != [] && AfterTarget(target)[0] == 32
  {
    Lengths();
  }

  lemma TargetReads(host: Bytes, port: nat)
    ensures ParseTarget(host + [58] + Ascii(Decimal(port))) == Some((host, port))
  {
    hide Ascii;
    var digits := Ascii(Decimal(port));
    var target := host + [58] + digits;
    PortText(port);
    MarkAt(host, digits);
    assert target[|host|] == 58 && target[..|host|] == host && target[|host| + 1..] == digits;
  }

  lemma PlainTarget(head: Bytes, target: Bytes)
    requires head == Ascii("CONNECT ") && (forall i :: 0 <= i < |target| ==> target[i] > 32)
    requires AfterTarget(target) != [] && AfterTarget(target)[0] == 32
    ensures ParseConnect(head + target + AfterTarget(target)) == ParseTarget(target)
  {
    hide Ascii, AfterTarget, ParseTarget;
    var b := head + target + AfterTarget(target);
    assert b[|head|..] == target + AfterTarget(target);
    TargetWord(target, AfterTarget(target));
  }

  /** A target that stops short of the host names another one. */
  lemma OtherHostReads(host: Bytes, i: nat, b: Bytes)
    requires i < |host| && host[i] <= 32 && |Ascii("CONNECT ")| == 8
    requires |b| >= 8 + |host| && b[8..8 + |host|] == host
    ensures ParseConnect(b).Some? ==> |ParseConnect(b).value.0| < |host|
  {
    hide Ascii, Denoted, Digits, AfterTarget;
    assert b[8..][i] == b[8..8 + |host|][i];
  }

  /** The request says the host and the port it was made from exactly when the host has no space or control byte. */
  lemma ConnectRoundTrip(host: Bytes, port: nat)
    ensures ParseConnect(ConnectRequest(host, port)) == Some((host, port))
       <==> forall i :: 0 <= i < |host| ==> host[i] > 32
  {
    hide ParseConnect, ParseTarget, ConnectRequest, AfterTarget, Ascii, Denoted;
    RequestParts(host, port);
    var b := ConnectRequest(host, port);
    if forall i :: 0 <= i < |host| ==> host[i] > 32 {
      var target := host + [58] + Ascii(Decimal(port));
      PortText(port);
      assert forall i :: 0 <= i < |target| ==> target[i] > 32;
      PlainTarget(Ascii("CONNECT "), target);
      TargetReads(host, port);
    } else {
      var i :| 0 <= i < |host| && host[i] <= 32;
      assert b[8..8 + |host|] == host;
      OtherHostReads(host, i, b);
    }
  }

  lemma Lengths()
    ensures |Ascii("CONNECT ")| == 8
    ensures Ascii(" HTTP/1.1\r\nHost: ") != [] && Ascii(" HTTP/1.1\r\nHost: ")[0] == 32
  {
  }
}
