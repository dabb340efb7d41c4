/**
 A TCP stream as the proxy handshakes of src/client/proxy.rs see it: bytes arrive in
 segments of any size, and a read returns at most one of them.
 */
module ByteStreams {
  import opened Wrappers

  function Flatten(segments: seq<Bytes>): Bytes {
    if segments == [] then [] else segments[0] + Flatten(segments[1..])
  }

  lemma {:induction false} FlattenCut(segments: seq<Bytes>, i: nat)
    requires i <= |segments|
    ensures Flatten(segments) == Flatten(segments[..i]) + Flatten(segments[i..])
  {
    if i > 0 {
      FlattenCut(segments[1..], i - 1);
      assert segments[..i][1..] == segments[1..][..i - 1];
      assert segments[1..][i - 1..] == segments[i..];
      assert Flatten(segments[..i]) == segments[0] + Flatten(segments[1..][..i - 1]);
    }
  }

  function Smaller(a: nat, b: nat): nat {
    if a < b then a else b
  }

  class ByteStream {
    var incoming: seq<Bytes>   // what is still to arrive, segment by segment
    var outgoing: Bytes        // what has been written

    predicate Valid()
      reads this
    {
      forall i :: 0 <= i < |incoming| ==> incoming[i] != []
    }

    function Rest(): Bytes
      reads this
    {
      Flatten(incoming)
    }

    constructor (segments: seq<Bytes>)
      requires forall i :: 0 <= i < |segments| ==> segments[i] != []
      ensures Valid() && incoming == segments && outgoing == []
    {
      incoming, outgoing := segments, [];
    }

    method WriteAll(bytes: Bytes)
      modifies this`outgoing
      ensures outgoing == old(outgoing) + bytes
    {
      outgoing := outgoing + bytes;
    }

    /**
     One read into the free end of a buffer: what fits of the next segment; zero when
     there is no room or nothing more will come.
     */
    method Read(buf: array<byte>, from: nat) returns (n: nat)
      requires Valid() && from <= buf.Length
      modifies this`incoming, buf
      ensures Valid() && n <= buf.Length - from
      ensures n == 0 <==> from == buf.Length || old(incoming) == []
      ensures n == 0 ==> incoming == old(incoming)
      ensures n == 0 && from < buf.Length ==> Rest() == []
      ensures old(Rest()) == buf[from..from + n] + Rest()
      ensures buf[..from] == old(buf[..from])
      ensures n > 0 ==> n == Smaller(|old(incoming)[0]|, buf.Length - from)
      ensures n > 0 && n == |old(incoming)[0]| ==> incoming == old(incoming)[1..]
    {
      if from == buf.Length || incoming == [] {
        n := 0;
        return;
      }
      var seg := incoming[0];
      n := Smaller(|seg|, buf.Length - from);
      forall i | 0 <= i < n {
        buf[from + i] := seg[i];
      }
      assert buf[from..from + n] == seg[..n];
      assert seg == seg[..n] + seg[n..];
      if n == |seg| {
        incoming := incoming[1..];
      } else {
        incoming := [seg[n..]] + incoming[1..];
        assert incoming[1..] == old(incoming)[1..];
      }
    }

    /** Reads exactly `n` bytes, across segments; nothing when the stream ends before. */
    method ReadExact(n: nat) returns (got: Option<Bytes>)
      requires Valid()
      modifies this`incoming
      ensures Valid()
      ensures n <= |old(Rest())| ==> got == Some(old(Rest())[..n]) && Rest() == old(Rest())[n..]
      ensures n > |old(Rest())| ==> got == None && Rest() == []
    {
      hide Flatten;
      ghost var all := Rest();
      var buf := new byte[n];
      var have := 0;
      while have < n
        invariant Valid() && 0 <= have <= n && fresh(buf)
        invariant all == buf[..have] + Rest()
        decreases n - have
      {
        ghost var before := buf[..have];
        var k := Read(buf, have);
        if k == 0 {
          assert |all| == have;
          return None;
        }
        assert buf[..have + k] == before + buf[have..have + k];
        have := have + k;
      }
      assert buf[..] == buf[..have];
      assert |all| == n + |Rest()|;
      assert all[..n] == buf[..] && all[n..] == Rest();
      return Some(buf[..]);
    }
  }
}
