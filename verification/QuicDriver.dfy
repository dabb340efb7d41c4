/**
 The event loop of src/client/quic.rs: commands come in, stream events of many requests
 arrive interleaved, and every caller is answered through its own one-shot channel.
 */
module QuicDriver {
  import opened Wrappers
  import opened HeaderMaps
  import opened Redirects
  import opened ByteStreams

  type StreamId = nat

  /** One field of an HTTP/3 header block, as raw bytes. */
  datatype RawHeader = RawHeader(name: Bytes, value: Bytes)

  /** An event of one stream; `Data` carries what successive reads of its body return. */
  datatype Event = Headers(list: seq<RawHeader>) | Data(chunks: seq<Bytes>) | Finished | Reset(code: nat) | Other

  /** The parsers the driver applies to header bytes: any functions at all. */
  datatype Codec = Codec(
    name: Bytes -> Option<HeaderName>,
    value: Bytes -> Option<string>,
    status: Bytes -> Option<nat>)

  datatype Failure = NotEstablished | Refused | ResetByPeer(code: nat)

  type Answer = Result<Response, Failure>

  /** A request under way on a stream; the token stands for the sender half of its channel. */
  datatype Pending = Pending(status: Option<nat>, headers: seq<Field>, body: Bytes, url: string, token: nat)

  function Opened(url: string, token: nat): Pending {
    Pending(None, [], [], url, token)
  }

  /** The bytes of ":status". */
  const STATUS_NAME: Bytes := [58, 115, 116, 97, 116, 117, 115]

  function TakeHeader(cd: Codec, p: Pending, h: RawHeader): Pending {
    if h.name == STATUS_NAME then
      if cd.status(h.value).Some? then p.(status := cd.status(h.value)) else p
    else if cd.name(h.name).Some? && cd.value(h.value).Some? then
      p.(headers := Add(p.headers, cd.name(h.name).value, HeaderValue(cd.value(h.value).value, false)))
    else p
  }

  function TakeHeaders(cd: Codec, p: Pending, list: seq<RawHeader>): Pending
    decreases list
  {
    if list == [] then p else TakeHeaders(cd, TakeHeader(cd, p, list[0]), list[1..])
  }

  /** The bytes the body reads yield: reading stops at the first empty one. */
  function ReadBody(chunks: seq<Bytes>): Bytes {
    if chunks == [] || chunks[0] == [] then [] else chunks[0] + ReadBody(chunks[1..])
  }

  /** The reads before the first one that returns nothing. */
  function UpToEmpty(chunks: seq<Bytes>): (r: seq<Bytes>)
    ensures r <= chunks && forall i :: 0 <= i < |r| ==> r[i] != []
    ensures |r| == |chunks| || chunks[|r|] == []
  {
    if chunks == [] || chunks[0] == [] then [] else [chunks[0]] + UpToEmpty(chunks[1..])
  }

  /** A body event yields every read before the first empty one, and nothing after it. */
  lemma {:induction false} ReadBodyMeans(chunks: seq<Bytes>, k: nat)
    requires k <= |chunks| && (forall i :: 0 <= i < k ==> chunks[i] != []) && (k == |chunks| || chunks[k] == [])
    ensures ReadBody(chunks) == Flatten(chunks[..k]) && UpToEmpty(chunks) == chunks[..k]
  {
    if k > 0 {
      ReadBodyMeans(chunks[1..], k - 1);
      assert chunks[..k] == [chunks[0]] + chunks[1..][..k - 1];
      assert chunks[..k][1..] == chunks[1..][..k - 1];
    }
  }

  function Delivered(p: Pending): Response {
    Response(p.status.GetOr(200), p.headers, p.body, p.url)
  }

  // ----- the driver's table of requests -----

  datatype Reply = Reply(token: nat, answer: Answer)

  /** The requests under way and what has gone out through the channels, in order. */
  datatype Table = Table(pending: map<StreamId, Pending>, replies: seq<Reply>)

  const EMPTY := Table(map[], [])

  /** What the loop does to the table, one thing at a time. */
  datatype Deed =
    | Admit(sid: StreamId, url: string, token: nat)
    | Reject(token: nat, failure: Failure)
    | Happen(on: StreamId, event: Event)

  function Do(cd: Codec, d: Table, m: Deed): Table {
    match m
    case Admit(sid, url, token) => d.(pending := d.pending[sid := Opened(url, token)])
    case Reject(token, failure) => d.(replies := d.replies + [Reply(token, Err(failure))])
    case Happen(on, event) =>
      if on !in d.pending then d
      else
        var p := d.pending[on];
        match event
        case Headers(list) => d.(pending := d.pending[on := TakeHeaders(cd, p, list)])
        case Data(chunks) => d.(pending := d.pending[on := p.(body := p.body + ReadBody(chunks))])
        case Finished => Table(d.pending - {on}, d.replies + [Reply(p.token, Ok(Delivered(p)))])
        case Reset(code) => Table(d.pending - {on}, d.replies + [Reply(p.token, Err(ResetByPeer(code)))])
        case Other => d
  }

  function DoAll(cd: Codec, d: Table, ms: seq<Deed>): Table {
    if ms == [] then d else Do(cd, DoAll(cd, d, ms[..|ms| - 1]), ms[|ms| - 1])
  }

  lemma {:induction false} DoAllJoin(cd: Codec, d: Table, ms: seq<Deed>, ns: seq<Deed>)
    ensures DoAll(cd, d, ms + ns) == DoAll(cd, DoAll(cd, d, ms), ns)
  {
    if ns == [] {
      assert ms + ns == ms;
    } else {
      var last := |ns| - 1;
      assert (ms + ns)[..|ms + ns| - 1] == ms + ns[..last];
      DoAllJoin(cd, d, ms, ns[..last]);
    }
  }

  // ----- the loop -----

  datatype Command = Command(url: string, token: nat)

  /** What one turn of the loop meets: `stream` and `layer` are the answers of the HTTP/3 library. */
  datatype Input =
    | Closed
    | Submitted(cmd: Command, stream: Option<StreamId>)
    | Packet(established: bool, layer: bool, polled: seq<(StreamId, Event)>)
    | ReadFailed
    | Timer

  /** The turn ends the loop: the connection is closed, or its HTTP/3 layer cannot be built. */
  predicate Ends(h3: bool, i: Input) {
    i.Closed? || (i.Packet? && i.established && !h3 && !i.layer)
  }

  function LayerAfter(h3: bool, i: Input): bool {
    h3 || (i.Packet? && i.established && i.layer)
  }

  function Happenings(polled: seq<(StreamId, Event)>): seq<Deed> {
    seq(|polled|, i requires 0 <= i < |polled| => Happen(polled[i].0, polled[i].1))
  }

  function DeedsOf(h3: bool, i: Input): seq<Deed> {
    match i
    case Submitted(cmd, stream) =>
      if !h3 then [Reject(cmd.token, NotEstablished)]
      else if stream.Some? then [Admit(stream.value, cmd.url, cmd.token)]
      else [Reject(cmd.token, Refused)]
    case Packet(_, _, polled) => if LayerAfter(h3, i) then Happenings(polled) else []
    case _ => []
  }

  /** Everything the loop does on a sequence of turns, until it ends. */
  function Deeds(h3: bool, inputs: seq<Input>): seq<Deed>
    decreases inputs
  {
    if inputs == [] || Ends(h3, inputs[0]) then []
    else DeedsOf(h3, inputs[0]) + Deeds(LayerAfter(h3, inputs[0]), inputs[1..])
  }

  // ----- what a run does, turn by turn -----

  /** Some packet among the first n turns found the connection established and its HTTP/3 layer built. */
  ghost predicate LayerUp(inputs: seq<Input>, n: nat) {
    exists m :: 0 <= m < n && m < |inputs| && inputs[m].Packet? && inputs[m].established && inputs[m].layer
  }

  /** Turn m ends the loop: the connection is closed, or it is established and has no HTTP/3 layer to be built. */
  ghost predicate EndsAt(inputs: seq<Input>, m: nat) {
    && m < |inputs|
    && (inputs[m].Closed?
        || (inputs[m].Packet? && inputs[m].established && !inputs[m].layer && !LayerUp(inputs, m)))
  }

  /** No turn among the first n ends the loop. */
  ghost predicate StillRunning(inputs: seq<Input>, n: nat) {
    forall m :: 0 <= m < n ==> !EndsAt(inputs, m)
  }

  /** The deeds of turn n, given whether the HTTP/3 layer is up before and after it. */
  function TurnDeeds(i: Input, before: bool, after: bool): seq<Deed> {
    match i
    case Submitted(cmd, None) => [Reject(cmd.token, if before then Refused else NotEstablished)]
    case Submitted(cmd, Some(sid)) =>
      if before then [Admit(sid, cmd.url, cmd.token)] else [Reject(cmd.token, NotEstablished)]
    case Packet(_, _, polled) =>
      if after then seq(|polled|, k requires 0 <= k < |polled| => Happen(polled[k].0, polled[k].1)) else []
    case _ => []
  }

  lemma {:induction false} DeedsStop(h3: bool, inputs: seq<Input>, more: seq<Input>)
    requires forall m :: 0 <= m < |inputs| ==> !Ends(LayerBefore(h3, inputs, m), inputs[m])
    ensures Deeds(h3, inputs + more) == Deeds(h3, inputs) + Deeds(LayerBefore(h3, inputs, |inputs|), more)
    decreases |inputs|
  {
    if inputs == [] {
      assert inputs + more == more;
    } else {
      var next := LayerAfter(h3, inputs[0]);
      assert !Ends(LayerBefore(h3, inputs, 0), inputs[0]);
      forall m | 0 <= m < |inputs|
        ensures LayerBefore(next, inputs[1..], m) == LayerBefore(h3, inputs, m + 1)
      {
        LayerShift(h3, inputs, m);
      }
      forall m | 0 <= m < |inputs| - 1
        ensures !Ends(LayerBefore(next, inputs[1..], m), inputs[1..][m])
      {
        assert !Ends(LayerBefore(h3, inputs, m + 1), inputs[m + 1]);
      }
      DeedsStop(next, inputs[1..], more);
      assert (inputs + more)[1..] == inputs[1..] + more;
      Associate(DeedsOf(h3, inputs[0]), Deeds(next, inputs[1..]),
                Deeds(LayerBefore(next, inputs[1..], |inputs| - 1), more));
    }
  }

  /** Whether the layer is up before turn n of a loop that has not ended. */
  function LayerBefore(h3: bool, inputs: seq<Input>, n: nat): bool
    requires n <= |inputs|
  {
    if n == 0 then h3 else LayerAfter(LayerBefore(h3, inputs, n - 1), inputs[n - 1])
  }

  lemma {:induction false} LayerShift(h3: bool, inputs: seq<Input>, n: nat)
    requires n < |inputs|
    ensures LayerBefore(LayerAfter(h3, inputs[0]), inputs[1..], n) == LayerBefore(h3, inputs, n + 1)
  {
    if n > 0 {
      LayerShift(h3, inputs, n - 1);
      assert inputs[1..][n - 1] == inputs[n];
    }
  }

  lemma {:induction false} LayerMeans(inputs: seq<Input>, more: nat, n: nat)
    requires n <= more <= |inputs|
    ensures LayerBefore(false, inputs[..more], n) <==> LayerUp(inputs, n)
  {
    if n > 0 {
      LayerMeans(inputs, more, n - 1);
      if LayerUp(inputs, n - 1) {
        var m :| 0 <= m < n - 1 && inputs[m].Packet? && inputs[m].established && inputs[m].layer;
        assert m < n;
      }
    }
  }

  /**
   What turn n adds to a run, read off the turns alone. Before the HTTP/3 layer is up, which
   takes a packet that finds the connection established, every command is rejected as such;
   afterwards it is admitted under the stream it got or refused; a packet makes the polled
   events happen, in order; and nothing is done from the turn on that ends the loop.
   */
  lemma DeedsOfTurn(inputs: seq<Input>, n: nat)
    requires n < |inputs|
    ensures StillRunning(inputs, n + 1) ==>
              Deeds(false, inputs[..n + 1])
              == Deeds(false, inputs[..n]) + TurnDeeds(inputs[n], LayerUp(inputs, n), LayerUp(inputs, n + 1))
    ensures StillRunning(inputs, n) && EndsAt(inputs, n) ==> Deeds(false, inputs) == Deeds(false, inputs[..n])
  {
    hide Deeds, DeedsOf, TurnDeeds;
    LayerMeans(inputs, n, n);
    LayerMeans(inputs, n + 1, n + 1);
    if StillRunning(inputs, n) {
      var front := inputs[..n];
      forall m | 0 <= m < n
        ensures !Ends(LayerBefore(false, front, m), front[m])
      {
        LayerMeans(inputs, n, m);
        assert !EndsAt(inputs, m);
      }
      DeedsStop(false, front, inputs[n..]);
      DeedsStop(false, front, [inputs[n]]);
      assert front + inputs[n..] == inputs && front + [inputs[n]] == inputs[..n + 1];
      OneTurn(LayerUp(inputs, n), inputs[n..]);
      OneTurn(LayerUp(inputs, n), [inputs[n]]);
      assert EndsAt(inputs, n) <==> Ends(LayerUp(inputs, n), inputs[n]);
      assert Deeds(false, front) + [] == Deeds(false, front);
      assert LayerUp(inputs, n + 1) <==> LayerAfter(LayerUp(inputs, n), inputs[n]) by {
        LayerMeans(inputs, n + 1, n);
        assert inputs[..n + 1][n] == inputs[n];
      }
    }
  }

  lemma OneTurn(h3: bool, rest: seq<Input>)
    requires rest != []
    ensures Ends(h3, rest[0]) ==> Deeds(h3, rest) == []
    ensures !Ends(h3, rest[0]) && |rest| == 1
        ==> Deeds(h3, rest) == TurnDeeds(rest[0], h3, LayerAfter(h3, rest[0]))
  {
    if !Ends(h3, rest[0]) && |rest| == 1 {
      assert rest[1..] == [];
      assert DeedsOf(h3, rest[0]) + [] == DeedsOf(h3, rest[0]);
    }
  }

  lemma Associate(a: seq<Deed>, b: seq<Deed>, c: seq<Deed>)
    ensures a + (b + c) == (a + b) + c
  {
  }

  class Driver {
    const cd: Codec
    var h3: bool
    var running: bool
    var pending: map<StreamId, Pending>
    var replies: seq<Reply>

    constructor (cd: Codec)
      ensures this.cd == cd && !h3 && running && Contents() == EMPTY
    {
      this.cd, h3, running, pending, replies := cd, false, true, map[], [];
    }

    function Contents(): Table
      reads this
    {
      Table(pending, replies)
    }

    method Submit(cmd: Command, stream: Option<StreamId>)
      modifies this`pending, this`replies
      ensures Contents() == DoAll(cd, old(Contents()), DeedsOf(h3, Submitted(cmd, stream)))
      ensures if h3 && stream.Some?
              then replies == old(replies)
                   && pending == old(pending)[stream.value := Pending(None, [], [], cmd.url, cmd.token)]
              else pending == old(pending)
                   && replies == old(replies) + [Reply(cmd.token, Err(if h3 then Refused else NotEstablished))]
    {
      assert forall m :: DoAll(cd, Contents(), [m]) == Do(cd, Contents(), m) by {
        forall m
          ensures DoAll(cd, Contents(), [m]) == Do(cd, Contents(), m)
        {
          assert [m][..0] == [];
        }
      }
      if !h3 {
        replies := replies + [Reply(cmd.token, Err(NotEstablished))];
      } else {
        match stream {
          case Some(sid) => pending := pending[sid := Pending(None, [], [], cmd.url, cmd.token)];
          case None => replies := replies + [Reply(cmd.token, Err(Refused))];
        }
      }
    }

    /** A header block: valid fields are appended in order, a valid `:status` replaces the last. */
    method OnHeaders(sid: StreamId, list: seq<RawHeader>)
      modifies this`pending
      ensures Contents() == Do(cd, old(Contents()), Happen(sid, Headers(list)))
    {
      if sid in pending {
        var req := pending[sid];
        var i := 0;
        while i < |list|
          invariant 0 <= i <= |list|
          invariant TakeHeaders(cd, req, list[i..]) == TakeHeaders(cd, pending[sid], list)
        {
          var h := list[i];
          assert list[i..][0] == h && list[i..][1..] == list[i + 1..];
          if h.name == STATUS_NAME {
            var code := cd.status(h.value);
            if code.Some? {
              req := req.(status := code);
            }
          } else {
            var name := cd.name(h.name);
            if name.Some? {
              var val := cd.value(h.value);
              if val.Some? {
                req := req.(headers := Add(req.headers, name.value, HeaderValue(val.value, false)));
              }
            }
          }
          i := i + 1;
        }
        pending := pending[sid := req];
      }
    }

    /** Body bytes: read until a read returns nothing. */
    method OnData(sid: StreamId, chunks: seq<Bytes>)
      modifies this`pending
      ensures Contents() == Do(cd, old(Contents()), Happen(sid, Data(chunks)))
      ensures sid !in old(pending) ==> pending == old(pending)
      ensures sid in old(pending) ==>
                var before := old(pending)[sid];
                pending == old(pending)[sid := before.(body := before.body + Flatten(UpToEmpty(chunks)))]
    {
      ReadBodyMeans(chunks, |UpToEmpty(chunks)|);
      assert chunks[..|UpToEmpty(chunks)|] == UpToEmpty(chunks);
      if sid in pending {
        var req := pending[sid];
        var body := req.body;
        var i := 0;
        assert chunks[0..] == chunks;
        while i < |chunks| && chunks[i] != []
          invariant 0 <= i <= |chunks|
          invariant body + ReadBody(chunks[i..]) == req.body + ReadBody(chunks)
        {
          assert chunks[i..][0] == chunks[i] && chunks[i..][1..] == chunks[i + 1..];
          body := body + chunks[i];
          i := i + 1;
        }
        assert ReadBody(chunks[i..]) == [] && body + [] == body;
        pending := pending[sid := req.(body := body)];
      }
    }

    method OnEvent(sid: StreamId, event: Event)
      modifies this`pending, this`replies
      ensures Contents() == Do(cd, old(Contents()), Happen(sid, event))
    {
      match event {
        case Headers(list) => OnHeaders(sid, list);
        case Data(chunks) => OnData(sid, chunks);
        case Finished =>
          if sid in pending {
            var req := pending[sid];
            pending := pending - {sid};
            var response := Response(req.status.GetOr(200), req.headers, req.body, req.url);
            replies := replies + [Reply(req.token, Ok(response))];
          }
        case Reset(code) =>
          if sid in pending {
            var req := pending[sid];
            pending := pending - {sid};
            replies := replies + [Reply(req.token, Err(ResetByPeer(code)))];
          }
        case Other =>
      }
    }

    /** The polling loop of one packet. */
    method Poll(polled: seq<(StreamId, Event)>)
      modifies this`pending, this`replies
      ensures Contents() == DoAll(cd, old(Contents()), Happenings(polled))
    {
      var i := 0;
      assert Happenings(polled)[..0] == [];
      while i < |polled|
        invariant 0 <= i <= |polled|
        invariant Contents() == DoAll(cd, old(Contents()), Happenings(polled)[..i])
      {
        assert Happenings(polled)[..i + 1][..i] == Happenings(polled)[..i];
        OnEvent(polled[i].0, polled[i].1);
        i := i + 1;
      }
      assert Happenings(polled)[..i] == Happenings(polled);
    }

    method OnPacket(established: bool, layer: bool, polled: seq<(StreamId, Event)>)
      modifies this`h3, this`running, this`pending, this`replies
      ensures var i := Packet(established, layer, polled);
        if Ends(old(h3), i) then running == false && h3 == old(h3) && Contents() == old(Contents())
        else running == old(running) && h3 == LayerAfter(old(h3), i)
             && Contents() == DoAll(cd, old(Contents()), DeedsOf(old(h3), i))
    {
      if established && !h3 {
        if layer {
          h3 := true;
        } else {
          running := false;
          return;
        }
      }
      if h3 {
        Poll(polled);
      }
    }

    /** One turn of the loop. */
    method Turn(turn: Input)
      requires running
      modifies this`h3, this`running, this`pending, this`replies
      ensures running <==> !Ends(old(h3), turn)
      ensures running <==> !turn.Closed? && (turn.Packet? && turn.established && !old(h3) ==> turn.layer)
      ensures running ==> (h3 <==> old(h3) || (turn.Packet? && turn.established))
      ensures running ==> h3 == LayerAfter(old(h3), turn)
      ensures running ==> Contents() == DoAll(cd, old(Contents()), DeedsOf(old(h3), turn))
      ensures !running ==> Contents() == old(Contents())
    {
      match turn {
        case Closed => running := false;
        case Submitted(cmd, stream) => Submit(cmd, stream);
        case Packet(established, layer, polled) => OnPacket(established, layer, polled);
        case ReadFailed =>
        case Timer =>
      }
    }

    /** The driver, from its start to its end or to the last turn given. */
    method Run(inputs: seq<Input>)
      requires running
      modifies this
      ensures Contents() == DoAll(cd, old(Contents()), Deeds(old(h3), inputs))
    {
      hide Do, DeedsOf;
      var i := 0;
      ghost var done: seq<Deed> := [];
      assert inputs[0..] == inputs;
      while i < |inputs| && running
        invariant 0 <= i <= |inputs|
        invariant Contents() == DoAll(cd, old(Contents()), done)
        invariant running ==> Deeds(old(h3), inputs) == done + Deeds(h3, inputs[i..])
        invariant !running ==> Deeds(old(h3), inputs) == done
      {
        ghost var turn, before := inputs[i], h3;
        assert inputs[i..][0] == turn && inputs[i..][1..] == inputs[i + 1..];
        Turn(inputs[i]);
        i := i + 1;
        if running {
          DoAllJoin(cd, old(Contents()), done, DeedsOf(before, turn));
          Associate(done, DeedsOf(before, turn), Deeds(h3, inputs[i..]));
          done := done + DeedsOf(before, turn);
        } else {
          assert done + [] == done;
        }
      }
      assert running ==> inputs[i..] == [] && done + [] == done;
    }
  }
}
