/**
 What the callers of the QUIC driver get, for every interleaving of the events of any
 number of streams.
 */
module QuicDelivery {
  import opened Wrappers
  import opened HeaderMaps
  import opened Redirects
  import opened ByteStreams
  import opened QuicDriver

  // ----- one stream on its own -----

  datatype Stage = Open(p: Pending) | Over(answer: Answer)

  predicate Terminal(e: Event) {
    e.Finished? || e.Reset?
  }

  function SingleStep(cd: Codec, s: Stage, e: Event): Stage {
    match s
    case Over(_) => s
    case Open(p) =>
      match e
      case Headers(list) => Open(TakeHeaders(cd, p, list))
      case Data(chunks) => Open(p.(body := p.body + ReadBody(chunks)))
      case Finished => Over(Ok(Delivered(p)))
      case Reset(code) => Over(Err(ResetByPeer(code)))
      case Other => s
  }

  /** An accumulator that sees the events of one stream and nothing else. */
  function Single(cd: Codec, p: Pending, evs: seq<Event>): Stage {
    if evs == [] then Open(p)
    else SingleStep(cd, Single(cd, p, evs[..|evs| - 1]), evs[|evs| - 1])
  }

  /** The events of one stream, in order. */
  function Own(ms: seq<Deed>, sid: StreamId): seq<Event> {
    if ms == [] then []
    else
      var rest := Own(ms[..|ms| - 1], sid);
      var last := ms[|ms| - 1];
      if last.Happen? && last.on == sid then rest + [last.event] else rest
  }

  lemma OwnGrows(ms: seq<Deed>, m: Deed, sid: StreamId)
    ensures Own(ms + [m], sid) == Own(ms, sid) + if m.Happen? && m.on == sid then [m.event] else []
  {
    assert (ms + [m])[..|ms|] == ms;
  }

  lemma SingleGrows(cd: Codec, p: Pending, evs: seq<Event>, e: Event)
    ensures Single(cd, p, evs + [e]) == SingleStep(cd, Single(cd, p, evs), e)
  {
    assert (evs + [e])[..|evs|] == evs;
  }

  lemma {:induction false} TakeHeadersKeeps(cd: Codec, p: Pending, list: seq<RawHeader>)
    ensures var q := TakeHeaders(cd, p, list); q.url == p.url && q.token == p.token && q.body == p.body
    decreases list
  {
    if list != [] {
      TakeHeadersKeeps(cd, TakeHeader(cd, p, list[0]), list[1..]);
    }
  }

  lemma {:induction false} SingleKeeps(cd: Codec, p: Pending, evs: seq<Event>)
    ensures var s := Single(cd, p, evs); s.Open? ==> s.p.url == p.url && s.p.token == p.token
  {
    if evs != [] {
      var front, e := evs[..|evs| - 1], evs[|evs| - 1];
      SingleKeeps(cd, p, front);
      if Single(cd, p, front).Open? && e.Headers? {
        TakeHeadersKeeps(cd, Single(cd, p, front).p, e.list);
      }
    }
  }

  // ----- the driver against the single-stream accumulators -----

  function TokenOf(m: Deed): Option<nat> {
    match m
    case Admit(_, _, token) => Some(token)
    case Reject(token, _) => Some(token)
    case Happen(_, _) => None
  }

  /** Stream ids are never reused, and every command has a channel of its own. */
  ghost predicate Fresh(ms: seq<Deed>) {
    && (forall i, j :: 0 <= i < j < |ms| && ms[i].Admit? && ms[j].Admit? ==> ms[i].sid != ms[j].sid)
    && (forall i, j :: 0 <= i < j < |ms| && TokenOf(ms[i]).Some? ==> TokenOf(ms[i]) != TokenOf(ms[j]))
  }

  ghost predicate Replied(d: Table, token: nat) {
    exists k :: 0 <= k < |d.replies| && d.replies[k].token == token
  }

  /** The stage an accumulator on the admitted stream's own events has reached since its admission. */
  function StageOf(cd: Codec, ms: seq<Deed>, i: nat): Stage
    requires i < |ms| && ms[i].Admit?
  {
    Single(cd, Opened(ms[i].url, ms[i].token), Own(ms[i + 1..], ms[i].sid))
  }

  /** The driver stands with one command exactly where a single-stream accumulator does. */
  ghost predicate Served(cd: Codec, d: Table, ms: seq<Deed>, i: nat)
    requires i < |ms|
  {
    match ms[i]
    case Admit(sid, _, token) =>
      (match StageOf(cd, ms, i)
       case Open(p) => sid in d.pending && d.pending[sid] == p && !Replied(d, token)
       case Over(a) => sid !in d.pending && Reply(token, a) in d.replies)
    case Reject(token, failure) => Reply(token, Err(failure)) in d.replies
    case Happen(_, _) => true
  }

  ghost predicate Admitted(ms: seq<Deed>, sid: StreamId) {
    exists i :: 0 <= i < |ms| && ms[i].Admit? && ms[i].sid == sid
  }

  ghost predicate Commanded(ms: seq<Deed>, token: nat) {
    exists i :: 0 <= i < |ms| && TokenOf(ms[i]) == Some(token)
  }

  ghost predicate OneReplyEach(d: Table) {
    forall a, b :: 0 <= a < b < |d.replies| ==> d.replies[a].token != d.replies[b].token
  }

  ghost predicate InStep(cd: Codec, d: Table, ms: seq<Deed>) {
    && (forall i :: 0 <= i < |ms| ==> Served(cd, d, ms, i))
    && (forall sid :: sid in d.pending ==> Admitted(ms, sid))
    && (forall k :: 0 <= k < |d.replies| ==> Commanded(ms, d.replies[k].token))
    && OneReplyEach(d)
  }

  lemma FreshPrefix(ms: seq<Deed>, n: nat)
    requires Fresh(ms) && n <= |ms|
    ensures Fresh(ms[..n])
  {
  }

  /** One more deed moves the accumulator of one stream, and only that of the stream it concerns. */
  lemma StageGrows(cd: Codec, ms: seq<Deed>, m: Deed, i: nat)
    requires i < |ms| && ms[i].Admit?
    ensures StageOf(cd, ms + [m], i)
         == if m.Happen? && m.on == ms[i].sid then SingleStep(cd, StageOf(cd, ms, i), m.event) else StageOf(cd, ms, i)
  {
    var p := Opened(ms[i].url, ms[i].token);
    assert (ms + [m])[i + 1..] == ms[i + 1..] + [m];
    OwnGrows(ms[i + 1..], m, ms[i].sid);
    if m.Happen? && m.on == ms[i].sid {
      SingleGrows(cd, p, Own(ms[i + 1..], ms[i].sid), m.event);
    } else {
      assert Own(ms[i + 1..], ms[i].sid) + [] == Own(ms[i + 1..], ms[i].sid);
    }
  }

  /** A pending request answers to the token of its admission. */
  lemma PendingToken(cd: Codec, d: Table, ms: seq<Deed>, i: nat)
    requires i < |ms| && ms[i].Admit? && Served(cd, d, ms, i) && ms[i].sid in d.pending
    ensures d.pending[ms[i].sid].token == ms[i].token
  {
    SingleKeeps(cd, Opened(ms[i].url, ms[i].token), Own(ms[i + 1..], ms[i].sid));
  }

  lemma ServedStep(cd: Codec, d: Table, ms: seq<Deed>, m: Deed, i: nat)
    requires Fresh(ms + [m]) && InStep(cd, d, ms) && i < |ms|
    ensures Served(cd, Do(cd, d, m), ms + [m], i)
  {
    var all := ms + [m];
    assert Served(cd, d, ms, i);
    assert all[i] == ms[i] && all[|ms|] == m;
    if ms[i].Admit? {
      StageGrows(cd, ms, m, i);
      if m.Happen? && m.on in d.pending {
        assert Admitted(ms, m.on);
        var j :| 0 <= j < |ms| && ms[j].Admit? && ms[j].sid == m.on;
        PendingToken(cd, d, ms, j);
        if j < i {
          assert all[j].sid != all[i].sid && TokenOf(all[j]) != TokenOf(all[i]);
        } else if i < j {
          assert all[i].sid != all[j].sid && TokenOf(all[i]) != TokenOf(all[j]);
        }
        OnePendingStep(cd, d, ms, m, i, j);
      } else {
        assert TokenOf(all[i]) != TokenOf(all[|ms|]);
      }
    }
  }

  /** An event of stream j's request, as command i sees it. */
  lemma OnePendingStep(cd: Codec, d: Table, ms: seq<Deed>, m: Deed, i: nat, j: nat)
    requires i < |ms| && j < |ms| && ms[i].Admit? && ms[j].Admit? && Served(cd, d, ms, i)
    requires m.Happen? && m.on in d.pending && ms[j].sid == m.on && d.pending[m.on].token == ms[j].token
    requires i != j ==> ms[i].sid != ms[j].sid && ms[i].token != ms[j].token
    requires StageOf(cd, ms + [m], i)
          == if m.on == ms[i].sid then SingleStep(cd, StageOf(cd, ms, i), m.event) else StageOf(cd, ms, i)
    ensures Served(cd, Do(cd, d, m), ms + [m], i)
  {
    var d' := Do(cd, d, m);
    assert (ms + [m])[i] == ms[i];
    assert d'.replies[..|d.replies|] == d.replies;
    if Terminal(m.event) {
      assert d'.replies[|d.replies|] in d'.replies;
    }
  }

  lemma KnownStep(cd: Codec, d: Table, ms: seq<Deed>, m: Deed)
    requires Fresh(ms + [m]) && InStep(cd, d, ms)
    ensures forall sid :: sid in Do(cd, d, m).pending ==> Admitted(ms + [m], sid)
    ensures forall k :: 0 <= k < |Do(cd, d, m).replies| ==> Commanded(ms + [m], Do(cd, d, m).replies[k].token)
    ensures OneReplyEach(Do(cd, d, m))
  {
    var all, d' := ms + [m], Do(cd, d, m);
    forall sid | sid in d'.pending
      ensures Admitted(all, sid)
    {
      if sid in d.pending {
        var i :| 0 <= i < |ms| && ms[i].Admit? && ms[i].sid == sid;
        assert all[i] == ms[i];
      } else {
        assert all[|ms|] == m;
      }
    }
    if d'.replies != d.replies {
      NewReply(cd, d, ms, m);
    }
    forall k | 0 <= k < |d'.replies|
      ensures Commanded(all, d'.replies[k].token)
    {
      if k < |d.replies| {
        var i :| 0 <= i < |ms| && TokenOf(ms[i]) == Some(d.replies[k].token);
        assert all[i] == ms[i];
      }
    }
  }

  /** No reply carries the token of a command that is only now taken. */
  lemma NewTokenUnseen(cd: Codec, d: Table, ms: seq<Deed>, m: Deed)
    requires Fresh(ms + [m]) && InStep(cd, d, ms) && TokenOf(m).Some?
    ensures !Replied(d, TokenOf(m).value)
  {
    var all := ms + [m];
    forall k | 0 <= k < |d.replies|
      ensures d.replies[k].token != TokenOf(m).value
    {
      assert Commanded(ms, d.replies[k].token);
      var i :| 0 <= i < |ms| && TokenOf(ms[i]) == Some(d.replies[k].token);
      assert all[i] == ms[i] && all[|ms|] == m;
    }
  }

  /** A reply goes to a command that had none. */
  lemma NewReply(cd: Codec, d: Table, ms: seq<Deed>, m: Deed)
    requires Fresh(ms + [m]) && InStep(cd, d, ms) && Do(cd, d, m).replies != d.replies
    ensures var r := Do(cd, d, m).replies;
      |r| == |d.replies| + 1 && r[..|d.replies|] == d.replies
      && Commanded(ms + [m], r[|d.replies|].token) && !Replied(d, r[|d.replies|].token)
  {
    var all := ms + [m];
    if m.Reject? {
      assert all[|ms|] == m && TokenOf(m) == Some(m.token);
      NewTokenUnseen(cd, d, ms, m);
    } else {
      var j :| 0 <= j < |ms| && ms[j].Admit? && ms[j].sid == m.on;
      assert Served(cd, d, ms, j) && all[j] == ms[j];
      PendingToken(cd, d, ms, j);
      assert TokenOf(all[j]) == Some(d.pending[m.on].token);
    }
  }

  lemma {:induction false} AlwaysInStep(cd: Codec, ms: seq<Deed>)
    requires Fresh(ms)
    ensures InStep(cd, DoAll(cd, EMPTY, ms), ms)
  {
    if ms != [] {
      var front, m := ms[..|ms| - 1], ms[|ms| - 1];
      var d := DoAll(cd, EMPTY, front);
      FreshPrefix(ms, |ms| - 1);
      AlwaysInStep(cd, front);
      assert ms == front + [m];
      var d' := Do(cd, d, m);
      KnownStep(cd, d, front, m);
      forall i | 0 <= i < |ms|
        ensures Served(cd, d', ms, i)
      {
        if i < |front| {
          ServedStep(cd, d, front, m, i);
        } else {
          LastServed(cd, d, front, m);
        }
      }
    }
  }

  /** A command just admitted is open and unanswered; one just rejected is answered. */
  lemma LastServed(cd: Codec, d: Table, ms: seq<Deed>, m: Deed)
    requires Fresh(ms + [m]) && InStep(cd, d, ms)
    ensures Served(cd, Do(cd, d, m), ms + [m], |ms|)
  {
    var all, d' := ms + [m], Do(cd, d, m);
    assert all[|ms|] == m && all[|ms| + 1..] == [];
    if m.Admit? {
      NewTokenUnseen(cd, d, ms, m);
    } else if m.Reject? {
      assert d'.replies[|d.replies|] in d'.replies;
    }
  }

  /**
   Demultiplexing: whatever the interleaving, the driver stands with every admitted
   command where an accumulator stands that sees the events of that command's stream
   alone: still pending in the same state, or answered, once, with the same answer.
   */
  lemma Demultiplexed(cd: Codec, ms: seq<Deed>, i: nat)
    requires Fresh(ms) && i < |ms| && ms[i].Admit?
    ensures var d := DoAll(cd, EMPTY, ms);
      && OneReplyEach(d)
      && match StageOf(cd, ms, i)
         case Open(p) => ms[i].sid in d.pending && d.pending[ms[i].sid] == p && !Replied(d, ms[i].token)
         case Over(a) => ms[i].sid !in d.pending && Reply(ms[i].token, a) in d.replies
  {
    AlwaysInStep(cd, ms);
    assert Served(cd, DoAll(cd, EMPTY, ms), ms, i);
  }

  function Commands(ms: seq<Deed>): nat {
    if ms == [] then 0 else Commands(ms[..|ms| - 1]) + if ms[|ms| - 1].Happen? then 0 else 1
  }

  /** How one deed changes the counts. */
  lemma CountStep(cd: Codec, d: Table, m: Deed)
    requires m.Admit? ==> m.sid !in d.pending
    ensures var d' := Do(cd, d, m);
      |d'.replies| + |d'.pending| == |d.replies| + |d.pending| + if m.Happen? then 0 else 1
  {
    var d' := Do(cd, d, m);
    match m
    case Admit(sid, _, _) => assert d'.pending.Keys == d.pending.Keys + {sid};
    case Reject(_, _) =>
    case Happen(on, event) =>
      if on in d.pending {
        if Terminal(event) {
          assert d'.pending.Keys == d.pending.Keys - {on};
        } else {
          assert d'.pending.Keys == d.pending.Keys;
        }
      }
  }

  /** Conservation: at every point the commands taken are the answered and the pending ones. */
  lemma {:induction false} NothingLost(cd: Codec, ms: seq<Deed>)
    requires Fresh(ms)
    ensures var d := DoAll(cd, EMPTY, ms); |d.replies| + |d.pending| == Commands(ms)
  {
    if ms != [] {
      var front, m := ms[..|ms| - 1], ms[|ms| - 1];
      FreshPrefix(ms, |ms| - 1);
      NothingLost(cd, front);
      AlwaysInStep(cd, front);
      var d := DoAll(cd, EMPTY, front);
      forall sid | sid in d.pending
        ensures m.Admit? ==> sid != m.sid
      {
        var i :| 0 <= i < |front| && front[i].Admit? && front[i].sid == sid;
        assert ms[i] == front[i];
      }
      CountStep(cd, d, m);
    }
  }

  // ----- what a caller sees -----

  datatype CallerError = Failed(failure: Failure) | Disconnected

  /** What the caller holding `token` gets once the driver is gone: its answer, or a closed channel. */
  function CallerSees(replies: seq<Reply>, token: nat): Result<Response, CallerError> {
    if replies == [] then Err(Disconnected)
    else if replies[0].token == token then
      match replies[0].answer
      case Ok(resp) => Ok(resp)
      case Err(f) => Err(Failed(f))
    else CallerSees(replies[1..], token)
  }

  function Seen(a: Answer): Result<Response, CallerError> {
    match a
    case Ok(resp) => Ok(resp)
    case Err(f) => Err(Failed(f))
  }

  /** The outcome of an admitted command when the driver goes. */
  function AtExit(s: Stage): Result<Response, CallerError> {
    match s
    case Over(a) => Seen(a)
    case Open(_) => Err(Disconnected)
  }

  lemma {:induction false} SeesItsReply(replies: seq<Reply>, r: Reply)
    requires r in replies
    requires forall a, b :: 0 <= a < b < |replies| ==> replies[a].token != replies[b].token
    ensures CallerSees(replies, r.token) == Seen(r.answer)
  {
    if replies[0] != r {
      assert r in replies[1..];
      var k :| 0 < k < |replies| && replies[k] == r;
      SeesItsReply(replies[1..], r);
    }
  }

  lemma {:induction false} SeesNothing(replies: seq<Reply>, token: nat)
    requires forall k :: 0 <= k < |replies| ==> replies[k].token != token
    ensures CallerSees(replies, token) == Err(Disconnected)
  {
    if replies != [] {
      SeesNothing(replies[1..], token);
    }
  }

  /**
   Once the driver has gone, every caller has exactly one outcome: a finished stream gives
   its response, a reset one its error, a rejected command its failure, and an unfinished
   or still queued one a closed channel.
   */
  lemma EveryCallerIsAnswered(cd: Codec, inputs: seq<Input>, token: nat)
    requires Fresh(Deeds(false, inputs))
    ensures var ms := Deeds(false, inputs);
      var outcome := CallerSees(DoAll(cd, EMPTY, ms).replies, token);
      && (forall i :: 0 <= i < |ms| && ms[i].Admit? && ms[i].token == token ==>
            outcome == AtExit(StageOf(cd, ms, i)))
      && (forall i :: 0 <= i < |ms| && ms[i].Reject? && ms[i].token == token ==> outcome == Err(Failed(ms[i].failure)))
      && (!Commanded(ms, token) ==> outcome == Err(Disconnected))
  {
    var ms := Deeds(false, inputs);
    var d := DoAll(cd, EMPTY, ms);
    AlwaysInStep(cd, ms);
    if !Replied(d, token) {
      SeesNothing(d.replies, token);
    }
    forall i | 0 <= i < |ms| && TokenOf(ms[i]) == Some(token)
      ensures ms[i].Reject? ==> CallerSees(d.replies, token) == Err(Failed(ms[i].failure))
      ensures ms[i].Admit? ==> CallerSees(d.replies, token) == AtExit(StageOf(cd, ms, i))
    {
      assert Served(cd, d, ms, i);
      if ms[i].Reject? {
        SeesItsReply(d.replies, Reply(token, Err(ms[i].failure)));
      } else if StageOf(cd, ms, i).Over? {
        SeesItsReply(d.replies, Reply(token, StageOf(cd, ms, i).answer));
      }
    }
  }

  // ----- what an answer holds -----

  function AllHeaders(evs: seq<Event>): seq<RawHeader> {
    if evs == [] then []
    else AllHeaders(evs[..|evs| - 1]) + if evs[|evs| - 1].Headers? then evs[|evs| - 1].list else []
  }

  function AllBody(evs: seq<Event>): Bytes {
    if evs == [] then []
    else AllBody(evs[..|evs| - 1]) + if evs[|evs| - 1].Data? then Flatten(UpToEmpty(evs[|evs| - 1].chunks)) else []
  }

  /** The name is ":status". */
  predicate IsStatus(name: Bytes) {
    |name| == 7 && forall i :: 0 <= i < 7 ==> name[i] == ":status"[i] as int
  }

  lemma StatusName(name: Bytes)
    ensures IsStatus(name) <==> name == STATUS_NAME
  {
    var text := ":status";
    assert text[0] == ':' && text[1] == 's' && text[2] == 't' && text[3] == 'a' && text[4] == 't' && text[5] == 'u';
    assert text[6] == 's';
    if IsStatus(name) {
      assert name[0] == 58 && name[1] == 115 && name[2] == 116 && name[3] == 97 && name[4] == 116 && name[5] == 117;
    }
  }

  /** The last valid `:status` of a list of fields. */
  function LastStatus(cd: Codec, hs: seq<RawHeader>): Option<nat> {
    if hs == [] then None
    else
      var h := hs[|hs| - 1];
      if IsStatus(h.name) && cd.status(h.value).Some? then cd.status(h.value)
      else LastStatus(cd, hs[..|hs| - 1])
  }

  /** The valid values a name has in a list of fields, in order. */
  function ValuesOf(cd: Codec, hs: seq<RawHeader>, n: HeaderName): seq<HeaderValue> {
    if hs == [] then []
    else
      var h := hs[|hs| - 1];
      var rest := ValuesOf(cd, hs[..|hs| - 1], n);
      if !IsStatus(h.name) && cd.name(h.name) == Some(n) && cd.value(h.value).Some?
      then rest + [HeaderValue(cd.value(h.value).value, false)]
      else rest
  }

  /** A request holds what a list of fields says. */
  ghost predicate Holds(cd: Codec, p: Pending, hs: seq<RawHeader>) {
    && p.status == LastStatus(cd, hs)
    && forall n :: Lookup(p.headers, n) == ValuesOf(cd, hs, n)
  }

  lemma TakeOne(cd: Codec, p: Pending, hs: seq<RawHeader>, h: RawHeader)
    requires Holds(cd, p, hs)
    ensures Holds(cd, TakeHeader(cd, p, h), hs + [h])
  {
    hide IsStatus;
    StatusName(h.name);
    assert (hs + [h])[..|hs|] == hs;
    if h.name != STATUS_NAME && cd.name(h.name).Some? && cd.value(h.value).Some? {
      forall n
        ensures Lookup(TakeHeader(cd, p, h).headers, n) == ValuesOf(cd, hs + [h], n)
      {
        LookupAdd(p.headers, cd.name(h.name).value, HeaderValue(cd.value(h.value).value, false), n);
      }
    }
  }

  lemma {:induction false} TakeMany(cd: Codec, p: Pending, hs: seq<RawHeader>, list: seq<RawHeader>)
    requires Holds(cd, p, hs)
    ensures Holds(cd, TakeHeaders(cd, p, list), hs + list)
    decreases list
  {
    if list == [] {
      assert hs + list == hs;
    } else {
      TakeOne(cd, p, hs, list[0]);
      TakeMany(cd, TakeHeader(cd, p, list[0]), hs + [list[0]], list[1..]);
      assert hs + [list[0]] + list[1..] == hs + list;
    }
  }

  lemma OpenStep(cd: Codec, p: Pending, e: Event, hs: seq<RawHeader>, body: Bytes)
    requires !Terminal(e) && Holds(cd, p, hs) && p.body == body
    ensures var s := SingleStep(cd, Open(p), e);
      && s.Open? && s.p.url == p.url
      && s.p.body == body + (if e.Data? then Flatten(UpToEmpty(e.chunks)) else [])
      && Holds(cd, s.p, hs + if e.Headers? then e.list else [])
  {
    assert body + [] == body && hs + [] == hs;
    if e.Data? {
      ReadBodyMeans(e.chunks, |UpToEmpty(e.chunks)|);
      assert e.chunks[..|UpToEmpty(e.chunks)|] == UpToEmpty(e.chunks);
    }
    if e.Headers? {
      TakeMany(cd, p, hs, e.list);
      TakeHeadersKeeps(cd, p, e.list);
    }
  }

  /** Until a terminal event the accumulator holds all the fields and all the bytes of its stream. */
  lemma {:induction false} OpenMeaning(cd: Codec, url: string, token: nat, evs: seq<Event>)
    requires forall j :: 0 <= j < |evs| ==> !Terminal(evs[j])
    ensures var s := Single(cd, Opened(url, token), evs);
      && s.Open? && s.p.url == url && s.p.body == AllBody(evs)
      && Holds(cd, s.p, AllHeaders(evs))
  {
    if evs != [] {
      var front, e := evs[..|evs| - 1], evs[|evs| - 1];
      OpenMeaning(cd, url, token, front);
      assert !Terminal(e);
      OpenStep(cd, Single(cd, Opened(url, token), front).p, e, AllHeaders(front), AllBody(front));
    }
  }

  lemma {:induction false} OverStays(cd: Codec, p: Pending, evs: seq<Event>, n: nat)
    requires n <= |evs| && Single(cd, p, evs[..n]).Over?
    ensures Single(cd, p, evs) == Single(cd, p, evs[..n])
    decreases |evs|
  {
    if n == |evs| {
      assert evs[..n] == evs;
    } else {
      assert evs[..|evs| - 1][..n] == evs[..n];
      OverStays(cd, p, evs[..|evs| - 1], n);
    }
  }

  /**
   The answer to a stream whose first terminal event is event k: after a finish, the
   response with the last valid `:status` or 200, every valid field in order and the
   concatenated body; after a reset, its code.
   */
  lemma AnswerMeaning(cd: Codec, url: string, token: nat, evs: seq<Event>, k: nat)
    requires k < |evs| && Terminal(evs[k]) && forall j :: 0 <= j < k ==> !Terminal(evs[j])
    ensures var s := Single(cd, Opened(url, token), evs);
      var hs := AllHeaders(evs[..k]);
      && s.Over?
      && (evs[k].Reset? ==> s.answer == Err(ResetByPeer(evs[k].code)))
      && (evs[k].Finished? ==>
            && s.answer.Ok?
            && s.answer.value.status == LastStatus(cd, hs).GetOr(200)
            && s.answer.value.body == AllBody(evs[..k]) && s.answer.value.url == url
            && forall n :: Lookup(s.answer.value.headers, n) == ValuesOf(cd, hs, n))
  {
    OpenMeaning(cd, url, token, evs[..k]);
    assert evs[..k + 1][..k] == evs[..k];
    OverStays(cd, Opened(url, token), evs, k + 1);
  }
}
