/**
 The redirect machine inside the pool: whatever the interleaving and whichever transport
 carried each hop, a call ends as its recursive specification says.
 */
module PoolCalls {
  import opened Wrappers
  import opened Redirects
  import opened PoolKeys
  import opened PoolProtocol
  import opened PoolLocks

  /** The variables a hop begins with are the start's, or what the last hop leads to. */
  ghost predicate Continues(web: Web, k: Task) {
    if k.hops == [] then k.call == k.start else Links(web, k.hops[|k.hops| - 1], k.call)
  }

  /** The URL of the call cannot be requested. */
  predicate Unusable(web: Web, c: Call) {
    var u := web.parse(c.url);
    u == None || u.value.host == None || !web.requestOk(c.verb, u.value.text)
  }

  /** What the last hop of a call makes of its response. */
  function LastNext(web: Web, k: Task): Next
    requires k.hops != []
  {
    var h := k.hops[|k.hops| - 1];
    Advance(web, h.call, h.url, h.response)
  }

  ghost predicate Ended(web: Web, k: Task, r: Result<Response, Error>) {
    match r
    case Ok(resp) =>
      && k.hops != [] && LastNext(web, k) == Stop
      && resp == k.hops[|k.hops| - 1].response.(url := k.hops[|k.hops| - 1].call.url)
    case Err(RedirectLimit) => |k.hops| == MAX_HOPS && Continues(web, k)
    case Err(InvalidUrl) =>
      || (k.hops != [] && LastNext(web, k) == Broken)
      || (|k.hops| < MAX_HOPS && Continues(web, k) && Unusable(web, k.call))
    case Err(Transport) => |k.hops| < MAX_HOPS && Continues(web, k)
  }

  /** The part of a call that its program counter vouches for. */
  predicate PcOk(web: Web, k: Task) {
    && |k.hops| <= MAX_HOPS
    && (Underway(k.pc) ==> |k.hops| < MAX_HOPS)
    && (PhaseOf(k.pc) == Fallback || PhaseOf(k.pc) == Record || k.pc.FallingBack? ==> !Unusable(web, k.call))
  }

  ghost predicate HopsOk(web: Web, start: Call, hops: seq<Hop>) {
    && Chain(web, start, hops)
    && (forall i :: 0 <= i < |hops| ==> !Unusable(web, hops[i].call))
  }

  ghost predicate CallOk(web: Web, k: Task) {
    && k.start == Start(k.start.url, k.start.verb, k.start.body)
    && HopsOk(web, k.start, k.hops)
    && PcOk(web, k)
    && match k.pc
       case Finished(r) => Ended(web, k, r)
       case _ => Continues(web, k)
  }

  /** Until its response is recorded a hop keeps its variables, and it ends early only with an error of its own. */
  predicate Stays(web: Web, k: Task, e: Effect) {
    && e.task.start == k.start && e.task.hops == k.hops && e.task.call == k.call
    && PcOk(web, e.task)
    && match e.task.pc
       case Finished(Ok(_)) => false
       case Finished(Err(RedirectLimit)) => |k.hops| == MAX_HOPS
       case Finished(Err(InvalidUrl)) => |k.hops| < MAX_HOPS && Unusable(web, k.call)
       case Finished(Err(Transport)) => |k.hops| < MAX_HOPS
       case _ => true
  }

  lemma ReadStays(sh: Shared, s: State, k: Task)
    requires TaskTyped(sh, k) && PcOk(sh.web, k) && ReadStep(sh, s, k).Some?
    ensures Stays(sh.web, k, ReadStep(sh, s, k).value)
  {
  }

  lemma AcquireStays(sh: Shared, s: State, k: Task, c: Choice)
    requires TaskTyped(sh, k) && PcOk(sh.web, k) && AcquireStep(s, k, c).Some?
    ensures Stays(sh.web, k, AcquireStep(s, k, c).value)
  {
  }

  lemma DialStays(sh: Shared, s: State, t: nat, k: Task, c: Choice)
    requires TaskTyped(sh, k) && PcOk(sh.web, k) && DialingStep(sh, s, t, k, c).Some?
    ensures Stays(sh.web, k, DialingStep(sh, s, t, k, c).value)
  {
  }

  lemma TransmitStays(sh: Shared, s: State, t: nat, k: Task, c: Choice)
    requires TaskTyped(sh, k) && PcOk(sh.web, k) && TransmitStep(sh, s, t, k, c).Some?
    ensures Stays(sh.web, k, TransmitStep(sh, s, t, k, c).value)
  {
  }

  lemma FallbackStays(sh: Shared, s: State, t: nat, k: Task, c: Choice)
    requires TaskTyped(sh, k) && PcOk(sh.web, k) && FallbackStep(sh, s, t, k, c).Some?
    ensures Stays(sh.web, k, FallbackStep(sh, s, t, k, c).value)
  {
  }

  lemma HopsExtend(web: Web, start: Call, hops: seq<Hop>, h: Hop)
    requires HopsOk(web, start, hops) && web.parse(h.call.url) == Some(h.url) && !Unusable(web, h.call)
    requires if hops == [] then h.call == start else Links(web, hops[|hops| - 1], h.call)
    ensures HopsOk(web, start, hops + [h])
  {
  }

  /** The redirect machine's verdict on the hop just recorded is where the call goes. */
  lemma HopOutcome(sh: Shared, k: Task, resp: Response, h: Hop)
    requires h == Hop(k.call, k.leg.url, k.leg.cookie, k.leg.acceptCh, resp) && |k.hops| < MAX_HOPS
    ensures var after := AfterHop(sh, k, resp);
      && after.start == k.start && after.hops == k.hops + [h] && PcOk(sh.web, after)
      && match after.pc
         case Finished(r) => Ended(sh.web, after, r)
         case _ => Continues(sh.web, after)
  {
    var after := AfterHop(sh, k, resp);
    assert after.hops[|after.hops| - 1] == h;
    assert LastNext(sh.web, after) == Advance(sh.web, k.call, k.leg.url, resp);
  }

  /** Recording a response adds the hop and asks the redirect machine. */
  lemma RecordKeepsCall(sh: Shared, s: State, k: Task)
    requires TaskTyped(sh, k) && CallOk(sh.web, k) && k.pc.StoringAltSvc?
    ensures CallOk(sh.web, AfterHop(sh, k, k.pc.resp)) && AfterHop(sh, k, k.pc.resp).start == k.start
  {
    var h := Hop(k.call, k.leg.url, k.leg.cookie, k.leg.acceptCh, k.pc.resp);
    HopsExtend(sh.web, k.start, k.hops, h);
    HopOutcome(sh, k, k.pc.resp, h);
  }

  lemma CallStep(sh: Shared, s: State, t: nat, c: Choice)
    requires Shape(sh, s) && t < |s.tasks| && CallOk(sh.web, s.tasks[t]) && EffectOf(sh, s, t, c).Some?
    ensures CallOk(sh.web, EffectOf(sh, s, t, c).value.task)
  {
    hide HopsOk, PcOk, Ended, Continues, Stays, AfterHop, TaskTyped, LocksAgree, SlotsTyped, SlotKnown;
    var k := s.tasks[t];
    assert TaskTyped(sh, k);
    if k.pc.StoringAltSvc? {
      RecordKeepsCall(sh, s, k);
      RecordIsAfterHop(sh, s, t, c);
    } else {
      CallStays(sh, s, t, c);
      StaysKeepsCall(sh.web, k, EffectOf(sh, s, t, c).value);
    }
  }

  lemma RecordIsAfterHop(sh: Shared, s: State, t: nat, c: Choice)
    requires t < |s.tasks| && s.tasks[t].pc.StoringAltSvc?
    ensures EffectOf(sh, s, t, c).Some?
    ensures EffectOf(sh, s, t, c).value.task == AfterHop(sh, s.tasks[t], s.tasks[t].pc.resp)
  {
    hide AfterHop;
  }

  lemma StaysKeepsCall(web: Web, k: Task, e: Effect)
    requires CallOk(web, k) && !k.pc.Finished? && Stays(web, k, e)
    ensures CallOk(web, e.task)
  {
    hide HopsOk, PcOk, Links, Unusable;
  }

  lemma CallStays(sh: Shared, s: State, t: nat, c: Choice)
    requires t < |s.tasks| && EffectOf(sh, s, t, c).Some? && !s.tasks[t].pc.StoringAltSvc?
    requires TaskTyped(sh, s.tasks[t]) && PcOk(sh.web, s.tasks[t])
    ensures Stays(sh.web, s.tasks[t], EffectOf(sh, s, t, c).value)
  {
    var k := s.tasks[t];
    match PhaseOf(k.pc)
    case Read => ReadStays(sh, s, k);
    case Acquire => AcquireStays(sh, s, k, c);
    case Dial => DialStays(sh, s, t, k, c);
    case Transmit => TransmitStays(sh, s, t, k, c);
    case Fallback => FallbackStays(sh, s, t, k, c);
    case Record =>
  }

  lemma {:induction false} PlayCalls(sh: Shared, s0: State, moves: seq<Move>, t: nat)
    requires Init(s0) && Play(sh, s0, moves).Some? && t < |Play(sh, s0, moves).value.tasks|
    ensures CallOk(sh.web, Play(sh, s0, moves).value.tasks[t])
  {
    if moves != [] {
      var last := |moves| - 1;
      PlayCalls(sh, s0, moves[..last], t);
      PlayShape(sh, s0, moves[..last]);
      var s := Play(sh, s0, moves[..last]).value;
      if t == moves[last].task {
        CallStep(sh, s, t, moves[last].choice);
      }
    }
  }

  // ----- the recursive specification -----

  /** What a hop reads from the shared caches: its cookie header and whether hints were asked for. */
  datatype Reads = Reads(cookie: Option<string>, acceptCh: bool)

  type Server = (Request, Option<Bytes>) -> Response

  datatype Verdict = Done(result: Result<Response, Error>) | OutOfReads

  /**
   The call over a server whose answer depends on the request alone: hop after hop, with
   no pool, no cache and no transport in sight.
   */
  function Replay(sh: Shared, server: Server, c: Call, seen: seq<Reads>, n: nat): Verdict
    decreases |seen|
  {
    if n >= MAX_HOPS then Done(Err(RedirectLimit))
    else if Unusable(sh.web, c) then Done(Err(InvalidUrl))
    else if seen == [] then OutOfReads
    else
      var u := sh.web.parse(c.url).value;
      var resp := server(sh.request(c, u, seen[0].cookie, seen[0].acceptCh, n == 0), c.body);
      match Advance(sh.web, c, u, resp)
      case Stop => Done(Ok(resp.(url := c.url)))
      case Broken => Done(Err(InvalidUrl))
      case Follow(next, _) => Replay(sh, server, next, seen[1..], n + 1)
  }

  function ReadsOf(hops: seq<Hop>): seq<Reads> {
    seq(|hops|, i requires 0 <= i < |hops| => Reads(hops[i].cookie, hops[i].acceptCh))
  }

  /** Every response the call has met is the server's answer to the request of its hop. */
  ghost predicate Answers(sh: Shared, server: Server, hops: seq<Hop>) {
    forall i :: 0 <= i < |hops| ==> hops[i].response == AnswerTo(sh, server, hops[i], i)
  }

  function AnswerTo(sh: Shared, server: Server, h: Hop, at: nat): Response {
    server(sh.request(h.call, h.url, h.cookie, h.acceptCh, at == 0), h.call.body)
  }

  /** Replaying from hop n on arrives at the recorded end. */
  lemma {:induction false} ReplayFrom(sh: Shared, server: Server, k: Task, n: nat)
    requires CallOk(sh.web, k) && k.pc.Finished? && k.pc.result != Err(Transport)
    requires Answers(sh, server, k.hops) && n < |k.hops|
    ensures Replay(sh, server, k.hops[n].call, ReadsOf(k.hops)[n..], n) == Done(k.pc.result)
    decreases |k.hops| - n
  {
    hide Advance, Replay, AnswerTo, Unusable;
    var h := k.hops[n];
    assert h.response == AnswerTo(sh, server, h, n);
    assert sh.web.parse(h.call.url) == Some(h.url) && !Unusable(sh.web, h.call);
    assert ReadsOf(k.hops)[n..][1..] == ReadsOf(k.hops)[n + 1..];
    ReplayHop(sh, server, h, ReadsOf(k.hops)[n..], n);
    if n + 1 < |k.hops| {
      assert Links(sh.web, k.hops[n], k.hops[n + 1].call);
      ReplayFrom(sh, server, k, n + 1);
    } else {
      ReplayStops(sh, server, k.call, ReadsOf(k.hops)[n..][1..], n + 1);
    }
  }

  lemma ReplayStops(sh: Shared, server: Server, c: Call, seen: seq<Reads>, n: nat)
    ensures n >= MAX_HOPS ==> Replay(sh, server, c, seen, n) == Done(Err(RedirectLimit))
    ensures n < MAX_HOPS && Unusable(sh.web, c) ==> Replay(sh, server, c, seen, n) == Done(Err(InvalidUrl))
  {
  }

  /** One hop of a replay. */
  lemma ReplayHop(sh: Shared, server: Server, h: Hop, seen: seq<Reads>, n: nat)
    requires n < MAX_HOPS && sh.web.parse(h.call.url) == Some(h.url) && !Unusable(sh.web, h.call)
    requires h.response == AnswerTo(sh, server, h, n)
    requires seen != [] && seen[0] == Reads(h.cookie, h.acceptCh)
    ensures Replay(sh, server, h.call, seen, n)
         == match Advance(sh.web, h.call, h.url, h.response)
            case Stop => Done(Ok(h.response.(url := h.call.url)))
            case Broken => Done(Err(InvalidUrl))
            case Follow(next, _) => Replay(sh, server, next, seen[1..], n + 1)
  {
    hide Advance;
  }

  lemma ReplayWhole(sh: Shared, server: Server, k: Task)
    requires CallOk(sh.web, k) && k.pc.Finished? && k.pc.result != Err(Transport)
    requires Answers(sh, server, k.hops)
    ensures Replay(sh, server, k.start, ReadsOf(k.hops), 0) == Done(k.pc.result)
  {
    if k.hops != [] {
      ReplayFrom(sh, server, k, 0);
      assert ReadsOf(k.hops)[0..] == ReadsOf(k.hops);
    }
  }

  /**
   A call whose hops were answered by the server and that ends otherwise than by a
   transport error ends as its replay over its own reads does.
   */
  lemma EndsAsReplayed(sh: Shared, server: Server, s: State, t: nat)
    requires Reachable(sh, s) && t < |s.tasks| && s.tasks[t].pc.Finished?
    requires s.tasks[t].pc.result != Err(Transport)
    requires Answers(sh, server, s.tasks[t].hops)
    ensures var k := s.tasks[t];
      Replay(sh, server, k.start, ReadsOf(k.hops), 0) == Done(k.pc.result)
  {
    var s0, moves := Played(sh, s);
    PlayCalls(sh, s0, moves, t);
    ReplayWhole(sh, server, s.tasks[t]);
  }

  /** The last hop was answered with a redirect to a URL that can be made out. */
  predicate Redirected(web: Web, h: Hop) {
    !Settles(h.response) && web.join(h.url, LocationText(web, h.response)).Some?
  }

  /**
   A call has at most ten hops, its hops form a chain from its start in which only redirects
   are followed, and it succeeds exactly when its last response is no redirect, which it
   returns under the URL of that hop; it fails by the redirect limit exactly when all ten hops
   were redirects, and by an invalid URL only when a Location or the URL it leads to is one.
   */
  lemma CallsFollowTheChain(sh: Shared, s: State, t: nat)
    requires Reachable(sh, s) && t < |s.tasks|
    ensures var k := s.tasks[t];
      var last := |k.hops| - 1;
      && Chain(sh.web, k.start, k.hops) && |k.hops| <= 10
      && (forall n :: 0 <= n < last ==> Redirected(sh.web, k.hops[n]))
      && (k.pc.Finished? && k.pc.result.Ok? ==>
            && k.hops != [] && Settles(k.hops[last].response)
            && k.pc.result.value == k.hops[last].response.(url := k.hops[last].call.url))
      && (k.pc.Finished? && k.hops != [] && Settles(k.hops[last].response) ==> k.pc.result.Ok?)
      && (k.pc.Finished? ==>
            (k.pc.result == Err(RedirectLimit) <==> |k.hops| == 10 && Redirected(sh.web, k.hops[last])))
      && (k.pc.Finished? && k.pc.result == Err(InvalidUrl) ==>
            || (k.hops != [] && !Settles(k.hops[last].response) && !Redirected(sh.web, k.hops[last]))
            || (var u := sh.web.parse(k.call.url);
                u == None || u.value.host == None || !sh.web.requestOk(k.call.verb, u.value.text)))
  {
    hide Advance;
    var s0, moves := Played(sh, s);
    PlayCalls(sh, s0, moves, t);
    var k := s.tasks[t];
    forall n | 0 <= n < |k.hops|
      ensures Advance(sh.web, k.hops[n].call, k.hops[n].url, k.hops[n].response).Follow?
         <==> Redirected(sh.web, k.hops[n])
      ensures Advance(sh.web, k.hops[n].call, k.hops[n].url, k.hops[n].response).Stop?
         <==> Settles(k.hops[n].response)
    {
      NotFollowed(sh.web, k.hops[n].call, k.hops[n].url, k.hops[n].response);
    }
    forall n | 0 <= n < |k.hops| - 1
      ensures Redirected(sh.web, k.hops[n])
    {
      assert Links(sh.web, k.hops[n], k.hops[n + 1].call);
    }
  }

  /** The step of the call awaits an Http2 dial or an Http2 transmission. */
  predicate AwaitsHttp2(k: Task) {
    match k.pc
    case Dialing => !k.leg.h3
    case DialingH2 => true
    case Sending(c, _) => !c.h3
    case FallbackDialing(_) => true
    case FallbackSending(c, _) => !c.h3
    case _ => false
  }

  predicate Blames(k: Task, c: Choice, e: Effect) {
    e.task.pc == Finished(Err(Transport)) ==> c == No && AwaitsHttp2(k)
  }

  lemma ReadBlames(sh: Shared, s: State, k: Task)
    requires TaskTyped(sh, k) && ReadStep(sh, s, k).Some?
    ensures Blames(k, No, ReadStep(sh, s, k).value)
  {
  }

  lemma AcquireBlames(sh: Shared, s: State, k: Task, c: Choice)
    requires TaskTyped(sh, k) && AcquireStep(s, k, c).Some?
    ensures Blames(k, c, AcquireStep(s, k, c).value)
  {
  }

  lemma DialBlames(sh: Shared, s: State, t: nat, k: Task, c: Choice)
    requires TaskTyped(sh, k) && DialingStep(sh, s, t, k, c).Some?
    ensures Blames(k, c, DialingStep(sh, s, t, k, c).value)
  {
  }

  lemma TransmitBlames(sh: Shared, s: State, t: nat, k: Task, c: Choice)
    requires TaskTyped(sh, k) && TransmitStep(sh, s, t, k, c).Some?
    ensures Blames(k, c, TransmitStep(sh, s, t, k, c).value)
  {
  }

  lemma FallbackBlames(sh: Shared, s: State, t: nat, k: Task, c: Choice)
    requires TaskTyped(sh, k) && FallbackStep(sh, s, t, k, c).Some?
    ensures Blames(k, c, FallbackStep(sh, s, t, k, c).value)
  {
  }

  lemma RecordBlames(sh: Shared, s: State, t: nat, k: Task)
    requires TaskTyped(sh, k) && RecordStep(sh, t, k).Some?
    ensures Blames(k, No, RecordStep(sh, t, k).value)
  {
  }

  /**
   A call ends in a transport error only at the moment an Http2 operation of its own
   fails: no Http3 failure surfaces.
   */
  lemma Http3FailuresStayHidden(sh: Shared, s: State, t: nat, c: Choice)
    requires Reachable(sh, s) && t < |s.tasks|
    ensures Step(sh, s, t, c).Some? && Step(sh, s, t, c).value.tasks[t].pc == Finished(Err(Transport))
        ==> c == No && AwaitsHttp2(s.tasks[t])
  {
    ReachableShape(sh, s);
    if EffectOf(sh, s, t, c).Some? {
      EffectBlames(sh, s, t, c);
    }
  }

  lemma EffectBlames(sh: Shared, s: State, t: nat, c: Choice)
    requires Shape(sh, s) && t < |s.tasks| && EffectOf(sh, s, t, c).Some?
    ensures Blames(s.tasks[t], c, EffectOf(sh, s, t, c).value)
  {
    var k := s.tasks[t];
    assert TaskTyped(sh, k);
    match PhaseOf(k.pc)
    case Read => ReadBlames(sh, s, k);
    case Acquire => AcquireBlames(sh, s, k, c);
    case Dial => DialBlames(sh, s, t, k, c);
    case Transmit => TransmitBlames(sh, s, t, k, c);
    case Fallback => FallbackBlames(sh, s, t, k, c);
    case Record => RecordBlames(sh, s, t, k);
  }
}
