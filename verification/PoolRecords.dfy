/**
 Where the caches' contents come from: every response that was read for its cookies, hints
 or advertisement answered a transmission, every completed hop was answered and read for
 all three, and so calls against an honest server end as their specification says.
 */
module PoolRecords {
  import opened Wrappers
  import opened Redirects
  import opened PoolKeys
  import opened PoolProtocol
  import opened PoolLocks
  import opened PoolHistory
  import opened PoolCalls
  import opened PoolWire

  /** The response a call is about to read, or is reading, for the caches. */
  function Held(pc: Pc): Option<Response> {
    match pc
    case StoringCookies(r) => Some(r)
    case StoringHints(r) => Some(r)
    case StoringAltSvc(r) => Some(r)
    case _ => None
  }

  /** The transmission whose answer the call holds. */
  predicate Brought(x: Tx, t: nat, k: Task, r: Response) {
    x.task == t && x.hop == |k.hops| && x.call == k.call && x.leg == k.leg && x.answer == Some(r)
  }

  /** The transmission that a completed hop is about. */
  predicate Carried(x: Tx, p: Place, h: Hop) {
    && x.task == p.task && x.hop == p.hop && x.call == h.call && x.answer == Some(h.response)
    && x.leg.url == h.url && x.leg.cookie == h.cookie && x.leg.acceptCh == h.acceptCh
  }

  predicate IsAnswer(x: Tx, p: Place) {
    x.task == p.task && x.hop == p.hop && x.answer.Some?
  }

  /** The answered transmissions of one hop. */
  function AnswersOf(wire: seq<Tx>, p: Place): seq<Tx> {
    if wire == [] then []
    else
      var last := wire[|wire| - 1];
      AnswersOf(wire[..|wire| - 1], p) + if IsAnswer(last, p) then [last] else []
  }

  /** The hop that read a response for a cache. */
  function ReaderOf(e: Event): Option<Place> {
    match e
    case CookiesRead(p, _, _) => Some(p)
    case HintsRead(p, _, _) => Some(p)
    case AltSvcRead(p, _, _) => Some(p)
    case _ => None
  }

  /** What one hop read for the caches, in order. */
  function FiledBy(log: seq<Event>, p: Place): seq<Event> {
    if log == [] then []
    else
      var last := log[|log| - 1];
      FiledBy(log[..|log| - 1], p) + if ReaderOf(last) == Some(p) then [last] else []
  }

  lemma AnswersExtend(wire: seq<Tx>, sent: seq<Tx>, p: Place)
    requires |sent| <= 1
    ensures AnswersOf(wire + sent, p) == AnswersOf(wire, p) + if sent != [] && IsAnswer(sent[0], p) then sent else []
  {
    if sent == [] {
      assert wire + sent == wire;
    } else {
      assert (wire + sent)[..|wire|] == wire;
    }
  }

  lemma FiledExtend(log: seq<Event>, events: seq<Event>, p: Place)
    requires |events| <= 1
    ensures FiledBy(log + events, p)
         == FiledBy(log, p) + if events != [] && ReaderOf(events[0]) == Some(p) then events else []
  {
    if events == [] {
      assert log + events == log;
    } else {
      assert (log + events)[..|log|] == log;
    }
  }

  lemma {:induction false} AnswersAreSent(wire: seq<Tx>, p: Place, x: Tx)
    requires x in AnswersOf(wire, p)
    ensures exists i :: 0 <= i < |wire| && wire[i] == x
  {
    var last := |wire| - 1;
    if x in AnswersOf(wire[..last], p) {
      AnswersAreSent(wire[..last], p, x);
      var i :| 0 <= i < last && wire[..last][i] == x;
      assert wire[i] == x;
    } else {
      assert wire[last] == x;
    }
  }

  /** The reads of a hop that holds a response, as far as it has come. */
  function ReadSoFar(pc: Pc, p: Place, u: Url): seq<Event> {
    match pc
    case StoringHints(r) => [CookiesRead(p, u, r)]
    case StoringAltSvc(r) => [CookiesRead(p, u, r), HintsRead(p, u, r)]
    case _ => []
  }

  /** How one step obtains, reads and records a response. */
  predicate Files(s: State, t: nat, k: Task, e: Effect) {
    && |e.sent| <= 1 && |e.events| <= 1
    && (forall i :: 0 <= i < |e.events| ==> Stems(t, k, e.events[i]))
    && (e.sent != [] ==> e.sent[0].task == t && e.sent[0].hop == |k.hops| && e.sent[0].logged == |s.log|)
    && (e.sent != [] && e.sent[0].answer.Some? ==> Held(k.pc).None? && e.task.pc.StoringCookies?)
    && match Held(e.task.pc)
       case Some(r) =>
         && e.task.hops == k.hops && e.task.call == k.call && e.task.leg == k.leg
         && (if Held(k.pc).Some? then Held(k.pc) == Some(r) && Progress(t, k, e, r)
             else e.task.pc.StoringCookies? && |e.sent| == 1 && Brought(e.sent[0], t, k, r) && Reading(e) == None)
       case None =>
         || (e.task.hops == k.hops && Held(k.pc).None? && Reading(e) == None)
         || (k.pc.StoringAltSvc? && e.events == [AltSvcRead(Place(t, |k.hops|), k.leg.url, k.pc.resp)]
             && e.task.hops == k.hops + [Hop(k.call, k.leg.url, k.leg.cookie, k.leg.acceptCh, k.pc.resp)])
  }

  function Reading(e: Effect): Option<Place> {
    if e.events == [] then None else ReaderOf(e.events[0])
  }

  /** An event is about the response the call holds, or about no response. */
  predicate Stems(t: nat, k: Task, event: Event) {
    match event
    case Preset(_, _, _) => false
    case H3Failed(_) => true
    case _ => Held(k.pc) == Some(event.resp) && event.from == k.leg.url && event.place == Place(t, |k.hops|)
  }

  predicate Progress(t: nat, k: Task, e: Effect, r: Response) {
    var p := Place(t, |k.hops|);
    if k.pc.StoringCookies? then e.task.pc == StoringHints(r) && e.events == [CookiesRead(p, k.leg.url, r)]
    else k.pc.StoringHints? && e.task.pc == StoringAltSvc(r) && e.events == [HintsRead(p, k.leg.url, r)]
  }

  /** Before it transmits a call reads no response. */
  lemma QuietFiles(sh: Shared, s: State, t: nat, k: Task, c: Choice)
    ensures ReadStep(sh, s, k).Some? ==> Files(s, t, k, ReadStep(sh, s, k).value)
    ensures AcquireStep(s, k, c).Some? ==> Files(s, t, k, AcquireStep(s, k, c).value)
  {
    hide LookupAuthority, SlotKey, H2Key, Free, Count, Brought, Progress;
  }

  lemma DialFiles(sh: Shared, s: State, t: nat, k: Task, c: Choice)
    requires DialingStep(sh, s, t, k, c).Some?
    ensures Files(s, t, k, DialingStep(sh, s, t, k, c).value)
  {
    hide NewConn, SlotKey, H2Key, Free, Brought, Progress;
  }

  lemma TransmitFiles(sh: Shared, s: State, t: nat, k: Task, c: Choice)
    requires TransmitStep(sh, s, t, k, c).Some?
    ensures Files(s, t, k, TransmitStep(sh, s, t, k, c).value)
  {
    hide TaskRequest, H2Key, Free, Progress;
  }

  lemma FallbackFiles(sh: Shared, s: State, t: nat, k: Task, c: Choice)
    requires FallbackStep(sh, s, t, k, c).Some?
    ensures Files(s, t, k, FallbackStep(sh, s, t, k, c).value)
  {
    hide TaskRequest, NewConn, H2Key, Progress;
  }

  lemma RecordFiles(sh: Shared, s: State, t: nat, k: Task)
    requires RecordStep(sh, t, k).Some?
    ensures Files(s, t, k, RecordStep(sh, t, k).value)
  {
    hide Advance, Brought, FilingAuthority;
  }

  lemma StepFiles(sh: Shared, s: State, t: nat, c: Choice)
    requires t < |s.tasks| && EffectOf(sh, s, t, c).Some?
    ensures Files(s, t, s.tasks[t], EffectOf(sh, s, t, c).value)
  {
    hide Files;
    var k := s.tasks[t];
    match PhaseOf(k.pc)
    case Read => QuietFiles(sh, s, t, k, c);
    case Acquire => QuietFiles(sh, s, t, k, c);
    case Dial => DialFiles(sh, s, t, k, c);
    case Transmit => TransmitFiles(sh, s, t, k, c);
    case Fallback => FallbackFiles(sh, s, t, k, c);
    case Record => RecordFiles(sh, s, t, k);
  }

  // ----- the invariant -----

  /** One answered transmission, sent before the hop read anything, and these reads in this order. */
  predicate AnsweredThenRead(wire: seq<Tx>, log: seq<Event>, p: Place, expected: seq<Event>) {
    && FiledBy(log, p) == expected
    && |AnswersOf(wire, p)| == 1
    && var x := AnswersOf(wire, p)[0];
    && x.logged <= |log| && FiledBy(log[..x.logged], p) == []
  }

  /**
   A completed hop was answered on the wire exactly once, and after that read exactly once
   for its cookies, then its hints, then its advertisement.
   */
  predicate HopRecorded(wire: seq<Tx>, log: seq<Event>, p: Place, h: Hop) {
    && AnsweredThenRead(wire, log, p, [CookiesRead(p, h.url, h.response), HintsRead(p, h.url, h.response),
                                       AltSvcRead(p, h.url, h.response)])
    && Carried(AnswersOf(wire, p)[0], p, h)
  }

  predicate Untouched(wire: seq<Tx>, log: seq<Event>, p: Place) {
    AnswersOf(wire, p) == [] && FiledBy(log, p) == []
  }

  /** The hop under way: nothing yet, or one answer and the reads made so far. */
  predicate InFlight(wire: seq<Tx>, log: seq<Event>, t: nat, k: Task) {
    var p := Place(t, |k.hops|);
    match Held(k.pc)
    case None => Untouched(wire, log, p)
    case Some(r) =>
      && AnsweredThenRead(wire, log, p, ReadSoFar(k.pc, p, k.leg.url))
      && Brought(AnswersOf(wire, p)[0], t, k, r)
  }

  ghost predicate TaskRecorded(wire: seq<Tx>, log: seq<Event>, t: nat, k: Task) {
    && InFlight(wire, log, t, k)
    && (forall n :: 0 <= n < |k.hops| ==> HopRecorded(wire, log, Place(t, n), k.hops[n]))
    && (forall n :: n > |k.hops| ==> Untouched(wire, log, Place(t, n)))
  }

  /** The event reads the answer of a transmission of its own hop, to the URL it is filed under. */
  ghost predicate EventOk(wire: seq<Tx>, event: Event) {
    ReaderOf(event).Some? ==>
      exists i :: 0 <= i < |wire| && IsAnswer(wire[i], event.place)
        && wire[i].leg.url == event.from && wire[i].answer == Some(event.resp)
  }

  ghost predicate EventsOk(wire: seq<Tx>, log: seq<Event>) {
    forall j :: 0 <= j < |log| ==> EventOk(wire, log[j])
  }

  ghost predicate Records(s: State) {
    && EventsOk(s.wire, s.log)
    && forall t :: 0 <= t < |s.tasks| ==> TaskRecorded(s.wire, s.log, t, s.tasks[t])
  }

  // ----- growth keeps it -----

  /** What happens to other hops leaves a hop's answers and reads alone. */
  lemma ElsewhereKeeps(s: State, t: nat, k: Task, e: Effect, p: Place)
    requires Files(s, t, k, e) && (p == Place(t, |k.hops|) ==> Untouching(e))
    ensures AnswersOf(s.wire + e.sent, p) == AnswersOf(s.wire, p)
    ensures FiledBy(s.log + e.events, p) == FiledBy(s.log, p)
    ensures forall n :: 0 <= n <= |s.log| ==> (s.log + e.events)[..n] == s.log[..n]
  {
    hide AnswersOf, FiledBy;
    AnswersExtend(s.wire, e.sent, p);
    FiledExtend(s.log, e.events, p);
  }

  /** The step neither brings an answer nor reads one. */
  predicate Untouching(e: Effect) {
    (e.sent != [] ==> e.sent[0].answer.None?) && Reading(e) == None
  }

  lemma OtherRecorded(s: State, t: nat, k: Task, e: Effect, i: nat, other: Task)
    requires Files(s, t, k, e) && i != t && TaskRecorded(s.wire, s.log, i, other)
    ensures TaskRecorded(s.wire + e.sent, s.log + e.events, i, other)
  {
    hide Files, AnswersOf, FiledBy;
    forall n: nat
      ensures AnswersOf(s.wire + e.sent, Place(i, n)) == AnswersOf(s.wire, Place(i, n))
      ensures FiledBy(s.log + e.events, Place(i, n)) == FiledBy(s.log, Place(i, n))
    {
      ElsewhereKeeps(s, t, k, e, Place(i, n));
    }
    ElsewhereKeeps(s, t, k, e, Place(i, |other.hops|));
    assert forall n :: 0 <= n < |other.hops| ==> HopRecorded(s.wire, s.log, Place(i, n), other.hops[n]);
    assert forall n :: n > |other.hops| ==> Untouched(s.wire, s.log, Place(i, n));
  }

  /** The hop under way after the step, when it is the same one. */
  lemma OwnInFlight(s: State, t: nat, k: Task, e: Effect)
    requires InFlight(s.wire, s.log, t, k) && Files(s, t, k, e) && e.task.hops == k.hops
    ensures InFlight(s.wire + e.sent, s.log + e.events, t, e.task)
  {
    hide AnswersOf, FiledBy;
    var p := Place(t, |k.hops|);
    AnswersExtend(s.wire, e.sent, p);
    FiledExtend(s.log, e.events, p);
    if Held(k.pc).Some? {
      assert (s.log + e.events)[..AnswersOf(s.wire, p)[0].logged] == s.log[..AnswersOf(s.wire, p)[0].logged];
    } else {
      assert (s.log + e.events)[..|s.log|] == s.log;
    }
  }

  /** The hop that the step completes. */
  lemma OwnHop(s: State, t: nat, k: Task, e: Effect)
    requires InFlight(s.wire, s.log, t, k) && Files(s, t, k, e) && |e.task.hops| == |k.hops| + 1
    ensures HopRecorded(s.wire + e.sent, s.log + e.events, Place(t, |k.hops|), e.task.hops[|k.hops|])
    ensures Held(e.task.pc).None?
  {
    hide AnswersOf, FiledBy;
    var p := Place(t, |k.hops|);
    AnswersExtend(s.wire, e.sent, p);
    FiledExtend(s.log, e.events, p);
    assert (s.log + e.events)[..AnswersOf(s.wire, p)[0].logged] == s.log[..AnswersOf(s.wire, p)[0].logged];
  }

  lemma OwnRecorded(s: State, t: nat, k: Task, e: Effect)
    requires TaskRecorded(s.wire, s.log, t, k) && Files(s, t, k, e)
    ensures TaskRecorded(s.wire + e.sent, s.log + e.events, t, e.task)
  {
    hide InFlight, AnswersOf, FiledBy, Untouching;
    forall n: nat | n != |k.hops|
      ensures AnswersOf(s.wire + e.sent, Place(t, n)) == AnswersOf(s.wire, Place(t, n))
      ensures FiledBy(s.log + e.events, Place(t, n)) == FiledBy(s.log, Place(t, n))
      ensures n < |k.hops| ==> HopRecorded(s.wire + e.sent, s.log + e.events, Place(t, n), k.hops[n])
    {
      ElsewhereKeeps(s, t, k, e, Place(t, n));
      assert n < |k.hops| ==> HopRecorded(s.wire, s.log, Place(t, n), k.hops[n]);
      assert n > |k.hops| ==> Untouched(s.wire, s.log, Place(t, n));
    }
    if e.task.hops == k.hops {
      OwnInFlight(s, t, k, e);
    } else {
      OwnHop(s, t, k, e);
      NextInFlight(s.wire + e.sent, s.log + e.events, t, e.task);
    }
  }

  lemma NextInFlight(wire: seq<Tx>, log: seq<Event>, t: nat, k: Task)
    requires Held(k.pc).None? && Untouched(wire, log, Place(t, |k.hops|))
    ensures InFlight(wire, log, t, k)
  {
  }

  lemma EventStaysOk(wire: seq<Tx>, sent: seq<Tx>, event: Event)
    requires EventOk(wire, event)
    ensures EventOk(wire + sent, event)
  {
    if ReaderOf(event).Some? {
      var i :| 0 <= i < |wire| && IsAnswer(wire[i], event.place)
        && wire[i].leg.url == event.from && wire[i].answer == Some(event.resp);
      assert (wire + sent)[i] == wire[i];
    }
  }

  lemma NewEvents(s: State, t: nat, k: Task, e: Effect)
    requires InFlight(s.wire, s.log, t, k) && Files(s, t, k, e) && EventsOk(s.wire, s.log)
    ensures EventsOk(s.wire + e.sent, s.log + e.events)
  {
    hide AnswersOf, FiledBy;
    var all := s.log + e.events;
    forall j | 0 <= j < |all|
      ensures EventOk(s.wire + e.sent, all[j])
    {
      if j >= |s.log| && ReaderOf(all[j]).Some? {
        assert Stems(t, k, e.events[j - |s.log|]);
        var p := Place(t, |k.hops|);
        var x := AnswersOf(s.wire, p)[0];
        assert x in AnswersOf(s.wire, p);
        AnswersAreSent(s.wire, p, x);
      }
      EventStaysOk(s.wire, e.sent, all[j]);
    }
  }

  lemma RecordsStep(sh: Shared, s: State, t: nat, c: Choice)
    requires Records(s) && t < |s.tasks| && EffectOf(sh, s, t, c).Some?
    ensures Records(Apply(s, t, EffectOf(sh, s, t, c).value))
  {
    hide EffectOf, Files, EventsOk, InFlight, HopRecorded, Untouched;
    var k, e := s.tasks[t], EffectOf(sh, s, t, c).value;
    var s' := Apply(s, t, e);
    StepFiles(sh, s, t, c);
    assert TaskRecorded(s.wire, s.log, t, k);
    NewEvents(s, t, k, e);
    forall i | 0 <= i < |s'.tasks|
      ensures TaskRecorded(s'.wire, s'.log, i, s'.tasks[i])
    {
      if i == t {
        OwnRecorded(s, t, k, e);
      } else {
        OtherRecorded(s, t, k, e, i, s.tasks[i]);
      }
    }
  }

  lemma {:induction false} PlayRecords(sh: Shared, s0: State, moves: seq<Move>)
    requires Init(s0) && Play(sh, s0, moves).Some?
    ensures Records(Play(sh, s0, moves).value)
  {
    if moves == [] {
      forall p
        ensures Untouched(s0.wire, s0.log, p)
      {
        assert s0.log[..0] == [];
      }
    } else {
      var last := |moves| - 1;
      PlayRecords(sh, s0, moves[..last]);
      RecordsStep(sh, Play(sh, s0, moves[..last]).value, moves[last].task, moves[last].choice);
    }
  }

  /**
   The caches are built from answers and from all of them: every response read for the
   caches answered a transmission of the hop that reads it, to the URL it is filed under;
   and every completed hop was answered on the wire exactly once and, after that, read
   exactly once for its cookies, then its hints, then its advertisement.
   */
  lemma NothingInventedNothingForgotten(sh: Shared, s: State)
    requires Reachable(sh, s)
    ensures EventsOk(s.wire, s.log)
    ensures forall t, n :: 0 <= t < |s.tasks| && 0 <= n < |s.tasks[t].hops| ==>
              HopRecorded(s.wire, s.log, Place(t, n), s.tasks[t].hops[n])
  {
    hide HopRecorded, EventsOk, InFlight, Untouched;
    var s0, moves := Played(sh, s);
    PlayRecords(sh, s0, moves);
    forall t, n | 0 <= t < |s.tasks| && 0 <= n < |s.tasks[t].hops|
      ensures HopRecorded(s.wire, s.log, Place(t, n), s.tasks[t].hops[n])
    {
      assert TaskRecorded(s.wire, s.log, t, s.tasks[t]);
    }
  }

  /** What the user preset is logged at the start and nowhere else. */
  lemma {:induction false} PresetFirst(sh: Shared, s0: State, moves: seq<Move>)
    requires Init(s0) && Play(sh, s0, moves).Some?
    ensures var log := Play(sh, s0, moves).value.log;
      log != [] && log[0] == s0.log[0] && forall j :: 0 < j < |log| ==> !log[j].Preset?
  {
    hide EffectOf;
    if moves != [] {
      var last := |moves| - 1;
      PresetFirst(sh, s0, moves[..last]);
      StepFiles(sh, Play(sh, s0, moves[..last]).value, moves[last].task, moves[last].choice);
    }
  }

  lemma FirstLog(s0: State)
    requires Init(s0)
    ensures s0.log == [Preset(s0.altSvc, s0.hints, s0.jar)]
  {
  }

  /**
   A client whose Alt-Svc cache starts empty and that meets no answer advertising h3 sends
   everything over Http2 and, if it has a proxy, through it.
   */
  lemma NoAdvertisementNoBypass(sh: Shared, r: Run)
    requires IsRun(sh, r) && r.states[0].altSvc == {}
    requires forall i :: 0 <= i < |End(r).wire| && End(r).wire[i].answer.Some?
               ==> !sh.advertisesH3(End(r).wire[i].answer.value)
    ensures forall i :: 0 <= i < |End(r).wire| ==> !End(r).wire[i].conn.h3 && End(r).wire[i].conn.via == sh.proxy
  {
    hide Play, Init, HopRecorded;
    var s := End(r);
    assert Reachable(sh, s);
    RunIsPlayed(sh, r, |r.moves|);
    PresetFirst(sh, r.states[0], r.moves[..|r.moves|]);
    FirstLog(r.states[0]);
    NothingInventedNothingForgotten(sh, s);
    forall i | 0 <= i < |s.wire|
      ensures !s.wire[i].conn.h3 && s.wire[i].conn.via == sh.proxy
    {
      forall a | 0 <= a < |s.log|
        ensures !Announces(sh, s.log[a], s.wire[i].leg.at)
      {
        assert EventOk(s.wire, s.log[a]);
      }
      UnannouncedGoesOverHttp2(sh, s, i);
      ProxyIsPassedOver(sh, s, i);
    }
  }

  /** A server whose answer depends on the request alone, over whichever transport it arrives. */
  ghost predicate Honest(server: Server, wire: seq<Tx>) {
    forall i :: 0 <= i < |wire| && wire[i].answer.Some? ==>
      wire[i].answer.value == server(wire[i].request, wire[i].call.body)
  }

  /**
   The transport cannot be observed: when the server's answers depend on the requests
   alone, then under every interleaving, with Http3 dials and transmissions failing at will,
   a call that ends otherwise than by a transport error ends as the recursive specification
   over its own reads says: same response, same final URL, same error.
   */
  lemma TransportUnobservable(sh: Shared, server: Server, s: State, t: nat)
    requires Reachable(sh, s) && t < |s.tasks| && s.tasks[t].pc.Finished?
    requires s.tasks[t].pc.result != Err(Transport)
    requires Honest(server, s.wire)
    ensures var k := s.tasks[t];
      Replay(sh, server, k.start, ReadsOf(k.hops), 0) == Done(k.pc.result)
  {
    HopsAreAnswered(sh, server, s, t);
    EndsAsReplayed(sh, server, s, t);
  }

  lemma HopsAreAnswered(sh: Shared, server: Server, s: State, t: nat)
    requires Reachable(sh, s) && t < |s.tasks| && Honest(server, s.wire)
    ensures Answers(sh, server, s.tasks[t].hops)
  {
    hide Reachable, EventsOk;
    NothingInventedNothingForgotten(sh, s);
    TransmissionBound(sh, s, t);
    var hops := s.tasks[t].hops;
    forall n | 0 <= n < |hops|
      ensures hops[n].response == AnswerTo(sh, server, hops[n], n)
    {
      var p := Place(t, n);
      assert HopRecorded(s.wire, s.log, p, hops[n]);
      var x := AnswersOf(s.wire, p)[0];
      assert x in AnswersOf(s.wire, p);
      AnswersAreSent(s.wire, p, x);
      var i :| 0 <= i < |s.wire| && s.wire[i] == x;
      assert EntryOk(sh, s.wire[i]);
    }
  }
}
