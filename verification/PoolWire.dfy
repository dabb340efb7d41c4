/**
 What goes over the wire: how often a call transmits, over which connection, and with
 which request, for every interleaving.
 */
module PoolWire {
  import opened Wrappers
  import opened HeaderMaps
  import opened Redirects
  import opened PoolKeys
  import opened PoolProtocol
  import opened PoolLocks
  import opened PoolHistory
  import opened PoolCalls

  /** A transmission goes to the authority of its URL and carries the request of its hop. */
  predicate EntryOk(sh: Shared, x: Tx) {
    && x.leg.url.host.Some? && x.leg.at == LookupAuthority(x.leg.url)
    && sh.web.parse(x.call.url) == Some(x.leg.url)
    && Fits(sh, x.conn, x.leg.at)
    && (x.conn.h3 ==> x.leg.h3)
    && (x.how.Tested? ==> !x.conn.h3) && (x.how.Running? ==> x.conn.h3)
    && (x.how.Untested? ==> !x.conn.h3 && x.leg.h3)
    && x.request == sh.request(x.call, x.leg.url, x.leg.cookie, x.leg.acceptCh, x.hop == 0)
  }

  /** Two transmissions of one hop: the first failed over Http3, the second repeats it over Http2. */
  predicate PairOk(x: Tx, y: Tx) {
    (x.task == y.task && x.hop == y.hop)
    ==> x.conn.h3 && x.answer == None && !y.conn.h3 && x.request == y.request && x.call.body == y.call.body
  }

  /** Between a failed Http3 transmission and its repetition. */
  predicate Repeating(pc: Pc) {
    pc.FallingBack? || PhaseOf(pc) == Fallback
  }

  predicate Unsent(pc: Pc) {
    PhaseOf(pc) == Read || PhaseOf(pc) == Acquire || PhaseOf(pc) == Dial || pc.Sending?
  }

  /** What an earlier transmission of a call must look like, one of the current hop in particular. */
  predicate EarlierOk(x: Tx, t: nat, k: Task) {
    x.task == t ==>
      && x.hop <= |k.hops|
      && x.call == (if x.hop < |k.hops| then k.hops[x.hop].call else k.call)
      && (x.hop == |k.hops| && k.pc.Finished? ==> k.pc.result == Err(Transport))
      && (x.hop == |k.hops| && Unsent(k.pc) ==> false)
      && (x.hop == |k.hops| && Repeating(k.pc) ==>
           x.conn.h3 && x.answer == None && x.call == k.call && x.leg == k.leg)
  }

  /** Transmissions a call may have made in its current hop. */
  function Used(k: Task): nat {
    if Unsent(k.pc) then 0
    else if Repeating(k.pc) then 1
    else if |k.hops| >= MAX_HOPS then 0
    else 2
  }

  /** A hop keeps its variables until it is recorded with them. */
  predicate Grows(k: Task, after: Task) {
    || (after.hops == k.hops && after.call == k.call)
    || (|after.hops| == |k.hops| + 1 && k.hops <= after.hops && after.hops[|k.hops|].call == k.call)
  }

  /** How one step transmits and moves on. */
  predicate Discipline(sh: Shared, t: nat, k: Task, e: Effect) {
    && |e.sent| <= 1
    && 2 * |k.hops| + Used(k) + |e.sent| <= 2 * |e.task.hops| + Used(e.task)
    && Grows(k, e.task)
    && (e.task.pc.Finished? && e.task.hops == k.hops && e.task.pc.result != Err(Transport)
        ==> Unsent(k.pc) && e.sent == [])
    && (Unsent(e.task.pc) ==> (Unsent(k.pc) && e.sent == []) || |e.task.hops| == |k.hops| + 1)
    && (Repeating(e.task.pc) ==>
         && e.task.hops == k.hops && e.task.call == k.call && e.task.leg == k.leg
         && (if Repeating(k.pc) then e.sent == []
             else Unsent(k.pc) && |e.sent| == 1 && e.sent[0].conn.h3 && e.sent[0].answer == None))
    && (e.sent != [] ==>
         var x := e.sent[0];
         && x.task == t && x.hop == |k.hops| && x.call == k.call && x.leg == k.leg
         && EntryOk(sh, x) && |k.hops| < MAX_HOPS
         && (Unsent(k.pc) || (Repeating(k.pc) && !x.conn.h3)))
  }

  lemma ReadDiscipline(sh: Shared, s: State, t: nat, k: Task)
    requires TaskTyped(sh, k) && (Underway(k.pc) ==> |k.hops| < MAX_HOPS) && ReadStep(sh, s, k).Some?
    ensures Discipline(sh, t, k, ReadStep(sh, s, k).value)
  {
    hide Fits, LookupAuthority, NewConn, SlotKey, H2Key;
  }

  lemma AcquireDiscipline(sh: Shared, s: State, t: nat, k: Task, c: Choice)
    requires TaskTyped(sh, k) && (Underway(k.pc) ==> |k.hops| < MAX_HOPS) && AcquireStep(s, k, c).Some?
    ensures Discipline(sh, t, k, AcquireStep(s, k, c).value)
  {
    hide Fits, LookupAuthority, NewConn, SlotKey, H2Key;
  }

  lemma DialDiscipline(sh: Shared, s: State, t: nat, k: Task, c: Choice)
    requires TaskTyped(sh, k) && (Underway(k.pc) ==> |k.hops| < MAX_HOPS) && DialingStep(sh, s, t, k, c).Some?
    ensures Discipline(sh, t, k, DialingStep(sh, s, t, k, c).value)
  {
    hide Fits, LookupAuthority, NewConn, SlotKey, H2Key;
  }

  lemma TransmitDiscipline(sh: Shared, s: State, t: nat, k: Task, c: Choice)
    requires TaskTyped(sh, k) && (Underway(k.pc) ==> |k.hops| < MAX_HOPS) && TransmitStep(sh, s, t, k, c).Some?
    ensures Discipline(sh, t, k, TransmitStep(sh, s, t, k, c).value)
  {
    hide Fits, LookupAuthority, NewConn, SlotKey, H2Key;
  }

  lemma FallbackDiscipline(sh: Shared, s: State, t: nat, k: Task, c: Choice)
    requires TaskTyped(sh, k) && (Underway(k.pc) ==> |k.hops| < MAX_HOPS) && FallbackStep(sh, s, t, k, c).Some?
    ensures Discipline(sh, t, k, FallbackStep(sh, s, t, k, c).value)
  {
    hide Fits, LookupAuthority, NewConn, SlotKey, H2Key;
  }

  lemma RecordDiscipline(sh: Shared, s: State, t: nat, k: Task)
    requires TaskTyped(sh, k) && (Underway(k.pc) ==> |k.hops| < MAX_HOPS) && RecordStep(sh, t, k).Some?
    ensures Discipline(sh, t, k, RecordStep(sh, t, k).value)
  {
    hide Fits, LookupAuthority, NewConn, SlotKey, H2Key;
  }

  function CountTx(wire: seq<Tx>, t: nat): nat {
    if wire == [] then 0
    else CountTx(wire[..|wire| - 1], t) + if wire[|wire| - 1].task == t then 1 else 0
  }

  ghost predicate EntriesOk(sh: Shared, wire: seq<Tx>) {
    forall i :: 0 <= i < |wire| ==> EntryOk(sh, wire[i])
  }

  ghost predicate PairsOk(wire: seq<Tx>) {
    forall i, j :: 0 <= i < j < |wire| ==> PairOk(wire[i], wire[j])
  }

  ghost predicate EarlierAll(wire: seq<Tx>, t: nat, k: Task) {
    forall i :: 0 <= i < |wire| ==> EarlierOk(wire[i], t, k)
  }

  /** The wire as one call sees it. */
  ghost predicate TaskWire(wire: seq<Tx>, t: nat, k: Task) {
    EarlierAll(wire, t, k) && CountTx(wire, t) <= 2 * |k.hops| + Used(k)
  }

  ghost predicate WireOk(sh: Shared, s: State) {
    && EntriesOk(sh, s.wire) && PairsOk(s.wire)
    && (forall i :: 0 <= i < |s.wire| ==> s.wire[i].task < |s.tasks|)
    && forall t :: 0 <= t < |s.tasks| ==> TaskWire(s.wire, t, s.tasks[t])
  }

  lemma PairsExtend(sh: Shared, wire: seq<Tx>, t: nat, k: Task, e: Effect)
    requires EntriesOk(sh, wire) && PairsOk(wire) && TaskWire(wire, t, k) && Discipline(sh, t, k, e)
    ensures PairsOk(wire + e.sent)
  {
    var after := wire + e.sent;
    forall i, j | 0 <= i < j < |after|
      ensures PairOk(after[i], after[j])
    {
      assert EntryOk(sh, wire[i]) && EarlierOk(wire[i], t, k);
      if j < |wire| {
        assert PairOk(wire[i], wire[j]);
      }
    }
  }

  lemma CountExtend(wire: seq<Tx>, sent: seq<Tx>, t: nat)
    requires |sent| <= 1
    ensures CountTx(wire + sent, t) == CountTx(wire, t) + if sent != [] && sent[0].task == t then 1 else 0
  {
    if sent == [] {
      assert wire + sent == wire;
    } else {
      assert (wire + sent)[..|wire|] == wire;
    }
  }

  lemma OwnEntry(sh: Shared, x: Tx, t: nat, k: Task, e: Effect)
    requires EarlierOk(x, t, k) && Discipline(sh, t, k, e)
    ensures EarlierOk(x, t, e.task)
  {
  }

  lemma OwnSent(sh: Shared, t: nat, k: Task, e: Effect)
    requires Discipline(sh, t, k, e) && e.sent != []
    ensures EarlierOk(e.sent[0], t, e.task)
  {
  }

  lemma OwnExtend(sh: Shared, wire: seq<Tx>, t: nat, k: Task, e: Effect)
    requires TaskWire(wire, t, k) && Discipline(sh, t, k, e)
    ensures TaskWire(wire + e.sent, t, e.task)
  {
    CountExtend(wire, e.sent, t);
    var after := wire + e.sent;
    forall i | 0 <= i < |after|
      ensures EarlierOk(after[i], t, e.task)
    {
      if i < |wire| {
        assert EarlierOk(wire[i], t, k);
        OwnEntry(sh, wire[i], t, k, e);
      } else {
        OwnSent(sh, t, k, e);
      }
    }
  }

  lemma OtherExtend(sh: Shared, wire: seq<Tx>, t: nat, k: Task, e: Effect, i: nat, other: Task)
    requires i != t && TaskWire(wire, i, other) && Discipline(sh, t, k, e)
    ensures TaskWire(wire + e.sent, i, other)
  {
    hide CountTx, EntryOk, Used, Unsent, Repeating;
    CountExtend(wire, e.sent, i);
    var after := wire + e.sent;
    forall j | 0 <= j < |after|
      ensures EarlierOk(after[j], i, other)
    {
      if j < |wire| {
        assert EarlierOk(wire[j], i, other);
      }
    }
  }

  lemma StepDiscipline(sh: Shared, s: State, t: nat, c: Choice)
    requires t < |s.tasks| && EffectOf(sh, s, t, c).Some?
    requires TaskTyped(sh, s.tasks[t]) && (Underway(s.tasks[t].pc) ==> |s.tasks[t].hops| < MAX_HOPS)
    ensures Discipline(sh, t, s.tasks[t], EffectOf(sh, s, t, c).value)
  {
    var k := s.tasks[t];
    match PhaseOf(k.pc)
    case Read => ReadDiscipline(sh, s, t, k);
    case Acquire => AcquireDiscipline(sh, s, t, k, c);
    case Dial => DialDiscipline(sh, s, t, k, c);
    case Transmit => TransmitDiscipline(sh, s, t, k, c);
    case Fallback => FallbackDiscipline(sh, s, t, k, c);
    case Record => RecordDiscipline(sh, s, t, k);
  }

  lemma EntriesExtend(sh: Shared, wire: seq<Tx>, t: nat, k: Task, e: Effect)
    requires EntriesOk(sh, wire) && Discipline(sh, t, k, e)
    ensures EntriesOk(sh, wire + e.sent) && |e.sent| <= 1 && (e.sent != [] ==> e.sent[0].task == t)
  {
    hide EntryOk;
  }

  lemma WireStep(sh: Shared, s: State, t: nat, c: Choice)
    requires WireOk(sh, s) && t < |s.tasks| && EffectOf(sh, s, t, c).Some?
    requires TaskTyped(sh, s.tasks[t]) && (Underway(s.tasks[t].pc) ==> |s.tasks[t].hops| < MAX_HOPS)
    ensures WireOk(sh, Apply(s, t, EffectOf(sh, s, t, c).value))
  {
    hide EffectOf, EntriesOk, PairsOk, TaskWire, Discipline, TaskTyped;
    var k := s.tasks[t];
    var e := EffectOf(sh, s, t, c).value;
    StepDiscipline(sh, s, t, c);
    EntriesExtend(sh, s.wire, t, k, e);
    assert TaskWire(s.wire, t, k);
    PairsExtend(sh, s.wire, t, k, e);
    OwnExtend(sh, s.wire, t, k, e);
    var s' := Apply(s, t, e);
    assert |s'.tasks| == |s.tasks|;
    forall i | 0 <= i < |s'.tasks|
      ensures TaskWire(s'.wire, i, s'.tasks[i])
    {
      if i != t {
        OtherExtend(sh, s.wire, t, k, e, i, s.tasks[i]);
      }
    }
  }

  lemma {:induction false} PlayWire(sh: Shared, s0: State, moves: seq<Move>)
    requires Init(s0) && Play(sh, s0, moves).Some?
    ensures WireOk(sh, Play(sh, s0, moves).value)
  {
    if moves != [] {
      var last := |moves| - 1;
      PlayWire(sh, s0, moves[..last]);
      PlayShape(sh, s0, moves[..last]);
      var s, t := Play(sh, s0, moves[..last]).value, moves[last].task;
      PlayCalls(sh, s0, moves[..last], t);
      WireStep(sh, s, t, moves[last].choice);
    }
  }

  /**
   A call makes at most twenty transmissions; two of one hop are a failed one over Http3
   and then one over Http2 with the same request and body, so never three; and each goes
   over a connection dialled for the authority of its URL.
   */
  lemma TransmissionBound(sh: Shared, s: State, t: nat)
    requires Reachable(sh, s) && t < |s.tasks|
    ensures CountTx(s.wire, t) <= 20
    ensures PairsOk(s.wire) && EntriesOk(sh, s.wire)
  {
    var s0, moves := Played(sh, s);
    PlayWire(sh, s0, moves);
    PlayCalls(sh, s0, moves, t);
    assert TaskWire(s.wire, t, s.tasks[t]);
    UsedBound(sh.web, s.tasks[t]);
  }

  // ----- what the requests on the wire carry -----

  predicate ReadsTrue(sh: Shared, s: State, g: Leg) {
    RouteTrue(sh, s.log, g) && HintTrue(sh, s.log, g) && JarTrue(sh, s.log, g)
  }

  ghost predicate WireTrue(sh: Shared, s: State) {
    forall i :: 0 <= i < |s.wire| ==> ReadsTrue(sh, s, s.wire[i].leg)
  }

  /** Reads stay true while the log grows. */
  lemma ReadsStay(sh: Shared, s: State, g: Leg, s': State)
    requires ReadsTrue(sh, s, g) && s.log <= s'.log
    ensures ReadsTrue(sh, s', g)
  {
    assert s'.log[..g.hintsAt] == s.log[..g.hintsAt] && s'.log[..g.jarAt] == s.log[..g.jarAt];
    assert s'.log[..g.routedAt] == s.log[..g.routedAt];
  }

  lemma WireTrueStep(sh: Shared, s: State, t: nat, c: Choice)
    requires WireTrue(sh, s) && History(sh, s) && t < |s.tasks| && EffectOf(sh, s, t, c).Some?
    requires TaskTyped(sh, s.tasks[t]) && (Underway(s.tasks[t].pc) ==> |s.tasks[t].hops| < MAX_HOPS)
    ensures WireTrue(sh, Apply(s, t, EffectOf(sh, s, t, c).value))
  {
    hide EffectOf, ReadsTrue, History, TaskTyped;
    var e := EffectOf(sh, s, t, c).value;
    var s' := Apply(s, t, e);
    if e.sent != [] {
      SentAfterReading(sh, s, t, c);
    }
    forall i | 0 <= i < |s'.wire|
      ensures ReadsTrue(sh, s', s'.wire[i].leg)
    {
      assert ReadsTrue(sh, s, s'.wire[i].leg);
      ReadsStay(sh, s, s'.wire[i].leg, s');
    }
  }

  /** What is sent was read before. */
  lemma SentAfterReading(sh: Shared, s: State, t: nat, c: Choice)
    requires History(sh, s) && t < |s.tasks| && EffectOf(sh, s, t, c).Some?
    requires TaskTyped(sh, s.tasks[t]) && (Underway(s.tasks[t].pc) ==> |s.tasks[t].hops| < MAX_HOPS)
    requires EffectOf(sh, s, t, c).value.sent != []
    ensures |EffectOf(sh, s, t, c).value.sent| == 1
    ensures ReadsTrue(sh, s, EffectOf(sh, s, t, c).value.sent[0].leg)
  {
    StepDiscipline(sh, s, t, c);
    assert LegTrue(sh, s.log, s.tasks[t]);
  }

  lemma {:induction false} PlayWireTrue(sh: Shared, s0: State, moves: seq<Move>)
    requires Init(s0) && Play(sh, s0, moves).Some?
    ensures WireTrue(sh, Play(sh, s0, moves).value)
  {
    if moves != [] {
      var last := |moves| - 1;
      PlayWireTrue(sh, s0, moves[..last]);
      PlayHistory(sh, s0, moves[..last]);
      PlayShape(sh, s0, moves[..last]);
      var s, t := Play(sh, s0, moves[..last]).value, moves[last].task;
      PlayCalls(sh, s0, moves[..last], t);
      WireTrueStep(sh, s, t, moves[last].choice);
    }
  }

  /**
   Every request on the wire, first or repeated, under every interleaving: it carries the
   platform version exactly when a response of the same origin recorded before its read of
   the hint cache asked for it, its cookies are the ones the jar then matched and are marked
   sensitive, and the user-activation header is confined to hop 0.
   */
  lemma RequestsShowTheirHistory(w: World, proxy: Option<Proxy>, s: State, i: nat)
    requires Reachable(ClientOf(w, proxy), s) && i < |s.wire|
    ensures var sh, x := ClientOf(w, proxy), s.wire[i];
      && x.leg.hintsAt <= |s.log| && x.leg.jarAt <= |s.log|
      && Lookup(x.request.headers, SecChUaPlatformVersion)
         == (if Asked(sh, s.log[..x.leg.hintsAt], OriginText(x.leg.url))
             then Written(w.web, Some(w.profile.secChUaPlatformVersion), false)
             else [])
      && Lookup(x.request.headers, Cookie)
         == Written(w.web, w.web.cookies(JarOf(sh, s.log[..x.leg.jarAt]), x.leg.url), true)
      && Lookup(x.request.headers, Authorization) == []
      && (x.hop > 0 ==> Lookup(x.request.headers, SecFetchUser) == [])
  {
    var sh := ClientOf(w, proxy);
    var s0, moves := Played(sh, s);
    PlayWireTrue(sh, s0, moves);
    PlayWire(sh, s0, moves);
    var x := s.wire[i];
    assert ReadsTrue(sh, s, x.leg) && EntryOk(sh, x);
    RequestHeaders(w, x.call, x.leg.url, x.leg.cookie, x.leg.acceptCh, x.hop == 0);
  }

  lemma SentWithHint(w: World, proxy: Option<Proxy>, s: State, i: nat)
    requires Reachable(ClientOf(w, proxy), s) && i < |s.wire|
    ensures var sh, g := ClientOf(w, proxy), s.wire[i].leg;
      g.hintsAt <= |s.log| && (g.acceptCh <==> Asked(sh, s.log[..g.hintsAt], OriginText(g.url)))
  {
    var sh := ClientOf(w, proxy);
    var s0, moves := Played(sh, s);
    PlayWireTrue(sh, s0, moves);
    assert ReadsTrue(sh, s, s.wire[i].leg);
  }

  /** A hop is routed over Http3 only on the strength of an announcement. */
  lemma UnannouncedGoesOverHttp2(sh: Shared, s: State, i: nat)
    requires Reachable(sh, s) && i < |s.wire| && NeverAnnounced(sh, s.log, s.wire[i].leg.at)
    ensures !s.wire[i].leg.h3 && !s.wire[i].conn.h3
  {
    var s0, moves := Played(sh, s);
    PlayWireTrue(sh, s0, moves);
    PlayWire(sh, s0, moves);
    var x := s.wire[i];
    assert ReadsTrue(sh, s, x.leg) && EntryOk(sh, x);
    NeverStanding(sh, s.log, x.leg.at, x.leg.routedAt);
  }

  /**
   A transmission goes through the client's proxy exactly when there is none to go through
   or its connection is Http2; and it goes over Http3 only if Http3 stood for the authority
   when its hop was routed.
   */
  lemma ProxyIsPassedOver(sh: Shared, s: State, i: nat)
    requires Reachable(sh, s) && i < |s.wire|
    ensures var x := s.wire[i];
      && (x.conn.via == sh.proxy <==> sh.proxy == None || !x.conn.h3)
      && (x.conn.h3 ==>
            && x.leg.url.host.Some? && x.leg.routedAt <= |s.log|
            && exists a :: Unbroken(sh, s.log[..x.leg.routedAt], LookupAuthority(x.leg.url), a))
  {
    var s0, moves := Played(sh, s);
    PlayWireTrue(sh, s0, moves);
    PlayWire(sh, s0, moves);
    var x := s.wire[i];
    assert ReadsTrue(sh, s, x.leg) && EntryOk(sh, x);
    if x.leg.routedAt <= |s.log| {
      StandingMeans(sh, s.log[..x.leg.routedAt], x.leg.at);
    }
  }

  /** A plain-http URL of the host without an explicit port: filed under 443, looked up under 80. */
  predicate PlainHttp(u: Url, host: string) {
    u.scheme == "http" && u.port == None && u.host == Some(host)
  }

  /**
   However often such URLs of a host advertise h3, no hop to one of them is routed over
   Http3 in any run, unless something else announces Http3 for port 80: their own
   advertisements never do.
   */
  lemma PlainHttpNeverUpgrades(sh: Shared, s: State, host: string)
    requires Reachable(sh, s)
    requires forall a :: 0 <= a < |s.log| && Announces(sh, s.log[a], Authority(host, 80))
               ==> s.log[a].AltSvcRead? && PlainHttp(s.log[a].from, host)
    ensures forall t :: 0 <= t < |s.tasks| && Underway(s.tasks[t].pc) && PlainHttp(s.tasks[t].leg.url, host)
              ==> !s.tasks[t].leg.h3
    ensures forall i :: 0 <= i < |s.wire| && PlainHttp(s.wire[i].leg.url, host) ==> !s.wire[i].conn.h3
  {
    var at := Authority(host, 80);
    assert NeverAnnounced(sh, s.log, at);
    ReachableShape(sh, s);
    AltSvcAgreesWithHistory(sh, s);
    forall t | 0 <= t < |s.tasks| && Underway(s.tasks[t].pc) && PlainHttp(s.tasks[t].leg.url, host)
      ensures !s.tasks[t].leg.h3
    {
      assert TaskTyped(sh, s.tasks[t]) && RouteTrue(sh, s.log, s.tasks[t].leg);
      NeverStanding(sh, s.log, at, s.tasks[t].leg.routedAt);
    }
    forall i | 0 <= i < |s.wire| && PlainHttp(s.wire[i].leg.url, host)
      ensures !s.wire[i].conn.h3
    {
      EntryIsTyped(sh, s, i);
      UnannouncedGoesOverHttp2(sh, s, i);
    }
  }

  lemma EntryIsTyped(sh: Shared, s: State, i: nat)
    requires Reachable(sh, s) && i < |s.wire|
    ensures EntryOk(sh, s.wire[i])
  {
    var s0, moves := Played(sh, s);
    PlayWire(sh, s0, moves);
  }

  /** The hops of the call before the one that the transmission belongs to. */
  function Earlier(s: State, x: Tx): seq<Hop>
    requires x.task < |s.tasks| && x.hop <= |s.tasks[x.task].hops|
  {
    s.tasks[x.task].hops[..x.hop]
  }

  /** A transmission was made with the variables that the hops before it lead to. */
  lemma SentAsLed(sh: Shared, s: State, i: nat)
    requires Reachable(sh, s) && i < |s.wire|
    ensures var x := s.wire[i];
      && x.task < |s.tasks| && x.hop <= |s.tasks[x.task].hops|
      && var start := s.tasks[x.task].start;
      && start == Start(start.url, start.verb, start.body)
      && Leads(sh.web, start, Earlier(s, x), x.call)
  {
    hide EntriesOk, PairsOk, CountTx, Used, Repeating, Unsent;
    var s0, moves := Played(sh, s);
    PlayWire(sh, s0, moves);
    var x := s.wire[i];
    var k := s.tasks[x.task];
    PlayCalls(sh, s0, moves, x.task);
    assert TaskWire(s.wire, x.task, k) && EarlierOk(x, x.task, k);
    if x.hop < |k.hops| {
      ChainLeads(sh.web, k.start, k.hops, x.hop);
    } else {
      assert Continues(sh.web, k);
      assert k.hops[..x.hop] == k.hops;
    }
  }

  /**
   Every request on the wire, first or repeated, of a completed hop or not: it goes to the URL
   the call was given or to the last hop's URL joined with its Location, over a connection to
   that URL's host and port; its method and body are the initial ones unless an earlier hop
   was answered with 301, 302 or 303; its fetch-site and its referer are those of a call that
   made the earlier hops; and an origin goes with POST, PUT and PATCH.
   */
  lemma RequestsFollowTheRedirects(w: World, proxy: Option<Proxy>, s: State, i: nat)
    requires Reachable(ClientOf(w, proxy), s) && i < |s.wire|
    ensures var x := s.wire[i];
      && x.task < |s.tasks| && x.hop <= |s.tasks[x.task].hops|
      && var start, earlier := s.tasks[x.task].start, Earlier(s, x);
      && x.request.uri == x.leg.url.text && w.web.parse(x.call.url) == Some(x.leg.url)
      && GoesTo(w.web, start.url, earlier, x.call.url)
      && (forall m :: 0 <= m < x.hop ==>
            && w.web.parse(earlier[m].call.url) == Some(earlier[m].url)
            && GoesTo(w.web, start.url, earlier[..m], earlier[m].call.url))
      && Some(x.conn.at.host) == x.leg.url.host
      && x.conn.at.port == x.leg.url.port.GetOr(if x.leg.url.scheme == "http" then 80 else 443)
      && x.request.verb == (if Rotated(earlier) then "GET" else start.verb)
      && x.call.body == (if Rotated(earlier) then None else start.body)
      && Lookup(x.request.headers, SecFetchSite) == Written(w.web, Some(SiteAfter(w.web, earlier)), false)
      && Lookup(x.request.headers, Referer) == Written(w.web, RefererAfter(w.web, earlier), false)
      && Lookup(x.request.headers, HeaderName.Origin)
         == (if x.request.verb == "POST" || x.request.verb == "PUT" || x.request.verb == "PATCH"
             then Written(w.web, Some(if x.leg.url.origin.Tuple? then x.leg.url.origin.text else "null"), false)
             else [])
  {
    hide Reachable, Leads, Play, Init, BuildRequest, SiteAfter, RefererAfter, WireOk, GoesTo, Written, SiteText;
    var sh, x := ClientOf(w, proxy), s.wire[i];
    SentAsLed(sh, s, i);
    var k := s.tasks[x.task];
    var earlier := Earlier(s, x);
    UrlAt(w.web, k.start, earlier, x.call);
    MethodAndBodyAt(w.web, k.start, earlier, x.call);
    SiteAt(w.web, k.start, earlier, x.call);
    RefererAt(w.web, k.start, earlier, x.call);
    SentByClient(w, proxy, s, i);
    RequestHeaders(w, x.call, x.leg.url, x.leg.cookie, x.leg.acceptCh, x.hop == 0);
  }

  lemma SentByClient(w: World, proxy: Option<Proxy>, s: State, i: nat)
    requires Reachable(ClientOf(w, proxy), s) && i < |s.wire|
    ensures var x := s.wire[i];
      && x.request == BuildRequest(w, x.call, x.leg.url, x.leg.cookie, x.leg.acceptCh, x.hop == 0)
      && x.leg.url.host.Some? && x.conn.at == LookupAuthority(x.leg.url)
      && w.web.parse(x.call.url) == Some(x.leg.url)
  {
    var s0, moves := Played(ClientOf(w, proxy), s);
    PlayWire(ClientOf(w, proxy), s0, moves);
    assert EntryOk(ClientOf(w, proxy), s.wire[i]);
  }

  lemma UsedBound(web: Web, k: Task)
    requires PcOk(web, k)
    ensures 2 * |k.hops| + Used(k) <= 2 * MAX_HOPS
  {
  }
}
