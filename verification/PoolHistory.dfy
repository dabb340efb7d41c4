/**
 The Alt-Svc, hint and cookie caches against the history of the run: what each holds,
 and what each hop therefore read, for every interleaving.
 */
module PoolHistory {
  import opened Wrappers
  import opened Redirects
  import opened PoolKeys
  import opened PoolProtocol
  import opened PoolLocks

  /** The event announces Http3 for the authority: an advertisement filed under it, or the user's preset. */
  predicate Announces(sh: Shared, e: Event, at: Authority) {
    match e
    case Preset(altSvc, _, _) => at in altSvc
    case AltSvcRead(_, from, resp) => sh.advertisesH3(resp) && FilingAuthority(from) == at
    case _ => false
  }

  /** The latest event about an authority is an announcement rather than an Http3 failure. */
  predicate Standing(sh: Shared, log: seq<Event>, at: Authority) {
    if log == [] then false
    else
      var last := log[|log| - 1];
      Announces(sh, last, at) || (last != H3Failed(at) && Standing(sh, log[..|log| - 1], at))
  }

  /** The announcement at `a` has not been followed by a failure. */
  predicate Unbroken(sh: Shared, log: seq<Event>, at: Authority, a: nat) {
    a < |log| && Announces(sh, log[a], at) && forall b :: a < b < |log| ==> log[b] != H3Failed(at)
  }

  lemma {:induction false} StandingMeans(sh: Shared, log: seq<Event>, at: Authority)
    ensures Standing(sh, log, at) <==> exists a :: Unbroken(sh, log, at, a)
  {
    if log != [] {
      var last := |log| - 1;
      var front := log[..last];
      StandingMeans(sh, front, at);
      if Announces(sh, log[last], at) {
        assert Unbroken(sh, log, at, last);
      } else if log[last] != H3Failed(at) {
        forall a
          ensures Unbroken(sh, front, at, a) <==> Unbroken(sh, log, at, a)
        {
        }
      }
    }
  }

  /** Some response of the origin, read for its hints, asked for the platform version, or the user presets it. */
  predicate Asked(sh: Shared, log: seq<Event>, origin: string) {
    exists i :: 0 <= i < |log| && Asks(sh, log[i], origin)
  }

  predicate Asks(sh: Shared, e: Event, origin: string) {
    match e
    case Preset(_, hints, _) => origin in hints
    case HintsRead(_, from, resp) => sh.asksForVersion(resp) && OriginText(from) == origin
    case _ => false
  }

  /** The cookies of all responses read for theirs, in order, after the ones preset. */
  function JarOf(sh: Shared, log: seq<Event>): seq<SetCookieText> {
    if log == [] then []
    else
      var last := log[|log| - 1];
      if last.Preset? then last.jar
      else JarOf(sh, log[..|log| - 1]) + if last.CookiesRead? then sh.newCookies(last.resp, last.from) else []
  }

  /** The caches say what the log says. */
  ghost predicate CachesAgree(sh: Shared, s: State) {
    && (forall at :: at in s.altSvc <==> Standing(sh, s.log, at))
    && (forall o :: o in s.hints <==> Asked(sh, s.log, o))
    && s.jar == JarOf(sh, s.log)
  }

  predicate RouteTrue(sh: Shared, log: seq<Event>, g: Leg) {
    g.routedAt <= |log| && (g.h3 <==> Standing(sh, log[..g.routedAt], g.at))
  }

  predicate JarTrue(sh: Shared, log: seq<Event>, g: Leg) {
    g.jarAt <= |log| && g.cookie == sh.web.cookies(JarOf(sh, log[..g.jarAt]), g.url)
  }

  predicate HintTrue(sh: Shared, log: seq<Event>, g: Leg) {
    g.hintsAt <= |log| && (g.acceptCh <==> Asked(sh, log[..g.hintsAt], OriginText(g.url)))
  }

  /** What a hop has read is what the caches held when it read them. */
  predicate LegTrue(sh: Shared, log: seq<Event>, k: Task) {
    && (Underway(k.pc) ==> RouteTrue(sh, log, k.leg))
    && (Underway(k.pc) && !k.pc.ReadingJar? ==> JarTrue(sh, log, k.leg))
    && (Underway(k.pc) && PhaseOf(k.pc) != Read ==> HintTrue(sh, log, k.leg))
  }

  /** The reads of a leg, and so their truth, depend on nothing the acquisition counts. */
  predicate SameReads(g: Leg, h: Leg) {
    && g.url == h.url && g.at == h.at && g.h3 == h.h3 && g.cookie == h.cookie && g.acceptCh == h.acceptCh
    && g.routedAt == h.routedAt && g.jarAt == h.jarAt && g.hintsAt == h.hintsAt
  }

  /** The changes one step makes to the caches are the ones its event calls for. */
  predicate Recorded(sh: Shared, e: Effect) {
    if e.events == [] then e.evicted == {} && e.filed == {} && e.asked == {} && e.cookies == []
    else
      && |e.events| == 1
      && match e.events[0]
         case CookiesRead(_, u, r) =>
           e.evicted == {} && e.filed == {} && e.asked == {} && e.cookies == sh.newCookies(r, u)
         case HintsRead(_, u, r) =>
           && e.evicted == {} && e.filed == {} && e.cookies == []
           && e.asked == if sh.asksForVersion(r) then {OriginText(u)} else {}
         case AltSvcRead(_, u, r) =>
           && e.evicted == {} && e.asked == {} && e.cookies == []
           && e.filed == if sh.advertisesH3(r) then {FilingAuthority(u)} else {}
         case Preset(_, _, _) => false
         case H3Failed(at) => e.evicted == {at} && e.filed == {} && e.asked == {} && e.cookies == []
  }

  /** After its reads a hop changes none of them. */
  predicate KeepsReads(k: Task, e: Effect) {
    Underway(e.task.pc) ==> SameReads(k.leg, e.task.leg) && PhaseOf(e.task.pc) != Read && PhaseOf(k.pc) != Read
  }

  lemma ReadRecorded(sh: Shared, s: State, k: Task)
    requires ReadStep(sh, s, k).Some?
    ensures Recorded(sh, ReadStep(sh, s, k).value)
  {
  }

  lemma AcquireRecorded(sh: Shared, s: State, k: Task, c: Choice)
    requires AcquireStep(s, k, c).Some?
    ensures Recorded(sh, AcquireStep(s, k, c).value)
  {
  }

  lemma DialRecorded(sh: Shared, s: State, t: nat, k: Task, c: Choice)
    requires DialingStep(sh, s, t, k, c).Some?
    ensures Recorded(sh, DialingStep(sh, s, t, k, c).value)
  {
  }

  lemma TransmitRecorded(sh: Shared, s: State, t: nat, k: Task, c: Choice)
    requires TransmitStep(sh, s, t, k, c).Some?
    ensures Recorded(sh, TransmitStep(sh, s, t, k, c).value)
  {
  }

  lemma FallbackRecorded(sh: Shared, s: State, t: nat, k: Task, c: Choice)
    requires FallbackStep(sh, s, t, k, c).Some?
    ensures Recorded(sh, FallbackStep(sh, s, t, k, c).value)
  {
  }

  lemma RecordRecorded(sh: Shared, s: State, t: nat, k: Task)
    requires RecordStep(sh, t, k).Some?
    ensures Recorded(sh, RecordStep(sh, t, k).value)
  {
  }

  lemma RoutingKeepsTrue(sh: Shared, s: State, k: Task)
    requires CachesAgree(sh, s) && LegTrue(sh, s.log, k) && ReadStep(sh, s, k).Some?
    ensures LegTrue(sh, s.log, ReadStep(sh, s, k).value.task)
  {
    assert s.log[..|s.log|] == s.log;
  }

  lemma AcquireKeepsReads(sh: Shared, s: State, k: Task, c: Choice)
    requires AcquireStep(s, k, c).Some?
    ensures KeepsReads(k, AcquireStep(s, k, c).value)
  {
    hide SlotKey, Count, Free;
  }

  lemma DialKeepsReads(sh: Shared, s: State, t: nat, k: Task, c: Choice)
    requires DialingStep(sh, s, t, k, c).Some?
    ensures KeepsReads(k, DialingStep(sh, s, t, k, c).value)
  {
  }

  lemma TransmitKeepsReads(sh: Shared, s: State, t: nat, k: Task, c: Choice)
    requires TransmitStep(sh, s, t, k, c).Some?
    ensures KeepsReads(k, TransmitStep(sh, s, t, k, c).value)
  {
  }

  lemma FallbackKeepsReads(sh: Shared, s: State, t: nat, k: Task, c: Choice)
    requires FallbackStep(sh, s, t, k, c).Some?
    ensures KeepsReads(k, FallbackStep(sh, s, t, k, c).value)
  {
  }

  lemma RecordKeepsReads(sh: Shared, s: State, t: nat, k: Task)
    requires RecordStep(sh, t, k).Some?
    ensures KeepsReads(k, RecordStep(sh, t, k).value)
  {
  }

  /** What was read stays true while the log grows. */
  lemma LegStaysTrue(sh: Shared, log: seq<Event>, more: seq<Event>, k: Task)
    requires LegTrue(sh, log, k)
    ensures LegTrue(sh, log + more, k)
  {
    hide Standing, Asked, JarOf;
    var g := k.leg;
    assert g.routedAt <= |log| ==> (log + more)[..g.routedAt] == log[..g.routedAt];
    assert g.hintsAt <= |log| ==> (log + more)[..g.hintsAt] == log[..g.hintsAt];
    assert g.jarAt <= |log| ==> (log + more)[..g.jarAt] == log[..g.jarAt];
  }

  lemma AskedGrows(sh: Shared, log: seq<Event>, e: Event, origin: string)
    ensures Asked(sh, log + [e], origin) <==> Asked(sh, log, origin) || Asks(sh, e, origin)
  {
    var all := log + [e];
    assert all[|log|] == e;
    if Asked(sh, log, origin) {
      var i :| 0 <= i < |log| && Asks(sh, log[i], origin);
      assert all[i] == log[i];
    }
  }

  lemma CachesStep(sh: Shared, s: State, t: nat, e: Effect)
    requires CachesAgree(sh, s) && Recorded(sh, e) && t < |s.tasks|
    ensures CachesAgree(sh, Apply(s, t, e))
  {
    var s' := Apply(s, t, e);
    if e.events == [] {
      assert s'.log == s.log && s'.jar == s.jar && s'.altSvc == s.altSvc && s'.hints == s.hints;
    } else {
      var event := e.events[0];
      assert s'.log == s.log + [event] && s'.log[..|s'.log| - 1] == s.log;
      forall o
        ensures o in s'.hints <==> Asked(sh, s'.log, o)
      {
        AskedGrows(sh, s.log, event, o);
      }
    }
  }

  ghost predicate History(sh: Shared, s: State) {
    CachesAgree(sh, s) && forall t :: 0 <= t < |s.tasks| ==> LegTrue(sh, s.log, s.tasks[t])
  }

  lemma HistoryStep(sh: Shared, s: State, t: nat, c: Choice)
    requires History(sh, s) && t < |s.tasks| && EffectOf(sh, s, t, c).Some?
    ensures History(sh, Apply(s, t, EffectOf(sh, s, t, c).value))
  {
    var k := s.tasks[t];
    var e := EffectOf(sh, s, t, c).value;
    assert Recorded(sh, e) by {
      match PhaseOf(k.pc)
      case Read => ReadRecorded(sh, s, k);
      case Acquire => AcquireRecorded(sh, s, k, c);
      case Dial => DialRecorded(sh, s, t, k, c);
      case Transmit => TransmitRecorded(sh, s, t, k, c);
      case Fallback => FallbackRecorded(sh, s, t, k, c);
      case Record => RecordRecorded(sh, s, t, k);
    }
    assert LegTrue(sh, s.log, e.task) by {
      if PhaseOf(k.pc) == Read {
        RoutingKeepsTrue(sh, s, k);
      } else {
        assert KeepsReads(k, e) by {
          match PhaseOf(k.pc)
          case Read =>
          case Acquire => AcquireKeepsReads(sh, s, k, c);
          case Dial => DialKeepsReads(sh, s, t, k, c);
          case Transmit => TransmitKeepsReads(sh, s, t, k, c);
          case Fallback => FallbackKeepsReads(sh, s, t, k, c);
          case Record => RecordKeepsReads(sh, s, t, k);
        }
      }
    }
    CachesStep(sh, s, t, e);
    var s' := Apply(s, t, e);
    forall i | 0 <= i < |s'.tasks|
      ensures LegTrue(sh, s'.log, s'.tasks[i])
    {
      LegStaysTrue(sh, s.log, e.events, s'.tasks[i]);
    }
  }

  lemma {:induction false} PlayHistory(sh: Shared, s0: State, moves: seq<Move>)
    requires Init(s0) && Play(sh, s0, moves).Some?
    ensures History(sh, Play(sh, s0, moves).value)
  {
    if moves == [] {
      assert s0.log[0] == Preset(s0.altSvc, s0.hints, s0.jar);
    } else {
      var last := |moves| - 1;
      PlayHistory(sh, s0, moves[..last]);
      HistoryStep(sh, Play(sh, s0, moves[..last]).value, moves[last].task, moves[last].choice);
    }
  }

  /**
   In every reachable state an authority is in the Alt-Svc cache exactly when the latest
   event about it is an h3 advertisement rather than an H3 dial or transmission failure,
   and a hop runs over Http3 exactly when that was so at the moment it was routed.
   */
  lemma AltSvcAgreesWithHistory(sh: Shared, s: State)
    requires Reachable(sh, s)
    ensures forall at :: at in s.altSvc <==> Standing(sh, s.log, at)
    ensures forall t :: 0 <= t < |s.tasks| && Underway(s.tasks[t].pc) ==> RouteTrue(sh, s.log, s.tasks[t].leg)
  {
    var s0, moves := Played(sh, s);
    PlayHistory(sh, s0, moves);
    forall t | 0 <= t < |s.tasks| && Underway(s.tasks[t].pc)
      ensures RouteTrue(sh, s.log, s.tasks[t].leg)
    {
      assert LegTrue(sh, s.log, s.tasks[t]);
    }
  }

  /** The hint cache holds exactly the origins that asked, and no step forgets one. */
  lemma HintsAgreeWithHistory(sh: Shared, s: State)
    requires Reachable(sh, s)
    ensures forall o :: o in s.hints <==> Asked(sh, s.log, o)
    ensures forall t, c :: 0 <= t < |s.tasks| && Step(sh, s, t, c).Some? ==> s.hints <= Step(sh, s, t, c).value.hints
  {
    var s0, moves := Played(sh, s);
    PlayHistory(sh, s0, moves);
  }

  /**
   Where an advertisement is filed is where the next request to the same URL looks for it,
   for every URL but a plain-http one without an explicit port.
   */
  lemma FilingMeetsLookup(u: Url)
    requires u.host.Some?
    ensures FilingAuthority(u) == LookupAuthority(u) <==> u.scheme != "http" || u.port.Some?
  {
  }

  /** The call is at the head of a hop that it can route. */
  predicate CanRoute(sh: Shared, k: Task, u: Url) {
    k.pc.Routing? && |k.hops| < MAX_HOPS && sh.web.parse(k.call.url) == Some(u) && u.host.Some?
  }

  /**
   In every run a hop is routed over Http3 exactly when some announcement for the authority
   it looks up, by any call or preset, has not been followed by an Http3 failure. In
   particular a response read from a URL counts for the next hop to the same URL exactly
   unless that URL is plain http without an explicit port.
   */
  lemma AdvertisementIsFoundAgain(sh: Shared, s: State, t: nat, c: Choice, u: Url)
    requires Reachable(sh, s) && t < |s.tasks| && CanRoute(sh, s.tasks[t], u)
    ensures Step(sh, s, t, c).Some?
    ensures Step(sh, s, t, c).value.tasks[t].leg.h3 <==> exists a :: Unbroken(sh, s.log, LookupAuthority(u), a)
    ensures forall a :: 0 <= a < |s.log| && s.log[a].AltSvcRead? && s.log[a].from == u && sh.advertisesH3(s.log[a].resp)
              ==> (Announces(sh, s.log[a], LookupAuthority(u)) <==> u.scheme != "http" || u.port.Some?)
  {
    AltSvcAgreesWithHistory(sh, s);
    StandingMeans(sh, s.log, LookupAuthority(u));
    FilingMeetsLookup(u);
    RoutesByCache(sh, s, t, c, u);
  }

  lemma RoutesByCache(sh: Shared, s: State, t: nat, c: Choice, u: Url)
    requires t < |s.tasks| && CanRoute(sh, s.tasks[t], u)
    ensures Step(sh, s, t, c).Some?
    ensures Step(sh, s, t, c).value.tasks[t].leg.h3 <==> LookupAuthority(u) in s.altSvc
  {
  }

  /** Nothing in the log announces Http3 for the authority. */
  ghost predicate NeverAnnounced(sh: Shared, log: seq<Event>, at: Authority) {
    forall a :: 0 <= a < |log| ==> !Announces(sh, log[a], at)
  }

  lemma NeverStanding(sh: Shared, log: seq<Event>, at: Authority, n: nat)
    requires NeverAnnounced(sh, log, at) && n <= |log|
    ensures !Standing(sh, log[..n], at)
  {
    StandingMeans(sh, log[..n], at);
    forall a: nat
      ensures !Unbroken(sh, log[..n], at, a)
    {
      if a < n {
        assert !Announces(sh, log[a], at);
      }
    }
  }
}
