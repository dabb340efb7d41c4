/**
 Http3 failures: the ones in the log are the ones the network caused, where it caused them;
 and what a failed dial leads to.
 */
module PoolFailures {
  import opened Wrappers
  import opened Redirects
  import opened PoolKeys
  import opened PoolProtocol
  import opened PoolLocks
  import opened PoolHistory
  import opened PoolCalls
  import opened PoolWire

  /** The network fails an Http3 dial or transmission to the authority at this move. */
  predicate FailsHttp3(sh: Shared, s: State, m: Move, at: Authority) {
    && m.task < |s.tasks| && m.choice.No?
    && var k := s.tasks[m.task];
    && k.leg.at == at
    && match k.pc
       case Dialing => k.leg.h3
       case Sending(c, _) => c.h3 && sh.web.requestOk(k.call.verb, k.leg.url.text)
       case _ => false
  }

  /** What one step adds to the log, as far as failures go. */
  ghost predicate LogsFailures(sh: Shared, s: State, t: nat, c: Choice, e: Effect) {
    && |e.events| <= 1
    && forall at :: e.events == [H3Failed(at)] <==> FailsHttp3(sh, s, Move(t, c), at)
  }

  lemma DialLogs(sh: Shared, s: State, t: nat, c: Choice)
    requires t < |s.tasks| && DialingStep(sh, s, t, s.tasks[t], c).Some?
    ensures LogsFailures(sh, s, t, c, DialingStep(sh, s, t, s.tasks[t], c).value)
  {
    hide NewConn;
  }

  lemma TransmitLogs(sh: Shared, s: State, t: nat, c: Choice)
    requires t < |s.tasks| && TransmitStep(sh, s, t, s.tasks[t], c).Some?
    ensures LogsFailures(sh, s, t, c, TransmitStep(sh, s, t, s.tasks[t], c).value)
  {
    hide Transmission;
  }

  lemma OthersLog(sh: Shared, s: State, t: nat, c: Choice)
    requires t < |s.tasks|
    ensures ReadStep(sh, s, s.tasks[t]).Some? ==> LogsFailures(sh, s, t, c, ReadStep(sh, s, s.tasks[t]).value)
    ensures AcquireStep(s, s.tasks[t], c).Some? ==> LogsFailures(sh, s, t, c, AcquireStep(s, s.tasks[t], c).value)
    ensures FallbackStep(sh, s, t, s.tasks[t], c).Some?
        ==> LogsFailures(sh, s, t, c, FallbackStep(sh, s, t, s.tasks[t], c).value)
    ensures RecordStep(sh, t, s.tasks[t]).Some? ==> LogsFailures(sh, s, t, c, RecordStep(sh, t, s.tasks[t]).value)
  {
    hide Transmission, NewConn, Advance, FilingAuthority, LookupAuthority, SlotKey, Free, Count, OriginText;
  }

  lemma StepLogs(sh: Shared, s: State, t: nat, c: Choice)
    requires t < |s.tasks| && EffectOf(sh, s, t, c).Some?
    ensures LogsFailures(sh, s, t, c, EffectOf(sh, s, t, c).value)
  {
    hide LogsFailures, ReadStep, AcquireStep, DialingStep, TransmitStep, FallbackStep, RecordStep;
    match PhaseOf(s.tasks[t].pc)
    case Read => OthersLog(sh, s, t, c);
    case Acquire => OthersLog(sh, s, t, c);
    case Dial => DialLogs(sh, s, t, c);
    case Transmit => TransmitLogs(sh, s, t, c);
    case Fallback => OthersLog(sh, s, t, c);
    case Record => OthersLog(sh, s, t, c);
  }

  /** The log of a run only grows, by at most one event a step. */
  lemma {:induction false} LogGrows(sh: Shared, r: Run, i: nat, j: nat)
    requires IsRun(sh, r) && i <= j < |r.states|
    ensures r.states[i].log <= r.states[j].log
    ensures i < j ==> |r.states[i + 1].log| <= |r.states[i].log| + 1
  {
    hide Init, EffectOf;
    if i < j {
      LogGrows(sh, r, i, j - 1);
      assert Follows(sh, r, j - 1) && Follows(sh, r, i);
      StepLogs(sh, r.states[i], r.moves[i].task, r.moves[i].choice);
    }
  }

  /** Among the first n moves one that fails Http3 to the authority, made when the log had length j. */
  ghost predicate FailedHere(sh: Shared, r: Run, n: nat, j: nat, at: Authority)
    requires |r.states| == |r.moves| + 1 && n <= |r.moves|
  {
    exists i :: 0 <= i < n && |r.states[i].log| == j && FailsHttp3(sh, r.states[i], r.moves[i], at)
  }

  /**
   In every run an Http3 failure stands at a place of the log exactly when the network failed
   an Http3 dial or transmission to that authority at the move that wrote there: failures
   are logged, and so entries evicted, when and only when the network fails.
   */
  lemma {:induction false} FailuresAreTheNetworks(sh: Shared, r: Run, n: nat, j: nat, at: Authority)
    requires IsRun(sh, r) && n <= |r.moves| && j < |r.states[n].log|
    ensures r.states[n].log[j] == H3Failed(at) <==> FailedHere(sh, r, n, j, at)
  {
    hide EffectOf, FailsHttp3;
    if n == 0 {
      assert r.states[0].log[0].Preset?;
    } else {
      LogGrows(sh, r, n - 1, n);
      assert Follows(sh, r, n - 1);
      var s, m := r.states[n - 1], r.moves[n - 1];
      StepLogs(sh, s, m.task, m.choice);
      if j < |s.log| {
        FailuresAreTheNetworks(sh, r, n - 1, j, at);
        assert r.states[n].log[j] == s.log[j];
        assert |s.log| != j;
      } else {
        var e := EffectOf(sh, s, m.task, m.choice).value;
        assert r.states[n].log == s.log + e.events && j == |s.log|;
        assert FailsHttp3(sh, s, m, at) <==> e.events == [H3Failed(at)];
        forall i | 0 <= i < n - 1 && |r.states[i].log| == j
          ensures !FailsHttp3(sh, r.states[i], r.moves[i], at)
        {
          if FailsHttp3(sh, r.states[i], r.moves[i], at) {
            FailureGrows(sh, r, i, at);
            LogGrows(sh, r, i + 1, n - 1);
          }
        }
      }
    }
  }

  lemma FailureGrows(sh: Shared, r: Run, i: nat, at: Authority)
    requires IsRun(sh, r) && i < |r.moves| && FailsHttp3(sh, r.states[i], r.moves[i], at)
    ensures |r.states[i + 1].log| == |r.states[i].log| + 1
  {
    hide Init, EffectOf, FailsHttp3;
    assert Follows(sh, r, i);
    StepLogs(sh, r.states[i], r.moves[i].task, r.moves[i].choice);
  }

  /** A move by which a response from the URL is read for its advertisement, and has one. */
  predicate ReadsAdvertisement(sh: Shared, s: State, m: Move, u: Url) {
    && m.task < |s.tasks|
    && s.tasks[m.task].pc.StoringAltSvc?
    && s.tasks[m.task].leg.url == u && sh.advertisesH3(s.tasks[m.task].pc.resp)
  }

  /**
   In every run, once some call has read an advertisement from a URL that is https or has an
   explicit port, the next hop of any call to that authority goes over Http3, unless the
   network failed Http3 to it in between.
   */
  lemma AdvertisementIsHonoured(sh: Shared, r: Run, i: nat, j: nat, u: Url, v: Url)
    requires IsRun(sh, r) && i < j < |r.moves|
    requires ReadsAdvertisement(sh, r.states[i], r.moves[i], u)
    requires u.host.Some? && (u.scheme != "http" || u.port.Some?)
    requires r.moves[j].task < |r.states[j].tasks| && CanRoute(sh, r.states[j].tasks[r.moves[j].task], v)
    requires LookupAuthority(v) == LookupAuthority(u)
    requires forall m :: i < m < j ==> !FailsHttp3(sh, r.states[m], r.moves[m], LookupAuthority(u))
    ensures r.moves[j].task < |r.states[j + 1].tasks| && r.states[j + 1].tasks[r.moves[j].task].leg.h3
  {
    hide Init, EffectOf, FailsHttp3, CanRoute;
    var at, s, log := LookupAuthority(u), r.states[j], r.states[j].log;
    var a := |r.states[i].log|;
    AdvertisementIsLogged(sh, r, i, u);
    LogGrows(sh, r, i + 1, j);
    assert Announces(sh, log[a], at);
    forall b | a < b < |log|
      ensures log[b] != H3Failed(at)
    {
      FailuresAreTheNetworks(sh, r, j, b, at);
      if m :| 0 <= m < j && |r.states[m].log| == b && FailsHttp3(sh, r.states[m], r.moves[m], at) {
        if m <= i {
          LogGrows(sh, r, m, i);
        }
        assert false;
      }
    }
    assert Unbroken(sh, log, at, a);
    assert Reachable(sh, s) by {
      PrefixRun(sh, r, j);
    }
    assert Follows(sh, r, j);
    AdvertisementIsFoundAgain(sh, s, r.moves[j].task, r.moves[j].choice, v);
  }

  lemma AdvertisementIsLogged(sh: Shared, r: Run, i: nat, u: Url)
    requires IsRun(sh, r) && i < |r.moves| && ReadsAdvertisement(sh, r.states[i], r.moves[i], u)
    requires u.host.Some? && (u.scheme != "http" || u.port.Some?)
    ensures var before, after := r.states[i].log, r.states[i + 1].log;
      |after| == |before| + 1 && before <= after && Announces(sh, after[|before|], LookupAuthority(u))
  {
    hide Init;
    assert Follows(sh, r, i);
    FilingMeetsLookup(u);
  }

  lemma PrefixRun(sh: Shared, r: Run, n: nat)
    requires IsRun(sh, r) && n <= |r.moves|
    ensures Reachable(sh, r.states[n])
  {
    hide Init, Step;
    var p := Run(r.states[..n + 1], r.moves[..n]);
    forall i | 0 <= i < n
      ensures Follows(sh, p, i)
    {
      assert Follows(sh, r, i);
    }
    assert IsRun(sh, p) && End(p) == r.states[n];
  }

  // ----- failures, the wire and the refusals -----

  /** The transmission failed over Http3. */
  predicate FailedTx(x: Tx) {
    x.conn.h3 && x.answer.None?
  }

  predicate LoggedAt(log: seq<Event>, j: nat, at: Authority) {
    j < |log| && log[j] == H3Failed(at)
  }

  /** The failure at this place of the log is a failed transmission or a failed dial of its own. */
  ghost predicate Caused(wire: seq<Tx>, refusals: seq<Refusal>, j: nat, at: Authority) {
    || (exists i :: 0 <= i < |wire| && FailedTx(wire[i]) && wire[i].logged == j && wire[i].leg.at == at)
    || (exists i :: 0 <= i < |refusals| && refusals[i].logged == j && refusals[i].at == at)
  }

  ghost predicate FailuresTied(s: State) {
    && (forall i :: 0 <= i < |s.wire| && FailedTx(s.wire[i]) ==> LoggedAt(s.log, s.wire[i].logged, s.wire[i].leg.at))
    && (forall i :: 0 <= i < |s.refusals| ==> LoggedAt(s.log, s.refusals[i].logged, s.refusals[i].at))
    && (forall j :: 0 <= j < |s.log| && s.log[j].H3Failed? ==> Caused(s.wire, s.refusals, j, s.log[j].at))
  }

  /** One step logs a failure exactly with the transmission or the dial that failed. */
  predicate Ties(s: State, e: Effect) {
    && |e.events| <= 1 && |e.sent| <= 1 && |e.refused| <= 1
    && (e.sent != [] && FailedTx(e.sent[0]) ==>
          e.sent[0].logged == |s.log| && e.events == [H3Failed(e.sent[0].leg.at)])
    && (e.refused != [] ==> e.refused[0].logged == |s.log| && e.events == [H3Failed(e.refused[0].at)])
    && (e.events != [] && e.events[0].H3Failed? ==>
          || (e.sent != [] && FailedTx(e.sent[0]) && e.sent[0].leg.at == e.events[0].at)
          || (e.refused != [] && e.refused[0].at == e.events[0].at))
  }

  lemma DialTies(sh: Shared, s: State, t: nat, k: Task, c: Choice)
    requires DialingStep(sh, s, t, k, c).Some?
    ensures Ties(s, DialingStep(sh, s, t, k, c).value)
  {
    hide NewConn;
  }

  lemma TransmitTies(sh: Shared, s: State, t: nat, k: Task, c: Choice)
    requires TransmitStep(sh, s, t, k, c).Some?
    ensures Ties(s, TransmitStep(sh, s, t, k, c).value)
  {
    hide TaskRequest;
  }

  lemma FallbackTies(sh: Shared, s: State, t: nat, k: Task, c: Choice)
    requires TaskTyped(sh, k) && FallbackStep(sh, s, t, k, c).Some?
    ensures Ties(s, FallbackStep(sh, s, t, k, c).value)
  {
    hide TaskRequest, NewConn;
  }

  lemma OthersTie(sh: Shared, s: State, t: nat, k: Task, c: Choice)
    ensures ReadStep(sh, s, k).Some? ==> Ties(s, ReadStep(sh, s, k).value)
    ensures AcquireStep(s, k, c).Some? ==> Ties(s, AcquireStep(s, k, c).value)
    ensures RecordStep(sh, t, k).Some? ==> Ties(s, RecordStep(sh, t, k).value)
  {
    hide Advance, FilingAuthority, LookupAuthority, SlotKey, Free, Count, OriginText;
  }

  lemma StepTies(sh: Shared, s: State, t: nat, c: Choice)
    requires t < |s.tasks| && TaskTyped(sh, s.tasks[t]) && EffectOf(sh, s, t, c).Some?
    ensures Ties(s, EffectOf(sh, s, t, c).value)
  {
    hide Ties, ReadStep, AcquireStep, DialingStep, TransmitStep, FallbackStep, RecordStep;
    var k := s.tasks[t];
    match PhaseOf(k.pc)
    case Read => OthersTie(sh, s, t, k, c);
    case Acquire => OthersTie(sh, s, t, k, c);
    case Dial => DialTies(sh, s, t, k, c);
    case Transmit => TransmitTies(sh, s, t, k, c);
    case Fallback => FallbackTies(sh, s, t, k, c);
    case Record => OthersTie(sh, s, t, k, c);
  }

  lemma CausedGrows(wire: seq<Tx>, sent: seq<Tx>, refusals: seq<Refusal>, refused: seq<Refusal>, j: nat, at: Authority)
    requires Caused(wire, refusals, j, at)
    ensures Caused(wire + sent, refusals + refused, j, at)
  {
    if i :| 0 <= i < |wire| && FailedTx(wire[i]) && wire[i].logged == j && wire[i].leg.at == at {
      assert (wire + sent)[i] == wire[i];
    } else {
      var i :| 0 <= i < |refusals| && refusals[i].logged == j && refusals[i].at == at;
      assert (refusals + refused)[i] == refusals[i];
    }
  }

  lemma TiesStep(s: State, t: nat, e: Effect)
    requires FailuresTied(s) && Ties(s, e) && t < |s.tasks|
    ensures FailuresTied(Apply(s, t, e))
  {
    hide SlotsAfter, InstallsAfter;
    var s' := Apply(s, t, e);
    forall j | 0 <= j < |s'.log| && s'.log[j].H3Failed?
      ensures Caused(s'.wire, s'.refusals, j, s'.log[j].at)
    {
      if j < |s.log| {
        assert s'.log[j] == s.log[j];
        CausedGrows(s.wire, e.sent, s.refusals, e.refused, j, s.log[j].at);
      } else if e.sent != [] && FailedTx(e.sent[0]) {
        assert s'.wire[|s.wire|] == e.sent[0];
      } else {
        assert s'.refusals[|s.refusals|] == e.refused[0];
      }
    }
  }

  lemma {:induction false} PlayTied(sh: Shared, s0: State, moves: seq<Move>)
    requires Init(s0) && Play(sh, s0, moves).Some?
    ensures FailuresTied(Play(sh, s0, moves).value)
  {
    hide EffectOf, Ties;
    if moves != [] {
      var last := |moves| - 1;
      PlayTied(sh, s0, moves[..last]);
      PlayShape(sh, s0, moves[..last]);
      var s, m := Play(sh, s0, moves[..last]).value, moves[last];
      StepTies(sh, s, m.task, m.choice);
      TiesStep(s, m.task, EffectOf(sh, s, m.task, m.choice).value);
    }
  }

  /**
   In every reachable state every transmission that failed over Http3 and every failed
   Http3 dial has its failure at its own place of the log, and every failure in the log is
   one of these.
   */
  lemma FailuresHaveCauses(sh: Shared, s: State)
    requires Reachable(sh, s)
    ensures FailuresTied(s)
  {
    var s0, moves := Played(sh, s);
    PlayTied(sh, s0, moves);
  }

  // ----- the connection that nobody tests -----

  /** The connection a call is about to transmit over, and how it says it came by it. */
  function Chosen(pc: Pc): Option<(Conn, How)> {
    match pc
    case Sending(c, how) => Some((c, how))
    case FallbackSending(c, how) => Some((c, how))
    case _ => None
  }

  /** What a call must have just done to come by a connection in that way. */
  predicate CameBy(s: State, k: Task, answer: Choice, c: Conn, how: How) {
    match how
    case Tested => answer.Yes? && (k.pc == Readying(c) || k.pc == FallbackReady(c))
    case Dialled => answer.Yes? && (k.pc.Dialing? || k.pc.DialingH2? || k.pc.FallbackDialing?)
    case Running => k.pc.Peeking? && c.h3 && SlotKey(k.leg) in s.slots && s.slots[SlotKey(k.leg)] == c
    case Untested => k.pc.WantingH2? && H2Key(k.leg) in s.slots && s.slots[H2Key(k.leg)] == c
  }

  /** The connection is new, and the slot of its authority and transport is all that has changed hands. */
  predicate StoredAnew(s: State, after: State, at: Authority, c: Conn) {
    && c.at == at && c.id == s.nextId && after.nextId == s.nextId + 1
    && after.slots == s.slots[Key(at, c.h3) := c]
  }

  predicate Labels(s: State, k: Task, answer: Choice, e: Effect) {
    match Chosen(e.task.pc)
    case Some((c, how)) =>
      && CameBy(s, k, answer, c, how)
      && (how.Dialled? ==> c.at == k.leg.at && c.id == s.nextId && e.slot == Install(Key(c.at, c.h3), c))
    case None => true
  }

  lemma AcquireLabels(s: State, k: Task, c: Choice)
    ensures AcquireStep(s, k, c).Some? ==> Labels(s, k, c, AcquireStep(s, k, c).value)
  {
    hide Free, Count;
  }

  lemma OthersLabel(sh: Shared, s: State, t: nat, k: Task, c: Choice)
    ensures ReadStep(sh, s, k).Some? ==> Labels(s, k, c, ReadStep(sh, s, k).value)
    ensures DialingStep(sh, s, t, k, c).Some? ==> Labels(s, k, c, DialingStep(sh, s, t, k, c).value)
    ensures TransmitStep(sh, s, t, k, c).Some? ==> Labels(s, k, c, TransmitStep(sh, s, t, k, c).value)
    ensures FallbackStep(sh, s, t, k, c).Some? ==> Labels(s, k, c, FallbackStep(sh, s, t, k, c).value)
    ensures RecordStep(sh, t, k).Some? ==> Labels(s, k, c, RecordStep(sh, t, k).value)
  {
    hide Transmission, Advance, FilingAuthority, LookupAuthority, Free, Count, OriginText;
  }

  lemma StepLabels(sh: Shared, s: State, t: nat, c: Choice)
    requires t < |s.tasks| && EffectOf(sh, s, t, c).Some?
    ensures Labels(s, s.tasks[t], c, EffectOf(sh, s, t, c).value)
  {
    hide Labels, ReadStep, AcquireStep, DialingStep, TransmitStep, FallbackStep, RecordStep;
    AcquireLabels(s, s.tasks[t], c);
    OthersLabel(sh, s, t, s.tasks[t], c);
  }

  lemma StoresAnew(s: State, t: nat, e: Effect, at: Authority, c: Conn)
    requires t < |s.tasks| && c.at == at && c.id == s.nextId && e.slot == Install(Key(c.at, c.h3), c)
    ensures StoredAnew(s, Apply(s, t, e), at, c)
  {
  }

  /**
   A call that is about to transmit over a tested connection has just seen its readiness
   test pass, over a dialled one its dial succeed; an untested one was in the `#h2` slot. A
   dialled connection is new and goes into its slot in the same step, where the next call
   finds it.
   */
  lemma ConnectionsAreComeBy(sh: Shared, s: State, t: nat, c: Choice, conn: Conn, how: How)
    requires t < |s.tasks|
    ensures Step(sh, s, t, c).Some? && Chosen(Step(sh, s, t, c).value.tasks[t].pc) == Some((conn, how))
        ==> CameBy(s, s.tasks[t], c, conn, how)
    ensures Step(sh, s, t, c).Some? && Chosen(Step(sh, s, t, c).value.tasks[t].pc) == Some((conn, Dialled))
        ==> StoredAnew(s, Step(sh, s, t, c).value, s.tasks[t].leg.at, conn)
  {
    hide EffectOf, CameBy, StoredAnew, SlotsAfter, InstallsAfter;
    if EffectOf(sh, s, t, c).Some? {
      var e := EffectOf(sh, s, t, c).value;
      StepLabels(sh, s, t, c);
      if Chosen(e.task.pc) == Some((conn, Dialled)) {
        StoresAnew(s, t, e, s.tasks[t].leg.at, conn);
      }
    }
  }

  /** The hop's Http3 dial failed. */
  ghost predicate Refused(refusals: seq<Refusal>, p: Place) {
    exists i :: 0 <= i < |refusals| && refusals[i].place == p
  }

  /** Between a failed Http3 dial and the transmission over Http2 that follows it. */
  predicate Turned(k: Task) {
    match k.pc
    case WantingH2 => true
    case DialingH2 => true
    case Sending(c, _) => !c.h3 && k.leg.h3
    case _ => false
  }

  /** The hop has not come to a dial, or its dial over Http3 was no failure. */
  predicate Straight(k: Task) {
    || PhaseOf(k.pc) == Read || PhaseOf(k.pc) == Acquire || Repeating(k.pc)
    || k.pc.Dialing? || (k.pc.Sending? && !Turned(k))
  }

  /** The refusals of one call: none of hops to come, and of the hop under way as it stands. */
  ghost predicate TaskRefused(refusals: seq<Refusal>, t: nat, k: Task) {
    && (forall i :: 0 <= i < |refusals| && refusals[i].place.task == t ==> refusals[i].place.hop <= |k.hops|)
    && (Turned(k) ==> Refused(refusals, Place(t, |k.hops|)))
    && (Straight(k) ==> !Refused(refusals, Place(t, |k.hops|)))
  }

  /** A connection is used untested exactly when the hop's Http3 dial failed and it did not dial anew. */
  ghost predicate UntestedOk(refusals: seq<Refusal>, x: Tx) {
    x.how.Untested? <==> Refused(refusals, Place(x.task, x.hop)) && !x.how.Dialled?
  }

  /** One step turns from Http3 to Http2 exactly when its dial fails. */
  predicate Turns(t: nat, k: Task, e: Effect) {
    && |e.refused| <= 1
    && (e.refused != [] ==>
          e.refused[0].place == Place(t, |k.hops|) && e.task.hops == k.hops && k.pc.Dialing? && e.task.pc.WantingH2?)
    && (e.task.hops == k.hops || |e.task.hops| == |k.hops| + 1)
    && (Turned(e.task) ==> e.task.hops == k.hops && (Turned(k) || e.refused != []))
    && (Straight(e.task) ==> e.refused == [] && (Straight(k) || |e.task.hops| == |k.hops| + 1))
    && (e.sent != [] ==>
          && e.refused == [] && |e.sent| == 1 && e.sent[0].task == t && e.sent[0].hop == |k.hops|
          && (if Turned(k) then e.sent[0].how.Untested? || e.sent[0].how.Dialled?
              else Straight(k) && !e.sent[0].how.Untested?))
  }

  lemma ReadTurns(sh: Shared, s: State, t: nat, k: Task)
    requires TaskTyped(sh, k) && ReadStep(sh, s, k).Some?
    ensures Turns(t, k, ReadStep(sh, s, k).value)
  {
    hide LookupAuthority, Fits;
  }

  lemma AcquireTurns(sh: Shared, s: State, t: nat, k: Task, c: Choice)
    requires SlotsTyped(sh, s) && TaskTyped(sh, k) && AcquireStep(s, k, c).Some?
    ensures Turns(t, k, AcquireStep(s, k, c).value)
  {
    hide LookupAuthority, Free, Count;
  }

  lemma DialTurns(sh: Shared, s: State, t: nat, k: Task, c: Choice)
    requires SlotsTyped(sh, s) && TaskTyped(sh, k) && DialingStep(sh, s, t, k, c).Some?
    ensures Turns(t, k, DialingStep(sh, s, t, k, c).value)
  {
    hide LookupAuthority, Fits, Apt, Free;
  }

  lemma TransmitTurns(sh: Shared, s: State, t: nat, k: Task, c: Choice)
    requires TaskTyped(sh, k) && TransmitStep(sh, s, t, k, c).Some?
    ensures Turns(t, k, TransmitStep(sh, s, t, k, c).value)
  {
    hide LookupAuthority, Fits, TaskRequest, Free;
  }

  lemma FallbackTurns(sh: Shared, s: State, t: nat, k: Task, c: Choice)
    requires TaskTyped(sh, k) && FallbackStep(sh, s, t, k, c).Some?
    ensures Turns(t, k, FallbackStep(sh, s, t, k, c).value)
  {
    hide LookupAuthority, Fits, TaskRequest, NewConn;
  }

  lemma RecordTurns(sh: Shared, s: State, t: nat, k: Task)
    requires TaskTyped(sh, k) && RecordStep(sh, t, k).Some?
    ensures Turns(t, k, RecordStep(sh, t, k).value)
  {
    hide LookupAuthority, FilingAuthority, Fits, Advance;
  }

  lemma StepTurns(sh: Shared, s: State, t: nat, c: Choice)
    requires Shape(sh, s) && t < |s.tasks| && EffectOf(sh, s, t, c).Some?
    ensures Turns(t, s.tasks[t], EffectOf(sh, s, t, c).value)
  {
    hide Turns, ReadStep, AcquireStep, DialingStep, TransmitStep, FallbackStep, RecordStep, LocksAgree;
    var k := s.tasks[t];
    assert TaskTyped(sh, k);
    match PhaseOf(k.pc)
    case Read => ReadTurns(sh, s, t, k);
    case Acquire => AcquireTurns(sh, s, t, k, c);
    case Dial => DialTurns(sh, s, t, k, c);
    case Transmit => TransmitTurns(sh, s, t, k, c);
    case Fallback => FallbackTurns(sh, s, t, k, c);
    case Record => RecordTurns(sh, s, t, k);
  }

  lemma RefusedGrows(refusals: seq<Refusal>, refused: seq<Refusal>, p: Place)
    requires |refused| <= 1
    ensures Refused(refusals + refused, p)
       <==> Refused(refusals, p) || (refused != [] && refused[0].place == p)
  {
    var all := refusals + refused;
    if Refused(refusals, p) {
      var i :| 0 <= i < |refusals| && refusals[i].place == p;
      assert all[i] == refusals[i];
    }
    if refused != [] {
      assert all[|refusals|] == refused[0];
    }
  }

  ghost predicate RefusalsOk(s: State) {
    && (forall t :: 0 <= t < |s.tasks| ==> TaskRefused(s.refusals, t, s.tasks[t]))
    && (forall i :: 0 <= i < |s.wire| ==> UntestedOk(s.refusals, s.wire[i]))
  }

  lemma OwnRefused(refusals: seq<Refusal>, t: nat, k: Task, e: Effect)
    requires TaskRefused(refusals, t, k) && Turns(t, k, e)
    ensures TaskRefused(refusals + e.refused, t, e.task)
  {
    hide Turned, Straight;
    RefusedGrows(refusals, e.refused, Place(t, |e.task.hops|));
  }

  lemma OtherRefused(refusals: seq<Refusal>, t: nat, k: Task, e: Effect, i: nat, other: Task)
    requires i != t && TaskRefused(refusals, i, other) && Turns(t, k, e)
    ensures TaskRefused(refusals + e.refused, i, other)
  {
    hide Turned, Straight;
    RefusedGrows(refusals, e.refused, Place(i, |other.hops|));
  }

  /** A refusal comes before its hop has transmitted. */
  lemma OldUntested(refusals: seq<Refusal>, t: nat, k: Task, e: Effect, x: Tx)
    requires UntestedOk(refusals, x) && Turns(t, k, e) && EarlierOk(x, t, k)
    ensures UntestedOk(refusals + e.refused, x)
  {
    RefusedGrows(refusals, e.refused, Place(x.task, x.hop));
  }

  lemma NewUntested(refusals: seq<Refusal>, t: nat, k: Task, e: Effect)
    requires TaskRefused(refusals, t, k) && Turns(t, k, e) && e.sent != []
    ensures UntestedOk(refusals + e.refused, e.sent[0])
  {
    hide Turned, Straight;
    RefusedGrows(refusals, e.refused, Place(t, |k.hops|));
  }

  lemma RefusalsStep(sh: Shared, s: State, t: nat, c: Choice)
    requires Shape(sh, s) && WireOk(sh, s) && RefusalsOk(s) && t < |s.tasks| && EffectOf(sh, s, t, c).Some?
    ensures RefusalsOk(Apply(s, t, EffectOf(sh, s, t, c).value))
  {
    hide EffectOf, Shape, TaskRefused, UntestedOk, EarlierOk, EntriesOk, PairsOk, CountTx;
    var k, e := s.tasks[t], EffectOf(sh, s, t, c).value;
    var s' := Apply(s, t, e);
    StepTurns(sh, s, t, c);
    forall i | 0 <= i < |s'.tasks|
      ensures TaskRefused(s'.refusals, i, s'.tasks[i])
    {
      if i == t {
        OwnRefused(s.refusals, t, k, e);
      } else {
        OtherRefused(s.refusals, t, k, e, i, s.tasks[i]);
      }
    }
    assert TaskWire(s.wire, t, k);
    forall i | 0 <= i < |s'.wire|
      ensures UntestedOk(s'.refusals, s'.wire[i])
    {
      if i < |s.wire| {
        OldUntested(s.refusals, t, k, e, s.wire[i]);
      } else {
        NewUntested(s.refusals, t, k, e);
      }
    }
  }

  lemma {:induction false} PlayRefusals(sh: Shared, s0: State, moves: seq<Move>)
    requires Init(s0) && Play(sh, s0, moves).Some?
    ensures RefusalsOk(Play(sh, s0, moves).value)
  {
    hide EffectOf, Shape, WireOk;
    if moves != [] {
      var last := |moves| - 1;
      PlayRefusals(sh, s0, moves[..last]);
      PlayShape(sh, s0, moves[..last]);
      PlayWire(sh, s0, moves[..last]);
      RefusalsStep(sh, Play(sh, s0, moves[..last]).value, moves[last].task, moves[last].choice);
    }
  }

  /**
   Every Http2 transmission goes over a connection that its hop tested or dialled itself,
   but for exactly one case: the hop's own Http3 dial failed, and it took over what the
   `#h2` slot held instead of dialling.
   */
  lemma UntestedAfterRefusal(sh: Shared, s: State, i: nat)
    requires Reachable(sh, s) && i < |s.wire|
    ensures var x := s.wire[i];
      && (!x.conn.h3 ==> x.how.Tested? || x.how.Dialled? || x.how.Untested?)
      && (x.how.Untested? <==> Refused(s.refusals, Place(x.task, x.hop)) && !x.how.Dialled?)
      && (x.how.Untested? ==> !x.conn.h3 && x.leg.h3)
  {
    var s0, moves := Played(sh, s);
    PlayRefusals(sh, s0, moves);
    EntryIsTyped(sh, s, i);
    assert UntestedOk(s.refusals, s.wire[i]);
  }
}
