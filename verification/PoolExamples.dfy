/**
 Runs that show what the pool does not promise: a late clear wipes a connection that never
 failed, a proxy is passed over, a dead connection is used untested, and an advertisement is
 filed where nobody looks for it.
 */
module PoolExamples {
  import opened Wrappers
  import opened Redirects
  import opened PoolKeys
  import opened PoolProtocol

  /** Every text parses to the one URL; a response advertises h3 exactly when its status is 200. */
  function SiteOf(u: Url, proxy: Option<Proxy>): Shared {
    Shared(
      Web(s => Some(u), (from, l) => None, (jar, at) => None, (verb, uri) => true, s => true, s => true),
      proxy,
      (c, at, cookie, acceptCh, initial) => Request("", "", []),
      (r, at) => [],
      r => false,
      (r: Response) => r.status == 200)
  }

  const SECURE := Url("u", "https", Some("h"), Some("h"), None, Tuple("o"))
  const PLAIN := SECURE.(scheme := "http")

  function FreshAt(u: Url): Task
    requires u.host.Some?
  {
    Task(Start("u", "GET", None), Start("u", "GET", None), [],
         Leg(u, LookupAuthority(u), false, None, false, 0, 0, 0, 0, 0, 0, 0, 0), Routing)
  }

  /** `n` calls about to begin, and the authorities that the user preset for Http3. */
  function Beginning(u: Url, n: nat, altSvc: set<Authority>): State
    requires u.host.Some?
  {
    State(seq(n, i => FreshAt(u)), map[], map[], altSvc, {}, [], 0, map[], map[], {},
          [Preset(altSvc, {}, [])], [], [])
  }

  lemma Begins(sh: Shared, u: Url, n: nat, altSvc: set<Authority>)
    requires u.host.Some?
    ensures Reachable(sh, Beginning(u, n, altSvc))
  {
    var s := Beginning(u, n, altSvc);
    var r := Run([s], []);
    assert Init(s);
    assert IsRun(sh, r) && End(r) == s;
  }

  // ----- one step at a time -----

  predicate On(k: Task, u: Url, h3: bool, pc: Pc) {
    && k.pc == pc && k.hops == []
    && u.host.Some? && k.leg.url == u && k.leg.at == LookupAuthority(u) && k.leg.h3 == h3
  }

  /** Only call `t` is somewhere else. */
  ghost predicate Others(s: State, t: nat, s': State) {
    |s'.tasks| == |s.tasks| && forall i :: 0 <= i < |s.tasks| && i != t ==> s'.tasks[i] == s.tasks[i]
  }

  lemma ReachStep(sh: Shared, s: State, t: nat, c: Choice) returns (s': State)
    requires Reachable(sh, s) && t < |s.tasks| && EffectOf(sh, s, t, c).Some?
    ensures s' == Apply(s, t, EffectOf(sh, s, t, c).value) && Step(sh, s, t, c) == Some(s')
    ensures Reachable(sh, s') && Others(s, t, s')
  {
    hide EffectOf, Init;
    s' := Apply(s, t, EffectOf(sh, s, t, c).value);
    Further(sh, s, t, c);
  }

  lemma Route(u: Url, proxy: Option<Proxy>, s: State, t: nat) returns (s': State)
    requires u.host.Some? && Reachable(SiteOf(u, proxy), s) && t < |s.tasks| && s.tasks[t] == FreshAt(u)
    ensures Reachable(SiteOf(u, proxy), s') && Others(s, t, s') && s' == s.(tasks := s'.tasks)
    ensures On(s'.tasks[t], u, LookupAuthority(u) in s.altSvc, ReadingJar)
    ensures s'.tasks[t].leg.routedAt == |s.log|
  {
    hide Reachable, Play;
    s' := ReachStep(SiteOf(u, proxy), s, t, No);
    assert EffectOf(SiteOf(u, proxy), s, t, No) == Some(RouteStep(SiteOf(u, proxy), s, s.tasks[t]));
  }

  lemma ReadJar(sh: Shared, u: Url, s: State, t: nat, h3: bool) returns (s': State)
    requires Reachable(sh, s) && t < |s.tasks| && On(s.tasks[t], u, h3, ReadingJar)
    ensures Reachable(sh, s') && Others(s, t, s') && s' == s.(tasks := s'.tasks)
    ensures On(s'.tasks[t], u, h3, ReadingHints)
  {
    hide Reachable, Play, LookupAuthority;
    s' := ReachStep(sh, s, t, No);
    assert EffectOf(sh, s, t, No) == Some(JarStep(sh, s, s.tasks[t]));
  }

  lemma ReadHints(sh: Shared, u: Url, s: State, t: nat, h3: bool) returns (s': State)
    requires Reachable(sh, s) && t < |s.tasks| && On(s.tasks[t], u, h3, ReadingHints)
    ensures Reachable(sh, s') && Others(s, t, s') && s' == s.(tasks := s'.tasks)
    ensures On(s'.tasks[t], u, h3, Peeking)
  {
    hide Reachable, Play, LookupAuthority;
    s' := ReachStep(sh, s, t, No);
    assert EffectOf(sh, s, t, No) == Some(HintStep(s, s.tasks[t]));
  }

  /** A call that is routed comes to its acquisition loop. */
  lemma ToLoop(sh: Shared, u: Url, s: State, t: nat, h3: bool) returns (s': State)
    requires Reachable(sh, s) && t < |s.tasks| && On(s.tasks[t], u, h3, ReadingJar)
    ensures Reachable(sh, s') && Others(s, t, s') && s' == s.(tasks := s'.tasks)
    ensures On(s'.tasks[t], u, h3, Peeking)
  {
    hide Reachable, On;
    var a := ReadJar(sh, u, s, t, h3);
    s' := ReadHints(sh, u, a, t, h3);
  }

  function SlotOf(u: Url, h3: bool): Key
    requires u.host.Some?
  {
    Key(LookupAuthority(u), h3)
  }

  lemma Peek(sh: Shared, u: Url, s: State, t: nat, h3: bool) returns (s': State)
    requires Reachable(sh, s) && t < |s.tasks| && On(s.tasks[t], u, h3, Peeking) && SlotOf(u, h3) !in s.locks
    ensures Reachable(sh, s') && Others(s, t, s') && s' == s.(tasks := s'.tasks)
    ensures SlotOf(u, h3) !in s.slots ==> On(s'.tasks[t], u, h3, Wanting)
    ensures SlotOf(u, h3) in s.slots && !s.slots[SlotOf(u, h3)].h3
        ==> On(s'.tasks[t], u, h3, Readying(s.slots[SlotOf(u, h3)]))
  {
    hide Reachable, Play, LookupAuthority;
    s' := ReachStep(sh, s, t, No);
    assert EffectOf(sh, s, t, No) == Some(PeekStep(s, s.tasks[t]));
  }

  lemma FailTest(sh: Shared, u: Url, s: State, t: nat, c: Conn) returns (s': State)
    requires Reachable(sh, s) && t < |s.tasks| && On(s.tasks[t], u, false, Readying(c))
    ensures Reachable(sh, s') && Others(s, t, s') && On(s'.tasks[t], u, false, Clearing(c))
    ensures s' == s.(tasks := s'.tasks, failures := Bump(s.failures, SlotOf(u, false)), dead := s.dead + {c.id})
  {
    hide Reachable, Play, LookupAuthority;
    s' := ReachStep(sh, s, t, No);
    assert EffectOf(sh, s, t, No) == Some(ReadyStep(s.tasks[t], c, false));
  }

  /** A clear empties the slot whatever it holds. */
  lemma Clear(sh: Shared, u: Url, s: State, t: nat, c: Conn) returns (s': State)
    requires Reachable(sh, s) && t < |s.tasks| && On(s.tasks[t], u, false, Clearing(c))
    requires SlotOf(u, false) !in s.locks
    ensures Reachable(sh, s') && Others(s, t, s') && On(s'.tasks[t], u, false, Peeking)
    ensures s' == s.(tasks := s'.tasks, slots := s.slots - {SlotOf(u, false)}) && Step(sh, s, t, No) == Some(s')
  {
    hide Reachable, Play, LookupAuthority;
    s' := ReachStep(sh, s, t, No);
    assert EffectOf(sh, s, t, No) == Some(ClearStep(s.tasks[t]));
  }

  lemma Want(sh: Shared, u: Url, s: State, t: nat, h3: bool) returns (s': State)
    requires Reachable(sh, s) && t < |s.tasks| && On(s.tasks[t], u, h3, Wanting)
    requires SlotOf(u, h3) !in s.slots && SlotOf(u, h3) !in s.locks
    ensures Reachable(sh, s') && Others(s, t, s') && On(s'.tasks[t], u, h3, Dialing)
    ensures s' == s.(tasks := s'.tasks, locks := s.locks[SlotOf(u, h3) := t])
  {
    hide Reachable, Play, LookupAuthority;
    s' := ReachStep(sh, s, t, No);
    assert EffectOf(sh, s, t, No) == Some(WantStep(s, s.tasks[t]));
  }

  lemma Dial(sh: Shared, u: Url, s: State, t: nat, h3: bool) returns (s': State)
    requires Reachable(sh, s) && t < |s.tasks| && On(s.tasks[t], u, h3, Dialing)
    ensures Reachable(sh, s') && Others(s, t, s')
    ensures var key, c := SlotOf(u, h3), NewConn(sh, s, LookupAuthority(u), h3);
      && On(s'.tasks[t], u, h3, Sending(c, Dialled))
      && s' == s.(tasks := s'.tasks, slots := s.slots[key := c], locks := s.locks - {key},
                  nextId := s.nextId + 1, installs := Bump(s.installs, key))
  {
    hide Reachable, Play, LookupAuthority;
    s' := ReachStep(sh, s, t, Yes);
    assert EffectOf(sh, s, t, Yes) == Some(DialStep(sh, s, t, s.tasks[t], true));
  }

  lemma FailDial(sh: Shared, u: Url, s: State, t: nat) returns (s': State)
    requires Reachable(sh, s) && t < |s.tasks| && On(s.tasks[t], u, true, Dialing)
    ensures Reachable(sh, s') && Others(s, t, s') && On(s'.tasks[t], u, true, WantingH2)
    ensures s' == s.(tasks := s'.tasks, altSvc := s'.altSvc, log := s'.log, refusals := s'.refusals)
    ensures s'.altSvc == s.altSvc - {LookupAuthority(u)}
  {
    hide Reachable, Play, LookupAuthority;
    s' := ReachStep(sh, s, t, No);
    assert EffectOf(sh, s, t, No) == Some(DialStep(sh, s, t, s.tasks[t], false));
  }

  /** After a failed Http3 dial the pooled Http2 connection is taken over untested. */
  lemma TakeH2(sh: Shared, u: Url, s: State, t: nat) returns (s': State)
    requires Reachable(sh, s) && t < |s.tasks| && On(s.tasks[t], u, true, WantingH2)
    requires SlotOf(u, false) !in s.locks && SlotOf(u, false) in s.slots
    ensures Reachable(sh, s') && Others(s, t, s')
    ensures On(s'.tasks[t], u, true, Sending(s.slots[SlotOf(u, false)], Untested))
    ensures s' == s.(tasks := s'.tasks, locks := s.locks - {SlotOf(u, true)})
  {
    hide Reachable, Play, LookupAuthority;
    s' := ReachStep(sh, s, t, No);
    assert EffectOf(sh, s, t, No) == Some(WantH2Step(s, s.tasks[t]));
  }

  lemma LockH2(sh: Shared, u: Url, s: State, t: nat) returns (s': State)
    requires Reachable(sh, s) && t < |s.tasks| && On(s.tasks[t], u, true, WantingH2)
    requires SlotOf(u, false) !in s.locks && SlotOf(u, false) !in s.slots
    ensures Reachable(sh, s') && Others(s, t, s') && On(s'.tasks[t], u, true, DialingH2)
    ensures s' == s.(tasks := s'.tasks, locks := s.locks[SlotOf(u, false) := t])
  {
    hide Reachable, Play, LookupAuthority;
    s' := ReachStep(sh, s, t, No);
    assert EffectOf(sh, s, t, No) == Some(WantH2Step(s, s.tasks[t]));
  }

  lemma DialH2(sh: Shared, u: Url, s: State, t: nat) returns (s': State)
    requires Reachable(sh, s) && t < |s.tasks| && On(s.tasks[t], u, true, DialingH2)
    ensures Reachable(sh, s') && Others(s, t, s')
    ensures var key, c := SlotOf(u, false), NewConn(sh, s, LookupAuthority(u), false);
      && On(s'.tasks[t], u, true, Sending(c, Dialled))
      && s' == s.(tasks := s'.tasks, slots := s.slots[key := c], locks := s.locks - {key, SlotOf(u, true)},
                  nextId := s.nextId + 1, installs := Bump(s.installs, key))
  {
    hide Reachable, Play, LookupAuthority;
    s' := ReachStep(sh, s, t, Yes);
    assert EffectOf(sh, s, t, Yes) == Some(DialH2Step(sh, s, s.tasks[t], true));
  }

  /** A transmission is answered. */
  lemma Send(u: Url, proxy: Option<Proxy>, s: State, t: nat, h3: bool, c: Conn, how: How, resp: Response)
    returns (s': State)
    requires Reachable(SiteOf(u, proxy), s) && t < |s.tasks| && On(s.tasks[t], u, h3, Sending(c, how))
    ensures Reachable(SiteOf(u, proxy), s') && Others(s, t, s') && On(s'.tasks[t], u, h3, StoringCookies(resp))
    ensures s' == s.(tasks := s'.tasks,
                     wire := s.wire + [Transmission(SiteOf(u, proxy), s, t, s.tasks[t], c, how, Some(resp))])
  {
    hide Reachable, Play, LookupAuthority, Transmission;
    var sh := SiteOf(u, proxy);
    s' := ReachStep(sh, s, t, Answer(resp));
    assert EffectOf(sh, s, t, Answer(resp)) == Some(SendStep(sh, s, t, s.tasks[t], c, how, Some(resp)));
  }

  /** A transmission over Http2 fails, and with it the call. */
  lemma FailSend(u: Url, proxy: Option<Proxy>, s: State, t: nat, h3: bool, c: Conn, how: How) returns (s': State)
    requires Reachable(SiteOf(u, proxy), s) && t < |s.tasks| && On(s.tasks[t], u, h3, Sending(c, how)) && !c.h3
    ensures Reachable(SiteOf(u, proxy), s') && Others(s, t, s')
    ensures On(s'.tasks[t], u, h3, Finished(Err(Transport)))
    ensures s' == s.(tasks := s'.tasks,
                     wire := s.wire + [Transmission(SiteOf(u, proxy), s, t, s.tasks[t], c, how, None)])
  {
    hide Reachable, Play, LookupAuthority, Transmission;
    var sh := SiteOf(u, proxy);
    s' := ReachStep(sh, s, t, No);
    assert EffectOf(sh, s, t, No) == Some(SendStep(sh, s, t, s.tasks[t], c, how, None));
  }

  lemma StoreCookies(u: Url, proxy: Option<Proxy>, s: State, t: nat, h3: bool, resp: Response) returns (s': State)
    requires Reachable(SiteOf(u, proxy), s) && t < |s.tasks| && On(s.tasks[t], u, h3, StoringCookies(resp))
    ensures Reachable(SiteOf(u, proxy), s') && Others(s, t, s') && On(s'.tasks[t], u, h3, StoringHints(resp))
    ensures s' == s.(tasks := s'.tasks, log := s'.log) && s.log <= s'.log
  {
    hide Reachable, Play, LookupAuthority;
    var sh := SiteOf(u, proxy);
    s' := ReachStep(sh, s, t, No);
    assert EffectOf(sh, s, t, No) == Some(CookieStep(sh, t, s.tasks[t], resp));
  }

  lemma StoreHints(u: Url, proxy: Option<Proxy>, s: State, t: nat, h3: bool, resp: Response) returns (s': State)
    requires Reachable(SiteOf(u, proxy), s) && t < |s.tasks| && On(s.tasks[t], u, h3, StoringHints(resp))
    ensures Reachable(SiteOf(u, proxy), s') && Others(s, t, s') && On(s'.tasks[t], u, h3, StoringAltSvc(resp))
    ensures s' == s.(tasks := s'.tasks, log := s'.log) && s.log <= s'.log
  {
    hide Reachable, Play, LookupAuthority;
    var sh := SiteOf(u, proxy);
    s' := ReachStep(sh, s, t, No);
    assert EffectOf(sh, s, t, No) == Some(StoreHintStep(sh, t, s.tasks[t], resp));
  }

  lemma StoreAltSvc(u: Url, proxy: Option<Proxy>, s: State, t: nat, h3: bool, resp: Response) returns (s': State)
    requires Reachable(SiteOf(u, proxy), s) && t < |s.tasks| && On(s.tasks[t], u, h3, StoringAltSvc(resp))
    requires resp.status == 200
    ensures Reachable(SiteOf(u, proxy), s') && Others(s, t, s')
    ensures s' == s.(tasks := s'.tasks, log := s'.log, altSvc := s.altSvc + {FilingAuthority(u)})
    ensures s'.log == s.log + [AltSvcRead(Place(t, 0), u, resp)]
  {
    hide Reachable, Play, LookupAuthority;
    var sh := SiteOf(u, proxy);
    s' := ReachStep(sh, s, t, No);
    assert EffectOf(sh, s, t, No) == Some(StoreAltSvcStep(sh, t, s.tasks[t], resp));
  }

  // ----- whole runs -----

  /** A fresh call finds the slot empty and fills it. */
  lemma Fill(u: Url, proxy: Option<Proxy>, s: State, t: nat) returns (s': State)
    requires u.host.Some? && Reachable(SiteOf(u, proxy), s) && t < |s.tasks| && s.tasks[t] == FreshAt(u)
    requires s.slots == map[] && s.locks == map[]
    ensures Reachable(SiteOf(u, proxy), s') && Others(s, t, s')
    ensures var h3 := LookupAuthority(u) in s.altSvc;
      var key, c := SlotOf(u, h3), NewConn(SiteOf(u, proxy), s, LookupAuthority(u), h3);
      && On(s'.tasks[t], u, h3, Sending(c, Dialled))
      && s' == s.(tasks := s'.tasks, slots := map[key := c], nextId := s.nextId + 1,
                  installs := Bump(s.installs, key))
  {
    hide Reachable, On, LookupAuthority, SiteOf;
    var sh, h3 := SiteOf(u, proxy), LookupAuthority(u) in s.altSvc;
    var a := Route(u, proxy, s, t);
    var b := ToLoop(sh, u, a, t, h3);
    s' := Refill(sh, u, b, t, h3);
  }

  /** A call at its loop finds the slot empty and fills it. */
  lemma Refill(sh: Shared, u: Url, s: State, t: nat, h3: bool) returns (s': State)
    requires Reachable(sh, s) && t < |s.tasks| && On(s.tasks[t], u, h3, Peeking)
    requires s.slots == map[] && s.locks == map[]
    ensures Reachable(sh, s') && Others(s, t, s')
    ensures var key, c := SlotOf(u, h3), NewConn(sh, s, LookupAuthority(u), h3);
      && On(s'.tasks[t], u, h3, Sending(c, Dialled))
      && s' == s.(tasks := s'.tasks, slots := map[key := c], nextId := s.nextId + 1,
                  installs := Bump(s.installs, key))
  {
    hide Reachable, Play;
    var a := Peek(sh, u, s, t, h3);
    var b := Want(sh, u, a, t, h3);
    s' := Dial(sh, u, b, t, h3);
    assert s'.locks == map[];
    assert NewConn(sh, b, LookupAuthority(u), h3) == NewConn(sh, s, LookupAuthority(u), h3);
  }

  /** A call routed over Http2 finds the pooled connection dead. */
  lemma FindDead(sh: Shared, u: Url, s: State, t: nat, c: Conn) returns (s': State)
    requires Reachable(sh, s) && t < |s.tasks| && On(s.tasks[t], u, false, ReadingJar)
    requires SlotOf(u, false) !in s.locks && SlotOf(u, false) in s.slots && s.slots[SlotOf(u, false)] == c && !c.h3
    ensures Reachable(sh, s') && Others(s, t, s') && On(s'.tasks[t], u, false, Clearing(c))
    ensures s' == s.(tasks := s'.tasks, failures := Bump(s.failures, SlotOf(u, false)), dead := s.dead + {c.id})
  {
    hide Reachable, On, SlotOf;
    var a := ToLoop(sh, u, s, t, false);
    var b := Peek(sh, u, a, t, false);
    s' := FailTest(sh, u, b, t, c);
  }

  /** A call that is about to wipe what its slot holds. */
  predicate AboutToWipe(s: State, t: nat, key: Key, wiped: Conn) {
    && t < |s.tasks| && s.tasks[t].pc.Clearing? && SlotKey(s.tasks[t].leg) == key
    && key in s.slots && s.slots[key] == wiped
  }

  /**
   Three calls and one dead connection. Two calls find it dead; the first replaces it,
   and the clear of the second then wipes the replacement, which no test ever found dead,
   so that a third dial follows: three dials for two failures, the bound exactly.
   */
  lemma StaleClearWipesFreshConnection()
    ensures var key := SlotOf(SECURE, false);
      exists s, wiped, s' :: Reachable(SiteOf(SECURE, None), s) && AboutToWipe(s, 2, key, wiped)
        && wiped.id !in s.dead && Step(SiteOf(SECURE, None), s, 2, No) == Some(s') && key !in s'.slots
    ensures exists s :: Reachable(SiteOf(SECURE, None), s)
              && Count(s.installs, SlotOf(SECURE, false)) == 3 && Count(s.failures, SlotOf(SECURE, false)) == 2
  {
    hide Reachable, On, Step, SiteOf, LookupAuthority;
    var sh, u := SiteOf(SECURE, None), SECURE;
    var key := SlotOf(u, false);
    Begins(sh, u, 3, {});
    var a := Fill(u, None, Beginning(u, 3, {}), 0);
    var old0 := a.slots[key];
    var b := Route(u, None, a, 1);
    var c := FindDead(sh, u, b, 1, old0);
    var d := Route(u, None, c, 2);
    var e := FindDead(sh, u, d, 2, old0);
    var f := Clear(sh, u, e, 1, old0);
    assert f.slots == map[];
    var g := Refill(sh, u, f, 1, false);
    var wiped := g.slots[key];
    Wipe(g, 2, u, old0, wiped);
    var h := Clear(sh, u, g, 2, old0);
    assert wiped.id == 1 && g.dead == {0};
    assert h.slots == map[];
    var i := Refill(sh, u, h, 2, false);
    assert Count(i.installs, key) == 3 && Count(i.failures, key) == 2;
  }

  lemma Wipe(s: State, t: nat, u: Url, tested: Conn, wiped: Conn)
    requires t < |s.tasks| && On(s.tasks[t], u, false, Clearing(tested))
    requires SlotOf(u, false) in s.slots && s.slots[SlotOf(u, false)] == wiped
    ensures AboutToWipe(s, t, SlotOf(u, false), wiped)
  {
  }

  /** A client with a proxy and a preset Http3 entry transmits to the server directly. */
  lemma ProxyBypassed(proxy: Proxy, resp: Response)
    ensures exists s :: Reachable(SiteOf(SECURE, Some(proxy)), s)
              && |s.wire| == 1 && s.wire[0].answer == Some(resp) && s.wire[0].conn.via == None
  {
    hide Reachable, On, SiteOf, LookupAuthority;
    var sh, u := SiteOf(SECURE, Some(proxy)), SECURE;
    var at := LookupAuthority(u);
    Begins(sh, u, 1, {at});
    var a := Fill(u, Some(proxy), Beginning(u, 1, {at}), 0);
    var c := a.slots[SlotOf(u, true)];
    var b := Send(u, Some(proxy), a, 0, true, c, Dialled, resp);
  }

  /** The call failed over a connection that it had not tested and another call's test had found dead. */
  ghost predicate FailedOverDead(s: State, t: nat) {
    && t < |s.tasks| && s.tasks[t].pc == Finished(Err(Transport))
    && exists i :: 0 <= i < |s.wire| && s.wire[i].task == t && s.wire[i].how == Untested && s.wire[i].conn.id in s.dead
  }

  lemma OverDead(sh: Shared, u: Url, s: State, s': State, t: nat, c: Conn)
    requires t < |s.tasks| && c.id in s.dead
    requires t < |s'.tasks| && On(s'.tasks[t], u, true, Finished(Err(Transport)))
    requires s' == s.(tasks := s'.tasks, wire := s.wire + [Transmission(sh, s, t, s.tasks[t], c, Untested, None)])
    ensures FailedOverDead(s', t)
  {
    assert s'.wire[|s.wire|].conn == c;
  }

  /** A call routed over Http3 finds the slot empty, and its dial fails. */
  lemma RefusedH3(sh: Shared, u: Url, s: State, t: nat) returns (s': State)
    requires Reachable(sh, s) && t < |s.tasks| && On(s.tasks[t], u, true, ReadingJar)
    requires SlotOf(u, true) !in s.slots && s.locks == map[]
    ensures Reachable(sh, s') && Others(s, t, s') && On(s'.tasks[t], u, true, WantingH2)
    ensures s' == s.(tasks := s'.tasks, locks := map[SlotOf(u, true) := t], altSvc := s.altSvc - {LookupAuthority(u)},
                     log := s'.log, refusals := s'.refusals)
  {
    hide Reachable, On;
    var a := ToLoop(sh, u, s, t, true);
    var b := Peek(sh, u, a, t, true);
    var c := Want(sh, u, b, t, true);
    s' := FailDial(sh, u, c, t);
  }

  /** The first call has fallen back, the third has found its connection dead, the second is about to start. */
  lemma DeadPooled() returns (s: State, c: Conn)
    ensures Reachable(SiteOf(SECURE, None), s) && |s.tasks| == 3
    ensures s.slots == map[SlotOf(SECURE, false) := c] && s.locks == map[] && s.dead == {c.id} && !c.h3
    ensures Count(s.installs, SlotOf(SECURE, false)) == 1
    ensures On(s.tasks[0], SECURE, true, Sending(c, Dialled)) && On(s.tasks[1], SECURE, true, ReadingJar)
    ensures On(s.tasks[2], SECURE, false, Clearing(c))
  {
    hide Reachable, On, LookupAuthority, SiteOf;
    var sh, u := SiteOf(SECURE, None), SECURE;
    var at := LookupAuthority(u);
    Begins(sh, u, 3, {at});
    var a := Route(u, None, Beginning(u, 3, {at}), 1);
    var b := Route(u, None, a, 0);
    var d := RefusedH3(sh, u, b, 0);
    var e := LockH2(sh, u, d, 0);
    var f := DialH2(sh, u, e, 0);
    assert f.locks == map[];
    c := f.slots[SlotOf(u, false)];
    var g := Route(u, None, f, 2);
    s := FindDead(sh, u, g, 2, c);
  }

  lemma OnUnfinished(u: Url, s: State)
    requires |s.tasks| == 3 && (exists c :: On(s.tasks[0], u, true, Sending(c, Dialled)))
    requires exists c :: On(s.tasks[2], u, false, Clearing(c))
    ensures !s.tasks[0].pc.Finished? && !s.tasks[2].pc.Finished?
  {
  }

  /**
   Three calls that were routed while an Http3 entry stood, or after it was evicted. The first
   falls back and pools an Http2 connection, the second finds that connection dead, and the
   third, whose Http3 dial fails, takes it over untested and fails, although every Http2 dial
   of the run succeeds: only one was needed, and no other call has failed.
   */
  lemma DeadConnectionUsedUntested()
    ensures exists s: State :: Reachable(SiteOf(SECURE, None), s) && FailedOverDead(s, 1)
              && Count(s.installs, SlotOf(SECURE, false)) == 1
              && forall t :: 0 <= t < |s.tasks| && t != 1 ==> !s.tasks[t].pc.Finished?
  {
    hide Reachable, On, LookupAuthority, Transmission, SiteOf, Bump, Count, NewConn;
    var sh, u := SiteOf(SECURE, None), SECURE;
    var g, conn := DeadPooled();
    var h := RefusedH3(sh, u, g, 1);
    var i := TakeH2(sh, u, h, 1);
    var j := FailSend(u, None, i, 1, true, conn, Untested);
    OverDead(sh, u, i, j, 1, conn);
    OnUnfinished(u, j);
  }

  /**
   A plain-http response advertises h3, which is filed under port 443; the next hop to the
   same URL looks under port 80 and goes over Http2.
   */
  lemma AdvertisementMissed(resp: Response)
    requires resp.status == 200
    ensures exists s: State :: Reachable(SiteOf(PLAIN, None), s)
              && s.log != [] && s.log[|s.log| - 1] == AltSvcRead(Place(0, 0), PLAIN, resp)
              && s.altSvc == {Authority("h", 443)} && |s.tasks| == 2
              && On(s.tasks[1], PLAIN, false, ReadingJar) && s.tasks[1].leg.routedAt == |s.log|
  {
    hide Reachable, On, Transmission, SiteOf;
    var sh, u := SiteOf(PLAIN, None), PLAIN;
    Begins(sh, u, 2, {});
    var a := Fill(u, None, Beginning(u, 2, {}), 0);
    var c := a.slots[SlotOf(u, false)];
    var b := Send(u, None, a, 0, false, c, Dialled, resp);
    var d := StoreCookies(u, None, b, 0, false, resp);
    var e := StoreHints(u, None, d, 0, false, resp);
    var f := StoreAltSvc(u, None, e, 0, false, resp);
    assert f.altSvc == {Authority("h", 443)};
    var g := Route(u, None, f, 1);
  }
}
