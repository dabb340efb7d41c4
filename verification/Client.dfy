/**
 `execute_with_redirects` of src/client/pool.rs in the form the source gives it: an
 object whose slots, caches and jar the methods update, run by a single caller. What the
 network does is left open: any dial, readiness test or transmission may fail.
 */
module LoneClient {
  import opened Wrappers
  import opened HeaderMaps
  import opened ChromeHeaders
  import opened Redirects
  import opened Responses
  import opened PoolKeys
  import opened PoolProtocol
  import opened PoolCalls
  import opened PoolRecords

  // ----- the specification: the same call over Http2 alone -----

  datatype Outcome = Outcome(result: Result<Response, Error>, jar: seq<SetCookieText>, hints: set<string>)

  /** The hints known after a response. */
  function HintsAfter(sh: Shared, hints: set<string>, u: Url, resp: Response): set<string> {
    if sh.asksForVersion(resp) then hints + {OriginText(u)} else hints
  }

  /** The request of a hop whose URL is usable, given the jar and the hints. */
  function HopRequest(sh: Shared, c: Call, n: nat, jar: seq<SetCookieText>, hints: set<string>): Request
    requires !Unusable(sh.web, c)
  {
    var u := sh.web.parse(c.url).value;
    sh.request(c, u, sh.web.cookies(jar, u), OriginText(u) in hints, n == 0)
  }

  /**
   A call against a server whose answer depends on the request alone, with no transport
   in sight: what an Http2-only run returns and leaves in the jar and the hint cache.
   */
  function FollowAll(sh: Shared, server: Server, c: Call, n: nat, jar: seq<SetCookieText>, hints: set<string>): Outcome
    decreases MAX_HOPS - n
  {
    if n >= MAX_HOPS then Outcome(Err(RedirectLimit), jar, hints)
    else if Unusable(sh.web, c) then Outcome(Err(InvalidUrl), jar, hints)
    else
      var u := sh.web.parse(c.url).value;
      var resp := server(HopRequest(sh, c, n, jar, hints), c.body);
      var jar' := jar + sh.newCookies(resp, u);
      var hints' := HintsAfter(sh, hints, u, resp);
      match Advance(sh.web, c, u, resp)
      case Stop => Outcome(Ok(resp.(url := c.url)), jar', hints')
      case Broken => Outcome(Err(InvalidUrl), jar', hints')
      case Follow(next, _) => FollowAll(sh, server, next, n + 1, jar', hints')
  }

  /** One hop of that run. */
  lemma FollowOne(sh: Shared, server: Server, c: Call, n: nat, jar: seq<SetCookieText>, hints: set<string>,
                  u: Url, resp: Response)
    requires n < MAX_HOPS && sh.web.parse(c.url) == Some(u) && !Unusable(sh.web, c)
    requires resp == server(HopRequest(sh, c, n, jar, hints), c.body)
    ensures var jar', hints' := jar + sh.newCookies(resp, u), HintsAfter(sh, hints, u, resp);
      FollowAll(sh, server, c, n, jar, hints)
      == match Advance(sh.web, c, u, resp)
         case Stop => Outcome(Ok(resp.(url := c.url)), jar', hints')
         case Broken => Outcome(Err(InvalidUrl), jar', hints')
         case Follow(next, _) => FollowAll(sh, server, next, n + 1, jar', hints')
  {
  }

  lemma FollowNone(sh: Shared, server: Server, c: Call, n: nat, jar: seq<SetCookieText>, hints: set<string>)
    requires n < MAX_HOPS && Unusable(sh.web, c)
    ensures FollowAll(sh, server, c, n, jar, hints) == Outcome(Err(InvalidUrl), jar, hints)
  {
  }

  lemma FollowLimit(sh: Shared, server: Server, c: Call, n: nat, jar: seq<SetCookieText>, hints: set<string>)
    requires n >= MAX_HOPS
    ensures FollowAll(sh, server, c, n, jar, hints) == Outcome(Err(RedirectLimit), jar, hints)
  {
  }

  /** What each hop of that run reads from the jar and the hint cache. */
  function ReadsAlong(sh: Shared, server: Server, c: Call, n: nat, jar: seq<SetCookieText>,
                      hints: set<string>): seq<Reads>
    decreases MAX_HOPS - n
  {
    if n >= MAX_HOPS || Unusable(sh.web, c) then []
    else
      var u := sh.web.parse(c.url).value;
      var resp := server(HopRequest(sh, c, n, jar, hints), c.body);
      var here := [Reads(sh.web.cookies(jar, u), OriginText(u) in hints)];
      match Advance(sh.web, c, u, resp)
      case Follow(next, _) =>
        here + ReadsAlong(sh, server, next, n + 1, jar + sh.newCookies(resp, u), HintsAfter(sh, hints, u, resp))
      case _ => here
  }

  /**
   The Http2-only run is the specification that concurrent calls are held to: a call of
   any interleaving whose reads are those of the lone run ends as the lone run does.
   */
  lemma {:induction false} FollowAllIsReplay(sh: Shared, server: Server, c: Call, n: nat,
                                             jar: seq<SetCookieText>, hints: set<string>)
    ensures Replay(sh, server, c, ReadsAlong(sh, server, c, n, jar, hints), n)
         == Done(FollowAll(sh, server, c, n, jar, hints).result)
    decreases MAX_HOPS - n
  {
    hide Advance, HintsAfter;
    if n < MAX_HOPS && !Unusable(sh.web, c) {
      var u := sh.web.parse(c.url).value;
      var resp := server(HopRequest(sh, c, n, jar, hints), c.body);
      var seen := ReadsAlong(sh, server, c, n, jar, hints);
      assert seen[0] == Reads(sh.web.cookies(jar, u), OriginText(u) in hints);
      match Advance(sh.web, c, u, resp)
      case Follow(next, _) =>
        var jar', hints' := jar + sh.newCookies(resp, u), HintsAfter(sh, hints, u, resp);
        assert seen[1..] == ReadsAlong(sh, server, next, n + 1, jar', hints');
        FollowAllIsReplay(sh, server, next, n + 1, jar', hints');
      case _ =>
    }
  }

  /** A lone call and a call of any interleaving with the same start and the same reads end alike. */
  lemma LoneAndConcurrentAgree(sh: Shared, server: Server, s: State, t: nat,
                               jar: seq<SetCookieText>, hints: set<string>)
    requires Reachable(sh, s) && t < |s.tasks| && s.tasks[t].pc.Finished?
    requires s.tasks[t].pc.result != Err(Transport) && Honest(server, s.wire)
    requires ReadsOf(s.tasks[t].hops) == ReadsAlong(sh, server, s.tasks[t].start, 0, jar, hints)
    ensures s.tasks[t].pc.result == FollowAll(sh, server, s.tasks[t].start, 0, jar, hints).result
  {
    TransportUnobservable(sh, server, s, t);
    FollowAllIsReplay(sh, server, s.tasks[t].start, 0, jar, hints);
  }

  // ----- the client -----

  lemma ClientLibraries(w: World, proxy: Option<Proxy>)
    ensures ClientOf(w, proxy).web == w.web
  {
  }

  /** The request the client builds for a hop is the one of the specification. */
  lemma ClientRequest(w: World, proxy: Option<Proxy>, c: Call, u: Url, n: nat, jar: seq<SetCookieText>,
                      hints: set<string>)
    requires !Unusable(w.web, c) && w.web.parse(c.url) == Some(u)
    ensures HopRequest(ClientOf(w, proxy), c, n, jar, hints)
         == BuildRequest(w, c, u, w.web.cookies(jar, u), OriginText(u) in hints, n == 0)
  {
    hide BuildRequest;
  }

  /** What the specification reads out of a response is what the client stores of it. */
  lemma ClientParts(w: World, proxy: Option<Proxy>, u: Url, resp: Response)
    ensures ClientOf(w, proxy).newCookies(resp, u) == NewCookies(w.web, resp, u)
    ensures ClientOf(w, proxy).asksForVersion(resp) == AsksForVersion(w.web, resp)
  {
  }

  /** One transmission, with the hop it belongs to. */
  datatype Sent = Sent(hop: nat, conn: Conn, request: Request, body: Option<Bytes>, answered: bool)

  /** One readiness test of a pooled Http2 connection, and its outcome. */
  datatype Test = Test(conn: Conn, ready: bool)

  /**
   The transmissions of one hop: at most one, or a failed one over Http3 repeated unchanged
   over Http2. The last one was answered if the hop was, and no other.
   */
  predicate HopWire(xs: seq<Sent>, answered: bool, hop: nat, request: Request, body: Option<Bytes>, at: Authority) {
    && |xs| <= 2 && (answered ==> xs != [])
    && (forall i :: 0 <= i < |xs| ==>
          && xs[i].hop == hop && xs[i].request == request && xs[i].body == body && xs[i].conn.at == at
          && (xs[i].answered <==> answered && i == |xs| - 1))
    && (|xs| == 2 ==> xs[0].conn.h3 && !xs[1].conn.h3)
  }

  // ----- the hops of a call, and the transmissions they account for -----

  /** The cookies kept from these hops. */
  function CookiesFrom(web: Web, hops: seq<Redirects.Hop>): seq<SetCookieText> {
    if hops == [] then []
    else
      var last := hops[|hops| - 1];
      CookiesFrom(web, hops[..|hops| - 1]) + NewCookies(web, last.response, last.url)
  }

  /** The origin was among the hints, or one of these hops was answered with a request for the platform version. */
  ghost predicate HintKnown(web: Web, hints: set<string>, hops: seq<Redirects.Hop>, origin: string) {
    || origin in hints
    || exists m :: 0 <= m < |hops| && NamesVersionHint(web, hops[m].response) && OriginText(hops[m].url) == origin
  }

  /** What a call that began with this jar and these hints has kept after its hops. */
  ghost predicate KeptSoFar(web: Web, jar0: seq<SetCookieText>, hints0: set<string>, hops: seq<Redirects.Hop>,
                            jar: seq<SetCookieText>, hints: set<string>)
  {
    && jar == jar0 + CookiesFrom(web, hops)
    && forall o :: o in hints <==> HintKnown(web, hints0, hops, o)
  }

  /**
   A transmission shows the hop after `earlier`: it goes to the URL those hops lead to, over a
   connection to its host and port, with the method and body they leave, and with the site,
   referer, cookies and platform version that belong there.
   */
  ghost predicate ShowsHop(w: World, start: Call, jar: seq<SetCookieText>, hints: set<string>,
                           earlier: seq<Redirects.Hop>, x: Sent, url: string, u: Url)
  {
    && GoesTo(w.web, start.url, earlier, url) && w.web.parse(url) == Some(u) && x.request.uri == u.text
    && Some(x.conn.at.host) == u.host
    && x.conn.at.port == u.port.GetOr(if u.scheme == "http" then 80 else 443)
    && x.request.verb == (if Rotated(earlier) then "GET" else start.verb)
    && x.body == (if Rotated(earlier) then None else start.body)
    && Lookup(x.request.headers, SecFetchSite) == Written(w.web, Some(SiteAfter(w.web, earlier)), false)
    && Lookup(x.request.headers, Referer) == Written(w.web, RefererAfter(w.web, earlier), false)
    && Lookup(x.request.headers, HeaderName.Origin)
       == (if x.request.verb == "POST" || x.request.verb == "PUT" || x.request.verb == "PATCH"
           then Written(w.web, Some(if u.origin.Tuple? then u.origin.text else "null"), false)
           else [])
    && Lookup(x.request.headers, Cookie)
       == Written(w.web, w.web.cookies(jar + CookiesFrom(w.web, earlier), u), true)
    && Lookup(x.request.headers, SecChUaPlatformVersion)
       == (if HintKnown(w.web, hints, earlier, OriginText(u))
           then Written(w.web, Some(w.profile.secChUaPlatformVersion), false)
           else [])
  }

  /** A transmission of a call accounts for one of its hops, answered or under way. */
  ghost predicate AccountsFor(w: World, server: Server, start: Call, jar: seq<SetCookieText>, hints: set<string>,
                              hops: seq<Redirects.Hop>, x: Sent)
  {
    && x.hop <= |hops|
    && (exists url, u :: ShowsHop(w, start, jar, hints, hops[..x.hop], x, url, u))
    && (x.answered ==> x.hop < |hops| && hops[x.hop].response == server(x.request, x.body))
  }

  lemma ShownHop(w: World, start: Call, jar: seq<SetCookieText>, hints: set<string>, earlier: seq<Redirects.Hop>,
                 c: Call, u: Url, jar': seq<SetCookieText>, hints': set<string>, x: Sent)
    requires Leads(w.web, start, earlier, c) && start == Start(start.url, start.verb, start.body)
    requires w.web.parse(c.url) == Some(u) && u.host.Some? && KeptSoFar(w.web, jar, hints, earlier, jar', hints')
    requires x.request == BuildRequest(w, c, u, w.web.cookies(jar', u), OriginText(u) in hints', earlier == [])
    requires x.body == c.body && x.conn.at == LookupAuthority(u)
    ensures ShowsHop(w, start, jar, hints, earlier, x, c.url, u)
  {
    hide BuildRequest, Leads, GoesTo, SiteAfter, RefererAfter, Written, SiteText, RefererOf, Lookup, HintKnown;
    hide CookiesFrom, OriginText;
    UrlAt(w.web, start, earlier, c);
    MethodAndBodyAt(w.web, start, earlier, c);
    SiteAt(w.web, start, earlier, c);
    RefererAt(w.web, start, earlier, c);
    RequestHeaders(w, c, u, w.web.cookies(jar', u), OriginText(u) in hints', earlier == []);
  }

  lemma KeptOneMore(web: Web, jar0: seq<SetCookieText>, hints0: set<string>, hops: seq<Redirects.Hop>,
                    jar: seq<SetCookieText>, hints: set<string>, h: Redirects.Hop, hints': set<string>)
    requires KeptSoFar(web, jar0, hints0, hops, jar, hints)
    requires hints' == if AsksForVersion(web, h.response) then hints + {OriginText(h.url)} else hints
    ensures KeptSoFar(web, jar0, hints0, hops + [h], jar + NewCookies(web, h.response, h.url), hints')
  {
    hide AsksForVersion, NamesVersionHint, NewCookies;
    var more := hops + [h];
    assert more[..|hops|] == hops;
    AskingMeans(web, h.response);
    forall o
      ensures o in hints' <==> HintKnown(web, hints0, more, o)
    {
      assert more[|hops|] == h;
      if m :| 0 <= m < |hops| && NamesVersionHint(web, hops[m].response) && OriginText(hops[m].url) == o {
        assert more[m] == hops[m];
      }
    }
  }

  lemma LeadsOneMore(web: Web, start: Call, hops: seq<Redirects.Hop>, h: Redirects.Hop)
    requires Leads(web, start, hops, h.call) && web.parse(h.call.url) == Some(h.url)
    ensures Chain(web, start, hops + [h])
    ensures forall c :: Links(web, h, c) ==> Leads(web, start, hops + [h], c)
  {
    hide Links;
  }

  /** Exactly one of the transmissions is an answered one of hop n. */
  ghost predicate AnsweredOnce(xs: seq<Sent>, n: nat) {
    exists i :: 0 <= i < |xs| && AnsweredAt(xs, n, i) && forall j :: 0 <= j < |xs| && AnsweredAt(xs, n, j) ==> j == i
  }

  predicate AnsweredAt(xs: seq<Sent>, n: nat, i: nat) {
    i < |xs| && xs[i].hop == n && xs[i].answered
  }

  lemma NoneSent(xs: seq<Sent>, n: nat, request: Request, body: Option<Bytes>, at: Authority)
    requires xs == []
    ensures HopWire(xs, false, n, request, body, at)
  {
  }

  lemma NothingYet(web: Web, start: Call, jar: seq<SetCookieText>, hints: set<string>)
    ensures KeptSoFar(web, jar, hints, [], jar, hints) && Leads(web, start, [], start)
  {
    assert jar + [] == jar;
  }

  /** More transmissions of a later hop leave the answers of the earlier ones alone. */
  lemma AnsweredStill(xs: seq<Sent>, ys: seq<Sent>, n: nat)
    requires AnsweredOnce(xs, n) && forall i :: 0 <= i < |ys| ==> ys[i].hop != n
    ensures AnsweredOnce(xs + ys, n)
  {
    var i :| 0 <= i < |xs| && AnsweredAt(xs, n, i) && forall j :: 0 <= j < |xs| && AnsweredAt(xs, n, j) ==> j == i;
    assert AnsweredAt(xs + ys, n, i);
    forall j | 0 <= j < |xs + ys| && AnsweredAt(xs + ys, n, j)
      ensures j == i
    {
      assert j < |xs| ==> AnsweredAt(xs, n, j);
    }
  }

  /** The answered hop has its one answer at the end of the wire. */
  lemma AnsweredNow(xs: seq<Sent>, ys: seq<Sent>, n: nat, request: Request, body: Option<Bytes>, at: Authority)
    requires HopWire(ys, true, n, request, body, at) && forall i :: 0 <= i < |xs| ==> xs[i].hop != n
    ensures AnsweredOnce(xs + ys, n)
  {
    var last := |xs + ys| - 1;
    assert AnsweredAt(xs + ys, n, last);
    assert forall j :: 0 <= j < |xs| ==> (xs + ys)[j] == xs[j];
    assert forall j :: |xs| <= j < last ==> (xs + ys)[j] == ys[j - |xs|];
  }

  lemma AccountStays(w: World, server: Server, start: Call, jar: seq<SetCookieText>, hints: set<string>,
                     hops: seq<Redirects.Hop>, h: Redirects.Hop, x: Sent)
    requires AccountsFor(w, server, start, jar, hints, hops, x)
    ensures AccountsFor(w, server, start, jar, hints, hops + [h], x)
  {
    hide ShowsHop;
    assert (hops + [h])[..x.hop] == hops[..x.hop];
  }

  /** The variables, the jar and the hints a hop begins with, and the hop if it was answered. */
  datatype Pass = Pass(call: Call, jar: seq<SetCookieText>, hints: set<string>, done: Option<Redirects.Hop>)

  function More(hops: seq<Redirects.Hop>, done: Option<Redirects.Hop>): seq<Redirects.Hop> {
    if done.Some? then hops + [done.value] else hops
  }

  /** These transmissions are those of hop n. */
  ghost predicate PassWire(w: World, server: Server, n: nat, p: Pass, ys: seq<Sent>) {
    && (ys != [] || p.done.Some? ==>
          && w.web.parse(p.call.url).Some? && w.web.parse(p.call.url).value.host.Some?
          && var u := w.web.parse(p.call.url).value;
          HopWire(ys, p.done.Some?, n,
                  BuildRequest(w, p.call, u, w.web.cookies(p.jar, u), OriginText(u) in p.hints, n == 0),
                  p.call.body, LookupAuthority(u)))
    && (p.done.Some? ==>
          && p.done.value.call == p.call && w.web.parse(p.call.url) == Some(p.done.value.url)
          && ys != [] && p.done.value.response == server(ys[|ys| - 1].request, p.call.body))
  }

  lemma NoPass(w: World, server: Server, n: nat, p: Pass, ys: seq<Sent>)
    requires p.done.None? && ys == []
    ensures PassWire(w, server, n, p, ys)
  {
  }

  lemma OnePass(w: World, server: Server, n: nat, p: Pass, u: Url, ys: seq<Sent>)
    requires w.web.parse(p.call.url) == Some(u) && u.host.Some?
    requires var request := BuildRequest(w, p.call, u, w.web.cookies(p.jar, u), OriginText(u) in p.hints, n == 0);
      && HopWire(ys, p.done.Some?, n, request, p.call.body, LookupAuthority(u))
      && (p.done.Some? ==>
            && p.done.value.call == p.call && p.done.value.url == u
            && p.done.value.response == server(request, p.call.body))
    ensures PassWire(w, server, n, p, ys)
  {
    hide BuildRequest;
  }

  /** A call all of whose hops were followed. */
  lemma AllFollowed(web: Web, start: Call, hops: seq<Redirects.Hop>, c: Call)
    requires Leads(web, start, hops, c)
    ensures Chain(web, start, hops)
    ensures hops != [] ==> !Settles(hops[|hops| - 1].response)
  {
    if hops != [] {
      Followed(web, hops[|hops| - 1], c);
    }
  }

  lemma NewAccounts(w: World, server: Server, start: Call, jar: seq<SetCookieText>, hints: set<string>,
                    hops: seq<Redirects.Hop>, p: Pass, ys: seq<Sent>, i: nat)
    requires Leads(w.web, start, hops, p.call) && start == Start(start.url, start.verb, start.body)
    requires KeptSoFar(w.web, jar, hints, hops, p.jar, p.hints) && PassWire(w, server, |hops|, p, ys) && i < |ys|
    ensures AccountsFor(w, server, start, jar, hints, More(hops, p.done), ys[i]) && ys[i].hop == |hops|
  {
    hide ShowsHop, Leads, KeptSoFar, BuildRequest;
    var u := w.web.parse(p.call.url).value;
    ShownHop(w, start, jar, hints, hops, p.call, u, p.jar, p.hints, ys[i]);
    assert More(hops, p.done)[..|hops|] == hops;
  }

  /** One pass more: every transmission still accounts for a hop, and every hop has its one answer. */
  lemma PassAccounts(w: World, server: Server, start: Call, jar: seq<SetCookieText>, hints: set<string>,
                     hops: seq<Redirects.Hop>, p: Pass, xs: seq<Sent>, ys: seq<Sent>)
    requires Leads(w.web, start, hops, p.call) && start == Start(start.url, start.verb, start.body)
    requires KeptSoFar(w.web, jar, hints, hops, p.jar, p.hints) && PassWire(w, server, |hops|, p, ys)
    requires forall i :: 0 <= i < |xs| ==> AccountsFor(w, server, start, jar, hints, hops, xs[i]) && xs[i].hop < |hops|
    requires forall n :: 0 <= n < |hops| ==> AnsweredOnce(xs, n)
    ensures forall i :: 0 <= i < |xs + ys| ==>
              AccountsFor(w, server, start, jar, hints, More(hops, p.done), (xs + ys)[i]) && (xs + ys)[i].hop <= |hops|
    ensures forall n :: 0 <= n < |More(hops, p.done)| ==> AnsweredOnce(xs + ys, n)
  {
    hide AccountsFor, AnsweredOnce, Leads, KeptSoFar, BuildRequest, HopWire;
    forall i | 0 <= i < |xs|
      ensures AccountsFor(w, server, start, jar, hints, More(hops, p.done), xs[i])
    {
      if p.done.Some? {
        AccountStays(w, server, start, jar, hints, hops, p.done.value, xs[i]);
      }
    }
    forall i | 0 <= i < |ys|
      ensures AccountsFor(w, server, start, jar, hints, More(hops, p.done), ys[i]) && ys[i].hop == |hops|
    {
      NewAccounts(w, server, start, jar, hints, hops, p, ys, i);
    }
    forall n | 0 <= n < |hops|
      ensures AnsweredOnce(xs + ys, n)
    {
      AnsweredStill(xs, ys, n);
    }
    if p.done.Some? {
      var u := w.web.parse(p.call.url).value;
      AnsweredNow(xs, ys, |hops|,
                  BuildRequest(w, p.call, u, w.web.cookies(p.jar, u), OriginText(u) in p.hints, |hops| == 0),
                  p.call.body, LookupAuthority(u));
    }
  }

  class Client {
    const w: World
    const proxy: Option<Proxy>
    const server: Server
    const steady: bool          // Http2 dials and transmissions succeed

    var slots: map<Key, Conn>
    var altSvc: map<Authority, string>
    var hints: set<string>
    var jar: seq<SetCookieText>
    var nextId: nat
    var tests: seq<Test>
    var wire: seq<Sent>

    /** Every slot holds a connection of its own transport to its own authority. */
    predicate Valid()
      reads this
    {
      forall key :: key in slots ==>
        && slots[key].at == key.at && slots[key].h3 == key.h3
        && slots[key].via == if key.h3 then None else proxy
    }

    constructor (w: World, proxy: Option<Proxy>, server: Server, steady: bool)
      ensures Valid() && slots == map[] && altSvc == map[] && hints == {} && jar == []
      ensures nextId == 0 && tests == [] && wire == []
      ensures this.w == w && this.proxy == proxy && this.server == server && this.steady == steady
    {
      this.w, this.proxy, this.server, this.steady := w, proxy, server, steady;
      slots, altSvc, hints, jar, nextId, tests, wire := map[], map[], {}, [], 0, [], [];
    }

    /** A readiness test, whose outcome is the network's. */
    method Probe(c: Conn) returns (ready: bool)
      modifies this`tests
      ensures tests == old(tests) + [Test(c, ready)]
    {
      ready := *;
      tests := tests + [Test(c, ready)];
    }

    /** A dial: it may fail, but a steady Http2 one does not. */
    method Dial(at: Authority, h3: bool) returns (r: Result<Conn, Error>)
      modifies this`nextId
      ensures r.Ok? ==> r.value == Conn(old(nextId), at, h3, if h3 then None else proxy) && nextId == old(nextId) + 1
      ensures r.Err? ==> nextId == old(nextId)
      ensures r.Err? ==> r.error == Transport && (steady ==> h3)
    {
      var up := *;
      if up || (steady && !h3) {
        r := Ok(Conn(nextId, at, h3, if h3 then None else proxy));
        nextId := nextId + 1;
      } else {
        r := Err(Transport);
      }
    }

    /** A transmission: when answered, with the server's answer to the request. */
    method Transmit(hop: nat, c: Conn, request: Request, body: Option<Bytes>) returns (r: Result<Response, Error>)
      modifies this`wire
      ensures wire == old(wire) + [Sent(hop, c, request, body, r.Ok?)]
      ensures r.Ok? ==> r.value == server(request, body)
      ensures r.Err? ==> r.error == Transport && (steady ==> c.h3)
    {
      var up := *;
      var ok := up || (steady && !c.h3);
      r := if ok then Ok(server(request, body)) else Err(Transport);
      wire := wire + [Sent(hop, c, request, body, ok)];
    }

    /**
     The acquisition loop. A lone caller passes through it at most twice; it fails only
     when Http2 does, and an Http3 dial that fails costs the Alt-Svc entry. What the slot holds
     is used if it is an Http3 connection or passes its one readiness test; otherwise a
     connection is dialled, or the pooled Http2 one taken over after a failed Http3 dial.
     */
    method Acquire(at: Authority, routed: bool) returns (r: Result<Conn, Error>, ghost passes: nat)
      requires Valid()
      modifies this`slots, this`altSvc, this`nextId, this`tests
      ensures Valid() && passes <= 2
      ensures routed && Key(at, true) in old(slots) ==>
                r == Ok(old(slots)[Key(at, true)]) && slots == old(slots) && Undialled(old(nextId), old(tests))
      ensures !routed && Key(at, false) in old(slots) ==>
                && |tests| == |old(tests)| + 1 && tests[..|old(tests)|] == old(tests)
                && var test := tests[|old(tests)|];
                && test.conn == old(slots)[Key(at, false)]
                && (test.ready ==> r == Ok(test.conn) && slots == old(slots) && nextId == old(nextId))
                && (!test.ready && r.Ok? ==>
                      r.value.id == old(nextId) && slots == old(slots)[Key(at, false) := r.value])
                && (!test.ready && r.Err? ==> slots == old(slots) - {Key(at, false)})
      ensures Key(at, routed) !in old(slots) ==> tests == old(tests) && (r.Err? ==> slots == old(slots))
      ensures Key(at, routed) !in old(slots) && r.Ok? ==>
                if routed && !r.value.h3 && Key(at, false) in old(slots)
                then r.value == old(slots)[Key(at, false)] && slots == old(slots) && nextId == old(nextId)
                else r.value.id == old(nextId) && slots == old(slots)[Key(at, r.value.h3) := r.value]
      ensures r.Ok? ==> r.value.at == at && (r.value.h3 ==> routed)
      ensures r.Err? ==> r.error == Transport && !steady
      ensures r.Ok? ==> Key(at, r.value.h3) in slots && slots[Key(at, r.value.h3)] == r.value
      ensures altSvc == if routed && (r.Err? || !r.value.h3) then old(altSvc) - {at} else old(altSvc)
      ensures forall key: Key :: key.at != at ==> (key in slots <==> key in old(slots))
      ensures forall key :: key in slots && key.at != at ==> slots[key] == old(slots)[key]
    {
      var key := Key(at, routed);
      passes := 0;
      while true
        invariant Valid() && altSvc == old(altSvc) && nextId == old(nextId) && passes <= 1
        invariant passes == 0 ==> slots == old(slots) && tests == old(tests)
        invariant passes == 1 ==> !routed && key in old(slots) && slots == old(slots) - {key}
        invariant passes == 1 ==> tests == old(tests) + [Test(old(slots)[key], false)]
        decreases if key in slots then 1 else 0
      {
        passes := passes + 1;
        if key in slots {
          var c := slots[key];
          if c.h3 {
            return Ok(c), passes;
          }
          var ready := Probe(c);
          if ready {
            return Ok(c), passes;
          }
          slots := slots - {key};
        } else {
          var d := Dial(at, routed);
          if d.Ok? {
            slots := slots[key := d.value];
            return d, passes;
          }
          if !routed {
            return d, passes;
          }
          altSvc := altSvc - {at};
          r := PooledOrDialled(at);
          return;
        }
      }
    }

    /** Nothing was dialled and nothing tested since. */
    predicate Undialled(nextId0: nat, tests0: seq<Test>)
      reads this
    {
      nextId == nextId0 && tests == tests0
    }

    /** After a failed Http3 dial: the pooled Http2 connection as it is, or a new one. */
    method PooledOrDialled(at: Authority) returns (r: Result<Conn, Error>)
      requires Valid()
      modifies this`slots, this`nextId
      ensures Valid()
      ensures r.Ok? ==> r.value.at == at && !r.value.h3
      ensures r.Err? ==> r.error == Transport && !steady
      ensures Key(at, false) in old(slots) ==>
                r == Ok(old(slots)[Key(at, false)]) && slots == old(slots) && nextId == old(nextId)
      ensures Key(at, false) !in old(slots) && r.Ok? ==>
                slots == old(slots)[Key(at, false) := r.value] && r.value.id == old(nextId)
      ensures r.Err? ==> slots == old(slots)
    {
      var key := Key(at, false);
      if key in slots {
        r := Ok(slots[key]);
      } else {
        r := Dial(at, false);
        if r.Ok? {
          slots := slots[key := r.value];
        }
      }
    }

    /** After a failed Http3 transmission: the pooled Http2 connection if it is ready, or a new one. */
    method ReadyOrDialled(at: Authority) returns (r: Result<Conn, Error>)
      requires Valid()
      modifies this`slots, this`nextId, this`tests
      ensures Valid()
      ensures Key(at, false) !in old(slots) ==> tests == old(tests)
      ensures Key(at, false) in old(slots) ==>
                && |tests| == |old(tests)| + 1 && tests[|old(tests)|].conn == old(slots)[Key(at, false)]
                && (tests[|old(tests)|].ready ==> r == Ok(old(slots)[Key(at, false)]) && nextId == old(nextId))
      ensures r.Ok? && (Key(at, false) !in old(slots) || !tests[|old(tests)|].ready) ==> r.value.id == old(nextId)
      ensures r.Ok? ==> r.value.at == at && !r.value.h3 && slots == old(slots)[Key(at, false) := r.value]
      ensures r.Err? ==> r.error == Transport && !steady && slots == old(slots)
    {
      var key := Key(at, false);
      if key in slots {
        var ready := Probe(slots[key]);
        if ready {
          slots := slots[key := slots[key]];
          return Ok(slots[key]);
        }
      }
      r := Dial(at, false);
      if r.Ok? {
        slots := slots[key := r.value];
      }
    }

    method StoreCookies(resp: Response, u: Url)
      modifies this`jar
      ensures jar == old(jar) + NewCookies(w.web, resp, u)
    {
      var values := Lookup(resp.headers, SetCookie);
      var i := 0;
      while i < |values|
        invariant 0 <= i <= |values|
        invariant jar + CookieTexts(w.web, values[i..], u) == old(jar) + NewCookies(w.web, resp, u)
      {
        if ReadText(w.web, values[i]).Some? {
          jar := jar + [SetCookieText(values[i].text, u)];
        }
        i := i + 1;
      }
    }

    method StoreHints(resp: Response, u: Url)
      modifies this`hints
      ensures hints == HintsAfter(ClientOf(w, proxy), old(hints), u, resp)
      ensures hints == if AsksForVersion(w.web, resp) then old(hints) + {OriginText(u)} else old(hints)
    {
      var v := FirstText(w.web, resp.headers, AcceptCh);
      if v.Some? && Contains(Lower(v.value), "sec-ch-ua-platform-version") {
        hints := hints + {OriginText(u)};
      }
    }

    method StoreAltSvc(resp: Response, u: Url)
      modifies this`altSvc
      ensures altSvc == if AdvertisesH3(w.web, resp)
                        then old(altSvc)[FilingAuthority(u) := FirstText(w.web, resp.headers, AltSvc).value]
                        else old(altSvc)
    {
      var v := FirstText(w.web, resp.headers, AltSvc);
      if v.Some? && Contains(v.value, "h3") {
        altSvc := altSvc[FilingAuthority(u) := v.value];
      }
    }

    /** The request of one hop; the source spells it out once for each transmission. */
    method MakeRequest(c: Call, u: Url, cookie: Option<string>, acceptCh: bool, initial: bool,
                       referer: Option<string>) returns (r: Request)
      requires referer == RefererOf(w.web, c)
      ensures r == BuildRequest(w, c, u, cookie, acceptCh, initial)
      ensures r.uri == u.text && r.verb == c.verb
    {
      var headers := new HeaderMap();
      if cookie.Some? {
        headers.InsertText(Cookie, cookie.value, w.web.writable);
      }
      if c.verb == "POST" || c.verb == "PUT" || c.verb == "PATCH" {
        headers.InsertText(HeaderName.Origin, OriginText(u), w.web.writable);
      }
      InjectInto(headers, w.web.writable, w.profile, SiteText(c.site), initial && w.activated, w.meta, acceptCh,
                 referer);
      r := Request(c.verb, u.text, headers.fields);
    }

    /** The second transmission, after a failed one over Http3: the same request over Http2. */
    method FallBack(c: Call, u: Url, n: nat, cookie: Option<string>, acceptCh: bool, referer: Option<string>)
      returns (r: Result<Response, Error>)
      requires Valid() && u.host.Some? && referer == RefererOf(w.web, c)
      modifies this`slots, this`altSvc, this`nextId, this`tests, this`wire
      ensures Valid() && altSvc == old(altSvc) - {LookupAuthority(u)}
      ensures r.Err? ==> r.error == Transport && !steady
      ensures r.Ok? ==> r.value == server(BuildRequest(w, c, u, cookie, acceptCh, n == 0), c.body)
      ensures old(wire) <= wire && |wire| <= |old(wire)| + 1 && (r.Ok? ==> |wire| == |old(wire)| + 1)
      ensures |wire| > |old(wire)| ==>
                var x := wire[|old(wire)|];
                && x == Sent(n, x.conn, BuildRequest(w, c, u, cookie, acceptCh, n == 0), c.body, r.Ok?)
                && x.conn.at == LookupAuthority(u) && !x.conn.h3
    {
      hide Advance, BuildRequest;
      var at := LookupAuthority(u);
      altSvc := altSvc - {at};
      var second := ReadyOrDialled(at);
      if second.Err? {
        return Err(second.error);
      }
      var repeated := MakeRequest(c, u, cookie, acceptCh, n == 0, referer);
      r := Transmit(n, second.value, repeated, c.body);
    }

    /**
     One hop: acquire, transmit, and on an Http3 failure transmit once more over Http2.
     The answer is the server's answer to the hop's one request.
     */
    method Exchange(c: Call, u: Url, n: nat) returns (r: Result<Response, Error>)
      requires Valid() && w.web.parse(c.url) == Some(u) && u.host.Some?
      modifies this`slots, this`altSvc, this`nextId, this`tests, this`wire
      ensures Valid()
      ensures r == Err(InvalidUrl) ==> Unusable(w.web, c) && wire == old(wire)
      ensures Unusable(w.web, c) ==> r == Err(InvalidUrl) || (r == Err(Transport) && !steady)
      ensures r != Err(RedirectLimit)
      ensures r == Err(Transport) ==> !steady
      ensures r.Ok? ==> !Unusable(w.web, c)
      ensures r.Ok? ==> r.value == server(HopRequest(ClientOf(w, proxy), c, n, jar, hints), c.body)
      ensures r.Ok? ==>
                r.value == server(BuildRequest(w, c, u, w.web.cookies(jar, u), OriginText(u) in hints, n == 0), c.body)
      ensures old(wire) <= wire && |wire| <= |old(wire)| + 2
      ensures r.Ok? ==> |wire| > |old(wire)|
      ensures r.Ok? ==>
                altSvc == if wire[|wire| - 1].conn.h3 then old(altSvc) else old(altSvc) - {LookupAuthority(u)}
      ensures HopWire(wire[|old(wire)|..], r.Ok?, n,
                      BuildRequest(w, c, u, w.web.cookies(jar, u), OriginText(u) in hints, n == 0), c.body,
                      LookupAuthority(u))
    {
      hide Advance, BuildRequest, HopRequest, ClientOf, HopWire;
      ClientLibraries(w, proxy);
      var at := LookupAuthority(u);
      var routed := at in altSvc;
      var cookie := w.web.cookies(jar, u);
      var acceptCh := OriginText(u) in hints;
      var referer := RefererOf(w.web, c);
      var conn, _ := Acquire(at, routed);
      NoneSent(wire[|old(wire)|..], n, BuildRequest(w, c, u, cookie, acceptCh, n == 0), c.body, at);
      if conn.Err? {
        return Err(conn.error);
      }
      if !w.web.requestOk(c.verb, u.text) {
        return Err(InvalidUrl);
      }
      ClientRequest(w, proxy, c, u, n, jar, hints);
      r := SendOrFallBack(c, u, n, conn.value, cookie, acceptCh, referer);
    }

    /** The transmission over the acquired connection, and the repetition of one that failed over Http3. */
    method SendOrFallBack(c: Call, u: Url, n: nat, conn: Conn, cookie: Option<string>, acceptCh: bool,
                          referer: Option<string>) returns (r: Result<Response, Error>)
      requires Valid() && u.host.Some? && referer == RefererOf(w.web, c) && conn.at == LookupAuthority(u)
      modifies this`slots, this`altSvc, this`nextId, this`tests, this`wire
      ensures Valid()
      ensures r.Err? ==> r.error == Transport && !steady
      ensures old(wire) < wire && |wire| <= |old(wire)| + 2
      ensures r.Ok? ==> r.value == server(BuildRequest(w, c, u, cookie, acceptCh, n == 0), c.body)
      ensures HopWire(wire[|old(wire)|..], r.Ok?, n, BuildRequest(w, c, u, cookie, acceptCh, n == 0), c.body, conn.at)
      ensures r.Ok? ==>
                altSvc == if conn.h3 && !wire[|wire| - 1].conn.h3 then old(altSvc) - {conn.at} else old(altSvc)
      ensures r.Ok? && !conn.h3 ==> !wire[|wire| - 1].conn.h3
    {
      hide Advance, BuildRequest;
      var request := MakeRequest(c, u, cookie, acceptCh, n == 0, referer);
      r := Transmit(n, conn, request, c.body);
      if r.Err? && conn.h3 {
        r := FallBack(c, u, n, cookie, acceptCh, referer);
      }
    }

    /**
     The body of the redirect loop: one hop ends the call or hands on the next hop's variables.
     `done` is the hop if it was answered, with what it read and what it was answered.
     */
    method Hop(c: Call, n: nat)
      returns (end: Option<Result<Response, Error>>, next: Call, ghost done: Option<Redirects.Hop>)
      requires Valid() && n < MAX_HOPS
      modifies this`slots, this`altSvc, this`nextId, this`tests, this`wire, this`jar, this`hints
      ensures Valid()
      ensures old(wire) <= wire && |wire| <= |old(wire)| + 2
      ensures PassWire(w, server, n, Pass(c, old(jar), old(hints), done), wire[|old(wire)|..])
      ensures done.Some? ==>
                var u, resp := done.value.url, done.value.response;
                && done.value.call == c && w.web.parse(c.url) == Some(u)
                && jar == old(jar) + NewCookies(w.web, resp, u)
                && (hints == if AsksForVersion(w.web, resp) then old(hints) + {OriginText(u)} else old(hints))
                && (end.None? ==> Links(w.web, done.value, next))
                && (end.Some? && end.value.Ok? ==> Settles(resp) && end == Some(Ok(resp.(url := c.url))))
      ensures done.None? ==> jar == old(jar) && hints == old(hints) && end.Some? && end.value.Err?
      ensures end != Some(Err(RedirectLimit))
      ensures end == Some(Err(Transport)) ==> !steady
      ensures end.Some? && end != Some(Err(Transport)) ==>
                Outcome(end.value, jar, hints) == FollowAll(ClientOf(w, proxy), server, c, n, old(jar), old(hints))
      ensures end.None? ==> FollowAll(ClientOf(w, proxy), server, next, n + 1, jar, hints)
                            == FollowAll(ClientOf(w, proxy), server, c, n, old(jar), old(hints))
    {
      hide ClientOf, FollowAll, HopRequest, Responses.NewCookies, Responses.AsksForVersion, Advance, BuildRequest;
      hide HopWire, PassWire, LookupAuthority, HintsAfter;
      next, done := c, None;
      NoPass(w, server, n, Pass(c, jar, hints, None), []);
      ghost var sh := ClientOf(w, proxy);
      ClientLibraries(w, proxy);
      if Unusable(w.web, c) {
        FollowNone(sh, server, c, n, jar, hints);
      }
      var parsed := w.web.parse(c.url);
      if parsed.None? || parsed.value.host.None? {
        assert wire[|old(wire)|..] == [];
        return Some(Err(InvalidUrl)), c, None;
      }
      var u := parsed.value;
      ghost var jar0, hints0 := jar, hints;
      var r := Exchange(c, u, n);
      if r.Err? {
        assert r.error == InvalidUrl ==> Unusable(w.web, c);
        OnePass(w, server, n, Pass(c, jar0, hints0, None), u, wire[|old(wire)|..]);
        return Some(r), c, None;
      }
      var resp := r.value;
      done := Some(Redirects.Hop(c, u, w.web.cookies(jar, u), OriginText(u) in hints, resp));
      OnePass(w, server, n, Pass(c, jar0, hints0, done), u, wire[|old(wire)|..]);
      FollowOne(sh, server, c, n, jar, hints, u, resp);
      end, next := Conclude(c, u, resp);
    }

    /** What a hop does with its response: it keeps what is to be kept and asks the redirect arm. */
    method Conclude(c: Call, u: Url, resp: Response) returns (end: Option<Result<Response, Error>>, next: Call)
      modifies this`jar, this`hints, this`altSvc
      ensures jar == old(jar) + NewCookies(w.web, resp, u)
      ensures hints == if AsksForVersion(w.web, resp) then old(hints) + {OriginText(u)} else old(hints)
      ensures jar == old(jar) + ClientOf(w, proxy).newCookies(resp, u)
      ensures hints == HintsAfter(ClientOf(w, proxy), old(hints), u, resp)
      ensures match Advance(w.web, c, u, resp)
              case Stop => end == Some(Ok(resp.(url := c.url)))
              case Broken => end == Some(Err(InvalidUrl))
              case Follow(call, _) => end == None && next == call
      ensures end.Some? && end.value.Ok? ==> Settles(resp)
    {
      hide ClientOf, NewCookies, AsksForVersion, Advance, Settles;
      next := c;
      Record(resp, u);
      var after := Redirect(c, u, resp);
      match after {
        case Stop => end := Some(Ok(resp.(url := c.url)));
        case Broken => end := Some(Err(InvalidUrl));
        case Follow(call, _) => end, next := None, call;
      }
    }

    /** What a hop keeps of its response: cookies, hints and the advertisement. */
    method Record(resp: Response, u: Url)
      modifies this`jar, this`hints, this`altSvc
      ensures jar == old(jar) + ClientOf(w, proxy).newCookies(resp, u)
      ensures jar == old(jar) + NewCookies(w.web, resp, u)
      ensures hints == HintsAfter(ClientOf(w, proxy), old(hints), u, resp)
      ensures hints == if AsksForVersion(w.web, resp) then old(hints) + {OriginText(u)} else old(hints)
      ensures altSvc == if AdvertisesH3(w.web, resp)
                        then old(altSvc)[FilingAuthority(u) := FirstText(w.web, resp.headers, AltSvc).value]
                        else old(altSvc)
    {
      hide ClientOf, Responses.NewCookies, Responses.AsksForVersion;
      ClientParts(w, proxy, u, resp);
      StoreCookies(resp, u);
      StoreHints(resp, u);
      StoreAltSvc(resp, u);
    }

    /**
     The whole call. Unless Http2 fails it returns what the Http2-only run returns and
     leaves the same cookies and hints, whatever the Alt-Svc cache and the slots held at
     the start and however Http3 dials and transmissions fail; it transmits at most twice for
     each of at most ten hops; and every one of its transmissions, failed or not, goes where
     the answers to the hops before it lead, with what belongs there.
     */
    method ExecuteWithRedirects(verb: string, url: string, body: Option<Bytes>)
      returns (r: Result<Response, Error>, ghost hops: seq<Redirects.Hop>)
      requires Valid()
      modifies this
      ensures Valid()
      ensures r == Err(Transport) ==> !steady
      ensures r != Err(Transport)
          ==> Outcome(r, jar, hints)
              == FollowAll(ClientOf(w, proxy), server, Start(url, verb, body), 0, old(jar), old(hints))
      ensures old(wire) <= wire && |wire| <= |old(wire)| + 20 && |hops| <= 10
      ensures Chain(w.web, Start(url, verb, body), hops)
      ensures KeptSoFar(w.web, old(jar), old(hints), hops, jar, hints)
      ensures forall i :: |old(wire)| <= i < |wire| ==>
                AccountsFor(w, server, Start(url, verb, body), old(jar), old(hints), hops, wire[i])
      ensures forall n :: 0 <= n < |hops| ==> AnsweredOnce(wire[|old(wire)|..], n)
      ensures r.Ok? ==>
                && hops != [] && Settles(hops[|hops| - 1].response)
                && r.value == hops[|hops| - 1].response.(url := hops[|hops| - 1].call.url)
      ensures r == Err(RedirectLimit) ==> |hops| == 10 && !Settles(hops[9].response)
    {
      hide ClientOf, FollowAll, Links, KeptSoFar, AccountsFor, AnsweredOnce, PassWire, Leads, Chain, Settles;
      var c := Start(url, verb, body);
      ghost var start, sent := c, |wire|;
      hops := [];
      NothingYet(w.web, start, jar, hints);
      ghost var goal := FollowAll(ClientOf(w, proxy), server, c, 0, jar, hints);
      for hop := 0 to MAX_HOPS
        invariant Valid()
        invariant goal == FollowAll(ClientOf(w, proxy), server, c, hop, jar, hints)
        invariant old(wire) <= wire && |wire| <= |old(wire)| + 2 * hop
        invariant |hops| == hop && Leads(w.web, start, hops, c)
        invariant KeptSoFar(w.web, old(jar), old(hints), hops, jar, hints)
        invariant forall i :: 0 <= i < |wire[sent..]| ==>
                    && AccountsFor(w, server, start, old(jar), old(hints), hops, wire[sent..][i])
                    && wire[sent..][i].hop < |hops|
        invariant forall n :: 0 <= n < |hops| ==> AnsweredOnce(wire[sent..], n)
      {
        ghost var before, jar1, hints1 := wire, jar, hints;
        var end, next, done := Hop(c, hop);
        ghost var pass := Pass(c, jar1, hints1, done);
        assert wire[sent..] == before[sent..] + wire[|before|..];
        PassAccounts(w, server, start, old(jar), old(hints), hops, pass, before[sent..], wire[|before|..]);
        AllFollowed(w.web, start, hops, c);
        if done.Some? {
          KeptOneMore(w.web, old(jar), old(hints), hops, jar1, hints1, done.value, hints);
          LeadsOneMore(w.web, start, hops, done.value);
        }
        hops := More(hops, done);
        if end.Some? {
          return end.value, hops;
        }
        c := next;
      }
      AllFollowed(w.web, start, hops, c);
      FollowLimit(ClientOf(w, proxy), server, c, MAX_HOPS, jar, hints);
      return Err(RedirectLimit), hops;
    }

    /** The redirect arm of the loop, updating the variables of the call one after the other. */
    method Redirect(c: Call, u: Url, resp: Response) returns (next: Next)
      ensures next == Advance(w.web, c, u, resp)
      ensures next == Stop <==> Settles(resp)
      ensures next == Broken <==> !Settles(resp) && w.web.join(u, LocationText(w.web, resp)) == None
      ensures next.Follow? ==>
                && Some(next.target) == w.web.join(u, LocationText(w.web, resp))
                && next.call.url == next.target.text && next.call.previous == Some(c.url)
                && (if resp.status in {301, 302, 303} then next.call.verb == "GET" && next.call.body == None
                    else next.call.verb == c.verb && next.call.body == c.body)
                && var h := Redirects.Hop(c, u, None, false, resp);
                && (next.call.crossed <==> c.crossed || LeavesSite(w.web, h))
                && (!c.crossed ==>
                      SiteText(next.call.site) == if KeepsOrigin(w.web, h) then "same-origin"
                                                  else if LeavesSite(w.web, h) then "cross-site" else "same-site")
    {
      NotFollowed(w.web, c, u, resp);
      ghost var h := Redirects.Hop(c, u, None, false, resp);
      if Advance(w.web, c, u, resp).Follow? {
        Followed(w.web, h, Advance(w.web, c, u, resp).call);
      }
      hide Settles, LeavesSite, KeepsOrigin, LocationText;
      if !IsRedirection(resp.status) || Lookup(resp.headers, Location) == [] {
        return Stop;
      }
      var target := w.web.join(u, FirstText(w.web, resp.headers, Location).GetOr(""));
      if target.None? {
        return Broken;
      }
      var currentVerb, currentBody, site, crossed := c.verb, c.body, c.site, c.crossed;
      if resp.status == 301 || resp.status == 302 || resp.status == 303 {
        currentVerb, currentBody := "GET", None;
      }
      if !crossed {
        if SameOrigin(target.value.origin, u.origin) {
          site := SameOriginSite;
        } else if target.value.domain == u.domain {
          site := SameSite;
        } else {
          site, crossed := CrossSite, true;
        }
      }
      return Follow(Call(target.value.text, currentVerb, currentBody, Some(c.url), site, crossed), target.value);
    }
  }
}
