/**
 The caches and the requests of the client itself: the laws of the pool with what the source
 reads out of a response, and writes into a request, spelled out.
 */
module PoolReadings {
  import opened Wrappers
  import opened HeaderMaps
  import opened ChromeHeaders
  import opened Redirects
  import opened Responses
  import opened PoolKeys
  import opened PoolProtocol
  import opened PoolHistory
  import opened PoolFailures
  import opened PoolWire

  /** What the client takes out of a response: the hint, the advertisement and the cookies. */
  lemma ReadingsMean(w: World, proxy: Option<Proxy>, resp: Response, u: Url)
    ensures var sh := ClientOf(w, proxy);
      && sh.web == w.web && sh.proxy == proxy
      && (sh.asksForVersion(resp) <==> NamesVersionHint(w.web, resp))
      && (sh.advertisesH3(resp) <==> NamesH3(w.web, resp))
      && exists at :: ReadablePositions(w.web, Lookup(resp.headers, SetCookie), 0, at)
                      && KeptAt(Lookup(resp.headers, SetCookie), u, at, sh.newCookies(resp, u))
  {
    AskingMeans(w.web, resp);
    AdvertisingMeans(w.web, resp);
    CookiesInOrder(w.web, resp, u);
  }

  /** The response of this origin named the hint, or the user put the origin into the cache. */
  ghost predicate NamedHint(web: Web, e: Event, origin: string) {
    match e
    case Preset(_, hints, _) => origin in hints
    case HintsRead(_, from, resp) => NamesVersionHint(web, resp) && OriginText(from) == origin
    case _ => false
  }

  ghost predicate HintNamed(web: Web, log: seq<Event>, origin: string) {
    exists i :: 0 <= i < |log| && NamedHint(web, log[i], origin)
  }

  lemma AskedMeans(w: World, proxy: Option<Proxy>, log: seq<Event>, origin: string)
    ensures Asked(ClientOf(w, proxy), log, origin) <==> HintNamed(w.web, log, origin)
  {
    hide NamesVersionHint, ClientOf, OriginText;
    forall i | 0 <= i < |log|
      ensures Asks(ClientOf(w, proxy), log[i], origin) <==> NamedHint(w.web, log[i], origin)
    {
      if log[i].HintsRead? {
        ReadingsMean(w, proxy, log[i].resp, log[i].from);
      }
    }
  }

  /**
   The client's hint cache holds exactly the origins some response of which named
   sec-ch-ua-platform-version in its first accept-ch header, in capitals or not; no step
   forgets one; and every request carries the platform version exactly when its origin was
   among them at its read of the cache.
   */
  lemma ClientHintsAgree(w: World, proxy: Option<Proxy>, s: State)
    requires Reachable(ClientOf(w, proxy), s)
    ensures forall o :: o in s.hints <==> HintNamed(w.web, s.log, o)
    ensures forall t, c :: 0 <= t < |s.tasks| && Step(ClientOf(w, proxy), s, t, c).Some?
              ==> s.hints <= Step(ClientOf(w, proxy), s, t, c).value.hints
    ensures forall i :: 0 <= i < |s.wire| ==>
              var x := s.wire[i];
              && x.leg.hintsAt <= |s.log|
              && Lookup(x.request.headers, SecChUaPlatformVersion)
                 == if HintNamed(w.web, s.log[..x.leg.hintsAt], OriginText(x.leg.url))
                       && w.web.writable(w.profile.secChUaPlatformVersion)
                    then [HeaderValue(w.profile.secChUaPlatformVersion, false)]
                    else []
  {
    hide Reachable, Asked, HintNamed, ClientOf, Step, Lookup;
    HintsAgreeWithHistory(ClientOf(w, proxy), s);
    forall o
      ensures o in s.hints <==> HintNamed(w.web, s.log, o)
    {
      AskedMeans(w, proxy, s.log, o);
    }
    forall i | 0 <= i < |s.wire|
      ensures var x := s.wire[i];
        && x.leg.hintsAt <= |s.log|
        && Lookup(x.request.headers, SecChUaPlatformVersion)
           == if HintNamed(w.web, s.log[..x.leg.hintsAt], OriginText(x.leg.url))
                 && w.web.writable(w.profile.secChUaPlatformVersion)
              then [HeaderValue(w.profile.secChUaPlatformVersion, false)]
              else []
    {
      RequestsShowTheirHistory(w, proxy, s, i);
      AskedMeans(w, proxy, s.log[..s.wire[i].leg.hintsAt], OriginText(s.wire[i].leg.url));
    }
  }

  /**
   What announces HTTP/3 to the client for an authority: the user's preset, or a response whose
   first alt-svc header has an 'h' directly before a '3', from a URL with that host and that
   port, 443 when the URL names none.
   */
  lemma AnnouncementsMean(w: World, proxy: Option<Proxy>, e: Event, at: Authority)
    ensures Announces(ClientOf(w, proxy), e, at)
       <==> || (e.Preset? && at in e.altSvc)
            || (e.AltSvcRead? && NamesH3(w.web, e.resp)
                && at == Authority(e.from.host.GetOr(""), e.from.port.GetOr(443)))
  {
    hide NamesH3, ClientOf;
    if e.AltSvcRead? {
      ReadingsMean(w, proxy, e.resp, e.from);
    }
  }

  /** A move by which a response from the URL is read for its advertisement, and names h3. */
  ghost predicate ReadsH3(web: Web, s: State, m: Move, u: Url) {
    && m.task < |s.tasks|
    && s.tasks[m.task].pc.StoringAltSvc?
    && s.tasks[m.task].leg.url == u && NamesH3(web, s.tasks[m.task].pc.resp)
  }

  /**
   In every run of the client, once some call has read an alt-svc header that names h3 from a
   URL that is https or has an explicit port, the next hop of any call to that host and port
   goes over HTTP/3, unless the network failed HTTP/3 to it in between.
   */
  lemma ClientHonoursAdvertisements(w: World, proxy: Option<Proxy>, r: Run, i: nat, j: nat, u: Url, v: Url)
    requires IsRun(ClientOf(w, proxy), r) && i < j < |r.moves|
    requires ReadsH3(w.web, r.states[i], r.moves[i], u)
    requires u.host.Some? && (u.scheme != "http" || u.port.Some?)
    requires r.moves[j].task < |r.states[j].tasks|
    requires CanRoute(ClientOf(w, proxy), r.states[j].tasks[r.moves[j].task], v)
    requires v.host == u.host
    requires v.port.GetOr(if v.scheme == "http" then 80 else 443) == u.port.GetOr(443)
    requires forall m :: i < m < j ==>
               !FailsHttp3(ClientOf(w, proxy), r.states[m], r.moves[m], Authority(u.host.value, u.port.GetOr(443)))
    ensures r.moves[j].task < |r.states[j + 1].tasks| && r.states[j + 1].tasks[r.moves[j].task].leg.h3
  {
    hide Init, Follows, NamesH3, CanRoute, FailsHttp3, ClientOf;
    ReadingsMean(w, proxy, r.states[i].tasks[r.moves[i].task].pc.resp, u);
    assert LookupAuthority(u) == Authority(u.host.value, u.port.GetOr(443));
    HasHost(ClientOf(w, proxy), r.states[j].tasks[r.moves[j].task], v);
    AdvertisementIsHonoured(ClientOf(w, proxy), r, i, j, u, v);
  }

  lemma HasHost(sh: Shared, k: Task, u: Url)
    requires CanRoute(sh, k, u)
    ensures u.host.Some?
  {
  }

  /**
   Every request that calls in a fetch context put on the wire, first or repeated: mode,
   destination and accepted types are the context's, the browser's headers are the profile's,
   and user activation, fetch-site, platform version and referer are those of its hop.
   */
  lemma RequestsShowTheirContext(web: Web, p: HeaderProfile, context: RequestContext, proxy: Option<Proxy>,
                                 s: State, i: nat)
    requires Reachable(ClientOf(WorldFor(web, p, context), proxy), s) && i < |s.wire|
    ensures var x := s.wire[i];
      && x.task < |s.tasks| && x.hop <= |s.tasks[x.task].hops| && x.leg.hintsAt <= |s.log|
      && var earlier := Earlier(s, x);
      && SaysContext(x.request.headers, context)
      && SaysProfile([], x.request.headers, web.writable, p)
      && SaysHop([], x.request.headers, web.writable, p, SiteAfter(web, earlier), x.hop == 0, context,
                 HintNamed(web, s.log[..x.leg.hintsAt], OriginText(x.leg.url)), RefererAfter(web, earlier))
  {
    hide Reachable, ClientOf, SaysContext, SaysProfile, Leads, SiteAfter, RefererAfter, BuildRequest, HintNamed, Says;
    hide SaysHop, Asked, Lookup;
    var w := WorldFor(web, p, context);
    var x := s.wire[i];
    SentAsLed(ClientOf(w, proxy), s, i);
    ReadingsMean(w, proxy, Response(0, [], [], ""), x.leg.url);
    var start, earlier := s.tasks[x.task].start, Earlier(s, x);
    SiteAt(web, start, earlier, x.call);
    RefererAt(web, start, earlier, x.call);
    SentByClient(w, proxy, s, i);
    SentWithHint(w, proxy, s, i);
    AskedMeans(w, proxy, s.log[..x.leg.hintsAt], OriginText(x.leg.url));
    RequestShowsContext(web, p, context, x.call, x.leg.url, x.leg.cookie, x.leg.acceptCh, x.hop == 0);
  }
}
