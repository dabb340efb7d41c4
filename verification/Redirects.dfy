/**
 The redirect machine of src/client/pool.rs: the variables a call carries from hop
 to hop, the request each hop sends, and what a response makes of them.
 */
module Redirects {
  import opened Wrappers
  import opened HeaderMaps
  import opened ChromeHeaders

  /** An origin: opaque origins are equal to nothing, themselves included. */
  datatype OriginId = Tuple(text: string) | Opaque

  predicate SameOrigin(a: OriginId, b: OriginId) {
    a.Tuple? && a == b
  }

  datatype Url = Url(
    text: string,
    scheme: string,
    host: Option<string>,
    domain: Option<string>,
    port: Option<nat>,
    origin: OriginId)

  /** The ASCII form of an origin. */
  function OriginText(u: Url): string {
    match u.origin
    case Tuple(text) => text
    case Opaque => "null"
  }

  /** A set-cookie text together with the URL it came from; a jar is the history of these. */
  datatype SetCookieText = SetCookieText(text: string, from: Url)

  /** The libraries the client calls: any functions at all. */
  datatype Web = Web(
    parse: string -> Option<Url>,
    join: (Url, string) -> Option<Url>,
    cookies: (seq<SetCookieText>, Url) -> Option<string>,
    requestOk: (string, string) -> bool,
    writable: string -> bool,              // texts that can become header values
    readable: string -> bool)              // header values that can be read back as texts

  datatype FetchSite = NoSite | SameOriginSite | SameSite | CrossSite

  function SiteText(s: FetchSite): string {
    match s
    case NoSite => "none"
    case SameOriginSite => "same-origin"
    case SameSite => "same-site"
    case CrossSite => "cross-site"
  }

  /** The loop variables of a call. */
  datatype Call = Call(
    url: string,
    verb: string,
    body: Option<Bytes>,
    previous: Option<string>,
    site: FetchSite,
    crossed: bool)

  function Start(url: string, verb: string, body: Option<Bytes>): Call {
    Call(url, verb, body, None, NoSite, false)
  }

  datatype Request = Request(verb: string, uri: string, headers: seq<Field>)

  datatype Response = Response(status: nat, headers: seq<Field>, body: Bytes, url: string)

  datatype Error = InvalidUrl | RedirectLimit | Transport

  const MAX_HOPS: nat := 10

  /** What a call reads and never changes: the libraries, the profile, and its fetch context. */
  datatype World = World(web: Web, profile: HeaderProfile, meta: Metadata, activated: bool)

  function WorldFor(web: Web, profile: HeaderProfile, context: RequestContext): World {
    World(web, profile, MetadataOf(context), UserActivated(context))
  }

  function RefererOf(web: Web, c: Call): Option<string> {
    match c.previous
    case None => None
    case Some(prev) =>
      if c.crossed && web.parse(prev).Some?
      then Some(OriginText(web.parse(prev).value) + "/")
      else Some(prev)
  }

  predicate Mutating(verb: string) {
    verb == "POST" || verb == "PUT" || verb == "PATCH"
  }

  /** The headers present before the injection. */
  function OwnHeaders(web: Web, c: Call, u: Url, cookie: Option<string>): seq<Field> {
    var a := PutOpt([], Cookie, if cookie.Some? then Checked(web.writable, cookie.value) else None);
    PutOpt(a, HeaderName.Origin, if Mutating(c.verb) then Checked(web.writable, OriginText(u)) else None)
  }

  function InputsFor(w: World, c: Call, acceptCh: bool, initial: bool): Inputs {
    Inputs(w.web.writable, w.profile, SiteText(c.site), w.meta, initial && w.activated, acceptCh, RefererOf(w.web, c))
  }

  function BuildRequest(w: World, c: Call, u: Url, cookie: Option<string>, acceptCh: bool, initial: bool): Request {
    Request(c.verb, u.text, Inject(OwnHeaders(w.web, c, u, cookie), InputsFor(w, c, acceptCh, initial)))
  }

  /** A header value read back as text, if it can be. */
  function ReadText(web: Web, v: HeaderValue): Option<string> {
    Checked(web.readable, v.text)
  }

  function FirstText(web: Web, fs: seq<Field>, n: HeaderName): Option<string> {
    if Lookup(fs, n) == [] then None else ReadText(web, Lookup(fs, n)[0])
  }

  predicate Rotates(status: nat) {
    status == 301 || status == 302 || status == 303
  }

  predicate IsRedirection(status: nat) {
    300 <= status < 400
  }

  function SiteBetween(from: Url, to: Url): FetchSite {
    if SameOrigin(to.origin, from.origin) then SameOriginSite
    else if to.domain == from.domain then SameSite
    else CrossSite
  }

  datatype Next = Stop | Broken | Follow(call: Call, target: Url)

  /** What the loop does with the response `resp` to the hop of `c` at `u`. */
  function Advance(web: Web, c: Call, u: Url, resp: Response): Next {
    if !IsRedirection(resp.status) || Lookup(resp.headers, Location) == [] then Stop
    else
      match web.join(u, FirstText(web, resp.headers, Location).GetOr(""))
      case None => Broken
      case Some(next) =>
        var verb := if Rotates(resp.status) then "GET" else c.verb;
        var body := if Rotates(resp.status) then None else c.body;
        var site := if c.crossed then c.site else SiteBetween(u, next);
        Follow(Call(next.text, verb, body, Some(c.url), site, c.crossed || site == CrossSite), next)
  }

  /** One completed hop: the loop variables it began with, what it read, and its response. */
  datatype Hop = Hop(call: Call, url: Url, cookie: Option<string>, acceptCh: bool, response: Response)

  function RequestOf(w: World, h: Hop, at: nat): Request {
    BuildRequest(w, h.call, h.url, h.cookie, h.acceptCh, at == 0)
  }

  /** The hops of one call, in order, each following from the response before it. */
  ghost predicate Chain(web: Web, start: Call, hops: seq<Hop>) {
    && (hops != [] ==> hops[0].call == start)
    && (forall i :: 0 <= i < |hops| ==> web.parse(hops[i].call.url) == Some(hops[i].url))
    && (forall i :: 0 < i < |hops| ==> Links(web, hops[i - 1], hops[i].call))
  }

  ghost predicate Links(web: Web, h: Hop, c: Call) {
    var next := Advance(web, h.call, h.url, h.response);
    next.Follow? && next.call == c
  }

  /** The text of the first Location header, or nothing when it cannot be read. */
  function LocationText(web: Web, resp: Response): string {
    var values := Lookup(resp.headers, Location);
    if values != [] && web.readable(values[0].text) then values[0].text else ""
  }

  /** The URL a followed hop leads to. */
  function Target(web: Web, h: Hop): Url {
    web.join(h.url, LocationText(web, h.response)).GetOr(h.url)
  }

  /** The origin stays the same; an opaque one never does. */
  predicate KeepsOrigin(web: Web, h: Hop) {
    h.url.origin.Tuple? && Target(web, h).origin == h.url.origin
  }

  /** A hop whose redirect leaves the site. */
  predicate LeavesSite(web: Web, h: Hop) {
    !KeepsOrigin(web, h) && Target(web, h).domain != h.url.domain
  }

  /**
   Everything one followed hop does to the loop variables. It was answered with a status from
   300 to 399 and a Location that can be joined to its URL; 301, 302 and 303 turn the call into
   a GET without a body and the other statuses leave method and body alone.
   */
  lemma Followed(web: Web, h: Hop, c: Call)
    requires Links(web, h, c)
    ensures 300 <= h.response.status <= 399 && Lookup(h.response.headers, Location) != []
    ensures web.join(h.url, LocationText(web, h.response)) == Some(Target(web, h)) && c.url == Target(web, h).text
    ensures h.response.status in {301, 302, 303} ==> c.verb == "GET" && c.body == None
    ensures h.response.status !in {301, 302, 303} ==> c.verb == h.call.verb && c.body == h.call.body
    ensures c.previous == Some(h.call.url) && (c.crossed <==> h.call.crossed || LeavesSite(web, h))
    ensures !h.call.crossed ==>
              SiteText(c.site) == if KeepsOrigin(web, h) then "same-origin"
                                  else if LeavesSite(web, h) then "cross-site" else "same-site"
    ensures h.call.crossed ==> c.site == h.call.site
  {
  }

  /** Not a redirect: another status, or no Location. */
  predicate Settles(resp: Response) {
    resp.status < 300 || 399 < resp.status || Lookup(resp.headers, Location) == []
  }

  /** A response ends the call exactly when it settles, or when its Location cannot be joined to the URL. */
  lemma NotFollowed(web: Web, c: Call, u: Url, resp: Response)
    ensures Advance(web, c, u, resp) == Stop <==> Settles(resp)
    ensures Advance(web, c, u, resp) == Broken <==> !Settles(resp) && web.join(u, LocationText(web, resp)) == None
  {
  }

  /** The variables of the hop that follows `earlier`: the start's, or what the last hop leads to. */
  ghost predicate Leads(web: Web, start: Call, earlier: seq<Hop>, c: Call) {
    && Chain(web, start, earlier)
    && if earlier == [] then c == start else Links(web, earlier[|earlier| - 1], c)
  }

  lemma ChainLeads(web: Web, start: Call, hops: seq<Hop>, n: nat)
    requires Chain(web, start, hops) && n < |hops|
    ensures Leads(web, start, hops[..n], hops[n].call)
  {
    if n > 0 {
      assert Links(web, hops[n - 1], hops[n].call);
    }
  }

  // ----- laws over whole chains, for the hop that follows any number of earlier ones -----

  /** The hop after `earlier` goes to the URL given, or to the last hop's URL joined with its Location text. */
  predicate GoesTo(web: Web, start: string, earlier: seq<Hop>, url: string) {
    if earlier == [] then url == start
    else
      var last := earlier[|earlier| - 1];
      var values := Lookup(last.response.headers, Location);
      && 300 <= last.response.status <= 399 && values != []
      && var joined := web.join(last.url, if web.readable(values[0].text) then values[0].text else "");
      joined.Some? && url == joined.value.text
  }

  /** Where the hop after `earlier` goes, and where the earlier ones went. */
  lemma UrlAt(web: Web, start: Call, earlier: seq<Hop>, c: Call)
    requires Leads(web, start, earlier, c)
    ensures GoesTo(web, start.url, earlier, c.url)
    ensures forall m :: 0 <= m < |earlier| ==> GoesTo(web, start.url, earlier[..m], earlier[m].call.url)
    ensures forall m :: 0 <= m < |earlier| ==> web.parse(earlier[m].call.url) == Some(earlier[m].url)
  {
    if earlier != [] {
      Followed(web, earlier[|earlier| - 1], c);
    }
    forall m | 0 <= m < |earlier|
      ensures GoesTo(web, start.url, earlier[..m], earlier[m].call.url)
    {
      if m > 0 {
        assert Links(web, earlier[m - 1], earlier[m].call);
        Followed(web, earlier[m - 1], earlier[m].call);
      }
    }
  }

  /** Some of these hops left the site. */
  ghost predicate LeftSite(web: Web, earlier: seq<Hop>) {
    exists m :: 0 <= m < |earlier| && LeavesSite(web, earlier[m])
  }

  lemma LeftSiteLast(web: Web, earlier: seq<Hop>)
    requires earlier != []
    ensures LeftSite(web, earlier)
       <==> LeftSite(web, earlier[..|earlier| - 1]) || LeavesSite(web, earlier[|earlier| - 1])
  {
    var front := earlier[..|earlier| - 1];
    if LeftSite(web, front) {
      var m :| 0 <= m < |front| && LeavesSite(web, front[m]);
      assert LeavesSite(web, earlier[m]);
    }
    if m :| 0 <= m < |earlier| - 1 && LeavesSite(web, earlier[m]) {
      assert LeavesSite(web, front[m]);
    }
  }

  lemma {:induction false} CrossedAt(web: Web, start: Call, earlier: seq<Hop>, c: Call)
    requires Leads(web, start, earlier, c) && !start.crossed
    ensures c.crossed <==> LeftSite(web, earlier)
  {
    if earlier != [] {
      var last := |earlier| - 1;
      ChainLeads(web, start, earlier, last);
      CrossedAt(web, start, earlier[..last], earlier[last].call);
      LeftSiteLast(web, earlier);
      Followed(web, earlier[last], c);
    }
  }

  /** None at first, cross-site once any hop left the site, otherwise what the last hop alone makes of it. */
  ghost function SiteAfter(web: Web, earlier: seq<Hop>): string {
    if earlier == [] then "none"
    else if LeftSite(web, earlier) then "cross-site"
    else if KeepsOrigin(web, earlier[|earlier| - 1]) then "same-origin"
    else "same-site"
  }

  lemma {:induction false} SiteAt(web: Web, start: Call, earlier: seq<Hop>, c: Call)
    requires Leads(web, start, earlier, c) && !start.crossed && start.site == NoSite
    ensures SiteText(c.site) == SiteAfter(web, earlier)
  {
    hide Links;
    if earlier != [] {
      var last := |earlier| - 1;
      ChainLeads(web, start, earlier, last);
      SiteAt(web, start, earlier[..last], earlier[last].call);
      Followed(web, earlier[last], c);
      CrossedAt(web, start, earlier[..last], earlier[last].call);
      LeftSiteLast(web, earlier);
    }
  }

  /** The URL of the last hop, cut down to its origin and "/" exactly when some hop left the site. */
  ghost function RefererAfter(web: Web, earlier: seq<Hop>): Option<string> {
    if earlier == [] then None
    else
      var last := earlier[|earlier| - 1];
      Some(if LeftSite(web, earlier) then BareOrigin(last.url) else last.call.url)
  }

  /** A URL cut down to its origin. */
  function BareOrigin(u: Url): string {
    OriginText(u) + "/"
  }

  lemma RefererAt(web: Web, start: Call, earlier: seq<Hop>, c: Call)
    requires Leads(web, start, earlier, c) && !start.crossed && start.previous == None
    ensures RefererOf(web, c) == RefererAfter(web, earlier)
  {
    CrossedAt(web, start, earlier, c);
    if earlier != [] {
      Followed(web, earlier[|earlier| - 1], c);
    }
  }

  // ----- the policy that the source names -----

  /**
   What section 8 of the W3C Referrer Policy asks of URLs: the serialised URL without user,
   password and fragment, and whether the URL is potentially trustworthy.
   */
  datatype Standard = Standard(strip: Url -> string, trustworthy: Url -> bool)

  /** A stripped referrer longer than this is cut down to its origin. */
  const REFERRER_LIMIT: nat := 4096

  function WholeReferrer(std: Standard, from: Url): string {
    if |std.strip(from)| > REFERRER_LIMIT then BareOrigin(from) else std.strip(from)
  }

  predicate Downgrades(std: Standard, from: Url, to: Url) {
    std.trustworthy(from) && !std.trustworthy(to)
  }

  /** What a strict-origin-when-cross-origin policy sends from one URL to the next: possibly nothing. */
  function PolicyReferer(std: Standard, from: Url, to: Url): Option<string> {
    if SameOrigin(to.origin, from.origin) then Some(WholeReferrer(std, from))
    else if Downgrades(std, from, to) then None
    else Some(BareOrigin(from))
  }

  /**
   The comment in the source names that policy. The code meets it exactly when, within an
   origin, what it sends is already stripped and short enough (or nothing but an origin, if
   it trims), and, across origins, there is no downgrade and it trims (or need not).
   It trims when some hop so far left the *site*, whatever the last hop did.
   */
  lemma RefererPolicyHolds(web: Web, std: Standard, start: Call, earlier: seq<Hop>, c: Call)
    requires Leads(web, start, earlier, c) && earlier != [] && !start.crossed && start.previous == None
    ensures var from := earlier[|earlier| - 1];
      var to, trims := Target(web, from), LeftSite(web, earlier);
      RefererOf(web, c) == PolicyReferer(std, from.url, to)
      <==> if SameOrigin(to.origin, from.url.origin)
           then WholeReferrer(std, from.url) == if trims then BareOrigin(from.url) else from.call.url
           else !Downgrades(std, from.url, to) && (trims || from.call.url == BareOrigin(from.url))
  {
    RefererAt(web, start, earlier, c);
  }

  /**
   Hosts without a domain, such as IP addresses, all count as one site: however many
   distinct addresses a chain visits, the full previous URL is sent at every hop.
   */
  lemma AddressesShareASite(web: Web, start: Call, earlier: seq<Hop>, c: Call)
    requires Leads(web, start, earlier, c) && earlier != []
    requires !start.crossed && start.previous == None && start.site == NoSite
    requires forall m :: 0 <= m < |earlier| ==> earlier[m].url.domain == None && Target(web, earlier[m]).domain == None
    ensures SiteText(c.site) != "cross-site"
    ensures RefererOf(web, c) == Some(earlier[|earlier| - 1].call.url)
  {
    SiteAt(web, start, earlier, c);
    RefererAt(web, start, earlier, c);
    assert |"same-origin"| == 11 && |"same-site"| == 9 && |"cross-site"| == 10;
  }

  /** Some of these hops answered with 301, 302 or 303. */
  ghost predicate Rotated(earlier: seq<Hop>) {
    exists m :: 0 <= m < |earlier| && earlier[m].response.status in {301, 302, 303}
  }

  lemma RotatedLast(earlier: seq<Hop>)
    requires earlier != []
    ensures Rotated(earlier)
       <==> Rotated(earlier[..|earlier| - 1]) || earlier[|earlier| - 1].response.status in {301, 302, 303}
  {
    var front := earlier[..|earlier| - 1];
    if Rotated(front) {
      var m :| 0 <= m < |front| && front[m].response.status in {301, 302, 303};
      assert earlier[m].response.status in {301, 302, 303};
    }
    if m :| 0 <= m < |earlier| - 1 && earlier[m].response.status in {301, 302, 303} {
      assert front[m].response.status in {301, 302, 303};
    }
  }

  /**
   Method and body: a GET without a body once some earlier hop was answered with 301, 302 or
   303, and until then the ones the call was started with, although every earlier hop was
   answered with some status from 300 to 399.
   */
  lemma {:induction false} MethodAndBodyAt(web: Web, start: Call, earlier: seq<Hop>, c: Call)
    requires Leads(web, start, earlier, c)
    ensures forall m :: 0 <= m < |earlier| ==> 300 <= earlier[m].response.status <= 399
    ensures (exists m :: 0 <= m < |earlier| && earlier[m].response.status in {301, 302, 303})
        ==> c.verb == "GET" && c.body == None
    ensures (forall m :: 0 <= m < |earlier| ==> earlier[m].response.status !in {301, 302, 303})
        ==> c.verb == start.verb && c.body == start.body
  {
    if earlier != [] {
      var last := |earlier| - 1;
      ChainLeads(web, start, earlier, last);
      MethodAndBodyAt(web, start, earlier[..last], earlier[last].call);
      RotatedLast(earlier);
      Followed(web, earlier[last], c);
      assert forall m :: 0 <= m < last ==> earlier[m] == earlier[..last][m];
    }
  }

  // ----- the headers of every transmitted request -----

  /** The values of a header that is inserted when its text can be a header value. */
  function Written(web: Web, s: Option<string>, sensitive: bool): seq<HeaderValue> {
    if s.Some? && web.writable(s.value) then [HeaderValue(s.value, sensitive)] else []
  }

  function WhenMutating(c: Call, u: Url): Option<string> {
    if Mutating(c.verb) then Some(OriginText(u)) else None
  }

  lemma OwnHeadersTable(web: Web, c: Call, u: Url, cookie: Option<string>, n: HeaderName)
    ensures Lookup(OwnHeaders(web, c, u, cookie), n)
         == if n == Cookie then Written(web, cookie, false)
            else if n == HeaderName.Origin then Written(web, WhenMutating(c, u), false)
            else []
  {
    var jar := if cookie.Some? then Checked(web.writable, cookie.value) else None;
    var origin := if Mutating(c.verb) then Checked(web.writable, OriginText(u)) else None;
    LookupPutOpt([], Cookie, jar, n);
    LookupPutOpt(PutOpt([], Cookie, jar), HeaderName.Origin, origin, n);
  }

  /** One header of a request: what the injection owns, or else what the client put there itself. */
  lemma RequestHeader(w: World, c: Call, u: Url, cookie: Option<string>, acceptCh: bool, initial: bool, n: HeaderName)
    ensures var x := InputsFor(w, c, acceptCh, initial);
      Lookup(BuildRequest(w, c, u, cookie, acceptCh, initial).headers, n)
      == if Owned(x, n).Some? then [HeaderValue(Owned(x, n).value, false)]
         else if n == Cookie then Hide(Written(w.web, cookie, false))
         else if n == HeaderName.Origin then Written(w.web, WhenMutating(c, u), false)
         else []
  {
    hide Inject, OwnHeaders, InputsFor, Owned, Lookup;
    var x := InputsFor(w, c, acceptCh, initial);
    var own := OwnHeaders(w.web, c, u, cookie);
    InjectTable(own, x, n);
    OwnHeadersTable(w.web, c, u, cookie, n);
  }

  lemma InputsRead(w: World, c: Call, acceptCh: bool, initial: bool)
    ensures var x := InputsFor(w, c, acceptCh, initial);
      && x.writable == w.web.writable && x.profile == w.profile && x.acceptCh == acceptCh
      && x.site == SiteText(c.site) && x.userActivated == (initial && w.activated) && x.referer == RefererOf(w.web, c)
  {
  }

  /**
   The request of one hop: to the URL as it is, with the call's method, and these headers name
   by name.
   */
  lemma RequestHeaders(w: World, c: Call, u: Url, cookie: Option<string>, acceptCh: bool, initial: bool)
    ensures var r := BuildRequest(w, c, u, cookie, acceptCh, initial);
      && r.uri == u.text && r.verb == c.verb
      && Lookup(r.headers, Cookie) == Written(w.web, cookie, true)
      && Lookup(r.headers, Authorization) == []
      && Lookup(r.headers, HeaderName.Origin)
         == (if c.verb == "POST" || c.verb == "PUT" || c.verb == "PATCH"
             then Written(w.web, Some(if u.origin.Tuple? then u.origin.text else "null"), false)
             else [])
      && Lookup(r.headers, SecFetchSite) == Written(w.web, Some(SiteText(c.site)), false)
      && Lookup(r.headers, Referer) == Written(w.web, RefererOf(w.web, c), false)
      && (Lookup(r.headers, SecFetchUser)
          == if initial && w.activated then [HeaderValue("?1", false)] else [])
      && (Lookup(r.headers, SecChUaPlatformVersion)
          == if acceptCh then Written(w.web, Some(w.profile.secChUaPlatformVersion), false) else [])
  {
    hide BuildRequest, InputsFor, RefererOf, Lookup, SiteText;
    RequestLine(w, c, u, cookie, acceptCh, initial);
    RequestHeader(w, c, u, cookie, acceptCh, initial, Cookie);
    RequestHeader(w, c, u, cookie, acceptCh, initial, Authorization);
    RequestHeader(w, c, u, cookie, acceptCh, initial, HeaderName.Origin);
    RequestHeader(w, c, u, cookie, acceptCh, initial, SecFetchSite);
    RequestHeader(w, c, u, cookie, acceptCh, initial, Referer);
    RequestHeader(w, c, u, cookie, acceptCh, initial, SecFetchUser);
    RequestHeader(w, c, u, cookie, acceptCh, initial, SecChUaPlatformVersion);
    InputsRead(w, c, acceptCh, initial);
    HiddenWritten(w.web, cookie);
  }

  lemma RequestLine(w: World, c: Call, u: Url, cookie: Option<string>, acceptCh: bool, initial: bool)
    ensures var r := BuildRequest(w, c, u, cookie, acceptCh, initial); r.uri == u.text && r.verb == c.verb
  {
  }

  lemma HiddenWritten(web: Web, s: Option<string>)
    ensures Hide(Written(web, s, false)) == Written(web, s, true)
  {
  }

  lemma OwnHeadersElsewhere(web: Web, c: Call, u: Url, cookie: Option<string>)
    ensures forall n: HeaderName :: !n.Cookie? && !n.Origin? ==> Lookup(OwnHeaders(web, c, u, cookie), n) == []
  {
    hide Lookup, OwnHeaders;
    forall n: HeaderName | !n.Cookie? && !n.Origin?
      ensures Lookup(OwnHeaders(web, c, u, cookie), n) == []
    {
      OwnHeadersTable(web, c, u, cookie, n);
    }
  }

  /**
   The request of one hop of a call in its fetch context: what the context and the profile
   say in it, and what the hop adds to them.
   */
  lemma RequestShowsContext(web: Web, p: HeaderProfile, context: RequestContext, c: Call, u: Url,
                            cookie: Option<string>, acceptCh: bool, initial: bool)
    ensures var headers := BuildRequest(WorldFor(web, p, context), c, u, cookie, acceptCh, initial).headers;
      && SaysContext(headers, context)
      && SaysProfile([], headers, web.writable, p)
      && SaysHop([], headers, web.writable, p, SiteText(c.site), initial, context, acceptCh, RefererOf(web, c))
  {
    hide Lookup, Inject, OwnHeaders, SaysContext, MetadataOf, SiteText, RefererOf, Says, NowSensitive;
    var own := OwnHeaders(web, c, u, cookie);
    OwnHeadersElsewhere(web, c, u, cookie);
    InjectedHeaders(own, web.writable, p, SiteText(c.site), initial, context, acceptCh, RefererOf(web, c));
    NothingThere();
  }

  lemma NothingThere()
    ensures forall n :: Lookup([], n) == []
  {
  }

  lemma OwnOrder(web: Web, c: Call, u: Url, cookie: Option<string>)
    ensures Names(OwnHeaders(web, c, u, cookie))
         == (if cookie.Some? && web.writable(cookie.value) then [Cookie] else [])
            + if (c.verb == "POST" || c.verb == "PUT" || c.verb == "PATCH") && web.writable(OriginText(u))
              then [HeaderName.Origin] else []
  {
    hide Put;
    assert Names([]) == [];
    var first := PutOpt([], Cookie, if cookie.Some? then Checked(web.writable, cookie.value) else None);
    if cookie.Some? {
      PutOrder([], Cookie, HeaderValue(cookie.value, false));
    }
    PutOrder(first, HeaderName.Origin, HeaderValue(OriginText(u), false));
  }

  /** The order of a request's fields: cookie and origin, if it has them, and then the browser's own. */
  lemma RequestOrder(w: World, c: Call, u: Url, cookie: Option<string>, acceptCh: bool, initial: bool)
    ensures Names(BuildRequest(w, c, u, cookie, acceptCh, initial).headers)
         == (if cookie.Some? && w.web.writable(cookie.value) then [Cookie] else [])
            + (if (c.verb == "POST" || c.verb == "PUT" || c.verb == "PATCH") && w.web.writable(OriginText(u))
               then [HeaderName.Origin] else [])
            + Missing([], InputsFor(w, c, acceptCh, initial), [
                SecChUa, SecChUaMobile, SecChUaPlatform, SecChUaPlatformVersion, UpgradeInsecureRequests, UserAgent,
                SecFetchSite, Accept, SecFetchMode, SecFetchUser, SecFetchDest, Referer, AcceptEncoding, AcceptLanguage,
                Priority])
  {
    hide Inject, OwnHeaders, Missing, InputsFor;
    var x := InputsFor(w, c, acceptCh, initial);
    OwnOrder(w.web, c, u, cookie);
    InjectedOrder(OwnHeaders(w.web, c, u, cookie), x);
    MissingApart(OwnHeaders(w.web, c, u, cookie), x, [
      SecChUa, SecChUaMobile, SecChUaPlatform, SecChUaPlatformVersion, UpgradeInsecureRequests, UserAgent,
      SecFetchSite, Accept, SecFetchMode, SecFetchUser, SecFetchDest, Referer, AcceptEncoding, AcceptLanguage,
      Priority]);
  }

  /** A call as `get` or `post` starts it. */
  predicate ByEntryPoint(start: Call) {
    (start.verb == "GET" && start.body.None?) || (start.verb == "POST" && start.body.Some?)
  }

  /**
   Every hop of a call made through `get` or `post`, which navigate: a body goes with the
   request exactly when its method is POST, which is exactly when an origin header does, if
   the origin's text can be a header value at all; and the user-activation header goes with
   the first hop and no other.
   */
  lemma EntryPointLaw(web: Web, profile: HeaderProfile, start: Call, hops: seq<Hop>, n: nat)
    requires Chain(web, start, hops) && n < |hops| && ByEntryPoint(start)
    ensures hops[n].call.body.Some? <==> hops[n].call.verb == "POST"
    ensures var headers := RequestOf(WorldFor(web, profile, Navigate), hops[n], n).headers;
      && (Lookup(headers, HeaderName.Origin) != []
          <==> hops[n].call.body.Some? && web.writable(OriginText(hops[n].url)))
      && (Lookup(headers, SecFetchUser) != [] <==> n == 0)
  {
    hide BuildRequest, Lookup, MetadataOf, RefererOf, SiteText, Leads, Links;
    var h := hops[n];
    ChainLeads(web, start, hops, n);
    MethodAndBodyAt(web, start, hops[..n], h.call);
    RequestHeaders(WorldFor(web, profile, Navigate), h.call, h.url, h.cookie, h.acceptCh, n == 0);
    assert "GET"[0] == 'G' && "POST"[0] == 'P' && "PUT"[0] == 'P' && "PATCH"[0] == 'P';
  }
}
