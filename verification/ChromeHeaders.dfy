/**
 The header injection of src/client/request.rs: client hints, fetch metadata,
 content negotiation and the never-indexed markers.
 */
module ChromeHeaders {
  import opened Wrappers
  import opened HeaderMaps

  datatype RequestContext =
    | Navigate | Xhr | Form | Iframe
    | NoCorsScript | NoCorsStyle | NoCorsImage | NoCorsFont | NoCorsMedia
    | Worker | ServiceWorker | Prefetch

  datatype HeaderProfile = HeaderProfile(
    userAgent: string,
    secChUa: string,
    secChUaPlatform: string,
    secChUaPlatformVersion: string,
    includePriority: bool,
    zstd: bool,
    acceptLanguage: string)

  const DOCUMENT_TYPES := "text/html,application/xhtml+xml,application/xml;q=0.9,image/avif,image/webp,image/apng,*/*;q=0.8,application/signed-exchange;v=b3;q=0.7"
  const IMAGE_TYPES := "image/avif,image/webp,image/apng,image/svg+xml,image/*,*/*;q=0.8"

  datatype Metadata = Metadata(mode: string, dest: string, accept: string)

  function MetadataOf(context: RequestContext): Metadata {
    match context
    case Navigate => Metadata("navigate", "document", DOCUMENT_TYPES)
    case Form => Metadata("navigate", "document", DOCUMENT_TYPES)
    case Iframe => Metadata("navigate", "iframe", DOCUMENT_TYPES)
    case Xhr => Metadata("cors", "empty", "*/*")
    case NoCorsScript => Metadata("no-cors", "script", "*/*")
    case NoCorsStyle => Metadata("no-cors", "style", "text/css,*/*;q=0.1")
    case NoCorsImage => Metadata("no-cors", "image", IMAGE_TYPES)
    case NoCorsFont => Metadata("no-cors", "font", "*/*")
    case NoCorsMedia => Metadata("no-cors", "video", "*/*")
    case Worker => Metadata("same-origin", "worker", "*/*")
    case ServiceWorker => Metadata("same-origin", "serviceworker", "*/*")
    case Prefetch => Metadata("no-cors", "empty", "*/*")
  }

  predicate UserActivated(context: RequestContext) {
    context == Navigate || context == Form || context == Iframe
  }

  /**
   Everything the injection reads besides the map itself; `writable` is the library's test
   of the texts that can become header values.
   */
  datatype Inputs = Inputs(
    writable: string -> bool,
    profile: HeaderProfile,
    site: string,
    meta: Metadata,
    userActivated: bool,
    acceptCh: bool,
    referer: Option<string>)

  function InputsOf(writable: string -> bool, profile: HeaderProfile, site: string, initial: bool,
                    context: RequestContext, acceptCh: bool, referer: Option<string>): Inputs
  {
    Inputs(writable, profile, site, MetadataOf(context), initial && UserActivated(context), acceptCh, referer)
  }

  function When(b: bool, s: string): Option<string> {
    if b then Some(s) else None
  }

  function EncodingsOf(p: HeaderProfile): string {
    if p.zstd then "gzip, deflate, br, zstd" else "gzip, deflate, br"
  }

  /**
   What a name must hold after the injection, as a table that knows nothing of the
   order of the insertions: nothing means the injection does not own the name.
   */
  function Owned(x: Inputs, n: HeaderName): Option<string> {
    match n
    case SecChUa => Checked(x.writable, x.profile.secChUa)
    case SecChUaMobile => Some("?0")
    case SecChUaPlatform => Checked(x.writable, x.profile.secChUaPlatform)
    case SecChUaPlatformVersion => if x.acceptCh then Checked(x.writable, x.profile.secChUaPlatformVersion) else None
    case UpgradeInsecureRequests => Some("1")
    case UserAgent => Checked(x.writable, x.profile.userAgent)
    case SecFetchSite => Checked(x.writable, x.site)
    case Accept => Some(x.meta.accept)
    case SecFetchMode => Some(x.meta.mode)
    case SecFetchUser => When(x.userActivated, "?1")
    case SecFetchDest => Some(x.meta.dest)
    case Referer => if x.referer.Some? then Checked(x.writable, x.referer.value) else None
    case AcceptEncoding => Some(EncodingsOf(x.profile))
    case AcceptLanguage => Checked(x.writable, x.profile.acceptLanguage)
    case Priority => When(x.profile.includePriority, "u=0, i")
    case _ => None
  }

  /** The names the client inserts, section by section, in its order. */
  const HINTS := [SecChUa, SecChUaMobile, SecChUaPlatform, SecChUaPlatformVersion]
  const NAVIGATION := [UpgradeInsecureRequests, UserAgent, SecFetchSite, Accept]
  const METADATA := [SecFetchMode, SecFetchUser, SecFetchDest, Referer]
  const NEGOTIATION := [AcceptEncoding, AcceptLanguage, Priority]

  /** Insertion of the entry of one name, if it has one. */
  function InsertOwned(fs: seq<Field>, x: Inputs, n: HeaderName): seq<Field> {
    PutOpt(fs, n, Owned(x, n))
  }

  /** Insertion of the entries of `names`, first to last. */
  function InsertEach(fs: seq<Field>, x: Inputs, names: seq<HeaderName>): seq<Field> {
    if names == [] then fs
    else
      var last := |names| - 1;
      InsertOwned(InsertEach(fs, x, names[..last]), x, names[last])
  }

  function Inserted(fs: seq<Field>, x: Inputs): seq<Field> {
    InsertEach(InsertEach(InsertEach(InsertEach(fs, x, HINTS), x, NAVIGATION), x, METADATA), x, NEGOTIATION)
  }

  function Inject(fs: seq<Field>, x: Inputs): seq<Field> {
    MarkSensitive(Inserted(fs, x))
  }

  lemma {:induction false} LookupEach(fs: seq<Field>, x: Inputs, names: seq<HeaderName>, n: HeaderName)
    ensures Lookup(InsertEach(fs, x, names), n)
         == if n in names && Owned(x, n).Some? then [HeaderValue(Owned(x, n).value, false)] else Lookup(fs, n)
  {
    if names != [] {
      var last := |names| - 1;
      var front := names[..last];
      LookupEach(fs, x, front, n);
      LookupPutOpt(InsertEach(fs, x, front), names[last], Owned(x, names[last]), n);
      assert names == front + [names[last]];
    }
  }

  lemma OwnedIsInserted(x: Inputs, n: HeaderName)
    requires Owned(x, n).Some?
    ensures n in HINTS || n in NAVIGATION || n in METADATA || n in NEGOTIATION
  {
    match n
    case SecChUa => assert HINTS[0] == n;
    case SecChUaMobile => assert HINTS[1] == n;
    case SecChUaPlatform => assert HINTS[2] == n;
    case SecChUaPlatformVersion => assert HINTS[3] == n;
    case UpgradeInsecureRequests => assert NAVIGATION[0] == n;
    case UserAgent => assert NAVIGATION[1] == n;
    case SecFetchSite => assert NAVIGATION[2] == n;
    case Accept => assert NAVIGATION[3] == n;
    case SecFetchMode => assert METADATA[0] == n;
    case SecFetchUser => assert METADATA[1] == n;
    case SecFetchDest => assert METADATA[2] == n;
    case Referer => assert METADATA[3] == n;
    case AcceptEncoding => assert NEGOTIATION[0] == n;
    case AcceptLanguage => assert NEGOTIATION[1] == n;
    case Priority => assert NEGOTIATION[2] == n;
  }

  /**
   The frame of the injection: an owned name holds exactly its table entry, any
   other name keeps its values, and cookie and authorization values come out sensitive.
   */
  lemma InjectTable(fs: seq<Field>, x: Inputs, n: HeaderName)
    ensures Lookup(Inject(fs, x), n)
         == if Owned(x, n).Some? then [HeaderValue(Owned(x, n).value, false)]
            else if NeverIndexed(n) then Hide(Lookup(fs, n))
            else Lookup(fs, n)
  {
    if Owned(x, n).Some? {
      OwnedIsInserted(x, n);
    }
    var a := InsertEach(fs, x, HINTS);
    var b := InsertEach(a, x, NAVIGATION);
    var c := InsertEach(b, x, METADATA);
    LookupEach(fs, x, HINTS, n);
    LookupEach(a, x, NAVIGATION, n);
    LookupEach(b, x, METADATA, n);
    LookupEach(c, x, NEGOTIATION, n);
    LookupMarked(Inserted(fs, x), n);
  }

  // ----- what an injected map says -----

  /** The name holds exactly one value, which is this text and is not sensitive. */
  predicate Says(fs: seq<Field>, n: HeaderName, text: string) {
    Lookup(fs, n) == [HeaderValue(text, false)]
  }

  /** The name holds the text if it can be a header value, and what it held before otherwise. */
  predicate SaysIf(before: seq<Field>, fs: seq<Field>, n: HeaderName, writable: string -> bool, text: string) {
    if writable(text) then Says(fs, n, text) else Lookup(fs, n) == Lookup(before, n)
  }

  /** Which fetch mode goes with which contexts. */
  predicate SaysMode(fs: seq<Field>, context: RequestContext) {
    && (Says(fs, SecFetchMode, "navigate") <==> context in {Navigate, Form, Iframe})
    && (Says(fs, SecFetchMode, "cors") <==> context == Xhr)
    && (Says(fs, SecFetchMode, "same-origin") <==> context in {Worker, ServiceWorker})
    && (Says(fs, SecFetchMode, "no-cors")
        <==> context in {NoCorsScript, NoCorsStyle, NoCorsImage, NoCorsFont, NoCorsMedia, Prefetch})
  }

  /** Which destination goes with which contexts. */
  predicate SaysDest(fs: seq<Field>, context: RequestContext) {
    && (Says(fs, SecFetchDest, "document") <==> context in {Navigate, Form})
    && (Says(fs, SecFetchDest, "iframe") <==> context == Iframe)
    && (Says(fs, SecFetchDest, "empty") <==> context in {Xhr, Prefetch})
    && (Says(fs, SecFetchDest, "script") <==> context == NoCorsScript)
    && (Says(fs, SecFetchDest, "style") <==> context == NoCorsStyle)
    && (Says(fs, SecFetchDest, "image") <==> context == NoCorsImage)
    && (Says(fs, SecFetchDest, "font") <==> context == NoCorsFont)
    && (Says(fs, SecFetchDest, "video") <==> context == NoCorsMedia)
    && (Says(fs, SecFetchDest, "worker") <==> context == Worker)
    && (Says(fs, SecFetchDest, "serviceworker") <==> context == ServiceWorker)
  }

  /** Which accepted types go with which contexts. */
  predicate SaysAccept(fs: seq<Field>, context: RequestContext) {
    && (Says(fs, Accept, "text/html,application/xhtml+xml,application/xml;q=0.9,image/avif,image/webp,image/apng,*/*;q=0.8,application/signed-exchange;v=b3;q=0.7")
        <==> context in {Navigate, Form, Iframe})
    && (Says(fs, Accept, "text/css,*/*;q=0.1") <==> context == NoCorsStyle)
    && (Says(fs, Accept, "image/avif,image/webp,image/apng,image/svg+xml,image/*,*/*;q=0.8")
        <==> context == NoCorsImage)
    && (Says(fs, Accept, "*/*") <==> context !in {Navigate, Form, Iframe, NoCorsStyle, NoCorsImage})
  }

  predicate SaysContext(fs: seq<Field>, context: RequestContext) {
    SaysMode(fs, context) && SaysDest(fs, context) && SaysAccept(fs, context)
  }

  lemma ModeTold(fs: seq<Field>, context: RequestContext)
    requires Says(fs, SecFetchMode, MetadataOf(context).mode)
    ensures SaysMode(fs, context)
  {
    hide Lookup;
    assert |"navigate"| == 8 && |"cors"| == 4 && |"same-origin"| == 11 && |"no-cors"| == 7;
  }

  lemma DestTold(fs: seq<Field>, context: RequestContext)
    requires Says(fs, SecFetchDest, MetadataOf(context).dest)
    ensures SaysDest(fs, context)
  {
    hide Lookup;
    assert |"document"| == 8 && |"font"| == 4 && |"serviceworker"| == 13;
    assert "iframe"[0] == 'i' && "script"[0] == 's' && "worker"[0] == 'w' && |"script"| == 6;
    assert "empty"[0] == 'e' && "style"[0] == 's' && "image"[0] == 'i' && "video"[0] == 'v' && |"style"| == 5;
  }

  lemma AcceptTold(fs: seq<Field>, context: RequestContext)
    requires Says(fs, Accept, MetadataOf(context).accept)
    ensures SaysAccept(fs, context)
  {
    hide Lookup;
    assert |DOCUMENT_TYPES| == 135 && |"text/css,*/*;q=0.1"| == 18 && |IMAGE_TYPES| == 64 && |"*/*"| == 3;
  }

  /** The headers that identify the browser, whatever the request. */
  predicate SaysProfile(before: seq<Field>, fs: seq<Field>, writable: string -> bool, p: HeaderProfile) {
    && SaysIf(before, fs, UserAgent, writable, p.userAgent)
    && SaysIf(before, fs, SecChUa, writable, p.secChUa)
    && Says(fs, SecChUaMobile, "?0")
    && SaysIf(before, fs, SecChUaPlatform, writable, p.secChUaPlatform)
    && Says(fs, UpgradeInsecureRequests, "1")
    && Says(fs, AcceptEncoding, if p.zstd then "gzip, deflate, br, zstd" else "gzip, deflate, br")
    && SaysIf(before, fs, AcceptLanguage, writable, p.acceptLanguage)
    && (if p.includePriority then Says(fs, Priority, "u=0, i") else Lookup(fs, Priority) == Lookup(before, Priority))
  }

  /** The headers that depend on the hop. */
  predicate SaysHop(before: seq<Field>, fs: seq<Field>, writable: string -> bool, p: HeaderProfile, site: string,
                    initial: bool, context: RequestContext, acceptCh: bool, referer: Option<string>)
  {
    && SaysIf(before, fs, SecFetchSite, writable, site)
    && (if initial && (context.Navigate? || context.Form? || context.Iframe?) then Says(fs, SecFetchUser, "?1")
        else Lookup(fs, SecFetchUser) == Lookup(before, SecFetchUser))
    && (if acceptCh then SaysIf(before, fs, SecChUaPlatformVersion, writable, p.secChUaPlatformVersion)
        else Lookup(fs, SecChUaPlatformVersion) == Lookup(before, SecChUaPlatformVersion))
    && (if referer.Some? then SaysIf(before, fs, Referer, writable, referer.value)
        else Lookup(fs, Referer) == Lookup(before, Referer))
  }

  /** The values of a name are the ones before, each now sensitive. */
  predicate NowSensitive(before: seq<Field>, fs: seq<Field>, n: HeaderName) {
    && |Lookup(fs, n)| == |Lookup(before, n)|
    && forall i :: 0 <= i < |Lookup(fs, n)| ==> Lookup(fs, n)[i] == HeaderValue(Lookup(before, n)[i].text, true)
  }

  /** After the injection the table holds of every name. */
  ghost predicate Tabled(fs: seq<Field>, after: seq<Field>, x: Inputs) {
    forall n :: Lookup(after, n) == if Owned(x, n).Some? then [HeaderValue(Owned(x, n).value, false)]
                                    else if NeverIndexed(n) then Hide(Lookup(fs, n))
                                    else Lookup(fs, n)
  }

  lemma InjectIsTabled(fs: seq<Field>, x: Inputs)
    ensures Tabled(fs, Inject(fs, x), x)
  {
    hide Lookup, Inject, Owned, Hide;
    forall n {
      InjectTable(fs, x, n);
    }
  }

  lemma ProfileTold(fs: seq<Field>, after: seq<Field>, x: Inputs)
    requires Tabled(fs, after, x)
    ensures SaysProfile(fs, after, x.writable, x.profile)
  {
    hide Lookup, Hide;
  }

  lemma HopTold(fs: seq<Field>, after: seq<Field>, x: Inputs, initial: bool, context: RequestContext)
    requires Tabled(fs, after, x) && x.meta == MetadataOf(context)
    requires x.userActivated == (initial && UserActivated(context))
    ensures SaysHop(fs, after, x.writable, x.profile, x.site, initial, context, x.acceptCh, x.referer)
  {
    hide Lookup, Hide, MetadataOf;
  }

  lemma RestTold(fs: seq<Field>, after: seq<Field>, x: Inputs)
    requires Tabled(fs, after, x)
    ensures NowSensitive(fs, after, Cookie) && NowSensitive(fs, after, Authorization)
    ensures forall n: HeaderName :: n.Origin? || n.Location? || n.SetCookie? || n.AcceptCh? || n.AltSvc? || n.Other?
              ==> Lookup(after, n) == Lookup(fs, n)
  {
    hide Lookup;
  }

  lemma ContextTold(fs: seq<Field>, after: seq<Field>, x: Inputs, context: RequestContext)
    requires Tabled(fs, after, x) && x.meta == MetadataOf(context)
    ensures SaysContext(after, context)
  {
    hide Lookup, Hide, MetadataOf, SaysMode, SaysDest, SaysAccept;
    ModeTold(after, context);
    DestTold(after, context);
    AcceptTold(after, context);
  }

  /**
   The injection header by header, for every context: each header by its literal text or by
   the field of the profile it comes from, cookie and authorization marked, the rest untouched.
   */
  lemma InjectedHeaders(fs: seq<Field>, writable: string -> bool, p: HeaderProfile, site: string, initial: bool,
                        context: RequestContext, acceptCh: bool, referer: Option<string>)
    ensures var after := Inject(fs, InputsOf(writable, p, site, initial, context, acceptCh, referer));
      && SaysContext(after, context)
      && SaysProfile(fs, after, writable, p)
      && SaysHop(fs, after, writable, p, site, initial, context, acceptCh, referer)
      && NowSensitive(fs, after, Cookie) && NowSensitive(fs, after, Authorization)
      && forall n: HeaderName :: n.Origin? || n.Location? || n.SetCookie? || n.AcceptCh? || n.AltSvc? || n.Other?
           ==> Lookup(after, n) == Lookup(fs, n)
  {
    hide Inject, Lookup, SaysContext, SaysProfile, SaysHop, NowSensitive, MetadataOf, Tabled;
    var x := InputsOf(writable, p, site, initial, context, acceptCh, referer);
    var after := Inject(fs, x);
    InjectIsTabled(fs, x);
    ContextTold(fs, after, x, context);
    ProfileTold(fs, after, x);
    HopTold(fs, after, x, initial, context);
    RestTold(fs, after, x);
  }

  // ----- the order of the fields -----

  function Names(fs: seq<Field>): seq<HeaderName> {
    seq(|fs|, i requires 0 <= i < |fs| => fs[i].name)
  }

  /** The names among `names` that the injection inserts and that are not there yet, in that order. */
  function Missing(fs: seq<Field>, x: Inputs, names: seq<HeaderName>): seq<HeaderName> {
    if names == [] then []
    else
      var last := |names| - 1;
      var n := names[last];
      Missing(fs, x, names[..last]) + if Owned(x, n).Some? && n !in Names(fs) then [n] else []
  }

  predicate Distinct(names: seq<HeaderName>) {
    forall i, j :: 0 <= i < j < |names| ==> names[i] != names[j]
  }

  lemma {:induction false} PutOrder(fs: seq<Field>, n: HeaderName, v: HeaderValue)
    ensures Names(Put(fs, n, v)) == Names(fs) + if n in Names(fs) then [] else [n]
  {
    if fs != [] {
      assert Names(fs) == [fs[0].name] + Names(fs[1..]);
      if fs[0].name == n {
        assert Names(Put(fs, n, v)) == [n] + Names(fs[1..]);
      } else {
        PutOrder(fs[1..], n, v);
        assert Names(Put(fs, n, v)) == [fs[0].name] + Names(Put(fs[1..], n, v));
      }
    }
  }

  lemma {:induction false} MissingIsNew(fs: seq<Field>, x: Inputs, names: seq<HeaderName>, n: HeaderName)
    requires n in Missing(fs, x, names)
    ensures n in names
  {
    var last := |names| - 1;
    if n in Missing(fs, x, names[..last]) {
      MissingIsNew(fs, x, names[..last], n);
    }
  }

  lemma {:induction false} EachOrder(fs: seq<Field>, x: Inputs, names: seq<HeaderName>)
    requires Distinct(names)
    ensures Names(InsertEach(fs, x, names)) == Names(fs) + Missing(fs, x, names)
  {
    hide Owned;
    if names == [] {
      assert Names(fs) + [] == Names(fs);
    } else {
      var last := |names| - 1;
      var n, front := names[last], names[..last];
      var before := InsertEach(fs, x, front);
      EachOrder(fs, x, front);
      if n in Missing(fs, x, front) {
        MissingIsNew(fs, x, front, n);
        assert false;
      }
      if Owned(x, n).Some? {
        PutOrder(before, n, HeaderValue(Owned(x, n).value, false));
      }
    }
  }

  /** Names that the injection does not insert make no difference to what is missing. */
  lemma {:induction false} MissingApart(fs: seq<Field>, x: Inputs, names: seq<HeaderName>)
    requires forall n :: n in names ==> n !in Names(fs)
    ensures Missing(fs, x, names) == Missing([], x, names)
  {
    hide Owned;
    if names != [] {
      MissingApart(fs, x, names[..|names| - 1]);
    }
  }

  lemma EachJoin(fs: seq<Field>, x: Inputs, a: seq<HeaderName>, b: seq<HeaderName>)
    ensures InsertEach(InsertEach(fs, x, a), x, b) == InsertEach(fs, x, a + b)
  {
    hide InsertOwned;
    if b == [] {
      assert a + b == a;
    } else {
      var last := |b| - 1;
      assert (a + b)[..|a + b| - 1] == a + b[..last];
      EachJoin(fs, x, a, b[..last]);
    }
  }

  /**
   The order on the wire: what was there keeps its place, and the names inserted anew follow
   in the order in which the browser sends them.
   */
  lemma InjectedOrder(fs: seq<Field>, x: Inputs)
    ensures Names(Inject(fs, x)) == Names(fs) + Missing(fs, x, [
      SecChUa, SecChUaMobile, SecChUaPlatform, SecChUaPlatformVersion, UpgradeInsecureRequests, UserAgent, SecFetchSite,
      Accept, SecFetchMode, SecFetchUser, SecFetchDest, Referer, AcceptEncoding, AcceptLanguage, Priority])
  {
    hide InsertEach, Missing, Owned;
    var order := [
      SecChUa, SecChUaMobile, SecChUaPlatform, SecChUaPlatformVersion, UpgradeInsecureRequests, UserAgent, SecFetchSite,
      Accept, SecFetchMode, SecFetchUser, SecFetchDest, Referer, AcceptEncoding, AcceptLanguage, Priority];
    assert HINTS + NAVIGATION + METADATA + NEGOTIATION == order;
    EachJoin(fs, x, HINTS, NAVIGATION);
    EachJoin(fs, x, HINTS + NAVIGATION, METADATA);
    EachJoin(fs, x, HINTS + NAVIGATION + METADATA, NEGOTIATION);
    EachOrder(fs, x, order);
    assert Names(MarkSensitive(Inserted(fs, x))) == Names(Inserted(fs, x));
  }

  /** Entries that already stand are inserted without effect. */
  lemma {:induction false} EachStable(fs: seq<Field>, x: Inputs, names: seq<HeaderName>)
    requires forall n :: Owned(x, n).Some? ==> Lookup(fs, n) == [HeaderValue(Owned(x, n).value, false)]
    ensures InsertEach(fs, x, names) == fs
  {
    if names != [] {
      var last := |names| - 1;
      EachStable(fs, x, names[..last]);
      var n := names[last];
      if Owned(x, n).Some? {
        PutSame(fs, n, HeaderValue(Owned(x, n).value, false));
      }
    }
  }

  /** Injecting twice is injecting once: same names, same order, same values, same flags. */
  lemma InjectIdempotent(fs: seq<Field>, x: Inputs)
    ensures Inject(Inject(fs, x), x) == Inject(fs, x)
  {
    var once := Inject(fs, x);
    forall n | Owned(x, n).Some?
      ensures Lookup(once, n) == [HeaderValue(Owned(x, n).value, false)]
    {
      InjectTable(fs, x, n);
    }
    EachStable(once, x, HINTS);
    EachStable(once, x, NAVIGATION);
    EachStable(once, x, METADATA);
    EachStable(once, x, NEGOTIATION);
    MarkTwice(Inserted(fs, x));
  }

  /** One more name is one more insertion. */
  lemma InsertLast(fs: seq<Field>, x: Inputs, names: seq<HeaderName>, n: HeaderName)
    ensures InsertEach(fs, x, names + [n]) == InsertOwned(InsertEach(fs, x, names), x, n)
  {
    hide InsertOwned;
    assert (names + [n])[..|names|] == names;
  }

  /** A section of three names, insertion by insertion. */
  lemma InsertThree(fs: seq<Field>, x: Inputs, a: HeaderName, b: HeaderName, c: HeaderName)
    ensures InsertEach(fs, x, [a, b, c]) == InsertOwned(InsertOwned(InsertOwned(fs, x, a), x, b), x, c)
  {
    hide InsertOwned, InsertEach;
    InsertNone(fs, x);
    InsertLast(fs, x, [], a);
    InsertLast(fs, x, [a], b);
    InsertLast(fs, x, [a, b], c);
    assert [] + [a] == [a] && [a] + [b] == [a, b] && [a, b] + [c] == [a, b, c];
  }

  lemma InsertNone(fs: seq<Field>, x: Inputs)
    ensures InsertEach(fs, x, []) == fs
  {
  }

  /** A section of four. */
  lemma InsertFour(fs: seq<Field>, x: Inputs, a: HeaderName, b: HeaderName, c: HeaderName, d: HeaderName)
    ensures InsertEach(fs, x, [a, b, c, d])
         == InsertOwned(InsertOwned(InsertOwned(InsertOwned(fs, x, a), x, b), x, c), x, d)
  {
    hide InsertOwned, InsertEach;
    InsertThree(fs, x, a, b, c);
    InsertLast(fs, x, [a, b, c], d);
    assert [a, b, c] + [d] == [a, b, c, d];
  }

  method InsertHints(headers: HeaderMap, ghost x: Inputs, writable: string -> bool, p: HeaderProfile, acceptCh: bool)
    requires x.writable == writable && x.profile == p && x.acceptCh == acceptCh
    modifies headers
    ensures headers.fields == InsertEach(old(headers.fields), x, HINTS)
  {
    hide Put, InsertEach, Checked;
    InsertFour(headers.fields, x, SecChUa, SecChUaMobile, SecChUaPlatform, SecChUaPlatformVersion);
    headers.InsertText(SecChUa, p.secChUa, writable);
    headers.Insert(SecChUaMobile, HeaderValue("?0", false));
    headers.InsertText(SecChUaPlatform, p.secChUaPlatform, writable);
    if acceptCh {
      headers.InsertText(SecChUaPlatformVersion, p.secChUaPlatformVersion, writable);
    }
  }

  method InsertNavigation(headers: HeaderMap, ghost x: Inputs, writable: string -> bool, p: HeaderProfile,
                          site: string, accept: string)
    requires x.writable == writable && x.profile == p && x.site == site && x.meta.accept == accept
    modifies headers
    ensures headers.fields == InsertEach(old(headers.fields), x, NAVIGATION)
  {
    hide Put, InsertEach, Checked;
    InsertFour(headers.fields, x, UpgradeInsecureRequests, UserAgent, SecFetchSite, Accept);
    headers.Insert(UpgradeInsecureRequests, HeaderValue("1", false));
    headers.InsertText(UserAgent, p.userAgent, writable);
    headers.InsertText(SecFetchSite, site, writable);
    headers.Insert(Accept, HeaderValue(accept, false));
  }

  method InsertMetadata(headers: HeaderMap, ghost x: Inputs, writable: string -> bool, userActivated: bool,
                        mode: string, dest: string, referer: Option<string>)
    requires x.writable == writable && x.userActivated == userActivated && x.meta.mode == mode && x.meta.dest == dest
    requires x.referer == referer
    modifies headers
    ensures headers.fields == InsertEach(old(headers.fields), x, METADATA)
  {
    hide Put, InsertEach, Checked;
    InsertFour(headers.fields, x, SecFetchMode, SecFetchUser, SecFetchDest, Referer);
    headers.Insert(SecFetchMode, HeaderValue(mode, false));
    if userActivated {
      headers.Insert(SecFetchUser, HeaderValue("?1", false));
    }
    headers.Insert(SecFetchDest, HeaderValue(dest, false));
    if referer.Some? {
      headers.InsertText(Referer, referer.value, writable);
    }
  }

  method InsertNegotiation(headers: HeaderMap, ghost x: Inputs, writable: string -> bool, p: HeaderProfile)
    requires x.writable == writable && x.profile == p
    modifies headers
    ensures headers.fields == InsertEach(old(headers.fields), x, NEGOTIATION)
  {
    hide Put, InsertEach, Checked, EncodingsOf;
    InsertThree(headers.fields, x, AcceptEncoding, AcceptLanguage, Priority);
    headers.Insert(AcceptEncoding, HeaderValue(EncodingsOf(p), false));
    headers.InsertText(AcceptLanguage, p.acceptLanguage, writable);
    if p.includePriority {
      headers.Insert(Priority, HeaderValue("u=0, i", false));
    }
  }

  /** The loop that closes the injection. */
  method MarkNeverIndexed(headers: HeaderMap)
    modifies headers
    ensures headers.fields == MarkSensitive(old(headers.fields))
  {
    ghost var before := headers.fields;
    var at := 0;
    while at < |headers.fields|
      invariant 0 <= at <= |headers.fields| == |before|
      invariant forall i :: 0 <= i < at ==> headers.fields[i] == MarkSensitive(before)[i]
      invariant forall i :: at <= i < |before| ==> headers.fields[i] == before[i]
    {
      var f := headers.fields[at];
      if f.name == Cookie || f.name == Authorization {
        headers.fields := headers.fields[at := f.(values := Hide(f.values))];
      }
      at := at + 1;
    }
  }

  /** The injection once the context has been mapped to its metadata. */
  method InjectInto(headers: HeaderMap, writable: string -> bool, profile: HeaderProfile, site: string,
                    userActivated: bool, m: Metadata, acceptCh: bool, referer: Option<string>)
    modifies headers
    ensures headers.fields
         == Inject(old(headers.fields), Inputs(writable, profile, site, m, userActivated, acceptCh, referer))
  {
    ghost var x := Inputs(writable, profile, site, m, userActivated, acceptCh, referer);
    InsertHints(headers, x, writable, profile, acceptCh);
    InsertNavigation(headers, x, writable, profile, site, m.accept);
    InsertMetadata(headers, x, writable, userActivated, m.mode, m.dest, referer);
    InsertNegotiation(headers, x, writable, profile);
    MarkNeverIndexed(headers);
  }

  method InjectChromeHeaders(headers: HeaderMap, writable: string -> bool, profile: HeaderProfile, site: string,
                             initial: bool, context: RequestContext, acceptCh: bool, referer: Option<string>)
    modifies headers
    ensures headers.fields
         == Inject(old(headers.fields), InputsOf(writable, profile, site, initial, context, acceptCh, referer))
    ensures SaysContext(headers.fields, context)
    ensures SaysProfile(old(headers.fields), headers.fields, writable, profile)
    ensures SaysHop(old(headers.fields), headers.fields, writable, profile, site, initial, context, acceptCh, referer)
    ensures NowSensitive(old(headers.fields), headers.fields, Cookie)
    ensures NowSensitive(old(headers.fields), headers.fields, Authorization)
  {
    hide Inject, SaysContext, SaysProfile, SaysHop, NowSensitive;
    InjectedHeaders(headers.fields, writable, profile, site, initial, context, acceptCh, referer);
    var userActivated := initial && (context == Navigate || context == Form || context == Iframe);
    InjectInto(headers, writable, profile, site, userActivated, MetadataOf(context), acceptCh, referer);
  }
}
