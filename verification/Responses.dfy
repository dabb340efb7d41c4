/** What src/client/pool.rs reads out of a response to keep for later requests. */
module Responses {
  import opened Wrappers
  import opened HeaderMaps
  import opened Redirects

  function CookieTexts(web: Web, vs: seq<HeaderValue>, u: Url): seq<SetCookieText> {
    if vs == [] then []
    else
      (if ReadText(web, vs[0]).Some? then [SetCookieText(vs[0].text, u)] else []) + CookieTexts(web, vs[1..], u)
  }

  function NewCookies(web: Web, resp: Response, u: Url): seq<SetCookieText> {
    CookieTexts(web, Lookup(resp.headers, SetCookie), u)
  }

  predicate OccursAt<T(==)>(text: seq<T>, needle: seq<T>, i: nat) {
    i + |needle| <= |text| && text[i..i + |needle|] == needle
  }

  /** `needle` occurs somewhere in `text`. */
  predicate Contains<T(==)>(text: seq<T>, needle: seq<T>) {
    exists i: nat :: i <= |text| && OccursAt(text, needle, i)
  }

  function Lower(s: string): string {
    seq(|s|, i requires 0 <= i < |s| => if 'A' <= s[i] <= 'Z' then s[i] + ('a' - 'A') else s[i])
  }

  /** The response asks for the platform version; only its first accept-ch header counts. */
  predicate AsksForVersion(web: Web, resp: Response) {
    var v := FirstText(web, resp.headers, AcceptCh);
    v.Some? && Contains(Lower(v.value), "sec-ch-ua-platform-version")
  }

  /** The response advertises h3; only its first alt-svc header counts. */
  predicate AdvertisesH3(web: Web, resp: Response) {
    var v := FirstText(web, resp.headers, AltSvc);
    v.Some? && Contains(v.value, "h3")
  }

  // ----- what these readings mean, character by character -----

  /** The first character is the second one, or the capital of it. */
  predicate SameLetter(c: char, small: char) {
    c == small || ('A' <= c <= 'Z' && c as int + 32 == small as int)
  }

  /** From position i on the text reads `small`, in capitals or not. */
  predicate ReadsAs(text: string, i: nat, small: string) {
    i + |small| <= |text| && forall j :: 0 <= j < |small| ==> SameLetter(text[i + j], small[j])
  }

  /** The text of the first value of the header, if there is one and it can be read. */
  predicate FirstIs(web: Web, resp: Response, n: HeaderName, text: string) {
    var values := Lookup(resp.headers, n);
    values != [] && web.readable(values[0].text) && values[0].text == text
  }

  /** The first accept-ch header names the platform-version hint, in capitals or not. */
  ghost predicate NamesVersionHint(web: Web, resp: Response) {
    exists text, i: nat :: FirstIs(web, resp, AcceptCh, text) && ReadsAs(text, i, "sec-ch-ua-platform-version")
  }

  predicate H3At(text: string, i: nat) {
    i + 1 < |text| && text[i] == 'h' && text[i + 1] == '3'
  }

  /** In the first alt-svc header an 'h' is directly followed by a '3'. */
  ghost predicate NamesH3(web: Web, resp: Response) {
    exists text, i: nat :: FirstIs(web, resp, AltSvc, text) && H3At(text, i)
  }

  predicate IsSmall(s: string) {
    forall i :: 0 <= i < |s| ==> !('A' <= s[i] <= 'Z')
  }

  lemma SmallAt(text: string, small: string, i: nat)
    requires IsSmall(small)
    ensures OccursAt(Lower(text), small, i) <==> ReadsAs(text, i, small)
  {
    if i + |small| <= |text| {
      var part := Lower(text)[i..i + |small|];
      assert forall j :: 0 <= j < |small| ==> part[j] == Lower(text)[i + j];
      if ReadsAs(text, i, small) {
        forall j | 0 <= j < |small|
          ensures part[j] == small[j]
        {
          assert SameLetter(text[i + j], small[j]);
        }
      }
    }
  }

  /** A response asks for the platform version exactly when its first accept-ch header names it. */
  lemma AskingMeans(web: Web, resp: Response)
    ensures AsksForVersion(web, resp) <==> NamesVersionHint(web, resp)
  {
    hide Lower, ReadsAs, OccursAt;
    var hint := "sec-ch-ua-platform-version";
    assert IsSmall(hint);
    var v := FirstText(web, resp.headers, AcceptCh);
    if v.Some? {
      assert FirstIs(web, resp, AcceptCh, v.value);
      FitsIn(v.value, 0, hint);
      forall i: nat
        ensures OccursAt(Lower(v.value), hint, i) <==> ReadsAs(v.value, i, hint)
        ensures ReadsAs(v.value, i, hint) ==> i <= |v.value|
      {
        SmallAt(v.value, hint, i);
        FitsIn(v.value, i, hint);
      }
    }
  }

  lemma FitsIn(text: string, i: nat, small: string)
    ensures |Lower(text)| == |text|
    ensures ReadsAs(text, i, small) ==> i <= |text|
  {
  }

  lemma H3Here(text: string, i: nat)
    ensures i <= |text| && OccursAt(text, "h3", i) <==> H3At(text, i)
  {
    assert i + 2 <= |text| ==> text[i..i + 2] == [text[i], text[i + 1]];
  }

  /** A response advertises h3 exactly when its first alt-svc header has an 'h' directly before a '3'. */
  lemma AdvertisingMeans(web: Web, resp: Response)
    ensures AdvertisesH3(web, resp) <==> NamesH3(web, resp)
  {
    hide H3At, OccursAt;
    var v := FirstText(web, resp.headers, AltSvc);
    if v.Some? {
      assert FirstIs(web, resp, AltSvc, v.value);
      forall i: nat
        ensures i <= |v.value| && OccursAt(v.value, "h3", i) <==> H3At(v.value, i)
      {
        H3Here(v.value, i);
      }
    }
  }

  /** These are the positions, from position `from` on, of the values that can be read, in order. */
  ghost predicate ReadablePositions(web: Web, vs: seq<HeaderValue>, from: nat, at: seq<nat>) {
    && (forall a, b :: 0 <= a < b < |at| ==> at[a] < at[b])
    && (forall a :: 0 <= a < |at| ==> from <= at[a] < |vs| && web.readable(vs[at[a]].text))
    && (forall i :: from <= i < |vs| && web.readable(vs[i].text) ==> i in at)
  }

  /** The cookies are the values at these positions, each with the URL. */
  predicate KeptAt(vs: seq<HeaderValue>, u: Url, at: seq<nat>, cookies: seq<SetCookieText>) {
    && |cookies| == |at|
    && forall a :: 0 <= a < |at| ==> at[a] < |vs| && cookies[a] == SetCookieText(vs[at[a]].text, u)
  }

  /** What one more value adds to the positions and to the cookies. */
  function Ahead(web: Web, vs: seq<HeaderValue>, from: nat, rest: seq<nat>): seq<nat>
    requires from < |vs|
  {
    if web.readable(vs[from].text) then [from] + rest else rest
  }

  lemma OnePosition(web: Web, vs: seq<HeaderValue>, from: nat, rest: seq<nat>)
    requires from < |vs| && ReadablePositions(web, vs, from + 1, rest)
    ensures ReadablePositions(web, vs, from, Ahead(web, vs, from, rest))
  {
    var at := Ahead(web, vs, from, rest);
    forall i | from <= i < |vs| && web.readable(vs[i].text)
      ensures i in at
    {
      if i == from {
        assert at[0] == from;
      } else {
        assert i in rest;
      }
    }
  }

  lemma OneCookie(web: Web, vs: seq<HeaderValue>, u: Url, from: nat, rest: seq<nat>)
    requires from < |vs| && KeptAt(vs, u, rest, CookieTexts(web, vs[from + 1..], u))
    ensures KeptAt(vs, u, Ahead(web, vs, from, rest), CookieTexts(web, vs[from..], u))
  {
    assert vs[from..][0] == vs[from] && vs[from..][1..] == vs[from + 1..];
    var tail := CookieTexts(web, vs[from + 1..], u);
    assert [] + tail == tail;
  }

  lemma {:induction false} KeptFrom(web: Web, vs: seq<HeaderValue>, u: Url, from: nat) returns (at: seq<nat>)
    requires from <= |vs|
    ensures ReadablePositions(web, vs, from, at) && KeptAt(vs, u, at, CookieTexts(web, vs[from..], u))
    decreases |vs| - from
  {
    if from == |vs| {
      at := [];
    } else {
      hide ReadablePositions, KeptAt, CookieTexts;
      var rest := KeptFrom(web, vs, u, from + 1);
      OnePosition(web, vs, from, rest);
      OneCookie(web, vs, u, from, rest);
      at := Ahead(web, vs, from, rest);
    }
  }

  /**
   Every set-cookie value that can be read is kept with the URL it came from, in order and
   once each, and nothing else is.
   */
  lemma CookiesInOrder(web: Web, resp: Response, u: Url)
    ensures exists at :: ReadablePositions(web, Lookup(resp.headers, SetCookie), 0, at)
                         && KeptAt(Lookup(resp.headers, SetCookie), u, at, NewCookies(web, resp, u))
  {
    var vs := Lookup(resp.headers, SetCookie);
    var at := KeptFrom(web, vs, u, 0);
    assert vs[0..] == vs;
  }
}
