/** Chains of redirects on which the referer is not the one its policy asks for. */
module RedirectExamples {
  import opened Wrappers
  import opened HeaderMaps
  import opened Redirects

  /** Libraries that know two URLs. */
  function Between(from: Url, to: Url): Web {
    Web(s => if s == from.text then Some(from) else if s == to.text then Some(to) else None,
        (u, l) => if l == to.text then Some(to) else None,
        (jar, u) => None, (verb, uri) => true, s => true, s => true)
  }

  /** A GET of the first URL that is answered with a redirect to the second. */
  function Redirected(from: Url, to: Url, status: nat): Hop {
    Hop(Start(from.text, "GET", None), from, None, false,
        Response(status, [Field(Location, [HeaderValue(to.text, false)])], [], from.text))
  }

  function After(from: Url, to: Url): Call {
    var site := SiteBetween(from, to);
    Call(to.text, "GET", None, Some(from.text), site, site == CrossSite)
  }

  lemma OneRedirect(from: Url, to: Url, status: nat)
    requires IsRedirection(status)
    ensures Leads(Between(from, to), Start(from.text, "GET", None), [Redirected(from, to, status)], After(from, to))
    ensures Target(Between(from, to), Redirected(from, to, status)) == to
    ensures RefererOf(Between(from, to), After(from, to))
         == Some(if SiteBetween(from, to) == CrossSite then BareOrigin(from) else from.text)
  {
    var web, h := Between(from, to), Redirected(from, to, status);
    assert Advance(web, h.call, from, h.response) == Follow(After(from, to), to);
  }

  const SECURE := Url("https://a.test/x", "https", Some("a.test"), Some("a.test"), None, Tuple("https://a.test"))
  const INSECURE := Url("http://b.test/", "http", Some("b.test"), Some("b.test"), None, Tuple("http://b.test"))
  const LOGIN := SECURE.(text := "https://u:p@a.test/x#f")
  const FIRST_ADDRESS := Url("http://10.0.0.1/q", "http", Some("10.0.0.1"), None, None, Tuple("http://10.0.0.1"))
  const OTHER_ADDRESS := Url("http://10.0.0.2/", "http", Some("10.0.0.2"), None, None, Tuple("http://10.0.0.2"))

  const STANDARD := Standard((u: Url) => if u == LOGIN then SECURE.text else u.text, (u: Url) => u.scheme == "https")

  lemma Slashes()
    ensures BareOrigin(SECURE) == "https://a.test/" && BareOrigin(FIRST_ADDRESS) == "http://10.0.0.1/"
  {
    assert "https://a.test" + "/" == "https://a.test/";
    assert "http://10.0.0.1" + "/" == "http://10.0.0.1/";
  }

  lemma SecureToInsecure()
    ensures SiteBetween(SECURE, INSECURE) == CrossSite && !SameOrigin(INSECURE.origin, SECURE.origin)
    ensures Downgrades(STANDARD, SECURE, INSECURE)
  {
    assert |"https"| == 5 && |"http"| == 4;
    assert SECURE.domain.value[0] == 'a' && INSECURE.domain.value[0] == 'b';
    assert SECURE.origin.text[4] == 's' && INSECURE.origin.text[4] == ':';
  }

  lemma AddressToAddress()
    ensures SiteBetween(FIRST_ADDRESS, OTHER_ADDRESS) == SameSite
    ensures !SameOrigin(OTHER_ADDRESS.origin, FIRST_ADDRESS.origin)
    ensures !Downgrades(STANDARD, FIRST_ADDRESS, OTHER_ADDRESS)
  {
    assert FIRST_ADDRESS.origin.text[14] == '1' && OTHER_ADDRESS.origin.text[14] == '2';
    assert |"https"| == 5 && |"http"| == 4;
  }

  /** From https to http the policy sends nothing; the code sends the origin. */
  lemma DowngradeSendsOrigin()
    ensures Leads(Between(SECURE, INSECURE), Start(SECURE.text, "GET", None),
                  [Redirected(SECURE, INSECURE, 307)], After(SECURE, INSECURE))
    ensures PolicyReferer(STANDARD, SECURE, INSECURE) == None
    ensures RefererOf(Between(SECURE, INSECURE), After(SECURE, INSECURE)) == Some("https://a.test/")
  {
    hide SiteBetween, BareOrigin, Downgrades;
    OneRedirect(SECURE, INSECURE, 307);
    SecureToInsecure();
    Slashes();
  }

  /** Within an origin the policy sends the URL without user, password and fragment; the code sends them all. */
  lemma PasswordAndFragmentAreSent()
    ensures Leads(Between(LOGIN, SECURE), Start(LOGIN.text, "GET", None),
                  [Redirected(LOGIN, SECURE, 302)], After(LOGIN, SECURE))
    ensures PolicyReferer(STANDARD, LOGIN, SECURE) == Some("https://a.test/x")
    ensures RefererOf(Between(LOGIN, SECURE), After(LOGIN, SECURE)) == Some("https://u:p@a.test/x#f")
  {
    OneRedirect(LOGIN, SECURE, 302);
  }

  /** From one IP address to another the code sends the whole URL, as within a site. */
  lemma AddressLeaksToAddress()
    ensures Leads(Between(FIRST_ADDRESS, OTHER_ADDRESS), Start(FIRST_ADDRESS.text, "GET", None),
                  [Redirected(FIRST_ADDRESS, OTHER_ADDRESS, 302)], After(FIRST_ADDRESS, OTHER_ADDRESS))
    ensures After(FIRST_ADDRESS, OTHER_ADDRESS).site == SameSite
    ensures PolicyReferer(STANDARD, FIRST_ADDRESS, OTHER_ADDRESS) == Some("http://10.0.0.1/")
    ensures RefererOf(Between(FIRST_ADDRESS, OTHER_ADDRESS), After(FIRST_ADDRESS, OTHER_ADDRESS))
         == Some("http://10.0.0.1/q")
  {
    hide SiteBetween, BareOrigin, Downgrades;
    OneRedirect(FIRST_ADDRESS, OTHER_ADDRESS, 302);
    AddressToAddress();
    Slashes();
  }
}
