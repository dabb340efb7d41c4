/**
 The names under which src/client/pool.rs files its connections and its Alt-Svc
 entries. The rest of the model uses the structured keys; the texts built from
 them are shown here to tell any two keys apart.
 */
module PoolKeys {
  import opened Wrappers
  import opened Redirects
  import opened Decimals

  /** A host and a port: the name of an Alt-Svc entry. */
  datatype Authority = Authority(host: string, port: nat)

  /** A slot of the pool: one authority over one transport. */
  datatype Key = Key(at: Authority, h3: bool)

  datatype Proxy = HttpProxy(address: string) | Socks5Proxy(address: string)

  function DefaultPort(scheme: string): nat {
    if scheme == "http" then 80 else 443
  }

  /** The name a request looks its origin up by. */
  function LookupAuthority(u: Url): Authority
    requires u.host.Some?
  {
    Authority(u.host.value, u.port.GetOr(DefaultPort(u.scheme)))
  }

  /** The name a response's advertisement is filed under: its default port is always 443. */
  function FilingAuthority(u: Url): Authority {
    Authority(u.host.GetOr(""), u.port.GetOr(443))
  }

  function ProxyPrefix(p: Option<Proxy>): string {
    match p
    case None => ""
    case Some(HttpProxy(a)) => "http://" + a + "@"
    case Some(Socks5Proxy(a)) => "socks5://" + a + "@"
  }

  function TransportName(h3: bool): string {
    if h3 then "h3" else "h2"
  }

  function AuthorityText(a: Authority): string {
    a.host + ":" + Decimal(a.port)
  }

  function PoolKeyText(p: Option<Proxy>, k: Key): string {
    ProxyPrefix(p) + k.at.host + ":" + Decimal(k.at.port) + "#" + TransportName(k.h3)
  }

  lemma AuthorityTextInjective(a: Authority, b: Authority)
    requires AuthorityText(a) == AuthorityText(b)
    ensures a == b
  {
    assert ':' !in Decimal(a.port) && ':' !in Decimal(b.port);
    CutAtLast(a.host, Decimal(a.port), ':', b.host, Decimal(b.port));
    DecimalInjective(a.port, b.port);
  }

  lemma PrefixInjective(p: Option<Proxy>, h: string, q: Option<Proxy>, g: string)
    requires '@' !in h && '@' !in g
    requires ProxyPrefix(p) + h == ProxyPrefix(q) + g
    ensures p == q && h == g
  {
    var x, y := ProxyPrefix(p), ProxyPrefix(q);
    assert x == [] ==> x + h == h;
    assert y == [] ==> y + g == g;
    if p != None && q != None {
      assert x == x[..|x| - 1] + ['@'] && y == y[..|y| - 1] + ['@'];
      CutAtLast(x[..|x| - 1], h, '@', y[..|y| - 1], g);
      assert x == y;
      assert x[0] == if p.value.HttpProxy? then 'h' else 's';
      assert y[0] == if q.value.HttpProxy? then 'h' else 's';
      var n := if p.value.HttpProxy? then 7 else 9;
      assert p.value.address == x[n..|x| - 1] && q.value.address == y[n..|y| - 1];
    }
  }

  /** Proxy, host, port and transport can all be read back from a key: no two slots share one. */
  lemma PoolKeyInjective(p: Option<Proxy>, k: Key, q: Option<Proxy>, l: Key)
    requires '@' !in k.at.host && '@' !in l.at.host
    requires PoolKeyText(p, k) == PoolKeyText(q, l)
    ensures p == q && k == l
  {
    var x, y := ProxyPrefix(p) + k.at.host, ProxyPrefix(q) + l.at.host;
    var d, e := Decimal(k.at.port), Decimal(l.at.port);
    var s, t := PoolKeyText(p, k), PoolKeyText(q, l);
    assert s[|s| - 1] == if k.h3 then '3' else '2';
    assert t[|t| - 1] == if l.h3 then '3' else '2';
    assert s[..|s| - 3] == x + [':'] + d && t[..|t| - 3] == y + [':'] + e;
    assert ':' !in d && ':' !in e;
    CutAtLast(x, d, ':', y, e);
    DecimalInjective(k.at.port, l.at.port);
    PrefixInjective(p, k.at.host, q, l.at.host);
  }
}
