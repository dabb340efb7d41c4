/**
 The mutable header map that requests and responses carry: an insertion-ordered
 list of fields, each holding one or more values.
 */
module HeaderMaps {
  import opened Wrappers

  /** The names the client writes or reads; `Other` is any further name. */
  datatype HeaderName =
    | SecChUa | SecChUaMobile | SecChUaPlatform | SecChUaPlatformVersion
    | UpgradeInsecureRequests | UserAgent
    | SecFetchSite | SecFetchMode | SecFetchUser | SecFetchDest
    | Accept | AcceptEncoding | AcceptLanguage | Priority | Referer
    | Cookie | Authorization | Origin
    | Location | SetCookie | AcceptCh | AltSvc
    | Other(text: string)

  datatype HeaderValue = HeaderValue(text: string, sensitive: bool)

  datatype Field = Field(name: HeaderName, values: seq<HeaderValue>)

  /** All the values stored under a name, in order; empty when there are none. */
  function Lookup(fs: seq<Field>, n: HeaderName): seq<HeaderValue> {
    if fs == [] then []
    else if fs[0].name == n then fs[0].values
    else Lookup(fs[1..], n)
  }

  /** Replaces every value of a name by one value, keeping the field's place. */
  function Put(fs: seq<Field>, n: HeaderName, v: HeaderValue): seq<Field> {
    if fs == [] then [Field(n, [v])]
    else if fs[0].name == n then [Field(n, [v])] + fs[1..]
    else [fs[0]] + Put(fs[1..], n, v)
  }

  /** Adds one more value under a name. */
  function Add(fs: seq<Field>, n: HeaderName, v: HeaderValue): seq<Field> {
    if fs == [] then [Field(n, [v])]
    else if fs[0].name == n then [Field(n, fs[0].values + [v])] + fs[1..]
    else [fs[0]] + Add(fs[1..], n, v)
  }

  lemma LookupCons(f: Field, fs: seq<Field>, m: HeaderName)
    ensures Lookup([f] + fs, m) == if f.name == m then f.values else Lookup(fs, m)
  {
    assert ([f] + fs)[1..] == fs;
  }

  lemma {:induction false} LookupPut(fs: seq<Field>, n: HeaderName, v: HeaderValue, m: HeaderName)
    ensures Lookup(Put(fs, n, v), m) == if m == n then [v] else Lookup(fs, m)
  {
    var f := Field(n, [v]);
    if fs == [] {
      assert Put(fs, n, v) == [f] + [];
      LookupCons(f, [], m);
    } else if fs[0].name == n {
      LookupCons(f, fs[1..], m);
      assert Lookup([f] + fs[1..], m) == if m == n then f.values else Lookup(fs[1..], m);
    } else {
      var rest := Put(fs[1..], n, v);
      LookupPut(fs[1..], n, v, m);
      LookupCons(fs[0], rest, m);
      assert Lookup([fs[0]] + rest, m) == if fs[0].name == m then fs[0].values else Lookup(rest, m);
    }
  }

  lemma {:induction false} LookupAdd(fs: seq<Field>, n: HeaderName, v: HeaderValue, m: HeaderName)
    ensures Lookup(Add(fs, n, v), m) == if m == n then Lookup(fs, n) + [v] else Lookup(fs, m)
  {
    if fs == [] {
      var f := Field(n, [v]);
      assert Add(fs, n, v) == [f] + [];
      LookupCons(f, [], m);
      assert [] + [v] == [v];
    } else if fs[0].name == n {
      var f := Field(n, fs[0].values + [v]);
      LookupCons(f, fs[1..], m);
      assert Lookup([f] + fs[1..], m) == if m == n then f.values else Lookup(fs[1..], m);
    } else {
      var rest := Add(fs[1..], n, v);
      LookupAdd(fs[1..], n, v, m);
      LookupCons(fs[0], rest, m);
      assert Lookup([fs[0]] + rest, m) == if fs[0].name == m then fs[0].values else Lookup(rest, m);
    }
  }

  /** Writing the value a name already has changes nothing, not even the order. */
  lemma {:induction false} PutSame(fs: seq<Field>, n: HeaderName, v: HeaderValue)
    requires Lookup(fs, n) == [v]
    ensures Put(fs, n, v) == fs
  {
    if fs[0].name == n {
      assert fs == [fs[0]] + fs[1..];
    } else {
      PutSame(fs[1..], n, v);
    }
  }

  /** A text that passes the test, or nothing. */
  function Checked(ok: string -> bool, s: string): (r: Option<string>) {
    if ok(s) then Some(s) else None
  }

  function PutOpt(fs: seq<Field>, n: HeaderName, s: Option<string>): seq<Field> {
    match s
    case Some(v) => Put(fs, n, HeaderValue(v, false))
    case None => fs
  }

  lemma LookupPutOpt(fs: seq<Field>, n: HeaderName, s: Option<string>, m: HeaderName)
    ensures Lookup(PutOpt(fs, n, s), m)
         == if m == n && s.Some? then [HeaderValue(s.value, false)] else Lookup(fs, m)
  {
    if s.Some? {
      LookupPut(fs, n, HeaderValue(s.value, false), m);
    }
  }

  predicate NeverIndexed(n: HeaderName) {
    n == Cookie || n == Authorization
  }

  function Hide(vs: seq<HeaderValue>): (r: seq<HeaderValue>) {
    seq(|vs|, i requires 0 <= i < |vs| => vs[i].(sensitive := true))
  }

  /** Marks every cookie and authorization value sensitive and leaves the rest. */
  function MarkSensitive(fs: seq<Field>): seq<Field> {
    seq(|fs|, i requires 0 <= i < |fs| =>
      if NeverIndexed(fs[i].name) then fs[i].(values := Hide(fs[i].values)) else fs[i])
  }

  lemma {:induction false} LookupMarked(fs: seq<Field>, n: HeaderName)
    ensures Lookup(MarkSensitive(fs), n)
         == if NeverIndexed(n) then Hide(Lookup(fs, n)) else Lookup(fs, n)
  {
    if fs == [] {
    } else if fs[0].name != n {
      assert MarkSensitive(fs)[1..] == MarkSensitive(fs[1..]);
      LookupMarked(fs[1..], n);
    }
  }

  lemma MarkTwice(fs: seq<Field>)
    ensures MarkSensitive(MarkSensitive(fs)) == MarkSensitive(fs)
  {
    forall i | 0 <= i < |fs|
      ensures MarkSensitive(MarkSensitive(fs))[i] == MarkSensitive(fs)[i]
    {
      assert Hide(Hide(fs[i].values)) == Hide(fs[i].values);
    }
  }

  class HeaderMap {
    var fields: seq<Field>

    constructor ()
      ensures fields == []
    {
      fields := [];
    }

    method Insert(n: HeaderName, v: HeaderValue)
      modifies this
      ensures fields == Put(old(fields), n, v)
    {
      fields := Put(fields, n, v);
    }

    /** Inserts a text when it can be a header value, and skips it silently otherwise. */
    method InsertText(n: HeaderName, s: string, writable: string -> bool)
      modifies this
      ensures fields == PutOpt(old(fields), n, Checked(writable, s))
    {
      if writable(s) {
        Insert(n, HeaderValue(s, false));
      }
    }
  }
}
