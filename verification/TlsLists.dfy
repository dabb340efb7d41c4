/** The ALPN buffer and the curve list of src/tls/connector.rs. */
module TlsLists {
  import opened Wrappers
  import opened BigEndian
  import opened Decimals

  // ----- ALPN -----

  /** One protocol name behind a length octet, which keeps the low eight bits of the length. */
  function Prefixed(name: Bytes): Bytes {
    [|name| % 256] + name
  }

  function AlpnBytes(names: seq<Bytes>): Bytes {
    if names == [] then [] else AlpnBytes(names[..|names| - 1]) + Prefixed(names[|names| - 1])
  }

  /** A peer's reading of a protocol name list: names of 1 to 255 bytes (section 3.1 of RFC 7301). */
  function ReadAlpn(b: Bytes): Option<seq<Bytes>> {
    if b == [] then Some([])
    else
      var end := 1 + b[0] as int;
      if end == 1 || |b| < end then None
      else
        match ReadAlpn(b[end..])
        case None => None
        case Some(rest) => Some([b[1..end]] + rest)
  }

  method BuildAlpn(names: seq<Bytes>) returns (alpn: Bytes)
    ensures alpn == AlpnBytes(names)
  {
    alpn := [];
    for i := 0 to |names|
      invariant alpn == AlpnBytes(names[..i])
    {
      assert names[..i + 1][..i] == names[..i];
      alpn := alpn + [|names[i]| % 256];
      alpn := alpn + names[i];
    }
    assert names[..|names|] == names;
  }

  lemma {:induction false} AlpnFront(names: seq<Bytes>)
    requires names != []
    ensures AlpnBytes(names) == Prefixed(names[0]) + AlpnBytes(names[1..])
  {
    hide Prefixed;
    var last := |names| - 1;
    if last == 0 {
      assert names[..0] == [] && names[1..] == [];
      assert [] + Prefixed(names[0]) == Prefixed(names[0]) + [];
    } else {
      AlpnFront(names[..last]);
      assert names[..last][1..] == names[1..][..last - 1] && names[1..][last - 1] == names[last];
      var a, b, c := Prefixed(names[0]), AlpnBytes(names[1..][..last - 1]), Prefixed(names[last]);
      assert AlpnBytes(names[1..]) == b + c;
      assert (a + b) + c == a + (b + c);
    }
  }

  predicate AlpnName(name: Bytes) {
    1 <= |name| <= 255
  }

  /** Only lists of legal names can be read. */
  lemma {:induction false} ReadNamesLegal(b: Bytes)
    ensures ReadAlpn(b).Some? ==> forall i :: 0 <= i < |ReadAlpn(b).value| ==> AlpnName(ReadAlpn(b).value[i])
  {
    if b != [] {
      var end := 1 + b[0] as int;
      if 1 < end <= |b| {
        ReadNamesLegal(b[end..]);
      }
    }
  }

  /** The buffer reads back to the protocol list exactly when every name has 1 to 255 bytes. */
  lemma {:induction false} AlpnRoundTrip(names: seq<Bytes>)
    ensures ReadAlpn(AlpnBytes(names)) == Some(names) <==> forall i :: 0 <= i < |names| ==> AlpnName(names[i])
  {
    ReadNamesLegal(AlpnBytes(names));
    if forall i :: 0 <= i < |names| ==> AlpnName(names[i]) {
      AlpnReads(names);
    }
  }

  lemma {:induction false} AlpnReads(names: seq<Bytes>)
    requires forall i :: 0 <= i < |names| ==> AlpnName(names[i])
    ensures ReadAlpn(AlpnBytes(names)) == Some(names)
  {
    if names != [] {
      AlpnFront(names);
      AlpnReads(names[1..]);
      var b, name := AlpnBytes(names), names[0];
      assert b[0] == |name|;
      assert b[1..1 + |name|] == name && b[1 + |name|..] == AlpnBytes(names[1..]);
      assert [name] + names[1..] == names;
    }
  }

  // ----- curves -----

  function CurveName(group: u16): string {
    if group == 4588 then "X25519MLKEM768"
    else if group == 29 then "X25519"
    else if group == 23 then "P-256"
    else if group == 24 then "P-384"
    else Decimal(group)
  }

  /** The name of a group: four groups by their registered names, any other by its number in decimal digits. */
  lemma CurveNameMeans(group: u16)
    ensures group == 4588 ==> CurveName(group) == "X25519MLKEM768"
    ensures group == 29 ==> CurveName(group) == "X25519"
    ensures group == 23 ==> CurveName(group) == "P-256"
    ensures group == 24 ==> CurveName(group) == "P-384"
    ensures group !in {4588, 29, 23, 24} ==>
              && (forall i :: 0 <= i < |CurveName(group)| ==> '0' <= CurveName(group)[i] <= '9')
              && Value(CurveName(group)) == group
  {
    ValueOfDecimal(group);
  }

  function Joined(names: seq<string>): string {
    if names == [] then ""
    else if |names| == 1 then names[0]
    else Joined(names[..|names| - 1]) + ":" + names[|names| - 1]
  }

  function CurveNames(groups: seq<u16>): seq<string> {
    seq(|groups|, i requires 0 <= i < |groups| => CurveName(groups[i]))
  }

  method BuildCurves(groups: seq<u16>) returns (curves: string)
    ensures curves == Joined(CurveNames(groups))
  {
    curves := "";
    for i := 0 to |groups|
      invariant curves == Joined(CurveNames(groups[..i]))
    {
      ghost var more := CurveNames(groups[..i + 1]);
      assert more[..i] == CurveNames(groups[..i]) && more[i] == CurveName(groups[i]);
      if i > 0 {
        curves := curves + ":";
      }
      match groups[i] {
        case 4588 => curves := curves + "X25519MLKEM768";
        case 29 => curves := curves + "X25519";
        case 23 => curves := curves + "P-256";
        case 24 => curves := curves + "P-384";
        case group => curves := curves + Decimal(group);
      }
    }
    assert groups[..|groups|] == groups;
  }

  /** A curve list cut at its last separators, as the library that receives it reads it. */
  function Split(s: string): seq<string>
    decreases |s|
  {
    if ':' in s then
      var i := LastColon(s);
      Split(s[..i]) + [s[i + 1..]]
    else [s]
  }

  function LastColon(s: string): (i: nat)
    requires ':' in s
    ensures i < |s| && s[i] == ':' && ':' !in s[i + 1..]
  {
    if s[|s| - 1] == ':' then |s| - 1
    else
      assert s == s[..|s| - 1] + [s[|s| - 1]];
      LastColon(s[..|s| - 1])
  }

  lemma {:induction false} SplitJoined(names: seq<string>)
    requires names != [] && forall i :: 0 <= i < |names| ==> ':' !in names[i]
    ensures Split(Joined(names)) == names
  {
    var last := |names| - 1;
    var s := Joined(names);
    if last > 0 {
      SplitJoined(names[..last]);
      var front := Joined(names[..last]);
      assert s == front + [':'] + names[last];
      assert s[|front|] == ':';
      var i := LastColon(s);
      assert s == s[..i] + [':'] + s[i + 1..];
      CutAtLast(front, names[last], ':', s[..i], s[i + 1..]);
      assert names == names[..last] + [names[last]];
    } else {
      assert names == [names[0]];
    }
  }

  lemma CurveNamePlain(group: u16)
    ensures ':' !in CurveName(group)
  {
  }

  /** Different groups have different names. */
  lemma CurveNameInjective(g: u16, h: u16)
    requires CurveName(g) == CurveName(h)
    ensures g == h
  {
    if g !in {4588, 29, 23, 24} && h !in {4588, 29, 23, 24} {
      DecimalInjective(g, h);
    } else {
      assert "X25519MLKEM768"[0] == 'X' && "X25519"[0] == 'X' && "P-256"[0] == 'P' && "P-384"[0] == 'P';
      assert "P-256"[2] == '2' && "P-384"[2] == '3';
      assert |"X25519MLKEM768"| == 14 && |"X25519"| == 6;
    }
  }

  /** A nonempty curve list splits back to the names of its groups, which name no other groups. */
  lemma CurvesRoundTrip(groups: seq<u16>, others: seq<u16>)
    requires groups != [] && others != []
    ensures Split(Joined(CurveNames(groups))) == CurveNames(groups)
    ensures Joined(CurveNames(groups)) == Joined(CurveNames(others)) ==> groups == others
  {
    forall g: u16
      ensures ':' !in CurveName(g)
    {
      CurveNamePlain(g);
    }
    SplitJoined(CurveNames(groups));
    SplitJoined(CurveNames(others));
    if Joined(CurveNames(groups)) == Joined(CurveNames(others)) {
      assert CurveNames(groups) == CurveNames(others);
      assert |groups| == |CurveNames(groups)| == |others|;
      forall i | 0 <= i < |groups|
        ensures groups[i] == others[i]
      {
        assert CurveNames(groups)[i] == CurveName(groups[i]) && CurveNames(others)[i] == CurveName(others[i]);
        CurveNameInjective(groups[i], others[i]);
      }
    }
  }
}
