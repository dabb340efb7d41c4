/**
 The ALPS payload of src/client/connector.rs and the HTTP/2 builder of
 src/http2/handshake.rs, which must announce the same settings.
 */
module Alps {
  import opened Wrappers
  import opened BigEndian

  datatype SettingsFrame = SettingsFrame(
    headerTableSize: u32,
    enablePush: bool,
    initialWindowSize: u32,
    maxHeaderListSize: u32)

  datatype Setting = Setting(id: u16, value: u32)

  function Flag(b: bool): u32 {
    if b then 1 else 0
  }

  function Entry(s: Setting): (b: Bytes)
    ensures |b| == 6
  {
    Bytes16(s.id) + Bytes32(s.value)
  }

  function Encode(ss: seq<Setting>): (b: Bytes)
    ensures |b| == 6 * |ss|
  {
    if ss == [] then [] else Encode(ss[..|ss| - 1]) + Entry(ss[|ss| - 1])
  }

  /** A peer's reading of a settings payload (section 6.5.1 of RFC 7540). */
  function Decode(b: Bytes): Option<seq<Setting>> {
    if b == [] then Some([])
    else if |b| < 6 then None
    else
      match Decode(b[..|b| - 6])
      case None => None
      case Some(front) =>
        var entry := b[|b| - 6..];
        Some(front + [Setting(Number16(entry[..2]), Number32(entry[2..]))])
  }

  lemma {:induction false} DecodeEncode(ss: seq<Setting>)
    ensures Decode(Encode(ss)) == Some(ss)
  {
    if ss != [] {
      var front, last := ss[..|ss| - 1], ss[|ss| - 1];
      DecodeEncode(front);
      var b := Encode(ss);
      assert b[..|b| - 6] == Encode(front);
      assert b[|b| - 6..] == Entry(last);
      assert Entry(last)[..2] == Bytes16(last.id) && Entry(last)[2..] == Bytes32(last.value);
      Number16OfBytes(last.id);
      Number32OfBytes(last.value);
      assert ss == front + [last];
    }
  }

  lemma {:induction false} EncodeMore(ss: seq<Setting>, s: Setting)
    ensures Encode(ss + [s]) == Encode(ss) + Entry(s)
  {
    assert (ss + [s])[..|ss|] == ss;
  }

  /** Six bytes from `at` on: identifier and value, highest byte first (section 6.5.1 of RFC 7540). */
  predicate SettingAt(b: Bytes, at: nat, id: nat, value: nat) {
    && at + 6 <= |b|
    && b[at] as int * 256 + b[at + 1] as int == id
    && b[at + 2] as int * 16777216 + b[at + 3] as int * 65536 + b[at + 4] as int * 256 + b[at + 5] as int == value
  }

  lemma EntryAt(s: Setting)
    ensures SettingAt(Entry(s), 0, s.id, s.value)
  {
    assert Entry(s) == [s.id / 256, s.id % 256]
                       + [s.value / 65536 / 256, s.value / 65536 % 256, s.value % 65536 / 256, s.value % 65536 % 256];
  }

  /** Every setting stands in its own six bytes, in order. */
  lemma {:induction false} EncodedAt(ss: seq<Setting>, i: nat)
    requires i < |ss|
    ensures SettingAt(Encode(ss), 6 * i, ss[i].id, ss[i].value)
  {
    var last := |ss| - 1;
    if i < last {
      EncodedAt(ss[..last], i);
    } else {
      EntryAt(ss[last]);
    }
  }

  // ----- the HTTP/2 builder -----

  datatype SettingId = HeaderTableSize | EnablePush | InitialWindowSize | MaxHeaderListSize

  /** The identifiers of section 6.5.2 of RFC 7540. */
  function Wire(id: SettingId): u16 {
    match id
    case HeaderTableSize => 1
    case EnablePush => 2
    case InitialWindowSize => 4
    case MaxHeaderListSize => 6
  }

  function Listed(order: seq<SettingId>, values: map<SettingId, u32>): seq<Setting>
    requires forall id :: id in order ==> id in values
  {
    if order == [] then [] else [Setting(Wire(order[0]), values[order[0]])] + Listed(order[1..], values)
  }

  class Builder {
    var order: seq<SettingId>
    var values: map<SettingId, u32>

    constructor ()
      ensures order == [] && values == map[]
    {
      order, values := [], map[];
    }

    /** The settings part of `configure_builder`. */
    method Configure(s: SettingsFrame)
      modifies this
      ensures order == [HeaderTableSize, EnablePush, InitialWindowSize, MaxHeaderListSize]
      ensures forall id :: id in order ==> id in values
      ensures values[HeaderTableSize] == s.headerTableSize && values[EnablePush] == (if s.enablePush then 1 else 0)
      ensures values[InitialWindowSize] == s.initialWindowSize && values[MaxHeaderListSize] == s.maxHeaderListSize
    {
      var settingsOrder: seq<SettingId> := [];
      settingsOrder := settingsOrder + [HeaderTableSize];
      settingsOrder := settingsOrder + [EnablePush];
      settingsOrder := settingsOrder + [InitialWindowSize];
      settingsOrder := settingsOrder + [MaxHeaderListSize];
      order := settingsOrder;
      values := values[HeaderTableSize := s.headerTableSize];
      values := values[EnablePush := Flag(s.enablePush)];
      values := values[InitialWindowSize := s.initialWindowSize];
      values := values[MaxHeaderListSize := s.maxHeaderListSize];
    }

    /** The settings the builder will announce, in order. */
    function Announced(): seq<Setting>
      reads this
      requires forall id :: id in order ==> id in values
    {
      Listed(order, values)
    }
  }

  method BuildAlpsPayload(s: SettingsFrame, extra: seq<Setting>) returns (payload: Bytes)
    ensures |payload| == 6 * (4 + |extra|)
    ensures Decode(payload) == Some(Standard(s) + extra)
    ensures SettingAt(payload, 0, 1, s.headerTableSize)
    ensures SettingAt(payload, 6, 2, if s.enablePush then 1 else 0)
    ensures SettingAt(payload, 12, 4, s.initialWindowSize)
    ensures SettingAt(payload, 18, 6, s.maxHeaderListSize)
    ensures forall i :: 0 <= i < |extra| ==> SettingAt(payload, 24 + 6 * i, extra[i].id, extra[i].value)
  {
    hide Encode, Decode, Bytes16, Bytes32, Flag, SettingAt;
    payload := [];
    payload := payload + Bytes16(1);
    payload := payload + Bytes32(s.headerTableSize);
    payload := payload + Bytes16(2);
    payload := payload + Bytes32(Flag(s.enablePush));
    payload := payload + Bytes16(4);
    payload := payload + Bytes32(s.initialWindowSize);
    payload := payload + Bytes16(6);
    payload := payload + Bytes32(s.maxHeaderListSize);
    EncodeStandard(s);
    assert payload == Encode(Standard(s));
    assert Standard(s) + extra[..0] == Standard(s);
    for i := 0 to |extra|
      invariant payload == Encode(Standard(s) + extra[..i])
    {
      EncodeMore(Standard(s) + extra[..i], extra[i]);
      assert Standard(s) + extra[..i + 1] == Standard(s) + extra[..i] + [extra[i]];
      payload := payload + Bytes16(extra[i].id);
      payload := payload + Bytes32(extra[i].value);
    }
    assert extra[..|extra|] == extra;
    DecodeEncode(Standard(s) + extra);
    StandardAt(s, extra);
  }

  lemma StandardAt(s: SettingsFrame, extra: seq<Setting>)
    ensures var b := Encode(Standard(s) + extra);
      && SettingAt(b, 0, 1, s.headerTableSize) && SettingAt(b, 6, 2, if s.enablePush then 1 else 0)
      && SettingAt(b, 12, 4, s.initialWindowSize) && SettingAt(b, 18, 6, s.maxHeaderListSize)
      && forall i :: 0 <= i < |extra| ==> SettingAt(b, 24 + 6 * i, extra[i].id, extra[i].value)
  {
    hide Encode, SettingAt;
    var all := Standard(s) + extra;
    EncodedAt(all, 0);
    EncodedAt(all, 1);
    EncodedAt(all, 2);
    EncodedAt(all, 3);
    forall i | 0 <= i < |extra|
      ensures SettingAt(Encode(all), 24 + 6 * i, extra[i].id, extra[i].value)
    {
      EncodedAt(all, 4 + i);
    }
  }

  /** The four standard settings, under identifiers 1, 2, 4 and 6. */
  function Standard(s: SettingsFrame): seq<Setting> {
    [Setting(1, s.headerTableSize), Setting(2, Flag(s.enablePush)),
     Setting(4, s.initialWindowSize), Setting(6, s.maxHeaderListSize)]
  }

  lemma EncodeStandard(s: SettingsFrame)
    ensures Encode(Standard(s)) == Bytes16(1) + Bytes32(s.headerTableSize) + Bytes16(2) + Bytes32(Flag(s.enablePush))
                                 + Bytes16(4) + Bytes32(s.initialWindowSize) + Bytes16(6) + Bytes32(s.maxHeaderListSize)
  {
    var a, b, c, d := Setting(1, s.headerTableSize), Setting(2, Flag(s.enablePush)),
                      Setting(4, s.initialWindowSize), Setting(6, s.maxHeaderListSize);
    EncodeMore([], a);
    EncodeMore([a], b);
    EncodeMore([a, b], c);
    EncodeMore([a, b, c], d);
    assert [] + [a] == [a] && [a] + [b] == [a, b] && [a, b] + [c] == [a, b, c] && [a, b, c] + [d] == Standard(s);
  }

  /** The payload read back begins with exactly what the configured HTTP/2 builder announces, in its order. */
  method AnnounceTwice(s: SettingsFrame, extra: seq<Setting>) returns (payload: Bytes, builder: Builder)
    ensures builder.order == [HeaderTableSize, EnablePush, InitialWindowSize, MaxHeaderListSize]
    ensures forall id :: id in builder.order ==> id in builder.values
    ensures Decode(payload) == Some(builder.Announced() + extra)
  {
    payload := BuildAlpsPayload(s, extra);
    builder := new Builder();
    builder.Configure(s);
    ListedFour(HeaderTableSize, EnablePush, InitialWindowSize, MaxHeaderListSize, builder.values);
  }

  lemma ListedFour(a: SettingId, b: SettingId, c: SettingId, d: SettingId, values: map<SettingId, u32>)
    requires a in values && b in values && c in values && d in values
    ensures Listed([a, b, c, d], values)
         == [Setting(Wire(a), values[a]), Setting(Wire(b), values[b]),
             Setting(Wire(c), values[c]), Setting(Wire(d), values[d])]
  {
    assert [a, b, c, d][1..] == [b, c, d] && [b, c, d][1..] == [c, d] && [c, d][1..] == [d] && [d][1..] == [];
    assert Listed([d], values) == [Setting(Wire(d), values[d])];
    assert Listed([c, d], values) == [Setting(Wire(c), values[c]), Setting(Wire(d), values[d])];
  }
}
