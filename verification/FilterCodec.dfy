/**
 SUBSCRIBE and UNSUBSCRIBE: a packet identifier and then topic filters, each
 followed by the QoS asked for in a SUBSCRIBE (sections 3.8.3 and 3.10.3 of MQTT
 3.1.1). The parsers accept exactly that, except that the last entry may reach
 past the announced length as long as the buffer has the bytes.
 */
module FilterCodec {
  import opened Bytes
  import opened Model
  import opened RemainingLength
  import opened Codec
  import Utf8

  const SUBSCRIBE_BYTE: byte := 0x82
  const UNSUBSCRIBE_BYTE: byte := 0xA2

  /** Whether the filters come with a QoS. Without one the QoS of an entry is 0. */
  function EntryBytes(e: Subscription, withQos: bool): (s: Text)
    ensures |s| == 2 + |e.filter| + (if withQos then 1 else 0)
  {
    String16(e.filter) + (if withQos then [e.qos] else [])
  }

  function EntriesBytes(es: seq<Subscription>, withQos: bool): Text {
    if es == [] then [] else EntryBytes(es[0], withQos) + EntriesBytes(es[1..], withQos)
  }

  predicate Fits(e: Subscription, withQos: bool) {
    1 <= |e.filter| <= MAX_STRING && (!withQos ==> e.qos == 0)
  }

  ghost predicate EntryStands(b: Text, i: nat, e: Subscription, withQos: bool) {
    Fits(e, withQos) && Stands(b, i, EntryBytes(e, withQos))
  }

  ghost predicate AllUtf8(es: seq<Subscription>) {
    forall i :: 0 <= i < |es| ==> Utf8.Valid(es[i].filter)
  }

  // ----- One entry -----

  datatype Entry = Entry(value: Subscription, next: nat)

  /** Reads an entry; what the bytes of the filter mean is looked at separately. */
  function EntryAt(b: Text, i: nat, withQos: bool): (r: Option<Entry>)
    ensures r.Some? ==> i + (if withQos then 4 else 3) <= r.value.next <= |b|
  {
    var f := StringAt(b, i);
    if f.text == [] then None
    else if !withQos then Some(Entry(Subscription(f.text, 0), f.next))
    else if f.next >= |b| || b[f.next] > 2 then None
    else Some(Entry(Subscription(f.text, b[f.next]), f.next + 1))
  }

  /** Reading an entry succeeds exactly where one stands. */
  lemma EntryAtIff(b: Text, i: nat, withQos: bool, e: Subscription)
    ensures EntryAt(b, i, withQos) == Some(Entry(e, i + |EntryBytes(e, withQos)|)) <==> EntryStands(b, i, e, withQos)
  {
    if StringAt(b, i).text != [] { StringRead(b, i); }
    StandsParts(b, i, String16(e.filter), if withQos then [e.qos] else []);
    if Fits(e, withQos) { StringStands(b, i, e.filter); }
    var q := i + 2 + |e.filter|;
    if q < |b| { assert b[q..q + 1] == [b[q]]; }
  }

  method ReadEntry(b: Text, index: nat, withQos: bool) returns (r: Option<Entry>, valid: bool)
    ensures valid ==> r == EntryAt(b, index, withQos) && (r.Some? ==> Utf8.Valid(r.value.value.filter))
    ensures !valid ==> r == None
    ensures !valid && EntryAt(b, index, withQos).Some? ==> !Utf8.Valid(EntryAt(b, index, withQos).value.value.filter)
  {
    var filter, next := ReadString16(b, index);
    valid := Utf8.IsValidUtf8(filter);
    if !valid { return None, false; }
    Utf8.EmptyIsInvalid();
    if !withQos { return Some(Entry(Subscription(filter, 0), next)), true; }
    if next >= |b| { return None, true; }
    if b[next] > 2 { return None, true; }
    return Some(Entry(Subscription(filter, b[next]), next + 1)), true;
  }

  // ----- All entries -----

  function EntriesAt(b: Text, i: nat, end: nat, withQos: bool): Option<seq<Subscription>>
    decreases if i < |b| then |b| - i else 0
  {
    if i >= end then Some([])
    else
      match EntryAt(b, i, withQos)
      case None => None
      case Some(e) =>
        match EntriesAt(b, e.next, end, withQos)
        case None => None
        case Some(es) => Some([e.value] + es)
  }

  /** Entries, one behind the other; each begins before `end`, and what follows them does not. */
  ghost predicate AreEntries(b: Text, i: nat, end: nat, withQos: bool, es: seq<Subscription>)
    decreases |es|
  {
    if es == [] then end <= i
    else
      && i < end && EntryStands(b, i, es[0], withQos)
      && AreEntries(b, i + |EntryBytes(es[0], withQos)|, end, withQos, es[1..])
  }

  lemma EntriesGoOn(b: Text, i: nat, end: nat, withQos: bool, es: seq<Subscription>)
    requires i < end && es != [] && EntryAt(b, i, withQos).Some? && EntryAt(b, i, withQos).value.value == es[0]
    requires EntriesAt(b, EntryAt(b, i, withQos).value.next, end, withQos) == Some(es[1..])
    ensures EntriesAt(b, i, end, withQos) == Some(es)
  {
    assert es == [es[0]] + es[1..];
  }

  lemma {:induction false} EntriesFound(b: Text, i: nat, end: nat, withQos: bool, es: seq<Subscription>)
    requires AreEntries(b, i, end, withQos, es)
    ensures EntriesAt(b, i, end, withQos) == Some(es)
    decreases |es|
  {
    if es != [] {
      EntryAtIff(b, i, withQos, es[0]);
      EntriesFound(b, i + |EntryBytes(es[0], withQos)|, end, withQos, es[1..]);
      EntriesGoOn(b, i, end, withQos, es);
    }
  }

  lemma FirstFound(b: Text, i: nat, end: nat, withQos: bool)
    requires i < end && EntriesAt(b, i, end, withQos).Some?
    ensures EntryAt(b, i, withQos).Some?
    ensures
      var e, es := EntryAt(b, i, withQos).value, EntriesAt(b, i, end, withQos).value;
      es != [] && es[0] == e.value && EntriesAt(b, e.next, end, withQos) == Some(es[1..])
  {
    var e, es := EntryAt(b, i, withQos).value, EntriesAt(b, i, end, withQos).value;
    assert es[1..] == EntriesAt(b, e.next, end, withQos).value;
  }

  lemma EntryRead(b: Text, i: nat, withQos: bool)
    requires EntryAt(b, i, withQos).Some?
    ensures
      var e := EntryAt(b, i, withQos).value;
      e.next == i + |EntryBytes(e.value, withQos)| && EntryStands(b, i, e.value, withQos)
  {
    StringRead(b, i);
    EntryAtIff(b, i, withQos, EntryAt(b, i, withQos).value.value);
  }

  lemma {:induction false} FoundAreEntries(b: Text, i: nat, end: nat, withQos: bool)
    requires EntriesAt(b, i, end, withQos).Some?
    ensures AreEntries(b, i, end, withQos, EntriesAt(b, i, end, withQos).value)
    decreases if i < |b| then |b| - i else 0
  {
    if i < end {
      FirstFound(b, i, end, withQos);
      EntryRead(b, i, withQos);
      FoundAreEntries(b, EntryAt(b, i, withQos).value.next, end, withQos);
    }
  }

  /** The loop reads exactly the lists of entries that reach the announced end. */
  lemma EntriesAtIff(b: Text, i: nat, end: nat, withQos: bool, es: seq<Subscription>)
    ensures EntriesAt(b, i, end, withQos) == Some(es) <==> AreEntries(b, i, end, withQos, es)
  {
    if AreEntries(b, i, end, withQos, es) { EntriesFound(b, i, end, withQos, es); }
    if EntriesAt(b, i, end, withQos) == Some(es) { FoundAreEntries(b, i, end, withQos); }
  }

  ghost function After(es: seq<Subscription>, r: Option<seq<Subscription>>): Option<seq<Subscription>> {
    if r.None? then None else Some(es + r.value)
  }

  lemma AfterStep(es: seq<Subscription>, e: Subscription, r: Option<seq<Subscription>>)
    ensures After([], r) == r
    ensures After(es, Some([])) == Some(es)
    ensures After(es + [e], r) == After(es, if r.None? then None else Some([e] + r.value))
  {
    assert es + [] == es;
    if r.Some? {
      assert [] + r.value == r.value;
      assert es + [e] + r.value == es + ([e] + r.value);
    }
  }

  ghost function Checked(r: Option<seq<Subscription>>): Option<seq<Subscription>> {
    if r.Some? && AllUtf8(r.value) then r else None
  }

  /** One entry that is not UTF-8 spoils the whole list. */
  lemma Spoiled(es: seq<Subscription>, e: Subscription, r: Option<seq<Subscription>>)
    requires !Utf8.Valid(e.filter)
    ensures Checked(After(es, if r.None? then None else Some([e] + r.value))) == None
  {
    if r.Some? { assert (es + ([e] + r.value))[|es|] == e; }
  }

  lemma OneMore(es: seq<Subscription>, e: Subscription)
    requires AllUtf8(es) && Utf8.Valid(e.filter)
    ensures AllUtf8(es + [e])
  {
  }

  method ReadEntries(b: Text, start: nat, end: nat, withQos: bool) returns (r: Option<seq<Subscription>>)
    requires start <= |b|
    ensures r == Checked(EntriesAt(b, start, end, withQos))
  {
    var index := start;
    var es: seq<Subscription> := [];
    ghost var all := EntriesAt(b, start, end, withQos);
    AfterStep([], Subscription([], 0), all);
    while index < end
      invariant start <= index <= |b| && AllUtf8(es)
      invariant After(es, EntriesAt(b, index, end, withQos)) == all
      decreases |b| - index
    {
      var e, valid := ReadEntry(b, index, withQos);
      if !valid {
        if EntryAt(b, index, withQos).Some? {
          var bad := EntryAt(b, index, withQos).value;
          Spoiled(es, bad.value, EntriesAt(b, bad.next, end, withQos));
        }
        return None;
      }
      if e.None? { return None; }
      AfterStep(es, e.value.value, EntriesAt(b, e.value.next, end, withQos));
      OneMore(es, e.value.value);
      es := es + [e.value.value];
      index := e.value.next;
    }
    AfterStep(es, Subscription([], 0), None);
    return Some(es);
  }

  // ----- Whole packets -----

  datatype Filters = Filters(packetId: nat, entries: seq<Subscription>)

  function FirstByte(withQos: bool): byte {
    if withQos then SUBSCRIBE_BYTE else UNSUBSCRIBE_BYTE
  }

  function FiltersBody(p: Filters, withQos: bool): Text {
    Uint16(p.packetId) + EntriesBytes(p.entries, withQos)
  }

  function FiltersBytes(p: Filters, withQos: bool): Text {
    [FirstByte(withQos)] + Written(|FiltersBody(p, withQos)|) + FiltersBody(p, withQos)
  }

  /** The packet a buffer begins with, as far as the layout goes. */
  function Layout(b: Text, withQos: bool): Option<Filters>
    requires |b| >= 1
  {
    if b[0] != FirstByte(withQos) then None
    else
      var len := Decoded(b, 1);
      if len.next + len.value > |b| || len.next + 2 > |b| then None
      else
        match EntriesAt(b, len.next + 2, len.next + len.value, withQos)
        case None => None
        case Some(es) => Some(Filters(Uint16At(b, len.next), es))
  }

  ghost function ParseFilters(b: Text, withQos: bool): Option<Filters>
    requires |b| >= 1
  {
    var p := Layout(b, withQos);
    if p.Some? && AllUtf8(p.value.entries) then p else None
  }

  method DecodeFilters(b: Text, withQos: bool) returns (r: Option<Filters>)
    requires |b| >= 1
    ensures r == ParseFilters(b, withQos)
  {
    if b[0] != (if withQos then SUBSCRIBE_BYTE else UNSUBSCRIBE_BYTE) { return None; }
    var length, index := DecodeRemainingLength(b, 1);
    if index + length > |b| { return None; }
    var end := index + length;
    if index + 2 > |b| { return None; }
    var packetId;
    packetId, index := ReadUint16(b, index);
    var es := ReadEntries(b, index, end, withQos);
    if es.None? { return None; }
    return Some(Filters(packetId, es.value));
  }

  lemma {:induction false} BytesAreEntries(b: Text, i: nat, withQos: bool, es: seq<Subscription>)
    requires (forall e :: e in es ==> Fits(e, withQos)) && Stands(b, i, EntriesBytes(es, withQos))
    ensures AreEntries(b, i, i + |EntriesBytes(es, withQos)|, withQos, es)
    decreases |es|
  {
    if es != [] {
      StandsParts(b, i, EntryBytes(es[0], withQos), EntriesBytes(es[1..], withQos));
      BytesAreEntries(b, i + |EntryBytes(es[0], withQos)|, withQos, es[1..]);
    }
  }

  /** The buffer begins with this packet; only the last entry may reach past the announced end. */
  ghost predicate IsLaidOut(b: Text, p: Filters, withQos: bool) {
    && |b| >= 1 && b[0] == FirstByte(withQos) && p.packetId <= 0xFFFF
    && var len := Decoded(b, 1);
       && len.next + len.value <= |b| && Stands(b, len.next, Uint16(p.packetId))
       && AreEntries(b, len.next + 2, len.next + len.value, withQos, p.entries)
  }

  lemma PacketIdStands(b: Text, i: nat, pid: nat)
    ensures i + 2 <= |b| && Uint16At(b, i) == pid <==> pid <= 0xFFFF && Stands(b, i, Uint16(pid))
  {
    if pid <= 0xFFFF { Uint16Stands(b, i, pid); }
  }

  lemma LayoutFields(b: Text, p: Filters, withQos: bool)
    requires |b| >= 1
    ensures
      var len := Decoded(b, 1);
      Layout(b, withQos) == Some(p) <==>
        && b[0] == FirstByte(withQos) && len.next + len.value <= |b|
        && len.next + 2 <= |b| && Uint16At(b, len.next) == p.packetId
        && EntriesAt(b, len.next + 2, len.next + len.value, withQos) == Some(p.entries)
  {
  }

  lemma LayoutIff(b: Text, p: Filters, withQos: bool)
    requires |b| >= 1
    ensures Layout(b, withQos) == Some(p) <==> IsLaidOut(b, p, withQos)
  {
    var len := Decoded(b, 1);
    LayoutFields(b, p, withQos);
    EntriesAtIff(b, len.next + 2, len.next + len.value, withQos, p.entries);
    PacketIdStands(b, len.next, p.packetId);
  }

  /** The parser accepts exactly the buffers that begin with such a packet of UTF-8 filters, and yields it. */
  lemma ParseFiltersIff(b: Text, p: Filters, withQos: bool)
    requires |b| >= 1
    ensures ParseFilters(b, withQos) == Some(p) <==> IsLaidOut(b, p, withQos) && AllUtf8(p.entries)
  {
    LayoutIff(b, p, withQos);
  }

  lemma BodyIsLaidOut(b: Text, p: Filters, withQos: bool)
    requires |b| >= 1 && b[0] == FirstByte(withQos) && p.packetId <= 0xFFFF
    requires forall e :: e in p.entries ==> Fits(e, withQos)
    requires Decoded(b, 1).value == |FiltersBody(p, withQos)| && Stands(b, Decoded(b, 1).next, FiltersBody(p, withQos))
    ensures IsLaidOut(b, p, withQos)
  {
    var next := Decoded(b, 1).next;
    StandsParts(b, next, Uint16(p.packetId), EntriesBytes(p.entries, withQos));
    BytesAreEntries(b, next + 2, withQos, p.entries);
  }

  /** Every packet laid out by the standard decodes to its entries, in order, whatever follows it. */
  lemma FiltersRoundTrip(p: Filters, withQos: bool, junk: Text)
    requires p.packetId <= 0xFFFF && AllUtf8(p.entries) && |FiltersBody(p, withQos)| < LIMIT
    requires forall e :: e in p.entries ==> Fits(e, withQos)
    ensures ParseFilters(FiltersBytes(p, withQos) + junk, withQos) == Some(p)
  {
    var b := FiltersBytes(p, withQos) + junk;
    LengthAndBody(FirstByte(withQos), FiltersBody(p, withQos), junk);
    BodyIsLaidOut(b, p, withQos);
    LayoutIff(b, p, withQos);
  }
}
