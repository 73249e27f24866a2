/**
 The packet codec. The parsers are written the way the program reads a buffer,
 moving an index along, and are proved to accept exactly the byte layouts of
 MQTT 3.1.1; the serialisers write those layouts. Together: a packet that is
 written and read again is the same packet, whatever bytes come behind it.
 */
module Codec {
  import opened Bytes
  import opened Model
  import opened RemainingLength
  import Utf8

  const MAX_STRING: nat := 0xFFFF

  // ----- Numbers and strings -----

  function Uint16(n: nat): Text {
    [n / 0x100 % 0x100, n % 0x100]
  }

  function Uint16At(b: Text, i: nat): nat
    requires i + 2 <= |b|
  {
    var high: int := b[i];
    high * 0x100 + b[i + 1]
  }

  /** A string with its length in front. */
  function String16(t: Text): Text {
    Uint16(|t|) + t
  }

  datatype Str = Str(text: Text, next: nat)

  /** Reads a string; a string that is empty or runs past the buffer comes out as empty. */
  function StringAt(b: Text, i: nat): (r: Str)
    ensures i <= r.next
  {
    if i + 2 > |b| then Str([], i)
    else
      var n := Uint16At(b, i);
      if i + 2 + n > |b| || n == 0 then Str([], i + 2) else Str(b[i + 2..i + 2 + n], i + 2 + n)
  }

  lemma StandsParts(b: Text, i: nat, u: Text, v: Text)
    ensures Stands(b, i, u + v) <==> Stands(b, i, u) && Stands(b, i + |u|, v)
  {
    if i + |u| + |v| <= |b| {
      assert b[i..i + |u + v|] == b[i..i + |u|] + b[i + |u|..i + |u| + |v|];
      if Stands(b, i, u + v) {
        assert (u + v)[..|u|] == u && (u + v)[|u|..] == v;
        assert b[i..i + |u|] == b[i..i + |u + v|][..|u|];
      }
    }
  }

  lemma Uint16Stands(b: Text, i: nat, n: nat)
    requires n <= 0xFFFF
    ensures Stands(b, i, Uint16(n)) <==> i + 2 <= |b| && Uint16At(b, i) == n
  {
    if i + 2 <= |b| { assert b[i..i + 2] == [b[i], b[i + 1]]; }
  }

  /** A nonempty string is read exactly where it stands with its length. */
  lemma StringStands(b: Text, i: nat, t: Text)
    requires 1 <= |t| <= MAX_STRING
    ensures Stands(b, i, String16(t)) <==> StringAt(b, i) == Str(t, i + 2 + |t|)
  {
    StandsParts(b, i, Uint16(|t|), t);
    Uint16Stands(b, i, |t|);
  }

  lemma StringRead(b: Text, i: nat)
    requires StringAt(b, i).text != []
    ensures
      var r := StringAt(b, i);
      1 <= |r.text| <= MAX_STRING && r.next == i + 2 + |r.text| <= |b| && Stands(b, i, String16(r.text))
  {
    StringStands(b, i, StringAt(b, i).text);
  }

  method ReadUint16(b: Text, index: nat) returns (value: nat, next: nat)
    requires index + 2 <= |b|
    ensures value == Uint16At(b, index) && next == index + 2
  {
    var high: int := b[index];
    value := high * 0x100 + b[index + 1];
    next := index + 2;
  }

  method ReadString16(b: Text, index: nat) returns (text: Text, next: nat)
    ensures Str(text, next) == StringAt(b, index)
  {
    text, next := [], index;
    if index + 2 > |b| { return; }
    var n;
    n, next := ReadUint16(b, index);
    if next + n > |b| || n == 0 { return; }
    text := b[next..next + n];
    next := next + n;
  }

  method WriteUint16(buffer: Text, value: nat) returns (out: Text)
    ensures out == buffer + Uint16(value)
  {
    out := buffer + [value / 0x100 % 0x100];
    out := out + [value % 0x100];
  }

  method WriteString16(buffer: Text, value: Text) returns (out: Text)
    ensures out == buffer + String16(value)
  {
    out := WriteUint16(buffer, |value|);
    for i := 0 to |value|
      invariant out == buffer + Uint16(|value|) + value[..i]
    {
      out := out + [value[i]];
    }
    assert value[..|value|] == value;
  }

  // ----- PUBLISH -----

  datatype Publish = Publish(topic: Text, payload: Text, qos: Qos, retain: bool, dup: bool, packetId: nat)

  function Bit(b: bool): nat {
    if b then 1 else 0
  }

  function PublishHeader(p: Publish): byte {
    0x30 + Bit(p.dup) * 8 + p.qos * 2 + Bit(p.retain)
  }

  function PublishBody(p: Publish): Text {
    String16(p.topic) + (if p.qos == AT_MOST_ONCE then [] else Uint16(p.packetId)) + p.payload
  }

  /** The bytes of the packet; the length is written with four bytes at most. */
  function PublishBytes(p: Publish): Text {
    [PublishHeader(p)] + Written(|PublishBody(p)|) + PublishBody(p)
  }

  ghost predicate WellFormed(p: Publish) {
    && |p.topic| <= MAX_STRING && Utf8.Valid(p.topic)
    && (if p.qos == AT_MOST_ONCE then p.packetId == 0 else 1 <= p.packetId <= 0xFFFF)
  }

  /** The buffer begins with this packet: header, length of the body, body. Section 3.3 of MQTT 3.1.1. */
  ghost predicate IsPublish(b: Text, p: Publish) {
    && WellFormed(p) && |b| >= 1 && b[0] % 0x10 == PublishHeader(p) % 0x10
    && var len := Decoded(b, 1);
       len.value == |PublishBody(p)| && Stands(b, len.next, PublishBody(p))
  }

  method SerializePublish(p: Publish) returns (out: Text)
    ensures out == PublishBytes(p)
  {
    out := [PublishHeader(p)];
    var length := 2 + |p.topic|;
    if p.qos != AT_MOST_ONCE { length := length + 2; }
    length := length + |p.payload|;
    var bytes;
    out, bytes := EncodeRemainingLength(out, length);
    out := WriteString16(out, p.topic);
    if p.qos != AT_MOST_ONCE { out := WriteUint16(out, p.packetId); }
    out := out + p.payload;
  }

  /** Reading a PUBLISH, step by step; reads past the buffer count as malformed. */
  /** What stands from `i` to `end`: topic, identifier above QoS 0, payload. */
  ghost function ParseBody(b: Text, i: nat, end: nat, qos: Qos, retain: bool, dup: bool): Option<Publish>
    requires i <= end <= |b|
  {
    var topic := StringAt(b, i);
    if !Utf8.Valid(topic.text) then None
    else if qos > 0 && (topic.next + 2 > |b| || Uint16At(b, topic.next) == 0) then None
    else
      var start := if qos > 0 then topic.next + 2 else topic.next;
      if start > end then None
      else Some(Publish(topic.text, b[start..end], qos, retain, dup,
                        if qos > 0 then Uint16At(b, topic.next) else 0))
  }

  /** What stands behind the first byte. */
  ghost function ParseFields(b: Text, qos: Qos, retain: bool, dup: bool): Option<Publish>
    requires |b| >= 1
  {
    var len := Decoded(b, 1);
    if len.next + len.value > |b| then None
    else ParseBody(b, len.next, len.next + len.value, qos, retain, dup)
  }

  ghost function ParsePublish(b: Text): Option<Publish>
    requires |b| >= 1
  {
    if b[0] / 2 % 4 == 3 then None else ParseFields(b, b[0] / 2 % 4, b[0] % 2 == 1, b[0] / 8 % 2 == 1)
  }

  method DecodeFields(b: Text, qos: Qos, retain: bool, dup: bool) returns (r: Option<Publish>)
    requires |b| >= 1
    ensures r == ParseFields(b, qos, retain, dup)
  {
    var length, index := DecodeRemainingLength(b, 1);
    if index + length > |b| { return None; }
    var start := index;
    var topic;
    topic, index := ReadString16(b, index);
    var valid := Utf8.IsValidUtf8(topic);
    if !valid { return None; }
    var packetId := 0;
    if qos > 0 {
      if index + 2 > |b| { return None; }
      packetId, index := ReadUint16(b, index);
      if packetId == 0 { return None; }
    }
    if index - start > length { return None; }
    return Some(Publish(topic, b[index..start + length], qos, retain, dup, packetId));
  }

  method DecodePublish(b: Text) returns (r: Option<Publish>)
    requires |b| >= 1
    ensures r == ParsePublish(b)
  {
    var qos := b[0] / 2 % 4;
    if qos == 3 { return None; }
    r := DecodeFields(b, qos, b[0] % 2 == 1, b[0] / 8 % 2 == 1);
  }

  lemma LowBits(h: byte)
    ensures h % 0x10 == h / 8 % 2 * 8 + h / 2 % 4 * 2 + h % 2
  {
    var high: int, low: int := h / 0x10, h % 0x10;
    var bit3, rest := low / 8, low % 8;
    var bits12, bit0 := rest / 2, rest % 2;
    assert h == 0x10 * high + 8 * bit3 + 2 * bits12 + bit0;
    assert h / 8 == 2 * high + bit3 && h / 8 % 2 == bit3;
    assert h / 2 == 8 * high + 4 * bit3 + bits12 && h / 2 % 4 == bits12;
    assert h % 2 == bit0;
  }

  lemma SameBits(a: nat, b: nat, c: nat, d: nat, e: nat, f: nat)
    requires a < 2 && b < 4 && c < 2 && d < 2 && e < 4 && f < 2
    ensures a * 8 + b * 2 + c == d * 8 + e * 2 + f <==> a == d && b == e && c == f
  {
  }

  lemma HeaderBits(h: byte, qos: Qos, dup: bool, retain: bool)
    ensures h % 0x10 == (0x30 + Bit(dup) * 8 + qos * 2 + Bit(retain)) % 0x10 <==>
            h / 2 % 4 == qos && (h % 2 == 1 <==> retain) && (h / 8 % 2 == 1 <==> dup)
  {
    LowBits(h);
    SameBits(h / 8 % 2, h / 2 % 4, h % 2, Bit(dup), qos, Bit(retain));
    assert (0x30 + Bit(dup) * 8 + qos * 2 + Bit(retain)) % 0x10 == Bit(dup) * 8 + qos * 2 + Bit(retain);
  }

  /** The three parts of a body, one behind the other. */
  lemma BodyStands(b: Text, i: nat, p: Publish)
    requires WellFormed(p)
    ensures
      var start := i + 2 + |p.topic| + (if p.qos == AT_MOST_ONCE then 0 else 2);
      && |PublishBody(p)| == start - i + |p.payload|
      && (Stands(b, i, PublishBody(p)) <==>
            && StringAt(b, i) == Str(p.topic, i + 2 + |p.topic|)
            && (p.qos > AT_MOST_ONCE ==> i + 4 + |p.topic| <= |b| && Uint16At(b, i + 2 + |p.topic|) == p.packetId)
            && Stands(b, start, p.payload))
  {
    Utf8.EmptyIsInvalid();
    var pid := if p.qos == AT_MOST_ONCE then [] else Uint16(p.packetId);
    StandsParts(b, i, String16(p.topic) + pid, p.payload);
    StandsParts(b, i, String16(p.topic), pid);
    StringStands(b, i, p.topic);
    Uint16Stands(b, i + 2 + |p.topic|, p.packetId);
  }

  /** The fields of the packet stand in the buffer from `i` to `end`. */
  ghost predicate FieldsAt(b: Text, p: Publish, i: nat, end: nat) {
    var start := i + 2 + |p.topic| + (if p.qos == AT_MOST_ONCE then 0 else 2);
    && StringAt(b, i) == Str(p.topic, i + 2 + |p.topic|)
    && (p.qos > AT_MOST_ONCE ==> i + 4 + |p.topic| <= |b| && Uint16At(b, i + 2 + |p.topic|) == p.packetId)
    && start <= end <= |b| && p.payload == b[start..end]
  }

  lemma FieldsFound(b: Text, p: Publish, i: nat, end: nat)
    requires i <= end <= |b| && ParseBody(b, i, end, p.qos, p.retain, p.dup) == Some(p)
    ensures WellFormed(p) && FieldsAt(b, p, i, end)
  {
    Utf8.EmptyIsInvalid();
    StringRead(b, i);
  }

  lemma FieldsAreBody(b: Text, p: Publish, i: nat, end: nat)
    requires WellFormed(p) && FieldsAt(b, p, i, end)
    ensures end - i == |PublishBody(p)| && Stands(b, i, PublishBody(p))
  {
    BodyStands(b, i, p);
  }

  lemma FieldsRead(b: Text, p: Publish)
    requires |b| >= 1 && ParseFields(b, p.qos, p.retain, p.dup) == Some(p)
    ensures WellFormed(p) && Decoded(b, 1).value == |PublishBody(p)| && Stands(b, Decoded(b, 1).next, PublishBody(p))
  {
    var len := Decoded(b, 1);
    FieldsFound(b, p, len.next, len.next + len.value);
    FieldsAreBody(b, p, len.next, len.next + len.value);
  }

  lemma BodyIsParsed(b: Text, p: Publish, i: nat, end: nat)
    requires i <= end <= |b| && WellFormed(p) && end - i == |PublishBody(p)| && Stands(b, i, PublishBody(p))
    ensures ParseBody(b, i, end, p.qos, p.retain, p.dup) == Some(p)
  {
    BodyStands(b, i, p);
  }

  lemma FieldsStand(b: Text, p: Publish)
    requires |b| >= 1 && WellFormed(p)
    requires Decoded(b, 1).value == |PublishBody(p)| && Stands(b, Decoded(b, 1).next, PublishBody(p))
    ensures ParseFields(b, p.qos, p.retain, p.dup) == Some(p)
  {
    var len := Decoded(b, 1);
    BodyIsParsed(b, p, len.next, len.next + len.value);
  }

  lemma ParsedIsPublish(b: Text, p: Publish)
    requires |b| >= 1 && ParsePublish(b) == Some(p)
    ensures IsPublish(b, p)
  {
    HeaderBits(b[0], p.qos, p.dup, p.retain);
    FieldsRead(b, p);
  }

  lemma HeaderFields(h: byte, p: Publish)
    requires h % 0x10 == PublishHeader(p) % 0x10
    ensures h / 2 % 4 == p.qos && (h % 2 == 1) == p.retain && (h / 8 % 2 == 1) == p.dup
  {
    HeaderBits(h, p.qos, p.dup, p.retain);
  }

  lemma HeaderParses(b: Text, p: Publish)
    requires |b| >= 1 && b[0] % 0x10 == PublishHeader(p) % 0x10
    ensures ParsePublish(b) == ParseFields(b, p.qos, p.retain, p.dup)
  {
    HeaderFields(b[0], p);
  }

  lemma PublishIsParsed(b: Text, p: Publish)
    requires |b| >= 1 && IsPublish(b, p)
    ensures ParsePublish(b) == Some(p)
  {
    HeaderParses(b, p);
    FieldsStand(b, p);
  }

  /** The parser accepts exactly the buffers that begin with a PUBLISH, and yields that packet. */
  lemma ParsePublishIff(b: Text, p: Publish)
    requires |b| >= 1
    ensures ParsePublish(b) == Some(p) <==> IsPublish(b, p)
  {
    if ParsePublish(b) == Some(p) { ParsedIsPublish(b, p); }
    if IsPublish(b, p) { PublishIsParsed(b, p); }
  }

  /** What is written is read again, whatever follows: the packet survives the wire. */
  lemma PublishRoundTrip(p: Publish, junk: Text)
    requires WellFormed(p) && |PublishBody(p)| < LIMIT
    ensures ParsePublish(PublishBytes(p) + junk) == Some(p)
  {
    LengthAndBody(PublishHeader(p), PublishBody(p), junk);
    ParsePublishIff(PublishBytes(p) + junk, p);
  }

  /** Behind its first byte a packet starts with its length and then its body. */
  lemma LengthAndBody(first: byte, body: Text, junk: Text)
    requires |body| < LIMIT
    ensures
      var b := [first] + Written(|body|) + body + junk;
      Decoded(b, 1) == Reading(|body|, 1 + |Encoded(|body|)|) && Stands(b, 1 + |Encoded(|body|)|, body)
  {
    var n := |body|;
    var b := [first] + Written(n) + body + junk;
    EncodedSize(n, MAX_BYTES);
    assert b == [first] + (Encoded(n) + (body + junk));
    assert Stands(b, 1, Encoded(n) + (body + junk));
    StandsParts(b, 1, Encoded(n), body + junk);
    RoundTrip(b, 1, n);
    StandsParts(b, 1 + |Encoded(n)|, body, junk);
  }

  // ----- PUBACK, PUBREC, PUBREL, PUBCOMP -----

  const PUBREL: nat := 6

  /** The packet types 4 to 7. */
  datatype Ack = Ack(kind: nat, packetId: nat)

  predicate IsAckKind(kind: nat) {
    4 <= kind <= 7
  }

  /** The fixed first byte of each acknowledgement; only PUBREL has a flag set. */
  function AckByte(kind: nat): byte
    requires kind < 0x10
  {
    if kind == PUBREL then 0x62 else kind * 0x10
  }

  function AckBytes(a: Ack): Text
    requires IsAckKind(a.kind)
  {
    [AckByte(a.kind), 2] + Uint16(a.packetId)
  }

  method SerializeAck(a: Ack) returns (out: Text)
    requires IsAckKind(a.kind)
    ensures out == AckBytes(a)
  {
    if a.kind == PUBREL { out := [0x62]; } else { out := [a.kind * 0x10]; }
    out := out + [2];
    out := WriteUint16(out, a.packetId);
  }

  function ParseAck(b: Text): Option<Ack>
    requires |b| >= 1
  {
    if b[0] % 0x10 != (if b[0] / 0x10 == PUBREL then 2 else 0) then None
    else
      var len := Decoded(b, 1);
      if len.next + len.value > |b| || len.next + 2 > |b| || Uint16At(b, len.next) == 0 then None
      else Some(Ack(b[0] / 0x10, Uint16At(b, len.next)))
  }

  method DecodeAck(b: Text) returns (r: Option<Ack>)
    requires |b| >= 1
    ensures r == ParseAck(b)
  {
    var flags := b[0] % 0x10;
    if b[0] / 0x10 == PUBREL {
      if flags != 2 { return None; }
    } else if flags != 0 {
      return None;
    }
    var length, index := DecodeRemainingLength(b, 1);
    if index + length > |b| || index + 2 > |b| { return None; }
    var packetId;
    packetId, index := ReadUint16(b, index);
    if packetId == 0 { return None; }
    return Some(Ack(b[0] / 0x10, packetId));
  }

  /**
   The first byte of an acknowledgement, a length that does not run past the
   buffer, and behind the length field a nonzero packet identifier.
   */
  ghost predicate BeginsAck(b: Text, a: Ack) {
    && |b| >= 1 && a.kind < 0x10 && b[0] == AckByte(a.kind) && 1 <= a.packetId <= 0xFFFF
    && var len := Decoded(b, 1);
       len.next + len.value <= |b| && Stands(b, len.next, Uint16(a.packetId))
  }

  /** The parser accepts exactly those buffers; the announced length need not be 2. */
  lemma ParseAckIff(b: Text, a: Ack)
    requires |b| >= 1
    ensures ParseAck(b) == Some(a) <==> BeginsAck(b, a)
  {
    var len := Decoded(b, 1);
    if a.packetId <= 0xFFFF { Uint16Stands(b, len.next, a.packetId); }
  }

  /** An accepted buffer begins with the packet of the standard exactly if its length field is the one byte 2. */
  lemma AcceptedAckConformsIff(b: Text, a: Ack)
    requires |b| >= 1 && IsAckKind(a.kind) && ParseAck(b) == Some(a)
    ensures Stands(b, 0, AckBytes(a)) <==> Decoded(b, 1) == Reading(2, 2)
  {
    ParseAckIff(b, a);
    StandsParts(b, 0, [AckByte(a.kind), 2], Uint16(a.packetId));
    assert Decoded(b, 1) == Reading(2, 2) <==> |b| > 1 && b[1] == 2;
    assert Stands(b, 0, [AckByte(a.kind), 2]) <==> |b| > 1 && b[..2] == [AckByte(a.kind), 2];
  }

  /** Not every accepted buffer does: here the announced length is 0. */
  lemma ShortAckIsAccepted()
    ensures ParseAck([0x40, 0, 0, 5]) == Some(Ack(4, 5)) && !Stands([0x40, 0, 0, 5], 0, AckBytes(Ack(4, 5)))
  {
    assert Decoded([0x40, 0, 0, 5], 1) == Reading(0, 2);
    AcceptedAckConformsIff([0x40, 0, 0, 5], Ack(4, 5));
  }

  lemma AckRoundTrip(a: Ack, junk: Text)
    requires IsAckKind(a.kind) && 1 <= a.packetId <= 0xFFFF
    ensures ParseAck(AckBytes(a) + junk) == Some(a)
  {
    var b := AckBytes(a) + junk;
    assert Encoded(2) == [2] == Written(2);
    assert b == [AckByte(a.kind)] + Written(2) + Uint16(a.packetId) + junk;
    LengthAndBody(AckByte(a.kind), Uint16(a.packetId), junk);
    Uint16Stands(b, 2, a.packetId);
  }
}
