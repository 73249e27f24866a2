/**
 From packets to bytes and back, through the stream: whatever list of packets is
 sent, and however its bytes arrive, the same list is decoded.
 */
module Wire {
  import opened Bytes
  import opened Model
  import opened RemainingLength
  import opened Framing
  import C = Codec
  import F = FilterCodec
  import P = PrefixCode

  datatype Packet =
    | Publish(publish: C.Publish)
    | Acknowledge(ack: C.Ack)
    | Subscribe(filters: F.Filters)
    | Unsubscribe(filters: F.Filters)

  /** Within the ranges of the standard, and not longer than the broker admits. */
  ghost predicate Sendable(p: Packet, maxPacketSize: nat) {
    && Packable(p) && |Pack(p)| <= maxPacketSize
    && match p
       case Publish(q) => C.WellFormed(q)
       case Acknowledge(a) => 1 <= a.packetId <= 0xFFFF
       case Subscribe(f) =>
         f.packetId <= 0xFFFF && F.AllUtf8(f.entries) && forall e :: e in f.entries ==> F.Fits(e, true)
       case Unsubscribe(f) =>
         f.packetId <= 0xFFFF && F.AllUtf8(f.entries) && forall e :: e in f.entries ==> F.Fits(e, false)
  }

  /** The length field can say how long the packet is. */
  predicate Packable(p: Packet) {
    match p
    case Publish(q) => |C.PublishBody(q)| < LIMIT
    case Acknowledge(a) => C.IsAckKind(a.kind)
    case Subscribe(f) => |F.FiltersBody(f, true)| < LIMIT
    case Unsubscribe(f) => |F.FiltersBody(f, false)| < LIMIT
  }

  function Pack(p: Packet): Text
    requires Packable(p)
  {
    match p
    case Publish(q) => C.PublishBytes(q)
    case Acknowledge(a) => C.AckBytes(a)
    case Subscribe(f) => F.FiltersBytes(f, true)
    case Unsubscribe(f) => F.FiltersBytes(f, false)
  }

  /** Decoding by packet type, after a look at the size of the buffer. */
  ghost function Parse(b: Text, maxPacketSize: nat): Option<Packet> {
    if |b| < 2 || |b| > maxPacketSize then None
    else
      var kind := b[0] / 0x10;
      if kind == 3 then
        var p := C.ParsePublish(b);
        if p.Some? then Some(Publish(p.value)) else None
      else if C.IsAckKind(kind) then
        var a := C.ParseAck(b);
        if a.Some? then Some(Acknowledge(a.value)) else None
      else if kind == 8 then
        var f := F.ParseFilters(b, true);
        if f.Some? then Some(Subscribe(f.value)) else None
      else if kind == 0xA then
        var f := F.ParseFilters(b, false);
        if f.Some? then Some(Unsubscribe(f.value)) else None
      else None
  }

  method Decode(b: Text, maxPacketSize: nat) returns (r: Option<Packet>)
    ensures r == Parse(b, maxPacketSize)
  {
    if |b| < 2 || |b| > maxPacketSize { return None; }
    var kind := b[0] / 0x10;
    if kind == 3 {
      var p := C.DecodePublish(b);
      if p.Some? { return Some(Publish(p.value)); }
    } else if C.IsAckKind(kind) {
      var a := C.DecodeAck(b);
      if a.Some? { return Some(Acknowledge(a.value)); }
    } else if kind == 8 {
      var f := F.DecodeFilters(b, true);
      if f.Some? { return Some(Subscribe(f.value)); }
    } else if kind == 0xA {
      var f := F.DecodeFilters(b, false);
      if f.Some? { return Some(Unsubscribe(f.value)); }
    }
    return None;
  }

  lemma PublishSurvives(q: C.Publish, junk: Text, maxPacketSize: nat)
    requires C.WellFormed(q) && |C.PublishBody(q)| < LIMIT && |C.PublishBytes(q)| + |junk| <= maxPacketSize
    ensures Parse(C.PublishBytes(q) + junk, maxPacketSize) == Some(Publish(q))
  {
    C.PublishRoundTrip(q, junk);
    assert (C.PublishBytes(q) + junk)[0] == C.PublishHeader(q);
    assert C.PublishHeader(q) / 0x10 == 3;
  }

  lemma AckSurvives(a: C.Ack, junk: Text, maxPacketSize: nat)
    requires C.IsAckKind(a.kind) && 1 <= a.packetId <= 0xFFFF && |C.AckBytes(a)| + |junk| <= maxPacketSize
    ensures Parse(C.AckBytes(a) + junk, maxPacketSize) == Some(Acknowledge(a))
  {
    C.AckRoundTrip(a, junk);
    assert C.AckByte(a.kind) / 0x10 == a.kind;
  }

  lemma ByFirstByte(b: Text, f: F.Filters, withQos: bool, maxPacketSize: nat)
    requires 2 <= |b| <= maxPacketSize && b[0] == F.FirstByte(withQos) && F.ParseFilters(b, withQos) == Some(f)
    ensures Parse(b, maxPacketSize) == Some(if withQos then Subscribe(f) else Unsubscribe(f))
  {
  }

  lemma FiltersSurvive(f: F.Filters, withQos: bool, junk: Text, maxPacketSize: nat)
    requires f.packetId <= 0xFFFF && F.AllUtf8(f.entries) && (forall e :: e in f.entries ==> F.Fits(e, withQos))
    requires |F.FiltersBody(f, withQos)| < LIMIT && |F.FiltersBytes(f, withQos)| + |junk| <= maxPacketSize
    ensures Parse(F.FiltersBytes(f, withQos) + junk, maxPacketSize) ==
            Some(if withQos then Subscribe(f) else Unsubscribe(f))
  {
    F.FiltersRoundTrip(f, withQos, junk);
    ByFirstByte(F.FiltersBytes(f, withQos) + junk, f, withQos, maxPacketSize);
  }

  /** Each kind of packet survives, whatever stands behind it in the buffer. */
  lemma Survives(p: Packet, junk: Text, maxPacketSize: nat)
    requires Sendable(p, maxPacketSize) && |Pack(p)| + |junk| <= maxPacketSize
    ensures Parse(Pack(p) + junk, maxPacketSize) == Some(p)
  {
    match p
    case Publish(q) => PublishSurvives(q, junk, maxPacketSize);
    case Acknowledge(a) => AckSurvives(a, junk, maxPacketSize);
    case Subscribe(f) => FiltersSurvive(f, true, junk, maxPacketSize);
    case Unsubscribe(f) => FiltersSurvive(f, false, junk, maxPacketSize);
  }

  // ----- Packets are frames -----

  lemma {:induction false} EncodedShape(n: nat)
    ensures forall i :: 0 <= i < |Encoded(n)| - 1 ==> Encoded(n)[i] >= 0x80
    ensures Encoded(n)[|Encoded(n)| - 1] < 0x80
  {
    if n >= 0x80 { EncodedShape(n / 0x80); }
  }

  lemma LengthAndBodyAreAFrame(first: byte, body: Text)
    requires |body| < LIMIT
    ensures IsFrame([first] + Written(|body|) + body)
  {
    var e := Encoded(|body|);
    var w := [first] + Written(|body|) + body;
    EncodedShape(|body|);
    EncodedSize(|body|, MAX_BYTES);
    C.LengthAndBody(first, body, []);
    assert w + [] == w;
    assert forall i :: 0 <= i < |e| ==> w[i + 1] == e[i];
    var end := 1 + |e|;
    forall i | 1 <= i < end - 1 ensures w[i] >= 0x80 { assert w[i] == e[i - 1]; }
    assert w[end - 1] == e[|e| - 1];
    assert LengthEnds(w, end);
  }

  lemma FrameOf(p: Packet)
    requires Packable(p)
    ensures IsFrame(Pack(p)) && |Pack(p)| >= 2
  {
    match p
    case Publish(q) => LengthAndBodyAreAFrame(C.PublishHeader(q), C.PublishBody(q));
    case Acknowledge(a) =>
      assert Encoded(2) == [2];
      assert C.AckBytes(a) == [C.AckByte(a.kind)] + Written(2) + C.Uint16(a.packetId);
      LengthAndBodyAreAFrame(C.AckByte(a.kind), C.Uint16(a.packetId));
    case Subscribe(f) => LengthAndBodyAreAFrame(F.FirstByte(true), F.FiltersBody(f, true));
    case Unsubscribe(f) => LengthAndBodyAreAFrame(F.FirstByte(false), F.FiltersBody(f, false));
  }

  // ----- Whole streams -----

  ghost predicate AllSendable(ps: seq<Packet>, maxPacketSize: nat) {
    forall i :: 0 <= i < |ps| ==> Sendable(ps[i], maxPacketSize)
  }

  function Packed(ps: seq<Packet>): (ws: seq<Text>)
    requires forall i :: 0 <= i < |ps| ==> Packable(ps[i])
    ensures |ws| == |ps| && forall i :: 0 <= i < |ps| ==> ws[i] == Pack(ps[i])
  {
    seq(|ps|, i requires 0 <= i < |ps| => Pack(ps[i]))
  }

  lemma PackedAreFrames(ps: seq<Packet>)
    requires forall i :: 0 <= i < |ps| ==> Packable(ps[i])
    ensures Frames(Packed(ps))
  {
    forall w | w in Packed(ps) ensures IsFrame(w) {
      var i :| 0 <= i < |ps| && w == Packed(ps)[i];
      FrameOf(ps[i]);
    }
  }

  lemma BufferDecodes(b: Text, p: Packet, maxPacketSize: nat)
    requires Sendable(p, maxPacketSize) && Pack(p) <= b
    ensures Parse(b, maxPacketSize) == if |b| > maxPacketSize then None else Some(p)
  {
    var junk := b[|Pack(p)|..];
    assert b == Pack(p) + junk;
    if |b| <= maxPacketSize { Survives(p, junk, maxPacketSize); }
  }

  lemma HandedDecodes(handed: seq<Text>, ps: seq<Packet>, bufferSize: nat, maxPacketSize: nat, i: nat)
    requires AllSendable(ps, maxPacketSize) && Holds(handed, Packed(ps), bufferSize) && i < |ps|
    ensures Parse(handed[i], maxPacketSize) == if i == 0 && bufferSize > maxPacketSize then None else Some(ps[i])
  {
    assert Packed(ps)[i] == Pack(ps[i]);
    BufferDecodes(handed[i], ps[i], maxPacketSize);
  }

  /**
   A stream of packets, received in reads of any sizes, is decoded to the packets
   that were sent, unless the buffer is configured larger than the largest packet
   admitted: then the first packet is refused, which ends the channel.
   */
  method Receive(input: Text, sizes: seq<nat>, bufferSize: nat, maxPacketSize: nat)
    returns (received: seq<Option<Packet>>)
    ensures forall ps :: AllSendable(ps, maxPacketSize) && P.Flat(Packed(ps)) == input ==>
              if ps == [] || bufferSize <= maxPacketSize then
                |received| == |ps| && forall i :: 0 <= i < |ps| ==> received[i] == Some(ps[i])
              else received == [None]
  {
    var handed := Cut(input, sizes, bufferSize);
    received := [];
    var closed := false;
    while |received| < |handed| && !closed
      invariant |received| <= |handed|
      invariant forall i :: 0 <= i < |received| ==> received[i] == Parse(handed[i], maxPacketSize)
      invariant forall i :: 0 <= i < |received| ==> received[i].None? ==> closed && i == |received| - 1
      invariant closed ==> received != [] && received[|received| - 1].None?
      decreases |handed| - |received|
    {
      var r := Decode(handed[|received|], maxPacketSize);
      received, closed := received + [r], r.None?;
    }
    forall ps | AllSendable(ps, maxPacketSize) && P.Flat(Packed(ps)) == input
      ensures if ps == [] || bufferSize <= maxPacketSize then
                |received| == |ps| && forall i :: 0 <= i < |ps| ==> received[i] == Some(ps[i])
              else received == [None]
    {
      PackedAreFrames(ps);
      DecodedAll(handed, received, closed, ps, bufferSize, maxPacketSize);
    }
  }

  /** Decoding up to the first failure. */
  lemma DecodedAll(handed: seq<Text>, received: seq<Option<Packet>>, closed: bool, ps: seq<Packet>, bufferSize: nat,
                   maxPacketSize: nat)
    requires AllSendable(ps, maxPacketSize) && Holds(handed, Packed(ps), bufferSize)
    requires |received| <= |handed| && (closed || |received| == |handed|)
    requires forall i :: 0 <= i < |received| ==> received[i] == Parse(handed[i], maxPacketSize)
    requires forall i :: 0 <= i < |received| ==> received[i].None? ==> closed && i == |received| - 1
    requires closed ==> received != [] && received[|received| - 1].None?
    ensures if ps == [] || bufferSize <= maxPacketSize then
              |received| == |ps| && forall i :: 0 <= i < |ps| ==> received[i] == Some(ps[i])
            else received == [None]
  {
    forall i | 0 <= i < |ps|
      ensures Parse(handed[i], maxPacketSize) == if i == 0 && bufferSize > maxPacketSize then None else Some(ps[i])
    {
      HandedDecodes(handed, ps, bufferSize, maxPacketSize, i);
    }
    if ps != [] && bufferSize > maxPacketSize {
      assert received[0] == Parse(handed[0], maxPacketSize) == None;
      assert |received| == 1;
    } else {
      forall i | 0 <= i < |received| ensures received[i] == Some(ps[i]) {
        assert received[i] == Parse(handed[i], maxPacketSize);
      }
      assert !closed;
    }
  }
}
