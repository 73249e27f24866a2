/**
 Cutting the incoming byte stream into packets. The transport reads as many
 bytes as happen to arrive, up to what the channel has asked for; the channel
 asks for two bytes, then for further length bytes one by one, then for the
 rest. However the bytes arrive, the packets handed on are the ones sent.
 */
module Framing {
  import opened Bytes
  import opened Model
  import opened RemainingLength
  import P = PrefixCode

  // ----- Frames -----

  /** The length field of a packet ends at `end`: all its bytes but the last have the top bit. */
  predicate LengthEnds(w: Text, end: nat) {
    2 <= end <= |w| && w[end - 1] < 0x80 && forall i :: 1 <= i < end - 1 ==> w[i] >= 0x80
  }

  /** A packet as far as cutting goes: its size is what its length field says. */
  ghost predicate IsFrame(w: Text) {
    exists end: nat :: LengthEnds(w, end) && |w| == end + Decoded(w, 1).value
  }

  /** The beginning of a packet that cannot be a whole one yet. */
  ghost predicate Incomplete(p: Text) {
    forall end: nat :: LengthEnds(p, end) ==> |p| < end + Decoded(p, 1).value
  }

  lemma {:induction false} DigitsAgree(a: Text, b: Text, i: nat, left: nat, end: nat)
    requires a <= b && LengthEnds(a, end) && 1 <= i < end
    ensures Digits(a, i, left) == Digits(b, i, left) && Digits(a, i, left).Some?
    decreases left
  {
    if left > 0 && a[i] >= 0x80 {
      assert i < end - 1;
      DigitsAgree(a, b, i + 1, left - 1, end);
    }
  }

  /** Nothing behind the length field matters for the length. */
  lemma LengthAgrees(a: Text, b: Text, end: nat)
    requires a <= b && LengthEnds(a, end)
    ensures LengthEnds(b, end) && Decoded(a, 1).value == Decoded(b, 1).value
  {
    DigitsAgree(a, b, 1, MAX_BYTES, end);
  }

  lemma OneEnd(w: Text, e: nat, f: nat)
    requires LengthEnds(w, e) && LengthEnds(w, f)
    ensures e == f
  {
  }

  /** No packet is the beginning of another one. */
  lemma FramesApart(v: Text, w: Text)
    requires IsFrame(v) && IsFrame(w)
    ensures P.Apart(v, w) && v != []
  {
    var e: nat :| LengthEnds(v, e) && |v| == e + Decoded(v, 1).value;
    var f: nat :| LengthEnds(w, f) && |w| == f + Decoded(w, 1).value;
    if v <= w {
      LengthAgrees(v, w, e);
      OneEnd(w, e, f);
    } else if w <= v {
      LengthAgrees(w, v, f);
      OneEnd(v, e, f);
    }
  }

  /** An incomplete packet has no whole one at its beginning. */
  lemma NoFrameInside(p: Text, w: Text)
    requires Incomplete(p) && IsFrame(w)
    ensures !(w <= p)
  {
    if w <= p {
      var e: nat :| LengthEnds(w, e) && |w| == e + Decoded(w, 1).value;
      LengthAgrees(w, p, e);
    }
  }

  ghost predicate Frames(ws: seq<Text>) {
    forall w :: w in ws ==> IsFrame(w)
  }

  lemma FramesArePrefixFree(a: seq<Text>, b: seq<Text>)
    requires Frames(a) && Frames(b)
    ensures P.PrefixFree(a, b) && P.NonEmpty(a) && P.NonEmpty(b)
  {
    forall v, w | v in a && w in b ensures P.Apart(v, w) { FramesApart(v, w); }
    forall i | 0 <= i < |a| ensures a[i] != [] { FramesApart(a[i], a[i]); }
    forall i | 0 <= i < |b| ensures b[i] != [] { FramesApart(b[i], b[i]); }
  }

  /** Whole packets and an incomplete one behind them are one reading of the stream, and the only one. */
  lemma OnlyCut(got: seq<Text>, partial: Text, sent: seq<Text>)
    requires Frames(got) && Frames(sent) && Incomplete(partial) && P.Flat(got) + partial == P.Flat(sent)
    ensures got == sent && partial == []
  {
    var s := P.Flat(sent);
    FramesArePrefixFree(got, sent);
    FramesArePrefixFree(sent, got);
    if |P.Flat(got)| < |s| {
      P.NextWord(s, got, sent);
      var w := sent[|got|];
      assert s[|P.Flat(got)|..] == partial;
      assert w == partial[..|w|];
      NoFrameInside(partial, w);
    } else {
      assert P.Flat(got) == s;
      P.UniqueReading(got, sent);
    }
  }

  // ----- The reader -----

  /** What the channel is waiting for. */
  datatype Phase = Head | Length | Payload

  function Zeros(n: nat): (z: Text)
    ensures |z| == n
  {
    seq(n, _ => 0)
  }

  /** The bytes of the current packet read so far fit the phase and what is asked for. */
  ghost predicate InPhase(phase: Phase, read: Text, want: nat) {
    match phase
    case Head => want == 2
    case Length => 2 <= |read| && want == |read| + 1 && forall i :: 1 <= i < |read| ==> read[i] >= 0x80
    case Payload => exists end: nat :: LengthEnds(read, end) && want == end + Decoded(read, 1).value
  }

  /** While a read is outstanding the packet is incomplete. */
  lemma WaitingIsIncomplete(phase: Phase, read: Text, want: nat)
    requires InPhase(phase, read, want) && |read| < want
    ensures Incomplete(read)
  {
    if phase == Payload {
      var e: nat :| LengthEnds(read, e) && want == e + Decoded(read, 1).value;
      forall f: nat | LengthEnds(read, f) ensures |read| < f + Decoded(read, 1).value { OneEnd(read, e, f); }
    }
  }

  lemma ReadingOn(read: Text, more: Text, want: nat)
    requires InPhase(Payload, read, want)
    ensures InPhase(Payload, read + more, want)
  {
    var e: nat :| LengthEnds(read, e) && want == e + Decoded(read, 1).value;
    LengthAgrees(read, read + more, e);
  }

  function Larger(a: nat, b: nat): nat {
    if a < b then b else a
  }

  /** Each buffer handed on is a packet; only the first one is longer, if its initial size is. */
  ghost predicate Holds(handed: seq<Text>, packets: seq<Text>, initial: nat) {
    && |handed| == |packets|
    && forall i :: 0 <= i < |handed| ==>
         if i > 0 then handed[i] == packets[i]
         else packets[0] <= handed[0] && |handed[0]| == Larger(initial, |packets[0]|)
  }

  lemma HoldsOneMore(handed: seq<Text>, packets: seq<Text>, initial: nat, buffer: Text, have: nat)
    requires Holds(handed, packets, initial) && have <= |buffer|
    requires |buffer| == if packets == [] then Larger(initial, have) else have
    ensures Holds(handed + [buffer], packets + [buffer[..have]], initial)
  {
    if packets != [] { assert buffer[..have] == buffer; }
  }

  class Reader {
    /** The configured size of the buffer before the first packet. */
    const initial: nat

    var buffer: Text
    var have: nat
    var want: nat
    var phase: Phase
    var handed: seq<Text>

    /** The packets in the buffers handed on, and all bytes read so far. */
    ghost var packets: seq<Text>
    ghost var consumed: Text

    /** Every byte read is in a packet handed on or in the buffer. */
    ghost predicate Kept()
      reads this
    {
      && have <= want && |buffer| == (if packets == [] then Larger(initial, want) else want)
      && Frames(packets) && consumed == P.Flat(packets) + buffer[..have] && Holds(handed, packets, initial)
    }

    ghost predicate Valid()
      reads this
    {
      Kept() && have < want && InPhase(phase, buffer[..have], want)
    }

    constructor (size: nat)
      ensures Valid() && consumed == [] && handed == [] && initial == size
    {
      initial := size;
      buffer, have, want, phase, handed := Zeros(size), 0, 0, Head, [];
      packets, consumed := [], [];
      new;
      Request(Head, 2);
    }

    /** Makes room up to the end of the next read. */
    method Request(next: Phase, end: nat)
      requires Kept() && want <= end
      modifies this`buffer, this`want, this`phase
      ensures Kept() && want == end && phase == next && buffer[..have] == old(buffer[..have])
    {
      if |buffer| < end { buffer := buffer + Zeros(end - |buffer|); }
      assert buffer[..have] == old(buffer[..have]);
      want, phase := end, next;
    }

    /** Hands the buffer to the decoder and starts over. */
    method HandOn()
      requires Kept() && have == want && InPhase(Payload, buffer[..have], want)
      modifies this
      ensures Valid() && consumed == old(consumed)
    {
      ghost var packet := buffer[..have];
      assert IsFrame(packet);
      P.FlatSnoc(packets, packet);
      HoldsOneMore(handed, packets, initial, buffer, have);
      handed, packets := handed + [buffer], packets + [packet];
      buffer, have, want := [], 0, 0;
      Request(Head, 2);
    }

    method ReadPayload(size: nat)
      requires Kept() && have == want && LengthEnds(buffer[..have], have) && size == Decoded(buffer[..have], 1).value
      modifies this
      ensures Valid() && consumed == old(consumed)
    {
      Request(Payload, have + size);
      if have == want { HandOn(); }
    }

    /** The length goes on while its last byte has the top bit. */
    method ReadLength()
      requires Kept() && have == want && have >= 2
      requires forall i :: 1 <= i < have - 1 ==> buffer[i] >= 0x80
      modifies this
      ensures Valid() && consumed == old(consumed)
    {
      if buffer[have - 1] >= 0x80 {
        Request(Length, have + 1);
      } else {
        assert LengthEnds(buffer[..have], have);
        LengthAgrees(buffer[..have], buffer, have);
        var size, _ := DecodeRemainingLength(buffer, 1);
        ReadPayload(size);
      }
    }

    method Store(bytes: Text)
      requires Kept() && |bytes| <= want - have
      modifies this`buffer, this`have, this`consumed
      ensures Kept() && have == old(have) + |bytes| && consumed == old(consumed) + bytes
      ensures buffer[..have] == old(buffer[..have]) + bytes
    {
      ghost var read := buffer[..have];
      buffer := buffer[..have] + bytes + buffer[have + |bytes|..];
      have := have + |bytes|;
      consumed := consumed + bytes;
      assert buffer[..have] == read + bytes;
    }

    /** Some of the bytes asked for have arrived. */
    method OnRead(bytes: Text)
      requires Valid() && 1 <= |bytes| <= want - have
      modifies this
      ensures Valid() && consumed == old(consumed) + bytes
    {
      ghost var read := buffer[..have];
      if phase == Payload { ReadingOn(read, bytes, want); }
      Store(bytes);
      if have >= want {
        if phase == Payload {
          HandOn();
        } else {
          assert forall i :: 1 <= i < have - 1 ==> buffer[i] == (read + bytes)[i];
          ReadLength();
        }
      }
    }
  }

  // ----- Streams -----

  /** Once all bytes of a list of packets have been read, exactly these packets have been handed on. */
  method Cut(input: Text, sizes: seq<nat>, bufferSize: nat) returns (handed: seq<Text>)
    ensures forall sent :: Frames(sent) && P.Flat(sent) == input ==> Holds(handed, sent, bufferSize)
  {
    var reader := new Reader(bufferSize);
    var pos, k := 0, 0;
    while pos < |input|
      invariant pos <= |input| && reader.Valid() && reader.consumed == input[..pos]
      invariant fresh(reader) && reader.initial == bufferSize
    {
      var size := if k < |sizes| && sizes[k] > 0 then sizes[k] else 1;
      if size > reader.want - reader.have { size := reader.want - reader.have; }
      if size > |input| - pos { size := |input| - pos; }
      reader.OnRead(input[pos..pos + size]);
      assert input[..pos + size] == input[..pos] + input[pos..pos + size];
      pos, k := pos + size, k + 1;
    }
    assert input[..pos] == input;
    handed := reader.handed;
    forall sent | Frames(sent) && P.Flat(sent) == input ensures Holds(handed, sent, bufferSize) {
      WaitingIsIncomplete(reader.phase, reader.buffer[..reader.have], reader.want);
      OnlyCut(reader.packets, reader.buffer[..reader.have], sent);
    }
  }
}
