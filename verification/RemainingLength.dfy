/**
 The remaining length of a fixed header: seven bits per byte, least significant
 first, the top bit set on all bytes but the last, at most four bytes (section
 2.2.3 of MQTT 3.1.1).
 */
module RemainingLength {
  import opened Bytes
  import opened Model

  const MAX_BYTES: nat := 4

  /** What four bytes can express: 128 to the fourth. */
  const LIMIT: nat := 0x1000_0000

  /** The encoding of a number of any size. */
  function Encoded(n: nat): (s: Text)
    ensures |s| >= 1
  {
    if n < 0x80 then [n] else [0x80 + n % 0x80] + Encoded(n / 0x80)
  }

  /** What the encoder writes: the first four bytes at most. */
  function Written(n: nat): Text {
    if |Encoded(n)| <= MAX_BYTES then Encoded(n) else Encoded(n)[..MAX_BYTES]
  }

  datatype Reading = Reading(value: nat, next: nat)

  /** The number that up to `left` bytes stand for and the index behind them, unless the buffer ends too early. */
  function Digits(buffer: Text, index: nat, left: nat): (r: Option<Reading>)
    ensures r.Some? ==> index <= r.value.next <= index + left && (index <= |buffer| ==> r.value.next <= |buffer|)
    decreases left
  {
    if left == 0 then Some(Reading(0, index))
    else if index >= |buffer| then None
    else if buffer[index] < 0x80 then Some(Reading(buffer[index], index + 1))
    else
      match Digits(buffer, index + 1, left - 1)
      case None => None
      case Some(high) => Some(Reading(buffer[index] - 0x80 + 0x80 * high.value, high.next))
  }

  /** What the decoder yields: 0 and the end of the buffer if the length is cut off. */
  function Decoded(buffer: Text, index: nat): (r: Reading)
    requires index <= |buffer|
    ensures index <= r.next <= |buffer| && r.next <= index + MAX_BYTES
  {
    match Digits(buffer, index, MAX_BYTES)
    case Some(r) => r
    case None => Shortfall(buffer, index, MAX_BYTES); Reading(0, |buffer|)
  }

  lemma {:induction false} Shortfall(buffer: Text, index: nat, left: nat)
    requires index <= |buffer| && Digits(buffer, index, left).None?
    ensures |buffer| < index + left
    decreases left
  {
    if index < |buffer| { Shortfall(buffer, index + 1, left - 1); }
  }

  // ----- Encoder -----

  lemma {:induction false} EncodedSize(n: nat, k: nat)
    requires 1 <= k <= MAX_BYTES
    ensures |Encoded(n)| <= k <==>
            n < (if k == 1 then 0x80 else if k == 2 then 0x4000 else if k == 3 then 0x20_0000 else LIMIT)
    decreases k
  {
    if k > 1 && n >= 0x80 { EncodedSize(n / 0x80, k - 1); }
  }

  /** Writes the length behind the first header byte, and nothing in any other place. */
  method EncodeRemainingLength(buffer: Text, length: nat) returns (out: Text, bytes: nat)
    ensures |buffer| != 1 ==> out == buffer && bytes == 0
    ensures |buffer| == 1 ==> out == buffer + Written(length) && bytes == |Written(length)|
  {
    out, bytes := buffer, 0;
    if |buffer| != 1 { return; }
    var rest := length;
    ghost var written: Text := [];
    while true
      invariant bytes == |written| < MAX_BYTES && out == buffer + written
      invariant written + Encoded(rest) == Encoded(length)
      decreases rest
    {
      var high := rest / 0x80;
      var b: byte := rest % 0x80 + (if high > 0 then 0x80 else 0);
      OneByte(written, rest, b, Encoded(length));
      out, bytes, rest := out + [b], bytes + 1, high;
      written := written + [b];
      if !(rest > 0 && bytes < MAX_BYTES) { break; }
    }
  }

  /** Writing one more byte: either the encoding is complete or the rest of it is still to come. */
  lemma OneByte(written: Text, rest: nat, b: byte, all: Text)
    requires written + Encoded(rest) == all && b == rest % 0x80 + (if rest / 0x80 > 0 then 0x80 else 0)
    ensures rest / 0x80 == 0 ==> written + [b] == all
    ensures rest / 0x80 > 0 ==> (written + [b]) + Encoded(rest / 0x80) == all && rest / 0x80 < rest
  {
    if rest / 0x80 > 0 {
      assert (written + [b]) + Encoded(rest / 0x80) == written + ([b] + Encoded(rest / 0x80));
    }
  }

  // ----- Decoder -----

  function Shifted(low: nat, multiplier: nat, r: Option<Reading>): Option<Reading> {
    if r.None? then None else Some(Reading(low + multiplier * r.value.value, r.value.next))
  }

  lemma ShiftStep(low: nat, multiplier: nat, digit: nat, r: Option<Reading>)
    ensures Shifted(low, multiplier,
                    if r.None? then None else Some(Reading(digit + 0x80 * r.value.value, r.value.next)))
            == Shifted(low + digit * multiplier, multiplier * 0x80, r)
  {
    if r.Some? {
      calc {
        low + multiplier * (digit + 0x80 * r.value.value);
        low + multiplier * digit + multiplier * (0x80 * r.value.value);
        low + digit * multiplier + multiplier * 0x80 * r.value.value;
      }
    }
  }

  lemma DigitStep(buffer: Text, index: nat, left: nat, low: nat, multiplier: nat, low': nat, multiplier': nat)
    requires index < |buffer| && left > 0
    requires low' == low + buffer[index] % 0x80 * multiplier && multiplier' == multiplier * 0x80
    ensures Shifted(low, multiplier, Digits(buffer, index, left)) ==
            if buffer[index] < 0x80 then Some(Reading(low', index + 1))
            else Shifted(low', multiplier', Digits(buffer, index + 1, left - 1))
  {
    if buffer[index] >= 0x80 {
      ShiftStep(low, multiplier, buffer[index] % 0x80, Digits(buffer, index + 1, left - 1));
    }
  }

  method DecodeRemainingLength(buffer: Text, start: nat) returns (length: nat, index: nat)
    requires start <= |buffer|
    ensures Reading(length, index) == Decoded(buffer, start)
  {
    length, index := 0, start;
    var multiplier: nat := 1;
    ghost var result := Digits(buffer, start, MAX_BYTES);
    for i := 0 to MAX_BYTES
      invariant start <= index <= |buffer|
      invariant Shifted(length, multiplier, Digits(buffer, index, MAX_BYTES - i)) == result
    {
      if index >= |buffer| { return 0, |buffer|; }
      var b: int := buffer[index];
      var next: nat, factor: nat := length + b % 0x80 * multiplier, multiplier * 0x80;
      DigitStep(buffer, index, MAX_BYTES - i, length, multiplier, next, factor);
      index, length, multiplier := index + 1, next, factor;
      if b < 0x80 { return; }
    }
  }

  // ----- Round trip -----

  /** The bytes `w` stand at position `i`. */
  ghost predicate Stands(buffer: Text, i: nat, w: Text) {
    i + |w| <= |buffer| && buffer[i..i + |w|] == w
  }

  lemma {:induction false} DigitsOfEncoded(buffer: Text, index: nat, n: nat, left: nat)
    requires Stands(buffer, index, Encoded(n)) && |Encoded(n)| <= left
    ensures Digits(buffer, index, left) == Some(Reading(n, index + |Encoded(n)|))
    decreases left
  {
    var w := Encoded(n);
    assert buffer[index] == buffer[index..index + |w|][0] == w[0];
    if n >= 0x80 {
      var rest := Encoded(n / 0x80);
      assert w[1..] == rest;
      assert buffer[index + 1..index + 1 + |rest|] == buffer[index..index + |w|][1..];
      DigitsOfEncoded(buffer, index + 1, n / 0x80, left - 1);
    }
  }

  /**
   Wherever an encoding stands and whatever follows it, decoding gives back the
   number and moves on by exactly the bytes written, one to four of them.
   */
  lemma RoundTrip(buffer: Text, index: nat, n: nat)
    requires n < LIMIT && Stands(buffer, index, Encoded(n))
    ensures Decoded(buffer, index) == Reading(n, index + |Encoded(n)|) && 1 <= |Encoded(n)| <= MAX_BYTES
  {
    EncodedSize(n, MAX_BYTES);
    DigitsOfEncoded(buffer, index, n, MAX_BYTES);
  }

  /** No shorter string of bytes decodes to the same number. */
  lemma {:induction false} Minimal(buffer: Text, index: nat, left: nat)
    requires Digits(buffer, index, left).Some? && left >= 1
    ensures |Encoded(Digits(buffer, index, left).value.value)| <= Digits(buffer, index, left).value.next - index
    decreases left
  {
    if index < |buffer| && buffer[index] >= 0x80 {
      var high := Digits(buffer, index + 1, left - 1).value;
      if left > 1 {
        Minimal(buffer, index + 1, left - 1);
        var n := buffer[index] - 0x80 + 0x80 * high.value;
        assert n / 0x80 == high.value;
        if high.value == 0 { assert |Encoded(n)| == 1; }
      }
    }
  }

  /** A number has a four-byte encoding exactly up to the limit; a larger one does not survive. */
  lemma SurvivesIff(n: nat)
    ensures n < LIMIT <==> Decoded([0] + Written(n), 1).value == n
  {
    EncodedSize(n, MAX_BYTES);
    var w := Written(n);
    if n < LIMIT {
      assert w == Encoded(n);
      assert ([0] + w)[1..1 + |w|] == w;
      RoundTrip([0] + w, 1, n);
    } else {
      DigitsBelow([0] + w, 1, MAX_BYTES);
    }
  }

  lemma {:induction false} DigitsBelow(buffer: Text, index: nat, left: nat)
    requires left <= MAX_BYTES
    ensures Digits(buffer, index, left).Some? ==>
              Digits(buffer, index, left).value.value <
                (if left == 0 then 1 else if left == 1 then 0x80 else if left == 2 then 0x4000
                 else if left == 3 then 0x20_0000 else LIMIT)
    decreases left
  {
    if left > 0 { DigitsBelow(buffer, index + 1, left - 1); }
  }
}
