/**
 UTF-8 validation: a byte string is accepted exactly when it is the encoding,
 as section 3 of RFC 3629 defines it, of some nonempty sequence of Unicode
 scalar values. There is then only one such sequence.
 */
module Utf8 {
  import opened Bytes
  import P = PrefixCode

  predicate Scalar(cp: int) {
    0 <= cp <= 0x10FFFF && !(0xD800 <= cp <= 0xDFFF)
  }

  /** The low six bits and what is above them. */
  function Low(x: nat): nat {
    x % 0x40
  }

  function High(x: nat): nat {
    x / 0x40
  }

  function Encode(cp: int): (s: Text)
    requires Scalar(cp)
    ensures 1 <= |s| <= 4
  {
    if cp < 0x80 then [cp]
    else if cp < 0x800 then [0xC0 + High(cp), 0x80 + Low(cp)]
    else if cp < 0x1_0000 then [0xE0 + High(High(cp)), 0x80 + Low(High(cp)), 0x80 + Low(cp)]
    else [0xF0 + High(High(High(cp))), 0x80 + Low(High(High(cp))), 0x80 + Low(High(cp)), 0x80 + Low(cp)]
  }

  predicate Scalars(cps: seq<int>) {
    forall i :: 0 <= i < |cps| ==> Scalar(cps[i])
  }

  function Words(cps: seq<int>): (ws: seq<Text>)
    requires Scalars(cps)
    ensures |ws| == |cps| && forall i :: 0 <= i < |cps| ==> ws[i] == Encode(cps[i])
  {
    if cps == [] then [] else Words(cps[..|cps| - 1]) + [Encode(cps[|cps| - 1])]
  }

  /** The string is the encoding of this sequence of scalar values. */
  ghost predicate Encodes(s: Text, cps: seq<int>) {
    Scalars(cps) && P.Flat(Words(cps)) == s
  }

  ghost predicate Valid(s: Text) {
    exists cps :: cps != [] && Encodes(s, cps)
  }

  lemma EmptyIsInvalid()
    ensures !Valid([])
  {
    EmptyEncodesNothing();
  }

  // ----- Reading one scalar value -----

  /** The encoding of this scalar value stands at position `i`. */
  ghost predicate At(s: Text, i: nat, cp: int) {
    Scalar(cp) && i + |Encode(cp)| <= |s| && s[i..i + |Encode(cp)|] == Encode(cp)
  }

  /** How many bytes a lead byte announces; 0 if it is not a lead byte. */
  function Announced(lead: byte): (n: nat)
    ensures n <= 4
  {
    if lead < 0x80 then 1
    else if lead / 0x20 == 6 then 2
    else if lead / 0x10 == 0xE then 3
    else if lead / 8 == 0x1E then 4
    else 0
  }

  function LeadBits(lead: byte): nat {
    if lead < 0x80 then lead
    else if lead / 0x20 == 6 then lead % 0x20
    else if lead / 0x10 == 0xE then lead % 0x10
    else lead % 8
  }

  predicate Continues(b: byte) {
    b / 0x40 == 2
  }

  /** The lead bits followed by the six low bits of each further byte. */
  function Value(s: Text, i: nat, n: nat): nat
    requires 1 <= n && i + n <= |s|
  {
    if n == 1 then LeadBits(s[i]) else Value(s, i, n - 1) * 0x40 + s[i + n - 1] % 0x40
  }

  /** Not overlong, not a surrogate, not beyond the last scalar value. */
  predicate Acceptable(cp: nat, n: nat) {
    && !(n == 2 && cp < 0x80) && !(n == 3 && cp < 0x800) && !(n == 4 && cp < 0x1_0000)
    && !(0xD800 <= cp <= 0xDFFF) && cp <= 0x10FFFF
  }

  predicate Readable(s: Text, i: nat, n: nat)
    requires i < |s|
  {
    && n == Announced(s[i]) && 1 <= n && i + n <= |s|
    && (forall k :: i < k < i + n ==> Continues(s[k]))
    && Acceptable(Value(s, i, n), n)
  }

  lemma HighLow(a: nat, b: nat)
    requires b < 0x40
    ensures High(a * 0x40 + b) == a && Low(a * 0x40 + b) == b
  {
  }

  lemma Recombined(x: nat)
    ensures High(x) * 0x40 + Low(x) == x && Low(x) < 0x40
  {
  }

  lemma ValueSteps(s: Text, i: nat, n: nat)
    requires 1 <= n <= 4 && i + n <= |s|
    ensures Value(s, i, 1) == LeadBits(s[i])
    ensures n >= 2 ==> Value(s, i, 2) == Value(s, i, 1) * 0x40 + s[i + 1] % 0x40
    ensures n >= 3 ==> Value(s, i, 3) == Value(s, i, 2) * 0x40 + s[i + 2] % 0x40
    ensures n == 4 ==> Value(s, i, 4) == Value(s, i, 3) * 0x40 + s[i + 3] % 0x40
  {
  }

  lemma ContinuationByte(b: byte)
    requires Continues(b)
    ensures b == 0x80 + b % 0x40
  {
  }

  lemma LeadByte(lead: byte, n: nat)
    requires n == Announced(lead) && 1 <= n
    ensures n == 1 ==> lead == LeadBits(lead) < 0x80
    ensures n == 2 ==> lead == 0xC0 + LeadBits(lead) && LeadBits(lead) < 0x20
    ensures n == 3 ==> lead == 0xE0 + LeadBits(lead) && LeadBits(lead) < 0x10
    ensures n == 4 ==> lead == 0xF0 + LeadBits(lead) && LeadBits(lead) < 8
  {
  }

  /** Two, three and four bytes that pass the tests are an encoding. */
  lemma Two(lead: byte, b: byte)
    requires Announced(lead) == 2 && Continues(b) && Acceptable(LeadBits(lead) * 0x40 + b % 0x40, 2)
    ensures Scalar(LeadBits(lead) * 0x40 + b % 0x40) && Encode(LeadBits(lead) * 0x40 + b % 0x40) == [lead, b]
  {
    LeadByte(lead, 2);
    ContinuationByte(b);
    HighLow(LeadBits(lead), b % 0x40);
  }

  lemma Three(lead: byte, b: byte, c: byte, v: nat, cp: nat)
    requires Announced(lead) == 3 && Continues(b) && Continues(c)
    requires v == LeadBits(lead) * 0x40 + b % 0x40 && cp == v * 0x40 + c % 0x40 && Acceptable(cp, 3)
    ensures Scalar(cp) && Encode(cp) == [lead, b, c]
  {
    LeadByte(lead, 3);
    ContinuationByte(b);
    ContinuationByte(c);
    HighLow(LeadBits(lead), b % 0x40);
    HighLow(v, c % 0x40);
  }

  lemma Four(lead: byte, b: byte, c: byte, d: byte, v: nat, w: nat, cp: nat)
    requires Announced(lead) == 4 && Continues(b) && Continues(c) && Continues(d)
    requires v == LeadBits(lead) * 0x40 + b % 0x40 && w == v * 0x40 + c % 0x40
    requires cp == w * 0x40 + d % 0x40 && Acceptable(cp, 4)
    ensures Scalar(cp) && Encode(cp) == [lead, b, c, d]
  {
    LeadByte(lead, 4);
    ContinuationByte(b);
    ContinuationByte(c);
    ContinuationByte(d);
    HighLow(LeadBits(lead), b % 0x40);
    HighLow(v, c % 0x40);
    HighLow(w, d % 0x40);
  }

  /** What the byte tests accept is the encoding of the value they compute. */
  lemma ReadableIsAt(s: Text, i: nat, n: nat)
    requires i < |s| && Readable(s, i, n)
    ensures At(s, i, Value(s, i, n)) && |Encode(Value(s, i, n))| == n
  {
    ValueSteps(s, i, n);
    if n == 1 {
      LeadByte(s[i], 1);
    } else if n == 2 {
      Two(s[i], s[i + 1]);
    } else if n == 3 {
      Three(s[i], s[i + 1], s[i + 2], Value(s, i, 2), Value(s, i, 3));
    } else {
      Four(s[i], s[i + 1], s[i + 2], s[i + 3], Value(s, i, 2), Value(s, i, 3), Value(s, i, 4));
    }
    assert s[i..i + n] == Encode(Value(s, i, n));
  }

  lemma LeadOf(lead: byte)
    ensures lead < 0x80 ==> Announced(lead) == 1 && LeadBits(lead) == lead
    ensures 0xC0 <= lead < 0xE0 ==> Announced(lead) == 2 && LeadBits(lead) == lead - 0xC0
    ensures 0xE0 <= lead < 0xF0 ==> Announced(lead) == 3 && LeadBits(lead) == lead - 0xE0
    ensures 0xF0 <= lead < 0xF8 ==> Announced(lead) == 4 && LeadBits(lead) == lead - 0xF0
  {
  }

  lemma ContinuationOf(low: nat)
    requires low < 0x40
    ensures Continues(0x80 + low) && (0x80 + low) % 0x40 == low
  {
  }

  /** The bytes of an encoding pass the tests. */
  lemma EncodingPasses(cp: int)
    requires Scalar(cp)
    ensures
      var e := Encode(cp);
      && Announced(e[0]) == |e| && Acceptable(cp, |e|)
      && (forall k :: 0 < k < |e| ==> Continues(e[k]))
      && (|e| == 1 ==> LeadBits(e[0]) == cp)
      && (|e| == 2 ==> LeadBits(e[0]) == High(cp) && e[1] % 0x40 == Low(cp))
      && (|e| == 3 ==> LeadBits(e[0]) == High(High(cp)) && e[1] % 0x40 == Low(High(cp)) && e[2] % 0x40 == Low(cp))
      && (|e| == 4 ==> LeadBits(e[0]) == High(High(High(cp))) && e[1] % 0x40 == Low(High(High(cp)))
                       && e[2] % 0x40 == Low(High(cp)) && e[3] % 0x40 == Low(cp))
  {
    LeadOf(Encode(cp)[0]);
    ContinuationOf(Low(cp));
    ContinuationOf(Low(High(cp)));
    ContinuationOf(Low(High(High(cp))));
  }

  /** And every encoding passes the tests, with its own value. */
  lemma AtIsReadable(s: Text, i: nat, cp: int)
    requires At(s, i, cp)
    ensures i < |s| && Readable(s, i, |Encode(cp)|) && Value(s, i, |Encode(cp)|) == cp
  {
    var e, n := Encode(cp), |Encode(cp)|;
    forall k | i <= k < i + n ensures s[k] == e[k - i] { assert s[i..i + n][k - i] == s[k]; }
    EncodingPasses(cp);
    ValueSteps(s, i, n);
    Recombined(cp);
    Recombined(High(cp));
    Recombined(High(High(cp)));
  }

  /** At one position stands at most one encoding: no encoding is a prefix of another. */
  lemma AtMostOne(s: Text, i: nat, a: int, b: int)
    requires At(s, i, a) && At(s, i, b)
    ensures a == b
  {
    AtIsReadable(s, i, a);
    AtIsReadable(s, i, b);
  }

  // ----- Whole strings -----

  lemma EncodingsApart(a: int, b: int)
    requires Scalar(a) && Scalar(b)
    ensures P.Apart(Encode(a), Encode(b))
    ensures Encode(a) == Encode(b) ==> a == b
  {
    if Encode(a) <= Encode(b) {
      AtMostOne(Encode(b), 0, a, b);
    } else if Encode(b) <= Encode(a) {
      AtMostOne(Encode(a), 0, a, b);
    }
  }

  lemma WordsPrefixFree(a: seq<int>, b: seq<int>)
    requires Scalars(a) && Scalars(b)
    ensures P.PrefixFree(Words(a), Words(b)) && P.NonEmpty(Words(a))
  {
    forall v, w | v in Words(a) && w in Words(b) ensures P.Apart(v, w) {
      var i :| 0 <= i < |a| && v == Words(a)[i];
      var j :| 0 <= j < |b| && w == Words(b)[j];
      EncodingsApart(a[i], b[j]);
    }
  }

  /** The sequence a string encodes is unique. */
  lemma UniqueReading(s: Text, a: seq<int>, b: seq<int>)
    requires Encodes(s, a) && Encodes(s, b)
    ensures a == b
  {
    WordsPrefixFree(a, b);
    WordsPrefixFree(b, a);
    P.UniqueReading(Words(a), Words(b));
    forall i | 0 <= i < |a| ensures a[i] == b[i] {
      assert Words(a)[i] == Words(b)[i];
      EncodingsApart(a[i], b[i]);
    }
  }

  lemma EncodesSnoc(s: Text, cps: seq<int>, cp: int)
    requires Encodes(s, cps) && Scalar(cp)
    ensures Encodes(s + Encode(cp), cps + [cp])
  {
    assert (cps + [cp])[..|cps|] == cps;
    P.FlatSnoc(Words(cps), Encode(cp));
  }

  /** An encoding that goes on has its next code point right behind those read so far. */
  lemma NextEncoded(s: Text, cps: seq<int>, i: nat, other: seq<int>)
    requires i < |s| && Encodes(s[..i], cps) && Encodes(s, other)
    ensures |cps| < |other| && At(s, i, other[|cps|])
  {
    WordsPrefixFree(cps, other);
    WordsPrefixFree(other, cps);
    P.NextWord(s, Words(cps), Words(other));
  }

  /** If nothing readable stands where the reading so far ends, the string is no encoding. */
  lemma DeadEnd(s: Text, cps: seq<int>, i: nat, other: seq<int>)
    requires i < |s| && Encodes(s[..i], cps) && !Readable(s, i, Announced(s[i]))
    ensures !Encodes(s, other)
  {
    if Encodes(s, other) {
      NextEncoded(s, cps, i, other);
      AtIsReadable(s, i, other[|cps|]);
    }
  }

  lemma NotAnEncoding(s: Text, cps: seq<int>, i: nat)
    requires i < |s| && Encodes(s[..i], cps) && !Readable(s, i, Announced(s[i]))
    ensures forall other :: !Encodes(s, other)
  {
    forall other ensures !Encodes(s, other) { DeadEnd(s, cps, i, other); }
  }

  /** One step of the validation: the length of the encoding at `i`, or 0. */
  method ReadOne(s: Text, i: nat) returns (n: nat)
    requires i < |s|
    ensures n > 0 ==> Readable(s, i, n)
    ensures n == 0 ==> !Readable(s, i, Announced(s[i]))
  {
    n := Announced(s[i]);
    if n == 0 || i + n > |s| { return 0; }
    var codePoint: nat := LeadBits(s[i]);
    for j := 1 to n
      invariant codePoint == Value(s, i, j)
      invariant forall k :: i < k < i + j ==> Continues(s[k])
    {
      if s[i + j] / 0x40 != 2 {
        assert !Continues(s[i + j]);
        return 0;
      }
      codePoint := codePoint * 0x40 + s[i + j] % 0x40;
    }
    if !Acceptable(codePoint, n) { return 0; }
  }

  method IsValidUtf8(s: Text) returns (valid: bool)
    ensures valid <==> Valid(s)
  {
    if s == [] {
      EmptyEncodesNothing();
      return false;
    }
    var i := 0;
    ghost var cps: seq<int> := [];
    while i < |s|
      invariant 0 <= i <= |s| && Encodes(s[..i], cps) && (i > 0 ==> cps != [])
    {
      var n := ReadOne(s, i);
      if n == 0 {
        NotAnEncoding(s, cps, i);
        return false;
      }
      ReadOn(s, i, n, cps);
      cps := cps + [Value(s, i, n)];
      i := i + n;
    }
    assert s[..|s|] == s;
    return true;
  }

  lemma ReadOn(s: Text, i: nat, n: nat, cps: seq<int>)
    requires i < |s| && Readable(s, i, n) && Encodes(s[..i], cps)
    ensures Encodes(s[..i + n], cps + [Value(s, i, n)])
  {
    ReadableIsAt(s, i, n);
    EncodesSnoc(s[..i], cps, Value(s, i, n));
    assert s[..i + n] == s[..i] + s[i..i + n];
  }

  lemma EmptyEncodesNothing()
    ensures forall cps :: cps != [] ==> !Encodes([], cps)
  {
    forall cps | cps != [] ensures !Encodes([], cps) {
      if Scalars(cps) { assert P.Flat(Words(cps)) == P.Flat(Words(cps[..|cps| - 1])) + Encode(cps[|cps| - 1]) by {
        P.FlatSnoc(Words(cps[..|cps| - 1]), Encode(cps[|cps| - 1])); } }
    }
  }
}
