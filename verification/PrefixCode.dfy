/**
 Strings that are read word by word: if no word of a code is the beginning of
 another one, a string has at most one reading.
 */
module PrefixCode {
  import opened Bytes

  function Flat(words: seq<Text>): Text {
    if words == [] then [] else Flat(words[..|words| - 1]) + words[|words| - 1]
  }

  ghost predicate NonEmpty(words: seq<Text>) {
    forall i :: 0 <= i < |words| ==> words[i] != []
  }

  /** No word of one list is the beginning of a different word of the other. */
  ghost predicate PrefixFree(a: seq<Text>, b: seq<Text>) {
    forall v, w {:trigger Apart(v, w)} :: v in a && w in b ==> Apart(v, w)
  }

  ghost predicate Apart(v: Text, w: Text) {
    v <= w || w <= v ==> v == w
  }

  lemma FlatSnoc(words: seq<Text>, word: Text)
    ensures Flat(words + [word]) == Flat(words) + word
  {
    assert (words + [word])[..|words|] == words;
  }

  lemma {:induction false} FlatPrefix(words: seq<Text>, k: nat)
    requires k <= |words| && NonEmpty(words)
    ensures Flat(words[..k]) <= Flat(words)
    ensures |Flat(words)| >= |Flat(words[..k])| + |words| - k
  {
    if k == |words| {
      assert words[..k] == words;
    } else {
      var front := words[..|words| - 1];
      FlatPrefix(front, k);
      assert front[..k] == words[..k];
    }
  }

  lemma PrefixesCompare(s: Text, at: nat, a: Text, b: Text)
    requires at + |a| <= |s| && at + |b| <= |s| && s[at..at + |a|] == a && s[at..at + |b|] == b
    ensures a <= b || b <= a
  {
    if |a| <= |b| {
      assert b[..|a|] == s[at..at + |b|][..|a|] == s[at..at + |a|];
    } else {
      assert a[..|b|] == s[at..at + |a|][..|b|] == s[at..at + |b|];
    }
  }

  lemma LastWord(s: Text, words: seq<Text>)
    requires words != [] && Flat(words) <= s
    ensures
      var front := words[..|words| - 1];
      && Flat(front) <= s && |Flat(front)| + |words[|words| - 1]| <= |s|
      && s[|Flat(front)|..|Flat(front)| + |words[|words| - 1]|] == words[|words| - 1]
  {
  }

  /** Two readings of the same beginning with equally many words are the same. */
  lemma {:induction false} SameReading(s: Text, a: seq<Text>, b: seq<Text>)
    requires |a| == |b| && PrefixFree(a, b) && Flat(a) <= s && Flat(b) <= s
    ensures a == b
    decreases |b|
  {
    if b != [] {
      var n := |a| - 1;
      LastWord(s, a);
      LastWord(s, b);
      assert PrefixFree(a[..n], b[..n]);
      SameReading(s, a[..n], b[..n]);
      PrefixesCompare(s, |Flat(a[..n])|, a[n], b[n]);
      assert Apart(a[n], b[n]);
    }
  }

  /** Of two readings of the same string the shorter one begins the longer one. */
  lemma OnlyReading(s: Text, a: seq<Text>, b: seq<Text>)
    requires |a| <= |b| && NonEmpty(b) && PrefixFree(a, b) && Flat(a) <= s && Flat(b) <= s
    ensures a == b[..|a|]
  {
    FlatPrefix(b, |a|);
    assert PrefixFree(a, b[..|a|]);
    SameReading(s, a, b[..|a|]);
  }

  /** A string has at most one reading. */
  lemma UniqueReading(a: seq<Text>, b: seq<Text>)
    requires NonEmpty(a) && NonEmpty(b) && PrefixFree(a, b) && PrefixFree(b, a) && Flat(a) == Flat(b)
    ensures a == b
  {
    if |a| <= |b| {
      OnlyReading(Flat(a), a, b);
      FlatPrefix(b, |a|);
    } else {
      OnlyReading(Flat(a), b, a);
      FlatPrefix(a, |b|);
    }
  }

  /** A reading that goes on has its next word right behind the words read so far. */
  lemma NextWord(s: Text, read: seq<Text>, all: seq<Text>)
    requires NonEmpty(read) && NonEmpty(all) && PrefixFree(read, all)
    requires Flat(read) <= s && Flat(all) == s && |Flat(read)| < |s|
    requires PrefixFree(all, read)
    ensures |read| < |all|
    ensures var word := all[|read|]; |Flat(read)| + |word| <= |s| && s[|Flat(read)|..|Flat(read)| + |word|] == word
  {
    if |read| < |all| {
      OnlyReading(s, read, all);
      FlatPrefix(all, |read| + 1);
      var next := all[..|read| + 1];
      assert next[..|read|] == read;
      LastWord(s, next);
    } else {
      OnlyReading(s, all, read);
      FlatPrefix(read, |all|);
    }
  }
}
