/**
 Topic names and topic filters: splitting into levels, validity, and the flat
 matcher. `Split`, `ValidFilter` and `Matches` are the reference definitions
 that the trie and the router are measured against.
 */
module Topic {
  import opened Bytes

  const SLASH: byte := 0x2F
  const PLUS: byte := 0x2B
  const HASH: byte := 0x23

  const SINGLE_LEVEL: Text := [PLUS]
  const MULTI_LEVEL: Text := [HASH]

  // ----- Levels -----

  /** The levels of a topic: what lies between the slashes. */
  function Split(t: Text): (levels: seq<Text>)
    ensures |levels| >= 1
  {
    if t == [] then [[]]
    else
      var rest := Split(t[1..]);
      if t[0] == SLASH then [[]] + rest else [[t[0]] + rest[0]] + rest[1..]
  }

  /** Puts the slashes back. */
  function Join(levels: seq<Text>): Text
    requires |levels| >= 1
  {
    if |levels| == 1 then levels[0] else levels[0] + [SLASH] + Join(levels[1..])
  }

  ghost predicate SlashFree(levels: seq<Text>) {
    forall i :: 0 <= i < |levels| ==> SLASH !in levels[i]
  }

  lemma {:induction false} JoinSplit(t: Text)
    ensures SlashFree(Split(t))
    ensures Join(Split(t)) == t
  {
    if t != [] {
      JoinSplit(t[1..]);
      var rest := Split(t[1..]);
      var levels := Split(t);
      if t[0] == SLASH {
        assert levels[1..] == rest;
        assert t == [] + [SLASH] + t[1..];
      } else {
        assert levels[1..] == rest[1..];
        assert Join(levels) == [t[0]] + Join(rest);
      }
    }
  }

  /** Different strings have different levels, so a filter is determined by its path in the trie. */
  lemma SplitInjective(a: Text, b: Text)
    requires Split(a) == Split(b)
    ensures a == b
  {
    JoinSplit(a);
    JoinSplit(b);
  }

  lemma {:induction false} SplitWithoutSlash(t: Text)
    requires SLASH !in t
    ensures Split(t) == [t]
  {
    if t != [] {
      SplitWithoutSlash(t[1..]);
      assert t == [t[0]] + t[1..];
    }
  }

  lemma {:induction false} SplitAtSlash(head: Text, tail: Text)
    requires SLASH !in head
    ensures Split(head + [SLASH] + tail) == [head] + Split(tail)
  {
    var t := head + [SLASH] + tail;
    if head == [] {
      assert t[1..] == tail;
    } else {
      SplitAtSlash(head[1..], tail);
      assert t[1..] == head[1..] + [SLASH] + tail;
      assert head == [head[0]] + head[1..];
    }
  }

  /** Every non-empty list of slash-free levels is the split of exactly one string. */
  lemma {:induction false} SplitJoin(levels: seq<Text>)
    requires |levels| >= 1
    requires SlashFree(levels)
    ensures Split(Join(levels)) == levels
  {
    if |levels| == 1 {
      SplitWithoutSlash(levels[0]);
    } else {
      SplitJoin(levels[1..]);
      SplitAtSlash(levels[0], Join(levels[1..]));
      assert levels == [levels[0]] + levels[1..];
    }
  }

  /** A level consists of bytes of the topic. */
  lemma {:induction false} LevelBytes(t: Text, j: nat)
    requires j < |Split(t)|
    ensures forall b :: b in Split(t)[j] ==> b in t
  {
    if t != [] {
      var rest := Split(t[1..]);
      if t[0] == SLASH {
        if j > 0 { LevelBytes(t[1..], j - 1); }
      } else {
        LevelBytes(t[1..], j);
      }
    }
  }

  /** `std::string::find`: the first position of `c` at or after `start`, or the length. */
  method Find(t: Text, c: byte, start: nat) returns (pos: nat)
    requires start <= |t|
    ensures start <= pos <= |t|
    ensures c !in t[start..pos]
    ensures pos < |t| ==> t[pos] == c
  {
    pos := start;
    while pos < |t| && t[pos] != c
      invariant start <= pos <= |t|
      invariant c !in t[start..pos]
    {
      pos := pos + 1;
    }
  }

  /** Levels written out with a slash after each. */
  ghost function Written(levels: seq<Text>): Text {
    if levels == [] then [] else Written(levels[..|levels| - 1]) + levels[|levels| - 1] + [SLASH]
  }

  lemma WrittenAppend(levels: seq<Text>, level: Text)
    ensures Written(levels + [level]) == Written(levels) + level + [SLASH]
  {
    assert (levels + [level])[..|levels|] == levels;
  }

  lemma {:induction false} JoinWritten(levels: seq<Text>, last: Text)
    ensures Join(levels + [last]) == Written(levels) + last
  {
    if levels != [] {
      var n := |levels| - 1;
      assert levels + [last] == levels[..n] + [levels[n], last];
      JoinTwo(levels[..n], levels[n], last);
      JoinWritten(levels[..n], levels[n] + [SLASH] + last);
    }
  }

  lemma {:induction false} JoinTwo(levels: seq<Text>, a: Text, b: Text)
    ensures Join(levels + [a, b]) == Join(levels + [a + [SLASH] + b])
  {
    if levels == [] {
      assert ([a, b])[1..] == [b];
      assert levels + [a, b] == [a, b] && levels + [a + [SLASH] + b] == [a + [SLASH] + b];
    } else {
      JoinTwo(levels[1..], a, b);
      assert (levels + [a, b])[1..] == levels[1..] + [a, b];
      assert (levels + [a + [SLASH] + b])[1..] == levels[1..] + [a + [SLASH] + b];
    }
  }

  /** What has been written plus the last level is the whole topic, so the levels are its split. */
  lemma SplitWritten(topic: Text, levels: seq<Text>, last: Text)
    requires SlashFree(levels) && SLASH !in last
    requires topic == Written(levels) + last
    ensures Split(topic) == levels + [last]
  {
    JoinWritten(levels, last);
    SplitJoin(levels + [last]);
  }

  method SplitTopic(topic: Text) returns (out: seq<Text>)
    ensures out == Split(topic)
  {
    if topic == [] { return [[]]; }
    out := [];
    var start := 0;
    while true
      invariant 0 <= start <= |topic|
      invariant SlashFree(out)
      invariant topic[..start] == Written(out)
      decreases |topic| - start
    {
      var pos := Find(topic, SLASH, start);
      var level := topic[start..pos];
      if pos == |topic| {
        assert topic == topic[..start] + level;
        SplitWritten(topic, out, level);
        out := out + [level];
        break;
      }
      WrittenAppend(out, level);
      assert topic[..pos + 1] == topic[..start] + level + [SLASH];
      out := out + [level];
      start := pos + 1;
    }
  }

  // ----- Validity -----

  /** A name that may be published to: non-empty and without wildcard characters. */
  predicate ValidName(topic: Text) {
    topic != [] && PLUS !in topic && HASH !in topic
  }

  method IsTopicNameInvalid(topic: Text) returns (invalid: bool)
    ensures invalid <==> !ValidName(topic)
  {
    if topic == [] { return true; }
    for i := 0 to |topic|
      invariant PLUS !in topic[..i] && HASH !in topic[..i]
    {
      if topic[i] == PLUS || topic[i] == HASH { return true; }
    }
    return false;
  }

  /**
   Section 4.7.1 of MQTT 3.1.1, character by character: `#` is the last
   character and follows a separator or nothing; `+` fills a whole level.
   */
  ghost predicate ValidFilter(filter: Text) {
    filter != [] && AllPlaced(filter)
  }

  ghost predicate AllPlaced(filter: Text) {
    forall i :: 0 <= i < |filter| ==> WildcardPlaced(filter, i)
  }

  ghost predicate WildcardPlaced(filter: Text, i: nat)
    requires i < |filter|
  {
    && (filter[i] == HASH ==>
          i == |filter| - 1 && (i == 0 || filter[i - 1] == SLASH))
    && (filter[i] == PLUS ==>
          (i == 0 || filter[i - 1] == SLASH) && (i == |filter| - 1 || filter[i + 1] == SLASH))
  }

  /** A level may be `+`, may be `#` if it is the last one, and is otherwise wildcard-free. */
  predicate ValidLevel(level: Text, last: bool) {
    || (level == MULTI_LEVEL && last)
    || level == SINGLE_LEVEL
    || (PLUS !in level && HASH !in level)
  }

  predicate ValidLevels(levels: seq<Text>) {
    forall i :: 0 <= i < |levels| ==> ValidLevel(levels[i], i == |levels| - 1)
  }

  lemma {:induction false} SlashPosition(t: Text) returns (pos: nat)
    ensures pos <= |t| && SLASH !in t[..pos] && (pos < |t| ==> t[pos] == SLASH)
  {
    if t == [] || t[0] == SLASH {
      pos := 0;
    } else {
      var p := SlashPosition(t[1..]);
      assert t[..p + 1] == [t[0]] + t[1..][..p];
      pos := p + 1;
    }
  }

  /** The level-by-level test and the character-by-character rule agree on every string. */
  lemma {:induction false} LevelsVersusCharacters(filter: Text)
    ensures ValidLevels(Split(filter)) <==> AllPlaced(filter)
    decreases |filter|
  {
    var pos := SlashPosition(filter);
    var head := filter[..pos];
    if pos == |filter| {
      assert head == filter;
      SplitWithoutSlash(filter);
      OneLevel(filter, [], true);
      assert filter + [] == filter;
      assert AllPlaced(filter) <==> PlacedUpTo(filter, |filter|);
      assert ValidLevels([filter]) <==> ValidLevel([filter][0], true);
    } else {
      var tail := filter[pos + 1..];
      assert filter == head + [SLASH] + tail;
      SplitAtSlash(head, tail);
      LevelsVersusCharacters(tail);
      OneLevel(head, [SLASH] + tail, false);
      assert filter == head + ([SLASH] + tail);
      var levels := Split(filter);
      var rest := Split(tail);
      assert levels[0] == head && levels[1..] == rest;
      assert forall i :: 0 <= i < |rest| ==> levels[i + 1] == rest[i];
      LevelsCons(head, rest);
      assert AllPlaced(filter) <==> (PlacedUpTo(filter, pos) && AllPlaced(tail)) by {
        PlacedSplit(head, tail);
      }
    }
  }

  ghost predicate PlacedUpTo(filter: Text, n: nat)
    requires n <= |filter|
  {
    forall i :: 0 <= i < n ==> WildcardPlaced(filter, i)
  }

  lemma LevelsCons(head: Text, rest: seq<Text>)
    requires |rest| >= 1
    ensures ValidLevels([head] + rest) <==> ValidLevel(head, false) && ValidLevels(rest)
  {
    var levels := [head] + rest;
    assert levels[0] == head;
    assert forall i :: 0 <= i < |rest| ==> levels[i + 1] == rest[i];
    if ValidLevels(levels) {
      forall i | 0 <= i < |rest| ensures ValidLevel(rest[i], i == |rest| - 1) {
        assert ValidLevel(levels[i + 1], i + 1 == |levels| - 1);
      }
    }
  }

  lemma PlacedSplit(head: Text, tail: Text)
    ensures AllPlaced(head + [SLASH] + tail) <==>
            PlacedUpTo(head + [SLASH] + tail, |head|) && AllPlaced(tail)
  {
    var filter := head + [SLASH] + tail;
    var n := |head| + 1;
    forall i | 0 <= i < |tail|
      ensures WildcardPlaced(filter, n + i) <==> WildcardPlaced(tail, i)
    {
      assert filter[n + i] == tail[i];
      assert i > 0 ==> filter[n + i - 1] == tail[i - 1];
      assert i == 0 ==> filter[n + i - 1] == SLASH;
      assert i + 1 < |tail| ==> filter[n + i + 1] == tail[i + 1];
    }
    if PlacedUpTo(filter, |head|) && AllPlaced(tail) {
      forall i | 0 <= i < |filter| ensures WildcardPlaced(filter, i) {
        if i > |head| { assert WildcardPlaced(tail, i - n); }
      }
    }
    if AllPlaced(filter) {
      forall i | 0 <= i < |tail| ensures WildcardPlaced(tail, i) {
        assert WildcardPlaced(filter, n + i);
      }
    }
  }

  /** The first level of a string, followed by nothing or by a slash, judged both ways. */
  lemma OneLevel(level: Text, rest: Text, last: bool)
    requires SLASH !in level
    requires if last then rest == [] else rest != [] && rest[0] == SLASH
    ensures ValidLevel(level, last) <==> PlacedUpTo(level + rest, |level|)
  {
    var t := level + rest;
    if PlacedUpTo(t, |level|) && (PLUS in level || HASH in level) {
      var i :| 0 <= i < |level| && (level[i] == PLUS || level[i] == HASH);
      assert WildcardPlaced(t, i);
      assert level == [level[0]];
    }
  }

  method IsTopicFilterInvalid(filter: Text) returns (invalid: bool)
    ensures invalid <==> !ValidFilter(filter)
  {
    if filter == [] { return true; }
    LevelsVersusCharacters(filter);
    var levels := SplitTopic(filter);
    for i := 0 to |levels|
      invariant forall j :: 0 <= j < i ==> ValidLevel(levels[j], j == |levels| - 1)
    {
      var level := levels[i];
      if level == MULTI_LEVEL {
        if i != |levels| - 1 { return true; }
      } else if level == SINGLE_LEVEL {
        continue;
      } else if PLUS in level || HASH in level {
        return true;
      }
    }
    return false;
  }

  // ----- Matching -----

  /** The recursive matcher: `fi` and `ti` index the next level of the filter and of the topic. */
  predicate MatchLevels(filters: seq<Text>, topics: seq<Text>, fi: nat := 0, ti: nat := 0)
    requires fi <= |filters| && ti <= |topics|
    decreases |filters| - fi
  {
    if fi == |filters| then ti == |topics|
    else if filters[fi] == MULTI_LEVEL then true
    else if filters[fi] == SINGLE_LEVEL then
      ti < |topics| && MatchLevels(filters, topics, fi + 1, ti + 1)
    else
      ti < |topics| && filters[fi] == topics[ti] && MatchLevels(filters, topics, fi + 1, ti + 1)
  }

  predicate Matches(filter: Text, topic: Text) {
    MatchLevels(Split(filter), Split(topic))
  }

  /**
   Sections 4.7.1.2 and 4.7.1.3 of MQTT 3.1.1, position by position: without a
   final `#` the levels agree one to one, with it the topic has at least the
   levels before the `#` (so `a/#` also covers its parent `a`).
   */
  ghost predicate Covers(filters: seq<Text>, topics: seq<Text>)
    requires |filters| >= 1
  {
    var n := |filters| - 1;
    if filters[n] == MULTI_LEVEL then
      n <= |topics| && LevelsAgree(filters, topics, 0, n)
    else
      |filters| == |topics| && LevelsAgree(filters, topics, 0, |filters|)
  }

  ghost predicate LevelsAgree(filters: seq<Text>, topics: seq<Text>, lo: nat, hi: nat)
    requires hi <= |filters| && hi <= |topics|
  {
    forall i :: lo <= i < hi ==> filters[i] == SINGLE_LEVEL || filters[i] == topics[i]
  }

  /** For valid filters the recursive matcher is the positional rule of the standard. */
  lemma MatchingIsPositional(filter: Text, topic: Text)
    requires ValidFilter(filter)
    ensures Matches(filter, topic) <==> Covers(Split(filter), Split(topic))
  {
    LevelsVersusCharacters(filter);
    MatchFromPosition(Split(filter), Split(topic), 0);
  }

  lemma {:induction false} MatchFromPosition(filters: seq<Text>, topics: seq<Text>, i: nat)
    requires |filters| >= 1 && ValidLevels(filters)
    requires i <= |filters| && i <= |topics|
    ensures
      var n := |filters| - 1;
      MatchLevels(filters, topics, i, i) <==>
        if filters[n] == MULTI_LEVEL then
          (i == |filters| == |topics|) || (i <= n <= |topics| && LevelsAgree(filters, topics, i, n))
        else
          |filters| == |topics| && LevelsAgree(filters, topics, i, |filters|)
    decreases |filters| - i
  {
    if i < |filters| && i < |topics| {
      assert ValidLevel(filters[i], i == |filters| - 1);
      MatchFromPosition(filters, topics, i + 1);
    } else if i < |filters| {
      assert ValidLevel(filters[i], i == |filters| - 1);
    }
  }
}
