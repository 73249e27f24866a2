/**
 Retained messages: a vector with an index from topic to position. `Stored` and
 `Cleared` say what an operation does to the vector; `AllAfter` says what any
 run of operations leaves in it.
 */
module RetainStore {
  import opened Bytes
  import opened Model

  ghost predicate DistinctTopics(ms: seq<Message>) {
    forall i, j :: 0 <= i < j < |ms| ==> ms[i].topic != ms[j].topic
  }

  /** Replaces the message of the same topic, or appends. */
  function Stored(ms: seq<Message>, msg: Message): seq<Message> {
    if ms == [] then [msg]
    else if ms[0].topic == msg.topic then [msg] + ms[1..]
    else [ms[0]] + Stored(ms[1..], msg)
  }

  /** Removes the message of the topic; those behind it move up. */
  function Cleared(ms: seq<Message>, topic: Text): seq<Message> {
    if ms == [] then []
    else if ms[0].topic == topic then ms[1..]
    else [ms[0]] + Cleared(ms[1..], topic)
  }

  lemma {:induction false} StoredAt(ms: seq<Message>, msg: Message, i: nat)
    requires i <= |ms|
    requires forall j :: 0 <= j < i ==> ms[j].topic != msg.topic
    requires i < |ms| ==> ms[i].topic == msg.topic
    ensures Stored(ms, msg) == if i < |ms| then ms[i := msg] else ms + [msg]
  {
    if i > 0 {
      StoredAt(ms[1..], msg, i - 1);
      assert ms == [ms[0]] + ms[1..];
    }
  }

  /** `vector::erase` at a position. */
  function EraseAt(ms: seq<Message>, pos: nat): (after: seq<Message>)
    requires pos < |ms|
    ensures |after| == |ms| - 1
  {
    ms[..pos] + ms[pos + 1..]
  }

  lemma EraseAtIndex(ms: seq<Message>, pos: nat, j: nat)
    requires pos < |ms| && j < |ms| - 1
    ensures EraseAt(ms, pos)[j] == ms[if j < pos then j else j + 1]
  {
  }

  lemma {:induction false} ClearedAt(ms: seq<Message>, topic: Text, i: nat)
    requires i <= |ms|
    requires forall j :: 0 <= j < i ==> ms[j].topic != topic
    requires i < |ms| ==> ms[i].topic == topic
    ensures Cleared(ms, topic) == if i < |ms| then EraseAt(ms, i) else ms
  {
    if i > 0 { ClearedAt(ms[1..], topic, i - 1); }
  }

  /** The index is a bijection between the stored topics and the positions. */
  ghost predicate Indexes(idx: map<Text, nat>, ms: seq<Message>) {
    && (forall t :: t in idx ==> idx[t] < |ms| && ms[idx[t]].topic == t)
    && (forall i :: 0 <= i < |ms| ==> ms[i].topic in idx && idx[ms[i].topic] == i)
  }

  /** Erasing a position removes its topic, and leaves the positions before it right. */
  lemma EraseKeepsIndex(ms: seq<Message>, idx: map<Text, nat>, pos: nat)
    requires Indexes(idx, ms) && pos < |ms|
    ensures
      var after := EraseAt(ms, pos);
      var left := idx - {ms[pos].topic};
      && DistinctTopics(after)
      && (forall j :: 0 <= j < |after| ==> after[j].topic in left)
      && (forall j :: 0 <= j < pos ==> left[after[j].topic] == j)
      && (forall t :: t in left ==> exists j :: 0 <= j < |after| && after[j].topic == t)
  {
    var after := EraseAt(ms, pos);
    forall j | 0 <= j < |after|
      ensures after[j].topic in idx - {ms[pos].topic} && idx[after[j].topic] == if j < pos then j else j + 1
    {
      EraseAtIndex(ms, pos, j);
    }
    forall t | t in idx - {ms[pos].topic} ensures exists j :: 0 <= j < |after| && after[j].topic == t {
      var j := if idx[t] < pos then idx[t] else idx[t] - 1;
      EraseAtIndex(ms, pos, j);
      assert after[j].topic == t;
    }
  }

  class RetainStore {
    var messages: seq<Message>
    var idx: map<Text, nat>

    ghost predicate Valid()
      reads this
    {
      Indexes(idx, messages)
    }

    constructor ()
      ensures Valid()
      ensures messages == []
    {
      messages := [];
      idx := map[];
    }

    method Store(topic: Text, msg: Message)
      requires Valid() && msg.topic == topic
      modifies this
      ensures Valid()
      ensures messages == Stored(old(messages), msg)
    {
      if topic in idx {
        StoredAt(messages, msg, idx[topic]);
        messages := messages[idx[topic] := msg];
      } else {
        StoredAt(messages, msg, |messages|);
        idx := idx[topic := |messages|];
        messages := messages + [msg];
      }
    }

    method Clear(topic: Text)
      requires Valid()
      modifies this
      ensures Valid()
      ensures messages == Cleared(old(messages), topic)
    {
      if topic !in idx {
        ClearedAt(messages, topic, |messages|);
        return;
      }
      var pos := idx[topic];
      ClearedAt(messages, topic, pos);
      EraseKeepsIndex(messages, idx, pos);
      messages := EraseAt(messages, pos);
      idx := Reindexed(messages, idx - {topic}, pos);
    }

    /** Renumbers the topics from position `pos` on. */
    static method Reindexed(ms: seq<Message>, before: map<Text, nat>, pos: nat) returns (idx: map<Text, nat>)
      requires DistinctTopics(ms) && pos <= |ms|
      requires forall j :: 0 <= j < |ms| ==> ms[j].topic in before
      requires forall j :: 0 <= j < pos ==> before[ms[j].topic] == j
      ensures idx.Keys == before.Keys
      ensures forall j :: 0 <= j < |ms| ==> ms[j].topic in idx && idx[ms[j].topic] == j
    {
      idx := before;
      for i := pos to |ms|
        invariant idx.Keys == before.Keys
        invariant forall j :: 0 <= j < i ==> idx[ms[j].topic] == j
      {
        idx := idx[ms[i].topic := i];
      }
    }

    function All(): (ms: seq<Message>)
      reads this
    {
      messages
    }
  }

  // ----- Whole runs -----

  datatype Op = StoreOp(msg: Message) | ClearOp(topic: Text)

  function Run(ops: seq<Op>): seq<Message> {
    if ops == [] then []
    else
      var before := Run(ops[..|ops| - 1]);
      match ops[|ops| - 1]
      case StoreOp(msg) => Stored(before, msg)
      case ClearOp(topic) => Cleared(before, topic)
  }

  /** The last message stored for a topic, unless the topic was cleared afterwards. */
  function Latest(ops: seq<Op>, topic: Text): Option<Message> {
    if ops == [] then None
    else match ops[|ops| - 1]
      case StoreOp(msg) => if msg.topic == topic then Some(msg) else Latest(ops[..|ops| - 1], topic)
      case ClearOp(t) => if t == topic then None else Latest(ops[..|ops| - 1], topic)
  }

  /** When the topic was first stored since it was last cleared. */
  function InsertedAt(ops: seq<Op>, topic: Text): int {
    if ops == [] then -1
    else
      var before := InsertedAt(ops[..|ops| - 1], topic);
      match ops[|ops| - 1]
      case StoreOp(msg) => if msg.topic == topic && before < 0 then |ops| - 1 else before
      case ClearOp(t) => if t == topic then -1 else before
  }

  lemma {:induction false} StoredMembers(ms: seq<Message>, msg: Message)
    requires DistinctTopics(ms)
    ensures DistinctTopics(Stored(ms, msg))
    ensures forall m :: m in Stored(ms, msg) <==> m == msg || (m in ms && m.topic != msg.topic)
  {
    var i := Position(ms, msg.topic);
    StoredAt(ms, msg, i);
    var after := Stored(ms, msg);
    forall m ensures m in after <==> m == msg || (m in ms && m.topic != msg.topic) {
      assert after[i] == msg;
      if m in after {
        var j :| 0 <= j < |after| && after[j] == m;
      }
      if m in ms && m.topic != msg.topic {
        var j :| 0 <= j < |ms| && ms[j] == m;
        assert after[j] == m;
      }
    }
  }

  lemma {:induction false} ClearedMembers(ms: seq<Message>, topic: Text)
    requires DistinctTopics(ms)
    ensures DistinctTopics(Cleared(ms, topic))
    ensures forall m :: m in Cleared(ms, topic) <==> m in ms && m.topic != topic
  {
    var i := Position(ms, topic);
    ClearedAt(ms, topic, i);
    var after := Cleared(ms, topic);
    if i < |ms| {
      assert ms == ms[..i] + [ms[i]] + ms[i + 1..];
      forall a, b | 0 <= a < b < |after| ensures after[a].topic != after[b].topic {
        EraseAtIndex(ms, i, a);
        EraseAtIndex(ms, i, b);
      }
      forall m | m in after ensures m in ms && m.topic != topic {
        var a :| 0 <= a < |after| && after[a] == m;
        EraseAtIndex(ms, i, a);
      }
    }
  }

  lemma {:induction false} Position(ms: seq<Message>, topic: Text) returns (i: nat)
    ensures i <= |ms|
    ensures forall j :: 0 <= j < i ==> ms[j].topic != topic
    ensures i < |ms| ==> ms[i].topic == topic
  {
    if ms == [] || ms[0].topic == topic {
      i := 0;
    } else {
      var k := Position(ms[1..], topic);
      i := k + 1;
    }
  }

  /** The vector holds the latest messages, ordered by when their topics came in. */
  ghost predicate Describes(ops: seq<Op>, ms: seq<Message>) {
    && DistinctTopics(ms)
    && (forall m :: m in ms <==> Latest(ops, m.topic) == Some(m))
    && (forall i, j :: 0 <= i < j < |ms| ==> InsertedAt(ops, ms[i].topic) < InsertedAt(ops, ms[j].topic))
  }

  lemma {:induction false} InsertedIffLatest(ops: seq<Op>, topic: Text)
    ensures InsertedAt(ops, topic) < |ops|
    ensures InsertedAt(ops, topic) >= 0 <==> Latest(ops, topic).Some?
    ensures Latest(ops, topic).Some? ==> Latest(ops, topic).value.topic == topic
  {
    if ops != [] { InsertedIffLatest(ops[..|ops| - 1], topic); }
  }

  lemma StoreDescribed(ops: seq<Op>, msg: Message, ms: seq<Message>)
    requires Describes(ops, ms)
    ensures Describes(ops + [StoreOp(msg)], Stored(ms, msg))
  {
    var ops' := ops + [StoreOp(msg)];
    assert ops'[..|ops|] == ops;
    StoredMembers(ms, msg);
    var k := Position(ms, msg.topic);
    StoredAt(ms, msg, k);
    InsertedIffLatest(ops, msg.topic);
    if k < |ms| { assert ms[k] in ms; }
    forall i, j | 0 <= i < j < |Stored(ms, msg)|
      ensures InsertedAt(ops', Stored(ms, msg)[i].topic) < InsertedAt(ops', Stored(ms, msg)[j].topic)
    {
      InsertedIffLatest(ops, Stored(ms, msg)[i].topic);
    }
  }

  lemma ClearDescribed(ops: seq<Op>, topic: Text, ms: seq<Message>)
    requires Describes(ops, ms)
    ensures Describes(ops + [ClearOp(topic)], Cleared(ms, topic))
  {
    assert (ops + [ClearOp(topic)])[..|ops|] == ops;
    ClearedMembers(ms, topic);
    var after := Cleared(ms, topic);
    forall i, j | 0 <= i < j < |after|
      ensures InsertedAt(ops + [ClearOp(topic)], after[i].topic) < InsertedAt(ops + [ClearOp(topic)], after[j].topic)
    {
      assert after[i] in after && after[j] in after;
      var i', j' := ClearedOrder(ms, topic, i, j);
    }
  }

  /** Two messages left in the vector were there before, in the same order. */
  lemma ClearedOrder(ms: seq<Message>, topic: Text, i: nat, j: nat) returns (i': nat, j': nat)
    requires i < j < |Cleared(ms, topic)|
    ensures i' < j' < |ms| && ms[i'] == Cleared(ms, topic)[i] && ms[j'] == Cleared(ms, topic)[j]
  {
    var k := Position(ms, topic);
    ClearedAt(ms, topic, k);
    if k < |ms| {
      EraseAtIndex(ms, k, i);
      EraseAtIndex(ms, k, j);
      i', j' := if i < k then i else i + 1, if j < k then j else j + 1;
    } else {
      i', j' := i, j;
    }
  }

  /**
   After any run the vector holds, once each, exactly the latest message of
   every topic not cleared since, in the order in which the topics came in.
   */
  lemma {:induction false} AllAfter(ops: seq<Op>)
    ensures Describes(ops, Run(ops))
  {
    if ops != [] {
      var n := |ops| - 1;
      AllAfter(ops[..n]);
      assert ops == ops[..n] + [ops[n]];
      match ops[n]
      case StoreOp(msg) => StoreDescribed(ops[..n], msg, Run(ops[..n]));
      case ClearOp(topic) => ClearDescribed(ops[..n], topic, Run(ops[..n]));
    }
  }
}
