/**
 The subscription index: a tree of heap nodes, one per filter prefix. The tree
 is proved to be a map from (session, filter) to QoS, and `FindMatches` to return
 exactly the entries that the flat matcher accepts.
 */
module TopicTree {
  import opened Bytes
  import opened Model
  import T = Topic

  /** The way from the root to a node. */
  datatype Path = Root | Down(parent: Path, level: Text)

  /** The path that the first `n` levels of a filter lead to. */
  ghost function PathOf(levels: seq<Text>, n: nat): Path
    requires n <= |levels|
  {
    if n == 0 then Root else Down(PathOf(levels, n - 1), levels[n - 1])
  }

  ghost function PathTo(filter: Text): Path {
    PathOf(T.Split(filter), |T.Split(filter)|)
  }

  ghost predicate NoMulti(path: Path) {
    path.Down? ==> path.level != T.MULTI_LEVEL && NoMulti(path.parent)
  }

  /** `#` ends the path it occurs in. */
  ghost predicate MultiOnlyLast(path: Path) {
    path.Down? ==> NoMulti(path.parent)
  }

  ghost predicate DistinctKeys(ms: seq<Match>) {
    forall i, j :: 0 <= i < j < |ms| ==> KeyOf(ms[i]) != KeyOf(ms[j])
  }

  /** `m` is stored where its filter leads to, and it is what the map says. */
  ghost predicate Stored(entries: map<Key, Qos>, p: Path, m: Match) {
    PathTo(m.filter) == p && KeyOf(m) in entries && entries[KeyOf(m)] == m.qos
  }

  /** The subscriber lists of all nodes together hold the map, each entry once. */
  ghost predicate Holds(subs: map<Path, seq<Match>>, entries: map<Key, Qos>) {
    && (forall p {:trigger DistinctKeys(subs[p])} :: p in subs ==> DistinctKeys(subs[p]))
    && (forall p, m {:trigger Stored(entries, p, m)} :: p in subs && m in subs[p] ==> Stored(entries, p, m))
    && (forall k {:trigger Findable(subs, entries, k)} :: k in entries ==> Findable(subs, entries, k))
  }

  ghost predicate Findable(subs: map<Path, seq<Match>>, entries: map<Key, Qos>, k: Key)
    requires k in entries
  {
    && PathTo(k.filter) in subs
    && Match(k.session, k.filter, entries[k]) in subs[PathTo(k.filter)]
  }

  ghost predicate ParentIn(paths: set<Path>, p: Path) {
    p.Down? ==> p.parent in paths
  }

  /** A set of paths closed under going up, in which `#` has no children. */
  ghost predicate WellPathed(paths: set<Path>) {
    && (forall p {:trigger ParentIn(paths, p)} :: p in paths ==> ParentIn(paths, p))
    && (forall p {:trigger MultiOnlyLast(p)} :: p in paths ==> MultiOnlyLast(p))
  }

  /** `after` is `before` with any record of `m`'s key replaced by `m` itself. */
  ghost predicate Upserted(before: seq<Match>, m: Match, after: seq<Match>) {
    && DistinctKeys(after)
    && forall x :: x in after <==> x == m || (x in before && KeyOf(x) != KeyOf(m))
  }

  /** `after` is `before` without any record of key `k`. */
  ghost predicate Erased(before: seq<Match>, k: Key, after: seq<Match>) {
    && DistinctKeys(after)
    && forall x :: x in after <==> x in before && KeyOf(x) != k
  }

  lemma HoldsUpserted(subs: map<Path, seq<Match>>, entries: map<Key, Qos>, m: Match, after: seq<Match>)
    requires Holds(subs, entries)
    requires PathTo(m.filter) in subs && Upserted(subs[PathTo(m.filter)], m, after)
    ensures Holds(subs[PathTo(m.filter) := after], entries[KeyOf(m) := m.qos])
  {
    var entries' := entries[KeyOf(m) := m.qos];
    var subs' := subs[PathTo(m.filter) := after];
    forall p, x | p in subs' && x in subs'[p] ensures Stored(entries', p, x) {
      if p != PathTo(m.filter) || x != m {
        assert Stored(entries, p, x);
      }
    }
    forall k | k in entries' ensures Findable(subs', entries', k) {
      if k != KeyOf(m) {
        assert Findable(subs, entries, k);
      }
    }
  }

  lemma HoldsErased(subs: map<Path, seq<Match>>, entries: map<Key, Qos>, k: Key, after: seq<Match>)
    requires Holds(subs, entries)
    requires PathTo(k.filter) in subs && Erased(subs[PathTo(k.filter)], k, after)
    ensures Holds(subs[PathTo(k.filter) := after], entries - {k})
  {
    var entries' := entries - {k};
    var subs' := subs[PathTo(k.filter) := after];
    forall p, x | p in subs' && x in subs'[p] ensures Stored(entries', p, x) {
      assert x in subs[p];
      assert Stored(entries, p, x);
    }
    forall j | j in entries' ensures Findable(subs', entries', j) {
      assert Findable(subs, entries, j);
    }
  }

  lemma HoldsGrown(subs: map<Path, seq<Match>>, entries: map<Key, Qos>, p: Path)
    requires Holds(subs, entries)
    requires p !in subs
    ensures Holds(subs[p := []], entries)
  {
    var subs' := subs[p := []];
    forall k | k in entries ensures Findable(subs', entries, k) {
      assert Findable(subs, entries, k);
    }
  }

  lemma UpdateUpserts(ms: seq<Match>, j: nat, m: Match)
    requires DistinctKeys(ms)
    requires j < |ms| && KeyOf(ms[j]) == KeyOf(m)
    ensures Upserted(ms, m, ms[j := m])
  {
    var after := ms[j := m];
    forall x ensures x in after <==> x == m || (x in ms && KeyOf(x) != KeyOf(m)) {
      if x in after {
        var i :| 0 <= i < |after| && after[i] == x;
      }
      if x in ms && KeyOf(x) != KeyOf(m) {
        var i :| 0 <= i < |ms| && ms[i] == x;
        assert after[i] == x;
      }
      assert after[j] == m;
    }
  }

  lemma WellPathedGrown(paths: set<Path>, p: Path, t: Text)
    requires WellPathed(paths)
    requires p in paths && MultiOnlyLast(Down(p, t))
    ensures WellPathed(paths + {Down(p, t)})
    ensures Down(p, t) !in paths ==> forall u :: Down(Down(p, t), u) !in paths
  {
    var paths' := paths + {Down(p, t)};
    forall q | q in paths' ensures ParentIn(paths', q) {
      if q in paths { assert ParentIn(paths, q); }
    }
    forall u | Down(Down(p, t), u) in paths ensures Down(p, t) in paths {
      assert ParentIn(paths, Down(Down(p, t), u));
    }
  }

  lemma {:induction false} PrefixPresent(paths: set<Path>, levels: seq<Text>, i: nat, n: nat)
    requires WellPathed(paths)
    requires i <= n <= |levels|
    requires PathOf(levels, n) in paths
    ensures PathOf(levels, i) in paths
    decreases n - i
  {
    if i < n {
      assert ParentIn(paths, PathOf(levels, n));
      PrefixPresent(paths, levels, i, n - 1);
    }
  }

  lemma {:induction false} ValidFilterPath(levels: seq<Text>, n: nat)
    requires T.ValidLevels(levels)
    requires n <= |levels|
    ensures n < |levels| ==> NoMulti(PathOf(levels, n))
    ensures MultiOnlyLast(PathOf(levels, n))
  {
    if n > 0 {
      assert T.ValidLevel(levels[n - 1], n - 1 == |levels| - 1);
      ValidFilterPath(levels, n - 1);
    }
  }

  // ----- What a walk from a node has to find -----

  /** The filter's path goes through the node that its first `idx` levels lead to. */
  ghost predicate Under(levels: seq<Text>, path: Path, idx: nat) {
    idx <= |levels| && PathOf(levels, idx) == path
  }

  ghost predicate IsEntry(entries: map<Key, Qos>, m: Match) {
    KeyOf(m) in entries && entries[KeyOf(m)] == m.qos
  }

  /**
   How many walks of the tree end at a filter: one per way of choosing, level
   by level, the `#` child, the `+` child or the child named like the topic's level.
   */
  ghost function Walks(filters: seq<Text>, topics: seq<Text>, i: nat): nat
    requires i <= |topics|
    decreases |topics| - i
  {
    if i == |topics| then
      if |filters| == i || (|filters| > i && filters[i] == T.MULTI_LEVEL) then 1 else 0
    else if |filters| <= i then 0
    else
      (if filters[i] == T.MULTI_LEVEL then 1 else 0)
      + (if filters[i] == T.SINGLE_LEVEL then Walks(filters, topics, i + 1) else 0)
      + (if filters[i] == topics[i] then Walks(filters, topics, i + 1) else 0)
  }

  /** A filter is reported at all exactly when the flat matcher accepts it. */
  lemma {:induction false} WalksMeanMatch(filters: seq<Text>, topics: seq<Text>, i: nat)
    requires i <= |topics| && i <= |filters|
    ensures Walks(filters, topics, i) > 0 <==> T.MatchLevels(filters, topics, i, i)
    decreases |topics| - i
  {
    if i < |topics| && i < |filters| { WalksMeanMatch(filters, topics, i + 1); }
  }

  /** No level of the topic from `i` on is `+`, and the last one is not `#`. */
  ghost predicate Unrepeated(topics: seq<Text>, i: nat := 0) {
    forall j :: i <= j < |topics| ==>
      topics[j] != T.SINGLE_LEVEL && (topics[j] == T.MULTI_LEVEL ==> j < |topics| - 1)
  }

  lemma {:induction false} OneWalk(filters: seq<Text>, topics: seq<Text>, i: nat)
    requires i <= |topics| && Unrepeated(topics, i)
    requires forall j :: 0 <= j < |filters| - 1 ==> filters[j] != T.MULTI_LEVEL
    ensures Walks(filters, topics, i) <= 1
    decreases |topics| - i
  {
    if i < |topics| && i < |filters| { OneWalk(filters, topics, i + 1); }
  }

  /** A filter of single-level wildcards, with a final `#` if asked for. */
  function Wildcards(n: nat, multi: bool): (filters: seq<Text>)
    ensures |filters| == n
    ensures T.ValidLevels(filters)
  {
    seq(n, i => if multi && i == n - 1 then T.MULTI_LEVEL else T.SINGLE_LEVEL)
  }

  lemma {:induction false} WildcardsRepeat(topics: seq<Text>, multi: bool, i: nat, j: nat)
    requires i <= j < |topics|
    requires if multi then j == |topics| - 1 && topics[j] == T.MULTI_LEVEL else topics[j] == T.SINGLE_LEVEL
    ensures Walks(Wildcards(|topics|, multi), topics, i) >= 2
    decreases |topics| - i
  {
    var f := Wildcards(|topics|, multi);
    if i < j {
      WildcardsRepeat(topics, multi, i + 1, j);
    } else if multi {
      assert Walks(f, topics, i + 1) == 1;
    } else {
      WildcardsMatch(topics, i + 1);
    }
  }

  lemma {:induction false} WildcardsMatch(topics: seq<Text>, i: nat)
    requires i <= |topics|
    ensures Walks(Wildcards(|topics|, false), topics, i) >= 1
    decreases |topics| - i
  {
    if i < |topics| { WildcardsMatch(topics, i + 1); }
  }

  /**
   Whatever the tree holds, no entry is reported twice for a topic without `+`
   levels and without a final `#` level; for any other topic some valid filter is.
   */
  lemma ReportedOnceIff(topics: seq<Text>)
    ensures Unrepeated(topics) <==>
            forall filters :: T.ValidLevels(filters) ==> Walks(filters, topics, 0) <= 1
  {
    if Unrepeated(topics) {
      forall filters | T.ValidLevels(filters) ensures Walks(filters, topics, 0) <= 1 {
        forall j | 0 <= j < |filters| - 1 ensures filters[j] != T.MULTI_LEVEL {
          assert T.ValidLevel(filters[j], j == |filters| - 1);
        }
        OneWalk(filters, topics, 0);
      }
    } else {
      var j :| 0 <= j < |topics| &&
        (topics[j] == T.SINGLE_LEVEL || (topics[j] == T.MULTI_LEVEL && j == |topics| - 1));
      WildcardsRepeat(topics, topics[j] == T.MULTI_LEVEL, 0, j);
    }
  }

  /** A publishable name has no wildcard levels. */
  lemma NamesAreUnrepeated(topic: Text)
    requires T.ValidName(topic)
    ensures Unrepeated(T.Split(topic))
  {
    var topics := T.Split(topic);
    assert T.PLUS in T.SINGLE_LEVEL && T.HASH in T.MULTI_LEVEL;
    forall j | 0 <= j < |topics| ensures topics[j] != T.SINGLE_LEVEL && topics[j] != T.MULTI_LEVEL {
      T.LevelBytes(topic, j);
    }
  }

  /** How often a walk that starts at `path` with `idx` levels done must report `m`. */
  ghost function Expected(entries: map<Key, Qos>, m: Match, topics: seq<Text>, path: Path, idx: nat): nat
    requires idx <= |topics|
  {
    if IsEntry(entries, m) && Under(T.Split(m.filter), path, idx) then Walks(T.Split(m.filter), topics, idx) else 0
  }

  /** The records of a node are the entries whose filter ends there. */
  lemma RecordsOfNode(subs: map<Path, seq<Match>>, entries: map<Key, Qos>, p: Path, m: Match)
    requires Holds(subs, entries)
    ensures (p in subs && m in subs[p]) <==> (IsEntry(entries, m) && PathTo(m.filter) == p)
  {
    if p in subs && m in subs[p] { assert Stored(entries, p, m); }
    if IsEntry(entries, m) { assert Findable(subs, entries, KeyOf(m)); }
  }

  /** No entry lies below a node that does not exist. */
  lemma NothingBelow(subs: map<Path, seq<Match>>, entries: map<Key, Qos>, m: Match, path: Path, idx: nat)
    requires Holds(subs, entries) && WellPathed(subs.Keys)
    requires IsEntry(entries, m) && Under(T.Split(m.filter), path, idx)
    ensures path in subs
  {
    assert Findable(subs, entries, KeyOf(m));
    PrefixPresent(subs.Keys, T.Split(m.filter), idx, |T.Split(m.filter)|);
  }

  lemma {:induction false} NoMultiInside(levels: seq<Text>, n: nat, i: nat)
    requires i < n <= |levels| && NoMulti(PathOf(levels, n))
    ensures levels[i] != T.MULTI_LEVEL
  {
    if i < n - 1 { NoMultiInside(levels, n - 1, i); }
  }

  /** The filter of an entry ends at its first `#`. */
  lemma MultiEnds(subs: map<Path, seq<Match>>, entries: map<Key, Qos>, m: Match, idx: nat)
    requires Holds(subs, entries) && WellPathed(subs.Keys)
    requires IsEntry(entries, m)
    requires idx < |T.Split(m.filter)| && T.Split(m.filter)[idx] == T.MULTI_LEVEL
    ensures |T.Split(m.filter)| == idx + 1
  {
    var levels := T.Split(m.filter);
    assert Findable(subs, entries, KeyOf(m));
    assert MultiOnlyLast(PathTo(m.filter));
    if idx < |levels| - 1 { NoMultiInside(levels, |levels| - 1, idx); }
  }

  lemma FilterEndsAtMulti(subs: map<Path, seq<Match>>, entries: map<Key, Qos>, m: Match)
    requires Holds(subs, entries) && WellPathed(subs.Keys)
    requires IsEntry(entries, m)
    ensures forall i :: 0 <= i < |T.Split(m.filter)| - 1 ==> T.Split(m.filter)[i] != T.MULTI_LEVEL
  {
    forall i | 0 <= i < |T.Split(m.filter)| - 1 ensures T.Split(m.filter)[i] != T.MULTI_LEVEL {
      if T.Split(m.filter)[i] == T.MULTI_LEVEL { MultiEnds(subs, entries, m, i); }
    }
  }

  lemma CountedTwice(ms: seq<Match>, i: nat, j: nat)
    requires i < j < |ms|
    ensures ms[i] == ms[j] ==> multiset(ms)[ms[i]] >= 2
  {
    assert ms == ms[..j] + [ms[j]] + ms[j + 1..];
    assert ms[i] in ms[..j];
  }

  ghost function Depth(path: Path): nat {
    if path.Root? then 0 else Depth(path.parent) + 1
  }

  lemma {:induction false} DepthOfPath(levels: seq<Text>, n: nat)
    requires n <= |levels|
    ensures Depth(PathOf(levels, n)) == n
  {
    if n > 0 { DepthOfPath(levels, n - 1); }
  }

  /** The records of node `p`, as far as it exists. */
  ghost function At(subs: map<Path, seq<Match>>, p: Path): seq<Match> {
    if p in subs then subs[p] else []
  }

  /** The records of a child of `path` are the entries that go through `path` and end one level below. */
  lemma RecordsOfChild(subs: map<Path, seq<Match>>, entries: map<Key, Qos>, path: Path, t: Text, m: Match)
    requires Holds(subs, entries)
    ensures m in At(subs, Down(path, t)) <==>
            (var levels := T.Split(m.filter);
             && IsEntry(entries, m) && |levels| == Depth(path) + 1
             && Under(levels, path, Depth(path)) && levels[Depth(path)] == t)
  {
    var levels := T.Split(m.filter);
    RecordsOfNode(subs, entries, Down(path, t), m);
    DepthOfPath(levels, |levels|);
  }

  ghost predicate Reports(entries: map<Key, Qos>, found: seq<Match>, topics: seq<Text>, path: Path, idx: nat)
    requires idx <= |topics|
  {
    forall m :: multiset(found)[m] == Expected(entries, m, topics, path, idx)
  }

  lemma {:induction false} RecordedOnce(ms: seq<Match>, m: Match)
    requires DistinctKeys(ms)
    ensures multiset(ms)[m] == if m in ms then 1 else 0
  {
    if ms != [] {
      var n := |ms| - 1;
      RecordedOnce(ms[..n], m);
      assert ms == ms[..n] + [ms[n]];
      assert m in ms[..n] ==> exists i :: 0 <= i < n && ms[i] == m;
    }
  }

  lemma RecordedOnceAt(subs: map<Path, seq<Match>>, entries: map<Key, Qos>, p: Path, m: Match)
    requires Holds(subs, entries)
    ensures multiset(At(subs, p))[m] == if m in At(subs, p) then 1 else 0
  {
    if p in subs { assert DistinctKeys(subs[p]); }
    RecordedOnce(At(subs, p), m);
  }

  /** All levels of the topic consumed: the node's own records, and those of its `#` child. */
  lemma ReportsAtEnd(subs: map<Path, seq<Match>>, entries: map<Key, Qos>, topics: seq<Text>, path: Path)
    requires Holds(subs, entries) && WellPathed(subs.Keys)
    requires Depth(path) == |topics|
    ensures Reports(entries, At(subs, path) + At(subs, Down(path, T.MULTI_LEVEL)), topics, path, |topics|)
  {
    forall m ensures multiset(At(subs, path) + At(subs, Down(path, T.MULTI_LEVEL)))[m]
                     == Expected(entries, m, topics, path, |topics|)
    {
      var levels := T.Split(m.filter);
      RecordsOfNode(subs, entries, path, m);
      DepthOfPath(levels, |levels|);
      RecordsOfChild(subs, entries, path, T.MULTI_LEVEL, m);
      RecordedOnceAt(subs, entries, path, m);
      RecordedOnceAt(subs, entries, Down(path, T.MULTI_LEVEL), m);
      if IsEntry(entries, m) && |topics| < |levels| && levels[|topics|] == T.MULTI_LEVEL {
        MultiEnds(subs, entries, m, |topics|);
      }
    }
  }

  /** Levels left: the `#` child's records, then the walks below `+` and below the topic's level. */
  lemma ReportsInside(subs: map<Path, seq<Match>>, entries: map<Key, Qos>, topics: seq<Text>, path: Path, idx: nat,
                      single: seq<Match>, exact: seq<Match>)
    requires Holds(subs, entries) && WellPathed(subs.Keys)
    requires Depth(path) == idx < |topics|
    requires Reports(entries, single, topics, Down(path, T.SINGLE_LEVEL), idx + 1)
    requires Reports(entries, exact, topics, Down(path, topics[idx]), idx + 1)
    ensures Reports(entries, At(subs, Down(path, T.MULTI_LEVEL)) + single + exact, topics, path, idx)
  {
    forall m ensures multiset(At(subs, Down(path, T.MULTI_LEVEL)) + single + exact)[m]
                     == Expected(entries, m, topics, path, idx)
    {
      var levels := T.Split(m.filter);
      RecordsOfChild(subs, entries, path, T.MULTI_LEVEL, m);
      RecordedOnceAt(subs, entries, Down(path, T.MULTI_LEVEL), m);
      if IsEntry(entries, m) && idx < |levels| && levels[idx] == T.MULTI_LEVEL {
        MultiEnds(subs, entries, m, idx);
      }
    }
  }

  /** Nothing is expected below a node that does not exist. */
  lemma ReportsNothing(subs: map<Path, seq<Match>>, entries: map<Key, Qos>, topics: seq<Text>, path: Path, idx: nat)
    requires Holds(subs, entries) && WellPathed(subs.Keys)
    requires idx <= |topics| && path !in subs
    ensures Reports(entries, [], topics, path, idx)
  {
    forall m ensures Expected(entries, m, topics, path, idx) == 0 {
      if IsEntry(entries, m) && Under(T.Split(m.filter), path, idx) {
        NothingBelow(subs, entries, m, path, idx);
      }
    }
  }

  class Node {
    var children: map<Text, Node>
    var subscribers: seq<Match>
    ghost const path: Path

    constructor (ghost path: Path)
      ensures children == map[] && subscribers == [] && this.path == path
    {
      this.path := path;
      children := map[];
      subscribers := [];
    }
  }

  class TopicTree {
    const root: Node

    /** The nodes and their subscriber lists by path, and the map the tree stands for. */
    ghost var nodes: map<Path, Node>
    ghost var subs: map<Path, seq<Match>>
    ghost var entries: map<Key, Qos>
    ghost var repr: set<Node>

    /** The node at path `p` has exactly the children and subscribers recorded for it. */
    ghost predicate Linked(p: Path)
      requires p in nodes && p in subs
      reads this`nodes, this`subs, nodes[p]
    {
      && nodes[p].subscribers == subs[p]
      && (forall t :: t in nodes[p].children <==> Down(p, t) in nodes)
      && (forall t :: t in nodes[p].children ==> nodes[p].children[t] == nodes[Down(p, t)])
    }

    ghost predicate Shaped()
      reads this`nodes, this`subs, this`repr, repr
    {
      && Root in nodes && nodes[Root] == root
      && nodes.Keys == subs.Keys
      && WellPathed(nodes.Keys)
      && (forall p :: p in nodes ==> nodes[p] in repr && nodes[p].path == p)
      && (forall p {:trigger Linked(p)} :: p in nodes ==> Linked(p))
    }

    ghost predicate Valid()
      reads this, repr
    {
      Shaped() && Holds(subs, entries)
    }

    /** The tree has gained no node that existed before. */
    twostate predicate Grown()
      reads this`repr
    {
      forall n {:trigger n in repr} :: n in repr ==> n in old(repr) || fresh(n)
    }

    constructor ()
      ensures Valid()
      ensures entries == map[]
      ensures fresh(repr)
    {
      var r := new Node(Root);
      root := r;
      nodes := map[Root := r];
      subs := map[Root := []];
      repr := {r};
      entries := map[];
    }

    /** Links a new, empty node below an existing one. */
    method Attach(node: Node, level: Text, child: Node, ghost path: Path)
      requires Shaped()
      requires path in nodes && nodes[path] == node && level !in node.children
      requires MultiOnlyLast(Down(path, level))
      requires child !in repr && child.path == Down(path, level) && child.children == map[] && child.subscribers == []
      modifies this`nodes, this`repr, this`subs, node`children
      ensures Shaped()
      ensures nodes == old(nodes)[Down(path, level) := child]
      ensures subs == old(subs)[Down(path, level) := []]
      ensures repr == old(repr) + {child}
    {
      assert Linked(path);
      WellPathedGrown(nodes.Keys, path, level);
      node.children := node.children[level := child];
      nodes := nodes[Down(path, level) := child];
      subs := subs[Down(path, level) := []];
      repr := repr + {child};
      assert nodes.Keys == old(nodes.Keys) + {Down(path, level)};
      assert Linked(Down(path, level));
      forall p | p in old(nodes) ensures Linked(p) {
        assert old(Linked(p)) && nodes[p] == old(nodes[p]);
        if p != path { assert nodes[p] != node; }
      }
    }

    /** One step down the tree, creating the child if it is not there. */
    method Descend(node: Node, level: Text, ghost path: Path) returns (child: Node)
      requires Valid()
      requires path in nodes && nodes[path] == node
      requires MultiOnlyLast(Down(path, level))
      modifies this`nodes, this`repr, this`subs, node`children
      ensures Valid()
      ensures Down(path, level) in nodes && nodes[Down(path, level)] == child
      ensures fresh(repr - old(repr))
    {
      assert Linked(path);
      if level !in node.children {
        HoldsGrown(subs, entries, Down(path, level));
        child := new Node(Down(path, level));
        Attach(node, level, child, path);
      } else {
        child := node.children[level];
      }
    }

    /** Stores a new subscriber list in a node, and the map that the tree then holds. */
    method Replace(node: Node, after: seq<Match>, ghost path: Path, ghost entries': map<Key, Qos>)
      requires Shaped()
      requires path in nodes && nodes[path] == node
      requires Holds(subs[path := after], entries')
      modifies this`subs, this`entries, node`subscribers
      ensures Valid()
      ensures entries == entries'
    {
      node.subscribers := after;
      subs := subs[path := after];
      entries := entries';
      forall p | p in nodes ensures Linked(p) {
        assert old(Linked(p));
      }
    }

    /** Walks to the node of a valid filter, creating what is missing. */
    method Grow(levels: seq<Text>) returns (node: Node)
      requires Valid()
      requires T.ValidLevels(levels)
      modifies this`nodes, this`repr, this`subs, repr`children
      ensures Valid()
      ensures PathOf(levels, |levels|) in nodes && nodes[PathOf(levels, |levels|)] == node
      ensures fresh(repr - old(repr))
    {
      node := root;
      for i := 0 to |levels|
        invariant Valid()
        invariant PathOf(levels, i) in nodes && nodes[PathOf(levels, i)] == node
        invariant fresh(repr - old(repr))
      {
        ValidFilterPath(levels, i + 1);
        node := Descend(node, levels[i], PathOf(levels, i));
      }
    }

    /** Walks to the node of a filter, or gives up where the path ends. */
    method Locate(levels: seq<Text>) returns (node: Node?)
      requires Shaped()
      ensures node == null <==> PathOf(levels, |levels|) !in nodes
      ensures node != null ==> nodes[PathOf(levels, |levels|)] == node
    {
      var at := root;
      for i := 0 to |levels|
        invariant PathOf(levels, i) in nodes && nodes[PathOf(levels, i)] == at
      {
        assert Linked(PathOf(levels, i));
        if levels[i] !in at.children {
          assert PathOf(levels, |levels|) !in nodes by {
            if PathOf(levels, |levels|) in nodes {
              PrefixPresent(nodes.Keys, levels, i + 1, |levels|);
            }
          }
          return null;
        }
        at := at.children[levels[i]];
      }
      return at;
    }

    /** Subscribes, or changes the QoS of an existing subscription. */
    method Add(session: Session, filter: Text, qos: Qos)
      requires Valid()
      requires T.ValidFilter(filter)
      modifies this, repr
      ensures Valid()
      ensures entries == old(entries)[Key(session, filter) := qos]
      ensures Grown()
    {
      var levels := T.SplitTopic(filter);
      T.LevelsVersusCharacters(filter);
      var node := Grow(levels);
      Put(node, session, filter, qos);
    }

    /** Enters a subscription in the node of its filter. */
    method Put(node: Node, session: Session, filter: Text, qos: Qos)
      requires Valid()
      requires PathTo(filter) in nodes && nodes[PathTo(filter)] == node
      modifies this`subs, this`entries, node`subscribers
      ensures Valid()
      ensures entries == old(entries)[Key(session, filter) := qos]
    {
      assert node.subscribers == subs[PathTo(filter)] by { assert Linked(PathTo(filter)); }
      var after := Upsert(node.subscribers, session, filter, qos);
      HoldsUpserted(subs, entries, Match(session, filter, qos), after);
      Replace(node, after, PathTo(filter), entries[Key(session, filter) := qos]);
    }

    static method Upsert(ms: seq<Match>, session: Session, filter: Text, qos: Qos) returns (after: seq<Match>)
      requires DistinctKeys(ms)
      ensures Upserted(ms, Match(session, filter, qos), after)
    {
      for j := 0 to |ms|
        invariant forall i :: 0 <= i < j ==> KeyOf(ms[i]) != Key(session, filter)
      {
        if ms[j].session == session && ms[j].filter == filter {
          after := ms[j := ms[j].(qos := qos)];
          UpdateUpserts(ms, j, Match(session, filter, qos));
          return;
        }
      }
      after := ms + [Match(session, filter, qos)];
    }

    method Remove(session: Session, filter: Text)
      requires Valid()
      modifies this, repr
      ensures Valid()
      ensures entries == old(entries) - {Key(session, filter)}
      ensures repr == old(repr)
    {
      var levels := T.SplitTopic(filter);
      var node := Locate(levels);
      if node == null {
        assert Key(session, filter) in entries ==>
          Findable(subs, entries, Key(session, filter));
        return;
      }
      assert node.subscribers == subs[PathTo(filter)] by { assert Linked(PathTo(filter)); }
      var after := Erase(node.subscribers, session, filter);
      HoldsErased(subs, entries, Key(session, filter), after);
      Replace(node, after, PathTo(filter), entries - {Key(session, filter)});
    }

    static method Erase(ms: seq<Match>, session: Session, filter: Text) returns (after: seq<Match>)
      requires DistinctKeys(ms)
      ensures Erased(ms, Key(session, filter), after)
    {
      after := [];
      for j := 0 to |ms|
        invariant DistinctKeys(after)
        invariant forall x :: x in after <==> x in ms[..j] && KeyOf(x) != Key(session, filter)
      {
        assert ms[..j + 1] == ms[..j] + [ms[j]];
        if !(ms[j].session == session && ms[j].filter == filter) {
          after := after + [ms[j]];
        }
      }
      assert ms[..|ms|] == ms;
    }

    /** Appends what matches from `node` on to the result, in the order of the source. */
    method Collect(node: Node, topics: seq<Text>, idx: nat, ghost path: Path) returns (found: seq<Match>)
      requires Valid()
      requires path in nodes && nodes[path] == node
      requires Depth(path) == idx <= |topics|
      ensures Reports(entries, found, topics, path, idx)
      decreases |topics| - idx
    {
      assert Linked(path);
      var multi := [];
      if T.MULTI_LEVEL in node.children {
        multi := node.children[T.MULTI_LEVEL].subscribers;
        assert Linked(Down(path, T.MULTI_LEVEL));
      }
      if idx == |topics| {
        ReportsAtEnd(subs, entries, topics, path);
        return node.subscribers + multi;
      }
      var single, exact := [], [];
      if T.SINGLE_LEVEL in node.children {
        single := Collect(node.children[T.SINGLE_LEVEL], topics, idx + 1, Down(path, T.SINGLE_LEVEL));
      } else {
        ReportsNothing(subs, entries, topics, Down(path, T.SINGLE_LEVEL), idx + 1);
      }
      if topics[idx] in node.children {
        exact := Collect(node.children[topics[idx]], topics, idx + 1, Down(path, topics[idx]));
      } else {
        ReportsNothing(subs, entries, topics, Down(path, topics[idx]), idx + 1);
      }
      ReportsInside(subs, entries, topics, path, idx, single, exact);
      return multi + single + exact;
    }

    /** All entries whose filter matches the topic. */
    method FindMatches(topic: Text) returns (out: seq<Match>)
      requires Valid()
      ensures forall m :: m in out <==> IsEntry(entries, m) && T.Matches(m.filter, topic)
      ensures forall m :: m in out ==> multiset(out)[m] == Walks(T.Split(m.filter), T.Split(topic), 0)
      ensures Unrepeated(T.Split(topic)) ==> forall i, j :: 0 <= i < j < |out| ==> KeyOf(out[i]) != KeyOf(out[j])
    {
      var topics := T.SplitTopic(topic);
      out := Collect(root, topics, 0, Root);
      forall m ensures m in out <==> IsEntry(entries, m) && T.Matches(m.filter, topic) {
        assert m in out <==> multiset(out)[m] > 0;
        WalksMeanMatch(T.Split(m.filter), topics, 0);
      }
      if Unrepeated(topics) {
        forall i, j | 0 <= i < j < |out| ensures KeyOf(out[i]) != KeyOf(out[j]) {
          assert IsEntry(entries, out[i]) && IsEntry(entries, out[j]);
          FilterEndsAtMulti(subs, entries, out[i]);
          OneWalk(T.Split(out[i].filter), topics, 0);
          CountedTwice(out, i, j);
        }
      }
    }
  }
}
