/**
 Routing client by client, the way the router does it: first a table of who is
 to get the message at which QoS, then one client after the other, in any order.
 The outcome is that of routing in one step.
 */
module RoutePlan {
  import opened Bytes
  import opened Model
  import opened Broker
  import opened Invariant
  import T = Topic
  import O = Outbound
  import Tree = TopicTree
  import Box = Outbox

  /** Some of the first `n` matches is for a live session of client `c`, at this QoS or more. */
  ghost predicate Seen(found: seq<Match>, n: nat, sessions: Sessions, msg: Message, c: Text, q: Qos)
    requires n <= |found|
  {
    exists i :: 0 <= i < n && Live(sessions, found[i].session) && found[i].session.clientId == c
                && MinQos(found[i].qos, msg.qos) >= q
  }

  /** The table holds, for every client with a match so far, the highest of its capped QoS levels. */
  ghost predicate Tally(found: seq<Match>, n: nat, sessions: Sessions, msg: Message, best: map<Text, Qos>)
    requires n <= |found|
  {
    && (forall c :: c in best <==> Seen(found, n, sessions, msg, c, 0))
    && (forall c, q: Qos :: c in best ==> (q <= best[c] <==> Seen(found, n, sessions, msg, c, q)))
  }

  lemma SeenStep(found: seq<Match>, n: nat, sessions: Sessions, msg: Message, c: Text, q: Qos)
    requires n < |found|
    ensures Seen(found, n + 1, sessions, msg, c, q) <==>
              || Seen(found, n, sessions, msg, c, q)
              || (Live(sessions, found[n].session) && found[n].session.clientId == c
                  && MinQos(found[n].qos, msg.qos) >= q)
    ensures Seen(found, n, sessions, msg, c, q) ==> Seen(found, n, sessions, msg, c, 0)
  {
  }

  lemma TallyStep(found: seq<Match>, n: nat, sessions: Sessions, msg: Message, best: map<Text, Qos>)
    requires n < |found| && Tally(found, n, sessions, msg, best)
    ensures !Live(sessions, found[n].session) ==> Tally(found, n + 1, sessions, msg, best)
    ensures
      var d, q := found[n].session.clientId, MinQos(found[n].qos, msg.qos);
      Live(sessions, found[n].session) ==>
        Tally(found, n + 1, sessions, msg, best[d := if d in best && best[d] >= q then best[d] else q])
  {
    var d, e := found[n].session.clientId, MinQos(found[n].qos, msg.qos);
    var best' := if !Live(sessions, found[n].session) then best
                 else best[d := if d in best && best[d] >= e then best[d] else e];
    forall c ensures c in best' <==> Seen(found, n + 1, sessions, msg, c, 0) {
      SeenStep(found, n, sessions, msg, c, 0);
    }
    var n' := n + 1;
    forall c, q: Qos | c in best' ensures q <= best'[c] <==> Seen(found, n', sessions, msg, c, q) {
      SeenStep(found, n, sessions, msg, c, q);
    }
  }

  /** Everything that is to be routed to: the clients, their best QoS and their sessions. */
  ghost predicate Plan(s: State, msg: Message, best: map<Text, Qos>, owner: map<Text, Session>) {
    && (forall c :: c in best <==>
          c in s.sessions && s.sessions[c].clientId == c && Wants(s.entries, s.sessions[c], msg.topic, 0))
    && (forall c :: c in best ==>
          c in owner && owner[c] == s.sessions[c] && best[c] == Effective(s.entries, s.sessions[c], msg))
  }

  /** The message reaches one client. */
  ghost function RouteOne(s: State, msg: Message, c: Text, x: Session, q: Qos): State {
    if Online(s.contexts, s.byId, c) then
      var ch := s.byId[c];
      SetContext(s, ch, s.contexts[ch].(out := O.Deliver(s.contexts[ch].out, msg, q, false, false, s.clock, true)))
    else if !x.clean && q > AT_MOST_ONCE then
      s.(queues := s.queues[x := Box.Pushed(QueueOf(s.queues, x), Box.OutboxMessage(msg, q, false))])
    else s
  }

  /** The contexts when the message has reached the clients in `done`. */
  ghost function PartContexts(s: State, msg: Message, done: set<Text>): Contexts {
    map ch | ch in s.contexts ::
      if s.contexts[ch].clientId in done then
        s.contexts[ch].(out := RoutedOut(s.contexts, s.byId, s.sessions, s.entries, s.clock, msg, ch))
      else s.contexts[ch]
  }

  ghost predicate KeepsOf(s: State, msg: Message, done: set<Text>, x: Session) {
    x.clientId in done && Keeps(s.contexts, s.byId, s.sessions, s.entries, msg, x)
  }

  ghost function PartQueues(s: State, msg: Message, done: set<Text>): Queues {
    map x | x in s.queues.Keys + s.sessions.Values && (x in s.queues || KeepsOf(s, msg, done, x)) ::
      if KeepsOf(s, msg, done, x) then
        Box.Pushed(QueueOf(s.queues, x), Box.OutboxMessage(msg, Effective(s.entries, x, msg), false))
      else s.queues[x]
  }

  ghost function Part(s: State, msg: Message, done: set<Text>): State {
    s.(contexts := PartContexts(s, msg, done), queues := PartQueues(s, msg, done))
  }

  lemma PartNone(s: State, msg: Message)
    ensures Part(s, msg, {}) == s
  {
    assert PartContexts(s, msg, {}) == s.contexts;
    assert PartQueues(s, msg, {}) == s.queues;
  }

  /** Everyone who is to get the message is in `done`. */
  ghost predicate AllDone(s: State, msg: Message, done: set<Text>) {
    forall c :: c in s.sessions && s.sessions[c].clientId == c && Wants(s.entries, s.sessions[c], msg.topic, 0) ==>
      c in done
  }

  lemma AllContexts(s: State, msg: Message, done: set<Text>)
    requires Inv(s) && AllDone(s, msg, done)
    ensures PartContexts(s, msg, done) == RoutedContexts(s.contexts, s.byId, s.sessions, s.entries, s.clock, msg)
  {
    forall ch | ch in s.contexts && Targets(s.contexts, s.byId, s.sessions, s.entries, msg.topic, ch)
      ensures s.contexts[ch].clientId in done
    {
      assert SessionOk(s.byId, s.sessions, s.nextSession, None, s.contexts[ch].clientId);
    }
  }

  lemma AllQueues(s: State, msg: Message, done: set<Text>)
    requires AllDone(s, msg, done)
    ensures PartQueues(s, msg, done) == RoutedQueues(s.contexts, s.byId, s.sessions, s.entries, s.queues, msg)
  {
    forall x ensures KeepsOf(s, msg, done, x) <==> Keeps(s.contexts, s.byId, s.sessions, s.entries, msg, x) { }
  }

  lemma PartAll(s: State, msg: Message, done: set<Text>)
    requires Inv(s) && AllDone(s, msg, done)
    ensures Part(s, msg, done) == Route(s, msg)
  {
    AllContexts(s, msg, done);
    AllQueues(s, msg, done);
  }

  lemma OnlineContexts(s: State, msg: Message, done: set<Text>, c: Text)
    requires Inv(s) && c !in done && Online(s.contexts, s.byId, c) && c in s.sessions
    requires Wants(s.entries, s.sessions[c], msg.topic, 0)
    ensures
      var ch, before := s.byId[c], PartContexts(s, msg, done);
      && ch in before && before[ch] == s.contexts[ch]
      && PartContexts(s, msg, done + {c}) ==
           before[ch := before[ch].(out := O.Deliver(before[ch].out, msg, Effective(s.entries, s.sessions[c], msg),
                                                     false, false, s.clock, true))]
  {
    assert BoundOk(s.contexts, s.byId, s.sessions, c);
    forall h | h in s.contexts && s.contexts[h].clientId == c ensures h == s.byId[c] {
      assert ContextOk(s.contexts, s.byId, s.nextChannel, h);
    }
  }

  lemma OnlineQueues(s: State, msg: Message, done: set<Text>, c: Text)
    requires Online(s.contexts, s.byId, c)
    ensures PartQueues(s, msg, done + {c}) == PartQueues(s, msg, done)
  {
    forall x ensures KeepsOf(s, msg, done + {c}, x) <==> KeepsOf(s, msg, done, x) { }
  }

  lemma OfflineContexts(s: State, msg: Message, done: set<Text>, c: Text)
    requires Inv(s) && !Online(s.contexts, s.byId, c)
    ensures PartContexts(s, msg, done + {c}) == PartContexts(s, msg, done)
  {
    forall h | h in s.contexts && s.contexts[h].clientId == c ensures !s.contexts[h].connected {
      assert ContextOk(s.contexts, s.byId, s.nextChannel, h);
    }
  }

  lemma OfflineQueues(s: State, msg: Message, done: set<Text>, c: Text)
    requires c !in done && !Online(s.contexts, s.byId, c) && c in s.sessions && s.sessions[c].clientId == c
    requires Wants(s.entries, s.sessions[c], msg.topic, 0)
    ensures
      var x, q, before := s.sessions[c], Effective(s.entries, s.sessions[c], msg), PartQueues(s, msg, done);
      PartQueues(s, msg, done + {c}) ==
        if !x.clean && q > AT_MOST_ONCE
        then before[x := Box.Pushed(QueueOf(before, x), Box.OutboxMessage(msg, q, false))]
        else before
  {
    assert s.sessions[c] in s.sessions.Values;
    var y, q := s.sessions[c], Effective(s.entries, s.sessions[c], msg);
    assert !KeepsOf(s, msg, done, y);
    forall x
      ensures KeepsOf(s, msg, done + {c}, x) <==>
              KeepsOf(s, msg, done, x) || (x == y && !y.clean && q > AT_MOST_ONCE)
    {
    }
  }

  /** Reaching one more client. */
  lemma PartStep(s: State, msg: Message, done: set<Text>, c: Text)
    requires Inv(s) && c !in done && c in s.sessions && Wants(s.entries, s.sessions[c], msg.topic, 0)
    ensures Part(s, msg, done + {c}) ==
            RouteOne(Part(s, msg, done), msg, c, s.sessions[c], Effective(s.entries, s.sessions[c], msg))
  {
    var part := Part(s, msg, done);
    assert Online(part.contexts, part.byId, c) == Online(s.contexts, s.byId, c);
    if Online(s.contexts, s.byId, c) {
      OnlineContexts(s, msg, done, c);
      OnlineQueues(s, msg, done, c);
    } else {
      assert SessionOk(s.byId, s.sessions, s.nextSession, None, c);
      OfflineContexts(s, msg, done, c);
      OfflineQueues(s, msg, done, c);
    }
  }

  lemma PlanStart(s: State, msg: Message, all: set<Text>)
    ensures Part(s, msg, all - all) == s
  {
    assert all - all == {};
    PartNone(s, msg);
  }

  lemma PlanStep(s: State, msg: Message, best: map<Text, Qos>, owner: map<Text, Session>, pending: set<Text>, c: Text)
    requires Inv(s) && Plan(s, msg, best, owner) && c in best && c in pending
    ensures c in owner
    ensures Part(s, msg, best.Keys - (pending - {c})) ==
            RouteOne(Part(s, msg, best.Keys - pending), msg, c, owner[c], best[c])
  {
    assert best.Keys - (pending - {c}) == (best.Keys - pending) + {c};
    PartStep(s, msg, best.Keys - pending, c);
  }

  lemma PlanDone(s: State, msg: Message, best: map<Text, Qos>, owner: map<Text, Session>)
    requires Inv(s) && Plan(s, msg, best, owner)
    ensures Part(s, msg, best.Keys - {}) == Route(s, msg)
  {
    assert best.Keys - {} == best.Keys;
    PartAll(s, msg, best.Keys);
  }

  /** The tally over the matches of the tree is the plan. */
  lemma TallyIsPlan(s: State, msg: Message, found: seq<Match>, best: map<Text, Qos>, owner: map<Text, Session>)
    requires forall m :: m in found <==> Tree.IsEntry(s.entries, m) && T.Matches(m.filter, msg.topic)
    requires Tally(found, |found|, s.sessions, msg, best)
    requires forall c :: c in best ==> c in owner && owner[c].clientId == c && Live(s.sessions, owner[c])
    ensures Plan(s, msg, best, owner)
  {
    forall c, q: Qos ensures Seen(found, |found|, s.sessions, msg, c, q) <==>
      c in s.sessions && s.sessions[c].clientId == c && q <= msg.qos && Wants(s.entries, s.sessions[c], msg.topic, q)
    {
      SeenIsWanted(s, msg, found, c, q);
    }
    forall c | c in best ensures best[c] == Effective(s.entries, s.sessions[c], msg) {
      assert best[c] <= best[c];
      assert Seen(found, |found|, s.sessions, msg, c, best[c]);
      assert 1 <= best[c] <==> Seen(found, |found|, s.sessions, msg, c, 1);
      assert 2 <= best[c] <==> Seen(found, |found|, s.sessions, msg, c, 2);
    }
  }

  lemma SeenIsWanted(s: State, msg: Message, found: seq<Match>, c: Text, q: Qos)
    requires forall m :: m in found <==> Tree.IsEntry(s.entries, m) && T.Matches(m.filter, msg.topic)
    ensures Seen(found, |found|, s.sessions, msg, c, q) <==>
            && c in s.sessions && s.sessions[c].clientId == c
            && q <= msg.qos && Wants(s.entries, s.sessions[c], msg.topic, q)
  {
    if Seen(found, |found|, s.sessions, msg, c, q) {
      var i :| 0 <= i < |found| && Live(s.sessions, found[i].session) && found[i].session.clientId == c
               && MinQos(found[i].qos, msg.qos) >= q;
      assert found[i] in found;
      assert Key(s.sessions[c], found[i].filter) in s.entries;
    }
    if c in s.sessions && s.sessions[c].clientId == c && q <= msg.qos && Wants(s.entries, s.sessions[c], msg.topic, q) {
      var x := s.sessions[c];
      var f :| Key(x, f) in s.entries && s.entries[Key(x, f)] >= q && T.Matches(f, msg.topic);
      var m := Match(x, f, s.entries[Key(x, f)]);
      assert m in found;
      var i :| 0 <= i < |found| && found[i] == m;
    }
  }
}
