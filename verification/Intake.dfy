/**
 What becomes of a PUBLISH, in every run, told by the history of its channel: it is
 new unless the same identifier is still unfinished there, and a new one is
 retained if so asked and routed at once, unless its QoS is 2.
 */
module Intake {
  import opened Bytes
  import opened Model
  import opened Broker
  import opened Invariant
  import opened Routing
  import opened Inbound
  import opened Outcomes
  import opened Lifecycle
  import T = Topic
  import R = RetainStore

  // ----- Unfinished identifiers -----

  /** A QoS 1 PUBLISH with identifier `pid` that the broker processes. */
  predicate Takes(s: State, e: Event, ch: ChannelId, pid: nat) {
    && e.On? && e.ch == ch && e.input.Publish? && ch in s.contexts && s.contexts[ch].connected
    && e.input.pub.qos == 1 && e.input.pub.packetId == pid && T.ValidName(e.input.pub.topic)
  }

  /** A PUBACK for `pid` that the broker processes. */
  predicate Pubacks(s: State, e: Event, ch: ChannelId, pid: nat) {
    e.On? && e.ch == ch && e.input == Ack(PubackAck, pid) && ch in s.contexts && s.contexts[ch].connected
  }

  /** A QoS 1 PUBLISH was processed on the channel and no PUBACK for its identifier since. */
  ghost predicate Unfinished(events: seq<Event>, states: seq<State>, ch: ChannelId, pid: nat, n: nat)
    requires n <= |events| < |states|
  {
    exists i :: 0 <= i < n && Takes(states[i], events[i], ch, pid)
                && forall k :: i < k < n ==> !Pubacks(states[k], events[k], ch, pid)
  }

  lemma UnfinishedStep(events: seq<Event>, states: seq<State>, ch: ChannelId, pid: nat, n: nat)
    requires n < |events| < |states|
    ensures Unfinished(events, states, ch, pid, n + 1) <==>
            || Takes(states[n], events[n], ch, pid)
            || (Unfinished(events, states, ch, pid, n) && !Pubacks(states[n], events[n], ch, pid))
  {
    if Unfinished(events, states, ch, pid, n + 1) && !Takes(states[n], events[n], ch, pid) {
      var i :| 0 <= i < n + 1 && Takes(states[i], events[i], ch, pid)
               && forall k :: i < k < n + 1 ==> !Pubacks(states[k], events[k], ch, pid);
      assert i < n && events[n] == events[n];
    }
    if Unfinished(events, states, ch, pid, n) && !Pubacks(states[n], events[n], ch, pid) {
      var i :| 0 <= i < n && Takes(states[i], events[i], ch, pid)
               && forall k :: i < k < n ==> !Pubacks(states[k], events[k], ch, pid);
    }
  }

  lemma NotedStep(s: State, e: Event, ch: ChannelId, pid: nat)
    requires Inv(s) && Admissible(s, e) && ch in s.contexts && ch in Step(s, e).contexts
    ensures pid in Step(s, e).contexts[ch].awaitingPuback <==>
            || Takes(s, e, ch, pid)
            || (pid in s.contexts[ch].awaitingPuback && !Pubacks(s, e, ch, pid))
  {
    ContextStep(s, e, ch);
  }

  lemma NotedLatest(maxConnections: nat, events: seq<Event>, states: seq<State>, ch: ChannelId, pid: nat, n: nat)
    requires IsRun(maxConnections, events, states) && 0 < n <= |events|
    requires ch in states[n - 1].contexts && ch in states[n].contexts
    ensures pid in states[n].contexts[ch].awaitingPuback <==>
            || Takes(states[n - 1], events[n - 1], ch, pid)
            || (pid in states[n - 1].contexts[ch].awaitingPuback && !Pubacks(states[n - 1], events[n - 1], ch, pid))
  {
    LatestStep(maxConnections, events, states, n);
    NotedStep(states[n - 1], events[n - 1], ch, pid);
  }

  lemma NothingUnfinished(maxConnections: nat, events: seq<Event>, states: seq<State>, ch: ChannelId, pid: nat, n: nat)
    requires IsRun(maxConnections, events, states) && n <= |events| && ch >= states[n].nextChannel
    ensures !Unfinished(events, states, ch, pid, n)
  {
    forall i: nat | i < n ensures !Takes(states[i], events[i], ch, pid) {
      InvReachable(maxConnections, events, states, i);
      NextChannelGrows(maxConnections, events, states, i, n);
      if ch in states[i].contexts { RegisteredBelow(states[i], ch); }
    }
  }

  lemma NothingNoted(maxConnections: nat, events: seq<Event>, states: seq<State>, ch: ChannelId, pid: nat, n: nat)
    requires IsRun(maxConnections, events, states) && 0 < n <= |events|
    requires ch !in states[n - 1].contexts && ch in states[n].contexts
    ensures states[n].contexts[ch].awaitingPuback == map[] && !Unfinished(events, states, ch, pid, n)
  {
    LatestStep(maxConnections, events, states, n);
    NewContexts(states[n - 1], events[n - 1], ch);
    NothingUnfinished(maxConnections, events, states, ch, pid, n - 1);
    UnfinishedStep(events, states, ch, pid, n - 1);
  }

  lemma NotedStays(maxConnections: nat, events: seq<Event>, states: seq<State>, ch: ChannelId, pid: nat, n: nat)
    requires IsRun(maxConnections, events, states) && 0 < n <= |events|
    requires ch in states[n - 1].contexts && ch in states[n].contexts
    requires pid in states[n - 1].contexts[ch].awaitingPuback <==> Unfinished(events, states, ch, pid, n - 1)
    ensures pid in states[n].contexts[ch].awaitingPuback <==> Unfinished(events, states, ch, pid, n)
  {
    UnfinishedStep(events, states, ch, pid, n - 1);
    NotedLatest(maxConnections, events, states, ch, pid, n);
  }

  /** In every reachable state an identifier is noted exactly while its QoS 1 PUBLISH is unfinished. */
  lemma {:induction false} NotedIsUnfinished(maxConnections: nat, events: seq<Event>, states: seq<State>,
                                             ch: ChannelId, pid: nat, n: nat)
    requires IsRun(maxConnections, events, states) && n <= |events| && ch in states[n].contexts
    ensures pid in states[n].contexts[ch].awaitingPuback <==> Unfinished(events, states, ch, pid, n)
  {
    if n > 0 {
      if ch in states[n - 1].contexts {
        NotedIsUnfinished(maxConnections, events, states, ch, pid, n - 1);
        NotedStays(maxConnections, events, states, ch, pid, n);
      } else {
        NothingNoted(maxConnections, events, states, ch, pid, n);
      }
    }
  }

  /** The channel has an unfinished PUBLISH of the same QoS and identifier. */
  ghost predicate Repeated(events: seq<Event>, states: seq<State>, ch: ChannelId, pub: PublishPacket, n: nat)
    requires n <= |events| < |states|
  {
    || (pub.qos == 1 && Unfinished(events, states, ch, pub.packetId, n))
    || (pub.qos == 2 && exists i: nat :: FirstUnreleased(events, states, ch, pub.packetId, n, i))
  }

  lemma RepeatedIsReceived(maxConnections: nat, events: seq<Event>, states: seq<State>, ch: ChannelId,
                           pub: PublishPacket, n: nat)
    requires IsRun(maxConnections, events, states) && n <= |events| && ch in states[n].contexts
    ensures AlreadyReceived(states[n].contexts[ch], pub) <==> Repeated(events, states, ch, pub, n)
  {
    var pid := pub.packetId;
    NotedIsUnfinished(maxConnections, events, states, ch, pid, n);
    HeldIsWaiting(maxConnections, events, states, ch, pid, n);
    WaitingIsFirst(events, states, ch, pid, n);
    if i: nat :| FirstUnreleased(events, states, ch, pid, n, i) {
      assert Waiting(events, states, ch, pid, n) == Some(i);
    }
    if Waiting(events, states, ch, pid, n).Some? {
      assert FirstUnreleased(events, states, ch, pid, n, Waiting(events, states, ch, pid, n).value);
    }
  }

  // ----- The outcome -----

  lemma PublishRoutes(s: State, ch: ChannelId, pub: PublishPacket)
    requires ch in s.contexts && s.contexts[ch].connected && T.ValidName(pub.topic)
    ensures RoutedBy(s, ch, Publish(pub)) ==
            if AlreadyReceived(s.contexts[ch], pub) || pub.qos == 2 || (pub.retain && pub.payload == []) then None
            else Some(Message(pub.topic, pub.payload, pub.qos, pub.retain, s.contexts[ch].clientId))
  {
  }

  lemma PublishRetains(s: State, ch: ChannelId, pub: PublishPacket)
    requires Inv(s) && ch in s.contexts && s.contexts[ch].connected && T.ValidName(pub.topic)
    ensures
      var s', m := OnPublish(s, ch, pub), Message(pub.topic, pub.payload, pub.qos, pub.retain, s.contexts[ch].clientId);
      if AlreadyReceived(s.contexts[ch], pub) || !pub.retain then s'.retained == s.retained
      else forall r :: r in s'.retained <==> (r == m && pub.payload != []) || (r in s.retained && r.topic != pub.topic)
  {
    PublishRetained(s, ch, pub);
    R.StoredMembers(s.retained, PublishedMessage(s.contexts[ch], pub));
    R.ClearedMembers(s.retained, pub.topic);
  }

  /**
   A PUBLISH of a connected client with a valid topic name, in every run. A repeated
   one routes and retains nothing. A new one replaces or, if it is empty, deletes
   the retained message of its topic if it is marked as retained; and it is routed,
   exactly as it came in, unless it is such a deletion or its QoS is 2.
   */
  lemma PublishOutcome(maxConnections: nat, events: seq<Event>, states: seq<State>, n: nat, pub: PublishPacket)
    requires IsRun(maxConnections, events, states) && n < |events|
    requires events[n].On? && events[n].input == Publish(pub) && T.ValidName(pub.topic)
    requires events[n].ch in states[n].contexts && states[n].contexts[events[n].ch].connected
    ensures
      var s, s', ch := states[n], states[n + 1], events[n].ch;
      var m := Message(pub.topic, pub.payload, pub.qos, pub.retain, s.contexts[ch].clientId);
      var again := Repeated(events, states, ch, pub, n);
      && Routed(s, events[n]) == (if again || pub.qos == 2 || (pub.retain && pub.payload == []) then None else Some(m))
      && (if again || !pub.retain then s'.retained == s.retained
          else forall r :: r in s'.retained <==>
                 (r == m && pub.payload != []) || (r in s.retained && r.topic != pub.topic))
  {
    var s, ch := states[n], events[n].ch;
    InvReachable(maxConnections, events, states, n);
    RepeatedIsReceived(maxConnections, events, states, ch, pub, n);
    PublishRoutes(s, ch, pub);
    PublishRetains(s, ch, pub);
    assert states[n + 1] == OnPublish(s, ch, pub);
  }
}
