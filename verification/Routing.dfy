/**
 What an event routes, and what routing does: from the subscription lists of
 the clients to one delivery, one queued message or nothing per client.
 */
module Routing {
  import opened Bytes
  import opened Model
  import opened Outbox
  import opened Broker
  import opened Invariant
  import T = Topic
  import O = Outbound
  import R = RetainStore

  // ----- The message an event routes -----

  function WillOf(ctx: Context): Option<Message> {
    if PublishesWill(ctx) then Some(WillMessage(ctx)) else None
  }

  /** The message that handling an input hands to the router, if any. */
  ghost function RoutedBy(s: State, ch: ChannelId, input: Input): Option<Message>
    requires ch in s.contexts
  {
    var ctx := s.contexts[ch];
    match input
    case Connect(cp) => if ctx.connected || cp.protocol != MQTT then WillOf(ctx) else None
    case Publish(pub) =>
      if !ctx.connected || !T.ValidName(pub.topic) then WillOf(ctx)
      else if AlreadyReceived(ctx, pub) || (pub.retain && pub.payload == []) || pub.qos == EXACTLY_ONCE then None
      else Some(PublishedMessage(ctx, pub))
    case Subscribe(_, wanted) => if wanted == [] || SessionOf(s, ch).None? then WillOf(ctx) else None
    case Unsubscribe(_, filters) => if filters == [] || SessionOf(s, ch).None? then WillOf(ctx) else None
    case Ack(kind, pid) =>
      if ctx.connected && kind == PubrelAck && pid in ctx.awaitingPubrel then Some(ctx.awaitingPubrel[pid]) else None
    case Ping => None
    case Disconnect => None
    case Close => WillOf(ctx)
    case Retry(order, tick) =>
      if O.Retry(ctx.out, order, ctx.connected, tick, s.clock).1 then WillOf(ctx) else None
  }

  ghost function Routed(s: State, e: Event): Option<Message> {
    if e.On? && e.ch in s.contexts then RoutedBy(s, e.ch, e.input) else None
  }

  // ----- End to end -----

  /** `q` is the highest QoS among the listed subscriptions that match the topic. */
  ghost predicate BestMatch(subs: seq<Subscription>, topic: Text, q: Qos) {
    && (exists i :: 0 <= i < |subs| && T.Matches(subs[i].filter, topic) && subs[i].qos == q)
    && (forall i :: 0 <= i < |subs| && T.Matches(subs[i].filter, topic) ==> subs[i].qos <= q)
  }

  ghost predicate NoMatch(subs: seq<Subscription>, topic: Text) {
    forall i :: 0 <= i < |subs| ==> !T.Matches(subs[i].filter, topic)
  }

  /** Either no subscription matches, or there is exactly one best QoS among those that do. */
  lemma MatchOrNot(subs: seq<Subscription>, topic: Text)
    ensures NoMatch(subs, topic) <==> !exists q: Qos :: BestMatch(subs, topic, q)
    ensures forall q: Qos, r: Qos :: BestMatch(subs, topic, q) && BestMatch(subs, topic, r) ==> q == r
  {
    if i :| 0 <= i < |subs| && T.Matches(subs[i].filter, topic) && subs[i].qos == 2 {
      assert BestMatch(subs, topic, 2);
    } else if i :| 0 <= i < |subs| && T.Matches(subs[i].filter, topic) && subs[i].qos == 1 {
      assert BestMatch(subs, topic, 1);
    } else if i :| 0 <= i < |subs| && T.Matches(subs[i].filter, topic) {
      assert BestMatch(subs, topic, 0);
    }
  }

  /** The tree wants a topic for a session exactly when the session's own list does. */
  lemma WantsMeansListed(s: State, x: Session, topic: Text, q: Qos)
    requires Inv(s) && x in s.subs
    ensures Wants(s.entries, x, topic, q) <==>
            exists i :: 0 <= i < |s.subs[x]| && s.subs[x][i].qos >= q && T.Matches(s.subs[x][i].filter, topic)
  {
    var subs := s.subs[x];
    assert ListOk(s.entries, x, subs);
    if Wants(s.entries, x, topic, q) {
      var f :| Key(x, f) in s.entries && s.entries[Key(x, f)] >= q && T.Matches(f, topic);
      assert EntryOk(s.subs, s.entries, Key(x, f));
      var i :| 0 <= i < |subs| && subs[i] == Subscription(f, s.entries[Key(x, f)]);
    }
    if i :| 0 <= i < |subs| && subs[i].qos >= q && T.Matches(subs[i].filter, topic) {
      assert Key(x, subs[i].filter) in s.entries && s.entries[Key(x, subs[i].filter)] >= q;
    }
  }

  lemma EffectiveIsBest(s: State, x: Session, msg: Message, q: Qos)
    requires Inv(s) && x in s.subs && BestMatch(s.subs[x], msg.topic, q)
    ensures Wants(s.entries, x, msg.topic, 0)
    ensures Effective(s.entries, x, msg) == MinQos(q, msg.qos)
  {
    WantsMeansListed(s, x, msg.topic, 0);
    WantsMeansListed(s, x, msg.topic, 1);
    WantsMeansListed(s, x, msg.topic, 2);
  }

  /** One PUBLISH more on the connection, of the given message at the given QoS, and no other packet. */
  ghost predicate GotOnce(before: O.Outbound, after: O.Outbound, msg: Message, qos: Qos) {
    && |after.log| == |before.log| + 1 && after.log[..|before.log|] == before.log
    && var p := after.log[|before.log|].packet;
       && p.Publish? && p.topic == msg.topic && p.payload == msg.payload && p.source == msg.source
       && p.qos == qos && !p.retain && !p.dup
       && (qos > AT_MOST_ONCE ==> p.packetId in after.inflight && after.inflight[p.packetId].qos == qos)
  }

  /**
   The fate of a message for the client of one session. The client's own
   subscription list decides whether and at which QoS it gets it: once, now, if
   it is connected; later if its session is persistent and the QoS allows it.
   */
  ghost predicate Fate(s: State, s': State, msg: Message, c: Text)
    requires c in s.sessions && s.sessions[c] in s.subs
    requires c in s.byId ==> s.byId[c] in s.contexts && s.byId[c] in s'.contexts
  {
    var x := s.sessions[c];
    && (NoMatch(s.subs[x], msg.topic) ==>
          && QueueOf(s'.queues, x) == QueueOf(s.queues, x)
          && (c in s.byId ==> s'.contexts[s.byId[c]] == s.contexts[s.byId[c]]))
    && (forall q: Qos :: BestMatch(s.subs[x], msg.topic, q) ==>
          var qos := MinQos(q, msg.qos);
          if Online(s.contexts, s.byId, c) then
            && GotOnce(s.contexts[s.byId[c]].out, s'.contexts[s.byId[c]].out, msg, qos)
            && QueueOf(s'.queues, x) == QueueOf(s.queues, x)
          else
            && QueueOf(s'.queues, x) ==
                 (if x.clean || qos == AT_MOST_ONCE then QueueOf(s.queues, x)
                  else Pushed(QueueOf(s.queues, x), OutboxMessage(msg, qos, false)))
            && (c in s.byId ==> s'.contexts[s.byId[c]] == s.contexts[s.byId[c]]))
  }

  lemma DeliveredOnce(o: O.Outbound, msg: Message, granted: Qos, now: int)
    ensures GotOnce(o, O.Deliver(o, msg, granted, false, false, now, true), msg, MinQos(granted, msg.qos))
  {
  }

  /** What routing does to the queue of a stored session. */
  lemma QueueAfterRoute(s: State, msg: Message, x: Session)
    requires Live(s.sessions, x)
    ensures QueueOf(Route(s, msg).queues, x) ==
            if Keeps(s.contexts, s.byId, s.sessions, s.entries, msg, x)
            then Pushed(QueueOf(s.queues, x), OutboxMessage(msg, Effective(s.entries, x, msg), false))
            else QueueOf(s.queues, x)
  {
    assert x in s.sessions.Values;
  }

  /** What routing does to the connection of a bound client. */
  lemma ContextAfterRoute(s: State, msg: Message, c: Text)
    requires Inv(s) && c in s.byId
    ensures s.byId[c] in s.contexts && c in s.sessions
    ensures
      var ctx := s.contexts[s.byId[c]];
      Route(s, msg).contexts[s.byId[c]] ==
        if ctx.connected && Wants(s.entries, s.sessions[c], msg.topic, 0)
        then ctx.(out := O.Deliver(ctx.out, msg, Effective(s.entries, s.sessions[c], msg), false, false, s.clock, true))
        else ctx
  {
    assert BoundOk(s.contexts, s.byId, s.sessions, c);
  }

  lemma FateOfRoute(s: State, msg: Message, c: Text)
    requires Inv(s) && c in s.sessions
    ensures c in s.byId ==> s.byId[c] in s.contexts
    ensures s.sessions[c] in s.subs
    ensures Fate(s, Route(s, msg), msg, c)
  {
    var x := s.sessions[c];
    var s' := Route(s, msg);
    assert SessionOk(s.byId, s.sessions, s.nextSession, None, c);
    assert x in s.subs;
    WantsMeansListed(s, x, msg.topic, 0);
    QueueAfterRoute(s, msg, x);
    if c in s.byId { ContextAfterRoute(s, msg, c); }
    forall q: Qos | BestMatch(s.subs[x], msg.topic, q)
      ensures Wants(s.entries, x, msg.topic, 0) && Effective(s.entries, x, msg) == MinQos(q, msg.qos)
      ensures Online(s.contexts, s.byId, c) ==>
                GotOnce(s.contexts[s.byId[c]].out, s'.contexts[s.byId[c]].out, msg, MinQos(q, msg.qos))
    {
      EffectiveIsBest(s, x, msg, q);
      if Online(s.contexts, s.byId, c) {
        DeliveredOnce(s.contexts[s.byId[c]].out, msg, MinQos(q, msg.qos), s.clock);
      }
    }
  }
}
