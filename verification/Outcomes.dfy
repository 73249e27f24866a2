/**
 What a client can rely on after its own packets, in every run: CONNECT with its
 answer and its session, UNSUBSCRIBE, the acknowledgement of a PUBLISH, and what
 is retained.
 */
module Outcomes {
  import opened Bytes
  import opened Model
  import opened Outbox
  import opened Broker
  import opened Invariant
  import opened Routing
  import opened Inbound
  import opened OutboundRuns
  import opened Guarantees
  import T = Topic
  import O = Outbound
  import R = RetainStore

  // ----- CONNECT -----

  /** Everything a first CONNECT has to satisfy. */
  predicate Acceptable(s: State, cp: ConnectPacket) {
    && cp.protocol == MQTT && cp.level == 4 && |cp.clientId| <= 23 && (cp.clientId == [] ==> cp.clean)
    && |s.contexts| < s.maxConnections
  }

  /** The connection is the client's, it owns the stored session, and its history goes on with a CONNACK. */
  ghost predicate Admitted(log: seq<O.Sent>, s': State, ch: ChannelId, c: Text, present: bool) {
    && ch in s'.contexts && c in s'.byId && s'.byId[c] == ch && c in s'.sessions
    && (var ctx := s'.contexts[ch];
        && ctx.connected && ctx.clientId == c && ctx.session == Some(s'.sessions[c])
        && log + [O.Sent(O.Connack(present, 0), s'.clock, 0)] <= ctx.out.log)
  }

  lemma EstablishedAdmits(s: State, ch: ChannelId, c: Text, cp: ConnectPacket, resumed: bool)
    requires ch in s.contexts && c in s.sessions
    ensures Admitted(s.contexts[ch].out.log, Established(s, ch, c, cp, resumed), ch, c, resumed)
    ensures !resumed ==> Established(s, ch, c, cp, resumed).contexts[ch].out.log ==
                         s.contexts[ch].out.log + [O.Sent(O.Connack(false, 0), s.clock, 0)]
    ensures Established(s, ch, c, cp, resumed).sessions == s.sessions
    ensures Established(s, ch, c, cp, resumed).subs == s.subs
  {
    var out := O.Emit(s.contexts[ch].out, O.Connack(resumed, 0), s.clock);
    DrainEvolves(out, QueueOf(s.queues, s.sessions[c]), s.clock);
  }

  /** The session a CONNECT gets: a new, empty one for a clean start or a new client, else the stored one. */
  ghost predicate GetsSession(s: State, s': State, c: Text, clean: bool) {
    && c in s'.sessions
    && (if !clean && c in s.sessions then
          s'.sessions[c] == s.sessions[c] && s'.subs == s.subs
        else
          && s'.sessions[c] == Session(s.nextSession, c, clean)
          && s'.sessions[c] in s'.subs && s'.subs[s'.sessions[c]] == [])
  }

  lemma TakenOver(s: State, ch: ChannelId, c: Text)
    requires Inv(s) && ch in s.contexts && s.contexts[ch].clientId == []
    ensures
      var s1 := TakeOver(s, c, ch);
      && s1.sessions == s.sessions && s1.subs == s.subs && s1.nextSession == s.nextSession
      && ch in s1.contexts && s1.contexts[ch] == s.contexts[ch]
  {
    TakeOverIsSilent(s, c, ch);
    if c in s.byId { assert BoundOk(s.contexts, s.byId, s.sessions, c); }
  }

  lemma AcceptedAdmits(s: State, ch: ChannelId, c: Text, cp: ConnectPacket)
    requires Inv(s) && ch in s.contexts && s.contexts[ch].clientId == []
    ensures Connected(s, Accepted(s, ch, c, cp), ch, c, cp)
  {
    TakenOver(s, ch, c);
    var s1 := TakeOver(s, c, ch);
    EstablishedAdmits(GetSession(s1, c, cp.clean), ch, c, cp, c in s1.sessions && !cp.clean);
  }

  /** The channel is the client's, with the session it asked for; a fresh session is answered by the CONNACK alone. */
  ghost predicate Connected(s: State, s': State, ch: ChannelId, c: Text, cp: ConnectPacket)
    requires ch in s.contexts
  {
    && Admitted(s.contexts[ch].out.log, s', ch, c, c in s.sessions && !cp.clean)
    && GetsSession(s, s', c, cp.clean)
    && (cp.clean || c !in s.sessions ==>
          s'.contexts[ch].out.log == s.contexts[ch].out.log + [O.Sent(O.Connack(false, 0), s.clock, 0)])
  }

  lemma Unnumbered(s: State, s': State, ch: ChannelId, c: Text, cp: ConnectPacket)
    requires ch in s.contexts && Connected(Numbered(s, cp), s', ch, c, cp)
    ensures Connected(s, s', ch, c, cp)
  {
  }

  lemma AnsweredConnects(s: State, ch: ChannelId, cp: ConnectPacket)
    requires Inv(s) && ch in s.contexts && s.contexts[ch].clientId == [] && Refusal(s, cp).None?
    ensures Connected(s, Answered(s, ch, cp), ch, IdFor(s, cp), cp)
  {
    InvNumbered(s, cp);
    AcceptedAdmits(Numbered(s, cp), ch, IdFor(s, cp), cp);
    Unnumbered(s, Accepted(Numbered(s, cp), ch, IdFor(s, cp), cp), ch, IdFor(s, cp), cp);
  }

  /**
   A first CONNECT, in every run: the channel stays exactly if the packet is
   acceptable. It is then the client's, whatever held the id before, and it is
   told whether its session was there already.
   */
  lemma ConnectOutcome(maxConnections: nat, events: seq<Event>, states: seq<State>, n: nat, cp: ConnectPacket)
    requires IsRun(maxConnections, events, states) && n < |events|
    requires events[n].On? && events[n].input == Connect(cp) && events[n].ch in states[n].contexts
    requires !states[n].contexts[events[n].ch].connected
    ensures events[n].ch in states[n + 1].contexts <==> Acceptable(states[n], cp)
    ensures Acceptable(states[n], cp) ==> Connected(states[n], states[n + 1], events[n].ch, IdFor(states[n], cp), cp)
  {
    var s, ch := states[n], events[n].ch;
    InvReachable(maxConnections, events, states, n);
    assert Admissible(s, events[n]);
    assert states[n + 1] == OnConnect(s, ch, cp);
    if !Acceptable(s, cp) {
      TurnedAwayIsGone(s, ch, cp);
    } else {
      AnsweredConnects(s, ch, cp);
    }
  }

  /**
   A first CONNECT of the right protocol that is refused, in every run: before the
   channel is closed it is sent one CONNACK, with code 3 if the broker is full, else
   1 for another protocol level, else 2 for the client id.
   */
  lemma RefusalOutcome(maxConnections: nat, events: seq<Event>, states: seq<State>, n: nat, cp: ConnectPacket)
    requires IsRun(maxConnections, events, states) && n < |events|
    requires events[n].On? && events[n].input == Connect(cp) && events[n].ch in states[n].contexts
    requires !states[n].contexts[events[n].ch].connected && cp.protocol == MQTT && !Acceptable(states[n], cp)
    ensures
      var s, ch := states[n], events[n].ch;
      var code: byte := if |s.contexts| >= s.maxConnections then 3 else if cp.level != 4 then 1 else 2;
      var o := s.contexts[ch].out;
      var out := O.Outbound(o.inflight, o.nextPid, o.allocs, o.log + [O.Sent(O.Connack(false, code), s.clock, 0)]);
      states[n + 1] == CloseChannel(s.(contexts := s.contexts[ch := s.contexts[ch].(out := out)]), ch)
  {
    assert states[n + 1] == OnConnect(states[n], events[n].ch, cp);
  }

  /** A clean start leaves nothing of the client's past: no subscription, no queued message, no replay. */
  lemma CleanStart(maxConnections: nat, events: seq<Event>, states: seq<State>, n: nat, cp: ConnectPacket)
    requires IsRun(maxConnections, events, states) && n < |events|
    requires events[n].On? && events[n].input == Connect(cp) && events[n].ch in states[n].contexts
    requires !states[n].contexts[events[n].ch].connected && Acceptable(states[n], cp) && cp.clean
    ensures
      var s', c := states[n + 1], IdFor(states[n], cp);
      && (forall k :: k in s'.entries ==> k.session.clientId != c)
      && (forall x :: x in s'.queues ==> x.clientId != c)
  {
    ConnectOutcome(maxConnections, events, states, n, cp);
    InvReachable(maxConnections, events, states, n + 1);
    EmptySessionHasNothing(states[n + 1], IdFor(states[n], cp));
  }

  lemma EmptySessionHasNothing(s: State, c: Text)
    requires Inv(s) && c in s.sessions && s.sessions[c] in s.subs && s.subs[s.sessions[c]] == [] && s.sessions[c].clean
    ensures forall k :: k in s.entries ==> k.session.clientId != c
    ensures forall x :: x in s.queues ==> x.clientId != c
  {
    forall k | k in s.entries ensures k.session.clientId != c {
      assert EntryOk(s.subs, s.entries, k);
      assert k.session in s.subs;
    }
    forall x | x in s.queues ensures x.clientId != c { assert QueueOk(s, x); }
  }

  // ----- PINGREQ -----

  /** A PINGREQ of a connected client is answered, and nothing else happens. */
  lemma PingOutcome(maxConnections: nat, events: seq<Event>, states: seq<State>, n: nat)
    requires IsRun(maxConnections, events, states) && n < |events| && events[n].On? && events[n].input.Ping?
    requires events[n].ch in states[n].contexts && states[n].contexts[events[n].ch].connected
    ensures
      var s, ch := states[n], events[n].ch;
      var o := s.contexts[ch].out;
      var out := O.Outbound(o.inflight, o.nextPid, o.allocs, o.log + [O.Sent(O.Pingresp, s.clock, 0)]);
      states[n + 1] == s.(contexts := s.contexts[ch := s.contexts[ch].(out := out)])
  {
    assert states[n + 1] == OnPing(states[n], events[n].ch);
  }

  // ----- UNSUBSCRIBE -----

  lemma {:induction false} UnsubscribeEntries(s: State, x: Session, filters: seq<Text>, k: Key)
    requires x in s.subs
    ensures
      var entries := UnsubscribeAll(s, x, filters).entries;
      && (k in entries <==> k in s.entries && !(k.session == x && k.filter in filters))
      && (k in entries ==> entries[k] == s.entries[k])
    decreases |filters|
  {
    if filters != [] {
      var s1 := s.(entries := s.entries - {Key(x, filters[0])},
                   subs := s.subs[x := Unsubscribed(s.subs[x], filters[0])]);
      UnsubscribeEntries(s1, x, filters[1..], k);
    }
  }

  /** Exactly the named filters of the client leave the topic tree, and the answer is one UNSUBACK. */
  lemma UnsubscribeOutcome(maxConnections: nat, events: seq<Event>, states: seq<State>, n: nat)
    requires IsRun(maxConnections, events, states) && n < |events|
    requires events[n].On? && events[n].input.Unsubscribe? && events[n].input.filters != []
    requires events[n].ch in states[n].contexts && states[n].contexts[events[n].ch].connected
    ensures
      var s, s', ch := states[n], states[n + 1], events[n].ch;
      && s.contexts[ch].session.Some? && ch in s'.contexts
      && (forall k :: k in s'.entries <==>
            k in s.entries && !(k.session == s.contexts[ch].session.value && k.filter in events[n].input.filters))
      && (forall k :: k in s'.entries ==> s'.entries[k] == s.entries[k])
      && s'.contexts[ch].out.log == s.contexts[ch].out.log + [O.Sent(O.Unsuback(events[n].input.packetId), s.clock, 0)]
  {
    var s, ch, filters := states[n], events[n].ch, events[n].input.filters;
    InvReachable(maxConnections, events, states, n);
    ConnectedHasSession(s, ch);
    var x := s.contexts[ch].session.value;
    forall k
      ensures k in UnsubscribeAll(s, x, filters).entries <==>
              k in s.entries && !(k.session == x && k.filter in filters)
      ensures k in UnsubscribeAll(s, x, filters).entries ==> UnsubscribeAll(s, x, filters).entries[k] == s.entries[k]
    {
      UnsubscribeEntries(s, x, filters, k);
    }
  }

  // ----- PUBLISH -----

  lemma PublishNewAppends(s: State, ch: ChannelId, pub: PublishPacket)
    requires ch in s.contexts
    ensures s.contexts[ch].out.log <= PublishNew(s, ch, pub).contexts[ch].out.log
  {
    var msg := PublishedMessage(s.contexts[ch], pub);
    var s1 := SetContext(s, ch, Remember(s.contexts[ch], pub));
    if !(pub.retain && pub.payload == []) && pub.qos != EXACTLY_ONCE {
      RouteAppends(if pub.retain then s1.(retained := R.Stored(s1.retained, msg)) else s1, msg, ch);
    }
  }

  /** Every PUBLISH above QoS 0 of a connected client is acknowledged, new or repeated, as the last thing it causes. */
  lemma PublishIsAcknowledged(s: State, ch: ChannelId, pub: PublishPacket)
    requires ch in s.contexts && s.contexts[ch].connected && T.ValidName(pub.topic) && pub.qos > AT_MOST_ONCE
    ensures
      var s' := OnPublish(s, ch, pub);
      && ch in s'.contexts && |s'.contexts[ch].out.log| > |s.contexts[ch].out.log|
      && s'.contexts[ch].out.log[|s'.contexts[ch].out.log| - 1].packet ==
           if pub.qos == AT_LEAST_ONCE then O.Puback(pub.packetId) else O.Pubrec(pub.packetId)
  {
    var s1 := if AlreadyReceived(s.contexts[ch], pub) then s else PublishNew(s, ch, pub);
    PublishNewAppends(s, ch, pub);
    assert OnPublish(s, ch, pub) == SendTo(s1, ch, AckFor(pub.qos, pub.packetId));
  }

  // ----- An empty retained message -----

  /** A deleting PUBLISH, seen for the first time, by a connected client. */
  predicate Deletes(s: State, e: Event, pub: PublishPacket) {
    && e.On? && e.ch in s.contexts && e.input == Publish(pub) && s.contexts[e.ch].connected
    && T.ValidName(pub.topic) && pub.retain && pub.payload == [] && !AlreadyReceived(s.contexts[e.ch], pub)
  }

  /** Nothing changes for any other connection or any queue, and the message is held exactly at QoS 2. */
  ghost predicate OnlyHeld(s: State, s': State, ch: ChannelId, pub: PublishPacket)
    requires ch in s.contexts
  {
    && s'.contexts.Keys == s.contexts.Keys && s'.contexts[ch].connected == s.contexts[ch].connected
    && (forall at :: at in s.contexts && at != ch ==> s'.contexts[at] == s.contexts[at])
    && s'.queues == s.queues
    && s'.contexts[ch].awaitingPubrel ==
         if pub.qos == EXACTLY_ONCE
         then s.contexts[ch].awaitingPubrel[pub.packetId := PublishedMessage(s.contexts[ch], pub)]
         else s.contexts[ch].awaitingPubrel
  }

  lemma DeletingPublishNew(s: State, ch: ChannelId, pub: PublishPacket)
    requires ch in s.contexts && pub.retain && pub.payload == []
    ensures OnlyHeld(s, PublishNew(s, ch, pub), ch, pub)
  {
  }

  lemma DeletingPublish(s: State, s1: State, ch: ChannelId, pub: PublishPacket)
    requires ch in s.contexts && ch in s1.contexts && OnlyHeld(s, s1, ch, pub)
    ensures OnlyHeld(s, Acknowledge(s1, ch, pub.qos, pub.packetId), ch, pub)
  {
  }

  /** What a PUBLISH seen for the first time leaves behind is what the next PUBREL finds. */
  lemma NewIsFirst(maxConnections: nat, events: seq<Event>, states: seq<State>, ch: ChannelId, pid: nat, i: nat, j: nat)
    requires IsRun(maxConnections, events, states) && i < j < |events|
    requires Receives(states[i], events[i], ch, pid) && pid !in states[i].contexts[ch].awaitingPubrel
    requires forall k :: i < k < j ==> !Releases(states[k], events[k], ch, pid)
    ensures FirstUnreleased(events, states, ch, pid, j, i)
  {
    HeldIsWaiting(maxConnections, events, states, ch, pid, i);
    WaitingIsFirst(events, states, ch, pid, i);
  }

  /**
   The documentation promises that a retained PUBLISH without payload deletes the
   retained message of its topic and is not forwarded. Over every run the deletion
   holds, and the other half holds exactly below QoS 2: there nobody gets the
   message and it is not held. At QoS 2 it is held like any other, and the next
   PUBREL of its identifier hands it, with its empty payload, to the router.
   */
  lemma EmptyRetainedIsForwardedIff(maxConnections: nat, events: seq<Event>, states: seq<State>, pub: PublishPacket,
                                    i: nat)
    requires IsRun(maxConnections, events, states) && i < |events| && Deletes(states[i], events[i], pub)
    ensures Routed(states[i], events[i]) == None
    ensures OnlyHeld(states[i], states[i + 1], events[i].ch, pub)
    ensures forall m :: m in states[i + 1].retained <==> m in states[i].retained && m.topic != pub.topic
    ensures
      var m := PublishedMessage(states[i].contexts[events[i].ch], pub);
      pub.qos == EXACTLY_ONCE ==>
        && m.payload == []
        && forall j :: i < j < |events| && Releases(states[j], events[j], events[i].ch, pub.packetId)
                       && (forall k :: i < k < j ==> !Releases(states[k], events[k], events[i].ch, pub.packetId)) ==>
             Routed(states[j], events[j]) == Some(m)
  {
    var ch, pid := events[i].ch, pub.packetId;
    InvReachable(maxConnections, events, states, i);
    R.ClearedMembers(states[i].retained, pub.topic);
    PublishNewRetained(states[i], ch, pub);
    DeletingPublishNew(states[i], ch, pub);
    DeletingPublish(states[i], PublishNew(states[i], ch, pub), ch, pub);
    assert states[i + 1] == Acknowledge(PublishNew(states[i], ch, pub), ch, pub.qos, pid);
    if pub.qos == EXACTLY_ONCE {
      forall j | i < j < |events| && Releases(states[j], events[j], ch, pid)
                 && (forall k :: i < k < j ==> !Releases(states[k], events[k], ch, pid))
        ensures Routed(states[j], events[j]) == Some(PublishedMessage(states[i].contexts[ch], pub))
      {
        NewIsFirst(maxConnections, events, states, ch, pid, i, j);
        PubrelRoutesTheFirst(maxConnections, events, states, ch, pid, j);
      }
    }
  }

  ghost function StatesOf(s: State, events: seq<Event>): (states: seq<State>)
    ensures |states| == |events| + 1 && states[0] == s
    ensures forall i :: 0 <= i < |events| ==> states[i + 1] == Step(states[i], events[i])
    decreases |events|
  {
    if events == [] then [s] else [s] + StatesOf(Step(s, events[0]), events[1..])
  }

  /** The first client of a run is connected and holds nothing. */
  lemma FirstClient(events: seq<Event>, states: seq<State>, cp: ConnectPacket, pid: nat)
    requires IsRun(2, events, states) && |events| > 1 && events[0] == Accept && events[1] == On(0, Connect(cp))
    requires Acceptable(Init(2), cp) && cp.clientId != []
    ensures 0 in states[2].contexts && states[2].contexts[0].connected && states[2].contexts[0].clientId == cp.clientId
    ensures Held(states[2], 0, pid) == None
  {
    assert states[1] == Step(states[0], events[0]);
    assert states[1].contexts == map[0 := FRESH];
    ConnectOutcome(2, events, states, 1, cp);
    HeldIsWaiting(2, events, states, 0, pid, 2);
    assert Waiting(events, states, 0, pid, 1) == None;
  }

  /** A run in which that happens: a client connects, publishes the message at QoS 2 and releases it. */
  lemma EmptyRetainedIsForwarded(topic: Text, id: Text) returns (events: seq<Event>, states: seq<State>)
    requires T.ValidName(topic) && 0 < |id| <= 23
    ensures IsRun(2, events, states) && |events| == 4
    ensures events[2] == On(0, Publish(PublishPacket(topic, [], EXACTLY_ONCE, true, 1)))
    ensures Routed(states[3], events[3]) == Some(Message(topic, [], EXACTLY_ONCE, true, id))
  {
    var cp := ConnectPacket(MQTT, PROTOCOL_LEVEL, id, true, NO_WILL);
    var pub := PublishPacket(topic, [], EXACTLY_ONCE, true, 1);
    events := [Accept, On(0, Connect(cp)), On(0, Publish(pub)), On(0, Ack(PubrelAck, 1))];
    states := StatesOf(Init(2), events);
    assert Admissible(states[1], events[1]) by { assert states[1].contexts == map[0 := FRESH]; }
    FirstClient(events, states, cp, 1);
    EmptyRetainedIsForwardedIff(2, events, states, pub, 2);
    assert Releases(states[3], events[3], 0, 1);
  }

  // ----- Retained messages -----

  ghost function WillOp(ctx: Context): Option<R.Op> {
    if PublishesWill(ctx) && ctx.will.retain then Some(R.StoreOp(WillMessage(ctx))) else None
  }

  /** What an input asks of the retained messages: a retained PUBLISH stores or deletes, a retained will is stored. */
  ghost function RetainOp(s: State, ch: ChannelId, input: Input): Option<R.Op>
    requires ch in s.contexts
  {
    var ctx := s.contexts[ch];
    if input.Publish? && ctx.connected && T.ValidName(input.pub.topic) then
      if !input.pub.retain || AlreadyReceived(ctx, input.pub) then None
      else if input.pub.payload == [] then Some(R.ClearOp(input.pub.topic))
      else Some(R.StoreOp(PublishedMessage(ctx, input.pub)))
    else if ch in Handle(s, ch, input).contexts then None
    else WillOp(ctx)
  }

  function Applied(ms: seq<Message>, op: Option<R.Op>): seq<Message> {
    match op
    case None => ms
    case Some(StoreOp(msg)) => R.Stored(ms, msg)
    case Some(ClearOp(topic)) => R.Cleared(ms, topic)
  }

  lemma CloseRetained(s: State, ch: ChannelId)
    requires ch in s.contexts
    ensures CloseChannel(s, ch).retained == Applied(s.retained, WillOp(s.contexts[ch]))
    ensures ch !in CloseChannel(s, ch).contexts
  {
    CloseContexts(s, ch);
    RouteRetained(s, WillMessage(s.contexts[ch]), R.Stored(s.retained, WillMessage(s.contexts[ch])));
  }

  lemma AcceptedRetained(s: State, ch: ChannelId, c: Text, cp: ConnectPacket)
    requires Inv(s) && ch in s.contexts && s.contexts[ch].clientId == []
    ensures Accepted(s, ch, c, cp).retained == s.retained && ch in Accepted(s, ch, c, cp).contexts
  {
    TakeOverIsSilent(s, c, ch);
  }

  /** A step that is the end of the channel, possibly after something was sent on it. */
  lemma EndRetained(s: State, s1: State, ch: ChannelId, input: Input)
    requires ch in s.contexts && ch in s1.contexts && s1.retained == s.retained
    requires s1.contexts[ch] == s.contexts[ch].(out := s1.contexts[ch].out)
    requires Handle(s, ch, input) == CloseChannel(s1, ch)
    requires !(input.Publish? && s.contexts[ch].connected && T.ValidName(input.pub.topic))
    ensures Handle(s, ch, input).retained == Applied(s.retained, RetainOp(s, ch, input))
  {
    CloseRetained(s1, ch);
  }

  /** A step that leaves the channel and the retained messages alone. */
  lemma QuietRetained(s: State, ch: ChannelId, input: Input)
    requires ch in s.contexts && !input.Publish?
    requires ch in Handle(s, ch, input).contexts && Handle(s, ch, input).retained == s.retained
    ensures Handle(s, ch, input).retained == Applied(s.retained, RetainOp(s, ch, input))
  {
  }

  lemma AnsweredRetained(s: State, ch: ChannelId, cp: ConnectPacket)
    requires Inv(s) && ch in s.contexts && s.contexts[ch].clientId == [] && Refusal(s, cp).None?
    ensures Answered(s, ch, cp).retained == s.retained && ch in Answered(s, ch, cp).contexts
  {
    InvNumbered(s, cp);
    AcceptedRetained(Numbered(s, cp), ch, IdFor(s, cp), cp);
  }

  lemma RefusedRetained(s: State, ch: ChannelId, cp: ConnectPacket)
    requires ch in s.contexts && !s.contexts[ch].connected && cp.protocol == MQTT && Refusal(s, cp).Some?
    ensures OnConnect(s, ch, cp).retained == Applied(s.retained, RetainOp(s, ch, Connect(cp)))
  {
    var s1 := SendTo(s, ch, O.Connack(false, Refusal(s, cp).value));
    assert OnConnect(s, ch, cp) == CloseChannel(s1, ch);
    EndRetained(s, s1, ch, Connect(cp));
  }

  lemma PublishNewRetained(s: State, ch: ChannelId, pub: PublishPacket)
    requires ch in s.contexts
    ensures PublishNew(s, ch, pub).retained ==
            if !pub.retain then s.retained
            else if pub.payload == [] then R.Cleared(s.retained, pub.topic)
            else R.Stored(s.retained, PublishedMessage(s.contexts[ch], pub))
  {
  }

  lemma PublishRetained(s: State, ch: ChannelId, pub: PublishPacket)
    requires ch in s.contexts && s.contexts[ch].connected && T.ValidName(pub.topic)
    ensures OnPublish(s, ch, pub).retained == Applied(s.retained, RetainOp(s, ch, Publish(pub)))
  {
    PublishNewRetained(s, ch, pub);
    var s1 := if AlreadyReceived(s.contexts[ch], pub) then s else PublishNew(s, ch, pub);
    assert OnPublish(s, ch, pub) == Acknowledge(s1, ch, pub.qos, pub.packetId);
  }

  lemma RetryRetained(s: State, ch: ChannelId, order: seq<nat>, tick: nat)
    requires ch in s.contexts
    ensures OnRetry(s, ch, order, tick).retained == Applied(s.retained, RetainOp(s, ch, Retry(order, tick)))
  {
    var ctx := s.contexts[ch];
    var r := O.Retry(ctx.out, order, ctx.connected, tick, s.clock);
    CloseRetained(SetContext(s, ch, ctx.(out := r.0)), ch);
  }

  lemma SubscriptionsRetained(s: State, ch: ChannelId, pid: nat, wanted: seq<Subscription>, filters: seq<Text>)
    requires ch in s.contexts && s.contexts[ch].connected && SessionOf(s, ch).Some?
    ensures wanted != [] ==>
              var s' := OnSubscribe(s, ch, pid, wanted);
              s'.retained == s.retained && ch in s'.contexts
    ensures filters != [] ==>
              var s' := OnUnsubscribe(s, ch, pid, filters);
              s'.retained == s.retained && ch in s'.contexts
  {
  }

  lemma AckRetained(s: State, ch: ChannelId, kind: AckKind, pid: nat)
    requires ch in s.contexts && s.contexts[ch].connected
    ensures OnAck(s, ch, kind, pid).retained == s.retained && ch in OnAck(s, ch, kind, pid).contexts
  {
  }

  lemma HandleRetained(s: State, ch: ChannelId, input: Input)
    requires Inv(s) && ch in s.contexts && Allowed(s, s.contexts[ch], input)
    ensures Handle(s, ch, input).retained == Applied(s.retained, RetainOp(s, ch, input))
  {
    var ctx := s.contexts[ch];
    match input
    case Connect(cp) =>
      if ctx.connected || cp.protocol != MQTT { EndRetained(s, s, ch, input); }
      else if Refusal(s, cp).Some? { RefusedRetained(s, ch, cp); }
      else { AnsweredRetained(s, ch, cp); QuietRetained(s, ch, input); }
    case Publish(pub) =>
      if !ctx.connected || !T.ValidName(pub.topic) { EndRetained(s, s, ch, input); }
      else { PublishRetained(s, ch, pub); }
    case Subscribe(pid, wanted) =>
      if !ctx.connected || wanted == [] || SessionOf(s, ch).None? { EndRetained(s, s, ch, input); }
      else { SubscriptionsRetained(s, ch, pid, wanted, []); QuietRetained(s, ch, input); }
    case Unsubscribe(pid, filters) =>
      if !ctx.connected || filters == [] || SessionOf(s, ch).None? { EndRetained(s, s, ch, input); }
      else { SubscriptionsRetained(s, ch, pid, [], filters); QuietRetained(s, ch, input); }
    case Ack(kind, pid) =>
      if !ctx.connected { EndRetained(s, s, ch, input); }
      else { AckRetained(s, ch, kind, pid); QuietRetained(s, ch, input); }
    case Ping => if !ctx.connected { EndRetained(s, s, ch, input); } else { QuietRetained(s, ch, input); }
    case Disconnect => QuietRetained(s, ch, input);
    case Close => EndRetained(s, s, ch, input);
    case Retry(order, tick) => RetryRetained(s, ch, order, tick);
  }

  /** What an event asks of the retained messages. */
  ghost function RetainOpOf(s: State, e: Event): Option<R.Op> {
    if e.On? && e.ch in s.contexts then RetainOp(s, e.ch, e.input) else None
  }

  lemma StepRetained(s: State, e: Event)
    requires Inv(s) && Admissible(s, e)
    ensures Step(s, e).retained == Applied(s.retained, RetainOpOf(s, e))
  {
    if e.On? && e.ch in s.contexts { HandleRetained(s, e.ch, e.input); }
  }

  /** The retaining requests of the first `n` events, in order. */
  ghost function RetainOps(events: seq<Event>, states: seq<State>, n: nat): seq<R.Op>
    requires n <= |events| < |states|
  {
    if n == 0 then []
    else
      var op := RetainOpOf(states[n - 1], events[n - 1]);
      RetainOps(events, states, n - 1) + if op.Some? then [op.value] else []
  }

  lemma RunOn(ops: seq<R.Op>, op: Option<R.Op>)
    ensures R.Run(ops + if op.Some? then [op.value] else []) == Applied(R.Run(ops), op)
  {
    if op.Some? {
      assert (ops + [op.value])[..|ops|] == ops;
    } else {
      assert ops + [] == ops;
    }
  }

  lemma {:induction false} RetainedAreRun(maxConnections: nat, events: seq<Event>, states: seq<State>, n: nat)
    requires IsRun(maxConnections, events, states) && n <= |events|
    ensures states[n].retained == R.Run(RetainOps(events, states, n))
  {
    if n > 0 {
      RetainedAreRun(maxConnections, events, states, n - 1);
      InvReachable(maxConnections, events, states, n - 1);
      StepRetained(states[n - 1], events[n - 1]);
      RunOn(RetainOps(events, states, n - 1), RetainOpOf(states[n - 1], events[n - 1]));
    }
  }

  /**
   In every reachable state the retained messages are, for each topic, the last
   retained PUBLISH or will for it that was not deleted since; nothing else is
   retained, and they are kept in the order in which their topics came in.
   */
  lemma RetainedAreLatest(maxConnections: nat, events: seq<Event>, states: seq<State>, n: nat)
    requires IsRun(maxConnections, events, states) && n <= |events|
    ensures R.Describes(RetainOps(events, states, n), states[n].retained)
  {
    RetainedAreRun(maxConnections, events, states, n);
    R.AllAfter(RetainOps(events, states, n));
  }
}
