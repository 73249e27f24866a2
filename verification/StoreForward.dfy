/**
 Store and forward, over every run: the queue of an offline persistent session
 is exactly the newest of the messages above QoS 0 that it missed, in order.
 */
module StoreForward {
  import opened Bytes
  import opened Model
  import opened Outbox
  import opened Broker
  import opened Invariant
  import opened Routing
  import T = Topic
  import O = Outbound
  import R = RetainStore

  /** The queues after an event that routes at most this message. */
  ghost function QueuesAfter(s: State, m: Option<Message>): Queues {
    if m.Some? then Route(s, m.value).queues else s.queues
  }

  /** Routing queues the same for a session in states that agree on what routing looks at. */
  lemma RouteQueueFrame(s: State, s1: State, m: Option<Message>, x: Session)
    requires Live(s.sessions, x)
    requires s1.byId == s.byId && s1.sessions == s.sessions && s1.entries == s.entries && s1.queues == s.queues
    requires Online(s1.contexts, s1.byId, x.clientId) == Online(s.contexts, s.byId, x.clientId)
    ensures QueueOf(QueuesAfter(s1, m), x) == QueueOf(QueuesAfter(s, m), x)
  {
    if m.Some? {
      QueueAfterRoute(s, m.value, x);
      QueueAfterRoute(s1, m.value, x);
    }
  }

  /** Unregistering a channel touches no persistent session's queue. */
  lemma RemoveQueues(s: State, ch: ChannelId, x: Session)
    requires Inv(s) && ch in s.contexts && !x.clean
    ensures Live(RemoveChannel(s, ch).sessions, x) ==> Live(s.sessions, x)
    ensures QueueOf(RemoveChannel(s, ch).queues, x) == QueueOf(s.queues, x)
  {
    RemoveChannelEffect(s, ch);
  }

  lemma WillQueues(s: State, ctx: Context)
    ensures PublishWill(s, ctx).queues == Route(s, WillMessage(ctx)).queues
    ensures PublishWill(s, ctx).sessions == s.sessions
  {
  }

  /** Closing a channel queues its will, and touches no other persistent session's queue. */
  lemma CloseQueues(s: State, ch: ChannelId, x: Session)
    requires Inv(s) && ch in s.contexts && !x.clean
    ensures Live(CloseChannel(s, ch).sessions, x) ==> Live(s.sessions, x)
    ensures QueueOf(CloseChannel(s, ch).queues, x) == QueueOf(QueuesAfter(s, WillOf(s.contexts[ch])), x)
  {
    var ctx := s.contexts[ch];
    if PublishesWill(ctx) {
      InvPublishWill(s, ctx);
      WillQueues(s, ctx);
      RemoveQueues(PublishWill(s, ctx), ch, x);
      assert CloseChannel(s, ch) == RemoveChannel(PublishWill(s, ctx), ch);
    } else {
      RemoveQueues(s, ch, x);
      assert CloseChannel(s, ch) == RemoveChannel(s, ch);
    }
  }

  lemma GetSessionQueues(s: State, c: Text, clean: bool, x: Session)
    requires x.clientId != c && (c in s.sessions ==> s.sessions[c].clientId == c)
    ensures Live(GetSession(s, c, clean).sessions, x) ==> Live(s.sessions, x)
    ensures QueueOf(GetSession(s, c, clean).queues, x) == QueueOf(s.queues, x)
    ensures c in s.sessions ==> GetSession(s, c, clean).sessions[c].clientId == c
    ensures c !in s.sessions ==> GetSession(s, c, clean).sessions[c].clientId == c
  {
  }

  lemma EstablishedQueues(s: State, ch: ChannelId, c: Text, cp: ConnectPacket, resumed: bool, x: Session)
    requires ch in s.contexts && c in s.sessions && s.sessions[c].clientId == c && x.clientId != c
    ensures QueueOf(Established(s, ch, c, cp, resumed).queues, x) == QueueOf(s.queues, x)
    ensures Established(s, ch, c, cp, resumed).sessions == s.sessions
  {
  }

  lemma AcceptedQueues(s: State, ch: ChannelId, c: Text, cp: ConnectPacket, x: Session)
    requires Inv(s) && ch in s.contexts && s.contexts[ch].clientId == [] && x.clientId != c
    ensures Live(Accepted(s, ch, c, cp).sessions, x) ==> Live(s.sessions, x)
    ensures QueueOf(Accepted(s, ch, c, cp).queues, x) == QueueOf(s.queues, x)
  {
    TakeOverIsSilent(s, c, ch);
    var s1 := TakeOver(s, c, ch);
    if c in s1.sessions { assert SessionOk(s.byId, s.sessions, s.nextSession, None, c); }
    GetSessionQueues(s1, c, cp.clean, x);
    EstablishedQueues(GetSession(s1, c, cp.clean), ch, c, cp, c in s1.sessions && !cp.clean, x);
  }

  lemma AcceptedIsOnline(s: State, ch: ChannelId, c: Text, cp: ConnectPacket)
    requires ch in s.contexts
    ensures Online(Accepted(s, ch, c, cp).contexts, Accepted(s, ch, c, cp).byId, c)
  {
  }

  /** After an event, an offline persistent session has what it had, plus what the event routed to it. */
  ghost predicate QueueStepOk(s: State, s': State, m: Option<Message>, x: Session) {
    !x.clean && Live(s'.sessions, x) && !Online(s'.contexts, s'.byId, x.clientId) ==>
      Live(s.sessions, x) && QueueOf(s'.queues, x) == QueueOf(QueuesAfter(s, m), x)
  }

  lemma CloseStep(s: State, ch: ChannelId, x: Session)
    requires Inv(s) && ch in s.contexts
    ensures QueueStepOk(s, CloseChannel(s, ch), WillOf(s.contexts[ch]), x)
  {
    if !x.clean { CloseQueues(s, ch, x); }
  }

  lemma RefusedStep(s: State, ch: ChannelId, packet: O.Packet, x: Session)
    requires Inv(s) && ch in s.contexts && !s.contexts[ch].connected
    ensures QueueStepOk(s, CloseChannel(SendTo(s, ch, packet), ch), None, x)
  {
    InvSendTo(s, ch, packet);
    CloseStep(SendTo(s, ch, packet), ch, x);
  }

  lemma AcceptedStep(s: State, ch: ChannelId, c: Text, cp: ConnectPacket, x: Session)
    requires Inv(s) && ch in s.contexts && s.contexts[ch].clientId == []
    ensures QueueStepOk(s, Accepted(s, ch, c, cp), None, x)
  {
    AcceptedIsOnline(s, ch, c, cp);
    if x.clientId != c { AcceptedQueues(s, ch, c, cp, x); }
  }

  /** What comes before a step does not matter if routing does not look at it. */
  lemma StepAfter(s: State, s1: State, s2: State, m: Option<Message>, x: Session)
    requires QueueStepOk(s1, s2, m, x)
    requires s1.byId == s.byId && s1.sessions == s.sessions && s1.entries == s.entries && s1.queues == s.queues
    requires Online(s1.contexts, s1.byId, x.clientId) == Online(s.contexts, s.byId, x.clientId)
    ensures QueueStepOk(s, s2, m, x)
  {
    if Live(s.sessions, x) { RouteQueueFrame(s, s1, m, x); }
  }

  lemma AnsweredStep(s: State, ch: ChannelId, cp: ConnectPacket, x: Session)
    requires Inv(s) && ch in s.contexts && s.contexts[ch].clientId == [] && !s.contexts[ch].connected
    ensures QueueStepOk(s, Answered(s, ch, cp), None, x)
  {
    match Refusal(s, cp)
    case Some(code) => RefusedStep(s, ch, O.Connack(false, code), x);
    case None =>
      var s1 := Numbered(s, cp);
      InvNumbered(s, cp);
      AcceptedStep(s1, ch, IdFor(s, cp), cp, x);
      StepAfter(s, s1, Accepted(s1, ch, IdFor(s, cp), cp), None, x);
  }

  lemma ConnectStep(s: State, ch: ChannelId, cp: ConnectPacket, x: Session)
    requires Inv(s) && ch in s.contexts && Allowed(s, s.contexts[ch], Connect(cp))
    ensures QueueStepOk(s, OnConnect(s, ch, cp), RoutedBy(s, ch, Connect(cp)), x)
  {
    if s.contexts[ch].connected || cp.protocol != MQTT {
      CloseStep(s, ch, x);
    } else {
      AnsweredStep(s, ch, cp, x);
    }
  }

  lemma PublishNewStep(s: State, ch: ChannelId, pub: PublishPacket, m: Option<Message>, x: Session)
    requires ch in s.contexts
    requires m == if (pub.retain && pub.payload == []) || pub.qos == EXACTLY_ONCE then None
                  else Some(PublishedMessage(s.contexts[ch], pub))
    ensures QueueStepOk(s, PublishNew(s, ch, pub), m, x)
  {
    var s1 := SetContext(s, ch, Remember(s.contexts[ch], pub));
    if m.Some? {
      var s2 := if pub.retain then s1.(retained := R.Stored(s1.retained, m.value)) else s1;
      RouteStep(s2, m.value, x);
      StepAfter(s, s2, Route(s2, m.value), m, x);
    }
  }

  /** Changing contexts without connecting or disconnecting the client does not matter. */
  lemma SetStep(s: State, s1: State, ch: ChannelId, ctx: Context, m: Option<Message>, x: Session)
    requires ch in s1.contexts && ctx.connected == s1.contexts[ch].connected && QueueStepOk(s, s1, m, x)
    ensures QueueStepOk(s, SetContext(s1, ch, ctx), m, x)
  {
    assert Online(SetContext(s1, ch, ctx).contexts, s1.byId, x.clientId) == Online(s1.contexts, s1.byId, x.clientId);
  }

  lemma SendStep(s: State, s1: State, ch: ChannelId, packet: O.Packet, m: Option<Message>, x: Session)
    requires ch in s1.contexts && QueueStepOk(s, s1, m, x)
    ensures QueueStepOk(s, SendTo(s1, ch, packet), m, x)
  {
    SetStep(s, s1, ch, s1.contexts[ch].(out := O.Emit(s1.contexts[ch].out, packet, s1.clock)), m, x);
  }

  lemma RouteStep(s: State, msg: Message, x: Session)
    ensures QueueStepOk(s, Route(s, msg), Some(msg), x)
  {
  }

  lemma PublishStep(s: State, ch: ChannelId, pub: PublishPacket, x: Session)
    requires Inv(s) && ch in s.contexts
    ensures QueueStepOk(s, OnPublish(s, ch, pub), RoutedBy(s, ch, Publish(pub)), x)
  {
    var m := RoutedBy(s, ch, Publish(pub));
    if !s.contexts[ch].connected || !T.ValidName(pub.topic) {
      CloseStep(s, ch, x);
      assert OnPublish(s, ch, pub) == CloseChannel(s, ch);
    } else {
      if !AlreadyReceived(s.contexts[ch], pub) { PublishNewStep(s, ch, pub, RoutedBy(s, ch, Publish(pub)), x); }
      var s1 := if AlreadyReceived(s.contexts[ch], pub) then s else PublishNew(s, ch, pub);
      assert QueueStepOk(s, s1, m, x);
      if pub.qos > AT_MOST_ONCE { SendStep(s, s1, ch, AckFor(pub.qos, pub.packetId), m, x); }
      assert OnPublish(s, ch, pub) == Acknowledge(s1, ch, pub.qos, pub.packetId);
    }
  }

  /** Nothing routed, nobody disconnected, no session or queue touched. */
  lemma QuietStep(s: State, s1: State, x: Session)
    requires s1.sessions == s.sessions && s1.queues == s.queues
    ensures QueueStepOk(s, s1, None, x)
  {
  }

  lemma SubscribeStep(s: State, ch: ChannelId, pid: nat, wanted: seq<Subscription>, x: Session)
    requires Inv(s) && ch in s.contexts
    ensures QueueStepOk(s, OnSubscribe(s, ch, pid, wanted), RoutedBy(s, ch, Subscribe(pid, wanted)), x)
  {
    if !s.contexts[ch].connected || wanted == [] || SessionOf(s, ch).None? {
      CloseStep(s, ch, x);
      assert OnSubscribe(s, ch, pid, wanted) == CloseChannel(s, ch);
    } else {
      QuietStep(s, OnSubscribe(s, ch, pid, wanted), x);
    }
  }

  lemma UnsubscribeStep(s: State, ch: ChannelId, pid: nat, filters: seq<Text>, x: Session)
    requires Inv(s) && ch in s.contexts
    requires s.contexts[ch].connected && filters != [] && SessionOf(s, ch).Some?
    ensures QueueStepOk(s, OnUnsubscribe(s, ch, pid, filters), None, x)
  {
    QuietStep(s, OnUnsubscribe(s, ch, pid, filters), x);
  }

  lemma HeldStep(s: State, ch: ChannelId, pid: nat, m: Option<Message>, x: Session)
    requires ch in s.contexts
    requires m == if pid in s.contexts[ch].awaitingPubrel then Some(s.contexts[ch].awaitingPubrel[pid]) else None
    ensures QueueStepOk(s, ReleaseHeld(s, ch, pid), m, x)
  {
    if m.Some? {
      RouteStep(s, m.value, x);
      var s1 := Route(s, m.value);
      SetStep(s, s1, ch, s1.contexts[ch].(awaitingPubrel := s1.contexts[ch].awaitingPubrel - {pid}), m, x);
    } else {
      QuietStep(s, s, x);
    }
  }

  lemma ReleaseStep(s: State, ch: ChannelId, pid: nat, x: Session)
    requires ch in s.contexts && s.contexts[ch].connected
    ensures QueueStepOk(s, OnAck(s, ch, PubrelAck, pid), RoutedBy(s, ch, Ack(PubrelAck, pid)), x)
  {
    var m := RoutedBy(s, ch, Ack(PubrelAck, pid));
    HeldStep(s, ch, pid, m, x);
    SendStep(s, ReleaseHeld(s, ch, pid), ch, O.Pubcomp(pid), m, x);
  }

  lemma QuietAckStep(s: State, ch: ChannelId, kind: AckKind, pid: nat, x: Session)
    requires ch in s.contexts && s.contexts[ch].connected && kind != PubrelAck
    ensures QueueStepOk(s, OnAck(s, ch, kind, pid), None, x)
  {
    QuietStep(s, OnAck(s, ch, kind, pid), x);
  }

  lemma ClosedAckStep(s: State, ch: ChannelId, kind: AckKind, pid: nat, x: Session)
    requires Inv(s) && ch in s.contexts && !s.contexts[ch].connected
    ensures QueueStepOk(s, OnAck(s, ch, kind, pid), None, x)
  {
    CloseStep(s, ch, x);
    assert OnAck(s, ch, kind, pid) == CloseChannel(s, ch);
  }

  lemma SetThenClose(s: State, s1: State, ch: ChannelId, out: O.Outbound, x: Session)
    requires Inv(s1) && ch in s.contexts
    requires s1 == SetContext(s, ch, s.contexts[ch].(out := out))
    ensures QueueStepOk(s, CloseChannel(s1, ch), WillOf(s.contexts[ch]), x)
  {
    CloseStep(s1, ch, x);
    StepAfter(s, s1, CloseChannel(s1, ch), WillOf(s.contexts[ch]), x);
  }

  lemma GiveUpStep(s: State, ch: ChannelId, order: seq<nat>, tick: nat, x: Session)
    requires Inv(s) && ch in s.contexts
    requires O.Retry(s.contexts[ch].out, order, s.contexts[ch].connected, tick, s.clock).1
    ensures QueueStepOk(s, OnRetry(s, ch, order, tick), WillOf(s.contexts[ch]), x)
  {
    var out := O.Retry(s.contexts[ch].out, order, s.contexts[ch].connected, tick, s.clock).0;
    InvSetContext(s, ch, s.contexts[ch].(out := out));
    SetThenClose(s, SetContext(s, ch, s.contexts[ch].(out := out)), ch, out, x);
  }

  lemma KeepTryingStep(s: State, ch: ChannelId, order: seq<nat>, tick: nat, x: Session)
    requires ch in s.contexts
    requires !O.Retry(s.contexts[ch].out, order, s.contexts[ch].connected, tick, s.clock).1
    ensures QueueStepOk(s, OnRetry(s, ch, order, tick), None, x)
  {
    QuietStep(s, OnRetry(s, ch, order, tick), x);
  }

  lemma HandleStep(s: State, ch: ChannelId, input: Input, x: Session)
    requires Inv(s) && ch in s.contexts && Allowed(s, s.contexts[ch], input)
    ensures QueueStepOk(s, Handle(s, ch, input), RoutedBy(s, ch, input), x)
  {
    match input
    case Connect(cp) => ConnectStep(s, ch, cp, x);
    case Publish(pub) => PublishStep(s, ch, pub, x);
    case Subscribe(pid, wanted) => SubscribeStep(s, ch, pid, wanted, x);
    case Unsubscribe(pid, filters) =>
      if !s.contexts[ch].connected || filters == [] || SessionOf(s, ch).None? { CloseStep(s, ch, x); }
      else { UnsubscribeStep(s, ch, pid, filters, x); }
    case Ack(kind, pid) =>
      if !s.contexts[ch].connected { ClosedAckStep(s, ch, kind, pid, x); }
      else if kind == PubrelAck { ReleaseStep(s, ch, pid, x); }
      else { QuietAckStep(s, ch, kind, pid, x); }
    case Ping => CloseStep(s, ch, x); QuietStep(s, SendTo(s, ch, O.Pingresp), x);
    case Disconnect => QuietStep(s, Handle(s, ch, Disconnect), x);
    case Close => CloseStep(s, ch, x);
    case Retry(order, tick) =>
      if O.Retry(s.contexts[ch].out, order, s.contexts[ch].connected, tick, s.clock).1 {
        GiveUpStep(s, ch, order, tick, x);
      }
      else { KeepTryingStep(s, ch, order, tick, x); }
  }

  lemma StepQueues(s: State, e: Event, x: Session)
    requires Inv(s) && Admissible(s, e)
    ensures QueueStepOk(s, Step(s, e), Routed(s, e), x)
  {
    if e.On? && e.ch in s.contexts {
      HandleStep(s, e.ch, e.input, x);
    } else {
      QuietStep(s, Step(s, e), x);
    }
  }

  // ----- Over whole runs -----

  /** What an event routes past an offline persistent session. */
  ghost function Gain(s: State, m: Option<Message>, x: Session): seq<OutboxMessage> {
    if m.Some? && Keeps(s.contexts, s.byId, s.sessions, s.entries, m.value, x)
    then [OutboxMessage(m.value, Effective(s.entries, x, m.value), false)] else []
  }

  /** Everything a session has missed since its client was last connected. */
  ghost function Missed(events: seq<Event>, states: seq<State>, x: Session, n: nat): seq<OutboxMessage>
    requires n <= |events| < |states|
  {
    if n == 0 || Online(states[n].contexts, states[n].byId, x.clientId) then []
    else Missed(events, states, x, n - 1) + Gain(states[n - 1], Routed(states[n - 1], events[n - 1]), x)
  }

  lemma MissedStep(s: State, s': State, m: Option<Message>, x: Session, missed: seq<OutboxMessage>)
    requires QueueStepOk(s, s', m, x) && !x.clean
    requires Live(s'.sessions, x) && !Online(s'.contexts, s'.byId, x.clientId)
    requires QueueOf(s.queues, x) == Newest(missed)
    ensures QueueOf(s'.queues, x) == Newest(missed + Gain(s, m, x))
  {
    if m.Some? {
      QueueAfterRoute(s, m.value, x);
      PushKeepsNewest(missed, OutboxMessage(m.value, Effective(s.entries, x, m.value), false));
    }
    if Gain(s, m, x) == [] { assert missed + Gain(s, m, x) == missed; }
  }

  lemma OnlineHasNoQueue(s: State, x: Session)
    requires Inv(s) && Online(s.contexts, s.byId, x.clientId)
    ensures QueueOf(s.queues, x) == []
  {
    forall y | y in s.queues ensures QueueOk(s, y) && y != x { }
  }

  /** An event that leaves a session offline found it stored, and adds to its queue what it gains. */
  lemma OfflineStep(s: State, e: Event, s': State, x: Session, missed: seq<OutboxMessage>)
    requires Inv(s) && Admissible(s, e) && s' == Step(s, e) && !x.clean
    requires Live(s'.sessions, x) && !Online(s'.contexts, s'.byId, x.clientId)
    ensures Live(s.sessions, x)
    ensures QueueOf(s.queues, x) == Newest(missed) ==>
            QueueOf(s'.queues, x) == Newest(missed + Gain(s, Routed(s, e), x))
  {
    StepQueues(s, e, x);
    if QueueOf(s.queues, x) == Newest(missed) { MissedStep(s, s', Routed(s, e), x, missed); }
  }

  lemma NothingMissed(maxConnections: nat, events: seq<Event>, states: seq<State>, x: Session)
    requires IsRun(maxConnections, events, states)
    ensures QueueOf(states[0].queues, x) == Newest(Missed(events, states, x, 0))
  {
  }

  lemma OnlineMissed(maxConnections: nat, events: seq<Event>, states: seq<State>, x: Session, n: nat)
    requires IsRun(maxConnections, events, states) && n <= |events|
    requires Online(states[n].contexts, states[n].byId, x.clientId)
    ensures QueueOf(states[n].queues, x) == Newest(Missed(events, states, x, n))
  {
    InvReachable(maxConnections, events, states, n);
    OnlineHasNoQueue(states[n], x);
  }

  lemma MissedMore(events: seq<Event>, states: seq<State>, x: Session, n: nat)
    requires 0 < n <= |events| < |states| && !Online(states[n].contexts, states[n].byId, x.clientId)
    ensures Missed(events, states, x, n) ==
            Missed(events, states, x, n - 1) + Gain(states[n - 1], Routed(states[n - 1], events[n - 1]), x)
  {
  }

  lemma OfflineMissed(maxConnections: nat, events: seq<Event>, states: seq<State>, x: Session, n: nat)
    requires IsRun(maxConnections, events, states) && 0 < n <= |events| && Live(states[n].sessions, x) && !x.clean
    requires !Online(states[n].contexts, states[n].byId, x.clientId)
    ensures Live(states[n - 1].sessions, x)
    ensures QueueOf(states[n - 1].queues, x) == Newest(Missed(events, states, x, n - 1)) ==>
            QueueOf(states[n].queues, x) == Newest(Missed(events, states, x, n))
  {
    var missed := Missed(events, states, x, n - 1);
    LatestStep(maxConnections, events, states, n);
    MissedMore(events, states, x, n);
    OfflineStep(states[n - 1], events[n - 1], states[n], x, missed);
  }

  /** The queue of a persistent session is what it missed, cut to the newest 1000; empty while connected. */
  lemma {:induction false} QueueIsMissed(maxConnections: nat, events: seq<Event>, states: seq<State>, x: Session,
                                         n: nat)
    requires IsRun(maxConnections, events, states) && n <= |events|
    requires Live(states[n].sessions, x) && !x.clean
    ensures QueueOf(states[n].queues, x) == Newest(Missed(events, states, x, n))
  {
    if Online(states[n].contexts, states[n].byId, x.clientId) {
      OnlineMissed(maxConnections, events, states, x, n);
    } else if n > 0 {
      OfflineMissed(maxConnections, events, states, x, n);
      QueueIsMissed(maxConnections, events, states, x, n - 1);
    } else {
      NothingMissed(maxConnections, events, states, x);
    }
  }
}
