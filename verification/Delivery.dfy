/**
 End to end, over every run: what an event means for every client. If the event
 routes a message, the client's own subscription list decides what becomes of it;
 otherwise a client that is not itself acting notices nothing.
 */
module Delivery {
  import opened Bytes
  import opened Model
  import opened Outbox
  import opened Broker
  import opened Invariant
  import opened Routing
  import opened Inbound
  import opened StoreForward
  import T = Topic
  import O = Outbound
  import R = RetainStore

  /** The clients an event is about: the one on the channel and the one that connects. */
  ghost predicate Involved(s: State, e: Event, c: Text) {
    && e.On? && e.ch in s.contexts
    && (s.contexts[e.ch].clientId == c || (e.input.Connect? && c == IdFor(s, e.input.cp)))
  }

  /** The context after at most the given message was routed to it. */
  ghost function RoutedAt(s: State, m: Option<Message>, at: ChannelId): Context
    requires at in s.contexts
  {
    if m.None? then s.contexts[at]
    else s.contexts[at].(out := RoutedOut(s.contexts, s.byId, s.sessions, s.entries, s.clock, m.value, at))
  }

  ghost predicate SameFor(s: State, s': State, c: Text) {
    && (c in s'.byId <==> c in s.byId) && (c in s.byId ==> s'.byId[c] == s.byId[c])
    && (c in s'.sessions <==> c in s.sessions) && (c in s.sessions ==> s'.sessions[c] == s.sessions[c])
  }

  /** From `s` to `s'` the client `c` keeps session and connection, and at most `m` was routed to it. */
  ghost predicate Bystander(s: State, s': State, m: Option<Message>, c: Text) {
    && SameFor(s, s', c)
    && (c in s.byId ==>
          && s.byId[c] in s.contexts && s.byId[c] in s'.contexts
          && s'.contexts[s.byId[c]] == RoutedAt(s, m, s.byId[c]))
  }

  lemma Bound(s: State, c: Text)
    requires Inv(s) && c in s.byId
    ensures s.byId[c] in s.contexts && s.contexts[s.byId[c]].clientId == c
  {
    assert BoundOk(s.contexts, s.byId, s.sessions, c);
  }

  lemma Chained(s: State, s1: State, s2: State, m: Option<Message>, c: Text)
    requires Bystander(s, s1, m, c) && Bystander(s1, s2, None, c)
    ensures Bystander(s, s2, m, c)
  {
  }

  /** Preparations that leave the topic tree alone may come before. */
  lemma Prepared(s: State, s1: State, s2: State, m: Option<Message>, c: Text)
    requires Bystander(s, s1, None, c) && Bystander(s1, s2, m, c)
    requires s1.entries == s.entries && s1.clock == s.clock
    requires c in s.byId ==> s.byId[c] in s.contexts && s.contexts[s.byId[c]].clientId == c
    ensures Bystander(s, s2, m, c)
  {
  }

  lemma RouteBystander(s: State, msg: Message, c: Text)
    requires Inv(s)
    ensures Bystander(s, Route(s, msg), Some(msg), c)
  {
    if c in s.byId { Bound(s, c); }
  }

  lemma SetBystander(s: State, ch: ChannelId, ctx: Context, c: Text)
    requires Inv(s) && ch in s.contexts && s.contexts[ch].clientId != c
    ensures Bystander(s, SetContext(s, ch, ctx), None, c)
  {
    if c in s.byId { Bound(s, c); }
  }

  /** Another connection leaves, and the id of its client is free again. */
  lemma LeavesBystander(s: State, ch: ChannelId, d: Text, c: Text)
    requires Inv(s) && c != d && (c in s.byId ==> s.byId[c] != ch)
    ensures Bystander(s, s.(contexts := s.contexts - {ch}, byId := s.byId - {d}), None, c)
  {
    if c in s.byId { Bound(s, c); }
  }

  lemma DropBystander(s: State, x: Session, c: Text)
    requires x.clientId != c && (c in s.byId ==> s.byId[c] in s.contexts)
    ensures Bystander(s, DropSession(s, x), None, c)
  {
  }

  lemma RemoveBystander(s: State, ch: ChannelId, c: Text)
    requires Inv(s) && ch in s.contexts && s.contexts[ch].clientId != c
    ensures Bystander(s, RemoveChannel(s, ch), None, c)
  {
    var d := s.contexts[ch].clientId;
    var s1 := s.(contexts := s.contexts - {ch}, byId := s.byId - {d});
    RemoveChannelEffect(s, ch);
    if c in s.byId { Bound(s, c); }
    LeavesBystander(s, ch, d, c);
    if d in s.sessions && s.sessions[d].clean {
      assert SessionOk(s.byId, s.sessions, s.nextSession, None, d);
      DropBystander(s1, s.sessions[d], c);
      Chained(s, s1, DropSession(s1, s.sessions[d]), None, c);
    }
  }

  lemma WillBystander(s: State, ctx: Context, c: Text)
    requires Inv(s)
    ensures Bystander(s, PublishWill(s, ctx), Some(WillMessage(ctx)), c)
  {
    var msg := WillMessage(ctx);
    RouteRetained(s, msg, R.Stored(s.retained, msg));
    RouteBystander(s, msg, c);
  }

  lemma CloseBystander(s: State, ch: ChannelId, c: Text)
    requires Inv(s) && ch in s.contexts && s.contexts[ch].clientId != c
    ensures Bystander(s, CloseChannel(s, ch), WillOf(s.contexts[ch]), c)
  {
    var ctx := s.contexts[ch];
    if PublishesWill(ctx) {
      var s1 := PublishWill(s, ctx);
      InvPublishWill(s, ctx);
      WillBystander(s, ctx, c);
      RemoveBystander(s1, ch, c);
      Chained(s, s1, RemoveChannel(s1, ch), Some(WillMessage(ctx)), c);
    } else {
      RemoveBystander(s, ch, c);
    }
  }

  lemma EndBystander(s: State, s': State, ch: ChannelId, m: Option<Message>, c: Text)
    requires Inv(s) && ch in s.contexts && s.contexts[ch].clientId != c
    requires s' == CloseChannel(s, ch) && m == WillOf(s.contexts[ch])
    ensures Bystander(s, s', m, c)
  {
    CloseBystander(s, ch, c);
  }

  lemma SetThenCloseBystander(s: State, ch: ChannelId, out: O.Outbound, c: Text)
    requires Inv(s) && ch in s.contexts && s.contexts[ch].clientId != c
    ensures Bystander(s, CloseChannel(SetContext(s, ch, s.contexts[ch].(out := out)), ch), WillOf(s.contexts[ch]), c)
  {
    var ctx := s.contexts[ch].(out := out);
    var s1 := SetContext(s, ch, ctx);
    InvSetContext(s, ch, ctx);
    SetBystander(s, ch, ctx, c);
    CloseBystander(s1, ch, c);
    if c in s.byId { Bound(s, c); }
    Prepared(s, s1, CloseChannel(s1, ch), WillOf(s.contexts[ch]), c);
  }

  lemma GetSessionBystander(s: State, d: Text, clean: bool, c: Text)
    requires c != d && (d in s.sessions ==> s.sessions[d].clientId == d)
    requires c in s.byId ==> s.byId[c] in s.contexts
    ensures Bystander(s, GetSession(s, d, clean), None, c)
  {
  }

  lemma EstablishedBystander(s: State, ch: ChannelId, d: Text, cp: ConnectPacket, resumed: bool, c: Text)
    requires ch in s.contexts && d in s.sessions && c != d
    requires c in s.byId ==> s.byId[c] in s.contexts && s.byId[c] != ch
    ensures Bystander(s, Established(s, ch, d, cp, resumed), None, c)
  {
  }

  lemma TakeOverBystander(s: State, ch: ChannelId, d: Text, c: Text)
    requires Inv(s) && ch in s.contexts && s.contexts[ch].clientId == [] && c != d
    ensures Bystander(s, TakeOver(s, d, ch), None, c)
    ensures TakeOver(s, d, ch).sessions == s.sessions && ch in TakeOver(s, d, ch).contexts
    ensures d in s.sessions ==> s.sessions[d].clientId == d
  {
    TakeOverIsSilent(s, d, ch);
    if d in s.byId {
      Bound(s, d);
      if c in s.byId { Bound(s, c); }
      LeavesBystander(s, s.byId[d], d, c);
    } else {
      Idle(s, c);
    }
    if d in s.sessions { assert SessionOk(s.byId, s.sessions, s.nextSession, None, d); }
  }

  lemma AcceptedBystander(s: State, ch: ChannelId, d: Text, cp: ConnectPacket, c: Text)
    requires Inv(s) && ch in s.contexts && s.contexts[ch].clientId == [] && c != [] && c != d
    ensures Bystander(s, Accepted(s, ch, d, cp), None, c)
  {
    var s1 := TakeOver(s, d, ch);
    var s2 := GetSession(s1, d, cp.clean);
    TakeOverBystander(s, ch, d, c);
    GetSessionBystander(s1, d, cp.clean, c);
    Chained(s, s1, s2, None, c);
    if c in s.byId { Bound(s, c); }
    EstablishedBystander(s2, ch, d, cp, d in s1.sessions && !cp.clean, c);
    Chained(s, s2, Accepted(s, ch, d, cp), None, c);
  }

  lemma NumberedBystander(s: State, cp: ConnectPacket, s2: State, c: Text)
    requires Bystander(Numbered(s, cp), s2, None, c)
    ensures Bystander(s, s2, None, c)
  {
  }

  lemma AnsweredBystander(s: State, ch: ChannelId, cp: ConnectPacket, c: Text)
    requires Inv(s) && ch in s.contexts && s.contexts[ch].clientId == [] && !s.contexts[ch].connected
    requires c != [] && c != IdFor(s, cp)
    ensures Bystander(s, Answered(s, ch, cp), None, c)
  {
    match Refusal(s, cp)
    case Some(code) => SetThenCloseBystander(s, ch, O.Emit(s.contexts[ch].out, O.Connack(false, code), s.clock), c);
    case None =>
      InvNumbered(s, cp);
      AcceptedBystander(Numbered(s, cp), ch, IdFor(s, cp), cp, c);
      NumberedBystander(s, cp, Accepted(Numbered(s, cp), ch, IdFor(s, cp), cp), c);
  }

  lemma PublishNewBystander(s: State, ch: ChannelId, pub: PublishPacket, m: Option<Message>, c: Text)
    requires Inv(s) && ch in s.contexts && s.contexts[ch].clientId != c
    requires m == if (pub.retain && pub.payload == []) || pub.qos == EXACTLY_ONCE then None
                  else Some(PublishedMessage(s.contexts[ch], pub))
    ensures Bystander(s, PublishNew(s, ch, pub), m, c)
  {
    var msg := PublishedMessage(s.contexts[ch], pub);
    var ctx := Remember(s.contexts[ch], pub);
    var s1 := SetContext(s, ch, ctx);
    InvSetContext(s, ch, ctx);
    SetBystander(s, ch, ctx, c);
    if c in s.byId { Bound(s, c); }
    if m.Some? {
      RouteRetained(s1, msg, R.Stored(s1.retained, msg));
      RouteBystander(s1, msg, c);
      Prepared(s, s1, Route(s1, msg), m, c);
    }
  }

  lemma SendBystander(s: State, s1: State, ch: ChannelId, packet: O.Packet, m: Option<Message>, c: Text)
    requires Bystander(s, s1, m, c) && Inv(s1) && ch in s1.contexts && s1.contexts[ch].clientId != c
    ensures Bystander(s, SendTo(s1, ch, packet), m, c)
  {
    SetBystander(s1, ch, s1.contexts[ch].(out := O.Emit(s1.contexts[ch].out, packet, s1.clock)), c);
    Chained(s, s1, SendTo(s1, ch, packet), m, c);
  }

  lemma Idle(s: State, c: Text)
    requires Inv(s)
    ensures Bystander(s, s, None, c)
  {
    if c in s.byId { Bound(s, c); }
  }

  lemma AcknowledgeBystander(s: State, s1: State, ch: ChannelId, qos: Qos, pid: nat, m: Option<Message>, c: Text)
    requires Bystander(s, s1, m, c) && Inv(s1) && ch in s1.contexts && s1.contexts[ch].clientId != c
    ensures Bystander(s, Acknowledge(s1, ch, qos, pid), m, c)
  {
    if qos > AT_MOST_ONCE { SendBystander(s, s1, ch, AckFor(qos, pid), m, c); }
  }

  lemma NewAckBystander(s: State, ch: ChannelId, pub: PublishPacket, m: Option<Message>, c: Text)
    requires Inv(s) && ch in s.contexts && s.contexts[ch].clientId != c
    requires m == if (pub.retain && pub.payload == []) || pub.qos == EXACTLY_ONCE then None
                  else Some(PublishedMessage(s.contexts[ch], pub))
    ensures Bystander(s, Acknowledge(PublishNew(s, ch, pub), ch, pub.qos, pub.packetId), m, c)
  {
    PublishNewBystander(s, ch, pub, m, c);
    InvPublishNew(s, ch, pub);
    PublishNewKeepsClient(s, ch, pub);
    AcknowledgeBystander(s, PublishNew(s, ch, pub), ch, pub.qos, pub.packetId, m, c);
  }

  lemma PublishAckBystander(s: State, ch: ChannelId, pub: PublishPacket, c: Text)
    requires Inv(s) && ch in s.contexts && s.contexts[ch].clientId != c
    requires s.contexts[ch].connected && T.ValidName(pub.topic)
    ensures Bystander(s, OnPublish(s, ch, pub), RoutedBy(s, ch, Publish(pub)), c)
  {
    if AlreadyReceived(s.contexts[ch], pub) {
      Idle(s, c);
      AcknowledgeBystander(s, s, ch, pub.qos, pub.packetId, None, c);
    } else {
      NewAckBystander(s, ch, pub, RoutedBy(s, ch, Publish(pub)), c);
    }
  }

  lemma PublishBystander(s: State, ch: ChannelId, pub: PublishPacket, c: Text)
    requires Inv(s) && ch in s.contexts && s.contexts[ch].clientId != c
    ensures Bystander(s, OnPublish(s, ch, pub), RoutedBy(s, ch, Publish(pub)), c)
  {
    if !s.contexts[ch].connected || !T.ValidName(pub.topic) {
      assert OnPublish(s, ch, pub) == CloseChannel(s, ch);
      CloseBystander(s, ch, c);
    } else {
      PublishAckBystander(s, ch, pub, c);
    }
  }

  lemma SubscribeOneBystander(s: State, ch: ChannelId, x: Session, sub: Subscription, c: Text)
    requires Inv(s) && ch in s.contexts && s.contexts[ch].clientId != c && x in s.subs
    ensures Bystander(s, SubscribeOne(s, ch, x, sub), None, c)
  {
    if c in s.byId { Bound(s, c); }
  }

  lemma {:induction false} SubscribeAllBystander(s: State, ch: ChannelId, x: Session, wanted: seq<Subscription>,
                                                 c: Text)
    requires Inv(s) && ch in s.contexts && s.contexts[ch].clientId != c && x in s.subs
    ensures Bystander(s, SubscribeAll(s, ch, x, wanted), None, c)
    decreases |wanted|
  {
    if wanted == [] {
      Idle(s, c);
    } else {
      var s1 := SubscribeOne(s, ch, x, wanted[0]);
      InvSubscribeOne(s, ch, x, wanted[0]);
      SubscribeOneBystander(s, ch, x, wanted[0], c);
      SubscribeAllBystander(s1, ch, x, wanted[1..], c);
      Chained(s, s1, SubscribeAll(s1, ch, x, wanted[1..]), None, c);
    }
  }

  lemma SubscribedBystander(s: State, ch: ChannelId, x: Session, wanted: seq<Subscription>, packet: O.Packet, c: Text)
    requires Inv(s) && ch in s.contexts && s.contexts[ch].clientId != c && x in s.subs
    ensures Bystander(s, SendTo(SubscribeAll(s, ch, x, wanted), ch, packet), None, c)
  {
    SubscribeAllBystander(s, ch, x, wanted, c);
    InvSubscribeAll(s, ch, x, wanted);
    SubscribeKeeps(s, ch, x, wanted);
    SendBystander(s, SubscribeAll(s, ch, x, wanted), ch, packet, None, c);
  }

  lemma SubscribeBystander(s: State, ch: ChannelId, pid: nat, wanted: seq<Subscription>, c: Text)
    requires Inv(s) && ch in s.contexts && s.contexts[ch].clientId != c
    ensures Bystander(s, OnSubscribe(s, ch, pid, wanted), RoutedBy(s, ch, Subscribe(pid, wanted)), c)
  {
    if !s.contexts[ch].connected || wanted == [] || SessionOf(s, ch).None? {
      EndBystander(s, OnSubscribe(s, ch, pid, wanted), ch, RoutedBy(s, ch, Subscribe(pid, wanted)), c);
    } else {
      SubscribedBystander(s, ch, SessionOf(s, ch).value, wanted, O.Suback(pid, GrantCodes(wanted)), c);
    }
  }

  lemma UnsubscribedBystander(s: State, ch: ChannelId, x: Session, filters: seq<Text>, packet: O.Packet, c: Text)
    requires Inv(s) && ch in s.contexts && s.contexts[ch].clientId != c && x in s.subs
    ensures Bystander(s, SendTo(UnsubscribeAll(s, x, filters), ch, packet), None, c)
  {
    if c in s.byId { Bound(s, c); }
    InvUnsubscribeAll(s, x, filters);
    SendBystander(s, UnsubscribeAll(s, x, filters), ch, packet, None, c);
  }

  lemma UnsubscribeBystander(s: State, ch: ChannelId, pid: nat, filters: seq<Text>, c: Text)
    requires Inv(s) && ch in s.contexts && s.contexts[ch].clientId != c
    ensures Bystander(s, OnUnsubscribe(s, ch, pid, filters), RoutedBy(s, ch, Unsubscribe(pid, filters)), c)
  {
    if !s.contexts[ch].connected || filters == [] || SessionOf(s, ch).None? {
      EndBystander(s, OnUnsubscribe(s, ch, pid, filters), ch, RoutedBy(s, ch, Unsubscribe(pid, filters)), c);
    } else {
      UnsubscribedBystander(s, ch, SessionOf(s, ch).value, filters, O.Unsuback(pid), c);
    }
  }

  lemma HeldBystander(s: State, ch: ChannelId, pid: nat, c: Text)
    requires Inv(s) && ch in s.contexts && s.contexts[ch].clientId != c && pid in s.contexts[ch].awaitingPubrel
    ensures Bystander(s, ReleaseHeld(s, ch, pid), Some(s.contexts[ch].awaitingPubrel[pid]), c)
  {
    var msg := s.contexts[ch].awaitingPubrel[pid];
    var s1 := Route(s, msg);
    InvRoute(s, msg);
    RouteBystander(s, msg, c);
    var ctx := s1.contexts[ch].(awaitingPubrel := s1.contexts[ch].awaitingPubrel - {pid});
    SetBystander(s1, ch, ctx, c);
    Chained(s, s1, SetContext(s1, ch, ctx), Some(msg), c);
  }

  lemma PubrelBystander(s: State, ch: ChannelId, pid: nat, c: Text)
    requires Inv(s) && ch in s.contexts && s.contexts[ch].clientId != c && s.contexts[ch].connected
    requires pid in s.contexts[ch].awaitingPubrel
    ensures Bystander(s, OnAck(s, ch, PubrelAck, pid), Some(s.contexts[ch].awaitingPubrel[pid]), c)
  {
    InvReleaseHeld(s, ch, pid);
    HeldBystander(s, ch, pid, c);
    SendBystander(s, ReleaseHeld(s, ch, pid), ch, O.Pubcomp(pid), Some(s.contexts[ch].awaitingPubrel[pid]), c);
  }

  lemma EmptyPubrelBystander(s: State, ch: ChannelId, pid: nat, c: Text)
    requires Inv(s) && ch in s.contexts && s.contexts[ch].clientId != c && s.contexts[ch].connected
    requires pid !in s.contexts[ch].awaitingPubrel
    ensures Bystander(s, OnAck(s, ch, PubrelAck, pid), None, c)
  {
    Idle(s, c);
    SendBystander(s, s, ch, O.Pubcomp(pid), None, c);
  }

  lemma QuietAckBystander(s: State, ch: ChannelId, kind: AckKind, pid: nat, c: Text)
    requires Inv(s) && ch in s.contexts && s.contexts[ch].clientId != c
    requires s.contexts[ch].connected && kind != PubrelAck
    ensures Bystander(s, OnAck(s, ch, kind, pid), None, c)
  {
    SetBystander(s, ch, OnAck(s, ch, kind, pid).contexts[ch], c);
  }

  lemma ClosedAckBystander(s: State, ch: ChannelId, kind: AckKind, pid: nat, c: Text)
    requires Inv(s) && ch in s.contexts && s.contexts[ch].clientId != c && !s.contexts[ch].connected
    ensures Bystander(s, OnAck(s, ch, kind, pid), None, c)
  {
    CloseBystander(s, ch, c);
    assert OnAck(s, ch, kind, pid) == CloseChannel(s, ch);
  }

  lemma HandleBystander(s: State, ch: ChannelId, input: Input, c: Text)
    requires Inv(s) && ch in s.contexts && Allowed(s, s.contexts[ch], input) && c != []
    requires !Involved(s, On(ch, input), c)
    ensures Bystander(s, Handle(s, ch, input), RoutedBy(s, ch, input), c)
  {
    match input
    case Connect(cp) =>
      if s.contexts[ch].connected || cp.protocol != MQTT { CloseBystander(s, ch, c); }
      else { AnsweredBystander(s, ch, cp, c); }
    case Publish(pub) => PublishBystander(s, ch, pub, c);
    case Subscribe(pid, wanted) => SubscribeBystander(s, ch, pid, wanted, c);
    case Unsubscribe(pid, filters) => UnsubscribeBystander(s, ch, pid, filters, c);
    case Ack(kind, pid) =>
      if !s.contexts[ch].connected { ClosedAckBystander(s, ch, kind, pid, c); }
      else if kind == PubrelAck && pid in s.contexts[ch].awaitingPubrel { PubrelBystander(s, ch, pid, c); }
      else if kind == PubrelAck { EmptyPubrelBystander(s, ch, pid, c); }
      else { QuietAckBystander(s, ch, kind, pid, c); }
    case Ping => Idle(s, c); SendBystander(s, s, ch, O.Pingresp, None, c); CloseBystander(s, ch, c);
    case Disconnect => SetBystander(s, ch, s.contexts[ch].(cleanDisconnect := true, connected := false), c);
    case Close => CloseBystander(s, ch, c);
    case Retry(order, tick) =>
      var r := O.Retry(s.contexts[ch].out, order, s.contexts[ch].connected, tick, s.clock);
      if r.1 { SetThenCloseBystander(s, ch, r.0, c); }
      else { SetBystander(s, ch, s.contexts[ch].(out := r.0), c); }
  }

  lemma StepBystander(s: State, e: Event, c: Text)
    requires Inv(s) && Admissible(s, e) && c != [] && !Involved(s, e, c)
    ensures Bystander(s, Step(s, e), Routed(s, e), c)
  {
    if e.On? && e.ch in s.contexts {
      HandleBystander(s, e.ch, e.input, c);
    } else {
      if c in s.byId {
        Bound(s, c);
        assert ContextOk(s.contexts, s.byId, s.nextChannel, s.byId[c]);
      }
    }
  }

  // ----- The theorem -----

  lemma NoQueueFor(s: State, x: Session)
    requires Inv(s) && (x.clean || Online(s.contexts, s.byId, x.clientId))
    ensures QueueOf(s.queues, x) == []
  {
    forall y | y in s.queues ensures QueueOk(s, y) && y != x { }
  }

  lemma OnlineStays(s: State, s': State, m: Option<Message>, c: Text)
    requires Bystander(s, s', m, c)
    ensures Online(s'.contexts, s'.byId, c) == Online(s.contexts, s.byId, c)
  {
  }

  /** The queue of a client that is not acting is what routing makes it. */
  lemma QueueAfterEvent(s: State, s': State, m: Option<Message>, x: Session)
    requires Inv(s) && Inv(s') && Live(s.sessions, x)
    requires Bystander(s, s', m, x.clientId) && QueueStepOk(s, s', m, x)
    ensures QueueOf(s'.queues, x) == QueueOf(QueuesAfter(s, m), x)
  {
    OnlineStays(s, s', m, x.clientId);
    if x.clean || Online(s.contexts, s.byId, x.clientId) {
      NoQueueFor(s, x);
      NoQueueFor(s', x);
      if m.Some? { QueueAfterRoute(s, m.value, x); }
    }
  }

  /** What a message does to a client is seen in its queue and its connection alone. */
  lemma FateSeen(s: State, r: State, s': State, msg: Message, c: Text)
    requires c in s.sessions && s.sessions[c] in s.subs
    requires c in s.byId ==> s.byId[c] in s.contexts && s.byId[c] in r.contexts && s.byId[c] in s'.contexts
    requires Fate(s, r, msg, c)
    requires QueueOf(s'.queues, s.sessions[c]) == QueueOf(r.queues, s.sessions[c])
    requires c in s.byId ==> s'.contexts[s.byId[c]] == r.contexts[s.byId[c]]
    ensures Fate(s, s', msg, c)
  {
  }

  /** A client's share of an event: the fate of the message, or nothing at all. */
  ghost predicate Share(s: State, s': State, m: Option<Message>, c: Text)
    requires c in s.sessions && s.sessions[c] in s.subs
    requires c in s.byId ==> s.byId[c] in s.contexts && s.byId[c] in s'.contexts
  {
    match m
    case Some(msg) => Fate(s, s', msg, c)
    case None =>
      && QueueOf(s'.queues, s.sessions[c]) == QueueOf(s.queues, s.sessions[c])
      && (c in s.byId ==> s'.contexts[s.byId[c]] == s.contexts[s.byId[c]])
  }

  lemma ShareOf(s: State, s': State, m: Option<Message>, c: Text)
    requires Inv(s) && Inv(s') && c in s.sessions && s.sessions[c].clientId == c
    requires Bystander(s, s', m, c) && QueueStepOk(s, s', m, s.sessions[c])
    ensures s.sessions[c] in s.subs && Share(s, s', m, c)
  {
    QueueAfterEvent(s, s', m, s.sessions[c]);
    if m.Some? {
      FateOfRoute(s, m.value, c);
      RouteBystander(s, m.value, c);
      FateSeen(s, Route(s, m.value), s', m.value, c);
    } else {
      assert s.sessions[c] in s.subs;
    }
  }

  /**
   Every event of every run, seen by every client it is not about: if the event
   routes a message the client gets the fate its own subscriptions prescribe,
   and if it routes nothing neither the connection nor the queue changes.
   */
  lemma EndToEnd(maxConnections: nat, events: seq<Event>, states: seq<State>, i: nat, c: Text)
    requires IsRun(maxConnections, events, states) && i < |events|
    requires c in states[i].sessions && !Involved(states[i], events[i], c)
    ensures
      var s, s' := states[i], states[i + 1];
      && s.sessions[c] in s.subs && SameFor(s, s', c)
      && (c in s.byId ==> s.byId[c] in s.contexts && s.byId[c] in s'.contexts)
      && Share(s, s', Routed(s, events[i]), c)
  {
    var s, s' := states[i], states[i + 1];
    var m := Routed(s, events[i]);
    InvReachable(maxConnections, events, states, i);
    InvReachable(maxConnections, events, states, i + 1);
    assert SessionOk(s.byId, s.sessions, s.nextSession, None, c);
    StepBystander(s, events[i], c);
    StepQueues(s, events[i], s.sessions[c]);
    ShareOf(s, s', m, c);
  }

  // ----- The acting client -----

  /** At most one packet more, and nothing else changed. */
  ghost predicate Followed(o: O.Outbound, o': O.Outbound, ack: Option<O.Packet>, now: int) {
    o' == o.(log := o.log + if ack.Some? then [O.Sent(ack.value, now, 0)] else [])
  }

  /**
   What the client on a channel is sent when its own packet hands at most `m` to
   the router: its own subscription list decides whether it gets the message, at
   which QoS, once; the acknowledgement comes after it.
   */
  ghost predicate OwnShare(s: State, s': State, ch: ChannelId, m: Option<Message>, ack: Option<O.Packet>)
    requires ch in s.contexts && s.contexts[ch].session.Some? && s.contexts[ch].session.value in s.subs
  {
    var subs, o := s.subs[s.contexts[ch].session.value], s.contexts[ch].out;
    && ch in s'.contexts
    && (m.None? || NoMatch(subs, m.value.topic) ==> Followed(o, s'.contexts[ch].out, ack, s.clock))
    && (m.Some? ==> forall q: Qos :: BestMatch(subs, m.value.topic, q) ==>
          exists got :: GotOnce(o, got, m.value, MinQos(q, m.value.qos))
                        && Followed(got, s'.contexts[ch].out, ack, s.clock))
  }

  /** Routing reaches a connected client as its own subscription list says. */
  lemma OwnRoute(s: State, ch: ChannelId, msg: Message)
    requires Inv(s) && ch in s.contexts && s.contexts[ch].connected
    ensures s.contexts[ch].session.Some? && s.contexts[ch].session.value in s.subs
    ensures
      var subs, o := s.subs[s.contexts[ch].session.value], s.contexts[ch].out;
      && (NoMatch(subs, msg.topic) ==> RoutedAt(s, Some(msg), ch).out == o)
      && (forall q: Qos :: BestMatch(subs, msg.topic, q) ==>
            GotOnce(o, RoutedAt(s, Some(msg), ch).out, msg, MinQos(q, msg.qos)))
  {
    ConnectedHasSession(s, ch);
    var c, x := s.contexts[ch].clientId, s.contexts[ch].session.value;
    assert ContextOk(s.contexts, s.byId, s.nextChannel, ch);
    assert BoundOk(s.contexts, s.byId, s.sessions, c);
    WantsMeansListed(s, x, msg.topic, 0);
    forall q: Qos | BestMatch(s.subs[x], msg.topic, q)
      ensures GotOnce(s.contexts[ch].out, RoutedAt(s, Some(msg), ch).out, msg, MinQos(q, msg.qos))
    {
      EffectiveIsBest(s, x, msg, q);
      DeliveredOnce(s.contexts[ch].out, msg, MinQos(q, msg.qos), s.clock);
    }
  }

  lemma OwnShareOf(s: State, s': State, ch: ChannelId, m: Option<Message>, ack: Option<O.Packet>)
    requires Inv(s) && ch in s.contexts && s.contexts[ch].connected && ch in s'.contexts
    requires Followed(RoutedAt(s, m, ch).out, s'.contexts[ch].out, ack, s.clock)
    ensures s.contexts[ch].session.Some? && s.contexts[ch].session.value in s.subs
    ensures OwnShare(s, s', ch, m, ack)
  {
    if m.Some? { OwnRoute(s, ch, m.value); } else { ConnectedHasSession(s, ch); }
  }

  lemma PublishNewOut(s: State, ch: ChannelId, pub: PublishPacket, m: Option<Message>)
    requires ch in s.contexts
    requires m == if (pub.retain && pub.payload == []) || pub.qos == EXACTLY_ONCE then None
                  else Some(PublishedMessage(s.contexts[ch], pub))
    ensures PublishNew(s, ch, pub).contexts[ch].out == RoutedAt(s, m, ch).out
  {
    var s1 := SetContext(s, ch, Remember(s.contexts[ch], pub));
    var msg := PublishedMessage(s.contexts[ch], pub);
    RouteRetained(s1, msg, R.Stored(s1.retained, msg));
  }

  lemma PublishOut(s: State, ch: ChannelId, pub: PublishPacket)
    requires ch in s.contexts && s.contexts[ch].connected && T.ValidName(pub.topic)
    ensures ch in OnPublish(s, ch, pub).contexts
    ensures Followed(RoutedAt(s, RoutedBy(s, ch, Publish(pub)), ch).out, OnPublish(s, ch, pub).contexts[ch].out,
                     if pub.qos == AT_MOST_ONCE then None else Some(AckFor(pub.qos, pub.packetId)), s.clock)
  {
    var s1 := if AlreadyReceived(s.contexts[ch], pub) then s else PublishNew(s, ch, pub);
    if !AlreadyReceived(s.contexts[ch], pub) { PublishNewOut(s, ch, pub, RoutedBy(s, ch, Publish(pub))); }
    assert OnPublish(s, ch, pub) == Acknowledge(s1, ch, pub.qos, pub.packetId);
  }

  /**
   A PUBLISH, in every run: a publisher that subscribes to its own message gets
   it like anyone else, once, before its acknowledgement; a repeated, a held or a
   deleting PUBLISH is acknowledged and nothing more.
   */
  lemma PublisherShare(maxConnections: nat, events: seq<Event>, states: seq<State>, n: nat, pub: PublishPacket)
    requires IsRun(maxConnections, events, states) && n < |events|
    requires events[n].On? && events[n].input == Publish(pub) && T.ValidName(pub.topic)
    requires events[n].ch in states[n].contexts && states[n].contexts[events[n].ch].connected
    ensures
      var s, ch := states[n], events[n].ch;
      && s.contexts[ch].session.Some? && s.contexts[ch].session.value in s.subs
      && OwnShare(s, states[n + 1], ch, Routed(s, events[n]),
                  if pub.qos == AT_MOST_ONCE then None else Some(AckFor(pub.qos, pub.packetId)))
  {
    var s, ch := states[n], events[n].ch;
    InvReachable(maxConnections, events, states, n);
    assert states[n + 1] == OnPublish(s, ch, pub);
    PublishOut(s, ch, pub);
    OwnShareOf(s, states[n + 1], ch, RoutedBy(s, ch, Publish(pub)),
               if pub.qos == AT_MOST_ONCE then None else Some(AckFor(pub.qos, pub.packetId)));
  }

  lemma ReleaseOut(s: State, ch: ChannelId, pid: nat)
    requires ch in s.contexts && s.contexts[ch].connected
    ensures ch in OnAck(s, ch, PubrelAck, pid).contexts
    ensures Followed(RoutedAt(s, RoutedBy(s, ch, Ack(PubrelAck, pid)), ch).out,
                     OnAck(s, ch, PubrelAck, pid).contexts[ch].out, Some(O.Pubcomp(pid)), s.clock)
  {
  }

  /** A PUBREL, in every run: the client gets its own held message likewise, and then one PUBCOMP in any case. */
  lemma ReleaserShare(maxConnections: nat, events: seq<Event>, states: seq<State>, n: nat, pid: nat)
    requires IsRun(maxConnections, events, states) && n < |events|
    requires events[n].On? && events[n].input == Ack(PubrelAck, pid)
    requires events[n].ch in states[n].contexts && states[n].contexts[events[n].ch].connected
    ensures
      var s, ch := states[n], events[n].ch;
      && s.contexts[ch].session.Some? && s.contexts[ch].session.value in s.subs
      && OwnShare(s, states[n + 1], ch, Routed(s, events[n]), Some(O.Pubcomp(pid)))
  {
    var s, ch := states[n], events[n].ch;
    InvReachable(maxConnections, events, states, n);
    assert states[n + 1] == OnAck(s, ch, PubrelAck, pid);
    ReleaseOut(s, ch, pid);
    OwnShareOf(s, states[n + 1], ch, RoutedBy(s, ch, Ack(PubrelAck, pid)), Some(O.Pubcomp(pid)));
  }
}
