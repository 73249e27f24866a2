/**
 The life of a connection, in every run: exactly which events end a channel, what
 a context still knows of its CONNECT, and which will its end publishes.
 */
module Lifecycle {
  import opened Bytes
  import opened Model
  import opened Outbox
  import opened Broker
  import opened Invariant
  import opened Routing
  import opened Inbound
  import opened Guarantees
  import opened Outcomes
  import opened Resending
  import T = Topic
  import O = Outbound
  import R = RetainStore

  // ----- Channels -----

  /** The input ends its own channel: a violation, a refusal, exhausted retries, or the end itself. */
  ghost predicate Ends(s: State, ch: ChannelId, input: Input)
    requires ch in s.contexts
  {
    var ctx := s.contexts[ch];
    match input
    case Connect(cp) => ctx.connected || !Acceptable(s, cp)
    case Publish(pub) => !ctx.connected || !T.ValidName(pub.topic)
    case Subscribe(_, wanted) => !ctx.connected || wanted == []
    case Unsubscribe(_, filters) => !ctx.connected || filters == []
    case Ack(_, _) => !ctx.connected
    case Ping => !ctx.connected
    case Disconnect => false
    case Close => true
    case Retry(_, _) => OutOfRetries(ctx.out)
  }

  /** The input is a CONNECT that takes the client id away from another channel. */
  ghost predicate TakesFrom(s: State, ch: ChannelId, input: Input, at: ChannelId)
    requires ch in s.contexts
  {
    && input.Connect? && !Ends(s, ch, input) && at != ch
    && IdFor(s, input.cp) in s.byId && s.byId[IdFor(s, input.cp)] == at
  }

  lemma {:induction false} SubscribeChannels(s: State, ch: ChannelId, x: Session, wanted: seq<Subscription>)
    requires ch in s.contexts && x in s.subs
    ensures SubscribeAll(s, ch, x, wanted).contexts.Keys == s.contexts.Keys
    decreases |wanted|
  {
    if wanted != [] {
      SubscribeChannels(SubscribeOne(s, ch, x, wanted[0]), ch, x, wanted[1..]);
      assert SubscribeOne(s, ch, x, wanted[0]).contexts.Keys == s.contexts.Keys;
    }
  }

  /** The channels are the same, and one context has at most been sent something since it was `ctx`. */
  ghost predicate SameChannels(s: State, s': State, ch: ChannelId, ctx: Context)
    requires ch in s.contexts
  {
    s'.contexts.Keys == s.contexts.Keys && s'.contexts[ch] == ctx.(out := s'.contexts[ch].out)
  }

  lemma RoutedChannels(s: State, msg: Message, ch: ChannelId)
    requires ch in s.contexts
    ensures SameChannels(s, Route(s, msg), ch, s.contexts[ch])
  {
  }

  lemma SendChannels(s: State, s1: State, ch: ChannelId, packet: O.Packet, ctx: Context)
    requires ch in s.contexts && SameChannels(s, s1, ch, ctx)
    ensures SameChannels(s, SendTo(s1, ch, packet), ch, ctx)
  {
  }

  lemma PublishNewChannels(s: State, ch: ChannelId, pub: PublishPacket)
    requires ch in s.contexts
    ensures SameChannels(s, PublishNew(s, ch, pub), ch, Remember(s.contexts[ch], pub))
  {
    var msg := PublishedMessage(s.contexts[ch], pub);
    var s1 := SetContext(s, ch, Remember(s.contexts[ch], pub));
    if !(pub.retain && pub.payload == []) && pub.qos != EXACTLY_ONCE {
      RoutedChannels(if pub.retain then s1.(retained := R.Stored(s1.retained, msg)) else s1, msg, ch);
    }
  }

  lemma AcknowledgeChannels(s: State, s1: State, ch: ChannelId, qos: Qos, pid: nat, ctx: Context)
    requires ch in s.contexts && ch in s1.contexts && SameChannels(s, s1, ch, ctx)
    ensures SameChannels(s, Acknowledge(s1, ch, qos, pid), ch, ctx)
  {
    if qos > AT_MOST_ONCE { SendChannels(s, s1, ch, AckFor(qos, pid), ctx); }
  }

  lemma PublishChannels(s: State, ch: ChannelId, pub: PublishPacket)
    requires ch in s.contexts && s.contexts[ch].connected && T.ValidName(pub.topic)
    ensures
      var ctx := s.contexts[ch];
      SameChannels(s, OnPublish(s, ch, pub), ch, if AlreadyReceived(ctx, pub) then ctx else Remember(ctx, pub))
  {
    var ctx := s.contexts[ch];
    if AlreadyReceived(ctx, pub) {
      AcknowledgeChannels(s, s, ch, pub.qos, pub.packetId, ctx);
    } else {
      PublishNewChannels(s, ch, pub);
      AcknowledgeChannels(s, PublishNew(s, ch, pub), ch, pub.qos, pub.packetId, Remember(ctx, pub));
    }
  }

  lemma ReleaseChannels(s: State, ch: ChannelId, pid: nat)
    requires ch in s.contexts
    ensures
      var ctx := s.contexts[ch];
      SameChannels(s, ReleaseHeld(s, ch, pid), ch, ctx.(awaitingPubrel := ctx.awaitingPubrel - {pid}))
  {
    var held := s.contexts[ch].awaitingPubrel;
    if pid in held { RoutedChannels(s, held[pid], ch); } else { assert held - {pid} == held; }
  }

  lemma AckChannels(s: State, ch: ChannelId, kind: AckKind, pid: nat)
    requires ch in s.contexts && s.contexts[ch].connected
    ensures
      var ctx := s.contexts[ch];
      SameChannels(s, OnAck(s, ch, kind, pid), ch,
                   if kind == PubackAck then ctx.(awaitingPuback := ctx.awaitingPuback - {pid})
                   else if kind == PubrelAck then ctx.(awaitingPubrel := ctx.awaitingPubrel - {pid}) else ctx)
  {
    if kind == PubrelAck {
      var ctx := s.contexts[ch];
      ReleaseChannels(s, ch, pid);
      SendChannels(s, ReleaseHeld(s, ch, pid), ch, O.Pubcomp(pid), ctx.(awaitingPubrel := ctx.awaitingPubrel - {pid}));
    }
  }

  lemma SubscribedChannels(s: State, ch: ChannelId, pid: nat, wanted: seq<Subscription>)
    requires Inv(s) && ch in s.contexts && s.contexts[ch].connected && wanted != []
    ensures SameChannels(s, OnSubscribe(s, ch, pid, wanted), ch, s.contexts[ch])
  {
    ConnectedHasSession(s, ch);
    var x := s.contexts[ch].session.value;
    SubscribeChannels(s, ch, x, wanted);
    SubscribeKeeps(s, ch, x, wanted);
    SendChannels(s, SubscribeAll(s, ch, x, wanted), ch, O.Suback(pid, GrantCodes(wanted)), s.contexts[ch]);
  }

  lemma UnsubscribedChannels(s: State, ch: ChannelId, pid: nat, filters: seq<Text>)
    requires Inv(s) && ch in s.contexts && s.contexts[ch].connected && filters != []
    ensures SameChannels(s, OnUnsubscribe(s, ch, pid, filters), ch, s.contexts[ch])
  {
    ConnectedHasSession(s, ch);
    SendChannels(s, UnsubscribeAll(s, s.contexts[ch].session.value, filters), ch, O.Unsuback(pid), s.contexts[ch]);
  }

  lemma CheckChannels(s: State, ch: ChannelId, order: seq<nat>, tick: nat)
    requires ch in s.contexts && Allowed(s, s.contexts[ch], Retry(order, tick)) && !OutOfRetries(s.contexts[ch].out)
    ensures SameChannels(s, OnRetry(s, ch, order, tick), ch, s.contexts[ch])
  {
    CheckEndsIff(s, ch, order, tick);
  }

  lemma AcceptedChannels(s: State, ch: ChannelId, c: Text, cp: ConnectPacket)
    requires Inv(s) && ch in s.contexts && s.contexts[ch].clientId == []
    ensures c in s.byId ==> s.byId[c] != ch && s.byId[c] in s.contexts
    ensures Accepted(s, ch, c, cp).contexts.Keys == s.contexts.Keys - if c in s.byId then {s.byId[c]} else {}
  {
    TakeOverIsSilent(s, c, ch);
    if c in s.byId { assert BoundOk(s.contexts, s.byId, s.sessions, c); }
  }

  lemma AcceptableIsAccepted(s: State, ch: ChannelId, cp: ConnectPacket)
    requires ch in s.contexts && !s.contexts[ch].connected && Acceptable(s, cp)
    ensures OnConnect(s, ch, cp) == Accepted(Numbered(s, cp), ch, IdFor(s, cp), cp)
  {
  }

  lemma ConnectChannels(s: State, ch: ChannelId, cp: ConnectPacket, at: ChannelId)
    requires Inv(s) && ch in s.contexts && !s.contexts[ch].connected && s.contexts[ch].clientId == []
    requires Acceptable(s, cp)
    ensures at in OnConnect(s, ch, cp).contexts <==> at in s.contexts && !TakesFrom(s, ch, Connect(cp), at)
  {
    InvNumbered(s, cp);
    AcceptableIsAccepted(s, ch, cp);
    AcceptedChannels(Numbered(s, cp), ch, IdFor(s, cp), cp);
  }

  lemma RefusedChannels(s: State, ch: ChannelId, cp: ConnectPacket)
    requires ch in s.contexts && (s.contexts[ch].connected || !Acceptable(s, cp))
    ensures OnConnect(s, ch, cp).contexts.Keys == s.contexts.Keys - {ch}
  {
    if s.contexts[ch].connected || cp.protocol != MQTT {
      CloseKeeps(s, ch, ch);
    } else {
      CloseKeeps(SendTo(s, ch, O.Connack(false, Refusal(s, cp).value)), ch, ch);
    }
  }

  lemma GivenUpChannels(s: State, ch: ChannelId, order: seq<nat>, tick: nat)
    requires ch in s.contexts && Allowed(s, s.contexts[ch], Retry(order, tick)) && OutOfRetries(s.contexts[ch].out)
    ensures OnRetry(s, ch, order, tick).contexts.Keys == s.contexts.Keys - {ch}
  {
    var ctx := s.contexts[ch];
    CheckEndsIff(s, ch, order, tick);
    CloseKeeps(SetContext(s, ch, ctx.(out := O.Retry(ctx.out, order, ctx.connected, tick, s.clock).0)), ch, ch);
  }

  /** An input that ends its own channel ends no other one. */
  lemma EndChannels(s: State, ch: ChannelId, input: Input)
    requires ch in s.contexts && Allowed(s, s.contexts[ch], input) && Ends(s, ch, input)
    ensures Handle(s, ch, input).contexts.Keys == s.contexts.Keys - {ch}
  {
    match input
    case Connect(cp) => RefusedChannels(s, ch, cp);
    case Retry(order, tick) => GivenUpChannels(s, ch, order, tick);
    case _ => CloseKeeps(s, ch, ch);
  }

  // ----- What an input does to its own context -----

  /** Beside what is sent and held, an input changes its own context in these ways only. */
  ghost predicate Moves(ctx: Context, ctx': Context, input: Input) {
    match input
    case Connect(cp) =>
      && ctx'.connected && !ctx'.cleanDisconnect && !ctx'.takenOver && ctx'.will == cp.will
      && ctx'.clientId != [] && (cp.clientId != [] ==> ctx'.clientId == cp.clientId)
      && ctx'.awaitingPuback == ctx.awaitingPuback
    case Publish(pub) =>
      && SameIdentity(ctx, ctx')
      && ctx'.awaitingPuback.Keys == ctx.awaitingPuback.Keys + if pub.qos == 1 then {pub.packetId} else {}
    case Ack(kind, pid) =>
      && SameIdentity(ctx, ctx')
      && ctx'.awaitingPuback.Keys == ctx.awaitingPuback.Keys - if kind == PubackAck then {pid} else {}
    case Disconnect =>
      && !ctx'.connected && ctx'.clientId == ctx.clientId && ctx'.will == ctx.will
      && ctx'.awaitingPuback == ctx.awaitingPuback
    case _ => SameIdentity(ctx, ctx') && ctx'.awaitingPuback == ctx.awaitingPuback
  }

  lemma ConnectMoves(s: State, ch: ChannelId, cp: ConnectPacket)
    requires ch in s.contexts && !s.contexts[ch].connected && Acceptable(s, cp)
    ensures ch in OnConnect(s, ch, cp).contexts && Moves(s.contexts[ch], OnConnect(s, ch, cp).contexts[ch], Connect(cp))
  {
    var s1, c := Numbered(s, cp), IdFor(s, cp);
    AcceptableIsAccepted(s, ch, cp);
    if c in s.byId && s.byId[c] != ch && s.byId[c] in s.contexts {
      var prior := s.byId[c];
      var marked := s.contexts[prior].(takenOver := true, session := None);
      CloseKeeps(s1.(contexts := s.contexts[prior := marked]), prior, ch);
    }
  }

  /** The channels are the same, and the input has changed its own context in those ways only. */
  ghost predicate Stays(s: State, s': State, ch: ChannelId, input: Input)
    requires ch in s.contexts
  {
    s'.contexts.Keys == s.contexts.Keys && Moves(s.contexts[ch], s'.contexts[ch], input)
  }

  lemma PublishStays(s: State, ch: ChannelId, pub: PublishPacket)
    requires ch in s.contexts && s.contexts[ch].connected && T.ValidName(pub.topic)
    ensures Stays(s, OnPublish(s, ch, pub), ch, Publish(pub))
  {
    PublishChannels(s, ch, pub);
  }

  lemma AckStays(s: State, ch: ChannelId, kind: AckKind, pid: nat)
    requires ch in s.contexts && s.contexts[ch].connected
    ensures Stays(s, OnAck(s, ch, kind, pid), ch, Ack(kind, pid))
  {
    AckChannels(s, ch, kind, pid);
  }

  lemma SubscriptionsStay(s: State, ch: ChannelId, input: Input)
    requires Inv(s) && ch in s.contexts && (input.Subscribe? || input.Unsubscribe?) && !Ends(s, ch, input)
    ensures Stays(s, Handle(s, ch, input), ch, input)
  {
    match input
    case Subscribe(pid, wanted) => SubscribedChannels(s, ch, pid, wanted);
    case Unsubscribe(pid, filters) => UnsubscribedChannels(s, ch, pid, filters);
  }

  lemma QuietStays(s: State, ch: ChannelId, input: Input)
    requires ch in s.contexts && (input.Ping? || input.Disconnect?) && !Ends(s, ch, input)
    ensures Stays(s, Handle(s, ch, input), ch, input)
  {
  }

  lemma InputStays(s: State, ch: ChannelId, input: Input)
    requires Inv(s) && ch in s.contexts && Allowed(s, s.contexts[ch], input) && !Ends(s, ch, input) && !input.Connect?
    ensures Stays(s, Handle(s, ch, input), ch, input)
  {
    if input.Publish? {
      PublishStays(s, ch, input.pub);
    } else if input.Ack? {
      AckStays(s, ch, input.kind, input.packetId);
    } else if input.Retry? {
      CheckChannels(s, ch, input.order, input.tick);
    } else if input.Ping? || input.Disconnect? {
      QuietStays(s, ch, input);
    } else {
      SubscriptionsStay(s, ch, input);
    }
  }

  lemma OwnMoves(s: State, ch: ChannelId, input: Input)
    requires Inv(s) && ch in s.contexts && Allowed(s, s.contexts[ch], input) && !Ends(s, ch, input)
    ensures ch in Handle(s, ch, input).contexts && Moves(s.contexts[ch], Handle(s, ch, input).contexts[ch], input)
  {
    if input.Connect? { ConnectMoves(s, ch, input.cp); } else { InputStays(s, ch, input); }
  }

  // ----- Which channels an event ends -----

  /** The event is the end of the channel: its own, or by a takeover. */
  ghost predicate EndOf(s: State, e: Event, at: ChannelId)
    requires at in s.contexts
  {
    e.On? && e.ch in s.contexts && if e.ch == at then Ends(s, at, e.input) else TakesFrom(s, e.ch, e.input, at)
  }

  lemma StepChannels(s: State, e: Event, at: ChannelId)
    requires Inv(s) && Admissible(s, e) && at in s.contexts
    ensures at in Step(s, e).contexts <==> !EndOf(s, e, at)
  {
    if e.On? && e.ch in s.contexts {
      if Ends(s, e.ch, e.input) {
        EndChannels(s, e.ch, e.input);
      } else if e.input.Connect? {
        ConnectChannels(s, e.ch, e.input.cp, at);
      } else {
        InputStays(s, e.ch, e.input);
      }
    }
  }

  /** In every run an event ends exactly the channels it is the end of. */
  lemma ChannelsEndIff(maxConnections: nat, events: seq<Event>, states: seq<State>, n: nat, at: ChannelId)
    requires IsRun(maxConnections, events, states) && n < |events| && at in states[n].contexts
    ensures at in states[n + 1].contexts <==> !EndOf(states[n], events[n], at)
  {
    InvReachable(maxConnections, events, states, n);
    StepChannels(states[n], events[n], at);
  }


  /** A context that stays is changed by its own inputs only, apart from what is sent. */
  lemma ContextStep(s: State, e: Event, ch: ChannelId)
    requires Inv(s) && Admissible(s, e) && ch in s.contexts && ch in Step(s, e).contexts
    ensures
      var ctx, ctx' := s.contexts[ch], Step(s, e).contexts[ch];
      if e.On? && e.ch == ch then !Ends(s, ch, e.input) && Moves(ctx, ctx', e.input)
      else ctx' == ctx.(out := ctx'.out)
  {
    if e.On? && e.ch == ch {
      StepChannels(s, e, ch);
      OwnMoves(s, ch, e.input);
    } else if e.On? && e.ch in s.contexts {
      OthersKeptByHandle(s, e.ch, e.input);
    } else {
      RegisteredBelow(s, ch);
    }
  }

  // ----- What a context knows of the past -----

  /** The event is a CONNECT of the channel, and it is accepted. */
  ghost predicate ConnectsAt(events: seq<Event>, states: seq<State>, ch: ChannelId, i: nat)
    requires i < |events| < |states|
  {
    && events[i].On? && events[i].ch == ch && events[i].input.Connect?
    && ch in states[i].contexts && !Ends(states[i], ch, events[i].input)
  }

  ghost predicate NoDisconnect(events: seq<Event>, ch: ChannelId, i: nat, n: nat)
    requires n <= |events|
  {
    forall k :: i < k < n ==> events[k] != On(ch, Disconnect)
  }

  /** The context is what its CONNECT made it, and connected unless there was a DISCONNECT since. */
  ghost predicate Remembers(events: seq<Event>, ctx: Context, ch: ChannelId, i: nat, n: nat)
    requires i < n <= |events| && events[i].On? && events[i].input.Connect?
  {
    var cp := events[i].input.cp;
    && ctx.clientId != [] && (cp.clientId != [] ==> ctx.clientId == cp.clientId) && ctx.will == cp.will
    && (ctx.connected <==> NoDisconnect(events, ch, i, n))
  }

  /** A context without a client had no CONNECT yet, and any other exactly one, which it remembers. */
  ghost predicate Tells(events: seq<Event>, states: seq<State>, ch: ChannelId, n: nat)
    requires n <= |events| < |states| && ch in states[n].contexts
  {
    var ctx := states[n].contexts[ch];
    && (ctx.clientId == [] ==> !ctx.connected && forall i: nat :: i < n ==> !ConnectsAt(events, states, ch, i))
    && (ctx.clientId != [] ==> exists i: nat :: i < n && ConnectsAt(events, states, ch, i))
    && (forall i: nat :: i < n && ConnectsAt(events, states, ch, i) ==> Remembers(events, ctx, ch, i, n))
    && (ctx.connected ==> !ctx.cleanDisconnect && !ctx.takenOver)
  }

  /** Nothing an event of another channel does is seen in the context, apart from what is sent. */
  lemma TellsElsewhere(events: seq<Event>, states: seq<State>, ch: ChannelId, n: nat)
    requires n < |events| < |states| && ch in states[n].contexts && ch in states[n + 1].contexts
    requires Tells(events, states, ch, n) && !(events[n].On? && events[n].ch == ch)
    requires states[n + 1].contexts[ch] == states[n].contexts[ch].(out := states[n + 1].contexts[ch].out)
    ensures Tells(events, states, ch, n + 1)
  {
    forall i: nat | i < n + 1 && ConnectsAt(events, states, ch, i)
      ensures i < n && Remembers(events, states[n + 1].contexts[ch], ch, i, n + 1)
    {
      assert Remembers(events, states[n].contexts[ch], ch, i, n);
    }
    if states[n + 1].contexts[ch].clientId != [] {
      var i: nat :| i < n && ConnectsAt(events, states, ch, i);
    }
  }

  lemma TellsConnect(events: seq<Event>, states: seq<State>, ch: ChannelId, n: nat)
    requires n < |events| < |states| && ch in states[n].contexts && ch in states[n + 1].contexts
    requires Tells(events, states, ch, n) && ConnectsAt(events, states, ch, n)
    requires states[n].contexts[ch].clientId == []
    requires Moves(states[n].contexts[ch], states[n + 1].contexts[ch], events[n].input)
    ensures Tells(events, states, ch, n + 1)
  {
    forall i: nat | i < n + 1 && ConnectsAt(events, states, ch, i)
      ensures Remembers(events, states[n + 1].contexts[ch], ch, i, n + 1)
    {
      assert i == n;
    }
  }

  lemma TellsInput(events: seq<Event>, states: seq<State>, ch: ChannelId, n: nat)
    requires n < |events| < |states| && ch in states[n].contexts && ch in states[n + 1].contexts
    requires Tells(events, states, ch, n) && events[n].On? && events[n].ch == ch && !events[n].input.Connect?
    requires Moves(states[n].contexts[ch], states[n + 1].contexts[ch], events[n].input)
    ensures Tells(events, states, ch, n + 1)
  {
    forall i: nat | i < n + 1 && ConnectsAt(events, states, ch, i)
      ensures i < n && Remembers(events, states[n + 1].contexts[ch], ch, i, n + 1)
    {
      assert Remembers(events, states[n].contexts[ch], ch, i, n);
      assert NoDisconnect(events, ch, i, n + 1) <==>
             NoDisconnect(events, ch, i, n) && events[n] != On(ch, Disconnect);
    }
    if states[n + 1].contexts[ch].clientId != [] {
      var i: nat :| i < n && ConnectsAt(events, states, ch, i);
    }
  }

  lemma TellsNew(maxConnections: nat, events: seq<Event>, states: seq<State>, ch: ChannelId, n: nat)
    requires IsRun(maxConnections, events, states) && n < |events|
    requires ch !in states[n].contexts && ch in states[n + 1].contexts
    ensures Tells(events, states, ch, n + 1)
  {
    NewContexts(states[n], events[n], ch);
    forall i: nat | i < n + 1 ensures !ConnectsAt(events, states, ch, i) {
      InvReachable(maxConnections, events, states, i);
      NextChannelGrows(maxConnections, events, states, i, n);
      if ch in states[i].contexts { RegisteredBelow(states[i], ch); }
    }
  }

  lemma TellsStep(maxConnections: nat, events: seq<Event>, states: seq<State>, ch: ChannelId, n: nat)
    requires IsRun(maxConnections, events, states) && n < |events|
    requires ch in states[n].contexts && ch in states[n + 1].contexts && Tells(events, states, ch, n)
    ensures Tells(events, states, ch, n + 1)
  {
    InvReachable(maxConnections, events, states, n);
    ContextStep(states[n], events[n], ch);
    if events[n].On? && events[n].ch == ch {
      if events[n].input.Connect? { TellsConnect(events, states, ch, n); } else { TellsInput(events, states, ch, n); }
    } else {
      TellsElsewhere(events, states, ch, n);
    }
  }

  /**
   In every reachable state a context without a client has had no accepted
   CONNECT. Any other has had one, has its client id and its will, and is
   connected exactly if no DISCONNECT followed.
   */
  lemma {:induction false} ContextTells(maxConnections: nat, events: seq<Event>, states: seq<State>, ch: ChannelId,
                                        n: nat)
    requires IsRun(maxConnections, events, states) && n <= |events| && ch in states[n].contexts
    ensures Tells(events, states, ch, n)
  {
    if n > 0 {
      if ch in states[n - 1].contexts {
        ContextTells(maxConnections, events, states, ch, n - 1);
        TellsStep(maxConnections, events, states, ch, n - 1);
      } else {
        TellsNew(maxConnections, events, states, ch, n - 1);
      }
    }
  }

  // ----- Wills -----

  /** An input that ends its own channel hands the router its will, if that is due, and nothing else. */
  lemma EndRoutesWill(s: State, ch: ChannelId, input: Input)
    requires Inv(s) && ch in s.contexts && Allowed(s, s.contexts[ch], input) && Ends(s, ch, input)
    ensures RoutedBy(s, ch, input) == WillOf(s.contexts[ch])
  {
    if input.Retry? { CheckEndsIff(s, ch, input.order, input.tick); }
    if s.contexts[ch].connected { ConnectedHasSession(s, ch); }
  }

  lemma EndRetainsWill(s: State, ch: ChannelId, input: Input)
    requires Inv(s) && ch in s.contexts && Allowed(s, s.contexts[ch], input) && Ends(s, ch, input)
    ensures Handle(s, ch, input).retained == Applied(s.retained, WillOp(s.contexts[ch]))
  {
    EndChannels(s, ch, input);
    HandleRetained(s, ch, input);
  }

  /** The message is routed, and it is retained in place of the one of its topic if so asked. */
  ghost predicate Published(s: State, s': State, routed: Option<Message>, m: Message, retain: bool) {
    && routed == Some(m)
    && (if retain then forall r :: r in s'.retained <==> r == m || (r in s.retained && r.topic != m.topic)
        else s'.retained == s.retained)
  }

  ghost predicate NothingPublished(s: State, s': State, routed: Option<Message>) {
    routed == None && s'.retained == s.retained
  }

  lemma WillStep(s: State, e: Event, ch: ChannelId)
    requires Inv(s) && Admissible(s, e) && e.On? && e.ch == ch && ch in s.contexts && Ends(s, ch, e.input)
    ensures
      var ctx, w := s.contexts[ch], s.contexts[ch].will;
      if ctx.connected && !ctx.cleanDisconnect && !ctx.takenOver && w.valid then
        Published(s, Step(s, e), Routed(s, e), Message(w.topic, w.payload, w.qos, w.retain, ctx.clientId), w.retain)
      else NothingPublished(s, Step(s, e), Routed(s, e))
  {
    EndRoutesWill(s, ch, e.input);
    EndRetainsWill(s, ch, e.input);
    R.StoredMembers(s.retained, WillMessage(s.contexts[ch]));
  }

  /**
   A channel that ends by an event of its own, in every run: its will is published
   exactly if its CONNECT announced one and no DISCONNECT followed. It is then the
   will of that CONNECT, under the client's id, and retained if that was asked for.
   */
  lemma WillOutcome(maxConnections: nat, events: seq<Event>, states: seq<State>, n: nat, ch: ChannelId)
    requires IsRun(maxConnections, events, states) && n < |events|
    requires events[n].On? && events[n].ch == ch && ch in states[n].contexts && ch !in states[n + 1].contexts
    ensures
      var s, s', routed := states[n], states[n + 1], Routed(states[n], events[n]);
      var ctx := s.contexts[ch];
      && (forall i: nat :: i < n && ConnectsAt(events, states, ch, i) ==>
            var w := events[i].input.cp.will;
            && (ctx.connected && !ctx.cleanDisconnect && !ctx.takenOver <==> NoDisconnect(events, ch, i, n))
            && (if NoDisconnect(events, ch, i, n) && w.valid then
                  Published(s, s', routed, Message(w.topic, w.payload, w.qos, w.retain, ctx.clientId), w.retain)
                else NothingPublished(s, s', routed)))
      && ((forall i: nat :: i < n ==> !ConnectsAt(events, states, ch, i)) ==> NothingPublished(s, s', routed))
  {
    InvReachable(maxConnections, events, states, n);
    ContextTells(maxConnections, events, states, ch, n);
    StepChannels(states[n], events[n], ch);
    WillStep(states[n], events[n], ch);
  }

  /** A channel that another one's CONNECT takes over ends without a will, in every run. */
  lemma TakeOverOutcome(maxConnections: nat, events: seq<Event>, states: seq<State>, n: nat, ch: ChannelId)
    requires IsRun(maxConnections, events, states) && n < |events|
    requires ch in states[n].contexts && ch !in states[n + 1].contexts && !(events[n].On? && events[n].ch == ch)
    ensures events[n].On? && events[n].input.Connect? && ConnectsAt(events, states, events[n].ch, n)
    ensures NothingPublished(states[n], states[n + 1], Routed(states[n], events[n]))
  {
    InvReachable(maxConnections, events, states, n);
    StepChannels(states[n], events[n], ch);
    ConnectMoves(states[n], events[n].ch, events[n].input.cp);
    HandleRetained(states[n], events[n].ch, events[n].input);
  }

  /** Beside PUBLISH, PUBREL and the end of a channel nothing hands a message to the router, in every run. */
  lemma NothingElseRoutes(maxConnections: nat, events: seq<Event>, states: seq<State>, n: nat)
    requires IsRun(maxConnections, events, states) && n < |events|
    requires events[n].On? && events[n].ch in states[n].contexts ==>
               && !Ends(states[n], events[n].ch, events[n].input)
               && !events[n].input.Publish? && !(events[n].input.Ack? && events[n].input.kind == PubrelAck)
    ensures Routed(states[n], events[n]) == None
  {
    var s, e := states[n], events[n];
    InvReachable(maxConnections, events, states, n);
    if e.On? && e.ch in s.contexts {
      if s.contexts[e.ch].connected { ConnectedHasSession(s, e.ch); }
      if e.input.Retry? { CheckEndsIff(s, e.ch, e.input.order, e.input.tick); }
    }
  }
}
