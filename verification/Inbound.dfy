/**
 What a run routes, and the publisher side of QoS 2: over any run, the first
 PUBLISH of an identifier is routed exactly once, by the next PUBREL for it.
 */
module Inbound {
  import opened Bytes
  import opened Model
  import opened Broker
  import opened Invariant
  import opened Routing
  import T = Topic
  import O = Outbound
  import R = RetainStore

  // ----- One event changes the inbound state of at most one connection -----

  /** Contexts other than `actor`'s may have been sent something, and nothing else. */
  ghost predicate OthersKept(s: State, s': State, actor: ChannelId) {
    forall ch :: ch in s'.contexts && ch != actor ==>
      ch in s.contexts && s'.contexts[ch] == s.contexts[ch].(out := s'.contexts[ch].out)
  }

  lemma RouteKeeps(s: State, msg: Message, actor: ChannelId)
    ensures OthersKept(s, Route(s, msg), actor)
    ensures actor in s.contexts ==>
              Route(s, msg).contexts[actor] == s.contexts[actor].(out := Route(s, msg).contexts[actor].out)
  {
  }

  /** Routing does not look at the retained messages. */
  lemma RouteRetained(s: State, msg: Message, retained: seq<Message>)
    ensures Route(s.(retained := retained), msg) == Route(s, msg).(retained := retained)
  {
  }

  lemma RemoveChannelContexts(s: State, ch: ChannelId)
    requires ch in s.contexts
    ensures RemoveChannel(s, ch).contexts == s.contexts - {ch}
  {
  }

  /** Closing a channel removes its context; the others see at most the will. */
  lemma CloseContexts(s: State, ch: ChannelId)
    requires ch in s.contexts
    ensures CloseChannel(s, ch).contexts ==
            (if PublishesWill(s.contexts[ch]) then Route(s, WillMessage(s.contexts[ch])).contexts
             else s.contexts) - {ch}
  {
    var ctx := s.contexts[ch];
    if PublishesWill(ctx) {
      var msg := WillMessage(ctx);
      RouteRetained(s, msg, R.Stored(s.retained, msg));
      RemoveChannelContexts(PublishWill(s, ctx), ch);
    } else {
      RemoveChannelContexts(s, ch);
    }
  }

  lemma CloseKeeps(s: State, ch: ChannelId, actor: ChannelId)
    requires ch in s.contexts
    ensures OthersKept(s, CloseChannel(s, ch), actor)
    ensures CloseChannel(s, ch).contexts.Keys == s.contexts.Keys - {ch}
    ensures actor != ch && actor in s.contexts ==>
              CloseChannel(s, ch).contexts[actor] == s.contexts[actor].(out := CloseChannel(s, ch).contexts[actor].out)
  {
    CloseContexts(s, ch);
    if PublishesWill(s.contexts[ch]) { RouteKeeps(s, WillMessage(s.contexts[ch]), actor); }
  }

  lemma {:induction false} SubscribeKeeps(s: State, ch: ChannelId, x: Session, wanted: seq<Subscription>)
    requires ch in s.contexts && x in s.subs
    ensures
      var s' := SubscribeAll(s, ch, x, wanted);
      OthersKept(s, s', ch) && s'.contexts[ch] == s.contexts[ch].(out := s'.contexts[ch].out)
    decreases |wanted|
  {
    if wanted != [] {
      SubscribeKeeps(SubscribeOne(s, ch, x, wanted[0]), ch, x, wanted[1..]);
    }
  }

  lemma AcceptedKeeps(s: State, ch: ChannelId, c: Text, cp: ConnectPacket)
    requires ch in s.contexts
    ensures OthersKept(s, Accepted(s, ch, c, cp), ch)
    ensures ch in Accepted(s, ch, c, cp).contexts
    ensures Accepted(s, ch, c, cp).contexts[ch].awaitingPubrel == s.contexts[ch].awaitingPubrel
  {
    var s1 := TakeOver(s, c, ch);
    if c in s.byId && s.byId[c] != ch && s.byId[c] in s.contexts {
      var prior := s.byId[c];
      var marked := s.(contexts := s.contexts[prior := s.contexts[prior].(takenOver := true, session := None)]);
      CloseKeeps(marked, prior, ch);
    }
  }

  /** The actor's own context keeps its held messages, if it survives. */
  ghost predicate HeldKept(s: State, s': State, ch: ChannelId)
    requires ch in s.contexts
  {
    ch in s'.contexts ==> s'.contexts[ch].awaitingPubrel == s.contexts[ch].awaitingPubrel
  }

  lemma RefusedKeeps(s: State, ch: ChannelId, packet: O.Packet)
    requires ch in s.contexts
    ensures
      var s' := CloseChannel(SendTo(s, ch, packet), ch);
      OthersKept(s, s', ch) && ch !in s'.contexts
  {
    CloseKeeps(SendTo(s, ch, packet), ch, ch);
  }

  lemma AnsweredKeeps(s: State, ch: ChannelId, cp: ConnectPacket)
    requires ch in s.contexts
    ensures OthersKept(s, Answered(s, ch, cp), ch) && HeldKept(s, Answered(s, ch, cp), ch)
  {
    match Refusal(s, cp)
    case Some(code) => RefusedKeeps(s, ch, O.Connack(false, code));
    case None => AcceptedKeeps(Numbered(s, cp), ch, IdFor(s, cp), cp);
  }

  lemma ConnectKeeps(s: State, ch: ChannelId, cp: ConnectPacket)
    requires ch in s.contexts
    ensures OthersKept(s, OnConnect(s, ch, cp), ch) && HeldKept(s, OnConnect(s, ch, cp), ch)
  {
    if s.contexts[ch].connected || cp.protocol != MQTT {
      CloseKeeps(s, ch, ch);
    } else {
      AnsweredKeeps(s, ch, cp);
    }
  }

  lemma PublishNewKeeps(s: State, ch: ChannelId, pub: PublishPacket)
    requires ch in s.contexts
    ensures OthersKept(s, PublishNew(s, ch, pub), ch)
    ensures PublishNew(s, ch, pub).contexts[ch].awaitingPubrel == Remember(s.contexts[ch], pub).awaitingPubrel
  {
    var msg := PublishedMessage(s.contexts[ch], pub);
    var s1 := SetContext(s, ch, Remember(s.contexts[ch], pub));
    RouteRetained(s1, msg, R.Stored(s1.retained, msg));
    RouteKeeps(s1, msg, ch);
  }

  lemma RouteKeepsClient(s: State, msg: Message, ch: ChannelId)
    requires ch in s.contexts
    ensures Route(s, msg).contexts[ch].clientId == s.contexts[ch].clientId
  {
  }

  lemma PublishNewKeepsClient(s: State, ch: ChannelId, pub: PublishPacket)
    requires ch in s.contexts
    ensures PublishNew(s, ch, pub).contexts[ch].clientId == s.contexts[ch].clientId
  {
    var msg := PublishedMessage(s.contexts[ch], pub);
    var s1 := SetContext(s, ch, Remember(s.contexts[ch], pub));
    if !(pub.retain && pub.payload == []) && pub.qos != EXACTLY_ONCE {
      RouteKeepsClient(if pub.retain then s1.(retained := R.Stored(s1.retained, msg)) else s1, msg, ch);
    }
  }

  lemma SendKeeps(s: State, s1: State, ch: ChannelId, packet: O.Packet)
    requires ch in s1.contexts && OthersKept(s, s1, ch)
    ensures OthersKept(s, SendTo(s1, ch, packet), ch) && ch in SendTo(s1, ch, packet).contexts
    ensures SendTo(s1, ch, packet).contexts[ch].awaitingPubrel == s1.contexts[ch].awaitingPubrel
  {
  }

  lemma AcknowledgeKeeps(s: State, s1: State, ch: ChannelId, qos: Qos, pid: nat)
    requires ch in s1.contexts && OthersKept(s, s1, ch)
    ensures OthersKept(s, Acknowledge(s1, ch, qos, pid), ch) && ch in Acknowledge(s1, ch, qos, pid).contexts
    ensures Acknowledge(s1, ch, qos, pid).contexts[ch].awaitingPubrel == s1.contexts[ch].awaitingPubrel
  {
    if qos != AT_MOST_ONCE { SendKeeps(s, s1, ch, AckFor(qos, pid)); }
  }

  lemma PublishKeeps(s: State, ch: ChannelId, pub: PublishPacket)
    requires ch in s.contexts
    ensures OthersKept(s, OnPublish(s, ch, pub), ch)
    ensures
      var ctx := s.contexts[ch];
      var s' := OnPublish(s, ch, pub);
      if !ctx.connected || !T.ValidName(pub.topic) then ch !in s'.contexts
      else
        && ch in s'.contexts
        && s'.contexts[ch].awaitingPubrel ==
             if AlreadyReceived(ctx, pub) then ctx.awaitingPubrel else Remember(ctx, pub).awaitingPubrel
  {
    var s' := OnPublish(s, ch, pub);
    if !s.contexts[ch].connected || !T.ValidName(pub.topic) {
      assert s' == CloseChannel(s, ch);
      CloseKeeps(s, ch, ch);
    } else if AlreadyReceived(s.contexts[ch], pub) {
      assert s' == Acknowledge(s, ch, pub.qos, pub.packetId);
      AcknowledgeKeeps(s, s, ch, pub.qos, pub.packetId);
    } else {
      PublishNewKeeps(s, ch, pub);
      assert s' == Acknowledge(PublishNew(s, ch, pub), ch, pub.qos, pub.packetId);
      AcknowledgeKeeps(s, PublishNew(s, ch, pub), ch, pub.qos, pub.packetId);
    }
  }

  lemma ReleaseKeeps(s: State, ch: ChannelId, pid: nat)
    requires ch in s.contexts
    ensures OthersKept(s, ReleaseHeld(s, ch, pid), ch)
    ensures ReleaseHeld(s, ch, pid).contexts[ch].awaitingPubrel == s.contexts[ch].awaitingPubrel - {pid}
  {
    if pid in s.contexts[ch].awaitingPubrel {
      RouteKeeps(s, s.contexts[ch].awaitingPubrel[pid], ch);
    } else {
      assert s.contexts[ch].awaitingPubrel - {pid} == s.contexts[ch].awaitingPubrel;
    }
  }

  lemma AckKeeps(s: State, ch: ChannelId, kind: AckKind, pid: nat)
    requires ch in s.contexts
    ensures OthersKept(s, OnAck(s, ch, kind, pid), ch)
    ensures
      var s' := OnAck(s, ch, kind, pid);
      if !s.contexts[ch].connected then ch !in s'.contexts
      else
        && ch in s'.contexts
        && s'.contexts[ch].awaitingPubrel ==
             if kind == PubrelAck then s.contexts[ch].awaitingPubrel - {pid} else s.contexts[ch].awaitingPubrel
  {
    if !s.contexts[ch].connected {
      CloseKeeps(s, ch, ch);
    } else {
      ReleaseKeeps(s, ch, pid);
    }
  }

  lemma SubscriptionsKeep(s: State, ch: ChannelId, pid: nat, wanted: seq<Subscription>, filters: seq<Text>)
    requires ch in s.contexts
    ensures OthersKept(s, OnSubscribe(s, ch, pid, wanted), ch) && HeldKept(s, OnSubscribe(s, ch, pid, wanted), ch)
    ensures OthersKept(s, OnUnsubscribe(s, ch, pid, filters), ch) && HeldKept(s, OnUnsubscribe(s, ch, pid, filters), ch)
  {
    CloseKeeps(s, ch, ch);
    if SessionOf(s, ch).Some? {
      SubscribeKeeps(s, ch, SessionOf(s, ch).value, wanted);
    }
  }

  lemma RetryKeeps(s: State, ch: ChannelId, order: seq<nat>, tick: nat)
    requires ch in s.contexts
    ensures OthersKept(s, OnRetry(s, ch, order, tick), ch) && HeldKept(s, OnRetry(s, ch, order, tick), ch)
  {
    var ctx := s.contexts[ch];
    var r := O.Retry(ctx.out, order, ctx.connected, tick, s.clock);
    CloseKeeps(SetContext(s, ch, ctx.(out := r.0)), ch, ch);
  }

  // ----- Which messages an event holds and routes -----

  /** A QoS 2 PUBLISH with identifier `pid` that the broker processes. */
  predicate Receives(s: State, e: Event, ch: ChannelId, pid: nat) {
    && e.On? && e.ch == ch && e.input.Publish? && ch in s.contexts && s.contexts[ch].connected
    && e.input.pub.qos == EXACTLY_ONCE && e.input.pub.packetId == pid && T.ValidName(e.input.pub.topic)
  }

  /** A PUBREL for `pid` that the broker processes. */
  predicate Releases(s: State, e: Event, ch: ChannelId, pid: nat) {
    e.On? && e.ch == ch && e.input == Ack(PubrelAck, pid) && ch in s.contexts && s.contexts[ch].connected
  }

  /** An event on one channel leaves the others as they are, apart from what they are sent. */
  lemma OthersKeptByHandle(s: State, ch: ChannelId, input: Input)
    requires ch in s.contexts
    ensures OthersKept(s, Handle(s, ch, input), ch)
  {
    match input
    case Connect(cp) => ConnectKeeps(s, ch, cp);
    case Publish(pub) => PublishKeeps(s, ch, pub);
    case Subscribe(p, wanted) => SubscriptionsKeep(s, ch, p, wanted, []);
    case Unsubscribe(p, filters) => SubscriptionsKeep(s, ch, p, [], filters);
    case Ack(kind, p) => AckKeeps(s, ch, kind, p);
    case Ping => CloseKeeps(s, ch, ch);
    case Disconnect =>
    case Close => CloseKeeps(s, ch, ch);
    case Retry(order, tick) => RetryKeeps(s, ch, order, tick);
  }

  /** Of its own held messages a channel's event changes only those of a QoS 2 PUBLISH or a PUBREL. */
  lemma HeldKeptByHandle(s: State, ch: ChannelId, input: Input)
    requires ch in s.contexts
    requires !(input.Publish? && input.pub.qos == EXACTLY_ONCE) && !(input.Ack? && input.kind == PubrelAck)
    ensures HeldKept(s, Handle(s, ch, input), ch)
  {
    match input
    case Connect(cp) => ConnectKeeps(s, ch, cp);
    case Publish(pub) => PublishKeeps(s, ch, pub);
    case Subscribe(p, wanted) => SubscriptionsKeep(s, ch, p, wanted, []);
    case Unsubscribe(p, filters) => SubscriptionsKeep(s, ch, p, [], filters);
    case Ack(kind, p) => AckKeeps(s, ch, kind, p);
    case Ping => CloseKeeps(s, ch, ch);
    case Disconnect =>
    case Close => CloseKeeps(s, ch, ch);
    case Retry(order, tick) => RetryKeeps(s, ch, order, tick);
  }

  ghost function Held(s: State, ch: ChannelId, pid: nat): Option<Message>
    requires ch in s.contexts
  {
    if pid in s.contexts[ch].awaitingPubrel then Some(s.contexts[ch].awaitingPubrel[pid]) else None
  }

  /** What is held under `pid` on a channel changes only by its PUBLISH and its PUBREL. */
  lemma HeldStep(s: State, e: Event, ch: ChannelId, pid: nat)
    requires ch in s.contexts && ch in Step(s, e).contexts && ch < s.nextChannel
    ensures Held(Step(s, e), ch, pid) ==
            if Releases(s, e, ch, pid) then None
            else if Receives(s, e, ch, pid) && Held(s, ch, pid).None? then
              Some(PublishedMessage(s.contexts[ch], e.input.pub))
            else Held(s, ch, pid)
  {
    if e.On? && e.ch in s.contexts {
      if e.ch != ch {
        OthersKeptByHandle(s, e.ch, e.input);
      } else if e.input.Publish? && e.input.pub.qos == EXACTLY_ONCE {
        PublishKeeps(s, ch, e.input.pub);
      } else if e.input.Ack? && e.input.kind == PubrelAck {
        AckKeeps(s, ch, PubrelAck, e.input.packetId);
      } else {
        HeldKeptByHandle(s, ch, e.input);
      }
    }
  }

  // ----- Channels are never registered twice -----

  /** A context appears only by an accept, under a number not used before. */
  lemma NewContexts(s: State, e: Event, ch: ChannelId)
    ensures Step(s, e).nextChannel >= s.nextChannel
    ensures ch in Step(s, e).contexts && ch !in s.contexts ==>
              ch == s.nextChannel && Step(s, e).contexts[ch] == FRESH
  {
    if e.On? && e.ch in s.contexts {
      OthersKeptByHandle(s, e.ch, e.input);
    }
  }

  lemma {:induction false} NextChannelGrows(maxConnections: nat, events: seq<Event>, states: seq<State>, i: nat, j: nat)
    requires IsRun(maxConnections, events, states) && i <= j <= |events|
    ensures states[i].nextChannel <= states[j].nextChannel
  {
    if i < j {
      NextChannelGrows(maxConnections, events, states, i, j - 1);
      NewContexts(states[j - 1], events[j - 1], 0);
    }
  }

  // ----- Exactly once -----

  /** The PUBLISH that waits for its PUBREL after `n` events: the first one since the last PUBREL. */
  ghost function Waiting(events: seq<Event>, states: seq<State>, ch: ChannelId, pid: nat, n: nat): Option<nat>
    requires n <= |events| < |states|
  {
    if n == 0 then None
    else if Releases(states[n - 1], events[n - 1], ch, pid) then None
    else
      var before := Waiting(events, states, ch, pid, n - 1);
      if before.None? && Receives(states[n - 1], events[n - 1], ch, pid) then Some(n - 1) else before
  }

  /** The same without recursion: received at `i`, not released since, nothing unreleased received before it. */
  ghost predicate FirstUnreleased(events: seq<Event>, states: seq<State>, ch: ChannelId, pid: nat, n: nat, i: nat)
    requires n <= |events| < |states|
  {
    && i < n && Receives(states[i], events[i], ch, pid)
    && (forall k :: i < k < n ==> !Releases(states[k], events[k], ch, pid))
    && (forall k :: 0 <= k < i && Receives(states[k], events[k], ch, pid) ==>
          exists r :: k < r < i && Releases(states[r], events[r], ch, pid))
  }

  lemma {:induction false} WaitingIsFirst(events: seq<Event>, states: seq<State>, ch: ChannelId, pid: nat, n: nat)
    requires n <= |events| < |states|
    ensures forall i: nat :: Waiting(events, states, ch, pid, n) == Some(i) <==>
                             FirstUnreleased(events, states, ch, pid, n, i)
    ensures Waiting(events, states, ch, pid, n).None? ==>
              forall k :: 0 <= k < n && Receives(states[k], events[k], ch, pid) ==>
                exists r :: k < r < n && Releases(states[r], events[r], ch, pid)
  {
    if n > 0 {
      WaitingIsFirst(events, states, ch, pid, n - 1);
      var m := n - 1;
      if Releases(states[m], events[m], ch, pid) {
        forall k | 0 <= k < n && Receives(states[k], events[k], ch, pid)
          ensures exists r :: k < r < n && Releases(states[r], events[r], ch, pid)
        {
          assert k < m && Releases(states[m], events[m], ch, pid);
        }
      } else {
        forall i: nat ensures Waiting(events, states, ch, pid, n) == Some(i) <==>
                              FirstUnreleased(events, states, ch, pid, n, i)
        {
          if FirstUnreleased(events, states, ch, pid, n, i) && i < m {
            assert FirstUnreleased(events, states, ch, pid, m, i);
          }
        }
      }
    }
  }

  ghost function MessageAt(events: seq<Event>, states: seq<State>, ch: ChannelId, i: nat): Message
    requires i < |events| < |states| && exists pid :: Receives(states[i], events[i], ch, pid)
  {
    var pub := events[i].input.pub;
    Message(pub.topic, pub.payload, pub.qos, pub.retain, states[i].contexts[ch].clientId)
  }

  /** The channel holds the message that waits for its PUBREL, if one does. */
  ghost predicate HoldsWaiting(events: seq<Event>, states: seq<State>, ch: ChannelId, pid: nat, n: nat)
    requires n <= |events| < |states| && ch in states[n].contexts
  {
    match Waiting(events, states, ch, pid, n)
    case None => Held(states[n], ch, pid) == None
    case Some(i) => i < n && Receives(states[i], events[i], ch, pid)
                    && Held(states[n], ch, pid) == Some(MessageAt(events, states, ch, i))
  }

  lemma HoldsWaitingStep(events: seq<Event>, states: seq<State>, ch: ChannelId, pid: nat, n: nat)
    requires n < |events| < |states| && ch in states[n].contexts && ch in states[n + 1].contexts
    requires HoldsWaiting(events, states, ch, pid, n)
    requires Held(states[n + 1], ch, pid) ==
             if Releases(states[n], events[n], ch, pid) then None
             else if Receives(states[n], events[n], ch, pid) && Held(states[n], ch, pid).None? then
               Some(PublishedMessage(states[n].contexts[ch], events[n].input.pub))
             else Held(states[n], ch, pid)
    ensures HoldsWaiting(events, states, ch, pid, n + 1)
  {
    assert Waiting(events, states, ch, pid, n + 1) ==
           if Releases(states[n], events[n], ch, pid) then None
           else if Waiting(events, states, ch, pid, n).None? && Receives(states[n], events[n], ch, pid) then Some(n)
           else Waiting(events, states, ch, pid, n);
  }

  /** On a channel that was not registered before, nothing waits. */
  lemma NothingWaits(maxConnections: nat, events: seq<Event>, states: seq<State>, ch: ChannelId, pid: nat, n: nat)
    requires IsRun(maxConnections, events, states) && n <= |events| && ch >= states[n].nextChannel
    ensures Waiting(events, states, ch, pid, n) == None
  {
    WaitingIsFirst(events, states, ch, pid, n);
    if Waiting(events, states, ch, pid, n).Some? {
      var i := Waiting(events, states, ch, pid, n).value;
      assert FirstUnreleased(events, states, ch, pid, n, i);
      InvReachable(maxConnections, events, states, i);
      RegisteredBelow(states[i], ch);
      NextChannelGrows(maxConnections, events, states, i, n);
    }
  }

  lemma RegisteredBelow(s: State, ch: ChannelId)
    requires Inv(s) && ch in s.contexts
    ensures ch < s.nextChannel
  {
    assert ContextOk(s.contexts, s.byId, s.nextChannel, ch);
  }

  lemma NewHoldsNothing(maxConnections: nat, events: seq<Event>, states: seq<State>, ch: ChannelId, pid: nat, n: nat)
    requires IsRun(maxConnections, events, states) && n < |events|
    requires ch !in states[n].contexts && ch in states[n + 1].contexts
    ensures HoldsWaiting(events, states, ch, pid, n + 1)
  {
    NewContexts(states[n], events[n], ch);
    NothingWaits(maxConnections, events, states, ch, pid, n);
    assert Waiting(events, states, ch, pid, n + 1) == None;
  }

  /** In every state of a run a channel holds exactly the message that waits for its PUBREL. */
  lemma {:induction false} HeldIsWaiting(maxConnections: nat, events: seq<Event>, states: seq<State>,
                                         ch: ChannelId, pid: nat, n: nat)
    requires IsRun(maxConnections, events, states) && n <= |events| && ch in states[n].contexts
    ensures HoldsWaiting(events, states, ch, pid, n)
  {
    if n > 0 {
      if ch in states[n - 1].contexts {
        HeldIsWaiting(maxConnections, events, states, ch, pid, n - 1);
        InvReachable(maxConnections, events, states, n - 1);
        RegisteredBelow(states[n - 1], ch);
        HeldStep(states[n - 1], events[n - 1], ch, pid);
        HoldsWaitingStep(events, states, ch, pid, n - 1);
      } else {
        NewHoldsNothing(maxConnections, events, states, ch, pid, n - 1);
      }
    }
  }

  lemma RoutedIsHeld(s: State, e: Event, ch: ChannelId, pid: nat)
    requires Releases(s, e, ch, pid)
    ensures Routed(s, e) == Held(s, ch, pid)
  {
  }

  /**
   Exactly once, over every run: a PUBREL routes the first PUBLISH of its
   identifier received since the previous PUBREL, or nothing if there is none.
   */
  lemma PubrelRoutesTheFirst(maxConnections: nat, events: seq<Event>, states: seq<State>, ch: ChannelId, pid: nat,
                             j: nat)
    requires IsRun(maxConnections, events, states) && j < |events|
    requires Releases(states[j], events[j], ch, pid)
    ensures forall i: nat :: FirstUnreleased(events, states, ch, pid, j, i) ==>
              Routed(states[j], events[j]) == Some(MessageAt(events, states, ch, i))
    ensures (forall i: nat :: !FirstUnreleased(events, states, ch, pid, j, i)) ==> Routed(states[j], events[j]) == None
  {
    HeldIsWaiting(maxConnections, events, states, ch, pid, j);
    WaitingIsFirst(events, states, ch, pid, j);
    RoutedIsHeld(states[j], events[j], ch, pid);
  }

  lemma NothingSince(events: seq<Event>, states: seq<State>, ch: ChannelId, pid: nat, k: nat, r: nat)
    requires r < k < |events| < |states| && Releases(states[r], events[r], ch, pid)
    requires forall q :: r < q < k ==> !Receives(states[q], events[q], ch, pid)
    ensures forall i: nat :: !FirstUnreleased(events, states, ch, pid, k, i)
  {
    forall i: nat ensures !FirstUnreleased(events, states, ch, pid, k, i) {
      assert i < r || i >= r;
    }
  }

  /**
   The other half: between the PUBLISH and that PUBREL nothing on the channel
   that concerns the identifier routes anything, so the message goes out once.
   */
  lemma RepeatsRouteNothing(maxConnections: nat, events: seq<Event>, states: seq<State>, ch: ChannelId, pid: nat,
                            k: nat)
    requires IsRun(maxConnections, events, states) && k < |events|
    requires Receives(states[k], events[k], ch, pid)
             || (Releases(states[k], events[k], ch, pid)
                 && exists r :: 0 <= r < k && Releases(states[r], events[r], ch, pid)
                                && forall q :: r < q < k ==> !Receives(states[q], events[q], ch, pid))
    ensures Routed(states[k], events[k]) == None
  {
    if Releases(states[k], events[k], ch, pid) {
      var r :| 0 <= r < k && Releases(states[r], events[r], ch, pid)
               && forall q :: r < q < k ==> !Receives(states[q], events[q], ch, pid);
      NothingSince(events, states, ch, pid, k, r);
      PubrelRoutesTheFirst(maxConnections, events, states, ch, pid, k);
    }
  }
}
