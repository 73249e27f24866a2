/**
 The subscriber side of the QoS protocol over every run of the broker: whatever
 a connection is sent is only ever appended to its history, that history is in
 order, it starts with the CONNACK, and the messages in it that are neither
 repeated nor retained are the ones routed to the client, once each.
 */
module OutboundRuns {
  import opened Bytes
  import opened Model
  import opened Outbox
  import opened Broker
  import opened Invariant
  import opened Routing
  import opened Inbound
  import T = Topic
  import O = Outbound
  import R = RetainStore

  // ----- First copies -----

  /** A message as a subscriber gets it for the first time. */
  datatype Copy = Copy(topic: Text, payload: Text, source: Text, qos: Qos)

  /** The first copies in a history: its PUBLISHes with neither DUP nor RETAIN. */
  function Copies(log: seq<O.Sent>): seq<Copy> {
    if log == [] then []
    else
      var p := log[|log| - 1].packet;
      Copies(log[..|log| - 1]) +
        (if p.Publish? && !p.dup && !p.retain then [Copy(p.topic, p.payload, p.source, p.qos)] else [])
  }

  lemma CopiesAppend(log: seq<O.Sent>, e: O.Sent)
    ensures Copies(log + [e]) ==
            Copies(log) + if e.packet.Publish? && !e.packet.dup && !e.packet.retain
                          then [Copy(e.packet.topic, e.packet.payload, e.packet.source, e.packet.qos)] else []
  {
    assert (log + [e])[..|log|] == log;
  }

  // ----- Steps of one connection -----

  /** More may have been sent, of it these first copies, and an orderly history stayed one. */
  ghost predicate Evolves(o: O.Outbound, o': O.Outbound, gain: seq<Copy>, now: int) {
    && o.log <= o'.log && Copies(o'.log) == Copies(o.log) + gain
    && (O.Orderly(o, now) ==> O.Orderly(o', now))
  }

  lemma Rests(o: O.Outbound, now: int)
    ensures Evolves(o, o, [], now)
  {
  }

  lemma EvolvesOn(o: O.Outbound, o1: O.Outbound, o2: O.Outbound, gain: seq<Copy>, now: int)
    requires Evolves(o, o1, gain, now) && Evolves(o1, o2, [], now)
    ensures Evolves(o, o2, gain, now)
  {
  }

  lemma EmitEvolves(o: O.Outbound, packet: O.Packet, now: int)
    requires !packet.Publish?
    ensures Evolves(o, O.Emit(o, packet, now), [], now)
  {
    CopiesAppend(o.log, O.Sent(packet, now, 0));
    if O.Orderly(o, now) { O.OrderlyEmit(o, packet, now); }
  }

  lemma DeliverEvolves(o: O.Outbound, msg: Message, granted: Qos, retained: bool, dup: bool, now: int)
    ensures Evolves(o, O.Deliver(o, msg, granted, retained, dup, now, true),
                    if retained || dup then []
                    else [Copy(msg.topic, msg.payload, msg.source, MinQos(granted, msg.qos))], now)
  {
    var o' := O.Deliver(o, msg, granted, retained, dup, now, true);
    CopiesAppend(o.log, o'.log[|o.log|]);
    if O.Orderly(o, now) { O.OrderlyDeliver(o, msg, granted, retained, dup, now); }
  }

  lemma ForgetEvolves(o: O.Outbound, pid: nat, now: int)
    ensures Evolves(o, O.Forget(o, pid), [], now)
  {
    if O.Orderly(o, now) { O.OrderlyForget(o, pid, now); }
  }

  lemma ReleaseEvolves(o: O.Outbound, pid: nat, now: int)
    ensures Evolves(o, O.Release(o, pid, now), [], now)
  {
    if pid in o.inflight { CopiesAppend(o.log, O.Sent(O.Pubrel(pid), now, o.inflight[pid].alloc)); }
    if O.Orderly(o, now) { O.OrderlyRelease(o, pid, now); }
  }

  lemma ResendAppends(o: O.Outbound, pid: nat, now: int)
    requires pid in o.inflight
    ensures o.log <= O.Resend(o, pid, now).log && Copies(O.Resend(o, pid, now).log) == Copies(o.log)
  {
    CopiesAppend(o.log, O.Resend(o, pid, now).log[|o.log|]);
  }

  lemma {:induction false} RetryAppends(o: O.Outbound, order: seq<nat>, connected: bool, tick: int, now: int)
    ensures
      var o' := O.Retry(o, order, connected, tick, now).0;
      o.log <= o'.log && Copies(o'.log) == Copies(o.log)
    decreases |order|
  {
    if order != [] && order[0] in o.inflight && o.inflight[order[0]].retryCount < O.MAX_RETRIES
       && tick - o.inflight[order[0]].sentTime >= O.RETRY_INTERVAL && connected {
      ResendAppends(o, order[0], now);
      RetryAppends(O.Resend(o, order[0], now), order[1..], connected, tick, now);
    } else if order != [] {
      RetryAppends(o, order[1..], connected, tick, now);
    }
  }

  lemma RetryEvolves(o: O.Outbound, order: seq<nat>, connected: bool, tick: int, now: int)
    requires tick <= now
    ensures Evolves(o, O.Retry(o, order, connected, tick, now).0, [], now)
  {
    RetryAppends(o, order, connected, tick, now);
    if O.Orderly(o, now) { O.OrderlyRetry(o, order, connected, tick, now); }
  }

  lemma {:induction false} DrainEvolves(o: O.Outbound, queue: seq<OutboxMessage>, now: int)
    ensures Evolves(o, Drained(o, queue, now), [], now)
    decreases |queue|
  {
    if queue != [] {
      var o1 := O.Deliver(o, queue[0].msg, queue[0].granted, queue[0].retained, true, now, true);
      DeliverEvolves(o, queue[0].msg, queue[0].granted, queue[0].retained, true, now);
      DrainEvolves(o1, queue[1..], now);
      EvolvesOn(o, o1, Drained(o1, queue[1..], now), [], now);
    }
  }

  lemma {:induction false} RetainedEvolves(o: O.Outbound, retained: seq<Message>, sub: Subscription, now: int)
    ensures Evolves(o, WithRetained(o, retained, sub, now), [], now)
    decreases |retained|
  {
    if retained != [] {
      var o1 := if T.Matches(sub.filter, retained[0].topic)
                then O.Deliver(o, retained[0], sub.qos, true, false, now, true) else o;
      DeliverEvolves(o, retained[0], sub.qos, true, false, now);
      RetainedEvolves(o1, retained[1..], sub, now);
      EvolvesOn(o, o1, WithRetained(o1, retained[1..], sub, now), [], now);
    }
  }

  // ----- Steps of the broker, seen from one connection -----

  /** Nothing is sent before the client is known, and then an accepting CONNACK before anything else. */
  ghost predicate Greeted(ctx: Context) {
    if ctx.clientId == [] then ctx.out == O.EMPTY
    else ctx.out.log != [] && ctx.out.log[0].packet.Connack? && ctx.out.log[0].packet.returnCode == 0
  }

  /** The first copy that routing at most the given message means for a connection. */
  ghost function Reach(s: State, m: Option<Message>, at: ChannelId): seq<Copy>
    requires at in s.contexts
  {
    if m.Some? && Targets(s.contexts, s.byId, s.sessions, s.entries, m.value.topic, at) then
      [Copy(m.value.topic, m.value.payload, m.value.source,
            Effective(s.entries, s.sessions[s.contexts[at].clientId], m.value))]
    else []
  }

  /** The connection `at` is still there only if it was before; at most `m` was routed to it. */
  ghost predicate EvolvesAt(s: State, s': State, m: Option<Message>, at: ChannelId) {
    at in s'.contexts ==>
      && at in s.contexts
      && Evolves(s.contexts[at].out, s'.contexts[at].out, Reach(s, m, at), s.clock)
      && (Greeted(s.contexts[at]) ==> Greeted(s'.contexts[at]))
  }

  /** Something that routes nothing may come after. */
  lemma AndThen(s: State, s1: State, s2: State, m: Option<Message>, at: ChannelId)
    requires EvolvesAt(s, s1, m, at) && EvolvesAt(s1, s2, None, at) && s1.clock == s.clock
    ensures EvolvesAt(s, s2, m, at)
  {
    if at in s2.contexts {
      EvolvesOn(s.contexts[at].out, s1.contexts[at].out, s2.contexts[at].out, Reach(s, m, at), s.clock);
    }
  }

  /** Routing sees the connection the same way. */
  ghost predicate SameAt(s: State, s1: State, at: ChannelId) {
    && s1.byId == s.byId && s1.sessions == s.sessions && s1.entries == s.entries && s1.clock == s.clock
    && (at in s1.contexts ==>
          && at in s.contexts && s1.contexts[at].out.log == s.contexts[at].out.log
          && s1.contexts[at].clientId == s.contexts[at].clientId
          && s1.contexts[at].connected == s.contexts[at].connected)
  }

  /** Something that sends nothing may come before. */
  lemma Before(s: State, s1: State, s2: State, m: Option<Message>, at: ChannelId)
    requires SameAt(s, s1, at) && EvolvesAt(s, s1, None, at) && EvolvesAt(s1, s2, m, at)
    ensures EvolvesAt(s, s2, m, at)
  {
    if at in s2.contexts { assert Reach(s1, m, at) == Reach(s, m, at); }
  }

  lemma Unaffected(s: State, s': State, at: ChannelId)
    requires at in s'.contexts ==> at in s.contexts && s'.contexts[at].out == s.contexts[at].out
    requires at in s'.contexts ==> s'.contexts[at].clientId == s.contexts[at].clientId
    ensures EvolvesAt(s, s', None, at)
  {
    if at in s'.contexts { Rests(s.contexts[at].out, s.clock); }
  }

  lemma SeenAlike(s: State, s1: State, s2: State, at: ChannelId)
    requires EvolvesAt(s, s1, None, at) && s2.contexts == s1.contexts
    ensures EvolvesAt(s, s2, None, at)
  {
  }

  lemma SetEvolves(s: State, ch: ChannelId, ctx: Context, at: ChannelId)
    requires ch in s.contexts && Evolves(s.contexts[ch].out, ctx.out, [], s.clock)
    requires at == ch ==> ctx.clientId == s.contexts[ch].clientId
    requires at == ch && ctx.clientId == [] ==> ctx.out == s.contexts[ch].out
    ensures EvolvesAt(s, SetContext(s, ch, ctx), None, at)
  {
    if at in s.contexts { Rests(s.contexts[at].out, s.clock); }
  }

  lemma SendEvolves(s: State, ch: ChannelId, packet: O.Packet, at: ChannelId)
    requires ch in s.contexts && !packet.Publish? && (at == ch ==> s.contexts[ch].clientId != [])
    ensures EvolvesAt(s, SendTo(s, ch, packet), None, at)
  {
    EmitEvolves(s.contexts[ch].out, packet, s.clock);
    SetEvolves(s, ch, s.contexts[ch].(out := O.Emit(s.contexts[ch].out, packet, s.clock)), at);
  }

  lemma RouteEvolves(s: State, msg: Message, at: ChannelId)
    requires [] !in s.byId
    ensures EvolvesAt(s, Route(s, msg), Some(msg), at)
  {
    if at in s.contexts {
      Rests(s.contexts[at].out, s.clock);
      if Targets(s.contexts, s.byId, s.sessions, s.entries, msg.topic, at) {
        var q := Effective(s.entries, s.sessions[s.contexts[at].clientId], msg);
        DeliverEvolves(s.contexts[at].out, msg, q, false, false, s.clock);
      }
    }
  }

  lemma CloseEvolves(s: State, ch: ChannelId, at: ChannelId)
    requires ch in s.contexts && [] !in s.byId
    ensures EvolvesAt(s, CloseChannel(s, ch), WillOf(s.contexts[ch]), at)
    ensures ch !in CloseChannel(s, ch).contexts
  {
    CloseContexts(s, ch);
    if PublishesWill(s.contexts[ch]) {
      RouteEvolves(s, WillMessage(s.contexts[ch]), at);
    } else {
      Unaffected(s, CloseChannel(s, ch), at);
    }
  }

  lemma TakeOverEvolves(s: State, c: Text, ch: ChannelId, at: ChannelId)
    requires [] !in s.byId
    ensures EvolvesAt(s, TakeOver(s, c, ch), None, at)
  {
    if c in s.byId && s.byId[c] != ch && s.byId[c] in s.contexts {
      var prior := s.byId[c];
      var marked := s.(contexts := s.contexts[prior := s.contexts[prior].(takenOver := true, session := None)]);
      CloseEvolves(marked, prior, at);
    } else {
      Unaffected(s, s, at);
    }
  }

  lemma TakeOverKeepsClient(s: State, c: Text, ch: ChannelId)
    requires ch in s.contexts
    ensures TakeOver(s, c, ch).contexts[ch].clientId == s.contexts[ch].clientId
  {
    if c in s.byId && s.byId[c] != ch && s.byId[c] in s.contexts {
      var prior := s.byId[c];
      CloseContexts(s.(contexts := s.contexts[prior := s.contexts[prior].(takenOver := true, session := None)]), prior);
    }
  }

  lemma WelcomeEvolves(o: O.Outbound, queue: seq<OutboxMessage>, resumed: bool, now: int)
    ensures
      var o1 := O.Emit(o, O.Connack(resumed, 0), now);
      var o' := if resumed then Drained(o1, queue, now) else o1;
      && Evolves(o, o', [], now)
      && o'.log != [] && (o.log == [] ==> o'.log[0].packet == O.Connack(resumed, 0))
  {
    var o1 := O.Emit(o, O.Connack(resumed, 0), now);
    EmitEvolves(o, O.Connack(resumed, 0), now);
    DrainEvolves(o1, queue, now);
    EvolvesOn(o, o1, Drained(o1, queue, now), [], now);
  }

  lemma GreetingEvolves(s: State, s': State, ch: ChannelId, ctx: Context, at: ChannelId)
    requires ch in s.contexts && s'.contexts == s.contexts[ch := ctx]
    requires Evolves(s.contexts[ch].out, ctx.out, [], s.clock)
    requires s.contexts[ch].clientId == [] && (s.contexts[ch].out == O.EMPTY ==> Greeted(ctx))
    ensures EvolvesAt(s, s', None, at)
  {
    if at in s.contexts { Rests(s.contexts[at].out, s.clock); }
  }

  lemma EstablishedEvolves(s: State, ch: ChannelId, c: Text, cp: ConnectPacket, resumed: bool, at: ChannelId)
    requires ch in s.contexts && c in s.sessions && c != [] && s.contexts[ch].clientId == []
    ensures EvolvesAt(s, Established(s, ch, c, cp, resumed), None, at)
  {
    WelcomeEvolves(s.contexts[ch].out, QueueOf(s.queues, s.sessions[c]), resumed, s.clock);
    var s' := Established(s, ch, c, cp, resumed);
    GreetingEvolves(s, s', ch, s'.contexts[ch], at);
  }

  lemma AcceptedEvolves(s: State, ch: ChannelId, c: Text, cp: ConnectPacket, at: ChannelId)
    requires ch in s.contexts && s.contexts[ch].clientId == [] && [] !in s.byId && c != []
    ensures EvolvesAt(s, Accepted(s, ch, c, cp), None, at)
  {
    var s1 := TakeOver(s, c, ch);
    var s2 := GetSession(s1, c, cp.clean);
    TakeOverEvolves(s, c, ch, at);
    TakeOverKeepsClient(s, c, ch);
    EstablishedEvolves(s2, ch, c, cp, c in s1.sessions && !cp.clean, at);
    AndThen(s, s2, Accepted(s, ch, c, cp), None, at);
  }

  lemma RefusedEvolves(s: State, ch: ChannelId, packet: O.Packet, at: ChannelId)
    requires ch in s.contexts && !s.contexts[ch].connected && !packet.Publish? && [] !in s.byId
    ensures EvolvesAt(s, CloseChannel(SendTo(s, ch, packet), ch), None, at)
  {
    var s1 := SendTo(s, ch, packet);
    CloseEvolves(s1, ch, at);
    if at != ch {
      SendEvolves(s, ch, packet, at);
      AndThen(s, s1, CloseChannel(s1, ch), None, at);
    }
  }

  lemma AnsweredEvolves(s: State, ch: ChannelId, cp: ConnectPacket, at: ChannelId)
    requires ch in s.contexts && !s.contexts[ch].connected && s.contexts[ch].clientId == [] && [] !in s.byId
    ensures EvolvesAt(s, Answered(s, ch, cp), None, at)
  {
    match Refusal(s, cp)
    case Some(code) => RefusedEvolves(s, ch, O.Connack(false, code), at);
    case None => AcceptedEvolves(Numbered(s, cp), ch, IdFor(s, cp), cp, at);
  }

  lemma PublishNewEvolves(s: State, ch: ChannelId, pub: PublishPacket, m: Option<Message>, at: ChannelId)
    requires ch in s.contexts && [] !in s.byId
    requires m == if (pub.retain && pub.payload == []) || pub.qos == EXACTLY_ONCE then None
                  else Some(PublishedMessage(s.contexts[ch], pub))
    ensures EvolvesAt(s, PublishNew(s, ch, pub), m, at)
  {
    var msg := PublishedMessage(s.contexts[ch], pub);
    var s1 := SetContext(s, ch, Remember(s.contexts[ch], pub));
    Unaffected(s, s1, at);
    if m.Some? {
      RouteRetained(s1, msg, R.Stored(s1.retained, msg));
      RouteEvolves(s1, msg, at);
      Before(s, s1, Route(s1, msg), m, at);
    }
  }

  /** What routing adds comes last. */
  lemma RouteAppends(s: State, msg: Message, ch: ChannelId)
    requires ch in s.contexts
    ensures s.contexts[ch].out.log <= Route(s, msg).contexts[ch].out.log
  {
  }

  lemma PublishEvolves(s: State, ch: ChannelId, pub: PublishPacket, at: ChannelId)
    requires ch in s.contexts && s.contexts[ch].connected && s.contexts[ch].clientId != []
    requires T.ValidName(pub.topic) && [] !in s.byId
    ensures EvolvesAt(s, OnPublish(s, ch, pub), RoutedBy(s, ch, Publish(pub)), at)
  {
    var m := RoutedBy(s, ch, Publish(pub));
    var s1 := if AlreadyReceived(s.contexts[ch], pub) then s else PublishNew(s, ch, pub);
    if AlreadyReceived(s.contexts[ch], pub) {
      Unaffected(s, s, at);
    } else {
      PublishNewEvolves(s, ch, pub, m, at);
      PublishNewKeepsClient(s, ch, pub);
    }
    if pub.qos > AT_MOST_ONCE {
      SendEvolves(s1, ch, AckFor(pub.qos, pub.packetId), at);
      AndThen(s, s1, SendTo(s1, ch, AckFor(pub.qos, pub.packetId)), m, at);
    }
  }

  lemma {:induction false} SubscribeAllEvolves(s: State, ch: ChannelId, x: Session, wanted: seq<Subscription>,
                                               at: ChannelId)
    requires ch in s.contexts && x in s.subs && s.contexts[ch].clientId != []
    ensures EvolvesAt(s, SubscribeAll(s, ch, x, wanted), None, at)
    ensures SubscribeAll(s, ch, x, wanted).contexts[ch].clientId == s.contexts[ch].clientId
    decreases |wanted|
  {
    if wanted == [] {
      Unaffected(s, s, at);
    } else {
      var s1 := SubscribeOne(s, ch, x, wanted[0]);
      SubscribeOneEvolves(s, ch, x, wanted[0], at);
      SubscribeAllEvolves(s1, ch, x, wanted[1..], at);
      AndThen(s, s1, SubscribeAll(s1, ch, x, wanted[1..]), None, at);
    }
  }

  lemma SubscribeOneEvolves(s: State, ch: ChannelId, x: Session, sub: Subscription, at: ChannelId)
    requires ch in s.contexts && x in s.subs && s.contexts[ch].clientId != []
    ensures EvolvesAt(s, SubscribeOne(s, ch, x, sub), None, at)
    ensures SubscribeOne(s, ch, x, sub).contexts[ch].clientId == s.contexts[ch].clientId
  {
    if T.ValidFilter(sub.filter) {
      var out := WithRetained(s.contexts[ch].out, s.retained, sub, s.clock);
      RetainedEvolves(s.contexts[ch].out, s.retained, sub, s.clock);
      SetEvolves(s, ch, s.contexts[ch].(out := out), at);
      SeenAlike(s, SetContext(s, ch, s.contexts[ch].(out := out)), SubscribeOne(s, ch, x, sub), at);
    } else {
      Unaffected(s, s, at);
    }
  }

  lemma SubscribeEvolves(s: State, ch: ChannelId, pid: nat, wanted: seq<Subscription>, x: Session, at: ChannelId)
    requires ch in s.contexts && x in s.subs && s.contexts[ch].clientId != []
    ensures EvolvesAt(s, SendTo(SubscribeAll(s, ch, x, wanted), ch, O.Suback(pid, GrantCodes(wanted))), None, at)
  {
    var s1 := SubscribeAll(s, ch, x, wanted);
    SubscribeAllEvolves(s, ch, x, wanted, at);
    SendEvolves(s1, ch, O.Suback(pid, GrantCodes(wanted)), at);
    AndThen(s, s1, SendTo(s1, ch, O.Suback(pid, GrantCodes(wanted))), None, at);
  }

  lemma ReleaseHeldEvolves(s: State, ch: ChannelId, pid: nat, m: Option<Message>, at: ChannelId)
    requires ch in s.contexts && s.contexts[ch].clientId != [] && [] !in s.byId
    requires m == Held(s, ch, pid)
    ensures EvolvesAt(s, SendTo(ReleaseHeld(s, ch, pid), ch, O.Pubcomp(pid)), m, at)
  {
    var s2 := ReleaseHeld(s, ch, pid);
    if m.Some? {
      var s1 := Route(s, m.value);
      RouteEvolves(s, m.value, at);
      Unaffected(s1, s2, at);
      AndThen(s, s1, s2, m, at);
    } else {
      Unaffected(s, s, at);
    }
    SendEvolves(s2, ch, O.Pubcomp(pid), at);
    AndThen(s, s2, SendTo(s2, ch, O.Pubcomp(pid)), m, at);
  }

  lemma QuietAckEvolves(s: State, ch: ChannelId, kind: AckKind, pid: nat, at: ChannelId)
    requires ch in s.contexts && s.contexts[ch].connected && s.contexts[ch].clientId != [] && kind != PubrelAck
    ensures EvolvesAt(s, OnAck(s, ch, kind, pid), None, at)
  {
    ForgetEvolves(s.contexts[ch].out, pid, s.clock);
    ReleaseEvolves(s.contexts[ch].out, pid, s.clock);
    SetEvolves(s, ch, OnAck(s, ch, kind, pid).contexts[ch], at);
  }

  lemma {:induction false} RetryNothing(ctx: Context, order: seq<nat>, tick: int, now: int)
    requires ctx.clientId == [] && ctx.out == O.EMPTY
    ensures O.Retry(ctx.out, order, ctx.connected, tick, now).0 == ctx.out
    decreases |order|
  {
    if order != [] { RetryNothing(ctx, order[1..], tick, now); }
  }

  lemma RetryOutcome(ctx: Context, order: seq<nat>, tick: int, now: int)
    requires tick <= now
    ensures
      var out := O.Retry(ctx.out, order, ctx.connected, tick, now).0;
      Evolves(ctx.out, out, [], now) && (ctx.clientId == [] && ctx.out == O.EMPTY ==> out == ctx.out)
  {
    RetryEvolves(ctx.out, order, ctx.connected, tick, now);
    if ctx.clientId == [] && ctx.out == O.EMPTY { RetryNothing(ctx, order, tick, now); }
  }

  lemma CheckedEvolves(s: State, ch: ChannelId, out: O.Outbound, at: ChannelId)
    requires ch in s.contexts && Evolves(s.contexts[ch].out, out, [], s.clock)
    requires s.contexts[ch].clientId == [] && s.contexts[ch].out == O.EMPTY ==> out == s.contexts[ch].out
    ensures EvolvesAt(s, SetContext(s, ch, s.contexts[ch].(out := out)), None, at)
  {
    if at in s.contexts { Rests(s.contexts[at].out, s.clock); }
  }

  /** A check that gives up closes the channel, whose own history then no longer matters. */
  lemma GivenUpEvolves(s: State, ch: ChannelId, out: O.Outbound, at: ChannelId)
    requires ch in s.contexts && [] !in s.byId
    requires EvolvesAt(s, SetContext(s, ch, s.contexts[ch].(out := out)), None, at)
    ensures EvolvesAt(s, CloseChannel(SetContext(s, ch, s.contexts[ch].(out := out)), ch), WillOf(s.contexts[ch]), at)
  {
    var s1 := SetContext(s, ch, s.contexts[ch].(out := out));
    CloseEvolves(s1, ch, at);
    if at != ch { Before(s, s1, CloseChannel(s1, ch), WillOf(s.contexts[ch]), at); }
  }

  lemma CheckEvolves(s: State, ch: ChannelId, out: O.Outbound, giveUp: bool, s': State, m: Option<Message>,
                     at: ChannelId)
    requires ch in s.contexts && [] !in s.byId && Evolves(s.contexts[ch].out, out, [], s.clock)
    requires s.contexts[ch].clientId == [] && s.contexts[ch].out == O.EMPTY ==> out == s.contexts[ch].out
    requires
      var s1 := SetContext(s, ch, s.contexts[ch].(out := out));
      if giveUp then s' == CloseChannel(s1, ch) && m == WillOf(s.contexts[ch]) else s' == s1 && m == None
    ensures EvolvesAt(s, s', m, at)
  {
    CheckedEvolves(s, ch, out, at);
    if giveUp { GivenUpEvolves(s, ch, out, at); }
  }

  lemma RetryTickEvolves(s: State, ch: ChannelId, order: seq<nat>, tick: nat, at: ChannelId)
    requires ch in s.contexts && tick <= s.clock && [] !in s.byId
    ensures EvolvesAt(s, OnRetry(s, ch, order, tick), RoutedBy(s, ch, Retry(order, tick)), at)
  {
    var ctx := s.contexts[ch];
    var r := O.Retry(ctx.out, order, ctx.connected, tick, s.clock);
    RetryOutcome(ctx, order, tick, s.clock);
    CheckEvolves(s, ch, r.0, r.1, OnRetry(s, ch, order, tick), RoutedBy(s, ch, Retry(order, tick)), at);
  }

  lemma HandleEvolves(s: State, ch: ChannelId, input: Input, at: ChannelId)
    requires ch in s.contexts && Allowed(s, s.contexts[ch], input) && [] !in s.byId
    requires s.contexts[ch].connected ==> s.contexts[ch].clientId != []
    ensures EvolvesAt(s, Handle(s, ch, input), RoutedBy(s, ch, input), at)
  {
    var ctx := s.contexts[ch];
    match input
    case Connect(cp) =>
      if ctx.connected || cp.protocol != MQTT { CloseEvolves(s, ch, at); } else { AnsweredEvolves(s, ch, cp, at); }
    case Publish(pub) =>
      if !ctx.connected || !T.ValidName(pub.topic) { CloseEvolves(s, ch, at); } else { PublishEvolves(s, ch, pub, at); }
    case Subscribe(pid, wanted) =>
      if !ctx.connected || wanted == [] || SessionOf(s, ch).None? { CloseEvolves(s, ch, at); }
      else { SubscribeEvolves(s, ch, pid, wanted, SessionOf(s, ch).value, at); }
    case Unsubscribe(pid, filters) =>
      if !ctx.connected || filters == [] || SessionOf(s, ch).None? { CloseEvolves(s, ch, at); }
      else { SendEvolves(UnsubscribeAll(s, SessionOf(s, ch).value, filters), ch, O.Unsuback(pid), at); }
    case Ack(kind, pid) =>
      if !ctx.connected { CloseEvolves(s, ch, at); }
      else if kind == PubrelAck { ReleaseHeldEvolves(s, ch, pid, Held(s, ch, pid), at); }
      else { QuietAckEvolves(s, ch, kind, pid, at); }
    case Ping => if ctx.connected { SendEvolves(s, ch, O.Pingresp, at); } else { CloseEvolves(s, ch, at); }
    case Disconnect => Unaffected(s, Handle(s, ch, input), at);
    case Close => CloseEvolves(s, ch, at);
    case Retry(order, tick) => RetryTickEvolves(s, ch, order, tick, at);
  }

  // ----- Over whole runs -----

  lemma StepEvolves(s: State, e: Event, at: ChannelId)
    requires Inv(s) && Admissible(s, e) && at in s.contexts && at in Step(s, e).contexts
    ensures s.contexts[at].out.log <= Step(s, e).contexts[at].out.log
    ensures Copies(Step(s, e).contexts[at].out.log) == Copies(s.contexts[at].out.log) + Reach(s, Routed(s, e), at)
    ensures O.Orderly(s.contexts[at].out, s.clock) ==> O.Orderly(Step(s, e).contexts[at].out, Step(s, e).clock)
    ensures Greeted(s.contexts[at]) ==> Greeted(Step(s, e).contexts[at])
  {
    assert ContextOk(s.contexts, s.byId, s.nextChannel, at);
    forall c | c in s.byId ensures c != [] { assert BoundOk(s.contexts, s.byId, s.sessions, c); }
    if e.On? && e.ch in s.contexts {
      assert ContextOk(s.contexts, s.byId, s.nextChannel, e.ch);
      HandleEvolves(s, e.ch, e.input, at);
    } else if e.Elapse? && O.Orderly(s.contexts[at].out, s.clock) {
      O.OrderlyLater(s.contexts[at].out, s.clock, s.clock + e.millis);
    }
  }

  /** A registered channel either was registered before the latest event or is new with it. */
  lemma RunStep(maxConnections: nat, events: seq<Event>, states: seq<State>, n: nat, ch: ChannelId)
    requires IsRun(maxConnections, events, states) && 0 < n <= |events| && ch in states[n].contexts
    ensures ch !in states[n - 1].contexts ==> states[n].contexts[ch] == FRESH
    ensures ch in states[n - 1].contexts ==>
      var o, o' := states[n - 1].contexts[ch].out, states[n].contexts[ch].out;
      && o.log <= o'.log
      && Copies(o'.log) == Copies(o.log) + Reach(states[n - 1], Routed(states[n - 1], events[n - 1]), ch)
      && (O.Orderly(o, states[n - 1].clock) ==> O.Orderly(o', states[n].clock))
      && (Greeted(states[n - 1].contexts[ch]) ==> Greeted(states[n].contexts[ch]))
  {
    InvReachable(maxConnections, events, states, n - 1);
    if ch in states[n - 1].contexts {
      StepEvolves(states[n - 1], events[n - 1], ch);
    } else {
      NewContexts(states[n - 1], events[n - 1], ch);
    }
  }

  lemma OrderStep(maxConnections: nat, events: seq<Event>, states: seq<State>, n: nat, ch: ChannelId)
    requires IsRun(maxConnections, events, states) && 0 < n <= |events| && ch in states[n].contexts
    requires ch in states[n - 1].contexts ==> O.Orderly(states[n - 1].contexts[ch].out, states[n - 1].clock)
    ensures O.Orderly(states[n].contexts[ch].out, states[n].clock)
  {
    RunStep(maxConnections, events, states, n, ch);
    if ch !in states[n - 1].contexts { O.OrderlyInit(states[n].clock); }
  }

  /**
   In every reachable state, for every connection: a message is sent at most
   once plus ten times, at least 5 s apart, never again after its PUBREL, and
   what is in flight stands under the identifier it was sent with. What is sent
   again is sent unchanged.
   */
  lemma {:induction false} OutboundInOrder(maxConnections: nat, events: seq<Event>, states: seq<State>, n: nat,
                                           ch: ChannelId)
    requires IsRun(maxConnections, events, states) && n <= |events| && ch in states[n].contexts
    ensures O.Orderly(states[n].contexts[ch].out, states[n].clock)
  {
    if n > 0 {
      if ch in states[n - 1].contexts { OutboundInOrder(maxConnections, events, states, n - 1, ch); }
      OrderStep(maxConnections, events, states, n, ch);
    }
  }

  /**
   In every reachable state, for every connection: of two PUBLISHes of the same
   allocation of an identifier, the later one is the earlier one with DUP and
   without RETAIN: same topic, payload, QoS, identifier and source.
   */
  lemma RepeatsAreCopies(maxConnections: nat, events: seq<Event>, states: seq<State>, n: nat, ch: ChannelId,
                         i: nat, j: nat)
    requires IsRun(maxConnections, events, states) && n <= |events| && ch in states[n].contexts
    requires i < j < |states[n].contexts[ch].out.log|
    requires
      var log := states[n].contexts[ch].out.log;
      log[i].packet.Publish? && log[j].packet.Publish? && log[i].alloc == log[j].alloc >= 1
    ensures
      var first, again := states[n].contexts[ch].out.log[i].packet, states[n].contexts[ch].out.log[j].packet;
      again == O.Publish(first.topic, first.payload, first.qos, false, true, first.packetId, first.source)
  {
    OutboundInOrder(maxConnections, events, states, n, ch);
    assert O.PairOk(states[n].contexts[ch].out.log, i, j);
  }

  lemma GreetedStep(maxConnections: nat, events: seq<Event>, states: seq<State>, n: nat, ch: ChannelId)
    requires IsRun(maxConnections, events, states) && 0 < n <= |events| && ch in states[n].contexts
    requires ch in states[n - 1].contexts ==> Greeted(states[n - 1].contexts[ch])
    ensures Greeted(states[n].contexts[ch])
  {
    RunStep(maxConnections, events, states, n, ch);
  }

  /**
   In every reachable state a connection whose client is not known yet has been
   sent nothing, and the first packet of every other one is an accepting CONNACK.
   */
  lemma {:induction false} ConnackComesFirst(maxConnections: nat, events: seq<Event>, states: seq<State>, n: nat,
                                             ch: ChannelId)
    requires IsRun(maxConnections, events, states) && n <= |events| && ch in states[n].contexts
    ensures Greeted(states[n].contexts[ch])
  {
    if n > 0 {
      if ch in states[n - 1].contexts { ConnackComesFirst(maxConnections, events, states, n - 1, ch); }
      GreetedStep(maxConnections, events, states, n, ch);
    }
  }

  /** A channel that is registered at two moments is registered in between. */
  lemma StaysRegistered(maxConnections: nat, events: seq<Event>, states: seq<State>, i: nat, j: nat, ch: ChannelId)
    requires IsRun(maxConnections, events, states) && i < j <= |events|
    requires ch in states[i].contexts && ch in states[j].contexts
    ensures ch in states[j - 1].contexts
  {
    InvReachable(maxConnections, events, states, i);
    assert ContextOk(states[i].contexts, states[i].byId, states[i].nextChannel, ch);
    NextChannelGrows(maxConnections, events, states, i, j - 1);
    InvReachable(maxConnections, events, states, j - 1);
    NewContexts(states[j - 1], events[j - 1], ch);
  }

  lemma LogStep(maxConnections: nat, events: seq<Event>, states: seq<State>, n: nat, ch: ChannelId)
    requires IsRun(maxConnections, events, states) && 0 < n <= |events|
    requires ch in states[n - 1].contexts && ch in states[n].contexts
    ensures states[n - 1].contexts[ch].out.log <= states[n].contexts[ch].out.log
  {
    RunStep(maxConnections, events, states, n, ch);
  }

  /** What a connection has been sent by some moment comes before all it is sent later. */
  lemma {:induction false} SentInOrder(maxConnections: nat, events: seq<Event>, states: seq<State>, i: nat, j: nat,
                                       ch: ChannelId)
    requires IsRun(maxConnections, events, states) && i <= j <= |events|
    requires ch in states[i].contexts && ch in states[j].contexts
    ensures states[i].contexts[ch].out.log <= states[j].contexts[ch].out.log
  {
    if i < j {
      StaysRegistered(maxConnections, events, states, i, j, ch);
      SentInOrder(maxConnections, events, states, i, j - 1, ch);
      LogStep(maxConnections, events, states, j, ch);
    }
  }

  /** What the events of a run have routed to a connection, in order. */
  ghost function Reached(events: seq<Event>, states: seq<State>, ch: ChannelId, n: nat): seq<Copy>
    requires n <= |events| < |states|
  {
    if n == 0 || ch !in states[n - 1].contexts then []
    else Reached(events, states, ch, n - 1) + Reach(states[n - 1], Routed(states[n - 1], events[n - 1]), ch)
  }

  lemma CopiesStep(maxConnections: nat, events: seq<Event>, states: seq<State>, n: nat, ch: ChannelId)
    requires IsRun(maxConnections, events, states) && 0 < n <= |events| && ch in states[n].contexts
    ensures Copies(states[n].contexts[ch].out.log) ==
            if ch !in states[n - 1].contexts then []
            else Copies(states[n - 1].contexts[ch].out.log) +
                 Reach(states[n - 1], Routed(states[n - 1], events[n - 1]), ch)
  {
    RunStep(maxConnections, events, states, n, ch);
  }

  /**
   In every reachable state, for every connection: the first copies in its
   history are exactly what has been routed to it, once each and in order.
   */
  lemma {:induction false} CopiesAreRouted(maxConnections: nat, events: seq<Event>, states: seq<State>, n: nat,
                                           ch: ChannelId)
    requires IsRun(maxConnections, events, states) && n <= |events| && ch in states[n].contexts
    ensures Copies(states[n].contexts[ch].out.log) == Reached(events, states, ch, n)
  {
    if n > 0 {
      CopiesStep(maxConnections, events, states, n, ch);
      if ch in states[n - 1].contexts { CopiesAreRouted(maxConnections, events, states, n - 1, ch); }
    }
  }

  /** Whether and at which QoS a message reaches a connection is decided by its client's subscription list. */
  lemma ReachByList(s: State, msg: Message, at: ChannelId)
    requires Inv(s) && at in s.contexts
    ensures !s.contexts[at].connected ==> Reach(s, Some(msg), at) == []
    ensures s.contexts[at].connected ==>
      && s.contexts[at].session.Some? && s.contexts[at].session.value in s.subs
      && (var subs := s.subs[s.contexts[at].session.value];
          && (NoMatch(subs, msg.topic) ==> Reach(s, Some(msg), at) == [])
          && (forall q: Qos :: BestMatch(subs, msg.topic, q) ==>
                Reach(s, Some(msg), at) == [Copy(msg.topic, msg.payload, msg.source, MinQos(q, msg.qos))]))
  {
    assert ContextOk(s.contexts, s.byId, s.nextChannel, at);
    if s.contexts[at].connected {
      ConnectedHasSession(s, at);
      var c, x := s.contexts[at].clientId, s.contexts[at].session.value;
      assert BoundOk(s.contexts, s.byId, s.sessions, c);
      WantsMeansListed(s, x, msg.topic, 0);
      forall q: Qos | BestMatch(s.subs[x], msg.topic, q)
        ensures Reach(s, Some(msg), at) == [Copy(msg.topic, msg.payload, msg.source, MinQos(q, msg.qos))]
      {
        EffectiveIsBest(s, x, msg, q);
      }
    }
  }
}
