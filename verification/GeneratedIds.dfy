/** Client ids that the broker generates, in every run: none is given out twice. */
module GeneratedIds {
  import opened Bytes
  import opened Model
  import opened Broker
  import opened Outcomes
  import opened Lifecycle
  import O = Outbound

  lemma {:induction false} DecimalsDiffer(m: nat, n: nat)
    requires m < n
    ensures Decimal(m) != Decimal(n)
    decreases n
  {
    var a, b := Decimal(m), Decimal(n);
    if a == b && n >= 10 {
      assert b[..|b| - 1] == Decimal(n / 10) && b[|b| - 1] == 0x30 + n % 10;
      if m >= 10 {
        assert a[..|a| - 1] == Decimal(m / 10) && a[|a| - 1] == 0x30 + m % 10;
        DecimalsDiffer(m / 10, n / 10);
      }
    }
  }

  /** The event is an accepted CONNECT without a client id. */
  ghost predicate Generates(s: State, e: Event) {
    e.On? && e.ch in s.contexts && e.input.Connect? && !Ends(s, e.ch, e.input) && e.input.cp.clientId == []
  }

  lemma WillSeq(s: State, ctx: Context)
    ensures PublishWill(s, ctx).autoSeq == s.autoSeq
  {
  }

  lemma RemoveSeq(s: State, ch: ChannelId)
    requires ch in s.contexts
    ensures RemoveChannel(s, ch).autoSeq == s.autoSeq
  {
  }

  lemma CloseSeq(s: State, ch: ChannelId)
    requires ch in s.contexts
    ensures CloseChannel(s, ch).autoSeq == s.autoSeq
  {
    var ctx := s.contexts[ch];
    if PublishesWill(ctx) {
      WillSeq(s, ctx);
      RemoveSeq(PublishWill(s, ctx), ch);
    } else {
      RemoveSeq(s, ch);
    }
  }

  lemma {:induction false} SubscribeSeq(s: State, ch: ChannelId, x: Session, wanted: seq<Subscription>)
    requires ch in s.contexts && x in s.subs
    ensures SubscribeAll(s, ch, x, wanted).autoSeq == s.autoSeq
    decreases |wanted|
  {
    if wanted != [] { SubscribeSeq(SubscribeOne(s, ch, x, wanted[0]), ch, x, wanted[1..]); }
  }

  lemma {:induction false} UnsubscribeSeq(s: State, x: Session, filters: seq<Text>)
    requires x in s.subs
    ensures UnsubscribeAll(s, x, filters).autoSeq == s.autoSeq
    decreases |filters|
  {
    if filters != [] {
      var s1 := s.(entries := s.entries - {Key(x, filters[0])},
                   subs := s.subs[x := Unsubscribed(s.subs[x], filters[0])]);
      UnsubscribeSeq(s1, x, filters[1..]);
    }
  }

  lemma TakeOverSeq(s: State, c: Text, ch: ChannelId)
    ensures TakeOver(s, c, ch).autoSeq == s.autoSeq
  {
    if c in s.byId && s.byId[c] != ch && s.byId[c] in s.contexts {
      var prior := s.byId[c];
      CloseSeq(s.(contexts := s.contexts[prior := s.contexts[prior].(takenOver := true, session := None)]), prior);
    }
  }

  lemma AcceptedSeq(s: State, ch: ChannelId, c: Text, cp: ConnectPacket)
    requires ch in s.contexts
    ensures Accepted(s, ch, c, cp).autoSeq == s.autoSeq
  {
    TakeOverSeq(s, c, ch);
  }

  lemma ConnectSeq(s: State, ch: ChannelId, cp: ConnectPacket)
    requires ch in s.contexts
    ensures OnConnect(s, ch, cp).autoSeq ==
            s.autoSeq + if !s.contexts[ch].connected && Acceptable(s, cp) && cp.clientId == [] then 1 else 0
  {
    if s.contexts[ch].connected || cp.protocol != MQTT {
      CloseSeq(s, ch);
    } else if !Acceptable(s, cp) {
      CloseSeq(SendTo(s, ch, O.Connack(false, Refusal(s, cp).value)), ch);
    } else {
      AcceptableIsAccepted(s, ch, cp);
      AcceptedSeq(Numbered(s, cp), ch, IdFor(s, cp), cp);
    }
  }

  lemma PublishSeq(s: State, ch: ChannelId, pub: PublishPacket)
    requires ch in s.contexts
    ensures OnPublish(s, ch, pub).autoSeq == s.autoSeq
  {
    CloseSeq(s, ch);
    assert PublishNew(s, ch, pub).autoSeq == s.autoSeq;
  }

  lemma SubscriptionsSeq(s: State, ch: ChannelId, pid: nat, wanted: seq<Subscription>, filters: seq<Text>)
    requires ch in s.contexts
    ensures OnSubscribe(s, ch, pid, wanted).autoSeq == s.autoSeq
    ensures OnUnsubscribe(s, ch, pid, filters).autoSeq == s.autoSeq
  {
    CloseSeq(s, ch);
    if SessionOf(s, ch).Some? {
      SubscribeSeq(s, ch, SessionOf(s, ch).value, wanted);
      UnsubscribeSeq(s, SessionOf(s, ch).value, filters);
    }
  }

  lemma ShortSeq(s: State, ch: ChannelId, kind: AckKind, pid: nat, order: seq<nat>, tick: nat)
    requires ch in s.contexts
    ensures OnAck(s, ch, kind, pid).autoSeq == s.autoSeq && OnPing(s, ch).autoSeq == s.autoSeq
    ensures OnRetry(s, ch, order, tick).autoSeq == s.autoSeq
  {
    var ctx := s.contexts[ch];
    CloseSeq(s, ch);
    CloseSeq(SetContext(s, ch, ctx.(out := O.Retry(ctx.out, order, ctx.connected, tick, s.clock).0)), ch);
  }

  lemma StepSeq(s: State, e: Event)
    ensures Step(s, e).autoSeq == s.autoSeq + if Generates(s, e) then 1 else 0
  {
    if e.On? && e.ch in s.contexts {
      match e.input
      case Connect(cp) => ConnectSeq(s, e.ch, cp);
      case Publish(pub) => PublishSeq(s, e.ch, pub);
      case Subscribe(pid, wanted) => SubscriptionsSeq(s, e.ch, pid, wanted, []);
      case Unsubscribe(pid, filters) => SubscriptionsSeq(s, e.ch, pid, [], filters);
      case Ack(kind, pid) => ShortSeq(s, e.ch, kind, pid, [], 0);
      case Ping => ShortSeq(s, e.ch, PubackAck, 0, [], 0);
      case Disconnect =>
      case Close => CloseSeq(s, e.ch);
      case Retry(order, tick) => ShortSeq(s, e.ch, PubackAck, 0, order, tick);
    }
  }

  lemma {:induction false} SeqGrows(maxConnections: nat, events: seq<Event>, states: seq<State>, i: nat, j: nat)
    requires IsRun(maxConnections, events, states) && i <= j <= |events|
    ensures states[i].autoSeq <= states[j].autoSeq
  {
    if i < j {
      SeqGrows(maxConnections, events, states, i, j - 1);
      StepSeq(states[j - 1], events[j - 1]);
    }
  }

  /** In every run no two clients without an id of their own are given the same one. */
  lemma GeneratedIdsDiffer(maxConnections: nat, events: seq<Event>, states: seq<State>, i: nat, j: nat)
    requires IsRun(maxConnections, events, states) && i < j < |events|
    requires Generates(states[i], events[i]) && Generates(states[j], events[j])
    ensures IdFor(states[i], events[i].input.cp) != IdFor(states[j], events[j].input.cp)
  {
    StepSeq(states[i], events[i]);
    SeqGrows(maxConnections, events, states, i + 1, j);
    var m, n := states[i].autoSeq + 1, states[j].autoSeq + 1;
    DecimalsDiffer(m, n);
    assert AutoId(m)[5..] == Decimal(m) && AutoId(n)[5..] == Decimal(n);
  }
}
