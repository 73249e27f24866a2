/**
 Persistent sessions, in every run: a stored session outlives its connections, with
 its subscriptions, until its client makes a clean start.
 */
module Persistence {
  import opened Bytes
  import opened Model
  import opened Outbox
  import opened Broker
  import opened Invariant
  import opened Inbound
  import opened Guarantees
  import opened Outcomes
  import opened Resending
  import opened Lifecycle
  import T = Topic
  import O = Outbound
  import R = RetainStore

  /** The session is still the stored one of its client, with the same subscriptions. */
  ghost predicate Stays(s: State, s': State, x: Session) {
    Live(s'.sessions, x) && (x in s'.subs <==> x in s.subs) && (x in s.subs ==> s'.subs[x] == s.subs[x])
  }

  lemma RemoveStays(s: State, ch: ChannelId, x: Session)
    requires Inv(s) && ch in s.contexts && Live(s.sessions, x) && !x.clean
    ensures Stays(s, RemoveChannel(s, ch), x)
  {
    RemoveChannelEffect(s, ch);
    var c := s.contexts[ch].clientId;
    if c in s.sessions { assert SessionOk(s.byId, s.sessions, s.nextSession, None, c); }
  }

  lemma CloseStays(s: State, ch: ChannelId, x: Session)
    requires Inv(s) && ch in s.contexts && Live(s.sessions, x) && !x.clean
    ensures Stays(s, CloseChannel(s, ch), x)
  {
    var ctx := s.contexts[ch];
    if PublishesWill(ctx) {
      InvPublishWill(s, ctx);
      RemoveStays(PublishWill(s, ctx), ch, x);
    } else {
      RemoveStays(s, ch, x);
    }
  }

  lemma SetThenCloseStays(s: State, ch: ChannelId, ctx: Context, x: Session)
    requires Inv(s) && ch in s.contexts && SameIdentity(s.contexts[ch], ctx) && Live(s.sessions, x) && !x.clean
    ensures Stays(s, CloseChannel(SetContext(s, ch, ctx), ch), x)
  {
    InvSetContext(s, ch, ctx);
    CloseStays(SetContext(s, ch, ctx), ch, x);
  }

  lemma DropStays(s: State, y: Session, x: Session)
    requires Live(s.sessions, x) && y.clientId != x.clientId
    ensures Stays(s, DropSession(s, y), x)
  {
  }

  lemma NewSessionStays(s: State, c: Text, clean: bool, x: Session)
    requires Live(s.sessions, x) && c != x.clientId
    ensures Stays(s, NewSession(s, c, clean), x)
  {
  }

  lemma GetSessionStays(s: State, c: Text, clean: bool, x: Session)
    requires Live(s.sessions, x) && x.id < s.nextSession && (c in s.sessions ==> s.sessions[c].clientId == c)
    ensures clean && c == x.clientId ==> !Live(GetSession(s, c, clean).sessions, x)
    ensures !(clean && c == x.clientId) ==> Stays(s, GetSession(s, c, clean), x)
  {
    if c != x.clientId {
      NewSessionStays(s, c, clean, x);
      if clean && c in s.sessions {
        DropStays(s, s.sessions[c], x);
        NewSessionStays(DropSession(s, s.sessions[c]), c, clean, x);
      }
    }
  }

  lemma EstablishedStays(s: State, s1: State, ch: ChannelId, c: Text, cp: ConnectPacket, resumed: bool, x: Session)
    requires ch in s1.contexts && c in s1.sessions
    ensures Stays(s, s1, x) <==> Stays(s, Established(s1, ch, c, cp, resumed), x)
    ensures Established(s1, ch, c, cp, resumed).sessions == s1.sessions
  {
  }

  /** A session ends with a clean start of its client, and lives through any other CONNECT. */
  lemma AcceptedStays(s: State, ch: ChannelId, c: Text, cp: ConnectPacket, x: Session)
    requires Inv(s) && ch in s.contexts && s.contexts[ch].clientId == [] && Live(s.sessions, x)
    ensures cp.clean && c == x.clientId ==> !Live(Accepted(s, ch, c, cp).sessions, x)
    ensures !(cp.clean && c == x.clientId) ==> Stays(s, Accepted(s, ch, c, cp), x)
  {
    TakeOverIsSilent(s, c, ch);
    var s1 := TakeOver(s, c, ch);
    assert SessionOk(s.byId, s.sessions, s.nextSession, None, x.clientId);
    if c in s.sessions { assert SessionOk(s.byId, s.sessions, s.nextSession, None, c); }
    GetSessionStays(s1, c, cp.clean, x);
    EstablishedStays(s, GetSession(s1, c, cp.clean), ch, c, cp, c in s1.sessions && !cp.clean, x);
  }

  lemma {:induction false} SubscribeStays(s: State, ch: ChannelId, y: Session, wanted: seq<Subscription>, x: Session)
    requires ch in s.contexts && y in s.subs && x != y && Live(s.sessions, x)
    ensures Stays(s, SubscribeAll(s, ch, y, wanted), x)
    decreases |wanted|
  {
    if wanted != [] { SubscribeStays(SubscribeOne(s, ch, y, wanted[0]), ch, y, wanted[1..], x); }
  }

  lemma {:induction false} UnsubscribeStays(s: State, y: Session, filters: seq<Text>, x: Session)
    requires y in s.subs && x != y && Live(s.sessions, x)
    ensures Stays(s, UnsubscribeAll(s, y, filters), x)
    decreases |filters|
  {
    if filters != [] {
      var s1 := s.(entries := s.entries - {Key(y, filters[0])},
                   subs := s.subs[y := Unsubscribed(s.subs[y], filters[0])]);
      UnsubscribeStays(s1, y, filters[1..], x);
    }
  }

  /** The input is a clean start of the session's client. */
  ghost predicate CleanStartOf(s: State, ch: ChannelId, input: Input, x: Session)
    requires ch in s.contexts
  {
    input.Connect? && !Ends(s, ch, input) && input.cp.clean && IdFor(s, input.cp) == x.clientId
  }

  /** The input changes the session's own subscriptions. */
  predicate Resubscribes(s: State, ch: ChannelId, input: Input, x: Session)
    requires ch in s.contexts
  {
    (input.Subscribe? || input.Unsubscribe?) && s.contexts[ch].session == Some(x)
  }

  lemma RefusedStays(s: State, ch: ChannelId, cp: ConnectPacket, x: Session)
    requires Inv(s) && ch in s.contexts && (s.contexts[ch].connected || !Acceptable(s, cp))
    requires Live(s.sessions, x) && !x.clean
    ensures Stays(s, OnConnect(s, ch, cp), x)
  {
    if s.contexts[ch].connected || cp.protocol != MQTT {
      CloseStays(s, ch, x);
    } else {
      SetThenCloseStays(s, ch, SendTo(s, ch, O.Connack(false, Refusal(s, cp).value)).contexts[ch], x);
    }
  }

  lemma GivenUpStays(s: State, ch: ChannelId, order: seq<nat>, tick: nat, x: Session)
    requires Inv(s) && ch in s.contexts && Allowed(s, s.contexts[ch], Retry(order, tick))
    requires OutOfRetries(s.contexts[ch].out) && Live(s.sessions, x) && !x.clean
    ensures Stays(s, OnRetry(s, ch, order, tick), x)
  {
    var ctx := s.contexts[ch];
    CheckEndsIff(s, ch, order, tick);
    SetThenCloseStays(s, ch, ctx.(out := O.Retry(ctx.out, order, ctx.connected, tick, s.clock).0), x);
  }

  lemma EndStays(s: State, ch: ChannelId, input: Input, x: Session)
    requires Inv(s) && ch in s.contexts && Allowed(s, s.contexts[ch], input) && Ends(s, ch, input)
    requires Live(s.sessions, x) && !x.clean
    ensures Stays(s, Handle(s, ch, input), x)
  {
    match input
    case Connect(cp) => RefusedStays(s, ch, cp, x);
    case Retry(order, tick) => GivenUpStays(s, ch, order, tick, x);
    case _ => CloseStays(s, ch, x);
  }

  lemma OwnSubscriptions(s: State, ch: ChannelId, input: Input, x: Session)
    requires Inv(s) && ch in s.contexts && !Ends(s, ch, input) && (input.Subscribe? || input.Unsubscribe?)
    requires Live(s.sessions, x)
    ensures Live(Handle(s, ch, input).sessions, x)
    ensures !Resubscribes(s, ch, input, x) ==> Stays(s, Handle(s, ch, input), x)
  {
    ConnectedHasSession(s, ch);
    var y := s.contexts[ch].session.value;
    if x != y {
      match input
      case Subscribe(_, wanted) => SubscribeStays(s, ch, y, wanted, x);
      case Unsubscribe(_, filters) => UnsubscribeStays(s, y, filters, x);
    }
  }

  /** Routing and sending touch no session. */
  lemma SameSessions(s: State, s': State, x: Session)
    requires Live(s.sessions, x) && s'.sessions == s.sessions && s'.subs == s.subs
    ensures Stays(s, s', x)
  {
  }

  lemma RouteSessions(s: State, msg: Message)
    ensures Route(s, msg).sessions == s.sessions && Route(s, msg).subs == s.subs
  {
  }

  lemma PublishNewSessions(s: State, ch: ChannelId, pub: PublishPacket)
    requires ch in s.contexts
    ensures PublishNew(s, ch, pub).sessions == s.sessions && PublishNew(s, ch, pub).subs == s.subs
  {
    var msg := PublishedMessage(s.contexts[ch], pub);
    var s1 := SetContext(s, ch, Remember(s.contexts[ch], pub));
    RouteSessions(s1, msg);
    RouteSessions(s1.(retained := R.Stored(s1.retained, msg)), msg);
  }

  lemma PublishSessions(s: State, ch: ChannelId, pub: PublishPacket)
    requires ch in s.contexts && s.contexts[ch].connected && T.ValidName(pub.topic)
    ensures OnPublish(s, ch, pub).sessions == s.sessions && OnPublish(s, ch, pub).subs == s.subs
  {
    PublishNewSessions(s, ch, pub);
  }

  lemma AckSessions(s: State, ch: ChannelId, kind: AckKind, pid: nat)
    requires ch in s.contexts && s.contexts[ch].connected
    ensures OnAck(s, ch, kind, pid).sessions == s.sessions && OnAck(s, ch, kind, pid).subs == s.subs
  {
  }

  lemma CheckSessions(s: State, ch: ChannelId, order: seq<nat>, tick: nat)
    requires ch in s.contexts && Allowed(s, s.contexts[ch], Retry(order, tick)) && !OutOfRetries(s.contexts[ch].out)
    ensures OnRetry(s, ch, order, tick).sessions == s.sessions && OnRetry(s, ch, order, tick).subs == s.subs
  {
    CheckEndsIff(s, ch, order, tick);
  }

  lemma QuietStored(s: State, ch: ChannelId, input: Input, x: Session)
    requires ch in s.contexts && Allowed(s, s.contexts[ch], input) && !Ends(s, ch, input) && Live(s.sessions, x)
    requires input.Publish? || input.Ack? || input.Ping? || input.Disconnect? || input.Retry?
    ensures Stays(s, Handle(s, ch, input), x)
  {
    match input {
      case Publish(pub) => PublishSessions(s, ch, pub);
      case Ack(kind, pid) => AckSessions(s, ch, kind, pid);
      case Ping =>
      case Disconnect =>
      case Retry(order, tick) => CheckSessions(s, ch, order, tick);
    }
    SameSessions(s, Handle(s, ch, input), x);
  }

  lemma HandleStays(s: State, ch: ChannelId, input: Input, x: Session)
    requires Inv(s) && ch in s.contexts && Allowed(s, s.contexts[ch], input) && Live(s.sessions, x) && !x.clean
    ensures Live(Handle(s, ch, input).sessions, x) <==> !CleanStartOf(s, ch, input, x)
    ensures !CleanStartOf(s, ch, input, x) && !Resubscribes(s, ch, input, x) ==> Stays(s, Handle(s, ch, input), x)
  {
    if Ends(s, ch, input) {
      EndStays(s, ch, input, x);
    } else if input.Connect? {
      InvNumbered(s, input.cp);
      AcceptableIsAccepted(s, ch, input.cp);
      AcceptedStays(Numbered(s, input.cp), ch, IdFor(s, input.cp), input.cp, x);
    } else if input.Subscribe? || input.Unsubscribe? {
      OwnSubscriptions(s, ch, input, x);
    } else {
      QuietStored(s, ch, input, x);
    }
  }

  /**
   In every run a stored persistent session survives every event but a clean start
   of its client, and its subscription list changes only by a SUBSCRIBE or an
   UNSUBSCRIBE on the connection that owns it.
   */
  lemma SessionSurvivesIff(maxConnections: nat, events: seq<Event>, states: seq<State>, n: nat, x: Session)
    requires IsRun(maxConnections, events, states) && n < |events| && Live(states[n].sessions, x) && !x.clean
    ensures
      var s, s', e := states[n], states[n + 1], events[n];
      var handled := e.On? && e.ch in s.contexts;
      && (Live(s'.sessions, x) <==> !(handled && CleanStartOf(s, e.ch, e.input, x)))
      && (Live(s'.sessions, x) && !(handled && Resubscribes(s, e.ch, e.input, x)) ==>
            x in s.subs && x in s'.subs && s'.subs[x] == s.subs[x])
  {
    InvReachable(maxConnections, events, states, n);
    assert x in states[n].subs;
    if events[n].On? && events[n].ch in states[n].contexts { HandleStays(states[n], events[n].ch, events[n].input, x); }
  }
}
