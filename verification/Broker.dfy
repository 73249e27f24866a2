/**
 The broker as a state machine: one function per protocol event, each the
 effect of the corresponding handler taken as one atomic step.
 */
module Broker {
  import opened Bytes
  import opened Model
  import opened Outbox
  import T = Topic
  import O = Outbound
  import R = RetainStore

  // ----- The state -----

  datatype Will = Will(topic: Text, payload: Text, qos: Qos, retain: bool, valid: bool)

  const NO_WILL: Will := Will([], [], AT_MOST_ONCE, false, false)

  type ChannelId = nat

  /** The broker's view of one connection. */
  datatype Context = Context(session: Option<Session>, clientId: Text, connected: bool,
                             cleanDisconnect: bool, takenOver: bool, will: Will,
                             awaitingPuback: map<nat, Text>, awaitingPubrel: map<nat, Message>,
                             out: O.Outbound)

  const FRESH: Context := Context(None, [], false, false, false, NO_WILL, map[], map[], O.EMPTY)

  type Contexts = map<ChannelId, Context>
  type ById = map<Text, ChannelId>
  type Sessions = map<Text, Session>
  type Subs = map<Session, seq<Subscription>>
  type Entries = map<Key, Qos>
  type Queues = map<Session, seq<OutboxMessage>>

  /**
   `contexts` holds the registered channels, `byId` the channel bound to a
   client identifier, `entries` what the topic tree stands for and `subs` the
   subscription list inside each session object. The counters supply fresh
   channel and session identities and the numbers of generated client ids.
   */
  datatype State = State(maxConnections: nat,
                         contexts: Contexts, byId: ById, sessions: Sessions, subs: Subs,
                         entries: Entries, queues: Queues, retained: seq<Message>,
                         nextChannel: nat, nextSession: nat, autoSeq: nat, clock: nat)

  function Init(maxConnections: nat): State {
    State(maxConnections, map[], map[], map[], map[], map[], map[], [], 0, 0, 0, 0)
  }

  // ----- Events -----

  datatype ConnectPacket = ConnectPacket(protocol: Text, level: byte, clientId: Text, clean: bool, will: Will)
  datatype PublishPacket = PublishPacket(topic: Text, payload: Text, qos: Qos, retain: bool, packetId: nat)
  datatype AckKind = PubackAck | PubrecAck | PubrelAck | PubcompAck

  /** What can happen on a channel: a packet, its end, or the periodic check of its in-flight messages. */
  datatype Input =
    | Connect(cp: ConnectPacket)
    | Publish(pub: PublishPacket)
    | Subscribe(packetId: nat, wanted: seq<Subscription>)
    | Unsubscribe(packetId: nat, filters: seq<Text>)
    | Ack(kind: AckKind, packetId: nat)
    | Ping
    | Disconnect
    | Close
    | Retry(order: seq<nat>, tick: nat)

  datatype Event = Accept | Elapse(millis: nat) | On(ch: ChannelId, input: Input)

  /** No handler touches the clock, the configuration or the supply of channel numbers. */
  ghost predicate SameWorld(s: State, r: State) {
    r.clock == s.clock && r.maxConnections == s.maxConnections && r.nextChannel == s.nextChannel
  }

  // ----- Routing -----

  predicate Live(sessions: Sessions, x: Session) {
    x.clientId in sessions && sessions[x.clientId] == x
  }

  /** The client has a connected context, whose channel is then still open. */
  predicate Online(contexts: Contexts, byId: ById, c: Text) {
    c in byId && byId[c] in contexts && contexts[byId[c]].connected
  }

  /** Some subscription of the session, of at least the given QoS, matches the topic. */
  ghost predicate Wants(entries: Entries, x: Session, topic: Text, q: Qos) {
    exists f :: Key(x, f) in entries && entries[Key(x, f)] >= q && T.Matches(f, topic)
  }

  /** The highest QoS among the session's matching subscriptions, capped by the message's own. */
  ghost function Effective(entries: Entries, x: Session, msg: Message): Qos {
    MinQos(if Wants(entries, x, msg.topic, 2) then 2 else if Wants(entries, x, msg.topic, 1) then 1 else 0, msg.qos)
  }

  /** The message goes to the client connected on this channel. */
  ghost predicate Targets(contexts: Contexts, byId: ById, sessions: Sessions, entries: Entries, topic: Text,
                          ch: ChannelId)
    requires ch in contexts
  {
    var c := contexts[ch].clientId;
    && c in byId && byId[c] == ch && contexts[ch].connected
    && c in sessions && Wants(entries, sessions[c], topic, 0)
  }

  ghost function RoutedOut(contexts: Contexts, byId: ById, sessions: Sessions, entries: Entries,
                           now: int, msg: Message, ch: ChannelId): O.Outbound
    requires ch in contexts
  {
    if Targets(contexts, byId, sessions, entries, msg.topic, ch) then
      O.Deliver(contexts[ch].out, msg, Effective(entries, sessions[contexts[ch].clientId], msg),
                false, false, now, true)
    else contexts[ch].out
  }

  ghost function RoutedContexts(contexts: Contexts, byId: ById, sessions: Sessions, entries: Entries,
                                now: int, msg: Message): Contexts {
    map ch | ch in contexts :: contexts[ch].(out := RoutedOut(contexts, byId, sessions, entries, now, msg, ch))
  }

  /** The message is kept for a client that is not connected. */
  ghost predicate Keeps(contexts: Contexts, byId: ById, sessions: Sessions, entries: Entries, msg: Message,
                        x: Session) {
    && Live(sessions, x) && !Online(contexts, byId, x.clientId) && !x.clean
    && Wants(entries, x, msg.topic, 0) && Effective(entries, x, msg) > AT_MOST_ONCE
  }

  function QueueOf(queues: Queues, x: Session): seq<OutboxMessage> {
    if x in queues then queues[x] else []
  }

  ghost function RoutedQueues(contexts: Contexts, byId: ById, sessions: Sessions, entries: Entries,
                              queues: Queues, msg: Message): Queues {
    map x | x in queues.Keys + sessions.Values && (x in queues || Keeps(contexts, byId, sessions, entries, msg, x)) ::
      if Keeps(contexts, byId, sessions, entries, msg, x) then
        Pushed(QueueOf(queues, x), OutboxMessage(msg, Effective(entries, x, msg), false))
      else queues[x]
  }

  ghost function Route(s: State, msg: Message): (r: State)
    ensures SameWorld(s, r)
  {
    s.(contexts := RoutedContexts(s.contexts, s.byId, s.sessions, s.entries, s.clock, msg),
       queues := RoutedQueues(s.contexts, s.byId, s.sessions, s.entries, s.queues, msg))
  }

  // ----- Registry -----

  function SetContext(s: State, ch: ChannelId, ctx: Context): (r: State)
    ensures SameWorld(s, r)
  {
    s.(contexts := s.contexts[ch := ctx])
  }

  function SendTo(s: State, ch: ChannelId, packet: O.Packet): (r: State)
    requires ch in s.contexts
    ensures SameWorld(s, r)
  {
    SetContext(s, ch, s.contexts[ch].(out := O.Emit(s.contexts[ch].out, packet, s.clock)))
  }

  ghost function FilterKeys(session: Session, subs: seq<Subscription>): set<Key> {
    set i | 0 <= i < |subs| :: Key(session, subs[i].filter)
  }

  /** Forgets a session: its entries in the topic tree, the object itself, its offline queue. */
  ghost function DropSession(s: State, session: Session): (r: State)
    ensures SameWorld(s, r)
  {
    var subs := if session in s.subs then s.subs[session] else [];
    s.(entries := s.entries - FilterKeys(session, subs),
       sessions := s.sessions - {session.clientId},
       subs := s.subs - {session},
       queues := s.queues - {session})
  }

  /** Unregisters a channel; a clean session ends with it, unless another connection took it over. */
  ghost function RemoveChannel(s: State, ch: ChannelId): (r: State)
    requires ch in s.contexts
    ensures SameWorld(s, r)
  {
    var ctx := s.contexts[ch];
    var s1 := if ctx.clientId != [] && ctx.clientId in s.byId && s.byId[ctx.clientId] == ch
              then s.(byId := s.byId - {ctx.clientId}) else s;
    var s2 := if ctx.session.Some? && Live(s.sessions, ctx.session.value) && !ctx.takenOver && ctx.session.value.clean
              then DropSession(s1, ctx.session.value) else s1;
    s2.(contexts := s2.contexts - {ch})
  }

  predicate PublishesWill(ctx: Context) {
    ctx.connected && !ctx.cleanDisconnect && !ctx.takenOver && ctx.will.valid
  }

  function WillMessage(ctx: Context): Message {
    Message(ctx.will.topic, ctx.will.payload, ctx.will.qos, ctx.will.retain, ctx.clientId)
  }

  ghost function PublishWill(s: State, ctx: Context): (r: State)
    ensures SameWorld(s, r)
  {
    var msg := WillMessage(ctx);
    Route(if msg.retain then s.(retained := R.Stored(s.retained, msg)) else s, msg)
  }

  ghost function CloseChannel(s: State, ch: ChannelId): (r: State)
    requires ch in s.contexts
    ensures SameWorld(s, r)
  {
    var ctx := s.contexts[ch];
    RemoveChannel(if PublishesWill(ctx) then PublishWill(s, ctx) else s, ch)
  }

  // ----- CONNECT -----

  const MQTT: Text := [0x4D, 0x51, 0x54, 0x54]
  const PROTOCOL_LEVEL: byte := 4
  const MAX_CLIENT_ID: nat := 23

  const BAD_PROTOCOL_VERSION: byte := 1
  const ID_REJECTED: byte := 2
  const SERVER_UNAVAILABLE: byte := 3

  function Decimal(n: nat): Text {
    if n < 10 then [0x30 + n] else Decimal(n / 10) + [0x30 + n % 10]
  }

  /** A generated client id: "auto-" and a number. */
  function AutoId(n: nat): (id: Text)
    ensures id != []
  {
    [0x61, 0x75, 0x74, 0x6F, 0x2D] + Decimal(n)
  }

  function Refusal(s: State, cp: ConnectPacket): Option<byte> {
    if |s.contexts| >= s.maxConnections then Some(SERVER_UNAVAILABLE)
    else if cp.level != PROTOCOL_LEVEL then Some(BAD_PROTOCOL_VERSION)
    else if cp.clientId == [] && !cp.clean then Some(ID_REJECTED)
    else if |cp.clientId| > MAX_CLIENT_ID then Some(ID_REJECTED)
    else None
  }

  /** Closes the connection that currently holds the client id, without will and without losing the session. */
  ghost function TakeOver(s: State, c: Text, ch: ChannelId): (r: State)
    ensures ch in s.contexts ==> ch in r.contexts
    ensures SameWorld(s, r)
  {
    if c in s.byId && s.byId[c] != ch && s.byId[c] in s.contexts then
      var prior := s.byId[c];
      CloseChannel(s.(contexts := s.contexts[prior := s.contexts[prior].(takenOver := true, session := None)]), prior)
    else s
  }

  function NewSession(s: State, c: Text, clean: bool): (r: State)
    ensures SameWorld(s, r)
  {
    var session := Session(s.nextSession, c, clean);
    s.(sessions := s.sessions[c := session], subs := s.subs[session := []], nextSession := s.nextSession + 1)
  }

  /** The session is then `sessions[c]`: a new one for a clean start, else the stored one if there is one. */
  ghost function GetSession(s: State, c: Text, clean: bool): (r: State)
    ensures c in r.sessions && r.contexts == s.contexts
    ensures SameWorld(s, r)
  {
    if clean then NewSession(if c in s.sessions then DropSession(s, s.sessions[c]) else s, c, true)
    else if c in s.sessions then s
    else NewSession(s, c, false)
  }

  function Drained(o: O.Outbound, queue: seq<OutboxMessage>, now: int): O.Outbound
    decreases |queue|
  {
    if queue == [] then o
    else Drained(O.Deliver(o, queue[0].msg, queue[0].granted, queue[0].retained, true, now, true), queue[1..], now)
  }

  /** Binds the client to its session and answers; a resumed session first gets what was queued for it. */
  function Established(s: State, ch: ChannelId, c: Text, cp: ConnectPacket, resumed: bool): (r: State)
    requires ch in s.contexts && c in s.sessions
    ensures SameWorld(s, r)
  {
    var session := s.sessions[c];
    var out := O.Emit(s.contexts[ch].out, O.Connack(resumed, 0), s.clock);
    var ctx := s.contexts[ch].(
      session := Some(session), clientId := c, connected := true, cleanDisconnect := false,
      takenOver := false, will := cp.will,
      out := if resumed then Drained(out, QueueOf(s.queues, session), s.clock) else out);
    s.(contexts := s.contexts[ch := ctx], byId := s.byId[c := ch],
       queues := if resumed then s.queues - {session} else s.queues)
  }

  ghost function Accepted(s: State, ch: ChannelId, c: Text, cp: ConnectPacket): (r: State)
    requires ch in s.contexts
    ensures SameWorld(s, r)
  {
    var s1 := TakeOver(s, c, ch);
    Established(GetSession(s1, c, cp.clean), ch, c, cp, c in s1.sessions && !cp.clean)
  }

  /** The id of the client: its own, or a generated one. */
  function IdFor(s: State, cp: ConnectPacket): (id: Text)
    ensures id != []
  {
    if cp.clientId == [] then AutoId(s.autoSeq + 1) else cp.clientId
  }

  /** Generating an id uses up a number, and changes nothing else. */
  function Numbered(s: State, cp: ConnectPacket): (r: State)
    ensures r == s.(autoSeq := r.autoSeq) && SameWorld(s, r)
  {
    if cp.clientId == [] then s.(autoSeq := s.autoSeq + 1) else s
  }

  /** A first CONNECT of the right protocol. */
  ghost function Answered(s: State, ch: ChannelId, cp: ConnectPacket): (r: State)
    requires ch in s.contexts
    ensures SameWorld(s, r)
  {
    match Refusal(s, cp)
    case Some(code) => CloseChannel(SendTo(s, ch, O.Connack(false, code)), ch)
    case None => Accepted(Numbered(s, cp), ch, IdFor(s, cp), cp)
  }

  ghost function OnConnect(s: State, ch: ChannelId, cp: ConnectPacket): (r: State)
    requires ch in s.contexts
    ensures SameWorld(s, r)
  {
    if s.contexts[ch].connected || cp.protocol != MQTT then CloseChannel(s, ch) else Answered(s, ch, cp)
  }

  // ----- PUBLISH -----

  function AckFor(qos: Qos, pid: nat): O.Packet
    requires qos > AT_MOST_ONCE
  {
    if qos == AT_LEAST_ONCE then O.Puback(pid) else O.Pubrec(pid)
  }

  function Acknowledge(s: State, ch: ChannelId, qos: Qos, pid: nat): (r: State)
    requires ch in s.contexts
    ensures SameWorld(s, r)
  {
    if qos == AT_MOST_ONCE then s else SendTo(s, ch, AckFor(qos, pid))
  }

  predicate AlreadyReceived(ctx: Context, pub: PublishPacket) {
    || (pub.qos == AT_LEAST_ONCE && pub.packetId in ctx.awaitingPuback)
    || (pub.qos == EXACTLY_ONCE && pub.packetId in ctx.awaitingPubrel)
  }

  function PublishedMessage(ctx: Context, pub: PublishPacket): Message {
    Message(pub.topic, pub.payload, pub.qos, pub.retain, ctx.clientId)
  }

  function Remember(ctx: Context, pub: PublishPacket): Context {
    if pub.qos == AT_LEAST_ONCE then
      ctx.(awaitingPuback := ctx.awaitingPuback[pub.packetId := pub.topic])
    else if pub.qos == EXACTLY_ONCE then
      ctx.(awaitingPubrel := ctx.awaitingPubrel[pub.packetId := PublishedMessage(ctx, pub)])
    else ctx
  }

  /** A PUBLISH seen for the first time: retained, and routed unless it waits for its PUBREL. */
  ghost function PublishNew(s: State, ch: ChannelId, pub: PublishPacket): (r: State)
    requires ch in s.contexts
    ensures ch in r.contexts
    ensures SameWorld(s, r)
  {
    var msg := PublishedMessage(s.contexts[ch], pub);
    var s1 := SetContext(s, ch, Remember(s.contexts[ch], pub));
    if pub.retain && pub.payload == [] then s1.(retained := R.Cleared(s1.retained, pub.topic))
    else
      var s2 := if pub.retain then s1.(retained := R.Stored(s1.retained, msg)) else s1;
      if pub.qos != EXACTLY_ONCE then Route(s2, msg) else s2
  }

  ghost function OnPublish(s: State, ch: ChannelId, pub: PublishPacket): (r: State)
    requires ch in s.contexts
    ensures SameWorld(s, r)
  {
    if !s.contexts[ch].connected || !T.ValidName(pub.topic) then CloseChannel(s, ch)
    else if AlreadyReceived(s.contexts[ch], pub) then Acknowledge(s, ch, pub.qos, pub.packetId)
    else Acknowledge(PublishNew(s, ch, pub), ch, pub.qos, pub.packetId)
  }

  // ----- SUBSCRIBE and UNSUBSCRIBE -----

  /** Subscribing changes neither bindings, sessions, queues nor retained messages. */
  ghost predicate SameRegistry(s: State, r: State) {
    r.byId == s.byId && r.sessions == s.sessions && r.queues == s.queues && r.retained == s.retained
  }

  const SUBSCRIBE_FAILURE: byte := 0x80

  /** The subscription list after subscribing: the QoS of a known filter changes, a new one is appended. */
  function Subscribed(subs: seq<Subscription>, sub: Subscription): seq<Subscription> {
    if subs == [] then [sub]
    else if subs[0].filter == sub.filter then [sub] + subs[1..]
    else [subs[0]] + Subscribed(subs[1..], sub)
  }

  function Unsubscribed(subs: seq<Subscription>, filter: Text): seq<Subscription> {
    if subs == [] then []
    else if subs[0].filter == filter then Unsubscribed(subs[1..], filter)
    else [subs[0]] + Unsubscribed(subs[1..], filter)
  }

  /** Every retained message whose topic matches, in stored order. */
  function WithRetained(o: O.Outbound, retained: seq<Message>, sub: Subscription, now: int): O.Outbound
    decreases |retained|
  {
    if retained == [] then o
    else
      var o' := if T.Matches(sub.filter, retained[0].topic)
                then O.Deliver(o, retained[0], sub.qos, true, false, now, true) else o;
      WithRetained(o', retained[1..], sub, now)
  }

  ghost function SubscribeOne(s: State, ch: ChannelId, session: Session, sub: Subscription): (r: State)
    requires ch in s.contexts && session in s.subs
    ensures SameWorld(s, r)
  {
    if !T.ValidFilter(sub.filter) then s
    else
      var ctx := s.contexts[ch];
      s.(entries := s.entries[Key(session, sub.filter) := sub.qos],
         subs := s.subs[session := Subscribed(s.subs[session], sub)],
         contexts := s.contexts[ch := ctx.(out := WithRetained(ctx.out, s.retained, sub, s.clock))])
  }

  ghost function SubscribeAll(s: State, ch: ChannelId, session: Session, wanted: seq<Subscription>): (r: State)
    requires ch in s.contexts && session in s.subs
    ensures ch in r.contexts && SameRegistry(s, r)
    ensures SameWorld(s, r)
    decreases |wanted|
  {
    if wanted == [] then s
    else SubscribeAll(SubscribeOne(s, ch, session, wanted[0]), ch, session, wanted[1..])
  }

  ghost function GrantCode(sub: Subscription): byte {
    if T.ValidFilter(sub.filter) then sub.qos else SUBSCRIBE_FAILURE
  }

  ghost function GrantCodes(wanted: seq<Subscription>): seq<byte> {
    seq(|wanted|, i requires 0 <= i < |wanted| => GrantCode(wanted[i]))
  }

  /** The session object behind a context, if it still exists. */
  ghost function SessionOf(s: State, ch: ChannelId): (r: Option<Session>)
    requires ch in s.contexts
  {
    var session := s.contexts[ch].session;
    if session.Some? && Live(s.sessions, session.value) && session.value in s.subs then session else None
  }

  /** A connected context always has its session, so it does not matter when in the loop that is checked. */
  ghost function OnSubscribe(s: State, ch: ChannelId, packetId: nat, wanted: seq<Subscription>): (r: State)
    requires ch in s.contexts
    ensures SameWorld(s, r)
  {
    if !s.contexts[ch].connected || wanted == [] || SessionOf(s, ch).None? then CloseChannel(s, ch)
    else SendTo(SubscribeAll(s, ch, SessionOf(s, ch).value, wanted), ch, O.Suback(packetId, GrantCodes(wanted)))
  }

  function UnsubscribeAll(s: State, session: Session, filters: seq<Text>): (r: State)
    requires session in s.subs
    ensures r.contexts == s.contexts && SameRegistry(s, r)
    ensures SameWorld(s, r)
    decreases |filters|
  {
    if filters == [] then s
    else
      var s' := s.(entries := s.entries - {Key(session, filters[0])},
                   subs := s.subs[session := Unsubscribed(s.subs[session], filters[0])]);
      UnsubscribeAll(s', session, filters[1..])
  }

  ghost function OnUnsubscribe(s: State, ch: ChannelId, packetId: nat, filters: seq<Text>): (r: State)
    requires ch in s.contexts
    ensures SameWorld(s, r)
  {
    if !s.contexts[ch].connected || filters == [] || SessionOf(s, ch).None? then CloseChannel(s, ch)
    else SendTo(UnsubscribeAll(s, SessionOf(s, ch).value, filters), ch, O.Unsuback(packetId))
  }

  // ----- Acknowledgements, PINGREQ, DISCONNECT, time -----

  /** PUBREL: the held message is routed and forgotten. */
  ghost function ReleaseHeld(s: State, ch: ChannelId, pid: nat): (r: State)
    requires ch in s.contexts
    ensures ch in r.contexts
    ensures SameWorld(s, r)
  {
    if pid !in s.contexts[ch].awaitingPubrel then s
    else
      var s1 := Route(s, s.contexts[ch].awaitingPubrel[pid]);
      SetContext(s1, ch, s1.contexts[ch].(awaitingPubrel := s1.contexts[ch].awaitingPubrel - {pid}))
  }

  ghost function OnAck(s: State, ch: ChannelId, kind: AckKind, pid: nat): (r: State)
    requires ch in s.contexts
    ensures SameWorld(s, r)
  {
    var ctx := s.contexts[ch];
    if !ctx.connected then CloseChannel(s, ch)
    else match kind
      case PubackAck =>
        SetContext(s, ch, ctx.(awaitingPuback := ctx.awaitingPuback - {pid}, out := O.Forget(ctx.out, pid)))
      case PubrecAck => SetContext(s, ch, ctx.(out := O.Release(ctx.out, pid, s.clock)))
      case PubrelAck => SendTo(ReleaseHeld(s, ch, pid), ch, O.Pubcomp(pid))
      case PubcompAck => SetContext(s, ch, ctx.(out := O.Forget(ctx.out, pid)))
  }

  ghost function OnPing(s: State, ch: ChannelId): (r: State)
    requires ch in s.contexts
    ensures SameWorld(s, r)
  {
    if s.contexts[ch].connected then SendTo(s, ch, O.Pingresp) else CloseChannel(s, ch)
  }

  ghost function OnRetry(s: State, ch: ChannelId, order: seq<nat>, tick: nat): (r: State)
    requires ch in s.contexts
    ensures SameWorld(s, r)
  {
    var ctx := s.contexts[ch];
    var (out, giveUp) := O.Retry(ctx.out, order, ctx.connected, tick, s.clock);
    var s1 := SetContext(s, ch, ctx.(out := out));
    if giveUp then CloseChannel(s1, ch) else s1
  }

  ghost function Handle(s: State, ch: ChannelId, input: Input): (r: State)
    requires ch in s.contexts
    ensures SameWorld(s, r)
  {
    match input
    case Connect(cp) => OnConnect(s, ch, cp)
    case Publish(pub) => OnPublish(s, ch, pub)
    case Subscribe(pid, wanted) => OnSubscribe(s, ch, pid, wanted)
    case Unsubscribe(pid, filters) => OnUnsubscribe(s, ch, pid, filters)
    case Ack(kind, pid) => OnAck(s, ch, kind, pid)
    case Ping => OnPing(s, ch)
    case Disconnect => SetContext(s, ch, s.contexts[ch].(cleanDisconnect := true, connected := false))
    case Close => CloseChannel(s, ch)
    case Retry(order, tick) => OnRetry(s, ch, order, tick)
  }

  /** Packets of a channel that is not registered are dropped. */
  ghost function Step(s: State, e: Event): State {
    match e
    case Accept => s.(contexts := s.contexts[s.nextChannel := FRESH], nextChannel := s.nextChannel + 1)
    case Elapse(millis) => s.(clock := s.clock + millis)
    case On(ch, input) => if ch in s.contexts then Handle(s, ch, input) else s
  }

  /**
   What the environment is held to: no CONNECT after a DISCONNECT on the same
   channel; a retransmission check looks at every in-flight message once, at a
   time that has been reached.
   */
  ghost predicate Allowed(s: State, ctx: Context, input: Input) {
    && (input.Connect? && ctx.clientId != [] ==> ctx.connected)
    && (input.Retry? ==>
          && input.tick <= s.clock
          && (forall i, j :: 0 <= i < j < |input.order| ==> input.order[i] != input.order[j])
          && (forall pid :: pid in input.order <==> pid in ctx.out.inflight))
  }

  ghost predicate Admissible(s: State, e: Event) {
    e.On? && e.ch in s.contexts ==> Allowed(s, s.contexts[e.ch], e.input)
  }

  /** `states` is the run that the events cause from an empty broker. */
  ghost predicate IsRun(maxConnections: nat, events: seq<Event>, states: seq<State>) {
    && |states| == |events| + 1
    && states[0] == Init(maxConnections)
    && (forall i {:trigger events[i]} :: 0 <= i < |events| ==>
          Admissible(states[i], events[i]) && states[i + 1] == Step(states[i], events[i]))
  }
}
