/**
 The broker as the program runs it: tables of connections and sessions beside
 the topic tree, the retained messages and the offline queues, all changed in
 place. Every operation is proved to do to `View()` exactly what the
 corresponding function of the state machine does.
 */
module Engine {
  import opened Bytes
  import opened Model
  import opened Broker
  import opened Invariant
  import opened RoutePlan
  import T = Topic
  import O = Outbound
  import R = RetainStore
  import C = ClientContext
  import Tree = TopicTree
  import Box = Outbox

  lemma FilterKeysStep(x: Session, list: seq<Subscription>, i: nat, entries: Entries)
    requires i < |list|
    ensures entries - FilterKeys(x, list[..i + 1]) == entries - FilterKeys(x, list[..i]) - {Key(x, list[i].filter)}
    ensures entries - FilterKeys(x, []) == entries
  {
    var longer, shorter := FilterKeys(x, list[..i + 1]), FilterKeys(x, list[..i]);
    forall k ensures k in longer <==> k in shorter || k == Key(x, list[i].filter) {
      if k in longer {
        var j :| 0 <= j < i + 1 && k == Key(x, list[..i + 1][j].filter);
        if j < i { assert list[..i][j] == list[..i + 1][j]; }
      }
      if k in shorter {
        var j :| 0 <= j < i && k == Key(x, list[..i][j].filter);
        assert list[..i + 1][j] == list[..i][j];
      }
      assert list[..i + 1][i] == list[i];
    }
  }

  // ----- Closing in steps -----

  ghost function Unbound(s: State, ch: ChannelId): State
    requires ch in s.contexts
  {
    var c := s.contexts[ch].clientId;
    if c != [] && c in s.byId && s.byId[c] == ch then s.(byId := s.byId - {c}) else s
  }

  ghost function SessionEnded(s: State, ch: ChannelId): State
    requires ch in s.contexts
  {
    var ctx := s.contexts[ch];
    if ctx.session.Some? && Live(s.sessions, ctx.session.value) && !ctx.takenOver && ctx.session.value.clean
    then DropSession(s, ctx.session.value) else s
  }

  lemma RemoveChannelSteps(s: State, ch: ChannelId)
    requires ch in s.contexts
    ensures
      var s1 := SessionEnded(Unbound(s, ch), ch);
      RemoveChannel(s, ch) == s1.(contexts := s1.contexts - {ch})
  {
  }

  function Marked(s: State, ch: ChannelId): (r: State)
    requires ch in s.contexts
    ensures ch in r.contexts
  {
    SetContext(s, ch, s.contexts[ch].(takenOver := true, session := None))
  }

  // ----- CONNECT in steps -----

  function Resumed(s: State, ch: ChannelId, x: Session): State
    requires ch in s.contexts
  {
    SetContext(s.(queues := s.queues - {x}), ch,
               s.contexts[ch].(out := Drained(s.contexts[ch].out, QueueOf(s.queues, x), s.clock)))
  }

  function Greeted(s: State, ch: ChannelId, c: Text, cp: ConnectPacket, resumed: bool): (r: State)
    requires ch in s.contexts && c in s.sessions
    ensures ch in r.contexts
  {
    var s1 := SetContext(s, ch, C.Attached(s.contexts[ch], c, s.sessions[c], cp.will));
    SendTo(s1.(byId := s1.byId[c := ch]), ch, O.Connack(resumed, 0))
  }

  lemma EstablishedSteps(s: State, ch: ChannelId, c: Text, cp: ConnectPacket, resumed: bool)
    requires ch in s.contexts && c in s.sessions
    ensures Established(s, ch, c, cp, resumed) ==
            if resumed then Resumed(Greeted(s, ch, c, cp, true), ch, s.sessions[c]) else Greeted(s, ch, c, cp, false)
  {
    var s', greeted := Established(s, ch, c, cp, resumed), Greeted(s, ch, c, cp, resumed);
    assert s'.contexts == s.contexts[ch := s'.contexts[ch]];
    assert greeted.contexts == s.contexts[ch := greeted.contexts[ch]];
    if resumed {
      assert Resumed(greeted, ch, s.sessions[c]).contexts == s.contexts[ch := s'.contexts[ch]];
    }
  }

  ghost function Admitted(s: State, ch: ChannelId, c: Text, cp: ConnectPacket): State
    requires ch in s.contexts
  {
    Established(GetSession(s, c, cp.clean), ch, c, cp, c in s.sessions && !cp.clean)
  }

  lemma SetSame(s: State, ch: ChannelId)
    requires ch in s.contexts
    ensures SetContext(s, ch, s.contexts[ch]) == s
  {
    assert s.contexts[ch := s.contexts[ch]] == s.contexts;
  }

  // ----- PUBLISH in steps -----

  ghost function Kept(s: State, msg: Message): State {
    if msg.retain then s.(retained := R.Stored(s.retained, msg)) else s
  }

  ghost function Forwarded(s: State, msg: Message): State {
    if msg.qos != EXACTLY_ONCE then Route(s, msg) else s
  }

  /** What a message does once its identifier is noted. */
  ghost function Noted(s: State, msg: Message): State {
    if msg.retain && msg.payload == [] then s.(retained := R.Cleared(s.retained, msg.topic))
    else Forwarded(Kept(s, msg), msg)
  }

  lemma PublishNewSteps(s: State, ch: ChannelId, pub: PublishPacket)
    requires ch in s.contexts
    ensures PublishNew(s, ch, pub) ==
            Noted(SetContext(s, ch, Remember(s.contexts[ch], pub)), PublishedMessage(s.contexts[ch], pub))
  {
  }

  /** A PUBLISH before its acknowledgement. */
  ghost function Taken(s: State, ch: ChannelId, pub: PublishPacket): (r: State)
    requires ch in s.contexts
    ensures ch in r.contexts
  {
    if AlreadyReceived(s.contexts[ch], pub) then s else PublishNew(s, ch, pub)
  }

  lemma OnPublishSteps(s: State, ch: ChannelId, pub: PublishPacket)
    requires ch in s.contexts
    ensures OnPublish(s, ch, pub) ==
            if !s.contexts[ch].connected || !T.ValidName(pub.topic) then CloseChannel(s, ch)
            else Acknowledge(Taken(s, ch, pub), ch, pub.qos, pub.packetId)
  {
  }

  // ----- SUBSCRIBE and UNSUBSCRIBE in steps -----

  lemma {:induction false} SubscribedAt(list: seq<Subscription>, sub: Subscription, i: nat)
    requires i <= |list| && (forall j :: 0 <= j < i ==> list[j].filter != sub.filter)
    requires i < |list| ==> list[i].filter == sub.filter
    ensures Subscribed(list, sub) == if i < |list| then list[i := sub] else list + [sub]
  {
    if i > 0 {
      SubscribedAt(list[1..], sub, i - 1);
      assert list == [list[0]] + list[1..];
    }
  }

  /** The states that subscribing to one entry after the other goes through. */
  ghost predicate IsPath(path: seq<State>, ch: ChannelId, x: Session, wanted: seq<Subscription>) {
    && |path| == |wanted| + 1
    && forall i {:trigger wanted[i]} :: 0 <= i < |wanted| ==>
         && ch in path[i].contexts && x in path[i].subs
         && path[i + 1] == SubscribeOne(path[i], ch, x, wanted[i])
  }

  lemma {:induction false} SubscribePath(s: State, ch: ChannelId, x: Session, wanted: seq<Subscription>)
    returns (path: seq<State>)
    requires ch in s.contexts && x in s.subs
    ensures IsPath(path, ch, x, wanted) && path[0] == s && path[|wanted|] == SubscribeAll(s, ch, x, wanted)
    decreases |wanted|
  {
    path := [s];
    if wanted != [] {
      var rest := SubscribePath(SubscribeOne(s, ch, x, wanted[0]), ch, x, wanted[1..]);
      path := [s] + rest;
      forall i | 0 < i < |wanted|
        ensures ch in path[i].contexts && x in path[i].subs && path[i + 1] == SubscribeOne(path[i], ch, x, wanted[i])
      {
        assert wanted[1..][i - 1] == wanted[i];
      }
    }
  }

  function UnsubscribedFrom(s: State, x: Session, filter: Text): State
    requires x in s.subs
  {
    s.(entries := s.entries - {Key(x, filter)}, subs := s.subs[x := Unsubscribed(s.subs[x], filter)])
  }

  lemma {:induction false} UnsubscribeAppend(s: State, x: Session, filters: seq<Text>, filter: Text)
    requires x in s.subs
    ensures
      var s1 := UnsubscribeAll(s, x, filters);
      x in s1.subs && UnsubscribeAll(s, x, filters + [filter]) == UnsubscribedFrom(s1, x, filter)
    decreases |filters|
  {
    if filters != [] {
      UnsubscribeAppend(UnsubscribedFrom(s, x, filters[0]), x, filters[1..], filter);
      assert (filters + [filter])[1..] == filters[1..] + [filter];
    }
  }

  lemma UnsubscribeSnoc(s: State, x: Session, filters: seq<Text>, i: nat)
    requires x in s.subs && i < |filters|
    ensures
      var s1 := UnsubscribeAll(s, x, filters[..i]);
      x in s1.subs && UnsubscribeAll(s, x, filters[..i + 1]) == UnsubscribedFrom(s1, x, filters[i])
  {
    UnsubscribeAppend(s, x, filters[..i], filters[i]);
    assert filters[..i + 1] == filters[..i] + [filters[i]];
  }

  lemma NextIsFree(s: State)
    requires Inv(s)
    ensures s.nextChannel !in s.contexts
  {
    forall ch | ch in s.contexts ensures ch != s.nextChannel {
      assert ContextOk(s.contexts, s.byId, s.nextChannel, ch);
    }
  }

  // ----- Views of a run -----

  ghost predicate Tracks(views: seq<State>, run: seq<State>, i: nat) {
    i < |run| && views == run[..i + 1]
  }

  lemma TracksFirst(run: seq<State>)
    requires run != []
    ensures Tracks([run[0]], run, 0)
  {
  }

  lemma TracksNext(views: seq<State>, run: seq<State>, i: nat)
    requires Tracks(views, run, i) && i + 1 < |run|
    ensures Tracks(views + [run[i + 1]], run, i + 1)
  {
  }

  class Engine {
    var byChannel: map<ChannelId, C.ClientContext>
    var byId: map<Text, C.ClientContext>
    var sessions: Sessions
    var subs: Subs
    const topics: Tree.TopicTree
    const retains: R.RetainStore
    const outbox: Box.Outbox
    const maxConnections: nat
    var nextChannel: nat
    var nextSession: nat
    var autoSeq: nat
    var clock: nat

    ghost function ContextTable(): Contexts
      reads this`byChannel, byChannel.Values
    {
      map ch | ch in byChannel :: byChannel[ch].Snap()
    }

    ghost function IdTable(): ById
      reads this`byId
    {
      map c | c in byId :: byId[c].channel
    }

    ghost function View(): State
      reads this, byChannel.Values, topics`entries, retains`messages, outbox
    {
      State(maxConnections, ContextTable(), IdTable(), sessions, subs,
            topics.entries, outbox.queues, retains.messages, nextChannel, nextSession, autoSeq, clock)
    }

    /** Contexts know their channel, and a bound context is a registered one. */
    ghost predicate Tables()
      reads this`byChannel, this`byId
    {
      && (forall ch :: ch in byChannel ==> byChannel[ch].channel == ch)
      && (forall c :: c in byId ==> byId[c].channel in byChannel && byChannel[byId[c].channel] == byId[c])
    }

    ghost predicate Registered(ctx: C.ClientContext)
      reads this`byChannel
    {
      ctx.channel in byChannel && byChannel[ctx.channel] == ctx
    }

    /** The stores are in order. */
    ghost predicate Stores()
      reads topics, topics.repr, retains
    {
      topics.Valid() && retains.Valid()
    }

    ghost predicate Valid()
      reads this`byChannel, this`byId, topics, topics.repr, retains
    {
      Tables() && Stores()
    }

    /** A client id is bound to a context of that id only. */
    ghost predicate Named()
      reads this`byId, byId.Values
    {
      forall c :: c in byId ==> byId[c].clientId == c && c != []
    }

    /** Whatever has joined the engine is new. */
    twostate predicate Within()
      reads this`byChannel, topics`repr
    {
      && topics.Grown()
      && forall ch :: ch in byChannel ==>
           (ch in old(byChannel) && byChannel[ch] == old(byChannel[ch])) || fresh(byChannel[ch])
    }

    constructor (maxConnections: nat)
      ensures Valid() && View() == Init(maxConnections) && byChannel == map[]
      ensures fresh(topics) && fresh(topics.repr) && fresh(retains) && fresh(outbox)
    {
      byChannel, byId, sessions, subs := map[], map[], map[], map[];
      topics := new Tree.TopicTree();
      retains := new R.RetainStore();
      outbox := new Box.Outbox();
      this.maxConnections := maxConnections;
      nextChannel, nextSession, autoSeq, clock := 0, 0, 0, 0;
    }

    // ----- What a change leaves alone -----

    twostate lemma StoresKept()
      requires old(Stores()) && unchanged(topics) && unchanged(topics.repr) && unchanged(retains)
      ensures Stores()
    {
    }

    /** No context and no binding has changed. */
    twostate lemma TablesKept()
      requires old(Tables()) && byChannel == old(byChannel) && byId == old(byId) && unchanged(byChannel.Values)
      ensures Tables() && ContextTable() == old(ContextTable()) && IdTable() == old(IdTable())
    {
    }

    /** One context has changed and nothing else. */
    twostate lemma ContextChanged(ctx: C.ClientContext)
      requires old(Tables()) && old(Stores()) && old(Registered(ctx))
      requires unchanged(this) && unchanged(outbox)
      requires unchanged(topics) && unchanged(topics.repr) && unchanged(retains)
      requires forall ch :: ch in byChannel && byChannel[ch] != ctx ==>
                 byChannel[ch].Snap() == old(byChannel[ch].Snap())
      ensures Tables() && Stores() && View() == SetContext(old(View()), ctx.channel, ctx.Snap())
    {
      StoresKept();
      assert ContextTable() == old(ContextTable())[ctx.channel := ctx.Snap()];
    }

    /** One context has joined the others. */
    twostate lemma ContextAdded(ctx: C.ClientContext)
      requires old(Tables()) && ctx.channel !in old(byChannel) && byId == old(byId)
      requires byChannel == old(byChannel)[ctx.channel := ctx] && unchanged(byChannel.Values)
      ensures Tables() && IdTable() == old(IdTable())
      ensures ContextTable() == old(ContextTable())[ctx.channel := ctx.Snap()]
    {
    }

    twostate lemma BindingErased(c: Text)
      requires old(Tables()) && byId == old(byId) - {c} && byChannel == old(byChannel) && unchanged(byChannel.Values)
      ensures Tables() && ContextTable() == old(ContextTable()) && IdTable() == old(IdTable()) - {c}
    {
    }

    twostate lemma BindingAdded(c: Text)
      requires c in byId && Registered(byId[c]) && byId == old(byId)[c := byId[c]]
      requires old(Tables()) && byChannel == old(byChannel) && unchanged(byChannel.Values)
      ensures Tables() && ContextTable() == old(ContextTable()) && IdTable() == old(IdTable())[c := byId[c].channel]
    {
    }

    /** Nothing at all has changed. */
    twostate lemma Untouched()
      requires old(Tables()) && old(Stores())
      requires unchanged(this) && unchanged(outbox) && unchanged(byChannel.Values)
      requires unchanged(topics) && unchanged(topics.repr) && unchanged(retains)
      ensures Tables() && Stores() && View() == old(View())
    {
      StoresKept();
      TablesKept();
    }

    lemma InvNames()
      requires Tables() && Inv(View())
      ensures Named()
    {
      var s := View();
      forall c | c in byId ensures byId[c].clientId == c && c != [] {
        assert BoundOk(s.contexts, s.byId, s.sessions, c);
      }
    }

    // ----- Routing -----

    method Send(ctx: C.ClientContext, packet: O.Packet, ghost s: State)
      requires Valid() && Registered(ctx) && View() == s
      modifies ctx`log
      ensures Valid() && View() == SendTo(s, ctx.channel, packet)
    {
      ctx.Send(packet, clock, 0);
      ContextChanged(ctx);
    }

    method Deliver(ctx: C.ClientContext, msg: Message, granted: Qos, ghost s: State)
      requires Valid() && Registered(ctx) && View() == s
      modifies ctx
      ensures Valid()
      ensures
        var c := s.contexts[ctx.channel];
        View() == SetContext(s, ctx.channel, c.(out := O.Deliver(c.out, msg, granted, false, false, s.clock, true)))
    {
      ctx.Deliver(msg, granted, false, false, clock);
      ContextChanged(ctx);
    }

    method Enqueue(x: Session, msg: Message, q: Qos, ghost s: State)
      requires Valid() && View() == s && q > AT_MOST_ONCE
      modifies outbox
      ensures Valid()
      ensures View() == s.(queues := s.queues[x := Box.Pushed(QueueOf(s.queues, x), Box.OutboxMessage(msg, q, false))])
    {
      outbox.Enqueue(x, msg, q, false);
      TablesKept();
      StoresKept();
    }

    method DeliverOnline(msg: Message, c: Text, q: Qos, ghost x: Session, ghost s: State)
      requires Valid() && View() == s && c in byId && byId[c].connected
      modifies byChannel.Values
      ensures Valid() && View() == RouteOne(s, msg, c, x, q)
    {
      Deliver(byId[c], msg, q, s);
    }

    method KeepOffline(msg: Message, ghost c: Text, x: Session, q: Qos, ghost s: State)
      requires Valid() && View() == s && !(c in byId && byId[c].connected)
      modifies outbox
      ensures Valid() && View() == RouteOne(s, msg, c, x, q)
    {
      if !x.clean && q > AT_MOST_ONCE { Enqueue(x, msg, q, s); }
    }

    method RouteTo(msg: Message, c: Text, x: Session, q: Qos, ghost s: State)
      requires Valid() && View() == s
      modifies byChannel.Values, outbox
      ensures Valid() && View() == RouteOne(s, msg, c, x, q)
    {
      if c in byId && byId[c].connected {
        DeliverOnline(msg, c, q, x, s);
      } else {
        KeepOffline(msg, c, x, q, s);
      }
    }

    /** The fold over the matches: per client the highest of its capped QoS levels. */
    method BestQos(found: seq<Match>, msg: Message) returns (best: map<Text, Qos>, owner: map<Text, Session>)
      ensures Tally(found, |found|, sessions, msg, best)
      ensures forall c :: c in best ==> c in owner && owner[c].clientId == c && Live(sessions, owner[c])
    {
      best, owner := map[], map[];
      for i := 0 to |found|
        invariant Tally(found, i, sessions, msg, best)
        invariant forall c :: c in best ==> c in owner && owner[c].clientId == c && Live(sessions, owner[c])
      {
        TallyStep(found, i, sessions, msg, best);
        var x := found[i].session;
        if Live(sessions, x) {
          var effective := if found[i].qos < msg.qos then found[i].qos else msg.qos;
          var q := if x.clientId in best then best[x.clientId] else AT_MOST_ONCE;
          if effective > q { q := effective; }
          best := best[x.clientId := q];
          owner := owner[x.clientId := x];
        }
      }
    }

    method MakePlan(msg: Message) returns (best: map<Text, Qos>, owner: map<Text, Session>)
      requires Valid()
      ensures Plan(View(), msg, best, owner)
    {
      var found := topics.FindMatches(msg.topic);
      best, owner := BestQos(found, msg);
      TallyIsPlan(View(), msg, found, best, owner);
    }

    /** Reaches one of the clients that are still to be reached. */
    method RouteNext(msg: Message, best: map<Text, Qos>, owner: map<Text, Session>, pending: set<Text>, ghost s: State)
      returns (rest: set<Text>)
      requires Valid() && Inv(s) && Plan(s, msg, best, owner) && pending != {} && pending <= best.Keys
      requires View() == Part(s, msg, best.Keys - pending)
      modifies byChannel.Values, outbox
      ensures Valid() && rest < pending && View() == Part(s, msg, best.Keys - rest)
    {
      var c :| c in pending;
      PlanStep(s, msg, best, owner, pending, c);
      RouteTo(msg, c, owner[c], best[c], Part(s, msg, best.Keys - pending));
      rest := pending - {c};
    }

    /** Reaches the clients one after the other, in any order. */
    method Distribute(msg: Message, best: map<Text, Qos>, owner: map<Text, Session>, ghost s: State)
      requires Valid() && Inv(s) && View() == s && Plan(s, msg, best, owner)
      modifies byChannel.Values, outbox
      ensures Valid() && View() == Broker.Route(s, msg)
    {
      var pending := best.Keys;
      PlanStart(s, msg, pending);
      while pending != {}
        invariant Valid() && pending <= best.Keys
        invariant View() == Part(s, msg, best.Keys - pending)
      {
        pending := RouteNext(msg, best, owner, pending, s);
      }
      PlanDone(s, msg, best, owner);
    }

    method Route(msg: Message, ghost s: State)
      requires Valid() && Inv(s) && View() == s
      modifies byChannel.Values, outbox
      ensures Valid() && View() == Broker.Route(s, msg)
    {
      var best, owner := MakePlan(msg);
      Untouched();
      Distribute(msg, best, owner, s);
    }

    // ----- Sessions and channels -----

    method RemoveEntry(x: Session, filter: Text, ghost s: State)
      requires Valid() && View() == s
      modifies topics, topics.repr
      ensures Valid() && topics.repr == old(topics.repr)
      ensures View() == s.(entries := s.entries - {Key(x, filter)})
    {
      topics.Remove(x, filter);
      TablesKept();
    }

    /** Takes the filters of a subscription list out of the topic tree, one by one. */
    method RemoveEntries(x: Session, list: seq<Subscription>, ghost s: State)
      requires Valid() && View() == s
      modifies topics, topics.repr
      ensures Valid() && topics.repr == old(topics.repr)
      ensures View() == s.(entries := s.entries - FilterKeys(x, list))
    {
      for i := 0 to |list|
        invariant Valid() && topics.repr == old(topics.repr)
        invariant View() == s.(entries := s.entries - FilterKeys(x, list[..i]))
      {
        FilterKeysStep(x, list, i, s.entries);
        RemoveEntry(x, list[i].filter, s.(entries := s.entries - FilterKeys(x, list[..i])));
      }
      assert list[..|list|] == list;
    }

    method ForgetSession(x: Session, ghost s: State)
      requires Valid() && View() == s
      modifies this`sessions, this`subs
      ensures Valid() && View() == s.(sessions := s.sessions - {x.clientId}, subs := s.subs - {x})
    {
      sessions := sessions - {x.clientId};
      subs := subs - {x};
      TablesKept();
      StoresKept();
    }

    method ForgetQueue(x: Session, ghost s: State)
      requires Valid() && View() == s
      modifies outbox
      ensures Valid() && View() == s.(queues := s.queues - {x})
    {
      outbox.Clear(x);
      TablesKept();
      StoresKept();
    }

    method DropSession(x: Session, ghost s: State)
      requires Valid() && View() == s
      modifies this`sessions, this`subs, topics, topics.repr, outbox
      ensures Valid() && View() == Broker.DropSession(s, x) && topics.repr == old(topics.repr)
    {
      RemoveEntries(x, if x in subs then subs[x] else [], s);
      ForgetSession(x, View());
      ForgetQueue(x, View());
    }

    method EraseId(c: Text, ghost s: State)
      requires Valid() && View() == s && c in byId
      modifies this`byId
      ensures Valid() && byId == old(byId) - {c} && View() == s.(byId := s.byId - {c})
    {
      byId := byId - {c};
      StoresKept();
      BindingErased(c);
    }

    /** Forgets a context that no id leads to. */
    method EraseChannel(ctx: C.ClientContext, ghost s: State)
      requires Valid() && Registered(ctx) && View() == s
      requires forall c :: c in byId ==> byId[c] != ctx
      modifies this`byChannel
      ensures Valid() && byChannel == old(byChannel) - {ctx.channel}
      ensures View() == s.(contexts := s.contexts - {ctx.channel})
    {
      byChannel := byChannel - {ctx.channel};
      StoresKept();
      assert ContextTable() == s.contexts - {ctx.channel};
    }

    lemma BoundHere(ctx: C.ClientContext, s: State)
      requires Tables() && Registered(ctx) && View() == s
      ensures s.contexts[ctx.channel].clientId == ctx.clientId
      ensures ctx.clientId in byId && byId[ctx.clientId] == ctx <==>
              ctx.clientId in s.byId && s.byId[ctx.clientId] == ctx.channel
    {
    }

    method Unbind(ctx: C.ClientContext, ghost s: State)
      requires Valid() && Named() && Registered(ctx) && View() == s
      modifies this`byId
      ensures Valid() && View() == Unbound(s, ctx.channel)
      ensures forall c :: c in byId ==> byId[c] != ctx
    {
      BoundHere(ctx, s);
      if ctx.clientId != [] && ctx.clientId in byId && byId[ctx.clientId] == ctx {
        EraseId(ctx.clientId, s);
      }
    }

    /** A clean session ends with its connection, unless another connection took it over. */
    method EndSession(ctx: C.ClientContext, ghost s: State)
      requires Valid() && Registered(ctx) && View() == s
      modifies this`sessions, this`subs, topics, topics.repr, outbox
      ensures Valid() && View() == SessionEnded(s, ctx.channel) && topics.repr == old(topics.repr)
    {
      if ctx.session.Some? && Live(sessions, ctx.session.value) && !ctx.takenOver && ctx.session.value.clean {
        DropSession(ctx.session.value, s);
      }
    }

    method Detach(ctx: C.ClientContext, ghost s: State)
      requires Valid() && Named() && Registered(ctx) && View() == s
      modifies this`byId, this`sessions, this`subs, topics, topics.repr, outbox
      ensures Valid() && View() == SessionEnded(Unbound(s, ctx.channel), ctx.channel)
      ensures topics.repr == old(topics.repr) && forall c :: c in byId ==> byId[c] != ctx
    {
      Unbind(ctx, s);
      EndSession(ctx, Unbound(s, ctx.channel));
    }

    method RemoveChannel(ctx: C.ClientContext, ghost s: State)
      requires Valid() && Named() && Registered(ctx) && View() == s
      modifies this, topics, topics.repr, outbox
      ensures Valid() && View() == Broker.RemoveChannel(s, ctx.channel) && topics.repr == old(topics.repr)
      ensures byChannel == old(byChannel) - {ctx.channel}
    {
      RemoveChannelSteps(s, ctx.channel);
      Detach(ctx, s);
      EraseChannel(ctx, SessionEnded(Unbound(s, ctx.channel), ctx.channel));
    }

    // ----- Wills and closing -----

    method StoreRetained(msg: Message, ghost s: State)
      requires Valid() && View() == s
      modifies retains
      ensures Valid() && View() == s.(retained := R.Stored(s.retained, msg))
    {
      retains.Store(msg.topic, msg);
      TablesKept();
    }

    method ClearRetained(topic: Text, ghost s: State)
      requires Valid() && View() == s
      modifies retains
      ensures Valid() && View() == s.(retained := R.Cleared(s.retained, topic))
    {
      retains.Clear(topic);
      TablesKept();
    }

    method Keep(msg: Message, ghost s: State)
      requires Valid() && View() == s
      modifies retains
      ensures Valid() && View() == Kept(s, msg)
    {
      if msg.retain { StoreRetained(msg, s); }
    }

    method PublishWill(ctx: C.ClientContext, ghost s: State)
      requires Valid() && Inv(s) && Registered(ctx) && View() == s
      modifies byChannel.Values, retains, outbox
      ensures Valid() && View() == Broker.PublishWill(s, s.contexts[ctx.channel])
    {
      var msg := WillMessage(ctx.Snap());
      InvRetained(s, msg, []);
      Keep(msg, s);
      Route(msg, Kept(s, msg));
    }

    /** The connection ended: its will is published if it is due, then everything it held is released. */
    method CloseChannel(ctx: C.ClientContext, ghost s: State)
      requires Valid() && Named() && Registered(ctx) && View() == s
      requires PublishesWill(s.contexts[ctx.channel]) ==> Inv(s)
      modifies this, byChannel.Values, topics, topics.repr, retains, outbox
      ensures Valid() && View() == Broker.CloseChannel(s, ctx.channel) && topics.repr == old(topics.repr)
      ensures byChannel == old(byChannel) - {ctx.channel}
    {
      ghost var c := s.contexts[ctx.channel];
      if ctx.connected && !ctx.cleanDisconnect && !ctx.takenOver && ctx.will.valid {
        InvPublishWill(s, c);
        PublishWill(ctx, s);
        InvNames();
        RemoveChannel(ctx, Broker.PublishWill(s, c));
      } else {
        RemoveChannel(ctx, s);
      }
    }

    /** The end of a channel, whoever asks for it. */
    method Close(client: C.ClientContext, ghost s: State)
      requires Valid() && Inv(s) && Registered(client) && View() == s
      modifies this, byChannel.Values, topics, topics.repr, retains, outbox
      ensures Valid() && View() == Broker.CloseChannel(s, client.channel) && Within()
    {
      InvNames();
      CloseChannel(client, s);
    }

    // ----- CONNECT -----

    method MarkTakenOver(ctx: C.ClientContext, ghost s: State)
      requires Valid() && Named() && Registered(ctx) && View() == s
      modifies ctx`takenOver, ctx`session
      ensures Valid() && Named() && View() == Marked(s, ctx.channel)
    {
      ctx.TakeOver();
      ContextChanged(ctx);
    }

    method TakeFrom(prior: C.ClientContext, c: Text, client: C.ClientContext, ghost s: State)
      requires Valid() && Named() && Registered(client) && View() == s && c in byId && byId[c] == prior != client
      modifies this, byChannel.Values, topics, topics.repr, retains, outbox
      ensures Valid() && View() == Broker.TakeOver(s, c, client.channel) && topics.repr == old(topics.repr)
      ensures byChannel == old(byChannel) - {prior.channel}
    {
      MarkTakenOver(prior, s);
      CloseChannel(prior, Marked(s, prior.channel));
    }

    /** The connection that holds the id is closed without will and without losing the session. */
    method TakeOver(c: Text, client: C.ClientContext, ghost s: State)
      requires Valid() && Named() && Registered(client) && View() == s
      modifies this, byChannel.Values, topics, topics.repr, retains, outbox
      ensures Valid() && View() == Broker.TakeOver(s, c, client.channel) && topics.repr == old(topics.repr)
      ensures Registered(client)
      ensures forall ch :: ch in byChannel ==> ch in old(byChannel) && byChannel[ch] == old(byChannel[ch])
    {
      if c in byId && byId[c] != client {
        TakeFrom(byId[c], c, client, s);
      }
    }

    method NextSession(ghost s: State) returns (id: nat)
      requires Valid() && View() == s
      modifies this`nextSession
      ensures Valid() && id == s.nextSession && View() == s.(nextSession := s.nextSession + 1)
    {
      id := nextSession;
      nextSession := nextSession + 1;
      TablesKept();
      StoresKept();
    }

    method AddSession(x: Session, ghost s: State)
      requires Valid() && View() == s
      modifies this`sessions, this`subs
      ensures Valid() && View() == s.(sessions := s.sessions[x.clientId := x], subs := s.subs[x := []])
    {
      sessions := sessions[x.clientId := x];
      subs := subs[x := []];
      TablesKept();
      StoresKept();
    }

    method NewSession(c: Text, clean: bool, ghost s: State)
      requires Valid() && View() == s
      modifies this`sessions, this`subs, this`nextSession
      ensures Valid() && View() == Broker.NewSession(s, c, clean)
    {
      var id := NextSession(s);
      AddSession(Session(id, c, clean), s.(nextSession := s.nextSession + 1));
    }

    /** A clean start: whatever session the client had is dropped. */
    method CleanSession(c: Text, ghost s: State)
      requires Valid() && View() == s
      modifies this`sessions, this`subs, this`nextSession, topics, topics.repr, outbox
      ensures Valid() && View() == Broker.GetSession(s, c, true) && topics.repr == old(topics.repr)
    {
      if c in sessions {
        DropSession(sessions[c], s);
        NewSession(c, true, Broker.DropSession(s, s.sessions[c]));
      } else {
        NewSession(c, true, s);
      }
    }

    /** Afterwards the session stands in the table under the client id. */
    method GetSession(c: Text, clean: bool, ghost s: State)
      requires Valid() && View() == s
      modifies this`sessions, this`subs, this`nextSession, topics, topics.repr, outbox
      ensures Valid() && View() == Broker.GetSession(s, c, clean) && topics.repr == old(topics.repr)
    {
      if clean {
        CleanSession(c, s);
      } else if c !in sessions {
        NewSession(c, false, s);
      }
    }

    method BindId(c: Text, client: C.ClientContext, ghost s: State)
      requires Valid() && Registered(client) && View() == s
      modifies this`byId
      ensures Valid() && View() == s.(byId := s.byId[c := client.channel])
    {
      byId := byId[c := client];
      StoresKept();
      BindingAdded(c);
    }

    /** The context takes on its client and session. */
    method Attach(client: C.ClientContext, c: Text, x: Session, will: Will, ghost s: State)
      requires Valid() && Registered(client) && View() == s
      modifies client
      ensures Valid()
      ensures View() == SetContext(s, client.channel, C.Attached(s.contexts[client.channel], c, x, will))
    {
      client.Attach(x, c, will);
      ContextChanged(client);
    }

    method TakeQueue(x: Session, ghost s: State) returns (queue: seq<Box.OutboxMessage>)
      requires Valid() && View() == s
      modifies outbox
      ensures Valid() && queue == QueueOf(s.queues, x) && View() == s.(queues := s.queues - {x})
    {
      queue := outbox.Drain(x);
      TablesKept();
      StoresKept();
    }

    /** Sends what was queued, oldest first. */
    method Replay(client: C.ClientContext, queue: seq<Box.OutboxMessage>, ghost s: State)
      requires Valid() && Registered(client) && View() == s
      modifies client
      ensures Valid()
      ensures
        var ctx := s.contexts[client.channel];
        View() == SetContext(s, client.channel, ctx.(out := Drained(ctx.out, queue, s.clock)))
    {
      client.Replay(queue, clock);
      ContextChanged(client);
    }

    method Resume(client: C.ClientContext, x: Session, ghost s: State)
      requires Valid() && Registered(client) && View() == s
      modifies client, outbox
      ensures Valid() && View() == Resumed(s, client.channel, x)
    {
      var queue := TakeQueue(x, s);
      Replay(client, queue, s.(queues := s.queues - {x}));
    }

    method Greet(client: C.ClientContext, c: Text, x: Session, cp: ConnectPacket, resumed: bool, ghost s: State)
      requires Valid() && Registered(client) && View() == s && c in s.sessions && s.sessions[c] == x
      modifies client, this`byId
      ensures Valid() && View() == Greeted(s, client.channel, c, cp, resumed)
    {
      ghost var s1 := SetContext(s, client.channel, C.Attached(s.contexts[client.channel], c, x, cp.will));
      Attach(client, c, x, cp.will, s);
      BindId(c, client, s1);
      Send(client, O.Connack(resumed, 0), s1.(byId := s1.byId[c := client.channel]));
    }

    method Establish(client: C.ClientContext, c: Text, cp: ConnectPacket, x: Session, resumed: bool, ghost s: State)
      requires Valid() && Registered(client) && View() == s && c in s.sessions && s.sessions[c] == x
      modifies client, this`byId, outbox
      ensures Valid() && View() == Established(s, client.channel, c, cp, resumed)
    {
      EstablishedSteps(s, client.channel, c, cp, resumed);
      Greet(client, c, x, cp, resumed, s);
      if resumed { Resume(client, x, Greeted(s, client.channel, c, cp, true)); }
    }

    /** The session is there; the connection is bound to it and answered. */
    method EstablishIn(client: C.ClientContext, c: Text, cp: ConnectPacket, existed: bool, ghost s: State)
      requires Valid() && Registered(client) && client.channel in s.contexts && existed == (c in s.sessions)
      requires View() == Broker.GetSession(s, c, cp.clean)
      modifies client, this`byId, outbox
      ensures Valid() && View() == Admitted(s, client.channel, c, cp)
    {
      Establish(client, c, cp, sessions[c], existed && !cp.clean, Broker.GetSession(s, c, cp.clean));
    }

    method AdmitTo(client: C.ClientContext, c: Text, cp: ConnectPacket, existed: bool, ghost s: State)
      requires Valid() && Registered(client) && View() == s && existed == (c in s.sessions)
      modifies this`byId, this`sessions, this`subs, this`nextSession, client, topics, topics.repr, outbox
      ensures Valid() && topics.repr == old(topics.repr)
      ensures View() == Admitted(s, client.channel, c, cp)
    {
      GetSession(c, cp.clean, s);
      EstablishIn(client, c, cp, existed, s);
    }

    method Admit(client: C.ClientContext, c: Text, cp: ConnectPacket, ghost s: State)
      requires Valid() && Registered(client) && View() == s
      modifies this`byId, this`sessions, this`subs, this`nextSession, client, topics, topics.repr, outbox
      ensures Valid() && topics.repr == old(topics.repr)
      ensures View() == Admitted(s, client.channel, c, cp)
    {
      AdmitTo(client, c, cp, c in sessions, s);
    }

    method Accept(client: C.ClientContext, c: Text, cp: ConnectPacket, ghost s: State)
      requires Valid() && Named() && Registered(client) && View() == s
      modifies this, byChannel.Values, topics, topics.repr, retains, outbox
      ensures Valid() && View() == Admitted(Broker.TakeOver(s, c, client.channel), client.channel, c, cp) && Within()
    {
      TakeOver(c, client, s);
      Admit(client, c, cp, Broker.TakeOver(s, c, client.channel));
    }

    method Reject(client: C.ClientContext, code: byte, ghost s: State)
      requires Valid() && Inv(s) && Registered(client) && View() == s
      modifies this, byChannel.Values, topics, topics.repr, retains, outbox
      ensures Valid() && Within()
      ensures View() == Broker.CloseChannel(SendTo(s, client.channel, O.Connack(false, code)), client.channel)
    {
      InvSendTo(s, client.channel, O.Connack(false, code));
      Send(client, O.Connack(false, code), s);
      Close(client, SendTo(s, client.channel, O.Connack(false, code)));
    }

    /** The id of the client; an empty one is replaced by a generated one. */
    method ChooseId(cp: ConnectPacket, ghost s: State) returns (c: Text)
      requires Valid() && Named() && View() == s
      modifies this`autoSeq
      ensures Valid() && Named() && c == IdFor(s, cp) && View() == Numbered(s, cp)
    {
      c := cp.clientId;
      if c == [] {
        autoSeq := autoSeq + 1;
        c := AutoId(autoSeq);
      }
      TablesKept();
      StoresKept();
    }

    /** The return code of the CONNACK, if it is not acceptance. */
    method CheckConnect(cp: ConnectPacket) returns (code: Option<byte>)
      ensures code == Refusal(View(), cp)
      ensures code == if |byChannel| >= maxConnections then Some(3)
                      else if cp.level != 4 then Some(1)
                      else if (cp.clientId == [] && !cp.clean) || |cp.clientId| > 23 then Some(2) else None
    {
      assert |View().contexts| == |byChannel| by { assert View().contexts.Keys == byChannel.Keys; }
      if |byChannel| >= maxConnections { return Some(SERVER_UNAVAILABLE); }
      if cp.level != PROTOCOL_LEVEL { return Some(BAD_PROTOCOL_VERSION); }
      if cp.clientId == [] {
        if !cp.clean { return Some(ID_REJECTED); }
      } else if |cp.clientId| > MAX_CLIENT_ID {
        return Some(ID_REJECTED);
      }
      return None;
    }

    method AcceptNumbered(client: C.ClientContext, cp: ConnectPacket, ghost s: State)
      requires Valid() && Named() && Registered(client) && View() == s
      modifies this, byChannel.Values, topics, topics.repr, retains, outbox
      ensures Valid() && Within() && View() == Accepted(Numbered(s, cp), client.channel, IdFor(s, cp), cp)
    {
      var c := ChooseId(cp, s);
      Accept(client, c, cp, Numbered(s, cp));
    }

    /** A first CONNECT of the right protocol. */
    method Answer(client: C.ClientContext, cp: ConnectPacket, code: Option<byte>, ghost s: State)
      requires Valid() && Inv(s) && Registered(client) && View() == s && code == Refusal(s, cp)
      modifies this, byChannel.Values, topics, topics.repr, retains, outbox
      ensures Valid() && View() == Answered(s, client.channel, cp) && Within()
    {
      if code.Some? {
        Reject(client, code.value, s);
      } else {
        InvNames();
        AcceptNumbered(client, cp, s);
      }
    }

    method Connect(client: C.ClientContext, cp: ConnectPacket, ghost s: State)
      requires Valid() && Inv(s) && Registered(client) && View() == s
      modifies this, byChannel.Values, topics, topics.repr, retains, outbox
      ensures Valid() && View() == OnConnect(s, client.channel, cp) && Within()
    {
      if client.connected || cp.protocol != MQTT {
        Close(client, s);
      } else {
        var code := CheckConnect(cp);
        Untouched();
        Answer(client, cp, code, s);
      }
    }

    // ----- PUBLISH -----

    method Note(client: C.ClientContext, pub: PublishPacket, ghost s: State) returns (seen: bool)
      requires Valid() && Registered(client) && View() == s
      modifies client
      ensures Valid() && seen == AlreadyReceived(s.contexts[client.channel], pub)
      ensures
        var ctx := s.contexts[client.channel];
        View() == SetContext(s, client.channel, if seen then ctx else Remember(ctx, pub))
    {
      seen := client.Note(pub);
      ContextChanged(client);
    }

    /** Routes the message, unless a PUBREL has to come first. */
    method Forward(msg: Message, ghost s: State)
      requires Valid() && Inv(s) && View() == s
      modifies byChannel.Values, outbox
      ensures Valid() && View() == Forwarded(s, msg)
    {
      if msg.qos != EXACTLY_ONCE { Route(msg, s); }
    }

    method PublishNoted(msg: Message, ghost s: State)
      requires Valid() && Inv(s) && View() == s
      modifies byChannel.Values, retains, outbox
      ensures Valid() && View() == Noted(s, msg)
    {
      InvRetained(s, msg, msg.topic);
      if msg.retain && msg.payload == [] {
        ClearRetained(msg.topic, s);
      } else {
        Keep(msg, s);
        Forward(msg, Kept(s, msg));
      }
    }

    method Acknowledge(client: C.ClientContext, qos: Qos, pid: nat, ghost s: State)
      requires Valid() && Registered(client) && View() == s
      modifies client
      ensures Valid() && View() == Broker.Acknowledge(s, client.channel, qos, pid)
    {
      if qos == AT_LEAST_ONCE {
        Send(client, O.Puback(pid), s);
      } else if qos == EXACTLY_ONCE {
        Send(client, O.Pubrec(pid), s);
      }
    }

    method PublishFirst(client: C.ClientContext, pub: PublishPacket, msg: Message, ghost s: State)
      requires Valid() && Inv(s) && client.channel in s.contexts
      requires msg == PublishedMessage(s.contexts[client.channel], pub)
      requires View() == SetContext(s, client.channel, Remember(s.contexts[client.channel], pub))
      modifies byChannel.Values, retains, outbox
      ensures Valid() && View() == PublishNew(s, client.channel, pub)
    {
      InvSetContext(s, client.channel, Remember(s.contexts[client.channel], pub));
      PublishNewSteps(s, client.channel, pub);
      PublishNoted(msg, SetContext(s, client.channel, Remember(s.contexts[client.channel], pub)));
    }

    /** A repeated PUBLISH changes nothing; a new one is remembered, retained and routed. */
    method TakePublish(client: C.ClientContext, pub: PublishPacket, ghost s: State)
      requires Valid() && Inv(s) && Registered(client) && View() == s
      modifies byChannel.Values, retains, outbox
      ensures Valid() && View() == Taken(s, client.channel, pub)
    {
      var msg := PublishedMessage(client.Snap(), pub);
      var seen := Note(client, pub, s);
      if seen {
        SetSame(s, client.channel);
      } else {
        PublishFirst(client, pub, msg, s);
      }
    }

    method TakeAndAcknowledge(client: C.ClientContext, pub: PublishPacket, ghost s: State)
      requires Valid() && Inv(s) && Registered(client) && View() == s
      modifies byChannel.Values, retains, outbox
      ensures Valid()
      ensures View() == Broker.Acknowledge(Taken(s, client.channel, pub), client.channel, pub.qos, pub.packetId)
    {
      TakePublish(client, pub, s);
      Acknowledge(client, pub.qos, pub.packetId, Taken(s, client.channel, pub));
    }

    method PublishValid(client: C.ClientContext, pub: PublishPacket, ghost s: State)
      requires Valid() && Inv(s) && Registered(client) && View() == s && client.connected && T.ValidName(pub.topic)
      modifies byChannel.Values, retains, outbox
      ensures Valid() && View() == OnPublish(s, client.channel, pub)
    {
      OnPublishSteps(s, client.channel, pub);
      TakeAndAcknowledge(client, pub, s);
    }

    method PublishChecked(client: C.ClientContext, pub: PublishPacket, invalid: bool, ghost s: State)
      requires Valid() && Inv(s) && Registered(client) && View() == s && (invalid <==> !T.ValidName(pub.topic))
      modifies this, byChannel.Values, topics, topics.repr, retains, outbox
      ensures Valid() && View() == OnPublish(s, client.channel, pub) && Within()
    {
      if !client.connected || invalid {
        Close(client, s);
      } else {
        PublishValid(client, pub, s);
      }
    }

    method Publish(client: C.ClientContext, pub: PublishPacket, ghost s: State)
      requires Valid() && Inv(s) && Registered(client) && View() == s
      modifies this, byChannel.Values, topics, topics.repr, retains, outbox
      ensures Valid() && View() == OnPublish(s, client.channel, pub) && Within()
    {
      var invalid := T.IsTopicNameInvalid(pub.topic);
      Untouched();
      PublishChecked(client, pub, invalid, s);
    }

    // ----- SUBSCRIBE and UNSUBSCRIBE -----

    method AddEntry(x: Session, sub: Subscription, ghost s: State)
      requires Valid() && View() == s && T.ValidFilter(sub.filter)
      modifies topics, topics.repr
      ensures Valid() && topics.Grown()
      ensures View() == s.(entries := s.entries[Key(x, sub.filter) := sub.qos])
    {
      topics.Add(x, sub.filter, sub.qos);
      TablesKept();
    }

    method SetList(x: Session, list: seq<Subscription>, ghost s: State)
      requires Valid() && View() == s
      modifies this`subs
      ensures Valid() && View() == s.(subs := s.subs[x := list])
    {
      subs := subs[x := list];
      TablesKept();
      StoresKept();
    }

    /** The subscription list of the session: a known filter gets the new QoS, a new one is appended. */
    method ListSubscription(x: Session, sub: Subscription, ghost s: State)
      requires Valid() && View() == s && x in s.subs
      modifies this`subs
      ensures Valid() && View() == s.(subs := s.subs[x := Subscribed(s.subs[x], sub)])
    {
      var list := WithSubscription(subs[x], sub);
      Untouched();
      SetList(x, list, s);
    }

    static method WithSubscription(list: seq<Subscription>, sub: Subscription) returns (after: seq<Subscription>)
      ensures after == Subscribed(list, sub)
    {
      var i := 0;
      while i < |list| && list[i].filter != sub.filter
        invariant 0 <= i <= |list|
        invariant forall j :: 0 <= j < i ==> list[j].filter != sub.filter
      {
        i := i + 1;
      }
      SubscribedAt(list, sub, i);
      after := if i < |list| then list[i := sub] else list + [sub];
    }

    method DeliverRetained(client: C.ClientContext, sub: Subscription, ghost s: State)
      requires Valid() && Registered(client) && View() == s
      modifies client
      ensures Valid()
      ensures
        var ctx := s.contexts[client.channel];
        View() == SetContext(s, client.channel, ctx.(out := WithRetained(ctx.out, s.retained, sub, s.clock)))
    {
      client.DeliverRetained(retains.All(), sub, clock);
      ContextChanged(client);
    }

    method SubscribeValid(client: C.ClientContext, x: Session, sub: Subscription, ghost s: State)
      requires Valid() && Registered(client) && View() == s && x in s.subs && T.ValidFilter(sub.filter)
      modifies this`subs, client, topics, topics.repr
      ensures Valid() && View() == SubscribeOne(s, client.channel, x, sub) && topics.Grown()
    {
      ghost var s1 := s.(entries := s.entries[Key(x, sub.filter) := sub.qos]);
      AddEntry(x, sub, s);
      ListSubscription(x, sub, s1);
      DeliverRetained(client, sub, s1.(subs := s1.subs[x := Subscribed(s1.subs[x], sub)]));
    }

    method SubscribeEntry(client: C.ClientContext, x: Session, sub: Subscription, ghost s: State)
      requires Valid() && Registered(client) && View() == s && x in s.subs
      modifies this`subs, client, topics, topics.repr
      ensures Valid() && View() == SubscribeOne(s, client.channel, x, sub) && topics.Grown()
    {
      var invalid := T.IsTopicFilterInvalid(sub.filter);
      Untouched();
      if !invalid { SubscribeValid(client, x, sub, s); }
    }

    method SubscribeNext(client: C.ClientContext, x: Session, wanted: seq<Subscription>, i: nat, ghost path: seq<State>)
      requires Valid() && Registered(client) && IsPath(path, client.channel, x, wanted)
      requires i < |wanted| && View() == path[i]
      modifies this`subs, client, topics, topics.repr
      ensures Valid() && View() == path[i + 1] && topics.Grown()
    {
      SubscribeEntry(client, x, wanted[i], path[i]);
    }

    method SubscribeEntries(client: C.ClientContext, x: Session, wanted: seq<Subscription>, ghost path: seq<State>)
      requires Valid() && Registered(client) && IsPath(path, client.channel, x, wanted) && View() == path[0]
      modifies this`subs, client, topics, topics.repr
      ensures Valid() && View() == path[|wanted|] && topics.Grown()
    {
      for i := 0 to |wanted|
        invariant Valid() && topics.Grown() && View() == path[i]
      {
        SubscribeNext(client, x, wanted, i, path);
      }
    }

    method SubscribeEach(client: C.ClientContext, x: Session, wanted: seq<Subscription>, ghost s: State)
      requires Valid() && Registered(client) && View() == s && x in s.subs
      modifies this`subs, client, topics, topics.repr
      ensures Valid() && View() == SubscribeAll(s, client.channel, x, wanted) && topics.Grown()
    {
      ghost var path := SubscribePath(s, client.channel, x, wanted);
      SubscribeEntries(client, x, wanted, path);
    }

    /** One code per entry: the QoS asked for, or failure. */
    static method GrantedCodes(wanted: seq<Subscription>) returns (granted: seq<byte>)
      ensures granted == GrantCodes(wanted)
    {
      granted := [];
      for i := 0 to |wanted|
        invariant |granted| == i && forall j :: 0 <= j < i ==> granted[j] == GrantCode(wanted[j])
      {
        var invalid := T.IsTopicFilterInvalid(wanted[i].filter);
        granted := granted + [if invalid then SUBSCRIBE_FAILURE else wanted[i].qos];
      }
    }

    method SubscribeGranted(client: C.ClientContext, packetId: nat, wanted: seq<Subscription>, x: Session,
                            granted: seq<byte>, ghost s: State)
      requires Valid() && Registered(client) && View() == s && x in s.subs
      modifies this`subs, client, topics, topics.repr
      ensures Valid() && topics.Grown()
      ensures View() == SendTo(SubscribeAll(s, client.channel, x, wanted), client.channel, O.Suback(packetId, granted))
    {
      SubscribeEach(client, x, wanted, s);
      Send(client, O.Suback(packetId, granted), SubscribeAll(s, client.channel, x, wanted));
    }

    method SubscribeConnected(client: C.ClientContext, packetId: nat, wanted: seq<Subscription>, x: Session,
                              ghost s: State)
      requires Valid() && Registered(client) && View() == s && x in s.subs
      modifies this`subs, client, topics, topics.repr
      ensures Valid() && topics.Grown()
      ensures
        var s1 := SubscribeAll(s, client.channel, x, wanted);
        View() == SendTo(s1, client.channel, O.Suback(packetId, GrantCodes(wanted)))
    {
      var granted := GrantedCodes(wanted);
      Untouched();
      SubscribeGranted(client, packetId, wanted, x, granted, s);
    }

    method SubscribeSession(client: C.ClientContext, packetId: nat, wanted: seq<Subscription>, ghost s: State)
      requires Valid() && Inv(s) && Registered(client) && View() == s && client.connected && wanted != []
      modifies this`subs, client, topics, topics.repr
      ensures Valid() && View() == OnSubscribe(s, client.channel, packetId, wanted) && topics.Grown()
    {
      ConnectedHasSession(s, client.channel);
      SubscribeConnected(client, packetId, wanted, client.session.value, s);
    }

    method Subscribe(client: C.ClientContext, packetId: nat, wanted: seq<Subscription>, ghost s: State)
      requires Valid() && Inv(s) && Registered(client) && View() == s
      modifies this, byChannel.Values, topics, topics.repr, retains, outbox
      ensures Valid() && View() == OnSubscribe(s, client.channel, packetId, wanted) && Within()
    {
      if !client.connected || wanted == [] {
        Close(client, s);
      } else {
        SubscribeSession(client, packetId, wanted, s);
      }
    }

    /** The list without the subscriptions to a filter. */
    static method Without(list: seq<Subscription>, filter: Text) returns (kept: seq<Subscription>)
      ensures kept == Unsubscribed(list, filter)
    {
      kept := [];
      var i := 0;
      while i < |list|
        invariant 0 <= i <= |list|
        invariant kept + Unsubscribed(list[i..], filter) == Unsubscribed(list, filter)
      {
        assert list[i..][1..] == list[i + 1..];
        if list[i].filter != filter { kept := kept + [list[i]]; }
        i := i + 1;
      }
    }

    method UnsubscribeOne(x: Session, filter: Text, ghost s: State)
      requires Valid() && View() == s && x in s.subs
      modifies this`subs, topics, topics.repr
      ensures Valid() && View() == UnsubscribedFrom(s, x, filter) && topics.repr == old(topics.repr)
    {
      var kept := Without(subs[x], filter);
      Untouched();
      RemoveEntry(x, filter, s);
      SetList(x, kept, s.(entries := s.entries - {Key(x, filter)}));
    }

    method UnsubscribeEntries(x: Session, filters: seq<Text>, ghost s: State)
      requires Valid() && View() == s && x in s.subs
      modifies this`subs, topics, topics.repr
      ensures Valid() && View() == UnsubscribeAll(s, x, filters) && topics.repr == old(topics.repr)
    {
      for i := 0 to |filters|
        invariant Valid() && topics.repr == old(topics.repr) && View() == UnsubscribeAll(s, x, filters[..i])
      {
        UnsubscribeSnoc(s, x, filters, i);
        UnsubscribeOne(x, filters[i], UnsubscribeAll(s, x, filters[..i]));
      }
      assert filters[..|filters|] == filters;
    }

    method UnsubscribeConnected(client: C.ClientContext, packetId: nat, filters: seq<Text>, x: Session, ghost s: State)
      requires Valid() && Registered(client) && View() == s && x in s.subs
      modifies this`subs, client, topics, topics.repr
      ensures Valid() && topics.repr == old(topics.repr)
      ensures View() == SendTo(UnsubscribeAll(s, x, filters), client.channel, O.Unsuback(packetId))
    {
      UnsubscribeEntries(x, filters, s);
      Send(client, O.Unsuback(packetId), UnsubscribeAll(s, x, filters));
    }

    method UnsubscribeSession(client: C.ClientContext, packetId: nat, filters: seq<Text>, ghost s: State)
      requires Valid() && Inv(s) && Registered(client) && View() == s && client.connected && filters != []
      modifies this`subs, client, topics, topics.repr
      ensures Valid() && View() == OnUnsubscribe(s, client.channel, packetId, filters)
      ensures topics.repr == old(topics.repr)
    {
      ConnectedHasSession(s, client.channel);
      UnsubscribeConnected(client, packetId, filters, client.session.value, s);
    }

    method Unsubscribe(client: C.ClientContext, packetId: nat, filters: seq<Text>, ghost s: State)
      requires Valid() && Inv(s) && Registered(client) && View() == s
      modifies this, byChannel.Values, topics, topics.repr, retains, outbox
      ensures Valid() && View() == OnUnsubscribe(s, client.channel, packetId, filters) && Within()
    {
      if !client.connected || filters == [] {
        Close(client, s);
      } else {
        UnsubscribeSession(client, packetId, filters, s);
      }
    }

    // ----- Acknowledgements, PINGREQ, DISCONNECT, time -----

    method Finish(client: C.ClientContext, pid: nat, puback: bool, ghost s: State)
      requires Valid() && Registered(client) && View() == s
      modifies client
      ensures Valid()
      ensures
        var ctx := s.contexts[client.channel];
        View() == SetContext(s, client.channel,
                             ctx.(awaitingPuback := if puback then ctx.awaitingPuback - {pid} else ctx.awaitingPuback,
                                  out := O.Forget(ctx.out, pid)))
    {
      client.Finish(pid, puback);
      ContextChanged(client);
    }

    method Release(client: C.ClientContext, pid: nat, ghost s: State)
      requires Valid() && Registered(client) && View() == s
      modifies client
      ensures Valid()
      ensures
        var ctx := s.contexts[client.channel];
        View() == SetContext(s, client.channel, ctx.(out := O.Release(ctx.out, pid, s.clock)))
    {
      client.Release(pid, clock);
      ContextChanged(client);
    }

    method DropHeld(client: C.ClientContext, pid: nat, ghost s: State)
      requires Valid() && Registered(client) && View() == s
      modifies client
      ensures Valid()
      ensures
        var ctx := s.contexts[client.channel];
        View() == SetContext(s, client.channel, ctx.(awaitingPubrel := ctx.awaitingPubrel - {pid}))
    {
      client.DropHeld(pid);
      ContextChanged(client);
    }

    /** Routes the held message, if there is one, and forgets it. */
    method RouteHeld(client: C.ClientContext, pid: nat, ghost s: State)
      requires Valid() && Inv(s) && Registered(client) && View() == s
      modifies byChannel.Values, outbox
      ensures Valid() && View() == ReleaseHeld(s, client.channel, pid)
    {
      if pid in client.awaitingPubrel {
        Route(client.awaitingPubrel[pid], s);
        DropHeld(client, pid, Broker.Route(s, s.contexts[client.channel].awaitingPubrel[pid]));
      }
    }

    method Pubrel(client: C.ClientContext, pid: nat, ghost s: State)
      requires Valid() && Inv(s) && Registered(client) && View() == s
      modifies byChannel.Values, outbox
      ensures Valid() && View() == SendTo(ReleaseHeld(s, client.channel, pid), client.channel, O.Pubcomp(pid))
    {
      RouteHeld(client, pid, s);
      Send(client, O.Pubcomp(pid), ReleaseHeld(s, client.channel, pid));
    }

    method AckConnected(client: C.ClientContext, kind: AckKind, pid: nat, ghost s: State)
      requires Valid() && Inv(s) && Registered(client) && View() == s && client.connected
      modifies byChannel.Values, outbox
      ensures Valid() && View() == OnAck(s, client.channel, kind, pid)
    {
      match kind
      case PubackAck => Finish(client, pid, true, s);
      case PubrecAck => Release(client, pid, s);
      case PubrelAck => Pubrel(client, pid, s);
      case PubcompAck => Finish(client, pid, false, s);
    }

    method Ack(client: C.ClientContext, kind: AckKind, pid: nat, ghost s: State)
      requires Valid() && Inv(s) && Registered(client) && View() == s
      modifies this, byChannel.Values, topics, topics.repr, retains, outbox
      ensures Valid() && View() == OnAck(s, client.channel, kind, pid) && Within()
    {
      if !client.connected {
        Close(client, s);
      } else {
        AckConnected(client, kind, pid, s);
      }
    }

    method Ping(client: C.ClientContext, ghost s: State)
      requires Valid() && Inv(s) && Registered(client) && View() == s
      modifies this, byChannel.Values, topics, topics.repr, retains, outbox
      ensures Valid() && View() == OnPing(s, client.channel) && Within()
    {
      if !client.connected {
        Close(client, s);
      } else {
        Send(client, O.Pingresp, s);
      }
    }

    method Disconnect(client: C.ClientContext, ghost s: State)
      requires Valid() && Registered(client) && View() == s
      modifies client
      ensures Valid()
      ensures
        var ctx := s.contexts[client.channel];
        View() == SetContext(s, client.channel, ctx.(cleanDisconnect := true, connected := false))
    {
      client.Disconnect();
      ContextChanged(client);
    }

    method Check(client: C.ClientContext, order: seq<nat>, tick: nat, ghost s: State) returns (giveUp: bool)
      requires Valid() && Registered(client) && View() == s
      requires forall i :: 0 <= i < |order| ==> order[i] in client.inflight
      modifies client
      ensures Valid()
      ensures
        var ctx := s.contexts[client.channel];
        var r := O.Retry(ctx.out, order, ctx.connected, tick, s.clock);
        giveUp == r.1 && View() == SetContext(s, client.channel, ctx.(out := r.0))
    {
      giveUp := client.CheckRetransmission(order, tick, clock);
      ContextChanged(client);
    }

    /** The retransmission check of one channel; a message out of retries ends the connection. */
    method Retry(client: C.ClientContext, order: seq<nat>, tick: nat, ghost s: State)
      requires Valid() && Inv(s) && Registered(client) && View() == s
      requires forall i :: 0 <= i < |order| ==> order[i] in client.inflight
      modifies this, byChannel.Values, topics, topics.repr, retains, outbox
      ensures Valid() && View() == OnRetry(s, client.channel, order, tick) && Within()
    {
      ghost var ctx := s.contexts[client.channel];
      ghost var out := O.Retry(ctx.out, order, ctx.connected, tick, s.clock).0;
      var giveUp := Check(client, order, tick, s);
      if giveUp {
        InvSetContext(s, client.channel, ctx.(out := out));
        Close(client, SetContext(s, client.channel, ctx.(out := out)));
      }
    }

    // ----- Dispatch -----

    /** The packets of fixed size. */
    method HandleShort(client: C.ClientContext, input: Input, ghost s: State)
      requires Valid() && Inv(s) && Registered(client) && View() == s
      requires input.Ack? || input.Ping? || input.Disconnect?
      modifies this, byChannel.Values, topics, topics.repr, retains, outbox
      ensures Valid() && View() == Broker.Handle(s, client.channel, input) && Within()
    {
      match input
      case Ack(kind, pid) => Ack(client, kind, pid, s);
      case Ping => Ping(client, s);
      case Disconnect => Disconnect(client, s);
    }

    method Handle(client: C.ClientContext, input: Input, ghost s: State)
      requires Valid() && Inv(s) && Registered(client) && View() == s
      requires input.Retry? ==> forall i :: 0 <= i < |input.order| ==> input.order[i] in client.inflight
      modifies this, byChannel.Values, topics, topics.repr, retains, outbox
      ensures Valid() && View() == Broker.Handle(s, client.channel, input) && Within()
    {
      match input
      case Connect(cp) => Connect(client, cp, s);
      case Publish(pub) => Publish(client, pub, s);
      case Subscribe(pid, wanted) => Subscribe(client, pid, wanted, s);
      case Unsubscribe(pid, filters) => Unsubscribe(client, pid, filters, s);
      case Close => Close(client, s);
      case Retry(order, tick) => Retry(client, order, tick, s);
      case _ => HandleShort(client, input, s);
    }

    method Register(ctx: C.ClientContext, ghost s: State)
      requires Valid() && View() == s && ctx.channel !in byChannel && ctx.Snap() == FRESH
      modifies this`byChannel
      ensures Valid() && View() == s.(contexts := s.contexts[ctx.channel := FRESH])
      ensures byChannel == old(byChannel)[ctx.channel := ctx]
    {
      byChannel := byChannel[ctx.channel := ctx];
      StoresKept();
      ContextAdded(ctx);
    }

    method CountChannel(ghost s: State)
      requires Valid() && View() == s
      modifies this`nextChannel
      ensures Valid() && View() == s.(nextChannel := s.nextChannel + 1)
    {
      nextChannel := nextChannel + 1;
      TablesKept();
      StoresKept();
    }

    method Enlist(ctx: C.ClientContext, ghost s: State)
      requires Valid() && View() == s
      requires ctx.channel !in byChannel && ctx.Snap() == FRESH && ctx.channel == s.nextChannel
      modifies this`byChannel, this`nextChannel
      ensures Valid() && byChannel == old(byChannel)[ctx.channel := ctx]
      ensures View() == s.(contexts := s.contexts[s.nextChannel := FRESH], nextChannel := s.nextChannel + 1)
    {
      Register(ctx, s);
      CountChannel(s.(contexts := s.contexts[s.nextChannel := FRESH]));
    }

    method NewContext(ghost s: State) returns (ctx: C.ClientContext)
      requires Valid() && View() == s
      ensures Valid() && View() == s && fresh(ctx) && ctx.channel == s.nextChannel && ctx.Snap() == FRESH
    {
      ctx := new C.ClientContext(nextChannel);
      TablesKept();
      StoresKept();
    }

    method JoinNew(ghost s: State)
      requires Valid() && View() == s && s.nextChannel !in s.contexts
      modifies this`byChannel, this`nextChannel
      ensures Valid() && Within()
      ensures View() == s.(contexts := s.contexts[s.nextChannel := FRESH], nextChannel := s.nextChannel + 1)
    {
      var ctx := NewContext(s);
      Enlist(ctx, s);
    }

    /** A new channel starts with an empty context. */
    method AddChannel(ghost s: State)
      requires Valid() && Inv(s) && View() == s
      modifies this`byChannel, this`nextChannel
      ensures Valid() && Within() && View() == Step(s, Event.Accept)
    {
      NextIsFree(s);
      JoinNew(s);
    }

    method Elapse(millis: nat, ghost s: State)
      requires Valid() && View() == s
      modifies this`clock
      ensures Valid() && View() == Step(s, Event.Elapse(millis))
    {
      clock := clock + millis;
      TablesKept();
      StoresKept();
    }

    /** A packet or other event of one channel; what a forgotten channel still has to say is dropped. */
    method ProcessOn(ch: ChannelId, input: Input, ghost s: State)
      requires Valid() && Inv(s) && View() == s && Admissible(s, On(ch, input))
      modifies this, byChannel.Values, topics, topics.repr, retains, outbox
      ensures Valid() && View() == Step(s, On(ch, input)) && Within()
    {
      if ch in byChannel {
        Handle(byChannel[ch], input, s);
      }
    }

    /** One event, of any kind: what it does to the program's data is the step of the state machine. */
    method Process(e: Event, ghost s: State)
      requires Valid() && Inv(s) && View() == s && Admissible(s, e)
      modifies this, byChannel.Values, topics, topics.repr, retains, outbox
      ensures Valid() && View() == Step(s, e) && Within()
    {
      match e
      case Accept => AddChannel(s);
      case Elapse(millis) => Elapse(millis, s);
      case On(ch, input) => ProcessOn(ch, input, s);
    }

    // ----- Whole runs -----

    /** All that the engine is made of. */
    ghost function Parts(): set<object>
      reads this, topics
    {
      {this, topics, retains, outbox} + topics.repr + byChannel.Values
    }

    twostate lemma PartsGrow()
      requires Within()
      ensures fresh(Parts() - old(Parts()))
    {
    }

    /** One event of a run, for whoever only knows that the engine is made of these objects. */
    method Advance(events: seq<Event>, i: nat, ghost run: seq<State>, ghost seen: seq<State>, ghost mine: set<object>)
      returns (ghost views: seq<State>, ghost more: set<object>)
      requires IsRun(maxConnections, events, run) && i < |events| && Valid() && View() == run[i]
      requires Tracks(seen, run, i) && Parts() <= mine
      modifies mine
      ensures Valid() && View() == run[i + 1] && Tracks(views, run, i + 1)
      ensures Parts() <= more && forall o :: o in more ==> o in mine || fresh(o)
    {
      InvReachable(maxConnections, events, run, i);
      Process(events[i], run[i]);
      PartsGrow();
      TracksNext(seen, run, i);
      views, more := seen + [View()], mine + Parts();
    }

    /** The events of a run, one after the other: the views on the way are its states. */
    method Work(events: seq<Event>, ghost run: seq<State>, ghost mine: set<object>) returns (ghost views: seq<State>)
      requires IsRun(maxConnections, events, run) && Valid() && View() == run[0] && Parts() <= mine
      modifies mine
      ensures Valid() && View() == run[|events|] && views == run
    {
      TracksFirst(run);
      views := [run[0]];
      ghost var parts := mine;
      for i := 0 to |events|
        invariant Valid() && View() == run[i] && Tracks(views, run, i)
        invariant Parts() <= parts && forall o :: o in parts ==> o in mine || fresh(o)
      {
        views, parts := Advance(events, i, run, views, parts);
      }
    }

    static method Start(maxConnections: nat) returns (engine: Engine, ghost mine: set<object>)
      ensures engine.Valid() && engine.View() == Init(maxConnections) && engine.maxConnections == maxConnections
      ensures engine.Parts() <= mine && fresh(mine)
    {
      engine := new Engine(maxConnections);
      mine := engine.Parts();
    }

    /** A list of events on a new engine. */
    static method Run(maxConnections: nat, events: seq<Event>, ghost run: seq<State>)
      returns (engine: Engine, ghost views: seq<State>)
      requires IsRun(maxConnections, events, run)
      ensures fresh(engine) && engine.Valid() && engine.View() == run[|events|]
      ensures views == run
    {
      ghost var mine;
      engine, mine := Start(maxConnections);
      views := engine.Work(events, run, mine);
    }
  }
}
