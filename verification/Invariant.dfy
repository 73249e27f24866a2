/**
 The invariant of the broker and the proof that every event keeps it: the
 registries agree with each other, session lists mirror the topic tree, offline
 queues belong to offline persistent sessions, and no topic is retained twice.
 */
module Invariant {
  import opened Bytes
  import opened Model
  import opened Outbox
  import opened Broker
  import T = Topic
  import O = Outbound
  import R = RetainStore

  // ----- The registries -----

  /** A bound client id leads to a registered context of that id, which owns the stored session. */
  ghost predicate BoundOk(contexts: Contexts, byId: ById, sessions: Sessions, c: Text)
    requires c in byId
  {
    && c != [] && c in sessions
    && byId[c] in contexts && contexts[byId[c]].clientId == c
    && contexts[byId[c]].session == Some(sessions[c])
  }

  /** A registered context is not taken over, and it is the one its client id leads to. */
  ghost predicate ContextOk(contexts: Contexts, byId: ById, nextChannel: nat, ch: ChannelId)
    requires ch in contexts
  {
    var ctx := contexts[ch];
    && ch < nextChannel && !ctx.takenOver
    && (ctx.clientId != [] ==> ctx.clientId in byId && byId[ctx.clientId] == ch)
    && (ctx.clientId == [] ==> ctx.session == None && !ctx.connected)
  }

  /** A stored clean session is owned by a connection, except while `pending` is being taken over. */
  ghost predicate SessionOk(byId: ById, sessions: Sessions, nextSession: nat, pending: Option<Text>, c: Text)
    requires c in sessions
  {
    && c != [] && sessions[c].clientId == c && sessions[c].id < nextSession
    && (sessions[c].clean && pending != Some(c) ==> c in byId)
  }

  ghost predicate RegistryOk(contexts: Contexts, byId: ById, sessions: Sessions,
                             nextChannel: nat, nextSession: nat, pending: Option<Text>) {
    && (forall c {:trigger BoundOk(contexts, byId, sessions, c)} {:trigger byId[c]} ::
          c in byId ==> BoundOk(contexts, byId, sessions, c))
    && (forall ch {:trigger ContextOk(contexts, byId, nextChannel, ch)} {:trigger contexts[ch]} ::
          ch in contexts ==> ContextOk(contexts, byId, nextChannel, ch))
    && (forall c {:trigger SessionOk(byId, sessions, nextSession, pending, c)} {:trigger sessions[c]} ::
          c in sessions ==> SessionOk(byId, sessions, nextSession, pending, c))
  }

  // ----- The subscription mirror -----

  ghost predicate DistinctFilters(subs: seq<Subscription>) {
    forall i, j :: 0 <= i < j < |subs| ==> subs[i].filter != subs[j].filter
  }

  /** The session's list is valid, duplicate-free and is what the tree holds for it. */
  ghost predicate ListOk(entries: Entries, x: Session, subs: seq<Subscription>) {
    && DistinctFilters(subs)
    && forall i :: 0 <= i < |subs| ==>
         && T.ValidFilter(subs[i].filter)
         && Key(x, subs[i].filter) in entries && entries[Key(x, subs[i].filter)] == subs[i].qos
  }

  ghost predicate EntryOk(subs: Subs, entries: Entries, k: Key)
    requires k in entries
  {
    k.session in subs && Subscription(k.filter, entries[k]) in subs[k.session]
  }

  ghost predicate MirrorOk(sessions: Sessions, subs: Subs, entries: Entries) {
    && (forall x {:trigger x in subs} :: x in subs <==> Live(sessions, x))
    && (forall x {:trigger subs[x]} :: x in subs ==> ListOk(entries, x, subs[x]))
    && (forall k {:trigger EntryOk(subs, entries, k)} :: k in entries ==> EntryOk(subs, entries, k))
  }

  // ----- Offline queues -----

  ghost predicate QueueFits(contexts: Contexts, byId: ById, sessions: Sessions, queues: Queues, x: Session)
    requires x in queues
  {
    && Live(sessions, x) && !x.clean && !Online(contexts, byId, x.clientId)
    && 1 <= |queues[x]| <= MAX_QUEUE_SIZE
    && forall i :: 0 <= i < |queues[x]| ==> queues[x][i].granted > AT_MOST_ONCE
  }

  ghost predicate QueuesOk(contexts: Contexts, byId: ById, sessions: Sessions, queues: Queues) {
    forall x {:trigger QueueFits(contexts, byId, sessions, queues, x)} {:trigger queues[x]} ::
      x in queues ==> QueueFits(contexts, byId, sessions, queues, x)
  }

  /** The invariant, with one client id possibly between two connections. */
  ghost predicate InvWhile(s: State, pending: Option<Text>) {
    && RegistryOk(s.contexts, s.byId, s.sessions, s.nextChannel, s.nextSession, pending)
    && MirrorOk(s.sessions, s.subs, s.entries)
    && QueuesOk(s.contexts, s.byId, s.sessions, s.queues)
    && R.DistinctTopics(s.retained)
  }

  ghost predicate QueueOk(s: State, x: Session)
    requires x in s.queues
  {
    QueueFits(s.contexts, s.byId, s.sessions, s.queues, x)
  }

  ghost predicate Inv(s: State) {
    InvWhile(s, None)
  }

  lemma InvInit(maxConnections: nat)
    ensures Inv(Init(maxConnections))
  {
  }

  // ----- Steps on one context -----

  /** The two contexts differ at most in the QoS state. */
  ghost predicate SameIdentity(a: Context, b: Context) {
    && a.session == b.session && a.clientId == b.clientId && a.connected == b.connected
    && a.cleanDisconnect == b.cleanDisconnect && a.takenOver == b.takenOver && a.will == b.will
  }

  ghost predicate SameIdentities(a: Contexts, b: Contexts) {
    && a.Keys == b.Keys
    && forall ch :: ch in a ==> SameIdentity(a[ch], b[ch])
  }

  lemma RegistryFrame(a: Contexts, b: Contexts, byId: ById, sessions: Sessions,
                      nextChannel: nat, nextSession: nat, pending: Option<Text>)
    requires RegistryOk(a, byId, sessions, nextChannel, nextSession, pending)
    requires SameIdentities(a, b)
    ensures RegistryOk(b, byId, sessions, nextChannel, nextSession, pending)
  {
    forall c | c in byId ensures BoundOk(b, byId, sessions, c) {
      assert BoundOk(a, byId, sessions, c);
    }
    forall ch | ch in b ensures ContextOk(b, byId, nextChannel, ch) {
      assert ContextOk(a, byId, nextChannel, ch);
    }
  }

  /** Changing only the QoS state of contexts keeps the invariant. */
  lemma InvContexts(s: State, contexts: Contexts)
    requires Inv(s)
    requires SameIdentities(s.contexts, contexts)
    ensures Inv(s.(contexts := contexts))
  {
    var s' := s.(contexts := contexts);
    RegistryFrame(s.contexts, contexts, s.byId, s.sessions, s.nextChannel, s.nextSession, None);
    forall x | x in s'.queues ensures QueueOk(s', x) { assert QueueOk(s, x); }
  }

  lemma InvSetContext(s: State, ch: ChannelId, ctx: Context)
    requires Inv(s) && ch in s.contexts
    requires SameIdentity(s.contexts[ch], ctx)
    ensures Inv(SetContext(s, ch, ctx))
  {
    InvContexts(s, s.contexts[ch := ctx]);
  }

  lemma InvSendTo(s: State, ch: ChannelId, packet: O.Packet)
    requires Inv(s) && ch in s.contexts
    ensures Inv(SendTo(s, ch, packet))
  {
    InvSetContext(s, ch, s.contexts[ch].(out := O.Emit(s.contexts[ch].out, packet, s.clock)));
  }

  // ----- Routing -----

  lemma RoutedQueueKept(s: State, msg: Message, x: Session)
    requires Inv(s) && x in Route(s, msg).queues
    ensures QueueOk(Route(s, msg), x)
  {
    if x in s.queues { assert QueueOk(s, x); }
    var s' := Route(s, msg);
    assert Online(s'.contexts, s'.byId, x.clientId) <==> Online(s.contexts, s.byId, x.clientId);
  }

  lemma RoutedIdentities(s: State, msg: Message)
    ensures SameIdentities(s.contexts, Route(s, msg).contexts)
  {
  }

  lemma QueuesRouted(s: State, msg: Message)
    requires Inv(s)
    ensures forall x :: x in Route(s, msg).queues ==> QueueOk(Route(s, msg), x)
  {
    forall x | x in Route(s, msg).queues ensures QueueOk(Route(s, msg), x) {
      RoutedQueueKept(s, msg, x);
    }
  }

  lemma InvRoute(s: State, msg: Message)
    requires Inv(s)
    ensures Inv(Route(s, msg))
  {
    RoutedIdentities(s, msg);
    InvContexts(s, Route(s, msg).contexts);
    QueuesRouted(s, msg);
  }

  // ----- Closing -----

  /** Taking a context and its binding out leaves at most its clean session without an owner. */
  lemma RegistryRemoved(s: State, ch: ChannelId)
    requires Inv(s) && ch in s.contexts
    ensures
      var c := s.contexts[ch].clientId;
      RegistryOk(s.contexts - {ch}, s.byId - {c}, s.sessions, s.nextChannel, s.nextSession, Some(c))
  {
    var c := s.contexts[ch].clientId;
    assert ContextOk(s.contexts, s.byId, s.nextChannel, ch);
    var contexts, byId := s.contexts - {ch}, s.byId - {c};
    forall d | d in byId ensures BoundOk(contexts, byId, s.sessions, d) {
      assert BoundOk(s.contexts, s.byId, s.sessions, d);
    }
    forall h | h in contexts ensures ContextOk(contexts, byId, s.nextChannel, h) {
      assert ContextOk(s.contexts, s.byId, s.nextChannel, h);
    }
    forall d | d in s.sessions ensures SessionOk(byId, s.sessions, s.nextSession, Some(c), d) {
      assert SessionOk(s.byId, s.sessions, s.nextSession, None, d);
    }
  }

  /** An unbound session can be forgotten, or need not be if it is not clean. */
  lemma RegistryDropped(contexts: Contexts, byId: ById, sessions: Sessions, nextChannel: nat, nextSession: nat, c: Text)
    requires RegistryOk(contexts, byId, sessions, nextChannel, nextSession, Some(c)) && c !in byId
    ensures RegistryOk(contexts, byId, sessions - {c}, nextChannel, nextSession, None)
    ensures c !in sessions || !sessions[c].clean ==>
            RegistryOk(contexts, byId, sessions, nextChannel, nextSession, None)
  {
    forall d | d in byId ensures BoundOk(contexts, byId, sessions - {c}, d) {
      assert BoundOk(contexts, byId, sessions, d);
    }
    forall d | d in sessions && d != c ensures SessionOk(byId, sessions - {c}, nextSession, None, d) {
      assert SessionOk(byId, sessions, nextSession, Some(c), d);
    }
    if c !in sessions || !sessions[c].clean {
      forall d | d in sessions ensures SessionOk(byId, sessions, nextSession, None, d) {
        assert SessionOk(byId, sessions, nextSession, Some(c), d);
      }
    }
  }

  /** Dropping a session removes all of its entries from the tree, and only those. */
  lemma DropRemovesEntries(sessions: Sessions, subs: Subs, entries: Entries, x: Session)
    requires MirrorOk(sessions, subs, entries) && x in subs
    ensures forall k :: k in entries - FilterKeys(x, subs[x]) <==> k in entries && k.session != x
  {
    forall k | k in entries ensures k in FilterKeys(x, subs[x]) <==> k.session == x {
      assert EntryOk(subs, entries, k);
      if k.session == x {
        var i :| 0 <= i < |subs[x]| && subs[x][i] == Subscription(k.filter, entries[k]);
        assert Key(x, subs[x][i].filter) == k;
      }
    }
  }

  lemma MirrorDropped(sessions: Sessions, subs: Subs, entries: Entries, x: Session)
    requires MirrorOk(sessions, subs, entries) && x in subs
    ensures MirrorOk(sessions - {x.clientId}, subs - {x}, entries - FilterKeys(x, subs[x]))
  {
    DropRemovesEntries(sessions, subs, entries, x);
    var entries' := entries - FilterKeys(x, subs[x]);
    forall k | k in entries' ensures EntryOk(subs - {x}, entries', k) { assert EntryOk(subs, entries, k); }
    forall y | y in subs - {x} ensures ListOk(entries', y, subs[y]) { assert ListOk(entries, y, subs[y]); }
  }

  /** What a closed connection leaves behind: its session if it is persistent, nothing of a clean one. */
  lemma RemoveChannelEffect(s: State, ch: ChannelId)
    requires Inv(s) && ch in s.contexts
    ensures
      var c := s.contexts[ch].clientId;
      var s1 := s.(contexts := s.contexts - {ch}, byId := s.byId - {c});
      RemoveChannel(s, ch) == if c in s.sessions && s.sessions[c].clean then DropSession(s1, s.sessions[c]) else s1
  {
    var c := s.contexts[ch].clientId;
    assert ContextOk(s.contexts, s.byId, s.nextChannel, ch);
    if c == [] {
      assert c !in s.byId && c !in s.sessions;
      assert s.byId - {c} == s.byId;
    } else {
      assert BoundOk(s.contexts, s.byId, s.sessions, c);
    }
  }

  lemma QueuesRemoved(s: State, ch: ChannelId)
    requires Inv(s) && ch in s.contexts
    ensures forall x :: x in RemoveChannel(s, ch).queues ==> QueueOk(RemoveChannel(s, ch), x)
  {
    RemoveChannelEffect(s, ch);
    forall x | x in RemoveChannel(s, ch).queues ensures QueueOk(RemoveChannel(s, ch), x) { assert QueueOk(s, x); }
  }

  lemma InvRemoveChannel(s: State, ch: ChannelId)
    requires Inv(s) && ch in s.contexts
    ensures Inv(RemoveChannel(s, ch))
  {
    RemoveChannelEffect(s, ch);
    RegistryRemoved(s, ch);
    var c := s.contexts[ch].clientId;
    RegistryDropped(s.contexts - {ch}, s.byId - {c}, s.sessions, s.nextChannel, s.nextSession, c);
    if c in s.sessions {
      assert SessionOk(s.byId, s.sessions, s.nextSession, None, c);
      MirrorDropped(s.sessions, s.subs, s.entries, s.sessions[c]);
    }
    QueuesRemoved(s, ch);
  }

  lemma InvRetained(s: State, msg: Message, topic: Text)
    requires Inv(s)
    ensures Inv(s.(retained := R.Stored(s.retained, msg)))
    ensures Inv(s.(retained := R.Cleared(s.retained, topic)))
  {
    R.StoredMembers(s.retained, msg);
    R.ClearedMembers(s.retained, topic);
  }

  lemma InvPublishWill(s: State, ctx: Context)
    requires Inv(s)
    ensures Inv(PublishWill(s, ctx))
  {
    var msg := WillMessage(ctx);
    InvRetained(s, msg, []);
    InvRoute(if msg.retain then s.(retained := R.Stored(s.retained, msg)) else s, msg);
  }

  lemma InvCloseChannel(s: State, ch: ChannelId)
    requires Inv(s) && ch in s.contexts
    ensures Inv(CloseChannel(s, ch))
  {
    var ctx := s.contexts[ch];
    if PublishesWill(ctx) {
      InvPublishWill(s, ctx);
      InvRemoveChannel(PublishWill(s, ctx), ch);
    } else {
      InvRemoveChannel(s, ch);
    }
  }

  // ----- CONNECT -----

  /** Being taken over ends a connection silently: no will, and its session stays. */
  lemma TakeOverIsSilent(s: State, c: Text, ch: ChannelId)
    requires Inv(s) && ch in s.contexts && s.contexts[ch].clientId == []
    ensures TakeOver(s, c, ch) ==
            if c in s.byId then s.(contexts := s.contexts - {s.byId[c]}, byId := s.byId - {c}) else s
  {
    if c in s.byId {
      assert BoundOk(s.contexts, s.byId, s.sessions, c);
      var prior := s.byId[c];
      assert s.contexts[prior := s.contexts[prior].(takenOver := true, session := None)] - {prior}
          == s.contexts - {prior};
    }
  }

  lemma InvTakeOver(s: State, c: Text, ch: ChannelId)
    requires Inv(s) && ch in s.contexts && s.contexts[ch].clientId == []
    ensures InvWhile(TakeOver(s, c, ch), Some(c))
    ensures c !in TakeOver(s, c, ch).byId
    ensures ch in TakeOver(s, c, ch).contexts && TakeOver(s, c, ch).contexts[ch] == s.contexts[ch]
  {
    TakeOverIsSilent(s, c, ch);
    var s' := TakeOver(s, c, ch);
    if c in s.byId {
      assert BoundOk(s.contexts, s.byId, s.sessions, c);
      RegistryRemoved(s, s.byId[c]);
    } else {
      forall d | d in s.sessions ensures SessionOk(s.byId, s.sessions, s.nextSession, Some(c), d) {
        assert SessionOk(s.byId, s.sessions, s.nextSession, None, d);
      }
    }
    forall x | x in s'.queues ensures QueueOk(s', x) { assert QueueOk(s, x); }
  }

  lemma RegistryNewSession(contexts: Contexts, byId: ById, sessions: Sessions, nextChannel: nat, nextSession: nat,
                           c: Text, clean: bool)
    requires RegistryOk(contexts, byId, sessions, nextChannel, nextSession, Some(c)) && c !in byId && c != []
    ensures RegistryOk(contexts, byId, sessions[c := Session(nextSession, c, clean)],
                       nextChannel, nextSession + 1, Some(c))
  {
    var sessions' := sessions[c := Session(nextSession, c, clean)];
    forall d | d in byId ensures BoundOk(contexts, byId, sessions', d) {
      assert BoundOk(contexts, byId, sessions, d);
    }
    forall d | d in sessions' ensures SessionOk(byId, sessions', nextSession + 1, Some(c), d) {
      if d != c { assert SessionOk(byId, sessions, nextSession, Some(c), d); }
    }
  }

  lemma MirrorNewSession(sessions: Sessions, subs: Subs, entries: Entries, x: Session)
    requires MirrorOk(sessions, subs, entries) && x.clientId !in sessions
    ensures MirrorOk(sessions[x.clientId := x], subs[x := []], entries)
  {
    assert x !in subs;
    forall k | k in entries ensures EntryOk(subs[x := []], entries, k) { assert EntryOk(subs, entries, k); }
  }

  lemma InvNewSession(s: State, c: Text, clean: bool)
    requires InvWhile(s, Some(c)) && c !in s.byId && c != [] && c !in s.sessions
    ensures InvWhile(NewSession(s, c, clean), Some(c))
    ensures forall x :: x in s.queues ==> x.clientId != c
  {
    var s' := NewSession(s, c, clean);
    RegistryNewSession(s.contexts, s.byId, s.sessions, s.nextChannel, s.nextSession, c, clean);
    MirrorNewSession(s.sessions, s.subs, s.entries, Session(s.nextSession, c, clean));
    forall x | x in s.queues ensures QueueOk(s', x) && x.clientId != c { assert QueueOk(s, x); }
  }

  lemma InvDropUnbound(s: State, c: Text)
    requires InvWhile(s, Some(c)) && c !in s.byId && c in s.sessions
    ensures InvWhile(DropSession(s, s.sessions[c]), Some(c))
  {
    var s' := DropSession(s, s.sessions[c]);
    assert SessionOk(s.byId, s.sessions, s.nextSession, Some(c), c);
    MirrorDropped(s.sessions, s.subs, s.entries, s.sessions[c]);
    RegistryDropped(s.contexts, s.byId, s.sessions, s.nextChannel, s.nextSession, c);
    forall d | d in s'.sessions ensures SessionOk(s'.byId, s'.sessions, s'.nextSession, Some(c), d) {
      assert SessionOk(s.byId, s.sessions, s.nextSession, Some(c), d);
    }
    forall x | x in s'.queues ensures QueueOk(s', x) { assert QueueOk(s, x); }
  }

  /** A clean start begins without a queue; otherwise only the resumed session can have one. */
  lemma InvGetSession(s: State, c: Text, clean: bool)
    requires InvWhile(s, Some(c)) && c !in s.byId && c != []
    ensures InvWhile(GetSession(s, c, clean), Some(c))
    ensures
      var s' := GetSession(s, c, clean);
      && s'.contexts == s.contexts && s'.byId == s.byId && s'.clock == s.clock
      && s'.sessions[c].clientId == c
      && forall x :: x in s'.queues && x.clientId == c ==> !clean && c in s.sessions && x == s'.sessions[c]
  {
    if c in s.sessions {
      assert SessionOk(s.byId, s.sessions, s.nextSession, Some(c), c);
      if clean {
        InvDropUnbound(s, c);
        InvNewSession(DropSession(s, s.sessions[c]), c, true);
      } else {
        forall x | x in s.queues && x.clientId == c ensures x == s.sessions[c] { assert QueueOk(s, x); }
      }
    } else {
      InvNewSession(s, c, clean);
    }
  }

  lemma RegistryBound(contexts: Contexts, byId: ById, sessions: Sessions, nextChannel: nat, nextSession: nat,
                      ch: ChannelId, ctx: Context)
    requires RegistryOk(contexts, byId, sessions, nextChannel, nextSession, Some(ctx.clientId))
    requires ctx.clientId !in byId && ctx.clientId in sessions && ctx.clientId != []
    requires ch in contexts && contexts[ch].clientId == []
    requires ctx.session == Some(sessions[ctx.clientId]) && !ctx.takenOver
    ensures RegistryOk(contexts[ch := ctx], byId[ctx.clientId := ch], sessions, nextChannel, nextSession, None)
  {
    var c := ctx.clientId;
    var contexts', byId' := contexts[ch := ctx], byId[c := ch];
    assert ContextOk(contexts, byId, nextChannel, ch);
    forall d | d in byId' ensures BoundOk(contexts', byId', sessions, d) {
      if d != c { assert BoundOk(contexts, byId, sessions, d); }
    }
    forall h | h in contexts' ensures ContextOk(contexts', byId', nextChannel, h) {
      if h != ch { assert ContextOk(contexts, byId, nextChannel, h); }
    }
    forall d | d in sessions ensures SessionOk(byId', sessions, nextSession, None, d) {
      assert SessionOk(byId, sessions, nextSession, Some(c), d);
    }
  }

  lemma QueuesEstablished(s: State, ch: ChannelId, c: Text, cp: ConnectPacket, resumed: bool)
    requires InvWhile(s, Some(c)) && c !in s.byId && c in s.sessions
    requires ch in s.contexts && s.contexts[ch].clientId == []
    requires forall x :: x in s.queues && x.clientId == c ==> resumed && x == s.sessions[c]
    ensures
      var s' := Established(s, ch, c, cp, resumed);
      forall x :: x in s'.queues ==> QueueOk(s', x)
  {
    var s' := Established(s, ch, c, cp, resumed);
    forall x | x in s'.queues ensures QueueOk(s', x) { assert QueueOk(s, x); }
  }

  lemma InvEstablished(s: State, ch: ChannelId, c: Text, cp: ConnectPacket, resumed: bool)
    requires InvWhile(s, Some(c)) && c !in s.byId && c in s.sessions && c != []
    requires ch in s.contexts && s.contexts[ch].clientId == []
    requires forall x :: x in s.queues && x.clientId == c ==> resumed && x == s.sessions[c]
    ensures Inv(Established(s, ch, c, cp, resumed))
  {
    var s' := Established(s, ch, c, cp, resumed);
    RegistryBound(s.contexts, s.byId, s.sessions, s.nextChannel, s.nextSession, ch, s'.contexts[ch]);
    QueuesEstablished(s, ch, c, cp, resumed);
  }

  lemma InvAccepted(s: State, ch: ChannelId, c: Text, cp: ConnectPacket)
    requires Inv(s) && ch in s.contexts && s.contexts[ch].clientId == [] && c != []
    ensures Inv(Accepted(s, ch, c, cp))
  {
    var s1 := TakeOver(s, c, ch);
    InvTakeOver(s, c, ch);
    InvGetSession(s1, c, cp.clean);
    InvEstablished(GetSession(s1, c, cp.clean), ch, c, cp, c in s1.sessions && !cp.clean);
  }

  lemma InvRefused(s: State, ch: ChannelId, code: byte)
    requires Inv(s) && ch in s.contexts
    ensures Inv(CloseChannel(SendTo(s, ch, O.Connack(false, code)), ch))
  {
    InvSendTo(s, ch, O.Connack(false, code));
    InvCloseChannel(SendTo(s, ch, O.Connack(false, code)), ch);
  }

  lemma InvNumbered(s: State, cp: ConnectPacket)
    requires Inv(s)
    ensures Inv(Numbered(s, cp)) && Numbered(s, cp).contexts == s.contexts
  {
  }

  lemma InvAnswered(s: State, ch: ChannelId, cp: ConnectPacket)
    requires Inv(s) && ch in s.contexts && s.contexts[ch].clientId == []
    ensures Inv(Answered(s, ch, cp))
  {
    match Refusal(s, cp)
    case Some(code) => InvRefused(s, ch, code);
    case None =>
      InvNumbered(s, cp);
      InvAccepted(Numbered(s, cp), ch, IdFor(s, cp), cp);
  }

  lemma InvOnConnect(s: State, ch: ChannelId, cp: ConnectPacket)
    requires Inv(s) && ch in s.contexts && Allowed(s, s.contexts[ch], Connect(cp))
    ensures Inv(OnConnect(s, ch, cp))
  {
    if s.contexts[ch].connected || cp.protocol != MQTT {
      InvCloseChannel(s, ch);
    } else {
      InvAnswered(s, ch, cp);
    }
  }

  // ----- PUBLISH -----

  lemma InvAcknowledge(s: State, ch: ChannelId, qos: Qos, pid: nat)
    requires Inv(s) && ch in s.contexts
    ensures Inv(Acknowledge(s, ch, qos, pid))
  {
    if qos > AT_MOST_ONCE { InvSendTo(s, ch, AckFor(qos, pid)); }
  }

  lemma InvPublishNew(s: State, ch: ChannelId, pub: PublishPacket)
    requires Inv(s) && ch in s.contexts
    ensures Inv(PublishNew(s, ch, pub))
  {
    var msg := PublishedMessage(s.contexts[ch], pub);
    InvSetContext(s, ch, Remember(s.contexts[ch], pub));
    var s1 := SetContext(s, ch, Remember(s.contexts[ch], pub));
    InvRetained(s1, msg, pub.topic);
    if !(pub.retain && pub.payload == []) {
      InvRoute(if pub.retain then s1.(retained := R.Stored(s1.retained, msg)) else s1, msg);
    }
  }

  lemma InvOnPublish(s: State, ch: ChannelId, pub: PublishPacket)
    requires Inv(s) && ch in s.contexts
    ensures Inv(OnPublish(s, ch, pub))
  {
    if !s.contexts[ch].connected || !T.ValidName(pub.topic) {
      InvCloseChannel(s, ch);
    } else if AlreadyReceived(s.contexts[ch], pub) {
      InvAcknowledge(s, ch, pub.qos, pub.packetId);
    } else {
      InvPublishNew(s, ch, pub);
      InvAcknowledge(PublishNew(s, ch, pub), ch, pub.qos, pub.packetId);
    }
  }

  // ----- SUBSCRIBE and UNSUBSCRIBE -----

  lemma {:induction false} SubscribedMembers(subs: seq<Subscription>, sub: Subscription)
    requires DistinctFilters(subs)
    ensures DistinctFilters(Subscribed(subs, sub))
    ensures forall x :: x in Subscribed(subs, sub) <==> x == sub || (x in subs && x.filter != sub.filter)
  {
    if subs != [] {
      var rest := subs[1..];
      assert subs == [subs[0]] + rest;
      if subs[0].filter != sub.filter {
        SubscribedMembers(rest, sub);
        ConsDistinct(subs[0], Subscribed(rest, sub));
      } else {
        ConsDistinct(sub, rest);
        forall x | x in rest ensures x.filter != sub.filter {
          var i :| 0 <= i < |rest| && rest[i] == x;
          assert subs[i + 1] == x;
        }
      }
    }
  }

  lemma ConsDistinct(x: Subscription, subs: seq<Subscription>)
    requires DistinctFilters(subs)
    requires forall y :: y in subs ==> y.filter != x.filter
    ensures DistinctFilters([x] + subs)
  {
  }

  lemma {:induction false} UnsubscribedMembers(subs: seq<Subscription>, filter: Text)
    requires DistinctFilters(subs)
    ensures DistinctFilters(Unsubscribed(subs, filter))
    ensures forall x :: x in Unsubscribed(subs, filter) <==> x in subs && x.filter != filter
  {
    if subs != [] {
      var rest := subs[1..];
      assert subs == [subs[0]] + rest;
      UnsubscribedMembers(rest, filter);
      if subs[0].filter != filter {
        forall y | y in rest ensures y.filter != subs[0].filter {
          var i :| 0 <= i < |rest| && rest[i] == y;
          assert subs[i + 1] == y;
        }
        ConsDistinct(subs[0], Unsubscribed(rest, filter));
      }
    }
  }

  lemma MirrorSubscribed(sessions: Sessions, subs: Subs, entries: Entries, x: Session, sub: Subscription)
    requires MirrorOk(sessions, subs, entries) && x in subs && T.ValidFilter(sub.filter)
    ensures MirrorOk(sessions, subs[x := Subscribed(subs[x], sub)], entries[Key(x, sub.filter) := sub.qos])
  {
    var entries' := entries[Key(x, sub.filter) := sub.qos];
    var subs' := subs[x := Subscribed(subs[x], sub)];
    assert ListOk(entries, x, subs[x]);
    SubscribedMembers(subs[x], sub);
    forall k | k in entries' ensures EntryOk(subs', entries', k) {
      if k != Key(x, sub.filter) { assert EntryOk(subs, entries, k); }
    }
    forall y | y in subs' ensures ListOk(entries', y, subs'[y]) {
      assert ListOk(entries, y, subs[y]);
      if y == x { MembersMakeList(entries', x, subs'[x]); }
    }
  }

  /** A duplicate-free list of subscriptions each of which the tree holds. */
  lemma MembersMakeList(entries: Entries, x: Session, subs: seq<Subscription>)
    requires DistinctFilters(subs)
    requires forall y :: y in subs ==> T.ValidFilter(y.filter) && Key(x, y.filter) in entries
                                       && entries[Key(x, y.filter)] == y.qos
    ensures ListOk(entries, x, subs)
  {
    forall i | 0 <= i < |subs| ensures T.ValidFilter(subs[i].filter) && Key(x, subs[i].filter) in entries
                                       && entries[Key(x, subs[i].filter)] == subs[i].qos
    {
      assert subs[i] in subs;
    }
  }

  lemma MirrorUnsubscribed(sessions: Sessions, subs: Subs, entries: Entries, x: Session, filter: Text)
    requires MirrorOk(sessions, subs, entries) && x in subs
    ensures MirrorOk(sessions, subs[x := Unsubscribed(subs[x], filter)], entries - {Key(x, filter)})
  {
    var entries' := entries - {Key(x, filter)};
    var subs' := subs[x := Unsubscribed(subs[x], filter)];
    assert ListOk(entries, x, subs[x]);
    UnsubscribedMembers(subs[x], filter);
    forall k | k in entries' ensures EntryOk(subs', entries', k) { assert EntryOk(subs, entries, k); }
    forall y | y in subs' ensures ListOk(entries', y, subs'[y]) {
      assert ListOk(entries, y, subs[y]);
      if y == x { MembersMakeList(entries', x, subs'[x]); }
    }
  }

  lemma InvLists(s: State, subs: Subs, entries: Entries)
    requires Inv(s) && MirrorOk(s.sessions, subs, entries)
    ensures Inv(s.(subs := subs, entries := entries))
  {
  }

  lemma InvSubscribeOne(s: State, ch: ChannelId, x: Session, sub: Subscription)
    requires Inv(s) && ch in s.contexts && x in s.subs
    ensures Inv(SubscribeOne(s, ch, x, sub))
  {
    if T.ValidFilter(sub.filter) {
      MirrorSubscribed(s.sessions, s.subs, s.entries, x, sub);
      var subs, entries := s.subs[x := Subscribed(s.subs[x], sub)], s.entries[Key(x, sub.filter) := sub.qos];
      InvLists(s, subs, entries);
      var ctx := s.contexts[ch];
      InvSetContext(s.(subs := subs, entries := entries), ch,
                    ctx.(out := WithRetained(ctx.out, s.retained, sub, s.clock)));
    }
  }

  lemma {:induction false} InvSubscribeAll(s: State, ch: ChannelId, x: Session, wanted: seq<Subscription>)
    requires Inv(s) && ch in s.contexts && x in s.subs
    ensures Inv(SubscribeAll(s, ch, x, wanted))
    decreases |wanted|
  {
    if wanted != [] {
      InvSubscribeOne(s, ch, x, wanted[0]);
      InvSubscribeAll(SubscribeOne(s, ch, x, wanted[0]), ch, x, wanted[1..]);
    }
  }

  lemma {:induction false} InvUnsubscribeAll(s: State, x: Session, filters: seq<Text>)
    requires Inv(s) && x in s.subs
    ensures Inv(UnsubscribeAll(s, x, filters))
    decreases |filters|
  {
    if filters != [] {
      MirrorUnsubscribed(s.sessions, s.subs, s.entries, x, filters[0]);
      var subs := s.subs[x := Unsubscribed(s.subs[x], filters[0])];
      var entries := s.entries - {Key(x, filters[0])};
      InvLists(s, subs, entries);
      InvUnsubscribeAll(s.(subs := subs, entries := entries), x, filters[1..]);
    }
  }

  /** A connected client always has its session. */
  lemma ConnectedHasSession(s: State, ch: ChannelId)
    requires Inv(s) && ch in s.contexts && s.contexts[ch].connected
    ensures s.contexts[ch].session.Some? && SessionOf(s, ch) == s.contexts[ch].session
    ensures s.contexts[ch].session.value in s.subs
  {
    assert ContextOk(s.contexts, s.byId, s.nextChannel, ch);
    var c := s.contexts[ch].clientId;
    assert BoundOk(s.contexts, s.byId, s.sessions, c);
    assert SessionOk(s.byId, s.sessions, s.nextSession, None, c);
    assert s.sessions[c] in s.subs;
  }

  lemma InvOnSubscribe(s: State, ch: ChannelId, pid: nat, wanted: seq<Subscription>)
    requires Inv(s) && ch in s.contexts
    ensures Inv(OnSubscribe(s, ch, pid, wanted))
  {
    if !s.contexts[ch].connected || wanted == [] || SessionOf(s, ch).None? {
      InvCloseChannel(s, ch);
    } else {
      InvSubscribeAll(s, ch, SessionOf(s, ch).value, wanted);
      InvSendTo(SubscribeAll(s, ch, SessionOf(s, ch).value, wanted), ch, O.Suback(pid, GrantCodes(wanted)));
    }
  }

  lemma InvOnUnsubscribe(s: State, ch: ChannelId, pid: nat, filters: seq<Text>)
    requires Inv(s) && ch in s.contexts
    ensures Inv(OnUnsubscribe(s, ch, pid, filters))
  {
    if !s.contexts[ch].connected || filters == [] || SessionOf(s, ch).None? {
      InvCloseChannel(s, ch);
    } else {
      InvUnsubscribeAll(s, SessionOf(s, ch).value, filters);
      InvSendTo(UnsubscribeAll(s, SessionOf(s, ch).value, filters), ch, O.Unsuback(pid));
    }
  }

  // ----- The other events -----

  lemma InvReleaseHeld(s: State, ch: ChannelId, pid: nat)
    requires Inv(s) && ch in s.contexts
    ensures Inv(ReleaseHeld(s, ch, pid))
  {
    if pid in s.contexts[ch].awaitingPubrel {
      var s1 := Route(s, s.contexts[ch].awaitingPubrel[pid]);
      InvRoute(s, s.contexts[ch].awaitingPubrel[pid]);
      InvSetContext(s1, ch, s1.contexts[ch].(awaitingPubrel := s1.contexts[ch].awaitingPubrel - {pid}));
    }
  }

  lemma InvOnAck(s: State, ch: ChannelId, kind: AckKind, pid: nat)
    requires Inv(s) && ch in s.contexts
    ensures Inv(OnAck(s, ch, kind, pid))
  {
    var ctx := s.contexts[ch];
    if !ctx.connected {
      InvCloseChannel(s, ch);
    } else {
      match kind
      case PubackAck =>
        InvSetContext(s, ch, ctx.(awaitingPuback := ctx.awaitingPuback - {pid}, out := O.Forget(ctx.out, pid)));
      case PubrecAck =>
        InvSetContext(s, ch, ctx.(out := O.Release(ctx.out, pid, s.clock)));
      case PubrelAck =>
        InvReleaseHeld(s, ch, pid);
        InvSendTo(ReleaseHeld(s, ch, pid), ch, O.Pubcomp(pid));
      case PubcompAck =>
        InvSetContext(s, ch, ctx.(out := O.Forget(ctx.out, pid)));
    }
  }

  lemma InvOnRetry(s: State, ch: ChannelId, order: seq<nat>, tick: nat)
    requires Inv(s) && ch in s.contexts
    ensures Inv(OnRetry(s, ch, order, tick))
  {
    var ctx := s.contexts[ch];
    var r := O.Retry(ctx.out, order, ctx.connected, tick, s.clock);
    InvSetContext(s, ch, ctx.(out := r.0));
    if r.1 { InvCloseChannel(SetContext(s, ch, ctx.(out := r.0)), ch); }
  }

  /** DISCONNECT leaves the connection registered, but no longer connected. */
  lemma InvDisconnect(s: State, ch: ChannelId)
    requires Inv(s) && ch in s.contexts
    ensures Inv(SetContext(s, ch, s.contexts[ch].(cleanDisconnect := true, connected := false)))
  {
    var s' := SetContext(s, ch, s.contexts[ch].(cleanDisconnect := true, connected := false));
    forall c | c in s.byId ensures BoundOk(s'.contexts, s'.byId, s'.sessions, c) {
      assert BoundOk(s.contexts, s.byId, s.sessions, c);
    }
    forall h | h in s.contexts ensures ContextOk(s'.contexts, s'.byId, s'.nextChannel, h) {
      assert ContextOk(s.contexts, s.byId, s.nextChannel, h);
    }
    forall x | x in s.queues ensures QueueOk(s', x) { assert QueueOk(s, x); }
  }

  lemma InvAccept(s: State)
    requires Inv(s)
    ensures Inv(Step(s, Accept))
  {
    var s' := Step(s, Accept);
    forall c | c in s.byId ensures BoundOk(s'.contexts, s'.byId, s'.sessions, c) {
      assert BoundOk(s.contexts, s.byId, s.sessions, c);
      assert ContextOk(s.contexts, s.byId, s.nextChannel, s.byId[c]);
    }
    forall h | h in s'.contexts ensures ContextOk(s'.contexts, s'.byId, s'.nextChannel, h) {
      if h != s.nextChannel { assert ContextOk(s.contexts, s.byId, s.nextChannel, h); }
    }
    forall x | x in s.queues ensures QueueOk(s', x) {
      assert QueueOk(s, x);
      assert x.clientId in s.byId ==> ContextOk(s.contexts, s.byId, s.nextChannel, s.byId[x.clientId]);
    }
  }

  lemma InvHandle(s: State, ch: ChannelId, input: Input)
    requires Inv(s) && ch in s.contexts && Allowed(s, s.contexts[ch], input)
    ensures Inv(Handle(s, ch, input))
  {
    match input
    case Connect(cp) => InvOnConnect(s, ch, cp);
    case Publish(pub) => InvOnPublish(s, ch, pub);
    case Subscribe(pid, wanted) => InvOnSubscribe(s, ch, pid, wanted);
    case Unsubscribe(pid, filters) => InvOnUnsubscribe(s, ch, pid, filters);
    case Ack(kind, pid) => InvOnAck(s, ch, kind, pid);
    case Ping => InvSendTo(s, ch, O.Pingresp); InvCloseChannel(s, ch);
    case Disconnect => InvDisconnect(s, ch);
    case Close => InvCloseChannel(s, ch);
    case Retry(order, tick) => InvOnRetry(s, ch, order, tick);
  }

  lemma InvStep(s: State, e: Event)
    requires Inv(s) && Admissible(s, e)
    ensures Inv(Step(s, e))
  {
    match e
    case Accept => InvAccept(s);
    case Elapse(millis) =>
    case On(ch, input) =>
      if ch in s.contexts { InvHandle(s, ch, input); }
  }

  /** The invariant holds in every state of every run. */
  lemma {:induction false} InvReachable(maxConnections: nat, events: seq<Event>, states: seq<State>, i: nat)
    requires IsRun(maxConnections, events, states) && i <= |events|
    ensures Inv(states[i])
  {
    if i == 0 {
      InvInit(maxConnections);
    } else {
      InvReachable(maxConnections, events, states, i - 1);
      InvStep(states[i - 1], events[i - 1]);
    }
  }

  /** The step that led to a state of a run. */
  lemma LatestStep(maxConnections: nat, events: seq<Event>, states: seq<State>, n: nat)
    requires IsRun(maxConnections, events, states) && 0 < n <= |events|
    ensures Inv(states[n - 1]) && Admissible(states[n - 1], events[n - 1])
    ensures states[n] == Step(states[n - 1], events[n - 1])
  {
    InvReachable(maxConnections, events, states, n - 1);
  }
}
