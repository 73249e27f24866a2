/**
 What the broker guarantees in every state of every run: who owns which session,
 what the topic tree holds, how many clients are connected, and what a
 SUBSCRIBE is answered with.
 */
module Guarantees {
  import opened Bytes
  import opened Model
  import opened Outbox
  import opened Broker
  import opened Invariant
  import opened Inbound
  import T = Topic
  import O = Outbound
  import R = RetainStore

  // ----- Ownership -----

  ghost predicate Owns(s: State, ch: ChannelId, x: Session) {
    ch in s.contexts && s.contexts[ch].session == Some(x)
  }

  /**
   A bound client id leads to a registered connection that is not taken over and
   owns the stored session; a session has at most one owner; a stored clean
   session has one, so none is leaked by closing or taking over.
   */
  lemma Ownership(maxConnections: nat, events: seq<Event>, states: seq<State>, n: nat)
    requires IsRun(maxConnections, events, states) && n <= |events|
    ensures
      var s := states[n];
      && (forall c :: c in s.byId ==>
            && c in s.sessions && Owns(s, s.byId[c], s.sessions[c])
            && s.contexts[s.byId[c]].clientId == c && !s.contexts[s.byId[c]].takenOver)
      && (forall g, h, x :: Owns(s, g, x) && Owns(s, h, x) ==> g == h)
      && (forall g, x :: Owns(s, g, x) ==> Live(s.sessions, x))
      && (forall c :: c in s.sessions && s.sessions[c].clean ==> c in s.byId && Owns(s, s.byId[c], s.sessions[c]))
  {
    InvReachable(maxConnections, events, states, n);
    var s := states[n];
    forall c | c in s.byId
      ensures c in s.sessions && Owns(s, s.byId[c], s.sessions[c])
      ensures s.contexts[s.byId[c]].clientId == c && !s.contexts[s.byId[c]].takenOver
    {
      assert BoundOk(s.contexts, s.byId, s.sessions, c);
      assert ContextOk(s.contexts, s.byId, s.nextChannel, s.byId[c]);
    }
    forall g, x | Owns(s, g, x) ensures Live(s.sessions, x) && x.clientId in s.byId && s.byId[x.clientId] == g {
      OwnerIsBound(s, g, x);
    }
    forall c | c in s.sessions && s.sessions[c].clean ensures c in s.byId && Owns(s, s.byId[c], s.sessions[c]) {
      assert SessionOk(s.byId, s.sessions, s.nextSession, None, c);
      assert BoundOk(s.contexts, s.byId, s.sessions, c);
    }
  }

  lemma OwnerIsBound(s: State, ch: ChannelId, x: Session)
    requires Inv(s) && Owns(s, ch, x)
    ensures Live(s.sessions, x) && x.clientId in s.byId && s.byId[x.clientId] == ch
  {
    assert ContextOk(s.contexts, s.byId, s.nextChannel, ch);
    var c := s.contexts[ch].clientId;
    assert BoundOk(s.contexts, s.byId, s.sessions, c);
    assert SessionOk(s.byId, s.sessions, s.nextSession, None, c);
  }

  // ----- Subscriptions -----

  /**
   The list in a session object has distinct filters and is, with the granted
   QoS, exactly what the topic tree holds for the session; the tree holds
   nothing of sessions that are gone.
   */
  lemma SubscriptionMirror(maxConnections: nat, events: seq<Event>, states: seq<State>, n: nat)
    requires IsRun(maxConnections, events, states) && n <= |events|
    ensures
      var s := states[n];
      && (forall x :: x in s.subs <==> Live(s.sessions, x))
      && (forall x :: x in s.subs ==> DistinctFilters(s.subs[x]))
      && (forall x, f, q: Qos :: x in s.subs ==>
            (Subscription(f, q) in s.subs[x] <==> Key(x, f) in s.entries && s.entries[Key(x, f)] == q))
      && (forall k :: k in s.entries ==> Live(s.sessions, k.session) && T.ValidFilter(k.filter))
  {
    InvReachable(maxConnections, events, states, n);
    var s := states[n];
    forall x, f, q: Qos | x in s.subs
      ensures Subscription(f, q) in s.subs[x] <==> Key(x, f) in s.entries && s.entries[Key(x, f)] == q
    {
      assert ListOk(s.entries, x, s.subs[x]);
      if Key(x, f) in s.entries { assert EntryOk(s.subs, s.entries, Key(x, f)); }
    }
    forall k | k in s.entries ensures Live(s.sessions, k.session) && T.ValidFilter(k.filter) {
      assert EntryOk(s.subs, s.entries, k);
      assert ListOk(s.entries, k.session, s.subs[k.session]);
    }
  }

  // ----- The number of connected clients -----

  ghost function ConnectedSet(s: State): set<ChannelId> {
    set ch | ch in s.contexts && s.contexts[ch].connected
  }

  /** The CONNECT passes all checks. */
  predicate Welcome(s: State, ch: ChannelId, input: Input)
    requires ch in s.contexts
  {
    input.Connect? && !s.contexts[ch].connected && input.cp.protocol == MQTT && Refusal(s, input.cp).None?
  }

  lemma TurnedAwayIsGone(s: State, ch: ChannelId, cp: ConnectPacket)
    requires ch in s.contexts && !Welcome(s, ch, Connect(cp))
    ensures ch !in OnConnect(s, ch, cp).contexts
  {
    if s.contexts[ch].connected || cp.protocol != MQTT {
      CloseKeeps(s, ch, ch);
    } else {
      RefusedKeeps(s, ch, O.Connack(false, Refusal(s, cp).value));
    }
  }

  /** Nothing but an accepted CONNECT makes a connection a connected one. */
  lemma OnlyConnectConnects(s: State, ch: ChannelId, input: Input)
    requires ch in s.contexts && !s.contexts[ch].connected && !Welcome(s, ch, input)
    ensures ch in Handle(s, ch, input).contexts ==> !Handle(s, ch, input).contexts[ch].connected
  {
    if input.Connect? {
      TurnedAwayIsGone(s, ch, input.cp);
    } else if input.Retry? {
      var ctx := s.contexts[ch];
      var r := O.Retry(ctx.out, input.order, ctx.connected, input.tick, s.clock);
      CloseKeeps(SetContext(s, ch, ctx.(out := r.0)), ch, ch);
    } else if !input.Disconnect? {
      CloseKeeps(s, ch, ch);
    }
  }

  lemma ConnectedStep(s: State, e: Event)
    ensures ConnectedSet(Step(s, e)) <= ConnectedSet(s)
            || (ConnectedSet(Step(s, e)) <= s.contexts.Keys && |s.contexts| < s.maxConnections)
  {
    if e.On? && e.ch in s.contexts {
      OthersKeptByHandle(s, e.ch, e.input);
      if !s.contexts[e.ch].connected && !Welcome(s, e.ch, e.input) { OnlyConnectConnects(s, e.ch, e.input); }
    }
  }

  lemma SubsetSize<A>(a: set<A>, b: set<A>)
    requires a <= b
    ensures |a| <= |b|
  {
    if a != {} {
      var x :| x in a;
      SubsetSize(a - {x}, b - {x});
    }
  }

  lemma ConfigurationStays(s: State, e: Event)
    ensures Step(s, e).maxConnections == s.maxConnections
  {
  }

  /**
   In every reachable state fewer clients than the configured maximum are
   connected. In particular a maximum of 0 lets nobody in, although the sample
   configuration calls it unlimited.
   */
  lemma {:induction false} FewerThanTheMaximum(maxConnections: nat, events: seq<Event>, states: seq<State>, n: nat)
    requires IsRun(maxConnections, events, states) && n <= |events|
    ensures states[n].maxConnections == maxConnections
    ensures ConnectedSet(states[n]) == {} || |ConnectedSet(states[n])| < maxConnections
  {
    if n > 0 {
      FewerThanTheMaximum(maxConnections, events, states, n - 1);
      var s := states[n - 1];
      ConnectedStep(s, events[n - 1]);
      ConfigurationStays(s, events[n - 1]);
      if ConnectedSet(states[n]) <= ConnectedSet(s) {
        SubsetSize(ConnectedSet(states[n]), ConnectedSet(s));
      } else {
        SubsetSize(ConnectedSet(states[n]), s.contexts.Keys);
      }
    }
  }

  // ----- SUBSCRIBE -----

  /** The retained messages a filter matches, in stored order. */
  function Matching(retained: seq<Message>, filter: Text): seq<Message> {
    if retained == [] then []
    else (if T.Matches(filter, retained[0].topic) then [retained[0]] else []) + Matching(retained[1..], filter)
  }

  /** Each matching topic exactly once, and no other. */
  lemma {:induction false} MatchingOnce(retained: seq<Message>, filter: Text)
    requires R.DistinctTopics(retained)
    ensures R.DistinctTopics(Matching(retained, filter))
    ensures forall m :: m in Matching(retained, filter) <==> m in retained && T.Matches(filter, m.topic)
  {
    if retained != [] {
      var rest := retained[1..];
      MatchingOnce(rest, filter);
      assert retained == [retained[0]] + rest;
      forall m | m in Matching(rest, filter) ensures m.topic != retained[0].topic {
        var i :| 0 <= i < |rest| && rest[i] == m;
        assert retained[i + 1] == m;
      }
    }
  }

  /** A retained message as a new subscriber gets it. */
  ghost predicate IsRetainedCopy(p: O.Packet, m: Message, granted: Qos) {
    && p.Publish? && p.topic == m.topic && p.payload == m.payload && p.source == m.source
    && p.qos == MinQos(granted, m.qos) && p.retain && !p.dup
  }

  ghost predicate Copied(before: seq<O.Sent>, after: seq<O.Sent>, messages: seq<Message>, granted: Qos) {
    && before <= after && |after| == |before| + |messages|
    && forall i :: 0 <= i < |messages| ==> IsRetainedCopy(after[|before| + i].packet, messages[i], granted)
  }

  lemma {:induction false} RetainedCopied(o: O.Outbound, retained: seq<Message>, sub: Subscription, now: int)
    ensures Copied(o.log, WithRetained(o, retained, sub, now).log, Matching(retained, sub.filter), sub.qos)
    decreases |retained|
  {
    if retained != [] {
      var hit := T.Matches(sub.filter, retained[0].topic);
      var o1 := if hit then O.Deliver(o, retained[0], sub.qos, true, false, now, true) else o;
      RetainedCopied(o1, retained[1..], sub, now);
      var after, messages := WithRetained(o, retained, sub, now).log, Matching(retained, sub.filter);
      if hit {
        forall i | 0 <= i < |messages| ensures IsRetainedCopy(after[|o.log| + i].packet, messages[i], sub.qos) {
          if i == 0 {
            assert after[|o.log|] == o1.log[|o.log|];
          } else {
            var rest := Matching(retained[1..], sub.filter);
            assert IsRetainedCopy(after[|o1.log| + (i - 1)].packet, rest[i - 1], sub.qos);
          }
        }
      }
    }
  }

  /** What an entry is answered with: the matching messages, or nothing if its filter is invalid. */
  ghost function Offered(retained: seq<Message>, filter: Text): seq<Message> {
    if T.ValidFilter(filter) then Matching(retained, filter) else []
  }

  /** The history grows by the matching retained messages, entry by entry. */
  ghost predicate Served(before: seq<O.Sent>, after: seq<O.Sent>, retained: seq<Message>, wanted: seq<Subscription>)
    decreases |wanted|
  {
    if wanted == [] then after == before
    else exists mid ::
      && Copied(before, mid, Offered(retained, wanted[0].filter), wanted[0].qos)
      && Served(mid, after, retained, wanted[1..])
  }

  lemma {:induction false} SubscribeAnswered(s: State, ch: ChannelId, x: Session, wanted: seq<Subscription>)
    requires ch in s.contexts && x in s.subs
    ensures Served(s.contexts[ch].out.log, SubscribeAll(s, ch, x, wanted).contexts[ch].out.log, s.retained, wanted)
    decreases |wanted|
  {
    if wanted != [] {
      var s1 := SubscribeOne(s, ch, x, wanted[0]);
      RetainedCopied(s.contexts[ch].out, s.retained, wanted[0], s.clock);
      SubscribeAnswered(s1, ch, x, wanted[1..]);
      assert Copied(s.contexts[ch].out.log, s1.contexts[ch].out.log,
                    Offered(s.retained, wanted[0].filter), wanted[0].qos);
    }
  }

  /** The QoS the last valid entry for a filter asks for. */
  ghost function LastWanted(wanted: seq<Subscription>, f: Text): Option<Qos> {
    if wanted == [] then None
    else
      var last := wanted[|wanted| - 1];
      if last.filter == f && T.ValidFilter(f) then Some(last.qos) else LastWanted(wanted[..|wanted| - 1], f)
  }

  lemma {:induction false} LastWantedFront(wanted: seq<Subscription>, f: Text)
    requires wanted != []
    ensures LastWanted(wanted, f) ==
            if LastWanted(wanted[1..], f).Some? then LastWanted(wanted[1..], f)
            else if wanted[0].filter == f && T.ValidFilter(f) then Some(wanted[0].qos) else None
  {
    if |wanted| > 1 {
      LastWantedFront(wanted[..|wanted| - 1], f);
      assert wanted[..|wanted| - 1][1..] == wanted[1..][..|wanted[1..]| - 1];
    }
  }

  /** The topic tree afterwards: the entries asked for with the QoS asked for last, everything else as before. */
  lemma {:induction false} SubscribeEntries(s: State, ch: ChannelId, x: Session, wanted: seq<Subscription>, k: Key)
    requires ch in s.contexts && x in s.subs
    ensures
      var entries := SubscribeAll(s, ch, x, wanted).entries;
      if k.session == x && LastWanted(wanted, k.filter).Some?
      then k in entries && entries[k] == LastWanted(wanted, k.filter).value
      else (k in entries <==> k in s.entries) && (k in entries ==> entries[k] == s.entries[k])
    decreases |wanted|
  {
    if wanted != [] {
      SubscribeEntries(SubscribeOne(s, ch, x, wanted[0]), ch, x, wanted[1..], k);
      LastWantedFront(wanted, k.filter);
    }
  }

  /** One code per entry: the QoS asked for if the filter is valid, else failure. */
  ghost predicate Codes(granted: seq<byte>, wanted: seq<Subscription>) {
    && |granted| == |wanted|
    && forall i :: 0 <= i < |wanted| ==>
         granted[i] == if T.ValidFilter(wanted[i].filter) then wanted[i].qos else 0x80
  }

  lemma GrantedCodes(wanted: seq<Subscription>)
    ensures Codes(GrantCodes(wanted), wanted)
  {
  }

  /** The tree has the entries asked for with the QoS asked for last, and everything else as before. */
  ghost predicate TreeAfter(s: State, s': State, x: Session, wanted: seq<Subscription>) {
    forall k: Key ::
      if k.session == x && LastWanted(wanted, k.filter).Some?
      then k in s'.entries && s'.entries[k] == LastWanted(wanted, k.filter).value
      else (k in s'.entries <==> k in s.entries) && (k in s'.entries ==> s'.entries[k] == s.entries[k])
  }

  lemma SubscribedTree(s: State, ch: ChannelId, x: Session, wanted: seq<Subscription>, packet: O.Packet)
    requires ch in s.contexts && x in s.subs
    ensures TreeAfter(s, SendTo(SubscribeAll(s, ch, x, wanted), ch, packet), x, wanted)
  {
    forall k: Key
      ensures
        var entries := SubscribeAll(s, ch, x, wanted).entries;
        if k.session == x && LastWanted(wanted, k.filter).Some?
        then k in entries && entries[k] == LastWanted(wanted, k.filter).value
        else (k in entries <==> k in s.entries) && (k in entries ==> entries[k] == s.entries[k])
    {
      SubscribeEntries(s, ch, x, wanted, k);
    }
  }

  /**
   A SUBSCRIBE of a connected client, in every run: entry by entry, each retained
   message the filter matches is sent exactly once, then one SUBACK whose codes
   stand one for one for the entries; and from then on the topic tree has them.
   */
  lemma SubscribeOutcome(maxConnections: nat, events: seq<Event>, states: seq<State>, n: nat)
    requires IsRun(maxConnections, events, states) && n < |events|
    requires events[n].On? && events[n].input.Subscribe? && events[n].input.wanted != []
    requires events[n].ch in states[n].contexts && states[n].contexts[events[n].ch].connected
    ensures
      var s, s', ch, wanted := states[n], states[n + 1], events[n].ch, events[n].input.wanted;
      && s.contexts[ch].session.Some? && ch in s'.contexts && R.DistinctTopics(s.retained)
      && (var log := s'.contexts[ch].out.log;
          && |log| > 0
          && Served(s.contexts[ch].out.log, log[..|log| - 1], s.retained, wanted)
          && (var answer := log[|log| - 1].packet;
              answer.Suback? && answer.packetId == events[n].input.packetId && Codes(answer.granted, wanted)))
      && TreeAfter(s, s', s.contexts[ch].session.value, wanted)
  {
    var s, ch, wanted := states[n], events[n].ch, events[n].input.wanted;
    InvReachable(maxConnections, events, states, n);
    ConnectedHasSession(s, ch);
    var x := s.contexts[ch].session.value;
    var s1, answer := SubscribeAll(s, ch, x, wanted), O.Suback(events[n].input.packetId, GrantCodes(wanted));
    SubscribeAnswered(s, ch, x, wanted);
    GrantedCodes(wanted);
    SubscribedTree(s, ch, x, wanted, answer);
    assert states[n + 1] == SendTo(s1, ch, answer);
    var log := SendTo(s1, ch, answer).contexts[ch].out.log;
    assert log[..|log| - 1] == s1.contexts[ch].out.log;
  }
}
