/**
 A client that comes back to its persistent session: it is told that the session
 is present, and gets what it missed, in order, once each, before anything else.
 */
module Resume {
  import opened Bytes
  import opened Model
  import opened Outbox
  import opened Broker
  import opened Invariant
  import opened Routing
  import opened StoreForward
  import opened OutboundRuns
  import O = Outbound

  /** A queued message as it is sent on resumption: marked as a duplicate, at the QoS it was queued with. */
  ghost predicate IsReplay(p: O.Packet, q: OutboxMessage) {
    && p.Publish? && p.topic == q.msg.topic && p.payload == q.msg.payload && p.source == q.msg.source
    && p.qos == MinQos(q.granted, q.msg.qos) && p.retain == q.retained && p.dup
  }

  /** The log ends with one packet for each queued message, in the order of the queue. */
  ghost predicate Replayed(before: seq<O.Sent>, after: seq<O.Sent>, queue: seq<OutboxMessage>) {
    && before <= after && |after| == |before| + |queue|
    && forall i :: 0 <= i < |queue| ==> IsReplay(after[|before| + i].packet, queue[i])
  }

  lemma {:induction false} DrainReplays(o: O.Outbound, queue: seq<OutboxMessage>, now: int)
    ensures Replayed(o.log, Drained(o, queue, now).log, queue)
    decreases |queue|
  {
    if queue != [] {
      var o1 := O.Deliver(o, queue[0].msg, queue[0].granted, queue[0].retained, true, now, true);
      DrainReplays(o1, queue[1..], now);
      var after := Drained(o, queue, now).log;
      forall i | 0 <= i < |queue| ensures IsReplay(after[|o.log| + i].packet, queue[i]) {
        if i == 0 {
          assert after[|o.log|] == o1.log[|o.log|];
        } else {
          assert IsReplay(after[|o1.log| + (i - 1)].packet, queue[1..][i - 1]);
        }
      }
    }
  }

  lemma HeldElsewhere(s: State, c: Text, ch: ChannelId)
    requires Inv(s) && c in s.byId && ch in s.contexts && s.contexts[ch].clientId == []
    ensures s.byId[c] != ch
  {
    assert BoundOk(s.contexts, s.byId, s.sessions, c);
  }

  lemma Rebound(byId: ById, c: Text, ch: ChannelId)
    ensures (byId - {c})[c := ch] == byId[c := ch]
  {
  }

  /** Taking over the client's previous connection leaves its session, queue and new connection alone. */
  lemma TakeOverForResumption(s: State, ch: ChannelId, c: Text)
    requires Inv(s) && ch in s.contexts && s.contexts[ch].clientId == []
    ensures
      var s1 := TakeOver(s, c, ch);
      && s1.sessions == s.sessions && s1.queues == s.queues
      && s1.byId[c := ch] == s.byId[c := ch] && ch in s1.contexts && s1.contexts[ch] == s.contexts[ch]
  {
    TakeOverIsSilent(s, c, ch);
    if c in s.byId {
      HeldElsewhere(s, c, ch);
      Rebound(s.byId, c, ch);
    }
  }

  lemma EstablishedResumes(s: State, ch: ChannelId, c: Text, cp: ConnectPacket)
    requires ch in s.contexts && c in s.sessions
    ensures
      var s' := Established(s, ch, c, cp, true);
      var out := O.Emit(s.contexts[ch].out, O.Connack(true, 0), s.clock);
      && ch in s'.contexts && s'.contexts[ch].connected
      && s'.contexts[ch].out == Drained(out, QueueOf(s.queues, s.sessions[c]), s.clock)
      && s'.sessions == s.sessions && s'.byId == s.byId[c := ch] && QueueOf(s'.queues, s.sessions[c]) == []
  {
  }

  lemma AcceptedResumes(s: State, ch: ChannelId, cp: ConnectPacket)
    requires Inv(s) && ch in s.contexts && s.contexts[ch].clientId == [] && !cp.clean && cp.clientId in s.sessions
    ensures
      var s' := Accepted(s, ch, cp.clientId, cp);
      var x := s.sessions[cp.clientId];
      var out := O.Emit(s.contexts[ch].out, O.Connack(true, 0), s.clock);
      && ch in s'.contexts && s'.contexts[ch].connected
      && s'.contexts[ch].out == Drained(out, QueueOf(s.queues, x), s.clock)
      && s'.sessions == s.sessions && s'.byId == s.byId[cp.clientId := ch] && QueueOf(s'.queues, x) == []
  {
    TakeOverForResumption(s, ch, cp.clientId);
    EstablishedResumes(TakeOver(s, cp.clientId, ch), ch, cp.clientId, cp);
  }

  /** The CONNECT at step `n` is accepted and asks for the stored session `x`. */
  ghost predicate ResumesAt(events: seq<Event>, states: seq<State>, n: nat, x: Session)
    requires n < |events| < |states|
  {
    && events[n].On? && events[n].input.Connect? && events[n].ch in states[n].contexts
    && !states[n].contexts[events[n].ch].connected
    && var cp := events[n].input.cp;
       cp.protocol == MQTT && Refusal(states[n], cp).None? && !cp.clean
       && cp.clientId == x.clientId != [] && Live(states[n].sessions, x)
  }

  /** The log is a CONNACK with the session-present flag, and then a replay of these messages. */
  ghost predicate Greeting(log: seq<O.Sent>, queue: seq<OutboxMessage>) {
    log != [] && log[0].packet == O.Connack(true, 0) && Replayed(log[..1], log, queue)
  }

  lemma DrainGreets(o: O.Outbound, queue: seq<OutboxMessage>, now: int)
    requires o.log == []
    ensures Greeting(Drained(O.Emit(o, O.Connack(true, 0), now), queue, now).log, queue)
  {
    var o1 := O.Emit(o, O.Connack(true, 0), now);
    DrainReplays(o1, queue, now);
    assert Drained(o1, queue, now).log[..1] == o1.log;
  }

  /**
   Over every run: the connection that resumes a persistent session is sent
   nothing before the CONNACK with the session-present flag, and then the newest
   1000 of all the messages the session has missed, in order and once each. The
   queue is then empty, and the session is the same object as before.
   */
  lemma ResumptionReplaysMissed(maxConnections: nat, events: seq<Event>, states: seq<State>, n: nat, x: Session)
    requires IsRun(maxConnections, events, states) && n < |events|
    requires ResumesAt(events, states, n, x) && !x.clean
    ensures
      var s', ch := states[n + 1], events[n].ch;
      && ch in s'.contexts && Live(s'.sessions, x)
      && Online(s'.contexts, s'.byId, x.clientId) && s'.byId[x.clientId] == ch
      && QueueOf(s'.queues, x) == []
      && Greeting(s'.contexts[ch].out.log, Newest(Missed(events, states, x, n)))
  {
    var s, ch, cp := states[n], events[n].ch, events[n].input.cp;
    InvReachable(maxConnections, events, states, n);
    QueueIsMissed(maxConnections, events, states, x, n);
    ConnackComesFirst(maxConnections, events, states, n, ch);
    assert Admissible(s, events[n]);
    AcceptedResumes(s, ch, cp);
    DrainGreets(s.contexts[ch].out, QueueOf(s.queues, x), s.clock);
    assert states[n + 1] == Accepted(s, ch, cp.clientId, cp);
  }

  /** The history of a connection starts with that greeting. */
  ghost predicate StartsWith(log: seq<O.Sent>, queue: seq<OutboxMessage>) {
    exists greeting :: greeting <= log && Greeting(greeting, queue)
  }

  /** And all of that comes before whatever else the connection is ever sent. */
  lemma ReplayComesFirst(maxConnections: nat, events: seq<Event>, states: seq<State>, n: nat, x: Session, j: nat)
    requires IsRun(maxConnections, events, states) && n < j <= |events|
    requires ResumesAt(events, states, n, x) && !x.clean && events[n].ch in states[j].contexts
    ensures StartsWith(states[j].contexts[events[n].ch].out.log, Newest(Missed(events, states, x, n)))
  {
    ResumptionReplaysMissed(maxConnections, events, states, n, x);
    SentInOrder(maxConnections, events, states, n + 1, j, events[n].ch);
    assert states[n + 1].contexts[events[n].ch].out.log <= states[j].contexts[events[n].ch].out.log;
  }
}
