/** The broker's record of one connection, changed in place by router and handlers. */
module ClientContext {
  import opened Bytes
  import opened Model
  import opened Outbox
  import opened Broker
  import T = Topic
  import O = Outbound

  function Attached(ctx: Context, clientId: Text, session: Session, will: Will): Context {
    ctx.(session := Some(session), clientId := clientId, connected := true, cleanDisconnect := false,
         takenOver := false, will := will)
  }

  class ClientContext {
    const channel: ChannelId
    var session: Option<Session>
    var clientId: Text
    var connected: bool
    var cleanDisconnect: bool
    var takenOver: bool
    var will: Will
    var awaitingPuback: map<nat, Text>
    var awaitingPubrel: map<nat, Message>
    var inflight: map<nat, O.OutItem>
    var nextOutPid: nat
    // The history of the channel: identifiers handed out and packets accepted for sending.
    var allocs: nat
    var log: seq<O.Sent>

    function Out(): O.Outbound
      reads this
    {
      O.Outbound(inflight, nextOutPid, allocs, log)
    }

    function Snap(): Context
      reads this
    {
      Context(session, clientId, connected, cleanDisconnect, takenOver, will, awaitingPuback, awaitingPubrel, Out())
    }

    constructor (channel: ChannelId)
      ensures this.channel == channel && Snap() == FRESH
    {
      this.channel := channel;
      session, clientId, will := None, [], NO_WILL;
      connected, cleanDisconnect, takenOver := false, false, false;
      awaitingPuback, awaitingPubrel, inflight := map[], map[], map[];
      nextOutPid, allocs, log := 1, 0, [];
    }

    method TakeOver()
      modifies this`takenOver, this`session
      ensures Snap() == old(Snap()).(takenOver := true, session := None)
    {
      takenOver := true;
      session := None;
    }

    /** PUBREL: the held message is forgotten. */
    method DropHeld(pid: nat)
      modifies this`awaitingPubrel
      ensures Snap() == old(Snap()).(awaitingPubrel := old(awaitingPubrel) - {pid})
    {
      awaitingPubrel := awaitingPubrel - {pid};
    }

    /** An accepted CONNECT. */
    method Attach(session: Session, clientId: Text, will: Will)
      modifies this
      ensures Snap() == Attached(old(Snap()), clientId, session, will)
    {
      this.session := Some(session);
      this.clientId := clientId;
      connected := true;
      cleanDisconnect := false;
      takenOver := false;
      this.will := will;
    }

    /** Notes the identifier of a PUBLISH above QoS 0, unless it is already noted. */
    method Note(pub: PublishPacket) returns (seen: bool)
      modifies this`awaitingPuback, this`awaitingPubrel
      ensures seen == AlreadyReceived(old(Snap()), pub)
      ensures Snap() == if seen then old(Snap()) else Remember(old(Snap()), pub)
    {
      if pub.qos == AT_LEAST_ONCE {
        if pub.packetId in awaitingPuback { return true; }
        awaitingPuback := awaitingPuback[pub.packetId := pub.topic];
      } else if pub.qos == EXACTLY_ONCE {
        if pub.packetId in awaitingPubrel { return true; }
        awaitingPubrel := awaitingPubrel[pub.packetId := PublishedMessage(Snap(), pub)];
      }
      return false;
    }

    /** PUBACK and PUBCOMP end an in-flight message; a PUBACK also ends an inbound identifier. */
    method Finish(pid: nat, puback: bool)
      modifies this`awaitingPuback, this`inflight
      ensures Snap() == old(Snap()).(
                          awaitingPuback := if puback then old(awaitingPuback) - {pid} else old(awaitingPuback),
                          out := O.Forget(old(Out()), pid))
    {
      if puback { awaitingPuback := awaitingPuback - {pid}; }
      inflight := inflight - {pid};
    }

    method Release(pid: nat, now: nat)
      modifies this`inflight, this`log
      ensures Snap() == old(Snap()).(out := O.Release(old(Out()), pid, now))
    {
      if pid in inflight && inflight[pid].qos == EXACTLY_ONCE {
        inflight := inflight[pid := inflight[pid].(pubrelSent := true)];
        Send(O.Pubrel(pid), now, inflight[pid].alloc);
      }
    }

    method Disconnect()
      modifies this`cleanDisconnect, this`connected
      ensures Snap() == old(Snap()).(cleanDisconnect := true, connected := false)
    {
      cleanDisconnect := true;
      connected := false;
    }

    /** A 16-bit counter that skips 0. */
    method NextPacketId() returns (pid: nat)
      modifies this`nextOutPid, this`allocs
      ensures pid == nextOutPid == O.NextPid(old(nextOutPid)) && allocs == old(allocs) + 1
    {
      nextOutPid := (nextOutPid + 1) % 0x1_0000;
      if nextOutPid == 0 { nextOutPid := 1; }
      allocs := allocs + 1;
      pid := nextOutPid;
    }

    /** Hands a packet to the channel, which is open. */
    method Send(packet: O.Packet, now: nat, alloc: nat)
      modifies this`log
      ensures log == old(log) + [O.Sent(packet, now, alloc)]
      ensures alloc == 0 ==> Snap() == old(Snap()).(out := O.Emit(old(Out()), packet, now))
    {
      log := log + [O.Sent(packet, now, alloc)];
    }

    method Deliver(msg: Message, granted: Qos, retained: bool, dup: bool, now: nat)
      modifies this`log, this`inflight, this`nextOutPid, this`allocs
      ensures Snap() == old(Snap()).(out := O.Deliver(old(Out()), msg, granted, retained, dup, now, true))
    {
      var qos := if granted < msg.qos then granted else msg.qos;
      var pid, alloc := 0, 0;
      if qos != AT_MOST_ONCE {
        pid := NextPacketId();
        alloc := allocs;
        inflight := inflight[pid := O.OutItem(qos, false, msg.topic, msg.payload, msg.source, now, 0, alloc)];
      }
      Send(O.Publish(msg.topic, msg.payload, qos, retained, dup, pid, msg.source), now, alloc);
    }

    /** Everything that was queued while the client was away, oldest first. */
    method Replay(queue: seq<OutboxMessage>, now: nat)
      modifies this`log, this`inflight, this`nextOutPid, this`allocs
      ensures Snap() == old(Snap()).(out := Drained(old(Out()), queue, now))
    {
      var i := 0;
      while i < |queue|
        invariant 0 <= i <= |queue|
        invariant Drained(Out(), queue[i..], now) == Drained(old(Out()), queue, now)
      {
        assert queue[i..][1..] == queue[i + 1..];
        Deliver(queue[i].msg, queue[i].granted, queue[i].retained, true, now);
        i := i + 1;
      }
    }

    /** The retained messages that a new subscription matches. */
    method DeliverRetained(retained: seq<Message>, sub: Subscription, now: nat)
      modifies this`log, this`inflight, this`nextOutPid, this`allocs
      ensures Snap() == old(Snap()).(out := WithRetained(old(Out()), retained, sub, now))
    {
      var i := 0;
      while i < |retained|
        invariant 0 <= i <= |retained|
        invariant WithRetained(Out(), retained[i..], sub, now) == WithRetained(old(Out()), retained, sub, now)
      {
        assert retained[i..][1..] == retained[i + 1..];
        if T.Matches(sub.filter, retained[i].topic) {
          Deliver(retained[i], sub.qos, true, false, now);
        }
        i := i + 1;
      }
    }

    /** Sends an in-flight message again: its PUBREL once that was sent, else the PUBLISH. */
    method Resend(pid: nat, now: nat)
      modifies this`log, this`inflight
      ensures Out() == if pid in old(inflight) && connected then O.Resend(old(Out()), pid, now) else old(Out())
    {
      if pid !in inflight { return; }
      if !connected { return; }
      var item := inflight[pid];
      if item.qos == EXACTLY_ONCE && item.pubrelSent {
        Send(O.Pubrel(pid), now, item.alloc);
      } else {
        Send(O.Publish(item.topic, item.payload, item.qos, false, true, pid, item.source), now, item.alloc);
        inflight := inflight[pid := item.(sentTime := now, retryCount := item.retryCount + 1)];
      }
    }

    /** Looks at the in-flight messages in the order the table yields them. */
    method CheckRetransmission(order: seq<nat>, tick: nat, now: nat) returns (giveUp: bool)
      requires forall i :: 0 <= i < |order| ==> order[i] in inflight
      modifies this`log, this`inflight
      ensures
        var r := O.Retry(old(Out()), order, connected, tick, now);
        giveUp == r.1 && Snap() == old(Snap()).(out := r.0)
    {
      var i := 0;
      while i < |order|
        invariant 0 <= i <= |order|
        invariant inflight.Keys == old(inflight).Keys
        invariant O.Retry(Out(), order[i..], connected, tick, now) == O.Retry(old(Out()), order, connected, tick, now)
      {
        assert order[i..][1..] == order[i + 1..];
        assert order[i] in inflight;
        var item := inflight[order[i]];
        if item.retryCount >= O.MAX_RETRIES { return true; }
        if tick - item.sentTime >= O.RETRY_INTERVAL { Resend(order[i], now); }
        i := i + 1;
      }
      return false;
    }
  }
}
