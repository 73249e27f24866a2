/**
 The subscriber side of the QoS protocol of one connection: packet identifiers,
 in-flight messages, retransmission. Proved over the whole history of what was
 sent: how often and how far apart a message is repeated, that it is never
 repeated after its PUBREL, and that identifiers do not collide.
 */
module Outbound {
  import opened Bytes
  import opened Model

  const MAX_RETRIES: nat := 10
  const RETRY_INTERVAL: nat := 5000

  /** The packets the broker sends to a client. */
  datatype Packet =
    | Connack(sessionPresent: bool, returnCode: byte)
    | Publish(topic: Text, payload: Text, qos: Qos, retain: bool, dup: bool, packetId: nat, source: Text)
    | Puback(packetId: nat)
    | Pubrec(packetId: nat)
    | Pubrel(packetId: nat)
    | Pubcomp(packetId: nat)
    | Suback(packetId: nat, granted: seq<byte>)
    | Unsuback(packetId: nat)
    | Pingresp

  /**
   A packet handed to the channel, when, and for which allocation of a packet
   identifier (0 if none). The allocation number is bookkeeping of the model.
   */
  datatype Sent = Sent(packet: Packet, time: int, alloc: nat)

  /** An in-flight message; `alloc` tells which allocation of its identifier it belongs to. */
  datatype OutItem = OutItem(qos: Qos, pubrelSent: bool, topic: Text, payload: Text, source: Text,
                             sentTime: int, retryCount: nat, alloc: nat)

  datatype Outbound = Outbound(inflight: map<nat, OutItem>, nextPid: nat, allocs: nat, log: seq<Sent>)

  const EMPTY: Outbound := Outbound(map[], 1, 0, [])

  // ----- Packet identifiers -----

  /** Increment in 16 bits, skipping 0. */
  function NextPid(pid: nat): nat {
    var p := (pid + 1) % 0x1_0000;
    if p == 0 then 1 else p
  }

  /** The identifier handed out by the n-th allocation (the field starts at 1, so the first one is 2). */
  function PidOf(n: nat): nat {
    n % 0xFFFF + 1
  }

  lemma NextPidIsNextAllocation(n: nat)
    ensures NextPid(PidOf(n)) == PidOf(n + 1)
    ensures 1 <= PidOf(n) <= 0xFFFF
  {
  }

  /**
   Two allocations get the same identifier exactly when a multiple of 65535 lies
   between them: any 65535 consecutive ones are distinct, across the 16-bit wrap.
   */
  lemma PidsCollideIff(m: nat, n: nat)
    requires m <= n
    ensures PidOf(m) == PidOf(n) <==> (n - m) % 0xFFFF == 0
  {
  }

  // ----- The steps -----

  function Emit(o: Outbound, packet: Packet, now: int): Outbound {
    o.(log := o.log + [Sent(packet, now, 0)])
  }

  /** `Router::deliver` on an open channel; `accepted` is what the channel's send returned. */
  function Deliver(o: Outbound, msg: Message, granted: Qos, retained: bool, dup: bool, now: int,
                   accepted: bool): Outbound {
    var qos := MinQos(granted, msg.qos);
    var o1 := if qos == AT_MOST_ONCE then o else Register(o, msg, qos, now);
    var pid := if qos == AT_MOST_ONCE then 0 else o1.nextPid;
    var alloc := if qos == AT_MOST_ONCE then 0 else o1.allocs;
    if accepted then
      o1.(log := o1.log + [Sent(Publish(msg.topic, msg.payload, qos, retained, dup, pid, msg.source), now, alloc)])
    else
      o1.(inflight := o1.inflight - {pid})
  }

  /** Allocates an identifier and puts the message in flight under it. */
  function Register(o: Outbound, msg: Message, qos: Qos, now: int): Outbound {
    var pid := NextPid(o.nextPid);
    var item := OutItem(qos, false, msg.topic, msg.payload, msg.source, now, 0, o.allocs + 1);
    o.(inflight := o.inflight[pid := item], nextPid := pid, allocs := o.allocs + 1)
  }

  /** PUBACK and PUBCOMP end the life of an in-flight message. */
  function Forget(o: Outbound, pid: nat): Outbound {
    o.(inflight := o.inflight - {pid})
  }

  /** PUBREC: a QoS 2 message is released, anything else is ignored. */
  function Release(o: Outbound, pid: nat, now: int): Outbound {
    if pid in o.inflight && o.inflight[pid].qos == EXACTLY_ONCE then
      var item := o.inflight[pid];
      o.(inflight := o.inflight[pid := item.(pubrelSent := true)],
         log := o.log + [Sent(Pubrel(pid), now, item.alloc)])
    else o
  }

  /** `Router::resend` for a connected client: PUBREL again once it was sent, else PUBLISH with DUP. */
  function Resend(o: Outbound, pid: nat, now: int): Outbound
    requires pid in o.inflight
  {
    var item := o.inflight[pid];
    if item.qos == EXACTLY_ONCE && item.pubrelSent then
      o.(log := o.log + [Sent(Pubrel(pid), now, item.alloc)])
    else
      var packet := Publish(item.topic, item.payload, item.qos, false, true, pid, item.source);
      o.(inflight := o.inflight[pid := item.(sentTime := now, retryCount := item.retryCount + 1)],
         log := o.log + [Sent(packet, now, item.alloc)])
  }

  /**
   The retransmission check of one connection, visiting the in-flight messages
   in the given order: `giveUp` reports that a message had used up its retries.
   `tick` is the time the check started, `now` the time a packet is sent.
   */
  function Retry(o: Outbound, order: seq<nat>, connected: bool, tick: int, now: int): (Outbound, bool)
    decreases |order|
  {
    if order == [] then (o, false)
    else if order[0] !in o.inflight then Retry(o, order[1..], connected, tick, now)
    else
      var item := o.inflight[order[0]];
      if item.retryCount >= MAX_RETRIES then (o, true)
      else if tick - item.sentTime >= RETRY_INTERVAL && connected then
        Retry(Resend(o, order[0], now), order[1..], connected, tick, now)
      else Retry(o, order[1..], connected, tick, now)
  }

  // ----- What every history keeps -----

  predicate IsPublish(e: Sent, a: nat) {
    e.packet.Publish? && e.alloc == a
  }

  predicate IsPubrel(e: Sent, a: nat) {
    e.packet.Pubrel? && e.alloc == a
  }

  /** The times at which the message of allocation `a` was sent as a PUBLISH. */
  function Times(log: seq<Sent>, a: nat): seq<int> {
    if log == [] then []
    else
      var n := |log| - 1;
      Times(log[..n], a) + (if IsPublish(log[n], a) then [log[n].time] else [])
  }

  ghost predicate Released(log: seq<Sent>, a: nat) {
    exists i :: 0 <= i < |log| && IsPubrel(log[i], a)
  }

  ghost predicate NoPublishAfterRelease(log: seq<Sent>, a: nat) {
    forall i, j :: 0 <= i < j < |log| && IsPubrel(log[i], a) ==> !IsPublish(log[j], a)
  }

  ghost predicate Spaced(times: seq<int>) {
    forall i :: 0 <= i < |times| - 1 ==> times[i + 1] - times[i] >= 5000
  }

  /** What is promised for the message of allocation `a`, in flight or long gone. */
  ghost predicate HistoryOk(log: seq<Sent>, a: nat) {
    && |Times(log, a)| <= 11
    && Spaced(Times(log, a))
    && NoPublishAfterRelease(log, a)
  }

  ghost predicate ItemOk(o: Outbound, pid: nat, now: int)
    requires pid in o.inflight
  {
    var item := o.inflight[pid];
    var times := Times(o.log, item.alloc);
    && 1 <= item.alloc <= o.allocs && pid == PidOf(item.alloc)
    && item.qos > AT_MOST_ONCE && (item.pubrelSent ==> item.qos == EXACTLY_ONCE)
    && item.retryCount <= 10
    && |times| == 1 + item.retryCount && times[item.retryCount] == item.sentTime <= now
    && (item.pubrelSent <==> Released(o.log, item.alloc))
  }

  ghost predicate Inv(o: Outbound, now: int) {
    && o.nextPid == PidOf(o.allocs)
    && (forall pid :: pid in o.inflight ==> ItemOk(o, pid, now))
    && (forall a :: 1 <= a ==> HistoryOk(o.log, a))
    && (forall i :: 0 <= i < |o.log| ==> o.log[i].alloc <= o.allocs)
  }

  lemma InvInit(now: int)
    ensures Inv(EMPTY, now)
  {
  }

  lemma TimesAppend(log: seq<Sent>, e: Sent, a: nat)
    ensures Times(log + [e], a) == Times(log, a) + (if IsPublish(e, a) then [e.time] else [])
    ensures Released(log + [e], a) <==> Released(log, a) || IsPubrel(e, a)
    ensures NoPublishAfterRelease(log, a) && !(Released(log, a) && IsPublish(e, a)) ==>
            NoPublishAfterRelease(log + [e], a)
  {
    var l := log + [e];
    assert l[..|l| - 1] == log;
    assert forall i :: 0 <= i < |log| ==> l[i] == log[i];
    if Released(log, a) {
      var i :| 0 <= i < |log| && IsPubrel(log[i], a);
      assert IsPubrel(l[i], a);
    }
    if IsPubrel(e, a) { assert IsPubrel(l[|log|], a); }
  }

  lemma {:induction false} NothingSentYet(log: seq<Sent>, a: nat)
    requires forall i :: 0 <= i < |log| ==> log[i].alloc < a
    ensures Times(log, a) == [] && !Released(log, a) && NoPublishAfterRelease(log, a)
  {
    if log != [] {
      assert forall i :: 0 <= i < |log| - 1 ==> log[..|log| - 1][i] == log[i];
      NothingSentYet(log[..|log| - 1], a);
    }
  }

  /** One more packet: only the history of the allocation it belongs to has to be looked at. */
  lemma AppendKeeps(o: Outbound, e: Sent, now: int)
    requires Inv(o, now)
    requires e.alloc <= o.allocs
    requires e.alloc >= 1 ==> HistoryOk(o.log + [e], e.alloc)
    ensures forall a :: 1 <= a ==> HistoryOk(o.log + [e], a)
    ensures forall i :: 0 <= i < |o.log + [e]| ==> (o.log + [e])[i].alloc <= o.allocs
    ensures forall pid :: pid in o.inflight && o.inflight[pid].alloc != e.alloc ==>
              ItemOk(o.(log := o.log + [e]), pid, now)
  {
    forall a | 1 <= a ensures HistoryOk(o.log + [e], a) {
      assert HistoryOk(o.log, a);
      TimesAppend(o.log, e, a);
    }
    forall pid | pid in o.inflight && o.inflight[pid].alloc != e.alloc
      ensures ItemOk(o.(log := o.log + [e]), pid, now)
    {
      assert ItemOk(o, pid, now);
      TimesAppend(o.log, e, o.inflight[pid].alloc);
    }
  }

  lemma InvEmit(o: Outbound, packet: Packet, now: int)
    requires Inv(o, now)
    ensures Inv(Emit(o, packet, now), now)
  {
    assert forall pid :: pid in o.inflight ==> ItemOk(o, pid, now);
    AppendKeeps(o, Sent(packet, now, 0), now);
  }

  lemma InvForget(o: Outbound, pid: nat, now: int)
    requires Inv(o, now)
    ensures Inv(Forget(o, pid), now)
  {
    var o' := Forget(o, pid);
    forall p | p in o'.inflight ensures ItemOk(o', p, now) { assert ItemOk(o, p, now); }
  }

  lemma InvLater(o: Outbound, now: int, later: int)
    requires Inv(o, now) && now <= later
    ensures Inv(o, later)
  {
    forall p | p in o.inflight ensures ItemOk(o, p, later) { assert ItemOk(o, p, now); }
  }

  lemma InvRelease(o: Outbound, pid: nat, now: int)
    requires Inv(o, now)
    ensures Inv(Release(o, pid, now), now)
  {
    if pid in o.inflight && o.inflight[pid].qos == EXACTLY_ONCE {
      assert ItemOk(o, pid, now);
      var item := o.inflight[pid];
      var e := Sent(Pubrel(pid), now, item.alloc);
      TimesAppend(o.log, e, item.alloc);
      assert HistoryOk(o.log, item.alloc);
      InvOfItems(o, e, pid, item.(pubrelSent := true), now);
    }
  }

  /** Puts together the invariant after a packet of one in-flight message was sent. */
  lemma InvOfItems(o: Outbound, e: Sent, pid: nat, item: OutItem, now: int)
    requires Inv(o, now)
    requires pid in o.inflight && o.inflight[pid].alloc == item.alloc == e.alloc
    requires HistoryOk(o.log + [e], e.alloc)
    requires ItemOk(o.(inflight := o.inflight[pid := item], log := o.log + [e]), pid, now)
    ensures Inv(o.(inflight := o.inflight[pid := item], log := o.log + [e]), now)
  {
    var o' := o.(inflight := o.inflight[pid := item], log := o.log + [e]);
    assert ItemOk(o, pid, now);
    AppendKeeps(o, e, now);
    forall p | p in o'.inflight ensures ItemOk(o', p, now) {
      if p != pid {
        assert ItemOk(o, p, now);
        assert ItemOk(o.(log := o.log + [e]), p, now);
      }
    }
  }

  lemma InvResend(o: Outbound, pid: nat, now: int)
    requires Inv(o, now) && pid in o.inflight
    requires o.inflight[pid].retryCount < MAX_RETRIES
    requires now - o.inflight[pid].sentTime >= RETRY_INTERVAL
    ensures Inv(Resend(o, pid, now), now)
  {
    assert ItemOk(o, pid, now);
    var item := o.inflight[pid];
    var e := Resend(o, pid, now).log[|o.log|];
    TimesAppend(o.log, e, item.alloc);
    assert HistoryOk(o.log, item.alloc);
    if item.qos == EXACTLY_ONCE && item.pubrelSent {
      assert o.inflight[pid := item] == o.inflight;
      InvOfItems(o, e, pid, item, now);
    } else {
      InvOfItems(o, e, pid, item.(sentTime := now, retryCount := item.retryCount + 1), now);
    }
  }

  lemma {:induction false} InvRetry(o: Outbound, order: seq<nat>, connected: bool, tick: int, now: int)
    requires Inv(o, now) && tick <= now
    ensures Inv(Retry(o, order, connected, tick, now).0, now)
    decreases |order|
  {
    if order != [] && order[0] in o.inflight && o.inflight[order[0]].retryCount < MAX_RETRIES
       && tick - o.inflight[order[0]].sentTime >= RETRY_INTERVAL && connected {
      InvResend(o, order[0], now);
      InvRetry(Resend(o, order[0], now), order[1..], connected, tick, now);
    } else if order != [] {
      InvRetry(o, order[1..], connected, tick, now);
    }
  }

  lemma InvRegister(o: Outbound, msg: Message, qos: Qos, now: int, e: Sent)
    requires Inv(o, now) && qos > AT_MOST_ONCE
    requires e.packet.Publish? && e.alloc == o.allocs + 1 && e.time == now
    ensures Inv(Register(o, msg, qos, now).(log := o.log + [e]), now)
    ensures Inv(Forget(Register(o, msg, qos, now), NextPid(o.nextPid)), now)
  {
    var o1 := Register(o, msg, qos, now);
    var pid := NextPid(o.nextPid);
    var a := o.allocs + 1;
    NextPidIsNextAllocation(o.allocs);
    NothingSentYet(o.log, a);
    TimesAppend(o.log, e, a);
    var wide := o.(allocs := a, nextPid := pid);
    forall p | p in wide.inflight ensures ItemOk(wide, p, now) { assert ItemOk(o, p, now); }
    AppendKeeps(wide, e, now);
    var o' := o1.(log := o.log + [e]);
    forall p | p in o'.inflight ensures ItemOk(o', p, now) {
      if p != pid { assert ItemOk(wide.(log := o.log + [e]), p, now); }
    }
    var o'' := Forget(o1, pid);
    forall p | p in o''.inflight ensures ItemOk(o'', p, now) { assert ItemOk(wide, p, now); }
  }

  lemma InvDeliver(o: Outbound, msg: Message, granted: Qos, retained: bool, dup: bool, now: int, accepted: bool)
    requires Inv(o, now)
    ensures Inv(Deliver(o, msg, granted, retained, dup, now, accepted), now)
  {
    var qos := MinQos(granted, msg.qos);
    var pid := NextPid(o.nextPid);
    if qos == AT_MOST_ONCE {
      InvEmit(o, Publish(msg.topic, msg.payload, qos, retained, dup, 0, msg.source), now);
      InvForget(o, 0, now);
    } else {
      InvRegister(o, msg, qos, now,
                  Sent(Publish(msg.topic, msg.payload, qos, retained, dup, pid, msg.source), now, o.allocs + 1));
    }
  }

  /**
   Delivering displaces an in-flight message exactly when the new identifier has
   come round to it again: a multiple of 65535 allocations after its own. It does
   so whether or not the channel then takes the new message.
   */
  lemma DeliverDisplacesIff(o: Outbound, msg: Message, granted: Qos, retained: bool, dup: bool, now: int,
                            accepted: bool, pid: nat)
    requires Inv(o, now) && pid in o.inflight
    ensures
      var o' := Deliver(o, msg, granted, retained, dup, now, accepted);
      var kept := pid in o'.inflight && o'.inflight[pid] == o.inflight[pid];
      kept <==> MinQos(granted, msg.qos) == AT_MOST_ONCE || (o.allocs + 1 - o.inflight[pid].alloc) % 0xFFFF != 0
  {
    assert ItemOk(o, pid, now);
    PidsCollideIff(o.inflight[pid].alloc, o.allocs + 1);
    NextPidIsNextAllocation(o.allocs);
  }

  /** Identifiers in flight are never 0, so a refused send at QoS 0 erases nothing. */
  lemma RefusedQos0ChangesNothing(o: Outbound, msg: Message, granted: Qos, retained: bool, dup: bool, now: int)
    requires Inv(o, now) && MinQos(granted, msg.qos) == AT_MOST_ONCE
    ensures Deliver(o, msg, granted, retained, dup, now, false) == o
  {
    assert 0 !in o.inflight;
    assert o.inflight - {0} == o.inflight;
  }

  // ----- What a repetition carries -----

  /** The same message under the same identifier, sent again. */
  ghost predicate Repetition(first: Packet, again: Packet) {
    && first.Publish? && again.Publish? && again.dup && !again.retain
    && again.topic == first.topic && again.payload == first.payload && again.source == first.source
    && again.qos == first.qos && again.packetId == first.packetId
  }

  ghost predicate PairOk(log: seq<Sent>, i: nat, j: nat)
    requires i < j < |log|
  {
    log[i].packet.Publish? && IsPublish(log[j], log[i].alloc) && log[j].alloc >= 1 ==>
      Repetition(log[i].packet, log[j].packet)
  }

  /** What was sent of an in-flight message is what is in flight. */
  ghost predicate SentOf(o: Outbound, pid: nat, i: nat)
    requires pid in o.inflight && i < |o.log|
  {
    var p, item := o.log[i].packet, o.inflight[pid];
    IsPublish(o.log[i], item.alloc) ==>
      && p.topic == item.topic && p.payload == item.payload && p.source == item.source
      && p.qos == item.qos && p.packetId == pid
  }

  /** All PUBLISHes of one allocation carry one message, and all but the first are marked as repeated. */
  ghost predicate Consistent(o: Outbound) {
    && (forall i: nat, j: nat {:trigger PairOk(o.log, i, j)} :: i < j < |o.log| ==> PairOk(o.log, i, j))
    && (forall pid, i: nat {:trigger SentOf(o, pid, i)} :: pid in o.inflight && i < |o.log| ==> SentOf(o, pid, i))
  }

  /** The history is in order, and what is repeated in it is repeated unchanged. */
  ghost predicate Orderly(o: Outbound, now: int) {
    Inv(o, now) && Consistent(o)
  }

  /** The two entries are of one message. */
  ghost predicate SameMessage(a: OutItem, b: OutItem) {
    && a.alloc == b.alloc && a.qos == b.qos
    && a.topic == b.topic && a.payload == b.payload && a.source == b.source
  }

  /** One more packet, which repeats its predecessors if it is of an allocation that has some. */
  lemma ConsistentAppend(o: Outbound, o': Outbound, e: Sent)
    requires Consistent(o) && o'.log == o.log + [e]
    requires forall pid :: pid in o'.inflight ==> pid in o.inflight && SameMessage(o'.inflight[pid], o.inflight[pid])
    requires e.alloc >= 1 ==>
               forall i :: 0 <= i < |o.log| && o.log[i].packet.Publish? && IsPublish(e, o.log[i].alloc) ==>
                 Repetition(o.log[i].packet, e.packet)
    requires forall pid :: pid in o'.inflight ==> SentOf(o', pid, |o.log|)
    ensures Consistent(o')
  {
    forall i: nat, j: nat | i < j < |o'.log| ensures PairOk(o'.log, i, j) {
      if j < |o.log| { assert PairOk(o.log, i, j); }
    }
    forall pid, i: nat | pid in o'.inflight && i < |o'.log| ensures SentOf(o', pid, i) {
      if i < |o.log| { assert SentOf(o, pid, i); }
    }
  }

  lemma OrderlyInit(now: int)
    ensures Orderly(EMPTY, now)
  {
    InvInit(now);
  }

  lemma OrderlyLater(o: Outbound, now: int, later: int)
    requires Orderly(o, now) && now <= later
    ensures Orderly(o, later)
  {
    InvLater(o, now, later);
  }

  lemma OrderlyEmit(o: Outbound, packet: Packet, now: int)
    requires Orderly(o, now)
    ensures Orderly(Emit(o, packet, now), now)
  {
    InvEmit(o, packet, now);
    forall pid | pid in o.inflight ensures SentOf(Emit(o, packet, now), pid, |o.log|) { assert ItemOk(o, pid, now); }
    ConsistentAppend(o, Emit(o, packet, now), Sent(packet, now, 0));
  }

  lemma OrderlyForget(o: Outbound, pid: nat, now: int)
    requires Orderly(o, now)
    ensures Orderly(Forget(o, pid), now)
  {
    InvForget(o, pid, now);
    forall p, i: nat | p in Forget(o, pid).inflight && i < |o.log| ensures SentOf(Forget(o, pid), p, i) {
      assert SentOf(o, p, i);
    }
  }

  lemma OrderlyRelease(o: Outbound, pid: nat, now: int)
    requires Orderly(o, now)
    ensures Orderly(Release(o, pid, now), now)
  {
    InvRelease(o, pid, now);
    if pid in o.inflight && o.inflight[pid].qos == EXACTLY_ONCE {
      ConsistentAppend(o, Release(o, pid, now), Sent(Pubrel(pid), now, o.inflight[pid].alloc));
    }
  }

  /** The PUBLISH that repeats an in-flight message repeats what was sent of it, and is of no other message. */
  lemma RepeatedSame(o: Outbound, pid: nat, now: int)
    requires Orderly(o, now) && pid in o.inflight
    requires !(o.inflight[pid].qos == EXACTLY_ONCE && o.inflight[pid].pubrelSent)
    ensures
      var o' := Resend(o, pid, now);
      var e := o'.log[|o.log|];
      && (forall i :: 0 <= i < |o.log| && o.log[i].packet.Publish? && IsPublish(e, o.log[i].alloc) ==>
            Repetition(o.log[i].packet, e.packet))
      && (forall p :: p in o'.inflight ==> SentOf(o', p, |o.log|))
  {
    var o' := Resend(o, pid, now);
    var e := o'.log[|o.log|];
    forall i | 0 <= i < |o.log| && o.log[i].packet.Publish? && IsPublish(e, o.log[i].alloc)
      ensures Repetition(o.log[i].packet, e.packet)
    {
      assert SentOf(o, pid, i);
    }
    forall p | p in o'.inflight ensures SentOf(o', p, |o.log|) {
      assert ItemOk(o, p, now);
      assert ItemOk(o, pid, now);
    }
  }

  lemma ConsistentResend(o: Outbound, pid: nat, now: int)
    requires Orderly(o, now) && pid in o.inflight
    ensures Consistent(Resend(o, pid, now))
  {
    var o' := Resend(o, pid, now);
    if !(o.inflight[pid].qos == EXACTLY_ONCE && o.inflight[pid].pubrelSent) { RepeatedSame(o, pid, now); }
    ConsistentAppend(o, o', o'.log[|o.log|]);
  }

  lemma {:induction false} OrderlyRetry(o: Outbound, order: seq<nat>, connected: bool, tick: int, now: int)
    requires Orderly(o, now) && tick <= now
    ensures Orderly(Retry(o, order, connected, tick, now).0, now)
    decreases |order|
  {
    if order != [] && order[0] in o.inflight && o.inflight[order[0]].retryCount < MAX_RETRIES
       && tick - o.inflight[order[0]].sentTime >= RETRY_INTERVAL && connected {
      InvResend(o, order[0], now);
      ConsistentResend(o, order[0], now);
      OrderlyRetry(Resend(o, order[0], now), order[1..], connected, tick, now);
    } else if order != [] {
      OrderlyRetry(o, order[1..], connected, tick, now);
    }
  }

  /** A new allocation has no predecessors. */
  lemma ConsistentRegister(o: Outbound, msg: Message, qos: Qos, now: int, e: Sent)
    requires Orderly(o, now) && qos > AT_MOST_ONCE && e.alloc == o.allocs + 1 && e.packet.Publish?
    requires e.packet.topic == msg.topic && e.packet.payload == msg.payload && e.packet.source == msg.source
    requires e.packet.qos == qos && e.packet.packetId == NextPid(o.nextPid)
    ensures Consistent(Register(o, msg, qos, now).(log := o.log + [e]))
  {
    var o', pid := Register(o, msg, qos, now).(log := o.log + [e]), NextPid(o.nextPid);
    forall i: nat, j: nat | i < j < |o'.log| ensures PairOk(o'.log, i, j) {
      if j < |o.log| { assert PairOk(o.log, i, j); }
    }
    forall p, i: nat | p in o'.inflight && i < |o'.log| ensures SentOf(o', p, i) {
      if p != pid {
        assert ItemOk(o, p, now);
        if i < |o.log| { assert SentOf(o, p, i); }
      }
    }
  }

  lemma OrderlyDeliver(o: Outbound, msg: Message, granted: Qos, retained: bool, dup: bool, now: int)
    requires Orderly(o, now)
    ensures Orderly(Deliver(o, msg, granted, retained, dup, now, true), now)
  {
    InvDeliver(o, msg, granted, retained, dup, now, true);
    var qos, pid := MinQos(granted, msg.qos), NextPid(o.nextPid);
    if qos == AT_MOST_ONCE {
      OrderlyEmit(o, Publish(msg.topic, msg.payload, qos, retained, dup, 0, msg.source), now);
    } else {
      ConsistentRegister(o, msg, qos, now,
                         Sent(Publish(msg.topic, msg.payload, qos, retained, dup, pid, msg.source), now, o.allocs + 1));
    }
  }
}
