/**
 The acknowledgements of a subscriber and the retransmission check, in every run:
 exactly which messages are sent again and when a connection is given up, and
 what PUBACK, PUBREC and PUBCOMP do to what is in flight.
 */
module Resending {
  import opened Bytes
  import opened Model
  import opened Broker
  import opened Inbound
  import O = Outbound

  // ----- The check -----

  ghost predicate Distinct(pids: seq<nat>) {
    forall i, j :: 0 <= i < j < |pids| ==> pids[i] != pids[j]
  }

  /** An in-flight message as it is sent again: its PUBREL once that was sent, else the PUBLISH with DUP. */
  ghost predicate SentAgain(e: O.Sent, pid: nat, item: O.OutItem, now: int) {
    && e.time == now && e.alloc == item.alloc
    && e.packet == if item.qos == 2 && item.pubrelSent then O.Pubrel(pid)
                   else O.Publish(item.topic, item.payload, item.qos, false, true, pid, item.source)
  }

  /** A repeated PUBLISH counts and restarts the interval; a repeated PUBREL does neither. */
  ghost predicate Counted(item: O.OutItem, item': O.OutItem, now: int) {
    item' == if item.qos == 2 && item.pubrelSent then item
             else item.(sentTime := now, retryCount := item.retryCount + 1)
  }

  /** The history grows by one packet for each of these messages, in this order. */
  ghost predicate Grows(o: O.Outbound, o': O.Outbound, due: seq<nat>, now: int) {
    && (forall k :: 0 <= k < |due| ==> due[k] in o.inflight)
    && o.log <= o'.log && |o'.log| == |o.log| + |due|
    && (forall k :: 0 <= k < |due| ==> SentAgain(o'.log[|o.log| + k], due[k], o.inflight[due[k]], now))
  }

  /** These messages are counted, and all others are as before. */
  ghost predicate Counts(o: O.Outbound, o': O.Outbound, due: seq<nat>, now: int) {
    && o'.nextPid == o.nextPid && o'.allocs == o.allocs && o'.inflight.Keys == o.inflight.Keys
    && (forall pid :: pid in o.inflight && pid in due ==> Counted(o.inflight[pid], o'.inflight[pid], now))
    && (forall pid :: pid in o.inflight && pid !in due ==> o'.inflight[pid] == o.inflight[pid])
  }

  ghost predicate Repeats(o: O.Outbound, o': O.Outbound, due: seq<nat>, now: int) {
    Grows(o, o', due, now) && Counts(o, o', due, now)
  }

  lemma ResendRepeats(o: O.Outbound, pid: nat, now: int)
    requires pid in o.inflight
    ensures Repeats(o, O.Resend(o, pid, now), [pid], now)
  {
  }

  lemma GrowsMore(o: O.Outbound, o1: O.Outbound, o2: O.Outbound, pid: nat, due: seq<nat>, now: int)
    requires Grows(o, o1, [pid], now) && Grows(o1, o2, due, now) && o1.inflight.Keys == o.inflight.Keys
    requires forall k :: 0 <= k < |due| ==> o1.inflight[due[k]] == o.inflight[due[k]]
    ensures Grows(o, o2, [pid] + due, now)
  {
    var all := [pid] + due;
    assert o2.log[|o.log|] == o1.log[|o.log|];
    forall k | 0 <= k < |all|
      ensures all[k] in o.inflight && SentAgain(o2.log[|o.log| + k], all[k], o.inflight[all[k]], now)
    {
      if k == 0 {
        assert SentAgain(o1.log[|o.log| + 0], [pid][0], o.inflight[pid], now);
      } else {
        assert SentAgain(o2.log[|o1.log| + (k - 1)], due[k - 1], o1.inflight[due[k - 1]], now);
      }
    }
  }

  lemma CountsMore(o: O.Outbound, o1: O.Outbound, o2: O.Outbound, pid: nat, due: seq<nat>, now: int)
    requires Counts(o, o1, [pid], now) && Counts(o1, o2, due, now) && pid !in due
    ensures Counts(o, o2, [pid] + due, now)
  {
    assert pid in [pid];
    forall p | p in o.inflight && p in [pid] + due ensures Counted(o.inflight[p], o2.inflight[p], now) {
      if p != pid { assert p in due && p !in [pid]; }
    }
  }

  lemma RepeatsMore(o: O.Outbound, o1: O.Outbound, o2: O.Outbound, pid: nat, due: seq<nat>, now: int)
    requires Repeats(o, o1, [pid], now) && Repeats(o1, o2, due, now) && pid !in due
    ensures Repeats(o, o2, [pid] + due, now)
  {
    CountsMore(o, o1, o2, pid, due, now);
    GrowsMore(o, o1, o2, pid, due, now);
  }

  /** Every identifier visited is in flight, and none twice. */
  ghost predicate Visits(o: O.Outbound, order: seq<nat>) {
    Distinct(order) && forall pid :: pid in order ==> pid in o.inflight
  }

  lemma VisitsRest(o: O.Outbound, order: seq<nat>)
    requires Visits(o, order) && order != []
    ensures Visits(o, order[1..]) && order[0] !in order[1..]
    ensures forall pid :: pid in order <==> pid == order[0] || pid in order[1..]
  {
    assert order == [order[0]] + order[1..];
  }

  /** While no message is out of retries, exactly the due ones are sent again, each once. */
  lemma {:induction false} CheckRepeats(o: O.Outbound, order: seq<nat>, connected: bool, tick: int, now: int)
    returns (due: seq<nat>)
    requires Visits(o, order) && forall pid :: pid in order ==> o.inflight[pid].retryCount < 10
    ensures !O.Retry(o, order, connected, tick, now).1
    ensures Distinct(due) && Repeats(o, O.Retry(o, order, connected, tick, now).0, due, now)
    ensures forall pid :: pid in due <==> connected && pid in order && tick - o.inflight[pid].sentTime >= 5000
    decreases |order|
  {
    due := [];
    if order != [] {
      VisitsRest(o, order);
      var o1 := O.Resend(o, order[0], now);
      if tick - o.inflight[order[0]].sentTime >= 5000 && connected {
        ResendRepeats(o, order[0], now);
        var rest := CheckRepeats(o1, order[1..], connected, tick, now);
        RepeatsMore(o, o1, O.Retry(o1, order[1..], connected, tick, now).0, order[0], rest, now);
        due := [order[0]] + rest;
        forall pid ensures pid in due <==> pid in order && tick - o.inflight[pid].sentTime >= 5000 {
          if pid in order[1..] { assert o1.inflight[pid] == o.inflight[pid]; }
        }
      } else {
        due := CheckRepeats(o, order[1..], connected, tick, now);
      }
    }
  }

  /** One message that is out of retries ends the check, whatever was sent before it was found. */
  lemma {:induction false} CheckGivesUp(o: O.Outbound, order: seq<nat>, connected: bool, tick: int, now: int, pid: nat)
    requires Visits(o, order) && pid in order && o.inflight[pid].retryCount >= 10
    ensures O.Retry(o, order, connected, tick, now).1
    decreases |order|
  {
    VisitsRest(o, order);
    if pid != order[0] {
      CheckGivesUp(o, order[1..], connected, tick, now, pid);
      CheckGivesUp(O.Resend(o, order[0], now), order[1..], connected, tick, now, pid);
    }
  }

  /** Some message of the connection has been repeated ten times. */
  ghost predicate OutOfRetries(o: O.Outbound) {
    exists pid :: pid in o.inflight && o.inflight[pid].retryCount >= 10
  }

  /** The check ends the channel exactly if a message is out of retries. */
  lemma CheckEndsIff(s: State, ch: ChannelId, order: seq<nat>, tick: nat)
    requires ch in s.contexts && Allowed(s, s.contexts[ch], Retry(order, tick))
    ensures
      var ctx := s.contexts[ch];
      O.Retry(ctx.out, order, ctx.connected, tick, s.clock).1 <==> OutOfRetries(ctx.out)
    ensures ch in OnRetry(s, ch, order, tick).contexts <==> !OutOfRetries(s.contexts[ch].out)
  {
    var ctx := s.contexts[ch];
    if pid :| pid in ctx.out.inflight && ctx.out.inflight[pid].retryCount >= 10 {
      CheckGivesUp(ctx.out, order, ctx.connected, tick, s.clock, pid);
      CloseContexts(SetContext(s, ch, ctx.(out := O.Retry(ctx.out, order, ctx.connected, tick, s.clock).0)), ch);
    } else {
      var due := CheckRepeats(ctx.out, order, ctx.connected, tick, s.clock);
    }
  }

  /**
   The check of a connection, in every run. If a message has been repeated ten
   times the channel ends. Otherwise each message in flight for at least 5 s is
   sent again, once, if the client is connected; nothing else is sent and nothing
   else in the broker changes.
   */
  lemma CheckOutcome(maxConnections: nat, events: seq<Event>, states: seq<State>, n: nat, order: seq<nat>, tick: nat)
    returns (due: seq<nat>)
    requires IsRun(maxConnections, events, states) && n < |events|
    requires events[n].On? && events[n].ch in states[n].contexts && events[n].input == Retry(order, tick)
    ensures
      var s, s', ch := states[n], states[n + 1], events[n].ch;
      var o := s.contexts[ch].out;
      if OutOfRetries(o) then ch !in s'.contexts
      else
        && ch in s'.contexts && s' == s.(contexts := s.contexts[ch := s.contexts[ch].(out := s'.contexts[ch].out)])
        && Distinct(due) && Repeats(o, s'.contexts[ch].out, due, s.clock)
        && (forall pid :: pid in due <==>
              s.contexts[ch].connected && pid in o.inflight && tick - o.inflight[pid].sentTime >= 5000)
  {
    var s, ch := states[n], events[n].ch;
    var ctx := s.contexts[ch];
    due := [];
    assert Admissible(s, events[n]) && states[n + 1] == OnRetry(s, ch, order, tick);
    CheckEndsIff(s, ch, order, tick);
    if !OutOfRetries(ctx.out) {
      due := CheckRepeats(ctx.out, order, ctx.connected, tick, s.clock);
    }
  }

  // ----- Acknowledgements -----

  /**
   A PUBREC, in every run: an in-flight QoS 2 message is answered with its PUBREL
   and marked as released; for any other identifier nothing changes at all.
   */
  lemma PubrecOutcome(maxConnections: nat, events: seq<Event>, states: seq<State>, n: nat, pid: nat)
    requires IsRun(maxConnections, events, states) && n < |events|
    requires events[n].On? && events[n].ch in states[n].contexts && events[n].input == Ack(PubrecAck, pid)
    requires states[n].contexts[events[n].ch].connected
    ensures
      var s, s', ch := states[n], states[n + 1], events[n].ch;
      var o := s.contexts[ch].out;
      && ch in s'.contexts && s' == s.(contexts := s.contexts[ch := s.contexts[ch].(out := s'.contexts[ch].out)])
      && (if pid in o.inflight && o.inflight[pid].qos == 2 then
            s'.contexts[ch].out ==
              O.Outbound(o.inflight[pid := o.inflight[pid].(pubrelSent := true)], o.nextPid, o.allocs,
                         o.log + [O.Sent(O.Pubrel(pid), s.clock, o.inflight[pid].alloc)])
          else s'.contexts[ch].out == o)
  {
    var s, ch := states[n], events[n].ch;
    assert states[n + 1] == OnAck(s, ch, PubrecAck, pid);
  }

  /** PUBACK and PUBCOMP, in every run: exactly that message is no longer in flight, and nothing is sent. */
  lemma FinishOutcome(maxConnections: nat, events: seq<Event>, states: seq<State>, n: nat, kind: AckKind, pid: nat)
    requires IsRun(maxConnections, events, states) && n < |events| && (kind == PubackAck || kind == PubcompAck)
    requires events[n].On? && events[n].ch in states[n].contexts && events[n].input == Ack(kind, pid)
    requires states[n].contexts[events[n].ch].connected
    ensures
      var s, s', ch := states[n], states[n + 1], events[n].ch;
      var ctx, o := s.contexts[ch], s.contexts[ch].out;
      && ch in s'.contexts
      && s' == s.(contexts := s.contexts[ch :=
                    ctx.(out := s'.contexts[ch].out, awaitingPuback := s'.contexts[ch].awaitingPuback)])
      && s'.contexts[ch].out == O.Outbound(o.inflight - {pid}, o.nextPid, o.allocs, o.log)
      && s'.contexts[ch].awaitingPuback ==
           if kind == PubackAck then ctx.awaitingPuback - {pid} else ctx.awaitingPuback
  {
    var s, ch := states[n], events[n].ch;
    assert states[n + 1] == OnAck(s, ch, kind, pid);
  }
}
