/** The offline queues: one bounded queue per session, the oldest message dropped first. */
module Outbox {
  import opened Bytes
  import opened Model

  const MAX_QUEUE_SIZE: nat := 1000

  datatype OutboxMessage = OutboxMessage(msg: Message, granted: Qos, retained: bool)

  /** One message more, the oldest dropped if the queue is full. */
  function Pushed(q: seq<OutboxMessage>, m: OutboxMessage): seq<OutboxMessage> {
    (if |q| >= MAX_QUEUE_SIZE then q[1..] else q) + [m]
  }

  /** The newest messages of a history, as many as a queue takes. */
  function Newest(history: seq<OutboxMessage>): seq<OutboxMessage> {
    if |history| <= 1000 then history else history[|history| - 1000..]
  }

  /** Pushing one by one keeps exactly the newest messages, in order. */
  lemma PushKeepsNewest(history: seq<OutboxMessage>, m: OutboxMessage)
    ensures Pushed(Newest(history), m) == Newest(history + [m])
  {
  }

  class Outbox {
    var queues: map<Session, seq<OutboxMessage>>

    constructor ()
      ensures queues == map[]
    {
      queues := map[];
    }

    /** What is queued for a session; no queue and an empty queue look the same. */
    function Queue(session: Session): (q: seq<OutboxMessage>)
      reads this
    {
      if session in queues then queues[session] else []
    }

    method Enqueue(session: Session, msg: Message, granted: Qos, retained: bool)
      modifies this
      ensures queues == if granted == AT_MOST_ONCE then old(queues)
                        else old(queues)[session := Pushed(old(Queue(session)), OutboxMessage(msg, granted, retained))]
    {
      if granted == AT_MOST_ONCE { return; }
      var q := if session in queues then queues[session] else [];
      if |q| >= MAX_QUEUE_SIZE { q := q[1..]; }
      queues := queues[session := q + [OutboxMessage(msg, granted, retained)]];
    }

    /** Takes everything queued for a session, oldest first, and forgets the queue. */
    method Drain(session: Session) returns (out: seq<OutboxMessage>)
      modifies this
      ensures out == old(Queue(session))
      ensures queues == old(queues) - {session}
    {
      if session !in queues { return []; }
      out := [];
      for i := 0 to |queues[session]|
        invariant queues == old(queues)
        invariant out == queues[session][..i]
      {
        out := out + [queues[session][i]];
      }
      queues := queues - {session};
    }

    method Clear(session: Session)
      modifies this
      ensures queues == old(queues) - {session}
    {
      queues := queues - {session};
    }
  }
}
