/** The values the broker's components exchange: messages, sessions, subscriptions. */
module Model {
  import opened Bytes

  /** A quality-of-service level: 0 at most once, 1 at least once, 2 exactly once. */
  type Qos = q: int | 0 <= q <= 2

  const AT_MOST_ONCE: Qos := 0
  const AT_LEAST_ONCE: Qos := 1
  const EXACTLY_ONCE: Qos := 2

  function MinQos(a: Qos, b: Qos): Qos {
    if a < b then a else b
  }

  datatype Option<+T> = None | Some(value: T)

  datatype Message = Message(topic: Text, payload: Text, qos: Qos, retain: bool, source: Text)

  /**
   A session object: its address `id` together with the two fields that never
   change after it is created. The subscription list, which does change, is
   kept beside it by whoever owns the session.
   */
  datatype Session = Session(id: nat, clientId: Text, clean: bool)

  datatype Subscription = Subscription(filter: Text, qos: Qos)

  /** What identifies an entry of the topic tree. */
  datatype Key = Key(session: Session, filter: Text)

  /** One subscriber record stored in the topic tree. */
  datatype Match = Match(session: Session, filter: Text, qos: Qos)

  function KeyOf(m: Match): Key {
    Key(m.session, m.filter)
  }
}
