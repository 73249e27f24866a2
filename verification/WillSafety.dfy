/**
 When a will is published, under every interleaving of the three activities that
 touch a connection's flags: the network thread that queues packets, the worker
 that handles them one by one, and the end of a channel. Packets wait in one
 queue, so a connection can end before its packets are handled.
 */
module WillSafety {
  import opened Bytes
  import opened Model

  type ChannelId = nat

  /** A context: it outlives its registration while packets of it are queued. */
  datatype Conn = Conn(registered: bool, connected: bool, cleanDisconnect: bool, takenOver: bool,
                       hasWill: bool, clientId: Text)

  const FRESH: Conn := Conn(true, false, false, false, false, [])

  /** What matters of a packet; `ok` and `bad` stand for the other checks of the handlers. */
  datatype Packet =
    | Connect(clientId: Text, ok: bool, hasWill: bool)
    | Disconnect
    | Other(bad: bool)

  datatype Request = Request(ch: ChannelId, packet: Packet)

  datatype State = State(conns: map<ChannelId, Conn>, byId: map<Text, ChannelId>, queue: seq<Request>, next: ChannelId)

  const INIT: State := State(map[], map[], [], 0)

  /** For a request of a channel that has ended, `alive` says whether the channel object still exists. */
  datatype Step = Accept | Receive(ch: ChannelId, packet: Packet) | Work(alive: bool) | Close(ch: ChannelId)

  /** A new state, and the channel whose will was published on the way there. */
  datatype Result = Result(state: State, will: Option<ChannelId>)

  predicate Registered(s: State, ch: ChannelId) {
    ch in s.conns && s.conns[ch].registered
  }

  predicate WillDue(c: Conn) {
    c.connected && !c.cleanDisconnect && !c.takenOver && c.hasWill
  }

  function Set(s: State, ch: ChannelId, c: Conn): State {
    s.(conns := s.conns[ch := c])
  }

  /** The end of a channel, noticed by whichever activity: nothing happens the second time. */
  function EndOf(s: State, ch: ChannelId): Result {
    if !Registered(s, ch) then Result(s, None)
    else
      var c := s.conns[ch];
      Result(State(s.conns[ch := c.(registered := false)],
                   if c.clientId in s.byId && s.byId[c.clientId] == ch then s.byId - {c.clientId} else s.byId,
                   s.queue, s.next),
             if WillDue(c) then Some(ch) else None)
  }

  /** Closes the connection that holds the client id, marked as taken over. */
  function TakeOver(s: State, id: Text, ch: ChannelId): State {
    if id in s.byId && s.byId[id] != ch && s.byId[id] in s.conns then
      var prior := s.byId[id];
      EndOf(Set(s, prior, s.conns[prior].(takenOver := true)), prior).state
    else s
  }

  /** An accepted CONNECT; the id is bound while the channel object is there, even if the channel has ended. */
  function Accepted(s: State, ch: ChannelId, id: Text, hasWill: bool, alive: bool): State
    requires ch in s.conns
  {
    var s1 := TakeOver(s, id, ch);
    var registered := Registered(s1, ch);
    var s2 := Set(s1, ch, Conn(registered, true, false, false, hasWill, id));
    if registered || alive then s2.(byId := s2.byId[id := ch]) else s2
  }

  function Handle(s: State, r: Request, alive: bool): Result {
    if r.ch !in s.conns then Result(s, None)
    else
      var c := s.conns[r.ch];
      match r.packet
      case Connect(id, ok, hasWill) =>
        if c.connected || !ok then EndOf(s, r.ch) else Result(Accepted(s, r.ch, id, hasWill, alive), None)
      case Disconnect => Result(Set(s, r.ch, c.(cleanDisconnect := true, connected := false)), None)
      case Other(bad) => if bad || !c.connected then EndOf(s, r.ch) else Result(s, None)
  }

  /** Queued; a DISCONNECT is noted at once, before it is handled. */
  function Received(s: State, ch: ChannelId, packet: Packet): State {
    if !Registered(s, ch) then s
    else
      var s1 := s.(queue := s.queue + [Request(ch, packet)]);
      if packet.Disconnect? then Set(s1, ch, s1.conns[ch].(cleanDisconnect := true)) else s1
  }

  function Next(s: State, step: Step): Result {
    match step
    case Accept => Result(Set(s, s.next, FRESH).(next := s.next + 1), None)
    case Receive(ch, packet) => Result(Received(s, ch, packet), None)
    case Work(alive) =>
      if s.queue == [] then Result(s, None) else Handle(s.(queue := s.queue[1..]), s.queue[0], alive)
    case Close(ch) => EndOf(s, ch)
  }

  ghost predicate IsRun(steps: seq<Step>, states: seq<State>) {
    && |states| == |steps| + 1 && states[0] == INIT
    && forall i :: 0 <= i < |steps| ==> states[i + 1] == Next(states[i], steps[i]).state
  }

  /** The program's own form: the tables, the request queue, and the wills published so far. */
  class Loop {
    var conns: map<ChannelId, Conn>
    var byId: map<Text, ChannelId>
    var requests: seq<Request>
    var next: ChannelId
    var wills: seq<ChannelId>

    function View(): State
      reads this
    {
      State(conns, byId, requests, next)
    }

    /** The object has taken the step to this result. */
    twostate predicate Took(r: Result)
      reads this
    {
      View() == r.state && wills == old(wills) + (if r.will.Some? then [r.will.value] else [])
    }

    constructor ()
      ensures View() == INIT && wills == []
    {
      conns, byId, requests, next, wills := map[], map[], [], 0, [];
    }

    method OnAccept()
      modifies this
      ensures Took(Next(old(View()), Accept))
    {
      conns := conns[next := FRESH];
      next := next + 1;
    }

    method OnPacket(ch: ChannelId, packet: Packet)
      modifies this
      ensures Took(Next(old(View()), Receive(ch, packet)))
    {
      if ch !in conns || !conns[ch].registered { return; }
      requests := requests + [Request(ch, packet)];
      if packet.Disconnect? { conns := conns[ch := conns[ch].(cleanDisconnect := true)]; }
    }

    method OnClose(ch: ChannelId)
      modifies this
      ensures Took(EndOf(old(View()), ch)) && requests == old(requests) && next == old(next)
    {
      if ch !in conns || !conns[ch].registered { return; }
      var c := conns[ch];
      if c.connected && !c.cleanDisconnect && !c.takenOver && c.hasWill { wills := wills + [ch]; }
      if c.clientId in byId && byId[c.clientId] == ch { byId := byId - {c.clientId}; }
      conns := conns[ch := c.(registered := false)];
    }

    method Connected(ch: ChannelId, id: Text, hasWill: bool, alive: bool)
      requires ch in conns
      modifies this
      ensures View() == Accepted(old(View()), ch, id, hasWill, alive) && wills == old(wills)
    {
      if id in byId && byId[id] != ch && byId[id] in conns {
        var prior := byId[id];
        conns := conns[prior := conns[prior].(takenOver := true)];
        OnClose(prior);
      }
      var registered := conns[ch].registered;
      conns := conns[ch := Conn(registered, true, false, false, hasWill, id)];
      if registered || alive { byId := byId[id := ch]; }
    }

    /** Takes the oldest request off the queue and handles it to the end. */
    method HandleRequest(alive: bool)
      modifies this
      ensures Took(Next(old(View()), Work(alive)))
    {
      if requests == [] { return; }
      var r := requests[0];
      requests := requests[1..];
      if r.ch !in conns { return; }
      var c := conns[r.ch];
      match r.packet
      case Connect(id, ok, hasWill) =>
        if c.connected || !ok { OnClose(r.ch); } else { Connected(r.ch, id, hasWill, alive); }
      case Disconnect => conns := conns[r.ch := c.(cleanDisconnect := true, connected := false)];
      case Other(bad) =>
        if bad || !c.connected { OnClose(r.ch); }
    }
  }

  // ----- What every run keeps -----

  ghost predicate ConnOk(s: State, ch: ChannelId)
    requires ch in s.conns
  {
    ch < s.next && (s.conns[ch].registered ==> !s.conns[ch].takenOver)
  }

  ghost predicate Inv(s: State) {
    && (forall ch :: ch in s.conns ==> ConnOk(s, ch))
    && (forall i :: 0 <= i < |s.queue| ==> s.queue[i].ch in s.conns)
  }

  lemma InvEndOf(s: State, ch: ChannelId)
    requires Inv(s)
    ensures Inv(EndOf(s, ch).state)
  {
    var s' := EndOf(s, ch).state;
    forall h | h in s'.conns ensures ConnOk(s', h) { assert ConnOk(s, h); }
  }

  /** What a takeover does to the connections. */
  lemma TakeOverConns(s: State, id: Text, ch: ChannelId)
    ensures TakeOver(s, id, ch).queue == s.queue && TakeOver(s, id, ch).next == s.next
    ensures TakeOver(s, id, ch).conns ==
            if id in s.byId && s.byId[id] != ch && s.byId[id] in s.conns
            then s.conns[s.byId[id] := s.conns[s.byId[id]].(registered := false, takenOver := true)]
            else s.conns
  {
  }

  lemma InvHandle(s: State, r: Request, alive: bool)
    requires Inv(s)
    ensures Inv(Handle(s, r, alive).state)
  {
    var s' := Handle(s, r, alive).state;
    InvEndOf(s, r.ch);
    if r.packet.Connect? { TakeOverConns(s, r.packet.clientId, r.ch); }
    if s' != EndOf(s, r.ch).state {
      forall h | h in s'.conns ensures ConnOk(s', h) {
        if h in s.conns { assert ConnOk(s, h); }
      }
    }
  }

  lemma InvNext(s: State, step: Step)
    requires Inv(s)
    ensures Inv(Next(s, step).state)
  {
    var s' := Next(s, step).state;
    match step
    case Accept =>
      forall h | h in s'.conns ensures ConnOk(s', h) { if h in s.conns { assert ConnOk(s, h); } }
    case Receive(ch, packet) =>
      forall h | h in s'.conns ensures ConnOk(s', h) { assert ConnOk(s, h); }
    case Work(alive) =>
      if s.queue != [] {
        var s1 := s.(queue := s.queue[1..]);
        forall h | h in s1.conns ensures ConnOk(s1, h) { assert ConnOk(s, h); }
        InvHandle(s1, s.queue[0], alive);
      }
    case Close(ch) => InvEndOf(s, ch);
  }

  lemma {:induction false} InvReachable(steps: seq<Step>, states: seq<State>, n: nat)
    requires IsRun(steps, states) && n <= |steps|
    ensures Inv(states[n])
  {
    if n > 0 {
      InvReachable(steps, states, n - 1);
      InvNext(states[n - 1], steps[n - 1]);
    }
  }

  // ----- What can happen to one connection -----

  /** The step handles a packet of the channel. */
  predicate Handles(s: State, step: Step, ch: ChannelId, packet: Packet) {
    step.Work? && s.queue != [] && s.queue[0] == Request(ch, packet) && ch in s.conns
  }

  /** The step handles a CONNECT of the channel and accepts it. */
  predicate Accepts(s: State, step: Step, ch: ChannelId) {
    && step.Work? && s.queue != [] && s.queue[0].ch == ch && ch in s.conns
    && s.queue[0].packet.Connect? && s.queue[0].packet.ok && !s.conns[ch].connected
  }

  predicate AnnouncesWill(s: State) {
    s.queue != [] && s.queue[0].packet.Connect? && s.queue[0].packet.hasWill
  }

  /** A DISCONNECT of the channel arrives or is handled. */
  predicate Disconnects(s: State, step: Step, ch: ChannelId) {
    (step == Receive(ch, Disconnect) && Registered(s, ch)) || Handles(s, step, ch, Disconnect)
  }

  /** An accepted CONNECT of another channel takes the client id away from this one. */
  predicate Loses(s: State, step: Step, ch: ChannelId) {
    && step.Work? && s.queue != [] && s.queue[0].ch != ch && Accepts(s, step, s.queue[0].ch)
    && s.queue[0].packet.clientId in s.byId && s.byId[s.queue[0].packet.clientId] == ch
  }

  predicate EndsAt(s: State, step: Step, ch: ChannelId) {
    Registered(s, ch) && !Registered(Next(s, step).state, ch)
  }

  /** The ways in which the flags of a connection that stays registered can change. */
  ghost predicate FlagsFollow(s: State, step: Step, ch: ChannelId)
    requires Registered(s, ch) && Registered(Next(s, step).state, ch)
  {
    var c, c' := s.conns[ch], Next(s, step).state.conns[ch];
    if Accepts(s, step, ch) then c'.connected && !c'.cleanDisconnect && c'.hasWill == AnnouncesWill(s)
    else
      && c'.hasWill == c.hasWill
      && (c'.connected <==> c.connected && !Handles(s, step, ch, Disconnect))
      && (c'.cleanDisconnect <==> c.cleanDisconnect || Disconnects(s, step, ch))
  }

  lemma FlagsWork(s: State, alive: bool, ch: ChannelId)
    requires s.queue != [] && Registered(s, ch) && Registered(Next(s, Work(alive)).state, ch)
    ensures FlagsFollow(s, Work(alive), ch)
  {
    var s1, r := s.(queue := s.queue[1..]), s.queue[0];
    if r.packet.Connect? { TakeOverConns(s1, r.packet.clientId, r.ch); }
  }

  lemma FlagsStep(s: State, step: Step, ch: ChannelId)
    requires Inv(s) && Registered(s, ch) && Registered(Next(s, step).state, ch)
    ensures FlagsFollow(s, step, ch)
  {
    assert ConnOk(s, ch);
    if step.Work? && s.queue != [] { FlagsWork(s, step.alive, ch); }
  }

  /** The end of a connection publishes its will if the flags say so, unless another one took over. */
  lemma EndStep(s: State, step: Step, ch: ChannelId)
    requires Inv(s) && EndsAt(s, step, ch)
    ensures Next(s, step).will == if WillDue(s.conns[ch]) && !Loses(s, step, ch) then Some(ch) else None
  {
    assert ConnOk(s, ch);
    if step.Work? && s.queue != [] {
      var s1 := s.(queue := s.queue[1..]);
      if s.queue[0].packet.Connect? { TakeOverConns(s1, s.queue[0].packet.clientId, s.queue[0].ch); }
    }
  }

  /** The step handles a packet that ends its own connection: a refused or second CONNECT, or a violation. */
  predicate Violates(s: State, step: Step, ch: ChannelId) {
    && step.Work? && s.queue != [] && s.queue[0].ch == ch && ch in s.conns
    && match s.queue[0].packet
       case Connect(_, ok, _) => s.conns[ch].connected || !ok
       case Disconnect => false
       case Other(bad) => bad || !s.conns[ch].connected
  }

  /** A connection ends exactly if its channel is closed, a packet of it is a violation, or it is taken over. */
  lemma EndsIff(s: State, step: Step, ch: ChannelId)
    requires Registered(s, ch)
    ensures EndsAt(s, step, ch) <==> step == Close(ch) || Violates(s, step, ch) || Loses(s, step, ch)
  {
    if step.Work? && s.queue != [] {
      var s1 := s.(queue := s.queue[1..]);
      if s.queue[0].packet.Connect? { TakeOverConns(s1, s.queue[0].packet.clientId, s.queue[0].ch); }
    }
  }

  /** A will is published by the end of its connection and by nothing else. */
  lemma WillMeansEnd(s: State, step: Step, ch: ChannelId)
    requires Next(s, step).will == Some(ch)
    ensures EndsAt(s, step, ch)
  {
  }

  /** A connection that has ended stays ended, and numbers are not used again. */
  lemma EndedStays(s: State, step: Step, ch: ChannelId)
    requires Inv(s) && ch < s.next && !Registered(s, ch)
    ensures ch < Next(s, step).state.next && !Registered(Next(s, step).state, ch)
  {
    if step.Work? && s.queue != [] {
      var s1 := s.(queue := s.queue[1..]);
      if s.queue[0].packet.Connect? { TakeOverConns(s1, s.queue[0].packet.clientId, s.queue[0].ch); }
    }
  }

  // ----- Over whole runs -----

  /** The last CONNECT of the channel accepted in the first `n` steps. */
  ghost predicate LastAccept(steps: seq<Step>, states: seq<State>, ch: ChannelId, n: nat, i: nat)
    requires n <= |steps| < |states|
  {
    && i < n && Accepts(states[i], steps[i], ch)
    && (forall j :: i < j < n ==> !Accepts(states[j], steps[j], ch))
  }

  ghost predicate QuietSince(steps: seq<Step>, states: seq<State>, ch: ChannelId, i: int, n: nat)
    requires -1 <= i && n <= |steps| < |states|
  {
    forall j :: i < j < n ==> !Disconnects(states[j], steps[j], ch)
  }

  ghost predicate UnhandledSince(steps: seq<Step>, states: seq<State>, ch: ChannelId, i: int, n: nat)
    requires -1 <= i && n <= |steps| < |states|
  {
    forall j :: i < j < n ==> !Handles(states[j], steps[j], ch, Disconnect)
  }

  /** What the flags of a registered connection tell about the past. */
  ghost predicate FlagsTell(steps: seq<Step>, states: seq<State>, ch: ChannelId, n: nat)
    requires n <= |steps| < |states| && Registered(states[n], ch)
  {
    var c := states[n].conns[ch];
    && (c.connected ==> exists i: nat :: LastAccept(steps, states, ch, n, i))
    && forall i: nat :: LastAccept(steps, states, ch, n, i) ==>
         && c.hasWill == AnnouncesWill(states[i])
         && (c.connected <==> UnhandledSince(steps, states, ch, i, n))
         && (c.cleanDisconnect <==> !QuietSince(steps, states, ch, i, n))
  }

  lemma FlagsTellStep(steps: seq<Step>, states: seq<State>, ch: ChannelId, n: nat)
    requires n < |steps| < |states| && states[n + 1] == Next(states[n], steps[n]).state && Inv(states[n])
    requires Registered(states[n], ch) && Registered(states[n + 1], ch) && FlagsTell(steps, states, ch, n)
    ensures FlagsTell(steps, states, ch, n + 1)
  {
    FlagsStep(states[n], steps[n], ch);
    if Accepts(states[n], steps[n], ch) {
      assert LastAccept(steps, states, ch, n + 1, n);
    } else {
      forall i: nat ensures LastAccept(steps, states, ch, n + 1, i) <==> LastAccept(steps, states, ch, n, i) { }
    }
  }

  /** No CONNECT of a channel is handled before the channel exists. */
  lemma {:induction false} NothingBefore(steps: seq<Step>, states: seq<State>, ch: ChannelId, n: nat, i: nat)
    requires IsRun(steps, states) && i <= n <= |steps| && ch >= states[n].next
    ensures ch !in states[i].conns && ch >= states[i].next
  {
    if i < n {
      InvReachable(steps, states, n - 1);
      NextGrows(states[n - 1], steps[n - 1]);
      NothingBefore(steps, states, ch, n - 1, i);
    } else {
      InvReachable(steps, states, n);
    }
  }

  lemma NextGrows(s: State, step: Step)
    ensures Next(s, step).state.next >= s.next
  {
    if step.Work? && s.queue != [] && s.queue[0].packet.Connect? {
      TakeOverConns(s.(queue := s.queue[1..]), s.queue[0].packet.clientId, s.queue[0].ch);
    }
  }

  lemma NewConn(s: State, step: Step, ch: ChannelId)
    requires Inv(s) && !Registered(s, ch) && Registered(Next(s, step).state, ch)
    ensures ch == s.next && Next(s, step).state.conns[ch] == FRESH && ch !in s.conns
  {
    if ch < s.next { EndedStays(s, step, ch); }
    if step.Work? && s.queue != [] && s.queue[0].packet.Connect? {
      TakeOverConns(s.(queue := s.queue[1..]), s.queue[0].packet.clientId, s.queue[0].ch);
    }
  }

  lemma NewTells(steps: seq<Step>, states: seq<State>, ch: ChannelId, n: nat)
    requires IsRun(steps, states) && n < |steps| && !Registered(states[n], ch) && Registered(states[n + 1], ch)
    ensures FlagsTell(steps, states, ch, n + 1)
  {
    InvReachable(steps, states, n);
    NewConn(states[n], steps[n], ch);
    var m := n + 1;
    forall i: nat ensures !LastAccept(steps, states, ch, m, i) {
      if i <= n { NothingBefore(steps, states, ch, n, i); }
    }
  }

  lemma {:induction false} FlagsTellAlways(steps: seq<Step>, states: seq<State>, ch: ChannelId, n: nat)
    requires IsRun(steps, states) && n <= |steps| && Registered(states[n], ch)
    ensures FlagsTell(steps, states, ch, n)
  {
    if n > 0 {
      if Registered(states[n - 1], ch) {
        FlagsTellAlways(steps, states, ch, n - 1);
        InvReachable(steps, states, n - 1);
        FlagsTellStep(steps, states, ch, n - 1);
      } else {
        NewTells(steps, states, ch, n - 1);
      }
    }
  }

  /**
   Exactly when a will is published: at the end of the connection, if the last
   CONNECT accepted on it announced one, no DISCONNECT arrived or was handled
   since then, and the end is not a takeover. Over every run.
   */
  lemma WillPublishedIff(steps: seq<Step>, states: seq<State>, ch: ChannelId, k: nat)
    requires IsRun(steps, states) && k < |steps| && EndsAt(states[k], steps[k], ch)
    ensures Next(states[k], steps[k]).will == Some(ch) <==>
            && !Loses(states[k], steps[k], ch)
            && exists i: nat :: LastAccept(steps, states, ch, k, i) && AnnouncesWill(states[i])
                                && QuietSince(steps, states, ch, i, k)
  {
    InvReachable(steps, states, k);
    EndStep(states[k], steps[k], ch);
    FlagsTellAlways(steps, states, ch, k);
    if i: nat :| LastAccept(steps, states, ch, k, i) && QuietSince(steps, states, ch, i, k) {
      assert UnhandledSince(steps, states, ch, i, k);
    }
  }

  lemma {:induction false} EndedStaysEnded(steps: seq<Step>, states: seq<State>, ch: ChannelId, i: nat, j: nat)
    requires IsRun(steps, states) && i <= j <= |steps| && ch < states[i].next && !Registered(states[i], ch)
    ensures ch < states[j].next && !Registered(states[j], ch)
  {
    if i < j {
      EndedStaysEnded(steps, states, ch, i, j - 1);
      InvReachable(steps, states, j - 1);
      EndedStays(states[j - 1], steps[j - 1], ch);
    }
  }

  /** A connection ends once. */
  lemma OneEnd(steps: seq<Step>, states: seq<State>, ch: ChannelId, j: nat, k: nat)
    requires IsRun(steps, states) && j < |steps| && k < |steps|
    requires EndsAt(states[j], steps[j], ch) && EndsAt(states[k], steps[k], ch)
    ensures j == k
  {
    var first, second := if j < k then j else k, if j < k then k else j;
    if first < second {
      InvReachable(steps, states, first);
      assert ConnOk(states[first], ch);
      NextGrows(states[first], steps[first]);
      EndedStaysEnded(steps, states, ch, first + 1, second);
    }
  }

  /** A connection publishes its will at most once in any run. */
  lemma AtMostOneWill(steps: seq<Step>, states: seq<State>, ch: ChannelId, j: nat, k: nat)
    requires IsRun(steps, states) && j < |steps| && k < |steps|
    requires Next(states[j], steps[j]).will == Some(ch) && Next(states[k], steps[k]).will == Some(ch)
    ensures j == k
  {
    WillMeansEnd(states[j], steps[j], ch);
    WillMeansEnd(states[k], steps[k], ch);
    OneEnd(steps, states, ch, j, k);
  }

  /** A connection that was taken over never publishes its will, before or after. */
  lemma NoWillWhenTakenOver(steps: seq<Step>, states: seq<State>, ch: ChannelId, j: nat, k: nat)
    requires IsRun(steps, states) && j < |steps| && k < |steps|
    requires Registered(states[j], ch) && Loses(states[j], steps[j], ch)
    ensures Next(states[k], steps[k]).will != Some(ch)
  {
    InvReachable(steps, states, j);
    LosingEnds(states[j], steps[j], ch);
    if Next(states[k], steps[k]).will == Some(ch) {
      WillMeansEnd(states[k], steps[k], ch);
      OneEnd(steps, states, ch, j, k);
      EndStep(states[j], steps[j], ch);
    }
  }

  lemma LosingEnds(s: State, step: Step, ch: ChannelId)
    requires Inv(s) && Registered(s, ch) && Loses(s, step, ch)
    ensures EndsAt(s, step, ch)
  {
    TakeOverConns(s.(queue := s.queue[1..]), s.queue[0].packet.clientId, s.queue[0].ch);
  }

  /**
   A DISCONNECT that arrives after the CONNECT was handled prevents the will,
   unless the client then connects once more on the same channel.
   */
  lemma NoWillAfterDisconnect(steps: seq<Step>, states: seq<State>, ch: ChannelId, i: nat, j: nat, k: nat)
    requires IsRun(steps, states) && k < |steps| && LastAccept(steps, states, ch, k, i) && i < j < k
    requires steps[j] == Receive(ch, Disconnect) && Registered(states[j], ch)
    ensures Next(states[k], steps[k]).will != Some(ch)
  {
    if Next(states[k], steps[k]).will == Some(ch) {
      WillMeansEnd(states[k], steps[k], ch);
      WillPublishedIff(steps, states, ch, k);
      assert Disconnects(states[j], steps[j], ch);
    }
  }

  /**
   The remaining race: a DISCONNECT that arrives before its CONNECT was handled
   does not prevent the will, because handling the CONNECT forgets it.
   */
  lemma EarlyDisconnectIsForgotten(id: Text) returns (steps: seq<Step>, states: seq<State>)
    ensures IsRun(steps, states) && |steps| == 5
    ensures steps[2] == Receive(0, Disconnect) && Registered(states[2], 0)
    ensures steps[4] == Close(0) && Next(states[4], steps[4]).will == Some(0)
  {
    steps := [Accept, Receive(0, Connect(id, true, true)), Receive(0, Disconnect), Work(true), Close(0)];
    var s1 := Next(INIT, steps[0]).state;
    var s2 := Next(s1, steps[1]).state;
    var s3 := Next(s2, steps[2]).state;
    var s4 := Next(s3, steps[3]).state;
    states := [INIT, s1, s2, s3, s4, Next(s4, steps[4]).state];
    assert s3.queue == [Request(0, Connect(id, true, true)), Request(0, Disconnect)];
  }

  /** Another one: a CONNECT handled after the end of its channel binds the id to a connection that is gone. */
  lemma LateConnectBinds(id: Text) returns (steps: seq<Step>, states: seq<State>)
    ensures IsRun(steps, states) && steps == [Accept, Receive(0, Connect(id, true, true)), Close(0), Work(true)]
    ensures states[4].byId == map[id := 0] && !Registered(states[4], 0)
  {
    steps := [Accept, Receive(0, Connect(id, true, true)), Close(0), Work(true)];
    var s1 := Next(INIT, steps[0]).state;
    var s2 := Next(s1, steps[1]).state;
    var s3 := Next(s2, steps[2]).state;
    states := [INIT, s1, s2, s3, Next(s3, steps[3]).state];
    assert s3.queue == [Request(0, Connect(id, true, true))];
  }
}
