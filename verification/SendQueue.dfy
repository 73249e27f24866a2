/**
 The sending side of a transport: buffers wait in a queue, and the one in front
 is being written. Each write ends with a completion, successful or not.
 */
module SendQueue {
  import opened Bytes

  const MAX_SEND_QUEUE: nat := 1024

  /** `accepted` and `completed` record what was taken into the queue and what was written, in order. */
  datatype State = State(queue: seq<Text>, writing: bool, closing: bool, open: bool,
                         accepted: seq<Text>, completed: seq<Text>)

  const INIT: State := State([], false, false, true, [], [])

  datatype Step = Send(buffer: Text) | Complete(ok: bool) | Close

  /** Starts writing the front, unless the transport is closing. */
  function Started(s: State): State {
    if s.closing then s else s.(writing := true)
  }

  function Closed(s: State): State {
    s.(closing := true, open := s.open && s.queue != [])
  }

  function Next(s: State, step: Step): State {
    match step
    case Send(buffer) =>
      if s.closing || |s.queue| > MAX_SEND_QUEUE then s
      else
        var s1 := s.(queue := s.queue + [buffer], accepted := s.accepted + [buffer]);
        if s.queue != [] then s1 else Started(s1)
    case Complete(ok) =>
      if !s.writing || s.queue == [] then s
      else if !ok then Closed(s.(writing := false))
      else
        var s1 := s.(queue := s.queue[1..], writing := false, completed := s.completed + [s.queue[0]]);
        if s1.queue != [] then Started(s1) else if s.closing then s1.(open := false) else s1
    case Close => Closed(s)
  }

  class Transport {
    var queue: seq<Text>
    var writing: bool
    var closing: bool
    var open: bool
    var accepted: seq<Text>
    var completed: seq<Text>

    function View(): State
      reads this
    {
      State(queue, writing, closing, open, accepted, completed)
    }

    constructor ()
      ensures View() == INIT
    {
      queue, writing, closing, open, accepted, completed := [], false, false, true, [], [];
    }

    method StartWrite()
      modifies this
      ensures View() == Started(old(View()))
    {
      if closing { return; }
      writing := true;
    }

    method AsyncSend(buffer: Text)
      modifies this
      ensures View() == Next(old(View()), Send(buffer))
    {
      if closing { return; }
      var size := |queue|;
      if size > MAX_SEND_QUEUE { return; }
      queue, accepted := queue + [buffer], accepted + [buffer];
      if size > 0 { return; }
      StartWrite();
    }

    method CloseSocket()
      modifies this
      ensures View() == Next(old(View()), Close)
    {
      closing := true;
      if queue == [] { open := false; }
    }

    /** The outstanding write has ended. */
    method OnWritten(ok: bool)
      requires writing && queue != []
      modifies this
      ensures View() == Next(old(View()), Complete(ok))
    {
      writing := false;
      if !ok {
        CloseSocket();
        return;
      }
      queue, completed := queue[1..], completed + [queue[0]];
      if queue != [] {
        StartWrite();
      } else if closing {
        open := false;
      }
    }
  }

  ghost predicate IsRun(steps: seq<Step>, states: seq<State>) {
    && |states| == |steps| + 1 && states[0] == INIT
    && forall i :: 0 <= i < |steps| ==> states[i + 1] == Next(states[i], steps[i])
  }

  ghost predicate Inv(s: State) {
    && s.completed + s.queue == s.accepted
    && |s.queue| <= 1025
    && (s.writing ==> s.queue != [])
    && (!s.closing ==> s.open && (s.queue != [] ==> s.writing))
  }

  lemma InvNext(s: State, step: Step)
    requires Inv(s)
    ensures Inv(Next(s, step))
  {
    match step
    case Send(buffer) => assert s.completed + (s.queue + [buffer]) == (s.completed + s.queue) + [buffer];
    case Complete(ok) =>
      if s.queue != [] { assert s.completed + s.queue == (s.completed + [s.queue[0]]) + s.queue[1..]; }
    case Close =>
  }

  /**
   In every reachable state: at most one write is outstanding and it is the
   front of the queue; what was written, followed by what is queued, is what was
   accepted, in order; the queue never holds more than 1025 buffers; and until
   the transport closes nothing waits without being written.
   */
  lemma {:induction false} SentInOrder(steps: seq<Step>, states: seq<State>, n: nat)
    requires IsRun(steps, states) && n <= |steps|
    ensures Inv(states[n])
  {
    if n > 0 {
      SentInOrder(steps, states, n - 1);
      InvNext(states[n - 1], steps[n - 1]);
    }
  }

  /** A buffer is accepted exactly if the transport is not closing and at most 1024 are waiting. */
  lemma AcceptedIff(s: State, buffer: Text)
    ensures !s.closing && |s.queue| <= 1024 ==>
              var s' := Next(s, Send(buffer));
              s'.accepted == s.accepted + [buffer] && s'.queue == s.queue + [buffer]
    ensures s.closing || |s.queue| > 1024 ==> Next(s, Send(buffer)) == s
  {
  }

  // ----- What closing leaves behind -----

  /** The state a closing transport is in, given what was queued when it began to close. */
  ghost predicate Closing(s: State, pending: nat, written: nat) {
    && s.closing
    && (pending == 0 ==> !s.open)
    && (pending == 1 ==>
          || (s.writing && s.open && |s.queue| == 1)
          || (!s.writing && s.open && |s.queue| == 1)
          || (!s.writing && !s.open && s.queue == []))
    && (pending >= 2 ==>
          && s.open
          && (|| (|s.completed| == written && |s.queue| == pending)
              || (|s.completed| == written + 1 && |s.queue| == pending - 1 && !s.writing)))
  }

  lemma ClosingNext(s: State, step: Step, pending: nat, written: nat)
    requires Closing(s, pending, written) && Inv(s)
    ensures Closing(Next(s, step), pending, written)
  {
  }

  /**
   A closing transport closes its socket after the pending writes only if at
   most one buffer was pending. With two or more the write that is under way is
   the last one: the rest stays queued and the socket stays open, for good.
   */
  lemma {:induction false} AfterClose(steps: seq<Step>, states: seq<State>, i: nat, j: nat)
    requires IsRun(steps, states) && i < j <= |steps| && steps[i] == Close && !states[i].closing
    ensures Closing(states[j], |states[i].queue|, |states[i].completed|)
  {
    if j == i + 1 {
      SentInOrder(steps, states, i);
    } else {
      AfterClose(steps, states, i, j - 1);
      SentInOrder(steps, states, j - 1);
      ClosingNext(states[j - 1], steps[j - 1], |states[i].queue|, |states[i].completed|);
    }
  }

  /** That happens: two buffers are sent, the transport closes, the first write ends, and nothing follows any more. */
  lemma TwoPendingStayOpen(first: Text, second: Text, later: Step) returns (steps: seq<Step>, states: seq<State>)
    ensures IsRun(steps, states) && steps == [Send(first), Send(second), Close, Complete(true), later]
    ensures |states[2].queue| == 2 && !states[2].closing
    ensures states[4].queue == [second] && states[4].completed == [first] && states[4].open && !states[4].writing
    ensures states[5].queue == [second] && states[5].open && !states[5].writing
  {
    steps := [Send(first), Send(second), Close, Complete(true), later];
    var s1 := Next(INIT, steps[0]);
    var s2 := Next(s1, steps[1]);
    var s3 := Next(s2, steps[2]);
    var s4 := Next(s3, steps[3]);
    states := [INIT, s1, s2, s3, s4, Next(s4, later)];
    assert s2.queue == [first, second] && s4.completed == [first];
    AfterClose(steps, states, 2, 5);
  }

  /** With nothing pending the socket is closed at once; one successful write closes it otherwise. */
  lemma ClosesIff(s: State)
    requires Inv(s) && !s.closing
    ensures !Next(s, Close).open <==> s.queue == []
    ensures s.queue != [] ==> (!Next(Next(s, Close), Complete(true)).open <==> |s.queue| == 1)
  {
  }
}
