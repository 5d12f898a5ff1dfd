/** The send queue of a connection: messages wait until it is open, and each is written when the one before
    it has been. */
module Sending {
  import opened Common
  import opened Framing
  import opened Runs

  datatype Status = NotConnected | Connecting | Connected

  /** The writes that have been started and have not ended, and records of what has been written and what
      has been submitted. */
  datatype Sender = Sender(status: Status, queue: seq<Message>, writes: seq<seq<Byte>>, written: seq<Byte>,
                           submitted: seq<Message>)

  /** A write that fails may have written a part. */
  datatype Event = Submit(m: Message) | ConnectDone(ok: bool) | WriteDone | WriteFailed(part: nat)

  /** The client's end starts connecting, the server's end connected. */
  function Initial(status: Status): Sender { Sender(status, [], [], [], []) }

  predicate Enabled(s: Sender, e: Event) {
    match e
    case Submit(_) => true
    case ConnectDone(_) => s.status.Connecting?
    case WriteDone => |s.writes| > 0 && |s.queue| > 0
    case WriteFailed(part) => |s.writes| > 0 && part <= |s.writes[0]|
  }

  function StartWrite(s: Sender): Sender
    requires |s.queue| > 0
  {
    s.(writes := s.writes + [Frame(s.queue[0])])
  }

  function Step(s: Sender, e: Event): Sender
    requires Enabled(s, e)
  {
    match e
    case Submit(m) =>
      var next := s.(queue := s.queue + [m], submitted := s.submitted + [m]);
      if |s.queue| == 0 && s.status.Connected? then StartWrite(next) else next
    case ConnectDone(ok) =>
      var next := s.(status := if ok then Connected else NotConnected);
      if ok && |s.queue| > 0 then StartWrite(next) else next
    case WriteDone =>
      var next := s.(queue := s.queue[1..], writes := s.writes[1..], written := s.written + s.writes[0]);
      if |next.queue| > 0 then StartWrite(next) else next
    case WriteFailed(part) => s.(writes := s.writes[1..], written := s.written + s.writes[0][..part])
  }

  /** The messages that have been written completely. */
  function Sent(s: Sender): seq<Message>
    requires |s.queue| <= |s.submitted|
  {
    s.submitted[..|s.submitted| - |s.queue|]
  }

  predicate Broken(s: Sender) { s.status.Connected? && |s.queue| > 0 && |s.writes| == 0 }

  /** At most one write is under way, and it writes the frame of the first message waiting. */
  ghost predicate Inv(s: Sender) {
    && |s.queue| <= |s.submitted| && s.submitted == Sent(s) + s.queue
    && (s.writes == [] || (s.status.Connected? && |s.queue| > 0 && s.writes == [Frame(s.queue[0])]))
    && if Broken(s) then Frames(Sent(s)) <= s.written <= Frames(Sent(s)) + Frame(s.queue[0])
       else s.written == Frames(Sent(s))
  }

  lemma SentOneMore(s: Sender)
    requires |s.queue| > 0 && |s.queue| <= |s.submitted| && s.submitted == Sent(s) + s.queue
    ensures var next := s.submitted[..|s.submitted| - |s.queue| + 1];
            && next == Sent(s) + [s.queue[0]] && s.submitted == next + s.queue[1..]
            && Frames(next) == Frames(Sent(s)) + Frame(s.queue[0])
  {
    var one: seq<Message> := [s.queue[0]];
    FramesConcat(Sent(s), one);
    assert one[1..] == [] && Frames(one) == Frame(s.queue[0]) + [];
  }

  lemma SubmitKeepsInv(s: Sender, m: Message)
    requires Inv(s)
    ensures Inv(Step(s, Submit(m)))
  {
    var s' := Step(s, Submit(m));
    assert Sent(s') == Sent(s);
    Associative(Sent(s), s.queue, [m]);
    assert |s.queue| > 0 ==> s'.queue[0] == s.queue[0];
  }

  lemma WriteDoneKeepsInv(s: Sender)
    requires Inv(s) && Enabled(s, WriteDone)
    ensures Inv(Step(s, WriteDone))
  {
    SentOneMore(s);
    assert Sent(Step(s, WriteDone)) == s.submitted[..|s.submitted| - |s.queue| + 1];
    assert s.writes[1..] == [];
  }

  lemma StepKeepsInv(s: Sender, e: Event)
    requires Inv(s) && Enabled(s, e)
    ensures Inv(Step(s, e))
  {
    match e
    case Submit(m) => SubmitKeepsInv(s, m);
    case ConnectDone(_) => assert Sent(Step(s, e)) == Sent(s);
    case WriteDone => WriteDoneKeepsInv(s);
    case WriteFailed(part) =>
      assert Sent(Step(s, e)) == Sent(s) && s.writes[1..] == [];
      assert s.writes[0][..part] <= Frame(s.queue[0]);
  }

  const MACHINE: Machine<Sender, Event> := Machine(Enabled, (s, e) => if Enabled(s, e) then Step(s, e) else s)

  lemma {:induction false} RunKeepsInv(s: Sender, events: seq<Event>)
    requires Inv(s) && IsRun(MACHINE, s, events)
    ensures Inv(After(MACHINE, s, events))
  {
    forall s: Sender, e: Event | Inv(s) && Enabled(s, e) ensures Inv(Step(s, e)) {
      StepKeepsInv(s, e);
    }
    RunKeeps(MACHINE, s => Inv(s), s, events);
  }

  lemma StallsByStep(s: Sender, e: Event)
    requires Inv(s) && Enabled(s, e)
    ensures Broken(Step(s, e)) <==> Broken(s) || e.WriteFailed?
  {
  }

  /** Some write of the run has failed. */
  predicate Fails(events: seq<Event>) {
    exists i :: 0 <= i < |events| && events[i].WriteFailed?
  }

  lemma FailsHereOrLater(events: seq<Event>)
    requires |events| > 0
    ensures Fails(events) <==> events[0].WriteFailed? || Fails(events[1..])
  {
    var rest := events[1..];
    if i :| 0 <= i < |rest| && rest[i].WriteFailed? {
      assert events[i + 1].WriteFailed?;
    }
    if i :| 0 <= i < |events| && events[i].WriteFailed? {
      assert i > 0 ==> rest[i - 1].WriteFailed?;
    }
  }

  /** Messages wait on an open connection with no write under way exactly if a write has failed: one failed
      write stalls the queue for good. */
  lemma {:induction false} StallsIffWriteFailed(s: Sender, events: seq<Event>)
    requires Inv(s) && IsRun(MACHINE, s, events)
    ensures Broken(After(MACHINE, s, events)) <==> Broken(s) || Fails(events)
    decreases |events|
  {
    if |events| > 0 {
      var next, rest := Step(s, events[0]), events[1..];
      StepKeepsInv(s, events[0]);
      StallsByStep(s, events[0]);
      StallsIffWriteFailed(next, rest);
      FailsHereOrLater(events);
    }
  }

  lemma WrittenIsPrefix(s: Sender)
    requires Inv(s)
    ensures s.written <= Frames(s.submitted)
    ensures |s.queue| == 0 ==> s.written == Frames(s.submitted)
  {
    FramesConcat(Sent(s), s.queue);
    if |s.queue| == 0 {
      assert Sent(s) + s.queue == Sent(s);
    }
  }

  /** From one end to the other: whatever part of the bytes written has arrived, in whatever pieces, the
      messages read are the first of those submitted, and they are all of them when the queue is empty and
      everything has arrived. No two writes are ever under way together. */
  lemma {:induction false} MessagesArriveInOrder(status: Status, events: seq<Event>, pieces: seq<seq<Byte>>)
    requires IsRun(MACHINE, Initial(status), events)
    requires AllFit(After(MACHINE, Initial(status), events).submitted)
             && Joined(pieces) <= After(MACHINE, Initial(status), events).written
    ensures var s := After(MACHINE, Initial(status), events);
            && |s.writes| <= 1
            && ArrivedInPieces(NOTHING, pieces).messages <= s.submitted
            && (|s.queue| == 0 && Joined(pieces) == s.written ==>
                  ArrivedInPieces(NOTHING, pieces).messages == s.submitted)
  {
    var s := After(MACHINE, Initial(status), events);
    RunKeepsInv(Initial(status), events);
    WrittenIsPrefix(s);
    PiecesAreReadInOrder(s.submitted, pieces);
  }

  // ---------------------------------------------------------------- messages get written

  /** The messages that have been handed over, in order. */
  function SubmittedIn(events: seq<Event>): seq<Message> {
    if |events| == 0 then []
    else (if events[0].Submit? then [events[0].m] else []) + SubmittedIn(events[1..])
  }

  lemma {:induction false} SubmittedAsAsked(s: Sender, events: seq<Event>)
    requires IsRun(MACHINE, s, events)
    ensures After(MACHINE, s, events).submitted == s.submitted + SubmittedIn(events)
    decreases |events|
  {
    if |events| > 0 {
      var here := if events[0].Submit? then [events[0].m] else [];
      SubmittedAsAsked(Step(s, events[0]), events[1..]);
      Associative(s.submitted, here, SubmittedIn(events[1..]));
      assert s.submitted + [] == s.submitted;
    } else {
      assert s.submitted + [] == s.submitted;
    }
  }

  /** The connection comes up, if it is still to come up, and every write under way or started is done. */
  function Flush(s: Sender): seq<Event> {
    (if s.status.Connecting? then [ConnectDone(true)] else []) + seq(|s.queue|, _ => WriteDone)
  }

  lemma {:induction false} WritesFinish(s: Sender)
    requires Inv(s) && s.status.Connected? && !Broken(s)
    ensures var events := seq(|s.queue|, _ => WriteDone);
            && IsRun(MACHINE, s, events) && Inv(After(MACHINE, s, events)) && After(MACHINE, s, events).queue == []
            && After(MACHINE, s, events).submitted == s.submitted
    decreases |s.queue|
  {
    if |s.queue| > 0 {
      var events: seq<Event> := seq(|s.queue|, _ => WriteDone);
      var next := Step(s, WriteDone);
      OneWriteFinishes(s);
      WritesFinish(next);
      assert events[0] == WriteDone && events[1..] == seq(|next.queue|, _ => WriteDone);
    }
  }

  lemma OneWriteFinishes(s: Sender)
    requires Inv(s) && s.status.Connected? && !Broken(s) && |s.queue| > 0
    ensures Enabled(s, WriteDone)
    ensures var next := Step(s, WriteDone);
            && Inv(next) && next.status.Connected? && !Broken(next) && next.queue == s.queue[1..]
            && next.submitted == s.submitted
  {
    StepKeepsInv(s, WriteDone);
  }

  lemma {:induction false} ComesUp(s: Sender)
    requires Inv(s) && s.status.Connecting?
    ensures var up := Step(s, ConnectDone(true));
            && Inv(up) && up.status.Connected? && !Broken(up) && up.queue == s.queue && up.submitted == s.submitted
            && (IsRun(MACHINE, s, Flush(s)) <==> IsRun(MACHINE, up, Flush(up)))
            && After(MACHINE, s, Flush(s)) == After(MACHINE, up, Flush(up))
  {
    var up := Step(s, ConnectDone(true));
    StepKeepsInv(s, ConnectDone(true));
    assert Flush(up) == seq(|up.queue|, _ => WriteDone);
    assert Flush(s)[0] == ConnectDone(true) && Flush(s)[1..] == Flush(up);
  }

  lemma {:induction false} FlushWrites(s: Sender)
    requires Inv(s) && !Broken(s) && !s.status.NotConnected?
    ensures IsRun(MACHINE, s, Flush(s)) && After(MACHINE, s, Flush(s)).queue == []
    ensures After(MACHINE, s, Flush(s)).written == Frames(s.submitted)
    decreases s.status.Connecting?
  {
    if s.status.Connecting? {
      ComesUp(s);
      FlushWrites(Step(s, ConnectDone(true)));
    } else {
      assert Flush(s) == seq(|s.queue|, _ => WriteDone);
      WritesFinish(s);
      WrittenIsPrefix(After(MACHINE, s, Flush(s)));
    }
  }

  /** A connection that is or comes up, and whose writes do not fail, writes the frames of everything that was
      ever handed over, in order, and with as many writes as messages wait. */
  lemma {:induction false} EverythingIsWritten(status: Status, events: seq<Event>)
    requires IsRun(MACHINE, Initial(status), events)
    requires var s := After(MACHINE, Initial(status), events); !Broken(s) && !s.status.NotConnected?
    ensures var s := After(MACHINE, Initial(status), events);
            && IsRun(MACHINE, s, Flush(s))
            && After(MACHINE, s, Flush(s)).written == Frames(SubmittedIn(events))
            && After(MACHINE, s, Flush(s)).queue == []
  {
    var s := After(MACHINE, Initial(status), events);
    RunKeepsInv(Initial(status), events);
    SubmittedAsAsked(Initial(status), events);
    assert [] + SubmittedIn(events) == SubmittedIn(events);
    FlushWrites(s);
  }

  class NetClientBackend {
    var status: Status
    var unsubmittedMessages: seq<Message>
    var writes: seq<seq<Byte>>
    ghost var written: seq<Byte>
    ghost var submitted: seq<Message>

    ghost function View(): Sender
      reads this
    {
      Sender(status, unsubmittedMessages, writes, written, submitted)
    }

    constructor ()
      ensures View() == Initial(Connecting)
    {
      status, unsubmittedMessages, writes, written, submitted := Connecting, [], [], [], [];
    }

    method DoSubmitMessages()
      requires |unsubmittedMessages| > 0
      modifies this
      ensures View() == StartWrite(old(View()))
    {
      var data := unsubmittedMessages[0];
      var size: nat := |data|;
      var writeBuffer: seq<Byte> :=
        [size % 256, size / 256 % 256, size / 256 / 256 % 256, size / 256 / 256 / 256 % 256] + data;
      writes := writes + [writeBuffer];
    }

    method Submit(m: Message)
      modifies this
      ensures View() == Step(old(View()), Event.Submit(m))
    {
      var submitInProgress := |unsubmittedMessages| > 0;
      unsubmittedMessages, submitted := unsubmittedMessages + [m], submitted + [m];
      if !submitInProgress && status == Connected {
        DoSubmitMessages();
      }
    }

    method SocketConnected(ok: bool)
      requires Enabled(View(), ConnectDone(ok))
      modifies this
      ensures View() == Step(old(View()), ConnectDone(ok))
    {
      if ok {
        status := Connected;
        if |unsubmittedMessages| > 0 {
          DoSubmitMessages();
        }
      } else {
        status := NotConnected;
      }
    }

    method WriteCompleted()
      requires Enabled(View(), WriteDone)
      modifies this
      ensures View() == Step(old(View()), WriteDone)
    {
      written, writes := written + writes[0], writes[1..];
      unsubmittedMessages := unsubmittedMessages[1..];
      if |unsubmittedMessages| > 0 {
        DoSubmitMessages();
      }
    }
  }
}
