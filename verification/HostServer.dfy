/**
 * The host's end of the IPC stream: its sessions in turn, each with its events and its outbox. Tasks
 * run as atomic steps in any interleaving; pushes come from another thread at any moment.
 */
module HostServer {
  import opened Frames
  import opened Outbox

  datatype Event = Connected | Message(payload: seq<byte>) | Disconnected | Failed

  // Where the accept loop is. It can be cancelled where it waits: for a sink, a peer, or an exchange.
  datatype Phase = Starting | Listening | Greeting | Exchanging | Hanging(listening: bool) | Parting | Finishing | Ended

  // Where the writer of the session is.
  datatype Writer = Polling | Waiting | Writing(frame: seq<byte>, count: nat)

  // One peer: the payloads accepted for it and the bytes written to it; the bytes that arrived from
  // it, those its reader has not consumed, and the payloads handed to the listener.
  datatype Session = Session(accepted: seq<seq<byte>>, wire: seq<byte>,
                             incoming: seq<byte>, unread: seq<byte>, heard: seq<seq<byte>>)

  const FRESH := Session([], [], [], [], [])

  // `written` counts the frames written whole to the current peer.
  datatype State = State(phase: Phase, writer: Writer, written: nat, queue: Queue, permit: bool,
                         trace: seq<Event>, sessions: seq<Session>)

  datatype Step =
    | Attach | Abandon
    | AcceptFails | Reject | Admit
    | Greet(listening: bool)
    | Arrive(bytes: seq<byte>) | Receive(listening: bool) | ReceiveFails
    | Poll | Wake | Write(n: nat) | WriteFails
    | CloseSession
    | Part(listening: bool)
    | Shutdown | Finish
    | Send(payload: seq<byte>)

  const START := State(Starting, Polling, 0, CLOSED, false, [], [])

  predicate Enabled(s: State, step: Step) {
    match step
    case Attach => s.phase.Starting?
    case Abandon => s.phase.Starting?
    case AcceptFails => s.phase.Listening?
    case Reject => s.phase.Listening?
    case Admit => s.phase.Listening?
    case Greet(_) => s.phase.Greeting?
    case Arrive(_) => s.phase.Exchanging?
    case Receive(_) => s.phase.Exchanging? && Parse(Last(s.sessions).unread).Payload?
    case ReceiveFails => s.phase.Exchanging?
    case Poll => s.phase.Exchanging? && s.writer.Polling?
    case Wake => s.phase.Exchanging? && s.writer.Waiting? && s.permit
    case Write(n) => s.phase.Exchanging? && s.writer.Writing? && 0 < n <= |s.writer.frame| - s.writer.count
    case WriteFails => s.phase.Exchanging? && s.writer.Writing?
    case CloseSession => s.phase.Hanging?
    case Part(_) => s.phase.Parting?
    case Shutdown => s.phase.Starting? || s.phase.Listening? || s.phase.Exchanging?
    case Finish => s.phase.Finishing?
    case Send(_) => true
  }

  function WithLast(sessions: seq<Session>, last: Session): seq<Session> {
    if sessions == [] then [] else sessions[|sessions| - 1 := last]
  }

  function Last(sessions: seq<Session>): Session {
    if sessions == [] then FRESH else sessions[|sessions| - 1]
  }

  // Some more of the writer's frame goes out; once it is out whole the writer turns to the queue.
  function Wrote(s: State, n: nat): State
    requires Enabled(s, Write(n))
  {
    var frame, count, last := s.writer.frame, s.writer.count, Last(s.sessions);
    var sessions := WithLast(s.sessions, last.(wire := last.wire + frame[count..count + n]));
    if count + n == |frame| then s.(writer := Polling, written := s.written + 1, sessions := sessions)
    else s.(writer := Writing(frame, count + n), sessions := sessions)
  }

  // A push the outbox takes counts for the current session.
  function Accepted(s: State, payload: seq<byte>): State
    requires Fits(payload)
  {
    var last := Last(s.sessions);
    s.(queue := s.queue.With(Frame(payload)), permit := true,
       sessions := WithLast(s.sessions, last.(accepted := last.accepted + [payload])))
  }

  function Arrived(s: State, bytes: seq<byte>): State {
    var last := Last(s.sessions);
    s.(sessions := WithLast(s.sessions, last.(incoming := last.incoming + bytes, unread := last.unread + bytes)))
  }

  // One frame read goes to the listener.
  function Received(s: State, listening: bool): State
    requires Enabled(s, Receive(listening))
  {
    var last := Last(s.sessions);
    var parsed := Parse(last.unread);
    var more := last.(unread := parsed.rest, heard := last.heard + [parsed.payload]);
    s.(sessions := WithLast(s.sessions, more), trace := s.trace + [Message(parsed.payload)],
       phase := if listening then s.phase else Hanging(true))
  }

  function Next(s: State, step: Step): State
    requires Enabled(s, step)
  {
    match step
    case Attach => s.(phase := Listening)
    case Abandon => s.(phase := Finishing)
    case AcceptFails => s.(phase := Finishing, trace := s.trace + [Failed])
    case Reject => s
    // The outbox opens a step before Connected is heard, so a push that answers it is not refused.
    case Admit => s.(phase := Greeting, queue := OPENED, sessions := s.sessions + [FRESH])
    case Greet(listening) =>
      s.(trace := s.trace + [Connected], phase := if listening then Exchanging else Hanging(false),
         writer := Polling, written := 0)
    case Arrive(bytes) => Arrived(s, bytes)
    case Receive(listening) => Received(s, listening)
    case ReceiveFails => s.(phase := Hanging(true))
    case Poll =>
      if s.queue.frames == [] then s.(writer := Waiting) else
      var rest := s.queue.frames[1..];
      s.(writer := Writing(s.queue.frames[0], 0), queue := Queue(rest, TotalBytes(rest), s.queue.open))
    case Wake => s.(writer := Polling, permit := false)
    case Write(n) => Wrote(s, n)
    case WriteFails => s.(phase := Hanging(true))
    case CloseSession => s.(queue := CLOSED, phase := if s.phase.listening then Parting else Finishing)
    case Part(listening) =>
      s.(trace := s.trace + [Disconnected], phase := if listening then Listening else Finishing)
    case Shutdown => s.(phase := Finishing)
    case Finish => s.(queue := CLOSED, phase := Ended)
    case Send(payload) => if Fits(payload) && s.queue.Takes(Frame(payload)) then Accepted(s, payload) else s
  }

  // ---- the event trace ------------------------------------------------------------------------

  datatype Listener = Between | Within | Over | Confused

  // (Connected Message* Disconnected)* and at the end an optional Failed, read by its automaton; a
  // trace that is no prefix of one confuses it.
  function Hears(trace: seq<Event>): Listener {
    if trace == [] then Between else
    match (Hears(trace[..|trace| - 1]), trace[|trace| - 1])
    case (Between, Connected) => Within
    case (Within, Message(_)) => Within
    case (Within, Disconnected) => Between
    case (Between, Failed) => Over
    case _ => Confused
  }

  ghost predicate TraceSound(s: State) {
    match s.phase
    case Exchanging => Hears(s.trace) == Within
    case Hanging(_) => Hears(s.trace) == Within
    case Parting => Hears(s.trace) == Within
    case Finishing => Hears(s.trace) != Confused
    case Ended => Hears(s.trace) != Confused
    case _ => Hears(s.trace) == Between
  }

  lemma HearsOneMore(trace: seq<Event>, event: Event)
    ensures Hears(trace + [event]) ==
            match (Hears(trace), event)
            case (Between, Connected) => Within
            case (Within, Message(_)) => Within
            case (Within, Disconnected) => Between
            case (Between, Failed) => Over
            case _ => Confused
  {
    assert (trace + [event])[..|trace|] == trace;
  }

  // Connecting and failing follow a parting, or nothing; messages and partings follow a connecting or a message.
  ghost predicate Follows(trace: seq<Event>, i: nat)
    requires i < |trace|
  {
    if trace[i] == Connected || trace[i] == Failed then i == 0 || trace[i - 1] == Disconnected
    else i > 0 && (trace[i - 1] == Connected || trace[i - 1].Message?)
  }

  // A trace is a beginning of one exactly if each event may follow the one before it.
  lemma {:induction false} EventsFollowInOrder(trace: seq<Event>)
    ensures Hears(trace) != Confused <==> forall i :: 0 <= i < |trace| ==> Follows(trace, i)
    ensures Hears(trace) != Confused ==>
              Hears(trace) == if trace == [] || trace[|trace| - 1] == Disconnected then Between
                              else if trace[|trace| - 1] == Failed then Over else Within
    decreases |trace|
  {
    if trace != [] {
      var most := trace[..|trace| - 1];
      EventsFollowInOrder(most);
      assert forall i :: 0 <= i < |most| ==> (Follows(most, i) <==> Follows(trace, i));
      assert Hears(most) != Confused ==> (Follows(trace, |most|) <==> Hears(trace) != Confused);
    }
  }

  // The payloads the listener heard, session by session.
  function Heard(trace: seq<Event>): seq<seq<seq<byte>>> {
    if trace == [] then [] else
    var before := Heard(trace[..|trace| - 1]);
    match trace[|trace| - 1]
    case Connected => before + [[]]
    case Message(payload) =>
      if before == [] then [] else before[|before| - 1 := before[|before| - 1] + [payload]]
    case _ => before
  }

  lemma HeardOneMore(trace: seq<Event>, event: Event)
    ensures Heard(trace + [event]) ==
            match event
            case Connected => Heard(trace) + [[]]
            case Message(payload) =>
              if Heard(trace) == [] then []
              else Heard(trace)[|Heard(trace)| - 1 := Heard(trace)[|Heard(trace)| - 1] + [payload]]
            case _ => Heard(trace)
  {
    assert (trace + [event])[..|trace|] == trace;
  }

  // Every session greeted so far is heard as its own payloads; one being greeted is not heard yet.
  ghost predicate HeardSound(s: State) {
    && |s.sessions| == |Heard(s.trace)| + (if s.phase.Greeting? then 1 else 0)
    && (s.phase.Greeting? ==> Last(s.sessions).heard == [])
    && (s.phase.Exchanging? ==> s.sessions != [])
    && forall k :: 0 <= k < |Heard(s.trace)| ==> s.sessions[k].heard == Heard(s.trace)[k]
  }

  // ---- what a peer gets, and what it says -----------------------------------------------------

  // A peer has n whole frames of what was accepted for it, in order, and at most a part of the next.
  ghost predicate SoundAt(session: Session, n: nat) {
    && AllFit(session.accepted) && n <= |session.accepted|
    && FramesOf(session.accepted[..n]) <= session.wire
    && var partial := session.wire[|FramesOf(session.accepted[..n])|..];
       partial == [] || (n < |session.accepted| && partial < Frame(session.accepted[n]))
  }

  ghost predicate OutboundSound(session: Session) {
    exists n: nat :: SoundAt(session, n)
  }

  // What was heard are the frames the peer's bytes begin with; the reader has the rest ahead of it.
  ghost predicate InboundSound(session: Session) {
    AllFit(session.heard) && session.incoming == FramesOf(session.heard) + session.unread
  }

  ghost predicate SessionSound(session: Session) {
    OutboundSound(session) && InboundSound(session)
  }

  // So what was heard is a prefix of what the peer's bytes decode to.
  lemma {:induction false} HeardIsDecoded(session: Session)
    requires InboundSound(session)
    ensures session.heard <= DecodeAll(session.incoming).payloads
  {
    FramesDecode(session.heard, session.unread);
  }

  // So what the peer decodes is a prefix, in push order, of what was accepted for it.
  lemma {:induction false} PeerDecodesAPrefix(session: Session, n: nat)
    requires SoundAt(session, n)
    ensures DecodeAll(session.wire).payloads == session.accepted[..n]
  {
    var whole := session.accepted[..n];
    var partial := session.wire[|FramesOf(whole)|..];
    assert session.wire == FramesOf(whole) + partial;
    FramesDecode(whole, partial);
    if partial != [] {
      CutFrameIsEndOfStream(session.accepted[n], |partial|);
      assert partial == Frame(session.accepted[n])[..|partial|];
    }
  }

  lemma MoreAcceptedStaysSound(session: Session, payload: seq<byte>, n: nat)
    requires SoundAt(session, n) && Fits(payload)
    ensures SoundAt(session.(accepted := session.accepted + [payload]), n)
  {
    assert (session.accepted + [payload])[..n] == session.accepted[..n];
  }

  // The queue holds the frames of what was accepted but not yet taken to write.
  ghost predicate Queued(queue: Queue, accepted: seq<seq<byte>>, taken: nat) {
    && AllFit(accepted) && |accepted| == taken + |queue.frames|
    && forall i :: 0 <= i < |queue.frames| ==> queue.frames[i] == Frame(accepted[taken + i])
  }

  // The writer and the wire of the current peer.
  ghost predicate WriterSound(s: State) {
    var last := Last(s.sessions);
    if s.writer.Writing? then
      && s.written < |last.accepted| && AllFit(last.accepted)
      && s.writer.frame == Frame(last.accepted[s.written]) && s.writer.count < |s.writer.frame|
      && last.wire == FramesOf(last.accepted[..s.written]) + s.writer.frame[..s.writer.count]
      && Queued(s.queue, last.accepted, s.written + 1)
    else
      && s.written <= |last.accepted| && AllFit(last.accepted)
      && last.wire == FramesOf(last.accepted[..s.written])
      && Queued(s.queue, last.accepted, s.written)
  }

  ghost predicate QueueSound(s: State) {
    && s.queue.Valid()
    && (s.queue.open ==> s.sessions != [])
    && (s.phase.Greeting? || s.phase.Exchanging? || s.phase.Hanging? ==> s.queue.open)
    && (s.phase.Starting? || s.phase.Listening? || s.phase.Parting? || s.phase.Ended? ==> !s.queue.open)
    && (s.phase.Greeting? ==> Last(s.sessions).wire == [] && Queued(s.queue, Last(s.sessions).accepted, 0))
    && (s.phase.Exchanging? ==> WriterSound(s))
  }

  // No wakeup is lost: a writer that waits on a queue with frames has one coming.
  ghost predicate WakeupSound(s: State) {
    s.phase.Exchanging? && s.writer.Waiting? && s.queue.frames != [] ==> s.permit
  }

  ghost predicate Inv(s: State) {
    && TraceSound(s) && HeardSound(s) && QueueSound(s) && WakeupSound(s)
    && forall k :: 0 <= k < |s.sessions| ==> SessionSound(s.sessions[k])
  }

  ghost predicate Grows(session: Session, more: Session) {
    && session.accepted <= more.accepted && session.wire <= more.wire
    && session.incoming <= more.incoming && session.heard <= more.heard
  }

  // What a step may do to the sessions: the current one grows while its outbox is open, a new one
  // may begin once it is closed, and every other stays as it is.
  ghost predicate SessionsGrow(s: State, t: State) {
    && |s.sessions| <= |t.sessions| && (s.queue.open ==> |t.sessions| == |s.sessions|)
    && forall k :: 0 <= k < |s.sessions| ==>
         && Grows(s.sessions[k], t.sessions[k])
         && (k + 1 < |s.sessions| || !s.queue.open ==> t.sessions[k] == s.sessions[k])
  }

  // ---- every step keeps it --------------------------------------------------------------------

  lemma {:induction false} WriterSoundIsSessionSound(s: State)
    requires WriterSound(s) && InboundSound(Last(s.sessions))
    ensures SessionSound(Last(s.sessions))
  {
    var last := Last(s.sessions);
    var whole := FramesOf(last.accepted[..s.written]);
    assert last.wire[|whole|..] == if s.writer.Writing? then s.writer.frame[..s.writer.count] else [];
    assert SoundAt(last, s.written);
  }

  // A change of the current session alone, if its outbox is open and the session stays sound.
  lemma {:induction false} LastGrows(s: State, t: State, last: Session)
    requires Inv(s) && s.queue.open && t.sessions == WithLast(s.sessions, last)
    requires Grows(Last(s.sessions), last) && SessionSound(last)
    ensures SessionsGrow(s, t)
    ensures forall k :: 0 <= k < |t.sessions| ==> SessionSound(t.sessions[k])
  {
    hide SessionSound, Hears, WriterSound, Queued, HeardSound;
  }

  // A change of the current session alone that hands nothing to the listener.
  lemma {:induction false} HeardStays(s: State, t: State, last: Session)
    requires HeardSound(s) && t.trace == s.trace && t.phase == s.phase
    requires t.sessions == WithLast(s.sessions, last) && last.heard == Last(s.sessions).heard
    ensures HeardSound(t)
  {
    hide Heard;
  }

  lemma {:induction false} AcceptedStep(s: State, payload: seq<byte>)
    requires Inv(s) && Fits(payload) && s.queue.Takes(Frame(payload))
    ensures Inv(Accepted(s, payload)) && SessionsGrow(s, Accepted(s, payload))
  {
    var t := Accepted(s, payload);
    var last, more := Last(s.sessions), Last(t.sessions);
    assert more.accepted == last.accepted + [payload];
    TotalBytesAppend(s.queue.frames, Frame(payload));
    AcceptedStaysSound(last, payload);
    LastGrows(s, t, more);
    HeardStays(s, t, more);
    hide HeardSound, SessionSound, Hears, Heard, SessionsGrow;
    assert QueueSound(t) by {
      hide Frame, FramesOf, TotalBytes;
      if s.phase.Exchanging? {
        AcceptedKeepsWriter(s, payload);
      }
    }
  }

  lemma {:induction false} AcceptedStaysSound(session: Session, payload: seq<byte>)
    requires SessionSound(session) && Fits(payload)
    ensures SessionSound(session.(accepted := session.accepted + [payload]))
  {
    var n: nat :| SoundAt(session, n);
    MoreAcceptedStaysSound(session, payload, n);
    hide SoundAt, FramesOf;
  }

  lemma {:induction false} AcceptedKeepsWriter(s: State, payload: seq<byte>)
    requires WriterSound(s) && s.sessions != [] && Fits(payload) && s.queue.Takes(Frame(payload))
    ensures WriterSound(Accepted(s, payload))
  {
    hide FramesOf, Frame;
    var last, more := Last(s.sessions), Last(Accepted(s, payload).sessions);
    assert more.accepted[..s.written] == last.accepted[..s.written];
  }

  // Part of a frame behind what is out already.
  lemma Spliced(before: seq<byte>, frame: seq<byte>, count: nat, n: nat)
    requires count + n <= |frame|
    ensures before + frame[..count] + frame[count..count + n] == before + frame[..count + n]
    ensures frame[..|frame|] == frame
  {
  }

  lemma {:induction false} WroteKeepsWriter(s: State, n: nat)
    requires WriterSound(s) && s.sessions != [] && Enabled(s, Write(n))
    ensures WriterSound(Wrote(s, n))
  {
    var last, frame, count := Last(s.sessions), s.writer.frame, s.writer.count;
    Spliced(FramesOf(last.accepted[..s.written]), frame, count, n);
    if count + n == |frame| {
      OneMoreOut(last.accepted, s.written);
    }
    hide FramesOf, Frame, AllFit;
  }

  lemma OneMoreOut(accepted: seq<seq<byte>>, n: nat)
    requires n < |accepted| && AllFit(accepted)
    ensures FramesOf(accepted[..n + 1]) == FramesOf(accepted[..n]) + Frame(accepted[n])
  {
    assert accepted[..n + 1] == accepted[..n] + [accepted[n]];
    OneMoreFrame(accepted[..n], accepted[n]);
  }

  lemma {:induction false} WroteStep(s: State, n: nat)
    requires Inv(s) && Enabled(s, Write(n))
    ensures Inv(Wrote(s, n)) && SessionsGrow(s, Wrote(s, n))
  {
    var t := Wrote(s, n);
    WroteKeepsWriter(s, n);
    hide FramesOf, Frame, TotalBytes, Hears, WriterSound, HeardSound, SessionsGrow, OutboundSound;
    assert SessionSound(Last(s.sessions));
    WriterSoundIsSessionSound(t);
    hide SessionSound;
    LastGrows(s, t, Last(t.sessions));
    HeardStays(s, t, Last(t.sessions));
  }

  lemma {:induction false} PollStep(s: State)
    requires Inv(s) && Enabled(s, Poll)
    ensures Inv(Next(s, Poll)) && SessionsGrow(s, Next(s, Poll))
  {
    hide FramesOf, Frame, SessionSound, Hears;
  }

  lemma {:induction false} AdmitStep(s: State)
    requires Inv(s) && Enabled(s, Admit)
    ensures Inv(Next(s, Admit)) && SessionsGrow(s, Next(s, Admit))
  {
    assert SoundAt(FRESH, 0) && InboundSound(FRESH);
    hide FramesOf, Frame, SoundAt, Hears, Heard;
  }

  lemma {:induction false} GreetStep(s: State, listening: bool)
    requires Inv(s) && Enabled(s, Greet(listening))
    ensures Inv(Next(s, Greet(listening))) && SessionsGrow(s, Next(s, Greet(listening)))
  {
    HearsOneMore(s.trace, Connected);
    HeardOneMore(s.trace, Connected);
    hide Frame, SessionSound, Hears, Heard;
  }

  lemma {:induction false} AcceptFailsStep(s: State)
    requires Inv(s) && Enabled(s, AcceptFails)
    ensures Inv(Next(s, AcceptFails)) && SessionsGrow(s, Next(s, AcceptFails))
  {
    HearsOneMore(s.trace, Failed);
    HeardOneMore(s.trace, Failed);
    hide Frame, FramesOf, SessionSound, Hears, Heard;
  }

  // Bytes and frames that come in leave what goes out alone.
  lemma {:induction false} ReadingStaysSound(session: Session, more: Session)
    requires SessionSound(session) && InboundSound(more)
    requires more.accepted == session.accepted && more.wire == session.wire
    ensures SessionSound(more)
  {
    var n: nat :| SoundAt(session, n);
    assert SoundAt(more, n);
  }

  lemma {:induction false} ReadingKeepsQueue(s: State, t: State, more: Session)
    requires QueueSound(s) && s.phase.Exchanging? && (t.phase.Exchanging? || t.phase.Hanging?)
    requires t.queue == s.queue && t.writer == s.writer && t.written == s.written
    requires t.sessions == WithLast(s.sessions, more)
    requires more.accepted == Last(s.sessions).accepted && more.wire == Last(s.sessions).wire
    ensures QueueSound(t)
  {
    hide FramesOf, Frame, AllFit, TotalBytes, Queued;
  }

  lemma {:induction false} ArrivedStep(s: State, bytes: seq<byte>)
    requires Inv(s) && Enabled(s, Arrive(bytes))
    ensures Inv(Arrived(s, bytes)) && SessionsGrow(s, Arrived(s, bytes))
  {
    var t := Arrived(s, bytes);
    var more := Last(t.sessions);
    hide FramesOf, Frame, TotalBytes, Hears, Heard, WriterSound, OutboundSound, AllFit, SessionsGrow;
    assert s.sessions != [] && s.queue.open && SessionSound(Last(s.sessions));
    ArrivedStaysSound(Last(s.sessions), bytes);
    HeardStays(s, t, more);
    ReadingKeepsQueue(s, t, more);
    hide QueueSound, HeardSound, InboundSound;
    ReadingStaysSound(Last(s.sessions), more);
    LastGrows(s, t, more);
  }

  lemma ArrivedStaysSound(session: Session, bytes: seq<byte>)
    requires InboundSound(session)
    ensures InboundSound(session.(incoming := session.incoming + bytes, unread := session.unread + bytes))
  {
    hide FramesOf;
  }

  lemma {:induction false} ReceivedStaysSound(session: Session, more: Session)
    requires InboundSound(session) && Parse(session.unread).Payload?
    requires more.incoming == session.incoming && more.unread == Parse(session.unread).rest
    requires more.heard == session.heard + [Parse(session.unread).payload]
    ensures InboundSound(more)
  {
    var parsed := Parse(session.unread);
    ParsedIsAFrame(session.unread);
    OneMoreFrame(session.heard, parsed.payload);
    hide FramesOf, Frame, Parse, AllFit;
  }

  lemma {:induction false} ReceivedIsHeard(s: State, listening: bool)
    requires HeardSound(s) && Enabled(s, Receive(listening))
    ensures HeardSound(Received(s, listening))
  {
    HeardOneMore(s.trace, Message(Parse(Last(s.sessions).unread).payload));
    hide Heard, Parse;
  }

  lemma {:induction false} ReceivedStep(s: State, listening: bool)
    requires Inv(s) && Enabled(s, Receive(listening))
    ensures Inv(Received(s, listening)) && SessionsGrow(s, Received(s, listening))
  {
    var t := Received(s, listening);
    ReceivedIsHeard(s, listening);
    hide HeardSound;
    HearsOneMore(s.trace, Message(Parse(Last(s.sessions).unread).payload));
    hide Parse;
    ReceivedStaysSound(Last(s.sessions), Last(t.sessions));
    ReadingStaysSound(Last(s.sessions), Last(t.sessions));
    LastGrows(s, t, Last(t.sessions));
    ReadingKeepsQueue(s, t, Last(t.sessions));
    hide Hears, QueueSound, SessionsGrow;
  }

  lemma {:induction false} PartStep(s: State, listening: bool)
    requires Inv(s) && Enabled(s, Part(listening))
    ensures Inv(Next(s, Part(listening))) && SessionsGrow(s, Next(s, Part(listening)))
  {
    HearsOneMore(s.trace, Disconnected);
    HeardOneMore(s.trace, Disconnected);
    hide Frame, FramesOf, SessionSound, Hears, Heard;
  }

  // The other steps move the accept loop, wake the writer or drop the queue.
  lemma {:induction false} QuietStep(s: State, step: Step)
    requires Inv(s) && Enabled(s, step) && !step.AcceptFails? && !step.Arrive? && !step.Receive? && !step.Part?
    requires !step.Send? && !step.Write? && !step.Poll? && !step.Admit? && !step.Greet?
    ensures Inv(Next(s, step)) && SessionsGrow(s, Next(s, step))
  {
    hide Queued, Frame, FramesOf, SessionSound, Hears, Heard, Wrote, Accepted, Arrived, Received;
  }

  // Every step of every task keeps the invariant and touches only the current session.
  lemma {:induction false} StepKeepsInv(s: State, step: Step)
    requires Inv(s) && Enabled(s, step)
    ensures Inv(Next(s, step)) && SessionsGrow(s, Next(s, step))
  {
    hide Inv, SessionsGrow;
    match step
    case Send(payload) =>
      if Fits(payload) && s.queue.Takes(Frame(payload)) {
        AcceptedStep(s, payload);
      } else {
        SessionsGrowNot(s);
      }
    case Write(n) => WroteStep(s, n);
    case Poll => PollStep(s);
    case Admit => AdmitStep(s);
    case Greet(listening) => GreetStep(s, listening);
    case AcceptFails => AcceptFailsStep(s);
    case Arrive(bytes) => ArrivedStep(s, bytes);
    case Receive(listening) => ReceivedStep(s, listening);
    case Part(listening) => PartStep(s, listening);
    case _ => QuietStep(s, step);
  }

  lemma SessionsGrowNot(s: State)
    ensures SessionsGrow(s, s)
  {
  }

  // ---- whole runs -----------------------------------------------------------------------------

  // The states a schedule of steps leads through, skipping steps that are not enabled.
  function Run(s: State, steps: seq<Step>): State
    decreases |steps|
  {
    if steps == [] then s
    else if Enabled(s, steps[0]) then Run(Next(s, steps[0]), steps[1..])
    else Run(s, steps[1..])
  }

  lemma {:induction false} RunKeepsInv(s: State, steps: seq<Step>)
    requires Inv(s)
    ensures Inv(Run(s, steps))
    decreases |steps|
  {
    hide Inv, Next, Enabled, SessionsGrow;
    if steps != [] {
      if Enabled(s, steps[0]) {
        StepKeepsInv(s, steps[0]);
        RunKeepsInv(Next(s, steps[0]), steps[1..]);
      } else {
        RunKeepsInv(s, steps[1..]);
      }
    }
  }

  // The peer decodes the first n payloads accepted for it, and nothing else.
  ghost predicate DecodesFirst(session: Session, n: nat) {
    n <= |session.accepted| && DecodeAll(session.wire).payloads == session.accepted[..n]
  }

  ghost predicate DecodesPrefix(session: Session) {
    exists n: nat :: DecodesFirst(session, n)
  }

  // From the start, under every interleaving: the listener hears whole sessions in order, each peer
  // decodes a prefix of what was accepted for it, and no wakeup is lost.
  lemma {:induction false} EveryRunIsSound(steps: seq<Step>, s: State)
    requires s == Run(START, steps)
    ensures Hears(s.trace) != Confused
    ensures s.phase.Exchanging? && s.writer.Waiting? && s.queue.frames != [] ==> s.permit
    ensures forall k :: 0 <= k < |s.sessions| ==> DecodesPrefix(s.sessions[k])
    ensures |Heard(s.trace)| <= |s.sessions|
    ensures forall k :: 0 <= k < |Heard(s.trace)| ==>
              Heard(s.trace)[k] == s.sessions[k].heard <= DecodeAll(s.sessions[k].incoming).payloads
  {
    RunKeepsInv(START, steps);
    forall k | 0 <= k < |Heard(s.trace)|
      ensures s.sessions[k].heard <= DecodeAll(s.sessions[k].incoming).payloads
    {
      HeardIsDecoded(s.sessions[k]);
    }
    forall k | 0 <= k < |s.sessions|
      ensures DecodesPrefix(s.sessions[k])
    {
      assert SessionSound(s.sessions[k]);
      var n: nat :| SoundAt(s.sessions[k], n);
      PeerDecodesAPrefix(s.sessions[k], n);
      assert DecodesFirst(s.sessions[k], n);
    }
  }

  // A session whose outbox is closed never changes again: nothing of a later session reaches it, and
  // nothing accepted for it reaches a later one.
  lemma {:induction false} ClosedSessionsStay(s: State, steps: seq<Step>)
    requires Inv(s)
    ensures var t := Run(s, steps);
            && |s.sessions| <= |t.sessions|
            && forall k :: 0 <= k < |s.sessions| && (k + 1 < |s.sessions| || !s.queue.open) ==>
                 t.sessions[k] == s.sessions[k]
    decreases |steps|
  {
    hide Inv, Next, Enabled;
    if steps != [] {
      if Enabled(s, steps[0]) {
        StepKeepsInv(s, steps[0]);
        ClosedStays(s, steps[0]);
        ClosedSessionsStay(Next(s, steps[0]), steps[1..]);
      } else {
        ClosedSessionsStay(s, steps[1..]);
      }
    }
  }

  // An outbox once closed opens again only for a new session.
  lemma ClosedStays(s: State, step: Step)
    requires Inv(s) && Enabled(s, step)
    ensures !s.queue.open && Next(s, step).queue.open ==> |Next(s, step).sessions| == |s.sessions| + 1
  {
    hide TotalBytes, Hears, SessionSound, WriterSound, Frame;
  }

  // Once the server has ended, every push is refused and the listener hears nothing more.
  lemma {:induction false} AfterTheEnd(s: State, steps: seq<Step>)
    requires Inv(s) && s.phase.Ended?
    ensures Run(s, steps) == s
    decreases |steps|
  {
    if steps != [] {
      AfterTheEnd(s, steps[1..]);
      hide Hears, SessionSound, WriterSound, Frame;
      assert Enabled(s, steps[0]) ==> Next(s, steps[0]) == s;
    }
  }

  // ---- schedules ------------------------------------------------------------------------------

  // The steps of a schedule that were enabled when their turn came.
  ghost function Taken(s: State, steps: seq<Step>): seq<Step>
    decreases |steps|
  {
    if steps == [] then []
    else if Enabled(s, steps[0]) then [steps[0]] + Taken(Next(s, steps[0]), steps[1..])
    else Taken(s, steps[1..])
  }

  ghost predicate Runs(taken: seq<Step>)
    decreases |taken|, 0
  {
    taken == [] ||
    (Runs(taken[..|taken| - 1]) && Enabled(After(taken[..|taken| - 1]), taken[|taken| - 1]))
  }

  // Where steps, each enabled in its turn, lead from the start.
  ghost function After(taken: seq<Step>): State
    requires Runs(taken)
    decreases |taken|, 1
  {
    if taken == [] then START else Next(After(taken[..|taken| - 1]), taken[|taken| - 1])
  }

  lemma {:induction false} EveryRunIsItsSteps(before: seq<Step>, steps: seq<Step>)
    requires Runs(before)
    ensures var taken := before + Taken(After(before), steps);
            Runs(taken) && After(taken) == Run(After(before), steps)
    decreases |steps|
  {
    hide Next, Enabled;
    if steps == [] {
      assert before + [] == before;
    } else if Enabled(After(before), steps[0]) {
      var more := before + [steps[0]];
      assert more[..|before|] == before;
      EveryRunIsItsSteps(more, steps[1..]);
      assert more + Taken(After(more), steps[1..]) == before + ([steps[0]] + Taken(After(more), steps[1..]));
    } else {
      EveryRunIsItsSteps(before, steps[1..]);
    }
  }

  lemma {:induction false} AfterIsSound(taken: seq<Step>)
    requires Runs(taken)
    ensures Inv(After(taken))
    decreases |taken|
  {
    if taken == [] {
      assert Inv(START);
    } else {
      AfterIsSound(taken[..|taken| - 1]);
      StepKeepsInv(After(taken[..|taken| - 1]), taken[|taken| - 1]);
      hide Inv, Next, Enabled, SessionsGrow;
    }
  }

  // ---- why the server ends, and who is served -------------------------------------------------

  // What makes the server end: it is shut down, no listener comes or the listener is gone, or accept fails.
  predicate EndsServing(step: Step) {
    match step
    case Greet(listening) => !listening
    case Part(listening) => !listening
    case _ => step.Shutdown? || step.Abandon? || step.AcceptFails?
  }

  lemma TheseEndServing(step: Step)
    ensures EndsServing(step) <==> step in {Shutdown, Abandon, AcceptFails, Greet(false), Part(false)}
  {
  }

  predicate IsLast(phase: Phase) { phase.Finishing? || phase.Ended? || phase == Hanging(false) }

  lemma StepEnds(s: State, step: Step)
    requires Enabled(s, step)
    ensures !IsLast(s.phase) ==> (IsLast(Next(s, step).phase) <==> EndsServing(step))
    ensures IsLast(s.phase) ==> IsLast(Next(s, step).phase) && step != Admit
  {
    hide Parse, Frame;
  }

  // It ends, or its last session does, exactly after one of these.
  lemma {:induction false} EndsJustWhenTold(taken: seq<Step>)
    requires Runs(taken)
    ensures var phase := After(taken).phase;
            (phase.Finishing? || phase.Ended? || phase == Hanging(false)) <==>
            exists i :: 0 <= i < |taken| && EndsServing(taken[i])
    decreases |taken|
  {
    if taken != [] {
      var most, step := taken[..|taken| - 1], taken[|taken| - 1];
      EndsJustWhenTold(most);
      StepEnds(After(most), step);
      assert IsLast(After(taken).phase) <==> IsLast(After(most).phase) || EndsServing(step);
      hide Next, Enabled, EndsServing, After, Runs;
      if i :| 0 <= i < |most| && EndsServing(most[i]) {
        assert EndsServing(taken[i]);
      }
    }
  }

  // No session begins afterwards.
  lemma {:induction false} NobodyIsAdmittedThen(taken: seq<Step>, i: nat, j: nat)
    requires Runs(taken) && i < j < |taken| && EndsServing(taken[i])
    ensures taken[j] != Admit
    decreases |taken|
  {
    var most := taken[..|taken| - 1];
    if j < |most| {
      NobodyIsAdmittedThen(most, i, j);
    } else {
      EndsJustWhenTold(most);
      assert EndsServing(most[i]);
      StepEnds(After(most), taken[j]);
      hide Next, Enabled, EndsServing, After;
    }
  }

  lemma LastHeard(s: State, step: Step)
    requires Enabled(s, step)
    ensures (Failed in Next(s, step).trace) <==> (Failed in s.trace || step.AcceptFails?)
  {
    hide Parse, Frame, Queue.With;
  }

  // The listener hears of a failure exactly if accept fails.
  lemma {:induction false} FailureIsHeard(taken: seq<Step>)
    requires Runs(taken)
    ensures (Failed in After(taken).trace) <==> AcceptFails in taken
    decreases |taken|
  {
    if taken != [] {
      var most, step := taken[..|taken| - 1], taken[|taken| - 1];
      FailureIsHeard(most);
      LastHeard(After(most), step);
      assert After(taken) == Next(After(most), step);
      hide Next, Enabled, After, Runs;
      assert taken == most + [step];
    }
  }

  // A server that listens serves the next peer: once admitted and greeted, it has a session of its own
  // with nothing in it and an open outbox with nothing in it.
  lemma {:induction false} NextPeerIsServed(s: State)
    requires s.phase.Listening?
    ensures Enabled(s, Admit) && Enabled(Next(s, Admit), Greet(true))
    ensures var t := Next(Next(s, Admit), Greet(true));
            && t.phase.Exchanging? && t.sessions == s.sessions + [Session([], [], [], [], [])]
            && t.queue.open && t.queue.frames == [] && t.trace == s.trace + [Connected] && t.writer.Polling?
  {
  }

  // An exchange that breaks off, or that the listener breaks off, is parted from; as long as the listener
  // answers the server listens again.
  lemma {:induction false} PartedPeersAreFollowed(s: State, step: Step)
    requires s.phase.Exchanging? && Enabled(s, step)
    requires step == ReceiveFails || step == WriteFails || step == Receive(false)
    ensures var hanging := Next(s, step);
            && Enabled(hanging, CloseSession) && !Next(hanging, CloseSession).queue.open
            && Enabled(Next(hanging, CloseSession), Part(true)) && Enabled(Next(hanging, CloseSession), Part(false))
            && Next(Next(hanging, CloseSession), Part(true)).phase.Listening?
            && Next(Next(hanging, CloseSession), Part(true)).trace == hanging.trace + [Disconnected]
            && Next(Next(hanging, CloseSession), Part(false)).phase.Finishing?
            && |hanging.trace| == |s.trace| + if step == Receive(false) then 1 else 0
  {
  }

  // A frame that has arrived can be read whatever else goes on, and goes to the listener at once; the
  // reader may fail at any time, and the writer while it writes.
  lemma {:induction false} ArrivedFramesAreRead(s: State, payload: seq<byte>, rest: seq<byte>, listening: bool)
    requires s.phase.Exchanging? && s.sessions != [] && |payload| <= 0x400_0000
    requires Last(s.sessions).unread == Frame(payload) + rest
    ensures Enabled(s, Receive(listening)) && Enabled(s, ReceiveFails)
    ensures forall bytes :: Enabled(s, Arrive(bytes))
    ensures s.writer.Writing? <==> Enabled(s, WriteFails)
    ensures var t := Next(s, Receive(listening));
            && t.trace == s.trace + [Message(payload)] && |t.sessions| == |s.sessions|
            && Last(t.sessions).heard == Last(s.sessions).heard + [payload] && Last(t.sessions).unread == rest
            && t.phase == if listening then Exchanging else Hanging(true)
  {
    FrameReadsBack(payload, rest);
    hide Frame, Parse;
  }

  // A listener attached makes the server listen, and a rejected peer changes nothing. It may be that none
  // comes, that accept fails, or that the server is shut down where it waits.
  lemma ListeningBegins(s: State)
    ensures s.phase.Starting? ==>
              Enabled(s, Abandon) && Enabled(s, Attach) && Next(s, Attach) == s.(phase := Listening)
    ensures s.phase.Listening? ==> Enabled(s, AcceptFails)
    ensures s.phase.Listening? ==> Enabled(s, Reject) && Next(s, Reject) == s
    ensures s.phase.Finishing? ==>
              Enabled(s, Finish) && Next(s, Finish) == s.(phase := Ended, queue := Queue([], 0, false))
    ensures s.phase.Starting? || s.phase.Listening? || s.phase.Exchanging? ==>
              Enabled(s, Shutdown) && Next(s, Shutdown) == s.(phase := Finishing)
  {
  }

  // How often a trace has Connected, or Disconnected.
  ghost function Count(trace: seq<Event>, event: Event): nat {
    if trace == [] then 0 else Count(trace[..|trace| - 1], event) + if trace[|trace| - 1] == event then 1 else 0
  }

  lemma CountOneMore(trace: seq<Event>, more: Event, event: Event)
    ensures Count(trace + [more], event) == Count(trace, event) + if more == event then 1 else 0
  {
    assert (trace + [more])[..|trace|] == trace;
  }

  // Every session admitted is heard connected once, but for one still to be greeted; and every one but
  // the current is heard disconnected once, while the server goes on.
  ghost predicate Balanced(s: State) {
    var connected, parted := Count(s.trace, Connected), Count(s.trace, Disconnected);
    match s.phase
    case Greeting => connected == parted == |s.sessions| - 1
    case Exchanging => connected == |s.sessions| == parted + 1
    case Hanging(_) => connected == |s.sessions| == parted + 1
    case Parting => connected == |s.sessions| == parted + 1
    case Finishing => connected == |s.sessions| && parted <= connected <= parted + 1
    case Ended => connected == |s.sessions| && parted <= connected <= parted + 1
    case _ => connected == parted == |s.sessions|
  }

  lemma UnheardStep(s: State, step: Step)
    requires Balanced(s) && Enabled(s, step)
    requires step.Send? || step.Arrive? || step.Poll? || step.Wake? || step.Write?
    ensures Balanced(Next(s, step))
  {
    hide Count, Parse, Frame, Queue.With;
  }

  lemma {:induction false} BalanceStep(s: State, step: Step)
    requires Balanced(s) && Enabled(s, step)
    ensures Balanced(Next(s, step))
  {
    if step.Send? || step.Arrive? || step.Poll? || step.Wake? || step.Write? {
      hide *;
      UnheardStep(s, step);
      return;
    }
    forall event: Event, more: Event
      ensures Count(s.trace + [more], event) == Count(s.trace, event) + if more == event then 1 else 0
    {
      CountOneMore(s.trace, more, event);
    }
    hide Count, Parse, Frame, Queue.With;
  }

  lemma {:induction false} EveryPeerIsHeard(taken: seq<Step>)
    requires Runs(taken)
    ensures Balanced(After(taken))
    decreases |taken|
  {
    if taken != [] {
      EveryPeerIsHeard(taken[..|taken| - 1]);
      BalanceStep(After(taken[..|taken| - 1]), taken[|taken| - 1]);
      hide Balanced, Next, Enabled;
    }
  }

  // ---- what a session holds -------------------------------------------------------------------

  function AtLast<T>(lists: seq<seq<T>>, more: seq<T>): seq<seq<T>> {
    if lists == [] then [] else lists[|lists| - 1 := lists[|lists| - 1] + more]
  }

  // A payload goes to the session if it is at most 64 MiB, the outbox is open and, unless nothing is
  // queued there, the frame brings it to no more than 16 MiB.
  predicate GoesOut(s: State, payload: seq<byte>) {
    && |payload| <= 0x400_0000 && s.queue.open
    && (s.queue.bytes == 0 || s.queue.bytes + 4 + |payload| <= 0x100_0000)
  }

  // The payloads sent to each session, and the bytes that arrived from each.
  ghost function SentTo(taken: seq<Step>): seq<seq<seq<byte>>>
    requires Runs(taken)
    decreases |taken|
  {
    if taken == [] then [] else
    var most := taken[..|taken| - 1];
    match taken[|taken| - 1]
    case Admit => SentTo(most) + [[]]
    case Send(payload) => if GoesOut(After(most), payload) then AtLast(SentTo(most), [payload]) else SentTo(most)
    case _ => SentTo(most)
  }

  ghost function ArrivedFrom(taken: seq<Step>): seq<seq<byte>> {
    if taken == [] then [] else
    var most := taken[..|taken| - 1];
    match taken[|taken| - 1]
    case Admit => ArrivedFrom(most) + [[]]
    case Arrive(bytes) => AtLast(ArrivedFrom(most), bytes)
    case _ => ArrivedFrom(most)
  }

  ghost predicate Holds(sessions: seq<Session>, sent: seq<seq<seq<byte>>>, arrived: seq<seq<byte>>) {
    && |sessions| == |sent| == |arrived|
    && forall k :: 0 <= k < |sessions| ==> sessions[k].accepted == sent[k] && sessions[k].incoming == arrived[k]
  }

  lemma SendGoesOut(s: State, payload: seq<byte>)
    ensures GoesOut(s, payload) <==> Fits(payload) && s.queue.Takes(Frame(payload))
    ensures Enabled(s, Send(payload))
    ensures Next(s, Send(payload)) == if GoesOut(s, payload) then Accepted(s, payload) else s
  {
  }

  lemma {:induction false} StepHolds(s: State, step: Step, sent: seq<seq<seq<byte>>>, arrived: seq<seq<byte>>)
    requires Enabled(s, step) && Holds(s.sessions, sent, arrived)
    ensures var sessions := Next(s, step).sessions;
            match step
            case Admit => Holds(sessions, sent + [[]], arrived + [[]])
            case Send(payload) =>
              Holds(sessions, if GoesOut(s, payload) then AtLast(sent, [payload]) else sent, arrived)
            case Arrive(bytes) => Holds(sessions, sent, AtLast(arrived, bytes))
            case _ => Holds(sessions, sent, arrived)
  {
    if step.Send? {
      SendGoesOut(s, step.payload);
    }
    hide Parse, Frame, GoesOut;
  }

  // In every run each session has accepted exactly the payloads sent while it was current that go out,
  // and has got in exactly the bytes that arrived meanwhile.
  lemma {:induction false} SessionsAreOfTheSchedule(taken: seq<Step>)
    requires Runs(taken)
    ensures Holds(After(taken).sessions, SentTo(taken), ArrivedFrom(taken))
    decreases |taken|
  {
    if taken != [] {
      var most := taken[..|taken| - 1];
      SessionsAreOfTheSchedule(most);
      StepHolds(After(most), taken[|taken| - 1], SentTo(most), ArrivedFrom(most));
      hide Holds, Next, Enabled, GoesOut;
    }
  }

  // With nothing queued and nothing half written, the peer has got all that was sent to it.
  lemma {:induction false} DrainedIsDelivered(s: State)
    requires Inv(s) && s.phase.Exchanging? && !s.writer.Writing? && s.queue.frames == []
    ensures DecodeAll(Last(s.sessions).wire).payloads == Last(s.sessions).accepted
  {
    var last := Last(s.sessions);
    assert last.accepted[..s.written] == last.accepted;
    FramesDecode(last.accepted, []);
    assert FramesOf(last.accepted) + [] == last.wire;
    hide Inv, FramesOf, WriterSound;
  }

  // A writer that is awake takes the oldest frame and, written whole, goes on to the next; with nothing
  // queued it waits, and a permit wakes it.
  lemma {:induction false} QueuedFramesGoOut(s: State)
    requires s.phase.Exchanging? && s.sessions != []
    ensures s.writer.Polling? ==> Enabled(s, Poll)
    ensures s.writer.Polling? && s.queue.frames == [] ==> Next(s, Poll) == s.(writer := Waiting)
    ensures s.writer.Polling? && s.queue.frames != [] && s.queue.frames[0] != [] ==>
              var frame, polled := s.queue.frames[0], Next(s, Poll);
              && polled.queue.frames == s.queue.frames[1..] && polled.queue.open == s.queue.open
              && (forall n: nat :: Enabled(polled, Write(n)) <==> 0 < n <= |frame|)
              && var written := Next(polled, Write(|frame|));
                 && Last(written.sessions).wire == Last(s.sessions).wire + frame && written.writer.Polling?
                 && written.queue == polled.queue
    ensures s.writer.Waiting? ==> (Enabled(s, Wake) <==> s.permit)
    ensures Enabled(s, Wake) ==> Next(s, Wake).writer.Polling? && !Next(s, Wake).permit
  {
  }
}
