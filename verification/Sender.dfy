/**
 * The core's side of the IPC stream: frames written to a connection whose writes may be short, may
 * time out and may fail. The connection's behaviour is an arbitrary finite script; once the script
 * is used up every write fails, so each run is a prefix of a run on a longer script.
 */
module Sender {
  import opened Options
  import opened Frames

  // After a timeout the connection may or may not take a new deadline.
  datatype Fault = NoFault | Timeout(extendable: bool) | Hard

  // What one write of the connection does: how many bytes it takes, and what it reports.
  datatype WriteOutcome = WriteOutcome(taken: nat, fault: Fault)

  function OutcomeAt(script: seq<WriteOutcome>, i: nat): WriteOutcome {
    if i < |script| then script[i] else WriteOutcome(0, Hard)
  }

  function Min(a: nat, b: nat): nat { if a < b then a else b }

  class Conn {
    const script: seq<WriteOutcome>
    var made: nat  // writes so far
    var closed: bool
    ghost var wire: seq<byte>

    constructor (script: seq<WriteOutcome>)
      ensures this.script == script && made == 0 && wire == [] && !closed
    {
      this.script, made, closed, wire := script, 0, false, [];
    }

    method Write(data: seq<byte>) returns (n: nat, fault: Fault)
      modifies `made, `wire
      ensures n <= |data| && wire == old(wire) + data[..n]
      ensures if old(closed) then n == 0 && fault == Hard && made == old(made)
              else made == old(made) + 1 && n == Min(OutcomeAt(script, old(made)).taken, |data|) &&
                   fault == OutcomeAt(script, old(made)).fault
    {
      if closed {
        return 0, Hard;
      }
      var outcome := OutcomeAt(script, made);
      made := made + 1;
      n := Min(outcome.taken, |data|);
      wire := wire + data[..n];
      return n, outcome.fault;
    }

    method SetWriteDeadline() returns (ok: bool)
      ensures ok == (made > 0 && OutcomeAt(script, made - 1).fault == Timeout(true))
    {
      ok := made > 0 && OutcomeAt(script, made - 1).fault == Timeout(true);
    }

    method Close()
      modifies `closed
      ensures closed
    {
      closed := true;
    }
  }

  // ---- one frame's writes ---------------------------------------------------------------------

  // The header and the payload are offered one after the other: a write gets no further than the end
  // of the part it is in.
  function PartEnd(position: nat, len: nat): nat { if position < HEADER_SIZE then HEADER_SIZE else len }

  // How much of a frame of some length is out after so many writes, the first being the script's
  // `from`.
  function Position(script: seq<WriteOutcome>, from: nat, count: nat, len: nat): (p: nat)
    requires HEADER_SIZE <= len
    ensures p <= len
  {
    if count == 0 then 0 else
    var p := Position(script, from, count - 1, len);
    p + Min(OutcomeAt(script, from + count - 1).taken, PartEnd(p, len) - p)
  }

  // Whether the frame goes on after one of its writes: a timeout is waited out as long as part of the
  // frame is out, part of its part is not, and the connection takes a new deadline.
  predicate GoesOn(script: seq<WriteOutcome>, from: nat, count: nat, len: nat)
    requires HEADER_SIZE <= len && count > 0
  {
    match OutcomeAt(script, from + count - 1).fault
    case NoFault => true
    case Timeout(extendable) =>
      extendable && 0 < Position(script, from, count, len) < PartEnd(Position(script, from, count - 1, len), len)
    case Hard => false
  }

  datatype WriteError = Stalled | Failed | ShortWrite | Oversized

  datatype Written = Written(count: nat, error: Option<WriteError>)

  // The writes a frame took: none after the frame was out or one that stopped it, and the result says
  // what is out and what stopped it. Nothing but a write of no bytes stops a frame without a fault.
  ghost predicate Attempted(script: seq<WriteOutcome>, from: nat, to: nat, len: nat, r: Written)
    requires HEADER_SIZE <= len
  {
    && from < to
    && var last := OutcomeAt(script, to - 1);
    && r.count == Position(script, from, to - from, len)
    && (forall i :: 0 <= i < to - from ==> Position(script, from, i, len) < len)
    && (forall i :: 0 < i < to - from ==> GoesOn(script, from, i, len))
    && (r.error.None? <==> r.count == len && last.fault == NoFault)
    && (r.error == Some(Failed) <==> last.fault == Hard)
    && (r.error == Some(Stalled) <==> last.fault.Timeout?)
    && (r.error == Some(Stalled) ==> !GoesOn(script, from, to - from, len))
    && (r.error == Some(ShortWrite) ==> last == WriteOutcome(0, NoFault))
    && r.error != Some(Oversized)
  }

  // A writer that waits a stall out once it has written part of a frame. The frame's length and its
  // first write are kept for the proofs.
  class ResumingWriter {
    const conn: Conn
    var written: nat
    ghost const from: nat
    ghost const len: nat

    constructor (conn: Conn, ghost len: nat)
      ensures this.conn == conn && this.len == len && from == conn.made && written == 0
    {
      this.conn, this.len, from, written := conn, len, conn.made, 0;
    }

    // The writer stands where the connection's writes have brought the frame, and all of them but at
    // most the last few went on.
    ghost predicate Standing(goneOn: nat)
      reads this, conn`made
    {
      && HEADER_SIZE <= len && from + goneOn <= conn.made
      && written == Position(conn.script, from, conn.made - from, len)
      && (forall i :: 0 <= i < conn.made - from ==> Position(conn.script, from, i, len) < len)
      && (forall i :: 0 < i <= goneOn ==> GoesOn(conn.script, from, i, len))
    }

    lemma StandingFurther(goneOn: nat)
      requires Standing(goneOn) && from + goneOn < conn.made && GoesOn(conn.script, from, goneOn + 1, len)
      ensures Standing(goneOn + 1)
    {
    }

    // One write of the connection, for what is left of a part.
    method WriteOnce(data: seq<byte>, accepted: nat) returns (n: nat, fault: Fault)
      requires !conn.closed && conn.made >= from && Standing(conn.made - from)
      requires accepted < |data| && written < len && written + |data| - accepted == PartEnd(written, len)
      modifies this`written, conn`made, conn`wire
      ensures accepted + n <= |data| && conn.wire == old(conn.wire) + data[accepted..accepted + n]
      ensures written == old(written) + n && conn.made == old(conn.made) + 1 && Standing(conn.made - from - 1)
      ensures n == 0 ==> OutcomeAt(conn.script, conn.made - 1).taken == 0
      ensures accepted + n < |data| ==> written < len && written + |data| - accepted - n == PartEnd(written, len)
      ensures fault == OutcomeAt(conn.script, conn.made - 1).fault
      ensures GoesOn(conn.script, from, conn.made - from, len) <==>
              fault == NoFault || (fault == Timeout(true) && 0 < written && accepted + n < |data|)
    {
      n, fault := conn.Write(data[accepted..]);
      assert data[accepted..][..n] == data[accepted..accepted + n];
      written := written + n;
    }

    method Write(data: seq<byte>) returns (accepted: nat, fault: Fault)
      requires !conn.closed && conn.made >= from && Standing(conn.made - from)
      requires data != [] && written < len && written + |data| == PartEnd(written, len)
      modifies this`written, conn`made, conn`wire
      ensures accepted <= |data| && conn.wire == old(conn.wire) + data[..accepted]
      ensures written == old(written) + accepted && conn.made > old(conn.made)
      ensures Standing(conn.made - from - 1) && fault == OutcomeAt(conn.script, conn.made - 1).fault
      ensures fault != NoFault ==> !GoesOn(conn.script, from, conn.made - from, len)
      ensures accepted == 0 ==> OutcomeAt(conn.script, conn.made - 1).taken == 0
    {
      hide GoesOn, Position, Standing, OutcomeAt, PartEnd;
      accepted := 0;
      while true
        invariant !conn.closed && conn.made >= old(conn.made) && Standing(conn.made - from)
        invariant accepted < |data| && written < len && conn.wire == old(conn.wire) + data[..accepted]
        invariant written == old(written) + accepted && PartEnd(written, len) == written + |data| - accepted
        decreases |conn.script| - conn.made
      {
        var n;
        n, fault := WriteOnce(data, accepted);
        assert data[..accepted] + data[accepted..accepted + n] == data[..accepted + n];
        accepted := accepted + n;
        if fault == NoFault || accepted >= |data| {
          return;
        }
        var resumed := Resume(fault);
        if !resumed {
          return;
        }
        StandingFurther(conn.made - from - 1);
      }
    }

    method Resume(fault: Fault) returns (resumed: bool)
      ensures resumed <==>
                written > 0 && fault.Timeout? && conn.made > 0 &&
                OutcomeAt(conn.script, conn.made - 1).fault == Timeout(true)
      ensures resumed ==> conn.made <= |conn.script|
    {
      if written == 0 || !fault.Timeout? {
        return false;
      }
      resumed := conn.SetWriteDeadline();
    }
  }

  function ErrorOf(fault: Fault): WriteError
    requires fault != NoFault
  {
    if fault.Timeout? then Stalled else Failed
  }

  lemma WentOn(w: ResumingWriter)
    requires w.conn.made > w.from && w.Standing(w.conn.made - w.from - 1)
    requires OutcomeAt(w.conn.script, w.conn.made - 1).fault == NoFault
    ensures w.Standing(w.conn.made - w.from)
  {
  }

  // Writes one part of the frame, the header or the payload.
  method WriteAll(w: ResumingWriter, all: seq<byte>) returns (r: Written)
    requires !w.conn.closed && w.conn.made >= w.from && w.Standing(w.conn.made - w.from)
    requires all != [] ==> w.written < w.len && w.written + |all| == PartEnd(w.written, w.len)
    modifies w`written, w.conn`made, w.conn`wire
    ensures r.count <= |all| && w.conn.wire == old(w.conn.wire) + all[..r.count]
    ensures w.written == old(w.written) + r.count && w.conn.made >= old(w.conn.made)
    ensures r.error.None? ==>
              && r.count == |all| && w.Standing(w.conn.made - w.from)
              && (all != [] ==> w.conn.made > w.from && OutcomeAt(w.conn.script, w.conn.made - 1).fault == NoFault)
    ensures r.error.Some? ==>
              && w.conn.made > w.from && w.Standing(w.conn.made - w.from - 1)
              && var last := OutcomeAt(w.conn.script, w.conn.made - 1);
                 if last.fault == NoFault then r.error.value == ShortWrite && last.taken == 0 && r.count < |all|
                 else r.error.value == ErrorOf(last.fault) &&
                      !GoesOn(w.conn.script, w.from, w.conn.made - w.from, w.len)
  {
    hide Position, GoesOn, ResumingWriter.Standing;
    var written, data := 0, all;
    while |data| > 0
      invariant !w.conn.closed && w.conn.made >= old(w.conn.made) && w.Standing(w.conn.made - w.from)
      invariant written <= |all| && data == all[written..]
      invariant w.conn.wire == old(w.conn.wire) + all[..written] && w.written == old(w.written) + written
      invariant data != [] ==> w.written < w.len && PartEnd(w.written, w.len) == w.written + |data|
      invariant written > 0 ==> w.conn.made > w.from && OutcomeAt(w.conn.script, w.conn.made - 1).fault == NoFault
      decreases |data|
    {
      var n, fault := w.Write(data);
      assert all[..written] + data[..n] == all[..written + n];
      written := written + n;
      if fault != NoFault {
        return Written(written, Some(ErrorOf(fault)));
      }
      if n == 0 {
        return Written(written, Some(ShortWrite));
      }
      WentOn(w);
      data := data[n..];
    }
    return Written(written, None);
  }

  lemma IsAttempt(w: ResumingWriter, r: Written)
    requires w.conn.made > w.from && w.Standing(w.conn.made - w.from - 1) && r.count == w.written
    requires var last := OutcomeAt(w.conn.script, w.conn.made - 1);
             match r.error
             case None => last.fault == NoFault && r.count == w.len
             case Some(error) =>
               if last.fault == NoFault then error == ShortWrite && last.taken == 0 && r.count < w.len
               else error == ErrorOf(last.fault) && !GoesOn(w.conn.script, w.from, w.conn.made - w.from, w.len)
    ensures w.len >= HEADER_SIZE && Attempted(w.conn.script, w.from, w.conn.made, w.len, r)
  {
    hide Position, GoesOn;
  }

  lemma StandingLess(w: ResumingWriter)
    requires w.conn.made > w.from && w.Standing(w.conn.made - w.from)
    ensures w.Standing(w.conn.made - w.from - 1)
  {
  }

  method WriteFrame(w: ResumingWriter, data: seq<byte>) returns (r: Written)
    requires !w.conn.closed && w.written == 0 && w.from == w.conn.made && w.len == HEADER_SIZE + |data|
    modifies w`written, w.conn`made, w.conn`wire
    ensures !Fits(data) ==>
              r == Written(0, Some(Oversized)) && w.conn.wire == old(w.conn.wire) && w.conn.made == old(w.conn.made)
    ensures Fits(data) ==>
              && r.count <= |Frame(data)| && w.conn.wire == old(w.conn.wire) + Frame(data)[..r.count]
              && Attempted(w.conn.script, old(w.conn.made), w.conn.made, |Frame(data)|, r)
  {
    if |data| > MAX_FRAME_SIZE {
      return Written(0, Some(Oversized));
    }
    assert w.Standing(0) && |Frame(data)| == w.len;
    hide Position, GoesOn, ResumingWriter.Standing, Attempted, LittleEndian;
    var header := WriteAll(w, LittleEndian(|data|));
    assert Frame(data)[..header.count] == LittleEndian(|data|)[..header.count];
    if header.error.Some? {
      IsAttempt(w, header);
      return header;
    }
    var payload := WriteAll(w, data);
    assert Frame(data)[..HEADER_SIZE] + data[..payload.count] == Frame(data)[..HEADER_SIZE + payload.count];
    r := Written(header.count + payload.count, payload.error);
    if r.error.None? {
      StandingLess(w);
    }
    IsAttempt(w, r);
  }

  // ---- one connection's sends -----------------------------------------------------------------

  // What a server knows of its one connection: the payloads delivered, the start of a frame that broke
  // off, and how many writes were made.
  datatype Books = Books(connected: bool, delivered: seq<seq<byte>>, tail: seq<byte>, tailOf: seq<byte>, made: nat)

  // A send without a connection does nothing. Any other has a result, that of its frame's writes: no
  // error, and the payload is delivered; an error with nothing out, and it is dropped; or an error with
  // part of the frame out, and the connection is given up.
  ghost predicate SendEffect(script: seq<WriteOutcome>, data: seq<byte>, r: Option<Written>, was: Books, now: Books) {
    match r
    case None => !was.connected && now == was
    case Some(w) =>
      && was.connected
      && (if Fits(data) then Attempted(script, was.made, now.made, |Frame(data)|, w)
          else w == Written(0, Some(Oversized)) && now.made == was.made)
      && (if w.error.None? then Fits(data) && now == was.(delivered := was.delivered + [data], made := now.made)
          else if w.count == 0 then now == was.(made := now.made)
          else Fits(data) && w.count <= |Frame(data)| &&
               now == Books(false, was.delivered, Frame(data)[..w.count], data, now.made))
  }

  class Server {
    const dialed: Conn
    var conn: Conn?
    ghost var delivered: seq<seq<byte>>
    ghost var tail: seq<byte>
    ghost var tailOf: seq<byte>

    // The wire is the delivered payloads' frames, and after them at most the start of one more;
    // with such a tail the connection is given up and closed.
    ghost predicate Valid()
      reads this, dialed
    {
      && AllFit(delivered) && Fits(tailOf)
      && dialed.wire == FramesOf(delivered) + tail
      && (if conn == null then dialed.closed else conn == dialed && !dialed.closed && tail == [])
      && tail <= Frame(tailOf)
    }

    constructor (dialed: Conn)
      requires dialed.wire == [] && !dialed.closed
      ensures Valid() && this.dialed == dialed && Now() == Books(true, [], [], [], dialed.made)
    {
      this.dialed, conn := dialed, dialed;
      delivered, tail, tailOf := [], [], [];
    }

    ghost function Now(): Books
      reads this, dialed
    {
      Books(conn != null, delivered, tail, tailOf, dialed.made)
    }

    method Send(data: seq<byte>) returns (r: Option<Written>)
      requires Valid()
      modifies this, dialed
      ensures Valid() && SendEffect(dialed.script, data, r, old(Now()), Now())
    {
      hide FramesOf, Frame, Attempted;
      if conn == null {
        return None;
      }
      var c := conn;
      var _ := c.SetWriteDeadline();
      var writer := new ResumingWriter(c, HEADER_SIZE + |data|);
      var w := WriteFrame(writer, data);
      if w.error.None? {
        AllOut(c.script, old(c.made), c.made, data, w);
        OneMoreFrame(delivered, data);
        delivered := delivered + [data];
        return Some(w);
      }
      if w.count == 0 {
        return Some(w);
      }
      tail, tailOf := Frame(data)[..w.count], data;
      conn := null;
      c.Close();
      return Some(w);
    }

    // The process lets go of its connection when the host hangs up.
    method HangUp()
      requires Valid()
      modifies this, dialed
      ensures Valid() && Now() == old(Now()).(connected := false)
    {
      if conn != null {
        var c := conn;
        conn := null;
        c.Close();
      }
    }
  }

  // Without an error all of the frame is out.
  lemma AllOut(script: seq<WriteOutcome>, from: nat, to: nat, data: seq<byte>, w: Written)
    requires Fits(data) ==> Attempted(script, from, to, |Frame(data)|, w)
    requires w.error.None? && Fits(data)
    ensures w.count == |Frame(data)| && Frame(data)[..w.count] == Frame(data)
  {
  }

  // A frame goes on after a write without fault and after a timeout that can be waited out: with part of
  // the frame out, its header or its payload still short, and a new deadline granted. It stops at any
  // other.
  lemma {:induction false} WhereAFrameGoesOn(script: seq<WriteOutcome>, from: nat, to: nat, len: nat,
                                             w: Written, i: nat)
    requires 4 <= len && Attempted(script, from, to, len, w) && 0 < i <= to - from
    ensures var fault, was, now := OutcomeAt(script, from + i - 1).fault, Position(script, from, i - 1, len),
                                   Position(script, from, i, len);
            var goesOn := fault == NoFault ||
                          (fault == Timeout(true) && 0 < now && now < if was < 4 then 4 else len);
            && (i < to - from ==> goesOn)
            && (i == to - from && (w.error == Some(Stalled) || w.error == Some(Failed)) ==> !goesOn)
    ensures Position(script, from, 0, len) == 0
    ensures var taken, was := OutcomeAt(script, from + i - 1).taken, Position(script, from, i - 1, len);
            var offered := (if was < 4 then 4 else len) - was;
            Position(script, from, i, len) == was + if taken < offered then taken else offered
    ensures OutcomeAt(script, from + i - 1) ==
            if from + i <= |script| then script[from + i - 1] else WriteOutcome(0, Hard)
  {
    assert i < to - from ==> GoesOn(script, from, i, len);
  }

  // A stall is given up only with nothing of the frame out, at the end of its header or of the frame, or
  // without a new deadline.
  lemma {:induction false} StallsAreWaitedOut(script: seq<WriteOutcome>, from: nat, to: nat, len: nat, w: Written)
    requires 4 <= len && Attempted(script, from, to, len, w) && w.error == Some(Stalled)
    ensures w.count == 0 || w.count == 4 || w.count == len || script[to - 1].fault == Timeout(false)
  {
    WhereAFrameGoesOn(script, from, to, len, w, to - from);
  }

  // A write without fault that took something is the last one only of a frame that is out.
  lemma NoReasonToStop(script: seq<WriteOutcome>, from: nat, to: nat, len: nat, w: Written)
    requires HEADER_SIZE <= len && Attempted(script, from, to, len, w)
    requires OutcomeAt(script, to - 1).fault == NoFault && OutcomeAt(script, to - 1).taken > 0
    ensures w == Written(len, None)
  {
    if w.error.Some? {
      match w.error.value
      case Stalled => assert false;
      case Failed => assert false;
      case ShortWrite => assert false;
      case Oversized => assert false;
    }
  }

  lemma NothingAfterTheEnd(script: seq<WriteOutcome>, from: nat, to: nat, len: nat, w: Written, n: nat)
    requires HEADER_SIZE <= len && Attempted(script, from, to, len, w) && Position(script, from, n, len) == len
    ensures to <= from + n
  {
  }

  predicate TakesAll(script: seq<WriteOutcome>, i: nat, len: nat) {
    OutcomeAt(script, i).fault == NoFault && OutcomeAt(script, i).taken >= len
  }

  // A connection that takes what it is given sends the frame.
  lemma {:induction false} CleanConnectionSends(script: seq<WriteOutcome>, data: seq<byte>, w: Written, was: Books,
                                                now: Books)
    requires was.connected && Fits(data) && SendEffect(script, data, Some(w), was, now)
    requires TakesAll(script, was.made, |Frame(data)|) && TakesAll(script, was.made + 1, |Frame(data)|)
    ensures w.error.None? && now.delivered == was.delivered + [data]
  {
    var len := |Frame(data)|;
    TwoWrites(script, was.made, len);
    NothingAfterTheEnd(script, was.made, now.made, len, w, if len == HEADER_SIZE then 1 else 2);
    NoReasonToStop(script, was.made, now.made, len, w);
  }

  lemma TwoWrites(script: seq<WriteOutcome>, from: nat, len: nat)
    requires HEADER_SIZE <= len
    ensures var p := Min(OutcomeAt(script, from).taken, HEADER_SIZE);
            && Position(script, from, 1, len) == p
            && Position(script, from, 2, len) == p + Min(OutcomeAt(script, from + 1).taken, PartEnd(p, len) - p)
  {
    assert Position(script, from, 0, len) == 0;
  }

  // A frame may get out whole in a send that failed: its last write takes all and reports a timeout.
  lemma {:induction false} WholeFrameMayFail(script: seq<WriteOutcome>, data: seq<byte>, w: Written, now: Books)
    requires script == [WriteOutcome(4, NoFault), WriteOutcome(1, Timeout(true))] && data == [7]
    requires SendEffect(script, data, Some(w), Books(true, [], [], [], 0), now)
    ensures w == Written(5, Some(Stalled)) && now == Books(false, [], Frame(data), data, 2)
    ensures DecodeAll(FramesOf(now.delivered) + now.tail) == Decoded([data], [])
  {
    TwoWrites(script, 0, 5);
    NothingAfterTheEnd(script, 0, now.made, 5, w, 2);
    if now.made == 1 {
      NoReasonToStop(script, 0, 1, 5, w);
    }
    assert Frame(data)[..5] == Frame(data);
    WireReadsBack([], Frame(data), data);
  }

  // ---- runs of sends --------------------------------------------------------------------------

  // What the peer decodes from the wire: the delivered payloads, in order, and then either one
  // frame of a failed send that got out whole, or a truncated one that never reads as a frame.
  lemma {:induction false} WireReadsBack(delivered: seq<seq<byte>>, tail: seq<byte>, tailOf: seq<byte>)
    requires AllFit(delivered) && Fits(tailOf) && tail <= Frame(tailOf)
    ensures DecodeAll(FramesOf(delivered) + tail) ==
            if tail == Frame(tailOf) then Decoded(delivered + [tailOf], []) else Decoded(delivered, tail)
  {
    FramesDecode(delivered, tail);
    if tail == Frame(tailOf) {
      FrameReadsBack(tailOf, []);
      assert tail + [] == tail;
    } else {
      CutFrameIsEndOfStream(tailOf, |tail|);
      assert tail == Frame(tailOf)[..|tail|];
    }
  }

  datatype Call = SendCall(data: seq<byte>) | HangUpCall

  ghost predicate CallEffect(script: seq<WriteOutcome>, call: Call, r: Option<Written>, was: Books, now: Books) {
    match call
    case SendCall(data) => SendEffect(script, data, r, was, now)
    case HangUpCall => r.None? && now == was.(connected := false)
  }

  // The books before each call and at the end.
  ghost predicate IsRun(script: seq<WriteOutcome>, calls: seq<Call>, results: seq<Option<Written>>, books: seq<Books>) {
    && |results| == |calls| && |books| == |calls| + 1
    && forall i :: 0 <= i < |calls| ==> CallEffect(script, calls[i], results[i], books[i], books[i + 1])
  }

  predicate SentWhole(call: Call, r: Option<Written>) { call.SendCall? && r.Some? && r.value.error.None? }

  predicate BrokeOff(call: Call, r: Option<Written>) {
    call.SendCall? && r.Some? && r.value.error.Some? && r.value.count > 0
  }

  // The payloads of the sends that reported no error.
  ghost function SentOnes(calls: seq<Call>, results: seq<Option<Written>>): seq<seq<byte>>
    requires |calls| == |results|
  {
    if calls == [] then [] else
      var last := |calls| - 1;
      SentOnes(calls[..last], results[..last]) +
      if SentWhole(calls[last], results[last]) then [calls[last].data] else []
  }

  // A call after which there is no connection.
  predicate Ends(call: Call, r: Option<Written>) { BrokeOff(call, r) || call.HangUpCall? }

  ghost predicate EndedBefore(calls: seq<Call>, results: seq<Option<Written>>, j: nat)
    requires j <= |calls| == |results|
  {
    exists i :: 0 <= i < j && Ends(calls[i], results[i])
  }

  // A send has a connection exactly if no call before it ended it, and so has the server afterwards.
  ghost predicate EndsHold(calls: seq<Call>, results: seq<Option<Written>>, b: Books)
    requires |results| == |calls|
  {
    && (forall j :: 0 <= j < |calls| && calls[j].SendCall? ==> (results[j].None? <==> EndedBefore(calls, results, j)))
    && (b.connected <==> !EndedBefore(calls, results, |calls|))
  }

  // A tail is the start of the frame that broke off.
  ghost predicate TailHolds(calls: seq<Call>, results: seq<Option<Written>>, b: Books)
    requires |results| == |calls|
  {
    && ((forall i :: 0 <= i < |calls| ==> !BrokeOff(calls[i], results[i])) ==> b.tail == [])
    && (forall i :: 0 <= i < |calls| && BrokeOff(calls[i], results[i]) ==>
          && Fits(calls[i].data) && 0 < results[i].value.count <= |Frame(calls[i].data)|
          && b.tailOf == calls[i].data && b.tail == Frame(calls[i].data)[..results[i].value.count])
  }

  // What was sent without error is delivered, in order.
  ghost predicate RunSound(calls: seq<Call>, results: seq<Option<Written>>, b: Books) {
    && |results| == |calls| && b.delivered == SentOnes(calls, results)
    && EndsHold(calls, results, b) && TailHolds(calls, results, b)
  }

  lemma {:induction false} RunSoundStep(script: seq<WriteOutcome>, calls: seq<Call>, results: seq<Option<Written>>,
                                        call: Call, r: Option<Written>, was: Books, now: Books)
    requires RunSound(calls, results, was) && CallEffect(script, call, r, was, now)
    ensures RunSound(calls + [call], results + [r], now)
  {
    hide Frame, Attempted, TailHolds, EndsHold;
    EndsStep(script, calls, results, call, r, was, now);
    TailStep(script, calls, results, call, r, was, now);
    assert (calls + [call])[..|calls|] == calls && (results + [r])[..|calls|] == results;
  }

  lemma {:induction false} EndsStep(script: seq<WriteOutcome>, calls: seq<Call>, results: seq<Option<Written>>,
                                    call: Call, r: Option<Written>, was: Books, now: Books)
    requires |results| == |calls| && EndsHold(calls, results, was) && CallEffect(script, call, r, was, now)
    ensures EndsHold(calls + [call], results + [r], now)
  {
    hide Frame, Attempted;
    var more, given := calls + [call], results + [r];
    assert more[|calls|] == call && given[|calls|] == r;
    forall j: nat | j <= |calls|
      ensures EndedBefore(more, given, j) <==> EndedBefore(calls, results, j)
    {
      assert forall i :: 0 <= i < j ==> more[i] == calls[i] && given[i] == results[i];
      if i :| 0 <= i < j && Ends(calls[i], results[i]) {
        assert Ends(more[i], given[i]);
      }
    }
    EndedAtLast(more, given, |calls|);
  }

  lemma EndedAtLast(calls: seq<Call>, results: seq<Option<Written>>, j: nat)
    requires j < |calls| == |results|
    ensures EndedBefore(calls, results, j + 1) <==> EndedBefore(calls, results, j) || Ends(calls[j], results[j])
  {
  }

  lemma {:induction false} TailStep(script: seq<WriteOutcome>, calls: seq<Call>, results: seq<Option<Written>>,
                                    call: Call, r: Option<Written>, was: Books, now: Books)
    requires |results| == |calls| && TailHolds(calls, results, was) && EndsHold(calls, results, was)
    requires CallEffect(script, call, r, was, now)
    ensures TailHolds(calls + [call], results + [r], now)
  {
    hide Frame, Attempted;
    var more, given := calls + [call], results + [r];
    assert forall i :: 0 <= i < |calls| ==> more[i] == calls[i] && given[i] == results[i];
    if forall i :: 0 <= i < |more| ==> !BrokeOff(more[i], given[i]) {
      assert forall i :: 0 <= i < |calls| ==> BrokeOff(calls[i], results[i]) == BrokeOff(more[i], given[i]);
      assert !BrokeOff(more[|calls|], given[|calls|]);
    }
  }

  lemma {:induction false} RunIsSound(script: seq<WriteOutcome>, calls: seq<Call>, results: seq<Option<Written>>,
                                      books: seq<Books>)
    requires IsRun(script, calls, results, books)
    requires books[0].connected && books[0].delivered == [] && books[0].tail == []
    ensures RunSound(calls, results, books[|calls|])
    decreases |calls|
  {
    if calls != [] {
      var last := |calls| - 1;
      RunIsSound(script, calls[..last], results[..last], books[..last + 1]);
      hide RunSound, CallEffect;
      RunSoundStep(script, calls[..last], results[..last], calls[last], results[last], books[last], books[last + 1]);
      assert calls[..last] + [calls[last]] == calls && results[..last] + [results[last]] == results;
    }
  }

  // Any run of sends and hang-ups is one by its books, and the peer decodes just what they say.
  method Run(server: Server, calls: seq<Call>) returns (results: seq<Option<Written>>, ghost books: seq<Books>)
    requires server.Valid() && server.conn != null && server.delivered == []  // so there is no tail
    modifies server, server.dialed
    ensures server.Valid() && IsRun(server.dialed.script, calls, results, books)
    ensures books[0] == old(server.Now()) && books[|calls|] == server.Now()
    ensures DecodeAll(server.dialed.wire) ==
            if server.tail == Frame(server.tailOf) then Decoded(server.delivered + [server.tailOf], [])
            else Decoded(server.delivered, server.tail)
  {
    results, books := [], [server.Now()];
    for k := 0 to |calls|
      invariant server.Valid() && |books| == k + 1 && books[0] == old(server.Now()) && books[k] == server.Now()
      invariant IsRun(server.dialed.script, calls[..k], results, books)
    {
      hide Frame, FramesOf, CallEffect;
      var r := None;
      match calls[k] {
        case SendCall(data) => r := server.Send(data);
        case HangUpCall => server.HangUp();
      }
      assert CallEffect(server.dialed.script, calls[k], r, books[k], server.Now());
      results, books := results + [r], books + [server.Now()];
    }
    assert calls[..|calls|] == calls;
    WireReadsBack(server.delivered, server.tail, server.tailOf);
  }
}
