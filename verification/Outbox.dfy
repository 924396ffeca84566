/** The queue between those who push frames and the writer of the current session, bounded in bytes. */
module Outbox {
  import opened Options
  import opened Frames

  const MAX_PENDING_BYTES := 16 * 1024 * 1024

  function TotalBytes(frames: seq<seq<byte>>): nat {
    if frames == [] then 0 else |frames[0]| + TotalBytes(frames[1..])
  }

  lemma TotalBytesAppend(frames: seq<seq<byte>>, frame: seq<byte>)
    ensures TotalBytes(frames + [frame]) == TotalBytes(frames) + |frame|
  {
    if frames != [] {
      assert (frames + [frame])[1..] == frames[1..] + [frame];
    }
  }

  datatype Queue = Queue(frames: seq<seq<byte>>, bytes: nat, open: bool) {
    ghost predicate Valid() { bytes == TotalBytes(frames) && (!open ==> frames == []) }

    // The budget binds only while something is queued.
    predicate Takes(frame: seq<byte>) {
      open && (bytes == 0 || bytes + |frame| <= MAX_PENDING_BYTES)
    }

    function With(frame: seq<byte>): Queue { Queue(frames + [frame], bytes + |frame|, open) }
  }

  const CLOSED := Queue([], 0, false)
  const OPENED := Queue([], 0, true)

  datatype PushResult = Pushed | NotConnected | WouldBlock

  class Outbox {
    var queue: Queue
    var permit: bool  // a wakeup the writer has not consumed yet

    constructor ()
      ensures queue == CLOSED && !permit
    {
      queue, permit := CLOSED, false;
    }

    method Open()
      modifies `queue
      ensures queue == OPENED && queue.Valid() && queue.open && queue.frames == [] && queue.bytes == 0
    {
      queue := OPENED;
    }

    // Whatever is still queued goes with the session.
    method Close()
      modifies `queue
      ensures queue == CLOSED && queue.Valid() && !queue.open && queue.frames == []
    {
      queue := CLOSED;
    }

    method Push(frame: seq<byte>) returns (r: PushResult)
      requires queue.Valid()
      modifies this
      ensures queue.Valid()
      ensures r == if !old(queue).open then NotConnected else if old(queue).Takes(frame) then Pushed else WouldBlock
      ensures old(queue).open ==>
                (r.Pushed? <==> old(queue).bytes == 0 || old(queue).bytes + |frame| <= 16 * 1024 * 1024)
      ensures r.Pushed? ==> queue == old(queue).With(frame) && permit
      ensures r.Pushed? ==>
                && queue.frames == old(queue).frames + [frame] && queue.bytes == old(queue).bytes + |frame|
                && queue.open && permit
      ensures !r.Pushed? ==> queue == old(queue) && permit == old(permit)
    {
      if !queue.open {
        return NotConnected;
      }
      if queue.bytes > 0 && queue.bytes + |frame| > MAX_PENDING_BYTES {
        return WouldBlock;
      }
      TotalBytesAppend(queue.frames, frame);
      queue := queue.(bytes := queue.bytes + |frame|);
      queue := queue.(frames := queue.frames + [frame]);
      permit := true;
      return Pushed;
    }

    method Pop() returns (r: Option<seq<byte>>)
      requires queue.Valid()
      modifies `queue
      ensures queue.Valid()
      ensures r.None? ==> old(queue.frames) == [] && queue == old(queue)
      ensures r.Some? ==> old(queue.frames) == [r.value] + queue.frames && queue.open == old(queue.open)
    {
      if queue.frames == [] {
        return None;
      }
      var frame := queue.frames[0];
      queue := queue.(frames := queue.frames[1..]);
      queue := queue.(bytes := queue.bytes - |frame|);
      return Some(frame);
    }
  }
}
