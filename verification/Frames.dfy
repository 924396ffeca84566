/** The frame layout both ends of the IPC stream share: a little-endian length, then the payload. */
module Frames {
  newtype byte = x: int | 0 <= x < 256

  const MAX_FRAME_SIZE := 64 * 1024 * 1024
  const HEADER_SIZE := 4

  function LittleEndian(n: nat): (b: seq<byte>)
    requires n < 0x1_0000_0000
    ensures |b| == HEADER_SIZE
  {
    [(n % 256) as byte, (n / 256 % 256) as byte, (n / 0x1_0000 % 256) as byte, (n / 0x100_0000) as byte]
  }

  function FromLittleEndian(b: seq<byte>): (n: nat)
    requires |b| == HEADER_SIZE
    ensures n < 0x1_0000_0000
  {
    b[0] as int + 256 * b[1] as int + 0x1_0000 * b[2] as int + 0x100_0000 * b[3] as int
  }

  lemma {:induction false} LengthRoundTrip(n: nat)
    requires n < 0x1_0000_0000
    ensures FromLittleEndian(LittleEndian(n)) == n
  {
    var q := n / 256;
    assert n / 0x1_0000 == q / 256 && n / 0x100_0000 == q / 256 / 256;
  }

  // The low byte comes first.
  lemma {:induction false} LowByteFirst(n: nat)
    requires n < 0x1_0000_0000
    ensures var b := LittleEndian(n);
            n == b[0] as int + 256 * b[1] as int + 65536 * b[2] as int + 16777216 * b[3] as int
  {
    LengthRoundTrip(n);
    hide LittleEndian;
  }

  lemma LowByte(low: byte, high: nat)
    ensures (low as int + 256 * high) % 256 == low as int && (low as int + 256 * high) / 256 == high
  {
  }

  lemma {:induction false} LengthBytes(b: seq<byte>)
    requires |b| == HEADER_SIZE
    ensures LittleEndian(FromLittleEndian(b)) == b
  {
    var top := b[3] as int;
    var upper := b[2] as int + 256 * top;
    var most := b[1] as int + 256 * upper;
    var n := b[0] as int + 256 * most;
    assert FromLittleEndian(b) == n by {
      hide LittleEndian;
    }
    LowByte(b[0], most);
    LowByte(b[1], upper);
    LowByte(b[2], top);
    Quarters(n);
    hide FromLittleEndian;
  }

  lemma Quarters(n: nat)
    ensures n / 0x1_0000 == n / 256 / 256 && n / 0x100_0000 == n / 256 / 256 / 256
  {
  }

  predicate Fits(payload: seq<byte>) { |payload| <= MAX_FRAME_SIZE }

  function Frame(payload: seq<byte>): (frame: seq<byte>)
    requires Fits(payload)
    ensures |frame| == HEADER_SIZE + |payload|
  {
    LittleEndian(|payload|) + payload
  }

  predicate AllFit(payloads: seq<seq<byte>>) { forall p :: p in payloads ==> Fits(p) }

  // Whole frames, one after another.
  function FramesOf(payloads: seq<seq<byte>>): (bytes: seq<byte>)
    requires AllFit(payloads)
  {
    if payloads == [] then [] else Frame(payloads[0]) + FramesOf(payloads[1..])
  }

  lemma FramesOfAppend(payloads: seq<seq<byte>>, more: seq<seq<byte>>)
    requires AllFit(payloads) && AllFit(more)
    ensures AllFit(payloads + more) && FramesOf(payloads + more) == FramesOf(payloads) + FramesOf(more)
  {
    hide Frame;
    if payloads == [] {
      assert payloads + more == more;
    } else {
      FramesOfAppend(payloads[1..], more);
      assert (payloads + more)[1..] == payloads[1..] + more;
      assert Frame(payloads[0]) + FramesOf(payloads[1..]) + FramesOf(more) ==
             Frame(payloads[0]) + (FramesOf(payloads[1..]) + FramesOf(more));
    }
  }

  lemma OneMoreFrame(payloads: seq<seq<byte>>, payload: seq<byte>)
    requires AllFit(payloads) && Fits(payload)
    ensures AllFit(payloads + [payload]) && FramesOf(payloads + [payload]) == FramesOf(payloads) + Frame(payload)
  {
    FramesOfAppend(payloads, [payload]);
    assert FramesOf([payload]) == Frame(payload) + FramesOf([]) == Frame(payload);
  }

  // A payload of up to 64 MiB fits; its frame is four bytes of length and the payload.
  lemma FrameLayout(payload: seq<byte>)
    ensures Fits(payload) <==> |payload| <= 67108864
    ensures Fits(payload) ==>
              && |Frame(payload)| == 4 + |payload| && Frame(payload)[4..] == payload
              && Frame(payload)[..4] == LittleEndian(|payload|)
  {
  }

  // ---- the host's encoder and both readers ----------------------------------------------------

  datatype Error = EndOfStream | TooLarge
  datatype Result<+T> = Ok(value: T) | Err(error: Error)

  method Encode(payload: seq<byte>) returns (r: Result<seq<byte>>)
    ensures r == if Fits(payload) then Ok(Frame(payload)) else Err(TooLarge)
  {
    if |payload| > MAX_FRAME_SIZE {
      return Err(TooLarge);
    }
    var frame: seq<byte> := LittleEndian(|payload|);
    frame := frame + payload;
    return Ok(frame);
  }

  // What one frame read makes of the bytes ahead of it: the payload, and what is left over.
  datatype Parsed = Payload(payload: seq<byte>, rest: seq<byte>) | Refused(error: Error)

  function Parse(bytes: seq<byte>): (r: Parsed)
    ensures r.Payload? ==> |r.rest| < |bytes|
  {
    if |bytes| < HEADER_SIZE then Refused(EndOfStream) else
    var len := FromLittleEndian(bytes[..HEADER_SIZE]);
    if len > MAX_FRAME_SIZE then Refused(TooLarge)
    else if |bytes| < HEADER_SIZE + len then Refused(EndOfStream)
    else Payload(bytes[HEADER_SIZE..HEADER_SIZE + len], bytes[HEADER_SIZE + len..])
  }

  class Reader {
    var ahead: seq<byte>

    constructor (bytes: seq<byte>)
      ensures ahead == bytes
    {
      ahead := bytes;
    }

    // Fills a buffer of n bytes or reports the end of the stream.
    method ReadExact(n: nat) returns (r: Result<seq<byte>>)
      modifies this
      ensures n <= |old(ahead)| ==> r == Ok(old(ahead)[..n]) && ahead == old(ahead)[n..]
      ensures n > |old(ahead)| ==> r == Err(EndOfStream) && ahead == []
    {
      if n > |ahead| {
        ahead := [];
        return Err(EndOfStream);
      }
      r := Ok(ahead[..n]);
      ahead := ahead[n..];
    }

    method ReadFrame() returns (r: Result<seq<byte>>)
      modifies this
      ensures match Parse(old(ahead))
              case Payload(payload, rest) => r == Ok(payload) && ahead == rest
              case Refused(error) => r == Err(error)
    {
      var header := ReadExact(HEADER_SIZE);
      if header.Err? {
        return header;
      }
      var len := FromLittleEndian(header.value);
      if len > MAX_FRAME_SIZE {
        return Err(TooLarge);
      }
      assert len <= |ahead| ==> ahead[..len] == old(ahead)[HEADER_SIZE..HEADER_SIZE + len];
      assert len <= |ahead| ==> ahead[len..] == old(ahead)[HEADER_SIZE + len..];
      r := ReadExact(len);
    }
  }

  // ---- round trips ----------------------------------------------------------------------------

  // A frame ahead of anything reads back as its payload and leaves the rest.
  lemma {:induction false} FrameReadsBack(payload: seq<byte>, rest: seq<byte>)
    requires Fits(payload)
    ensures Parse(Frame(payload) + rest) == Payload(payload, rest)
  {
    LengthRoundTrip(|payload|);
    var bytes := Frame(payload) + rest;
    assert bytes[..HEADER_SIZE] == LittleEndian(|payload|);
    assert bytes[HEADER_SIZE..HEADER_SIZE + |payload|] == payload;
    assert bytes[HEADER_SIZE + |payload|..] == rest;
  }

  // What reads as a payload is its frame with the rest behind it.
  lemma {:induction false} ParsedIsAFrame(bytes: seq<byte>)
    requires Parse(bytes).Payload?
    ensures Fits(Parse(bytes).payload) && bytes == Frame(Parse(bytes).payload) + Parse(bytes).rest
  {
    var header := bytes[..HEADER_SIZE];
    LengthBytes(header);
    assert bytes == header + bytes[HEADER_SIZE..];
  }

  // A length above 64 MiB is refused whatever follows; a header or a payload that is not all there reads
  // as the end of the stream.
  lemma ReadsRefuse(bytes: seq<byte>)
    ensures |bytes| < 4 ==> Parse(bytes) == Refused(EndOfStream)
    ensures |bytes| >= 4 ==>
              var len := bytes[0] as int + 256 * bytes[1] as int + 65536 * bytes[2] as int + 16777216 * bytes[3] as int;
              && (len > 67108864 <==> Parse(bytes) == Refused(TooLarge))
              && (len <= 67108864 && |bytes| < 4 + len <==> Parse(bytes) == Refused(EndOfStream))
  {
  }

  // A frame cut short reads as the end of the stream, never as another frame.
  lemma {:induction false} CutFrameIsEndOfStream(payload: seq<byte>, n: nat)
    requires Fits(payload) && n < |Frame(payload)|
    ensures Parse(Frame(payload)[..n]) == Refused(EndOfStream)
  {
    LengthRoundTrip(|payload|);
    if n >= HEADER_SIZE {
      assert Frame(payload)[..n][..HEADER_SIZE] == LittleEndian(|payload|);
    }
  }

  // Everything a reader gets out of a stream before the first read that fails.
  datatype Decoded = Decoded(payloads: seq<seq<byte>>, rest: seq<byte>)

  function DecodeAll(bytes: seq<byte>): (r: Decoded)
    decreases |bytes|
  {
    match Parse(bytes)
    case Refused(_) => Decoded([], bytes)
    case Payload(payload, rest) =>
      var more := DecodeAll(rest);
      Decoded([payload] + more.payloads, more.rest)
  }

  // Whole frames decode to their payloads, whatever follows them.
  lemma {:induction false} FramesDecode(payloads: seq<seq<byte>>, tail: seq<byte>)
    requires AllFit(payloads)
    ensures DecodeAll(FramesOf(payloads) + tail) ==
            Decoded(payloads + DecodeAll(tail).payloads, DecodeAll(tail).rest)
  {
    hide Frame, Parse;
    if payloads == [] {
      assert FramesOf(payloads) + tail == tail;
    } else {
      var rest := FramesOf(payloads[1..]) + tail;
      FrameReadsBack(payloads[0], rest);
      assert FramesOf(payloads) + tail == Frame(payloads[0]) + rest;
      FramesDecode(payloads[1..], tail);
      assert payloads == [payloads[0]] + payloads[1..];
    }
  }

  // The receive loop of either end: frames are taken until a read fails.
  method ReceiveAll(reader: Reader) returns (payloads: seq<seq<byte>>, error: Error)
    modifies reader
    ensures payloads == DecodeAll(old(reader.ahead)).payloads
    ensures Parse(DecodeAll(old(reader.ahead)).rest) == Refused(error)
  {
    payloads := [];
    while true
      invariant payloads + DecodeAll(reader.ahead).payloads == DecodeAll(old(reader.ahead)).payloads
      invariant DecodeAll(reader.ahead).rest == DecodeAll(old(reader.ahead)).rest
      decreases |reader.ahead|
    {
      var r := reader.ReadFrame();
      if r.Err? {
        return payloads, r.error;
      }
      payloads := payloads + [r.value];
    }
  }
}
