/** Reading a probe's body in chunks, scanned for a match in windows that overlap. */
module ProbeScan {
  import opened Frames

  const SCAN_CHUNK := 32 * 1024
  const SCAN_OVERLAP := 256

  // Some window of the text, at most one byte longer than the overlap, is what is looked for.
  ghost predicate HasMatch(text: seq<byte>, wanted: seq<byte> -> bool) {
    exists i, j :: IsMatch(text, wanted, i, j)
  }

  ghost predicate IsMatch(text: seq<byte>, wanted: seq<byte> -> bool, i: int, j: int) {
    0 <= i <= j <= |text| && j - i <= SCAN_OVERLAP + 1 && wanted(text[i..j])
  }

  // Windows of up to 257 bytes are looked at, and no longer ones.
  lemma WindowsLookedAt(text: seq<byte>, wanted: seq<byte> -> bool)
    ensures HasMatch(text, wanted) <==>
            exists i, j :: 0 <= i <= j <= |text| && j - i <= 257 && wanted(text[i..j])
  {
    if HasMatch(text, wanted) {
      var i, j :| IsMatch(text, wanted, i, j);
      assert wanted(text[i..j]);
    }
    if i, j :| 0 <= i <= j <= |text| && j - i <= 257 && wanted(text[i..j]) {
      assert IsMatch(text, wanted, i, j);
    }
  }

  // What `until` sees once a chunk is in: the chunk and the overlap before it.
  function TailFrom(before: nat): nat {
    if before > SCAN_OVERLAP then before - SCAN_OVERLAP else 0
  }

  // A text without a match has one after a chunk exactly if the tail has one.
  lemma {:induction false} TailShowsAnyNewMatch(before: seq<byte>, chunk: seq<byte>, wanted: seq<byte> -> bool)
    requires chunk != [] && (before == [] || !HasMatch(before, wanted))
    ensures HasMatch(before + chunk, wanted) <==> HasMatch((before + chunk)[TailFrom(|before|)..], wanted)
  {
    var whole, start := before + chunk, TailFrom(|before|);
    if before == [] {
      assert whole[start..] == whole;
      return;
    }
    if HasMatch(whole, wanted) {
      var i, j :| IsMatch(whole, wanted, i, j);
      if j <= |before| {
        MatchBeforeTheChunk(before, chunk, wanted, i, j);
      } else {
        WindowShifts(whole, start, wanted, i - start, j - start);
      }
    }
    if HasMatch(whole[start..], wanted) {
      var i, j :| IsMatch(whole[start..], wanted, i, j);
      WindowShifts(whole, start, wanted, i, j);
    }
  }

  lemma MatchBeforeTheChunk(before: seq<byte>, chunk: seq<byte>, wanted: seq<byte> -> bool, i: int, j: int)
    requires IsMatch(before + chunk, wanted, i, j) && j <= |before|
    ensures HasMatch(before, wanted)
  {
    assert before[i..j] == (before + chunk)[i..j];
    assert IsMatch(before, wanted, i, j);
  }

  lemma WindowShifts(whole: seq<byte>, start: nat, wanted: seq<byte> -> bool, i: int, j: int)
    requires start <= |whole| && 0 <= i <= j <= |whole| - start
    ensures IsMatch(whole[start..], wanted, i, j) <==> IsMatch(whole, wanted, start + i, start + j)
  {
    assert whole[start..][i..j] == whole[start + i..start + j];
  }

  // What one read of the body does: how much it gives, and whether it reports an end or an error.
  datatype ReadOutcome = ReadOutcome(given: nat, ends: bool)

  function Min(a: nat, b: nat): nat { if a < b then a else b }

  // A body read no further than a limit, a chunk at a time, by an arbitrary finite script of reads.
  class LimitedReader {
    const body: seq<byte>
    const limit: nat
    const script: seq<ReadOutcome>
    var made: nat

    constructor (body: seq<byte>, limit: nat, script: seq<ReadOutcome>)
      ensures this.body == body && this.limit == limit && this.script == script && made == 0
    {
      this.body, this.limit, this.script, made := body, limit, script, 0;
    }

    // How far the first n reads get.
    function At(n: nat): (at: nat)
      requires n <= |script|
      ensures at <= |body| && at <= limit
    {
      if n == 0 then 0 else
      var before := At(n - 1);
      before + Min(Min(script[n - 1].given, SCAN_CHUNK), Min(limit - before, |body| - before))
    }

    // At the limit, and past the script, a read gives nothing and ends.
    method Read() returns (chunk: seq<byte>, end: bool)
      requires made <= |script|
      modifies `made
      ensures if old(made) == |script| || At(old(made)) == limit then end && made == old(made)
              else made == old(made) + 1 && end == script[old(made)].ends
      ensures At(old(made)) <= At(made) && chunk == body[At(old(made))..At(made)] && |chunk| <= 32 * 1024
    {
      if made == |script| || At(made) == limit {
        return [], true;
      }
      made := made + 1;
      return body[At(made - 1)..At(made)], script[made - 1].ends;
    }
  }

  // Each read gets all it may: what the body gives at once, a chunk, or what is left up to the limit.
  lemma ReadsGetAllTheyMay(reader: LimitedReader, n: nat)
    requires 0 < n <= |reader.script|
    ensures reader.At(0) == 0
    ensures var more := reader.At(n) - reader.At(n - 1);
            && 0 <= more <= reader.script[n - 1].given && more <= 32 * 1024
            && reader.At(n) <= reader.limit && reader.At(n) <= |reader.body|
            && (|| more == reader.script[n - 1].given || more == 32 * 1024
                || reader.At(n) == reader.limit || reader.At(n) == |reader.body|)
  {
    assert reader.At(0) == 0;
  }

  // Stops at the first read after which all that was read has a match, if any does, and else only
  // where the reading ends.
  method ReadProbeBody(reader: LimitedReader, until: seq<byte> -> bool, ghost wanted: seq<byte> -> bool)
      returns (buffer: seq<byte>, found: bool)
    requires reader.made == 0
    requires forall tail :: until(tail) <==> HasMatch(tail, wanted)
    modifies reader
    ensures reader.made <= |reader.script| && buffer == reader.body[..reader.At(reader.made)]
    ensures forall k :: 0 <= k < reader.made - 1 ==> !reader.script[k].ends
    ensures forall k :: 0 < k < reader.made && reader.At(k) > 0 ==> !HasMatch(reader.body[..reader.At(k)], wanted)
    ensures found <==> buffer != [] && HasMatch(buffer, wanted)
    ensures found ==> reader.made > 0 && reader.At(reader.made - 1) < |buffer|
    ensures !found ==>
              || (reader.made > 0 && reader.script[reader.made - 1].ends)
              || reader.made == |reader.script| || reader.At(reader.made) == reader.limit
  {
    buffer := [];
    assert reader.At(0) == 0;
    hide LimitedReader.At, HasMatch;
    while true
      invariant reader.made <= |reader.script| && buffer == reader.body[..reader.At(reader.made)]
      invariant forall k :: 0 <= k < reader.made ==> !reader.script[k].ends
      invariant forall k :: 0 < k <= reader.made && reader.At(k) > 0 ==> !HasMatch(reader.body[..reader.At(k)], wanted)
      invariant buffer == [] || !HasMatch(buffer, wanted)
      decreases |reader.script| - reader.made
    {
      var chunk, end := reader.Read();
      if |chunk| > 0 {
        var start := TailFrom(|buffer|);
        TailShowsAnyNewMatch(buffer, chunk, wanted);
        buffer := buffer + chunk;
        if until(buffer[start..]) {
          return buffer, true;
        }
      }
      assert buffer == reader.body[..reader.At(reader.made)];
      if end {
        return buffer, false;
      }
    }
  }
}
