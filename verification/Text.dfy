/** A document as the editor sees it: a sequence of characters broken into lines at LF alone. */
module Text {
  // The line a character offset lies on: the number of line breaks before it.
  function LineOf(text: string, p: nat): (k: nat)
    requires p <= |text|
  {
    if p == 0 then 0 else LineOf(text, p - 1) + (if text[p - 1] == '\n' then 1 else 0)
  }

  // The offset just past the line that goes on at p.
  function LineEnd(text: string, p: nat): (e: nat)
    requires p <= |text|
    ensures p <= e <= |text|
    ensures p < |text| ==> p < e
    ensures forall i :: p <= i < e - 1 ==> text[i] != '\n'
    ensures e < |text| ==> p < e && text[e - 1] == '\n'
    decreases |text| - p
  {
    if p == |text| then p else if text[p] == '\n' then p + 1 else LineEnd(text, p + 1)
  }

  // The offset a line starts at; past the last line, the end of the text.
  function LineStart(text: string, k: nat): (p: nat)
    ensures p <= |text|
  {
    if k == 0 then 0 else LineEnd(text, LineStart(text, k - 1))
  }

  // A line with its break, if it has one.
  function LineAt(text: string, k: nat): (line: string)
  {
    text[LineStart(text, k)..LineStart(text, k + 1)]
  }

  // A text has one line more than it has line breaks.
  function LineCount(text: string): (n: nat)
  {
    LineOf(text, |text|) + 1
  }

  lemma LineOfMonotone(text: string, p: nat, q: nat)
    requires p <= q <= |text|
    ensures LineOf(text, p) <= LineOf(text, q)
  {
  }

  // Without a line break in between, two offsets are on one line.
  lemma LineOfSame(text: string, p: nat, q: nat)
    requires p <= q <= |text|
    requires forall i :: p <= i < q ==> text[i] != '\n'
    ensures LineOf(text, p) == LineOf(text, q)
  {
  }

  // A line starts on itself, or it is past the last one.
  lemma {:induction false} LineStartIsOnItsLine(text: string, k: nat)
    ensures k < LineCount(text) ==> LineOf(text, LineStart(text, k)) == k
    ensures k >= LineCount(text) ==> LineStart(text, k) == |text|
  {
    if k > 0 {
      LineStartIsOnItsLine(text, k - 1);
      var p, e := LineStart(text, k - 1), LineStart(text, k);
      if e < |text| {
        LineOfSame(text, p, e - 1);
        LineOfMonotone(text, e, |text|);
      } else if p < |text| {
        LineOfSame(text, p, e - 1);
      }
    }
  }

  // A line holds exactly the offsets that lie on it.
  lemma {:induction false} LineHoldsItsOffsets(text: string, k: nat, p: nat)
    requires p < |text|
    ensures LineOf(text, p) == k <==> LineStart(text, k) <= p < LineStart(text, k + 1)
  {
    var start, end := LineStart(text, k), LineStart(text, k + 1);
    LineStartIsOnItsLine(text, k);
    LineStartIsOnItsLine(text, k + 1);
    if start <= p < end {
      LineOfSame(text, start, p);
    } else if end <= p {
      LineOfMonotone(text, end, p);
    } else if p < start {
      LineBeforeStart(text, k, p);
    }
  }

  lemma LineBeforeStart(text: string, k: nat, p: nat)
    requires p < LineStart(text, k)
    ensures LineOf(text, p) < k
  {
  }
}
