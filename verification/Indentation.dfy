/** The indent structure of a document: what one line contributes, and the run of lines below a line. */
module Indentation {
  import opened Options
  import opened Text

  // The Unicode White_Space property.
  predicate IsWhitespace(ch: char) {
    var c := ch as int;
    9 <= c <= 13 || c == 0x20 || c == 0x85 || c == 0xA0 || c == 0x1680 || 0x2000 <= c <= 0x200A ||
    c == 0x2028 || c == 0x2029 || c == 0x202F || c == 0x205F || c == 0x3000
  }

  const BYTE_ORDER_MARK := '\U{FEFF}'

  // The folds count U+FEFF as blank (bom), the guides do not.
  predicate IsVisible(ch: char, bom: bool) {
    !IsWhitespace(ch) && !(bom && ch == BYTE_ORDER_MARK)
  }

  function Advance(cols: nat, ch: char, tabSize: nat): nat {
    if ch == '\t' && tabSize > 0 then cols + (tabSize - cols % tabSize) else cols + 1
  }

  // The column reached after n characters of indentation.
  function ColumnAfter(line: string, n: nat, tabSize: nat): nat
    requires n <= |line|
  {
    if n == 0 then 0 else Advance(ColumnAfter(line, n - 1, tabSize), line[n - 1], tabSize)
  }

  predicate IsIndent(ch: char) { ch == ' ' || ch == '\t' }

  // How many characters of indentation a line starts with.
  function IndentLength(line: string): (n: nat)
    ensures n <= |line|
    ensures forall i :: 0 <= i < n ==> IsIndent(line[i])
    ensures n < |line| ==> !IsIndent(line[n])
  {
    if line == [] || !IsIndent(line[0]) then 0 else 1 + IndentLength(line[1..])
  }

  function IndentColumns(line: string, tabSize: nat): nat {
    ColumnAfter(line, IndentLength(line), tabSize)
  }

  // The last visible character among the first n.
  function LastVisible(line: string, n: nat, bom: bool): (r: Option<nat>)
    requires n <= |line|
    ensures r.Some? ==> r.value < n && IsVisible(line[r.value], bom)
    ensures forall i :: (if r.Some? then r.value + 1 else 0) <= i < n ==> !IsVisible(line[i], bom)
  {
    if n == 0 then None
    else if IsVisible(line[n - 1], bom) then Some(n - 1)
    else LastVisible(line, n - 1, bom)
  }

  datatype LineInfo = LineInfo(indent: nat, last: char)

  // A line with something visible on it: its indent and its last visible character.
  function InfoOf(line: string, tabSize: nat, bom: bool): (r: Option<LineInfo>)
  {
    match LastVisible(line, |line|, bom)
    case None => None
    case Some(i) => Some(LineInfo(IndentColumns(line, tabSize), line[i]))
  }

  // Every line of a text.
  function InfosOf(text: string, tabSize: nat, bom: bool): (infos: seq<Option<LineInfo>>)
    ensures |infos| == LineCount(text)
  {
    seq(LineCount(text), k requires k >= 0 => InfoOf(LineAt(text, k), tabSize, bom))
  }

  lemma InfosAt(text: string, tabSize: nat, bom: bool, k: nat)
    requires k < LineCount(text)
    ensures InfosOf(text, tabSize, bom)[k] == InfoOf(LineAt(text, k), tabSize, bom)
  {
  }

  // The last character on the line that is no white space is a U+FEFF.
  predicate EndsInBom(line: string) {
    var last := LastVisible(line, |line|, false);
    last.Some? && line[last.value] == BYTE_ORDER_MARK
  }

  lemma {:induction false} BomMattersAtTheEnd(line: string, tabSize: nat)
    ensures InfoOf(line, tabSize, true) == InfoOf(line, tabSize, false) <==> !EndsInBom(line)
  {
  }

  // The two readings of a text agree exactly if no line ends in a U+FEFF, white space aside.
  lemma {:induction false} ReadingsAgree(text: string, tabSize: nat)
    ensures InfosOf(text, tabSize, true) == InfosOf(text, tabSize, false) <==>
            forall k :: 0 <= k < LineCount(text) ==> !EndsInBom(LineAt(text, k))
  {
    forall k | 0 <= k < LineCount(text)
      ensures InfosOf(text, tabSize, true)[k] == InfosOf(text, tabSize, false)[k] <==> !EndsInBom(LineAt(text, k))
    {
      BomMattersAtTheEnd(LineAt(text, k), tabSize);
    }
    if forall k :: 0 <= k < LineCount(text) ==> !EndsInBom(LineAt(text, k)) {
      assert forall k :: 0 <= k < LineCount(text) ==>
          InfosOf(text, tabSize, true)[k] == InfosOf(text, tabSize, false)[k];
    }
  }

  // ---- runs ---------------------------------------------------------------------------------

  // Content line t is not deeper than content line s above it.
  predicate Closes(infos: seq<Option<LineInfo>>, s: nat, t: nat) {
    s < t < |infos| && infos[s].Some? && infos[t].Some? && infos[t].value.indent <= infos[s].value.indent
  }

  // The first line below s, and above the limit, that closes the run of s; else the limit.
  function RunEnd(infos: seq<Option<LineInfo>>, s: nat, limit: nat): (b: nat)
    requires s < limit <= |infos|
    ensures s < b <= limit
    ensures b < limit ==> Closes(infos, s, b)
    ensures forall t :: s < t < b ==> !Closes(infos, s, t)
  {
    if limit == s + 1 then limit else
    var b := RunEnd(infos, s, limit - 1);
    if b < limit - 1 || Closes(infos, s, limit - 1) then b else limit
  }

  // The last content line of s..limit, of which s is one.
  function LastContent(infos: seq<Option<LineInfo>>, s: nat, limit: nat): (e: nat)
    requires s < limit <= |infos| && infos[s].Some?
    ensures s <= e < limit && infos[e].Some?
    ensures forall t :: e < t < limit ==> infos[t].None?
  {
    if limit == s + 1 then s
    else if infos[limit - 1].Some? then limit - 1
    else LastContent(infos, s, limit - 1)
  }

  // The run of a line lengthens with the limit until it is closed.
  lemma RunEndGrows(infos: seq<Option<LineInfo>>, s: nat, limit: nat, further: nat)
    requires s < limit <= further <= |infos|
    ensures RunEnd(infos, s, limit) < limit ==> RunEnd(infos, s, further) == RunEnd(infos, s, limit)
    ensures RunEnd(infos, s, limit) == limit ==> RunEnd(infos, s, further) >= limit
  {
  }

  // ---- the two readings of a run --------------------------------------------------------------

  // Where U+FEFF is blank there is content, there is with U+FEFF visible, as deep.
  ghost predicate ReadsMore(folding: seq<Option<LineInfo>>, guiding: seq<Option<LineInfo>>) {
    && |folding| == |guiding|
    && forall t :: 0 <= t < |folding| && folding[t].Some? ==>
         guiding[t].Some? && guiding[t].value.indent == folding[t].value.indent
  }

  lemma {:induction false} VisibleReadsMore(text: string, tabSize: nat)
    ensures ReadsMore(InfosOf(text, tabSize, true), InfosOf(text, tabSize, false))
  {
    forall t | 0 <= t < LineCount(text) && InfosOf(text, tabSize, true)[t].Some?
      ensures var folding, guiding := InfosOf(text, tabSize, true), InfosOf(text, tabSize, false);
              guiding[t].Some? && guiding[t].value.indent == folding[t].value.indent
    {
      InfosAt(text, tabSize, true, t);
      InfosAt(text, tabSize, false, t);
      hide LineAt, LineCount;
    }
  }

  // A line on which U+FEFF is all there is to see.
  predicate BomOnly(folding: seq<Option<LineInfo>>, guiding: seq<Option<LineInfo>>, t: nat) {
    t < |folding| && t < |guiding| && folding[t].None? && guiding[t].Some?
  }

  ghost predicate FirstBomBelow(folding: seq<Option<LineInfo>>, guiding: seq<Option<LineInfo>>, e: nat, t: nat) {
    BomOnly(folding, guiding, t) && forall u :: e < u < t ==> !BomOnly(folding, guiding, u)
  }

  // In the run of s with U+FEFF blank: above its last content line no line of U+FEFF alone is as
  // shallow as s, and below it the first such line of any depth, if there is one, is.
  ghost predicate RunsMeet(folding: seq<Option<LineInfo>>, guiding: seq<Option<LineInfo>>, s: nat)
    requires s < |folding| && folding[s].Some?
  {
    var b := RunEnd(folding, s, |folding|);
    var e := LastContent(folding, s, b);
    && (forall t :: s < t < e && BomOnly(folding, guiding, t) ==> !Closes(guiding, s, t))
    && (forall t :: e < t < b && FirstBomBelow(folding, guiding, e, t) ==> Closes(guiding, s, t))
  }

  // A line that closes the run only with U+FEFF visible has nothing else on it; a line without
  // content but for such a line has none in either reading.
  lemma OnlyBomDiffers(folding: seq<Option<LineInfo>>, guiding: seq<Option<LineInfo>>, s: nat)
    requires ReadsMore(folding, guiding) && s < |folding| && folding[s].Some?
    ensures forall t :: Closes(folding, s, t) ==> Closes(guiding, s, t)
    ensures forall t :: Closes(guiding, s, t) && !Closes(folding, s, t) ==> BomOnly(folding, guiding, t)
    ensures forall t: nat :: t < |folding| && folding[t].None? && !BomOnly(folding, guiding, t) ==> guiding[t].None?
  {
  }

  // The last content line of a run is the same in both readings exactly if the runs meet.
  lemma {:induction false} RunsMeetExactly(folding: seq<Option<LineInfo>>, guiding: seq<Option<LineInfo>>, s: nat)
    requires ReadsMore(folding, guiding) && s < |folding| && folding[s].Some?
    ensures RunsMeet(folding, guiding, s) <==>
            LastContent(guiding, s, RunEnd(guiding, s, |guiding|)) ==
            LastContent(folding, s, RunEnd(folding, s, |folding|))
  {
    var n := |folding|;
    var b, shown := RunEnd(folding, s, n), RunEnd(guiding, s, n);
    var e, last := LastContent(folding, s, b), LastContent(guiding, s, shown);
    assert IsRun(folding, s, b, e) && IsRun(guiding, s, shown, last);
    hide RunEnd, LastContent, ReadsMore, Closes, BomOnly, IsRun;
    RunsMeetAt(folding, guiding, s, b, e, shown, last);
  }

  // The run of s ends at b, or at the document's end, and e is its last content line.
  ghost predicate IsRun(infos: seq<Option<LineInfo>>, s: nat, b: nat, e: nat) {
    && s <= e < b <= |infos| && infos[e].Some?
    && (b < |infos| ==> Closes(infos, s, b)) && (forall t :: s < t < b ==> !Closes(infos, s, t))
    && forall u :: e < u < b ==> infos[u].None?
  }

  lemma {:induction false} RunsMeetAt(folding: seq<Option<LineInfo>>, guiding: seq<Option<LineInfo>>, s: nat,
                                      b: nat, e: nat, shown: nat, last: nat)
    requires ReadsMore(folding, guiding) && s < |folding| && folding[s].Some?
    requires IsRun(folding, s, b, e) && IsRun(guiding, s, shown, last)
    ensures (&& (forall t :: s < t < e && BomOnly(folding, guiding, t) ==> !Closes(guiding, s, t))
             && (forall t :: e < t < b && FirstBomBelow(folding, guiding, e, t) ==> Closes(guiding, s, t))) <==>
            last == e
  {
    OnlyBomDiffers(folding, guiding, s);
    assert shown <= b by {
      assert b < |folding| ==> Closes(folding, s, b);
    }
    hide ReadsMore, Closes, BomOnly;
    if t: nat :| s < t < e && BomOnly(folding, guiding, t) && Closes(guiding, s, t) {
      assert shown <= t;
    } else {
      ContentIsReached(folding, guiding, s, b, e, shown, last);
      if t: nat :| e < t < b && BomOnly(folding, guiding, t) {
        var first := FirstBomOnly(folding, guiding, e, t);
        BelowTheContent(folding, guiding, s, e, b, shown, last, first);
        assert FirstBomBelow(folding, guiding, e, first);
      } else {
        assert forall u: nat :: e < u < b ==> guiding[u].None?;
      }
    }
  }

  lemma {:induction false} ContentIsReached(folding: seq<Option<LineInfo>>, guiding: seq<Option<LineInfo>>, s: nat,
                                            b: nat, e: nat, shown: nat, last: nat)
    requires ReadsMore(folding, guiding) && s < |folding| && folding[s].Some?
    requires IsRun(folding, s, b, e) && IsRun(guiding, s, shown, last)
    requires forall t :: s < t < e && BomOnly(folding, guiding, t) ==> !Closes(guiding, s, t)
    ensures e < shown && e <= last
  {
    OnlyBomDiffers(folding, guiding, s);
    NotBomOnly(folding, guiding, e);
    MoreIsRead(folding, guiding, e);
    hide ReadsMore, Closes, BomOnly;
  }

  lemma NotBomOnly(folding: seq<Option<LineInfo>>, guiding: seq<Option<LineInfo>>, e: nat)
    requires e < |folding| && folding[e].Some?
    ensures !BomOnly(folding, guiding, e)
  {
  }

  lemma MoreIsRead(folding: seq<Option<LineInfo>>, guiding: seq<Option<LineInfo>>, e: nat)
    requires ReadsMore(folding, guiding) && e < |folding| && folding[e].Some?
    ensures guiding[e].Some?
  {
  }

  // The first line of U+FEFF alone below the folding's content either ends the run or adds to it.
  lemma BelowTheContent(folding: seq<Option<LineInfo>>, guiding: seq<Option<LineInfo>>, s: nat, e: nat, b: nat,
                        shown: nat, last: nat, first: nat)
    requires ReadsMore(folding, guiding) && s < |folding| && folding[s].Some?
    requires IsRun(folding, s, b, e) && IsRun(guiding, s, shown, last)
    requires e < first < b && e < shown <= b && e <= last
    requires BomOnly(folding, guiding, first) && forall u :: e < u < first ==> !BomOnly(folding, guiding, u)
    ensures Closes(guiding, s, first) <==> last == e
  {
    forall u: nat | e < u < first
      ensures guiding[u].None?
    {
      assert !BomOnly(folding, guiding, u) && folding[u].None?;
    }
    assert shown >= first;
  }

  lemma FirstBomOnly(folding: seq<Option<LineInfo>>, guiding: seq<Option<LineInfo>>, e: nat, t: nat)
      returns (first: nat)
    requires e < t && BomOnly(folding, guiding, t)
    ensures e < first <= t && BomOnly(folding, guiding, first)
    ensures forall u :: e < u < first ==> !BomOnly(folding, guiding, u)
  {
    first := e + 1;
    while !BomOnly(folding, guiding, first)
      invariant e < first <= t && forall u :: e < u < first ==> !BomOnly(folding, guiding, u)
      decreases t - first
    {
      first := first + 1;
    }
  }

  // ---- what a line's reading is, by its characters --------------------------------------------

  lemma WhitespaceIs(ch: char)
    ensures IsWhitespace(ch) <==>
            ch in "\t\n\U{B}\U{C}\r \U{85}\U{A0}\U{1680}\U{2028}\U{2029}\U{202F}\U{205F}\U{3000}" ||
            ch in "\U{2000}\U{2001}\U{2002}\U{2003}\U{2004}\U{2005}\U{2006}\U{2007}\U{2008}\U{2009}\U{200A}"
  {
  }

  // A tab leads to the next multiple of the tab size, anything else one column on.
  lemma TabLeadsToAStop(cols: nat, tabSize: nat)
    ensures tabSize > 0 ==>
              var stop := Advance(cols, '\t', tabSize);
              cols < stop <= cols + tabSize && stop == tabSize * (cols / tabSize + 1)
    ensures Advance(cols, '\t', 0) == Advance(cols, ' ', tabSize) == cols + 1
  {
  }

  // A line that starts with so many blanks and tabs, and no more, is indented by the columns they reach
  // one after the other.
  lemma {:induction false} IndentIsOfBlanksAndTabs(line: string, n: nat, tabSize: nat)
    requires n <= |line| && (forall i :: 0 <= i < n ==> line[i] == ' ' || line[i] == '\t')
    requires n < |line| ==> line[n] != ' ' && line[n] != '\t'
    ensures IndentColumns(line, tabSize) == ColumnAfter(line, n, tabSize)
    ensures ColumnAfter(line, 0, tabSize) == 0
    ensures forall i :: 0 <= i < n ==>
              ColumnAfter(line, i + 1, tabSize) == Advance(ColumnAfter(line, i, tabSize), line[i], tabSize)
  {
    IndentIsUnique(line, n);
  }

  lemma IndentIsUnique(line: string, n: nat)
    requires n <= |line| && (forall i :: 0 <= i < n ==> line[i] == ' ' || line[i] == '\t')
    requires n < |line| ==> line[n] != ' ' && line[n] != '\t'
    ensures IndentLength(line) == n
  {
    if n > 0 {
      IndentIsUnique(line[1..], n - 1);
    }
  }

  // The last character a line shows, and its indent, are its reading; U+FEFF shows only to the guides.
  lemma {:induction false} ReadingIsOfTheLastVisible(line: string, i: nat, tabSize: nat, bom: bool)
    requires i < |line| && !IsWhitespace(line[i]) && (bom ==> line[i] != '\U{FEFF}')
    requires forall j :: i < j < |line| ==> IsWhitespace(line[j]) || (bom && line[j] == '\U{FEFF}')
    ensures InfoOf(line, tabSize, bom) == Some(LineInfo(IndentColumns(line, tabSize), line[i]))
    ensures LastVisible(line, |line|, bom) == Some(i)
  {
    assert IsVisible(line[i], bom);
    hide IsWhitespace;
  }

  lemma {:induction false} BlankLinesAreNotRead(line: string, tabSize: nat, bom: bool)
    requires forall j :: 0 <= j < |line| ==> IsWhitespace(line[j]) || (bom && line[j] == '\U{FEFF}')
    ensures InfoOf(line, tabSize, bom) == None
  {
    hide IsWhitespace;
  }
}
