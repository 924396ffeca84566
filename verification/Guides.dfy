/** Indent guides of the visible part of a document, computed no further than a horizon below it. */
module Guides {
  import opened Options
  import opened Text
  import opened Brackets
  import opened Indentation
  import Folds

  const SCAN_BACK_LIMIT := 500

  datatype GuideBlock = GuideBlock(startLine: nat, endLine: nat, indentLevel: nat, leadingSpaces: nat)

  // ---- what a guide is ----------------------------------------------------------------------

  predicate OpensBlock(ch: char) { IsOpener(ch) || ch == ':' }

  // The offset of a line's last visible character.
  function LastOffset(text: string, k: nat): (p: nat)
    requires LastVisible(LineAt(text, k), |LineAt(text, k)|, false).Some?
    ensures LineStart(text, k) <= p < LineStart(text, k + 1)
    ensures p < |text| && text[p] == LineAt(text, k)[p - LineStart(text, k)]
  {
    LineStart(text, k) + LastVisible(LineAt(text, k), |LineAt(text, k)|, false).value
  }

  // Where the run below a line ends, cut at the horizon.
  function RunGuideEnd(infos: seq<Option<LineInfo>>, k: nat, horizon: nat): (e: nat)
    requires k < horizon <= |infos| && infos[k].Some?
    ensures k < e <= horizon
  {
    var b := RunEnd(infos, k, horizon);
    if b == horizon && horizon < |infos| then horizon else LastContent(infos, k, b) + 1
  }

  // A bracket closed above the horizon ends its block; otherwise the run does.
  ghost predicate BlockEnds(text: string, infos: seq<Option<LineInfo>>, k: nat, horizon: nat, e: nat)
    requires k < horizon <= |infos| && infos[k].Some?
    requires LastVisible(LineAt(text, k), |LineAt(text, k)|, false).Some?
  {
    var p, limit := LastOffset(text, k), LineStart(text, horizon);
    && (forall q: nat :: Matched(text, p, q) && q < limit ==> e == LineOf(text, q) + 1)
    && ((forall q: nat :: Matched(text, p, q) ==> q >= limit) ==> e == RunGuideEnd(infos, k, horizon))
  }

  ghost predicate IsGuide(text: string, tabSize: nat, horizon: nat, block: GuideBlock) {
    var infos := InfosOf(text, tabSize, false);
    var k := block.startLine;
    && k < horizon <= |infos| && infos[k].Some? && OpensBlock(infos[k].value.last)
    && block.leadingSpaces == infos[k].value.indent
    && block.indentLevel == (if tabSize == 0 then 0 else infos[k].value.indent / tabSize)
    && BlockEnds(text, infos, k, horizon, block.endLine)
    && k + 1 < block.endLine
    && forall t :: k < t < block.endLine - 1 ==> !Closes(infos, k, t)
  }

  // ---- what the guides promise --------------------------------------------------------------

  lemma {:induction false} BlockEndsAboveHorizon(text: string, infos: seq<Option<LineInfo>>, k: nat, horizon: nat,
                                                 e: nat)
    requires k < horizon <= |infos| && infos[k].Some?
    requires LastVisible(LineAt(text, k), |LineAt(text, k)|, false).Some?
    requires BlockEnds(text, infos, k, horizon, e)
    ensures e <= horizon
  {
    hide LineOf, Matched, LastVisible, RunGuideEnd;
    var p, limit := LastOffset(text, k), LineStart(text, horizon);
    if q: nat :| Matched(text, p, q) && q < limit {
      LineBeforeStart(text, horizon, q);
    }
  }

  // A block spans at least one line below its own, stays above the horizon, and has only deeper
  // or blank lines strictly inside.
  lemma {:induction false} GuideShape(text: string, tabSize: nat, horizon: nat, block: GuideBlock)
    requires IsGuide(text, tabSize, horizon, block)
    ensures block.startLine + 1 < block.endLine <= horizon
    ensures var infos := InfosOf(text, tabSize, false);
            forall t :: block.startLine < t < block.endLine - 1 ==>
              infos[t].None? || Folds.Deeper(infos, block.startLine, t)
  {
    hide LineOf, LineStart, LineAt, Matched, LastVisible, BlockEnds;
    BlockEndsAboveHorizon(text, InfosOf(text, tabSize, false), block.startLine, horizon, block.endLine);
    var infos := InfosOf(text, tabSize, false);
    forall t | block.startLine < t < block.endLine - 1
      ensures infos[t].None? || Folds.Deeper(infos, block.startLine, t)
    {
      assert !Closes(infos, block.startLine, t);
    }
  }

  lemma ColonOpensNoBracket(text: string, tabSize: nat, k: nat)
    requires k < LineCount(text)
    requires var info := InfosOf(text, tabSize, false)[k]; info.Some? && info.value.last == ':'
    ensures forall q: nat :: !Matched(text, LastOffset(text, k), q)
  {
    InfosAt(text, tabSize, false, k);
    hide LineOf, LineStart, InfosOf, LineAt, Net;
  }

  ghost predicate NoLineEndsInBom(text: string) {
    forall k :: 0 <= k < LineCount(text) ==> !EndsInBom(LineAt(text, k))
  }

  // A block drawn for a ':' line, with the line's indent.
  ghost predicate ForColonLine(infos: seq<Option<LineInfo>>, tabSize: nat, horizon: nat, block: GuideBlock) {
    var k := block.startLine;
    && k < horizon <= |infos| && infos[k].Some? && infos[k].value.last == ':'
    && block.leadingSpaces == infos[k].value.indent
    && block.indentLevel == (if tabSize == 0 then 0 else infos[k].value.indent / tabSize)
  }

  // A ':' line whose run closes above the horizon, or whose horizon is the end of the document, has a
  // guide down to the run's last content line.
  lemma {:induction false} ColonGuideEndsItsRun(text: string, tabSize: nat, horizon: nat, block: GuideBlock)
    ensures var infos := InfosOf(text, tabSize, false);
            && ForColonLine(infos, tabSize, horizon, block)
            && (RunEnd(infos, block.startLine, |infos|) < horizon || horizon == |infos|)
            ==> (IsGuide(text, tabSize, horizon, block) <==>
                   block.startLine + 1 < block.endLine ==
                   LastContent(infos, block.startLine, RunEnd(infos, block.startLine, |infos|)) + 1)
  {
    var infos := InfosOf(text, tabSize, false);
    var k := block.startLine;
    if ForColonLine(infos, tabSize, horizon, block) {
      RunEndGrows(infos, k, horizon, |infos|);
      ColonOpensNoBracket(text, tabSize, k);
      hide LineOf, LineStart, InfosOf, Matched, LastOffset, LineAt, LastVisible;
      assert BlockEnds(text, infos, k, horizon, block.endLine) <==> block.endLine == RunGuideEnd(infos, k, horizon);
    }
  }

  // The blocks that may be drawn for a line.
  function BlockOf(info: LineInfo, tabSize: nat, k: nat, endLine: nat): GuideBlock {
    GuideBlock(k, endLine, if tabSize == 0 then 0 else info.indent / tabSize, info.indent)
  }

  ghost predicate GuideTo(text: string, tabSize: nat, horizon: nat, k: nat, e: nat) {
    var guiding := InfosOf(text, tabSize, false);
    k < |guiding| && guiding[k].Some? && IsGuide(text, tabSize, horizon, BlockOf(guiding[k].value, tabSize, k, e + 1))
  }

  ghost predicate FoldTo(text: string, tabSize: nat, k: nat, e: nat) {
    Folds.IsIndentFold(InfosOf(text, tabSize, true), Folds.Fold(k, e))
  }

  // A line's guides are its indent folds, one line longer.
  ghost predicate GuideIsFold(text: string, tabSize: nat, horizon: nat, k: nat) {
    forall e: nat :: GuideTo(text, tabSize, horizon, k, e) <==> FoldTo(text, tabSize, k, e)
  }

  // The last content line of a line's run, in either reading.
  ghost function LastOfRun(text: string, tabSize: nat, k: nat, bom: bool): (e: nat)
    requires k < LineCount(text) && InfosOf(text, tabSize, bom)[k].Some?
    ensures k <= e
  {
    var infos := InfosOf(text, tabSize, bom);
    LastContent(infos, k, RunEnd(infos, k, |infos|))
  }

  // When it does, for a line that ends in ':' once U+FEFF is blank: if U+FEFF stands behind the colon,
  // when the line does not fold, and else when the run ends at the same content line with U+FEFF
  // visible as with U+FEFF blank.
  lemma {:induction false} ColonGuideIsItsFold(text: string, tabSize: nat, horizon: nat, k: nat)
    ensures var folding, guiding := InfosOf(text, tabSize, true), InfosOf(text, tabSize, false);
            && k < horizon <= |folding| && folding[k].Some? && folding[k].value.last == ':'
            && (RunEnd(guiding, k, |guiding|) < horizon || horizon == |guiding|)
            ==> && guiding[k].Some?
                && (GuideIsFold(text, tabSize, horizon, k) <==>
                      if EndsInBom(LineAt(text, k)) then LastOfRun(text, tabSize, k, true) == k
                      else RunsMeet(folding, guiding, k))
  {
    var folding, guiding := InfosOf(text, tabSize, true), InfosOf(text, tabSize, false);
    VisibleReadsMore(text, tabSize);
    if && k < horizon <= |folding| && folding[k].Some? && folding[k].value.last == ':'
       && (RunEnd(guiding, k, |guiding|) < horizon || horizon == |guiding|) {
      RunsMeetExactly(folding, guiding, k);
      BomBehindTheColon(text, tabSize, k);
      EndsDecide(text, tabSize, horizon, k);
      hide InfosOf, RunEnd, LastContent, RunsMeet, GuideIsFold, EndsInBom, LineAt, LineCount;
    }
  }

  // The two ends decide whether guides and folds are the same.
  lemma {:induction false} EndsDecide(text: string, tabSize: nat, horizon: nat, k: nat)
    requires k < horizon <= LineCount(text)
    requires var info := InfosOf(text, tabSize, true)[k]; info.Some? && info.value.last == ':'
    requires var info := InfosOf(text, tabSize, false)[k];
             info.Some? && (info.value.last == ':' || info.value.last == BYTE_ORDER_MARK)
    requires var guiding := InfosOf(text, tabSize, false);
             RunEnd(guiding, k, |guiding|) < horizon || horizon == |guiding|
    ensures GuideIsFold(text, tabSize, horizon, k) <==>
            if InfosOf(text, tabSize, false)[k].value.last == ':'
            then LastOfRun(text, tabSize, k, true) == LastOfRun(text, tabSize, k, false)
            else LastOfRun(text, tabSize, k, true) == k
  {
    var last, shown := LastOfRun(text, tabSize, k, true), LastOfRun(text, tabSize, k, false);
    var colon := InfosOf(text, tabSize, false)[k].value.last == ':';
    forall e: nat
      ensures GuideTo(text, tabSize, horizon, k, e) <==> colon && k < e == shown
      ensures FoldTo(text, tabSize, k, e) <==> k < e == last
    {
      GuideOfColon(text, tabSize, horizon, k, e);
      FoldOfColon(text, tabSize, k, e);
    }
    hide InfosOf, GuideTo, FoldTo, LastOfRun, LineCount, RunEnd;
    if GuideIsFold(text, tabSize, horizon, k) {
      assert FoldTo(text, tabSize, k, last) <==> GuideTo(text, tabSize, horizon, k, last);
      assert FoldTo(text, tabSize, k, shown) <==> GuideTo(text, tabSize, horizon, k, shown);
    }
  }

  lemma FoldOfColon(text: string, tabSize: nat, k: nat, e: nat)
    requires k < LineCount(text)
    requires var info := InfosOf(text, tabSize, true)[k]; info.Some? && info.value.last == ':'
    ensures FoldTo(text, tabSize, k, e) <==> k < e == LastOfRun(text, tabSize, k, true)
  {
    hide InfosOf, LineCount;
  }

  lemma {:induction false} GuideOfColon(text: string, tabSize: nat, horizon: nat, k: nat, e: nat)
    requires k < horizon <= LineCount(text)
    requires var info := InfosOf(text, tabSize, false)[k];
             info.Some? && (info.value.last == ':' || info.value.last == BYTE_ORDER_MARK)
    requires var guiding := InfosOf(text, tabSize, false);
             RunEnd(guiding, k, |guiding|) < horizon || horizon == |guiding|
    ensures GuideTo(text, tabSize, horizon, k, e) <==>
            InfosOf(text, tabSize, false)[k].value.last == ':' && k < e == LastOfRun(text, tabSize, k, false)
  {
    var guiding := InfosOf(text, tabSize, false);
    ColonGuideEndsItsRun(text, tabSize, horizon, BlockOf(guiding[k].value, tabSize, k, e + 1));
    hide InfosOf, BlockEnds, RunEnd, LastContent, LineAt, LineCount;
  }

  lemma {:induction false} BomBehindTheColon(text: string, tabSize: nat, k: nat)
    requires k < LineCount(text)
    requires var info := InfosOf(text, tabSize, true)[k]; info.Some? && info.value.last == ':'
    ensures var info := InfosOf(text, tabSize, false)[k];
            info.Some? && info.value.last == if EndsInBom(LineAt(text, k)) then BYTE_ORDER_MARK else ':'
  {
    BomMattersAtTheEnd(LineAt(text, k), tabSize);
  }

  // With no line ending in a U+FEFF that is always so.
  lemma {:induction false} NoBomNoDifference(text: string, tabSize: nat, horizon: nat, k: nat)
    ensures var folding, guiding := InfosOf(text, tabSize, true), InfosOf(text, tabSize, false);
            && NoLineEndsInBom(text)
            && k < horizon <= |folding| && folding[k].Some? && folding[k].value.last == ':'
            && (RunEnd(guiding, k, |guiding|) < horizon || horizon == |guiding|)
            ==> guiding[k].Some? && GuideIsFold(text, tabSize, horizon, k)
  {
    ColonGuideIsItsFold(text, tabSize, horizon, k);
    if NoLineEndsInBom(text) {
      ReadingsAgree(text, tabSize);
    }
    hide InfosOf, LineAt, LineCount, GuideIsFold;
  }

  // With a U+FEFF behind the colon the two part ways: the line folds but has no guide.
  lemma {:induction false} BomHidesTheGuide(text: string, infos: seq<Option<LineInfo>>, block: GuideBlock)
    requires text == ['a', ':', BYTE_ORDER_MARK, '\n', ' ', 'b'] && infos == InfosOf(text, 2, true)
    requires block.startLine == 0
    ensures Folds.IsIndentFold(infos, Folds.Fold(0, 1))
    ensures !IsGuide(text, 2, 2, block)
  {
    BomLines(text);
    var first, second := LineAt(text, 0), LineAt(text, 1);
    assert LastVisible(first, 2, true) == Some(1) && LastVisible(first, 3, true) == Some(1);
    assert LastVisible(first, 3, false) == Some(2) && LastVisible(first, 4, false) == Some(2);
    InfosAt(text, 2, true, 0);
    InfosAt(text, 2, true, 1);
    InfosAt(text, 2, false, 0);
    assert second[1..] == ['b'] && IndentLength(second[1..]) == 0 && IndentLength(second) == 1;
    assert ColumnAfter(second, 1, 2) == 1;
    hide LineOf, LineAt, LineStart, BlockEnds;
    assert RunEnd(infos, 0, 1) == 1 && RunEnd(infos, 0, 2) == 2 && LastContent(infos, 0, 2) == 1;
  }

  lemma BomLines(text: string)
    requires text == ['a', ':', BYTE_ORDER_MARK, '\n', ' ', 'b']
    ensures LineCount(text) == 2
    ensures LineAt(text, 0) == ['a', ':', BYTE_ORDER_MARK, '\n'] && LineAt(text, 1) == [' ', 'b']
  {
    assert LineOf(text, 1) == 0 && LineOf(text, 2) == 0 && LineOf(text, 3) == 0;
    assert LineOf(text, 4) == 1 && LineOf(text, 5) == 1 && LineOf(text, 6) == 1;
    assert LineEnd(text, 2) == 4 && LineEnd(text, 0) == 4 && LineEnd(text, 5) == 6 && LineEnd(text, 4) == 6;
    assert LineStart(text, 1) == 4 && LineStart(text, 2) == 6;
  }

  // A ':' line whose run is still open at a horizon above the end is drawn down to the horizon.
  lemma {:induction false} OpenGuideReachesTheHorizon(text: string, tabSize: nat, horizon: nat, block: GuideBlock)
    ensures var infos := InfosOf(text, tabSize, false);
            && ForColonLine(infos, tabSize, horizon, block) && horizon < |infos|
            && horizon <= RunEnd(infos, block.startLine, |infos|)
            ==> (IsGuide(text, tabSize, horizon, block) <==> block.startLine + 1 < block.endLine == horizon)
  {
    var infos := InfosOf(text, tabSize, false);
    var k := block.startLine;
    if ForColonLine(infos, tabSize, horizon, block) && horizon <= RunEnd(infos, k, |infos|) {
      RunEndGrows(infos, k, horizon, |infos|);
      ColonOpensNoBracket(text, tabSize, k);
      hide LineOf, LineStart, InfosOf, Matched, LastOffset, LineAt, LastVisible;
      assert BlockEnds(text, infos, k, horizon, block.endLine) <==> block.endLine == RunGuideEnd(infos, k, horizon);
    }
  }

  // The guide of a line ending in a bracket closed above the horizon ends with a bracket fold.
  lemma {:induction false} BracketGuideIsAFold(text: string, tabSize: nat, horizon: nat, block: GuideBlock, q: nat)
    requires IsGuide(text, tabSize, horizon, block)
    requires Matched(text, LastOffset(text, block.startLine), q) && q < LineStart(text, horizon)
    ensures block.endLine == LineOf(text, q) + 1
    ensures Folds.IsBracketFold(text, Folds.Fold(block.startLine, block.endLine - 1))
  {
    var p := LastOffset(text, block.startLine);
    LineHoldsItsOffsets(text, block.startLine, p);
  }

  // ---- the computation ----------------------------------------------------------------------

  // The length of a line without its break.
  function ContentLen(line: string): (len: nat)
    ensures len <= |line| && forall i :: len <= i < |line| ==> line[i] == '\r' || line[i] == '\n'
  {
    var n := |line|;
    var kept := if n >= 2 && line[n - 1] == '\n' && line[n - 2] == '\r' then n - 2 else n;
    if kept >= 1 && line[kept - 1] == '\n' then kept - 1 else kept
  }

  predicate IsBlank(line: string, len: nat)
    requires len <= |line|
  {
    forall i :: 0 <= i < len ==> IsWhitespace(line[i])
  }

  method LeadingColumns(line: string, len: nat, tabSize: nat) returns (cols: nat)
    requires len <= |line|
    ensures len >= IndentLength(line) ==> cols == IndentColumns(line, tabSize)
  {
    cols := 0;
    for i := 0 to len
      invariant i <= IndentLength(line) && cols == ColumnAfter(line, i, tabSize)
    {
      match line[i]
      case ' ' => cols := cols + 1;
      case '\t' => cols := if tabSize > 0 then cols + (tabSize - cols % tabSize) else cols + 1;
      case _ =>
        return;
    }
  }

  // Blankness and indent of a line, as the guides read them, are those of its line info.
  lemma {:induction false} ReadsInfo(line: string, tabSize: nat, len: nat)
    requires len <= |line| && forall i :: len <= i < |line| ==> IsWhitespace(line[i])
    ensures InfoOf(line, tabSize, false).None? <==> IsBlank(line, len)
    ensures InfoOf(line, tabSize, false).Some? ==>
              len >= IndentLength(line) && InfoOf(line, tabSize, false).value.indent == IndentColumns(line, tabSize)
    ensures len > 0 && !IsWhitespace(line[len - 1]) ==>
              && LastVisible(line, |line|, false) == Some(len - 1)
              && InfoOf(line, tabSize, false) == Some(LineInfo(IndentColumns(line, tabSize), line[len - 1]))
  {
  }

  // A line's indent, or nothing for a blank one.
  method IndentOf(text: string, tabSize: nat, k: nat) returns (indent: Option<nat>)
    requires k < LineCount(text)
    ensures var info := InfosOf(text, tabSize, false)[k];
            indent == if info.Some? then Some(info.value.indent) else None
  {
    var line := LineAt(text, k);
    var len := ContentLen(line);
    InfosAt(text, tabSize, false, k);
    ReadsInfo(line, tabSize, len);
    hide InfosOf, LineAt, LineCount;
    if IsBlank(line, len) {
      return None;
    }
    var cols := LeadingColumns(line, len, tabSize);
    return Some(cols);
  }

  // The end of the run below a line, as the guides scan for it.
  method ScanRun(text: string, tabSize: nat, k: nat, leadingCols: nat, horizon: nat) returns (endLine: nat)
    requires k < horizon <= LineCount(text)
    requires var info := InfosOf(text, tabSize, false)[k]; info.Some? && info.value.indent == leadingCols
    ensures endLine == RunGuideEnd(InfosOf(text, tabSize, false), k, horizon)
  {
    hide InfosOf, LineCount;
    ghost var infos := InfosOf(text, tabSize, false);
    var totalLines := LineCount(text);
    var scan, lastValid := k + 1, k;
    while scan < horizon
      invariant k < scan <= horizon
      invariant RunEnd(infos, k, scan) == scan && lastValid == LastContent(infos, k, scan)
    {
      var indent := IndentOf(text, tabSize, scan);
      if indent.None? {
        scan := scan + 1;
        continue;
      }
      if indent.value <= leadingCols {
        RunEndGrows(infos, k, scan + 1, horizon);
        break;
      }
      lastValid := scan;
      scan := scan + 1;
    }
    endLine := if scan == horizon && horizon < totalLines then horizon else lastValid + 1;
  }

  // Whether a line inside the block is not deeper than its first.
  method WouldPass(text: string, tabSize: nat, k: nat, leadingCols: nat, endLine: nat) returns (passes: bool)
    requires k + 1 < endLine <= LineCount(text)
    requires var info := InfosOf(text, tabSize, false)[k]; info.Some? && info.value.indent == leadingCols
    ensures passes <==> exists t :: k < t < endLine - 1 && Closes(InfosOf(text, tabSize, false), k, t)
  {
    hide InfosOf, LineCount;
    ghost var infos := InfosOf(text, tabSize, false);
    for check := k + 1 to endLine - 1
      invariant forall t :: k < t < check ==> !Closes(infos, k, t)
    {
      var indent := IndentOf(text, tabSize, check);
      if indent.Some? && indent.value <= leadingCols {
        assert Closes(infos, k, check);
        return true;
      }
    }
    return false;
  }

  method TrimmedLen(line: string) returns (len: nat)
    ensures len <= |line| && forall i :: len <= i < |line| ==> IsWhitespace(line[i])
    ensures len > 0 ==> !IsWhitespace(line[len - 1])
  {
    len := ContentLen(line);
    while len > 0 && IsWhitespace(line[len - 1])
      invariant len <= |line|
      invariant forall i :: len <= i < |line| ==> IsWhitespace(line[i])
    {
      len := len - 1;
    }
  }

  // A line's length up to its last visible character, and its indent.
  method TrimmedLine(text: string, tabSize: nat, k: nat) returns (lineLen: nat, leadingCols: nat)
    requires k < LineCount(text)
    ensures lineLen <= |LineAt(text, k)|
    ensures var info := InfosOf(text, tabSize, false)[k];
            if lineLen == 0 then info == None
            else info == Some(LineInfo(leadingCols, LineAt(text, k)[lineLen - 1]))
    ensures lineLen > 0 ==> LastVisible(LineAt(text, k), |LineAt(text, k)|, false) == Some(lineLen - 1)
  {
    var line := LineAt(text, k);
    lineLen := TrimmedLen(line);
    InfosAt(text, tabSize, false, k);
    ReadsInfo(line, tabSize, lineLen);
    hide InfosOf, LineAt, LineCount, IsWhitespace, LastVisible;
    leadingCols := LeadingColumns(line, lineLen, tabSize);
  }

  // A partner of a line's last bracket lies on a later line.
  lemma {:induction false} PartnerIsBelow(text: string, tabSize: nat, k: nat, q: nat)
    requires k < LineCount(text) && InfosOf(text, tabSize, false)[k].Some?
    requires LastVisible(LineAt(text, k), |LineAt(text, k)|, false).Some?
    requires Matched(text, LastOffset(text, k), q)
    ensures LineOf(text, q) > k
  {
    var p := LastOffset(text, k);
    LineHoldsItsOffsets(text, k, p);
    LineOfMonotone(text, p, q);
    if LineOf(text, q) == k {
      LineHoldsItsOffsets(text, k, q);
    }
  }

  // Where a line's block ends: at its closing bracket above the horizon, else with its run.
  method BlockEnd(text: string, tabSize: nat, k: nat, horizon: nat, leadingCols: nat, lineLen: nat)
      returns (endLine: nat)
    requires k < horizon <= LineCount(text)
    requires LastVisible(LineAt(text, k), |LineAt(text, k)|, false) == Some(lineLen - 1)
    requires var info := InfosOf(text, tabSize, false)[k];
             info == Some(LineInfo(leadingCols, LineAt(text, k)[lineLen - 1]))
    ensures BlockEnds(text, InfosOf(text, tabSize, false), k, horizon, endLine)
  {
    hide InfosOf, LineOf, LineStart, LineAt, LineCount, LastVisible, Matched, RunGuideEnd;
    endLine := k + 1;
    if IsOpener(LineAt(text, k)[lineLen - 1]) {
      var bracketPos := LineStart(text, k) + lineLen - 1;
      assert bracketPos == LastOffset(text, k);
      var limit := LineStart(text, horizon);
      var matchPos := FindMatchingBracketForward(text, bracketPos, limit);
      if matchPos.Some? {
        PartnerIsBelow(text, tabSize, k, matchPos.value);
        endLine := LineOf(text, matchPos.value) + 1;
      }
    } else {
      OnlyBracketsMatch(text, LastOffset(text, k));
    }
    if endLine <= k + 1 {
      endLine := ScanRun(text, tabSize, k, leadingCols, horizon);
    }
  }

  lemma OnlyBracketsMatch(text: string, p: nat)
    requires p < |text| && !IsOpener(text[p])
    ensures forall q: nat :: !Matched(text, p, q)
  {
  }

  lemma BlockEndIsUnique(text: string, infos: seq<Option<LineInfo>>, k: nat, horizon: nat, d: nat, e: nat)
    requires k < horizon <= |infos| && infos[k].Some?
    requires LastVisible(LineAt(text, k), |LineAt(text, k)|, false).Some?
    requires BlockEnds(text, infos, k, horizon, d) && BlockEnds(text, infos, k, horizon, e)
    ensures d == e
  {
    hide LineOf, LineStart, LineAt, LastVisible, Matched, RunGuideEnd;
  }

  // The guide of a line that opens a block is given by where the block ends.
  lemma {:induction false} OnlyOneGuide(text: string, tabSize: nat, horizon: nat, guide: GuideBlock, lastChar: char)
    requires guide.startLine < horizon <= LineCount(text) && OpensBlock(lastChar)
    requires LastVisible(LineAt(text, guide.startLine), |LineAt(text, guide.startLine)|, false).Some?
    requires InfosOf(text, tabSize, false)[guide.startLine] == Some(LineInfo(guide.leadingSpaces, lastChar))
    requires guide.indentLevel == if tabSize == 0 then 0 else guide.leadingSpaces / tabSize
    requires BlockEnds(text, InfosOf(text, tabSize, false), guide.startLine, horizon, guide.endLine)
    ensures guide.endLine <= horizon
    ensures IsGuide(text, tabSize, horizon, guide) <==>
            && guide.startLine + 1 < guide.endLine
            && forall t :: guide.startLine < t < guide.endLine - 1 ==>
                 !Closes(InfosOf(text, tabSize, false), guide.startLine, t)
    ensures forall block: GuideBlock ::
              block.startLine == guide.startLine && IsGuide(text, tabSize, horizon, block) ==> block == guide
  {
    hide InfosOf, LineOf, LineStart, LineAt, LineCount, BlockEnds, LastVisible, Closes;
    var infos := InfosOf(text, tabSize, false);
    BlockEndsAboveHorizon(text, infos, guide.startLine, horizon, guide.endLine);
    forall block: GuideBlock | block.startLine == guide.startLine && IsGuide(text, tabSize, horizon, block)
      ensures block == guide
    {
      BlockEndIsUnique(text, infos, guide.startLine, horizon, guide.endLine, block.endLine);
    }
  }

  // The guide of one line, if it has one.
  method LineGuide(text: string, tabSize: nat, k: nat, horizon: nat) returns (r: Option<GuideBlock>)
    requires k < horizon <= LineCount(text)
    ensures forall block: GuideBlock :: block.startLine == k ==>
              (r == Some(block) <==> IsGuide(text, tabSize, horizon, block))
    ensures r.Some? ==> r.value.startLine == k
  {
    hide InfosOf, LineOf, LineStart, LineAt, LineCount, BlockEnds, LastVisible, Closes;
    var line := LineAt(text, k);
    var lineLen, leadingCols := TrimmedLine(text, tabSize, k);
    if lineLen == 0 {
      return None;
    }
    var lastChar := line[lineLen - 1];
    if !OpensBlock(lastChar) {
      return None;
    }
    var indentLevel := if tabSize == 0 then 0 else leadingCols / tabSize;
    var endLine := BlockEnd(text, tabSize, k, horizon, leadingCols, lineLen);
    var guide := GuideBlock(k, endLine, indentLevel, leadingCols);
    OnlyOneGuide(text, tabSize, horizon, guide, lastChar);
    hide IsGuide;
    if endLine <= k + 1 {
      return None;
    }
    var wouldPass := WouldPass(text, tabSize, k, leadingCols, endLine);
    if wouldPass {
      return None;
    }
    return Some(guide);
  }

  ghost predicate GuidesAscend(blocks: seq<GuideBlock>) {
    forall m, n :: 0 <= m < n < |blocks| ==> blocks[m].startLine < blocks[n].startLine
  }

  function Min(a: nat, b: nat): (m: nat)
    ensures m <= a && m <= b && (m == a || m == b)
  {
    if a < b then a else b
  }

  // The guides of the lines from a little above the viewport to its last line.
  method ComputeViewport(text: string, firstVisible: nat, lastVisible: nat, tabSize: nat)
      returns (blocks: seq<GuideBlock>)
    ensures GuidesAscend(blocks)
    ensures var first, last := Min(firstVisible, LineCount(text) - 1), Min(lastVisible, LineCount(text) - 1);
            forall block: GuideBlock :: block in blocks <==>
              && first <= block.startLine + 500 && block.startLine <= last
              && IsGuide(text, tabSize, Min(last + 2, LineCount(text)), block)
  {
    hide IsGuide, LineCount;
    var totalLines := LineCount(text);
    assert totalLines > 0 by { TextHasALine(text); }
    var first := Min(firstVisible, totalLines - 1);
    var last := Min(lastVisible, totalLines - 1);
    var scanStart := if first > SCAN_BACK_LIMIT then first - SCAN_BACK_LIMIT else 0;
    var horizon := Min(last + 2, totalLines);
    blocks := [];
    var k := scanStart;
    while k <= last
      invariant scanStart <= k
      invariant GuidesAscend(blocks) && forall m :: 0 <= m < |blocks| ==> blocks[m].startLine < k
      invariant forall block: GuideBlock :: block in blocks <==>
                  scanStart <= block.startLine < k && block.startLine <= last && IsGuide(text, tabSize, horizon, block)
    {
      var guide := LineGuide(text, tabSize, k, horizon);
      if guide.Some? {
        blocks := blocks + [guide.value];
      }
      k := k + 1;
    }
  }

  lemma TextHasALine(text: string)
    ensures LineCount(text) > 0
  {
  }

  // ---- every guide, by the characters of its line -----------------------------------------------

  // The run below line k ends at e: all content above e is deeper than k; and if a line above the
  // horizon is not, or the horizon is the end, the line above e has content and the next that has is
  // not deeper; otherwise e is the horizon.
  ghost predicate RunsTo(infos: seq<Option<LineInfo>>, k: nat, horizon: nat, e: nat)
    requires k < horizon <= |infos| && infos[k].Some?
  {
    && k + 1 < e <= horizon
    && (forall t :: k < t < e && infos[t].Some? ==> infos[t].value.indent > infos[k].value.indent)
    && if horizon == |infos| ||
          exists t :: k < t < horizon && infos[t].Some? && infos[t].value.indent <= infos[k].value.indent
       then infos[e - 1].Some? && NextIsShallow(infos, k, horizon, e)
       else e == horizon
  }

  ghost predicate NextIsShallow(infos: seq<Option<LineInfo>>, k: nat, horizon: nat, e: nat)
    requires k < horizon <= |infos| && infos[k].Some?
  {
    forall t :: e <= t < horizon && infos[t].Some? && (forall u :: e <= u < t ==> infos[u].None?) ==>
      infos[t].value.indent <= infos[k].value.indent
  }

  lemma {:induction false} RunGuideRunsTo(infos: seq<Option<LineInfo>>, k: nat, horizon: nat, e: nat)
    requires k < horizon <= |infos| && infos[k].Some?
    ensures RunsTo(infos, k, horizon, e) <==>
            k + 1 < e == RunGuideEnd(infos, k, horizon) && forall t :: k < t < e - 1 ==> !Closes(infos, k, t)
  {
    var b := RunEnd(infos, k, horizon);
    forall t | k < t < horizon
      ensures Closes(infos, k, t) <==> infos[t].Some? && infos[t].value.indent <= infos[k].value.indent
    {
    }
    if b < horizon || horizon == |infos| {
      assert b < horizon ==> Closes(infos, k, b);
      var last := LastContent(infos, k, b);
      hide RunEnd, LastContent, Closes;
      if RunsTo(infos, k, horizon, e) && e - 1 < last {
        var t := Folds.FirstContent(infos, e - 1, last);
      }
    }
  }

  // The last character of its line that is no white space.
  ghost predicate IsLastOnLine(text: string, p: nat) {
    && p < |text| && !IsWhitespace(text[p])
    && forall i :: p < i < |text| && LineOf(text, i) == LineOf(text, p) ==> IsWhitespace(text[i])
  }

  // A block with the indent of a line, in columns and in steps.
  ghost predicate HasIndent(block: GuideBlock, columns: nat, tabSize: nat) {
    block.leadingSpaces == columns && block.indentLevel == if tabSize == 0 then 0 else columns / tabSize
  }

  // Content strictly between two lines is deeper than the first.
  ghost predicate DeeperBetween(infos: seq<Option<LineInfo>>, k: nat, last: nat)
    requires k < |infos| && infos[k].Some? && last < |infos|
  {
    forall t :: k < t < last && infos[t].Some? ==> infos[t].value.indent > infos[k].value.indent
  }

  // A line that ends in a bracket closed above the horizon has a guide to just behind its partner's
  // line, exactly if all content in between is deeper.
  lemma {:induction false} BracketDrawsToItsPartner(text: string, tabSize: nat, horizon: nat, p: nat, q: nat,
                                                    block: GuideBlock)
    requires IsLastOnLine(text, p) && Matched(text, p, q) && q < LineStart(text, horizon)
    requires block.startLine == LineOf(text, p) < horizon <= LineCount(text)
    ensures var infos, k := InfosOf(text, tabSize, false), LineOf(text, p);
            && k < LineOf(text, q) < LineCount(text) && infos[k].Some?
            && (IsGuide(text, tabSize, horizon, block) <==>
                  && HasIndent(block, IndentColumns(LineAt(text, k), tabSize), tabSize)
                  && block.endLine == LineOf(text, q) + 1 && DeeperBetween(infos, k, LineOf(text, q)))
  {
    var infos, k := InfosOf(text, tabSize, false), LineOf(text, p);
    LastOffsetIs(text, tabSize, p);
    PartnerIsBelow(text, tabSize, k, q);
    LineOfMonotone(text, q, |text|);
    PairsAreOfAKind(text, p, q);
    hide InfosOf, LineOf, LineStart, LineAt, LastVisible, IsWhitespace, IndentColumns, Matched, BlockEnds;
    BlockEndsAtPartner(text, infos, k, horizon, q, block.endLine);
    hide LineCount;
    if block.endLine == LineOf(text, q) + 1 {
      DeeperIsNotClosing(infos, k, LineOf(text, q));
    }
  }

  lemma DeeperIsNotClosing(infos: seq<Option<LineInfo>>, k: nat, last: nat)
    requires k < |infos| && infos[k].Some? && last < |infos|
    ensures DeeperBetween(infos, k, last) <==> forall t :: k < t < last ==> !Closes(infos, k, t)
  {
    forall t | k < t < last
      ensures Closes(infos, k, t) <==> infos[t].Some? && infos[t].value.indent <= infos[k].value.indent
    {
    }
  }

  lemma BlockEndsAtPartner(text: string, infos: seq<Option<LineInfo>>, k: nat, horizon: nat, q: nat, e: nat)
    requires k < horizon <= |infos| && infos[k].Some?
    requires LastVisible(LineAt(text, k), |LineAt(text, k)|, false).Some?
    requires Matched(text, LastOffset(text, k), q) && q < LineStart(text, horizon)
    ensures BlockEnds(text, infos, k, horizon, e) <==> e == LineOf(text, q) + 1
  {
    var p := LastOffset(text, k);
    forall other: nat | Matched(text, p, other)
      ensures other == q
    {
      PartnerIsUnique(text, p, q);
      assert Paired(text, p, other);
    }
    hide LineOf, LineStart, LineAt, LastVisible, LastOffset, Matched, RunGuideEnd;
  }

  // A line that ends in any other opening bracket, or in a colon, has the guide of its run.
  lemma {:induction false} OthersDrawTheirRun(text: string, tabSize: nat, horizon: nat, p: nat, block: GuideBlock)
    requires IsLastOnLine(text, p) && block.startLine == LineOf(text, p) < horizon <= LineCount(text)
    requires text[p] == '{' || text[p] == '[' || text[p] == '(' || text[p] == ':'
    requires forall q: nat :: Matched(text, p, q) ==> q >= LineStart(text, horizon)
    ensures var infos, k := InfosOf(text, tabSize, false), LineOf(text, p);
            && infos[k].Some?
            && (IsGuide(text, tabSize, horizon, block) <==>
                  && HasIndent(block, IndentColumns(LineAt(text, k), tabSize), tabSize)
                  && RunsTo(infos, k, horizon, block.endLine))
  {
    var infos, k := InfosOf(text, tabSize, false), LineOf(text, p);
    LastOffsetIs(text, tabSize, p);
    RunGuideRunsTo(infos, k, horizon, block.endLine);
    hide InfosOf, LineOf, LineStart, LineAt, LineCount, LastVisible, RunGuideEnd, RunsTo, IsWhitespace, Closes, Matched,
      IndentColumns;
    assert BlockEnds(text, infos, k, horizon, block.endLine) <==> block.endLine == RunGuideEnd(infos, k, horizon);
  }

  // A line that ends in anything else has none.
  lemma {:induction false} NothingElseDraws(text: string, tabSize: nat, horizon: nat, p: nat, block: GuideBlock)
    requires IsLastOnLine(text, p) && block.startLine == LineOf(text, p)
    requires text[p] != '{' && text[p] != '[' && text[p] != '(' && text[p] != ':'
    ensures !IsGuide(text, tabSize, horizon, block)
  {
    LastOffsetIs(text, tabSize, p);
  }

  lemma CharacterOfALine(text: string, k: nat, j: nat)
    requires j < |LineAt(text, k)|
    ensures LineStart(text, k) + j < |text| && LineAt(text, k)[j] == text[LineStart(text, k) + j]
    ensures LineOf(text, LineStart(text, k) + j) == k
  {
    LineHoldsItsOffsets(text, k, LineStart(text, k) + j);
    hide LineStart, LineOf;
  }

  // The offset of a line's last visible character, and its reading.
  lemma {:induction false} LastOffsetIs(text: string, tabSize: nat, p: nat)
    requires IsLastOnLine(text, p)
    ensures var k := LineOf(text, p);
            && k < LineCount(text)
            && LastVisible(LineAt(text, k), |LineAt(text, k)|, false).Some? && LastOffset(text, k) == p
            && InfosOf(text, tabSize, false)[k] == Some(LineInfo(IndentColumns(LineAt(text, k), tabSize), text[p]))
  {
    var k := LineOf(text, p);
    LineOfMonotone(text, p, |text|);
    LineHoldsItsOffsets(text, k, p);
    var line, i := LineAt(text, k), p - LineStart(text, k);
    assert 0 <= i < |line| && line[i] == text[p];
    hide LineOf, IsWhitespace, LineAt;
    forall j | i < j < |line|
      ensures IsWhitespace(line[j])
    {
      CharacterOfALine(text, k, j);
    }
    ReadingIsOfTheLastVisible(line, i, tabSize, false);
    InfosAt(text, tabSize, false, k);
  }

  // A line of white space draws none.
  lemma {:induction false} BlankLineHasNoGuide(text: string, tabSize: nat, horizon: nat, block: GuideBlock)
    requires block.startLine < LineCount(text)
    requires forall i :: 0 <= i < |text| && LineOf(text, i) == block.startLine ==> IsWhitespace(text[i])
    ensures !IsGuide(text, tabSize, horizon, block)
  {
    BlankLineIsNotRead(text, tabSize, block.startLine);
    hide InfosOf, BlockEnds, LineAt, LineOf, LineCount, IsWhitespace;
  }

  lemma {:induction false} BlankLineIsNotRead(text: string, tabSize: nat, k: nat)
    requires k < LineCount(text)
    requires forall i :: 0 <= i < |text| && LineOf(text, i) == k ==> IsWhitespace(text[i])
    ensures InfosOf(text, tabSize, false)[k] == None
  {
    hide LineAt, IsWhitespace, InfosOf, LineOf, LineStart;
    forall j | 0 <= j < |LineAt(text, k)|
      ensures IsWhitespace(LineAt(text, k)[j])
    {
      CharacterOfALine(text, k, j);
    }
    BlankLinesAreNotRead(LineAt(text, k), tabSize, false);
    InfosAt(text, tabSize, false, k);
  }
}
