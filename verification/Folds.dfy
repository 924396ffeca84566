/** Foldable ranges of a document: bracket folds, indent folds, and per line the one that ends first. */
module Folds {
  import opened Options
  import opened Text
  import opened Brackets
  import opened Indentation

  datatype Fold = Fold(startLine: nat, endLine: nat)

  // ---- bracket folds ------------------------------------------------------------------------

  ghost predicate IsBracketFold(text: string, fold: Fold) {
    && fold.startLine < fold.endLine
    && exists p: nat, q: nat ::
         Matched(text, p, q) && fold == Fold(LineOf(text, p), LineOf(text, q))
  }

  ghost predicate Within(text: string, pairs: seq<Pair>) {
    forall m :: 0 <= m < |pairs| ==> pairs[m].open <= |text| && pairs[m].close <= |text|
  }

  // The pairs that span lines, as folds.
  ghost function Crossing(text: string, pairs: seq<Pair>): (folds: seq<Fold>)
    requires Within(text, pairs)
  {
    if pairs == [] then [] else
      var last := pairs[|pairs| - 1];
      var fold := Fold(LineOf(text, last.open), LineOf(text, last.close));
      Crossing(text, pairs[..|pairs| - 1]) + (if fold.startLine < fold.endLine then [fold] else [])
  }

  ghost predicate EndsAscend(folds: seq<Fold>) {
    forall m, n :: 0 <= m < n < |folds| ==> folds[m].endLine <= folds[n].endLine
  }

  ghost predicate FoldOfPair(text: string, pairs: seq<Pair>, m: nat, fold: Fold)
    requires Within(text, pairs)
  {
    m < |pairs| && fold == Fold(LineOf(text, pairs[m].open), LineOf(text, pairs[m].close))
  }

  lemma {:induction false} CrossingAscends(text: string, pairs: seq<Pair>)
    requires Within(text, pairs)
    requires forall m, n :: 0 <= m < n < |pairs| ==> pairs[m].close < pairs[n].close
    ensures EndsAscend(Crossing(text, pairs))
    ensures pairs != [] ==> forall fold: Fold :: fold in Crossing(text, pairs) ==>
              fold.endLine <= LineOf(text, pairs[|pairs| - 1].close)
  {
    if pairs != [] {
      var init := pairs[..|pairs| - 1];
      CrossingAscends(text, init);
      if init != [] {
        LineOfMonotone(text, init[|init| - 1].close, pairs[|pairs| - 1].close);
      }
      hide LineOf;
    }
  }

  lemma {:induction false} CrossingIsExact(text: string, pairs: seq<Pair>)
    requires Within(text, pairs)
    ensures forall fold: Fold :: fold in Crossing(text, pairs) <==>
              fold.startLine < fold.endLine && exists m: nat :: FoldOfPair(text, pairs, m, fold)
  {
    hide LineOf;
    if pairs != [] {
      var init, last := pairs[..|pairs| - 1], pairs[|pairs| - 1];
      CrossingIsExact(text, init);
      forall fold: Fold, m: nat | FoldOfPair(text, init, m, fold) ensures FoldOfPair(text, pairs, m, fold) {
      }
      forall fold: Fold, m: nat | FoldOfPair(text, pairs, m, fold)
        ensures m == |pairs| - 1 || FoldOfPair(text, init, m, fold)
      {
      }
      assert FoldOfPair(text, pairs, |pairs| - 1, Fold(LineOf(text, last.open), LineOf(text, last.close)));
    }
  }

  // What a character is to the scan: a line break, a bracket of one of three kinds, or nothing.
  datatype Class = LineBreak | Bracket(kind: nat, opens: bool) | Plain

  function Classify(ch: char): (c: Class)
    ensures c.Bracket? ==> c.kind < 3
    ensures c.Bracket? && c.opens ==> IsOpener(ch) && ch == OpenerOfKind(c.kind)
    ensures c.Bracket? && !c.opens ==> IsCloser(ch) && OpenerOf(ch) == OpenerOfKind(c.kind)
    ensures !c.Bracket? ==> !IsOpener(ch) && !IsCloser(ch)
  {
    match ch
    case '\n' => LineBreak
    case '{' => Bracket(0, true)
    case '}' => Bracket(0, false)
    case '[' => Bracket(1, true)
    case ']' => Bracket(1, false)
    case '(' => Bracket(2, true)
    case ')' => Bracket(2, false)
    case _ => Plain
  }

  function OpenerOfKind(kind: nat): (ch: char)
    ensures IsOpener(ch)
  {
    if kind == 0 then '{' else if kind == 1 then '[' else '('
  }

  // One kind's stack of open lines after a scan of the first i characters.
  ghost function LinesAt(text: string, kind: nat, i: nat): (lines: seq<nat>)
    requires i <= |text|
  {
    var offsets := StackAt(text, OpenerOfKind(kind), i);
    seq(|offsets|, m requires 0 <= m < |offsets| => LineOf(text, offsets[m]))
  }

  ghost function NextLines(lines: seq<nat>, role: Class, kind: nat, line: nat): seq<nat> {
    if !role.Bracket? || role.kind != kind then lines
    else if role.opens then lines + [line]
    else if lines != [] then lines[..|lines| - 1]
    else lines
  }

  lemma {:induction false} LinesStep(text: string, kind: nat, i: nat)
    requires i < |text| && kind < 3
    ensures LinesAt(text, kind, i + 1) ==
            NextLines(LinesAt(text, kind, i), Classify(text[i]), kind, LineOf(text, i))
  {
    assert text[i] == CloserOf(OpenerOfKind(kind)) ==> IsCloser(text[i]);
  }

  // The folds a scan of the first i characters leaves.
  ghost function FoldsAt(text: string, i: nat): (folds: seq<Fold>)
    requires i <= |text|
  {
    Crossing(text, Pops(text, i))
  }

  ghost function NextFolds(folds: seq<Fold>, role: Class, lines: seq<nat>, line: nat): seq<Fold> {
    if role.Bracket? && !role.opens && lines != [] && lines[|lines| - 1] < line
    then folds + [Fold(lines[|lines| - 1], line)]
    else folds
  }

  lemma {:induction false} FoldsStep(text: string, i: nat)
    requires i < |text|
    ensures var role := Classify(text[i]);
            var lines := if role.Bracket? then LinesAt(text, role.kind, i) else [];
            FoldsAt(text, i + 1) == NextFolds(FoldsAt(text, i), role, lines, LineOf(text, i))
  {
    var before, after := Pops(text, i), Pops(text, i + 1);
    var role := Classify(text[i]);
    if role.Bracket? && !role.opens && LinesAt(text, role.kind, i) != [] {
      assert after[..|after| - 1] == before;
    } else {
      assert after == before;
    }
  }

  lemma {:induction false} ScanStep(text: string, i: nat)
    requires i < |text|
    ensures LineOf(text, i + 1) == LineOf(text, i) + if Classify(text[i]).LineBreak? then 1 else 0
    ensures forall kind :: 0 <= kind < 3 ==>
              LinesAt(text, kind, i + 1) ==
              NextLines(LinesAt(text, kind, i), Classify(text[i]), kind, LineOf(text, i))
    ensures var role := Classify(text[i]);
            var lines := if role.Bracket? then LinesAt(text, role.kind, i) else [];
            FoldsAt(text, i + 1) == NextFolds(FoldsAt(text, i), role, lines, LineOf(text, i))
  {
    hide LinesAt, FoldsAt;
    FoldsStep(text, i);
    forall kind | 0 <= kind < 3 {
      LinesStep(text, kind, i);
    }
  }

  lemma ScanStart(text: string)
    ensures LineOf(text, 0) == 0 && FoldsAt(text, 0) == []
    ensures forall kind :: 0 <= kind < 3 ==> LinesAt(text, kind, 0) == []
  {
  }

  // The fold scan, one stack of open lines per bracket kind.
  method BracketFolds(text: string) returns (folds: seq<Fold>)
    ensures forall fold: Fold :: fold in folds <==> IsBracketFold(text, fold)
    ensures EndsAscend(folds)
  {
    hide LinesAt, FoldsAt, LineOf, Classify;
    ScanStart(text);
    folds := [];
    var open: seq<seq<nat>> := [[], [], []];
    var lineIdx := 0;
    for i := 0 to |text|
      invariant lineIdx == LineOf(text, i)
      invariant |open| == 3 && forall kind :: 0 <= kind < 3 ==> open[kind] == LinesAt(text, kind, i)
      invariant folds == FoldsAt(text, i)
    {
      ScanStep(text, i);
      match Classify(text[i]) {
        case LineBreak =>
          lineIdx := lineIdx + 1;
        case Plain =>
        case Bracket(kind, opens) =>
          if opens {
            open := open[kind := open[kind] + [lineIdx]];
          } else if open[kind] != [] {
            var startLine := open[kind][|open[kind]| - 1];
            open := open[kind := open[kind][..|open[kind]| - 1]];
            if startLine < lineIdx {
              folds := folds + [Fold(startLine, lineIdx)];
            }
          }
      }
    }
    ScanFindsBracketFolds(text);
  }

  lemma {:induction false} ScanFindsBracketFolds(text: string)
    ensures forall fold: Fold :: fold in FoldsAt(text, |text|) <==> IsBracketFold(text, fold)
    ensures EndsAscend(FoldsAt(text, |text|))
  {
    var pairs := Pops(text, |text|);
    PopsAreTheMatches(text, |text|);
    CrossingIsExact(text, pairs);
    CrossingAscends(text, pairs);
    forall fold: Fold | IsBracketFold(text, fold) ensures exists m: nat :: FoldOfPair(text, pairs, m, fold) {
      var p: nat, q: nat :| Matched(text, p, q) && fold == Fold(LineOf(text, p), LineOf(text, q));
      assert Pair(p, q) in pairs;
      var m :| 0 <= m < |pairs| && pairs[m] == Pair(p, q);
      assert FoldOfPair(text, pairs, m, fold);
    }
    forall fold: Fold, m: nat | fold.startLine < fold.endLine && FoldOfPair(text, pairs, m, fold)
      ensures IsBracketFold(text, fold)
    {
      assert Pair(pairs[m].open, pairs[m].close) in pairs;
    }
  }

  // ---- indent folds -------------------------------------------------------------------------

  // What a line adds, or nothing for a blank one.
  method ScanLine(line: string, tabSize: nat) returns (r: Option<LineInfo>)
    ensures r == InfoOf(line, tabSize, true)
  {
    var indent, inIndent := 0, true;
    var last: Option<nat> := None;
    for i := 0 to |line|
      invariant indent == ColumnAfter(line, if inIndent then i else IndentLength(line), tabSize)
      invariant inIndent ==> i <= IndentLength(line)
      invariant last == LastVisible(line, i, true)
    {
      IndentIsPrefix(line, i);
      var ch := line[i];
      if inIndent {
        match ch
        case ' ' => indent := indent + 1;
        case '\t' => indent := if tabSize > 0 then indent + (tabSize - indent % tabSize) else indent + 1;
        case _ => inIndent := false;
      }
      if !IsWhitespace(ch) && ch != BYTE_ORDER_MARK {
        last := Some(i);
      }
    }
    r := match last
      case None => None
      case Some(i) => Some(LineInfo(indent, line[i]));
  }

  lemma IndentIsPrefix(line: string, i: nat)
    requires i < |line|
    ensures i < IndentLength(line) ==> IsIndent(line[i])
    ensures i == IndentLength(line) ==> !IsIndent(line[i])
  {
  }

  // A line ending in ':' folds over its run, up to the run's last content line.
  ghost predicate IsIndentFold(infos: seq<Option<LineInfo>>, fold: Fold) {
    && fold.startLine < fold.endLine < |infos|
    && infos[fold.startLine].Some? && infos[fold.startLine].value.last == ':'
    && fold.endLine == LastContent(infos, fold.startLine, RunEnd(infos, fold.startLine, |infos|))
  }

  datatype Open = Open(start: nat, indent: nat)

  ghost predicate InStack(open: seq<Open>, s: nat) {
    exists m :: 0 <= m < |open| && open[m].start == s
  }

  // The lines above k whose run is still open at k, less those at least as deep as `below`, lie on
  // the stack, strictly deepening.
  ghost predicate OpenHolds(infos: seq<Option<LineInfo>>, open: seq<Open>, k: nat, below: Option<nat>)
    requires k <= |infos|
  {
    && (forall m, n :: 0 <= m < n < |open| ==>
          open[m].start < open[n].start && open[m].indent < open[n].indent)
    && (forall m :: 0 <= m < |open| ==>
          && open[m].start < k && infos[open[m].start] == Some(LineInfo(open[m].indent, ':'))
          && RunEnd(infos, open[m].start, k) == k)
    && (forall s: nat :: s < k && infos[s].Some? && infos[s].value.last == ':' &&
          RunEnd(infos, s, k) == k && (below.Some? ==> infos[s].value.indent < below.value)
          ==> InStack(open, s))
  }

  // The folds of the runs closed above k, and of the open ones off the stack.
  ghost predicate FoldsHold(infos: seq<Option<LineInfo>>, open: seq<Open>, folds: seq<Fold>, k: nat)
    requires k <= |infos|
  {
    && (forall fold: Fold :: fold in folds <==>
          && IsIndentFold(infos, fold) && fold.startLine < k
          && (RunEnd(infos, fold.startLine, k) == k ==> !InStack(open, fold.startLine)))
    && (forall m, n :: 0 <= m < n < |folds| ==> folds[m].startLine != folds[n].startLine)
  }

  function Closed(folds: seq<Fold>, start: nat, end: nat): seq<Fold> {
    if end > start then folds + [Fold(start, end)] else folds
  }

  // Taking the line whose run ends at k off the stack adds its fold.
  lemma {:induction false} CloseStep(infos: seq<Option<LineInfo>>, open: seq<Open>, rest: seq<Open>,
                                     folds: seq<Fold>, start: nat, k: nat)
    requires k <= |infos| && FoldsHold(infos, open, folds, k)
    requires start < k && infos[start].Some? && infos[start].value.last == ':'
    requires InStack(open, start) && RunEnd(infos, start, k) == RunEnd(infos, start, |infos|) == k
    requires forall s: nat :: InStack(rest, s) <==> InStack(open, s) && s != start
    ensures FoldsHold(infos, rest, Closed(folds, start, LastContent(infos, start, k)), k)
  {
    hide InStack;
  }

  // The stack read to line k, popped while a content line there is not deeper than the top.
  lemma {:induction false} PopStep(infos: seq<Option<LineInfo>>, open: seq<Open>, folds: seq<Fold>, k: nat)
    requires k < |infos| && infos[k].Some? && open != []
    requires infos[k].value.indent <= open[|open| - 1].indent
    requires OpenHolds(infos, open, k, Some(infos[k].value.indent)) && FoldsHold(infos, open, folds, k)
    ensures var top, rest := open[|open| - 1], open[..|open| - 1];
            && OpenHolds(infos, rest, k, Some(infos[k].value.indent))
            && FoldsHold(infos, rest, Closed(folds, top.start, LastContent(infos, top.start, k)), k)
  {
    var top, rest := open[|open| - 1], open[..|open| - 1];
    forall s: nat ensures InStack(rest, s) <==> InStack(open, s) && s != top.start {
      if InStack(open, s) && s != top.start {
        var m :| 0 <= m < |open| && open[m].start == s;
        assert rest[m].start == s;
      }
    }
    assert Closes(infos, top.start, k) && RunEnd(infos, top.start, k + 1) == k;
    RunEndGrows(infos, top.start, k + 1, |infos|);
    CloseStep(infos, open, rest, folds, top.start, k);
  }

  // The stack once line k is read too, pushed if it ends in ':'.
  function Read(open: seq<Open>, k: nat, info: LineInfo): seq<Open> {
    if info.last == ':' then open + [Open(k, info.indent)] else open
  }

  lemma ReadAddsItsLine(open: seq<Open>, k: nat, info: LineInfo)
    ensures forall s: nat :: InStack(Read(open, k, info), s) <==> InStack(open, s) || (s == k && info.last == ':')
  {
    var next := Read(open, k, info);
    forall s: nat | InStack(open, s) ensures InStack(next, s) {
      var m :| 0 <= m < |open| && open[m].start == s;
      assert next[m].start == s;
    }
    if info.last == ':' {
      assert next[|open|].start == k;
    }
  }

  lemma {:induction false} DeeperLineKeepsRunsOpen(infos: seq<Option<LineInfo>>, open: seq<Open>, k: nat)
    requires k < |infos| && infos[k].Some? && (open != [] ==> open[|open| - 1].indent < infos[k].value.indent)
    requires OpenHolds(infos, open, k, Some(infos[k].value.indent))
    ensures forall m :: 0 <= m < |open| ==>
              open[m].indent < infos[k].value.indent && RunEnd(infos, open[m].start, k + 1) == k + 1
    ensures forall s: nat :: InStack(open, s) ==> s < k && RunEnd(infos, s, k + 1) == k + 1
  {
  }

  lemma {:induction false} ReadKeepsTheStack(infos: seq<Option<LineInfo>>, open: seq<Open>, k: nat)
    requires k < |infos| && infos[k].Some? && (open != [] ==> open[|open| - 1].indent < infos[k].value.indent)
    requires OpenHolds(infos, open, k, Some(infos[k].value.indent))
    ensures OpenHolds(infos, Read(open, k, infos[k].value), k + 1, None)
  {
    ReadAddsItsLine(open, k, infos[k].value);
    DeeperLineKeepsRunsOpen(infos, open, k);
    hide InStack, RunEnd;
    forall s: nat | s < k && infos[s].Some? && infos[s].value.last == ':' && RunEnd(infos, s, k + 1) == k + 1
      ensures InStack(open, s)
    {
      RunEndNext(infos, s, k);
    }
  }

  lemma RunEndNext(infos: seq<Option<LineInfo>>, s: nat, k: nat)
    requires s < k < |infos|
    ensures RunEnd(infos, s, k + 1) ==
            var b := RunEnd(infos, s, k);
            if b < k then b else if Closes(infos, s, k) then k else k + 1
  {
  }

  lemma {:induction false} ReadKeepsTheFolds(infos: seq<Option<LineInfo>>, open: seq<Open>, folds: seq<Fold>, k: nat)
    requires k < |infos| && infos[k].Some? && FoldsHold(infos, open, folds, k)
    requires forall s: nat :: InStack(open, s) ==> s < k && RunEnd(infos, s, k + 1) == k + 1
    requires OpenHolds(infos, Read(open, k, infos[k].value), k + 1, None)
    ensures FoldsHold(infos, Read(open, k, infos[k].value), folds, k + 1)
  {
  }

  lemma {:induction false} BlankStep(infos: seq<Option<LineInfo>>, open: seq<Open>, folds: seq<Fold>, k: nat)
    requires k < |infos| && infos[k].None?
    requires OpenHolds(infos, open, k, None) && FoldsHold(infos, open, folds, k)
    ensures OpenHolds(infos, open, k + 1, None) && FoldsHold(infos, open, folds, k + 1)
  {
  }

  lemma ScanStarts(infos: seq<Option<LineInfo>>)
    ensures OpenHolds(infos, [], 0, None) && FoldsHold(infos, [], [], 0)
  {
  }

  lemma ScanEnds(infos: seq<Option<LineInfo>>, folds: seq<Fold>)
    requires FoldsHold(infos, [], folds, |infos|)
    ensures forall fold: Fold :: fold in folds <==> IsIndentFold(infos, fold)
    ensures forall m, n :: 0 <= m < n < |folds| ==> folds[m].startLine != folds[n].startLine
  {
  }

  lemma FewerAreAsked(infos: seq<Option<LineInfo>>, open: seq<Open>, k: nat, below: nat)
    requires k <= |infos| && OpenHolds(infos, open, k, None)
    ensures OpenHolds(infos, open, k, Some(below))
  {
    hide InStack, RunEnd;
  }

  // What is still open at the end is closed from the bottom of the stack up.
  lemma {:induction false} EndStep(infos: seq<Option<LineInfo>>, open: seq<Open>, m: nat, folds: seq<Fold>)
    requires OpenHolds(infos, open, |infos|, None) && m < |open|
    requires FoldsHold(infos, open[m..], folds, |infos|)
    ensures open[m].start < |infos| && infos[open[m].start].Some?
    ensures FoldsHold(infos, open[m + 1..],
                      Closed(folds, open[m].start, LastContent(infos, open[m].start, |infos|)), |infos|)
  {
  }

  // The indent scan, one stack of open ':' lines.
  method IndentFolds(text: string, tabSize: nat) returns (folds: seq<Fold>)
    ensures forall fold: Fold :: fold in folds <==> IsIndentFold(InfosOf(text, tabSize, true), fold)
    ensures forall m, n :: 0 <= m < n < |folds| ==> folds[m].startLine != folds[n].startLine
  {
    hide OpenHolds, FoldsHold, IsIndentFold, RunEnd, InfosOf, InfoOf, LineAt, LineCount;
    ghost var infos := InfosOf(text, tabSize, true);
    ScanStarts(infos);
    folds := [];
    var open: seq<Open> := [];
    var lastContent := 0;
    var lines := LineCount(text);
    for k := 0 to lines
      invariant OpenHolds(infos, open, k, None) && FoldsHold(infos, open, folds, k)
      invariant forall s: nat :: s < k && infos[s].Some? ==> lastContent == LastContent(infos, s, k)
    {
      var info := ScanLine(LineAt(text, k), tabSize);
      InfosAt(text, tabSize, true, k);
      if info.None? {
        BlankStep(infos, open, folds, k);
        continue;
      }
      var indent := info.value.indent;
      FewerAreAsked(infos, open, k, indent);
      while open != [] && indent <= open[|open| - 1].indent
        invariant OpenHolds(infos, open, k, Some(indent)) && FoldsHold(infos, open, folds, k)
      {
        PopStep(infos, open, folds, k);
        var start := open[|open| - 1].start;
        open := open[..|open| - 1];
        folds := Closed(folds, start, lastContent);
      }
      ReadKeepsTheStack(infos, open, k);
      DeeperLineKeepsRunsOpen(infos, open, k);
      ReadKeepsTheFolds(infos, open, folds, k);
      if info.value.last == ':' {
        open := open + [Open(k, indent)];
      }
      lastContent := k;
    }
    for m := 0 to |open|
      invariant FoldsHold(infos, open[m..], folds, lines)
    {
      EndStep(infos, open, m, folds);
      folds := Closed(folds, open[m].start, lastContent);
    }
    assert open[|open|..] == [];
    ScanEnds(infos, folds);
  }

  // Line t, below s, has content that is deeper than s.
  ghost predicate Deeper(infos: seq<Option<LineInfo>>, s: nat, t: nat) {
    s < t < |infos| && infos[s].Some? && infos[t].Some? && infos[t].value.indent > infos[s].value.indent
  }

  // An indent fold, said without a scan: all content from the ':' line to the fold's end is
  // deeper than it, and the next content line, if there is one, is not.
  lemma {:induction false} IndentFoldMeaning(infos: seq<Option<LineInfo>>, s: nat, e: nat)
    ensures IsIndentFold(infos, Fold(s, e)) <==>
            && s < e < |infos| && infos[s].Some? && infos[s].value.last == ':'
            && (forall t: nat :: s < t <= e && infos[t].Some? ==> infos[t].value.indent > infos[s].value.indent)
            && infos[e].Some?
            && (forall t: nat :: e < t < |infos| && infos[t].Some? && (forall u: nat :: e < u < t ==> infos[u].None?)
                  ==> infos[t].value.indent <= infos[s].value.indent)
  {
    if s < |infos| && infos[s].Some? {
      var b := RunEnd(infos, s, |infos|);
      var last := LastContent(infos, s, b);
      forall t: nat | s < t < |infos| && infos[t].Some? ensures Closes(infos, s, t) <==> !Deeper(infos, s, t) {
      }
      if && s < e < |infos| && infos[e].Some? && (forall t: nat :: s < t <= e && infos[t].Some? ==> Deeper(infos, s, t))
         && (forall t: nat :: e < t < |infos| && infos[t].Some? && (forall u: nat :: e < u < t ==> infos[u].None?)
               ==> !Deeper(infos, s, t)) {
        assert e < b;
        if e < last {
          var t := FirstContent(infos, e, last);
        }
      }
    }
  }

  lemma FirstContent(infos: seq<Option<LineInfo>>, e: nat, last: nat) returns (t: nat)
    requires e < last < |infos| && infos[last].Some?
    ensures e < t <= last && infos[t].Some? && forall u: nat :: e < u < t ==> infos[u].None?
  {
    t := e + 1;
    while infos[t].None?
      invariant e < t <= last && forall u: nat :: e < u < t ==> infos[u].None?
      decreases last - t
    {
      t := t + 1;
    }
  }

  // Any two indent folds are nested or disjoint.
  lemma {:induction false} IndentFoldsNest(infos: seq<Option<LineInfo>>, outer: Fold, inner: Fold)
    requires IsIndentFold(infos, outer) && IsIndentFold(infos, inner) && outer.startLine < inner.startLine
    ensures outer.endLine < inner.startLine || inner.endLine <= outer.endLine
  {
    if inner.startLine <= outer.endLine {
      var n := |infos|;
      var b := RunEnd(infos, outer.startLine, n);
      assert !Closes(infos, outer.startLine, inner.startLine);
      if b < n {
        assert Closes(infos, inner.startLine, b);
      }
      assert RunEnd(infos, inner.startLine, n) <= b;
    }
  }

  // ---- both kinds ---------------------------------------------------------------------------

  ghost predicate IsFold(text: string, tabSize: nat, fold: Fold) {
    IsBracketFold(text, fold) || IsIndentFold(InfosOf(text, tabSize, true), fold)
  }

  ghost predicate StartsAscend(folds: seq<Fold>) {
    forall m, n :: 0 <= m < n < |folds| ==> folds[m].startLine < folds[n].startLine
  }

  // The smallest fold of its start line.
  ghost predicate IsSmallestFold(text: string, tabSize: nat, fold: Fold) {
    IsFold(text, tabSize, fold) &&
    forall e: nat :: IsFold(text, tabSize, Fold(fold.startLine, e)) ==> fold.endLine <= e
  }

  // The first bracket fold of a line, in the order the scan found them, ends soonest.
  ghost predicate SoonestOf(folds: seq<Fold>, ends: map<nat, nat>) {
    && (forall fold: Fold :: fold in folds ==> fold.startLine in ends && ends[fold.startLine] <= fold.endLine)
    && (forall s: nat :: s in ends ==> Fold(s, ends[s]) in folds)
  }

  method FirstEnds(folds: seq<Fold>) returns (ends: map<nat, nat>)
    requires EndsAscend(folds)
    ensures SoonestOf(folds, ends)
  {
    ends := map[];
    for m := 0 to |folds|
      invariant SoonestOf(folds[..m], ends)
    {
      var fold := folds[m];
      assert folds[..m + 1] == folds[..m] + [fold];
      if fold.startLine !in ends {
        ends := ends[fold.startLine := fold.endLine];
      } else {
        var first := Fold(fold.startLine, ends[fold.startLine]);
        assert first in folds[..m];
      }
    }
    assert folds[..|folds|] == folds;
  }

  method SmallerEnds(folds: seq<Fold>, earlier: seq<Fold>, firstEnds: map<nat, nat>) returns (ends: map<nat, nat>)
    requires SoonestOf(earlier, firstEnds)
    ensures SoonestOf(earlier + folds, ends)
  {
    ends := firstEnds;
    assert earlier + folds[..0] == earlier;
    for m := 0 to |folds|
      invariant SoonestOf(earlier + folds[..m], ends)
    {
      var fold := folds[m];
      assert earlier + folds[..m + 1] == (earlier + folds[..m]) + [fold];
      if fold.startLine !in ends || fold.endLine < ends[fold.startLine] {
        ends := ends[fold.startLine := fold.endLine];
      }
    }
    assert folds[..|folds|] == folds;
  }

  method SortedByStart(ends: map<nat, nat>) returns (folds: seq<Fold>)
    ensures StartsAscend(folds)
    ensures forall fold: Fold :: fold in folds <==> fold.startLine in ends && ends[fold.startLine] == fold.endLine
  {
    folds := [];
    var left := ends.Keys;
    while left != {}
      invariant left <= ends.Keys && StartsAscend(folds)
      invariant forall fold: Fold :: fold in folds <==>
                  fold.startLine in ends && fold.startLine !in left && ends[fold.startLine] == fold.endLine
      decreases |left|
    {
      var s :| s in left;
      left := left - {s};
      var at := 0;
      while at < |folds| && folds[at].startLine < s
        invariant 0 <= at <= |folds| && forall m :: 0 <= m < at ==> folds[m].startLine < s
      {
        at := at + 1;
      }
      assert forall m :: 0 <= m < |folds| ==> folds[m] in folds;
      folds := Inserted(folds, at, Fold(s, ends[s]));
    }
  }

  function Inserted(folds: seq<Fold>, at: nat, fold: Fold): (r: seq<Fold>)
    requires at <= |folds| && StartsAscend(folds)
    requires forall m :: 0 <= m < at ==> folds[m].startLine < fold.startLine
    requires at < |folds| ==> fold.startLine < folds[at].startLine
    ensures StartsAscend(r) && forall f: Fold :: f in r <==> f in folds || f == fold
  {
    folds[..at] + [fold] + folds[at..]
  }

  // Every fold of a document, by start line: the smallest for each line that has one.
  method ComputeAll(text: string, tabSize: nat) returns (folds: seq<Fold>)
    ensures StartsAscend(folds)
    ensures forall fold: Fold :: fold in folds <==> IsSmallestFold(text, tabSize, fold)
  {
    var brackets := BracketFolds(text);
    var ends := FirstEnds(brackets);
    var indents := IndentFolds(text, tabSize);
    ends := SmallerEnds(indents, brackets, ends);
    folds := SortedByStart(ends);
    forall fold: Fold ensures fold in brackets + indents <==> IsFold(text, tabSize, fold) {
    }
    hide IsFold;
    SoonestIsSmallest(text, tabSize, brackets + indents, ends);
  }

  lemma SoonestIsSmallest(text: string, tabSize: nat, all: seq<Fold>, ends: map<nat, nat>)
    requires SoonestOf(all, ends)
    requires forall fold: Fold :: fold in all <==> IsFold(text, tabSize, fold)
    ensures forall fold: Fold ::
              fold.startLine in ends && ends[fold.startLine] == fold.endLine <==> IsSmallestFold(text, tabSize, fold)
  {
  }

  // A line that starts any fold keeps one: the result hides no foldable line.
  lemma {:induction false} EveryFoldLineKeepsOne(text: string, tabSize: nat, fold: Fold)
    requires IsFold(text, tabSize, fold)
    ensures exists e: nat :: e <= fold.endLine && IsSmallestFold(text, tabSize, Fold(fold.startLine, e))
    decreases fold.endLine
  {
    if !IsSmallestFold(text, tabSize, fold) {
      var e: nat :| IsFold(text, tabSize, Fold(fold.startLine, e)) && e < fold.endLine;
      EveryFoldLineKeepsOne(text, tabSize, Fold(fold.startLine, e));
    }
  }

  // ---- what a fold is -------------------------------------------------------------------------

  // The lines of a matched pair are a fold exactly if they differ.
  lemma PairFoldsOverLines(text: string, tabSize: nat, p: nat, q: nat)
    requires Matched(text, p, q)
    ensures LineOf(text, p) <= LineOf(text, q)
    ensures IsBracketFold(text, Fold(LineOf(text, p), LineOf(text, q))) <==> LineOf(text, p) < LineOf(text, q)
    ensures LineOf(text, p) < LineOf(text, q) ==> IsFold(text, tabSize, Fold(LineOf(text, p), LineOf(text, q)))
  {
    LineOfMonotone(text, p, q);
  }

  // A fold kept is one of the two kinds, and no fold of either kind from its line ends sooner.
  lemma {:induction false} KeptFoldIsSmallest(text: string, tabSize: nat, fold: Fold)
    requires IsSmallestFold(text, tabSize, fold)
    ensures fold.startLine < fold.endLine
    ensures IsIndentFold(InfosOf(text, tabSize, true), fold) ||
            exists p: nat, q: nat ::
              Matched(text, p, q) && LineOf(text, p) == fold.startLine && LineOf(text, q) == fold.endLine
    ensures forall e: nat :: IsIndentFold(InfosOf(text, tabSize, true), Fold(fold.startLine, e)) ==> fold.endLine <= e
    ensures forall p: nat, q: nat :: Matched(text, p, q) && LineOf(text, p) == fold.startLine < LineOf(text, q) ==>
              fold.endLine <= LineOf(text, q)
  {
    hide IsIndentFold, InfosOf, LineOf, Net;
    forall p: nat, q: nat | Matched(text, p, q) && LineOf(text, p) == fold.startLine < LineOf(text, q)
      ensures fold.endLine <= LineOf(text, q)
    {
      PairFoldsOverLines(text, tabSize, p, q);
    }
    assert fold.startLine < fold.endLine by {
      if IsIndentFold(InfosOf(text, tabSize, true), fold) {
        IndentFoldMeaning(InfosOf(text, tabSize, true), fold.startLine, fold.endLine);
      }
    }
  }
}
