/**
 * Bracket pairs of one document. `Matched` is the reference definition; the editor's two depth
 * scans, the horizon-bounded scan of the guides and the stack scan of the folds are all proved
 * against it.
 */
module Brackets {
  import opened Options
  import opened Text

  predicate IsOpener(ch: char) { ch == '{' || ch == '[' || ch == '(' }

  predicate IsCloser(ch: char) { ch == '}' || ch == ']' || ch == ')' }

  function CloserOf(open: char): char
    requires IsOpener(open)
  {
    if open == '{' then '}' else if open == '[' then ']' else ')'
  }

  function OpenerOf(close: char): char
    requires IsCloser(close)
  {
    if close == '}' then '{' else if close == ']' then '[' else '('
  }

  function Weight(open: char, ch: char): int
    requires IsOpener(open)
  {
    if ch == open then 1 else if ch == CloserOf(open) then -1 else 0
  }

  // Openers minus closers of one kind in text[i..j].
  ghost function Net(text: string, open: char, i: nat, j: nat): int
    requires IsOpener(open) && i <= j <= |text|
    decreases j
  {
    if i == j then 0 else Net(text, open, i, j - 1) + Weight(open, text[j - 1])
  }

  // Read from offset i on, closers never outnumber openers before offset j.
  ghost predicate NeverDips(text: string, open: char, i: nat, j: nat)
    requires IsOpener(open) && i <= j <= |text|
  {
    forall k: nat :: i <= k <= j ==> Net(text, open, i, k) >= 0
  }

  // No closer before offset i ends the bracket opened at p.
  ghost predicate Unclosed(text: string, p: nat, i: nat)
    requires i <= |text|
  {
    p < i && IsOpener(text[p]) && NeverDips(text, text[p], p + 1, i)
  }

  // The bracket opened at p is closed at q: what lies between is balanced and never dips.
  ghost predicate Matched(text: string, p: nat, q: nat) {
    q < |text| && Unclosed(text, p, q) && text[q] == CloserOf(text[p]) &&
    Net(text, text[p], p + 1, q) == 0
  }

  // Partners, seen from either end.
  ghost predicate Paired(text: string, a: nat, b: nat) {
    Matched(text, a, b) || Matched(text, b, a)
  }

  lemma NetSplit(text: string, open: char, i: nat, k: nat, j: nat)
    requires IsOpener(open) && i <= k <= j <= |text|
    ensures Net(text, open, i, j) == Net(text, open, i, k) + Net(text, open, k, j)
    decreases j
  {
  }

  // Past its closer an opener is no longer unclosed, so no later closer is its partner.
  lemma {:induction false} FirstCloserWins(text: string, p: nat, q: nat, later: nat)
    requires Matched(text, p, q) && q < later
    ensures !Matched(text, p, later)
  {
    assert later < |text| ==> Net(text, text[p], p + 1, q + 1) == -1;
  }

  // Read backwards from offset j, openers never outnumber closers down to offset i.
  ghost predicate NeverRises(text: string, open: char, i: nat, j: nat)
    requires IsOpener(open) && i <= j <= |text|
  {
    forall k: nat :: i <= k <= j ==> Net(text, open, k, j) <= 0
  }

  lemma {:induction false} BalancedBothWays(text: string, open: char, i: nat, j: nat)
    requires IsOpener(open) && i <= j <= |text| && Net(text, open, i, j) == 0
    ensures NeverDips(text, open, i, j) <==> NeverRises(text, open, i, j)
  {
    forall k: nat | i <= k <= j
      ensures Net(text, open, i, k) >= 0 <==> Net(text, open, k, j) <= 0
    {
      NetSplit(text, open, i, k, j);
    }
  }

  // Read backwards from its closer, a pair is balanced the other way round.
  lemma {:induction false} MatchedBackwards(text: string, p: nat, q: nat)
    requires p < q < |text| && IsCloser(text[q])
    ensures Matched(text, p, q) <==>
            && text[p] == OpenerOf(text[q]) && Net(text, text[p], p + 1, q) == 0
            && NeverRises(text, text[p], p + 1, q)
  {
    if text[p] == OpenerOf(text[q]) && Net(text, text[p], p + 1, q) == 0 {
      BalancedBothWays(text, text[p], p + 1, q);
    }
  }

  lemma {:induction false} LastOpenerWins(text: string, p: nat, q: nat, earlier: nat)
    requires Matched(text, p, q) && earlier < p
    ensures !Matched(text, earlier, q)
  {
    var open := text[p];
    NetSplit(text, open, p, p + 1, q);
    assert Net(text, open, p, p + 1) == Net(text, open, p, p) + 1;
    MatchedBackwards(text, earlier, q);
  }

  // An opener has one closer and a closer one opener.
  lemma {:induction false} PartnerIsUnique(text: string, a: nat, b: nat)
    requires Paired(text, a, b)
    ensures forall c: nat :: Paired(text, a, c) <==> b == c
  {
    forall c: nat | Paired(text, a, c) ensures b == c {
      if Matched(text, a, b) {
        if b < c { FirstCloserWins(text, a, b, c); } else if c < b { FirstCloserWins(text, a, c, b); }
      } else {
        if b < c { LastOpenerWins(text, c, a, b); } else if c < b { LastOpenerWins(text, b, a, c); }
      }
    }
  }

  // The editor's jump to the matching bracket: a depth scan forwards from an opener, backwards
  // from a closer.
  method FindMatchingBracket(text: string, target: nat) returns (r: Option<nat>)
    ensures forall q: nat :: r == Some(q) <==> Paired(text, target, q)
  {
    if target >= |text| {
      return None;
    }
    var startCh := text[target];
    var matcher, searchForward;
    if IsOpener(startCh) {
      matcher, searchForward := CloserOf(startCh), true;
    } else if IsCloser(startCh) {
      matcher, searchForward := OpenerOf(startCh), false;
    } else {
      return None;
    }
    var depth := 1;
    if searchForward {
      var idx := target + 1;
      while idx < |text|
        invariant target < idx <= |text|
        invariant depth == 1 + Net(text, startCh, target + 1, idx) && depth >= 1
        invariant Unclosed(text, target, idx)
        invariant forall q :: target < q < idx ==> !Matched(text, target, q)
      {
        var ch := text[idx];
        if ch == startCh {
          depth := depth + 1;
        } else if ch == matcher {
          depth := depth - 1;
          if depth == 0 {
            PartnerIsUnique(text, target, idx);
            return Some(idx);
          }
        }
        idx := idx + 1;
      }
    } else {
      var idx := target;
      assert Net(text, matcher, idx, target) == 0;
      while idx > 0
        invariant 0 <= idx <= target
        invariant depth == 1 - Net(text, matcher, idx, target) && depth >= 1
        invariant NeverRises(text, matcher, idx, target)
        invariant forall p :: idx <= p < target ==> !Matched(text, p, target)
      {
        idx := idx - 1;
        var ch := text[idx];
        NetSplit(text, matcher, idx, idx + 1, target);
        assert Net(text, matcher, idx, idx + 1) == Net(text, matcher, idx, idx) + Weight(matcher, ch);
        MatchedBackwards(text, idx, target);
        if ch == startCh {
          depth := depth + 1;
        } else if ch == matcher {
          depth := depth - 1;
          if depth == 0 {
            PartnerIsUnique(text, target, idx);
            return Some(idx);
          }
        }
      }
    }
    return None;
  }

  // The guides' search: the same forward scan, giving up at an offset limit.
  method FindMatchingBracketForward(text: string, openOffset: nat, limit: nat) returns (r: Option<nat>)
    requires openOffset < |text|
    ensures forall q: nat :: r == Some(q) <==> Matched(text, openOffset, q) && q < limit
  {
    var open := text[openOffset];
    if !IsOpener(open) {
      return None;
    }
    var close := CloserOf(open);
    var depth, idx := 1, openOffset + 1;
    while idx < |text|
      invariant openOffset < idx <= |text|
      invariant depth == 1 + Net(text, open, openOffset + 1, idx) && depth >= 1
      invariant Unclosed(text, openOffset, idx)
      invariant forall q :: openOffset < q < idx ==> !Matched(text, openOffset, q)
    {
      if idx >= limit {
        break;
      }
      if text[idx] == open {
        depth := depth + 1;
      } else if text[idx] == close {
        depth := depth - 1;
        if depth == 0 {
          forall q: nat | Matched(text, openOffset, q) ensures q == idx {
            PartnerIsUnique(text, openOffset, idx);
            assert Paired(text, openOffset, q);
          }
          return Some(idx);
        }
      }
      idx := idx + 1;
    }
    return None;
  }

  // ---- the stack scan -----------------------------------------------------------------------

  // Innermost last, each opener as deep as the openers above it are many.
  ghost predicate StackNests(text: string, open: char, stack: seq<nat>, i: nat)
    requires IsOpener(open) && i <= |text|
  {
    && (forall m, n :: 0 <= m < n < |stack| ==> stack[m] < stack[n])
    && (forall m :: 0 <= m < |stack| ==>
          && Unclosed(text, stack[m], i) && text[stack[m]] == open
          && Net(text, open, stack[m] + 1, i) == |stack| - 1 - m)
  }

  // What a per-kind stack holds once the offsets before i are read: exactly the unclosed openers.
  ghost predicate StackHolds(text: string, open: char, stack: seq<nat>, i: nat)
    requires IsOpener(open) && i <= |text|
  {
    && StackNests(text, open, stack, i)
    && (forall p: nat :: Unclosed(text, p, i) && text[p] == open ==> p in stack)
  }

  function Pushed(stack: seq<nat>, open: char, ch: char, i: nat): seq<nat>
    requires IsOpener(open)
  {
    if ch == open then stack + [i]
    else if ch == CloserOf(open) && stack != [] then stack[..|stack| - 1]
    else stack
  }

  lemma UnclosedStep(text: string, p: nat, i: nat)
    requires p < i < |text|
    ensures Unclosed(text, p, i + 1) <==>
            Unclosed(text, p, i) && Net(text, text[p], p + 1, i) + Weight(text[p], text[i]) >= 0
  {
    if IsOpener(text[p]) {
      assert Net(text, text[p], p + 1, i + 1) == Net(text, text[p], p + 1, i) + Weight(text[p], text[i]);
      assert NeverDips(text, text[p], p + 1, i + 1) ==> NeverDips(text, text[p], p + 1, i);
    }
  }

  lemma {:induction false} StackStaysNested(text: string, open: char, stack: seq<nat>, i: nat)
    requires IsOpener(open) && i < |text| && StackNests(text, open, stack, i)
    ensures StackNests(text, open, Pushed(stack, open, text[i], i), i + 1)
  {
    var next := Pushed(stack, open, text[i], i);
    forall m | 0 <= m < |next|
      ensures && Unclosed(text, next[m], i + 1) && text[next[m]] == open
              && Net(text, open, next[m] + 1, i + 1) == |next| - 1 - m
    {
      if m < |stack| {
        UnclosedStep(text, stack[m], i);
      } else {
        assert NeverDips(text, open, i + 1, i + 1);
      }
    }
  }

  // One character read: the stack stays exact.
  lemma {:induction false} StackStep(text: string, open: char, stack: seq<nat>, i: nat)
    requires IsOpener(open) && i < |text| && StackHolds(text, open, stack, i)
    ensures StackHolds(text, open, Pushed(stack, open, text[i], i), i + 1)
  {
    StackStaysNested(text, open, stack, i);
    var next := Pushed(stack, open, text[i], i);
    forall p: nat | Unclosed(text, p, i + 1) && text[p] == open ensures p in next {
      if p == i {
        assert next[|next| - 1] == i;
      } else {
        UnclosedStep(text, p, i);
        var m :| 0 <= m < |stack| && stack[m] == p;
        assert Net(text, open, p + 1, i) == |stack| - 1 - m;
        assert m < |next| && next[m] == p;
      }
    }
  }

  // A closer's partner is on top of its kind's stack; with that stack empty it has none.
  lemma {:induction false} TopIsThePartner(text: string, open: char, stack: seq<nat>, i: nat)
    requires IsOpener(open) && i < |text| && StackHolds(text, open, stack, i)
    requires text[i] == CloserOf(open)
    ensures forall p: nat :: Matched(text, p, i) <==> stack != [] && p == stack[|stack| - 1]
  {
  }

  // One kind's stack of offsets after a scan of the first i characters.
  ghost function StackAt(text: string, open: char, i: nat): (stack: seq<nat>)
    requires IsOpener(open) && i <= |text|
    ensures forall m :: 0 <= m < |stack| ==> stack[m] < i
  {
    if i == 0 then [] else Pushed(StackAt(text, open, i - 1), open, text[i - 1], i - 1)
  }

  lemma {:induction false} StackAtHolds(text: string, open: char, i: nat)
    requires IsOpener(open) && i <= |text|
    ensures StackHolds(text, open, StackAt(text, open, i), i)
  {
    hide StackHolds, Pushed, IsOpener, CloserOf;
    if i == 0 {
      EmptyStackHolds(text, open);
    } else {
      StackAtHolds(text, open, i - 1);
      StackStep(text, open, StackAt(text, open, i - 1), i - 1);
    }
  }

  lemma EmptyStackHolds(text: string, open: char)
    requires IsOpener(open)
    ensures StackHolds(text, open, [], 0)
  {
  }

  datatype Pair = Pair(open: nat, close: nat)

  // Every pop of a scan of the first i characters, in order.
  ghost function Pops(text: string, i: nat): (pairs: seq<Pair>)
    requires i <= |text|
    ensures forall m :: 0 <= m < |pairs| ==> pairs[m].open < pairs[m].close < i
    ensures forall m, n :: 0 <= m < n < |pairs| ==> pairs[m].close < pairs[n].close
  {
    if i == 0 then [] else
    Pops(text, i - 1) +
    if !IsCloser(text[i - 1]) then [] else
      var stack := StackAt(text, OpenerOf(text[i - 1]), i - 1);
      if stack == [] then [] else [Pair(stack[|stack| - 1], i - 1)]
  }

  lemma {:induction false} LastPopIsAMatch(text: string, i: nat)
    requires i < |text| && IsCloser(text[i])
    ensures var stack := StackAt(text, OpenerOf(text[i]), i);
            forall p: nat :: Matched(text, p, i) <==> stack != [] && p == stack[|stack| - 1]
  {
    var open := OpenerOf(text[i]);
    StackAtHolds(text, open, i);
    TopIsThePartner(text, open, StackAt(text, open, i), i);
  }

  // The stack scan pops exactly the matched pairs.
  lemma {:induction false} PopsAreTheMatches(text: string, i: nat)
    requires i <= |text|
    ensures forall p: nat, q: nat :: Pair(p, q) in Pops(text, i) <==> q < i && Matched(text, p, q)
  {
    hide StackAt, Net;
    if i > 0 {
      PopsAreTheMatches(text, i - 1);
      if IsCloser(text[i - 1]) {
        LastPopIsAMatch(text, i - 1);
      }
    }
  }

  // ---- what a match is, by its characters ---------------------------------------------------

  lemma PairsAreOfAKind(text: string, p: nat, q: nat)
    requires Matched(text, p, q)
    ensures p < q < |text|
    ensures (text[p] == '{' && text[q] == '}') || (text[p] == '[' && text[q] == ']') ||
            (text[p] == '(' && text[q] == ')')
  {
  }

  // With neither bracket of the kind in between, an opener and a closer match.
  lemma {:induction false} NearestIsTheMatch(text: string, p: nat, q: nat)
    requires p < q < |text|
    requires (text[p] == '{' && text[q] == '}') || (text[p] == '[' && text[q] == ']') ||
             (text[p] == '(' && text[q] == ')')
    requires forall i :: p < i < q ==> text[i] != text[p] && text[i] != text[q]
    ensures Matched(text, p, q)
  {
    var i := p + 1;
    forall k: nat | i <= k <= q
      ensures Net(text, text[p], i, k) == 0
    {
      NothingCounts(text, text[p], i, k);
    }
  }

  lemma NothingCounts(text: string, open: char, i: nat, j: nat)
    requires IsOpener(open) && i <= j <= |text|
    requires forall k :: i <= k < j ==> text[k] != open && text[k] != CloserOf(open)
    ensures Net(text, open, i, j) == 0
    decreases j
  {
  }

  // A pair around nothing but one pair of its kind matches, too.
  lemma {:induction false} OuterIsMatched(text: string, p: nat, inner: nat, innerEnd: nat, q: nat)
    requires Matched(text, inner, innerEnd) && p < inner && innerEnd < q < |text|
    requires text[p] == text[inner] && text[q] == text[innerEnd]
    requires forall i :: p < i < inner || innerEnd < i < q ==> text[i] != text[p] && text[i] != text[q]
    ensures Matched(text, p, q)
  {
    var open, i := text[p], p + 1;
    NothingCounts(text, open, i, inner);
    forall k: nat | i <= k <= q
      ensures Net(text, open, i, k) >= 0 && (k == q ==> Net(text, open, i, k) == 0)
    {
      if k <= inner {
        NothingCounts(text, open, i, k);
      } else {
        NetSplit(text, open, i, inner, k);
        NetSplit(text, open, inner, inner + 1, k);
        assert Net(text, open, inner, inner + 1) == Net(text, open, inner, inner) + 1;
        if k > innerEnd {
          NetSplit(text, open, inner + 1, innerEnd, k);
          NetSplit(text, open, innerEnd, innerEnd + 1, k);
          assert Net(text, open, innerEnd, innerEnd + 1) == Net(text, open, innerEnd, innerEnd) - 1;
          NothingCounts(text, open, innerEnd + 1, k);
        }
      }
    }
  }

  // A bracket of its kind inside a matched pair is matched inside it.
  lemma {:induction false} InnerClosesFirst(text: string, p: nat, q: nat, inner: nat)
    requires Matched(text, p, q) && p < inner < q && text[inner] == text[p]
    ensures exists innerEnd: nat :: innerEnd < q && Matched(text, inner, innerEnd)
  {
    var open := text[p];
    NetSplit(text, open, p + 1, inner, q);
    NetSplit(text, open, inner, inner + 1, q);
    assert Net(text, open, inner, inner + 1) == Net(text, open, inner, inner) + 1;
    assert Net(text, open, p + 1, inner) >= 0;
    var k := FirstDip(text, open, inner + 1, q);
    assert Net(text, open, inner + 1, k) == Net(text, open, inner + 1, k - 1) + Weight(open, text[k - 1]);
    assert Matched(text, inner, k - 1);
  }

  // Where closers first outnumber openers.
  lemma FirstDip(text: string, open: char, i: nat, j: nat) returns (k: nat)
    requires IsOpener(open) && i <= j <= |text| && Net(text, open, i, j) < 0
    ensures i < k <= j && Net(text, open, i, k) == -1 && forall l: nat :: i <= l < k ==> Net(text, open, i, l) >= 0
  {
    k := i;
    while Net(text, open, i, k) >= 0
      invariant i <= k <= j && forall l: nat :: i <= l < k ==> Net(text, open, i, l) >= 0
      decreases j - k
    {
      k := k + 1;
    }
  }
}
