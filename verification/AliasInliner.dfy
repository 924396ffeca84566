/** Writing every alias of a document out in full, in place, on a graph that shares and may loop. */
module AliasInliner {
  import opened YamlGraph

  // The graph and the walk over it, at one moment.
  datatype State = State(contents: Contents, anchored: set<Node>, visited: set<Node>, done: set<Node>)

  // From a node without an anchor, the nodes its slots lead to come earlier in some order: every
  // loop of the graph passes through an anchored node.
  ghost predicate Descends(n: Node, c: Contents, hops: map<Node, nat>, rank: map<Node, nat>)
    requires Closed(c, hops) && c.Keys <= rank.Keys && n in c
  {
    forall i :: 0 <= i < |c[n]| ==> rank[Resolved(c[n][i], c.Keys, hops)] < rank[n]
  }

  ghost predicate LoopsAreAnchored(c: Contents, anchored: set<Node>, hops: map<Node, nat>, rank: map<Node, nat>)
    requires Closed(c, hops) && c.Keys <= rank.Keys
  {
    forall n :: n in c && n !in anchored ==> Descends(n, c, hops, rank)
  }

  // The first slots of a node hold no alias, and nodes the walk has begun or is done with.
  ghost predicate SlotsWalked(s: State, n: Node, count: nat)
    requires n in s.contents
  {
    forall j :: 0 <= j < count && j < |s.contents[n]| ==>
      !IsLink(s.contents[n][j]) && s.contents[n][j] in s.done + s.visited
  }

  ghost predicate Settled(s: State, n: Node) {
    n in s.contents && n !in s.anchored && SlotsWalked(s, n, |s.contents[n]|)
  }

  ghost predicate Sound(s: State, hops: map<Node, nat>, rank: map<Node, nat>) {
    && Closed(s.contents, hops) && s.contents.Keys <= rank.Keys
    && s.visited <= s.contents.Keys && s.anchored <= s.contents.Keys && s.visited !! s.anchored
    && LoopsAreAnchored(s.contents, s.anchored + s.visited, hops, rank)
    && forall n :: n in s.done ==> Settled(s, n)
  }

  // What any stretch of the walk leaves in place. An anchor goes only as its node is visited.
  ghost predicate Later(a: State, b: State, hops: map<Node, nat>)
    requires AliasesEnd(a.contents.Keys, hops)
  {
    && SlotsKept(a.contents, b.contents, hops)
    && a.visited <= b.visited && a.done <= b.done
    && b.anchored <= a.anchored <= b.anchored + b.visited && b.visited - a.visited <= a.anchored
  }

  lemma LaterItself(s: State, hops: map<Node, nat>, rank: map<Node, nat>)
    requires Sound(s, hops, rank)
    ensures AliasesEnd(s.contents.Keys, hops) && Later(s, s, hops)
  {
  }

  lemma LaterTwice(a: State, b: State, c: State, hops: map<Node, nat>)
    requires AliasesEnd(a.contents.Keys, hops)
    requires Later(a, b, hops) && Later(b, c, hops)
    ensures Later(a, c, hops)
  {
    SlotsKeptTwice(a.contents, b.contents, c.contents, hops);
  }

  lemma {:induction false} LaterKeepsWalkedSlots(a: State, b: State, n: Node, count: nat, hops: map<Node, nat>)
    requires AliasesEnd(a.contents.Keys, hops) && n in a.contents
    requires Later(a, b, hops) && SlotsWalked(a, n, count)
    ensures SlotsWalked(b, n, count)
  {
    assert SameSlots(a.contents[n], b.contents[n], a.contents.Keys, hops);
  }

  ghost function Visit(s: State, n: Node): State {
    s.(visited := s.visited + {n}, anchored := s.anchored - {n})
  }

  lemma {:induction false} VisitStep(s: State, n: Node, hops: map<Node, nat>, rank: map<Node, nat>)
    requires Sound(s, hops, rank) && n in s.anchored
    ensures Sound(Visit(s, n), hops, rank) && Later(s, Visit(s, n), hops)
  {
  }

  ghost function Store(s: State, n: Node, i: nat, child: Node): State
    requires n in s.contents && i < |s.contents[n]|
  {
    s.(contents := s.contents[n := s.contents[n][i := child]])
  }

  lemma {:induction false} StoreStep(s: State, n: Node, i: nat, hops: map<Node, nat>, rank: map<Node, nat>)
    requires Sound(s, hops, rank) && n in s.contents && i < |s.contents[n]|
    ensures var t := Store(s, n, i, Resolved(s.contents[n][i], s.contents.Keys, hops));
            Sound(t, hops, rank) && Later(s, t, hops)
  {
    var child := Resolved(s.contents[n][i], s.contents.Keys, hops);
    var t := Store(s, n, i, child);
    assert t.contents.Keys == s.contents.Keys;
    forall m | m in t.contents && m !in t.anchored + t.visited ensures Descends(m, t.contents, hops, rank) {
      assert Descends(m, s.contents, hops, rank);
    }
    forall m | m in t.done ensures Settled(t, m) {
      LaterKeepsWalkedSlots(s, t, m, |s.contents[m]|, hops);
    }
  }

  lemma {:induction false} FinishStep(s: State, n: Node, hops: map<Node, nat>, rank: map<Node, nat>)
    requires Sound(s, hops, rank) && Settled(s, n)
    ensures var t := s.(done := s.done + {n}); Sound(t, hops, rank) && Later(s, t, hops)
  {
  }

  // What the walk of one slot needs: its node is earlier, and within the graph.
  lemma {:induction false} SlotLeadsOn(s: State, n: Node, i: nat, hops: map<Node, nat>, rank: map<Node, nat>)
    requires Sound(s, hops, rank) && n in s.contents && i < |s.contents[n]|
    ensures AliasesEnd(s.contents.Keys, hops) && s.contents.Keys <= rank.Keys && s.contents[n][i] in s.contents
    ensures n !in s.anchored + s.visited ==> rank[Resolved(s.contents[n][i], s.contents.Keys, hops)] < rank[n]
  {
    assert AllIn(s.contents[n], s.contents.Keys);
    assert n !in s.anchored + s.visited ==> Descends(n, s.contents, hops, rank);
  }

  // One slot stored and walked: one more slot is behind.
  lemma {:induction false} SlotBehind(s: State, n: Node, i: nat, t: State, hops: map<Node, nat>)
    requires AliasesEnd(s.contents.Keys, hops) && n in s.contents && i < |s.contents[n]|
    requires SlotsWalked(s, n, i) && Later(s, t, hops)
    requires !IsLink(s.contents[n][i]) && s.contents[n][i] in t.done + t.visited
    ensures SlotsWalked(t, n, i + 1) && |t.contents[n]| == |s.contents[n]|
  {
    LaterKeepsWalkedSlots(s, t, n, i, hops);
    assert SameSlots(s.contents[n], t.contents[n], s.contents.Keys, hops);
  }

  ghost function AnchoredOf(g: set<Node>): set<Node>
    reads g
  {
    set n | n in g && n.anchor != ""
  }

  class Inliner {
    var visited: set<Node>
    ghost var done: set<Node>

    constructor ()
      ensures visited == {} && done == {}
    {
      visited, done := {}, {};
    }

    ghost function Now(g: set<Node>): State
      reads this, g
    {
      State(ContentsOf(g), AnchoredOf(g), visited, done)
    }

    method Begin(node: Node, ghost g: set<Node>)
      requires node in g && node.anchor != ""
      modifies `visited, node`anchor
      ensures Now(g) == Visit(old(Now(g)), node) && node.anchor == ""
    {
      visited := visited + {node};
      node.anchor := "";
      assert AnchoredOf(g) == old(AnchoredOf(g)) - {node};
      assert ContentsOf(g) == old(ContentsOf(g));
    }

    method StoreSlot(node: Node, i: nat, child: Node, ghost g: set<Node>)
      requires node in g && i < |node.content|
      modifies node`content
      ensures Now(g) == Store(old(Now(g)), node, i, child)
    {
      node.content := node.content[i := child];
      assert ContentsOf(g) == old(ContentsOf(g))[node := node.content];
      assert AnchoredOf(g) == old(AnchoredOf(g));
    }

    ghost method Finish(node: Node, g: set<Node>)
      modifies `done
      ensures Now(g) == old(Now(g)).(done := old(done) + {node})
    {
      done := done + {node};
      assert ContentsOf(g) == old(ContentsOf(g)) && AnchoredOf(g) == old(AnchoredOf(g));
    }

    // Puts the node one slot leads to in that slot, and walks it.
    method WalkSlot(node: Node, i: nat, ghost g: set<Node>, ghost hops: map<Node, nat>, ghost rank: map<Node, nat>)
      requires AliasesEnd(g, hops) && g <= rank.Keys && node in g && i < |node.content|
      requires Sound(Now(g), hops, rank) && node.anchor == "" && SlotsWalked(Now(g), node, i)
      modifies `visited, `done, g`content, g`anchor
      ensures Sound(Now(g), hops, rank) && Later(old(Now(g)), Now(g), hops)
      ensures visited - done <= old(visited - done)
      ensures |node.content| == |old(node.content)| && SlotsWalked(Now(g), node, i + 1)
      decreases g - visited, if node in visited then 1 else 0, rank[node], 0
    {
      hide Sound, Settled, SlotsWalked, SlotsKept, AliasesEnd;
      ghost var before := Now(g);
      SlotLeadsOn(before, node, i, hops, rank);
      var child := ResolveAlias(node.content[i], g, hops);
      StoreStep(before, node, i, hops, rank);
      StoreSlot(node, i, child, g);
      ghost var stored := Now(g);
      LaterKeepsWalkedSlots(before, stored, node, i, hops);
      Walk(child, g, hops, rank);
      SlotBehind(stored, node, i, Now(g), hops);
      LaterTwice(before, stored, Now(g), hops);
    }

    method WalkSlots(node: Node, ghost g: set<Node>, ghost hops: map<Node, nat>, ghost rank: map<Node, nat>)
      requires AliasesEnd(g, hops) && g <= rank.Keys && node in g
      requires Sound(Now(g), hops, rank) && node.anchor == ""
      modifies `visited, `done, g`content, g`anchor
      ensures Sound(Now(g), hops, rank) && Later(old(Now(g)), Now(g), hops)
      ensures visited - done <= old(visited - done)
      ensures SlotsWalked(Now(g), node, |node.content|)
      decreases g - visited, if node in visited then 1 else 0, rank[node], 1
    {
      hide Sound, Settled, SlotsWalked, SlotsKept, AliasesEnd;
      ghost var start := Now(g);
      LaterItself(start, hops, rank);
      NoSlotsWalked(start, node);
      var i := 0;
      while i < |node.content|
        invariant i <= |node.content|
        invariant Sound(Now(g), hops, rank) && Later(start, Now(g), hops)
        invariant visited - done <= start.visited - start.done
        invariant node.anchor == "" && (node in start.visited <==> node in visited)
        invariant SlotsWalked(Now(g), node, i)
      {
        ghost var before := Now(g);
        assert node !in before.anchored;
        WalkSlot(node, i, g, hops, rank);
        assert node !in Now(g).anchored;
        LaterTwice(start, before, Now(g), hops);
        i := i + 1;
      }
    }

    // Writes out the aliases below a node. Whatever the walk begins here it also finishes.
    method Walk(node: Node, ghost g: set<Node>, ghost hops: map<Node, nat>, ghost rank: map<Node, nat>)
      requires AliasesEnd(g, hops) && g <= rank.Keys && node in g && !IsLink(node)
      requires Sound(Now(g), hops, rank)
      modifies `visited, `done, g`content, g`anchor
      ensures Sound(Now(g), hops, rank) && Later(old(Now(g)), Now(g), hops)
      ensures visited - done <= old(visited - done)
      ensures node in done + visited
      decreases g - visited, 0, rank[node], 2
    {
      hide Sound, Settled, SlotsWalked, SlotsKept, AliasesEnd;
      ghost var start := Now(g);
      LaterItself(start, hops, rank);
      if node in visited {
        return;
      }
      if node.anchor != "" {
        VisitStep(start, node, hops, rank);
        Begin(node, g);
      }
      ghost var begun := Now(g);
      WalkSlots(node, g, hops, rank);
      ghost var walked := Now(g);
      LaterTwice(start, begun, walked, hops);
      SlotsWalkedSettle(walked, node);
      FinishStep(walked, node, hops, rank);
      Finish(node, g);
      LaterTwice(start, walked, Now(g), hops);
      assert begun.visited - begun.done <= start.visited - start.done + {node};
    }
  }

  lemma NoSlotsWalked(s: State, n: Node)
    requires n in s.contents
    ensures SlotsWalked(s, n, 0)
  {
  }

  lemma SlotsWalkedSettle(s: State, n: Node)
    requires n in s.contents && n !in s.anchored && SlotsWalked(s, n, |s.contents[n]|)
    ensures Settled(s, n)
  {
  }

  // ---- the whole document ---------------------------------------------------------------------

  // A way down through the content of a document.
  ghost predicate IsPath(c: Contents, path: seq<Node>) {
    && path != [] && (forall i :: 0 <= i < |path| ==> path[i] in c)
    && forall i :: 0 < i < |path| ==> path[i] in c[path[i - 1]]
  }

  lemma {:induction false} PathStaysDone(s: State, path: seq<Node>)
    requires IsPath(s.contents, path) && path[0] in s.done && !IsLink(path[0]) && s.visited <= s.done
    requires forall n :: n in s.done ==> Settled(s, n)
    ensures path[|path| - 1] in s.done && !IsLink(path[|path| - 1])
  {
    if |path| > 1 {
      var init := path[..|path| - 1];
      PathStaysDone(s, init);
      var n := init[|init| - 1];
      assert Settled(s, n) && path[|path| - 1] in s.contents[n];
    }
  }

  // Below a finished root nothing is left to do.
  lemma {:induction false} WalkedIsClean(s: State, root: Node, hops: map<Node, nat>, rank: map<Node, nat>)
    requires Sound(s, hops, rank) && s.visited <= s.done && root in s.done && !IsLink(root)
    ensures forall path: seq<Node> :: IsPath(s.contents, path) && path[0] == root ==>
              !IsLink(path[|path| - 1]) && path[|path| - 1] !in s.anchored
  {
    forall path: seq<Node> | IsPath(s.contents, path) && path[0] == root
      ensures !IsLink(path[|path| - 1]) && path[|path| - 1] !in s.anchored
    {
      PathStaysDone(s, path);
      assert Settled(s, path[|path| - 1]);
    }
  }

  lemma {:induction false} LaterUnfoldsTheSame(a: State, b: State, hops: map<Node, nat>)
    requires Closed(a.contents, hops) && Closed(b.contents, hops) && Later(a, b, hops)
    ensures forall n, depth: nat :: n in a.contents ==>
              Unfold(n, depth, b.contents, hops) == Unfold(n, depth, a.contents, hops)
  {
    forall n, depth: nat | n in a.contents
      ensures Unfold(n, depth, b.contents, hops) == Unfold(n, depth, a.contents, hops)
    {
      UnfoldKept(n, depth, a.contents, b.contents, hops);
    }
  }

  // Ends on every graph whose loops all pass through an anchored node. Afterwards no way down from
  // the root meets an alias or an anchor, and every unfolding is what it was.
  method InlineAliases(root: Node, ghost g: set<Node>, ghost hops: map<Node, nat>, ghost rank: map<Node, nat>)
    requires Closed(ContentsOf(g), hops) && g <= rank.Keys && root in g && !IsLink(root)
    requires LoopsAreAnchored(ContentsOf(g), AnchoredOf(g), hops, rank)
    modifies g`content, g`anchor
    ensures Closed(ContentsOf(g), hops)
    ensures forall path: seq<Node> :: IsPath(ContentsOf(g), path) && path[0] == root ==>
              var last := path[|path| - 1];
              !(last.kind.Alias? && last.target != null) && (last in g ==> last.anchor == "")
    ensures forall n, depth: nat :: n in g ==>
              Unfold(n, depth, ContentsOf(g), hops) == old(Unfold(n, depth, ContentsOf(g), hops))
    ensures AnchoredOf(g) <= old(AnchoredOf(g))
  {
    hide IsPath, LoopsAreAnchored, SlotsKept, AliasesEnd, Sound, Settled, Closed;
    var inliner := new Inliner();
    ghost var start := inliner.Now(g);
    assert ContentsOf(g) == old(ContentsOf(g)) && AnchoredOf(g) == old(AnchoredOf(g));
    StartIsSound(start, hops, rank);
    inliner.Walk(root, g, hops, rank);
    ghost var end := inliner.Now(g);
    assert end.visited - end.done <= {};
    SoundIsClosed(end, hops, rank);
    WalkedIsClean(end, root, hops, rank);
    LaterUnfoldsTheSame(start, end, hops);
  }

  lemma StartIsSound(s: State, hops: map<Node, nat>, rank: map<Node, nat>)
    requires Closed(s.contents, hops) && s.contents.Keys <= rank.Keys && s.anchored <= s.contents.Keys
    requires s.visited == {} && s.done == {} && LoopsAreAnchored(s.contents, s.anchored, hops, rank)
    ensures Sound(s, hops, rank) && AliasesEnd(s.contents.Keys, hops)
  {
    assert s.anchored + s.visited == s.anchored;
  }

  lemma SoundIsClosed(s: State, hops: map<Node, nat>, rank: map<Node, nat>)
    requires Sound(s, hops, rank)
    ensures Closed(s.contents, hops)
  {
  }

  // ---- what the walk covers -------------------------------------------------------------------

  // Ways down start at any node and go on through any slot.
  lemma WaysDown(c: Contents, n: Node, path: seq<Node>, next: Node)
    ensures n in c ==> IsPath(c, [n])
    ensures IsPath(c, path) && next in c && next in c[path[|path| - 1]] ==> IsPath(c, path + [next])
  {
    if IsPath(c, path) && next in c && next in c[path[|path| - 1]] {
      var more := path + [next];
      assert forall i :: 0 <= i < |path| ==> more[i] == path[i];
    }
  }

  // A node that contains an alias of itself is such a graph, if it is anchored, and otherwise is none.
  lemma {:induction false} SelfReference(n: Node, link: Node, c: Contents, hops: map<Node, nat>, rank: map<Node, nat>)
    requires n.kind.Sequence? && link.kind.Alias? && link.target == n && c == map[n := [link], link := []]
    requires n in hops && link in hops && hops[n] < hops[link] && n in rank && link in rank
    ensures Closed(c, hops) && c.Keys <= rank.Keys
    ensures LoopsAreAnchored(c, {n}, hops, rank) && !LoopsAreAnchored(c, {}, hops, rank)
  {
    assert Resolved(link, c.Keys, hops) == n;
    assert c[n][0] == link && !Descends(n, c, hops, rank);
  }
}
