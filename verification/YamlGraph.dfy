/** Parsed YAML as the core holds it: nodes that share, alias and may loop back to one another. */
module YamlGraph {
  datatype Kind = Unset | Document | Sequence | Mapping | Scalar | Alias

  // The code never reassigns a node's kind, short tag, value or alias target once it is parsed.
  class Node {
    const kind: Kind
    const tag: string
    const value: string
    const target: Node?
    var anchor: string
    var content: seq<Node>

    constructor (kind: Kind, tag: string, value: string, content: seq<Node>)
      ensures this.kind == kind && this.tag == tag && this.value == value
      ensures target == null && anchor == "" && this.content == content
    {
      this.kind, this.tag, this.value, this.content := kind, tag, value, content;
      target, anchor := null, "";
    }
  }

  predicate IsLink(n: Node) { n.kind.Alias? && n.target != null }

  // Following aliases from a node of g ends after finitely many hops, within g.
  ghost predicate AliasesEnd(g: set<Node>, hops: map<Node, nat>) {
    g <= hops.Keys && forall n :: n in g && IsLink(n) ==> n.target in g && hops[n.target] < hops[n]
  }

  ghost function Resolved(n: Node, g: set<Node>, hops: map<Node, nat>): (r: Node)
    requires AliasesEnd(g, hops) && n in g
    ensures r in g && !IsLink(r)
    ensures !IsLink(n) ==> r == n
    decreases hops[n]
  {
    if IsLink(n) then Resolved(n.target, g, hops) else n
  }

  method ResolveAlias(node: Node, ghost g: set<Node>, ghost hops: map<Node, nat>) returns (r: Node)
    requires AliasesEnd(g, hops) && node in g
    ensures r == Resolved(node, g, hops)
  {
    r := node;
    while r.kind.Alias? && r.target != null
      invariant r in g && Resolved(r, g, hops) == Resolved(node, g, hops)
      decreases hops[r]
    {
      r := r.target;
    }
  }

  ghost predicate AllIn(ns: seq<Node>, g: set<Node>) {
    forall i :: 0 <= i < |ns| ==> ns[i] in g
  }

  // What the nodes of a graph contain, at one moment.
  type Contents = map<Node, seq<Node>>

  ghost function ContentsOf(g: set<Node>): (c: Contents)
    reads g
    ensures c.Keys == g && forall n :: n in g ==> c[n] == n.content
  {
    map n | n in g :: n.content
  }

  // Aliases end and content stays within the graph.
  ghost predicate Closed(c: Contents, hops: map<Node, nat>) {
    AliasesEnd(c.Keys, hops) && forall n :: n in c ==> AllIn(c[n], c.Keys)
  }

  // ---- what a node denotes --------------------------------------------------------------------

  // A document with its aliases followed, down to some depth: on a graph with loops, every finite
  // part of the unfolding.
  datatype Tree = Cut | Tree(kind: Kind, tag: string, value: string, children: seq<Tree>)

  ghost function Unfold(n: Node, depth: nat, c: Contents, hops: map<Node, nat>): Tree
    requires Closed(c, hops) && n in c
    decreases depth, 0
  {
    if depth == 0 then Cut else
    var r := Resolved(n, c.Keys, hops);
    Tree(r.kind, r.tag, r.value, UnfoldAll(c[r], depth - 1, c, hops))
  }

  ghost function UnfoldAll(ns: seq<Node>, depth: nat, c: Contents, hops: map<Node, nat>): seq<Tree>
    requires Closed(c, hops) && AllIn(ns, c.Keys)
    decreases depth, |ns| + 1
  {
    if ns == [] then [] else [Unfold(ns[0], depth, c, hops)] + UnfoldAll(ns[1..], depth, c, hops)
  }

  // Every slot holds the node it held, or the one that node's aliases lead to.
  ghost predicate SameSlots(was: seq<Node>, now: seq<Node>, g: set<Node>, hops: map<Node, nat>)
    requires AliasesEnd(g, hops)
  {
    && |was| == |now|
    && forall i :: 0 <= i < |now| ==>
         was[i] in g && (now[i] == was[i] || now[i] == Resolved(was[i], g, hops))
  }

  ghost predicate SlotsKept(was: Contents, now: Contents, hops: map<Node, nat>)
    requires AliasesEnd(was.Keys, hops)
  {
    was.Keys == now.Keys && forall n :: n in was ==> SameSlots(was[n], now[n], was.Keys, hops)
  }

  lemma SlotsKeptTwice(a: Contents, b: Contents, c: Contents, hops: map<Node, nat>)
    requires AliasesEnd(a.Keys, hops)
    requires SlotsKept(a, b, hops) && SlotsKept(b, c, hops)
    ensures SlotsKept(a, c, hops)
  {
  }

  // Putting alias targets in their aliases' slots changes no unfolding.
  lemma {:induction false} UnfoldKept(n: Node, depth: nat, was: Contents, now: Contents, hops: map<Node, nat>)
    requires Closed(was, hops) && Closed(now, hops) && SlotsKept(was, now, hops) && n in was
    ensures Unfold(n, depth, now, hops) == Unfold(n, depth, was, hops)
    decreases depth, 0
  {
    if depth > 0 {
      var r := Resolved(n, was.Keys, hops);
      UnfoldAllKept(was[r], now[r], depth - 1, was, now, hops);
    }
  }

  lemma {:induction false} UnfoldAllKept(ns: seq<Node>, ms: seq<Node>, depth: nat,
                                         was: Contents, now: Contents, hops: map<Node, nat>)
    requires Closed(was, hops) && Closed(now, hops) && SlotsKept(was, now, hops)
    requires SameSlots(ns, ms, was.Keys, hops) && AllIn(ns, was.Keys) && AllIn(ms, was.Keys)
    ensures UnfoldAll(ms, depth, now, hops) == UnfoldAll(ns, depth, was, hops)
    decreases depth, |ns| + 1
  {
    if ms != [] {
      UnfoldKept(ns[0], depth, was, now, hops);
      assert Unfold(ms[0], depth, now, hops) == Unfold(ns[0], depth, now, hops);
      UnfoldAllKept(ns[1..], ms[1..], depth, was, now, hops);
    }
  }

  // An alias stands for what its target stands for.
  lemma AliasesAreFollowed(n: Node, g: set<Node>, hops: map<Node, nat>)
    requires AliasesEnd(g, hops) && n in g
    ensures n.kind.Alias? && n.target != null ==> n.target in g && Resolved(n, g, hops) == Resolved(n.target, g, hops)
  {
  }

  // An unfolding shows all there is to see of a node down to its depth: kind, tag, value, and what each
  // slot unfolds to.
  lemma {:induction false} UnfoldShowsAll(n: Node, depth: nat, c: Contents, hops: map<Node, nat>)
    requires Closed(c, hops) && n in c && depth > 0
    ensures var r, tree := Resolved(n, c.Keys, hops), Unfold(n, depth, c, hops);
            && tree.Tree? && tree.kind == r.kind && tree.tag == r.tag && tree.value == r.value
            && |tree.children| == |c[r]|
            && forall i :: 0 <= i < |c[r]| ==> tree.children[i] == Unfold(c[r][i], depth - 1, c, hops)
  {
    UnfoldsEach(c[Resolved(n, c.Keys, hops)], depth - 1, c, hops);
  }

  lemma {:induction false} UnfoldsEach(ns: seq<Node>, depth: nat, c: Contents, hops: map<Node, nat>)
    requires Closed(c, hops) && AllIn(ns, c.Keys)
    ensures |UnfoldAll(ns, depth, c, hops)| == |ns|
    ensures forall i :: 0 <= i < |ns| ==> UnfoldAll(ns, depth, c, hops)[i] == Unfold(ns[i], depth, c, hops)
  {
    if ns != [] {
      UnfoldsEach(ns[1..], depth, c, hops);
      hide Unfold;
    }
  }
}
