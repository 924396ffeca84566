/** The host's overlay laid over a profile: lookups through merge keys, sections taken over, rules joined. */
module ProfileMerge {
  import opened Options
  import opened YamlGraph

  // ---- what a mapping holds -------------------------------------------------------------------

  predicate IsMergeKey(name: Node) { name.kind.Scalar? && name.tag == "!!merge" }

  predicate IsPlainKey(name: Node) { name.kind.Scalar? && name.tag != "!!merge" }

  // A mapping's own entries; of two with one name the first counts.
  ghost function Direct(content: seq<Node>): map<string, Node> {
    if |content| < 2 then map[] else
    var rest := Direct(content[2..]);
    if IsPlainKey(content[0]) then rest[content[0].value := content[1]] else rest
  }

  // The values of a mapping's merge keys.
  ghost function Sources(content: seq<Node>): seq<Node> {
    if |content| < 2 then [] else
    (if IsMergeKey(content[0]) then [content[1]] else []) + Sources(content[2..])
  }

  // The mappings among some nodes, aliases followed.
  ghost function MappingsAmong(ns: seq<Node>, c: Contents, hops: map<Node, nat>): (ms: seq<Node>)
    requires Closed(c, hops) && AllIn(ns, c.Keys)
    ensures AllIn(ms, c.Keys) && forall i :: 0 <= i < |ms| ==> ms[i].kind.Mapping?
  {
    if ns == [] then [] else
    var r := Resolved(ns[0], c.Keys, hops);
    (if r.kind.Mapping? then [r] else []) + MappingsAmong(ns[1..], c, hops)
  }

  // What a merge key offers: the mapping it leads to, or those in the list it leads to.
  ghost function Offered(source: Node, c: Contents, hops: map<Node, nat>): seq<Node>
    requires Closed(c, hops) && source in c
  {
    var r := Resolved(source, c.Keys, hops);
    if r.kind.Sequence? then c[r] else [r]
  }

  ghost function Merged(sources: seq<Node>, c: Contents, hops: map<Node, nat>): (ms: seq<Node>)
    requires Closed(c, hops) && AllIn(sources, c.Keys)
    ensures AllIn(ms, c.Keys) && forall i :: 0 <= i < |ms| ==> ms[i].kind.Mapping?
  {
    if sources == [] then [] else
    MappingsAmong(Offered(sources[0], c, hops), c, hops) + Merged(sources[1..], c, hops)
  }

  // Mappings of the graph, all below some layer.
  ghost predicate Layered(ms: seq<Node>, c: Contents, layers: map<Node, nat>, bound: nat) {
    forall i :: 0 <= i < |ms| ==> ms[i] in c && ms[i].kind.Mapping? && ms[i] in layers && layers[ms[i]] < bound
  }

  // Content whose merge keys lead to nodes of the graph, below some layer.
  ghost predicate MergesBelow(content: seq<Node>, c: Contents, hops: map<Node, nat>, layers: map<Node, nat>, bound: nat)
    requires Closed(c, hops)
  {
    AllIn(Sources(content), c.Keys) && Layered(Merged(Sources(content), c, hops), c, layers, bound)
  }

  // No mapping is merged into itself.
  ghost predicate MergesDescend(c: Contents, hops: map<Node, nat>, layers: map<Node, nat>) {
    && Closed(c, hops) && c.Keys <= layers.Keys
    && forall n :: n in c && n.kind.Mapping? ==> MergesBelow(c[n], c, hops, layers, layers[n])
  }

  // All a mapping holds, as YAML's merge keys have it: its own entries over those merged in, and
  // among the latter the earlier over the later.
  ghost function Entries(content: seq<Node>, c: Contents, hops: map<Node, nat>, layers: map<Node, nat>, bound: nat)
      : map<string, Node>
    requires MergesDescend(c, hops, layers) && MergesBelow(content, c, hops, layers, bound)
    decreases bound, 1, 0
  {
    EntriesOfAll(Merged(Sources(content), c, hops), c, hops, layers, bound) + Direct(content)
  }

  ghost function EntriesOfAll(ms: seq<Node>, c: Contents, hops: map<Node, nat>, layers: map<Node, nat>, bound: nat)
      : map<string, Node>
    requires MergesDescend(c, hops, layers) && Layered(ms, c, layers, bound)
    decreases bound, 0, |ms|
  {
    if ms == [] then map[] else
    EntriesOfAll(ms[1..], c, hops, layers, bound) + Entries(c[ms[0]], c, hops, layers, layers[ms[0]])
  }

  function Find(entries: map<string, Node>, key: string): Node? {
    if key in entries then entries[key] else null
  }

  // What a node of the graph holds under a name, and what some nodes do, the first that has it.
  ghost function Held(m: Node, key: string, c: Contents, hops: map<Node, nat>, layers: map<Node, nat>): Node?
    requires MergesDescend(c, hops, layers) && m in c && m.kind.Mapping?
  {
    Find(Entries(c[m], c, hops, layers, layers[m]), key)
  }

  ghost function FirstHeld(ms: seq<Node>, key: string, c: Contents, hops: map<Node, nat>, layers: map<Node, nat>,
                           bound: nat): Node?
    requires MergesDescend(c, hops, layers) && Layered(ms, c, layers, bound)
  {
    Find(EntriesOfAll(ms, c, hops, layers, bound), key)
  }

  // ---- what a mapping holds, entry by entry -----------------------------------------------------

  // An own entry is the first of its name, and merge keys come in order: an entry splits what comes
  // before it from what comes after.
  lemma {:induction false} OwnEntriesInOrder(before: seq<Node>, name: Node, value: Node, after: seq<Node>, key: string)
    requires |before| % 2 == 0
    ensures Find(Direct(before + [name, value] + after), key) ==
            if Find(Direct(before), key) != null then Find(Direct(before), key)
            else if name.kind.Scalar? && name.tag != "!!merge" && name.value == key then value
            else Find(Direct(after), key)
    ensures Find(Direct([]), key) == null
  {
    var all := before + [name, value] + after;
    DirectFirst(all, key);
    DirectFirst(before, key);
    if before == [] {
      assert all[2..] == after;
    } else {
      OwnEntriesInOrder(before[2..], name, value, after, key);
      assert all[2..] == before[2..] + [name, value] + after && all[0] == before[0] && all[1] == before[1];
      hide Direct, Find;
    }
  }

  lemma SourcesFirst(content: seq<Node>)
    ensures |content| < 2 ==> Sources(content) == []
    ensures |content| >= 2 ==>
              Sources(content) == (if IsMergeKey(content[0]) then [content[1]] else []) + Sources(content[2..])
  {
  }

  lemma {:induction false} MergeKeysInOrder(before: seq<Node>, name: Node, value: Node, after: seq<Node>)
    requires |before| % 2 == 0
    ensures Sources(before + [name, value] + after) ==
            Sources(before) + (if name.kind.Scalar? && name.tag == "!!merge" then [value] else []) + Sources(after)
    ensures Sources([]) == []
  {
    var all := before + [name, value] + after;
    SourcesFirst(all);
    SourcesFirst(before);
    hide Sources;
    if before == [] {
      assert all[2..] == after;
    } else {
      MergeKeysInOrder(before[2..], name, value, after);
      assert all[2..] == before[2..] + [name, value] + after && all[0] == before[0] && all[1] == before[1];
    }
  }

  // A merge key that leads to a mapping merges it, one that leads to a list the mappings in it, in order
  // and with their aliases followed, and any other nothing.
  lemma {:induction false} MergedFromOne(source: Node, c: Contents, hops: map<Node, nat>)
    requires Closed(c, hops) && source in c
    ensures var r := Resolved(source, c.Keys, hops);
            Merged([source], c, hops) ==
            if r.kind.Mapping? then [r] else if r.kind.Sequence? then MappingsAmong(c[r], c, hops) else []
  {
    var r := Resolved(source, c.Keys, hops);
    var none := [source][1..];
    assert none == [] && Merged(none, c, hops) == [];
    if !r.kind.Sequence? {
      var nobody := [r][1..];
      assert nobody == [] && MappingsAmong(nobody, c, hops) == [];
    }
  }

  // Several merge keys merge one after the other.
  lemma {:induction false} MergedInOrder(sources: seq<Node>, more: seq<Node>, c: Contents, hops: map<Node, nat>)
    requires Closed(c, hops) && AllIn(sources, c.Keys) && AllIn(more, c.Keys)
    ensures Merged(sources + more, c, hops) == Merged(sources, c, hops) + Merged(more, c, hops)
    ensures Merged([], c, hops) == []
  {
    if sources == [] {
      assert sources + more == more;
    } else {
      MergedInOrder(sources[1..], more, c, hops);
      assert (sources + more)[1..] == sources[1..] + more && (sources + more)[0] == sources[0];
      hide MappingsAmong, Offered;
    }
  }

  lemma {:induction false} MappingsInOrder(ns: seq<Node>, n: Node, c: Contents, hops: map<Node, nat>)
    requires Closed(c, hops) && AllIn(ns, c.Keys) && n in c
    ensures MappingsAmong(ns + [n], c, hops) ==
            MappingsAmong(ns, c, hops) +
            if Resolved(n, c.Keys, hops).kind.Mapping? then [Resolved(n, c.Keys, hops)] else []
    ensures MappingsAmong([], c, hops) == []
  {
    if ns == [] {
      assert ns + [n] == [n] && [n][1..] == [];
    } else {
      MappingsInOrder(ns[1..], n, c, hops);
      assert (ns + [n])[1..] == ns[1..] + [n];
    }
  }

  // ---- lookups --------------------------------------------------------------------------------

  lemma FirstHolderWins(ms: seq<Node>, key: string, c: Contents, hops: map<Node, nat>, layers: map<Node, nat>,
                        bound: nat)
    requires MergesDescend(c, hops, layers) && Layered(ms, c, layers, bound) && ms != []
    ensures Layered(ms[1..], c, layers, bound) && ms[0] in c && ms[0].kind.Mapping?
    ensures FirstHeld(ms, key, c, hops, layers, bound) ==
            if Held(ms[0], key, c, hops, layers) != null then Held(ms[0], key, c, hops, layers)
            else FirstHeld(ms[1..], key, c, hops, layers, bound)
  {
  }

  lemma {:induction false} EarlierWins(a: seq<Node>, b: seq<Node>, key: string, c: Contents, hops: map<Node, nat>,
                                       layers: map<Node, nat>, bound: nat)
    requires MergesDescend(c, hops, layers) && Layered(a, c, layers, bound) && Layered(b, c, layers, bound)
    ensures Layered(a + b, c, layers, bound)
    ensures FirstHeld(a + b, key, c, hops, layers, bound) ==
            if FirstHeld(a, key, c, hops, layers, bound) != null then FirstHeld(a, key, c, hops, layers, bound)
            else FirstHeld(b, key, c, hops, layers, bound)
  {
    assert FirstHeld([], key, c, hops, layers, bound) == null;
    hide FirstHeld, Held, MergesDescend;
    if a == [] {
      assert a + b == b;
    } else {
      assert (a + b)[1..] == a[1..] + b;
      FirstHolderWins(a, key, c, hops, layers, bound);
      EarlierWins(a[1..], b, key, c, hops, layers, bound);
      FirstHolderWins(a + b, key, c, hops, layers, bound);
    }
  }

  lemma DirectFirst(content: seq<Node>, key: string)
    ensures |content| < 2 ==> Find(Direct(content), key) == null
    ensures |content| >= 2 ==>
              Find(Direct(content), key) ==
              if IsPlainKey(content[0]) && content[0].value == key then content[1]
              else Find(Direct(content[2..]), key)
  {
  }

  // A mapping's own entry under a name, and its merge keys' values.
  method OwnValue(content: seq<Node>, key: string) returns (value: Node?, sources: seq<Node>)
    ensures value == Find(Direct(content), key)
    ensures value == null ==> sources == Sources(content)
  {
    sources := [];
    var i := 0;
    while i + 1 < |content|
      invariant i <= |content|
      invariant Find(Direct(content), key) == Find(Direct(content[i..]), key)
      invariant sources + Sources(content[i..]) == Sources(content)
    {
      var name := content[i];
      DirectFirst(content[i..], key);
      assert content[i..][2..] == content[i + 2..] && content[i..][1] == content[i + 1];
      if name.kind.Scalar? {
        if name.tag == "!!merge" {
          sources := sources + [content[i + 1]];
        } else if name.value == key {
          return content[i + 1], sources;
        }
      }
      i := i + 2;
    }
    DirectFirst(content[i..], key);
    return null, sources;
  }

  lemma MappingsStep(ns: seq<Node>, k: nat, c: Contents, hops: map<Node, nat>)
    requires Closed(c, hops) && AllIn(ns, c.Keys) && k < |ns|
    ensures var r := Resolved(ns[k], c.Keys, hops);
            var left, rest := MappingsAmong(ns[k..], c, hops), MappingsAmong(ns[k + 1..], c, hops);
            if r.kind.Mapping? then left != [] && left[0] == r && left[1..] == rest else left == rest
  {
    assert ns[k..][1..] == ns[k + 1..];
  }

  lemma MergedStep(sources: seq<Node>, j: nat, c: Contents, hops: map<Node, nat>)
    requires Closed(c, hops) && j < |sources| && AllIn(sources, c.Keys)
    ensures AllIn(Offered(sources[j], c, hops), c.Keys)
    ensures Merged(sources[j..], c, hops) ==
            MappingsAmong(Offered(sources[j], c, hops), c, hops) + Merged(sources[j + 1..], c, hops)
  {
    assert sources[j..][1..] == sources[j + 1..];
  }

  // The first of some candidates, aliases followed, that is a mapping holding the key.
  method SearchCandidates(candidates: seq<Node>, key: string, ghost s: set<Node>, ghost hops: map<Node, nat>,
                          ghost layers: map<Node, nat>, ghost bound: nat) returns (value: Node?)
    requires MergesDescend(ContentsOf(s), hops, layers) && AllIn(candidates, s)
    requires Layered(MappingsAmong(candidates, ContentsOf(s), hops), ContentsOf(s), layers, bound)
    ensures value == FirstHeld(MappingsAmong(candidates, ContentsOf(s), hops), key, ContentsOf(s), hops, layers, bound)
    decreases bound, 0
  {
    ghost var c := ContentsOf(s);
    ghost var ms := MappingsAmong(candidates, c, hops);
    hide Entries, EntriesOfAll, Merged, FirstHeld, Layered, MappingsAmong;
    assert candidates[0..] == candidates;
    for k := 0 to |candidates|
      invariant ContentsOf(s) == c
      invariant Layered(MappingsAmong(candidates[k..], c, hops), c, layers, bound)
      invariant FirstHeld(ms, key, c, hops, layers, bound) ==
                FirstHeld(MappingsAmong(candidates[k..], c, hops), key, c, hops, layers, bound)
    {
      ghost var left := MappingsAmong(candidates[k..], c, hops);
      MappingsStep(candidates, k, c, hops);
      var candidate := ResolveAlias(candidates[k], s, hops);
      if candidate.kind.Mapping? {
        FirstHolderWins(left, key, c, hops, layers, bound);
        LayerOfFirst(left, c, hops, layers, bound);
        value := MappingValue(candidate, key, s, hops, layers, layers[candidate]);
        if value != null {
          return;
        }
      }
    }
    NothingAmongNone(candidates, c, hops);
    NoneHeld(key, c, hops, layers, bound);
    return null;
  }

  lemma NothingAmongNone(ns: seq<Node>, c: Contents, hops: map<Node, nat>)
    requires Closed(c, hops) && AllIn(ns, c.Keys)
    ensures MappingsAmong(ns[|ns|..], c, hops) == [] && Merged(ns[|ns|..], c, hops) == []
  {
  }

  lemma LayerOfFirst(ms: seq<Node>, c: Contents, hops: map<Node, nat>, layers: map<Node, nat>, bound: nat)
    requires MergesDescend(c, hops, layers) && Layered(ms, c, layers, bound) && ms != []
    ensures ms[0] in layers && layers[ms[0]] < bound && MergesBelow(c[ms[0]], c, hops, layers, layers[ms[0]])
  {
  }

  lemma NoneHeld(key: string, c: Contents, hops: map<Node, nat>, layers: map<Node, nat>, bound: nat)
    requires MergesDescend(c, hops, layers)
    ensures FirstHeld([], key, c, hops, layers, bound) == null
  {
  }

  lemma EntriesFindOwnFirst(content: seq<Node>, key: string, c: Contents, hops: map<Node, nat>, layers: map<Node, nat>,
                            bound: nat)
    requires MergesDescend(c, hops, layers) && MergesBelow(content, c, hops, layers, bound)
    ensures AllIn(Sources(content), c.Keys) && Layered(Merged(Sources(content), c, hops), c, layers, bound)
    ensures Find(Entries(content, c, hops, layers, bound), key) ==
            if Find(Direct(content), key) != null then Find(Direct(content), key)
            else FirstHeld(Merged(Sources(content), c, hops), key, c, hops, layers, bound)
  {
  }

  // Own entries first, then the mappings merged in, each with what is merged into it.
  method MappingValue(mapping: Node, key: string, ghost s: set<Node>, ghost hops: map<Node, nat>,
                      ghost layers: map<Node, nat>, ghost bound: nat) returns (value: Node?)
    requires MergesDescend(ContentsOf(s), hops, layers)
    requires MergesBelow(mapping.content, ContentsOf(s), hops, layers, bound)
    ensures value == Find(Entries(mapping.content, ContentsOf(s), hops, layers, bound), key)
    decreases bound, 1
  {
    ghost var c := ContentsOf(s);
    EntriesFindOwnFirst(mapping.content, key, c, hops, layers, bound);
    var sources;
    value, sources := OwnValue(mapping.content, key);
    if value != null {
      return;
    }
    ghost var ms := Merged(sources, c, hops);
    hide Entries, EntriesOfAll, FirstHeld, Sources, Direct, MappingsAmong, Merged, Layered;
    assert sources[0..] == sources;
    for j := 0 to |sources|
      invariant ContentsOf(s) == c
      invariant AllIn(sources[j..], c.Keys) && Layered(Merged(sources[j..], c, hops), c, layers, bound)
      invariant FirstHeld(ms, key, c, hops, layers, bound) ==
                FirstHeld(Merged(sources[j..], c, hops), key, c, hops, layers, bound)
    {
      MergedStep(sources, j, c, hops);
      var source := ResolveAlias(sources[j], s, hops);
      var candidates := if source.kind.Sequence? then source.content else [source];
      ghost var found, rest := MappingsAmong(candidates, c, hops), Merged(sources[j + 1..], c, hops);
      LayeredParts(found, rest, c, layers, bound);
      EarlierWins(found, rest, key, c, hops, layers, bound);
      value := SearchCandidates(candidates, key, s, hops, layers, bound);
      if value != null {
        return;
      }
    }
    NothingAmongNone(sources, c, hops);
    NoneHeld(key, c, hops, layers, bound);
    return null;
  }

  lemma LayeredParts(a: seq<Node>, b: seq<Node>, c: Contents, layers: map<Node, nat>, bound: nat)
    requires Layered(a + b, c, layers, bound)
    ensures Layered(a, c, layers, bound) && Layered(b, c, layers, bound)
  {
    assert forall i :: 0 <= i < |a| ==> (a + b)[i] == a[i];
    assert forall i :: 0 <= i < |b| ==> (a + b)[|a| + i] == b[i];
  }

  // ---- assignments ----------------------------------------------------------------------------

  predicate IsNamed(n: Node, key: string) { n.kind.Scalar? && n.value == key }

  // A key assigned in a mapping's content: over the first scalar name spelled like it, else behind
  // everything under a new name.
  function Assigned(content: seq<Node>, key: string, name: Node, value: Node): seq<Node> {
    if |content| < 2 then content + [name, value]
    else if IsNamed(content[0], key) then content[1 := value]
    else content[..2] + Assigned(content[2..], key, name, value)
  }

  predicate HasName(content: seq<Node>, key: string) {
    |content| >= 2 && (IsNamed(content[0], key) || HasName(content[2..], key))
  }

  // The first name spelled like the key is a merge key.
  predicate IsMergeSpelled(content: seq<Node>, key: string) {
    |content| >= 2 &&
    if IsNamed(content[0], key) then IsMergeKey(content[0])
    else IsMergeSpelled(content[2..], key)
  }

  // The first name spelled like the key decides.
  lemma {:induction false} FirstNameDecides(content: seq<Node>, i: nat, key: string)
    requires i % 2 == 0 && i + 1 < |content| && content[i].kind.Scalar? && content[i].value == key
    requires forall j :: 0 <= j < i && j % 2 == 0 ==> !(content[j].kind.Scalar? && content[j].value == key)
    ensures IsMergeSpelled(content, key) <==> content[i].tag == "!!merge"
  {
    if i > 0 {
      assert !IsNamed(content[0], key);
      forall j | 0 <= j < i - 2 && j % 2 == 0
        ensures !(content[2..][j].kind.Scalar? && content[2..][j].value == key)
      {
        assert content[2..][j] == content[j + 2];
      }
      FirstNameDecides(content[2..], i - 2, key);
    }
  }

  method SetMappingValue(mapping: Node, key: string, value: Node) returns (ghost name: Node)
    modifies mapping`content
    ensures mapping.content == Assigned(old(mapping.content), key, name, value)
    ensures HasName(old(mapping.content), key) || (fresh(name) && IsPlainKey(name) && name.value == key)
  {
    ghost var content := mapping.content;
    var i := 0;
    while i + 1 < |mapping.content|
      invariant i <= |content| && i % 2 == 0 && mapping.content == content
      invariant Unnamed(content, key, i)
    {
      if IsNamed(mapping.content[i], key) {
        name := mapping.content[i];
        AssignedHere(content, i, key, name, value);
        mapping.content := mapping.content[i + 1 := value];
        return;
      }
      i := i + 2;
    }
    var newName := new Node(Scalar, "!!str", key, []);
    name := newName;
    AssignedBehind(content, key, name, value);
    mapping.content := mapping.content + [newName, value];
  }

  // None of the names before an index is spelled like the key.
  ghost predicate Unnamed(content: seq<Node>, key: string, count: nat) {
    forall j :: 0 <= j < count && j % 2 == 0 && j + 1 < |content| ==> !IsNamed(content[j], key)
  }

  lemma {:induction false} AssignedHere(content: seq<Node>, i: nat, key: string, name: Node, value: Node)
    requires i % 2 == 0 && i + 1 < |content| && IsNamed(content[i], key) && Unnamed(content, key, i)
    ensures HasName(content, key) && Assigned(content, key, name, value) == content[i + 1 := value]
  {
    if i > 0 {
      var rest := content[2..];
      assert Unnamed(rest, key, i - 2) by {
        assert forall j :: 0 <= j < |rest| ==> rest[j] == content[j + 2];
      }
      AssignedHere(rest, i - 2, key, name, value);
      assert !IsNamed(content[0], key);
      assert content[..2] + rest[i - 1 := value] == content[i + 1 := value];
    }
  }

  lemma {:induction false} AssignedBehind(content: seq<Node>, key: string, name: Node, value: Node)
    requires Unnamed(content, key, |content|)
    ensures !HasName(content, key) && Assigned(content, key, name, value) == content + [name, value]
  {
    if |content| >= 2 {
      var rest := content[2..];
      assert Unnamed(rest, key, |rest|) by {
        assert forall j :: 0 <= j < |rest| ==> rest[j] == content[j + 2];
      }
      AssignedBehind(rest, key, name, value);
      assert !IsNamed(content[0], key);
      assert content[..2] + (rest + [name, value]) == content + [name, value];
    }
  }

  // How many merge keys come before the first name spelled like the key.
  function MergesBefore(content: seq<Node>, key: string): nat {
    if |content| < 2 || IsNamed(content[0], key) then 0
    else (if IsMergeKey(content[0]) then 1 else 0) + MergesBefore(content[2..], key)
  }

  // The own entries and the merge sources of a mapping after an assignment: the key has the value; or,
  // where the first name spelled like the key is a merge key, that one's source is replaced.
  ghost predicate Assigns(before: seq<Node>, after: seq<Node>, key: string, value: Node) {
    if IsMergeSpelled(before, key)
    then Direct(after) == Direct(before) && MergesBefore(before, key) < |Sources(before)| &&
         Sources(after) == Sources(before)[MergesBefore(before, key) := value]
    else Direct(after) == Direct(before)[key := value] && Sources(after) == Sources(before)
  }

  // Contents whose names are spelled alike, as far as an assignment can see.
  ghost predicate SameNames(before: seq<Node>, after: seq<Node>) {
    && |before| % 2 == |after| % 2
    && forall k: string ::
         IsMergeSpelled(after, k) == IsMergeSpelled(before, k) && MergesBefore(after, k) == MergesBefore(before, k)
  }

  lemma {:induction false} AssignedEntries(content: seq<Node>, key: string, name: Node, value: Node)
    requires |content| % 2 == 0
    requires HasName(content, key) || (IsPlainKey(name) && name.value == key)
    ensures var after := Assigned(content, key, name, value);
            SameNames(content, after) && Assigns(content, after, key, value)
  {
    var after := Assigned(content, key, name, value);
    if |content| < 2 {
      assert after == [name, value];
      assert after[2..] == [];
    } else if IsNamed(content[0], key) {
      assert after[2..] == content[2..];
    } else {
      AssignedEntries(content[2..], key, name, value);
      assert after[2..] == Assigned(content[2..], key, name, value);
      assert after[0] == content[0] && after[1] == content[1];
    }
  }

  // An assigned value is the own entry of its key, unless a merge key is spelled like the key and the
  // mapping did not already hold the value.
  lemma {:induction false} AssignedIsOwn(before: seq<Node>, after: seq<Node>, key: string, value: Node)
    requires Assigns(before, after, key, value)
    ensures Find(Direct(after), key) == value <==> !IsMergeSpelled(before, key) || Find(Direct(before), key) == value
  {
  }

  // And a lookup finds it just then, or where with no own entry the sources left, the value's among
  // them, happen to hold it first.
  lemma {:induction false} AssignedIsFound(before: seq<Node>, after: seq<Node>, key: string, value: Node, c: Contents,
                                           hops: map<Node, nat>, layers: map<Node, nat>, bound: nat)
    requires MergesDescend(c, hops, layers) && MergesBelow(after, c, hops, layers, bound)
    requires Assigns(before, after, key, value)
    ensures AllIn(Sources(after), c.Keys) && Layered(Merged(Sources(after), c, hops), c, layers, bound)
    ensures Find(Entries(after, c, hops, layers, bound), key) == value <==>
            || !IsMergeSpelled(before, key)
            || Find(Direct(before), key) == value
            || (Find(Direct(before), key) == null &&
                FirstHeld(Merged(Sources(after), c, hops), key, c, hops, layers, bound) == value)
  {
    EntriesFindOwnFirst(after, key, c, hops, layers, bound);
    hide Entries, EntriesOfAll, FirstHeld, Merged;
  }

  lemma OneSource(m: Node, c: Contents, hops: map<Node, nat>, layers: map<Node, nat>, bound: nat)
    requires MergesDescend(c, hops, layers) && m in c && m.kind.Mapping? && layers[m] < bound
    ensures EntriesOfAll([m], c, hops, layers, bound) == Entries(c[m], c, hops, layers, layers[m])
  {
    var ms, rest := [m], [m][1..];
    assert rest == [] && EntriesOfAll(rest, c, hops, layers, bound) == map[];
    assert EntriesOfAll(ms, c, hops, layers, bound) ==
           EntriesOfAll(rest, c, hops, layers, bound) + Entries(c[m], c, hops, layers, layers[m]);
  }

  // So it is with a root that has nothing but a merge key spelled like a section: the section written
  // is not found, and everything it holds turns up among the root's keys.
  lemma {:induction false} SpelledSectionLeaks(mergeKey: Node, source: Node, name: Node, section: Node, c: Contents,
                                               hops: map<Node, nat>, layers: map<Node, nat>, bound: nat)
    requires mergeKey.kind.Scalar? && mergeKey.tag == "!!merge" && mergeKey.value == "sub-rules"
    requires MergesDescend(c, hops, layers) && section in c && section.kind.Mapping? && layers[section] < bound
    ensures var after := Assigned([mergeKey, source], "sub-rules", name, section);
            && after == [mergeKey, section] && MergesBelow(after, c, hops, layers, bound)
            && Direct(after) == map[]
            && Entries(after, c, hops, layers, bound) == Entries(c[section], c, hops, layers, layers[section])
  {
    var after := Assigned([mergeKey, source], "sub-rules", name, section);
    assert after[2..] == [] && Sources(after) == [section];
    assert Resolved(section, c.Keys, hops) == section;
    assert MappingsAmong([section], c, hops) == [section];
    assert Merged([section], c, hops) == [section] by {
      assert [section][1..] == [];
    }
    OneSource(section, c, hops, layers, bound);
    hide Entries, EntriesOfAll, Merged, MappingsAmong;
  }

  // ---- rules ----------------------------------------------------------------------------------

  predicate IsNull(n: Node) { n.kind.Scalar? && n.tag == "!!null" }

  // The list a node that is no alias stands for: null is the empty list, another scalar or a
  // mapping is none.
  function ListIn(n: Node, content: seq<Node>): Option<seq<Node>> {
    if IsNull(n) then Some([]) else if n.kind.Sequence? then Some(content) else None
  }

  ghost function ListOf(n: Node?, c: Contents, hops: map<Node, nat>): Option<seq<Node>>
    requires Closed(c, hops) && (n != null ==> n in c)
  {
    if n == null then Some([]) else ListIn(Resolved(n, c.Keys, hops), c[Resolved(n, c.Keys, hops)])
  }

  // The list a lookup's result stands for at this moment, be it of the graph or a new node.
  ghost function ListNow(n: Node?, s: set<Node>, hops: map<Node, nat>): Option<seq<Node>>
    requires Closed(ContentsOf(s), hops)
    reads s, n
  {
    if n == null || n in s then ListOf(n, ContentsOf(s), hops) else ListIn(n, n.content)
  }

  // Both rules are to be joined, and one is no list.
  ghost predicate RulesClash(ours: Node?, theirs: Node?, s: set<Node>, hops: map<Node, nat>)
    requires Closed(ContentsOf(s), hops) && (ours != null ==> ours in s) && (theirs != null ==> theirs in s)
    reads s
  {
    && theirs != null && !IsNull(Resolved(theirs, s, hops)) && ListOf(ours, ContentsOf(s), hops) != Some([])
    && (ListOf(ours, ContentsOf(s), hops).None? || ListOf(theirs, ContentsOf(s), hops).None?)
  }

  // Rules that are lists, absent or null are joined, ours first. With nothing of ours the joined rules
  // are theirs, list or not; with theirs null they are ours, and with theirs absent ours are left.
  ghost predicate RulesJoin(ours: Node?, theirs: Node?, merged: Node?, s: set<Node>, hops: map<Node, nat>)
    requires Closed(ContentsOf(s), hops) && (ours != null ==> ours in s) && (theirs != null ==> theirs in s)
    reads s, merged
  {
    var c := ContentsOf(s);
    && (ListOf(ours, c, hops).Some? && ListOf(theirs, c, hops).Some? ==>
          ListNow(merged, s, hops) == Some(ListOf(ours, c, hops).value + ListOf(theirs, c, hops).value))
    && (theirs == null ==> merged == ours)
    && (theirs != null && ListOf(ours, c, hops) == Some([]) ==> merged == Resolved(theirs, s, hops))
    && (theirs != null && ours != null && ListOf(ours, c, hops) != Some([]) && IsNull(Resolved(theirs, s, hops)) ==>
          merged == Resolved(ours, s, hops))
  }

  // Rules are refused exactly when both are there, neither is null, ours are not an empty list, and one of
  // them is no list; two lists never are.
  lemma RulesAreRefused(ours: Node?, theirs: Node?, s: set<Node>, hops: map<Node, nat>)
    requires Closed(ContentsOf(s), hops) && (ours != null ==> ours in s) && (theirs != null ==> theirs in s)
    ensures RulesClash(ours, theirs, s, hops) <==>
            && ours != null && theirs != null
            && var mine, other := Resolved(ours, s, hops), Resolved(theirs, s, hops);
               && !(mine.kind.Scalar? && mine.tag == "!!null") && !(other.kind.Scalar? && other.tag == "!!null")
               && !(mine.kind.Sequence? && mine.content == []) && !(mine.kind.Sequence? && other.kind.Sequence?)
  {
  }

  // What the two lists are: a sequence's items, and none for null or nothing.
  lemma ListsOfRules(n: Node?, s: set<Node>, hops: map<Node, nat>)
    requires Closed(ContentsOf(s), hops)
    ensures n == null ==> ListNow(n, s, hops) == Some([])
    ensures n != null ==>
              var r := if n in s then Resolved(n, s, hops) else n;
              && (r.kind.Sequence? ==> ListNow(n, s, hops) == Some(r.content))
              && (r.kind.Scalar? && r.tag == "!!null" ==> ListNow(n, s, hops) == Some([]))
    ensures (n != null ==> n in s) ==> ListOf(n, ContentsOf(s), hops) == ListNow(n, s, hops)
  {
  }

  // Joined rules are one list, the items of ours and behind them those of theirs.
  lemma OursComeFirst(ours: Node, theirs: Node, merged: Node?, s: set<Node>, hops: map<Node, nat>)
    requires Closed(ContentsOf(s), hops) && ours in s && theirs in s && RulesJoin(ours, theirs, merged, s, hops)
    requires Resolved(ours, s, hops).kind.Sequence? && Resolved(theirs, s, hops).kind.Sequence?
    ensures merged != null
    ensures var list := if merged in s then Resolved(merged, s, hops) else merged;
            list.kind.Sequence? && list.content == Resolved(ours, s, hops).content + Resolved(theirs, s, hops).content
  {
  }

  datatype Rules = Absent | Joined(rules: Node) | NotAList

  // Two lists give a new one; an absent, null or empty one leaves the other as it is, except that with
  // no rules in the profile nothing is joined at all.
  method AppendRules(added: Node?, profile: Node?, ghost s: set<Node>, ghost hops: map<Node, nat>) returns (r: Rules)
    requires Closed(ContentsOf(s), hops) && (added != null ==> added in s) && (profile != null ==> profile in s)
    ensures r.NotAList? <==> RulesClash(added, profile, s, hops)
    ensures !r.NotAList? ==> RulesJoin(added, profile, if r.Joined? then r.rules else added, s, hops)
    ensures r.Joined? ==> r.rules in s || fresh(r.rules)
  {
    assert forall list: seq<Node> :: [] + list == list == list + [];
    if profile == null {
      return Absent;
    }
    var theirs := ResolveAlias(profile, s, hops);
    if added == null {
      return Joined(theirs);
    }
    var ours := ResolveAlias(added, s, hops);
    if IsNull(ours) || (ours.kind.Sequence? && |ours.content| == 0) {
      return Joined(theirs);
    }
    if IsNull(theirs) {
      return Joined(ours);
    }
    if !ours.kind.Sequence? || !theirs.kind.Sequence? {
      return NotAList;
    }
    var list := new Node(Sequence, "!!seq", "", ours.content + theirs.content);
    return Joined(list);
  }

  // ---- the merge ------------------------------------------------------------------------------

  const SECTIONS := ["proxies", "proxy-groups", "sub-rules"]

  lemma {:induction false} DirectStaysInside(content: seq<Node>, g: set<Node>)
    requires AllIn(content, g)
    ensures Direct(content).Values <= g && AllIn(Sources(content), g)
  {
    if |content| >= 2 {
      DirectStaysInside(content[2..], g);
    }
  }

  // Whatever a lookup in the graph finds is a node of it.
  lemma {:induction false} EntriesStayInside(content: seq<Node>, c: Contents, hops: map<Node, nat>,
                                             layers: map<Node, nat>, bound: nat)
    requires MergesDescend(c, hops, layers) && MergesBelow(content, c, hops, layers, bound)
    requires Direct(content).Values <= c.Keys
    ensures Entries(content, c, hops, layers, bound).Values <= c.Keys
    decreases bound, 1, 0
  {
    EntriesOfAllStayInside(Merged(Sources(content), c, hops), c, hops, layers, bound);
  }

  lemma {:induction false} EntriesOfAllStayInside(ms: seq<Node>, c: Contents, hops: map<Node, nat>,
                                                  layers: map<Node, nat>, bound: nat)
    requires MergesDescend(c, hops, layers) && Layered(ms, c, layers, bound)
    ensures EntriesOfAll(ms, c, hops, layers, bound).Values <= c.Keys
    decreases bound, 0, |ms|
  {
    if ms != [] {
      EntriesOfAllStayInside(ms[1..], c, hops, layers, bound);
      DirectStaysInside(c[ms[0]], c.Keys);
      EntriesStayInside(c[ms[0]], c, hops, layers, layers[ms[0]]);
    }
  }

  lemma EntriesOfNodeStayInside(n: Node, c: Contents, hops: map<Node, nat>, layers: map<Node, nat>)
    requires MergesDescend(c, hops, layers) && n in c && n.kind.Mapping?
    ensures Closed(c, hops) && MergesBelow(c[n], c, hops, layers, layers[n])
    ensures Entries(c[n], c, hops, layers, layers[n]).Values <= c.Keys
  {
    DirectStaysInside(c[n], c.Keys);
    EntriesStayInside(c[n], c, hops, layers, layers[n]);
  }

  lemma TheSections(key: string)
    ensures key in SECTIONS <==> key == "proxies" || key == "proxy-groups" || key == "sub-rules"
  {
  }

  // The overlay's own entries once the first sections are taken from the profile, and its merge
  // sources: a section goes to the sources if a merge key is spelled like it.
  ghost function OwnTaken(content: seq<Node>, theirs: map<string, Node>, count: nat): map<string, Node>
    requires count <= |SECTIONS|
  {
    if count == 0 then Direct(content) else
    var before, key := OwnTaken(content, theirs, count - 1), SECTIONS[count - 1];
    if key in theirs && !IsMergeSpelled(content, key) then before[key := theirs[key]] else before
  }

  ghost function SourcesTaken(content: seq<Node>, theirs: map<string, Node>, count: nat): (r: seq<Node>)
    requires count <= |SECTIONS|
    ensures |r| == |Sources(content)|
  {
    if count == 0 then Sources(content) else
    var before, key := SourcesTaken(content, theirs, count - 1), SECTIONS[count - 1];
    if key in theirs && IsMergeSpelled(content, key) && MergesBefore(content, key) < |before|
    then before[MergesBefore(content, key) := theirs[key]]
    else before
  }

  ghost predicate SectionsTaken(before: seq<Node>, taken: seq<Node>, theirs: map<string, Node>) {
    Direct(taken) == OwnTaken(before, theirs, |SECTIONS|) && Sources(taken) == SourcesTaken(before, theirs, |SECTIONS|)
  }

  // A section the profile has is the root's own entry afterwards exactly if no merge key is spelled like
  // it or it was before; every other own entry is as before.
  lemma {:induction false} SectionIsOwn(before: seq<Node>, taken: seq<Node>, theirs: map<string, Node>, key: string)
    requires SectionsTaken(before, taken, theirs)
    ensures key in SECTIONS && key in theirs ==>
              (Find(Direct(taken), key) == theirs[key] <==>
                 !IsMergeSpelled(before, key) || Find(Direct(before), key) == theirs[key])
    ensures Find(Direct(taken), key) ==
            if key in SECTIONS && key in theirs && !IsMergeSpelled(before, key) then theirs[key]
            else Find(Direct(before), key)
  {
    OwnTakenFinds(before, theirs, key);
  }

  lemma OwnTakenFinds(content: seq<Node>, theirs: map<string, Node>, key: string)
    ensures Find(OwnTaken(content, theirs, 3), key) ==
            if key in SECTIONS && key in theirs && !IsMergeSpelled(content, key) then theirs[key]
            else Find(Direct(content), key)
  {
    hide IsMergeSpelled, Direct;
    var one, two := OwnTaken(content, theirs, 1), OwnTaken(content, theirs, 2);
    assert OwnTaken(content, theirs, 0) == Direct(content);
    assert one == if SECTIONS[0] in theirs && !IsMergeSpelled(content, SECTIONS[0])
                  then Direct(content)[SECTIONS[0] := theirs[SECTIONS[0]]] else Direct(content);
    assert two == if SECTIONS[1] in theirs && !IsMergeSpelled(content, SECTIONS[1])
                  then one[SECTIONS[1] := theirs[SECTIONS[1]]] else one;
  }

  // Takes one section over, if the profile has it.
  method TakeSection(root: Node, profile: Node, key: string, ghost s: set<Node>, ghost hops: map<Node, nat>,
                     ghost layers: map<Node, nat>)
    requires MergesDescend(ContentsOf(s), hops, layers) && root !in s
    requires profile in s && profile.kind.Mapping? && |root.content| % 2 == 0
    modifies root`content
    ensures SameNames(old(root.content), root.content)
    ensures var c := ContentsOf(s);
            var theirs := Entries(c[profile], c, hops, layers, layers[profile]);
            if key in theirs then Assigns(old(root.content), root.content, key, theirs[key])
            else root.content == old(root.content)
  {
    hide Entries, Direct, Sources, Assigned, MergesBelow, Find, Assigns;
    ghost var c := ContentsOf(s);
    ghost var before := root.content;
    var value := MappingValue(profile, key, s, hops, layers, layers[profile]);
    FindNull(Entries(c[profile], c, hops, layers, layers[profile]), key);
    if value != null {
      var name := SetMappingValue(root, key, value);
      AssignedEntries(before, key, name, value);
    }
    assert ContentsOf(s) == c;
  }

  method TakeSections(root: Node, profile: Node, ghost s: set<Node>, ghost hops: map<Node, nat>,
                      ghost layers: map<Node, nat>)
    requires MergesDescend(ContentsOf(s), hops, layers) && root !in s
    requires profile in s && profile.kind.Mapping? && |root.content| % 2 == 0
    modifies root`content
    ensures SameNames(old(root.content), root.content)
    ensures var c := ContentsOf(s);
            SectionsTaken(old(root.content), root.content, Entries(c[profile], c, hops, layers, layers[profile]))
  {
    hide Entries, Direct, Sources, MergesBelow, IsMergeSpelled, MergesBefore;
    ghost var c := ContentsOf(s);
    ghost var theirs := Entries(c[profile], c, hops, layers, layers[profile]);
    for k := 0 to |SECTIONS|
      invariant ContentsOf(s) == c && SameNames(old(root.content), root.content)
      invariant Direct(root.content) == OwnTaken(old(root.content), theirs, k)
      invariant Sources(root.content) == SourcesTaken(old(root.content), theirs, k)
    {
      TakeSection(root, profile, SECTIONS[k], s, hops, layers);
    }
  }

  lemma FindNull(entries: map<string, Node>, key: string)
    ensures Find(entries, key) == (if key in entries then entries[key] else null)
  {
  }

  // A bound above the layers of a graph is above any mapping merged from it.
  ghost predicate AllBelow(s: set<Node>, layers: map<Node, nat>, bound: nat) {
    forall n :: n in s ==> n in layers && layers[n] < bound
  }

  lemma {:induction false} AnyMergesBelow(content: seq<Node>, c: Contents, hops: map<Node, nat>,
                                          layers: map<Node, nat>, bound: nat)
    requires Closed(c, hops) && AllBelow(c.Keys, layers, bound) && AllIn(Sources(content), c.Keys)
    ensures MergesBelow(content, c, hops, layers, bound)
  {
    hide MappingsAmong, Offered;
  }

  lemma {:induction false} SourcesStayInside(before: seq<Node>, theirs: map<string, Node>, count: nat, g: set<Node>)
    requires count <= |SECTIONS| && AllIn(Sources(before), g) && theirs.Values <= g
    ensures AllIn(SourcesTaken(before, theirs, count), g)
  {
    hide Sources, IsMergeSpelled, MergesBefore;
    if count > 0 {
      SourcesStayInside(before, theirs, count - 1, g);
    }
  }

  // How the rules are put in the root after the sections.
  ghost predicate RulesPut(taken: seq<Node>, after: seq<Node>, rules: Rules) {
    if rules.Joined? then Assigns(taken, after, "rules", rules.rules) else after == taken
  }

  // No merge key is spelled like a key the merge writes: a section the profile has, or rules that are
  // joined.
  ghost predicate PlainlySpelled(content: seq<Node>, theirs: map<string, Node>, rules: Rules) {
    && (forall i :: 0 <= i < |SECTIONS| && SECTIONS[i] in theirs ==> !IsMergeSpelled(content, SECTIONS[i]))
    && (rules.Joined? ==> !IsMergeSpelled(content, "rules"))
  }

  // Merged entries: the sections are the profile's where it has them, directly or through its merge
  // keys, the rules are the overlay's list followed by the profile's, and every other key is the
  // overlay's.
  ghost predicate IsMerge(ours: map<string, Node>, theirs: map<string, Node>, merged: map<string, Node>,
                          s: set<Node>, hops: map<Node, nat>)
    requires Closed(ContentsOf(s), hops) && ours.Values <= s && theirs.Values <= s
    reads s, Find(merged, "rules")
  {
    && (forall key: string :: key != "rules" ==>
          Find(merged, key) == if key in SECTIONS && key in theirs then theirs[key] else Find(ours, key))
    && RulesJoin(Find(ours, "rules"), Find(theirs, "rules"), Find(merged, "rules"), s, hops)
  }

  lemma FoundInside(entries: map<string, Node>, key: string, g: set<Node>)
    requires entries.Values <= g
    ensures Find(entries, key) != null ==> Find(entries, key) in g
  {
  }

  // What becomes of the rules found in the root and in the profile.
  ghost predicate RulesOutcome(ours: Node?, theirs: Node?, rules: Rules, s: set<Node>, hops: map<Node, nat>)
    requires Closed(ContentsOf(s), hops)
    reads s, if rules.Joined? then {rules.rules} else {}
  {
    && (ours != null ==> ours in s) && (theirs != null ==> theirs in s)
    && (rules.NotAList? <==> RulesClash(ours, theirs, s, hops))
    && (!rules.NotAList? ==> RulesJoin(ours, theirs, if rules.Joined? then rules.rules else ours, s, hops))
  }

  // And that of the rules looked up in a mapping and in the profile.
  ghost predicate RulesFound(content: seq<Node>, profile: Node, rules: Rules, s: set<Node>, hops: map<Node, nat>,
                             layers: map<Node, nat>, bound: nat)
    requires MergesDescend(ContentsOf(s), hops, layers) && profile in s && profile.kind.Mapping?
    requires MergesBelow(content, ContentsOf(s), hops, layers, bound)
    reads s, if rules.Joined? then {rules.rules} else {}
  {
    var c := ContentsOf(s);
    RulesOutcome(Find(Entries(content, c, hops, layers, bound), "rules"),
                 Find(Entries(c[profile], c, hops, layers, layers[profile]), "rules"), rules, s, hops)
  }

  // Looks the rules up in both and joins them.
  method RulesOf(root: Node, profile: Node, ghost s: set<Node>, ghost hops: map<Node, nat>,
                 ghost layers: map<Node, nat>, ghost bound: nat) returns (rules: Rules)
    requires MergesDescend(ContentsOf(s), hops, layers) && root !in s && profile in s && profile.kind.Mapping?
    requires MergesBelow(root.content, ContentsOf(s), hops, layers, bound)
    requires Entries(root.content, ContentsOf(s), hops, layers, bound).Values <= s
    ensures rules.Joined? ==> rules.rules != root
    ensures RulesFound(root.content, profile, rules, s, hops, layers, bound)
  {
    ghost var c := ContentsOf(s);
    EntriesOfNodeStayInside(profile, c, hops, layers);
    FoundInside(Entries(c[profile], c, hops, layers, layers[profile]), "rules", s);
    FoundInside(Entries(root.content, c, hops, layers, bound), "rules", s);
    hide Entries, EntriesOfAll, MergesBelow, MergesDescend, RulesJoin, RulesClash;
    var added := MappingValue(root, "rules", s, hops, layers, bound);
    var own := MappingValue(profile, "rules", s, hops, layers, layers[profile]);
    rules := AppendRules(added, own, s, hops);
    assert ContentsOf(s) == c;
  }

  method JoinRules(root: Node, profile: Node, ghost s: set<Node>, ghost hops: map<Node, nat>,
                   ghost layers: map<Node, nat>, ghost bound: nat) returns (rules: Rules)
    requires MergesDescend(ContentsOf(s), hops, layers) && root !in s && profile in s && profile.kind.Mapping?
    requires MergesBelow(root.content, ContentsOf(s), hops, layers, bound) && |root.content| % 2 == 0
    requires Entries(root.content, ContentsOf(s), hops, layers, bound).Values <= s
    modifies root`content
    ensures SameNames(old(root.content), root.content) && RulesPut(old(root.content), root.content, rules)
    ensures RulesFound(old(root.content), profile, rules, s, hops, layers, bound)
  {
    ghost var c := ContentsOf(s);
    ghost var before := root.content;
    hide Entries, MergesBelow, MergesDescend, RulesFound, Assigned, HasName, SameNames, Assigns;
    rules := RulesOf(root, profile, s, hops, layers, bound);
    if rules.Joined? {
      var name := SetMappingValue(root, "rules", rules.rules);
      AssignedEntries(before, "rules", name, rules.rules);
    } else {
      NamesAreTheirOwn(before);
    }
    assert ContentsOf(s) == c;
  }

  lemma NamesAreTheirOwn(content: seq<Node>)
    ensures SameNames(content, content)
  {
  }

  // An overlay's root laid over a profile: `taken` is the root once it has the sections, and `rules`
  // what then came of the rules.
  ghost predicate LaidOver(before: seq<Node>, taken: seq<Node>, after: seq<Node>, rules: Rules, profile: Node,
                           s: set<Node>, hops: map<Node, nat>, layers: map<Node, nat>, bound: nat)
    requires MergesDescend(ContentsOf(s), hops, layers) && profile in s && profile.kind.Mapping?
    reads s, if rules.Joined? then {rules.rules} else {}
  {
    var c := ContentsOf(s);
    var theirs := Entries(c[profile], c, hops, layers, layers[profile]);
    && SameNames(before, taken) && SectionsTaken(before, taken, theirs) && MergesBelow(taken, c, hops, layers, bound)
    && RulesPut(taken, after, rules)
    && RulesFound(taken, profile, rules, s, hops, layers, bound)
  }

  method LayOver(root: Node, profile: Node, ghost s: set<Node>, ghost hops: map<Node, nat>,
                 ghost layers: map<Node, nat>, ghost bound: nat) returns (ghost taken: seq<Node>, rules: Rules)
    requires MergesDescend(ContentsOf(s), hops, layers) && AllBelow(s, layers, bound)
    requires root !in s && profile in s && profile.kind.Mapping? && AllIn(root.content, s) && |root.content| % 2 == 0
    modifies root`content
    ensures MergesDescend(ContentsOf(s), hops, layers)
    ensures LaidOver(old(root.content), taken, root.content, rules, profile, s, hops, layers, bound)
  {
    ghost var c := ContentsOf(s);
    ghost var before := root.content;
    TakeSections(root, profile, s, hops, layers);
    taken := root.content;
    assert ContentsOf(s) == c;
    TakenInside(before, taken, profile, c, hops, layers, bound);
    hide Entries, MergesBelow, MergesDescend, RulesFound, SectionsTaken, SameNames, RulesPut, AllBelow;
    rules := JoinRules(root, profile, s, hops, layers, bound);
    assert ContentsOf(s) == c;
  }

  lemma {:induction false} TakenInside(before: seq<Node>, taken: seq<Node>, profile: Node, c: Contents,
                                       hops: map<Node, nat>, layers: map<Node, nat>, bound: nat)
    requires MergesDescend(c, hops, layers) && AllBelow(c.Keys, layers, bound) && AllIn(before, c.Keys)
    requires profile in c && profile.kind.Mapping?
    requires SectionsTaken(before, taken, Entries(c[profile], c, hops, layers, layers[profile]))
    ensures Entries(c[profile], c, hops, layers, layers[profile]).Values <= c.Keys
    ensures MergesBelow(taken, c, hops, layers, bound) && Entries(taken, c, hops, layers, bound).Values <= c.Keys
  {
    var theirs := Entries(c[profile], c, hops, layers, layers[profile]);
    DirectStaysInside(before, c.Keys);
    EntriesOfNodeStayInside(profile, c, hops, layers);
    SourcesStayInside(before, theirs, |SECTIONS|, c.Keys);
    OwnStaysInside(before, theirs, |SECTIONS|, c.Keys);
    AnyMergesBelow(taken, c, hops, layers, bound);
    EntriesStayInside(taken, c, hops, layers, bound);
  }

  lemma {:induction false} OwnStaysInside(before: seq<Node>, theirs: map<string, Node>, count: nat, g: set<Node>)
    requires count <= |SECTIONS| && Direct(before).Values <= g && theirs.Values <= g
    ensures OwnTaken(before, theirs, count).Values <= g
  {
    hide Direct, IsMergeSpelled;
    if count > 0 {
      OwnStaysInside(before, theirs, count - 1, g);
    }
  }

  // With the same sources and some own entries changed, lookups change for those alone.
  lemma {:induction false} SameSources(before: seq<Node>, after: seq<Node>, key: string, c: Contents,
                                       hops: map<Node, nat>, layers: map<Node, nat>, bound: nat)
    requires MergesDescend(c, hops, layers) && MergesBelow(before, c, hops, layers, bound)
    requires Sources(after) == Sources(before)
    ensures MergesBelow(after, c, hops, layers, bound)
    ensures Find(Direct(after), key) == Find(Direct(before), key) ==>
              Find(Entries(after, c, hops, layers, bound), key) == Find(Entries(before, c, hops, layers, bound), key)
    ensures Find(Direct(after), key) != null ==>
              Find(Entries(after, c, hops, layers, bound), key) == Find(Direct(after), key)
  {
    EntriesFindOwnFirst(before, key, c, hops, layers, bound);
    EntriesFindOwnFirst(after, key, c, hops, layers, bound);
    hide Entries, EntriesOfAll, FirstHeld, Merged, Direct, Sources;
  }

  lemma SourcesAsBefore(before: seq<Node>, theirs: map<string, Node>, rules: Rules, count: nat)
    requires count <= |SECTIONS| && PlainlySpelled(before, theirs, rules)
    ensures SourcesTaken(before, theirs, count) == Sources(before)
  {
    hide Sources, IsMergeSpelled, MergesBefore;
    if count > 0 {
      SourcesAsBefore(before, theirs, rules, count - 1);
    }
  }

  // Plainly spelled, the sections are where the profile has them its own, and all else is as it was.
  lemma {:induction false} PlainSections(before: seq<Node>, taken: seq<Node>, theirs: map<string, Node>, rules: Rules,
                                         key: string, c: Contents, hops: map<Node, nat>, layers: map<Node, nat>,
                                         bound: nat)
    requires MergesDescend(c, hops, layers) && MergesBelow(before, c, hops, layers, bound)
    requires SectionsTaken(before, taken, theirs) && PlainlySpelled(before, theirs, rules)
    ensures Sources(taken) == Sources(before) && MergesBelow(taken, c, hops, layers, bound)
    ensures Find(Entries(taken, c, hops, layers, bound), key) ==
            if key in SECTIONS && key in theirs then theirs[key] else Find(Entries(before, c, hops, layers, bound), key)
  {
    SourcesAsBefore(before, theirs, rules, |SECTIONS|);
    SectionIsOwn(before, taken, theirs, key);
    SameSources(before, taken, key, c, hops, layers, bound);
    hide Entries, Direct, Sources, MergesBelow, MergesDescend, SectionsTaken, IsMergeSpelled;
  }

  lemma {:induction false} PlainRules(taken: seq<Node>, after: seq<Node>, rules: Rules, key: string, c: Contents,
                                      hops: map<Node, nat>, layers: map<Node, nat>, bound: nat)
    requires MergesDescend(c, hops, layers) && MergesBelow(taken, c, hops, layers, bound)
    requires RulesPut(taken, after, rules) && (rules.Joined? ==> !IsMergeSpelled(taken, "rules"))
    ensures MergesBelow(after, c, hops, layers, bound)
    ensures Find(Entries(after, c, hops, layers, bound), key) ==
            if key == "rules" && rules.Joined? then rules.rules else Find(Entries(taken, c, hops, layers, bound), key)
  {
    SameSources(taken, after, key, c, hops, layers, bound);
    hide Entries, Direct, Sources, MergesBelow, MergesDescend, IsMergeSpelled;
  }

  // The root after is the merge of the root before with the profile.
  ghost predicate IsPlainMerge(before: seq<Node>, after: seq<Node>, profile: Node, s: set<Node>,
                               hops: map<Node, nat>, layers: map<Node, nat>, bound: nat)
    requires MergesDescend(ContentsOf(s), hops, layers) && profile in s && profile.kind.Mapping?
    requires MergesBelow(before, ContentsOf(s), hops, layers, bound)
    requires MergesBelow(after, ContentsOf(s), hops, layers, bound)
    reads s, Find(Entries(after, ContentsOf(s), hops, layers, bound), "rules")
  {
    var c := ContentsOf(s);
    var ours, theirs := Entries(before, c, hops, layers, bound), Entries(c[profile], c, hops, layers, layers[profile]);
    && ours.Values <= s && theirs.Values <= s
    && IsMerge(ours, theirs, Entries(after, c, hops, layers, bound), s, hops)
  }

  lemma StaysPlain(before: seq<Node>, taken: seq<Node>, theirs: map<string, Node>, rules: Rules)
    requires SameNames(before, taken) && PlainlySpelled(before, theirs, rules)
    ensures rules.Joined? ==> !IsMergeSpelled(taken, "rules")
  {
  }

  // What is found in a plainly spelled root after it was laid over the profile.
  lemma {:induction false} PlainLookups(before: seq<Node>, taken: seq<Node>, after: seq<Node>, rules: Rules,
                                        theirs: map<string, Node>, c: Contents, hops: map<Node, nat>,
                                        layers: map<Node, nat>, bound: nat)
    requires MergesDescend(c, hops, layers) && MergesBelow(before, c, hops, layers, bound)
    requires SameNames(before, taken) && SectionsTaken(before, taken, theirs) && RulesPut(taken, after, rules)
    requires PlainlySpelled(before, theirs, rules)
    ensures MergesBelow(taken, c, hops, layers, bound) && MergesBelow(after, c, hops, layers, bound)
    ensures forall key: string ::
              Find(Entries(after, c, hops, layers, bound), key) ==
              if key == "rules" && rules.Joined? then rules.rules
              else if key in SECTIONS && key in theirs then theirs[key]
              else Find(Entries(before, c, hops, layers, bound), key)
    ensures Find(Entries(taken, c, hops, layers, bound), "rules") ==
            Find(Entries(before, c, hops, layers, bound), "rules")
  {
    StaysPlain(before, taken, theirs, rules);
    hide Entries, MergesBelow, MergesDescend, SectionsTaken, RulesPut, SameNames, PlainlySpelled, IsMergeSpelled;
    PlainSections(before, taken, theirs, rules, "rules", c, hops, layers, bound);
    PlainRules(taken, after, rules, "rules", c, hops, layers, bound);
    forall key: string
      ensures Find(Entries(after, c, hops, layers, bound), key) ==
              if key == "rules" && rules.Joined? then rules.rules
              else if key in SECTIONS && key in theirs then theirs[key]
              else Find(Entries(before, c, hops, layers, bound), key)
    {
      PlainSections(before, taken, theirs, rules, key, c, hops, layers, bound);
      PlainRules(taken, after, rules, key, c, hops, layers, bound);
    }
  }

  // And so laying over is the merge.
  lemma {:induction false} PlainMerge(before: seq<Node>, taken: seq<Node>, after: seq<Node>, rules: Rules,
                                      profile: Node, s: set<Node>, hops: map<Node, nat>, layers: map<Node, nat>,
                                      bound: nat)
    requires MergesDescend(ContentsOf(s), hops, layers) && AllBelow(s, layers, bound) && AllIn(before, s)
    requires profile in s && profile.kind.Mapping? && !rules.NotAList?
    requires var c := ContentsOf(s);
             PlainlySpelled(before, Entries(c[profile], c, hops, layers, layers[profile]), rules)
    requires LaidOver(before, taken, after, rules, profile, s, hops, layers, bound)
    ensures MergesBelow(before, ContentsOf(s), hops, layers, bound)
    ensures MergesBelow(after, ContentsOf(s), hops, layers, bound)
    ensures IsPlainMerge(before, after, profile, s, hops, layers, bound)
  {
    var c := ContentsOf(s);
    EntriesOfNodeStayInside(profile, c, hops, layers);
    DirectStaysInside(before, s);
    AnyMergesBelow(before, c, hops, layers, bound);
    EntriesStayInside(before, c, hops, layers, bound);
    var theirs := Entries(c[profile], c, hops, layers, layers[profile]);
    hide Entries, MergesBelow, MergesDescend, RulesJoin, RulesClash, SectionsTaken, RulesPut, AllBelow, SameNames,
      PlainlySpelled, Find;
    PlainLookups(before, taken, after, rules, theirs, c, hops, layers, bound);
  }

  // Own entries of a root laid over a profile, whatever its merge keys: a section the profile has, and
  // joined rules, are there exactly if no merge key is spelled like them or they were before; every
  // other is as it was.
  ghost predicate OwnAfter(before: seq<Node>, after: seq<Node>, theirs: map<string, Node>, rules: Rules) {
    && (forall key :: key in SECTIONS && key in theirs ==>
          (Find(Direct(after), key) == theirs[key] <==>
             !IsMergeSpelled(before, key) || Find(Direct(before), key) == theirs[key]))
    && (rules.Joined? ==>
          (Find(Direct(after), "rules") == rules.rules <==>
             !IsMergeSpelled(before, "rules") || Find(Direct(before), "rules") == rules.rules))
    && (forall key: string :: !(key in SECTIONS && key in theirs) && !(key == "rules" && rules.Joined?) ==>
          Find(Direct(after), key) == Find(Direct(before), key))
  }

  lemma LaidOverIsTaken(before: seq<Node>, taken: seq<Node>, after: seq<Node>, rules: Rules, profile: Node,
                        s: set<Node>, hops: map<Node, nat>, layers: map<Node, nat>, bound: nat)
    requires MergesDescend(ContentsOf(s), hops, layers) && profile in s && profile.kind.Mapping?
    requires LaidOver(before, taken, after, rules, profile, s, hops, layers, bound)
    ensures SameNames(before, taken) && RulesPut(taken, after, rules)
    ensures var c := ContentsOf(s);
            SectionsTaken(before, taken, Entries(c[profile], c, hops, layers, layers[profile]))
  {
  }

  lemma {:induction false} LaidOverOwns(before: seq<Node>, taken: seq<Node>, after: seq<Node>,
                                        theirs: map<string, Node>, rules: Rules)
    requires SameNames(before, taken) && SectionsTaken(before, taken, theirs) && RulesPut(taken, after, rules)
    ensures OwnAfter(before, after, theirs, rules)
  {
    forall key: string
      ensures Find(Direct(taken), key) ==
              if key in SECTIONS && key in theirs && !IsMergeSpelled(before, key) then theirs[key]
              else Find(Direct(before), key)
    {
      SectionIsOwn(before, taken, theirs, key);
    }
    hide Direct, Sources, SectionsTaken, IsMergeSpelled, MergesBefore;
  }

  // The merged document, or none if rules are to be joined that are not lists. Where no merge key is
  // spelled like a key it writes, its root is the merge of overlay and profile.
  method MergeProfileBase(root: Node, profile: Node, ghost s: set<Node>, ghost hops: map<Node, nat>,
                          ghost layers: map<Node, nat>, ghost bound: nat)
      returns (document: Node?, ghost taken: seq<Node>, ghost rules: Rules)
    requires MergesDescend(ContentsOf(s), hops, layers) && AllBelow(s, layers, bound)
    requires root !in s && profile in s && profile.kind.Mapping? && AllIn(root.content, s) && |root.content| % 2 == 0
    modifies root`content
    ensures MergesDescend(ContentsOf(s), hops, layers) && (document == null <==> rules.NotAList?)
    ensures document != null ==> document.kind.Document? && document.content == [root]
    ensures LaidOver(old(root.content), taken, root.content, rules, profile, s, hops, layers, bound)
    ensures var c := ContentsOf(s);
            var theirs := Entries(c[profile], c, hops, layers, layers[profile]);
            && OwnAfter(old(root.content), root.content, theirs, rules)
            && (document != null && PlainlySpelled(old(root.content), theirs, rules) ==>
              && MergesBelow(old(root.content), ContentsOf(s), hops, layers, bound)
              && MergesBelow(root.content, ContentsOf(s), hops, layers, bound)
              && IsPlainMerge(old(root.content), root.content, profile, s, hops, layers, bound))
  {
    ghost var c := ContentsOf(s);
    ghost var before := root.content;
    var result := new Node(Document, "", "", [root]);
    assert ContentsOf(s) == c;
    hide LaidOver, IsPlainMerge, PlainlySpelled, MergesDescend, SectionsTaken, SameNames, RulesPut, OwnAfter, Entries;
    var outcome;
    taken, outcome := LayOver(root, profile, s, hops, layers, bound);
    rules := outcome;
    assert ContentsOf(s) == c;
    ghost var theirs := Entries(c[profile], c, hops, layers, layers[profile]);
    LaidOverIsTaken(before, taken, root.content, rules, profile, s, hops, layers, bound);
    LaidOverOwns(before, taken, root.content, theirs, rules);
    if outcome.NotAList? {
      return null, taken, rules;
    }
    if PlainlySpelled(before, theirs, rules) {
      PlainMerge(before, taken, root.content, rules, profile, s, hops, layers, bound);
    }
    return result, taken, rules;
  }
}
