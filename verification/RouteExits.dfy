/** The exit a connection leaves through, found from the outermost group and from a finished chain. */
module RouteExits {
  import opened Options

  datatype Proxy = Proxy(name: string, kind: string, addr: string)

  // The kind of group at which an exit is settled.
  const LOAD_BALANCE := "LoadBalance"

  // The proxies by name, and for one connection what each group resolves to.
  datatype Tunnel = Tunnel(proxies: map<string, Proxy>, unwrap: map<Proxy, Proxy>)

  // The whole proxy, so that another server under the same name is another exit; None for the empty
  // answer.
  type Exit = Option<Proxy>

  // Unwrapping ends: no group resolves to itself.
  ghost predicate UnwrapEnds(t: Tunnel, rank: map<Proxy, nat>) {
    forall p :: p in t.unwrap ==>
      p in rank && t.unwrap[p] in rank && rank[t.unwrap[p]] < rank[p]
  }

  // Where following the groups down first meets a load balancer or a proxy that is no group.
  ghost function Through(t: Tunnel, p: Proxy, rank: map<Proxy, nat>): Proxy
    requires UnwrapEnds(t, rank)
    decreases if p in rank then rank[p] else 0
  {
    if p.kind == LOAD_BALANCE || p !in t.unwrap then p else Through(t, t.unwrap[p], rank)
  }

  method ExitThrough(t: Tunnel, proxy: Option<Proxy>, ghost rank: map<Proxy, nat>) returns (exit: Exit)
    requires UnwrapEnds(t, rank)
    ensures exit == if proxy.None? then None else Some(Through(t, proxy.value, rank))
  {
    if proxy.None? {
      return None;
    }
    var p := proxy.value;
    while true
      invariant Through(t, p, rank) == Through(t, proxy.value, rank)
      decreases if p in rank then rank[p] else 0
    {
      if p.kind == LOAD_BALANCE {
        return Some(p);
      }
      if p !in t.unwrap {
        return Some(p);
      }
      p := t.unwrap[p];
    }
  }

  // The balancer nearest the outermost group, the leaf aside; else the leaf.
  method ExitOfChains(t: Tunnel, chains: seq<string>) returns (exit: Exit)
    ensures exit == ChainExit(t, chains)
  {
    if |chains| == 0 {
      return None;
    }
    var i := |chains| - 1;
    assert chains[..i + 1] == chains;
    while i > 0
      invariant 0 <= i < |chains|
      invariant ChainExit(t, chains) == ChainExit(t, chains[..i + 1])
    {
      var name := chains[i];
      assert chains[..i + 1][..i] == chains[..i];
      if name in t.proxies && t.proxies[name].kind == LOAD_BALANCE {
        return Some(t.proxies[name]);
      }
      i := i - 1;
    }
    var leaf := chains[0];
    return if leaf in t.proxies then Some(t.proxies[leaf]) else None;
  }

  ghost function ChainExit(t: Tunnel, chains: seq<string>): Exit {
    if chains == [] then None else
    var last := chains[|chains| - 1];
    if |chains| == 1 then (if last in t.proxies then Some(t.proxies[last]) else None)
    else if last in t.proxies && t.proxies[last].kind == LOAD_BALANCE then Some(t.proxies[last])
    else ChainExit(t, chains[..|chains| - 1])
  }

  // What following the groups finds: the first proxy down the way that is a load balancer or no group.
  // That is a way a connection may take, to any member after a load balancer.
  lemma {:induction false} ThroughIsTheFirstStop(t: Tunnel, p: Proxy, rank: map<Proxy, nat>) returns (way: seq<Proxy>)
    requires UnwrapEnds(t, rank)
    ensures way != [] && way[0] == p && way[|way| - 1] == Through(t, p, rank)
    ensures forall i :: 0 <= i < |way| - 1 ==>
              way[i].kind != "LoadBalance" && way[i] in t.unwrap && t.unwrap[way[i]] == way[i + 1]
    ensures Through(t, p, rank).kind == "LoadBalance" || Through(t, p, rank) !in t.unwrap
    ensures IsWay(t, way)
    ensures Through(t, p, rank).kind == "LoadBalance" ==> forall members :: IsWay(t, way + members)
    decreases if p in rank then rank[p] else 0
  {
    if p.kind == "LoadBalance" || p !in t.unwrap {
      way := [p];
    } else {
      var rest := ThroughIsTheFirstStop(t, t.unwrap[p], rank);
      way := [p] + rest;
      assert forall members :: (way + members)[1..] == rest + members;
    }
  }

  ghost predicate IsBalancer(t: Tunnel, name: string) { name in t.proxies && t.proxies[name].kind == "LoadBalance" }

  // No name behind a place in a chain is that of a load balancer.
  ghost predicate NoneBehind(t: Tunnel, chains: seq<string>, i: int) {
    forall j :: i < j < |chains| && 0 <= j ==> !IsBalancer(t, chains[j])
  }

  // What a chain names: the load balancer nearest its outermost end, its innermost name aside; without one,
  // what its innermost name stands for, if anything.
  lemma {:induction false} ChainExitIsTheFirstBalancer(t: Tunnel, chains: seq<string>, i: nat)
    requires i < |chains| && NoneBehind(t, chains, i)
    ensures i > 0 && IsBalancer(t, chains[i]) ==> ChainExit(t, chains) == Some(t.proxies[chains[i]])
    ensures i == 0 ==> ChainExit(t, chains) == if chains[0] in t.proxies then Some(t.proxies[chains[0]]) else None
    ensures ChainExit(t, []) == None
  {
    if i + 1 < |chains| {
      var rest := chains[..|chains| - 1];
      assert rest[i] == chains[i] && rest[0] == chains[0];
      ChainExitIsTheFirstBalancer(t, rest, i);
      assert !IsBalancer(t, chains[|chains| - 1]);
    }
  }

  // A connection's way in, outermost group first: it follows what each group resolves to until the
  // first load balancer, which may pick any member, and it ends at a proxy that is no group.
  ghost predicate IsWay(t: Tunnel, way: seq<Proxy>) {
    way != [] &&
    if way[0].kind == LOAD_BALANCE then true
    else if |way| == 1 then way[0] !in t.unwrap
    else way[0] in t.unwrap && t.unwrap[way[0]] == way[1] && IsWay(t, way[1..])
  }

  ghost predicate Known(t: Tunnel, way: seq<Proxy>) {
    forall i :: 0 <= i < |way| ==> way[i].name in t.proxies && t.proxies[way[i].name] == way[i]
  }

  // The names along a way, innermost first, as a finished connection records them.
  ghost function ChainOf(way: seq<Proxy>): seq<string> {
    if way == [] then [] else ChainOf(way[1..]) + [way[0].name]
  }

  lemma ChainLength(way: seq<Proxy>)
    ensures |ChainOf(way)| == |way|
  {
  }

  // A finished connection's chain names the exit that following the groups finds.
  lemma {:induction false} BothFindTheSameExit(t: Tunnel, way: seq<Proxy>, rank: map<Proxy, nat>)
    requires UnwrapEnds(t, rank) && IsWay(t, way) && Known(t, way)
    ensures ChainExit(t, ChainOf(way)) == Some(Through(t, way[0], rank))
  {
    ChainLength(way);
    ChainLength(way[1..]);
    var chain := ChainOf(way);
    assert chain[|chain| - 1] == way[0].name && chain[..|chain| - 1] == ChainOf(way[1..]);
    if |way| > 1 && way[0].kind != LOAD_BALANCE {
      BothFindTheSameExit(t, way[1..], rank);
    }
  }

  // ---- checking recorded routes ---------------------------------------------------------------

  datatype Hit = Hit(host: string, proxy: string, exit: Exit)

  datatype Target = Target(host: string, proxy: string)

  // A recorded route still holds: it has hits, and each resolves to the exit it was recorded with.
  ghost predicate RouteHolds(route: seq<Hit>, resolve: Target -> Exit) {
    route != [] && forall i :: 0 <= i < |route| ==> resolve(Target(route[i].host, route[i].proxy)) == route[i].exit
  }

  lemma HoldsByItsHits(route: seq<Hit>, resolve: Target -> Exit)
    ensures RouteHolds(route, resolve) <==>
            route != [] && forall hit :: hit in route ==> resolve(Target(hit.host, hit.proxy)) == hit.exit
  {
    assert forall i :: 0 <= i < |route| ==> route[i] in route;
  }

  function TargetOf(hit: Hit): Target { Target(hit.host, hit.proxy) }

  // A hit is looked at if all before it in its route resolve to their exits.
  ghost predicate LookedAt(route: seq<Hit>, resolve: Target -> Exit, h: nat) {
    h < |route| && forall i :: 0 <= i < h ==> resolve(TargetOf(route[i])) == route[i].exit
  }

  ghost predicate NeededIn(route: seq<Hit>, resolve: Target -> Exit, target: Target) {
    exists h: nat :: LookedAt(route, resolve, h) && TargetOf(route[h]) == target
  }

  ghost predicate Needed(routes: seq<seq<Hit>>, resolve: Target -> Exit, target: Target) {
    exists r :: 0 <= r < |routes| && NeededIn(routes[r], resolve, target)
  }

  // A target is needed exactly if it is that of some hit ahead of which, in its route, every hit resolves to
  // the exit recorded.
  lemma NeededTargets(routes: seq<seq<Hit>>, resolve: Target -> Exit, target: Target)
    ensures Needed(routes, resolve, target) <==>
            exists r, h ::
              && 0 <= r < |routes| && 0 <= h < |routes[r]|
              && Target(routes[r][h].host, routes[r][h].proxy) == target
              && forall i :: 0 <= i < h ==>
                   resolve(Target(routes[r][i].host, routes[r][i].proxy)) == routes[r][i].exit
  {
    if Needed(routes, resolve, target) {
      var r :| 0 <= r < |routes| && NeededIn(routes[r], resolve, target);
      var h: nat :| LookedAt(routes[r], resolve, h) && TargetOf(routes[r][h]) == target;
      assert Target(routes[r][h].host, routes[r][h].proxy) == target;
    }
    if r, h :| 0 <= r < |routes| && 0 <= h < |routes[r]| && Target(routes[r][h].host, routes[r][h].proxy) == target &&
               forall i :: 0 <= i < h ==>
                 resolve(Target(routes[r][i].host, routes[r][i].proxy)) == routes[r][i].exit
    {
      assert LookedAt(routes[r], resolve, h) && NeededIn(routes[r], resolve, target);
    }
  }

  lemma OneMoreRoute(routes: seq<seq<Hit>>, route: seq<Hit>, resolve: Target -> Exit, target: Target)
    ensures Needed(routes + [route], resolve, target) <==>
            Needed(routes, resolve, target) || NeededIn(route, resolve, target)
  {
    hide NeededIn;
    if Needed(routes, resolve, target) {
      var r :| 0 <= r < |routes| && NeededIn(routes[r], resolve, target);
      assert (routes + [route])[r] == routes[r];
    }
    assert (routes + [route])[|routes|] == route;
  }

  lemma OneMoreHit(route: seq<Hit>, resolve: Target -> Exit, h: nat, target: Target)
    requires LookedAt(route, resolve, h)
    ensures NeededIn(route[..h + 1], resolve, target) <==>
            NeededIn(route[..h], resolve, target) || TargetOf(route[h]) == target
  {
    if NeededIn(route[..h], resolve, target) {
      var k: nat :| LookedAt(route[..h], resolve, k) && TargetOf(route[..h][k]) == target;
      assert LookedAt(route[..h + 1], resolve, k);
    }
    if NeededIn(route[..h + 1], resolve, target) {
      var k: nat :| LookedAt(route[..h + 1], resolve, k) && TargetOf(route[..h + 1][k]) == target;
      assert k < h ==> LookedAt(route[..h], resolve, k);
    }
    assert LookedAt(route[..h + 1], resolve, h);
  }

  // Nothing is looked at behind a hit that does not resolve to its exit.
  lemma {:induction false} NothingBehind(route: seq<Hit>, resolve: Target -> Exit, h: nat, target: Target)
    requires h <= |route|
    requires h == |route| || (h > 0 && resolve(TargetOf(route[h - 1])) != route[h - 1].exit)
    ensures NeededIn(route, resolve, target) <==> NeededIn(route[..h], resolve, target)
  {
    if NeededIn(route[..h], resolve, target) {
      var k: nat :| LookedAt(route[..h], resolve, k) && TargetOf(route[..h][k]) == target;
      assert LookedAt(route, resolve, k) by {
        assert forall i :: 0 <= i < k ==> route[..h][i] == route[i];
      }
    }
    if NeededIn(route, resolve, target) {
      var k: nat :| LookedAt(route, resolve, k) && TargetOf(route[k]) == target;
      assert LookedAt(route[..h], resolve, k);
    }
  }

  class Resolver {
    const resolve: Target -> Exit
    ghost var asked: seq<Target>

    constructor (resolve: Target -> Exit)
      ensures this.resolve == resolve && asked == []
    {
      this.resolve, asked := resolve, [];
    }

    method Resolve(target: Target) returns (exit: Exit)
      modifies this
      ensures exit == resolve(target) && asked == old(asked) + [target]
    {
      exit := resolve(target);
      asked := asked + [target];
    }
  }

  ghost predicate AllDifferent(asked: seq<Target>) {
    forall i, j :: 0 <= i < j < |asked| ==> asked[i] != asked[j]
  }

  // The memo has the exits of just the targets resolved, each once.
  ghost predicate MemoHolds(exits: map<Target, Exit>, asked: seq<Target>, resolve: Target -> Exit) {
    && (forall target :: target in exits <==> target in asked)
    && (forall target :: target in exits ==> exits[target] == resolve(target))
    && AllDifferent(asked)
  }

  // The targets resolved are those needed for some routes and for part of one more.
  ghost predicate AskedFor(asked: seq<Target>, routes: seq<seq<Hit>>, part: seq<Hit>, resolve: Target -> Exit) {
    forall target :: target in asked <==> Needed(routes, resolve, target) || NeededIn(part, resolve, target)
  }

  lemma AskedForHit(asked: seq<Target>, routes: seq<seq<Hit>>, route: seq<Hit>, resolve: Target -> Exit, h: nat)
    requires LookedAt(route, resolve, h) && AskedFor(asked, routes, route[..h], resolve)
    ensures TargetOf(route[h]) in asked ==> AskedFor(asked, routes, route[..h + 1], resolve)
    ensures AskedFor(asked + [TargetOf(route[h])], routes, route[..h + 1], resolve)
  {
    forall target: Target
      ensures NeededIn(route[..h + 1], resolve, target) <==>
              NeededIn(route[..h], resolve, target) || TargetOf(route[h]) == target
    {
      OneMoreHit(route, resolve, h, target);
    }
    hide Needed, NeededIn;
  }

  lemma AskedForRoute(asked: seq<Target>, routes: seq<seq<Hit>>, route: seq<Hit>, resolve: Target -> Exit, h: nat)
    requires h <= |route| && AskedFor(asked, routes, route[..h], resolve)
    requires h == |route| || (h > 0 && resolve(TargetOf(route[h - 1])) != route[h - 1].exit)
    ensures AskedFor(asked, routes + [route], [], resolve)
  {
    forall target: Target
      ensures Needed(routes + [route], resolve, target) <==>
              Needed(routes, resolve, target) || NeededIn(route[..h], resolve, target)
    {
      NothingBehind(route, resolve, h, target);
      OneMoreRoute(routes, route, resolve, target);
    }
    hide Needed;
  }

  // Whether one route holds. A target is resolved when it is first looked at and remembered.
  method CheckRoute(route: seq<Hit>, known: map<Target, Exit>, resolver: Resolver, ghost before: seq<seq<Hit>>)
      returns (holds: bool, exits: map<Target, Exit>)
    requires MemoHolds(known, resolver.asked, resolver.resolve)
    requires AskedFor(resolver.asked, before, [], resolver.resolve)
    modifies resolver
    ensures holds == RouteHolds(route, resolver.resolve) && MemoHolds(exits, resolver.asked, resolver.resolve)
    ensures AskedFor(resolver.asked, before + [route], [], resolver.resolve)
  {
    hide AskedFor;
    ghost var resolve := resolver.resolve;
    exits := known;
    var h := 0;
    assert route[..0] == [];
    while h < |route|
      invariant h <= |route| && MemoHolds(exits, resolver.asked, resolve)
      invariant forall i :: 0 <= i < h ==> resolve(TargetOf(route[i])) == route[i].exit
      invariant AskedFor(resolver.asked, before, route[..h], resolve)
    {
      var key := TargetOf(route[h]);
      AskedForHit(resolver.asked, before, route, resolve, h);
      if key !in exits {
        var exit := resolver.Resolve(key);
        exits := exits[key := exit];
      }
      h := h + 1;
      if exits[key] != route[h - 1].exit {
        AskedForRoute(resolver.asked, before, route, resolve, h);
        return false, exits;
      }
    }
    AskedForRoute(resolver.asked, before, route, resolve, h);
    return |route| > 0, exits;
  }

  // The targets resolved are those of the hits looked at, each once, however often it is looked at.
  method CheckRoutes(routes: seq<seq<Hit>>, resolver: Resolver) returns (held: seq<bool>)
    requires resolver.asked == []
    modifies resolver
    ensures |held| == |routes|
    ensures forall r :: 0 <= r < |routes| ==> held[r] == RouteHolds(routes[r], resolver.resolve)
    ensures forall r :: 0 <= r < |routes| ==>
              (held[r] <==>
               && routes[r] != []
               && forall hit :: hit in routes[r] ==> resolver.resolve(Target(hit.host, hit.proxy)) == hit.exit)
    ensures AllDifferent(resolver.asked)
    ensures forall target :: target in resolver.asked <==> Needed(routes, resolver.resolve, target)
  {
    held := [];
    var exits: map<Target, Exit> := map[];
    ghost var resolve := resolver.resolve;
    for r := 0 to |routes|
      invariant |held| == r && forall k :: 0 <= k < r ==> held[k] == RouteHolds(routes[k], resolve)
      invariant MemoHolds(exits, resolver.asked, resolve) && AskedFor(resolver.asked, routes[..r], [], resolve)
    {
      hide MemoHolds, AskedFor, RouteHolds;
      var holds;
      holds, exits := CheckRoute(routes[r], exits, resolver, routes[..r]);
      assert routes[..r + 1] == routes[..r] + [routes[r]];
      held := held + [holds];
    }
    assert routes[..|routes|] == routes;
    forall r | 0 <= r < |routes|
      ensures held[r] <==>
              && routes[r] != []
              && forall hit :: hit in routes[r] ==> resolve(Target(hit.host, hit.proxy)) == hit.exit
    {
      HoldsByItsHits(routes[r], resolve);
    }
    hide Needed, RouteHolds;
  }
}
