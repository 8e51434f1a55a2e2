/** The greedy search for several paths, each the best of its round under diversity penalties. */
module RouteSearch {
  import opened Common
  import opened Routing

  // ---------------------------------------------------------------- weights

  datatype Weight = Finite(value: real) | Infinite

  type Weights = map<Edge, Weight>

  predicate AtMost(v: Weight, w: Weight) {
    w.Infinite? || (v.Finite? && v.value <= w.value)
  }

  function Plus(v: Weight, w: Weight): Weight {
    if v.Infinite? || w.Infinite? then Infinite else Finite(v.value + w.value)
  }

  /** The total weight of the edges of a path. */
  function PathWeight(weights: Weights, nodes: Nodes): Weight
    requires forall i :: 0 <= i < |nodes| - 1 ==> (nodes[i], nodes[i + 1]) in weights
  {
    if |nodes| < 2 then Finite(0.0)
    else Plus(weights[(nodes[0], nodes[1])], PathWeight(weights, nodes[1..]))
  }

  /** One hop, plus penalties for an earlier use of the channel, for fees, and for a partner that cannot refund. */
  function EdgeWeight(visited: real, view: EdgeView, viewFromPartner: EdgeView, amount: int, feePenalty: real,
                      hop: AmountWithFees): Weight
  {
    var query := HopQuery(amount, view.capacity, view.capacity, Capped(view.feesReceiver), Capped(view.feesSender), view.capacity);
    match hop(query)
    case None => Infinite
    case Some(amountWithFees) =>
      var feeWeight := (amountWithFees - amount) as real / 1_000_000_000_000_000_000.0 * feePenalty;
      var noRefundWeight := if viewFromPartner.capacity < 11 * amount / 10 then 1.0 else 0.0;
      Finite(1.0 + visited + feeWeight + noRefundWeight)
  }

  // ---------------------------------------------------------------- requests

  /** A route request with everything it reads; the enumeration is the library's. */
  datatype Search = Search(
    G: Graph, source: Address, target: Address, value: int, maxPaths: int, diversityPenalty: real, feePenalty: real,
    reachable: Address -> bool, online: Address -> bool, hop: AmountWithFees,
    enumerate: (Graph, Weights, Address, Address) -> seq<Nodes>)

  predicate IsSimplePath(G: Graph, nodes: Nodes, source: Address, target: Address) {
    && nodes != [] && nodes[0] == source && nodes[|nodes| - 1] == target
    && IsWalk(G, nodes)
    && (forall i, j :: 0 <= i < j < |nodes| ==> nodes[i] != nodes[j])
    && exists e :: e in G && (e.0 == source || e.1 == source)
  }

  /** All simple paths, each once, in the order of their weight; an empty result stands for the library's exceptions. */
  ghost predicate IsEnumeration(G: Graph, weights: Weights, source: Address, target: Address, paths: seq<Nodes>)
    requires weights.Keys == G.Keys
  {
    && (forall p :: p in paths <==> IsSimplePath(G, p, source, target))
    && (forall i, j :: 0 <= i < j < |paths| ==> paths[i] != paths[j])
    && (forall i, j :: 0 <= i < j < |paths| ==> IsLighter(G, weights, paths[i], paths[j]))
  }

  ghost predicate IsLighter(G: Graph, weights: Weights, p: Nodes, q: Nodes)
    requires weights.Keys == G.Keys
  {
    IsWalk(G, p) && IsWalk(G, q) && AtMost(PathWeight(weights, p), PathWeight(weights, q))
  }

  predicate NonNegative(weights: Weights) {
    forall e :: e in weights && weights[e].Finite? ==> weights[e].value >= 0.0
  }

  /** The library promises an enumeration for weights that are not negative. */
  ghost predicate LibraryEnumerates(s: Search) {
    var pruned := Pruned(s.G, s.reachable);
    forall weights: Weights :: weights.Keys == pruned.Keys && NonNegative(weights) ==>
      IsEnumeration(pruned, weights, s.source, s.target, s.enumerate(pruned, weights, s.source, s.target))
  }

  /**
   A route that may be returned: a usable walk of the whole graph from source to target over reachable nodes,
   none of them twice. A single node is one only if it has a channel with a reachable partner.
   */
  ghost predicate IsRoute(s: Search, nodes: Nodes) {
    && nodes != [] && nodes[0] == s.source && nodes[|nodes| - 1] == s.target
    && IsWalk(s.G, nodes) && IsUsable(s.G, nodes, s.value, s.hop, s.online)
    && (forall i :: 0 <= i < |nodes| ==> s.reachable(nodes[i]))
    && (forall i, j :: 0 <= i < j < |nodes| ==> nodes[i] != nodes[j])
    && (|nodes| == 1 ==> exists partner :: (s.source, partner) in s.G && s.reachable(partner))
  }

  ghost predicate AllRoutes(s: Search, routes: seq<Nodes>) {
    AllWalks(s.G, routes) && forall r :: r in routes ==> IsRoute(s, r)
  }

  /** A simple path of the pruned graph is a walk of the graph over reachable nodes. */
  lemma PrunedWalk(s: Search, nodes: Nodes)
    requires IsSimplePath(Pruned(s.G, s.reachable), nodes, s.source, s.target)
    ensures IsWalk(s.G, nodes)
    ensures forall i :: 0 <= i < |nodes| ==> s.reachable(nodes[i])
  {
    forall i | 0 <= i < |nodes|
      ensures s.reachable(nodes[i])
    {
      if |nodes| > 1 {
        var k := if i + 1 < |nodes| then i else i - 1;
        assert (nodes[k], nodes[k + 1]) in Pruned(s.G, s.reachable);
      }
    }
  }

  /** Pruning neither adds nor loses a route. */
  lemma PruningKeepsRoutes(s: Search, nodes: Nodes)
    requires Symmetric(s.G)
    ensures IsRoute(s, nodes) <==>
      && IsSimplePath(Pruned(s.G, s.reachable), nodes, s.source, s.target)
      && IsWalk(s.G, nodes) && IsUsable(s.G, nodes, s.value, s.hop, s.online)
  {
    if IsRoute(s, nodes) {
      RouteSurvives(s, nodes);
    } else if IsSimplePath(Pruned(s.G, s.reachable), nodes, s.source, s.target) {
      PrunedWalk(s, nodes);
      if |nodes| == 1 {
        var e :| e in Pruned(s.G, s.reachable) && (e.0 == s.source || e.1 == s.source);
        assert (e.0, e.1) in s.G && (e.1, e.0) in s.G;
      }
    }
  }

  lemma RouteSurvives(s: Search, nodes: Nodes)
    requires Symmetric(s.G) && IsRoute(s, nodes)
    ensures IsSimplePath(Pruned(s.G, s.reachable), nodes, s.source, s.target)
  {
    if |nodes| == 1 {
      var partner :| (s.source, partner) in s.G && s.reachable(partner);
      assert (s.source, partner) in Pruned(s.G, s.reachable);
    } else {
      assert (nodes[0], nodes[1]) in Pruned(s.G, s.reachable);
    }
  }

  predicate AllWalks(G: Graph, routes: seq<Nodes>) {
    forall r :: r in routes ==> IsWalk(G, r)
  }

  /** Penalties are not negative, and capped fee schedules charge no negative fees. */
  ghost predicate PenalisesOnly(s: Search) {
    && s.diversityPenalty >= 0.0 && s.feePenalty >= 0.0
    && forall q: HopQuery :: q.scheduleIn.Capped? && q.scheduleOut.Capped? && s.hop(q).Some? ==> s.hop(q).value >= q.amount
  }

  // ---------------------------------------------------------------- what a round weighs

  /** How many edges of a path belong to a channel. */
  function UsesOnPath(G: Graph, nodes: Nodes, id: nat): nat
    requires IsWalk(G, nodes)
  {
    if |nodes| < 2 then 0
    else
      assert IsWalk(G, nodes[..|nodes| - 1]);
      UsesOnPath(G, nodes[..|nodes| - 1], id) + if EdgeAt(G, nodes, |nodes| - 2).channelId == id then 1 else 0
  }

  function Uses(G: Graph, routes: seq<Nodes>, id: nat): nat
    requires AllWalks(G, routes)
  {
    if routes == [] then 0 else Uses(G, routes[..|routes| - 1], id) + UsesOnPath(G, routes[|routes| - 1], id)
  }

  /** The positions at which a path goes over a channel. */
  ghost function EdgesOver(G: Graph, nodes: Nodes, id: nat): set<nat>
    requires IsWalk(G, nodes)
  {
    set i: nat | i < |nodes| - 1 && EdgeAt(G, nodes, i).channelId == id
  }

  lemma LastEdgeOver(G: Graph, nodes: Nodes, id: nat)
    requires IsWalk(G, nodes) && |nodes| >= 2
    ensures IsWalk(G, nodes[..|nodes| - 1])
    ensures |EdgesOver(G, nodes, id)|
            == |EdgesOver(G, nodes[..|nodes| - 1], id)| + if EdgeAt(G, nodes, |nodes| - 2).channelId == id then 1 else 0
  {
    var front, last := nodes[..|nodes| - 1], |nodes| - 2;
    var before, all := EdgesOver(G, front, id), EdgesOver(G, nodes, id);
    forall i: nat
      ensures i in all <==> i in before || (i == last && EdgeAt(G, nodes, last).channelId == id)
    {
      if i < last {
        assert EdgeAt(G, front, i) == EdgeAt(G, nodes, i);
      }
    }
    assert last !in before;
    if EdgeAt(G, nodes, last).channelId == id {
      assert all == before + {last};
    } else {
      assert all == before;
    }
  }

  /** Uses are counted once per edge. */
  lemma {:induction false} UsesAreCounted(G: Graph, nodes: Nodes, id: nat)
    requires IsWalk(G, nodes)
    ensures UsesOnPath(G, nodes, id) == |EdgesOver(G, nodes, id)|
  {
    if |nodes| < 2 {
      assert EdgesOver(G, nodes, id) == {};
    } else {
      LastEdgeOver(G, nodes, id);
      UsesAreCounted(G, nodes[..|nodes| - 1], id);
    }
  }

  /** The weights after some routes were found: a channel is penalised once for every edge on an earlier route. */
  function RoundWeights(s: Search, earlier: seq<Nodes>): Weights
    requires Symmetric(s.G) && AllWalks(s.G, earlier)
  {
    map e | e in Pruned(s.G, s.reachable) :: RoundWeight(s, earlier, e)
  }

  function RoundWeight(s: Search, earlier: seq<Nodes>, e: Edge): Weight
    requires AllWalks(s.G, earlier) && e in s.G && (e.1, e.0) in s.G
  {
    EdgeWeight(TotalPenalty(s.diversityPenalty, Uses(s.G, earlier, s.G[e].channelId)), s.G[e], s.G[(e.1, e.0)],
               s.value, s.feePenalty, s.hop)
  }

  /** The weight of a walk in a round. */
  function RouteWeight(s: Search, earlier: seq<Nodes>, nodes: Nodes): Weight
    requires Symmetric(s.G) && AllWalks(s.G, earlier) && IsWalk(s.G, nodes)
  {
    if |nodes| < 2 then Finite(0.0)
    else
      assert IsWalk(s.G, nodes[1..]) by {
        assert forall i :: 0 <= i < |nodes[1..]| - 1 ==> (nodes[1..][i], nodes[1..][i + 1]) == (nodes[i + 1], nodes[i + 2]);
      }
      assert (nodes[0], nodes[1]) in s.G;
      Plus(RoundWeight(s, earlier, (nodes[0], nodes[1])), RouteWeight(s, earlier, nodes[1..]))
  }

  /** The weight of a path in the pruned graph is its weight as a walk. */
  lemma {:induction false} PrunedWeight(s: Search, earlier: seq<Nodes>, nodes: Nodes)
    requires Symmetric(s.G) && AllWalks(s.G, earlier) && IsWalk(s.G, nodes) && IsWalk(Pruned(s.G, s.reachable), nodes)
    ensures PathWeight(RoundWeights(s, earlier), nodes) == RouteWeight(s, earlier, nodes)
  {
    if |nodes| >= 2 {
      assert forall i :: 0 <= i < |nodes[1..]| - 1 ==> (nodes[1..][i], nodes[1..][i + 1]) == (nodes[i + 1], nodes[i + 2]);
      PrunedWeight(s, earlier, nodes[1..]);
    }
  }

  function TotalPenalty(penalty: real, uses: nat): real {
    penalty * uses as real
  }

  lemma ProductsAreNonNegative(a: real, b: real)
    requires a >= 0.0 && b >= 0.0
    ensures a * b >= 0.0
  {
  }

  /** Every weight of every round is positive or infinite, so that the library's promise applies. */
  lemma RoundWeightsArePositive(s: Search, earlier: seq<Nodes>)
    requires Symmetric(s.G) && AllWalks(s.G, earlier) && PenalisesOnly(s)
    ensures NonNegative(RoundWeights(s, earlier))
    ensures forall e :: e in RoundWeights(s, earlier) && RoundWeights(s, earlier)[e].Finite? ==> RoundWeights(s, earlier)[e].value >= 1.0
  {
    forall e | e in RoundWeights(s, earlier)
      ensures RoundWeights(s, earlier)[e].Finite? ==> RoundWeights(s, earlier)[e].value >= 1.0
    {
      var view, uses := s.G[e], Uses(s.G, earlier, s.G[e].channelId);
      assert RoundWeights(s, earlier)[e] == RoundWeight(s, earlier, e);
      ProductsAreNonNegative(s.diversityPenalty, uses as real);
      var query := HopQuery(s.value, view.capacity, view.capacity, Capped(view.feesReceiver), Capped(view.feesSender), view.capacity);
      if s.hop(query).Some? {
        ProductsAreNonNegative((s.hop(query).value - s.value) as real / 1_000_000_000_000_000_000.0, s.feePenalty);
      }
    }
  }

  /** A route that was not returned earlier and that no other such route undercuts. */
  ghost predicate IsBestAfter(s: Search, earlier: seq<Nodes>, route: Nodes)
    requires Symmetric(s.G) && AllWalks(s.G, earlier)
  {
    && IsRoute(s, route) && route !in earlier
    && forall p :: IsRoute(s, p) && p !in earlier ==> AtMost(RouteWeight(s, earlier, route), RouteWeight(s, earlier, p))
  }

  /** Every route is the best of its round. */
  ghost predicate IsGreedy(s: Search, routes: seq<Nodes>)
    requires Symmetric(s.G)
  {
    && AllRoutes(s, routes)
    && forall k :: 0 <= k < |routes| ==> AllWalks(s.G, routes[..k]) && IsBestAfter(s, routes[..k], routes[k])
  }

  lemma {:induction false} GreedyExtends(s: Search, routes: seq<Nodes>, route: Nodes)
    requires Symmetric(s.G) && IsGreedy(s, routes) && IsBestAfter(s, routes, route)
    ensures IsGreedy(s, routes + [route])
  {
    var all := routes + [route];
    forall k | 0 <= k < |all|
      ensures IsBestAfter(s, all[..k], all[k])
    {
      if k < |routes| {
        assert all[..k] == routes[..k] && all[k] == routes[k];
      } else {
        assert all[..k] == routes;
      }
    }
  }

  lemma GreedyRoutesDiffer(s: Search, routes: seq<Nodes>, i: nat, j: nat)
    requires Symmetric(s.G) && IsGreedy(s, routes) && i < j < |routes|
    ensures routes[i] != routes[j]
  {
    assert IsBestAfter(s, routes[..j], routes[j]);
    assert routes[..j][i] == routes[i];
  }

  function NodesOf(paths: seq<Path>): (routes: seq<Nodes>)
    ensures |routes| == |paths| && forall i :: 0 <= i < |paths| ==> routes[i] == paths[i].nodes
  {
    seq(|paths|, i requires 0 <= i < |paths| => paths[i].nodes)
  }

  // ---------------------------------------------------------------- the search

  function Penalty(visited: map<nat, real>, id: nat): real {
    if id in visited then visited[id] else 0.0
  }

  ghost predicate CountsUses(s: Search, visited: map<nat, real>, routes: seq<Nodes>)
    requires AllWalks(s.G, routes)
  {
    forall id :: Penalty(visited, id) == TotalPenalty(s.diversityPenalty, Uses(s.G, routes, id))
  }

  method UpdateWeights(s: Search, pruned: Graph, visited: map<nat, real>, ghost earlier: seq<Nodes>) returns (weights: Weights)
    requires Symmetric(s.G) && pruned == Pruned(s.G, s.reachable)
    requires AllWalks(s.G, earlier) && CountsUses(s, visited, earlier)
    ensures weights == RoundWeights(s, earlier)
  {
    weights := map[];
    var rest := pruned.Keys;
    while rest != {}
      invariant rest <= pruned.Keys && weights.Keys == pruned.Keys - rest
      invariant forall e :: e in weights ==> (e.1, e.0) in s.G && weights[e] == RoundWeight(s, earlier, e)
      decreases rest
    {
      var e :| e in rest;
      var (node1, node2) := e;
      assert (node1, node2) in s.G && s.reachable(node1) && s.reachable(node2);
      assert (node2, node1) in pruned;
      var view, backwards := pruned[(node1, node2)], pruned[(node2, node1)];
      assert Penalty(visited, view.channelId) == TotalPenalty(s.diversityPenalty, Uses(s.G, earlier, view.channelId));
      weights := weights[e := EdgeWeight(Penalty(visited, view.channelId), view, backwards, s.value, s.feePenalty, s.hop)];
      rest := rest - {e};
    }
  }

  datatype SinglePath = NoPath | Exhausted | Found(path: Path)

  /** The first path of the enumeration that is valid and was not found before. */
  method GetSinglePath(s: Search, pruned: Graph, visited: map<nat, real>, disallowed: seq<Nodes>) returns (result: SinglePath)
    requires Symmetric(s.G) && pruned == Pruned(s.G, s.reachable) && LibraryEnumerates(s) && PenalisesOnly(s)
    requires AllRoutes(s, disallowed) && CountsUses(s, visited, disallowed)
    ensures result.NoPath? ==> disallowed == [] && forall p :: !IsRoute(s, p)
    ensures result.Exhausted? ==> forall p :: IsRoute(s, p) ==> p in disallowed
    ensures result.Found? ==>
      IsBestAfter(s, disallowed, result.path.nodes) && result.path.isValid && HasFees(s, result.path)
  {
    var weights := UpdateWeights(s, pruned, visited, disallowed);
    RoundWeightsArePositive(s, disallowed);
    var allPaths := s.enumerate(pruned, weights, s.source, s.target);
    assert IsEnumeration(pruned, weights, s.source, s.target, allPaths);
    if allPaths == [] {
      NothingToFind(s, weights, disallowed);
      return NoPath;
    }
    EnumeratedWalks(s, weights, allPaths);
    var path, i := FirstUsable(s, allPaths, disallowed);
    if path.None? {
      AllTried(s, weights, disallowed, allPaths);
      return Exhausted;
    }
    FirstIsBest(s, weights, disallowed, allPaths, i);
    return Found(path.value);
  }

  ghost predicate HasFees(s: Search, path: Path) {
    path.fees.Some? && IsWalk(s.G, path.nodes) && AreFees(s.G, path.nodes, s.value, s.hop, path.fees.value)
  }

  /** Skips duplicates and invalid paths. */
  method FirstUsable(s: Search, paths: seq<Nodes>, disallowed: seq<Nodes>) returns (path: Option<Path>, i: nat)
    requires Symmetric(s.G)
    requires forall p :: p in paths ==> IsWalk(s.G, p) && IsSimplePath(Pruned(s.G, s.reachable), p, s.source, s.target)
    ensures path.Some? ==>
      && i < |paths| && path.value.nodes == paths[i] && path.value.isValid && HasFees(s, path.value)
      && IsRoute(s, paths[i]) && paths[i] !in disallowed
    ensures path.None? ==> i == |paths|
    ensures i <= |paths| && forall j :: 0 <= j < i ==> IsRoute(s, paths[j]) ==> paths[j] in disallowed
  {
    for k := 0 to |paths|
      invariant forall j :: 0 <= j < k ==> IsRoute(s, paths[j]) ==> paths[j] in disallowed
    {
      assert paths[k] in paths;
      PruningKeepsRoutes(s, paths[k]);
      var candidate := NewPath(s.G, paths[k], s.value, s.hop, s.online);
      if candidate.isValid && candidate.nodes !in disallowed {
        return Some(candidate), k;
      }
    }
    return None, |paths|;
  }

  lemma EnumeratedWalks(s: Search, weights: Weights, paths: seq<Nodes>)
    requires weights.Keys == Pruned(s.G, s.reachable).Keys
    requires IsEnumeration(Pruned(s.G, s.reachable), weights, s.source, s.target, paths)
    ensures forall p :: p in paths ==> IsWalk(s.G, p) && IsSimplePath(Pruned(s.G, s.reachable), p, s.source, s.target)
  {
    forall p | p in paths
      ensures IsWalk(s.G, p)
    {
      PrunedWalk(s, p);
    }
  }

  lemma AllTried(s: Search, weights: Weights, disallowed: seq<Nodes>, paths: seq<Nodes>)
    requires Symmetric(s.G) && weights.Keys == Pruned(s.G, s.reachable).Keys
    requires IsEnumeration(Pruned(s.G, s.reachable), weights, s.source, s.target, paths)
    requires forall j :: 0 <= j < |paths| ==> IsRoute(s, paths[j]) ==> paths[j] in disallowed
    ensures forall p :: IsRoute(s, p) ==> p in disallowed
  {
    forall p | IsRoute(s, p)
      ensures p in disallowed
    {
      RouteSurvives(s, p);
      assert p in paths;
    }
  }

  /** When there is no simple path at all, nothing was found earlier. */
  lemma NothingToFind(s: Search, weights: Weights, earlier: seq<Nodes>)
    requires Symmetric(s.G) && AllRoutes(s, earlier) && weights.Keys == Pruned(s.G, s.reachable).Keys
    requires IsEnumeration(Pruned(s.G, s.reachable), weights, s.source, s.target, [])
    ensures earlier == [] && forall p :: !IsRoute(s, p)
  {
    forall p
      ensures !IsRoute(s, p)
    {
      var none: seq<Nodes> := [];
      assert p !in none;
      if IsRoute(s, p) {
        RouteSurvives(s, p);
      }
    }
    HasMember(earlier);
  }

  lemma HasMember(routes: seq<Nodes>)
    ensures routes != [] ==> exists r :: r in routes
  {
    if routes != [] {
      assert routes[0] in routes;
    }
  }

  lemma FirstIsBest(s: Search, weights: Weights, disallowed: seq<Nodes>, paths: seq<Nodes>, i: nat)
    requires Symmetric(s.G) && AllRoutes(s, disallowed) && weights == RoundWeights(s, disallowed)
    requires IsEnumeration(Pruned(s.G, s.reachable), weights, s.source, s.target, paths)
    requires i < |paths| && IsRoute(s, paths[i]) && paths[i] !in disallowed
    requires forall j :: 0 <= j < i ==> IsRoute(s, paths[j]) ==> paths[j] in disallowed
    ensures IsBestAfter(s, disallowed, paths[i])
  {
    RouteSurvives(s, paths[i]);
    PrunedWeight(s, disallowed, paths[i]);
    forall p | IsRoute(s, p) && p !in disallowed
      ensures AtMost(RouteWeight(s, disallowed, paths[i]), RouteWeight(s, disallowed, p))
    {
      RouteSurvives(s, p);
      assert p in paths;
      var j :| 0 <= j < |paths| && paths[j] == p;
      if j != i {
        assert IsLighter(Pruned(s.G, s.reachable), weights, paths[i], paths[j]);
        PrunedWeight(s, disallowed, p);
      }
    }
  }

  /** The penalties count the edges of the routes and of a part of the next one. */
  ghost predicate CountsPart(s: Search, visited: map<nat, real>, routes: seq<Nodes>, part: Nodes)
    requires AllWalks(s.G, routes) && IsWalk(s.G, part)
  {
    forall id :: Penalty(visited, id) == TotalPenalty(s.diversityPenalty, Uses(s.G, routes, id) + UsesOnPath(s.G, part, id))
  }

  lemma OneMoreEdge(s: Search, visited: map<nat, real>, routes: seq<Nodes>, part: Nodes, node: Address)
    requires AllWalks(s.G, routes) && part != [] && IsWalk(s.G, part + [node]) && IsWalk(s.G, part)
    requires CountsPart(s, visited, routes, part)
    ensures var id := EdgeAt(s.G, part + [node], |part| - 1).channelId;
            CountsPart(s, visited[id := Penalty(visited, id) + s.diversityPenalty], routes, part + [node])
  {
    var longer := part + [node];
    assert longer[..|longer| - 1] == part;
    var used := EdgeAt(s.G, longer, |part| - 1).channelId;
    var updated := visited[used := Penalty(visited, used) + s.diversityPenalty];
    forall id
      ensures Penalty(updated, id) == TotalPenalty(s.diversityPenalty, Uses(s.G, routes, id) + UsesOnPath(s.G, longer, id))
    {
      assert UsesOnPath(s.G, longer, id) == UsesOnPath(s.G, part, id) + if used == id then 1 else 0;
      PenaltyAdds(s.diversityPenalty, Uses(s.G, routes, id) + UsesOnPath(s.G, part, id));
    }
  }

  lemma PenaltyAdds(penalty: real, uses: nat)
    ensures TotalPenalty(penalty, uses + 1) == TotalPenalty(penalty, uses) + penalty
  {
    assert (uses + 1) as real == uses as real + 1.0;
  }

  /** Adds the penalty of a new route to its channels. */
  method Visit(s: Search, visited: map<nat, real>, route: Nodes, ghost routes: seq<Nodes>) returns (updated: map<nat, real>)
    requires AllWalks(s.G, routes) && route != [] && IsWalk(s.G, route) && CountsUses(s, visited, routes)
    ensures CountsPart(s, updated, routes, route)
  {
    updated := visited;
    for i := 0 to |route| - 1
      invariant CountsPart(s, updated, routes, route[..i + 1])
    {
      var id := EdgeAt(s.G, route, i).channelId;
      assert route[..i + 1] + [route[i + 1]] == route[..i + 2];
      OneMoreEdge(s, updated, routes, route[..i + 1], route[i + 1]);
      updated := updated[id := Penalty(updated, id) + s.diversityPenalty];
    }
    assert route[..|route|] == route;
  }

  lemma PartIsWhole(s: Search, visited: map<nat, real>, routes: seq<Nodes>, route: Nodes)
    requires AllWalks(s.G, routes) && IsWalk(s.G, route) && CountsPart(s, visited, routes, route)
    requires AllWalks(s.G, routes + [route])
    ensures CountsUses(s, visited, routes + [route])
  {
    assert (routes + [route])[..|routes|] == routes;
  }

  /**
   The best routes, one round after the other. Every route is new, usable and the best of its round;
   fewer than asked for are returned only when there are no others, so that giving up when the
   library finds no path at all loses nothing.
   */
  method GetPaths(s: Search) returns (paths: seq<Path>)
    requires Symmetric(s.G) && LibraryEnumerates(s) && PenalisesOnly(s)
    ensures IsGreedy(s, NodesOf(paths))
    ensures forall p :: p in paths ==> HasFees(s, p)
    ensures |paths| <= Max(0, s.maxPaths)
    ensures |paths| < s.maxPaths ==> forall p :: IsRoute(s, p) ==> p in NodesOf(paths)
  {
    var visited: map<nat, real> := map[];
    paths := [];
    var pruned := PruneGraph(s.G, s.reachable);
    while |paths| < s.maxPaths
      invariant |paths| <= Max(0, s.maxPaths)
      invariant IsGreedy(s, NodesOf(paths)) && CountsUses(s, visited, NodesOf(paths))
      invariant forall p :: p in paths ==> HasFees(s, p)
      decreases s.maxPaths - |paths|
    {
      var result := GetSinglePath(s, pruned, visited, NodesOf(paths));
      match result
      case NoPath =>
        assert paths == [];
        return [];
      case Exhausted =>
        break;
      case Found(path) =>
        GreedyExtends(s, NodesOf(paths), path.nodes);
        visited := Visit(s, visited, path.nodes, NodesOf(paths));
        PartIsWhole(s, visited, NodesOf(paths), path.nodes);
        assert NodesOf(paths + [path]) == NodesOf(paths) + [path.nodes];
        paths := paths + [path];
    }
  }

  // ---------------------------------------------------------------- the enumeration exists

  function NodesIn(G: Graph): set<Address> {
    (set e | e in G :: e.0) + (set e | e in G :: e.1)
  }

  function SequencesUpTo(nodes: set<Address>, n: nat): set<Nodes> {
    if n == 0 then {[]}
    else SequencesUpTo(nodes, n - 1) + set p, x | p in SequencesUpTo(nodes, n - 1) && x in nodes :: p + [x]
  }

  lemma {:induction false} DistinctSequences(nodes: set<Address>, p: Nodes, n: nat)
    requires (forall x :: x in p ==> x in nodes) && |nodes| <= n
    requires forall i, j :: 0 <= i < j < |p| ==> p[i] != p[j]
    ensures p in SequencesUpTo(nodes, n)
    decreases |p|, n
  {
    if p == [] {
      if n > 0 {
        EmptySequence(nodes, n);
      }
    } else {
      var last, front := p[|p| - 1], p[..|p| - 1];
      assert last in p && p == front + [last];
      forall x | x in front
        ensures x in nodes - {last}
      {
        assert x in p;
      }
      DistinctSequences(nodes - {last}, front, n - 1);
      SequencesGrow(nodes - {last}, nodes, n - 1);
      LongerSequence(nodes, front, last, n);
    }
  }

  lemma LongerSequence(nodes: set<Address>, front: Nodes, last: Address, n: nat)
    requires n > 0 && front in SequencesUpTo(nodes, n - 1) && last in nodes
    ensures front + [last] in SequencesUpTo(nodes, n)
  {
  }

  lemma {:induction false} EmptySequence(nodes: set<Address>, n: nat)
    ensures [] in SequencesUpTo(nodes, n)
  {
    if n > 0 {
      EmptySequence(nodes, n - 1);
    }
  }

  lemma {:induction false} SequencesGrow(few: set<Address>, many: set<Address>, n: nat)
    requires few <= many
    ensures SequencesUpTo(few, n) <= SequencesUpTo(many, n)
  {
    if n > 0 {
      SequencesGrow(few, many, n - 1);
    }
  }

  lemma {:induction false} LightestExists(G: Graph, weights: Weights, paths: set<Nodes>) returns (lightest: Nodes)
    requires weights.Keys == G.Keys && paths != {} && forall p :: p in paths ==> IsWalk(G, p)
    ensures lightest in paths && forall p :: p in paths ==> IsLighter(G, weights, lightest, p)
    decreases paths
  {
    var q :| q in paths;
    lightest := q;
    if paths != {q} {
      var r := LightestExists(G, weights, paths - {q});
      if !IsLighter(G, weights, q, r) {
        lightest := r;
      }
      forall p | p in paths
        ensures IsLighter(G, weights, lightest, p)
      {
        assert p == q || p in paths - {q};
      }
    }
  }

  lemma {:induction false} SortByWeight(G: Graph, weights: Weights, paths: set<Nodes>) returns (sorted: seq<Nodes>)
    requires weights.Keys == G.Keys && forall p :: p in paths ==> IsWalk(G, p)
    ensures forall p :: p in sorted <==> p in paths
    ensures forall i, j :: 0 <= i < j < |sorted| ==> sorted[i] != sorted[j] && IsLighter(G, weights, sorted[i], sorted[j])
    decreases paths
  {
    if paths == {} {
      sorted := [];
    } else {
      var first := LightestExists(G, weights, paths);
      var rest := SortByWeight(G, weights, paths - {first});
      sorted := [first] + rest;
      assert forall j :: 0 <= j < |rest| ==> rest[j] in paths - {first};
    }
  }

  /** Whatever the weights are, the simple paths can be listed in their order. */
  lemma EnumerationExists(G: Graph, weights: Weights, source: Address, target: Address) returns (paths: seq<Nodes>)
    requires weights.Keys == G.Keys
    ensures IsEnumeration(G, weights, source, target, paths)
  {
    var all := SequencesUpTo(NodesIn(G), |NodesIn(G)|);
    var simple := set p | p in all && IsSimplePath(G, p, source, target);
    paths := SortByWeight(G, weights, simple);
    forall p | IsSimplePath(G, p, source, target)
      ensures p in simple
    {
      NodesOfSimplePath(G, p, source, target);
      DistinctSequences(NodesIn(G), p, |NodesIn(G)|);
    }
  }

  lemma NodesOfSimplePath(G: Graph, p: Nodes, source: Address, target: Address)
    requires IsSimplePath(G, p, source, target)
    ensures forall x :: x in p ==> x in NodesIn(G)
  {
    forall i | 0 <= i < |p|
      ensures p[i] in NodesIn(G)
    {
      if i + 1 < |p| {
        assert (p[i], p[i + 1]) in G;
      } else if i > 0 {
        assert (p[i - 1], p[i]) in G;
      }
    }
  }
}
