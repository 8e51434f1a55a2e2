/**
 Route search in a token network: the pruned graph, the fees of a path, and the greedy search for
 several paths. The graph is a snapshot, because a route request does not change it. The library's
 fee calculation and its enumeration of simple paths are parameters.
 */
module Routing {
  import opened Common
  import opened PfsModel

  type Edge = (Address, Address)

  type Nodes = seq<Address>

  /** What an edge shows of its channel. */
  datatype EdgeView = EdgeView(channelId: nat, capacity: int, capacityPartner: int,
                               feesSender: FeeSchedule, feesReceiver: FeeSchedule)

  type Graph = map<Edge, EdgeView>

  /** Every edge has its opposite. */
  ghost predicate Symmetric(G: Graph) {
    forall a, b :: (a, b) in G ==> (b, a) in G
  }

  // ---------------------------------------------------------------- windows

  /** The sliding windows of width n over a sequence; for width 0, the empty window and every single element. */
  method Window<T>(s: seq<T>, n: nat) returns (windows: seq<seq<T>>)
    ensures n > 0 ==> |windows| == if |s| < n then 0 else |s| - n + 1
    ensures n > 0 ==> forall i :: 0 <= i < |windows| ==> windows[i] == s[i..i + n]
    ensures n == 0 ==> |windows| == |s| + 1 && windows[0] == [] && forall i :: 0 <= i < |s| ==> windows[i + 1] == [s[i]]
  {
    var start := if |s| < n then |s| else n;
    var result := s[..start];
    windows := [];
    if |result| == n {
      windows := [result];
    }
    for i := start to |s|
      invariant n > 0 ==> |windows| == (if |s| < n then 0 else i - n + 1)
      invariant n > 0 && |s| >= n ==> result == s[i - n..i]
      invariant n > 0 ==> forall j :: 0 <= j < |windows| ==> windows[j] == s[j..j + n]
      invariant n == 0 ==> |windows| == i + 1 && windows[0] == [] && result == (if i == 0 then [] else [s[i - 1]])
      invariant n == 0 ==> forall j :: 0 <= j < i ==> windows[j + 1] == [s[j]]
    {
      result := (if result == [] then [] else result[1..]) + [s[i]];
      windows := windows + [result];
    }
  }

  // ---------------------------------------------------------------- pruning

  /** The edges between reachable nodes. */
  function Pruned(G: Graph, reachable: Address -> bool): Graph {
    map e | e in G && reachable(e.0) && reachable(e.1) :: G[e]
  }

  method PruneGraph(G: Graph, reachable: Address -> bool) returns (pruned: Graph)
    requires Symmetric(G)
    ensures pruned == Pruned(G, reachable)
  {
    pruned := map[];
    var rest := G.Keys;
    while rest != {}
      invariant rest <= G.Keys
      invariant forall e :: e in pruned ==> e in Pruned(G, reachable) && pruned[e] == G[e]
      invariant forall e :: e in Pruned(G, reachable) && e !in rest ==> e in pruned
      decreases rest
    {
      var e :| e in rest;
      var (p1, p2) := e;
      assert (p1, p2) in G;
      if reachable(p1) && reachable(p2) {
        pruned := pruned[(p1, p2) := G[(p1, p2)]];
        pruned := pruned[(p2, p1) := G[(p2, p1)]];
      }
      rest := rest - {e};
    }
  }

  // ---------------------------------------------------------------- paths

  /** Consecutive nodes are joined by edges. */
  predicate IsWalk(G: Graph, nodes: Nodes) {
    forall i :: 0 <= i < |nodes| - 1 ==> (nodes[i], nodes[i + 1]) in G
  }

  function EdgeAt(G: Graph, nodes: Nodes, i: nat): EdgeView
    requires IsWalk(G, nodes) && i + 1 < |nodes|
  {
    G[(nodes[i], nodes[i + 1])]
  }

  datatype FeeTerms = AsIs(fees: FeeSchedule) | Capped(fees: FeeSchedule)

  datatype HopQuery = HopQuery(amount: int, balanceIn: int, balanceOut: int,
                               scheduleIn: FeeTerms, scheduleOut: FeeTerms, receivable: int)

  /** The library's fee calculation for one mediator: what must come in so that an amount goes out. */
  type AmountWithFees = HopQuery -> Option<int>

  function HopThrough(viewIn: EdgeView, viewOut: EdgeView, total: int): HopQuery {
    HopQuery(total, viewIn.capacityPartner, viewOut.capacity,
             AsIs(viewIn.feesReceiver), AsIs(viewOut.feesSender), viewIn.capacity)
  }

  /** The amount that edge i of a path carries so that the value arrives at its end, or nothing. */
  function Carried(G: Graph, nodes: Nodes, value: int, hop: AmountWithFees, i: nat): Option<int>
    requires IsWalk(G, nodes) && i + 1 < |nodes|
    decreases |nodes| - i
  {
    if i + 2 == |nodes| then Some(value)
    else
      match Carried(G, nodes, value, hop, i + 1)
      case None => None
      case Some(total) => hop(HopThrough(EdgeAt(G, nodes, i), EdgeAt(G, nodes, i + 1), total))
  }

  lemma {:induction false} CarriedFurther(G: Graph, nodes: Nodes, value: int, hop: AmountWithFees, i: nat, j: nat)
    requires IsWalk(G, nodes) && i <= j && j + 1 < |nodes|
    requires Carried(G, nodes, value, hop, i).Some?
    ensures Carried(G, nodes, value, hop, j).Some?
    decreases j - i
  {
    if i < j {
      CarriedFurther(G, nodes, value, hop, i + 1, j);
    }
  }

  function Sum(s: seq<int>): int {
    if s == [] then 0 else Sum(s[..|s| - 1]) + s[|s| - 1]
  }

  /** What the j-th mediator, counted from the target, keeps of what it receives. */
  ghost predicate IsFeeAt(G: Graph, nodes: Nodes, value: int, hop: AmountWithFees, j: nat, fee: int)
    requires IsWalk(G, nodes) && j + 2 < |nodes|
  {
    var k := |nodes| - 3 - j;
    && Carried(G, nodes, value, hop, k + 1).Some?
    && Carried(G, nodes, value, hop, k) == Some(Carried(G, nodes, value, hop, k + 1).value + fee)
  }

  /** The fees from the last mediator back to the first, and none for the hop to the target. */
  ghost predicate AreFees(G: Graph, nodes: Nodes, value: int, hop: AmountWithFees, fees: seq<int>)
    requires IsWalk(G, nodes)
  {
    if |nodes| < 2 then fees == [0]
    else
      var last := |nodes| - 2;
      && |fees| == |nodes| - 1 && fees[last] == 0
      && Carried(G, nodes, value, hop, 0) == Some(value + Sum(fees))
      && forall j :: 0 <= j < last ==> IsFeeAt(G, nodes, value, hop, j, fees[j])
  }

  /** The fees of the last mediators of a path, and what the edge before them carries. */
  ghost predicate AreLastFees(G: Graph, nodes: Nodes, value: int, hop: AmountWithFees, k: nat, charged: seq<int>, total: int)
    requires IsWalk(G, nodes)
  {
    && |nodes| >= 2 && |charged| + k + 2 == |nodes| && total == value + Sum(charged)
    && Carried(G, nodes, value, hop, k) == Some(total)
    && forall j :: 0 <= j < |charged| ==> IsFeeAt(G, nodes, value, hop, j, charged[j])
  }

  lemma OneMoreFee(G: Graph, nodes: Nodes, value: int, hop: AmountWithFees, k: nat, charged: seq<int>, total: int)
    requires IsWalk(G, nodes) && k > 0 && AreLastFees(G, nodes, value, hop, k, charged, total)
    ensures var amount := hop(HopThrough(EdgeAt(G, nodes, k - 1), EdgeAt(G, nodes, k), total));
            && Carried(G, nodes, value, hop, k - 1) == amount
            && (amount.Some? ==> AreLastFees(G, nodes, value, hop, k - 1, charged + [amount.value - total], amount.value))
            && (amount.None? ==> Carried(G, nodes, value, hop, 0).None?)
  {
    var amount := Carried(G, nodes, value, hop, k - 1);
    if amount.Some? {
      var fee := amount.value - total;
      assert IsFeeAt(G, nodes, value, hop, |charged|, fee);
      assert (charged + [fee])[..|charged|] == charged;
    } else if Carried(G, nodes, value, hop, 0).Some? {
      CarriedFurther(G, nodes, value, hop, 0, k - 1);
    }
  }

  /** Fees are calculated backwards; the result is None when one hop cannot be done. */
  method CalculateFees(G: Graph, nodes: Nodes, value: int, hop: AmountWithFees) returns (fees: Option<seq<int>>)
    requires IsWalk(G, nodes)
    ensures fees.Some? ==> AreFees(G, nodes, value, hop, fees.value)
    ensures fees.None? <==> |nodes| >= 2 && Carried(G, nodes, value, hop, 0).None?
  {
    var total := value;
    var charged: seq<int> := [];
    var triples := Window(nodes, 3);
    var k := |triples|;
    while k > 0
      invariant 0 <= k <= |triples|
      invariant |nodes| < 2 ==> charged == [] && total == value
      invariant |nodes| >= 2 ==> AreLastFees(G, nodes, value, hop, k, charged, total)
    {
      OneMoreFee(G, nodes, value, hop, k, charged, total);
      k := k - 1;
      var (prev, mediator, next) := (triples[k][0], triples[k][1], triples[k][2]);
      assert (prev, mediator, next) == (nodes[k], nodes[k + 1], nodes[k + 2]);
      var amountWithFees := hop(HopThrough(G[(prev, mediator)], G[(mediator, next)], total));
      if amountWithFees.None? {
        return None;
      }
      var fee := amountWithFees.value - total;
      total := total + fee;
      charged := charged + [fee];
    }
    // Nobody mediates the last hop
    assert (charged + [0])[..|charged|] == charged;
    return Some(charged + [0]);
  }

  datatype Path = Path(nodes: Nodes, fees: Option<seq<int>>, isValid: bool)

  /** Every edge has capacity for the bare value, and all hops can be done. */
  predicate IsFeasible(G: Graph, nodes: Nodes, value: int, hop: AmountWithFees)
    requires IsWalk(G, nodes)
  {
    && (forall i {:trigger EdgeAt(G, nodes, i)} :: 0 <= i < |nodes| - 1 ==> EdgeAt(G, nodes, i).capacity >= value)
    && (|nodes| >= 2 ==> Carried(G, nodes, value, hop, 0).Some?)
  }

  /** A path that can be returned is feasible, and all its nodes are online. */
  predicate IsUsable(G: Graph, nodes: Nodes, value: int, hop: AmountWithFees, online: Address -> bool)
    requires IsWalk(G, nodes)
  {
    IsFeasible(G, nodes, value, hop) && forall i :: 0 <= i < |nodes| ==> online(nodes[i])
  }

  method CheckValidityAndCalculateFees(G: Graph, nodes: Nodes, value: int, hop: AmountWithFees)
      returns (fees: Option<seq<int>>)
    requires IsWalk(G, nodes)
    ensures fees.Some? ==> AreFees(G, nodes, value, hop, fees.value)
    ensures fees.Some? <==> IsFeasible(G, nodes, value, hop)
  {
    var i := |nodes| - 1;
    while i > 0
      invariant i <= |nodes| - 1 && (nodes != [] ==> i >= 0)
      invariant forall j {:trigger EdgeAt(G, nodes, j)} :: 0 <= i <= j < |nodes| - 1 ==> EdgeAt(G, nodes, j).capacity >= value
    {
      i := i - 1;
      if EdgeAt(G, nodes, i).capacity < value {
        return None;
      }
    }
    fees := CalculateFees(G, nodes, value, hop);
  }

  method NewPath(G: Graph, nodes: Nodes, value: int, hop: AmountWithFees, online: Address -> bool) returns (path: Path)
    requires IsWalk(G, nodes)
    ensures path.nodes == nodes && (path.isValid <==> IsUsable(G, nodes, value, hop, online))
    ensures path.isValid ==> path.fees.Some? && AreFees(G, nodes, value, hop, path.fees.value)
  {
    var fees := CheckValidityAndCalculateFees(G, nodes, value, hop);
    var allOnline := true;
    for i := 0 to |nodes|
      invariant allOnline <==> forall j :: 0 <= j < i ==> online(nodes[j])
    {
      if !online(nodes[i]) {
        allOnline := false;
      }
    }
    path := Path(nodes, fees, fees.Some? && allOnline);
  }

  /** The calculation never lets a mediator receive more than the channel can carry. */
  ghost predicate WithinReceivable(hop: AmountWithFees) {
    forall q :: hop(q).Some? ==> hop(q).value <= q.receivable
  }

  /**
   A usable path pays: the sender sends the value and all fees over the first edge, every mediator keeps
   its fee, the value arrives, and no edge carries more than its capacity.
   */
  lemma UsablePathsPay(G: Graph, nodes: Nodes, value: int, hop: AmountWithFees, online: Address -> bool, fees: seq<int>, i: nat)
    requires IsWalk(G, nodes) && i + 1 < |nodes| && WithinReceivable(hop)
    requires IsUsable(G, nodes, value, hop, online) && AreFees(G, nodes, value, hop, fees)
    ensures Carried(G, nodes, value, hop, 0) == Some(value + Sum(fees))
    ensures Carried(G, nodes, value, hop, |nodes| - 2) == Some(value)
    ensures Carried(G, nodes, value, hop, i).Some? && Carried(G, nodes, value, hop, i).value <= EdgeAt(G, nodes, i).capacity
    ensures i + 2 < |nodes| ==>
      && Carried(G, nodes, value, hop, i + 1).Some?
      && Carried(G, nodes, value, hop, i).value
         == Carried(G, nodes, value, hop, i + 1).value + fees[|nodes| - 3 - i]
  {
    CarriedFurther(G, nodes, value, hop, 0, i);
    if i + 2 < |nodes| {
      assert IsFeeAt(G, nodes, value, hop, |nodes| - 3 - i, fees[|nodes| - 3 - i]);
    }
  }
}
