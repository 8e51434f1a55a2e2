/**
 The graph a route request searches, read off the channel objects of a token network, and what routes, fees and
 weights mean in terms of the two sides of every channel.
 */
module NetworkRoutes {
  import opened Common
  import opened PfsModel
  import PfsNetwork
  import opened Routing
  import opened RouteSearch

  function ViewOf(view: PfsNetwork.ChannelView): EdgeView
    reads view.channel
  {
    var channel := view.channel;
    if view.reverse
    then EdgeView(channel.channelId, channel.capacity2, channel.capacity1, channel.feeSchedule2, channel.feeSchedule1)
    else EdgeView(channel.channelId, channel.capacity1, channel.capacity2, channel.feeSchedule1, channel.feeSchedule2)
  }

  ghost function Snapshot(network: PfsNetwork.TokenNetwork): Graph
    reads network, network.Channels()
  {
    map e | e in network.G :: (assert network.G[e].channel in network.Channels(); ViewOf(network.G[e]))
  }

  /**
   Routes may be searched in every valid network: an edge shows its sender's side of the channel row, its
   opposite shows the other side, and both belong to one channel, which no other pair of nodes has.
   */
  lemma SnapshotShowsChannels(network: PfsNetwork.TokenNetwork, a: Address, b: Address)
    requires network.Valid() && (a, b) in Snapshot(network)
    ensures Symmetric(Snapshot(network))
    ensures var channel := network.G[(a, b)].channel;
            var here, there := Snapshot(network)[(a, b)], Snapshot(network)[(b, a)];
            && here.channelId == there.channelId == channel.channelId
            && here.capacity == there.capacityPartner == SideOf(channel.Row(), a).capacity
            && here.feesSender == there.feesReceiver == SideOf(channel.Row(), a).fees
    ensures forall e :: e in Snapshot(network) && Snapshot(network)[e].channelId == Snapshot(network)[(a, b)].channelId ==>
              e == (a, b) || e == (b, a)
  {
    assert (a, b) in network.G && (b, a) in network.G;
    PfsNetwork.EdgesOfAChannel(network.address, network.channelIdToAddresses, network.G, (a, b));
    forall e | e in Snapshot(network) && Snapshot(network)[e].channelId == Snapshot(network)[(a, b)].channelId
      ensures e == (a, b) || e == (b, a)
    {
      PfsNetwork.EdgesOfAChannel(network.address, network.channelIdToAddresses, network.G, e);
    }
  }

  // ---------------------------------------------------------------- the rows behind the edges

  /** The channel row behind every edge. */
  type Rows = map<Edge, ChannelRow>

  ghost function RowsOf(network: PfsNetwork.TokenNetwork): Rows
    reads network, network.Channels()
  {
    map e | e in network.G :: (assert network.G[e].channel in network.Channels(); network.G[e].channel.Row())
  }

  /** Every edge shows what its two ends hold of one channel. */
  ghost predicate Shows(G: Graph, rows: Rows) {
    && rows.Keys == G.Keys
    && forall a, b :: (a, b) in G ==>
         && (b, a) in G && rows[(b, a)] == rows[(a, b)]
         && var here, there := SideOf(rows[(a, b)], a), SideOf(rows[(a, b)], b);
            && G[(a, b)].capacity == here.capacity && G[(a, b)].capacityPartner == there.capacity
            && G[(a, b)].feesSender == here.fees && G[(a, b)].feesReceiver == there.fees
  }

  lemma SnapshotShowsRows(network: PfsNetwork.TokenNetwork)
    requires network.Valid()
    ensures Shows(Snapshot(network), RowsOf(network))
  {
    forall a, b | (a, b) in Snapshot(network)
      ensures (b, a) in Snapshot(network) && RowsOf(network)[(b, a)] == RowsOf(network)[(a, b)]
      ensures var edge, row := Snapshot(network)[(a, b)], RowsOf(network)[(a, b)];
              && edge.capacity == SideOf(row, a).capacity && edge.capacityPartner == SideOf(row, b).capacity
              && edge.feesSender == SideOf(row, a).fees && edge.feesReceiver == SideOf(row, b).fees
    {
      assert (a, b) in network.G && (b, a) in network.G;
      SnapshotShowsChannels(network, a, b);
      SnapshotShowsChannels(network, b, a);
    }
  }

  // ---------------------------------------------------------------- amounts and fees

  /** Mediator i+1 gets amounts[i] from its predecessor and passes on amounts[i+1], by its own two sides. */
  ghost predicate Mediates(rows: Rows, nodes: Nodes, hop: AmountWithFees, amounts: seq<int>, i: nat)
    requires i + 2 < |nodes| == |amounts| + 1
  {
    var (a, m, b) := (nodes[i], nodes[i + 1], nodes[i + 2]);
    && (a, m) in rows && (m, b) in rows
    && var from, to := rows[(a, m)], rows[(m, b)];
       hop(HopQuery(amounts[i + 1], SideOf(from, m).capacity, SideOf(to, m).capacity,
                    AsIs(SideOf(from, m).fees), AsIs(SideOf(to, m).fees), SideOf(from, a).capacity)) == Some(amounts[i])
  }

  /** What every channel of a path carries so that the value arrives. */
  ghost predicate Arrives(rows: Rows, nodes: Nodes, value: int, hop: AmountWithFees, amounts: seq<int>) {
    && |nodes| == |amounts| + 1 >= 2 && amounts[|amounts| - 1] == value
    && forall i {:trigger amounts[i]} :: 0 <= i < |amounts| - 1 ==> Mediates(rows, nodes, hop, amounts, i)
  }

  /** The mediator is asked with what it holds of the channel it receives over and of the channel it sends over. */
  lemma HopAsksTheMediator(G: Graph, rows: Rows, nodes: Nodes, hop: AmountWithFees, amounts: seq<int>, i: nat)
    requires Shows(G, rows) && IsWalk(G, nodes) && i + 2 < |nodes| == |amounts| + 1
    ensures hop(HopThrough(EdgeAt(G, nodes, i), EdgeAt(G, nodes, i + 1), amounts[i + 1])) == Some(amounts[i])
            <==> Mediates(rows, nodes, hop, amounts, i)
  {
    assert (nodes[i], nodes[i + 1]) in G && (nodes[i + 1], nodes[i + 2]) in G;
  }

  lemma {:induction false} AmountsAreCarried(G: Graph, rows: Rows, nodes: Nodes, value: int, hop: AmountWithFees,
                                             amounts: seq<int>, i: nat)
    requires Shows(G, rows) && IsWalk(G, nodes) && Arrives(rows, nodes, value, hop, amounts) && i < |amounts|
    ensures Carried(G, nodes, value, hop, i) == Some(amounts[i])
    decreases |amounts| - i
  {
    if i + 1 < |amounts| {
      AmountsAreCarried(G, rows, nodes, value, hop, amounts, i + 1);
      assert Mediates(rows, nodes, hop, amounts, i);
      HopAsksTheMediator(G, rows, nodes, hop, amounts, i);
    }
  }

  lemma CarriedArrives(G: Graph, rows: Rows, nodes: Nodes, value: int, hop: AmountWithFees) returns (amounts: seq<int>)
    requires Shows(G, rows) && IsWalk(G, nodes) && |nodes| >= 2 && Carried(G, nodes, value, hop, 0).Some?
    ensures Arrives(rows, nodes, value, hop, amounts)
  {
    forall i | 0 <= i < |nodes| - 1
      ensures Carried(G, nodes, value, hop, i).Some?
    {
      CarriedFurther(G, nodes, value, hop, 0, i);
    }
    amounts := seq(|nodes| - 1, i requires 0 <= i < |nodes| - 1 => Carried(G, nodes, value, hop, i).value);
    forall i | 0 <= i < |amounts| - 1
      ensures Mediates(rows, nodes, hop, amounts, i)
    {
      assert amounts[i + 1] == Carried(G, nodes, value, hop, i + 1).value;
      assert Carried(G, nodes, value, hop, i) == Some(amounts[i]);
      HopAsksTheMediator(G, rows, nodes, hop, amounts, i);
    }
  }

  /** The amounts of a path are unique, its fees are their differences, and the sender pays the first of them. */
  lemma FeesAreShares(G: Graph, rows: Rows, nodes: Nodes, value: int, hop: AmountWithFees, fees: seq<int>, amounts: seq<int>)
    requires Shows(G, rows) && IsWalk(G, nodes) && Arrives(rows, nodes, value, hop, amounts)
    requires AreFees(G, nodes, value, hop, fees)
    ensures |fees| == |amounts| && fees[|fees| - 1] == 0 && value + Sum(fees) == amounts[0]
    ensures forall k {:trigger amounts[k]} :: 0 <= k < |amounts| - 1 ==> fees[|amounts| - 2 - k] == amounts[k] - amounts[k + 1]
  {
    AmountsAreCarried(G, rows, nodes, value, hop, amounts, 0);
    forall k | 0 <= k < |amounts| - 1
      ensures fees[|amounts| - 2 - k] == amounts[k] - amounts[k + 1]
    {
      FeeIsAShare(G, rows, nodes, value, hop, fees, amounts, k);
    }
  }

  lemma FeeIsAShare(G: Graph, rows: Rows, nodes: Nodes, value: int, hop: AmountWithFees, fees: seq<int>, amounts: seq<int>, k: nat)
    requires Shows(G, rows) && IsWalk(G, nodes) && Arrives(rows, nodes, value, hop, amounts) && k + 1 < |amounts|
    requires AreFees(G, nodes, value, hop, fees)
    ensures |fees| == |amounts| && fees[|amounts| - 2 - k] == amounts[k] - amounts[k + 1]
  {
    var j := |amounts| - 2 - k;
    AmountsAreCarried(G, rows, nodes, value, hop, amounts, k);
    AmountsAreCarried(G, rows, nodes, value, hop, amounts, k + 1);
    assert IsFeeAt(G, nodes, value, hop, j, fees[j]) && |nodes| - 3 - j == k;
  }

  // ---------------------------------------------------------------- routes

  /**
   A route in terms of channels: distinct nodes that are reachable and online, each with a channel to the next in
   which it holds the value, and amounts that the mediators pass on so that the value arrives.
   */
  ghost predicate IsRouteOverChannels(s: Search, rows: Rows, nodes: Nodes) {
    && nodes != [] && nodes[0] == s.source && nodes[|nodes| - 1] == s.target
    && (forall i :: 0 <= i < |nodes| ==> s.reachable(nodes[i]) && s.online(nodes[i]))
    && (forall i, j :: 0 <= i < j < |nodes| ==> nodes[i] != nodes[j])
    && (forall i :: 0 <= i < |nodes| - 1 ==> CanSend(rows, nodes[i], nodes[i + 1], s.value))
    && if |nodes| == 1 then exists partner :: (s.source, partner) in rows && s.reachable(partner)
       else exists amounts :: Arrives(rows, nodes, s.value, s.hop, amounts)
  }

  ghost predicate CanSend(rows: Rows, a: Address, b: Address, value: int) {
    (a, b) in rows && SideOf(rows[(a, b)], a).capacity >= value
  }

  /** The search finds exactly the routes over channels. */
  lemma RoutesAreOverChannels(s: Search, rows: Rows, nodes: Nodes)
    requires Shows(s.G, rows)
    ensures IsRoute(s, nodes) <==> IsRouteOverChannels(s, rows, nodes)
  {
    if IsRoute(s, nodes) {
      RouteGoesOverChannels(s, rows, nodes);
    } else if IsRouteOverChannels(s, rows, nodes) {
      ChannelsMakeARoute(s, rows, nodes);
    }
  }

  lemma RouteGoesOverChannels(s: Search, rows: Rows, nodes: Nodes)
    requires Shows(s.G, rows) && IsRoute(s, nodes)
    ensures IsRouteOverChannels(s, rows, nodes)
  {
    forall i | 0 <= i < |nodes| - 1
      ensures CanSend(rows, nodes[i], nodes[i + 1], s.value)
    {
      assert EdgeAt(s.G, nodes, i).capacity >= s.value;
    }
    if |nodes| >= 2 {
      var amounts := CarriedArrives(s.G, rows, nodes, s.value, s.hop);
    }
  }

  lemma ChannelsMakeARoute(s: Search, rows: Rows, nodes: Nodes)
    requires Shows(s.G, rows) && IsRouteOverChannels(s, rows, nodes)
    ensures IsRoute(s, nodes)
  {
    forall i | 0 <= i < |nodes| - 1
      ensures (nodes[i], nodes[i + 1]) in s.G && s.G[(nodes[i], nodes[i + 1])].capacity >= s.value
    {
      assert CanSend(rows, nodes[i], nodes[i + 1], s.value);
    }
    if |nodes| >= 2 {
      var amounts :| Arrives(rows, nodes, s.value, s.hop, amounts);
      AmountsAreCarried(s.G, rows, nodes, s.value, s.hop, amounts, 0);
    }
  }

  // ---------------------------------------------------------------- weights

  /** What an edge weighs in a round, by the two sides of its channel. */
  lemma WeightOverChannels(s: Search, rows: Rows, earlier: seq<Nodes>, a: Address, b: Address)
    requires Shows(s.G, rows) && AllWalks(s.G, earlier) && (a, b) in rows
    ensures Symmetric(s.G)
    ensures var here, there, weight := SideOf(rows[(a, b)], a), SideOf(rows[(a, b)], b), RoundWeight(s, earlier, (a, b));
            var charged := s.hop(HopQuery(s.value, here.capacity, here.capacity, Capped(there.fees), Capped(here.fees), here.capacity));
            && (weight.Infinite? <==> charged.None?)
            && (weight.Finite? ==>
                  weight.value == 1.0
                                  + s.diversityPenalty * Uses(s.G, earlier, s.G[(a, b)].channelId) as real
                                  + (charged.value - s.value) as real / 1_000_000_000_000_000_000.0 * s.feePenalty
                                  + if there.capacity < 11 * s.value / 10 then 1.0 else 0.0)
  {
  }
}
