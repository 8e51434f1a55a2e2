/**
 The graph of a token network. Every channel is one mutable object; the two directed edges between
 its participants are opposite views of that object, and an index maps its identifier to its participants.
 */
module PfsNetwork {
  import opened Common
  import opened PfsModel

  class Channel {
    const network: Address
    const channelId: nat
    const participant1: Address
    const participant2: Address
    var feeSchedule1: FeeSchedule
    var feeSchedule2: FeeSchedule
    var capacity1: int
    var capacity2: int
    var updateNonce1: int
    var updateNonce2: int
    var revealTimeout1: int
    var revealTimeout2: int

    constructor (network: Address, channelId: nat, participant1: Address, participant2: Address)
      ensures this.network == network && this.channelId == channelId
      ensures Row() == ChannelRow(participant1, participant2, FRESH_SIDE, FRESH_SIDE)
    {
      this.network, this.channelId := network, channelId;
      this.participant1, this.participant2 := participant1, participant2;
      feeSchedule1, feeSchedule2 := INITIAL_FEES, INITIAL_FEES;
      capacity1, capacity2, updateNonce1, updateNonce2 := 0, 0, 0, 0;
      revealTimeout1, revealTimeout2 := DEFAULT_REVEAL_TIMEOUT, DEFAULT_REVEAL_TIMEOUT;
    }

    constructor FromRow(key: ChannelKey, row: ChannelRow)
      ensures network == key.network && channelId == key.id && Row() == row
    {
      network, channelId, participant1, participant2 := key.network, key.id, row.participant1, row.participant2;
      feeSchedule1, feeSchedule2 := row.side1.fees, row.side2.fees;
      capacity1, capacity2 := row.side1.capacity, row.side2.capacity;
      updateNonce1, updateNonce2 := row.side1.updateNonce, row.side2.updateNonce;
      revealTimeout1, revealTimeout2 := row.side1.revealTimeout, row.side2.revealTimeout;
    }

    /** The channel as it is written to the database. */
    function Row(): (row: ChannelRow)
      reads this
      ensures row.participant1 == participant1 && row.participant2 == participant2
    {
      ChannelRow(participant1, participant2,
                 Side(capacity1, updateNonce1, revealTimeout1, feeSchedule1),
                 Side(capacity2, updateNonce2, revealTimeout2, feeSchedule2))
    }
  }

  /** A unidirectional view of a bidirectional channel; no data is stored in the view. */
  datatype ChannelView = ChannelView(channel: Channel, reverse: bool) {

    function Participant1(): Address {
      if reverse then channel.participant2 else channel.participant1
    }

    function Participant2(): Address {
      if reverse then channel.participant1 else channel.participant2
    }

    function FeeScheduleSender(): FeeSchedule
      reads channel
    {
      if reverse then channel.feeSchedule2 else channel.feeSchedule1
    }

    /** Writes the side of the shared channel that this view looks at. */
    method UpdateCapacity(capacity: int, nonce: int, revealTimeout: Option<int>)
      requires channel.participant1 != channel.participant2
      modifies channel
      ensures var a, row := Participant1(), old(channel.Row());
              channel.Row() == WithSide(row, a, SideOf(row, a).(
                                        capacity := capacity, updateNonce := nonce,
                                        revealTimeout := if revealTimeout.Some? then revealTimeout.value
                                                         else SideOf(row, a).revealTimeout))
    {
      if reverse {
        channel.updateNonce2 := nonce;
        channel.capacity2 := capacity;
      } else {
        channel.updateNonce1 := nonce;
        channel.capacity1 := capacity;
      }
      if revealTimeout.Some? {
        if reverse {
          channel.revealTimeout2 := revealTimeout.value;
        } else {
          channel.revealTimeout1 := revealTimeout.value;
        }
      }
    }

    /** Refuses a schedule that is not later than the one in force. */
    method SetFeeSchedule(fees: FeeSchedule) returns (accepted: bool)
      requires channel.participant1 != channel.participant2
      modifies channel
      ensures var a, row := Participant1(), old(channel.Row());
              && (accepted <==> SideOf(row, a).fees.timestamp < fees.timestamp)
              && channel.Row() == if accepted then WithSide(row, a, SideOf(row, a).(fees := fees)) else row
    {
      if FeeScheduleSender().timestamp >= fees.timestamp {
        return false;
      }
      if reverse {
        channel.feeSchedule2 := fees;
      } else {
        channel.feeSchedule1 := fees;
      }
      return true;
    }
  }

  type Index = map<nat, (Address, Address)>

  type Graph = map<(Address, Address), ChannelView>

  /** The edge between two nodes, in both directions, is a pair of opposite views of one channel. */
  ghost predicate EdgesAreViews(G: Graph) {
    forall a, b :: (a, b) in G ==>
      && (b, a) in G
      && G[(a, b)].channel == G[(b, a)].channel && G[(a, b)].reverse != G[(b, a)].reverse
      && a == G[(a, b)].Participant1() && b == G[(a, b)].Participant2()
  }

  /** The channel of an edge is indexed under its identifier, with its participants in ascending order. */
  ghost predicate EdgesAreIndexed(network: Address, index: Index, G: Graph) {
    forall e :: e in G ==>
      var channel := G[e].channel;
      && channel.network == network && channel.participant1 < channel.participant2
      && channel.channelId in index
      && index[channel.channelId] == (channel.participant1, channel.participant2)
  }

  ghost predicate IndexHasEdges(index: Index, G: Graph) {
    forall id :: id in index ==> index[id] in G && G[index[id]].channel.channelId == id
  }

  /** The graph is symmetric, and live identifiers and participant pairs are in bijection. */
  ghost predicate IsChannelGraph(network: Address, index: Index, G: Graph) {
    EdgesAreViews(G) && EdgesAreIndexed(network, index, G) && IndexHasEdges(index, G)
  }

  ghost function ChannelsOf(G: Graph): set<Channel> {
    set e | e in G :: G[e].channel
  }

  function Linked(G: Graph, channel: Channel): Graph {
    G[(channel.participant1, channel.participant2) := ChannelView(channel, false)]
     [(channel.participant2, channel.participant1) := ChannelView(channel, true)]
  }

  /** The identifier is new and its participants have no edge, or it is live and belongs to these participants. */
  predicate MayLink(index: Index, G: Graph, channel: Channel) {
    var pair := (channel.participant1, channel.participant2);
    if channel.channelId in index then index[channel.channelId] == pair else pair !in G
  }

  /**
   Adding both views of a channel keeps the graph valid if and only if its identifier and its
   participants are new together, or belong together already.
   */
  lemma LinkedIsChannelGraph(network: Address, index: Index, G: Graph, channel: Channel)
    requires IsChannelGraph(network, index, G)
    requires channel.network == network && channel.participant1 < channel.participant2
    ensures IsChannelGraph(network, index[channel.channelId := (channel.participant1, channel.participant2)], Linked(G, channel))
            <==> MayLink(index, G, channel)
    ensures MayLink(index, G, channel) ==>
      forall id :: id in index && id != channel.channelId ==> Linked(G, channel)[index[id]] == G[index[id]]
  {
    if MayLink(index, G, channel) {
      LinkKeepsGraph(network, index, G, channel);
    } else {
      LinkBreaksGraph(network, index, G, channel);
    }
  }

  lemma LinkKeepsGraph(network: Address, index: Index, G: Graph, channel: Channel)
    requires IsChannelGraph(network, index, G) && MayLink(index, G, channel)
    requires channel.network == network && channel.participant1 < channel.participant2
    ensures IsChannelGraph(network, index[channel.channelId := (channel.participant1, channel.participant2)], Linked(G, channel))
    ensures forall id :: id in index && id != channel.channelId ==> Linked(G, channel)[index[id]] == G[index[id]]
  {
    LinkKeepsViews(G, channel);
    LinkKeepsIndexed(network, index, G, channel);
    LinkKeepsEdges(network, index, G, channel);
  }

  lemma LinkKeepsViews(G: Graph, channel: Channel)
    requires EdgesAreViews(G) && channel.participant1 < channel.participant2
    ensures EdgesAreViews(Linked(G, channel))
  {
    var e := (channel.participant1, channel.participant2);
    assert e in G <==> (e.1, e.0) in G;
  }

  lemma LinkKeepsIndexed(network: Address, index: Index, G: Graph, channel: Channel)
    requires IsChannelGraph(network, index, G) && MayLink(index, G, channel)
    requires channel.network == network && channel.participant1 < channel.participant2
    ensures EdgesAreIndexed(network, index[channel.channelId := (channel.participant1, channel.participant2)], Linked(G, channel))
  {
    var e := (channel.participant1, channel.participant2);
    forall d | d in G && d != e && d != (e.1, e.0)
      ensures G[d].channel.channelId != channel.channelId
    {
      EdgesOfAChannel(network, index, G, d);
    }
  }

  lemma LinkKeepsEdges(network: Address, index: Index, G: Graph, channel: Channel)
    requires IsChannelGraph(network, index, G) && MayLink(index, G, channel)
    requires channel.network == network && channel.participant1 < channel.participant2
    ensures forall id :: id in index && id != channel.channelId ==> Linked(G, channel)[index[id]] == G[index[id]]
    ensures IndexHasEdges(index[channel.channelId := (channel.participant1, channel.participant2)], Linked(G, channel))
  {
    var e := (channel.participant1, channel.participant2);
    forall id | id in index && id != channel.channelId
      ensures index[id] != e && index[id] != (e.1, e.0)
    {
      assert index[id] in G && G[index[id]].channel.channelId == id;
      EdgesOfAChannel(network, index, G, index[id]);
    }
  }

  lemma LinkBreaksGraph(network: Address, index: Index, G: Graph, channel: Channel)
    requires IsChannelGraph(network, index, G) && !MayLink(index, G, channel)
    requires channel.network == network && channel.participant1 < channel.participant2
    ensures !IsChannelGraph(network, index[channel.channelId := (channel.participant1, channel.participant2)], Linked(G, channel))
  {
    var H, e := Linked(G, channel), (channel.participant1, channel.participant2);
    var all := index[channel.channelId := e];
    if channel.channelId in index {
      var d := index[channel.channelId];
      assert d in G && G[d].channel.channelId == channel.channelId;
      assert d == (G[d].channel.participant1, G[d].channel.participant2);
      assert d in H && H[d].channel.channelId == channel.channelId && all[channel.channelId] != d;
      assert !EdgesAreIndexed(network, all, H);
    } else {
      var id := G[e].channel.channelId;
      EdgesOfAChannel(network, index, G, e);
      assert (e.1, e.0) != index[id];
      assert id in all && all[id] == e && H[e].channel.channelId != id;
      assert !IndexHasEdges(all, H);
    }
  }

  /** Distinct edges of one channel are the two directions between its participants. */
  lemma EdgesOfAChannel(network: Address, index: Index, G: Graph, e: (Address, Address))
    requires IsChannelGraph(network, index, G) && e in G
    ensures var p := index[G[e].channel.channelId]; e == p || e == (p.1, p.0)
  {
    var (a, b) := e;
    assert (a, b) in G;
  }

  lemma UnlinkedIsChannelGraph(network: Address, index: Index, G: Graph, id: nat)
    requires IsChannelGraph(network, index, G) && id in index
    ensures var (a, b) := index[id];
            && (a, b) in G && (b, a) in G
            && IsChannelGraph(network, index - {id}, G - {(a, b)} - {(b, a)})
            && forall other :: other in index && other != id ==> index[other] in G - {(a, b)} - {(b, a)}
  {
    var (a, b) := index[id];
    assert (a, b) in G && (b, a) in G;
    var H := G - {(a, b)} - {(b, a)};
    forall e | e in H
      ensures G[e].channel.channelId != id
    {
      EdgesOfAChannel(network, index, G, e);
    }
    assert EdgesAreViews(H);
    assert EdgesAreIndexed(network, index - {id}, H);
    forall other | other in index - {id}
      ensures index[other] in H && H[index[other]].channel.channelId == other
    {
      EdgesOfAChannel(network, index, G, (a, b));
      EdgesOfAChannel(network, index, G, (b, a));
    }
  }

  class TokenNetwork {
    const address: Address
    const settleTimeout: int
    var channelIdToAddresses: map<nat, (Address, Address)>
    var G: map<(Address, Address), ChannelView>

    constructor (address: Address, settleTimeout: int)
      ensures this.address == address && this.settleTimeout == settleTimeout
      ensures Valid() && channelIdToAddresses == map[] && G == map[]
    {
      this.address, this.settleTimeout := address, settleTimeout;
      channelIdToAddresses, G := map[], map[];
    }

    ghost predicate Valid()
      reads this
    {
      IsChannelGraph(address, channelIdToAddresses, G)
    }

    function ChannelOf(id: nat): Channel
      requires Valid() && id in channelIdToAddresses
      reads this
    {
      G[channelIdToAddresses[id]].channel
    }

    /** A channel with this identifier may be opened between the nodes: it is new, or it is theirs already. */
    predicate MayOpen(id: nat, a: Address, b: Address)
      reads this
    {
      if id in channelIdToAddresses then channelIdToAddresses[id] == (Min(a, b), Max(a, b)) else (Min(a, b), Max(a, b)) !in G
    }

    /** The channel objects of the network. */
    ghost function Channels(): set<Channel>
      reads this
    {
      ChannelsOf(G)
    }

    method AddChannelView(cv: ChannelView)
      modifies this`G, this`channelIdToAddresses
      ensures G == old(G)[(cv.Participant1(), cv.Participant2()) := cv]
      ensures channelIdToAddresses == if cv.Participant1() < cv.Participant2()
              then old(channelIdToAddresses)[cv.channel.channelId := (cv.Participant1(), cv.Participant2())]
              else old(channelIdToAddresses)
    {
      // One of the two views is enough for the index
      if cv.Participant1() < cv.Participant2() {
        channelIdToAddresses := channelIdToAddresses[cv.channel.channelId := (cv.Participant1(), cv.Participant2())];
      }
      G := G[(cv.Participant1(), cv.Participant2()) := cv];
    }

    /** Adds both views of a channel; edges and an index entry that are there already are overwritten. */
    method AddChannel(channel: Channel)
      requires Valid() && channel.network == address && channel.participant1 < channel.participant2
      modifies this`G, this`channelIdToAddresses
      ensures Valid() <==> old(MayLink(channelIdToAddresses, G, channel))
      ensures G == Linked(old(G), channel)
      ensures channelIdToAddresses
              == old(channelIdToAddresses)[channel.channelId := (channel.participant1, channel.participant2)]
      ensures Valid() ==> ChannelOf(channel.channelId) == channel
      ensures Valid() ==> forall id :: id in old(channelIdToAddresses) && id != channel.channelId ==> ChannelOf(id) == old(ChannelOf(id))
    {
      var forward, backward := ChannelView(channel, false), ChannelView(channel, true);
      LinkedIsChannelGraph(address, channelIdToAddresses, G, channel);
      AddChannelView(forward);
      AddChannelView(backward);
      assert G == Linked(old(G), channel);
    }

    /** Registers a channel; participants are swapped unless they are in ascending order. */
    method HandleChannelOpened(id: nat, a: Address, b: Address) returns (channel: Channel)
      requires Valid() && a != b
      modifies this`G, this`channelIdToAddresses
      ensures fresh(channel) && channel.network == address && channel.channelId == id && channel.Row() == FreshRow(a, b)
      ensures Valid() <==> old(MayOpen(id, a, b))
      ensures G == Linked(old(G), channel) && channelIdToAddresses == old(channelIdToAddresses)[id := (Min(a, b), Max(a, b))]
      ensures Valid() ==> ChannelOf(id) == channel
      ensures Valid() ==> forall other :: other in old(channelIdToAddresses) && other != id ==> ChannelOf(other) == old(ChannelOf(other))
    {
      var participant1, participant2 := a, b;
      if participant1 > participant2 {
        participant1, participant2 := participant2, participant1;
      }
      channel := new Channel(address, id, participant1, participant2);
      AddChannel(channel);
    }

    /** Both edges of an indexed channel are there to be removed. */
    method HandleChannelRemoved(id: nat)
      requires Valid() && id in channelIdToAddresses
      modifies this`G, this`channelIdToAddresses
      ensures Valid() && channelIdToAddresses == old(channelIdToAddresses) - {id}
      ensures forall other :: other in channelIdToAddresses ==> ChannelOf(other) == old(ChannelOf(other))
      ensures G == old(G - {channelIdToAddresses[id]} - {(channelIdToAddresses[id].1, channelIdToAddresses[id].0)})
    {
      var (participant1, participant2) := channelIdToAddresses[id];
      UnlinkedIsChannelGraph(address, channelIdToAddresses, G, id);
      channelIdToAddresses := channelIdToAddresses - {id};
      G := G - {(participant1, participant2)};
      G := G - {(participant2, participant1)};
    }

    /** Sets both capacities of the channel between the two nodes; there is no edge from a node to itself. */
    method HandleChannelBalanceUpdate(m: Message, updatingCapacityPartner: int, otherCapacityPartner: int)
        returns (changed: Option<Channel>)
      requires Valid() && m.CapacityUpdate? && m.key.id in channelIdToAddresses
      requires IsParticipant(ChannelOf(m.key.id).Row(), m.updating) && IsParticipant(ChannelOf(m.key.id).Row(), m.other)
      modifies ChannelOf(m.key.id)
      ensures changed.Some? <==> m.updating != m.other
      ensures changed.Some? ==>
        && changed.value == ChannelOf(m.key.id)
        && changed.value.Row() == CapacityRow(old(ChannelOf(m.key.id).Row()), m, Claim(updatingCapacityPartner, otherCapacityPartner))
      ensures changed.None? ==> ChannelOf(m.key.id).Row() == old(ChannelOf(m.key.id).Row())
    {
      ghost var channel := ChannelOf(m.key.id);
      if (m.updating, m.other) !in G {
        return None;
      }
      var toPartner, fromPartner := G[(m.updating, m.other)], G[(m.other, m.updating)];
      assert toPartner.channel == channel && fromPartner.channel == channel by {
        assert toPartner == G[(channel.participant1, channel.participant2)] || toPartner == G[(channel.participant2, channel.participant1)];
      }
      toPartner.UpdateCapacity(Min(m.updatingCapacity, otherCapacityPartner), m.updatingNonce, Some(m.revealTimeout));
      fromPartner.UpdateCapacity(Min(m.otherCapacity, updatingCapacityPartner), m.otherNonce, None);
      return Some(toPartner.channel);
    }

    method HandleChannelFeeUpdate(m: Message, now: int) returns (changed: Option<Channel>)
      requires Valid() && m.FeeUpdate? && m.key.id in channelIdToAddresses
      requires IsParticipant(ChannelOf(m.key.id).Row(), m.updating)
      modifies ChannelOf(m.key.id)
      ensures var row := old(ChannelOf(m.key.id).Row());
              var side := SideOf(row, m.updating);
              && (changed.Some? <==> m.timestamp <= now + ONE_HOUR && side.fees.timestamp < m.timestamp)
              && (changed.Some? ==>
                    && changed.value == ChannelOf(m.key.id)
                    && changed.value.Row() == WithSide(row, m.updating, side.(fees := FeeSchedule(m.timestamp, m.schedule))))
              && (changed.None? ==> ChannelOf(m.key.id).Row() == row)
    {
      if m.timestamp > now + ONE_HOUR {
        return None;
      }
      var (participant1, participant2) := channelIdToAddresses[m.key.id];
      var other := if m.updating == participant1 then participant2 else participant1;
      assert (participant1, participant2) in G && (participant2, participant1) in G;
      var toPartner, fromPartner := G[(m.updating, other)], G[(other, m.updating)];
      var accepted := toPartner.SetFeeSchedule(FeeSchedule(m.timestamp, m.schedule));
      if !accepted {
        return None;
      }
      return Some(fromPartner.channel);
    }
  }
}
