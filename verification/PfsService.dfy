/**
 The pathfinding service as an object: token networks in memory, tables in the database. Every
 method is proved to do what the functions of PfsModel say.
 */
module PfsService {
  import opened Common
  import opened PfsModel
  import opened PfsNetwork
  import PfsAgreement

  class PfsDatabase {
    var networks: map<Address, int>
    var rows: map<ChannelKey, ChannelRow>
    var claims: map<ClaimKey, Claim>
    var waiting: seq<Message>
    var latestCommittedBlock: int

    constructor (syncStartBlock: int)
      ensures networks == map[] && rows == map[] && claims == map[] && waiting == []
      ensures latestCommittedBlock == syncStartBlock
    {
      networks, rows, claims, waiting := map[], map[], map[], [];
      latestCommittedBlock := syncStartBlock;
    }

    method UpsertTokenNetwork(network: Address, settleTimeout: int)
      modifies this`networks
      ensures networks == old(networks)[network := settleTimeout]
    {
      networks := networks[network := settleTimeout];
    }

    method UpsertChannel(channel: Channel)
      modifies this`rows
      ensures rows == old(UpsertRow(rows, ChannelKey(channel.network, channel.channelId), channel.Row()))
    {
      rows := UpsertRow(rows, ChannelKey(channel.network, channel.channelId), channel.Row());
    }

    method DeleteChannel(key: ChannelKey) returns (deleted: bool)
      modifies this`rows
      ensures rows == old(rows) - {key} && (deleted <==> key in old(rows))
    {
      deleted := key in rows;
      rows := rows - {key};
    }

    method UpsertCapacityUpdate(m: Message)
      requires m.CapacityUpdate?
      modifies this`claims
      ensures claims == old(claims)[ClaimKey(m.updating, m.key) := Claim(m.updatingCapacity, m.otherCapacity)]
    {
      claims := claims[ClaimKey(m.updating, m.key) := Claim(m.updatingCapacity, m.otherCapacity)];
    }

    /** The last claim of a participant about a channel; a missing claim counts as zero. */
    method GetCapacityUpdates(updating: Address, key: ChannelKey) returns (own: int, partner: int)
      ensures Claim(own, partner) == ClaimOf(claims, updating, key)
    {
      if ClaimKey(updating, key) in claims {
        return claims[ClaimKey(updating, key)].own, claims[ClaimKey(updating, key)].partner;
      }
      return 0, 0;
    }

    method InsertWaitingMessage(m: Message)
      modifies this`waiting
      ensures waiting == old(waiting) + [m]
    {
      waiting := waiting + [m];
    }

    /** The waiting messages of a channel in the order in which they were inserted. */
    method SelectWaitingMessages(key: ChannelKey) returns (messages: seq<Message>)
      ensures messages == WaitingFor(waiting, key)
    {
      messages := [];
      var i := |waiting|;
      while i > 0
        invariant 0 <= i <= |waiting| && messages == WaitingFor(waiting[i..], key)
      {
        i := i - 1;
        assert waiting[i..] == [waiting[i]] + waiting[i + 1..];
        if waiting[i].key == key {
          messages := [waiting[i]] + messages;
        }
      }
    }

    method DeleteWaitingMessages(key: ChannelKey)
      modifies this`waiting
      ensures waiting == NotWaitingFor(old(waiting), key)
    {
      waiting := NotWaitingFor(waiting, key);
    }
  }

  /** What the constraints of the schema guarantee about the channel table. */
  ghost predicate StoredConsistently(networks: map<Address, int>, rows: map<ChannelKey, ChannelRow>) {
    && (forall k :: k in rows ==> k.network in networks && rows[k].participant1 < rows[k].participant2)
    && (forall k, q :: k in rows && q in rows && k.network == q.network && SamePair(rows[k], rows[q]) ==> k == q)
  }

  /** The channels in memory. */
  ghost function RowsOf(objects: map<ChannelKey, Channel>): map<ChannelKey, ChannelRow>
    reads objects.Values
  {
    map k | k in objects :: objects[k].Row()
  }

  twostate lemma RowsKept(objects: map<ChannelKey, Channel>)
    requires forall k :: k in objects ==> objects[k].Row() == old(objects[k].Row())
    ensures RowsOf(objects) == old(RowsOf(objects))
  {
  }

  twostate lemma RowChanged(objects: map<ChannelKey, Channel>, new key: ChannelKey)
    requires key in objects
    requires forall k :: k in objects && k != key ==> objects[k].Row() == old(objects[k].Row())
    ensures RowsOf(objects) == old(RowsOf(objects))[key := objects[key].Row()]
  {
  }

  lemma RowAdded(objects: map<ChannelKey, Channel>, key: ChannelKey, channel: Channel)
    ensures RowsOf(objects[key := channel]) == RowsOf(objects)[key := channel.Row()]
  {
  }

  lemma RowRemoved(objects: map<ChannelKey, Channel>, key: ChannelKey)
    ensures RowsOf(objects - {key}) == RowsOf(objects) - {key}
  {
  }

  /** The participant pair of a row is not in use among the channels in memory. */
  ghost predicate PairFree(live: map<ChannelKey, ChannelRow>, network: Address, row: ChannelRow) {
    forall k :: k in live && k.network == network ==> !SamePair(live[k], row)
  }

  function Without(rows: map<ChannelKey, ChannelRow>, keys: set<ChannelKey>): map<ChannelKey, ChannelRow> {
    map k | k in rows && k !in keys :: rows[k]
  }

  lemma NextRow(networks: map<Address, int>, rows: map<ChannelKey, ChannelRow>, rest: set<ChannelKey>, key: ChannelKey)
    requires StoredConsistently(networks, rows) && key in rest && rest <= rows.Keys
    ensures rows[key].participant1 < rows[key].participant2 && PairFree(Without(rows, rest), key.network, rows[key])
    ensures key.network in networks
    ensures Without(rows, rest - {key}) == Without(rows, rest)[key := rows[key]]
  {
  }

  class PathfindingService {
    const chainId: int
    const database: PfsDatabase
    var tokenNetworks: map<Address, TokenNetwork>
    var latestCommittedBlock: int
    ghost var objects: map<ChannelKey, Channel>   // the channels of all networks

    // ---------------------------------------------------------------- state

    predicate IsLive(key: ChannelKey)
      reads this, tokenNetworks.Values
    {
      key.network in tokenNetworks && key.id in tokenNetworks[key.network].channelIdToAddresses
    }

    ghost predicate NetworksValid()
      reads this, tokenNetworks.Values
    {
      forall n :: n in tokenNetworks ==> tokenNetworks[n].address == n && tokenNetworks[n].Valid()
    }

    /** The objects are those the edges of the networks look at. */
    ghost predicate ObjectsAreChannels()
      requires NetworksValid()
      reads this, tokenNetworks.Values
    {
      forall k {:trigger IsLive(k)} ::
        && (k in objects <==> IsLive(k))
        && (k in objects ==>
              && objects[k] == tokenNetworks[k.network].ChannelOf(k.id)
              && objects[k].network == k.network && objects[k].channelId == k.id)
    }

    ghost predicate Valid()
      reads this, tokenNetworks.Values
    {
      NetworksValid() && ObjectsAreChannels()
    }

    ghost function Model(): Pfs
      reads this, database, objects.Values
    {
      Pfs(chainId, database.networks, RowsOf(objects), database.rows, database.claims, database.waiting, database.latestCommittedBlock)
    }

    /** The same facts kept twice: the networks and the block cursor. */
    ghost predicate Mirrored()
      reads this, database
    {
      && tokenNetworks.Keys == database.networks.Keys
      && (forall n :: n in tokenNetworks ==> tokenNetworks[n].settleTimeout == database.networks[n])
      && latestCommittedBlock == database.latestCommittedBlock
    }

    /** Nothing but the fields of channel objects and the database has changed. */
    twostate predicate SameGraphs()
      reads this, tokenNetworks.Values
    {
      && tokenNetworks == old(tokenNetworks) && objects == old(objects)
      && latestCommittedBlock == old(latestCommittedBlock) && unchanged(tokenNetworks.Values)
    }

    twostate lemma StillValid()
      requires old(Valid()) && SameGraphs()
      ensures Valid()
    {
      forall k
        ensures IsLive(k) <==> old(IsLive(k))
      {
      }
    }

    /** What changing one channel needs to know of all networks. */
    ghost predicate HasChannel(key: ChannelKey)
      reads this, tokenNetworks.Values
    {
      && key in objects && key.network in tokenNetworks
      && tokenNetworks[key.network].Valid()
      && key.id in tokenNetworks[key.network].channelIdToAddresses
      && objects[key] == tokenNetworks[key.network].ChannelOf(key.id)
      && objects[key].network == key.network && objects[key].channelId == key.id
      && forall k :: k in objects && k != key ==> objects[k] != objects[key]
    }

    lemma LiveChannel(key: ChannelKey)
      requires Valid() && key in objects
      ensures HasChannel(key)
    {
      assert IsLive(key);
      forall k | k in objects && k != key
        ensures objects[k] != objects[key]
      {
        assert IsLive(k);
      }
    }

    /** Nothing but the graph of one network has changed. */
    twostate predicate OtherGraphsKept(network: Address)
      reads this, tokenNetworks.Values
    {
      && tokenNetworks == old(tokenNetworks)
      && forall n :: n in tokenNetworks && n != network ==> unchanged(tokenNetworks[n])
    }

    twostate lemma ChannelAdded(key: ChannelKey)
      requires old(Valid()) && OtherGraphsKept(key.network) && key.network in tokenNetworks
      requires key in objects && objects == old(objects)[key := objects[key]]
      requires var network := tokenNetworks[key.network];
               && network.Valid()
               && network.channelIdToAddresses.Keys == old(network.channelIdToAddresses.Keys) + {key.id}
               && network.ChannelOf(key.id) == objects[key]
               && forall id :: id in old(network.channelIdToAddresses) && id != key.id ==> network.ChannelOf(id) == old(network.ChannelOf(id))
      requires objects[key].network == key.network && objects[key].channelId == key.id
      ensures Valid()
    {
      forall k
        ensures IsLive(k) <==> old(IsLive(k)) || k == key
      {
      }
    }

    twostate lemma NetworkAdded(network: Address)
      requires old(Valid()) && network !in old(tokenNetworks) && network in tokenNetworks
      requires tokenNetworks == old(tokenNetworks)[network := tokenNetworks[network]] && objects == old(objects)
      requires forall n :: n in old(tokenNetworks) ==> unchanged(old(tokenNetworks)[n])
      requires tokenNetworks[network].address == network && tokenNetworks[network].Valid()
      requires tokenNetworks[network].channelIdToAddresses == map[]
      ensures Valid()
    {
      forall k
        ensures IsLive(k) <==> old(IsLive(k))
      {
      }
    }

    twostate lemma ChannelRemoved(key: ChannelKey)
      requires old(Valid()) && OtherGraphsKept(key.network) && key.network in tokenNetworks
      requires objects == old(objects) - {key}
      requires var network := tokenNetworks[key.network];
               && network.Valid()
               && network.channelIdToAddresses.Keys == old(network.channelIdToAddresses.Keys) - {key.id}
               && forall id :: id in network.channelIdToAddresses ==> network.ChannelOf(id) == old(network.ChannelOf(id))
      ensures Valid()
    {
      forall k
        ensures IsLive(k) <==> old(IsLive(k)) && k != key
      {
      }
    }

    // ---------------------------------------------------------------- start

    /** Loads what the database holds: networks first, then every channel in both directions. */
    constructor (chainId: int, database: PfsDatabase)
      requires StoredConsistently(database.networks, database.rows)
      ensures Valid() && Mirrored() && this.chainId == chainId && this.database == database
      ensures Model() == Pfs(chainId, database.networks, database.rows, database.rows,
                             database.claims, database.waiting, database.latestCommittedBlock)
      ensures fresh(tokenNetworks.Values) && forall k :: k in objects ==> fresh(objects[k])
    {
      this.chainId, this.database := chainId, database;
      latestCommittedBlock := database.latestCommittedBlock;
      tokenNetworks, objects := map[], map[];
      new;
      LoadNetworks();
      LoadChannels();
    }

    method LoadNetworks()
      requires tokenNetworks == map[] && objects == map[]
      modifies this`tokenNetworks
      ensures Valid() && fresh(tokenNetworks.Values)
      ensures tokenNetworks.Keys == database.networks.Keys
      ensures forall n :: n in tokenNetworks ==> tokenNetworks[n].settleTimeout == database.networks[n]
    {
      var rest := database.networks.Keys;
      while rest != {}
        invariant rest <= database.networks.Keys
        invariant forall n :: n in tokenNetworks ==> fresh(tokenNetworks[n])
        invariant tokenNetworks.Keys == database.networks.Keys - rest
        invariant Valid()
        invariant forall n :: n in tokenNetworks ==>
                    tokenNetworks[n].settleTimeout == database.networks[n] && tokenNetworks[n].channelIdToAddresses == map[]
        decreases rest
      {
        var n :| n in rest;
        var network := new TokenNetwork(n, database.networks[n]);
        tokenNetworks := tokenNetworks[n := network];
        rest := rest - {n};
      }
    }

    /** Adds the views of one stored channel. */
    method LoadChannel(key: ChannelKey) returns (ghost channel: Channel)
      requires Valid() && key in database.rows && key.network in tokenNetworks && key !in objects
      requires database.rows[key].participant1 < database.rows[key].participant2
      requires PairFree(RowsOf(objects), key.network, database.rows[key])
      modifies this`objects, tokenNetworks[key.network]
      ensures Valid() && fresh(channel) && channel.Row() == database.rows[key]
      ensures objects == old(objects)[key := channel]
    {
      var row, network := database.rows[key], tokenNetworks[key.network];
      assert !IsLive(key);
      PairIsFree(network, row);
      var loaded := new Channel.FromRow(key, row);
      network.AddChannel(loaded);
      channel := loaded;
      objects := objects[key := channel];
      ChannelAdded(key);
    }

    lemma PairIsFree(network: TokenNetwork, row: ChannelRow)
      requires Valid() && network in tokenNetworks.Values && row.participant1 < row.participant2
      requires PairFree(RowsOf(objects), network.address, row)
      ensures (row.participant1, row.participant2) !in network.G
    {
      var e := (row.participant1, row.participant2);
      if e in network.G {
        var channel := network.G[e].channel;
        var k := ChannelKey(network.address, channel.channelId);
        EdgesOfAChannel(network.address, network.channelIdToAddresses, network.G, e);
        assert IsLive(k);
        assert objects[k] == network.ChannelOf(channel.channelId);
        assert SamePair(RowsOf(objects)[k], row);
      }
    }

    method LoadNextChannel(rest: set<ChannelKey>, key: ChannelKey) returns (ghost channel: Channel)
      requires Valid() && tokenNetworks.Keys == database.networks.Keys
      requires StoredConsistently(database.networks, database.rows)
      requires key in rest && rest <= database.rows.Keys && RowsOf(objects) == Without(database.rows, rest)
      modifies this`objects, tokenNetworks.Values
      ensures Valid() && RowsOf(objects) == Without(database.rows, rest - {key})
      ensures fresh(channel) && objects == old(objects)[key := channel]
    {
      NextRow(database.networks, database.rows, rest, key);
      assert RowsOf(objects).Keys == objects.Keys;
      channel := LoadChannel(key);
      RowsKept(old(objects));
      RowAdded(old(objects), key, channel);
    }

    method LoadChannels()
      requires Valid() && objects == map[] && tokenNetworks.Keys == database.networks.Keys
      requires StoredConsistently(database.networks, database.rows)
      modifies this`objects, tokenNetworks.Values
      ensures Valid() && RowsOf(objects) == database.rows
      ensures forall k :: k in objects ==> fresh(objects[k])
    {
      var rest := database.rows.Keys;
      assert Without(database.rows, rest) == map[];
      while rest != {}
        invariant rest <= database.rows.Keys
        invariant forall k :: k in objects ==> fresh(objects[k])
        invariant Valid() && RowsOf(objects) == Without(database.rows, rest)
        decreases rest
      {
        var key :| key in rest;
        var _ := LoadNextChannel(rest, key);
        rest := rest - {key};
      }
    }

    // ---------------------------------------------------------------- chain events

    /** Handles one chain event; memory and database agree again afterwards. */
    method HandleEvent(event: Step) returns (outcome: Outcome)
      requires Valid() && Mirrored() && PfsAgreement.Agrees(Model())
      requires !event.Received? && Lawful(Model(), event)
      modifies this`tokenNetworks, this`objects, this`latestCommittedBlock
      modifies database, tokenNetworks.Values, objects.Values
      ensures Valid() && Mirrored() && PfsAgreement.Agrees(Model())
      ensures Model() == Exec(old(Model()), event)
    {
      PfsAgreement.StepAgrees(Model(), event);
      outcome := Accepted;
      match event
      case Created(network, settleTimeout) => HandleTokenNetworkCreated(network, settleTimeout);
      case Opened(key, a, b, now) => outcome := HandleChannelOpened(key, a, b, now);
      case Removed(key) =>
        if key in database.rows {
          RowsAreLive(key);
        }
        HandleChannelRemoved(key);
      case HeadBlock(block) => HandleUpdatedHeadBlock(block);
    }

    /** A row to delete always has its channel, and so its edges, in memory. */
    lemma RowsAreLive(key: ChannelKey)
      requires Valid() && PfsAgreement.Consistent(Model()) && key in database.rows
      ensures IsLive(key)
    {
      assert key in Model().live;
      assert key in objects;
    }

    method HandleTokenNetworkCreated(network: Address, settleTimeout: int)
      requires Valid() && Mirrored()
      modifies this`tokenNetworks, database`networks
      ensures Valid() && Mirrored()
      ensures Model() == HandleNetworkCreated(old(Model()), network, settleTimeout)
    {
      if network !in tokenNetworks {
        var created := new TokenNetwork(network, settleTimeout);
        tokenNetworks := tokenNetworks[network := created];
        database.UpsertTokenNetwork(network, settleTimeout);
        RowsKept(objects);
        NetworkAdded(network);
      }
    }

    /** Adds the channel to the graph and to the table, then handles the messages that waited for it. */
    method HandleChannelOpened(key: ChannelKey, a: Address, b: Address, now: int) returns (outcome: Outcome)
      requires Valid() && Mirrored() && Admissible(Model(), key, a, b)
      modifies this`objects, database, tokenNetworks.Values, objects.Values
      ensures Valid() && Mirrored()
      ensures Handled(Model(), outcome) == HandleOpened(old(Model()), key, a, b, now)
    {
      if key.network !in tokenNetworks {
        return Accepted;
      }
      ghost var channel := RegisterChannel(key, a, b);
      outcome := HandleWaitingMessages(key, now);
    }

    method RegisterChannel(key: ChannelKey, a: Address, b: Address) returns (ghost channel: Channel)
      requires Valid() && Mirrored() && key.network in tokenNetworks && Admissible(Model(), key, a, b)
      modifies this`objects, database`rows, tokenNetworks[key.network]
      ensures Valid() && Mirrored() && tokenNetworks == old(tokenNetworks)
      ensures fresh(channel) && objects == old(objects)[key := channel]
      ensures Model() == Stored(old(Model()), key, FreshRow(a, b))
    {
      channel := OpenChannel(key, a, b);
      StoreOpenedChannel(key);
    }

    /** What the chain opens may be opened: the channel is new, or it is the same channel again. */
    lemma AdmissibleMayOpen(key: ChannelKey, a: Address, b: Address)
      requires Valid() && key.network in tokenNetworks && Admissible(Model(), key, a, b)
      ensures tokenNetworks[key.network].MayOpen(key.id, a, b)
    {
      var network := tokenNetworks[key.network];
      assert IsLive(key) <==> key in objects;
      if key in objects {
        assert Model().live[key] == objects[key].Row();
        assert network.channelIdToAddresses[key.id] in network.G && objects[key] == network.ChannelOf(key.id);
      } else {
        PairIsFree(network, FreshRow(a, b));
      }
    }

    method OpenChannel(key: ChannelKey, a: Address, b: Address) returns (ghost channel: Channel)
      requires Valid() && Mirrored() && key.network in tokenNetworks && Admissible(Model(), key, a, b)
      modifies this`objects, tokenNetworks[key.network]
      ensures Valid() && Mirrored() && tokenNetworks == old(tokenNetworks)
      ensures fresh(channel) && objects == old(objects)[key := channel]
      ensures Model() == old(Model()).(live := old(Model()).live[key := FreshRow(a, b)])
    {
      channel := LinkChannel(key, a, b);
      RowsKept(old(objects));
      RowAdded(old(objects), key, channel);
    }

    method LinkChannel(key: ChannelKey, a: Address, b: Address) returns (ghost channel: Channel)
      requires Valid() && key.network in tokenNetworks && Admissible(Model(), key, a, b)
      modifies this`objects, tokenNetworks[key.network]
      ensures Valid() && tokenNetworks == old(tokenNetworks)
      ensures fresh(channel) && channel.Row() == FreshRow(a, b) && objects == old(objects)[key := channel]
    {
      var network := tokenNetworks[key.network];
      AdmissibleMayOpen(key, a, b);
      channel := network.HandleChannelOpened(key.id, a, b);
      objects := objects[key := channel];
      ChannelAdded(key);
    }

    method StoreOpenedChannel(key: ChannelKey)
      requires Valid() && Mirrored() && IsLive(key)
      modifies database`rows
      ensures SameGraphs() && Valid() && Mirrored()
      ensures Model() == old(Model()).(rows := UpsertRow(old(Model()).rows, key, old(Model()).live[key]))
    {
      StoreChanged(tokenNetworks[key.network].ChannelOf(key.id), key);
      StillValid();
    }

    method HandleWaitingMessages(key: ChannelKey, now: int) returns (outcome: Outcome)
      requires Valid() && Mirrored()
      modifies database`claims, database`rows, database`waiting, objects.Values
      ensures SameGraphs() && Valid() && Mirrored()
      ensures var h := HandleMessages(old(Model()), WaitingFor(old(Model()).waiting, key), now);
              Handled(Model(), outcome) == if h.outcome.KeyError? then h
              else Handled(h.state.(waiting := NotWaitingFor(h.state.waiting, key)), Accepted)
    {
      var messages := database.SelectWaitingMessages(key);
      for i := 0 to |messages|
        invariant SameGraphs() && Valid() && Mirrored()
        invariant HandleMessages(Model(), messages[i..], now) == HandleMessages(old(Model()), messages, now)
      {
        outcome := HandleMessage(messages[i], now);
        if outcome.KeyError? {
          return;
        }
      }
      ForgetWaitingMessages(key);
      StillValid();
      outcome := Accepted;
    }

    method ForgetWaitingMessages(key: ChannelKey)
      modifies database`waiting
      ensures SameGraphs() && Model() == old(Model()).(waiting := NotWaitingFor(old(Model()).waiting, key))
    {
      database.DeleteWaitingMessages(key);
      RowsKept(objects);
    }

    /** ChannelClosed and ChannelSettled: removes the channel unless its row is gone already. */
    method HandleChannelRemoved(key: ChannelKey)
      requires Valid() && Mirrored() && (key in database.rows ==> IsLive(key))
      modifies this`objects, database`rows, tokenNetworks.Values
      ensures Valid() && Mirrored() && Model() == HandleRemoved(old(Model()), key)
    {
      if key.network !in tokenNetworks {
        return;
      }
      var deleted := DeleteRow(key);
      if deleted {
        RemoveChannel(key);
      }
    }

    method DeleteRow(key: ChannelKey) returns (deleted: bool)
      requires Valid() && Mirrored()
      modifies database`rows
      ensures SameGraphs() && Valid() && Mirrored() && (deleted <==> key in old(Model()).rows)
      ensures Model() == if deleted then old(Model()).(rows := old(Model()).rows - {key}) else old(Model())
    {
      deleted := database.DeleteChannel(key);
      RowsKept(objects);
      StillValid();
      assert !deleted ==> database.rows == old(database.rows);
    }

    method RemoveChannel(key: ChannelKey)
      requires Valid() && Mirrored() && key.network in tokenNetworks && key.id in tokenNetworks[key.network].channelIdToAddresses
      modifies this`objects, tokenNetworks[key.network]
      ensures Valid() && Mirrored()
      ensures Model() == old(Model()).(live := old(Model()).live - {key})
    {
      ghost var rest := objects - {key};
      RowRemoved(objects, key);
      UnlinkChannel(key);
      RowsKept(rest);
    }

    method UnlinkChannel(key: ChannelKey)
      requires Valid() && key.network in tokenNetworks && key.id in tokenNetworks[key.network].channelIdToAddresses
      modifies this`objects, tokenNetworks[key.network]
      ensures Valid() && tokenNetworks == old(tokenNetworks) && objects == old(objects) - {key}
    {
      tokenNetworks[key.network].HandleChannelRemoved(key.id);
      objects := objects - {key};
      ChannelRemoved(key);
    }

    method HandleUpdatedHeadBlock(block: int)
      requires Valid() && Mirrored()
      modifies this`latestCommittedBlock, database`latestCommittedBlock
      ensures Valid() && Mirrored() && Model() == old(Model()).(committed := block)
    {
      latestCommittedBlock := block;
      database.latestCommittedBlock := block;
      RowsKept(objects);
      forall k
        ensures IsLive(k) <==> old(IsLive(k))
      {
      }
    }

    // ---------------------------------------------------------------- messages

    /** Handles one message of a participant; a message for a channel that is not open is stored. */
    method HandleMessage(m: Message, now: int) returns (outcome: Outcome)
      requires Valid() && Mirrored()
      modifies database`claims, database`rows, database`waiting, objects.Values
      ensures SameGraphs() && Valid() && Mirrored()
      ensures Handled(Model(), outcome) == PfsModel.HandleMessage(old(Model()), m, now)
    {
      if m.CapacityUpdate? {
        outcome := OnCapacityUpdate(m);
      } else {
        outcome := OnFeeUpdate(m, now);
      }
      StillValid();
    }

    method Defer(m: Message)
      modifies database`waiting
      ensures SameGraphs() && Model() == old(Model()).(waiting := old(Model()).waiting + [m])
    {
      database.InsertWaitingMessage(m);
      RowsKept(objects);
    }

    /** The network of a message that passes the checks. */
    method ValidateCapacityUpdate(m: Message) returns (outcome: Outcome)
      requires Valid() && Mirrored() && m.CapacityUpdate?
      ensures !outcome.KeyError? && (outcome.Accepted? ==> IsLive(m.key))
      ensures outcome.Rejected? <==>
        || !WellSigned(Model(), m)
        || (m.key in objects && !(IsParticipant(objects[m.key].Row(), m.updating) && IsParticipant(objects[m.key].Row(), m.other)))
      ensures outcome.Deferred? <==> WellSigned(Model(), m) && m.key !in objects
    {
      if m.chainId != chainId || m.key.network !in tokenNetworks {
        return Rejected;
      }
      if m.updatingCapacity > UINT256_MAX || m.otherCapacity > UINT256_MAX || m.sender != m.updating {
        return Rejected;
      }
      var network := tokenNetworks[m.key.network];
      assert IsLive(m.key) <==> m.key in objects;
      if m.key.id !in network.channelIdToAddresses {
        return Deferred;
      }
      assert objects[m.key] == network.ChannelOf(m.key.id);
      var (participant1, participant2) := network.channelIdToAddresses[m.key.id];
      if m.updating !in {participant1, participant2} || m.other !in {participant1, participant2} {
        return Rejected;
      }
      return Accepted;
    }

    method OnCapacityUpdate(m: Message) returns (outcome: Outcome)
      requires Valid() && Mirrored() && m.CapacityUpdate?
      modifies database`claims, database`rows, database`waiting, objects.Values
      ensures SameGraphs()
      ensures Handled(Model(), outcome) == HandleCapacityUpdate(old(Model()), m)
    {
      outcome := ValidateCapacityUpdate(m);
      if outcome.Deferred? {
        Defer(m);
      } else if outcome.Accepted? {
        LiveChannel(m.key);
        outcome := AcceptCapacityUpdate(m);
      }
    }

    method AcceptCapacityUpdate(m: Message) returns (outcome: Outcome)
      requires m.CapacityUpdate? && HasChannel(m.key) && WellSigned(Model(), m)
      requires IsParticipant(objects[m.key].Row(), m.updating) && IsParticipant(objects[m.key].Row(), m.other)
      modifies database`claims, database`rows, objects[m.key]
      ensures SameGraphs()
      ensures Handled(Model(), outcome) == HandleCapacityUpdate(old(Model()), m)
    {
      database.UpsertCapacityUpdate(m);
      RowsKept(objects);
      assert objects[m.key].Row() == RowsOf(objects)[m.key];
      outcome := MeetClaims(m);
    }

    /** Sets both capacities of the channel of a checked message. */
    method ChangeCapacities(m: Message, own: int, partner: int) returns (changed: Option<Channel>)
      requires HasChannel(m.key) && m.CapacityUpdate?
      requires IsParticipant(objects[m.key].Row(), m.updating) && IsParticipant(objects[m.key].Row(), m.other)
      modifies objects[m.key]
      ensures SameGraphs() && unchanged(database)
      ensures changed == if m.updating == m.other then None else Some(objects[m.key])
      ensures RowsOf(objects) == if changed.None? then old(RowsOf(objects)) else
                old(RowsOf(objects))[m.key := CapacityRow(old(objects[m.key].Row()), m, Claim(own, partner))]
    {
      var network := tokenNetworks[m.key.network];
      assert objects[m.key] == network.ChannelOf(m.key.id);
      changed := network.HandleChannelBalanceUpdate(m, own, partner);
      if changed.Some? {
        RowChanged(objects, m.key);
      } else {
        RowsKept(objects);
      }
    }

    /** Meets the stored claims of both participants and stores the channel. */
    method MeetClaims(m: Message) returns (outcome: Outcome)
      requires HasChannel(m.key) && m.CapacityUpdate?
      requires IsParticipant(objects[m.key].Row(), m.updating) && IsParticipant(objects[m.key].Row(), m.other)
      modifies database`rows, objects[m.key]
      ensures SameGraphs() && outcome == (if m.updating == m.other then KeyError else Accepted)
      ensures outcome.KeyError? ==> RowsOf(objects) == old(RowsOf(objects)) && database.rows == old(database.rows)
      ensures var row := CapacityRow(old(objects[m.key].Row()), m, ClaimOf(database.claims, m.other, m.key));
              outcome.Accepted? ==>
                && RowsOf(objects) == old(RowsOf(objects))[m.key := row]
                && database.rows == UpsertRow(old(database.rows), m.key, row)
    {
      var own, partner := database.GetCapacityUpdates(m.other, m.key);
      var changed := ChangeCapacities(m, own, partner);
      if changed.None? {
        return KeyError;
      }
      StoreChanged(changed.value, m.key);
      return Accepted;
    }

    method ValidateFeeUpdate(m: Message) returns (outcome: Outcome)
      requires Valid() && Mirrored() && m.FeeUpdate?
      ensures !outcome.KeyError? && (outcome.Accepted? ==> IsLive(m.key))
      ensures outcome.Rejected? <==>
        || !WellSigned(Model(), m)
        || (m.key in objects && (!IsParticipant(objects[m.key].Row(), m.updating) || m.hasTimezone))
      ensures outcome.Deferred? <==> WellSigned(Model(), m) && m.key !in objects
    {
      if m.chainId != chainId || m.key.network !in tokenNetworks || m.sender != m.updating {
        return Rejected;
      }
      var network := tokenNetworks[m.key.network];
      assert IsLive(m.key) <==> m.key in objects;
      if m.key.id !in network.channelIdToAddresses {
        return Deferred;
      }
      assert objects[m.key] == network.ChannelOf(m.key.id);
      var (participant1, participant2) := network.channelIdToAddresses[m.key.id];
      if m.updating !in {participant1, participant2} || m.hasTimezone {
        return Rejected;
      }
      return Accepted;
    }

    method OnFeeUpdate(m: Message, now: int) returns (outcome: Outcome)
      requires Valid() && Mirrored() && m.FeeUpdate?
      modifies database`rows, database`waiting, objects.Values
      ensures SameGraphs()
      ensures Handled(Model(), outcome) == HandleFeeUpdate(old(Model()), m, now)
    {
      outcome := ValidateFeeUpdate(m);
      if outcome.Deferred? {
        Defer(m);
      } else if outcome.Accepted? {
        LiveChannel(m.key);
        outcome := AcceptFeeUpdate(m, now);
      }
    }

    method AcceptFeeUpdate(m: Message, now: int) returns (outcome: Outcome)
      requires m.FeeUpdate? && HasChannel(m.key) && WellSigned(Model(), m)
      requires IsParticipant(objects[m.key].Row(), m.updating) && !m.hasTimezone
      modifies database`rows, objects[m.key]
      ensures SameGraphs()
      ensures Handled(Model(), outcome) == HandleFeeUpdate(old(Model()), m, now)
    {
      assert objects[m.key].Row() == RowsOf(objects)[m.key];
      var changed := ChangeFeeSchedule(m, now);
      if changed.None? {
        return Rejected;
      }
      StoreChanged(changed.value, m.key);
      return Accepted;
    }

    /** Stores a channel object that was changed. */
    method StoreChanged(channel: Channel, key: ChannelKey)
      requires key in objects && channel == objects[key] && channel.network == key.network && channel.channelId == key.id
      modifies database`rows
      ensures SameGraphs() && RowsOf(objects) == old(RowsOf(objects))
      ensures database.rows == UpsertRow(old(database.rows), key, RowsOf(objects)[key])
    {
      assert channel.Row() == RowsOf(objects)[key];
      database.UpsertChannel(channel);
      RowsKept(objects);
    }

    method ChangeFeeSchedule(m: Message, now: int) returns (changed: Option<Channel>)
      requires HasChannel(m.key) && m.FeeUpdate? && IsParticipant(objects[m.key].Row(), m.updating)
      modifies objects[m.key]
      ensures SameGraphs() && unchanged(database) && (changed.Some? ==> changed.value == objects[m.key])
      ensures var row := old(objects[m.key].Row());
              var side := SideOf(row, m.updating);
              && (changed.Some? <==> m.timestamp <= now + ONE_HOUR && side.fees.timestamp < m.timestamp)
              && RowsOf(objects) == if changed.None? then old(RowsOf(objects)) else
                   old(RowsOf(objects))[m.key := WithSide(row, m.updating, side.(fees := FeeSchedule(m.timestamp, m.schedule)))]
    {
      var network := tokenNetworks[m.key.network];
      assert objects[m.key] == network.ChannelOf(m.key.id);
      changed := network.HandleChannelFeeUpdate(m, now);
      if changed.Some? {
        RowChanged(objects, m.key);
      } else {
        RowsKept(objects);
      }
    }
  }

  /** Services with the same channels in memory have the same index and the same edges. */
  lemma SameMemory(s: PathfindingService, t: PathfindingService, network: Address)
    requires s.Valid() && t.Valid() && s.Model() == t.Model()
    requires network in s.tokenNetworks && network in t.tokenNetworks
    ensures var n, m := s.tokenNetworks[network], t.tokenNetworks[network];
            n.channelIdToAddresses == m.channelIdToAddresses && n.G.Keys == m.G.Keys
  {
    var n, m := s.tokenNetworks[network], t.tokenNetworks[network];
    SameIndex(s, t, network);
    SameIndex(t, s, network);
    SameEdges(n, m);
    SameEdges(m, n);
  }

  lemma SameIndex(s: PathfindingService, t: PathfindingService, network: Address)
    requires s.Valid() && t.Valid() && s.Model().live == t.Model().live
    requires network in s.tokenNetworks && network in t.tokenNetworks
    ensures var index := t.tokenNetworks[network].channelIdToAddresses;
            forall id :: id in s.tokenNetworks[network].channelIdToAddresses ==>
              id in index && index[id] == s.tokenNetworks[network].channelIdToAddresses[id]
  {
    var n, m := s.tokenNetworks[network], t.tokenNetworks[network];
    forall id | id in n.channelIdToAddresses
      ensures id in m.channelIdToAddresses && m.channelIdToAddresses[id] == n.channelIdToAddresses[id]
    {
      var key := ChannelKey(network, id);
      assert s.IsLive(key) && key in s.Model().live;
      assert key in t.objects;
      assert t.IsLive(key) && s.Model().live[key] == t.Model().live[key];
      IndexIsRow(s, key);
      IndexIsRow(t, key);
    }
  }

  lemma IndexIsRow(s: PathfindingService, key: ChannelKey)
    requires s.Valid() && s.IsLive(key) && key in s.Model().live
    ensures var row := s.Model().live[key];
            s.tokenNetworks[key.network].channelIdToAddresses[key.id] == (row.participant1, row.participant2)
  {
    var n := s.tokenNetworks[key.network];
    assert n.channelIdToAddresses[key.id] in n.G;
    assert s.objects[key] == n.ChannelOf(key.id);
  }

  lemma SameEdges(n: TokenNetwork, m: TokenNetwork)
    requires n.Valid() && m.Valid() && n.channelIdToAddresses == m.channelIdToAddresses
    ensures n.G.Keys <= m.G.Keys
  {
    forall e | e in n.G
      ensures e in m.G
    {
      EdgesOfAChannel(n.address, n.channelIdToAddresses, n.G, e);
      var p := n.channelIdToAddresses[n.G[e].channel.channelId];
      assert (p.0, p.1) in m.G;
    }
  }

  /** A service that starts with the database of a running one has the same channels, index and edges in memory. */
  method Restart(service: PathfindingService) returns (restarted: PathfindingService)
    requires service.Valid() && service.Mirrored() && PfsAgreement.Agrees(service.Model())
    ensures fresh(restarted) && restarted.Valid() && restarted.Mirrored()
    ensures restarted.Model() == service.Model()
    ensures restarted.tokenNetworks.Keys == service.tokenNetworks.Keys
    ensures forall n :: n in service.tokenNetworks ==>
              && restarted.tokenNetworks[n].channelIdToAddresses == service.tokenNetworks[n].channelIdToAddresses
              && restarted.tokenNetworks[n].G.Keys == service.tokenNetworks[n].G.Keys
  {
    restarted := Started(service);
    forall n | n in service.tokenNetworks
      ensures restarted.tokenNetworks[n].channelIdToAddresses == service.tokenNetworks[n].channelIdToAddresses
      ensures restarted.tokenNetworks[n].G.Keys == service.tokenNetworks[n].G.Keys
    {
      SameMemory(service, restarted, n);
    }
  }

  method Started(service: PathfindingService) returns (restarted: PathfindingService)
    requires service.Valid() && service.Mirrored() && PfsAgreement.Agrees(service.Model())
    ensures fresh(restarted) && service.Valid() && restarted.Valid() && restarted.Mirrored()
    ensures restarted.Model() == service.Model()
    ensures restarted.tokenNetworks.Keys == service.tokenNetworks.Keys
  {
    restarted := new PathfindingService(service.chainId, service.database);
    RowsKept(service.objects);
  }
}
