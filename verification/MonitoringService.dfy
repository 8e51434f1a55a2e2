/**
 The monitoring service and the request collector as objects that share one database. Every
 method is proved to change the tables as the functions of MonitoringModel say.
 */
module MonitoringService {
  import opened Common
  import opened ChainLog
  import opened MonitoringModel
  import MonitoringOrigins
  import Sync

  lemma {:induction false} StillWaitingTwice(waiting: seq<TxHash>, a: set<TxHash>, b: set<TxHash>)
    ensures StillWaiting(StillWaiting(waiting, a), b) == StillWaiting(waiting, a + b)
  {
    if waiting != [] {
      var rest := StillWaiting(waiting[1..], a);
      assert ([waiting[0]] + rest)[1..] == rest;
      assert StillWaiting(waiting, a) == if waiting[0] in a then rest else [waiting[0]] + rest;
      StillWaitingTwice(waiting[1..], a, b);
    }
  }

  /** The SQLite database shared by the monitoring service and the request collector. */
  class Database {
    var networks: map<Address, int>
    var channels: map<ChannelKey, Channel>
    var requests: map<RequestKey, RequestRow>
    var scheduled: set<ScheduledEvent>
    var waiting: seq<TxHash>
    var latestCommittedBlock: int

    constructor (syncStartBlock: int)
      ensures networks == map[] && channels == map[] && requests == map[] && scheduled == {} && waiting == []
      ensures latestCommittedBlock == syncStartBlock
    {
      networks, channels, requests, scheduled, waiting := map[], map[], map[], {}, [];
      latestCommittedBlock := syncStartBlock;
    }

    method UpsertTokenNetwork(network: Address, settleTimeout: int)
      modifies this`networks
      ensures networks == old(networks)[network := settleTimeout]
    {
      networks := networks[network := settleTimeout];
    }

    /** Raises when the foreign key does not name a token network. */
    method UpsertChannel(key: ChannelKey, channel: Channel) returns (outcome: Outcome)
      modifies this`channels
      ensures key.network in networks ==> outcome == Done && channels == old(channels)[key := channel]
      ensures key.network !in networks ==> outcome == Raised(UnknownNetwork(key.network)) && channels == old(channels)
    {
      if key.network !in networks {
        return Raised(UnknownNetwork(key.network));
      }
      channels := channels[key := channel];
      return Done;
    }

    method GetChannel(key: ChannelKey) returns (channel: Option<Channel>)
      ensures channel == if key in channels then Some(channels[key]) else None
    {
      channel := if key in channels then Some(channels[key]) else None;
    }

    method UpsertMonitorRequest(rk: RequestKey, request: MonitorRequest)
      modifies this`requests
      ensures requests == old(requests)[rk := RequestRow(request, true)]
    {
      requests := requests[rk := RequestRow(request, true)];
    }

    method GetMonitorRequest(rk: RequestKey) returns (request: Option<MonitorRequest>)
      ensures request == if rk in requests then Some(requests[rk].request) else None
    {
      request := if rk in requests then Some(requests[rk].request) else None;
    }

    method UpsertScheduledEvent(event: ScheduledEvent)
      modifies this`scheduled
      ensures scheduled == old(scheduled) + {event}
    {
      scheduled := scheduled + {event};
    }

    /** The events due at a time, each once, earliest trigger first. */
    method GetScheduledEvents(maxTrigger: int) returns (rows: seq<ScheduledEvent>)
      ensures forall r :: r in rows <==> r in scheduled && r.trigger <= maxTrigger
      ensures forall i, j :: 0 <= i < j < |rows| ==> rows[i] != rows[j] && rows[i].trigger <= rows[j].trigger
    {
      var due := set r | r in scheduled && r.trigger <= maxTrigger;
      rows := [];
      var rest := due;
      while rest != {}
        invariant rest <= due
        invariant forall r :: r in rows <==> r in due && r !in rest
        invariant forall i, j :: 0 <= i < j < |rows| ==> rows[i] != rows[j] && rows[i].trigger <= rows[j].trigger
        invariant forall r, q :: r in rows && q in rest ==> r.trigger <= q.trigger
        decreases |rest|
      {
        EarliestExists(rest);
        var next :| next in rest && forall r :: r in rest ==> next.trigger <= r.trigger;
        rows := rows + [next];
        rest := rest - {next};
      }
    }

    method RemoveScheduledEvent(event: ScheduledEvent)
      modifies this`scheduled
      ensures scheduled == set r | r in old(scheduled) && !Deletes(event, r)
    {
      scheduled := set r | r in scheduled && !Deletes(event, r);
    }

    method AddWaitingTransaction(hash: TxHash)
      modifies this`waiting
      ensures waiting == old(waiting) + [hash]
    {
      waiting := waiting + [hash];
    }

    method RemoveWaitingTransaction(hash: TxHash)
      modifies this`waiting
      ensures waiting == StillWaiting(old(waiting), {hash})
    {
      waiting := StillWaiting(waiting, {hash});
    }

    method UpdateLatestCommittedBlock(block: int)
      modifies this`latestCommittedBlock
      ensures latestCommittedBlock == block
    {
      latestCommittedBlock := block;
    }

    /** The number of blocks from the closing of the channel to the cursor, if its row has a closing block. */
    method ChannelCloseAge(key: ChannelKey) returns (age: Option<int>)
      ensures age == if key in channels && channels[key].closingBlock.Some?
                     then Some(latestCommittedBlock - channels[key].closingBlock.value) else None
    {
      if key !in channels || channels[key].closingBlock.None? {
        return None;
      }
      return Some(latestCommittedBlock - channels[key].closingBlock.value);
    }
  }

  lemma {:induction false} EarliestExists(events: set<ScheduledEvent>)
    requires events != {}
    ensures exists e :: e in events && forall r :: r in events ==> e.trigger <= r.trigger
    decreases |events|
  {
    var e :| e in events;
    if events != {e} {
      var rest := events - {e};
      assert events == rest + {e};
      EarliestExists(rest);
      var m :| m in rest && forall r :: r in rest ==> m.trigger <= r.trigger;
      var first := if e.trigger <= m.trigger then e else m;
      assert first in events && forall r :: r in events ==> r == e || r in rest;
    }
  }

  /** What the node says about a transaction; a receipt may lack its block number. */
  datatype Receipt = NotFound | Unmined | Mined(block: int)

  predicate IsConfirmed(receipt: Receipt, head: int, requiredConfirmations: int) {
    receipt.Mined? && receipt.block + requiredConfirmations <= head
  }

  function ConfirmedAmong(hashes: seq<TxHash>, receipts: TxHash -> Receipt, head: TxHash -> int, requiredConfirmations: int): set<TxHash> {
    set h | h in hashes && IsConfirmed(receipts(h), head(h), requiredConfirmations)
  }

  lemma NextConfirmed(hashes: seq<TxHash>, i: nat, receipts: TxHash -> Receipt, head: TxHash -> int, requiredConfirmations: int)
    requires i < |hashes|
    ensures ConfirmedAmong(hashes[..i + 1], receipts, head, requiredConfirmations)
            == ConfirmedAmong(hashes[..i], receipts, head, requiredConfirmations)
               + if IsConfirmed(receipts(hashes[i]), head(hashes[i]), requiredConfirmations) then {hashes[i]} else {}
  {
    assert hashes[..i + 1] == hashes[..i] + [hashes[i]];
  }

  /** A transaction goes on waiting until its block is known and lies the required number of blocks below the head. */
  lemma WaitsUntilConfirmed(waiting: seq<TxHash>, receipts: TxHash -> Receipt, head: TxHash -> int, requiredConfirmations: int, h: TxHash)
    ensures h in StillWaiting(waiting, ConfirmedAmong(waiting, receipts, head, requiredConfirmations)) <==>
      h in waiting && match receipts(h)
                      case Mined(block) => head(h) - block < requiredConfirmations
                      case _ => true
  {
    MonitoringOrigins.StillWaitingExactly(waiting, ConfirmedAmong(waiting, receipts, head, requiredConfirmations));
  }

  class Service {
    const config: Config
    const database: Database
    const blockchainState: Sync.BlockchainState
    var tryScheduledEventsAfter: int
    var sent: seq<Call>
    var errors: seq<Fault>

    constructor (config: Config, database: Database, now: int)
      ensures this.config == config && this.database == database
      ensures Valid() && tryScheduledEventsAfter == now && sent == [] && errors == []
    {
      this.config, this.database := config, database;
      blockchainState := new Sync.BlockchainState(database.latestCommittedBlock, true);
      tryScheduledEventsAfter, sent, errors := now, [], [];
    }

    /** The cursor in memory and the one in the database agree. */
    ghost predicate Valid()
      reads database, blockchainState
    {
      blockchainState.hasMonitorContract && blockchainState.latestCommittedBlock == database.latestCommittedBlock
    }

    ghost function Model(): State
      reads this, database
    {
      State(database.networks, database.channels, database.requests, database.scheduled, database.waiting,
            database.latestCommittedBlock, tryScheduledEventsAfter, sent, errors)
    }

    // -------------------------------------------------------------- handlers of chain events

    method TokenNetworkCreated(e: Event) returns (outcome: Outcome)
      requires Valid() && e.NetworkCreated?
      modifies database
      ensures Valid() && Handled(Model(), outcome) == Handled(old(Model()).(networks := old(Model()).networks[e.network := e.settleTimeout]), Done)
    {
      database.UpsertTokenNetwork(e.network, e.settleTimeout);
      return Done;
    }

    method ChannelOpened(e: Event) returns (outcome: Outcome)
      requires Valid() && e.ChannelOpened?
      modifies database
      ensures Valid()
      ensures Handled(Model(), outcome) == UpsertChannel(old(Model()), e.key, FreshChannel(e.participant1, e.participant2))
    {
      outcome := database.UpsertChannel(e.key, FreshChannel(e.participant1, e.participant2));
    }

    method ChannelClosed(e: Event, w: World) returns (outcome: Outcome)
      requires Valid() && e.ChannelClosed?
      modifies database
      ensures Valid() && Handled(Model(), outcome) == HandleClosed(old(Model()), e, w)
    {
      var found := database.GetChannel(e.key);
      if found.None? {
        return Done;
      }
      var channel := found.value;
      if e.key.network !in database.networks {
        return Raised(UnknownNetwork(e.key.network));
      }
      var settleableAfter := w.closingTime + database.networks[e.key.network];
      var updateBalanceProofPeriodIsOver := settleableAfter < w.now;
      if !updateBalanceProofPeriodIsOver {
        var nonClosing := channel.participant1;
        if channel.participant1 == e.closingParticipant {
          nonClosing := channel.participant2;
        }
        database.UpsertScheduledEvent(ScheduledEvent(w.firstAllowed, TriggerMonitoring(e.key, nonClosing)));
      }
      channel := channel.(state := Closed);
      channel := channel.(closingBlock := StoredBlock(e.block));
      channel := channel.(closingParticipant := Some(e.closingParticipant));
      outcome := database.UpsertChannel(e.key, channel);
    }

    method NonClosingBalanceProofUpdated(e: Event) returns (outcome: Outcome)
      requires Valid() && e.BalanceProofUpdated?
      modifies database
      ensures Valid() && Handled(Model(), outcome) == HandleUpdated(old(Model()), e)
    {
      var found := database.GetChannel(e.key);
      if found.None? {
        return Done;
      }
      var channel := found.value;
      if e.closingParticipant !in [channel.participant1, channel.participant2] {
        return Done;
      }
      var nonClosing := if e.closingParticipant == channel.participant2 then channel.participant1 else channel.participant2;
      if channel.updateStatus.None? {
        channel := channel.(updateStatus := Some(UpdateStatus(nonClosing, e.nonce)));
      } else {
        if e.nonce <= channel.updateStatus.value.nonce {
          return Done;
        }
        channel := channel.(updateStatus := Some(channel.updateStatus.value.(nonce := e.nonce)));
        channel := channel.(updateStatus := Some(channel.updateStatus.value.(sender := nonClosing)));
      }
      outcome := database.UpsertChannel(e.key, channel);
    }

    method ChannelSettled(e: Event) returns (outcome: Outcome)
      requires Valid() && e.ChannelSettled?
      modifies database
      ensures Valid() && Handled(Model(), outcome) == HandleSettled(old(Model()), e)
    {
      var found := database.GetChannel(e.key);
      if found.None? {
        return Done;
      }
      outcome := database.UpsertChannel(e.key, found.value.(state := Settled));
    }

    method MonitorNewBalanceProof(e: Event, w: World) returns (outcome: Outcome)
      requires Valid() && e.NewBalanceProof?
      modifies database
      ensures Valid() && Handled(Model(), outcome) == HandleNewBalanceProof(config, old(Model()), e, w)
    {
      var found := database.GetChannel(e.key);
      if found.None? {
        return Done;
      }
      var channel := found.value;
      if channel.updateStatus.None? {
        channel := channel.(updateStatus := Some(UpdateStatus(e.msAddress, e.nonce)));
      } else {
        if e.nonce < channel.updateStatus.value.nonce {
          return Done;
        }
        channel := channel.(updateStatus := Some(channel.updateStatus.value.(nonce := e.nonce)));
        channel := channel.(updateStatus := Some(channel.updateStatus.value.(sender := e.msAddress)));
      }
      outcome := database.UpsertChannel(e.key, channel);
      if outcome.Raised? {
        return;
      }
      if e.msAddress == config.address {
        if channel.closingBlock.None? {
          return Raised(ClosingBlockNotSet(e.key));
        }
        var settleableAfter := w.closingTime + database.networks[e.key.network];
        database.UpsertScheduledEvent(ScheduledEvent(settleableAfter, TriggerClaim(e.key, e.raidenNode)));
      }
    }

    method UpdatedHeadBlock(e: Event) returns (outcome: Outcome)
      requires Valid() && e.HeadBlock?
      modifies blockchainState`latestCommittedBlock, database
      ensures Valid() && Handled(Model(), outcome) == Handled(old(Model()).(committed := e.block), Done)
    {
      blockchainState.latestCommittedBlock := e.block;
      database.UpdateLatestCommittedBlock(e.block);
      return Done;
    }

    // -------------------------------------------------------------- handlers of scheduled actions

    method ActionMonitoringTriggered(a: Action, w: World) returns (outcome: Outcome)
      requires Valid() && a.TriggerMonitoring?
      modifies this`sent, database
      ensures Valid() && Handled(Model(), outcome) == HandleMonitoring(config, old(Model()), a, w)
    {
      var foundRequest := database.GetMonitorRequest(RequestKey(a.key, a.nonClosing));
      if foundRequest.None? {
        return Done;
      }
      var request := foundRequest.value;
      var found := database.GetChannel(a.key);
      if found.None? {
        return Done;
      }
      var channel := found.value;
      if !RequestIsValid(request, a.nonClosing, channel) {
        return Done;
      }
      var lastOnchainNonce := 0;
      if channel.updateStatus.Some? {
        lastOnchainNonce := channel.updateStatus.value.nonce;
      }
      if request.nonce <= lastOnchainNonce {
        return Done;
      }
      if request.rewardAmount < config.minReward {
        return Done;
      }
      if 10 * w.deposit < 11 * request.rewardAmount {
        database.UpsertScheduledEvent(ScheduledEvent(w.now, a));
        return Done;
      }
      if channel.monitorTx.Some? {
        return Raised(AlreadyMonitored(a.key));
      }
      match w.tx
      case NotYetAllowed => return TooEarly;
      case Refused => return Done;
      case Sent(hash) =>
        sent := sent + [MonitorCall(a.key, a.nonClosing, request.nonce)];
        database.AddWaitingTransaction(hash);
        channel := channel.(monitorTx := Some(hash));
        outcome := database.UpsertChannel(a.key, channel);
    }

    method ActionClaimRewardTriggered(a: Action, w: World) returns (outcome: Outcome)
      requires Valid() && a.TriggerClaim?
      modifies this`sent, database
      ensures Valid() && Handled(Model(), outcome) == HandleClaim(config, old(Model()), a, w)
    {
      var foundRequest := database.GetMonitorRequest(RequestKey(a.key, a.nonClosing));
      if foundRequest.None? {
        return Done;
      }
      var request := foundRequest.value;
      var found := database.GetChannel(a.key);
      if found.None? {
        return Done;
      }
      var channel := found.value;
      var canClaim := channel.claimTx.None?
                      && channel.updateStatus.Some? && channel.updateStatus.value.sender == config.address;
      var hasReward := request.rewardAmount > 0;
      outcome := Done;
      if canClaim && hasReward {
        match w.tx
        case NotYetAllowed => return TooEarly;
        case Refused =>
        case Sent(hash) =>
          sent := sent + [ClaimCall(a.key, a.nonClosing)];
          database.AddWaitingTransaction(hash);
          channel := channel.(claimTx := Some(hash));
          outcome := database.UpsertChannel(a.key, channel);
      }
    }

    // -------------------------------------------------------------- the service loop

    /** Dispatches a chain event; exceptions are logged and the event is not retried. */
    method HandleEvent(e: Event, w: World)
      requires Valid()
      modifies this, database, blockchainState`latestCommittedBlock
      ensures Valid() && Model() == Logged(HandleChainEvent(config, old(Model()), e, w))
    {
      var outcome := Done;
      match e {
        case NetworkCreated(_, _, _) => outcome := TokenNetworkCreated(e);
        case ChannelOpened(_, _, _, _) => outcome := ChannelOpened(e);
        case ChannelClosed(_, _, _) => outcome := ChannelClosed(e, w);
        case BalanceProofUpdated(_, _, _, _) => outcome := NonClosingBalanceProofUpdated(e);
        case ChannelSettled(_, _) => outcome := ChannelSettled(e);
        case NewBalanceProof(_, _, _, _, _) => outcome := MonitorNewBalanceProof(e, w);
        case HeadBlock(_) => outcome := UpdatedHeadBlock(e);
        case RewardClaimed(_, _) =>
        case UnhandledEntry(_, _) =>
      }
      if outcome.Raised? {
        errors := errors + [outcome.fault];
      }
    }

    /** Dispatches a scheduled action; "too early" is passed on to the scheduler. */
    method HandleScheduled(a: Action, w: World) returns (tooEarly: bool)
      requires Valid()
      modifies this, database
      ensures Valid() && Model() == Logged(HandleAction(config, old(Model()), a, w))
      ensures tooEarly == HandleAction(config, old(Model()), a, w).outcome.TooEarly?
    {
      var outcome;
      if a.TriggerMonitoring? {
        outcome := ActionMonitoringTriggered(a, w);
      } else {
        outcome := ActionClaimRewardTriggered(a, w);
      }
      if outcome.Raised? {
        errors := errors + [outcome.fault];
      }
      tooEarly := outcome.TooEarly?;
    }

    /** The end of the block range that the next query asks for. */
    ghost function NextRangeEnd(query: Sync.Query): int
      reads blockchainState
    {
      Sync.RangeEnd(blockchainState.Model(), query.head)
    }

    /** Queries the next block range and, if the node answers in time, handles its events. */
    method ProcessNewBlocks(log: seq<Event>, query: Sync.Query, worlds: seq<World>)
      requires Valid() && |NextEvents(log, Model(), NextRangeEnd(query))| <= |worlds|
      modifies this, database, blockchainState
      ensures Valid()
      ensures blockchainState.currentEventFilterInterval
              == Sync.NextInterval(old(blockchainState.currentEventFilterInterval), query.speed)
      ensures Model() == if query.speed.TimedOut? then old(Model())
              else HandleEvents(config, old(Model()), NextEvents(log, old(Model()), old(NextRangeEnd(query))), worlds)
    {
      ghost var before, to := Model(), NextRangeEnd(query);
      var addresses := SequenceOf(database.networks.Keys);
      var answer := blockchainState.GetBlockchainEventsAdaptive(log, addresses, query);
      if answer.None? {
        return;
      }
      var events := answer.value;
      assert events == NextEvents(log, before, to);
      for i := 0 to |events|
        invariant Valid()
        invariant blockchainState.currentEventFilterInterval
                  == Sync.NextInterval(old(blockchainState.currentEventFilterInterval), query.speed)
        invariant HandleEvents(config, Model(), events[i..], worlds[i..]) == HandleEvents(config, before, events, worlds)
      {
        assert events[i..][1..] == events[i + 1..] && worlds[i..][1..] == worlds[i + 1..];
        HandleEvent(events[i], worlds[i]);
      }
    }

    /** Handles the due events until one of them is too early; clock tells what each handler run reads. */
    method TriggerScheduledEvents(now: int, clock: nat -> World) returns (ghost rows: seq<ScheduledEvent>)
      requires Valid()
      modifies this, database
      ensures Valid() && (now < old(tryScheduledEventsAfter) ==> Model() == old(Model()))
      ensures now >= old(tryScheduledEventsAfter) ==>
        && IsDueList(old(Model()), now, rows) && AreFirstDue(old(Model()), now, rows)
        && Model() == Pass(config, old(Model()), rows, Readings(clock, |rows|))
    {
      if now < tryScheduledEventsAfter {
        return [];
      }
      var due := database.GetScheduledEvents(now);
      rows := due;
      HandleDueEvents(due, clock);
    }

    /** When the event with the lowest trigger is too early, all others would be, too. */
    method HandleDueEvents(due: seq<ScheduledEvent>, clock: nat -> World)
      requires Valid()
      modifies this, database
      ensures Valid() && Model() == Pass(config, old(Model()), due, Readings(clock, |due|))
    {
      ghost var worlds := Readings(clock, |due|);
      for i := 0 to |due|
        invariant Valid()
        invariant Pass(config, Model(), due[i..], worlds[i..]) == Pass(config, old(Model()), due, worlds)
      {
        NextRow(config, Model(), due, worlds, i);
        var tooEarly := HandleScheduled(due[i].action, clock(i));
        if tooEarly {
          tryScheduledEventsAfter := clock(i).now + MAX_SCHEDULED_EVENTS_RETRY_FREQUENCY;
          return;
        }
        database.RemoveScheduledEvent(due[i]);
      }
    }

    /** Forgets the transactions that were mined and confirmed; head is the block number read after each receipt. */
    method CheckPendingTransactions(receipts: TxHash -> Receipt, head: TxHash -> int, requiredConfirmations: int)
      requires Valid()
      modifies database
      ensures Valid() && Model() == old(Model()).(
                waiting := StillWaiting(old(Model()).waiting,
                                        ConfirmedAmong(old(Model()).waiting, receipts, head, requiredConfirmations)))
    {
      var hashes := database.waiting;
      ghost var removed: set<TxHash> := {};
      NothingRemoved(hashes);
      for i := 0 to |hashes|
        invariant Valid() && Model() == old(Model()).(waiting := StillWaiting(hashes, removed))
        invariant removed == ConfirmedAmong(hashes[..i], receipts, head, requiredConfirmations)
      {
        NextConfirmed(hashes, i, receipts, head, requiredConfirmations);
        var receipt := receipts(hashes[i]);
        if receipt.Mined? && receipt.block + requiredConfirmations <= head(hashes[i]) {
          StillWaitingTwice(hashes, removed, {hashes[i]});
          database.RemoveWaitingTransaction(hashes[i]);
          removed := removed + {hashes[i]};
        }
      }
      assert hashes[..|hashes|] == hashes;
    }

    /** Requests with a channel stop waiting, then the aged ones that still wait are deleted. */
    method PurgeOldMonitorRequests(aged: set<RequestKey>)
      requires Valid()
      modifies database
      ensures Valid() && Model() == Purged(old(Model()), aged)
    {
      database.requests := map rk | rk in database.requests ::
        database.requests[rk].(waitingForChannel := database.requests[rk].waitingForChannel && rk.key !in database.channels);
      database.requests := map rk | rk in database.requests && !(database.requests[rk].waitingForChannel && rk in aged) ::
        database.requests[rk];
    }
  }

  lemma NextRow(cfg: Config, s: State, rows: seq<ScheduledEvent>, worlds: seq<World>, i: nat)
    requires i < |rows| <= |worlds|
    ensures var h := HandleAction(cfg, s, rows[i].action, worlds[i]);
            Pass(cfg, s, rows[i..], worlds[i..])
            == if h.outcome.TooEarly? then h.state.(barrier := worlds[i].now + MAX_SCHEDULED_EVENTS_RETRY_FREQUENCY)
               else Pass(cfg, RemoveScheduled(Logged(h), rows[i]), rows[i + 1..], worlds[i + 1..])
  {
    assert rows[i..][1..] == rows[i + 1..] && worlds[i..][1..] == worlds[i + 1..];
  }

  /** What the first n handler runs of a pass read. */
  function Readings(clock: nat -> World, n: nat): (worlds: seq<World>)
    ensures |worlds| == n && forall i :: 0 <= i < n ==> worlds[i] == clock(i)
  {
    seq(n, i requires 0 <= i < n => clock(i))
  }

  lemma {:induction false} NothingRemoved(hashes: seq<TxHash>)
    ensures StillWaiting(hashes, {}) == hashes
  {
    if hashes != [] {
      NothingRemoved(hashes[1..]);
    }
  }

  /** The addresses of the token network table, in some order. */
  function SequenceOf(addresses: set<Address>): (s: seq<Address>)
    ensures Sync.Distinct(s) == addresses
  {
    if addresses == {} then []
    else
      var least := Least(addresses);
      var rest := SequenceOf(addresses - {least});
      assert forall a :: a in [least] + rest <==> a == least || a in rest;
      assert forall a :: a in rest <==> a in Sync.Distinct(rest);
      [least] + rest
  }

  function Least(addresses: set<Address>): (least: Address)
    requires addresses != {}
    ensures least in addresses && forall a :: a in addresses ==> least <= a
  {
    LeastExists(addresses);
    var least :| least in addresses && forall a :: a in addresses ==> least <= a;
    least
  }

  lemma {:induction false} LeastExists(addresses: set<Address>)
    requires addresses != {}
    ensures exists least :: least in addresses && forall a :: a in addresses ==> least <= a
    decreases |addresses|
  {
    var a :| a in addresses;
    var rest := addresses - {a};
    if rest == {} {
      assert addresses == {a};
    } else {
      LeastExists(rest);
      var b :| b in rest && forall x :: x in rest ==> b <= x;
      var least := Min(a, b);
      assert least in addresses;
      forall x | x in addresses
        ensures least <= x
      {
        assert x == a || x in rest;
      }
    }
  }

  /** The second writer of the monitor request table. */
  class RequestCollector {
    const chainId: int
    const database: Database

    constructor (chainId: int, database: Database)
      ensures this.chainId == chainId && this.database == database
    {
      this.chainId, this.database := chainId, database;
    }

    /** Stores the request unless one of the guards turns it down. */
    method OnMonitorRequest(m: Message, ghost service: Service)
      requires service.database == database && service.config.chainId == chainId && service.Valid()
      modifies database`requests
      ensures service.Model() == Collected(service.config, old(service.Model()), m)
    {
      if !m.wellFormed {
        return;
      }
      if m.chainId != chainId {
        return;
      }
      if m.nonClosingSigner != m.nonClosingParticipant {
        return;
      }
      if m.nonClosingSigner != m.rewardProofSigner {
        return;
      }
      var closeAge := database.ChannelCloseAge(m.key);
      if closeAge.Some? && closeAge.value >= CHANNEL_CLOSE_MARGIN {
        return;
      }
      var rk := RequestKey(m.key, m.nonClosingSigner);
      var known := database.GetMonitorRequest(rk);
      if known.Some? && known.value.nonce >= m.request.nonce {
        return;
      }
      database.UpsertMonitorRequest(rk, m.request);
    }
  }
}
