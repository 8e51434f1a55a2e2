/**
 The tables of the monitoring service as one value, and what every handler makes of it.
 The classes in MonitoringService are proved against these functions.
 */
module MonitoringModel {
  import opened Common
  import opened ChainLog

  const MAX_SCHEDULED_EVENTS_RETRY_FREQUENCY := 10
  const CHANNEL_CLOSE_MARGIN := 10

  type TxHash = nat

  datatype ChannelState = Opened | Closed | Settled

  datatype UpdateStatus = UpdateStatus(sender: Address, nonce: int)

  datatype Channel = Channel(
    participant1: Address,
    participant2: Address,
    state: ChannelState,
    closingBlock: Option<int>,
    closingParticipant: Option<Address>,
    monitorTx: Option<TxHash>,
    claimTx: Option<TxHash>,
    updateStatus: Option<UpdateStatus>)

  /** The primary key of a monitor request: its channel and the recovered non-closing signer. */
  datatype RequestKey = RequestKey(key: ChannelKey, nonClosingSigner: Address)

  /** The rest of a monitor request; the signer is the one recovered from the closing signature. */
  datatype MonitorRequest = MonitorRequest(nonce: int, signer: Address, rewardAmount: int)

  datatype RequestRow = RequestRow(request: MonitorRequest, waitingForChannel: bool)

  datatype Action =
    | TriggerMonitoring(key: ChannelKey, nonClosing: Address)
    | TriggerClaim(key: ChannelKey, nonClosing: Address)

  datatype ScheduledEvent = ScheduledEvent(trigger: int, action: Action)

  /** Transactions handed to the node. */
  datatype Call =
    | MonitorCall(key: ChannelKey, nonClosing: Address, nonce: int)
    | ClaimCall(key: ChannelKey, nonClosing: Address)

  /** Exceptions that a handler raises and handle_event logs. */
  datatype Fault =
    | UnknownNetwork(network: Address)
    | ClosingBlockNotSet(key: ChannelKey)
    | AlreadyMonitored(key: ChannelKey)

  datatype State = State(
    networks: map<Address, int>,
    channels: map<ChannelKey, Channel>,
    requests: map<RequestKey, RequestRow>,
    scheduled: set<ScheduledEvent>,
    waiting: seq<TxHash>,
    committed: int,
    barrier: int,
    sent: seq<Call>,
    faults: seq<Fault>)

  datatype Config = Config(address: Address, minReward: int, chainId: int)

  datatype TxResult = Sent(hash: TxHash) | NotYetAllowed | Refused

  /** What one handler run reads from the clock and from the node. */
  datatype World = World(now: int, closingTime: int, firstAllowed: int, deposit: int, tx: TxResult)

  datatype Outcome = Done | TooEarly | Raised(fault: Fault)

  datatype Handled = Handled(state: State, outcome: Outcome)

  /** A block number as the channel table keeps it: block 0 reads back as no block. */
  function StoredBlock(block: int): Option<int> {
    if block == 0 then None else Some(block)
  }

  function FreshChannel(participant1: Address, participant2: Address): Channel {
    Channel(participant1, participant2, Opened, None, None, None, None, None)
  }

  /** Insert-or-replace on the channel table, whose rows reference a token network. */
  function UpsertChannel(s: State, key: ChannelKey, channel: Channel): Handled {
    if key.network in s.networks then Handled(s.(channels := s.channels[key := channel]), Done)
    else Handled(s, Raised(UnknownNetwork(key.network)))
  }

  // ---------------------------------------------------------------- chain events

  function HandleClosed(s: State, e: Event, w: World): Handled
    requires e.ChannelClosed?
  {
    if e.key !in s.channels then Handled(s, Done)
    else if e.key.network !in s.networks then Handled(s, Raised(UnknownNetwork(e.key.network)))
    else
      var channel := s.channels[e.key];
      var periodIsOver := w.closingTime + s.networks[e.key.network] < w.now;
      var nonClosing := if channel.participant1 == e.closingParticipant then channel.participant2 else channel.participant1;
      var s1 :=
        if periodIsOver then s
        else s.(scheduled := s.scheduled + {ScheduledEvent(w.firstAllowed, TriggerMonitoring(e.key, nonClosing))});
      UpsertChannel(s1, e.key, channel.(
                    state := Closed,
                    closingBlock := StoredBlock(e.block),
                    closingParticipant := Some(e.closingParticipant)))
  }

  function HandleUpdated(s: State, e: Event): Handled
    requires e.BalanceProofUpdated?
  {
    if e.key !in s.channels then Handled(s, Done)
    else
      var channel := s.channels[e.key];
      if e.closingParticipant != channel.participant1 && e.closingParticipant != channel.participant2 then
        Handled(s, Done)
      else
        var nonClosing := if e.closingParticipant == channel.participant2 then channel.participant1 else channel.participant2;
        if channel.updateStatus.Some? && e.nonce <= channel.updateStatus.value.nonce then Handled(s, Done)
        else UpsertChannel(s, e.key, channel.(updateStatus := Some(UpdateStatus(nonClosing, e.nonce))))
  }

  function HandleSettled(s: State, e: Event): Handled
    requires e.ChannelSettled?
  {
    if e.key !in s.channels then Handled(s, Done)
    else UpsertChannel(s, e.key, s.channels[e.key].(state := Settled))
  }

  function HandleNewBalanceProof(cfg: Config, s: State, e: Event, w: World): Handled
    requires e.NewBalanceProof?
  {
    if e.key !in s.channels then Handled(s, Done)
    else
      var channel := s.channels[e.key];
      if channel.updateStatus.Some? && e.nonce < channel.updateStatus.value.nonce then Handled(s, Done)
      else
        var h := UpsertChannel(s, e.key, channel.(updateStatus := Some(UpdateStatus(e.msAddress, e.nonce))));
        if h.outcome.Raised? || e.msAddress != cfg.address then h
        else if channel.closingBlock.None? then Handled(h.state, Raised(ClosingBlockNotSet(e.key)))
        else
          var trigger := w.closingTime + s.networks[e.key.network];
          Handled(h.state.(scheduled := h.state.scheduled + {ScheduledEvent(trigger, TriggerClaim(e.key, e.raidenNode))}),
                  Done)
  }

  function HandleChainEvent(cfg: Config, s: State, e: Event, w: World): Handled {
    match e
    case NetworkCreated(network, settleTimeout, _) =>
      Handled(s.(networks := s.networks[network := settleTimeout]), Done)
    case ChannelOpened(key, participant1, participant2, _) =>
      UpsertChannel(s, key, FreshChannel(participant1, participant2))
    case ChannelClosed(_, _, _) => HandleClosed(s, e, w)
    case BalanceProofUpdated(_, _, _, _) => HandleUpdated(s, e)
    case ChannelSettled(_, _) => HandleSettled(s, e)
    case NewBalanceProof(_, _, _, _, _) => HandleNewBalanceProof(cfg, s, e, w)
    case RewardClaimed(_, _) => Handled(s, Done)
    case UnhandledEntry(_, _) => Handled(s, Done)
    case HeadBlock(block) => Handled(s.(committed := block), Done)
  }

  // ---------------------------------------------------------------- scheduled actions

  predicate RequestIsValid(request: MonitorRequest, nonClosingSigner: Address, channel: Channel) {
    && (request.signer == channel.participant1 || request.signer == channel.participant2)
    && (nonClosingSigner == channel.participant1 || nonClosingSigner == channel.participant2)
    && request.signer != nonClosingSigner
  }

  function LastOnChainNonce(channel: Channel): int {
    if channel.updateStatus.Some? then channel.updateStatus.value.nonce else 0
  }

  function HandleMonitoring(cfg: Config, s: State, a: Action, w: World): Handled
    requires a.TriggerMonitoring?
  {
    var rk := RequestKey(a.key, a.nonClosing);
    if rk !in s.requests then Handled(s, Done)
    else
      var request := s.requests[rk].request;
      if a.key !in s.channels then Handled(s, Done)
      else
        var channel := s.channels[a.key];
        if !RequestIsValid(request, a.nonClosing, channel) then Handled(s, Done)
        else if request.nonce <= LastOnChainNonce(channel) then Handled(s, Done)
        else if request.rewardAmount < cfg.minReward then Handled(s, Done)
        else if 10 * w.deposit < 11 * request.rewardAmount then
          Handled(s.(scheduled := s.scheduled + {ScheduledEvent(w.now, a)}), Done)
        else if channel.monitorTx.Some? then Handled(s, Raised(AlreadyMonitored(a.key)))
        else match w.tx
          case NotYetAllowed => Handled(s, TooEarly)
          case Refused => Handled(s, Done)
          case Sent(hash) =>
            var s1 := s.(sent := s.sent + [MonitorCall(a.key, a.nonClosing, request.nonce)],
                         waiting := s.waiting + [hash]);
            UpsertChannel(s1, a.key, channel.(monitorTx := Some(hash)))
  }

  function HandleClaim(cfg: Config, s: State, a: Action, w: World): Handled
    requires a.TriggerClaim?
  {
    var rk := RequestKey(a.key, a.nonClosing);
    if rk !in s.requests then Handled(s, Done)
    else
      var request := s.requests[rk].request;
      if a.key !in s.channels then Handled(s, Done)
      else
        var channel := s.channels[a.key];
        var canClaim := channel.claimTx.None?
                        && channel.updateStatus.Some? && channel.updateStatus.value.sender == cfg.address;
        if !canClaim || request.rewardAmount <= 0 then Handled(s, Done)
        else match w.tx
          case NotYetAllowed => Handled(s, TooEarly)
          case Refused => Handled(s, Done)
          case Sent(hash) =>
            var s1 := s.(sent := s.sent + [ClaimCall(a.key, a.nonClosing)],
                         waiting := s.waiting + [hash]);
            UpsertChannel(s1, a.key, channel.(claimTx := Some(hash)))
  }

  function HandleAction(cfg: Config, s: State, a: Action, w: World): Handled {
    if a.TriggerMonitoring? then HandleMonitoring(cfg, s, a, w) else HandleClaim(cfg, s, a, w)
  }

  // ---------------------------------------------------------------- the service loop

  /** handle_event logs every exception except the one that says "too early". */
  function Logged(h: Handled): State {
    if h.outcome.Raised? then h.state.(faults := h.state.faults + [h.outcome.fault]) else h.state
  }

  function HandleEvents(cfg: Config, s: State, events: seq<Event>, worlds: seq<World>): State
    requires |events| <= |worlds|
    decreases |events|
  {
    if events == [] then s
    else HandleEvents(cfg, Logged(HandleChainEvent(cfg, s, events[0], worlds[0])), events[1..], worlds[1..])
  }

  /** The DELETE names the trigger, the channel and the participant, but not the type of the event. */
  predicate Deletes(row: ScheduledEvent, other: ScheduledEvent) {
    other.trigger == row.trigger && other.action.key == row.action.key && other.action.nonClosing == row.action.nonClosing
  }

  function RemoveScheduled(s: State, row: ScheduledEvent): State {
    s.(scheduled := set r | r in s.scheduled && !Deletes(row, r))
  }

  /** Handles the rows of one scheduler pass in order, until one of them is too early. */
  function Pass(cfg: Config, s: State, rows: seq<ScheduledEvent>, worlds: seq<World>): State
    requires |rows| <= |worlds|
    decreases |rows|
  {
    if rows == [] then s
    else
      var h := HandleAction(cfg, s, rows[0].action, worlds[0]);
      if h.outcome.TooEarly? then h.state.(barrier := worlds[0].now + MAX_SCHEDULED_EVENTS_RETRY_FREQUENCY)
      else Pass(cfg, RemoveScheduled(Logged(h), rows[0]), rows[1..], worlds[1..])
  }

  /** rows lists the due events once each, earliest trigger first. */
  ghost predicate IsDueList(s: State, now: int, rows: seq<ScheduledEvent>) {
    && (forall r :: r in rows <==> r in s.scheduled && r.trigger <= now)
    && (forall i, j :: 0 <= i < j < |rows| ==> rows[i] != rows[j] && rows[i].trigger <= rows[j].trigger)
  }

  /** rows are the first ones of such a list: a pass handles all due events, or the service stops after some of them. */
  ghost predicate AreFirstDue(s: State, now: int, rows: seq<ScheduledEvent>) {
    && (forall r :: r in rows ==> r in s.scheduled && r.trigger <= now)
    && (forall i, j :: 0 <= i < j < |rows| ==> rows[i] != rows[j] && rows[i].trigger <= rows[j].trigger)
    && (forall r, q :: r in rows && q in s.scheduled && q.trigger <= now && q !in rows ==> r.trigger <= q.trigger)
  }

  /**
   A pass that is stopped after its last row was handled, and before that row is deleted: handling and
   deleting are separate statements of the service loop.
   */
  function StoppedPass(cfg: Config, s: State, rows: seq<ScheduledEvent>, worlds: seq<World>): State
    requires rows != [] && |rows| <= |worlds|
    decreases |rows|
  {
    var h := HandleAction(cfg, s, rows[0].action, worlds[0]);
    if |rows| == 1 then Logged(h)
    else if h.outcome.TooEarly? then h.state.(barrier := worlds[0].now + MAX_SCHEDULED_EVENTS_RETRY_FREQUENCY)
    else StoppedPass(cfg, RemoveScheduled(Logged(h), rows[0]), rows[1..], worlds[1..])
  }

  function StillWaiting(waiting: seq<TxHash>, mined: set<TxHash>): seq<TxHash> {
    if waiting == [] then []
    else (if waiting[0] in mined then [] else [waiting[0]]) + StillWaiting(waiting[1..], mined)
  }

  /** Rows with a channel stop waiting; of the others, those that count as aged are deleted. */
  function Purged(s: State, aged: set<RequestKey>): State {
    s.(requests :=
       map rk | rk in s.requests && !(s.requests[rk].waitingForChannel && rk.key !in s.channels && rk in aged) ::
         s.requests[rk].(waitingForChannel := s.requests[rk].waitingForChannel && rk.key !in s.channels))
  }

  // ---------------------------------------------------------------- the request collector

  /** A RequestMonitoring message with the addresses recovered from its three signatures, if they are well formed. */
  datatype Message = Message(
    key: ChannelKey,
    nonClosingSigner: Address,
    request: MonitorRequest,
    wellFormed: bool,
    chainId: int,
    nonClosingParticipant: Address,
    rewardProofSigner: Address)

  function CloseAge(s: State, key: ChannelKey): Option<int> {
    if key in s.channels && s.channels[key].closingBlock.Some?
    then Some(s.committed - s.channels[key].closingBlock.value)
    else None
  }

  predicate Admitted(cfg: Config, s: State, m: Message) {
    var rk := RequestKey(m.key, m.nonClosingSigner);
    var age := CloseAge(s, m.key);
    && m.wellFormed
    && m.chainId == cfg.chainId
    && m.nonClosingSigner == m.nonClosingParticipant
    && m.nonClosingSigner == m.rewardProofSigner
    && !(age.Some? && age.value >= CHANNEL_CLOSE_MARGIN)
    && !(rk in s.requests && s.requests[rk].request.nonce >= m.request.nonce)
  }

  function Collected(cfg: Config, s: State, m: Message): State {
    if Admitted(cfg, s, m)
    then s.(requests := s.requests[RequestKey(m.key, m.nonClosingSigner) := RequestRow(m.request, true)])
    else s
  }

  // ---------------------------------------------------------------- runs

  datatype Step =
    | Sync(to: int, count: nat, worlds: seq<World>)  // handle the first count events of the next block range
    | Tick(now: int, rows: seq<ScheduledEvent>, worlds: seq<World>)         // the due rows, or the first of them
    | StoppedTick(now: int, rows: seq<ScheduledEvent>, worlds: seq<World>)  // the last row is handled, but not deleted
    | Confirm(mined: set<TxHash>)
    | Purge(aged: set<RequestKey>)
    | Collect(message: Message)
    | Restart(now: int)

  function NextEvents(log: seq<Event>, s: State, to: int): seq<Event> {
    Chunk(log, s.networks.Keys, s.committed + 1, to)
  }

  ghost predicate Enabled(log: seq<Event>, s: State, step: Step) {
    match step
    case Sync(to, count, worlds) => count <= |NextEvents(log, s, to)| && count <= |worlds|
    case Tick(now, rows, worlds) => AreFirstDue(s, now, rows) && |rows| <= |worlds|
    case StoppedTick(now, rows, worlds) => AreFirstDue(s, now, rows) && rows != [] && |rows| <= |worlds|
    case _ => true
  }

  function Exec(cfg: Config, log: seq<Event>, s: State, step: Step): State
    requires Enabled(log, s, step)
  {
    match step
    case Sync(to, count, worlds) => HandleEvents(cfg, s, NextEvents(log, s, to)[..count], worlds)
    case Tick(now, rows, worlds) => if now < s.barrier then s else Pass(cfg, s, rows, worlds)
    case StoppedTick(now, rows, worlds) => if now < s.barrier then s else StoppedPass(cfg, s, rows, worlds)
    case Confirm(mined) => s.(waiting := StillWaiting(s.waiting, mined))
    case Purge(aged) => Purged(s, aged)
    case Collect(message) => Collected(cfg, s, message)
    case Restart(now) => s.(barrier := now)
  }

  /** trace is a run of the service: each state but the first follows by the step at the same position. */
  ghost predicate IsRun(cfg: Config, log: seq<Event>, steps: seq<Step>, trace: seq<State>) {
    && |trace| == |steps| + 1
    && forall i {:trigger steps[i]} :: 0 <= i < |steps| ==>
         Enabled(log, trace[i], steps[i]) && trace[i + 1] == Exec(cfg, log, trace[i], steps[i])
  }

  /** The service stopped in the middle of handling a block range. */
  ghost predicate Interrupted(log: seq<Event>, s: State, step: Step) {
    step.Sync? && step.count < |NextEvents(log, s, step.to)|
  }

  function InitialState(start: int, now: int): State {
    State(map[], map[], map[], {}, [], start, now, [], [])
  }
}
