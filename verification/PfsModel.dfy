/**
 The state of the pathfinding service as one value: the channels in memory, the tables in the
 database, and what every chain event and every message makes of them.
 */
module PfsModel {
  import opened Common

  const DEFAULT_REVEAL_TIMEOUT := 50
  const UINT256_MAX := 0xffff_ffff_ffff_ffff_ffff_ffff_ffff_ffff_ffff_ffff_ffff_ffff_ffff_ffff_ffff_ffff
  const ONE_HOUR := 3600

  /** A fee schedule; what it charges does not matter here, so it is a name. */
  datatype FeeSchedule = FeeSchedule(timestamp: int, schedule: nat)

  /** The schedule of a new channel, dated 2000-01-01. */
  const INITIAL_FEES := FeeSchedule(946_684_800, 0)

  /** One direction of a channel: what the participant on this side can send. */
  datatype Side = Side(capacity: int, updateNonce: int, revealTimeout: int, fees: FeeSchedule)

  datatype ChannelRow = ChannelRow(participant1: Address, participant2: Address, side1: Side, side2: Side)

  const FRESH_SIDE := Side(0, 0, DEFAULT_REVEAL_TIMEOUT, INITIAL_FEES)

  /** Participants are stored in ascending order. */
  function FreshRow(a: Address, b: Address): ChannelRow {
    ChannelRow(Min(a, b), Max(a, b), FRESH_SIDE, FRESH_SIDE)
  }

  predicate IsParticipant(row: ChannelRow, a: Address) {
    a == row.participant1 || a == row.participant2
  }

  function Partner(row: ChannelRow, a: Address): Address {
    if a == row.participant1 then row.participant2 else row.participant1
  }

  function SideOf(row: ChannelRow, a: Address): Side {
    if a == row.participant1 then row.side1 else row.side2
  }

  function WithSide(row: ChannelRow, a: Address, side: Side): ChannelRow {
    if a == row.participant1 then row.(side1 := side) else row.(side2 := side)
  }

  /** Messages of Raiden nodes, with the recovered sender. */
  datatype Message =
    | CapacityUpdate(
        chainId: int, key: ChannelKey, sender: Address, updating: Address, other: Address,
        updatingNonce: int, otherNonce: int, updatingCapacity: int, otherCapacity: int, revealTimeout: int)
    | FeeUpdate(
        chainId: int, key: ChannelKey, sender: Address, updating: Address,
        schedule: nat, timestamp: int, hasTimezone: bool)

  /** What a participant last claimed about its own and its partner's capacity. */
  datatype Claim = Claim(own: int, partner: int)

  datatype ClaimKey = ClaimKey(updating: Address, key: ChannelKey)

  datatype Pfs = Pfs(
    chainId: int,
    networks: map<Address, int>,
    live: map<ChannelKey, ChannelRow>,   // the channels in memory
    rows: map<ChannelKey, ChannelRow>,   // the channel table
    claims: map<ClaimKey, Claim>,        // the capacity_update table
    waiting: seq<Message>,               // the waiting_message table
    committed: int)

  predicate SamePair(r: ChannelRow, q: ChannelRow) {
    r.participant1 == q.participant1 && r.participant2 == q.participant2
  }

  /** Insert-or-replace: a row that violates the uniqueness of the participant pair is replaced, too. */
  function UpsertRow(rows: map<ChannelKey, ChannelRow>, key: ChannelKey, row: ChannelRow): map<ChannelKey, ChannelRow> {
    (map k | k in rows && !(k != key && k.network == key.network && SamePair(rows[k], row)) :: rows[k])[key := row]
  }

  /** A missing claim counts as zero. */
  function ClaimOf(claims: map<ClaimKey, Claim>, a: Address, key: ChannelKey): Claim {
    if ClaimKey(a, key) in claims then claims[ClaimKey(a, key)] else Claim(0, 0)
  }

  // ---------------------------------------------------------------- messages

  datatype Outcome = Accepted | Deferred | Rejected | KeyError

  datatype Handled = Handled(state: Pfs, outcome: Outcome)

  /** The checks before the channel is looked up; a message that fails them is never deferred. */
  predicate WellSigned(s: Pfs, m: Message) {
    && m.chainId == s.chainId
    && m.key.network in s.networks
    && (m.CapacityUpdate? ==> m.updatingCapacity <= UINT256_MAX && m.otherCapacity <= UINT256_MAX)
    && m.sender == m.updating
  }

  /** The row after a capacity update, given the claims with the update already stored. */
  function CapacityRow(row: ChannelRow, m: Message, partner: Claim): ChannelRow
    requires m.CapacityUpdate?
  {
    var toPartner := SideOf(row, m.updating).(
                     updateNonce := m.updatingNonce,
                     capacity := Min(m.updatingCapacity, partner.partner),
                     revealTimeout := m.revealTimeout);
    var fromPartner := SideOf(row, m.other).(
                       updateNonce := m.otherNonce,
                       capacity := Min(m.otherCapacity, partner.own));
    WithSide(WithSide(row, m.updating, toPartner), m.other, fromPartner)
  }

  function Stored(s: Pfs, key: ChannelKey, row: ChannelRow): Pfs {
    s.(live := s.live[key := row], rows := UpsertRow(s.rows, key, row))
  }

  function HandleCapacityUpdate(s: Pfs, m: Message): Handled
    requires m.CapacityUpdate?
  {
    if !WellSigned(s, m) then Handled(s, Rejected)
    else if m.key !in s.live then Handled(s.(waiting := s.waiting + [m]), Deferred)
    else
      var row := s.live[m.key];
      if !IsParticipant(row, m.updating) || !IsParticipant(row, m.other) then Handled(s, Rejected)
      else
        var t := s.(claims := s.claims[ClaimKey(m.updating, m.key) := Claim(m.updatingCapacity, m.otherCapacity)]);
        if m.updating == m.other then Handled(t, KeyError)  // there is no edge from a node to itself
        else Handled(Stored(t, m.key, CapacityRow(row, m, ClaimOf(t.claims, m.other, m.key))), Accepted)
  }

  function HandleFeeUpdate(s: Pfs, m: Message, now: int): Handled
    requires m.FeeUpdate?
  {
    if !WellSigned(s, m) then Handled(s, Rejected)
    else if m.key !in s.live then Handled(s.(waiting := s.waiting + [m]), Deferred)
    else
      var row := s.live[m.key];
      if !IsParticipant(row, m.updating) || m.hasTimezone || m.timestamp > now + ONE_HOUR then Handled(s, Rejected)
      else
        var side := SideOf(row, m.updating);
        if side.fees.timestamp >= m.timestamp then Handled(s, Rejected)
        else
          var updated := side.(fees := FeeSchedule(m.timestamp, m.schedule));
          Handled(Stored(s, m.key, WithSide(row, m.updating, updated)), Accepted)
  }

  function HandleMessage(s: Pfs, m: Message, now: int): Handled {
    if m.CapacityUpdate? then HandleCapacityUpdate(s, m) else HandleFeeUpdate(s, m, now)
  }

  // ---------------------------------------------------------------- chain events

  /** The waiting messages of a channel, in the order in which they were stored. */
  function WaitingFor(waiting: seq<Message>, key: ChannelKey): seq<Message> {
    if waiting == [] then []
    else (if waiting[0].key == key then [waiting[0]] else []) + WaitingFor(waiting[1..], key)
  }

  function NotWaitingFor(waiting: seq<Message>, key: ChannelKey): seq<Message> {
    if waiting == [] then []
    else (if waiting[0].key == key then [] else [waiting[0]]) + NotWaitingFor(waiting[1..], key)
  }

  /** Handles messages one after the other; an uncaught exception ends the loop. */
  function HandleMessages(s: Pfs, ms: seq<Message>, now: int): Handled
    decreases |ms|
  {
    if ms == [] then Handled(s, Accepted)
    else
      var h := HandleMessage(s, ms[0], now);
      if h.outcome.KeyError? then h else HandleMessages(h.state, ms[1..], now)
  }

  function HandleNetworkCreated(s: Pfs, network: Address, settleTimeout: int): Pfs {
    if network in s.networks then s else s.(networks := s.networks[network := settleTimeout])
  }

  function HandleOpened(s: Pfs, key: ChannelKey, a: Address, b: Address, now: int): Handled {
    if key.network !in s.networks then Handled(s, Accepted)
    else
      var t := Stored(s, key, FreshRow(a, b));
      var h := HandleMessages(t, WaitingFor(s.waiting, key), now);
      if h.outcome.KeyError? then h
      else Handled(h.state.(waiting := NotWaitingFor(h.state.waiting, key)), Accepted)
  }

  /** ChannelClosed and ChannelSettled: the row decides whether there is something to remove. */
  function HandleRemoved(s: Pfs, key: ChannelKey): Pfs {
    if key.network in s.networks && key in s.rows then s.(live := s.live - {key}, rows := s.rows - {key}) else s
  }

  // ---------------------------------------------------------------- runs

  datatype Step =
    | Created(network: Address, settleTimeout: int)
    | Opened(key: ChannelKey, a: Address, b: Address, now: int)
    | Removed(key: ChannelKey)
    | Received(message: Message, now: int)
    | HeadBlock(block: int)

  function Exec(s: Pfs, step: Step): Pfs {
    match step
    case Created(network, settleTimeout) => HandleNetworkCreated(s, network, settleTimeout)
    case Opened(key, a, b, now) => HandleOpened(s, key, a, b, now).state
    case Removed(key) => HandleRemoved(s, key)
    case Received(message, now) => HandleMessage(s, message, now).state
    case HeadBlock(block) => s.(committed := block)
  }

  function ExecAll(s: Pfs, steps: seq<Step>): Pfs
    decreases |steps|
  {
    if steps == [] then s else ExecAll(Exec(s, steps[0]), steps[1..])
  }

  /**
   The chain opens a channel between two distinct participants that have no other live channel in the network.
   The opening of a channel that is live already is a replay, after a crash, and names the same participants.
   */
  ghost predicate Admissible(s: Pfs, key: ChannelKey, a: Address, b: Address) {
    && a != b
    && (key in s.live ==> SamePair(s.live[key], FreshRow(a, b)))
    && forall k :: k in s.live && k != key && k.network == key.network ==> !SamePair(s.live[k], FreshRow(a, b))
  }

  /** A capacity update from a participant about itself as the partner is a malformed message. */
  predicate SelfUpdate(m: Message) {
    m.CapacityUpdate? && m.updating == m.other
  }

  ghost predicate Lawful(s: Pfs, step: Step) {
    && (step.Opened? ==> Admissible(s, step.key, step.a, step.b))
    && (step.Received? ==> !SelfUpdate(step.message))
  }

  function InitialState(chainId: int, start: int): Pfs {
    Pfs(chainId, map[], map[], map[], map[], [], start)
  }

  /**
   trace[i+1] follows from trace[i] by a lawful step. After a crash the service starts with the same
   channels, and the events of the interrupted block range follow again.
   */
  ghost predicate IsRun(steps: seq<Step>, trace: seq<Pfs>) {
    && |trace| == |steps| + 1
    && (exists chainId, start :: trace[0] == InitialState(chainId, start))
    && forall i {:trigger steps[i]} :: 0 <= i < |steps| ==>
         Lawful(trace[i], steps[i]) && trace[i + 1] == Exec(trace[i], steps[i])
  }

  /** The chain opens every channel identifier once. */
  ghost predicate OpensOnce(steps: seq<Step>) {
    forall i, j :: 0 <= i < j < |steps| && steps[i].Opened? && steps[j].Opened? ==> steps[i].key != steps[j].key
  }
}
