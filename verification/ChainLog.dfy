/**
 The confirmed event log of the chain and the way one query turns a block range of it into the
 list of events that a service handles: registry events first, then token network events, then
 monitoring contract events, and at the end the new head block.
 */
module ChainLog {
  import opened Common

  datatype Event =
    | NetworkCreated(network: Address, settleTimeout: int, block: int)
    | ChannelOpened(key: ChannelKey, participant1: Address, participant2: Address, block: int)
    | ChannelClosed(key: ChannelKey, closingParticipant: Address, block: int)
    | BalanceProofUpdated(key: ChannelKey, closingParticipant: Address, nonce: int, block: int)
    | ChannelSettled(key: ChannelKey, block: int)
    | NewBalanceProof(key: ChannelKey, nonce: int, msAddress: Address, raidenNode: Address, block: int)
    | RewardClaimed(msAddress: Address, block: int)
    | UnhandledEntry(network: Address, block: int)
    | HeadBlock(block: int)

  predicate FromNetwork(e: Event) {
    e.ChannelOpened? || e.ChannelClosed? || e.BalanceProofUpdated? || e.ChannelSettled? || e.UnhandledEntry?
  }

  predicate FromMonitoring(e: Event) {
    e.NewBalanceProof? || e.RewardClaimed?
  }

  predicate HasKey(e: Event) {
    e.ChannelOpened? || e.ChannelClosed? || e.BalanceProofUpdated? || e.ChannelSettled? || e.NewBalanceProof?
  }

  predicate About(e: Event, k: ChannelKey) {
    HasKey(e) && e.key == k
  }

  /** The token network contract that emitted e. */
  function Emitter(e: Event): Address
    requires FromNetwork(e)
  {
    if e.UnhandledEntry? then e.network else e.key.network
  }

  /** The contracts a log query asks for. */
  datatype Source = Registry | Networks(addresses: set<Address>) | Monitoring

  predicate Emitted(source: Source, e: Event) {
    match source
    case Registry => e.NetworkCreated?
    case Networks(addresses) => FromNetwork(e) && Emitter(e) in addresses
    case Monitoring => FromMonitoring(e)
  }

  predicate Matches(source: Source, from: int, to: int, e: Event) {
    Emitted(source, e) && from <= e.block <= to
  }

  /** The node's answer to a log query: the matching entries, in log order. */
  function GetLogs(log: seq<Event>, source: Source, from: int, to: int): seq<Event> {
    if log == [] then []
    else
      (if Matches(source, from, to, log[0]) then [log[0]] else []) + GetLogs(log[1..], source, from, to)
  }

  /** Token network entries without the ones no service handles: deprecation, deposits and withdrawals. */
  function Parsed(logs: seq<Event>): seq<Event> {
    if logs == [] then []
    else (if logs[0].UnhandledEntry? then [] else [logs[0]]) + Parsed(logs[1..])
  }

  /** The networks created by the registry entries in logs. */
  function Created(logs: seq<Event>): set<Address> {
    set e | e in logs && e.NetworkCreated? :: e.network
  }

  /** All events a query for the blocks from..to yields, given the token networks known before it. */
  function Chunk(log: seq<Event>, known: set<Address>, from: int, to: int): seq<Event> {
    if from > to then []
    else
      var registry := GetLogs(log, Registry, from, to);
      registry
      + Parsed(GetLogs(log, Networks(known + Created(registry)), from, to))
      + GetLogs(log, Monitoring, from, to)
      + [HeadBlock(to)]
  }

  // ---------------------------------------------------------------- what the chain guarantees

  ghost predicate Sorted(log: seq<Event>) {
    forall i, j :: 0 <= i < j < |log| ==> log[i].block <= log[j].block
  }

  /** The contracts of a network emit nothing before the registry announced the network. */
  ghost predicate NetworksAnnounced(log: seq<Event>) {
    forall i :: 0 <= i < |log| && FromNetwork(log[i]) ==>
      exists j :: 0 <= j < i && log[j].NetworkCreated? && log[j].network == Emitter(log[i])
  }

  /** A channel is opened once, before all its other events. */
  ghost predicate OpenedFirst(log: seq<Event>) {
    forall i, j :: 0 <= i < |log| && 0 <= j < |log| && i != j && log[i].ChannelOpened? && About(log[j], log[i].key) ==>
      i < j && !log[j].ChannelOpened?
  }

  /** A channel is closed at most once. */
  ghost predicate ClosedOnce(log: seq<Event>) {
    forall i, j :: 0 <= i < j < |log| && log[i].ChannelClosed? && log[j].ChannelClosed? ==> log[i].key != log[j].key
  }

  /** A confirmed log of the blocks after start. */
  ghost predicate WellFormed(log: seq<Event>, start: int) {
    && Sorted(log)
    && NetworksAnnounced(log)
    && OpenedFirst(log)
    && (forall e :: e in log ==> start < e.block && !e.HeadBlock?)
  }

  // ---------------------------------------------------------------- queries over adjacent ranges

  lemma {:induction false} GetLogsMembers(log: seq<Event>, source: Source, from: int, to: int)
    ensures forall e :: e in GetLogs(log, source, from, to) <==> e in log && Matches(source, from, to, e)
  {
    if log != [] {
      GetLogsMembers(log[1..], source, from, to);
    }
  }

  lemma {:induction false} ParsedMembers(logs: seq<Event>)
    ensures forall e :: e in Parsed(logs) <==> e in logs && !e.UnhandledEntry?
  {
    if logs != [] {
      ParsedMembers(logs[1..]);
    }
  }

  lemma {:induction false} NothingBefore(log: seq<Event>, source: Source, from: int, to: int)
    requires forall e :: e in log ==> to < e.block
    ensures GetLogs(log, source, from, to) == []
  {
    if log != [] {
      NothingBefore(log[1..], source, from, to);
    }
  }

  lemma {:induction false} GetLogsSplit(log: seq<Event>, source: Source, from: int, mid: int, to: int)
    requires Sorted(log) && from <= mid + 1 && mid <= to
    ensures GetLogs(log, source, from, to) == GetLogs(log, source, from, mid) + GetLogs(log, source, mid + 1, to)
  {
    if log != [] {
      var e, rest := log[0], log[1..];
      GetLogsSplit(rest, source, from, mid, to);
      if mid < e.block {
        NothingBefore(rest, source, from, mid);
      }
      HeadToItsPart(e, GetLogs(rest, source, from, mid), GetLogs(rest, source, mid + 1, to),
                    Matches(source, from, mid, e), Matches(source, mid + 1, to, e));
    }
  }

  /** The first entry belongs to the first part, or to the second one if the first is empty. */
  lemma HeadToItsPart(e: Event, early: seq<Event>, late: seq<Event>, isEarly: bool, isLate: bool)
    requires !(isEarly && isLate) && (isLate ==> early == [])
    ensures (if isEarly || isLate then [e] else []) + (early + late)
            == ((if isEarly then [e] else []) + early) + ((if isLate then [e] else []) + late)
  {
    assert [] + late == late;
  }

  lemma {:induction false} GetLogsConcat(a: seq<Event>, b: seq<Event>, source: Source, from: int, to: int)
    ensures GetLogs(a + b, source, from, to) == GetLogs(a, source, from, to) + GetLogs(b, source, from, to)
  {
    if a == [] {
      assert a + b == b;
    } else {
      var head := if Matches(source, from, to, a[0]) then [a[0]] else [];
      var front, back := GetLogs(a[1..], source, from, to), GetLogs(b, source, from, to);
      assert (a + b)[0] == a[0] && (a + b)[1..] == a[1..] + b;
      GetLogsConcat(a[1..], b, source, from, to);
      assert GetLogs(a, source, from, to) == head + front;
      assert head + (front + back) == (head + front) + back;
    }
  }

  lemma {:induction false} ParsedConcat(a: seq<Event>, b: seq<Event>)
    ensures Parsed(a + b) == Parsed(a) + Parsed(b)
  {
    if a == [] {
      assert a + b == b;
    } else {
      assert (a + b)[1..] == a[1..] + b;
      ParsedConcat(a[1..], b);
    }
  }

  /** Once all networks announced before the range are known, knowing more makes no difference. */
  ghost predicate Knows(log: seq<Event>, known: set<Address>, cursor: int) {
    forall e :: e in log && e.NetworkCreated? && e.block <= cursor ==> e.network in known
  }

  lemma {:induction false} SameLogs(log: seq<Event>, a: Source, b: Source, from: int, to: int)
    requires forall e :: e in log && from <= e.block <= to ==> Emitted(a, e) == Emitted(b, e)
    ensures GetLogs(log, a, from, to) == GetLogs(log, b, from, to)
  {
    if log != [] {
      SameLogs(log[1..], a, b, from, to);
    }
  }

  lemma AllNetworksHeard(log: seq<Event>, start: int, known: set<Address>, from: int, to: int)
    requires WellFormed(log, start) && Knows(log, known, from - 1)
    ensures GetLogs(log, Networks(known + Created(GetLogs(log, Registry, from, to))), from, to)
            == GetLogs(log, Networks(Created(log)), from, to)
  {
    var registry := GetLogs(log, Registry, from, to);
    var heard := known + Created(registry);
    GetLogsMembers(log, Registry, from, to);
    forall e | e in log && from <= e.block <= to
      ensures Emitted(Networks(heard), e) == Emitted(Networks(Created(log)), e)
    {
      if FromNetwork(e) {
        var i :| 0 <= i < |log| && log[i] == e;
        var j :| 0 <= j < i && log[j].NetworkCreated? && log[j].network == Emitter(log[i]);
        assert log[j] in log;
        if from <= log[j].block {
          assert log[j] in registry;
        }
      }
    }
    SameLogs(log, Networks(heard), Networks(Created(log)), from, to);
  }
}
