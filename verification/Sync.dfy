/**
 Synchronisation with the chain: one query over the next block range, an interval that adapts to
 the speed of the node, and a cursor that moves when the events of a range were handled.
 */
module Sync {
  import opened Common
  import opened ChainLog

  const DEFAULT_FILTER_INTERVAL := 1_000
  const MAX_FILTER_INTERVAL := 100_000
  const MIN_FILTER_INTERVAL := 2

  // ---------------------------------------------------------------- one query

  method QueryBlockchainEvents(log: seq<Event>, source: Source, from: int, to: int) returns (logs: seq<Event>)
    ensures logs == GetLogs(log, source, from, to)
  {
    // Without contracts there is nothing to ask for
    if source == Networks({}) {
      GetLogsMembers(log, source, from, to);
      if GetLogs(log, source, from, to) != [] {
        assert GetLogs(log, source, from, to)[0] in GetLogs(log, source, from, to);
      }
      return [];
    }
    return GetLogs(log, source, from, to);
  }

  function Distinct(addresses: seq<Address>): set<Address> {
    set a | a in addresses
  }

  function MonitoringLogs(log: seq<Event>, hasContract: bool, from: int, to: int): seq<Event> {
    if hasContract then GetLogs(log, Monitoring, from, to) else []
  }

  /** Everything one query returns; the pathfinding service runs without a monitoring contract. */
  function QueryResult(log: seq<Event>, known: set<Address>, hasContract: bool, from: int, to: int): seq<Event> {
    if from > to then []
    else
      var registry := GetLogs(log, Registry, from, to);
      registry
      + Parsed(GetLogs(log, Networks(known + Created(registry)), from, to))
      + MonitoringLogs(log, hasContract, from, to)
      + [HeadBlock(to)]
  }

  /** Adds the networks that the registry entries announce to the known ones. */
  method AddNetworks(registry: seq<Event>, addresses: seq<Address>) returns (known: seq<Address>)
    requires forall e :: e in registry ==> e.NetworkCreated?
    ensures Distinct(known) == Distinct(addresses) + Created(registry)
  {
    known := addresses;
    for i := 0 to |registry|
      invariant Distinct(known) == Distinct(addresses) + Created(registry[..i])
    {
      assert registry[i] in registry && registry[..i + 1] == registry[..i] + [registry[i]];
      assert Created(registry[..i + 1]) == Created(registry[..i]) + {registry[i].network};
      assert Distinct(known + [registry[i].network]) == Distinct(known) + {registry[i].network};
      known := known + [registry[i].network];
    }
    assert registry[..|registry|] == registry;
  }

  method ParseTokenNetworkEvents(logs: seq<Event>) returns (events: seq<Event>)
    ensures events == Parsed(logs)
  {
    events := [];
    for i := 0 to |logs|
      invariant events == Parsed(logs[..i])
    {
      assert logs[..i + 1] == logs[..i] + [logs[i]];
      ParsedConcat(logs[..i], [logs[i]]);
      if !logs[i].UnhandledEntry? {
        events := events + [logs[i]];
      }
    }
    assert logs[..|logs|] == logs;
  }

  method GetBlockchainEvents(log: seq<Event>, addresses: seq<Address>, hasContract: bool, from: int, to: int)
      returns (events: seq<Event>, known: seq<Address>)
    ensures events == QueryResult(log, Distinct(addresses), hasContract, from, to)
    ensures Distinct(known) == Distinct(addresses) + if from > to then {} else Created(GetLogs(log, Registry, from, to))
  {
    if from > to {
      return [], addresses;
    }
    events := QueryBlockchainEvents(log, Registry, from, to);
    GetLogsMembers(log, Registry, from, to);
    known := AddNetworks(events, addresses);
    var network := QueryBlockchainEvents(log, Networks(Distinct(known)), from, to);
    var parsed := ParseTokenNetworkEvents(network);
    events := events + parsed;
    if hasContract {
      var monitoring := QueryBlockchainEvents(log, Monitoring, from, to);
      events := events + monitoring;
    }
    events := events + [HeadBlock(to)];
  }

  // ---------------------------------------------------------------- the adaptive interval

  /** How long a query took, measured against the two thresholds, or that it ran into the read timeout. */
  datatype Speed = Fast | Normal | Slow | TimedOut

  datatype Query = Query(head: int, speed: Speed)

  datatype Cursor = Cursor(committed: int, interval: int)

  function RangeEnd(c: Cursor, head: int): int {
    Min(head, c.committed + c.interval)
  }

  function NextInterval(interval: int, speed: Speed): int {
    match speed
    case Fast => Min(MAX_FILTER_INTERVAL, interval * 2)
    case Normal => interval
    case Slow => Max(MIN_FILTER_INTERVAL, interval / 2)
    case TimedOut => Max(MIN_FILTER_INTERVAL, interval / 5)
  }

  /** The part of the blockchain state that the queries use. */
  class BlockchainState {
    const hasMonitorContract: bool   // the pathfinding service has none
    var latestCommittedBlock: int
    var currentEventFilterInterval: int

    constructor (latestCommittedBlock: int, hasMonitorContract: bool)
      ensures this.latestCommittedBlock == latestCommittedBlock && this.hasMonitorContract == hasMonitorContract
      ensures this.currentEventFilterInterval == DEFAULT_FILTER_INTERVAL
    {
      this.latestCommittedBlock, this.hasMonitorContract := latestCommittedBlock, hasMonitorContract;
      this.currentEventFilterInterval := DEFAULT_FILTER_INTERVAL;
    }

    ghost function Model(): Cursor
      reads this
    {
      Cursor(latestCommittedBlock, currentEventFilterInterval)
    }

    /** Returns the events of the next range, or nothing if the node did not answer in time. */
    method GetBlockchainEventsAdaptive(log: seq<Event>, addresses: seq<Address>, query: Query)
        returns (events: Option<seq<Event>>)
      modifies this`currentEventFilterInterval
      ensures currentEventFilterInterval == NextInterval(old(currentEventFilterInterval), query.speed)
      ensures events.None? <==> query.speed.TimedOut?
      ensures events.Some? ==> events.value == QueryResult(log, Distinct(addresses), hasMonitorContract,
                                                           latestCommittedBlock + 1, RangeEnd(old(Model()), query.head))
    {
      var from := latestCommittedBlock + 1;
      var to := Min(query.head, from + currentEventFilterInterval - 1);
      if query.speed.TimedOut? {
        var before := currentEventFilterInterval;
        currentEventFilterInterval := Max(MIN_FILTER_INTERVAL, before / 5);
        return None;
      }
      var all, _ := GetBlockchainEvents(log, addresses, hasMonitorContract, from, to);
      if query.speed.Fast? {
        currentEventFilterInterval := Min(MAX_FILTER_INTERVAL, currentEventFilterInterval * 2);
      } else if query.speed.Slow? {
        currentEventFilterInterval := Max(MIN_FILTER_INTERVAL, currentEventFilterInterval / 2);
      }
      return Some(all);
    }
  }

  // ---------------------------------------------------------------- runs of queries

  /** The cursor after a query whose events, if any, were all handled. */
  function Advance(c: Cursor, q: Query): Cursor {
    Cursor(if q.speed.TimedOut? then c.committed else Max(c.committed, RangeEnd(c, q.head)), NextInterval(c.interval, q.speed))
  }

  /** cursors[i] is the cursor before the i-th query. */
  ghost predicate IsSyncRun(cursors: seq<Cursor>, queries: seq<Query>) {
    && |cursors| == |queries| + 1
    && (forall i {:trigger queries[i]} :: 0 <= i < |queries| ==> cursors[i + 1] == Advance(cursors[i], queries[i]))
  }

  ghost predicate IntervalInBounds(c: Cursor) {
    MIN_FILTER_INTERVAL <= c.interval <= MAX_FILTER_INTERVAL
  }

  /** The interval never leaves its bounds. */
  lemma {:induction false} IntervalsInBounds(cursors: seq<Cursor>, queries: seq<Query>, n: nat)
    requires IsSyncRun(cursors, queries) && IntervalInBounds(cursors[0]) && n <= |queries|
    ensures IntervalInBounds(cursors[n])
  {
    if n != 0 {
      IntervalsInBounds(cursors, queries, n - 1);
      assert cursors[n] == Advance(cursors[n - 1], queries[n - 1]);
    }
  }

  /** The events a query returns, given those delivered before it. */
  function Answer(log: seq<Event>, hasContract: bool, known: set<Address>, before: seq<Event>, c: Cursor, q: Query): seq<Event> {
    if q.speed.TimedOut? then []
    else QueryResult(log, known + Created(before), hasContract, c.committed + 1, RangeEnd(c, q.head))
  }

  /** The events that the first n queries deliver. */
  function Delivered(log: seq<Event>, hasContract: bool, known: set<Address>, cursors: seq<Cursor>, queries: seq<Query>, n: nat): seq<Event>
    requires n <= |queries| <= |cursors|
  {
    if n == 0 then []
    else
      var before := Delivered(log, hasContract, known, cursors, queries, n - 1);
      before + Answer(log, hasContract, known, before, cursors[n - 1], queries[n - 1])
  }

  /** What a source logged in a range, as the service sees it. */
  function Seen(log: seq<Event>, source: Source, from: int, to: int): seq<Event> {
    Parsed(GetLogs(log, source, from, to))
  }

  lemma {:induction false} AllMatch(events: seq<Event>, source: Source, from: int, to: int)
    requires forall e :: e in events ==> Matches(source, from, to, e)
    ensures GetLogs(events, source, from, to) == events
  {
    if events != [] {
      assert events[0] in events;
      AllMatch(events[1..], source, from, to);
    }
  }

  lemma {:induction false} NoneMatch(events: seq<Event>, source: Source, from: int, to: int)
    requires forall e :: e in events ==> !Matches(source, from, to, e)
    ensures GetLogs(events, source, from, to) == []
  {
    if events != [] {
      assert events[0] in events;
      NoneMatch(events[1..], source, from, to);
    }
  }

  lemma {:induction false} ParsedOther(events: seq<Event>)
    requires forall e :: e in events ==> !e.UnhandledEntry?
    ensures Parsed(events) == events
  {
    if events != [] {
      assert events[0] in events;
      ParsedOther(events[1..]);
    }
  }

  ghost predicate IsSource(log: seq<Event>, source: Source) {
    source == Registry || source == Networks(Created(log)) || source == Monitoring
  }

  lemma ChunkBySource(log: seq<Event>, start: int, known: set<Address>, from: int, to: int, source: Source, lo: int, hi: int)
    requires WellFormed(log, start) && Knows(log, known, from - 1) && from <= to && lo <= from && to <= hi
    ensures GetLogs(Chunk(log, known, from, to), source, lo, hi)
            == GetLogs(GetLogs(log, Registry, from, to), source, lo, hi)
               + GetLogs(Seen(log, Networks(Created(log)), from, to), source, lo, hi)
               + GetLogs(GetLogs(log, Monitoring, from, to), source, lo, hi)
  {
    var registry, net := GetLogs(log, Registry, from, to), Seen(log, Networks(Created(log)), from, to);
    var msc := GetLogs(log, Monitoring, from, to);
    AllNetworksHeard(log, start, known, from, to);
    assert Chunk(log, known, from, to) == registry + net + msc + [HeadBlock(to)];
    GetLogsConcat(registry + net + msc, [HeadBlock(to)], source, lo, hi);
    GetLogsConcat(registry + net, msc, source, lo, hi);
    GetLogsConcat(registry, net, source, lo, hi);
    NoneMatch([HeadBlock(to)], source, lo, hi);
  }

  lemma SeenMembers(log: seq<Event>, source: Source, from: int, to: int)
    ensures forall e :: e in Seen(log, source, from, to) <==> e in log && Matches(source, from, to, e) && !e.UnhandledEntry?
  {
    GetLogsMembers(log, source, from, to);
    ParsedMembers(GetLogs(log, source, from, to));
  }

  lemma PartOfSource(log: seq<Event>, events: seq<Event>, own: Source, source: Source, from: int, to: int)
    requires IsSource(log, own) && IsSource(log, source)
    requires forall e :: e in events ==> Matches(own, from, to, e)
    ensures GetLogs(events, source, from, to) == if own == source then events else []
  {
    if own == source {
      AllMatch(events, source, from, to);
    } else {
      NoneMatch(events, source, from, to);
    }
  }

  /** A chunk contains what each source logged in its range, in log order. */
  lemma ChunkDelivers(log: seq<Event>, start: int, known: set<Address>, from: int, to: int, source: Source, lo: int, hi: int)
    requires WellFormed(log, start) && Knows(log, known, from - 1) && IsSource(log, source)
    requires from <= to && lo <= from && to <= hi
    ensures GetLogs(Chunk(log, known, from, to), source, lo, hi) == Seen(log, source, from, to)
  {
    ChunkBySource(log, start, known, from, to, source, lo, hi);
    PartsAddUp(log, source, from, to, lo, hi);
  }

  lemma PartsAddUp(log: seq<Event>, source: Source, from: int, to: int, lo: int, hi: int)
    requires IsSource(log, source) && lo <= from && to <= hi
    ensures GetLogs(GetLogs(log, Registry, from, to), source, lo, hi)
            + GetLogs(Seen(log, Networks(Created(log)), from, to), source, lo, hi)
            + GetLogs(GetLogs(log, Monitoring, from, to), source, lo, hi)
            == Seen(log, source, from, to)
  {
    PlainPart(log, Registry, source, from, to, lo, hi);
    NetworksPart(log, source, from, to, lo, hi);
    PlainPart(log, Monitoring, source, from, to, lo, hi);
    var seen := Seen(log, source, from, to);
    assert seen + [] + [] == [] + seen + [] == [] + [] + seen == seen;
  }

  /** What the entries of the registry or of the monitoring contract hold of a source: all or nothing. */
  lemma PlainPart(log: seq<Event>, own: Source, source: Source, from: int, to: int, lo: int, hi: int)
    requires own == Registry || own == Monitoring
    requires IsSource(log, source) && lo <= from && to <= hi
    ensures GetLogs(GetLogs(log, own, from, to), source, lo, hi) == if own == source then Seen(log, source, from, to) else []
  {
    GetLogsMembers(log, own, from, to);
    assert forall e :: e in GetLogs(log, own, from, to) ==> Matches(own, lo, hi, e);
    PartOfSource(log, GetLogs(log, own, from, to), own, source, lo, hi);
    ParsedOther(GetLogs(log, own, from, to));
  }

  lemma NetworksPart(log: seq<Event>, source: Source, from: int, to: int, lo: int, hi: int)
    requires IsSource(log, source) && lo <= from && to <= hi
    ensures var networks := Networks(Created(log));
            GetLogs(Seen(log, networks, from, to), source, lo, hi) == if networks == source then Seen(log, source, from, to) else []
  {
    var networks := Networks(Created(log));
    SeenMembers(log, networks, from, to);
    assert forall e :: e in Seen(log, networks, from, to) ==> Matches(networks, lo, hi, e);
    PartOfSource(log, Seen(log, networks, from, to), networks, source, lo, hi);
  }

  /** The sources a service listens to; without a monitoring contract, these are the registry and the networks. */
  ghost predicate ListensTo(log: seq<Event>, hasContract: bool, source: Source) {
    IsSource(log, source) && (hasContract || source != Monitoring)
  }

  /** Without a monitoring contract, a query returns the same for all other sources. */
  lemma ContractOnlyAdds(log: seq<Event>, known: set<Address>, hasContract: bool, from: int, to: int, source: Source, lo: int, hi: int)
    requires ListensTo(log, hasContract, source)
    ensures GetLogs(QueryResult(log, known, hasContract, from, to), source, lo, hi) == GetLogs(Chunk(log, known, from, to), source, lo, hi)
  {
    if !hasContract && from <= to {
      var registry, msc := GetLogs(log, Registry, from, to), GetLogs(log, Monitoring, from, to);
      var body := registry + Parsed(GetLogs(log, Networks(known + Created(registry)), from, to));
      GetLogsMembers(log, Monitoring, from, to);
      NoneMatch(msc, source, lo, hi);
      GetLogsConcat(body, msc, source, lo, hi);
      GetLogsConcat(body + msc, [HeadBlock(to)], source, lo, hi);
      GetLogsConcat(body, [HeadBlock(to)], source, lo, hi);
      assert body + [] == body;
    }
  }

  /** What the service has delivered is what the log holds up to the cursor, source by source. */
  ghost predicate Complete(log: seq<Event>, hasContract: bool, start: int, delivered: seq<Event>, committed: int) {
    && start <= committed
    && (forall e :: e in delivered ==> e.HeadBlock? || (e in log && start < e.block <= committed))
    && (forall source :: ListensTo(log, hasContract, source) ==>
          GetLogs(delivered, source, start + 1, committed) == Seen(log, source, start + 1, committed))
  }

  /** The service follows exactly what the delivered registry events announced. */
  ghost predicate Follows(log: seq<Event>, delivered: seq<Event>, committed: int) {
    Knows(log, Created(delivered), committed) && Created(delivered) <= Created(log)
  }

  lemma RegistryFollows(log: seq<Event>, hasContract: bool, start: int, delivered: seq<Event>, committed: int)
    requires WellFormed(log, start)
    requires Complete(log, hasContract, start, delivered, committed)
    ensures Follows(log, delivered, committed)
  {
    assert ListensTo(log, hasContract, Registry);
    GetLogsMembers(delivered, Registry, start + 1, committed);
    SeenMembers(log, Registry, start + 1, committed);
    forall e | e in log && e.NetworkCreated? && e.block <= committed
      ensures e.network in Created(delivered)
    {
      assert e in Seen(log, Registry, start + 1, committed);
    }
  }

  lemma ResultFromLog(log: seq<Event>, known: set<Address>, hasContract: bool, from: int, to: int)
    ensures forall e :: e in QueryResult(log, known, hasContract, from, to) ==> e.HeadBlock? || (e in log && from <= e.block <= to)
  {
    if from <= to {
      var registry := GetLogs(log, Registry, from, to);
      GetLogsMembers(log, Registry, from, to);
      SeenMembers(log, Networks(known + Created(registry)), from, to);
      GetLogsMembers(log, Monitoring, from, to);
    }
  }

  lemma ResultCompletes(log: seq<Event>, hasContract: bool, start: int, before: seq<Event>, committed: int, to: int)
    requires WellFormed(log, start) && Complete(log, hasContract, start, before, committed) && committed <= to
    ensures Complete(log, hasContract, start, before + QueryResult(log, Created(before), hasContract, committed + 1, to), to)
  {
    var from, known := committed + 1, Created(before);
    var result := QueryResult(log, known, hasContract, from, to);
    ResultFromLog(log, known, hasContract, from, to);
    RegistryFollows(log, hasContract, start, before, committed);
    forall source | ListensTo(log, hasContract, source)
      ensures GetLogs(before + result, source, start + 1, to) == Seen(log, source, start + 1, to)
    {
      SourceCompletes(log, hasContract, start, before, committed, to, source);
    }
  }

  lemma SourceCompletes(log: seq<Event>, hasContract: bool, start: int, before: seq<Event>, committed: int, to: int, source: Source)
    requires WellFormed(log, start) && Follows(log, before, committed) && ListensTo(log, hasContract, source)
    requires start <= committed <= to && forall e :: e in before ==> e.HeadBlock? || e.block <= committed
    requires GetLogs(before, source, start + 1, committed) == Seen(log, source, start + 1, committed)
    ensures GetLogs(before + QueryResult(log, Created(before), hasContract, committed + 1, to), source, start + 1, to)
            == Seen(log, source, start + 1, to)
  {
    var from, known := committed + 1, Created(before);
    GetLogsConcat(before, QueryResult(log, known, hasContract, from, to), source, start + 1, to);
    WiderRange(before, source, start + 1, committed, to);
    ResultDelivers(log, hasContract, start, known, from, to, source, start + 1, to);
    SeenSplit(log, source, start + 1, committed, to);
  }

  lemma ResultDelivers(log: seq<Event>, hasContract: bool, start: int, known: set<Address>, from: int, to: int,
                       source: Source, lo: int, hi: int)
    requires WellFormed(log, start) && Knows(log, known, from - 1) && ListensTo(log, hasContract, source)
    requires from <= to + 1 && lo <= from && to <= hi
    ensures GetLogs(QueryResult(log, known, hasContract, from, to), source, lo, hi) == Seen(log, source, from, to)
  {
    ContractOnlyAdds(log, known, hasContract, from, to, source, lo, hi);
    if from <= to {
      ChunkDelivers(log, start, known, from, to, source, lo, hi);
    } else {
      EmptyRange(log, source, from, to);
    }
  }

  lemma {:induction false} EmptyRange(log: seq<Event>, source: Source, from: int, to: int)
    requires to < from
    ensures GetLogs(log, source, from, to) == []
  {
    if log != [] {
      EmptyRange(log[1..], source, from, to);
    }
  }

  lemma SeenSplit(log: seq<Event>, source: Source, from: int, mid: int, to: int)
    requires Sorted(log) && from <= mid + 1 && mid <= to
    ensures Seen(log, source, from, to) == Seen(log, source, from, mid) + Seen(log, source, mid + 1, to)
  {
    GetLogsSplit(log, source, from, mid, to);
    ParsedConcat(GetLogs(log, source, from, mid), GetLogs(log, source, mid + 1, to));
  }

  /**
   Exactly-once delivery. After any run of fast, normal, slow and timed-out queries, the events
   delivered from each source are the ones it logged from the start to the cursor, each once and in order.
   */
  lemma {:induction false} DeliveredExactlyOnce(log: seq<Event>, hasContract: bool, start: int, cursors: seq<Cursor>,
                                                queries: seq<Query>, n: nat)
    requires WellFormed(log, start) && IsSyncRun(cursors, queries) && cursors[0].committed == start && n <= |queries|
    ensures Complete(log, hasContract, start, Delivered(log, hasContract, {}, cursors, queries, n), cursors[n].committed)
  {
    if n == 0 {
      NothingDelivered(log, hasContract, start);
    } else {
      DeliveredExactlyOnce(log, hasContract, start, cursors, queries, n - 1);
      assert cursors[n] == Advance(cursors[n - 1], queries[n - 1]);
      QueryCompletes(log, hasContract, start, Delivered(log, hasContract, {}, cursors, queries, n - 1), cursors[n - 1], queries[n - 1]);
    }
  }

  lemma NothingDelivered(log: seq<Event>, hasContract: bool, start: int)
    ensures Complete(log, hasContract, start, [], start)
  {
    forall source | IsSource(log, source)
      ensures GetLogs(log, source, start + 1, start) == []
    {
      NoneMatch(log, source, start + 1, start);
    }
  }

  lemma QueryCompletes(log: seq<Event>, hasContract: bool, start: int, before: seq<Event>, c: Cursor, q: Query)
    requires WellFormed(log, start) && Complete(log, hasContract, start, before, c.committed)
    ensures Complete(log, hasContract, start, before + Answer(log, hasContract, {}, before, c, q), Advance(c, q).committed)
  {
    AnswerIsResult(log, hasContract, before, c, q);
    ResultCompletes(log, hasContract, start, before, c.committed, Advance(c, q).committed);
  }

  /** A query that times out commits nothing, and there is nothing in an empty range. */
  lemma AnswerIsResult(log: seq<Event>, hasContract: bool, before: seq<Event>, c: Cursor, q: Query)
    ensures c.committed <= Advance(c, q).committed
    ensures Answer(log, hasContract, {}, before, c, q)
            == QueryResult(log, Created(before), hasContract, c.committed + 1, Advance(c, q).committed)
  {
    assert {} + Created(before) == Created(before);
  }

  /** Asking for later blocks, too, makes no difference if there is nothing in them. */
  lemma {:induction false} WiderRange(events: seq<Event>, source: Source, from: int, mid: int, to: int)
    requires mid <= to && forall e :: e in events ==> e.HeadBlock? || e.block <= mid
    ensures GetLogs(events, source, from, to) == GetLogs(events, source, from, mid)
  {
    if events != [] {
      assert events[0] in events;
      WiderRange(events[1..], source, from, mid, to);
    }
  }

  // ---------------------------------------------------------------- committed ranges and progress

  datatype BlockRange = BlockRange(from: int, to: int)

  /** The block ranges committed by the first n queries. */
  function Committed(cursors: seq<Cursor>, queries: seq<Query>, n: nat): seq<BlockRange>
    requires n <= |queries| <= |cursors|
  {
    if n == 0 then []
    else
      var c, q := cursors[n - 1], queries[n - 1];
      Committed(cursors, queries, n - 1)
      + if q.speed.TimedOut? || RangeEnd(c, q.head) <= c.committed then []
        else [BlockRange(c.committed + 1, RangeEnd(c, q.head))]
  }

  /** The ranges tile the blocks from..to without gap or overlap. */
  ghost predicate Tiles(ranges: seq<BlockRange>, from: int, to: int) {
    && (forall i :: 0 <= i < |ranges| ==> ranges[i].from <= ranges[i].to)
    && (forall i, j :: 0 <= i < |ranges| && 0 <= j < |ranges| && j == i + 1 ==> ranges[j].from == ranges[i].to + 1)
    && if ranges == [] then to == from - 1 else ranges[0].from == from && ranges[|ranges| - 1].to == to
  }

  /** The i-th query was given a head that the range does not go beyond. */
  ghost predicate WithinHead(cursors: seq<Cursor>, queries: seq<Query>, i: int, r: BlockRange) {
    0 <= i < |queries| <= |cursors| && r.from == cursors[i].committed + 1 && r.to <= queries[i].head
  }

  /** Committed ranges are contiguous and disjoint, and none goes beyond the head its query was given. */
  lemma CommittedRangesTile(cursors: seq<Cursor>, queries: seq<Query>, n: nat)
    requires IsSyncRun(cursors, queries) && n <= |queries|
    ensures Tiles(Committed(cursors, queries, n), cursors[0].committed + 1, cursors[n].committed)
    ensures forall r :: r in Committed(cursors, queries, n) ==> exists i :: WithinHead(cursors, queries, i, r)
  {
    RangesTile(cursors, queries, n);
    RangesWithinHeads(cursors, queries, n);
  }

  lemma {:induction false} RangesTile(cursors: seq<Cursor>, queries: seq<Query>, n: nat)
    requires IsSyncRun(cursors, queries) && n <= |queries|
    ensures Tiles(Committed(cursors, queries, n), cursors[0].committed + 1, cursors[n].committed)
  {
    if n != 0 {
      RangesTile(cursors, queries, n - 1);
      NextRange(cursors, queries, n - 1);
      NextTiles(Committed(cursors, queries, n - 1), Committed(cursors, queries, n),
                cursors[0].committed + 1, cursors[n - 1].committed, cursors[n].committed);
    }
  }

  lemma {:induction false} RangesWithinHeads(cursors: seq<Cursor>, queries: seq<Query>, n: nat)
    requires IsSyncRun(cursors, queries) && n <= |queries|
    ensures forall r :: r in Committed(cursors, queries, n) ==> exists i :: WithinHead(cursors, queries, i, r)
  {
    if n != 0 {
      RangesWithinHeads(cursors, queries, n - 1);
      NextRange(cursors, queries, n - 1);
      var before, all := Committed(cursors, queries, n - 1), Committed(cursors, queries, n);
      if |all| != |before| {
        assert all == before + [all[|before|]];
        assert forall r :: r in all ==> r in before || r == all[|before|];
      }
    }
  }

  /** Nothing was added and the cursor stayed, or one range leads from the old cursor to the new one. */
  ghost predicate AtMostOneMore(before: seq<BlockRange>, all: seq<BlockRange>, cursor: int, next: int) {
    if |all| == |before| then all == before && next == cursor
    else |all| == |before| + 1 && all[..|before|] == before && all[|before|].from == cursor + 1 <= all[|before|].to == next
  }

  lemma NextTiles(before: seq<BlockRange>, all: seq<BlockRange>, from: int, cursor: int, next: int)
    requires Tiles(before, from, cursor) && AtMostOneMore(before, all, cursor, next)
    ensures Tiles(all, from, next)
  {
    if |all| != |before| {
      assert forall i :: 0 <= i < |before| ==> all[i] == before[i];
    }
  }

  /** A query commits at most one more range, right behind the cursor and within its head. */
  lemma NextRange(cursors: seq<Cursor>, queries: seq<Query>, i: nat)
    requires IsSyncRun(cursors, queries) && i < |queries|
    ensures var before, all := Committed(cursors, queries, i), Committed(cursors, queries, i + 1);
            && AtMostOneMore(before, all, cursors[i].committed, cursors[i + 1].committed)
            && (|all| != |before| ==> WithinHead(cursors, queries, i, all[|before|]))
  {
    assert cursors[i + 1] == Advance(cursors[i], queries[i]);
    assert Committed(cursors, queries, i) + [] == Committed(cursors, queries, i);
  }

  /** How many of the first n queries the node answered in time. */
  function Answered(queries: seq<Query>, n: nat): nat
    requires n <= |queries|
  {
    if n == 0 then 0 else Answered(queries, n - 1) + if queries[n - 1].speed.TimedOut? then 0 else 1
  }

  /** The gap to a fixed head closes after half as many answered queries as it has blocks, however slow the node is. */
  lemma {:induction false} GapCloses(cursors: seq<Cursor>, queries: seq<Query>, n: nat, head: int)
    requires IsSyncRun(cursors, queries) && IntervalInBounds(cursors[0]) && cursors[0].committed <= head
    requires n <= |queries| && forall q :: q in queries ==> q.head == head
    ensures cursors[n].committed <= head
    ensures Min(head, cursors[0].committed + 2 * Answered(queries, n)) <= cursors[n].committed
  {
    if n != 0 {
      assert queries[n - 1] in queries;
      GapCloses(cursors, queries, n - 1, head);
      IntervalsInBounds(cursors, queries, n - 1);
      assert cursors[n] == Advance(cursors[n - 1], queries[n - 1]);
    }
  }

  /** The blocks that the first n queries ask for: the interval of every query that is answered. */
  function AskedFor(cursors: seq<Cursor>, queries: seq<Query>, n: nat): int
    requires n <= |queries| <= |cursors|
  {
    if n == 0 then 0
    else AskedFor(cursors, queries, n - 1) + if queries[n - 1].speed.TimedOut? then 0 else cursors[n - 1].interval
  }

  /** To a fixed head, the cursor advances by exactly the intervals of the answered queries, until it is there. */
  lemma {:induction false} CursorFollowsIntervals(cursors: seq<Cursor>, queries: seq<Query>, n: nat, head: int)
    requires IsSyncRun(cursors, queries) && IntervalInBounds(cursors[0]) && cursors[0].committed <= head
    requires n <= |queries| && forall q :: q in queries ==> q.head == head
    ensures cursors[n].committed == Min(head, cursors[0].committed + AskedFor(cursors, queries, n))
  {
    if n != 0 {
      assert queries[n - 1] in queries;
      CursorFollowsIntervals(cursors, queries, n - 1, head);
      IntervalsInBounds(cursors, queries, n - 1);
      assert cursors[n] == Advance(cursors[n - 1], queries[n - 1]);
    }
  }

  function Power(base: nat, n: nat): nat {
    if n == 0 then 1 else Power(base, n - 1) * base
  }

  /** What an interval becomes by n queries of the same speed, in one step. */
  function IntervalAfter(interval: nat, speed: Speed, n: nat): int {
    match speed
    case Fast => Min(100_000, interval * Power(2, n))
    case Normal => interval
    case Slow => Max(2, Quotient(interval, Power(2, n)))
    case TimedOut => Max(2, Quotient(interval, Power(5, n)))
  }

  function Quotient(x: nat, d: nat): nat {
    if d == 0 then 0 else x / d
  }

  lemma {:induction false} PowerIsPositive(base: nat, n: nat)
    requires base > 0
    ensures Power(base, n) > 0
  {
    if n > 0 {
      PowerIsPositive(base, n - 1);
    }
  }

  lemma QuotientOfQuotient(x: nat, p: nat, d: nat)
    requires p > 0 && d > 0
    ensures p * d > 0 && Quotient(Quotient(x, p), d) == Quotient(x, p * d)
  {
    var q := Quotient(x, p);
    var s := Quotient(q, d);
    var r := RestOf(x, p);
    var t := RestOf(q, d);
    NestedQuotient(x, p, d, q, r, s, t);
  }

  lemma RestOf(x: nat, d: nat) returns (r: nat)
    requires d > 0
    ensures x == d * Quotient(x, d) + r && r < d
  {
    r := x % d;
  }

  lemma NestedQuotient(x: nat, p: nat, d: nat, q: nat, r: nat, s: nat, t: nat)
    requires x == p * q + r && r < p && q == d * s + t && t < d
    ensures p * d > 0 && Quotient(x, p * d) == s
  {
    Regroup(p, d, s, t);
    SmallRest(p, d, t, r);
    var m := p * d;
    assert x == m * s + (p * t + r);
    DivisionIsUnique(x, m, s, p * t + r);
  }

  lemma Regroup(p: nat, d: nat, s: nat, t: nat)
    ensures p * (d * s + t) == (p * d) * s + p * t
  {
  }

  lemma SmallRest(p: nat, d: nat, t: nat, r: nat)
    requires r < p && t < d
    ensures 0 <= p * t + r < p * d
  {
    assert p * (t + 1) <= p * d;
  }

  /**
   Queries of one speed: fast ones double the interval up to its upper bound, slow ones halve it and timeouts cut it to
   a fifth down to its lower bound, and others leave it.
   */
  lemma {:induction false} IntervalsAdapt(cursors: seq<Cursor>, queries: seq<Query>, n: nat, speed: Speed)
    requires IsSyncRun(cursors, queries) && IntervalInBounds(cursors[0]) && n <= |queries|
    requires forall i :: 0 <= i < n ==> queries[i].speed == speed
    ensures cursors[n].interval == IntervalAfter(cursors[0].interval, speed, n)
  {
    if n != 0 {
      IntervalsAdapt(cursors, queries, n - 1, speed);
      assert cursors[n] == Advance(cursors[n - 1], queries[n - 1]);
      NextAdapts(cursors[0].interval, speed, n - 1);
    }
  }

  lemma NextAdapts(interval: nat, speed: Speed, n: nat)
    requires MIN_FILTER_INTERVAL <= interval <= MAX_FILTER_INTERVAL
    ensures NextInterval(IntervalAfter(interval, speed, n), speed) == IntervalAfter(interval, speed, n + 1)
  {
    match speed
    case Fast =>
      assert interval * (Power(2, n) * 2) == interval * Power(2, n) * 2;
    case Slow =>
      PowerIsPositive(2, n);
      QuotientOfQuotient(interval, Power(2, n), 2);
    case TimedOut =>
      PowerIsPositive(5, n);
      QuotientOfQuotient(interval, Power(5, n), 5);
    case Normal =>
  }
}
