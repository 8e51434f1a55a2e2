/**
 Which channels the pathfinding service knows, and between whom, in every run with any crashes. A replay opens and
 removes channels out of turn: it may open one whose pair is held by a later channel, and remove one that is gone.
 Messages change none of this. A handler writes one table row, and only the table survives, so that a crash inside
 a handler is a crash before or after it.
 */
module PfsRecovery {
  import opened Common
  import opened ChainLog
  import M = PfsModel
  import A = PfsAgreement

  type Pair = (Address, Address)

  type Channels = map<ChannelKey, Pair>

  type Edge = (Address, Pair)

  /**
   The identifiers and the edges of all networks, each edge with the channel its two views look at, the channel
   table, and whether a handler has raised an exception.
   */
  datatype State = State(index: Channels, edges: map<Edge, ChannelKey>, rows: Channels, failed: bool)

  /** Participants in ascending order. */
  function Participants(e: Event): Pair
    requires e.ChannelOpened?
  {
    (Min(e.participant1, e.participant2), Max(e.participant1, e.participant2))
  }

  predicate Removes(e: Event) {
    e.ChannelClosed? || e.ChannelSettled?
  }

  function EdgeOf(rows: Channels, key: ChannelKey): Edge
    requires key in rows
  {
    (key.network, rows[key])
  }

  // ---------------------------------------------------------------- the handlers

  /** Insert-or-replace: the participant pair is unique in its network. */
  function Upserted(rows: Channels, key: ChannelKey, pair: Pair): Channels {
    (map k | k in rows && !(k != key && k.network == key.network && rows[k] == pair) :: rows[k])[key := pair]
  }

  /** The row goes first; then an identifier that is not indexed or an edge that is not there raises an exception. */
  function HandleRemoved(s: State, key: ChannelKey): State {
    if key !in s.rows then s
    else
      var t := s.(rows := s.rows - {key});
      if key !in s.index then t.(failed := true)
      else
        var edge := (key.network, s.index[key]);
        var u := t.(index := s.index - {key});
        if edge !in s.edges then u.(failed := true) else u.(edges := s.edges - {edge})
  }

  function HandleOpened(s: State, key: ChannelKey, pair: Pair): State {
    s.(index := s.index[key := pair], edges := s.edges[(key.network, pair) := key], rows := Upserted(s.rows, key, pair))
  }

  function Handle(s: State, e: Event): State {
    if e.ChannelOpened? then HandleOpened(s, e.key, Participants(e))
    else if Removes(e) then HandleRemoved(s, e.key)
    else s
  }

  function HandleAll(s: State, events: seq<Event>): State
    decreases |events|
  {
    if events == [] then s else HandleAll(Handle(s, events[0]), events[1..])
  }

  /** Every row has its edge, and every edge looks at the channel of a row. */
  ghost predicate EdgesAreRows(edges: map<Edge, ChannelKey>, rows: Channels) {
    && (forall k :: k in rows ==> EdgeOf(rows, k) in edges && edges[EdgeOf(rows, k)] == k)
    && (forall e :: e in edges ==> edges[e] in rows && EdgeOf(rows, edges[e]) == e)
  }

  /** After a crash the memory is loaded from the table. */
  ghost predicate IsReloaded(s: State, t: State) {
    t.rows == s.rows && t.index == s.rows && EdgesAreRows(t.edges, t.rows) && t.failed == s.failed
  }

  // ---------------------------------------------------------------- runs

  datatype Service = Service(state: State, cursor: int)

  /** A block range is handled to its end, or only some of its entries before a crash. */
  datatype Step = Sync(to: int) | Crash(to: int, count: nat)

  /** The token network entries of a range; every network is heard, as ChainLog.AllNetworksHeard says. */
  function Entries(log: seq<Event>, from: int, to: int): seq<Event> {
    if from > to then [] else GetLogs(log, Networks(Created(log)), from, to)
  }

  predicate Enabled(log: seq<Event>, a: Service, step: Step) {
    step.Crash? ==> step.count <= |Entries(log, a.cursor + 1, step.to)|
  }

  function Handled(log: seq<Event>, a: Service, step: Step): seq<Event>
    requires Enabled(log, a, step)
  {
    var entries := Entries(log, a.cursor + 1, step.to);
    if step.Crash? then entries[..step.count] else entries
  }

  ghost predicate Next(log: seq<Event>, a: Service, step: Step, b: Service) {
    && Enabled(log, a, step)
    && var s := HandleAll(a.state, Handled(log, a, step));
       match step
       case Sync(to) => b == Service(s, Max(a.cursor, to))
       case Crash(_, _) => b.cursor == a.cursor && IsReloaded(s, b.state)
  }

  function InitialService(start: int): Service {
    Service(State(map[], map[], map[], false), start)
  }

  ghost predicate IsRun(log: seq<Event>, start: int, steps: seq<Step>, trace: seq<Service>) {
    && |trace| == |steps| + 1
    && trace[0] == InitialService(start)
    && forall i {:trigger steps[i]} :: 0 <= i < |steps| ==> Next(log, trace[i], steps[i], trace[i + 1])
  }

  /** What the chain guarantees: two participants have one channel at a time, and a channel has two participants. */
  ghost predicate PairsExclusive(log: seq<Event>) {
    && (forall e :: e in log && e.ChannelOpened? ==> e.participant1 != e.participant2)
    && forall i, j :: 0 <= i < j < |log| && log[i].ChannelOpened? && log[j].ChannelOpened?
                      && log[i].key.network == log[j].key.network && Participants(log[i]) == Participants(log[j]) ==>
         exists m :: i < m < j && Removes(log[m]) && log[m].key == log[i].key
  }

  // ---------------------------------------------------------------- in every state, also within a replay

  /** Rows are indexed, the edges are exactly those of the rows, and the rows name the pairs of the log. */
  ghost predicate Sound(log: seq<Event>, s: State) {
    && (forall k :: k in s.rows ==> k in s.index && s.index[k] == s.rows[k])
    && (forall k :: k in s.index ==> Names(log, k, s.index[k]))
    && EdgesAreRows(s.edges, s.rows)
    && !s.failed
  }

  ghost predicate Names(log: seq<Event>, k: ChannelKey, pair: Pair) {
    forall e :: e in log && e.ChannelOpened? && e.key == k ==> Participants(e) == pair
  }

  lemma OpeningNames(log: seq<Event>, start: int, e: Event)
    requires WellFormed(log, start) && e in log && e.ChannelOpened?
    ensures Names(log, e.key, Participants(e))
  {
    var i :| 0 <= i < |log| && log[i] == e;
    forall f | f in log && f.ChannelOpened? && f.key == e.key
      ensures f == e
    {
      var j :| 0 <= j < |log| && log[j] == f;
      assert About(log[j], log[i].key);
    }
  }

  /** Whatever entry is handled in whatever state, edges stay those of the rows and nothing raises. */
  lemma HandleSound(log: seq<Event>, start: int, s: State, e: Event)
    requires WellFormed(log, start) && Sound(log, s) && e in log
    ensures Sound(log, Handle(s, e))
  {
    if e.ChannelOpened? {
      OpeningNames(log, start, e);
      assert e.key in s.rows ==> s.rows[e.key] == Participants(e);
      OpeningKeepsEdges(s, e.key, Participants(e));
    } else if Removes(e) && e.key in s.rows {
      assert EdgeOf(s.rows, e.key) in s.edges;
    }
  }

  lemma OpeningKeepsEdges(s: State, key: ChannelKey, pair: Pair)
    requires EdgesAreRows(s.edges, s.rows) && (key in s.rows ==> s.rows[key] == pair)
    ensures EdgesAreRows(HandleOpened(s, key, pair).edges, HandleOpened(s, key, pair).rows)
  {
    var t := HandleOpened(s, key, pair);
    forall e | e in t.edges
      ensures t.edges[e] in t.rows && EdgeOf(t.rows, t.edges[e]) == e
    {
      if e != (key.network, pair) {
        assert e in s.edges && s.edges[e] in s.rows && EdgeOf(s.rows, s.edges[e]) == e;
      }
    }
    forall k | k in t.rows && k != key
      ensures EdgeOf(t.rows, k) in t.edges && t.edges[EdgeOf(t.rows, k)] == k
    {
      assert EdgeOf(s.rows, k) in s.edges && EdgeOf(s.rows, k) != (key.network, pair);
    }
  }

  lemma {:induction false} AllSound(log: seq<Event>, start: int, s: State, events: seq<Event>)
    requires WellFormed(log, start) && Sound(log, s) && forall e :: e in events ==> e in log
    ensures Sound(log, HandleAll(s, events))
    decreases |events|
  {
    if events != [] {
      assert events[0] in events;
      HandleSound(log, start, s, events[0]);
      AllSound(log, start, Handle(s, events[0]), events[1..]);
    }
  }

  lemma HandledInLog(log: seq<Event>, a: Service, step: Step)
    requires Enabled(log, a, step)
    ensures forall e :: e in Handled(log, a, step) ==> e in log
  {
    GetLogsMembers(log, Networks(Created(log)), a.cursor + 1, step.to);
    assert forall e :: e in Handled(log, a, step) ==> e in Entries(log, a.cursor + 1, step.to);
  }

  lemma StepSound(log: seq<Event>, start: int, a: Service, step: Step, b: Service)
    requires WellFormed(log, start) && Sound(log, a.state) && Next(log, a, step, b)
    ensures Sound(log, b.state)
  {
    HandledInLog(log, a, step);
    AllSound(log, start, a.state, Handled(log, a, step));
  }

  /** In every state of every run, also within a replay: rows are indexed, edges are those of the rows, nothing has raised. */
  lemma {:induction false} AlwaysSound(log: seq<Event>, start: int, steps: seq<Step>, trace: seq<Service>, n: nat)
    requires WellFormed(log, start) && IsRun(log, start, steps, trace) && n <= |steps|
    ensures Sound(log, trace[n].state)
  {
    if n != 0 {
      AlwaysSound(log, start, steps, trace, n - 1);
      StepSound(log, start, trace[n - 1], steps[n - 1], trace[n]);
    }
  }

  // ---------------------------------------------------------------- one channel

  /** Whether a channel is in the table and in the index. */
  datatype Cell = Cell(stored: bool, indexed: bool)

  function CellOf(s: State, k: ChannelKey): Cell {
    Cell(k in s.rows, k in s.index)
  }

  /** What an entry does to the channel k between pair: a channel that takes over the pair displaces its row only. */
  function Observe(c: Cell, e: Event, k: ChannelKey, pair: Pair): Cell {
    if e.ChannelOpened? then
      if e.key == k then Cell(true, true)
      else if e.key.network == k.network && Participants(e) == pair then c.(stored := false)
      else c
    else if Removes(e) && e.key == k && c.stored then Cell(false, false)
    else c
  }

  function Replay(c: Cell, events: seq<Event>, k: ChannelKey, pair: Pair): Cell
    decreases |events|
  {
    if events == [] then c else Replay(Observe(c, events[0], k, pair), events[1..], k, pair)
  }

  lemma HandleObserved(log: seq<Event>, s: State, e: Event, k: ChannelKey, pair: Pair)
    requires Sound(log, s) && e in log && Names(log, k, pair) && (k in s.index ==> s.index[k] == pair)
    ensures var t := Handle(s, e); CellOf(t, k) == Observe(CellOf(s, k), e, k, pair) && (k in t.index ==> t.index[k] == pair)
  {
  }

  lemma {:induction false} AllObserved(log: seq<Event>, start: int, s: State, events: seq<Event>, k: ChannelKey, pair: Pair)
    requires WellFormed(log, start) && Sound(log, s) && (forall e :: e in events ==> e in log)
    requires Names(log, k, pair) && (k in s.index ==> s.index[k] == pair)
    ensures var t := HandleAll(s, events);
            CellOf(t, k) == Replay(CellOf(s, k), events, k, pair) && (k in t.index ==> t.index[k] == pair)
    decreases |events|
  {
    if events != [] {
      assert events[0] in events;
      HandleSound(log, start, s, events[0]);
      HandleObserved(log, s, events[0], k, pair);
      AllObserved(log, start, Handle(s, events[0]), events[1..], k, pair);
    }
  }

  lemma {:induction false} ReplayConcat(c: Cell, a: seq<Event>, b: seq<Event>, k: ChannelKey, pair: Pair)
    ensures Replay(c, a + b, k, pair) == Replay(Replay(c, a, k, pair), b, k, pair)
    decreases |a|
  {
    if a == [] {
      assert a + b == b;
    } else {
      assert (a + b)[1..] == a[1..] + b;
      ReplayConcat(Observe(c, a[0], k, pair), a[1..], b, k, pair);
    }
  }

  // ---------------------------------------------------------------- a replay is absorbed

  ghost predicate Opens(events: seq<Event>, k: ChannelKey) {
    exists e :: e in events && e.ChannelOpened? && e.key == k
  }

  /** After an opening it does not matter what was known before. */
  lemma {:induction false} OpeningDecides(c: Cell, d: Cell, events: seq<Event>, k: ChannelKey, pair: Pair)
    requires Opens(events, k)
    ensures Replay(c, events, k, pair) == Replay(d, events, k, pair)
    decreases |events|
  {
    if !(events[0].ChannelOpened? && events[0].key == k) {
      OpeningDecides(Observe(c, events[0], k, pair), Observe(d, events[0], k, pair), events[1..], k, pair);
    }
  }

  /** Without an opening nothing is stored that was not, and an absent row stays as it is. */
  lemma {:induction false} NoOpening(c: Cell, events: seq<Event>, k: ChannelKey, pair: Pair)
    requires !Opens(events, k) && (c.stored ==> c.indexed)
    ensures !c.stored ==> Replay(c, events, k, pair) == c
    ensures Replay(c, events, k, pair).stored ==> Replay(c, events, k, pair) == c
    decreases |events|
  {
    if events != [] {
      assert events[0] in events;
      assert !Opens(events[1..], k) by {
        assert forall e :: e in events[1..] ==> e in events;
      }
      NoOpening(Observe(c, events[0], k, pair), events[1..], k, pair);
    }
  }

  /** If the channel ends in both table and index or in neither, a restart on the way makes no difference. */
  lemma RestartAbsorbed(c: Cell, done: seq<Event>, rest: seq<Event>, k: ChannelKey, pair: Pair)
    requires c.stored ==> c.indexed
    requires var end := Replay(c, done + rest, k, pair); end.stored == end.indexed
    ensures var row := Replay(c, done, k, pair).stored;
            Replay(Cell(row, row), done + rest, k, pair) == Replay(c, done + rest, k, pair)
  {
    var mid := Replay(c, done, k, pair);
    if Opens(done + rest, k) {
      OpeningDecides(Cell(mid.stored, mid.stored), c, done + rest, k, pair);
    } else {
      assert !Opens(done, k) && !Opens(rest, k) by {
        assert forall e :: e in done || e in rest ==> e in done + rest;
      }
      ReplayConcat(c, done, rest, k, pair);
      NoOpening(c, done, k, pair);
      if !mid.stored {
        NoOpening(mid, rest, k, pair);
        NoOpening(Cell(false, false), done + rest, k, pair);
      }
    }
  }

  // ---------------------------------------------------------------- the undisturbed channels

  /** Opened and not removed by the entries up to a block. */
  ghost predicate IsLive(log: seq<Event>, block: int, k: ChannelKey) {
    && (exists e :: e in log && e.block <= block && e.ChannelOpened? && e.key == k)
    && forall e :: e in log && e.block <= block && Removes(e) ==> e.key != k
  }

  function Undisturbed(log: seq<Event>, start: int, block: int, k: ChannelKey, pair: Pair): Cell {
    Replay(Cell(false, false), Entries(log, start + 1, block), k, pair)
  }

  lemma PrefixLive(log: seq<Event>, n: nat, block: int, k: ChannelKey)
    requires n < |log|
    ensures var live, after, e := IsLive(log[..n], block, k), IsLive(log[..n + 1], block, k), log[n];
            if !HasKey(e) || e.key != k || block < e.block then after == live
            else if e.ChannelOpened? then
              after == forall r :: r in log[..n] && r.block <= block && Removes(r) ==> r.key != k
            else after == (live && !Removes(e))
  {
    var before, e := log[..n], log[n];
    assert log[..n + 1] == before + [e];
    assert e in log[..n + 1] && forall r :: r in log[..n + 1] <==> r in before || r == e;
  }

  /** Nobody takes over the pair of a live channel. */
  lemma LivePairIsTaken(log: seq<Event>, start: int, n: nat, block: int, k: ChannelKey)
    requires WellFormed(log, start) && PairsExclusive(log) && n < |log| && log[n].ChannelOpened? && log[n].block <= block
    requires log[n].key.network == k.network && log[n].key != k && Names(log, k, Participants(log[n]))
    ensures !IsLive(log[..n], block, k)
  {
    if e :| e in log[..n] && e.ChannelOpened? && e.key == k {
      var i :| 0 <= i < n && log[i] == e;
      assert e in log && Participants(e) == Participants(log[n]);
      var m :| i < m < n && Removes(log[m]) && log[m].key == log[i].key;
      assert log[m] in log[..n] && log[m].block <= log[n].block;
    }
  }

  lemma NextEntry(log: seq<Event>, start: int, n: nat, block: int, k: ChannelKey, pair: Pair)
    requires WellFormed(log, start) && PairsExclusive(log) && n < |log| && Names(log, k, pair) && log[n].block <= block
    ensures var live, after := IsLive(log[..n], block, k), IsLive(log[..n + 1], block, k);
            Observe(Cell(live, live), log[n], k, pair) == Cell(after, after)
  {
    var e := log[n];
    PrefixLive(log, n, block, k);
    if e.ChannelOpened? && e.key == k {
      forall r | r in log[..n] && Removes(r)
        ensures r.key != k
      {
        var m :| 0 <= m < n && log[m] == r;
        assert About(log[m], k) ==> n < m;
      }
    } else if e.ChannelOpened? && e.key.network == k.network && Participants(e) == pair {
      LivePairIsTaken(log, start, n, block, k);
    }
  }

  lemma OneMoreLog(log: seq<Event>, n: nat, source: Source, from: int, to: int)
    requires n < |log|
    ensures GetLogs(log[..n + 1], source, from, to)
            == GetLogs(log[..n], source, from, to) + (if Matches(source, from, to, log[n]) then [log[n]] else [])
  {
    assert log[..n + 1] == log[..n] + [log[n]];
    GetLogsConcat(log[..n], [log[n]], source, from, to);
    assert GetLogs([log[n]][1..], source, from, to) == [];
  }

  lemma OneMoreReplayed(log: seq<Event>, n: nat, source: Source, from: int, to: int, c: Cell, k: ChannelKey, pair: Pair)
    requires n < |log|
    ensures var before := Replay(c, GetLogs(log[..n], source, from, to), k, pair);
            Replay(c, GetLogs(log[..n + 1], source, from, to), k, pair)
            == if Matches(source, from, to, log[n]) then Observe(before, log[n], k, pair) else before
  {
    var logs := GetLogs(log[..n], source, from, to);
    OneMoreLog(log, n, source, from, to);
    if Matches(source, from, to, log[n]) {
      ReplayConcat(c, logs, [log[n]], k, pair);
    } else {
      assert logs + [] == logs;
    }
  }

  lemma {:induction false} PrefixReplayed(log: seq<Event>, start: int, n: nat, block: int, k: ChannelKey, pair: Pair)
    requires WellFormed(log, start) && PairsExclusive(log) && n <= |log| && Names(log, k, pair)
    ensures var live := IsLive(log[..n], block, k);
            Replay(Cell(false, false), GetLogs(log[..n], Networks(Created(log)), start + 1, block), k, pair) == Cell(live, live)
  {
    if n == 0 {
      assert GetLogs(log[..0], Networks(Created(log)), start + 1, block) == [];
    } else {
      PrefixReplayed(log, start, n - 1, block, k, pair);
      OneMoreReplayed(log, n - 1, Networks(Created(log)), start + 1, block, Cell(false, false), k, pair);
      if Matches(Networks(Created(log)), start + 1, block, log[n - 1]) {
        NextEntry(log, start, n - 1, block, k, pair);
      } else {
        UnmatchedEntry(log, start, n - 1, block, k);
      }
    }
  }

  lemma UnmatchedEntry(log: seq<Event>, start: int, n: nat, block: int, k: ChannelKey)
    requires WellFormed(log, start) && n < |log| && !Matches(Networks(Created(log)), start + 1, block, log[n])
    ensures IsLive(log[..n + 1], block, k) == IsLive(log[..n], block, k)
  {
    PrefixLive(log, n, block, k);
    assert log[n] in log;
    assert FromNetwork(log[n]) ==> block < log[n].block;
  }

  /** An undisturbed service knows exactly the live channels. */
  lemma UndisturbedIsLive(log: seq<Event>, start: int, block: int, k: ChannelKey, pair: Pair)
    requires WellFormed(log, start) && PairsExclusive(log) && Names(log, k, pair)
    ensures var live := IsLive(log, block, k); Undisturbed(log, start, block, k, pair) == Cell(live, live)
  {
    PrefixReplayed(log, start, |log|, block, k, pair);
    assert log[..|log|] == log;
  }

  // ---------------------------------------------------------------- whole runs

  /** From a, handling the entries up to a block leads to the undisturbed channels. */
  ghost predicate Rejoins(log: seq<Event>, start: int, a: Service, block: int, k: ChannelKey, pair: Pair) {
    Replay(CellOf(a.state, k), Entries(log, a.cursor + 1, block), k, pair) == Undisturbed(log, start, block, k, pair)
  }

  ghost predicate Recoverable(log: seq<Event>, start: int, a: Service, high: int, k: ChannelKey, pair: Pair) {
    && Sound(log, a.state)
    && (k in a.state.index ==> a.state.index[k] == pair)
    && forall block :: high <= block && a.cursor <= block ==> Rejoins(log, start, a, block, k, pair)
  }

  lemma EntriesSplit(log: seq<Event>, from: int, to: int, block: int)
    requires Sorted(log) && to <= block && from - 1 <= block
    ensures Entries(log, from, block) == Entries(log, from, to) + Entries(log, Max(from - 1, to) + 1, block)
  {
    if from <= to {
      GetLogsSplit(log, Networks(Created(log)), from, to, block);
      if to == block {
        NothingBetween(log, Networks(Created(log)), block);
      }
    }
  }

  lemma {:induction false} NothingBetween(log: seq<Event>, source: Source, block: int)
    ensures GetLogs(log, source, block + 1, block) == []
  {
    if log != [] {
      NothingBetween(log[1..], source, block);
    }
  }

  /** What a step makes of one channel; a restart indexes what is stored. */
  lemma StepObserved(log: seq<Event>, start: int, a: Service, step: Step, b: Service, k: ChannelKey, pair: Pair)
    requires WellFormed(log, start) && Sound(log, a.state) && Next(log, a, step, b)
    requires Names(log, k, pair) && (k in a.state.index ==> a.state.index[k] == pair)
    ensures k in b.state.index ==> b.state.index[k] == pair
    ensures var c := Replay(CellOf(a.state, k), Handled(log, a, step), k, pair);
            CellOf(b.state, k) == if step.Crash? then Cell(c.stored, c.stored) else c
  {
    HandledInLog(log, a, step);
    AllSound(log, start, a.state, Handled(log, a, step));
    AllObserved(log, start, a.state, Handled(log, a, step), k, pair);
  }

  lemma RangeReplays(log: seq<Event>, c: Cell, from: int, to: int, block: int, k: ChannelKey, pair: Pair)
    requires Sorted(log) && to <= block && from - 1 <= block
    ensures Replay(Replay(c, Entries(log, from, to), k, pair), Entries(log, Max(from - 1, to) + 1, block), k, pair)
            == Replay(c, Entries(log, from, block), k, pair)
  {
    EntriesSplit(log, from, to, block);
    ReplayConcat(c, Entries(log, from, to), Entries(log, Max(from - 1, to) + 1, block), k, pair);
  }

  lemma RestartReplays(log: seq<Event>, start: int, c: Cell, from: int, to: int, count: nat, block: int,
                       k: ChannelKey, pair: Pair)
    requires WellFormed(log, start) && PairsExclusive(log) && Names(log, k, pair)
    requires to <= block && from - 1 <= block && count <= |Entries(log, from, to)| && (c.stored ==> c.indexed)
    requires Replay(c, Entries(log, from, block), k, pair) == Undisturbed(log, start, block, k, pair)
    ensures var row := Replay(c, Entries(log, from, to)[..count], k, pair).stored;
            Replay(Cell(row, row), Entries(log, from, block), k, pair) == Undisturbed(log, start, block, k, pair)
  {
    var all := Entries(log, from, block);
    EntriesSplit(log, from, to, block);
    assert all == all[..count] + all[count..] && all[..count] == Entries(log, from, to)[..count];
    UndisturbedIsLive(log, start, block, k, pair);
    RestartAbsorbed(c, all[..count], all[count..], k, pair);
  }

  lemma StepRejoins(log: seq<Event>, start: int, a: Service, step: Step, b: Service, block: int, k: ChannelKey, pair: Pair)
    requires WellFormed(log, start) && PairsExclusive(log) && Sound(log, a.state) && Next(log, a, step, b)
    requires Names(log, k, pair) && (k in a.state.index ==> a.state.index[k] == pair)
    requires step.to <= block && a.cursor <= block && Rejoins(log, start, a, block, k, pair)
    ensures Rejoins(log, start, b, block, k, pair)
  {
    var c, d := CellOf(a.state, k), CellOf(b.state, k);
    StepObserved(log, start, a, step, b, k, pair);
    if step.Sync? {
      assert d == Replay(c, Entries(log, a.cursor + 1, step.to), k, pair);
      RangeReplays(log, c, a.cursor + 1, step.to, block, k, pair);
    } else {
      var row := Replay(c, Entries(log, a.cursor + 1, step.to)[..step.count], k, pair).stored;
      assert d == Cell(row, row);
      RestartReplays(log, start, c, a.cursor + 1, step.to, step.count, block, k, pair);
    }
  }

  lemma StepKeepsRecoverable(log: seq<Event>, start: int, a: Service, step: Step, b: Service, high: int, k: ChannelKey, pair: Pair)
    requires WellFormed(log, start) && PairsExclusive(log) && Names(log, k, pair)
    requires Recoverable(log, start, a, high, k, pair) && Next(log, a, step, b) && (step.Crash? ==> step.to <= high)
    ensures Recoverable(log, start, b, high, k, pair)
  {
    StepSound(log, start, a, step, b);
    StepObserved(log, start, a, step, b, k, pair);
    forall block | high <= block && b.cursor <= block
      ensures Rejoins(log, start, b, block, k, pair)
    {
      StepRejoins(log, start, a, step, b, block, k, pair);
    }
  }

  lemma {:induction false} RunKeepsRecoverable(log: seq<Event>, start: int, steps: seq<Step>, trace: seq<Service>, n: nat,
                                               high: int, k: ChannelKey, pair: Pair)
    requires WellFormed(log, start) && PairsExclusive(log) && Names(log, k, pair)
    requires IsRun(log, start, steps, trace) && n <= |steps|
    requires forall i {:trigger steps[i]} :: 0 <= i < n && steps[i].Crash? ==> steps[i].to <= high
    ensures Recoverable(log, start, trace[n], high, k, pair)
  {
    if n != 0 {
      RunKeepsRecoverable(log, start, steps, trace, n - 1, high, k, pair);
      StepKeepsRecoverable(log, start, trace[n - 1], steps[n - 1], trace[n], high, k, pair);
    }
  }

  /**
   In every run, with any chunking and any crashes: once the cursor has passed every interrupted range, table and
   index hold exactly the live channels of the log between their participants, the edges are exactly theirs, and no
   handler has raised.
   */
  lemma ChannelsRecover(log: seq<Event>, start: int, steps: seq<Step>, trace: seq<Service>, n: nat)
    requires WellFormed(log, start) && PairsExclusive(log) && IsRun(log, start, steps, trace) && n <= |steps|
    requires forall i {:trigger steps[i]} :: 0 <= i < n && steps[i].Crash? ==> steps[i].to <= trace[n].cursor
    ensures var s := trace[n].state;
            && s.index == s.rows && EdgesAreRows(s.edges, s.rows) && !s.failed
            && (forall k :: k in s.rows <==> IsLive(log, trace[n].cursor, k))
            && (forall e :: e in log && e.ChannelOpened? && e.key in s.rows ==> s.rows[e.key] == Participants(e))
  {
    AlwaysSound(log, start, steps, trace, n);
    var s := trace[n].state;
    forall k
      ensures k in s.rows <==> IsLive(log, trace[n].cursor, k)
      ensures k in s.index <==> k in s.rows
    {
      ChannelRecovers(log, start, steps, trace, n, k);
    }
    assert s.index.Keys == s.rows.Keys;
  }

  /** The pair with which the log opens a channel, any pair if it does not. */
  ghost function PairOf(log: seq<Event>, k: ChannelKey): Pair {
    if e :| e in log && e.ChannelOpened? && e.key == k then Participants(e) else (0, 0)
  }

  lemma PairIsNamed(log: seq<Event>, start: int, k: ChannelKey)
    requires WellFormed(log, start)
    ensures Names(log, k, PairOf(log, k))
  {
    forall e | e in log && e.ChannelOpened? && e.key == k
      ensures Names(log, k, Participants(e))
    {
      OpeningNames(log, start, e);
    }
  }

  lemma ChannelRecovers(log: seq<Event>, start: int, steps: seq<Step>, trace: seq<Service>, n: nat, k: ChannelKey)
    requires WellFormed(log, start) && PairsExclusive(log) && IsRun(log, start, steps, trace) && n <= |steps|
    requires forall i {:trigger steps[i]} :: 0 <= i < n && steps[i].Crash? ==> steps[i].to <= trace[n].cursor
    ensures var live := IsLive(log, trace[n].cursor, k); CellOf(trace[n].state, k) == Cell(live, live)
  {
    var cursor := trace[n].cursor;
    var pair := PairOf(log, k);
    PairIsNamed(log, start, k);
    RunKeepsRecoverable(log, start, steps, trace, n, cursor, k, pair);
    UndisturbedIsLive(log, start, cursor, k, pair);
    assert Rejoins(log, start, trace[n], cursor, k, pair) && Entries(log, cursor + 1, cursor) == [];
  }

  // ---------------------------------------------------------------- the same handlers as in PfsModel

  function ChannelsOf(rows: map<ChannelKey, M.ChannelRow>): Channels {
    map k | k in rows :: (rows[k].participant1, rows[k].participant2)
  }

  /** s shows the channels of p. */
  ghost predicate Shows(p: M.Pfs, s: State) {
    s.index == ChannelsOf(p.live) && s.rows == ChannelsOf(p.rows) && EdgesAreRows(s.edges, s.rows) && !s.failed
  }

  /** Writing a row displaces the same rows here and in PfsModel, whatever the table holds. */
  lemma UpsertShown(rows: map<ChannelKey, M.ChannelRow>, key: ChannelKey, row: M.ChannelRow)
    ensures ChannelsOf(M.UpsertRow(rows, key, row)) == Upserted(ChannelsOf(rows), key, (row.participant1, row.participant2))
  {
    var shown, upserted := ChannelsOf(M.UpsertRow(rows, key, row)), Upserted(ChannelsOf(rows), key, (row.participant1, row.participant2));
    forall k
      ensures k in shown <==> k in upserted
      ensures k in shown ==> shown[k] == upserted[k]
    {
    }
  }

  lemma NothingDisplaced(live: map<ChannelKey, M.ChannelRow>, key: ChannelKey, row: M.ChannelRow)
    requires forall k :: k in live && k.network == key.network && M.SamePair(live[k], row) ==> k == key
    ensures var rows, pair := ChannelsOf(live), (row.participant1, row.participant2);
            Upserted(rows, key, pair) == rows[key := pair] == ChannelsOf(live[key := row])
  {
    var rows, pair := ChannelsOf(live), (row.participant1, row.participant2);
    forall k | k in rows && k != key && k.network == key.network
      ensures rows[k] != pair
    {
      assert !M.SamePair(live[k], row);
    }
    assert Upserted(rows, key, pair) == rows[key := pair];
  }

  lemma FreshRowShown(p: M.Pfs, key: ChannelKey, row: M.ChannelRow, s: State)
    requires p.live == p.rows && Shows(p, s)
    requires forall k :: k in p.live && k.network == key.network && M.SamePair(p.live[k], row) ==> k == key
    requires key in p.live ==> M.SamePair(p.live[key], row)
    ensures var stored := p.live[key := row];
            Shows(p.(live := stored, rows := stored), HandleOpened(s, key, (row.participant1, row.participant2)))
  {
    NothingDisplaced(p.live, key, row);
    OpeningKeepsEdges(s, key, (row.participant1, row.participant2));
  }

  lemma OpeningShown(p: M.Pfs, key: ChannelKey, a: Address, b: Address, now: int, s: State)
    requires A.Agrees(p) && M.Admissible(p, key, a, b) && key.network in p.networks && Shows(p, s)
    ensures Shows(M.HandleOpened(p, key, a, b, now).state, HandleOpened(s, key, (Min(a, b), Max(a, b))))
  {
    var row := M.FreshRow(a, b);
    FreshRowShown(p, key, row, s);
    A.StoredConsistent(p, key, row);
    A.WaitingSplit(p.waiting, key);
    MessagesShown(M.Stored(p, key, row), M.WaitingFor(p.waiting, key), key, now);
  }

  lemma {:induction false} MessagesShown(p: M.Pfs, ms: seq<M.Message>, key: ChannelKey, now: int)
    requires A.Consistent(p) && key in p.live && forall m :: m in ms ==> m.key == key && !M.SelfUpdate(m)
    ensures var h := M.HandleMessages(p, ms, now);
            ChannelsOf(h.state.live) == ChannelsOf(p.live) && ChannelsOf(h.state.rows) == ChannelsOf(p.rows)
    decreases |ms|
  {
    if ms != [] {
      assert ms[0] in ms;
      A.LiveMessage(p, ms[0], now);
      MessagesShown(M.HandleMessage(p, ms[0], now).state, ms[1..], key, now);
    }
  }

  /** A service whose memory and table agree handles every expected step as shown here; messages leave the channels alone. */
  lemma StepShown(p: M.Pfs, step: M.Step, s: State, block: int)
    requires A.Agrees(p) && M.Lawful(p, step) && Shows(p, s)
    requires step.Opened? || step.Removed? ==> step.key.network in p.networks
    ensures var t := match step
                     case Opened(key, a, b, _) => Handle(s, ChannelOpened(key, a, b, block))
                     case Removed(key) => Handle(s, ChannelSettled(key, block))
                     case _ => s;
            Shows(M.Exec(p, step), t)
  {
    match step
    case Opened(key, a, b, now) => OpeningShown(p, key, a, b, now, s);
    case Removed(key) => RemovalShown(p, key, s);
    case Received(m, now) => MessageShown(p, m, now, s);
    case _ =>
  }

  lemma MessageShown(p: M.Pfs, m: M.Message, now: int, s: State)
    requires A.Consistent(p) && Shows(p, s)
    ensures Shows(M.HandleMessage(p, m, now).state, s)
  {
    if m.key in p.live {
      A.LiveMessage(p, m, now);
    }
  }

  lemma RemovalShown(p: M.Pfs, key: ChannelKey, s: State)
    requires A.Agrees(p) && key.network in p.networks && Shows(p, s)
    ensures Shows(M.HandleRemoved(p, key), HandleRemoved(s, key))
  {
    if key in s.rows {
      var t := HandleRemoved(s, key);
      assert EdgeOf(s.rows, key) in s.edges;
      assert t.rows == ChannelsOf(p.rows - {key}) && t.index == ChannelsOf(p.live - {key});
    }
  }
}
