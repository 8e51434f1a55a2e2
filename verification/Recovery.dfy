/**
 Runs of the monitoring service, with and without crashes: the chain columns of every channel row
 are a function of the log and of the committed block alone.
 */
module Recovery {
  import opened Common
  import opened ChainLog
  import opened MonitoringModel
  import opened ChannelHistory

  /** Channel rows reference a row of the token network table. */
  ghost predicate ForeignKeys(s: State) {
    forall k :: k in s.channels ==> k.network in s.networks
  }

  /** Every opening in events is preceded by its network. */
  ghost predicate Announced(networks: set<Address>, events: seq<Event>)
    decreases |events|
  {
    events == []
    || (&& (events[0].ChannelOpened? ==> events[0].key.network in networks)
        && Announced(networks + Created([events[0]]), events[1..]))
  }

  /** What a handler does to the chain columns is what the fold over the events says. */
  lemma HandlerObserves(cfg: Config, s: State, e: Event, w: World, k: ChannelKey)
    requires ForeignKeys(s) && (e.ChannelOpened? ==> e.key.network in s.networks)
    ensures var t := Logged(HandleChainEvent(cfg, s, e, w));
            && ForeignKeys(t)
            && ViewOf(t, k) == Observe(ViewOf(s, k), e, k)
            && t.networks.Keys == s.networks.Keys + Created([e])
            && t.committed == (if e.HeadBlock? then e.block else s.committed)
  {
    HandlerKeepsTables(cfg, s, e, w);
    if About(e, k) {
      OwnEventObserved(cfg, s, e, w);
    } else {
      OtherEventObserved(cfg, s, e, w, k);
    }
  }

  lemma HandlerKeepsTables(cfg: Config, s: State, e: Event, w: World)
    requires ForeignKeys(s)
    ensures var t := Logged(HandleChainEvent(cfg, s, e, w));
            && ForeignKeys(t)
            && t.networks.Keys == s.networks.Keys + Created([e])
            && t.committed == (if e.HeadBlock? then e.block else s.committed)
  {
    assert e in [e];
  }

  lemma OwnEventObserved(cfg: Config, s: State, e: Event, w: World)
    requires ForeignKeys(s) && HasKey(e) && (e.ChannelOpened? ==> e.key.network in s.networks)
    ensures ViewOf(Logged(HandleChainEvent(cfg, s, e, w)), e.key) == Observe(ViewOf(s, e.key), e, e.key)
  {
    if e.key in s.channels {
      assert e.key.network in s.networks;
    }
  }

  lemma OtherEventObserved(cfg: Config, s: State, e: Event, w: World, k: ChannelKey)
    requires !About(e, k)
    ensures ViewOf(Logged(HandleChainEvent(cfg, s, e, w)), k) == Observe(ViewOf(s, k), e, k)
  {
  }

  lemma {:induction false} EventsObserved(cfg: Config, s: State, events: seq<Event>, worlds: seq<World>, k: ChannelKey)
    requires |events| <= |worlds| && ForeignKeys(s) && Announced(s.networks.Keys, events)
    ensures var t := HandleEvents(cfg, s, events, worlds);
            && ForeignKeys(t)
            && ViewOf(t, k) == Replay(ViewOf(s, k), events, k)
            && t.networks.Keys == s.networks.Keys + Created(events)
    decreases |events|
  {
    if events != [] {
      HandlerObserves(cfg, s, events[0], worlds[0], k);
      EventsObserved(cfg, Logged(HandleChainEvent(cfg, s, events[0], worlds[0])), events[1..], worlds[1..], k);
      assert events == [events[0]] + events[1..];
      assert Created(events) == Created([events[0]]) + Created(events[1..]);
    }
  }

  lemma {:induction false} EventsConcat(cfg: Config, s: State, a: seq<Event>, b: seq<Event>, worlds: seq<World>)
    requires |a| + |b| <= |worlds|
    ensures HandleEvents(cfg, s, a + b, worlds) == HandleEvents(cfg, HandleEvents(cfg, s, a, worlds), b, worlds[|a|..])
    decreases |a|
  {
    if a == [] {
      assert a + b == b && worlds[|a|..] == worlds;
    } else {
      assert (a + b)[1..] == a[1..] + b;
      assert worlds[1..][|a[1..]|..] == worlds[|a|..];
      EventsConcat(cfg, Logged(HandleChainEvent(cfg, s, a[0], worlds[0])), a[1..], b, worlds[1..]);
    }
  }

  lemma {:induction false} CursorKept(cfg: Config, s: State, events: seq<Event>, worlds: seq<World>)
    requires |events| <= |worlds| && forall e :: e in events ==> !e.HeadBlock?
    ensures HandleEvents(cfg, s, events, worlds).committed == s.committed
    decreases |events|
  {
    if events != [] {
      assert events[0] in events;
      CursorKept(cfg, Logged(HandleChainEvent(cfg, s, events[0], worlds[0])), events[1..], worlds[1..]);
    }
  }

  // ---------------------------------------------------------------- one block range

  lemma {:induction false} AnnouncedAfter(networks: set<Address>, events: seq<Event>)
    requires forall e :: e in events && e.ChannelOpened? ==> e.key.network in networks
    ensures Announced(networks, events)
    decreases |events|
  {
    if events != [] {
      assert events[0] in events;
      AnnouncedAfter(networks + Created([events[0]]), events[1..]);
    }
  }

  lemma {:induction false} AnnouncedFirst(networks: set<Address>, registry: seq<Event>, events: seq<Event>)
    requires forall e :: e in registry ==> e.NetworkCreated?
    requires Announced(networks + Created(registry), events)
    ensures Announced(networks, registry + events)
    decreases |registry|
  {
    if registry == [] {
      assert registry + events == events;
      assert networks + Created(registry) == networks;
    } else {
      assert registry == [registry[0]] + registry[1..];
      assert Created(registry) == Created([registry[0]]) + Created(registry[1..]);
      assert (networks + Created([registry[0]])) + Created(registry[1..]) == networks + Created(registry);
      AnnouncedFirst(networks + Created([registry[0]]), registry[1..], events);
      assert (registry + events)[1..] == registry[1..] + events;
      assert registry[0] in registry && (registry + events)[0] == registry[0];
    }
  }

  lemma {:induction false} AnnouncedPrefix(networks: set<Address>, events: seq<Event>, count: nat)
    requires Announced(networks, events) && count <= |events|
    ensures Announced(networks, events[..count])
    decreases |events|
  {
    if count != 0 {
      AnnouncedPrefix(networks + Created([events[0]]), events[1..], count - 1);
      assert events[..count][1..] == events[1..][..count - 1];
    }
  }

  lemma ChunkAnnounced(log: seq<Event>, known: set<Address>, from: int, to: int)
    ensures Announced(known, Chunk(log, known, from, to))
  {
    if from <= to {
      var registry := GetLogs(log, Registry, from, to);
      var heard := known + Created(registry);
      var net := GetLogs(log, Networks(heard), from, to);
      var rest := Parsed(net) + GetLogs(log, Monitoring, from, to) + [HeadBlock(to)];
      GetLogsMembers(log, Registry, from, to);
      GetLogsMembers(log, Networks(heard), from, to);
      GetLogsMembers(log, Monitoring, from, to);
      ParsedMembers(net);
      AnnouncedAfter(heard, rest);
      AnnouncedFirst(known, registry, rest);
      assert Chunk(log, known, from, to) == registry + rest;
    }
  }

  /** The service follows every network that was announced up to its cursor. */
  ghost predicate InStep(log: seq<Event>, start: int, s: State) {
    && start <= s.committed
    && Knows(log, s.networks.Keys, s.committed)
    && ForeignKeys(s)
  }

  lemma NextIsFullChunk(log: seq<Event>, start: int, s: State, to: int)
    requires WellFormed(log, start) && InStep(log, start, s)
    ensures NextEvents(log, s, to) == FullChunk(log, s.committed + 1, to)
  {
    if s.committed < to {
      AllNetworksHeard(log, start, s.networks.Keys, s.committed + 1, to);
      GetLogsMembers(log, Registry, s.committed + 1, to);
      assert Created(log) + Created(GetLogs(log, Registry, s.committed + 1, to)) == Created(log);
    }
  }

  lemma SyncObserved(cfg: Config, log: seq<Event>, s: State, step: Step, k: ChannelKey)
    requires ForeignKeys(s) && step.Sync? && Enabled(log, s, step)
    ensures var t, events := Exec(cfg, log, s, step), NextEvents(log, s, step.to)[..step.count];
            && ForeignKeys(t)
            && t.networks.Keys == s.networks.Keys + Created(events)
            && ViewOf(t, k) == Replay(ViewOf(s, k), events, k)
  {
    ChunkAnnounced(log, s.networks.Keys, s.committed + 1, step.to);
    AnnouncedPrefix(s.networks.Keys, NextEvents(log, s, step.to), step.count);
    EventsObserved(cfg, s, NextEvents(log, s, step.to)[..step.count], step.worlds, k);
  }

  /** All events of a range but the last one, which commits it. */
  function Body(log: seq<Event>, from: int, to: int): seq<Event> {
    GetLogs(log, Registry, from, to) + NetworkPart(log, from, to) + MonitoringPart(log, from, to)
  }

  lemma BodyAndHead(log: seq<Event>, from: int, to: int)
    requires from <= to
    ensures FullChunk(log, from, to) == Body(log, from, to) + [HeadBlock(to)]
    ensures forall e :: e in Body(log, from, to) ==> !e.HeadBlock?
  {
    var registry := GetLogs(log, Registry, from, to);
    GetLogsMembers(log, Registry, from, to);
    PartMembers(log, from, to);
    assert Created(log) + Created(registry) == Created(log);
  }

  /** A block range moves the cursor exactly when all its events were handled. */
  lemma SyncCursor(cfg: Config, log: seq<Event>, start: int, s: State, step: Step)
    requires WellFormed(log, start) && InStep(log, start, s) && step.Sync? && Enabled(log, s, step)
    ensures Exec(cfg, log, s, step).committed
            == if Interrupted(log, s, step) then s.committed else Max(s.committed, step.to)
  {
    var from, to := s.committed + 1, step.to;
    NextIsFullChunk(log, start, s, to);
    if from <= to {
      BodyAndHead(log, from, to);
      var body := Body(log, from, to);
      if step.count <= |body| {
        assert (body + [HeadBlock(to)])[..step.count] == body[..step.count];
        assert forall e :: e in body[..step.count] ==> e in body;
        CursorKept(cfg, s, body[..step.count], step.worlds);
      } else {
        assert (body + [HeadBlock(to)])[..step.count] == body + [HeadBlock(to)];
        EventsConcat(cfg, s, body, [HeadBlock(to)], step.worlds);
      }
    }
  }

  lemma SyncInStep(cfg: Config, log: seq<Event>, start: int, s: State, step: Step)
    requires WellFormed(log, start) && InStep(log, start, s) && step.Sync? && Enabled(log, s, step)
    ensures InStep(log, start, Exec(cfg, log, s, step))
  {
    var from, to, t := s.committed + 1, step.to, Exec(cfg, log, s, step);
    SyncObserved(cfg, log, s, step, ChannelKey(0, 0));
    SyncCursor(cfg, log, start, s, step);
    NextIsFullChunk(log, start, s, to);
    forall e | e in log && e.NetworkCreated? && e.block <= t.committed
      ensures e.network in t.networks.Keys
    {
      if s.committed < e.block {
        GetLogsMembers(log, Registry, from, to);
        BodyAndHead(log, from, to);
        assert NextEvents(log, s, to)[..step.count] == NextEvents(log, s, to);
        assert e in Body(log, from, to);
      }
    }
  }

  // ---------------------------------------------------------------- the other steps

  /** Two states with the same chain columns, networks and cursor. */
  ghost predicate SameChain(s: State, t: State) {
    && t.networks == s.networks
    && t.committed == s.committed
    && t.channels.Keys == s.channels.Keys
    && forall k :: ViewOf(t, k) == ViewOf(s, k)
  }

  lemma ActionKeepsChain(cfg: Config, s: State, a: Action, w: World)
    ensures SameChain(s, HandleAction(cfg, s, a, w).state)
  {
  }

  lemma {:induction false} PassKeepsChain(cfg: Config, s: State, rows: seq<ScheduledEvent>, worlds: seq<World>)
    requires |rows| <= |worlds|
    ensures SameChain(s, Pass(cfg, s, rows, worlds))
    decreases |rows|
  {
    if rows != [] {
      var h := HandleAction(cfg, s, rows[0].action, worlds[0]);
      ActionKeepsChain(cfg, s, rows[0].action, worlds[0]);
      if !h.outcome.TooEarly? {
        var t := RemoveScheduled(Logged(h), rows[0]);
        assert SameChain(s, t);
        PassKeepsChain(cfg, t, rows[1..], worlds[1..]);
      }
    }
  }

  lemma {:induction false} StoppedPassKeepsChain(cfg: Config, s: State, rows: seq<ScheduledEvent>, worlds: seq<World>)
    requires rows != [] && |rows| <= |worlds|
    ensures SameChain(s, StoppedPass(cfg, s, rows, worlds))
    decreases |rows|
  {
    var h := HandleAction(cfg, s, rows[0].action, worlds[0]);
    ActionKeepsChain(cfg, s, rows[0].action, worlds[0]);
    if |rows| > 1 && !h.outcome.TooEarly? {
      var t := RemoveScheduled(Logged(h), rows[0]);
      assert SameChain(s, t);
      StoppedPassKeepsChain(cfg, t, rows[1..], worlds[1..]);
    }
  }

  lemma OtherStep(cfg: Config, log: seq<Event>, s: State, step: Step)
    requires Enabled(log, s, step) && !step.Sync?
    ensures SameChain(s, Exec(cfg, log, s, step))
  {
    if step.Tick? && s.barrier <= step.now {
      PassKeepsChain(cfg, s, step.rows, step.worlds);
    } else if step.StoppedTick? && s.barrier <= step.now {
      StoppedPassKeepsChain(cfg, s, step.rows, step.worlds);
    }
  }

  // ---------------------------------------------------------------- whole runs

  lemma {:induction false} AlwaysInStep(cfg: Config, log: seq<Event>, start: int, now: int, steps: seq<Step>, trace: seq<State>, n: nat)
    requires WellFormed(log, start) && IsRun(cfg, log, steps, trace) && trace[0] == InitialState(start, now) && n <= |steps|
    ensures InStep(log, start, trace[n])
  {
    if n > 0 {
      AlwaysInStep(cfg, log, start, now, steps, trace, n - 1);
      if steps[n - 1].Sync? {
        SyncInStep(cfg, log, start, trace[n - 1], steps[n - 1]);
      } else {
        OtherStep(cfg, log, trace[n - 1], steps[n - 1]);
      }
    }
  }

  /** The chain columns of a row after an undisturbed synchronisation up to a block. */
  function Undisturbed(log: seq<Event>, start: int, block: int, k: ChannelKey): Option<View> {
    Replay(None, FullChunk(log, start + 1, block), k)
  }

  /** From s, replaying up to any block from high on gives the undisturbed result. */
  ghost predicate Recoverable(log: seq<Event>, start: int, s: State, high: int, k: ChannelKey) {
    forall block :: high <= block && s.committed <= block ==>
      Replay(ViewOf(s, k), FullChunk(log, s.committed + 1, block), k) == Undisturbed(log, start, block, k)
  }

  /** After part of a range or all of it, the rest of the log leads to the same columns. */
  lemma ReplayToBlock(log: seq<Event>, start: int, from: int, to: int, block: int, count: nat, v: Option<View>, k: ChannelKey)
    requires WellFormed(log, start) && count <= |FullChunk(log, from, to)| && from - 1 <= block && to <= block
    ensures var all, done := FullChunk(log, from, to), FullChunk(log, from, to)[..count];
            var next := if count < |all| then from else Max(from - 1, to) + 1;
            Replay(Replay(v, done, k), FullChunk(log, next, block), k) == Replay(v, FullChunk(log, from, block), k)
  {
    var all := FullChunk(log, from, to);
    if count < |all| {
      CrashAbsorbed(log, start, from, to, block, count, v, k);
    } else {
      assert all[..count] == all;
      WholeRangeToBlock(log, start, from, to, block, v, k);
    }
  }

  lemma WholeRangeToBlock(log: seq<Event>, start: int, from: int, to: int, block: int, v: Option<View>, k: ChannelKey)
    requires WellFormed(log, start) && from - 1 <= block && to <= block
    ensures Replay(Replay(v, FullChunk(log, from, to), k), FullChunk(log, Max(from - 1, to) + 1, block), k)
            == Replay(v, FullChunk(log, from, block), k)
  {
    if from <= to {
      ChunksCompose(log, start, from, to, block, v, k);
    } else {
      assert FullChunk(log, from, to) == [];
    }
  }

  lemma SyncKeepsTarget(cfg: Config, log: seq<Event>, start: int, s: State, step: Step, block: int, k: ChannelKey)
    requires WellFormed(log, start) && InStep(log, start, s) && step.Sync? && Enabled(log, s, step)
    requires Interrupted(log, s, step) ==> step.to <= block
    requires Exec(cfg, log, s, step).committed <= block
    ensures s.committed <= block
    ensures var t := Exec(cfg, log, s, step);
            Replay(ViewOf(t, k), FullChunk(log, t.committed + 1, block), k)
            == Replay(ViewOf(s, k), FullChunk(log, s.committed + 1, block), k)
  {
    SyncCursor(cfg, log, start, s, step);
    SyncObserved(cfg, log, s, step, k);
    NextIsFullChunk(log, start, s, step.to);
    ReplayToBlock(log, start, s.committed + 1, step.to, block, step.count, ViewOf(s, k), k);
  }

  lemma StepKeepsRecoverable(cfg: Config, log: seq<Event>, start: int, s: State, step: Step, high: int, k: ChannelKey)
    requires WellFormed(log, start) && InStep(log, start, s) && Enabled(log, s, step)
    requires Recoverable(log, start, s, high, k)
    requires Interrupted(log, s, step) ==> step.to <= high
    ensures var t := Exec(cfg, log, s, step); InStep(log, start, t) && Recoverable(log, start, t, high, k)
  {
    if step.Sync? {
      SyncInStep(cfg, log, start, s, step);
      forall block | high <= block && Exec(cfg, log, s, step).committed <= block
        ensures Replay(ViewOf(Exec(cfg, log, s, step), k), FullChunk(log, Exec(cfg, log, s, step).committed + 1, block), k)
                == Undisturbed(log, start, block, k)
      {
        SyncKeepsTarget(cfg, log, start, s, step, block, k);
      }
    } else {
      OtherStep(cfg, log, s, step);
      assert ViewOf(Exec(cfg, log, s, step), k) == ViewOf(s, k);
    }
  }

  lemma {:induction false} RunKeepsRecoverable(cfg: Config, log: seq<Event>, start: int, now: int, steps: seq<Step>,
                                               trace: seq<State>, n: nat, high: int, k: ChannelKey)
    requires WellFormed(log, start) && IsRun(cfg, log, steps, trace) && trace[0] == InitialState(start, now)
    requires n <= |steps|
    requires forall i {:trigger steps[i]} :: 0 <= i < n && Interrupted(log, trace[i], steps[i]) ==> steps[i].to <= high
    ensures InStep(log, start, trace[n]) && Recoverable(log, start, trace[n], high, k)
  {
    if n != 0 {
      RunKeepsRecoverable(cfg, log, start, now, steps, trace, n - 1, high, k);
      StepKeepsRecoverable(cfg, log, start, trace[n - 1], steps[n - 1], high, k);
    }
  }

  /**
   Crash transparency. In every run, with any chunking and any number of crashes at any event, once
   the cursor has passed every block that was being handled at a crash, the chain columns of
   every channel are those of an undisturbed synchronisation.
   */
  lemma CrashTransparency(cfg: Config, log: seq<Event>, start: int, now: int, steps: seq<Step>, trace: seq<State>,
                          n: nat, k: ChannelKey)
    requires WellFormed(log, start) && IsRun(cfg, log, steps, trace) && trace[0] == InitialState(start, now)
    requires n <= |steps|
    requires forall i {:trigger steps[i]} :: 0 <= i < n && Interrupted(log, trace[i], steps[i]) ==> steps[i].to <= trace[n].committed
    ensures ViewOf(trace[n], k) == Undisturbed(log, start, trace[n].committed, k)
  {
    RunKeepsRecoverable(cfg, log, start, now, steps, trace, n, trace[n].committed, k);
    assert FullChunk(log, trace[n].committed + 1, trace[n].committed) == [];
  }

  /** Chunk independence. Crash-free runs that reach the same block agree on the chain columns of every channel. */
  lemma ChunkIndependence(cfg: Config, log: seq<Event>, start: int, now1: int, now2: int,
                          steps1: seq<Step>, trace1: seq<State>, steps2: seq<Step>, trace2: seq<State>, k: ChannelKey)
    requires WellFormed(log, start)
    requires IsRun(cfg, log, steps1, trace1) && trace1[0] == InitialState(start, now1)
    requires IsRun(cfg, log, steps2, trace2) && trace2[0] == InitialState(start, now2)
    requires forall i {:trigger steps1[i]} :: 0 <= i < |steps1| ==> !Interrupted(log, trace1[i], steps1[i])
    requires forall i {:trigger steps2[i]} :: 0 <= i < |steps2| ==> !Interrupted(log, trace2[i], steps2[i])
    requires trace1[|steps1|].committed == trace2[|steps2|].committed
    ensures ViewOf(trace1[|steps1|], k) == ViewOf(trace2[|steps2|], k)
  {
    CrashTransparency(cfg, log, start, now1, steps1, trace1, |steps1|, k);
    CrashTransparency(cfg, log, start, now2, steps2, trace2, |steps2|, k);
  }
}
