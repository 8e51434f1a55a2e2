/**
 When the assertion "This MS already monitored this channel" can fail: only after a ChannelClosed was
 replayed for a channel whose monitoring was sent, or is pending already, or after the service was
 stopped between the handling of a monitoring event and the deletion of its row.
 */
module MonitoringReplay {
  import opened Common
  import opened ChainLog
  import opened MonitoringModel
  import opened Recovery
  import opened MonitoringSafety
  import opened Scheduler
  import opened MonitoringRuns
  import opened MonitoringCrash

  predicate Monitors(r: ScheduledEvent, k: ChannelKey) {
    r.action.TriggerMonitoring? && r.action.key == k
  }

  /** At most one monitoring event is pending for the channel, and none once it is monitored. */
  ghost predicate Quiet(s: State, k: ChannelKey) {
    && (forall r, q :: r in s.scheduled && q in s.scheduled && Monitors(r, k) && Monitors(q, k) ==> r == q)
    && (forall r :: r in s.scheduled && Monitors(r, k) ==> !IsMonitored(s, k))
  }

  // ---------------------------------------------------------------- chain events

  function ClosingRow(s: State, e: Event, w: World): ScheduledEvent
    requires e.ChannelClosed? && e.key in s.channels
  {
    var channel := s.channels[e.key];
    ScheduledEvent(w.firstAllowed, TriggerMonitoring(
                     e.key, if channel.participant1 == e.closingParticipant then channel.participant2 else channel.participant1))
  }

  /** The event closes the channel in time to monitor it, but its monitoring was sent or is pending in another row. */
  ghost predicate SchedulesAgain(s: State, e: Event, w: World, k: ChannelKey) {
    && e.ChannelClosed? && e.key == k && k in s.channels && k.network in s.networks
    && w.now <= w.closingTime + s.networks[k.network]
    && (IsMonitored(s, k) || exists r :: r in s.scheduled && Monitors(r, k) && r != ClosingRow(s, e, w))
  }

  lemma EventKeepsQuiet(cfg: Config, s: State, e: Event, w: World, k: ChannelKey)
    requires Quiet(s, k)
    ensures Quiet(Logged(HandleChainEvent(cfg, s, e, w)), k) <==> !SchedulesAgain(s, e, w, k)
  {
    if e.ChannelClosed? && e.key == k && k in s.channels && k.network in s.networks {
      ClosingKeepsQuiet(s, e, w);
    } else {
      OtherKeepsQuiet(cfg, s, e, w, k);
    }
  }

  lemma ClosingKeepsQuiet(s: State, e: Event, w: World)
    requires e.ChannelClosed? && e.key in s.channels && e.key.network in s.networks && Quiet(s, e.key)
    ensures Quiet(Logged(HandleClosed(s, e, w)), e.key) <==> !SchedulesAgain(s, e, w, e.key)
  {
    var t := Logged(HandleClosed(s, e, w));
    assert IsMonitored(t, e.key) == IsMonitored(s, e.key);
    if w.now <= w.closingTime + s.networks[e.key.network] {
      var row := ClosingRow(s, e, w);
      assert t.scheduled == s.scheduled + {row} && Monitors(row, e.key);
    } else {
      assert t.scheduled == s.scheduled;
    }
  }

  lemma OtherKeepsQuiet(cfg: Config, s: State, e: Event, w: World, k: ChannelKey)
    requires Quiet(s, k) && !(e.ChannelClosed? && e.key == k && k in s.channels && k.network in s.networks)
    ensures Quiet(Logged(HandleChainEvent(cfg, s, e, w)), k)
  {
    var t := Logged(HandleChainEvent(cfg, s, e, w));
    assert forall r :: r in t.scheduled && Monitors(r, k) ==> r in s.scheduled;
    assert IsMonitored(t, k) ==> IsMonitored(s, k);
  }

  lemma {:induction false} StaysLoud(cfg: Config, s: State, events: seq<Event>, worlds: seq<World>, k: ChannelKey)
    requires |events| <= |worlds| && !Quiet(s, k)
    requires forall e :: e in events && e.ChannelOpened? ==> e.key != k
    ensures !Quiet(HandleEvents(cfg, s, events, worlds), k)
    decreases |events|
  {
    if events != [] {
      assert events[0] in events;
      EventKeepsLoud(cfg, s, events[0], worlds[0], k);
      StaysLoud(cfg, Logged(HandleChainEvent(cfg, s, events[0], worlds[0])), events[1..], worlds[1..], k);
    }
  }

  lemma EventKeepsLoud(cfg: Config, s: State, e: Event, w: World, k: ChannelKey)
    requires !Quiet(s, k) && !(e.ChannelOpened? && e.key == k)
    ensures !Quiet(Logged(HandleChainEvent(cfg, s, e, w)), k)
  {
    EventTouchesOneRow(cfg, s, e, w, k);
    EventKeepsMarks(cfg, s, e, w, k);
  }

  /** One of the events schedules the monitoring of the channel again. */
  ghost predicate Rearms(cfg: Config, s: State, events: seq<Event>, worlds: seq<World>, k: ChannelKey)
    requires |events| <= |worlds|
    decreases |events|
  {
    && events != []
    && (SchedulesAgain(s, events[0], worlds[0], k)
        || Rearms(cfg, Logged(HandleChainEvent(cfg, s, events[0], worlds[0])), events[1..], worlds[1..], k))
  }

  lemma {:induction false} EventsKeepQuiet(cfg: Config, s: State, events: seq<Event>, worlds: seq<World>, k: ChannelKey)
    requires |events| <= |worlds| && Quiet(s, k) && NoRepeats(events)
    ensures Quiet(HandleEvents(cfg, s, events, worlds), k) <==> !Rearms(cfg, s, events, worlds, k)
    decreases |events|
  {
    if events != [] {
      var t := Logged(HandleChainEvent(cfg, s, events[0], worlds[0]));
      EventKeepsQuiet(cfg, s, events[0], worlds[0], k);
      if SchedulesAgain(s, events[0], worlds[0], k) {
        StaysLoud(cfg, t, events[1..], worlds[1..], k);
      } else {
        EventsKeepQuiet(cfg, t, events[1..], worlds[1..], k);
      }
    }
  }

  lemma EventsRaiseNothing(cfg: Config, s: State, e: Event, w: World, k: ChannelKey)
    ensures AlreadyMonitored(k) in Logged(HandleChainEvent(cfg, s, e, w)).faults ==> AlreadyMonitored(k) in s.faults
  {
  }

  lemma {:induction false} SyncRaisesNothing(cfg: Config, s: State, events: seq<Event>, worlds: seq<World>, k: ChannelKey)
    requires |events| <= |worlds| && AlreadyMonitored(k) !in s.faults
    ensures AlreadyMonitored(k) !in HandleEvents(cfg, s, events, worlds).faults
    decreases |events|
  {
    if events != [] {
      EventsRaiseNothing(cfg, s, events[0], worlds[0], k);
      SyncRaisesNothing(cfg, Logged(HandleChainEvent(cfg, s, events[0], worlds[0])), events[1..], worlds[1..], k);
    }
  }

  // ---------------------------------------------------------------- scheduled actions

  /** While rows are handled: the row of the channel is handled once, and until then nothing is sent for it. */
  ghost predicate QuietPass(s: State, rows: seq<ScheduledEvent>, k: ChannelKey) {
    && Quiet(s, k)
    && (forall i, j :: 0 <= i < j < |rows| && Monitors(rows[i], k) ==> !Monitors(rows[j], k))
    && (forall r :: r in rows && Monitors(r, k) ==>
          !IsMonitored(s, k) && forall q :: q in s.scheduled && Monitors(q, k) ==> q == r)
  }

  lemma ActionKeepsQuiet(cfg: Config, s: State, rows: seq<ScheduledEvent>, w: World, k: ChannelKey)
    requires rows != [] && QuietPass(s, rows, k) && AlreadyMonitored(k) !in s.faults
    requires !HandleAction(cfg, s, rows[0].action, w).outcome.TooEarly?
    ensures var t := RemoveScheduled(Logged(HandleAction(cfg, s, rows[0].action, w)), rows[0]);
            QuietPass(t, rows[1..], k) && AlreadyMonitored(k) !in t.faults
  {
    assert rows[0] in rows;
    assert forall r :: r in rows[1..] ==> r in rows;
    OneRowLess(rows, k);
    if Monitors(rows[0], k) {
      OwnRowKeepsQuiet(cfg, s, rows[0], w);
    } else {
      OtherRowKeepsQuiet(cfg, s, rows[0], w, k);
    }
  }

  lemma OneRowLess(rows: seq<ScheduledEvent>, k: ChannelKey)
    requires rows != [] && forall i, j :: 0 <= i < j < |rows| && Monitors(rows[i], k) ==> !Monitors(rows[j], k)
    ensures forall i, j :: 0 <= i < j < |rows[1..]| && Monitors(rows[1..][i], k) ==> !Monitors(rows[1..][j], k)
    ensures Monitors(rows[0], k) ==> forall r :: r in rows[1..] ==> !Monitors(r, k)
  {
    forall i, j | 0 <= i < j < |rows[1..]| && Monitors(rows[1..][i], k)
      ensures !Monitors(rows[1..][j], k)
    {
      assert rows[1..][i] == rows[i + 1] && rows[1..][j] == rows[j + 1];
    }
    forall r | r in rows[1..] && Monitors(rows[0], k)
      ensures !Monitors(r, k)
    {
      var j :| 1 <= j < |rows| && rows[j] == r;
    }
  }

  /** The only pending row of the channel is handled: it is gone, or put back while nothing was sent. */
  lemma OwnRowKeepsQuiet(cfg: Config, s: State, row: ScheduledEvent, w: World)
    requires row.action.TriggerMonitoring? && !IsMonitored(s, row.action.key) && AlreadyMonitored(row.action.key) !in s.faults
    requires forall q :: q in s.scheduled && Monitors(q, row.action.key) ==> q == row
    ensures var t := RemoveScheduled(Logged(HandleAction(cfg, s, row.action, w)), row);
            Quiet(t, row.action.key) && AlreadyMonitored(row.action.key) !in t.faults
  {
    var t := RemoveScheduled(Logged(HandleAction(cfg, s, row.action, w)), row);
    assert Deletes(row, row) && row !in t.scheduled;
    assert forall q :: q in t.scheduled && Monitors(q, row.action.key) ==> q == ScheduledEvent(w.now, row.action);
  }

  lemma OtherRowKeepsQuiet(cfg: Config, s: State, row: ScheduledEvent, w: World, k: ChannelKey)
    requires !Monitors(row, k)
    ensures var t := RemoveScheduled(Logged(HandleAction(cfg, s, row.action, w)), row);
            && IsMonitored(t, k) == IsMonitored(s, k)
            && (forall q :: q in t.scheduled && Monitors(q, k) ==> q in s.scheduled)
            && (AlreadyMonitored(k) in t.faults ==> AlreadyMonitored(k) in s.faults)
  {
  }

  lemma {:induction false} PassKeepsQuiet(cfg: Config, s: State, rows: seq<ScheduledEvent>, worlds: seq<World>, k: ChannelKey)
    requires |rows| <= |worlds| && QuietPass(s, rows, k) && AlreadyMonitored(k) !in s.faults
    ensures var t := Pass(cfg, s, rows, worlds); Quiet(t, k) && AlreadyMonitored(k) !in t.faults
    decreases |rows|
  {
    if rows != [] {
      var h := HandleAction(cfg, s, rows[0].action, worlds[0]);
      if !h.outcome.TooEarly? {
        ActionKeepsQuiet(cfg, s, rows, worlds[0], k);
        PassKeepsQuiet(cfg, RemoveScheduled(Logged(h), rows[0]), rows[1..], worlds[1..], k);
      }
    }
  }

  // ---------------------------------------------------------------- a pass that stops before a deletion

  /** The row that stays breaks the silence if and only if it belongs to the channel and has had its effect. */
  lemma UndeletedRow(cfg: Config, s: State, rows: seq<ScheduledEvent>, w: World, k: ChannelKey)
    requires ForeignKeys(s) && |rows| == 1 && QuietPass(s, rows, k) && AlreadyMonitored(k) !in s.faults
    ensures var t := Logged(HandleAction(cfg, s, rows[0].action, w));
            && (Quiet(t, k) <==> !(rows[0].action.key == k && LeavesBehind(cfg, s, rows[0], w)))
            && AlreadyMonitored(k) !in t.faults
  {
    assert rows[0] in rows;
    if Monitors(rows[0], k) {
      OwnRowStays(cfg, s, rows[0], w);
    } else {
      OtherRowStays(cfg, s, rows[0], w, k);
    }
  }

  lemma OwnRowStays(cfg: Config, s: State, row: ScheduledEvent, w: World)
    requires ForeignKeys(s) && row.action.TriggerMonitoring? && !IsMonitored(s, row.action.key)
    requires AlreadyMonitored(row.action.key) !in s.faults
    requires forall q :: q in s.scheduled && Monitors(q, row.action.key) ==> q == row
    ensures var t := Logged(HandleAction(cfg, s, row.action, w));
            && (Quiet(t, row.action.key) <==> !LeavesBehind(cfg, s, row, w))
            && AlreadyMonitored(row.action.key) !in t.faults
  {
    var h := HandleAction(cfg, s, row.action, w);
    if h.state.sent != s.sent {
      assert h.state.scheduled == s.scheduled;
      SendingMarks(cfg, s, row.action, w);
    } else if h.state.scheduled != s.scheduled {
      assert h.state.scheduled == s.scheduled + {ScheduledEvent(w.now, row.action)};
      assert Monitors(ScheduledEvent(w.now, row.action), row.action.key);
    } else {
      assert h.state == s;
    }
  }

  lemma SendingMarks(cfg: Config, s: State, a: Action, w: World)
    requires ForeignKeys(s) && a.TriggerMonitoring? && HandleAction(cfg, s, a, w).state.sent != s.sent
    ensures IsMonitored(HandleAction(cfg, s, a, w).state, a.key)
  {
    assert a.key in s.channels && a.key.network in s.networks;
  }

  lemma OtherRowStays(cfg: Config, s: State, row: ScheduledEvent, w: World, k: ChannelKey)
    requires !Monitors(row, k)
    ensures var t := Logged(HandleAction(cfg, s, row.action, w));
            && IsMonitored(t, k) == IsMonitored(s, k)
            && (forall q :: Monitors(q, k) ==> (q in t.scheduled <==> q in s.scheduled))
            && (AlreadyMonitored(k) in t.faults ==> AlreadyMonitored(k) in s.faults)
  {
  }

  lemma {:induction false} StoppedPassKeepsQuiet(cfg: Config, s: State, rows: seq<ScheduledEvent>, worlds: seq<World>, k: ChannelKey)
    requires rows != [] && |rows| <= |worlds| && ForeignKeys(s) && QuietPass(s, rows, k) && AlreadyMonitored(k) !in s.faults
    ensures var t := StoppedPass(cfg, s, rows, worlds);
            (Quiet(t, k) <==> !StopLeaves(cfg, s, rows, worlds, k)) && AlreadyMonitored(k) !in t.faults
    decreases |rows|
  {
    if |rows| == 1 {
      UndeletedRow(cfg, s, rows, worlds[0], k);
    } else if !HandleAction(cfg, s, rows[0].action, worlds[0]).outcome.TooEarly? {
      ActionKeepsQuiet(cfg, s, rows, worlds[0], k);
      ActionKeepsChain(cfg, s, rows[0].action, worlds[0]);
      StoppedPassKeepsQuiet(cfg, Consumed(cfg, s, rows[0], worlds[0]), rows[1..], worlds[1..], k);
    } else {
      TooEarlyKeepsState(cfg, s, rows[0].action, worlds[0]);
    }
  }

  // ---------------------------------------------------------------- runs

  /** The step schedules the monitoring of the channel again, or leaves a row behind that has had its effect. */
  ghost predicate StepRearms(cfg: Config, log: seq<Event>, s: State, step: Step, k: ChannelKey)
    requires Enabled(log, s, step)
  {
    match step
    case Sync(to, count, worlds) => Rearms(cfg, s, NextEvents(log, s, to)[..count], worlds, k)
    case StoppedTick(now, rows, worlds) => s.barrier <= now && StopLeaves(cfg, s, rows, worlds, k)
    case _ => false
  }

  lemma DueRowsAreQuiet(s: State, now: int, rows: seq<ScheduledEvent>, k: ChannelKey)
    requires Quiet(s, k) && AreFirstDue(s, now, rows)
    ensures QuietPass(s, rows, k)
  {
    assert forall i :: 0 <= i < |rows| ==> rows[i] in rows;
  }

  lemma StepKeepsQuiet(cfg: Config, log: seq<Event>, start: int, s: State, step: Step, k: ChannelKey)
    requires Lawful(log, start) && InStep(log, start, s) && Enabled(log, s, step)
    requires Quiet(s, k) && AlreadyMonitored(k) !in s.faults
    ensures var t := Exec(cfg, log, s, step);
            (Quiet(t, k) <==> !StepRearms(cfg, log, s, step, k)) && AlreadyMonitored(k) !in t.faults
  {
    match step
    case Sync(to, count, worlds) =>
      NextIsFullChunk(log, start, s, to);
      ChunkNoRepeats(log, start, s.committed + 1, to);
      EventsKeepQuiet(cfg, s, NextEvents(log, s, to)[..count], worlds, k);
      SyncRaisesNothing(cfg, s, NextEvents(log, s, to)[..count], worlds, k);
    case Tick(now, rows, worlds) =>
      if s.barrier <= now {
        DueRowsAreQuiet(s, now, rows, k);
        PassKeepsQuiet(cfg, s, rows, worlds, k);
      }
    case StoppedTick(now, rows, worlds) =>
      if s.barrier <= now {
        DueRowsAreQuiet(s, now, rows, k);
        StoppedPassKeepsQuiet(cfg, s, rows, worlds, k);
      }
    case _ =>
  }

  /**
   The exact condition, in every run and with any crashes: at every point up to n, at most one monitoring event
   was pending for the channel and none once it was monitored, if and only if no ChannelClosed was handled that
   scheduled it again, and no stop left a row behind whose handling had sent a transaction or put the event
   back. Under this condition the assertion has not failed for the channel.
   */
  lemma {:induction false} AssertionHoldsUnlessRearmed(cfg: Config, log: seq<Event>, start: int, now: int, steps: seq<Step>,
                                                       trace: seq<State>, n: nat, k: ChannelKey)
    requires Lawful(log, start) && IsRun(cfg, log, steps, trace) && trace[0] == InitialState(start, now) && n <= |steps|
    ensures (forall m :: 0 <= m <= n ==> Quiet(trace[m], k))
            <==> forall i {:trigger steps[i]} :: 0 <= i < n ==> !StepRearms(cfg, log, trace[i], steps[i], k)
    ensures (forall m :: 0 <= m < n ==> Quiet(trace[m], k)) ==> AlreadyMonitored(k) !in trace[n].faults
  {
    if n > 0 {
      AssertionHoldsUnlessRearmed(cfg, log, start, now, steps, trace, n - 1, k);
      AlwaysInStep(cfg, log, start, now, steps, trace, n - 1);
      var s, step := trace[n - 1], steps[n - 1];
      assert trace[n] == Exec(cfg, log, s, step);
      if forall m :: 0 <= m < n ==> Quiet(trace[m], k) {
        StepKeepsQuiet(cfg, log, start, s, step, k);
      }
    }
  }

  // ---------------------------------------------------------------- a run in which the assertion fails

  /** The channel is opened in block 1 and closed in block 2. */
  const LATE_LOG := [NetworkCreated(NETWORK, 100, 1), ChannelOpened(KEY, 1, 2, 1), ChannelClosed(KEY, 1, 2)]

  const OPENING := Sync(1, 3, [WORLD, WORLD, WORLD])

  /** The closing is handled, the new head block is not. */
  const STOP := Sync(2, 1, [WORLD])
  const REPLAY := Sync(2, 2, [WORLD, WORLD])

  const LATE_STEPS := [Collect(MESSAGE), OPENING, STOP, Restart(0), SEND, REPLAY, SEND]

  /** Closed in block 2, and not monitored. */
  const SHUT := CLOSED.(closingBlock := Some(2))
  const WATCHED := SHUT.(monitorTx := Some(0))

  const LATE_TRACE := [
    InitialState(0, 0),
    InitialState(0, 0).(requests := REQUESTS),
    ClosedState(FreshChannel(1, 2), {}, 1, 0),
    ClosedState(SHUT, {DUE}, 1, 0),
    ClosedState(SHUT, {DUE}, 1, 0),
    ClosedState(WATCHED, {}, 1, 1),
    ClosedState(WATCHED, {DUE}, 2, 1),
    ClosedState(WATCHED, {}, 2, 1).(faults := [AlreadyMonitored(KEY)])]

  lemma LateChunks(known: set<Address>)
    ensures Chunk(LATE_LOG, known, 1, 1) == [LATE_LOG[0], LATE_LOG[1], HeadBlock(1)]
    ensures NETWORK in known ==> Chunk(LATE_LOG, known, 2, 2) == [LATE_LOG[2], HeadBlock(2)]
  {
    FirstChunk(known);
    SecondChunk(known);
  }

  lemma FirstChunk(known: set<Address>)
    ensures Chunk(LATE_LOG, known, 1, 1) == [LATE_LOG[0], LATE_LOG[1], HeadBlock(1)]
  {
    var created, opening := LATE_LOG[0], LATE_LOG[1];
    GetLogsOfThree(LATE_LOG, Registry, 1, 1);
    assert GetLogs(LATE_LOG, Registry, 1, 1) == [created];
    assert created in [created];
    var addresses := known + Created([created]);
    assert NETWORK in addresses;
    GetLogsOfThree(LATE_LOG, Networks(addresses), 1, 1);
    assert GetLogs(LATE_LOG, Networks(addresses), 1, 1) == [opening];
    assert Parsed([opening]) == [opening];
    GetLogsOfThree(LATE_LOG, Monitoring, 1, 1);
    assert GetLogs(LATE_LOG, Monitoring, 1, 1) == [];
  }

  lemma SecondChunk(known: set<Address>)
    ensures NETWORK in known ==> Chunk(LATE_LOG, known, 2, 2) == [LATE_LOG[2], HeadBlock(2)]
  {
    var closing := LATE_LOG[2];
    GetLogsOfThree(LATE_LOG, Registry, 2, 2);
    assert GetLogs(LATE_LOG, Registry, 2, 2) == [];
    var addresses := known + Created([]);
    GetLogsOfThree(LATE_LOG, Networks(addresses), 2, 2);
    assert NETWORK in known ==> GetLogs(LATE_LOG, Networks(addresses), 2, 2) == [closing];
    assert Parsed([closing]) == [closing];
    GetLogsOfThree(LATE_LOG, Monitoring, 2, 2);
    assert GetLogs(LATE_LOG, Monitoring, 2, 2) == [];
  }

  lemma LateLogIsLawful()
    ensures Lawful(LATE_LOG, 0)
  {
    assert LATE_LOG[0].NetworkCreated?;
    assert NetworksAnnounced(LATE_LOG);
  }

  lemma OpeningBlock()
    ensures Enabled(LATE_LOG, LATE_TRACE[1], OPENING) && Exec(CONFIG, LATE_LOG, LATE_TRACE[1], OPENING) == LATE_TRACE[2]
  {
    var s, events, worlds := LATE_TRACE[1], [LATE_LOG[0], LATE_LOG[1], HeadBlock(1)], OPENING.worlds;
    LateChunks(s.networks.Keys);
    assert events[..3] == events;
    var s1 := s.(networks := map[NETWORK := 100]);
    var s2 := s1.(channels := map[KEY := FreshChannel(1, 2)]);
    assert HandleEvents(CONFIG, s, events, worlds) == HandleEvents(CONFIG, s1, events[1..], worlds[1..]);
    assert HandleEvents(CONFIG, s1, events[1..], worlds[1..]) == HandleEvents(CONFIG, s2, events[1..][1..], worlds[1..][1..]);
    assert events[1..][1..] == [HeadBlock(1)];
    LastHead(s2, 1, worlds[1..][1..]);
  }

  lemma LastHead(s: State, block: int, worlds: seq<World>)
    requires |worlds| == 1
    ensures HandleEvents(CONFIG, s, [HeadBlock(block)], worlds) == s.(committed := block)
  {
    assert [HeadBlock(block)][1..] == [];
  }

  /** Handling the closing, for the first time or again, leaves what was sent in the row and schedules monitoring. */
  lemma ClosingAgain(channel: Channel, scheduled: set<ScheduledEvent>, calls: nat)
    requires channel in {FreshChannel(1, 2), WATCHED}
    ensures Logged(HandleChainEvent(CONFIG, ClosedState(channel, scheduled, 1, calls), LATE_LOG[2], WORLD))
            == ClosedState(SHUT.(monitorTx := channel.monitorTx), scheduled + {DUE}, 1, calls)
  {
    var s := ClosedState(channel, scheduled, 1, calls);
    var t := HandleClosed(s, LATE_LOG[2], WORLD).state;
    assert t.channels == map[KEY := SHUT.(monitorTx := channel.monitorTx)];
  }

  lemma Stopping()
    ensures Enabled(LATE_LOG, LATE_TRACE[2], STOP) && Interrupted(LATE_LOG, LATE_TRACE[2], STOP)
    ensures Exec(CONFIG, LATE_LOG, LATE_TRACE[2], STOP) == LATE_TRACE[3]
  {
    LateChunks(LATE_TRACE[2].networks.Keys);
    ClosingAgain(FreshChannel(1, 2), {}, 0);
    assert [LATE_LOG[2], HeadBlock(2)][..1] == [LATE_LOG[2]] && [LATE_LOG[2]][1..] == [];
    assert {} + {DUE} == {DUE};
    assert HandleEvents(CONFIG, LATE_TRACE[2], [LATE_LOG[2]], STOP.worlds)
           == HandleEvents(CONFIG, LATE_TRACE[3], [LATE_LOG[2]][1..], STOP.worlds[1..]);
  }

  lemma Replaying()
    ensures Enabled(LATE_LOG, LATE_TRACE[5], REPLAY) && Exec(CONFIG, LATE_LOG, LATE_TRACE[5], REPLAY) == LATE_TRACE[6]
  {
    var events := [LATE_LOG[2], HeadBlock(2)];
    LateChunks(LATE_TRACE[5].networks.Keys);
    ClosingAgain(WATCHED, {}, 1);
    assert events[..2] == events && events[1..] == [HeadBlock(2)];
    assert {} + {DUE} == {DUE};
    var s := ClosedState(WATCHED, {DUE}, 1, 1);
    assert HandleEvents(CONFIG, LATE_TRACE[5], events, REPLAY.worlds) == HandleEvents(CONFIG, s, events[1..], REPLAY.worlds[1..]);
    LastHead(s, 2, REPLAY.worlds[1..]);
  }

  lemma SendingLate()
    ensures Enabled(LATE_LOG, LATE_TRACE[4], SEND) && Exec(CONFIG, LATE_LOG, LATE_TRACE[4], SEND) == LATE_TRACE[5]
  {
    var s := LATE_TRACE[4];
    assert DUE in [DUE];
    var h := HandleMonitoring(CONFIG, s, DUE.action, WORLD);
    assert h.state.channels == map[KEY := WATCHED];
    assert h.state.sent == seq(1, _ => CALL) && h.state.waiting == seq(1, _ => 0);
    var t := RemoveScheduled(Logged(h), DUE);
    assert t.scheduled == {};
    assert Pass(CONFIG, s, [DUE], [WORLD]) == Pass(CONFIG, t, [DUE][1..], [WORLD][1..]) == t;
  }

  lemma Failing()
    ensures Enabled(LATE_LOG, LATE_TRACE[6], SEND) && Exec(CONFIG, LATE_LOG, LATE_TRACE[6], SEND) == LATE_TRACE[7]
  {
    var s := LATE_TRACE[6];
    assert DUE in [DUE];
    var h := HandleMonitoring(CONFIG, s, DUE.action, WORLD);
    assert h == Handled(s, Raised(AlreadyMonitored(KEY)));
    var t := RemoveScheduled(Logged(h), DUE);
    assert t.scheduled == {};
    assert Pass(CONFIG, s, [DUE], [WORLD]) == Pass(CONFIG, t, [DUE][1..], [WORLD][1..]) == t;
  }

  lemma EveryLateStep(i: nat)
    requires i < 7
    ensures Enabled(LATE_LOG, LATE_TRACE[i], LATE_STEPS[i]) && LATE_TRACE[i + 1] == Exec(CONFIG, LATE_LOG, LATE_TRACE[i], LATE_STEPS[i])
  {
    if i == 0 {
      assert Admitted(CONFIG, LATE_TRACE[0], MESSAGE);
    } else if i == 1 {
      OpeningBlock();
    } else if i == 2 {
      Stopping();
    } else if i == 3 {
      assert LATE_STEPS[3] == Restart(0);
    } else if i == 4 {
      SendingLate();
    } else if i == 5 {
      Replaying();
    } else {
      Failing();
    }
  }

  /**
   A run over a lawful log in which one crash makes the assertion fail. No opening is replayed, and
   nothing is sent twice.
   */
  lemma CrashCanFailTheAssertion()
    ensures Lawful(LATE_LOG, 0) && IsRun(CONFIG, LATE_LOG, LATE_STEPS, LATE_TRACE) && LATE_TRACE[0] == InitialState(0, 0)
    ensures Interrupted(LATE_LOG, LATE_TRACE[2], LATE_STEPS[2])
    ensures LATE_TRACE[7].faults == [AlreadyMonitored(KEY)] && LATE_TRACE[7].sent == [CALL]
  {
    LateLogIsLawful();
    Stopping();
    LateRun();
    assert LATE_TRACE[7].sent[0] == CALL;
  }

  lemma LateRun()
    ensures IsRun(CONFIG, LATE_LOG, LATE_STEPS, LATE_TRACE)
  {
    forall i | 0 <= i < |LATE_STEPS|
      ensures Enabled(LATE_LOG, LATE_TRACE[i], LATE_STEPS[i])
      ensures LATE_TRACE[i + 1] == Exec(CONFIG, LATE_LOG, LATE_TRACE[i], LATE_STEPS[i])
    {
      EveryLateStep(i);
    }
  }

  // ---------------------------------------------------------------- a run in which no event is replayed

  /** The monitoring event is handled, its row is not deleted. */
  const HALF := StoppedTick(1, [DUE], [WORLD])

  const HALF_STEPS := [Collect(MESSAGE), COMPLETE, HALF, Restart(0), SEND]

  const HALF_TRACE := [
    InitialState(0, 0),
    InitialState(0, 0).(requests := REQUESTS),
    ClosedState(CLOSED, {DUE}, 1, 0),
    ClosedState(MONITORED, {DUE}, 1, 1),
    ClosedState(MONITORED, {DUE}, 1, 1),
    ClosedState(MONITORED, {}, 1, 1).(faults := [AlreadyMonitored(KEY)])]

  lemma CompletingAtOnce()
    ensures Enabled(LOG, HALF_TRACE[1], COMPLETE) && Exec(CONFIG, LOG, HALF_TRACE[1], COMPLETE) == HALF_TRACE[2]
  {
    WholeChunk(HALF_TRACE[1].networks.Keys);
    assert NextEvents(LOG, HALF_TRACE[1], 1) == LOG + [HeadBlock(1)];
    assert (LOG + [HeadBlock(1)])[..4] == LOG + [HeadBlock(1)];
    FourEvents(HALF_TRACE[1]);
  }

  lemma Halfway()
    ensures Enabled(LOG, HALF_TRACE[2], HALF) && Exec(CONFIG, LOG, HALF_TRACE[2], HALF) == HALF_TRACE[3]
    ensures StopLeaves(CONFIG, HALF_TRACE[2], HALF.rows, HALF.worlds, KEY)
  {
    var s := HALF_TRACE[2];
    assert DUE in [DUE];
    var h := HandleMonitoring(CONFIG, s, DUE.action, WORLD);
    assert h.state.channels == map[KEY := MONITORED];
    assert h.state.sent == seq(1, _ => CALL) && h.state.waiting == seq(1, _ => 0);
    assert |h.state.sent| == 1 && |s.sent| == 0;
  }

  lemma FailingAgain()
    ensures Enabled(LOG, HALF_TRACE[4], SEND) && Exec(CONFIG, LOG, HALF_TRACE[4], SEND) == HALF_TRACE[5]
  {
    var s := HALF_TRACE[4];
    assert DUE in [DUE];
    var h := HandleMonitoring(CONFIG, s, DUE.action, WORLD);
    assert h == Handled(s, Raised(AlreadyMonitored(KEY)));
    var t := RemoveScheduled(Logged(h), DUE);
    assert t.scheduled == {};
    assert Pass(CONFIG, s, [DUE], [WORLD]) == Pass(CONFIG, t, [DUE][1..], [WORLD][1..]) == t;
  }

  lemma HalfRun()
    ensures IsRun(CONFIG, LOG, HALF_STEPS, HALF_TRACE)
  {
    forall i | 0 <= i < |HALF_STEPS|
      ensures Enabled(LOG, HALF_TRACE[i], HALF_STEPS[i])
      ensures HALF_TRACE[i + 1] == Exec(CONFIG, LOG, HALF_TRACE[i], HALF_STEPS[i])
    {
      if i == 0 {
        Collecting();
      } else if i == 1 {
        CompletingAtOnce();
      } else if i == 2 {
        Halfway();
      } else if i == 3 {
        assert HALF_STEPS[3] == Restart(0);
      } else {
        FailingAgain();
      }
    }
  }

  /**
   A run over a lawful log in which the service stops between handling a monitoring event and deleting its row.
   Every block range is handled at once and nothing is sent twice, but the assertion fails.
   */
  lemma StopCanFailTheAssertion()
    ensures Lawful(LOG, 0) && IsRun(CONFIG, LOG, HALF_STEPS, HALF_TRACE) && HALF_TRACE[0] == InitialState(0, 0)
    ensures StoppedAfterMonitoring(CONFIG, LOG, HALF_TRACE[2], HALF_STEPS[2])
    ensures HALF_TRACE[5].faults == [AlreadyMonitored(KEY)] && HALF_TRACE[5].sent == [CALL]
  {
    LogIsLawful();
    HalfRun();
    Halfway();
    assert HALF_TRACE[5].sent[0] == CALL;
  }
}
