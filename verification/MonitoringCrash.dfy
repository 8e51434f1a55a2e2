/**
 What a crash can break: replaying ChannelOpened replaces the row of the channel, and with it the record of the
 transactions that were sent for it. And what a closing in block 0 loses.
 */
module MonitoringCrash {
  import opened Common
  import opened ChainLog
  import opened MonitoringModel
  import opened ChannelHistory
  import opened Recovery
  import opened MonitoringSafety
  import opened MonitoringRuns

  // ---------------------------------------------------------------- the record of what was sent

  ghost predicate SentOnceFor(sent: seq<Call>, k: ChannelKey) {
    forall i, j :: 0 <= i < j < |sent| && sent[i].key == k && sent[j].key == k ==> sent[i].MonitorCall? != sent[j].MonitorCall?
  }

  ghost predicate HasCall(sent: seq<Call>, k: ChannelKey) {
    exists c :: c in sent && c.key == k
  }

  /** No transaction was sent twice for the channel, and its row records those that were sent. */
  ghost predicate Records(s: State, k: ChannelKey) {
    && SentOnceFor(s.sent, k)
    && forall c :: c in s.sent && c.key == k ==> if c.MonitorCall? then IsMonitored(s, k) else IsClaimed(s, k)
  }

  /** The step handles the opening of a channel for which something was sent before. */
  ghost predicate Reopens(log: seq<Event>, s: State, step: Step, k: ChannelKey)
    requires Enabled(log, s, step)
  {
    step.Sync? && Opens(NextEvents(log, s, step.to)[..step.count], k) && HasCall(s.sent, k)
  }

  // ---------------------------------------------------------------- chain events

  lemma EventKeepsRecord(cfg: Config, s: State, e: Event, w: World, k: ChannelKey)
    requires Records(s, k) && !(e.ChannelOpened? && e.key == k && HasCall(s.sent, k))
    ensures var t := Logged(HandleChainEvent(cfg, s, e, w)); t.sent == s.sent && Records(t, k)
  {
    if e.ChannelOpened? && e.key == k {
      assert forall c :: c in s.sent ==> c.key != k;
    } else {
      EventKeepsMarks(cfg, s, e, w, k);
    }
  }

  lemma EventKeepsMarks(cfg: Config, s: State, e: Event, w: World, k: ChannelKey)
    requires !(e.ChannelOpened? && e.key == k)
    ensures var t := Logged(HandleChainEvent(cfg, s, e, w));
            t.sent == s.sent && IsMonitored(t, k) == IsMonitored(s, k) && IsClaimed(t, k) == IsClaimed(s, k)
  {
    EventTouchesOneRow(cfg, s, e, w, k);
    if About(e, k) {
      OwnMarksKept(cfg, s, e, w);
    }
  }

  lemma EventTouchesOneRow(cfg: Config, s: State, e: Event, w: World, k: ChannelKey)
    ensures var t := Logged(HandleChainEvent(cfg, s, e, w));
            && t.sent == s.sent && s.scheduled <= t.scheduled
            && (!About(e, k) ==> (k in t.channels <==> k in s.channels) && (k in s.channels ==> t.channels[k] == s.channels[k]))
  {
    EventSchedules(cfg, s, e, w);
    if !About(e, k) {
      OtherRowsKept(cfg, s, e, w, k);
    }
  }

  lemma EventSchedules(cfg: Config, s: State, e: Event, w: World)
    ensures var t := Logged(HandleChainEvent(cfg, s, e, w)); t.sent == s.sent && s.scheduled <= t.scheduled
  {
  }

  lemma OtherRowsKept(cfg: Config, s: State, e: Event, w: World, k: ChannelKey)
    requires !About(e, k)
    ensures var t := Logged(HandleChainEvent(cfg, s, e, w));
            (k in t.channels <==> k in s.channels) && (k in s.channels ==> t.channels[k] == s.channels[k])
  {
  }

  lemma OwnMarksKept(cfg: Config, s: State, e: Event, w: World)
    requires HasKey(e) && !e.ChannelOpened?
    ensures var t := Logged(HandleChainEvent(cfg, s, e, w));
            && (e.key in t.channels <==> e.key in s.channels)
            && (e.key in s.channels ==>
                  && t.channels[e.key].monitorTx == s.channels[e.key].monitorTx
                  && t.channels[e.key].claimTx == s.channels[e.key].claimTx)
  {
  }

  lemma {:induction false} EventsKeepRecord(cfg: Config, s: State, events: seq<Event>, worlds: seq<World>, k: ChannelKey)
    requires |events| <= |worlds| && Records(s, k) && !(Opens(events, k) && HasCall(s.sent, k))
    ensures Records(HandleEvents(cfg, s, events, worlds), k)
    decreases |events|
  {
    if events != [] {
      assert events[0] in events;
      EventKeepsRecord(cfg, s, events[0], worlds[0], k);
      EventsKeepRecord(cfg, Logged(HandleChainEvent(cfg, s, events[0], worlds[0])), events[1..], worlds[1..], k);
    }
  }

  /** The row of the channel records no transaction. */
  ghost predicate IsBlank(s: State, k: ChannelKey) {
    !IsMonitored(s, k) && !IsClaimed(s, k)
  }

  lemma EventKeepsBlank(cfg: Config, s: State, e: Event, w: World, k: ChannelKey)
    requires IsBlank(s, k) || (e.ChannelOpened? && e.key == k && k.network in s.networks)
    ensures var t := Logged(HandleChainEvent(cfg, s, e, w)); t.sent == s.sent && IsBlank(t, k)
  {
    if !(e.ChannelOpened? && e.key == k) {
      EventKeepsMarks(cfg, s, e, w, k);
    }
  }

  lemma {:induction false} OpeningBlanks(cfg: Config, s: State, events: seq<Event>, worlds: seq<World>, k: ChannelKey)
    requires |events| <= |worlds| && Announced(s.networks.Keys, events)
    requires IsBlank(s, k) || Opens(events, k)
    ensures var t := HandleEvents(cfg, s, events, worlds); t.sent == s.sent && IsBlank(t, k)
    decreases |events|
  {
    if events != [] {
      var t := Logged(HandleChainEvent(cfg, s, events[0], worlds[0]));
      NetworksGrow(cfg, s, events[0], worlds[0]);
      if IsBlank(s, k) || (events[0].ChannelOpened? && events[0].key == k) {
        EventKeepsBlank(cfg, s, events[0], worlds[0], k);
      }
      OpeningBlanks(cfg, t, events[1..], worlds[1..], k);
    }
  }

  lemma NetworksGrow(cfg: Config, s: State, e: Event, w: World)
    ensures var t := Logged(HandleChainEvent(cfg, s, e, w));
            t.networks.Keys == s.networks.Keys + Created([e]) && t.sent == s.sent && (ForeignKeys(s) ==> ForeignKeys(t))
  {
    assert e in [e];
  }

  lemma {:induction false} EventsKeepForeignKeys(cfg: Config, s: State, events: seq<Event>, worlds: seq<World>)
    requires |events| <= |worlds| && ForeignKeys(s)
    ensures ForeignKeys(HandleEvents(cfg, s, events, worlds))
    decreases |events|
  {
    if events != [] {
      NetworksGrow(cfg, s, events[0], worlds[0]);
      EventsKeepForeignKeys(cfg, Logged(HandleChainEvent(cfg, s, events[0], worlds[0])), events[1..], worlds[1..]);
    }
  }

  // ---------------------------------------------------------------- scheduled actions

  lemma ActionKeepsRecord(cfg: Config, s: State, a: Action, w: World, k: ChannelKey)
    requires ForeignKeys(s) && Records(s, k)
    ensures var t := HandleAction(cfg, s, a, w).state; ForeignKeys(t) && Records(t, k)
  {
    var t := HandleAction(cfg, s, a, w).state;
    if t.sent != s.sent {
      assert a.key.network in s.networks;
      assert t.sent == s.sent + [t.sent[|s.sent|]];
      assert IsMonitored(s, k) ==> IsMonitored(t, k);
      assert IsClaimed(s, k) ==> IsClaimed(t, k);
    }
  }

  lemma {:induction false} PassKeepsRecord(cfg: Config, s: State, rows: seq<ScheduledEvent>, worlds: seq<World>, k: ChannelKey)
    requires |rows| <= |worlds| && ForeignKeys(s) && Records(s, k)
    ensures var t := Pass(cfg, s, rows, worlds); ForeignKeys(t) && Records(t, k)
    decreases |rows|
  {
    if rows != [] {
      var h := HandleAction(cfg, s, rows[0].action, worlds[0]);
      ActionKeepsRecord(cfg, s, rows[0].action, worlds[0], k);
      if !h.outcome.TooEarly? {
        PassKeepsRecord(cfg, RemoveScheduled(Logged(h), rows[0]), rows[1..], worlds[1..], k);
      }
    }
  }

  lemma {:induction false} StoppedPassKeepsRecord(cfg: Config, s: State, rows: seq<ScheduledEvent>, worlds: seq<World>, k: ChannelKey)
    requires rows != [] && |rows| <= |worlds| && ForeignKeys(s) && Records(s, k)
    ensures Records(StoppedPass(cfg, s, rows, worlds), k)
    decreases |rows|
  {
    var h := HandleAction(cfg, s, rows[0].action, worlds[0]);
    ActionKeepsRecord(cfg, s, rows[0].action, worlds[0], k);
    if |rows| > 1 && !h.outcome.TooEarly? {
      StoppedPassKeepsRecord(cfg, RemoveScheduled(Logged(h), rows[0]), rows[1..], worlds[1..], k);
    }
  }

  // ---------------------------------------------------------------- closing in block 0

  /**
   After a closing was handled, our own monitoring update finds the closing block and schedules a claim, or raises
   "closing_block not set" if and only if the channel was closed in block 0, which the table keeps as no block.
   */
  lemma ClosingInBlockZeroIsForgotten(cfg: Config, s: State, closing: Event, w: World, update: Event, w': World)
    requires ForeignKeys(s) && closing.ChannelClosed? && closing.key in s.channels
    requires update.NewBalanceProof? && update.key == closing.key && update.msAddress == cfg.address
    requires var status := s.channels[closing.key].updateStatus; status.Some? ==> status.value.nonce <= update.nonce
    ensures var t := HandleChainEvent(cfg, s, closing, w).state;
            var h := HandleChainEvent(cfg, t, update, w');
            && (h.outcome == Raised(ClosingBlockNotSet(closing.key)) <==> closing.block == 0)
            && (h.outcome.Done? <==> closing.block != 0)
            && (closing.block == 0 ==> h.state.scheduled == t.scheduled)
  {
    assert closing.key.network in s.networks;
  }

  // ---------------------------------------------------------------- runs

  lemma StepKeepsForeignKeys(cfg: Config, log: seq<Event>, s: State, step: Step)
    requires ForeignKeys(s) && Enabled(log, s, step)
    ensures ForeignKeys(Exec(cfg, log, s, step))
  {
    if step.Sync? {
      EventsKeepForeignKeys(cfg, s, NextEvents(log, s, step.to)[..step.count], step.worlds);
    } else {
      OtherStep(cfg, log, s, step);
    }
  }

  /** A step keeps the record of a channel if and only if it does not reopen it. */
  lemma StepKeepsRecord(cfg: Config, log: seq<Event>, s: State, step: Step, k: ChannelKey)
    requires ForeignKeys(s) && Records(s, k) && Enabled(log, s, step)
    ensures Records(Exec(cfg, log, s, step), k) <==> !Reopens(log, s, step, k)
  {
    match step
    case Sync(to, count, worlds) =>
      var events := NextEvents(log, s, to);
      if Reopens(log, s, step, k) {
        ChunkAnnounced(log, s.networks.Keys, s.committed + 1, to);
        AnnouncedPrefix(s.networks.Keys, events, count);
        OpeningBlanks(cfg, s, events[..count], worlds, k);
      } else {
        EventsKeepRecord(cfg, s, events[..count], worlds, k);
      }
    case Tick(now, rows, worlds) =>
      if s.barrier <= now {
        PassKeepsRecord(cfg, s, rows, worlds, k);
      }
    case StoppedTick(now, rows, worlds) =>
      if s.barrier <= now {
        StoppedPassKeepsRecord(cfg, s, rows, worlds, k);
      }
    case _ =>
  }

  /** No step before the n-th handles the opening of a channel for which something was sent. */
  ghost predicate NeverReopened(log: seq<Event>, steps: seq<Step>, trace: seq<State>, n: nat, k: ChannelKey)
    requires n <= |steps| <= |trace|
    requires forall i {:trigger steps[i]} :: 0 <= i < |steps| ==> Enabled(log, trace[i], steps[i])
  {
    forall i {:trigger steps[i]} :: 0 <= i < n ==> !Reopens(log, trace[i], steps[i], k)
  }

  /**
   The exact condition, in every run and with any crashes: the row of a channel has recorded what was sent
   for it at every point up to n if and only if no opening of the channel was handled after something was sent.
   */
  lemma {:induction false} RecordedUnlessReopened(cfg: Config, log: seq<Event>, start: int, now: int, steps: seq<Step>,
                                                  trace: seq<State>, n: nat, k: ChannelKey)
    requires IsRun(cfg, log, steps, trace) && trace[0] == InitialState(start, now) && n <= |steps|
    ensures ForeignKeys(trace[n])
    ensures AlwaysRecorded(trace, n, k) <==> NeverReopened(log, steps, trace, n, k)
  {
    if n > 0 {
      RecordedUnlessReopened(cfg, log, start, now, steps, trace, n - 1, k);
      NextRecords(cfg, log, steps, trace, n - 1, k);
      OneMoreRecorded(trace, n, k);
    }
  }

  ghost predicate AlwaysRecorded(trace: seq<State>, n: nat, k: ChannelKey)
    requires n < |trace|
  {
    forall m :: 0 <= m <= n ==> Records(trace[m], k)
  }

  lemma OneMoreRecorded(trace: seq<State>, n: nat, k: ChannelKey)
    requires 0 < n < |trace|
    ensures AlwaysRecorded(trace, n, k) <==> AlwaysRecorded(trace, n - 1, k) && Records(trace[n], k)
    ensures AlwaysRecorded(trace, n - 1, k) ==> Records(trace[n - 1], k)
  {
  }

  lemma NextRecords(cfg: Config, log: seq<Event>, steps: seq<Step>, trace: seq<State>, i: nat, k: ChannelKey)
    requires IsRun(cfg, log, steps, trace) && i < |steps| && ForeignKeys(trace[i])
    ensures ForeignKeys(trace[i + 1])
    ensures NeverReopened(log, steps, trace, i + 1, k)
            <==> NeverReopened(log, steps, trace, i, k) && !Reopens(log, trace[i], steps[i], k)
    ensures Records(trace[i], k) ==> (Records(trace[i + 1], k) <==> !Reopens(log, trace[i], steps[i], k))
  {
    StepKeepsForeignKeys(cfg, log, trace[i], steps[i]);
    if Records(trace[i], k) {
      StepKeepsRecord(cfg, log, trace[i], steps[i], k);
    }
  }

  /** In every run, at most one `monitor` and one `claimReward` are sent for a channel that is never reopened in this sense. */
  lemma SentOnceUnlessReopened(cfg: Config, log: seq<Event>, start: int, now: int, steps: seq<Step>, trace: seq<State>, n: nat)
    requires IsRun(cfg, log, steps, trace) && trace[0] == InitialState(start, now) && n <= |steps|
    ensures forall k :: NeverReopened(log, steps, trace, n, k) ==> SentOnceFor(trace[n].sent, k)
    ensures (forall k :: NeverReopened(log, steps, trace, n, k)) ==> SentOnce(trace[n].sent)
  {
    forall k
      ensures NeverReopened(log, steps, trace, n, k) ==> SentOnceFor(trace[n].sent, k)
    {
      RecordedUnlessReopened(cfg, log, start, now, steps, trace, n, k);
    }
    if forall k :: NeverReopened(log, steps, trace, n, k) {
      forall i, j | 0 <= i < j < |trace[n].sent| && trace[n].sent[i].key == trace[n].sent[j].key
        ensures trace[n].sent[i].MonitorCall? != trace[n].sent[j].MonitorCall?
      {
        assert SentOnceFor(trace[n].sent, trace[n].sent[i].key);
      }
    }
  }

  // ---------------------------------------------------------------- a run with a crash

  const NETWORK: Address := 7
  const KEY := ChannelKey(NETWORK, 1)
  const CONFIG := Config(9, 0, 1)
  const REQUEST := MonitorRequest(5, 1, 1)
  const MESSAGE := Message(KEY, 2, REQUEST, true, 1, 2, 2)
  const LOG := [NetworkCreated(NETWORK, 100, 1), ChannelOpened(KEY, 1, 2, 1), ChannelClosed(KEY, 1, 1)]
  const WORLD := World(1, 1, 1, 10, Sent(0))
  const DUE := ScheduledEvent(1, TriggerMonitoring(KEY, 2))

  /** The three events are handled, the new head block is not. */
  const CRASH := Sync(1, 3, [WORLD, WORLD, WORLD])
  const COMPLETE := Sync(1, 4, [WORLD, WORLD, WORLD, WORLD])
  const SEND := Tick(1, [DUE], [WORLD])

  const STEPS := [Collect(MESSAGE), CRASH, Restart(0), SEND, COMPLETE, SEND]

  const REQUESTS := map[RequestKey(KEY, 2) := RequestRow(REQUEST, true)]
  const CLOSED := Channel(1, 2, Closed, Some(1), Some(1), None, None, None)
  const CALL := MonitorCall(KEY, 2, 5)

  /** The state with the channel closed and a given schedule, cursor and history of calls. */
  function ClosedState(channel: Channel, scheduled: set<ScheduledEvent>, committed: int, calls: nat): State {
    State(map[NETWORK := 100], map[KEY := channel], REQUESTS, scheduled, seq(calls, _ => 0), committed, 0, seq(calls, _ => CALL), [])
  }

  const MONITORED := CLOSED.(monitorTx := Some(0))

  const TRACE := [
    InitialState(0, 0),
    InitialState(0, 0).(requests := REQUESTS),
    ClosedState(CLOSED, {DUE}, 0, 0),
    ClosedState(CLOSED, {DUE}, 0, 0),
    ClosedState(MONITORED, {}, 0, 1),
    ClosedState(CLOSED, {DUE}, 1, 1),
    ClosedState(MONITORED, {}, 1, 2)]

  lemma WholeChunk(known: set<Address>)
    ensures Chunk(LOG, known, 1, 1) == LOG + [HeadBlock(1)]
  {
    var created, opening, closing := LOG[0], LOG[1], LOG[2];
    assert LOG[1..] == [opening, closing] && LOG[2..] == [closing] && LOG[3..] == [];
    GetLogsOfThree(LOG, Registry, 1, 1);
    assert GetLogs(LOG, Registry, 1, 1) == [created];
    var addresses := known + Created([created]);
    assert created in [created];
    assert NETWORK in addresses;
    GetLogsOfThree(LOG, Networks(addresses), 1, 1);
    assert GetLogs(LOG, Networks(addresses), 1, 1) == [opening, closing];
    assert [opening, closing][1..] == [closing];
    assert Parsed([closing]) == [closing];
    assert Parsed([opening, closing]) == [opening] + Parsed([closing]);
    GetLogsOfThree(LOG, Monitoring, 1, 1);
    assert GetLogs(LOG, Monitoring, 1, 1) == [];
  }

  lemma GetLogsOfThree(log: seq<Event>, source: Source, from: int, to: int)
    requires |log| == 3
    ensures GetLogs(log, source, from, to)
            == (if Matches(source, from, to, log[0]) then [log[0]] else [])
               + (if Matches(source, from, to, log[1]) then [log[1]] else [])
               + (if Matches(source, from, to, log[2]) then [log[2]] else [])
  {
    assert log[1..] == [log[1], log[2]];
    assert log[1..][1..] == [log[2]];
    assert GetLogs([log[2]], source, from, to) == if Matches(source, from, to, log[2]) then [log[2]] else [];
    assert GetLogs(log[1..], source, from, to)
           == (if Matches(source, from, to, log[1]) then [log[1]] else []) + GetLogs([log[2]], source, from, to);
  }

  lemma ThreeEvents(s: State, worlds: seq<World>)
    requires |worlds| >= 3 && worlds[0] == worlds[1] == worlds[2] == WORLD
    ensures HandleEvents(CONFIG, s, LOG, worlds)
            == s.(networks := s.networks[NETWORK := 100], channels := s.channels[KEY := CLOSED], scheduled := s.scheduled + {DUE})
  {
    var s1 := s.(networks := s.networks[NETWORK := 100]);
    var s2 := s1.(channels := s1.channels[KEY := FreshChannel(1, 2)]);
    assert HandleEvents(CONFIG, s, LOG, worlds) == HandleEvents(CONFIG, s1, LOG[1..], worlds[1..]);
    assert HandleEvents(CONFIG, s1, LOG[1..], worlds[1..]) == HandleEvents(CONFIG, s2, LOG[1..][1..], worlds[1..][1..]);
    var h := HandleClosed(s2, LOG[2], WORLD);
    assert h.state.channels == s.channels[KEY := CLOSED];
    assert HandleEvents(CONFIG, s2, [LOG[2]], worlds[1..][1..]) == h.state;
    assert LOG[1..][1..] == [LOG[2]];
  }

  lemma FourEvents(s: State)
    ensures HandleEvents(CONFIG, s, LOG + [HeadBlock(1)], COMPLETE.worlds)
            == s.(networks := s.networks[NETWORK := 100], channels := s.channels[KEY := CLOSED],
                  scheduled := s.scheduled + {DUE}, committed := 1)
  {
    var worlds := COMPLETE.worlds;
    EventsInTwoParts(s, LOG, [HeadBlock(1)], worlds);
    ThreeEvents(s, worlds[..3]);
    LastEvent(HandleEvents(CONFIG, s, LOG, worlds[..3]), worlds[3..]);
  }

  lemma LastEvent(s: State, worlds: seq<World>)
    requires |worlds| == 1
    ensures HandleEvents(CONFIG, s, [HeadBlock(1)], worlds) == s.(committed := 1)
  {
    assert [HeadBlock(1)][1..] == [];
  }

  lemma {:induction false} EventsInTwoParts(s: State, a: seq<Event>, b: seq<Event>, worlds: seq<World>)
    requires |a| + |b| <= |worlds|
    ensures HandleEvents(CONFIG, s, a + b, worlds)
            == HandleEvents(CONFIG, HandleEvents(CONFIG, s, a, worlds[..|a|]), b, worlds[|a|..])
    decreases |a|
  {
    if a == [] {
      assert a + b == b && worlds[0..] == worlds;
    } else {
      EventsInTwoParts(Logged(HandleChainEvent(CONFIG, s, a[0], worlds[0])), a[1..], b, worlds[1..]);
      assert (a + b)[1..] == a[1..] + b;
      assert worlds[1..][..|a| - 1] == worlds[..|a|][1..] && worlds[1..][|a| - 1..] == worlds[|a|..];
    }
  }

  lemma Sending(committed: int, calls: nat)
    ensures Enabled(LOG, ClosedState(CLOSED, {DUE}, committed, calls), SEND)
    ensures Exec(CONFIG, LOG, ClosedState(CLOSED, {DUE}, committed, calls), SEND) == ClosedState(MONITORED, {}, committed, calls + 1)
  {
    var s := ClosedState(CLOSED, {DUE}, committed, calls);
    assert DUE in [DUE];
    var h := HandleMonitoring(CONFIG, s, DUE.action, WORLD);
    assert h.state.channels == map[KEY := MONITORED];
    assert h.state.sent == seq(calls + 1, _ => CALL) && h.state.waiting == seq(calls + 1, _ => 0);
    var t := RemoveScheduled(Logged(h), DUE);
    assert t.scheduled == {};
    assert Pass(CONFIG, s, [DUE], [WORLD]) == Pass(CONFIG, t, [DUE][1..], [WORLD][1..]) == t;
  }

  lemma LogIsLawful()
    ensures Lawful(LOG, 0)
  {
    assert LOG[0].NetworkCreated?;
    assert NetworksAnnounced(LOG);
  }

  lemma Crashing()
    ensures Enabled(LOG, TRACE[1], CRASH) && Interrupted(LOG, TRACE[1], CRASH)
    ensures Exec(CONFIG, LOG, TRACE[1], CRASH) == TRACE[2]
  {
    WholeChunk(TRACE[1].networks.Keys);
    assert NextEvents(LOG, TRACE[1], 1) == LOG + [HeadBlock(1)];
    assert (LOG + [HeadBlock(1)])[..3] == LOG;
    ThreeEvents(TRACE[1], CRASH.worlds);
  }

  lemma Completing()
    ensures Enabled(LOG, TRACE[4], COMPLETE) && Exec(CONFIG, LOG, TRACE[4], COMPLETE) == TRACE[5]
  {
    WholeChunk(TRACE[4].networks.Keys);
    assert NextEvents(LOG, TRACE[4], 1) == LOG + [HeadBlock(1)];
    assert (LOG + [HeadBlock(1)])[..4] == LOG + [HeadBlock(1)];
    FourEvents(TRACE[4]);
  }

  lemma Collecting()
    ensures Exec(CONFIG, LOG, TRACE[0], STEPS[0]) == TRACE[1]
  {
    assert Admitted(CONFIG, TRACE[0], MESSAGE);
  }

  lemma EveryStep(i: nat)
    requires i < 6
    ensures Enabled(LOG, TRACE[i], STEPS[i]) && TRACE[i + 1] == Exec(CONFIG, LOG, TRACE[i], STEPS[i])
  {
    if i == 0 {
      Collecting();
    } else if i == 1 {
      Crashing();
    } else if i == 2 {
      assert STEPS[2] == Restart(0);
    } else if i == 3 {
      Sending(0, 0);
    } else if i == 4 {
      Completing();
    } else {
      Sending(1, 1);
    }
  }

  /** A run over a lawful log in which one crash makes the service send `monitor` twice for a channel. */
  lemma CrashCanSendTwice()
    ensures Lawful(LOG, 0) && IsRun(CONFIG, LOG, STEPS, TRACE) && TRACE[0] == InitialState(0, 0)
    ensures Interrupted(LOG, TRACE[1], STEPS[1])
    ensures TRACE[6].sent == [CALL, CALL] && !SentOnce(TRACE[6].sent)
  {
    LogIsLawful();
    Crashing();
    forall i | 0 <= i < |STEPS|
      ensures Enabled(LOG, TRACE[i], STEPS[i]) && TRACE[i + 1] == Exec(CONFIG, LOG, TRACE[i], STEPS[i])
    {
      EveryStep(i);
    }
    TwoCalls();
  }

  lemma TwoCalls()
    ensures TRACE[6].sent == [CALL, CALL] && !SentOnce(TRACE[6].sent)
  {
    var calls := TRACE[6].sent;
    assert calls[0] == CALL && calls[1] == CALL;
  }
}
