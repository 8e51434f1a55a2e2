/**
 Where the rows of the schedule and the recorded transactions of the monitoring service come from: in every run, with
 any crashes, a scheduled event goes back to a log entry, and a transaction is watched until it is confirmed.
 */
module MonitoringOrigins {
  import opened Common
  import opened ChainLog
  import opened MonitoringModel
  import opened ChannelHistory
  import opened Recovery

  // ---------------------------------------------------------------- the schedule

  /** The log opens the channel between these participants. */
  ghost predicate Opens(log: seq<Event>, k: ChannelKey, p1: Address, p2: Address) {
    exists e :: e in log && e.ChannelOpened? && e.key == k && e.participant1 == p1 && e.participant2 == p2
  }

  ghost predicate RowsFromLog(log: seq<Event>, s: State) {
    forall k :: k in s.channels ==> Opens(log, k, s.channels[k].participant1, s.channels[k].participant2)
  }

  /** The other one of two participants than the given one, the first if it is neither. */
  function Other(p1: Address, p2: Address, a: Address): Address {
    if a == p1 then p2 else p1
  }

  /** A monitoring event is for the participant that did not close; a claim is for the one named by our own update. */
  ghost predicate ActionFromLog(cfg: Config, log: seq<Event>, a: Action) {
    match a
    case TriggerMonitoring(k, nonClosing) =>
      exists p1, p2, e :: Opens(log, k, p1, p2) && e in log && e.ChannelClosed? && e.key == k
                          && nonClosing == Other(p1, p2, e.closingParticipant)
    case TriggerClaim(k, nonClosing) =>
      exists e :: e in log && e.NewBalanceProof? && e.key == k && e.msAddress == cfg.address && e.raidenNode == nonClosing
  }

  ghost predicate FromLog(cfg: Config, log: seq<Event>, s: State) {
    RowsFromLog(log, s) && TimeoutsFromLog(log, s) && forall r :: r in s.scheduled ==> ActionFromLog(cfg, log, r.action)
  }

  /** The settle timeouts are those that the registry announced. */
  ghost predicate TimeoutsFromLog(log: seq<Event>, s: State) {
    forall a :: a in s.networks ==> exists e :: e in log && e.NetworkCreated? && e.network == a && e.settleTimeout == s.networks[a]
  }

  lemma EventFromLog(cfg: Config, log: seq<Event>, s: State, e: Event, w: World)
    requires FromLog(cfg, log, s) && (e in log || e.HeadBlock?)
    ensures FromLog(cfg, log, Logged(HandleChainEvent(cfg, s, e, w)))
  {
    var t := Logged(HandleChainEvent(cfg, s, e, w));
    forall k | k in t.channels
      ensures Opens(log, k, t.channels[k].participant1, t.channels[k].participant2)
    {
      ParticipantsStay(cfg, s, e, w, k);
    }
    forall r | r in t.scheduled && r !in s.scheduled
      ensures ActionFromLog(cfg, log, r.action)
    {
      NewRowFromLog(cfg, log, s, e, w, r);
    }
  }

  lemma ParticipantsStay(cfg: Config, s: State, e: Event, w: World, k: ChannelKey)
    requires k in Logged(HandleChainEvent(cfg, s, e, w)).channels
    ensures var t := Logged(HandleChainEvent(cfg, s, e, w));
            || (e.ChannelOpened? && e.key == k && t.channels[k].participant1 == e.participant1 && t.channels[k].participant2 == e.participant2)
            || (k in s.channels && t.channels[k].participant1 == s.channels[k].participant1
                && t.channels[k].participant2 == s.channels[k].participant2)
  {
  }

  lemma NewRowFromLog(cfg: Config, log: seq<Event>, s: State, e: Event, w: World, r: ScheduledEvent)
    requires RowsFromLog(log, s) && (e in log || e.HeadBlock?)
    requires r in Logged(HandleChainEvent(cfg, s, e, w)).scheduled && r !in s.scheduled
    ensures ActionFromLog(cfg, log, r.action)
  {
    var row := s.channels[e.key];
    assert Opens(log, e.key, row.participant1, row.participant2);
    if e.ChannelClosed? {
      assert r.action == TriggerMonitoring(e.key, Other(row.participant1, row.participant2, e.closingParticipant));
    } else {
      assert r.action == TriggerClaim(e.key, e.raidenNode) && e.msAddress == cfg.address;
    }
  }

  lemma {:induction false} EventsFromLog(cfg: Config, log: seq<Event>, s: State, events: seq<Event>, worlds: seq<World>)
    requires |events| <= |worlds| && FromLog(cfg, log, s) && forall e :: e in events ==> e in log || e.HeadBlock?
    ensures FromLog(cfg, log, HandleEvents(cfg, s, events, worlds))
    decreases |events|
  {
    if events != [] {
      assert events[0] in events;
      EventFromLog(cfg, log, s, events[0], worlds[0]);
      EventsFromLog(cfg, log, Logged(HandleChainEvent(cfg, s, events[0], worlds[0])), events[1..], worlds[1..]);
    }
  }

  /** A handled action leaves participants alone, and puts back at most itself. */
  lemma ActionFromItself(cfg: Config, s: State, a: Action, w: World)
    ensures var t := Logged(HandleAction(cfg, s, a, w));
            && t.channels.Keys == s.channels.Keys && t.networks == s.networks
            && (forall k :: k in s.channels ==> t.channels[k].participant1 == s.channels[k].participant1
                                                && t.channels[k].participant2 == s.channels[k].participant2)
            && forall r :: r in t.scheduled ==> r in s.scheduled || r.action == a
  {
  }

  lemma ActionKeepsOrigins(cfg: Config, log: seq<Event>, s: State, a: Action, w: World)
    requires FromLog(cfg, log, s) && ActionFromLog(cfg, log, a)
    ensures FromLog(cfg, log, Logged(HandleAction(cfg, s, a, w)))
  {
    var t := Logged(HandleAction(cfg, s, a, w));
    ActionFromItself(cfg, s, a, w);
    forall k | k in t.channels
      ensures Opens(log, k, t.channels[k].participant1, t.channels[k].participant2)
    {
      assert Opens(log, k, s.channels[k].participant1, s.channels[k].participant2);
    }
  }

  lemma {:induction false} PassKeepsOrigins(cfg: Config, log: seq<Event>, s: State, rows: seq<ScheduledEvent>, worlds: seq<World>)
    requires |rows| <= |worlds| && FromLog(cfg, log, s) && forall r :: r in rows ==> ActionFromLog(cfg, log, r.action)
    ensures FromLog(cfg, log, Pass(cfg, s, rows, worlds))
    ensures rows != [] ==> FromLog(cfg, log, StoppedPass(cfg, s, rows, worlds))
    decreases |rows|
  {
    if rows != [] {
      assert rows[0] in rows;
      var t := Logged(HandleAction(cfg, s, rows[0].action, worlds[0]));
      ActionKeepsOrigins(cfg, log, s, rows[0].action, worlds[0]);
      assert FromLog(cfg, log, RemoveScheduled(t, rows[0]));
      PassKeepsOrigins(cfg, log, RemoveScheduled(t, rows[0]), rows[1..], worlds[1..]);
    }
  }

  lemma NextInLog(log: seq<Event>, start: int, s: State, to: int)
    requires WellFormed(log, start) && InStep(log, start, s)
    ensures forall e :: e in NextEvents(log, s, to) ==> e in log || e.HeadBlock?
  {
    NextIsFullChunk(log, start, s, to);
    if s.committed < to {
      BodyAndHead(log, s.committed + 1, to);
      BodyInLog(log, s.committed + 1, to);
    }
  }

  lemma SyncKeepsOrigins(cfg: Config, log: seq<Event>, start: int, s: State, step: Step)
    requires WellFormed(log, start) && InStep(log, start, s) && step.Sync? && Enabled(log, s, step) && FromLog(cfg, log, s)
    ensures FromLog(cfg, log, Exec(cfg, log, s, step))
  {
    var events := NextEvents(log, s, step.to);
    NextInLog(log, start, s, step.to);
    assert forall e :: e in events[..step.count] ==> e in events;
    EventsFromLog(cfg, log, s, events[..step.count], step.worlds);
  }

  lemma SameOrigins(cfg: Config, log: seq<Event>, s: State, t: State)
    requires FromLog(cfg, log, s) && t.channels == s.channels && t.networks == s.networks && t.scheduled == s.scheduled
    ensures FromLog(cfg, log, t)
  {
  }

  lemma StepKeepsOrigins(cfg: Config, log: seq<Event>, start: int, s: State, step: Step)
    requires WellFormed(log, start) && InStep(log, start, s) && Enabled(log, s, step) && FromLog(cfg, log, s)
    ensures FromLog(cfg, log, Exec(cfg, log, s, step))
  {
    match step
    case Sync(_, _, _) => SyncKeepsOrigins(cfg, log, start, s, step);
    case Tick(_, rows, worlds) => PassKeepsOrigins(cfg, log, s, rows, worlds);
    case StoppedTick(_, rows, worlds) => PassKeepsOrigins(cfg, log, s, rows, worlds);
    case _ => SameOrigins(cfg, log, s, Exec(cfg, log, s, step));
  }

  lemma BodyInLog(log: seq<Event>, from: int, to: int)
    ensures forall e :: e in Body(log, from, to) ==> e in log
  {
    GetLogsMembers(log, Registry, from, to);
    PartMembers(log, from, to);
  }

  /**
   In every run, a scheduled monitoring event goes back to a closing in the log, and is for the other participant of
   the channel than the one that closed; a scheduled claim goes back to our own update of the named participant's proof;
   participants and settle timeouts are logged, too.
   */
  lemma {:induction false} ScheduleComesFromTheLog(cfg: Config, log: seq<Event>, start: int, now: int, steps: seq<Step>,
                                                   trace: seq<State>, n: nat)
    requires WellFormed(log, start) && IsRun(cfg, log, steps, trace) && trace[0] == InitialState(start, now) && n <= |steps|
    ensures FromLog(cfg, log, trace[n])
  {
    if n > 0 {
      ScheduleComesFromTheLog(cfg, log, start, now, steps, trace, n - 1);
      AlwaysInStep(cfg, log, start, now, steps, trace, n - 1);
      StepKeepsOrigins(cfg, log, start, trace[n - 1], steps[n - 1]);
    }
  }

  // ---------------------------------------------------------------- transactions

  /** The transactions that are recorded for channels. */
  ghost predicate IsRecorded(s: State, hash: TxHash) {
    exists k :: k in s.channels && (s.channels[k].monitorTx == Some(hash) || s.channels[k].claimTx == Some(hash))
  }

  lemma {:induction false} StillWaitingExactly(waiting: seq<TxHash>, mined: set<TxHash>)
    ensures forall h :: h in StillWaiting(waiting, mined) <==> h in waiting && h !in mined
  {
    if waiting != [] {
      StillWaitingExactly(waiting[1..], mined);
    }
  }

  /** Every recorded transaction still waits for its receipt, or has it. */
  ghost predicate IsWatched(s: State, mined: set<TxHash>) {
    forall h :: IsRecorded(s, h) ==> h in s.waiting || h in mined
  }

  /** The transactions that the first n steps found mined and confirmed. */
  function MinedBy(steps: seq<Step>, n: nat): set<TxHash>
    requires n <= |steps|
  {
    if n == 0 then {} else MinedBy(steps, n - 1) + if steps[n - 1].Confirm? then steps[n - 1].mined else {}
  }

  /** Marks of a row stay, or are lost; nothing new is recorded and nobody stops waiting. */
  ghost predicate RecordsNoMore(s: State, t: State) {
    && s.waiting <= t.waiting
    && forall k :: k in t.channels ==>
         && (t.channels[k].monitorTx.Some? ==> k in s.channels && t.channels[k].monitorTx == s.channels[k].monitorTx)
         && (t.channels[k].claimTx.Some? ==> k in s.channels && t.channels[k].claimTx == s.channels[k].claimTx)
  }

  lemma LessIsWatched(s: State, t: State, mined: set<TxHash>)
    requires IsWatched(s, mined) && RecordsNoMore(s, t)
    ensures IsWatched(t, mined)
  {
    forall h | IsRecorded(t, h)
      ensures h in t.waiting || h in mined
    {
      assert IsRecorded(s, h);
    }
  }

  lemma EventRecordsNothing(cfg: Config, s: State, e: Event, w: World)
    ensures RecordsNoMore(s, Logged(HandleChainEvent(cfg, s, e, w)))
  {
    var t := Logged(HandleChainEvent(cfg, s, e, w));
    if HasKey(e) {
      ChannelEventRecordsNothing(cfg, s, e, w);
    } else {
      assert t.channels == s.channels && t.waiting == s.waiting;
    }
  }

  lemma ChannelEventRecordsNothing(cfg: Config, s: State, e: Event, w: World)
    requires HasKey(e)
    ensures RecordsNoMore(s, Logged(HandleChainEvent(cfg, s, e, w)))
  {
    OtherRowsStay(cfg, s, e, w);
    if e.key in Logged(HandleChainEvent(cfg, s, e, w)).channels {
      OwnMarksStay(cfg, s, e, w);
    }
  }

  lemma OtherRowsStay(cfg: Config, s: State, e: Event, w: World)
    requires HasKey(e)
    ensures var t := Logged(HandleChainEvent(cfg, s, e, w));
            t.waiting == s.waiting && forall k :: k in t.channels && k != e.key ==> k in s.channels && t.channels[k] == s.channels[k]
  {
  }

  lemma OwnMarksStay(cfg: Config, s: State, e: Event, w: World)
    requires HasKey(e) && e.key in Logged(HandleChainEvent(cfg, s, e, w)).channels
    ensures var row := Logged(HandleChainEvent(cfg, s, e, w)).channels[e.key];
            && (row.monitorTx.Some? ==> e.key in s.channels && row.monitorTx == s.channels[e.key].monitorTx)
            && (row.claimTx.Some? ==> e.key in s.channels && row.claimTx == s.channels[e.key].claimTx)
  {
  }

  lemma {:induction false} EventsAreWatched(cfg: Config, s: State, events: seq<Event>, worlds: seq<World>, mined: set<TxHash>)
    requires |events| <= |worlds| && IsWatched(s, mined)
    ensures IsWatched(HandleEvents(cfg, s, events, worlds), mined)
    decreases |events|
  {
    if events != [] {
      var t := Logged(HandleChainEvent(cfg, s, events[0], worlds[0]));
      EventRecordsNothing(cfg, s, events[0], worlds[0]);
      LessIsWatched(s, t, mined);
      EventsAreWatched(cfg, t, events[1..], worlds[1..], mined);
    }
  }

  /** What an action newly records, it also puts among the waiting transactions. */
  lemma ActionIsWatched(cfg: Config, s: State, a: Action, w: World, mined: set<TxHash>)
    requires IsWatched(s, mined)
    ensures IsWatched(Logged(HandleAction(cfg, s, a, w)), mined)
  {
    var t := Logged(HandleAction(cfg, s, a, w));
    if t.channels == s.channels {
      assert s.waiting <= t.waiting;
      LessIsWatched(s, t, mined);
    } else {
      SendingIsWatched(cfg, s, a, w);
      forall h | IsRecorded(t, h) && h != w.tx.hash
        ensures h in t.waiting || h in mined
      {
        assert IsRecorded(s, h);
      }
    }
  }

  lemma SendingIsWatched(cfg: Config, s: State, a: Action, w: World)
    requires Logged(HandleAction(cfg, s, a, w)).channels != s.channels
    ensures var t := Logged(HandleAction(cfg, s, a, w));
            && w.tx.Sent? && t.waiting == s.waiting + [w.tx.hash] && a.key in s.channels
            && t.channels == s.channels[a.key := if a.TriggerMonitoring? then s.channels[a.key].(monitorTx := Some(w.tx.hash))
                                                 else s.channels[a.key].(claimTx := Some(w.tx.hash))]
  {
  }

  lemma {:induction false} PassIsWatched(cfg: Config, s: State, rows: seq<ScheduledEvent>, worlds: seq<World>, mined: set<TxHash>)
    requires |rows| <= |worlds| && IsWatched(s, mined)
    ensures IsWatched(Pass(cfg, s, rows, worlds), mined)
    ensures rows != [] ==> IsWatched(StoppedPass(cfg, s, rows, worlds), mined)
    decreases |rows|
  {
    if rows != [] {
      var t := Logged(HandleAction(cfg, s, rows[0].action, worlds[0]));
      ActionIsWatched(cfg, s, rows[0].action, worlds[0], mined);
      LessIsWatched(t, RemoveScheduled(t, rows[0]), mined);
      PassIsWatched(cfg, RemoveScheduled(t, rows[0]), rows[1..], worlds[1..], mined);
      LessIsWatched(t, t.(barrier := worlds[0].now + MAX_SCHEDULED_EVENTS_RETRY_FREQUENCY), mined);
    }
  }

  lemma StepIsWatched(cfg: Config, log: seq<Event>, s: State, step: Step, mined: set<TxHash>)
    requires Enabled(log, s, step) && IsWatched(s, mined)
    ensures IsWatched(Exec(cfg, log, s, step), mined + if step.Confirm? then step.mined else {})
  {
    var t := Exec(cfg, log, s, step);
    match step
    case Sync(to, count, worlds) => EventsAreWatched(cfg, s, NextEvents(log, s, to)[..count], worlds, mined);
    case Tick(_, rows, worlds) => PassIsWatched(cfg, s, rows, worlds, mined);
    case StoppedTick(_, rows, worlds) => PassIsWatched(cfg, s, rows, worlds, mined);
    case Confirm(found) =>
      StillWaitingExactly(s.waiting, found);
      assert forall h :: IsRecorded(t, h) <==> IsRecorded(s, h);
    case _ => LessIsWatched(s, t, mined);
  }

  /** In every run, every transaction that is recorded for a channel waits until it was found mined and confirmed. */
  lemma {:induction false} TransactionsAreWatched(cfg: Config, log: seq<Event>, start: int, now: int, steps: seq<Step>,
                                                  trace: seq<State>, n: nat)
    requires IsRun(cfg, log, steps, trace) && trace[0] == InitialState(start, now) && n <= |steps|
    ensures IsWatched(trace[n], MinedBy(steps, n))
  {
    if n > 0 {
      TransactionsAreWatched(cfg, log, start, now, steps, trace, n - 1);
      StepIsWatched(cfg, log, trace[n - 1], steps[n - 1], MinedBy(steps, n - 1));
    }
  }
}
