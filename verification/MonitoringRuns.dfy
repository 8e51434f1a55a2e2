/**
 Runs over a confirmed log, with scheduler passes, incoming monitor requests, purges, restarts and
 crashes, as long as no crash follows a ChannelClosed within its block range: no handler fails, and
 everything sent is justified by the chain.
 */
module MonitoringRuns {
  import opened Common
  import opened ChainLog
  import opened MonitoringModel
  import opened ChannelHistory
  import opened Recovery
  import opened UpdateSummary
  import opened MonitoringSafety
  import opened Scheduler

  /** A log in which a channel is closed at most once and, as it starts after block 0, never in block 0. */
  ghost predicate Lawful(log: seq<Event>, start: int) {
    WellFormed(log, start) && ClosedOnce(log) && 0 <= start
  }

  /** The service stopped in the middle of a block range of which it had handled a ChannelClosed. */
  ghost predicate StoppedAfterClosing(log: seq<Event>, s: State, step: Step)
    requires Enabled(log, s, step)
  {
    Interrupted(log, s, step) && exists e :: e in NextEvents(log, s, step.to)[..step.count] && e.ChannelClosed?
  }

  /** The service stopped before it deleted a monitoring row that it had handled with effect. */
  ghost predicate StoppedAfterMonitoring(cfg: Config, log: seq<Event>, s: State, step: Step)
    requires Enabled(log, s, step)
  {
    step.StoppedTick? && s.barrier <= step.now && exists k :: StopLeaves(cfg, s, step.rows, step.worlds, k)
  }

  /**
   A run in which no crash follows a ChannelClosed within its block range or comes between the sending or
   putting back of a monitoring event and the deletion of its row, and our own chain events follow our
   transactions. Every crash-free run is smooth.
   */
  ghost predicate IsSmoothRun(cfg: Config, log: seq<Event>, start: int, steps: seq<Step>, trace: seq<State>) {
    && IsRun(cfg, log, steps, trace)
    && (exists now :: trace[0] == InitialState(start, now))
    && (forall i {:trigger steps[i]} :: 0 <= i < |steps| ==>
          !StoppedAfterClosing(log, trace[i], steps[i]) && !StoppedAfterMonitoring(cfg, log, trace[i], steps[i]))
    && (forall i {:trigger steps[i]} :: 0 <= i < |steps| && steps[i].Sync? ==>
          forall e :: e in NextEvents(log, trace[i], steps[i].to) ==> Causal(cfg, trace[i], e))
  }

  lemma SmoothStep(cfg: Config, log: seq<Event>, start: int, steps: seq<Step>, trace: seq<State>, i: nat)
    requires IsSmoothRun(cfg, log, start, steps, trace) && i < |steps|
    ensures Enabled(log, trace[i], steps[i])
    ensures !StoppedAfterClosing(log, trace[i], steps[i]) && !StoppedAfterMonitoring(cfg, log, trace[i], steps[i])
    ensures trace[i + 1] == Exec(cfg, log, trace[i], steps[i])
    ensures steps[i].Sync? ==> forall e :: e in NextEvents(log, trace[i], steps[i].to) ==> Causal(cfg, trace[i], e)
  {
  }

  // ---------------------------------------------------------------- block ranges

  predicate Compatible(d: Event, e: Event) {
    && !(d.ChannelOpened? && e.ChannelOpened? && d.key == e.key)
    && !(d.ChannelClosed? && e.ChannelClosed? && d.key == e.key)
    && !(d.ChannelClosed? && e.ChannelOpened? && d.key == e.key)
  }

  lemma {:induction false} GetLogsNoRepeats(log: seq<Event>, source: Source, from: int, to: int)
    requires NoRepeats(log)
    ensures NoRepeats(GetLogs(log, source, from, to))
  {
    if log != [] {
      var rest := GetLogs(log[1..], source, from, to);
      assert NoRepeats(log[1..]);
      GetLogsNoRepeats(log[1..], source, from, to);
      GetLogsMembers(log[1..], source, from, to);
      forall j | 0 <= j < |rest|
        ensures Compatible(log[0], rest[j])
      {
        assert rest[j] in rest;
        var i :| 1 <= i < |log| && log[i] == rest[j];
      }
    }
  }

  lemma {:induction false} ParsedNoRepeats(logs: seq<Event>)
    requires NoRepeats(logs)
    ensures NoRepeats(Parsed(logs))
  {
    if logs != [] {
      var rest := Parsed(logs[1..]);
      assert NoRepeats(logs[1..]);
      ParsedNoRepeats(logs[1..]);
      ParsedMembers(logs[1..]);
      forall j | 0 <= j < |rest|
        ensures Compatible(logs[0], rest[j])
      {
        assert rest[j] in rest;
        var i :| 1 <= i < |logs| && logs[i] == rest[j];
      }
    }
  }

  lemma NoRepeatsPadded(a: seq<Event>, events: seq<Event>, b: seq<Event>)
    requires forall e :: e in a || e in b ==> !e.ChannelOpened? && !e.ChannelClosed?
    requires NoRepeats(events)
    ensures NoRepeats(a + events + b)
  {
    var all, m, n := a + events + b, |a|, |a| + |events|;
    forall i, j | 0 <= i < j < |all|
      ensures Compatible(all[i], all[j])
    {
      if i < m {
        assert all[i] == a[i] && a[i] in a;
      } else if n <= j {
        assert all[j] == b[j - n] && b[j - n] in b;
      } else {
        assert all[i] == events[i - m] && all[j] == events[j - m];
      }
    }
  }

  lemma ChunkNoRepeats(log: seq<Event>, start: int, from: int, to: int)
    requires Lawful(log, start)
    ensures NoRepeats(FullChunk(log, from, to))
  {
    if from <= to {
      NetworkPartNoRepeats(log, start, from, to);
      GetLogsMembers(log, Registry, from, to);
      PartMembers(log, from, to);
      var head := MonitoringPart(log, from, to) + [HeadBlock(to)];
      NoRepeatsPadded(GetLogs(log, Registry, from, to), NetworkPart(log, from, to), head);
      ThreeParts(log, from, to);
    }
  }

  lemma ThreeParts(log: seq<Event>, from: int, to: int)
    requires from <= to
    ensures FullChunk(log, from, to) == GetLogs(log, Registry, from, to) + NetworkPart(log, from, to)
                                        + (MonitoringPart(log, from, to) + [HeadBlock(to)])
  {
    BodyAndHead(log, from, to);
  }

  lemma NetworkPartNoRepeats(log: seq<Event>, start: int, from: int, to: int)
    requires Lawful(log, start)
    ensures NoRepeats(NetworkPart(log, from, to))
  {
    forall i, j | 0 <= i < j < |log|
      ensures Compatible(log[i], log[j])
    {
    }
    GetLogsNoRepeats(log, Networks(Created(log)), from, to);
    ParsedNoRepeats(GetLogs(log, Networks(Created(log)), from, to));
  }

  lemma ChunkMembers(log: seq<Event>, from: int, to: int)
    ensures forall e :: e in FullChunk(log, from, to) && HasKey(e) ==> e in log && from <= e.block <= to
  {
    if from <= to {
      BodyAndHead(log, from, to);
      GetLogsMembers(log, Registry, from, to);
      PartMembers(log, from, to);
    }
  }

  /** Closings come from the part of the log that is committed. */
  ghost predicate Behind(log: seq<Event>, s: State) {
    forall k :: IsClosed(s, k) ==> exists e :: e in log && Closes(e, s, k) && e.block <= s.committed
  }

  lemma NextExpected(cfg: Config, log: seq<Event>, start: int, s: State, to: int)
    requires Lawful(log, start) && InStep(log, start, s) && Behind(log, s)
    requires forall e :: e in NextEvents(log, s, to) ==> Causal(cfg, s, e)
    ensures AllExpected(cfg, s, NextEvents(log, s, to))
  {
    NextIsFullChunk(log, start, s, to);
    ChunkNoRepeats(log, start, s.committed + 1, to);
    ChunkAnnounced(log, s.networks.Keys, s.committed + 1, to);
    NextIsNew(log, start, s, to);
  }

  lemma NextIsNew(log: seq<Event>, start: int, s: State, to: int)
    requires Lawful(log, start) && InStep(log, start, s) && Behind(log, s)
    ensures forall e :: e in NextEvents(log, s, to) ==>
      && (e.ChannelOpened? ==> !IsClosed(s, e.key))
      && (e.ChannelClosed? ==> !IsClosed(s, e.key) && e.block != 0)
  {
    NextIsFullChunk(log, start, s, to);
    ChunkMembers(log, s.committed + 1, to);
    forall e | e in NextEvents(log, s, to) && HasKey(e)
      ensures e.ChannelOpened? ==> !IsClosed(s, e.key)
      ensures e.ChannelClosed? ==> !IsClosed(s, e.key) && e.block != 0
    {
      LaterIsNew(log, start, s, e);
    }
  }

  /** What lies beyond the cursor opens and closes only what is not closed yet. */
  lemma LaterIsNew(log: seq<Event>, start: int, s: State, e: Event)
    requires Lawful(log, start) && Behind(log, s) && e in log && s.committed < e.block
    ensures e.ChannelOpened? ==> !IsClosed(s, e.key)
    ensures e.ChannelClosed? ==> !IsClosed(s, e.key) && e.block != 0
  {
    var i :| 0 <= i < |log| && log[i] == e;
    if HasKey(e) && IsClosed(s, e.key) {
      var c :| c in log && Closes(c, s, e.key) && c.block <= s.committed;
      var j :| 0 <= j < |log| && log[j] == c;
      assert log[j].block < log[i].block;
    }
  }

  lemma ExpectedPrefix(cfg: Config, s: State, events: seq<Event>, count: nat)
    requires AllExpected(cfg, s, events) && count <= |events|
    ensures AllExpected(cfg, s, events[..count])
  {
    AnnouncedPrefix(s.networks.Keys, events, count);
    forall e | e in events[..count]
      ensures e in events
    {
    }
  }

  lemma BehindAfter(log: seq<Event>, s: State, t: State, events: seq<Event>)
    requires Behind(log, s) && Explained(s, t, events) && s.committed <= t.committed
    requires forall e :: e in events && e.ChannelClosed? ==> e in log && e.block <= t.committed
    ensures Behind(log, t)
  {
    forall k | IsClosed(t, k)
      ensures exists e :: e in log && Closes(e, t, k) && e.block <= t.committed
    {
      if IsClosed(s, k) {
        var e :| e in log && Closes(e, s, k) && e.block <= s.committed;
        assert Closes(e, t, k);
      } else {
        var e :| e in events && Closes(e, t, k);
      }
    }
  }

  lemma SyncSafe(cfg: Config, log: seq<Event>, start: int, s: State, step: Step)
    requires Lawful(log, start) && InStep(log, start, s) && Behind(log, s) && Safe(s)
    requires step.Sync? && Enabled(log, s, step) && !StoppedAfterClosing(log, s, step)
    requires forall e :: e in NextEvents(log, s, step.to) ==> Causal(cfg, s, e)
    ensures var t := Exec(cfg, log, s, step);
            && InStep(log, start, t) && Behind(log, t) && Safe(t) && s.committed <= t.committed
            && Explained(s, t, NextEvents(log, s, step.to)[..step.count])
  {
    SyncExplained(cfg, log, start, s, step);
    SyncBehind(cfg, log, start, s, step);
  }

  lemma SyncExplained(cfg: Config, log: seq<Event>, start: int, s: State, step: Step)
    requires Lawful(log, start) && InStep(log, start, s) && Behind(log, s) && Safe(s)
    requires step.Sync? && Enabled(log, s, step)
    requires forall e :: e in NextEvents(log, s, step.to) ==> Causal(cfg, s, e)
    ensures var t := Exec(cfg, log, s, step); Safe(t) && Explained(s, t, NextEvents(log, s, step.to)[..step.count])
  {
    NextExpected(cfg, log, start, s, step.to);
    ExpectedPrefix(cfg, s, NextEvents(log, s, step.to), step.count);
    EventsSafe(cfg, s, NextEvents(log, s, step.to)[..step.count], step.worlds);
  }

  lemma SyncBehind(cfg: Config, log: seq<Event>, start: int, s: State, step: Step)
    requires Lawful(log, start) && InStep(log, start, s) && Behind(log, s)
    requires step.Sync? && Enabled(log, s, step) && !StoppedAfterClosing(log, s, step)
    requires Explained(s, Exec(cfg, log, s, step), NextEvents(log, s, step.to)[..step.count])
    ensures var t := Exec(cfg, log, s, step); InStep(log, start, t) && Behind(log, t) && s.committed <= t.committed
  {
    SyncInStep(cfg, log, start, s, step);
    SyncCursor(cfg, log, start, s, step);
    NextIsFullChunk(log, start, s, step.to);
    ChunkMembers(log, s.committed + 1, step.to);
    BehindAfter(log, s, Exec(cfg, log, s, step), NextEvents(log, s, step.to)[..step.count]);
  }

  // ---------------------------------------------------------------- every step

  ghost predicate Healthy(log: seq<Event>, start: int, s: State) {
    InStep(log, start, s) && Behind(log, s) && Safe(s)
  }

  lemma OtherSafe(cfg: Config, log: seq<Event>, start: int, s: State, step: Step)
    requires Healthy(log, start, s) && Enabled(log, s, step) && !step.Sync? && !StoppedAfterMonitoring(cfg, log, s, step)
    ensures Healthy(log, start, Exec(cfg, log, s, step))
  {
    var t := Exec(cfg, log, s, step);
    OtherStep(cfg, log, s, step);
    if step.Tick? && s.barrier <= step.now {
      PassSafe(cfg, s, step.rows, step.worlds);
    } else if step.StoppedTick? && s.barrier <= step.now {
      StoppedPassSafe(cfg, s, step.rows, step.worlds);
    } else {
      assert forall k :: IsClosed(t, k) == IsClosed(s, k) && IsMonitored(t, k) == IsMonitored(s, k) && IsClaimed(t, k) == IsClaimed(s, k);
    }
    assert forall k :: IsClosed(t, k) ==> ViewOf(t, k) == ViewOf(s, k) && IsClosed(s, k);
  }

  lemma {:induction false} SmoothRunHealthy(cfg: Config, log: seq<Event>, start: int, steps: seq<Step>, trace: seq<State>, n: nat)
    requires Lawful(log, start) && IsSmoothRun(cfg, log, start, steps, trace) && n <= |steps|
    ensures Healthy(log, start, trace[n])
  {
    if n != 0 {
      SmoothRunHealthy(cfg, log, start, steps, trace, n - 1);
      SmoothStep(cfg, log, start, steps, trace, n - 1);
      if steps[n - 1].Sync? {
        SyncSafe(cfg, log, start, trace[n - 1], steps[n - 1]);
      } else {
        OtherSafe(cfg, log, start, trace[n - 1], steps[n - 1]);
      }
    }
  }

  /**
   In a smooth run no handler ever raises: neither "This MS already monitored this channel. Should
   be impossible" nor "closing_block not set". At most one `monitor` and one `claimReward` are
   sent per channel. A channel has at most one pending monitoring event, never one together with a claim, and
   one only while no `monitor` was sent for it.
   */
  lemma NothingFails(cfg: Config, log: seq<Event>, start: int, steps: seq<Step>, trace: seq<State>, n: nat)
    requires Lawful(log, start) && IsSmoothRun(cfg, log, start, steps, trace) && n <= |steps|
    ensures var s := trace[n];
            && s.faults == []
            && SentOnce(s.sent)
            && (forall r :: r in s.scheduled && r.action.TriggerMonitoring? ==>
                  r.action.key in s.channels && s.channels[r.action.key].monitorTx.None?)
            && (forall r, q :: r in s.scheduled && q in s.scheduled && SameMonitoring(r.action, q.action) ==> r == q)
            && (forall r, q :: r in s.scheduled && q in s.scheduled && r.action.TriggerMonitoring? && q.action.TriggerClaim?
                  ==> r.action.key != q.action.key)
            && (forall r :: r in s.scheduled ==> RemoveScheduled(s, r).scheduled == s.scheduled - {r})
  {
    SmoothRunHealthy(cfg, log, start, steps, trace, n);
    forall r | r in trace[n].scheduled
      ensures RemoveScheduled(trace[n], r).scheduled == trace[n].scheduled - {r}
    {
      RemovalIsExact(trace[n], r);
    }
  }

  // ---------------------------------------------------------------- what is sent

  /** What the rows say at the time of a call: a nonce above the known one, or an update of ours at the top. */
  predicate Justified(cfg: Config, s: State, c: Call) {
    && c.key in s.channels
    && (c.MonitorCall? ==> LastOnChainNonce(s.channels[c.key]) < c.nonce)
    && (c.ClaimCall? ==> s.channels[c.key].updateStatus.Some? && s.channels[c.key].updateStatus.value.sender == cfg.address)
    && IsBacked(cfg, s, c)
  }

  /** A request stands behind the call: between the two participants, with its nonce, and worth the transaction. */
  predicate IsBacked(cfg: Config, s: State, c: Call) {
    var rk := RequestKey(c.key, c.nonClosing);
    && c.key in s.channels && rk in s.requests
    && var row, request := s.channels[c.key], s.requests[rk].request;
       if c.MonitorCall? then
         && row.monitorTx.None? && c.nonce == request.nonce && request.rewardAmount >= cfg.minReward
         && {request.signer, c.nonClosing} == {row.participant1, row.participant2} && request.signer != c.nonClosing
       else
         row.claimTx.None? && request.rewardAmount > 0
  }

  lemma {:induction false} PassSends(cfg: Config, s: State, rows: seq<ScheduledEvent>, worlds: seq<World>)
    requires |rows| <= |worlds|
    ensures var t := Pass(cfg, s, rows, worlds);
            && s.sent <= t.sent
            && forall i :: |s.sent| <= i < |t.sent| ==> Justified(cfg, s, t.sent[i])
    decreases |rows|
  {
    if rows != [] {
      var h := HandleAction(cfg, s, rows[0].action, worlds[0]);
      ActionSends(cfg, s, rows[0].action, worlds[0]);
      if !h.outcome.TooEarly? {
        PassSends(cfg, RemoveScheduled(Logged(h), rows[0]), rows[1..], worlds[1..]);
      }
    }
  }

  lemma {:induction false} StoppedPassSends(cfg: Config, s: State, rows: seq<ScheduledEvent>, worlds: seq<World>)
    requires rows != [] && |rows| <= |worlds|
    ensures var t := StoppedPass(cfg, s, rows, worlds);
            && s.sent <= t.sent
            && forall i :: |s.sent| <= i < |t.sent| ==> Justified(cfg, s, t.sent[i])
    decreases |rows|
  {
    var h := HandleAction(cfg, s, rows[0].action, worlds[0]);
    ActionSends(cfg, s, rows[0].action, worlds[0]);
    if |rows| > 1 && !h.outcome.TooEarly? {
      StoppedPassSends(cfg, RemoveScheduled(Logged(h), rows[0]), rows[1..], worlds[1..]);
    }
  }

  lemma EventSendsNothing(cfg: Config, s: State, e: Event, w: World)
    ensures Logged(HandleChainEvent(cfg, s, e, w)).sent == s.sent
  {
  }

  lemma {:induction false} EventsSendNothing(cfg: Config, s: State, events: seq<Event>, worlds: seq<World>)
    requires |events| <= |worlds|
    ensures HandleEvents(cfg, s, events, worlds).sent == s.sent
    decreases |events|
  {
    if events != [] {
      EventSendsNothing(cfg, s, events[0], worlds[0]);
      EventsSendNothing(cfg, Logged(HandleChainEvent(cfg, s, events[0], worlds[0])), events[1..], worlds[1..]);
    }
  }

  lemma StepSends(cfg: Config, log: seq<Event>, s: State, step: Step)
    requires Enabled(log, s, step)
    ensures var t := Exec(cfg, log, s, step);
            && s.sent <= t.sent
            && forall i :: |s.sent| <= i < |t.sent| ==> Justified(cfg, s, t.sent[i])
  {
    match step
    case Sync(to, count, worlds) => EventsSendNothing(cfg, s, NextEvents(log, s, to)[..count], worlds);
    case Tick(_, rows, worlds) => PassSends(cfg, s, rows, worlds);
    case StoppedTick(_, rows, worlds) => StoppedPassSends(cfg, s, rows, worlds);
    case _ =>
  }

  lemma ActionSends(cfg: Config, s: State, a: Action, w: World)
    ensures var t := HandleAction(cfg, s, a, w).state;
            && s.sent <= t.sent
            && (forall i :: |s.sent| <= i < |t.sent| ==> Justified(cfg, s, t.sent[i]))
            && (forall c :: Justified(cfg, t, c) ==> Justified(cfg, s, c))
  {
    ActionKeepsChain(cfg, s, a, w);
    var t := HandleAction(cfg, s, a, w).state;
    forall c | Justified(cfg, t, c)
      ensures Justified(cfg, s, c)
    {
      assert ViewOf(t, c.key) == ViewOf(s, c.key);
    }
  }

  /** In every run, every transaction is backed by a request that is in the table when it is sent. */
  lemma CallsAreBackedByRequests(cfg: Config, log: seq<Event>, steps: seq<Step>, trace: seq<State>, n: nat, i: nat)
    requires IsRun(cfg, log, steps, trace) && n < |steps| && |trace[n].sent| <= i < |trace[n + 1].sent|
    ensures trace[n].sent <= trace[n + 1].sent && IsBacked(cfg, trace[n], trace[n + 1].sent[i])
  {
    StepSends(cfg, log, trace[n], steps[n]);
    assert trace[n + 1] == Exec(cfg, log, trace[n], steps[n]);
  }

  /**
   In every run, once the cursor is past every range that a crash interrupted, every `monitor` carries a nonce
   above that of every update confirmed so far, and `claimReward` is sent only when the confirmed update
   with the highest nonce was last submitted by us.
   */
  lemma CallsAreJustifiedByTheChain(cfg: Config, log: seq<Event>, start: int, now: int, steps: seq<Step>, trace: seq<State>,
                                    n: nat, i: nat)
    requires WellFormed(log, start) && IsRun(cfg, log, steps, trace) && trace[0] == InitialState(start, now) && n < |steps|
    requires forall i {:trigger steps[i]} :: 0 <= i < n && Interrupted(log, trace[i], steps[i]) ==> steps[i].to <= trace[n].committed
    requires |trace[n].sent| <= i < |trace[n + 1].sent|
    ensures var s, c := trace[n], trace[n + 1].sent[i];
            && c.key in s.channels
            && var row, seen := s.channels[c.key], UpTo(log, s.committed);
               && (c.MonitorCall? ==>
                     forall e :: e in seen && IsSubmission(e, c.key, row.participant1, row.participant2) ==> e.nonce < c.nonce)
               && (c.ClaimCall? ==> exists u :: StatusIsSummary(seen, c.key, row.participant1, row.participant2, Some(u))
                                                && u.sender == cfg.address)
  {
    var s, c := trace[n], trace[n + 1].sent[i];
    assert trace[n + 1] == Exec(cfg, log, s, steps[n]);
    StepSends(cfg, log, s, steps[n]);
    UpdateStatusIsSummary(cfg, log, start, now, steps, trace, n, c.key);
  }
}
