/**
 No claim is lost: our own update schedules a claim, a scheduled claim stays pending until a pass handles it, and then
 it is sent, or one of the named exits is taken.
 */
module ClaimProgress {
  import opened Common
  import opened ChainLog
  import opened MonitoringModel
  import opened Recovery
  import opened MonitoringSafety
  import opened Scheduler
  import opened MonitoringRuns

  // ---------------------------------------------------------------- one claim

  /** Why the handling of a claim ends without a transaction and without another try. */
  datatype ClaimExit = NoRequest | NoChannel | AlreadyClaimed | NotOnTop | NoReward | TransactionRefused

  function ClaimExitOf(cfg: Config, s: State, a: Action, w: World): Option<ClaimExit> {
    var rk := RequestKey(a.key, a.nonClosing);
    if rk !in s.requests then Some(NoRequest)
    else if a.key !in s.channels then Some(NoChannel)
    else
      var channel, request := s.channels[a.key], s.requests[rk].request;
      if channel.claimTx.Some? then Some(AlreadyClaimed)
      else if channel.updateStatus.None? || channel.updateStatus.value.sender != cfg.address then Some(NotOnTop)
      else if request.rewardAmount <= 0 then Some(NoReward)
      else if w.tx.Refused? then Some(TransactionRefused)
      else None
  }

  /**
   A handled claim is sent if and only if its request is there and promises a reward, the channel is known and not
   claimed yet, the top update is ours, and the node accepts the transaction. Otherwise nothing changes.
   */
  lemma ClaimIsSentExactly(cfg: Config, s: State, a: Action, w: World)
    requires ForeignKeys(s) && a.TriggerClaim?
    ensures var h, rk, call := HandleAction(cfg, s, a, w), RequestKey(a.key, a.nonClosing), ClaimCall(a.key, a.nonClosing);
            var promising := && rk in s.requests && s.requests[rk].request.rewardAmount > 0
                             && a.key in s.channels && s.channels[a.key].claimTx.None?
                             && s.channels[a.key].updateStatus.Some?
                             && s.channels[a.key].updateStatus.value.sender == cfg.address;
            && (h.state.sent == s.sent + [call] <==> promising && w.tx.Sent?)
            && (h.outcome.TooEarly? <==> promising && w.tx.NotYetAllowed?)
            && (ClaimExitOf(cfg, s, a, w).Some? <==> !(promising && !w.tx.Refused?))
            && (if promising && w.tx.Sent? then
                  h.state == s.(sent := s.sent + [call], waiting := s.waiting + [w.tx.hash],
                                channels := s.channels[a.key := s.channels[a.key].(claimTx := Some(w.tx.hash))])
                else h.state == s)
  {
    if a.key in s.channels {
      assert a.key.network in s.networks;
    }
  }

  // ---------------------------------------------------------------- scheduling

  /** Our own update schedules a claim for the end of the settlement period, unless it is outdated or the channel is unknown or not closed. */
  lemma OwnUpdateSchedulesClaim(cfg: Config, s: State, e: Event, w: World)
    requires ForeignKeys(s) && e.NewBalanceProof? && e.msAddress == cfg.address
    ensures var t := Logged(HandleChainEvent(cfg, s, e, w));
            t.scheduled == s.scheduled + if IsClaimable(s, e) then {ClaimRow(s, e, w)} else {}
  {
    if e.key in s.channels {
      assert e.key.network in s.networks;
    }
  }

  predicate IsClaimable(s: State, e: Event)
    requires e.NewBalanceProof?
  {
    && e.key in s.channels && e.key.network in s.networks && s.channels[e.key].closingBlock.Some?
    && (s.channels[e.key].updateStatus.Some? ==> s.channels[e.key].updateStatus.value.nonce <= e.nonce)
  }

  function ClaimRow(s: State, e: Event, w: World): ScheduledEvent
    requires e.NewBalanceProof? && IsClaimable(s, e)
  {
    ScheduledEvent(w.closingTime + s.networks[e.key.network], TriggerClaim(e.key, e.raidenNode))
  }

  lemma {:induction false} EventsKeepSchedule(cfg: Config, s: State, events: seq<Event>, worlds: seq<World>)
    requires |events| <= |worlds|
    ensures s.scheduled <= HandleEvents(cfg, s, events, worlds).scheduled
    decreases |events|
  {
    if events != [] {
      EventKeepsSchedule(cfg, s, events[0], worlds[0]);
      EventsKeepSchedule(cfg, Logged(HandleChainEvent(cfg, s, events[0], worlds[0])), events[1..], worlds[1..]);
    }
  }

  lemma EventKeepsSchedule(cfg: Config, s: State, e: Event, w: World)
    ensures s.scheduled <= Logged(HandleChainEvent(cfg, s, e, w)).scheduled
  {
  }

  // ---------------------------------------------------------------- a pass

  /** One of the rows that a pass handles is this claim, and takes an exit. */
  ghost predicate PassExits(cfg: Config, s: State, rows: seq<ScheduledEvent>, worlds: seq<World>, r: ScheduledEvent)
    requires |rows| <= |worlds|
    decreases |rows|
  {
    && rows != [] && !HandleAction(cfg, s, rows[0].action, worlds[0]).outcome.TooEarly?
    && ((rows[0] == r && ClaimExitOf(cfg, s, r.action, worlds[0]).Some?)
        || PassExits(cfg, Consumed(cfg, s, rows[0], worlds[0]), rows[1..], worlds[1..], r))
  }

  /** A pass deletes the claim together with a monitoring event for the same second, channel and participant. */
  ghost predicate PassDeletesTwin(cfg: Config, s: State, rows: seq<ScheduledEvent>, worlds: seq<World>, r: ScheduledEvent)
    requires |rows| <= |worlds|
    decreases |rows|
  {
    && rows != [] && !HandleAction(cfg, s, rows[0].action, worlds[0]).outcome.TooEarly?
    && ((rows[0] != r && Deletes(rows[0], r))
        || PassDeletesTwin(cfg, Consumed(cfg, s, rows[0], worlds[0]), rows[1..], worlds[1..], r))
  }

  ghost predicate IsPendingOrSent(s: State, r: ScheduledEvent) {
    r in s.scheduled || ClaimCall(r.action.key, r.action.nonClosing) in s.sent
  }

  lemma RowKeepsClaim(cfg: Config, s: State, row: ScheduledEvent, w: World, r: ScheduledEvent)
    requires ForeignKeys(s) && r in s.scheduled && r.action.TriggerClaim?
    requires !HandleAction(cfg, s, row.action, w).outcome.TooEarly?
    requires !(row == r && ClaimExitOf(cfg, s, r.action, w).Some?) && !(row != r && Deletes(row, r))
    ensures IsPendingOrSent(Consumed(cfg, s, row, w), r)
  {
    if row == r {
      ClaimIsSentExactly(cfg, s, r.action, w);
    } else {
      ActionKeepsSchedule(cfg, s, row.action, w);
    }
  }

  lemma ActionKeepsSchedule(cfg: Config, s: State, a: Action, w: World)
    ensures s.scheduled <= HandleAction(cfg, s, a, w).state.scheduled
  {
  }

  lemma {:induction false} PassKeepsClaim(cfg: Config, s: State, rows: seq<ScheduledEvent>, worlds: seq<World>, r: ScheduledEvent)
    requires |rows| <= |worlds| && ForeignKeys(s) && r in s.scheduled && r.action.TriggerClaim?
    ensures || IsPendingOrSent(Pass(cfg, s, rows, worlds), r)
            || PassExits(cfg, s, rows, worlds, r) || PassDeletesTwin(cfg, s, rows, worlds, r)
    decreases |rows|
  {
    if rows != [] && !HandleAction(cfg, s, rows[0].action, worlds[0]).outcome.TooEarly? {
      var t := Consumed(cfg, s, rows[0], worlds[0]);
      ActionKeepsChain(cfg, s, rows[0].action, worlds[0]);
      PassSends(cfg, t, rows[1..], worlds[1..]);
      if !(rows[0] == r && ClaimExitOf(cfg, s, r.action, worlds[0]).Some?) && !(rows[0] != r && Deletes(rows[0], r)) {
        RowKeepsClaim(cfg, s, rows[0], worlds[0], r);
        if r in t.scheduled {
          PassKeepsClaim(cfg, t, rows[1..], worlds[1..], r);
        }
      }
    } else if rows != [] {
      TooEarlyKeepsState(cfg, s, rows[0].action, worlds[0]);
    }
  }

  lemma {:induction false} StoppedPassKeepsClaim(cfg: Config, s: State, rows: seq<ScheduledEvent>, worlds: seq<World>, r: ScheduledEvent)
    requires rows != [] && |rows| <= |worlds| && ForeignKeys(s) && r in s.scheduled && r.action.TriggerClaim?
    ensures var front := rows[..|rows| - 1];
            || IsPendingOrSent(StoppedPass(cfg, s, rows, worlds), r)
            || PassExits(cfg, s, front, worlds, r) || PassDeletesTwin(cfg, s, front, worlds, r)
    decreases |rows|
  {
    if |rows| == 1 {
      ActionKeepsSchedule(cfg, s, rows[0].action, worlds[0]);
    } else if HandleAction(cfg, s, rows[0].action, worlds[0]).outcome.TooEarly? {
      TooEarlyKeepsState(cfg, s, rows[0].action, worlds[0]);
    } else {
      var t, front := Consumed(cfg, s, rows[0], worlds[0]), rows[..|rows| - 1];
      assert front[0] == rows[0] && front[1..] == rows[1..][..|rows[1..]| - 1];
      ActionKeepsChain(cfg, s, rows[0].action, worlds[0]);
      StoppedPassSends(cfg, t, rows[1..], worlds[1..]);
      if !(rows[0] == r && ClaimExitOf(cfg, s, r.action, worlds[0]).Some?) && !(rows[0] != r && Deletes(rows[0], r)) {
        RowKeepsClaim(cfg, s, rows[0], worlds[0], r);
        if r in t.scheduled {
          StoppedPassKeepsClaim(cfg, t, rows[1..], worlds[1..], r);
        }
      }
    }
  }

  lemma {:induction false} TwinIsARow(cfg: Config, s: State, rows: seq<ScheduledEvent>, worlds: seq<World>, r: ScheduledEvent)
    requires |rows| <= |worlds| && PassDeletesTwin(cfg, s, rows, worlds, r)
    ensures exists row :: row in rows && row != r && Deletes(row, r)
    decreases |rows|
  {
    assert rows[0] in rows;
    if !(rows[0] != r && Deletes(rows[0], r)) {
      TwinIsARow(cfg, Consumed(cfg, s, rows[0], worlds[0]), rows[1..], worlds[1..], r);
      var row :| row in rows[1..] && row != r && Deletes(row, r);
      assert row in rows;
    }
  }

  /** In a safe state, no monitoring event is pending beside a claim. */
  lemma NoTwins(s: State, r: ScheduledEvent, row: ScheduledEvent)
    requires Safe(s) && r in s.scheduled && r.action.TriggerClaim? && row in s.scheduled && row != r
    ensures !Deletes(row, r)
  {
    assert Deletes(row, r) ==> row.action.TriggerMonitoring?;
  }

  // ---------------------------------------------------------------- runs

  /** A handled row of the step is this claim, and takes an exit. */
  ghost predicate StepExits(cfg: Config, log: seq<Event>, s: State, step: Step, r: ScheduledEvent)
    requires Enabled(log, s, step)
  {
    match step
    case Tick(now, rows, worlds) => s.barrier <= now && PassExits(cfg, s, rows, worlds, r)
    case StoppedTick(now, rows, worlds) => s.barrier <= now && PassExits(cfg, s, rows[..|rows| - 1], worlds, r)
    case _ => false
  }

  ghost predicate StepDeletesTwin(cfg: Config, log: seq<Event>, s: State, step: Step, r: ScheduledEvent)
    requires Enabled(log, s, step)
  {
    && r in s.scheduled
    && match step
       case Tick(now, rows, worlds) => PassDeletesTwin(cfg, s, rows, worlds, r)
       case StoppedTick(now, rows, worlds) => PassDeletesTwin(cfg, s, rows[..|rows| - 1], worlds, r)
       case _ => false
  }

  lemma StepKeepsClaim(cfg: Config, log: seq<Event>, s: State, step: Step, r: ScheduledEvent)
    requires ForeignKeys(s) && Enabled(log, s, step) && r in s.scheduled && r.action.TriggerClaim?
    ensures || IsPendingOrSent(Exec(cfg, log, s, step), r)
            || StepExits(cfg, log, s, step, r) || StepDeletesTwin(cfg, log, s, step, r)
  {
    match step
    case Sync(to, count, worlds) => EventsKeepSchedule(cfg, s, NextEvents(log, s, to)[..count], worlds);
    case Tick(now, rows, worlds) => PassKeepsClaim(cfg, s, rows, worlds, r);
    case StoppedTick(now, rows, worlds) => StoppedPassKeepsClaim(cfg, s, rows, worlds, r);
    case _ =>
  }

  /**
   In every run, with any crashes: a scheduled claim is still pending, or it was sent, or a pass took one of the named
   exits for it, or deleted it together with a monitoring event.
   */
  lemma {:induction false} NoClaimIsLost(cfg: Config, log: seq<Event>, start: int, now: int, steps: seq<Step>, trace: seq<State>,
                                         m: nat, n: nat, r: ScheduledEvent)
    requires WellFormed(log, start) && IsRun(cfg, log, steps, trace) && trace[0] == InitialState(start, now)
    requires m <= n <= |steps| && r in trace[m].scheduled && r.action.TriggerClaim?
    ensures || IsPendingOrSent(trace[n], r)
            || exists i {:trigger steps[i]} :: m <= i < n &&
                 (StepExits(cfg, log, trace[i], steps[i], r) || StepDeletesTwin(cfg, log, trace[i], steps[i], r))
  {
    if m < n {
      NoClaimIsLost(cfg, log, start, now, steps, trace, m, n - 1, r);
      AlwaysInStep(cfg, log, start, now, steps, trace, n - 1);
      var s, step := trace[n - 1], steps[n - 1];
      assert trace[n] == Exec(cfg, log, s, step);
      StepSends(cfg, log, s, step);
      if r in s.scheduled {
        StepKeepsClaim(cfg, log, s, step, r);
      }
    }
  }

  lemma NoTwinIsDeleted(cfg: Config, log: seq<Event>, s: State, step: Step, r: ScheduledEvent)
    requires Safe(s) && Enabled(log, s, step) && r.action.TriggerClaim?
    ensures !StepDeletesTwin(cfg, log, s, step, r)
  {
    if StepDeletesTwin(cfg, log, s, step, r) {
      var rows := if step.Tick? then step.rows else step.rows[..|step.rows| - 1];
      TwinIsARow(cfg, s, rows, step.worlds, r);
      var row :| row in rows && row != r && Deletes(row, r);
      assert row in step.rows;
      NoTwins(s, r, row);
    }
  }

  /** In a smooth run nothing else ends a claim: it is pending, it was sent, or a named exit was taken for it. */
  lemma ClaimsEndByExits(cfg: Config, log: seq<Event>, start: int, steps: seq<Step>, trace: seq<State>, m: nat, n: nat, r: ScheduledEvent)
    requires Lawful(log, start) && IsSmoothRun(cfg, log, start, steps, trace)
    requires m <= n <= |steps| && r in trace[m].scheduled && r.action.TriggerClaim?
    ensures IsPendingOrSent(trace[n], r) || exists i {:trigger steps[i]} :: m <= i < n && StepExits(cfg, log, trace[i], steps[i], r)
  {
    var now :| trace[0] == InitialState(start, now);
    NoClaimIsLost(cfg, log, start, now, steps, trace, m, n, r);
    forall i {:trigger steps[i]} | m <= i < n
      ensures !StepDeletesTwin(cfg, log, trace[i], steps[i], r)
    {
      SmoothRunHealthy(cfg, log, start, steps, trace, i);
      NoTwinIsDeleted(cfg, log, trace[i], steps[i], r);
    }
  }

  lemma ScheduledOnTheWay(cfg: Config, s: State, events: seq<Event>, worlds: seq<World>, i: nat)
    requires i < |events| <= |worlds| && events[i].NewBalanceProof? && events[i].msAddress == cfg.address
    requires var before := HandleEvents(cfg, s, events[..i], worlds); ForeignKeys(before) && IsClaimable(before, events[i])
    ensures ClaimRow(HandleEvents(cfg, s, events[..i], worlds), events[i], worlds[i]) in HandleEvents(cfg, s, events, worlds).scheduled
  {
    var before := HandleEvents(cfg, s, events[..i], worlds);
    assert events == events[..i] + events[i..];
    EventsConcat(cfg, s, events[..i], events[i..], worlds);
    assert worlds[i..][0] == worlds[i] && events[i..][0] == events[i];
    OwnUpdateSchedulesClaim(cfg, before, events[i], worlds[i]);
    EventsKeepSchedule(cfg, Logged(HandleChainEvent(cfg, before, events[i], worlds[i])), events[i..][1..], worlds[i..][1..]);
  }

  /** The state in which the i-th event of a block range is handled. */
  function Before(cfg: Config, log: seq<Event>, s: State, step: Step, i: nat): State
    requires step.Sync? && Enabled(log, s, step) && i <= step.count
  {
    HandleEvents(cfg, s, NextEvents(log, s, step.to)[..i], step.worlds)
  }

  lemma BeforeHasForeignKeys(cfg: Config, log: seq<Event>, s: State, step: Step, i: nat)
    requires ForeignKeys(s) && step.Sync? && Enabled(log, s, step) && i <= step.count
    ensures ForeignKeys(Before(cfg, log, s, step, i))
  {
    var events := NextEvents(log, s, step.to);
    ChunkAnnounced(log, s.networks.Keys, s.committed + 1, step.to);
    AnnouncedPrefix(s.networks.Keys, events, i);
    EventsObserved(cfg, s, events[..i], step.worlds, ChannelKey(0, 0));
  }

  lemma UpdateSchedules(cfg: Config, log: seq<Event>, s: State, step: Step, i: nat)
    requires ForeignKeys(s) && step.Sync? && Enabled(log, s, step) && i < step.count
    requires var e := NextEvents(log, s, step.to)[i];
             e.NewBalanceProof? && e.msAddress == cfg.address && IsClaimable(Before(cfg, log, s, step, i), e)
    ensures ClaimRow(Before(cfg, log, s, step, i), NextEvents(log, s, step.to)[i], step.worlds[i]) in Exec(cfg, log, s, step).scheduled
  {
    var events := NextEvents(log, s, step.to);
    assert events[..step.count][..i] == events[..i];
    BeforeHasForeignKeys(cfg, log, s, step, i);
    ScheduledOnTheWay(cfg, s, events[..step.count], step.worlds, i);
  }

  /**
   From the log to the transaction: when our own update is handled for a closed channel and is not outdated, its claim
   is scheduled for the end of the settlement period, and from then on it is pending, sent, or ended by a named exit.
   */
  lemma OwnUpdatesAreClaimed(cfg: Config, log: seq<Event>, start: int, steps: seq<Step>, trace: seq<State>, m: nat, n: nat, i: nat)
    requires Lawful(log, start) && IsSmoothRun(cfg, log, start, steps, trace) && m < n <= |steps|
    requires steps[m].Sync? && i < steps[m].count
    requires var e := NextEvents(log, trace[m], steps[m].to)[i];
             e.NewBalanceProof? && e.msAddress == cfg.address && IsClaimable(Before(cfg, log, trace[m], steps[m], i), e)
    ensures var r := ClaimRow(Before(cfg, log, trace[m], steps[m], i), NextEvents(log, trace[m], steps[m].to)[i], steps[m].worlds[i]);
            && r in trace[m + 1].scheduled
            && (IsPendingOrSent(trace[n], r)
                || exists j {:trigger steps[j]} :: m < j < n && StepExits(cfg, log, trace[j], steps[j], r))
  {
    SmoothRunHealthy(cfg, log, start, steps, trace, m);
    UpdateSchedules(cfg, log, trace[m], steps[m], i);
    var r := ClaimRow(Before(cfg, log, trace[m], steps[m], i), NextEvents(log, trace[m], steps[m].to)[i], steps[m].worlds[i]);
    ClaimsEndByExits(cfg, log, start, steps, trace, m + 1, n, r);
  }
}
