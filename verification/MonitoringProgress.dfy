/**
 No monitoring is lost: a closed channel is monitored, or its monitoring event is pending, or one of
 the named exits was taken for it.
 */
module MonitoringProgress {
  import opened Common
  import opened ChainLog
  import opened MonitoringModel
  import opened ChannelHistory
  import opened Recovery
  import opened MonitoringSafety
  import opened Scheduler
  import opened MonitoringRuns
  import opened MonitoringCrash
  import opened MonitoringReplay

  /** Why the handling of a monitoring event ends without a transaction and without another try. */
  datatype Exit =
    | NoRequest
    | NoChannel
    | InvalidRequest
    | NonceNotHigher
    | RewardTooLow
    | PostponedToItsOwnTrigger
    | TransactionRefused

  function ExitOf(cfg: Config, s: State, row: ScheduledEvent, w: World): Option<Exit>
    requires row.action.TriggerMonitoring?
  {
    var a, rk := row.action, RequestKey(row.action.key, row.action.nonClosing);
    if rk !in s.requests then Some(NoRequest)
    else if a.key !in s.channels then Some(NoChannel)
    else
      var request, channel := s.requests[rk].request, s.channels[a.key];
      if !RequestIsValid(request, a.nonClosing, channel) then Some(InvalidRequest)
      else if request.nonce <= LastOnChainNonce(channel) then Some(NonceNotHigher)
      else if request.rewardAmount < cfg.minReward then Some(RewardTooLow)
      else if 10 * w.deposit < 11 * request.rewardAmount then
        if w.now == row.trigger then Some(PostponedToItsOwnTrigger) else None
      else if w.tx.Refused? then Some(TransactionRefused)
      else None
  }

  ghost predicate IsPending(s: State, k: ChannelKey) {
    exists r :: r in s.scheduled && Monitors(r, k)
  }

  /** The channel is monitored, or will be looked at again. */
  ghost predicate IsCovered(s: State, k: ChannelKey) {
    IsMonitored(s, k) || IsPending(s, k)
  }

  // ---------------------------------------------------------------- chain events

  /** The closing is handled after the settlement period, too late to monitor the channel. */
  predicate ComesTooLate(s: State, e: Event, w: World, k: ChannelKey) {
    e.ChannelClosed? && e.key == k && k in s.channels && k.network in s.networks
    && w.closingTime + s.networks[k.network] < w.now
  }

  lemma EventCovers(cfg: Config, s: State, e: Event, w: World, k: ChannelKey)
    requires Safe(s) && Expected(cfg, s, e)
    ensures var t := Logged(HandleChainEvent(cfg, s, e, w));
            if IsClosed(s, k) then
              IsClosed(t, k) && (IsCovered(t, k) <==> IsCovered(s, k)) && !ComesTooLate(s, e, w, k)
            else if IsClosed(t, k) then
              IsCovered(t, k) <==> !ComesTooLate(s, e, w, k)
            else
              !ComesTooLate(s, e, w, k)
  {
    var t := Logged(HandleChainEvent(cfg, s, e, w));
    if e.ChannelClosed? && e.key == k && k in s.channels {
      assert k.network in s.networks && !IsPending(s, k) && !IsMonitored(t, k);
      if ComesTooLate(s, e, w, k) {
        assert t.scheduled == s.scheduled;
      } else {
        assert ClosingRow(s, e, w) in t.scheduled;
      }
    } else {
      OtherCovers(cfg, s, e, w, k);
    }
  }

  lemma OtherCovers(cfg: Config, s: State, e: Event, w: World, k: ChannelKey)
    requires Safe(s) && Expected(cfg, s, e) && !(e.ChannelClosed? && e.key == k && k in s.channels)
    ensures var t := Logged(HandleChainEvent(cfg, s, e, w));
            IsClosed(t, k) == IsClosed(s, k) && (IsCovered(t, k) <==> IsCovered(s, k))
  {
    OtherKeepsRow(cfg, s, e, w, k);
    OtherKeepsSchedule(cfg, s, e, w, k);
  }

  lemma OtherKeepsRow(cfg: Config, s: State, e: Event, w: World, k: ChannelKey)
    requires Safe(s) && Expected(cfg, s, e) && !(e.ChannelClosed? && e.key == k && k in s.channels)
    ensures var t := Logged(HandleChainEvent(cfg, s, e, w));
            IsClosed(t, k) == IsClosed(s, k) && IsMonitored(t, k) == IsMonitored(s, k)
  {
    if About(e, k) && k in s.channels {
      assert k.network in s.networks;
    }
  }

  lemma OtherKeepsSchedule(cfg: Config, s: State, e: Event, w: World, k: ChannelKey)
    requires !(e.ChannelClosed? && e.key == k && k in s.channels)
    ensures var t := Logged(HandleChainEvent(cfg, s, e, w));
            forall r :: Monitors(r, k) ==> (r in t.scheduled <==> r in s.scheduled)
  {
  }

  ghost predicate OneComesTooLate(cfg: Config, s: State, events: seq<Event>, worlds: seq<World>, k: ChannelKey)
    requires |events| <= |worlds|
    decreases |events|
  {
    && events != []
    && (ComesTooLate(s, events[0], worlds[0], k)
        || OneComesTooLate(cfg, Logged(HandleChainEvent(cfg, s, events[0], worlds[0])), events[1..], worlds[1..], k))
  }

  lemma {:induction false} EventsCover(cfg: Config, s: State, events: seq<Event>, worlds: seq<World>, k: ChannelKey)
    requires |events| <= |worlds| && Safe(s) && AllExpected(cfg, s, events)
    ensures var t, late := HandleEvents(cfg, s, events, worlds), OneComesTooLate(cfg, s, events, worlds, k);
            if IsClosed(s, k) then
              IsClosed(t, k) && (IsCovered(t, k) <==> IsCovered(s, k)) && !late
            else if IsClosed(t, k) then
              IsCovered(t, k) <==> !late
            else
              !late
    decreases |events|
  {
    if events != [] {
      assert events[0] in events && Expected(cfg, s, events[0]);
      ExpectedStep(cfg, s, events, worlds[0]);
      EventCovers(cfg, s, events[0], worlds[0], k);
      EventsCover(cfg, Logged(HandleChainEvent(cfg, s, events[0], worlds[0])), events[1..], worlds[1..], k);
    }
  }

  // ---------------------------------------------------------------- one monitoring event

  /**
   What handling a monitoring event does, by what the request, the row, the deposit and the node say: `monitor` is sent
   if and only if there is a request between the two participants with a higher nonce and enough reward, the deposit
   covers it with a margin of ten percent, nothing was sent before, and the node accepts. A deposit that is too low
   postpones the event. In all other cases the state stays as it is.
   */
  lemma {:induction false} MonitorIsSentExactly(cfg: Config, s: State, a: Action, w: World)
    requires ForeignKeys(s) && a.TriggerMonitoring?
    ensures var h, rk, k := HandleAction(cfg, s, a, w), RequestKey(a.key, a.nonClosing), a.key;
            if rk in s.requests && k in s.channels then
              var request, row := s.requests[rk].request, s.channels[k];
              var wanted := && {request.signer, a.nonClosing} == {row.participant1, row.participant2}
                            && request.signer != a.nonClosing && request.rewardAmount >= cfg.minReward
                            && (if row.updateStatus.Some? then row.updateStatus.value.nonce < request.nonce else 0 < request.nonce);
              var covered := 10 * w.deposit >= 11 * request.rewardAmount;
              var ready := wanted && covered && row.monitorTx.None?;
              && (wanted && !covered ==> h == Handled(s.(scheduled := s.scheduled + {ScheduledEvent(w.now, a)}), Done))
              && (wanted && covered && row.monitorTx.Some? ==> h == Handled(s, Raised(AlreadyMonitored(k))))
              && (ready && w.tx.NotYetAllowed? ==> h == Handled(s, TooEarly))
              && (ready && w.tx.Sent? ==>
                    h == Handled(s.(sent := s.sent + [MonitorCall(k, a.nonClosing, request.nonce)],
                                    waiting := s.waiting + [w.tx.hash],
                                    channels := s.channels[k := row.(monitorTx := Some(w.tx.hash))]), Done))
              && (!wanted || (ready && w.tx.Refused?) ==> h == Handled(s, Done))
            else
              h == Handled(s, Done)
  {
    var rk := RequestKey(a.key, a.nonClosing);
    if rk in s.requests && a.key in s.channels {
      assert a.key.network in s.networks;
      var request, row := s.requests[rk].request, s.channels[a.key];
      if request.signer != a.nonClosing {
        PairOfParticipants(request.signer, a.nonClosing, row.participant1, row.participant2);
      }
    }
  }

  lemma PairOfParticipants(a: Address, b: Address, p: Address, q: Address)
    requires a != b
    ensures {a, b} == {p, q} <==> (a == p || a == q) && (b == p || b == q)
  {
    if {a, b} == {p, q} {
      assert a in {p, q} && b in {p, q};
    }
  }

  // ---------------------------------------------------------------- scheduled actions

  lemma RowCovers(cfg: Config, s: State, row: ScheduledEvent, w: World, k: ChannelKey)
    requires Safe(s) && row in s.scheduled && !HandleAction(cfg, s, row.action, w).outcome.TooEarly?
    ensures var t := Consumed(cfg, s, row, w);
            IsCovered(t, k) <==> if Monitors(row, k) then ExitOf(cfg, s, row, w).None? else IsCovered(s, k)
  {
    var t := Consumed(cfg, s, row, w);
    ConsumedSchedule(cfg, s, row, w);
    if Monitors(row, k) {
      assert forall r :: r in s.scheduled && Monitors(r, k) ==> r == row;
      assert !IsMonitored(s, k);
      if k in s.channels {
        assert k.network in s.networks;
      }
    } else {
      assert IsMonitored(t, k) == IsMonitored(s, k);
      assert forall r :: Monitors(r, k) ==> (r in t.scheduled <==> r in s.scheduled);
    }
  }

  /** One of the rows that a pass handles belongs to the channel and takes an exit. */
  ghost predicate PassGivesUp(cfg: Config, s: State, rows: seq<ScheduledEvent>, worlds: seq<World>, k: ChannelKey)
    requires |rows| <= |worlds|
    decreases |rows|
  {
    && rows != [] && !HandleAction(cfg, s, rows[0].action, worlds[0]).outcome.TooEarly?
    && ((Monitors(rows[0], k) && ExitOf(cfg, s, rows[0], worlds[0]).Some?)
        || PassGivesUp(cfg, Consumed(cfg, s, rows[0], worlds[0]), rows[1..], worlds[1..], k))
  }

  lemma {:induction false} PassCovers(cfg: Config, s: State, rows: seq<ScheduledEvent>, worlds: seq<World>, k: ChannelKey)
    requires |rows| <= |worlds| && Safe(s) && Pending(s, rows)
    ensures IsCovered(s, k) ==> (IsCovered(Pass(cfg, s, rows, worlds), k) <==> !PassGivesUp(cfg, s, rows, worlds, k))
    ensures !IsCovered(s, k) ==> !IsCovered(Pass(cfg, s, rows, worlds), k) && !PassGivesUp(cfg, s, rows, worlds, k)
    decreases |rows|
  {
    if rows != [] {
      assert rows[0] in rows;
      if HandleAction(cfg, s, rows[0].action, worlds[0]).outcome.TooEarly? {
        TooEarlyKeepsState(cfg, s, rows[0].action, worlds[0]);
        var t := Pass(cfg, s, rows, worlds);
        assert t.scheduled == s.scheduled && IsMonitored(t, k) == IsMonitored(s, k);
      } else {
        RowCovers(cfg, s, rows[0], worlds[0], k);
        ConsumedSafe(cfg, s, rows[0], worlds[0]);
        RestPending(cfg, s, rows, worlds[0]);
        PassCovers(cfg, Consumed(cfg, s, rows[0], worlds[0]), rows[1..], worlds[1..], k);
      }
    }
  }

  /** A row that is handled and not deleted stays pending, whatever its handling did. */
  lemma UndeletedCovers(cfg: Config, s: State, row: ScheduledEvent, w: World, k: ChannelKey)
    requires Safe(s) && row in s.scheduled
    ensures IsCovered(Logged(HandleAction(cfg, s, row.action, w)), k) <==> IsCovered(s, k)
  {
    var t := Logged(HandleAction(cfg, s, row.action, w));
    if Monitors(row, k) {
      assert row in t.scheduled;
    } else {
      OtherRowStays(cfg, s, row, w, k);
    }
  }

  /** A stopped pass gives up what its deleted rows gave up. */
  lemma {:induction false} StoppedPassCovers(cfg: Config, s: State, rows: seq<ScheduledEvent>, worlds: seq<World>, k: ChannelKey)
    requires rows != [] && |rows| <= |worlds| && Safe(s) && Pending(s, rows)
    ensures var t, lost := StoppedPass(cfg, s, rows, worlds), PassGivesUp(cfg, s, rows[..|rows| - 1], worlds, k);
            && (IsCovered(s, k) ==> (IsCovered(t, k) <==> !lost))
            && (!IsCovered(s, k) ==> !IsCovered(t, k) && !lost)
    decreases |rows|
  {
    var front := rows[..|rows| - 1];
    assert rows[0] in rows;
    if |rows| == 1 {
      UndeletedCovers(cfg, s, rows[0], worlds[0], k);
    } else if HandleAction(cfg, s, rows[0].action, worlds[0]).outcome.TooEarly? {
      TooEarlyKeepsState(cfg, s, rows[0].action, worlds[0]);
      var t := StoppedPass(cfg, s, rows, worlds);
      assert t.scheduled == s.scheduled && IsMonitored(t, k) == IsMonitored(s, k);
    } else {
      assert front[0] == rows[0] && front[1..] == rows[1..][..|rows[1..]| - 1];
      RowCovers(cfg, s, rows[0], worlds[0], k);
      ConsumedSafe(cfg, s, rows[0], worlds[0]);
      RestPending(cfg, s, rows, worlds[0]);
      StoppedPassCovers(cfg, Consumed(cfg, s, rows[0], worlds[0]), rows[1..], worlds[1..], k);
    }
  }

  // ---------------------------------------------------------------- runs

  /** The step loses the monitoring of the channel for one of the named reasons. */
  ghost predicate StepGivesUp(cfg: Config, log: seq<Event>, s: State, step: Step, k: ChannelKey)
    requires Enabled(log, s, step)
  {
    match step
    case Sync(to, count, worlds) => OneComesTooLate(cfg, s, NextEvents(log, s, to)[..count], worlds, k)
    case Tick(now, rows, worlds) => s.barrier <= now && PassGivesUp(cfg, s, rows, worlds, k)
    case StoppedTick(now, rows, worlds) => s.barrier <= now && PassGivesUp(cfg, s, rows[..|rows| - 1], worlds, k)
    case _ => false
  }

  lemma StepCovers(cfg: Config, log: seq<Event>, start: int, s: State, step: Step, k: ChannelKey)
    requires Lawful(log, start) && Healthy(log, start, s) && Enabled(log, s, step) && !StoppedAfterClosing(log, s, step)
    requires step.Sync? ==> forall e :: e in NextEvents(log, s, step.to) ==> Causal(cfg, s, e)
    ensures var t, lost := Exec(cfg, log, s, step), StepGivesUp(cfg, log, s, step, k);
            if IsClosed(s, k) then
              && IsClosed(t, k)
              && (IsCovered(s, k) ==> (IsCovered(t, k) <==> !lost))
              && (!IsCovered(s, k) ==> !IsCovered(t, k) && !lost)
            else if IsClosed(t, k) then
              IsCovered(t, k) <==> !lost
            else
              !lost
  {
    match step
    case Sync(to, count, worlds) =>
      NextExpected(cfg, log, start, s, to);
      ExpectedPrefix(cfg, s, NextEvents(log, s, to), count);
      EventsCover(cfg, s, NextEvents(log, s, to)[..count], worlds, k);
    case Tick(now, rows, worlds) =>
      OtherStep(cfg, log, s, step);
      ClosedAsBefore(s, Exec(cfg, log, s, step), k);
      if s.barrier <= now {
        PassCovers(cfg, s, rows, worlds, k);
      }
    case StoppedTick(now, rows, worlds) =>
      OtherStep(cfg, log, s, step);
      ClosedAsBefore(s, Exec(cfg, log, s, step), k);
      if s.barrier <= now {
        StoppedPassCovers(cfg, s, rows, worlds, k);
      }
    case _ =>
  }

  lemma ClosedAsBefore(s: State, t: State, k: ChannelKey)
    requires Safe(s) && ViewOf(t, k) == ViewOf(s, k)
    ensures IsClosed(t, k) == IsClosed(s, k) && (IsCovered(s, k) ==> IsClosed(s, k))
  {
  }

  /**
   In every smooth run, a closed channel is monitored or its monitoring event is pending if and only if no step
   has lost it: the closing came after the settlement period, or a pass took one of the named exits for it.
   */
  lemma {:induction false} NoMonitoringIsLost(cfg: Config, log: seq<Event>, start: int, steps: seq<Step>, trace: seq<State>,
                                              n: nat, k: ChannelKey)
    requires Lawful(log, start) && IsSmoothRun(cfg, log, start, steps, trace) && n <= |steps|
    ensures IsAccounted(cfg, log, steps, trace, n, k)
  {
    if n == 0 {
      assert IsAccounted(cfg, log, steps, trace, 0, k);
    } else {
      NoMonitoringIsLost(cfg, log, start, steps, trace, n - 1, k);
      NextAccounted(cfg, log, start, steps, trace, n - 1, k);
    }
  }

  /** A closed channel is covered if and only if no step gave it up; no other channel was given up. */
  ghost predicate IsAccounted(cfg: Config, log: seq<Event>, steps: seq<Step>, trace: seq<State>, n: nat, k: ChannelKey)
    requires IsRun(cfg, log, steps, trace) && n <= |steps|
  {
    if IsClosed(trace[n], k) then IsCovered(trace[n], k) <==> !IsGivenUp(cfg, log, steps, trace, n, k)
    else !IsGivenUp(cfg, log, steps, trace, n, k)
  }

  lemma NextAccounted(cfg: Config, log: seq<Event>, start: int, steps: seq<Step>, trace: seq<State>, i: nat, k: ChannelKey)
    requires Lawful(log, start) && IsSmoothRun(cfg, log, start, steps, trace) && i < |steps|
    requires IsAccounted(cfg, log, steps, trace, i, k)
    ensures IsAccounted(cfg, log, steps, trace, i + 1, k)
  {
    GivenUpNext(cfg, log, steps, trace, i, k);
    NextCovers(cfg, log, start, steps, trace, i, k);
  }

  /** One of the first n steps lost the monitoring of the channel. */
  ghost predicate IsGivenUp(cfg: Config, log: seq<Event>, steps: seq<Step>, trace: seq<State>, n: nat, k: ChannelKey)
    requires IsRun(cfg, log, steps, trace) && n <= |steps|
  {
    exists i {:trigger steps[i]} :: 0 <= i < n && StepGivesUp(cfg, log, trace[i], steps[i], k)
  }

  lemma GivenUpNext(cfg: Config, log: seq<Event>, steps: seq<Step>, trace: seq<State>, i: nat, k: ChannelKey)
    requires IsRun(cfg, log, steps, trace) && i < |steps|
    ensures IsGivenUp(cfg, log, steps, trace, i + 1, k)
            <==> IsGivenUp(cfg, log, steps, trace, i, k) || StepGivesUp(cfg, log, trace[i], steps[i], k)
  {
  }

  lemma NextCovers(cfg: Config, log: seq<Event>, start: int, steps: seq<Step>, trace: seq<State>, i: nat, k: ChannelKey)
    requires Lawful(log, start) && IsSmoothRun(cfg, log, start, steps, trace) && i < |steps|
    ensures var s, t, lost := trace[i], trace[i + 1], StepGivesUp(cfg, log, trace[i], steps[i], k);
            if IsClosed(s, k) then
              && IsClosed(t, k)
              && (IsCovered(s, k) ==> (IsCovered(t, k) <==> !lost))
              && (!IsCovered(s, k) ==> !IsCovered(t, k) && !lost)
            else if IsClosed(t, k) then
              IsCovered(t, k) <==> !lost
            else
              !lost
  {
    SmoothRunHealthy(cfg, log, start, steps, trace, i);
    SmoothStep(cfg, log, start, steps, trace, i);
    StepCovers(cfg, log, start, trace[i], steps[i], k);
  }

  // ---------------------------------------------------------------- an event that is put back in vain

  /** The deposit does not cover the reward, and the clock shows the second of the trigger. */
  const POOR := WORLD.(deposit := 0)

  lemma Postponing(w: World)
    requires w.deposit == 0
    ensures var s := ClosedState(CLOSED, {DUE}, 1, 0);
            && Safe(s) && IsDueList(s, 1, [DUE])
            && Pass(CONFIG, s, [DUE], [w])
               == s.(scheduled := if w.now == 1 then {} else {ScheduledEvent(w.now, DUE.action)})
  {
    var s := ClosedState(CLOSED, {DUE}, 1, 0);
    assert DUE in [DUE];
    assert forall r :: r in [DUE] ==> r == DUE;
    var h := HandleMonitoring(CONFIG, s, DUE.action, w);
    assert h.state.scheduled == {DUE, ScheduledEvent(w.now, DUE.action)};
    var t := RemoveScheduled(Logged(h), DUE);
    assert t.scheduled == if w.now == 1 then {} else {ScheduledEvent(w.now, DUE.action)};
    assert Pass(CONFIG, s, [DUE], [w]) == Pass(CONFIG, t, [DUE][1..], [w][1..]) == t;
  }

  /** A pass in a safe state that loses a postponed event; one second later it would have been put back. */
  lemma PostponingCanLoseTheEvent()
    ensures var s := ClosedState(CLOSED, {DUE}, 1, 0);
            && Safe(s) && IsDueList(s, 1, [DUE]) && IsCovered(s, KEY)
            && Postpones(CONFIG, s, DUE.action, POOR)
            && Pass(CONFIG, s, [DUE], [POOR]).scheduled == {} && !IsCovered(Pass(CONFIG, s, [DUE], [POOR]), KEY)
            && Pass(CONFIG, s, [DUE], [POOR.(now := 2)]).scheduled == {ScheduledEvent(2, DUE.action)}
  {
    Postponing(POOR);
    Postponing(POOR.(now := 2));
    assert DUE in ClosedState(CLOSED, {DUE}, 1, 0).scheduled && Monitors(DUE, KEY);
  }
}
