/**
 The monitor request table under its two writers, the request collector and the purge of the
 monitoring service, interleaved with everything else the service does.
 */
module RequestStore {
  import opened Common
  import opened ChainLog
  import opened MonitoringModel
  import opened ChannelHistory
  import opened Recovery
  import opened MonitoringSafety
  import opened MonitoringRuns

  /** The row is still there, with the same request or one with a higher nonce. */
  ghost predicate Renewed(s: State, t: State, rk: RequestKey) {
    rk in s.requests ==>
      && rk in t.requests
      && (t.requests[rk].request == s.requests[rk].request || s.requests[rk].request.nonce < t.requests[rk].request.nonce)
  }

  ghost predicate SameRequest(s: State, t: State, rk: RequestKey) {
    && (rk in s.requests <==> rk in t.requests)
    && (rk in s.requests ==> t.requests[rk].request == s.requests[rk].request)
  }

  lemma EventKeepsRequests(cfg: Config, s: State, e: Event, w: World)
    ensures var t := HandleChainEvent(cfg, s, e, w).state; t.requests == s.requests && s.channels.Keys <= t.channels.Keys
  {
  }

  lemma {:induction false} EventsKeepRequests(cfg: Config, s: State, events: seq<Event>, worlds: seq<World>)
    requires |events| <= |worlds|
    ensures var t := HandleEvents(cfg, s, events, worlds); t.requests == s.requests && s.channels.Keys <= t.channels.Keys
    decreases |events|
  {
    if events != [] {
      EventKeepsRequests(cfg, s, events[0], worlds[0]);
      EventsKeepRequests(cfg, Logged(HandleChainEvent(cfg, s, events[0], worlds[0])), events[1..], worlds[1..]);
    }
  }

  lemma {:induction false} PassKeepsRequests(cfg: Config, s: State, rows: seq<ScheduledEvent>, worlds: seq<World>)
    requires |rows| <= |worlds|
    ensures Pass(cfg, s, rows, worlds).requests == s.requests
    decreases |rows|
  {
    if rows != [] {
      var h := HandleAction(cfg, s, rows[0].action, worlds[0]);
      if !h.outcome.TooEarly? {
        PassKeepsRequests(cfg, RemoveScheduled(Logged(h), rows[0]), rows[1..], worlds[1..]);
      }
    }
  }

  lemma {:induction false} StoppedPassKeepsRequests(cfg: Config, s: State, rows: seq<ScheduledEvent>, worlds: seq<World>)
    requires rows != [] && |rows| <= |worlds|
    ensures StoppedPass(cfg, s, rows, worlds).requests == s.requests
    decreases |rows|
  {
    var h := HandleAction(cfg, s, rows[0].action, worlds[0]);
    if |rows| > 1 && !h.outcome.TooEarly? {
      StoppedPassKeepsRequests(cfg, RemoveScheduled(Logged(h), rows[0]), rows[1..], worlds[1..]);
    }
  }

  lemma StepRenews(cfg: Config, log: seq<Event>, s: State, step: Step, rk: RequestKey)
    requires Enabled(log, s, step) && rk.key in s.channels
    ensures var t := Exec(cfg, log, s, step); Renewed(s, t, rk) && rk.key in t.channels
  {
    match step
    case Sync(to, count, worlds) => EventsKeepRequests(cfg, s, NextEvents(log, s, to)[..count], worlds);
    case Tick(now, rows, worlds) =>
      PassKeepsRequests(cfg, s, rows, worlds);
      OtherStep(cfg, log, s, step);
    case StoppedTick(now, rows, worlds) =>
      StoppedPassKeepsRequests(cfg, s, rows, worlds);
      OtherStep(cfg, log, s, step);
    case _ =>
  }

  /**
   Once a channel row exists, its monitor requests are never purged, and every replacement raises
   the nonce. This holds in every run, with crashes.
   */
  lemma {:induction false} RequestsAreKept(cfg: Config, log: seq<Event>, steps: seq<Step>, trace: seq<State>,
                                           n: nat, m: nat, rk: RequestKey)
    requires IsRun(cfg, log, steps, trace) && n <= m <= |steps| && rk.key in trace[n].channels
    ensures Renewed(trace[n], trace[m], rk) && rk.key in trace[m].channels
  {
    if n < m {
      RequestsAreKept(cfg, log, steps, trace, n, m - 1, rk);
      StepRenews(cfg, log, trace[m - 1], steps[m - 1], rk);
    }
  }

  // ---------------------------------------------------------------- the age of a closing

  lemma EventCloses(cfg: Config, s: State, e: Event, w: World, k: ChannelKey)
    ensures var t := Logged(HandleChainEvent(cfg, s, e, w));
            && (IsClosed(t, k) ==> Closes(e, t, k) || (IsClosed(s, k) && t.channels[k].closingBlock == s.channels[k].closingBlock))
            && (IsClosed(s, k) && !(About(e, k) && (e.ChannelOpened? || e.ChannelClosed?)) ==> IsClosed(t, k))
  {
  }

  /** Every closing that a row shows is in the log. */
  ghost predicate ClosingsFromLog(log: seq<Event>, s: State) {
    forall k :: IsClosed(s, k) ==> exists e :: e in log && Closes(e, s, k)
  }

  lemma {:induction false} EventsCloseFromLog(cfg: Config, log: seq<Event>, s: State, events: seq<Event>, worlds: seq<World>)
    requires |events| <= |worlds| && ClosingsFromLog(log, s) && forall e :: e in events && e.ChannelClosed? ==> e in log
    ensures ClosingsFromLog(log, HandleEvents(cfg, s, events, worlds))
    decreases |events|
  {
    if events != [] {
      var t := Logged(HandleChainEvent(cfg, s, events[0], worlds[0]));
      assert events[0] in events;
      forall k | IsClosed(t, k)
        ensures exists e :: e in log && Closes(e, t, k)
      {
        EventCloses(cfg, s, events[0], worlds[0], k);
        if !Closes(events[0], t, k) {
          var e :| e in log && Closes(e, s, k);
          assert Closes(e, t, k);
        }
      }
      EventsCloseFromLog(cfg, log, t, events[1..], worlds[1..]);
    }
  }

  lemma {:induction false} EventsKeepClosing(cfg: Config, s: State, events: seq<Event>, worlds: seq<World>, k: ChannelKey)
    requires |events| <= |worlds| && IsClosed(s, k)
    requires forall e :: e in events && (e.ChannelOpened? || e.ChannelClosed?) ==> e.key != k
    ensures var t := HandleEvents(cfg, s, events, worlds);
            IsClosed(t, k) && t.channels[k].closingBlock == s.channels[k].closingBlock
    decreases |events|
  {
    if events != [] {
      assert events[0] in events;
      EventCloses(cfg, s, events[0], worlds[0], k);
      EventsKeepClosing(cfg, Logged(HandleChainEvent(cfg, s, events[0], worlds[0])), events[1..], worlds[1..], k);
    }
  }

  ghost predicate FromLog(log: seq<Event>, start: int, s: State) {
    InStep(log, start, s) && ClosingsFromLog(log, s)
  }

  lemma SameClosing(s: State, t: State, k: ChannelKey)
    requires ViewOf(t, k) == ViewOf(s, k)
    ensures IsClosed(t, k) == IsClosed(s, k)
    ensures IsClosed(s, k) ==> t.channels[k].closingBlock == s.channels[k].closingBlock
  {
  }

  lemma StepFromLog(cfg: Config, log: seq<Event>, start: int, s: State, step: Step)
    requires WellFormed(log, start) && FromLog(log, start, s) && Enabled(log, s, step)
    ensures ClosingsFromLog(log, Exec(cfg, log, s, step))
  {
    var t := Exec(cfg, log, s, step);
    if step.Sync? {
      NextIsFullChunk(log, start, s, step.to);
      ChunkMembers(log, s.committed + 1, step.to);
      EventsCloseFromLog(cfg, log, s, NextEvents(log, s, step.to)[..step.count], step.worlds);
    } else {
      OtherStep(cfg, log, s, step);
      forall k | IsClosed(t, k)
        ensures exists e :: e in log && Closes(e, t, k)
      {
        SameClosing(s, t, k);
        var e :| e in log && Closes(e, s, k);
        assert Closes(e, t, k);
      }
    }
  }

  lemma {:induction false} RunFromLog(cfg: Config, log: seq<Event>, start: int, now: int, steps: seq<Step>, trace: seq<State>, n: nat)
    requires WellFormed(log, start) && IsRun(cfg, log, steps, trace) && trace[0] == InitialState(start, now) && n <= |steps|
    ensures FromLog(log, start, trace[n])
  {
    AlwaysInStep(cfg, log, start, now, steps, trace, n);
    if n > 0 {
      RunFromLog(cfg, log, start, now, steps, trace, n - 1);
      StepFromLog(cfg, log, start, trace[n - 1], steps[n - 1]);
    }
  }

  /** The closing that the row shows is behind the cursor; while its block range is handled, it is not. */
  ghost predicate ClosedBehind(s: State, k: ChannelKey) {
    CloseAge(s, k).Some? && CloseAge(s, k).value >= 0
  }

  /** The opening and the closing of such a channel are behind the cursor, too, and are never replayed. */
  lemma NeitherReplayed(log: seq<Event>, start: int, s: State, k: ChannelKey, e: Event)
    requires Lawful(log, start) && ClosingsFromLog(log, s) && ClosedBehind(s, k)
    requires e in log && s.committed < e.block
    ensures (e.ChannelOpened? || e.ChannelClosed?) ==> e.key != k
  {
    assert IsClosed(s, k);
    var c :| c in log && Closes(c, s, k);
    var i :| 0 <= i < |log| && log[i] == e;
    var j :| 0 <= j < |log| && log[j] == c;
    assert log[j].block < log[i].block;
  }

  lemma StepAges(cfg: Config, log: seq<Event>, start: int, s: State, step: Step, k: ChannelKey)
    requires Lawful(log, start) && FromLog(log, start, s) && Enabled(log, s, step) && ClosedBehind(s, k)
    ensures var t := Exec(cfg, log, s, step);
            && s.committed <= t.committed
            && CloseAge(t, k) == Some(CloseAge(s, k).value + t.committed - s.committed)
  {
    if step.Sync? {
      SyncCursor(cfg, log, start, s, step);
      NextNeitherReplays(log, start, s, step.to, k);
      EventsKeepClosing(cfg, s, NextEvents(log, s, step.to)[..step.count], step.worlds, k);
    } else {
      OtherStep(cfg, log, s, step);
      SameClosing(s, Exec(cfg, log, s, step), k);
    }
  }

  lemma NextNeitherReplays(log: seq<Event>, start: int, s: State, to: int, k: ChannelKey)
    requires Lawful(log, start) && FromLog(log, start, s) && ClosedBehind(s, k)
    ensures forall e :: e in NextEvents(log, s, to) && (e.ChannelOpened? || e.ChannelClosed?) ==> e.key != k
  {
    NextIsFullChunk(log, start, s, to);
    ChunkMembers(log, s.committed + 1, to);
    forall e | e in NextEvents(log, s, to) && (e.ChannelOpened? || e.ChannelClosed?)
      ensures e.key != k
    {
      NeitherReplayed(log, start, s, k, e);
    }
  }

  /** In every run, once the age of a closing is not negative, it grows with the cursor, block by block. */
  lemma {:induction false} CloseAgeGrows(cfg: Config, log: seq<Event>, start: int, now: int, steps: seq<Step>, trace: seq<State>,
                                         n: nat, m: nat, k: ChannelKey)
    requires Lawful(log, start) && IsRun(cfg, log, steps, trace) && trace[0] == InitialState(start, now) && n <= m <= |steps|
    requires ClosedBehind(trace[n], k)
    ensures trace[n].committed <= trace[m].committed
    ensures CloseAge(trace[m], k) == Some(CloseAge(trace[n], k).value + trace[m].committed - trace[n].committed)
  {
    if n == m {
      assert ClosedBehind(trace[m], k);
    } else {
      CloseAgeGrows(cfg, log, start, now, steps, trace, n, m - 1, k);
      RunFromLog(cfg, log, start, now, steps, trace, m - 1);
      StepAges(cfg, log, start, trace[m - 1], steps[m - 1], k);
    }
  }

  // ---------------------------------------------------------------- frozen requests

  /** The channel was closed at least CHANNEL_CLOSE_MARGIN committed blocks ago. */
  ghost predicate LongClosed(s: State, k: ChannelKey) {
    CloseAge(s, k).Some? && CHANNEL_CLOSE_MARGIN <= CloseAge(s, k).value
  }

  lemma StepKeepsFrozen(cfg: Config, log: seq<Event>, s: State, step: Step, rk: RequestKey)
    requires Enabled(log, s, step) && LongClosed(s, rk.key)
    ensures SameRequest(s, Exec(cfg, log, s, step), rk)
  {
    match step
    case Sync(to, count, worlds) => EventsKeepRequests(cfg, s, NextEvents(log, s, to)[..count], worlds);
    case Tick(_, rows, worlds) => PassKeepsRequests(cfg, s, rows, worlds);
    case StoppedTick(_, rows, worlds) => StoppedPassKeepsRequests(cfg, s, rows, worlds);
    case _ =>
  }

  /** In every run, from CHANNEL_CLOSE_MARGIN blocks after the close on, the requests of a channel are frozen for good. */
  lemma {:induction false} RequestsFreeze(cfg: Config, log: seq<Event>, start: int, now: int, steps: seq<Step>, trace: seq<State>,
                                          n: nat, m: nat, rk: RequestKey)
    requires Lawful(log, start) && IsRun(cfg, log, steps, trace) && trace[0] == InitialState(start, now) && n <= m <= |steps|
    requires LongClosed(trace[n], rk.key)
    ensures LongClosed(trace[m], rk.key) && SameRequest(trace[n], trace[m], rk)
  {
    if n == m {
      assert LongClosed(trace[m], rk.key);
    } else {
      RequestsFreeze(cfg, log, start, now, steps, trace, n, m - 1, rk);
      RunFromLog(cfg, log, start, now, steps, trace, m - 1);
      StepAges(cfg, log, start, trace[m - 1], steps[m - 1], rk.key);
      StepKeepsFrozen(cfg, log, trace[m - 1], steps[m - 1], rk);
    }
  }

  // ---------------------------------------------------------------- where requests come from

  /**
   A message is stored if and only if its three signatures are well formed and those of the non-closing participant
   agree, it is for this chain, the channel is not known to be closed for ten blocks or more, and its nonce is higher
   than the stored one. Storing it makes it wait for its channel, and changes nothing else.
   */
  lemma StoredExactly(cfg: Config, s: State, m: Message)
    ensures var t, rk := Collected(cfg, s, m), RequestKey(m.key, m.nonClosingSigner);
            var welcome := && m.wellFormed && m.chainId == cfg.chainId
                           && m.nonClosingParticipant == m.nonClosingSigner == m.rewardProofSigner
                           && (IsClosed(s, m.key) ==> s.committed - s.channels[m.key].closingBlock.value < 10)
                           && (rk in s.requests ==> s.requests[rk].request.nonce < m.request.nonce);
            if welcome then t == s.(requests := s.requests[rk := RequestRow(m.request, true)]) else t == s
  {
  }

  /** What a purge leaves: it deletes aged requests that wait in vain, and ends the waiting of those with a channel. */
  lemma PurgedExactly(s: State, aged: set<RequestKey>, rk: RequestKey)
    ensures var t := Purged(s, aged);
            && (rk in t.requests <==> rk in s.requests && (rk in aged && s.requests[rk].waitingForChannel ==> rk.key in s.channels))
            && (rk in t.requests ==>
                  && t.requests[rk].request == s.requests[rk].request
                  && (t.requests[rk].waitingForChannel <==> s.requests[rk].waitingForChannel && rk.key !in s.channels))
            && t == s.(requests := t.requests)
  {
  }

  /**
   The step stored this request for the channel: the non-closing participant asked for it on this chain, and its
   nonce was new.
   */
  ghost predicate Stores(cfg: Config, s: State, step: Step, rk: RequestKey, request: MonitorRequest) {
    && step.Collect?
    && var m := step.message;
       && m.key == rk.key && m.request == request && m.wellFormed && m.chainId == cfg.chainId
       && m.nonClosingParticipant == m.nonClosingSigner == m.rewardProofSigner == rk.nonClosingSigner
       && (IsClosed(s, m.key) ==> s.committed - s.channels[m.key].closingBlock.value < 10)
       && (rk in s.requests ==> s.requests[rk].request.nonce < request.nonce)
  }

  /** No purge after step i and before n has seen the channel. */
  ghost predicate Unnoticed(steps: seq<Step>, trace: seq<State>, i: nat, n: nat, k: ChannelKey)
    requires n <= |steps| < |trace|
  {
    forall j {:trigger steps[j]} :: i < j < n && steps[j].Purge? ==> k !in trace[j].channels
  }

  ghost predicate IsStored(cfg: Config, steps: seq<Step>, trace: seq<State>, n: nat, rk: RequestKey)
    requires n <= |steps| < |trace| && rk in trace[n].requests
  {
    exists i {:trigger steps[i]} :: 0 <= i < n && Stores(cfg, trace[i], steps[i], rk, trace[n].requests[rk].request)
              && (trace[n].requests[rk].waitingForChannel <==> Unnoticed(steps, trace, i, n, rk.key))
  }

  lemma NextStored(cfg: Config, log: seq<Event>, steps: seq<Step>, trace: seq<State>, n: nat, rk: RequestKey)
    requires IsRun(cfg, log, steps, trace) && n < |steps| && rk in trace[n + 1].requests
    requires rk in trace[n].requests ==> IsStored(cfg, steps, trace, n, rk)
    ensures IsStored(cfg, steps, trace, n + 1, rk)
  {
    var s, t, step := trace[n], trace[n + 1], steps[n];
    if step.Collect? && Stores(cfg, s, step, rk, t.requests[rk].request) && t == Collected(cfg, s, step.message)
       && step.message.nonClosingSigner == rk.nonClosingSigner && t.requests[rk] == RequestRow(step.message.request, true) {
      assert Unnoticed(steps, trace, n, n + 1, rk.key);
      assert Stores(cfg, trace[n], steps[n], rk, t.requests[rk].request);
    } else {
      OtherwiseKept(cfg, log, s, step, rk);
      var i :| 0 <= i < n && Stores(cfg, trace[i], steps[i], rk, s.requests[rk].request)
               && (s.requests[rk].waitingForChannel <==> Unnoticed(steps, trace, i, n, rk.key));
      assert Unnoticed(steps, trace, i, n + 1, rk.key)
             <==> Unnoticed(steps, trace, i, n, rk.key) && (steps[n].Purge? ==> rk.key !in s.channels);
      assert Stores(cfg, trace[i], steps[i], rk, t.requests[rk].request);
    }
  }

  lemma OtherwiseKept(cfg: Config, log: seq<Event>, s: State, step: Step, rk: RequestKey)
    requires Enabled(log, s, step) && rk in Exec(cfg, log, s, step).requests
    requires !(step.Collect? && Stores(cfg, s, step, rk, Exec(cfg, log, s, step).requests[rk].request)
               && step.message.nonClosingSigner == rk.nonClosingSigner
               && Exec(cfg, log, s, step).requests[rk] == RequestRow(step.message.request, true))
    ensures var t := Exec(cfg, log, s, step);
            && rk in s.requests && t.requests[rk].request == s.requests[rk].request
            && (t.requests[rk].waitingForChannel
                <==> s.requests[rk].waitingForChannel && (step.Purge? ==> rk.key !in s.channels))
  {
    match step
    case Sync(to, count, worlds) => EventsKeepRequests(cfg, s, NextEvents(log, s, to)[..count], worlds);
    case Tick(_, rows, worlds) => PassKeepsRequests(cfg, s, rows, worlds);
    case StoppedTick(_, rows, worlds) => StoppedPassKeepsRequests(cfg, s, rows, worlds);
    case Purge(aged) => PurgedExactly(s, aged, rk);
    case Collect(m) => StoredExactly(cfg, s, m);
    case _ =>
  }

  /**
   In every run, every stored request was asked for by its non-closing participant on this chain, with a nonce that
   was new and for a channel not long closed; it waits if and only if no purge has seen the channel since.
   */
  lemma {:induction false} RequestsWereAskedFor(cfg: Config, log: seq<Event>, start: int, now: int, steps: seq<Step>,
                                                trace: seq<State>, n: nat, rk: RequestKey)
    requires IsRun(cfg, log, steps, trace) && trace[0] == InitialState(start, now) && n <= |steps| && rk in trace[n].requests
    ensures IsStored(cfg, steps, trace, n, rk)
  {
    assert n > 0;
    if rk in trace[n - 1].requests {
      RequestsWereAskedFor(cfg, log, start, now, steps, trace, n - 1, rk);
    }
    NextStored(cfg, log, steps, trace, n - 1, rk);
  }

  /** In every run, a request disappears only by a purge that finds it aged and still without a channel. */
  lemma OnlyPurgesDelete(cfg: Config, log: seq<Event>, steps: seq<Step>, trace: seq<State>, n: nat, rk: RequestKey)
    requires IsRun(cfg, log, steps, trace) && n < |steps| && rk in trace[n].requests && rk !in trace[n + 1].requests
    ensures steps[n].Purge? && rk in steps[n].aged && rk.key !in trace[n].channels && trace[n].requests[rk].waitingForChannel
  {
    var s, step := trace[n], steps[n];
    assert trace[n + 1] == Exec(cfg, log, s, step);
    match step
    case Sync(to, count, worlds) => EventsKeepRequests(cfg, s, NextEvents(log, s, to)[..count], worlds);
    case Tick(_, rows, worlds) => PassKeepsRequests(cfg, s, rows, worlds);
    case StoppedTick(_, rows, worlds) => StoppedPassKeepsRequests(cfg, s, rows, worlds);
    case Purge(aged) => PurgedExactly(s, aged, rk);
    case Collect(m) => StoredExactly(cfg, s, m);
    case _ =>
  }
}
