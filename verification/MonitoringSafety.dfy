/**
 One invariant of the monitoring service: no handler ever fails, a channel is monitored at most
 once and claimed at most once, and a scheduler pass consumes exactly what it handled.
 */
module MonitoringSafety {
  import opened Common
  import opened ChainLog
  import opened MonitoringModel
  import opened ChannelHistory
  import opened Recovery

  ghost predicate IsClosed(s: State, k: ChannelKey) {
    k in s.channels && s.channels[k].closingBlock.Some?
  }

  ghost predicate IsMonitored(s: State, k: ChannelKey) {
    k in s.channels && s.channels[k].monitorTx.Some?
  }

  ghost predicate IsClaimed(s: State, k: ChannelKey) {
    k in s.channels && s.channels[k].claimTx.Some?
  }

  /** No two transactions of the same kind for the same channel. */
  ghost predicate SentOnce(sent: seq<Call>) {
    forall i, j :: 0 <= i < j < |sent| && sent[i].key == sent[j].key ==> sent[i].MonitorCall? != sent[j].MonitorCall?
  }

  predicate SameMonitoring(a: Action, b: Action) {
    a.TriggerMonitoring? && b.TriggerMonitoring? && a.key == b.key
  }

  ghost predicate ScheduleIsSafe(s: State) {
    && (forall r :: r in s.scheduled && r.action.TriggerMonitoring? ==> IsClosed(s, r.action.key) && !IsMonitored(s, r.action.key))
    && (forall r, q :: r in s.scheduled && q in s.scheduled && SameMonitoring(r.action, q.action) ==> r == q)
    && (forall r :: r in s.scheduled && r.action.TriggerClaim? ==> IsMonitored(s, r.action.key))
  }

  ghost predicate SentIsSafe(s: State) {
    && SentOnce(s.sent)
    && (forall c :: c in s.sent && c.MonitorCall? ==> IsMonitored(s, c.key))
    && (forall c :: c in s.sent && c.ClaimCall? ==> IsClaimed(s, c.key))
  }

  ghost predicate Safe(s: State) {
    && ForeignKeys(s)
    && (forall k :: IsMonitored(s, k) ==> IsClosed(s, k))
    && (forall k :: IsClaimed(s, k) ==> IsMonitored(s, k))
    && ScheduleIsSafe(s)
    && SentIsSafe(s)
    && s.faults == []
  }

  /** Under the invariant, the DELETE without an event type removes exactly the named row. */
  lemma RemovalIsExact(s: State, row: ScheduledEvent)
    requires ScheduleIsSafe(s) && row in s.scheduled
    ensures RemoveScheduled(s, row).scheduled == s.scheduled - {row}
  {
    forall r | r in s.scheduled && Deletes(row, r)
      ensures r == row
    {
      assert r.action.TriggerMonitoring? == row.action.TriggerMonitoring?;
    }
  }

  /** The event of the other type for the same second, channel and participant. */
  function Twin(row: ScheduledEvent): ScheduledEvent {
    row.(action := if row.action.TriggerMonitoring? then TriggerClaim(row.action.key, row.action.nonClosing)
                   else TriggerMonitoring(row.action.key, row.action.nonClosing))
  }

  /** The DELETE removes the named row and its twin, so that it is exact if and only if no twin is pending. */
  lemma RemovalForgetsTheType(s: State, row: ScheduledEvent)
    ensures RemoveScheduled(s, row) == s.(scheduled := s.scheduled - {row, Twin(row)})
    ensures RemoveScheduled(s, row).scheduled == s.scheduled - {row} <==> Twin(row) !in s.scheduled
  {
    forall r
      ensures Deletes(row, r) <==> r == row || r == Twin(row)
    {
    }
    assert RemoveScheduled(s, row).scheduled == s.scheduled - {row, Twin(row)};
    assert Twin(row) in s.scheduled ==> Twin(row) in s.scheduled - {row};
  }

  // ---------------------------------------------------------------- chain events

  /** We were told to expect an event of ours only after sending the transaction that causes it. */
  ghost predicate Causal(cfg: Config, s: State, e: Event) {
    e.NewBalanceProof? && e.msAddress == cfg.address ==> exists c :: c in s.sent && c.MonitorCall? && c.key == e.key
  }

  /** What the log delivers next; an opening may be a replay, unless the channel was closed already. */
  ghost predicate Expected(cfg: Config, s: State, e: Event) {
    && (e.ChannelOpened? ==> !IsClosed(s, e.key) && e.key.network in s.networks)
    && (e.ChannelClosed? ==> !IsClosed(s, e.key) && e.block != 0)
    && Causal(cfg, s, e)
  }

  lemma RowReplaced(s: State, key: ChannelKey, c: Channel)
    requires Safe(s) && key in s.channels
    requires c.monitorTx == s.channels[key].monitorTx && c.claimTx == s.channels[key].claimTx
    requires c.closingBlock == s.channels[key].closingBlock || (s.channels[key].closingBlock.None? && c.closingBlock.Some?)
    ensures Safe(s.(channels := s.channels[key := c]))
  {
    var t := s.(channels := s.channels[key := c]);
    assert forall k :: IsMonitored(t, k) == IsMonitored(s, k) && IsClaimed(t, k) == IsClaimed(s, k);
    assert forall k :: IsClosed(s, k) ==> IsClosed(t, k);
  }

  lemma RowOpened(s: State, key: ChannelKey, p1: Address, p2: Address)
    requires Safe(s) && !IsClosed(s, key) && key.network in s.networks
    ensures Safe(s.(channels := s.channels[key := FreshChannel(p1, p2)]))
  {
    var t := s.(channels := s.channels[key := FreshChannel(p1, p2)]);
    assert forall k :: IsMonitored(t, k) == IsMonitored(s, k) && IsClaimed(t, k) == IsClaimed(s, k);
    assert forall k :: IsClosed(s, k) == IsClosed(t, k);
  }

  lemma RowScheduled(s: State, r: ScheduledEvent)
    requires Safe(s)
    requires r.action.TriggerClaim? ==> IsMonitored(s, r.action.key)
    requires r.action.TriggerMonitoring? ==> IsClosed(s, r.action.key) && !IsMonitored(s, r.action.key)
    requires forall q :: q in s.scheduled ==> !SameMonitoring(r.action, q.action)
    ensures Safe(s.(scheduled := s.scheduled + {r}))
  {
    var t := s.(scheduled := s.scheduled + {r});
    assert forall k :: IsMonitored(t, k) == IsMonitored(s, k) && IsClaimed(t, k) == IsClaimed(s, k) && IsClosed(t, k) == IsClosed(s, k);
  }

  lemma ClosedSafe(cfg: Config, s: State, e: Event, w: World)
    requires Safe(s) && e.ChannelClosed? && Expected(cfg, s, e)
    ensures var h := HandleClosed(s, e, w);
            Safe(h.state) && h.outcome.Done? && h.state.sent == s.sent
  {
    if e.key in s.channels {
      var t := HandleClosed(s, e, w).state;
      assert e.key.network in s.networks;
      var s1 := s.(channels := s.channels[e.key := t.channels[e.key]]);
      RowReplaced(s, e.key, t.channels[e.key]);
      forall r | r in t.scheduled && r !in s.scheduled
        ensures Safe(s1.(scheduled := s1.scheduled + {r}))
      {
        assert IsMonitored(s1, e.key) == IsMonitored(s, e.key);
        RowScheduled(s1, r);
      }
      assert t == s1 || exists r :: r in t.scheduled && r !in s.scheduled && t == s1.(scheduled := s1.scheduled + {r});
    }
  }

  lemma NewBalanceProofSafe(cfg: Config, s: State, e: Event, w: World)
    requires Safe(s) && e.NewBalanceProof? && Expected(cfg, s, e)
    ensures var h := HandleNewBalanceProof(cfg, s, e, w);
            Safe(h.state) && h.outcome.Done? && h.state.sent == s.sent
  {
    if e.key in s.channels {
      assert e.key.network in s.networks;
      var c := s.channels[e.key].(updateStatus := Some(UpdateStatus(e.msAddress, e.nonce)));
      RowReplaced(s, e.key, c);
      if e.msAddress == cfg.address {
        var s1 := s.(channels := s.channels[e.key := c]);
        assert IsMonitored(s, e.key) && IsMonitored(s1, e.key) && IsClosed(s, e.key);
        RowScheduled(s1, ScheduledEvent(w.closingTime + s.networks[e.key.network], TriggerClaim(e.key, e.raidenNode)));
      }
    }
  }

  lemma ChainEventSafe(cfg: Config, s: State, e: Event, w: World)
    requires Safe(s) && Expected(cfg, s, e)
    ensures var h := HandleChainEvent(cfg, s, e, w);
            Safe(h.state) && h.outcome.Done? && h.state.sent == s.sent
  {
    match e
    case ChannelOpened(key, p1, p2, _) => RowOpened(s, key, p1, p2);
    case ChannelClosed(_, _, _) => ClosedSafe(cfg, s, e, w);
    case NewBalanceProof(_, _, _, _, _) => NewBalanceProofSafe(cfg, s, e, w);
    case BalanceProofUpdated(key, _, _, _) =>
      var h := HandleUpdated(s, e);
      if key in s.channels {
        assert key.network in s.networks;
        RowReplaced(s, key, h.state.channels[key]);
        assert h.state == s || h.state == s.(channels := s.channels[key := h.state.channels[key]]);
      }
    case ChannelSettled(key, _) =>
      if key in s.channels {
        assert key.network in s.networks;
        RowReplaced(s, key, s.channels[key].(state := Settled));
      }
    case _ =>
      var t := HandleChainEvent(cfg, s, e, w).state;
      assert forall k :: IsMonitored(t, k) == IsMonitored(s, k) && IsClaimed(t, k) == IsClaimed(s, k) && IsClosed(t, k) == IsClosed(s, k);
  }

  /** No channel is opened or closed twice within events, or opened after it was closed. */
  ghost predicate NoRepeats(events: seq<Event>) {
    forall i, j :: 0 <= i < j < |events| ==>
      && !(events[i].ChannelOpened? && events[j].ChannelOpened? && events[i].key == events[j].key)
      && !(events[i].ChannelClosed? && events[j].ChannelClosed? && events[i].key == events[j].key)
      && !(events[i].ChannelClosed? && events[j].ChannelOpened? && events[i].key == events[j].key)
  }

  ghost predicate AllExpected(cfg: Config, s: State, events: seq<Event>) {
    && NoRepeats(events)
    && Announced(s.networks.Keys, events)
    && forall e :: e in events ==>
         && (e.ChannelOpened? ==> !IsClosed(s, e.key))
         && (e.ChannelClosed? ==> !IsClosed(s, e.key) && e.block != 0)
         && Causal(cfg, s, e)
  }

  /** The event is the closing that the row shows. */
  ghost predicate Closes(e: Event, s: State, k: ChannelKey) {
    IsClosed(s, k) && e.ChannelClosed? && e.key == k && s.channels[k].closingBlock == Some(e.block)
  }

  /** Rows appear by opening only, and are closed by closing only; a closed row stays as it is. */
  ghost predicate Explained(s: State, t: State, events: seq<Event>) {
    && (forall k :: k in s.channels ==> k in t.channels)
    && (forall k :: k in t.channels ==> k in s.channels || Opens(events, k))
    && (forall k :: IsClosed(t, k) ==> IsClosed(s, k) || exists e :: e in events && Closes(e, t, k))
    && (forall k :: IsClosed(s, k) ==> IsClosed(t, k) && t.channels[k].closingBlock == s.channels[k].closingBlock)
    && t.requests == s.requests
  }

  lemma EventExplained(cfg: Config, s: State, e: Event, w: World)
    requires Safe(s) && Expected(cfg, s, e)
    ensures Explained(s, HandleChainEvent(cfg, s, e, w).state, [e])
  {
    var t := HandleChainEvent(cfg, s, e, w).state;
    assert e in [e];
    RowsStay(cfg, s, e, w);
    forall k
      ensures IsClosed(t, k) ==> IsClosed(s, k) || Closes(e, t, k)
      ensures IsClosed(s, k) ==> IsClosed(t, k) && t.channels[k].closingBlock == s.channels[k].closingBlock
    {
      ClosingsStay(cfg, s, e, w, k);
    }
  }

  lemma RowsStay(cfg: Config, s: State, e: Event, w: World)
    ensures var t := HandleChainEvent(cfg, s, e, w).state;
            && s.channels.Keys <= t.channels.Keys && t.requests == s.requests
            && forall k :: k in t.channels ==> k in s.channels || (e.ChannelOpened? && e.key == k)
  {
  }

  lemma ClosingsStay(cfg: Config, s: State, e: Event, w: World, k: ChannelKey)
    requires Safe(s) && Expected(cfg, s, e)
    ensures var t := HandleChainEvent(cfg, s, e, w).state;
            && (IsClosed(t, k) ==> IsClosed(s, k) || Closes(e, t, k))
            && (IsClosed(s, k) ==> IsClosed(t, k) && t.channels[k].closingBlock == s.channels[k].closingBlock)
  {
    if k in s.channels {
      assert k.network in s.networks;
    }
  }

  lemma ExpectedStep(cfg: Config, s: State, events: seq<Event>, w: World)
    requires Safe(s) && AllExpected(cfg, s, events) && events != []
    ensures var t := Logged(HandleChainEvent(cfg, s, events[0], w));
            Safe(t) && AllExpected(cfg, t, events[1..]) && Explained(s, t, [events[0]])
  {
    var e := events[0];
    assert e in events;
    assert Expected(cfg, s, e);
    ChainEventSafe(cfg, s, e, w);
    EventExplained(cfg, s, e, w);
    var t := Logged(HandleChainEvent(cfg, s, e, w));
    HandlerObserves(cfg, s, e, w, ChannelKey(0, 0));
    forall d | d in events[1..]
      ensures d.ChannelOpened? ==> !IsClosed(t, d.key)
      ensures d.ChannelClosed? ==> !IsClosed(t, d.key) && d.block != 0
      ensures Causal(cfg, t, d)
    {
      assert d in events;
      var j :| 1 <= j < |events| && events[j] == d;
    }
  }

  lemma {:induction false} EventsSafe(cfg: Config, s: State, events: seq<Event>, worlds: seq<World>)
    requires |events| <= |worlds| && Safe(s) && AllExpected(cfg, s, events)
    ensures var t := HandleEvents(cfg, s, events, worlds); Safe(t) && Explained(s, t, events)
    decreases |events|
  {
    if events != [] {
      ExpectedStep(cfg, s, events, worlds[0]);
      EventsSafe(cfg, Logged(HandleChainEvent(cfg, s, events[0], worlds[0])), events[1..], worlds[1..]);
      assert forall e :: e in events <==> e in [events[0]] || e in events[1..];
    }
  }
}
