/** One pass over the scheduled events that are due. */
module Scheduler {
  import opened Common
  import opened MonitoringModel
  import opened MonitoringSafety

  /** The state after the action of a due row was handled and the row was removed. */
  function Consumed(cfg: Config, s: State, row: ScheduledEvent, w: World): State {
    RemoveScheduled(Logged(HandleAction(cfg, s, row.action, w)), row)
  }

  /** The request is fine, but the deposit does not cover it yet: the action is tried again later. */
  predicate Postpones(cfg: Config, s: State, a: Action, w: World) {
    && a.TriggerMonitoring?
    && RequestKey(a.key, a.nonClosing) in s.requests && a.key in s.channels
    && var request, channel := s.requests[RequestKey(a.key, a.nonClosing)].request, s.channels[a.key];
       && RequestIsValid(request, a.nonClosing, channel)
       && LastOnChainNonce(channel) < request.nonce
       && cfg.minReward <= request.rewardAmount
       && 10 * w.deposit < 11 * request.rewardAmount
  }

  /** The schedule after a row was consumed: the row is gone, and a postponed one is back unless its trigger is the same. */
  function ScheduleAfter(cfg: Config, s: State, row: ScheduledEvent, w: World): set<ScheduledEvent> {
    s.scheduled - {row}
    + if Postpones(cfg, s, row.action, w) && w.now != row.trigger then {ScheduledEvent(w.now, row.action)} else {}
  }

  lemma ConsumedSchedule(cfg: Config, s: State, row: ScheduledEvent, w: World)
    requires Safe(s) && row in s.scheduled
    requires !HandleAction(cfg, s, row.action, w).outcome.TooEarly?
    ensures Consumed(cfg, s, row, w).scheduled == ScheduleAfter(cfg, s, row, w)
  {
    RemovalIsExact(s, row);
    assert RemoveScheduled(s, row).scheduled == s.scheduled - {row};
    var t := Logged(HandleAction(cfg, s, row.action, w));
    assert t.scheduled == s.scheduled + if Postpones(cfg, s, row.action, w) then {ScheduledEvent(w.now, row.action)} else {};
    assert forall r :: r in s.scheduled ==> (Deletes(row, r) <==> r == row) by {
      assert forall r :: r in RemoveScheduled(s, row).scheduled <==> r in s.scheduled && r != row;
    }
  }

  lemma RowDropped(s: State, row: ScheduledEvent)
    requires Safe(s)
    ensures Safe(s.(scheduled := s.scheduled - {row}))
  {
    var t := s.(scheduled := s.scheduled - {row});
    assert forall k :: IsClosed(t, k) == IsClosed(s, k) && IsMonitored(t, k) == IsMonitored(s, k) && IsClaimed(t, k) == IsClaimed(s, k);
  }

  lemma MonitorSent(s: State, key: ChannelKey, nonClosing: Address, nonce: int, hash: TxHash)
    requires Safe(s) && IsClosed(s, key) && !IsMonitored(s, key)
    requires forall r :: r in s.scheduled && r.action.TriggerMonitoring? ==> r.action.key != key
    ensures Safe(s.(channels := s.channels[key := s.channels[key].(monitorTx := Some(hash))],
                    sent := s.sent + [MonitorCall(key, nonClosing, nonce)], waiting := s.waiting + [hash]))
  {
    var t := s.(channels := s.channels[key := s.channels[key].(monitorTx := Some(hash))],
                sent := s.sent + [MonitorCall(key, nonClosing, nonce)], waiting := s.waiting + [hash]);
    assert forall k :: IsClosed(t, k) == IsClosed(s, k) && IsClaimed(t, k) == IsClaimed(s, k);
    assert forall k :: IsMonitored(t, k) == (IsMonitored(s, k) || k == key);
    assert forall c :: c in s.sent && c.MonitorCall? ==> c.key != key;
    assert SentOnce(t.sent);
  }

  lemma ClaimSent(s: State, key: ChannelKey, nonClosing: Address, hash: TxHash)
    requires Safe(s) && IsMonitored(s, key) && !IsClaimed(s, key)
    ensures Safe(s.(channels := s.channels[key := s.channels[key].(claimTx := Some(hash))],
                    sent := s.sent + [ClaimCall(key, nonClosing)], waiting := s.waiting + [hash]))
  {
    var t := s.(channels := s.channels[key := s.channels[key].(claimTx := Some(hash))],
                sent := s.sent + [ClaimCall(key, nonClosing)], waiting := s.waiting + [hash]);
    assert forall k :: IsClosed(t, k) == IsClosed(s, k) && IsMonitored(t, k) == IsMonitored(s, k);
    assert forall k :: IsClaimed(t, k) == (IsClaimed(s, k) || k == key);
    assert forall c :: c in s.sent && c.ClaimCall? ==> c.key != key;
    assert SentOnce(t.sent);
  }

  /** Handling one due row keeps the service safe: a channel is monitored or claimed at most once. */
  lemma ConsumedSafe(cfg: Config, s: State, row: ScheduledEvent, w: World)
    requires Safe(s) && row in s.scheduled
    requires !HandleAction(cfg, s, row.action, w).outcome.TooEarly?
    ensures Safe(Consumed(cfg, s, row, w)) && HandleAction(cfg, s, row.action, w).outcome.Done?
  {
    ConsumedSchedule(cfg, s, row, w);
    RowDropped(s, row);
    if row.action.key in s.channels {
      assert row.action.key.network in s.networks;
    }
    if row.action.TriggerMonitoring? {
      MonitoringConsumedSafe(cfg, s, row, w);
    } else {
      ClaimConsumedSafe(cfg, s, row, w);
    }
  }

  lemma MonitoringConsumedSafe(cfg: Config, s: State, row: ScheduledEvent, w: World)
    requires Safe(s) && row in s.scheduled && row.action.TriggerMonitoring? && Safe(s.(scheduled := s.scheduled - {row}))
    requires !HandleAction(cfg, s, row.action, w).outcome.TooEarly?
    requires Consumed(cfg, s, row, w).scheduled == ScheduleAfter(cfg, s, row, w)
    requires row.action.key in s.channels ==> row.action.key.network in s.networks
    ensures Safe(Consumed(cfg, s, row, w)) && HandleAction(cfg, s, row.action, w).outcome.Done?
  {
    var a, h, t := row.action, HandleAction(cfg, s, row.action, w), Consumed(cfg, s, row, w);
    var s1 := s.(scheduled := s.scheduled - {row});
    assert IsMonitored(s1, a.key) == IsMonitored(s, a.key) && IsClosed(s1, a.key) == IsClosed(s, a.key);
    if h.state.sent != s.sent {
      var nonce := s.requests[RequestKey(a.key, a.nonClosing)].request.nonce;
      MonitorSent(s1, a.key, a.nonClosing, nonce, w.tx.hash);
      assert t == s1.(channels := s.channels[a.key := s.channels[a.key].(monitorTx := Some(w.tx.hash))],
                      sent := s.sent + [MonitorCall(a.key, a.nonClosing, nonce)], waiting := s.waiting + [w.tx.hash]);
    } else if t.scheduled != s1.scheduled {
      RowScheduled(s1, ScheduledEvent(w.now, a));
    }
  }

  lemma ClaimConsumedSafe(cfg: Config, s: State, row: ScheduledEvent, w: World)
    requires Safe(s) && row in s.scheduled && row.action.TriggerClaim? && Safe(s.(scheduled := s.scheduled - {row}))
    requires !HandleAction(cfg, s, row.action, w).outcome.TooEarly?
    requires Consumed(cfg, s, row, w).scheduled == ScheduleAfter(cfg, s, row, w)
    requires row.action.key in s.channels ==> row.action.key.network in s.networks
    ensures Safe(Consumed(cfg, s, row, w)) && HandleAction(cfg, s, row.action, w).outcome.Done?
  {
    var a, h, t := row.action, HandleAction(cfg, s, row.action, w), Consumed(cfg, s, row, w);
    var s1 := s.(scheduled := s.scheduled - {row});
    assert IsMonitored(s1, a.key) == IsMonitored(s, a.key) && IsClaimed(s1, a.key) == IsClaimed(s, a.key);
    if h.state.sent != s.sent {
      ClaimSent(s1, a.key, a.nonClosing, w.tx.hash);
      assert t == s1.(channels := s.channels[a.key := s.channels[a.key].(claimTx := Some(w.tx.hash))],
                      sent := s.sent + [ClaimCall(a.key, a.nonClosing)], waiting := s.waiting + [w.tx.hash]);
    } else {
      assert t == s1;
    }
  }

  lemma TooEarlyKeepsState(cfg: Config, s: State, a: Action, w: World)
    requires HandleAction(cfg, s, a, w).outcome.TooEarly?
    ensures HandleAction(cfg, s, a, w).state == s
  {
  }

  ghost predicate Pending(s: State, rows: seq<ScheduledEvent>) {
    && (forall r :: r in rows ==> r in s.scheduled)
    && (forall i, j :: 0 <= i < j < |rows| ==> rows[i] != rows[j])
  }

  lemma RestPending(cfg: Config, s: State, rows: seq<ScheduledEvent>, w: World)
    requires Safe(s) && rows != [] && Pending(s, rows)
    requires !HandleAction(cfg, s, rows[0].action, w).outcome.TooEarly?
    ensures Pending(Consumed(cfg, s, rows[0], w), rows[1..])
  {
    assert rows[0] in rows;
    ConsumedSchedule(cfg, s, rows[0], w);
    forall r | r in rows[1..]
      ensures r in Consumed(cfg, s, rows[0], w).scheduled
    {
      var i :| 1 <= i < |rows| && rows[i] == r;
    }
  }

  lemma {:induction false} PassSafe(cfg: Config, s: State, rows: seq<ScheduledEvent>, worlds: seq<World>)
    requires |rows| <= |worlds| && Safe(s) && Pending(s, rows)
    ensures Safe(Pass(cfg, s, rows, worlds))
    decreases |rows|
  {
    if rows != [] {
      assert rows[0] in rows;
      if HandleAction(cfg, s, rows[0].action, worlds[0]).outcome.TooEarly? {
        TooEarlyKeepsState(cfg, s, rows[0].action, worlds[0]);
        var t := Pass(cfg, s, rows, worlds);
        assert forall k :: IsClosed(t, k) == IsClosed(s, k) && IsMonitored(t, k) == IsMonitored(s, k) && IsClaimed(t, k) == IsClaimed(s, k);
      } else {
        ConsumedSafe(cfg, s, rows[0], worlds[0]);
        RestPending(cfg, s, rows, worlds[0]);
        PassSafe(cfg, Consumed(cfg, s, rows[0], worlds[0]), rows[1..], worlds[1..]);
      }
    }
  }

  // ---------------------------------------------------------------- a pass that stops before a deletion

  /** Handling the monitoring row sent a transaction or put the row back under another trigger, and the row is still there. */
  predicate LeavesBehind(cfg: Config, s: State, row: ScheduledEvent, w: World) {
    var t := HandleAction(cfg, s, row.action, w).state;
    row.action.TriggerMonitoring? && row in s.scheduled && (t.sent != s.sent || t.scheduled != s.scheduled)
  }

  /** The stop leaves behind a monitoring row of the channel that has had its effect. */
  predicate StopLeaves(cfg: Config, s: State, rows: seq<ScheduledEvent>, worlds: seq<World>, k: ChannelKey)
    requires rows != [] && |rows| <= |worlds|
    decreases |rows|
  {
    if |rows| == 1 then rows[0].action.key == k && LeavesBehind(cfg, s, rows[0], worlds[0])
    else
      && !HandleAction(cfg, s, rows[0].action, worlds[0]).outcome.TooEarly?
      && StopLeaves(cfg, Consumed(cfg, s, rows[0], worlds[0]), rows[1..], worlds[1..], k)
  }

  /** A row that has had no effect, or that belongs to a claim, may stay. */
  lemma UndeletedSafe(cfg: Config, s: State, row: ScheduledEvent, w: World)
    requires Safe(s) && row in s.scheduled && !LeavesBehind(cfg, s, row, w)
    ensures Safe(Logged(HandleAction(cfg, s, row.action, w)))
  {
    var a, h := row.action, HandleAction(cfg, s, row.action, w);
    if a.key in s.channels {
      assert a.key.network in s.networks;
    }
    if h.state.sent != s.sent {
      ClaimSent(s, a.key, a.nonClosing, w.tx.hash);
    } else {
      assert Logged(h) == s;
    }
  }

  lemma {:induction false} StoppedPassSafe(cfg: Config, s: State, rows: seq<ScheduledEvent>, worlds: seq<World>)
    requires rows != [] && |rows| <= |worlds| && Safe(s) && Pending(s, rows)
    requires forall k :: !StopLeaves(cfg, s, rows, worlds, k)
    ensures Safe(StoppedPass(cfg, s, rows, worlds))
    decreases |rows|
  {
    assert rows[0] in rows;
    if |rows| == 1 {
      assert !StopLeaves(cfg, s, rows, worlds, rows[0].action.key);
      UndeletedSafe(cfg, s, rows[0], worlds[0]);
    } else if HandleAction(cfg, s, rows[0].action, worlds[0]).outcome.TooEarly? {
      TooEarlyKeepsState(cfg, s, rows[0].action, worlds[0]);
      BarrierIsSafe(s, worlds[0].now + MAX_SCHEDULED_EVENTS_RETRY_FREQUENCY);
    } else {
      var t := Consumed(cfg, s, rows[0], worlds[0]);
      ConsumedSafe(cfg, s, rows[0], worlds[0]);
      RestPending(cfg, s, rows, worlds[0]);
      forall k
        ensures !StopLeaves(cfg, t, rows[1..], worlds[1..], k)
      {
        assert !StopLeaves(cfg, s, rows, worlds, k);
      }
      StoppedPassSafe(cfg, t, rows[1..], worlds[1..]);
    }
  }

  lemma BarrierIsSafe(s: State, barrier: int)
    requires Safe(s)
    ensures Safe(s.(barrier := barrier))
  {
    var t := s.(barrier := barrier);
    assert forall k :: IsClosed(t, k) == IsClosed(s, k) && IsMonitored(t, k) == IsMonitored(s, k) && IsClaimed(t, k) == IsClaimed(s, k);
  }

  // ---------------------------------------------------------------- what a pass does to the schedule

  /** How many rows a pass handles before one of them is too early. */
  function HandledCount(cfg: Config, s: State, rows: seq<ScheduledEvent>, worlds: seq<World>): nat
    requires |rows| <= |worlds|
    decreases |rows|
  {
    if rows == [] || HandleAction(cfg, s, rows[0].action, worlds[0]).outcome.TooEarly? then 0
    else 1 + HandledCount(cfg, Consumed(cfg, s, rows[0], worlds[0]), rows[1..], worlds[1..])
  }

  lemma {:induction false} HandledBound(cfg: Config, s: State, rows: seq<ScheduledEvent>, worlds: seq<World>)
    requires |rows| <= |worlds|
    ensures HandledCount(cfg, s, rows, worlds) <= |rows|
    decreases |rows|
  {
    if rows != [] && !HandleAction(cfg, s, rows[0].action, worlds[0]).outcome.TooEarly? {
      HandledBound(cfg, Consumed(cfg, s, rows[0], worlds[0]), rows[1..], worlds[1..]);
    }
  }

  /** Handling one row does not change whether another one is postponed. */
  lemma PostponesIndependent(cfg: Config, s: State, row: ScheduledEvent, w: World, other: ScheduledEvent, w': World)
    requires Safe(s) && row in s.scheduled && other in s.scheduled && row != other
    requires !HandleAction(cfg, s, row.action, w).outcome.TooEarly?
    ensures Postpones(cfg, Consumed(cfg, s, row, w), other.action, w') == Postpones(cfg, s, other.action, w')
  {
    var t := Consumed(cfg, s, row, w);
    assert t.requests == s.requests && t.channels.Keys == s.channels.Keys;
    if other.action.TriggerMonitoring? && other.action.key in s.channels {
      assert t.channels[other.action.key].updateStatus == s.channels[other.action.key].updateStatus;
    }
  }

  /** r is the event that the handling of the i-th row put back. */
  ghost predicate PutBack(cfg: Config, s: State, rows: seq<ScheduledEvent>, worlds: seq<World>, i: int, r: ScheduledEvent)
    requires |rows| <= |worlds|
  {
    && 0 <= i < |rows| && r == ScheduledEvent(worlds[i].now, rows[i].action)
    && Postpones(cfg, s, rows[i].action, worlds[i]) && worlds[i].now != rows[i].trigger
  }

  /**
   A pass consumes exactly the rows before the first one that is too early. A postponed event is
   pending again if and only if the clock differs from its trigger; everything else stays.
   */
  lemma {:induction false} PassSchedule(cfg: Config, s: State, rows: seq<ScheduledEvent>, worlds: seq<World>)
    requires |rows| <= |worlds| && Safe(s) && Pending(s, rows)
    ensures var t, n := Pass(cfg, s, rows, worlds), HandledCount(cfg, s, rows, worlds);
            && n <= |rows|
            && t.barrier == (if n < |rows| then worlds[n].now + 10 else s.barrier)
            && forall r :: r in t.scheduled <==> StaysPending(cfg, s, rows, worlds, n, r)
  {
    HandledBound(cfg, s, rows, worlds);
    PassBarrier(cfg, s, rows, worlds);
    PassMembers(cfg, s, rows, worlds);
  }

  lemma {:induction false} PassBarrier(cfg: Config, s: State, rows: seq<ScheduledEvent>, worlds: seq<World>)
    requires |rows| <= |worlds|
    ensures var t, n := Pass(cfg, s, rows, worlds), HandledCount(cfg, s, rows, worlds);
            && n <= |rows|
            && t.barrier == if n < |rows| then worlds[n].now + 10 else s.barrier
    decreases |rows|
  {
    if rows != [] && !HandleAction(cfg, s, rows[0].action, worlds[0]).outcome.TooEarly? {
      var u := Consumed(cfg, s, rows[0], worlds[0]);
      ActionKeepsBarrier(cfg, s, rows[0].action, worlds[0]);
      PassBarrier(cfg, u, rows[1..], worlds[1..]);
    }
  }

  lemma ActionKeepsBarrier(cfg: Config, s: State, a: Action, w: World)
    ensures HandleAction(cfg, s, a, w).state.barrier == s.barrier
  {
  }

  lemma {:induction false} PassMembers(cfg: Config, s: State, rows: seq<ScheduledEvent>, worlds: seq<World>)
    requires |rows| <= |worlds| && Safe(s) && Pending(s, rows)
    ensures var t, n := Pass(cfg, s, rows, worlds), HandledCount(cfg, s, rows, worlds);
            && n <= |rows|
            && forall r :: r in t.scheduled <==> StaysPending(cfg, s, rows, worlds, n, r)
    decreases |rows|
  {
    HandledBound(cfg, s, rows, worlds);
    if rows != [] {
      assert rows[0] in rows;
      var w := worlds[0];
      if HandleAction(cfg, s, rows[0].action, w).outcome.TooEarly? {
        TooEarlyKeepsState(cfg, s, rows[0].action, w);
        assert rows[..0] == [];
      } else {
        var u, n := Consumed(cfg, s, rows[0], w), HandledCount(cfg, s, rows, worlds);
        ConsumedSafe(cfg, s, rows[0], w);
        RestPending(cfg, s, rows, w);
        PassMembers(cfg, u, rows[1..], worlds[1..]);
        forall r
          ensures StaysPending(cfg, u, rows[1..], worlds[1..], n - 1, r) <==> StaysPending(cfg, s, rows, worlds, n, r)
        {
          OneRowConsumed(cfg, s, rows, worlds, n, r);
        }
      }
    }
  }

  /** Pending after the first n rows were consumed: it was pending and is none of them, or one of them put it back. */
  ghost predicate StaysPending(cfg: Config, s: State, rows: seq<ScheduledEvent>, worlds: seq<World>, n: nat, r: ScheduledEvent)
    requires n <= |rows| <= |worlds|
  {
    (r in s.scheduled && r !in rows[..n]) || exists i :: 0 <= i < n && PutBack(cfg, s, rows, worlds, i, r)
  }

  lemma OneRowConsumed(cfg: Config, s: State, rows: seq<ScheduledEvent>, worlds: seq<World>, n: nat, r: ScheduledEvent)
    requires |rows| <= |worlds| && Safe(s) && Pending(s, rows) && 0 < n <= |rows|
    requires !HandleAction(cfg, s, rows[0].action, worlds[0]).outcome.TooEarly?
    ensures StaysPending(cfg, Consumed(cfg, s, rows[0], worlds[0]), rows[1..], worlds[1..], n - 1, r)
            <==> StaysPending(cfg, s, rows, worlds, n, r)
  {
    assert rows[0] in rows;
    ConsumedSchedule(cfg, s, rows[0], worlds[0]);
    ShiftPutBack(cfg, s, rows, worlds, n, r);
    FirstRowPutBack(cfg, s, rows, worlds, n, r);
    assert rows[1..][..n - 1] == rows[1..n];
    assert PutBack(cfg, s, rows, worlds, 0, r) <==>
      r == ScheduledEvent(worlds[0].now, rows[0].action) && r in ScheduleAfter(cfg, s, rows[0], worlds[0])
      && Postpones(cfg, s, rows[0].action, worlds[0]) && worlds[0].now != rows[0].trigger;
  }

  lemma ShiftPutBack(cfg: Config, s: State, rows: seq<ScheduledEvent>, worlds: seq<World>, n: nat, r: ScheduledEvent)
    requires |rows| <= |worlds| && Safe(s) && Pending(s, rows) && 0 < n <= |rows|
    requires !HandleAction(cfg, s, rows[0].action, worlds[0]).outcome.TooEarly?
    ensures var u := Consumed(cfg, s, rows[0], worlds[0]);
            (exists i :: 0 <= i < n - 1 && PutBack(cfg, u, rows[1..], worlds[1..], i, r))
            <==> exists i :: 1 <= i < n && PutBack(cfg, s, rows, worlds, i, r)
  {
    var u := Consumed(cfg, s, rows[0], worlds[0]);
    forall i | 0 <= i < n - 1
      ensures PutBack(cfg, u, rows[1..], worlds[1..], i, r) == PutBack(cfg, s, rows, worlds, i + 1, r)
    {
      assert rows[0] in rows && rows[i + 1] in rows;
      PostponesIndependent(cfg, s, rows[0], worlds[0], rows[i + 1], worlds[i + 1]);
    }
    if i :| 1 <= i < n && PutBack(cfg, s, rows, worlds, i, r) {
      assert PutBack(cfg, u, rows[1..], worlds[1..], i - 1, r);
    }
  }

  /** Of the events put back, those of the first row and those of the others are never the same. */
  lemma FirstRowPutBack(cfg: Config, s: State, rows: seq<ScheduledEvent>, worlds: seq<World>, n: nat, r: ScheduledEvent)
    requires |rows| <= |worlds| && Safe(s) && Pending(s, rows) && 0 < n <= |rows|
    ensures PutBack(cfg, s, rows, worlds, 0, r) ==> r !in rows[1..n]
    ensures r in rows[..n] <==> r == rows[0] || r in rows[1..n]
    ensures (exists i :: 0 <= i < n && PutBack(cfg, s, rows, worlds, i, r))
            <==> PutBack(cfg, s, rows, worlds, 0, r) || exists i :: 1 <= i < n && PutBack(cfg, s, rows, worlds, i, r)
  {
    assert rows[..n] == [rows[0]] + rows[1..n];
    forall j | 1 <= j < n
      ensures !SameMonitoring(rows[0].action, rows[j].action)
    {
      DueRowsDiffer(s, rows, j);
    }
  }

  /** Two due rows never ask for the monitoring of the same channel. */
  lemma DueRowsDiffer(s: State, rows: seq<ScheduledEvent>, j: nat)
    requires Safe(s) && Pending(s, rows) && 0 < j < |rows|
    ensures !SameMonitoring(rows[0].action, rows[j].action)
  {
    assert rows[0] in rows && rows[j] in rows && rows[0] != rows[j];
  }
}
