/**
 Who may change what the pathfinding service knows: the exact fate of every message, and over whole runs, that claims,
 capacities, nonces, fee schedules and waiting messages go back to messages of the participants themselves.
 */
module PfsOrigins {
  import opened Common
  import opened PfsModel
  import opened PfsAgreement

  /** A message for this chain, signed by the participant it speaks for, with capacities that fit into 256 bits. */
  predicate IsOwnWord(chainId: int, m: Message) {
    && m.chainId == chainId && m.sender == m.updating
    && (m.CapacityUpdate? ==> Max(m.updatingCapacity, m.otherCapacity) <= UINT256_MAX)
  }

  // ---------------------------------------------------------------- one message

  /** A message in somebody else's name is refused, and leaves no trace. */
  lemma StrangersAreRefused(s: Pfs, m: Message, now: int)
    requires m.sender != m.updating
    ensures HandleMessage(s, m, now) == Handled(s, Rejected)
  {
  }

  /** The exact fate of every message, by what its sender and the clock say. */
  lemma {:induction false} FateOfAMessage(s: Pfs, m: Message, now: int)
    requires Consistent(s)
    ensures var h, key := HandleMessage(s, m, now), m.key;
            var ownWord := IsOwnWord(s.chainId, m) && key.network in s.networks;
            var fits := ownWord && key in s.live && IsParticipant(s.live[key], m.updating)
                        && if m.CapacityUpdate? then IsParticipant(s.live[key], m.other)
                           else !m.hasTimezone && SideOf(s.live[key], m.updating).fees.timestamp < m.timestamp <= now + 3600;
            && (h.outcome.Deferred? <==> ownWord && key !in s.live)
            && (h.outcome.Accepted? <==> fits && !SelfUpdate(m))
            && (h.outcome.KeyError? <==> fits && SelfUpdate(m))
            && (h.outcome.Deferred? ==> h.state == s.(waiting := s.waiting + [m]))
            && (h.outcome.Rejected? ==> h.state == s)
            && h.state.networks == s.networks && h.state.chainId == s.chainId && h.state.committed == s.committed
  {
    if m.key in s.live {
      LiveMessageStores(s, m, now);
    }
  }

  // ---------------------------------------------------------------- what was said

  /** The messages that arrived in the first n steps. */
  function Heard(steps: seq<Step>, n: nat): set<Message>
    requires n <= |steps|
  {
    set i | 0 <= i < n && steps[i].Received? :: steps[i].message
  }

  /** Somebody said so about itself. */
  ghost predicate IsClaimOf(s: Pfs, heard: set<Message>, ck: ClaimKey, claim: Claim) {
    exists m :: m in heard && IsOwnWord(s.chainId, m) && m.CapacityUpdate? && m.updating == ck.updating && m.key == ck.key
                && claim == Claim(m.updatingCapacity, m.otherCapacity)
  }

  ghost predicate IsScheduleOf(s: Pfs, heard: set<Message>, k: ChannelKey, a: Address, fees: FeeSchedule) {
    exists m :: m in heard && IsOwnWord(s.chainId, m) && m.FeeUpdate? && m.updating == a && m.key == k && !m.hasTimezone
                && fees == FeeSchedule(m.timestamp, m.schedule)
  }

  /** Both nonces come from one capacity update between the two participants. */
  ghost predicate AreNoncesOf(s: Pfs, heard: set<Message>, k: ChannelKey, row: ChannelRow) {
    exists m :: m in heard && IsOwnWord(s.chainId, m) && m.CapacityUpdate? && m.key == k
                && IsParticipant(row, m.updating) && m.other == Partner(row, m.updating)
                && SideOf(row, m.updating).updateNonce == m.updatingNonce && SideOf(row, m.other).updateNonce == m.otherNonce
  }

  ghost predicate RowWasSaid(s: Pfs, heard: set<Message>, k: ChannelKey, row: ChannelRow) {
    && (forall a :: IsParticipant(row, a) ==>
          SideOf(row, a).fees == INITIAL_FEES || IsScheduleOf(s, heard, k, a, SideOf(row, a).fees))
    && ((row.side1.updateNonce == 0 && row.side2.updateNonce == 0) || AreNoncesOf(s, heard, k, row))
  }

  /** Everything the service holds was said by the participant it is about. */
  ghost predicate WasSaid(s: Pfs, heard: set<Message>) {
    && (forall m :: m in s.waiting ==> m in heard && IsOwnWord(s.chainId, m))
    && (forall ck :: ck in s.claims ==> IsClaimOf(s, heard, ck, s.claims[ck]))
    && (forall k :: k in s.live ==> RowWasSaid(s, heard, k, s.live[k]))
  }

  lemma MoreWasSaid(s: Pfs, heard: set<Message>, more: set<Message>)
    requires WasSaid(s, heard) && heard <= more
    ensures WasSaid(s, more)
  {
    forall k | k in s.live
      ensures RowWasSaid(s, more, k, s.live[k])
    {
      assert RowWasSaid(s, heard, k, s.live[k]);
    }
  }

  /** Other rows stay as they were said. */
  lemma RowsWereSaid(s: Pfs, t: Pfs, key: ChannelKey, heard: set<Message>)
    requires WasSaid(s, heard) && t.chainId == s.chainId && t.waiting == s.waiting && t.live.Keys == s.live.Keys
    requires forall ck :: ck in t.claims ==> IsClaimOf(s, heard, ck, t.claims[ck])
    requires forall k :: k in s.live && k != key ==> t.live[k] == s.live[k]
    requires key in t.live ==> RowWasSaid(s, heard, key, t.live[key])
    ensures WasSaid(t, heard)
  {
    forall k | k in t.live
      ensures RowWasSaid(t, heard, k, t.live[k])
    {
      assert RowWasSaid(s, heard, k, t.live[k]);
    }
  }

  lemma CapacityUpdateWasSaid(s: Pfs, m: Message, heard: set<Message>)
    requires Consistent(s) && WasSaid(s, heard) && m in heard && m.CapacityUpdate? && !SelfUpdate(m)
    ensures WasSaid(HandleCapacityUpdate(s, m).state, heard)
  {
    var h := HandleCapacityUpdate(s, m);
    if h.outcome.Accepted? {
      var row, next := s.live[m.key], h.state.live[m.key];
      assert RowWasSaid(s, heard, m.key, row);
      assert AreNoncesOf(s, heard, m.key, next);
      forall a | IsParticipant(next, a)
        ensures SideOf(next, a).fees == SideOf(row, a).fees
      {
      }
      assert IsClaimOf(s, heard, ClaimKey(m.updating, m.key), Claim(m.updatingCapacity, m.otherCapacity));
      RowsWereSaid(s, h.state, m.key, heard);
    }
  }

  lemma FeeUpdateWasSaid(s: Pfs, m: Message, now: int, heard: set<Message>)
    requires Consistent(s) && WasSaid(s, heard) && m in heard && m.FeeUpdate?
    ensures WasSaid(HandleFeeUpdate(s, m, now).state, heard)
  {
    var h := HandleFeeUpdate(s, m, now);
    if h.outcome.Accepted? {
      var row, next := s.live[m.key], h.state.live[m.key];
      assert RowWasSaid(s, heard, m.key, row);
      assert IsScheduleOf(s, heard, m.key, m.updating, SideOf(next, m.updating).fees);
      assert SideOf(next, Partner(row, m.updating)) == SideOf(row, Partner(row, m.updating));
      NoncesStay(s, heard, m.key, row, next);
      RowsWereSaid(s, h.state, m.key, heard);
    }
  }

  lemma NoncesStay(s: Pfs, heard: set<Message>, k: ChannelKey, row: ChannelRow, next: ChannelRow)
    requires SamePair(row, next)
    requires next.side1.updateNonce == row.side1.updateNonce && next.side2.updateNonce == row.side2.updateNonce
    ensures AreNoncesOf(s, heard, k, row) ==> AreNoncesOf(s, heard, k, next)
  {
    if AreNoncesOf(s, heard, k, row) {
      var m :| m in heard && IsOwnWord(s.chainId, m) && m.CapacityUpdate? && m.key == k
               && IsParticipant(row, m.updating) && m.other == Partner(row, m.updating)
               && SideOf(row, m.updating).updateNonce == m.updatingNonce && SideOf(row, m.other).updateNonce == m.otherNonce;
      assert IsParticipant(next, m.updating) && m.other == Partner(next, m.updating);
    }
  }

  lemma MessageWasSaid(s: Pfs, m: Message, now: int, heard: set<Message>)
    requires Consistent(s) && WasSaid(s, heard) && m in heard && !SelfUpdate(m)
    ensures WasSaid(HandleMessage(s, m, now).state, heard)
  {
    if m.CapacityUpdate? {
      CapacityUpdateWasSaid(s, m, heard);
    } else {
      FeeUpdateWasSaid(s, m, now, heard);
    }
  }

  lemma {:induction false} MessagesWereSaid(s: Pfs, ms: seq<Message>, key: ChannelKey, now: int, heard: set<Message>)
    requires Consistent(s) && WasSaid(s, heard) && key in s.live
    requires forall m :: m in ms ==> m in heard && m.key == key && !SelfUpdate(m)
    ensures WasSaid(HandleMessages(s, ms, now).state, heard)
    decreases |ms|
  {
    if ms != [] {
      assert ms[0] in ms;
      MessageWasSaid(s, ms[0], now, heard);
      LiveMessage(s, ms[0], now);
      MessagesWereSaid(HandleMessage(s, ms[0], now).state, ms[1..], key, now, heard);
    }
  }

  lemma OpeningWasSaid(s: Pfs, key: ChannelKey, a: Address, b: Address, now: int, heard: set<Message>)
    requires Agrees(s) && WasSaid(s, heard) && Admissible(s, key, a, b)
    ensures WasSaid(HandleOpened(s, key, a, b, now).state, heard)
  {
    if key.network in s.networks {
      var t := Stored(s, key, FreshRow(a, b));
      StoredConsistent(s, key, FreshRow(a, b));
      FreshWasSaid(s, key, FreshRow(a, b), heard);
      WaitingSplit(s.waiting, key);
      MessagesWereSaid(t, WaitingFor(s.waiting, key), key, now, heard);
      var h := HandleMessages(t, WaitingFor(s.waiting, key), now);
      WaitingSplit(h.state.waiting, key);
      FewerWait(h.state, NotWaitingFor(h.state.waiting, key), heard);
    }
  }

  lemma FewerWait(s: Pfs, waiting: seq<Message>, heard: set<Message>)
    requires WasSaid(s, heard) && forall m :: m in waiting ==> m in s.waiting
    ensures WasSaid(s.(waiting := waiting), heard)
  {
    forall k | k in s.live
      ensures RowWasSaid(s.(waiting := waiting), heard, k, s.live[k])
    {
      assert RowWasSaid(s, heard, k, s.live[k]);
    }
  }

  lemma FreshWasSaid(s: Pfs, key: ChannelKey, row: ChannelRow, heard: set<Message>)
    requires WasSaid(s, heard) && row.side1 == FRESH_SIDE && row.side2 == FRESH_SIDE
    ensures WasSaid(Stored(s, key, row), heard)
  {
    forall k | k in s.live
      ensures RowWasSaid(Stored(s, key, row), heard, k, s.live[k])
    {
      assert RowWasSaid(s, heard, k, s.live[k]);
    }
  }

  lemma StepWasSaid(s: Pfs, step: Step, heard: set<Message>)
    requires Agrees(s) && Lawful(s, step) && WasSaid(s, heard) && (step.Received? ==> step.message in heard)
    ensures WasSaid(Exec(s, step), heard)
  {
    match step
    case Opened(key, a, b, now) => OpeningWasSaid(s, key, a, b, now, heard);
    case Received(m, now) => MessageWasSaid(s, m, now, heard);
    case _ =>
      forall k | k in Exec(s, step).live
        ensures RowWasSaid(Exec(s, step), heard, k, Exec(s, step).live[k])
      {
        assert RowWasSaid(s, heard, k, s.live[k]);
      }
  }

  /** In every run, whatever the service holds about a participant goes back to a message of that participant itself. */
  lemma {:induction false} EverythingWasSaid(steps: seq<Step>, trace: seq<Pfs>, n: nat)
    requires IsRun(steps, trace) && n <= |steps|
    ensures WasSaid(trace[n], Heard(steps, n))
  {
    if n != 0 {
      EverythingWasSaid(steps, trace, n - 1);
      RunAgrees(steps, trace, n - 1);
      MoreWasSaid(trace[n - 1], Heard(steps, n - 1), Heard(steps, n));
      StepWasSaid(trace[n - 1], steps[n - 1], Heard(steps, n));
    }
  }

  /**
   A capacity above zero is the smaller one of what its owner said it can send and what the partner said it can
   receive: each by its own signature.
   */
  lemma CapacitiesWereAgreed(steps: seq<Step>, trace: seq<Pfs>, n: nat, key: ChannelKey, a: Address)
    requires IsRun(steps, trace) && OpensOnce(steps) && n <= |steps|
    requires key in trace[n].live && IsParticipant(trace[n].live[key], a) && SideOf(trace[n].live[key], a).capacity > 0
    ensures var s, heard := trace[n], Heard(steps, n);
            var b := Partner(s.live[key], a);
            exists m, q :: m in heard && q in heard && IsOwnWord(s.chainId, m) && IsOwnWord(s.chainId, q)
                           && m.CapacityUpdate? && q.CapacityUpdate? && m.key == q.key == key && m.sender == a && q.sender == b
                           && SideOf(s.live[key], a).capacity == Min(m.updatingCapacity, q.otherCapacity)
  {
    var s, heard := trace[n], Heard(steps, n);
    var b := Partner(s.live[key], a);
    RunMinima(steps, trace, n);
    RunAgrees(steps, trace, n);
    EverythingWasSaid(steps, trace, n);
    assert CapacityIsMinimum(s.live[key], s.claims, key);
    assert ClaimKey(a, key) in s.claims || ClaimKey(b, key) in s.claims;
  }

  // ---------------------------------------------------------------- networks and the cursor

  /** The settle timeout with which a network was first created. */
  function FirstTimeout(steps: seq<Step>, n: nat, network: Address): Option<int>
    requires n <= |steps|
  {
    if n == 0 then None
    else
      var before := FirstTimeout(steps, n - 1, network);
      if before.None? && steps[n - 1].Created? && steps[n - 1].network == network then Some(steps[n - 1].settleTimeout) else before
  }

  /** The last head block that was handled. */
  function LastHead(steps: seq<Step>, n: nat, start: int): int
    requires n <= |steps|
  {
    if n == 0 then start else if steps[n - 1].HeadBlock? then steps[n - 1].block else LastHead(steps, n - 1, start)
  }

  lemma StepKeepsFrame(s: Pfs, step: Step)
    requires Agrees(s) && Lawful(s, step)
    ensures !step.Created? ==> Exec(s, step).networks == s.networks
    ensures Exec(s, step).committed == if step.HeadBlock? then step.block else s.committed
  {
    match step
    case Opened(key, a, b, now) =>
      if key.network in s.networks {
        WaitingSplit(s.waiting, key);
        StoredConsistent(s, key, FreshRow(a, b));
        MessagesKeepFrame(Stored(s, key, FreshRow(a, b)), WaitingFor(s.waiting, key), now);
      }
    case Received(m, now) => FateOfAMessage(s, m, now);
    case _ =>
  }

  lemma {:induction false} MessagesKeepFrame(s: Pfs, ms: seq<Message>, now: int)
    ensures var t := HandleMessages(s, ms, now).state; t.networks == s.networks && t.committed == s.committed
    decreases |ms|
  {
    if ms != [] {
      MessageKeepsFrame(s, ms[0], now);
      MessagesKeepFrame(HandleMessage(s, ms[0], now).state, ms[1..], now);
    }
  }

  lemma MessageKeepsFrame(s: Pfs, m: Message, now: int)
    ensures var t := HandleMessage(s, m, now).state; t.networks == s.networks && t.committed == s.committed
  {
  }

  /** In every run, exactly the created networks are followed, with their first settle timeout, and the cursor is the last head. */
  lemma {:induction false} NetworksAreCreated(steps: seq<Step>, trace: seq<Pfs>, n: nat)
    requires IsRun(steps, trace) && n <= |steps|
    ensures trace[n].committed == LastHead(steps, n, trace[0].committed)
    ensures forall a :: (a in trace[n].networks <==> FirstTimeout(steps, n, a).Some?)
                        && (a in trace[n].networks ==> FirstTimeout(steps, n, a) == Some(trace[n].networks[a]))
  {
    if n != 0 {
      NetworksAreCreated(steps, trace, n - 1);
      RunAgrees(steps, trace, n - 1);
      StepKeepsFrame(trace[n - 1], steps[n - 1]);
    }
  }
}
