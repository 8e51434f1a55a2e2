/** What holds after every step of a crash-free run of the pathfinding service. */
module PfsAgreement {
  import opened Common
  import opened PfsModel

  // ---------------------------------------------------------------- memory and database agree

  /** The channels in memory are the rows of the table; identifiers and participant pairs are in bijection. */
  ghost predicate Consistent(s: Pfs) {
    && s.live == s.rows
    && (forall k :: k in s.live ==> k.network in s.networks && s.live[k].participant1 < s.live[k].participant2)
    && (forall k, q :: k in s.live && q in s.live && k.network == q.network && SamePair(s.live[k], s.live[q]) ==> k == q)
  }

  /** No message waits for an open channel. */
  ghost predicate NothingOverdue(s: Pfs) {
    forall m :: m in s.waiting ==> m.key !in s.live && !SelfUpdate(m)
  }

  ghost predicate Agrees(s: Pfs) {
    Consistent(s) && NothingOverdue(s)
  }

  lemma StoredConsistent(s: Pfs, key: ChannelKey, row: ChannelRow)
    requires Consistent(s) && key.network in s.networks && row.participant1 < row.participant2
    requires forall k :: k in s.live && k.network == key.network && SamePair(s.live[k], row) ==> k == key
    ensures Consistent(Stored(s, key, row))
    ensures Stored(s, key, row) == s.(live := s.live[key := row], rows := s.live[key := row])
  {
    assert UpsertRow(s.rows, key, row) == s.rows[key := row];
  }

  /** A message for a live channel updates its row or changes nothing but the claims. */
  lemma LiveMessage(s: Pfs, m: Message, now: int)
    requires Consistent(s) && m.key in s.live
    ensures var h := HandleMessage(s, m, now);
            && Consistent(h.state) && h.state.live.Keys == s.live.Keys && h.state.waiting == s.waiting
            && h.state.networks == s.networks && h.state.chainId == s.chainId
            && !h.outcome.Deferred? && (h.outcome.KeyError? ==> SelfUpdate(m))
            && (forall k :: k in s.live ==> SamePair(h.state.live[k], s.live[k]))
            && (forall k :: k in s.live && k != m.key ==> h.state.live[k] == s.live[k])
  {
    var h := HandleMessage(s, m, now);
    LiveMessageStores(s, m, now);
    if h.outcome.Accepted? {
      var t := s.(claims := h.state.claims);
      StoredConsistent(t, m.key, h.state.live[m.key]);
    }
  }

  lemma LiveMessageStores(s: Pfs, m: Message, now: int)
    requires m.key in s.live
    ensures var h := HandleMessage(s, m, now);
            var t := s.(claims := h.state.claims);
            && !h.outcome.Deferred? && (h.outcome.KeyError? ==> SelfUpdate(m))
            && if h.outcome.Accepted? then
                 && m.key.network in s.networks && m.key in h.state.live && SamePair(h.state.live[m.key], s.live[m.key])
                 && h.state == Stored(t, m.key, h.state.live[m.key])
               else
                 h.state == t
  {
  }

  lemma {:induction false} LiveMessages(s: Pfs, ms: seq<Message>, key: ChannelKey, now: int)
    requires Consistent(s) && key in s.live && forall m :: m in ms ==> m.key == key && !SelfUpdate(m)
    ensures var h := HandleMessages(s, ms, now);
            && Consistent(h.state) && h.state.live.Keys == s.live.Keys && h.state.waiting == s.waiting
            && h.state.networks == s.networks && h.state.chainId == s.chainId && h.outcome.Accepted?
    decreases |ms|
  {
    if ms != [] {
      assert ms[0] in ms;
      LiveMessage(s, ms[0], now);
      LiveMessages(HandleMessage(s, ms[0], now).state, ms[1..], key, now);
    }
  }

  lemma {:induction false} WaitingSplit(waiting: seq<Message>, key: ChannelKey)
    ensures forall m :: m in WaitingFor(waiting, key) <==> m in waiting && m.key == key
    ensures forall m :: m in NotWaitingFor(waiting, key) <==> m in waiting && m.key != key
  {
    if waiting != [] {
      WaitingSplit(waiting[1..], key);
    }
  }

  lemma OpenedAgrees(s: Pfs, step: Step)
    requires Agrees(s) && step.Opened? && Lawful(s, step)
    ensures Agrees(Exec(s, step))
  {
    var key := step.key;
    if key.network in s.networks {
      var row := FreshRow(step.a, step.b);
      StoredConsistent(s, key, row);
      WaitingSplit(s.waiting, key);
      LiveMessages(Stored(s, key, row), WaitingFor(s.waiting, key), key, step.now);
    }
  }

  lemma StepAgrees(s: Pfs, step: Step)
    requires Agrees(s) && Lawful(s, step)
    ensures Agrees(Exec(s, step))
  {
    match step
    case Opened(_, _, _, _) => OpenedAgrees(s, step);
    case Received(m, now) =>
      if m.key in s.live {
        LiveMessage(s, m, now);
      }
    case _ =>
  }

  /** After every step of a crash-free run, memory and database agree, and no message waits for an open channel. */
  lemma {:induction false} RunAgrees(steps: seq<Step>, trace: seq<Pfs>, n: nat)
    requires IsRun(steps, trace) && n <= |steps|
    ensures Agrees(trace[n])
  {
    if n != 0 {
      RunAgrees(steps, trace, n - 1);
      StepAgrees(trace[n - 1], steps[n - 1]);
    }
  }

  // ---------------------------------------------------------------- capacities

  /** Each direction's capacity is the minimum of what its owner and its partner last claimed. */
  predicate CapacityIsMinimum(row: ChannelRow, claims: map<ClaimKey, Claim>, key: ChannelKey) {
    var c1, c2 := ClaimOf(claims, row.participant1, key), ClaimOf(claims, row.participant2, key);
    row.side1.capacity == Min(c1.own, c2.partner) && row.side2.capacity == Min(c2.own, c1.partner)
  }

  ghost predicate CapacitiesAreMinima(s: Pfs) {
    forall k :: k in s.live ==> CapacityIsMinimum(s.live[k], s.claims, k)
  }

  lemma LiveMessageMinima(s: Pfs, m: Message, now: int)
    requires Consistent(s) && CapacitiesAreMinima(s) && m.key in s.live && !SelfUpdate(m)
    ensures CapacitiesAreMinima(HandleMessage(s, m, now).state)
  {
    var t := HandleMessage(s, m, now).state;
    LiveMessage(s, m, now);
    forall k | k in t.live
      ensures CapacityIsMinimum(t.live[k], t.claims, k)
    {
      assert CapacityIsMinimum(s.live[k], s.claims, k);
      if k == m.key {
        OwnMinimum(s, m, now);
      } else {
        OtherClaims(s, m, now, k);
      }
    }
  }

  lemma OwnMinimum(s: Pfs, m: Message, now: int)
    requires m.key in s.live && CapacityIsMinimum(s.live[m.key], s.claims, m.key) && !SelfUpdate(m)
    ensures var t := HandleMessage(s, m, now).state; m.key in t.live && CapacityIsMinimum(t.live[m.key], t.claims, m.key)
  {
  }

  lemma OtherClaims(s: Pfs, m: Message, now: int, k: ChannelKey)
    requires k != m.key
    ensures forall a :: ClaimOf(HandleMessage(s, m, now).state.claims, a, k) == ClaimOf(s.claims, a, k)
  {
  }

  lemma {:induction false} LiveMessagesMinima(s: Pfs, ms: seq<Message>, key: ChannelKey, now: int)
    requires Consistent(s) && CapacitiesAreMinima(s) && key in s.live
    requires forall m :: m in ms ==> m.key == key && !SelfUpdate(m)
    ensures CapacitiesAreMinima(HandleMessages(s, ms, now).state)
    decreases |ms|
  {
    if ms != [] {
      assert ms[0] in ms;
      LiveMessage(s, ms[0], now);
      LiveMessageMinima(s, ms[0], now);
      LiveMessagesMinima(HandleMessage(s, ms[0], now).state, ms[1..], key, now);
    }
  }

  ghost predicate Unclaimed(s: Pfs, key: ChannelKey) {
    forall a :: ClaimKey(a, key) !in s.claims
  }

  lemma StepMinima(s: Pfs, step: Step)
    requires Agrees(s) && CapacitiesAreMinima(s) && Lawful(s, step)
    requires step.Opened? ==> Unclaimed(s, step.key)
    ensures CapacitiesAreMinima(Exec(s, step))
  {
    match step
    case Opened(key, a, b, now) =>
      if key.network in s.networks {
        var t := Stored(s, key, FreshRow(a, b));
        StoredConsistent(s, key, FreshRow(a, b));
        assert CapacitiesAreMinima(t);
        WaitingSplit(s.waiting, key);
        LiveMessagesMinima(t, WaitingFor(s.waiting, key), key, now);
      }
    case Received(m, now) =>
      if m.key in s.live {
        LiveMessageMinima(s, m, now);
      }
    case _ =>
  }

  /** Claims are stored for live channels only. */
  lemma {:induction false} MessagesClaim(s: Pfs, ms: seq<Message>, key: ChannelKey, now: int)
    requires forall m :: m in ms ==> m.key == key
    ensures forall c :: c in HandleMessages(s, ms, now).state.claims ==> c in s.claims || c.key == key
    decreases |ms|
  {
    if ms != [] {
      assert ms[0] in ms;
      MessagesClaim(HandleMessage(s, ms[0], now).state, ms[1..], key, now);
    }
  }

  lemma StepClaims(s: Pfs, step: Step)
    ensures forall c :: c in Exec(s, step).claims ==> c in s.claims || c.key in s.live || (step.Opened? && c.key == step.key)
    ensures forall k :: k in Exec(s, step).live ==> k in s.live || (step.Opened? && k == step.key)
  {
    if step.Opened? {
      WaitingSplit(s.waiting, step.key);
      MessagesClaim(Stored(s, step.key, FreshRow(step.a, step.b)), WaitingFor(s.waiting, step.key), step.key, step.now);
      MessagesKeepKeys(Stored(s, step.key, FreshRow(step.a, step.b)), WaitingFor(s.waiting, step.key), step.now);
    }
  }

  lemma {:induction false} MessagesKeepKeys(s: Pfs, ms: seq<Message>, now: int)
    ensures HandleMessages(s, ms, now).state.live.Keys == s.live.Keys
    decreases |ms|
  {
    if ms != [] {
      MessagesKeepKeys(HandleMessage(s, ms[0], now).state, ms[1..], now);
    }
  }

  ghost predicate OpenedBefore(steps: seq<Step>, n: nat, key: ChannelKey)
    requires n <= |steps|
  {
    exists j :: 0 <= j < n && steps[j].Opened? && steps[j].key == key
  }

  /** Nothing is known about a channel before it is opened. */
  lemma {:induction false} OnlyOpenedAreKnown(steps: seq<Step>, trace: seq<Pfs>, n: nat)
    requires IsRun(steps, trace) && n <= |steps|
    ensures forall c :: c in trace[n].claims ==> OpenedBefore(steps, n, c.key)
    ensures forall k :: k in trace[n].live ==> OpenedBefore(steps, n, k)
  {
    if n != 0 {
      OnlyOpenedAreKnown(steps, trace, n - 1);
      StepClaims(trace[n - 1], steps[n - 1]);
    }
  }

  /**
   In every state of a crash-free run, each direction's capacity is the minimum of its owner's last
   own claim and its partner's last claim about it, where a missing claim counts as zero.
   */
  lemma {:induction false} RunMinima(steps: seq<Step>, trace: seq<Pfs>, n: nat)
    requires IsRun(steps, trace) && OpensOnce(steps) && n <= |steps|
    ensures CapacitiesAreMinima(trace[n])
  {
    if n != 0 {
      RunMinima(steps, trace, n - 1);
      RunAgrees(steps, trace, n - 1);
      OnlyOpenedAreKnown(steps, trace, n - 1);
      StepMinima(trace[n - 1], steps[n - 1]);
    }
  }

  /** No direction ever offers more than an honest participant claimed for it, on either end. */
  lemma NeverAboveAClaim(steps: seq<Step>, trace: seq<Pfs>, n: nat, key: ChannelKey, a: Address)
    requires IsRun(steps, trace) && OpensOnce(steps) && n <= |steps|
    requires key in trace[n].live && IsParticipant(trace[n].live[key], a)
    ensures var s := trace[n];
            && SideOf(s.live[key], a).capacity <= ClaimOf(s.claims, a, key).own
            && SideOf(s.live[key], a).capacity <= ClaimOf(s.claims, Partner(s.live[key], a), key).partner
  {
    RunMinima(steps, trace, n);
    assert CapacityIsMinimum(trace[n].live[key], trace[n].claims, key);
    RunAgrees(steps, trace, n);
  }

  // ---------------------------------------------------------------- after a crash

  /**
   A replayed opening resets both sides of the channel, but not the stored claims. The capacities are minima
   afterwards if and only if both were zero: exactly the others are lost.
   */
  lemma ReplayLosesCapacities(s: Pfs, step: Step)
    requires Agrees(s) && CapacitiesAreMinima(s) && step.Opened? && Lawful(s, step) && step.key in s.live
    ensures var t, row := Exec(s, step), s.live[step.key];
            && t == s.(live := s.live[step.key := FreshRow(step.a, step.b)], rows := s.rows[step.key := FreshRow(step.a, step.b)])
            && SamePair(t.live[step.key], row)
            && (CapacitiesAreMinima(t) <==> row.side1.capacity == 0 && row.side2.capacity == 0)
  {
    var key, blank := step.key, FreshRow(step.a, step.b);
    StoredConsistent(s, key, blank);
    var t := Stored(s, key, blank);
    NothingWaits(s.waiting, key);
    assert Exec(s, step) == t;
    assert CapacityIsMinimum(s.live[key], s.claims, key);
    forall k | k in t.live && k != key
      ensures CapacityIsMinimum(t.live[k], t.claims, k)
    {
      assert CapacityIsMinimum(s.live[k], s.claims, k);
    }
  }

  lemma {:induction false} NothingWaits(waiting: seq<Message>, key: ChannelKey)
    requires forall m :: m in waiting ==> m.key != key
    ensures WaitingFor(waiting, key) == [] && NotWaitingFor(waiting, key) == waiting
  {
    if waiting != [] {
      assert waiting[0] in waiting;
      NothingWaits(waiting[1..], key);
    }
  }

  /** The next accepted capacity update makes both capacities of its channel minima again, whatever they were. */
  lemma UpdateRestoresMinimum(s: Pfs, m: Message, now: int)
    requires Consistent(s) && m.CapacityUpdate? && HandleMessage(s, m, now).outcome.Accepted?
    ensures var t := HandleMessage(s, m, now).state;
            m.key in t.live && CapacityIsMinimum(t.live[m.key], t.claims, m.key)
  {
  }

  const KEY := ChannelKey(7, 1)

  /** A participant claims five for itself and five for its partner. */
  function ClaimFive(updating: Address, other: Address): Message {
    CapacityUpdate(1, KEY, updating, updating, other, 1, 1, 5, 5, DEFAULT_REVEAL_TIMEOUT)
  }

  function RowWith(capacity1: int, capacity2: int, nonce1: int, nonce2: int): ChannelRow {
    ChannelRow(1, 2, FRESH_SIDE.(capacity := capacity1, updateNonce := nonce1), FRESH_SIDE.(capacity := capacity2, updateNonce := nonce2))
  }

  function StateWith(row: ChannelRow, claims: map<ClaimKey, Claim>): Pfs {
    Pfs(1, map[7 := 100], map[KEY := row], map[KEY := row], claims, [], 0)
  }

  const OPENING := Opened(KEY, 1, 2, 0)
  const ONE_CLAIM := map[ClaimKey(1, KEY) := Claim(5, 5)]
  const BOTH_CLAIMS := map[ClaimKey(1, KEY) := Claim(5, 5), ClaimKey(2, KEY) := Claim(5, 5)]

  const REPLAY_STEPS := [Created(7, 100), OPENING, Received(ClaimFive(1, 2), 0), Received(ClaimFive(2, 1), 0), OPENING]

  const REPLAY_TRACE := [
    InitialState(1, 0),
    InitialState(1, 0).(networks := map[7 := 100]),
    StateWith(FreshRow(1, 2), map[]),
    StateWith(RowWith(0, 0, 1, 1), ONE_CLAIM),
    StateWith(RowWith(5, 5, 1, 1), BOTH_CLAIMS),
    StateWith(FreshRow(1, 2), BOTH_CLAIMS)]

  lemma OpeningStep(s: Pfs)
    requires s.networks == map[7 := 100] && s.rows.Keys <= {KEY} && s.live.Keys <= {KEY} && s.waiting == []
    ensures Exec(s, OPENING) == s.(live := map[KEY := FreshRow(1, 2)], rows := map[KEY := FreshRow(1, 2)])
  {
    var t := s.(live := map[KEY := FreshRow(1, 2)], rows := map[KEY := FreshRow(1, 2)]);
    assert UpsertRow(s.rows, KEY, FreshRow(1, 2)) == t.rows && s.live[KEY := FreshRow(1, 2)] == t.live;
    assert Stored(s, KEY, FreshRow(1, 2)) == t;
    assert HandleMessages(t, [], 0) == Handled(t, Accepted);
  }

  lemma ClaimStep(s: Pfs, updating: Address, other: Address)
    requires (updating == 1 && other == 2) || (updating == 2 && other == 1)
    requires s.networks == map[7 := 100] && s.chainId == 1 && s.rows.Keys == {KEY} == s.live.Keys && SamePair(s.live[KEY], FreshRow(1, 2))
    ensures var m := ClaimFive(updating, other);
            var claims := s.claims[ClaimKey(updating, KEY) := Claim(5, 5)];
            var row := CapacityRow(s.live[KEY], m, ClaimOf(claims, other, KEY));
            Exec(s, Received(m, 0)) == s.(claims := claims, live := map[KEY := row], rows := map[KEY := row])
  {
    var m := ClaimFive(updating, other);
    var claims := s.claims[ClaimKey(updating, KEY) := Claim(5, 5)];
    var row := CapacityRow(s.live[KEY], m, ClaimOf(claims, other, KEY));
    assert UpsertRow(s.rows, KEY, row) == map[KEY := row] && s.live[KEY := row] == map[KEY := row];
  }

  lemma EveryReplayStep(i: nat)
    requires i < 5
    ensures Lawful(REPLAY_TRACE[i], REPLAY_STEPS[i]) && REPLAY_TRACE[i + 1] == Exec(REPLAY_TRACE[i], REPLAY_STEPS[i])
  {
    if i == 1 || i == 4 {
      OpeningStep(REPLAY_TRACE[i]);
    } else if i == 2 {
      ClaimStep(REPLAY_TRACE[2], 1, 2);
    } else if i == 3 {
      ClaimStep(REPLAY_TRACE[3], 2, 1);
      assert ONE_CLAIM[ClaimKey(2, KEY) := Claim(5, 5)] == BOTH_CLAIMS;
    }
  }

  /** A run in which the opening of a channel with capacities of five is replayed, and both are lost. */
  lemma ReplayCanLoseCapacities()
    ensures IsRun(REPLAY_STEPS, REPLAY_TRACE)
    ensures CapacitiesAreMinima(REPLAY_TRACE[4]) && REPLAY_TRACE[4].live[KEY].side1.capacity == 5
    ensures !CapacitiesAreMinima(REPLAY_TRACE[5]) && REPLAY_TRACE[5].live[KEY].side1.capacity == 0
  {
    forall i | 0 <= i < |REPLAY_STEPS|
      ensures Lawful(REPLAY_TRACE[i], REPLAY_STEPS[i]) && REPLAY_TRACE[i + 1] == Exec(REPLAY_TRACE[i], REPLAY_STEPS[i])
    {
      EveryReplayStep(i);
    }
    assert !CapacityIsMinimum(REPLAY_TRACE[5].live[KEY], BOTH_CLAIMS, KEY);
  }

  // ---------------------------------------------------------------- a participant as its own partner

  /**
   A capacity update that passes all checks is applied, and leaves capacities that are minima, exactly
   when its sender does not name itself as the partner.
   */
  lemma {:induction false} AppliedUnlessSelfUpdate(s: Pfs, m: Message, now: int)
    requires Consistent(s) && CapacitiesAreMinima(s) && m.CapacityUpdate? && WellSigned(s, m) && m.key in s.live
    requires IsParticipant(s.live[m.key], m.updating) && IsParticipant(s.live[m.key], m.other)
    ensures var h := HandleMessage(s, m, now);
            h.outcome.Accepted? && CapacitiesAreMinima(h.state) && Consistent(h.state) <==> m.updating != m.other
  {
    if m.updating != m.other {
      LiveMessage(s, m, now);
      LiveMessageMinima(s, m, now);
    }
  }

  /** Such an update leaves a claim behind that the capacities do not reflect. */
  lemma SelfUpdateBreaksMinimum()
    ensures exists s, m, now :: Agrees(s) && CapacitiesAreMinima(s) && SelfUpdate(m) && !CapacitiesAreMinima(HandleMessage(s, m, now).state)
  {
    var key := ChannelKey(7, 1);
    var row := ChannelRow(1, 2, FRESH_SIDE.(capacity := 5), FRESH_SIDE.(capacity := 5));
    var s := Pfs(1, map[7 := 100], map[key := row], map[key := row],
                 map[ClaimKey(1, key) := Claim(5, 5), ClaimKey(2, key) := Claim(5, 5)], [], 0);
    var m := CapacityUpdate(1, key, 1, 1, 1, 1, 1, 0, 0, 50);
    assert Agrees(s) && CapacitiesAreMinima(s);
    var t := HandleMessage(s, m, 0).state;
    assert t.claims[ClaimKey(1, key)] == Claim(0, 0) && t.live[key].side1.capacity == 5;
    assert !CapacityIsMinimum(t.live[key], t.claims, key);
  }
}
