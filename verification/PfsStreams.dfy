/**
 The two participants of a channel send their messages independently, and other traffic goes on in
 between: what does not depend on the order of arrival.
 */
module PfsStreams {
  import opened Common
  import opened PfsModel
  import opened PfsAgreement

  /** Every step is lawful, and none opens or removes the channel. */
  ghost predicate IsTraffic(s: Pfs, steps: seq<Step>, key: ChannelKey)
    decreases |steps|
  {
    steps == []
    || (&& Lawful(s, steps[0])
        && ((steps[0].Opened? || steps[0].Removed?) ==> steps[0].key != key)
        && IsTraffic(Exec(s, steps[0]), steps[1..], key))
  }

  // ---------------------------------------------------------------- messages for other channels

  /** What messages for other channels leave alone. */
  ghost predicate Untouched(s: Pfs, t: Pfs, key: ChannelKey) {
    && key in s.live && key in t.live && t.live[key] == s.live[key]
    && s.networks.Keys <= t.networks.Keys && t.chainId == s.chainId
    && forall a :: ClaimOf(t.claims, a, key) == ClaimOf(s.claims, a, key)
  }

  lemma OtherMessage(s: Pfs, m: Message, now: int, key: ChannelKey)
    requires key in s.live && m.key != key
    ensures Untouched(s, HandleMessage(s, m, now).state, key)
  {
  }

  lemma {:induction false} OtherMessages(s: Pfs, ms: seq<Message>, now: int, other: ChannelKey, key: ChannelKey)
    requires key in s.live && other != key && forall m :: m in ms ==> m.key == other
    ensures Untouched(s, HandleMessages(s, ms, now).state, key)
    decreases |ms|
  {
    if ms != [] {
      assert ms[0] in ms;
      OtherMessage(s, ms[0], now, key);
      OtherMessages(HandleMessage(s, ms[0], now).state, ms[1..], now, other, key);
    }
  }

  /** The step brings a message for the channel. */
  predicate Concerns(step: Step, key: ChannelKey) {
    step.Received? && step.message.key == key
  }

  lemma OtherTraffic(s: Pfs, step: Step, key: ChannelKey)
    requires Agrees(s) && Lawful(s, step) && key in s.live && !Concerns(step, key)
    requires (step.Opened? || step.Removed?) ==> step.key != key
    ensures Untouched(s, Exec(s, step), key)
  {
    match step
    case Opened(other, a, b, now) =>
      if other.network in s.networks {
        WaitingSplit(s.waiting, other);
        OtherMessages(Stored(s, other, FreshRow(a, b)), WaitingFor(s.waiting, other), now, other, key);
      }
    case Received(m, now) => OtherMessage(s, m, now, key);
    case _ =>
  }

  // ---------------------------------------------------------------- capacity updates

  /** A capacity update for the live channel that passes all checks. */
  predicate IsUpdateFor(s: Pfs, key: ChannelKey, m: Message) {
    && m.CapacityUpdate? && m.key == key && key in s.live && WellSigned(s, m)
    && IsParticipant(s.live[key], m.updating) && IsParticipant(s.live[key], m.other)
  }

  /** The capacity updates of one participant among the traffic, in the order of arrival. */
  function UpdatesOf(s: Pfs, key: ChannelKey, steps: seq<Step>, a: Address): (ms: seq<Message>)
    ensures forall m :: m in ms ==> m.CapacityUpdate?
    decreases |steps|
  {
    if steps == [] then []
    else
      (if steps[0].Received? && IsUpdateFor(s, key, steps[0].message) && steps[0].message.updating == a then [steps[0].message] else [])
      + UpdatesOf(s, key, steps[1..], a)
  }

  /** The claim and the reveal timeout that the last update of a participant leaves, if it sent any. */
  function LastClaim(ms: seq<Message>, before: Claim): Claim
    requires forall m :: m in ms ==> m.CapacityUpdate?
  {
    if ms == [] then before else Claim(ms[|ms| - 1].updatingCapacity, ms[|ms| - 1].otherCapacity)
  }

  function LastRevealTimeout(ms: seq<Message>, before: int): int
    requires forall m :: m in ms ==> m.CapacityUpdate?
  {
    if ms == [] then before else ms[|ms| - 1].revealTimeout
  }

  /** The checks of a message depend on the participants of the channel and on what the service follows. */
  lemma {:induction false} UpdatesStable(s: Pfs, t: Pfs, key: ChannelKey, steps: seq<Step>, a: Address)
    requires key in s.live && key in t.live && SamePair(s.live[key], t.live[key])
    requires key.network in s.networks && key.network in t.networks && s.chainId == t.chainId
    ensures UpdatesOf(s, key, steps, a) == UpdatesOf(t, key, steps, a)
    decreases |steps|
  {
    if steps != [] {
      UpdatesStable(s, t, key, steps[1..], a);
    }
  }

  lemma LastOfMore(s: Pfs, key: ChannelKey, steps: seq<Step>, a: Address)
    requires steps != []
    ensures var all, rest := UpdatesOf(s, key, steps, a), UpdatesOf(s, key, steps[1..], a);
            if steps[0].Received? && IsUpdateFor(s, key, steps[0].message) && steps[0].message.updating == a then
              var m := steps[0].message;
              && (forall claim :: LastClaim(all, claim) == LastClaim(rest, Claim(m.updatingCapacity, m.otherCapacity)))
              && (forall timeout :: LastRevealTimeout(all, timeout) == LastRevealTimeout(rest, m.revealTimeout))
            else
              all == rest
  {
    var rest := UpdatesOf(s, key, steps[1..], a);
    assert [] + rest == rest;
  }

  /** What a message for the channel does to the claim and the reveal timeout of a participant, and to the minima. */
  lemma {:induction false} OwnMessage(s: Pfs, m: Message, now: int, a: Address)
    requires Consistent(s) && m.key in s.live && IsParticipant(s.live[m.key], a) && !SelfUpdate(m)
    requires CapacityIsMinimum(s.live[m.key], s.claims, m.key)
    ensures var t, key, counts := HandleMessage(s, m, now).state, m.key, IsUpdateFor(s, m.key, m) && m.updating == a;
            && key in t.live && CapacityIsMinimum(t.live[key], t.claims, key)
            && ClaimOf(t.claims, a, key)
               == (if counts then Claim(m.updatingCapacity, m.otherCapacity) else ClaimOf(s.claims, a, key))
            && SideOf(t.live[key], a).revealTimeout
               == (if counts then m.revealTimeout else SideOf(s.live[key], a).revealTimeout)
  {
  }

  lemma {:induction false} TrafficStep(s: Pfs, step: Step, key: ChannelKey, a: Address)
    requires Agrees(s) && Lawful(s, step) && key in s.live && IsParticipant(s.live[key], a)
    requires (step.Opened? || step.Removed?) ==> step.key != key
    requires CapacityIsMinimum(s.live[key], s.claims, key)
    ensures var t := Exec(s, step);
            && Agrees(t) && key in t.live && SamePair(t.live[key], s.live[key])
            && s.networks.Keys <= t.networks.Keys && t.chainId == s.chainId
            && CapacityIsMinimum(t.live[key], t.claims, key)
            && var counts := step.Received? && IsUpdateFor(s, key, step.message) && step.message.updating == a;
               && ClaimOf(t.claims, a, key)
                  == (if counts then Claim(step.message.updatingCapacity, step.message.otherCapacity) else ClaimOf(s.claims, a, key))
               && SideOf(t.live[key], a).revealTimeout
                  == (if counts then step.message.revealTimeout else SideOf(s.live[key], a).revealTimeout)
  {
    StepAgrees(s, step);
    if Concerns(step, key) {
      LiveMessage(s, step.message, step.now);
      OwnMessage(s, step.message, step.now, a);
    } else {
      OtherTraffic(s, step, key);
    }
  }

  lemma {:induction false} TrafficEffect(s: Pfs, steps: seq<Step>, key: ChannelKey, a: Address)
    requires Agrees(s) && key in s.live && IsParticipant(s.live[key], a) && IsTraffic(s, steps, key)
    requires CapacityIsMinimum(s.live[key], s.claims, key)
    ensures var t, ms := ExecAll(s, steps), UpdatesOf(s, key, steps, a);
            && key in t.live && SamePair(t.live[key], s.live[key])
            && CapacityIsMinimum(t.live[key], t.claims, key)
            && ClaimOf(t.claims, a, key) == LastClaim(ms, ClaimOf(s.claims, a, key))
            && SideOf(t.live[key], a).revealTimeout == LastRevealTimeout(ms, SideOf(s.live[key], a).revealTimeout)
    decreases |steps|
  {
    if steps != [] {
      var t := Exec(s, steps[0]);
      TrafficStep(s, steps[0], key, a);
      TrafficEffect(t, steps[1..], key, a);
      UpdatesStable(s, t, key, steps[1..], a);
      LastOfMore(s, key, steps, a);
    }
  }

  /**
   Whatever else goes on, capacities, claims and reveal timeouts of a channel are the same for every
   interleaving of the two participants' capacity updates.
   */
  lemma {:induction false} InterleavingsAgree(s: Pfs, key: ChannelKey, steps: seq<Step>, others: seq<Step>, a: Address)
    requires Agrees(s) && key in s.live && CapacityIsMinimum(s.live[key], s.claims, key) && IsParticipant(s.live[key], a)
    requires IsTraffic(s, steps, key) && IsTraffic(s, others, key)
    requires forall p :: UpdatesOf(s, key, steps, p) == UpdatesOf(s, key, others, p)
    ensures var t, u := ExecAll(s, steps), ExecAll(s, others);
            && key in t.live && key in u.live
            && SideOf(t.live[key], a).capacity == SideOf(u.live[key], a).capacity
            && SideOf(t.live[key], a).revealTimeout == SideOf(u.live[key], a).revealTimeout
            && ClaimOf(t.claims, a, key) == ClaimOf(u.claims, a, key)
  {
    var b := Partner(s.live[key], a);
    TrafficEffect(s, steps, key, a);
    TrafficEffect(s, others, key, a);
    TrafficEffect(s, steps, key, b);
    TrafficEffect(s, others, key, b);
  }

  // ---------------------------------------------------------------- fee updates

  /** A fee update of a participant of the live channel that passes all checks but the order of timestamps. */
  predicate IsFeesOf(s: Pfs, key: ChannelKey, a: Address, m: Message, now: int) {
    && m.FeeUpdate? && m.key == key && m.updating == a && key in s.live && IsParticipant(s.live[key], a)
    && WellSigned(s, m) && !m.hasTimezone && m.timestamp <= now + ONE_HOUR
  }

  predicate Announces(m: Message, fees: FeeSchedule) {
    m.FeeUpdate? && fees == FeeSchedule(m.timestamp, m.schedule)
  }

  /**
   A fee update for a live channel is accepted exactly if it passes all checks and is later than the schedule in force.
   It replaces that schedule and nothing else; a rejected one changes nothing at all.
   */
  lemma {:induction false} FeeUpdateEffect(s: Pfs, m: Message, now: int)
    requires Consistent(s) && m.FeeUpdate? && m.key in s.live
    ensures var h, row, a := HandleMessage(s, m, now), s.live[m.key], m.updating;
            && (h.outcome.Accepted? <==> IsFeesOf(s, m.key, a, m, now) && SideOf(row, a).fees.timestamp < m.timestamp)
            && (h.outcome.Accepted? ==>
                  && m.key in h.state.live && Announces(m, SideOf(h.state.live[m.key], a).fees)
                  && SideOf(h.state.live[m.key], a).(fees := SideOf(row, a).fees) == SideOf(row, a)
                  && SideOf(h.state.live[m.key], Partner(row, a)) == SideOf(row, Partner(row, a))
                  && SamePair(h.state.live[m.key], row) && h.state.rows == h.state.live)
            && (!h.outcome.Accepted? ==> h.state == s)
  {
    LiveMessage(s, m, now);
  }

  /** The fee updates of one participant among the traffic; each is checked against the clock when it arrives. */
  function FeesOf(s: Pfs, key: ChannelKey, steps: seq<Step>, a: Address): (ms: seq<Message>)
    ensures forall m :: m in ms ==> m.FeeUpdate?
    decreases |steps|
  {
    if steps == [] then []
    else
      (if steps[0].Received? && IsFeesOf(s, key, a, steps[0].message, steps[0].now) then [steps[0].message] else [])
      + FeesOf(s, key, steps[1..], a)
  }

  lemma {:induction false} FeesStable(s: Pfs, t: Pfs, key: ChannelKey, steps: seq<Step>, a: Address)
    requires key in s.live && key in t.live && SamePair(s.live[key], t.live[key])
    requires key.network in s.networks && key.network in t.networks && s.chainId == t.chainId
    ensures FeesOf(s, key, steps, a) == FeesOf(t, key, steps, a)
    decreases |steps|
  {
    if steps != [] {
      FeesStable(s, t, key, steps[1..], a);
    }
  }

  lemma {:induction false} FeeStep(s: Pfs, step: Step, key: ChannelKey, a: Address)
    requires Agrees(s) && Lawful(s, step) && key in s.live && IsParticipant(s.live[key], a)
    requires (step.Opened? || step.Removed?) ==> step.key != key
    ensures var t, known := Exec(s, step), SideOf(s.live[key], a).fees;
            && Agrees(t) && key in t.live && SamePair(t.live[key], s.live[key])
            && s.networks.Keys <= t.networks.Keys && t.chainId == s.chainId
            && SideOf(t.live[key], a).fees
               == (if step.Received? && IsFeesOf(s, key, a, step.message, step.now) && known.timestamp < step.message.timestamp
                   then FeeSchedule(step.message.timestamp, step.message.schedule) else known)
  {
    StepAgrees(s, step);
    if Concerns(step, key) {
      LiveMessage(s, step.message, step.now);
    } else {
      OtherTraffic(s, step, key);
    }
  }

  /** The schedule in force is the known one or the announced one with the latest timestamp. */
  lemma {:induction false} FeeStreamEffect(s: Pfs, key: ChannelKey, a: Address, steps: seq<Step>)
    requires Agrees(s) && key in s.live && IsParticipant(s.live[key], a) && IsTraffic(s, steps, key)
    ensures var t, known, ms := ExecAll(s, steps), SideOf(s.live[key], a).fees, FeesOf(s, key, steps, a);
            && key in t.live
            && var fees := SideOf(t.live[key], a).fees;
               && (fees == known || exists m :: m in ms && Announces(m, fees))
               && known.timestamp <= fees.timestamp
               && (fees != known ==> known.timestamp < fees.timestamp)
               && forall m :: m in ms ==> m.timestamp <= fees.timestamp
    decreases |steps|
  {
    if steps != [] {
      var t := Exec(s, steps[0]);
      FeeStep(s, steps[0], key, a);
      FeeStreamEffect(t, key, a, steps[1..]);
      FeesStable(s, t, key, steps[1..], a);
      FeesOfMore(s, key, steps, a);
      var known, next, fees := SideOf(s.live[key], a).fees, SideOf(t.live[key], a).fees, SideOf(ExecAll(s, steps).live[key], a).fees;
      if next != known {
        assert steps[0].message in FeesOf(s, key, steps, a) && Announces(steps[0].message, next);
      }
      if fees != next {
        var m :| m in FeesOf(s, key, steps[1..], a) && Announces(m, fees);
        assert m in FeesOf(s, key, steps, a);
      }
    }
  }

  lemma FeesOfMore(s: Pfs, key: ChannelKey, steps: seq<Step>, a: Address)
    requires steps != []
    ensures forall m :: m in FeesOf(s, key, steps, a) <==>
      || (steps[0].Received? && IsFeesOf(s, key, a, steps[0].message, steps[0].now) && m == steps[0].message)
      || m in FeesOf(s, key, steps[1..], a)
  {
  }

  /** Whatever else goes on and whatever the order of delivery, a direction ends at the update with the latest timestamp. */
  lemma {:induction false} FeeSchedulesConverge(s: Pfs, key: ChannelKey, a: Address, steps: seq<Step>, others: seq<Step>)
    requires Agrees(s) && key in s.live && IsParticipant(s.live[key], a)
    requires IsTraffic(s, steps, key) && IsTraffic(s, others, key)
    requires forall m :: m in FeesOf(s, key, steps, a) <==> m in FeesOf(s, key, others, a)
    requires forall m, n :: m in FeesOf(s, key, steps, a) && n in FeesOf(s, key, steps, a) && m.timestamp == n.timestamp ==> m == n
    ensures key in ExecAll(s, steps).live && key in ExecAll(s, others).live
    ensures SideOf(ExecAll(s, steps).live[key], a).fees == SideOf(ExecAll(s, others).live[key], a).fees
  {
    FeeStreamEffect(s, key, a, steps);
    FeeStreamEffect(s, key, a, others);
  }
}
