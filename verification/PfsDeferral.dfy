/**
 Messages that arrive before their channel is confirmed are stored and handled right after the
 opening; nobody can tell the difference from messages that arrive in the same order just after it.
 */
module PfsDeferral {
  import opened Common
  import opened PfsModel
  import opened PfsAgreement

  /** The steps without the messages for a channel. */
  function Others(steps: seq<Step>, key: ChannelKey): seq<Step> {
    if steps == [] then []
    else (if steps[0].Received? && steps[0].message.key == key then [] else [steps[0]]) + Others(steps[1..], key)
  }

  /** The messages for a channel, in order of arrival. */
  function Early(steps: seq<Step>, key: ChannelKey): seq<Message> {
    if steps == [] then []
    else (if steps[0].Received? && steps[0].message.key == key then [steps[0].message] else []) + Early(steps[1..], key)
  }

  function Deliveries(ms: seq<Message>, now: int): seq<Step> {
    if ms == [] then [] else [Received(ms[0], now)] + Deliveries(ms[1..], now)
  }

  /** Those messages that pass the checks made before a channel is looked up. */
  function Checked(s: Pfs, ms: seq<Message>): seq<Message> {
    if ms == [] then [] else (if WellSigned(s, ms[0]) then [ms[0]] else []) + Checked(s, ms[1..])
  }

  // ---------------------------------------------------------------- two states that differ in what waits for one channel

  function WithoutWaiting(s: Pfs): Pfs {
    s.(waiting := [])
  }

  /** s and t are equal but for the waiting messages of key, of which s has the additional ones in extra. */
  ghost predicate DifferBy(s: Pfs, t: Pfs, key: ChannelKey, extra: seq<Message>) {
    && WithoutWaiting(s) == WithoutWaiting(t)
    && NotWaitingFor(s.waiting, key) == NotWaitingFor(t.waiting, key)
    && WaitingFor(s.waiting, key) == WaitingFor(t.waiting, key) + extra
  }

  lemma {:induction false} WaitingAppend(waiting: seq<Message>, m: Message, key: ChannelKey)
    ensures WaitingFor(waiting + [m], key) == WaitingFor(waiting, key) + if m.key == key then [m] else []
    ensures NotWaitingFor(waiting + [m], key) == NotWaitingFor(waiting, key) + if m.key == key then [] else [m]
  {
    if waiting == [] {
      assert waiting + [m] == [m];
    } else {
      assert (waiting + [m])[1..] == waiting[1..] + [m];
      WaitingAppend(waiting[1..], m, key);
    }
  }

  /** What waits for one channel does not matter to the others. */
  lemma {:induction false} WaitingOfOther(waiting: seq<Message>, key: ChannelKey, other: ChannelKey)
    requires key != other
    ensures WaitingFor(waiting, other) == WaitingFor(NotWaitingFor(waiting, key), other)
    ensures WaitingFor(NotWaitingFor(waiting, other), key) == WaitingFor(waiting, key)
    ensures NotWaitingFor(NotWaitingFor(waiting, other), key) == NotWaitingFor(NotWaitingFor(waiting, key), other)
  {
    if waiting != [] {
      var m, rest := waiting[0], waiting[1..];
      WaitingOfOther(rest, key, other);
      var a, b := NotWaitingFor(rest, key), NotWaitingFor(rest, other);
      assert NotWaitingFor(waiting, key) == if m.key == key then a else [m] + a;
      assert NotWaitingFor(waiting, other) == if m.key == other then b else [m] + b;
      assert ([m] + a)[1..] == a && ([m] + b)[1..] == b;
    }
  }

  /** Handling a message does not depend on the waiting messages, and at most appends to them. */
  lemma {:induction false} MessageModuloWaiting(s: Pfs, t: Pfs, m: Message, now: int)
    requires WithoutWaiting(s) == WithoutWaiting(t)
    ensures var g, h := HandleMessage(s, m, now), HandleMessage(t, m, now);
            && WithoutWaiting(g.state) == WithoutWaiting(h.state) && g.outcome == h.outcome
            && (g.outcome.Deferred? <==> WellSigned(s, m) && m.key !in s.live)
            && g.state.waiting == s.waiting + (if g.outcome.Deferred? then [m] else [])
            && h.state.waiting == t.waiting + (if g.outcome.Deferred? then [m] else [])
            && g.state.live.Keys == s.live.Keys
            && (forall k :: k in g.state.rows ==> k in s.rows || k == m.key)
            && g.state.networks == s.networks && g.state.chainId == s.chainId
  {
    assert s == t.(waiting := s.waiting);
    assert s.waiting + [] == s.waiting && t.waiting + [] == t.waiting;
  }

  lemma {:induction false} MessagesModuloWaiting(s: Pfs, t: Pfs, ms: seq<Message>, key: ChannelKey, now: int)
    requires WithoutWaiting(s) == WithoutWaiting(t) && key in s.live && forall m :: m in ms ==> m.key == key
    ensures var g, h := HandleMessages(s, ms, now), HandleMessages(t, ms, now);
            && WithoutWaiting(g.state) == WithoutWaiting(h.state) && g.outcome == h.outcome
            && g.state.waiting == s.waiting && h.state.waiting == t.waiting
            && g.state.live.Keys == s.live.Keys
            && (forall k :: k in g.state.rows ==> k in s.rows || k == key)
            && g.state.networks == s.networks && g.state.chainId == s.chainId
    decreases |ms|
  {
    if ms != [] {
      assert ms[0] in ms;
      MessageModuloWaiting(s, t, ms[0], now);
      MessagesModuloWaiting(HandleMessage(s, ms[0], now).state, HandleMessage(t, ms[0], now).state, ms[1..], key, now);
    }
  }

  lemma OpenedOther(s: Pfs, t: Pfs, step: Step, key: ChannelKey, extra: seq<Message>)
    requires DifferBy(s, t, key, extra) && step.Opened? && step.key != key
    ensures DifferBy(Exec(s, step), Exec(t, step), key, extra)
    ensures key in Exec(s, step).live <==> key in s.live
    ensures key in Exec(s, step).rows ==> key in s.rows
    ensures Exec(s, step).networks == s.networks && Exec(s, step).chainId == s.chainId
  {
    if step.key.network in s.networks {
      var row, k := FreshRow(step.a, step.b), step.key;
      var ms := WaitingFor(s.waiting, k);
      WaitingOfOther(s.waiting, key, k);
      WaitingOfOther(t.waiting, key, k);
      WaitingSplit(s.waiting, k);
      StoredModuloWaiting(s, t, k, row);
      MessagesModuloWaiting(Stored(s, k, row), Stored(t, k, row), ms, k, step.now);
      var g, h := HandleMessages(Stored(s, k, row), ms, step.now), HandleMessages(Stored(t, k, row), ms, step.now);
      assert WaitingFor(t.waiting, k) == ms;
      assert Exec(s, step) == if g.outcome.KeyError? then g.state else g.state.(waiting := NotWaitingFor(s.waiting, k));
      assert Exec(t, step) == if h.outcome.KeyError? then h.state else h.state.(waiting := NotWaitingFor(t.waiting, k));
    }
  }

  lemma StoredModuloWaiting(s: Pfs, t: Pfs, key: ChannelKey, row: ChannelRow)
    requires WithoutWaiting(s) == WithoutWaiting(t)
    ensures WithoutWaiting(Stored(s, key, row)) == WithoutWaiting(Stored(t, key, row))
  {
  }

  /** Traffic for other channels keeps the difference as it is. */
  lemma OtherStep(s: Pfs, t: Pfs, step: Step, key: ChannelKey, extra: seq<Message>)
    requires DifferBy(s, t, key, extra) && key !in s.live && key !in s.rows
    requires !(step.Opened? && step.key == key) && !(step.Received? && step.message.key == key)
    ensures DifferBy(Exec(s, step), Exec(t, step), key, extra)
    ensures key !in Exec(s, step).live && key !in Exec(s, step).rows
    ensures s.networks.Keys <= Exec(s, step).networks.Keys && Exec(s, step).chainId == s.chainId
  {
    match step
    case Opened(_, _, _, _) => OpenedOther(s, t, step, key, extra);
    case Received(m, now) =>
      MessageModuloWaiting(s, t, m, now);
      WaitingAppend(s.waiting, m, key);
      WaitingAppend(t.waiting, m, key);
      assert s.waiting + [] == s.waiting && t.waiting + [] == t.waiting;
      assert WaitingFor(s.waiting, key) + [] == WaitingFor(s.waiting, key);
      assert WaitingFor(t.waiting, key) + [] == WaitingFor(t.waiting, key);
    case _ =>
  }

  // ---------------------------------------------------------------- before the opening

  lemma {:induction false} CheckedStable(s: Pfs, t: Pfs, ms: seq<Message>, key: ChannelKey)
    requires s.chainId == t.chainId && key.network in s.networks && key.network in t.networks
    requires forall m :: m in ms ==> m.key == key
    ensures Checked(s, ms) == Checked(t, ms)
  {
    if ms != [] {
      assert ms[0] in ms;
      CheckedStable(s, t, ms[1..], key);
    }
  }

  lemma {:induction false} EarlyMembers(steps: seq<Step>, key: ChannelKey)
    ensures forall m :: m in Early(steps, key) ==> m.key == key
  {
    if steps != [] {
      EarlyMembers(steps[1..], key);
    }
  }

  lemma CheckedCons(s: Pfs, m: Message, ms: seq<Message>)
    ensures Checked(s, [m] + ms) == (if WellSigned(s, m) then [m] else []) + Checked(s, ms)
    ensures Checked(s, [m]) == if WellSigned(s, m) then [m] else []
  {
    assert ([m] + ms)[1..] == ms;
    assert [m][1..] == [];
    assert Checked(s, [m][1..]) == [];
  }

  /** An early message is stored if it passes the checks, and dropped if not. */
  lemma EarlyArrives(s: Pfs, t: Pfs, m: Message, now: int, extra: seq<Message>)
    requires DifferBy(s, t, m.key, extra) && m.key !in s.live && m.key !in s.rows
    ensures var u := HandleMessage(s, m, now).state;
            && DifferBy(u, t, m.key, extra + Checked(s, [m]))
            && m.key !in u.live && m.key !in u.rows && u.networks == s.networks && u.chainId == s.chainId
  {
    CheckedCons(s, m, []);
    EarlyIsStored(s, m, now);
    WaitingAppend(s.waiting, m, m.key);
    assert extra + [] == extra;
    assert (WaitingFor(t.waiting, m.key) + extra) + [m] == WaitingFor(t.waiting, m.key) + (extra + [m]);
  }

  lemma EarlyIsStored(s: Pfs, m: Message, now: int)
    requires m.key !in s.live
    ensures HandleMessage(s, m, now).state == if WellSigned(s, m) then s.(waiting := s.waiting + [m]) else s
  {
  }

  /** One run with and one without the messages for a channel that is not open yet. */
  lemma {:induction false} BeforeOpening(s: Pfs, t: Pfs, steps: seq<Step>, key: ChannelKey, extra: seq<Message>)
    requires DifferBy(s, t, key, extra) && key !in s.live && key !in s.rows && key.network in s.networks
    requires forall step :: step in steps ==> !(step.Opened? && step.key == key)
    ensures var u, v := ExecAll(s, steps), ExecAll(t, Others(steps, key));
            && DifferBy(u, v, key, extra + Checked(s, Early(steps, key)))
            && key !in u.live && key !in u.rows && key.network in u.networks && u.chainId == s.chainId
    decreases |steps|
  {
    if steps == [] {
      assert extra + [] == extra;
    } else {
      var step, rest := steps[0], steps[1..];
      assert step in steps;
      var u := Exec(s, step);
      EarlyMembers(rest, key);
      if step.Received? && step.message.key == key {
        EarlyArrives(s, t, step.message, step.now, extra);
        var more := Checked(s, [step.message]);
        BeforeOpening(u, t, rest, key, extra + more);
        CheckedStable(s, u, Early(rest, key), key);
        EarlyFirst(s, steps, key, extra);
      } else {
        OtherStep(s, t, step, key, extra);
        BeforeOpening(u, Exec(t, step), rest, key, extra);
        CheckedStable(s, u, Early(rest, key), key);
        assert Early(steps, key) == Early(rest, key);
        assert Others(steps, key) == [step] + Others(rest, key);
        assert ([step] + Others(rest, key))[1..] == Others(rest, key);
      }
    }
  }

  lemma EarlyFirst(s: Pfs, steps: seq<Step>, key: ChannelKey, extra: seq<Message>)
    requires steps != [] && steps[0].Received? && steps[0].message.key == key
    ensures Others(steps, key) == Others(steps[1..], key)
    ensures (extra + Checked(s, [steps[0].message])) + Checked(s, Early(steps[1..], key)) == extra + Checked(s, Early(steps, key))
  {
    assert Early(steps, key) == [steps[0].message] + Early(steps[1..], key);
    CheckedCons(s, steps[0].message, Early(steps[1..], key));
  }

  // ---------------------------------------------------------------- at the opening

  lemma {:induction false} NoKeyError(s: Pfs, ms: seq<Message>, now: int)
    requires forall m :: m in ms ==> !SelfUpdate(m)
    ensures HandleMessages(s, ms, now).outcome.Accepted?
    decreases |ms|
  {
    if ms != [] {
      assert ms[0] in ms;
      NoKeyError(HandleMessage(s, ms[0], now).state, ms[1..], now);
    }
  }

  lemma {:induction false} MessagesConcat(s: Pfs, a: seq<Message>, b: seq<Message>, now: int)
    requires forall m :: m in a ==> !SelfUpdate(m)
    ensures HandleMessages(s, a + b, now) == HandleMessages(HandleMessages(s, a, now).state, b, now)
    decreases |a|
  {
    if a == [] {
      assert a + b == b;
    } else {
      assert a[0] in a && (a + b)[1..] == a[1..] + b;
      MessagesConcat(HandleMessage(s, a[0], now).state, a[1..], b, now);
    }
  }

  /** Messages delivered one by one to an open channel are handled like messages taken from the store. */
  lemma {:induction false} Delivered(s: Pfs, ms: seq<Message>, key: ChannelKey, now: int)
    requires key in s.live && key.network in s.networks && forall m :: m in ms ==> m.key == key && !SelfUpdate(m)
    ensures ExecAll(s, Deliveries(ms, now)) == HandleMessages(s, Checked(s, ms), now).state
    decreases |ms|
  {
    if ms != [] {
      var m, rest := ms[0], ms[1..];
      assert m in ms;
      var t := HandleMessage(s, m, now).state;
      MessageModuloWaiting(s, s, m, now);
      assert Deliveries(ms, now)[1..] == Deliveries(rest, now);
      Delivered(t, rest, key, now);
      CheckedStable(s, t, rest, key);
      assert Checked(s, ms) == if WellSigned(s, m) then [m] + Checked(s, rest) else Checked(s, rest);
      assert ([m] + Checked(s, rest))[1..] == Checked(s, rest);
    }
  }

  lemma {:induction false} ExecConcat(s: Pfs, a: seq<Step>, b: seq<Step>)
    ensures ExecAll(s, a + b) == ExecAll(ExecAll(s, a), b)
    decreases |a|
  {
    if a == [] {
      assert a + b == b;
    } else {
      assert (a + b)[1..] == a[1..] + b;
      ExecConcat(Exec(s, a[0]), a[1..], b);
    }
  }

  lemma {:induction false} OpeningCatchesUp(s: Pfs, t: Pfs, key: ChannelKey, a: Address, b: Address, now: int, ms: seq<Message>)
    requires DifferBy(s, t, key, Checked(s, ms)) && key.network in s.networks
    requires forall m :: m in ms || m in WaitingFor(t.waiting, key) ==> m.key == key && !SelfUpdate(m)
    ensures Exec(s, Opened(key, a, b, now)) == ExecAll(Exec(t, Opened(key, a, b, now)), Deliveries(ms, now))
  {
    var row, extra, stored := FreshRow(a, b), Checked(s, ms), WaitingFor(t.waiting, key);
    var s1, t1 := Stored(s, key, row), Stored(t, key, row);
    assert WithoutWaiting(s1) == WithoutWaiting(t1);
    var u := Exec(t, Opened(key, a, b, now));
    NoKeyError(t1, stored, now);
    MessagesModuloWaiting(s1, t1, stored, key, now);
    CheckedMembers(s, ms);
    MessagesConcat(s1, stored, extra, now);
    NoKeyError(HandleMessages(s1, stored, now).state, extra, now);
    MessagesModuloWaiting(HandleMessages(s1, stored, now).state, u, extra, key, now);
    Delivered(u, ms, key, now);
    CheckedStable(s, u, ms, key);
  }

  lemma {:induction false} CheckedMembers(s: Pfs, ms: seq<Message>)
    ensures forall m :: m in Checked(s, ms) ==> m in ms
  {
    if ms != [] {
      CheckedMembers(s, ms[1..]);
    }
  }

  /** Without messages for a channel, what waits for it stays as it is. */
  lemma {:induction false} WaitingKept(s: Pfs, steps: seq<Step>, key: ChannelKey)
    requires key !in s.live && key !in s.rows
    requires forall step :: step in steps ==> !(step.Opened? && step.key == key) && !(step.Received? && step.message.key == key)
    ensures WaitingFor(ExecAll(s, steps).waiting, key) == WaitingFor(s.waiting, key)
    decreases |steps|
  {
    if steps != [] {
      assert steps[0] in steps;
      StepKeepsWaiting(s, steps[0], key);
      WaitingKept(Exec(s, steps[0]), steps[1..], key);
    }
  }

  lemma StepKeepsWaiting(s: Pfs, step: Step, key: ChannelKey)
    requires key !in s.live && key !in s.rows
    requires !(step.Opened? && step.key == key) && !(step.Received? && step.message.key == key)
    ensures WaitingFor(Exec(s, step).waiting, key) == WaitingFor(s.waiting, key)
    ensures key !in Exec(s, step).live && key !in Exec(s, step).rows
  {
    assert WaitingFor(s.waiting, key) + [] == WaitingFor(s.waiting, key);
    OtherStep(s, s, step, key, []);
    match step
    case Opened(k, a, b, now) =>
      if k.network in s.networks {
        WaitingOfOther(s.waiting, key, k);
        WaitingSplit(s.waiting, k);
        MessagesModuloWaiting(Stored(s, k, FreshRow(a, b)), Stored(s, k, FreshRow(a, b)), WaitingFor(s.waiting, k), k, now);
      }
    case Received(m, now) =>
      MessageModuloWaiting(s, s, m, now);
      WaitingAppend(s.waiting, m, key);
      assert s.waiting + [] == s.waiting;
    case _ =>
  }

  lemma {:induction false} OthersMembers(steps: seq<Step>, key: ChannelKey)
    ensures forall step :: step in Others(steps, key) ==> step in steps && !(step.Received? && step.message.key == key)
  {
    if steps != [] {
      OthersMembers(steps[1..], key);
    }
  }

  /**
   Deferral equivalence. Messages that arrive for a channel of a known network before its opening, in
   between any other traffic, leave the whole state as if they had arrived in the same order right after it.
   */
  lemma DeferralEquivalence(s: Pfs, steps: seq<Step>, key: ChannelKey, a: Address, b: Address, now: int)
    requires key !in s.live && key !in s.rows && key.network in s.networks
    requires forall step :: step in steps ==> !(step.Opened? && step.key == key)
    requires forall m :: m in Early(steps, key) || m in WaitingFor(s.waiting, key) ==> !SelfUpdate(m)
    ensures ExecAll(s, steps + [Opened(key, a, b, now)])
            == ExecAll(s, Others(steps, key) + [Opened(key, a, b, now)] + Deliveries(Early(steps, key), now))
  {
    var open, ms := Opened(key, a, b, now), Early(steps, key);
    var u, v := ExecAll(s, steps), ExecAll(s, Others(steps, key));
    assert WaitingFor(s.waiting, key) + [] == WaitingFor(s.waiting, key);
    BeforeOpening(s, s, steps, key, []);
    assert [] + Checked(s, ms) == Checked(s, ms);
    ExecConcat(s, steps, [open]);
    ExecConcat(s, Others(steps, key) + [open], Deliveries(ms, now));
    ExecConcat(s, Others(steps, key), [open]);
    EarlyMembers(steps, key);
    CheckedStable(s, u, ms, key);
    OthersMembers(steps, key);
    WaitingKept(s, Others(steps, key), key);
    WaitingSplit(s.waiting, key);
    OpeningCatchesUp(u, v, key, a, b, now, ms);
  }
}
