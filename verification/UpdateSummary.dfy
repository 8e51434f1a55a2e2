/**
 What the chain columns of a channel row mean: the update status is the highest nonce seen on
 chain, credited to the last monitoring service that submitted it, else to the non-closing participant.
 */
module UpdateSummary {
  import opened Common
  import opened ChainLog
  import opened MonitoringModel
  import opened ChannelHistory
  import opened Recovery

  /** The confirmed events up to a block, in the order of the chain. */
  function UpTo(log: seq<Event>, block: int): seq<Event> {
    if log == [] then [] else (if log[0].block <= block then [log[0]] else []) + UpTo(log[1..], block)
  }

  lemma {:induction false} UpToMembers(log: seq<Event>, block: int)
    ensures forall e :: e in UpTo(log, block) <==> e in log && e.block <= block
  {
    if log != [] {
      UpToMembers(log[1..], block);
    }
  }

  // ---------------------------------------------------------------- the meaning of a digest

  predicate IsUpdate(e: Event, k: ChannelKey, p1: Address, p2: Address) {
    e.BalanceProofUpdated? && e.key == k && IsParticipant(e.closingParticipant, p1, p2)
  }

  predicate IsMonitorUpdate(e: Event, k: ChannelKey) {
    e.NewBalanceProof? && e.key == k
  }

  predicate IsSubmission(e: Event, k: ChannelKey, p1: Address, p2: Address) {
    IsUpdate(e, k, p1, p2) || IsMonitorUpdate(e, k)
  }

  /** Position i holds the first update among those with the highest nonce, and u is what it sets. */
  ghost predicate FirstHighest(es: seq<Event>, k: ChannelKey, p1: Address, p2: Address, u: UpdateStatus, i: int) {
    && 0 <= i < |es| && IsUpdate(es[i], k, p1, p2)
    && u == UpdateStatus(if es[i].closingParticipant == p2 then p1 else p2, es[i].nonce)
    && (forall j :: 0 <= j < |es| && IsUpdate(es[j], k, p1, p2) ==> es[j].nonce <= u.nonce)
    && (forall j :: 0 <= j < i && IsUpdate(es[j], k, p1, p2) ==> es[j].nonce < u.nonce)
  }

  /** Position i holds the last monitoring update among those with the highest nonce, and u is what it sets. */
  ghost predicate LastHighest(es: seq<Event>, k: ChannelKey, u: UpdateStatus, i: int) {
    && 0 <= i < |es| && IsMonitorUpdate(es[i], k)
    && u == UpdateStatus(es[i].msAddress, es[i].nonce)
    && (forall j :: 0 <= j < |es| && IsMonitorUpdate(es[j], k) ==> es[j].nonce <= u.nonce)
    && (forall j :: i < j < |es| && IsMonitorUpdate(es[j], k) ==> es[j].nonce < u.nonce)
  }

  /**
   The update status read off the chain: nothing seen, or the highest nonce seen, credited to the
   monitoring service that submitted it last, else to the non-closing participant of its first update.
   */
  ghost predicate StatusIsSummary(es: seq<Event>, k: ChannelKey, p1: Address, p2: Address, status: Option<UpdateStatus>) {
    match status
    case None => forall e :: e in es ==> !IsSubmission(e, k, p1, p2)
    case Some(u) =>
      && (forall e :: e in es && IsSubmission(e, k, p1, p2) ==> e.nonce <= u.nonce)
      && ((exists i :: LastHighest(es, k, u, i))
          || ((forall e :: e in es && IsMonitorUpdate(e, k) ==> e.nonce < u.nonce)
              && exists i :: FirstHighest(es, k, p1, p2, u, i)))
  }

  lemma {:induction false} DigestUpdate(es: seq<Event>, k: ChannelKey, p1: Address, p2: Address)
    ensures var u := DigestOf(es, k, p1, p2).update;
            && (u.None? ==> forall e :: e in es ==> !IsUpdate(e, k, p1, p2))
            && (u.Some? ==> exists i :: FirstHighest(es, k, p1, p2, u.value, i))
  {
    if es != [] {
      var rest := es[1..];
      DigestUpdate(rest, k, p1, p2);
      var u, r := DigestOf(es, k, p1, p2).update, DigestOf(rest, k, p1, p2).update;
      assert forall e :: e in es ==> e == es[0] || e in rest;
      if IsUpdate(es[0], k, p1, p2) && (r.None? || r.value.nonce <= es[0].nonce) {
        if r.Some? {
          var i :| FirstHighest(rest, k, p1, p2, r.value, i);
        } else {
          assert forall j :: 0 <= j < |rest| ==> rest[j] in rest;
        }
        assert FirstHighest(es, k, p1, p2, u.value, 0);
      } else if r.Some? {
        var i :| FirstHighest(rest, k, p1, p2, r.value, i);
        assert FirstHighest(es, k, p1, p2, u.value, i + 1);
      }
    }
  }

  lemma {:induction false} DigestMonitor(es: seq<Event>, k: ChannelKey, p1: Address, p2: Address)
    ensures var u := DigestOf(es, k, p1, p2).monitor;
            && (u.None? ==> forall e :: e in es ==> !IsMonitorUpdate(e, k))
            && (u.Some? ==> exists i :: LastHighest(es, k, u.value, i))
  {
    if es != [] {
      var rest := es[1..];
      DigestMonitor(rest, k, p1, p2);
      var u, r := DigestOf(es, k, p1, p2).monitor, DigestOf(rest, k, p1, p2).monitor;
      assert forall e :: e in es ==> e == es[0] || e in rest;
      if IsMonitorUpdate(es[0], k) && (r.None? || r.value.nonce < es[0].nonce) {
        if r.Some? {
          var i :| LastHighest(rest, k, r.value, i);
        } else {
          assert forall j :: 0 <= j < |rest| ==> rest[j] in rest;
        }
        assert LastHighest(es, k, u.value, 0);
      } else if r.Some? {
        var i :| LastHighest(rest, k, r.value, i);
        assert LastHighest(es, k, u.value, i + 1);
      }
    }
  }

  lemma DigestIsSummary(es: seq<Event>, k: ChannelKey, p1: Address, p2: Address)
    ensures StatusIsSummary(es, k, p1, p2, JoinMonitor(DigestOf(es, k, p1, p2).update, DigestOf(es, k, p1, p2).monitor))
  {
    DigestUpdate(es, k, p1, p2);
    DigestMonitor(es, k, p1, p2);
  }

  /** The event ends the channel, for a while or for good. */
  predicate Ends(e: Event, k: ChannelKey) {
    (e.ChannelClosed? || e.ChannelSettled?) && e.key == k
  }

  predicate IsClosing(e: Event, k: ChannelKey) {
    e.ChannelClosed? && e.key == k
  }

  /** The state is what the last closing or settlement says; a channel without one is open. */
  ghost predicate StateIsLast(es: seq<Event>, k: ChannelKey, state: ChannelState) {
    if state == Opened then forall e :: e in es ==> !Ends(e, k)
    else exists i :: 0 <= i < |es| && Ends(es[i], k) && (es[i].ChannelClosed? <==> state == Closed)
                     && forall j :: i < j < |es| ==> !Ends(es[j], k)
  }

  /** Closing block and participant are those of the last closing; block 0 reads back as no block. */
  ghost predicate ClosingIsLast(es: seq<Event>, k: ChannelKey, block: Option<int>, participant: Option<Address>) {
    match participant
    case None => block.None? && forall e :: e in es ==> !IsClosing(e, k)
    case Some(a) => exists i :: 0 <= i < |es| && IsClosing(es[i], k) && es[i].closingParticipant == a
                                && block == (if es[i].block == 0 then None else Some(es[i].block))
                                && forall j :: i < j < |es| ==> !IsClosing(es[j], k)
  }

  lemma {:induction false} DigestState(es: seq<Event>, k: ChannelKey, p1: Address, p2: Address)
    ensures var state := DigestOf(es, k, p1, p2).state;
            StateIsLast(es, k, if state.Some? then state.value else Opened) && state != Some(Opened)
  {
    if es != [] {
      var rest := es[1..];
      DigestState(rest, k, p1, p2);
      var s, r := DigestOf(es, k, p1, p2).state, DigestOf(rest, k, p1, p2).state;
      assert forall e :: e in es ==> e == es[0] || e in rest;
      if r.Some? {
        var i :| 0 <= i < |rest| && Ends(rest[i], k) && (rest[i].ChannelClosed? <==> r.value == Closed)
                 && forall j :: i < j < |rest| ==> !Ends(rest[j], k);
        assert es[i + 1] == rest[i];
      } else if Ends(es[0], k) {
        assert forall j :: 0 < j < |es| ==> es[j] in rest;
        assert StateIsLast(es, k, s.value);
      }
    }
  }

  lemma {:induction false} DigestClosing(es: seq<Event>, k: ChannelKey, p1: Address, p2: Address)
    ensures var close := DigestOf(es, k, p1, p2).close;
            && (close.None? ==> ClosingIsLast(es, k, None, None))
            && (close.Some? ==> ClosingIsLast(es, k, close.value.block, Some(close.value.participant)))
  {
    if es != [] {
      var rest := es[1..];
      DigestClosing(rest, k, p1, p2);
      var c, r := DigestOf(es, k, p1, p2).close, DigestOf(rest, k, p1, p2).close;
      assert forall e :: e in es ==> e == es[0] || e in rest;
      if r.Some? {
        var i :| 0 <= i < |rest| && IsClosing(rest[i], k) && rest[i].closingParticipant == r.value.participant
                 && r.value.block == (if rest[i].block == 0 then None else Some(rest[i].block))
                 && forall j :: i < j < |rest| ==> !IsClosing(rest[j], k);
        assert es[i + 1] == rest[i];
      } else if IsClosing(es[0], k) {
        assert forall j :: 0 < j < |es| ==> es[j] in rest;
        assert IsClosing(es[0], k) && es[0].closingParticipant == c.value.participant;
      }
    }
  }

  // ---------------------------------------------------------------- chunks against the order of the chain

  function HeadDigest(source: Source, from: int, block: int, e: Event, k: ChannelKey, p1: Address, p2: Address): Digest {
    if Matches(source, from, block, e) then DigestOne(e, k, p1, p2) else NOTHING
  }

  lemma NetworkHead(e: Event, rest: seq<Event>, heard: set<Address>, from: int, block: int,
                    k: ChannelKey, p1: Address, p2: Address)
    ensures DigestOf(Parsed(GetLogs([e] + rest, Networks(heard), from, block)), k, p1, p2)
            == Then(HeadDigest(Networks(heard), from, block, e, k, p1, p2),
                    DigestOf(Parsed(GetLogs(rest, Networks(heard), from, block)), k, p1, p2))
  {
    var logs := GetLogs(rest, Networks(heard), from, block);
    assert ([e] + rest)[1..] == rest;
    assert GetLogs([e] + rest, Networks(heard), from, block)
        == if Matches(Networks(heard), from, block, e) then [e] + logs else logs;
    ParsedConcat([e], logs);
    DigestConcat(Parsed([e]), Parsed(logs), k, p1, p2);
    DigestsAreIdempotent(DigestOf(Parsed(logs), k, p1, p2), NOTHING, NOTHING);
    DigestsAreIdempotent(DigestOne(e, k, p1, p2), NOTHING, NOTHING);
  }

  lemma MonitoringHead(e: Event, rest: seq<Event>, from: int, block: int, k: ChannelKey, p1: Address, p2: Address)
    ensures DigestOf(GetLogs([e] + rest, Monitoring, from, block), k, p1, p2)
            == Then(HeadDigest(Monitoring, from, block, e, k, p1, p2),
                    DigestOf(GetLogs(rest, Monitoring, from, block), k, p1, p2))
  {
    var logs := GetLogs(rest, Monitoring, from, block);
    assert ([e] + rest)[1..] == rest && ([e] + logs)[1..] == logs;
    assert GetLogs([e] + rest, Monitoring, from, block)
        == if Matches(Monitoring, from, block, e) then [e] + logs else logs;
    DigestsAreIdempotent(DigestOf(logs, k, p1, p2), NOTHING, NOTHING);
  }

  /** Sorting the events of a range by contract does not change their digest. */
  lemma {:induction false} SortingBySource(log: seq<Event>, heard: set<Address>, from: int, block: int,
                                           k: ChannelKey, p1: Address, p2: Address)
    requires forall e :: e in log ==> from <= e.block && (FromNetwork(e) ==> Emitter(e) in heard)
    ensures DigestOf(UpTo(log, block), k, p1, p2)
            == Then(DigestOf(Parsed(GetLogs(log, Networks(heard), from, block)), k, p1, p2),
                    DigestOf(GetLogs(log, Monitoring, from, block), k, p1, p2))
  {
    if log != [] {
      var e, rest := log[0], log[1..];
      assert e in log && log == [e] + rest;
      SortingBySource(rest, heard, from, block, k, p1, p2);
      NetworkHead(e, rest, heard, from, block, k, p1, p2);
      MonitoringHead(e, rest, from, block, k, p1, p2);
      var head := if e.block <= block then DigestOne(e, k, p1, p2) else NOTHING;
      var net := DigestOf(Parsed(GetLogs(rest, Networks(heard), from, block)), k, p1, p2);
      var msc := DigestOf(GetLogs(rest, Monitoring, from, block), k, p1, p2);
      UpToHead(log, block, k, p1, p2);
      GetLogsMembers(rest, Networks(heard), from, block);
      ParsedMembers(GetLogs(rest, Networks(heard), from, block));
      NetworkDigest(Parsed(GetLogs(rest, Networks(heard), from, block)), k, p1, p2);
      HeadsCommute(e, heard, from, block, net, msc, k, p1, p2);
      assert DigestOf(UpTo(log, block), k, p1, p2) == Then(head, Then(net, msc));
    }
  }

  lemma UpToHead(log: seq<Event>, block: int, k: ChannelKey, p1: Address, p2: Address)
    requires log != []
    ensures DigestOf(UpTo(log, block), k, p1, p2)
            == Then(if log[0].block <= block then DigestOne(log[0], k, p1, p2) else NOTHING, DigestOf(UpTo(log[1..], block), k, p1, p2))
  {
    var rest := UpTo(log[1..], block);
    DigestsAreIdempotent(DigestOf(rest, k, p1, p2), NOTHING, NOTHING);
    if log[0].block <= block {
      assert UpTo(log, block) == [log[0]] + rest && ([log[0]] + rest)[1..] == rest;
    } else {
      assert UpTo(log, block) == rest;
    }
  }

  /** The first event joins the digest of its own source. */
  lemma HeadsCommute(e: Event, heard: set<Address>, from: int, block: int, net: Digest, msc: Digest,
                     k: ChannelKey, p1: Address, p2: Address)
    requires from <= e.block && (FromNetwork(e) ==> Emitter(e) in heard) && net.monitor.None?
    ensures var head := if e.block <= block then DigestOne(e, k, p1, p2) else NOTHING;
            Then(head, Then(net, msc))
            == Then(Then(HeadDigest(Networks(heard), from, block, e, k, p1, p2), net),
                    Then(HeadDigest(Monitoring, from, block, e, k, p1, p2), msc))
  {
    var head := if e.block <= block then DigestOne(e, k, p1, p2) else NOTHING;
    var netHead := HeadDigest(Networks(heard), from, block, e, k, p1, p2);
    var mscHead := HeadDigest(Monitoring, from, block, e, k, p1, p2);
    assert if FromMonitoring(e) then netHead == NOTHING && mscHead == head else mscHead == NOTHING && netHead == head;
    DigestsAreIdempotent(net, NOTHING, NOTHING);
    DigestsAreIdempotent(msc, NOTHING, NOTHING);
    DigestsAreIdempotent(head, net, msc);
    if FromMonitoring(e) {
      SourcesCommute(net, head);
      DigestsAreIdempotent(net, head, msc);
    }
  }

  /** A word with the opening of k first among the events about k. */
  lemma ReplayFromOpening(v: Option<View>, before: seq<Event>, open: Event, after: seq<Event>, k: ChannelKey)
    requires open.ChannelOpened? && open.key == k
    requires forall e :: e in before ==> !About(e, k)
    requires !Opens(after, k)
    ensures Replay(v, before + [open] + after, k)
            == Some(Apply(View(open.participant1, open.participant2, Opened, None, None, None),
                          DigestOf(before + [open] + after, k, open.participant1, open.participant2)))
  {
    var p1, p2 := open.participant1, open.participant2;
    var initial := View(p1, p2, Opened, None, None, None);
    ReplayConcat(v, before + [open], after, k);
    ReplayConcat(v, before, [open], k);
    Unheard(v, before, k);
    assert Replay(v, [open], k) == Some(initial);
    ReplayIsDigest(Some(initial), after, k);
    DigestConcat(before + [open], after, k, p1, p2);
    DigestConcat(before, [open], k, p1, p2);
    SilentDigest(before, k, p1, p2);
    assert DigestOf([open], k, p1, p2) == NOTHING;
    DigestsAreIdempotent(DigestOf(after, k, p1, p2), NOTHING, NOTHING);
  }

  lemma {:induction false} SilentDigest(es: seq<Event>, k: ChannelKey, p1: Address, p2: Address)
    requires forall e :: e in es ==> !About(e, k)
    ensures DigestOf(es, k, p1, p2) == NOTHING
  {
    if es != [] {
      assert es[0] in es;
      SilentDigest(es[1..], k, p1, p2);
    }
  }

  /** The network part of the log around the opening at position i. */
  lemma NetworkPartAround(log: seq<Event>, start: int, block: int, i: nat)
      returns (before: seq<Event>, after: seq<Event>)
    requires WellFormed(log, start) && i < |log| && log[i].ChannelOpened? && log[i].block <= block
    ensures NetworkPart(log, start + 1, block) == before + [log[i]] + after
    ensures forall e :: e in before ==> e in log[..i]
    ensures forall e :: e in after ==> e in log[i + 1..]
  {
    var source, from := Networks(Created(log)), start + 1;
    var logsA, logsB := GetLogs(log[..i], source, from, block), GetLogs(log[i + 1..], source, from, block);
    AllEmittersCreated(log, start);
    assert log[i] in log;
    PartsAround(log, source, from, block, i);
    GetLogsMembers(log[..i], source, from, block);
    GetLogsMembers(log[i + 1..], source, from, block);
    ParsedMembers(logsA);
    ParsedMembers(logsB);
    before, after := Parsed(logsA), Parsed(logsB);
  }

  lemma PartsAround(log: seq<Event>, source: Source, from: int, block: int, i: nat)
    requires i < |log| && Matches(source, from, block, log[i]) && log[i].ChannelOpened?
    ensures Parsed(GetLogs(log, source, from, block))
            == Parsed(GetLogs(log[..i], source, from, block)) + [log[i]] + Parsed(GetLogs(log[i + 1..], source, from, block))
  {
    var a, open, b := log[..i], log[i], log[i + 1..];
    var logsA, logsB := GetLogs(a, source, from, block), GetLogs(b, source, from, block);
    assert log == a + ([open] + b);
    GetLogsConcat(a, [open] + b, source, from, block);
    assert ([open] + b)[1..] == b && GetLogs([open] + b, source, from, block) == [open] + logsB;
    ParsedConcat(logsA, [open] + logsB);
    assert ([open] + logsB)[1..] == logsB && Parsed([open] + logsB) == [open] + Parsed(logsB);
    assert Parsed(logsA) + ([open] + Parsed(logsB)) == Parsed(logsA) + [open] + Parsed(logsB);
  }

  lemma NetworkPartFromOpening(log: seq<Event>, start: int, block: int, i: nat, v: Option<View>, k: ChannelKey)
    requires WellFormed(log, start) && i < |log|
    requires log[i].ChannelOpened? && log[i].key == k && log[i].block <= block
    ensures var open, net := log[i], NetworkPart(log, start + 1, block);
            Replay(v, net, k)
            == Some(Apply(View(open.participant1, open.participant2, Opened, None, None, None),
                          DigestOf(net, k, open.participant1, open.participant2)))
  {
    var before, after := NetworkPartAround(log, start, block, i);
    forall e | e in before
      ensures !About(e, k)
    {
      var j :| 0 <= j < i && log[j] == e;
    }
    forall e | e in after
      ensures !(e.ChannelOpened? && e.key == k)
    {
      var j :| 0 <= j < |log[i + 1..]| && log[i + 1..][j] == e;
      assert log[i + 1 + j] == e;
    }
    ReplayFromOpening(v, before, log[i], after, k);
  }

  lemma AllEmittersCreated(log: seq<Event>, start: int)
    requires WellFormed(log, start)
    ensures forall e :: e in log && FromNetwork(e) ==> Emitter(e) in Created(log)
  {
    forall e | e in log && FromNetwork(e)
      ensures Emitter(e) in Created(log)
    {
      var i :| 0 <= i < |log| && log[i] == e;
      var j :| 0 <= j < i && log[j].NetworkCreated? && log[j].network == Emitter(log[i]);
      assert log[j] in log;
    }
  }

  /** An opened channel's columns are its opening followed by the digest of the log in chain order. */
  lemma UndisturbedIsSummary(log: seq<Event>, start: int, block: int, i: nat, k: ChannelKey)
    requires WellFormed(log, start) && i < |log|
    requires log[i].ChannelOpened? && log[i].key == k && log[i].block <= block
    ensures Undisturbed(log, start, block, k)
            == Some(Apply(View(log[i].participant1, log[i].participant2, Opened, None, None, None),
                          DigestOf(UpTo(log, block), k, log[i].participant1, log[i].participant2)))
  {
    var from, p1, p2 := start + 1, log[i].participant1, log[i].participant2;
    var net, msc := NetworkPart(log, from, block), MonitoringPart(log, from, block);
    assert log[i] in log;
    ChunkParts(log, from, block, None, k);
    NetworkPartFromOpening(log, start, block, i, None, k);
    PartMembers(log, from, block);
    ReplayIsDigest(Replay(None, net, k), msc, k);
    NetworkDigest(net, k, p1, p2);
    ApplyThen(View(p1, p2, Opened, None, None, None), DigestOf(net, k, p1, p2), DigestOf(msc, k, p1, p2));
    AllEmittersCreated(log, start);
    SortingBySource(log, Created(log), from, block, k, p1, p2);
  }

  /** A row exists only for a channel that was opened. */
  lemma NoRowWithoutOpening(log: seq<Event>, start: int, block: int, k: ChannelKey)
    requires WellFormed(log, start)
    ensures Undisturbed(log, start, block, k).Some? ==>
              exists i :: 0 <= i < |log| && log[i].ChannelOpened? && log[i].key == k && log[i].block <= block
  {
    var from := start + 1;
    if from <= block {
      var net, msc := NetworkPart(log, from, block), MonitoringPart(log, from, block);
      ChunkParts(log, from, block, None, k);
      PartMembers(log, from, block);
      if !Opens(net, k) {
        ReplayIsDigest(None, net, k);
        ReplayIsDigest(None, msc, k);
      } else {
        var e :| e in net && e.ChannelOpened? && e.key == k;
        var i :| 0 <= i < |log| && log[i] == e;
      }
    }
  }

  /** In every run that has recovered, the update status is the summary of the log up to the committed block. */
  lemma UpdateStatusIsSummary(cfg: Config, log: seq<Event>, start: int, now: int, steps: seq<Step>, trace: seq<State>,
                              n: nat, k: ChannelKey)
    requires WellFormed(log, start) && IsRun(cfg, log, steps, trace) && trace[0] == InitialState(start, now)
    requires n <= |steps| && k in trace[n].channels
    requires forall i {:trigger steps[i]} :: 0 <= i < n && Interrupted(log, trace[i], steps[i]) ==> steps[i].to <= trace[n].committed
    ensures var c := trace[n].channels[k];
            StatusIsSummary(UpTo(log, trace[n].committed), k, c.participant1, c.participant2, c.updateStatus)
  {
    var s, c := trace[n], trace[n].channels[k];
    CrashTransparency(cfg, log, start, now, steps, trace, n, k);
    NoRowWithoutOpening(log, start, s.committed, k);
    var i :| 0 <= i < |log| && log[i].ChannelOpened? && log[i].key == k && log[i].block <= s.committed;
    UndisturbedIsSummary(log, start, s.committed, i, k);
    DigestIsSummary(UpTo(log, s.committed), k, c.participant1, c.participant2);
  }

  /**
   In every run that has recovered, participants, state, closing block and closing participant of a row are those that
   the log up to the committed block says last.
   */
  lemma RowIsSummary(cfg: Config, log: seq<Event>, start: int, now: int, steps: seq<Step>, trace: seq<State>,
                     n: nat, k: ChannelKey)
    requires WellFormed(log, start) && IsRun(cfg, log, steps, trace) && trace[0] == InitialState(start, now)
    requires n <= |steps| && k in trace[n].channels
    requires forall i {:trigger steps[i]} :: 0 <= i < n && Interrupted(log, trace[i], steps[i]) ==> steps[i].to <= trace[n].committed
    ensures var c, es := trace[n].channels[k], UpTo(log, trace[n].committed);
            && (exists e :: e in es && e.ChannelOpened? && e.key == k
                            && e.participant1 == c.participant1 && e.participant2 == c.participant2)
            && StateIsLast(es, k, c.state) && ClosingIsLast(es, k, c.closingBlock, c.closingParticipant)
  {
    var s, c := trace[n], trace[n].channels[k];
    CrashTransparency(cfg, log, start, now, steps, trace, n, k);
    NoRowWithoutOpening(log, start, s.committed, k);
    var i :| 0 <= i < |log| && log[i].ChannelOpened? && log[i].key == k && log[i].block <= s.committed;
    UndisturbedIsSummary(log, start, s.committed, i, k);
    UpToMembers(log, s.committed);
    assert log[i] in UpTo(log, s.committed);
    DigestState(UpTo(log, s.committed), k, c.participant1, c.participant2);
    DigestClosing(UpTo(log, s.committed), k, c.participant1, c.participant2);
  }
}
