/**
 The columns of a channel row that come from the chain, as a fold over the events delivered so far.
 What a word of events does to them is captured by a digest. Digests form an idempotent semigroup with a
 unit, in which a replayed prefix is absorbed, and those of the two kinds of contracts commute, which is
 why neither the cutting of the log into chunks nor a crash and replay shows in the result.
 */
module ChannelHistory {
  import opened Common
  import opened ChainLog
  import opened MonitoringModel

  datatype View = View(
    participant1: Address,
    participant2: Address,
    state: ChannelState,
    closingBlock: Option<int>,
    closingParticipant: Option<Address>,
    updateStatus: Option<UpdateStatus>)

  function ViewOf(s: State, k: ChannelKey): Option<View> {
    if k !in s.channels then None
    else
      var c := s.channels[k];
      Some(View(c.participant1, c.participant2, c.state, c.closingBlock, c.closingParticipant, c.updateStatus))
  }

  // ---------------------------------------------------------------- summaries of events

  datatype Closing = Closing(block: Option<int>, participant: Address)

  /** The lasting effect of a word of events on one open channel. */
  datatype Digest = Digest(
    update: Option<UpdateStatus>,   // the first balance proof update among those with the highest nonce
    monitor: Option<UpdateStatus>,  // the last monitoring update among those with the highest nonce
    state: Option<ChannelState>,
    close: Option<Closing>)

  const NOTHING := Digest(None, None, None, None)

  function Later<T>(first: Option<T>, second: Option<T>): Option<T> {
    if second.Some? then second else first
  }

  /** A balance proof update takes over only with a higher nonce. */
  function JoinUpdate(status: Option<UpdateStatus>, update: Option<UpdateStatus>): Option<UpdateStatus> {
    if status.Some? && update.Some? && update.value.nonce <= status.value.nonce then status else Later(status, update)
  }

  /** A monitoring update takes over with an equal nonce, too. */
  function JoinMonitor(status: Option<UpdateStatus>, update: Option<UpdateStatus>): Option<UpdateStatus> {
    if status.Some? && update.Some? && update.value.nonce < status.value.nonce then status else Later(status, update)
  }

  function Then(a: Digest, b: Digest): Digest {
    Digest(JoinUpdate(a.update, b.update), JoinMonitor(a.monitor, b.monitor), Later(a.state, b.state), Later(a.close, b.close))
  }

  predicate IsParticipant(a: Address, p1: Address, p2: Address) {
    a == p1 || a == p2
  }

  function DigestOne(e: Event, k: ChannelKey, p1: Address, p2: Address): Digest {
    if !About(e, k) then NOTHING
    else match e
      case ChannelClosed(_, closing, block) =>
        NOTHING.(state := Some(Closed), close := Some(Closing(StoredBlock(block), closing)))
      case BalanceProofUpdated(_, closing, nonce, _) =>
        if IsParticipant(closing, p1, p2)
        then NOTHING.(update := Some(UpdateStatus(if closing == p2 then p1 else p2, nonce)))
        else NOTHING
      case ChannelSettled(_, _) => NOTHING.(state := Some(Settled))
      case NewBalanceProof(_, nonce, msAddress, _, _) => NOTHING.(monitor := Some(UpdateStatus(msAddress, nonce)))
      case _ => NOTHING
  }

  function DigestOf(es: seq<Event>, k: ChannelKey, p1: Address, p2: Address): Digest {
    if es == [] then NOTHING else Then(DigestOne(es[0], k, p1, p2), DigestOf(es[1..], k, p1, p2))
  }

  function Apply(v: View, d: Digest): View {
    v.(state := if d.state.Some? then d.state.value else v.state,
       closingBlock := if d.close.Some? then d.close.value.block else v.closingBlock,
       closingParticipant := if d.close.Some? then Some(d.close.value.participant) else v.closingParticipant,
       updateStatus := JoinMonitor(JoinUpdate(v.updateStatus, d.update), d.monitor))
  }

  /** Handling a word and then the same word followed by another has the effect of the latter alone. */
  lemma DigestsAreIdempotent(a: Digest, b: Digest, c: Digest)
    ensures Then(Then(a, b), c) == Then(a, Then(b, c))
    ensures Then(a, Then(a, b)) == Then(a, b)
    ensures Then(NOTHING, a) == a == Then(a, NOTHING)
  {
  }

  /** A word does not absorb a later copy of itself when another one comes in between: closing, settling, closing. */
  lemma LaterCopiesCount()
    ensures var closed, settled := NOTHING.(state := Some(Closed)), NOTHING.(state := Some(Settled));
            Then(closed, Then(settled, closed)) != Then(closed, settled)
  {
  }

  /** Monitoring contract words commute with token network words. */
  lemma SourcesCommute(net: Digest, msc: Digest)
    requires net.monitor.None? && msc == NOTHING.(monitor := msc.monitor)
    ensures Then(net, msc) == Then(msc, net)
  {
  }

  lemma {:induction false} DigestConcat(a: seq<Event>, b: seq<Event>, k: ChannelKey, p1: Address, p2: Address)
    ensures DigestOf(a + b, k, p1, p2) == Then(DigestOf(a, k, p1, p2), DigestOf(b, k, p1, p2))
  {
    if a == [] {
      assert a + b == b;
    } else {
      assert (a + b)[1..] == a[1..] + b;
      DigestConcat(a[1..], b, k, p1, p2);
      DigestsAreIdempotent(DigestOne(a[0], k, p1, p2), DigestOf(a[1..], k, p1, p2), DigestOf(b, k, p1, p2));
    }
  }

  // ---------------------------------------------------------------- the fold

  function Observe(v: Option<View>, e: Event, k: ChannelKey): Option<View> {
    if !About(e, k) then v
    else if e.ChannelOpened? then Some(View(e.participant1, e.participant2, Opened, None, None, None))
    else if v.None? then None
    else Some(Apply(v.value, DigestOne(e, k, v.value.participant1, v.value.participant2)))
  }

  function Replay(v: Option<View>, es: seq<Event>, k: ChannelKey): Option<View>
    decreases |es|
  {
    if es == [] then v else Replay(Observe(v, es[0], k), es[1..], k)
  }

  lemma {:induction false} ReplayConcat(v: Option<View>, a: seq<Event>, b: seq<Event>, k: ChannelKey)
    ensures Replay(v, a + b, k) == Replay(Replay(v, a, k), b, k)
    decreases |a|
  {
    if a == [] {
      assert a + b == b;
    } else {
      assert (a + b)[1..] == a[1..] + b;
      ReplayConcat(Observe(v, a[0], k), a[1..], b, k);
    }
  }

  ghost predicate Opens(es: seq<Event>, k: ChannelKey) {
    exists e :: e in es && e.ChannelOpened? && e.key == k
  }

  lemma ApplyThen(v: View, a: Digest, b: Digest)
    requires a.update.None? || a.monitor.None?
    ensures Apply(Apply(v, a), b) == Apply(v, Then(a, b))
  {
  }

  /** Without an opening, the fold is the digest; a missing row stays missing. */
  lemma {:induction false} ReplayIsDigest(v: Option<View>, es: seq<Event>, k: ChannelKey)
    requires !Opens(es, k)
    ensures v.None? ==> Replay(v, es, k).None?
    ensures v.Some? ==>
      Replay(v, es, k) == Some(Apply(v.value, DigestOf(es, k, v.value.participant1, v.value.participant2)))
    decreases |es|
  {
    if es != [] {
      ReplayIsDigest(Observe(v, es[0], k), es[1..], k);
      assert es[0] in es;
      if v.Some? {
        var w := v.value;
        ApplyThen(w, DigestOne(es[0], k, w.participant1, w.participant2), DigestOf(es[1..], k, w.participant1, w.participant2));
      }
    }
  }

  /** With an opening, what was there before does not matter. */
  lemma {:induction false} OpeningForgets(v: Option<View>, w: Option<View>, es: seq<Event>, k: ChannelKey)
    requires Opens(es, k)
    ensures Replay(v, es, k) == Replay(w, es, k)
    decreases |es|
  {
    if !(es[0].ChannelOpened? && es[0].key == k) {
      assert forall e :: e in es ==> e == es[0] || e in es[1..];
      OpeningForgets(Observe(v, es[0], k), Observe(w, es[0], k), es[1..], k);
    }
  }

  lemma {:induction false} Unheard(v: Option<View>, es: seq<Event>, k: ChannelKey)
    requires forall e :: e in es ==> !About(e, k)
    ensures Replay(v, es, k) == v
    decreases |es|
  {
    if es != [] {
      assert es[0] in es;
      Unheard(v, es[1..], k);
    }
  }

  // ---------------------------------------------------------------- chunks

  /** The token network part of the events of a block range. */
  function NetworkPart(log: seq<Event>, from: int, to: int): seq<Event> {
    Parsed(GetLogs(log, Networks(Created(log)), from, to))
  }

  function MonitoringPart(log: seq<Event>, from: int, to: int): seq<Event> {
    GetLogs(log, Monitoring, from, to)
  }

  /** The events of a block range when every announced network is followed. */
  function FullChunk(log: seq<Event>, from: int, to: int): seq<Event> {
    Chunk(log, Created(log), from, to)
  }

  lemma PartMembers(log: seq<Event>, from: int, to: int)
    ensures forall e :: e in NetworkPart(log, from, to) ==> e in log && FromNetwork(e) && from <= e.block <= to
    ensures forall e :: e in MonitoringPart(log, from, to) ==> e in log && FromMonitoring(e) && from <= e.block <= to
  {
    GetLogsMembers(log, Networks(Created(log)), from, to);
    ParsedMembers(GetLogs(log, Networks(Created(log)), from, to));
    GetLogsMembers(log, Monitoring, from, to);
  }

  lemma ChunkParts(log: seq<Event>, from: int, to: int, v: Option<View>, k: ChannelKey)
    requires from <= to
    ensures Replay(v, FullChunk(log, from, to), k)
            == Replay(Replay(v, NetworkPart(log, from, to), k), MonitoringPart(log, from, to), k)
  {
    var registry := GetLogs(log, Registry, from, to);
    var net, msc := NetworkPart(log, from, to), MonitoringPart(log, from, to);
    GetLogsMembers(log, Registry, from, to);
    assert Created(log) + Created(registry) == Created(log);
    assert FullChunk(log, from, to) == registry + (net + (msc + [HeadBlock(to)]));
    ReplayConcat(v, registry, net + (msc + [HeadBlock(to)]), k);
    Unheard(v, registry, k);
    ReplayConcat(v, net, msc + [HeadBlock(to)], k);
    ReplayConcat(Replay(v, net, k), msc, [HeadBlock(to)], k);
    Unheard(Replay(Replay(v, net, k), msc, k), [HeadBlock(to)], k);
  }

  lemma {:induction false} NetworkDigest(es: seq<Event>, k: ChannelKey, p1: Address, p2: Address)
    requires forall e :: e in es ==> FromNetwork(e)
    ensures DigestOf(es, k, p1, p2).monitor.None?
  {
    if es != [] {
      assert es[0] in es;
      NetworkDigest(es[1..], k, p1, p2);
    }
  }

  lemma {:induction false} MonitoringDigest(es: seq<Event>, k: ChannelKey, p1: Address, p2: Address)
    requires forall e :: e in es ==> FromMonitoring(e)
    ensures DigestOf(es, k, p1, p2) == NOTHING.(monitor := DigestOf(es, k, p1, p2).monitor)
  {
    if es != [] {
      assert es[0] in es;
      MonitoringDigest(es[1..], k, p1, p2);
    }
  }

  /** Monitoring events of earlier blocks may be handled after network events of later blocks. */
  lemma PartsSwap(log: seq<Event>, start: int, from: int, mid: int, to: int, v: Option<View>, k: ChannelKey)
    requires WellFormed(log, start)
    ensures var msc, net := MonitoringPart(log, from, mid), NetworkPart(log, mid + 1, to);
            Replay(Replay(v, msc, k), net, k) == Replay(Replay(v, net, k), msc, k)
  {
    var msc, net := MonitoringPart(log, from, mid), NetworkPart(log, mid + 1, to);
    PartMembers(log, from, mid);
    PartMembers(log, mid + 1, to);
    if Opens(net, k) {
      var open :| open in net && open.ChannelOpened? && open.key == k;
      var i :| 0 <= i < |log| && log[i] == open;
      forall e | e in msc
        ensures !About(e, k)
      {
        var j :| 0 <= j < |log| && log[j] == e;
        if About(e, k) {
          assert false;
        }
      }
      Unheard(v, msc, k);
      Unheard(Replay(v, net, k), msc, k);
    } else {
      assert forall e :: e in msc ==> !e.ChannelOpened?;
      ReplayConcat(v, msc, net, k);
      ReplayConcat(v, net, msc, k);
      assert forall e :: e in msc + net || e in net + msc ==> e in msc || e in net;
      ReplayIsDigest(v, msc + net, k);
      ReplayIsDigest(v, net + msc, k);
      if v.Some? {
        var p1, p2 := v.value.participant1, v.value.participant2;
        DigestConcat(msc, net, k, p1, p2);
        DigestConcat(net, msc, k, p1, p2);
        NetworkDigest(net, k, p1, p2);
        MonitoringDigest(msc, k, p1, p2);
        SourcesCommute(DigestOf(net, k, p1, p2), DigestOf(msc, k, p1, p2));
      }
    }
  }

  /** Handling two adjacent ranges one after the other has the effect of handling them at once. */
  lemma ChunksCompose(log: seq<Event>, start: int, from: int, mid: int, to: int, v: Option<View>, k: ChannelKey)
    requires WellFormed(log, start) && from <= mid + 1 && mid <= to
    ensures Replay(Replay(v, FullChunk(log, from, mid), k), FullChunk(log, mid + 1, to), k)
            == Replay(v, FullChunk(log, from, to), k)
  {
    if from <= mid < to {
      var netA, netB := NetworkPart(log, from, mid), NetworkPart(log, mid + 1, to);
      var mscA, mscB := MonitoringPart(log, from, mid), MonitoringPart(log, mid + 1, to);
      GetLogsSplit(log, Networks(Created(log)), from, mid, to);
      ParsedConcat(GetLogs(log, Networks(Created(log)), from, mid), GetLogs(log, Networks(Created(log)), mid + 1, to));
      GetLogsSplit(log, Monitoring, from, mid, to);
      ChunkParts(log, from, mid, v, k);
      ChunkParts(log, mid + 1, to, Replay(v, FullChunk(log, from, mid), k), k);
      ChunkParts(log, from, to, v, k);
      ReplayConcat(v, netA, netB, k);
      ReplayConcat(Replay(v, netA + netB, k), mscA, mscB, k);
      PartsSwap(log, start, from, mid, to, Replay(v, netA, k), k);
    }
  }

  /** A prefix of a word that is replayed from its beginning leaves no trace. */
  lemma PrefixAbsorbed(v: Option<View>, prefix: seq<Event>, rest: seq<Event>, k: ChannelKey)
    ensures Replay(Replay(v, prefix, k), prefix + rest, k) == Replay(v, prefix + rest, k)
  {
    var all := prefix + rest;
    if Opens(all, k) {
      OpeningForgets(Replay(v, prefix, k), v, all, k);
    } else {
      assert forall e :: e in prefix ==> e in all;
      assert forall e :: e in prefix + all ==> e in all;
      ReplayConcat(v, prefix, all, k);
      ReplayIsDigest(v, prefix + all, k);
      ReplayIsDigest(v, all, k);
      if v.Some? {
        var p1, p2 := v.value.participant1, v.value.participant2;
        DigestConcat(prefix, all, k, p1, p2);
        DigestConcat(prefix, rest, k, p1, p2);
        DigestsAreIdempotent(DigestOf(prefix, k, p1, p2), DigestOf(rest, k, p1, p2), NOTHING);
      }
    }
  }

  /** Stopping anywhere in a range and replaying from its start, to any later block, gives the undisturbed result. */
  lemma CrashAbsorbed(log: seq<Event>, start: int, from: int, mid: int, to: int, count: nat, v: Option<View>, k: ChannelKey)
    requires WellFormed(log, start) && from <= mid <= to && count <= |FullChunk(log, from, mid)|
    ensures Replay(Replay(v, FullChunk(log, from, mid)[..count], k), FullChunk(log, from, to), k)
            == Replay(v, FullChunk(log, from, to), k)
  {
    var chunk := FullChunk(log, from, mid);
    assert chunk == chunk[..count] + chunk[count..];
    PrefixAbsorbed(v, chunk[..count], chunk[count..], k);
    ChunksCompose(log, start, from, mid, to, v, k);
    ChunksCompose(log, start, from, mid, to, Replay(v, chunk[..count], k), k);
  }
}
