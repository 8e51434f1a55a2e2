/** Taking payments and claiming IOUs, step by step, on one database. */
module IouService {
  import opened Common
  import opened Iou

  class IouDatabase {
    var rows: Table

    constructor ()
      ensures rows == map[]
    {
      rows := map[];
    }

    method UpsertIou(key: IouKey, row: IouRow)
      modifies this
      ensures rows == Upsert(old(rows), key, row)
    {
      rows := Upsert(rows, key, row);
    }

    /** Any row of the sender that fits, or none if there is none. */
    method GetIou(sender: Address, claimableUntil: Option<int>, claimed: bool) returns (found: Option<IouKey>)
      ensures found.Some? ==> found.value in rows && Fits(found.value, sender, claimableUntil, claimed)
      ensures found.None? ==> forall k :: k in rows ==> !Fits(k, sender, claimableUntil, claimed)
    {
      var rest := rows.Keys;
      while rest != {}
        invariant rest <= rows.Keys
        invariant forall k :: k in rows && k !in rest ==> !Fits(k, sender, claimableUntil, claimed)
        decreases rest
      {
        var k :| k in rest;
        if Fits(k, sender, claimableUntil, claimed) {
          return Some(k);
        }
        rest := rest - {k};
      }
      return None;
    }

    predicate Fits(k: IouKey, sender: Address, claimableUntil: Option<int>, claimed: bool)
      requires k in rows
      reads this
    {
      k.sender == sender && (claimableUntil.Some? ==> k.claimableUntil == claimableUntil.value) && rows[k].claimed == claimed
    }
  }

  // ---------------------------------------------------------------- payments

  /** Checks the IOU of a request and stores it; a fee of zero makes every IOU irrelevant. */
  method ProcessPayment(database: IouDatabase, config: Config, p: Payment) returns (verdict: Verdict)
    requires OneOpenSession(database.rows)
    modifies database
    ensures verdict == Check(config, old(database.rows), p)
    ensures database.rows == Pay(config, old(database.rows), p) && OneOpenSession(database.rows)
  {
    if p.fee == 0 {
      return Ignored;
    }
    if p.iou.None? {
      return Refused(MissingIou);
    }
    var iou := p.iou.value;
    if iou.receiver != config.receiver {
      return Refused(WrongIouRecipient);
    }
    if iou.chainId != config.chainId {
      return Refused(UnsupportedChainId);
    }
    if iou.oneToN != config.oneToN {
      return Refused(WrongOneToNAddress);
    }
    if !iou.signatureValid {
      return Refused(InvalidSignature);
    }
    var refusal, expectedAmount := CompareWithKnownIou(database, iou, p.fee, p.now);
    if refusal.Some? {
      return Refused(refusal.value);
    }
    if iou.amount < expectedAmount {
      return Refused(InsufficientServicePayment(expectedAmount));
    }
    var requiredDeposit := expectedAmount * UDC_SECURITY_MARGIN_FACTOR;
    if p.deposit < requiredDeposit {
      return Refused(DepositTooLow(requiredDeposit));
    }
    AcceptedPayment(config, database.rows, p);
    database.UpsertIou(iou.key, RowOf(iou));
    return Accepted;
  }

  method CompareWithKnownIou(database: IouDatabase, iou: Iou, fee: nat, now: int)
      returns (refusal: Option<PaymentError>, expectedAmount: int)
    requires OneOpenSession(database.rows)
    ensures refusal == SessionChecks(database.rows, iou, now)
    ensures refusal.None? ==> expectedAmount == Expected(database.rows, iou.key.sender, fee)
  {
    var active := database.GetIou(iou.key.sender, None, false);
    if active.Some? {
      OpenSessionIsUnique(database.rows, active.value);
      if active.value.claimableUntil != iou.key.claimableUntil {
        return Some(UseThisIou(active.value)), 0;
      }
      return None, database.rows[active.value].amount + fee;
    }
    assert forall k :: IsOpen(database.rows, k) ==> k.sender != iou.key.sender;
    var claimed := database.GetIou(iou.key.sender, Some(iou.key.claimableUntil), true);
    if claimed.Some? {
      assert claimed.value == iou.key;
      return Some(IouAlreadyClaimed), 0;
    }
    if iou.key.claimableUntil < now + MIN_IOU_EXPIRY {
      return Some(IouExpiredTooEarly(now + MIN_IOU_EXPIRY)), 0;
    }
    return None, fee;
  }

  // ---------------------------------------------------------------- claims

  type TxHash = nat

  datatype Listed = Listed(key: IouKey, row: IouRow)

  datatype Tx = Tx(hash: TxHash, iou: Listed)

  /** One round of asking for receipts: no receipt yet, or whether the transaction succeeded. */
  type Receipts = TxHash -> Option<bool>

  /** The claims worth sending, in the order of the list; claim i would transfer transferrable[i]. */
  function Sent(ious: seq<Listed>, transferrable: seq<int>, hashes: seq<TxHash>, cost: int): (txs: seq<Tx>)
    requires |ious| == |transferrable| == |hashes|
    ensures |txs| <= |ious|
    decreases |ious|
  {
    if ious == [] then []
    else
      var last := |ious| - 1;
      Sent(ious[..last], transferrable[..last], hashes[..last], cost)
      + if transferrable[last] < cost then [] else [Tx(hashes[last], ious[last])]
  }

  /** Which claims are worth sending. */
  function Profitable(transferrable: seq<int>, cost: int): set<nat> {
    set i: nat | i < |transferrable| && transferrable[i] >= cost
  }

  /** As many claims are sent as would transfer at least their cost. */
  lemma {:induction false} SentCount(ious: seq<Listed>, transferrable: seq<int>, hashes: seq<TxHash>, cost: int)
    requires |ious| == |transferrable| == |hashes|
    ensures |Sent(ious, transferrable, hashes, cost)| == |Profitable(transferrable, cost)|
    decreases |ious|
  {
    if ious == [] {
      assert Profitable(transferrable, cost) == {};
    } else {
      var last := |ious| - 1;
      SentCount(ious[..last], transferrable[..last], hashes[..last], cost);
      OneMoreProfitable(transferrable, cost);
    }
  }

  lemma OneMoreProfitable(transferrable: seq<int>, cost: int)
    requires transferrable != []
    ensures var last := |transferrable| - 1;
            |Profitable(transferrable, cost)|
            == |Profitable(transferrable[..last], cost)| + if transferrable[last] < cost then 0 else 1
  {
    var last := |transferrable| - 1;
    var before, all := Profitable(transferrable[..last], cost), Profitable(transferrable, cost);
    assert last !in before;
    if transferrable[last] < cost {
      assert all == before;
    } else {
      assert all == before + {last};
    }
  }

  /** The transaction belongs to a claim that would transfer at least its cost. */
  ghost predicate IsWorthSending(ious: seq<Listed>, transferrable: seq<int>, hashes: seq<TxHash>, cost: int, tx: Tx)
    requires |ious| == |transferrable| == |hashes|
  {
    exists i :: 0 <= i < |ious| && transferrable[i] >= cost && tx.hash == hashes[i] && tx.iou == ious[i]
  }

  lemma LastWorthSending(ious: seq<Listed>, transferrable: seq<int>, hashes: seq<TxHash>, cost: int, tx: Tx)
    requires 0 < |ious| == |transferrable| == |hashes|
    ensures var last := |ious| - 1;
            IsWorthSending(ious, transferrable, hashes, cost, tx)
            <==> IsWorthSending(ious[..last], transferrable[..last], hashes[..last], cost, tx)
                 || (transferrable[last] >= cost && tx.hash == hashes[last] && tx.iou == ious[last])
  {
    var last := |ious| - 1;
    if i :| 0 <= i < |ious| && transferrable[i] >= cost && tx.hash == hashes[i] && tx.iou == ious[i] {
      assert i < last ==> ious[..last][i] == ious[i] && hashes[..last][i] == hashes[i] && transferrable[..last][i] == transferrable[i];
    }
  }

  /** Exactly the transactions of claims that would transfer at least their cost are sent. */
  lemma {:induction false} SentExactly(ious: seq<Listed>, transferrable: seq<int>, hashes: seq<TxHash>, cost: int, tx: Tx)
    requires |ious| == |transferrable| == |hashes|
    ensures tx in Sent(ious, transferrable, hashes, cost) <==> IsWorthSending(ious, transferrable, hashes, cost, tx)
    decreases |ious|
  {
    if ious != [] {
      var last := |ious| - 1;
      SentExactly(ious[..last], transferrable[..last], hashes[..last], cost, tx);
      LastWorthSending(ious, transferrable, hashes, cost, tx);
      assert tx == Tx(hashes[last], ious[last]) <==> tx.hash == hashes[last] && tx.iou == ious[last];
    }
  }

  /** What the rounds say about a transaction: its first receipt counts. */
  function Resolution(rounds: seq<Receipts>, hash: TxHash): Option<bool> {
    if rounds == [] then None
    else
      var earlier := Resolution(rounds[..|rounds| - 1], hash);
      if earlier.Some? then earlier else rounds[|rounds| - 1](hash)
  }

  lemma {:induction false} FirstReceiptCounts(rounds: seq<Receipts>, hash: TxHash)
    ensures Resolution(rounds, hash).None? <==> forall r :: 0 <= r < |rounds| ==> rounds[r](hash).None?
    ensures Resolution(rounds, hash).Some? ==>
      exists r :: 0 <= r < |rounds| && rounds[r](hash) == Resolution(rounds, hash)
                  && forall q :: 0 <= q < r ==> rounds[q](hash).None?
    decreases |rounds|
  {
    if rounds != [] {
      var earlier := rounds[..|rounds| - 1];
      FirstReceiptCounts(earlier, hash);
      assert forall r :: 0 <= r < |earlier| ==> earlier[r] == rounds[r];
    }
  }

  /** The transactions with a given fate after some rounds. */
  function WithFate(txs: seq<Tx>, rounds: seq<Receipts>, fate: Option<bool>): (some: seq<Tx>)
    ensures |some| <= |txs|
    ensures forall tx :: tx in some <==> tx in txs && Resolution(rounds, tx.hash) == fate
    decreases |txs|
  {
    if txs == [] then []
    else
      var last := |txs| - 1;
      WithFate(txs[..last], rounds, fate) + if Resolution(rounds, txs[last].hash) == fate then [txs[last]] else []
  }

  /** Every transaction has one fate. */
  lemma {:induction false} FatesAddUp(txs: seq<Tx>, rounds: seq<Receipts>)
    ensures |txs| == |WithFate(txs, rounds, None)| + |WithFate(txs, rounds, Some(true))| + |WithFate(txs, rounds, Some(false))|
  {
    if txs != [] {
      FatesAddUp(txs[..|txs| - 1], rounds);
      var fate := Resolution(rounds, txs[|txs| - 1].hash);
      if fate.Some? && fate.value {
        assert fate == Some(true);
      } else if fate.Some? {
        assert fate == Some(false);
      }
    }
  }

  /** The rows after some claims were confirmed: their rows are claimed as listed, all others are as before. */
  ghost predicate IsSettled(before: Table, after: Table, confirmed: seq<Tx>) {
    && before.Keys <= after.Keys
    && forall k :: k in after ==>
         || (k in before && after[k] == before[k] && forall tx :: tx in confirmed ==> tx.iou.key != k)
         || exists tx :: tx in confirmed && tx.iou.key == k && after[k] == tx.iou.row.(claimed := true)
  }

  lemma SettledTogether(a: Table, b: Table, c: Table, first: seq<Tx>, second: seq<Tx>, both: seq<Tx>)
    requires IsSettled(a, b, first) && IsSettled(b, c, second)
    requires forall tx :: tx in both <==> tx in first || tx in second
    ensures IsSettled(a, c, both)
  {
  }

  /** A later round looks only at the transactions that have no receipt yet. */
  lemma NextRound(txs: seq<Tx>, rounds: seq<Receipts>, round: Receipts, fate: Option<bool>)
    ensures var waiting := WithFate(txs, rounds, None);
            && (fate.None? ==> WithFate(txs, rounds + [round], None) == WithFate(waiting, [round], None))
            && (fate.Some? ==>
                  && |WithFate(txs, rounds + [round], fate)| == |WithFate(txs, rounds, fate)| + |WithFate(waiting, [round], fate)|
                  && forall tx :: tx in WithFate(txs, rounds + [round], fate) <==>
                       tx in WithFate(txs, rounds, fate) || tx in WithFate(waiting, [round], fate))
  {
    if fate.None? {
      StillUnresolved(txs, rounds, round);
    } else {
      ResolvedNext(txs, rounds, round, fate);
      forall tx
        ensures tx in WithFate(txs, rounds + [round], fate) <==>
          tx in WithFate(txs, rounds, fate) || tx in WithFate(WithFate(txs, rounds, None), [round], fate)
      {
        NextResolution(rounds, round, tx.hash);
      }
    }
  }

  lemma {:induction false} StillUnresolved(txs: seq<Tx>, rounds: seq<Receipts>, round: Receipts)
    ensures WithFate(txs, rounds + [round], None) == WithFate(WithFate(txs, rounds, None), [round], None)
    decreases |txs|
  {
    if txs != [] {
      LastJoins(txs, rounds, round, None);
      StillUnresolved(txs[..|txs| - 1], rounds, round);
    }
  }

  lemma {:induction false} ResolvedNext(txs: seq<Tx>, rounds: seq<Receipts>, round: Receipts, fate: Option<bool>)
    requires fate.Some?
    ensures |WithFate(txs, rounds + [round], fate)|
            == |WithFate(txs, rounds, fate)| + |WithFate(WithFate(txs, rounds, None), [round], fate)|
    decreases |txs|
  {
    if txs != [] {
      LastJoins(txs, rounds, round, fate);
      ResolvedNext(txs[..|txs| - 1], rounds, round, fate);
    }
  }

  /** The last transaction joins those that share its fate, after the earlier rounds and after the next one. */
  lemma LastJoins(txs: seq<Tx>, rounds: seq<Receipts>, round: Receipts, fate: Option<bool>)
    requires txs != []
    ensures var front, last := txs[..|txs| - 1], txs[|txs| - 1];
            var waiting, known := WithFate(front, rounds, None), Resolution(rounds, last.hash);
            && Resolution(rounds + [round], last.hash) == (if known.Some? then known else round(last.hash))
            && WithFate(WithFate(txs, rounds, None), [round], fate)
               == WithFate(waiting, [round], fate) + if known.None? && round(last.hash) == fate then [last] else []
  {
    var front, last := txs[..|txs| - 1], txs[|txs| - 1];
    var waiting := WithFate(front, rounds, None);
    NextResolution(rounds, round, last.hash);
    OneMoreWaiting(waiting, last, round, fate);
    assert waiting + [] == waiting && WithFate(waiting, [round], fate) + [] == WithFate(waiting, [round], fate);
  }

  lemma NextResolution(rounds: seq<Receipts>, round: Receipts, hash: TxHash)
    ensures Resolution(rounds + [round], hash) == if Resolution(rounds, hash).Some? then Resolution(rounds, hash) else round(hash)
    ensures Resolution([round], hash) == round(hash)
  {
    assert (rounds + [round])[..|rounds|] == rounds;
    assert [round][..0] == [];
  }

  lemma OneMoreWaiting(waiting: seq<Tx>, tx: Tx, round: Receipts, fate: Option<bool>)
    ensures WithFate(waiting + [tx], [round], fate)
            == WithFate(waiting, [round], fate) + if round(tx.hash) == fate then [tx] else []
  {
    NextResolution([], round, tx.hash);
    assert (waiting + [tx])[..|waiting|] == waiting;
  }

  function RemoveFirst(txs: seq<Tx>, tx: Tx): seq<Tx> {
    if txs == [] then [] else if txs[0] == tx then txs[1..] else [txs[0]] + RemoveFirst(txs[1..], tx)
  }

  lemma {:induction false} RemoveFirstAfter(kept: seq<Tx>, tx: Tx, rest: seq<Tx>)
    requires tx !in kept
    ensures RemoveFirst(kept + [tx] + rest, tx) == kept + rest
  {
    var all := kept + [tx] + rest;
    if kept == [] {
      assert all[1..] == rest;
    } else {
      assert all[1..] == kept[1..] + [tx] + rest;
      RemoveFirstAfter(kept[1..], tx, rest);
      assert kept + rest == [kept[0]] + (kept[1..] + rest);
    }
  }

  /** Takes a transaction that has a receipt off the list and, when it succeeded, marks its IOU as claimed. */
  method CheckReceipt(database: IouDatabase, txs: seq<Tx>, tx: Tx, receipt: Option<bool>) returns (unchecked: seq<Tx>, failed: nat)
    modifies database
    ensures unchecked == if receipt.None? then txs else RemoveFirst(txs, tx)
    ensures failed == if receipt == Some(false) then 1 else 0
    ensures database.rows == if receipt == Some(true)
            then Upsert(old(database.rows), tx.iou.key, tx.iou.row.(claimed := true)) else old(database.rows)
  {
    unchecked, failed := txs, 0;
    if receipt.None? {
      return;
    }
    unchecked := RemoveFirst(txs, tx);
    if receipt.value {
      database.UpsertIou(tx.iou.key, tx.iou.row.(claimed := true));
    } else {
      failed := 1;
    }
  }

  /** Asks once for every receipt that is still missing. */
  method CheckReceipts(database: IouDatabase, waiting: seq<Tx>, round: Receipts) returns (unchecked: seq<Tx>, failed: nat)
    modifies database
    ensures unchecked == WithFate(waiting, [round], None)
    ensures failed == |WithFate(waiting, [round], Some(false))|
    ensures IsSettled(old(database.rows), database.rows, WithFate(waiting, [round], Some(true)))
  {
    unchecked, failed := waiting, 0;
    assert waiting[..0] == [];
    for i := 0 to |waiting|
      invariant unchecked == WithFate(waiting[..i], [round], None) + waiting[i..]
      invariant failed == |WithFate(waiting[..i], [round], Some(false))|
      invariant database.rows == MarkClaimed(old(database.rows), WithFate(waiting[..i], [round], Some(true)))
    {
      NextUnchecked(waiting, i, round);
      NextFate(waiting, i, round, Some(false));
      NextFate(waiting, i, round, Some(true));
      MarkNext(old(database.rows), WithFate(waiting[..i], [round], Some(true)), waiting[i]);
      var failure;
      unchecked, failure := CheckReceipt(database, unchecked, waiting[i], round(waiting[i].hash));
      failed := failed + failure;
    }
    assert waiting[..|waiting|] == waiting;
    MarkingSettles(old(database.rows), WithFate(waiting, [round], Some(true)));
  }

  /** The rows after the IOUs of some transactions were written back as claimed. */
  function MarkClaimed(rows: Table, txs: seq<Tx>): Table
    decreases |txs|
  {
    if txs == [] then rows
    else
      var tx := txs[|txs| - 1];
      Upsert(MarkClaimed(rows, txs[..|txs| - 1]), tx.iou.key, tx.iou.row.(claimed := true))
  }

  lemma MarkNext(rows: Table, txs: seq<Tx>, tx: Tx)
    ensures MarkClaimed(rows, txs + [tx]) == Upsert(MarkClaimed(rows, txs), tx.iou.key, tx.iou.row.(claimed := true))
  {
    assert (txs + [tx])[..|txs|] == txs;
  }

  lemma {:induction false} MarkingSettles(rows: Table, txs: seq<Tx>)
    ensures IsSettled(rows, MarkClaimed(rows, txs), txs)
    decreases |txs|
  {
    if txs != [] {
      var front, tx := txs[..|txs| - 1], txs[|txs| - 1];
      MarkingSettles(rows, front);
      OneMoreSettled(rows, MarkClaimed(rows, front), front, tx);
      assert txs == front + [tx];
    }
  }

  lemma OneMoreSettled(before: Table, rows: Table, confirmed: seq<Tx>, tx: Tx)
    requires IsSettled(before, rows, confirmed)
    ensures IsSettled(before, Upsert(rows, tx.iou.key, tx.iou.row.(claimed := true)), confirmed + [tx])
  {
    var after := Upsert(rows, tx.iou.key, tx.iou.row.(claimed := true));
    assert after == rows[tx.iou.key := tx.iou.row.(claimed := true)];
    assert IsSettled(rows, after, [tx]) by {
      assert tx in [tx];
    }
    SettledTogether(before, rows, after, confirmed, [tx], confirmed + [tx]);
  }

  /** The receipt of one more transaction. */
  lemma NextFate(waiting: seq<Tx>, i: nat, round: Receipts, fate: Option<bool>)
    requires i < |waiting|
    ensures var some := WithFate(waiting[..i], [round], fate);
            WithFate(waiting[..i + 1], [round], fate) == if round(waiting[i].hash) == fate then some + [waiting[i]] else some
  {
    var some := WithFate(waiting[..i], [round], fate);
    assert waiting[..i + 1] == waiting[..i] + [waiting[i]];
    OneMoreWaiting(waiting[..i], waiting[i], round, fate);
    assert some + [] == some;
  }

  lemma NextUnchecked(waiting: seq<Tx>, i: nat, round: Receipts)
    requires i < |waiting|
    ensures var unchecked, tx := WithFate(waiting[..i], [round], None) + waiting[i..], waiting[i];
            (if round(tx.hash).None? then unchecked else RemoveFirst(unchecked, tx))
            == WithFate(waiting[..i + 1], [round], None) + waiting[i + 1..]
  {
    var tx, kept, rest := waiting[i], WithFate(waiting[..i], [round], None), waiting[i + 1..];
    NextFate(waiting, i, round, None);
    NextResolution([], round, tx.hash);
    assert waiting[i..] == [tx] + rest;
    assert kept + ([tx] + rest) == kept + [tx] + rest;
    if round(tx.hash).Some? {
      RemoveFirstAfter(kept, tx, rest);
    }
  }

  /**
   Sends the claims that are worth it, then asks for receipts round after round until none is missing.
   Skipped, failed, confirmed and unchecked claims together are all that were listed; exactly the
   confirmed ones are claimed in the database.
   */
  method ClaimIous(database: IouDatabase, ious: seq<Listed>, cost: int, transferrable: seq<int>, hashes: seq<TxHash>,
                   rounds: seq<Receipts>) returns (skipped: nat, failures: nat, unchecked: seq<Tx>)
    requires |ious| == |transferrable| == |hashes|
    modifies database
    ensures var txs := Sent(ious, transferrable, hashes, cost);
            && skipped + |txs| == |ious|
            && unchecked == WithFate(txs, rounds, None)
            && failures == |WithFate(txs, rounds, Some(false))|
            && IsSettled(old(database.rows), database.rows, WithFate(txs, rounds, Some(true)))
            && skipped + failures + |WithFate(txs, rounds, Some(true))| + |unchecked| == |ious|
  {
    var txs := [];
    skipped := 0;
    for i := 0 to |ious|
      invariant txs == Sent(ious[..i], transferrable[..i], hashes[..i], cost) && skipped + |txs| == i
      invariant database.rows == old(database.rows)
    {
      SentNext(ious, transferrable, hashes, cost, i);
      if transferrable[i] < cost {
        skipped := skipped + 1;
        continue;
      }
      txs := txs + [Tx(hashes[i], ious[i])];
    }
    assert ious[..|ious|] == ious && transferrable[..|ious|] == transferrable && hashes[..|ious|] == hashes;
    failures, unchecked := AwaitReceipts(database, txs, rounds);
    FatesAddUp(txs, rounds);
  }

  method AwaitReceipts(database: IouDatabase, txs: seq<Tx>, rounds: seq<Receipts>) returns (failures: nat, unchecked: seq<Tx>)
    modifies database
    ensures unchecked == WithFate(txs, rounds, None) && failures == |WithFate(txs, rounds, Some(false))|
    ensures IsSettled(old(database.rows), database.rows, WithFate(txs, rounds, Some(true)))
  {
    failures, unchecked := 0, txs;
    var r := 0;
    AllWaitAtFirst(txs, None);
    AllWaitAtFirst(txs, Some(true));
    AllWaitAtFirst(txs, Some(false));
    while unchecked != [] && r < |rounds|
      invariant r <= |rounds| && unchecked == WithFate(txs, rounds[..r], None)
      invariant failures == |WithFate(txs, rounds[..r], Some(false))|
      invariant IsSettled(old(database.rows), database.rows, WithFate(txs, rounds[..r], Some(true)))
      decreases |rounds| - r
    {
      ghost var before := database.rows;
      var failed;
      unchecked, failed := CheckReceipts(database, unchecked, rounds[r]);
      failures := failures + failed;
      RoundDone(txs, rounds, r, old(database.rows), before, database.rows);
      r := r + 1;
    }
    MoreRoundsChangeNothing(txs, rounds, r);
  }

  lemma RoundDone(txs: seq<Tx>, rounds: seq<Receipts>, r: nat, start: Table, before: Table, after: Table)
    requires r < |rounds| && IsSettled(start, before, WithFate(txs, rounds[..r], Some(true)))
    requires IsSettled(before, after, WithFate(WithFate(txs, rounds[..r], None), [rounds[r]], Some(true)))
    ensures var waiting := WithFate(txs, rounds[..r], None);
            && WithFate(txs, rounds[..r + 1], None) == WithFate(waiting, [rounds[r]], None)
            && |WithFate(txs, rounds[..r + 1], Some(false))|
               == |WithFate(txs, rounds[..r], Some(false))| + |WithFate(waiting, [rounds[r]], Some(false))|
    ensures IsSettled(start, after, WithFate(txs, rounds[..r + 1], Some(true)))
  {
    assert rounds[..r + 1] == rounds[..r] + [rounds[r]];
    NextRound(txs, rounds[..r], rounds[r], None);
    NextRound(txs, rounds[..r], rounds[r], Some(false));
    NextRound(txs, rounds[..r], rounds[r], Some(true));
    SettledTogether(start, before, after, WithFate(txs, rounds[..r], Some(true)),
                    WithFate(WithFate(txs, rounds[..r], None), [rounds[r]], Some(true)), WithFate(txs, rounds[..r + 1], Some(true)));
  }

  lemma SentNext(ious: seq<Listed>, transferrable: seq<int>, hashes: seq<TxHash>, cost: int, i: nat)
    requires |ious| == |transferrable| == |hashes| && i < |ious|
    ensures Sent(ious[..i + 1], transferrable[..i + 1], hashes[..i + 1], cost)
            == Sent(ious[..i], transferrable[..i], hashes[..i], cost) + if transferrable[i] < cost then [] else [Tx(hashes[i], ious[i])]
  {
    assert ious[..i + 1][..i] == ious[..i];
    assert transferrable[..i + 1][..i] == transferrable[..i];
    assert hashes[..i + 1][..i] == hashes[..i];
  }

  lemma {:induction false} AllWaitAtFirst(txs: seq<Tx>, fate: Option<bool>)
    ensures WithFate(txs, [], fate) == if fate.None? then txs else []
  {
    if txs != [] {
      var front, last := txs[..|txs| - 1], txs[|txs| - 1];
      AllWaitAtFirst(front, fate);
      assert Resolution([], last.hash) == None;
      assert txs == front + [last];
    }
  }

  /** Once every transaction has a receipt, further rounds would change nothing. */
  lemma {:induction false} MoreRoundsChangeNothing(txs: seq<Tx>, rounds: seq<Receipts>, r: nat)
    requires r <= |rounds| && (r < |rounds| ==> WithFate(txs, rounds[..r], None) == [])
    ensures forall fate :: WithFate(txs, rounds[..r], fate) == WithFate(txs, rounds, fate)
    decreases |rounds| - r
  {
    if r == |rounds| {
      assert rounds[..r] == rounds;
    } else {
      assert rounds[..r + 1] == rounds[..r] + [rounds[r]];
      forall fate
        ensures WithFate(txs, rounds[..r], fate) == WithFate(txs, rounds[..r + 1], fate)
      {
        forall tx | tx in txs
          ensures Resolution(rounds[..r + 1], tx.hash) == Resolution(rounds[..r], tx.hash)
        {
          NextResolution(rounds[..r], rounds[r], tx.hash);
          assert tx !in WithFate(txs, rounds[..r], None);
        }
        SameFates(txs, rounds[..r], rounds[..r + 1], fate);
      }
      MoreRoundsChangeNothing(txs, rounds, r + 1);
    }
  }

  lemma {:induction false} SameFates(txs: seq<Tx>, rounds: seq<Receipts>, more: seq<Receipts>, fate: Option<bool>)
    requires forall tx :: tx in txs ==> Resolution(rounds, tx.hash) == Resolution(more, tx.hash)
    ensures WithFate(txs, rounds, fate) == WithFate(txs, more, fate)
    decreases |txs|
  {
    if txs != [] {
      assert txs[|txs| - 1] in txs;
      SameFates(txs[..|txs| - 1], rounds, more, fate);
    }
  }
}
