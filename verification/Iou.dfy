/**
 The IOUs that pay for route requests. A sender has one open session at a time; a session is named
 by its sender and the time until which it can be claimed.
 */
module Iou {
  import opened Common

  const MIN_IOU_EXPIRY := 60 * 60 * 24 * 7
  const UDC_SECURITY_MARGIN_FACTOR := 2

  datatype IouKey = IouKey(sender: Address, claimableUntil: int)

  datatype IouRow = IouRow(amount: int, signature: nat, oneToN: Address, claimed: bool)

  type Table = map<IouKey, IouRow>

  /** An IOU as a client sends it; whether its signature fits is opaque. */
  datatype Iou = Iou(key: IouKey, receiver: Address, amount: int, oneToN: Address, chainId: int, signature: nat, signatureValid: bool)

  /** Insert-or-replace also replaces whatever violates "one unclaimed IOU per sender". */
  function Upsert(rows: Table, key: IouKey, row: IouRow): Table {
    (map k | k in rows && !(k != key && k.sender == key.sender && !row.claimed && !rows[k].claimed) :: rows[k])[key := row]
  }

  predicate IsOpen(rows: Table, key: IouKey) {
    key in rows && !rows[key].claimed
  }

  /** The table holds at most one unclaimed IOU per sender. */
  ghost predicate OneOpenSession(rows: Table) {
    forall k, q :: IsOpen(rows, k) && IsOpen(rows, q) && k.sender == q.sender ==> k == q
  }

  ghost function OpenSession(rows: Table, sender: Address): Option<IouKey> {
    if key :| IsOpen(rows, key) && key.sender == sender then Some(key) else None
  }

  // ---------------------------------------------------------------- payments

  datatype PaymentError =
    | MissingIou
    | WrongIouRecipient
    | UnsupportedChainId
    | WrongOneToNAddress
    | InvalidSignature
    | UseThisIou(active: IouKey)
    | IouAlreadyClaimed
    | IouExpiredTooEarly(minExpiry: int)
    | InsufficientServicePayment(expected: int)
    | DepositTooLow(required: int)

  datatype Verdict = Ignored | Accepted | Refused(error: PaymentError)

  /** The service's own addresses. */
  datatype Config = Config(receiver: Address, chainId: int, oneToN: Address)

  /** What one request pays with: the fee in force, the clock, and the sender's deposit as the contract reports it. */
  datatype Payment = Payment(iou: Option<Iou>, fee: nat, now: int, deposit: int)

  /** The amount an IOU has to reach: the open session's amount, if there is one, and the fee. */
  ghost function Expected(rows: Table, sender: Address, fee: nat): int {
    match OpenSession(rows, sender)
    case Some(open) => rows[open].amount + fee
    case None => fee
  }

  ghost function BasicChecks(config: Config, iou: Iou): Option<PaymentError> {
    if iou.receiver != config.receiver then Some(WrongIouRecipient)
    else if iou.chainId != config.chainId then Some(UnsupportedChainId)
    else if iou.oneToN != config.oneToN then Some(WrongOneToNAddress)
    else if !iou.signatureValid then Some(InvalidSignature)
    else None
  }

  ghost function SessionChecks(rows: Table, iou: Iou, now: int): Option<PaymentError> {
    match OpenSession(rows, iou.key.sender)
    case Some(open) => if open != iou.key then Some(UseThisIou(open)) else None
    case None =>
      if iou.key in rows && rows[iou.key].claimed then Some(IouAlreadyClaimed)
      else if iou.key.claimableUntil < now + MIN_IOU_EXPIRY then Some(IouExpiredTooEarly(now + MIN_IOU_EXPIRY))
      else None
  }

  ghost function Check(config: Config, rows: Table, p: Payment): Verdict {
    if p.fee == 0 then Ignored
    else if p.iou.None? then Refused(MissingIou)
    else
      var iou := p.iou.value;
      var expected := Expected(rows, iou.key.sender, p.fee);
      if BasicChecks(config, iou).Some? then Refused(BasicChecks(config, iou).value)
      else if SessionChecks(rows, iou, p.now).Some? then Refused(SessionChecks(rows, iou, p.now).value)
      else if iou.amount < expected then Refused(InsufficientServicePayment(expected))
      else if p.deposit < expected * UDC_SECURITY_MARGIN_FACTOR then Refused(DepositTooLow(expected * UDC_SECURITY_MARGIN_FACTOR))
      else Accepted
  }

  function RowOf(iou: Iou): IouRow {
    IouRow(iou.amount, iou.signature, iou.oneToN, false)
  }

  ghost function Pay(config: Config, rows: Table, p: Payment): Table {
    if Check(config, rows, p).Accepted? then Upsert(rows, p.iou.value.key, RowOf(p.iou.value)) else rows
  }

  /** The rows that can be claimed now: not claimed, about to expire, and worth the cost. */
  function Claimable(rows: Table, after: int, before: int, cost: int): Table {
    map k | k in rows && !rows[k].claimed && after < k.claimableUntil < before && rows[k].amount >= cost :: rows[k]
  }

  // ---------------------------------------------------------------- runs

  /** The claiming program lists rows first and writes them back, as claimed, when their claims are confirmed. */
  datatype State = State(rows: Table, listed: set<(IouKey, IouRow)>)

  datatype Step =
    | Requested(payment: Payment)
    | Listed(after: int, before: int, cost: int)
    | Settled(key: IouKey, row: IouRow)

  function Entries(rows: Table): set<(IouKey, IouRow)> {
    set k | k in rows :: (k, rows[k])
  }

  ghost function Exec(config: Config, s: State, step: Step): State {
    match step
    case Requested(payment) => s.(rows := Pay(config, s.rows, payment))
    case Listed(after, before, cost) => s.(listed := s.listed + Entries(Claimable(s.rows, after, before, cost)))
    case Settled(key, row) => s.(rows := Upsert(s.rows, key, row.(claimed := true)))
  }

  /** The claiming program settles what it has listed. */
  predicate Enabled(s: State, step: Step) {
    step.Settled? ==> (step.key, step.row) in s.listed
  }

  /** trace[i+1] follows from trace[i]; the table is empty at first. Payments and claims interleave in any way. */
  ghost predicate IsRun(config: Config, steps: seq<Step>, trace: seq<State>) {
    && |trace| == |steps| + 1 && trace[0] == State(map[], {})
    && forall i {:trigger steps[i]} :: 0 <= i < |steps| ==>
         Enabled(trace[i], steps[i]) && trace[i + 1] == Exec(config, trace[i], steps[i])
  }

  /** The fee that a step earns in a session. */
  ghost function FeeEarned(config: Config, s: State, step: Step, key: IouKey): nat {
    if step.Requested? && Check(config, s.rows, step.payment).Accepted? && step.payment.iou.value.key == key
    then step.payment.fee else 0
  }

  /** The fees of all requests accepted in a session during the first n steps. */
  ghost function Earned(config: Config, steps: seq<Step>, trace: seq<State>, key: IouKey, n: nat): nat
    requires n <= |steps| < |trace|
  {
    if n == 0 then 0 else Earned(config, steps, trace, key, n - 1) + FeeEarned(config, trace[n - 1], steps[n - 1], key)
  }

  // ---------------------------------------------------------------- what every step keeps

  lemma OpenSessionIsUnique(rows: Table, key: IouKey)
    requires OneOpenSession(rows) && IsOpen(rows, key)
    ensures OpenSession(rows, key.sender) == Some(key)
  {
    assert IsOpen(rows, key) && key.sender == key.sender;
  }

  /** An accepted payment extends the sender's open session or opens one, and touches no other row. */
  lemma AcceptedPayment(config: Config, rows: Table, p: Payment)
    requires OneOpenSession(rows) && Check(config, rows, p).Accepted?
    ensures var iou := p.iou.value;
            && Pay(config, rows, p) == rows[iou.key := RowOf(iou)]
            && OneOpenSession(Pay(config, rows, p))
            && (iou.key in rows ==> !rows[iou.key].claimed && iou.amount >= rows[iou.key].amount + p.fee)
            && (iou.key !in rows ==> iou.amount >= p.fee && iou.key.claimableUntil >= p.now + MIN_IOU_EXPIRY)
  {
    var iou := p.iou.value;
    forall k | IsOpen(rows, k) && k.sender == iou.key.sender
      ensures k == iou.key
    {
      OpenSessionIsUnique(rows, k);
    }
    assert Upsert(rows, iou.key, RowOf(iou)) == rows[iou.key := RowOf(iou)];
    if iou.key in rows && !rows[iou.key].claimed {
      OpenSessionIsUnique(rows, iou.key);
    }
  }

  /** What the sender has to be good for: the fee, on top of what it owes in the session already. */
  function Due(rows: Table, key: IouKey, fee: nat): int {
    fee + if key in rows then rows[key].amount else 0
  }

  /** The IOU is made out to this service on this chain and contract, and its sender signed it. */
  predicate IsGenuine(config: Config, iou: Iou) {
    iou.signatureValid && iou.receiver == config.receiver && iou.chainId == config.chainId && iou.oneToN == config.oneToN
  }

  /**
   The exact condition for a payment to be accepted: a genuine IOU for the sender's only open session, or for a new
   one of at least a week, that covers what is due, with a deposit of twice as much.
   */
  lemma {:induction false} AcceptedExactly(config: Config, rows: Table, p: Payment)
    requires OneOpenSession(rows)
    ensures Check(config, rows, p).Accepted? <==>
      && p.fee > 0 && p.iou.Some?
      && var iou, due := p.iou.value, Due(rows, p.iou.value.key, p.fee);
         && IsGenuine(config, iou)
         && (forall k :: IsOpen(rows, k) && k.sender == iou.key.sender ==> k == iou.key)
         && (if iou.key in rows then !rows[iou.key].claimed else iou.key.claimableUntil >= p.now + MIN_IOU_EXPIRY)
         && iou.amount >= due && p.deposit >= 2 * due
  {
    if p.iou.Some? {
      TheOpenSession(rows, p.iou.value.key);
    }
  }

  lemma TheOpenSession(rows: Table, key: IouKey)
    requires OneOpenSession(rows)
    ensures OpenSession(rows, key.sender).None? <==> forall k :: IsOpen(rows, k) ==> k.sender != key.sender
    ensures OpenSession(rows, key.sender).Some? ==>
      var open := OpenSession(rows, key.sender).value; IsOpen(rows, open) && open.sender == key.sender
    ensures OpenSession(rows, key.sender) == Some(key) <==> IsOpen(rows, key)
  {
    if IsOpen(rows, key) {
      OpenSessionIsUnique(rows, key);
    }
  }

  /** Every refusal tells the truth. */
  lemma RefusalsAreTrue(config: Config, rows: Table, p: Payment)
    requires OneOpenSession(rows) && Check(config, rows, p).Refused?
    ensures p.fee > 0
    ensures match Check(config, rows, p).error
            case MissingIou => p.iou.None?
            case WrongIouRecipient => p.iou.Some? && p.iou.value.receiver != config.receiver
            case UnsupportedChainId => p.iou.Some? && p.iou.value.chainId != config.chainId
            case WrongOneToNAddress => p.iou.Some? && p.iou.value.oneToN != config.oneToN
            case InvalidSignature => p.iou.Some? && !p.iou.value.signatureValid
            case UseThisIou(active) =>
              p.iou.Some? && IsOpen(rows, active) && active.sender == p.iou.value.key.sender && active != p.iou.value.key
            case IouAlreadyClaimed => p.iou.Some? && p.iou.value.key in rows && rows[p.iou.value.key].claimed
            case IouExpiredTooEarly(minExpiry) =>
              p.iou.Some? && p.iou.value.key.claimableUntil < minExpiry == p.now + 7 * 24 * 3600
            case InsufficientServicePayment(expected) =>
              p.iou.Some? && p.iou.value.amount < expected == Due(rows, p.iou.value.key, p.fee)
            case DepositTooLow(required) =>
              p.iou.Some? && p.deposit < required == 2 * Due(rows, p.iou.value.key, p.fee)
  {
    if p.iou.Some? {
      TheOpenSession(rows, p.iou.value.key);
    }
  }

  ghost predicate Safe(s: State) {
    && OneOpenSession(s.rows)
    && (forall k :: k in s.rows && !s.rows[k].claimed ==> s.rows[k].amount >= 0)
    && (forall e :: e in s.listed ==> e.0 in s.rows && (s.rows[e.0].claimed || e.1.amount <= s.rows[e.0].amount))
  }

  lemma StepSafe(config: Config, s: State, step: Step)
    requires Safe(s) && Enabled(s, step)
    ensures Safe(Exec(config, s, step))
    ensures forall k :: k in s.rows ==> k in Exec(config, s, step).rows
  {
    match step
    case Requested(payment) =>
      if Check(config, s.rows, payment).Accepted? {
        AcceptedPayment(config, s.rows, payment);
      }
    case Settled(key, row) =>
      assert Upsert(s.rows, key, row.(claimed := true)) == s.rows[key := row.(claimed := true)];
    case _ =>
  }

  lemma {:induction false} RunSafe(config: Config, steps: seq<Step>, trace: seq<State>, n: nat)
    requires IsRun(config, steps, trace) && n <= |steps|
    ensures Safe(trace[n])
  {
    if n > 0 {
      RunSafe(config, steps, trace, n - 1);
      StepSafe(config, trace[n - 1], steps[n - 1]);
    }
  }

  // ---------------------------------------------------------------- sessions

  /** In every run, a sender has at most one unclaimed IOU. */
  lemma OneSessionPerSender(config: Config, steps: seq<Step>, trace: seq<State>, n: nat, k: IouKey, q: IouKey)
    requires IsRun(config, steps, trace) && n <= |steps|
    requires IsOpen(trace[n].rows, k) && IsOpen(trace[n].rows, q) && k.sender == q.sender
    ensures k == q
  {
    RunSafe(config, steps, trace, n);
  }

  /** One step writes at most the row of the session it is about; replacing never drops another one. */
  lemma NoSessionIsDropped(config: Config, steps: seq<Step>, trace: seq<State>, n: nat, key: IouKey)
    requires IsRun(config, steps, trace) && n < |steps| && key in trace[n].rows
    ensures key in trace[n + 1].rows
    ensures trace[n + 1].rows[key] != trace[n].rows[key] ==>
      || (steps[n].Requested? && steps[n].payment.iou.Some? && steps[n].payment.iou.value.key == key)
      || (steps[n].Settled? && steps[n].key == key)
  {
    RunSafe(config, steps, trace, n);
    StepSafe(config, trace[n], steps[n]);
    if steps[n].Requested? && Check(config, trace[n].rows, steps[n].payment).Accepted? {
      AcceptedPayment(config, trace[n].rows, steps[n].payment);
    }
  }

  /** An unclaimed IOU is worth at least the fees of all requests accepted in its session. */
  lemma {:induction false} UnclaimedIouPays(config: Config, steps: seq<Step>, trace: seq<State>, n: nat, key: IouKey)
    requires IsRun(config, steps, trace) && n <= |steps|
    ensures IsOpen(trace[n].rows, key) ==> trace[n].rows[key].amount >= Earned(config, steps, trace, key, n)
    ensures key !in trace[n].rows ==> Earned(config, steps, trace, key, n) == 0
  {
    if n > 0 {
      UnclaimedIouPays(config, steps, trace, n - 1, key);
      RunSafe(config, steps, trace, n - 1);
      StepSafe(config, trace[n - 1], steps[n - 1]);
      var step := steps[n - 1];
      if step.Requested? && Check(config, trace[n - 1].rows, step.payment).Accepted? {
        AcceptedPayment(config, trace[n - 1].rows, step.payment);
      }
    }
  }

  /** A claimed session is never opened again and earns nothing more. */
  lemma {:induction false} ClaimedStaysClaimed(
      config: Config, steps: seq<Step>, trace: seq<State>, m: nat, n: nat, key: IouKey)
    requires IsRun(config, steps, trace) && m <= n <= |steps|
    requires key in trace[m].rows && trace[m].rows[key].claimed
    ensures key in trace[n].rows && trace[n].rows[key].claimed
    ensures Earned(config, steps, trace, key, n) == Earned(config, steps, trace, key, m)
  {
    if m < n {
      ClaimedStaysClaimed(config, steps, trace, m, n - 1, key);
      ClaimedNext(config, steps, trace, n - 1, key);
    }
  }

  lemma ClaimedNext(config: Config, steps: seq<Step>, trace: seq<State>, i: nat, key: IouKey)
    requires IsRun(config, steps, trace) && i < |steps| && key in trace[i].rows && trace[i].rows[key].claimed
    ensures key in trace[i + 1].rows && trace[i + 1].rows[key].claimed
    ensures Earned(config, steps, trace, key, i + 1) == Earned(config, steps, trace, key, i)
  {
    RunSafe(config, steps, trace, i);
    ClaimedStep(config, trace[i], steps[i], key);
  }

  lemma ClaimedStep(config: Config, s: State, step: Step, key: IouKey)
    requires Safe(s) && Enabled(s, step) && key in s.rows && s.rows[key].claimed
    ensures var t := Exec(config, s, step); key in t.rows && t.rows[key].claimed
    ensures FeeEarned(config, s, step, key) == 0
  {
    if step.Requested? && Check(config, s.rows, step.payment).Accepted? {
      AcceptedPayment(config, s.rows, step.payment);
    }
  }

  // ---------------------------------------------------------------- where rows come from

  /** The step brought the row: an accepted payment with a genuine IOU over its amount, and a deposit for twice what was due. */
  ghost predicate Brings(config: Config, s: State, step: Step, key: IouKey, row: IouRow) {
    && step.Requested? && step.payment.fee > 0 && step.payment.iou.Some?
    && var p, iou := step.payment, step.payment.iou.value;
       && iou.key == key && IsGenuine(config, iou)
       && row.amount == iou.amount && row.signature == iou.signature && row.oneToN == iou.oneToN
       && iou.amount >= Due(s.rows, key, p.fee) && p.deposit >= 2 * Due(s.rows, key, p.fee)
  }

  /** One of the first n steps brought the row, with a deposit for twice the fees of the session so far. */
  ghost predicate IsBacked(config: Config, steps: seq<Step>, trace: seq<State>, n: nat, key: IouKey, row: IouRow)
    requires n <= |steps| < |trace|
  {
    exists i {:trigger steps[i]} :: 0 <= i < n && Brings(config, trace[i], steps[i], key, row)
              && steps[i].payment.deposit >= 2 * Earned(config, steps, trace, key, i + 1)
  }

  /** In every run, every row, claimed or not, and every row that is listed for claiming came from a genuine IOU. */
  lemma {:induction false} RowsAreBacked(config: Config, steps: seq<Step>, trace: seq<State>, n: nat)
    requires IsRun(config, steps, trace) && n <= |steps|
    ensures forall k :: k in trace[n].rows ==> IsBacked(config, steps, trace, n, k, trace[n].rows[k])
    ensures forall e :: e in trace[n].listed ==> IsBacked(config, steps, trace, n, e.0, e.1)
  {
    if n > 0 {
      RowsAreBacked(config, steps, trace, n - 1);
      forall k | k in trace[n].rows
        ensures IsBacked(config, steps, trace, n, k, trace[n].rows[k])
      {
        NextIsBacked(config, steps, trace, n - 1, k);
      }
      forall e | e in trace[n].listed
        ensures IsBacked(config, steps, trace, n, e.0, e.1)
      {
        ListedFromTable(config, trace[n - 1], steps[n - 1], e);
        assert IsBacked(config, steps, trace, n - 1, e.0, e.1);
      }
    }
  }

  lemma ListedFromTable(config: Config, s: State, step: Step, e: (IouKey, IouRow))
    requires e in Exec(config, s, step).listed
    ensures e in s.listed || (e.0 in s.rows && s.rows[e.0] == e.1)
  {
  }

  lemma NextIsBacked(config: Config, steps: seq<Step>, trace: seq<State>, i: nat, key: IouKey)
    requires IsRun(config, steps, trace) && i < |steps| && key in trace[i + 1].rows
    requires key in trace[i].rows ==> IsBacked(config, steps, trace, i, key, trace[i].rows[key])
    requires forall e :: e in trace[i].listed ==> IsBacked(config, steps, trace, i, e.0, e.1)
    ensures IsBacked(config, steps, trace, i + 1, key, trace[i + 1].rows[key])
  {
    var s, step := trace[i], steps[i];
    RunSafe(config, steps, trace, i);
    if step.Requested? && Check(config, s.rows, step.payment).Accepted? && step.payment.iou.value.key == key {
      AcceptedPayment(config, s.rows, step.payment);
      AcceptedExactly(config, s.rows, step.payment);
      UnclaimedIouPays(config, steps, trace, i, key);
      assert Brings(config, s, step, key, trace[i + 1].rows[key]);
    } else if step.Settled? && step.key == key {
      assert IsBacked(config, steps, trace, i, key, step.row);
    } else {
      NoNewRow(config, s, step, key);
    }
  }

  lemma NoNewRow(config: Config, s: State, step: Step, key: IouKey)
    requires Safe(s) && Enabled(s, step) && key in Exec(config, s, step).rows
    requires step.Requested? && Check(config, s.rows, step.payment).Accepted? ==> step.payment.iou.value.key != key
    requires step.Settled? ==> step.key != key
    ensures key in s.rows && Exec(config, s, step).rows[key] == s.rows[key]
  {
  }

  /** One of the first n steps listed the open row within its time window, and found it worth the cost. */
  ghost predicate WasWorthClaiming(steps: seq<Step>, trace: seq<State>, n: nat, key: IouKey, row: IouRow)
    requires n <= |steps| < |trace|
  {
    exists i {:trigger steps[i]} :: 0 <= i < n && steps[i].Listed? && IsOpen(trace[i].rows, key)
              && steps[i].after < key.claimableUntil < steps[i].before && trace[i].rows[key].amount >= steps[i].cost
              && row.(claimed := false) == trace[i].rows[key]
  }

  /** In every run, only rows that were worth claiming are claimed, with the amount they had when they were listed. */
  lemma {:induction false} ClaimsAreWorthwhile(config: Config, steps: seq<Step>, trace: seq<State>, n: nat)
    requires IsRun(config, steps, trace) && n <= |steps|
    ensures forall e :: e in trace[n].listed ==> WasWorthClaiming(steps, trace, n, e.0, e.1)
    ensures forall k :: k in trace[n].rows && trace[n].rows[k].claimed ==> WasWorthClaiming(steps, trace, n, k, trace[n].rows[k])
  {
    if n > 0 {
      ClaimsAreWorthwhile(config, steps, trace, n - 1);
      var s, step := trace[n - 1], steps[n - 1];
      RunSafe(config, steps, trace, n - 1);
      forall k | k in trace[n].rows && trace[n].rows[k].claimed
        ensures WasWorthClaiming(steps, trace, n, k, trace[n].rows[k])
      {
        if step.Settled? && step.key == k {
          assert WasWorthClaiming(steps, trace, n - 1, k, step.row);
        } else if step.Requested? && Check(config, s.rows, step.payment).Accepted? {
          AcceptedPayment(config, s.rows, step.payment);
        }
      }
    }
  }

  /** Listing misses nothing that is open, within the time window and worth the cost. */
  lemma ListingIsComplete(config: Config, s: State, after: int, before: int, cost: int, key: IouKey)
    requires IsOpen(s.rows, key) && after < key.claimableUntil < before && s.rows[key].amount >= cost
    ensures (key, s.rows[key]) in Exec(config, s, Listed(after, before, cost)).listed
  {
    assert key in Claimable(s.rows, after, before, cost);
  }

  // ---------------------------------------------------------------- claims

  lemma {:induction false} EarnedGrows(config: Config, steps: seq<Step>, trace: seq<State>, m: nat, n: nat, key: IouKey)
    requires m <= n <= |steps| < |trace|
    ensures Earned(config, steps, trace, key, m) <= Earned(config, steps, trace, key, n)
  {
    if m < n {
      EarnedGrows(config, steps, trace, m, n - 1, key);
    }
  }

  /** The row of an open session grows by at least what it earns, and is the same if it earns nothing. */
  ghost predicate Grows(config: Config, steps: seq<Step>, trace: seq<State>, m: nat, n: nat, key: IouKey)
    requires m <= n <= |steps| < |trace|
  {
    && IsOpen(trace[m].rows, key) && IsOpen(trace[n].rows, key)
    && var earned := Earned(config, steps, trace, key, n) - Earned(config, steps, trace, key, m);
       && trace[n].rows[key].amount - trace[m].rows[key].amount >= earned >= 0
       && (earned == 0 ==> trace[n].rows[key] == trace[m].rows[key])
  }

  lemma GrowsTwice(config: Config, steps: seq<Step>, trace: seq<State>, l: nat, m: nat, n: nat, key: IouKey)
    requires l <= m <= n <= |steps| < |trace|
    requires Grows(config, steps, trace, l, m, key) && Grows(config, steps, trace, m, n, key)
    ensures Grows(config, steps, trace, l, n, key)
  {
  }

  /** While a session stays open, its row changes exactly when it earns: by at least the fee. */
  lemma {:induction false} OpenSessionGrows(config: Config, steps: seq<Step>, trace: seq<State>, m: nat, n: nat, key: IouKey)
    requires IsRun(config, steps, trace) && m <= n <= |steps|
    requires IsOpen(trace[m].rows, key) && IsOpen(trace[n].rows, key)
    ensures Grows(config, steps, trace, m, n, key)
  {
    if m == n {
      assert Grows(config, steps, trace, m, m, key);
    } else {
      NextGrows(config, steps, trace, m, n - 1, key);
      OpenSessionGrows(config, steps, trace, m, n - 1, key);
      GrowsTwice(config, steps, trace, m, n - 1, n, key);
    }
  }

  /** A session that is open after a step, and existed before it, was open before it. */
  lemma NextGrows(config: Config, steps: seq<Step>, trace: seq<State>, m: nat, i: nat, key: IouKey)
    requires IsRun(config, steps, trace) && m <= i < |steps| && key in trace[m].rows && IsOpen(trace[i + 1].rows, key)
    ensures IsOpen(trace[i].rows, key) && Grows(config, steps, trace, i, i + 1, key)
  {
    NoSessionIsDroppedBetween(config, steps, trace, m, i, key);
    RunSafe(config, steps, trace, i);
    OpenSessionStep(config, trace[i], steps[i], key);
  }

  lemma OpenSessionStep(config: Config, s: State, step: Step, key: IouKey)
    requires Safe(s) && Enabled(s, step) && key in s.rows && IsOpen(Exec(config, s, step).rows, key)
    ensures IsOpen(s.rows, key)
    ensures Exec(config, s, step).rows[key].amount - s.rows[key].amount >= FeeEarned(config, s, step, key)
    ensures FeeEarned(config, s, step, key) == 0 ==> Exec(config, s, step).rows[key] == s.rows[key]
  {
    if step.Requested? && Check(config, s.rows, step.payment).Accepted? {
      AcceptedPayment(config, s.rows, step.payment);
    }
  }

  lemma {:induction false} NoSessionIsDroppedBetween(
      config: Config, steps: seq<Step>, trace: seq<State>, m: nat, n: nat, key: IouKey)
    requires IsRun(config, steps, trace) && m <= n <= |steps| && key in trace[m].rows
    ensures key in trace[n].rows
  {
    if m < n {
      NoSessionIsDroppedBetween(config, steps, trace, m, n - 1, key);
      NoSessionIsDropped(config, steps, trace, n - 1, key);
    }
  }

  /**
   A claim writes back the row as it was listed. The claimed row is worth what the open session was worth
   right before if and only if no request was accepted in the session since it was listed.
   */
  lemma SettlingKeepsTheAmount(config: Config, steps: seq<Step>, trace: seq<State>, m: nat, n: nat, key: IouKey)
    requires IsRun(config, steps, trace) && m <= n < |steps|
    requires IsOpen(trace[m].rows, key) && IsOpen(trace[n].rows, key)
    requires steps[n] == Settled(key, trace[m].rows[key])
    ensures trace[n + 1].rows[key].claimed
    ensures trace[n + 1].rows[key].amount == trace[n].rows[key].amount
            <==> Earned(config, steps, trace, key, m) == Earned(config, steps, trace, key, n)
  {
    OpenSessionGrows(config, steps, trace, m, n, key);
    EarnedGrows(config, steps, trace, m, n, key);
  }

  // ---------------------------------------------------------------- a claim that comes too late

  const SERVICE := Config(9, 1, 5)
  const SESSION := IouKey(1, 2_000_000)

  function PaymentOf(amount: int): Payment {
    Payment(Some(Iou(SESSION, 9, amount, 5, 1, 0, true)), 1, 0, 10)
  }

  function UnclaimedRow(amount: int): IouRow {
    IouRow(amount, 0, 5, false)
  }

  const LATE_STEPS := [
    Requested(PaymentOf(1)), Listed(0, 3_000_000, 1), Requested(PaymentOf(2)), Settled(SESSION, UnclaimedRow(1))]

  const LISTED := {(SESSION, UnclaimedRow(1))}

  const LATE_TRACE := [
    State(map[], {}),
    State(map[SESSION := UnclaimedRow(1)], {}),
    State(map[SESSION := UnclaimedRow(1)], LISTED),
    State(map[SESSION := UnclaimedRow(2)], LISTED),
    State(map[SESSION := UnclaimedRow(1).(claimed := true)], LISTED)]

  lemma Paying(rows: Table, amount: int)
    requires (rows == map[] && amount == 1) || (rows == map[SESSION := UnclaimedRow(1)] && amount == 2)
    ensures Check(SERVICE, rows, PaymentOf(amount)).Accepted?
    ensures Pay(SERVICE, rows, PaymentOf(amount)) == map[SESSION := UnclaimedRow(amount)]
  {
    if amount == 2 {
      OpenSessionIsUnique(rows, SESSION);
    }
    AcceptedPayment(SERVICE, rows, PaymentOf(amount));
  }

  /** A payment between listing and settling: the claimed row is worth less than what was earned in the session. */
  lemma LateClaimLosesAFee()
    ensures IsRun(SERVICE, LATE_STEPS, LATE_TRACE)
    ensures Earned(SERVICE, LATE_STEPS, LATE_TRACE, SESSION, 4) == 2
    ensures LATE_TRACE[4].rows[SESSION] == UnclaimedRow(1).(claimed := true)
  {
    Paying(LATE_TRACE[0].rows, 1);
    Paying(LATE_TRACE[2].rows, 2);
    var claimable := Claimable(LATE_TRACE[1].rows, 0, 3_000_000, 1);
    assert claimable == map[SESSION := UnclaimedRow(1)];
    assert Entries(claimable) == LISTED && {} + LISTED == LISTED;
    assert Upsert(LATE_TRACE[3].rows, SESSION, UnclaimedRow(1).(claimed := true)) == LATE_TRACE[4].rows;
    forall i | 0 <= i < |LATE_STEPS|
      ensures Enabled(LATE_TRACE[i], LATE_STEPS[i]) && LATE_TRACE[i + 1] == Exec(SERVICE, LATE_TRACE[i], LATE_STEPS[i])
    {
      assert i == 0 || i == 1 || i == 2 || i == 3;
    }
    assert Earned(SERVICE, LATE_STEPS, LATE_TRACE, SESSION, 1) == 1;
    assert Earned(SERVICE, LATE_STEPS, LATE_TRACE, SESSION, 2) == 1;
    assert Earned(SERVICE, LATE_STEPS, LATE_TRACE, SESSION, 3) == 2;
  }
}
