/** Fees, status transitions and the balance check of packages/payments. */
module Money {
  import opened Tables

  datatype PaymentStatus =
    | Created | RequiresAction | Processing | Authorized | Succeeded
    | Failed | Cancelled | Expired | PartiallyRefunded | Refunded

  datatype IntentStatus =
    | IntentCreated | IntentPending | IntentRequiresAction | IntentProcessing
    | IntentSucceeded | IntentFailed | IntentCancelled | IntentExpired

  predicate PaymentMayBecome(current: PaymentStatus, next: PaymentStatus) {
    match current
    case Created => next in {RequiresAction, Processing, Succeeded, Failed, Cancelled, Expired}
    case RequiresAction => next in {Processing, Succeeded, Failed, Cancelled, Expired}
    case Processing => next in {Authorized, Succeeded, Failed, Cancelled, Expired}
    case Authorized => next in {Succeeded, Cancelled, Expired}
    case Succeeded => next in {PartiallyRefunded, Refunded}
    case PartiallyRefunded => next == Refunded
    case Failed => false
    case Cancelled => false
    case Expired => false
    case Refunded => false
  }

  function TransitionPayment(current: PaymentStatus, next: PaymentStatus): Tx<PaymentStatus> {
    if current == next then Committed(current)
    else if PaymentMayBecome(current, next) then Committed(next)
    else Rejected("Invalid payment transition")
  }

  predicate IntentMayBecome(current: IntentStatus, next: IntentStatus) {
    match current
    case IntentCreated => next != IntentCreated
    case IntentPending => next != IntentCreated && next != IntentPending
    case IntentRequiresAction =>
      next in {IntentProcessing, IntentSucceeded, IntentFailed, IntentCancelled, IntentExpired}
    case IntentProcessing => next in {IntentSucceeded, IntentFailed, IntentCancelled, IntentExpired}
    case _ => false
  }

  function TransitionIntent(current: IntentStatus, next: IntentStatus): Tx<IntentStatus> {
    if current == next then Committed(current)
    else if IntentMayBecome(current, next) then Committed(next)
    else Rejected("Invalid payment intent transition")
  }

  /** The statuses a payment has once money came in. */
  predicate IsPaid(status: PaymentStatus) {
    status == Succeeded || status == PartiallyRefunded || status == Refunded
  }

  /** The statuses that block a second payment for the same target. */
  predicate IsActive(status: PaymentStatus) {
    status == Created || status == RequiresAction || status == Processing || status == Authorized || status == Succeeded
  }

  /** No path of legal transitions leads back: from a paid status to an unpaid
      one, from an inactive status to an active one, or out of a dead end into
      success. */
  lemma {:induction false} TransitionsAreOneWay(path: seq<PaymentStatus>)
    requires |path| >= 1
    requires forall i | 0 <= i < |path| - 1 :: TransitionPayment(path[i], path[i + 1]).Committed?
    ensures IsPaid(path[0]) ==> IsPaid(path[|path| - 1])
    ensures !IsActive(path[0]) ==> !IsActive(path[|path| - 1])
    ensures path[0] in {Failed, Cancelled, Expired} ==> path[|path| - 1] == path[0]
  {
    if |path| > 1 {
      assert TransitionPayment(path[0], path[1]).Committed?;
      TransitionsAreOneWay(path[1..]);
    }
  }

  // ----- fees -----

  const FULL_BPS := 10_000

  /** BigInt division, which truncates toward zero. */
  function Truncate(a: int, b: nat): int
    requires b > 0
  {
    if a >= 0 then a / b else -((-a) / b)
  }

  function CalculateBps(amountMinor: int, bps: int): Tx<int> {
    if bps < 0 then Rejected("Basis points must be a non-negative integer")
    else Committed(Truncate(amountMinor * bps + 9_999, FULL_BPS))
  }

  function CalculateFee(baseMinor: int, feeRateBps: int, fixedFeeMinor: int): Tx<int> {
    if baseMinor < 0 then Rejected("Money amount must not be negative")
    else if fixedFeeMinor < 0 then Rejected("Fixed fee must not be negative")
    else
      match CalculateBps(baseMinor, feeRateBps)
      case Rejected(code) => Rejected(code)
      case Committed(fee) => Committed(fee + fixedFeeMinor)
  }

  /** The percentage fee is the exact ceiling of amount * bps / 10000. */
  lemma FeeIsCeiling(amountMinor: nat, bps: nat)
    ensures CalculateBps(amountMinor, bps).Committed?
    ensures var fee := CalculateBps(amountMinor, bps).state;
            && 0 <= fee
            && FULL_BPS * (fee - 1) < amountMinor * bps <= FULL_BPS * fee
            && (bps <= FULL_BPS ==> fee <= amountMinor)
  {
    var product := amountMinor * bps;
    assert 0 <= product;
    if bps <= FULL_BPS {
      assert product <= amountMinor * FULL_BPS;
    }
  }

  function Bps(amountMinor: nat, bps: nat): (fee: nat)
    ensures Committed(fee) == CalculateBps(amountMinor, bps)
  {
    FeeIsCeiling(amountMinor, bps);
    CalculateBps(amountMinor, bps).state
  }

  function Total(amounts: seq<nat>): nat {
    if amounts == [] then 0 else amounts[0] + Total(amounts[1..])
  }

  function TotalFees(amounts: seq<nat>, bps: nat): nat {
    if amounts == [] then 0 else Bps(amounts[0], bps) + TotalFees(amounts[1..], bps)
  }

  /** Charging n payments one by one costs at most n - 1 minor units more than
      charging their total once, and never less. */
  lemma {:induction false} SplittingCostsAtMostRounding(amounts: seq<nat>, bps: nat)
    requires amounts != []
    ensures Bps(Total(amounts), bps) <= TotalFees(amounts, bps) <= Bps(Total(amounts), bps) + |amounts| - 1
  {
    if |amounts| > 1 {
      SplittingCostsAtMostRounding(amounts[1..], bps);
      TwoFees(amounts[0], Total(amounts[1..]), bps);
    } else {
      assert amounts[1..] == [];
    }
  }

  lemma TwoFees(a: nat, b: nat, bps: nat)
    ensures Bps(a + b, bps) <= Bps(a, bps) + Bps(b, bps) <= Bps(a + b, bps) + 1
  {
    FeeIsCeiling(a, bps);
    FeeIsCeiling(b, bps);
    FeeIsCeiling(a + b, bps);
    assert (a + b) * bps == a * bps + b * bps;
  }

  // ----- the ledger -----

  datatype Account =
    | ProviderClearing | CashReceivable | PlatformFeeRevenue | DriverEarningsPayable
    | CashOrBank | ClientRefunds | ProviderCash

  datatype Side = Debit | Credit

  datatype Entry = Entry(account: Account, side: Side, amount: int)

  function SideTotal(entries: seq<Entry>, side: Side): int {
    if entries == [] then 0
    else
      var last := entries[|entries| - 1];
      SideTotal(entries[..|entries| - 1], side) + if last.side == side then last.amount else 0
  }

  predicate Balanced(entries: seq<Entry>) {
    && |entries| >= 2
    && (forall i | 0 <= i < |entries| :: entries[i].amount > 0)
    && SideTotal(entries, Debit) == SideTotal(entries, Credit)
  }

  /** assertBalancedLedger, for entries of one currency: it throws exactly on
      the unbalanced ones. */
  method AssertBalancedLedger(entries: seq<Entry>) returns (ok: bool)
    ensures ok <==> Balanced(entries)
  {
    if |entries| < 2 { return false; }
    var debit, credit := 0, 0;
    var i := 0;
    while i < |entries|
      invariant 0 <= i <= |entries|
      invariant debit == SideTotal(entries[..i], Debit) && credit == SideTotal(entries[..i], Credit)
      invariant forall j | 0 <= j < i :: entries[j].amount > 0
    {
      if entries[i].amount <= 0 { return false; }
      assert entries[..i + 1][..i] == entries[..i];
      if entries[i].side == Debit {
        debit := debit + entries[i].amount;
      } else {
        credit := credit + entries[i].amount;
      }
      i := i + 1;
    }
    assert entries[..i] == entries;
    return debit == credit;
  }

  function EntryNet(e: Entry, account: Account): int {
    if e.account != account then 0 else if e.side == Credit then e.amount else -e.amount
  }

  /** What a posting adds to an account: credits less debits. */
  function Net(entries: seq<Entry>, account: Account): int {
    if entries == [] then 0 else Net(entries[..|entries| - 1], account) + EntryNet(entries[|entries| - 1], account)
  }

  function WithoutZeros(entries: seq<Entry>): seq<Entry> {
    if entries == [] then []
    else
      var last := entries[|entries| - 1];
      WithoutZeros(entries[..|entries| - 1]) + if last.amount > 0 then [last] else []
  }

  const FEE_RATE_BPS := 1_000

  /** The platform fee of a payment, capped by the payment. */
  function PlatformFee(amount: nat): nat {
    if Bps(amount, FEE_RATE_BPS) > amount then amount else Bps(amount, FEE_RATE_BPS)
  }

  function SuccessEntries(cash: bool, amount: int, fee: int, net: int): seq<Entry> {
    [Entry(if cash then CashReceivable else ProviderClearing, Debit, amount),
     Entry(PlatformFeeRevenue, Credit, fee),
     Entry(DriverEarningsPayable, Credit, net)]
  }

  /** The cap never bites: fee and net split the amount, the fee is at least one
      unit, and net is zero only for a payment of one unit. */
  lemma SplitIsExact(amount: nat)
    requires amount > 0
    ensures CalculateFee(amount, FEE_RATE_BPS, 0) == Committed(PlatformFee(amount))
    ensures 1 <= PlatformFee(amount) <= amount
    ensures amount - PlatformFee(amount) == 0 <==> amount == 1
  {
    FeeIsCeiling(amount, FEE_RATE_BPS);
  }

  lemma OneMore(entries: seq<Entry>, e: Entry)
    ensures forall side :: SideTotal(entries + [e], side) == SideTotal(entries, side) + if e.side == side then e.amount else 0
    ensures forall account :: Net(entries + [e], account) == Net(entries, account) + EntryNet(e, account)
    ensures WithoutZeros(entries + [e]) == WithoutZeros(entries) + if e.amount > 0 then [e] else []
  {
    assert (entries + [e])[..|entries|] == entries;
  }

  lemma OneEntry(e: Entry)
    ensures forall side :: SideTotal([e], side) == if e.side == side then e.amount else 0
    ensures forall account :: Net([e], account) == EntryNet(e, account)
    ensures WithoutZeros([e]) == if e.amount > 0 then [e] else []
  {
    OneMore([], e);
    assert [] + [e] == [e];
  }

  lemma TwoEntries(e: Entry, f: Entry)
    ensures forall side ::
              SideTotal([e, f], side) == (if e.side == side then e.amount else 0) + if f.side == side then f.amount else 0
    ensures WithoutZeros([e, f]) == (if e.amount > 0 then [e] else []) + if f.amount > 0 then [f] else []
    ensures forall account :: Net([e, f], account) == EntryNet(e, account) + EntryNet(f, account)
  {
    OneEntry(e);
    OneMore([e], f);
    assert [e] + [f] == [e, f];
  }

  lemma SuccessPosting(cash: bool, amount: int, fee: int, net: int)
    requires amount > 0 && fee > 0 && net >= 0 && fee + net == amount
    ensures var entries := WithoutZeros(SuccessEntries(cash, amount, fee, net));
            Balanced(entries) && Net(entries, DriverEarningsPayable) == net
  {
    var all := SuccessEntries(cash, amount, fee, net);
    var two := [all[0], all[1]];
    TwoEntries(all[0], all[1]);
    OneMore(two, all[2]);
    assert two + [all[2]] == all;
    assert WithoutZeros(two) == two;
    assert WithoutZeros(all) == if net > 0 then all else two;
  }

  /** The posting of a successful payment passes the balance check exactly when
      the amount is positive, a net of zero included. */
  lemma SuccessPostingBalances(cash: bool, amount: nat)
    ensures var fee := PlatformFee(amount);
            var entries := WithoutZeros(SuccessEntries(cash, amount, fee, amount - fee));
            && (Balanced(entries) <==> amount > 0)
            && (amount > 0 ==> Net(entries, DriverEarningsPayable) == amount - fee)
  {
    if amount > 0 {
      SplitIsExact(amount);
      SuccessPosting(cash, amount, PlatformFee(amount), amount - PlatformFee(amount));
    } else {
      FeeIsCeiling(0, FEE_RATE_BPS);
      NothingToPost(cash);
    }
  }

  lemma NothingToPost(cash: bool)
    ensures WithoutZeros(SuccessEntries(cash, 0, 0, 0)) == []
  {
    var all := SuccessEntries(cash, 0, 0, 0);
    TwoEntries(all[0], all[1]);
    OneMore([all[0], all[1]], all[2]);
    assert [all[0], all[1]] + [all[2]] == all;
  }

  function Transfer(debit: Account, credit: Account, amount: int): seq<Entry> {
    [Entry(debit, Debit, amount), Entry(credit, Credit, amount)]
  }

  /** Moving money from one account to another balances, and touches no third one. */
  lemma TransferBalances(debit: Account, credit: Account, other: Account, amount: int)
    requires debit != credit && other != debit && other != credit && amount > 0
    ensures Balanced(Transfer(debit, credit, amount)) && Net(Transfer(debit, credit, amount), other) == 0
  {
    TransferPosting(debit, credit, amount);
  }

  lemma TransferPosting(debit: Account, credit: Account, amount: int)
    requires debit != credit
    ensures var entries := WithoutZeros(Transfer(debit, credit, amount));
            && (Balanced(entries) <==> amount > 0)
            && (amount > 0 ==> entries == Transfer(debit, credit, amount))
    ensures forall account ::
              Net(Transfer(debit, credit, amount), account)
              == if account == debit then -amount else if account == credit then amount else 0
  {
    TwoEntries(Entry(debit, Debit, amount), Entry(credit, Credit, amount));
  }
}
