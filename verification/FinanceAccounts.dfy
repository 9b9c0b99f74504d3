/** What every account of the ledger holds, on every run: each balance is the sum of
    one column of the payments, fees, payouts or refunds. */
module FinanceAccounts {
  import opened Tables
  import opened Money
  import opened Finance
  import opened FinanceSafety
  import opened FinanceLaws
  import opened RefundLaws

  ghost function AccountColumn(ledger: map<LedgerKey, seq<Entry>>, account: Account, side: Side): map<LedgerKey, int> {
    map k | k in ledger :: if side == Credit then Net(ledger[k], account) else -Net(ledger[k], account)
  }

  /** Credits less debits for a credit balance, the reverse for a debit balance. */
  ghost function Balance(s: Books, account: Account, side: Side): int {
    Sum(AccountColumn(s.ledger, account, side))
  }

  // ----- the columns -----

  ghost function PaidColumn(payments: map<PaymentId, Payment>, online: bool): map<PaymentId, int> {
    map p | p in payments && IsPaid(payments[p].status) && payments[p].online == online :: payments[p].paid
  }

  ghost function FeeColumn(fees: map<PaymentId, nat>): map<PaymentId, int> {
    map p | p in fees :: fees[p]
  }

  /** The payout was set to PAID at some moment: its earnings are. */
  ghost predicate WasPaidOut(s: Books, payout: PayoutId) {
    payout in s.payouts && forall e | e in s.payouts[payout].items :: e in s.earnings && s.earnings[e].status == EarningPaid
  }

  ghost function PaidOutColumn(s: Books): map<PayoutId, int> {
    map payout | payout in s.payouts && WasPaidOut(s, payout) :: s.payouts[payout].gross
  }

  lemma PaidOutIsPosted(s: Books, payout: PayoutId)
    requires EarningsOk(s) && PayoutsOk(s) && payout in s.payouts
    ensures WasPaidOut(s, payout) <==> PayoutKey(payout) in s.ledger
  {
    ItemsAreTheEarnings(s, payout);
    assert PayoutOk(s, payout);
    var e :| e in s.payouts[payout].items;
  }

  ghost function CarriedOutColumn(refunds: map<RefundId, Refund>): map<RefundId, int> {
    map r | r in refunds && refunds[r].status == RefundSucceeded :: refunds[r].amount
  }

  /** A refund is posted exactly when it was carried out, with its own amount. */
  ghost predicate RefundPostingsOk(s: Books) {
    forall r ::
      && (RefundKey(r) in s.ledger <==> r in s.refunds && s.refunds[r].status == RefundSucceeded)
      && (RefundKey(r) in s.ledger ==>
            s.ledger[RefundKey(r)] == [Entry(ClientRefunds, Debit, s.refunds[r].amount),
                                       Entry(ProviderCash, Credit, s.refunds[r].amount)])
  }

  // ----- one posting -----

  lemma {:induction false} ZerosAddNothing(entries: seq<Entry>, account: Account)
    requires forall i | 0 <= i < |entries| :: entries[i].amount >= 0
    ensures Net(WithoutZeros(entries), account) == Net(entries, account)
    decreases |entries|
  {
    if entries != [] {
      var rest, last := entries[..|entries| - 1], entries[|entries| - 1];
      ZerosAddNothing(rest, account);
      OneMore(WithoutZeros(rest), last);
      assert WithoutZeros(rest) + [] == WithoutZeros(rest);
    }
  }

  lemma ThreeEntries(e: Entry, f: Entry, g: Entry, account: Account)
    ensures Net([e, f, g], account) == EntryNet(e, account) + EntryNet(f, account) + EntryNet(g, account)
  {
    TwoEntries(e, f);
    OneMore([e, f], g);
    assert [e, f] + [g] == [e, f, g];
  }

  /** Cash is receivable from the driver, online money lies with the provider. */
  lemma SuccessNet(payment: Payment, account: Account)
    ensures Net(WithoutZeros(SuccessEntriesOf(payment)), account) ==
              if account == CashReceivable then if payment.online then 0 else -(payment.amount as int)
              else if account == ProviderClearing then if payment.online then -(payment.amount as int) else 0
              else if account == PlatformFeeRevenue then FeeOf(payment)
              else if account == DriverEarningsPayable then payment.amount - FeeOf(payment)
              else 0
  {
    var entries := SuccessEntriesOf(payment);
    ZerosAddNothing(entries, account);
    ThreeEntries(entries[0], entries[1], entries[2], account);
  }

  lemma PaymentPosting(s: Books, p: PaymentId, account: Account)
    requires PaymentsOk(s) && LedgerOk(s) && PaymentKey(p) in s.ledger
    ensures p in s.payments && IsPaid(s.payments[p].status) && p in s.fees
    ensures Net(s.ledger[PaymentKey(p)], account) ==
              if account == CashReceivable then if s.payments[p].online then 0 else -(s.payments[p].paid as int)
              else if account == ProviderClearing then if s.payments[p].online then -(s.payments[p].paid as int) else 0
              else if account == PlatformFeeRevenue then s.fees[p]
              else if account == DriverEarningsPayable then s.payments[p].paid - s.fees[p]
              else 0
  {
    assert PostingOk(s, PaymentKey(p));
    assert PaymentOk(s, p);
    SuccessNet(s.payments[p], account);
  }

  lemma PayoutPosting(s: Books, payout: PayoutId, account: Account)
    requires PayoutsOk(s) && LedgerOk(s) && PayoutKey(payout) in s.ledger
    ensures payout in s.payouts
    ensures Net(s.ledger[PayoutKey(payout)], account) ==
              if account == DriverEarningsPayable then -(s.payouts[payout].gross as int)
              else if account == CashOrBank then s.payouts[payout].gross
              else 0
  {
    assert PostingOk(s, PayoutKey(payout));
    assert PayoutOk(s, payout);
    TransferPosting(DriverEarningsPayable, CashOrBank, s.payouts[payout].gross);
  }

  lemma RefundPosting(s: Books, r: RefundId, account: Account)
    requires RefundPostingsOk(s) && RefundKey(r) in s.ledger
    ensures r in s.refunds && s.refunds[r].status == RefundSucceeded
    ensures Net(s.ledger[RefundKey(r)], account) ==
              if account == ClientRefunds then -(s.refunds[r].amount as int)
              else if account == ProviderCash then s.refunds[r].amount
              else 0
  {
    TransferPosting(ClientRefunds, ProviderCash, s.refunds[r].amount);
  }

  // ----- summing up -----

  /** Two columns have one sum if the rows of the second are rows of the first, under
      other keys, and the other rows of the first are zero. */
  lemma {:induction false} SameSum<K(!new), L(!new)>(m: map<K, int>, n: map<L, int>, key: L -> K)
    requires forall l | l in n :: key(l) in m && m[key(l)] == n[l]
    requires forall l, o | l in n && o in n && key(l) == key(o) :: l == o
    requires forall k | k in m && m[k] != 0 :: exists l :: l in n && key(l) == k
    ensures Sum(m) == Sum(n)
    decreases |n|
  {
    if n == map[] {
      SumOfZeros(m);
    } else {
      var l :| l in n;
      SumRemove(n, l);
      SumRemove(m, key(l));
      forall k | k in m - {key(l)} && (m - {key(l)})[k] != 0 ensures exists o :: o in n - {l} && key(o) == k {
        var o :| o in n && key(o) == k;
        assert o in n - {l};
      }
      SameSum(m - {key(l)}, n - {l}, key);
    }
  }

  // ----- the balances -----

  lemma PaymentRows(s: Books, p: PaymentId)
    requires PaymentsOk(s) && LedgerOk(s)
    ensures PaymentKey(p) in s.ledger <==> p in s.payments && IsPaid(s.payments[p].status)
    ensures PaymentKey(p) in s.ledger <==> p in s.fees
  {
    assert PaymentKey(p) in s.ledger ==> PostingOk(s, PaymentKey(p));
    if p in s.payments { assert PaymentOk(s, p); }
  }

  lemma AllPaymentRows(s: Books)
    requires PaymentsOk(s) && LedgerOk(s)
    ensures forall p :: PaymentKey(p) in s.ledger <==> p in s.payments && IsPaid(s.payments[p].status)
    ensures forall p :: PaymentKey(p) in s.ledger <==> p in s.fees
  {
    forall p
      ensures PaymentKey(p) in s.ledger <==> p in s.payments && IsPaid(s.payments[p].status)
      ensures PaymentKey(p) in s.ledger <==> p in s.fees
    {
      PaymentRows(s, p);
    }
  }

  /** What comes in: online to provider_clearing, cash to cash_receivable. */
  lemma IncomeBalance(s: Books, online: bool)
    requires MoneyOk(s) && RefundPostingsOk(s)
    ensures Balance(s, if online then ProviderClearing else CashReceivable, Debit) == Sum(PaidColumn(s.payments, online))
  {
    var account := if online then ProviderClearing else CashReceivable;
    AllPaymentRows(s);
    forall k | k in s.ledger
      ensures Net(s.ledger[k], account) ==
                if k.PaymentKey? && k.payment in PaidColumn(s.payments, online) then -(s.payments[k.payment].paid as int) else 0
    {
      match k
      case PaymentKey(p) => PaymentPosting(s, p, account);
      case PayoutKey(payout) => PayoutPosting(s, payout, account);
      case RefundKey(r) => RefundPosting(s, r, account);
    }
    SameSum(AccountColumn(s.ledger, account, Debit), PaidColumn(s.payments, online), (p: PaymentId) => PaymentKey(p));
  }

  lemma FeeNets(s: Books)
    requires MoneyOk(s) && RefundPostingsOk(s)
    ensures forall k | k in s.ledger ::
              Net(s.ledger[k], PlatformFeeRevenue) ==
              if k.PaymentKey? && k.payment in FeeColumn(s.fees) then FeeColumn(s.fees)[k.payment] else 0
  {
    forall k | k in s.ledger
      ensures Net(s.ledger[k], PlatformFeeRevenue) ==
                if k.PaymentKey? && k.payment in FeeColumn(s.fees) then FeeColumn(s.fees)[k.payment] else 0
    {
      match k
      case PaymentKey(p) => PaymentPosting(s, p, PlatformFeeRevenue);
      case PayoutKey(payout) => PayoutPosting(s, payout, PlatformFeeRevenue);
      case RefundKey(r) => RefundPosting(s, r, PlatformFeeRevenue);
    }
  }

  lemma FeeBalance(s: Books)
    requires MoneyOk(s) && RefundPostingsOk(s)
    ensures Balance(s, PlatformFeeRevenue, Credit) == Sum(FeeColumn(s.fees))
  {
    FeeNets(s);
    var column := AccountColumn(s.ledger, PlatformFeeRevenue, Credit);
    forall p | p in FeeColumn(s.fees) ensures PaymentKey(p) in column && column[PaymentKey(p)] == FeeColumn(s.fees)[p] {
      PaymentRows(s, p);
    }
    SameSum(column, FeeColumn(s.fees), (p: PaymentId) => PaymentKey(p));
  }

  lemma PayoutBalance(s: Books)
    requires MoneyOk(s) && RefundPostingsOk(s)
    ensures Balance(s, CashOrBank, Credit) == Sum(PaidOutColumn(s))
  {
    forall k | k in s.ledger
      ensures Net(s.ledger[k], CashOrBank) ==
                if k.PayoutKey? && k.payout in PaidOutColumn(s) then s.payouts[k.payout].gross else 0
    {
      match k
      case PaymentKey(p) => PaymentPosting(s, p, CashOrBank);
      case PayoutKey(payout) =>
        PayoutPosting(s, payout, CashOrBank);
        PaidOutIsPosted(s, payout);
      case RefundKey(r) => RefundPosting(s, r, CashOrBank);
    }
    forall payout | payout in PaidOutColumn(s) ensures PayoutKey(payout) in s.ledger {
      PaidOutIsPosted(s, payout);
    }
    SameSum(AccountColumn(s.ledger, CashOrBank, Credit), PaidOutColumn(s), (payout: PayoutId) => PayoutKey(payout));
  }

  lemma RefundNets(s: Books, account: Account, side: Side)
    requires MoneyOk(s) && RefundPostingsOk(s)
    requires (account == ClientRefunds && side == Debit) || (account == ProviderCash && side == Credit)
    ensures forall k | k in s.ledger ::
              AccountColumn(s.ledger, account, side)[k] ==
              if k.RefundKey? && k.refund in CarriedOutColumn(s.refunds) then s.refunds[k.refund].amount else 0
  {
    forall k | k in s.ledger
      ensures AccountColumn(s.ledger, account, side)[k] ==
                if k.RefundKey? && k.refund in CarriedOutColumn(s.refunds) then s.refunds[k.refund].amount else 0
    {
      match k
      case PaymentKey(p) => PaymentPosting(s, p, account);
      case PayoutKey(payout) => PayoutPosting(s, payout, account);
      case RefundKey(r) => RefundPosting(s, r, account);
    }
  }

  /** What goes back: from the provider's cash, on account of client refunds. */
  lemma RefundBalance(s: Books, account: Account, side: Side)
    requires MoneyOk(s) && RefundPostingsOk(s)
    requires (account == ClientRefunds && side == Debit) || (account == ProviderCash && side == Credit)
    ensures Balance(s, account, side) == Sum(CarriedOutColumn(s.refunds))
  {
    RefundNets(s, account, side);
    SameSum(AccountColumn(s.ledger, account, side), CarriedOutColumn(s.refunds), (r: RefundId) => RefundKey(r));
  }

  /** The trial balance: cash_receivable is owed what was paid in cash,
      provider_clearing what was paid online, the platform has its fees, payouts went
      out through cash_or_bank, and refunds through provider_cash. */
  ghost predicate AccountsOk(s: Books) {
    && Balance(s, CashReceivable, Debit) == Sum(PaidColumn(s.payments, false))
    && Balance(s, ProviderClearing, Debit) == Sum(PaidColumn(s.payments, true))
    && Balance(s, PlatformFeeRevenue, Credit) == Sum(FeeColumn(s.fees))
    && Balance(s, CashOrBank, Credit) == Sum(PaidOutColumn(s))
    && Balance(s, ClientRefunds, Debit) == Sum(CarriedOutColumn(s.refunds))
    && Balance(s, ProviderCash, Credit) == Sum(CarriedOutColumn(s.refunds))
  }

  lemma BalancesAreColumns(s: Books)
    requires MoneyOk(s) && RefundPostingsOk(s)
    ensures AccountsOk(s)
  {
    IncomeBalance(s, false);
    IncomeBalance(s, true);
    FeeBalance(s);
    PayoutBalance(s);
    RefundBalance(s, ClientRefunds, Debit);
    RefundBalance(s, ProviderCash, Credit);
  }

  // ----- every run -----

  lemma FrameKeepsPostings(s: Books, t: Books)
    requires RefundPostingsOk(s) && RefundFrame(s, t)
    ensures RefundPostingsOk(t)
  {
  }

  lemma RequestKeepsPostings(s: Books, t: Books, r: RefundId)
    requires RefundPostingsOk(s) && r !in s.refunds && r in t.refunds && t == s.(refunds := s.refunds[r := t.refunds[r]])
    requires t.refunds[r].status == RefundRequested
    ensures RefundPostingsOk(t)
  {
  }

  lemma RoundKeepsPostings(s: Books, t: Books, read: RefundRead)
    requires RefundPostingsOk(s) && RefundProcessed(s, t, read)
    ensures RefundPostingsOk(t)
  {
  }

  lemma StepKeepsPostings(s: Books, step: Step)
    requires BooksOk(s) && RefundPostingsOk(s) && Enabled(s, step)
    ensures RefundPostingsOk(Apply(s, step))
  {
    match step
    case RequestRefundStep(p, amount, refund) =>
      if Attempt(s, step).Committed? {
        RefundIsAllowed(s, p, amount, refund);
        RequestKeepsPostings(s, Apply(s, step), refund);
      }
    case ProcessRefundStep(read) =>
      if Attempt(s, step).Committed? {
        ProcessRefundEffect(s, read);
        RoundKeepsPostings(s, Apply(s, step), read);
      }
    case _ =>
      OtherStepIsFrame(s, step);
      FrameKeepsPostings(s, Apply(s, step));
  }

  /** On every run each account other than driver_earnings_payable (whose balance is
      that of RunKeepsMirror) holds exactly the sum of its column. */
  lemma {:induction false} RunKeepsAccounts(s: Books, steps: seq<Step>)
    requires BooksOk(s) && RefundPostingsOk(s) && Run(s, steps)
    ensures AccountsOk(Exec(s, steps)) && RefundPostingsOk(Exec(s, steps))
    decreases |steps|
  {
    if steps == [] {
      BalancesAreColumns(s);
    } else {
      StepKeepsBooks(s, steps[0]);
      StepKeepsPostings(s, steps[0]);
      RunKeepsAccounts(Apply(s, steps[0]), steps[1..]);
    }
  }

  lemma EmptyBooksHaveNoRefunds()
    ensures RefundPostingsOk(EMPTY_BOOKS)
  {
  }
}
