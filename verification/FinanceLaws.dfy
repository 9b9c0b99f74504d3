/** Laws of the books over whole runs: what drivers are owed, dead payments,
    repeated webhooks, disjoint payouts, and the balance of the ledger. */
module FinanceLaws {
  import opened Tables
  import opened Money
  import opened Finance
  import opened FinanceSafety

  // ----- the ledger and the earnings table are two views of one debt -----

  ghost function PayableColumn(ledger: map<LedgerKey, seq<Entry>>): map<LedgerKey, int> {
    map k | k in ledger :: Net(ledger[k], DriverEarningsPayable)
  }

  ghost function UnpaidColumn(earnings: map<PaymentId, Earning>): map<PaymentId, int> {
    map e | e in earnings && earnings[e].status != EarningPaid :: earnings[e].net
  }

  /** The net of paid payments that got no earning, because no driver was found. */
  ghost function OrphanColumn(payments: map<PaymentId, Payment>, earnings: map<PaymentId, Earning>): map<PaymentId, int> {
    map p | p in payments && IsPaid(payments[p].status) && p !in earnings :: NetOf(payments[p])
  }

  /** The balance of driver_earnings_payable. */
  ghost function PayableBalance(s: Books): int {
    Sum(PayableColumn(s.ledger))
  }

  /** The balance equals what is owed to drivers plus what no driver can claim. */
  ghost predicate Mirror(s: Books) {
    PayableBalance(s) == Sum(UnpaidColumn(s.earnings)) + Sum(OrphanColumn(s.payments, s.earnings))
  }

  lemma PostingAddsNet(ledger: map<LedgerKey, seq<Entry>>, k: LedgerKey, entries: seq<Entry>)
    requires k !in ledger
    ensures Sum(PayableColumn(ledger[k := entries])) == Sum(PayableColumn(ledger)) + Net(entries, DriverEarningsPayable)
  {
    assert PayableColumn(ledger[k := entries]) == PayableColumn(ledger)[k := Net(entries, DriverEarningsPayable)];
    SumInsert(PayableColumn(ledger), k, Net(entries, DriverEarningsPayable));
  }

  lemma NewEarningIsUnpaid(earnings: map<PaymentId, Earning>, p: PaymentId, earning: Earning)
    requires p !in earnings && earning.status != EarningPaid
    ensures Sum(UnpaidColumn(earnings[p := earning])) == Sum(UnpaidColumn(earnings)) + earning.net
  {
    assert UnpaidColumn(earnings[p := earning]) == UnpaidColumn(earnings)[p := earning.net];
    SumInsert(UnpaidColumn(earnings), p, earning.net);
  }

  lemma EarnedIsNoOrphan(payments: map<PaymentId, Payment>, earnings: map<PaymentId, Earning>, p: PaymentId,
                         payment: Payment, earning: Earning)
    requires p in payments && !IsPaid(payments[p].status)
    ensures OrphanColumn(payments[p := payment], earnings[p := earning]) == OrphanColumn(payments, earnings)
  {
  }

  lemma DriverlessIsOrphan(payments: map<PaymentId, Payment>, earnings: map<PaymentId, Earning>, p: PaymentId,
                           payment: Payment)
    requires p in payments && !IsPaid(payments[p].status) && IsPaid(payment.status) && p !in earnings
    ensures Sum(OrphanColumn(payments[p := payment], earnings)) == Sum(OrphanColumn(payments, earnings)) + NetOf(payment)
  {
    assert OrphanColumn(payments[p := payment], earnings) == OrphanColumn(payments, earnings)[p := NetOf(payment)];
    SumInsert(OrphanColumn(payments, earnings), p, NetOf(payment));
  }

  lemma UnpaidIsNoOrphan(payments: map<PaymentId, Payment>, earnings: map<PaymentId, Earning>, p: PaymentId,
                         payment: Payment)
    requires (p in payments ==> !IsPaid(payments[p].status)) && !IsPaid(payment.status)
    ensures OrphanColumn(payments[p := payment], earnings) == OrphanColumn(payments, earnings)
  {
  }

  lemma SuccessRaisesBalance(s: Books, t: Books, p: PaymentId, driver: Option<DriverId>, now: Time)
    requires FirstSuccess(s, t, p, driver, now)
    ensures PayableBalance(t) == PayableBalance(s) + NetOf(s.payments[p])
  {
    var payment := s.payments[p];
    SuccessPostingBalances(!payment.online, payment.amount);
    PostingAddsNet(s.ledger, PaymentKey(p), WithoutZeros(SuccessEntriesOf(payment)));
  }

  lemma SuccessRaisesDebt(s: Books, t: Books, p: PaymentId, driver: Option<DriverId>, now: Time)
    requires FirstSuccess(s, t, p, driver, now)
    ensures Sum(UnpaidColumn(t.earnings)) + Sum(OrphanColumn(t.payments, t.earnings))
         == Sum(UnpaidColumn(s.earnings)) + Sum(OrphanColumn(s.payments, s.earnings)) + NetOf(s.payments[p])
  {
    if driver.Some? && NetOf(s.payments[p]) > 0 {
      var payment := s.payments[p];
      NewEarningIsUnpaid(s.earnings, p, NewEarning(payment, driver.value, now));
      EarnedIsNoOrphan(s.payments, s.earnings, p, payment.(status := Succeeded, paid := payment.amount),
                       NewEarning(payment, driver.value, now));
    } else {
      var payment := s.payments[p];
      DriverlessIsOrphan(s.payments, s.earnings, p, payment.(status := Succeeded, paid := payment.amount));
    }
  }

  lemma SuccessKeepsMirror(s: Books, t: Books, p: PaymentId, driver: Option<DriverId>, now: Time)
    requires Mirror(s) && FirstSuccess(s, t, p, driver, now)
    ensures Mirror(t)
  {
    SuccessRaisesBalance(s, t, p, driver, now);
    SuccessRaisesDebt(s, t, p, driver, now);
  }

  lemma PaidOutLeavesUnpaid(earnings: map<PaymentId, Earning>, payout: PayoutId, items: set<PaymentId>)
    requires forall e | e in earnings :: e in items <==> earnings[e].payout == Some(payout)
    requires forall e | e in items :: e in earnings && earnings[e].status != EarningPaid
    ensures Sum(UnpaidColumn(PaidOut(earnings, payout))) == Sum(UnpaidColumn(earnings)) - Sum(NetColumn(earnings, items))
  {
    var unpaid := UnpaidColumn(earnings);
    SumSplit(unpaid, items);
    assert UnpaidColumn(PaidOut(earnings, payout)) == unpaid - items;
    assert (map e | e in items :: unpaid[e]) == NetColumn(earnings, items);
  }

  lemma PaidOutOrphans(payments: map<PaymentId, Payment>, earnings: map<PaymentId, Earning>, payout: PayoutId)
    ensures OrphanColumn(payments, PaidOut(earnings, payout)) == OrphanColumn(payments, earnings)
  {
  }

  lemma ItemsAreTheEarnings(s: Books, payout: PayoutId)
    requires EarningsOk(s) && PayoutsOk(s) && payout in s.payouts
    ensures forall e | e in s.earnings :: e in s.payouts[payout].items <==> s.earnings[e].payout == Some(payout)
    ensures forall e | e in s.payouts[payout].items ::
              e in s.earnings && (s.earnings[e].status == EarningPaid <==> PayoutKey(payout) in s.ledger)
  {
    forall e | e in s.earnings ensures e in s.payouts[payout].items <==> s.earnings[e].payout == Some(payout) {
      ItemIsTheEarning(s, payout, e);
    }
    assert PayoutOk(s, payout);
    forall e | e in s.payouts[payout].items
      ensures e in s.earnings && (s.earnings[e].status == EarningPaid <==> PayoutKey(payout) in s.ledger)
    {
      assert EarningOk(s, e);
    }
  }

  lemma ItemIsTheEarning(s: Books, payout: PayoutId, e: PaymentId)
    requires EarningsOk(s) && PayoutsOk(s) && payout in s.payouts && e in s.earnings
    ensures e in s.payouts[payout].items <==> s.earnings[e].payout == Some(payout)
  {
    assert PayoutOk(s, payout) && EarningOk(s, e);
  }

  lemma FirstPayoutKeepsMirror(s: Books, t: Books, payout: PayoutId)
    requires Mirror(s) && EarningsOk(s) && PayoutsOk(s)
    requires PayoutSet(s, t, payout, PayoutPaid) && PayoutKey(payout) !in s.ledger
    ensures Mirror(t)
  {
    var row := s.payouts[payout];
    assert PayoutOk(s, payout);
    TransferPosting(DriverEarningsPayable, CashOrBank, row.gross);
    PostingAddsNet(s.ledger, PayoutKey(payout), PayoutEntries(row));
    ItemsAreTheEarnings(s, payout);
    PaidOutLeavesUnpaid(s.earnings, payout, row.items);
    PaidOutOrphans(s.payments, s.earnings, payout);
  }

  lemma RefundOrphans(payments: map<PaymentId, Payment>, earnings: map<PaymentId, Earning>, p: PaymentId, payment: Payment)
    requires p in payments && IsPaid(payments[p].status) && IsPaid(payment.status) && payment.amount == payments[p].amount
    ensures OrphanColumn(payments[p := payment], earnings) == OrphanColumn(payments, earnings)
  {
  }

  lemma RefundKeepsMirror(s: Books, t: Books, read: RefundRead)
    requires Mirror(s) && RefundProcessed(s, t, read) && IsPaid(s.payments[read.refund.payment].status)
    ensures Mirror(t)
  {
    TransferPosting(ClientRefunds, ProviderCash, read.refund.amount);
    PostingAddsNet(s.ledger, RefundKey(read.id), Transfer(ClientRefunds, ProviderCash, read.refund.amount));
    RefundOrphans(s.payments, s.earnings, read.refund.payment, t.payments[read.refund.payment]);
  }

  /** The columns that matter did not move. */
  ghost predicate SameDebt(s: Books, t: Books) {
    && t.ledger == s.ledger
    && UnpaidColumn(t.earnings) == UnpaidColumn(s.earnings)
    && OrphanColumn(t.payments, t.earnings) == OrphanColumn(s.payments, s.earnings)
  }

  lemma MarkKeepsMirror(s: Books, p: PaymentId, driver: Option<DriverId>, now: Time)
    requires MoneyOk(s) && Mirror(s) && MarkSucceeded(s, p, driver, now).Committed?
    ensures Mirror(MarkSucceeded(s, p, driver, now).state)
  {
    SuccessEffect(s, p, driver, now);
    if !IsPaid(s.payments[p].status) {
      SuccessKeepsMirror(s, MarkSucceeded(s, p, driver, now).state, p, driver, now);
    }
  }

  lemma WebhookKeepsMirror(s: Books, i: IntentId, read: IntentStatus, posted: IntentStatus, duplicate: bool,
                           driver: Option<DriverId>, now: Time)
    requires BooksOk(s) && Mirror(s)
    ensures var r := Webhook(s, i, read, posted, duplicate, driver, now); r.Committed? ==> Mirror(r.state)
  {
    var r := Webhook(s, i, read, posted, duplicate, driver, now);
    if r.Committed? && i in s.intents && !duplicate && posted == IntentSucceeded {
      var t := s.(intents := s.intents[i := s.intents[i].(status := TransitionIntent(read, posted).state)]);
      SameTables(s, t);
      MarkKeepsMirror(t, s.intents[i].payment, driver, now);
    }
  }

  lemma CashKeepsMirror(s: Books, p: PaymentId, read: SettlementStatus, received: bool, confirming: Option<DriverId>,
                        now: Time)
    requires BooksOk(s) && Mirror(s)
    ensures var r := ConfirmCash(s, p, read, received, confirming, now); r.Committed? ==> Mirror(r.state)
  {
    var r := ConfirmCash(s, p, read, received, confirming, now);
    if r.Committed? && received && read != SettlementConfirmed {
      var t := WithSettled(s, p, true);
      SameTables(s, t);
      MarkKeepsMirror(t, p, confirming, now);
    }
  }

  lemma CreationKeepsDebt(s: Books, t: Books, p: PaymentId, i: IntentId)
    requires EarningsOk(s) && PaymentCreated(s, t, p, i)
    ensures SameDebt(s, t)
  {
    UnpaidIsNoOrphan(s.payments, s.earnings, p, t.payments[p]);
  }

  lemma ExpiryKeepsDebt(s: Books, p: PaymentId)
    ensures SameDebt(s, ExpireStale(s, p))
  {
    if p in s.payments && Stale(s.payments[p]) {
      UnpaidIsNoOrphan(s.payments, s.earnings, p, s.payments[p].(status := Expired));
    }
  }

  lemma ReleaseKeepsDebt(s: Books, now: Time)
    ensures SameDebt(s, ReleaseEarnings(s, now))
  {
  }

  lemma ClaimKeepsDebt(s: Books, t: Books, driver: DriverId, ids: set<PaymentId>, payout: PayoutId)
    requires PayoutClaimed(s, t, driver, ids, payout)
    ensures SameDebt(s, t)
  {
  }

  lemma PayoutStepKeepsMirror(s: Books, step: Step)
    requires BooksOk(s) && Mirror(s) && (step.PayoutStep? || step.PayoutStatusStep?)
    ensures Mirror(Apply(s, step))
  {
    match step
    case PayoutStep(driver, ids, payout) =>
      ClaimIsAllOrNothing(s, driver, ids, payout);
      if CreatePayout(s, driver, ids, payout).Committed? {
        ClaimKeepsDebt(s, Apply(s, step), driver, AsSet(ids), payout);
      }
    case PayoutStatusStep(payout, status) =>
      if payout in s.payouts {
        assert PayoutOk(s, payout);
        PayoutIsDebitedOnce(s, payout, status);
        if status == PayoutPaid && PayoutKey(payout) !in s.ledger {
          FirstPayoutKeepsMirror(s, Apply(s, step), payout);
        }
      }
  }

  lemma RefundStepKeepsMirror(s: Books, step: Step)
    requires BooksOk(s) && Enabled(s, step) && Mirror(s) && (step.RequestRefundStep? || step.ProcessRefundStep?)
    ensures Mirror(Apply(s, step))
  {
    if Attempt(s, step).Committed? {
      match step {
        case RequestRefundStep(p, amount, refund) => RefundIsAllowed(s, p, amount, refund);
        case ProcessRefundStep(read) =>
          ProcessRefundEffect(s, read);
          RefundKeepsMirror(s, Apply(s, step), read);
      }
    }
  }

  lemma CreateStepKeepsMirror(s: Books, step: Step)
    requires BooksOk(s) && Enabled(s, step) && Mirror(s) && step.CreatePaymentStep?
    ensures Mirror(Apply(s, step))
  {
    if Attempt(s, step).Committed? && step.existing == None {
      CreationEffect(s, step.target, step.driver, step.online, step.amount, step.p, step.i, step.intentStatus, step.now);
      CreationKeepsDebt(s, Apply(s, step), step.p, step.i);
    }
  }

  lemma StepKeepsMirror(s: Books, step: Step)
    requires BooksOk(s) && Enabled(s, step) && Mirror(s)
    ensures Mirror(Apply(s, step))
  {
    match step
    case CreatePaymentStep(_, _, _, _, _, _, _, _, _) => CreateStepKeepsMirror(s, step);
    case WebhookStep(i, read, posted, duplicate, driver, now) =>
      WebhookKeepsMirror(s, i, read, posted, duplicate, driver, now);
    case CashStep(p, read, received, confirming, now) => CashKeepsMirror(s, p, read, received, confirming, now);
    case ExpireStep(p) => ExpiryKeepsDebt(s, p);
    case ReleaseStep(now) => ReleaseKeepsDebt(s, now);
    case RequestRefundStep(_, _, _) => RefundStepKeepsMirror(s, step);
    case ProcessRefundStep(_) => RefundStepKeepsMirror(s, step);
    case _ => PayoutStepKeepsMirror(s, step);
  }

  /** On every run the balance of driver_earnings_payable is the sum of netMinor
      over earnings not yet PAID, plus the net of payments without a driver. */
  lemma {:induction false} RunKeepsMirror(s: Books, steps: seq<Step>)
    requires BooksOk(s) && Mirror(s) && Run(s, steps)
    ensures Mirror(Exec(s, steps))
    decreases |steps|
  {
    if steps != [] {
      StepKeepsBooks(s, steps[0]);
      StepKeepsMirror(s, steps[0]);
      RunKeepsMirror(Apply(s, steps[0]), steps[1..]);
    }
  }

  lemma EmptyBooksMirror()
    ensures Mirror(EMPTY_BOOKS)
  {
    assert PayableColumn(map[]) == map[] && UnpaidColumn(map[]) == map[] && OrphanColumn(map[], map[]) == map[];
  }

  /** So the two views of the debt are equal exactly when every paid payment
      worth more than its fee has an earning. */
  lemma ViewsAgreeExactly(s: Books)
    requires Mirror(s)
    ensures PayableBalance(s) == Sum(UnpaidColumn(s.earnings)) <==>
              forall p | p in s.payments && IsPaid(s.payments[p].status) && p !in s.earnings :: NetOf(s.payments[p]) == 0
  {
    var orphans := OrphanColumn(s.payments, s.earnings);
    SumNonNegative(orphans);
    if forall p | p in orphans :: orphans[p] == 0 { SumOfZeros(orphans); }
    assert forall p | p in s.payments && IsPaid(s.payments[p].status) && p !in s.earnings ::
      orphans[p] == NetOf(s.payments[p]);
  }

  lemma {:induction false} SumOfZeros<K(!new)>(m: map<K, int>)
    requires forall k | k in m :: m[k] == 0
    ensures Sum(m) == 0
    decreases |m|
  {
    if m != map[] {
      var k :| k in m;
      SumRemove(m, k);
      SumOfZeros(m - {k});
    }
  }

  /** A first success leaves its net without an earning exactly when no driver
      was found and the payment is worth more than one minor unit. A booking's
      trip always has a driver; a parcel ordered without a trip never gets one. */
  lemma OrphanedExactly(s: Books, t: Books, p: PaymentId, driver: Option<DriverId>, now: Time)
    requires FirstSuccess(s, t, p, driver, now)
    ensures p !in t.earnings && NetOf(t.payments[p]) > 0 <==> driver == None && s.payments[p].amount > 1
  {
    SplitIsExact(s.payments[p].amount);
  }

  // ----- other laws -----

  ghost function SideColumn(ledger: map<LedgerKey, seq<Entry>>, side: Side): map<LedgerKey, int> {
    map k | k in ledger :: SideTotal(ledger[k], side)
  }

  /** Over the whole ledger debits equal credits. */
  lemma DebitsEqualCredits(s: Books)
    requires LedgerOk(s)
    ensures Sum(SideColumn(s.ledger, Debit)) == Sum(SideColumn(s.ledger, Credit))
  {
    forall k | k in s.ledger ensures SideTotal(s.ledger[k], Debit) == SideTotal(s.ledger[k], Credit) {
      assert PostingOk(s, k);
    }
    assert SideColumn(s.ledger, Debit) == SideColumn(s.ledger, Credit);
  }

  /** No earning is in two payouts. */
  lemma PayoutsAreDisjoint(s: Books, a: PayoutId, b: PayoutId)
    requires PayoutsOk(s) && a in s.payouts && b in s.payouts && a != b
    ensures s.payouts[a].items !! s.payouts[b].items
  {
    assert PayoutOk(s, a) && PayoutOk(s, b);
    forall e | e in s.payouts[a].items ensures e !in s.payouts[b].items {
      assert s.earnings[e].payout == Some(a);
    }
  }

  predicate Dead(status: PaymentStatus) {
    status == Expired || status == Failed || status == Cancelled
  }

  ghost predicate KeepsDead(s: Books, t: Books) {
    forall p | p in s.payments && Dead(s.payments[p].status) ::
      p in t.payments && t.payments[p].status == s.payments[p].status
  }

  lemma MarkKeepsDead(s: Books, p: PaymentId, driver: Option<DriverId>, now: Time)
    ensures var r := MarkSucceeded(s, p, driver, now); r.Committed? ==> KeepsDead(s, r.state)
  {
  }

  lemma RefundKeepsDead(s: Books, t: Books, read: RefundRead)
    requires RefundProcessed(s, t, read) && IsPaid(s.payments[read.refund.payment].status)
    ensures KeepsDead(s, t)
  {
  }

  lemma WebhookKeepsDead(s: Books, i: IntentId, read: IntentStatus, posted: IntentStatus, duplicate: bool,
                         driver: Option<DriverId>, now: Time)
    ensures var r := Webhook(s, i, read, posted, duplicate, driver, now); r.Committed? ==> KeepsDead(s, r.state)
  {
    if i in s.intents && TransitionIntent(read, posted).Committed? {
      var t := s.(intents := s.intents[i := s.intents[i].(status := TransitionIntent(read, posted).state)]);
      MarkKeepsDead(t, s.intents[i].payment, driver, now);
    }
  }

  lemma CashKeepsDead(s: Books, p: PaymentId, read: SettlementStatus, received: bool, confirming: Option<DriverId>,
                      now: Time)
    ensures var r := ConfirmCash(s, p, read, received, confirming, now); r.Committed? ==> KeepsDead(s, r.state)
  {
    if p in s.settlements && received { MarkKeepsDead(WithSettled(s, p, true), p, confirming, now); }
  }

  lemma CreateKeepsDead(s: Books, step: Step)
    requires Enabled(s, step) && step.CreatePaymentStep?
    ensures KeepsDead(s, Apply(s, step))
  {
    if Attempt(s, step).Committed? && step.existing == None {
      CreationEffect(s, step.target, step.driver, step.online, step.amount, step.p, step.i, step.intentStatus, step.now);
    }
  }

  lemma ExpiryKeepsDead(s: Books, p: PaymentId)
    ensures KeepsDead(s, ExpireStale(s, p))
  {
  }

  lemma OthersKeepPayments(s: Books, step: Step)
    requires step.ReleaseStep? || step.PayoutStep? || step.PayoutStatusStep? || step.RequestRefundStep?
    ensures Apply(s, step).payments == s.payments
  {
  }

  lemma ProcessKeepsDead(s: Books, step: Step)
    requires RefundsLinked(s) && Enabled(s, step) && step.ProcessRefundStep?
    ensures KeepsDead(s, Apply(s, step))
  {
    if Attempt(s, step).Committed? {
      ProcessRefundEffect(s, step.pending);
      RefundKeepsDead(s, Apply(s, step), step.pending);
    }
  }

  lemma StepKeepsDead(s: Books, step: Step)
    requires RefundsLinked(s) && Enabled(s, step)
    ensures KeepsDead(s, Apply(s, step))
  {
    match step
    case WebhookStep(i, read, posted, duplicate, driver, now) => WebhookKeepsDead(s, i, read, posted, duplicate, driver, now);
    case CashStep(p, read, received, confirming, now) => CashKeepsDead(s, p, read, received, confirming, now);
    case ProcessRefundStep(_) => ProcessKeepsDead(s, step);
    case CreatePaymentStep(_, _, _, _, _, _, _, _, _) => CreateKeepsDead(s, step);
    case ExpireStep(p) => ExpiryKeepsDead(s, p);
    case _ => OthersKeepPayments(s, step);
  }

  /** An EXPIRED payment never succeeds later, whatever webhooks still arrive. */
  lemma {:induction false} DeadStaysDead(s: Books, steps: seq<Step>, p: PaymentId)
    requires BooksOk(s) && Run(s, steps) && p in s.payments && Dead(s.payments[p].status)
    ensures p in Exec(s, steps).payments && Exec(s, steps).payments[p].status == s.payments[p].status
    decreases |steps|
  {
    if steps != [] {
      StepKeepsDead(s, steps[0]);
      StepKeepsBooks(s, steps[0]);
      DeadStaysDead(Apply(s, steps[0]), steps[1..], p);
    }
  }

  lemma SuccessIsFinal(t: Books, p: PaymentId, driver: Option<DriverId>, later: Option<DriverId>, now: Time, second: Time)
    requires MoneyOk(t) && MarkSucceeded(t, p, driver, now).Committed?
    ensures var u := MarkSucceeded(t, p, driver, now).state;
            u.intents == t.intents && MarkSucceeded(u, p, later, second) == Committed(u)
  {
    MarkSucceededKeepsMoney(t, p, driver, now);
  }

  /** Delivering a webhook a second time changes nothing, even when the second
      delivery is not recognised as a duplicate. */
  lemma SecondDeliveryChangesNothing(s: Books, i: IntentId, read: IntentStatus, posted: IntentStatus,
                                     driver: Option<DriverId>, later: Option<DriverId>, now: Time, second: Time)
    requires MoneyOk(s) && i in s.intents
    requires Webhook(s, i, read, posted, false, driver, now).Committed?
    ensures var t := Webhook(s, i, read, posted, false, driver, now).state;
            && i in t.intents && t.intents[i].status == posted
            && Webhook(t, i, t.intents[i].status, posted, false, later, second) == Committed(t)
  {
    var t := s.(intents := s.intents[i := s.intents[i].(status := posted)]);
    var u := Webhook(s, i, read, posted, false, driver, now).state;
    if posted == IntentSucceeded {
      SameTables(s, t);
      SuccessIsFinal(t, s.intents[i].payment, driver, later, now, second);
    }
    assert u.intents == t.intents;
    SameStatusAgain(u, i);
  }

  lemma SameStatusAgain(u: Books, i: IntentId)
    requires i in u.intents
    ensures u.(intents := u.intents[i := u.intents[i].(status := u.intents[i].status)]) == u
  {
    assert u.intents[i := u.intents[i].(status := u.intents[i].status)] == u.intents;
  }
}
