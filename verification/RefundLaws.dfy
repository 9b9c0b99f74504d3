/** Refunds: with at most one refund outstanding per payment nothing is refunded
    twice; with two, the worker's loop pays out more than came in. */
module RefundLaws {
  import opened Tables
  import opened Money
  import opened Finance
  import opened FinanceSafety
  import opened FinanceLaws

  /** The refunds of a payment that were carried out. */
  ghost function RefundedColumn(refunds: map<RefundId, Refund>, p: PaymentId): map<RefundId, int> {
    map r | r in refunds && refunds[r].payment == p && refunds[r].status == RefundSucceeded :: refunds[r].amount
  }

  /** 0 <= refunded <= paid, refunded is what the refunds add up to, and the
      status tells which case it is. */
  ghost predicate AmountsOk(s: Books, p: PaymentId)
    requires p in s.payments
  {
    var payment := s.payments[p];
    && payment.refunded <= payment.paid
    && payment.refunded == Sum(RefundedColumn(s.refunds, p))
    && (IsPaid(payment.status) ==>
          && (payment.status == Refunded <==> payment.refunded == payment.paid)
          && (payment.status == Succeeded <==> payment.refunded == 0))
  }

  ghost predicate RefundRowOk(s: Books, r: RefundId)
    requires r in s.refunds && s.refunds[r].payment in s.payments
  {
    var payment := s.payments[s.refunds[r].payment];
    && (RefundKey(r) in s.ledger <==> s.refunds[r].status == RefundSucceeded)
    && (s.refunds[r].status == RefundRequested ==> payment.refunded + s.refunds[r].amount <= payment.paid)
  }

  predicate Outstanding(s: Books, r: RefundId, p: PaymentId) {
    r in s.refunds && s.refunds[r].payment == p && s.refunds[r].status == RefundRequested
  }

  ghost predicate AllAmountsOk(s: Books) {
    forall p | p in s.payments :: AmountsOk(s, p)
  }

  ghost predicate RefundRowsOk(s: Books)
    requires RefundsLinked(s)
  {
    forall r | r in s.refunds :: RefundRowOk(s, r)
  }

  ghost predicate OneOutstanding(s: Books) {
    forall r, q, p | Outstanding(s, r, p) && Outstanding(s, q, p) :: r == q
  }

  ghost predicate RefundsOk(s: Books) {
    RefundsLinked(s) && AllAmountsOk(s) && RefundRowsOk(s) && OneOutstanding(s)
  }

  /** Nobody requests a second refund while one is outstanding. */
  ghost predicate FirstRequest(s: Books, step: Step) {
    step.RequestRefundStep? ==> forall r | r in s.refunds :: !Outstanding(s, r, step.p)
  }

  /** What a round of the worker turns out to have read: the refund is still
      outstanding and the refunded amount still the one it saw. RefundRuns proves
      this of every round that commits. */
  ghost predicate CurrentRound(s: Books, read: RefundRead) {
    && PossibleRefundRead(s, read)
    && Outstanding(s, read.id, read.refund.payment)
    && read.payment.refunded == s.payments[read.refund.payment].refunded
  }

  // ----- steps that leave refunds alone -----

  /** Refund rows are untouched, paid payments keep their amounts and status, and
      whatever becomes paid becomes SUCCEEDED with nothing refunded. */
  ghost predicate RefundFrame(s: Books, t: Books) {
    && t.refunds == s.refunds
    && (forall r :: RefundKey(r) in t.ledger <==> RefundKey(r) in s.ledger)
    && (forall r | RefundKey(r) in s.ledger :: t.ledger[RefundKey(r)] == s.ledger[RefundKey(r)])
    && s.payments.Keys <= t.payments.Keys
    && (forall p | p in s.payments && IsPaid(s.payments[p].status) ::
          && t.payments[p].status == s.payments[p].status
          && t.payments[p].paid == s.payments[p].paid && t.payments[p].refunded == s.payments[p].refunded)
    && (forall p | p in t.payments && (p in s.payments ==> !IsPaid(s.payments[p].status)) ::
          && t.payments[p].refunded == 0
          && (IsPaid(t.payments[p].status) ==> t.payments[p].status == Succeeded && t.payments[p].paid > 0))
  }

  lemma NoRefundOfUnpaid(s: Books, p: PaymentId)
    requires RefundsLinked(s) && (p in s.payments ==> !IsPaid(s.payments[p].status))
    ensures Sum(RefundedColumn(s.refunds, p)) == 0
  {
    assert RefundedColumn(s.refunds, p) == map[];
  }

  lemma FrameKeepsAmounts(s: Books, t: Books, p: PaymentId)
    requires RefundsLinked(s) && RefundFrame(s, t) && p in t.payments
    requires p in s.payments ==> AmountsOk(s, p)
    ensures AmountsOk(t, p)
  {
    if p !in s.payments || !IsPaid(s.payments[p].status) { NoRefundOfUnpaid(s, p); }
  }

  lemma FrameKeepsRefunds(s: Books, t: Books)
    requires RefundsOk(s) && RefundFrame(s, t)
    ensures RefundsOk(t)
  {
    forall p | p in t.payments ensures AmountsOk(t, p) {
      FrameKeepsAmounts(s, t, p);
    }
    forall r | r in t.refunds ensures RefundRowOk(t, r) {
      assert RefundRowOk(s, r);
    }
    forall r, q, p | Outstanding(t, r, p) && Outstanding(t, q, p) ensures r == q {
      assert Outstanding(s, r, p) && Outstanding(s, q, p);
    }
  }

  ghost predicate UnpaidHaveNothing(s: Books) {
    forall p | p in s.payments && !IsPaid(s.payments[p].status) :: s.payments[p].refunded == 0
  }

  lemma PaymentsOkMeansNothing(s: Books)
    requires PaymentsOk(s)
    ensures UnpaidHaveNothing(s)
  {
    forall p | p in s.payments && !IsPaid(s.payments[p].status) ensures s.payments[p].refunded == 0 {
      assert PaymentOk(s, p);
    }
  }

  lemma MarkIsFrame(s: Books, p: PaymentId, driver: Option<DriverId>, now: Time)
    requires PaymentsOk(s) && EarningsOk(s) && MarkSucceeded(s, p, driver, now).Committed?
    ensures RefundFrame(s, MarkSucceeded(s, p, driver, now).state)
  {
    SuccessEffect(s, p, driver, now);
    PaymentsOkMeansNothing(s);
  }

  lemma CreationIsFrame(s: Books, t: Books, p: PaymentId, i: IntentId)
    requires UnpaidHaveNothing(s) && PaymentCreated(s, t, p, i)
    ensures RefundFrame(s, t)
  {
  }

  lemma ExpiryIsFrame(s: Books, p: PaymentId)
    requires UnpaidHaveNothing(s)
    ensures RefundFrame(s, ExpireStale(s, p))
  {
    if p in s.payments && Stale(s.payments[p]) {
      UnpaidRowIsFrame(s, ExpireStale(s, p), p);
    } else {
      SameMoneyIsFrame(s, s);
    }
  }

  lemma UnpaidRowIsFrame(s: Books, t: Books, p: PaymentId)
    requires UnpaidHaveNothing(s) && p in s.payments && !IsPaid(s.payments[p].status)
    requires p in t.payments && t.payments == s.payments[p := t.payments[p]]
    requires t.payments[p].refunded == 0 && !IsPaid(t.payments[p].status)
    requires t.refunds == s.refunds && t.ledger == s.ledger
    ensures RefundFrame(s, t)
  {
  }

  lemma PayoutIsFrame(s: Books, t: Books, payout: PayoutId, status: PayoutStatus)
    requires UnpaidHaveNothing(s) && PayoutSet(s, t, payout, status)
    ensures RefundFrame(s, t)
  {
  }

  lemma SameMoneyIsFrame(s: Books, t: Books)
    requires UnpaidHaveNothing(s) && t.payments == s.payments && t.refunds == s.refunds && t.ledger == s.ledger
    ensures RefundFrame(s, t)
  {
  }

  lemma FrameFromSameMoney(s: Books, t: Books, u: Books)
    requires t.payments == s.payments && t.refunds == s.refunds && t.ledger == s.ledger && RefundFrame(t, u)
    ensures RefundFrame(s, u)
  {
  }

  /** A success after some other row was written in the same transaction. */
  lemma MarkAfterIsFrame(s: Books, t: Books, p: PaymentId, driver: Option<DriverId>, now: Time)
    requires MoneyOk(s) && MarkSucceeded(t, p, driver, now).Committed?
    requires t == s.(intents := t.intents, settlements := t.settlements)
    ensures RefundFrame(s, MarkSucceeded(t, p, driver, now).state)
  {
    SameTables(s, t);
    MarkIsFrame(t, p, driver, now);
    FrameFromSameMoney(s, t, MarkSucceeded(t, p, driver, now).state);
  }

  lemma WebhookIsFrame(s: Books, i: IntentId, read: IntentStatus, posted: IntentStatus, duplicate: bool,
                       driver: Option<DriverId>, now: Time)
    requires MoneyOk(s) && Webhook(s, i, read, posted, duplicate, driver, now).Committed?
    ensures RefundFrame(s, Webhook(s, i, read, posted, duplicate, driver, now).state)
  {
    if i in s.intents && !duplicate && posted == IntentSucceeded {
      var t := s.(intents := s.intents[i := s.intents[i].(status := TransitionIntent(read, posted).state)]);
      MarkAfterIsFrame(s, t, s.intents[i].payment, driver, now);
    } else {
      PaymentsOkMeansNothing(s);
      SameMoneyIsFrame(s, Webhook(s, i, read, posted, duplicate, driver, now).state);
    }
  }

  lemma CashIsFrame(s: Books, p: PaymentId, read: SettlementStatus, received: bool, confirming: Option<DriverId>,
                    now: Time)
    requires MoneyOk(s) && ConfirmCash(s, p, read, received, confirming, now).Committed?
    ensures RefundFrame(s, ConfirmCash(s, p, read, received, confirming, now).state)
  {
    if received && read != SettlementConfirmed {
      MarkAfterIsFrame(s, WithSettled(s, p, true), p, confirming, now);
    } else {
      PaymentsOkMeansNothing(s);
      SameMoneyIsFrame(s, ConfirmCash(s, p, read, received, confirming, now).state);
    }
  }

  lemma SetPayoutIsFrame(s: Books, payout: PayoutId, status: PayoutStatus)
    requires UnpaidHaveNothing(s) && EarningsOk(s) && PayoutsOk(s)
    ensures var r := SetPayoutStatus(s, payout, status); r.Committed? ==> RefundFrame(s, r.state)
  {
    if payout in s.payouts {
      assert PayoutOk(s, payout);
      PayoutIsDebitedOnce(s, payout, status);
      PayoutIsFrame(s, SetPayoutStatus(s, payout, status).state, payout, status);
    }
  }

  lemma PayoutStatusStepIsFrame(s: Books, step: Step)
    requires MoneyOk(s) && step.PayoutStatusStep?
    ensures RefundFrame(s, Apply(s, step))
  {
    PaymentsOkMeansNothing(s);
    SetPayoutIsFrame(s, step.payout, step.status);
    SameMoneyIsFrame(s, s);
  }

  lemma PayoutStepIsFrame(s: Books, step: Step)
    requires MoneyOk(s) && step.PayoutStep?
    ensures RefundFrame(s, Apply(s, step))
  {
    PaymentsOkMeansNothing(s);
    ClaimIsAllOrNothing(s, step.driverId, step.ids, step.payout);
  }

  lemma CreateStepIsFrame(s: Books, step: Step)
    requires BooksOk(s) && Enabled(s, step) && step.CreatePaymentStep?
    ensures RefundFrame(s, Apply(s, step))
  {
    PaymentsOkMeansNothing(s);
    if Attempt(s, step).Committed? && step.existing == None {
      CreationEffect(s, step.target, step.driver, step.online, step.amount, step.p, step.i, step.intentStatus, step.now);
      CreationIsFrame(s, Apply(s, step), step.p, step.i);
    }
  }

  // ----- requests and processing -----

  /** What an accepted request writes: one row for what is still refundable. */
  ghost predicate RefundAdded(s: Books, t: Books, r: RefundId) {
    && r !in s.refunds && r in t.refunds && t == s.(refunds := s.refunds[r := t.refunds[r]])
    && t.refunds[r].status == RefundRequested && t.refunds[r].amount > 0
    && var p := t.refunds[r].payment;
    && p in s.payments && IsPaid(s.payments[p].status)
    && t.refunds[r].amount <= s.payments[p].paid - s.payments[p].refunded
  }

  lemma RequestKeepsAmounts(s: Books, t: Books, r: RefundId, p: PaymentId)
    requires RefundAdded(s, t, r) && p in s.payments && AmountsOk(s, p)
    ensures AmountsOk(t, p)
  {
    assert RefundedColumn(t.refunds, p) == RefundedColumn(s.refunds, p);
  }

  lemma RequestKeepsRow(s: Books, t: Books, r: RefundId, q: RefundId)
    requires RefundAdded(s, t, r) && RefundsLinked(s) && RefundKey(r) !in s.ledger && q in t.refunds
    requires q != r ==> RefundRowOk(s, q)
    ensures RefundRowOk(t, q)
  {
  }

  lemma RequestIsTheOnlyOne(s: Books, t: Books, r: RefundId, a: RefundId, b: RefundId, p: PaymentId)
    requires RefundAdded(s, t, r) && Outstanding(t, a, p) && Outstanding(t, b, p)
    requires forall q | q in s.refunds :: !Outstanding(s, q, t.refunds[r].payment)
    requires Outstanding(s, a, p) && Outstanding(s, b, p) ==> a == b
    ensures a == b
  {
    assert a != r ==> Outstanding(s, a, p);
    assert b != r ==> Outstanding(s, b, p);
  }

  lemma RequestKeepsRefunds(s: Books, t: Books, r: RefundId)
    requires RefundsOk(s) && LedgerOk(s) && RefundAdded(s, t, r)
    requires forall q | q in s.refunds :: !Outstanding(s, q, t.refunds[r].payment)
    ensures RefundsOk(t)
  {
    assert RefundKey(r) in s.ledger ==> PostingOk(s, RefundKey(r));
    forall p | p in t.payments ensures AmountsOk(t, p) { RequestKeepsAmounts(s, t, r, p); }
    forall q | q in t.refunds ensures RefundRowOk(t, q) { RequestKeepsRow(s, t, r, q); }
    forall a, b, p | Outstanding(t, a, p) && Outstanding(t, b, p) ensures a == b {
      RequestIsTheOnlyOne(s, t, r, a, b, p);
    }
  }

  lemma ProcessedAmounts(s: Books, t: Books, read: RefundRead, p: PaymentId)
    requires RefundProcessed(s, t, read) && CurrentRound(s, read)
    requires p in s.payments && AmountsOk(s, p) && RefundRowOk(s, read.id) && RefundsLinked(s)
    ensures AmountsOk(t, p)
    ensures p == read.refund.payment ==>
              t.payments[p].refunded == s.payments[p].refunded + read.refund.amount <= s.payments[p].paid
  {
    var column := RefundedColumn(s.refunds, p);
    if p == read.refund.payment {
      assert RefundedColumn(t.refunds, p) == column[read.id := read.refund.amount];
      SumInsert(column, read.id, read.refund.amount);
    } else {
      assert RefundedColumn(t.refunds, p) == column;
    }
  }

  lemma ProcessedRow(s: Books, t: Books, read: RefundRead, r: RefundId)
    requires RefundsLinked(s) && RefundProcessed(s, t, read) && CurrentRound(s, read)
    requires r in s.refunds && RefundRowOk(s, r)
    requires r != read.id ==> !Outstanding(s, r, read.refund.payment)
    ensures RefundRowOk(t, r)
  {
  }

  lemma ProcessedAllAmounts(s: Books, t: Books, read: RefundRead)
    requires RefundsOk(s) && RefundProcessed(s, t, read) && CurrentRound(s, read)
    ensures AllAmountsOk(t)
  {
    forall p | p in t.payments ensures AmountsOk(t, p) { ProcessedAmounts(s, t, read, p); }
  }

  lemma ProcessedAllRows(s: Books, t: Books, read: RefundRead)
    requires RefundsOk(s) && RefundProcessed(s, t, read) && CurrentRound(s, read) && RefundsLinked(t)
    ensures RefundRowsOk(t)
  {
    forall r | r in t.refunds ensures RefundRowOk(t, r) { ProcessedRow(s, t, read, r); }
  }

  lemma ProcessedLinks(s: Books, t: Books, read: RefundRead)
    requires RefundsLinked(s) && RefundProcessed(s, t, read)
    ensures RefundsLinked(t)
  {
  }

  lemma ProcessedOutstanding(s: Books, t: Books, read: RefundRead)
    requires RefundProcessed(s, t, read) && OneOutstanding(s)
    ensures OneOutstanding(t)
  {
    forall a, b, p | Outstanding(t, a, p) && Outstanding(t, b, p) ensures a == b {
      assert Outstanding(s, a, p) && Outstanding(s, b, p);
    }
  }

  lemma ProcessKeepsRefunds(s: Books, t: Books, read: RefundRead)
    requires RefundsOk(s) && RefundProcessed(s, t, read) && CurrentRound(s, read)
    ensures RefundsOk(t)
  {
    ProcessedLinks(s, t, read);
    ProcessedAllAmounts(s, t, read);
    ProcessedAllRows(s, t, read);
    ProcessedOutstanding(s, t, read);
  }

  /** A round on current records changes the status of its payment legally. */
  lemma RoundIsLegal(s: Books, t: Books, read: RefundRead)
    requires RefundsOk(s) && RefundProcessed(s, t, read) && CurrentRound(s, read)
    ensures var p := read.refund.payment;
            TransitionPayment(s.payments[p].status, t.payments[p].status) == Committed(t.payments[p].status)
  {
    var payment := s.payments[read.refund.payment];
    assert AmountsOk(s, read.refund.payment) && RefundRowOk(s, read.id);
    LegalRefundStatus(payment.status, payment.paid, payment.refunded, read.refund.amount);
  }

  lemma LegalRefundStatus(status: PaymentStatus, paid: nat, refunded: nat, amount: nat)
    requires IsPaid(status) && (status == Refunded <==> refunded == paid)
    requires amount > 0 && refunded + amount <= paid
    ensures var next := if refunded + amount >= paid then Refunded else PartiallyRefunded;
            TransitionPayment(status, next) == Committed(next)
  {
  }

  lemma RequestStepKeepsRefunds(s: Books, step: Step)
    requires LedgerOk(s) && RefundsOk(s) && step.RequestRefundStep? && FirstRequest(s, step)
    ensures RefundsOk(Apply(s, step))
  {
    if Attempt(s, step).Committed? {
      RefundIsAllowed(s, step.p, step.wanted, step.refund);
      RequestKeepsRefunds(s, Apply(s, step), step.refund);
    }
  }

  /** All steps but the worker's and the requests leave refunds alone. */
  lemma OtherStepIsFrame(s: Books, step: Step)
    requires BooksOk(s) && Enabled(s, step) && !step.RequestRefundStep? && !step.ProcessRefundStep?
    ensures RefundFrame(s, Apply(s, step))
  {
    PaymentsOkMeansNothing(s);
    match step
    case WebhookStep(i, read, posted, duplicate, driver, now) =>
      if Attempt(s, step).Committed? { WebhookIsFrame(s, i, read, posted, duplicate, driver, now); }
    case CashStep(p, read, received, confirming, now) =>
      if Attempt(s, step).Committed? { CashIsFrame(s, p, read, received, confirming, now); }
    case CreatePaymentStep(_, _, _, _, _, _, _, _, _) => CreateStepIsFrame(s, step);
    case ExpireStep(p) => ExpiryIsFrame(s, p);
    case ReleaseStep(now) =>
    case PayoutStatusStep(_, _) => PayoutStatusStepIsFrame(s, step);
    case PayoutStep(_, _, _) => PayoutStepIsFrame(s, step);
  }

  // ----- two refunds outstanding -----

  function FullRefund(s: Books, p: PaymentId): Refund
    requires p in s.payments
  {
    Refund(p, s.payments[p].paid, RefundRequested)
  }

  function WithTwoRefunds(s: Books, p: PaymentId, a: RefundId, b: RefundId): Books
    requires p in s.payments
  {
    s.(refunds := s.refunds[a := FullRefund(s, p)][b := FullRefund(s, p)])
  }

  /** One pass of the worker over both, each with the payment as it was read at
      the start of the pass. */
  function AfterBoth(s: Books, p: PaymentId, a: RefundId, b: RefundId): Books
    requires p in s.payments
  {
    var t := WithTwoRefunds(s, p, a, b);
    AfterRefund(AfterRefund(t, RefundRead(a, FullRefund(s, p), s.payments[p])), RefundRead(b, FullRefund(s, p), s.payments[p]))
  }

  /** Two full refunds of one payment are both accepted. */
  lemma TwoFullRequestsAreAccepted(s: Books, p: PaymentId, a: RefundId, b: RefundId)
    requires p in s.payments && s.payments[p].status == Succeeded && s.payments[p].refunded == 0 && s.payments[p].paid > 0
    requires a != b && a !in s.refunds && b !in s.refunds
    ensures Apply(Apply(s, RequestRefundStep(p, None, a)), RequestRefundStep(p, None, b)) == WithTwoRefunds(s, p, a, b)
  {
    assert Apply(s, RequestRefundStep(p, None, a)) == s.(refunds := s.refunds[a := FullRefund(s, p)]);
  }

  lemma BothRounds(s: Books, p: PaymentId, a: RefundId, b: RefundId)
    requires p in s.payments && s.payments[p].refunded == 0
    requires a != b && RefundKey(a) !in s.ledger && RefundKey(b) !in s.ledger
    ensures var u := AfterBoth(s, p, a, b);
            var entries := Transfer(ClientRefunds, ProviderCash, s.payments[p].paid);
            && p in u.payments && u.payments[p].refunded == s.payments[p].paid
            && u.ledger == s.ledger[RefundKey(a) := entries][RefundKey(b) := entries]
  {
  }

  lemma TransferDebits(from: Account, to: Account, amount: nat)
    ensures SideTotal(Transfer(from, to, amount), Debit) == amount
  {
    TwoEntries(Entry(from, Debit, amount), Entry(to, Credit, amount));
  }

  /** One pass of the worker then carries out both: twice the payment leaves the
      ledger, and the payment still says it was refunded once. */
  lemma TwoRequestsRefundTwice(s: Books, p: PaymentId, a: RefundId, b: RefundId)
    requires BooksOk(s) && p in s.payments && s.payments[p].status == Succeeded && s.payments[p].refunded == 0
    requires a != b && a !in s.refunds && b !in s.refunds
    ensures var u := AfterBoth(s, p, a, b);
            && p in u.payments && u.payments[p].refunded == s.payments[p].paid
            && Sum(SideColumn(u.ledger, Debit)) == Sum(SideColumn(s.ledger, Debit)) + 2 * s.payments[p].paid
  {
    var entries := Transfer(ClientRefunds, ProviderCash, s.payments[p].paid);
    assert RefundKey(a) in s.ledger ==> PostingOk(s, RefundKey(a));
    assert RefundKey(b) in s.ledger ==> PostingOk(s, RefundKey(b));
    BothRounds(s, p, a, b);
    TransferDebits(ClientRefunds, ProviderCash, s.payments[p].paid);
    PostingAddsSide(s.ledger, RefundKey(a), entries, Debit);
    PostingAddsSide(s.ledger[RefundKey(a) := entries], RefundKey(b), entries, Debit);
  }

  lemma PostingAddsSide(ledger: map<LedgerKey, seq<Entry>>, k: LedgerKey, entries: seq<Entry>, side: Side)
    requires k !in ledger
    ensures Sum(SideColumn(ledger[k := entries], side)) == Sum(SideColumn(ledger, side)) + SideTotal(entries, side)
  {
    assert SideColumn(ledger[k := entries], side) == SideColumn(ledger, side)[k := SideTotal(entries, side)];
    SumInsert(SideColumn(ledger, side), k, SideTotal(entries, side));
  }

  /** What is still requested for a payment. */
  ghost function RequestedColumn(refunds: map<RefundId, Refund>, p: PaymentId): map<RefundId, int> {
    map r | r in refunds && refunds[r].payment == p && refunds[r].status == RefundRequested :: refunds[r].amount
  }

  /** A refund request keeps refunded plus requested within what was paid exactly
      when it leaves room for the refunds still outstanding; the check it makes
      looks at the refunded amount only. */
  lemma RequestIsWithinBoundsExactly(s: Books, p: PaymentId, amount: Option<nat>, r: RefundId)
    requires RequestRefund(s, p, amount, r).Committed?
    ensures var t := RequestRefund(s, p, amount, r).state;
            var outstanding := Sum(RequestedColumn(s.refunds, p));
            t.payments[p].refunded + Sum(RequestedColumn(t.refunds, p)) <= t.payments[p].paid
            <==> t.refunds[r].amount <= s.payments[p].paid - s.payments[p].refunded - outstanding
  {
    RefundIsAllowed(s, p, amount, r);
    var t := RequestRefund(s, p, amount, r).state;
    assert RequestedColumn(t.refunds, p) == RequestedColumn(s.refunds, p)[r := t.refunds[r].amount];
    SumInsert(RequestedColumn(s.refunds, p), r, t.refunds[r].amount);
  }
}
