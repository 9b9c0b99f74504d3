/** The ledger and the earnings table are two views of one debt: on which runs
    they stay equal, which single step parts them, and the smallest run on which
    they differ. */
module FinanceViews {
  import opened Tables
  import opened Money
  import opened Finance
  import opened FinanceSafety
  import opened FinanceLaws
  import opened FinanceLifecycle

  /** The balance of driver_earnings_payable is the net of the earnings not PAID. */
  ghost predicate ViewsAgree(s: Books) {
    PayableBalance(s) == Sum(UnpaidColumn(s.earnings))
  }

  ghost predicate NoOrphans(s: Books) {
    forall p | p in s.payments && IsPaid(s.payments[p].status) && p !in s.earnings :: NetOf(s.payments[p]) == 0
  }

  /** A webhook finds a driver for its payment; a cash payment is confirmed by its
      driver, so it always has one. */
  predicate FindsDriver(step: Step) {
    step.WebhookStep? ==> step.driver.Some?
  }

  /** Earnings are never taken back, and what was not paid before is not paid
      after, or earns. */
  ghost predicate Earns(s: Books, t: Books) {
    && s.earnings.Keys <= t.earnings.Keys
    && forall p | p in t.payments && IsPaid(t.payments[p].status) && p !in t.earnings ::
         || NetOf(t.payments[p]) == 0
         || (p in s.payments && IsPaid(s.payments[p].status) && s.payments[p].amount == t.payments[p].amount)
  }

  lemma EarnsKeepsNoOrphans(s: Books, t: Books)
    requires NoOrphans(s) && Earns(s, t)
    ensures NoOrphans(t)
  {
  }

  lemma MarkEarns(s: Books, p: PaymentId, driver: DriverId, now: Time)
    requires PaymentsOk(s) && EarningsOk(s) && MarkSucceeded(s, p, Some(driver), now).Committed?
    ensures Earns(s, MarkSucceeded(s, p, Some(driver), now).state)
  {
    SuccessEffect(s, p, Some(driver), now);
  }

  lemma MarkAfterEarns(s: Books, t: Books, p: PaymentId, driver: DriverId, now: Time)
    requires MoneyOk(s) && t == s.(intents := t.intents, settlements := t.settlements)
    requires MarkSucceeded(t, p, Some(driver), now).Committed?
    ensures Earns(s, MarkSucceeded(t, p, Some(driver), now).state)
  {
    SameTables(s, t);
    MarkEarns(t, p, driver, now);
  }

  lemma WebhookEarns(s: Books, step: Step)
    requires MoneyOk(s) && step.WebhookStep? && FindsDriver(step) && Attempt(s, step).Committed?
    ensures Earns(s, Attempt(s, step).state)
  {
    var i := step.i;
    if i in s.intents && !step.duplicate && step.posted == IntentSucceeded {
      var t := s.(intents := s.intents[i := s.intents[i].(status := TransitionIntent(step.read, step.posted).state)]);
      MarkAfterEarns(s, t, s.intents[i].payment, step.driver.value, step.now);
    }
  }

  lemma CashEarns(s: Books, step: Step)
    requires MoneyOk(s) && step.CashStep? && Attempt(s, step).Committed?
    ensures Earns(s, Attempt(s, step).state)
  {
    if step.received && step.settlement != SettlementConfirmed {
      MarkAfterEarns(s, WithSettled(s, step.p, true), step.p, step.confirming.value, step.now);
    }
  }

  lemma RefundEarns(s: Books, step: Step)
    requires RefundsLinked(s) && Enabled(s, step) && step.ProcessRefundStep?
    ensures Earns(s, Apply(s, step))
  {
    if Attempt(s, step).Committed? { ProcessRefundEffect(s, step.pending); }
  }

  lemma CreateEarns(s: Books, step: Step)
    requires Enabled(s, step) && step.CreatePaymentStep?
    ensures Earns(s, Apply(s, step))
  {
    if Attempt(s, step).Committed? && step.existing == None {
      CreationEffect(s, step.target, step.driver, step.online, step.amount, step.p, step.i, step.intentStatus, step.now);
    }
  }

  /** The payments stay, and so do the keys of the earnings. */
  lemma SameKeysEarn(s: Books, t: Books)
    requires t.payments == s.payments && t.earnings.Keys == s.earnings.Keys
    ensures Earns(s, t)
  {
  }

  lemma PayoutRows(s: Books, driver: DriverId, ids: seq<PaymentId>, payout: PayoutId)
    ensures var r := CreatePayout(s, driver, ids, payout);
            r.Committed? ==> r.state.payments == s.payments && r.state.earnings.Keys == s.earnings.Keys
  {
  }

  lemma PayoutStatusRows(s: Books, payout: PayoutId, status: PayoutStatus)
    ensures var r := SetPayoutStatus(s, payout, status);
            r.Committed? ==> r.state.payments == s.payments && r.state.earnings.Keys == s.earnings.Keys
  {
  }

  lemma PayoutEarns(s: Books, step: Step)
    requires step.PayoutStep? || step.PayoutStatusStep?
    ensures Earns(s, Apply(s, step))
  {
    if step.PayoutStep? {
      PayoutRows(s, step.driverId, step.ids, step.payout);
    } else {
      PayoutStatusRows(s, step.payout, step.status);
    }
    SameKeysEarn(s, Apply(s, step));
  }

  lemma ExpiryEarns(s: Books, p: PaymentId)
    ensures Earns(s, ExpireStale(s, p))
  {
  }

  lemma ReleaseEarns(s: Books, now: Time)
    ensures Earns(s, ReleaseEarnings(s, now))
  {
  }

  lemma RequestEarns(s: Books, step: Step)
    requires step.RequestRefundStep?
    ensures Earns(s, Apply(s, step))
  {
    if Attempt(s, step).Committed? { RefundIsAllowed(s, step.p, step.wanted, step.refund); }
  }

  lemma StepEarns(s: Books, step: Step)
    requires BooksOk(s) && Enabled(s, step) && FindsDriver(step)
    ensures Earns(s, Apply(s, step))
  {
    match step
    case WebhookStep(_, _, _, _, _, _) => if Attempt(s, step).Committed? { WebhookEarns(s, step); }
    case CashStep(_, _, _, _, _) => if Attempt(s, step).Committed? { CashEarns(s, step); }
    case CreatePaymentStep(_, _, _, _, _, _, _, _, _) => CreateEarns(s, step);
    case ProcessRefundStep(_) => RefundEarns(s, step);
    case PayoutStep(_, _, _) => PayoutEarns(s, step);
    case PayoutStatusStep(_, _) => PayoutEarns(s, step);
    case ExpireStep(p) => ExpiryEarns(s, p);
    case ReleaseStep(now) => ReleaseEarns(s, now);
    case RequestRefundStep(_, _, _) => RequestEarns(s, step);
  }

  /** From agreeing books, on every run whose webhooks find a driver (as those of
      bookings do, and of parcels ordered for a trip), the balance of
      driver_earnings_payable is the net of the earnings not yet PAID. */
  lemma {:induction false} RunKeepsViewsEqual(s: Books, steps: seq<Step>)
    requires BooksOk(s) && Mirror(s) && ViewsAgree(s) && Run(s, steps)
    requires forall i | 0 <= i < |steps| :: FindsDriver(steps[i])
    ensures ViewsAgree(Exec(s, steps))
    decreases |steps|
  {
    if steps != [] {
      var t := Apply(s, steps[0]);
      StepKeepsBooks(s, steps[0]);
      StepKeepsMirror(s, steps[0]);
      ViewsAgreeExactly(s);
      StepEarns(s, steps[0]);
      EarnsKeepsNoOrphans(s, t);
      ViewsAgreeExactly(t);
      RunKeepsViewsEqual(t, steps[1..]);
    }
  }

  /** From agreeing books, a first success keeps the two views equal exactly when
      it finds a driver or the payment is worth no more than its fee. */
  lemma SuccessKeepsViewsExactly(s: Books, t: Books, p: PaymentId, driver: Option<DriverId>, now: Time)
    requires ViewsAgree(s) && FirstSuccess(s, t, p, driver, now)
    ensures ViewsAgree(t) <==> driver.Some? || s.payments[p].amount <= 1
  {
    SuccessRaisesBalance(s, t, p, driver, now);
    SplitIsExact(s.payments[p].amount);
    if driver.Some? && NetOf(s.payments[p]) > 0 {
      NewEarningIsUnpaid(s.earnings, p, NewEarning(s.payments[p], driver.value, now));
    }
  }

  // ----- the smallest run on which they differ -----

  function CreateForParcel(): Step {
    CreatePaymentStep(ParcelTarget(0), None, true, 2, 0, 0, IntentRequiresAction, None, 0)
  }

  function PaidWithoutDriver(): Step {
    WebhookStep(0, IntentRequiresAction, IntentSucceeded, false, None, 0)
  }

  /** The books between the update of the intent and the success. */
  ghost function IntentMarked(): Books {
    var t := CreatePayment(EMPTY_BOOKS, ParcelTarget(0), None, true, 2, 0, 0, IntentRequiresAction, None, 0).state;
    t.(intents := t.intents[0 := Intent(0, IntentSucceeded)])
  }

  lemma ParcelPaidWithoutDriver()
    ensures var u := IntentMarked();
            && MarkSucceeded(u, 0, None, 0).Committed?
            && Apply(Apply(EMPTY_BOOKS, CreateForParcel()), PaidWithoutDriver()) == MarkSucceeded(u, 0, None, 0).state
            && ViewsAgree(u) && FirstSuccess(u, MarkSucceeded(u, 0, None, 0).state, 0, None, 0)
            && u.payments[0].amount == 2
  {
    var t := CreatePayment(EMPTY_BOOKS, ParcelTarget(0), None, true, 2, 0, 0, IntentRequiresAction, None, 0).state;
    var u := IntentMarked();
    EmptyBooksAreOk();
    CreatedIsPayable(EMPTY_BOOKS, ParcelTarget(0), None, true, 2, 0, 0, IntentRequiresAction, 0);
    SucceededIntentMarks(t, 0, None, 0);
    SameTables(t, u);
    EmptyViewsAgree(u);
    MarkPaysInFull(u, 0, None, 0);
    SuccessEffect(u, 0, None, 0);
  }

  lemma EmptyViewsAgree(u: Books)
    requires u.ledger == map[] && u.earnings == map[]
    ensures ViewsAgree(u)
  {
    assert PayableColumn(u.ledger) == map[] && UnpaidColumn(u.earnings) == map[];
  }

  /** Two steps from empty books: a parcel ordered without a trip, and so without
      a driver, is paid for online, and the ledger owes what no earning claims. */
  lemma ViewsPartFromEmptyBooks() returns (steps: seq<Step>)
    ensures |steps| == 2 && Run(EMPTY_BOOKS, steps) && !ViewsAgree(Exec(EMPTY_BOOKS, steps))
  {
    steps := [CreateForParcel(), PaidWithoutDriver()];
    ParcelPaidWithoutDriver();
    SuccessKeepsViewsExactly(IntentMarked(), MarkSucceeded(IntentMarked(), 0, None, 0).state, 0, None, 0);
    TwoSteps(EMPTY_BOOKS, steps[0], steps[1]);
  }

  lemma TwoSteps(s: Books, a: Step, b: Step)
    ensures Exec(s, [a, b]) == Apply(Apply(s, a), b)
    ensures Run(s, [a, b]) <==> Enabled(s, a) && Enabled(Apply(s, a), b)
  {
    assert [a, b][1..] == [b] && [b][1..] == [];
    assert Exec(Apply(s, a), [b]) == Exec(Apply(Apply(s, a), b), []);
    assert Run(Apply(s, a), [b]) == Enabled(Apply(s, a), b);
  }
}
