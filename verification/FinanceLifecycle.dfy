/** Whole lives of payments and earnings: a payment that is created can be paid,
    in cash or online, and what its driver earned reaches a payout after a day. */
module FinanceLifecycle {
  import opened Tables
  import opened Money
  import opened Finance
  import opened FinanceSafety
  import opened FinanceLaws

  /** The payment is paid in full, its amount split into fee and net. */
  ghost predicate PaidInFull(s: Books, p: PaymentId, driver: Option<DriverId>) {
    && p in s.payments && s.payments[p].status == Succeeded
    && s.payments[p].paid == s.payments[p].amount && s.payments[p].refunded == 0
    && p in s.fees && PaymentKey(p) in s.ledger
    && (p in s.earnings <==> driver.Some? && s.payments[p].amount > 1)
    && (p in s.earnings ==> s.earnings[p].net + s.fees[p] == s.payments[p].amount && Some(s.earnings[p].driver) == driver)
  }

  lemma FirstSuccessPaysInFull(s: Books, t: Books, p: PaymentId, driver: Option<DriverId>, now: Time)
    requires FirstSuccess(s, t, p, driver, now) && s.payments[p].refunded == 0
    ensures PaidInFull(t, p, driver)
  {
    SplitIsExact(s.payments[p].amount);
  }

  lemma MarkPaysInFull(s: Books, p: PaymentId, driver: Option<DriverId>, now: Time)
    requires MoneyOk(s) && p in s.payments && PaymentMayBecome(s.payments[p].status, Succeeded)
    ensures MarkSucceeded(s, p, driver, now).Committed? <==> s.payments[p].amount > 0
    ensures MarkSucceeded(s, p, driver, now).Committed? ==> PaidInFull(MarkSucceeded(s, p, driver, now).state, p, driver)
  {
    SuccessExactly(s, p, driver, now);
    assert PaymentOk(s, p);
    if s.payments[p].amount > 0 {
      SuccessEffect(s, p, driver, now);
      FirstSuccessPaysInFull(s, MarkSucceeded(s, p, driver, now).state, p, driver, now);
    }
  }

  lemma CreatedIsPayable(s: Books, target: Target, driver: Option<DriverId>, online: bool, amount: nat, p: PaymentId,
                         i: IntentId, intentStatus: IntentStatus, now: Time)
    requires BooksOk(s) && p !in s.payments && i !in s.intents && intentStatus != IntentSucceeded
    requires forall q | q in s.payments :: !HasActivePayment(s, target, q)
    ensures var r := CreatePayment(s, target, driver, online, amount, p, i, intentStatus, None, now);
            && r.Committed? && BooksOk(r.state)
            && p in r.state.payments && r.state.payments[p].amount == amount
            && PaymentMayBecome(r.state.payments[p].status, Succeeded)
            && (online ==> i in r.state.intents && r.state.intents[i] == Intent(p, intentStatus))
            && (!online ==>
                  && p in r.state.settlements
                  && r.state.settlements[p] == Settlement(SettlementDeclared, amount, 0, driver))
  {
    CreatePaymentKeepsBooks(s, target, driver, online, amount, p, i, intentStatus, None, now);
    CreatedRows(s, target, driver, online, amount, p, i, intentStatus, now);
  }

  lemma CreatedRows(s: Books, target: Target, driver: Option<DriverId>, online: bool, amount: nat, p: PaymentId,
                    i: IntentId, intentStatus: IntentStatus, now: Time)
    requires p !in s.payments && i !in s.intents
    ensures var r := CreatePayment(s, target, driver, online, amount, p, i, intentStatus, None, now);
            && r.Committed?
            && p in r.state.payments && r.state.payments[p].amount == amount
            && PaymentMayBecome(r.state.payments[p].status, Succeeded)
            && (online ==> i in r.state.intents && r.state.intents[i] == Intent(p, intentStatus))
            && (!online ==>
                  && p in r.state.settlements
                  && r.state.settlements[p] == Settlement(SettlementDeclared, amount, 0, driver))
  {
  }

  /** From creation to success in cash: a driver's confirmation goes through
      exactly when the amount is positive and the target had a driver, the one who
      confirms; then everything expected was received and the payment is paid in
      full. */
  lemma CashRoundTrip(s: Books, target: Target, driver: Option<DriverId>, amount: nat, p: PaymentId, i: IntentId,
                      confirming: Option<DriverId>, created: Time, confirmed: Time)
    requires BooksOk(s) && p !in s.payments && i !in s.intents
    requires forall q | q in s.payments :: !HasActivePayment(s, target, q)
    ensures var t := CreatePayment(s, target, driver, false, amount, p, i, IntentCreated, None, created).state;
            var r := ConfirmCash(t, p, SettlementDeclared, true, confirming, confirmed);
            && (r.Committed? <==> amount > 0 && driver.Some? && confirming == driver)
            && (r.Committed? ==>
                  && p in r.state.settlements
                  && r.state.settlements[p] == Settlement(SettlementConfirmed, amount, amount, driver)
                  && PaidInFull(r.state, p, driver))
  {
    CreatedIsPayable(s, target, driver, false, amount, p, i, IntentCreated, created);
    var t := CreatePayment(s, target, driver, false, amount, p, i, IntentCreated, None, created).state;
    SettledPays(t, p, confirming, confirmed);
  }

  /** A confirmation of a payment that may still succeed. */
  lemma SettledPays(t: Books, p: PaymentId, confirming: Option<DriverId>, now: Time)
    requires BooksOk(t) && p in t.settlements && p in t.payments && PaymentMayBecome(t.payments[p].status, Succeeded)
    ensures var r := ConfirmCash(t, p, SettlementDeclared, true, confirming, now);
            && (r.Committed? <==> t.payments[p].amount > 0 && FindsSettlement(t, p, confirming))
            && (r.Committed? ==>
                  && p in r.state.settlements && r.state.settlements[p] == Settled(t.settlements[p], true)
                  && PaidInFull(r.state, p, confirming))
  {
    if FindsSettlement(t, p, confirming) {
      ConfirmationMarks(t, p, confirming, now);
      SettledMarks(t, p, confirming, now);
    }
  }

  lemma ConfirmationMarks(t: Books, p: PaymentId, confirming: Option<DriverId>, now: Time)
    requires FindsSettlement(t, p, confirming)
    ensures ConfirmCash(t, p, SettlementDeclared, true, confirming, now)
         == MarkSucceeded(WithSettled(t, p, true), p, confirming, now)
  {
  }

  lemma SettledMarks(t: Books, p: PaymentId, confirming: Option<DriverId>, now: Time)
    requires BooksOk(t) && p in t.settlements && p in t.payments && PaymentMayBecome(t.payments[p].status, Succeeded)
    ensures var r := MarkSucceeded(WithSettled(t, p, true), p, confirming, now);
            && (r.Committed? <==> t.payments[p].amount > 0)
            && (r.Committed? ==>
                  r.state.settlements == WithSettled(t, p, true).settlements && PaidInFull(r.state, p, confirming))
  {
    var u := WithSettled(t, p, true);
    SameTables(t, u);
    MarkPaysInFull(u, p, confirming, now);
    if t.payments[p].amount > 0 { MarkSucceededKeepsMoney(u, p, confirming, now); }
  }

  /** From creation to success online: a SUCCEEDED webhook goes through exactly
      when the amount is positive and the provider left the intent open. */
  lemma OnlineRoundTrip(s: Books, target: Target, driver: Option<DriverId>, amount: nat, p: PaymentId, i: IntentId,
                        intentStatus: IntentStatus, created: Time, paid: Time)
    requires BooksOk(s) && p !in s.payments && i !in s.intents && intentStatus != IntentSucceeded
    requires forall q | q in s.payments :: !HasActivePayment(s, target, q)
    ensures var t := CreatePayment(s, target, driver, true, amount, p, i, intentStatus, None, created).state;
            var r := Webhook(t, i, intentStatus, IntentSucceeded, false, driver, paid);
            && (r.Committed? <==> amount > 0 && OpenIntent(intentStatus))
            && (r.Committed? ==> PaidInFull(r.state, p, driver))
  {
    CreatedIsPayable(s, target, driver, true, amount, p, i, intentStatus, created);
    OpenIntentPays(CreatePayment(s, target, driver, true, amount, p, i, intentStatus, None, created).state, i, driver, paid);
  }

  lemma OpenIntentPays(t: Books, i: IntentId, driver: Option<DriverId>, paid: Time)
    requires BooksOk(t) && i in t.intents && t.intents[i].payment in t.payments && t.intents[i].status != IntentSucceeded
    requires PaymentMayBecome(t.payments[t.intents[i].payment].status, Succeeded)
    ensures var p := t.intents[i].payment;
            var r := Webhook(t, i, t.intents[i].status, IntentSucceeded, false, driver, paid);
            && (r.Committed? <==> t.payments[p].amount > 0 && OpenIntent(t.intents[i].status))
            && (r.Committed? ==> PaidInFull(r.state, p, driver))
  {
    if OpenIntent(t.intents[i].status) {
      var u := t.(intents := t.intents[i := t.intents[i].(status := IntentSucceeded)]);
      SucceededIntentMarks(t, i, driver, paid);
      SameTables(t, u);
      MarkPaysInFull(u, t.intents[i].payment, driver, paid);
    }
  }

  lemma SucceededIntentMarks(t: Books, i: IntentId, driver: Option<DriverId>, paid: Time)
    requires i in t.intents && OpenIntent(t.intents[i].status)
    ensures var u := t.(intents := t.intents[i := t.intents[i].(status := IntentSucceeded)]);
            Webhook(t, i, t.intents[i].status, IntentSucceeded, false, driver, paid)
            == MarkSucceeded(u, t.intents[i].payment, driver, paid)
  {
  }

  // ----- cash for a target without a driver -----

  /** A cash payment whose settlement names no driver, and which no intent is for. */
  ghost predicate Stuck(s: Books, p: PaymentId, target: Target) {
    && p in s.payments && s.payments[p].target == target
    && !s.payments[p].online && s.payments[p].status == Processing
    && p in s.settlements && s.settlements[p].driver == None
    && forall i | i in s.intents :: s.intents[i].payment != p
  }

  lemma MarkOtherKeepsStuck(s: Books, p: PaymentId, target: Target, other: PaymentId, driver: Option<DriverId>, now: Time)
    requires Stuck(s, p, target) && other != p && MarkSucceeded(s, other, driver, now).Committed?
    ensures Stuck(MarkSucceeded(s, other, driver, now).state, p, target)
  {
  }

  lemma CreateKeepsStuck(s: Books, p: PaymentId, target: Target, step: Step)
    requires Stuck(s, p, target) && step.CreatePaymentStep?
    ensures Stuck(Apply(s, step), p, target)
  {
  }

  lemma WebhookKeepsStuck(s: Books, p: PaymentId, target: Target, i: IntentId, read: IntentStatus, posted: IntentStatus,
                          duplicate: bool, driver: Option<DriverId>, now: Time)
    requires Stuck(s, p, target)
    ensures var r := Webhook(s, i, read, posted, duplicate, driver, now); r.Committed? ==> Stuck(r.state, p, target)
  {
    if i in s.intents && TransitionIntent(read, posted).Committed? {
      var t := s.(intents := s.intents[i := s.intents[i].(status := TransitionIntent(read, posted).state)]);
      assert Stuck(t, p, target);
      if MarkSucceeded(t, s.intents[i].payment, driver, now).Committed? {
        MarkOtherKeepsStuck(t, p, target, s.intents[i].payment, driver, now);
      }
    }
  }

  lemma CashKeepsStuck(s: Books, p: PaymentId, target: Target, other: PaymentId, read: SettlementStatus, received: bool,
                       confirming: Option<DriverId>, now: Time)
    requires Stuck(s, p, target)
    ensures var r := ConfirmCash(s, other, read, received, confirming, now); r.Committed? ==> Stuck(r.state, p, target)
  {
    if FindsSettlement(s, other, confirming) {
      var t := WithSettled(s, other, received);
      assert Stuck(t, p, target);
      if MarkSucceeded(t, other, confirming, now).Committed? { MarkOtherKeepsStuck(t, p, target, other, confirming, now); }
    }
  }

  lemma RoundKeepsStuck(s: Books, p: PaymentId, target: Target, step: Step)
    requires RefundsLinked(s) && Stuck(s, p, target) && step.ProcessRefundStep? && Enabled(s, step)
    ensures Stuck(Apply(s, step), p, target)
  {
  }

  lemma ExpiryKeepsStuck(s: Books, p: PaymentId, target: Target, other: PaymentId)
    requires Stuck(s, p, target)
    ensures Stuck(ExpireStale(s, other), p, target)
  {
  }

  lemma OthersKeepStuck(s: Books, p: PaymentId, target: Target, step: Step)
    requires step.ReleaseStep? || step.PayoutStep? || step.PayoutStatusStep? || step.RequestRefundStep?
    requires Stuck(s, p, target)
    ensures Stuck(Apply(s, step), p, target)
  {
    OthersKeepRows(s, step);
  }

  lemma OthersKeepRows(s: Books, step: Step)
    requires step.ReleaseStep? || step.PayoutStep? || step.PayoutStatusStep? || step.RequestRefundStep?
    ensures var t := Apply(s, step);
            t.payments == s.payments && t.settlements == s.settlements && t.intents == s.intents
  {
  }

  lemma StepKeepsStuck(s: Books, p: PaymentId, target: Target, step: Step)
    requires RefundsLinked(s) && Stuck(s, p, target) && Enabled(s, step)
    ensures Stuck(Apply(s, step), p, target)
  {
    match step
    case WebhookStep(i, read, posted, duplicate, driver, now) =>
      WebhookKeepsStuck(s, p, target, i, read, posted, duplicate, driver, now);
    case CashStep(other, read, received, confirming, now) =>
      CashKeepsStuck(s, p, target, other, read, received, confirming, now);
    case ProcessRefundStep(_) => RoundKeepsStuck(s, p, target, step);
    case CreatePaymentStep(_, _, _, _, _, _, _, _, _) => CreateKeepsStuck(s, p, target, step);
    case ExpireStep(other) => ExpiryKeepsStuck(s, p, target, other);
    case _ => OthersKeepStuck(s, p, target, step);
  }

  lemma {:induction false} RunKeepsStuck(s: Books, p: PaymentId, target: Target, steps: seq<Step>)
    requires BooksOk(s) && Stuck(s, p, target) && Run(s, steps)
    ensures Stuck(Exec(s, steps), p, target)
    decreases |steps|
  {
    if steps != [] {
      StepKeepsStuck(s, p, target, steps[0]);
      StepKeepsBooks(s, steps[0]);
      RunKeepsStuck(Apply(s, steps[0]), p, target, steps[1..]);
    }
  }

  lemma ActiveIsTheAnswer(s: Books, p: PaymentId, again: Step)
    requires OneActive(s) && p in s.payments && IsActive(s.payments[p].status)
    requires again.CreatePaymentStep? && again.target == s.payments[p].target && Enabled(s, again)
    ensures again.existing == Some(p) && Apply(s, again) == s
  {
    assert HasActivePayment(s, again.target, p);
  }

  /** Cash chosen for a target without a driver is never confirmed and never
      expires: on every run the payment stays PROCESSING, and every later creation
      for that target, online ones too, answers with it and creates nothing. */
  lemma DriverlessCashIsStuck(s: Books, target: Target, amount: nat, p: PaymentId, i: IntentId, created: Time,
                              steps: seq<Step>, again: Step)
    requires BooksOk(s) && p !in s.payments && i !in s.intents
    requires forall q | q in s.payments :: !HasActivePayment(s, target, q)
    requires Run(CreatePayment(s, target, None, false, amount, p, i, IntentCreated, None, created).state, steps)
    ensures var t := CreatePayment(s, target, None, false, amount, p, i, IntentCreated, None, created).state;
            var u := Exec(t, steps);
            && p in u.payments && u.payments[p].status == Processing
            && (again.CreatePaymentStep? && again.target == target && Enabled(u, again) ==>
                  again.existing == Some(p) && Apply(u, again) == u)
  {
    var t := CreatePayment(s, target, None, false, amount, p, i, IntentCreated, None, created).state;
    CreatedIsPayable(s, target, None, false, amount, p, i, IntentCreated, created);
    NewCashIsStuck(s, target, amount, p, i, created);
    StuckForGood(t, p, target, steps, again);
  }

  lemma StuckForGood(t: Books, p: PaymentId, target: Target, steps: seq<Step>, again: Step)
    requires BooksOk(t) && Stuck(t, p, target) && Run(t, steps)
    ensures var u := Exec(t, steps);
            && Stuck(u, p, target)
            && (again.CreatePaymentStep? && again.target == target && Enabled(u, again) ==>
                  again.existing == Some(p) && Apply(u, again) == u)
  {
    RunKeepsStuck(t, p, target, steps);
    RunKeepsBooks(t, steps);
    if again.CreatePaymentStep? && again.target == target && Enabled(Exec(t, steps), again) {
      ActiveIsTheAnswer(Exec(t, steps), p, again);
    }
  }

  lemma NewCashIsStuck(s: Books, target: Target, amount: nat, p: PaymentId, i: IntentId, created: Time)
    requires IntentsOk(s) && p !in s.payments
    ensures var r := CreatePayment(s, target, None, false, amount, p, i, IntentCreated, None, created);
            r.Committed? && Stuck(r.state, p, target)
  {
  }

  // ----- from earning to payout -----

  lemma ReleasedEarning(s: Books, p: PaymentId, now: Time)
    requires p in s.earnings && s.earnings[p].status == EarningPending
    ensures var t := ReleaseEarnings(s, now);
            && p in t.earnings
            && t.earnings[p] == s.earnings[p].(status := if s.earnings[p].availableAt <= now then EarningAvailable else EarningPending)
  {
  }

  lemma ClaimOfOne(s: Books, driver: DriverId, p: PaymentId, payout: PayoutId)
    requires p in s.earnings && s.earnings[p].driver == driver && s.earnings[p].payout == None && payout !in s.payouts
    ensures CreatePayout(s, driver, [p], payout).Committed? <==> s.earnings[p].status == EarningAvailable
    ensures CreatePayout(s, driver, [p], payout).Committed? ==>
              PayoutClaimed(s, CreatePayout(s, driver, [p], payout).state, driver, {p}, payout)
  {
    assert AsSet([p]) == {p};
    ClaimIsAllOrNothing(s, driver, [p], payout);
  }

  /** What a driver earned can be put into a payout exactly from a day after the
      payment succeeded on. */
  lemma PayableAfterADay(s: Books, t: Books, p: PaymentId, driver: DriverId, succeeded: Time, released: Time, payout: PayoutId)
    requires FirstSuccess(s, t, p, Some(driver), succeeded) && s.payments[p].amount > 1 && payout !in s.payouts
    ensures CreatePayout(ReleaseEarnings(t, released), driver, [p], payout).Committed? <==>
              succeeded + 24 * 60 * 60 * 1000 <= released
  {
    SplitIsExact(s.payments[p].amount);
    ReleasedEarning(t, p, released);
    ClaimOfOne(ReleaseEarnings(t, released), driver, p, payout);
  }

  /** Paying that payout pays exactly this earning and takes exactly its net off
      the balance of driver_earnings_payable, which is then what it was before the
      payment succeeded. */
  lemma PayoutSettlesTheDebt(s: Books, t: Books, p: PaymentId, driver: DriverId, succeeded: Time, released: Time,
                             payout: PayoutId)
    requires BooksOk(s) && FirstSuccess(s, t, p, Some(driver), succeeded) && s.payments[p].amount > 1
    requires payout !in s.payouts && succeeded + EARNING_DELAY <= released
    ensures var claimed := CreatePayout(ReleaseEarnings(t, released), driver, [p], payout);
            && claimed.Committed?
            && var settled := SetPayoutStatus(claimed.state, payout, PayoutPaid);
            && settled.Committed?
            && p in settled.state.earnings && settled.state.earnings[p].status == EarningPaid
            && PayableBalance(settled.state) == PayableBalance(s)
  {
    var u := ReleaseEarnings(t, released);
    SplitIsExact(s.payments[p].amount);
    SuccessRaisesBalance(s, t, p, Some(driver), succeeded);
    ReleasedIsOk(s, t, u, p, driver, succeeded, released);
    ReleasedEarning(t, p, released);
    ClaimAndPay(u, driver, p, payout);
  }

  lemma ClaimAndPay(s: Books, driver: DriverId, p: PaymentId, payout: PayoutId)
    requires BooksOk(s) && p in s.earnings && Payable(s.earnings[p], driver) && payout !in s.payouts
    ensures var claimed := CreatePayout(s, driver, [p], payout);
            && claimed.Committed?
            && var settled := SetPayoutStatus(claimed.state, payout, PayoutPaid);
            && settled.Committed?
            && p in settled.state.earnings && settled.state.earnings[p].status == EarningPaid
            && PayableBalance(settled.state) == PayableBalance(s) - s.earnings[p].net
  {
    ClaimOfOne(s, driver, p, payout);
    ClaimedThenPaid(s, CreatePayout(s, driver, [p], payout).state, driver, p, payout);
  }

  lemma ClaimedThenPaid(s: Books, t: Books, driver: DriverId, p: PaymentId, payout: PayoutId)
    requires BooksOk(s) && p in s.earnings && PayoutClaimed(s, t, driver, {p}, payout)
    ensures var settled := SetPayoutStatus(t, payout, PayoutPaid);
            && settled.Committed?
            && p in settled.state.earnings && settled.state.earnings[p].status == EarningPaid
            && PayableBalance(settled.state) == PayableBalance(s) - s.earnings[p].net
  {
    assert PayoutKey(payout) in s.ledger ==> PostingOk(s, PayoutKey(payout));
    ClaimKeepsBooks(s, t, driver, {p}, payout);
    SingleNet(s.earnings, p);
    NewPayoutIsPaid(t, p, payout);
  }

  lemma NewPayoutIsPaid(s: Books, p: PaymentId, payout: PayoutId)
    requires EarningsOk(s) && PayoutsOk(s) && payout in s.payouts && PayoutKey(payout) !in s.ledger
    requires p in s.earnings && s.earnings[p].payout == Some(payout)
    ensures var settled := SetPayoutStatus(s, payout, PayoutPaid);
            && settled.Committed?
            && p in settled.state.earnings && settled.state.earnings[p].status == EarningPaid
            && PayableBalance(settled.state) == PayableBalance(s) - s.payouts[payout].gross
  {
    assert PayoutOk(s, payout);
    PaidPayoutLowersBalance(s, payout);
    FirstPayoutPays(s, payout, p);
  }

  lemma ReleasedIsOk(s: Books, t: Books, u: Books, p: PaymentId, driver: DriverId, succeeded: Time, released: Time)
    requires BooksOk(s) && FirstSuccess(s, t, p, Some(driver), succeeded) && u == ReleaseEarnings(t, released)
    ensures BooksOk(u) && u.ledger == t.ledger && u.payouts == s.payouts
  {
    FirstSuccessKeepsMoney(s, t, p, Some(driver), succeeded);
    FirstSuccessActive(s, t, p, Some(driver), succeeded);
    ReleaseEarningsKeepsBooks(t, u, released);
  }

  lemma SingleNet(earnings: map<PaymentId, Earning>, p: PaymentId)
    requires p in earnings
    ensures Sum(NetColumn(earnings, {p})) == earnings[p].net
  {
    var none: map<PaymentId, int> := map[];
    assert NetColumn(earnings, {p}) == none[p := earnings[p].net];
    SumInsert(none, p, earnings[p].net);
  }

  lemma PaidPayoutLowersBalance(s: Books, payout: PayoutId)
    requires EarningsOk(s) && payout in s.payouts && PayoutOk(s, payout) && PayoutKey(payout) !in s.ledger
    ensures var r := SetPayoutStatus(s, payout, PayoutPaid);
            r.Committed? && PayableBalance(r.state) == PayableBalance(s) - s.payouts[payout].gross
  {
    PayoutIsDebitedOnce(s, payout, PayoutPaid);
    TransferPosting(DriverEarningsPayable, CashOrBank, s.payouts[payout].gross);
    PostingAddsNet(s.ledger, PayoutKey(payout), PayoutEntries(s.payouts[payout]));
  }

  lemma FirstPayoutPays(s: Books, payout: PayoutId, p: PaymentId)
    requires EarningsOk(s) && payout in s.payouts && PayoutOk(s, payout) && PayoutKey(payout) !in s.ledger
    requires p in s.earnings && s.earnings[p].payout == Some(payout)
    ensures var r := SetPayoutStatus(s, payout, PayoutPaid);
            r.Committed? && p in r.state.earnings && r.state.earnings[p].status == EarningPaid
  {
    PayoutIsDebitedOnce(s, payout, PayoutPaid);
  }
}
