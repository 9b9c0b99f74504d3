/** Drivers in the joint system of payments and seats: where every parcel has one the
    ledger and the earnings agree, and every earning goes to the driver who drives. */
module CheckoutDrivers {
  import opened Tables
  import opened Checkout
  import M = Money
  import F = Finance
  import FS = FinanceSafety
  import FL = FinanceLaws
  import FV = FinanceViews
  import S = SeatInventory
  import SS = SeatSafety
  import HoldKeys

  // ----- where every parcel has a driver, every success finds one -----

  predicate Known(s: Joint, target: F.Target) {
    match target
    case BookingTarget(b) => b in s.inv.bookings
    case ParcelTarget(q) => q in s.parcels
  }

  ghost predicate TargetsKnown(s: Joint) {
    forall p | p in s.books.payments :: Known(s, s.books.payments[p].target)
  }

  ghost predicate EveryParcelHasDriver(s: Joint) {
    forall q | q in s.parcels :: s.parcels[q].Some?
  }

  /** Bookings are never deleted, and the drivers are fixed. */
  ghost predicate TargetsStay(s: Joint, t: Joint) {
    s.inv.bookings.Keys <= t.inv.bookings.Keys && t.parcels == s.parcels && t.driver == s.driver
  }

  lemma SeatStepKeepsBookings(s: S.Inventory, step: S.Step)
    ensures s.bookings.Keys <= S.Apply(s, step).bookings.Keys
  {
    match step
    case CreateHoldStep(_, _, _, _, _, sweep, _) =>
      HoldKeys.SweepAddsNoHold(s, sweep);
      SS.CreateOutcomes(s, step);
    case SweepStep(sweep, _) => HoldKeys.SweepAddsNoHold(s, sweep);
    case _ =>
  }

  lemma {:induction false} SeatRunKeepsBookings(s: S.Inventory, steps: seq<S.Step>)
    ensures s.bookings.Keys <= S.Exec(s, steps).bookings.Keys
    decreases |steps|
  {
    if steps != [] {
      SeatStepKeepsBookings(s, steps[0]);
      SeatRunKeepsBookings(S.Apply(s, steps[0]), steps[1..]);
    }
  }

  lemma StepKeepsTargets(s: Joint, step: Step)
    requires Enabled(s, step)
    ensures TargetsStay(s, Apply(s, step))
  {
    StepProjects(s, step);
    SeatRunKeepsBookings(s.inv, SeatPart(s, step));
  }

  /** Every payment there is afterwards was there before, for the same target, or
      was created by the step for a target that passed the payable check. */
  ghost predicate OldOrChecked(s: Joint, t: Joint) {
    forall p | p in t.books.payments ::
      || (p in s.books.payments && t.books.payments[p].target == s.books.payments[p].target)
      || Known(s, t.books.payments[p].target)
  }

  lemma CreateIsChecked(s: Joint, step: Step)
    requires step.CreateStep?
    ensures OldOrChecked(s, Apply(s, step))
  {
    if Attempt(s, step).Committed? && step.existing == None { CreatedRow(s, step); }
  }

  lemma SuccessIsOld(s: Joint, books: F.Books, p: F.PaymentId)
    requires OneSuccess(s.books, books, p) && FS.TermsStay(s.books, books)
    ensures OldOrChecked(s, Paid(s, books, p))
  {
  }

  lemma MoneyIsOld(s: Joint, money: FS.Step)
    requires FS.RefundsLinked(s.books) && MoneyOnly(money) && FS.Enabled(s.books, money)
    ensures OldOrChecked(s, s.(books := FS.Apply(s.books, money)))
  {
    if money.ProcessRefundStep? {
      if FS.Attempt(s.books, money).Committed? { FS.ProcessRefundEffect(s.books, money.pending); }
    } else {
      FL.OthersKeepPayments(s.books, money);
    }
  }

  lemma SuccessStepIsOld(s: Joint, step: Step)
    requires FS.Sound(s.books) && (step.WebhookStep? || step.CashStep?) && Attempt(s, step).Committed?
    ensures OldOrChecked(s, Apply(s, step))
  {
    if step.CashStep? {
      CashIsOneSuccess(s.books, step.p, step.settlement, step.received, step.confirming, step.now);
      FS.ConfirmCashKeepsBooks(s.books, step.p, step.settlement, step.received, step.confirming, step.now);
      SuccessIsOld(s, F.ConfirmCash(s.books, step.p, step.settlement, step.received, step.confirming, step.now).state, step.p);
    } else if step.i in s.books.intents {
      var p := s.books.intents[step.i].payment;
      var driver := DriverOfPayment(s, p);
      WebhookIsOneSuccess(s.books, step.i, step.read, step.posted, step.duplicate, driver, step.now);
      FS.WebhookKeepsBooks(s.books, step.i, step.read, step.posted, step.duplicate, driver, step.now);
      SuccessIsOld(s, F.Webhook(s.books, step.i, step.read, step.posted, step.duplicate, driver, step.now).state, p);
    }
  }

  lemma ExpireIsOld(s: Joint, p: F.PaymentId, first: Option<S.HoldId>)
    ensures OldOrChecked(s, Expire(s, p, first))
  {
    if p in s.books.payments && F.Stale(s.books.payments[p]) { ExpiredRow(s, p, first); }
  }

  lemma StepIsOldOrChecked(s: Joint, step: Step)
    requires FS.Sound(s.books) && Enabled(s, step)
    ensures OldOrChecked(s, Apply(s, step))
  {
    match step
    case CreateStep(_, _, _, _, _, _, _, _, _, _) => CreateIsChecked(s, step);
    case WebhookStep(_, _, _, _, _) => if Attempt(s, step).Committed? { SuccessStepIsOld(s, step); }
    case CashStep(_, _, _, _, _) => if Attempt(s, step).Committed? { SuccessStepIsOld(s, step); }
    case ExpireStep(p, first) => ExpireIsOld(s, p, first);
    case MoneyStep(money) => MoneyIsOld(s, money);
    case SeatStep(_) =>
  }

  lemma KnownStays(s: Joint, t: Joint)
    requires TargetsKnown(s) && TargetsStay(s, t) && OldOrChecked(s, t)
    ensures TargetsKnown(t)
  {
  }

  lemma PartFindsDriver(s: Joint, step: Step)
    requires FS.IntentsOk(s.books) && TargetsKnown(s) && EveryParcelHasDriver(s) && Enabled(s, step)
    ensures forall i | 0 <= i < |MoneyPart(s, step)| :: FV.FindsDriver(MoneyPart(s, step)[i])
  {
  }

  ghost predicate DrivenOk(s: Joint) {
    FS.BooksOk(s.books) && TargetsKnown(s) && EveryParcelHasDriver(s)
  }

  lemma StepKeepsKnown(s: Joint, step: Step)
    requires FS.BooksOk(s.books) && TargetsKnown(s) && Enabled(s, step)
    ensures FS.BooksOk(Apply(s, step).books) && TargetsKnown(Apply(s, step))
    ensures FS.TermsStay(s.books, Apply(s, step).books)
  {
    StepProjects(s, step);
    MoneyPartKeeps(s, step);
    StepKeepsTargets(s, step);
    StepIsOldOrChecked(s, step);
    KnownStays(s, Apply(s, step));
  }

  lemma AtMostOneStep(s: F.Books, steps: seq<FS.Step>, t: F.Books)
    requires FS.BooksOk(s) && |steps| <= 1 && IsMoneyRun(s, steps, t)
    ensures FS.BooksOk(t) && FS.TermsStay(s, t)
  {
    if steps != [] {
      assert steps == [steps[0]];
      MoneyOne(s, steps[0]);
      FS.StepKeepsBooks(s, steps[0]);
    }
  }

  lemma OneMoneyStep(s: Joint, step: Step)
    ensures |MoneyPart(s, step)| <= 1
  {
  }

  lemma MoneyPartKeeps(s: Joint, step: Step)
    requires FS.BooksOk(s.books) && IsMoneyRun(s.books, MoneyPart(s, step), Apply(s, step).books)
    ensures FS.BooksOk(Apply(s, step).books) && FS.TermsStay(s.books, Apply(s, step).books)
  {
    OneMoneyStep(s, step);
    AtMostOneStep(s.books, MoneyPart(s, step), Apply(s, step).books);
  }

  lemma StepKeepsDriven(s: Joint, step: Step)
    requires DrivenOk(s) && Enabled(s, step)
    ensures DrivenOk(Apply(s, step))
  {
    StepKeepsKnown(s, step);
    StepKeepsTargets(s, step);
  }

  lemma {:induction false} PartsFindDrivers(s: Joint, steps: seq<Step>)
    requires DrivenOk(s) && Run(s, steps)
    ensures forall i | 0 <= i < |MoneyParts(s, steps)| :: FV.FindsDriver(MoneyParts(s, steps)[i])
    decreases |steps|
  {
    if steps != [] {
      PartFindsDriver(s, steps[0]);
      StepKeepsDriven(s, steps[0]);
      PartsFindDrivers(Apply(s, steps[0]), steps[1..]);
    }
  }

  /** If every parcel was ordered for a trip, then on every run from publication the
      ledger owes drivers exactly what their earnings claim: each success finds a
      driver, of the trip for a booking, by itself for a parcel. */
  lemma EveryPaymentIsClaimed(capacity: nat, driver: F.DriverId, parcels: map<nat, Option<F.DriverId>>, steps: seq<Step>)
    requires 1 <= capacity && (forall q | q in parcels :: parcels[q].Some?)
    requires Run(Published(capacity, driver, parcels), steps)
    ensures FV.ViewsAgree(Exec(Published(capacity, driver, parcels), steps).books)
  {
    var start := Published(capacity, driver, parcels);
    FS.EmptyBooksAreOk();
    FL.EmptyBooksMirror();
    FV.EmptyViewsAgree(F.EMPTY_BOOKS);
    PartsFindDrivers(start, steps);
    RunProjects(start, steps);
    FV.RunKeepsViewsEqual(F.EMPTY_BOOKS, MoneyParts(start, steps));
  }

  // ----- who may pay, and who earns -----

  /** A payment is refused exactly to anyone but the client of a booking, for a closed
      booking, for an unknown parcel, and for a parcel its own check turns down. */
  lemma OnlyTheClientPays(s: Joint, payer: S.UserId, target: F.Target, refusal: Option<string>, online: bool, amount: nat,
                          p: F.PaymentId, i: F.IntentId, intentStatus: M.IntentStatus, now: F.Time)
    requires p !in s.books.payments && i !in s.books.intents
    ensures Create(s, payer, target, refusal, online, amount, p, i, intentStatus, None, now).Committed? <==>
              match target
              case BookingTarget(b) =>
                && b in s.inv.bookings && s.inv.bookings[b].client == payer
                && s.inv.bookings[b].status !in {S.CancelledByClient, S.CancelledByDriver, S.CancelledByAdmin, S.Expired}
              case ParcelTarget(q) => q in s.parcels && refusal == None
  {
  }

  /** Every earning, and every settlement that names a driver, is the target's driver's. */
  ghost predicate DriversOk(s: Joint) {
    && (forall e | e in s.books.earnings ::
          e in s.books.payments && DriverOf(s, s.books.payments[e].target) == Some(s.books.earnings[e].driver))
    && (forall p | p in s.books.settlements ::
          p in s.books.payments && s.books.settlements[p].driver == DriverOf(s, s.books.payments[p].target))
  }

  /** What a transaction leaves of drivers: new earnings and settlements are those of
      the driver of their target, old ones keep theirs. */
  ghost predicate EarnsFor(s: Joint, t: F.Books) {
    && (forall e | e in t.earnings ::
          || (e in s.books.earnings && t.earnings[e].driver == s.books.earnings[e].driver)
          || (e in s.books.payments && DriverOf(s, s.books.payments[e].target) == Some(t.earnings[e].driver)))
    && (forall p | p in t.settlements ::
          || (p in s.books.settlements && t.settlements[p].driver == s.books.settlements[p].driver)
          || (p in t.payments && t.settlements[p].driver == DriverOf(s, t.payments[p].target)))
  }

  lemma MarkEarnsFor(s: F.Books, p: F.PaymentId, driver: Option<F.DriverId>, now: F.Time)
    ensures var r := F.MarkSucceeded(s, p, driver, now);
            r.Committed? ==>
              && r.state.settlements == s.settlements
              && (|| r.state.earnings == s.earnings
                  || (&& driver.Some? && p in r.state.earnings && r.state.earnings[p].driver == driver.value
                      && r.state.earnings == s.earnings[p := r.state.earnings[p]] && p in s.payments))
  {
  }

  lemma WebhookEarnsFor(s: Joint, i: F.IntentId, read: M.IntentStatus, posted: M.IntentStatus, duplicate: bool, now: F.Time)
    requires i in s.books.intents
    ensures var r := F.Webhook(s.books, i, read, posted, duplicate, DriverOfPayment(s, s.books.intents[i].payment), now);
            r.Committed? ==> EarnsFor(s, r.state)
  {
    var driver := DriverOfPayment(s, s.books.intents[i].payment);
    if M.TransitionIntent(read, posted).Committed? {
      var next := M.TransitionIntent(read, posted).state;
      MarkEarnsFor(s.books.(intents := s.books.intents[i := s.books.intents[i].(status := next)]),
                   s.books.intents[i].payment, driver, now);
    }
  }

  lemma CashEarnsFor(s: Joint, p: F.PaymentId, read: F.SettlementStatus, received: bool, confirming: Option<F.DriverId>,
                     now: F.Time)
    requires DriversOk(s)
    ensures var r := F.ConfirmCash(s.books, p, read, received, confirming, now); r.Committed? ==> EarnsFor(s, r.state)
  {
    if F.FindsSettlement(s.books, p, confirming) {
      MarkEarnsFor(FS.WithSettled(s.books, p, received), p, confirming, now);
    }
  }

  lemma CreateEarnsFor(s: Joint, step: Step)
    requires step.CreateStep?
    ensures EarnsFor(s, Apply(s, step).books)
  {
  }

  lemma MoneyEarnsFor(s: Joint, money: FS.Step)
    requires MoneyOnly(money)
    ensures EarnsFor(s, FS.Apply(s.books, money))
  {
    if money.PayoutStep? {
      PayoutKeepsDrivers(s.books, money.driverId, money.ids, money.payout);
    } else if money.PayoutStatusStep? {
      StatusKeepsDrivers(s.books, money.payout, money.status);
    }
  }

  lemma PayoutKeepsDrivers(s: F.Books, driver: F.DriverId, ids: seq<F.PaymentId>, payout: F.PayoutId)
    ensures var r := F.CreatePayout(s, driver, ids, payout);
            r.Committed? ==>
              && r.state.settlements == s.settlements && r.state.earnings.Keys == s.earnings.Keys
              && forall e | e in s.earnings :: r.state.earnings[e].driver == s.earnings[e].driver
  {
  }

  lemma StatusKeepsDrivers(s: F.Books, payout: F.PayoutId, status: F.PayoutStatus)
    ensures var r := F.SetPayoutStatus(s, payout, status);
            r.Committed? ==>
              && r.state.settlements == s.settlements && r.state.earnings.Keys == s.earnings.Keys
              && forall e | e in s.earnings :: r.state.earnings[e].driver == s.earnings[e].driver
  {
  }

  lemma ExpireEarnsFor(s: Joint, p: F.PaymentId, first: Option<S.HoldId>)
    ensures EarnsFor(s, Expire(s, p, first).books)
  {
  }

  lemma SuccessEarnsFor(s: Joint, step: Step)
    requires DriversOk(s) && (step.WebhookStep? || step.CashStep?)
    ensures EarnsFor(s, Apply(s, step).books)
  {
    if step.CashStep? {
      CashEarnsFor(s, step.p, step.settlement, step.received, step.confirming, step.now);
    } else if step.i in s.books.intents {
      WebhookEarnsFor(s, step.i, step.read, step.posted, step.duplicate, step.now);
    }
  }

  lemma StepEarnsFor(s: Joint, step: Step)
    requires DriversOk(s) && Enabled(s, step)
    ensures EarnsFor(s, Apply(s, step).books)
  {
    match step
    case CreateStep(_, _, _, _, _, _, _, _, _, _) => CreateEarnsFor(s, step);
    case WebhookStep(_, _, _, _, _) => SuccessEarnsFor(s, step);
    case CashStep(_, _, _, _, _) => SuccessEarnsFor(s, step);
    case ExpireStep(p, first) => ExpireEarnsFor(s, p, first);
    case MoneyStep(money) => MoneyEarnsFor(s, money);
    case SeatStep(_) =>
  }

  lemma SameDriver(s: Joint, t: Joint, target: F.Target)
    requires TargetsStay(s, t) && Known(s, target)
    ensures DriverOf(t, target) == DriverOf(s, target)
  {
  }

  lemma DriversStay(s: Joint, t: Joint)
    requires DriversOk(s) && TargetsKnown(s) && TargetsKnown(t) && TargetsStay(s, t) && FS.TermsStay(s.books, t.books)
    requires EarnsFor(s, t.books) && FS.SettlementsOk(t.books)
    requires forall p | p in t.books.payments && p !in s.books.payments :: Known(s, t.books.payments[p].target)
    ensures DriversOk(t)
  {
    forall e | e in t.books.earnings
      ensures e in t.books.payments && DriverOf(t, t.books.payments[e].target) == Some(t.books.earnings[e].driver)
    {
      SameDriver(s, t, s.books.payments[e].target);
    }
    forall p | p in t.books.settlements
      ensures p in t.books.payments && t.books.settlements[p].driver == DriverOf(t, t.books.payments[p].target)
    {
      SameDriver(s, t, t.books.payments[p].target);
    }
  }

  ghost predicate EarnersOk(s: Joint) {
    FS.BooksOk(s.books) && TargetsKnown(s) && DriversOk(s)
  }

  lemma StepKeepsEarners(s: Joint, step: Step)
    requires EarnersOk(s) && Enabled(s, step)
    ensures EarnersOk(Apply(s, step))
  {
    var t := Apply(s, step);
    StepKeepsKnown(s, step);
    StepKeepsTargets(s, step);
    StepIsOldOrChecked(s, step);
    StepEarnsFor(s, step);
    DriversStay(s, t);
  }

  lemma {:induction false} RunKeepsEarners(s: Joint, steps: seq<Step>)
    requires EarnersOk(s) && Run(s, steps)
    ensures EarnersOk(Exec(s, steps))
    decreases |steps|
  {
    if steps != [] {
      StepKeepsEarners(s, steps[0]);
      RunKeepsEarners(Apply(s, steps[0]), steps[1..]);
    }
  }

  lemma FixedDrivers(s: Joint, steps: seq<Step>)
    requires Run(s, steps)
    ensures Exec(s, steps).driver == s.driver && Exec(s, steps).parcels == s.parcels
    decreases |steps|
  {
    if steps != [] {
      StepKeepsTargets(s, steps[0]);
      FixedDrivers(Apply(s, steps[0]), steps[1..]);
    }
  }

  /** The earning is that of the driver who drives, of the trip for a booking, of the
      parcel for a parcel; and if it is in a payout, that is a payout to this driver. */
  ghost predicate EarnedByDriver(s: F.Books, e: F.PaymentId, driver: F.DriverId, parcels: map<nat, Option<F.DriverId>>) {
    && e in s.earnings && e in s.payments
    && (match s.payments[e].target
        case BookingTarget(_) => s.earnings[e].driver == driver
        case ParcelTarget(q) => q in parcels && parcels[q] == Some(s.earnings[e].driver))
    && (match s.earnings[e].payout
        case None => true
        case Some(payout) => payout in s.payouts && s.payouts[payout].driver == s.earnings[e].driver)
  }

  lemma EarnerIsTheDriver(s: Joint, e: F.PaymentId)
    requires EarnersOk(s) && e in s.books.earnings
    ensures EarnedByDriver(s.books, e, s.driver, s.parcels)
  {
    assert FS.EarningOk(s.books, e);
    if s.books.earnings[e].payout.Some? { assert FS.PayoutOk(s.books, s.books.earnings[e].payout.value); }
  }

  lemma NobodyEarnsYet(capacity: nat, driver: F.DriverId, parcels: map<nat, Option<F.DriverId>>)
    ensures EarnersOk(Published(capacity, driver, parcels))
  {
    FS.EmptyBooksAreOk();
  }

  /** On every run from publication each earning goes to the driver who drives. */
  lemma EarningsGoToTheDriver(capacity: nat, driver: F.DriverId, parcels: map<nat, Option<F.DriverId>>, steps: seq<Step>,
                              e: F.PaymentId)
    requires Run(Published(capacity, driver, parcels), steps)
    requires e in Exec(Published(capacity, driver, parcels), steps).books.earnings
    ensures EarnedByDriver(Exec(Published(capacity, driver, parcels), steps).books, e, driver, parcels)
  {
    NobodyEarnsYet(capacity, driver, parcels);
    RunKeepsEarners(Published(capacity, driver, parcels), steps);
    FixedDrivers(Published(capacity, driver, parcels), steps);
    EarnerIsTheDriver(Exec(Published(capacity, driver, parcels), steps), e);
  }
}
