/** Payments of bookings, with both their sides: one transaction writes the finance
    tables and the booking, its rows and its holds. Every run of the two together
    is a run of Finance and a run of SeatInventory, so the laws of both hold. */
module Checkout {
  import opened Tables
  import M = Money
  import F = Finance
  import FS = FinanceSafety
  import FL = FinanceLaws
  import S = SeatInventory
  import SS = SeatSafety

  /** The trip's driver and the drivers of parcels are set when the trip and the
      parcel are created. */
  datatype Joint = Joint(books: F.Books, inv: S.Inventory, driver: F.DriverId, parcels: map<nat, Option<F.DriverId>>)

  /** The driver lookup of a payment. */
  function DriverOf(s: Joint, target: F.Target): Option<F.DriverId> {
    match target
    case BookingTarget(b) => if b in s.inv.bookings then Some(s.driver) else None
    case ParcelTarget(q) => if q in s.parcels then s.parcels[q] else None
  }

  function DriverOfPayment(s: Joint, p: F.PaymentId): Option<F.DriverId> {
    if p in s.books.payments then DriverOf(s, s.books.payments[p].target) else None
  }

  /** The payable check: bookings by owner and status, parcels by a lookup that is
      a parameter (`refusal` is its error). */
  function Refusal(s: Joint, payer: S.UserId, target: F.Target, refusal: Option<string>): Option<string> {
    match target
    case ParcelTarget(q) => if q !in s.parcels then Some("PARCEL_NOT_FOUND") else refusal
    case BookingTarget(b) =>
      if b !in s.inv.bookings || s.inv.bookings[b].client != payer then Some("BOOKING_NOT_FOUND")
      else if S.ClosedForCancel(s.inv.bookings[b].status) then Some("BOOKING_NOT_PAYABLE")
      else None
  }

  function Started(inv: S.Inventory, target: F.Target, online: bool): S.Inventory {
    if target.BookingTarget? then S.Apply(inv, S.PaymentStartedStep(target.booking, online)) else inv
  }

  function Create(s: Joint, payer: S.UserId, target: F.Target, refusal: Option<string>, online: bool, amount: nat,
                  p: F.PaymentId, i: F.IntentId, intentStatus: M.IntentStatus, existing: Option<F.PaymentId>,
                  now: F.Time): Tx<Joint>
  {
    var refused := Refusal(s, payer, target, refusal);
    if refused.Some? then Rejected(refused.value)
    else
      match F.CreatePayment(s.books, target, DriverOf(s, target), online, amount, p, i, intentStatus, existing, now)
      case Rejected(code) => Rejected(code)
      case Committed(books) =>
        if existing.Some? then Committed(s)
        else Committed(s.(books := books, inv := Started(s.inv, target, online)))
  }

  // ----- success and expiry -----

  /** The payment was not paid before and is now. */
  predicate NewlyPaid(s: F.Books, t: F.Books, p: F.PaymentId) {
    && p in s.payments && !M.IsPaid(s.payments[p].status)
    && p in t.payments && M.IsPaid(t.payments[p].status)
  }

  /** The booking part of a success; a payment that was paid before has none. */
  function Paid(s: Joint, books: F.Books, p: F.PaymentId): Joint {
    if NewlyPaid(s.books, books, p) && s.books.payments[p].target.BookingTarget? then
      s.(books := books, inv := S.PaymentSucceeded(s.inv, s.books.payments[p].target.booking))
    else s.(books := books)
  }

  function Webhook(s: Joint, i: F.IntentId, read: M.IntentStatus, posted: M.IntentStatus, duplicate: bool, now: F.Time)
    : Tx<Joint>
  {
    if i !in s.books.intents then Committed(s)
    else
      var p := s.books.intents[i].payment;
      match F.Webhook(s.books, i, read, posted, duplicate, DriverOfPayment(s, p), now)
      case Rejected(code) => Rejected(code)
      case Committed(books) => Committed(Paid(s, books, p))
  }

  function Cash(s: Joint, p: F.PaymentId, read: F.SettlementStatus, received: bool, confirming: Option<F.DriverId>,
                now: F.Time): Tx<Joint>
  {
    match F.ConfirmCash(s.books, p, read, received, confirming, now)
    case Rejected(code) => Rejected(code)
    case Committed(books) => Committed(Paid(s, books, p))
  }

  /** One round of the worker's loop over stale payments. */
  function Expire(s: Joint, p: F.PaymentId, first: Option<S.HoldId>): Joint {
    if p !in s.books.payments || !F.Stale(s.books.payments[p]) then s
    else
      var target := s.books.payments[p].target;
      s.(books := F.ExpireStale(s.books, p),
         inv := if target.BookingTarget? then S.PaymentExpired(s.inv, target.booking, first) else s.inv)
  }

  // ----- the transaction system -----

  datatype Step =
    | CreateStep(payer: S.UserId, target: F.Target, refusal: Option<string>, online: bool, amount: nat, p: F.PaymentId,
                 i: F.IntentId, intentStatus: M.IntentStatus, existing: Option<F.PaymentId>, now: F.Time)
    | WebhookStep(i: F.IntentId, read: M.IntentStatus, posted: M.IntentStatus, duplicate: bool, now: F.Time)
    | CashStep(p: F.PaymentId, settlement: F.SettlementStatus, received: bool, confirming: Option<F.DriverId>, now: F.Time)
    | ExpireStep(p: F.PaymentId, first: Option<S.HoldId>)
    | MoneyStep(money: FS.Step)
    | SeatStep(seat: S.Step)

  ghost function Attempt(s: Joint, step: Step): Tx<Joint> {
    match step
    case CreateStep(payer, target, refusal, online, amount, p, i, intentStatus, existing, now) =>
      Create(s, payer, target, refusal, online, amount, p, i, intentStatus, existing, now)
    case WebhookStep(i, read, posted, duplicate, now) => Webhook(s, i, read, posted, duplicate, now)
    case CashStep(p, read, received, confirming, now) => Cash(s, p, read, received, confirming, now)
    case ExpireStep(p, first) => Committed(Expire(s, p, first))
    case MoneyStep(money) => Committed(s.(books := FS.Apply(s.books, money)))
    case SeatStep(seat) => Committed(s.(inv := S.Apply(s.inv, seat)))
  }

  ghost function Apply(s: Joint, step: Step): Joint {
    match Attempt(s, step)
    case Committed(t) => t
    case Rejected(_) => s
  }

  /** Transactions on one side only. */
  predicate MoneyOnly(step: FS.Step) {
    step.ReleaseStep? || step.PayoutStep? || step.PayoutStatusStep? || step.RequestRefundStep? || step.ProcessRefundStep?
  }

  predicate SeatsOnly(step: S.Step) {
    !step.PaymentSucceededStep? && !step.PaymentExpiredStep? && !step.PaymentStartedStep?
  }

  predicate Enabled(s: Joint, step: Step) {
    match step
    case CreateStep(_, target, _, _, _, _, _, intentStatus, existing, _) =>
      && intentStatus != M.IntentSucceeded
      && if existing.Some? then F.HasActivePayment(s.books, target, existing.value)
         else forall q | q in s.books.payments :: !F.HasActivePayment(s.books, target, q)
    case ExpireStep(p, first) =>
      p in s.books.payments && s.books.payments[p].target.BookingTarget? ==>
        S.Enabled(s.inv, S.PaymentExpiredStep(s.books.payments[p].target.booking, first))
    case MoneyStep(money) => MoneyOnly(money) && FS.Enabled(s.books, money)
    case SeatStep(seat) => SeatsOnly(seat) && S.Enabled(s.inv, seat)
    case _ => true
  }

  ghost function Exec(s: Joint, steps: seq<Step>): Joint
    decreases |steps|
  {
    if steps == [] then s else Exec(Apply(s, steps[0]), steps[1..])
  }

  ghost predicate Run(s: Joint, steps: seq<Step>)
    decreases |steps|
  {
    steps != [] ==> Enabled(s, steps[0]) && Run(Apply(s, steps[0]), steps[1..])
  }

  // ----- each run is a run of both sides -----

  /** What a step does to the money, as a step of FinanceSafety. */
  ghost function MoneyPart(s: Joint, step: Step): seq<FS.Step> {
    match step
    case CreateStep(payer, target, refusal, online, amount, p, i, intentStatus, existing, now) =>
      if Refusal(s, payer, target, refusal).Some? then []
      else [FS.CreatePaymentStep(target, DriverOf(s, target), online, amount, p, i, intentStatus, existing, now)]
    case WebhookStep(i, read, posted, duplicate, now) =>
      if i !in s.books.intents then []
      else [FS.WebhookStep(i, read, posted, duplicate, DriverOfPayment(s, s.books.intents[i].payment), now)]
    case CashStep(p, read, received, confirming, now) => [FS.CashStep(p, read, received, confirming, now)]
    case ExpireStep(p, _) => [FS.ExpireStep(p)]
    case MoneyStep(money) => [money]
    case SeatStep(_) => []
  }

  /** What a step does to the seats, as a step of SeatInventory. */
  ghost function SeatPart(s: Joint, step: Step): seq<S.Step> {
    match step
    case CreateStep(_, target, _, online, _, _, _, _, existing, _) =>
      if Attempt(s, step).Committed? && existing == None && target.BookingTarget?
      then [S.PaymentStartedStep(target.booking, online)] else []
    case WebhookStep(i, _, _, _, _) => if i in s.books.intents then SuccessPart(s, step, s.books.intents[i].payment) else []
    case CashStep(p, _, _, _, _) => SuccessPart(s, step, p)
    case ExpireStep(p, first) =>
      if p in s.books.payments && F.Stale(s.books.payments[p]) && s.books.payments[p].target.BookingTarget?
      then [S.PaymentExpiredStep(s.books.payments[p].target.booking, first)] else []
    case MoneyStep(_) => []
    case SeatStep(seat) => [seat]
  }

  ghost function SuccessPart(s: Joint, step: Step, p: F.PaymentId): seq<S.Step> {
    if NewlyPaid(s.books, Apply(s, step).books, p) && s.books.payments[p].target.BookingTarget?
    then [S.PaymentSucceededStep(s.books.payments[p].target.booking)] else []
  }

  ghost predicate IsMoneyRun(s: F.Books, steps: seq<FS.Step>, t: F.Books) {
    FS.Run(s, steps) && FS.Exec(s, steps) == t
  }

  ghost predicate IsSeatRun(s: S.Inventory, steps: seq<S.Step>, t: S.Inventory) {
    S.Run(s, steps) && S.Exec(s, steps) == t
  }

  lemma MoneyOne(s: F.Books, step: FS.Step)
    requires FS.Enabled(s, step)
    ensures IsMoneyRun(s, [step], FS.Apply(s, step))
  {
    assert [step][1..] == [];
    assert FS.Run(FS.Apply(s, step), []) && FS.Exec(FS.Apply(s, step), []) == FS.Apply(s, step);
  }

  lemma SeatOne(s: S.Inventory, step: S.Step)
    requires S.Enabled(s, step)
    ensures IsSeatRun(s, [step], S.Apply(s, step))
  {
    assert [step][1..] == [];
    assert S.Run(S.Apply(s, step), []) && S.Exec(S.Apply(s, step), []) == S.Apply(s, step);
  }

  lemma CreateProjects(s: Joint, step: Step)
    requires Enabled(s, step) && step.CreateStep?
    ensures IsMoneyRun(s.books, MoneyPart(s, step), Apply(s, step).books)
    ensures IsSeatRun(s.inv, SeatPart(s, step), Apply(s, step).inv)
  {
    if Refusal(s, step.payer, step.target, step.refusal) == None {
      MoneyOne(s.books, MoneyPart(s, step)[0]);
      if SeatPart(s, step) != [] { SeatOne(s.inv, SeatPart(s, step)[0]); }
    }
  }

  lemma PaidProjects(s: Joint, step: Step, p: F.PaymentId, books: F.Books)
    requires Attempt(s, step) == Committed(Paid(s, books, p))
    ensures Apply(s, step).books == books
    ensures IsSeatRun(s.inv, SuccessPart(s, step, p), Apply(s, step).inv)
  {
    if SuccessPart(s, step, p) != [] { SeatOne(s.inv, SuccessPart(s, step, p)[0]); }
  }

  lemma WebhookProjects(s: Joint, step: Step)
    requires step.WebhookStep?
    ensures IsMoneyRun(s.books, MoneyPart(s, step), Apply(s, step).books)
    ensures IsSeatRun(s.inv, SeatPart(s, step), Apply(s, step).inv)
  {
    if step.i in s.books.intents {
      var p := s.books.intents[step.i].payment;
      MoneyOne(s.books, MoneyPart(s, step)[0]);
      if Attempt(s, step).Committed? {
        PaidProjects(s, step, p,
                     F.Webhook(s.books, step.i, step.read, step.posted, step.duplicate, DriverOfPayment(s, p), step.now).state);
      }
    }
  }

  lemma CashProjects(s: Joint, step: Step)
    requires step.CashStep?
    ensures IsMoneyRun(s.books, MoneyPart(s, step), Apply(s, step).books)
    ensures IsSeatRun(s.inv, SeatPart(s, step), Apply(s, step).inv)
  {
    MoneyOne(s.books, MoneyPart(s, step)[0]);
    if Attempt(s, step).Committed? {
      PaidProjects(s, step, step.p,
                   F.ConfirmCash(s.books, step.p, step.settlement, step.received, step.confirming, step.now).state);
    }
  }

  lemma ExpireProjects(s: Joint, step: Step)
    requires Enabled(s, step) && step.ExpireStep?
    ensures IsMoneyRun(s.books, MoneyPart(s, step), Apply(s, step).books)
    ensures IsSeatRun(s.inv, SeatPart(s, step), Apply(s, step).inv)
  {
    MoneyOne(s.books, FS.ExpireStep(step.p));
    if SeatPart(s, step) != [] { SeatOne(s.inv, SeatPart(s, step)[0]); }
  }

  lemma StepProjects(s: Joint, step: Step)
    requires Enabled(s, step)
    ensures IsMoneyRun(s.books, MoneyPart(s, step), Apply(s, step).books)
    ensures IsSeatRun(s.inv, SeatPart(s, step), Apply(s, step).inv)
  {
    match step
    case CreateStep(_, _, _, _, _, _, _, _, _, _) => CreateProjects(s, step);
    case WebhookStep(_, _, _, _, _) => WebhookProjects(s, step);
    case CashStep(_, _, _, _, _) => CashProjects(s, step);
    case ExpireStep(_, _) => ExpireProjects(s, step);
    case MoneyStep(money) => MoneyOne(s.books, money);
    case SeatStep(seat) => SeatOne(s.inv, seat);
  }

  ghost function MoneyParts(s: Joint, steps: seq<Step>): seq<FS.Step>
    decreases |steps|
  {
    if steps == [] then [] else MoneyPart(s, steps[0]) + MoneyParts(Apply(s, steps[0]), steps[1..])
  }

  ghost function SeatParts(s: Joint, steps: seq<Step>): seq<S.Step>
    decreases |steps|
  {
    if steps == [] then [] else SeatPart(s, steps[0]) + SeatParts(Apply(s, steps[0]), steps[1..])
  }

  lemma {:induction false} MoneyAppend(s: F.Books, a: seq<FS.Step>, t: F.Books, b: seq<FS.Step>, u: F.Books)
    requires IsMoneyRun(s, a, t) && IsMoneyRun(t, b, u)
    ensures IsMoneyRun(s, a + b, u)
    decreases |a|
  {
    if a == [] {
      assert a + b == b;
    } else {
      assert (a + b)[0] == a[0] && (a + b)[1..] == a[1..] + b;
      MoneyAppend(FS.Apply(s, a[0]), a[1..], t, b, u);
    }
  }

  lemma {:induction false} SeatAppend(s: S.Inventory, a: seq<S.Step>, t: S.Inventory, b: seq<S.Step>, u: S.Inventory)
    requires IsSeatRun(s, a, t) && IsSeatRun(t, b, u)
    ensures IsSeatRun(s, a + b, u)
    decreases |a|
  {
    if a == [] {
      assert a + b == b;
    } else {
      assert (a + b)[0] == a[0] && (a + b)[1..] == a[1..] + b;
      SeatAppend(S.Apply(s, a[0]), a[1..], t, b, u);
    }
  }

  /** Every run of payments and seats together is, on the finance tables, a run of
      FinanceSafety and, on the seat tables, a run of SeatInventory. */
  lemma {:induction false} RunProjects(s: Joint, steps: seq<Step>)
    requires Run(s, steps)
    ensures IsMoneyRun(s.books, MoneyParts(s, steps), Exec(s, steps).books)
    ensures IsSeatRun(s.inv, SeatParts(s, steps), Exec(s, steps).inv)
    decreases |steps|
  {
    if steps != [] {
      var t := Apply(s, steps[0]);
      StepProjects(s, steps[0]);
      RunProjects(t, steps[1..]);
      MoneyAppend(s.books, MoneyPart(s, steps[0]), t.books, MoneyParts(t, steps[1..]), Exec(s, steps).books);
      SeatAppend(s.inv, SeatPart(s, steps[0]), t.inv, SeatParts(t, steps[1..]), Exec(s, steps).inv);
    }
  }

  lemma RunKeepsBoth(s: Joint, steps: seq<Step>)
    requires FS.BooksOk(s.books) && SS.Valid(s.inv) && Run(s, steps)
    ensures FS.BooksOk(Exec(s, steps).books) && SS.Valid(Exec(s, steps).inv)
  {
    RunProjects(s, steps);
    FS.RunKeepsBooks(s.books, MoneyParts(s, steps));
    SS.RunKeepsValid(s.inv, SeatParts(s, steps));
  }

  // ----- a booking waits only for a payment that can still come -----

  /** An online payment of the booking that is still open. */
  predicate Pays(s: F.Books, p: F.PaymentId, b: nat) {
    p in s.payments && s.payments[p].target == F.BookingTarget(b) && F.Stale(s.payments[p])
  }

  predicate Waiting(s: S.Inventory, b: S.BookingId) {
    b in s.bookings && s.bookings[b].status == S.PaymentPending
  }

  ghost predicate NoneWaitsInVain(s: Joint) {
    forall b | Waiting(s.inv, b) :: exists p :: Pays(s.books, p, b)
  }

  /** Whoever waits afterwards has an open payment, or waited before and lost none. */
  ghost predicate KeepsWaiting(s: Joint, t: Joint) {
    forall b | Waiting(t.inv, b) ::
      || (exists p :: Pays(t.books, p, b))
      || (Waiting(s.inv, b) && forall p | Pays(s.books, p, b) :: Pays(t.books, p, b))
  }

  lemma KeptWaiting(s: Joint, t: Joint)
    requires NoneWaitsInVain(s) && KeepsWaiting(s, t)
    ensures NoneWaitsInVain(t)
  {
  }

  /** A success changes the row of its payment or none at all. */
  ghost predicate OneSuccess(s: F.Books, t: F.Books, p: F.PaymentId) {
    t.payments == s.payments || (NewlyPaid(s, t, p) && t.payments == s.payments[p := t.payments[p]])
  }

  lemma MarkIsOneSuccess(s: F.Books, p: F.PaymentId, driver: Option<F.DriverId>, now: F.Time)
    ensures var r := F.MarkSucceeded(s, p, driver, now); r.Committed? ==> OneSuccess(s, r.state, p)
  {
  }

  lemma WebhookIsOneSuccess(s: F.Books, i: F.IntentId, read: M.IntentStatus, posted: M.IntentStatus, duplicate: bool,
                            driver: Option<F.DriverId>, now: F.Time)
    requires i in s.intents
    ensures var r := F.Webhook(s, i, read, posted, duplicate, driver, now);
            r.Committed? ==> OneSuccess(s, r.state, s.intents[i].payment)
  {
    if M.TransitionIntent(read, posted).Committed? {
      var t := s.(intents := s.intents[i := s.intents[i].(status := M.TransitionIntent(read, posted).state)]);
      MarkIsOneSuccess(t, s.intents[i].payment, driver, now);
    }
  }

  lemma CashIsOneSuccess(s: F.Books, p: F.PaymentId, read: F.SettlementStatus, received: bool,
                         confirming: Option<F.DriverId>, now: F.Time)
    ensures var r := F.ConfirmCash(s, p, read, received, confirming, now); r.Committed? ==> OneSuccess(s, r.state, p)
  {
    if F.FindsSettlement(s, p, confirming) { MarkIsOneSuccess(FS.WithSettled(s, p, received), p, confirming, now); }
  }

  /** A success ends the waiting of its booking and touches no other payment. */
  lemma PaidKeepsWaiting(s: Joint, books: F.Books, p: F.PaymentId)
    requires OneSuccess(s.books, books, p)
    ensures KeepsWaiting(s, Paid(s, books, p))
  {
    var t := Paid(s, books, p);
    forall b | Waiting(t.inv, b) ensures Waiting(s.inv, b) && forall q | Pays(s.books, q, b) :: Pays(t.books, q, b) {
      if t.books.payments != s.books.payments {
        forall q | Pays(s.books, q, b) ensures q != p { }
      }
    }
  }

  lemma CreateKeepsWaiting(s: Joint, step: Step)
    requires step.CreateStep? && Attempt(s, step).Committed? && step.existing == None
    ensures KeepsWaiting(s, Apply(s, step))
  {
    var t := Apply(s, step);
    CreatedRow(s, step);
    forall b | Waiting(t.inv, b)
      ensures Pays(t.books, step.p, b) || (Waiting(s.inv, b) && forall q | Pays(s.books, q, b) :: Pays(t.books, q, b))
    {
    }
  }

  lemma CreatedRow(s: Joint, step: Step)
    requires step.CreateStep? && Attempt(s, step).Committed? && step.existing == None
    ensures var t := Apply(s, step);
            && step.p !in s.books.payments && step.p in t.books.payments
            && t.books.payments == s.books.payments[step.p := t.books.payments[step.p]]
            && t.books.payments[step.p].target == step.target
            && (step.online ==> F.Stale(t.books.payments[step.p]))
            && t.inv == Started(s.inv, step.target, step.online)
  {
  }

  lemma ExpireKeepsWaiting(s: Joint, p: F.PaymentId, first: Option<S.HoldId>)
    ensures KeepsWaiting(s, Expire(s, p, first))
  {
    var t := Expire(s, p, first);
    if p in s.books.payments && F.Stale(s.books.payments[p]) {
      ExpiredRow(s, p, first);
      forall b | Waiting(t.inv, b) ensures Waiting(s.inv, b) && forall q | Pays(s.books, q, b) :: Pays(t.books, q, b) {
        forall q | Pays(s.books, q, b) ensures q != p { }
      }
    }
  }

  lemma ExpiredRow(s: Joint, p: F.PaymentId, first: Option<S.HoldId>)
    requires p in s.books.payments && F.Stale(s.books.payments[p])
    ensures var t := Expire(s, p, first);
            && t.books.payments == s.books.payments[p := s.books.payments[p].(status := M.Expired)]
            && (forall b | Waiting(t.inv, b) :: Waiting(s.inv, b) && s.books.payments[p].target != F.BookingTarget(b))
  {
  }

  lemma MoneyKeepsOpen(s: F.Books, step: FS.Step)
    requires FS.RefundsLinked(s) && MoneyOnly(step) && FS.Enabled(s, step)
    ensures forall p, b | Pays(s, p, b) :: Pays(FS.Apply(s, step), p, b)
  {
    if step.ProcessRefundStep? {
      if FS.Attempt(s, step).Committed? { FS.ProcessRefundEffect(s, step.pending); }
    } else {
      FL.OthersKeepPayments(s, step);
    }
  }

  // ----- seat transactions make nobody wait -----

  ghost predicate NobodyNewWaits(s: S.Inventory, t: S.Inventory) {
    forall b | Waiting(t, b) :: Waiting(s, b)
  }

  lemma {:induction false} SweepMakesNobodyWait(s: S.Inventory, batch: seq<S.HoldRead>)
    ensures NobodyNewWaits(s, S.Sweep(s, batch, true))
    decreases |batch|
  {
    if batch != [] { SweepMakesNobodyWait(S.ExpireHold(s, batch[0], true), batch[1..]); }
  }

  lemma TakeMakesNobodyWait(s: S.Inventory, h: S.HoldId, b: S.BookingId, request: S.HoldRequest, expiresAt: S.Time)
    ensures var r := S.TakeSeats(s, h, b, request, expiresAt); r.Committed? ==> NobodyNewWaits(s, r.state)
  {
  }

  lemma CreateMakesNobodyWait(s: S.Inventory, step: S.Step)
    requires step.CreateHoldStep?
    ensures NobodyNewWaits(s, S.Apply(s, step))
  {
    SweepMakesNobodyWait(s, step.sweep);
    TakeMakesNobodyWait(S.Sweep(s, step.sweep, true), step.h, step.b, step.request, step.expiresAt);
    SS.CreateOutcomes(s, step);
  }

  lemma OthersMakeNobodyWait(s: S.Inventory, step: S.Step)
    requires step.ConfirmStep? || step.ReleaseStep? || step.WorkerExpireStep? || step.CancelStep? || step.ApproveStep?
    ensures NobodyNewWaits(s, S.Apply(s, step))
  {
  }

  lemma SeatsMakeNobodyWait(s: S.Inventory, step: S.Step)
    requires SeatsOnly(step)
    ensures NobodyNewWaits(s, S.Apply(s, step))
  {
    match step
    case CreateHoldStep(_, _, _, _, _, _, _) => CreateMakesNobodyWait(s, step);
    case SweepStep(sweep, _) => SweepMakesNobodyWait(s, sweep);
    case _ => OthersMakeNobodyWait(s, step);
  }

  // ----- every run -----

  lemma SuccessKeepsWaiting(s: Joint, step: Step)
    requires (step.WebhookStep? || step.CashStep?) && Attempt(s, step).Committed?
    ensures KeepsWaiting(s, Apply(s, step))
  {
    if step.CashStep? {
      CashIsOneSuccess(s.books, step.p, step.settlement, step.received, step.confirming, step.now);
      PaidKeepsWaiting(s, F.ConfirmCash(s.books, step.p, step.settlement, step.received, step.confirming, step.now).state, step.p);
    } else if step.i in s.books.intents {
      var p := s.books.intents[step.i].payment;
      var driver := DriverOfPayment(s, p);
      WebhookIsOneSuccess(s.books, step.i, step.read, step.posted, step.duplicate, driver, step.now);
      PaidKeepsWaiting(s, F.Webhook(s.books, step.i, step.read, step.posted, step.duplicate, driver, step.now).state, p);
    }
  }

  lemma StepKeepsWaiting(s: Joint, step: Step)
    requires FS.RefundsLinked(s.books) && Enabled(s, step)
    ensures KeepsWaiting(s, Apply(s, step))
  {
    match step
    case CreateStep(_, _, _, _, _, _, _, _, existing, _) =>
      if Attempt(s, step).Committed? && existing == None { CreateKeepsWaiting(s, step); }
    case WebhookStep(_, _, _, _, _) => if Attempt(s, step).Committed? { SuccessKeepsWaiting(s, step); }
    case CashStep(_, _, _, _, _) => if Attempt(s, step).Committed? { SuccessKeepsWaiting(s, step); }
    case ExpireStep(p, first) => ExpireKeepsWaiting(s, p, first);
    case MoneyStep(money) => MoneyKeepsOpen(s.books, money);
    case SeatStep(seat) => SeatsMakeNobodyWait(s.inv, seat);
  }

  ghost predicate JointOk(s: Joint) {
    FS.BooksOk(s.books) && SS.Valid(s.inv) && NoneWaitsInVain(s)
  }

  lemma StepKeepsJoint(s: Joint, step: Step)
    requires JointOk(s) && Enabled(s, step)
    ensures JointOk(Apply(s, step))
  {
    StepKeepsWaiting(s, step);
    KeptWaiting(s, Apply(s, step));
    OneStepKeepsBoth(s, step);
  }

  lemma OneStepKeepsBoth(s: Joint, step: Step)
    requires FS.BooksOk(s.books) && SS.Valid(s.inv) && Enabled(s, step)
    ensures FS.BooksOk(Apply(s, step).books) && SS.Valid(Apply(s, step).inv)
  {
    StepProjects(s, step);
    FS.RunKeepsBooks(s.books, MoneyPart(s, step));
    SS.RunKeepsValid(s.inv, SeatPart(s, step));
  }

  lemma {:induction false} RunKeepsJoint(s: Joint, steps: seq<Step>)
    requires JointOk(s) && Run(s, steps)
    ensures JointOk(Exec(s, steps))
    decreases |steps|
  {
    if steps != [] {
      StepKeepsJoint(s, steps[0]);
      RunKeepsJoint(Apply(s, steps[0]), steps[1..]);
    }
  }

  /** The booking has an open online payment, which is its only active payment. */
  ghost predicate CanBePaid(s: F.Books, b: S.BookingId) {
    && (exists p :: Pays(s, p, b))
    && (forall q | F.HasActivePayment(s, F.BookingTarget(b), q) :: Pays(s, q, b))
    && (forall p, q | Pays(s, p, b) && Pays(s, q, b) :: p == q)
  }

  function Published(capacity: nat, driver: F.DriverId, parcels: map<nat, Option<F.DriverId>>): Joint {
    Joint(F.EMPTY_BOOKS, S.Publish(capacity), driver, parcels)
  }

  lemma PublishedIsOk(capacity: nat, driver: F.DriverId, parcels: map<nat, Option<F.DriverId>>)
    requires 1 <= capacity
    ensures JointOk(Published(capacity, driver, parcels))
  {
    FS.EmptyBooksAreOk();
    SS.PublishedIsValid(capacity);
  }

  /** On every run from publication, expiry, late webhooks, cancellations and repeated
      creations included: a booking in PAYMENT_PENDING has an open online payment,
      that is its only active payment, and so none of its payments is SUCCEEDED. */
  lemma WaitingBookingsCanBePaid(capacity: nat, driver: F.DriverId, parcels: map<nat, Option<F.DriverId>>,
                                 steps: seq<Step>, b: S.BookingId)
    requires 1 <= capacity && Run(Published(capacity, driver, parcels), steps)
    requires Waiting(Exec(Published(capacity, driver, parcels), steps).inv, b)
    ensures CanBePaid(Exec(Published(capacity, driver, parcels), steps).books, b)
  {
    PublishedIsOk(capacity, driver, parcels);
    RunKeepsJoint(Published(capacity, driver, parcels), steps);
    OnlyPaymentOfWaiting(Exec(Published(capacity, driver, parcels), steps), b);
  }

  lemma OnlyPaymentOfWaiting(s: Joint, b: S.BookingId)
    requires FS.OneActive(s.books) && NoneWaitsInVain(s) && Waiting(s.inv, b)
    ensures CanBePaid(s.books, b)
  {
    var p :| Pays(s.books, p, b);
    forall q | F.HasActivePayment(s.books, F.BookingTarget(b), q) ensures q == p { }
    forall q | Pays(s.books, q, b) ensures F.HasActivePayment(s.books, F.BookingTarget(b), q) { }
  }
}
