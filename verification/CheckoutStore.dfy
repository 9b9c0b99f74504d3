/** The payment routes and the expiry loop with everything their transactions write,
    over the finance tables and the seat tables. Every method is proved to do what
    the corresponding step of Checkout says. */
module CheckoutStore {
  import opened Tables
  import opened Checkout
  import M = Money
  import F = Finance
  import FinanceSafety
  import FinanceStore
  import S = SeatInventory
  import SeatStore

  lemma {:induction false} RunThen(s: Joint, steps: seq<Step>, step: Step)
    requires Run(s, steps) && Enabled(Exec(s, steps), step)
    ensures Run(s, steps + [step]) && Exec(s, steps + [step]) == Apply(Exec(s, steps), step)
    decreases |steps|
  {
    if steps == [] {
      assert [] + [step] == [step] && [step][1..] == [];
      assert Exec(Apply(s, step), []) == Apply(s, step) && Run(Apply(s, step), []);
    } else {
      assert (steps + [step])[0] == steps[0] && (steps + [step])[1..] == steps[1..] + [step];
      RunThen(Apply(s, steps[0]), steps[1..], step);
    }
  }

  lemma MarkKeepsTarget(s: F.Books, p: F.PaymentId, driver: Option<F.DriverId>, now: F.Time)
    ensures var r := F.MarkSucceeded(s, p, driver, now);
            r.Committed? ==> p in s.payments && p in r.state.payments && r.state.payments[p].target == s.payments[p].target
  {
  }

  lemma WebhookKeepsTarget(s: F.Books, i: F.IntentId, read: M.IntentStatus, posted: M.IntentStatus, duplicate: bool,
                           driver: Option<F.DriverId>, now: F.Time)
    requires i in s.intents
    ensures var r := F.Webhook(s, i, read, posted, duplicate, driver, now);
            var p := s.intents[i].payment;
            r.Committed? && p in s.payments ==> p in r.state.payments && r.state.payments[p].target == s.payments[p].target
  {
    if M.TransitionIntent(read, posted).Committed? {
      var t := s.(intents := s.intents[i := s.intents[i].(status := M.TransitionIntent(read, posted).state)]);
      MarkKeepsTarget(t, s.intents[i].payment, driver, now);
    }
  }

  lemma CashKeepsTarget(s: F.Books, p: F.PaymentId, read: F.SettlementStatus, received: bool,
                        confirming: Option<F.DriverId>, now: F.Time)
    ensures var r := F.ConfirmCash(s, p, read, received, confirming, now);
            r.Committed? && p in s.payments ==> p in r.state.payments && r.state.payments[p].target == s.payments[p].target
  {
    if F.FindsSettlement(s, p, confirming) {
      MarkKeepsTarget(FinanceSafety.WithSettled(s, p, received), p, confirming, now);
    }
  }

  /** The expiries done so far, as a run that leads here. */
  ghost predicate Progress(start: Joint, steps: seq<Step>, current: Joint) {
    && Run(start, steps) && Exec(start, steps) == current
    && forall k | 0 <= k < |steps| :: steps[k].ExpireStep?
  }

  lemma OneMore(start: Joint, steps: seq<Step>, current: Joint, step: Step)
    requires Progress(start, steps, current) && step.ExpireStep? && Enabled(current, step)
    ensures Progress(start, steps + [step], Apply(current, step))
  {
    RunThen(start, steps, step);
  }

  /** What is still to be expired, and where that leads. */
  ghost predicate Left(s: F.Books, rest: seq<F.PaymentId>, end: F.Books) {
    FinanceStore.DistinctStale(s, rest) && FinanceStore.ExpireAll(s, rest) == end
  }

  lemma LeftAfterOne(s: F.Books, rest: seq<F.PaymentId>, end: F.Books)
    requires Left(s, rest, end) && rest != []
    ensures rest[0] in s.payments && F.Stale(s.payments[rest[0]])
    ensures Left(F.ExpireStale(s, rest[0]), rest[1..], end)
  {
  }

  class Store {
    const money: FinanceStore.Store
    const seats: SeatStore.Store
    const driver: F.DriverId
    const parcels: map<nat, Option<F.DriverId>>

    constructor (capacity: nat, driver: F.DriverId, parcels: map<nat, Option<F.DriverId>>)
      ensures fresh(money) && fresh(seats)
      ensures View() == Published(capacity, driver, parcels)
    {
      this.driver, this.parcels := driver, parcels;
      money := new FinanceStore.Store();
      seats := new SeatStore.Store(capacity);
    }

    function View(): Joint
      reads money, seats
    {
      Joint(money.View(), seats.View(), driver, parcels)
    }

    /** Payable check, lookup and all writes of the transaction. */
    method CreatePaymentIntent(payer: S.UserId, target: F.Target, refusal: Option<string>, online: bool, amount: nat,
                               p: F.PaymentId, i: F.IntentId, intentStatus: M.IntentStatus, now: F.Time)
      returns (result: Tx<Joint>, existing: Option<F.PaymentId>)
      requires intentStatus != M.IntentSucceeded
      modifies money, seats
      ensures Refusal(old(View()), payer, target, refusal) == None ==>
                Enabled(old(View()), CreateStep(payer, target, refusal, online, amount, p, i, intentStatus, existing, now))
      ensures result == Create(old(View()), payer, target, refusal, online, amount, p, i, intentStatus, existing, now)
      ensures View() == if result.Committed? then result.state else old(View())
    {
      existing := None;
      var refused := Refusal(View(), payer, target, refusal);
      if refused.Some? { return Rejected(refused.value), None; }
      var created, found := money.CreatePaymentIntent(target, DriverOf(View(), target), online, amount, p, i, intentStatus, now);
      existing := found;
      if created.Rejected? { return Rejected(created.code), existing; }
      if existing == None && target.BookingTarget? {
        seats.StartPayment(target.booking, online);
      }
      return Committed(View()), existing;
    }

    /** The booking part of a success, skipped for a payment that was paid before. */
    method FinishSuccess(ghost before: Joint, p: F.PaymentId, wasPaid: bool)
      requires seats.View() == before.inv && driver == before.driver && parcels == before.parcels
      requires OneSuccess(before.books, money.View(), p)
      requires wasPaid <==> !(p in before.books.payments && !M.IsPaid(before.books.payments[p].status))
      requires p in before.books.payments ==>
                 p in money.payments && money.payments[p].target == before.books.payments[p].target
      modifies seats
      ensures View() == Paid(before, money.View(), p)
    {
      if !wasPaid && M.IsPaid(money.payments[p].status) {
        match money.payments[p].target {
          case BookingTarget(b) => seats.MarkPaid(b);
          case ParcelTarget(_) =>
        }
      }
    }

    method HandleWebhook(i: F.IntentId, read: M.IntentStatus, posted: M.IntentStatus, duplicate: bool, now: F.Time)
      returns (result: Tx<Joint>)
      modifies money, seats
      ensures result == Webhook(old(View()), i, read, posted, duplicate, now)
      ensures View() == if result.Committed? then result.state else old(View())
    {
      if i !in money.intents { return Committed(View()); }
      var p := money.intents[i].payment;
      var wasPaid := p !in money.payments || M.IsPaid(money.payments[p].status);
      WebhookIsOneSuccess(money.View(), i, read, posted, duplicate, DriverOfPayment(View(), p), now);
      WebhookKeepsTarget(money.View(), i, read, posted, duplicate, DriverOfPayment(View(), p), now);
      var done := money.HandleWebhook(i, read, posted, duplicate, DriverOfPayment(View(), p), now);
      if done.Rejected? { return Rejected(done.code); }
      FinishSuccess(old(View()), p, wasPaid);
      return Committed(View());
    }

    method ConfirmCashPayment(p: F.PaymentId, read: F.SettlementStatus, received: bool, confirming: Option<F.DriverId>,
                              now: F.Time)
      returns (result: Tx<Joint>)
      modifies money, seats
      ensures result == Cash(old(View()), p, read, received, confirming, now)
      ensures View() == if result.Committed? then result.state else old(View())
    {
      var wasPaid := p !in money.payments || M.IsPaid(money.payments[p].status);
      CashIsOneSuccess(money.View(), p, read, received, confirming, now);
      CashKeepsTarget(money.View(), p, read, received, confirming, now);
      var done := money.ConfirmCashPayment(p, read, received, confirming, now);
      if done.Rejected? { return Rejected(done.code); }
      FinishSuccess(old(View()), p, wasPaid);
      return Committed(View());
    }

    /** One round: the payment and its intents, and then the hold and the booking. */
    method ExpireOne(p: F.PaymentId) returns (count: nat, ghost first: Option<S.HoldId>)
      modifies money`payments, money`intents, seats
      ensures count == if p in old(money.payments) && F.Stale(old(money.payments)[p]) then 1 else 0
      ensures View() == Expire(old(View()), p, first)
      ensures Enabled(old(View()), ExpireStep(p, first))
    {
      first := AnyHold(p);
      count := money.ExpirePayment(p);
      if count == 1 {
        match money.payments[p].target {
          case BookingTarget(b) => first := seats.ExpirePaid(b);
          case ParcelTarget(_) =>
        }
      }
    }

    ghost method AnyHold(p: F.PaymentId) returns (first: Option<S.HoldId>)
      ensures Enabled(View(), ExpireStep(p, first))
    {
      first := None;
      if p in money.payments && money.payments[p].target.BookingTarget? {
        if h :| h in seats.holds && S.IsActiveHoldOf(seats.View(), h, money.payments[p].target.booking) {
          first := Some(h);
        }
      }
    }

    /** The worker's expiry loop, uninterrupted: it is a run of expiry steps, one for
        each payment counted, and leaves nothing stale but what the row limit of the
        query cut off. */
    method ExpireStaleOnlinePayments(now: F.Time) returns (expiredPayments: nat, ghost steps: seq<Step>)
      modifies money`payments, money`intents, seats
      ensures Progress(old(View()), steps, View()) && |steps| == expiredPayments
      ensures |FinanceStore.StalePayments(money.View(), now)|
           == |FinanceStore.StalePayments(old(money.View()), now)| - expiredPayments
      ensures expiredPayments == FinanceStore.EXPIRY_LIMIT || FinanceStore.StalePayments(money.View(), now) == {}
    {
      var batch := money.QueryStale(now);
      expiredPayments, steps := 0, [];
      FinanceStore.PassShrinksStale(money.View(), batch, now);
      for i := 0 to |batch|
        invariant expiredPayments == i
        invariant Left(money.View(), batch[i..], FinanceStore.ExpireAll(old(money.View()), batch))
        invariant |steps| == i && Progress(old(View()), steps, View())
      {
        ghost var rest := batch[i..];
        assert rest[0] == batch[i] && rest[1..] == batch[i + 1..];
        ghost var before := View();
        LeftAfterOne(before.books, rest, FinanceStore.ExpireAll(old(money.View()), batch));
        var count, first := ExpireOne(batch[i]);
        OneMore(old(View()), steps, before, ExpireStep(batch[i], first));
        if count == 1 {
          expiredPayments := expiredPayments + 1;
          steps := steps + [ExpireStep(batch[i], first)];
        }
      }
    }
  }
}
