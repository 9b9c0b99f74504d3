/** Exactly-once money: the invariant of the books over every interleaving of
    payment creation, webhooks, cash confirmations, expiry, payouts and refunds. */
module FinanceSafety {
  import opened Tables
  import opened Money
  import opened Finance

  // ----- the invariant, table by table -----

  /** A payment is paid exactly when it has a platform fee and a PAYMENT posting,
      and those are the ones its amount calls for. */
  ghost predicate PaymentOk(s: Books, p: PaymentId)
    requires p in s.payments
  {
    var payment := s.payments[p];
    && (p in s.fees <==> IsPaid(payment.status))
    && (PaymentKey(p) in s.ledger <==> IsPaid(payment.status))
    && (if IsPaid(payment.status) then
          && payment.amount > 0 && payment.paid == payment.amount
          && s.fees[p] == FeeOf(payment)
          && s.ledger[PaymentKey(p)] == WithoutZeros(SuccessEntriesOf(payment))
        else
          payment.paid == 0 && payment.refunded == 0)
  }

  ghost predicate PaymentsOk(s: Books) {
    && s.fees.Keys <= s.payments.Keys
    && forall p | p in s.payments :: PaymentOk(s, p)
  }

  /** An earning belongs to a paid payment, and is in a payout exactly when it is
      past AVAILABLE; it is PAID exactly when that payout was debited. */
  ghost predicate EarningOk(s: Books, e: PaymentId)
    requires e in s.earnings
  {
    var earning := s.earnings[e];
    && e in s.payments && IsPaid(s.payments[e].status)
    && earning.gross == s.payments[e].amount
    && earning.fee == FeeOf(s.payments[e])
    && earning.net == NetOf(s.payments[e]) && earning.net > 0
    && (earning.status == EarningPending || earning.status == EarningAvailable <==> earning.payout == None)
    && (earning.payout.Some? ==>
          && earning.payout.value in s.payouts
          && e in s.payouts[earning.payout.value].items
          && (earning.status == EarningPaid <==> PayoutKey(earning.payout.value) in s.ledger))
  }

  ghost predicate EarningsOk(s: Books) {
    forall e | e in s.earnings :: EarningOk(s, e)
  }

  /** A payout's gross is the sum of its earnings' net, and its earnings are its
      alone and those of its driver. */
  ghost predicate PayoutOk(s: Books, payout: PayoutId)
    requires payout in s.payouts
  {
    var row := s.payouts[payout];
    && row.items != {} && row.gross > 0
    && (forall e | e in row.items ::
          e in s.earnings && s.earnings[e].payout == Some(payout) && s.earnings[e].driver == row.driver)
    && row.gross == Sum(NetColumn(s.earnings, row.items))
    && (PayoutKey(payout) in s.ledger ==> s.ledger[PayoutKey(payout)] == PayoutEntries(row))
  }

  ghost predicate PayoutsOk(s: Books) {
    forall payout | payout in s.payouts :: PayoutOk(s, payout)
  }

  ghost predicate PostingOk(s: Books, k: LedgerKey)
    requires k in s.ledger
  {
    && Balanced(s.ledger[k])
    && match k
       case PaymentKey(p) => p in s.payments
       case PayoutKey(payout) => payout in s.payouts
       case RefundKey(r) => r in s.refunds && Net(s.ledger[k], DriverEarningsPayable) == 0
  }

  ghost predicate LedgerOk(s: Books) {
    forall k | k in s.ledger :: PostingOk(s, k)
  }

  /** A refund is only ever of a paid payment, and only of positive amounts. */
  ghost predicate RefundsLinked(s: Books) {
    forall r | r in s.refunds ::
      && s.refunds[r].amount > 0
      && s.refunds[r].payment in s.payments && IsPaid(s.payments[s.refunds[r].payment].status)
  }

  /** At most one payment per target is in an active status. */
  ghost predicate OneActive(s: Books) {
    forall p, q | p in s.payments && q in s.payments && s.payments[p].target == s.payments[q].target
                  && IsActive(s.payments[p].status) && IsActive(s.payments[q].status) :: p == q
  }

  ghost predicate IntentsOk(s: Books) {
    forall i | i in s.intents ::
      && s.intents[i].payment in s.payments
      && (s.intents[i].status == IntentSucceeded ==> IsPaid(s.payments[s.intents[i].payment].status))
  }

  ghost predicate SettlementsOk(s: Books) {
    forall p | p in s.settlements :: p in s.payments
  }

  ghost predicate MoneyOk(s: Books) {
    PaymentsOk(s) && EarningsOk(s) && PayoutsOk(s) && LedgerOk(s) && RefundsLinked(s)
  }

  /** All but the count of active payments, which a success from an old record of
      its payment can break. */
  ghost predicate Sound(s: Books) {
    MoneyOk(s) && IntentsOk(s) && SettlementsOk(s)
  }

  ghost predicate BooksOk(s: Books) {
    Sound(s) && OneActive(s)
  }

  // ----- what every transaction keeps -----

  /** Money that came in stays in, whatever happens to other payments. */
  ghost predicate PaidStaysPaid(s: Books, t: Books) {
    forall p | p in s.payments :: p in t.payments && (IsPaid(s.payments[p].status) ==> IsPaid(t.payments[p].status))
  }

  /** What a payment is for, how it is paid and its amount never change. */
  ghost predicate TermsStay(s: Books, t: Books) {
    forall p | p in s.payments ::
      && p in t.payments && t.payments[p].target == s.payments[p].target
      && t.payments[p].online == s.payments[p].online && t.payments[p].amount == s.payments[p].amount
  }

  ghost predicate Keeps(s: Books, t: Books) {
    Sound(t) && PaidStaysPaid(s, t) && TermsStay(s, t) && (OneActive(s) ==> OneActive(t))
  }

  /** One payment changes, and does not become active. */
  lemma OneRowKeepsActive(s: Books, t: Books, p: PaymentId)
    requires p in s.payments && p in t.payments && t.payments == s.payments[p := t.payments[p]]
    requires t.payments[p].target == s.payments[p].target && (IsActive(t.payments[p].status) ==> IsActive(s.payments[p].status))
    ensures OneActive(s) ==> OneActive(t)
  {
    forall q | q in t.payments && IsActive(t.payments[q].status)
      ensures q in s.payments && IsActive(s.payments[q].status) && s.payments[q].target == t.payments[q].target
    {
    }
  }

  /** Transactions on earnings and payouts leave everything about payments alone. */
  lemma SameLinks(s: Books, t: Books)
    requires RefundsLinked(s) && IntentsOk(s) && SettlementsOk(s)
    requires t.payments == s.payments && t.intents == s.intents && t.settlements == s.settlements && t.refunds == s.refunds
    ensures RefundsLinked(t) && IntentsOk(t) && SettlementsOk(t)
    ensures PaidStaysPaid(s, t) && TermsStay(s, t) && (OneActive(s) ==> OneActive(t))
  {
  }

  // ----- success -----

  /** markPaymentSucceeded succeeds exactly on paid payments and on positive
      payments that may still become SUCCEEDED: no unique index and no balance
      check ever stops it. */
  lemma SuccessExactly(s: Books, p: PaymentId, driver: Option<DriverId>, now: Time)
    requires PaymentsOk(s) && EarningsOk(s) && p in s.payments
    ensures var payment := s.payments[p];
            MarkSucceeded(s, p, driver, now).Committed? <==>
              IsPaid(payment.status) || (PaymentMayBecome(payment.status, Succeeded) && payment.amount > 0)
  {
    var payment := s.payments[p];
    assert PaymentOk(s, p);
    assert p in s.earnings ==> EarningOk(s, p);
    SuccessPostingBalances(!payment.online, payment.amount);
  }

  /** What a first success writes. */
  ghost predicate FirstSuccess(s: Books, t: Books, p: PaymentId, driver: Option<DriverId>, now: Time) {
    && p in s.payments && !IsPaid(s.payments[p].status) && IsActive(s.payments[p].status) && s.payments[p].amount > 0
    && var payment := s.payments[p];
    && t.payments == s.payments[p := payment.(status := Succeeded, paid := payment.amount)]
    && t.fees == s.fees[p := FeeOf(payment)]
    && t.earnings == (if driver.Some? && NetOf(payment) > 0 then s.earnings[p := NewEarning(payment, driver.value, now)] else s.earnings)
    && t.ledger == s.ledger[PaymentKey(p) := WithoutZeros(SuccessEntriesOf(payment))]
    && Balanced(WithoutZeros(SuccessEntriesOf(payment)))
    && PaymentKey(p) !in s.ledger && p !in s.earnings
    && t.intents == s.intents && t.settlements == s.settlements && t.payouts == s.payouts && t.refunds == s.refunds
  }

  lemma EarnedArePaid(s: Books)
    requires EarningsOk(s)
    ensures forall e | e in s.earnings :: e in s.payments && IsPaid(s.payments[e].status)
  {
    forall e | e in s.earnings ensures e in s.payments && IsPaid(s.payments[e].status) {
      assert EarningOk(s, e);
    }
  }

  lemma SuccessEffect(s: Books, p: PaymentId, driver: Option<DriverId>, now: Time)
    requires PaymentsOk(s) && EarningsOk(s) && MarkSucceeded(s, p, driver, now).Committed?
    ensures var t := MarkSucceeded(s, p, driver, now).state;
            if IsPaid(s.payments[p].status) then t == s else FirstSuccess(s, t, p, driver, now)
  {
    if !IsPaid(s.payments[p].status) {
      SuccessExactly(s, p, driver, now);
      assert PaymentOk(s, p);
      EarnedArePaid(s);
      SuccessPostingBalances(!s.payments[p].online, s.payments[p].amount);
      SuccessWrites(s, p, driver, now);
    }
  }

  lemma SuccessWrites(s: Books, p: PaymentId, driver: Option<DriverId>, now: Time)
    requires p in s.payments && !IsPaid(s.payments[p].status) && s.payments[p].amount > 0
    requires p !in s.fees && p !in s.earnings && PaymentKey(p) !in s.ledger
    requires Balanced(WithoutZeros(SuccessEntriesOf(s.payments[p]))) && MarkSucceeded(s, p, driver, now).Committed?
    ensures FirstSuccess(s, MarkSucceeded(s, p, driver, now).state, p, driver, now)
  {
  }

  lemma FirstSuccessPayments(s: Books, t: Books, p: PaymentId, driver: Option<DriverId>, now: Time)
    requires PaymentsOk(s) && FirstSuccess(s, t, p, driver, now)
    ensures PaymentsOk(t)
  {
    forall q | q in t.payments ensures PaymentOk(t, q) {
      assert PaymentOk(s, q);
    }
  }

  /** A success leaves the active payments what they were. */
  lemma FirstSuccessActive(s: Books, t: Books, p: PaymentId, driver: Option<DriverId>, now: Time)
    requires FirstSuccess(s, t, p, driver, now)
    ensures OneActive(t) <==> OneActive(s)
  {
    forall q ensures q in t.payments && IsActive(t.payments[q].status) <==> q in s.payments && IsActive(s.payments[q].status) {
    }
    forall q | q in s.payments ensures q in t.payments && t.payments[q].target == s.payments[q].target {
    }
  }

  lemma FirstSuccessEarnings(s: Books, t: Books, p: PaymentId, driver: Option<DriverId>, now: Time)
    requires EarningsOk(s) && FirstSuccess(s, t, p, driver, now)
    ensures EarningsOk(t)
  {
    forall e | e in t.earnings ensures EarningOk(t, e) {
      if e != p || p in s.earnings { assert EarningOk(s, e); }
    }
  }

  lemma SameNets(a: map<PaymentId, Earning>, b: map<PaymentId, Earning>, ids: set<PaymentId>)
    requires forall e | e in ids :: e in a && e in b && a[e].net == b[e].net
    ensures NetColumn(a, ids) == NetColumn(b, ids)
  {
  }

  lemma FirstSuccessPayouts(s: Books, t: Books, p: PaymentId, driver: Option<DriverId>, now: Time)
    requires PayoutsOk(s) && FirstSuccess(s, t, p, driver, now)
    ensures PayoutsOk(t)
  {
    forall payout | payout in t.payouts ensures PayoutOk(t, payout) {
      assert PayoutOk(s, payout);
      SameNets(s.earnings, t.earnings, s.payouts[payout].items);
    }
  }

  lemma FirstSuccessLedger(s: Books, t: Books, p: PaymentId, driver: Option<DriverId>, now: Time)
    requires LedgerOk(s) && FirstSuccess(s, t, p, driver, now)
    ensures LedgerOk(t)
  {
    forall k | k in t.ledger ensures PostingOk(t, k) {
      if k in s.ledger && k != PaymentKey(p) { assert PostingOk(s, k); }
    }
  }

  lemma FirstSuccessKeepsMoney(s: Books, t: Books, p: PaymentId, driver: Option<DriverId>, now: Time)
    requires MoneyOk(s) && FirstSuccess(s, t, p, driver, now)
    ensures MoneyOk(t) && PaidStaysPaid(s, t) && TermsStay(s, t)
  {
    FirstSuccessPayments(s, t, p, driver, now);
    FirstSuccessEarnings(s, t, p, driver, now);
    FirstSuccessPayouts(s, t, p, driver, now);
    FirstSuccessLedger(s, t, p, driver, now);
    FirstSuccessLinks(s, t, p, driver, now);
  }

  lemma FirstSuccessLinks(s: Books, t: Books, p: PaymentId, driver: Option<DriverId>, now: Time)
    requires RefundsLinked(s) && FirstSuccess(s, t, p, driver, now)
    ensures RefundsLinked(t) && PaidStaysPaid(s, t) && TermsStay(s, t)
  {
  }

  lemma MarkSucceededKeepsMoney(s: Books, p: PaymentId, driver: Option<DriverId>, now: Time)
    requires MoneyOk(s) && MarkSucceeded(s, p, driver, now).Committed?
    ensures var t := MarkSucceeded(s, p, driver, now).state;
            && MoneyOk(t) && PaidStaysPaid(s, t) && TermsStay(s, t) && (OneActive(s) ==> OneActive(t))
            && p in t.payments && IsPaid(t.payments[p].status)
            && t.intents == s.intents && t.settlements == s.settlements
  {
    SuccessEffect(s, p, driver, now);
    if !IsPaid(s.payments[p].status) {
      var t := MarkSucceeded(s, p, driver, now).state;
      FirstSuccessKeepsMoney(s, t, p, driver, now);
      FirstSuccessActive(s, t, p, driver, now);
    }
  }

  lemma IntentOfPaid(s: Books, u: Books, i: IntentId, next: IntentStatus)
    requires IntentsOk(s) && SettlementsOk(s) && i in s.intents && PaidStaysPaid(s, u)
    requires u.intents == s.intents[i := s.intents[i].(status := next)] && u.settlements == s.settlements
    requires next == IntentSucceeded ==> IsPaid(u.payments[s.intents[i].payment].status)
    ensures IntentsOk(u) && SettlementsOk(u)
  {
  }

  /** The intent row of a webhook, written before the payment is marked. */
  lemma SuccessOfIntent(s: Books, t: Books, i: IntentId, next: IntentStatus, driver: Option<DriverId>, now: Time)
    requires Sound(s) && i in s.intents
    requires t == s.(intents := s.intents[i := s.intents[i].(status := next)])
    requires MarkSucceeded(t, s.intents[i].payment, driver, now).Committed?
    ensures Keeps(s, MarkSucceeded(t, s.intents[i].payment, driver, now).state)
  {
    SameTables(s, t);
    MarkSucceededKeepsMoney(t, s.intents[i].payment, driver, now);
    IntentOfPaid(s, MarkSucceeded(t, s.intents[i].payment, driver, now).state, i, next);
  }

  lemma OtherIntentStatus(s: Books, t: Books, i: IntentId, next: IntentStatus)
    requires Sound(s) && i in s.intents && next != IntentSucceeded
    requires t == s.(intents := s.intents[i := s.intents[i].(status := next)])
    ensures Keeps(s, t)
  {
    SameTables(s, t);
  }

  lemma WebhookKeepsBooks(s: Books, i: IntentId, read: IntentStatus, posted: IntentStatus, duplicate: bool,
                          driver: Option<DriverId>, now: Time)
    requires Sound(s)
    ensures var r := Webhook(s, i, read, posted, duplicate, driver, now); r.Committed? ==> Keeps(s, r.state)
  {
    var r := Webhook(s, i, read, posted, duplicate, driver, now);
    if r.Committed? && i in s.intents && !duplicate {
      var next := TransitionIntent(read, posted).state;
      var t := s.(intents := s.intents[i := s.intents[i].(status := next)]);
      if posted == IntentSucceeded {
        SuccessOfIntent(s, t, i, next, driver, now);
      } else {
        OtherIntentStatus(s, t, i, next);
      }
    }
  }

  lemma SamePayments(s: Books, t: Books)
    requires PaymentsOk(s)
    requires t.payments == s.payments && t.fees == s.fees
    requires forall p :: PaymentKey(p) in t.ledger <==> PaymentKey(p) in s.ledger
    requires forall p | PaymentKey(p) in s.ledger :: t.ledger[PaymentKey(p)] == s.ledger[PaymentKey(p)]
    ensures PaymentsOk(t)
  {
    forall p | p in t.payments ensures PaymentOk(t, p) { assert PaymentOk(s, p); }
  }

  lemma SameEarnings(s: Books, t: Books)
    requires EarningsOk(s)
    requires t.earnings == s.earnings && PaidStaysPaid(s, t)
    requires forall p | p in s.payments :: t.payments[p].amount == s.payments[p].amount
    requires forall payout | payout in s.payouts :: payout in t.payouts && t.payouts[payout].items == s.payouts[payout].items
    requires forall payout :: PayoutKey(payout) in t.ledger <==> PayoutKey(payout) in s.ledger
    ensures EarningsOk(t)
  {
    forall e | e in t.earnings ensures EarningOk(t, e) { assert EarningOk(s, e); }
  }

  lemma SamePayouts(s: Books, t: Books)
    requires PayoutsOk(s)
    requires t.payouts == s.payouts
    requires forall e | e in s.earnings ::
               && e in t.earnings && t.earnings[e].net == s.earnings[e].net
               && t.earnings[e].payout == s.earnings[e].payout && t.earnings[e].driver == s.earnings[e].driver
    requires forall payout :: PayoutKey(payout) in t.ledger <==> PayoutKey(payout) in s.ledger
    requires forall payout | PayoutKey(payout) in s.ledger :: t.ledger[PayoutKey(payout)] == s.ledger[PayoutKey(payout)]
    ensures PayoutsOk(t)
  {
    forall payout | payout in t.payouts ensures PayoutOk(t, payout) {
      assert PayoutOk(s, payout);
      SameNets(s.earnings, t.earnings, s.payouts[payout].items);
    }
  }

  lemma SameLedger(s: Books, t: Books)
    requires LedgerOk(s) && t.ledger == s.ledger
    requires s.payments.Keys <= t.payments.Keys && s.payouts.Keys <= t.payouts.Keys && s.refunds.Keys <= t.refunds.Keys
    ensures LedgerOk(t)
  {
    forall k | k in t.ledger ensures PostingOk(t, k) { assert PostingOk(s, k); }
  }

  lemma SameTables(s: Books, t: Books)
    requires MoneyOk(s)
    requires t.payments == s.payments && t.fees == s.fees && t.earnings == s.earnings && t.payouts == s.payouts
    requires t.refunds == s.refunds && t.ledger == s.ledger
    ensures MoneyOk(t) && (OneActive(t) <==> OneActive(s))
  {
    SameMoney(s, t);
  }

  lemma SameMoney(s: Books, t: Books)
    requires PaymentsOk(s) && EarningsOk(s) && PayoutsOk(s) && LedgerOk(s)
    requires t.payments == s.payments && t.fees == s.fees && t.earnings == s.earnings && t.payouts == s.payouts
    requires t.ledger == s.ledger && s.refunds.Keys <= t.refunds.Keys
    ensures PaymentsOk(t) && EarningsOk(t) && PayoutsOk(t) && LedgerOk(t)
  {
    SamePayments(s, t);
    SameEarnings(s, t);
    SamePayouts(s, t);
    SameLedger(s, t);
  }

  /** The settlement row of a confirmation, written before the payment is marked. */
  ghost function WithSettled(s: Books, p: PaymentId, received: bool): Books
    requires p in s.settlements
  {
    s.(settlements := s.settlements[p := Settled(s.settlements[p], received)])
  }

  lemma SettledKeeps(s: Books, p: PaymentId, received: bool)
    requires Sound(s) && p in s.settlements
    ensures Keeps(s, WithSettled(s, p, received))
  {
    SameTables(s, WithSettled(s, p, received));
  }

  lemma SuccessOfSettled(s: Books, p: PaymentId, driver: Option<DriverId>, now: Time)
    requires Sound(s) && MarkSucceeded(s, p, driver, now).Committed?
    ensures Keeps(s, MarkSucceeded(s, p, driver, now).state)
  {
    MarkSucceededKeepsMoney(s, p, driver, now);
  }

  lemma KeepsTwice(s: Books, t: Books, u: Books)
    requires Keeps(s, t) && Keeps(t, u)
    ensures Keeps(s, u)
  {
  }

  lemma ConfirmCashKeepsBooks(s: Books, p: PaymentId, read: SettlementStatus, received: bool,
                              confirming: Option<DriverId>, now: Time)
    requires Sound(s)
    ensures var r := ConfirmCash(s, p, read, received, confirming, now); r.Committed? ==> Keeps(s, r.state)
  {
    var r := ConfirmCash(s, p, read, received, confirming, now);
    if r.Committed? && !(read == SettlementConfirmed && received) {
      SettledKeeps(s, p, received);
      if received {
        SuccessOfSettled(WithSettled(s, p, received), p, confirming, now);
        KeepsTwice(s, WithSettled(s, p, received), r.state);
      }
    }
  }

  // ----- creation and expiry of payments -----

  /** What the creation of a payment writes. */
  ghost predicate PaymentCreated(s: Books, t: Books, p: PaymentId, i: IntentId) {
    && p !in s.payments && p in t.payments && t.payments == s.payments[p := t.payments[p]]
    && !IsPaid(t.payments[p].status) && t.payments[p].paid == 0 && t.payments[p].refunded == 0
    && (forall q | q in s.payments :: !HasActivePayment(s, t.payments[p].target, q))
    && (t.intents == s.intents
        || (i !in s.intents && i in t.intents && t.intents == s.intents[i := t.intents[i]]
            && t.intents[i].payment == p && t.intents[i].status != IntentSucceeded))
    && (t.settlements == s.settlements || t.settlements.Keys == s.settlements.Keys + {p})
    && t.fees == s.fees && t.earnings == s.earnings && t.payouts == s.payouts && t.refunds == s.refunds
    && t.ledger == s.ledger
  }

  lemma CreatedPaymentKeepsBooks(s: Books, t: Books, p: PaymentId, i: IntentId)
    requires Sound(s) && PaymentCreated(s, t, p, i)
    ensures Keeps(s, t)
  {
    NewPayment(s, t, p);
    NewPaymentIsOneActive(s, t, p);
    NewPaymentLinks(s, t, p, i);
    SameEarnings(s, t);
    SamePayouts(s, t);
    SameLedger(s, t);
  }

  lemma NewPaymentLinks(s: Books, t: Books, p: PaymentId, i: IntentId)
    requires RefundsLinked(s) && IntentsOk(s) && SettlementsOk(s) && PaymentCreated(s, t, p, i)
    ensures RefundsLinked(t) && IntentsOk(t) && SettlementsOk(t) && PaidStaysPaid(s, t) && TermsStay(s, t)
  {
  }

  lemma CreationEffect(s: Books, target: Target, driver: Option<DriverId>, online: bool, amount: nat, p: PaymentId,
                       i: IntentId, intentStatus: IntentStatus, now: Time)
    requires intentStatus != IntentSucceeded
    requires forall q | q in s.payments :: !HasActivePayment(s, target, q)
    ensures var r := CreatePayment(s, target, driver, online, amount, p, i, intentStatus, None, now);
            r.Committed? ==> PaymentCreated(s, r.state, p, i)
  {
  }

  lemma CreatePaymentKeepsBooks(s: Books, target: Target, driver: Option<DriverId>, online: bool, amount: nat,
                                p: PaymentId, i: IntentId, intentStatus: IntentStatus, existing: Option<PaymentId>,
                                now: Time)
    requires Sound(s) && intentStatus != IntentSucceeded
    requires existing == None ==> forall q | q in s.payments :: !HasActivePayment(s, target, q)
    ensures var r := CreatePayment(s, target, driver, online, amount, p, i, intentStatus, existing, now);
            r.Committed? ==> Keeps(s, r.state)
  {
    var r := CreatePayment(s, target, driver, online, amount, p, i, intentStatus, existing, now);
    if r.Committed? && existing == None {
      CreationEffect(s, target, driver, online, amount, p, i, intentStatus, now);
      CreatedPaymentKeepsBooks(s, r.state, p, i);
    }
  }

  lemma NewPayment(s: Books, t: Books, p: PaymentId)
    requires PaymentsOk(s) && LedgerOk(s) && p !in s.payments && p in t.payments
    requires t.payments == s.payments[p := t.payments[p]]
    requires !IsPaid(t.payments[p].status) && t.payments[p].paid == 0 && t.payments[p].refunded == 0
    requires t.fees == s.fees && t.ledger == s.ledger
    ensures PaymentsOk(t)
  {
    assert PaymentKey(p) in s.ledger ==> PostingOk(s, PaymentKey(p));
    forall q | q in t.payments ensures PaymentOk(t, q) {
      if q != p { assert PaymentOk(s, q); }
    }
  }

  lemma NewPaymentIsOneActive(s: Books, t: Books, p: PaymentId)
    requires p !in s.payments && p in t.payments && t.payments == s.payments[p := t.payments[p]]
    requires forall q | q in s.payments :: !HasActivePayment(s, t.payments[p].target, q)
    ensures OneActive(s) ==> OneActive(t)
  {
    forall q | q in s.payments ensures q in t.payments && t.payments[q] == s.payments[q] {
    }
    forall q | q in s.payments && IsActive(s.payments[q].status) ensures s.payments[q].target != t.payments[p].target {
      assert !HasActivePayment(s, t.payments[p].target, q);
    }
  }

  lemma ExpirePaymentRows(s: Books, p: PaymentId)
    requires PaymentsOk(s) && p in s.payments && Stale(s.payments[p])
    ensures PaymentsOk(ExpireStale(s, p)) && PaidStaysPaid(s, ExpireStale(s, p)) && TermsStay(s, ExpireStale(s, p))
  {
    var t := ExpireStale(s, p);
    forall q | q in t.payments ensures PaymentOk(t, q) {
      assert PaymentOk(s, q);
    }
  }

  lemma ExpiredIntentsOk(s: Books, p: PaymentId)
    requires IntentsOk(s) && SettlementsOk(s) && RefundsLinked(s) && p in s.payments && Stale(s.payments[p])
    ensures var t := ExpireStale(s, p); IntentsOk(t) && SettlementsOk(t) && RefundsLinked(t)
  {
  }

  lemma ExpireStaleKeepsBooks(s: Books, p: PaymentId)
    requires Sound(s)
    ensures Keeps(s, ExpireStale(s, p))
  {
    if p in s.payments && Stale(s.payments[p]) {
      ExpirePaymentRows(s, p);
      OneRowKeepsActive(s, ExpireStale(s, p), p);
      ExpiredIntentsOk(s, p);
      ExpireKeepsMoney(s, ExpireStale(s, p), p);
    }
  }

  lemma ExpireKeepsMoney(s: Books, t: Books, p: PaymentId)
    requires EarningsOk(s) && PayoutsOk(s) && LedgerOk(s) && p in s.payments && PaidStaysPaid(s, t)
    requires t == s.(payments := s.payments[p := s.payments[p].(status := Expired)], intents := t.intents)
    ensures EarningsOk(t) && PayoutsOk(t) && LedgerOk(t)
  {
    SameEarnings(s, t);
    SamePayouts(s, t);
    SameLedger(s, t);
  }

  // ----- earnings and payouts -----

  lemma ReleaseKeepsEarnings(s: Books, t: Books, now: Time)
    requires EarningsOk(s) && t == s.(earnings := Released(s.earnings, now))
    ensures EarningsOk(t)
  {
    forall e | e in t.earnings ensures EarningOk(t, e) { assert EarningOk(s, e); }
  }

  lemma ReleaseKeepsRest(s: Books, t: Books, now: Time)
    requires PaymentsOk(s) && PayoutsOk(s) && LedgerOk(s) && t == s.(earnings := Released(s.earnings, now))
    ensures PaymentsOk(t) && PayoutsOk(t) && LedgerOk(t)
  {
    SamePayments(s, t);
    SamePayouts(s, t);
    SameLedger(s, t);
  }

  lemma ReleaseEarningsKeepsBooks(s: Books, t: Books, now: Time)
    requires Sound(s) && t == s.(earnings := Released(s.earnings, now))
    ensures Keeps(s, t)
  {
    SameLinks(s, t);
    ReleaseKeepsEarnings(s, t, now);
    ReleaseKeepsRest(s, t, now);
  }

  /** What a committed payout claim found and wrote: every selected earning was
      payable, and all of them went into the new payout. */
  ghost predicate PayoutClaimed(s: Books, t: Books, driver: DriverId, ids: set<PaymentId>, payout: PayoutId) {
    && ids != {} && payout !in s.payouts
    && (forall e | e in ids ::
          && e in s.earnings && s.earnings[e].driver == driver
          && s.earnings[e].status == EarningAvailable && s.earnings[e].payout == None)
    && payout in t.payouts
    && t.payouts == s.payouts[payout := t.payouts[payout]]
    && t.payouts[payout].items == ids && t.payouts[payout].driver == driver && t.payouts[payout].status == PayoutReady
    && t.payouts[payout].gross == Sum(NetColumn(s.earnings, ids))
    && t.earnings == Claimed(s.earnings, ids, payout)
    && t.payments == s.payments && t.fees == s.fees && t.intents == s.intents && t.settlements == s.settlements
    && t.refunds == s.refunds && t.ledger == s.ledger
  }

  /** A payout is created exactly from distinct earnings that are all of its
      driver, AVAILABLE and in no payout; it then has all of them. */
  lemma ClaimIsAllOrNothing(s: Books, driver: DriverId, ids: seq<PaymentId>, payout: PayoutId)
    ensures var r := CreatePayout(s, driver, ids, payout);
            r.Committed? ==> PayoutClaimed(s, r.state, driver, AsSet(ids), payout)
    ensures CreatePayout(s, driver, ids, payout).Committed? <==>
              && ids != [] && |AsSet(ids)| == |ids| && payout !in s.payouts
              && forall e | e in AsSet(ids) ::
                   && e in s.earnings && s.earnings[e].driver == driver
                   && s.earnings[e].status == EarningAvailable && s.earnings[e].payout == None
  {
    var unique := AsSet(ids);
    SubsetCardinality(PayableAmong(s, driver, unique), unique);
    if forall e | e in unique :: e in s.earnings && Payable(s.earnings[e], driver) {
      assert PayableAmong(s, driver, unique) == unique;
    }
    if PayableAmong(s, driver, unique) == unique {
      assert forall e | e in unique :: e in PayableAmong(s, driver, unique);
    }
    if ids != [] { assert ids[0] in unique; }
  }

  lemma ClaimKeepsEarnings(s: Books, t: Books, driver: DriverId, ids: set<PaymentId>, payout: PayoutId)
    requires EarningsOk(s) && PayoutKey(payout) !in s.ledger && PayoutClaimed(s, t, driver, ids, payout)
    ensures EarningsOk(t)
  {
    forall e | e in t.earnings ensures EarningOk(t, e) { assert EarningOk(s, e); }
  }

  lemma NewPayoutIsOk(s: Books, t: Books, driver: DriverId, ids: set<PaymentId>, payout: PayoutId)
    requires EarningsOk(s) && PayoutKey(payout) !in s.ledger && PayoutClaimed(s, t, driver, ids, payout)
    ensures PayoutOk(t, payout)
  {
    SameNets(s.earnings, t.earnings, ids);
    SumOfNets(s.earnings, ids);
    var e :| e in ids;
    assert EarningOk(s, e);
  }

  lemma OtherPayoutIsOk(s: Books, t: Books, driver: DriverId, ids: set<PaymentId>, payout: PayoutId, other: PayoutId)
    requires PayoutClaimed(s, t, driver, ids, payout)
    requires other in s.payouts && other != payout && PayoutOk(s, other)
    ensures PayoutOk(t, other)
  {
    forall e | e in s.payouts[other].items ensures e in t.earnings && t.earnings[e] == s.earnings[e] {
      assert s.earnings[e].payout == Some(other) && e !in ids;
    }
    SameNets(s.earnings, t.earnings, s.payouts[other].items);
  }

  lemma ClaimKeepsPayouts(s: Books, t: Books, driver: DriverId, ids: set<PaymentId>, payout: PayoutId)
    requires EarningsOk(s) && PayoutsOk(s) && PayoutKey(payout) !in s.ledger && PayoutClaimed(s, t, driver, ids, payout)
    ensures PayoutsOk(t)
  {
    forall other | other in t.payouts ensures PayoutOk(t, other) {
      if other == payout {
        NewPayoutIsOk(s, t, driver, ids, payout);
      } else {
        OtherPayoutIsOk(s, t, driver, ids, payout, other);
      }
    }
  }

  lemma ClaimKeepsBooks(s: Books, t: Books, driver: DriverId, ids: set<PaymentId>, payout: PayoutId)
    requires Sound(s) && PayoutClaimed(s, t, driver, ids, payout)
    ensures Keeps(s, t)
  {
    assert PayoutKey(payout) in s.ledger ==> PostingOk(s, PayoutKey(payout));
    ClaimKeepsRest(s, t, driver, ids, payout);
    ClaimKeepsEarnings(s, t, driver, ids, payout);
    ClaimKeepsPayouts(s, t, driver, ids, payout);
  }

  lemma ClaimKeepsRest(s: Books, t: Books, driver: DriverId, ids: set<PaymentId>, payout: PayoutId)
    requires Sound(s) && PayoutClaimed(s, t, driver, ids, payout)
    ensures PaymentsOk(t) && LedgerOk(t) && RefundsLinked(t) && IntentsOk(t) && SettlementsOk(t)
    ensures PaidStaysPaid(s, t) && TermsStay(s, t) && (OneActive(s) ==> OneActive(t))
  {
    SameLinks(s, t);
    SamePayments(s, t);
    SameLedger(s, t);
  }

  lemma CreatePayoutKeepsBooks(s: Books, driver: DriverId, ids: seq<PaymentId>, payout: PayoutId)
    requires Sound(s)
    ensures var r := CreatePayout(s, driver, ids, payout); r.Committed? ==> Keeps(s, r.state)
  {
    ClaimIsAllOrNothing(s, driver, ids, payout);
    var r := CreatePayout(s, driver, ids, payout);
    if r.Committed? { ClaimKeepsBooks(s, r.state, driver, AsSet(ids), payout); }
  }

  /** The effect of setting a payout's status: its earnings and its posting
      change at most once, when it is first set to PAID. */
  ghost predicate PayoutSet(s: Books, t: Books, payout: PayoutId, status: PayoutStatus) {
    && payout in s.payouts
    && t.payouts == s.payouts[payout := s.payouts[payout].(status := status)]
    && t.payments == s.payments && t.fees == s.fees && t.intents == s.intents && t.settlements == s.settlements
    && t.refunds == s.refunds
    && (if status == PayoutPaid && PayoutKey(payout) !in s.ledger then
          && t.ledger == s.ledger[PayoutKey(payout) := PayoutEntries(s.payouts[payout])]
          && t.earnings == PaidOut(s.earnings, payout)
        else
          t.ledger == s.ledger && t.earnings == s.earnings)
  }

  lemma AlreadyPaidOut(s: Books, payout: PayoutId)
    requires EarningsOk(s) && PayoutKey(payout) in s.ledger
    ensures PaidOut(s.earnings, payout) == s.earnings
  {
    forall e | e in s.earnings && s.earnings[e].payout == Some(payout) ensures s.earnings[e].status == EarningPaid {
      assert EarningOk(s, e);
    }
  }

  /** A payout is debited exactly once, however often it is set to PAID and
      whatever other statuses it is given in between; setting it never fails. */
  lemma PayoutIsDebitedOnce(s: Books, payout: PayoutId, status: PayoutStatus)
    requires EarningsOk(s) && payout in s.payouts && PayoutOk(s, payout)
    ensures var r := SetPayoutStatus(s, payout, status); r.Committed? && PayoutSet(s, r.state, payout, status)
  {
    if status == PayoutPaid { PaidIsDebited(s, payout); }
  }

  lemma PaidIsDebited(s: Books, payout: PayoutId)
    requires EarningsOk(s) && payout in s.payouts && s.payouts[payout].gross > 0
    ensures var r := SetPayoutStatus(s, payout, PayoutPaid); r.Committed? && PayoutSet(s, r.state, payout, PayoutPaid)
  {
    if PayoutKey(payout) in s.ledger { AlreadyPaidOut(s, payout); } else { FirstDebit(s, payout); }
  }

  lemma FirstDebit(s: Books, payout: PayoutId)
    requires payout in s.payouts && s.payouts[payout].gross > 0 && PayoutKey(payout) !in s.ledger
    ensures Post(s.ledger, PayoutKey(payout), PayoutEntries(s.payouts[payout]))
         == Committed(s.ledger[PayoutKey(payout) := PayoutEntries(s.payouts[payout])])
  {
    TransferPosting(DriverEarningsPayable, CashOrBank, s.payouts[payout].gross);
  }

  lemma PayoutSetKeepsEarnings(s: Books, t: Books, payout: PayoutId, status: PayoutStatus)
    requires EarningsOk(s) && PayoutSet(s, t, payout, status)
    ensures EarningsOk(t)
  {
    forall e | e in t.earnings ensures EarningOk(t, e) { assert EarningOk(s, e); }
  }

  lemma PayoutSetKeepsPayouts(s: Books, t: Books, payout: PayoutId, status: PayoutStatus)
    requires PayoutsOk(s) && PayoutSet(s, t, payout, status)
    ensures PayoutsOk(t)
  {
    forall other | other in t.payouts ensures PayoutOk(t, other) {
      assert PayoutOk(s, other);
      SameNets(s.earnings, t.earnings, s.payouts[other].items);
    }
  }

  lemma PayoutSetKeepsLedger(s: Books, t: Books, payout: PayoutId, status: PayoutStatus)
    requires PayoutsOk(s) && LedgerOk(s) && PayoutSet(s, t, payout, status)
    ensures LedgerOk(t)
  {
    assert PayoutOk(s, payout);
    TransferPosting(DriverEarningsPayable, CashOrBank, s.payouts[payout].gross);
    forall k | k in t.ledger ensures PostingOk(t, k) {
      if k in s.ledger { assert PostingOk(s, k); }
    }
  }

  lemma PayoutSetKeepsPayments(s: Books, t: Books, payout: PayoutId, status: PayoutStatus)
    requires PaymentsOk(s) && PayoutSet(s, t, payout, status)
    ensures PaymentsOk(t)
  {
    SamePayments(s, t);
  }

  lemma PayoutSetKeepsLinks(s: Books, t: Books, payout: PayoutId, status: PayoutStatus)
    requires RefundsLinked(s) && IntentsOk(s) && SettlementsOk(s) && PayoutSet(s, t, payout, status)
    ensures RefundsLinked(t) && IntentsOk(t) && SettlementsOk(t)
    ensures PaidStaysPaid(s, t) && TermsStay(s, t) && (OneActive(s) ==> OneActive(t))
  {
    SameLinks(s, t);
  }

  lemma PayoutSetKeepsBooks(s: Books, t: Books, payout: PayoutId, status: PayoutStatus)
    requires Sound(s) && PayoutSet(s, t, payout, status)
    ensures Keeps(s, t)
  {
    PayoutSetKeepsPayments(s, t, payout, status);
    PayoutSetKeepsLinks(s, t, payout, status);
    PayoutSetKeepsEarnings(s, t, payout, status);
    PayoutSetKeepsPayouts(s, t, payout, status);
    PayoutSetKeepsLedger(s, t, payout, status);
  }

  lemma SetPayoutStatusKeepsBooks(s: Books, payout: PayoutId, status: PayoutStatus)
    requires Sound(s)
    ensures var r := SetPayoutStatus(s, payout, status); r.Committed? ==> Keeps(s, r.state)
  {
    var r := SetPayoutStatus(s, payout, status);
    if payout in s.payouts {
      PayoutIsDebitedOnce(s, payout, status);
      PayoutSetKeepsBooks(s, r.state, payout, status);
    }
  }

  // ----- refunds -----

  lemma RefundIsAllowed(s: Books, p: PaymentId, amount: Option<nat>, refund: RefundId)
    requires RequestRefund(s, p, amount, refund).Committed?
    ensures p in s.payments && IsPaid(s.payments[p].status) && refund !in s.refunds
    ensures var t := RequestRefund(s, p, amount, refund).state;
            && refund in t.refunds && t == s.(refunds := s.refunds[refund := t.refunds[refund]])
            && t.refunds[refund].payment == p
            && 0 < t.refunds[refund].amount <= s.payments[p].paid - s.payments[p].refunded
            && t.refunds[refund].status == RefundRequested
  {
  }

  lemma NewRefundKeepsBooks(s: Books, t: Books, refund: RefundId)
    requires Sound(s) && refund in t.refunds && t == s.(refunds := s.refunds[refund := t.refunds[refund]])
    requires t.refunds[refund].amount > 0
    requires t.refunds[refund].payment in s.payments && IsPaid(s.payments[t.refunds[refund].payment].status)
    ensures Keeps(s, t)
  {
    SameMoney(s, t);
    NewRefundLinks(s, t, refund);
  }

  lemma NewRefundLinks(s: Books, t: Books, refund: RefundId)
    requires RefundsLinked(s) && IntentsOk(s) && SettlementsOk(s)
    requires refund in t.refunds && t == s.(refunds := s.refunds[refund := t.refunds[refund]])
    requires t.refunds[refund].amount > 0
    requires t.refunds[refund].payment in s.payments && IsPaid(s.payments[t.refunds[refund].payment].status)
    ensures RefundsLinked(t) && IntentsOk(t) && SettlementsOk(t)
    ensures PaidStaysPaid(s, t) && TermsStay(s, t) && (OneActive(s) ==> OneActive(t))
  {
  }

  lemma RequestRefundKeepsBooks(s: Books, p: PaymentId, amount: Option<nat>, refund: RefundId)
    requires Sound(s)
    ensures var r := RequestRefund(s, p, amount, refund); r.Committed? ==> Keeps(s, r.state)
  {
    var r := RequestRefund(s, p, amount, refund);
    if r.Committed? {
      RefundIsAllowed(s, p, amount, refund);
      NewRefundKeepsBooks(s, r.state, refund);
    }
  }

  /** A refund read may be old, but the refund row only changes its status, and
      the amounts paid never change once paid. */
  predicate PossibleRefundRead(s: Books, read: RefundRead) {
    && read.id in s.refunds
    && read.refund.payment == s.refunds[read.id].payment && read.refund.amount == s.refunds[read.id].amount
    && read.refund.payment in s.payments
    && read.payment.paid == s.payments[read.refund.payment].paid
  }

  /** What one round of the refund loop writes. */
  ghost predicate RefundProcessed(s: Books, t: Books, read: RefundRead) {
    && PossibleRefundRead(s, read) && RefundKey(read.id) !in s.ledger
    && var p := read.refund.payment;
    && var refunded := read.payment.refunded + read.refund.amount;
    && t.payments == s.payments[p := s.payments[p].(refunded := refunded,
                       status := if refunded >= read.payment.paid then Refunded else PartiallyRefunded)]
    && t.refunds == s.refunds[read.id := s.refunds[read.id].(status := RefundSucceeded)]
    && t.ledger == s.ledger[RefundKey(read.id) := Transfer(ClientRefunds, ProviderCash, read.refund.amount)]
    && t.fees == s.fees && t.earnings == s.earnings && t.payouts == s.payouts
    && t.intents == s.intents && t.settlements == s.settlements
  }

  lemma RefundedPaymentOk(s: Books, t: Books, read: RefundRead, p: PaymentId)
    requires RefundsLinked(s) && RefundProcessed(s, t, read) && p in s.payments && PaymentOk(s, p)
    ensures PaymentOk(t, p)
  {
  }

  lemma RefundedPaymentsOk(s: Books, t: Books, read: RefundRead)
    requires PaymentsOk(s) && RefundsLinked(s) && RefundProcessed(s, t, read)
    ensures PaymentsOk(t) && PaidStaysPaid(s, t)
  {
    forall p | p in t.payments ensures PaymentOk(t, p) { RefundedPaymentOk(s, t, read, p); }
  }

  lemma RefundedLedgerOk(s: Books, t: Books, read: RefundRead)
    requires LedgerOk(s) && RefundsLinked(s) && RefundProcessed(s, t, read)
    ensures LedgerOk(t)
  {
    TransferBalances(ClientRefunds, ProviderCash, DriverEarningsPayable, read.refund.amount);
    forall k | k in t.ledger ensures PostingOk(t, k) { RefundedPostingOk(s, t, read, k); }
  }

  lemma RefundedPostingOk(s: Books, t: Books, read: RefundRead, k: LedgerKey)
    requires RefundProcessed(s, t, read) && k in t.ledger
    requires k != RefundKey(read.id) ==> k in s.ledger && PostingOk(s, k)
    requires Balanced(Transfer(ClientRefunds, ProviderCash, read.refund.amount))
    requires Net(Transfer(ClientRefunds, ProviderCash, read.refund.amount), DriverEarningsPayable) == 0
    ensures PostingOk(t, k)
  {
  }

  lemma RefundedLinksOk(s: Books, t: Books, read: RefundRead)
    requires RefundsLinked(s) && IntentsOk(s) && SettlementsOk(s) && RefundProcessed(s, t, read)
    ensures RefundsLinked(t) && IntentsOk(t) && SettlementsOk(t) && TermsStay(s, t)
  {
  }

  lemma RefundedEarningsOk(s: Books, t: Books, read: RefundRead)
    requires EarningsOk(s) && PaidStaysPaid(s, t) && RefundProcessed(s, t, read)
    ensures EarningsOk(t)
  {
    SameEarnings(s, t);
  }

  lemma RefundedPayoutsOk(s: Books, t: Books, read: RefundRead)
    requires PayoutsOk(s) && RefundProcessed(s, t, read)
    ensures PayoutsOk(t)
  {
    SamePayouts(s, t);
  }

  lemma RefundProcessedKeepsBooks(s: Books, t: Books, read: RefundRead)
    requires Sound(s) && RefundProcessed(s, t, read)
    ensures Keeps(s, t)
  {
    OneRowKeepsActive(s, t, read.refund.payment);
    RefundedPaymentsOk(s, t, read);
    RefundedLedgerOk(s, t, read);
    RefundedLinksOk(s, t, read);
    RefundedEarningsOk(s, t, read);
    RefundedPayoutsOk(s, t, read);
  }

  lemma ProcessRefundEffect(s: Books, read: RefundRead)
    requires PossibleRefundRead(s, read) && ProcessRefund(s, read).Committed?
    ensures RefundProcessed(s, ProcessRefund(s, read).state, read)
  {
  }

  lemma ProcessRefundKeepsBooks(s: Books, read: RefundRead)
    requires Sound(s) && PossibleRefundRead(s, read)
    ensures var r := ProcessRefund(s, read); r.Committed? ==> Keeps(s, r.state)
  {
    var r := ProcessRefund(s, read);
    if r.Committed? {
      ProcessRefundEffect(s, read);
      RefundProcessedKeepsBooks(s, r.state, read);
    }
  }

  // ----- every run -----

  datatype Step =
    | CreatePaymentStep(target: Target, driver: Option<DriverId>, online: bool, amount: nat, p: PaymentId, i: IntentId,
                        intentStatus: IntentStatus, existing: Option<PaymentId>, now: Time)
    | WebhookStep(i: IntentId, read: IntentStatus, posted: IntentStatus, duplicate: bool, driver: Option<DriverId>, now: Time)
    | CashStep(p: PaymentId, settlement: SettlementStatus, received: bool, confirming: Option<DriverId>, now: Time)
    | ExpireStep(p: PaymentId)
    | ReleaseStep(now: Time)
    | PayoutStep(driverId: DriverId, ids: seq<PaymentId>, payout: PayoutId)
    | PayoutStatusStep(payout: PayoutId, status: PayoutStatus)
    | RequestRefundStep(p: PaymentId, wanted: Option<nat>, refund: RefundId)
    | ProcessRefundStep(pending: RefundRead)

  ghost function Attempt(s: Books, step: Step): Tx<Books> {
    match step
    case CreatePaymentStep(target, driver, online, amount, p, i, intentStatus, existing, now) =>
      CreatePayment(s, target, driver, online, amount, p, i, intentStatus, existing, now)
    case WebhookStep(i, read, posted, duplicate, driver, now) => Webhook(s, i, read, posted, duplicate, driver, now)
    case CashStep(p, read, received, confirming, now) => ConfirmCash(s, p, read, received, confirming, now)
    case ExpireStep(p) => Committed(ExpireStale(s, p))
    case ReleaseStep(now) => Committed(ReleaseEarnings(s, now))
    case PayoutStep(driver, ids, payout) => CreatePayout(s, driver, ids, payout)
    case PayoutStatusStep(payout, status) => SetPayoutStatus(s, payout, status)
    case RequestRefundStep(p, amount, refund) => RequestRefund(s, p, amount, refund)
    case ProcessRefundStep(read) => ProcessRefund(s, read)
  }

  ghost function Apply(s: Books, step: Step): Books {
    match Attempt(s, step)
    case Committed(t) => t
    case Rejected(_) => s
  }

  /** The lookup for an active payment runs in the creating transaction, and no
      provider creates an intent that has already succeeded. Nothing is assumed
      of webhooks and cash confirmations: any status read, any duplicate. */
  predicate Enabled(s: Books, step: Step) {
    match step
    case CreatePaymentStep(target, _, _, _, _, _, intentStatus, existing, _) =>
      && intentStatus != IntentSucceeded
      && if existing.Some? then HasActivePayment(s, target, existing.value)
         else forall q | q in s.payments :: !HasActivePayment(s, target, q)
    case ProcessRefundStep(read) => PossibleRefundRead(s, read)
    case _ => true
  }

  lemma StepKeepsBooks(s: Books, step: Step)
    requires Sound(s) && Enabled(s, step)
    ensures Keeps(s, Apply(s, step))
  {
    match step
    case CreatePaymentStep(target, driver, online, amount, p, i, intentStatus, existing, now) =>
      CreatePaymentKeepsBooks(s, target, driver, online, amount, p, i, intentStatus, existing, now);
    case WebhookStep(i, read, posted, duplicate, driver, now) =>
      WebhookKeepsBooks(s, i, read, posted, duplicate, driver, now);
    case CashStep(p, read, received, confirming, now) => ConfirmCashKeepsBooks(s, p, read, received, confirming, now);
    case ExpireStep(p) => ExpireStaleKeepsBooks(s, p);
    case ReleaseStep(now) => ReleaseEarningsKeepsBooks(s, Apply(s, step), now);
    case PayoutStep(driver, ids, payout) => CreatePayoutKeepsBooks(s, driver, ids, payout);
    case PayoutStatusStep(payout, status) => SetPayoutStatusKeepsBooks(s, payout, status);
    case RequestRefundStep(p, amount, refund) => RequestRefundKeepsBooks(s, p, amount, refund);
    case ProcessRefundStep(read) => ProcessRefundKeepsBooks(s, read);
  }

  ghost function Exec(s: Books, steps: seq<Step>): Books
    decreases |steps|
  {
    if steps == [] then s else Exec(Apply(s, steps[0]), steps[1..])
  }

  ghost predicate Run(s: Books, steps: seq<Step>)
    decreases |steps|
  {
    steps != [] ==> Enabled(s, steps[0]) && Run(Apply(s, steps[0]), steps[1..])
  }

  /** On every run: each payment has exactly one fee and one PAYMENT posting if it
      is paid and none otherwise, at most one earning, at most one active payment
      per target, every posting balances, every earning sits in at most one
      payout whose gross is the sum of its earnings, and a SUCCEEDED intent has a
      paid payment. */
  lemma {:induction false} RunKeepsBooks(s: Books, steps: seq<Step>)
    requires BooksOk(s) && Run(s, steps)
    ensures BooksOk(Exec(s, steps)) && PaidStaysPaid(s, Exec(s, steps))
    decreases |steps|
  {
    if steps != [] {
      StepKeepsBooks(s, steps[0]);
      RunKeepsBooks(Apply(s, steps[0]), steps[1..]);
    }
  }

  lemma EmptyBooksAreOk()
    ensures BooksOk(EMPTY_BOOKS)
  {
  }
}
