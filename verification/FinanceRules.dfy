/** The exact conditions and effects of the finance transactions: which payments,
    webhooks, confirmations and refund requests go through, what they then write,
    and which payments and earnings a pass of the worker touches. */
module FinanceRules {
  import opened Tables
  import opened Money
  import opened Finance
  import opened FinanceSafety
  import FinanceStore

  // ----- the status tables, read the other way -----

  /** What a payment status can come from. */
  lemma PaymentMovesExactly(current: PaymentStatus, next: PaymentStatus)
    ensures PaymentMayBecome(current, next) <==>
              current in match next
                         case Created => {}
                         case RequiresAction => {Created}
                         case Processing => {Created, RequiresAction}
                         case Authorized => {Processing}
                         case Succeeded => {Created, RequiresAction, Processing, Authorized}
                         case Failed => {Created, RequiresAction, Processing}
                         case Cancelled => {Created, RequiresAction, Processing, Authorized}
                         case Expired => {Created, RequiresAction, Processing, Authorized}
                         case PartiallyRefunded => {Succeeded}
                         case Refunded => {Succeeded, PartiallyRefunded}
  {
  }

  lemma IntentMovesExactly(current: IntentStatus, next: IntentStatus)
    ensures IntentMayBecome(current, next) <==>
              current in match next
                         case IntentCreated => {}
                         case IntentPending => {IntentCreated}
                         case IntentRequiresAction => {IntentCreated, IntentPending}
                         case IntentProcessing => {IntentCreated, IntentPending, IntentRequiresAction}
                         case _ => {IntentCreated, IntentPending, IntentRequiresAction, IntentProcessing}
  {
  }

  /** The platform fee is a tenth of the payment, rounded up. */
  lemma FeeIsATenth(payment: Payment)
    ensures 10 * FeeOf(payment) - 10 < payment.amount <= 10 * FeeOf(payment)
    ensures FeeOf(payment) + NetOf(payment) == payment.amount
  {
    FeeIsCeiling(payment.amount, FEE_RATE_BPS);
  }

  // ----- creation -----

  /** Without an active payment of the target, a payment is created exactly under fresh
      ids: online one CREATED with the intent of the provider, cash one PROCESSING with
      a settlement for the driver to confirm. */
  lemma CreationExactly(s: Books, target: Target, driver: Option<DriverId>, online: bool, amount: nat, p: PaymentId,
                        i: IntentId, intentStatus: IntentStatus, now: Time)
    ensures CreatePayment(s, target, driver, online, amount, p, i, intentStatus, None, now).Committed? <==>
              p !in s.payments && (online ==> i !in s.intents)
    ensures CreatePayment(s, target, driver, online, amount, p, i, intentStatus, None, now).Committed? ==>
              CreatePayment(s, target, driver, online, amount, p, i, intentStatus, None, now).state ==
              if online then
                s.(payments := s.payments[p := Payment(target, true, Created, amount, 0, 0, now)],
                   intents := s.intents[i := Intent(p, intentStatus)])
              else
                s.(payments := s.payments[p := Payment(target, false, Processing, amount, 0, 0, now)],
                   settlements := s.settlements[p := Settlement(SettlementDeclared, amount, 0, driver)])
  {
  }

  /** With an active payment, creation writes nothing. */
  lemma ActivePaymentIsKept(s: Books, target: Target, driver: Option<DriverId>, online: bool, amount: nat, p: PaymentId,
                            i: IntentId, intentStatus: IntentStatus, existing: PaymentId, now: Time)
    ensures CreatePayment(s, target, driver, online, amount, p, i, intentStatus, Some(existing), now) == Committed(s)
  {
  }

  // ----- webhooks and cash -----

  /** The payment of an intent may still succeed, or did. */
  predicate CanSucceed(s: Books, p: PaymentId) {
    && p in s.payments
    && (s.payments[p].status in {Succeeded, PartiallyRefunded, Refunded}
        || (s.payments[p].status in {Created, RequiresAction, Processing, Authorized} && s.payments[p].amount > 0))
  }

  /** A webhook for a known intent that is no duplicate goes through exactly if the
      status posted is the one it read or may follow it, and a SUCCEEDED one finds a
      payment that can succeed; the intent then has the status posted, and a webhook
      of any other status changes nothing else. */
  lemma WebhookExactly(s: Books, i: IntentId, read: IntentStatus, posted: IntentStatus, duplicate: bool,
                       driver: Option<DriverId>, now: Time)
    requires MoneyOk(s)
    ensures var r := Webhook(s, i, read, posted, duplicate, driver, now);
            if i !in s.intents || duplicate then r == Committed(s)
            else
              && (r.Committed? <==>
                    && (read == posted || IntentMayBecome(read, posted))
                    && (posted == IntentSucceeded ==> CanSucceed(s, s.intents[i].payment)))
              && (r.Committed? ==> r.state.intents == s.intents[i := Intent(s.intents[i].payment, posted)])
              && (r.Committed? && posted != IntentSucceeded ==>
                    r.state == s.(intents := s.intents[i := Intent(s.intents[i].payment, posted)]))
  {
    if i in s.intents && !duplicate && posted == IntentSucceeded {
      SuccessIs(s, s.(intents := s.intents[i := Intent(s.intents[i].payment, posted)]), s.intents[i].payment, driver, now);
    }
  }

  lemma SuccessIs(s: Books, t: Books, p: PaymentId, driver: Option<DriverId>, now: Time)
    requires MoneyOk(s) && t == s.(intents := t.intents, settlements := t.settlements)
    ensures MarkSucceeded(t, p, driver, now).Committed? <==> CanSucceed(s, p)
    ensures MarkSucceeded(t, p, driver, now).Committed? ==>
              && MarkSucceeded(t, p, driver, now).state.intents == t.intents
              && MarkSucceeded(t, p, driver, now).state.settlements == t.settlements
  {
    SameTables(s, t);
    if p in s.payments {
      SuccessExactly(t, p, driver, now);
      if MarkSucceeded(t, p, driver, now).Committed? { MarkSucceededKeepsMoney(t, p, driver, now); }
    }
  }

  /** A cash confirmation or denial goes through exactly for the driver of the
      settlement: again, if it was read CONFIRMED and is confirmed; otherwise if it was
      read OPEN or DECLARED, and a confirmed payment can succeed. */
  lemma CashExactly(s: Books, p: PaymentId, read: SettlementStatus, received: bool, confirming: Option<DriverId>, now: Time)
    requires MoneyOk(s)
    ensures ConfirmCash(s, p, read, received, confirming, now).Committed? <==>
              && p in s.settlements && confirming.Some? && s.settlements[p].driver == confirming
              && (|| (read == SettlementConfirmed && received)
                  || (read in {SettlementOpen, SettlementDeclared} && (received ==> CanSucceed(s, p))))
    ensures ConfirmCash(s, p, read, received, confirming, now).Committed? && read in {SettlementOpen, SettlementDeclared} ==>
              ConfirmCash(s, p, read, received, confirming, now).state.settlements ==
              s.settlements[p := s.settlements[p].(status := if received then SettlementConfirmed else SettlementDisputed,
                                                   received := if received then s.settlements[p].expected else 0)]
  {
    if p in s.settlements && received { SuccessIs(s, WithSettled(s, p, true), p, confirming, now); }
  }

  /** A denial moves no money, and what was CONFIRMED or DISPUTED when it was read
      stays so. */
  lemma DenialMovesNothing(s: Books, p: PaymentId, read: SettlementStatus, confirming: Option<DriverId>, now: Time)
    requires ConfirmCash(s, p, read, false, confirming, now).Committed?
    ensures ConfirmCash(s, p, read, false, confirming, now).state ==
              s.(settlements := s.settlements[p := s.settlements[p].(status := SettlementDisputed, received := 0)])
    ensures read in {SettlementOpen, SettlementDeclared}
  {
  }

  // ----- refund requests -----

  /** A refund can be requested exactly of a payment that is SUCCEEDED or PARTIALLY
      REFUNDED, for a positive amount of at most what is not refunded yet; without an
      amount, for all of that. The row then has just this amount. */
  lemma RequestExactly(s: Books, p: PaymentId, amount: Option<nat>, refund: RefundId)
    ensures RequestRefund(s, p, amount, refund).Committed? <==>
              && p in s.payments && s.payments[p].status in {Succeeded, PartiallyRefunded}
              && s.payments[p].refunded < s.payments[p].paid && refund !in s.refunds
              && (amount.Some? ==> 0 < amount.value <= s.payments[p].paid - s.payments[p].refunded)
    ensures RequestRefund(s, p, amount, refund).Committed? ==>
              RequestRefund(s, p, amount, refund).state ==
              s.(refunds := s.refunds[refund :=
                Refund(p, if amount.Some? then amount.value else s.payments[p].paid - s.payments[p].refunded, RefundRequested)])
  {
    if RequestRefund(s, p, amount, refund).Committed? { RequestedRow(s, p, amount, refund); }
  }

  lemma RequestedRow(s: Books, p: PaymentId, amount: Option<nat>, refund: RefundId)
    requires RequestRefund(s, p, amount, refund).Committed?
    ensures p in s.payments && s.payments[p].refunded <= s.payments[p].paid
    ensures RequestRefund(s, p, amount, refund).state ==
              s.(refunds := s.refunds[refund :=
                Refund(p, if amount.Some? then amount.value else s.payments[p].paid - s.payments[p].refunded, RefundRequested)])
  {
  }

  // ----- the passes of the worker -----

  /** An online payment that is open and more than thirty minutes old. */
  predicate IsOverdue(payment: Payment, now: Time) {
    && payment.online && payment.status in {Created, RequiresAction, Processing}
    && payment.createdAt < now - 30 * 60 * 1000
  }

  function OverduePayments(s: Books, now: Time): set<PaymentId> {
    set p | p in s.payments && IsOverdue(s.payments[p], now)
  }

  lemma {:induction false} OnlyTheBatchExpires(s: Books, batch: seq<PaymentId>, p: PaymentId)
    requires FinanceStore.DistinctStale(s, batch) && p in s.payments
    ensures var t := FinanceStore.ExpireAll(s, batch);
            && p in t.payments
            && t.payments[p] == if p in batch then s.payments[p].(status := Expired) else s.payments[p]
    decreases |batch|
  {
    if batch != [] { OnlyTheBatchExpires(ExpireStale(s, batch[0]), batch[1..], p); }
  }

  /** A pass expires only overdue payments, every one of them if there are at most
      fifty, and leaves every other payment as it is: one that is cash, not open any
      more, or not thirty minutes old. */
  lemma StalePassExactly(s: Books, batch: seq<PaymentId>, now: Time)
    requires FinanceStore.DistinctStale(s, batch)
    requires forall i | 0 <= i < |batch| :: batch[i] in FinanceStore.StalePayments(s, now)
    requires |batch| == FinanceStore.EXPIRY_LIMIT || |batch| == |FinanceStore.StalePayments(s, now)|
    ensures var t := FinanceStore.ExpireAll(s, batch);
            && (forall p | p in s.payments ::
                  && p in t.payments
                  && (t.payments[p] == s.payments[p]
                      || (IsOverdue(s.payments[p], now) && t.payments[p] == s.payments[p].(status := Expired))))
            && (|OverduePayments(s, now)| <= 50 ==>
                  forall p | p in OverduePayments(s, now) :: p in t.payments && t.payments[p].status == Expired)
  {
    forall p | p in s.payments
      ensures p in FinanceStore.ExpireAll(s, batch).payments
      ensures FinanceStore.ExpireAll(s, batch).payments[p] ==
                if p in batch then s.payments[p].(status := Expired) else s.payments[p]
    {
      OnlyTheBatchExpires(s, batch, p);
    }
    assert OverduePayments(s, now) == FinanceStore.StalePayments(s, now);
    if |OverduePayments(s, now)| <= 50 { AllAreInTheBatch(s, batch, now); }
  }

  lemma AllAreInTheBatch(s: Books, batch: seq<PaymentId>, now: Time)
    requires FinanceStore.DistinctStale(s, batch)
    requires forall i | 0 <= i < |batch| :: batch[i] in FinanceStore.StalePayments(s, now)
    requires |batch| >= |FinanceStore.StalePayments(s, now)|
    ensures forall p | p in FinanceStore.StalePayments(s, now) :: p in batch
  {
    DistinctMembers(batch);
    SubsetCardinality(AsSet(batch), FinanceStore.StalePayments(s, now));
  }

  lemma {:induction false} DistinctMembers(batch: seq<PaymentId>)
    requires forall i, j | 0 <= i < j < |batch| :: batch[i] != batch[j]
    ensures |AsSet(batch)| == |batch|
    decreases |batch|
  {
    if batch == [] {
      assert AsSet(batch) == {};
    } else {
      DistinctMembers(batch[1..]);
      assert AsSet(batch) == {batch[0]} + AsSet(batch[1..]);
    }
  }

  /** The expiry of a payment takes its open intents with it, and no other intent. */
  lemma ExpiryTakesIntents(s: Books, p: PaymentId)
    requires p in s.payments && Stale(s.payments[p])
    ensures var t := ExpireStale(s, p);
            && t == s.(payments := s.payments[p := s.payments[p].(status := Expired)], intents := t.intents)
            && t.intents.Keys == s.intents.Keys
            && forall i | i in s.intents ::
                 t.intents[i] ==
                 if s.intents[i].payment == p
                    && s.intents[i].status in {IntentCreated, IntentPending, IntentRequiresAction, IntentProcessing}
                 then Intent(p, IntentExpired) else s.intents[i]
  {
  }

  /** The release makes exactly the PENDING earnings AVAILABLE whose day is over. */
  lemma ReleaseExactly(s: Books, now: Time)
    ensures var t := ReleaseEarnings(s, now);
            && t == s.(earnings := t.earnings) && t.earnings.Keys == s.earnings.Keys
            && forall e | e in s.earnings ::
                 t.earnings[e] ==
                 if s.earnings[e].status == EarningPending && s.earnings[e].availableAt <= now
                 then s.earnings[e].(status := EarningAvailable) else s.earnings[e]
  {
  }
}
