/** The finance tables as the database keeps them, updated in place by the
    payment routes and the finance worker. Every method is proved to do what the
    corresponding function of Finance says; a thrown error restores the state
    the transaction started from. */
module FinanceStore {
  import opened Tables
  import opened Money
  import opened Finance

  const EXPIRY_LIMIT := 50

  predicate StaleSince(payment: Payment, now: Time) {
    Stale(payment) && payment.createdAt < now - STALE_AFTER
  }

  function StalePayments(s: Books, now: Time): set<PaymentId> {
    set p | p in s.payments && StaleSince(s.payments[p], now)
  }

  function ExpireAll(s: Books, batch: seq<PaymentId>): Books
    decreases |batch|
  {
    if batch == [] then s else ExpireAll(ExpireStale(s, batch[0]), batch[1..])
  }

  ghost predicate DistinctStale(s: Books, batch: seq<PaymentId>) {
    && (forall i | 0 <= i < |batch| :: batch[i] in s.payments && Stale(s.payments[batch[i]]))
    && (forall i, j | 0 <= i < j < |batch| :: batch[i] != batch[j])
  }

  /** A pass of the expiry loop leaves nothing but what the row limit cut off. */
  lemma {:induction false} PassShrinksStale(s: Books, batch: seq<PaymentId>, now: Time)
    requires DistinctStale(s, batch) && forall i | 0 <= i < |batch| :: batch[i] in StalePayments(s, now)
    ensures |StalePayments(ExpireAll(s, batch), now)| == |StalePayments(s, now)| - |batch|
    decreases |batch|
  {
    if batch != [] {
      var t := ExpireStale(s, batch[0]);
      assert StalePayments(t, now) == StalePayments(s, now) - {batch[0]};
      PassShrinksStale(t, batch[1..], now);
    }
  }

  /** One pass of the refund loop. A round that throws ends the pass. */
  function RefundPass(s: Books, batch: seq<RefundRead>): Books
    decreases |batch|
  {
    if batch == [] then s
    else
      match ProcessRefund(s, batch[0])
      case Committed(t) => RefundPass(t, batch[1..])
      case Rejected(_) => s
  }

  /** The batch was just read: requested refunds, each once, none posted yet. */
  ghost predicate FreshRefunds(s: Books, batch: seq<RefundRead>) {
    && (forall i | 0 <= i < |batch| ::
          && batch[i].id in s.refunds && batch[i].refund.payment in s.payments
          && RefundKey(batch[i].id) !in s.ledger)
    && (forall i, j | 0 <= i < j < |batch| :: batch[i].id != batch[j].id)
  }

  lemma FreshAfterRound(s: Books, batch: seq<RefundRead>)
    requires FreshRefunds(s, batch) && batch != []
    ensures ProcessRefund(s, batch[0]).Committed? && FreshRefunds(ProcessRefund(s, batch[0]).state, batch[1..])
  {
  }

  lemma {:induction false} DoneStaysDone(s: Books, batch: seq<RefundRead>, r: RefundId)
    requires r in s.refunds && s.refunds[r].status == RefundSucceeded && RefundKey(r) in s.ledger
    ensures r in RefundPass(s, batch).refunds && RefundPass(s, batch).refunds[r].status == RefundSucceeded
    ensures RefundKey(r) in RefundPass(s, batch).ledger
    decreases |batch|
  {
    if batch != [] && ProcessRefund(s, batch[0]).Committed? {
      DoneStaysDone(ProcessRefund(s, batch[0]).state, batch[1..], r);
    }
  }

  /** A pass over freshly read refunds is never cut short: it carries out and
      posts every one of them. */
  lemma {:induction false} PassCarriesOutAll(s: Books, batch: seq<RefundRead>)
    requires FreshRefunds(s, batch)
    ensures forall i | 0 <= i < |batch| ::
              && batch[i].id in RefundPass(s, batch).refunds
              && RefundPass(s, batch).refunds[batch[i].id].status == RefundSucceeded
              && RefundKey(batch[i].id) in RefundPass(s, batch).ledger
    decreases |batch|
  {
    if batch != [] {
      FreshAfterRound(s, batch);
      var t := ProcessRefund(s, batch[0]).state;
      PassCarriesOutAll(t, batch[1..]);
      DoneStaysDone(t, batch[1..], batch[0].id);
      assert forall i | 0 < i < |batch| :: batch[i] == batch[1..][i - 1];
    }
  }

  class Store {
    var payments: map<PaymentId, Payment>
    var intents: map<IntentId, Intent>
    var settlements: map<PaymentId, Settlement>
    var fees: map<PaymentId, nat>
    var earnings: map<PaymentId, Earning>
    var payouts: map<PayoutId, Payout>
    var refunds: map<RefundId, Refund>
    var ledger: map<LedgerKey, seq<Entry>>

    function View(): Books
      reads this
    {
      Books(payments, intents, settlements, fees, earnings, payouts, refunds, ledger)
    }

    constructor ()
      ensures View() == EMPTY_BOOKS
    {
      payments, intents, settlements, fees := map[], map[], map[], map[];
      earnings, payouts, refunds, ledger := map[], map[], map[], map[];
    }

    method Rollback(saved: Books)
      modifies this
      ensures View() == saved
    {
      payments, intents, settlements, fees := saved.payments, saved.intents, saved.settlements, saved.fees;
      earnings, payouts, refunds, ledger := saved.earnings, saved.payouts, saved.refunds, saved.ledger;
    }

    static method Positive(entries: seq<Entry>) returns (kept: seq<Entry>)
      ensures kept == WithoutZeros(entries)
    {
      kept := [];
      for i := 0 to |entries|
        invariant kept == WithoutZeros(entries[..i])
      {
        assert entries[..i + 1] == entries[..i] + [entries[i]];
        OneMore(entries[..i], entries[i]);
        if entries[i].amount > 0 {
          kept := kept + [entries[i]];
        }
      }
      assert entries[..|entries|] == entries;
    }

    method LedgerPost(key: LedgerKey, entries: seq<Entry>) returns (result: Tx<map<LedgerKey, seq<Entry>>>)
      modifies this`ledger
      ensures result == Post(old(ledger), key, entries)
      ensures ledger == if result.Committed? then result.state else old(ledger)
    {
      if key in ledger { return Committed(ledger); }
      var kept := Positive(entries);
      var balanced := AssertBalancedLedger(kept);
      if !balanced { return Rejected("Ledger transaction is not balanced"); }
      ledger := ledger[key := kept];
      return Committed(ledger);
    }

    /** createPaymentIntent: the lookup and the writes of one transaction. */
    method CreatePaymentIntent(target: Target, driver: Option<DriverId>, online: bool, amount: nat, p: PaymentId,
                               i: IntentId, intentStatus: IntentStatus, now: Time)
      returns (result: Tx<Books>, existing: Option<PaymentId>)
      modifies this
      ensures if existing.Some? then HasActivePayment(old(View()), target, existing.value)
              else forall q | q in old(payments) :: !HasActivePayment(old(View()), target, q)
      ensures result == CreatePayment(old(View()), target, driver, online, amount, p, i, intentStatus, existing, now)
      ensures View() == if result.Committed? then result.state else old(View())
    {
      var active := set q | q in payments && payments[q].target == target && IsActive(payments[q].status);
      if active != {} {
        var q :| q in active;
        return Committed(View()), Some(q);
      }
      assert forall q | q in payments :: q !in active;
      existing := None;
      if p in payments || (online && i in intents) {
        return Rejected("UNIQUE_VIOLATION"), None;
      }
      payments := payments[p := Payment(target, online, if online then Created else Processing, amount, 0, 0, now)];
      if online {
        intents := intents[i := Intent(p, intentStatus)];
      } else {
        settlements := settlements[p := Settlement(SettlementDeclared, amount, 0, driver)];
      }
      return Committed(View()), None;
    }

    /** Writes step by step; a caller whose transaction throws rolls back. */
    method MarkPaymentSucceeded(p: PaymentId, driver: Option<DriverId>, now: Time) returns (result: Tx<Books>)
      modifies this
      ensures result == MarkSucceeded(old(View()), p, driver, now)
      ensures result.Committed? ==> View() == result.state
    {
      if p !in payments { return Rejected("PAYMENT_NOT_FOUND"); }
      var payment := payments[p];
      if IsPaid(payment.status) { return Committed(View()); }
      if TransitionPayment(payment.status, Succeeded).Rejected? { return Rejected("Invalid payment transition"); }
      payments := payments[p := payment.(status := Succeeded, paid := payment.amount)];
      if p in fees { return Rejected("UNIQUE_VIOLATION"); }
      fees := fees[p := FeeOf(payment)];
      if driver.Some? && NetOf(payment) > 0 {
        if p in earnings { return Rejected("UNIQUE_VIOLATION"); }
        earnings := earnings[p := NewEarning(payment, driver.value, now)];
      }
      var posted := LedgerPost(PaymentKey(p), SuccessEntriesOf(payment));
      if posted.Rejected? { return Rejected(posted.code); }
      return Committed(View());
    }

    method HandleWebhook(i: IntentId, read: IntentStatus, posted: IntentStatus, duplicate: bool,
                         driver: Option<DriverId>, now: Time)
      returns (result: Tx<Books>)
      modifies this
      ensures result == Webhook(old(View()), i, read, posted, duplicate, driver, now)
      ensures View() == if result.Committed? then result.state else old(View())
    {
      if i !in intents || duplicate { return Committed(View()); }
      var next := TransitionIntent(read, posted);
      if next.Rejected? { return Rejected(next.code); }
      var saved := View();
      intents := intents[i := intents[i].(status := next.state)];
      if posted == IntentSucceeded {
        result := MarkPaymentSucceeded(intents[i].payment, driver, now);
        if result.Rejected? {
          Rollback(saved);
        }
      } else {
        result := Committed(View());
      }
    }

    method ConfirmCashPayment(p: PaymentId, read: SettlementStatus, received: bool, confirming: Option<DriverId>,
                              now: Time)
      returns (result: Tx<Books>)
      modifies this
      ensures result == ConfirmCash(old(View()), p, read, received, confirming, now)
      ensures View() == if result.Committed? then result.state else old(View())
    {
      if p !in settlements || confirming == None || settlements[p].driver != confirming {
        return Rejected("CASH_SETTLEMENT_NOT_FOUND");
      }
      if read == SettlementConfirmed && received { return Committed(View()); }
      if read != SettlementOpen && read != SettlementDeclared { return Rejected("CASH_SETTLEMENT_ALREADY_FINALIZED"); }
      var saved := View();
      var settlement := settlements[p];
      settlements := settlements[p := settlement.(status := if received then SettlementConfirmed else SettlementDisputed,
                                                  received := if received then settlement.expected else 0)];
      if received {
        result := MarkPaymentSucceeded(p, confirming, now);
        if result.Rejected? {
          Rollback(saved);
        }
      } else {
        result := Committed(View());
      }
    }

    method QueryStale(now: Time) returns (batch: seq<PaymentId>)
      ensures forall i | 0 <= i < |batch| :: batch[i] in StalePayments(View(), now)
      ensures forall i, j | 0 <= i < j < |batch| :: batch[i] != batch[j]
      ensures |batch| == EXPIRY_LIMIT || |batch| == |StalePayments(View(), now)| < EXPIRY_LIMIT
    {
      var todo := set p | p in payments && StaleSince(payments[p], now);
      ghost var all := todo;
      assert all == StalePayments(View(), now);
      batch := [];
      while |batch| < EXPIRY_LIMIT && todo != {}
        invariant todo <= all && |todo| + |batch| == |all| && |batch| <= EXPIRY_LIMIT
        invariant forall i | 0 <= i < |batch| :: batch[i] in all && batch[i] !in todo
        invariant forall i, j | 0 <= i < j < |batch| :: batch[i] != batch[j]
        decreases |todo|
      {
        var p :| p in todo;
        batch := batch + [p];
        todo := todo - {p};
      }
    }

    method ExpirePayment(p: PaymentId) returns (count: nat)
      modifies this`payments, this`intents
      ensures count == if p in old(payments) && Stale(old(payments)[p]) then 1 else 0
      ensures View() == ExpireStale(old(View()), p)
    {
      if p !in payments || !Stale(payments[p]) { return 0; }
      payments := payments[p := payments[p].(status := Expired)];
      intents := map i | i in intents ::
        if intents[i].payment == p && OpenIntent(intents[i].status) then intents[i].(status := IntentExpired)
        else intents[i];
      return 1;
    }

    method SumOfClaimed(ids: set<PaymentId>) returns (gross: nat)
      requires ids <= earnings.Keys
      ensures gross == Sum(NetColumn(earnings, ids))
    {
      gross := 0;
      var rest := ids;
      assert NetColumn(earnings, ids) - ids == map[];
      while rest != {}
        invariant rest <= ids && gross + Sum(NetColumn(earnings, rest)) == Sum(NetColumn(earnings, ids))
        decreases |rest|
      {
        var e :| e in rest;
        SumRemove(NetColumn(earnings, rest), e);
        assert NetColumn(earnings, rest) - {e} == NetColumn(earnings, rest - {e});
        gross := gross + earnings[e].net;
        rest := rest - {e};
      }
    }

    method ClaimEarnings(driver: DriverId, ids: set<PaymentId>) returns (count: nat)
      modifies this`earnings
      ensures count == |PayableAmong(old(View()), driver, ids)|
      ensures earnings == map e | e in old(earnings) ::
        if e in ids && Payable(old(earnings)[e], driver) then old(earnings)[e].(status := EarningOnHold) else old(earnings)[e]
    {
      var payable := set e | e in ids && e in earnings && Payable(earnings[e], driver);
      assert payable == PayableAmong(View(), driver, ids);
      count := |payable|;
      earnings := map e | e in earnings ::
        if e in ids && Payable(earnings[e], driver) then earnings[e].(status := EarningOnHold) else earnings[e];
    }

    method CreateDriverPayout(driver: DriverId, ids: seq<PaymentId>, payout: PayoutId) returns (result: Tx<Books>)
      modifies this
      ensures result == CreatePayout(old(View()), driver, ids, payout)
      ensures View() == if result.Committed? then result.state else old(View())
    {
      var unique := set e | e in ids;
      if |unique| != |ids| { return Rejected("DUPLICATE_EARNING_SELECTED"); }
      if ids == [] { return Rejected("VALIDATION_ERROR"); }
      var saved := View();
      var locked := ClaimEarnings(driver, unique);
      if locked != |unique| {
        Rollback(saved);
        return Rejected("EARNING_NOT_PAYABLE");
      }
      SubsetCardinality(PayableAmong(saved, driver, unique), unique);
      assert forall e | e in unique :: e in PayableAmong(saved, driver, unique);
      var gross := SumOfClaimed(unique);
      assert NetColumn(earnings, unique) == NetColumn(saved.earnings, unique);
      if payout in payouts {
        Rollback(saved);
        return Rejected("UNIQUE_VIOLATION");
      }
      payouts := payouts[payout := Payout(driver, PayoutReady, gross, unique)];
      earnings := map e | e in earnings :: if e in unique then earnings[e].(payout := Some(payout)) else earnings[e];
      assert earnings == Claimed(saved.earnings, unique, payout);
      return Committed(View());
    }

    method UpdatePayoutStatus(payout: PayoutId, status: PayoutStatus) returns (result: Tx<Books>)
      modifies this
      ensures result == SetPayoutStatus(old(View()), payout, status)
      ensures View() == if result.Committed? then result.state else old(View())
    {
      if payout !in payouts { return Rejected("PAYOUT_NOT_FOUND"); }
      var saved := View();
      payouts := payouts[payout := payouts[payout].(status := status)];
      if status == PayoutPaid {
        earnings := map e | e in earnings ::
          if earnings[e].payout == Some(payout) then earnings[e].(status := EarningPaid) else earnings[e];
        var posted := LedgerPost(PayoutKey(payout), PayoutEntries(payouts[payout]));
        if posted.Rejected? {
          Rollback(saved);
          return Rejected(posted.code);
        }
      }
      return Committed(View());
    }

    method ProcessOneRefund(read: RefundRead) returns (result: Tx<Books>)
      modifies this
      ensures result == ProcessRefund(old(View()), read)
      ensures View() == if result.Committed? then result.state else old(View())
    {
      if read.id !in refunds || read.refund.payment !in payments { return Rejected("NOT_FOUND"); }
      if RefundKey(read.id) in ledger { return Rejected("UNIQUE_VIOLATION"); }
      var refunded := read.payment.refunded + read.refund.amount;
      var status := if refunded >= read.payment.paid then Refunded else PartiallyRefunded;
      refunds := refunds[read.id := refunds[read.id].(status := RefundSucceeded)];
      payments := payments[read.refund.payment := payments[read.refund.payment].(refunded := refunded, status := status)];
      ledger := ledger[RefundKey(read.id) := Transfer(ClientRefunds, ProviderCash, read.refund.amount)];
      return Committed(View());
    }

    /** The refund loop of the finance worker over what its query read. */
    method ProcessRefunds(batch: seq<RefundRead>) returns (done: nat)
      modifies this
      ensures View() == RefundPass(old(View()), batch)
      ensures FreshRefunds(old(View()), batch) ==> done == |batch|
    {
      done := 0;
      while done < |batch|
        invariant done <= |batch|
        invariant RefundPass(View(), batch[done..]) == RefundPass(old(View()), batch)
        invariant FreshRefunds(old(View()), batch) ==> FreshRefunds(View(), batch[done..])
      {
        ghost var rest := batch[done..];
        assert rest[0] == batch[done] && rest[1..] == batch[done + 1..];
        ghost var before := View();
        var result := ProcessOneRefund(batch[done]);
        if result.Rejected? {
          return;
        }
        if FreshRefunds(before, rest) { FreshAfterRound(before, rest); }
        done := done + 1;
      }
    }

    method ReleaseDueEarnings(now: Time)
      modifies this`earnings
      ensures View() == ReleaseEarnings(old(View()), now)
    {
      earnings := map e | e in earnings ::
        if earnings[e].status == EarningPending && earnings[e].availableAt <= now
        then earnings[e].(status := EarningAvailable) else earnings[e];
    }
  }
}
