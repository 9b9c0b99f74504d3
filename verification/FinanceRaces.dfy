/** A success that works from an old record of its payment. markPaymentSucceeded
    reads the payment, checks its status, and later updates it by id alone, so
    another transaction may have changed the status in between. The unique indexes
    on fees and earnings still stop a second success; an expiry is overwritten. */
module FinanceRaces {
  import opened Tables
  import opened Money
  import opened Finance
  import opened FinanceSafety
  import opened FinanceLaws

  /** A record some earlier moment can have shown: target, method and amount never
      change, and paid payments stay paid. */
  predicate PossiblePaymentRead(s: Books, p: PaymentId, read: Payment) {
    && p in s.payments
    && read.target == s.payments[p].target && read.online == s.payments[p].online && read.amount == s.payments[p].amount
    && (IsPaid(read.status) ==> IsPaid(s.payments[p].status))
  }

  /** markPaymentSucceeded with the payment it read first. */
  function MarkFrom(s: Books, p: PaymentId, read: Payment, driver: Option<DriverId>, now: Time): Tx<Books> {
    if p !in s.payments then Rejected("PAYMENT_NOT_FOUND")
    else if IsPaid(read.status) then Committed(s)
    else if TransitionPayment(read.status, Succeeded).Rejected? then Rejected("Invalid payment transition")
    else if p in s.fees then Rejected("UNIQUE_VIOLATION")
    else
      var earns := driver.Some? && NetOf(read) > 0;
      if earns && p in s.earnings then Rejected("UNIQUE_VIOLATION")
      else
        match Post(s.ledger, PaymentKey(p), SuccessEntriesOf(read))
        case Rejected(code) => Rejected(code)
        case Committed(ledger) =>
          Committed(s.(
            payments := s.payments[p := s.payments[p].(status := Succeeded, paid := read.amount)],
            fees := s.fees[p := FeeOf(read)],
            earnings := if earns then s.earnings[p := NewEarning(read, driver.value, now)] else s.earnings,
            ledger := ledger))
  }

  /** With a current record it is the transaction of Finance. */
  lemma CurrentReadIsAtomic(s: Books, p: PaymentId, driver: Option<DriverId>, now: Time)
    requires p in s.payments
    ensures MarkFrom(s, p, s.payments[p], driver, now) == MarkSucceeded(s, p, driver, now)
  {
  }

  predicate Open(status: PaymentStatus) {
    !IsPaid(status) && PaymentMayBecome(status, Succeeded)
  }

  /** The books as the record read would have them. */
  function AsRead(s: Books, p: PaymentId, read: Payment): Books
    requires p in s.payments
  {
    s.(payments := s.payments[p := s.payments[p].(status := read.status)])
  }

  lemma StaleIsAtomicAsRead(s: Books, p: PaymentId, read: Payment, driver: Option<DriverId>, now: Time)
    requires PossiblePaymentRead(s, p, read) && Open(read.status)
    ensures MarkFrom(s, p, read, driver, now) == MarkSucceeded(AsRead(s, p, read), p, driver, now)
  {
    var u := AsRead(s, p, read);
    assert u.payments[p := u.payments[p].(status := Succeeded, paid := read.amount)]
        == s.payments[p := s.payments[p].(status := Succeeded, paid := read.amount)];
  }

  lemma AsReadPayments(s: Books, p: PaymentId, read: Payment)
    requires PaymentsOk(s) && PossiblePaymentRead(s, p, read) && !IsPaid(read.status) && !IsPaid(s.payments[p].status)
    ensures PaymentsOk(AsRead(s, p, read)) && PaidStaysPaid(s, AsRead(s, p, read)) && TermsStay(s, AsRead(s, p, read))
  {
    var u := AsRead(s, p, read);
    forall q | q in u.payments ensures PaymentOk(u, q) { assert PaymentOk(s, q); }
  }

  lemma AsReadMoney(s: Books, p: PaymentId, read: Payment)
    requires MoneyOk(s) && PossiblePaymentRead(s, p, read) && !IsPaid(read.status) && !IsPaid(s.payments[p].status)
    ensures MoneyOk(AsRead(s, p, read)) && PaidStaysPaid(s, AsRead(s, p, read)) && TermsStay(s, AsRead(s, p, read))
  {
    var u := AsRead(s, p, read);
    AsReadPayments(s, p, read);
    SameEarnings(s, u);
    SamePayouts(s, u);
    AsReadLedger(s, p, read);
  }

  lemma AsReadLedger(s: Books, p: PaymentId, read: Payment)
    requires LedgerOk(s) && p in s.payments
    ensures LedgerOk(AsRead(s, p, read))
  {
    var u := AsRead(s, p, read);
    forall k | k in u.ledger ensures PostingOk(u, k) { assert PostingOk(s, k); }
  }

  /** From an open record of a positive payment, the success commits exactly when
      the payment is not paid by now: a second one always fails on the unique
      indexes, never with a second fee or earning. */
  lemma StaleSuccessExactly(s: Books, p: PaymentId, read: Payment, driver: Option<DriverId>, now: Time)
    requires MoneyOk(s) && PossiblePaymentRead(s, p, read) && Open(read.status) && read.amount > 0
    ensures MarkFrom(s, p, read, driver, now).Committed? <==> !IsPaid(s.payments[p].status)
  {
    assert PaymentOk(s, p);
    if !IsPaid(s.payments[p].status) {
      StaleIsAtomicAsRead(s, p, read, driver, now);
      AsReadMoney(s, p, read);
      SuccessExactly(AsRead(s, p, read), p, driver, now);
    }
  }

  /** From an open record of a payment of nothing, no success ever commits. */
  lemma NothingToTake(s: Books, p: PaymentId, read: Payment, driver: Option<DriverId>, now: Time)
    requires MoneyOk(s) && PossiblePaymentRead(s, p, read) && Open(read.status) && read.amount == 0
    ensures MarkFrom(s, p, read, driver, now).Rejected?
  {
    assert PaymentOk(s, p);
    AsReadMoney(s, p, read);
    StaleIsAtomicAsRead(s, p, read, driver, now);
    SuccessExactly(AsRead(s, p, read), p, driver, now);
  }

  lemma StaleSuccessEffect(s: Books, p: PaymentId, read: Payment, driver: Option<DriverId>, now: Time)
    requires MoneyOk(s) && PossiblePaymentRead(s, p, read) && Open(read.status)
    requires MarkFrom(s, p, read, driver, now).Committed?
    ensures !IsPaid(s.payments[p].status) && MoneyOk(AsRead(s, p, read))
    ensures FirstSuccess(AsRead(s, p, read), MarkFrom(s, p, read, driver, now).state, p, driver, now)
  {
    if read.amount == 0 { NothingToTake(s, p, read, driver, now); }
    StaleSuccessExactly(s, p, read, driver, now);
    StaleIsAtomicAsRead(s, p, read, driver, now);
    AsReadMoney(s, p, read);
    SuccessEffect(AsRead(s, p, read), p, driver, now);
  }

  /** However old the record, a success keeps fees, earnings, payouts, postings and
      refunds in order: one fee, one posting and at most one earning each. */
  lemma StaleSuccessKeepsMoney(s: Books, p: PaymentId, read: Payment, driver: Option<DriverId>, now: Time)
    requires MoneyOk(s) && PossiblePaymentRead(s, p, read) && MarkFrom(s, p, read, driver, now).Committed?
    ensures var t := MarkFrom(s, p, read, driver, now).state;
            && MoneyOk(t) && PaidStaysPaid(s, t) && TermsStay(s, t)
            && p in t.payments && IsPaid(t.payments[p].status)
            && t.intents == s.intents && t.settlements == s.settlements
  {
    if !IsPaid(read.status) {
      var u, t := AsRead(s, p, read), MarkFrom(s, p, read, driver, now).state;
      StaleSuccessEffect(s, p, read, driver, now);
      FirstSuccessKeepsMoney(u, t, p, driver, now);
      AsReadMoney(s, p, read);
      StayTwice(s, u, t);
    }
  }

  lemma StayTwice(s: Books, t: Books, u: Books)
    requires PaidStaysPaid(s, t) && TermsStay(s, t) && PaidStaysPaid(t, u) && TermsStay(t, u)
    ensures PaidStaysPaid(s, u) && TermsStay(s, u)
  {
  }

  /** A payment that expired, failed or was cancelled since is overwritten with
      SUCCEEDED exactly when the record read was still open and its amount is
      positive. */
  lemma DeadIsOverwrittenExactly(s: Books, p: PaymentId, read: Payment, driver: Option<DriverId>, now: Time)
    requires MoneyOk(s) && PossiblePaymentRead(s, p, read) && Dead(s.payments[p].status)
    ensures var r := MarkFrom(s, p, read, driver, now);
            (r.Committed? && r.state.payments[p].status == Succeeded) <==> Open(read.status) && read.amount > 0
  {
    if Open(read.status) {
      if read.amount > 0 { StaleSuccessExactly(s, p, read, driver, now); } else { NothingToTake(s, p, read, driver, now); }
    }
  }

  /** Such a success leaves at most one active payment per target exactly when no
      other payment of the target became active meanwhile. */
  lemma StaleSuccessKeepsOneActiveExactly(s: Books, p: PaymentId, read: Payment, driver: Option<DriverId>, now: Time)
    requires MoneyOk(s) && OneActive(s) && PossiblePaymentRead(s, p, read) && Open(read.status)
    requires MarkFrom(s, p, read, driver, now).Committed?
    ensures OneActive(MarkFrom(s, p, read, driver, now).state) <==>
              forall q | HasActivePayment(s, read.target, q) :: q == p
  {
    StaleSuccessEffect(s, p, read, driver, now);
    FirstSuccessActive(AsRead(s, p, read), MarkFrom(s, p, read, driver, now).state, p, driver, now);
    AsReadActive(s, p, read);
  }

  lemma AsReadActive(s: Books, p: PaymentId, read: Payment)
    requires OneActive(s) && PossiblePaymentRead(s, p, read) && IsActive(read.status)
    ensures OneActive(AsRead(s, p, read)) <==> forall q | HasActivePayment(s, read.target, q) :: q == p
  {
    var u := AsRead(s, p, read);
    forall q | q in s.payments && q != p ensures u.payments[q] == s.payments[q] {
    }
    if q :| HasActivePayment(s, read.target, q) && q != p {
      assert IsActive(u.payments[q].status) && u.payments[q].target == u.payments[p].target;
    } else {
      forall q, o | q in u.payments && o in u.payments && u.payments[q].target == u.payments[o].target
                    && IsActive(u.payments[q].status) && IsActive(u.payments[o].status)
        ensures q == o
      {
        assert q != p ==> HasActivePayment(s, s.payments[q].target, q);
        assert o != p ==> HasActivePayment(s, s.payments[o].target, o);
      }
    }
  }

  // ----- every run -----

  datatype PaymentRead = PaymentRead(id: PaymentId, payment: Payment)

  /** The books, and every payment record that any request ever read. */
  datatype System = System(books: Books, seen: set<PaymentRead>)

  /** Read is the lookup in markPaymentSucceeded; WebhookFrom and CashFrom are
      transactions that go on from any earlier record of their payment. */
  datatype Event =
    | Read(p: PaymentId)
    | WebhookFrom(i: IntentId, read: IntentStatus, posted: IntentStatus, duplicate: bool, record: Payment,
                  driver: Option<DriverId>, now: Time)
    | CashFrom(p: PaymentId, settlement: SettlementStatus, received: bool, record: Payment,
               confirming: Option<DriverId>, now: Time)
    | Other(step: Step)

  /** Webhook with the payment record its success works from. */
  function WebhookOn(s: Books, i: IntentId, read: IntentStatus, posted: IntentStatus, duplicate: bool, record: Payment,
                     driver: Option<DriverId>, now: Time): Tx<Books>
  {
    if i !in s.intents || duplicate then Committed(s)
    else
      match TransitionIntent(read, posted)
      case Rejected(code) => Rejected(code)
      case Committed(next) =>
        var t := s.(intents := s.intents[i := s.intents[i].(status := next)]);
        if posted == IntentSucceeded then MarkFrom(t, s.intents[i].payment, record, driver, now) else Committed(t)
  }

  /** ConfirmCash with the payment record its success works from. */
  function CashOn(s: Books, p: PaymentId, read: SettlementStatus, received: bool, record: Payment,
                  confirming: Option<DriverId>, now: Time): Tx<Books>
  {
    if !FindsSettlement(s, p, confirming) then Rejected("CASH_SETTLEMENT_NOT_FOUND")
    else if read == SettlementConfirmed && received then Committed(s)
    else if read != SettlementOpen && read != SettlementDeclared then Rejected("CASH_SETTLEMENT_ALREADY_FINALIZED")
    else
      var t := s.(settlements := s.settlements[p := Settled(s.settlements[p], received)]);
      if received then MarkFrom(t, p, record, confirming, now) else Committed(t)
  }

  /** With current records these are the steps of FinanceSafety. */
  lemma CurrentRecordsAreSteps(s: Books, i: IntentId, p: PaymentId, read: IntentStatus, posted: IntentStatus,
                               duplicate: bool, settlement: SettlementStatus, received: bool,
                               driver: Option<DriverId>, now: Time)
    requires IntentsOk(s) && SettlementsOk(s)
    ensures i in s.intents ==>
              WebhookOn(s, i, read, posted, duplicate, s.payments[s.intents[i].payment], driver, now)
              == Attempt(s, WebhookStep(i, read, posted, duplicate, driver, now))
    ensures p in s.settlements ==>
              CashOn(s, p, settlement, received, s.payments[p], driver, now)
              == Attempt(s, CashStep(p, settlement, received, driver, now))
  {
  }

  ghost predicate Possible(s: System, e: Event) {
    match e
    case Read(p) => p in s.books.payments
    case WebhookFrom(i, _, _, _, record, _, _) =>
      i in s.books.intents ==> PaymentRead(s.books.intents[i].payment, record) in s.seen
    case CashFrom(p, _, _, record, _, _) => PaymentRead(p, record) in s.seen
    case Other(step) => Enabled(s.books, step) && !step.WebhookStep? && !step.CashStep?
  }

  function After(s: Books, r: Tx<Books>): Books {
    if r.Committed? then r.state else s
  }

  ghost function Next(s: System, e: Event): System
    requires Possible(s, e)
  {
    match e
    case Read(p) => s.(seen := s.seen + {PaymentRead(p, s.books.payments[p])})
    case WebhookFrom(i, read, posted, duplicate, record, driver, now) =>
      s.(books := After(s.books, WebhookOn(s.books, i, read, posted, duplicate, record, driver, now)))
    case CashFrom(p, settlement, received, record, confirming, now) =>
      s.(books := After(s.books, CashOn(s.books, p, settlement, received, record, confirming, now)))
    case Other(step) => s.(books := Apply(s.books, step))
  }

  ghost predicate SeenOk(s: Books, seen: set<PaymentRead>) {
    forall r | r in seen :: PossiblePaymentRead(s, r.id, r.payment)
  }

  ghost predicate SystemOk(s: System) {
    Sound(s.books) && SeenOk(s.books, s.seen)
  }

  lemma SeenStays(s: Books, t: Books, seen: set<PaymentRead>)
    requires SeenOk(s, seen) && PaidStaysPaid(s, t) && TermsStay(s, t)
    ensures SeenOk(t, seen)
  {
  }

  lemma WebhookOnKeepsSound(s: Books, i: IntentId, read: IntentStatus, posted: IntentStatus, duplicate: bool,
                            record: Payment, driver: Option<DriverId>, now: Time)
    requires Sound(s) && (i in s.intents ==> PossiblePaymentRead(s, s.intents[i].payment, record))
    ensures var r := WebhookOn(s, i, read, posted, duplicate, record, driver, now);
            r.Committed? ==> Sound(r.state) && PaidStaysPaid(s, r.state) && TermsStay(s, r.state)
  {
    var r := WebhookOn(s, i, read, posted, duplicate, record, driver, now);
    if r.Committed? && i in s.intents && !duplicate {
      var next := TransitionIntent(read, posted).state;
      var t := s.(intents := s.intents[i := s.intents[i].(status := next)]);
      if posted == IntentSucceeded {
        StaleSuccessOfIntent(s, t, i, next, record, driver, now);
      } else {
        OtherIntentStatus(s, t, i, next);
      }
    }
  }

  lemma StaleSuccessOfIntent(s: Books, t: Books, i: IntentId, next: IntentStatus, record: Payment,
                             driver: Option<DriverId>, now: Time)
    requires Sound(s) && i in s.intents && PossiblePaymentRead(s, s.intents[i].payment, record)
    requires t == s.(intents := s.intents[i := s.intents[i].(status := next)])
    requires MarkFrom(t, s.intents[i].payment, record, driver, now).Committed?
    ensures var u := MarkFrom(t, s.intents[i].payment, record, driver, now).state;
            Sound(u) && PaidStaysPaid(s, u) && TermsStay(s, u)
  {
    SameTables(s, t);
    StaleSuccessKeepsMoney(t, s.intents[i].payment, record, driver, now);
    IntentOfPaid(s, MarkFrom(t, s.intents[i].payment, record, driver, now).state, i, next);
  }

  lemma CashOnKeepsSound(s: Books, p: PaymentId, read: SettlementStatus, received: bool, record: Payment,
                         confirming: Option<DriverId>, now: Time)
    requires Sound(s) && PossiblePaymentRead(s, p, record)
    ensures var r := CashOn(s, p, read, received, record, confirming, now);
            r.Committed? ==> Sound(r.state) && PaidStaysPaid(s, r.state) && TermsStay(s, r.state)
  {
    var r := CashOn(s, p, read, received, record, confirming, now);
    if r.Committed? && !(read == SettlementConfirmed && received) {
      SettledKeeps(s, p, received);
      if received {
        StaleSuccessKeepsSound(WithSettled(s, p, received), p, record, confirming, now);
        StayTwice(s, WithSettled(s, p, received), r.state);
      }
    }
  }

  lemma StaleSuccessKeepsSound(s: Books, p: PaymentId, record: Payment, driver: Option<DriverId>, now: Time)
    requires Sound(s) && PossiblePaymentRead(s, p, record) && MarkFrom(s, p, record, driver, now).Committed?
    ensures var t := MarkFrom(s, p, record, driver, now).state; Sound(t) && PaidStaysPaid(s, t) && TermsStay(s, t)
  {
    StaleSuccessKeepsMoney(s, p, record, driver, now);
  }

  lemma EventKeepsSystem(s: System, e: Event)
    requires SystemOk(s) && Possible(s, e)
    ensures SystemOk(Next(s, e)) && PaidStaysPaid(s.books, Next(s, e).books)
  {
    match e
    case Read(p) =>
    case WebhookFrom(i, read, posted, duplicate, record, driver, now) =>
      WebhookOnKeepsSound(s.books, i, read, posted, duplicate, record, driver, now);
      SeenStays(s.books, Next(s, e).books, s.seen);
    case CashFrom(p, settlement, received, record, confirming, now) =>
      CashOnKeepsSound(s.books, p, settlement, received, record, confirming, now);
      SeenStays(s.books, Next(s, e).books, s.seen);
    case Other(step) =>
      StepKeepsBooks(s.books, step);
      SeenStays(s.books, Next(s, e).books, s.seen);
  }

  ghost predicate SystemRun(s: System, events: seq<Event>)
    decreases |events|
  {
    events != [] ==> Possible(s, events[0]) && SystemRun(Next(s, events[0]), events[1..])
  }

  ghost function AfterRun(s: System, events: seq<Event>): System
    requires SystemRun(s, events)
    decreases |events|
  {
    if events == [] then s else AfterRun(Next(s, events[0]), events[1..])
  }

  /** On every run on which successes work from records as old as they may be,
      expiry and creation in between included: each payment has exactly one fee and
      one PAYMENT posting if it is paid and none otherwise, at most one earning,
      every posting balances, and money that came in stays in. */
  lemma {:induction false} RunKeepsSound(s: System, events: seq<Event>)
    requires SystemOk(s) && SystemRun(s, events)
    ensures SystemOk(AfterRun(s, events)) && PaidStaysPaid(s.books, AfterRun(s, events).books)
    decreases |events|
  {
    if events != [] {
      EventKeepsSystem(s, events[0]);
      RunKeepsSound(Next(s, events[0]), events[1..]);
    }
  }

  lemma NothingReadIsOk()
    ensures SystemOk(System(EMPTY_BOOKS, {}))
  {
    EmptyBooksAreOk();
  }

  // ----- when a dead payment comes back -----

  /** The event is a success of the payment that goes on from a record of it that
      was still open. */
  predicate Revives(s: Books, e: Event, p: PaymentId) {
    match e
    case WebhookFrom(i, read, posted, duplicate, record, _, _) =>
      && i in s.intents && s.intents[i].payment == p && !duplicate
      && posted == IntentSucceeded && TransitionIntent(read, posted).Committed?
      && Open(record.status) && record.amount > 0
    case CashFrom(q, settlement, received, record, confirming, _) =>
      && q == p && FindsSettlement(s, p, confirming) && received
      && (settlement == SettlementOpen || settlement == SettlementDeclared)
      && Open(record.status) && record.amount > 0
    case _ => false
  }

  ghost predicate DeadIn(s: Books, p: PaymentId) {
    p in s.payments && Dead(s.payments[p].status)
  }

  lemma MarkFromOther(s: Books, p: PaymentId, other: PaymentId, record: Payment, driver: Option<DriverId>, now: Time)
    requires p in s.payments && other != p && MarkFrom(s, other, record, driver, now).Committed?
    ensures var t := MarkFrom(s, other, record, driver, now).state; p in t.payments && t.payments[p] == s.payments[p]
  {
  }

  /** A success of a dead payment commits exactly from an open record of a positive
      amount, and never without overwriting it. */
  lemma DeadCommitsExactly(s: Books, p: PaymentId, record: Payment, driver: Option<DriverId>, now: Time)
    requires MoneyOk(s) && DeadIn(s, p) && PossiblePaymentRead(s, p, record)
    ensures var r := MarkFrom(s, p, record, driver, now);
            && (r.Committed? <==> Open(record.status) && record.amount > 0)
            && (r.Committed? ==> p in r.state.payments && r.state.payments[p].status == Succeeded)
  {
    if !Open(record.status) {
      ClosedRecordIsRejected(s, p, record, driver, now);
    } else if record.amount == 0 {
      NothingToTake(s, p, record, driver, now);
    } else {
      StaleSuccessExactly(s, p, record, driver, now);
      StaleSuccessEffect(s, p, record, driver, now);
    }
  }

  lemma ClosedRecordIsRejected(s: Books, p: PaymentId, record: Payment, driver: Option<DriverId>, now: Time)
    requires p in s.payments && !IsPaid(record.status) && !Open(record.status)
    ensures MarkFrom(s, p, record, driver, now).Rejected?
  {
  }

  lemma WebhookRevivesExactly(s: Books, i: IntentId, read: IntentStatus, posted: IntentStatus, duplicate: bool,
                              record: Payment, driver: Option<DriverId>, now: Time, p: PaymentId)
    requires MoneyOk(s) && DeadIn(s, p) && (i in s.intents ==> PossiblePaymentRead(s, s.intents[i].payment, record))
    ensures var t := After(s, WebhookOn(s, i, read, posted, duplicate, record, driver, now));
            && p in t.payments
            && t.payments[p].status == if Revives(s, WebhookFrom(i, read, posted, duplicate, record, driver, now), p)
                                       then Succeeded else s.payments[p].status
  {
    if i in s.intents && !duplicate && posted == IntentSucceeded && TransitionIntent(read, posted).Committed? {
      var t := s.(intents := s.intents[i := s.intents[i].(status := TransitionIntent(read, posted).state)]);
      SameTables(s, t);
      SuccessRevivesExactly(t, s.intents[i].payment, record, driver, now, p);
    } else {
      QuietWebhook(s, i, read, posted, duplicate, record, driver, now);
    }
  }

  lemma QuietWebhook(s: Books, i: IntentId, read: IntentStatus, posted: IntentStatus, duplicate: bool, record: Payment,
                     driver: Option<DriverId>, now: Time)
    requires !(i in s.intents && !duplicate && posted == IntentSucceeded && TransitionIntent(read, posted).Committed?)
    ensures After(s, WebhookOn(s, i, read, posted, duplicate, record, driver, now)).payments == s.payments
  {
  }

  lemma CashRevivesExactly(s: Books, q: PaymentId, settlement: SettlementStatus, received: bool, record: Payment,
                           confirming: Option<DriverId>, now: Time, p: PaymentId)
    requires MoneyOk(s) && DeadIn(s, p) && PossiblePaymentRead(s, q, record)
    ensures var t := After(s, CashOn(s, q, settlement, received, record, confirming, now));
            && p in t.payments
            && t.payments[p].status == if Revives(s, CashFrom(q, settlement, received, record, confirming, now), p)
                                       then Succeeded else s.payments[p].status
  {
    if FindsSettlement(s, q, confirming) && received && (settlement == SettlementOpen || settlement == SettlementDeclared) {
      SameTables(s, WithSettled(s, q, true));
      SuccessRevivesExactly(WithSettled(s, q, true), q, record, confirming, now, p);
      MarkingCash(s, q, settlement, record, confirming, now);
    } else {
      QuietCash(s, q, settlement, received, record, confirming, now);
    }
  }

  lemma MarkingCash(s: Books, q: PaymentId, settlement: SettlementStatus, record: Payment, confirming: Option<DriverId>,
                    now: Time)
    requires FindsSettlement(s, q, confirming) && (settlement == SettlementOpen || settlement == SettlementDeclared)
    ensures CashOn(s, q, settlement, true, record, confirming, now)
         == MarkFrom(WithSettled(s, q, true), q, record, confirming, now)
  {
  }

  lemma QuietCash(s: Books, q: PaymentId, settlement: SettlementStatus, received: bool, record: Payment,
                  confirming: Option<DriverId>, now: Time)
    requires !(FindsSettlement(s, q, confirming) && received
               && (settlement == SettlementOpen || settlement == SettlementDeclared))
    ensures After(s, CashOn(s, q, settlement, received, record, confirming, now)).payments == s.payments
  {
  }

  lemma SuccessRevivesExactly(s: Books, q: PaymentId, record: Payment, driver: Option<DriverId>, now: Time, p: PaymentId)
    requires MoneyOk(s) && DeadIn(s, p) && PossiblePaymentRead(s, q, record)
    ensures var r := MarkFrom(s, q, record, driver, now);
            && (q == p ==> (r.Committed? <==> Open(record.status) && record.amount > 0))
            && (r.Committed? ==>
                  && p in r.state.payments
                  && r.state.payments[p].status == if q == p then Succeeded else s.payments[p].status)
  {
    if q == p {
      DeadCommitsExactly(s, p, record, driver, now);
    } else if MarkFrom(s, q, record, driver, now).Committed? {
      MarkFromOther(s, p, q, record, driver, now);
    }
  }

  lemma EventRevivesExactly(s: System, e: Event, p: PaymentId)
    requires SystemOk(s) && Possible(s, e) && DeadIn(s.books, p)
    ensures p in Next(s, e).books.payments
    ensures Next(s, e).books.payments[p].status ==
              if Revives(s.books, e, p) then Succeeded else s.books.payments[p].status
  {
    match e
    case Read(_) =>
    case WebhookFrom(i, read, posted, duplicate, record, driver, now) =>
      WebhookRevivesExactly(s.books, i, read, posted, duplicate, record, driver, now, p);
    case CashFrom(q, settlement, received, record, confirming, now) =>
      CashRevivesExactly(s.books, q, settlement, received, record, confirming, now, p);
    case Other(step) => StepKeepsDead(s.books, step);
  }

  ghost predicate RevivedOn(s: System, events: seq<Event>, p: PaymentId)
    requires SystemRun(s, events)
    decreases |events|
  {
    events != [] && (Revives(s.books, events[0], p) || RevivedOn(Next(s, events[0]), events[1..], p))
  }

  /** On every run a dead payment stays what it is exactly when no success of it
      goes on from a record that was read while it was open; otherwise it ends up
      paid. */
  lemma {:induction false} DeadUntilRevivedExactly(s: System, events: seq<Event>, p: PaymentId)
    requires SystemOk(s) && SystemRun(s, events) && DeadIn(s.books, p)
    ensures var t := AfterRun(s, events).books;
            && p in t.payments
            && (if RevivedOn(s, events, p) then IsPaid(t.payments[p].status)
                else t.payments[p].status == s.books.payments[p].status)
    decreases |events|
  {
    if events != [] {
      var t := Next(s, events[0]);
      EventKeepsSystem(s, events[0]);
      EventRevivesExactly(s, events[0], p);
      if Revives(s.books, events[0], p) {
        RunKeepsSound(t, events[1..]);
      } else {
        DeadUntilRevivedExactly(t, events[1..], p);
      }
    }
  }
}
