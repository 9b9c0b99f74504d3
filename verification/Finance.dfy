/** Payments, fees, driver earnings, payouts, refunds and the ledger, with one
    function per transaction that writes them. A transaction that reads outside
    itself takes what it read as a parameter, since it may be stale. */
module Finance {
  import opened Tables
  import opened Money

  type PaymentId = nat
  type IntentId = nat
  type DriverId = nat
  type PayoutId = nat
  type RefundId = nat
  type Time = int

  /** What a payment is for. */
  datatype Target = BookingTarget(booking: nat) | ParcelTarget(parcel: nat)

  datatype Payment = Payment(target: Target, online: bool, status: PaymentStatus, amount: nat, paid: nat, refunded: nat,
                             createdAt: Time)

  datatype Intent = Intent(payment: PaymentId, status: IntentStatus)

  datatype EarningStatus = EarningPending | EarningAvailable | EarningPaid | EarningOnHold

  /** The earning of one payment; the unique index on paymentId makes the payment
      its key. */
  datatype Earning = Earning(driver: DriverId, gross: nat, fee: nat, net: nat, status: EarningStatus,
                             payout: Option<PayoutId>, availableAt: Time)

  datatype PayoutStatus = PayoutReady | PayoutPaid | PayoutFailed | PayoutCancelled | PayoutOnHold

  datatype Payout = Payout(driver: DriverId, status: PayoutStatus, gross: nat, items: set<PaymentId>)

  datatype SettlementStatus = SettlementOpen | SettlementDeclared | SettlementConfirmed | SettlementDisputed

  /** `driver` is the driver of the target when the payment was created; a target
      without one gets a settlement that names nobody. */
  datatype Settlement = Settlement(status: SettlementStatus, expected: nat, received: nat, driver: Option<DriverId>)

  datatype RefundStatus = RefundRequested | RefundSucceeded

  datatype Refund = Refund(payment: PaymentId, amount: nat, status: RefundStatus)

  /** The idempotency keys of ledger transactions, by their three prefixes. */
  datatype LedgerKey = PaymentKey(payment: PaymentId) | PayoutKey(payout: PayoutId) | RefundKey(refund: RefundId)

  datatype Books = Books(
    payments: map<PaymentId, Payment>,
    intents: map<IntentId, Intent>,
    settlements: map<PaymentId, Settlement>,
    fees: map<PaymentId, nat>,
    earnings: map<PaymentId, Earning>,
    payouts: map<PayoutId, Payout>,
    refunds: map<RefundId, Refund>,
    ledger: map<LedgerKey, seq<Entry>>)

  const EMPTY_BOOKS := Books(map[], map[], map[], map[], map[], map[], map[], map[])

  const EARNING_DELAY := 24 * 60 * 60 * 1000

  const STALE_AFTER := 30 * 60 * 1000

  /** ledgerPost: an existing key is left alone, anything new must balance. */
  function Post(ledger: map<LedgerKey, seq<Entry>>, key: LedgerKey, entries: seq<Entry>): Tx<map<LedgerKey, seq<Entry>>> {
    if key in ledger then Committed(ledger)
    else if Balanced(WithoutZeros(entries)) then Committed(ledger[key := WithoutZeros(entries)])
    else Rejected("Ledger transaction is not balanced")
  }

  // ----- creating payments -----

  predicate HasActivePayment(s: Books, target: Target, p: PaymentId) {
    p in s.payments && s.payments[p].target == target && IsActive(s.payments[p].status)
  }

  /** createPaymentIntent: answers with an active payment of the target if the
      lookup found one (`existing`), otherwise creates payment p. `driver` is the
      driver of the target. */
  function CreatePayment(s: Books, target: Target, driver: Option<DriverId>, online: bool, amount: nat, p: PaymentId,
                         i: IntentId, intentStatus: IntentStatus, existing: Option<PaymentId>, now: Time): Tx<Books>
  {
    if existing.Some? then Committed(s)
    else if p in s.payments || (online && i in s.intents) then Rejected("UNIQUE_VIOLATION")
    else
      var payment := Payment(target, online, if online then Created else Processing, amount, 0, 0, now);
      Committed(s.(
        payments := s.payments[p := payment],
        intents := if online then s.intents[i := Intent(p, intentStatus)] else s.intents,
        settlements := if online then s.settlements
                       else s.settlements[p := Settlement(SettlementDeclared, amount, 0, driver)]))
  }

  // ----- success -----

  function FeeOf(payment: Payment): nat {
    PlatformFee(payment.amount)
  }

  function NetOf(payment: Payment): nat {
    FeeIsCeiling(payment.amount, FEE_RATE_BPS);
    payment.amount - FeeOf(payment)
  }

  function SuccessEntriesOf(payment: Payment): seq<Entry> {
    SuccessEntries(!payment.online, payment.amount, FeeOf(payment), NetOf(payment))
  }

  function NewEarning(payment: Payment, driver: DriverId, now: Time): Earning {
    Earning(driver, payment.amount, FeeOf(payment), NetOf(payment), EarningPending, None, now + EARNING_DELAY)
  }

  /** markPaymentSucceeded. `driver` is what the driver lookup of the target finds. */
  function MarkSucceeded(s: Books, p: PaymentId, driver: Option<DriverId>, now: Time): Tx<Books> {
    if p !in s.payments then Rejected("PAYMENT_NOT_FOUND")
    else
      var payment := s.payments[p];
      if IsPaid(payment.status) then Committed(s)
      else if TransitionPayment(payment.status, Succeeded).Rejected? then Rejected("Invalid payment transition")
      else if p in s.fees then Rejected("UNIQUE_VIOLATION")
      else
        var earns := driver.Some? && NetOf(payment) > 0;
        if earns && p in s.earnings then Rejected("UNIQUE_VIOLATION")
        else
          match Post(s.ledger, PaymentKey(p), SuccessEntriesOf(payment))
          case Rejected(code) => Rejected(code)
          case Committed(ledger) =>
            Committed(s.(
              payments := s.payments[p := payment.(status := Succeeded, paid := payment.amount)],
              fees := s.fees[p := FeeOf(payment)],
              earnings := if earns then s.earnings[p := NewEarning(payment, driver.value, now)] else s.earnings,
              ledger := ledger))
  }

  /** The webhook transaction. `read` is the intent status read before it, and
      `duplicate` whether the event was seen as already processed. */
  function Webhook(s: Books, i: IntentId, read: IntentStatus, posted: IntentStatus, duplicate: bool,
                   driver: Option<DriverId>, now: Time): Tx<Books>
  {
    if i !in s.intents || duplicate then Committed(s)
    else
      match TransitionIntent(read, posted)
      case Rejected(code) => Rejected(code)
      case Committed(next) =>
        var t := s.(intents := s.intents[i := s.intents[i].(status := next)]);
        if posted == IntentSucceeded then MarkSucceeded(t, s.intents[i].payment, driver, now) else Committed(t)
  }

  /** The settlement after a confirmation or a denial. */
  function Settled(settlement: Settlement, received: bool): Settlement {
    settlement.(status := if received then SettlementConfirmed else SettlementDisputed,
                received := if received then settlement.expected else 0)
  }

  /** The settlement is looked up by payment and confirming driver; a user without
      a driver profile, and a settlement without a driver, match nothing. */
  predicate FindsSettlement(s: Books, p: PaymentId, confirming: Option<DriverId>) {
    p in s.settlements && confirming.Some? && s.settlements[p].driver == confirming
  }

  /** The cash confirmation. `read` is the settlement status read before it. The
      driver of a trip or a parcel never changes, so the one the success finds is
      the one who confirms. */
  function ConfirmCash(s: Books, p: PaymentId, read: SettlementStatus, received: bool, confirming: Option<DriverId>,
                       now: Time): Tx<Books>
  {
    if !FindsSettlement(s, p, confirming) then Rejected("CASH_SETTLEMENT_NOT_FOUND")
    else if read == SettlementConfirmed && received then Committed(s)
    else if read != SettlementOpen && read != SettlementDeclared then Rejected("CASH_SETTLEMENT_ALREADY_FINALIZED")
    else
      var t := s.(settlements := s.settlements[p := Settled(s.settlements[p], received)]);
      if received then MarkSucceeded(t, p, confirming, now) else Committed(t)
  }

  predicate Stale(payment: Payment) {
    payment.online && (payment.status == Created || payment.status == RequiresAction || payment.status == Processing)
  }

  predicate OpenIntent(status: IntentStatus) {
    status == IntentCreated || status == IntentPending || status == IntentRequiresAction || status == IntentProcessing
  }

  function ExpireIntents(intents: map<IntentId, Intent>, p: PaymentId): map<IntentId, Intent> {
    map i | i in intents ::
      if intents[i].payment == p && OpenIntent(intents[i].status) then intents[i].(status := IntentExpired) else intents[i]
  }

  /** One stale payment of the worker's loop; its guard is checked at the write. */
  function ExpireStale(s: Books, p: PaymentId): Books {
    if p !in s.payments || !Stale(s.payments[p]) then s
    else s.(
      payments := s.payments[p := s.payments[p].(status := Expired)],
      intents := ExpireIntents(s.intents, p))
  }

  // ----- earnings and payouts -----

  function Released(earnings: map<PaymentId, Earning>, now: Time): map<PaymentId, Earning> {
    map e | e in earnings ::
      if earnings[e].status == EarningPending && earnings[e].availableAt <= now
      then earnings[e].(status := EarningAvailable) else earnings[e]
  }

  /** The worker's release of earnings that are due. */
  function ReleaseEarnings(s: Books, now: Time): Books {
    s.(earnings := Released(s.earnings, now))
  }

  predicate Payable(earning: Earning, driver: DriverId) {
    earning.driver == driver && earning.status == EarningAvailable && earning.payout == None
  }

  function PayableAmong(s: Books, driver: DriverId, ids: set<PaymentId>): set<PaymentId> {
    set e | e in ids && e in s.earnings && Payable(s.earnings[e], driver)
  }

  function AsSet(ids: seq<PaymentId>): set<PaymentId> {
    set e | e in ids
  }

  /** The net column of some earnings. */
  function NetColumn(earnings: map<PaymentId, Earning>, ids: set<PaymentId>): map<PaymentId, int> {
    map e | e in ids && e in earnings :: earnings[e].net
  }

  function Claimed(earnings: map<PaymentId, Earning>, ids: set<PaymentId>, payout: PayoutId): map<PaymentId, Earning> {
    map e | e in earnings ::
      if e in ids then earnings[e].(status := EarningOnHold, payout := Some(payout)) else earnings[e]
  }

  ghost function CreatePayout(s: Books, driver: DriverId, ids: seq<PaymentId>, payout: PayoutId): Tx<Books> {
    var unique := AsSet(ids);
    if |unique| != |ids| then Rejected("DUPLICATE_EARNING_SELECTED")
    else if ids == [] then Rejected("VALIDATION_ERROR")
    else if |PayableAmong(s, driver, unique)| != |unique| then Rejected("EARNING_NOT_PAYABLE")
    else if payout in s.payouts then Rejected("UNIQUE_VIOLATION")
    else
      SumOfNets(s.earnings, unique);
      Committed(s.(
        payouts := s.payouts[payout := Payout(driver, PayoutReady, Sum(NetColumn(s.earnings, unique)), unique)],
        earnings := Claimed(s.earnings, unique, payout)))
  }

  lemma SumOfNets(earnings: map<PaymentId, Earning>, ids: set<PaymentId>)
    ensures 0 <= Sum(NetColumn(earnings, ids))
    ensures forall e | e in ids && e in earnings :: earnings[e].net <= Sum(NetColumn(earnings, ids))
  {
    SumNonNegative(NetColumn(earnings, ids));
    assert forall e | e in ids && e in earnings :: NetColumn(earnings, ids)[e] == earnings[e].net;
  }

  function PayoutEntries(payout: Payout): seq<Entry> {
    Transfer(DriverEarningsPayable, CashOrBank, payout.gross)
  }

  function PaidOut(earnings: map<PaymentId, Earning>, payout: PayoutId): map<PaymentId, Earning> {
    map e | e in earnings :: if earnings[e].payout == Some(payout) then earnings[e].(status := EarningPaid) else earnings[e]
  }

  /** An admin sets the status of a payout, in any order and any number of times. */
  function SetPayoutStatus(s: Books, payout: PayoutId, status: PayoutStatus): Tx<Books> {
    if payout !in s.payouts then Rejected("PAYOUT_NOT_FOUND")
    else
      var t := s.(payouts := s.payouts[payout := s.payouts[payout].(status := status)]);
      if status != PayoutPaid then Committed(t)
      else
        match Post(t.ledger, PayoutKey(payout), PayoutEntries(t.payouts[payout]))
        case Rejected(code) => Rejected(code)
        case Committed(ledger) =>
          Committed(t.(ledger := ledger, earnings := PaidOut(t.earnings, payout)))
  }

  // ----- refunds -----

  /** The body of a refund request. */
  function RequestRefund(s: Books, p: PaymentId, amount: Option<nat>, refund: RefundId): Tx<Books> {
    if p !in s.payments then Rejected("PAYMENT_NOT_FOUND")
    else
      var payment := s.payments[p];
      if payment.refunded > payment.paid then Rejected("Refunded amount exceeds paid amount")
      else
        var wanted := if amount.Some? then amount.value else payment.paid - payment.refunded;
        if payment.status != Succeeded && payment.status != PartiallyRefunded then
          Rejected("Refund is allowed only for successful payments")
        else if wanted == 0 then Rejected("Refund amount must be positive")
        else if wanted > payment.paid - payment.refunded then Rejected("Refund amount exceeds refundable amount")
        else if refund in s.refunds then Rejected("UNIQUE_VIOLATION")
        else Committed(s.(refunds := s.refunds[refund := Refund(p, wanted, RefundRequested)]))
  }

  /** A requested refund with its payment, as the worker's query read them. */
  datatype RefundRead = RefundRead(id: RefundId, refund: Refund, payment: Payment)

  /** One round of the refund loop: the payment is overwritten from the record
      that was read, not from the current one. */
  function ProcessRefund(s: Books, read: RefundRead): Tx<Books> {
    if read.id !in s.refunds || read.refund.payment !in s.payments then Rejected("NOT_FOUND")
    else if RefundKey(read.id) in s.ledger then Rejected("UNIQUE_VIOLATION")
    else
      var refunded := read.payment.refunded + read.refund.amount;
      var status := if refunded >= read.payment.paid then Refunded else PartiallyRefunded;
      Committed(s.(
        refunds := s.refunds[read.id := s.refunds[read.id].(status := RefundSucceeded)],
        payments := s.payments[read.refund.payment :=
          s.payments[read.refund.payment].(refunded := refunded, status := status)],
        ledger := s.ledger[RefundKey(read.id) := Transfer(ClientRefunds, ProviderCash, read.refund.amount)]))
  }

  function AfterRefund(s: Books, read: RefundRead): Books {
    match ProcessRefund(s, read)
    case Committed(t) => t
    case Rejected(_) => s
  }
}
