/** Refunds over whole runs, with a worker that reads a batch first and writes it
    one by one later: nothing is assumed of what it read but that it was there. */
module RefundRuns {
  import opened Tables
  import opened Money
  import opened Finance
  import opened FinanceSafety
  import opened FinanceLaws
  import opened RefundLaws

  // ----- one refund outstanding per payment -----

  /** The books, and every refund with its payment that the worker ever read. */
  datatype System = System(books: Books, seen: set<RefundRead>)

  /** Read is one row of the worker's query, Process one round of its loop on any
      earlier row, Other any transaction but the worker's. */
  datatype Event = Read(read: RefundRead) | Process(read: RefundRead) | Other(step: Step)

  predicate Current(s: Books, read: RefundRead) {
    && read.id in s.refunds && read.refund == s.refunds[read.id] && read.refund.status == RefundRequested
    && read.refund.payment in s.payments && read.payment == s.payments[read.refund.payment]
  }

  predicate Possible(s: System, e: Event) {
    match e
    case Read(read) => Current(s.books, read)
    case Process(read) => read in s.seen
    case Other(step) => Enabled(s.books, step) && !step.ProcessRefundStep?
  }

  ghost function Next(s: System, e: Event): System {
    match e
    case Read(read) => s.(seen := s.seen + {read})
    case Process(read) => s.(books := AfterRefund(s.books, read))
    case Other(step) => s.(books := Apply(s.books, step))
  }

  /** A record the worker read: the refund is the same row, and while it is
      outstanding the payment was not refunded since. */
  ghost predicate ReadOk(s: Books, read: RefundRead) {
    && PossibleRefundRead(s, read)
    && (Outstanding(s, read.id, read.refund.payment) ==> read.payment.refunded == s.payments[read.refund.payment].refunded)
  }

  ghost predicate SystemOk(s: System) {
    && BooksOk(s.books) && RefundsOk(s.books)
    && forall read | read in s.seen :: ReadOk(s.books, read)
  }

  /** A round that commits worked on an outstanding refund and a current amount,
      however long ago it was read: the ledger key stops every other one. */
  lemma CommittedRoundIsCurrent(s: Books, read: RefundRead)
    requires RefundsOk(s) && ReadOk(s, read) && ProcessRefund(s, read).Committed?
    ensures CurrentRound(s, read)
  {
    assert RefundRowOk(s, read.id);
  }

  lemma FrameKeepsRead(s: Books, t: Books, read: RefundRead)
    requires RefundsLinked(s) && RefundFrame(s, t) && ReadOk(s, read)
    ensures ReadOk(t, read)
  {
  }

  lemma RequestKeepsRead(s: Books, t: Books, r: RefundId, read: RefundRead)
    requires RefundAdded(s, t, r) && ReadOk(s, read)
    ensures ReadOk(t, read)
  {
  }

  lemma RoundKeepsRead(s: Books, t: Books, done: RefundRead, read: RefundRead)
    requires RefundProcessed(s, t, done) && CurrentRound(s, done) && ReadOk(s, read)
    requires OneOutstanding(s)
    ensures ReadOk(t, read)
  {
    if Outstanding(t, read.id, read.refund.payment) {
      assert Outstanding(s, read.id, read.refund.payment);
    }
  }

  lemma RoundKeepsSystem(s: System, t: Books, read: RefundRead)
    requires SystemOk(s) && read in s.seen && ProcessRefund(s.books, read) == Committed(t)
    ensures SystemOk(s.(books := t))
  {
    RoundKeepsAll(s.books, t, read);
    RoundKeepsReads(s.books, t, read, s.seen);
  }

  lemma AfterRound(s: System, read: RefundRead)
    ensures Next(s, Process(read)) ==
              if ProcessRefund(s.books, read).Committed? then s.(books := ProcessRefund(s.books, read).state) else s
  {
  }

  lemma ProcessKeepsSystem(s: System, read: RefundRead)
    requires SystemOk(s) && read in s.seen
    ensures SystemOk(Next(s, Process(read)))
  {
    AfterRound(s, read);
    var round := ProcessRefund(s.books, read);
    if round.Committed? { RoundKeepsSystem(s, round.state, read); }
  }

  lemma RoundKeepsReads(s: Books, t: Books, done: RefundRead, seen: set<RefundRead>)
    requires RefundProcessed(s, t, done) && CurrentRound(s, done) && forall read | read in seen :: ReadOk(s, read)
    requires OneOutstanding(s)
    ensures forall read | read in seen :: ReadOk(t, read)
  {
    forall read | read in seen ensures ReadOk(t, read) { RoundKeepsRead(s, t, done, read); }
  }

  lemma RoundKeepsAll(s: Books, t: Books, read: RefundRead)
    requires BooksOk(s) && RefundsOk(s) && ReadOk(s, read) && ProcessRefund(s, read) == Committed(t)
    ensures BooksOk(t) && RefundsOk(t) && CurrentRound(s, read) && RefundProcessed(s, t, read)
  {
    CommittedRoundIsCurrent(s, read);
    ProcessRefundEffect(s, read);
    RefundProcessedKeepsBooks(s, t, read);
    ProcessKeepsRefunds(s, t, read);
  }

  lemma RequestKeepsReads(s: System, step: Step)
    requires SystemOk(s) && step.RequestRefundStep?
    ensures forall read | read in s.seen :: ReadOk(Apply(s.books, step), read)
  {
    if Attempt(s.books, step).Committed? {
      RefundIsAllowed(s.books, step.p, step.wanted, step.refund);
      forall read | read in s.seen ensures ReadOk(Apply(s.books, step), read) {
        RequestKeepsRead(s.books, Apply(s.books, step), step.refund, read);
      }
    }
  }

  lemma OtherKeepsSystem(s: System, step: Step)
    requires SystemOk(s) && Possible(s, Other(step)) && FirstRequest(s.books, step)
    ensures SystemOk(Next(s, Other(step)))
  {
    StepKeepsBooks(s.books, step);
    if step.RequestRefundStep? {
      RequestStepKeepsRefunds(s.books, step);
      RequestKeepsReads(s, step);
    } else {
      var t := Apply(s.books, step);
      OtherStepIsFrame(s.books, step);
      FrameKeepsRefunds(s.books, t);
      forall read | read in s.seen ensures ReadOk(t, read) { FrameKeepsRead(s.books, t, read); }
    }
  }

  /** The one hypothesis on a run. */
  ghost predicate OneAtATime(s: System, e: Event) {
    e.Other? ==> FirstRequest(s.books, e.step)
  }

  lemma EventKeepsSystem(s: System, e: Event)
    requires SystemOk(s) && Possible(s, e) && OneAtATime(s, e)
    ensures SystemOk(Next(s, e))
  {
    match e
    case Read(read) =>
    case Process(read) => ProcessKeepsSystem(s, read);
    case Other(step) => OtherKeepsSystem(s, step);
  }

  ghost predicate SystemRun(s: System, events: seq<Event>)
    decreases |events|
  {
    events != [] ==> Possible(s, events[0]) && OneAtATime(s, events[0]) && SystemRun(Next(s, events[0]), events[1..])
  }

  ghost function After(s: System, events: seq<Event>): System
    decreases |events|
  {
    if events == [] then s else After(Next(s, events[0]), events[1..])
  }

  /** If nobody requests a second refund while one is outstanding, then on every
      run, with rounds on records as old as they may be and on refunds already
      carried out: never more refunded than paid, the refunds carried out add up to
      the refunded column, and REFUNDED means refunded in full. */
  lemma {:induction false} RunKeepsRefunds(s: System, events: seq<Event>)
    requires SystemOk(s) && SystemRun(s, events)
    ensures SystemOk(After(s, events))
    decreases |events|
  {
    if events != [] {
      EventKeepsSystem(s, events[0]);
      RunKeepsRefunds(Next(s, events[0]), events[1..]);
    }
  }

  lemma EmptySystemIsOk()
    ensures SystemOk(System(EMPTY_BOOKS, {}))
  {
    EmptyBooksAreOk();
  }

  /** On every such run each change the worker makes to a payment's status is a
      legal transition. */
  lemma WorkerTransitionIsLegal(s: System, events: seq<Event>, read: RefundRead)
    requires SystemOk(s) && SystemRun(s, events)
    requires read in After(s, events).seen && ProcessRefund(After(s, events).books, read).Committed?
    ensures var before, after := After(s, events).books, ProcessRefund(After(s, events).books, read).state;
            var p := read.refund.payment;
            && p in before.payments && p in after.payments
            && TransitionPayment(before.payments[p].status, after.payments[p].status) == Committed(after.payments[p].status)
  {
    RunKeepsRefunds(s, events);
    var books := After(s, events).books;
    CommittedRoundIsCurrent(books, read);
    ProcessRefundEffect(books, read);
    RoundIsLegal(books, ProcessRefund(books, read).state, read);
  }

  // ----- several refunds outstanding -----

  /** Everything ever requested for a payment. */
  ghost function WantedColumn(refunds: map<RefundId, Refund>, p: PaymentId): map<RefundId, int> {
    map r | r in refunds && refunds[r].payment == p :: refunds[r].amount
  }

  /** What the REFUND postings of a payment debit. */
  ghost function DebitColumn(s: Books, p: PaymentId): map<RefundId, int> {
    map r | r in s.refunds && s.refunds[r].payment == p && RefundKey(r) in s.ledger :: SideTotal(s.ledger[RefundKey(r)], Debit)
  }

  /** A request is only accepted if it leaves room for all that was requested. */
  ghost predicate LeavesRoom(s: Books, step: Step) {
    step.RequestRefundStep? && Attempt(s, step).Committed? ==>
      && var t := Apply(s, step);
      && step.refund in t.refunds
      && t.refunds[step.refund].amount + Sum(WantedColumn(s.refunds, step.p)) <= s.payments[step.p].paid
  }

  ghost predicate PostedAsWanted(s: Books) {
    forall r | RefundKey(r) in s.ledger :: r in s.refunds && SideTotal(s.ledger[RefundKey(r)], Debit) == s.refunds[r].amount
  }

  ghost predicate RoomOk(s: Books) {
    && RefundsLinked(s) && PostedAsWanted(s)
    && forall p | p in s.payments :: Sum(WantedColumn(s.refunds, p)) <= s.payments[p].paid
  }

  lemma PartOfSum<K(!new)>(all: map<K, int>, part: map<K, int>)
    requires forall k | k in part :: k in all && part[k] == all[k]
    requires forall k | k in all :: 0 <= all[k]
    ensures Sum(part) <= Sum(all)
  {
    SumSplit(all, part.Keys);
    assert (map k | k in part.Keys :: all[k]) == part;
    SumNonNegative(all - part.Keys);
  }

  /** The debits never exceed what was paid. */
  lemma RoomMeansWithinPaid(s: Books, p: PaymentId)
    requires RoomOk(s) && p in s.payments
    ensures 0 <= Sum(DebitColumn(s, p)) <= s.payments[p].paid
  {
    PartOfSum(WantedColumn(s.refunds, p), DebitColumn(s, p));
    SumNonNegative(DebitColumn(s, p));
  }

  lemma NothingWanted(s: Books, p: PaymentId)
    requires RefundsLinked(s) && (p in s.payments ==> !IsPaid(s.payments[p].status))
    ensures Sum(WantedColumn(s.refunds, p)) == 0
  {
    assert WantedColumn(s.refunds, p) == map[];
  }

  lemma FrameKeepsRoom(s: Books, t: Books)
    requires RoomOk(s) && RefundFrame(s, t)
    ensures RoomOk(t)
  {
    forall p | p in t.payments ensures Sum(WantedColumn(t.refunds, p)) <= t.payments[p].paid {
      if p !in s.payments || !IsPaid(s.payments[p].status) { NothingWanted(s, p); }
    }
  }

  lemma RequestKeepsRoom(s: Books, t: Books, r: RefundId)
    requires RoomOk(s) && RefundAdded(s, t, r)
    requires t.refunds[r].amount + Sum(WantedColumn(s.refunds, t.refunds[r].payment)) <= s.payments[t.refunds[r].payment].paid
    ensures RoomOk(t)
  {
    forall p | p in t.payments ensures Sum(WantedColumn(t.refunds, p)) <= t.payments[p].paid {
      RequestRaisesWanted(s.refunds, r, t.refunds[r], p);
    }
  }

  lemma RequestRaisesWanted(refunds: map<RefundId, Refund>, r: RefundId, added: Refund, p: PaymentId)
    requires r !in refunds
    ensures Sum(WantedColumn(refunds[r := added], p)) ==
              Sum(WantedColumn(refunds, p)) + if added.payment == p then added.amount else 0
  {
    var column := WantedColumn(refunds, p);
    if added.payment == p {
      assert WantedColumn(refunds[r := added], p) == column[r := added.amount];
      SumInsert(column, r, added.amount);
    } else {
      assert WantedColumn(refunds[r := added], p) == column;
    }
  }

  lemma RoundKeepsRoom(s: Books, t: Books, read: RefundRead)
    requires RoomOk(s) && RefundProcessed(s, t, read)
    ensures RoomOk(t)
  {
    TransferDebits(ClientRefunds, ProviderCash, read.refund.amount);
    RoundPostsAsWanted(s, t, read);
    RoundLinks(s, t, read);
    forall p | p in t.payments ensures Sum(WantedColumn(t.refunds, p)) <= t.payments[p].paid {
      SameWanted(s.refunds, read.id, RefundSucceeded, p);
    }
  }

  lemma RoundLinks(s: Books, t: Books, read: RefundRead)
    requires RefundsLinked(s) && RefundProcessed(s, t, read)
    ensures RefundsLinked(t) && t.payments.Keys == s.payments.Keys
    ensures forall p | p in s.payments :: t.payments[p].paid == s.payments[p].paid
  {
  }

  lemma SameWanted(refunds: map<RefundId, Refund>, r: RefundId, status: RefundStatus, p: PaymentId)
    requires r in refunds
    ensures WantedColumn(refunds[r := refunds[r].(status := status)], p) == WantedColumn(refunds, p)
  {
  }

  lemma RoundPostsAsWanted(s: Books, t: Books, read: RefundRead)
    requires PostedAsWanted(s) && RefundProcessed(s, t, read)
    requires SideTotal(Transfer(ClientRefunds, ProviderCash, read.refund.amount), Debit) == read.refund.amount
    ensures PostedAsWanted(t)
  {
  }

  lemma StepKeepsRoom(s: Books, step: Step)
    requires BooksOk(s) && RoomOk(s) && Enabled(s, step) && LeavesRoom(s, step)
    ensures RoomOk(Apply(s, step))
  {
    match step
    case RequestRefundStep(p, amount, refund) =>
      if Attempt(s, step).Committed? {
        RefundIsAllowed(s, p, amount, refund);
        RequestKeepsRoom(s, Apply(s, step), refund);
      }
    case ProcessRefundStep(read) =>
      if Attempt(s, step).Committed? {
        ProcessRefundEffect(s, read);
        RoundKeepsRoom(s, Apply(s, step), read);
      }
    case _ =>
      OtherStepIsFrame(s, step);
      FrameKeepsRoom(s, Apply(s, step));
  }

  ghost predicate RoomyRun(s: Books, steps: seq<Step>)
    decreases |steps|
  {
    steps != [] ==> LeavesRoom(s, steps[0]) && RoomyRun(Apply(s, steps[0]), steps[1..])
  }

  /** If every accepted request leaves room for what was requested before, then on
      every run, with any number of refunds outstanding and any old records in the
      worker, the REFUND debits of a payment never exceed what was paid. */
  lemma {:induction false} DebitsStayWithinPaid(s: Books, steps: seq<Step>, p: PaymentId)
    requires BooksOk(s) && RoomOk(s) && Run(s, steps) && RoomyRun(s, steps)
    requires p in Exec(s, steps).payments
    ensures Sum(DebitColumn(Exec(s, steps), p)) <= Exec(s, steps).payments[p].paid
    decreases |steps|
  {
    if steps == [] {
      RoomMeansWithinPaid(s, p);
    } else {
      StepKeepsBooks(s, steps[0]);
      StepKeepsRoom(s, steps[0]);
      DebitsStayWithinPaid(Apply(s, steps[0]), steps[1..], p);
    }
  }

  lemma EmptyBooksHaveRoom()
    ensures RoomOk(EMPTY_BOOKS)
  {
  }
}
