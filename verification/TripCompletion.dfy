/** What completing a trip does to its bookings: whoever was in BOARDING at the
    start and was not withdrawn since ends COMPLETED, on board or left behind. */
module TripCompletion {
  import opened Tables
  import opened SeatInventory
  import opened SeatSafety
  import opened TripOps
  import opened TripSafety

  /** The bookings the completion summary counts as boarded. */
  function CompletedBookings(inv: Inventory): set<BookingId> {
    set b | b in inv.bookings && inv.bookings[b].status == Completed
  }

  function Underway(inv: Inventory): set<BookingId> {
    set b | b in inv.bookings && inv.bookings[b].status == InProgress
  }

  /** It succeeds exactly on a trip in progress (and again on a completed one) and
      completes exactly the bookings underway or still in BOARDING. */
  lemma CompletionExactly(s: Trip)
    ensures CompleteTripOperation(s).Committed? <==> s.status == TripInProgress || s.status == TripCompleted
    ensures CompleteTripOperation(s).Committed? ==>
              var t := CompleteTripOperation(s).state;
              && t.status == TripCompleted && Unresolved(t.inv) == {} && Underway(t.inv) == {}
              && CompletedBookings(t.inv) == CompletedBookings(s.inv) + Underway(s.inv) + Unresolved(s.inv)
              && t == s.(status := t.status, inv := s.inv.(bookings := t.inv.bookings))
              && t.inv.bookings.Keys == s.inv.bookings.Keys
              && (forall b | b in s.inv.bookings && s.inv.bookings[b].status !in {InProgress, Boarding} ::
                    t.inv.bookings[b] == s.inv.bookings[b])
  {
  }

  // ----- nobody is underway before the start -----

  predicate IsDeparted(status: BookingStatus) {
    status == InProgress || status == Completed
  }

  ghost predicate NoDeparture(s: Inventory, t: Inventory) {
    forall b | b in t.bookings && IsDeparted(t.bookings[b].status) :: b in s.bookings && IsDeparted(s.bookings[b].status)
  }

  predicate OnTheWay(status: BookingStatus) {
    status == Boarding || IsDeparted(status)
  }

  /** A seat step makes nobody board, depart or arrive, and occupies no row. */
  ghost predicate NoJourney(s: Inventory, t: Inventory) {
    && (forall b | b in t.bookings && OnTheWay(t.bookings[b].status) ::
          b in s.bookings && s.bookings[b].status == t.bookings[b].status)
    && (forall k | k in t.rows && t.rows[k] == RowOccupied :: k in s.rows && s.rows[k] == RowOccupied)
  }

  lemma JourneyTwice(s: Inventory, t: Inventory, u: Inventory)
    requires NoJourney(s, t) && NoJourney(t, u)
    ensures NoJourney(s, u)
  {
  }

  lemma ExpiryIsNoJourney(s: Inventory, read: HoldRead, copyExpiry: bool)
    ensures NoJourney(s, ExpireHold(s, read, copyExpiry))
  {
  }

  lemma {:induction false} SweepIsNoJourney(s: Inventory, batch: seq<HoldRead>, copyExpiry: bool)
    ensures NoJourney(s, Sweep(s, batch, copyExpiry))
    decreases |batch|
  {
    if batch != [] {
      var t := ExpireHold(s, batch[0], copyExpiry);
      ExpiryIsNoJourney(s, batch[0], copyExpiry);
      SweepIsNoJourney(t, batch[1..], copyExpiry);
      JourneyTwice(s, t, Sweep(t, batch[1..], copyExpiry));
    }
  }

  lemma PlaceIsNoJourney(s: Inventory, t: Inventory, h: HoldId, b: BookingId, request: HoldRequest, items: set<SeatKey>,
                         expiresAt: Time)
    requires t == s.(seats := t.seats)
    ensures NoJourney(s, PlaceHold(t, h, b, request, items, expiresAt))
  {
  }

  lemma TakeIsNoJourney(s: Inventory, h: HoldId, b: BookingId, request: HoldRequest, expiresAt: Time)
    ensures var r := TakeSeats(s, h, b, request, expiresAt); r.Committed? ==> NoJourney(s, r.state)
  {
    var t := WithAllSeats(s);
    PlaceIsNoJourney(s, t, h, b, request, RequestedKeys(t, request), expiresAt);
  }

  lemma CreateIsNoJourney(s: Inventory, step: Step)
    requires step.CreateHoldStep?
    ensures NoJourney(s, Apply(s, step))
  {
    var t := Sweep(s, step.sweep, true);
    var taken := TakeSeats(t, step.h, step.b, step.request, step.expiresAt);
    SweepIsNoJourney(s, step.sweep, true);
    TakeIsNoJourney(t, step.h, step.b, step.request, step.expiresAt);
    if taken.Committed? { JourneyTwice(s, t, taken.state); }
    CreateOutcomes(s, step);
  }

  lemma HoldStepIsNoJourney(s: Inventory, step: Step)
    requires step.ConfirmStep? || step.ReleaseStep?
    ensures NoJourney(s, Apply(s, step))
  {
  }

  lemma BookingStepIsNoJourney(s: Inventory, step: Step)
    requires step.CancelStep? || step.PaymentSucceededStep? || step.PaymentStartedStep? || step.ApproveStep?
    ensures NoJourney(s, Apply(s, step))
  {
  }

  lemma PaymentExpiredIsNoJourney(s: Inventory, b: BookingId, first: Option<HoldId>)
    ensures NoJourney(s, PaymentExpired(s, b, first))
  {
  }

  lemma SeatStepIsNoJourney(s: Inventory, step: Step)
    ensures NoJourney(s, Apply(s, step))
  {
    match step
    case CreateHoldStep(_, _, _, _, _, _, _) => CreateIsNoJourney(s, step);
    case ConfirmStep(_, _, _, _, _, _) => HoldStepIsNoJourney(s, step);
    case ReleaseStep(_, _, _) => HoldStepIsNoJourney(s, step);
    case SweepStep(sweep, _) => SweepIsNoJourney(s, sweep, true);
    case WorkerExpireStep(overdue, _) => ExpiryIsNoJourney(s, overdue, false);
    case PaymentExpiredStep(b, first) => PaymentExpiredIsNoJourney(s, b, first);
    case _ => BookingStepIsNoJourney(s, step);
  }

  ghost predicate NobodyDeparted(s: Trip) {
    BeforeBoarding(s.status) || s.status == TripBoarding ==>
      forall b | b in s.inv.bookings :: !IsDeparted(s.inv.bookings[b].status)
  }

  lemma StepKeepsNobodyDeparted(s: Trip, step: TripStep)
    requires NobodyDeparted(s)
    ensures NobodyDeparted(TripApply(s, step))
  {
    if step.SeatStep? {
      SeatStepIsNoJourney(s.inv, step.step);
    } else {
      OtherStepKeepsNobodyDeparted(s, step);
    }
  }

  lemma OtherStepKeepsNobodyDeparted(s: Trip, step: TripStep)
    requires NobodyDeparted(s) && !step.SeatStep?
    ensures NobodyDeparted(TripApply(s, step))
  {
    if step.StartTripStep? || step.CompleteStep? || step.CancelTripStep? || step.DriverNoShowStep? {
      if TripAttempt(s, step).Committed? { TripStatusMoves(s, step); }
    } else {
      EarlyStepDepartsNobody(s, step);
    }
  }

  lemma EarlyStepDepartsNobody(s: Trip, step: TripStep)
    requires !step.SeatStep? && !step.StartTripStep? && !step.CompleteStep? && !step.CancelTripStep? && !step.DriverNoShowStep?
    ensures NoDeparture(s.inv, TripApply(s, step).inv)
    ensures TripApply(s, step).status == s.status || (BeforeBoarding(s.status) && TripApply(s, step).status == TripBoarding)
  {
  }

  lemma {:induction false} RunKeepsNobodyDeparted(s: Trip, steps: seq<TripStep>)
    requires NobodyDeparted(s)
    ensures NobodyDeparted(TripExec(s, steps))
    decreases |steps|
  {
    if steps != [] {
      StepKeepsNobodyDeparted(s, steps[0]);
      RunKeepsNobodyDeparted(TripApply(s, steps[0]), steps[1..]);
    }
  }

  // ----- who is counted -----

  lemma CompletedAfterStart(s: Trip, allow: bool)
    requires s.status == TripBoarding && NobodyDeparted(s) && StartTripOperation(s, allow).Committed?
    ensures var t := StartTripOperation(s, allow).state;
            && CompleteTripOperation(t).Committed?
            && CompletedBookings(CompleteTripOperation(t).state.inv) == Unresolved(s.inv)
  {
    var t := StartTripOperation(s, allow).state;
    CompletionExactly(t);
    LeftBehind(s.inv, t.inv);
    DepartedAreBoarded(s.inv, t.inv);
    assert CompletedBookings(t.inv) == {};
  }

  lemma DepartedAreBoarded(inv: Inventory, t: Inventory)
    requires t.bookings == Departed(inv) && forall b | b in inv.bookings :: !IsDeparted(inv.bookings[b].status)
    ensures Underway(t) == Unresolved(inv) * Boarded(inv) && CompletedBookings(t) == {}
  {
    forall b ensures b in Underway(t) <==> b in Unresolved(inv) * Boarded(inv) {
      if b in inv.bookings { assert t.bookings[b] == Departed(inv)[b]; }
    }
  }

  // ----- between start and completion -----

  /** Bookings of a trip in progress that started from `start`: those underway were
      in BOARDING and on board then, those in BOARDING were not on board. */
  ghost predicate Travelling(start: Inventory, inv: Inventory) {
    && (forall b | b in inv.bookings && OnTheWay(inv.bookings[b].status) ::
          && b in Unresolved(start)
          && inv.bookings[b].status == if IsBoarded(start, b) then InProgress else Boarding)
    && (forall k | k in inv.rows && inv.rows[k] == RowOccupied :: k in start.rows && start.rows[k] == RowOccupied)
  }

  ghost predicate TripTravelling(start: Inventory, s: Trip) {
    && s.status in {TripInProgress, TripCompleted, TripCancelled}
    && (s.status == TripInProgress ==> Travelling(start, s.inv))
  }

  lemma StartsTravelling(s: Trip, allow: bool)
    requires s.status == TripBoarding && NobodyDeparted(s) && StartTripOperation(s, allow).Committed?
    ensures TripTravelling(s.inv, StartTripOperation(s, allow).state)
  {
  }

  lemma SecondStartTravels(start: Inventory, s: Trip, allow: bool)
    requires TripTravelling(start, s)
    ensures TripTravelling(start, TripApply(s, StartTripStep(allow)))
  {
    if s.status == TripInProgress { NobodyLeftToDepart(start, s.inv); }
  }

  lemma OnBoardSinceStart(start: Inventory, inv: Inventory, b: BookingId)
    requires Travelling(start, inv) && IsBoarded(inv, b)
    ensures IsBoarded(start, b)
  {
    var k :| k in inv.rows && k.booking == b && inv.rows[k] == RowOccupied;
    assert start.rows[k] == RowOccupied;
  }

  lemma NobodyLeftToDepart(start: Inventory, inv: Inventory)
    requires Travelling(start, inv)
    ensures Departed(inv) == inv.bookings
  {
    forall b | b in inv.bookings && IsBoarded(inv, b) ensures inv.bookings[b].status != Boarding {
      OnBoardSinceStart(start, inv, b);
    }
  }

  lemma NoJourneyTravels(start: Inventory, s: Inventory, t: Inventory)
    requires Travelling(start, s) && NoJourney(s, t)
    ensures Travelling(start, t)
  {
  }

  lemma OtherStepsRest(start: Inventory, s: Trip, step: TripStep)
    requires TripTravelling(start, s) && !step.SeatStep? && !step.StartTripStep?
    ensures TripApply(s, step).status in {TripInProgress, TripCompleted, TripCancelled}
    ensures TripApply(s, step).status == TripInProgress ==> s.status == TripInProgress && TripApply(s, step).inv == s.inv
  {
  }

  lemma StepTravels(start: Inventory, s: Trip, step: TripStep)
    requires TripTravelling(start, s)
    ensures TripTravelling(start, TripApply(s, step))
  {
    match step
    case SeatStep(seatStep) =>
      SeatStepIsNoJourney(s.inv, seatStep);
      if s.status == TripInProgress { NoJourneyTravels(start, s.inv, Apply(s.inv, seatStep)); }
    case StartTripStep(allow) => SecondStartTravels(start, s, allow);
    case _ => OtherStepsRest(start, s, step);
  }

  lemma {:induction false} RunTravels(start: Inventory, s: Trip, steps: seq<TripStep>)
    requires TripTravelling(start, s)
    ensures TripTravelling(start, TripExec(s, steps))
    decreases |steps|
  {
    if steps != [] {
      StepTravels(start, s, steps[0]);
      RunTravels(start, TripApply(s, steps[0]), steps[1..]);
    }
  }

  lemma CountedOfTravelling(start: Inventory, u: Trip)
    requires u.status == TripInProgress && Travelling(start, u.inv)
    ensures CompleteTripOperation(u).Committed?
    ensures var counted := CompletedBookings(CompleteTripOperation(u).state.inv);
            && counted <= Unresolved(start)
            && counted * Boarded(start) == Underway(u.inv) && counted - Boarded(start) == Unresolved(u.inv)
  {
    CompletionExactly(u);
    var counted := CompletedBookings(CompleteTripOperation(u).state.inv);
    assert CompletedBookings(u.inv) == {};
    forall b ensures b in counted * Boarded(start) <==> b in Underway(u.inv) {
    }
    forall b ensures b in counted - Boarded(start) <==> b in Unresolved(u.inv) {
    }
  }

  /** Whatever happened to a published trip before it starts, and whatever happens
      until it is completed, cancellations and payments included: the summary
      counts the bookings that were in BOARDING at the start and have not left
      since. Of those, the ones on board at the start are underway and the others
      are still in BOARDING at completion; so it counts passengers only if and only
      if nobody is left in BOARDING by then. */
  lemma SummaryCountsExactly(published: Trip, steps: seq<TripStep>, allow: bool, between: seq<TripStep>)
    requires BeforeBoarding(published.status) && NobodyDeparted(published)
    requires TripExec(published, steps).status == TripBoarding
    requires StartTripOperation(TripExec(published, steps), allow).Committed?
    requires TripExec(StartTripOperation(TripExec(published, steps), allow).state, between).status == TripInProgress
    ensures var s := TripExec(published, steps);
            var u := TripExec(StartTripOperation(s, allow).state, between);
            && CompleteTripOperation(u).Committed?
            && var counted := CompletedBookings(CompleteTripOperation(u).state.inv);
            && counted <= Unresolved(s.inv)
            && counted * Boarded(s.inv) == Underway(u.inv) && counted - Boarded(s.inv) == Unresolved(u.inv)
            && (counted <= Boarded(s.inv) <==> Unresolved(u.inv) == {})
            && (between == [] ==> counted == Unresolved(s.inv))
  {
    var s := TripExec(published, steps);
    RunKeepsNobodyDeparted(published, steps);
    CompletedAfterStart(s, allow);
    StartsTravelling(s, allow);
    RunTravels(s.inv, StartTripOperation(s, allow).state, between);
    var u := TripExec(StartTripOperation(s, allow).state, between);
    CountedOfTravelling(s.inv, u);
    NothingLeftIffWithin(CompletedBookings(CompleteTripOperation(u).state.inv), Boarded(s.inv));
  }

  lemma NothingLeftIffWithin(all: set<BookingId>, part: set<BookingId>)
    ensures all <= part <==> all - part == {}
  {
    forall b | all - part == {} && b in all ensures b in part {
      assert b !in all - part;
    }
  }
}
