/** Operational cancellation of a trip and the no-show of its driver: what they
    leave behind, and that no later transaction takes a seat of the trip again. */
module TripCancel {
  import opened Tables
  import opened SeatInventory
  import opened TripOps
  import opened TripSafety
  import P = Parcels

  ghost predicate SeatsFree(s: Inventory) {
    forall x | x in s.seats :: !InUse(s.seats[x])
  }

  /** It succeeds exactly in the four operational statuses (and again on a
      cancelled trip), whatever bookings, parcels and seats the trip has. Exactly the
      active bookings, parcels and seats of the trip are cancelled and freed, in the
      name of who cancels; no booking, parcel or seat is then still active. */
  lemma CancellationIsComplete(s: Trip, role: Role)
    ensures CancelTripOperational(s, role).Committed? <==>
              s.status in {Published, BookingOpen, Full, TripBoarding, TripCancelled}
    ensures CancelTripOperational(s, role).Committed? ==>
              var t := CancelTripOperational(s, role).state;
              && t.status == TripCancelled && SeatsFree(t.inv)
              && (forall b | b in t.inv.bookings :: !ActiveBooking(t.inv.bookings[b].status))
              && (forall p | p in t.parcels :: !P.ActiveOnTrip(t.parcels[p].status))
              && BookingsEnded(s.inv, t.inv, (match role case Client => CancelledByClient case Driver => CancelledByDriver
                                              case Admin => CancelledByAdmin))
              && SeatsEnded(s.inv, t.inv) && ParcelsEnded(s.parcels, t.parcels)
              && t == s.(status := t.status, inv := s.inv.(bookings := t.inv.bookings, seats := t.inv.seats), parcels := t.parcels)
  {
  }

  /** Exactly the bookings that were active have the given status. */
  ghost predicate BookingsEnded(s: Inventory, t: Inventory, status: BookingStatus) {
    && t.bookings.Keys == s.bookings.Keys
    && forall b | b in s.bookings ::
         t.bookings[b] == if s.bookings[b].status in {PendingConfirmation, Confirmed, Boarding, InProgress}
                          then s.bookings[b].(status := status) else s.bookings[b]
  }

  ghost predicate SeatsEnded(s: Inventory, t: Inventory) {
    && t.seats.Keys == s.seats.Keys
    && forall x | x in s.seats :: t.seats[x] == if s.seats[x] in {Held, Booked, Occupied} then Available else s.seats[x]
  }

  ghost predicate ParcelsEnded(s: map<ParcelId, P.Parcel>, t: map<ParcelId, P.Parcel>) {
    && t.Keys == s.Keys
    && forall p | p in s ::
         t[p] == if s[p].status in {P.Created, P.PendingDriverAcceptance, P.Accepted, P.HandedToDriver, P.InTransit,
                                    P.ReadyForPickup}
                 then s[p].(status := P.CancelledByAdmin, version := s[p].version + 1) else s[p]
  }

  /** No action leads out of a cancelled, completed or expired trip. */
  lemma EndedTripsStay(status: TripStatus, action: TripAction)
    requires status in {TripCancelled, TripCompleted, TripExpired} && TransitionTrip(status, action).Committed?
    ensures TransitionTrip(status, action).state == status
  {
  }

  /** The no-show of a driver ends a trip in any status: its active bookings become
      NO_SHOW_DRIVER, no seat stays in use, and unlike a cancellation it leaves
      every parcel what it was. */
  lemma DriverNoShowExactly(s: Trip)
    ensures var t := DriverNoShow(s);
            && t.status == TripCancelled && BookingsEnded(s.inv, t.inv, NoShowDriver) && SeatsEnded(s.inv, t.inv)
            && SeatsFree(t.inv) && t.parcels == s.parcels
            && t == s.(status := t.status, inv := s.inv.(bookings := t.inv.bookings, seats := t.inv.seats))
  {
  }

  /** A trip that has ended, by whatever step of the trip, stays as it ended, but
      for the no-show of its driver, which still cancels a completed trip. */
  lemma EndedTripChangesExactly(s: Trip, step: TripStep)
    requires s.status in {TripCancelled, TripCompleted, TripExpired}
    ensures TripApply(s, step).status != s.status <==> step.DriverNoShowStep? && s.status != TripCancelled
  {
    if step.StartTripStep? || step.CompleteStep? || step.CancelTripStep? || step.StartBoardingStep? {
      EndedStatusStays(s, step);
    }
  }

  lemma EndedStatusStays(s: Trip, step: TripStep)
    requires s.status in {TripCancelled, TripCompleted, TripExpired}
    requires step.StartTripStep? || step.CompleteStep? || step.CancelTripStep? || step.StartBoardingStep?
    ensures TripApply(s, step).status == s.status
  {
  }

  // ----- afterwards -----

  ghost predicate Dead(s: Trip) {
    s.status == TripCancelled && Ready(s.inv) && SeatsFree(s.inv)
  }

  lemma NothingToMove(s: Inventory, ids: set<SeatKey>, to: SeatStatus)
    requires SeatsFree(s)
    ensures MoveSeats(s.seats, ids, Held, to) == s.seats
    ensures CountSeats(s.seats, ids, Held) == 0
  {
    assert (set x | x in ids && x in s.seats && s.seats[x] == Held) == {};
  }

  lemma ExpireHoldMovesNothing(s: Inventory, read: HoldRead, copyExpiry: bool)
    requires SeatsFree(s)
    ensures ExpireHold(s, read, copyExpiry).seats == s.seats
  {
    NothingToMove(s, read.hold.items, Available);
  }

  lemma {:induction false} SweepMovesNothing(s: Inventory, batch: seq<HoldRead>, copyExpiry: bool)
    requires SeatsFree(s)
    ensures Sweep(s, batch, copyExpiry).seats == s.seats
    decreases |batch|
  {
    if batch != [] {
      ExpireHoldMovesNothing(s, batch[0], copyExpiry);
      SweepMovesNothing(ExpireHold(s, batch[0], copyExpiry), batch[1..], copyExpiry);
    }
  }

  lemma ConfirmIsRejected(s: Inventory, step: Step)
    requires SeatsFree(s) && Linked(s) && Enabled(s, step) && step.ConfirmStep?
    ensures Apply(s, step) == s
  {
    NothingToMove(s, step.read.items, Booked);
  }

  lemma ReleaseMovesNothing(s: Inventory, step: Step)
    requires SeatsFree(s) && step.ReleaseStep?
    ensures Apply(s, step).seats == s.seats
  {
    NothingToMove(s, step.read.items, Available);
  }

  lemma CancelMovesNothing(s: Inventory, step: Step)
    requires SeatsFree(s) && step.CancelStep?
    ensures Apply(s, step).seats == s.seats
  {
  }

  lemma PaymentExpiredMovesNothing(s: Inventory, b: BookingId, first: Option<HoldId>)
    requires SeatsFree(s)
    ensures PaymentExpired(s, b, first).seats == s.seats
  {
    if first.Some? && first.value in s.holds { NothingToMove(s, s.holds[first.value].items, Available); }
  }

  /** No hold, confirm, release, expiry, cancellation or payment moves a seat. */
  lemma SeatStepMovesNothing(s: Inventory, step: Step)
    requires SeatsFree(s) && Linked(s) && Enabled(s, step)
    requires step.CreateHoldStep? ==> step.found != Bookable
    ensures Apply(s, step).seats == s.seats
  {
    match step
    case CreateHoldStep(_, _, _, _, _, sweep, _) => SweepMovesNothing(s, sweep, true);
    case ConfirmStep(_, _, _, _, _, _) => ConfirmIsRejected(s, step);
    case ReleaseStep(_, _, _) => ReleaseMovesNothing(s, step);
    case SweepStep(sweep, _) => SweepMovesNothing(s, sweep, true);
    case WorkerExpireStep(overdue, _) => ExpireHoldMovesNothing(s, overdue, false);
    case CancelStep(_, _, _) => CancelMovesNothing(s, step);
    case PaymentSucceededStep(_) =>
    case PaymentExpiredStep(b, first) => PaymentExpiredMovesNothing(s, b, first);
    case PaymentStartedStep(_, _) =>
    case ApproveStep(_) =>
  }

  lemma TripStepIsRejected(s: Trip, step: TripStep)
    requires s.status == TripCancelled
    requires step.StartBoardingStep? || step.BoardStep? || step.NoShowStep? || step.StartTripStep? || step.CompleteStep?
    ensures TripAttempt(s, step).Rejected?
  {
  }

  /** The two steps that end a trip before it is completed. */
  predicate Ends(step: TripStep) {
    step.CancelTripStep? || step.DriverNoShowStep?
  }

  lemma SecondEnding(s: Trip, step: TripStep)
    requires Dead(s) && Ends(step)
    ensures Dead(TripApply(s, step)) && TripApply(s, step).inv.seats == s.inv.seats
  {
    assert SeatsFreed(s.inv.seats) == s.inv.seats;
    StatusStepKeepsReady(s, step);
  }

  lemma DeadStaysDead(s: Trip, step: TripStep)
    requires Dead(s) && TripEnabled(s, step)
    ensures Dead(TripApply(s, step)) && TripApply(s, step).inv.seats == s.inv.seats
  {
    match step
    case SeatStep(seatStep) =>
      SeatStepMovesNothing(s.inv, seatStep);
      SeatStepKeeps(s.inv, seatStep);
    case ParcelStep(_, _) =>
    case ShowCodeStep(_, _, _, _, _) =>
    case ExpireCodesStep(_) =>
    case IssuePinStep(_, _, _, _) =>
    case VerifyPinStep(_, _, _, _) =>
    case CancelTripStep(_) => SecondEnding(s, step);
    case DriverNoShowStep => SecondEnding(s, step);
    case _ => TripStepIsRejected(s, step);
  }

  lemma EndedIsDead(s: Trip, ending: TripStep)
    requires Ready(s.inv) && Ends(ending) && TripAttempt(s, ending).Committed?
    ensures Dead(TripApply(s, ending))
  {
    StatusStepKeepsReady(s, ending);
  }

  lemma {:induction false} SeatsStayFree(s: Trip, steps: seq<TripStep>)
    requires Dead(s) && TripRun(s, steps)
    ensures TripExec(s, steps).status == TripCancelled && TripExec(s, steps).inv.seats == s.inv.seats
    decreases |steps|
  {
    if steps != [] {
      DeadStaysDead(s, steps[0]);
      SeatsStayFree(TripApply(s, steps[0]), steps[1..]);
    }
  }

  /** Whatever happened to a published trip, once it is cancelled or its driver did
      not show up, not one of its seats changes on any run that follows: what is
      AVAILABLE stays AVAILABLE. */
  lemma CancelledTripKeepsItsSeatsFree(published: Trip, earlier: seq<TripStep>, ending: TripStep, later: seq<TripStep>)
    requires GuardOk(published) && TripRun(published, earlier)
    requires Ends(ending) && TripAttempt(TripExec(published, earlier), ending).Committed?
    requires TripRun(TripApply(TripExec(published, earlier), ending), later)
    ensures var cancelled := TripApply(TripExec(published, earlier), ending);
            && TripExec(cancelled, later).status == TripCancelled
            && TripExec(cancelled, later).inv.seats == cancelled.inv.seats
            && SeatsFree(TripExec(cancelled, later).inv)
  {
    RunKeepsReady(published, earlier);
    EndedIsDead(TripExec(published, earlier), ending);
    SeatsStayFree(TripApply(TripExec(published, earlier), ending), later);
  }

  // ----- what it does not reach -----

  lemma EndingMovesBooking(s: Trip, ending: TripStep, b: BookingId)
    requires Ends(ending) && TripAttempt(s, ending).Committed? && b in s.inv.bookings
    ensures var t := TripApply(s, ending);
            && b in t.inv.bookings
            && (if ActiveBooking(s.inv.bookings[b].status) then
                  if ending.DriverNoShowStep? then t.inv.bookings[b].status == NoShowDriver
                  else ClosedForCancel(t.inv.bookings[b].status)
                else t.inv.bookings[b] == s.inv.bookings[b])
  {
  }

  /** A booking still on hold or waiting for its payment is not in the set that is
      cancelled. If its payment then succeeds it becomes CONFIRMED, on a cancelled
      trip; this happens to exactly these bookings. */
  lemma PaidAfterCancellationExactly(s: Trip, ending: TripStep, b: BookingId)
    requires Ends(ending) && TripAttempt(s, ending).Committed? && b in s.inv.bookings
    ensures PaymentSucceeded(TripApply(s, ending).inv, b).bookings[b].status == Confirmed <==>
              s.inv.bookings[b].status in {Draft, OnHold, PaymentPending}
  {
    EndingMovesBooking(s, ending, b);
    PaymentConfirms(TripApply(s, ending).inv, b);
  }

  lemma PaymentConfirms(s: Inventory, b: BookingId)
    requires b in s.bookings
    ensures var t := PaymentSucceeded(s, b);
            b in t.bookings && (t.bookings[b].status == Confirmed <==>
                                  AwaitsPayment(s.bookings[b].status) || s.bookings[b].status == Confirmed)
  {
  }

  /** Creating a cash payment confirms a booking of the cancelled trip as well: the
      payable check looks at the booking alone, and NO_SHOW_DRIVER is not among the
      statuses it turns down. So this happens to exactly those bookings that were
      not closed and that the ending did not reach, or reached as a no-show. */
  lemma CashAfterCancellationExactly(s: Trip, ending: TripStep, b: BookingId)
    requires Ends(ending) && TripAttempt(s, ending).Committed? && b in s.inv.bookings
    ensures Apply(TripApply(s, ending).inv, PaymentStartedStep(b, false)).bookings[b].status == Confirmed <==>
              && !ClosedForCancel(s.inv.bookings[b].status)
              && (ActiveBooking(s.inv.bookings[b].status) ==> ending.DriverNoShowStep?)
  {
    EndingMovesBooking(s, ending, b);
    CashConfirms(TripApply(s, ending).inv, b);
  }

  lemma CashConfirms(s: Inventory, b: BookingId)
    requires b in s.bookings
    ensures var t := Apply(s, PaymentStartedStep(b, false));
            && b in t.bookings && (t.bookings[b].status == Confirmed <==> !ClosedForCancel(s.bookings[b].status))
  {
  }
}
