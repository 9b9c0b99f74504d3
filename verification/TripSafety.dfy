/** The start guard compares numbers of bookings. This module proves when equal
    numbers mean equal sets, and what a started trip then looks like. */
module TripSafety {
  import opened Tables
  import opened SeatInventory
  import opened TripOps
  import P = Parcels
  import SeatLayout

  // ----- what boarding relies on -----

  /** Rows and holds name bookings, a booking has one hold, and that hold has all
      of the booking's rows. */
  ghost predicate Linked(s: Inventory) {
    && 1 <= s.capacity
    && (forall k | k in s.rows :: k.booking in s.bookings)
    && (forall h | h in s.holds :: s.holds[h].items != {} && s.holds[h].booking in s.bookings)
    && (forall h, g | h in s.holds && g in s.holds && s.holds[h].booking == s.holds[g].booking :: h == g)
    && (forall h, k | h in s.holds && k in s.rows && s.holds[h].booking == k.booking :: k.seat in s.holds[h].items)
  }

  /** A booking with a sold row has no HELD row and no ACTIVE hold. */
  ghost predicate SoldApart(s: Inventory) {
    && (forall k, l | k in s.rows && l in s.rows && k.booking == l.booking && Sold(s.rows[k]) :: s.rows[l] != RowHeld)
    && (forall k, h | k in s.rows && h in s.holds && s.holds[h].booking == k.booking && Sold(s.rows[k]) ::
          s.holds[h].status != HoldActive)
  }

  ghost predicate Ready(s: Inventory) {
    Linked(s) && SoldApart(s)
  }

  /** No seat step boards anyone or takes anyone off board. */
  ghost predicate OccupiedKept(s: Inventory, t: Inventory) {
    forall k :: (k in t.rows && t.rows[k] == RowOccupied) <==> (k in s.rows && s.rows[k] == RowOccupied)
  }

  /** Passengers on board stay in BOARDING. */
  ghost predicate BoardingKept(s: Inventory, t: Inventory) {
    && s.bookings.Keys <= t.bookings.Keys
    && forall b | b in s.bookings && IsBoarded(s, b) && s.bookings[b].status == Boarding :: t.bookings[b].status == Boarding
  }

  ghost predicate Kept(s: Inventory, t: Inventory) {
    Ready(t) && OccupiedKept(s, t) && BoardingKept(s, t)
  }

  lemma KeptBoarded(s: Inventory, t: Inventory, b: BookingId)
    requires OccupiedKept(s, t)
    ensures IsBoarded(t, b) <==> IsBoarded(s, b)
  {
    if IsBoarded(s, b) {
      var k :| k in s.rows && k.booking == b && s.rows[k] == RowOccupied;
      assert k in t.rows && t.rows[k] == RowOccupied;
    }
    if IsBoarded(t, b) {
      var k :| k in t.rows && k.booking == b && t.rows[k] == RowOccupied;
      assert k in s.rows && s.rows[k] == RowOccupied;
    }
  }

  lemma KeptTwice(s: Inventory, t: Inventory, u: Inventory)
    requires Kept(s, t) && Kept(t, u)
    ensures Kept(s, u)
  {
    forall b | b in s.bookings && IsBoarded(s, b) && s.bookings[b].status == Boarding ensures u.bookings[b].status == Boarding {
      KeptBoarded(s, t, b);
    }
  }

  /** Nobody on board has an ACTIVE hold. */
  lemma ActiveIsNotBoarded(s: Inventory, h: HoldId)
    requires SoldApart(s) && h in s.holds && s.holds[h].status == HoldActive
    ensures !IsBoarded(s, s.holds[h].booking)
  {
  }

  // ----- the seat steps -----

  lemma ReleaseHoldKeeps(s: Inventory, read: HoldRead, status: HoldStatus)
    requires Ready(s) && status != HoldActive && PossibleRead(s, read.id, read.hold)
    ensures Kept(s, ReleaseHold(s, read, status)) && ReleaseHold(s, read, status).bookings == s.bookings
  {
  }

  lemma BookingsOnly(s: Inventory, t: Inventory)
    requires Ready(s) && t.rows == s.rows && t.holds == s.holds && t.bookings.Keys == s.bookings.Keys
    requires t.capacity == s.capacity && BoardingKept(s, t)
    ensures Kept(s, t)
  {
  }

  lemma ReleasedBookingKeeps(s: Inventory, t: Inventory, u: Inventory, b: BookingId)
    requires Ready(t) && Kept(s, t) && !IsBoarded(s, b)
    requires u.rows == t.rows && u.holds == t.holds && u.bookings.Keys == t.bookings.Keys && u.capacity == t.capacity
    requires forall c | c in t.bookings && c != b :: u.bookings[c] == t.bookings[c]
    ensures Kept(s, u)
  {
    KeptBoarded(s, t, b);
    BookingsOnly(t, u);
    KeptTwice(s, t, u);
  }

  lemma ExpireHoldKeeps(s: Inventory, read: HoldRead, copyExpiry: bool)
    requires Ready(s) && PossibleRead(s, read.id, read.hold)
    ensures Kept(s, ExpireHold(s, read, copyExpiry))
    ensures ExpireHold(s, read, copyExpiry).holds == ReleaseHold(s, read, HoldExpired).holds
  {
    ReleaseHoldKeeps(s, read, HoldExpired);
    if Claims(s, read) {
      ActiveIsNotBoarded(s, read.id);
      ReleasedBookingKeeps(s, ReleaseHold(s, read, HoldExpired), ExpireHold(s, read, copyExpiry), read.hold.booking);
    }
  }

  ghost predicate AllPossible(s: Inventory, batch: seq<HoldRead>) {
    forall i | 0 <= i < |batch| :: PossibleRead(s, batch[i].id, batch[i].hold)
  }

  lemma {:induction false} SweepKeeps(s: Inventory, batch: seq<HoldRead>, copyExpiry: bool)
    requires Ready(s) && AllPossible(s, batch)
    ensures Kept(s, Sweep(s, batch, copyExpiry))
    decreases |batch|
  {
    if batch != [] {
      var t := ExpireHold(s, batch[0], copyExpiry);
      ExpireHoldKeeps(s, batch[0], copyExpiry);
      SweepKeeps(t, batch[1..], copyExpiry);
      KeptTwice(s, t, Sweep(s, batch, copyExpiry));
    }
  }

  lemma PlaceHoldLinks(s: Inventory, h: HoldId, b: BookingId, request: HoldRequest, items: set<SeatKey>, expiresAt: Time)
    requires Linked(s) && h !in s.holds && b !in s.bookings && items != {}
    ensures Linked(PlaceHold(s, h, b, request, items, expiresAt))
  {
  }

  lemma PlaceHoldApart(s: Inventory, h: HoldId, b: BookingId, request: HoldRequest, items: set<SeatKey>, expiresAt: Time)
    requires Linked(s) && SoldApart(s) && h !in s.holds && b !in s.bookings
    ensures SoldApart(PlaceHold(s, h, b, request, items, expiresAt))
  {
  }

  lemma PlaceHoldKeeps(s: Inventory, h: HoldId, b: BookingId, request: HoldRequest, items: set<SeatKey>, expiresAt: Time)
    requires Ready(s) && h !in s.holds && b !in s.bookings && items != {}
    ensures Kept(s, PlaceHold(s, h, b, request, items, expiresAt))
  {
    PlaceHoldLinks(s, h, b, request, items, expiresAt);
    PlaceHoldApart(s, h, b, request, items, expiresAt);
  }

  lemma MoreSeatsKeep(s: Inventory)
    requires Ready(s)
    ensures Kept(s, WithAllSeats(s))
  {
  }

  lemma WholeCarHasSeats(s: Inventory)
    requires 1 <= s.capacity
    ensures WithAllSeats(s).seats.Keys != {}
  {
    SeatLayout.KeysCardinality(s.capacity);
    if |s.seats| < s.capacity {
      SeatLayout.EnsuredKeys(s.seats, s.capacity, Available);
    } else {
      assert |s.seats| == |s.seats.Keys|;
    }
  }

  lemma TakeSeatsKeeps(s: Inventory, h: HoldId, b: BookingId, request: HoldRequest, expiresAt: Time)
    requires Ready(s) && request.passengerCount >= 1
    requires TakeSeats(s, h, b, request, expiresAt).Committed?
    ensures Kept(s, TakeSeats(s, h, b, request, expiresAt).state)
  {
    var t := WithAllSeats(s);
    MoreSeatsKeep(s);
    WholeCarHasSeats(s);
    var keys := RequestedKeys(t, request);
    assert keys != {};
    PlaceHoldKeeps(t, h, b, request, keys, expiresAt);
    KeptTwice(s, t, PlaceHold(t, h, b, request, keys, expiresAt));
  }

  lemma NothingKeeps(s: Inventory)
    requires Ready(s)
    ensures Kept(s, s)
  {
  }

  lemma CreateHoldKeeps(s: Inventory, h: HoldId, b: BookingId, request: HoldRequest, expiresAt: Time, found: HoldLookup,
                        sweep: seq<HoldRead>)
    requires Ready(s) && AllPossible(s, sweep) && request.passengerCount >= 1
    requires CreateHold(s, h, b, request, expiresAt, found, sweep).Committed?
    ensures Kept(s, CreateHold(s, h, b, request, expiresAt, found, sweep).state)
  {
    var t := Sweep(s, sweep, true);
    SweepKeeps(s, sweep, true);
    if found == Bookable {
      TakeSeatsKeeps(t, h, b, request, expiresAt);
      KeptTwice(s, t, TakeSeats(t, h, b, request, expiresAt).state);
    }
  }

  lemma CreateStepKeeps(s: Inventory, step: Step)
    requires Ready(s) && Enabled(s, step) && step.CreateHoldStep?
    ensures Kept(s, Apply(s, step))
  {
    NothingKeeps(s);
    if Attempt(s, step).Committed? {
      BatchPossible(s, step.sweep, step.now);
      CreateHoldKeeps(s, step.h, step.b, step.request, step.expiresAt, step.found, step.sweep);
    }
  }

  lemma CountedRow(s: Inventory, h: HoldId, read: Hold)
    requires Linked(s) && PossibleRead(s, h, read) && CountRows(s.rows, read.booking, read.items, RowHeld) == |read.items|
    ensures forall k | k in s.rows && k.booking == read.booking :: s.rows[k] == RowHeld
    ensures exists k :: k in s.rows && k.booking == read.booking && s.rows[k] == RowHeld
  {
    var counted := set x | x in read.items && RowKey(read.booking, x) in s.rows && s.rows[RowKey(read.booking, x)] == RowHeld;
    SubsetCardinality(counted, read.items);
    forall k | k in s.rows && k.booking == read.booking ensures s.rows[k] == RowHeld {
      assert k.seat in counted && k == RowKey(read.booking, k.seat);
    }
    var x :| x in read.items;
    assert x in counted;
  }

  lemma BookHoldRows(s: Inventory, h: HoldId, read: Hold)
    requires Ready(s) && PossibleRead(s, h, read)
    requires forall k | k in s.rows && k.booking == read.booking :: s.rows[k] == RowHeld
    ensures Ready(BookHold(s, h, read)) && OccupiedKept(s, BookHold(s, h, read))
  {
  }

  lemma BookHoldKeeps(s: Inventory, h: HoldId, read: Hold)
    requires Ready(s) && PossibleRead(s, h, read) && CountRows(s.rows, read.booking, read.items, RowHeld) == |read.items|
    ensures Kept(s, BookHold(s, h, read))
  {
    CountedRow(s, h, read);
    BookHoldRows(s, h, read);
    assert !IsBoarded(s, read.booking);
  }

  lemma ConfirmStepKeeps(s: Inventory, step: Step)
    requires Ready(s) && Enabled(s, step) && step.ConfirmStep?
    ensures Kept(s, Apply(s, step))
  {
    NothingKeeps(s);
    if Attempt(s, step).Committed? && !AlreadyConfirmed(step.read, step.readBooking) {
      BookHoldKeeps(s, step.h, step.read);
    }
  }

  lemma ReleaseStepKeeps(s: Inventory, step: Step)
    requires Ready(s) && Enabled(s, step) && step.ReleaseStep?
    ensures Kept(s, Apply(s, step))
  {
    NothingKeeps(s);
    var read := HoldRead(step.h, step.read);
    if Attempt(s, step).Committed? && Claims(s, read) && step.read.status == HoldActive {
      ReleaseHoldKeeps(s, read, HoldReleased);
      ActiveIsNotBoarded(s, step.h);
      ReleasedBookingKeeps(s, ReleaseHold(s, read, HoldReleased), Apply(s, step), step.read.booking);
    }
  }

  lemma PaymentSucceededKeeps(s: Inventory, b: BookingId)
    requires Ready(s)
    ensures Kept(s, PaymentSucceeded(s, b))
  {
    PaymentSucceededReady(s, b);
  }

  lemma PaymentSucceededReady(s: Inventory, b: BookingId)
    requires Ready(s)
    ensures Ready(PaymentSucceeded(s, b))
  {
    PaymentSucceededLinks(s, b);
    PaymentSucceededApart(s, b);
  }

  lemma PaymentSucceededLinks(s: Inventory, b: BookingId)
    requires Linked(s)
    ensures Linked(PaymentSucceeded(s, b))
  {
  }

  lemma PaymentSucceededApart(s: Inventory, b: BookingId)
    requires SoldApart(s)
    ensures SoldApart(PaymentSucceeded(s, b))
  {
  }

  lemma PaymentExpiredKeeps(s: Inventory, b: BookingId, first: Option<HoldId>)
    requires Ready(s)
    ensures Kept(s, PaymentExpired(s, b, first))
  {
    var t := ReleaseFirst(s, first);
    NothingKeeps(s);
    if first.Some? && first.value in s.holds {
      ReleaseHoldKeeps(s, HoldRead(first.value, s.holds[first.value]), HoldExpired);
    }
    BookingsOnly(t, PaymentExpired(s, b, first));
    KeptTwice(s, t, PaymentExpired(s, b, first));
  }

  /** The two transactions that can take a booking out of BOARDING while its
      passengers are on board: its cancellation, and a payment created for it. */
  predicate Withdraws(s: Inventory, step: Step) {
    match step
    case CancelStep(b, user, role) =>
      b in s.bookings && IsBoarded(s, b) && (role == Client ==> s.bookings[b].client == user)
    case PaymentStartedStep(b, _) => b in s.bookings && IsBoarded(s, b)
    case _ => false
  }

  lemma CancelRows(s: Inventory, b: BookingId, user: UserId, role: Role)
    requires Ready(s) && CancelBooking(s, b, user, role).Committed?
    ensures Ready(CancelBooking(s, b, user, role).state) && OccupiedKept(s, CancelBooking(s, b, user, role).state)
  {
    WithdrawRows(s, b, LiveSeats(s, b), |BookedRows(s, b)|, role);
  }

  lemma WithdrawRows(s: Inventory, b: BookingId, live: set<SeatKey>, booked: nat, role: Role)
    requires Ready(s)
    ensures Ready(Withdraw(s, b, live, booked, role)) && OccupiedKept(s, Withdraw(s, b, live, booked, role))
  {
  }

  lemma CancelStepKeeps(s: Inventory, step: Step)
    requires Ready(s) && step.CancelStep?
    ensures Ready(Apply(s, step)) && OccupiedKept(s, Apply(s, step))
    ensures !Withdraws(s, step) ==> BoardingKept(s, Apply(s, step))
  {
    NothingKeeps(s);
    if Attempt(s, step).Committed? { CancelRows(s, step.b, step.user, step.role); }
  }

  lemma StartedKeeps(s: Inventory, step: Step)
    requires Ready(s) && step.PaymentStartedStep?
    ensures Ready(Apply(s, step)) && OccupiedKept(s, Apply(s, step))
    ensures !Withdraws(s, step) ==> BoardingKept(s, Apply(s, step))
  {
  }

  lemma ApproveKeeps(s: Inventory, step: Step)
    requires Ready(s) && step.ApproveStep?
    ensures Ready(Apply(s, step)) && OccupiedKept(s, Apply(s, step)) && BoardingKept(s, Apply(s, step))
  {
  }

  lemma BatchPossible(s: Inventory, batch: seq<HoldRead>, now: Time)
    requires OverdueBatch(s, batch, now)
    ensures AllPossible(s, batch)
  {
  }

  lemma SeatStepKeeps(s: Inventory, step: Step)
    requires Ready(s) && Enabled(s, step)
    ensures Ready(Apply(s, step)) && OccupiedKept(s, Apply(s, step))
    ensures !Withdraws(s, step) ==> BoardingKept(s, Apply(s, step))
  {
    match step
    case CreateHoldStep(_, _, _, _, _, _, _) => CreateStepKeeps(s, step);
    case ConfirmStep(_, _, _, _, _, _) => ConfirmStepKeeps(s, step);
    case ReleaseStep(_, _, _) => ReleaseStepKeeps(s, step);
    case SweepStep(sweep, now) =>
      BatchPossible(s, sweep, now);
      SweepKeeps(s, sweep, true);
    case WorkerExpireStep(overdue, _) => ExpireHoldKeeps(s, overdue, false);
    case CancelStep(_, _, _) => CancelStepKeeps(s, step);
    case PaymentSucceededStep(b) => PaymentSucceededKeeps(s, b);
    case PaymentExpiredStep(b, first) => PaymentExpiredKeeps(s, b, first);
    case PaymentStartedStep(_, _) => StartedKeeps(s, step);
    case ApproveStep(_) => ApproveKeeps(s, step);
  }

  // ----- the trip -----

  ghost predicate Sub(s: Inventory) {
    forall b | b in s.bookings && IsBoarded(s, b) :: s.bookings[b].status == Boarding
  }

  predicate BeforeBoarding(status: TripStatus) {
    status == Published || status == BookingOpen || status == Full
  }

  /** Nobody is on board before boarding, and everybody on board is in BOARDING
      while the trip is. */
  ghost predicate GuardOk(s: Trip) {
    && Ready(s.inv)
    && (BeforeBoarding(s.status) ==> forall b | b in s.inv.bookings :: !IsBoarded(s.inv, b))
    && (s.status == TripBoarding ==> Sub(s.inv))
  }

  predicate Withdrawal(s: Trip, step: TripStep) {
    step.SeatStep? && Withdraws(s.inv, step.step)
  }

  lemma NewBookingsAreNotBoarded(s: Inventory, t: Inventory)
    requires Linked(s) && OccupiedKept(s, t)
    ensures forall b | IsBoarded(t, b) :: b in s.bookings && IsBoarded(s, b)
  {
    forall b | IsBoarded(t, b) ensures b in s.bookings && IsBoarded(s, b) {
      KeptBoarded(s, t, b);
    }
  }

  /** While a trip is boarding, a seat step keeps everyone on board in BOARDING
      exactly when it is not a withdrawal. */
  lemma SeatStepKeepsSubExactly(s: Inventory, step: Step)
    requires Ready(s) && Sub(s) && Enabled(s, step)
    ensures Sub(Apply(s, step)) <==> !Withdraws(s, step)
  {
    SeatStepKeeps(s, step);
    var t := Apply(s, step);
    if Withdraws(s, step) {
      KeptBoarded(s, t, step.b);
      assert s.bookings[step.b].status == Boarding;
    } else {
      NewBookingsAreNotBoarded(s, t);
    }
  }

  lemma BoardKeepsReady(s: Inventory, b: BookingId)
    requires Ready(s)
    ensures Ready(Board(s, b))
    ensures forall c | c != b :: IsBoarded(Board(s, b), c) <==> IsBoarded(s, c)
  {
    var t := Board(s, b);
    forall c | c != b ensures IsBoarded(t, c) <==> IsBoarded(s, c) {
      if IsBoarded(s, c) {
        var k :| k in s.rows && k.booking == c && s.rows[k] == RowOccupied;
        assert t.rows[k] == RowOccupied;
      }
    }
  }

  lemma LeaveKeepsReady(s: Inventory, b: BookingId)
    requires Ready(s)
    ensures Ready(Leave(s, b)) && !IsBoarded(Leave(s, b), b)
    ensures forall c | c != b :: IsBoarded(Leave(s, b), c) <==> IsBoarded(s, c)
  {
    var t := Leave(s, b);
    forall c | c != b ensures IsBoarded(t, c) <==> IsBoarded(s, c) {
      if IsBoarded(s, c) {
        var k :| k in s.rows && k.booking == c && s.rows[k] == RowOccupied;
        assert t.rows[k] == RowOccupied;
      }
    }
  }

  lemma StatusKeepsReady(s: Inventory, t: Inventory)
    requires Ready(s) && t.rows == s.rows && t.holds == s.holds && t.bookings.Keys == s.bookings.Keys
    requires t.capacity == s.capacity
    ensures Ready(t)
    ensures forall b :: IsBoarded(t, b) <==> IsBoarded(s, b)
  {
    forall b ensures IsBoarded(t, b) <==> IsBoarded(s, b) {
      KeptBoarded(s, t, b);
    }
  }

  lemma SeatStepKeepsGuard(s: Trip, step: TripStep)
    requires GuardOk(s) && TripEnabled(s, step) && step.SeatStep? && !Withdrawal(s, step)
    ensures GuardOk(TripApply(s, step))
  {
    SeatStepKeeps(s.inv, step.step);
    NewBookingsAreNotBoarded(s.inv, Apply(s.inv, step.step));
    if s.status == TripBoarding { SeatStepKeepsSubExactly(s.inv, step.step); }
  }

  lemma BoardKeepsGuard(s: Trip, b: BookingId)
    requires GuardOk(s) && s.status == TripBoarding && b in s.inv.bookings && s.inv.bookings[b].status == Boarding
    ensures GuardOk(s.(inv := Board(s.inv, b)))
  {
    BoardKeepsReady(s.inv, b);
  }

  lemma BoardStepKeepsGuard(s: Trip, step: TripStep)
    requires GuardOk(s) && step.BoardStep?
    ensures GuardOk(TripApply(s, step))
  {
    var r := BoardBooking(s, step.b, step.matches, step.now);
    if r.Committed? {
      BoardKeepsGuard(s, step.b);
      SameInventoryKeepsGuard(s.(inv := Board(s.inv, step.b)), r.state);
    }
  }

  lemma LeaveKeepsGuard(s: Trip, b: BookingId)
    requires GuardOk(s) && s.status == TripBoarding
    ensures GuardOk(s.(inv := Leave(s.inv, b)))
  {
    LeaveKeepsReady(s.inv, b);
  }

  lemma SameInventoryKeepsGuard(s: Trip, t: Trip)
    requires GuardOk(s) && t.inv == s.inv && t.status == s.status
    ensures GuardOk(t)
  {
  }

  lemma TripStatusKeepsGuard(s: Trip, step: TripStep)
    requires GuardOk(s) && (step.StartTripStep? || step.CompleteStep? || step.CancelTripStep? || step.DriverNoShowStep?)
    ensures GuardOk(TripApply(s, step))
  {
    if TripAttempt(s, step).Committed? {
      TripStatusMoves(s, step);
      StatusStepKeepsReady(s, step);
      LaterStatusIsOk(TripApply(s, step));
    }
  }

  lemma LaterStatusIsOk(t: Trip)
    requires Ready(t.inv) && t.status in {TripInProgress, TripCompleted, TripCancelled}
    ensures GuardOk(t)
  {
  }

  lemma TripStatusMoves(s: Trip, step: TripStep)
    requires step.StartTripStep? || step.CompleteStep? || step.CancelTripStep? || step.DriverNoShowStep?
    requires TripAttempt(s, step).Committed?
    ensures TripApply(s, step).status in {TripInProgress, TripCompleted, TripCancelled}
  {
  }

  lemma StartBoardingKeepsGuard(s: Trip, now: Time, expiresAt: Time)
    requires GuardOk(s) && StartBoardingTrip(s, now, expiresAt).Committed?
    ensures GuardOk(StartBoardingTrip(s, now, expiresAt).state)
  {
    StatusKeepsReady(s.inv, StartBoardingTrip(s, now, expiresAt).state.inv);
  }

  lemma TripStepKeepsGuard(s: Trip, step: TripStep)
    requires GuardOk(s) && TripEnabled(s, step) && !Withdrawal(s, step)
    ensures GuardOk(TripApply(s, step))
  {
    match step
    case SeatStep(_) => SeatStepKeepsGuard(s, step);
    case BoardStep(b, _, _) => BoardStepKeepsGuard(s, step);
    case ShowCodeStep(_, _, _, _, _) => SameInventoryKeepsGuard(s, TripApply(s, step));
    case ExpireCodesStep(_) => SameInventoryKeepsGuard(s, TripApply(s, step));
    case NoShowStep(b) => if MarkClientNoShow(s, b).Committed? { LeaveKeepsGuard(s, b); }
    case ParcelStep(_, _) => SameInventoryKeepsGuard(s, TripApply(s, step));
    case IssuePinStep(_, _, _, _) => SameInventoryKeepsGuard(s, TripApply(s, step));
    case VerifyPinStep(_, _, _, _) => SameInventoryKeepsGuard(s, TripApply(s, step));
    case StartBoardingStep(now, expiresAt) =>
      if StartBoardingTrip(s, now, expiresAt).Committed? { StartBoardingKeepsGuard(s, now, expiresAt); }
    case _ => TripStatusKeepsGuard(s, step);
  }

  lemma TripStepKeepsReady(s: Trip, step: TripStep)
    requires Ready(s.inv) && TripEnabled(s, step)
    ensures Ready(TripApply(s, step).inv)
  {
    match step
    case SeatStep(seatStep) => SeatStepKeeps(s.inv, seatStep);
    case BoardStep(b, _, _) => BoardKeepsReady(s.inv, b);
    case ShowCodeStep(_, _, _, _, _) =>
    case ExpireCodesStep(_) =>
    case NoShowStep(b) => LeaveKeepsReady(s.inv, b);
    case ParcelStep(_, _) =>
    case IssuePinStep(_, _, _, _) =>
    case VerifyPinStep(_, _, _, _) =>
    case _ => StatusStepKeepsReady(s, step);
  }

  ghost predicate SameRows(s: Inventory, t: Inventory) {
    t.rows == s.rows && t.holds == s.holds && t.bookings.Keys == s.bookings.Keys && t.capacity == s.capacity
  }

  lemma EndingRows(s: Trip, step: TripStep)
    requires step.CancelTripStep? || step.DriverNoShowStep?
    ensures SameRows(s.inv, TripApply(s, step).inv)
  {
  }

  lemma ProgressRows(s: Trip, step: TripStep)
    requires step.StartBoardingStep? || step.StartTripStep? || step.CompleteStep?
    ensures SameRows(s.inv, TripApply(s, step).inv)
  {
  }

  lemma StatusStepKeepsReady(s: Trip, step: TripStep)
    requires Ready(s.inv)
    requires step.StartBoardingStep? || step.StartTripStep? || step.CompleteStep? || step.CancelTripStep?
          || step.DriverNoShowStep?
    ensures Ready(TripApply(s, step).inv)
  {
    if step.CancelTripStep? || step.DriverNoShowStep? { EndingRows(s, step); } else { ProgressRows(s, step); }
    StatusKeepsReady(s.inv, TripApply(s, step).inv);
  }

  lemma {:induction false} RunKeepsReady(s: Trip, steps: seq<TripStep>)
    requires Ready(s.inv) && TripRun(s, steps)
    ensures Ready(TripExec(s, steps).inv)
    decreases |steps|
  {
    if steps != [] {
      TripStepKeepsReady(s, steps[0]);
      RunKeepsReady(TripApply(s, steps[0]), steps[1..]);
    }
  }

  ghost predicate WithoutWithdrawals(s: Trip, steps: seq<TripStep>)
    decreases |steps|
  {
    steps != [] ==> !Withdrawal(s, steps[0]) && WithoutWithdrawals(TripApply(s, steps[0]), steps[1..])
  }

  lemma {:induction false} RunKeepsGuard(s: Trip, steps: seq<TripStep>)
    requires GuardOk(s) && TripRun(s, steps) && WithoutWithdrawals(s, steps)
    ensures GuardOk(TripExec(s, steps))
    decreases |steps|
  {
    if steps != [] {
      TripStepKeepsGuard(s, steps[0]);
      RunKeepsGuard(TripApply(s, steps[0]), steps[1..]);
    }
  }

  lemma PublishedTripIsOk(capacity: nat)
    requires 1 <= capacity
    ensures GuardOk(PublishedTrip(capacity))
  {
  }

  // ----- boarding and pins -----

  /** Boarding puts a booking on board exactly when it has a sold row; all its
      sold rows are then OCCUPIED, with their seats. */
  lemma BoardingBoardsExactly(s: Inventory, b: BookingId)
    ensures IsBoarded(Board(s, b), b) <==> exists k :: k in s.rows && k.booking == b && Sold(s.rows[k])
    ensures forall k | k in s.rows && k.booking == b && Sold(s.rows[k]) ::
              && Board(s, b).rows[k] == RowOccupied
              && (k.seat in s.seats ==> Board(s, b).seats[k.seat] == Occupied)
  {
    var t := Board(s, b);
    if k :| k in s.rows && k.booking == b && Sold(s.rows[k]) { assert t.rows[k] == RowOccupied; }
    forall k | k in s.rows && k.booking == b ensures k.seat in SeatsOf(s, b) {
    }
  }

  ghost predicate OneActivePin(s: Trip) {
    forall p, q | p in s.pins && q in s.pins && s.pins[p].booking == s.pins[q].booking
                  && s.pins[p].status == PinActive && s.pins[q].status == PinActive :: p == q
  }

  lemma IssueKeepsPins(s: Trip, b: BookingId, pin: PinId, expiresAt: Time, now: Time)
    requires OneActivePin(s)
    ensures OneActivePin(TripApply(s, IssuePinStep(b, pin, expiresAt, now)))
  {
  }

  lemma VerifyKeepsPins(s: Trip, b: BookingId, pin: PinId, matches: bool, now: Time)
    requires OneActivePin(s)
    ensures OneActivePin(TripApply(s, VerifyPinStep(b, pin, matches, now)))
  {
  }

  lemma OthersKeepPins(s: Trip, step: TripStep)
    requires !step.IssuePinStep? && !step.VerifyPinStep?
    ensures TripApply(s, step).pins == s.pins
  {
  }

  /** On every run a booking has at most one ACTIVE pin, so the newest one is the
      only one that can be verified. */
  lemma {:induction false} RunKeepsPins(s: Trip, steps: seq<TripStep>)
    requires OneActivePin(s)
    ensures OneActivePin(TripExec(s, steps))
    decreases |steps|
  {
    if steps != [] {
      match steps[0] {
        case IssuePinStep(b, pin, expiresAt, now) => IssueKeepsPins(s, b, pin, expiresAt, now);
        case VerifyPinStep(b, pin, matches, now) => VerifyKeepsPins(s, b, pin, matches, now);
        case _ => OthersKeepPins(s, steps[0]);
      }
      RunKeepsPins(TripApply(s, steps[0]), steps[1..]);
    }
  }

  /** A booking gets its first VERIFIED pin exactly when it is boarding, its
      passengers are on board, and its ACTIVE pin is not expired and matches. */
  lemma VerifiedExactly(s: Trip, b: BookingId, pin: PinId, matches: bool, now: Time)
    requires !HasVerifiedPin(s, b)
    ensures HasVerifiedPin(TripApply(s, VerifyPinStep(b, pin, matches, now)), b) <==>
              && s.status == TripBoarding && b in s.inv.bookings && s.inv.bookings[b].status == Boarding
              && IsBoarded(s.inv, b) && pin in s.pins && s.pins[pin].booking == b && s.pins[pin].status == PinActive
              && now < s.pins[pin].expiresAt && matches
  {
    var t := TripApply(s, VerifyPinStep(b, pin, matches, now));
    if VerifyPin(s, b, pin, matches, now).Committed? {
      assert t.pins[pin].status == PinVerified && t.pins[pin].booking == b;
    } else {
      assert t == s;
    }
  }

  // ----- what the guard gives -----

  lemma LeftBehind(inv: Inventory, t: Inventory)
    requires t.bookings == Departed(inv)
    ensures Unresolved(t) == Unresolved(inv) - Boarded(inv)
  {
    forall b ensures b in Unresolved(t) <==> b in Unresolved(inv) - Boarded(inv) {
      if b in inv.bookings { assert t.bookings[b] == Departed(inv)[b]; }
    }
  }

  /** Given the guard passed: nobody is left behind in BOARDING exactly when
      everyone on board was in BOARDING. */
  lemma NobodyLeftExactly(s: Trip)
    requires s.status == TripBoarding && StartTripOperation(s, false).Committed?
    ensures Unresolved(StartTripOperation(s, false).state.inv) == {} <==> Sub(s.inv)
  {
    var unresolved, boarded := Unresolved(s.inv), Boarded(s.inv);
    var t := StartTripOperation(s, false).state;
    LeftBehind(s.inv, t.inv);
    if Sub(s.inv) { SubsetCardinality(boarded, unresolved); }
    if unresolved - boarded == {} {
      assert forall b | b in unresolved :: b in boarded || b in unresolved - boarded;
      SubsetCardinality(unresolved, boarded);
      assert forall b | b in s.inv.bookings && IsBoarded(s.inv, b) :: b in boarded;
    }
  }

  lemma PinsOfAll(s: Trip)
    requires s.status == TripBoarding && StartTripOperation(s, false).Committed?
    ensures forall b | b in Boarded(s.inv) :: HasVerifiedPin(s, b)
  {
    SubsetCardinality(WithVerifiedPin(s), Boarded(s.inv));
    if Boarded(s.inv) != {} {
      assert WithVerifiedPin(s) == Boarded(s.inv);
      assert forall b | b in Boarded(s.inv) :: b in WithVerifiedPin(s);
    }
  }

  /** A trip started without the override, on a run without withdrawals: every
      booking in BOARDING was on board with a VERIFIED pin, all of them departed,
      and none is left in BOARDING. */
  lemma StartIsComplete(published: Trip, steps: seq<TripStep>)
    requires GuardOk(published) && TripRun(published, steps) && WithoutWithdrawals(published, steps)
    requires TripExec(published, steps).status == TripBoarding
    requires StartTripOperation(TripExec(published, steps), false).Committed?
    ensures var s := TripExec(published, steps);
            var t := StartTripOperation(s, false).state;
            && t.status == TripInProgress && Unresolved(t.inv) == {}
            && (forall b | b in Unresolved(s.inv) ::
                  IsBoarded(s.inv, b) && HasVerifiedPin(s, b) && t.inv.bookings[b].status == InProgress)
            && (forall b | b in s.inv.bookings && b !in Unresolved(s.inv) :: t.inv.bookings[b] == s.inv.bookings[b])
  {
    RunKeepsGuard(published, steps);
    var s := TripExec(published, steps);
    NobodyLeftExactly(s);
    PinsOfAll(s);
    EqualCountsAreEqualSets(s);
  }

  lemma EqualCountsAreEqualSets(s: Trip)
    requires s.status == TripBoarding && Sub(s.inv) && StartTripOperation(s, false).Committed?
    ensures Unresolved(s.inv) == Boarded(s.inv)
  {
    SubsetCardinality(Boarded(s.inv), Unresolved(s.inv));
  }

  /** One withdrawal fools the guard: with b on board, verified and cancelled,
      and c still waiting, the numbers agree, the trip starts, and c stays behind
      in BOARDING. */
  lemma WithdrawalFoolsTheGuard(s: Trip, b: BookingId, c: BookingId, user: UserId)
    requires GuardOk(s) && s.status == TripBoarding && b != c
    requires Unresolved(s.inv) == {b, c} && Boarded(s.inv) == {b} && HasVerifiedPin(s, b)
    ensures var u := TripApply(s, SeatStep(CancelStep(b, user, Driver)));
            && StartTripOperation(u, false).Committed?
            && Unresolved(StartTripOperation(u, false).state.inv) == {c}
  {
    assert b in Unresolved(s.inv);
    var u := s.(inv := Apply(s.inv, CancelStep(b, user, Driver)));
    CancelledLeavesUnresolved(s.inv, b, user);
    BoardedAfterCancel(s.inv, b, user);
    VerifiedAfterCancel(s, u, b);
    GuardPasses(u, b, c);
  }

  lemma GuardPasses(u: Trip, b: BookingId, c: BookingId)
    requires u.status == TripBoarding && b != c
    requires Unresolved(u.inv) == {c} && Boarded(u.inv) == {b} && WithVerifiedPin(u) == {b}
    ensures StartTripOperation(u, false).Committed? && Unresolved(StartTripOperation(u, false).state.inv) == {c}
  {
    LeftBehind(u.inv, StartTripOperation(u, false).state.inv);
  }

  lemma CancelledLeavesUnresolved(s: Inventory, b: BookingId, user: UserId)
    requires b in Unresolved(s)
    ensures Unresolved(Apply(s, CancelStep(b, user, Driver))) == Unresolved(s) - {b}
  {
  }

  lemma BoardedAfterCancel(s: Inventory, b: BookingId, user: UserId)
    requires Ready(s)
    ensures Boarded(Apply(s, CancelStep(b, user, Driver))) == Boarded(s)
  {
    var t := Apply(s, CancelStep(b, user, Driver));
    CancelStepKeeps(s, CancelStep(b, user, Driver));
    forall c ensures IsBoarded(t, c) <==> IsBoarded(s, c) { KeptBoarded(s, t, c); }
  }

  lemma VerifiedAfterCancel(s: Trip, u: Trip, b: BookingId)
    requires HasVerifiedPin(s, b) && u.pins == s.pins && Boarded(u.inv) == {b}
    ensures WithVerifiedPin(u) == {b}
  {
    assert b in Boarded(u.inv);
    var p :| p in s.pins && s.pins[p].booking == b && s.pins[p].status == PinVerified;
    assert p in u.pins;
  }
}
