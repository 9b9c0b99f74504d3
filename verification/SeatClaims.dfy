/** What holds on every run of a trip, with every payment and the operational
    cancellation: a seat is claimed by one booking at most, and the counter and
    the sold rows move together but for no-shows and payments on hold. */
module SeatClaims {
  import opened Tables
  import opened SeatInventory
  import opened SeatSafety
  import opened TripOps
  import opened TripSafety

  // ----- one claim per seat -----

  predicate Claiming(row: RowStatus) {
    row == RowHeld || row == RowBooked || row == RowOccupied
  }

  predicate ClaimsSeat(s: Inventory, k: RowKey) {
    k in s.rows && Claiming(s.rows[k])
  }

  /** A seat is held by, sold to or occupied by one booking at most. */
  ghost predicate OneClaim(s: Inventory) {
    forall k, l | ClaimsSeat(s, k) && ClaimsSeat(s, l) && k.seat == l.seat :: k == l
  }

  ghost predicate ClaimsShrink(s: Inventory, t: Inventory) {
    forall k | ClaimsSeat(t, k) :: ClaimsSeat(s, k)
  }

  lemma ReleaseShrinks(s: Inventory, read: HoldRead, status: HoldStatus)
    ensures ClaimsShrink(s, ReleaseHold(s, read, status))
  {
  }

  lemma {:induction false} SweepShrinks(s: Inventory, batch: seq<HoldRead>, copyExpiry: bool)
    ensures ClaimsShrink(s, Sweep(s, batch, copyExpiry))
    decreases |batch|
  {
    if batch != [] {
      ReleaseShrinks(s, batch[0], HoldExpired);
      SweepShrinks(ExpireHold(s, batch[0], copyExpiry), batch[1..], copyExpiry);
    }
  }

  /** Only the creation of a hold adds a claim. */
  lemma SeatStepShrinks(s: Inventory, step: Step)
    requires step.CreateHoldStep? ==> step.found != Bookable
    ensures ClaimsShrink(s, Apply(s, step))
  {
    match step
    case CreateHoldStep(_, _, _, _, _, sweep, _) => SweepShrinks(s, sweep, true);
    case ConfirmStep(_, _, _, _, _, _) =>
    case ReleaseStep(h, _, read) => ReleaseShrinks(s, HoldRead(h, read), HoldReleased);
    case SweepStep(sweep, _) => SweepShrinks(s, sweep, true);
    case WorkerExpireStep(overdue, _) => ReleaseShrinks(s, overdue, HoldExpired);
    case CancelStep(_, _, _) =>
    case PaymentSucceededStep(_) =>
    case PaymentExpiredStep(_, first) =>
      if first.Some? && first.value in s.holds {
        ReleaseShrinks(s, HoldRead(first.value, s.holds[first.value]), HoldExpired);
      }
    case PaymentStartedStep(_, _) =>
    case ApproveStep(_) =>
  }

  lemma TripStepShrinks(s: Trip, step: TripStep)
    requires !step.SeatStep?
    ensures ClaimsShrink(s.inv, TripApply(s, step).inv)
  {
  }

  lemma ValidHasOneClaim(s: Inventory)
    requires Valid(s)
    ensures OneClaim(s)
  {
    SoldOnce(s);
    forall k | ClaimsSeat(s, k) ensures Live(s.rows[k]) {
      var h :| Covers(s, h, k.seat) && RowAt(s, h, k.seat) == k;
      assert CellOk(s, h, k.seat);
    }
  }

  /** Holds are only created before boarding, where the full invariant holds. */
  ghost predicate ClaimsOk(s: Trip) {
    OneClaim(s.inv) && (BeforeBoarding(s.status) ==> Valid(s.inv))
  }

  lemma EarlyStep(s: Trip, step: TripStep)
    requires !step.SeatStep? && BeforeBoarding(TripApply(s, step).status)
    ensures BeforeBoarding(s.status) && TripApply(s, step).inv == s.inv
  {
  }

  lemma SeatStepKeepsClaims(s: Trip, step: Step)
    requires ClaimsOk(s) && TripEnabled(s, SeatStep(step))
    ensures ClaimsOk(s.(inv := Apply(s.inv, step)))
  {
    if BeforeBoarding(s.status) {
      StepKeepsValid(s.inv, step);
      ValidHasOneClaim(Apply(s.inv, step));
    } else {
      SeatStepShrinks(s.inv, step);
    }
  }

  lemma TripStepKeepsClaims(s: Trip, step: TripStep)
    requires ClaimsOk(s) && TripEnabled(s, step)
    ensures ClaimsOk(TripApply(s, step))
  {
    if step.SeatStep? {
      SeatStepKeepsClaims(s, step.step);
    } else {
      TripStepShrinks(s, step);
      if BeforeBoarding(TripApply(s, step).status) { EarlyStep(s, step); }
    }
  }

  lemma {:induction false} RunKeepsClaims(s: Trip, steps: seq<TripStep>)
    requires ClaimsOk(s) && TripRun(s, steps)
    ensures ClaimsOk(TripExec(s, steps))
    decreases |steps|
  {
    if steps != [] {
      TripStepKeepsClaims(s, steps[0]);
      RunKeepsClaims(TripApply(s, steps[0]), steps[1..]);
    }
  }

  /** From publication on, on every run whatever: holds, payments, boarding,
      no-shows, cancellations of bookings and of the trip, no seat is held by, sold
      to or occupied by two bookings. */
  lemma NoSeatIsEverSoldTwice(capacity: nat, steps: seq<TripStep>)
    requires 1 <= capacity
    requires TripRun(PublishedTrip(capacity), steps)
    ensures OneClaim(TripExec(PublishedTrip(capacity), steps).inv)
  {
    PublishedIsValid(capacity);
    ValidHasOneClaim(Publish(capacity));
    RunKeepsClaims(PublishedTrip(capacity), steps);
  }

  // ----- the counter and the sold rows -----

  ghost function SoldRows(s: Inventory): set<RowKey> {
    set k | k in s.rows && Sold(s.rows[k])
  }

  ghost function RowsOf(s: Inventory, b: BookingId, row: RowStatus): set<RowKey> {
    set k | k in s.rows && k.booking == b && s.rows[k] == row
  }

  /** The places that are neither counted as available nor sold. */
  ghost function RowSlack(s: Inventory): int {
    s.capacity - |SoldRows(s)| - s.availableSeatCount
  }

  lemma Removed<T>(all: set<T>, gone: set<T>)
    requires gone <= all
    ensures |all - gone| == |all| - |gone|
  {
    assert all == (all - gone) + gone;
  }

  lemma Added<T>(all: set<T>, more: set<T>)
    requires all !! more
    ensures |all + more| == |all| + |more|
  {
  }

  lemma ReleaseKeepsRowSlack(s: Inventory, read: HoldRead, status: HoldStatus)
    ensures RowSlack(ReleaseHold(s, read, status)) == RowSlack(s)
  {
    assert SoldRows(ReleaseHold(s, read, status)) == SoldRows(s);
  }

  lemma {:induction false} SweepKeepsRowSlack(s: Inventory, batch: seq<HoldRead>, copyExpiry: bool)
    ensures RowSlack(Sweep(s, batch, copyExpiry)) == RowSlack(s)
    decreases |batch|
  {
    if batch != [] {
      ReleaseKeepsRowSlack(s, batch[0], HoldExpired);
      var t := ExpireHold(s, batch[0], copyExpiry);
      assert SoldRows(t) == SoldRows(ReleaseHold(s, batch[0], HoldExpired));
      SweepKeepsRowSlack(t, batch[1..], copyExpiry);
    }
  }

  lemma PlaceKeepsSoldRows(s: Inventory, h: HoldId, b: BookingId, request: HoldRequest, items: set<SeatKey>, expiresAt: Time)
    requires Linked(s) && b !in s.bookings
    ensures SoldRows(PlaceHold(s, h, b, request, items, expiresAt)) == SoldRows(s)
  {
  }

  lemma TakeKeepsRowSlack(s: Inventory, h: HoldId, b: BookingId, request: HoldRequest, expiresAt: Time)
    requires Linked(s) && TakeSeats(s, h, b, request, expiresAt).Committed?
    ensures RowSlack(TakeSeats(s, h, b, request, expiresAt).state) == RowSlack(s)
  {
    var t := WithAllSeats(s);
    MoreSeatsSameRows(s);
    PlaceKeepsSoldRows(t, h, b, request, RequestedKeys(t, request), expiresAt);
  }

  lemma MoreSeatsSameRows(s: Inventory)
    requires Linked(s)
    ensures SoldRows(WithAllSeats(s)) == SoldRows(s) && Linked(WithAllSeats(s))
  {
  }

  lemma CreateHoldKeepsRowSlack(s: Inventory, h: HoldId, b: BookingId, request: HoldRequest, expiresAt: Time,
                                found: HoldLookup, sweep: seq<HoldRead>)
    requires Ready(s) && AllPossible(s, sweep) && CreateHold(s, h, b, request, expiresAt, found, sweep).Committed?
    ensures RowSlack(CreateHold(s, h, b, request, expiresAt, found, sweep).state) == RowSlack(s)
  {
    SweepKeepsRowSlack(s, sweep, true);
    SweepKeeps(s, sweep, true);
    if found == Bookable { TakeKeepsRowSlack(Sweep(s, sweep, true), h, b, request, expiresAt); }
  }

  lemma CreateKeepsRowSlack(s: Inventory, step: Step)
    requires Ready(s) && Enabled(s, step) && step.CreateHoldStep?
    ensures RowSlack(Apply(s, step)) == RowSlack(s)
  {
    BatchPossible(s, step.sweep, step.now);
    if Attempt(s, step).Committed? {
      CreateHoldKeepsRowSlack(s, step.h, step.b, step.request, step.expiresAt, step.found, step.sweep);
    }
  }

  lemma KeysOfSeats(b: BookingId, ids: set<SeatKey>)
    ensures |set x | x in ids :: RowKey(b, x)| == |ids|
    decreases |ids|
  {
    if ids != {} {
      var x :| x in ids;
      var rest := ids - {x};
      KeysOfSeats(b, rest);
      assert (set y | y in ids :: RowKey(b, y)) == (set y | y in rest :: RowKey(b, y)) + {RowKey(b, x)};
    } else {
      assert (set y | y in ids :: RowKey(b, y)) == {};
    }
  }

  lemma ConfirmedRows(s: Inventory, h: HoldId, read: Hold)
    requires h in s.holds && forall x | x in read.items :: RowKey(read.booking, x) in s.rows && s.rows[RowKey(read.booking, x)] == RowHeld
    ensures |SoldRows(BookHold(s, h, read))| == |SoldRows(s)| + |read.items|
  {
    var more := set x | x in read.items :: RowKey(read.booking, x);
    assert forall x | x in read.items :: RowKey(read.booking, x).seat == x;
    assert SoldRows(BookHold(s, h, read)) == SoldRows(s) + more;
    KeysOfSeats(read.booking, read.items);
    Added(SoldRows(s), more);
  }

  lemma ConfirmKeepsRowSlack(s: Inventory, step: Step)
    requires Enabled(s, step) && step.ConfirmStep?
    ensures RowSlack(Apply(s, step)) == RowSlack(s)
  {
    var read := step.read;
    if Attempt(s, step).Committed? && !AlreadyConfirmed(read, step.readBooking) {
      AllRowsCounted(s, read);
      ConfirmedRows(s, step.h, read);
    }
  }

  lemma AllRowsCounted(s: Inventory, read: Hold)
    requires CountsMatch(s, read)
    ensures forall x | x in read.items :: RowKey(read.booking, x) in s.rows && s.rows[RowKey(read.booking, x)] == RowHeld
  {
    var counted := set x | x in read.items && RowKey(read.booking, x) in s.rows && s.rows[RowKey(read.booking, x)] == RowHeld;
    SubsetCardinality(counted, read.items);
    assert forall x | x in read.items :: x in counted;
  }

  lemma BookedRowsAreRows(s: Inventory, b: BookingId)
    ensures |BookedRows(s, b)| == |RowsOf(s, b, RowBooked)|
  {
    var ids := BookedRows(s, b);
    forall k ensures k in RowsOf(s, b, RowBooked) <==> k in (set x | x in ids :: RowKey(b, x)) {
      if k in RowsOf(s, b, RowBooked) { assert k.seat in ids && k == RowKey(b, k.seat); }
    }
    assert RowsOf(s, b, RowBooked) == set x | x in ids :: RowKey(b, x);
    KeysOfSeats(b, ids);
  }

  lemma CancelKeepsRowSlack(s: Inventory, b: BookingId, user: UserId, role: Role)
    requires CancelBooking(s, b, user, role).Committed?
    ensures RowSlack(CancelBooking(s, b, user, role).state) == RowSlack(s)
  {
    if !ClosedForCancel(s.bookings[b].status) {
      BookedRowsAreRows(s, b);
      WithdrawRemovesRows(s, b, LiveSeats(s, b), |BookedRows(s, b)|, role);
    }
  }

  lemma WithdrawRemovesRows(s: Inventory, b: BookingId, live: set<SeatKey>, booked: nat, role: Role)
    ensures |SoldRows(Withdraw(s, b, live, booked, role))| == |SoldRows(s)| - |RowsOf(s, b, RowBooked)|
  {
    assert SoldRows(Withdraw(s, b, live, booked, role)) == SoldRows(s) - RowsOf(s, b, RowBooked);
    Removed(SoldRows(s), RowsOf(s, b, RowBooked));
  }

  lemma PaymentTakesSlack(s: Inventory, b: BookingId)
    ensures RowSlack(PaymentSucceeded(s, b)) == RowSlack(s) - |RowsOf(s, b, RowHeld)|
  {
    assert SoldRows(PaymentSucceeded(s, b)) == SoldRows(s) + RowsOf(s, b, RowHeld);
    Added(SoldRows(s), RowsOf(s, b, RowHeld));
  }

  lemma PaymentExpiredKeepsRowSlack(s: Inventory, b: BookingId, first: Option<HoldId>)
    ensures RowSlack(PaymentExpired(s, b, first)) == RowSlack(s)
  {
    if first.Some? && first.value in s.holds {
      ReleaseKeepsRowSlack(s, HoldRead(first.value, s.holds[first.value]), HoldExpired);
    }
    assert SoldRows(PaymentExpired(s, b, first)) == SoldRows(ReleaseFirst(s, first));
  }

  lemma ReleaseStepKeepsRowSlack(s: Inventory, step: Step)
    requires step.ReleaseStep?
    ensures RowSlack(Apply(s, step)) == RowSlack(s)
  {
    var read := HoldRead(step.h, step.read);
    ReleaseKeepsRowSlack(s, read, HoldReleased);
    assert Apply(s, step) == s || SoldRows(Apply(s, step)) == SoldRows(ReleaseHold(s, read, HoldReleased));
  }

  lemma ExpireStepKeepsRowSlack(s: Inventory, read: HoldRead)
    ensures RowSlack(ExpireHold(s, read, false)) == RowSlack(s)
  {
    ReleaseKeepsRowSlack(s, read, HoldExpired);
    assert SoldRows(ExpireHold(s, read, false)) == SoldRows(ReleaseHold(s, read, HoldExpired));
  }

  /** The rows a step sells without counting them out: those of a payment that
      succeeds while its hold is ACTIVE. */
  ghost function SoldUncounted(s: Trip, step: TripStep): nat {
    if step.SeatStep? && step.step.PaymentSucceededStep? then |RowsOf(s.inv, step.step.b, RowHeld)| else 0
  }

  /** The sold rows a step gives up without counting them back: those of a no-show. */
  ghost function GivenUpUncounted(s: Trip, step: TripStep): nat {
    if step.NoShowStep? && TripAttempt(s, step).Committed?
    then |RowsOf(s.inv, step.b, RowBooked)| + |RowsOf(s.inv, step.b, RowOccupied)| else 0
  }

  lemma SeatStepCounts(s: Trip, step: Step)
    requires Ready(s.inv) && Enabled(s.inv, step)
    ensures RowSlack(Apply(s.inv, step)) == RowSlack(s.inv) - SoldUncounted(s, SeatStep(step))
  {
    match step
    case CreateHoldStep(_, _, _, _, _, _, _) => CreateKeepsRowSlack(s.inv, step);
    case ConfirmStep(_, _, _, _, _, _) => ConfirmKeepsRowSlack(s.inv, step);
    case ReleaseStep(_, _, _) => ReleaseStepKeepsRowSlack(s.inv, step);
    case SweepStep(sweep, _) => SweepKeepsRowSlack(s.inv, sweep, true);
    case WorkerExpireStep(overdue, _) => ExpireStepKeepsRowSlack(s.inv, overdue);
    case CancelStep(b, user, role) =>
      if Attempt(s.inv, step).Committed? { CancelKeepsRowSlack(s.inv, b, user, role); }
    case PaymentSucceededStep(b) => PaymentTakesSlack(s.inv, b);
    case PaymentExpiredStep(b, first) => PaymentExpiredKeepsRowSlack(s.inv, b, first);
    case PaymentStartedStep(_, _) => assert SoldRows(Apply(s.inv, step)) == SoldRows(s.inv);
    case ApproveStep(_) => assert SoldRows(Apply(s.inv, step)) == SoldRows(s.inv);
  }

  lemma BoardKeepsSoldRows(s: Inventory, b: BookingId)
    ensures SoldRows(Board(s, b)) == SoldRows(s)
  {
  }

  lemma LeaveGivesUpRows(s: Inventory, b: BookingId)
    ensures |SoldRows(Leave(s, b))| == |SoldRows(s)| - |RowsOf(s, b, RowBooked)| - |RowsOf(s, b, RowOccupied)|
  {
    LeaveRows(s, b);
    Added(RowsOf(s, b, RowBooked), RowsOf(s, b, RowOccupied));
    Removed(SoldRows(s), SoldRowsOf(s, b));
  }

  ghost function SoldRowsOf(s: Inventory, b: BookingId): set<RowKey> {
    set k | k in s.rows && k.booking == b && Sold(s.rows[k])
  }

  lemma LeaveRows(s: Inventory, b: BookingId)
    ensures SoldRows(Leave(s, b)) == SoldRows(s) - SoldRowsOf(s, b)
    ensures SoldRowsOf(s, b) == RowsOf(s, b, RowBooked) + RowsOf(s, b, RowOccupied)
  {
    var rows := map k | k in s.rows :: if k.booking == b then RowReleased else s.rows[k];
    assert Leave(s, b).rows == rows;
  }

  lemma OtherStepCounts(s: Trip, step: TripStep)
    requires !step.SeatStep? && !step.BoardStep? && !step.NoShowStep?
    ensures RowSlack(TripApply(s, step).inv) == RowSlack(s.inv)
  {
    assert TripApply(s, step).inv.rows == s.inv.rows;
    assert SoldRows(TripApply(s, step).inv) == SoldRows(s.inv);
  }

  /** Every step, of every kind, moves the counter with the sold rows, but for
      exactly the rows sold by a payment on hold and given up by a no-show. */
  lemma StepCountsExactly(s: Trip, step: TripStep)
    requires Ready(s.inv) && TripEnabled(s, step)
    ensures RowSlack(TripApply(s, step).inv) == RowSlack(s.inv) - SoldUncounted(s, step) + GivenUpUncounted(s, step)
  {
    match step
    case SeatStep(seatStep) => SeatStepCounts(s, seatStep);
    case BoardStep(b, _, _) => BoardKeepsSoldRows(s.inv, b);
    case NoShowStep(b) => LeaveGivesUpRows(s.inv, b);
    case _ => OtherStepCounts(s, step);
  }

  ghost function UncountedSales(s: Trip, steps: seq<TripStep>): nat
    decreases |steps|
  {
    if steps == [] then 0
    else SoldUncounted(s, steps[0]) + UncountedSales(TripApply(s, steps[0]), steps[1..])
  }

  ghost function UncountedReturns(s: Trip, steps: seq<TripStep>): nat
    decreases |steps|
  {
    if steps == [] then 0
    else GivenUpUncounted(s, steps[0]) + UncountedReturns(TripApply(s, steps[0]), steps[1..])
  }

  lemma {:induction false} RunCounts(s: Trip, steps: seq<TripStep>)
    requires Ready(s.inv) && TripRun(s, steps)
    ensures RowSlack(TripExec(s, steps).inv) == RowSlack(s.inv) - UncountedSales(s, steps) + UncountedReturns(s, steps)
    decreases |steps|
  {
    if steps != [] {
      StepCountsExactly(s, steps[0]);
      TripStepKeepsReady(s, steps[0]);
      RunCounts(TripApply(s, steps[0]), steps[1..]);
    }
  }

  /** On every run whatever from publication: the counter and the sold rows add up
      to the capacity, plus what payments sold on hold, less what no-shows gave
      up. */
  lemma CounterOnEveryRun(capacity: nat, steps: seq<TripStep>)
    requires 1 <= capacity
    requires TripRun(PublishedTrip(capacity), steps)
    ensures var published := PublishedTrip(capacity);
            var s := TripExec(published, steps).inv;
            s.availableSeatCount + |SoldRows(s)| == s.capacity + UncountedSales(published, steps) - UncountedReturns(published, steps)
  {
    var published := PublishedTrip(capacity);
    PublishedTripIsOk(capacity);
    assert SoldRows(published.inv) == {};
    RunCounts(published, steps);
  }
}
