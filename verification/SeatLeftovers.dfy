/** Closed bookings that keep seats: the one transaction that leaves one, the run
    that leads there, and that no later seat transaction gives the seats back. */
module SeatLeftovers {
  import opened Tables
  import opened SeatInventory
  import opened SeatSafety
  import opened SeatLaws

  /** The booking is EXPIRED with a seat sold to it, and no ACTIVE hold is left
      that some release could still find. */
  ghost predicate Leftover(s: Inventory, k: RowKey) {
    && k in s.rows && s.rows[k] == RowBooked
    && k.booking in s.bookings && s.bookings[k.booking].status == Expired
    && forall h | h in s.holds :: !IsActiveHoldOf(s, h, k.booking)
  }

  // ----- when the expiry of a payment leaves one -----

  lemma ReleasedRows(s: Inventory, h: HoldId)
    requires Valid(s) && h in s.holds && s.holds[h].status == HoldActive
    ensures BookedRows(s, s.holds[h].booking) == {}
    ensures LiveSeats(ReleaseFirst(s, Some(h)), s.holds[h].booking) == {}
  {
    var b, t := s.holds[h].booking, ReleaseFirst(s, Some(h));
    forall k | k in s.rows && k.booking == b ensures s.rows[k] == RowHeld && t.rows[k] == RowReleased {
      RowOfHold(s, h, k);
    }
  }

  lemma LiveWithoutHold(s: Inventory, b: BookingId)
    requires Valid(s) && forall h | h in s.holds :: !IsActiveHoldOf(s, h, b)
    ensures LiveSeats(s, b) == BookedRows(s, b)
  {
    SoldOnce(s);
    forall k | k in s.rows && k.booking == b && Live(s.rows[k]) ensures s.rows[k] == RowBooked {
    }
  }

  lemma ExpiredStatus(s: Inventory, b: BookingId, first: Option<HoldId>)
    requires b in s.bookings
    ensures var t := PaymentExpired(s, b, first);
            b in t.bookings && (t.bookings[b].status == Expired <==> s.bookings[b].status in {PaymentPending, Expired})
  {
  }

  /** The expiry of a payment leaves an EXPIRED booking with live rows exactly when
      the booking was waiting for this payment (or EXPIRED before) and had seats
      sold to it already. */
  lemma ExpiryLeavesSeatsExactly(s: Inventory, b: BookingId, first: Option<HoldId>)
    requires Valid(s) && Enabled(s, PaymentExpiredStep(b, first)) && b in s.bookings
    ensures var t := PaymentExpired(s, b, first);
            && b in t.bookings
            && (t.bookings[b].status == Expired && LiveSeats(t, b) != {}
                <==> s.bookings[b].status in {PaymentPending, Expired} && BookedRows(s, b) != {})
  {
    ExpiredStatus(s, b, first);
    if first.Some? { ReleasedRows(s, first.value); } else { LiveWithoutHold(s, b); }
    assert PaymentExpired(s, b, first).rows == ReleaseFirst(s, first).rows;
  }

  // ----- the run -----

  /** A client who confirmed a hold creates an online payment for the booking and
      does not pay. The worker expires the payment and with it the booking; the
      seats stay sold, and a cancellation by anyone is answered without effect. */
  lemma UnpaidConfirmedBooking(s: Inventory, k: RowKey, user: UserId, role: Role)
    requires Valid(s) && k in s.rows && s.rows[k] == RowBooked
    requires k.booking in s.bookings && !ClosedForCancel(s.bookings[k.booking].status)
    requires role == Client ==> user == s.bookings[k.booking].client
    ensures var b := k.booking;
            var t := Apply(Apply(s, PaymentStartedStep(b, true)), PaymentExpiredStep(b, None));
            && Enabled(Apply(s, PaymentStartedStep(b, true)), PaymentExpiredStep(b, None))
            && Leftover(t, k) && t.seats == s.seats && t.rows == s.rows && t.availableSeatCount == s.availableSeatCount
            && CancelBooking(t, b, user, role) == Committed(t)
  {
    NoActiveHoldBesideSoldRow(s, k);
    OnlineStart(s, k.booking);
    UnpaidStart(Apply(s, PaymentStartedStep(k.booking, true)), k.booking);
  }

  lemma OnlineStart(s: Inventory, b: BookingId)
    requires b in s.bookings && !ClosedForCancel(s.bookings[b].status)
    ensures var t := Apply(s, PaymentStartedStep(b, true));
            && t == s.(bookings := t.bookings)
            && b in t.bookings && t.bookings[b] == s.bookings[b].(status := PaymentPending)
  {
  }

  lemma UnpaidStart(s: Inventory, b: BookingId)
    requires b in s.bookings && s.bookings[b].status == PaymentPending
    ensures var t := Apply(s, PaymentExpiredStep(b, None));
            && t == s.(bookings := t.bookings)
            && b in t.bookings && t.bookings[b] == s.bookings[b].(status := Expired)
  {
  }

  lemma NoActiveHoldBesideSoldRow(s: Inventory, k: RowKey)
    requires Valid(s) && k in s.rows && s.rows[k] == RowBooked
    ensures forall h | h in s.holds :: !IsActiveHoldOf(s, h, k.booking)
  {
    forall h | h in s.holds ensures !IsActiveHoldOf(s, h, k.booking) {
      if IsActiveHoldOf(s, h, k.booking) { RowOfHold(s, h, k); }
    }
  }

  // ----- afterwards -----

  /** What transactions on other bookings leave of a booking's rows and status, with
      no hold becoming ACTIVE for it. */
  ghost predicate Untouched(s: Inventory, t: Inventory, b: BookingId) {
    && (forall k: RowKey | k.booking == b ::
          && (k in t.rows <==> k in s.rows)
          && (k in s.rows ==> t.rows[k] == s.rows[k]))
    && (b in t.bookings <==> b in s.bookings)
    && (b in s.bookings ==> t.bookings[b].status == s.bookings[b].status)
    && (forall h | h in t.holds && IsActiveHoldOf(t, h, b) :: IsActiveHoldOf(s, h, b))
  }

  lemma UntouchedKeepsLeftover(s: Inventory, t: Inventory, k: RowKey)
    requires Leftover(s, k) && Untouched(s, t, k.booking)
    ensures Leftover(t, k)
  {
  }

  lemma ExpireOther(s: Inventory, read: HoldRead, copyExpiry: bool, b: BookingId)
    requires read.hold.booking != b
    ensures Untouched(s, ExpireHold(s, read, copyExpiry), b)
  {
  }

  lemma {:induction false} SweepOthers(s: Inventory, batch: seq<HoldRead>, b: BookingId)
    requires forall i | 0 <= i < |batch| :: batch[i].hold.booking != b
    ensures Untouched(s, Sweep(s, batch, true), b)
    decreases |batch|
  {
    if batch != [] {
      ExpireOther(s, batch[0], true, b);
      SweepOthers(ExpireHold(s, batch[0], true), batch[1..], b);
    }
  }

  lemma OverdueAreOthers(s: Inventory, batch: seq<HoldRead>, now: Time, b: BookingId)
    requires OverdueBatch(s, batch, now) && forall h | h in s.holds :: !IsActiveHoldOf(s, h, b)
    ensures forall i | 0 <= i < |batch| :: batch[i].hold.booking != b
  {
    forall i | 0 <= i < |batch| ensures batch[i].hold.booking != b {
      assert Overdue(s, batch[i].id, now) && !IsActiveHoldOf(s, batch[i].id, b);
    }
  }

  lemma PlaceOther(s: Inventory, t: Inventory, h: HoldId, n: BookingId, request: HoldRequest, items: set<SeatKey>,
                   expiresAt: Time, b: BookingId)
    requires t == s.(seats := t.seats) && b != n && h !in s.holds
    ensures Untouched(s, PlaceHold(t, h, n, request, items, expiresAt), b)
  {
  }

  lemma TakeOthers(s: Inventory, h: HoldId, n: BookingId, request: HoldRequest, expiresAt: Time, b: BookingId)
    requires b in s.bookings
    ensures var r := TakeSeats(s, h, n, request, expiresAt); r.Committed? ==> Untouched(s, r.state, b)
  {
    var t := WithAllSeats(s);
    if b != n && h !in s.holds { PlaceOther(s, t, h, n, request, RequestedKeys(t, request), expiresAt, b); }
  }

  lemma CreateKeepsLeftover(s: Inventory, step: Step, k: RowKey)
    requires Leftover(s, k) && Enabled(s, step) && step.CreateHoldStep?
    ensures Leftover(Apply(s, step), k)
  {
    var t := Sweep(s, step.sweep, true);
    OverdueAreOthers(s, step.sweep, step.now, k.booking);
    SweepOthers(s, step.sweep, k.booking);
    UntouchedKeepsLeftover(s, t, k);
    TakeOthers(t, step.h, step.b, step.request, step.expiresAt, k.booking);
  }

  lemma ConfirmKeepsLeftover(s: Inventory, step: Step, k: RowKey)
    requires Valid(s) && Leftover(s, k) && Enabled(s, step) && step.ConfirmStep?
    ensures Leftover(Apply(s, step), k)
  {
    CountsMatchIffActive(s, step.h, step.read);
    assert !IsActiveHoldOf(s, step.h, k.booking);
    ConfirmOfOther(s, step, k.booking);
    UntouchedKeepsLeftover(s, Apply(s, step), k);
  }

  lemma ConfirmOfOther(s: Inventory, step: Step, b: BookingId)
    requires step.ConfirmStep? && (CountsMatch(s, step.read) ==> step.read.booking != b)
    ensures Untouched(s, Apply(s, step), b)
  {
    if Attempt(s, step).Committed? && !AlreadyConfirmed(step.read, step.readBooking) {
      BookOther(s, step.h, step.read, b);
    }
  }

  lemma BookOther(s: Inventory, h: HoldId, read: Hold, b: BookingId)
    requires h in s.holds && read.booking != b
    ensures Untouched(s, BookHold(s, h, read), b)
  {
  }

  lemma ReleaseKeepsLeftover(s: Inventory, step: Step, k: RowKey)
    requires Leftover(s, k) && Enabled(s, step) && (step.ReleaseStep? || step.WorkerExpireStep?)
    ensures Leftover(Apply(s, step), k)
  {
  }

  lemma PaymentKeepsLeftover(s: Inventory, step: Step, k: RowKey)
    requires Leftover(s, k) && Enabled(s, step)
    requires step.PaymentSucceededStep? || step.PaymentExpiredStep? || step.PaymentStartedStep? || step.ApproveStep?
    ensures Leftover(Apply(s, step), k)
  {
  }

  lemma CancelKeepsLeftover(s: Inventory, step: Step, k: RowKey)
    requires Leftover(s, k) && step.CancelStep?
    ensures Leftover(Apply(s, step), k)
  {
  }

  lemma SweepKeepsLeftover(s: Inventory, step: Step, k: RowKey)
    requires Leftover(s, k) && Enabled(s, step) && step.SweepStep?
    ensures Leftover(Apply(s, step), k)
  {
    OverdueAreOthers(s, step.sweep, step.now, k.booking);
    SweepOthers(s, step.sweep, k.booking);
  }

  lemma StepKeepsLeftover(s: Inventory, step: Step, k: RowKey)
    requires Valid(s) && Leftover(s, k) && Enabled(s, step)
    ensures Leftover(Apply(s, step), k)
  {
    match step
    case CreateHoldStep(_, _, _, _, _, _, _) => CreateKeepsLeftover(s, step, k);
    case ConfirmStep(_, _, _, _, _, _) => ConfirmKeepsLeftover(s, step, k);
    case ReleaseStep(_, _, _) => ReleaseKeepsLeftover(s, step, k);
    case WorkerExpireStep(_, _) => ReleaseKeepsLeftover(s, step, k);
    case SweepStep(_, _) => SweepKeepsLeftover(s, step, k);
    case CancelStep(_, _, _) => CancelKeepsLeftover(s, step, k);
    case _ => PaymentKeepsLeftover(s, step, k);
  }

  lemma {:induction false} LeftoverStays(s: Inventory, steps: seq<Step>, k: RowKey)
    requires Valid(s) && Leftover(s, k) && Run(s, steps)
    ensures Valid(Exec(s, steps)) && Leftover(Exec(s, steps), k)
    decreases |steps|
  {
    if steps != [] {
      StepKeepsValid(s, steps[0]);
      StepKeepsLeftover(s, steps[0], k);
      LeftoverStays(Apply(s, steps[0]), steps[1..], k);
    }
  }

  /** No seat transaction ever gives such a seat back: on every run that follows,
      the booking stays EXPIRED and the seat stays sold to it, and so it is
      AVAILABLE to nobody. */
  lemma LeftoverSeatIsLost(s: Inventory, steps: seq<Step>, k: RowKey)
    requires Valid(s) && Leftover(s, k) && Run(s, steps)
    ensures var t := Exec(s, steps);
            && k in t.rows && t.rows[k] == RowBooked
            && k.booking in t.bookings && t.bookings[k.booking].status == Expired
            && k.seat in t.seats && Taken(t.seats[k.seat])
  {
    LeftoverStays(s, steps, k);
    BookingRowCell(Exec(s, steps), k);
  }

  // ----- every closed booking on every run -----

  /** If the booking is cancelled or EXPIRED, it has no live row. */
  ghost predicate Clean(s: Inventory, b: BookingId) {
    b in s.bookings && ClosedForCancel(s.bookings[b].status) ==> LiveSeats(s, b) == {}
  }

  /** The step expires an unpaid payment of a booking that has seats already. */
  ghost predicate Leaves(s: Inventory, step: Step, b: BookingId) {
    && step.PaymentExpiredStep? && step.b == b
    && b in s.bookings && s.bookings[b].status == PaymentPending && BookedRows(s, b) != {}
  }

  lemma UntouchedKeepsClean(s: Inventory, t: Inventory, b: BookingId)
    requires Untouched(s, t, b)
    ensures Clean(t, b) <==> Clean(s, b)
  {
    forall x ensures x in LiveSeats(t, b) <==> x in LiveSeats(s, b) {
      RowSeats(s, b, x);
      RowSeats(t, b, x);
    }
  }

  lemma ReleaseIsClean(s: Inventory, read: HoldRead, status: HoldStatus)
    requires Valid(s) && PossibleRead(s, read.id, read.hold) && Claims(s, read)
    ensures LiveSeats(ReleaseHold(s, read, status), read.hold.booking) == {}
  {
    forall k | k in s.rows && k.booking == read.hold.booking
      ensures s.rows[k] == RowHeld && ReleaseHold(s, read, status).rows[k] == RowReleased
    {
      RowOfHold(s, read.id, k);
    }
  }

  lemma SameRowsSameLive(s: Inventory, t: Inventory, b: BookingId)
    requires t.rows == s.rows
    ensures LiveSeats(t, b) == LiveSeats(s, b)
  {
  }

  lemma ExpiryIsClean(s: Inventory, read: HoldRead, copyExpiry: bool)
    requires Valid(s) && PossibleRead(s, read.id, read.hold) && Claims(s, read)
    ensures LiveSeats(ExpireHold(s, read, copyExpiry), read.hold.booking) == {}
  {
    ReleaseIsClean(s, read, HoldExpired);
    SameRowsSameLive(ReleaseHold(s, read, HoldExpired), ExpireHold(s, read, copyExpiry), read.hold.booking);
  }

  lemma ExpiryKeepsClean(s: Inventory, read: HoldRead, copyExpiry: bool, b: BookingId)
    requires Valid(s) && PossibleRead(s, read.id, read.hold) && Clean(s, b)
    ensures Clean(ExpireHold(s, read, copyExpiry), b)
  {
    if read.hold.booking != b {
      ExpireOther(s, read, copyExpiry, b);
      UntouchedKeepsClean(s, ExpireHold(s, read, copyExpiry), b);
    } else if Claims(s, read) {
      ExpiryIsClean(s, read, copyExpiry);
    }
  }

  lemma {:induction false} SweepKeepsClean(s: Inventory, batch: seq<HoldRead>, b: BookingId)
    requires Valid(s) && Clean(s, b)
    requires forall i | 0 <= i < |batch| :: PossibleRead(s, batch[i].id, batch[i].hold)
    ensures Clean(Sweep(s, batch, true), b)
    decreases |batch|
  {
    if batch != [] {
      var t := ExpireHold(s, batch[0], true);
      ExpireHoldKeepsValid(s, batch[0], true);
      ExpiryKeepsClean(s, batch[0], true, b);
      assert forall i | 0 <= i < |batch[1..]| :: batch[1..][i] == batch[i + 1];
      SweepKeepsClean(t, batch[1..], b);
    }
  }

  lemma OverdueIsPossible(s: Inventory, batch: seq<HoldRead>, now: Time)
    requires OverdueBatch(s, batch, now)
    ensures forall i | 0 <= i < |batch| :: PossibleRead(s, batch[i].id, batch[i].hold)
  {
    forall i | 0 <= i < |batch| ensures PossibleRead(s, batch[i].id, batch[i].hold) {
      assert Overdue(s, batch[i].id, now);
    }
  }

  lemma CreateKeepsClean(s: Inventory, step: Step, b: BookingId)
    requires Valid(s) && Enabled(s, step) && step.CreateHoldStep? && Clean(s, b)
    ensures Clean(Apply(s, step), b)
  {
    OverdueIsPossible(s, step.sweep, step.now);
    SweepKeepsClean(s, step.sweep, b);
    CreateOutcomes(s, step);
    TakeKeepsClean(Sweep(s, step.sweep, true), step.h, step.b, step.request, step.expiresAt, b);
  }

  lemma TakeKeepsClean(s: Inventory, h: HoldId, n: BookingId, request: HoldRequest, expiresAt: Time, b: BookingId)
    requires Clean(s, b)
    ensures var r := TakeSeats(s, h, n, request, expiresAt); r.Committed? ==> Clean(r.state, b)
  {
    if b in s.bookings && TakeSeats(s, h, n, request, expiresAt).Committed? {
      TakeOthers(s, h, n, request, expiresAt, b);
      UntouchedKeepsClean(s, TakeSeats(s, h, n, request, expiresAt).state, b);
    }
  }

  lemma ConfirmKeepsClean(s: Inventory, step: Step, b: BookingId)
    requires Clean(s, b) && step.ConfirmStep?
    ensures Clean(Apply(s, step), b)
  {
    if step.read.booking != b {
      ConfirmOfOther(s, step, b);
      UntouchedKeepsClean(s, Apply(s, step), b);
    }
  }

  lemma ReleaseKeepsClean(s: Inventory, step: Step, b: BookingId)
    requires Valid(s) && Enabled(s, step) && step.ReleaseStep? && Clean(s, b)
    ensures Clean(Apply(s, step), b)
  {
    var read := HoldRead(step.h, step.read);
    if Claims(s, read) {
      if read.hold.booking == b {
        ReleaseIsClean(s, read, HoldReleased);
      } else {
        ReleaseOther(s, step, b);
        UntouchedKeepsClean(s, Apply(s, step), b);
      }
    }
  }

  lemma ReleaseOther(s: Inventory, step: Step, b: BookingId)
    requires step.ReleaseStep? && step.read.booking != b
    ensures Untouched(s, Apply(s, step), b)
  {
  }

  lemma CancelKeepsClean(s: Inventory, step: Step, b: BookingId)
    requires Clean(s, b) && step.CancelStep?
    ensures Clean(Apply(s, step), b)
  {
    if step.b != b {
      CancelOther(s, step, b);
      UntouchedKeepsClean(s, Apply(s, step), b);
    } else {
      assert LiveSeats(s.(rows := CancelRows(s.rows, b)), b) == {};
    }
  }

  lemma CancelOther(s: Inventory, step: Step, b: BookingId)
    requires step.CancelStep? && step.b != b
    ensures Untouched(s, Apply(s, step), b)
  {
  }

  lemma PaymentKeepsClean(s: Inventory, step: Step, b: BookingId)
    requires Clean(s, b) && (step.PaymentSucceededStep? || step.PaymentStartedStep? || step.ApproveStep?)
    ensures Clean(Apply(s, step), b)
  {
    if step.b != b {
      PaymentOther(s, step, b);
      UntouchedKeepsClean(s, Apply(s, step), b);
    } else if b in s.bookings && ClosedForCancel(s.bookings[b].status) {
      assert LiveSeats(Apply(s, step), b) == {};
    }
  }

  lemma PaymentOther(s: Inventory, step: Step, b: BookingId)
    requires step.PaymentSucceededStep? || step.PaymentStartedStep? || step.ApproveStep?
    requires step.b != b
    ensures Untouched(s, Apply(s, step), b)
  {
  }

  lemma PaymentExpiredOther(s: Inventory, step: Step, b: BookingId)
    requires Enabled(s, step) && step.PaymentExpiredStep? && step.b != b
    ensures Untouched(s, Apply(s, step), b)
  {
  }

  lemma PaymentExpiryIsCleanExactly(s: Inventory, step: Step, b: BookingId)
    requires Valid(s) && Enabled(s, step) && step.PaymentExpiredStep? && Clean(s, b)
    ensures Clean(Apply(s, step), b) <==> !Leaves(s, step, b)
  {
    if step.b != b {
      PaymentExpiredOther(s, step, b);
      UntouchedKeepsClean(s, Apply(s, step), b);
    } else if b in s.bookings {
      ExpiryLeavesSeatsExactly(s, b, step.first);
      ClosedAfterExpiry(s, b, step.first);
    }
  }

  lemma ClosedAfterExpiry(s: Inventory, b: BookingId, first: Option<HoldId>)
    requires Valid(s) && Enabled(s, PaymentExpiredStep(b, first)) && b in s.bookings && Clean(s, b)
    ensures var t := PaymentExpired(s, b, first);
            && b in t.bookings
            && (ClosedForCancel(s.bookings[b].status) ==> LiveSeats(t, b) == {} && BookedRows(s, b) == {})
            && (ClosedForCancel(t.bookings[b].status) <==>
                  ClosedForCancel(s.bookings[b].status) || s.bookings[b].status == PaymentPending)
  {
    if ClosedForCancel(s.bookings[b].status) {
      forall x ensures x !in BookedRows(s, b) { RowSeats(s, b, x); }
      if first.Some? { ReleasedRows(s, first.value); }
      assert PaymentExpired(s, b, first).rows == ReleaseFirst(s, first).rows;
    }
  }

  /** A seat transaction leaves a closed booking with live rows exactly when it
      expires the payment of a PAYMENT_PENDING booking that has BOOKED rows. */
  lemma StepIsCleanExactly(s: Inventory, step: Step, b: BookingId)
    requires Valid(s) && Enabled(s, step) && Clean(s, b)
    ensures Clean(Apply(s, step), b) <==> !Leaves(s, step, b)
  {
    match step
    case CreateHoldStep(_, _, _, _, _, _, _) => CreateKeepsClean(s, step, b);
    case ConfirmStep(_, _, _, _, _, _) => ConfirmKeepsClean(s, step, b);
    case ReleaseStep(_, _, _) => ReleaseKeepsClean(s, step, b);
    case WorkerExpireStep(overdue, _) => ExpiryKeepsClean(s, overdue, false, b);
    case SweepStep(sweep, now) =>
      OverdueIsPossible(s, sweep, now);
      SweepKeepsClean(s, sweep, b);
    case CancelStep(_, _, _) => CancelKeepsClean(s, step, b);
    case PaymentExpiredStep(_, _) => PaymentExpiryIsCleanExactly(s, step, b);
    case _ => PaymentKeepsClean(s, step, b);
  }

  /** Somewhere on the run such an expiry happens to the booking. */
  ghost predicate LeftBehind(s: Inventory, steps: seq<Step>, b: BookingId)
    decreases |steps|
  {
    steps != [] && (Leaves(s, steps[0], b) || LeftBehind(Apply(s, steps[0]), steps[1..], b))
  }

  lemma UncleanIsLeftover(s: Inventory, step: Step, b: BookingId)
    requires Valid(s) && Enabled(s, step) && Leaves(s, step, b)
    ensures exists k: RowKey :: k.booking == b && Leftover(Apply(s, step), k)
  {
    var x :| x in BookedRows(s, b);
    RowSeats(s, b, x);
    NoActiveHoldBesideSoldRow(s, RowKey(b, x));
    ExpiredStatus(s, b, step.first);
    assert Leftover(Apply(s, step), RowKey(b, x));
  }

  lemma LeftoverIsUnclean(s: Inventory, k: RowKey)
    requires Leftover(s, k)
    ensures !Clean(s, k.booking)
  {
    RowSeats(s, k.booking, k.seat);
  }

  /** On every run: a cancelled or EXPIRED booking has a live row at the end exactly
      when at some moment the payment of this booking expired while it was
      PAYMENT_PENDING with seats sold to it. No other run leaves one. */
  lemma {:induction false} ClosedBookingsExactly(s: Inventory, steps: seq<Step>, b: BookingId)
    requires Valid(s) && Run(s, steps) && Clean(s, b)
    ensures Clean(Exec(s, steps), b) <==> !LeftBehind(s, steps, b)
    decreases |steps|
  {
    if steps != [] {
      var t := Apply(s, steps[0]);
      StepKeepsValid(s, steps[0]);
      StepIsCleanExactly(s, steps[0], b);
      if Leaves(s, steps[0], b) {
        UncleanIsLeftover(s, steps[0], b);
        var k: RowKey :| k.booking == b && Leftover(t, k);
        LeftoverStays(t, steps[1..], k);
        LeftoverIsUnclean(Exec(t, steps[1..]), k);
      } else {
        ClosedBookingsExactly(t, steps[1..], b);
      }
    }
  }
}
