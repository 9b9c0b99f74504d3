/** Boarding on top of the seat inventory. Read an OCCUPIED seat or row as BOOKED
    and boarding disappears: what is left is the inventory of SeatSafety, so its
    invariant and its counter law carry over to runs with boarding and no-shows. */
module SeatBoarding {
  import opened Tables
  import opened SeatInventory
  import opened SeatSafety
  import opened SeatLaws
  import opened TripOps
  import SeatLayout

  function PlainSeats(seats: map<SeatKey, SeatStatus>): map<SeatKey, SeatStatus> {
    map x | x in seats :: if seats[x] == Occupied then Booked else seats[x]
  }

  function PlainRows(rows: map<RowKey, RowStatus>): map<RowKey, RowStatus> {
    map k | k in rows :: if rows[k] == RowOccupied then RowBooked else rows[k]
  }

  function Plain(s: Inventory): Inventory {
    s.(seats := PlainSeats(s.seats), rows := PlainRows(s.rows))
  }

  function PlainTx(r: Tx<Inventory>): Tx<Inventory> {
    match r
    case Committed(t) => Committed(Plain(t))
    case Rejected(code) => Rejected(code)
  }

  // ----- seat steps do not see boarding -----

  lemma MovesCommute(s: Inventory, b: BookingId, ids: set<SeatKey>, from: SeatStatus, to: SeatStatus, rowTo: RowStatus)
    requires (from == Held || from == Available) && to != Occupied && rowTo != RowOccupied
    ensures PlainSeats(MoveSeats(s.seats, ids, from, to)) == MoveSeats(PlainSeats(s.seats), ids, from, to)
    ensures PlainRows(MoveRows(s.rows, b, ids, RowHeld, rowTo)) == MoveRows(PlainRows(s.rows), b, ids, RowHeld, rowTo)
  {
  }

  lemma CountsAgree(s: Inventory, b: BookingId, ids: set<SeatKey>, from: SeatStatus)
    requires from == Held || from == Available
    ensures CountSeats(PlainSeats(s.seats), ids, from) == CountSeats(s.seats, ids, from)
    ensures CountRows(PlainRows(s.rows), b, ids, RowHeld) == CountRows(s.rows, b, ids, RowHeld)
  {
    var p := Plain(s);
    assert (set x | x in ids && x in p.seats && p.seats[x] == from) == (set x | x in ids && x in s.seats && s.seats[x] == from);
    assert (set x | x in ids && RowKey(b, x) in p.rows && p.rows[RowKey(b, x)] == RowHeld)
        == (set x | x in ids && RowKey(b, x) in s.rows && s.rows[RowKey(b, x)] == RowHeld);
  }

  lemma ReleaseCommutes(s: Inventory, read: HoldRead, status: HoldStatus)
    ensures Plain(ReleaseHold(s, read, status)) == ReleaseHold(Plain(s), read, status)
  {
    MovesCommute(s, read.hold.booking, read.hold.items, Held, Available, RowReleased);
  }

  lemma ExpireCommutes(s: Inventory, read: HoldRead, copyExpiry: bool)
    ensures Plain(ExpireHold(s, read, copyExpiry)) == ExpireHold(Plain(s), read, copyExpiry)
  {
    ReleaseCommutes(s, read, HoldExpired);
  }

  lemma {:induction false} SweepCommutes(s: Inventory, batch: seq<HoldRead>, copyExpiry: bool)
    ensures Plain(Sweep(s, batch, copyExpiry)) == Sweep(Plain(s), batch, copyExpiry)
    decreases |batch|
  {
    if batch != [] {
      ExpireCommutes(s, batch[0], copyExpiry);
      SweepCommutes(ExpireHold(s, batch[0], copyExpiry), batch[1..], copyExpiry);
    }
  }

  lemma EnsureCommutes(seats: map<SeatKey, SeatStatus>, capacity: nat)
    ensures PlainSeats(SeatLayout.EnsureTripSeats(seats, capacity, Available))
         == SeatLayout.EnsureTripSeats(PlainSeats(seats), capacity, Available)
  {
    SameKeysSameSize(seats, PlainSeats(seats));
    assert PlainSeats(seats).Keys == seats.Keys;
    AddingFreeSeatsCommutes(seats, SeatLayout.MissingSeats(seats.Keys, capacity, Available));
  }

  lemma AddingFreeSeatsCommutes(seats: map<SeatKey, SeatStatus>, more: map<SeatKey, SeatStatus>)
    requires forall k | k in more :: more[k] == Available
    ensures PlainSeats(seats + more) == PlainSeats(seats) + more
  {
  }

  lemma AllSeatsCommute(s: Inventory)
    ensures Plain(WithAllSeats(s)) == WithAllSeats(Plain(s))
  {
    EnsureCommutes(s.seats, s.capacity);
  }

  lemma PlaceCommutes(s: Inventory, h: HoldId, b: BookingId, request: HoldRequest, items: set<SeatKey>, expiresAt: Time)
    ensures Plain(PlaceHold(s, h, b, request, items, expiresAt)) == PlaceHold(Plain(s), h, b, request, items, expiresAt)
  {
    MovesCommute(s, b, items, Available, Held, RowReleased);
    assert PlainRows(s.rows + HeldRows(b, items)) == PlainRows(s.rows) + HeldRows(b, items);
  }

  lemma TakeFromCommutes(t: Inventory, h: HoldId, b: BookingId, request: HoldRequest, expiresAt: Time)
    ensures TakeFrom(Plain(t), h, b, request, expiresAt) == PlainTx(TakeFrom(t, h, b, request, expiresAt))
  {
    var keys := RequestedKeys(t, request);
    assert RequestedKeys(Plain(t), request) == keys;
    CountsAgree(t, b, keys, Available);
    PlaceCommutes(t, h, b, request, keys, expiresAt);
  }

  lemma CreateCommutes(s: Inventory, h: HoldId, b: BookingId, request: HoldRequest, expiresAt: Time, found: HoldLookup,
                       sweep: seq<HoldRead>)
    ensures CreateHold(Plain(s), h, b, request, expiresAt, found, sweep)
         == PlainTx(CreateHold(s, h, b, request, expiresAt, found, sweep))
  {
    var t := Sweep(s, sweep, true);
    SweepCommutes(s, sweep, true);
    AllSeatsCommute(t);
    TakeFromCommutes(WithAllSeats(t), h, b, request, expiresAt);
  }

  lemma ConfirmCommutes(s: Inventory, h: HoldId, client: UserId, passengers: nat, now: Time, read: Hold,
                        readBooking: BookingStatus)
    ensures Confirm(Plain(s), h, client, passengers, now, read, readBooking)
         == PlainTx(Confirm(s, h, client, passengers, now, read, readBooking))
  {
    PlainCountsMatch(s, read);
    if h in s.holds { BookHoldCommutes(s, h, read); }
  }

  lemma PlainCountsMatch(s: Inventory, read: Hold)
    ensures CountsMatch(Plain(s), read) <==> CountsMatch(s, read)
  {
    CountsAgree(s, read.booking, read.items, Held);
  }

  lemma BookHoldCommutes(s: Inventory, h: HoldId, read: Hold)
    requires h in s.holds
    ensures Plain(BookHold(s, h, read)) == BookHold(Plain(s), h, read)
  {
    MovesCommute(s, read.booking, read.items, Held, Booked, RowBooked);
  }

  /** Nothing a booking can still cancel is on board. */
  ghost predicate NotOnBoard(s: Inventory, b: BookingId) {
    && !IsBoarded(s, b)
    && forall k | k in s.rows && k.booking == b && Live(s.rows[k]) && k.seat in s.seats :: s.seats[k.seat] != Occupied
  }

  lemma LiveSeatsAgree(s: Inventory, b: BookingId)
    requires NotOnBoard(s, b)
    ensures LiveSeats(Plain(s), b) == LiveSeats(s, b) && BookedRows(Plain(s), b) == BookedRows(s, b)
  {
  }

  lemma FreeSeatsCommute(s: Inventory, b: BookingId)
    requires NotOnBoard(s, b)
    ensures PlainSeats(FreeSeats(s.seats, LiveSeats(s, b))) == FreeSeats(PlainSeats(s.seats), LiveSeats(s, b))
  {
    forall x | x in LiveSeats(s, b) && x in s.seats ensures s.seats[x] != Occupied {
      var k :| k in s.rows && k.booking == b && Live(s.rows[k]) && k.seat == x;
    }
  }

  lemma CancelRowsCommute(s: Inventory, b: BookingId)
    requires NotOnBoard(s, b)
    ensures PlainRows(CancelRows(s.rows, b)) == CancelRows(PlainRows(s.rows), b)
  {
  }

  lemma WithdrawCommutes(s: Inventory, b: BookingId, live: set<SeatKey>, booked: nat, role: Role)
    requires NotOnBoard(s, b) && PlainSeats(FreeSeats(s.seats, live)) == FreeSeats(PlainSeats(s.seats), live)
    ensures Plain(Withdraw(s, b, live, booked, role)) == Withdraw(Plain(s), b, live, booked, role)
  {
    CancelRowsCommute(s, b);
  }

  lemma CancelCommutes(s: Inventory, b: BookingId, user: UserId, role: Role)
    requires NotOnBoard(s, b)
    ensures CancelBooking(Plain(s), b, user, role) == PlainTx(CancelBooking(s, b, user, role))
  {
    LiveSeatsAgree(s, b);
    FreeSeatsCommute(s, b);
    WithdrawCommutes(s, b, LiveSeats(s, b), |BookedRows(s, b)|, role);
  }

  lemma PaymentSucceededCommutes(s: Inventory, b: BookingId)
    ensures Plain(PaymentSucceeded(s, b)) == PaymentSucceeded(Plain(s), b)
  {
  }

  lemma PaymentExpiredCommutes(s: Inventory, b: BookingId, first: Option<HoldId>)
    ensures Plain(PaymentExpired(s, b, first)) == PaymentExpired(Plain(s), b, first)
  {
    if first.Some? && first.value in s.holds {
      ReleaseCommutes(s, HoldRead(first.value, s.holds[first.value]), HoldExpired);
    }
  }

  /** A seat step commutes with forgetting about boarding. */
  lemma StepCommutes(s: Inventory, step: Step)
    requires step.CancelStep? ==> NotOnBoard(s, step.b)
    ensures Plain(Apply(s, step)) == Apply(Plain(s), step)
  {
    match step
    case CreateHoldStep(h, b, request, expiresAt, found, sweep, _) => CreateCommutes(s, h, b, request, expiresAt, found, sweep);
    case ConfirmStep(h, client, passengers, now, read, readBooking) =>
      ConfirmCommutes(s, h, client, passengers, now, read, readBooking);
    case ReleaseStep(h, _, read) => ReleaseCommutes(s, HoldRead(h, read), HoldReleased);
    case SweepStep(sweep, _) => SweepCommutes(s, sweep, true);
    case WorkerExpireStep(overdue, _) => ExpireCommutes(s, overdue, false);
    case CancelStep(b, user, role) => CancelCommutes(s, b, user, role);
    case PaymentSucceededStep(b) => PaymentSucceededCommutes(s, b);
    case PaymentExpiredStep(b, first) => PaymentExpiredCommutes(s, b, first);
    case PaymentStartedStep(_, _) =>
    case ApproveStep(_) =>
  }

  lemma PlainIsEnabled(s: Inventory, step: Step)
    requires Enabled(s, step)
    ensures Enabled(Plain(s), step)
  {
    assert forall now :: OverdueHolds(Plain(s), now) == OverdueHolds(s, now);
  }

  // ----- the invariant with boarding -----

  /** A sold row and its seat say the same: booked, or on board. */
  ghost predicate SoldMatched(s: Inventory) {
    forall k | k in s.rows && Sold(s.rows[k]) ::
      k.seat in s.seats && s.seats[k.seat] == if s.rows[k] == RowOccupied then Occupied else Booked
  }

  /** A booking boards as a whole. */
  ghost predicate Uniform(s: Inventory) {
    forall k, l | k in s.rows && l in s.rows && k.booking == l.booking && s.rows[k] == RowOccupied :: s.rows[l] == RowOccupied
  }

  /** A booking that may board has sold rows only. */
  ghost predicate Settled(s: Inventory) {
    forall k | k in s.rows && k.booking in s.bookings && MayBeNoShow(s.bookings[k.booking].status) :: Sold(s.rows[k])
  }

  ghost predicate RowsOk(s: Inventory) {
    (forall k | k in s.rows :: k.booking in s.bookings) && SoldMatched(s) && Uniform(s) && Settled(s)
  }

  /** Every seat is sold at most once, on board or not, and the counter never
      promises a seat that is booked or occupied. */
  ghost predicate BoardingOk(s: Inventory) {
    Valid(Plain(s)) && RowsOk(s) && Slack(Plain(s)) >= 0
  }

  /** What the invariant means for a reader. */
  lemma CounterBound(s: Inventory)
    requires BoardingOk(s)
    ensures s.availableSeatCount <= s.capacity - |set x | x in s.seats && (s.seats[x] == Booked || s.seats[x] == Occupied)|
    ensures forall k, l | k in s.rows && l in s.rows && k.seat == l.seat && Sold(s.rows[k]) && Sold(s.rows[l]) :: k == l
  {
    assert BookedSeats(Plain(s)) == set x | x in s.seats && (s.seats[x] == Booked || s.seats[x] == Occupied);
    forall k, l | k in s.rows && l in s.rows && k.seat == l.seat && Sold(s.rows[k]) && Sold(s.rows[l]) ensures k == l {
      SoldRowsAreOne(s, k, l);
    }
  }

  lemma SoldRowsAreOne(s: Inventory, k: RowKey, l: RowKey)
    requires Valid(Plain(s)) && k in s.rows && l in s.rows && k.seat == l.seat
    requires (Sold(s.rows[k]) || Live(s.rows[k])) && (Sold(s.rows[l]) || Live(s.rows[l]))
    ensures k == l
  {
    SoldOnce(Plain(s));
    assert Live(Plain(s).rows[k]) && Live(Plain(s).rows[l]);
  }

  // ----- seat steps keep it -----

  lemma ReleaseHoldKeepsRows(s: Inventory, read: HoldRead, status: HoldStatus)
    requires RowsOk(s)
    ensures RowsOk(ReleaseHold(s, read, status))
  {
  }

  lemma LeavingKeepsRows(s: Inventory, t: Inventory)
    requires RowsOk(s) && t.rows == s.rows && t.seats == s.seats && t.bookings.Keys == s.bookings.Keys
    requires forall b | b in s.bookings && MayBeNoShow(t.bookings[b].status) :: MayBeNoShow(s.bookings[b].status)
    ensures RowsOk(t)
  {
  }

  lemma ExpireHoldKeepsRows(s: Inventory, read: HoldRead, copyExpiry: bool)
    requires RowsOk(s)
    ensures RowsOk(ExpireHold(s, read, copyExpiry))
  {
    ReleaseHoldKeepsRows(s, read, HoldExpired);
    if Claims(s, read) { LeavingKeepsRows(ReleaseHold(s, read, HoldExpired), ExpireHold(s, read, copyExpiry)); }
  }

  lemma {:induction false} SweepKeepsRows(s: Inventory, batch: seq<HoldRead>, copyExpiry: bool)
    requires RowsOk(s)
    ensures RowsOk(Sweep(s, batch, copyExpiry))
    decreases |batch|
  {
    if batch != [] {
      ExpireHoldKeepsRows(s, batch[0], copyExpiry);
      SweepKeepsRows(ExpireHold(s, batch[0], copyExpiry), batch[1..], copyExpiry);
    }
  }

  lemma PlaceHoldKeepsRows(s: Inventory, h: HoldId, b: BookingId, request: HoldRequest, items: set<SeatKey>, expiresAt: Time)
    requires RowsOk(s) && b !in s.bookings
    ensures RowsOk(PlaceHold(s, h, b, request, items, expiresAt))
  {
  }

  lemma MoreSeatsKeepRows(s: Inventory)
    requires RowsOk(s)
    ensures RowsOk(WithAllSeats(s))
  {
  }

  lemma TakeKeepsRows(s: Inventory, h: HoldId, b: BookingId, request: HoldRequest, expiresAt: Time)
    requires RowsOk(s) && TakeFrom(s, h, b, request, expiresAt).Committed?
    ensures RowsOk(TakeFrom(s, h, b, request, expiresAt).state)
  {
    PlaceHoldKeepsRows(s, h, b, request, RequestedKeys(s, request), expiresAt);
  }

  lemma TakeSeatsKeepsRows(s: Inventory, h: HoldId, b: BookingId, request: HoldRequest, expiresAt: Time)
    requires RowsOk(s) && TakeSeats(s, h, b, request, expiresAt).Committed?
    ensures RowsOk(TakeSeats(s, h, b, request, expiresAt).state)
  {
    MoreSeatsKeepRows(s);
    TakeKeepsRows(WithAllSeats(s), h, b, request, expiresAt);
  }

  lemma CreateHoldKeepsRows(s: Inventory, h: HoldId, b: BookingId, request: HoldRequest, expiresAt: Time, found: HoldLookup,
                            sweep: seq<HoldRead>)
    requires RowsOk(s) && CreateHold(s, h, b, request, expiresAt, found, sweep).Committed?
    ensures RowsOk(CreateHold(s, h, b, request, expiresAt, found, sweep).state)
  {
    SweepKeepsRows(s, sweep, true);
    if found == Bookable { TakeSeatsKeepsRows(Sweep(s, sweep, true), h, b, request, expiresAt); }
  }

  lemma CreateKeepsRows(s: Inventory, step: Step)
    requires RowsOk(s) && step.CreateHoldStep?
    ensures RowsOk(Apply(s, step))
  {
    if Attempt(s, step).Committed? {
      CreateHoldKeepsRows(s, step.h, step.b, step.request, step.expiresAt, step.found, step.sweep);
    }
  }

  lemma BookHoldKeepsRows(s: Inventory, h: HoldId, read: Hold)
    requires RowsOk(s) && h in s.holds
    requires forall k | k in s.rows && k.booking == read.booking :: k.seat in read.items && s.rows[k] == RowHeld
    requires forall x | x in read.items :: x in s.seats && s.seats[x] == Held
    ensures RowsOk(BookHold(s, h, read))
  {
  }

  lemma HoldHasAllRows(s: Inventory, h: HoldId, k: RowKey)
    requires Shape(s) && h in s.holds && k in s.rows && s.holds[h].booking == k.booking
    ensures Covers(s, h, k.seat)
  {
    var g :| Covers(s, g, k.seat) && RowAt(s, g, k.seat) == k;
  }

  lemma CountedIsPlainHeld(s: Inventory, h: HoldId, read: Hold)
    requires Valid(Plain(s)) && PossibleRead(s, h, read) && CountsMatch(s, read)
    ensures forall k | k in s.rows && k.booking == read.booking :: k.seat in read.items && s.rows[k] == RowHeld
    ensures forall x | x in read.items :: x in s.seats && s.seats[x] == Held
  {
    var p := Plain(s);
    CountsAgree(s, read.booking, read.items, Held);
    CountsProveOwnership(p, h, read);
    forall x | x in read.items ensures x in s.seats && s.seats[x] == Held {
      assert LiveAt(p, h, x) && p.seats[x] == Held;
    }
    forall k | k in s.rows && k.booking == read.booking ensures k.seat in read.items && s.rows[k] == RowHeld {
      HoldHasAllRows(p, h, k);
      assert LiveAt(p, h, k.seat) && p.rows[k] == RowHeld;
    }
  }

  lemma ConfirmKeepsRows(s: Inventory, step: Step)
    requires RowsOk(s) && Valid(Plain(s)) && Enabled(s, step) && step.ConfirmStep?
    ensures RowsOk(Apply(s, step))
  {
    if Attempt(s, step).Committed? && !AlreadyConfirmed(step.read, step.readBooking) {
      CountedIsPlainHeld(s, step.h, step.read);
      BookHoldKeepsRows(s, step.h, step.read);
    }
  }

  lemma ReleaseStepKeepsRows(s: Inventory, step: Step)
    requires RowsOk(s) && step.ReleaseStep?
    ensures RowsOk(Apply(s, step))
  {
    var read := HoldRead(step.h, step.read);
    ReleaseHoldKeepsRows(s, read, HoldReleased);
    if Attempt(s, step).Committed? && step.read.status == HoldActive && Claims(s, read) {
      LeavingKeepsRows(ReleaseHold(s, read, HoldReleased), Apply(s, step));
    }
  }

  // ----- cancellation -----

  lemma LiveRowOf(s: Inventory, b: BookingId, x: SeatKey)
    requires x in LiveSeats(s, b)
    ensures RowKey(b, x) in s.rows && Live(s.rows[RowKey(b, x)])
  {
    var k :| k in s.rows && k.booking == b && Live(s.rows[k]) && k.seat == x;
    assert k == RowKey(b, x);
  }

  /** A sold row of another booking is never on a seat the cancellation frees. */
  lemma OtherSoldSeatsStay(s: Inventory, b: BookingId, k: RowKey)
    requires Valid(Plain(s)) && k in s.rows && k.booking != b && Sold(s.rows[k])
    ensures k.seat !in LiveSeats(s, b)
  {
    if k.seat in LiveSeats(s, b) {
      LiveRowOf(s, b, k.seat);
      SoldRowsAreOne(s, k, RowKey(b, k.seat));
    }
  }

  lemma WithdrawKeepsRows(s: Inventory, b: BookingId, live: set<SeatKey>, booked: nat, role: Role)
    requires RowsOk(s) && forall k | k in s.rows && k.booking != b && Sold(s.rows[k]) :: k.seat !in live
    ensures RowsOk(Withdraw(s, b, live, booked, role))
  {
  }

  lemma CancelKeepsRows(s: Inventory, step: Step)
    requires RowsOk(s) && Valid(Plain(s)) && step.CancelStep?
    ensures RowsOk(Apply(s, step))
  {
    forall k | k in s.rows && k.booking != step.b && Sold(s.rows[k]) ensures k.seat !in LiveSeats(s, step.b) {
      OtherSoldSeatsStay(s, step.b, k);
    }
    if Attempt(s, step).Committed? && !ClosedForCancel(s.bookings[step.b].status) {
      WithdrawKeepsRows(s, step.b, LiveSeats(s, step.b), |BookedRows(s, step.b)|, step.role);
    }
  }

  // ----- payments -----

  ghost predicate AllSold(s: Inventory, b: BookingId) {
    forall k | k in s.rows && k.booking == b :: Sold(s.rows[k])
  }

  /** The payment is for what the booking has already bought: a success finds no
      HELD row of it and, if it confirms the booking, sold rows only; the same
      holds for a cash payment, whose creation confirms the booking. */
  ghost predicate PaysForSold(s: Inventory, step: Step) {
    match step
    case PaymentSucceededStep(b) =>
      && (forall k | k in s.rows && k.booking == b :: s.rows[k] != RowHeld)
      && (b in s.bookings && AwaitsPayment(s.bookings[b].status) ==> AllSold(s, b))
    case PaymentStartedStep(b, online) =>
      online || b !in s.bookings || ClosedForCancel(s.bookings[b].status) || AllSold(s, b)
    case _ => true
  }

  lemma PaymentSucceededKeepsRows(s: Inventory, b: BookingId)
    requires RowsOk(s) && PaysForSold(s, PaymentSucceededStep(b))
    ensures RowsOk(PaymentSucceeded(s, b))
  {
    assert PaymentSucceeded(s, b).rows == s.rows;
  }

  lemma PaymentStartedKeepsRows(s: Inventory, b: BookingId, online: bool)
    requires RowsOk(s) && PaysForSold(s, PaymentStartedStep(b, online))
    ensures RowsOk(Apply(s, PaymentStartedStep(b, online)))
  {
  }

  lemma PaymentExpiredKeepsRows(s: Inventory, b: BookingId, first: Option<HoldId>)
    requires RowsOk(s)
    ensures RowsOk(PaymentExpired(s, b, first))
  {
    var t := ReleaseFirst(s, first);
    if first.Some? && first.value in s.holds {
      ReleaseHoldKeepsRows(s, HoldRead(first.value, s.holds[first.value]), HoldExpired);
    }
    LeavingKeepsRows(t, PaymentExpired(s, b, first));
  }

  lemma ApproveKeepsRows(s: Inventory, b: BookingId)
    requires RowsOk(s)
    ensures RowsOk(Apply(s, ApproveStep(b)))
  {
    if Approve(s, b).Committed? { LeavingKeepsRows(s, Approve(s, b).state); }
  }

  lemma SeatStepKeepsRows(s: Inventory, step: Step)
    requires RowsOk(s) && Valid(Plain(s)) && Enabled(s, step) && PaysForSold(s, step)
    ensures RowsOk(Apply(s, step))
  {
    match step
    case CreateHoldStep(_, _, _, _, _, _, _) => CreateKeepsRows(s, step);
    case ConfirmStep(_, _, _, _, _, _) => ConfirmKeepsRows(s, step);
    case ReleaseStep(_, _, _) => ReleaseStepKeepsRows(s, step);
    case SweepStep(sweep, _) => SweepKeepsRows(s, sweep, true);
    case WorkerExpireStep(overdue, _) => ExpireHoldKeepsRows(s, overdue, false);
    case CancelStep(_, _, _) => CancelKeepsRows(s, step);
    case PaymentSucceededStep(b) => PaymentSucceededKeepsRows(s, b);
    case PaymentExpiredStep(b, first) => PaymentExpiredKeepsRows(s, b, first);
    case PaymentStartedStep(b, online) => PaymentStartedKeepsRows(s, b, online);
    case ApproveStep(b) => ApproveKeepsRows(s, b);
  }

  lemma LiveSeatsAreNotOccupied(s: Inventory, b: BookingId)
    requires RowsOk(s) && Valid(Plain(s)) && !IsBoarded(s, b)
    ensures NotOnBoard(s, b)
  {
    forall k | k in s.rows && k.booking == b && Live(s.rows[k]) && k.seat in s.seats ensures s.seats[k.seat] != Occupied {
      BookingRowCell(Plain(s), k);
    }
  }

  lemma NothingPaidUncounted(s: Inventory, step: Step)
    requires RowsOk(s)
    ensures !CancelsUncounted(Plain(s), step)
  {
  }

  /** A step that the plain inventory takes as well keeps what is known of it. */
  lemma PlainStep(s: Inventory, step: Step)
    requires Valid(Plain(s)) && RowsOk(s) && Enabled(s, step) && (step.CancelStep? ==> NotOnBoard(s, step.b))
    ensures Valid(Plain(Apply(s, step))) && Slack(Plain(Apply(s, step))) == Slack(Plain(s))
  {
    StepCommutes(s, step);
    PlainIsEnabled(s, step);
    StepKeepsValid(Plain(s), step);
    NothingPaidUncounted(s, step);
    CounterLawExactly(Plain(s), step);
  }

  lemma BoardedRows(s: Inventory, b: BookingId)
    requires RowsOk(s) && IsBoarded(s, b)
    ensures forall k | k in s.rows && k.booking == b :: s.rows[k] == RowOccupied
    ensures LiveSeats(s, b) == {} && BookedRows(s, b) == {}
  {
    var l :| l in s.rows && l.booking == b && s.rows[l] == RowOccupied;
    assert forall k | k in s.rows && k.booking == b :: s.rows[k] == RowOccupied;
  }

  lemma HoldOfSoldIsOver(s: Inventory, h: HoldId, k: RowKey)
    requires Valid(Plain(s)) && k in s.rows && Sold(s.rows[k]) && h in s.holds && s.holds[h].booking == k.booking
    ensures s.holds[h].status != HoldActive
  {
    HoldHasAllRows(Plain(s), h, k);
    assert CellOk(Plain(s), h, k.seat);
  }

  lemma HoldsOfBoardedAreOver(s: Inventory, b: BookingId)
    requires Valid(Plain(s)) && IsBoarded(s, b)
    ensures forall h | h in s.holds && s.holds[h].booking == b :: s.holds[h].status != HoldActive
  {
    var l :| l in s.rows && l.booking == b && s.rows[l] == RowOccupied;
    forall h | h in s.holds && s.holds[h].booking == b ensures s.holds[h].status != HoldActive {
      HoldOfSoldIsOver(s, h, l);
    }
  }

  lemma NoHoldToCancel(holds: map<HoldId, Hold>, b: BookingId)
    requires forall h | h in holds && holds[h].booking == b :: holds[h].status != HoldActive
    ensures CancelHolds(holds, b) == holds
  {
  }

  lemma WithdrawNothing(s: Inventory, b: BookingId, role: Role)
    requires CancelHolds(s.holds, b) == s.holds
    requires forall k | k in s.rows && k.booking == b :: s.rows[k] == RowOccupied
    ensures Withdraw(s, b, {}, 0, role) == s.(bookings := MoveBookings(s.bookings, {b}, CancelledBy(role)))
  {
    assert FreeSeats(s.seats, {}) == s.seats;
    assert CancelRows(s.rows, b) == s.rows;
  }

  lemma CancelOnBoardEffect(s: Inventory, b: BookingId, user: UserId, role: Role)
    requires RowsOk(s) && Valid(Plain(s)) && IsBoarded(s, b)
    requires CancelBooking(s, b, user, role).Committed? && !ClosedForCancel(s.bookings[b].status)
    ensures CancelBooking(s, b, user, role).state == s.(bookings := MoveBookings(s.bookings, {b}, CancelledBy(role)))
  {
    BoardedRows(s, b);
    HoldsOfBoardedAreOver(s, b);
    NoHoldToCancel(s.holds, b);
    WithdrawNothing(s, b, role);
  }

  lemma SameSeatsSameSlack(s: Inventory, t: Inventory)
    requires t == s.(bookings := t.bookings)
    ensures Slack(Plain(t)) == Slack(Plain(s))
  {
  }

  lemma StatusKeepsValid(s: Inventory, t: Inventory)
    requires Valid(Plain(s)) && t == s.(bookings := t.bookings) && t.bookings.Keys == s.bookings.Keys
    requires forall b | b in s.bookings :: t.bookings[b].expiresAt == s.bookings[b].expiresAt
    ensures Valid(Plain(t))
  {
    ValidUnderBookingUpdate(Plain(s), Plain(t));
  }

  /** Cancelling a booking that is on board frees nothing and counts nothing: only
      the status of the booking changes. */
  lemma CancelOnBoard(s: Inventory, b: BookingId, user: UserId, role: Role)
    requires Valid(Plain(s)) && RowsOk(s) && IsBoarded(s, b) && CancelBooking(s, b, user, role).Committed?
    ensures var t := CancelBooking(s, b, user, role).state;
            t == s || t == s.(bookings := MoveBookings(s.bookings, {b}, CancelledBy(role)))
  {
    if !ClosedForCancel(s.bookings[b].status) { CancelOnBoardEffect(s, b, user, role); }
  }

  lemma ClosingOne(s: Inventory, b: BookingId, status: BookingStatus)
    requires Valid(Plain(s))
    ensures var t := s.(bookings := MoveBookings(s.bookings, {b}, status));
            Valid(Plain(t)) && Slack(Plain(t)) == Slack(Plain(s))
  {
    var t := s.(bookings := MoveBookings(s.bookings, {b}, status));
    StatusKeepsValid(s, t);
    SameSeatsSameSlack(s, t);
  }

  lemma CancelOnBoardKeeps(s: Inventory, b: BookingId, user: UserId, role: Role)
    requires Valid(Plain(s)) && RowsOk(s) && IsBoarded(s, b) && CancelBooking(s, b, user, role).Committed?
    ensures var t := CancelBooking(s, b, user, role).state; Valid(Plain(t)) && Slack(Plain(t)) == Slack(Plain(s))
  {
    CancelOnBoard(s, b, user, role);
    ClosingOne(s, b, CancelledBy(role));
  }

  lemma SeatStepKeepsPlain(s: Inventory, step: Step)
    requires Valid(Plain(s)) && RowsOk(s) && Enabled(s, step)
    ensures Valid(Plain(Apply(s, step))) && Slack(Plain(Apply(s, step))) == Slack(Plain(s))
  {
    if step.CancelStep? && IsBoarded(s, step.b) {
      if Attempt(s, step).Committed? { CancelOnBoardKeeps(s, step.b, step.user, step.role); }
    } else {
      if step.CancelStep? { LiveSeatsAreNotOccupied(s, step.b); }
      PlainStep(s, step);
    }
  }

  lemma SeatStepKeepsBoarding(s: Inventory, step: Step)
    requires BoardingOk(s) && Enabled(s, step) && PaysForSold(s, step)
    ensures BoardingOk(Apply(s, step))
  {
    SeatStepKeepsPlain(s, step);
    SeatStepKeepsRows(s, step);
  }

  /** The condition is exact: any other payment leaves a booking that may board
      with a seat it has not bought. */
  lemma PaymentKeepsBoardingExactly(s: Inventory, step: Step)
    requires BoardingOk(s) && (step.PaymentSucceededStep? || step.PaymentStartedStep?)
    ensures BoardingOk(Apply(s, step)) <==> PaysForSold(s, step)
  {
    if PaysForSold(s, step) {
      SeatStepKeepsBoarding(s, step);
    } else if step.PaymentSucceededStep? {
      PaidUnsoldBreaksRows(s, step.b);
    }
  }

  lemma PaidHeldIsUnmatched(s: Inventory, k: RowKey)
    requires k in s.rows && s.rows[k] == RowHeld && (k.seat in s.seats ==> s.seats[k.seat] == Held)
    ensures !SoldMatched(PaymentSucceeded(s, k.booking))
  {
    assert PaymentSucceeded(s, k.booking).rows[k] == RowBooked;
  }

  lemma PaidUnsoldIsUnsettled(s: Inventory, k: RowKey)
    requires k in s.rows && !Sold(s.rows[k]) && s.rows[k] != RowHeld
    requires k.booking in s.bookings && AwaitsPayment(s.bookings[k.booking].status)
    ensures !Settled(PaymentSucceeded(s, k.booking))
  {
    var t := PaymentSucceeded(s, k.booking);
    assert t.rows[k] == s.rows[k] && t.bookings[k.booking].status == Confirmed;
  }

  lemma PaidUnsoldBreaksRows(s: Inventory, b: BookingId)
    requires Valid(Plain(s)) && !PaysForSold(s, PaymentSucceededStep(b))
    ensures !RowsOk(PaymentSucceeded(s, b))
  {
    if k :| k in s.rows && k.booking == b && s.rows[k] == RowHeld {
      BookingRowCell(Plain(s), k);
      PaidHeldIsUnmatched(s, k);
    } else {
      var k :| k in s.rows && k.booking == b && !Sold(s.rows[k]);
      PaidUnsoldIsUnsettled(s, k);
    }
  }

  // ----- boarding and no-show keep it -----

  lemma SeatOfRow(s: Inventory, b: BookingId, x: SeatKey)
    ensures x in SeatsOf(s, b) <==> RowKey(b, x) in s.rows
  {
    if RowKey(b, x) in s.rows { assert RowKey(b, x).seat == x; }
  }

  lemma OthersElsewhere(s: Inventory, b: BookingId, k: RowKey)
    requires Valid(Plain(s)) && AllSold(s, b) && k in s.rows && k.booking != b && Sold(s.rows[k])
    ensures k.seat !in SeatsOf(s, b)
  {
    SeatOfRow(s, b, k.seat);
    if k.seat in SeatsOf(s, b) { SoldRowsAreOne(s, k, RowKey(b, k.seat)); }
  }

  /** Boarding is invisible in the plain inventory. */
  lemma BoardIsInvisible(s: Inventory, b: BookingId)
    requires SoldMatched(s) && AllSold(s, b)
    ensures Plain(Board(s, b)) == Plain(s)
  {
    forall x | x in s.seats && x in SeatsOf(s, b) ensures s.seats[x] == Booked || s.seats[x] == Occupied {
      SeatOfRow(s, b, x);
    }
    assert PlainSeats(Board(s, b).seats) == PlainSeats(s.seats);
    assert PlainRows(Board(s, b).rows) == PlainRows(s.rows);
  }

  lemma BoardKeepsRows(s: Inventory, b: BookingId)
    requires RowsOk(s) && AllSold(s, b)
    requires forall k | k in s.rows && k.booking != b && Sold(s.rows[k]) :: k.seat !in SeatsOf(s, b)
    ensures RowsOk(Board(s, b))
  {
    forall k | k in s.rows && k.booking == b ensures k.seat in SeatsOf(s, b) && k.seat in s.seats {
    }
  }

  lemma BoardKeepsBoarding(s: Inventory, b: BookingId)
    requires BoardingOk(s) && AllSold(s, b)
    ensures BoardingOk(Board(s, b)) && Slack(Plain(Board(s, b))) == Slack(Plain(s))
  {
    BoardIsInvisible(s, b);
    forall k | k in s.rows && k.booking != b && Sold(s.rows[k]) ensures k.seat !in SeatsOf(s, b) { OthersElsewhere(s, b, k); }
    BoardKeepsRows(s, b);
  }

  lemma LeaveKeepsRows(s: Inventory, b: BookingId)
    requires RowsOk(s) && forall k | k in s.rows && k.booking != b && Sold(s.rows[k]) :: k.seat !in SeatsOf(s, b)
    ensures RowsOk(Leave(s, b))
  {
  }

  lemma LeaveFrame(s: Inventory, b: BookingId, h: HoldId)
    requires Valid(Plain(s)) && h in s.holds && s.holds[h].booking == b
    ensures Frame(Plain(s), Plain(Leave(s, b)), h)
  {
    forall x | x in SeatsOf(s, b) ensures x in s.holds[h].items {
      SeatOfRow(s, b, x);
      HoldHasAllRows(Plain(s), h, RowKey(b, x));
    }
  }

  lemma LeaveCell(s: Inventory, b: BookingId, h: HoldId, x: SeatKey)
    requires Valid(Plain(s)) && AllSold(s, b) && Covers(s, h, x) && s.holds[h].booking == b
    requires x in s.seats && RowKey(b, x) in s.rows && CellOk(Plain(s), h, x)
    ensures CellChange(Plain(s), Plain(Leave(s, b)), h, x)
  {
    SeatOfRow(s, b, x);
    FreedCell(Plain(s), Plain(Leave(s, b)), h, x);
  }

  lemma FreedCell(p: Inventory, q: Inventory, h: HoldId, x: SeatKey)
    requires h in p.holds && x in p.seats && RowAt(p, h, x) in p.rows && CellOk(p, h, x) && p.rows[RowAt(p, h, x)] == RowBooked
    requires q.holds == p.holds && x in q.seats && RowAt(p, h, x) in q.rows
    requires q.seats[x] == Available && q.rows[RowAt(p, h, x)] == RowReleased
    ensures CellChange(p, q, h, x)
  {
  }

  lemma LeaveKeepsValid(s: Inventory, b: BookingId)
    requires Valid(Plain(s)) && AllSold(s, b)
    ensures Valid(Plain(Leave(s, b)))
  {
    var p, q := Plain(s), Plain(Leave(s, b));
    if h :| h in s.holds && s.holds[h].booking == b {
      LeaveFrame(s, b, h);
      forall x | Covers(p, h, x) ensures CellChange(p, q, h, x) {
        assert CellOk(p, h, x);
        LeaveCell(s, b, h, x);
      }
      OneHoldChange(p, q, h);
    } else {
      NoRowsWithoutHold(p, b);
      LeaveNothing(s, b);
      BookingStatusKeepsValid(p, b, NoShowClient);
    }
  }

  lemma LeaveNothing(s: Inventory, b: BookingId)
    requires forall k | k in Plain(s).rows :: k.booking != b
    ensures Plain(Leave(s, b)) == Plain(s).(bookings := MoveBookings(s.bookings, {b}, NoShowClient))
  {
    assert SeatsOf(s, b) == {};
    assert SetSeats(s.seats, SeatsOf(s, b), Available) == s.seats;
    assert Leave(s, b).rows == s.rows;
  }

  /** A no-show takes exactly its seats out of the count: they are free again,
      but the counter does not say so. */
  lemma NoShowCostsItsSeats(s: Inventory, b: BookingId)
    requires SoldMatched(s) && AllSold(s, b)
    ensures Slack(Plain(Leave(s, b))) == Slack(Plain(s)) + |SeatsOf(s, b)|
  {
    SoldSeatsAreBooked(s, b);
    LeaveFreesSeats(s, b);
    Without(BookedSeats(Plain(s)), SeatsOf(s, b));
  }

  lemma Without(all: set<SeatKey>, gone: set<SeatKey>)
    requires gone <= all
    ensures |all - gone| == |all| - |gone|
  {
    assert all == (all - gone) + gone;
  }

  lemma SoldSeatsAreBooked(s: Inventory, b: BookingId)
    requires SoldMatched(s) && AllSold(s, b)
    ensures SeatsOf(s, b) <= BookedSeats(Plain(s))
  {
    forall x | x in SeatsOf(s, b) ensures x in BookedSeats(Plain(s)) { SeatOfRow(s, b, x); }
  }

  lemma LeaveFreesSeats(s: Inventory, b: BookingId)
    ensures BookedSeats(Plain(Leave(s, b))) == BookedSeats(Plain(s)) - SeatsOf(s, b)
  {
    var ids := SeatsOf(s, b);
    assert forall x | x in s.seats :: SetSeats(s.seats, ids, Available)[x] == if x in ids then Available else s.seats[x];
  }

  lemma LeaveKeepsBoarding(s: Inventory, b: BookingId)
    requires BoardingOk(s) && AllSold(s, b)
    ensures BoardingOk(Leave(s, b))
  {
    forall k | k in s.rows && k.booking != b && Sold(s.rows[k]) ensures k.seat !in SeatsOf(s, b) { OthersElsewhere(s, b, k); }
    LeaveKeepsRows(s, b);
    LeaveKeepsValid(s, b);
    NoShowCostsItsSeats(s, b);
  }

  lemma StatusKeepsBoarding(s: Inventory, t: Inventory)
    requires BoardingOk(s) && t == s.(bookings := t.bookings) && t.bookings.Keys == s.bookings.Keys
    requires forall b | b in s.bookings :: t.bookings[b].expiresAt == s.bookings[b].expiresAt
    requires forall b | b in s.bookings && MayBeNoShow(t.bookings[b].status) :: MayBeNoShow(s.bookings[b].status)
    ensures BoardingOk(t)
  {
    StatusKeepsValid(s, t);
    SameSeatsSameSlack(s, t);
    LeavingKeepsRows(s, t);
  }

  // ----- every run -----

  /** All steps but the operational cancellation of the trip and the no-show of its
      driver, which free seats without touching rows, and payments for what is not yet bought. */
  ghost predicate Orderly(s: Trip, step: TripStep) {
    match step
    case SeatStep(seatStep) => PaysForSold(s.inv, seatStep)
    case CancelTripStep(_) => false
    case DriverNoShowStep => false
    case _ => true
  }

  lemma MayBeNoShowIsSold(s: Inventory, b: BookingId)
    requires RowsOk(s) && b in s.bookings && MayBeNoShow(s.bookings[b].status)
    ensures AllSold(s, b)
  {
  }

  /** What the steps of the trip itself do to the inventory. */
  ghost predicate InventoryEffect(s: Trip, t: Inventory, step: TripStep) {
    || t == s.inv
    || (step.BoardStep? && step.b in s.inv.bookings && s.inv.bookings[step.b].status == Boarding && t == Board(s.inv, step.b))
    || (step.NoShowStep? && step.b in s.inv.bookings && MayBeNoShow(s.inv.bookings[step.b].status) && t == Leave(s.inv, step.b))
    || (step.StartBoardingStep? && t == s.inv.(bookings := ConfirmedToBoarding(s.inv.bookings)))
    || (step.StartTripStep? && t == s.inv.(bookings := Departed(s.inv)))
    || (step.CompleteStep? && t == s.inv.(bookings := Arrived(s.inv.bookings)))
  }

  lemma TripStepEffect(s: Trip, step: TripStep)
    requires !step.SeatStep? && !step.CancelTripStep? && !step.DriverNoShowStep?
    ensures InventoryEffect(s, TripApply(s, step).inv, step)
  {
  }

  lemma EffectKeepsBoarding(s: Trip, t: Inventory, step: TripStep)
    requires BoardingOk(s.inv) && InventoryEffect(s, t, step)
    ensures BoardingOk(t)
  {
    match step
    case BoardStep(b, _, _) =>
      if t != s.inv {
        MayBeNoShowIsSold(s.inv, b);
        BoardKeepsBoarding(s.inv, b);
      }
    case NoShowStep(b) =>
      if t != s.inv {
        MayBeNoShowIsSold(s.inv, b);
        LeaveKeepsBoarding(s.inv, b);
      }
    case _ => if t != s.inv { StatusKeepsBoarding(s.inv, t); }
  }

  lemma TripStepKeepsBoarding(s: Trip, step: TripStep)
    requires BoardingOk(s.inv) && TripEnabled(s, step) && Orderly(s, step)
    ensures BoardingOk(TripApply(s, step).inv)
  {
    if step.SeatStep? {
      SeatStepKeepsBoarding(s.inv, step.step);
    } else {
      TripStepEffect(s, step);
      EffectKeepsBoarding(s, TripApply(s, step).inv, step);
    }
  }

  ghost predicate OrderlyRun(s: Trip, steps: seq<TripStep>)
    decreases |steps|
  {
    steps != [] ==> Orderly(s, steps[0]) && OrderlyRun(TripApply(s, steps[0]), steps[1..])
  }

  /** On every such run, payments for sold rows included, availableSeatCount is at
      most the capacity less the seats booked or occupied. */
  lemma {:induction false} RunKeepsBoarding(s: Trip, steps: seq<TripStep>)
    requires BoardingOk(s.inv) && TripRun(s, steps) && OrderlyRun(s, steps)
    ensures BoardingOk(TripExec(s, steps).inv)
    decreases |steps|
  {
    if steps != [] {
      TripStepKeepsBoarding(s, steps[0]);
      RunKeepsBoarding(TripApply(s, steps[0]), steps[1..]);
    }
  }

  lemma PublishedMayBoard(capacity: nat)
    requires 1 <= capacity
    ensures BoardingOk(Publish(capacity))
  {
    PublishedIsValid(capacity);
    PublishedIsCounted(capacity);
    assert Plain(Publish(capacity)) == Publish(capacity);
  }
}
