/** Laws of whole transactions and whole runs of the seat inventory: stale reads,
    what a hold and a cancellation do, the availability counter, repeated
    transactions, and what a payment buys. */
module SeatLaws {
  import opened Tables
  import opened SeatInventory
  import opened SeatSafety
  import SeatLayout

  // ----- stale reads -----

  /** The two row counts of a confirm test exactly whether the hold is still
      ACTIVE, although neither of them looks at the hold. */
  lemma CountsMatchIffActive(s: Inventory, h: HoldId, read: Hold)
    requires Valid(s) && PossibleRead(s, h, read)
    ensures CountsMatch(s, read) <==> s.holds[h].status == HoldActive
  {
    if CountsMatch(s, read) {
      CountsProveOwnership(s, h, read);
    }
    if s.holds[h].status == HoldActive {
      forall x | x in read.items
        ensures x in s.seats && s.seats[x] == Held && RowKey(read.booking, x) in s.rows
             && s.rows[RowKey(read.booking, x)] == RowHeld
      {
        assert Covers(s, h, x) && CellOk(s, h, x);
      }
      assert (set x | x in read.items && x in s.seats && s.seats[x] == Held) == read.items;
      assert (set x | x in read.items && RowKey(read.booking, x) in s.rows && s.rows[RowKey(read.booking, x)] == RowHeld)
          == read.items;
    }
  }

  /** A confirm of a hold that was read ACTIVE writes if and only if the hold still is,
      however old the record, the caller is its client, it was not due, and the number
      of passengers is that of the booking. Every seat it books was HELD by this very
      hold, and nobody else's seat, row, hold or booking moves. */
  lemma ConfirmAfterStaleRead(t: Inventory, h: HoldId, client: UserId, passengers: nat, now: Time, read: Hold,
                              readBooking: BookingStatus)
    requires Valid(t) && PossibleRead(t, h, read) && read.status == HoldActive && readBooking != Confirmed
    ensures var r := Confirm(t, h, client, passengers, now, read, readBooking);
            && (r.Committed? <==>
                  && t.holds[h].status == HoldActive && client == read.client && now < read.expiresAt
                  && passengers == t.bookings[read.booking].passengerCount)
            && (r.Committed? ==> r.state == BookHold(t, h, read) && HoldBooked(t, r.state, h))
  {
    CountsMatchIffActive(t, h, read);
    OnlyTheseConfirm(t, h, client, passengers, now, read, readBooking);
    if CountsMatch(t, read) { BookHoldExactly(t, h, read); }
  }

  lemma OnlyTheseConfirm(t: Inventory, h: HoldId, client: UserId, passengers: nat, now: Time, read: Hold,
                         readBooking: BookingStatus)
    requires PossibleRead(t, h, read) && read.booking in t.bookings && read.status == HoldActive && readBooking != Confirmed
    ensures Confirm(t, h, client, passengers, now, read, readBooking).Committed? <==>
              && CountsMatch(t, read) && client == read.client && now < read.expiresAt
              && passengers == t.bookings[read.booking].passengerCount
    ensures var r := Confirm(t, h, client, passengers, now, read, readBooking);
            r.Committed? ==> r.state == BookHold(t, h, read)
  {
  }

  /** What a confirm of hold h writes. */
  ghost predicate HoldBooked(t: Inventory, u: Inventory, h: HoldId)
    requires h in t.holds && t.holds[h].booking in t.bookings
  {
    var hold := t.holds[h];
    && u.holds == t.holds[h := hold.(status := HoldConfirmed, version := hold.version + 1)]
    && u.bookings == t.bookings[hold.booking := t.bookings[hold.booking].(status := Confirmed)]
    && u.availableSeatCount == t.availableSeatCount - |hold.items|
    && u.seats.Keys == t.seats.Keys && u.rows.Keys == t.rows.Keys
    && (forall x | x in hold.items ::
          && x in t.seats && t.seats[x] == Held && u.seats[x] == Booked
          && RowAt(t, h, x) in t.rows && t.rows[RowAt(t, h, x)] == RowHeld && u.rows[RowAt(t, h, x)] == RowBooked)
    && (forall x | x in t.seats && x !in hold.items :: u.seats[x] == t.seats[x])
    && (forall k | k in t.rows && k.booking != hold.booking :: u.rows[k] == t.rows[k])
  }

  lemma BookHoldExactly(t: Inventory, h: HoldId, read: Hold)
    requires Valid(t) && PossibleRead(t, h, read) && CountsMatch(t, read)
    ensures HoldBooked(t, BookHold(t, h, read), h)
  {
    CountsProveOwnership(t, h, read);
    BookHoldTables(t, h, read);
  }

  lemma BookHoldTables(t: Inventory, h: HoldId, read: Hold)
    requires h in t.holds && read.booking in t.bookings
    ensures var u := BookHold(t, h, read);
            && u.holds == t.holds[h := t.holds[h].(status := HoldConfirmed, version := t.holds[h].version + 1)]
            && u.bookings == t.bookings[read.booking := t.bookings[read.booking].(status := Confirmed)]
  {
  }

  /** The same over a run, for any caller at any time: read an ACTIVE hold, let any
      transactions commit, confirm. It commits exactly if the hold is still ACTIVE
      and was read before its expiry, the caller is its client, and the number of
      passengers is that of its booking. */
  lemma StaleConfirm(s: Inventory, between: seq<Step>, h: HoldId, caller: UserId, passengers: nat, now: Time,
                     readBooking: BookingStatus)
    requires Valid(s) && Run(s, between) && h in s.holds
    requires s.holds[h].status == HoldActive && readBooking != Confirmed
    ensures var t, read := Exec(s, between), s.holds[h];
            && PossibleRead(t, h, read) && read.booking in t.bookings
            && (Confirm(t, h, caller, passengers, now, read, readBooking).Committed? <==>
                  && t.holds[h].status == HoldActive && caller == read.client && now < read.expiresAt
                  && passengers == t.bookings[read.booking].passengerCount)
  {
    var t, read := Exec(s, between), s.holds[h];
    RunKeepsValid(s, between);
    assert PossibleRead(t, h, read);
    CountsMatchIffActive(t, h, read);
  }

  /** The version claim of a release or expiry succeeds exactly when the hold
      is, field for field, the record that was read; it then frees the seats of
      that hold and no others, and otherwise nothing changes. */
  lemma StaleRelease(s: Inventory, between: seq<Step>, h: HoldId, status: HoldStatus)
    requires Valid(s) && Run(s, between) && h in s.holds && s.holds[h].status == HoldActive
    requires status == HoldExpired || status == HoldReleased
    ensures var t, read := Exec(s, between), s.holds[h];
            var u := ReleaseHold(t, HoldRead(h, read), status);
            && (Claims(t, HoldRead(h, read)) <==> h in t.holds && t.holds[h] == read)
            && (if Claims(t, HoldRead(h, read)) then
                  && u.holds[h].status == status
                  && (forall x | x in t.seats ::
                        if x in read.items then t.seats[x] == Held && u.seats[x] == Available else u.seats[x] == t.seats[x])
                  && (forall k | k in t.rows ::
                        if k.booking == read.booking then t.rows[k] == RowHeld && u.rows[k] == RowReleased
                        else u.rows[k] == t.rows[k])
                else u == t)
  {
    var t, read := Exec(s, between), s.holds[h];
    RunKeepsValid(s, between);
    assert PossibleRead(t, h, read);
    if Claims(t, HoldRead(h, read)) {
      forall x | x in read.items ensures x in t.seats && t.seats[x] == Held {
        assert Covers(t, h, x) && CellOk(t, h, x);
      }
      forall k | k in t.rows && k.booking == read.booking ensures t.rows[k] == RowHeld && k.seat in read.items {
        var g :| Covers(t, g, k.seat) && RowAt(t, g, k.seat) == k;
        assert g == h && CellOk(t, h, k.seat);
      }
    }
  }

  /** The client's release ends the booking exactly when its claim succeeds. */
  lemma ReleaseEndsBookingExactly(s: Inventory, h: HoldId, read: Hold)
    requires Valid(s) && PossibleRead(s, h, read) && read.status == HoldActive && s.bookings[read.booking].status != Expired
    ensures var r := Release(s, h, read.client, read);
            && r.Committed?
            && (r.state.bookings[read.booking].status == Expired <==> s.holds[h] == read)
            && (s.holds[h] != read ==> r.state == s)
            && (s.holds[h] == read ==> r.state.holds[h].status == HoldReleased)
  {
  }

  /** Why the second count is needed: after a hold expired and another client
      took the seat, the seat count of a late confirm still comes out right. */
  lemma SeatCountAloneIsFooled(s: Inventory, h: HoldId, g: HoldId)
    requires Valid(s) && h in s.holds && g in s.holds
    requires s.holds[g].status == HoldActive && s.holds[h].status != HoldActive
    requires s.holds[h].items == s.holds[g].items
    ensures CountSeats(s.seats, s.holds[h].items, Held) == |s.holds[h].items|
    ensures CountRows(s.rows, s.holds[h].booking, s.holds[h].items, RowHeld) == 0
  {
    CountsMatchIffActive(s, g, s.holds[g]);
    forall x | x in s.holds[h].items
      ensures RowKey(s.holds[h].booking, x) in s.rows && s.rows[RowKey(s.holds[h].booking, x)] != RowHeld
    {
      assert Covers(s, h, x) && CellOk(s, h, x);
    }
    assert (set x | x in s.holds[h].items && RowKey(s.holds[h].booking, x) in s.rows
                 && s.rows[RowKey(s.holds[h].booking, x)] == RowHeld) == {};
  }

  // ----- what a hold and a cancellation do -----

  /** The seats a request asks for: all of the car, or those it names. */
  function AskedFor(s: Inventory, request: HoldRequest): set<SeatKey> {
    match request.kind
    case WholeCar => s.seats.Keys
    case OneSeat => request.seatKeys
    case MultiSeat => request.seatKeys
  }

  /** Hold creation on a trip with all its seats is granted exactly when the request
      names one seat, or as many as there are passengers, or is for the whole car,
      and all seats it asks for are AVAILABLE. */
  lemma HoldGrantedExactly(s: Inventory, h: HoldId, b: BookingId, request: HoldRequest, expiresAt: Time)
    requires h !in s.holds && b !in s.bookings
    ensures var keys := AskedFor(s, request);
            TakeFrom(s, h, b, request, expiresAt).Committed? <==>
              && (request.kind == OneSeat ==> |keys| == 1)
              && (request.kind == MultiSeat ==> |keys| == request.passengerCount)
              && forall x | x in keys :: x in s.seats && s.seats[x] == Available
  {
    var keys := AskedFor(s, request);
    if CountSeats(s.seats, keys, Available) == |keys| { CountedSeatsAreFree(s.seats, keys, Available); }
    if forall x | x in keys :: x in s.seats && s.seats[x] == Available { AllSeatsCount(s.seats, keys, Available); }
  }

  /** A granted hold has exactly the seats asked for, and its booking the client and
      the number of passengers of the request. The seats are HELD for it until it
      expires; no other hold, booking, row or seat and no counter moves. */
  lemma GrantedHoldHasItsSeats(s: Inventory, h: HoldId, b: BookingId, request: HoldRequest, expiresAt: Time)
    requires TakeFrom(s, h, b, request, expiresAt).Committed?
    ensures var t, keys := TakeFrom(s, h, b, request, expiresAt).state, AskedFor(s, request);
            && h !in s.holds && t.holds == s.holds[h := Hold(b, request.client, keys, expiresAt, HoldActive, 1)]
            && b !in s.bookings
            && t.bookings == s.bookings[b := Booking(request.client, request.passengerCount, expiresAt, OnHold)]
            && (request.kind == OneSeat ==> |keys| == 1)
            && (request.kind == MultiSeat ==> |keys| == request.passengerCount)
            && t.seats.Keys == s.seats.Keys
            && (forall x | x in t.seats :: t.seats[x] == if x in keys then Held else s.seats[x])
            && (forall x | x in keys :: RowKey(b, x) in t.rows && t.rows[RowKey(b, x)] == RowHeld)
            && (forall k: RowKey | k.booking != b || k.seat !in keys ::
                  (k in t.rows <==> k in s.rows) && (k in s.rows ==> t.rows[k] == s.rows[k]))
            && t.availableSeatCount == s.availableSeatCount && t.capacity == s.capacity
  {
    CountedSeatsAreFree(s.seats, RequestedKeys(s, request), Available);
  }

  /** Who may cancel what: a client only his own booking, a driver or administrator
      any. A booking that is cancelled or EXPIRED already is left as it is. */
  lemma CancelIsAllowedExactly(s: Inventory, b: BookingId, user: UserId, role: Role)
    ensures CancelBooking(s, b, user, role).Committed? <==>
              b in s.bookings && (role == Client ==> user == s.bookings[b].client)
    ensures CancelBooking(s, b, user, role).Rejected? ==> Apply(s, CancelStep(b, user, role)) == s
    ensures CancelBooking(s, b, user, role).Committed?
            && s.bookings[b].status in {CancelledByClient, CancelledByDriver, CancelledByAdmin, Expired} ==>
              CancelBooking(s, b, user, role).state == s
  {
  }

  /** A cancellation frees exactly the seats of the booking's live rows, cancels
      those rows and an ACTIVE hold, and touches nobody else; its status says who
      cancelled. */
  lemma CancelFreesExactlyItsSeats(s: Inventory, b: BookingId, user: UserId, role: Role)
    requires Valid(s) && CancelBooking(s, b, user, role).Committed?
    requires s.bookings[b].status !in {CancelledByClient, CancelledByDriver, CancelledByAdmin, Expired}
    ensures var t := CancelBooking(s, b, user, role).state;
            && t.bookings[b].status ==
               (match role case Client => CancelledByClient case Driver => CancelledByDriver case Admin => CancelledByAdmin)
            && (forall x | x in s.seats ::
                  t.seats[x] == if RowKey(b, x) in s.rows && s.rows[RowKey(b, x)] in {RowHeld, RowBooked} then Available
                                else s.seats[x])
            && (forall k | k in s.rows ::
                  t.rows[k] == if k.booking == b && s.rows[k] in {RowHeld, RowBooked} then RowCancelled else s.rows[k])
            && (forall h | h in s.holds ::
                  t.holds[h] == if s.holds[h].booking == b && s.holds[h].status == HoldActive
                                then s.holds[h].(status := HoldCancelled, version := s.holds[h].version + 1)
                                else s.holds[h])
            && (forall c | c in s.bookings && c != b :: t.bookings[c] == s.bookings[c])
  {
    forall x | x in s.seats
      ensures x in LiveSeats(s, b) <==> RowKey(b, x) in s.rows && s.rows[RowKey(b, x)] in {RowHeld, RowBooked}
      ensures x in LiveSeats(s, b) ==> Taken(s.seats[x])
    {
      RowSeats(s, b, x);
      if x in LiveSeats(s, b) { BookingRowCell(s, RowKey(b, x)); }
    }
  }

  // ----- the availability counter -----

  ghost function BookedSeats(s: Inventory): set<SeatKey> {
    set x | x in s.seats && s.seats[x] == Booked
  }

  /** The seats that are neither booked nor counted as available. */
  ghost function Slack(s: Inventory): int {
    s.capacity - |BookedSeats(s)| - s.availableSeatCount
  }

  /** The counter law: seats not booked are counted as available. */
  ghost predicate Counted(s: Inventory) {
    Slack(s) == 0
  }

  /** A seat that was paid for while its hold was ACTIVE: the row says booked,
      the seat still says held, and the counter was never decremented for it. */
  ghost predicate PaidUncounted(s: Inventory, b: BookingId, x: SeatKey) {
    x in s.seats && RowKey(b, x) in s.rows && s.rows[RowKey(b, x)] == RowBooked && s.seats[x] == Held
  }

  ghost predicate CancelsUncounted(s: Inventory, step: Step) {
    && step.CancelStep?
    && Attempt(s, step).Committed?
    && !ClosedForCancel(s.bookings[step.b].status)
    && exists x :: PaidUncounted(s, step.b, x)
  }

  lemma RowSeats(s: Inventory, b: BookingId, x: SeatKey)
    ensures x in LiveSeats(s, b) <==> RowKey(b, x) in s.rows && Live(s.rows[RowKey(b, x)])
    ensures x in BookedRows(s, b) <==> RowKey(b, x) in s.rows && s.rows[RowKey(b, x)] == RowBooked
  {
    if RowKey(b, x) in s.rows { assert RowKey(b, x).seat == x; }
  }

  /** A booking's BOOKED rows and the BOOKED seats among its live ones agree
      exactly when nothing of it was paid while on hold. */
  lemma FreedSeats(s: Inventory, b: BookingId)
    requires Valid(s)
    ensures BookedSeats(s) * LiveSeats(s, b) <= BookedRows(s, b)
    ensures BookedSeats(s) * LiveSeats(s, b) == BookedRows(s, b) <==> !exists x :: PaidUncounted(s, b, x)
  {
    forall x
      ensures x in BookedSeats(s) * LiveSeats(s, b) ==> x in BookedRows(s, b)
      ensures x in BookedRows(s, b) && x !in BookedSeats(s) * LiveSeats(s, b) <==> PaidUncounted(s, b, x)
    {
      RowSeats(s, b, x);
      if RowKey(b, x) in s.rows { BookingRowCell(s, RowKey(b, x)); }
    }
  }

  lemma CancelFreesBookedSeats(s: Inventory, b: BookingId, user: UserId, role: Role)
    requires CancelBooking(s, b, user, role).Committed? && !ClosedForCancel(s.bookings[b].status)
    ensures var t := CancelBooking(s, b, user, role).state;
            && |BookedSeats(t)| == |BookedSeats(s)| - |BookedSeats(s) * LiveSeats(s, b)|
            && t.availableSeatCount == s.availableSeatCount + |BookedRows(s, b)|
            && t.capacity == s.capacity
  {
    var t := CancelBooking(s, b, user, role).state;
    var freed := BookedSeats(s) * LiveSeats(s, b);
    assert BookedSeats(t) == BookedSeats(s) - freed;
    assert |BookedSeats(s)| == |BookedSeats(s) - freed| + |freed|;
  }

  lemma CancelCounter(s: Inventory, b: BookingId, user: UserId, role: Role)
    requires Valid(s)
    requires CancelBooking(s, b, user, role).Committed? && !ClosedForCancel(s.bookings[b].status)
    ensures Slack(CancelBooking(s, b, user, role).state) == Slack(s) <==> !exists x :: PaidUncounted(s, b, x)
  {
    CancelFreesBookedSeats(s, b, user, role);
    FreedSeats(s, b);
    SubsetCardinality(BookedSeats(s) * LiveSeats(s, b), BookedRows(s, b));
  }

  lemma BookingRowCell(s: Inventory, k: RowKey)
    requires Valid(s) && k in s.rows
    ensures k.seat in s.seats
    ensures s.rows[k] == RowHeld ==> s.seats[k.seat] == Held
    ensures s.rows[k] == RowBooked ==> s.seats[k.seat] == Held || s.seats[k.seat] == Booked
  {
    var h :| Covers(s, h, k.seat) && RowAt(s, h, k.seat) == k;
    assert CellOk(s, h, k.seat);
  }

  lemma ConfirmCounter(s: Inventory, h: HoldId, read: Hold)
    requires Valid(s) && PossibleRead(s, h, read) && CountsMatch(s, read)
    ensures Slack(BookHold(s, h, read)) == Slack(s)
  {
    CountsProveOwnership(s, h, read);
    var t := BookHold(s, h, read);
    assert BookedSeats(t) == BookedSeats(s) + read.items by {
      assert forall x | x in read.items :: x in s.seats && s.seats[x] == Held;
    }
    assert BookedSeats(s) !! read.items;
    assert |BookedSeats(s) + read.items| == |BookedSeats(s)| + |read.items|;
  }

  lemma ReleaseCounter(s: Inventory, read: HoldRead, status: HoldStatus)
    ensures var t := ReleaseHold(s, read, status);
            BookedSeats(t) == BookedSeats(s) && t.availableSeatCount == s.availableSeatCount && t.capacity == s.capacity
  {
  }

  lemma {:induction false} SweepCounter(s: Inventory, batch: seq<HoldRead>, copyExpiry: bool)
    ensures var t := Sweep(s, batch, copyExpiry);
            BookedSeats(t) == BookedSeats(s) && t.availableSeatCount == s.availableSeatCount && t.capacity == s.capacity
    decreases |batch|
  {
    if batch != [] {
      ReleaseCounter(s, batch[0], HoldExpired);
      SweepCounter(ExpireHold(s, batch[0], copyExpiry), batch[1..], copyExpiry);
    }
  }

  lemma CreateCounter(s: Inventory, h: HoldId, b: BookingId, request: HoldRequest, expiresAt: Time,
                      found: HoldLookup, sweep: seq<HoldRead>)
    ensures var r := CreateHold(s, h, b, request, expiresAt, found, sweep);
            r.Committed? ==>
              && BookedSeats(r.state) == BookedSeats(s)
              && r.state.availableSeatCount == s.availableSeatCount
              && r.state.capacity == s.capacity
  {
    var t := Sweep(s, sweep, true);
    SweepCounter(s, sweep, true);
    AllSeatsCounter(t);
    PlaceCounter(WithAllSeats(t), h, b, request, RequestedKeys(WithAllSeats(t), request), expiresAt);
  }

  lemma AllSeatsCounter(s: Inventory)
    ensures BookedSeats(WithAllSeats(s)) == BookedSeats(s)
  {
  }

  lemma PlaceCounter(s: Inventory, h: HoldId, b: BookingId, request: HoldRequest, items: set<SeatKey>, expiresAt: Time)
    ensures BookedSeats(PlaceHold(s, h, b, request, items, expiresAt)) == BookedSeats(s)
  {
  }

  /** The counter moves with the booked seats in every transaction except one,
      and in that one never: cancelling a booking with a seat that was paid while
      on hold. */
  lemma CounterLawExactly(s: Inventory, step: Step)
    requires Valid(s) && Enabled(s, step)
    ensures Slack(Apply(s, step)) == Slack(s) <==> !CancelsUncounted(s, step)
  {
    match step
    case CreateHoldStep(h, b, request, expiresAt, found, sweep, now) =>
      CreateCounter(s, h, b, request, expiresAt, found, sweep);
    case ConfirmStep(h, client, passengers, now, read, readBooking) =>
      ConfirmOutcomes(s, h, client, passengers, now, read, readBooking);
      if CountsMatch(s, read) { ConfirmCounter(s, h, read); }
    case ReleaseStep(h, client, read) => ReleaseCounter(s, HoldRead(h, read), HoldReleased);
    case SweepStep(sweep, now) => SweepCounter(s, sweep, true);
    case WorkerExpireStep(overdue, _) => ReleaseCounter(s, overdue, HoldExpired);
    case CancelStep(b, user, role) =>
      if Attempt(s, step).Committed? && !ClosedForCancel(s.bookings[b].status) { CancelCounter(s, b, user, role); }
    case PaymentSucceededStep(b) => assert BookedSeats(PaymentSucceeded(s, b)) == BookedSeats(s);
    case PaymentExpiredStep(b, first) =>
      if first.Some? && first.value in s.holds {
        ReleaseCounter(s, HoldRead(first.value, s.holds[first.value]), HoldExpired);
      }
    case PaymentStartedStep(b, online) =>
    case ApproveStep(b) =>
  }

  ghost predicate NoUncountedCancel(s: Inventory, steps: seq<Step>)
    decreases |steps|
  {
    steps != [] ==> !CancelsUncounted(s, steps[0]) && NoUncountedCancel(Apply(s, steps[0]), steps[1..])
  }

  /** On every run without such a cancellation the counter is exact, and so it
      stays between zero and the capacity. */
  lemma {:induction false} CounterOnRuns(s: Inventory, steps: seq<Step>)
    requires Valid(s) && Counted(s) && Run(s, steps) && NoUncountedCancel(s, steps)
    ensures Counted(Exec(s, steps))
    ensures 0 <= Exec(s, steps).availableSeatCount <= Exec(s, steps).capacity
    decreases |steps|
  {
    if steps == [] {
      SubsetCardinality(BookedSeats(s), s.seats.Keys);
    } else {
      CounterLawExactly(s, steps[0]);
      StepKeepsValid(s, steps[0]);
      CounterOnRuns(Apply(s, steps[0]), steps[1..]);
    }
  }

  lemma PublishedIsCounted(capacity: nat)
    ensures Counted(Publish(capacity))
  {
    assert BookedSeats(Publish(capacity)) == {};
  }

  // ----- repeated transactions -----

  ghost predicate NoneClaims(s: Inventory, batch: seq<HoldRead>) {
    forall i | 0 <= i < |batch| :: !Claims(s, batch[i])
  }

  lemma {:induction false} NothingToSweep(s: Inventory, batch: seq<HoldRead>, copyExpiry: bool)
    requires NoneClaims(s, batch)
    ensures Sweep(s, batch, copyExpiry) == s
    decreases |batch|
  {
    if batch != [] {
      assert !Claims(s, batch[0]);
      NothingToSweep(s, batch[1..], copyExpiry);
    }
  }

  lemma {:induction false} UnclaimedStaysUnclaimed(s: Inventory, batch: seq<HoldRead>, copyExpiry: bool, read: HoldRead)
    requires !Claims(s, read)
    requires read.id in s.holds && read.hold.version <= s.holds[read.id].version
    ensures !Claims(Sweep(s, batch, copyExpiry), read)
    decreases |batch|
  {
    if batch != [] { UnclaimedStaysUnclaimed(ExpireHold(s, batch[0], copyExpiry), batch[1..], copyExpiry, read); }
  }

  lemma {:induction false} SweptIsUnclaimed(s: Inventory, batch: seq<HoldRead>, copyExpiry: bool)
    requires forall i | 0 <= i < |batch| :: batch[i].id in s.holds && batch[i].hold.version <= s.holds[batch[i].id].version
    ensures NoneClaims(Sweep(s, batch, copyExpiry), batch)
    decreases |batch|
  {
    if batch != [] {
      var t := ExpireHold(s, batch[0], copyExpiry);
      UnclaimedStaysUnclaimed(t, batch[1..], copyExpiry, batch[0]);
      SweptIsUnclaimed(t, batch[1..], copyExpiry);
      assert forall i | 0 < i < |batch| :: batch[i] == batch[1..][i - 1];
    }
  }

  lemma RepeatedConfirm(s: Inventory, step: Step)
    requires Valid(s) && Enabled(s, step) && step.ConfirmStep?
    ensures Apply(Apply(s, step), step) == Apply(s, step)
  {
    if Attempt(s, step).Committed? && !AlreadyConfirmed(step.read, step.readBooking) {
      NoHeldRowsLeft(s, step.h, step.read);
    }
  }

  lemma NoHeldRowsLeft(s: Inventory, h: HoldId, read: Hold)
    requires h in s.holds && read.items != {}
    ensures !CountsMatch(BookHold(s, h, read), read)
  {
    var t := BookHold(s, h, read);
    assert (set x | x in read.items && RowKey(read.booking, x) in t.rows && t.rows[RowKey(read.booking, x)] == RowHeld) == {};
  }

  /** Repeating a confirm, a release, an expiry or a cancellation changes nothing
      and counts nothing twice, even when the repetition works from the same stale
      record as the first attempt. */
  lemma RepeatingChangesNothing(s: Inventory, step: Step)
    requires Valid(s) && Enabled(s, step)
    requires step.ConfirmStep? || step.ReleaseStep? || step.SweepStep? || step.WorkerExpireStep? || step.CancelStep?
    ensures Apply(Apply(s, step), step) == Apply(s, step)
  {
    match step
    case ConfirmStep(_, _, _, _, _, _) => RepeatedConfirm(s, step);
    case ReleaseStep(_, _, _) =>
    case SweepStep(sweep, now) =>
      assert forall i | 0 <= i < |sweep| :: Overdue(s, sweep[i].id, now);
      SweptIsUnclaimed(s, sweep, true);
      NothingToSweep(Sweep(s, sweep, true), sweep, true);
    case WorkerExpireStep(_, _) =>
    case CancelStep(_, _, _) =>
  }

  // ----- what a payment buys -----

  /** A successful payment secures a seat exactly when the booking still had it:
      through its ACTIVE hold, or because it was booked already. After the hold
      expired, was released or was cancelled, the money buys no seat. */
  lemma PaymentBuysWhatTheHoldStillHas(s: Inventory, h: HoldId)
    requires Valid(s) && h in s.holds
    ensures var t := PaymentSucceeded(s, s.holds[h].booking);
            && t.seats == s.seats && t.availableSeatCount == s.availableSeatCount
            && (forall x | x in s.holds[h].items ::
                  (s.holds[h].status == HoldActive || s.rows[RowAt(s, h, x)] == RowBooked)
                  == (t.rows[RowAt(s, h, x)] == RowBooked))
            && (s.holds[h].status != HoldActive && s.holds[h].status != HoldConfirmed ==>
                  forall x | x in s.holds[h].items :: !LiveAt(t, h, x))
  {
    forall x | x in s.holds[h].items ensures Covers(s, h, x) && CellOk(s, h, x) {
    }
  }

  lemma RowOfHold(s: Inventory, h: HoldId, k: RowKey)
    requires Valid(s) && h in s.holds && k in s.rows && k.booking == s.holds[h].booking
    ensures Covers(s, h, k.seat) && k == RowAt(s, h, k.seat) && CellOk(s, h, k.seat)
  {
    var g :| Covers(s, g, k.seat) && RowAt(s, g, k.seat) == k;
    assert g == h;
  }

  lemma PaidRowsAreTheHold(s: Inventory, h: HoldId)
    requires Valid(s) && h in s.holds && s.holds[h].status == HoldActive
    ensures BookedRows(PaymentSucceeded(s, s.holds[h].booking), s.holds[h].booking) == s.holds[h].items
  {
    var b := s.holds[h].booking;
    var t := PaymentSucceeded(s, b);
    forall x ensures x in BookedRows(t, b) <==> x in s.holds[h].items {
      RowSeats(t, b, x);
      if x in s.holds[h].items { assert Covers(s, h, x) && CellOk(s, h, x); }
      if RowKey(b, x) in s.rows { RowOfHold(s, h, RowKey(b, x)); }
    }
  }

  lemma PaidLiveSeatsWereHeld(s: Inventory, h: HoldId)
    requires Valid(s) && h in s.holds && s.holds[h].status == HoldActive
    ensures var b := s.holds[h].booking;
            forall x | x in LiveSeats(PaymentSucceeded(s, b), b) :: x in s.seats && s.seats[x] == Held
  {
    var b := s.holds[h].booking;
    var t := PaymentSucceeded(s, b);
    forall x | x in LiveSeats(t, b) ensures x in s.seats && s.seats[x] == Held {
      RowSeats(t, b, x);
      RowOfHold(s, h, RowKey(b, x));
    }
  }

  lemma CancelAfterPayment(t: Inventory, b: BookingId, user: UserId, role: Role)
    requires b in t.bookings && !ClosedForCancel(t.bookings[b].status) && (role == Client ==> t.bookings[b].client == user)
    requires forall x | x in LiveSeats(t, b) && x in t.seats :: t.seats[x] == Held
    ensures var r := CancelBooking(t, b, user, role);
            && r.Committed?
            && r.state.availableSeatCount == t.availableSeatCount + |BookedRows(t, b)|
            && BookedSeats(r.state) == BookedSeats(t)
  {
  }

  /** Paying while the hold is ACTIVE and cancelling afterwards counts seats back
      that were never counted out. */
  lemma PaidThenCancelledOvercounts(s: Inventory, h: HoldId, user: UserId, role: Role)
    requires Valid(s) && h in s.holds && s.holds[h].status == HoldActive
    requires var booking := s.bookings[s.holds[h].booking];
             !ClosedForCancel(booking.status) && (role == Client ==> booking.client == user)
    ensures var b := s.holds[h].booking;
            var r := CancelBooking(PaymentSucceeded(s, b), b, user, role);
            && r.Committed?
            && r.state.availableSeatCount == s.availableSeatCount + |s.holds[h].items|
            && BookedSeats(r.state) == BookedSeats(s)
  {
    PaidRowsAreTheHold(s, h);
    PaidLiveSeatsWereHeld(s, h);
    CancelAfterPayment(PaymentSucceeded(s, s.holds[h].booking), s.holds[h].booking, user, role);
  }

  lemma AllSeatsCount(seats: map<SeatKey, SeatStatus>, ids: set<SeatKey>, status: SeatStatus)
    requires forall x | x in ids :: x in seats && seats[x] == status
    ensures CountSeats(seats, ids, status) == |ids|
  {
    assert (set x | x in ids && x in seats && seats[x] == status) == ids;
  }

  function OneSeatRequest(seat: SeatKey): HoldRequest {
    HoldRequest(7, OneSeat, {seat}, 1)
  }

  function CreateFirst(seat: SeatKey): Step {
    CreateHoldStep(0, 0, OneSeatRequest(seat), 600, Bookable, [], 0)
  }

  ghost predicate FreshTrip(s: Inventory, seat: SeatKey) {
    && Valid(s) && s.capacity == 1 && s.seats == map[seat := Available]
    && s.holds == map[] && s.rows == map[] && s.bookings == map[]
  }

  lemma FirstHoldIsCreated(s: Inventory, seat: SeatKey)
    requires |s.seats| >= s.capacity && seat in s.seats && s.seats[seat] == Available && 0 !in s.holds && 0 !in s.bookings
    ensures Apply(s, CreateFirst(seat)) == PlaceHold(s, 0, 0, OneSeatRequest(seat), {seat}, 600)
  {
    FirstTaken(s, seat);
    assert Sweep(s, [], true) == s;
  }

  lemma FirstTaken(s: Inventory, seat: SeatKey)
    requires |s.seats| >= s.capacity && seat in s.seats && s.seats[seat] == Available && 0 !in s.holds && 0 !in s.bookings
    ensures TakeSeats(s, 0, 0, OneSeatRequest(seat), 600) == Committed(PlaceHold(s, 0, 0, OneSeatRequest(seat), {seat}, 600))
  {
    AllSeatsCount(s.seats, {seat}, Available);
  }

  lemma CancelIsApplied(s: Inventory, b: BookingId, user: UserId, role: Role)
    ensures var r := CancelBooking(PaymentSucceeded(s, b), b, user, role);
            r.Committed? ==> Apply(Apply(s, PaymentSucceededStep(b)), CancelStep(b, user, role)) == r.state
  {
  }

  lemma FirstHoldIsEnabled(s: Inventory, seat: SeatKey)
    requires s.holds == map[]
    ensures Enabled(s, CreateFirst(seat))
  {
    assert OverdueHolds(s, 0) == {};
  }

  lemma FirstHoldIsValid(s: Inventory, seat: SeatKey)
    requires FreshTrip(s, seat)
    ensures Valid(PlaceHold(s, 0, 0, OneSeatRequest(seat), {seat}, 600))
  {
    PlaceHoldKeepsValid(s, 0, 0, OneSeatRequest(seat), {seat}, 600);
  }

  lemma HeldPaidCancelled(t: Inventory, seat: SeatKey)
    requires Valid(t) && 0 in t.holds && t.holds[0] == Hold(0, 7, {seat}, 600, HoldActive, 1)
    requires 0 in t.bookings && t.bookings[0] == Booking(7, 1, 600, OnHold)
    ensures Apply(Apply(Apply(t, PaymentStartedStep(0, true)), PaymentSucceededStep(0)), CancelStep(0, 7, Client))
              .availableSeatCount == t.availableSeatCount + 1
  {
    var u := Apply(t, PaymentStartedStep(0, true));
    StepKeepsValid(t, PaymentStartedStep(0, true));
    assert u.holds == t.holds && u.bookings[0] == Booking(7, 1, 600, PaymentPending);
    PaidThenCancelledOvercounts(u, 0, 7, Client);
    CancelIsApplied(u, 0, 7, Client);
  }

  /** The smallest overcounting run from publication: one seat is held, paid for
      online and cancelled, every step of it possible, and the counter then says
      two. */
  lemma OvercountFromPublication() returns (hold: Step, start: Step, pay: Step, cancel: Step)
    ensures Enabled(Publish(1), hold) && start.PaymentStartedStep? && pay.PaymentSucceededStep? && cancel.CancelStep?
    ensures Apply(Apply(Apply(Apply(Publish(1), hold), start), pay), cancel).availableSeatCount == 2
  {
    var seat := SeatLayout.SeatAt(0).seatKey;
    hold, start := CreateFirst(seat), PaymentStartedStep(0, true);
    pay, cancel := PaymentSucceededStep(0), CancelStep(0, 7, Client);
    PublishedIsValid(1);
    OneSeatTrip();
    FirstHoldIsEnabled(Publish(1), seat);
    assert Publish(1).seats.Keys == {seat} && |Publish(1).seats| == |Publish(1).seats.Keys|;
    FirstHoldIsCreated(Publish(1), seat);
    FirstHoldIsValid(Publish(1), seat);
    HeldPaidCancelled(Apply(Publish(1), hold), seat);
  }

  lemma OneSeatTrip()
    ensures Publish(1).seats == map[SeatLayout.SeatAt(0).seatKey := Available]
  {
    assert SeatLayout.Layout(1) == [SeatLayout.SeatAt(0)];
    assert SeatLayout.Keys(1) == {SeatLayout.SeatAt(0).seatKey};
  }
}
