/** The seat inventory as the database keeps it: tables that transactions update
    in place, statement by statement. Every method is proved to do what the
    corresponding function of SeatInventory says, so the laws proved there hold
    of it. A thrown error restores the state the transaction started from. */
module SeatStore {
  import opened Tables
  import opened SeatInventory
  import opened SeatSafety
  import opened SeatExpiry
  import HoldKeys
  import I = Idempotency
  import SeatLayout

  class Store {
    var capacity: nat
    var availableSeatCount: int
    var seats: map<SeatKey, SeatStatus>
    var holds: map<HoldId, Hold>
    var rows: map<RowKey, RowStatus>
    var bookings: map<BookingId, Booking>
    var records: map<I.Key, I.Record<HoldId>>

    function View(): Inventory
      reads this
    {
      Inventory(capacity, availableSeatCount, seats, holds, rows, bookings)
    }

    /** The tables with the idempotency records of hold creation. */
    function Db(): HoldKeys.HoldDb
      reads this
    {
      I.Database(records, View())
    }

    constructor (capacity: nat)
      ensures Db() == I.Database(map[], Publish(capacity))
    {
      this.capacity := capacity;
      availableSeatCount := capacity;
      seats := SeatLayout.EnsureTripSeats(map[], capacity, Available);
      holds, rows, bookings, records := map[], map[], map[], map[];
    }

    method Rollback(saved: Inventory)
      modifies this
      ensures records == old(records)
      ensures View() == saved
    {
      capacity, availableSeatCount := saved.capacity, saved.availableSeatCount;
      seats, holds, rows, bookings := saved.seats, saved.holds, saved.rows, saved.bookings;
    }

    method UpdateSeats(ids: set<SeatKey>, from: SeatStatus, to: SeatStatus) returns (count: nat)
      modifies this`seats
      ensures seats == MoveSeats(old(seats), ids, from, to)
      ensures count == CountSeats(old(seats), ids, from)
    {
      count := |set x | x in ids && x in seats && seats[x] == from|;
      seats := map x | x in seats :: if x in ids && seats[x] == from then to else seats[x];
    }

    method UpdateRows(b: BookingId, ids: set<SeatKey>, from: RowStatus, to: RowStatus) returns (count: nat)
      modifies this`rows
      ensures rows == MoveRows(old(rows), b, ids, from, to)
      ensures count == CountRows(old(rows), b, ids, from)
    {
      count := |set x | x in ids && RowKey(b, x) in rows && rows[RowKey(b, x)] == from|;
      rows := map k | k in rows :: if k.booking == b && k.seat in ids && rows[k] == from then to else rows[k];
    }

    method UpdateBooking(b: BookingId, status: BookingStatus)
      modifies this`bookings
      ensures bookings == MoveBookings(old(bookings), {b}, status)
    {
      bookings := map c | c in bookings :: if c in {b} then bookings[c].(status := status) else bookings[c];
    }

    method ReleaseActiveSeatHold(read: HoldRead, status: HoldStatus) returns (released: bool)
      modifies this
      ensures records == old(records)
      ensures released <==> Claims(old(View()), read)
      ensures View() == ReleaseHold(old(View()), read, status)
    {
      if read.id !in holds || holds[read.id].status != HoldActive || holds[read.id].version != read.hold.version {
        return false;
      }
      holds := holds[read.id := holds[read.id].(status := status, version := holds[read.id].version + 1)];
      var _ := UpdateSeats(read.hold.items, Held, Available);
      var _ := UpdateRows(read.hold.booking, read.hold.items, RowHeld, RowReleased);
      return true;
    }

    /** The overdue holds a query with the row limit returns. */
    method QueryOverdue(now: Time) returns (batch: seq<HoldRead>)
      ensures OverdueBatch(View(), batch, now)
    {
      var todo := set h | h in holds && holds[h].status == HoldActive && holds[h].expiresAt <= now;
      ghost var all := todo;
      assert all == OverdueHolds(View(), now);
      batch := [];
      while |batch| < SWEEP_LIMIT && todo != {}
        invariant todo <= all && |todo| + |batch| == |all| && |batch| <= SWEEP_LIMIT
        invariant forall i | 0 <= i < |batch| ::
          Overdue(View(), batch[i].id, now) && batch[i].hold == holds[batch[i].id] && batch[i].id !in todo
        invariant forall i, j | 0 <= i < j < |batch| :: batch[i].id != batch[j].id
        decreases |todo|
      {
        var h :| h in todo;
        assert h in all;
        batch := batch + [HoldRead(h, holds[h])];
        todo := todo - {h};
      }
    }

    method ExpireOne(read: HoldRead, copyExpiry: bool) returns (released: bool)
      modifies this
      ensures records == old(records)
      ensures released <==> Claims(old(View()), read)
      ensures View() == ExpireHold(old(View()), read, copyExpiry)
    {
      released := ReleaseActiveSeatHold(read, HoldExpired);
      if released {
        UpdateBooking(read.hold.booking, Expired);
        if copyExpiry && read.hold.booking in bookings {
          bookings := bookings[read.hold.booking := bookings[read.hold.booking].(expiresAt := read.hold.expiresAt)];
        }
      }
    }

    method ExpireBatch(batch: seq<HoldRead>, copyExpiry: bool) returns (expired: nat)
      requires Current(View(), batch)
      modifies this
      ensures records == old(records)
      ensures expired == |batch|
      ensures View() == Sweep(old(View()), batch, copyExpiry)
    {
      expired := 0;
      var i := 0;
      while i < |batch|
        invariant 0 <= i <= |batch| && expired == i && records == old(records)
        invariant Current(View(), batch[i..])
        invariant Sweep(View(), batch[i..], copyExpiry) == Sweep(old(View()), batch, copyExpiry)
      {
        ghost var rest := batch[i..];
        assert rest[0] == batch[i] && rest[1..] == batch[i + 1..];
        CurrentAfterFirst(View(), rest, copyExpiry);
        var released := ExpireOne(batch[i], copyExpiry);
        if released {
          expired := expired + 1;
        }
        i := i + 1;
      }
    }

    /** The expiry loop of the API (copyExpiry) and, run without interruption, of
        the worker: it expires the whole batch, each hold once. */
    method ExpireSeatHolds(now: Time, copyExpiry: bool) returns (expired: nat, ghost batch: seq<HoldRead>)
      requires Valid(View())
      modifies this
      ensures records == old(records)
      ensures OverdueBatch(old(View()), batch, now) && expired == |batch|
      ensures View() == Sweep(old(View()), batch, copyExpiry)
      ensures Valid(View()) && |OverdueHolds(View(), now)| == |old(OverdueHolds(View(), now))| - expired
    {
      var found := QueryOverdue(now);
      batch := found;
      PassShrinksOverdue(View(), batch, now, copyExpiry);
      BatchIsCurrent(View(), batch, now);
      expired := ExpireBatch(found, copyExpiry);
    }

    /** The writes of a confirm, under the two row counts. */
    method TryBook(h: HoldId, read: Hold) returns (booked: bool)
      requires h in holds
      modifies this
      ensures booked <==> CountsMatch(old(View()), read)
      ensures View() == if booked then BookHold(old(View()), h, read) else old(View())
    {
      var saved := View();
      var bookedSeats := UpdateSeats(read.items, Held, Booked);
      if bookedSeats != |read.items| {
        Rollback(saved);
        return false;
      }
      var bookedRows := UpdateRows(read.booking, read.items, RowHeld, RowBooked);
      if bookedRows != |read.items| {
        Rollback(saved);
        return false;
      }
      holds := holds[h := holds[h].(status := HoldConfirmed, version := holds[h].version + 1)];
      availableSeatCount := availableSeatCount - |read.items|;
      UpdateBooking(read.booking, Confirmed);
      return true;
    }

    method ConfirmHold(h: HoldId, client: UserId, passengers: nat, now: Time, read: Hold, readBooking: BookingStatus)
      returns (result: Tx<Inventory>)
      requires Valid(View())
      modifies this
      ensures result == Confirm(old(View()), h, client, passengers, now, read, readBooking)
      ensures View() == if result.Committed? then result.state else old(View())
    {
      if h !in holds || holds[h].client != client || read.booking !in bookings { return Rejected("SEAT_HOLD_NOT_FOUND"); }
      if read.status == HoldConfirmed || readBooking == Confirmed { return Committed(View()); }
      if read.status != HoldActive || read.expiresAt <= now {
        var saved := View();
        var _, _ := ExpireSeatHolds(now, true);
        Rollback(saved);
        return Rejected("SEAT_HOLD_EXPIRED");
      }
      if passengers != bookings[read.booking].passengerCount { return Rejected("PASSENGER_COUNT_MISMATCH"); }
      var booked := TryBook(h, read);
      if !booked { return Rejected("SEAT_HOLD_OWNERSHIP_CONFLICT"); }
      return Committed(View());
    }

    method DeleteHold(h: HoldId, client: UserId, read: Hold) returns (result: Tx<Inventory>)
      modifies this
      ensures result == SeatInventory.Release(old(View()), h, client, read)
      ensures View() == if result.Committed? then result.state else old(View())
    {
      if h !in holds || holds[h].client != client { return Rejected("SEAT_HOLD_NOT_FOUND"); }
      if read.status != HoldActive { return Committed(View()); }
      var released := ReleaseActiveSeatHold(HoldRead(h, read), HoldReleased);
      if released { UpdateBooking(read.booking, Expired); }
      return Committed(View());
    }

    method WriteHold(h: HoldId, b: BookingId, request: HoldRequest, items: set<SeatKey>, expiresAt: Time)
      modifies this
      ensures records == old(records)
      ensures View() == PlaceHold(old(View()), h, b, request, items, expiresAt)
    {
      bookings := bookings[b := Booking(request.client, request.passengerCount, expiresAt, OnHold)];
      holds := holds[h := Hold(b, request.client, items, expiresAt, HoldActive, 1)];
      var _ := UpdateSeats(items, Available, Held);
      rows := rows + HeldRows(b, items);
    }

    method Take(h: HoldId, b: BookingId, request: HoldRequest, expiresAt: Time) returns (result: Tx<Inventory>)
      modifies this
      ensures records == old(records)
      ensures result == TakeSeats(old(View()), h, b, request, expiresAt)
      ensures result.Committed? ==> View() == result.state
    {
      seats := SeatLayout.EnsureTripSeats(seats, capacity, Available);
      assert View() == WithAllSeats(old(View()));
      var keys := RequestedKeys(View(), request);
      if !SelectionMatches(request, keys) { return Rejected("SEAT_SELECTION_INVALID"); }
      if CountSeats(seats, keys, Available) != |keys| { return Rejected("SEAT_NOT_AVAILABLE"); }
      if h in holds || b in bookings { return Rejected("UNIQUE_VIOLATION"); }
      WriteHold(h, b, request, keys, expiresAt);
      return Committed(View());
    }

    /** The whole transaction of hold creation, its idempotency record included. */
    method PlaceNewHold(key: I.Key, hash: string, trip: HoldKeys.TripLookup, h: HoldId, b: BookingId, request: HoldRequest,
                        now: Time, expiresAt: Time)
      returns (result: Tx<I.Answer<Inventory, HoldId>>, ghost batch: seq<HoldRead>)
      requires Valid(View())
      modifies this
      ensures OverdueBatch(old(View()), batch, now)
      ensures result == HoldKeys.RequestHold(old(Db()), key, hash, trip, h, b, request, expiresAt, batch)
      ensures Db() == if result.Committed? then result.state.after else old(Db())
    {
      var saved := View();
      var expired, swept := ExpireSeatHolds(now, true);
      batch := swept;
      if key in records {
        if records[key].hash != hash {
          Rollback(saved);
          return Rejected("IDEMPOTENCY_KEY_REUSED"), batch;
        }
        return Committed(I.Answer(Db(), records[key].response)), batch;
      }
      var taken := TakeOpen(trip, h, b, request, expiresAt);
      if taken.Rejected? {
        Rollback(saved);
        return Rejected(taken.code), batch;
      }
      records := records[key := I.Record(hash, h)];
      return Committed(I.Answer(Db(), h)), batch;
    }

    method TakeOpen(trip: HoldKeys.TripLookup, h: HoldId, b: BookingId, request: HoldRequest, expiresAt: Time)
      returns (result: Tx<Inventory>)
      modifies this
      ensures records == old(records)
      ensures result == match trip
                        case NoTrip => Rejected("TRIP_NOT_AVAILABLE")
                        case OwnOfDriver => Rejected("OWN_TRIP_BOOKING_FORBIDDEN")
                        case OpenTrip => TakeSeats(old(View()), h, b, request, expiresAt)
      ensures result.Committed? ==> View() == result.state
    {
      match trip {
        case NoTrip => result := Rejected("TRIP_NOT_AVAILABLE");
        case OwnOfDriver => result := Rejected("OWN_TRIP_BOOKING_FORBIDDEN");
        case OpenTrip => result := Take(h, b, request, expiresAt);
      }
    }

    method ReleaseBookingSeats(b: BookingId, heldOrBooked: set<SeatKey>, bookedCount: nat)
      modifies this
      ensures View() == old(View()).(
        seats := FreeSeats(old(seats), heldOrBooked), rows := CancelRows(old(rows), b), holds := CancelHolds(old(holds), b),
        availableSeatCount := old(availableSeatCount) + bookedCount)
    {
      seats := map x | x in seats :: if x in heldOrBooked && Taken(seats[x]) then Available else seats[x];
      rows := map k | k in rows :: if k.booking == b && Live(rows[k]) then RowCancelled else rows[k];
      holds := map h | h in holds ::
        if holds[h].booking == b && holds[h].status == HoldActive
        then holds[h].(status := HoldCancelled, version := holds[h].version + 1) else holds[h];
      if bookedCount > 0 {
        availableSeatCount := availableSeatCount + bookedCount;
      }
    }

    method Cancel(b: BookingId, user: UserId, role: Role) returns (result: Tx<Inventory>)
      modifies this
      ensures result == CancelBooking(old(View()), b, user, role)
      ensures View() == if result.Committed? then result.state else old(View())
    {
      if b !in bookings || (role == Client && bookings[b].client != user) { return Rejected("BOOKING_NOT_FOUND"); }
      if ClosedForCancel(bookings[b].status) { return Committed(View()); }
      var heldOrBooked := LiveSeats(View(), b);
      var bookedCount := |BookedRows(View(), b)|;
      ReleaseBookingSeats(b, heldOrBooked, bookedCount);
      UpdateBooking(b, CancelledBy(role));
      return Committed(View());
    }

    /** The booking write of payment creation, for a booking that passed its check. */
    method StartPayment(b: BookingId, online: bool)
      requires b in bookings && !ClosedForCancel(bookings[b].status)
      modifies this`bookings
      ensures View() == SeatInventory.Apply(old(View()), PaymentStartedStep(b, online))
    {
      UpdateBooking(b, if online then PaymentPending else Confirmed);
    }

    /** The booking writes of markPaymentSucceeded. */
    method MarkPaid(b: BookingId)
      modifies this
      ensures View() == PaymentSucceeded(old(View()), b)
    {
      bookings := map c | c in bookings ::
        if c == b && AwaitsPayment(bookings[c].status) then bookings[c].(status := Confirmed) else bookings[c];
      rows := map k | k in rows :: if k.booking == b && rows[k] == RowHeld then RowBooked else rows[k];
      holds := map g | g in holds ::
        if holds[g].booking == b && holds[g].status == HoldActive then holds[g].(status := HoldConfirmed) else holds[g];
    }

    /** The booking writes of a stale payment's expiry. */
    method ExpirePaid(b: BookingId) returns (ghost first: Option<HoldId>)
      modifies this
      ensures Enabled(old(View()), PaymentExpiredStep(b, first))
      ensures View() == PaymentExpired(old(View()), b, first)
    {
      var active := set h | h in holds && holds[h].booking == b && holds[h].status == HoldActive;
      first := None;
      if active != {} {
        var h :| h in active;
        first := Some(h);
        var _ := ReleaseActiveSeatHold(HoldRead(h, holds[h]), HoldExpired);
      } else {
        assert forall h | h in holds :: h !in active;
      }
      bookings := map c | c in bookings ::
        if c == b && bookings[c].status == PaymentPending then bookings[c].(status := Expired) else bookings[c];
    }
  }
}
