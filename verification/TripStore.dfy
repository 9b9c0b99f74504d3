/** Trip operations as the database executes them: updates in place, with the
    loops over bookings and parcels. Every method is proved to do what the
    corresponding function of TripOps says. */
module TripStore {
  import opened Tables
  import opened SeatInventory
  import opened TripOps
  import P = Parcels
  import SeatLayout

  lemma OneProvided(codes: map<BookingId, seq<P.Code>>, rest: set<BookingId>, b: BookingId, now: Time, expiresAt: Time)
    requires b in rest
    ensures ProvideCodes(codes[b := WithUsableCode(CodesOf(codes, b), now, expiresAt)], rest - {b}, now, expiresAt)
         == ProvideCodes(codes, rest, now, expiresAt)
  {
  }

  lemma OneMoved(bookings: map<BookingId, Booking>, rest: set<BookingId>, b: BookingId)
    requires b in rest && b in bookings
    ensures MoveBookings(bookings[b := bookings[b].(status := Boarding)], rest - {b}, Boarding)
         == MoveBookings(bookings, rest, Boarding)
  {
  }

  lemma NothingMoved(bookings: map<BookingId, Booking>, codes: map<BookingId, seq<P.Code>>, now: Time, expiresAt: Time)
    ensures MoveBookings(bookings, {}, Boarding) == bookings && ProvideCodes(codes, {}, now, expiresAt) == codes
  {
  }

  lemma AllMoved(bookings: map<BookingId, Booking>)
    ensures MoveBookings(bookings, ConfirmedOnes(bookings), Boarding) == ConfirmedToBoarding(bookings)
  {
  }

  class Store {
    var status: TripStatus
    var capacity: nat
    var availableSeatCount: int
    var seats: map<SeatKey, SeatStatus>
    var holds: map<HoldId, Hold>
    var rows: map<RowKey, RowStatus>
    var bookings: map<BookingId, Booking>
    var pins: map<PinId, Pin>
    var parcels: map<ParcelId, P.Parcel>
    var codes: map<BookingId, seq<P.Code>>

    function View(): Trip
      reads this
    {
      Trip(status, Inventory(capacity, availableSeatCount, seats, holds, rows, bookings), pins, parcels, codes)
    }

    constructor (capacity: nat)
      ensures View() == PublishedTrip(capacity)
    {
      status, this.capacity, availableSeatCount := Published, capacity, capacity;
      seats := SeatLayout.EnsureTripSeats(map[], capacity, Available);
      holds, rows, bookings, pins, parcels, codes := map[], map[], map[], map[], map[], map[];
    }

    /** activeBoardingCodeForBooking. */
    static method ProvideCode(present: seq<P.Code>, now: Time, expiresAt: Time) returns (provided: seq<P.Code>)
      ensures provided == WithUsableCode(present, now, expiresAt)
    {
      NewestActiveIsThere(present);
      var newest := NewestActive(present);
      if newest.Some? && now < present[newest.value].expiresAt { return present; }
      return P.WithNewCode(present, expiresAt);
    }

    /** Exactly the confirmed bookings are put into BOARDING, each with a code. */
    method MoveConfirmedToBoarding(now: Time, expiresAt: Time)
      modifies this`bookings, this`codes
      ensures bookings == ConfirmedToBoarding(old(bookings))
      ensures codes == ProvideCodes(old(codes), ConfirmedOnes(old(bookings)), now, expiresAt)
    {
      AllMoved(bookings);
      MoveAll(ConfirmedOnes(bookings), now, expiresAt);
    }

    /** The loop over them. */
    method MoveAll(confirmed: set<BookingId>, now: Time, expiresAt: Time)
      requires confirmed <= bookings.Keys
      modifies this`bookings, this`codes
      ensures bookings == MoveBookings(old(bookings), confirmed, Boarding)
      ensures codes == ProvideCodes(old(codes), confirmed, now, expiresAt)
    {
      ghost var moved, provided := MoveBookings(bookings, confirmed, Boarding), ProvideCodes(codes, confirmed, now, expiresAt);
      var rest := confirmed;
      while rest != {}
        invariant rest <= bookings.Keys
        invariant MoveBookings(bookings, rest, Boarding) == moved && ProvideCodes(codes, rest, now, expiresAt) == provided
        decreases |rest|
      {
        var b :| b in rest;
        MoveOne(b, rest, now, expiresAt);
        rest := rest - {b};
      }
      NothingMoved(bookings, codes, now, expiresAt);
    }

    method MoveOne(b: BookingId, ghost rest: set<BookingId>, now: Time, expiresAt: Time)
      requires b in rest && rest <= bookings.Keys
      modifies this`bookings, this`codes
      ensures bookings.Keys == old(bookings).Keys
      ensures MoveBookings(bookings, rest - {b}, Boarding) == MoveBookings(old(bookings), rest, Boarding)
      ensures ProvideCodes(codes, rest - {b}, now, expiresAt) == ProvideCodes(old(codes), rest, now, expiresAt)
    {
      OneMoved(bookings, rest, b);
      OneProvided(codes, rest, b, now, expiresAt);
      bookings := bookings[b := bookings[b].(status := Boarding)];
      var code := ProvideCode(if b in codes then codes[b] else [], now, expiresAt);
      codes := codes[b := code];
    }

    method BeginBoarding(now: Time, expiresAt: Time) returns (result: Tx<Trip>)
      modifies this
      ensures result == StartBoardingTrip(old(View()), now, expiresAt)
      ensures View() == if result.Committed? then result.state else old(View())
    {
      var next := TransitionTrip(status, StartBoarding);
      if next.Rejected? { return Rejected(next.code); }
      status := next.state;
      MoveConfirmedToBoarding(now, expiresAt);
      return Committed(View());
    }

    method ShowBoardingCode(b: BookingId, caller: UserId, renew: bool, now: Time, expiresAt: Time) returns (result: Tx<Trip>)
      modifies this
      ensures result == ShowCode(old(View()), b, caller, renew, now, expiresAt)
      ensures View() == if result.Committed? then result.state else old(View())
    {
      if b !in bookings || bookings[b].client != caller { return Rejected("BOOKING_NOT_FOUND"); }
      if status != TripBoarding || bookings[b].status != Boarding { return Rejected("BOARDING_CODE_NOT_AVAILABLE"); }
      if renew {
        codes := codes[b := P.WithNewCode(if b in codes then codes[b] else [], expiresAt)];
      } else {
        var code := ProvideCode(if b in codes then codes[b] else [], now, expiresAt);
        codes := codes[b := code];
      }
      return Committed(View());
    }

    method ExpireOverdueCodes(now: Time)
      modifies this`codes
      ensures View() == old(View()).(codes := ExpireCodes(old(codes), now))
    {
      codes := map b | b in codes :: P.WithoutOverdue(codes[b], now);
    }

    method BoardPassenger(b: BookingId, matches: bool, now: Time) returns (result: Tx<Trip>)
      modifies this
      ensures result == BoardBooking(old(View()), b, matches, now)
      ensures View() == if result.Committed? then result.state else old(View())
    {
      if b !in bookings { return Rejected("BOOKING_NOT_FOUND"); }
      if status != TripBoarding || bookings[b].status != Boarding { return Rejected("BOARDING_NOT_ALLOWED"); }
      var present := if b in codes then codes[b] else [];
      NewestActiveIsThere(present);
      var newest := NewestActive(present);
      if newest == None { return Rejected("BOARDING_CODE_NOT_FOUND"); }
      var code := present[newest.value];
      if code.expiresAt <= now { return Rejected("BOARDING_CODE_EXPIRED"); }
      if !matches { return Rejected("BOARDING_CODE_INVALID"); }
      codes := codes[b := present[newest.value := code.(status := P.CodeVerified)]];
      var ids := SeatsOf(View().inv, b);
      seats := map x | x in seats :: if x in ids then Occupied else seats[x];
      rows := map k | k in rows :: if k.booking == b && rows[k] == RowBooked then RowOccupied else rows[k];
      return Committed(View());
    }

    method ClientNoShow(b: BookingId) returns (result: Tx<Trip>)
      modifies this
      ensures result == MarkClientNoShow(old(View()), b)
      ensures View() == if result.Committed? then result.state else old(View())
    {
      if status != TripBoarding || b !in bookings || !MayBeNoShow(bookings[b].status) { return Rejected("BOOKING_NOT_FOUND"); }
      var ids := SeatsOf(View().inv, b);
      seats := map x | x in seats :: if x in ids then Available else seats[x];
      rows := map k | k in rows :: if k.booking == b then RowReleased else rows[k];
      bookings := MoveBookings(bookings, {b}, NoShowClient);
      return Committed(View());
    }

    /** transitionParcel on a record read in the same transaction. */
    method TransitionParcel(p: ParcelId, action: P.ParcelAction) returns (result: Tx<P.Parcel>)
      requires p in parcels
      modifies this`parcels
      ensures result == P.MoveTo(old(parcels)[p], old(parcels)[p], action)
      ensures parcels == if result.Committed? then old(parcels)[p := result.state] else old(parcels)
    {
      var read := parcels[p];
      var next := P.Transition(read.status, action);
      if next.Rejected? { return Rejected(next.code); }
      if read.status != next.state {
        parcels := parcels[p := read.(status := next.state, version := read.version + 1)];
      } else {
        assert parcels[p := read] == parcels;
      }
      return Committed(parcels[p]);
    }

    /** The loop over some parcels of the trip: every transition goes through. */
    method TransitionParcels(ids: set<ParcelId>, action: P.ParcelAction) returns (ok: bool)
      requires ids <= parcels.Keys && forall p | p in ids :: P.MoveTo(parcels[p], parcels[p], action).Committed?
      modifies this`parcels
      ensures ok && parcels.Keys == old(parcels).Keys
      ensures forall p | p in ids :: P.MoveTo(old(parcels)[p], old(parcels)[p], action) == Committed(parcels[p])
      ensures forall p | p in parcels && p !in ids :: parcels[p] == old(parcels)[p]
    {
      ok := true;
      var rest := ids;
      while rest != {}
        invariant ok && rest <= ids && parcels.Keys == old(parcels).Keys
        invariant forall p | p in ids && p !in rest :: P.MoveTo(old(parcels)[p], old(parcels)[p], action) == Committed(parcels[p])
        invariant forall p | p in parcels && (p in rest || p !in ids) :: parcels[p] == old(parcels)[p]
        decreases |rest|
      {
        var p :| p in rest;
        var moved := TransitionParcel(p, action);
        ok := ok && moved.Committed?;
        rest := rest - {p};
      }
    }

    method LoadParcels()
      modifies this`parcels
      ensures parcels == ParcelsLoaded(old(parcels))
    {
      var handover := set p | p in parcels && parcels[p].status == P.HandedToDriver;
      forall p | p in parcels { P.TripLoopsNeverFail(parcels[p]); }
      var _ := TransitionParcels(handover, P.StartTransit);
    }

    /** The parcel loop of a trip cancellation: no parcel makes it fail. */
    method CancelActiveParcels()
      modifies this`parcels
      ensures parcels == ParcelsCancelled(old(parcels))
    {
      var active := set p | p in parcels && P.ActiveOnTrip(parcels[p].status);
      forall p | p in parcels { P.TripLoopsNeverFail(parcels[p]); }
      var _ := TransitionParcels(active, P.CancelAdmin);
    }

    method StartOperation(allowUnresolvedPassengers: bool) returns (result: Tx<Trip>)
      modifies this
      ensures result == StartTripOperation(old(View()), allowUnresolvedPassengers)
      ensures View() == if result.Committed? then result.state else old(View())
    {
      var unresolved := |Unresolved(View().inv)|;
      var boarded := |Boarded(View().inv)|;
      if !allowUnresolvedPassengers && unresolved != boarded { return Rejected("TRIP_UNRESOLVED_PASSENGERS"); }
      if !allowUnresolvedPassengers && boarded > 0 {
        var verified := |WithVerifiedPin(View())|;
        if verified != boarded { return Rejected("TRIP_START_PIN_REQUIRED"); }
      }
      var next := TransitionTrip(status, StartTrip);
      if next.Rejected? { return Rejected(next.code); }
      status := next.state;
      bookings := Departed(View().inv);
      LoadParcels();
      return Committed(View());
    }

    method CompleteOperation() returns (result: Tx<Trip>)
      modifies this
      ensures result == CompleteTripOperation(old(View()))
      ensures View() == if result.Committed? then result.state else old(View())
    {
      var next := TransitionTrip(status, CompleteTrip);
      if next.Rejected? { return Rejected(next.code); }
      status := next.state;
      bookings := map b | b in bookings ::
        if bookings[b].status == InProgress || bookings[b].status == Boarding then bookings[b].(status := Completed)
        else bookings[b];
      return Committed(View());
    }

    method EndBookings(to: BookingStatus)
      modifies this`bookings
      ensures bookings == CancelledBookings(old(bookings), to)
    {
      bookings := map b | b in bookings ::
        if ActiveBooking(bookings[b].status) then bookings[b].(status := to) else bookings[b];
    }

    method FreeSeatsInUse()
      modifies this`seats
      ensures seats == SeatsFreed(old(seats))
    {
      seats := map x | x in seats :: if InUse(seats[x]) then Available else seats[x];
    }

    method CancelOperational(role: Role) returns (result: Tx<Trip>)
      modifies this
      ensures result == CancelTripOperational(old(View()), role)
      ensures View() == if result.Committed? then result.state else old(View())
    {
      var next := TransitionTrip(status, CancelTrip);
      if next.Rejected? { return Rejected(next.code); }
      status := next.state;
      EndBookings(CancelledBy(role));
      CancelActiveParcels();
      FreeSeatsInUse();
      return Committed(View());
    }

    method MarkDriverNoShow()
      modifies this
      ensures View() == DriverNoShow(old(View()))
    {
      if status != TripCancelled {
        status := TripCancelled;
      }
      EndBookings(NoShowDriver);
      FreeSeatsInUse();
    }
  }
}
