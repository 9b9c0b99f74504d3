/** A run from publication on which the start guard is fooled: two seats are sold,
    one passenger boards and is verified, that booking is cancelled, and the trip
    starts without the other passenger, whose booking stays in BOARDING. */
module TripLeftBehind {
  import opened Tables
  import opened SeatInventory
  import opened SeatLaws
  import opened TripOps
  import opened TripSafety
  import P = Parcels
  import SeatLayout

  const X := SeatLayout.SeatAt(0).seatKey

  const Y := SeatLayout.SeatAt(1).seatKey

  function HoldOf(b: BookingId, seat: SeatKey, status: HoldStatus): Hold {
    Hold(b, 7, {seat}, 600, status, if status == HoldActive then 1 else 2)
  }

  function BookingWith(status: BookingStatus): Booking {
    Booking(7, 1, 600, status)
  }

  /** How far one of the two bookings got. */
  datatype Side = Side(seat: SeatStatus, row: RowStatus, hold: HoldStatus, booking: BookingStatus)

  const HELD := Side(Held, RowHeld, HoldActive, OnHold)

  const BOUGHT := Side(Booked, RowBooked, HoldConfirmed, Confirmed)

  const WAITING := Side(Booked, RowBooked, HoldConfirmed, Boarding)

  const ABOARD := Side(Occupied, RowOccupied, HoldConfirmed, Boarding)

  function Pair(available: int, first: Side, second: Side): Inventory {
    Inventory(2, available,
              map[X := first.seat, Y := second.seat],
              map[0 := HoldOf(0, X, first.hold), 1 := HoldOf(1, Y, second.hold)],
              map[RowKey(0, X) := first.row, RowKey(1, Y) := second.row],
              map[0 := BookingWith(first.booking), 1 := BookingWith(second.booking)])
  }

  function Alone(): Inventory {
    Inventory(2, 2, map[X := Held, Y := Available], map[0 := HoldOf(0, X, HoldActive)], map[RowKey(0, X) := RowHeld],
              map[0 := BookingWith(OnHold)])
  }

  function Fresh(): Inventory {
    Inventory(2, 2, map[X := Available, Y := Available], map[], map[], map[])
  }

  lemma DifferentSeats()
    ensures X != Y
  {
    if X == Y { SeatLayout.SeatKeyIdentifiesIndex(0, 1); }
  }

  lemma TwoSeatTrip()
    ensures Publish(2) == Fresh()
  {
    assert SeatLayout.Layout(2) == [SeatLayout.SeatAt(0), SeatLayout.SeatAt(1)];
    assert SeatLayout.Keys(2) == {X, Y};
  }

  // ----- the steps on the seats -----

  function Request(seat: SeatKey): HoldRequest {
    HoldRequest(7, OneSeat, {seat}, 1)
  }

  function Create(h: HoldId, seat: SeatKey): Step {
    CreateHoldStep(h, h, Request(seat), 600, Bookable, [], 0)
  }

  function ConfirmOf(h: HoldId, seat: SeatKey): Step {
    ConfirmStep(h, 7, 1, 0, HoldOf(h, seat, HoldActive), OnHold)
  }

  lemma NothingOverdue(s: Inventory)
    requires forall h | h in s.holds :: s.holds[h].expiresAt == 600
    ensures OverdueBatch(s, [], 0)
  {
    assert OverdueHolds(s, 0) == {};
  }

  lemma CreatedIsPlaced(s: Inventory, h: HoldId, seat: SeatKey)
    requires s.capacity == 2 == |s.seats| && seat in s.seats && s.seats[seat] == Available
    requires h !in s.holds && h !in s.bookings && forall g | g in s.holds :: s.holds[g].expiresAt == 600
    ensures Enabled(s, Create(h, seat))
    ensures Apply(s, Create(h, seat)) == PlaceHold(s, h, h, Request(seat), {seat}, 600)
  {
    NothingOverdue(s);
    AllSeatsCount(s.seats, {seat}, Available);
    assert WithAllSeats(Sweep(s, [], true)) == s;
  }

  lemma FirstCreated()
    ensures Enabled(Fresh(), Create(0, X)) && Apply(Fresh(), Create(0, X)) == Alone()
  {
    DifferentSeats();
    assert Fresh().seats.Keys == {X, Y} && |Fresh().seats| == |Fresh().seats.Keys|;
    CreatedIsPlaced(Fresh(), 0, X);
    FirstPlaced();
  }

  lemma FirstPlaced()
    requires X != Y
    ensures PlaceHold(Fresh(), 0, 0, Request(X), {X}, 600) == Alone()
  {
    assert HeldRows(0, {X}) == map[RowKey(0, X) := RowHeld];
    assert MoveSeats(Fresh().seats, {X}, Available, Held) == Alone().seats;
  }

  lemma SecondCreated()
    ensures Enabled(Alone(), Create(1, Y)) && Apply(Alone(), Create(1, Y)) == Pair(2, HELD, HELD)
  {
    DifferentSeats();
    assert Alone().seats.Keys == {X, Y} && |Alone().seats| == |Alone().seats.Keys|;
    CreatedIsPlaced(Alone(), 1, Y);
    SecondPlaced();
  }

  lemma SecondPlaced()
    requires X != Y
    ensures PlaceHold(Alone(), 1, 1, Request(Y), {Y}, 600) == Pair(2, HELD, HELD)
  {
    assert HeldRows(1, {Y}) == map[RowKey(1, Y) := RowHeld];
    assert MoveSeats(Alone().seats, {Y}, Available, Held) == Pair(2, HELD, HELD).seats;
    assert Alone().rows + HeldRows(1, {Y}) == Pair(2, HELD, HELD).rows;
  }

  lemma ConfirmBooks(s: Inventory, h: HoldId, seat: SeatKey)
    requires h in s.holds && s.holds[h] == HoldOf(h, seat, HoldActive)
    requires h in s.bookings && s.bookings[h] == BookingWith(OnHold)
    requires seat in s.seats && s.seats[seat] == Held && RowKey(h, seat) in s.rows && s.rows[RowKey(h, seat)] == RowHeld
    ensures Enabled(s, ConfirmOf(h, seat))
    ensures Apply(s, ConfirmOf(h, seat)) == BookHold(s, h, HoldOf(h, seat, HoldActive))
  {
    var read := HoldOf(h, seat, HoldActive);
    AllSeatsCount(s.seats, read.items, Held);
    assert (set x | x in read.items && RowKey(read.booking, x) in s.rows && s.rows[RowKey(read.booking, x)] == RowHeld)
        == read.items;
  }

  lemma FirstConfirmed()
    ensures Enabled(Pair(2, HELD, HELD), ConfirmOf(0, X)) && Apply(Pair(2, HELD, HELD), ConfirmOf(0, X)) == Pair(1, BOUGHT, HELD)
  {
    DifferentSeats();
    ConfirmBooks(Pair(2, HELD, HELD), 0, X);
    FirstBooked();
  }

  /** Booking one of two seats, rows and bookings leaves the other alone. */
  lemma MovesOneOfTwo(x: SeatKey, y: SeatKey, seat: SeatStatus, row: RowStatus, b: BookingId, c: BookingId, other: Booking)
    requires x != y && b != c
    ensures MoveSeats(map[x := Held, y := seat], {x}, Held, Booked) == map[x := Booked, y := seat]
    ensures MoveRows(map[RowKey(b, x) := RowHeld, RowKey(c, y) := row], b, {x}, RowHeld, RowBooked)
         == map[RowKey(b, x) := RowBooked, RowKey(c, y) := row]
    ensures MoveBookings(map[b := BookingWith(OnHold), c := other], {b}, Confirmed)
         == map[b := BookingWith(Confirmed), c := other]
  {
  }

  lemma MovesTheOther(x: SeatKey, y: SeatKey, seat: SeatStatus, row: RowStatus, b: BookingId, c: BookingId, other: Booking)
    requires x != y && b != c
    ensures MoveSeats(map[x := seat, y := Held], {y}, Held, Booked) == map[x := seat, y := Booked]
    ensures MoveRows(map[RowKey(b, x) := row, RowKey(c, y) := RowHeld], c, {y}, RowHeld, RowBooked)
         == map[RowKey(b, x) := row, RowKey(c, y) := RowBooked]
    ensures MoveBookings(map[b := other, c := BookingWith(OnHold)], {c}, Confirmed)
         == map[b := other, c := BookingWith(Confirmed)]
  {
  }

  lemma FirstBooked()
    requires X != Y
    ensures BookHold(Pair(2, HELD, HELD), 0, HoldOf(0, X, HoldActive)) == Pair(1, BOUGHT, HELD)
  {
    MovesOneOfTwo(X, Y, Held, RowHeld, 0, 1, BookingWith(OnHold));
  }

  lemma SecondConfirmed()
    ensures Enabled(Pair(1, BOUGHT, HELD), ConfirmOf(1, Y))
    ensures Apply(Pair(1, BOUGHT, HELD), ConfirmOf(1, Y)) == Pair(0, BOUGHT, BOUGHT)
  {
    DifferentSeats();
    ConfirmBooks(Pair(1, BOUGHT, HELD), 1, Y);
    SecondBooked();
  }

  lemma SecondBooked()
    requires X != Y
    ensures BookHold(Pair(1, BOUGHT, HELD), 1, HoldOf(1, Y, HoldActive)) == Pair(0, BOUGHT, BOUGHT)
  {
    MovesTheOther(X, Y, Booked, RowBooked, 0, 1, BookingWith(Confirmed));
  }

  // ----- the steps of the trip -----

  function Verified(): map<PinId, Pin> {
    map[0 := Pin(0, PinVerified, 600)]
  }

  lemma BoardingStarted()
    ensures ConfirmedToBoarding(Pair(0, BOUGHT, BOUGHT).bookings) == Pair(0, WAITING, WAITING).bookings
  {
  }

  lemma FirstBoarded()
    ensures Board(Pair(0, WAITING, WAITING), 0) == Pair(0, ABOARD, WAITING)
  {
    DifferentSeats();
    var s := Pair(0, WAITING, WAITING);
    assert RowKey(0, X) in s.rows && RowKey(0, X).seat == X;
    assert SeatsOf(s, 0) == {X};
  }

  lemma WhoIsWhere()
    ensures Unresolved(Pair(0, ABOARD, WAITING)) == {0, 1} && Boarded(Pair(0, ABOARD, WAITING)) == {0}
  {
    var s := Pair(0, ABOARD, WAITING);
    assert RowKey(0, X) in s.rows && s.rows[RowKey(0, X)] == RowOccupied;
    assert !IsBoarded(s, 1);
  }

  lemma PinIssuedAndVerified(s: Trip)
    requires s.status == TripBoarding && s.inv == Pair(0, ABOARD, WAITING) && s.pins == map[]
    ensures TripApply(s, IssuePinStep(0, 0, 600, 0)) == s.(pins := map[0 := Pin(0, PinActive, 600)])
    ensures TripApply(s.(pins := map[0 := Pin(0, PinActive, 600)]), VerifyPinStep(0, 0, true, 0)) == s.(pins := Verified())
  {
    assert RowKey(0, X) in s.inv.rows && s.inv.rows[RowKey(0, X)] == RowOccupied;
  }

  // ----- the run -----

  function Issued(): map<BookingId, seq<P.Code>> {
    map[0 := [P.ACTIVE_CODE], 1 := [P.ACTIVE_CODE]]
  }

  function Shown(): map<BookingId, seq<P.Code>> {
    map[0 := [P.USED_CODE], 1 := [P.ACTIVE_CODE]]
  }

  /** Before boarding. */
  function Selling(inv: Inventory): Trip {
    Trip(Published, inv, map[], map[], map[])
  }

  function OnBoard(pins: map<PinId, Pin>): Trip {
    Trip(TripBoarding, Pair(0, ABOARD, WAITING), pins, map[], Shown())
  }

  lemma CodesIssued()
    ensures ProvideCodes(map[], ConfirmedOnes(Pair(0, BOUGHT, BOUGHT).bookings), 0, 600) == Issued()
  {
    P.NewCodeExactly([], 600);
    assert P.WithNewCode([], 600) == [P.ACTIVE_CODE];
    assert ConfirmedOnes(Pair(0, BOUGHT, BOUGHT).bookings) == {0, 1};
  }

  lemma CodeShown(s: Trip)
    requires s == Trip(TripBoarding, Pair(0, WAITING, WAITING), map[], map[], Issued())
    ensures TripApply(s, BoardStep(0, true, 0)) == OnBoard(map[])
  {
    FirstBoarded();
    P.CodeIsUsed();
    assert [P.ACTIVE_CODE][0 := P.USED_CODE] == [P.USED_CODE];
    assert Issued()[0 := [P.USED_CODE]] == Shown();
  }

  lemma OneTripStep(s: Trip, step: TripStep, rest: seq<TripStep>)
    ensures TripRun(s, [step] + rest) <==> TripEnabled(s, step) && TripRun(TripApply(s, step), rest)
    ensures TripExec(s, [step] + rest) == TripExec(TripApply(s, step), rest)
  {
    assert ([step] + rest)[1..] == rest;
  }

  lemma SeatTripStep(inv: Inventory, step: Step, rest: seq<TripStep>)
    requires Enabled(inv, step)
    ensures TripRun(Selling(inv), [SeatStep(step)] + rest) <==> TripRun(Selling(Apply(inv, step)), rest)
    ensures TripExec(Selling(inv), [SeatStep(step)] + rest) == TripExec(Selling(Apply(inv, step)), rest)
  {
    OneTripStep(Selling(inv), SeatStep(step), rest);
  }

  /** Selling both seats. */
  lemma SellBoth(rest: seq<TripStep>) returns (steps: seq<TripStep>)
    ensures TripRun(Selling(Fresh()), steps) <==> TripRun(Selling(Pair(0, BOUGHT, BOUGHT)), rest)
    ensures TripExec(Selling(Fresh()), steps) == TripExec(Selling(Pair(0, BOUGHT, BOUGHT)), rest)
  {
    FirstCreated();
    SecondCreated();
    FirstConfirmed();
    SecondConfirmed();
    var d := [SeatStep(ConfirmOf(1, Y))] + rest;
    var c := [SeatStep(ConfirmOf(0, X))] + d;
    var b := [SeatStep(Create(1, Y))] + c;
    steps := [SeatStep(Create(0, X))] + b;
    SeatTripStep(Pair(1, BOUGHT, HELD), ConfirmOf(1, Y), rest);
    SeatTripStep(Pair(2, HELD, HELD), ConfirmOf(0, X), d);
    SeatTripStep(Alone(), Create(1, Y), c);
    SeatTripStep(Fresh(), Create(0, X), b);
  }

  /** Boarding and verifying the first passenger. */
  lemma BoardFirst(rest: seq<TripStep>) returns (steps: seq<TripStep>)
    ensures TripRun(Selling(Pair(0, BOUGHT, BOUGHT)), steps)
       <==> TripRun(OnBoard(Verified()), rest)
    ensures TripExec(Selling(Pair(0, BOUGHT, BOUGHT)), steps)
         == TripExec(OnBoard(Verified()), rest)
  {
    BoardingStarted();
    CodesIssued();
    var bought := Selling(Pair(0, BOUGHT, BOUGHT));
    var waiting := Trip(TripBoarding, Pair(0, WAITING, WAITING), map[], map[], Issued());
    var aboard := OnBoard(map[]);
    var issued := aboard.(pins := map[0 := Pin(0, PinActive, 600)]);
    assert TripApply(bought, StartBoardingStep(0, 600)) == waiting;
    CodeShown(waiting);
    PinIssuedAndVerified(aboard);
    var d := [VerifyPinStep(0, 0, true, 0)] + rest;
    var c := [IssuePinStep(0, 0, 600, 0)] + d;
    var b := [BoardStep(0, true, 0)] + c;
    steps := [StartBoardingStep(0, 600)] + b;
    OneTripStep(issued, VerifyPinStep(0, 0, true, 0), rest);
    OneTripStep(aboard, IssuePinStep(0, 0, 600, 0), d);
    OneTripStep(waiting, BoardStep(0, true, 0), c);
    OneTripStep(bought, StartBoardingStep(0, 600), b);
  }

  lemma PairIsReady()
    ensures Ready(Pair(0, ABOARD, WAITING))
  {
  }

  lemma ReadyToWithdraw(s: Trip)
    requires s == OnBoard(Verified())
    ensures GuardOk(s) && Unresolved(s.inv) == {0, 1} && Boarded(s.inv) == {0} && HasVerifiedPin(s, 0)
  {
    PairIsReady();
    WhoIsWhere();
    assert 0 in s.pins && s.pins[0] == Pin(0, PinVerified, 600);
    forall b | b in s.inv.bookings && IsBoarded(s.inv, b) ensures s.inv.bookings[b].status == Boarding {
      assert b in Boarded(s.inv) && b in Unresolved(s.inv);
    }
  }

  lemma OnlyStep(s: Trip, step: TripStep)
    ensures TripRun(s, [step] + []) <==> TripEnabled(s, step)
    ensures TripExec(s, [step] + []) == TripApply(s, step)
  {
    OneTripStep(s, step, []);
  }

  lemma CancelIsEnabled(s: Trip, b: BookingId)
    ensures TripEnabled(s, SeatStep(CancelStep(b, 7, Driver)))
  {
  }

  /** Every step of the run is possible; the trip then starts without the override
      and leaves booking 1 behind in BOARDING. */
  lemma LeftBehindFromPublication() returns (steps: seq<TripStep>)
    ensures var published := PublishedTrip(2);
            && TripRun(published, steps)
            && StartTripOperation(TripExec(published, steps), false).Committed?
            && Unresolved(StartTripOperation(TripExec(published, steps), false).state.inv) == {1}
  {
    var s, cancel := OnBoard(Verified()), SeatStep(CancelStep(0, 7, Driver));
    var boarding := BoardFirst([cancel] + []);
    steps := SellBoth(boarding);
    TwoSeatTrip();
    OnlyStep(s, cancel);
    ReadyToWithdraw(s);
    CancelIsEnabled(s, 0);
    WithdrawalFoolsTheGuard(s, 0, 1, 7);
  }
}
