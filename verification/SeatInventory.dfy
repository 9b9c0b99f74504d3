/** The seat inventory of one published trip: trip seats, seat holds, booking
    seat rows, bookings and the availability counter, with one function per
    database transaction that writes them.

    A transaction that first reads a hold and then writes under guards takes the
    record it read as a parameter (`read`): other transactions may have committed
    since. A transaction that throws is rolled back and leaves no trace. */
module SeatInventory {
  import opened Tables
  import SeatLayout

  type SeatKey = string
  type HoldId = nat
  type BookingId = nat
  type UserId = nat
  type Time = int

  datatype SeatStatus = Available | Held | Booked | Occupied | Blocked | Unavailable

  datatype RowStatus = RowHeld | RowBooked | RowOccupied | RowReleased | RowCancelled

  datatype HoldStatus = HoldActive | HoldConfirmed | HoldExpired | HoldReleased | HoldCancelled

  datatype BookingStatus =
    | Draft | OnHold | PendingConfirmation | Confirmed | PaymentPending | Paid | Boarding | InProgress | Completed
    | NoShowClient | NoShowDriver | CancelledByClient | CancelledByDriver | CancelledByAdmin | Expired
    | RefundPending | Refunded | Disputed

  datatype BookingType = OneSeat | MultiSeat | WholeCar

  datatype Role = Client | Driver | Admin

  datatype Hold = Hold(booking: BookingId, client: UserId, items: set<SeatKey>, expiresAt: Time,
                       status: HoldStatus, version: nat)

  datatype HoldRead = HoldRead(id: HoldId, hold: Hold)

  datatype Booking = Booking(client: UserId, passengerCount: nat, expiresAt: Time, status: BookingStatus)

  datatype RowKey = RowKey(booking: BookingId, seat: SeatKey)

  datatype Inventory = Inventory(
    capacity: nat,
    availableSeatCount: int,
    seats: map<SeatKey, SeatStatus>,
    holds: map<HoldId, Hold>,
    rows: map<RowKey, RowStatus>,
    bookings: map<BookingId, Booking>)

  const SWEEP_LIMIT := 100

  /** Publication is the initial state: the seats of the layout, all free. */
  function Publish(capacity: nat): Inventory {
    Inventory(capacity, capacity, SeatLayout.EnsureTripSeats(map[], capacity, Available), map[], map[], map[])
  }

  // ----- guarded bulk updates and their row counts -----

  predicate Live(r: RowStatus) {
    r.RowHeld? || r.RowBooked?
  }

  predicate Taken(t: SeatStatus) {
    t.Held? || t.Booked?
  }

  function MoveSeats(seats: map<SeatKey, SeatStatus>, ids: set<SeatKey>, from: SeatStatus, to: SeatStatus)
    : map<SeatKey, SeatStatus>
  {
    map x | x in seats :: if x in ids && seats[x] == from then to else seats[x]
  }

  function CountSeats(seats: map<SeatKey, SeatStatus>, ids: set<SeatKey>, status: SeatStatus): nat {
    |set x | x in ids && x in seats && seats[x] == status|
  }

  function MoveRows(rows: map<RowKey, RowStatus>, b: BookingId, ids: set<SeatKey>, from: RowStatus, to: RowStatus)
    : map<RowKey, RowStatus>
  {
    map k | k in rows :: if k.booking == b && k.seat in ids && rows[k] == from then to else rows[k]
  }

  function CountRows(rows: map<RowKey, RowStatus>, b: BookingId, ids: set<SeatKey>, status: RowStatus): nat {
    |set x | x in ids && RowKey(b, x) in rows && rows[RowKey(b, x)] == status|
  }

  function MoveBookings(bookings: map<BookingId, Booking>, ids: set<BookingId>, status: BookingStatus)
    : map<BookingId, Booking>
  {
    map b | b in bookings :: if b in ids then bookings[b].(status := status) else bookings[b]
  }

  // ----- release and expiry -----

  /** The claim of a release: still ACTIVE, and at the version that was read. */
  predicate Claims(s: Inventory, read: HoldRead) {
    && read.id in s.holds
    && s.holds[read.id].status == HoldActive
    && s.holds[read.id].version == read.hold.version
  }

  function ReleaseHold(s: Inventory, read: HoldRead, status: HoldStatus): Inventory {
    if !Claims(s, read) then s
    else
      var hold := s.holds[read.id];
      s.(holds := s.holds[read.id := hold.(status := status, version := hold.version + 1)],
         seats := MoveSeats(s.seats, read.hold.items, Held, Available),
         rows := MoveRows(s.rows, read.hold.booking, read.hold.items, RowHeld, RowReleased))
  }

  /** One round of an expiry loop. The API also copies the expiry time of the
      hold into the booking, the worker does not. */
  function ExpireHold(s: Inventory, read: HoldRead, copyExpiry: bool): Inventory {
    if !Claims(s, read) then s
    else
      var t := ReleaseHold(s, read, HoldExpired);
      var bookings := MoveBookings(t.bookings, {read.hold.booking}, Expired);
      if copyExpiry && read.hold.booking in bookings then
        t.(bookings := bookings[read.hold.booking := bookings[read.hold.booking].(expiresAt := read.hold.expiresAt)])
      else
        t.(bookings := bookings)
  }

  function Sweep(s: Inventory, batch: seq<HoldRead>, copyExpiry: bool): Inventory
    decreases |batch|
  {
    if batch == [] then s else Sweep(ExpireHold(s, batch[0], copyExpiry), batch[1..], copyExpiry)
  }

  predicate Overdue(s: Inventory, h: HoldId, now: Time) {
    h in s.holds && s.holds[h].status == HoldActive && s.holds[h].expiresAt <= now
  }

  function OverdueHolds(s: Inventory, now: Time): set<HoldId> {
    set h | h in s.holds && Overdue(s, h, now)
  }

  /** What the expiry query may return: some overdue holds, each once, as many
      as there are but never more than the limit. */
  predicate OverdueBatch(s: Inventory, batch: seq<HoldRead>, now: Time) {
    && (forall i | 0 <= i < |batch| :: Overdue(s, batch[i].id, now) && batch[i].hold == s.holds[batch[i].id])
    && (forall i, j | 0 <= i < j < |batch| :: batch[i].id != batch[j].id)
    && |batch| == if |OverdueHolds(s, now)| < SWEEP_LIMIT then |OverdueHolds(s, now)| else SWEEP_LIMIT
  }

  /** The client's DELETE on a hold. */
  function Release(s: Inventory, h: HoldId, client: UserId, read: Hold): Tx<Inventory> {
    if h !in s.holds || s.holds[h].client != client then Rejected("SEAT_HOLD_NOT_FOUND")
    else if read.status != HoldActive || !Claims(s, HoldRead(h, read)) then Committed(s)
    else
      var t := ReleaseHold(s, HoldRead(h, read), HoldReleased);
      Committed(t.(bookings := MoveBookings(t.bookings, {read.booking}, Expired)))
  }

  // ----- hold creation -----

  datatype HoldRequest = HoldRequest(client: UserId, kind: BookingType, seatKeys: set<SeatKey>, passengerCount: nat)

  function RequestedKeys(s: Inventory, request: HoldRequest): set<SeatKey> {
    if request.kind == WholeCar then s.seats.Keys else request.seatKeys
  }

  predicate SelectionMatches(request: HoldRequest, keys: set<SeatKey>) {
    && (request.kind == OneSeat ==> |keys| == 1)
    && (request.kind == MultiSeat ==> |keys| == request.passengerCount)
  }

  function HeldRows(b: BookingId, items: set<SeatKey>): (rows: map<RowKey, RowStatus>)
    ensures forall k :: k in rows <==> k.booking == b && k.seat in items
    ensures forall k | k in rows :: rows[k] == RowHeld
  {
    map x | x in items :: RowKey(b, x) := RowHeld
  }

  /** The writes of hold creation. The seat update is guarded by AVAILABLE, but
      its row count is not looked at. */
  function PlaceHold(s: Inventory, h: HoldId, b: BookingId, request: HoldRequest, items: set<SeatKey>, expiresAt: Time)
    : Inventory
  {
    s.(bookings := s.bookings[b := Booking(request.client, request.passengerCount, expiresAt, OnHold)],
       holds := s.holds[h := Hold(b, request.client, items, expiresAt, HoldActive, 1)],
       seats := MoveSeats(s.seats, items, Available, Held),
       rows := s.rows + HeldRows(b, items))
  }

  function WithAllSeats(s: Inventory): Inventory {
    s.(seats := SeatLayout.EnsureTripSeats(s.seats, s.capacity, Available))
  }

  /** What the lookups of hold creation found: a record of the idempotency key
      (with another payload, or with this one), or else the trip. */
  datatype HoldLookup = KeyReused | Replayed | NotBookable | OwnTrip | Bookable

  /** Hold creation once the trip was found and has all its seats. */
  function TakeFrom(s: Inventory, h: HoldId, b: BookingId, request: HoldRequest, expiresAt: Time): Tx<Inventory> {
    var keys := RequestedKeys(s, request);
    if !SelectionMatches(request, keys) then Rejected("SEAT_SELECTION_INVALID")
    else if CountSeats(s.seats, keys, Available) != |keys| then Rejected("SEAT_NOT_AVAILABLE")
    else if h in s.holds || b in s.bookings then Rejected("UNIQUE_VIOLATION")
    else Committed(PlaceHold(s, h, b, request, keys, expiresAt))
  }

  /** Hold creation once the trip was found and overdue holds were swept. */
  function TakeSeats(s: Inventory, h: HoldId, b: BookingId, request: HoldRequest, expiresAt: Time): Tx<Inventory> {
    TakeFrom(WithAllSeats(s), h, b, request, expiresAt)
  }

  function CreateHold(s: Inventory, h: HoldId, b: BookingId, request: HoldRequest, expiresAt: Time,
                      found: HoldLookup, sweep: seq<HoldRead>): Tx<Inventory>
  {
    match found
    case KeyReused => Rejected("IDEMPOTENCY_KEY_REUSED")
    case Replayed => Committed(Sweep(s, sweep, true))
    case NotBookable => Rejected("TRIP_NOT_AVAILABLE")
    case OwnTrip => Rejected("OWN_TRIP_BOOKING_FORBIDDEN")
    case Bookable => TakeSeats(Sweep(s, sweep, true), h, b, request, expiresAt)
  }

  // ----- confirmation -----

  /** The writes of a confirm, after both row counts came out right. */
  function BookHold(s: Inventory, h: HoldId, read: Hold): Inventory
    requires h in s.holds
  {
    s.(seats := MoveSeats(s.seats, read.items, Held, Booked),
       rows := MoveRows(s.rows, read.booking, read.items, RowHeld, RowBooked),
       holds := s.holds[h := s.holds[h].(status := HoldConfirmed, version := s.holds[h].version + 1)],
       availableSeatCount := s.availableSeatCount - |read.items|,
       bookings := MoveBookings(s.bookings, {read.booking}, Confirmed))
  }

  /** A confirm whose read found the booking already confirmed answers with it. */
  predicate AlreadyConfirmed(read: Hold, readBooking: BookingStatus) {
    read.status == HoldConfirmed || readBooking == Confirmed
  }

  /** The two row counts of a confirm. */
  predicate CountsMatch(s: Inventory, read: Hold) {
    && CountSeats(s.seats, read.items, Held) == |read.items|
    && CountRows(s.rows, read.booking, read.items, RowHeld) == |read.items|
  }

  /** `read` and `readBooking` are the hold and the booking status as read at
      the start. The expiry of overdue holds on the late path is undone by the
      exception that follows it. */
  function Confirm(s: Inventory, h: HoldId, client: UserId, passengers: nat, now: Time, read: Hold,
                   readBooking: BookingStatus): Tx<Inventory>
  {
    if h !in s.holds || s.holds[h].client != client || read.booking !in s.bookings then
      Rejected("SEAT_HOLD_NOT_FOUND")
    else if AlreadyConfirmed(read, readBooking) then Committed(s)
    else if read.status != HoldActive || read.expiresAt <= now then Rejected("SEAT_HOLD_EXPIRED")
    else if passengers != s.bookings[read.booking].passengerCount then Rejected("PASSENGER_COUNT_MISMATCH")
    else if !CountsMatch(s, read) then Rejected("SEAT_HOLD_OWNERSHIP_CONFLICT")
    else Committed(BookHold(s, h, read))
  }

  // ----- cancellation -----

  predicate ClosedForCancel(status: BookingStatus) {
    status == CancelledByClient || status == CancelledByDriver || status == CancelledByAdmin || status == Expired
  }

  function CancelledBy(role: Role): BookingStatus {
    match role
    case Client => CancelledByClient
    case Driver => CancelledByDriver
    case Admin => CancelledByAdmin
  }

  /** The seats a booking holds or has booked, by its own rows. */
  function LiveSeats(s: Inventory, b: BookingId): set<SeatKey> {
    set k | k in s.rows && k.booking == b && Live(s.rows[k]) :: k.seat
  }

  function BookedRows(s: Inventory, b: BookingId): set<SeatKey> {
    set k | k in s.rows && k.booking == b && s.rows[k] == RowBooked :: k.seat
  }

  function FreeSeats(seats: map<SeatKey, SeatStatus>, ids: set<SeatKey>): map<SeatKey, SeatStatus> {
    map x | x in seats :: if x in ids && Taken(seats[x]) then Available else seats[x]
  }

  function CancelRows(rows: map<RowKey, RowStatus>, b: BookingId): map<RowKey, RowStatus> {
    map k | k in rows :: if k.booking == b && Live(rows[k]) then RowCancelled else rows[k]
  }

  function CancelHolds(holds: map<HoldId, Hold>, b: BookingId): map<HoldId, Hold> {
    map h | h in holds ::
      if holds[h].booking == b && holds[h].status == HoldActive
      then holds[h].(status := HoldCancelled, version := holds[h].version + 1) else holds[h]
  }

  /** The writes of a cancellation that found these live seats and so many of
      them booked. */
  function Withdraw(s: Inventory, b: BookingId, live: set<SeatKey>, booked: nat, role: Role): Inventory {
    s.(seats := FreeSeats(s.seats, live),
       rows := CancelRows(s.rows, b),
       holds := CancelHolds(s.holds, b),
       availableSeatCount := s.availableSeatCount + booked,
       bookings := MoveBookings(s.bookings, {b}, CancelledBy(role)))
  }

  function CancelBooking(s: Inventory, b: BookingId, user: UserId, role: Role): Tx<Inventory> {
    if b !in s.bookings || (role == Client && s.bookings[b].client != user) then Rejected("BOOKING_NOT_FOUND")
    else if ClosedForCancel(s.bookings[b].status) then Committed(s)
    else Committed(Withdraw(s, b, LiveSeats(s, b), |BookedRows(s, b)|, role))
  }

  // ----- what payments do to the inventory -----

  predicate AwaitsPayment(status: BookingStatus) {
    status == PaymentPending || status == PendingConfirmation || status == OnHold || status == Draft
  }

  /** The booking part of a successful payment: rows and holds move, trip seats
      and the counter do not, and the hold keeps its version. */
  function PaymentSucceeded(s: Inventory, b: BookingId): Inventory {
    s.(bookings := (map c | c in s.bookings ::
         if c == b && AwaitsPayment(s.bookings[c].status) then s.bookings[c].(status := Confirmed) else s.bookings[c]),
       rows := (map k | k in s.rows :: if k.booking == b && s.rows[k] == RowHeld then RowBooked else s.rows[k]),
       holds := (map h | h in s.holds ::
         if s.holds[h].booking == b && s.holds[h].status == HoldActive
         then s.holds[h].(status := HoldConfirmed) else s.holds[h]))
  }

  predicate IsActiveHoldOf(s: Inventory, h: HoldId, b: BookingId) {
    h in s.holds && s.holds[h].booking == b && s.holds[h].status == HoldActive
  }

  function ReleaseFirst(s: Inventory, first: Option<HoldId>): Inventory {
    if first.Some? && first.value in s.holds then ReleaseHold(s, HoldRead(first.value, s.holds[first.value]), HoldExpired)
    else s
  }

  function ExpirePendingBooking(bookings: map<BookingId, Booking>, b: BookingId): map<BookingId, Booking> {
    map c | c in bookings ::
      if c == b && bookings[c].status == PaymentPending then bookings[c].(status := Expired) else bookings[c]
  }

  /** The booking part of a stale payment's expiry; `first` is the ACTIVE hold
      of the booking that the query found, if there is one. */
  function PaymentExpired(s: Inventory, b: BookingId, first: Option<HoldId>): Inventory {
    var t := ReleaseFirst(s, first);
    t.(bookings := ExpirePendingBooking(t.bookings, b))
  }

  /** The booking part of payment creation. */
  function PaymentStarted(s: Inventory, b: BookingId, online: bool): Tx<Inventory> {
    if b !in s.bookings then Rejected("BOOKING_NOT_FOUND")
    else if ClosedForCancel(s.bookings[b].status) then Rejected("BOOKING_NOT_PAYABLE")
    else Committed(s.(bookings := MoveBookings(s.bookings, {b}, if online then PaymentPending else Confirmed)))
  }

  /** The driver's approval. A rejection by the driver is a cancellation. */
  function Approve(s: Inventory, b: BookingId): Tx<Inventory> {
    if b !in s.bookings then Rejected("BOOKING_NOT_FOUND")
    else if s.bookings[b].status == Confirmed then Committed(s)
    else if s.bookings[b].status != PendingConfirmation then Rejected("BOOKING_TRANSITION_INVALID")
    else Committed(s.(bookings := MoveBookings(s.bookings, {b}, Confirmed)))
  }

  // ----- the transaction system -----

  datatype Step =
    | CreateHoldStep(h: HoldId, b: BookingId, request: HoldRequest, expiresAt: Time, found: HoldLookup,
                     sweep: seq<HoldRead>, now: Time)
    | ConfirmStep(h: HoldId, client: UserId, passengers: nat, now: Time, read: Hold, readBooking: BookingStatus)
    | ReleaseStep(h: HoldId, client: UserId, read: Hold)
    | SweepStep(sweep: seq<HoldRead>, now: Time)
    | WorkerExpireStep(overdue: HoldRead, now: Time)
    | CancelStep(b: BookingId, user: UserId, role: Role)
    | PaymentSucceededStep(b: BookingId)
    | PaymentExpiredStep(b: BookingId, first: Option<HoldId>)
    | PaymentStartedStep(b: BookingId, online: bool)
    | ApproveStep(b: BookingId)

  function Attempt(s: Inventory, step: Step): Tx<Inventory> {
    match step
    case CreateHoldStep(h, b, request, expiresAt, found, sweep, _) =>
      CreateHold(s, h, b, request, expiresAt, found, sweep)
    case ConfirmStep(h, client, passengers, now, read, readBooking) =>
      Confirm(s, h, client, passengers, now, read, readBooking)
    case ReleaseStep(h, client, read) => Release(s, h, client, read)
    case SweepStep(sweep, _) => Committed(Sweep(s, sweep, true))
    case WorkerExpireStep(overdue, _) => Committed(ExpireHold(s, overdue, false))
    case CancelStep(b, user, role) => CancelBooking(s, b, user, role)
    case PaymentSucceededStep(b) => Committed(PaymentSucceeded(s, b))
    case PaymentExpiredStep(b, first) => Committed(PaymentExpired(s, b, first))
    case PaymentStartedStep(b, online) => PaymentStarted(s, b, online)
    case ApproveStep(b) => Approve(s, b)
  }

  function Apply(s: Inventory, step: Step): Inventory {
    match Attempt(s, step)
    case Committed(t) => t
    case Rejected(_) => s
  }

  /** A record that some earlier moment can have shown: a hold never changes its
      booking, client, seats or expiry, and its version only grows. */
  predicate PossibleRead(s: Inventory, h: HoldId, read: Hold) {
    && h in s.holds
    && SameRecord(read, s.holds[h])
  }

  predicate SameRecord(earlier: Hold, later: Hold) {
    && earlier.booking == later.booking
    && earlier.client == later.client
    && earlier.items == later.items
    && earlier.expiresAt == later.expiresAt
    && earlier.version <= later.version
  }

  /** Which steps can happen at all: queries return what is there, and stale
      reads are records that were there. */
  predicate Enabled(s: Inventory, step: Step) {
    match step
    case CreateHoldStep(_, _, request, _, _, sweep, now) => request.passengerCount >= 1 && OverdueBatch(s, sweep, now)
    case ConfirmStep(h, _, _, _, read, _) => PossibleRead(s, h, read)
    case ReleaseStep(h, _, read) => PossibleRead(s, h, read)
    case SweepStep(sweep, now) => OverdueBatch(s, sweep, now)
    case WorkerExpireStep(overdue, now) =>
      PossibleRead(s, overdue.id, overdue.hold) && overdue.hold.status == HoldActive && overdue.hold.expiresAt <= now
    case PaymentExpiredStep(b, first) =>
      if first.Some? then IsActiveHoldOf(s, first.value, b) else forall h | h in s.holds :: !IsActiveHoldOf(s, h, b)
    case _ => true
  }

  /** The state after a run, and whether every step of it was enabled. */
  function Exec(s: Inventory, steps: seq<Step>): Inventory
    decreases |steps|
  {
    if steps == [] then s else Exec(Apply(s, steps[0]), steps[1..])
  }

  predicate Run(s: Inventory, steps: seq<Step>)
    decreases |steps|
  {
    steps != [] ==> Enabled(s, steps[0]) && Run(Apply(s, steps[0]), steps[1..])
  }
}
