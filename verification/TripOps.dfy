/** Operating a trip on top of its seat inventory: boarding with codes, trip start
    PINs, no-shows, start, completion and operational cancellation. */
module TripOps {
  import opened Tables
  import opened SeatInventory
  import P = Parcels

  type PinId = nat
  type ParcelId = nat

  datatype TripStatus =
    | TripDraft | Published | BookingOpen | Full | Unpublished | TripCancelled | TripExpired | TripBoarding
    | TripInProgress | TripCompleted | TripBlocked

  datatype TripAction = StartBoarding | StartTrip | CompleteTrip | CancelTrip | ExpireTrip | BlockTrip | UnblockTrip

  function Target(action: TripAction): TripStatus {
    match action
    case StartBoarding => TripBoarding
    case StartTrip => TripInProgress
    case CompleteTrip => TripCompleted
    case CancelTrip => TripCancelled
    case ExpireTrip => TripExpired
    case BlockTrip => TripBlocked
    case UnblockTrip => Published
  }

  function AllowedFrom(action: TripAction): set<TripStatus> {
    match action
    case StartBoarding => {Published, BookingOpen, Full}
    case StartTrip => {TripBoarding}
    case CompleteTrip => {TripInProgress}
    case CancelTrip => {Published, BookingOpen, Full, TripBoarding}
    case ExpireTrip => {Published, BookingOpen}
    case BlockTrip => {Published, BookingOpen, Full, TripBoarding}
    case UnblockTrip => {TripBlocked}
  }

  function TransitionTrip(current: TripStatus, action: TripAction): Tx<TripStatus> {
    if current == Target(action) || current in AllowedFrom(action) then Committed(Target(action))
    else Rejected("TRIP_INVALID_TRANSITION")
  }

  datatype PinStatus = PinActive | PinVerified | PinReplaced

  datatype Pin = Pin(booking: BookingId, status: PinStatus, expiresAt: Time)

  /** `codes` are the boarding codes of each booking, in order of creation. */
  datatype Trip = Trip(status: TripStatus, inv: Inventory, pins: map<PinId, Pin>, parcels: map<ParcelId, P.Parcel>,
                       codes: map<BookingId, seq<P.Code>>)

  function PublishedTrip(capacity: nat): Trip {
    Trip(Published, Publish(capacity), map[], map[], map[])
  }

  // ----- who is on board -----

  predicate Sold(row: RowStatus) {
    row == RowBooked || row == RowOccupied
  }

  predicate IsBoarded(inv: Inventory, b: BookingId) {
    exists k :: k in inv.rows && k.booking == b && inv.rows[k] == RowOccupied
  }

  function Boarded(inv: Inventory): set<BookingId> {
    set b | b in inv.bookings && IsBoarded(inv, b)
  }

  /** The bookings in BOARDING. */
  function Unresolved(inv: Inventory): set<BookingId> {
    set b | b in inv.bookings && inv.bookings[b].status == Boarding
  }

  /** Every row of a booking, whatever its status. */
  function SeatsOf(inv: Inventory, b: BookingId): set<SeatKey> {
    set k | k in inv.rows && k.booking == b :: k.seat
  }

  // ----- boarding -----

  function ConfirmedToBoarding(bookings: map<BookingId, Booking>): map<BookingId, Booking> {
    map b | b in bookings :: if bookings[b].status == Confirmed then bookings[b].(status := Boarding) else bookings[b]
  }

  function CodesOf(codes: map<BookingId, seq<P.Code>>, b: BookingId): seq<P.Code> {
    if b in codes then codes[b] else []
  }

  /** The newest ACTIVE code. */
  function NewestActive(codes: seq<P.Code>): Option<nat>
    decreases |codes|
  {
    if codes == [] then None
    else if codes[|codes| - 1].status == P.CodeActive then Some(|codes| - 1)
    else NewestActive(codes[..|codes| - 1])
  }

  lemma {:induction false} NewestActiveIsThere(codes: seq<P.Code>)
    ensures NewestActive(codes).Some? ==>
              && NewestActive(codes).value < |codes| && codes[NewestActive(codes).value].status == P.CodeActive
              && forall j | NewestActive(codes).value < j < |codes| :: codes[j].status != P.CodeActive
    ensures NewestActive(codes) == None ==> forall j | 0 <= j < |codes| :: codes[j].status != P.CodeActive
    decreases |codes|
  {
    if codes != [] && codes[|codes| - 1].status != P.CodeActive {
      var rest := codes[..|codes| - 1];
      NewestActiveIsThere(rest);
      assert forall j | 0 <= j < |rest| :: codes[j] == rest[j];
    }
  }

  /** activeBoardingCodeForBooking: the newest ACTIVE code if it can be tried, else a
      new one. */
  function WithUsableCode(codes: seq<P.Code>, now: Time, expiresAt: Time): seq<P.Code> {
    NewestActiveIsThere(codes);
    match NewestActive(codes)
    case Some(i) => if now < codes[i].expiresAt then codes else P.WithNewCode(codes, expiresAt)
    case None => P.WithNewCode(codes, expiresAt)
  }

  function ProvideCodes(codes: map<BookingId, seq<P.Code>>, ids: set<BookingId>, now: Time, expiresAt: Time)
    : map<BookingId, seq<P.Code>>
  {
    map b | b in codes.Keys + ids :: if b in ids then WithUsableCode(CodesOf(codes, b), now, expiresAt) else codes[b]
  }

  function ConfirmedOnes(bookings: map<BookingId, Booking>): set<BookingId> {
    set b | b in bookings && bookings[b].status == Confirmed
  }

  function StartBoardingTrip(s: Trip, now: Time, expiresAt: Time): Tx<Trip> {
    match TransitionTrip(s.status, StartBoarding)
    case Rejected(code) => Rejected(code)
    case Committed(next) =>
      Committed(s.(status := next, inv := s.inv.(bookings := ConfirmedToBoarding(s.inv.bookings)),
                   codes := ProvideCodes(s.codes, ConfirmedOnes(s.inv.bookings), now, expiresAt)))
  }

  predicate IsBoarding(s: Trip, b: BookingId) {
    b in s.inv.bookings && s.status == TripBoarding && s.inv.bookings[b].status == Boarding
  }

  /** The client asks for the code of his booking, or for a new one. */
  function ShowCode(s: Trip, b: BookingId, caller: UserId, renew: bool, now: Time, expiresAt: Time): Tx<Trip> {
    if b !in s.inv.bookings || s.inv.bookings[b].client != caller then Rejected("BOOKING_NOT_FOUND")
    else if !IsBoarding(s, b) then Rejected("BOARDING_CODE_NOT_AVAILABLE")
    else
      var codes := CodesOf(s.codes, b);
      Committed(s.(codes := s.codes[b := if renew then P.WithNewCode(codes, expiresAt)
                                         else WithUsableCode(codes, now, expiresAt)]))
  }

  function SetSeats(seats: map<SeatKey, SeatStatus>, ids: set<SeatKey>, status: SeatStatus): map<SeatKey, SeatStatus> {
    map x | x in seats :: if x in ids then status else seats[x]
  }

  /** The seats are written whatever their status, the rows only if BOOKED. */
  function Board(inv: Inventory, b: BookingId): Inventory {
    inv.(seats := SetSeats(inv.seats, SeatsOf(inv, b), Occupied),
         rows := map k | k in inv.rows ::
           if k.booking == b && inv.rows[k] == RowBooked then RowOccupied else inv.rows[k])
  }

  function BoardBooking(s: Trip, b: BookingId, matches: bool, now: Time): Tx<Trip> {
    if b !in s.inv.bookings then Rejected("BOOKING_NOT_FOUND")
    else if !IsBoarding(s, b) then Rejected("BOARDING_NOT_ALLOWED")
    else
      var codes := CodesOf(s.codes, b);
      NewestActiveIsThere(codes);
      match NewestActive(codes)
      case None => Rejected("BOARDING_CODE_NOT_FOUND")
      case Some(i) =>
        if codes[i].expiresAt <= now then Rejected("BOARDING_CODE_EXPIRED")
        else if !matches then Rejected("BOARDING_CODE_INVALID")
        else Committed(s.(inv := Board(s.inv, b), codes := s.codes[b := codes[i := codes[i].(status := P.CodeVerified)]]))
  }

  /** The worker's expiry of boarding codes. */
  function ExpireCodes(codes: map<BookingId, seq<P.Code>>, now: Time): map<BookingId, seq<P.Code>> {
    map b | b in codes :: P.WithoutOverdue(codes[b], now)
  }

  predicate PinUsable(pin: Pin, b: BookingId, now: Time) {
    pin.booking == b && pin.status == PinActive && now < pin.expiresAt
  }

  function IssuePin(s: Trip, b: BookingId, pin: PinId, expiresAt: Time, now: Time): Tx<Trip> {
    if b !in s.inv.bookings then Rejected("BOOKING_NOT_FOUND")
    else if s.status != TripBoarding || s.inv.bookings[b].status != Boarding then Rejected("TRIP_START_PIN_NOT_AVAILABLE")
    else if exists p :: p in s.pins && PinUsable(s.pins[p], b, now) then Committed(s)
    else if pin in s.pins then Rejected("UNIQUE_VIOLATION")
    else
      var replaced := map p | p in s.pins ::
        if s.pins[p].booking == b && s.pins[p].status == PinActive then s.pins[p].(status := PinReplaced) else s.pins[p];
      Committed(s.(pins := replaced[pin := Pin(b, PinActive, expiresAt)]))
  }

  /** `pin` is the newest ACTIVE pin of the booking. */
  function VerifyPin(s: Trip, b: BookingId, pin: PinId, matches: bool, now: Time): Tx<Trip> {
    if b !in s.inv.bookings then Rejected("BOOKING_NOT_FOUND")
    else if s.status != TripBoarding || s.inv.bookings[b].status != Boarding then Rejected("TRIP_START_PIN_NOT_AVAILABLE")
    else if !IsBoarded(s.inv, b) then Rejected("PASSENGER_NOT_BOARDED")
    else if pin !in s.pins || s.pins[pin].booking != b || s.pins[pin].status != PinActive then
      Rejected("TRIP_START_PIN_NOT_FOUND")
    else if !PinUsable(s.pins[pin], b, now) then Rejected("BOARDING_CODE_EXPIRED")
    else if !matches then Rejected("TRIP_START_PIN_INVALID")
    else Committed(s.(pins := s.pins[pin := s.pins[pin].(status := PinVerified)]))
  }

  predicate MayBeNoShow(status: BookingStatus) {
    status == Confirmed || status == PendingConfirmation || status == Boarding
  }

  function Leave(inv: Inventory, b: BookingId): Inventory {
    inv.(seats := SetSeats(inv.seats, SeatsOf(inv, b), Available),
         rows := (map k | k in inv.rows :: if k.booking == b then RowReleased else inv.rows[k]),
         bookings := MoveBookings(inv.bookings, {b}, NoShowClient))
  }

  function MarkClientNoShow(s: Trip, b: BookingId): Tx<Trip> {
    if s.status != TripBoarding || b !in s.inv.bookings || !MayBeNoShow(s.inv.bookings[b].status) then
      Rejected("BOOKING_NOT_FOUND")
    else Committed(s.(inv := Leave(s.inv, b)))
  }

  // ----- start and completion -----

  predicate HasVerifiedPin(s: Trip, b: BookingId) {
    exists p :: p in s.pins && s.pins[p].booking == b && s.pins[p].status == PinVerified
  }

  /** The groups of the pin query: the boarded bookings with a VERIFIED pin. */
  function WithVerifiedPin(s: Trip): set<BookingId> {
    set b | b in Boarded(s.inv) && HasVerifiedPin(s, b)
  }

  /** Boarded bookings that are in BOARDING depart, the others stay. */
  function Departed(inv: Inventory): map<BookingId, Booking> {
    map b | b in inv.bookings ::
      if inv.bookings[b].status == Boarding && IsBoarded(inv, b) then inv.bookings[b].(status := InProgress)
      else inv.bookings[b]
  }

  function ParcelsLoaded(parcels: map<ParcelId, P.Parcel>): map<ParcelId, P.Parcel> {
    map p | p in parcels ::
      if parcels[p].status == P.HandedToDriver
      then parcels[p].(status := P.InTransit, version := parcels[p].version + 1) else parcels[p]
  }

  /** `allow` is the override for unresolved passengers. The guards compare
      numbers of bookings, not bookings. */
  function StartTripOperation(s: Trip, allow: bool): Tx<Trip> {
    if !allow && |Unresolved(s.inv)| != |Boarded(s.inv)| then Rejected("TRIP_UNRESOLVED_PASSENGERS")
    else if !allow && |Boarded(s.inv)| > 0 && |WithVerifiedPin(s)| != |Boarded(s.inv)| then
      Rejected("TRIP_START_PIN_REQUIRED")
    else
      match TransitionTrip(s.status, StartTrip)
      case Rejected(code) => Rejected(code)
      case Committed(next) =>
        Committed(s.(status := next, inv := s.inv.(bookings := Departed(s.inv)), parcels := ParcelsLoaded(s.parcels)))
  }

  function Arrived(bookings: map<BookingId, Booking>): map<BookingId, Booking> {
    map b | b in bookings ::
      if bookings[b].status == InProgress || bookings[b].status == Boarding then bookings[b].(status := Completed)
      else bookings[b]
  }

  function CompleteTripOperation(s: Trip): Tx<Trip> {
    match TransitionTrip(s.status, CompleteTrip)
    case Rejected(code) => Rejected(code)
    case Committed(next) => Committed(s.(status := next, inv := s.inv.(bookings := Arrived(s.inv.bookings))))
  }

  // ----- operational cancellation -----

  predicate ActiveBooking(status: BookingStatus) {
    status == PendingConfirmation || status == Confirmed || status == Boarding || status == InProgress
  }

  function CancelledBookings(bookings: map<BookingId, Booking>, status: BookingStatus): map<BookingId, Booking> {
    map b | b in bookings :: if ActiveBooking(bookings[b].status) then bookings[b].(status := status) else bookings[b]
  }

  function ParcelsCancelled(parcels: map<ParcelId, P.Parcel>): map<ParcelId, P.Parcel> {
    map p | p in parcels ::
      if P.ActiveOnTrip(parcels[p].status)
      then parcels[p].(status := P.CancelledByAdmin, version := parcels[p].version + 1) else parcels[p]
  }

  predicate InUse(status: SeatStatus) {
    status == Held || status == Booked || status == Occupied
  }

  function SeatsFreed(seats: map<SeatKey, SeatStatus>): map<SeatKey, SeatStatus> {
    map x | x in seats :: if InUse(seats[x]) then Available else seats[x]
  }

  function CancelTripOperational(s: Trip, role: Role): Tx<Trip> {
    match TransitionTrip(s.status, CancelTrip)
    case Rejected(code) => Rejected(code)
    case Committed(next) =>
      Committed(s.(
        status := next,
        inv := s.inv.(bookings := CancelledBookings(s.inv.bookings, CancelledBy(role)), seats := SeatsFreed(s.inv.seats)),
        parcels := ParcelsCancelled(s.parcels)))
  }

  /** The admin's no-show of the driver. It checks no transition, so a trip in any
      status becomes CANCELLED, and it leaves parcels alone. */
  function DriverNoShow(s: Trip): Trip {
    s.(status := TripCancelled,
       inv := s.inv.(bookings := CancelledBookings(s.inv.bookings, NoShowDriver), seats := SeatsFreed(s.inv.seats)))
  }

  // ----- the trip as a state machine -----

  datatype TripStep =
    | SeatStep(step: Step)
    | ParcelStep(parcel: ParcelId, change: P.Step)
    | StartBoardingStep(now: Time, expiresAt: Time)
    | ShowCodeStep(b: BookingId, caller: UserId, renew: bool, now: Time, expiresAt: Time)
    | ExpireCodesStep(now: Time)
    | BoardStep(b: BookingId, matches: bool, now: Time)
    | IssuePinStep(b: BookingId, pin: PinId, expiresAt: Time, now: Time)
    | VerifyPinStep(b: BookingId, pin: PinId, matches: bool, now: Time)
    | NoShowStep(b: BookingId)
    | StartTripStep(allow: bool)
    | CompleteStep
    | CancelTripStep(role: Role)
    | DriverNoShowStep

  function TripAttempt(s: Trip, step: TripStep): Tx<Trip> {
    match step
    case SeatStep(seatStep) => Committed(s.(inv := Apply(s.inv, seatStep)))
    case ParcelStep(p, change) =>
      if p !in s.parcels then Rejected("PARCEL_NOT_FOUND")
      else Committed(s.(parcels := s.parcels[p := P.Apply(s.parcels[p], change)]))
    case StartBoardingStep(now, expiresAt) => StartBoardingTrip(s, now, expiresAt)
    case ShowCodeStep(b, caller, renew, now, expiresAt) => ShowCode(s, b, caller, renew, now, expiresAt)
    case ExpireCodesStep(now) => Committed(s.(codes := ExpireCodes(s.codes, now)))
    case BoardStep(b, matches, now) => BoardBooking(s, b, matches, now)
    case IssuePinStep(b, pin, expiresAt, now) => IssuePin(s, b, pin, expiresAt, now)
    case VerifyPinStep(b, pin, matches, now) => VerifyPin(s, b, pin, matches, now)
    case NoShowStep(b) => MarkClientNoShow(s, b)
    case StartTripStep(allow) => StartTripOperation(s, allow)
    case CompleteStep => CompleteTripOperation(s)
    case CancelTripStep(role) => CancelTripOperational(s, role)
    case DriverNoShowStep => Committed(DriverNoShow(s))
  }

  function TripApply(s: Trip, step: TripStep): Trip {
    match TripAttempt(s, step)
    case Committed(t) => t
    case Rejected(_) => s
  }

  /** The trip lookup of hold creation only finds trips open for booking. */
  predicate LookupAgrees(s: Trip, step: Step) {
    step.CreateHoldStep? && step.found == Bookable ==> s.status == Published || s.status == BookingOpen
  }

  predicate TripEnabled(s: Trip, step: TripStep) {
    match step
    case SeatStep(seatStep) => Enabled(s.inv, seatStep) && LookupAgrees(s, seatStep)
    case ParcelStep(p, change) => p in s.parcels ==> P.Enabled(s.parcels[p], change)
    case _ => true
  }

  function TripExec(s: Trip, steps: seq<TripStep>): Trip
    decreases |steps|
  {
    if steps == [] then s else TripExec(TripApply(s, steps[0]), steps[1..])
  }

  predicate TripRun(s: Trip, steps: seq<TripStep>)
    decreases |steps|
  {
    steps != [] ==> TripEnabled(s, steps[0]) && TripRun(TripApply(s, steps[0]), steps[1..])
  }
}
