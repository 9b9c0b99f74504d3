/** Who gets on board and how, and the exact conditions and effects of the steps that
    operate a trip. */
module TripRules {
  import opened Tables
  import opened SeatInventory
  import opened TripOps
  import opened TripSafety
  import P = Parcels

  // ----- boarding codes -----

  /** The i-th code is ACTIVE, no later one is, and it is not expired. */
  predicate OpenAt(codes: seq<P.Code>, i: nat, now: Time) {
    && i < |codes| && codes[i].status == P.CodeActive && now < codes[i].expiresAt
    && forall j | i < j < |codes| :: codes[j].status != P.CodeActive
  }

  /** A booking boards exactly when the trip and the booking are BOARDING, its newest
      ACTIVE code is not expired, and the code given matches; that code is then
      VERIFIED. With a wrong, expired or missing code nothing changes. */
  lemma BoardingExactly(s: Trip, b: BookingId, matches: bool, now: Time)
    ensures var r := BoardBooking(s, b, matches, now);
            && (r.Committed? <==>
                  && b in s.inv.bookings && s.status == TripBoarding && s.inv.bookings[b].status == Boarding && matches
                  && b in s.codes && exists i: nat :: OpenAt(s.codes[b], i, now))
            && (r.Committed? ==>
                  && r.state.inv == Board(s.inv, b)
                  && exists i: nat :: OpenAt(s.codes[b], i, now)
                       && r.state == s.(inv := r.state.inv,
                                        codes := s.codes[b := s.codes[b][i := P.Code(P.CodeVerified, s.codes[b][i].expiresAt)]]))
    ensures BoardBooking(s, b, matches, now).Rejected? ==> TripApply(s, BoardStep(b, matches, now)) == s
  {
    var codes := CodesOf(s.codes, b);
    NewestActiveIsThere(codes);
    if NewestActive(codes).Some? && now < codes[NewestActive(codes).value].expiresAt {
      assert OpenAt(codes, NewestActive(codes).value, now);
    }
  }

  /** Everyone on board has shown a code: one of the codes of the booking is VERIFIED. */
  ghost predicate OnBoardShowedCode(s: Trip) {
    forall b | IsBoarded(s.inv, b) :: b in s.codes && P.HasVerified(s.codes[b])
  }

  ghost predicate CodesKept(s: Trip, t: Trip) {
    forall b | b in s.codes && P.HasVerified(s.codes[b]) :: b in t.codes && P.HasVerified(t.codes[b])
  }

  lemma {:induction false} NewCodeKeeps(codes: seq<P.Code>, expiresAt: Time)
    requires P.HasVerified(codes)
    ensures P.HasVerified(P.WithNewCode(codes, expiresAt))
  {
    P.NewCodeExactly(codes, expiresAt);
    var i :| 0 <= i < |codes| && codes[i].status == P.CodeVerified;
    assert P.WithNewCode(codes, expiresAt)[i] == codes[i];
  }

  lemma UsableKeeps(codes: seq<P.Code>, now: Time, expiresAt: Time)
    requires P.HasVerified(codes)
    ensures P.HasVerified(WithUsableCode(codes, now, expiresAt))
  {
    NewCodeKeeps(codes, expiresAt);
  }

  lemma StartKeepsCodes(s: Trip, now: Time, expiresAt: Time)
    ensures CodesKept(s, TripApply(s, StartBoardingStep(now, expiresAt)))
  {
    forall b | b in s.codes && P.HasVerified(s.codes[b])
      ensures P.HasVerified(WithUsableCode(CodesOf(s.codes, b), now, expiresAt))
    {
      UsableKeeps(s.codes[b], now, expiresAt);
    }
  }

  lemma ShowKeepsCodes(s: Trip, b: BookingId, caller: UserId, renew: bool, now: Time, expiresAt: Time)
    ensures CodesKept(s, TripApply(s, ShowCodeStep(b, caller, renew, now, expiresAt)))
  {
    if b in s.codes && P.HasVerified(s.codes[b]) {
      UsableKeeps(s.codes[b], now, expiresAt);
      NewCodeKeeps(s.codes[b], expiresAt);
    }
  }

  /** The worker expires exactly the ACTIVE codes whose time has come. */
  lemma CodesExpireExactly(s: Trip, now: Time)
    ensures var t := TripApply(s, ExpireCodesStep(now));
            && t == s.(codes := t.codes) && t.codes.Keys == s.codes.Keys
            && forall b | b in s.codes ::
                 && |t.codes[b]| == |s.codes[b]|
                 && forall i | 0 <= i < |s.codes[b]| ::
                      t.codes[b][i] == if s.codes[b][i].status == P.CodeActive && s.codes[b][i].expiresAt <= now
                                       then P.Code(P.CodeExpired, s.codes[b][i].expiresAt) else s.codes[b][i]
  {
  }

  lemma ExpiryKeepsCodes(s: Trip, now: Time)
    ensures CodesKept(s, TripApply(s, ExpireCodesStep(now)))
  {
    var t := TripApply(s, ExpireCodesStep(now));
    CodesExpireExactly(s, now);
    forall b | b in s.codes && P.HasVerified(s.codes[b]) ensures P.HasVerified(t.codes[b]) {
      var i :| 0 <= i < |s.codes[b]| && s.codes[b][i].status == P.CodeVerified;
      assert t.codes[b][i] == s.codes[b][i];
    }
  }

  lemma BoardingVerifies(s: Trip, b: BookingId, matches: bool, now: Time)
    requires BoardBooking(s, b, matches, now).Committed?
    ensures var t := BoardBooking(s, b, matches, now).state;
            b in t.codes && P.HasVerified(t.codes[b]) && t.codes == s.codes[b := t.codes[b]] && t.inv == Board(s.inv, b)
  {
    var codes := CodesOf(s.codes, b);
    NewestActiveIsThere(codes);
    var i := NewestActive(codes).value;
    assert BoardBooking(s, b, matches, now).state.codes[b][i].status == P.CodeVerified;
  }

  lemma BoardKeepsShown(s: Trip, b: BookingId, matches: bool, now: Time)
    requires Ready(s.inv) && OnBoardShowedCode(s)
    ensures OnBoardShowedCode(TripApply(s, BoardStep(b, matches, now)))
  {
    if BoardBooking(s, b, matches, now).Committed? {
      BoardingVerifies(s, b, matches, now);
      BoardKeepsReady(s.inv, b);
    }
  }

  lemma NobodyBoards(s: Trip, t: Trip)
    requires OnBoardShowedCode(s) && CodesKept(s, t) && forall b | IsBoarded(t.inv, b) :: IsBoarded(s.inv, b)
    ensures OnBoardShowedCode(t)
  {
  }

  lemma OthersKeepCodes(s: Trip, step: TripStep)
    requires !step.StartBoardingStep? && !step.ShowCodeStep? && !step.BoardStep? && !step.ExpireCodesStep?
    ensures TripApply(s, step).codes == s.codes
  {
  }

  lemma StatusStepBoardsNobody(s: Trip, step: TripStep)
    requires !step.SeatStep? && !step.BoardStep? && !step.NoShowStep?
    ensures forall b :: IsBoarded(TripApply(s, step).inv, b) <==> IsBoarded(s.inv, b)
  {
    SameRowsBoard(s.inv, TripApply(s, step).inv);
  }

  lemma SameRowsBoard(s: Inventory, t: Inventory)
    requires t.rows == s.rows
    ensures forall b :: IsBoarded(t, b) <==> IsBoarded(s, b)
  {
  }

  lemma StepBoardsByCode(s: Trip, step: TripStep)
    requires Ready(s.inv) && OnBoardShowedCode(s) && TripEnabled(s, step)
    ensures OnBoardShowedCode(TripApply(s, step))
  {
    var t := TripApply(s, step);
    match step
    case BoardStep(b, matches, now) => BoardKeepsShown(s, b, matches, now);
    case SeatStep(seatStep) =>
      SeatStepKeeps(s.inv, seatStep);
      NewBookingsAreNotBoarded(s.inv, t.inv);
      NobodyBoards(s, t);
    case NoShowStep(b) =>
      LeaveKeepsReady(s.inv, b);
      NobodyBoards(s, t);
    case StartBoardingStep(now, expiresAt) =>
      StartKeepsCodes(s, now, expiresAt);
      StatusStepBoardsNobody(s, step);
      NobodyBoards(s, t);
    case ShowCodeStep(b, caller, renew, now, expiresAt) =>
      ShowKeepsCodes(s, b, caller, renew, now, expiresAt);
      StatusStepBoardsNobody(s, step);
      NobodyBoards(s, t);
    case ExpireCodesStep(now) =>
      ExpiryKeepsCodes(s, now);
      StatusStepBoardsNobody(s, step);
      NobodyBoards(s, t);
    case _ =>
      OthersKeepCodes(s, step);
      StatusStepBoardsNobody(s, step);
      NobodyBoards(s, t);
  }

  /** On every run from publication everyone on board has shown a code that matched: the
      booking has a VERIFIED boarding code. */
  lemma {:induction false} RunBoardsByCode(s: Trip, steps: seq<TripStep>)
    requires Ready(s.inv) && OnBoardShowedCode(s) && TripRun(s, steps)
    ensures OnBoardShowedCode(TripExec(s, steps))
    decreases |steps|
  {
    if steps != [] {
      StepBoardsByCode(s, steps[0]);
      TripStepKeepsReady(s, steps[0]);
      RunBoardsByCode(TripApply(s, steps[0]), steps[1..]);
    }
  }

  lemma NobodyIsOnBoardYet(capacity: nat)
    requires 1 <= capacity
    ensures Ready(PublishedTrip(capacity).inv) && OnBoardShowedCode(PublishedTrip(capacity))
  {
    PublishedTripIsOk(capacity);
  }

  /** A client sees a code of his own booking while it boards, and only then: the one
      there is while it can be tried, a new one otherwise or on request. */
  lemma CodesAreTheClients(s: Trip, b: BookingId, caller: UserId, renew: bool, now: Time, expiresAt: Time)
    requires now < expiresAt
    ensures ShowCode(s, b, caller, renew, now, expiresAt).Committed? <==>
              && b in s.inv.bookings && s.inv.bookings[b].client == caller
              && s.status == TripBoarding && s.inv.bookings[b].status == Boarding
    ensures ShowCode(s, b, caller, renew, now, expiresAt).Committed? ==>
              var t := ShowCode(s, b, caller, renew, now, expiresAt).state;
              && t == s.(codes := t.codes) && b in t.codes && (exists i: nat :: OpenAt(t.codes[b], i, now))
              && (forall c | c in s.codes && c != b :: c in t.codes && t.codes[c] == s.codes[c])
              && (!renew && b in s.codes && (exists i: nat :: OpenAt(s.codes[b], i, now)) ==> t.codes[b] == s.codes[b])
              && (renew ==> |t.codes[b]| > 0 && t.codes[b][|t.codes[b]| - 1] == P.Code(P.CodeActive, expiresAt))
  {
    var codes := CodesOf(s.codes, b);
    NewestActiveIsThere(codes);
    P.NewCodeExactly(codes, expiresAt);
    assert OpenAt(P.WithNewCode(codes, expiresAt), |codes|, now);
    if NewestActive(codes).Some? && now < codes[NewestActive(codes).value].expiresAt {
      assert OpenAt(codes, NewestActive(codes).value, now);
    }
  }

  // ----- PINs, no-shows, start -----

  /** A PIN is replaced exactly when no ACTIVE one of the booking is unexpired; the
      booking then has one that is. */
  lemma PinIsKeptWhileUsable(s: Trip, b: BookingId, pin: PinId, expiresAt: Time, now: Time)
    requires now < expiresAt && IssuePin(s, b, pin, expiresAt, now).Committed?
    ensures var t := IssuePin(s, b, pin, expiresAt, now).state;
            && s.status == TripBoarding && b in s.inv.bookings && s.inv.bookings[b].status == Boarding
            && (t == s <==>
                  exists p :: p in s.pins && s.pins[p].booking == b && s.pins[p].status == PinActive && now < s.pins[p].expiresAt)
            && (exists p :: p in t.pins && t.pins[p].booking == b && t.pins[p].status == PinActive && now < t.pins[p].expiresAt)
            && (forall p | p in s.pins && s.pins[p].booking != b :: p in t.pins && t.pins[p] == s.pins[p])
  {
    var t := IssuePin(s, b, pin, expiresAt, now).state;
    if p :| p in s.pins && PinUsable(s.pins[p], b, now) {
      assert s.pins[p].booking == b && s.pins[p].status == PinActive && now < s.pins[p].expiresAt;
    } else {
      assert pin in t.pins && t.pins[pin] == Pin(b, PinActive, expiresAt) && pin !in s.pins;
    }
  }

  /** A client is a no-show exactly while the trip boards and his booking is CONFIRMED,
      waiting for approval or BOARDING; it then has no row and no seat, and nobody else
      loses any. */
  lemma NoShowExactly(s: Trip, b: BookingId)
    ensures MarkClientNoShow(s, b).Committed? <==>
              && s.status == TripBoarding && b in s.inv.bookings
              && s.inv.bookings[b].status in {Confirmed, PendingConfirmation, Boarding}
    ensures MarkClientNoShow(s, b).Committed? ==>
              var t := MarkClientNoShow(s, b).state;
              && t.inv.bookings == s.inv.bookings[b := s.inv.bookings[b].(status := NoShowClient)]
              && t.inv.rows.Keys == s.inv.rows.Keys && t.inv.seats.Keys == s.inv.seats.Keys
              && (forall k | k in s.inv.rows :: t.inv.rows[k] == if k.booking == b then RowReleased else s.inv.rows[k])
              && (forall x | x in s.inv.seats ::
                    t.inv.seats[x] == if RowKey(b, x) in s.inv.rows then Available else s.inv.seats[x])
              && t == s.(inv := s.inv.(bookings := t.inv.bookings, rows := t.inv.rows, seats := t.inv.seats))
  {
    forall x ensures x in SeatsOf(s.inv, b) <==> RowKey(b, x) in s.inv.rows {
      if RowKey(b, x) in s.inv.rows { assert RowKey(b, x).seat == x; }
    }
  }

  /** Boarding writes the seats of all rows of the booking, and its BOOKED rows. */
  lemma BoardExactly(s: Inventory, b: BookingId)
    ensures var t := Board(s, b);
            && t == s.(seats := t.seats, rows := t.rows) && t.seats.Keys == s.seats.Keys && t.rows.Keys == s.rows.Keys
            && (forall x | x in s.seats :: t.seats[x] == if RowKey(b, x) in s.rows then Occupied else s.seats[x])
            && (forall k | k in s.rows ::
                  t.rows[k] == if k.booking == b && s.rows[k] == RowBooked then RowOccupied else s.rows[k])
  {
    forall x ensures x in SeatsOf(s, b) <==> RowKey(b, x) in s.rows {
      if RowKey(b, x) in s.rows { assert RowKey(b, x).seat == x; }
    }
  }

  /** A trip starts boarding exactly from the statuses open for it; exactly its CONFIRMED
      bookings are then BOARDING, each with a code that can be tried. */
  lemma StartBoardingExactly(s: Trip, now: Time, expiresAt: Time)
    requires now < expiresAt
    ensures StartBoardingTrip(s, now, expiresAt).Committed? <==> s.status in {Published, BookingOpen, Full, TripBoarding}
    ensures StartBoardingTrip(s, now, expiresAt).Committed? ==>
              var t := StartBoardingTrip(s, now, expiresAt).state;
              && t.status == TripBoarding && t.inv == s.inv.(bookings := t.inv.bookings)
              && t.inv.bookings.Keys == s.inv.bookings.Keys
              && (forall b | b in s.inv.bookings ::
                    t.inv.bookings[b] ==
                    if s.inv.bookings[b].status == Confirmed then s.inv.bookings[b].(status := Boarding) else s.inv.bookings[b])
              && (forall b | b in s.inv.bookings && s.inv.bookings[b].status == Confirmed ::
                    b in t.codes && exists i: nat :: OpenAt(t.codes[b], i, now))
  {
    forall b | b in s.inv.bookings && s.inv.bookings[b].status == Confirmed
      ensures exists i: nat :: OpenAt(WithUsableCode(CodesOf(s.codes, b), now, expiresAt), i, now)
    {
      UsableIsOpen(CodesOf(s.codes, b), now, expiresAt);
    }
  }

  lemma UsableIsOpen(codes: seq<P.Code>, now: Time, expiresAt: Time)
    requires now < expiresAt
    ensures exists i: nat :: OpenAt(WithUsableCode(codes, now, expiresAt), i, now)
  {
    NewestActiveIsThere(codes);
    P.NewCodeExactly(codes, expiresAt);
    if NewestActive(codes).Some? && now < codes[NewestActive(codes).value].expiresAt {
      assert OpenAt(WithUsableCode(codes, now, expiresAt), NewestActive(codes).value, now);
    } else {
      assert WithUsableCode(codes, now, expiresAt) == P.WithNewCode(codes, expiresAt);
      assert OpenAt(WithUsableCode(codes, now, expiresAt), |codes|, now);
    }
  }

  /** A trip starts exactly from BOARDING (or again), if it may leave passengers behind
      or if as many bookings board as are on board and each of those has a VERIFIED
      PIN; whoever is BOARDING and on board departs, and parcels handed over travel. */
  lemma StartExactly(s: Trip, allow: bool)
    ensures StartTripOperation(s, allow).Committed? <==>
              && s.status in {TripBoarding, TripInProgress}
              && (allow || (&& |Unresolved(s.inv)| == |Boarded(s.inv)|
                            && forall b | b in Boarded(s.inv) :: HasVerifiedPin(s, b)))
    ensures StartTripOperation(s, allow).Committed? ==>
              var t := StartTripOperation(s, allow).state;
              && t.status == TripInProgress && t.inv == s.inv.(bookings := t.inv.bookings)
              && t.inv.bookings.Keys == s.inv.bookings.Keys && t.parcels.Keys == s.parcels.Keys
              && t.pins == s.pins && t.codes == s.codes
              && (forall b | b in s.inv.bookings ::
                    t.inv.bookings[b] ==
                    if s.inv.bookings[b].status == Boarding && IsBoarded(s.inv, b)
                    then s.inv.bookings[b].(status := InProgress) else s.inv.bookings[b])
              && (forall p | p in s.parcels ::
                    t.parcels[p] ==
                    if s.parcels[p].status == P.HandedToDriver
                    then s.parcels[p].(status := P.InTransit, version := s.parcels[p].version + 1) else s.parcels[p])
  {
    SubsetCardinality(WithVerifiedPin(s), Boarded(s.inv));
    if forall b | b in Boarded(s.inv) :: HasVerifiedPin(s, b) { assert WithVerifiedPin(s) == Boarded(s.inv); }
    if WithVerifiedPin(s) == Boarded(s.inv) {
      forall b | b in Boarded(s.inv) ensures HasVerifiedPin(s, b) {
        assert b in WithVerifiedPin(s);
      }
    }
  }

  /** The transition table of trips read the other way: what can be done with one. */
  lemma TripActionsExactly(status: TripStatus, action: TripAction)
    ensures status in AllowedFrom(action) <==>
              action in match status
                        case Published => {StartBoarding, CancelTrip, ExpireTrip, BlockTrip}
                        case BookingOpen => {StartBoarding, CancelTrip, ExpireTrip, BlockTrip}
                        case Full => {StartBoarding, CancelTrip, BlockTrip}
                        case TripBoarding => {StartTrip, CancelTrip, BlockTrip}
                        case TripInProgress => {CompleteTrip}
                        case TripBlocked => {UnblockTrip}
                        case _ => {}
    ensures Target(action) == match action
                              case StartBoarding => TripBoarding
                              case StartTrip => TripInProgress
                              case CompleteTrip => TripCompleted
                              case CancelTrip => TripCancelled
                              case ExpireTrip => TripExpired
                              case BlockTrip => TripBlocked
                              case UnblockTrip => Published
  {
  }
}
