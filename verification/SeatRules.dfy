/** Who may confirm, release and pay for a hold, when it expires, and the way of one
    booking from its request to its confirmation. */
module SeatRules {
  import opened Tables
  import opened SeatInventory
  import opened SeatSafety
  import opened SeatLaws
  import opened SeatExpiry
  import SeatLayout

  // ----- confirm and release are the client's -----

  /** Whoever calls, whenever, from whatever old record: a confirm goes through
      exactly for the client of the hold, who either saw it confirmed already or saw
      it ACTIVE before its expiry, gives the passengers of the booking, and comes
      while the hold is still ACTIVE. Anybody else finds no hold. */
  lemma ConfirmExactly(t: Inventory, h: HoldId, caller: UserId, passengers: nat, now: Time, read: Hold,
                       readBooking: BookingStatus)
    requires Valid(t) && PossibleRead(t, h, read)
    ensures var r := Confirm(t, h, caller, passengers, now, read, readBooking);
            && (r.Committed? <==>
                  && caller == t.holds[h].client
                  && (|| read.status == HoldConfirmed || readBooking == Confirmed
                      || (&& read.status == HoldActive && now < read.expiresAt && t.holds[h].status == HoldActive
                          && passengers == t.bookings[read.booking].passengerCount)))
            && (caller != t.holds[h].client ==> r == Rejected("SEAT_HOLD_NOT_FOUND"))
            && (r.Committed? && (read.status == HoldConfirmed || readBooking == Confirmed) ==> r.state == t)
  {
    CountsMatchIffActive(t, h, read);
  }

  /** A release goes through exactly for the client of the hold, and changes
      something exactly if the hold is ACTIVE and still the record that was read. */
  lemma ReleaseExactly(s: Inventory, h: HoldId, caller: UserId, read: Hold)
    requires Valid(s) && PossibleRead(s, h, read)
    ensures var r := Release(s, h, caller, read);
            && (r.Committed? <==> caller == s.holds[h].client)
            && (caller != s.holds[h].client ==> r == Rejected("SEAT_HOLD_NOT_FOUND"))
            && (r.Committed? ==> (r.state != s <==> read.status == HoldActive && s.holds[h] == read))
            && (r.Committed? && r.state != s ==>
                  && r.state.holds == s.holds[h := read.(status := HoldReleased, version := read.version + 1)]
                  && r.state.bookings == s.bookings[read.booking := s.bookings[read.booking].(status := Expired)])
  {
    if read.status == HoldActive && Claims(s, HoldRead(h, read)) && s.holds[h].client == caller {
      assert Release(s, h, caller, read).state.holds[h].status != s.holds[h].status;
    }
  }

  // ----- from the request to the confirmation -----

  /** Who a booking is for, and how many, never changes. */
  ghost predicate TermsKept(s: Inventory, t: Inventory) {
    forall b | b in s.bookings ::
      && b in t.bookings && t.bookings[b].client == s.bookings[b].client
      && t.bookings[b].passengerCount == s.bookings[b].passengerCount
  }

  lemma {:induction false} SweepKeepsTerms(s: Inventory, batch: seq<HoldRead>)
    ensures TermsKept(s, Sweep(s, batch, true))
    decreases |batch|
  {
    if batch != [] { SweepKeepsTerms(ExpireHold(s, batch[0], true), batch[1..]); }
  }

  lemma TakeKeepsTerms(s: Inventory, h: HoldId, b: BookingId, request: HoldRequest, expiresAt: Time)
    ensures var r := TakeSeats(s, h, b, request, expiresAt); r.Committed? ==> TermsKept(s, r.state)
  {
  }

  lemma CreateKeepsTerms(s: Inventory, step: Step)
    requires step.CreateHoldStep?
    ensures TermsKept(s, Apply(s, step))
  {
    SweepKeepsTerms(s, step.sweep);
    TakeKeepsTerms(Sweep(s, step.sweep, true), step.h, step.b, step.request, step.expiresAt);
    CreateOutcomes(s, step);
  }

  lemma OtherKeepsTerms(s: Inventory, step: Step)
    requires !step.CreateHoldStep? && !step.SweepStep?
    ensures TermsKept(s, Apply(s, step))
  {
  }

  lemma StepKeepsTerms(s: Inventory, step: Step)
    ensures TermsKept(s, Apply(s, step))
  {
    match step
    case CreateHoldStep(_, _, _, _, _, _, _) => CreateKeepsTerms(s, step);
    case SweepStep(sweep, _) => SweepKeepsTerms(s, sweep);
    case _ => OtherKeepsTerms(s, step);
  }

  lemma {:induction false} RunKeepsTerms(s: Inventory, steps: seq<Step>)
    ensures TermsKept(s, Exec(s, steps))
    decreases |steps|
  {
    if steps != [] {
      StepKeepsTerms(s, steps[0]);
      RunKeepsTerms(Apply(s, steps[0]), steps[1..]);
    }
  }

  lemma GrantedByCreation(s: Inventory, step: Step)
    requires step.CreateHoldStep? && step.found == Bookable && Attempt(s, step).Committed?
    ensures var t := Apply(s, step);
            && step.h in t.holds && step.b in t.bookings
            && t.holds[step.h].booking == step.b && t.holds[step.h].client == step.request.client
            && t.holds[step.h].expiresAt == step.expiresAt && t.holds[step.h].status == HoldActive
            && t.bookings[step.b] == Booking(step.request.client, step.request.passengerCount, step.expiresAt, OnHold)
  {
    GrantedHoldHasItsSeats(WithAllSeats(Sweep(s, step.sweep, true)), step.h, step.b, step.request, step.expiresAt);
  }

  /** From request to confirmation: a hold that was granted, whatever happened
      meanwhile, can be confirmed exactly by the client who asked for it, for as many
      passengers as he asked for, before it expires and while it is ACTIVE; at first
      it is. */
  lemma HoldRoundTrip(s: Inventory, create: Step, between: seq<Step>, caller: UserId, passengers: nat, now: Time)
    requires Valid(s) && Enabled(s, create) && create.CreateHoldStep? && create.found == Bookable
    requires Attempt(s, create).Committed? && Run(Apply(s, create), between)
    ensures var granted := Apply(s, create);
            var t := Exec(granted, between);
            && create.h in granted.holds && create.h in t.holds
            && (Confirm(t, create.h, caller, passengers, now, granted.holds[create.h], OnHold).Committed? <==>
                  && caller == create.request.client && passengers == create.request.passengerCount
                  && now < create.expiresAt && t.holds[create.h].status == HoldActive)
            && (between == [] ==> t.holds[create.h].status == HoldActive)
  {
    var granted := Apply(s, create);
    GrantedByCreation(s, create);
    StepKeepsValid(s, create);
    RunKeepsTerms(granted, between);
    StaleConfirm(granted, between, create.h, caller, passengers, now, OnHold);
  }

  // ----- when holds expire -----

  /** The ACTIVE holds whose time has come. */
  function Due(s: Inventory, now: Time): set<HoldId> {
    set h | h in s.holds && s.holds[h].status == HoldActive && s.holds[h].expiresAt <= now
  }

  /** A pass expires only holds whose time has come, every one of them if there are
      at most a hundred, and leaves every other hold as it is. */
  lemma PassExpiresExactly(s: Inventory, batch: seq<HoldRead>, now: Time, copyExpiry: bool)
    requires Valid(s) && OverdueBatch(s, batch, now)
    ensures var t := Sweep(s, batch, copyExpiry);
            && t.holds.Keys == s.holds.Keys
            && (forall h | h in s.holds ::
                  || t.holds[h] == s.holds[h]
                  || (&& s.holds[h].status == HoldActive && s.holds[h].expiresAt <= now
                      && t.holds[h] == s.holds[h].(status := HoldExpired, version := s.holds[h].version + 1)))
            && (|Due(s, now)| <= 100 ==>
                  forall h | h in s.holds && s.holds[h].status == HoldActive && s.holds[h].expiresAt <= now ::
                    t.holds[h].status == HoldExpired)
  {
    BatchIsCurrent(s, batch, now);
    SweepExpiresAtOnce(s, batch, copyExpiry);
    DistinctIds(batch);
    assert Due(s, now) == OverdueHolds(s, now);
    if |Due(s, now)| <= 100 { SubsetCardinality(Ids(batch), OverdueHolds(s, now)); }
  }

  /** A hold before its time outlives every pass and every worker, with its seats,
      rows and booking. */
  lemma UnexpiredHoldSurvives(s: Inventory, h: HoldId, batch: seq<HoldRead>, now: Time, copyExpiry: bool)
    requires Valid(s) && OverdueBatch(s, batch, now)
    requires h in s.holds && s.holds[h].status == HoldActive && now < s.holds[h].expiresAt
    ensures var t := Sweep(s, batch, copyExpiry);
            && h in t.holds && t.holds[h] == s.holds[h]
            && s.holds[h].booking in t.bookings && t.bookings[s.holds[h].booking] == s.bookings[s.holds[h].booking]
            && (forall x | x in s.holds[h].items ::
                  && x in t.seats && t.seats[x] == Held
                  && RowAt(s, h, x) in t.rows && t.rows[RowAt(s, h, x)] == RowHeld)
  {
    var t := Sweep(s, batch, copyExpiry);
    BatchIsCurrent(s, batch, now);
    BatchIsPossible(s, batch, now);
    SweepExpiresAtOnce(s, batch, copyExpiry);
    SweepKeepsValid(s, batch, copyExpiry);
    assert h !in OverdueHolds(s, now);
    forall x | x in s.holds[h].items
      ensures x in t.seats && t.seats[x] == Held && RowAt(s, h, x) in t.rows && t.rows[RowAt(s, h, x)] == RowHeld
    {
      assert Covers(t, h, x) && CellOk(t, h, x);
    }
    assert !BookingIn(s, Ids(batch), s.holds[h].booking);
  }

  /** A hold request first adds the seats the trip still lacks, all AVAILABLE, and
      leaves those it has. */
  lemma MissingSeatsAreFree(s: Inventory)
    requires Valid(s)
    ensures var t := WithAllSeats(s);
            && t == s.(seats := t.seats) && s.seats.Keys <= t.seats.Keys
            && forall x | x in t.seats :: t.seats[x] == if x in s.seats then s.seats[x] else Available
  {
    SeatLayout.EnsureStaysWithinCapacity(s.seats, s.capacity, Available);
  }

  // ----- payments -----

  /** A success confirms exactly a booking that was a draft, on hold, waiting for
      approval or for payment; its HELD rows are BOOKED and its ACTIVE hold CONFIRMED,
      and nothing else moves. */
  lemma PaymentSucceededExactly(s: Inventory, b: BookingId)
    ensures var t := PaymentSucceeded(s, b);
            && t == s.(bookings := t.bookings, rows := t.rows, holds := t.holds)
            && t.bookings.Keys == s.bookings.Keys && t.rows.Keys == s.rows.Keys && t.holds.Keys == s.holds.Keys
            && (forall c | c in s.bookings ::
                  t.bookings[c] ==
                  if c == b && s.bookings[c].status in {Draft, OnHold, PendingConfirmation, PaymentPending}
                  then s.bookings[c].(status := Confirmed) else s.bookings[c])
            && (forall k | k in s.rows ::
                  t.rows[k] == if k.booking == b && s.rows[k] == RowHeld then RowBooked else s.rows[k])
            && (forall h | h in s.holds ::
                  t.holds[h] == if s.holds[h].booking == b && s.holds[h].status == HoldActive
                                then s.holds[h].(status := HoldConfirmed) else s.holds[h])
  {
  }

  /** Creating a payment is possible exactly for a booking that is not closed, and
      makes it wait for an online payment or confirms it for cash. */
  lemma PaymentStartedExactly(s: Inventory, b: BookingId, online: bool)
    ensures PaymentStarted(s, b, online).Committed? <==>
              && b in s.bookings
              && s.bookings[b].status !in {CancelledByClient, CancelledByDriver, CancelledByAdmin, Expired}
    ensures PaymentStarted(s, b, online).Committed? ==>
              PaymentStarted(s, b, online).state ==
              s.(bookings := s.bookings[b := s.bookings[b].(status := if online then PaymentPending else Confirmed)])
  {
  }

  /** A driver approves exactly bookings waiting for it, and confirmed ones again. */
  lemma ApproveExactly(s: Inventory, b: BookingId)
    ensures Approve(s, b).Committed? <==> b in s.bookings && s.bookings[b].status in {PendingConfirmation, Confirmed}
    ensures Approve(s, b).Committed? ==>
              Approve(s, b).state == s.(bookings := s.bookings[b := s.bookings[b].(status := Confirmed)])
  {
    if b in s.bookings && s.bookings[b].status == Confirmed { assert s.bookings[b := s.bookings[b]] == s.bookings; }
  }

  /** The expiry of a payment ends its booking exactly if that waits for the payment,
      and the hold it found, which frees the seats of that hold and no others. */
  lemma PaymentExpiredExactly(s: Inventory, b: BookingId, first: Option<HoldId>)
    requires Valid(s) && Enabled(s, PaymentExpiredStep(b, first))
    ensures var t := PaymentExpired(s, b, first);
            && t.bookings.Keys == s.bookings.Keys
            && (forall c | c in s.bookings ::
                  t.bookings[c] == if c == b && s.bookings[c].status == PaymentPending
                                   then s.bookings[c].(status := Expired) else s.bookings[c])
            && t.holds == (if first.Some?
                           then s.holds[first.value := s.holds[first.value].(status := HoldExpired,
                                                                            version := s.holds[first.value].version + 1)]
                           else s.holds)
            && (forall x | x in s.seats ::
                  t.seats[x] == if first.Some? && x in s.holds[first.value].items then Available else s.seats[x])
  {
    if first.Some? { FirstHoldReleased(s, first.value); }
    assert PaymentExpired(s, b, first).bookings == ExpirePendingBooking(s.bookings, b);
  }

  lemma FirstHoldReleased(s: Inventory, h: HoldId)
    requires Valid(s) && h in s.holds && s.holds[h].status == HoldActive
    ensures var t := ReleaseFirst(s, Some(h));
            && t.holds == s.holds[h := s.holds[h].(status := HoldExpired, version := s.holds[h].version + 1)]
            && t.bookings == s.bookings
            && (forall x | x in s.seats :: t.seats[x] == if x in s.holds[h].items then Available else s.seats[x])
  {
    HeldForIt(s, h);
    ReleasedTables(s, h);
  }

  lemma HeldForIt(s: Inventory, h: HoldId)
    requires Valid(s) && h in s.holds && s.holds[h].status == HoldActive
    ensures forall x | x in s.holds[h].items :: x in s.seats && s.seats[x] == Held
  {
    forall x | x in s.holds[h].items ensures x in s.seats && s.seats[x] == Held {
      assert Covers(s, h, x) && CellOk(s, h, x);
    }
  }

  lemma ReleasedTables(s: Inventory, h: HoldId)
    requires h in s.holds && s.holds[h].status == HoldActive
    requires forall x | x in s.holds[h].items :: x in s.seats && s.seats[x] == Held
    ensures var t := ReleaseFirst(s, Some(h));
            && t.holds == s.holds[h := s.holds[h].(status := HoldExpired, version := s.holds[h].version + 1)]
            && t.bookings == s.bookings
            && (forall x | x in s.seats :: t.seats[x] == if x in s.holds[h].items then Available else s.seats[x])
  {
  }
}
