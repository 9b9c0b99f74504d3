/** No seat is sold twice: the inductive invariant of the seat inventory and its
    preservation by every transaction, stale reads included. */
module SeatSafety {
  import opened Tables
  import opened SeatInventory
  import SeatLayout

  function RowAt(s: Inventory, h: HoldId, x: SeatKey): RowKey
    requires h in s.holds
  {
    RowKey(s.holds[h].booking, x)
  }

  /** Hold h includes seat x. */
  predicate Covers(s: Inventory, h: HoldId, x: SeatKey) {
    h in s.holds && x in s.holds[h].items
  }

  ghost predicate HoldsOk(s: Inventory) {
    && (forall h | h in s.holds ::
          && s.holds[h].items != {}
          && s.holds[h].booking in s.bookings
          && s.bookings[s.holds[h].booking].expiresAt == s.holds[h].expiresAt)
    && (forall h, g | h in s.holds && g in s.holds && s.holds[h].booking == s.holds[g].booking :: h == g)
  }

  ghost predicate RowsOwned(s: Inventory) {
    forall k | k in s.rows :: exists h :: Covers(s, h, k.seat) && RowAt(s, h, k.seat) == k
  }

  /** The parts of the state that only hold creation changes. */
  ghost predicate Shape(s: Inventory) {
    && 1 <= s.capacity
    && s.seats.Keys <= SeatLayout.Keys(s.capacity)
    && |s.seats| <= s.capacity
    && HoldsOk(s)
    && (forall h, x | Covers(s, h, x) :: x in s.seats && RowAt(s, h, x) in s.rows)
    && RowsOwned(s)
  }

  /** How one seat of one hold must look in the three tables. */
  ghost predicate CellOk(s: Inventory, h: HoldId, x: SeatKey)
    requires h in s.holds && x in s.seats && RowAt(s, h, x) in s.rows
  {
    var row := s.rows[RowAt(s, h, x)];
    && (s.holds[h].status == HoldActive ==> row == RowHeld && s.seats[x] == Held)
    && (row == RowHeld ==> s.holds[h].status == HoldActive)
    && (s.holds[h].status == HoldExpired || s.holds[h].status == HoldReleased ==> row == RowReleased)
    && (s.holds[h].status == HoldCancelled ==> row == RowCancelled)
    && (Live(row) ==> Taken(s.seats[x]))
    && row != RowOccupied
  }

  ghost predicate LiveAt(s: Inventory, h: HoldId, x: SeatKey) {
    Covers(s, h, x) && RowAt(s, h, x) in s.rows && Live(s.rows[RowAt(s, h, x)])
  }

  ghost predicate CellsOk(s: Inventory)
    requires Shape(s)
  {
    forall h, x | Covers(s, h, x) :: CellOk(s, h, x)
  }

  ghost predicate OneOwnerAtMost(s: Inventory) {
    forall h, g, x | LiveAt(s, h, x) && LiveAt(s, g, x) :: h == g
  }

  ghost predicate SeatOk(s: Inventory, x: SeatKey)
    requires x in s.seats
  {
    s.seats[x] != Occupied && (Taken(s.seats[x]) ==> exists h :: LiveAt(s, h, x))
  }

  ghost predicate Valid(s: Inventory) {
    && Shape(s)
    && CellsOk(s)
    && OneOwnerAtMost(s)
    && (forall x | x in s.seats :: SeatOk(s, x))
  }

  // ----- what a reader should take away -----

  /** In a valid inventory a seat has at most one live booking row, whatever the
      bookings; it has none exactly when it is not taken; a live row always names
      a seat of the trip; and a HELD row belongs to an ACTIVE hold of its booking. */
  lemma SoldOnce(s: Inventory)
    requires Valid(s)
    ensures forall k, l | k in s.rows && l in s.rows && k.seat == l.seat && Live(s.rows[k]) && Live(s.rows[l]) :: k == l
    ensures forall k | k in s.rows && Live(s.rows[k]) :: k.seat in s.seats && Taken(s.seats[k.seat])
    ensures forall x | x in s.seats && Taken(s.seats[x]) :: exists k :: k in s.rows && k.seat == x && Live(s.rows[k])
    ensures forall k | k in s.rows && s.rows[k] == RowHeld :: exists h :: IsActiveHoldOf(s, h, k.booking) && Covers(s, h, k.seat)
  {
    forall k, l | k in s.rows && l in s.rows && k.seat == l.seat && Live(s.rows[k]) && Live(s.rows[l])
      ensures k == l
    {
      var h :| Covers(s, h, k.seat) && RowAt(s, h, k.seat) == k;
      var g :| Covers(s, g, l.seat) && RowAt(s, g, l.seat) == l;
      assert LiveAt(s, h, k.seat) && LiveAt(s, g, k.seat);
    }
    forall k | k in s.rows && Live(s.rows[k]) ensures k.seat in s.seats && Taken(s.seats[k.seat]) {
      var h :| Covers(s, h, k.seat) && RowAt(s, h, k.seat) == k;
      assert CellOk(s, h, k.seat);
    }
    forall x | x in s.seats && Taken(s.seats[x])
      ensures exists k :: k in s.rows && k.seat == x && Live(s.rows[k])
    {
      assert SeatOk(s, x);
      var h :| LiveAt(s, h, x);
      assert RowAt(s, h, x).seat == x;
    }
    forall k | k in s.rows && s.rows[k] == RowHeld
      ensures exists h :: IsActiveHoldOf(s, h, k.booking) && Covers(s, h, k.seat)
    {
      var h :| Covers(s, h, k.seat) && RowAt(s, h, k.seat) == k;
      assert CellOk(s, h, k.seat);
    }
  }

  // ----- what hold creation can come to -----

  lemma CreateOutcomes(s: Inventory, step: Step)
    requires step.CreateHoldStep?
    ensures var t := Sweep(s, step.sweep, true);
            var taken := TakeSeats(t, step.h, step.b, step.request, step.expiresAt);
            Apply(s, step) == s || Apply(s, step) == t || (taken.Committed? && Apply(s, step) == taken.state)
  {
  }

  // ----- transactions that leave the shape alone -----

  /** Holds are never deleted and keep what a reader relied on. */
  ghost predicate KeepsHolds(s: Inventory, t: Inventory) {
    forall h | h in s.holds :: h in t.holds && SameRecord(s.holds[h], t.holds[h])
  }

  ghost predicate SameShape(s: Inventory, t: Inventory) {
    && t.capacity == s.capacity
    && t.seats.Keys == s.seats.Keys
    && t.rows.Keys == s.rows.Keys
    && t.holds.Keys == s.holds.Keys
    && t.bookings.Keys == s.bookings.Keys
    && KeepsHolds(s, t)
    && (forall b | b in s.bookings :: t.bookings[b].expiresAt == s.bookings[b].expiresAt)
  }

  lemma SameShapeKeepsShape(s: Inventory, t: Inventory)
    requires Shape(s) && SameShape(s, t)
    ensures Shape(t)
  {
    SameKeysSameSize(s.seats, t.seats);
    forall h, x | Covers(t, h, x) ensures x in t.seats && RowAt(t, h, x) in t.rows {
      assert Covers(s, h, x);
    }
    forall k | k in t.rows ensures exists h :: Covers(t, h, k.seat) && RowAt(t, h, k.seat) == k {
      var h :| Covers(s, h, k.seat) && RowAt(s, h, k.seat) == k;
      assert Covers(t, h, k.seat);
    }
  }

  /** Outside hold h, its rows and its seats nothing changed. */
  ghost predicate Frame(s: Inventory, t: Inventory, h: HoldId) {
    && SameShape(s, t)
    && h in s.holds
    && (forall g | g in s.holds && g != h :: t.holds[g] == s.holds[g])
    && (forall k | k in s.rows && k.booking != s.holds[h].booking :: t.rows[k] == s.rows[k])
    && (forall x | x in s.seats && x !in s.holds[h].items :: t.seats[x] == s.seats[x])
  }

  /** A seat of hold h is only touched through a live row, and it is left taken
      only with a live row. */
  ghost predicate CellChange(s: Inventory, t: Inventory, h: HoldId, x: SeatKey)
    requires h in s.holds && x in s.seats && RowAt(s, h, x) in s.rows
    requires h in t.holds && x in t.seats && RowAt(t, h, x) in t.rows
  {
    var before, after := s.rows[RowAt(s, h, x)], t.rows[RowAt(t, h, x)];
    && CellOk(t, h, x)
    && (if Live(before) then (Taken(t.seats[x]) ==> Live(after)) && t.seats[x] != Occupied
        else t.seats[x] == s.seats[x] && !Live(after))
  }

  lemma OneHoldCell(s: Inventory, t: Inventory, h: HoldId, g: HoldId, x: SeatKey)
    requires Valid(s) && Shape(t) && Frame(s, t, h) && Covers(t, g, x)
    requires Covers(s, h, x) ==> CellChange(s, t, h, x)
    ensures Covers(s, g, x) && CellOk(t, g, x)
    ensures LiveAt(t, g, x) ==> LiveAt(s, g, x)
    ensures g != h ==> LiveAt(t, g, x) == LiveAt(s, g, x)
  {
    assert Covers(s, g, x) && CellOk(s, g, x);
    if g != h && LiveAt(s, g, x) { assert !LiveAt(s, h, x); }
  }

  lemma OneHoldSeat(s: Inventory, t: Inventory, h: HoldId, x: SeatKey)
    requires Valid(s) && Shape(t) && Frame(s, t, h) && x in t.seats
    requires Covers(s, h, x) ==> CellChange(s, t, h, x)
    ensures SeatOk(t, x)
  {
    assert SeatOk(s, x);
    if LiveAt(s, h, x) {
      assert Covers(t, h, x) && (Taken(t.seats[x]) ==> LiveAt(t, h, x));
    } else {
      assert t.seats[x] == s.seats[x];
      if Taken(t.seats[x]) {
        var g :| LiveAt(s, g, x);
        OneHoldCell(s, t, h, g, x);
      }
    }
  }

  /** A change confined to one hold keeps the invariant. */
  lemma OneHoldChange(s: Inventory, t: Inventory, h: HoldId)
    requires Valid(s) && Frame(s, t, h)
    requires forall x | Covers(s, h, x) :: CellChange(s, t, h, x)
    ensures Valid(t)
  {
    SameShapeKeepsShape(s, t);
    forall g, x | Covers(t, g, x) ensures CellOk(t, g, x) {
      OneHoldCell(s, t, h, g, x);
    }
    forall g, f, x | LiveAt(t, g, x) && LiveAt(t, f, x) ensures g == f {
      OneHoldCell(s, t, h, g, x);
      OneHoldCell(s, t, h, f, x);
    }
    forall x | x in t.seats ensures SeatOk(t, x) {
      OneHoldSeat(s, t, h, x);
    }
  }

  lemma AllCounted(ids: set<SeatKey>, matching: set<SeatKey>)
    requires matching <= ids && |matching| == |ids|
    ensures matching == ids
  {
    SubsetCardinality(matching, ids);
  }

  // ----- the invariant, transaction by transaction -----

  lemma ReleaseHoldFrame(s: Inventory, read: HoldRead, status: HoldStatus)
    requires PossibleRead(s, read.id, read.hold) && Claims(s, read)
    ensures Frame(s, ReleaseHold(s, read, status), read.id)
  {
  }

  lemma ReleaseHoldCell(s: Inventory, read: HoldRead, status: HoldStatus, x: SeatKey)
    requires PossibleRead(s, read.id, read.hold) && Claims(s, read)
    requires status == HoldExpired || status == HoldReleased
    requires Covers(s, read.id, x) && x in s.seats && RowAt(s, read.id, x) in s.rows && CellOk(s, read.id, x)
    ensures CellChange(s, ReleaseHold(s, read, status), read.id, x)
  {
  }

  lemma ReleaseHoldKeepsValid(s: Inventory, read: HoldRead, status: HoldStatus)
    requires Valid(s) && PossibleRead(s, read.id, read.hold)
    requires status == HoldExpired || status == HoldReleased
    ensures Valid(ReleaseHold(s, read, status)) && SameShape(s, ReleaseHold(s, read, status))
  {
    if Claims(s, read) {
      ReleaseHoldFrame(s, read, status);
      forall x | Covers(s, read.id, x) ensures CellChange(s, ReleaseHold(s, read, status), read.id, x) {
        ReleaseHoldCell(s, read, status, x);
      }
      OneHoldChange(s, ReleaseHold(s, read, status), read.id);
    }
  }

  lemma ValidUnderBookingUpdate(s: Inventory, t: Inventory)
    requires Valid(s)
    requires t.capacity == s.capacity && t.seats == s.seats && t.rows == s.rows && t.holds == s.holds
    requires t.bookings.Keys == s.bookings.Keys
    requires forall b | b in s.bookings :: t.bookings[b].expiresAt == s.bookings[b].expiresAt
    ensures Valid(t)
  {
    SameShapeKeepsShape(s, t);
    forall h, x | Covers(t, h, x) ensures CellOk(t, h, x) { assert Covers(s, h, x); assert CellOk(s, h, x); }
    forall h, g, x | LiveAt(t, h, x) && LiveAt(t, g, x) ensures h == g {
      assert LiveAt(s, h, x) && LiveAt(s, g, x);
    }
    forall x | x in t.seats ensures SeatOk(t, x) {
      if Taken(t.seats[x]) {
        assert SeatOk(s, x);
        var h :| LiveAt(s, h, x);
        assert LiveAt(t, h, x);
      }
    }
  }

  lemma ExpireHoldMovesBooking(s: Inventory, read: HoldRead, copyExpiry: bool)
    requires Claims(s, read) && read.hold.booking in s.bookings
    requires s.bookings[read.hold.booking].expiresAt == read.hold.expiresAt
    ensures var t, u := ReleaseHold(s, read, HoldExpired), ExpireHold(s, read, copyExpiry);
            && u.capacity == t.capacity && u.seats == t.seats && u.rows == t.rows && u.holds == t.holds
            && u.availableSeatCount == t.availableSeatCount
            && u.bookings == MoveBookings(s.bookings, {read.hold.booking}, Expired)
  {
    var moved := MoveBookings(s.bookings, {read.hold.booking}, Expired);
    assert moved[read.hold.booking := moved[read.hold.booking].(expiresAt := read.hold.expiresAt)] == moved;
  }

  lemma ExpireHoldKeepsValid(s: Inventory, read: HoldRead, copyExpiry: bool)
    requires Valid(s) && PossibleRead(s, read.id, read.hold)
    ensures Valid(ExpireHold(s, read, copyExpiry)) && SameShape(s, ExpireHold(s, read, copyExpiry))
  {
    ReleaseHoldKeepsValid(s, read, HoldExpired);
    if Claims(s, read) {
      ExpireHoldMovesBooking(s, read, copyExpiry);
      ValidUnderBookingUpdate(ReleaseHold(s, read, HoldExpired), ExpireHold(s, read, copyExpiry));
    }
  }

  lemma {:induction false} SweepKeepsValid(s: Inventory, batch: seq<HoldRead>, copyExpiry: bool)
    requires Valid(s)
    requires forall i | 0 <= i < |batch| :: PossibleRead(s, batch[i].id, batch[i].hold)
    ensures Valid(Sweep(s, batch, copyExpiry)) && SameShape(s, Sweep(s, batch, copyExpiry))
    decreases |batch|
  {
    if batch != [] {
      ExpireHoldKeepsValid(s, batch[0], copyExpiry);
      var t := ExpireHold(s, batch[0], copyExpiry);
      forall i | 0 <= i < |batch[1..]| ensures PossibleRead(t, batch[1..][i].id, batch[1..][i].hold) {
        assert PossibleRead(s, batch[i + 1].id, batch[i + 1].hold);
      }
      SweepKeepsValid(t, batch[1..], copyExpiry);
    }
  }

  /** The guarded writes of a confirm own what they write: if both row counts
      come out right, the hold is still ACTIVE in the current state and every
      seat of it is HELD by its own rows, however old the record that was read. */
  lemma CountsProveOwnership(s: Inventory, h: HoldId, read: Hold)
    requires Valid(s) && PossibleRead(s, h, read)
    requires CountRows(s.rows, read.booking, read.items, RowHeld) == |read.items|
    ensures s.holds[h].status == HoldActive
    ensures forall x | x in read.items :: LiveAt(s, h, x) && s.seats[x] == Held && s.rows[RowAt(s, h, x)] == RowHeld
    ensures CountSeats(s.seats, read.items, Held) == |read.items|
  {
    var matching := set x | x in read.items && RowKey(read.booking, x) in s.rows && s.rows[RowKey(read.booking, x)] == RowHeld;
    AllCounted(read.items, matching);
    var y :| y in read.items;
    assert y in matching && Covers(s, h, y) && CellOk(s, h, y);
    forall x | x in read.items
      ensures LiveAt(s, h, x) && s.seats[x] == Held && s.rows[RowAt(s, h, x)] == RowHeld
    {
      assert x in matching && Covers(s, h, x) && CellOk(s, h, x);
    }
    assert (set x | x in read.items && x in s.seats && s.seats[x] == Held) == read.items;
  }

  lemma BookHoldFrame(s: Inventory, h: HoldId, read: Hold)
    requires PossibleRead(s, h, read)
    ensures Frame(s, BookHold(s, h, read), h)
  {
  }

  lemma BookHoldCell(s: Inventory, h: HoldId, read: Hold, x: SeatKey)
    requires PossibleRead(s, h, read)
    requires Covers(s, h, x) && x in s.seats && RowAt(s, h, x) in s.rows
    requires s.seats[x] == Held && s.rows[RowAt(s, h, x)] == RowHeld
    ensures CellChange(s, BookHold(s, h, read), h, x)
  {
  }

  lemma BookHoldKeepsValid(s: Inventory, h: HoldId, read: Hold)
    requires Valid(s) && PossibleRead(s, h, read)
    requires CountRows(s.rows, read.booking, read.items, RowHeld) == |read.items|
    ensures Valid(BookHold(s, h, read)) && SameShape(s, BookHold(s, h, read))
  {
    CountsProveOwnership(s, h, read);
    BookHoldFrame(s, h, read);
    forall x | Covers(s, h, x) ensures CellChange(s, BookHold(s, h, read), h, x) {
      BookHoldCell(s, h, read, x);
    }
    OneHoldChange(s, BookHold(s, h, read), h);
  }

  lemma NoRowsWithoutHold(s: Inventory, b: BookingId)
    requires Shape(s) && forall h | h in s.holds :: s.holds[h].booking != b
    ensures forall k | k in s.rows :: k.booking != b
  {
    forall k | k in s.rows ensures k.booking != b {
      var h :| Covers(s, h, k.seat) && RowAt(s, h, k.seat) == k;
    }
  }

  lemma LiveSeatsAreOwned(s: Inventory, h: HoldId)
    requires Shape(s) && h in s.holds
    ensures forall x :: x in LiveSeats(s, s.holds[h].booking) <==> LiveAt(s, h, x)
  {
    var b := s.holds[h].booking;
    forall x ensures x in LiveSeats(s, b) <==> LiveAt(s, h, x) {
      if x in LiveSeats(s, b) {
        var k :| k in s.rows && k.booking == b && Live(s.rows[k]) && k.seat == x;
        var g :| Covers(s, g, k.seat) && RowAt(s, g, k.seat) == k;
        assert g == h;
      }
      if LiveAt(s, h, x) { assert RowAt(s, h, x).seat == x; }
    }
  }

  lemma CancelFrame(s: Inventory, h: HoldId, user: UserId, role: Role)
    requires h in s.holds && LiveSeats(s, s.holds[h].booking) <= s.holds[h].items
    requires forall g | g in s.holds && s.holds[g].booking == s.holds[h].booking :: g == h
    ensures var r := CancelBooking(s, s.holds[h].booking, user, role); r.Committed? ==> Frame(s, r.state, h)
  {
  }

  lemma CancelCell(s: Inventory, h: HoldId, user: UserId, role: Role, x: SeatKey)
    requires Covers(s, h, x) && x in s.seats && RowAt(s, h, x) in s.rows && CellOk(s, h, x)
    requires x in LiveSeats(s, s.holds[h].booking) <==> LiveAt(s, h, x)
    requires var b := s.holds[h].booking; b in s.bookings && !ClosedForCancel(s.bookings[b].status)
    ensures var r := CancelBooking(s, s.holds[h].booking, user, role); r.Committed? ==> CellChange(s, r.state, h, x)
  {
  }

  lemma CancelKeepsValid(s: Inventory, b: BookingId, user: UserId, role: Role)
    requires Valid(s)
    ensures var r := CancelBooking(s, b, user, role);
            r.Committed? ==> Valid(r.state) && SameShape(s, r.state)
  {
    var r := CancelBooking(s, b, user, role);
    if r.Committed? && !ClosedForCancel(s.bookings[b].status) {
      if h :| h in s.holds && s.holds[h].booking == b {
        LiveSeatsAreOwned(s, h);
        CancelFrame(s, h, user, role);
        forall x | Covers(s, h, x) ensures CellChange(s, r.state, h, x) {
          CancelCell(s, h, user, role, x);
        }
        OneHoldChange(s, r.state, h);
      } else {
        NoRowsWithoutHold(s, b);
        CancelWithoutHold(s, b, user, role);
        ValidUnderBookingUpdate(s, r.state);
      }
    }
  }

  lemma CancelWithoutHold(s: Inventory, b: BookingId, user: UserId, role: Role)
    requires forall h | h in s.holds :: s.holds[h].booking != b
    requires forall k | k in s.rows :: k.booking != b
    ensures var r := CancelBooking(s, b, user, role);
            r.Committed? ==> r.state.seats == s.seats && r.state.rows == s.rows && r.state.holds == s.holds
  {
  }

  lemma PaymentSucceededFrame(s: Inventory, h: HoldId)
    requires h in s.holds
    requires forall g | g in s.holds && s.holds[g].booking == s.holds[h].booking :: g == h
    ensures Frame(s, PaymentSucceeded(s, s.holds[h].booking), h)
  {
  }

  lemma PaymentSucceededCell(s: Inventory, h: HoldId, x: SeatKey)
    requires Covers(s, h, x) && x in s.seats && RowAt(s, h, x) in s.rows && CellOk(s, h, x)
    requires s.seats[x] != Occupied
    ensures CellChange(s, PaymentSucceeded(s, s.holds[h].booking), h, x)
  {
  }

  lemma PaymentWithoutHold(s: Inventory, b: BookingId)
    requires forall h | h in s.holds :: s.holds[h].booking != b
    requires forall k | k in s.rows :: k.booking != b
    ensures PaymentSucceeded(s, b).rows == s.rows && PaymentSucceeded(s, b).holds == s.holds
  {
  }

  lemma PaymentSucceededKeepsValid(s: Inventory, b: BookingId)
    requires Valid(s)
    ensures Valid(PaymentSucceeded(s, b)) && SameShape(s, PaymentSucceeded(s, b))
  {
    if h :| h in s.holds && s.holds[h].booking == b {
      PaymentSucceededFrame(s, h);
      forall x | Covers(s, h, x) ensures CellChange(s, PaymentSucceeded(s, b), h, x) {
        PaymentSucceededCell(s, h, x);
      }
      OneHoldChange(s, PaymentSucceeded(s, b), h);
    } else {
      NoRowsWithoutHold(s, b);
      PaymentWithoutHold(s, b);
      ValidUnderBookingUpdate(s, PaymentSucceeded(s, b));
    }
  }

  lemma ReleaseFirstKeepsValid(s: Inventory, first: Option<HoldId>)
    requires Valid(s)
    ensures Valid(ReleaseFirst(s, first)) && SameShape(s, ReleaseFirst(s, first))
  {
    if first.Some? && first.value in s.holds {
      ReleaseHoldKeepsValid(s, HoldRead(first.value, s.holds[first.value]), HoldExpired);
    }
  }

  lemma PaymentExpiredKeepsValid(s: Inventory, b: BookingId, first: Option<HoldId>)
    requires Valid(s)
    ensures Valid(PaymentExpired(s, b, first)) && SameShape(s, PaymentExpired(s, b, first))
  {
    ReleaseFirstKeepsValid(s, first);
    var t := ReleaseFirst(s, first);
    assert ExpirePendingBooking(t.bookings, b).Keys == t.bookings.Keys;
    ValidUnderBookingUpdate(t, PaymentExpired(s, b, first));
  }

  lemma BookingStatusKeepsValid(s: Inventory, b: BookingId, status: BookingStatus)
    requires Valid(s)
    ensures Valid(s.(bookings := MoveBookings(s.bookings, {b}, status)))
  {
    ValidUnderBookingUpdate(s, s.(bookings := MoveBookings(s.bookings, {b}, status)));
  }

  /** More free seats do no harm. */
  lemma MoreSeatsKeepValid(s: Inventory, t: Inventory)
    requires Valid(s) && t == s.(seats := t.seats)
    requires s.seats.Keys <= t.seats.Keys <= SeatLayout.Keys(s.capacity) && |t.seats| <= s.capacity
    requires forall x | x in t.seats :: t.seats[x] == if x in s.seats then s.seats[x] else Available
    ensures Valid(t)
  {
    forall h, x
      ensures Covers(t, h, x) == Covers(s, h, x)
      ensures LiveAt(t, h, x) == LiveAt(s, h, x)
    {
    }
    forall h, x | Covers(t, h, x) ensures CellOk(t, h, x) {
      assert CellOk(s, h, x);
    }
    forall k | k in t.rows ensures exists h :: Covers(t, h, k.seat) && RowAt(t, h, k.seat) == k {
      var h :| Covers(s, h, k.seat) && RowAt(s, h, k.seat) == k;
      assert Covers(t, h, k.seat);
    }
    forall x | x in t.seats ensures SeatOk(t, x) {
      if Taken(t.seats[x]) {
        assert SeatOk(s, x);
        var h :| LiveAt(s, h, x);
        assert LiveAt(t, h, x);
      }
    }
  }

  /** Hold creation adds seats of the layout that are still missing. */
  lemma EnsureSeatsKeepsValid(s: Inventory)
    requires Valid(s)
    ensures Valid(WithAllSeats(s)) && WithAllSeats(s).seats != map[]
  {
    SeatLayout.EnsureStaysWithinCapacity(s.seats, s.capacity, Available);
    MoreSeatsKeepValid(s, WithAllSeats(s));
  }

  // ----- hold creation -----

  /** What hold creation knows about a new hold: new ids, some seats of the trip. */
  predicate NewHold(s: Inventory, h: HoldId, b: BookingId, items: set<SeatKey>) {
    h !in s.holds && b !in s.bookings && items != {} && items <= s.seats.Keys
  }

  lemma RowsHaveBookings(s: Inventory)
    requires Shape(s)
    ensures forall k | k in s.rows :: k.booking in s.bookings
  {
    forall k | k in s.rows ensures k.booking in s.bookings {
      var g :| Covers(s, g, k.seat) && RowAt(s, g, k.seat) == k;
    }
  }

  lemma PlaceHoldCells(s: Inventory, h: HoldId, b: BookingId, request: HoldRequest, items: set<SeatKey>, expiresAt: Time,
                       g: HoldId, x: SeatKey)
    requires NewHold(s, h, b, items) && forall k | k in s.rows :: k.booking in s.bookings
    requires Covers(s, g, x) ==> RowAt(s, g, x) in s.rows
    ensures var t := PlaceHold(s, h, b, request, items, expiresAt);
            && (Covers(t, g, x) <==> Covers(s, g, x) || (g == h && x in items))
            && (Covers(t, g, x) ==> RowAt(t, g, x) in t.rows)
            && (LiveAt(t, g, x) <==> LiveAt(s, g, x) || (g == h && x in items))
            && (Covers(s, g, x) ==> RowAt(t, g, x) == RowAt(s, g, x) && t.rows[RowAt(t, g, x)] == s.rows[RowAt(s, g, x)])
  {
  }

  lemma PlaceHoldRowOwner(s: Inventory, h: HoldId, b: BookingId, request: HoldRequest, items: set<SeatKey>,
                          expiresAt: Time, k: RowKey)
    requires forall g, x | Covers(s, g, x) :: g != h
    requires k in s.rows ==> exists g :: Covers(s, g, k.seat) && RowAt(s, g, k.seat) == k
    requires k in PlaceHold(s, h, b, request, items, expiresAt).rows
    ensures var t := PlaceHold(s, h, b, request, items, expiresAt);
            exists g :: Covers(t, g, k.seat) && RowAt(t, g, k.seat) == k
  {
    var t := PlaceHold(s, h, b, request, items, expiresAt);
    if k in s.rows {
      var g :| Covers(s, g, k.seat) && RowAt(s, g, k.seat) == k;
      assert Covers(t, g, k.seat);
    } else {
      assert Covers(t, h, k.seat);
    }
  }

  lemma PlaceHoldHolds(s: Inventory, h: HoldId, b: BookingId, request: HoldRequest, items: set<SeatKey>, expiresAt: Time)
    requires HoldsOk(s) && NewHold(s, h, b, items)
    ensures HoldsOk(PlaceHold(s, h, b, request, items, expiresAt))
  {
  }

  lemma PlaceHoldShape(s: Inventory, h: HoldId, b: BookingId, request: HoldRequest, items: set<SeatKey>, expiresAt: Time)
    requires Shape(s) && NewHold(s, h, b, items)
    ensures Shape(PlaceHold(s, h, b, request, items, expiresAt))
  {
    var t := PlaceHold(s, h, b, request, items, expiresAt);
    RowsHaveBookings(s);
    SameKeysSameSize(s.seats, t.seats);
    PlaceHoldHolds(s, h, b, request, items, expiresAt);
    forall g, x | Covers(t, g, x) ensures x in t.seats && RowAt(t, g, x) in t.rows {
      PlaceHoldCells(s, h, b, request, items, expiresAt, g, x);
    }
    forall k | k in t.rows ensures exists g :: Covers(t, g, k.seat) && RowAt(t, g, k.seat) == k {
      PlaceHoldRowOwner(s, h, b, request, items, expiresAt, k);
    }
  }

  lemma PlaceHoldCell(s: Inventory, h: HoldId, b: BookingId, request: HoldRequest, items: set<SeatKey>, expiresAt: Time,
                      g: HoldId, x: SeatKey)
    requires Shape(s) && NewHold(s, h, b, items) && forall k | k in s.rows :: k.booking in s.bookings
    requires forall y | y in items :: s.seats[y] == Available
    requires Covers(s, g, x) ==> CellOk(s, g, x)
    ensures var t := PlaceHold(s, h, b, request, items, expiresAt);
            && (LiveAt(t, g, x) ==> LiveAt(s, g, x) || (g == h && x in items))
            && (LiveAt(s, g, x) ==> LiveAt(t, g, x) && x !in items)
            && (Covers(t, g, x) ==> x in t.seats && RowAt(t, g, x) in t.rows && CellOk(t, g, x))
  {
    PlaceHoldCells(s, h, b, request, items, expiresAt, g, x);
  }

  lemma PlaceHoldSeat(s: Inventory, h: HoldId, b: BookingId, request: HoldRequest, items: set<SeatKey>, expiresAt: Time,
                      x: SeatKey)
    requires Valid(s) && NewHold(s, h, b, items) && forall k | k in s.rows :: k.booking in s.bookings
    requires x in s.seats
    ensures SeatOk(PlaceHold(s, h, b, request, items, expiresAt), x)
  {
    assert SeatOk(s, x);
    if x in items {
      PlaceHoldCells(s, h, b, request, items, expiresAt, h, x);
      assert LiveAt(PlaceHold(s, h, b, request, items, expiresAt), h, x);
    } else if Taken(s.seats[x]) {
      var g :| LiveAt(s, g, x);
      PlaceHoldCells(s, h, b, request, items, expiresAt, g, x);
    }
  }

  lemma PlaceHoldOwners(s: Inventory, h: HoldId, b: BookingId, request: HoldRequest, items: set<SeatKey>, expiresAt: Time)
    requires Valid(s) && NewHold(s, h, b, items) && forall k | k in s.rows :: k.booking in s.bookings
    requires forall x | x in items :: s.seats[x] == Available
    ensures OneOwnerAtMost(PlaceHold(s, h, b, request, items, expiresAt))
  {
    var t := PlaceHold(s, h, b, request, items, expiresAt);
    forall g, f, x | LiveAt(t, g, x) && LiveAt(t, f, x) ensures g == f {
      PlaceHoldCell(s, h, b, request, items, expiresAt, g, x);
      PlaceHoldCell(s, h, b, request, items, expiresAt, f, x);
    }
  }

  lemma PlaceHoldKeepsValid(s: Inventory, h: HoldId, b: BookingId, request: HoldRequest, items: set<SeatKey>, expiresAt: Time)
    requires Valid(s) && NewHold(s, h, b, items)
    requires forall x | x in items :: s.seats[x] == Available
    ensures Valid(PlaceHold(s, h, b, request, items, expiresAt)) && KeepsHolds(s, PlaceHold(s, h, b, request, items, expiresAt))
  {
    var t := PlaceHold(s, h, b, request, items, expiresAt);
    PlaceHoldShape(s, h, b, request, items, expiresAt);
    RowsHaveBookings(s);
    forall g, x | Covers(t, g, x) ensures CellOk(t, g, x) {
      PlaceHoldCell(s, h, b, request, items, expiresAt, g, x);
    }
    PlaceHoldOwners(s, h, b, request, items, expiresAt);
    forall x | x in t.seats ensures SeatOk(t, x) {
      PlaceHoldSeat(s, h, b, request, items, expiresAt, x);
    }
  }

  /** The unchecked writes of hold creation are safe exactly when every seat is
      still AVAILABLE at the moment of the write. */
  lemma PlaceHoldIsSafeIffSeatsAreFree(s: Inventory, h: HoldId, b: BookingId, request: HoldRequest, items: set<SeatKey>,
                                       expiresAt: Time)
    requires Valid(s) && NewHold(s, h, b, items)
    ensures Valid(PlaceHold(s, h, b, request, items, expiresAt)) <==> forall x | x in items :: s.seats[x] == Available
  {
    var t := PlaceHold(s, h, b, request, items, expiresAt);
    if x :| x in items && s.seats[x] != Available {
      RowsHaveBookings(s);
      PlaceHoldCells(s, h, b, request, items, expiresAt, h, x);
      assert LiveAt(t, h, x);
      if Taken(s.seats[x]) {
        assert SeatOk(s, x);
        var g :| LiveAt(s, g, x);
        PlaceHoldCells(s, h, b, request, items, expiresAt, g, x);
        assert LiveAt(t, g, x) && g != h;
      } else {
        assert Covers(t, h, x) && !CellOk(t, h, x);
      }
    } else {
      PlaceHoldKeepsValid(s, h, b, request, items, expiresAt);
    }
  }

  lemma BatchIsPossible(s: Inventory, batch: seq<HoldRead>, now: Time)
    requires OverdueBatch(s, batch, now)
    ensures forall i | 0 <= i < |batch| :: PossibleRead(s, batch[i].id, batch[i].hold)
  {
    forall i | 0 <= i < |batch| ensures PossibleRead(s, batch[i].id, batch[i].hold) {
      assert Overdue(s, batch[i].id, now);
    }
  }

  lemma CountedSeatsAreFree(seats: map<SeatKey, SeatStatus>, keys: set<SeatKey>, status: SeatStatus)
    requires CountSeats(seats, keys, status) == |keys|
    ensures keys <= seats.Keys && forall x | x in keys :: seats[x] == status
  {
    var matching := set x | x in keys && x in seats && seats[x] == status;
    AllCounted(keys, matching);
    forall x | x in keys ensures x in seats && seats[x] == status {
      assert x in matching;
    }
  }

  lemma CreateHoldKeepsValid(s: Inventory, h: HoldId, b: BookingId, request: HoldRequest, expiresAt: Time,
                             found: HoldLookup, sweep: seq<HoldRead>, now: Time)
    requires Valid(s) && request.passengerCount >= 1 && OverdueBatch(s, sweep, now)
    ensures var r := CreateHold(s, h, b, request, expiresAt, found, sweep);
            r.Committed? ==> Valid(r.state) && KeepsHolds(s, r.state)
  {
    BatchIsPossible(s, sweep, now);
    SweepKeepsValid(s, sweep, true);
    if found == Bookable { TakeSeatsKeepsValid(Sweep(s, sweep, true), h, b, request, expiresAt); }
  }

  lemma TakeSeatsKeepsValid(s: Inventory, h: HoldId, b: BookingId, request: HoldRequest, expiresAt: Time)
    requires Valid(s) && request.passengerCount >= 1
    ensures var r := TakeSeats(s, h, b, request, expiresAt);
            r.Committed? ==> Valid(r.state) && KeepsHolds(s, r.state)
  {
    var t := WithAllSeats(s);
    EnsureSeatsKeepsValid(s);
    if TakeSeats(s, h, b, request, expiresAt).Committed? {
      CountedSeatsAreFree(t.seats, RequestedKeys(t, request), Available);
      PlaceHoldKeepsValid(t, h, b, request, RequestedKeys(t, request), expiresAt);
    }
  }

  lemma ConfirmOutcomes(s: Inventory, h: HoldId, client: UserId, passengers: nat, now: Time, read: Hold,
                        readBooking: BookingStatus)
    requires h in s.holds
    ensures var r := Confirm(s, h, client, passengers, now, read, readBooking);
            r.Committed? ==>
              if AlreadyConfirmed(read, readBooking) then r.state == s
              else CountsMatch(s, read) && r.state == BookHold(s, h, read)
  {
  }

  lemma ConfirmKeepsValid(s: Inventory, h: HoldId, client: UserId, passengers: nat, now: Time, read: Hold,
                          readBooking: BookingStatus)
    requires Valid(s) && PossibleRead(s, h, read)
    ensures var r := Confirm(s, h, client, passengers, now, read, readBooking);
            r.Committed? ==> Valid(r.state) && KeepsHolds(s, r.state)
  {
    ConfirmOutcomes(s, h, client, passengers, now, read, readBooking);
    var r := Confirm(s, h, client, passengers, now, read, readBooking);
    if r.Committed? {
      if AlreadyConfirmed(read, readBooking) {
        assert r.state == s;
      } else {
        BookHoldKeepsValid(s, h, read);
      }
    }
  }

  lemma ReleaseKeepsValid(s: Inventory, h: HoldId, client: UserId, read: Hold)
    requires Valid(s) && PossibleRead(s, h, read)
    ensures var r := Release(s, h, client, read);
            r.Committed? ==> Valid(r.state) && KeepsHolds(s, r.state)
  {
    ReleaseHoldKeepsValid(s, HoldRead(h, read), HoldReleased);
    BookingStatusKeepsValid(ReleaseHold(s, HoldRead(h, read), HoldReleased), read.booking, Expired);
  }

  // ----- every run -----

  lemma HoldStepKeepsValid(s: Inventory, step: Step)
    requires Valid(s) && Enabled(s, step)
    requires step.CreateHoldStep? || step.ConfirmStep? || step.ReleaseStep? || step.SweepStep? || step.WorkerExpireStep?
    ensures Valid(Apply(s, step)) && KeepsHolds(s, Apply(s, step))
  {
    match step
    case CreateHoldStep(h, b, request, expiresAt, found, sweep, now) =>
      CreateHoldKeepsValid(s, h, b, request, expiresAt, found, sweep, now);
    case ConfirmStep(h, client, passengers, now, read, readBooking) =>
      ConfirmKeepsValid(s, h, client, passengers, now, read, readBooking);
    case ReleaseStep(h, client, read) => ReleaseKeepsValid(s, h, client, read);
    case SweepStep(sweep, now) =>
      BatchIsPossible(s, sweep, now);
      SweepKeepsValid(s, sweep, true);
    case WorkerExpireStep(overdue, _) => ExpireHoldKeepsValid(s, overdue, false);
  }

  lemma StepKeepsValid(s: Inventory, step: Step)
    requires Valid(s) && Enabled(s, step)
    ensures Valid(Apply(s, step)) && KeepsHolds(s, Apply(s, step))
  {
    match step
    case CancelStep(b, user, role) => CancelKeepsValid(s, b, user, role);
    case PaymentSucceededStep(b) => PaymentSucceededKeepsValid(s, b);
    case PaymentExpiredStep(b, first) => PaymentExpiredKeepsValid(s, b, first);
    case PaymentStartedStep(b, online) =>
      BookingStatusKeepsValid(s, b, if online then PaymentPending else Confirmed);
    case ApproveStep(b) => BookingStatusKeepsValid(s, b, Confirmed);
    case _ => HoldStepKeepsValid(s, step);
  }

  lemma PublishedIsValid(capacity: nat)
    requires 1 <= capacity
    ensures Valid(Publish(capacity))
  {
    var none: map<SeatKey, SeatStatus> := map[];
    SeatLayout.EnsureStaysWithinCapacity(none, capacity, Available);
  }

  /** On every run from publication, in any order and with any stale reads, the
      inventory stays valid: SoldOnce holds in every state a run passes. */
  lemma {:induction false} RunKeepsValid(s: Inventory, steps: seq<Step>)
    requires Valid(s) && Run(s, steps)
    ensures Valid(Exec(s, steps))
    ensures forall h | h in s.holds :: PossibleRead(Exec(s, steps), h, s.holds[h])
    decreases |steps|
  {
    if steps != [] {
      StepKeepsValid(s, steps[0]);
      RunKeepsValid(Apply(s, steps[0]), steps[1..]);
    }
  }
}
