/** Expiry of overdue holds: a sweep is one simultaneous update, so the order of
    a batch and the choice between API and worker do not matter, and repeated
    passes run out of overdue holds. */
module SeatExpiry {
  import opened Tables
  import opened SeatInventory
  import opened SeatSafety

  function Ids(batch: seq<HoldRead>): set<HoldId> {
    set i | 0 <= i < |batch| :: batch[i].id
  }

  /** The records of a batch are current, ACTIVE and pairwise different. */
  predicate Current(s: Inventory, batch: seq<HoldRead>) {
    && (forall i | 0 <= i < |batch| ::
          batch[i].id in s.holds && batch[i].hold == s.holds[batch[i].id] && batch[i].hold.status == HoldActive)
    && (forall i, j | 0 <= i < j < |batch| :: batch[i].id != batch[j].id)
  }

  ghost predicate SeatIn(s: Inventory, expired: set<HoldId>, x: SeatKey) {
    exists h :: h in expired && Covers(s, h, x)
  }

  ghost predicate RowIn(s: Inventory, expired: set<HoldId>, k: RowKey) {
    exists h :: h in expired && Covers(s, h, k.seat) && RowAt(s, h, k.seat) == k
  }

  ghost predicate BookingIn(s: Inventory, expired: set<HoldId>, b: BookingId) {
    exists h :: h in expired && h in s.holds && s.holds[h].booking == b
  }

  ghost function ExpiredHolds(s: Inventory, expired: set<HoldId>): map<HoldId, Hold> {
    map h | h in s.holds ::
      if h in expired then s.holds[h].(status := HoldExpired, version := s.holds[h].version + 1) else s.holds[h]
  }

  ghost function ExpiredSeats(s: Inventory, expired: set<HoldId>): map<SeatKey, SeatStatus> {
    map x | x in s.seats :: if s.seats[x] == Held && SeatIn(s, expired, x) then Available else s.seats[x]
  }

  ghost function ExpiredRows(s: Inventory, expired: set<HoldId>): map<RowKey, RowStatus> {
    map k | k in s.rows :: if s.rows[k] == RowHeld && RowIn(s, expired, k) then RowReleased else s.rows[k]
  }

  ghost function ExpiredBookings(s: Inventory, expired: set<HoldId>): map<BookingId, Booking> {
    map b | b in s.bookings :: if BookingIn(s, expired, b) then s.bookings[b].(status := Expired) else s.bookings[b]
  }

  /** All holds of a set expire at once. */
  ghost predicate ExpiredAtOnce(s: Inventory, t: Inventory, expired: set<HoldId>) {
    && t.capacity == s.capacity
    && t.availableSeatCount == s.availableSeatCount
    && t.holds == ExpiredHolds(s, expired)
    && t.seats == ExpiredSeats(s, expired)
    && t.rows == ExpiredRows(s, expired)
    && t.bookings == ExpiredBookings(s, expired)
  }

  lemma OneExpiresSeats(s: Inventory, h: HoldId)
    requires h in s.holds
    ensures ExpiredSeats(s, {h}) == MoveSeats(s.seats, s.holds[h].items, Held, Available)
    ensures ExpiredRows(s, {h}) == MoveRows(s.rows, s.holds[h].booking, s.holds[h].items, RowHeld, RowReleased)
    ensures ExpiredBookings(s, {h}) == MoveBookings(s.bookings, {s.holds[h].booking}, Expired)
  {
    forall x ensures SeatIn(s, {h}, x) <==> x in s.holds[h].items {
      if x in s.holds[h].items { assert h in {h} && Covers(s, h, x); }
    }
    forall k ensures RowIn(s, {h}, k) <==> k.booking == s.holds[h].booking && k.seat in s.holds[h].items {
      if k.booking == s.holds[h].booking && k.seat in s.holds[h].items {
        assert h in {h} && Covers(s, h, k.seat) && RowAt(s, h, k.seat) == k;
      }
    }
    forall b ensures BookingIn(s, {h}, b) <==> b == s.holds[h].booking {
      if b == s.holds[h].booking { assert h in {h} && h in s.holds; }
    }
  }

  lemma OneExpires(s: Inventory, read: HoldRead, copyExpiry: bool)
    requires HoldsOk(s) && read.id in s.holds && read.hold == s.holds[read.id] && read.hold.status == HoldActive
    ensures ExpiredAtOnce(s, ExpireHold(s, read, copyExpiry), {read.id})
  {
    ExpireHoldMovesBooking(s, read, copyExpiry);
    OneExpiresSeats(s, read.id);
    assert ExpireHold(s, read, copyExpiry).holds == ExpiredHolds(s, {read.id});
  }

  lemma SameCover(s: Inventory, t: Inventory, expired: set<HoldId>)
    requires t.holds == ExpiredHolds(s, expired)
    ensures forall h, x :: Covers(t, h, x) == Covers(s, h, x)
    ensures forall h, x | Covers(s, h, x) :: RowAt(t, h, x) == RowAt(s, h, x)
  {
  }

  lemma SeatsCompose(s: Inventory, t: Inventory, first: set<HoldId>, second: set<HoldId>)
    requires t.holds == ExpiredHolds(s, first) && t.seats == ExpiredSeats(s, first)
    ensures ExpiredSeats(t, second) == ExpiredSeats(s, first + second)
  {
    SameCover(s, t, first);
    forall x ensures SeatIn(s, first + second, x) <==> SeatIn(s, first, x) || SeatIn(t, second, x) {
      if h :| h in first && Covers(s, h, x) { assert h in first + second; }
      if h :| h in second && Covers(t, h, x) { assert h in first + second; }
    }
  }

  lemma RowsCompose(s: Inventory, t: Inventory, first: set<HoldId>, second: set<HoldId>)
    requires t.holds == ExpiredHolds(s, first) && t.rows == ExpiredRows(s, first)
    ensures ExpiredRows(t, second) == ExpiredRows(s, first + second)
  {
    SameCover(s, t, first);
    forall k ensures RowIn(s, first + second, k) <==> RowIn(s, first, k) || RowIn(t, second, k) {
      if h :| h in first && Covers(s, h, k.seat) && RowAt(s, h, k.seat) == k { assert h in first + second; }
      if h :| h in second && Covers(t, h, k.seat) && RowAt(t, h, k.seat) == k { assert h in first + second; }
    }
  }

  lemma BookingsCompose(s: Inventory, t: Inventory, first: set<HoldId>, second: set<HoldId>)
    requires t.holds == ExpiredHolds(s, first) && t.bookings == ExpiredBookings(s, first)
    ensures ExpiredBookings(t, second) == ExpiredBookings(s, first + second)
  {
    forall b ensures BookingIn(s, first + second, b) <==> BookingIn(s, first, b) || BookingIn(t, second, b) {
      if h :| h in first && h in s.holds && s.holds[h].booking == b { assert h in first + second; }
      if h :| h in second && h in t.holds && t.holds[h].booking == b { assert h in first + second && h in s.holds; }
      if h :| h in first + second && h in s.holds && s.holds[h].booking == b { assert h in t.holds; }
    }
  }

  /** Expiring one set and then another is expiring both. */
  lemma ExpiryComposes(s: Inventory, t: Inventory, u: Inventory, first: set<HoldId>, second: set<HoldId>)
    requires ExpiredAtOnce(s, t, first) && ExpiredAtOnce(t, u, second) && first !! second
    ensures ExpiredAtOnce(s, u, first + second)
  {
    SeatsCompose(s, t, first, second);
    RowsCompose(s, t, first, second);
    BookingsCompose(s, t, first, second);
    assert ExpiredHolds(t, second) == ExpiredHolds(s, first + second);
  }

  lemma NothingExpires(s: Inventory)
    ensures ExpiredAtOnce(s, s, {})
  {
    assert forall x :: !SeatIn(s, {}, x);
    assert forall k :: !RowIn(s, {}, k);
    assert forall b :: !BookingIn(s, {}, b);
  }

  lemma CurrentAfterFirst(s: Inventory, batch: seq<HoldRead>, copyExpiry: bool)
    requires batch != [] && Current(s, batch)
    ensures Current(ExpireHold(s, batch[0], copyExpiry), batch[1..])
    ensures Ids(batch) == {batch[0].id} + Ids(batch[1..]) && batch[0].id !in Ids(batch[1..])
  {
    forall i | 0 <= i < |batch[1..]| ensures batch[1..][i] == batch[i + 1] {
    }
    forall id | id in Ids(batch) ensures id in {batch[0].id} + Ids(batch[1..]) {
      var i :| 0 <= i < |batch| && batch[i].id == id;
      if i > 0 { assert batch[1..][i - 1].id == id; }
    }
  }

  /** A sweep, by either implementation, expires exactly the holds of its batch. */
  lemma {:induction false} SweepExpiresAtOnce(s: Inventory, batch: seq<HoldRead>, copyExpiry: bool)
    requires Valid(s) && Current(s, batch)
    ensures ExpiredAtOnce(s, Sweep(s, batch, copyExpiry), Ids(batch))
    decreases |batch|
  {
    if batch == [] {
      NothingExpires(s);
      assert Ids(batch) == {};
    } else {
      OneExpires(s, batch[0], copyExpiry);
      ExpireHoldKeepsValid(s, batch[0], copyExpiry);
      CurrentAfterFirst(s, batch, copyExpiry);
      var t := ExpireHold(s, batch[0], copyExpiry);
      SweepExpiresAtOnce(t, batch[1..], copyExpiry);
      ExpiryComposes(s, t, Sweep(s, batch, copyExpiry), {batch[0].id}, Ids(batch[1..]));
    }
  }

  /** Any order, either implementation: the same seats, rows, holds and bookings. */
  lemma ExpiryOrderDoesNotMatter(s: Inventory, batch: seq<HoldRead>, other: seq<HoldRead>, copy: bool, otherCopy: bool)
    requires Valid(s) && Current(s, batch) && Current(s, other) && Ids(batch) == Ids(other)
    ensures Sweep(s, batch, copy) == Sweep(s, other, otherCopy)
  {
    SweepExpiresAtOnce(s, batch, copy);
    SweepExpiresAtOnce(s, other, otherCopy);
  }

  lemma {:induction false} DistinctIds(batch: seq<HoldRead>)
    requires forall i, j | 0 <= i < j < |batch| :: batch[i].id != batch[j].id
    ensures |Ids(batch)| == |batch|
  {
    if batch == [] {
      assert Ids(batch) == {};
    } else {
      var rest := batch[..|batch| - 1];
      DistinctIds(rest);
      assert Ids(batch) == Ids(rest) + {batch[|batch| - 1].id};
    }
  }

  lemma BatchIsCurrent(s: Inventory, batch: seq<HoldRead>, now: Time)
    requires OverdueBatch(s, batch, now)
    ensures Current(s, batch) && Ids(batch) <= OverdueHolds(s, now)
  {
    forall i | 0 <= i < |batch| ensures batch[i].id in OverdueHolds(s, now) && batch[i].hold.status == HoldActive {
      assert Overdue(s, batch[i].id, now);
    }
  }

  lemma OverdueAfter(s: Inventory, t: Inventory, expired: set<HoldId>, now: Time)
    requires t.holds == ExpiredHolds(s, expired) && expired <= OverdueHolds(s, now)
    ensures OverdueHolds(t, now) == OverdueHolds(s, now) - expired
    ensures |OverdueHolds(t, now)| == |OverdueHolds(s, now)| - |expired|
  {
    assert OverdueHolds(t, now) == OverdueHolds(s, now) - expired;
    assert |OverdueHolds(s, now)| == |OverdueHolds(s, now) - expired| + |expired|;
  }

  /** One pass removes its whole batch from the overdue holds and adds none. */
  lemma PassShrinksOverdue(s: Inventory, batch: seq<HoldRead>, now: Time, copyExpiry: bool)
    requires Valid(s) && OverdueBatch(s, batch, now)
    ensures var t := Sweep(s, batch, copyExpiry);
            && Valid(t)
            && OverdueHolds(t, now) == OverdueHolds(s, now) - Ids(batch)
            && |OverdueHolds(t, now)| == |OverdueHolds(s, now)| - |batch|
  {
    BatchIsCurrent(s, batch, now);
    BatchIsPossible(s, batch, now);
    SweepKeepsValid(s, batch, copyExpiry);
    SweepExpiresAtOnce(s, batch, copyExpiry);
    DistinctIds(batch);
    OverdueAfter(s, Sweep(s, batch, copyExpiry), Ids(batch), now);
  }

  /** A confirm that comes too late expires overdue holds and then throws, which
      undoes it: it changes nothing, although its sweep would have. */
  lemma LateConfirmLosesItsSweep(s: Inventory, step: Step, batch: seq<HoldRead>)
    requires Valid(s) && Enabled(s, step) && step.ConfirmStep? && s.holds[step.h].client == step.client
    requires !AlreadyConfirmed(step.read, step.readBooking)
    requires step.read.status != HoldActive || step.read.expiresAt <= step.now
    requires OverdueBatch(s, batch, step.now)
    ensures Attempt(s, step) == Rejected("SEAT_HOLD_EXPIRED") && Apply(s, step) == s
    ensures OverdueHolds(s, step.now) != {} ==> Sweep(s, batch, true) != s
  {
    if OverdueHolds(s, step.now) != {} { SweepChangesSomething(s, batch, step.now); }
  }

  lemma SweepChangesSomething(s: Inventory, batch: seq<HoldRead>, now: Time)
    requires Valid(s) && OverdueBatch(s, batch, now) && OverdueHolds(s, now) != {}
    ensures Sweep(s, batch, true) != s
  {
    PassShrinksOverdue(s, batch, now, true);
    var h :| h in OverdueHolds(s, now);
    SubsetCardinality({h}, OverdueHolds(s, now));
  }

  function Passes(s: Inventory, batches: seq<seq<HoldRead>>, copyExpiry: bool): Inventory
    decreases |batches|
  {
    if batches == [] then s else Passes(Sweep(s, batches[0], copyExpiry), batches[1..], copyExpiry)
  }

  predicate AreOverdueBatches(s: Inventory, batches: seq<seq<HoldRead>>, now: Time, copyExpiry: bool)
    decreases |batches|
  {
    batches != [] ==>
      && OverdueBatch(s, batches[0], now)
      && AreOverdueBatches(Sweep(s, batches[0], copyExpiry), batches[1..], now, copyExpiry)
  }

  /** k passes expire exactly min(n, 100 k) of n overdue holds, whichever holds
      the queries pick; so enough passes leave none. */
  lemma {:induction false} PassesDrain(s: Inventory, batches: seq<seq<HoldRead>>, now: Time, copyExpiry: bool)
    requires Valid(s) && AreOverdueBatches(s, batches, now, copyExpiry)
    ensures var n, left := |OverdueHolds(s, now)|, |OverdueHolds(Passes(s, batches, copyExpiry), now)|;
            left == if n <= SWEEP_LIMIT * |batches| then 0 else n - SWEEP_LIMIT * |batches|
    decreases |batches|
  {
    if batches != [] {
      PassShrinksOverdue(s, batches[0], now, copyExpiry);
      PassesDrain(Sweep(s, batches[0], copyExpiry), batches[1..], now, copyExpiry);
    }
  }
}
