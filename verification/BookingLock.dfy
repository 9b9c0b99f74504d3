/** The per-trip booking lock (SET NX PX, then compare-and-delete) around hold
    creation, in a system of concurrent callers, lock-free transactions and time. */
module BookingLock {
  import opened Tables
  import opened SeatInventory
  import opened SeatSafety

  /** The random token of one call. */
  type Token = nat

  datatype Entry = Entry(token: Token, until: Time)

  /** SET key token PX ttl NX: sets the key unless an unexpired one is there. */
  predicate Free(entry: Option<Entry>, now: Time) {
    entry.None? || entry.value.until <= now
  }

  function Acquired(entry: Option<Entry>, token: Token, now: Time, ttl: nat): Option<Entry> {
    if Free(entry, now) then Some(Entry(token, now + ttl)) else entry
  }

  /** The release script: delete the key only if it still holds this token. */
  function Deleted(entry: Option<Entry>, token: Token, now: Time): Option<Entry> {
    if !Free(entry, now) && entry.value.token == token then None else entry
  }

  /** A lock that was taken keeps everyone else out for exactly its time, unless its
      own token releases it; then it is free at once. */
  lemma LockLastsExactly(entry: Option<Entry>, token: Token, other: Token, now: Time, ttl: nat, later: Time)
    requires Free(entry, now) && now <= later
    ensures var taken := Acquired(entry, token, now, ttl);
            && (Free(taken, later) <==> now + ttl <= later)
            && (Acquired(taken, other, later, ttl) == Some(Entry(other, later + ttl)) <==>
                  now + ttl <= later || (other == token && later == now))
            && (Free(Deleted(taken, other, later), later) <==> other == token || now + ttl <= later)
            && (other != token ==> Deleted(taken, other, later) == taken)
  {
  }

  /** The key as a store keeps it. */
  class LockKey {
    var entry: Option<Entry>

    constructor ()
      ensures entry == None
    {
      entry := None;
    }

    method SetIfAbsent(token: Token, now: Time, ttl: nat) returns (acquired: bool)
      modifies this
      ensures acquired <==> Free(old(entry), now)
      ensures entry == Acquired(old(entry), token, now, ttl)
    {
      acquired := entry.None? || entry.value.until <= now;
      if acquired {
        entry := Some(Entry(token, now + ttl));
      }
    }

    method DeleteIfEqual(token: Token, now: Time) returns (deleted: bool)
      modifies this
      ensures deleted <==> !Free(old(entry), now) && old(entry).value.token == token
      ensures entry == Deleted(old(entry), token, now)
    {
      deleted := false;
      if entry.Some? && now < entry.value.until && entry.value.token == token {
        entry := None;
        deleted := true;
      }
    }
  }

  /** A caller of hold creation. `until` is when its lock expires. */
  datatype Caller =
    | Waiting
    | Inside(until: Time)
    | Chosen(until: Time, h: HoldId, b: BookingId, request: HoldRequest, items: set<SeatKey>, expiresAt: Time)
    | Finished(until: Time)
    | Done

  datatype System = System(ttl: nat, now: Time, entry: Option<Entry>, callers: map<Token, Caller>, inventory: Inventory)

  /** Choose is the read of hold creation: seats of the trip that are AVAILABLE
      then. Write is its commit. Other is any transaction that takes no lock. */
  datatype Event =
    | Tick(elapsed: nat)
    | Enter(p: Token)
    | Choose(p: Token, h: HoldId, b: BookingId, request: HoldRequest, items: set<SeatKey>, expiresAt: Time)
    | Write(p: Token)
    | Release(p: Token)
    | Other(step: Step)

  predicate Possible(s: System, e: Event) {
    match e
    case Tick(_) => true
    case Enter(p) => p in s.callers && s.callers[p].Waiting?
    case Choose(p, _, _, _, items, _) =>
      && p in s.callers && s.callers[p].Inside?
      && items != {} && items <= s.inventory.seats.Keys
      && forall x | x in items :: s.inventory.seats[x] == Available
    case Write(p) =>
      && p in s.callers && s.callers[p].Chosen?
      && s.callers[p].h !in s.inventory.holds && s.callers[p].b !in s.inventory.bookings
    case Release(p) => p in s.callers && (s.callers[p].Inside? || s.callers[p].Chosen? || s.callers[p].Finished?)
    case Other(step) => Enabled(s.inventory, step) && !step.CreateHoldStep?
  }

  function Next(s: System, e: Event): System
    requires Possible(s, e)
  {
    match e
    case Tick(elapsed) => s.(now := s.now + elapsed)
    case Enter(p) =>
      if Free(s.entry, s.now) then
        s.(entry := Acquired(s.entry, p, s.now, s.ttl), callers := s.callers[p := Inside(s.now + s.ttl)])
      else
        s.(callers := s.callers[p := Done])
    case Choose(p, h, b, request, items, expiresAt) =>
      s.(callers := s.callers[p := Chosen(s.callers[p].until, h, b, request, items, expiresAt)])
    case Write(p) =>
      var c := s.callers[p];
      s.(callers := s.callers[p := Finished(c.until)],
         inventory := PlaceHold(s.inventory, c.h, c.b, c.request, c.items, c.expiresAt))
    case Release(p) => s.(entry := Deleted(s.entry, p, s.now), callers := s.callers[p := Done])
    case Other(step) => s.(inventory := Apply(s.inventory, step))
  }

  /** The critical section of p is running and its lock has not expired. */
  predicate Holding(s: System, p: Token) {
    p in s.callers && (s.callers[p].Inside? || s.callers[p].Chosen?) && s.now < s.callers[p].until
  }

  /** A section that ends in time writes before its lock expires. */
  predicate Timely(s: System, e: Event) {
    e.Write? ==> e.p in s.callers && s.callers[e.p].Chosen? && s.now < s.callers[e.p].until
  }

  ghost predicate LockOk(s: System) {
    forall p | Holding(s, p) :: s.entry == Some(Entry(p, s.callers[p].until))
  }

  ghost predicate ChoiceOk(s: System, p: Token) {
    Holding(s, p) && s.callers[p].Chosen? ==>
      && s.callers[p].items != {}
      && s.callers[p].items <= s.inventory.seats.Keys
      && forall x | x in s.callers[p].items :: s.inventory.seats[x] == Available
  }

  ghost predicate SystemOk(s: System) {
    && Valid(s.inventory)
    && LockOk(s)
    && forall p | p in s.callers :: ChoiceOk(s, p)
  }

  /** Late or not, a release removes the key of its own call and no other, so a
      successor's lock survives it. */
  lemma LateReleaseSparesSuccessor(s: System, p: Token, q: Token)
    requires Possible(s, Release(p)) && LockOk(s) && Holding(s, q) && p != q
    ensures Holding(Next(s, Release(p)), q) && Next(s, Release(p)).entry == s.entry
  {
  }

  lemma OneHolderPerTrip(s: System, p: Token, q: Token)
    requires LockOk(s) && Holding(s, p) && Holding(s, q)
    ensures p == q
  {
    assert s.entry == Some(Entry(p, s.callers[p].until));
  }

  // ----- lock-free transactions never take an AVAILABLE seat -----

  ghost predicate FreeStaysFree(s: Inventory, t: Inventory) {
    forall x | x in s.seats && s.seats[x] == Available :: x in t.seats && t.seats[x] == Available
  }

  lemma ReleaseFreesOnly(s: Inventory, read: HoldRead, status: HoldStatus)
    ensures FreeStaysFree(s, ReleaseHold(s, read, status))
  {
  }

  lemma {:induction false} SweepFreesOnly(s: Inventory, batch: seq<HoldRead>, copyExpiry: bool)
    ensures FreeStaysFree(s, Sweep(s, batch, copyExpiry))
    decreases |batch|
  {
    if batch != [] {
      ReleaseFreesOnly(s, batch[0], HoldExpired);
      SweepFreesOnly(ExpireHold(s, batch[0], copyExpiry), batch[1..], copyExpiry);
    }
  }

  lemma OthersTakeNoFreeSeat(s: Inventory, step: Step)
    requires !step.CreateHoldStep?
    ensures FreeStaysFree(s, Apply(s, step))
  {
    match step
    case ConfirmStep(h, client, passengers, now, read, readBooking) =>
    case ReleaseStep(h, client, read) => ReleaseFreesOnly(s, HoldRead(h, read), HoldReleased);
    case SweepStep(sweep, now) => SweepFreesOnly(s, sweep, true);
    case WorkerExpireStep(overdue, _) => ReleaseFreesOnly(s, overdue, HoldExpired);
    case CancelStep(b, user, role) =>
    case PaymentSucceededStep(b) =>
    case PaymentExpiredStep(b, first) =>
      if first.Some? && first.value in s.holds {
        ReleaseFreesOnly(s, HoldRead(first.value, s.holds[first.value]), HoldExpired);
      }
    case PaymentStartedStep(b, online) =>
    case ApproveStep(b) =>
  }

  // ----- the lock makes the unchecked write safe -----

  lemma LockIsKept(s: System, e: Event)
    requires LockOk(s) && Possible(s, e)
    ensures LockOk(Next(s, e))
  {
    var t := Next(s, e);
    forall p | Holding(t, p) ensures t.entry == Some(Entry(p, t.callers[p].until)) {
      assert Holding(s, p) ==> !Free(s.entry, s.now);
      assert Holding(s, p) || (e == Enter(p) && Free(s.entry, s.now));
    }
  }

  lemma WriteTouchesOnlyItsChoice(s: System, p: Token, q: Token)
    requires SystemOk(s) && Possible(s, Write(p)) && Timely(s, Write(p)) && q in s.callers && q != p
    ensures ChoiceOk(Next(s, Write(p)), q)
  {
    if Holding(s, q) { OneHolderPerTrip(s, p, q); }
  }

  lemma EventKeepsSystemOk(s: System, e: Event)
    requires SystemOk(s) && Possible(s, e) && Timely(s, e)
    ensures SystemOk(Next(s, e))
  {
    var t := Next(s, e);
    LockIsKept(s, e);
    match e
    case Write(p) =>
      var c := s.callers[p];
      assert ChoiceOk(s, p);
      PlaceHoldKeepsValid(s.inventory, c.h, c.b, c.request, c.items, c.expiresAt);
      forall q | q in t.callers ensures ChoiceOk(t, q) {
        if q != p { WriteTouchesOnlyItsChoice(s, p, q); }
      }
    case Other(step) =>
      StepKeepsValid(s.inventory, step);
      OthersTakeNoFreeSeat(s.inventory, step);
      forall q | q in t.callers ensures ChoiceOk(t, q) {
        assert ChoiceOk(s, q);
      }
    case _ =>
      forall q | q in t.callers ensures ChoiceOk(t, q) {
        assert q in s.callers && ChoiceOk(s, q);
      }
  }

  predicate SystemRun(s: System, events: seq<Event>)
    decreases |events|
  {
    events != [] ==> Possible(s, events[0]) && Timely(s, events[0]) && SystemRun(Next(s, events[0]), events[1..])
  }

  function After(s: System, events: seq<Event>): System
    requires SystemRun(s, events)
    decreases |events|
  {
    if events == [] then s else After(Next(s, events[0]), events[1..])
  }

  /** If every critical section writes within its lock time, then on every run,
      whatever lock-free transactions and late releases do in between, the
      inventory stays valid and the seats a caller has chosen are still
      AVAILABLE when it comes to write them. */
  lemma {:induction false} TimelySectionsAreSafe(s: System, events: seq<Event>)
    requires SystemOk(s) && SystemRun(s, events)
    ensures SystemOk(After(s, events))
    decreases |events|
  {
    if events != [] {
      EventKeepsSystemOk(s, events[0]);
      TimelySectionsAreSafe(Next(s, events[0]), events[1..]);
    }
  }

  /** Without timeliness the write is safe exactly when nobody took the seats
      meanwhile; the write itself does not find out. */
  lemma LateWriteIsSafeIffStillFree(s: System, p: Token)
    requires Valid(s.inventory) && Possible(s, Write(p))
    requires s.callers[p].items != {} && s.callers[p].items <= s.inventory.seats.Keys
    ensures Valid(Next(s, Write(p)).inventory)
        <==> forall x | x in s.callers[p].items :: s.inventory.seats[x] == Available
  {
    var c := s.callers[p];
    PlaceHoldIsSafeIffSeatsAreFree(s.inventory, c.h, c.b, c.request, c.items, c.expiresAt);
  }

  /** The state some events lead to, if each of them is possible in its turn. */
  function Play(s: System, events: seq<Event>): Option<System>
    decreases |events|
  {
    if events == [] then Some(s)
    else if !Possible(s, events[0]) then None
    else Play(Next(s, events[0]), events[1..])
  }

  lemma PlayOne(s: System, e: Event, rest: seq<Event>)
    requires Possible(s, e)
    ensures Play(s, [e] + rest) == Play(Next(s, e), rest)
  {
    assert ([e] + rest)[1..] == rest;
  }

  lemma PlayNothing(s: System)
    ensures Play(s, []) == Some(s)
  {
  }

  // ----- a seat sold twice -----

  function ChooseSeat(p: Token, h: HoldId, b: BookingId, seat: SeatKey, request: HoldRequest): Event {
    Choose(p, h, b, request, {seat}, 600)
  }

  function FirstHold(seat: SeatKey, request: HoldRequest): Hold {
    Hold(0, request.client, {seat}, 600, HoldActive, 1)
  }

  function ConfirmFirst(seat: SeatKey, request: HoldRequest): Step {
    ConfirmStep(0, request.client, request.passengerCount, 0, FirstHold(seat, request), OnHold)
  }

  /** Two callers, the first outliving its lock: both are let in, both choose the
      same seat, both write. */
  function OverrunningSection(seat: SeatKey, request: HoldRequest, ttl: nat, rest: seq<Event>): seq<Event> {
    [Enter(1)] + ([ChooseSeat(1, 0, 0, seat, request)] + ([Tick(ttl)] + ([Enter(2)]
      + ([ChooseSeat(2, 1, 1, seat, request)] + ([Write(2)] + ([Write(1)] + rest))))))
  }

  ghost function BothPlaced(inventory: Inventory, seat: SeatKey, request: HoldRequest): Inventory {
    PlaceHold(PlaceHold(inventory, 1, 1, request, {seat}, 600), 0, 0, request, {seat}, 600)
  }

  ghost predicate FreshSeat(inventory: Inventory, seat: SeatKey) {
    && seat in inventory.seats && inventory.seats[seat] == Available
    && 0 !in inventory.holds && 1 !in inventory.holds && 0 !in inventory.bookings && 1 !in inventory.bookings
  }

  lemma BothSectionsWrite(inventory: Inventory, seat: SeatKey, request: HoldRequest, ttl: nat, rest: seq<Event>)
    returns (end: System)
    requires FreshSeat(inventory, seat)
    ensures end.inventory == BothPlaced(inventory, seat, request)
    ensures Play(System(ttl, 0, None, map[1 := Waiting, 2 := Waiting], inventory), OverrunningSection(seat, request, ttl, rest))
            == Play(end, rest)
  {
    var first, second := ChooseSeat(1, 0, 0, seat, request), ChooseSeat(2, 1, 1, seat, request);
    var s0 := System(ttl, 0, None, map[1 := Waiting, 2 := Waiting], inventory);
    var s1 := Next(s0, Enter(1));
    var s2 := Next(s1, first);
    var s3 := Next(s2, Tick(ttl));
    var s4 := Next(s3, Enter(2));
    var s5 := Next(s4, second);
    var s6 := Next(s5, Write(2));
    end := Next(s6, Write(1));
    PlayOne(s6, Write(1), rest);
    PlayOne(s5, Write(2), [Write(1)] + rest);
    PlayOne(s4, second, [Write(2)] + ([Write(1)] + rest));
    PlayOne(s3, Enter(2), [second] + ([Write(2)] + ([Write(1)] + rest)));
    PlayOne(s2, Tick(ttl), [Enter(2)] + ([second] + ([Write(2)] + ([Write(1)] + rest))));
    PlayOne(s1, first, [Tick(ttl)] + ([Enter(2)] + ([second] + ([Write(2)] + ([Write(1)] + rest)))));
    PlayOne(s0, Enter(1), [first] + ([Tick(ttl)] + ([Enter(2)] + ([second] + ([Write(2)] + ([Write(1)] + rest))))));
  }

  lemma BothHoldTheSeat(inventory: Inventory, seat: SeatKey, request: HoldRequest)
    requires FreshSeat(inventory, seat)
    ensures var t := BothPlaced(inventory, seat, request);
            && seat in t.seats && t.seats[seat] == Held
            && RowKey(0, seat) in t.rows && t.rows[RowKey(0, seat)] == RowHeld
            && RowKey(1, seat) in t.rows && t.rows[RowKey(1, seat)] == RowHeld
            && 0 in t.holds && t.holds[0] == FirstHold(seat, request)
            && 0 in t.bookings && t.bookings[0] == Booking(request.client, request.passengerCount, 600, OnHold)
            && 1 in t.bookings && t.bookings[1] == Booking(request.client, request.passengerCount, 600, OnHold)
  {
    var s := PlaceHold(inventory, 1, 1, request, {seat}, 600);
    assert seat in s.seats && s.seats[seat] == Held;
    assert RowKey(1, seat) in HeldRows(1, {seat}) && RowKey(0, seat) in HeldRows(0, {seat});
  }

  lemma FirstIsConfirmed(t: Inventory, seat: SeatKey, request: HoldRequest)
    requires seat in t.seats && t.seats[seat] == Held
    requires RowKey(0, seat) in t.rows && t.rows[RowKey(0, seat)] == RowHeld
    requires 0 in t.holds && t.holds[0] == FirstHold(seat, request)
    requires 0 in t.bookings && t.bookings[0] == Booking(request.client, request.passengerCount, 600, OnHold)
    ensures Enabled(t, ConfirmFirst(seat, request))
    ensures Apply(t, ConfirmFirst(seat, request)) == BookHold(t, 0, FirstHold(seat, request))
  {
    var read := FirstHold(seat, request);
    assert (set x | x in read.items && x in t.seats && t.seats[x] == Held) == read.items;
    assert (set x | x in read.items && RowKey(read.booking, x) in t.rows && t.rows[RowKey(read.booking, x)] == RowHeld)
        == read.items;
  }

  lemma SecondIsStarted(t: Inventory, seat: SeatKey, request: HoldRequest)
    requires 0 in t.holds && 0 in t.bookings && 1 in t.bookings && t.bookings[1].status == OnHold
    ensures var u := Apply(BookHold(t, 0, FirstHold(seat, request)), PaymentStartedStep(1, true));
            && u.rows == BookHold(t, 0, FirstHold(seat, request)).rows
            && 0 in u.bookings && u.bookings[0].status == Confirmed
            && 1 in u.bookings && u.bookings[1].status == PaymentPending
  {
  }

  lemma SecondIsPaid(t: Inventory, seat: SeatKey, request: HoldRequest)
    requires 0 in t.holds && 0 in t.bookings && 1 in t.bookings && t.bookings[1].status == OnHold
    requires RowKey(0, seat) in t.rows && t.rows[RowKey(0, seat)] == RowHeld
    requires RowKey(1, seat) in t.rows && t.rows[RowKey(1, seat)] == RowHeld
    ensures var u := PaymentSucceeded(Apply(BookHold(t, 0, FirstHold(seat, request)), PaymentStartedStep(1, true)), 1);
            && RowKey(0, seat) in u.rows && u.rows[RowKey(0, seat)] == RowBooked
            && RowKey(1, seat) in u.rows && u.rows[RowKey(1, seat)] == RowBooked
            && 0 in u.bookings && u.bookings[0].status == Confirmed && 1 in u.bookings && u.bookings[1].status == Confirmed
  {
    SecondIsStarted(t, seat, request);
  }

  function Sales(seat: SeatKey, request: HoldRequest): seq<Event> {
    [Other(ConfirmFirst(seat, request))] + ([Other(PaymentStartedStep(1, true))] + ([Other(PaymentSucceededStep(1))] + []))
  }

  /** After such a run the two bookings hold one seat. The client of the first
      confirms it, the second pays online, and both bookings are CONFIRMED with the
      same seat BOOKED: it is sold twice. */
  lemma OverrunningSectionSellsTwice(inventory: Inventory, seat: SeatKey, request: HoldRequest, ttl: nat)
    requires FreshSeat(inventory, seat)
    ensures var start := System(ttl, 0, None, map[1 := Waiting, 2 := Waiting], inventory);
            var end := Play(start, OverrunningSection(seat, request, ttl, Sales(seat, request)));
            && end.Some?
            && var t := end.value.inventory;
            && RowKey(0, seat) in t.rows && t.rows[RowKey(0, seat)] == RowBooked
            && RowKey(1, seat) in t.rows && t.rows[RowKey(1, seat)] == RowBooked
            && 0 in t.bookings && t.bookings[0].status == Confirmed && 1 in t.bookings && t.bookings[1].status == Confirmed
  {
    var both := BothSectionsWrite(inventory, seat, request, ttl, Sales(seat, request));
    BothHoldTheSeat(inventory, seat, request);
    FirstIsConfirmed(both.inventory, seat, request);
    SecondIsPaid(both.inventory, seat, request);
    PlayThree(both, ConfirmFirst(seat, request), PaymentStartedStep(1, true), PaymentSucceededStep(1));
  }

  lemma PlayThree(s: System, a: Step, b: Step, c: Step)
    requires Enabled(s.inventory, a) && Enabled(Apply(s.inventory, a), b)
    requires Enabled(Apply(Apply(s.inventory, a), b), c)
    requires !a.CreateHoldStep? && !b.CreateHoldStep? && !c.CreateHoldStep?
    ensures Play(s, [Other(a)] + ([Other(b)] + ([Other(c)] + [])))
         == Some(s.(inventory := Apply(Apply(Apply(s.inventory, a), b), c)))
  {
    var t := Next(s, Other(a));
    var u := Next(t, Other(b));
    PlayOne(s, Other(a), [Other(b)] + ([Other(c)] + []));
    PlayOne(t, Other(b), [Other(c)] + []);
    PlayOne(u, Other(c), []);
    PlayNothing(Next(u, Other(c)));
  }
}
