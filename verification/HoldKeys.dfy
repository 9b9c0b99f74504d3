/** Hold creation behind its idempotency key: the record is looked up after the
    sweep, in the transaction that creates the hold and writes the record. */
module HoldKeys {
  import opened Tables
  import opened SeatInventory
  import opened SeatLaws
  import I = Idempotency

  type HoldDb = I.Database<Inventory, HoldId>

  /** What the trip lookup of hold creation found. */
  datatype TripLookup = NoTrip | OwnOfDriver | OpenTrip

  function Found(records: map<I.Key, I.Record<HoldId>>, key: I.Key, hash: string, trip: TripLookup): HoldLookup {
    if key in records then if records[key].hash != hash then KeyReused else Replayed
    else
      match trip
      case NoTrip => NotBookable
      case OwnOfDriver => OwnTrip
      case OpenTrip => Bookable
  }

  function Recorded(records: map<I.Key, I.Record<HoldId>>, key: I.Key, hash: string, h: HoldId)
    : map<I.Key, I.Record<HoldId>>
  {
    if key in records then records else records[key := I.Record(hash, h)]
  }

  /** The answer is the recorded hold, or the new one. */
  function RequestHold(db: HoldDb, key: I.Key, hash: string, trip: TripLookup, h: HoldId, b: BookingId,
                       request: HoldRequest, expiresAt: Time, sweep: seq<HoldRead>): Tx<I.Answer<Inventory, HoldId>>
  {
    match CreateHold(db.state, h, b, request, expiresAt, Found(db.records, key, hash, trip), sweep)
    case Rejected(code) => Rejected(code)
    case Committed(t) =>
      var records := Recorded(db.records, key, hash, h);
      Committed(I.Answer(I.Database(records, t), records[key].response))
  }

  /** Requests for holds, and any other transactions on the seats. */
  datatype Event =
    | RequestEvent(key: I.Key, hash: string, trip: TripLookup, h: HoldId, b: BookingId, request: HoldRequest,
                   expiresAt: Time, sweep: seq<HoldRead>)
    | OtherEvent(step: Step)

  function Next(db: HoldDb, e: Event): HoldDb {
    match e
    case OtherEvent(step) => db.(state := SeatInventory.Apply(db.state, step))
    case RequestEvent(key, hash, trip, h, b, request, expiresAt, sweep) =>
      match RequestHold(db, key, hash, trip, h, b, request, expiresAt, sweep)
      case Rejected(_) => db
      case Committed(answer) => answer.after
  }

  function After(db: HoldDb, events: seq<Event>): HoldDb
    decreases |events|
  {
    if events == [] then db else After(Next(db, events[0]), events[1..])
  }

  lemma RecordStays(db: HoldDb, e: Event, key: I.Key)
    requires key in db.records
    ensures key in Next(db, e).records && Next(db, e).records[key] == db.records[key]
  {
  }

  lemma {:induction false} RecordStaysOnRuns(db: HoldDb, events: seq<Event>, key: I.Key)
    requires key in db.records
    ensures key in After(db, events).records && After(db, events).records[key] == db.records[key]
    decreases |events|
  {
    if events != [] {
      RecordStays(db, events[0], key);
      RecordStaysOnRuns(Next(db, events[0]), events[1..], key);
    }
  }

  lemma {:induction false} SweepAddsNoHold(s: Inventory, batch: seq<HoldRead>)
    ensures Sweep(s, batch, true).holds.Keys == s.holds.Keys && Sweep(s, batch, true).bookings.Keys == s.bookings.Keys
    decreases |batch|
  {
    if batch != [] { SweepAddsNoHold(ExpireHold(s, batch[0], true), batch[1..]); }
  }

  /** The hold creation of an event, after its sweep. */
  function Taken(db: HoldDb, e: Event): Tx<Inventory>
    requires e.RequestEvent?
  {
    TakeSeats(Sweep(db.state, e.sweep, true), e.h, e.b, e.request, e.expiresAt)
  }

  lemma FreshKeyTakes(db: HoldDb, e: Event)
    requires e.RequestEvent? && e.key !in db.records
    requires RequestHold(db, e.key, e.hash, e.trip, e.h, e.b, e.request, e.expiresAt, e.sweep).Committed?
    ensures Taken(db, e).Committed?
    ensures Next(db, e) == I.Database(db.records[e.key := I.Record(e.hash, e.h)], Taken(db, e).state)
  {
  }

  lemma FirstCreatesOne(db: HoldDb, first: Event)
    requires first.RequestEvent? && first.key !in db.records
    requires RequestHold(db, first.key, first.hash, first.trip, first.h, first.b, first.request, first.expiresAt,
                         first.sweep).Committed?
    ensures first.h !in db.state.holds && Next(db, first).state.holds.Keys == db.state.holds.Keys + {first.h}
    ensures first.key in Next(db, first).records && Next(db, first).records[first.key] == I.Record(first.hash, first.h)
  {
    FreshKeyTakes(db, first);
    SweepAddsNoHold(db.state, first.sweep);
    TakingAddsOne(Sweep(db.state, first.sweep, true), first);
  }

  lemma TakingAddsOne(s: Inventory, e: Event)
    requires e.RequestEvent?
    ensures var r := TakeSeats(s, e.h, e.b, e.request, e.expiresAt);
            r.Committed? ==> e.h !in s.holds && r.state.holds.Keys == s.holds.Keys + {e.h}
  {
  }

  /** Under a key that has a record. */
  lemma RecordedAnswer(db: HoldDb, again: Event)
    requires again.RequestEvent? && again.key in db.records
    ensures var r := RequestHold(db, again.key, again.hash, again.trip, again.h, again.b, again.request,
                                 again.expiresAt, again.sweep);
            && (r.Committed? <==> again.hash == db.records[again.key].hash)
            && (r.Committed? ==>
                  && r.state.response == db.records[again.key].response && r.state.after.records == db.records
                  && r.state.after.state == Sweep(db.state, again.sweep, true)
                  && r.state.after.state.holds.Keys == db.state.holds.Keys
                  && r.state.after.state.bookings.Keys == db.state.bookings.Keys)
  {
    SweepAddsNoHold(db.state, again.sweep);
  }

  /** The first request under a key creates one hold. However often the request is
      repeated, with any requests and transactions in between and whatever the trip
      has become, it is answered with that hold, expires what is overdue and creates
      none; a request under
      the key with another payload is always turned down. */
  lemma OneHoldPerKey(db: HoldDb, first: Event, between: seq<Event>, again: Event)
    requires first.RequestEvent? && first.key !in db.records
    requires RequestHold(db, first.key, first.hash, first.trip, first.h, first.b, first.request, first.expiresAt,
                         first.sweep).Committed?
    requires again.RequestEvent? && again.key == first.key
    ensures first.h !in db.state.holds && Next(db, first).state.holds.Keys == db.state.holds.Keys + {first.h}
    ensures var later := After(Next(db, first), between);
            var r := RequestHold(later, again.key, again.hash, again.trip, again.h, again.b, again.request,
                                 again.expiresAt, again.sweep);
            && (r.Committed? <==> again.hash == first.hash)
            && (r.Committed? ==>
                  && r.state.response == first.h && r.state.after.records == later.records
                  && r.state.after.state == Sweep(later.state, again.sweep, true)
                  && r.state.after.state.holds.Keys == later.state.holds.Keys
                  && r.state.after.state.bookings.Keys == later.state.bookings.Keys)
  {
    FirstCreatesOne(db, first);
    RecordStaysOnRuns(Next(db, first), between, first.key);
    RecordedAnswer(After(Next(db, first), between), again);
  }

  /** Under a fresh key a hold is granted exactly if the lookup found an open trip that
      is not the client's own, the request names one seat, or as many as there are
      passengers, or is for the whole car, and all seats it asks for are AVAILABLE
      after the sweep. */
  lemma RequestGrantedExactly(db: HoldDb, e: Event)
    requires e.RequestEvent? && e.key !in db.records && e.h !in db.state.holds && e.b !in db.state.bookings
    ensures var s := WithAllSeats(Sweep(db.state, e.sweep, true));
            var keys := AskedFor(s, e.request);
            RequestHold(db, e.key, e.hash, e.trip, e.h, e.b, e.request, e.expiresAt, e.sweep).Committed? <==>
              && e.trip == OpenTrip
              && (e.request.kind == OneSeat ==> |keys| == 1)
              && (e.request.kind == MultiSeat ==> |keys| == e.request.passengerCount)
              && forall x | x in keys :: x in s.seats && s.seats[x] == Available
  {
    SweepAddsNoHold(db.state, e.sweep);
    HoldGrantedExactly(WithAllSeats(Sweep(db.state, e.sweep, true)), e.h, e.b, e.request, e.expiresAt);
    OnlyOpenTrips(db, e);
  }

  lemma OnlyOpenTrips(db: HoldDb, e: Event)
    requires e.RequestEvent? && e.key !in db.records
    ensures RequestHold(db, e.key, e.hash, e.trip, e.h, e.b, e.request, e.expiresAt, e.sweep).Committed? <==>
              e.trip == OpenTrip && Taken(db, e).Committed?
  {
  }
}
