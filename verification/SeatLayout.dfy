/** The seats of a trip: the generated layout and its reconciliation with the
    seats a trip already has. */
module SeatLayout {
  import opened Tables

  datatype SeatType = Front | Rear | Standard

  datatype SeatItem = SeatItem(seatKey: string, seatLabel: string, row: nat, column: nat, seatType: SeatType)

  const MAX_SEATS := 16

  function Clamp(passengerSeatCount: int): nat {
    if passengerSeatCount < 1 then 1
    else if passengerSeatCount > MAX_SEATS then MAX_SEATS
    else passengerSeatCount
  }

  /** Decimal numerals, as a template string prints a number. */
  function Decimal(n: nat): string {
    if n < 10 then [Digit(n)] else Decimal(n / 10) + [Digit(n % 10)]
  }

  function Digit(d: nat): char
    requires d < 10
  {
    '0' + d as char
  }

  function SeatAt(index: nat): SeatItem {
    if index == 0 then
      SeatItem("FRONT_RIGHT", "Front right", 0, 1, Front)
    else
      var row := (index - 1) / 2 + 1;
      var column := (index - 1) % 2;
      SeatItem("ROW_" + Decimal(row) + (if column == 0 then "_LEFT" else "_RIGHT"),
               "Row " + Decimal(row) + (if column == 0 then " left" else " right"),
               row, column, if row == 1 then Rear else Standard)
  }

  function Layout(passengerSeatCount: int): seq<SeatItem> {
    seq(Clamp(passengerSeatCount), i requires 0 <= i => SeatAt(i))
  }

  method GenerateSeatLayout(passengerSeatCount: int) returns (seats: seq<SeatItem>)
    ensures seats == Layout(passengerSeatCount)
  {
    var count := Clamp(passengerSeatCount);
    seats := [SeatItem("FRONT_RIGHT", "Front right", 0, 1, Front)];
    var index := 1;
    while index < count
      invariant 1 <= index <= count
      invariant seats == Layout(passengerSeatCount)[..index]
    {
      var rearIndex := index - 1;
      var row := rearIndex / 2 + 1;
      var column := rearIndex % 2;
      seats := seats + [SeatItem("ROW_" + Decimal(row) + (if column == 0 then "_LEFT" else "_RIGHT"),
                                 "Row " + Decimal(row) + (if column == 0 then " left" else " right"),
                                 row, column, if row == 1 then Rear else Standard)];
      index := index + 1;
    }
  }

  lemma {:induction false} DecimalInjective(m: nat, n: nat)
    requires Decimal(m) == Decimal(n)
    ensures m == n
  {
    var a, b := Decimal(m), Decimal(n);
    assert a[|a| - 1] == Digit(m % 10) && b[|b| - 1] == Digit(n % 10);
    DecimalNonEmpty(m / 10);
    DecimalNonEmpty(n / 10);
    if m >= 10 && n >= 10 {
      assert a[..|a| - 1] == Decimal(m / 10) && b[..|b| - 1] == Decimal(n / 10);
      DecimalInjective(m / 10, n / 10);
    }
  }

  lemma DecimalNonEmpty(n: nat)
    ensures |Decimal(n)| >= 1
  {
  }

  /** No two positions share a seat key, so the unique index on
      (trip, seatKey) never drops a generated seat. */
  lemma SeatKeyIdentifiesIndex(i: nat, j: nat)
    requires SeatAt(i).seatKey == SeatAt(j).seatKey
    ensures i == j
  {
    if i == 0 || j == 0 {
      assert SeatAt(i).seatKey[0] == (if i == 0 then 'F' else 'R');
      assert SeatAt(j).seatKey[0] == (if j == 0 then 'F' else 'R');
    } else {
      var (r, c) := (SeatAt(i).row, SeatAt(i).column);
      var (r', c') := (SeatAt(j).row, SeatAt(j).column);
      var a, b := SeatAt(i).seatKey, SeatAt(j).seatKey;
      assert a[|a| - 2] == (if c == 0 then 'F' else 'H');
      assert b[|b| - 2] == (if c' == 0 then 'F' else 'H');
      assert c == c';
      var tail := if c == 0 then 5 else 6;
      assert a[4..|a| - tail] == Decimal(r);
      assert b[4..|b| - tail] == Decimal(r');
      DecimalInjective(r, r');
    }
  }

  function Value(numeral: string): int {
    if numeral == "" then 0 else 10 * Value(numeral[..|numeral| - 1]) + (numeral[|numeral| - 1] as int - '0' as int)
  }

  /** A numeral reads as the number it was made from. */
  lemma {:induction false} DecimalReads(n: nat)
    ensures Value(Decimal(n)) == n
  {
    var d := Decimal(n);
    if n >= 10 {
      DecimalReads(n / 10);
      assert d[..|d| - 1] == Decimal(n / 10);
    } else {
      assert d[..|d| - 1] == "";
    }
  }

  /** What a passenger reads on a seat: the first is in front, seats 2k - 1 and 2k are
      the left and the right one of row k, and those of the first row are rear seats. */
  lemma SeatIsNamedByItsPlace(k: nat)
    requires k >= 1
    ensures SeatAt(0) == SeatItem("FRONT_RIGHT", "Front right", 0, 1, Front)
    ensures SeatAt(2 * k - 1) == SeatItem("ROW_" + Decimal(k) + "_LEFT", "Row " + Decimal(k) + " left", k, 0,
                                          if k == 1 then Rear else Standard)
    ensures SeatAt(2 * k) == SeatItem("ROW_" + Decimal(k) + "_RIGHT", "Row " + Decimal(k) + " right", k, 1,
                                      if k == 1 then Rear else Standard)
  {
  }

  /** (row, column) and the index determine each other: front right is cell
      (0, 1), and every cell of every rear row is taken exactly once. */
  lemma CellsAndIndicesCorrespond(i: nat, row: nat, column: nat)
    requires row == 0 ==> column == 1
    requires column < 2
    ensures (SeatAt(i).row == row && SeatAt(i).column == column)
       <==> i == if row == 0 then 0 else 2 * (row - 1) + column + 1
  {
  }

  lemma SmallerLayoutIsPrefix(m: int, n: int)
    requires m <= n
    ensures Layout(m) <= Layout(n)
  {
    assert forall i | 0 <= i < Clamp(m) :: Layout(m)[i] == Layout(n)[i];
  }

  /** The keys of a layout. */
  function Keys(count: int): set<string> {
    set seat | seat in Layout(count) :: seat.seatKey
  }

  ghost function FirstKeys(n: nat): set<string> {
    set i | 0 <= i < n :: SeatAt(i).seatKey
  }

  lemma KeysAreFirstKeys(count: int)
    ensures Keys(count) == FirstKeys(Clamp(count))
  {
    var layout := Layout(count);
    forall k | k in FirstKeys(Clamp(count)) ensures k in Keys(count) {
      var i: nat :| 0 <= i < Clamp(count) && SeatAt(i).seatKey == k;
      assert layout[i].seatKey == k;
    }
  }

  lemma {:induction false} FirstKeysCardinality(n: nat)
    ensures |FirstKeys(n)| == n
  {
    if n > 0 {
      FirstKeysCardinality(n - 1);
      forall i | 0 <= i < n - 1 ensures SeatAt(i).seatKey != SeatAt(n - 1).seatKey {
        if SeatAt(i).seatKey == SeatAt(n - 1).seatKey { SeatKeyIdentifiesIndex(i, n - 1); }
      }
      assert FirstKeys(n) == FirstKeys(n - 1) + {SeatAt(n - 1).seatKey};
    } else {
      assert FirstKeys(0) == {};
    }
  }

  lemma KeysCardinality(count: int)
    ensures |Keys(count)| == if count < 1 then 1 else if count > 16 then 16 else count
  {
    KeysAreFirstKeys(count);
    FirstKeysCardinality(Clamp(count));
  }

  lemma SmallerLayoutHasFewerKeys(m: int, n: int)
    requires m <= n
    ensures Keys(m) <= Keys(n)
  {
    KeysAreFirstKeys(m);
    KeysAreFirstKeys(n);
  }

  /** ensureTripSeats: a trip short of seats gets the missing seats of its layout. */
  function EnsureTripSeats<S>(existing: map<string, S>, capacity: int, vacant: S): map<string, S> {
    if |existing| >= capacity then existing else existing + MissingSeats(existing.Keys, capacity, vacant)
  }

  function MissingSeats<S>(existing: set<string>, capacity: int, vacant: S): map<string, S> {
    map k | k in Keys(capacity) && k !in existing :: vacant
  }

  lemma EnsuredKeys<S>(existing: map<string, S>, capacity: int, vacant: S)
    requires |existing| < capacity
    ensures EnsureTripSeats(existing, capacity, vacant).Keys == existing.Keys + Keys(capacity)
  {
  }

  /** A trip whose seats come from its layout never gets more than its capacity. */
  lemma EnsureStaysWithinCapacity<S>(existing: map<string, S>, capacity: nat, vacant: S)
    requires 1 <= capacity && existing.Keys <= Keys(capacity) && |existing| <= capacity
    ensures var seats := EnsureTripSeats(existing, capacity, vacant);
            && existing.Keys <= seats.Keys <= Keys(capacity)
            && 1 <= |seats| <= capacity
            && forall k | k in seats :: seats[k] == if k in existing then existing[k] else vacant
  {
    if |existing| < capacity {
      EnsuredKeys(existing, capacity, vacant);
      assert existing.Keys + Keys(capacity) == Keys(capacity);
      assert |EnsureTripSeats(existing, capacity, vacant)| == |EnsureTripSeats(existing, capacity, vacant).Keys|;
      KeysCardinality(capacity);
    }
  }

  lemma EnsureKeepsFullLayout<S>(seats: map<string, S>, capacity: int, vacant: S)
    requires Keys(capacity) <= seats.Keys
    ensures EnsureTripSeats(seats, capacity, vacant) == seats
  {
    assert MissingSeats(seats.Keys, capacity, vacant) == map[];
  }

  lemma GrownKeys<S>(existing: map<string, S>, present: nat, capacity: int, vacant: S)
    requires existing.Keys == if present == 0 then {} else Keys(present)
    requires present < capacity && |existing| == present
    ensures EnsureTripSeats(existing, capacity, vacant).Keys == Keys(capacity)
  {
    EnsuredKeys(existing, capacity, vacant);
    if present > 0 { SmallerLayoutHasFewerKeys(present, capacity); }
  }

  /** From any prefix layout the number of seats becomes the larger of the two
      (a capacity beyond sixteen is never reached), the rows already there stay
      as they are, and a second call changes nothing. */
  lemma EnsureTripSeatsReachesCapacity<S>(existing: map<string, S>, present: nat, capacity: int, vacant: S)
    requires existing.Keys == if present == 0 then {} else Keys(present)
    requires present <= MAX_SEATS
    ensures var seats := EnsureTripSeats(existing, capacity, vacant);
            && |seats| == (if present >= capacity then present else Clamp(capacity))
            && (forall k | k in existing :: k in seats && seats[k] == existing[k])
            && (forall k | k in seats && k !in existing :: seats[k] == vacant)
            && EnsureTripSeats(seats, capacity, vacant) == seats
  {
    if present > 0 { KeysCardinality(present); }
    assert |existing| == |existing.Keys| == present;
    if present < capacity {
      var seats := EnsureTripSeats(existing, capacity, vacant);
      GrownKeys(existing, present, capacity, vacant);
      KeysCardinality(capacity);
      assert |seats| == |seats.Keys|;
      EnsureKeepsFullLayout(seats, capacity, vacant);
    }
  }
}
