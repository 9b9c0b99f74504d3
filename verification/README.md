# Verified model of the ride-booking backend

This project models the stateful protocols of the booking backend and proves what they keep on every run:

- **Seat inventory** of one published trip: hold creation under a Redis lock, confirm, release, expiry by the API and by the worker, cancellation, and what payments do to bookings. One database transaction is one function on `Inventory`. A transaction that reads a hold and writes later takes the record it read as a parameter, so any other transactions may have committed in between; its guarded writes then apply as a whole or not at all.
- **Money**: payments, intents, cash settlements, fees, driver earnings, payouts, refunds and the double-entry ledger, as `Books`, with the statuses that requests read before their transaction as parameters.
- **Trip operations** on top of the inventory: boarding, trip start PINs, no-shows, start, completion, operational cancellation, and the custody of parcels.
- **Checkout**: payments of bookings with both their sides, finance tables and seats, written in one transaction.
- **Idempotent execution** behind (scope, key) records.

## How it is laid out

| file | content |
|---|---|
| `Tables.dfy` | optional columns, committed or rejected transactions, cardinalities, sums of a column |
| `SeatLayout.dfy` | generated seat layout and its reconciliation with existing seats |
| `SeatInventory.dfy` | the seat tables and one function per transaction, as a state machine |
| `SeatSafety.dfy` | the inductive invariant: no seat is sold twice |
| `SeatLaws.dfy` | stale reads, the availability counter, repeated transactions, what a payment buys |
| `SeatExpiry.dfy` | expiry in any order, by either implementation, in batches of a hundred |
| `SeatRules.dfy` | who may confirm and release, when holds expire, from a request to its confirmation |
| `SeatLeftovers.dfy` | closed bookings that keep seats, on every run |
| `HoldKeys.dfy` | hold creation behind its idempotency key |
| `BookingLock.dfy` | the lock with time, concurrent callers and lock-free transactions |
| `SeatStore.dfy` | the same transactions as methods that update tables in place, proved against `SeatInventory` |
| `Money.dfy` | status tables, fees, the balance check |
| `Finance.dfy` | the finance tables and one function per transaction |
| `FinanceSafety.dfy` | exactly-once effects of payments, payouts and refunds |
| `FinanceLaws.dfy` | debt kept in two places, dead payments, repeated webhooks |
| `FinanceLifecycle.dfy` | payments from creation to success, cash without a driver, earnings from success to payout |
| `FinanceRules.dfy` | exact conditions and effects of the finance transactions |
| `FinanceAccounts.dfy` | the balance of every account on every run |
| `RefundLaws.dfy` | what each step does to refunds, and two refunds outstanding at once |
| `RefundRuns.dfy` | refunds over whole runs, with a worker that writes from old reads |
| `FinanceViews.dfy` | on which runs the ledger and the earnings agree |
| `FinanceRaces.dfy` | successes that work from old records of their payments, over whole runs |
| `FinanceStore.dfy` | finance routes and worker loops as methods, proved against `Finance` |
| `Checkout.dfy` | payments and bookings together: every run is a run of both sides |
| `CheckoutDrivers.dfy` | drivers in that system: who earns, and that every success finds one |
| `CheckoutStore.dfy` | payment routes and the expiry loop over both sets of tables, proved against `Checkout` |
| `Parcels.dfy` | parcel statuses, codes and custody |
| `TripOps.dfy` | operating a trip, as a state machine around `Inventory` |
| `TripSafety.dfy` | the start guard |
| `TripRules.dfy` | boarding codes, PINs, no-shows and the start of a trip |
| `TripCancel.dfy` | operational cancellation, the no-show of a driver, and what follows them |
| `SeatBoarding.dfy` | seats and the counter with boarding and no-shows |
| `SeatClaims.dfy` | one booking per seat and the exact counter on every run whatever |
| `TripCompletion.dfy` | who counts as carried when a trip completes |
| `TripLeftBehind.dfy` | a run from publication on which the start guard is fooled |
| `TripStore.dfy` | trip operations as methods with their loops, proved against `TripOps` |
| `Idempotency.dfy` | idempotent bodies, refund requests and payment intents behind keys |

The `Store` classes hold the tables as fields that methods reassign statement by statement; each method's contract equates the new state with the function of the same transaction, and the laws are proved about those functions. A thrown error is `Rejected` and restores the state the transaction started from.

## What the code does not do

These came out of the proofs. Each is stated as a lemma, with the exact condition under which it happens.

- `docs/architecture/booking-seat-holds.md` (line 21) promises that repeated transitions never double-count inventory. That holds (`SeatLaws.RepeatingChangesNothing`). The counter itself is nevertheless wrong after one transaction: cancelling a booking that was paid for while its hold was ACTIVE counts seats back that were never counted out (`SeatLaws.CounterLawExactly`, `SeatLaws.OvercountFromPublication`). On every run the counter is off by exactly such payments and by no-shows (`SeatClaims.CounterOnEveryRun`).
- A payment that succeeds after its hold ended buys no seat (`SeatLaws.PaymentBuysWhatTheHoldStillHas`).
- Hold creation does not look at the row count of its seat update. If a critical section outlives its lock, two bookings can end CONFIRMED with the same seat BOOKED (`BookingLock.LateWriteIsSafeIffStillFree`, `BookingLock.OverrunningSectionSellsTwice`). Without that race no run sells a seat twice (`SeatClaims.NoSeatIsEverSoldTwice`).
- An online payment for a parcel ordered without a trip raises `driver_earnings_payable` without an earning (`FinanceViews.SuccessKeepsViewsExactly`, `FinanceViews.ViewsPartFromEmptyBooks`). If every parcel has a driver, ledger and earnings agree on every run (`CheckoutDrivers.EveryPaymentIsClaimed`).
- Cash chosen for such a parcel can be confirmed by nobody and never expires, and every later payment request for the parcel answers with it, online ones too (`FinanceLifecycle.CashRoundTrip`, `FinanceLifecycle.DriverlessCashIsStuck`).
- An online payment created for a booking whose seats are already sold, and not paid in time, expires the booking but not its seats; a cancellation then finds the booking closed, and no seat transaction ever gives the seats back (`SeatLeftovers.UnpaidConfirmedBooking`, `SeatLeftovers.LeftoverSeatIsLost`). No other seat transaction leaves a closed booking with seats (`SeatLeftovers.ClosedBookingsExactly`).
- markPaymentSucceeded updates its payment by id after a status check on an older read: an EXPIRED payment is then overwritten with SUCCEEDED, and its target can have two active payments (`FinanceRaces.DeadUntilRevivedExactly`, `FinanceRaces.StaleSuccessKeepsOneActiveExactly`). Fees, earnings and postings stay single on every run (`FinanceRaces.RunKeepsSound`).
- Two refunds outstanding for one payment are both accepted, and one pass of the worker carries both out in full (`RefundLaws.RequestIsWithinBoundsExactly`, `RefundLaws.TwoRequestsRefundTwice`).
- Cancelling a booking, or creating a payment for it, while its passengers are on board makes the start guard compare the wrong numbers (`TripSafety.SeatStepKeepsSubExactly`, `TripLeftBehind.LeftBehindFromPublication`). The completion summary then counts a passenger who was left behind, unless that booking is cancelled before completion (`TripCompletion.SummaryCountsExactly`).
- Operational cancellation does not reach bookings on hold or waiting for payment. A later payment, or the creation of a cash payment, confirms them on a cancelled trip (`TripCancel.PaidAfterCancellationExactly`, `TripCancel.CashAfterCancellationExactly`); after the no-show of a driver a cash payment confirms even the bookings marked NO_SHOW_DRIVER.
- The no-show of a driver checks no transition: it cancels a completed trip as well, and it leaves the trip's parcels active (`TripCancel.EndedTripChangesExactly`, `TripCancel.DriverNoShowExactly`).
- A no-show frees its seats without counting them back (`SeatBoarding.NoShowCostsItsSeats`).
- A confirm that arrives too late expires overdue holds and then throws, which undoes that expiry (`SeatExpiry.LateConfirmLosesItsSweep`).

## Model

| member | source | states |
|---|---|---|
| SeatLayout.GenerateSeatLayout | packages/validation/src/index.ts:555-573 | the push loop yields the layout of the clamped count, seat by seat |
| SeatLayout.SeatKeyIdentifiesIndex | packages/validation/src/index.ts:560-569 | no two positions of any layout share a seat key |
| SeatLayout.CellsAndIndicesCorrespond | packages/validation/src/index.ts:557-564 | (row, column) and index determine each other |
| SeatLayout.SeatIsNamedByItsPlace | packages/validation/src/index.ts:555-573 | seat 0 is in front; seats 2k - 1 and 2k are the left and right one of row k, and those of the first row are rear seats |
| SeatLayout.DecimalReads | packages/validation/src/index.ts:560-563 | the row number in a key reads as the row |
| SeatLayout.SmallerLayoutIsPrefix | packages/validation/src/index.ts:555-573 | a smaller layout is a prefix of a larger one |
| SeatLayout.KeysCardinality | packages/validation/src/index.ts:556-573 | a layout has exactly as many distinct keys as its count, at least 1 and at most 16 |
| SeatLayout.EnsureStaysWithinCapacity | apps/api/src/main.ts:3132-3183 | reconciliation keeps existing seats and their status, adds free ones, and never exceeds the capacity |
| SeatLayout.EnsureTripSeatsReachesCapacity | apps/api/src/main.ts:3132-3183 | from any prefix layout the number of seats becomes the larger of the two, existing rows stay, and a second call changes nothing |
| SeatSafety.SoldOnce | apps/api/src/main.ts:5390-5547 | a seat has at most one live booking row, one exactly when it is HELD or BOOKED, and a HELD row belongs to an ACTIVE hold of its booking |
| SeatSafety.CountsProveOwnership | apps/api/src/main.ts:10458-10490 | if the row count of a confirm comes out right, its hold is still ACTIVE and owns every seat, however old the record it read |
| SeatSafety.ReleaseHoldKeepsValid | apps/api/src/main.ts:5390-5418 | the claimed release keeps the invariant, with any stale read |
| SeatSafety.SweepKeepsValid | apps/api/src/main.ts:5420-5445 | so does a sweep over any batch of records |
| SeatSafety.CancelKeepsValid | apps/api/src/main.ts:5462-5547 | so does a cancellation by any role |
| SeatSafety.PaymentSucceededKeepsValid | apps/api/src/main.ts:9507-9527 | so does a payment success, the hold ACTIVE or not |
| SeatSafety.PaymentExpiredKeepsValid | apps/worker/src/maintenance.ts:79-110 | so does a stale payment's expiry |
| SeatSafety.PlaceHoldIsSafeIffSeatsAreFree | apps/api/src/main.ts:10268-10345 | the unchecked writes of hold creation keep the invariant exactly when every seat is still AVAILABLE |
| SeatSafety.CreateHoldKeepsValid | apps/api/src/main.ts:10222-10345 | hold creation as one transaction, sweep included, keeps the invariant |
| SeatSafety.ConfirmKeepsValid | apps/api/src/main.ts:10390-10510 | confirm keeps the invariant with any stale read |
| SeatSafety.StepKeepsValid | apps/api/src/main.ts:5390-5547 | every transaction on seats keeps the invariant and every record that was read stays a possible read |
| SeatSafety.RunKeepsValid | apps/api/src/main.ts:10209-10577 | so does every run, in any order and with any stale reads |
| SeatSafety.PublishedIsValid | apps/api/src/main.ts:6213-6224 | a freshly published trip satisfies the invariant |
| SeatLaws.CountsMatchIffActive | apps/api/src/main.ts:10458-10475 | the two row counts of a confirm are right if and only if the hold is ACTIVE |
| SeatLaws.ConfirmAfterStaleRead | apps/api/src/main.ts:10400-10490 | a confirm of a hold read ACTIVE commits if and only if it still is, the caller is its client, it was not due and the passengers are those of the booking; it books exactly the seats of that hold and moves nothing else |
| SeatLaws.StaleConfirm | apps/api/src/main.ts:10400-10490 | the same over a run, for any caller, time and number of passengers: read, any transactions, confirm |
| SeatLaws.StaleRelease | apps/api/src/main.ts:5396-5418 | the version claim succeeds exactly when the hold is field for field what was read; it then frees that hold's seats and no others |
| SeatLaws.SeatCountAloneIsFooled | apps/api/src/main.ts:10458-10475 | after another client re-held the seats the seat count of a late confirm is right and the row count is zero |
| SeatLaws.ReleaseEndsBookingExactly | apps/api/src/main.ts:10534-10569 | a client's release ends the booking exactly when the hold is still the record that was read; otherwise nothing changes |
| SeatLaws.HoldGrantedExactly | apps/api/src/main.ts:10253-10277 | a hold is granted exactly when the request names one seat, or as many as passengers, or is for the whole car, and all seats asked for are AVAILABLE |
| SeatLaws.GrantedHoldHasItsSeats | apps/api/src/main.ts:10278-10345 | a granted hold has exactly the seats asked for, its booking the client and the number of passengers of the request; no other hold, booking, row, seat or counter moves |
| SeatRules.HoldRoundTrip | apps/api/src/main.ts:10222-10490 | from request to confirmation, with any transactions in between: a granted hold can be confirmed exactly by the client who asked, for as many passengers as he asked for, before it expires and while it is ACTIVE |
| SeatRules.ConfirmExactly | apps/api/src/main.ts:10390-10475 | for any caller, time and old record: a confirm commits exactly for the client of the hold, again if he read it confirmed, else if it was read ACTIVE and not due, is still ACTIVE and the passengers match; anybody else finds no hold |
| SeatRules.ReleaseExactly | apps/api/src/main.ts:10534-10569 | a release commits exactly for the client of the hold, and changes something exactly if the hold is ACTIVE and still the record that was read |
| SeatRules.MissingSeatsAreFree | apps/api/src/main.ts:3132-3183 | the seats a hold request adds to a trip are AVAILABLE and the others stay |
| SeatLaws.CancelIsAllowedExactly | apps/api/src/main.ts:5462-5493 | a client can cancel exactly his own booking, a driver or administrator any; a closed booking is left as it is |
| SeatLaws.CancelFreesExactlyItsSeats | apps/api/src/main.ts:5480-5534 | a cancellation frees exactly the seats of the HELD and BOOKED rows of the booking, ends its ACTIVE hold, says who cancelled, and touches nobody else |
| SeatLaws.CounterLawExactly | apps/api/src/main.ts:5494-5519 | every transaction moves the counter with the BOOKED seats, except exactly the cancellation of a booking paid for while on hold |
| SeatLaws.CounterOnRuns | apps/api/src/main.ts:10458-10485 | on every run without such a cancellation the counter is capacity less BOOKED seats and stays in [0, capacity] |
| SeatLaws.PaidThenCancelledOvercounts | apps/api/src/main.ts:9520-9527 | paid while ACTIVE and then cancelled, a booking counts back all its seats although none was counted out |
| SeatLaws.OvercountFromPublication | apps/api/src/main.ts:5494-5519 | a run of four steps from publication, the start of an online payment among them, after which a trip with one seat counts two |
| SeatLaws.RepeatingChangesNothing | apps/api/src/main.ts:5390-5547 | repeating a confirm, release, expiry or cancellation changes nothing, even from the same stale record |
| SeatLaws.PaymentBuysWhatTheHoldStillHas | apps/api/src/main.ts:9507-9527 | a payment books exactly the rows its ACTIVE hold still has; after the hold ended it buys no seat |
| SeatRules.PaymentSucceededExactly | apps/api/src/main.ts:9507-9527 | a success confirms exactly a draft, held, unapproved or unpaid booking, books its HELD rows, confirms its ACTIVE hold and moves nothing else |
| SeatRules.PaymentStartedExactly | apps/api/src/main.ts:9299-9320 | a payment can be started exactly for a booking that is not closed, which then waits for it, or is confirmed for cash |
| SeatRules.PaymentExpiredExactly | apps/worker/src/maintenance.ts:97-110 | the expiry of a payment ends exactly a booking that waits for it and the hold that was found, and frees that hold's seats |
| SeatRules.ApproveExactly | apps/api/src/main.ts:5575-5600 | a driver approves exactly bookings waiting for it, and confirmed ones again |
| SeatLeftovers.ExpiryLeavesSeatsExactly | apps/worker/src/maintenance.ts:97-110 | the expiry of a payment leaves an EXPIRED booking with live rows exactly when the booking was PAYMENT_PENDING, or EXPIRED before, and had BOOKED rows |
| SeatLeftovers.UnpaidConfirmedBooking | apps/api/src/main.ts:9615-9623 | from any booking with a BOOKED row that is not closed: an online payment created and expired leaves it EXPIRED with seats, rows and counter unmoved, and a cancellation by anyone then changes nothing |
| SeatLeftovers.LeftoverSeatIsLost | apps/api/src/main.ts:5486-5493 | on every later run of seat transactions that booking stays EXPIRED and its seat sold to it |
| SeatLeftovers.StepIsCleanExactly | apps/worker/src/maintenance.ts:97-110 | a seat transaction leaves a closed booking with live rows exactly when it expires the payment of a PAYMENT_PENDING booking with BOOKED rows |
| SeatLeftovers.ClosedBookingsExactly | apps/api/src/main.ts:5390-5547 | on every run a cancelled or EXPIRED booking ends with a live row exactly when such an expiry happened to it on the way |
| HoldKeys.OneHoldPerKey | apps/api/src/main.ts:10225-10240 | one hold per key: a repeated request, after any others, expires what is overdue, is answered with the first hold and creates none; another payload is turned down |
| HoldKeys.RequestGrantedExactly | apps/api/src/main.ts:10222-10277 | under a fresh key a hold is granted exactly if the trip is open and not the client's own, the selection fits and all its seats are AVAILABLE after the sweep |
| SeatExpiry.SweepExpiresAtOnce | apps/api/src/main.ts:5420-5445 | a sweep equals the simultaneous expiry of its batch |
| SeatExpiry.ExpiryOrderDoesNotMatter | apps/worker/src/maintenance.ts:35-64 | any order and either implementation give the same seats, rows, holds and bookings |
| SeatExpiry.PassShrinksOverdue | apps/worker/src/maintenance.ts:35-64 | one pass removes exactly its batch from the overdue holds |
| SeatRules.PassExpiresExactly | apps/api/src/main.ts:5420-5445 | a pass expires only ACTIVE holds whose time has come, every one of them if there are at most 100, and leaves all other holds as they are |
| SeatRules.UnexpiredHoldSurvives | apps/worker/src/maintenance.ts:35-64 | a hold before its time outlives every pass unchanged, with its seats, rows and booking |
| SeatExpiry.LateConfirmLosesItsSweep | apps/api/src/main.ts:10416-10422 | a late confirm is rejected and changes nothing, although the sweep it ran would have changed something whenever a hold was overdue |
| SeatExpiry.PassesDrain | apps/worker/src/maintenance.ts:35-64 | k passes of at most 100 leave exactly max(0, n - 100 k) of n overdue holds |
| BookingLock.LockKey.SetIfAbsent | apps/api/src/main.ts:3109-3118 | SET NX PX: taken exactly when no unexpired key is there |
| BookingLock.LockKey.DeleteIfEqual | apps/api/src/main.ts:3121-3129 | compare-and-delete removes the key exactly when it is unexpired and the caller's own |
| BookingLock.LockLastsExactly | apps/api/src/main.ts:3109-3130 | a lock that was taken keeps everyone else out for exactly its time, unless its own token releases it |
| BookingLock.LateReleaseSparesSuccessor | apps/api/src/main.ts:3121-3129 | a late release leaves a successor's lock and key alone |
| BookingLock.OneHolderPerTrip | apps/api/src/main.ts:3109-3130 | at most one caller is inside with an unexpired lock |
| BookingLock.OthersTakeNoFreeSeat | apps/api/src/main.ts:5390-5547 | no transaction outside the lock takes an AVAILABLE seat |
| BookingLock.TimelySectionsAreSafe | apps/api/src/main.ts:10222-10345 | if critical sections write within the lock time, on every run of callers, lock-free transactions and time the inventory stays valid and chosen seats stay AVAILABLE until written |
| BookingLock.LateWriteIsSafeIffStillFree | apps/api/src/main.ts:10268-10345 | without that, the write is safe exactly when the seats are still free |
| BookingLock.OverrunningSectionSellsTwice | apps/api/src/main.ts:3109-3130 | the run in which a caller outlives its lock: two bookings hold one seat, one is confirmed, the other starts an online payment and pays, and both are CONFIRMED with that seat BOOKED |
| SeatStore.Store.UpdateSeats | apps/api/src/main.ts:10458-10466 | guarded seat update with its row count |
| SeatStore.Store.ReleaseActiveSeatHold | apps/api/src/main.ts:5390-5418 | releases exactly when the ACTIVE status and the version still match, and says so |
| SeatStore.Store.QueryOverdue | apps/api/src/main.ts:5420-5432 | returns distinct overdue holds, all of them up to the limit of 100 |
| SeatStore.Store.ExpireSeatHolds | apps/api/src/main.ts:5420-5445 | the loop expires its whole batch, keeps the invariant and counts exactly what it removed |
| SeatStore.Store.TryBook | apps/api/src/main.ts:10458-10490 | books the hold if both counts match, otherwise leaves the state as it was |
| SeatStore.Store.ConfirmHold | apps/api/src/main.ts:10390-10510 | the confirm handler, all error branches included, the sweep that a late confirm runs and loses among them |
| SeatStore.Store.DeleteHold | apps/api/src/main.ts:10534-10577 | the client's release handler |
| SeatStore.Store.PlaceNewHold | apps/api/src/main.ts:10222-10370 | hold creation with its sweep, the lookup and the writing of its idempotency record, rolled back on every rejection |
| SeatStore.Store.Cancel | apps/api/src/main.ts:5462-5547 | cancelBooking, its authorisation and its closed statuses included |
| SeatStore.Store.StartPayment | apps/api/src/main.ts:9615-9623 | the booking write of payment creation |
| SeatStore.Store.MarkPaid | apps/api/src/main.ts:9507-9527 | the booking writes of a payment success |
| SeatStore.Store.ExpirePaid | apps/worker/src/maintenance.ts:97-110 | the booking writes of a stale payment's expiry, for the ACTIVE hold found first |
| Money.TransitionsAreOneWay | packages/payments/src/index.ts:224-241 | along any path of legal transitions paid stays paid, inactive stays inactive, and FAILED, CANCELLED and EXPIRED are final |
| FinanceRules.PaymentMovesExactly | packages/payments/src/index.ts:224-241 | the payment table read backwards: what each status can come from |
| FinanceRules.IntentMovesExactly | packages/payments/src/index.ts:243-266 | the intent table read backwards |
| Money.FeeIsCeiling | packages/payments/src/index.ts:181-185 | the percentage fee is the exact ceiling of amount times bps over 10000, and at most the amount up to 10000 bps |
| Money.SplittingCostsAtMostRounding | packages/payments/src/index.ts:181-185 | n fees exceed the fee of the sum by at most n - 1 and never fall below it |
| Money.AssertBalancedLedger | packages/payments/src/index.ts:268-283 | accepts exactly two or more positive entries whose debits equal credits |
| Money.SplitIsExact | apps/api/src/main.ts:9448-9457 | for a positive amount the capped fee is the priced fee, between 1 and the amount, and the net is zero only for an amount of one |
| FinanceRules.FeeIsATenth | apps/api/src/main.ts:9448-9457 | the platform fee is a tenth of the payment, rounded up, and fee and net add up to it |
| Money.SuccessPostingBalances | apps/api/src/main.ts:9486-9506 | the filtered posting of a success passes the balance check exactly when the amount is positive, a net of zero included |
| FinanceSafety.SuccessExactly | apps/api/src/main.ts:9440-9506 | markPaymentSucceeded commits exactly on paid payments and on positive ones that may become SUCCEEDED; no unique index or balance check ever stops it |
| FinanceSafety.SuccessEffect | apps/api/src/main.ts:9446-9506 | a paid payment is left alone; a first success writes exactly one fee, one posting and at most one earning |
| FinanceSafety.WebhookKeepsBooks | apps/api/src/main.ts:9816-9831 | any webhook, with any status read before and any duplicate, keeps the invariant of the books |
| FinanceRules.WebhookExactly | apps/api/src/main.ts:9800-9831 | a webhook for an unknown intent or a duplicate changes nothing; any other commits exactly if the status posted is the one read or may follow it and a SUCCEEDED one finds a payment that can succeed |
| FinanceSafety.ConfirmCashKeepsBooks | apps/api/src/main.ts:9896-9940 | so does any cash confirmation, whoever confirms |
| FinanceRules.CashExactly | apps/api/src/main.ts:9896-9940 | a confirmation or denial commits exactly for the driver of the settlement, again after CONFIRMED, else from OPEN or DECLARED if the payment can succeed; the settlement then says what was received |
| FinanceRules.DenialMovesNothing | apps/api/src/main.ts:9917-9937 | a denial marks the settlement DISPUTED with nothing received and moves no money |
| FinanceSafety.CreatePaymentKeepsBooks | apps/api/src/main.ts:9590-9614 | creation after its lookup keeps at most one active payment per target |
| FinanceRules.CreationExactly | apps/api/src/main.ts:9600-9660 | without an active payment one is created exactly under fresh ids: CREATED with the intent of the provider, or PROCESSING with a DECLARED settlement for the driver |
| FinanceSafety.ExpireStaleKeepsBooks | apps/worker/src/maintenance.ts:79-95 | expiry of a payment and its open intents keeps the invariant |
| FinanceRules.StalePassExactly | apps/worker/src/maintenance.ts:66-87 | a pass expires only online payments that are open and more than thirty minutes old, every one of them if there are at most 50, and leaves all others as they are |
| FinanceRules.ExpiryTakesIntents | apps/worker/src/maintenance.ts:79-95 | the expiry of a payment takes exactly its open intents with it |
| FinanceSafety.ClaimIsAllOrNothing | apps/api/src/main.ts:9978-10037 | a payout is created exactly when the selected earnings are distinct, each of that driver, AVAILABLE and in no payout; then it has all of them and their net as gross |
| FinanceSafety.PayoutIsDebitedOnce | apps/api/src/main.ts:10045-10090 | setting a payout's status never fails, and debits it and pays its earnings only the first time it is PAID |
| FinanceSafety.ProcessRefundKeepsBooks | apps/worker/src/main.ts:354-428 | one round of the refund loop, with an old payment record, keeps the invariant |
| FinanceRules.RequestExactly | apps/api/src/main.ts:9846-9871 | a refund can be requested exactly of a SUCCEEDED or PARTIALLY_REFUNDED payment for at most what is left, by default all of it, and has just that amount |
| FinanceSafety.StepKeepsBooks | apps/api/src/main.ts:9440-9506 | every finance transaction keeps the invariant, with or without the count of active payments; money that came in stays in, and target, method and amount of a payment never change |
| FinanceSafety.RunKeepsBooks | apps/api/src/main.ts:9440-9506 | on every run each payment has one fee and one PAYMENT posting exactly when paid, at most one earning, at most one active payment per target, postings balance, payouts are disjoint sums over earnings of their own driver, and a SUCCEEDED intent has a paid payment |
| FinanceSafety.EmptyBooksAreOk | apps/api/src/main.ts:9440-9506 | the empty books satisfy the invariant |
| FinanceLaws.RunKeepsMirror | apps/api/src/main.ts:9458-9506 | on every run the balance of driver_earnings_payable is the net of earnings not yet PAID plus the net of paid payments without an earning |
| FinanceAccounts.RunKeepsAccounts | apps/api/src/main.ts:9486-9506 | on every run cash_receivable is owed exactly what was paid in cash, provider_clearing what was paid online, platform_fee_revenue has the fees, cash_or_bank gave the payouts whose earnings are PAID, and provider_cash, on account of client_refunds, the refunds carried out |
| FinanceAccounts.SuccessNet | apps/api/src/main.ts:9486-9506 | what a success posts to each account: cash to cash_receivable, online to provider_clearing |
| FinanceAccounts.EmptyBooksHaveNoRefunds | apps/api/src/main.ts:9381-9420 | the empty books satisfy the premise of that |
| FinanceLaws.ViewsAgreeExactly | apps/api/src/main.ts:9470-9506 | so the two views agree exactly when every paid payment worth more than its fee has an earning |
| FinanceLaws.OrphanedExactly | apps/api/src/main.ts:9422-9438 | a first success leaves its net without an earning exactly when no driver was found and the amount is more than one |
| FinanceViews.RunKeepsViewsEqual | apps/api/src/main.ts:9458-9506 | from agreeing books, on every run whose webhooks find a driver, the balance of driver_earnings_payable is the net of the earnings not yet PAID |
| FinanceViews.SuccessKeepsViewsExactly | apps/api/src/main.ts:9468-9506 | from agreeing books a first success keeps the views equal exactly when it finds a driver or the amount is at most one |
| FinanceViews.ViewsPartFromEmptyBooks | apps/api/src/main.ts:9422-9438 | a run of two steps from empty books, an online payment for a parcel ordered without a trip, after which the views differ |
| FinanceLaws.EmptyBooksMirror | apps/api/src/main.ts:9381-9420 | the empty books agree |
| FinanceLaws.DebitsEqualCredits | apps/api/src/main.ts:9381-9420 | over the whole ledger debits equal credits |
| FinanceLaws.PayoutsAreDisjoint | apps/api/src/main.ts:9993-10030 | no earning is in two payouts |
| FinanceLaws.DeadStaysDead | packages/payments/src/index.ts:224-241 | an EXPIRED, FAILED or CANCELLED payment keeps its status on every run |
| FinanceLaws.SecondDeliveryChangesNothing | apps/api/src/main.ts:9816-9831 | delivering a webhook again changes nothing, recognised as duplicate or not |
| FinanceRaces.CurrentReadIsAtomic | apps/api/src/main.ts:9440-9506 | with a current read the two-phase success is the atomic one |
| FinanceRaces.StaleSuccessExactly | apps/api/src/main.ts:9445-9466 | from an open record of a positive payment the success commits exactly when the payment is not paid by now; a second success fails on the unique indexes |
| FinanceRaces.StaleSuccessKeepsMoney | apps/api/src/main.ts:9445-9506 | however old the record, fees, earnings, payouts, postings and refunds stay in order, one of each per payment; paid payments stay paid |
| FinanceRaces.DeadIsOverwrittenExactly | apps/api/src/main.ts:9445-9464 | an EXPIRED, FAILED or CANCELLED payment becomes SUCCEEDED exactly when the record read was still open and its amount is positive |
| FinanceRaces.StaleSuccessKeepsOneActiveExactly | apps/api/src/main.ts:9445-9464 | one active payment per target survives exactly when no other became active meanwhile |
| FinanceRaces.CurrentRecordsAreSteps | apps/api/src/main.ts:9816-9831 | with current records the webhook and the cash confirmation of the racing system are the transactions of Finance |
| FinanceRaces.RunKeepsSound | apps/api/src/main.ts:9440-9506 | on every run on which successes go on from any earlier record, with every other transaction in between: one fee and one posting exactly when paid, at most one earning, balanced postings, and money that came in stays in |
| FinanceRaces.DeadUntilRevivedExactly | apps/api/src/main.ts:9445-9464 | on every such run a dead payment ends paid exactly when some success of it went on from a record read while it was open, and otherwise keeps its status |
| FinanceRaces.NothingReadIsOk | apps/api/src/main.ts:9440-9446 | empty books with nothing read satisfy that invariant |
| FinanceLifecycle.CashRoundTrip | apps/api/src/main.ts:9896-9940 | a created cash payment can be confirmed exactly when its amount is positive and its target had a driver, who is the one confirming; it is then settled and paid in full, split into fee and earning |
| FinanceLifecycle.DriverlessCashIsStuck | apps/worker/src/maintenance.ts:66-76 | a cash payment of a target without a driver stays PROCESSING on every run, and every later creation for that target answers with it and creates nothing |
| FinanceLifecycle.OnlineRoundTrip | apps/api/src/main.ts:9816-9831 | a SUCCEEDED webhook of a created online payment goes through exactly when the amount is positive and the intent open |
| FinanceLifecycle.PayableAfterADay | apps/worker/src/main.ts:430-433 | an earning can be put into a payout exactly from 24 hours after the success on |
| FinanceRules.ReleaseExactly | apps/worker/src/main.ts:430-433 | exactly the PENDING earnings whose day is over become AVAILABLE |
| FinanceLifecycle.PayoutSettlesTheDebt | apps/api/src/main.ts:10045-10090 | paying that payout pays the earning and restores the balance of driver_earnings_payable |
| RefundRuns.CommittedRoundIsCurrent | apps/worker/src/main.ts:360-382 | a round of the worker that commits worked on an outstanding refund and a current refunded amount, however old its read |
| RefundRuns.RunKeepsRefunds | apps/worker/src/main.ts:354-428 | if nobody requests a second refund while one is outstanding, on every run with rounds on any earlier read: refunded is at most paid, equals the refunds carried out, and REFUNDED means in full |
| RefundRuns.EmptySystemIsOk | apps/worker/src/main.ts:354-359 | the empty books with nothing read satisfy that invariant |
| RefundRuns.WorkerTransitionIsLegal | apps/worker/src/main.ts:362-382 | on every such run each status the worker writes is a legal transition |
| RefundLaws.TwoFullRequestsAreAccepted | apps/api/src/main.ts:9846-9871 | two full refund requests of one payment are both accepted |
| RefundLaws.TwoRequestsRefundTwice | apps/worker/src/main.ts:354-428 | one pass over both posts twice the payment while the payment says it was refunded once |
| RefundLaws.RequestIsWithinBoundsExactly | packages/payments/src/index.ts:206-222 | a request keeps refunded plus requested within paid exactly when it leaves room for what is outstanding |
| RefundRuns.DebitsStayWithinPaid | apps/worker/src/main.ts:383-412 | if every accepted request leaves room for all requested before, on every run with any number of refunds outstanding the REFUND debits of a payment never exceed what was paid |
| FinanceStore.PassShrinksStale | apps/worker/src/maintenance.ts:66-95 | a pass over distinct stale payments removes exactly those |
| FinanceStore.PassCarriesOutAll | apps/worker/src/main.ts:354-428 | a pass over freshly read refunds is never cut short and carries out and posts each of them |
| FinanceStore.Store.LedgerPost | apps/api/src/main.ts:9381-9420 | an existing key is left alone; new entries are filtered and must balance |
| FinanceStore.Store.MarkPaymentSucceeded | apps/api/src/main.ts:9440-9506 | the writes of a success, statement by statement |
| FinanceStore.Store.HandleWebhook | apps/api/src/main.ts:9816-9831 | the webhook transaction, rolled back if the payment cannot succeed |
| FinanceStore.Store.ConfirmCashPayment | apps/api/src/main.ts:9896-9940 | the cash confirmation on the finance tables: settlement found by payment and confirming driver, its status checks, then the success, rolled back if that fails |
| FinanceStore.Store.QueryStale | apps/worker/src/maintenance.ts:66-77 | distinct stale payments, all of them up to the limit of 50 |
| FinanceStore.Store.SumOfClaimed | apps/api/src/main.ts:10004-10007 | the gross of a payout is the sum of its earnings' net |
| FinanceStore.Store.CreateDriverPayout | apps/api/src/main.ts:9978-10037 | payout creation with the counted claim, rolled back if it does not match |
| FinanceStore.Store.UpdatePayoutStatus | apps/api/src/main.ts:10045-10090 | status change, earnings and posting of a payout |
| FinanceStore.Store.ProcessRefunds | apps/worker/src/main.ts:354-428 | the refund loop equals the pass and, over freshly read refunds, does all of them |
| FinanceStore.Store.ReleaseDueEarnings | apps/worker/src/main.ts:430-433 | due PENDING earnings become AVAILABLE |
| Checkout.RunProjects | apps/api/src/main.ts:9440-9527 | every run of payments and seats together is a run of the finance tables and a run of the seat tables |
| Checkout.RunKeepsJoint | apps/api/src/main.ts:9615-9623 | so both invariants hold on every such run, and every booking in PAYMENT_PENDING has an open online payment |
| Checkout.WaitingBookingsCanBePaid | apps/worker/src/maintenance.ts:79-110 | on every run from publication the open payment of a booking in PAYMENT_PENDING is its only active one, and none of its payments is SUCCEEDED |
| CheckoutDrivers.EveryPaymentIsClaimed | apps/api/src/main.ts:9422-9438 | if every parcel has a driver, on every run from publication the balance of driver_earnings_payable is the net of the earnings not yet PAID |
| CheckoutDrivers.EarningsGoToTheDriver | apps/api/src/main.ts:9420-9485 | on every run from publication each earning is that of the driver of the trip or of the parcel, and any payout it is in is one to this driver |
| CheckoutDrivers.OnlyTheClientPays | apps/api/src/main.ts:9299-9355 | a payment is created exactly for the client of a booking that is not closed, or for a parcel its check lets through |
| CheckoutStore.Store.CreatePaymentIntent | apps/api/src/main.ts:9585-9660 | payable check, lookup and creation with the booking, the settlement or the intent; answers with an active payment of the target if there is one |
| CheckoutStore.Store.HandleWebhook | apps/api/src/main.ts:9816-9831 | the webhook with everything its success writes, rolled back if the payment cannot succeed |
| CheckoutStore.Store.ConfirmCashPayment | apps/api/src/main.ts:9896-9940 | the cash confirmation with everything its success writes |
| CheckoutStore.Store.ExpireStaleOnlinePayments | apps/worker/src/maintenance.ts:66-125 | the expiry loop with intents, hold and booking is a run of one expiry for each payment it counts; fewer than 50 means none is left stale |
| Parcels.AtMostSixChanges | packages/validation/src/index.ts:878-932 | on every run, stale reads included, a parcel changes its status at most six times and its version counts the changes |
| Parcels.SixChangesHappen | apps/api/src/main.ts:7446-7526 | a run of a new parcel, codes included, with exactly six status changes |
| Parcels.PastIsPossibleRead | apps/api/src/main.ts:4587-4596 | every record of the past satisfies what the model assumes of a stale read |
| Parcels.RunKeepsCustody | apps/api/src/main.ts:7446-7526 | on every run a parcel handed over or further has a VERIFIED handover code, a DELIVERED one a VERIFIED pickup code, at most one code of each kind is ACTIVE, and VERIFIED is never lost |
| Parcels.HandoverExactly | apps/api/src/main.ts:7462-7514 | a driver reading the current parcel gets it handed over exactly when it is ACCEPTED, the newest handover code is ACTIVE and not expired, and the code matches; otherwise nothing changes |
| Parcels.DeliveryExactly | apps/api/src/main.ts:7462-7514 | the same of delivery: READY_FOR_PICKUP, the newest pickup code ACTIVE, not expired and matching |
| Parcels.OnlyCodesMoveParcels | apps/api/src/main.ts:7446-7526 | on every run a parcel comes into custody only if some request gave a matching handover code that was open when read, and is delivered only if some request gave such a pickup code |
| Parcels.NewCodeExactly | apps/api/src/main.ts:4520-4557 | a new code is the only ACTIVE one, until its expiry |
| Parcels.CodesAreIssuedExactly | apps/api/src/main.ts:7381-7402 | codes are issued exactly on submission, on request of an ACCEPTED parcel, and when a parcel is made ready |
| Parcels.MaintenanceExactly | apps/worker/src/main.ts:107-130 | the worker expires exactly day-old drafts, accepted parcels whose trip left, and ACTIVE codes whose time has come |
| Parcels.ActionsExactly | packages/validation/src/index.ts:878-932 | the transition table read the other way: what can be done with a parcel in each status |
| Parcels.NewParcelIsOk | apps/api/src/main.ts:7196-7199 | a new draft satisfies the custody invariant |
| Parcels.TripLoopsNeverFail | apps/api/src/main.ts:4607-4634 | the transitions that trip start and trip cancellation ask of a parcel always go through |
| TripSafety.SeatStepKeepsSubExactly | apps/api/src/main.ts:3740-3795 | while a trip boards, a seat transaction keeps everyone on board in BOARDING exactly when it is not a withdrawal |
| TripSafety.RunKeepsGuard | apps/api/src/main.ts:3705-3862 | on every run without withdrawals boarded bookings are a subset of BOARDING ones |
| TripSafety.NobodyLeftExactly | apps/api/src/main.ts:4217-4248 | given the guard passed, nobody is left in BOARDING exactly when everyone on board was in BOARDING |
| TripSafety.StartIsComplete | apps/api/src/main.ts:4207-4248 | a start without override on such a run: every BOARDING booking was on board with a VERIFIED PIN, all of them departed, none is left |
| TripSafety.WithdrawalFoolsTheGuard | apps/api/src/main.ts:4217-4229 | after one cancellation on board the counts agree, the trip starts and a waiting booking stays behind |
| TripLeftBehind.LeftBehindFromPublication | apps/api/src/main.ts:4217-4248 | a run of possible steps from publication after which the trip starts without override and leaves a booking in BOARDING |
| TripSafety.BoardingBoardsExactly | apps/api/src/main.ts:3784-3795 | boarding puts a booking on board exactly when it has a sold row; its sold rows and their seats become OCCUPIED |
| TripRules.BoardingExactly | apps/api/src/main.ts:3727-3803 | a booking boards exactly when trip and booking are BOARDING and its newest ACTIVE code is not expired and matches; that code is then VERIFIED, and otherwise nothing changes |
| TripRules.RunBoardsByCode | apps/api/src/main.ts:3746-3783 | on every run everyone on board has a VERIFIED boarding code |
| TripRules.NobodyIsOnBoardYet | apps/api/src/main.ts:6213-6224 | a freshly published trip satisfies the premise of that |
| TripRules.CodesAreTheClients | apps/api/src/main.ts:10604-10655 | a client sees or renews exactly the code of his own booking while it boards, and then has one that can be tried |
| TripRules.CodesExpireExactly | apps/worker/src/main.ts:103-106 | the worker expires exactly the ACTIVE boarding codes whose time has come |
| TripRules.StartBoardingExactly | apps/api/src/main.ts:3705-3725 | boarding starts exactly from the open statuses; exactly the CONFIRMED bookings board, each with a code that can be tried |
| TripRules.BoardExactly | apps/api/src/main.ts:3784-3795 | boarding occupies the seats of all rows of the booking and exactly its BOOKED rows |
| TripRules.NoShowExactly | apps/api/src/main.ts:3805-3862 | a client is a no-show exactly while the trip boards and his booking is CONFIRMED, unapproved or BOARDING; then exactly his rows and their seats are given up |
| TripRules.PinIsKeptWhileUsable | apps/api/src/main.ts:3410-3435 | a PIN is replaced exactly when no ACTIVE one of the booking is unexpired, and the booking then has one |
| TripRules.StartExactly | apps/api/src/main.ts:4207-4263 | a trip starts exactly from BOARDING if it may leave passengers behind, or if as many bookings board as are on board and each of these has a VERIFIED PIN; then exactly who is on board departs |
| TripRules.TripActionsExactly | packages/validation/src/index.ts:743-781 | the transition table of trips read the other way |
| TripSafety.RunKeepsPins | apps/api/src/main.ts:3377-3435 | on every run a booking has at most one ACTIVE PIN |
| TripSafety.VerifiedExactly | apps/api/src/main.ts:3437-3493 | a booking gets its first VERIFIED PIN exactly when it is boarding, on board, and its ACTIVE PIN is unexpired and matches |
| TripSafety.PublishedTripIsOk | apps/api/src/main.ts:6213-6224 | a freshly published trip satisfies the guard's invariant |
| TripCancel.CancellationIsComplete | apps/api/src/main.ts:4309-4347 | operational cancellation succeeds exactly in the operational statuses; exactly the active bookings, in the name of who cancels, the active parcels and the seats in use are cancelled and freed |
| TripCancel.EndedTripsStay | packages/validation/src/index.ts:743-781 | no action of the transition table leads out of a CANCELLED, COMPLETED or EXPIRED trip |
| TripCancel.DriverNoShowExactly | apps/api/src/main.ts:11237-11283 | the no-show of a driver cancels a trip in any status, marks exactly its active bookings, frees exactly its seats in use and leaves its parcels as they were |
| TripCancel.EndedTripChangesExactly | apps/api/src/main.ts:11252-11262 | no step of a trip changes the status of an ended trip, except a no-show of its driver, which does so exactly when it is not cancelled yet |
| TripCancel.SeatStepMovesNothing | apps/api/src/main.ts:10458-10475 | with no seat in use, no confirm, release, expiry, cancellation or payment moves a seat |
| TripCancel.CancelledTripKeepsItsSeatsFree | apps/api/src/main.ts:10235-10257 | on every run after a cancellation or a no-show of the driver no seat of the trip changes |
| TripCancel.PaidAfterCancellationExactly | apps/api/src/main.ts:3629-3635 | after either a payment confirms a booking exactly when it was a draft, on hold or waiting for payment |
| TripCancel.CashAfterCancellationExactly | apps/api/src/main.ts:9299-9320 | after either the creation of a cash payment confirms a booking exactly when it was not closed and was not cancelled by a role |
| SeatBoarding.StepCommutes | apps/api/src/main.ts:5390-5547 | every seat transaction, payments and approval included, commutes with reading OCCUPIED as BOOKED, unless it cancels a booking on board |
| SeatBoarding.BoardIsInvisible | apps/api/src/main.ts:3781-3791 | boarding a booking whose rows are sold changes nothing under that reading |
| SeatBoarding.NoShowCostsItsSeats | apps/api/src/main.ts:3835-3847 | a no-show takes exactly its seats out of the count |
| SeatBoarding.CancelOnBoard | apps/api/src/main.ts:5488-5519 | cancelling a booking on board changes its status and nothing else |
| SeatBoarding.PaymentKeepsBoardingExactly | apps/api/src/main.ts:9507-9527 | a payment keeps seats, rows and counter in agreement exactly when what it confirms has sold rows only |
| SeatBoarding.RunKeepsBoarding | apps/api/src/main.ts:3705-3862 | on every run, approvals and payments for sold rows included, rows and seats agree and the counter is bounded |
| SeatBoarding.CounterBound | apps/api/src/main.ts:3788-3842 | the counter is at most capacity less BOOKED and OCCUPIED seats, and sold rows of one seat are one row |
| SeatBoarding.PublishedMayBoard | apps/api/src/main.ts:6213-6224 | a freshly published trip satisfies that invariant |
| SeatClaims.NoSeatIsEverSoldTwice | apps/api/src/main.ts:5390-5547 | on every run from publication, with all payments and the operational cancellation, at most one HELD, BOOKED or OCCUPIED row per seat |
| SeatClaims.StepCountsExactly | apps/api/src/main.ts:3835-3847 | every step moves the counter with the sold rows, but for exactly the rows a payment sells on hold and a no-show gives up |
| SeatClaims.CounterOnEveryRun | apps/api/src/main.ts:10482-10485 | on every run from publication counter plus sold rows is the capacity, plus uncounted sales, less uncounted returns |
| TripStore.Store.MoveConfirmedToBoarding | apps/api/src/main.ts:3712-3723 | exactly the CONFIRMED bookings are put into BOARDING, one by one, each provided with a code |
| TripStore.Store.BeginBoarding | apps/api/src/main.ts:3705-3725 | start of boarding |
| TripStore.Store.BoardPassenger | apps/api/src/main.ts:3727-3803 | boarding with the newest ACTIVE boarding code |
| TripStore.Store.ProvideCode | apps/api/src/main.ts:3604-3627 | the newest ACTIVE code if it can be tried, else a new one |
| TripStore.Store.ExpireOverdueCodes | apps/worker/src/main.ts:103-106 | the worker's bulk update of boarding codes |
| TripStore.Store.ShowBoardingCode | apps/api/src/main.ts:10604-10655 | a client asks for the code of his booking, or a new one |
| TripStore.Store.ClientNoShow | apps/api/src/main.ts:3805-3862 | no-show of a client |
| TripStore.Store.TransitionParcel | apps/api/src/main.ts:4559-4605 | a parcel transition on a record read in the same transaction |
| TripStore.Store.CancelActiveParcels | apps/api/src/main.ts:4607-4634 | the loop cancels exactly the active parcels and never fails |
| TripStore.Store.LoadParcels | apps/api/src/main.ts:4249-4254 | the loop moves exactly the handed-over parcels into transit |
| TripStore.Store.StartOperation | apps/api/src/main.ts:4207-4263 | trip start with both counting guards |
| TripCompletion.CompletionExactly | apps/api/src/main.ts:4265-4275 | completion succeeds exactly on a trip in progress or completed, and completes exactly the bookings underway or left in BOARDING |
| TripCompletion.SummaryCountsExactly | apps/api/src/main.ts:4276-4290 | whatever happens before the start and between start and completion: the summary counts the bookings in BOARDING at the start that have not left since, those on board at the start are underway and the others still in BOARDING, so it counts only passengers exactly when nobody is left in BOARDING |
| TripStore.Store.CancelOperational | apps/api/src/main.ts:4309-4347 | operational cancellation |
| TripStore.Store.MarkDriverNoShow | apps/api/src/main.ts:11237-11283 | no-show of a driver |
| Idempotency.CommitsAtMostOnce | apps/api/src/main.ts:5200-5230 | over any sequence of requests and other writes the body behind a key commits at most once and every success returns the first response |
| Idempotency.RejectionExactly | apps/api/src/main.ts:5206-5230 | a request is rejected exactly on a payload mismatch or a failing body, and then nothing changes |
| Idempotency.OneRefundPerKey | apps/api/src/main.ts:9837-9876 | one refund per key: later requests answer with the first refund and add none |
| Idempotency.ImplicitAnswersActive | apps/api/src/main.ts:9697-9744 | intent creation without a client key always answers with an active payment |
| Idempotency.ImplicitIsStable | apps/api/src/main.ts:9697-9744 | repeating it at once answers with the same payment and changes nothing; another payload is rejected |
| Idempotency.ExplicitAnswersActiveExactly | apps/api/src/main.ts:9690-9696 | with a client key it answers with an active payment exactly when the recorded one still is |

## Left out

- HTTP, authentication, schemas, serialisation, queues, audit and analytics rows, signatures and hashing: ids and code matches are parameters, time is a parameter.
- Several trips at once: every transaction on seats names one trip, so one trip is modelled; a hold always carries its booking.
- Unpublishing and republishing, blocking, expiry of old trips and the plain trip-cancel route: publication is the initial state.
- Version columns of seats, trips and bookings that no modelled guard reads; the version guard of a trip transition is covered by modelling trip operations as one atomic step each.
- Interleavings inside cancelBooking, inside trip operations, inside the lookup before payment creation and, but for FinanceRaces, inside a payment success: each is one atomic step.
- Interleaving of hold creation with an operational trip cancellation: creation reads the trip and writes in one step.
- SeatStore.Store.PlaceNewHold: what the trip lookup finds (an open trip, the client's own, none) is a parameter; its idempotency record is kept.
- BookingLock.TimelySectionsAreSafe: the expiry sweep at the head of hold creation is a lock-free step of its own, because it takes no AVAILABLE seat.
- Attempt counters and lockouts of boarding codes, PINs and parcel codes: a failing attempt throws and undoes its own counter.
- SeatBoarding.RunKeepsBoarding: excludes payments that confirm seats not yet sold, which break the agreement by `SeatBoarding.PaymentKeepsBoardingExactly`, the operational cancellation and the no-show of a driver; SeatClaims covers all three.
- RefundRuns.RunKeepsRefunds: assumes at most one outstanding refund per payment, which the code does not enforce; `RefundRuns.DebitsStayWithinPaid` and `RefundLaws.TwoRequestsRefundTwice` cover several.
- FinanceSafety.SuccessExactly: takes the payment read inside the transaction as current, as the runs of FinanceSafety do; FinanceRaces states successes from old reads, one by one and over runs.
- FinanceLaws.DeadStaysDead: takes that read as current too; `FinanceRaces.DeadUntilRevivedExactly` covers every read. Intents of dead payments may still be moved by webhooks.
- TripCancel.CancelledTripKeepsItsSeatsFree: speaks of seats; holds and booking rows are not updated by the cancellation and are not claimed to agree with the seats afterwards.
- Reversed earnings and authorised-only payments: no modelled route produces them. In Finance the driver found for a payment is a parameter of its success; in Checkout it is the driver of the trip or the parcel, which never change.
- The payable check of parcels in Checkout is a parameter; their statuses are those of Parcels.
- SeatLeftovers.LeftoverSeatIsLost: speaks of transactions on seats; the cancellation of the whole trip, or the no-show of its driver, frees every seat.
- Rewards, reviews, ratings, chat, notifications, support, verification of drivers and vehicles, search and sorting: separate features with simpler state.
