/** Idempotent execution: a body runs under a (scope, key) and its first answer
    is recorded with a hash of the payload. The unique index on (scope, key) makes
    concurrent first requests behave like requests one after the other. */
module Idempotency {
  import opened Tables
  import opened Money
  import opened Finance
  import FinanceSafety

  datatype Key = Key(scope: string, key: string)

  datatype Record<+R> = Record(hash: string, response: R)

  datatype Database<+S, +R> = Database(records: map<Key, Record<R>>, state: S)

  datatype Answer<+S, +R> = Answer(after: Database<S, R>, response: R)

  /** What a body does to the rest of the database, and what it answers. */
  datatype Done<+S, +R> = Done(state: S, response: R)

  datatype Request<!S, !R> =
    | Keyed(key: Key, hash: string, body: S -> Tx<Done<S, R>>)
    | Unrelated(change: S -> S)

  function EnsureIdempotency<S, R>(db: Database<S, R>, key: Key, hash: string, body: S -> Tx<Done<S, R>>)
    : Tx<Answer<S, R>>
  {
    if key in db.records then
      if db.records[key].hash != hash then Rejected("IDEMPOTENCY_PAYLOAD_MISMATCH")
      else Committed(Answer(db, db.records[key].response))
    else
      match body(db.state)
      case Rejected(code) => Rejected(code)
      case Committed(done) =>
        Committed(Answer(Database(db.records[key := Record(hash, done.response)], done.state), done.response))
  }

  function Apply<S, R>(db: Database<S, R>, request: Request<S, R>): Database<S, R> {
    match request
    case Unrelated(change) => db.(state := change(db.state))
    case Keyed(key, hash, body) =>
      match EnsureIdempotency(db, key, hash, body)
      case Committed(answer) => answer.after
      case Rejected(_) => db
  }

  function Exec<S, R>(db: Database<S, R>, requests: seq<Request<S, R>>): Database<S, R>
    decreases |requests|
  {
    if requests == [] then db else Exec(Apply(db, requests[0]), requests[1..])
  }

  /** The body behind the key runs to its end in this request. */
  predicate BodyCommits<S, R>(db: Database<S, R>, request: Request<S, R>, key: Key) {
    request.Keyed? && request.key == key && key !in db.records && request.body(db.state).Committed?
  }

  function Commits<S, R>(db: Database<S, R>, requests: seq<Request<S, R>>, key: Key): nat
    decreases |requests|
  {
    if requests == [] then 0
    else (if BodyCommits(db, requests[0], key) then 1 else 0) + Commits(Apply(db, requests[0]), requests[1..], key)
  }

  /** The answers given under the key, in order. */
  function Answers<S, R>(db: Database<S, R>, requests: seq<Request<S, R>>, key: Key): seq<R>
    decreases |requests|
  {
    if requests == [] then []
    else
      var rest := Answers(Apply(db, requests[0]), requests[1..], key);
      match requests[0]
      case Unrelated(_) => rest
      case Keyed(other, hash, body) =>
        match EnsureIdempotency(db, other, hash, body)
        case Rejected(_) => rest
        case Committed(answer) => if other == key then [answer.response] + rest else rest
  }

  lemma RecordsStay<S, R>(db: Database<S, R>, request: Request<S, R>, key: Key)
    requires key in db.records
    ensures key in Apply(db, request).records && Apply(db, request).records[key] == db.records[key]
  {
  }

  /** Once a key has a record, its body never commits again and every answer
      under it is the recorded one. */
  lemma {:induction false} RecordedOnce<S, R>(db: Database<S, R>, requests: seq<Request<S, R>>, key: Key)
    requires key in db.records
    ensures Commits(db, requests, key) == 0
    ensures forall i | 0 <= i < |Answers(db, requests, key)| :: Answers(db, requests, key)[i] == db.records[key].response
    decreases |requests|
  {
    if requests != [] {
      RecordsStay(db, requests[0], key);
      RecordedOnce(Apply(db, requests[0]), requests[1..], key);
    }
  }

  /** Over any sequence of requests, with any other writes in between, the body
      behind a key commits at most once and every success under the key returns
      the first response. */
  lemma {:induction false} CommitsAtMostOnce<S, R>(db: Database<S, R>, requests: seq<Request<S, R>>, key: Key)
    ensures Commits(db, requests, key) <= 1
    ensures forall i | 0 <= i < |Answers(db, requests, key)| :: Answers(db, requests, key)[i] == Answers(db, requests, key)[0]
    ensures Commits(db, requests, key) == 1 <==> key !in db.records && Answers(db, requests, key) != []
    decreases |requests|
  {
    if key in db.records {
      RecordedOnce(db, requests, key);
    } else if requests != [] {
      var next := Apply(db, requests[0]);
      if BodyCommits(db, requests[0], key) {
        RecordedOnce(next, requests[1..], key);
      } else {
        CommitsAtMostOnce(next, requests[1..], key);
      }
    }
  }

  /** A payload mismatch or a failing body leaves the whole database unchanged;
      a request is turned down for no other reason. */
  lemma RejectionExactly<S, R>(db: Database<S, R>, key: Key, hash: string, body: S -> Tx<Done<S, R>>)
    ensures EnsureIdempotency(db, key, hash, body).Rejected? <==>
              if key in db.records then db.records[key].hash != hash else body(db.state).Rejected?
    ensures EnsureIdempotency(db, key, hash, body).Rejected? ==> Apply(db, Keyed(key, hash, body)) == db
    ensures key in db.records ==> Apply(db, Keyed(key, hash, body)) == db
  {
  }

  // ----- refund requests -----

  type RefundDb = Database<Books, RefundId>

  function RefundBody(p: PaymentId, amount: Option<nat>, refund: RefundId): Books -> Tx<Done<Books, RefundId>> {
    (s: Books) =>
      match RequestRefund(s, p, amount, refund)
      case Rejected(code) => Rejected(code)
      case Committed(t) => Committed(Done(t, refund))
  }

  function RefundRequest(key: Key, hash: string, p: PaymentId, amount: Option<nat>, refund: RefundId)
    : Request<Books, RefundId>
  {
    Keyed(key, hash, RefundBody(p, amount, refund))
  }

  /** One refund per key: the first success creates the refund, and however often
      the request is repeated afterwards, with whatever writes in between and
      whatever row id it would have used, it answers with that refund and adds
      none. */
  lemma OneRefundPerKey(db: RefundDb, key: Key, hash: string, p: PaymentId, amount: Option<nat>, refund: RefundId,
                        between: seq<Request<Books, RefundId>>, again: RefundId)
    requires key !in db.records && EnsureIdempotency(db, key, hash, RefundBody(p, amount, refund)).Committed?
    ensures var first := Apply(db, RefundRequest(key, hash, p, amount, refund));
            var later := Exec(first, between);
            && first.state.refunds.Keys == db.state.refunds.Keys + {refund} && refund !in db.state.refunds
            && EnsureIdempotency(later, key, hash, RefundBody(p, amount, again)) == Committed(Answer(later, refund))
  {
    FinanceSafety.RefundIsAllowed(db.state, p, amount, refund);
    RecordStaysOnRuns(Apply(db, RefundRequest(key, hash, p, amount, refund)), between, key);
  }

  lemma {:induction false} RecordStaysOnRuns<S, R>(db: Database<S, R>, requests: seq<Request<S, R>>, key: Key)
    requires key in db.records
    ensures key in Exec(db, requests).records && Exec(db, requests).records[key] == db.records[key]
    decreases |requests|
  {
    if requests != [] {
      RecordsStay(db, requests[0], key);
      RecordStaysOnRuns(Apply(db, requests[0]), requests[1..], key);
    }
  }

  // ----- payment intents -----

  type IntentDb = Database<Books, PaymentId>

  datatype IntentRequest = IntentRequest(target: Target, driver: Option<DriverId>, online: bool, amount: nat,
                                         p: PaymentId, i: IntentId, intentStatus: IntentStatus, now: Time)

  /** createPaymentIntent, with the payment the lookup found. */
  function IntentBody(request: IntentRequest, existing: Option<PaymentId>): Books -> Tx<Done<Books, PaymentId>> {
    (s: Books) =>
      match CreatePayment(s, request.target, request.driver, request.online, request.amount, request.p, request.i,
                          request.intentStatus, existing, request.now)
      case Rejected(code) => Rejected(code)
      case Committed(t) => Committed(Done(t, if existing.Some? then existing.value else request.p))
  }

  predicate ActivePayment(s: Books, p: PaymentId) {
    p in s.payments && IsActive(s.payments[p].status)
  }

  /** Intent creation without a key of the client's: a recorded payment that is
      no longer active does not count, and the body runs again. */
  function ImplicitIntent(db: IntentDb, key: Key, hash: string, body: Books -> Tx<Done<Books, PaymentId>>)
    : Tx<Answer<Books, PaymentId>>
  {
    if key in db.records && db.records[key].hash != hash then Rejected("IDEMPOTENCY_PAYLOAD_MISMATCH")
    else if key in db.records && ActivePayment(db.state, db.records[key].response) then
      Committed(Answer(db, db.records[key].response))
    else
      match body(db.state)
      case Rejected(code) => Rejected(code)
      case Committed(done) =>
        Committed(Answer(Database(db.records[key := Record(hash, done.response)], done.state), done.response))
  }

  /** The implicit path always answers with an active payment. */
  lemma ImplicitAnswersActive(db: IntentDb, key: Key, hash: string, request: IntentRequest, existing: Option<PaymentId>)
    requires existing.Some? ==> HasActivePayment(db.state, request.target, existing.value)
    ensures var r := ImplicitIntent(db, key, hash, IntentBody(request, existing));
            r.Committed? ==> ActivePayment(r.state.after.state, r.state.response)
  {
  }

  /** The explicit path answers with the recorded payment, so a repeated request
      answers with an active one exactly when that payment is still active. */
  lemma ExplicitAnswersActiveExactly(db: IntentDb, key: Key, hash: string, request: IntentRequest,
                                     existing: Option<PaymentId>)
    requires existing.Some? ==> HasActivePayment(db.state, request.target, existing.value)
    ensures var r := EnsureIdempotency(db, key, hash, IntentBody(request, existing));
            r.Committed? ==>
              (ActivePayment(r.state.after.state, r.state.response) <==>
                 (key in db.records ==> ActivePayment(db.state, db.records[key].response)))
  {
  }

  /** Repeating an implicit request at once answers with the same payment and changes
      nothing, whatever its lookup would find; with another payload it is rejected. */
  lemma ImplicitIsStable(db: IntentDb, key: Key, hash: string, request: IntentRequest, existing: Option<PaymentId>,
                         again: IntentRequest, found: Option<PaymentId>, other: string)
    requires existing.Some? ==> HasActivePayment(db.state, request.target, existing.value)
    requires ImplicitIntent(db, key, hash, IntentBody(request, existing)).Committed? && other != hash
    ensures var answer := ImplicitIntent(db, key, hash, IntentBody(request, existing)).state;
            && ImplicitIntent(answer.after, key, hash, IntentBody(again, found)) == Committed(answer)
            && ImplicitIntent(answer.after, key, other, IntentBody(again, found)).Rejected?
  {
    ImplicitAnswersActive(db, key, hash, request, existing);
  }
}
