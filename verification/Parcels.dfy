/** The life of one parcel: its status, and the handover and pickup codes that
    let it change hands.

    A transaction reads the parcel first and may find it changed when it writes;
    `read` is the record it read. The failing branch of a code check throws and
    so undoes its own attempt counter, which is therefore always 0 on a code that
    can still be tried. */
module Parcels {
  import opened Tables

  type Time = int

  datatype ParcelStatus =
    | Draft | Created | PendingDriverAcceptance | Accepted | HandedToDriver | InTransit | ReadyForPickup | Delivered
    | CancelledBySender | CancelledByDriver | CancelledByAdmin | RejectedParcel | Lost | Damaged | Disputed | Expired

  datatype ParcelAction =
    | Submit | DriverAccept | DriverReject | Handover | StartTransit | MakeReady | Deliver
    | CancelSender | CancelDriver | CancelAdmin | MarkLost | MarkDamaged | Dispute | Expire

  function Target(action: ParcelAction): ParcelStatus {
    match action
    case Submit => Accepted
    case DriverAccept => Accepted
    case DriverReject => RejectedParcel
    case Handover => HandedToDriver
    case StartTransit => InTransit
    case MakeReady => ReadyForPickup
    case Deliver => Delivered
    case CancelSender => CancelledBySender
    case CancelDriver => CancelledByDriver
    case CancelAdmin => CancelledByAdmin
    case MarkLost => Lost
    case MarkDamaged => Damaged
    case Dispute => Disputed
    case Expire => Expired
  }

  function AllowedFrom(action: ParcelAction): set<ParcelStatus> {
    match action
    case Submit => {Draft, Created}
    case DriverAccept => {PendingDriverAcceptance}
    case DriverReject => {PendingDriverAcceptance, Created}
    case Handover => {Accepted}
    case StartTransit => {HandedToDriver}
    case MakeReady => {InTransit}
    case Deliver => {ReadyForPickup}
    case CancelSender => {Draft, Created, PendingDriverAcceptance, Accepted}
    case CancelDriver => {PendingDriverAcceptance, Accepted}
    case CancelAdmin =>
      {Draft, Created, PendingDriverAcceptance, Accepted, HandedToDriver, InTransit, ReadyForPickup}
    case MarkLost => {HandedToDriver, InTransit, ReadyForPickup}
    case MarkDamaged => {HandedToDriver, InTransit, ReadyForPickup}
    case Dispute => {ReadyForPickup, Delivered, Damaged, Lost}
    case Expire => {Draft, Created, PendingDriverAcceptance, Accepted}
  }

  function Transition(current: ParcelStatus, action: ParcelAction): Tx<ParcelStatus> {
    if current == Target(action) || current in AllowedFrom(action) then Committed(Target(action))
    else Rejected("PARCEL_INVALID_TRANSITION")
  }

  /** How far a parcel got. Nothing leads back. */
  function Rank(status: ParcelStatus): nat {
    match status
    case Draft => 0
    case Created => 0
    case PendingDriverAcceptance => 0
    case Accepted => 1
    case HandedToDriver => 2
    case InTransit => 3
    case ReadyForPickup => 4
    case Delivered => 5
    case Lost => 5
    case Damaged => 5
    case Disputed => 6
    case _ => 6
  }

  /** The statuses a parcel has while the driver answers for it, or afterwards. */
  predicate InCustody(status: ParcelStatus) {
    status in {HandedToDriver, InTransit, ReadyForPickup, Delivered, Lost, Damaged, Disputed}
  }

  // ----- codes -----

  datatype CodeStatus = CodeActive | CodeVerified | CodeExpired | CodeReplaced

  datatype Code = Code(status: CodeStatus, expiresAt: Time)

  /** `handover` and `pickup` are the codes in order of creation. */
  datatype Parcel = Parcel(status: ParcelStatus, version: nat, handover: seq<Code>, pickup: seq<Code>)

  const NEW_PARCEL := Parcel(Draft, 1, [], [])

  function Replaced(codes: seq<Code>): seq<Code> {
    seq(|codes|, i requires 0 <= i < |codes| =>
      if codes[i].status == CodeActive then codes[i].(status := CodeReplaced) else codes[i])
  }

  /** createParcelCode. */
  function WithNewCode(codes: seq<Code>, expiresAt: Time): seq<Code> {
    Replaced(codes) + [Code(CodeActive, expiresAt)]
  }

  function WithoutOverdue(codes: seq<Code>, now: Time): seq<Code> {
    seq(|codes|, i requires 0 <= i < |codes| =>
      if codes[i].status == CodeActive && codes[i].expiresAt <= now then codes[i].(status := CodeExpired) else codes[i])
  }

  predicate CanAttempt(code: Code, now: Time) {
    code.status == CodeActive && now < code.expiresAt
  }

  /** Checks the newest code as it was read, and marks it VERIFIED. */
  function Verify(codes: seq<Code>, read: seq<Code>, matches: bool, now: Time): Tx<seq<Code>> {
    if read == [] then Rejected("PARCEL_CODE_NOT_FOUND")
    else if !CanAttempt(read[|read| - 1], now) then Rejected("PARCEL_CODE_INACTIVE_OR_EXPIRED")
    else if !matches then Rejected("PARCEL_CODE_INVALID")
    else if |read| > |codes| then Rejected("PARCEL_CODE_NOT_FOUND")
    else Committed(codes[|read| - 1 := codes[|read| - 1].(status := CodeVerified)])
  }

  // ----- transactions -----

  /** transitionParcel: the status is written if the version is still the one
      that was read. A parcel read in the target status is left alone. */
  function MoveTo(p: Parcel, read: Parcel, action: ParcelAction): Tx<Parcel> {
    match Transition(read.status, action)
    case Rejected(code) => Rejected(code)
    case Committed(next) =>
      if read.status == next then Committed(p)
      else if read.version != p.version then Rejected("PARCEL_VERSION_CONFLICT")
      else Committed(p.(status := next, version := p.version + 1))
  }

  function SubmitParcel(p: Parcel, read: Parcel, expiresAt: Time): Tx<Parcel> {
    match MoveTo(p, read, Submit)
    case Rejected(code) => Rejected(code)
    case Committed(t) => Committed(t.(handover := WithNewCode(t.handover, expiresAt)))
  }

  function RegenerateHandover(p: Parcel, read: Parcel, expiresAt: Time): Tx<Parcel> {
    if read.status != Accepted then Rejected("PARCEL_CODE_UNAVAILABLE")
    else Committed(p.(handover := WithNewCode(p.handover, expiresAt)))
  }

  function DriverAction(p: Parcel, read: Parcel, action: ParcelAction, matches: bool, now: Time, expiresAt: Time): Tx<Parcel> {
    match action
    case Handover =>
      (match Verify(p.handover, read.handover, matches, now)
       case Rejected(code) => Rejected(code)
       case Committed(codes) => MoveTo(p.(handover := codes), read, Handover))
    case Deliver =>
      (match Verify(p.pickup, read.pickup, matches, now)
       case Rejected(code) => Rejected(code)
       case Committed(codes) => MoveTo(p.(pickup := codes), read, Deliver))
    case MakeReady =>
      (match MoveTo(p, read, MakeReady)
       case Rejected(code) => Rejected(code)
       case Committed(t) => Committed(t.(pickup := WithNewCode(t.pickup, expiresAt))))
    case _ => MoveTo(p, read, action)
  }

  /** The worker's bulk updates; `stale` tells whether the parcel is a day old,
      `departed` whether its trip has left. */
  function Maintain(p: Parcel, now: Time, stale: bool, departed: bool): Parcel {
    var q := p.(handover := WithoutOverdue(p.handover, now), pickup := WithoutOverdue(p.pickup, now));
    if ((q.status == Draft || q.status == Created) && stale) || (q.status == Accepted && departed) then
      q.(status := Expired, version := q.version + 1)
    else q
  }

  datatype Step =
    | SubmitStep(read: Parcel, expiresAt: Time)
    | RegenerateStep(read: Parcel, expiresAt: Time)
    | DriverStep(read: Parcel, action: ParcelAction, matches: bool, now: Time, expiresAt: Time)
    | OtherStep(read: Parcel, action: ParcelAction)
    | MaintainStep(now: Time, stale: bool, departed: bool)

  function Attempt(p: Parcel, step: Step): Tx<Parcel> {
    match step
    case SubmitStep(read, expiresAt) => SubmitParcel(p, read, expiresAt)
    case RegenerateStep(read, expiresAt) => RegenerateHandover(p, read, expiresAt)
    case DriverStep(read, action, matches, now, expiresAt) => DriverAction(p, read, action, matches, now, expiresAt)
    case OtherStep(read, action) => MoveTo(p, read, action)
    case MaintainStep(now, stale, departed) => Committed(Maintain(p, now, stale, departed))
  }

  function Apply(p: Parcel, step: Step): Parcel {
    match Attempt(p, step)
    case Committed(t) => t
    case Rejected(_) => p
  }

  predicate DriverMay(action: ParcelAction) {
    action in {DriverAccept, DriverReject, Handover, MakeReady, Deliver}
  }

  /** The actions of the sender, the administrator and the trip. */
  predicate OthersMay(action: ParcelAction) {
    action in {CancelSender, CancelAdmin, MarkLost, MarkDamaged, Dispute, StartTransit}
  }

  /** A record some earlier moment can have shown. */
  predicate PossibleRead(p: Parcel, read: Parcel) {
    && read.version <= p.version && (read.version == p.version ==> read.status == p.status)
    && |read.handover| <= |p.handover| && |read.pickup| <= |p.pickup|
  }

  predicate Enabled(p: Parcel, step: Step) {
    match step
    case SubmitStep(read, _) => PossibleRead(p, read)
    case RegenerateStep(read, _) => PossibleRead(p, read)
    case DriverStep(read, action, _, _, _) => PossibleRead(p, read) && DriverMay(action)
    case OtherStep(read, action) => PossibleRead(p, read) && OthersMay(action)
    case MaintainStep(_, _, _) => true
  }

  function Exec(p: Parcel, steps: seq<Step>): Parcel
    decreases |steps|
  {
    if steps == [] then p else Exec(Apply(p, steps[0]), steps[1..])
  }

  predicate Run(p: Parcel, steps: seq<Step>)
    decreases |steps|
  {
    steps != [] ==> Enabled(p, steps[0]) && Run(Apply(p, steps[0]), steps[1..])
  }

  // ----- every status change goes forward -----

  lemma TransitionsRaiseRank(current: ParcelStatus, action: ParcelAction)
    requires Transition(current, action).Committed? && current != Target(action)
    ensures Rank(current) < Rank(Target(action))
  {
  }

  ghost predicate Forward(p: Parcel, t: Parcel) {
    || (t.status == p.status && t.version == p.version)
    || (Rank(t.status) > Rank(p.status) && t.version == p.version + 1)
  }

  lemma MoveGoesForward(p: Parcel, read: Parcel, action: ParcelAction)
    requires PossibleRead(p, read) && MoveTo(p, read, action).Committed?
    ensures Forward(p, MoveTo(p, read, action).state)
  {
    if read.status != Target(action) { TransitionsRaiseRank(read.status, action); }
  }

  lemma DriverGoesForward(p: Parcel, step: Step)
    requires step.DriverStep? && PossibleRead(p, step.read) && Attempt(p, step).Committed?
    ensures Forward(p, Attempt(p, step).state)
  {
    var read := step.read;
    match step.action {
      case Handover =>
        MoveGoesForward(p.(handover := Verify(p.handover, read.handover, step.matches, step.now).state), read, Handover);
      case Deliver =>
        MoveGoesForward(p.(pickup := Verify(p.pickup, read.pickup, step.matches, step.now).state), read, Deliver);
      case action => MoveGoesForward(p, read, action);
    }
  }

  /** A step either keeps status and version, or raises the rank and counts the
      change in the version. */
  lemma StepGoesForward(p: Parcel, step: Step)
    requires Enabled(p, step)
    ensures Forward(p, Apply(p, step))
  {
    if Attempt(p, step).Committed? {
      match step {
        case SubmitStep(read, _) => MoveGoesForward(p, read, Submit);
        case RegenerateStep(_, _) =>
        case DriverStep(_, _, _, _, _) => DriverGoesForward(p, step);
        case OtherStep(read, action) => MoveGoesForward(p, read, action);
        case MaintainStep(_, _, _) =>
      }
    }
  }

  /** The number of status changes of a run. */
  function Changes(p: Parcel, steps: seq<Step>): nat
    decreases |steps|
  {
    if steps == [] then 0
    else (if Apply(p, steps[0]).status != p.status then 1 else 0) + Changes(Apply(p, steps[0]), steps[1..])
  }

  /** A parcel changes its status at most six times, whatever the interleaving
      and however stale the reads, and its version counts the changes. */
  lemma {:induction false} AtMostSixChanges(p: Parcel, steps: seq<Step>)
    requires Run(p, steps)
    ensures Changes(p, steps) + Rank(p.status) <= Rank(Exec(p, steps).status) <= 6
    ensures Exec(p, steps).version == p.version + Changes(p, steps)
    decreases |steps|
  {
    if steps != [] {
      StepGoesForward(p, steps[0]);
      AtMostSixChanges(Apply(p, steps[0]), steps[1..]);
    }
  }

  lemma OneStep(p: Parcel, step: Step, rest: seq<Step>)
    ensures Run(p, [step] + rest) <==> Enabled(p, step) && Run(Apply(p, step), rest)
    ensures Exec(p, [step] + rest) == Exec(Apply(p, step), rest)
    ensures Changes(p, [step] + rest) == (if Apply(p, step).status != p.status then 1 else 0) + Changes(Apply(p, step), rest)
  {
    assert ([step] + rest)[1..] == rest;
  }

  const ACTIVE_CODE := Code(CodeActive, 600)

  const USED_CODE := Code(CodeVerified, 600)

  const MOVING_PARCEL := Parcel(InTransit, 4, [USED_CODE], [])

  const SUBMITTED_PARCEL := Parcel(Accepted, 2, [ACTIVE_CODE], [])

  const HANDED_PARCEL := Parcel(HandedToDriver, 3, [USED_CODE], [])

  const READY_PARCEL := Parcel(ReadyForPickup, 5, [USED_CODE], [ACTIVE_CODE])

  const DELIVERED_PARCEL := Parcel(Delivered, 6, [USED_CODE], [USED_CODE])

  const DISPUTED_PARCEL := Parcel(Disputed, 7, [USED_CODE], [USED_CODE])

  lemma SubmitIssuesCode()
    ensures Apply(NEW_PARCEL, SubmitStep(NEW_PARCEL, 600)) == SUBMITTED_PARCEL
  {
    assert WithNewCode([], 600) == [ACTIVE_CODE];
  }

  lemma CodeIsUsed()
    ensures Verify([ACTIVE_CODE], [ACTIVE_CODE], true, 0) == Committed([USED_CODE])
  {
    var codes := [ACTIVE_CODE];
    assert codes[0 := USED_CODE] == [USED_CODE];
  }

  lemma HandoverUsesCode()
    ensures Apply(SUBMITTED_PARCEL, DriverStep(SUBMITTED_PARCEL, Handover, true, 0, 0)) == HANDED_PARCEL
  {
    CodeIsUsed();
  }

  lemma ReadyIssuesCode()
    ensures Apply(MOVING_PARCEL, DriverStep(MOVING_PARCEL, MakeReady, true, 0, 600)) == READY_PARCEL
  {
    assert WithNewCode([], 600) == [ACTIVE_CODE];
  }

  lemma DeliveryUsesCode()
    ensures Apply(READY_PARCEL, DriverStep(READY_PARCEL, Deliver, true, 0, 0)) == DELIVERED_PARCEL
  {
    CodeIsUsed();
  }

  lemma FromTransitToDispute() returns (steps: seq<Step>)
    ensures Run(MOVING_PARCEL, steps) && Changes(MOVING_PARCEL, steps) == 3
    ensures Exec(MOVING_PARCEL, steps) == DISPUTED_PARCEL
  {
    var makeReady, deliver := DriverStep(MOVING_PARCEL, MakeReady, true, 0, 600), DriverStep(READY_PARCEL, Deliver, true, 0, 0);
    var dispute := OtherStep(DELIVERED_PARCEL, Dispute);
    ReadyIssuesCode();
    DeliveryUsesCode();
    OneStep(DELIVERED_PARCEL, dispute, []);
    OneStep(READY_PARCEL, deliver, [dispute] + []);
    OneStep(MOVING_PARCEL, makeReady, [deliver] + ([dispute] + []));
    steps := [makeReady] + ([deliver] + ([dispute] + []));
  }

  /** The bound is reached: a draft is submitted, handed over with its code, put
      into transit, made ready, delivered with its code and disputed. */
  lemma SixChangesHappen() returns (steps: seq<Step>)
    ensures Run(NEW_PARCEL, steps) && Changes(NEW_PARCEL, steps) == 6
    ensures Exec(NEW_PARCEL, steps) == DISPUTED_PARCEL
  {
    var rest := FromTransitToDispute();
    var submit, handover := SubmitStep(NEW_PARCEL, 600), DriverStep(SUBMITTED_PARCEL, Handover, true, 0, 0);
    var start := OtherStep(HANDED_PARCEL, StartTransit);
    SubmitIssuesCode();
    HandoverUsesCode();
    OneStep(HANDED_PARCEL, start, rest);
    OneStep(SUBMITTED_PARCEL, handover, [start] + rest);
    OneStep(NEW_PARCEL, submit, [handover] + ([start] + rest));
    steps := [submit] + ([handover] + ([start] + rest));
  }

  /** Every earlier record is a possible read later, so nothing is assumed of
      concurrent transactions but that they read what was there. */
  lemma StepKeepsReads(p: Parcel, step: Step)
    requires Enabled(p, step)
    ensures PossibleRead(Apply(p, step), p)
  {
  }

  lemma {:induction false} PastIsPossibleRead(p: Parcel, steps: seq<Step>, read: Parcel)
    requires Run(p, steps) && PossibleRead(p, read)
    ensures PossibleRead(Exec(p, steps), read)
    decreases |steps|
  {
    if steps != [] {
      StepKeepsReads(p, steps[0]);
      StepGoesForward(p, steps[0]);
      PastIsPossibleRead(Apply(p, steps[0]), steps[1..], read);
    }
  }

  // ----- custody -----

  predicate HasVerified(codes: seq<Code>) {
    exists i :: 0 <= i < |codes| && codes[i].status == CodeVerified
  }

  predicate OneActiveCode(codes: seq<Code>) {
    forall i, j | 0 <= i < j < |codes| :: !(codes[i].status == CodeActive && codes[j].status == CodeActive)
  }

  predicate CustodyOk(p: Parcel) {
    && (InCustody(p.status) ==> HasVerified(p.handover))
    && (p.status == Delivered ==> HasVerified(p.pickup))
    && OneActiveCode(p.handover) && OneActiveCode(p.pickup)
  }

  lemma NewCodeKeepsVerified(codes: seq<Code>, expiresAt: Time)
    requires OneActiveCode(codes)
    ensures OneActiveCode(WithNewCode(codes, expiresAt))
    ensures HasVerified(codes) ==> HasVerified(WithNewCode(codes, expiresAt))
  {
    if HasVerified(codes) {
      var i :| 0 <= i < |codes| && codes[i].status == CodeVerified;
      assert WithNewCode(codes, expiresAt)[i] == codes[i];
    }
  }

  lemma ExpiryKeepsVerified(codes: seq<Code>, now: Time)
    requires OneActiveCode(codes)
    ensures OneActiveCode(WithoutOverdue(codes, now))
    ensures HasVerified(codes) ==> HasVerified(WithoutOverdue(codes, now))
  {
    if HasVerified(codes) {
      var i :| 0 <= i < |codes| && codes[i].status == CodeVerified;
      assert WithoutOverdue(codes, now)[i] == codes[i];
    }
  }

  lemma VerifyVerifies(codes: seq<Code>, read: seq<Code>, matches: bool, now: Time)
    requires OneActiveCode(codes) && Verify(codes, read, matches, now).Committed?
    ensures var t := Verify(codes, read, matches, now).state; OneActiveCode(t) && HasVerified(t)
  {
    assert Verify(codes, read, matches, now).state[|read| - 1].status == CodeVerified;
  }

  /** A code once VERIFIED is never lost again. */
  ghost predicate KeepsVerified(p: Parcel, t: Parcel) {
    && (HasVerified(p.handover) ==> HasVerified(t.handover))
    && (HasVerified(p.pickup) ==> HasVerified(t.pickup))
  }

  lemma DriverStepKeepsCustody(p: Parcel, step: Step)
    requires CustodyOk(p) && Enabled(p, step) && step.DriverStep?
    ensures CustodyOk(Apply(p, step)) && KeepsVerified(p, Apply(p, step))
  {
    NewCodeKeepsVerified(p.pickup, step.expiresAt);
    if Attempt(p, step).Committed? {
      match step.action {
        case Handover => VerifyVerifies(p.handover, step.read.handover, step.matches, step.now);
        case Deliver => VerifyVerifies(p.pickup, step.read.pickup, step.matches, step.now);
        case _ =>
      }
    }
  }

  lemma StepKeepsCustody(p: Parcel, step: Step)
    requires CustodyOk(p) && Enabled(p, step)
    ensures CustodyOk(Apply(p, step)) && KeepsVerified(p, Apply(p, step))
  {
    match step
    case SubmitStep(_, expiresAt) => NewCodeKeepsVerified(p.handover, expiresAt);
    case RegenerateStep(_, expiresAt) => NewCodeKeepsVerified(p.handover, expiresAt);
    case DriverStep(_, _, _, _, _) => DriverStepKeepsCustody(p, step);
    case OtherStep(_, _) =>
    case MaintainStep(now, _, _) =>
      ExpiryKeepsVerified(p.handover, now);
      ExpiryKeepsVerified(p.pickup, now);
  }

  /** On every run, stale reads included: a parcel that was handed over, or got
      any further, has a VERIFIED handover code, a delivered one a VERIFIED pickup
      code as well, and at most one code of each kind is ACTIVE. */
  lemma {:induction false} RunKeepsCustody(p: Parcel, steps: seq<Step>)
    requires CustodyOk(p) && Run(p, steps)
    ensures CustodyOk(Exec(p, steps)) && KeepsVerified(p, Exec(p, steps))
    decreases |steps|
  {
    if steps != [] {
      StepKeepsCustody(p, steps[0]);
      RunKeepsCustody(Apply(p, steps[0]), steps[1..]);
    }
  }

  lemma NewParcelIsOk()
    ensures CustodyOk(NEW_PARCEL)
  {
  }

  // ----- what each code check lets through -----

  /** The newest of the codes is ACTIVE and not expired. */
  predicate NewestIsOpen(codes: seq<Code>, now: Time) {
    codes != [] && codes[|codes| - 1].status == CodeActive && now < codes[|codes| - 1].expiresAt
  }

  function NewestVerified(codes: seq<Code>): seq<Code>
    requires codes != []
  {
    codes[..|codes| - 1] + [Code(CodeVerified, codes[|codes| - 1].expiresAt)]
  }

  /** A driver who reads the current parcel gets it handed over exactly when it is
      ACCEPTED, the newest handover code is ACTIVE and not expired, and the code given
      matches; that code is then VERIFIED. Otherwise nothing changes. */
  lemma HandoverExactly(p: Parcel, matches: bool, now: Time, expiresAt: Time)
    requires p.status != HandedToDriver
    ensures Apply(p, DriverStep(p, Handover, matches, now, expiresAt)) ==
              if p.status == Accepted && NewestIsOpen(p.handover, now) && matches
              then Parcel(HandedToDriver, p.version + 1, NewestVerified(p.handover), p.pickup)
              else p
  {
    if p.handover != [] { VerifiedAtEnd(p.handover); }
  }

  /** The same of delivery: READY_FOR_PICKUP, and the newest pickup code is ACTIVE, not
      expired, and matches. */
  lemma DeliveryExactly(p: Parcel, matches: bool, now: Time, expiresAt: Time)
    requires p.status != Delivered
    ensures Apply(p, DriverStep(p, Deliver, matches, now, expiresAt)) ==
              if p.status == ReadyForPickup && NewestIsOpen(p.pickup, now) && matches
              then Parcel(Delivered, p.version + 1, p.handover, NewestVerified(p.pickup))
              else p
  {
    if p.pickup != [] { VerifiedAtEnd(p.pickup); }
  }

  lemma VerifiedAtEnd(codes: seq<Code>)
    requires codes != []
    ensures codes[|codes| - 1 := codes[|codes| - 1].(status := CodeVerified)] == NewestVerified(codes)
  {
  }

  /** The step gives a code that matches the one it read, which was open. */
  predicate GivesCode(step: Step, action: ParcelAction) {
    && step.DriverStep? && step.action == action && step.matches
    && match action
       case Handover => step.read.status == Accepted && NewestIsOpen(step.read.handover, step.now)
       case Deliver => step.read.status == ReadyForPickup && NewestIsOpen(step.read.pickup, step.now)
       case _ => false
  }

  lemma CustodyNeedsCode(p: Parcel, step: Step)
    requires Enabled(p, step)
    ensures !InCustody(p.status) && InCustody(Apply(p, step).status) ==> GivesCode(step, Handover)
    ensures p.status != Delivered && Apply(p, step).status == Delivered ==> GivesCode(step, Deliver)
  {
  }

  predicate CodeGiven(steps: seq<Step>, action: ParcelAction) {
    exists i :: 0 <= i < |steps| && GivesCode(steps[i], action)
  }

  lemma LaterCode(steps: seq<Step>, action: ParcelAction)
    requires steps != []
    ensures GivesCode(steps[0], action) || CodeGiven(steps[1..], action) ==> CodeGiven(steps, action)
  {
    if CodeGiven(steps[1..], action) {
      var i :| 0 <= i < |steps[1..]| && GivesCode(steps[1..][i], action);
      assert steps[i + 1] == steps[1..][i];
    }
  }

  /** On every run, stale reads included: a parcel comes into the driver's custody only
      if some request gave a matching handover code that was open when it was read,
      and it is delivered only if some request gave such a pickup code. */
  lemma {:induction false} OnlyCodesMoveParcels(p: Parcel, steps: seq<Step>)
    requires Run(p, steps)
    ensures !InCustody(p.status) && InCustody(Exec(p, steps).status) ==> CodeGiven(steps, Handover)
    ensures p.status != Delivered && Exec(p, steps).status == Delivered ==> CodeGiven(steps, Deliver)
    decreases |steps|
  {
    if steps != [] {
      CustodyNeedsCode(p, steps[0]);
      OnlyCodesMoveParcels(Apply(p, steps[0]), steps[1..]);
      LaterCode(steps, Handover);
      LaterCode(steps, Deliver);
    }
  }

  /** A new code is ACTIVE until its expiry, and the only one: older ACTIVE ones are
      REPLACED, all others stay what they were. */
  lemma NewCodeExactly(codes: seq<Code>, expiresAt: Time)
    ensures var t := WithNewCode(codes, expiresAt);
            && |t| == |codes| + 1 && t[|codes|] == Code(CodeActive, expiresAt)
            && forall i | 0 <= i < |codes| ::
                 t[i] == if codes[i].status == CodeActive then Code(CodeReplaced, codes[i].expiresAt) else codes[i]
  {
  }

  /** Who gets new codes: a parcel that is submitted, an ACCEPTED one on request, and
      a parcel in transit that is made ready. */
  lemma CodesAreIssuedExactly(p: Parcel, now: Time, expiresAt: Time)
    ensures SubmitParcel(p, p, expiresAt) ==
              if p.status in {Draft, Created}
              then Committed(Parcel(Accepted, p.version + 1, WithNewCode(p.handover, expiresAt), p.pickup))
              else if p.status == Accepted then Committed(p.(handover := WithNewCode(p.handover, expiresAt)))
              else Rejected("PARCEL_INVALID_TRANSITION")
    ensures RegenerateHandover(p, p, expiresAt) ==
              if p.status == Accepted then Committed(p.(handover := WithNewCode(p.handover, expiresAt)))
              else Rejected("PARCEL_CODE_UNAVAILABLE")
    ensures p.status == InTransit ==>
              Apply(p, DriverStep(p, MakeReady, false, now, expiresAt)) ==
              Parcel(ReadyForPickup, p.version + 1, p.handover, WithNewCode(p.pickup, expiresAt))
  {
  }

  /** The worker expires drafts and unanswered parcels of a day ago, accepted ones whose
      trip has left, and ACTIVE codes whose time has come; nothing else. */
  lemma MaintenanceExactly(p: Parcel, now: Time, stale: bool, departed: bool)
    ensures var t := Maintain(p, now, stale, departed);
            && t.status == (if (p.status in {Draft, Created} && stale) || (p.status == Accepted && departed)
                            then Expired else p.status)
            && |t.handover| == |p.handover| && |t.pickup| == |p.pickup|
            && (forall i | 0 <= i < |p.handover| ::
                  t.handover[i] == if p.handover[i].status == CodeActive && p.handover[i].expiresAt <= now
                                   then Code(CodeExpired, p.handover[i].expiresAt) else p.handover[i])
            && (forall i | 0 <= i < |p.pickup| ::
                  t.pickup[i] == if p.pickup[i].status == CodeActive && p.pickup[i].expiresAt <= now
                                 then Code(CodeExpired, p.pickup[i].expiresAt) else p.pickup[i])
  {
  }

  /** The transition table read the other way: what can be done with a parcel. */
  lemma ActionsExactly(status: ParcelStatus, action: ParcelAction)
    ensures status in AllowedFrom(action) <==>
              action in match status
                        case Draft => {Submit, CancelSender, CancelAdmin, Expire}
                        case Created => {Submit, DriverReject, CancelSender, CancelAdmin, Expire}
                        case PendingDriverAcceptance =>
                          {DriverAccept, DriverReject, CancelSender, CancelDriver, CancelAdmin, Expire}
                        case Accepted => {Handover, CancelSender, CancelDriver, CancelAdmin, Expire}
                        case HandedToDriver => {StartTransit, CancelAdmin, MarkLost, MarkDamaged}
                        case InTransit => {MakeReady, CancelAdmin, MarkLost, MarkDamaged}
                        case ReadyForPickup => {Deliver, CancelAdmin, MarkLost, MarkDamaged, Dispute}
                        case Delivered => {Dispute}
                        case Lost => {Dispute}
                        case Damaged => {Dispute}
                        case _ => {}
    ensures Target(action) == match action
                              case Submit => Accepted
                              case DriverAccept => Accepted
                              case DriverReject => RejectedParcel
                              case Handover => HandedToDriver
                              case StartTransit => InTransit
                              case MakeReady => ReadyForPickup
                              case Deliver => Delivered
                              case CancelSender => CancelledBySender
                              case CancelDriver => CancelledByDriver
                              case CancelAdmin => CancelledByAdmin
                              case MarkLost => Lost
                              case MarkDamaged => Damaged
                              case Dispute => Disputed
                              case Expire => Expired
  {
  }

  // ----- the bulk actions of a trip -----

  /** The statuses in which an operational trip cancellation cancels a parcel. */
  predicate ActiveOnTrip(status: ParcelStatus) {
    status in {Created, PendingDriverAcceptance, Accepted, HandedToDriver, InTransit, ReadyForPickup}
  }

  /** The loops of trip start and trip cancellation never fail on a parcel. */
  lemma TripLoopsNeverFail(p: Parcel)
    ensures ActiveOnTrip(p.status) ==> MoveTo(p, p, CancelAdmin) == Committed(p.(status := CancelledByAdmin, version := p.version + 1))
    ensures p.status == HandedToDriver ==> MoveTo(p, p, StartTransit) == Committed(p.(status := InTransit, version := p.version + 1))
  {
  }
}
