/**
 * The automatic top-up of one credit account: claims, dispatch to the payment provider,
 * notifications in any order, recovery, and the consents that authorise it all.
 */
module AutoTopUp {
  import opened Prelude

  type AttemptId = nat
  type RevisionId = nat
  type SetupId = nat
  type IntentId = nat
  type Month = nat

  // ---- Rows -----------------------------------------------------------------------------------

  datatype Mode = Disabled | Active | Paused | ActionRequired | ReviewRequired

  /** What the customer consented to. */
  datatype Terms = Terms(threshold: int, payment: nat, credits: nat, cap: nat)

  datatype Revision = Revision(terms: Terms, paymentMethod: nat)

  datatype Status = Pending | Processing | RequiresAction | NeedsReview | Succeeded | Failed | Canceled

  datatype EvidenceKind = PaymentFailed | PaymentProcessing | PaymentRequiresAction | PaymentCanceled

  /** A stored notification that moved an attempt. */
  datatype Evidence = Evidence(id: nat, kind: EvidenceKind, createdAt: int, receivedAt: int)

  datatype Attempt = Attempt(
    revision: RevisionId,
    terms: Terms,
    month: Month,
    chargedBefore: nat,
    status: Status,
    intent: Option<IntentId>,
    evidence: Option<Evidence>)

  datatype CheckoutStatus = Creating | Opened | InReview | Complete | Expired | Abandoned

  datatype Setup = Setup(
    expectedGeneration: nat,
    expectedConsent: Option<RevisionId>,
    terms: Terms,
    status: CheckoutStatus,
    session: Option<nat>,
    completedBy: Option<(nat, nat)>)

  /** The payment intent the provider holds for an attempt's idempotency key. */
  datatype Phase = Live | Charged | Voided
  datatype Intent = Intent(id: IntentId, phase: Phase)

  /** A credit entry written for a successful attempt. */
  datatype Credit = Credit(attempt: AttemptId, intent: IntentId, amount: nat)

  datatype State = State(
    balance: int,
    mode: Mode,
    generation: nat,
    consent: Option<RevisionId>,
    revisions: seq<Revision>,
    attempts: seq<Attempt>,
    setups: seq<Setup>,
    credits: seq<Credit>,
    intents: map<AttemptId, Intent>,
    nextIntent: IntentId)

  function Initial(): State
  {
    State(0, Disabled, 0, None, [], [], [], [], map[], 0)
  }

  predicate IsOpen(status: Status)
  {
    status.Pending? || status.Processing? || status.RequiresAction? || status.NeedsReview?
  }

  predicate IsUnsettled(status: CheckoutStatus)
  {
    status.Creating? || status.Opened? || status.InReview?
  }

  predicate AnyOpen(attempts: seq<Attempt>)
  {
    exists i :: 0 <= i < |attempts| && IsOpen(attempts[i].status)
  }

  /** The first unresolved attempt, or the number of attempts. */
  function FirstOpen(attempts: seq<Attempt>): (i: nat)
    ensures i <= |attempts|
    ensures i < |attempts| ==> IsOpen(attempts[i].status)
    ensures forall j :: 0 <= j < i ==> !IsOpen(attempts[j].status)
  {
    if attempts == [] || IsOpen(attempts[0].status) then 0 else 1 + FirstOpen(attempts[1..])
  }

  /** What the successful attempts of a month have charged. */
  function ChargedIn(attempts: seq<Attempt>, month: Month): nat
  {
    if attempts == [] then 0 else
    var last := attempts[|attempts| - 1];
    ChargedIn(attempts[..|attempts| - 1], month)
    + (if last.status.Succeeded? && last.month == month then last.terms.payment else 0)
  }

  // ---- Claiming ---------------------------------------------------------------------------------

  datatype SkipReason = ConfigurationInactive | ThresholdNotReached | ConfigurationInvalid | MonthlyCapReached

  datatype Claim =
    | Dispatch(attempt: AttemptId, created: bool)
    | AwaitingNotification(attempt: AttemptId)
    | Skipped(reason: SkipReason)

  predicate HasConsent(s: State)
  {
    s.consent.Some? && s.consent.value < |s.revisions|
  }

  /** `exact` says whether policy, option, offer, key and catalogue still match the consent. */
  function ClaimAttempt(s: State, month: Month, exact: bool): (State, Claim)
  {
    var open := FirstOpen(s.attempts);
    if open < |s.attempts| then
      if s.attempts[open].status.Pending? && s.attempts[open].intent.None? then (s, Dispatch(open, false))
      else (s, AwaitingNotification(open))
    else if !s.mode.Active? then (s, Skipped(ConfigurationInactive))
    else if !HasConsent(s) then (s, Skipped(ThresholdNotReached))
    else
      var terms := s.revisions[s.consent.value].terms;
      if s.balance >= terms.threshold then (s, Skipped(ThresholdNotReached))
      else if !exact then (s, Skipped(ConfigurationInvalid))
      else
        var charged := ChargedIn(s.attempts, month);
        if charged + terms.payment > terms.cap then (s, Skipped(MonthlyCapReached))
        else
          var attempt := Attempt(s.consent.value, terms, month, charged, Pending, None, None);
          (s.(attempts := s.attempts + [attempt]), Dispatch(|s.attempts|, true))
  }

  // ---- Dispatch --------------------------------------------------------------------------------

  /** The provider creates at most one intent per idempotency key. */
  function CreateIntent(s: State, a: AttemptId): State
  {
    if a in s.intents then s
    else s.(intents := s.intents[a := Intent(s.nextIntent, Live)], nextIntent := s.nextIntent + 1)
  }

  predicate BoundToConsent(s: State, attempt: Attempt)
  {
    && attempt.revision < |s.revisions| && attempt.terms == s.revisions[attempt.revision].terms
    && attempt.chargedBefore + attempt.terms.payment <= attempt.terms.cap
  }

  /** After a crash the provider knows of the intent, but the database does not. */
  function DispatchAttempt(s: State, a: AttemptId, crash: bool): Result<State>
  {
    if a >= |s.attempts| then Err(AttemptNotFound)
    else if !BoundToConsent(s, s.attempts[a]) then Err(BindingInvalid)
    else if !s.attempts[a].status.Pending? || s.attempts[a].intent.Some? then Ok(s)
    else
      var created := CreateIntent(s, a);
      if crash then Ok(created)
      else Ok(created.(attempts := s.attempts[a := s.attempts[a].(intent := Some(created.intents[a].id))]))
  }

  // ---- Notifications about an attempt -----------------------------------------------------------

  /** A genuine notification names the intent the provider holds for the attempt. */
  predicate Genuine(s: State, a: AttemptId, intent: IntentId)
  {
    a < |s.attempts| && a in s.intents && s.intents[a].id == intent
  }

  function PaymentSucceeded(s: State, a: AttemptId, intent: IntentId): Result<State>
  {
    if !Genuine(s, a, intent) || !s.intents[a].phase.Charged? then Err(BindingInvalid) else
    var attempt := s.attempts[a];
    if attempt.status.Succeeded? then
      if attempt.intent == Some(intent) then Ok(s) else Err(RebindForbidden)
    else if !IsOpen(attempt.status) then Err(BindingInvalid)
    else
      Ok(s.(
        balance := s.balance + attempt.terms.credits,
        credits := s.credits + [Credit(a, intent, attempt.terms.credits)],
        attempts := s.attempts[a := attempt.(status := Succeeded, intent := Some(intent))]))
  }

  function Unless(s: State, mode: Mode): Mode
  {
    if s.mode.Disabled? then Disabled else mode
  }

  /** The database itself marks the account when an attempt starts to need attention, even a disabled one. */
  predicate NeedsAttention(before: Status, after: Status)
  {
    before != after && (after.RequiresAction? || after.NeedsReview? || after.Failed? || after.Canceled?)
  }

  function ModeAfter(s: State, before: Status, after: Status, mode: Mode): Mode
  {
    if NeedsAttention(before, after) then mode else Unless(s, mode)
  }

  /** Two different notifications of the same moment, one processing and one requiring action. */
  predicate Contradicts(attempt: Attempt, e: Evidence)
  {
    && attempt.evidence.Some? && attempt.evidence.value.id != e.id
    && var earlier := attempt.evidence.value;
       && earlier.createdAt == e.createdAt && earlier.kind != e.kind
       && (earlier.kind.PaymentProcessing? || earlier.kind.PaymentRequiresAction?)
       && (e.kind.PaymentProcessing? || e.kind.PaymentRequiresAction?)
  }

  /**
   * The trigger that keeps an attempt's snapshot immutable compares whole rows, leaving out the
   * columns it lists. As written its list is older than the evidence column; extended it has it.
   */
  datatype SnapshotGuard = AsWritten | Extended

  /** Whether an update that stores the evidence passes the guard. */
  predicate MayStore(g: SnapshotGuard, attempt: Attempt, e: Evidence)
  {
    g.Extended? || (attempt.evidence.Some? && attempt.evidence.value.id == e.id)
  }

  /** Older evidence is refused; two contradicting states of the same moment need a review. */
  function Judged(attempt: Attempt, next: Status, e: Evidence): Result<Status>
  {
    match attempt.evidence
    case None => Ok(next)
    case Some(earlier) =>
      if earlier.id == e.id then Ok(next)
      else if earlier.createdAt > e.createdAt || (earlier.createdAt == e.createdAt && earlier.receivedAt > e.receivedAt)
      then Err(OlderEvidence)
      else if Contradicts(attempt, e) then Ok(NeedsReview)
      else Ok(next)
  }

  /** A reported failure; `final` says whether the intent can no longer succeed by itself. */
  function PaymentFailure(g: SnapshotGuard, s: State, a: AttemptId, intent: IntentId, final: bool, e: Evidence)
    : Result<State>
  {
    if !Genuine(s, a, intent) || !e.kind.PaymentFailed? then Err(BindingInvalid) else
    var attempt := s.attempts[a];
    if attempt.intent.Some? && attempt.intent != Some(intent) then Err(BindingInvalid)
    else if attempt.status.Succeeded? || attempt.status.Canceled? then Ok(s)
    else if attempt.status.NeedsReview? && attempt.intent == Some(intent)
            && attempt.evidence.Some? && attempt.evidence.value.id == e.id then Ok(s)
    else if attempt.status.Failed? then
      if attempt.intent == Some(intent) then Ok(s) else Err(RebindForbidden)
    else if !MayStore(g, attempt, e) then Err(SnapshotImmutable)
    else
      var next := if final then Failed else NeedsReview;
      match Judged(attempt, next, e)
      case Err(error) => Err(error)
      case Ok(status) =>
        Ok(s.(
          attempts := s.attempts[a := attempt.(status := status, intent := Some(intent), evidence := Some(e))],
          mode := ModeAfter(s, attempt.status, next, ReviewRequired)))
  }

  function StatusOf(kind: EvidenceKind): Status
  {
    match kind
    case PaymentProcessing => Processing
    case PaymentRequiresAction => RequiresAction
    case PaymentCanceled => Canceled
    case PaymentFailed => Failed
  }

  function ModeOf(kind: EvidenceKind): Mode
  {
    match kind
    case PaymentRequiresAction => ActionRequired
    case PaymentProcessing => Paused
    case PaymentCanceled => ReviewRequired
    case PaymentFailed => ReviewRequired
  }

  function PaymentStateChanged(g: SnapshotGuard, s: State, a: AttemptId, intent: IntentId, e: Evidence): Result<State>
  {
    if !Genuine(s, a, intent) || e.kind.PaymentFailed?
       || (e.kind.PaymentCanceled? && !s.intents[a].phase.Voided?) then Err(BindingInvalid) else
    var attempt := s.attempts[a];
    if attempt.intent.Some? && attempt.intent != Some(intent) then Err(BindingInvalid)
    else if attempt.status.Succeeded? then Ok(s)
    else if attempt.status.Canceled? && attempt.intent == Some(intent) then Ok(s)
    else if !IsOpen(attempt.status) then Err(StateConflict)
    else if !MayStore(g, attempt, e) then Err(SnapshotImmutable)
    else
      match Judged(attempt, StatusOf(e.kind), e)
      case Err(error) => Err(error)
      case Ok(status) =>
        Ok(s.(
          attempts := s.attempts[a := attempt.(status := status, intent := Some(intent), evidence := Some(e))],
          mode := ModeAfter(s, attempt.status, StatusOf(e.kind), ModeOf(e.kind))))
  }

  // ---- Recovery ----------------------------------------------------------------------------------

  /** The ways a customer's recovery may end an attempt it has read as `seen`. */
  predicate MayTerminate(seen: Attempt, to: Status)
  {
    || (to.Canceled? && IsOpen(seen.status))
    || (to.Failed? && seen.status.NeedsReview? && seen.evidence.Some? && seen.evidence.value.kind.PaymentFailed?)
  }

  /** The database ends an attempt as failed or canceled only on a stored notification that says so. */
  predicate Proves(evidence: Option<Evidence>, to: Status)
  {
    && (to.Failed? ==> evidence.Some? && evidence.value.kind.PaymentFailed?)
    && (to.Canceled? ==> evidence.Some? && evidence.value.kind.PaymentCanceled?)
  }

  /** Ends the attempt only if it is still as it was read; the intent has been voided by then. */
  function Terminate(s: State, a: AttemptId, seen: Attempt, to: Status): Result<State>
  {
    if a >= |s.attempts| || !MayTerminate(seen, to) then Err(RecoveryPending) else
    var attempt := s.attempts[a];
    if && attempt.intent.Some? && attempt.intent == seen.intent && a in s.intents && s.intents[a].phase.Voided?
       && attempt.status == seen.status && attempt.evidence == seen.evidence
    then
      if Proves(attempt.evidence, to) then
        Ok(s.(attempts := s.attempts[a := attempt.(status := to)], mode := ReviewRequired))
      else Err(EvidenceInexact)
    else Err(RecoveryPending)
  }

  // ---- Consent ------------------------------------------------------------------------------------

  function Abandon(setups: seq<Setup>): (abandoned: seq<Setup>)
    ensures |abandoned| == |setups|
    ensures forall i :: 0 <= i < |setups| ==>
      abandoned[i] == if IsUnsettled(setups[i].status) then setups[i].(status := Abandoned) else setups[i]
  {
    seq(|setups|, i requires 0 <= i < |setups| =>
      if IsUnsettled(setups[i].status) then setups[i].(status := Abandoned) else setups[i])
  }

  function Consent(s: State, revision: Revision): State
  {
    s.(revisions := s.revisions + [revision], consent := Some(|s.revisions|),
       generation := s.generation + 1, mode := Active)
  }

  /** The customer changes the terms it has read as `generation` and `consent`. */
  function Update(s: State, generation: nat, consent: Option<RevisionId>, revision: Revision): Result<State>
  {
    if consent.None? then Err(UpdateUnavailable)
    else if s.generation != generation || s.consent != consent || !(s.mode.Active? || s.mode.Paused?)
    then Err(PredecessorChanged)
    else if AnyOpen(s.attempts) then Err(PaymentPending)
    else Ok(Consent(s, revision).(setups := Abandon(s.setups)))
  }

  function Deactivated(s: State): State
  {
    s.(generation := s.generation + 1, mode := Disabled, consent := None)
  }

  function Disable(s: State): Result<State>
  {
    if s.mode.Disabled? then Ok(s)
    else if AnyOpen(s.attempts) then Err(PaymentPending)
    else if s.consent.None? then Err(PredecessorMissing)
    else Ok(Deactivated(s).(setups := Abandon(s.setups)))
  }

  predicate AnyUnsettled(setups: seq<Setup>)
  {
    exists i :: 0 <= i < |setups| && IsUnsettled(setups[i].status)
  }

  /** What else the organisation has in flight: checkouts, add-ons and cancellations, or live team subscriptions. */
  datatype Blockers = Blockers(funding: bool, subscriptions: bool)

  /** What the database asks of whoever disables a team's top-up: active members with a managing role, or the owner. */
  datatype Requester = Requester(teamMember: bool, organisationMember: bool, manager: bool, owner: bool)

  predicate HasAuthority(who: Requester)
  {
    who.teamMember && who.organisationMember && (who.manager || who.owner)
  }

  /** The organisation takes over paying: refused while anything is in flight. */
  function TakeOver(s: State, elsewhere: Blockers, who: Requester): Result<State>
  {
    if AnyOpen(s.attempts) || AnyUnsettled(s.setups) || elsewhere.funding then Err(FundingInFlight)
    else if elsewhere.subscriptions then Err(SubscriptionsActive)
    else if s.mode.Disabled? then Ok(s)
    else if s.consent.None? then Err(PredecessorMissing)
    else if !HasAuthority(who) then Err(AuthorityMissing)
    else Ok(Deactivated(s))
  }

  // ---- Setup checkouts --------------------------------------------------------------------------------

  predicate SetupAllowed(seen: Mode, recovery: bool)
  {
    if recovery then seen.ActionRequired? || seen.ReviewRequired? || seen.Paused? else seen.Disabled?
  }

  predicate Predecessor(s: State, setup: Setup)
  {
    s.generation == setup.expectedGeneration && s.consent == setup.expectedConsent
  }

  /** Starts a setup for the account as it was read; the database rechecks what was read. */
  function CreateSetup(s: State, seen: Mode, recovery: bool, generation: nat, consent: Option<RevisionId>, terms: Terms)
    : Result<State>
  {
    var setup := Setup(generation, consent, terms, Creating, None, None);
    if !SetupAllowed(seen, recovery) then Err(SetupStateInvalid)
    else if AnyUnsettled(s.setups) then Err(SetupPending)
    else if !Predecessor(s, setup) then Err(PredecessorChanged)
    else Ok(s.(setups := s.setups + [setup]))
  }

  function OpenSetup(s: State, id: SetupId, session: nat): Result<State>
  {
    if id >= |s.setups| || !s.setups[id].status.Creating? || !Predecessor(s, s.setups[id]) then Err(PredecessorChanged)
    else Ok(s.(setups := s.setups[id := s.setups[id].(status := Opened, session := Some(session))]))
  }

  function SetupSucceeded(s: State, id: SetupId, session: nat, setupIntent: nat, card: nat): Result<State>
  {
    if id >= |s.setups| then Err(BindingInvalid) else
    var setup := s.setups[id];
    if setup.status.Complete? then
      if setup.completedBy == Some((setupIntent, card)) then Ok(s) else Err(RebindForbidden)
    else if setup.session != Some(session) then Err(BindingInvalid)
    else if !Predecessor(s, setup) then
      if IsUnsettled(setup.status) then Ok(s.(setups := s.setups[id := setup.(status := Abandoned)])) else Ok(s)
    else if !IsUnsettled(setup.status) then Err(SetupReopened)
    else if AnyOpen(s.attempts) then Err(PaymentPending)
    else
      var completed := s.setups[id := setup.(status := Complete, completedBy := Some((setupIntent, card)))];
      Ok(Consent(s, Revision(setup.terms, card)).(setups := completed))
  }

  function SetupExpired(s: State, id: SetupId, session: nat): Result<State>
  {
    if id >= |s.setups| || s.setups[id].session != Some(session) then Err(BindingInvalid)
    else if IsUnsettled(s.setups[id].status) then Ok(s.(setups := s.setups[id := s.setups[id].(status := Expired)]))
    else Ok(s)
  }

  // ---- Steps and runs -----------------------------------------------------------------------------

  datatype Event =
    | Claimed(month: Month, exact: bool)
    | Dispatched(attempt: AttemptId, crash: bool)
    | IntentCharged(attempt: AttemptId)
    | IntentVoided(attempt: AttemptId)
    | SuccessReported(attempt: AttemptId, intent: IntentId)
    | FailureReported(attempt: AttemptId, intent: IntentId, final: bool, evidence: Evidence)
    | StateReported(attempt: AttemptId, intent: IntentId, evidence: Evidence)
    | Recovered(attempt: AttemptId, seen: Attempt, to: Status)
    | Updated(generation: nat, consent: Option<RevisionId>, revision: Revision)
    | DisableRequested
    | TakenOver(elsewhere: Blockers, who: Requester)
    | SetupCreated(seenMode: Mode, recovery: bool, generation: nat, consent: Option<RevisionId>, terms: Terms)
    | SetupOpened(setup: SetupId, session: nat)
    | SetupReported(setup: SetupId, session: nat, setupIntent: nat, card: nat)
    | SetupExpiryReported(setup: SetupId, session: nat)
    | BalanceMoved(delta: int)
    | AdjustmentRecorded

  /** The provider settles a live intent one way or the other, once. */
  function Settle(s: State, a: AttemptId, phase: Phase): State
  {
    if a in s.intents && s.intents[a].phase.Live? then s.(intents := s.intents[a := s.intents[a].(phase := phase)]) else s
  }

  function Committed(s: State, r: Result<State>): State
  {
    if r.Ok? then r.value else s
  }

  /** Each event is one transaction; a refused one changes nothing. */
  function Step(g: SnapshotGuard, s: State, e: Event): State
  {
    match e
    case Claimed(month, exact) => ClaimAttempt(s, month, exact).0
    case Dispatched(a, crash) => Committed(s, DispatchAttempt(s, a, crash))
    case IntentCharged(a) => Settle(s, a, Charged)
    case IntentVoided(a) => Settle(s, a, Voided)
    case SuccessReported(a, intent) => Committed(s, PaymentSucceeded(s, a, intent))
    case FailureReported(a, intent, final, evidence) =>
      Committed(s, PaymentFailure(g, s, a, intent, final, evidence))
    case StateReported(a, intent, evidence) => Committed(s, PaymentStateChanged(g, s, a, intent, evidence))
    case Recovered(a, seen, to) => Committed(s, Terminate(s, a, seen, to))
    case Updated(generation, consent, revision) => Committed(s, Update(s, generation, consent, revision))
    case DisableRequested => Committed(s, Disable(s))
    case TakenOver(elsewhere, who) => Committed(s, TakeOver(s, elsewhere, who))
    case SetupCreated(seen, recovery, generation, consent, terms) =>
      Committed(s, CreateSetup(s, seen, recovery, generation, consent, terms))
    case SetupOpened(id, session) => Committed(s, OpenSetup(s, id, session))
    case SetupReported(id, session, setupIntent, card) =>
      Committed(s, SetupSucceeded(s, id, session, setupIntent, card))
    case SetupExpiryReported(id, session) => Committed(s, SetupExpired(s, id, session))
    case BalanceMoved(delta) => s.(balance := s.balance + delta)
    case AdjustmentRecorded => s.(mode := Unless(s, ReviewRequired))
  }

  /** The account after a sequence of events in any order. */
  function Run(g: SnapshotGuard, events: seq<Event>): State
  {
    if events == [] then Initial() else Step(g, Run(g, events[..|events| - 1]), events[|events| - 1])
  }
}
