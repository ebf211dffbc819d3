/** What every transaction of the automatic top-up comes to, in each case it can meet in a run. */
module AutoTopUpOutcomes {
  import opened Prelude
  import opened AutoTopUp
  import opened AutoTopUpTheorems

  /** The attempt has neither succeeded nor failed nor been canceled. */
  predicate Unresolved(attempt: Attempt)
  {
    !attempt.status.Succeeded? && !attempt.status.Failed? && !attempt.status.Canceled?
  }

  predicate AllResolved(s: State)
  {
    forall i :: 0 <= i < |s.attempts| ==> !Unresolved(s.attempts[i])
  }

  lemma UnresolvedIsOpen(s: State)
    ensures forall i :: 0 <= i < |s.attempts| ==> (Unresolved(s.attempts[i]) <==> IsOpen(s.attempts[i].status))
    ensures AllResolved(s) <==> !AnyOpen(s.attempts)
  {}

  // ---- Claims ------------------------------------------------------------------------------------------

  /** While an attempt is unresolved, claiming answers for it: to be dispatched exactly if it knows no intent yet. */
  lemma ClaimAnswersOpen(s: State, a: AttemptId, month: Month, exact: bool)
    requires Inv(s) && a < |s.attempts| && Unresolved(s.attempts[a])
    ensures ClaimAttempt(s, month, exact)
         == (s, if s.attempts[a].intent.None? then Dispatch(a, false) else AwaitingNotification(a))
    ensures s.attempts[a].intent.None? ==> s.attempts[a].status.Pending?
  {
    hide CapsKept, CreditsMatch, ModeMatches, SetupsCurrent, EvidenceMatches, ChargedIn;
    UnresolvedIsOpen(s);
    assert a == FirstOpen(s.attempts);
  }

  /** What the month's successful attempts have charged. */
  function SucceededIn(attempts: seq<Attempt>, month: Month): nat
  {
    if attempts == [] then 0 else
    SucceededIn(attempts[..|attempts| - 1], month)
    + (if attempts[|attempts| - 1].status.Succeeded? && attempts[|attempts| - 1].month == month
       then attempts[|attempts| - 1].terms.payment else 0)
  }

  lemma {:induction false} ChargedIsSucceeded(attempts: seq<Attempt>, month: Month)
    ensures ChargedIn(attempts, month) == SucceededIn(attempts, month)
  {
    if attempts != [] { ChargedIsSucceeded(attempts[..|attempts| - 1], month); }
  }

  /**
   * With nothing unresolved, claiming starts an attempt under the consent in force, or says what
   * keeps it from that: the mode, the threshold, a consent that no longer matches, the cap.
   */
  lemma ClaimAnswersNew(s: State, month: Month, exact: bool)
    requires Inv(s) && AllResolved(s)
    ensures var r := ClaimAttempt(s, month, exact);
      if s.mode != Active then r == (s, Skipped(ConfigurationInactive))
      else
        && s.consent.Some? && s.consent.value < |s.revisions|
        && var terms, charged := s.revisions[s.consent.value].terms, SucceededIn(s.attempts, month);
           if s.balance >= terms.threshold then r == (s, Skipped(ThresholdNotReached))
           else if !exact then r == (s, Skipped(ConfigurationInvalid))
           else if charged + terms.payment > terms.cap then r == (s, Skipped(MonthlyCapReached))
           else
             && r.1 == Dispatch(|s.attempts|, true)
             && r.0 == s.(attempts := s.attempts
                  + [Attempt(s.consent.value, terms, month, charged, Pending, None, None)])
  {
    hide CapsKept, CreditsMatch, IntentsMatch, SetupsCurrent, EvidenceMatches, ChargedIn;
    UnresolvedIsOpen(s);
    ChargedIsSucceeded(s.attempts, month);
  }

  // ---- Dispatch and crashes -------------------------------------------------------------------------------

  /** The attempt waits to be dispatched; whether the provider has been asked already is not known to it. */
  predicate Undispatched(s: State, a: AttemptId)
  {
    a < |s.attempts| && s.attempts[a].status.Pending? && s.attempts[a].intent.None?
  }

  /**
   * Dispatching asks the provider once, whatever came before: it keeps the intent that is there or
   * gets a new live one, and without a crash records it.
   */
  lemma DispatchRecords(s: State, a: AttemptId, crash: bool)
    requires Inv(s) && Undispatched(s, a)
    ensures var r := DispatchAttempt(s, a, crash);
      && r.Ok? && a in r.value.intents
      && (if a in s.intents then r.value.intents == s.intents && r.value.nextIntent == s.nextIntent
          else r.value.intents == s.intents[a := Intent(s.nextIntent, Live)] && r.value.nextIntent == s.nextIntent + 1)
      && r.value == s.(intents := r.value.intents, nextIntent := r.value.nextIntent,
           attempts := if crash then s.attempts
                       else s.attempts[a := s.attempts[a].(intent := Some(r.value.intents[a].id))])
  {
    hide OneOpen, CreditsMatch, IntentsMatch, ModeMatches, SetupsCurrent, EvidenceMatches, ChargedIn;
  }

  /** Once dispatched, dispatching again changes nothing. */
  lemma DispatchedOnce(s: State, a: AttemptId, crash: bool)
    requires Inv(s) && a < |s.attempts| && !Undispatched(s, a)
    ensures DispatchAttempt(s, a, crash) == Ok(s)
  {
    hide OneOpen, CreditsMatch, IntentsMatch, ModeMatches, SetupsCurrent, EvidenceMatches, ChargedIn;
  }

  /** What a run may do between the claim and the dispatch that succeeds: claim again, or crash. */
  predicate Retries(events: seq<Event>, a: AttemptId)
  {
    forall i :: 0 <= i < |events| ==> events[i].Claimed? || events[i] == Dispatched(a, true)
  }

  /**
   * However often a claimed attempt crashes, before the provider is asked or after, claiming again
   * answers that it is to be dispatched, and dispatching it then records its one intent; from then
   * on claims wait for the notification.
   */
  lemma CrashesRecover(g: SnapshotGuard, events: seq<Event>, a: AttemptId, retries: seq<Event>, month: Month, exact: bool)
    requires Undispatched(Run(g, events), a) && Retries(retries, a)
    ensures ClaimAttempt(Run(g, events + retries), month, exact) == (Run(g, events + retries), Dispatch(a, false))
    ensures var s := Run(g, events + retries + [Dispatched(a, false)]);
      && a < |s.attempts| && a in s.intents && s.attempts[a].intent == Some(s.intents[a].id)
      && (a in Run(g, events).intents ==> s.intents[a] == Run(g, events).intents[a])
      && ClaimAttempt(s, month, exact) == (s, AwaitingNotification(a))
  {
    hide Run, Inv, ClaimAttempt, DispatchAttempt;
    AlwaysInv(g, events + retries);
    RetriesKeep(g, events, a, retries);
    ClaimAnswersOpen(Run(g, events + retries), a, month, exact);
    DispatchRecords(Run(g, events + retries), a, false);
    RunAppend(g, events + retries, Dispatched(a, false));
    AlwaysInv(g, events + retries + [Dispatched(a, false)]);
    ClaimAnswersOpen(Run(g, events + retries + [Dispatched(a, false)]), a, month, exact);
  }

  lemma {:induction false} RetriesKeep(g: SnapshotGuard, events: seq<Event>, a: AttemptId, retries: seq<Event>)
    requires Undispatched(Run(g, events), a) && Retries(retries, a)
    ensures Undispatched(Run(g, events + retries), a)
    ensures a in Run(g, events).intents ==>
      a in Run(g, events + retries).intents && Run(g, events + retries).intents[a] == Run(g, events).intents[a]
  {
    hide Run, Inv, ClaimAttempt, DispatchAttempt;
    if retries == [] {
      assert events + retries == events;
    } else {
      var init, last := retries[..|retries| - 1], retries[|retries| - 1];
      RetriesKeep(g, events, a, init);
      assert events + retries == events + init + [last];
      RunAppend(g, events + init, last);
      AlwaysInv(g, events + init);
      match last
      case Claimed(month, exact) => ClaimAnswersOpen(Run(g, events + init), a, month, exact);
      case Dispatched(_, _) => DispatchRecords(Run(g, events + init), a, true);
    }
  }

  /** A claim that answers with a dispatch leaves an attempt that waits for one. */
  lemma ClaimedWaits(s: State, month: Month, exact: bool)
    requires Inv(s) && ClaimAttempt(s, month, exact).1.Dispatch?
    ensures Undispatched(ClaimAttempt(s, month, exact).0, ClaimAttempt(s, month, exact).1.attempt)
  {
    hide Inv;
  }

  predicate NothingWaits(s: State)
  {
    forall a :: 0 <= a < |s.attempts| ==> !Undispatched(s, a)
  }

  /** A claim and the dispatch of what it answers leave no attempt that waits to be dispatched. */
  lemma NoneWaits(s: State, month: Month, exact: bool)
    requires Inv(s)
    ensures var (after, claim) := ClaimAttempt(s, month, exact);
      && (claim.Dispatch? ==> DispatchAttempt(after, claim.attempt, false).Ok?)
      && NothingWaits(if claim.Dispatch? then DispatchAttempt(after, claim.attempt, false).value else after)
  {
    hide ClaimAttempt, DispatchAttempt, CapsKept, CreditsMatch, ModeMatches, SetupsCurrent, EvidenceMatches;
    ClaimKeeps(s, month, exact);
    var (after, claim) := ClaimAttempt(s, month, exact);
    if claim.Dispatch? {
      ClaimedWaits(s, month, exact);
      DispatchRecords(after, claim.attempt, false);
    } else {
      forall a | 0 <= a < |after.attempts| ensures !Undispatched(after, a) {
        if Undispatched(s, a) { ClaimAnswersOpen(s, a, month, exact); }
        ClaimAppends(s, month, exact);
      }
    }
  }

  // ---- Notifications ------------------------------------------------------------------------------------------

  /** A charge that is reported credits the unresolved attempt in full, and changes nothing else. */
  lemma SuccessOutcome(s: State, a: AttemptId, intent: IntentId)
    requires Inv(s)
    ensures var r := PaymentSucceeded(s, a, intent);
      if !(a in s.intents && s.intents[a] == Intent(intent, Charged)) then r == Err(BindingInvalid)
      else
        && a < |s.attempts|
        && var attempt := s.attempts[a];
           if attempt.status.Succeeded? then r == Ok(s)
           else if attempt.status.Failed? then r == Err(BindingInvalid)
           else r == Ok(s.(
             balance := s.balance + attempt.terms.credits,
             credits := s.credits + [Credit(a, intent, attempt.terms.credits)],
             attempts := s.attempts[a := attempt.(status := Succeeded, intent := Some(intent))]))
  {
    hide OneOpen, CapsKept, CreditsMatch, ModeMatches, SetupsCurrent, EvidenceMatches;
  }

  /** A stored notification is older than what is stored already. */
  predicate Outdated(attempt: Attempt, e: Evidence)
  {
    && attempt.evidence.Some? && attempt.evidence.value.id != e.id
    && (e.createdAt < attempt.evidence.value.createdAt
        || (e.createdAt == attempt.evidence.value.createdAt && e.receivedAt < attempt.evidence.value.receivedAt))
  }

  predicate Stores(attempt: Attempt, e: Evidence)
  {
    attempt.evidence.Some? && attempt.evidence.value.id == e.id
  }

  /**
   * A reported failure ends an unresolved attempt when it is final and otherwise puts it under
   * review, and marks the account for review; it is ignored where it has been told already or the
   * attempt has ended.
   */
  lemma FailureOutcome(g: SnapshotGuard, s: State, a: AttemptId, intent: IntentId, final: bool, e: Evidence)
    requires Inv(s)
    ensures var r := PaymentFailure(g, s, a, intent, final, e);
      if !(a in s.intents && s.intents[a].id == intent) || e.kind != PaymentFailed then r == Err(BindingInvalid)
      else
        && a < |s.attempts|
        && var attempt := s.attempts[a];
           if !Unresolved(attempt) || (attempt.status.NeedsReview? && Stores(attempt, e)) then r == Ok(s)
           else if g == AsWritten && !Stores(attempt, e) then r == Err(SnapshotImmutable)
           else if Outdated(attempt, e) then r == Err(OlderEvidence)
           else r == Ok(s.(
             mode := ReviewRequired,
             attempts := s.attempts[a := attempt.(
               status := if final then Failed else NeedsReview, intent := Some(intent), evidence := Some(e))]))
  {
    hide OneOpen, CapsKept, CreditsMatch, SetupsCurrent, EvidenceMatches;
    if a < |s.attempts| && IsOpen(s.attempts[a].status) { OpenEnabled(s, a); }
  }

  lemma OpenEnabled(s: State, a: AttemptId)
    requires Inv(s) && a < |s.attempts| && IsOpen(s.attempts[a].status)
    ensures !s.mode.Disabled?
  {
    OpenNotDisabled(s, a);
  }

  /** Processing and required action of one instant, in two notifications. */
  predicate Contradictory(attempt: Attempt, e: Evidence)
  {
    && attempt.evidence.Some? && attempt.evidence.value.id != e.id && attempt.evidence.value.createdAt == e.createdAt
    && ((attempt.evidence.value.kind == PaymentProcessing && e.kind == PaymentRequiresAction)
        || (attempt.evidence.value.kind == PaymentRequiresAction && e.kind == PaymentProcessing))
  }

  /**
   * A reported state becomes the unresolved attempt's, a contradiction a review; the account is
   * paused, asks for action, or is marked for review after a cancellation.
   */
  lemma StateOutcome(g: SnapshotGuard, s: State, a: AttemptId, intent: IntentId, e: Evidence)
    requires Inv(s)
    ensures var r := PaymentStateChanged(g, s, a, intent, e);
      if !(a in s.intents && s.intents[a].id == intent) || e.kind == PaymentFailed
         || (e.kind == PaymentCanceled && s.intents[a].phase != Voided)
      then r == Err(BindingInvalid)
      else
        && a < |s.attempts|
        && var attempt := s.attempts[a];
           if attempt.status.Succeeded? || attempt.status.Canceled? then r == Ok(s)
           else if attempt.status.Failed? then r == Err(StateConflict)
           else if g == AsWritten && !Stores(attempt, e) then r == Err(SnapshotImmutable)
           else if Outdated(attempt, e) then r == Err(OlderEvidence)
           else
             var status := if Contradictory(attempt, e) then NeedsReview
                           else match e.kind case PaymentProcessing => Processing case PaymentRequiresAction => RequiresAction
                                case _ => Canceled;
             var mode := match e.kind case PaymentProcessing => Paused case PaymentRequiresAction => ActionRequired
                         case _ => ReviewRequired;
             r == Ok(s.(
               mode := mode,
               attempts := s.attempts[a := attempt.(status := status, intent := Some(intent), evidence := Some(e))]))
  {
    hide OneOpen, CapsKept, CreditsMatch, SetupsCurrent, EvidenceMatches;
    if a < |s.attempts| && IsOpen(s.attempts[a].status) { OpenEnabled(s, a); }
  }

  // ---- Consent ---------------------------------------------------------------------------------------------------

  predicate Unfinished(setup: Setup)
  {
    setup.status.Creating? || setup.status.Opened? || setup.status.InReview?
  }

  /** Every unfinished setup has been abandoned, and the others are as they were. */
  predicate Abandoned(before: seq<Setup>, after: seq<Setup>)
  {
    && |after| == |before|
    && forall i :: 0 <= i < |before| ==>
         after[i] == if Unfinished(before[i]) then before[i].(status := CheckoutStatus.Abandoned) else before[i]
  }

  /**
   * The terms can be changed exactly from the consent and generation that stand, while the top-up is
   * active or paused and nothing is unresolved; the new terms are then in force at once.
   */
  lemma UpdateOutcome(s: State, generation: nat, consent: Option<RevisionId>, revision: Revision)
    requires Inv(s)
    ensures var r := Update(s, generation, consent, revision);
      if consent.None? then r == Err(UpdateUnavailable)
      else if s.generation != generation || s.consent != consent || (s.mode != Active && s.mode != Paused)
      then r == Err(PredecessorChanged)
      else if !AllResolved(s) then r == Err(PaymentPending)
      else
        && r.Ok? && Abandoned(s.setups, r.value.setups)
        && r.value == s.(revisions := s.revisions + [revision], consent := Some(|s.revisions|),
             generation := s.generation + 1, mode := Active, setups := r.value.setups)
  {
    hide Inv;
    UnresolvedIsOpen(s);
  }

  /** A top-up can be disabled exactly while nothing is unresolved; it then has no consent and no unfinished setup. */
  lemma DisableOutcome(s: State)
    requires Inv(s)
    ensures var r := Disable(s);
      if s.mode == Disabled then r == Ok(s)
      else if !AllResolved(s) then r == Err(PaymentPending)
      else
        && r.Ok? && Abandoned(s.setups, r.value.setups)
        && r.value == s.(generation := s.generation + 1, mode := Disabled, consent := None, setups := r.value.setups)
  {
    hide OneOpen, CapsKept, IntentsMatch, CreditsMatch, SetupsCurrent, EvidenceMatches;
    UnresolvedIsOpen(s);
  }

  /** A take-over disables the top-up, with the refusals in their order. */
  lemma TakeOverOutcome(s: State, elsewhere: Blockers, who: Requester)
    requires Inv(s)
    ensures var r := TakeOver(s, elsewhere, who);
      if !AllResolved(s) || (exists i :: 0 <= i < |s.setups| && Unfinished(s.setups[i])) || elsewhere.funding
      then r == Err(FundingInFlight)
      else if elsewhere.subscriptions then r == Err(SubscriptionsActive)
      else if s.mode == Disabled then r == Ok(s)
      else if !(who.teamMember && who.organisationMember && (who.manager || who.owner)) then r == Err(AuthorityMissing)
      else r == Ok(s.(generation := s.generation + 1, mode := Disabled, consent := None))
  {
    hide OneOpen, CapsKept, IntentsMatch, CreditsMatch, SetupsCurrent, EvidenceMatches;
    UnresolvedIsOpen(s);
    assert AnyUnsettled(s.setups) <==> exists i :: 0 <= i < |s.setups| && Unfinished(s.setups[i]) by {
      assert forall i :: 0 <= i < |s.setups| ==> (IsUnsettled(s.setups[i].status) <==> Unfinished(s.setups[i]));
    }
  }

  // ---- Setups ---------------------------------------------------------------------------------------------------------

  /** A setup is started for what was read, if it still stands and no other setup is unfinished. */
  lemma CreateOutcome(s: State, seen: Mode, recovery: bool, generation: nat, consent: Option<RevisionId>, terms: Terms)
    ensures var r := CreateSetup(s, seen, recovery, generation, consent, terms);
      if recovery != (seen == ActionRequired || seen == ReviewRequired || seen == Paused) || (!recovery && seen != Disabled)
      then r == Err(SetupStateInvalid)
      else if exists i :: 0 <= i < |s.setups| && Unfinished(s.setups[i]) then r == Err(SetupPending)
      else if s.generation != generation || s.consent != consent then r == Err(PredecessorChanged)
      else r == Ok(s.(setups := s.setups + [Setup(generation, consent, terms, Creating, None, None)]))
  {
    assert AnyUnsettled(s.setups) <==> exists i :: 0 <= i < |s.setups| && Unfinished(s.setups[i]) by {
      assert forall i :: 0 <= i < |s.setups| ==> (IsUnsettled(s.setups[i].status) <==> Unfinished(s.setups[i]));
    }
  }

  /** In a run a setup that is being created still stands on its predecessor, so it can be opened, and no other. */
  lemma OpenOutcome(s: State, id: SetupId, session: nat)
    requires Inv(s)
    ensures OpenSetup(s, id, session)
         == if id < |s.setups| && s.setups[id].status == Creating
            then Ok(s.(setups := s.setups[id := s.setups[id].(status := Opened, session := Some(session))]))
            else Err(PredecessorChanged)
  {
    hide OneOpen, CapsKept, IntentsMatch, CreditsMatch, ModeMatches, EvidenceMatches;
  }

  /**
   * A setup reported complete puts its terms and card in force exactly when it is unfinished and
   * nothing is unresolved; in a run an unfinished one always stands on its predecessor.
   */
  lemma SetupOutcome(s: State, id: SetupId, session: nat, setupIntent: nat, card: nat)
    requires Inv(s) && id < |s.setups|
    ensures var r, setup := SetupSucceeded(s, id, session, setupIntent, card), s.setups[id];
      if setup.status == Complete then
        r == if setup.completedBy == Some((setupIntent, card)) then Ok(s) else Err(RebindForbidden)
      else if setup.session != Some(session) then r == Err(BindingInvalid)
      else if !Unfinished(setup) then
        r == if s.generation == setup.expectedGeneration && s.consent == setup.expectedConsent then Err(SetupReopened) else Ok(s)
      else if !AllResolved(s) then r == Err(PaymentPending)
      else r == Ok(s.(
        revisions := s.revisions + [Revision(setup.terms, card)], consent := Some(|s.revisions|),
        generation := s.generation + 1, mode := Active,
        setups := s.setups[id := setup.(status := Complete, completedBy := Some((setupIntent, card)))]))
  {
    hide OneOpen, CapsKept, IntentsMatch, CreditsMatch, ModeMatches, EvidenceMatches;
    UnresolvedIsOpen(s);
  }

  /** A setup reported expired is so if it was unfinished, and stays as it was otherwise. */
  lemma ExpiryOutcome(s: State, id: SetupId, session: nat)
    ensures SetupExpired(s, id, session)
         == if id >= |s.setups| || s.setups[id].session != Some(session) then Err(BindingInvalid)
            else if Unfinished(s.setups[id]) then Ok(s.(setups := s.setups[id := s.setups[id].(status := Expired)]))
            else Ok(s)
  {}

  /** A recovery that goes through ends the attempt it has read as failed, and nothing else. */
  lemma RecoveryOutcome(s: State, a: AttemptId, seen: Attempt, to: Status)
    requires Inv(s)
    ensures var r := Terminate(s, a, seen, to);
      var stands := a < |s.attempts| && a in s.intents && s.intents[a].phase == Voided
        && s.attempts[a].intent.Some? && s.attempts[a].intent == seen.intent
        && s.attempts[a].status == seen.status && s.attempts[a].evidence == seen.evidence;
      if stands && to == Failed && seen.status == NeedsReview && seen.evidence.Some? && seen.evidence.value.kind == PaymentFailed
      then r == Ok(s.(mode := ReviewRequired, attempts := s.attempts[a := s.attempts[a].(status := Failed)]))
      else r == if stands && to == Canceled && Unresolved(seen) then Err(EvidenceInexact) else Err(RecoveryPending)
  {
    hide OneOpen, CapsKept, CreditsMatch, ModeMatches, SetupsCurrent;
  }

  // ---- Events ---------------------------------------------------------------------------------------------------------

  /** The provider settles a live intent, once. */
  lemma ProviderOutcome(g: SnapshotGuard, s: State, a: AttemptId)
    ensures var live := a in s.intents && s.intents[a].phase == Live;
      && Step(g, s, IntentCharged(a)) == (if live then s.(intents := s.intents[a := Intent(s.intents[a].id, Charged)]) else s)
      && Step(g, s, IntentVoided(a)) == (if live then s.(intents := s.intents[a := Intent(s.intents[a].id, Voided)]) else s)
  {}

  /** A payment adjustment marks the account for review, unless the top-up is disabled. */
  lemma AdjustmentMarks(g: SnapshotGuard, s: State)
    ensures Step(g, s, AdjustmentRecorded) == if s.mode == Disabled then s else s.(mode := ReviewRequired)
  {}

  /** Each event is its transaction; one that is refused changes nothing. */
  lemma EventsCommit(g: SnapshotGuard, s: State, e: Event)
    ensures e.Claimed? ==> Step(g, s, e) == ClaimAttempt(s, e.month, e.exact).0
    ensures var r := match e
        case Dispatched(a, crash) => DispatchAttempt(s, a, crash)
        case SuccessReported(a, intent) => PaymentSucceeded(s, a, intent)
        case FailureReported(a, intent, final, evidence) => PaymentFailure(g, s, a, intent, final, evidence)
        case StateReported(a, intent, evidence) => PaymentStateChanged(g, s, a, intent, evidence)
        case Recovered(a, seen, to) => Terminate(s, a, seen, to)
        case Updated(generation, consent, revision) => Update(s, generation, consent, revision)
        case DisableRequested => Disable(s)
        case TakenOver(elsewhere, who) => TakeOver(s, elsewhere, who)
        case SetupCreated(seen, recovery, generation, consent, terms) =>
          CreateSetup(s, seen, recovery, generation, consent, terms)
        case SetupOpened(id, session) => OpenSetup(s, id, session)
        case SetupReported(id, session, setupIntent, card) => SetupSucceeded(s, id, session, setupIntent, card)
        case SetupExpiryReported(id, session) => SetupExpired(s, id, session)
        case _ => Ok(Step(g, s, e));
      Step(g, s, e) == if r.Ok? then r.value else s
  {}
}
