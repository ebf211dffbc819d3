/**
 * What the snapshot guard of attempts decides: as it is written, no report about an attempt is
 * ever stored, and an attempt whose payment intent has been voided stays unresolved for good.
 */
module AutoTopUpGuard {
  import opened Prelude
  import opened AutoTopUp
  import opened AutoTopUpTheorems

  // ---- No report is stored -------------------------------------------------------------------------

  /** No report has reached an attempt: each is pending or has succeeded. */
  ghost predicate Untold(s: State)
  {
    forall i :: 0 <= i < |s.attempts| ==>
      s.attempts[i].evidence.None? && (s.attempts[i].status.Pending? || s.attempts[i].status.Succeeded?)
  }

  lemma StepUntold(s: State, e: Event)
    requires Inv(s) && Untold(s)
    ensures Untold(Step(AsWritten, s, e))
  {
    hide Inv, Update, Disable, TakeOver, SetupSucceeded, CreateSetup, OpenSetup, SetupExpired;
    match e
    case Updated(_, _, _) => SetupsApart(s, e);
    case DisableRequested => SetupsApart(s, e);
    case TakenOver(_, _) => SetupsApart(s, e);
    case SetupReported(_, _, _, _) => SetupsApart(s, e);
    case SetupCreated(_, _, _, _, _) => SetupsApart(s, e);
    case SetupOpened(_, _) => SetupsApart(s, e);
    case SetupExpiryReported(_, _) => SetupsApart(s, e);
    case _ =>
  }

  /** What concerns the consent and its setups. */
  predicate ConcernsConsent(e: Event)
  {
    e.Updated? || e.DisableRequested? || e.TakenOver? || e.SetupReported? || e.SetupCreated? || e.SetupOpened?
    || e.SetupExpiryReported?
  }

  lemma SetupsApart(s: State, e: Event)
    requires ConcernsConsent(e)
    ensures var after := Step(AsWritten, s, e);
      after.attempts == s.attempts && after.intents == s.intents && after.credits == s.credits
  {}

  lemma {:induction false} AlwaysUntold(events: seq<Event>)
    ensures Untold(Run(AsWritten, events))
  {
    hide Inv, Step;
    if events != [] {
      AlwaysInv(AsWritten, events[..|events| - 1]);
      AlwaysUntold(events[..|events| - 1]);
      StepUntold(Run(AsWritten, events[..|events| - 1]), events[|events| - 1]);
    }
  }

  /** In every run of the database as written an attempt is pending or has succeeded, and has no evidence. */
  lemma {:induction false} AttemptsAsWritten(events: seq<Event>, i: AttemptId)
    requires i < |Run(AsWritten, events).attempts|
    ensures var attempt := Run(AsWritten, events).attempts[i];
      attempt.evidence.None? && (attempt.status.Pending? || attempt.status.Succeeded?)
  {
    hide Run;
    AlwaysUntold(events);
  }

  /** Whether the report would change something if only the guard allowed it. */
  predicate WouldChange(s: State, e: Event)
    requires e.FailureReported? || e.StateReported?
  {
    Reported(Extended, s, e).Ok? && Reported(Extended, s, e).value != s
  }

  /**
   * A report that would change an attempt is stored exactly when the guard lists the evidence
   * column; the outcome of every other report does not depend on it.
   */
  lemma ReportCommits(g: SnapshotGuard, events: seq<Event>, e: Event)
    requires e.FailureReported? || e.StateReported?
    ensures var s := Run(g, events);
      Reported(g, s, e)
      == if WouldChange(s, e) && !g.Extended? then Err(SnapshotImmutable) else Reported(Extended, s, e)
  {
    hide Run;
    if g.AsWritten? {
      AlwaysUntold(events);
    }
  }

  /** The first failure that is reported is refused. */
  lemma FirstFailureRefused()
    ensures var s := Run(AsWritten, Opening());
      var e := FailureReported(0, 0, true, Evidence(0, PaymentFailed, 5, 5));
      && s == Dispatching(Pending, None, Active, Live)
      && WouldChange(s, e) && Reported(AsWritten, s, e) == Err(SnapshotImmutable)
  {
    hide Run, Opening;
    OpeningRun(AsWritten);
  }

  /** Nothing is ever reported failed, so every charge that is reported is credited. */
  lemma SuccessAlwaysCredited(events: seq<Event>, a: AttemptId)
    requires var s := Run(AsWritten, events); a in s.intents && s.intents[a].phase.Charged?
    ensures var s := Run(AsWritten, events);
      var r := PaymentSucceeded(s, a, s.intents[a].id);
      r.Ok? && a < |r.value.attempts| && r.value.attempts[a].status.Succeeded? && Credited(r.value.credits, a)
  {
    hide Run, PaymentSucceeded;
    ChargeCredited(AsWritten, events, a);
    AttemptsAsWritten(events, a);
  }

  /** Nothing is ever under review, so a recovery ends nothing. */
  lemma RecoveryEndsNothing(events: seq<Event>, a: AttemptId, seen: Attempt, to: Status)
    ensures Terminate(Run(AsWritten, events), a, seen, to).Err?
  {
    hide Run;
    AlwaysUntold(events);
  }

  // ---- A voided intent ---------------------------------------------------------------------------------

  /** The attempt is pending, and its intent can no longer be charged. */
  predicate Stuck(s: State, a: AttemptId)
  {
    a < |s.attempts| && s.attempts[a].status.Pending? && a in s.intents && s.intents[a].phase.Voided?
  }

  /** The consent and what has been charged under it. */
  predicate SameTerms(s: State, after: State)
  {
    && after.consent == s.consent && after.generation == s.generation && after.revisions == s.revisions
    && |after.attempts| == |s.attempts| && after.credits == s.credits && after.intents.Keys == s.intents.Keys
  }

  /** What is refused while an attempt is stuck. */
  lemma StuckRefuses(s: State, a: AttemptId, month: Month, exact: bool, generation: nat, consent: Option<RevisionId>,
                     revision: Revision, elsewhere: Blockers, who: Requester)
    requires Inv(s) && Stuck(s, a)
    ensures ClaimAttempt(s, month, exact) in {(s, AwaitingNotification(a)), (s, Dispatch(a, false))}
    ensures Update(s, generation, consent, revision).Err?
    ensures Disable(s) == Err(PaymentPending) && TakeOver(s, elsewhere, who) == Err(FundingInFlight)
  {
    hide CapsKept, CreditsMatch, IntentsMatch, SetupsCurrent, EvidenceMatches;
  }

  /** A setup that is reported complete gives no new consent. */
  lemma StuckSetup(s: State, a: AttemptId, id: SetupId, session: nat, setupIntent: nat, card: nat)
    requires Stuck(s, a)
    ensures var r := SetupSucceeded(s, id, session, setupIntent, card);
      && (r.Ok? ==> r.value == s.(setups := r.value.setups))
      && (r.Ok? ==> forall i :: 0 <= i < |r.value.setups| && r.value.setups[i].status.Complete? ==>
            i < |s.setups| && s.setups[i].status.Complete?)
  {}

  lemma StuckStep(s: State, e: Event, a: AttemptId)
    requires Inv(s) && Untold(s) && Stuck(s, a)
    ensures var after := Step(AsWritten, s, e); Stuck(after, a) && SameTerms(s, after)
  {
    hide CapsKept, CreditsMatch, SetupsCurrent, EvidenceMatches, Update, Disable, TakeOver, SetupSucceeded, ClaimAttempt;
    match e
    case Claimed(month, exact) => StuckClaim(s, a, month, exact);
    case Updated(generation, consent, revision) => StuckConsent(s, e, a);
    case DisableRequested => StuckConsent(s, e, a);
    case TakenOver(elsewhere, who) => StuckConsent(s, e, a);
    case SetupReported(id, session, setupIntent, card) => StuckSetup(s, a, id, session, setupIntent, card);
    case _ =>
  }

  lemma StuckClaim(s: State, a: AttemptId, month: Month, exact: bool)
    requires Inv(s) && Stuck(s, a)
    ensures ClaimAttempt(s, month, exact).0 == s
  {
    hide Inv;
    assert IsOpen(s.attempts[a].status);
  }

  lemma StuckConsent(s: State, e: Event, a: AttemptId)
    requires Inv(s) && Stuck(s, a) && (e.Updated? || e.DisableRequested? || e.TakenOver?)
    ensures Step(AsWritten, s, e) == s
  {
    hide CapsKept, CreditsMatch, IntentsMatch, SetupsCurrent, EvidenceMatches;
    assert IsOpen(s.attempts[a].status);
  }

  /**
   * As written, an unresolved attempt whose intent has been voided stays pending whatever comes:
   * the consent never changes again, nothing is claimed or charged, and the top-up can neither be
   * changed, nor disabled, nor taken over, nor set up anew, nor can a recovery end the attempt.
   */
  lemma {:induction false} StuckForGood(events: seq<Event>, more: seq<Event>, a: AttemptId)
    requires a < |Run(AsWritten, events).attempts| && IsOpen(Run(AsWritten, events).attempts[a].status)
    requires a in Run(AsWritten, events).intents && Run(AsWritten, events).intents[a].phase.Voided?
    ensures var after := Run(AsWritten, events + more);
      Stuck(after, a) && SameTerms(Run(AsWritten, events), after)
  {
    hide Step, Inv, Untold, SameTerms;
    if more == [] {
      assert events + more == events;
      AttemptsAsWritten(events, a);
      assert SameTerms(Run(AsWritten, events), Run(AsWritten, events)) by { TermsStay(Run(AsWritten, events)); }
    } else {
      var init := more[..|more| - 1];
      StuckForGood(events, init, a);
      assert (events + more)[..|events + more| - 1] == events + init;
      AlwaysInv(AsWritten, events + init);
      AlwaysUntold(events + init);
      StuckStep(Run(AsWritten, events + init), more[|more| - 1], a);
      TermsFollow(Run(AsWritten, events), Run(AsWritten, events + init), Run(AsWritten, events + more));
    }
  }

  lemma TermsStay(s: State)
    ensures SameTerms(s, s)
  {}

  lemma TermsFollow(s: State, t: State, u: State)
    requires SameTerms(s, t) && SameTerms(t, u)
    ensures SameTerms(s, u)
  {}

  /** An unresolved attempt has a future in which it is resolved exactly while its intent is not voided. */
  lemma ResolvedOnlyByCharge(events: seq<Event>, a: AttemptId)
    requires a < |Run(AsWritten, events).attempts| && IsOpen(Run(AsWritten, events).attempts[a].status)
    ensures (exists more :: Resolves(events, more, a))
      <==> !(a in Run(AsWritten, events).intents && Run(AsWritten, events).intents[a].phase.Voided?)
  {
    hide Run;
    if a in Run(AsWritten, events).intents && Run(AsWritten, events).intents[a].phase.Voided? {
      forall more ensures !Resolves(events, more, a) { StuckForGood(events, more, a); }
    } else {
      var more := Charging(events, a);
    }
  }

  ghost predicate Resolves(events: seq<Event>, more: seq<Event>, a: AttemptId)
  {
    var after := Run(AsWritten, events + more);
    a < |after.attempts| && !IsOpen(after.attempts[a].status)
  }

  /** The intent is created if need be, charged, and the charge is reported. */
  lemma Charging(events: seq<Event>, a: AttemptId) returns (more: seq<Event>)
    requires a < |Run(AsWritten, events).attempts| && IsOpen(Run(AsWritten, events).attempts[a].status)
    requires var s := Run(AsWritten, events); a in s.intents ==> !s.intents[a].phase.Voided?
    ensures Resolves(events, more, a)
  {
    hide Run, Inv, BoundToConsent;
    AttemptsAsWritten(events, a);
    BindingHolds(AsWritten, events, a, false);
    var first, second := Dispatched(a, false), IntentCharged(a);
    RunAppend(AsWritten, events, first);
    RunAppend(AsWritten, events + [first], second);
    AlwaysInv(AsWritten, events);
    KnownIntent(Run(AsWritten, events), a);
    var s := Run(AsWritten, events + [first] + [second]);
    var third := SuccessReported(a, s.intents[a].id);
    RunAppend(AsWritten, events + [first] + [second], third);
    SuccessAlwaysCredited(events + [first] + [second], a);
    more := [first] + [second] + [third];
    assert events + more == events + [first] + [second] + [third];
  }

  lemma KnownIntent(s: State, a: AttemptId)
    requires Inv(s) && a < |s.attempts|
    ensures s.attempts[a].intent.Some? ==> a in s.intents
  {}
}
