/** What holds of automatic top-ups in every run. */
module AutoTopUpTheorems {
  import opened Prelude
  import opened AutoTopUp

  // ---- The invariant -----------------------------------------------------------------------------

  /** Only the newest attempt can be unresolved, and it runs under the consent in force. */
  ghost predicate OneOpen(s: State)
  {
    && (forall i :: 0 <= i < |s.attempts| - 1 ==> !IsOpen(s.attempts[i].status))
    && forall i :: 0 <= i < |s.attempts| && IsOpen(s.attempts[i].status) ==> s.consent == Some(s.attempts[i].revision)
  }

  /** Every attempt was claimed within the cap, counting exactly what had been charged before it. */
  ghost predicate CapsKept(s: State)
  {
    forall i :: 0 <= i < |s.attempts| ==>
      && BoundToConsent(s, s.attempts[i])
      && s.attempts[i].chargedBefore == ChargedIn(s.attempts[..i], s.attempts[i].month)
  }

  /** The database never knows another intent than the provider's, and never a wrong end of it. */
  ghost predicate IntentsMatch(s: State)
  {
    && (forall a :: a in s.intents ==> a < |s.attempts| && s.intents[a].id < s.nextIntent)
    && (forall a, b :: a in s.intents && b in s.intents && a != b ==> s.intents[a].id != s.intents[b].id)
    && forall i :: 0 <= i < |s.attempts| ==>
         var attempt := s.attempts[i];
         && (attempt.intent.Some? ==> i in s.intents && attempt.intent.value == s.intents[i].id)
         && (attempt.intent.None? ==> attempt.status.Pending?)
         && (attempt.status.Succeeded? ==> s.intents[i].phase.Charged?)
         && (attempt.status.Canceled? ==> s.intents[i].phase.Voided?)
  }

  /** One credit for each successful attempt, in its amount and for its intent, and no other. */
  ghost predicate CreditsMatch(s: State)
  {
    && (forall i :: 0 <= i < |s.credits| ==>
          var c := s.credits[i];
          && c.attempt < |s.attempts| && s.attempts[c.attempt].status.Succeeded?
          && s.attempts[c.attempt].intent == Some(c.intent) && c.amount == s.attempts[c.attempt].terms.credits)
    && (forall i, j :: 0 <= i < j < |s.credits| ==> s.credits[i].attempt != s.credits[j].attempt)
    && forall a :: 0 <= a < |s.attempts| && s.attempts[a].status.Succeeded? ==> Credited(s.credits, a)
  }

  ghost predicate Credited(credits: seq<Credit>, a: AttemptId)
  {
    exists i :: 0 <= i < |credits| && credits[i].attempt == a
  }

  /** Without a consent the account is disabled, and a disabled account has none. */
  ghost predicate ModeMatches(s: State)
  {
    && (s.mode.Disabled? <==> s.consent.None?)
    && (s.consent.Some? ==> s.consent.value < |s.revisions|)
  }

  /** An unsettled setup started from the consent in force, and there is at most one. */
  ghost predicate SetupsCurrent(s: State)
  {
    && (forall i :: 0 <= i < |s.setups| ==> s.setups[i].expectedGeneration <= s.generation)
    && (forall i :: 0 <= i < |s.setups| && IsUnsettled(s.setups[i].status) ==> Predecessor(s, s.setups[i]))
    && forall i, j :: 0 <= i < j < |s.setups| ==>
         !(IsUnsettled(s.setups[i].status) && IsUnsettled(s.setups[j].status))
  }

  /** An attempt rests on the notification its status speaks of. */
  predicate RestsOn(status: Status, evidence: Option<Evidence>)
  {
    match status
    case Pending => evidence.None?
    case Processing => evidence.Some? && evidence.value.kind.PaymentProcessing?
    case RequiresAction => evidence.Some? && evidence.value.kind.PaymentRequiresAction?
    case NeedsReview => evidence.Some? && !evidence.value.kind.PaymentCanceled?
    case Failed => evidence.Some? && evidence.value.kind.PaymentFailed?
    case Canceled => evidence.Some? && evidence.value.kind.PaymentCanceled?
    case Succeeded => true
  }

  /** The modes an account can be in while an attempt rests on its evidence. */
  predicate Fits(mode: Mode, status: Status, evidence: Option<Evidence>)
  {
    (status.Processing? || status.RequiresAction? || status.NeedsReview?) && evidence.Some? ==>
      mode.ReviewRequired? || (!evidence.value.kind.PaymentFailed? && mode == ModeOf(evidence.value.kind))
  }

  ghost predicate EvidenceMatches(s: State)
  {
    forall i :: 0 <= i < |s.attempts| ==>
      RestsOn(s.attempts[i].status, s.attempts[i].evidence) && Fits(s.mode, s.attempts[i].status, s.attempts[i].evidence)
  }

  ghost predicate Inv(s: State)
  {
    OneOpen(s) && CapsKept(s) && IntentsMatch(s) && CreditsMatch(s) && ModeMatches(s) && SetupsCurrent(s)
    && EvidenceMatches(s)
  }

  // ---- Attempts ------------------------------------------------------------------------------------

  /** When an attempt may be started. */
  ghost predicate MayClaim(s: State, month: Month, exact: bool)
  {
    && !AnyOpen(s.attempts) && s.mode.Active? && HasConsent(s) && exact
    && var terms := s.revisions[s.consent.value].terms;
       s.balance < terms.threshold && ChargedIn(s.attempts, month) + terms.payment <= terms.cap
  }

  /**
   * An attempt is started exactly when none is unresolved, the top-up is active under a consent
   * that still matches, the balance is below its threshold and its cap leaves room; it carries
   * the consented terms and what the month has charged so far.
   */
  lemma ClaimAppends(s: State, month: Month, exact: bool)
    ensures var (after, claim) := ClaimAttempt(s, month, exact);
      if MayClaim(s, month, exact) then
        var terms := s.revisions[s.consent.value].terms;
        && after == s.(attempts := s.attempts
             + [Attempt(s.consent.value, terms, month, ChargedIn(s.attempts, month), Pending, None, None)])
        && claim == Dispatch(|s.attempts|, true)
      else after == s && claim != Dispatch(|s.attempts|, true)
  {}

  lemma AppendCaps(s: State, attempt: Attempt)
    requires CapsKept(s) && BoundToConsent(s, attempt)
    requires attempt.chargedBefore == ChargedIn(s.attempts, attempt.month)
    ensures CapsKept(s.(attempts := s.attempts + [attempt]))
  {
    hide ChargedIn;
    var all := s.attempts + [attempt];
    assert forall i :: 0 <= i < |s.attempts| ==> all[..i] == s.attempts[..i];
    assert all[..|s.attempts|] == s.attempts;
  }

  lemma AppendCredits(s: State, attempt: Attempt)
    requires CreditsMatch(s) && !attempt.status.Succeeded?
    ensures CreditsMatch(s.(attempts := s.attempts + [attempt]))
  {
    hide Credited;
  }

  lemma ClaimKeeps(s: State, month: Month, exact: bool)
    requires Inv(s)
    ensures Inv(ClaimAttempt(s, month, exact).0)
  {
    hide CapsKept, CreditsMatch, ClaimAttempt;
    ClaimAppends(s, month, exact);
    var after := ClaimAttempt(s, month, exact).0;
    if after != s {
      var attempt := after.attempts[|s.attempts|];
      AppendCaps(s, attempt);
      AppendCredits(s, attempt);
    }
  }

  /** Replacing the newest attempt by one under the same terms. */
  lemma ReplaceCaps(s: State, a: AttemptId, next: Attempt)
    requires CapsKept(s) && a == |s.attempts| - 1
    requires next.revision == s.attempts[a].revision && next.terms == s.attempts[a].terms
    requires next.month == s.attempts[a].month && next.chargedBefore == s.attempts[a].chargedBefore
    ensures CapsKept(s.(attempts := s.attempts[a := next]))
  {
    hide ChargedIn;
    assert forall i :: 0 <= i < |s.attempts| ==> s.attempts[a := next][..i] == s.attempts[..i];
  }

  lemma ReplaceCredits(s: State, a: AttemptId, next: Attempt)
    requires CreditsMatch(s) && a < |s.attempts|
    requires !s.attempts[a].status.Succeeded? && !next.status.Succeeded?
    ensures CreditsMatch(s.(attempts := s.attempts[a := next]))
  {
    hide Credited;
  }

  lemma ReplaceIntents(s: State, a: AttemptId, next: Attempt)
    requires IntentsMatch(s) && a < |s.attempts| && a in s.intents && next.intent == Some(s.intents[a].id)
    requires next.status.Succeeded? ==> s.intents[a].phase.Charged?
    requires next.status.Canceled? ==> s.intents[a].phase.Voided?
    ensures IntentsMatch(s.(attempts := s.attempts[a := next]))
  {}

  /** A transaction that moves one unresolved attempt without crediting it. */
  lemma MoveKeeps(s: State, a: AttemptId, next: Attempt, mode: Mode, after: State)
    requires Inv(s) && a < |s.attempts| && IsOpen(s.attempts[a].status)
    requires next.revision == s.attempts[a].revision && next.terms == s.attempts[a].terms
    requires next.month == s.attempts[a].month && next.chargedBefore == s.attempts[a].chargedBefore
    requires !next.status.Succeeded? && a in s.intents && next.intent == Some(s.intents[a].id)
    requires next.status.Canceled? ==> s.intents[a].phase.Voided?
    requires mode == s.mode || !mode.Disabled?
    requires RestsOn(next.status, next.evidence) && Fits(mode, next.status, next.evidence)
    requires after == s.(attempts := s.attempts[a := next], mode := mode)
    ensures Inv(after)
  {
    hide CapsKept, CreditsMatch, IntentsMatch;
    assert a == |s.attempts| - 1;
    ReplaceCaps(s, a, next);
    ReplaceCredits(s, a, next);
    ReplaceIntents(s, a, next);
    SameBooks(s.(attempts := s.attempts[a := next]), after);
  }

  lemma SameBooks(s: State, t: State)
    requires s.attempts == t.attempts && s.intents == t.intents && s.credits == t.credits
    requires s.nextIntent == t.nextIntent && s.revisions == t.revisions
    ensures CapsKept(s) ==> CapsKept(t)
    ensures CreditsMatch(s) ==> CreditsMatch(t)
    ensures IntentsMatch(s) ==> IntentsMatch(t)
  {}

  lemma DispatchKeeps(s: State, a: AttemptId, crash: bool)
    requires Inv(s)
    ensures Inv(Committed(s, DispatchAttempt(s, a, crash)))
    ensures a < |s.attempts| ==> DispatchAttempt(s, a, crash).Ok?
  {
    var r := DispatchAttempt(s, a, crash);
    if r.Ok? && r.value != s {
      var created := CreateIntent(s, a);
      IntentKeeps(s, a);
      if !crash {
        MoveKeeps(created, a, s.attempts[a].(intent := Some(created.intents[a].id)), s.mode, r.value);
      }
    }
  }

  /** What the provider does concerns the intents alone. */
  lemma ProviderKeeps(s: State, after: State)
    requires Inv(s) && IntentsMatch(after)
    requires after == s.(intents := after.intents, nextIntent := after.nextIntent)
    ensures Inv(after)
  {
    hide ChargedIn, IntentsMatch;
  }

  lemma IntentKeeps(s: State, a: AttemptId)
    requires Inv(s) && a < |s.attempts|
    ensures Inv(CreateIntent(s, a))
  {
    CreateMatches(s, a);
    ProviderKeeps(s, CreateIntent(s, a));
  }

  lemma CreateMatches(s: State, a: AttemptId)
    requires IntentsMatch(s) && a < |s.attempts|
    ensures IntentsMatch(CreateIntent(s, a))
  {}

  lemma SettleKeeps(s: State, a: AttemptId, phase: Phase)
    requires Inv(s)
    ensures Inv(Settle(s, a, phase))
  {
    SettleMatches(s, a, phase);
    ProviderKeeps(s, Settle(s, a, phase));
  }

  lemma SettleMatches(s: State, a: AttemptId, phase: Phase)
    requires IntentsMatch(s)
    ensures IntentsMatch(Settle(s, a, phase))
  {}

  /** Success moves the attempt, writes its one credit and adds it to the balance. */
  lemma SuccessKeeps(s: State, a: AttemptId, intent: IntentId)
    requires Inv(s)
    ensures Inv(Committed(s, PaymentSucceeded(s, a, intent)))
  {
    hide CapsKept, CreditsMatch, IntentsMatch;
    var r := PaymentSucceeded(s, a, intent);
    if r.Ok? && r.value != s {
      var next := s.attempts[a].(status := Succeeded, intent := Some(intent));
      assert a == |s.attempts| - 1;
      ReplaceCaps(s, a, next);
      ReplaceIntents(s, a, next);
      CreditNewest(s, a, next);
      SameCaps(s.(attempts := s.attempts[a := next]), r.value);
    }
  }

  lemma SameCaps(s: State, t: State)
    requires s.attempts == t.attempts && s.revisions == t.revisions
    requires s.intents == t.intents && s.nextIntent == t.nextIntent
    ensures CapsKept(s) ==> CapsKept(t)
    ensures IntentsMatch(s) ==> IntentsMatch(t)
  {}

  lemma CreditNewest(s: State, a: AttemptId, next: Attempt)
    requires CreditsMatch(s) && a < |s.attempts| && !s.attempts[a].status.Succeeded?
    requires next.status.Succeeded? && next.intent.Some?
    ensures forall t: State ::
      t.attempts == s.attempts[a := next] && t.credits == s.credits + [Credit(a, next.intent.value, next.terms.credits)]
      ==> CreditsMatch(t)
  {
    var credits := s.credits + [Credit(a, next.intent.value, next.terms.credits)];
    forall x | 0 <= x < |s.attempts| && s.attempts[a := next][x].status.Succeeded? ensures Credited(credits, x) {
      if x == a {
        assert credits[|s.credits|].attempt == a;
      } else {
        assert Credited(s.credits, x);
        var i :| 0 <= i < |s.credits| && s.credits[i].attempt == x;
        assert credits[i].attempt == x;
      }
    }
  }

  lemma OpenNotDisabled(s: State, a: AttemptId)
    requires Inv(s) && a < |s.attempts| && IsOpen(s.attempts[a].status)
    ensures !s.mode.Disabled?
  {}

  lemma FailureKeeps(g: SnapshotGuard, s: State, a: AttemptId, intent: IntentId, final: bool, e: Evidence)
    requires Inv(s)
    ensures Inv(Committed(s, PaymentFailure(g, s, a, intent, final, e)))
  {
    hide Inv;
    var r := PaymentFailure(g, s, a, intent, final, e);
    if r.Ok? && r.value != s {
      OpenNotDisabled(s, a);
      MoveKeeps(s, a, r.value.attempts[a], r.value.mode, r.value);
    }
  }

  lemma StateChangeKeeps(g: SnapshotGuard, s: State, a: AttemptId, intent: IntentId, e: Evidence)
    requires Inv(s)
    ensures Inv(Committed(s, PaymentStateChanged(g, s, a, intent, e)))
  {
    hide Inv;
    var r := PaymentStateChanged(g, s, a, intent, e);
    if r.Ok? && r.value != s {
      OpenNotDisabled(s, a);
      MoveKeeps(s, a, r.value.attempts[a], r.value.mode, r.value);
    }
  }

  lemma TerminateKeeps(s: State, a: AttemptId, seen: Attempt, to: Status)
    requires Inv(s)
    ensures Inv(Committed(s, Terminate(s, a, seen, to)))
  {
    var r := Terminate(s, a, seen, to);
    if r.Ok? {
      MoveKeeps(s, a, s.attempts[a].(status := to), ReviewRequired, r.value);
    }
  }

  // ---- Consents -------------------------------------------------------------------------------------

  /** What a change of consent does not touch. */
  lemma ConsentChangeKeeps(s: State, after: State)
    requires Inv(s) && !AnyOpen(s.attempts)
    requires after.attempts == s.attempts && after.intents == s.intents && after.credits == s.credits
    requires after.nextIntent == s.nextIntent && s.revisions <= after.revisions
    ensures OneOpen(after) && CapsKept(after) && IntentsMatch(after) && CreditsMatch(after)
  {}

  lemma UpdateKeeps(s: State, generation: nat, consent: Option<RevisionId>, revision: Revision)
    requires Inv(s)
    ensures Inv(Committed(s, Update(s, generation, consent, revision)))
  {
    hide OneOpen, CapsKept, IntentsMatch, CreditsMatch;
    var r := Update(s, generation, consent, revision);
    if r.Ok? { ConsentChangeKeeps(s, r.value); }
  }

  lemma DisableKeeps(s: State)
    requires Inv(s)
    ensures Inv(Committed(s, Disable(s)))
    ensures Disable(s) != Err(PredecessorMissing)
  {
    hide OneOpen, CapsKept, IntentsMatch, CreditsMatch;
    var r := Disable(s);
    if r.Ok? && r.value != s { ConsentChangeKeeps(s, r.value); }
  }

  lemma TakeOverKeeps(s: State, elsewhere: Blockers, who: Requester)
    requires Inv(s)
    ensures Inv(Committed(s, TakeOver(s, elsewhere, who)))
    ensures TakeOver(s, elsewhere, who) != Err(PredecessorMissing)
  {
    hide OneOpen, CapsKept, IntentsMatch, CreditsMatch;
    var r := TakeOver(s, elsewhere, who);
    if r.Ok? && r.value != s { ConsentChangeKeeps(s, r.value); }
  }

  /**
   * A take-over goes through exactly when nothing is in flight, no subscription is live and, where
   * there is a top-up to disable, its requester has the authority: an owner who is not a member
   * of the team has not.
   */
  lemma TakeOverAccepted(g: SnapshotGuard, events: seq<Event>, elsewhere: Blockers, who: Requester)
    ensures var s := Run(g, events);
      TakeOver(s, elsewhere, who).Ok?
      <==> !AnyOpen(s.attempts) && !AnyUnsettled(s.setups) && !elsewhere.funding && !elsewhere.subscriptions
           && (s.mode.Disabled? || HasAuthority(who))
  {
    hide Run, Inv, AnyOpen, AnyUnsettled;
    AlwaysInv(g, events);
    TakeOverKeeps(Run(g, events), elsewhere, who);
  }

  lemma SetupReportKeeps(s: State, id: SetupId, session: nat, setupIntent: nat, card: nat)
    requires Inv(s)
    ensures Inv(Committed(s, SetupSucceeded(s, id, session, setupIntent, card)))
  {
    hide OneOpen, CapsKept, IntentsMatch, CreditsMatch;
    var r := SetupSucceeded(s, id, session, setupIntent, card);
    if r.Ok? && r.value != s {
      ConsentChangeKeeps(s, r.value);
    }
  }

  lemma SameAttempts(s: State, after: State)
    requires Inv(s)
    requires after.attempts == s.attempts && after.intents == s.intents && after.credits == s.credits
    requires after.nextIntent == s.nextIntent && after.revisions == s.revisions && after.consent == s.consent
    ensures OneOpen(after) && CapsKept(after) && IntentsMatch(after) && CreditsMatch(after)
  {}

  lemma OtherSetupSteps(g: SnapshotGuard, s: State, e: Event)
    requires Inv(s) && (e.SetupCreated? || e.SetupOpened? || e.SetupExpiryReported?)
    ensures Inv(Step(g, s, e))
  {
    hide OneOpen, CapsKept, IntentsMatch, CreditsMatch;
    SameAttempts(s, Step(g, s, e));
  }

  lemma AccountMoves(g: SnapshotGuard, s: State, e: Event)
    requires Inv(s) && (e.BalanceMoved? || e.AdjustmentRecorded?)
    ensures Inv(Step(g, s, e))
  {
    hide OneOpen, CapsKept, IntentsMatch, CreditsMatch;
    SameAttempts(s, Step(g, s, e));
  }

  // ---- Every run ---------------------------------------------------------------------------------------

  lemma StepKeeps(g: SnapshotGuard, s: State, e: Event)
    requires Inv(s)
    ensures Inv(Step(g, s, e))
  {
    hide Inv, ClaimAttempt, DispatchAttempt, Settle, PaymentSucceeded, PaymentFailure, PaymentStateChanged, Terminate,
      Update, Disable, TakeOver, SetupSucceeded, CreateSetup, OpenSetup, SetupExpired;
    match e
    case Claimed(month, exact) => ClaimKeeps(s, month, exact);
    case Dispatched(a, crash) => DispatchKeeps(s, a, crash);
    case IntentCharged(a) => SettleKeeps(s, a, Charged);
    case IntentVoided(a) => SettleKeeps(s, a, Voided);
    case SuccessReported(a, intent) => SuccessKeeps(s, a, intent);
    case FailureReported(a, intent, final, evidence) => FailureKeeps(g, s, a, intent, final, evidence);
    case StateReported(a, intent, evidence) => StateChangeKeeps(g, s, a, intent, evidence);
    case Recovered(a, seen, to) => TerminateKeeps(s, a, seen, to);
    case Updated(generation, consent, revision) => UpdateKeeps(s, generation, consent, revision);
    case DisableRequested => DisableKeeps(s);
    case TakenOver(elsewhere, who) => TakeOverKeeps(s, elsewhere, who);
    case SetupReported(id, session, setupIntent, card) => SetupReportKeeps(s, id, session, setupIntent, card);
    case SetupCreated(_, _, _, _, _) => OtherSetupSteps(g, s, e);
    case SetupOpened(_, _) => OtherSetupSteps(g, s, e);
    case SetupExpiryReported(_, _) => OtherSetupSteps(g, s, e);
    case BalanceMoved(_) => AccountMoves(g, s, e);
    case AdjustmentRecorded => AccountMoves(g, s, e);
  }

  lemma {:induction false} AlwaysInv(g: SnapshotGuard, events: seq<Event>)
    ensures Inv(Run(g, events))
  {
    hide Inv, Step;
    if events == [] {
      assert Inv(Initial()) by { InitialInv(); }
    } else {
      AlwaysInv(g, events[..|events| - 1]);
      StepKeeps(g, Run(g, events[..|events| - 1]), events[|events| - 1]);
    }
  }

  lemma InitialInv()
    ensures Inv(Initial())
  {}

  // ---- Attempts over whole runs -------------------------------------------------------------------------

  /** At most one attempt is unresolved, it is the newest, and it is bound to the consent in force. */
  lemma OneOpenAttempt(g: SnapshotGuard, events: seq<Event>, i: AttemptId, j: AttemptId)
    requires var s := Run(g, events); i < |s.attempts| && j < |s.attempts|
    requires IsOpen(Run(g, events).attempts[i].status) && IsOpen(Run(g, events).attempts[j].status)
    ensures i == j == |Run(g, events).attempts| - 1
    ensures Run(g, events).consent == Some(Run(g, events).attempts[i].revision) && !Run(g, events).mode.Disabled?
  {
    hide Run;
    AlwaysInv(g, events);
  }

  /** A resolved attempt is never touched again, whatever is reported later. */
  lemma ResolvedForGood(g: SnapshotGuard, s: State, e: Event, i: AttemptId)
    requires Inv(s) && i < |s.attempts| && !IsOpen(s.attempts[i].status)
    ensures i < |Step(g, s, e).attempts| && Step(g, s, e).attempts[i] == s.attempts[i]
  {
    hide CapsKept, IntentsMatch, CreditsMatch, ModeMatches, SetupsCurrent;
  }

  lemma {:induction false} ResolvedInEveryFuture(g: SnapshotGuard, events: seq<Event>, more: seq<Event>, i: AttemptId)
    requires i < |Run(g, events).attempts| && !IsOpen(Run(g, events).attempts[i].status)
    ensures i < |Run(g, events + more).attempts| && Run(g, events + more).attempts[i] == Run(g, events).attempts[i]
    decreases |more|
  {
    hide Step, Inv;
    if more == [] {
      assert events + more == events;
    } else {
      var init := more[..|more| - 1];
      ResolvedInEveryFuture(g, events, init, i);
      assert (events + more)[..|events + more| - 1] == events + init;
      AlwaysInv(g, events + init);
      ResolvedForGood(g, Run(g, events + init), more[|more| - 1], i);
    }
  }

  /**
   * However late a success arrives, what the month has charged up to and including it stays
   * within the cap the attempt was claimed under.
   */
  lemma MonthlyCap(g: SnapshotGuard, events: seq<Event>, i: AttemptId)
    requires i < |Run(g, events).attempts| && Run(g, events).attempts[i].status.Succeeded?
    ensures var s := Run(g, events);
      var attempt := s.attempts[i];
      && ChargedIn(s.attempts[..i + 1], attempt.month) == attempt.chargedBefore + attempt.terms.payment
      && ChargedIn(s.attempts[..i + 1], attempt.month) <= attempt.terms.cap
      && attempt.revision < |s.revisions| && attempt.terms == s.revisions[attempt.revision].terms
  {
    hide Run, ChargedIn;
    AlwaysInv(g, events);
    var s := Run(g, events);
    assert s.attempts[..i + 1][..i] == s.attempts[..i];
    ChargedStep(s.attempts[..i + 1], s.attempts[i].month);
  }

  lemma ChargedStep(attempts: seq<Attempt>, month: Month)
    requires attempts != []
    ensures var last := attempts[|attempts| - 1];
      ChargedIn(attempts, month) == ChargedIn(attempts[..|attempts| - 1], month)
        + (if last.status.Succeeded? && last.month == month then last.terms.payment else 0)
  {}

  /**
   * Exactly once, with crashes between the provider and the database and with notifications in
   * any order: an attempt has at most one intent, an intent belongs to one attempt, and there is
   * one credit for each successful attempt, backed by its own charged intent, and no other.
   */
  lemma ExactlyOnce(g: SnapshotGuard, events: seq<Event>)
    ensures var s := Run(g, events);
      && (forall i :: 0 <= i < |s.attempts| && s.attempts[i].intent.Some? ==>
            i in s.intents && s.attempts[i].intent == Some(s.intents[i].id))
      && (forall i, j :: 0 <= i < j < |s.credits| ==>
            s.credits[i].attempt != s.credits[j].attempt && s.credits[i].intent != s.credits[j].intent)
      && (forall i :: 0 <= i < |s.credits| ==>
            var c := s.credits[i];
            && c.attempt in s.intents && s.intents[c.attempt] == Intent(c.intent, Charged)
            && c.attempt < |s.attempts| && s.attempts[c.attempt].status.Succeeded?
            && c.amount == s.attempts[c.attempt].terms.credits)
      && (forall a :: 0 <= a < |s.attempts| && s.attempts[a].status.Succeeded? ==> Credited(s.credits, a))
  {
    hide Run, Credited;
    AlwaysInv(g, events);
  }

  /** The provider's answer for an idempotency key never changes, and an end is an end. */
  lemma IntentsStay(g: SnapshotGuard, s: State, e: Event, a: AttemptId)
    requires a in s.intents
    ensures var after := Step(g, s, e);
      && a in after.intents && after.intents[a].id == s.intents[a].id
      && (!s.intents[a].phase.Live? ==> after.intents[a] == s.intents[a])
  {}

  /** Nobody is charged for an attempt that has been canceled, then or later. */
  lemma CanceledNeverCharged(g: SnapshotGuard, events: seq<Event>, more: seq<Event>, i: AttemptId)
    requires i < |Run(g, events).attempts| && Run(g, events).attempts[i].status.Canceled?
    ensures i in Run(g, events + more).intents && Run(g, events + more).intents[i].phase.Voided?
  {
    hide Run, Inv;
    ResolvedInEveryFuture(g, events, more, i);
    AlwaysInv(g, events + more);
    VoidedWhenCanceled(Run(g, events + more), i);
  }

  /**
   * A charge that is reported is credited, unless the attempt had been reported failed for good:
   * that is the one case in which the service refuses a genuine success.
   */
  lemma ChargeCredited(g: SnapshotGuard, events: seq<Event>, a: AttemptId)
    requires a in Run(g, events).intents && Run(g, events).intents[a].phase.Charged?
    ensures a < |Run(g, events).attempts|
    ensures var s := Run(g, events);
      var r := PaymentSucceeded(s, a, s.intents[a].id);
      && (r.Ok? <==> !s.attempts[a].status.Failed?)
      && (r.Ok? ==> a < |r.value.attempts| && r.value.attempts[a].status.Succeeded? && Credited(r.value.credits, a))
  {
    hide Run, CapsKept, OneOpen, SetupsCurrent, ModeMatches, Credited;
    AlwaysInv(g, events);
    var s := Run(g, events);
    SuccessKeeps(s, a, s.intents[a].id);
  }

  lemma VoidedWhenCanceled(s: State, i: AttemptId)
    requires Inv(s) && i < |s.attempts| && s.attempts[i].status.Canceled?
    ensures i in s.intents && s.intents[i].phase.Voided?
  {}

  /** A disabled account has nothing unresolved and asks the provider for nothing. */
  lemma DisabledIsQuiet(g: SnapshotGuard, events: seq<Event>, e: Event)
    requires Run(g, events).mode.Disabled?
    ensures var s := Run(g, events);
      && s.consent.None? && !AnyOpen(s.attempts)
      && Step(g, s, e).intents.Keys == s.intents.Keys && |Step(g, s, e).attempts| == |s.attempts|
  {
    hide Run, Step, CapsKept, IntentsMatch, CreditsMatch, SetupsCurrent, EvidenceMatches;
    AlwaysInv(g, events);
    QuietStays(g, Run(g, events), e);
  }

  /** Only a claim adds an attempt, and only an unresolved one is dispatched. */
  lemma QuietStays(g: SnapshotGuard, s: State, e: Event)
    requires s.mode.Disabled? && !AnyOpen(s.attempts)
    ensures Step(g, s, e).intents.Keys == s.intents.Keys && |Step(g, s, e).attempts| == |s.attempts|
  {
    hide ChargedIn, BoundToConsent, Update, Disable, TakeOver;
    if e.Dispatched? && e.attempt < |s.attempts| {
      assert !IsOpen(s.attempts[e.attempt].status);
    } else if e.Updated? || e.DisableRequested? || e.TakenOver? {
      ConsentAlone(g, s, e);
    }
  }

  lemma ConsentAlone(g: SnapshotGuard, s: State, e: Event)
    requires e.Updated? || e.DisableRequested? || e.TakenOver?
    ensures Step(g, s, e).intents == s.intents && Step(g, s, e).attempts == s.attempts
  {}

  /** Dispatching never finds an attempt that has drifted from its consent. */
  lemma BindingHolds(g: SnapshotGuard, events: seq<Event>, a: AttemptId, crash: bool)
    requires a < |Run(g, events).attempts|
    ensures DispatchAttempt(Run(g, events), a, crash).Ok?
  {
    hide Run, Inv;
    AlwaysInv(g, events);
    DispatchKeeps(Run(g, events), a, crash);
  }

  // ---- The generation fence -----------------------------------------------------------------------------

  /** Every change of consent advances the generation by one, and nothing else does. */
  lemma GenerationCounts(g: SnapshotGuard, s: State, e: Event)
    ensures s.generation <= Step(g, s, e).generation <= s.generation + 1
    ensures Step(g, s, e).generation == s.generation ==> Step(g, s, e).consent == s.consent
    ensures ModeMatches(s) && Step(g, s, e).generation != s.generation ==> Step(g, s, e).consent != s.consent
    ensures |s.setups| <= |Step(g, s, e).setups|
    ensures forall i :: 0 <= i < |s.setups| ==>
      Step(g, s, e).setups[i].expectedGeneration == s.setups[i].expectedGeneration
  {}

  lemma {:induction false} GenerationGrows(g: SnapshotGuard, before: seq<Event>, middle: seq<Event>, j: nat)
    requires j <= |middle|
    ensures Run(g, before + middle[..j]).generation <= Run(g, before + middle).generation
    ensures Run(g, before + middle[..j]).generation == Run(g, before + middle).generation ==>
      Run(g, before + middle[..j]).consent == Run(g, before + middle).consent
    ensures var s, t := Run(g, before + middle[..j]), Run(g, before + middle);
      |s.setups| <= |t.setups|
      && forall i :: 0 <= i < |s.setups| ==> t.setups[i].expectedGeneration == s.setups[i].expectedGeneration
    decreases |middle| - j
  {
    hide Step;
    if j < |middle| {
      var next := before + middle[..j + 1];
      assert next[..|next| - 1] == before + middle[..j];
      GenerationCounts(g, Run(g, before + middle[..j]), middle[j]);
      GenerationGrows(g, before, middle, j + 1);
    } else {
      assert middle[..j] == middle;
    }
  }

  /**
   * A setup that existed after `before` and takes effect after `middle` finds the very consent
   * it started from: no update, disable, take-over or other setup came in between.
   */
  lemma GenerationFence(g: SnapshotGuard, before: seq<Event>, middle: seq<Event>, id: SetupId, session: nat,
                        setupIntent: nat, card: nat, j: nat)
    requires id < |Run(g, before).setups| && j <= |middle|
    requires var s := Run(g, before + middle);
      Step(g, s, SetupReported(id, session, setupIntent, card)).generation != s.generation
    ensures Run(g, before + middle[..j]).generation == Run(g, before).setups[id].expectedGeneration
    ensures Run(g, before + middle[..j]).consent == Run(g, before + middle).consent
  {
    hide Run, Inv;
    AlwaysInv(g, before);
    SetupNotAhead(Run(g, before), id);
    assert before + middle[..0] == before;
    GenerationGrows(g, before, middle, 0);
    GenerationGrows(g, before, middle, j);
    assert middle[..j][..0] == [];
    GenerationGrows(g, before, middle[..j], 0);
  }

  lemma SetupNotAhead(s: State, id: SetupId)
    requires Inv(s) && id < |s.setups|
    ensures s.setups[id].expectedGeneration <= s.generation
  {}

  /**
   * So once the consent has changed in any way (a disable, a take-over, an update, another
   * setup), no setup started before can turn charging on again.
   */
  lemma StaleSetupHasNoEffect(g: SnapshotGuard, before: seq<Event>, change: Event, middle: seq<Event>, id: SetupId,
                              session: nat, setupIntent: nat, card: nat)
    requires id < |Run(g, before).setups|
    requires Run(g, before + [change]).generation != Run(g, before).generation
    ensures var s := Run(g, before + [change] + middle);
      var after := Step(g, s, SetupReported(id, session, setupIntent, card));
      after.consent == s.consent && after.mode == s.mode && after.generation == s.generation
  {
    hide Inv, Run, Step;
    var s := Run(g, before + [change] + middle);
    var all := [change] + middle;
    assert before + all == before + [change] + middle;
    assert before + all[..0] == before && before + all[..1] == before + [change];
    if Step(g, s, SetupReported(id, session, setupIntent, card)).generation != s.generation {
      GenerationFence(g, before, all, id, session, setupIntent, card, 0);
      GenerationFence(g, before, all, id, session, setupIntent, card, 1);
    } else {
      WithoutActivation(g, s, id, session, setupIntent, card);
    }
  }

  lemma WithoutActivation(g: SnapshotGuard, s: State, id: SetupId, session: nat, setupIntent: nat, card: nat)
    ensures var after := Step(g, s, SetupReported(id, session, setupIntent, card));
      after.generation == s.generation ==> after.consent == s.consent && after.mode == s.mode
  {}

  // ---- Status and mode ------------------------------------------------------------------------------------

  /** In every run an unresolved attempt rests on its evidence, and the account's mode fits it. */
  lemma ModeFollowsAttempt(g: SnapshotGuard, events: seq<Event>, i: AttemptId)
    requires i < |Run(g, events).attempts|
    ensures var s := Run(g, events);
      && RestsOn(s.attempts[i].status, s.attempts[i].evidence) && Fits(s.mode, s.attempts[i].status, s.attempts[i].evidence)
      && (s.mode.Active? && IsOpen(s.attempts[i].status) ==> s.attempts[i].status.Pending?)
  {
    hide Run, OneOpen, CapsKept, IntentsMatch, CreditsMatch, ModeMatches, SetupsCurrent;
    AlwaysInv(g, events);
  }

  /** The attempt, the intent and the evidence of a reported failure or state. */
  predicate Reports(e: Event, a: AttemptId, evidence: Evidence)
  {
    (e.FailureReported? || e.StateReported?) && e.attempt == a && e.evidence == evidence
  }

  /** The transaction a report asks for. */
  function Reported(g: SnapshotGuard, s: State, e: Event): Result<State>
    requires e.FailureReported? || e.StateReported?
  {
    if e.FailureReported? then PaymentFailure(g, s, e.attempt, e.intent, e.final, e.evidence)
    else PaymentStateChanged(g, s, e.attempt, e.intent, e.evidence)
  }

  /**
   * Under the extended guard a report that puts an unresolved attempt under review marks the account for review too,
   * except when it contradicts the report before it: then the account keeps the mode of the later
   * report. Exactly then.
   */
  lemma ReviewMarksAccount(events: seq<Event>, e: Event, a: AttemptId, evidence: Evidence)
    requires Reports(e, a, evidence)
    requires a < |Run(Extended, events).attempts| && IsOpen(Run(Extended, events).attempts[a].status)
    requires Reported(Extended, Run(Extended, events), e).Ok?
    requires Reported(Extended, Run(Extended, events), e).value != Run(Extended, events)
    ensures var after := Reported(Extended, Run(Extended, events), e).value;
      && a < |after.attempts|
      && ((after.attempts[a].status.NeedsReview? ==> after.mode.ReviewRequired?)
          <==> !Contradicts(Run(Extended, events).attempts[a], evidence))
      && (Contradicts(Run(Extended, events).attempts[a], evidence) ==>
            after.attempts[a].status.NeedsReview? && after.mode == ModeOf(evidence.kind))
  {
    hide Run, Inv;
    AlwaysInv(Extended, events);
    OpenNotDisabled(Run(Extended, events), a);
  }

  /** Only a reported cancellation cancels an attempt; a recovery to that end is always refused. */
  lemma OnlyReportsCancel(g: SnapshotGuard, events: seq<Event>, e: Event, a: AttemptId)
    requires a < |Run(g, events).attempts| && IsOpen(Run(g, events).attempts[a].status)
    requires a < |Step(g, Run(g, events), e).attempts| && Step(g, Run(g, events), e).attempts[a].status.Canceled?
    ensures e.StateReported? && e.attempt == a && e.evidence.kind.PaymentCanceled?
  {
    hide Run, Inv;
    AlwaysInv(g, events);
    if e.Recovered? {
      RecoveryNeverCancels(g, events, e.attempt, e.seen);
    }
  }

  lemma RecoveryNeverCancels(g: SnapshotGuard, events: seq<Event>, a: AttemptId, seen: Attempt)
    ensures Terminate(Run(g, events), a, seen, Canceled).Err?
  {
    hide Run, OneOpen, CapsKept, IntentsMatch, CreditsMatch, ModeMatches, SetupsCurrent;
    AlwaysInv(g, events);
  }

  /**
   * Under the extended guard a recovery that finds the attempt as it was read ends it as failed
   * exactly when a failure had been reported and the attempt is under review for it.
   */
  lemma RecoveryEnds(events: seq<Event>, a: AttemptId, to: Status)
    requires var s := Run(Extended, events);
      a < |s.attempts| && s.attempts[a].intent.Some? && a in s.intents && s.intents[a].phase.Voided?
    ensures var attempt := Run(Extended, events).attempts[a];
      Terminate(Run(Extended, events), a, attempt, to).Ok?
      <==> to.Failed? && attempt.status.NeedsReview? && attempt.evidence.Some? && attempt.evidence.value.kind.PaymentFailed?
  {
    hide Run, OneOpen, CapsKept, IntentsMatch, CreditsMatch, ModeMatches, SetupsCurrent;
    AlwaysInv(Extended, events);
  }

  // ---- Runs in which it happens ---------------------------------------------------------------------------

  lemma RunAppend(g: SnapshotGuard, events: seq<Event>, e: Event)
    ensures Run(g, events + [e]) == Step(g, Run(g, events), e)
  {
    assert (events + [e])[..|events|] == events;
  }

  /** A customer sets up a top-up. */
  function SettingUp(): seq<Event>
  {
    [SetupCreated(Disabled, false, 0, None, Terms(1, 1, 1, 1))] + [SetupOpened(0, 0)] + [SetupReported(0, 0, 0, 0)]
  }

  /** The balance is below the threshold, and an attempt is claimed and dispatched. */
  function Opening(): seq<Event>
  {
    SettingUp() + [Claimed(0, true)] + [Dispatched(0, false)]
  }

  function Dispatching(status: Status, evidence: Option<Evidence>, mode: Mode, phase: Phase): State
  {
    var terms := Terms(1, 1, 1, 1);
    State(0, mode, 1, Some(0), [Revision(terms, 0)],
      [Attempt(0, terms, 0, 0, status, Some(0), evidence)],
      [Setup(0, None, terms, Complete, Some(0), Some((0, 0)))], [], map[0 := Intent(0, phase)], 1)
  }

  /** After the setup: the top-up is active under its first consent, and nothing has been claimed. */
  function Consented(): State
  {
    var terms := Terms(1, 1, 1, 1);
    State(0, Active, 1, Some(0), [Revision(terms, 0)], [],
      [Setup(0, None, terms, Complete, Some(0), Some((0, 0)))], [], map[], 0)
  }

  lemma ConsentedRun(g: SnapshotGuard)
    ensures Run(g, SettingUp()) == Consented()
  {
    hide Run;
    var terms := Terms(1, 1, 1, 1);
    var e0 := SetupCreated(Disabled, false, 0, None, terms);
    NoEvents(g);
    RunAppend(g, [], e0);
    assert [] + [e0] == [e0];
    RunAppend(g, [e0], SetupOpened(0, 0));
    RunAppend(g, [e0] + [SetupOpened(0, 0)], SetupReported(0, 0, 0, 0));
  }

  lemma OpeningRun(g: SnapshotGuard)
    ensures Run(g, Opening()) == Dispatching(Pending, None, Active, Live)
  {
    hide Run, SettingUp;
    ConsentedRun(g);
    RunAppend(g, SettingUp(), Claimed(0, true));
    RunAppend(g, SettingUp() + [Claimed(0, true)], Dispatched(0, false));
  }

  lemma NoEvents(g: SnapshotGuard)
    ensures Run(g, []) == Initial()
  {}

  /** Under the extended guard, the failure comes first, the charge after all: the genuine success is refused. */
  lemma LateChargeRefused()
    ensures var failure := Evidence(0, PaymentFailed, 5, 5);
      var s := Run(Extended, Opening() + [FailureReported(0, 0, true, failure)] + [IntentCharged(0)]);
      && s == Dispatching(Failed, Some(failure), ReviewRequired, Charged)
      && PaymentSucceeded(s, 0, 0) == Err(BindingInvalid)
  {
    hide Run, Opening;
    OpeningRun(Extended);
    var e := FailureReported(0, 0, true, Evidence(0, PaymentFailed, 5, 5));
    RunAppend(Extended, Opening(), e);
    RunAppend(Extended, Opening() + [e], IntentCharged(0));
  }

  /** Under the extended guard, two reports of one instant: the attempt is under review, the account merely paused. */
  lemma ReviewGoesUnmarked()
    ensures var first, second := Evidence(0, PaymentRequiresAction, 5, 5), Evidence(1, PaymentProcessing, 5, 6);
      var s := Run(Extended, Opening() + [StateReported(0, 0, first)] + [StateReported(0, 0, second)]);
      s == Dispatching(NeedsReview, Some(second), Paused, Live)
  {
    hide Run, Opening;
    OpeningRun(Extended);
    var e := StateReported(0, 0, Evidence(0, PaymentRequiresAction, 5, 5));
    RunAppend(Extended, Opening(), e);
    RunAppend(Extended, Opening() + [e], StateReported(0, 0, Evidence(1, PaymentProcessing, 5, 6)));
  }

  /** The provider has voided the intent of a pending attempt, and the recovery still cannot cancel it. */
  lemma CancellationRefused(g: SnapshotGuard)
    ensures var s := Run(g, Opening() + [AdjustmentRecorded] + [IntentVoided(0)]);
      && s == Dispatching(Pending, None, ReviewRequired, Voided)
      && MayTerminate(s.attempts[0], Canceled)
      && Terminate(s, 0, s.attempts[0], Canceled) == Err(EvidenceInexact)
  {
    hide Run, Opening;
    OpeningRun(g);
    RunAppend(g, Opening(), AdjustmentRecorded);
    RunAppend(g, Opening() + [AdjustmentRecorded], IntentVoided(0));
  }
}
