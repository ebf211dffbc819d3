/** The automatic top-up as the service updates it in place, next to the payment provider. */
module AutoTopUpAccount {
  import opened Prelude
  import opened AutoTopUp
  import opened AutoTopUpTheorems
  import opened AutoTopUpOutcomes

  /** The payment provider: one intent per idempotency key, for good. */
  class Provider {
    var intents: map<AttemptId, Intent>
    var next: IntentId

    constructor ()
      ensures intents == map[] && next == 0
    {
      intents, next := map[], 0;
    }

    method Create(key: AttemptId) returns (id: IntentId)
      modifies this
      ensures key in intents && id == intents[key].id
      ensures key in old(intents) ==> intents == old(intents) && next == old(next)
      ensures key !in old(intents) ==> intents == old(intents)[key := Intent(old(next), Live)] && next == old(next) + 1
    {
      if key !in intents {
        intents := intents[key := Intent(next, Live)];
        next := next + 1;
      }
      id := intents[key].id;
    }
  }

  lemma FirstOpenIs(attempts: seq<Attempt>, i: nat)
    requires i <= |attempts| && forall j :: 0 <= j < i ==> !IsOpen(attempts[j].status)
    requires i < |attempts| ==> IsOpen(attempts[i].status)
    ensures FirstOpen(attempts) == i
  {}

  class Account {
    const provider: Provider
    const guard: SnapshotGuard
    var balance: int
    var mode: Mode
    var generation: nat
    var consent: Option<RevisionId>
    var revisions: seq<Revision>
    var attempts: seq<Attempt>
    var setups: seq<Setup>
    var credits: seq<Credit>

    function View(): State
      reads this, provider
    {
      State(balance, mode, generation, consent, revisions, attempts, setups, credits, provider.intents, provider.next)
    }

    ghost predicate Valid()
      reads this, provider
    {
      Inv(View())
    }

    constructor (provider: Provider, guard: SnapshotGuard)
      requires provider.intents == map[] && provider.next == 0
      ensures this.provider == provider && this.guard == guard && Valid() && View() == Initial()
    {
      this.provider, this.guard := provider, guard;
      balance, mode, generation, consent := 0, Disabled, 0, None;
      revisions, attempts, setups, credits := [], [], [], [];
      new;
      InitialInv();
    }

    /** What the month's successful attempts have charged. */
    method ChargedBefore(month: Month) returns (charged: nat)
      ensures charged == ChargedIn(attempts, month)
    {
      charged := 0;
      for i := 0 to |attempts|
        invariant charged == ChargedIn(attempts[..i], month)
      {
        assert attempts[..i + 1][..i] == attempts[..i];
        if attempts[i].status.Succeeded? && attempts[i].month == month {
          charged := charged + attempts[i].terms.payment;
        }
      }
      assert attempts[..|attempts|] == attempts;
    }

    method FindUnresolved() returns (open: nat)
      ensures open == FirstOpen(attempts)
    {
      open := 0;
      while open < |attempts| && !IsOpen(attempts[open].status)
        invariant open <= |attempts| && forall j :: 0 <= j < open ==> !IsOpen(attempts[j].status)
      {
        open := open + 1;
      }
      FirstOpenIs(attempts, open);
    }

    method ClaimNext(month: Month, exact: bool) returns (claim: Claim)
      requires Valid()
      modifies this
      ensures Valid() && (View(), claim) == ClaimAttempt(old(View()), month, exact)
    {
      hide Inv, ChargedIn, FirstOpen;
      ClaimKeeps(View(), month, exact);
      var open := FindUnresolved();
      if open < |attempts| {
        return if attempts[open].status.Pending? && attempts[open].intent.None? then Dispatch(open, false)
               else AwaitingNotification(open);
      }
      if !mode.Active? { return Skipped(ConfigurationInactive); }
      if !HasConsent(View()) { return Skipped(ThresholdNotReached); }
      var terms := revisions[consent.value].terms;
      if balance >= terms.threshold { return Skipped(ThresholdNotReached); }
      if !exact { return Skipped(ConfigurationInvalid); }
      var charged := ChargedBefore(month);
      if charged + terms.payment > terms.cap { return Skipped(MonthlyCapReached); }
      claim := Dispatch(|attempts|, true);
      attempts := attempts + [Attempt(consent.value, terms, month, charged, Pending, None, None)];
    }

    /** Asks the provider for the intent and records it, unless a crash comes in between. */
    method DispatchNext(a: AttemptId, crash: bool) returns (r: Result<()>)
      requires Valid()
      modifies this, provider
      ensures Valid() && View() == Committed(old(View()), DispatchAttempt(old(View()), a, crash))
      ensures r == if a < |old(attempts)| then Ok(()) else Err(AttemptNotFound)
    {
      hide Inv;
      DispatchKeeps(View(), a, crash);
      if a >= |attempts| { return Err(AttemptNotFound); }
      if !BoundToConsent(View(), attempts[a]) { return Err(BindingInvalid); }
      if !attempts[a].status.Pending? || attempts[a].intent.Some? { return Ok(()); }
      var id := provider.Create(a);
      if !crash {
        attempts := attempts[a := attempts[a].(intent := Some(id))];
      }
      r := Ok(());
    }

    /** One pass over the account: claim, and dispatch what the claim answers. */
    method RunAccount(month: Month, exact: bool, crash: bool) returns (claim: Claim)
      requires Valid()
      modifies this, provider
      ensures Valid() && claim == ClaimAttempt(old(View()), month, exact).1
      ensures var claimed := ClaimAttempt(old(View()), month, exact).0;
        View() == if claim.Dispatch? then Committed(claimed, DispatchAttempt(claimed, claim.attempt, crash)) else claimed
      ensures !crash ==> NothingWaits(View())
    {
      hide Inv, NothingWaits;
      NoneWaits(View(), month, exact);
      claim := ClaimNext(month, exact);
      if claim.Dispatch? {
        var _ := DispatchNext(claim.attempt, crash);
      }
    }

    method ReportSuccess(a: AttemptId, intent: IntentId) returns (r: Result<()>)
      requires Valid()
      modifies this
      ensures Valid() && View() == Committed(old(View()), PaymentSucceeded(old(View()), a, intent))
      ensures match PaymentSucceeded(old(View()), a, intent) case Ok(_) => r == Ok(()) case Err(e) => r == Err(e)
    {
      hide Inv;
      SuccessKeeps(View(), a, intent);
      if !Genuine(View(), a, intent) || !provider.intents[a].phase.Charged? { return Err(BindingInvalid); }
      var attempt := attempts[a];
      if attempt.status.Succeeded? {
        return if attempt.intent == Some(intent) then Ok(()) else Err(RebindForbidden);
      }
      if !IsOpen(attempt.status) { return Err(BindingInvalid); }
      balance := balance + attempt.terms.credits;
      credits := credits + [Credit(a, intent, attempt.terms.credits)];
      attempts := attempts[a := attempt.(status := Succeeded, intent := Some(intent))];
      r := Ok(());
    }

    method ReportFailure(a: AttemptId, intent: IntentId, final: bool, e: Evidence) returns (r: Result<()>)
      requires Valid()
      modifies this
      ensures Valid() && View() == Committed(old(View()), PaymentFailure(guard, old(View()), a, intent, final, e))
      ensures match PaymentFailure(guard, old(View()), a, intent, final, e)
              case Ok(_) => r == Ok(()) case Err(error) => r == Err(error)
    {
      hide Inv;
      FailureKeeps(guard, View(), a, intent, final, e);
      if !Genuine(View(), a, intent) || !e.kind.PaymentFailed? { return Err(BindingInvalid); }
      var attempt := attempts[a];
      if attempt.intent.Some? && attempt.intent != Some(intent) { return Err(BindingInvalid); }
      if attempt.status.Succeeded? || attempt.status.Canceled? { return Ok(()); }
      if && attempt.status.NeedsReview? && attempt.intent == Some(intent)
         && attempt.evidence.Some? && attempt.evidence.value.id == e.id
      {
        return Ok(());
      }
      if attempt.status.Failed? {
        return if attempt.intent == Some(intent) then Ok(()) else Err(RebindForbidden);
      }
      if !MayStore(guard, attempt, e) { return Err(SnapshotImmutable); }
      var next := if final then Failed else NeedsReview;
      var status :- Judged(attempt, next, e);
      mode := ModeAfter(View(), attempt.status, next, ReviewRequired);
      attempts := attempts[a := attempt.(status := status, intent := Some(intent), evidence := Some(e))];
      r := Ok(());
    }

    method ReportState(a: AttemptId, intent: IntentId, e: Evidence) returns (r: Result<()>)
      requires Valid()
      modifies this
      ensures Valid() && View() == Committed(old(View()), PaymentStateChanged(guard, old(View()), a, intent, e))
      ensures match PaymentStateChanged(guard, old(View()), a, intent, e)
              case Ok(_) => r == Ok(()) case Err(error) => r == Err(error)
    {
      hide Inv;
      StateChangeKeeps(guard, View(), a, intent, e);
      if !Genuine(View(), a, intent) || e.kind.PaymentFailed?
         || (e.kind.PaymentCanceled? && !provider.intents[a].phase.Voided?)
      {
        return Err(BindingInvalid);
      }
      var attempt := attempts[a];
      if attempt.intent.Some? && attempt.intent != Some(intent) { return Err(BindingInvalid); }
      if attempt.status.Succeeded? { return Ok(()); }
      if attempt.status.Canceled? && attempt.intent == Some(intent) { return Ok(()); }
      if !IsOpen(attempt.status) { return Err(StateConflict); }
      if !MayStore(guard, attempt, e) { return Err(SnapshotImmutable); }
      var status :- Judged(attempt, StatusOf(e.kind), e);
      mode := ModeAfter(View(), attempt.status, StatusOf(e.kind), ModeOf(e.kind));
      attempts := attempts[a := attempt.(status := status, intent := Some(intent), evidence := Some(e))];
      r := Ok(());
    }

    /** The conditional update that ends an attempt only if it is still as it was read. */
    method TerminateIfUnchanged(a: AttemptId, seen: Attempt, to: Status) returns (r: Result<()>)
      requires Valid()
      modifies this
      ensures Valid() && View() == Committed(old(View()), Terminate(old(View()), a, seen, to))
      ensures match Terminate(old(View()), a, seen, to) case Ok(_) => r == Ok(()) case Err(e) => r == Err(e)
    {
      hide Inv;
      TerminateKeeps(View(), a, seen, to);
      if a >= |attempts| || !MayTerminate(seen, to) { return Err(RecoveryPending); }
      var attempt := attempts[a];
      if && attempt.intent.Some? && attempt.intent == seen.intent
         && a in provider.intents && provider.intents[a].phase.Voided?
         && attempt.status == seen.status && attempt.evidence == seen.evidence
      {
        if !Proves(attempt.evidence, to) { return Err(EvidenceInexact); }
        attempts := attempts[a := attempt.(status := to)];
        mode := ReviewRequired;
        return Ok(());
      }
      r := Err(RecoveryPending);
    }

    method AbandonSetups()
      modifies `setups
      ensures setups == Abandon(old(setups))
    {
      ghost var before := setups;
      for i := 0 to |setups|
        invariant |setups| == |before|
        invariant forall j :: 0 <= j < i ==> setups[j] == Abandon(before)[j]
        invariant forall j :: i <= j < |setups| ==> setups[j] == before[j]
      {
        if IsUnsettled(setups[i].status) {
          setups := setups[i := setups[i].(status := Abandoned)];
        }
      }
    }

    method GiveConsent(revision: Revision)
      modifies this
      ensures View() == Consent(old(View()), revision)
    {
      consent := Some(|revisions|);
      revisions := revisions + [revision];
      generation := generation + 1;
      mode := Active;
    }

    method UpdateConsent(seenGeneration: nat, seenConsent: Option<RevisionId>, revision: Revision) returns (r: Result<()>)
      requires Valid()
      modifies this
      ensures Valid() && View() == Committed(old(View()), Update(old(View()), seenGeneration, seenConsent, revision))
      ensures match Update(old(View()), seenGeneration, seenConsent, revision)
              case Ok(_) => r == Ok(()) case Err(e) => r == Err(e)
    {
      hide Inv;
      UpdateKeeps(View(), seenGeneration, seenConsent, revision);
      if seenConsent.None? { return Err(UpdateUnavailable); }
      if generation != seenGeneration || consent != seenConsent || !(mode.Active? || mode.Paused?) {
        return Err(PredecessorChanged);
      }
      if AnyOpen(attempts) { return Err(PaymentPending); }
      GiveConsent(revision);
      AbandonSetups();
      r := Ok(());
    }

    method Deactivate()
      modifies `generation, `mode, `consent
      ensures View() == Deactivated(old(View()))
    {
      generation := generation + 1;
      mode := Disabled;
      consent := None;
    }

    method DisableTopUp() returns (r: Result<()>)
      requires Valid()
      modifies this
      ensures Valid() && View() == Committed(old(View()), Disable(old(View())))
      ensures r == if Disable(old(View())).Ok? then Ok(()) else Err(PaymentPending)
    {
      hide Inv;
      DisableKeeps(View());
      if mode.Disabled? { return Ok(()); }
      if AnyOpen(attempts) { return Err(PaymentPending); }
      if consent.None? { return Err(PredecessorMissing); }
      AbandonSetups();
      Deactivate();
      r := Ok(());
    }

    method DeactivateForOrganisation(elsewhere: Blockers, who: Requester) returns (r: Result<()>)
      requires Valid()
      modifies this
      ensures Valid() && View() == Committed(old(View()), TakeOver(old(View()), elsewhere, who))
      ensures match TakeOver(old(View()), elsewhere, who) case Ok(_) => r == Ok(()) case Err(e) => r == Err(e)
    {
      hide Inv;
      TakeOverKeeps(View(), elsewhere, who);
      if AnyOpen(attempts) || AnyUnsettled(setups) || elsewhere.funding { return Err(FundingInFlight); }
      if elsewhere.subscriptions { return Err(SubscriptionsActive); }
      if mode.Disabled? { return Ok(()); }
      if consent.None? { return Err(PredecessorMissing); }
      if !HasAuthority(who) { return Err(AuthorityMissing); }
      Deactivate();
      r := Ok(());
    }

    method StartSetup(seen: Mode, recovery: bool, seenGeneration: nat, seenConsent: Option<RevisionId>, terms: Terms)
      returns (r: Result<SetupId>)
      requires Valid()
      modifies this
      ensures Valid()
      ensures View() == Committed(old(View()), CreateSetup(old(View()), seen, recovery, seenGeneration, seenConsent, terms))
      ensures match CreateSetup(old(View()), seen, recovery, seenGeneration, seenConsent, terms)
              case Ok(_) => r == Ok(|old(setups)|) case Err(e) => r == Err(e)
    {
      hide Inv;
      OtherSetupSteps(guard, View(), SetupCreated(seen, recovery, seenGeneration, seenConsent, terms));
      if !SetupAllowed(seen, recovery) { return Err(SetupStateInvalid); }
      if AnyUnsettled(setups) { return Err(SetupPending); }
      var setup := Setup(seenGeneration, seenConsent, terms, Creating, None, None);
      if !Predecessor(View(), setup) { return Err(PredecessorChanged); }
      r := Ok(|setups|);
      setups := setups + [setup];
    }

    method OpenCheckout(id: SetupId, session: nat) returns (r: Result<()>)
      requires Valid()
      modifies this
      ensures Valid() && View() == Committed(old(View()), OpenSetup(old(View()), id, session))
      ensures r == if OpenSetup(old(View()), id, session).Ok? then Ok(()) else Err(PredecessorChanged)
    {
      hide Inv;
      OtherSetupSteps(guard, View(), SetupOpened(id, session));
      if id >= |setups| || !setups[id].status.Creating? || !Predecessor(View(), setups[id]) {
        return Err(PredecessorChanged);
      }
      setups := setups[id := setups[id].(status := Opened, session := Some(session))];
      r := Ok(());
    }

    method ReportExpiry(id: SetupId, session: nat) returns (r: Result<()>)
      requires Valid()
      modifies this
      ensures Valid() && View() == Committed(old(View()), SetupExpired(old(View()), id, session))
      ensures r == if SetupExpired(old(View()), id, session).Ok? then Ok(()) else Err(BindingInvalid)
    {
      hide Inv;
      OtherSetupSteps(guard, View(), SetupExpiryReported(id, session));
      if id >= |setups| || setups[id].session != Some(session) { return Err(BindingInvalid); }
      if IsUnsettled(setups[id].status) {
        setups := setups[id := setups[id].(status := Expired)];
      }
      r := Ok(());
    }

    method ReportSetup(id: SetupId, session: nat, setupIntent: nat, card: nat) returns (r: Result<()>)
      requires Valid()
      modifies this
      ensures Valid() && View() == Committed(old(View()), SetupSucceeded(old(View()), id, session, setupIntent, card))
      ensures match SetupSucceeded(old(View()), id, session, setupIntent, card)
              case Ok(_) => r == Ok(()) case Err(e) => r == Err(e)
    {
      hide Inv;
      SetupReportKeeps(View(), id, session, setupIntent, card);
      if id >= |setups| { return Err(BindingInvalid); }
      var setup := setups[id];
      if setup.status.Complete? {
        return if setup.completedBy == Some((setupIntent, card)) then Ok(()) else Err(RebindForbidden);
      }
      if setup.session != Some(session) { return Err(BindingInvalid); }
      if !Predecessor(View(), setup) {
        if IsUnsettled(setup.status) { setups := setups[id := setup.(status := Abandoned)]; }
        return Ok(());
      }
      if !IsUnsettled(setup.status) { return Err(SetupReopened); }
      if AnyOpen(attempts) { return Err(PaymentPending); }
      setups := setups[id := setup.(status := Complete, completedBy := Some((setupIntent, card)))];
      GiveConsent(Revision(setup.terms, card));
      r := Ok(());
    }
  }
}
