/** The guarantees of the account over all runs. */
module LedgerTheorems {
  import opened Prelude
  import opened Buckets
  import opened Sums
  import opened CreditTargets
  import opened CreditRating
  import opened Ledger
  import opened LedgerRows
  import opened LedgerInvariants
  import opened LedgerSettlement
  import opened LedgerCharges
  import Payments = PaymentAdjustments

  // ---- Before anything is written --------------------------------------------------------------

  lemma {:induction false} NoCorrections(corrections: seq<Correction>, k: SettlementKey)
    requires forall c :: c in corrections ==> c.settlement != k
    ensures LastCorrection(corrections, k).None? && forall snapshot :: ReplayOf(corrections, k, snapshot).None?
  {
    if corrections != [] {
      assert forall c :: c in corrections <==>
        c in corrections[..|corrections| - 1] || c == corrections[|corrections| - 1];
      NoCorrections(corrections[..|corrections| - 1], k);
    }
  }

  lemma {:induction false} ReplayIsRow(corrections: seq<Correction>, k: SettlementKey, snapshot: Cursor)
    ensures ReplayOf(corrections, k, snapshot).Some? ==>
      var c := ReplayOf(corrections, k, snapshot).value;
      c in corrections && c.settlement == k && c.snapshot == snapshot
  {
    if corrections != [] {
      assert forall c :: c in corrections <==>
        c in corrections[..|corrections| - 1] || c == corrections[|corrections| - 1];
      ReplayIsRow(corrections[..|corrections| - 1], k, snapshot);
    }
  }

  lemma {:induction false} LastIsRow(corrections: seq<Correction>, k: SettlementKey)
    ensures LastCorrection(corrections, k).Some? ==>
      var c := LastCorrection(corrections, k).value; c in corrections && c.settlement == k
  {
    if corrections != [] {
      assert forall c :: c in corrections <==>
        c in corrections[..|corrections| - 1] || c == corrections[|corrections| - 1];
      LastIsRow(corrections[..|corrections| - 1], k);
    }
  }

  lemma PreparedSettlements(s: State, p: Portfolio, c: Context)
    ensures var t := Prepare(s, p, c);
      && (forall k :: k in t.settlements <==> k in s.settlements || (k.month == p.month && k.service in c.services))
      && (forall k :: k in t.settlements ==>
            if k in s.settlements then t.settlements[k] == s.settlements[k] else t.settlements[k].total == ZERO)
      && t.snapshots == s.snapshots[p.cursor := SnapshotOf(p)]
      && t.orders == s.orders && t.adjustments == s.adjustments && t.balance == s.balance && t.entries == s.entries
      && t.rows == s.rows && t.corrections == s.corrections
  {}

  lemma PreparedCoherent(s: State, p: Portfolio, c: Context)
    requires Inv(s)
    ensures Coherent(Prepare(s, p, c))
  {
    hide Prepare, Chained, Posted, RowsTelescope, RowsWhole, RowsNumbered, CorrectionsTelescope, ClawedBack, Payments.Consistent, Latest,
      SnapshotsApplied, CapturesDistinct, ProductsSettled, LastCorrection;
    PreparedSettlements(s, p, c);
    var t := Prepare(s, p, c);
    SameChain(s, t);
    SamePaid(s, t);
    SumExtend(ConsumedBy(s.settlements), ConsumedBy(t.settlements));
    forall k, f | k in t.settlements ensures Sum(Figures(Latest(t.rows), k, f)) == Pick(t.settlements[k].total, f) {
      if k !in s.settlements {
        assert Figures(Latest(s.rows), k, f) == map[];
      }
    }
    forall k | k in t.settlements
      ensures var last := LastCorrection(t.corrections, k);
        t.settlements[k].total == if last.Some? then last.value.total else ZERO
    {
      if k !in s.settlements { NoCorrections(s.corrections, k); }
    }
  }

  // ---- A new snapshot ----------------------------------------------------------------------------

  /** No settlement of the month has been corrected by this capture or a later one. */
  ghost predicate Newest(s: State, p: Portfolio)
  {
    forall k: SettlementKey :: k.month == p.month && LastCorrection(s.corrections, k).Some? ==>
      var c := LastCorrection(s.corrections, k).value;
      c.snapshot in s.snapshots && s.snapshots[c.snapshot].capturedAt < p.capturedAt
  }

  lemma FreshIsNewest(s: State, p: Portfolio, c: Context)
    requires Inv(s) && p.cursor !in s.snapshots && !IsStale(s, p)
    ensures Newest(Prepare(s, p, c), p)
    ensures ReplayedServices(Prepare(s, p, c), p, c.services.Keys) == {}
  {
    hide Prepare, Chained, Conserved, Posted, PaymentsKept, RowsAgree, RowsTelescope, RowsWhole, RowsNumbered, CorrectionsTelescope,
      TotalsCurrent, SnapshotsApplied, CapturesDistinct, ProductsSettled, LastCorrection, ReplayOf;
    PreparedSettlements(s, p, c);
    var t := Prepare(s, p, c);
    forall k: SettlementKey | k.month == p.month && LastCorrection(t.corrections, k).Some?
      ensures var x := LastCorrection(t.corrections, k).value;
        x.snapshot in t.snapshots && t.snapshots[x.snapshot].capturedAt < p.capturedAt
    {
      LastIsRow(s.corrections, k);
    }
    forall id | id in c.services ensures ReplayOf(t.corrections, SettlementKey(p.month, id), p.cursor).None? {
      ReplayIsRow(s.corrections, SettlementKey(p.month, id), p.cursor);
    }
  }

  /** Entries are only appended; none falls below the floor and no charge is taken on credit. */
  ghost predicate Safe(before: seq<Entry>, after: seq<Entry>, floor: int)
  {
    && |before| <= |after| && before == after[..|before|]
    && forall i :: |before| <= i < |after| ==>
         after[i].balanceAfter >= floor && (after[i].delta < 0 ==> after[i].balanceAfter >= 0)
  }

  lemma SafeStep(before: seq<Entry>, mid: State, p: Portfolio, r: RatedService, floor: int)
    requires Safe(before, mid.entries, floor) && ApplyChecked(mid, p, r).Ok?
    requires ApplyChecked(mid, p, r).value.balance >= floor
    requires Chained(mid) && Conserved(mid)
    ensures Safe(before, ApplyChecked(mid, p, r).value.entries, floor)
  {
    hide Chained, Conserved, ChangedRows, UsersOf, LastCorrection;
    ApplyMoney(mid, SettlementKey(p.month, r.service), p.cursor, r);
    var after := ApplyChecked(mid, p, r).value;
    assert after.entries[..|mid.entries|] == mid.entries;
    assert after.entries[..|before|] == mid.entries[..|before|];
  }

  lemma PrefixWell(work: seq<RatedService>, j: nat)
    requires DistinctServices(work) && (forall r :: r in work ==> WellRated(r)) && j <= |work|
    ensures DistinctServices(work[..j]) && forall r :: r in work[..j] ==> WellRated(r)
    ensures j < |work| ==> work[j].service !in ServicesOf(work[..j])
  {
    hide WellRated;
    if j < |work| {
      assert work[..j + 1][..j] == work[..j];
      LastIsNew(work[..j + 1]);
    }
  }

  /** The next service can be written once its charge, if any, is covered. */
  lemma CheckPasses(t: State, p: Portfolio, done: set<ServiceId>, mid: State, r: RatedService)
    requires Newest(t, p) && Corrected(t, p, done, mid) && r.service !in done
    requires SettlementKey(p.month, r.service) in t.settlements
    requires DeltaOf(t, p.month, r) > 0 ==> mid.balance - DeltaOf(t, p.month, r) >= 0
    requires Coherent(mid)
    ensures ApplyChecked(mid, p, r).Ok?
    ensures ApplyChecked(mid, p, r).value.balance == mid.balance - DeltaOf(t, p.month, r)
  {
    hide Coherent, LastCorrection, ReplayOf, ApplyRatedService;
    UntouchedDelta(t, p, done, mid, r);
    MoneyOf(mid, SettlementKey(p.month, r.service), p.cursor, r);
  }

  /** What has been and will be charged up to service j is covered. */
  lemma PrefixCovered(t: State, p: Portfolio, c: Context, previous: seq<PreviousAllocation>, result: seq<RatedService>,
                      rated: Amounts, j: nat)
    requires Coherent(t) && RatedFor(t, p.month, c, previous, result, rated) && DistinctServices(result)
    requires j < |WorkOrder(t, p.month, result)|
    ensures var work := WorkOrder(t, p.month, result);
      && SettlementKey(p.month, work[j].service) in t.settlements
      && t.balance - DeltaSum(t, p.month, work[..j]) - DeltaOf(t, p.month, work[j]) >= Min(t.balance, 0)
      && (DeltaOf(t, p.month, work[j]) > 0 ==>
            t.balance - DeltaSum(t, p.month, work[..j]) - DeltaOf(t, p.month, work[j]) >= 0)
  {
    hide Coherent, RatedFor, WorkOrder, DeltaSum, DeltaOf;
    var work := WorkOrder(t, p.month, result);
    WorkOrderIs(t, p.month, result);
    assert work[j] in work;
    ServiceKnown(t, p.month, c, previous, result, rated, work[j]);
    PrefixBounded(t, p.month, result, j + 1);
    assert work[..j + 1] == work[..j] + [work[j]];
    DeltaSumAppend(t, p.month, work[..j], work[j]);
    CoherentRows(t);
    TotalCharge(t, p.month, c, previous, result, rated);
    if DeltaOf(t, p.month, work[j]) > 0 {
      ChargeCovered(t, p.month, c, previous, result, rated, work[j]);
    }
  }

  lemma NextAllowed(t: State, p: Portfolio, c: Context, previous: seq<PreviousAllocation>, result: seq<RatedService>,
                    rated: Amounts, j: nat)
    requires Coherent(t) && Newest(t, p) && RatedFor(t, p.month, c, previous, result, rated)
    requires DistinctServices(result) && (forall r :: r in result ==> WellRated(r))
    requires j < |WorkOrder(t, p.month, result)| && ApplyAll(t, p, WorkOrder(t, p.month, result)[..j]).Ok?
    ensures var work := WorkOrder(t, p.month, result);
      var mid := ApplyAll(t, p, work[..j]).value;
      && Coherent(mid)
      && ApplyChecked(mid, p, work[j]).Ok?
      && ApplyChecked(mid, p, work[j]).value.balance >= Min(t.balance, 0)
  {
    hide Coherent, Newest, WellRated, RatedFor, ApplyChecked, WorkOrder, ApplyAll, DeltaSum, DeltaOf, Corrected;
    var work := WorkOrder(t, p.month, result);
    WorkOrderIs(t, p.month, result);
    PrefixWell(work, j);
    ApplyAllEffect(t, p, work[..j]);
    PrefixCovered(t, p, c, previous, result, rated, j);
    CheckPasses(t, p, ServicesOf(work[..j]), ApplyAll(t, p, work[..j]).value, work[j]);
  }

  lemma CoherentRows(s: State)
    requires Coherent(s)
    ensures RowsAgree(s.rows, s.settlements) && Chained(s) && Conserved(s)
  {}

  lemma ServiceKnown(s: State, month: Month, c: Context, previous: seq<PreviousAllocation>, result: seq<RatedService>,
                     rated: Amounts, r: RatedService)
    requires RatedFor(s, month, c, previous, result, rated) && r in result
    ensures SettlementKey(month, r.service) in s.settlements
  {
    hide ServiceRated, ListsPrevious, PreviousAmounts, Targets;
    assert r.service in set x | x in result :: x.service;
  }

  /** Every service of a newest snapshot is written, and no entry on the way is unsafe. */
  lemma {:induction false} AllAllowed(t: State, p: Portfolio, c: Context, previous: seq<PreviousAllocation>,
                                      result: seq<RatedService>, rated: Amounts, j: nat)
    requires Coherent(t) && Newest(t, p) && RatedFor(t, p.month, c, previous, result, rated)
    requires DistinctServices(result) && (forall r :: r in result ==> WellRated(r))
    requires j <= |WorkOrder(t, p.month, result)|
    ensures var after := ApplyAll(t, p, WorkOrder(t, p.month, result)[..j]);
      after.Ok? && Safe(t.entries, after.value.entries, Min(t.balance, 0))
  {
    hide Coherent, Newest, WellRated, RatedFor, ApplyChecked, WorkOrder, Safe;
    var work := WorkOrder(t, p.month, result);
    if j == 0 {
      NothingUnsafe(t);
    } else {
      AllAllowed(t, p, c, previous, result, rated, j - 1);
      WorkOrderIs(t, p.month, result);
      PrefixWell(work, j - 1);
      NextAllowed(t, p, c, previous, result, rated, j - 1);
      assert work[..j][..j - 1] == work[..j - 1];
      var mid := ApplyAll(t, p, work[..j - 1]).value;
      CoherentRows(mid);
      SafeStep(t.entries, mid, p, work[j - 1], Min(t.balance, 0));
    }
  }

  lemma NothingUnsafe(s: State)
    ensures Safe(s.entries, s.entries, Min(s.balance, 0))
  {}

  /** A new capture has corrected every settlement of its month. */
  lemma SnapshotTaken(s: State, p: Portfolio, c: Context, after: State)
    requires Inv(s) && p.cursor !in s.snapshots && !IsStale(s, p)
    requires Products(p.lines) <= c.services.Keys && Settled(s, p.month) <= c.services.Keys
    requires Corrected(Prepare(s, p, c), p, c.services.Keys, after)
    ensures SnapshotsKnown(after) && CapturesDistinct(after) && SnapshotsApplied(after) && ProductsSettled(after)
  {
    hide Prepare, Chained, Conserved, Posted, PaymentsKept, RowsAgree, RowsTelescope, RowsWhole, RowsNumbered, CorrectionsTelescope,
      TotalsCurrent, LastCorrection, ReplayOf;
    PreparedSettlements(s, p, c);
    forall x, k | x in after.snapshots && k in after.settlements && k.month == after.snapshots[x].month
      ensures CorrectedOrLater(after, x, k)
    {
      if k.month == p.month {
        assert k in s.settlements ==> k.service in Settled(s, p.month);
      } else {
        assert CorrectedOrLater(s, x, k);
      }
    }
    forall x | x in after.snapshots
      ensures Products(after.snapshots[x].content) <= Settled(after, after.snapshots[x].month)
    {
      forall id | id in Products(after.snapshots[x].content) ensures id in Settled(after, after.snapshots[x].month) {
        var key := SettlementKey(after.snapshots[x].month, id);
        if x != p.cursor {
          assert id in Settled(s, s.snapshots[x].month);
          assert key in s.settlements;
        }
        assert key in after.settlements;
      }
    }
  }

  lemma {:induction false} TariffsStay(s: State, p: Portfolio, work: seq<RatedService>)
    ensures TariffsInDollars(s) && ApplyAll(s, p, work).Ok? ==> TariffsInDollars(ApplyAll(s, p, work).value)
  {
    hide ChangedRows, UsersOf, LastCorrection;
    if work != [] { TariffsStay(s, p, work[..|work| - 1]); }
  }

  lemma TariffsStart(s: State, p: Portfolio, c: Context)
    requires TariffsInDollars(s) && StartsInDollars(s, p, c)
    ensures TariffsInDollars(Prepare(s, p, c))
  {}

  lemma AssembleInv(s: State, after: State)
    requires PaymentsKept(s) && after.orders == s.orders && after.adjustments == s.adjustments
    requires Coherent(after)
    requires SnapshotsKnown(after) && CapturesDistinct(after) && SnapshotsApplied(after) && ProductsSettled(after)
    requires TariffsInDollars(after)
    ensures Inv(after)
  {
    hide Chained, Conserved, Posted, RowsAgree, RowsTelescope, RowsWhole, RowsNumbered, CorrectionsTelescope, TotalsCurrent, SnapshotsKnown,
      CapturesDistinct, SnapshotsApplied, ProductsSettled, Payments.Consistent;
    SamePaid(s, after);
  }

  /** The rating context covers the portfolio and everything already settled this month. */
  lemma ContextCovers(s: State, p: Portfolio, env: Environment)
    requires Products(p.lines) <= env.catalog.Keys
    ensures RatingContext(s, p, env).services.Keys == Products(p.lines) + Settled(s, p.month)
    ensures RatingContext(s, p, env).users == env.users
  {}

  lemma RatingFits(s: State, p: Portfolio, c: Context, previous: seq<PreviousAllocation>, rating: Result<seq<RatedService>>)
    requires ListsPrevious(previous, s, p.month) && IsRating(rating, p.lines, previous, s.balance, c) && rating.Ok?
    ensures BaseCosts(p.lines, c).Ok? && Known(BaseCosts(p.lines, c).value.Keys, c)
      && Ratable(BaseCosts(p.lines, c).value, c)
    ensures RatedFor(Prepare(s, p, c), p.month, c, previous, rating.value, RatedAmounts(BaseCosts(p.lines, c).value, c))
  {
    hide BaseCosts, PreviousAmounts, Describes, Ratable, Targets, RatedBucket, Prepare, Latest;
    CostsKnown(p.lines, c);
    PreparedSettlements(s, p, c);
    SamePrevious(previous, s, Prepare(s, p, c), p.month);
  }

  lemma SamePrevious(previous: seq<PreviousAllocation>, s: State, t: State, month: Month)
    requires ListsPrevious(previous, s, month) && s.rows == t.rows
    ensures ListsPrevious(previous, t, month)
  {}

  /**
   * A new capture, once rated, is written exactly when every settlement it starts is in dollars:
   * no replay is suspected, no other trigger refuses it, the account stays coherent and no entry
   * overdraws it.
   */
  lemma FreshWrites(s: State, p: Portfolio, env: Environment, previous: seq<PreviousAllocation>,
                    rating: Result<seq<RatedService>>)
    requires Inv(s) && p.cursor !in s.snapshots && !IsStale(s, p) && Products(p.lines) <= env.catalog.Keys
    requires ListsPrevious(previous, s, p.month)
    requires IsRating(rating, p.lines, previous, s.balance, RatingContext(s, p, env)) && rating.Ok?
    ensures var r := Write(s, p, RatingContext(s, p, env), rating.value);
      && (r.Ok? <==> StartsInDollars(s, p, RatingContext(s, p, env)))
      && (r.Err? ==> r == Err(TariffNotInDollars))
      && (r.Ok? ==> Inv(r.value.0) && Safe(s.entries, r.value.0.entries, Min(s.balance, 0)))
  {
    hide Prepare, StartsInDollars, WritePrepared, IsRating, ListsPrevious, RatingContext, Inv, Safe;
    if StartsInDollars(s, p, RatingContext(s, p, env)) {
      PreparedWrites(s, p, env, previous, rating);
    }
  }

  lemma PreparedWrites(s: State, p: Portfolio, env: Environment, previous: seq<PreviousAllocation>,
                       rating: Result<seq<RatedService>>)
    requires Inv(s) && p.cursor !in s.snapshots && !IsStale(s, p) && Products(p.lines) <= env.catalog.Keys
    requires ListsPrevious(previous, s, p.month)
    requires IsRating(rating, p.lines, previous, s.balance, RatingContext(s, p, env)) && rating.Ok?
    requires StartsInDollars(s, p, RatingContext(s, p, env))
    ensures var c := RatingContext(s, p, env);
      var r := WritePrepared(Prepare(s, p, c), p, c, rating.value);
      r.Ok? && Inv(r.value.0) && Safe(s.entries, r.value.0.entries, Min(s.balance, 0))
  {
    hide Prepare, Chained, Conserved, Posted, PaymentsKept, UsageKept, Coherent, RatedFor, WellRated, ApplyAll, WorkOrder,
      ReplayedServices, Corrected, Safe, IsRating, ListsPrevious, RatingContext, RatedAmounts, Describes, BaseCosts,
      PreviousAmounts, Targets, Newest, TariffsInDollars, StartsInDollars;
    var c := RatingContext(s, p, env);
    ContextCovers(s, p, env);
    var t := Prepare(s, p, c);
    PreparedSettlements(s, p, c);
    PreparedCoherent(s, p, c);
    FreshIsNewest(s, p, c);
    if c.services.Keys == {} {
      NothingCorrected(t, p);
      NothingUnsafe(t);
      assert ReplayMatches(t, p, rating.value) by {
        NothingReplayed(t, p, c, previous, rating, s);
      }
      SnapshotTaken(s, p, c, t);
      KeptTariffs(s);
      TariffsStart(s, p, c);
      AssembleInv(s, t);
    } else {
      RatingFits(s, p, c, previous, rating);
      var rated := RatedAmounts(BaseCosts(p.lines, c).value, c);
      FitsDescribed(t, p.month, c, previous, rating.value, rated);
      var work := WorkOrder(t, p.month, rating.value);
      WorkOrderIs(t, p.month, rating.value);
      AllAllowed(t, p, c, previous, rating.value, rated, |work|);
      assert work[..|work|] == work;
      ApplyAllEffect(t, p, work);
      var after := ApplyAll(t, p, work).value;
      CorrectedSame(t, p, c.services.Keys, after);
      SnapshotTaken(s, p, c, after);
      KeptTariffs(s);
      TariffsStart(s, p, c);
      TariffsStay(t, p, work);
      AssembleInv(s, after);
    }
  }

  lemma KeptTariffs(s: State)
    requires Inv(s)
    ensures TariffsInDollars(s)
  {}

  lemma CorrectedSame(t: State, p: Portfolio, done: set<ServiceId>, after: State)
    requires Corrected(t, p, done, after)
    ensures after.orders == t.orders && after.adjustments == t.adjustments
  {
    hide LastCorrection, ReplayOf;
  }

  lemma FitsDescribed(t: State, month: Month, c: Context, previous: seq<PreviousAllocation>, result: seq<RatedService>,
                      rated: Amounts)
    requires RatedFor(t, month, c, previous, result, rated)
    ensures DistinctServices(result) && ServicesOf(result) == c.services.Keys && forall r :: r in result ==> WellRated(r)
  {
    hide ListsPrevious, PreviousAmounts, WellRated, Targets;
    DescribedWell(result, c.services.Keys, rated, Targets(rated, PreviousAmounts(previous, c).value, t.balance));
  }

  lemma NothingReplayed(t: State, p: Portfolio, c: Context, previous: seq<PreviousAllocation>,
                        rating: Result<seq<RatedService>>, s: State)
    requires ListsPrevious(previous, s, p.month) && IsRating(rating, p.lines, previous, s.balance, c) && rating.Ok?
    requires t == Prepare(s, p, c) && ReplayedServices(t, p, c.services.Keys) == {}
    ensures ReplayMatches(t, p, rating.value)
  {
    hide BaseCosts, PreviousAmounts, RatedFor, Prepare, ListsPrevious;
    RatingFits(s, p, c, previous, rating);
    FitsDescribed(t, p.month, c, previous, rating.value, RatedAmounts(BaseCosts(p.lines, c).value, c));
    forall r | r in rating.value ensures ReplayOf(t.corrections, SettlementKey(p.month, r.service), p.cursor).None? {
      assert r.service in ServicesOf(rating.value);
      assert r.service !in ReplayedServices(t, p, c.services.Keys);
    }
  }

  // ---- A snapshot taken before ------------------------------------------------------------------

  /** Preparing a snapshot already taken changes nothing. */
  lemma PreparedAgain(s: State, p: Portfolio, env: Environment)
    requires Inv(s) && p.cursor in s.snapshots && s.snapshots[p.cursor] == SnapshotOf(p)
    requires Products(p.lines) <= env.catalog.Keys
    ensures RatingContext(s, p, env).services.Keys == Settled(s, p.month)
    ensures Prepare(s, p, RatingContext(s, p, env)) == s
  {
    hide Chained, Conserved, Posted, PaymentsKept, RowsAgree, RowsTelescope, RowsWhole, RowsNumbered, CorrectionsTelescope,
      TotalsCurrent, SnapshotsKnown, SnapshotsApplied, CapturesDistinct, RatingContext, Prepare;
    ContextCovers(s, p, env);
    PreparedSettlements(s, p, RatingContext(s, p, env));
    var t := Prepare(s, p, RatingContext(s, p, env));
    forall k ensures k in t.settlements <==> k in s.settlements {
      if k.month == p.month && k.service in Settled(s, p.month) {
        assert k == SettlementKey(p.month, k.service);
      }
    }
    assert t.settlements == s.settlements;
    assert t.snapshots == s.snapshots;
  }

  /** A snapshot already taken starts nothing, so it is refused only by what it has or has not corrected. */
  lemma NothingStarts(s: State, p: Portfolio, env: Environment)
    requires Inv(s) && p.cursor in s.snapshots && s.snapshots[p.cursor] == SnapshotOf(p)
    requires Products(p.lines) <= env.catalog.Keys
    ensures StartsInDollars(s, p, RatingContext(s, p, env))
  {
    hide Chained, Conserved, Posted, PaymentsKept, RowsAgree, RowsTelescope, RowsWhole, RowsNumbered,
      CorrectionsTelescope, TotalsCurrent, SnapshotsKnown, SnapshotsApplied, CapturesDistinct, RatingContext;
    PreparedAgain(s, p, env);
  }

  /**
   * The one case that passes the service's own replay test: a snapshot that found nothing to
   * correct when it was taken, delivered again once something has been settled. It would be
   * applied, and release what later snapshots charged, if the database did not refuse it.
   */
  lemma RewriteRefused(s: State, p: Portfolio, env: Environment, previous: seq<PreviousAllocation>,
                       rating: Result<seq<RatedService>>)
    requires Inv(s) && p.cursor in s.snapshots && s.snapshots[p.cursor] == SnapshotOf(p)
    requires Products(p.lines) <= env.catalog.Keys
    requires ListsPrevious(previous, s, p.month)
    requires IsRating(rating, p.lines, previous, s.balance, RatingContext(s, p, env)) && rating.Ok?
    requires ReplayedServices(s, p, Settled(s, p.month)) == {} && Settled(s, p.month) != {}
    ensures Write(s, p, RatingContext(s, p, env), rating.value) == Err(OlderSnapshot)
  {
    hide Prepare, Coherent, RatedFor, WellRated, WorkOrder, Corrected, IsRating, ListsPrevious, RatingContext,
      RatedAmounts, Describes, BaseCosts, PreviousAmounts, Targets, LastCorrection, ReplayOf, ReplayMatches,
      Chained, Conserved, Posted, PaymentsKept, RowsAgree, RowsTelescope, RowsWhole, RowsNumbered, CorrectionsTelescope,
      TotalsCurrent, SnapshotsKnown, CapturesDistinct, ProductsSettled, ApplyRatedService, StartsInDollars;
    var c := RatingContext(s, p, env);
    PreparedAgain(s, p, env);
    NothingStarts(s, p, env);
    PreparedCoherent(s, p, c);
    RatingFits(s, p, c, previous, rating);
    FitsDescribed(s, p.month, c, previous, rating.value, RatedAmounts(BaseCosts(p.lines, c).value, c));
    var work := WorkOrder(s, p.month, rating.value);
    WorkOrderIs(s, p.month, rating.value);
    var any :| any in c.services.Keys;
    assert any in ServicesOf(work);
    assert work != [];
    assert work[0] in work;
    assert work[0].service in ServicesOf(work);
    var id := work[0].service;
    assert id !in ReplayedServices(s, p, Settled(s, p.month));
    assert SettlementKey(p.month, id) in s.settlements;
    assert CorrectedOrLater(s, p.cursor, SettlementKey(p.month, id));
    LastIsLater(s, p, id);
    assert work[..1][..0] == [];
    assert ApplyAll(s, p, work[..1]) == Err(OlderSnapshot);
    FirstRefusal(s, p, work, 1);
  }

  /**
   * What delivering a snapshot again comes to, once it can be rated: it is a replay exactly when
   * it has corrected every settlement of the month and repeats the usage it was rated with.
   */
  lemma RedeliveryOutcome(s: State, p: Portfolio, env: Environment, previous: seq<PreviousAllocation>,
                          rating: Result<seq<RatedService>>)
    requires Inv(s) && p.cursor in s.snapshots && s.snapshots[p.cursor] == SnapshotOf(p)
    requires Products(p.lines) <= env.catalog.Keys
    requires ListsPrevious(previous, s, p.month)
    requires IsRating(rating, p.lines, previous, s.balance, RatingContext(s, p, env)) && rating.Ok?
    ensures var replayed := ReplayedServices(s, p, Settled(s, p.month));
      Write(s, p, RatingContext(s, p, env), rating.value)
      == if replayed == Settled(s, p.month) then
           (if ReplayMatches(s, p, rating.value) then Ok((s, Replayed)) else Err(SnapshotMutated))
         else if replayed == {} then Err(OlderSnapshot)
         else Err(PartialSnapshot)
  {
    hide Inv, Prepare, IsRating, ListsPrevious, RatingContext, ReplayMatches, StartsInDollars, ApplyAll, WorkOrder,
      ReplayedServices;
    PreparedAgain(s, p, env);
    NothingStarts(s, p, env);
    if ReplayedServices(s, p, Settled(s, p.month)) == {} && Settled(s, p.month) != {} {
      RewriteRefused(s, p, env, previous, rating);
    }
  }

  /**
   * Delivering a snapshot again never writes a row or moves the balance, not even after
   * later snapshots have been applied.
   */
  lemma RedeliveryWritesNothing(s: State, p: Portfolio, env: Environment, after: State, r: Result<Outcome>)
    requires Inv(s) && p.cursor in s.snapshots && Settles(s, p, env, after, r)
    ensures after == s && r != Ok(Superseded) && r != Ok(Applied)
  {
    hide Inv, IsRating, ListsPrevious, RatingContext, Write, ReplayedServices, ReplayMatches;
    if s.snapshots[p.cursor] == SnapshotOf(p) && Products(p.lines) <= env.catalog.Keys
       && Products(p.lines) <= env.active {
      var c := RatingContext(s, p, env);
      var previous, rating :|
        ListsPrevious(previous, s, p.month) && IsRating(rating, p.lines, previous, s.balance, c)
        && Writes(s, p, c, rating, after, r);
      if rating.Ok? {
        RedeliveryOutcome(s, p, env, previous, rating);
      }
    }
  }

  lemma LastIsLater(s: State, p: Portfolio, id: ServiceId)
    requires p.cursor in s.snapshots && s.snapshots[p.cursor] == SnapshotOf(p)
    requires CorrectedOrLater(s, p.cursor, SettlementKey(p.month, id))
    requires ReplayOf(s.corrections, SettlementKey(p.month, id), p.cursor).None?
    ensures var last := LastCorrection(s.corrections, SettlementKey(p.month, id));
      last.Some? && last.value.snapshot != p.cursor && last.value.snapshot in s.snapshots
      && p.capturedAt <= s.snapshots[last.value.snapshot].capturedAt
  {}

  // ---- Every transaction, every run -----------------------------------------------------------------

  /**
   * Settling keeps the account coherent, only appends entries, never takes the balance below
   * zero or below where it was, and never charges usage on credit.
   */
  lemma SettlesKeeps(s: State, p: Portfolio, env: Environment, after: State, r: Result<Outcome>)
    requires Inv(s) && Settles(s, p, env, after, r)
    ensures Inv(after) && Safe(s.entries, after.entries, Min(s.balance, 0))
    ensures after != s ==> p.cursor !in s.snapshots && p.cursor in after.snapshots
  {
    hide Inv, IsRating, ListsPrevious, RatingContext, Write, Safe;
    NothingUnsafe(s);
    if p.cursor in s.snapshots {
      RedeliveryWritesNothing(s, p, env, after, r);
    } else if !IsStale(s, p) && Products(p.lines) <= env.catalog.Keys && Products(p.lines) <= env.active {
      var c := RatingContext(s, p, env);
      var previous, rating :|
        ListsPrevious(previous, s, p.month) && IsRating(rating, p.lines, previous, s.balance, c)
        && Writes(s, p, c, rating, after, r);
      if rating.Ok? {
        FreshWrites(s, p, env, previous, rating);
        WrittenSnapshot(s, p, c, rating.value);
      }
    }
  }

  lemma {:induction false} SnapshotsStay(s: State, p: Portfolio, work: seq<RatedService>)
    ensures ApplyAll(s, p, work).Ok? ==> ApplyAll(s, p, work).value.snapshots == s.snapshots
  {
    hide ChangedRows, UsersOf, LastCorrection;
    if work != [] { SnapshotsStay(s, p, work[..|work| - 1]); }
  }

  lemma WrittenSnapshot(s: State, p: Portfolio, c: Context, rated: seq<RatedService>)
    ensures Write(s, p, c, rated).Ok? ==> Write(s, p, c, rated).value.0.snapshots == s.snapshots[p.cursor := SnapshotOf(p)]
  {
    hide ApplyAll, WorkOrder, ReplayedServices, ReplayMatches;
    SnapshotsStay(Prepare(s, p, c), p, WorkOrder(Prepare(s, p, c), p.month, rated));
  }

  lemma StepKeeps(s: State, e: Event, after: State)
    requires Inv(s) && Step(s, e, after)
    ensures Inv(after)
  {
    hide Inv;
    match e
    case OrderOpened(id, credits, automatic) => OpenOrderKeeps(s, id, credits, automatic);
    case OrderClosed(id) => CloseOrderKeeps(s, id);
    case OrderPaid(id, intent) => PaymentSucceededKeeps(s, id, intent);
    case Adjusted(notification) => PaymentAdjustedKeeps(s, notification);
    case PortfolioSettled(p, env) =>
      var r :| Settles(s, p, env, after, r);
      SettlesKeeps(s, p, env, after, r);
  }

  /** Whatever happens in whatever order, the account stays coherent. */
  lemma {:induction false} AlwaysCoherent(states: seq<State>, events: seq<Event>, i: nat)
    requires IsRun(states, events) && i < |states|
    ensures Inv(states[i])
  {
    hide Inv, Step;
    if i == 0 {
      EmptyInv();
    } else {
      AlwaysCoherent(states, events, i - 1);
      StepKeeps(states[i - 1], events[i - 1], states[i]);
    }
  }

  /** The balance is at all times what was paid, less what is clawed back, less what is consumed. */
  lemma LedgerConserves(states: seq<State>, events: seq<Event>, i: nat)
    requires IsRun(states, events) && i < |states|
    ensures var s := states[i];
      && s.balance == Sum(Paid(s)) - Sum(ClawedBack(s.adjustments, Paid(s))) - Sum(ConsumedBy(s.settlements))
      && (forall id :: id in Paid(s) ==> 0 <= ClawedBack(s.adjustments, Paid(s))[id] <= Paid(s)[id])
      && s.balance == BalanceOf(s.entries)
      && forall j :: 0 <= j < |s.entries| ==>
           s.entries[j].balanceAfter == BalanceOf(s.entries[..j]) + s.entries[j].delta
  {
    hide IsRun, UsageKept, Payments.Applied, Payments.For, Payments.DesiredFor;
    AlwaysCoherent(states, events, i);
    var s := states[i];
    forall id | id in Paid(s) ensures 0 <= ClawedBack(s.adjustments, Paid(s))[id] <= Paid(s)[id] {
      assert Payments.Reconciled(Payments.For(s.adjustments, id), Paid(s)[id]);
      WithinPaid(Payments.For(s.adjustments, id), Paid(s)[id]);
    }
  }

  /** In every run a payment is credited exactly once: one entry per paid order and per payment. */
  lemma PaidOnce(states: seq<State>, events: seq<Event>, i: nat)
    requires IsRun(states, events) && i < |states|
    ensures var s := states[i];
      && (forall j, k :: 0 <= j < k < |s.entries| && s.entries[j].source.TopUp? && s.entries[k].source.TopUp? ==>
            s.entries[j].source.order != s.entries[k].source.order
            && s.entries[j].source.intent != s.entries[k].source.intent)
      && (forall j :: 0 <= j < |s.entries| && s.entries[j].source.TopUp? ==>
            s.entries[j].source.order in Paid(s) && s.entries[j].delta == Paid(s)[s.entries[j].source.order])
      && (forall id :: id in Paid(s) ==> EntryFor(s.entries, id, s.orders[id].paidBy.value))
  {
    hide IsRun, UsageKept, Chained, Conserved, EntryFor, Payments.Consistent;
    AlwaysCoherent(states, events, i);
  }

  lemma WithinPaid(log: Payments.Log, paid: nat)
    requires Payments.Reconciled(log, paid)
    ensures 0 <= Payments.Applied(log) <= paid
  {}

  /** Captures of a month are taken in strictly increasing time, and stale ones change nothing. */
  lemma CapturesIncrease(s: State, p: Portfolio, env: Environment, after: State, r: Result<Outcome>)
    requires Inv(s) && Settles(s, p, env, after, r)
    ensures p.cursor !in s.snapshots && p.cursor in after.snapshots ==>
      forall c :: c in s.snapshots && s.snapshots[c].month == p.month ==> s.snapshots[c].capturedAt < p.capturedAt
    ensures p.cursor !in s.snapshots && IsStale(s, p) ==> after == s && r == Ok(Superseded)
    ensures forall c :: c in s.snapshots ==> c in after.snapshots && after.snapshots[c] == s.snapshots[c]
  {
    hide Inv, IsRating, ListsPrevious, RatingContext, Write;
    if p.cursor in s.snapshots {
      RedeliveryWritesNothing(s, p, env, after, r);
    } else if !IsStale(s, p) && Products(p.lines) <= env.catalog.Keys && Products(p.lines) <= env.active {
      var c := RatingContext(s, p, env);
      var previous, rating :|
        ListsPrevious(previous, s, p.month) && IsRating(rating, p.lines, previous, s.balance, c)
        && Writes(s, p, c, rating, after, r);
      if rating.Ok? { WrittenSnapshot(s, p, c, rating.value); }
    }
  }

  /** A member's own, the unattributed and the settlement's consumption never leave a negative rest. */
  lemma OtherShareNonNegative(s: State, key: SettlementKey, viewer: nat)
    requires Inv(s) && key in s.settlements
    ensures s.settlements[key].total.consumed
      - Cumulative(s.rows, Subject(key, Some(viewer))).consumed
      - Cumulative(s.rows, Subject(key, None)).consumed >= 0
  {
    hide Chained, Conserved, Posted, PaymentsKept, RowsTelescope, RowsNumbered, CorrectionsTelescope, TotalsCurrent, SnapshotsKnown,
      CapturesDistinct, SnapshotsApplied, ProductsSettled, Latest;
    var figures := Figures(Latest(s.rows), key, Consumed);
    assert Sum(figures) == Pick(s.settlements[key].total, Consumed);
    TwoOfMany(figures, Subject(key, Some(viewer)), Subject(key, None));
  }

  lemma TwoOfMany(m: map<Subject, int>, a: Subject, b: Subject)
    requires a != b && forall x :: x in m ==> m[x] >= 0
    ensures (if a in m then m[a] else 0) + (if b in m then m[b] else 0) <= Sum(m)
  {
    var rest := m - {a};
    if a in m { SumRemove(m, a); } else { assert rest == m; }
    SumNonNegative(rest);
  }

  /** A previous allocation read back from the account is always accepted by the rating. */
  lemma PreviousAccepted(s: State, p: Portfolio, env: Environment, previous: seq<PreviousAllocation>)
    requires Inv(s) && ListsPrevious(previous, s, p.month) && Products(p.lines) <= env.catalog.Keys
    ensures PreviousAmounts(previous, RatingContext(s, p, env)).Ok?
  {
    hide Chained, Conserved, Posted, PaymentsKept, RowsTelescope, RowsNumbered, CorrectionsTelescope, TotalsCurrent, SnapshotsKnown,
      CapturesDistinct, SnapshotsApplied, ProductsSettled, Latest;
    var c := RatingContext(s, p, env);
    ContextCovers(s, p, env);
    PreviousIsLookup(previous, c);
    forall a | a in previous ensures PreviousUsable(a, c) {
      var x := Subject(SettlementKey(p.month, a.service), a.user);
      assert x in Latest(s.rows);
      assert x.settlement in s.settlements;
      assert a.service in Settled(s, p.month);
    }
  }
}
