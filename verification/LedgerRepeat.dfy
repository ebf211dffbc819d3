/** Settling the same usage again changes nothing that anybody pays for. */
module LedgerRepeat {
  import opened Prelude
  import opened Buckets
  import opened CreditTargets
  import opened CreditRating
  import opened Ledger
  import opened LedgerRows
  import opened LedgerInvariants
  import opened LedgerSettlement
  import opened LedgerCharges
  import opened LedgerTheorems

  // ---- Where everyone stands after a settlement ----------------------------------------------------

  /** The settlement and each of its users stand exactly where the rating put them. */
  ghost predicate Stands(s: State, month: Month, r: RatedService)
  {
    var key := SettlementKey(month, r.service);
    && key in s.settlements && s.settlements[key].total == TotalOf(r)
    && forall x: Subject :: x.settlement == key ==> Cumulative(s.rows, x) == TargetOf(r.allocations, x.user)
  }

  lemma ApplyStands(s: State, month: Month, snapshot: Cursor, r: RatedService, other: RatedService)
    requires SettlementKey(month, r.service) in s.settlements
    ensures var after := ApplyRatedService(s, SettlementKey(month, r.service), snapshot, r);
      && Stands(after, month, r)
      && (other.service != r.service && Stands(s, month, other) ==> Stands(after, month, other))
  {
    hide ChangedRows, UsersOf, TargetOf, Cumulative, NextSequence;
    var key := SettlementKey(month, r.service);
    LatestIsTruth(s.rows, key, r, NextSequence(s, key));
  }

  lemma {:induction false} AllStand(s: State, p: Portfolio, work: seq<RatedService>, r: RatedService)
    requires DistinctServices(work) && ApplyAll(s, p, work).Ok? && r in work
    ensures Stands(ApplyAll(s, p, work).value, p.month, r)
  {
    hide Stands, ApplyRatedService;
    var init, last := work[..|work| - 1], work[|work| - 1];
    assert forall x :: x in work <==> x in init || x == last;
    ApplyStands(ApplyAll(s, p, init).value, p.month, p.cursor, last, r);
    LastIsNew(work);
    if r in init {
      AllStand(s, p, init, r);
      assert r.service in ServicesOf(init);
    }
  }

  /** The rating names the subject. */
  ghost predicate Rates(month: Month, rated: seq<RatedService>, x: Subject)
  {
    exists r, a :: r in rated && a in r.allocations && x == Subject(SettlementKey(month, r.service), a.user)
  }

  /** Rows are added about the users of the rating only, and none is taken away. */
  lemma {:induction false} RowsFrom(s: State, p: Portfolio, work: seq<RatedService>, x: Subject)
    requires ApplyAll(s, p, work).Ok?
    ensures x in Latest(s.rows) ==> x in Latest(ApplyAll(s, p, work).value.rows)
    ensures x in Latest(ApplyAll(s, p, work).value.rows) ==>
      x in Latest(s.rows)
      || Rates(p.month, work, x)
  {
    hide Latest, ChangedRows, UsersOf, LastCorrection;
    if work != [] {
      var init, last := work[..|work| - 1], work[|work| - 1];
      assert forall r :: r in work <==> r in init || r == last;
      RowsFrom(s, p, init, x);
      var mid := ApplyAll(s, p, init).value;
      var key := SettlementKey(p.month, last.service);
      UsersOfAre(mid.rows, key, last);
      ChangedRowsTell(UsersOf(mid.rows, key, last), mid.rows, key, last, NextSequence(mid, key));
    }
  }

  // ---- Writing it again -----------------------------------------------------------------------------

  lemma {:induction false} NoChange(users: seq<UserId>, rows: seq<Row>, key: SettlementKey, r: RatedService, sequence: nat)
    requires forall x: Subject :: x.settlement == key ==> Cumulative(rows, x) == TargetOf(r.allocations, x.user)
    ensures ChangedRows(users, rows, key, r, sequence) == []
  {
    hide Cumulative, TargetOf;
    if users != [] {
      NoChange(users[..|users| - 1], rows, key, r, sequence);
      assert Cumulative(rows, Subject(key, users[|users| - 1])) == TargetOf(r.allocations, users[|users| - 1]);
    }
  }

  /** A service that stands where it is rated gets a correction without effect. */
  lemma StandingStays(s: State, month: Month, snapshot: Cursor, r: RatedService)
    requires Stands(s, month, r)
    ensures var after := ApplyRatedService(s, SettlementKey(month, r.service), snapshot, r);
      after == s.(corrections := after.corrections)
  {
    hide UsersOf, ChangedRows, Cumulative, TargetOf, NextSequence;
    var key := SettlementKey(month, r.service);
    var settlement := s.settlements[key];
    NoChange(UsersOf(s.rows, key, r), s.rows, key, r, NextSequence(s, key));
    assert settlement.(total := TotalOf(r)) == settlement;
    assert s.settlements[key := settlement] == s.settlements;
    assert s.rows + [] == s.rows;
  }

  lemma StillStands(s: State, t: State, month: Month, r: RatedService)
    requires Stands(s, month, r) && t.settlements == s.settlements && t.rows == s.rows
    ensures Stands(t, month, r)
  {}

  lemma {:induction false} NothingMoves(s: State, p: Portfolio, work: seq<RatedService>)
    requires ApplyAll(s, p, work).Ok? && forall r :: r in work ==> Stands(s, p.month, r)
    ensures var after := ApplyAll(s, p, work).value; after == s.(corrections := after.corrections)
  {
    hide ApplyRatedService, Stands;
    if work != [] {
      var init, last := work[..|work| - 1], work[|work| - 1];
      assert forall r :: r in work <==> r in init || r == last;
      NothingMoves(s, p, init);
      var mid := ApplyAll(s, p, init).value;
      assert Stands(s, p.month, last);
      StillStands(s, mid, p.month, last);
      StandingStays(mid, p.month, p.cursor, last);
    }
  }

  // ---- The same usage under a new capture --------------------------------------------------------------

  /** What the first settlement has settled: a capture written for the given rating. */
  ghost predicate Wrote(s: State, p: Portfolio, env: Environment, previous: seq<PreviousAllocation>,
                        rated: seq<RatedService>, after: State)
  {
    && Inv(s) && p.cursor !in s.snapshots && !IsStale(s, p)
    && Products(p.lines) <= env.catalog.Keys && ListsPrevious(previous, s, p.month)
    && var c := RatingContext(s, p, env);
       && IsRating(Ok(rated), p.lines, previous, s.balance, c)
       && StartsInDollars(s, p, c) && c.services.Keys != {}
       && ApplyAll(Prepare(s, p, c), p, WorkOrder(Prepare(s, p, c), p.month, rated)) == Ok(after)
  }

  /** The amounts the rating of a portfolio starts from. */
  ghost function AmountsFor(p: Portfolio, c: Context): Amounts
    requires BaseCosts(p.lines, c).Ok? && Known(BaseCosts(p.lines, c).value.Keys, c)
    requires Ratable(BaseCosts(p.lines, c).value, c)
  {
    RatedAmounts(BaseCosts(p.lines, c).value, c)
  }

  /** A rated portfolio being written to an account in which it has been prepared. */
  ghost predicate Writing(t: State, p: Portfolio, c: Context, previous: seq<PreviousAllocation>,
                          result: seq<RatedService>, rated: Amounts, after: State)
  {
    && Coherent(t) && RatedFor(t, p.month, c, previous, result, rated)
    && DistinctServices(result) && (forall r :: r in result ==> WellRated(r))
    && ApplyAll(t, p, WorkOrder(t, p.month, result)) == Ok(after)
  }

  lemma WritingStands(t: State, p: Portfolio, c: Context, previous: seq<PreviousAllocation>, result: seq<RatedService>,
                      rated: Amounts, after: State)
    requires Writing(t, p, c, previous, result, rated, after)
    ensures DistinctServices(result) && forall r :: r in result ==> Stands(after, p.month, r)
  {
    hide Coherent, RatedFor, WellRated, ApplyAll, WorkOrder, Stands;
    WorkOrderIs(t, p.month, result);
    forall r | r in result ensures Stands(after, p.month, r) {
      AllStand(t, p, WorkOrder(t, p.month, result), r);
    }
  }

  lemma WritingCosts(t: State, p: Portfolio, c: Context, previous: seq<PreviousAllocation>, result: seq<RatedService>,
                     rated: Amounts, after: State)
    requires Writing(t, p, c, previous, result, rated, after)
    ensures PreviousAmounts(previous, c).Ok?
    ensures after.balance == BalanceAfter(rated, PreviousAmounts(previous, c).value, t.balance)
  {
    hide Coherent, RatedFor, WellRated, ApplyAll, WorkOrder, Corrected, BalanceAfter, PreviousAmounts;
    WorkOrderIs(t, p.month, result);
    var work := WorkOrder(t, p.month, result);
    ApplyAllEffect(t, p, work);
    WorkCosts(t, p.month, result);
    CoherentRows(t);
    PreviousRead(t, p.month, c, previous, result, rated);
    TotalCharge(t, p.month, c, previous, result, rated);
  }

  lemma WritingRows(t: State, p: Portfolio, c: Context, previous: seq<PreviousAllocation>, result: seq<RatedService>,
                    rated: Amounts, after: State, x: Subject)
    requires Writing(t, p, c, previous, result, rated, after)
    ensures x in Latest(t.rows) ==> x in Latest(after.rows)
    ensures x in Latest(after.rows) ==> x in Latest(t.rows) || Rates(p.month, result, x)
  {
    hide Coherent, RatedFor, WellRated, ApplyAll, WorkOrder, Latest;
    var work := WorkOrder(t, p.month, result);
    WorkOrderIs(t, p.month, result);
    RowsFrom(t, p, work, x);
  }

  lemma WroteIsWriting(s: State, p: Portfolio, env: Environment, previous: seq<PreviousAllocation>,
                       result: seq<RatedService>, after: State)
    requires Wrote(s, p, env, previous, result, after)
    ensures var c := RatingContext(s, p, env);
      && BaseCosts(p.lines, c).Ok? && Known(BaseCosts(p.lines, c).value.Keys, c)
      && Ratable(BaseCosts(p.lines, c).value, c)
      && Writing(Prepare(s, p, c), p, c, previous, result, AmountsFor(p, c), after)
  {
    hide Inv, IsRating, ListsPrevious, RatingContext, Prepare, BaseCosts, Ratable, RatedFor, RatedAmounts, ApplyAll,
      WorkOrder, Coherent, WellRated, StartsInDollars;
    var c := RatingContext(s, p, env);
    PreparedCoherent(s, p, c);
    RatingFits(s, p, c, previous, Ok(result));
    FitsDescribed(Prepare(s, p, c), p.month, c, previous, result, AmountsFor(p, c));
  }

  lemma PreviousRead(t: State, month: Month, c: Context, previous: seq<PreviousAllocation>, result: seq<RatedService>,
                     rated: Amounts)
    requires RatedFor(t, month, c, previous, result, rated)
    ensures PreviousAmounts(previous, c).Ok?
    ensures Describes(result, c.services.Keys, rated, Targets(rated, PreviousAmounts(previous, c).value, t.balance))
    ensures ListsPrevious(previous, t, month)
  {
    hide PreviousAmounts, Describes, ListsPrevious, Targets;
  }

  lemma WorkCosts(s: State, month: Month, rated: seq<RatedService>)
    ensures DeltaSum(s, month, WorkOrder(s, month, rated)) == DeltaSum(s, month, rated)
  {
    hide Select, DeltaSum;
    SelectedSums(s, month, rated);
    DeltaSumConcat(s, month, Select(s, month, rated, true), Select(s, month, rated, false));
  }

  // ---- What the next rating reads ------------------------------------------------------------------------

  /** The next rating reads back exactly what this one has consumed. */
  lemma ReadBack(t: State, p: Portfolio, c: Context, previous: seq<PreviousAllocation>, result: seq<RatedService>,
                 rated: Amounts, after: State, next: seq<PreviousAllocation>, k: Key)
    requires Writing(t, p, c, previous, result, rated, after)
    requires ListsPrevious(next, after, p.month) && PreviousAmounts(next, c).Ok? && PreviousAmounts(previous, c).Ok?
    requires k.service in c.services
    ensures var targets := Targets(rated, PreviousAmounts(previous, c).value, t.balance);
      && (k in PreviousAmounts(next, c).value ==> k in targets)
      && (k in PreviousAmounts(previous, c).value ==> k in PreviousAmounts(next, c).value)
      && (k in targets ==> At(PreviousAmounts(next, c).value, k) == targets[k] * MICROCREDITS_PER_CREDIT)
  {
    hide Coherent, WellRated, ApplyAll, WorkOrder, Latest, PreviousAmounts, ListsPrevious, Targets, Describes;
    var targets := Targets(rated, PreviousAmounts(previous, c).value, t.balance);
    PreviousRead(t, p.month, c, previous, result, rated);
    PreviousIsLatest(t, p.month, previous, c);
    PreviousIsLatest(after, p.month, next, c);
    var x := Subject(SettlementKey(p.month, k.service), k.user);
    WritingRows(t, p, c, previous, result, rated, after, x);
    if Rates(p.month, result, x) {
      RatedIsTarget(result, c.services.Keys, rated, targets, p.month, k);
    }
    WritingStands(t, p, c, previous, result, rated, after);
    if k in targets {
      var r := ServiceOf(result, c.services.Keys, rated, targets, k);
      assert Stands(after, p.month, r);
      StandingTarget(after, p.month, r, rated, targets, k);
      assert Cumulative(after.rows, x).consumed == targets[k] * MICROCREDITS_PER_CREDIT;
    }
  }

  lemma RatedIsTarget(result: seq<RatedService>, services: set<ServiceId>, rated: Amounts, targets: map<Key, nat>,
                      month: Month, k: Key)
    requires Describes(result, services, rated, targets)
    requires Rates(month, result, Subject(SettlementKey(month, k.service), k.user))
    ensures k in targets
  {
    var r, a :| r in result && a in r.allocations
      && Subject(SettlementKey(month, k.service), k.user) == Subject(SettlementKey(month, r.service), a.user);
    assert ServiceRated(r, rated, targets);
    assert k == Key(r.service, a.user);
  }

  lemma ServiceOf(result: seq<RatedService>, services: set<ServiceId>, rated: Amounts, targets: map<Key, nat>, k: Key)
    returns (r: RatedService)
    requires Describes(result, services, rated, targets) && k.service in services
    ensures r in result && r.service == k.service && ServiceRated(r, rated, targets)
  {
    hide ServiceRated;
    r :| r in result && r.service == k.service;
  }

  /** Where a service stands, each of its buckets has consumed its target. */
  lemma StandingTarget(s: State, month: Month, r: RatedService, rated: Amounts, targets: map<Key, nat>, k: Key)
    requires Stands(s, month, r) && ServiceRated(r, rated, targets) && k in targets && k.service == r.service
    ensures Cumulative(s.rows, Subject(SettlementKey(month, k.service), k.user)).consumed
         == targets[k] * MICROCREDITS_PER_CREDIT
  {
    hide Cumulative, At;
    RatedWell(r, rated, targets);
    var a :| a in r.allocations && a.user == k.user;
    var i :| 0 <= i < |r.allocations| && r.allocations[i] == a;
    TargetIs(r.allocations, i);
    assert k == Key(r.service, a.user);
  }

  lemma {:induction false} SettlementsStay(s: State, p: Portfolio, work: seq<RatedService>)
    requires ApplyAll(s, p, work).Ok?
    ensures var after := ApplyAll(s, p, work).value;
      after.settlements.Keys == s.settlements.Keys
      && forall k :: k in s.settlements ==> after.settlements[k].tariff == s.settlements[k].tariff
  {
    hide ChangedRows, UsersOf, LastCorrection;
    if work != [] { SettlementsStay(s, p, work[..|work| - 1]); }
  }

  /** Every service the first settlement has rated is settled, under the tariff it was rated with. */
  ghost predicate KeepsTariffs(after: State, month: Month, c: Context)
  {
    && Settled(after, month) == c.services.Keys
    && forall id :: id in c.services ==>
         var key := SettlementKey(month, id); key in after.settlements && after.settlements[key].tariff == c.services[id]
  }

  lemma TariffsKept(s: State, p: Portfolio, env: Environment, after: State)
    requires Products(p.lines) <= env.catalog.Keys
    requires var t := Prepare(s, p, RatingContext(s, p, env));
      && after.settlements.Keys == t.settlements.Keys
      && forall k :: k in t.settlements ==> after.settlements[k].tariff == t.settlements[k].tariff
    ensures KeepsTariffs(after, p.month, RatingContext(s, p, env))
  {
    hide Products, Prepare, RatingContext;
    ContextCovers(s, p, env);
    var c := RatingContext(s, p, env);
    PreparedSettlements(s, p, c);
    assert forall k: SettlementKey :: k in s.settlements && k.month == p.month ==> k.service in Settled(s, p.month);
    forall id ensures id in Settled(after, p.month) <==> id in c.services {
      if id in c.services { assert SettlementKey(p.month, id) in after.settlements; }
    }
    forall id | id in c.services
      ensures var key := SettlementKey(p.month, id); key in after.settlements && after.settlements[key].tariff == c.services[id]
    {
      StartsWith(s, p, c, id);
      if SettlementKey(p.month, id) in s.settlements { SettledTariff(s, p, env, id); }
    }
  }

  /** A settlement that is there stays, and one that is started takes the tariff it is rated with. */
  lemma StartsWith(s: State, p: Portfolio, c: Context, id: ServiceId)
    requires id in c.services
    ensures var key, settlements := SettlementKey(p.month, id), Prepare(s, p, c).settlements;
      && key in settlements
      && settlements[key] == if key in s.settlements then s.settlements[key] else Settlement(c.services[id], ZERO)
  {
    hide Products;
    var starting := map i | i in c.services :: SettlementKey(p.month, i) := Settlement(c.services[i], ZERO);
    assert SettlementKey(p.month, id) in starting;
  }

  lemma SettledTariff(s: State, p: Portfolio, env: Environment, id: ServiceId)
    requires Products(p.lines) <= env.catalog.Keys && SettlementKey(p.month, id) in s.settlements
    ensures var services := RatingContext(s, p, env).services;
      id in services && services[id] == s.settlements[SettlementKey(p.month, id)].tariff
  {
    hide Products;
    assert id in Settled(s, p.month);
  }

  /** The next capture of the same lines is rated under the very same tariffs, and starts nothing. */
  lemma SameContext(c: Context, month: Month, after: State, q: Portfolio, env: Environment)
    requires KeepsTariffs(after, month, c) && q.month == month && env.users == c.users
    requires Products(q.lines) <= env.catalog.Keys && Products(q.lines) <= c.services.Keys
    ensures RatingContext(after, q, env) == c
  {
    hide Products;
    assert RatingContext(after, q, env).services == c.services;
  }

  lemma StartsNothing(c: Context, after: State, q: Portfolio)
    requires KeepsTariffs(after, q.month, c)
    ensures StartsInDollars(after, q, c)
    ensures Prepare(after, q, c) == after.(snapshots := after.snapshots[q.cursor := SnapshotOf(q)])
  {
    hide Settled;
    assert Prepare(after, q, c).settlements == after.settlements;
  }

  /** Rated again from its own outcome, the same usage gives the same list. */
  lemma RatedAlike(t: State, p: Portfolio, c: Context, previous: seq<PreviousAllocation>, result: seq<RatedService>,
                   rated: Amounts, after: State, next: seq<PreviousAllocation>, again: seq<RatedService>)
    requires Writing(t, p, c, previous, result, rated, after) && Known(rated.Keys, c)
    requires ListsPrevious(next, after, p.month) && PreviousAmounts(next, c).Ok?
    requires Describes(again, c.services.Keys, rated, Targets(rated, PreviousAmounts(next, c).value, after.balance))
    ensures again == result
  {
    hide Coherent, RatedFor, WellRated, ApplyAll, WorkOrder, PreviousAmounts, ListsPrevious, Targets, Describes,
      BalanceAfter, CreditTargets.Consumed, At, Writing;
    RatedForWriting(t, p, c, previous, result, rated, after);
    PreviousRead(t, p.month, c, previous, result, rated);
    WritingCosts(t, p, c, previous, result, rated, after);
    PreviousKnown(previous, c);
    PreviousKnown(next, c);
    var before, amounts := PreviousAmounts(previous, c).value, PreviousAmounts(next, c).value;
    var targets := Targets(rated, before, t.balance);
    var consumed := CreditTargets.Consumed(rated, before, t.balance);
    forall k | k in rated.Keys + before.Keys + amounts.Keys
      ensures (k in amounts ==> k in targets) && (k in before ==> k in amounts)
      ensures k in targets ==> At(amounts, k) == At(consumed, k)
    {
      ReadBack(t, p, c, previous, result, rated, after, next, k);
      ConsumedAt(rated, before, t.balance, k);
    }
    TargetsByValue(rated, amounts, consumed, after.balance);
    Fixpoint(rated, before, t.balance);
    RatingUnique(again, result, c.services.Keys, rated, targets);
  }

  lemma RatedForWriting(t: State, p: Portfolio, c: Context, previous: seq<PreviousAllocation>,
                        result: seq<RatedService>, rated: Amounts, after: State)
    requires Writing(t, p, c, previous, result, rated, after)
    ensures RatedFor(t, p.month, c, previous, result, rated)
  {
    hide Coherent, RatedFor, WellRated, ApplyAll, WorkOrder;
  }

  lemma ConsumedAt(rated: Amounts, previous: Amounts, balance: int, k: Key)
    ensures var targets := Targets(rated, previous, balance);
      k in targets ==> At(CreditTargets.Consumed(rated, previous, balance), k) == targets[k] * MICROCREDITS_PER_CREDIT
  {
    hide Targets;
  }

  // ---- Settling again ------------------------------------------------------------------------------------

  /** An applied capture has been rated and written. */
  lemma FirstWrote(s: State, p: Portfolio, env: Environment, after: State)
    returns (previous: seq<PreviousAllocation>, result: seq<RatedService>)
    requires Inv(s) && Settles(s, p, env, after, Ok(Applied))
    ensures Wrote(s, p, env, previous, result, after)
  {
    hide Inv, ListsPrevious, IsRating, RatingContext, Prepare, StartsInDollars, ReplayMatches, ApplyAll, WorkOrder;
    if p.cursor in s.snapshots {
      RedeliveryWritesNothing(s, p, env, after, Ok(Applied));
    }
    var c := RatingContext(s, p, env);
    var lists, rating :|
      ListsPrevious(lists, s, p.month) && IsRating(rating, p.lines, lists, s.balance, c)
      && Writes(s, p, c, rating, after, Ok(Applied));
    previous, result := lists, rating.value;
    assert WritePrepared(Prepare(s, p, c), p, c, result) == Ok((after, Applied));
    FreshIsNewest(s, p, c);
  }

  /** Whatever the second rating reads, it accepts it and lists what the first one listed. */
  lemma RatedAgain(s: State, p: Portfolio, env: Environment, previous: seq<PreviousAllocation>, result: seq<RatedService>,
                   after: State, next: seq<PreviousAllocation>, rating: Result<seq<RatedService>>)
    requires Wrote(s, p, env, previous, result, after) && ListsPrevious(next, after, p.month)
    requires Products(p.lines) <= env.catalog.Keys
    requires PreviousAmounts(next, RatingContext(s, p, env)).Ok?
    requires IsRating(rating, p.lines, next, after.balance, RatingContext(s, p, env))
    ensures rating == Ok(result)
  {
    hide Wrote, Writing, ListsPrevious, RatingContext, BaseCosts, PreviousAmounts, Ratable, RatedAmounts, Describes, Targets;
    var c := RatingContext(s, p, env);
    WroteIsWriting(s, p, env, previous, result, after);
    RatedAlike(Prepare(s, p, c), p, c, previous, result, AmountsFor(p, c), after, next, rating.value);
  }

  /** The rating of the first capture, written for the second one, moves nothing. */
  lemma WrittenAgain(s: State, p: Portfolio, env: Environment, previous: seq<PreviousAllocation>, result: seq<RatedService>,
                     after: State, q: Portfolio)
    requires Wrote(s, p, env, previous, result, after) && q.month == p.month
    requires var c := RatingContext(s, p, env);
      Inv(after) && q.cursor !in after.snapshots && !IsStale(after, q) && KeepsTariffs(after, p.month, c)
    requires Write(after, q, RatingContext(s, p, env), result).Ok?
    ensures var written := Write(after, q, RatingContext(s, p, env), result).value;
      written.1 == Applied
      && written.0 == after.(snapshots := after.snapshots[q.cursor := SnapshotOf(q)], corrections := written.0.corrections)
  {
    hide Inv, Writing, KeepsTariffs, RatingContext, Prepare, Stands, ApplyAll, WorkOrder, StartsInDollars, IsRating,
      ListsPrevious, IsStale, ReplayMatches, ReplayedServices, BaseCosts, Ratable, RatedAmounts;
    var c := RatingContext(s, p, env);
    WroteIsWriting(s, p, env, previous, result, after);
    WritingStands(Prepare(s, p, c), p, c, previous, result, AmountsFor(p, c), after);
    StartsNothing(c, after, q);
    FreshIsNewest(after, q, c);
    var t := Prepare(after, q, c);
    forall r | r in result ensures Stands(t, q.month, r) {
      StillStands(after, t, q.month, r);
    }
    var work := WorkOrder(t, q.month, result);
    assert ApplyAll(t, q, work).Ok?;
    WorkOrderIs(t, q.month, result);
    NothingMoves(t, q, work);
  }

  /**
   * The same usage under a new capture is accepted and moves nothing: the balance, the entries,
   * the allocation rows and all totals stay, whatever the catalogue says by then. Only the capture
   * and its corrections, which change nothing, are recorded.
   */
  lemma SettlingAgain(s: State, p: Portfolio, env: Environment, after: State, q: Portfolio, later: Environment,
                      last: State, r: Result<Outcome>)
    requires Inv(s) && Settles(s, p, env, after, Ok(Applied))
    requires q.month == p.month && q.lines == p.lines && q.cursor !in after.snapshots && !IsStale(after, q)
    requires Products(q.lines) <= later.catalog.Keys && Products(q.lines) <= later.active && later.users == env.users
    requires Settles(after, q, later, last, r)
    ensures r == Ok(Applied)
    ensures last == after.(snapshots := after.snapshots[q.cursor := SnapshotOf(q)], corrections := last.corrections)
  {
    hide Inv, Wrote, KeepsTariffs, IsRating, ListsPrevious, RatingContext, Write, IsStale, PreviousAmounts;
    var previous, result := FirstWrote(s, p, env, after);
    var c := RatingContext(s, p, env);
    SettlesKeeps(s, p, env, after, Ok(Applied));
    WroteTariffs(s, p, env, previous, result, after);
    ContextCovers(s, p, env);
    SameContext(c, p.month, after, q, later);
    var next, rating :|
      ListsPrevious(next, after, q.month) && IsRating(rating, q.lines, next, after.balance, c)
      && Writes(after, q, c, rating, last, r);
    PreviousAccepted(after, q, later, next);
    RatedAgain(s, p, env, previous, result, after, next, rating);
    FreshWrites(after, q, later, next, rating);
    StartsNothing(c, after, q);
    WrittenAgain(s, p, env, previous, result, after, q);
  }

  lemma WroteTariffs(s: State, p: Portfolio, env: Environment, previous: seq<PreviousAllocation>,
                     result: seq<RatedService>, after: State)
    requires Wrote(s, p, env, previous, result, after)
    ensures KeepsTariffs(after, p.month, RatingContext(s, p, env))
  {
    hide Inv, ListsPrevious, IsRating, RatingContext, Prepare, StartsInDollars, ApplyAll, WorkOrder, KeepsTariffs;
    var t := Prepare(s, p, RatingContext(s, p, env));
    SettlementsStay(t, p, WorkOrder(t, p.month, result));
    TariffsKept(s, p, env, after);
  }
}
