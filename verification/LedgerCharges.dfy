/** Why a rated portfolio can always be written, and never overdraws the account. */
module LedgerCharges {
  import opened Prelude
  import opened Buckets
  import opened Sums
  import opened CreditTargets
  import opened CreditRating
  import opened Ledger
  import opened LedgerRows
  import opened LedgerSettlement
  import CreditAllocation

  // ---- Sums by service ------------------------------------------------------------------------

  ghost function OfService(m: map<Key, int>, id: ServiceId): map<Key, int>
  {
    map k | k in m && k.service == id :: m[k]
  }

  ghost function ServiceTotals(m: map<Key, int>, rated: seq<RatedService>): int
  {
    if rated == [] then 0
    else ServiceTotals(m, rated[..|rated| - 1]) + Sum(OfService(m, rated[|rated| - 1].service))
  }

  lemma {:induction false} SameTotals(m: map<Key, int>, n: map<Key, int>, rated: seq<RatedService>)
    requires forall r :: r in rated ==> OfService(m, r.service) == OfService(n, r.service)
    ensures ServiceTotals(m, rated) == ServiceTotals(n, rated)
  {
    if rated != [] {
      assert forall r :: r in rated[..|rated| - 1] ==> r in rated;
      SameTotals(m, n, rated[..|rated| - 1]);
    }
  }

  ghost function WithoutService(m: map<Key, int>, id: ServiceId): map<Key, int>
  {
    map k | k in m && k.service != id :: m[k]
  }

  lemma ServiceAside(m: map<Key, int>, id: ServiceId)
    ensures Sum(m) == Sum(OfService(m, id)) + Sum(WithoutService(m, id))
  {
    SumSplit(m, OfService(m, id), WithoutService(m, id));
  }

  lemma OtherService(m: map<Key, int>, id: ServiceId, other: ServiceId)
    requires other != id
    ensures OfService(m, other) == OfService(WithoutService(m, id), other)
  {}

  /** The services' sums add up to the whole. */
  lemma {:induction false} ServicesAddUp(m: map<Key, int>, rated: seq<RatedService>)
    requires DistinctServices(rated) && forall k :: k in m ==> k.service in ServicesOf(rated)
    ensures ServiceTotals(m, rated) == Sum(m)
    decreases |rated|
  {
    hide OfService;
    if rated == [] {
      assert m == map[];
    } else {
      var init, last := rated[..|rated| - 1], rated[|rated| - 1];
      assert forall r :: r in rated <==> r in init || r == last;
      var rest := WithoutService(m, last.service);
      ServiceAside(m, last.service);
      assert forall k :: k in rest ==> k.service in ServicesOf(rated) && k.service != last.service;
      ServicesAddUp(rest, init);
      LastIsNew(rated);
      forall r | r in init ensures OfService(m, r.service) == OfService(rest, r.service) {
        assert r.service in ServicesOf(init);
        OtherService(m, last.service, r.service);
      }
      SameTotals(m, rest, init);
    }
  }

  // ---- What a service is charged ----------------------------------------------------------------

  /** A rating that has been accepted: every service once, each as the targets say. */
  lemma DescribedWell(result: seq<RatedService>, services: set<ServiceId>, rated: Amounts, targets: map<Key, nat>)
    requires Describes(result, services, rated, targets)
    ensures DistinctServices(result) && ServicesOf(result) == services
    ensures forall r :: r in result ==> WellRated(r)
  {
    hide ServiceRated, WellRated;
    forall i, j | 0 <= i < j < |result| ensures result[i].service != result[j].service {
      assert ServiceLess(result[i], result[j]);
    }
    forall r | r in result ensures WellRated(r) {
      RatedWell(r, rated, targets);
    }
  }

  lemma RatedWell(r: RatedService, rated: Amounts, targets: map<Key, nat>)
    requires ServiceRated(r, rated, targets)
    ensures WellRated(r)
  {
    hide CreditAllocation.SumOver, At;
    forall i, j | 0 <= i < j < |r.allocations| ensures r.allocations[i].user != r.allocations[j].user {
      assert AllocationLess(r.allocations[i], r.allocations[j]);
    }
    forall a | a in r.allocations ensures a.consumed % 10 == 0 {
      assert a.consumed == targets[Key(r.service, a.user)] * MICROCREDITS_PER_CREDIT;
    }
  }

  ghost function InMicrocredits(targets: map<Key, nat>): (consumed: map<Key, nat>)
    ensures consumed.Keys == targets.Keys
  {
    map k | k in targets :: targets[k] * MICROCREDITS_PER_CREDIT
  }

  lemma ConsumedIsSum(r: RatedService, rated: Amounts, targets: map<Key, nat>)
    requires ServiceRated(r, rated, targets)
    ensures r.consumed == Sum(OfService(InMicrocredits(targets), r.service))
  {
    hide At;
    RatedWell(r, rated, targets);
    var m := OfService(InMicrocredits(targets), r.service);
    var key := (a: Allocation) => Key(r.service, a.user);
    forall i | 0 <= i < |r.allocations|
      ensures key(r.allocations[i]) in m && m[key(r.allocations[i])] == ConsumedOf(r.allocations[i])
    {
      assert r.allocations[i] in r.allocations;
    }
    forall k | k in m ensures exists i :: 0 <= i < |r.allocations| && key(r.allocations[i]) == k {
      var a :| a in r.allocations && a.user == k.user;
      var i :| 0 <= i < |r.allocations| && r.allocations[i] == a;
      assert key(r.allocations[i]) == k;
    }
    CreditAllocation.SumOverIs(r.allocations, key, ConsumedOf, m);
  }

  /** The month's previous allocations, as a map, are the latest figures of its settlements. */
  lemma PreviousIsLatest(s: State, month: Month, previous: seq<PreviousAllocation>, c: Context)
    requires ListsPrevious(previous, s, month) && PreviousAmounts(previous, c).Ok?
    ensures var amounts := PreviousAmounts(previous, c).value;
      && (forall k :: k in amounts ==>
            var x := Subject(SettlementKey(month, k.service), k.user);
            x in Latest(s.rows) && Latest(s.rows)[x].consumed == amounts[k])
      && (forall x :: x in Latest(s.rows) && x.settlement.month == month ==> Key(x.settlement.service, x.user) in amounts)
  {
    hide Latest;
    PreviousIsLookup(previous, c);
  }

  lemma SettledIsSum(s: State, month: Month, previous: seq<PreviousAllocation>, c: Context, id: ServiceId)
    requires ListsPrevious(previous, s, month) && PreviousAmounts(previous, c).Ok?
    requires RowsAgree(s.rows, s.settlements) && SettlementKey(month, id) in s.settlements
    ensures s.settlements[SettlementKey(month, id)].total.consumed
         == Sum(OfService(PreviousAmounts(previous, c).value, id))
  {
    hide Latest, ListsPrevious;
    PreviousIsLatest(s, month, previous, c);
    var key := SettlementKey(month, id);
    var figures := Figures(Latest(s.rows), key, Consumed);
    var m := OfService(PreviousAmounts(previous, c).value, id);
    var rename := (x: Subject) => Key(id, x.user);
    forall x | x in figures ensures rename(x) in m && m[rename(x)] == figures[x] {
      assert x == Subject(SettlementKey(month, id), x.user);
    }
    forall k | k in m ensures exists x :: x in figures && rename(x) == k {
      assert rename(Subject(key, k.user)) == k;
    }
    SumRekey(figures, m, rename);
    assert Pick(s.settlements[key].total, Consumed) == Sum(figures);
  }

  /** The services listed so far owe exactly the change in their buckets. */
  lemma {:induction false} DeltasAre(s: State, month: Month, previous: seq<PreviousAllocation>, c: Context,
                                     result: seq<RatedService>, rated: Amounts, targets: map<Key, nat>)
    requires ListsPrevious(previous, s, month) && PreviousAmounts(previous, c).Ok?
    requires RowsAgree(s.rows, s.settlements)
    requires forall r :: r in result ==> SettlementKey(month, r.service) in s.settlements && ServiceRated(r, rated, targets)
    ensures DeltaSum(s, month, result)
         == ServiceTotals(InMicrocredits(targets), result) - ServiceTotals(PreviousAmounts(previous, c).value, result)
  {
    hide ListsPrevious, RowsAgree, ServiceRated, OfService, InMicrocredits, PreviousAmounts;
    if result != [] {
      var init, last := result[..|result| - 1], result[|result| - 1];
      assert forall r :: r in result <==> r in init || r == last;
      DeltasAre(s, month, previous, c, init, rated, targets);
      ConsumedIsSum(last, rated, targets);
      SettledIsSum(s, month, previous, c, last.service);
    }
  }

  /** Without a request no bucket, and so no service, consumes more than before. */
  lemma NoRequestNoCharge(rated: Amounts, previous: Amounts, balance: int, id: ServiceId)
    requires Requested(rated, previous, balance) == 0
    ensures Sum(OfService(InMicrocredits(Targets(rated, previous, balance)), id)) <= Sum(OfService(previous, id))
  {
    var consumed := OfService(InMicrocredits(Targets(rated, previous, balance)), id);
    var before: map<Key, int> := map k | k in consumed :: At(previous, k);
    forall k | k in consumed ensures consumed[k] <= before[k] {
      KeptBelow(rated, previous, balance, k);
    }
    SumMonotone(consumed, before);
    SumExtend(OfService(previous, id), before);
  }

  lemma KeptBelow(rated: Amounts, previous: Amounts, balance: int, k: Key)
    requires Requested(rated, previous, balance) == 0 && k in rated.Keys + previous.Keys
    ensures Targets(rated, previous, balance)[k] * MICROCREDITS_PER_CREDIT <= At(previous, k)
  {
    hide Room;
  }

  /** The context and the rated portfolio fit the account they were computed for. */
  ghost predicate RatedFor(s: State, month: Month, c: Context, previous: seq<PreviousAllocation>,
                           result: seq<RatedService>, rated: Amounts)
  {
    && ListsPrevious(previous, s, month) && PreviousAmounts(previous, c).Ok?
    && (forall id :: id in c.services ==> SettlementKey(month, id) in s.settlements)
    && (forall k :: k in rated ==> k.service in c.services)
    && Describes(result, c.services.Keys, rated, Targets(rated, PreviousAmounts(previous, c).value, s.balance))
  }

  /** What all services together are charged leaves the balance the rating foresaw. */
  lemma TotalCharge(s: State, month: Month, c: Context, previous: seq<PreviousAllocation>,
                    result: seq<RatedService>, rated: Amounts)
    requires RatedFor(s, month, c, previous, result, rated) && RowsAgree(s.rows, s.settlements)
    ensures s.balance - DeltaSum(s, month, result)
         == BalanceAfter(rated, PreviousAmounts(previous, c).value, s.balance)
    ensures s.balance - DeltaSum(s, month, result) >= Min(s.balance, 0)
  {
    hide ListsPrevious, RowsAgree, ServiceRated, Targets, PreviousAmounts, DeltaSum;
    var before := PreviousAmounts(previous, c).value;
    var targets := Targets(rated, before, s.balance);
    DescribedWell(result, c.services.Keys, rated, targets);
    PreviousKnown(previous, c);
    DeltasAre(s, month, previous, c, result, rated, targets);
    ServicesAddUp(InMicrocredits(targets), result);
    ServicesAddUp(before, result);
    assert InMicrocredits(targets) == CreditTargets.Consumed(rated, before, s.balance);
    NoOverdraft(rated, before, s.balance);
  }

  /** A service is charged only when the account can pay for everything. */
  lemma ChargeCovered(s: State, month: Month, c: Context, previous: seq<PreviousAllocation>,
                      result: seq<RatedService>, rated: Amounts, r: RatedService)
    requires RatedFor(s, month, c, previous, result, rated) && RowsAgree(s.rows, s.settlements)
    requires r in result && DeltaOf(s, month, r) > 0
    ensures s.balance - DeltaSum(s, month, result) >= 0
  {
    hide ListsPrevious, RowsAgree, ServiceRated, Targets, PreviousAmounts, DeltaSum, OfService, InMicrocredits;
    var before := PreviousAmounts(previous, c).value;
    ConsumedIsSum(r, rated, Targets(rated, before, s.balance));
    SettledIsSum(s, month, previous, c, r.service);
    if Requested(rated, before, s.balance) == 0 {
      NoRequestNoCharge(rated, before, s.balance, r.service);
    }
    TotalCharge(s, month, c, previous, result, rated);
    NoOverdraft(rated, before, s.balance);
  }
}
