/**
 * What a rating of credits says, in figures: which usage is accepted, what each user's usage is
 * worth and consumes, and what becomes of the balance.
 */
module RatingMeaning {
  import opened Prelude
  import opened Buckets
  import opened Sums
  import opened CreditTargets
  import opened CreditRating
  import opened LedgerCharges
  import CreditAllocation
  import Decimals
  import MeteringRating
  import Money
  import Sorting

  // ---- What is rated --------------------------------------------------------------------------

  /** The line names a known service, a known user if any, and a cost in dollars if any. */
  predicate Accepted(line: UsageLine, c: Context)
  {
    && line.service in c.services && (line.user.Some? ==> line.user.value in c.users)
    && match line.cost
       case None => line.currency.None?
       case Some(cost) => line.currency == Some("USD") && Decimals.IsDecimal(cost)
  }

  /** A previous allocation is of a known service, not negative and no finer than the ledger's precision. */
  predicate AcceptedBefore(a: PreviousAllocation, c: Context)
  {
    a.service in c.services && a.consumed >= 0 && a.consumed % 10 == 0
  }

  /** What a user's usage of a service costs. */
  ghost function Spending(lines: seq<UsageLine>, service: ServiceId, user: UserId): real
  {
    if lines == [] then 0.0 else
    var last := lines[|lines| - 1];
    Spending(lines[..|lines| - 1], service, user)
    + (if last.service == service && last.user == user && last.cost.Some? && Decimals.IsDecimal(last.cost.value)
       then Money.Amount(last.cost.value) else 0.0)
  }

  /** What the user has consumed before. */
  function Before(previous: seq<PreviousAllocation>, service: ServiceId, user: UserId): int
  {
    if previous == [] then 0 else
    var last := previous[|previous| - 1];
    if last.service == service && last.user == user then last.consumed
    else Before(previous[..|previous| - 1], service, user)
  }

  lemma LineAccepted(line: UsageLine, c: Context, k: Key)
    ensures Usable(line, c) <==> Accepted(line, c)
    ensures Accepted(line, c) ==>
      && (Contributes(line, c, k) <==> line.service == k.service && line.user == k.user && line.cost.Some?)
      && (line.cost.Some? ==> LineCost(line, c).value == line.cost)
  {
    hide Decimals.IsDecimal;
  }

  lemma {:induction false} SpendingIs(lines: seq<UsageLine>, c: Context, k: Key)
    requires forall line :: line in lines ==> Accepted(line, c)
    ensures CostSum(lines, c, k) == Spending(lines, k.service, k.user)
  {
    hide Money.Amount, Accepted, Contributes, Decimals.IsDecimal, LineCost;
    if lines != [] {
      var last := lines[|lines| - 1];
      assert forall line :: line in lines[..|lines| - 1] ==> line in lines;
      SpendingIs(lines[..|lines| - 1], c, k);
      assert last in lines;
      LineAccepted(last, c, k);
      LineShares(last, c, k);
    }
  }

  lemma LineShares(line: UsageLine, c: Context, k: Key)
    requires Accepted(line, c)
    ensures Contribution(line, c, k)
         == if line.service == k.service && line.user == k.user && line.cost.Some? && Decimals.IsDecimal(line.cost.value)
            then Money.Amount(line.cost.value) else 0.0
  {
    hide Money.Amount, Decimals.IsDecimal;
    LineAccepted(line, c, k);
  }

  lemma {:induction false} BeforeIs(previous: seq<PreviousAllocation>, amounts: Amounts, k: Key)
    requires LooksUp(amounts, previous) && OncePerBucket(previous)
    ensures At(amounts, k) == Before(previous, k.service, k.user)
  {
    if k in amounts {
      var a :| a in previous && Key(a.service, a.user) == k;
      Listed(previous, a);
    } else {
      NotListed(previous, k);
    }
  }

  lemma {:induction false} Listed(previous: seq<PreviousAllocation>, a: PreviousAllocation)
    requires OncePerBucket(previous) && a in previous
    ensures Before(previous, a.service, a.user) == a.consumed
  {
    var init, last := previous[..|previous| - 1], previous[|previous| - 1];
    assert previous == init + [last];
    if a != last {
      var i :| 0 <= i < |previous| && previous[i] == a;
      Listed(init, a);
    }
  }

  lemma {:induction false} NotListed(previous: seq<PreviousAllocation>, k: Key)
    requires forall a :: a in previous ==> Key(a.service, a.user) != k
    ensures Before(previous, k.service, k.user) == 0
  {
    if previous != [] {
      assert forall a :: a in previous[..|previous| - 1] ==> a in previous;
      assert previous[|previous| - 1] in previous;
      NotListed(previous[..|previous| - 1], k);
    }
  }

  // ---- What a rating says of a service --------------------------------------------------------------

  /**
   * A user's figures: the usage is rated at its worth; whole credits are consumed, none beyond what
   * is rated and no fewer than before as far as that is still covered; and what remains to be paid
   * is what the credits do not cover, a credit of a million microcredits being worth 100000.
   */
  ghost predicate RightFigures(a: Allocation, cost: real, before: int, tariff: Tariff)
  {
    && Worth(a.rated, cost, tariff)
    && a.consumed % 1_000_000 == 0 && a.consumed / 1_000_000 <= a.rated / 100_000
    && (a.consumed / 1_000_000 >= before / 1_000_000 || a.consumed / 1_000_000 == a.rated / 100_000)
    && a.remaining == a.rated - a.consumed / 1_000_000 * 100_000
  }

  /** Users by name, and what is attributed to nobody last. */
  predicate InOrderOfUsers(allocations: seq<Allocation>)
  {
    forall i, j :: 0 <= i < j < |allocations| ==>
      allocations[i].user.Some?
      && (allocations[j].user.None? || allocations[i].user.value < allocations[j].user.value)
  }

  /** The user has usage with a cost, or has had credits allocated before. */
  ghost predicate Concerned(lines: seq<UsageLine>, previous: seq<PreviousAllocation>, service: ServiceId, user: UserId)
  {
    || (exists line :: line in lines && line.service == service && line.user == user && line.cost.Some?)
    || exists a :: a in previous && a.service == service && a.user == user
  }

  ghost predicate Lists(allocations: seq<Allocation>, user: UserId)
  {
    exists a :: a in allocations && a.user == user
  }

  /** Everyone concerned is listed once with the right figures, and the service's are their sums. */
  ghost predicate RightService(r: RatedService, lines: seq<UsageLine>, previous: seq<PreviousAllocation>, tariff: Tariff)
  {
    && InOrderOfUsers(r.allocations)
    && (forall user :: Lists(r.allocations, user) <==> Concerned(lines, previous, r.service, user))
    && (forall a :: a in r.allocations ==>
          RightFigures(a, Spending(lines, r.service, a.user), Before(previous, r.service, a.user), tariff))
    && r.rated == CreditAllocation.SumOver(r.allocations, (a: Allocation) => a.rated as int)
    && r.consumed == CreditAllocation.SumOver(r.allocations, (a: Allocation) => a.consumed as int)
    && r.remaining == CreditAllocation.SumOver(r.allocations, (a: Allocation) => a.remaining)
  }

  /** What is rated at all has a tariff in dollars, and an amount that is not negative and fits 64 bits. */
  ghost predicate Chargeable(cost: real, tariff: Tariff)
  {
    var doubled := 2.0 * (cost * (10_000 + tariff.markupBps) as real / 10_000.0) * 100_000_000.0;
    && tariff.currency == "USD"
    && (tariff.mode.Free?
        || (0 <= 10_000 + tariff.markupBps <= 9007199254740991
            && 0.0 <= doubled < (2 * 9223372036854775807 + 1) as real))
  }

  /** The usage of everyone who has some can be charged. */
  ghost predicate AllChargeable(lines: seq<UsageLine>, c: Context)
  {
    forall line :: line in lines && line.cost.Some? ==>
      line.service in c.services && Chargeable(Spending(lines, line.service, line.user), c.services[line.service])
  }

  lemma ChargeableIs(cost: string, tariff: Tariff)
    requires Decimals.IsDecimal(cost)
    ensures RatedMicroMinor(cost, tariff).Ok? <==> Chargeable(Money.Amount(cost), tariff)
    ensures Chargeable(Money.Amount(cost), tariff) ==>
      Worth(RatedMicroMinor(cost, tariff).value, Money.Amount(cost), tariff)
  {
    hide RatedMicroMinor, Money.Amount, Decimals.IsDecimal;
    RatedValue(cost, tariff);
    var doubled := 2.0 * (Money.Amount(cost) * (10_000 + tariff.markupBps) as real / 10_000.0) * 100_000_000.0;
    assert doubled < 0.0 <==> !(0.0 <= doubled);
  }

  // ---- Acceptance -------------------------------------------------------------------------------------

  /**
   * A portfolio is rated exactly when every line and every previous allocation is accepted and the
   * usage of everyone who has some can be charged.
   */
  lemma WhenRated(r: Result<seq<RatedService>>, lines: seq<UsageLine>, previous: seq<PreviousAllocation>, balance: int,
                  c: Context)
    requires IsRating(r, lines, previous, balance, c) && OncePerBucket(previous)
    ensures r.Ok?
      <==> (forall line :: line in lines ==> Accepted(line, c)) && (forall a :: a in previous ==> AcceptedBefore(a, c))
           && AllChargeable(lines, c)
  {
    hide BaseCosts, PreviousAmounts, Describes, Targets, Money.Amount, RatedAmounts, Usable, Accepted, Chargeable, Ratable;
    CostsAreSums(lines, c);
    PreviousIsLookup(previous, c);
    forall line | line in lines ensures Usable(line, c) <==> Accepted(line, c) {
      LineAccepted(line, c, LineKey(line));
    }
    if BaseCosts(lines, c).Ok? {
      CostsKnown(lines, c);
      CostsRatable(BaseCosts(lines, c).value, lines, c);
    }
  }

  lemma CostsRatable(costs: Costs, lines: seq<UsageLine>, c: Context)
    requires Tallies(costs, lines, c) && Known(costs.Keys, c) && forall line :: line in lines ==> Accepted(line, c)
    ensures Ratable(costs, c) <==> AllChargeable(lines, c)
  {
    hide Money.Amount, Chargeable, Decimals.IsDecimal, Money.Canonical, RatedMicroMinor, Contributes;
    forall k | k in costs
      ensures RatedBucket(costs, k, c).Ok? <==> Chargeable(Spending(lines, k.service, k.user), c.services[k.service])
    {
      BucketWorth(costs, lines, c, k);
    }
    forall line | line in lines && line.cost.Some? ensures LineKey(line) in costs {
      LineAccepted(line, c, LineKey(line));
    }
    forall k | k in costs ensures exists line :: line in lines && line.cost.Some? && LineKey(line) == k {
      var line :| line in lines && Contributes(line, c, k);
      LineAccepted(line, c, k);
    }
  }

  lemma BucketWorth(costs: Costs, lines: seq<UsageLine>, c: Context, k: Key)
    requires Tallies(costs, lines, c) && Known(costs.Keys, c) && k in costs
    requires forall line :: line in lines ==> Accepted(line, c)
    ensures RatedBucket(costs, k, c).Ok? <==> Chargeable(Spending(lines, k.service, k.user), c.services[k.service])
    ensures RatedBucket(costs, k, c).Ok? ==>
      Worth(RatedBucket(costs, k, c).value, Spending(lines, k.service, k.user), c.services[k.service])
  {
    hide Money.Amount, Chargeable, Decimals.IsDecimal, RatedMicroMinor, Contributes, Accepted, Worth, Spending;
    SpendingIs(lines, c, k);
    ChargeableIs(costs[k], c.services[k.service]);
  }

  // ---- The whole rating -------------------------------------------------------------------------------

  /** What is known once a portfolio has been rated: the costs, the previous amounts, and the targets. */
  lemma RatedFrom(result: seq<RatedService>, lines: seq<UsageLine>, previous: seq<PreviousAllocation>, balance: int,
                  c: Context) returns (rated: Amounts, amounts: Amounts)
    requires IsRating(Ok(result), lines, previous, balance, c) && OncePerBucket(previous)
    ensures Describes(result, c.services.Keys, rated, Targets(rated, amounts, balance))
    ensures LooksUp(amounts, previous) && Known(rated.Keys, c) && Known(amounts.Keys, c)
    ensures forall k :: k in rated <==> exists line :: line in lines && line.cost.Some? && LineKey(line) == k
    ensures forall k: Key :: k.service in c.services ==>
      Worth(At(rated, k), Spending(lines, k.service, k.user), c.services[k.service])
  {
    hide BaseCosts, PreviousAmounts, Describes, Targets, Money.Amount, RatedAmounts, Usable, Accepted, Chargeable, Ratable,
      Worth, Tallies, LooksUp, Spending;
    CostsAreSums(lines, c);
    PreviousIsLookup(previous, c);
    PreviousKnown(previous, c);
    CostsKnown(lines, c);
    var costs := BaseCosts(lines, c).value;
    rated, amounts := RatedAmounts(costs, c), PreviousAmounts(previous, c).value;
    forall line | line in lines ensures Accepted(line, c) {
      LineAccepted(line, c, LineKey(line));
    }
    CostsNamed(costs, lines, c);
    forall k: Key | k.service in c.services
      ensures Worth(At(rated, k), Spending(lines, k.service, k.user), c.services[k.service])
    {
      AmountWorth(costs, lines, c, k);
    }
  }

  lemma CostsNamed(costs: Costs, lines: seq<UsageLine>, c: Context)
    requires Tallies(costs, lines, c) && forall line :: line in lines ==> Accepted(line, c)
    ensures forall k :: k in costs <==> exists line :: line in lines && line.cost.Some? && LineKey(line) == k
  {
    hide Money.Amount, Money.Canonical, Contributes, Accepted, CostSum;
    forall k ensures k in costs <==> exists line :: line in lines && line.cost.Some? && LineKey(line) == k {
      if k in costs {
        var line :| line in lines && Contributes(line, c, k);
        LineAccepted(line, c, k);
      }
      if line :| line in lines && line.cost.Some? && LineKey(line) == k {
        LineAccepted(line, c, k);
      }
    }
  }

  lemma AmountWorth(costs: Costs, lines: seq<UsageLine>, c: Context, k: Key)
    requires Tallies(costs, lines, c) && Known(costs.Keys, c) && Ratable(costs, c) && k.service in c.services
    requires forall line :: line in lines ==> Accepted(line, c)
    ensures Worth(At(RatedAmounts(costs, c), k), Spending(lines, k.service, k.user), c.services[k.service])
  {
    hide Money.Amount, Money.Canonical, Contributes, Accepted, CostSum, RatedMicroMinor, Spending, Worth, Chargeable;
    if k in costs {
      BucketWorth(costs, lines, c, k);
    } else {
      SpendingIs(lines, c, k);
      NothingWorth(c.services[k.service]);
    }
  }

  lemma NothingWorth(tariff: Tariff)
    ensures Worth(0, 0.0, tariff)
  {}

  /**
   * The rating lists every service once, in order, and for each everyone who has usage or has had
   * credits allocated, with the right figures.
   */
  lemma RatingAccounts(result: seq<RatedService>, lines: seq<UsageLine>, previous: seq<PreviousAllocation>, balance: int,
                       c: Context)
    requires IsRating(Ok(result), lines, previous, balance, c) && OncePerBucket(previous)
    ensures forall i, j :: 0 <= i < j < |result| ==> result[i].service < result[j].service
    ensures forall id :: id in c.services <==> exists r :: r in result && r.service == id
    ensures forall r :: r in result ==>
      r.service in c.services && RightService(r, lines, previous, c.services[r.service])
  {
    hide IsRating, Targets, Worth, Spending, RightService, LooksUp, ServiceRated, OncePerBucket;
    var rated, amounts := RatedFrom(result, lines, previous, balance, c);
    forall r | r in result ensures r.service in c.services {
      assert r.service in set x | x in result :: x.service;
    }
    forall id | id in c.services ensures exists r :: r in result && r.service == id {
      assert id in set x | x in result :: x.service;
    }
    forall r | r in result ensures RightService(r, lines, previous, c.services[r.service]) {
      ServiceRight(r, lines, previous, balance, c, rated, amounts);
    }
    forall i, j | 0 <= i < j < |result| ensures result[i].service < result[j].service {
      assert ServiceLess(result[i], result[j]);
    }
  }

  lemma ServiceRight(r: RatedService, lines: seq<UsageLine>, previous: seq<PreviousAllocation>, balance: int, c: Context,
                     rated: Amounts, amounts: Amounts)
    requires r.service in c.services && ServiceRated(r, rated, Targets(rated, amounts, balance))
    requires LooksUp(amounts, previous) && OncePerBucket(previous)
    requires forall k :: k in rated <==> exists line :: line in lines && line.cost.Some? && LineKey(line) == k
    requires forall k: Key :: k.service in c.services ==>
      Worth(At(rated, k), Spending(lines, k.service, k.user), c.services[k.service])
    ensures RightService(r, lines, previous, c.services[r.service])
  {
    hide Worth, Spending, Targets, At, RightFigures, InOrderOfUsers, Concerned, OncePerBucket, CreditAllocation.SumOver, Lists;
    UsersInOrder(r.allocations);
    forall user ensures Lists(r.allocations, user) <==> Concerned(lines, previous, r.service, user) {
      ListedConcerned(r, lines, previous, rated, amounts, balance, user);
    }
    forall a | a in r.allocations
      ensures RightFigures(a, Spending(lines, r.service, a.user), Before(previous, r.service, a.user),
        c.services[r.service])
    {
      var k := Key(r.service, a.user);
      BeforeIs(previous, amounts, k);
      TargetRight(a, rated, amounts, balance, k, Spending(lines, k.service, k.user), c.services[k.service]);
    }
    SameSum(r.allocations, RatedOf, (a: Allocation) => a.rated as int);
    SameSum(r.allocations, ConsumedOf, (a: Allocation) => a.consumed as int);
    SameSum(r.allocations, RemainingOf, (a: Allocation) => a.remaining);
  }

  lemma {:induction false} SameSum(s: seq<Allocation>, f: Allocation -> int, g: Allocation -> int)
    requires forall a :: f(a) == g(a)
    ensures CreditAllocation.SumOver(s, f) == CreditAllocation.SumOver(s, g)
  {
    if s != [] { SameSum(s[..|s| - 1], f, g); }
  }

  lemma UsersInOrder(allocations: seq<Allocation>)
    requires Sorting.Ascending(allocations, AllocationLess)
    ensures InOrderOfUsers(allocations)
  {
    forall i, j | 0 <= i < j < |allocations|
      ensures allocations[i].user.Some?
      ensures allocations[j].user.None? || allocations[i].user.value < allocations[j].user.value
    {
      assert AllocationLess(allocations[i], allocations[j]);
      KeyOrder(Key(0, allocations[i].user), Key(0, allocations[j].user));
    }
  }

  lemma ListedConcerned(r: RatedService, lines: seq<UsageLine>, previous: seq<PreviousAllocation>, rated: Amounts,
                        amounts: Amounts, balance: int, user: UserId)
    requires ServiceRated(r, rated, Targets(rated, amounts, balance)) && LooksUp(amounts, previous)
    requires forall k :: k in rated <==> exists line :: line in lines && line.cost.Some? && LineKey(line) == k
    ensures Lists(r.allocations, user) <==> Concerned(lines, previous, r.service, user)
  {
    hide Targets, At, CreditAllocation.SumOver;
    var k := Key(r.service, user);
    assert Lists(r.allocations, user) <==> k in rated.Keys + amounts.Keys;
    assert k in rated <==> exists line :: line in lines && line.service == r.service && line.user == user && line.cost.Some? by {
      if k in rated {
        var line :| line in lines && line.cost.Some? && LineKey(line) == k;
        assert line.service == r.service && line.user == user;
      }
      if line :| line in lines && line.service == r.service && line.user == user && line.cost.Some? {
        assert LineKey(line) == k;
      }
    }
    assert k in amounts <==> exists a :: a in previous && a.service == r.service && a.user == user;
  }

  lemma TargetRight(a: Allocation, rated: Amounts, amounts: Amounts, balance: int, k: Key, cost: real, tariff: Tariff)
    requires k in rated.Keys + amounts.Keys && a.rated == At(rated, k)
    requires var targets := Targets(rated, amounts, balance);
      a.consumed == targets[k] * MICROCREDITS_PER_CREDIT && a.remaining == a.rated - targets[k] * MICRO_MINOR_PER_CREDIT
    requires Worth(At(rated, k), cost, tariff)
    ensures RightFigures(a, cost, At(amounts, k), tariff)
  {
    hide Targets, Worth, At;
    TargetsBounded(rated, amounts, balance, k);
    var t := Targets(rated, amounts, balance)[k];
    assert a.consumed == t * 1_000_000 && a.consumed / 1_000_000 == t;
  }

  // ---- What becomes of the balance ---------------------------------------------------------------------

  /**
   * What the users consume beyond what they did before is taken from the balance: it never ends
   * below zero, or below where it was, and less than one whole credit of it is left unless all
   * that is rated is covered.
   */
  lemma RatingSpends(result: seq<RatedService>, lines: seq<UsageLine>, previous: seq<PreviousAllocation>, balance: int,
                     c: Context)
    requires IsRating(Ok(result), lines, previous, balance, c) && OncePerBucket(previous)
    ensures var left := balance + CreditAllocation.SumOver(previous, (a: PreviousAllocation) => a.consumed)
        - CreditAllocation.SumOver(result, (r: RatedService) => r.consumed as int);
      && (left >= 0 || left >= balance)
      && (left < 1_000_000
          || forall r, a :: r in result && a in r.allocations ==> a.consumed / 1_000_000 == a.rated / 100_000)
  {
    hide IsRating, Worth, Spending, LooksUp, OncePerBucket, Targets, BalanceAfter, CreditAllocation.SumOver;
    var rated, amounts := RatedFrom(result, lines, previous, balance, c);
    ConsumedInAll(result, c.services.Keys, rated, amounts, balance);
    BeforeInAll(previous, amounts);
    NoOverdraft(rated, amounts, balance);
    FullUse(rated, amounts, balance);
    BalanceLeft(rated, amounts, balance);
    if forall k :: k in rated.Keys + amounts.Keys ==> Targets(rated, amounts, balance)[k] == Capacity(rated, k) {
      forall r, a | r in result && a in r.allocations ensures a.consumed / 1_000_000 == a.rated / 100_000 {
        assert ServiceRated(r, rated, Targets(rated, amounts, balance));
        AtCapacity(r, a, rated, Targets(rated, amounts, balance));
      }
    }
  }

  lemma BalanceLeft(rated: Amounts, amounts: Amounts, balance: int)
    ensures BalanceAfter(rated, amounts, balance)
         == balance + Sum(amounts) - Sum(InMicrocredits(Targets(rated, amounts, balance)))
  {
    hide Targets;
    assert InMicrocredits(Targets(rated, amounts, balance)) == CreditTargets.Consumed(rated, amounts, balance);
  }

  lemma AtCapacity(r: RatedService, a: Allocation, rated: Amounts, targets: map<Key, nat>)
    requires ServiceRated(r, rated, targets) && a in r.allocations
    requires forall k :: k in targets ==> targets[k] == Capacity(rated, k)
    ensures a.consumed / 1_000_000 == a.rated / 100_000
  {
    hide CreditAllocation.SumOver;
    var t := targets[Key(r.service, a.user)];
    assert a.consumed == t * 1_000_000;
  }

  lemma {:induction false} ServicesConsume(result: seq<RatedService>, rated: Amounts, targets: map<Key, nat>)
    requires forall r :: r in result ==> ServiceRated(r, rated, targets)
    ensures CreditAllocation.SumOver(result, (r: RatedService) => r.consumed as int)
         == ServiceTotals(InMicrocredits(targets), result)
  {
    hide ServiceRated, InMicrocredits, OfService;
    if result != [] {
      assert forall r :: r in result[..|result| - 1] ==> r in result;
      ServicesConsume(result[..|result| - 1], rated, targets);
      ConsumedIsSum(result[|result| - 1], rated, targets);
    }
  }

  lemma ConsumedInAll(result: seq<RatedService>, services: set<ServiceId>, rated: Amounts, amounts: Amounts, balance: int)
    requires var targets := Targets(rated, amounts, balance);
      Describes(result, services, rated, targets) && forall k :: k in targets ==> k.service in services
    ensures CreditAllocation.SumOver(result, (r: RatedService) => r.consumed as int)
         == Sum(InMicrocredits(Targets(rated, amounts, balance)))
  {
    hide ServiceRated, InMicrocredits, OfService, Targets, CreditAllocation.SumOver;
    var targets := Targets(rated, amounts, balance);
    DescribedWell(result, services, rated, targets);
    ServicesConsume(result, rated, targets);
    ServicesAddUp(InMicrocredits(targets), result);
  }

  lemma BeforeInAll(previous: seq<PreviousAllocation>, amounts: Amounts)
    requires LooksUp(amounts, previous) && OncePerBucket(previous)
    ensures CreditAllocation.SumOver(previous, (a: PreviousAllocation) => a.consumed) == Sum(amounts)
  {
    hide CreditAllocation.SumOver;
    var key := (a: PreviousAllocation) => Key(a.service, a.user);
    forall i | 0 <= i < |previous| ensures key(previous[i]) in amounts && amounts[key(previous[i])] == previous[i].consumed {
      assert previous[i] in previous;
    }
    forall k | k in amounts ensures exists i :: 0 <= i < |previous| && key(previous[i]) == k {
      var a :| a in previous && Key(a.service, a.user) == k;
      var i :| 0 <= i < |previous| && previous[i] == a;
      assert key(previous[i]) == k;
    }
    CreditAllocation.SumOverIs(previous, key, (a: PreviousAllocation) => a.consumed, amounts);
  }

  // ---- Why a portfolio is refused ------------------------------------------------------------------------

  /** The first line that is not accepted decides why the portfolio is refused. */
  lemma FirstLineRefused(r: Result<seq<RatedService>>, lines: seq<UsageLine>, previous: seq<PreviousAllocation>,
                         balance: int, c: Context, n: nat)
    requires IsRating(r, lines, previous, balance, c)
    requires n < |lines| && (forall i :: 0 <= i < n ==> Accepted(lines[i], c)) && !Accepted(lines[n], c)
    ensures var line := lines[n];
      r == Err(if line.service !in c.services then ServiceUnknown
               else if line.user.Some? && line.user.value !in c.users then UserInvalid
               else if line.cost.None? || line.currency != Some("USD") then CostInvalid
               else DecimalInvalid)
  {
    hide Accepted, Usable, PreviousAmounts, Describes, Targets, RatedAmounts, Ratable, AddLine, LineCost, Tallies;
    forall line | line in lines[..n] ensures Usable(line, c) {
      LineAccepted(line, c, LineKey(line));
    }
    CostsAreSums(lines[..n], c);
    assert lines[..n + 1][..n] == lines[..n];
    LineRefused(BaseCosts(lines[..n], c).value, lines[..n], lines[n], c);
    FirstFailure(lines, c, n + 1);
  }

  lemma LineRefused(costs: Costs, lines: seq<UsageLine>, line: UsageLine, c: Context)
    requires Tallies(costs, lines, c) && !Accepted(line, c)
    ensures AddLine(costs, line, c)
         == Err(if line.service !in c.services then ServiceUnknown
                else if line.user.Some? && line.user.value !in c.users then UserInvalid
                else if line.cost.None? || line.currency != Some("USD") then CostInvalid
                else DecimalInvalid)
  {
    hide Money.Amount, Money.Canonical, Decimals.IsDecimal, CostSum, Money.Add, Contributes;
    if LineCost(line, c).Ok? {
      MeteringRating.ZeroCanonical();
      MeteringRating.CanonicalIsDecimal(CostAt(costs, LineKey(line)));
      MeteringRating.AddRefuses(CostAt(costs, LineKey(line)), line.cost.value);
    }
  }

  /** With all lines accepted, the first previous allocation that is not decides. */
  lemma FirstPreviousRefused(r: Result<seq<RatedService>>, lines: seq<UsageLine>, previous: seq<PreviousAllocation>,
                             balance: int, c: Context, n: nat)
    requires IsRating(r, lines, previous, balance, c) && OncePerBucket(previous)
    requires forall line :: line in lines ==> Accepted(line, c)
    requires n < |previous| && (forall i :: 0 <= i < n ==> AcceptedBefore(previous[i], c)) && !AcceptedBefore(previous[n], c)
    ensures r == Err(if previous[n].consumed < 0 || previous[n].consumed % 10 != 0 then PreviousAllocationInvalid
                     else ServiceMissing)
  {
    hide Accepted, Usable, BaseCosts, Describes, Targets, RatedAmounts, Ratable, LooksUp;
    forall line | line in lines ensures Usable(line, c) {
      LineAccepted(line, c, LineKey(line));
    }
    CostsAreSums(lines, c);
    assert OncePerBucket(previous[..n]);
    PreviousIsLookup(previous[..n], c);
    assert previous[..n + 1][..n] == previous[..n];
    FirstBadPrevious(previous, c, n + 1);
  }
}
