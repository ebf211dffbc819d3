/** Rating of a usage portfolio into whole credits per service and user. */
module CreditRating {
  import opened Prelude
  import opened Buckets
  import opened Sums
  import opened CreditTargets
  import opened CreditAllocation
  import Apportionment
  import Decimals
  import Money
  import MeteringRating
  import Rounding
  import Sorting

  datatype Tariff = Tariff(mode: MeteringRating.Mode, markupBps: int, currency: string)

  /** A metered line; products are the identifiers of services. */
  datatype UsageLine = UsageLine(service: ServiceId, user: UserId, cost: Option<string>, currency: Option<string>)

  datatype PreviousAllocation = PreviousAllocation(service: ServiceId, user: UserId, consumed: int)

  datatype Context = Context(services: map<ServiceId, Tariff>, users: set<nat>)

  type Costs = map<Key, string>

  // ---- Base costs ---------------------------------------------------------------------

  function SelectedCost(line: UsageLine): Result<Option<string>>
  {
    if line.cost.None? && line.currency.None? then Ok(None)
    else if line.cost.None? || line.currency != Some("USD") then Err(CostInvalid)
    else Ok(line.cost)
  }

  function LineCost(line: UsageLine, c: Context): Result<Option<string>>
  {
    if line.service !in c.services then Err(ServiceUnknown)
    else if line.user.Some? && line.user.value !in c.users then Err(UserInvalid)
    else SelectedCost(line)
  }

  function LineKey(line: UsageLine): Key
  {
    Key(line.service, line.user)
  }

  function CostAt(costs: Costs, k: Key): string
  {
    if k in costs then costs[k] else "0"
  }

  /** The cost of every bucket after the lines in order, or the first failure. */
  function BaseCosts(lines: seq<UsageLine>, c: Context): Result<Costs>
  {
    if lines == [] then Ok(map[]) else
    match BaseCosts(lines[..|lines| - 1], c)
    case Err(e) => Err(e)
    case Ok(costs) => AddLine(costs, lines[|lines| - 1], c)
  }

  function AddLine(costs: Costs, line: UsageLine, c: Context): Result<Costs>
  {
    match LineCost(line, c)
    case Err(e) => Err(e)
    case Ok(None) => Ok(costs)
    case Ok(Some(cost)) =>
      match Money.Add(CostAt(costs, LineKey(line)), cost)
      case Err(e) => Err(e)
      case Ok(sum) => Ok(costs[LineKey(line) := sum])
  }

  lemma {:induction false} FirstFailure(lines: seq<UsageLine>, c: Context, n: nat)
    requires n <= |lines| && BaseCosts(lines[..n], c).Err?
    ensures BaseCosts(lines, c) == BaseCosts(lines[..n], c)
  {
    if n < |lines| {
      assert lines[..|lines| - 1][..n] == lines[..n];
      FirstFailure(lines[..|lines| - 1], c, n);
    } else {
      assert lines[..n] == lines;
    }
  }

  method CollectCosts(lines: seq<UsageLine>, c: Context) returns (r: Result<Costs>)
    ensures r == BaseCosts(lines, c)
  {
    hide AddLine;
    var baseCosts: Costs := map[];
    for i := 0 to |lines|
      invariant BaseCosts(lines[..i], c) == Ok(baseCosts)
    {
      assert lines[..i + 1][..i] == lines[..i];
      var after := AddLine(baseCosts, lines[i], c);
      if after.Err? {
        FirstFailure(lines, c, i + 1);
        return after;
      }
      baseCosts := after.value;
    }
    assert lines[..|lines|] == lines;
    r := Ok(baseCosts);
  }

  // ---- What the cost of a bucket is, independently of the order of the lines ----------

  /** The line can be used and contributes `amount` to bucket k. */
  predicate Usable(line: UsageLine, c: Context)
  {
    && LineCost(line, c).Ok?
    && (LineCost(line, c).value.Some? ==> Decimals.IsDecimal(LineCost(line, c).value.value))
  }

  predicate Contributes(line: UsageLine, c: Context, k: Key)
  {
    Usable(line, c) && LineCost(line, c).value.Some? && LineKey(line) == k
  }

  ghost function Contribution(line: UsageLine, c: Context, k: Key): real
  {
    if Contributes(line, c, k) then Money.Amount(LineCost(line, c).value.value) else 0.0
  }

  ghost function CostSum(lines: seq<UsageLine>, c: Context, k: Key): real
  {
    if lines == [] then 0.0
    else CostSum(lines[..|lines| - 1], c, k) + Contribution(lines[|lines| - 1], c, k)
  }

  /** What is known of a table of costs: canonical strings for the exact sums. */
  ghost predicate Tallies(costs: Costs, lines: seq<UsageLine>, c: Context)
  {
    && (forall k :: k in costs <==> exists line :: line in lines && Contributes(line, c, k))
    && (forall k :: k in costs ==> Money.Canonical(costs[k]) && Money.Amount(costs[k]) == CostSum(lines, c, k))
    && (forall k :: k !in costs ==> CostSum(lines, c, k) == 0.0)
  }

  lemma AddLineTallies(costs: Costs, lines: seq<UsageLine>, line: UsageLine, c: Context)
    requires Tallies(costs, lines, c)
    ensures AddLine(costs, line, c).Ok? <==> Usable(line, c)
    ensures AddLine(costs, line, c).Ok? ==> Tallies(AddLine(costs, line, c).value, lines + [line], c)
  {
    hide Money.Amount, Money.Canonical, Money.Add, Decimals.IsDecimal;
    var after := AddLine(costs, line, c);
    var k := LineKey(line);
    if LineCost(line, c).Ok? && LineCost(line, c).value.Some? {
      var cost := LineCost(line, c).value.value;
      MeteringRating.ZeroCanonical();
      MeteringRating.CanonicalIsDecimal(CostAt(costs, k));
      MeteringRating.AddRefuses(CostAt(costs, k), cost);
      if Decimals.IsDecimal(cost) {
        Money.AddExact(CostAt(costs, k), cost);
      }
    }
    assert (lines + [line])[..|lines|] == lines;
    if after.Ok? {
      forall x ensures x in after.value <==> exists l :: l in lines + [line] && Contributes(l, c, x) {
        if x in costs {
          var l :| l in lines && Contributes(l, c, x);
          assert l in lines + [line];
        }
        if Contributes(line, c, x) {
          assert line in lines + [line];
        }
      }
    }
  }

  /** Rating a portfolio succeeds exactly when every line is usable, and adds exactly. */
  lemma {:induction false} CostsAreSums(lines: seq<UsageLine>, c: Context)
    ensures BaseCosts(lines, c).Ok? <==> forall line :: line in lines ==> Usable(line, c)
    ensures BaseCosts(lines, c).Ok? ==> Tallies(BaseCosts(lines, c).value, lines, c)
  {
    hide Tallies, AddLine, Usable;
    if lines == [] {
      NothingTallied(c);
    } else {
      var init, last := lines[..|lines| - 1], lines[|lines| - 1];
      assert lines == init + [last];
      CostsAreSums(init, c);
      if BaseCosts(init, c).Ok? {
        AddLineTallies(BaseCosts(init, c).value, init, last, c);
      }
    }
  }

  lemma NothingTallied(c: Context)
    ensures Tallies(map[], [], c)
  {}

  lemma {:induction false} CostSumTake(lines: seq<UsageLine>, c: Context, k: Key, i: nat)
    requires i < |lines|
    ensures CostSum(lines, c, k) == CostSum(lines[..i] + lines[i + 1..], c, k) + Contribution(lines[i], c, k)
  {
    hide Contribution;
    var init := lines[..|lines| - 1];
    if i == |lines| - 1 {
      assert lines[..i] + lines[i + 1..] == init;
    } else {
      CostSumTake(init, c, k, i);
      var rest := lines[..i] + lines[i + 1..];
      assert rest[..|rest| - 1] == init[..i] + init[i + 1..];
    }
  }

  lemma {:induction false} CostSumPermuted(a: seq<UsageLine>, b: seq<UsageLine>, c: Context, k: Key)
    requires multiset(a) == multiset(b)
    ensures CostSum(a, c, k) == CostSum(b, c, k)
  {
    hide Contribution;
    Sorting.SameMembers(a, b);
    if a != [] {
      var i := Sorting.LastElsewhere(a, b);
      CostSumPermuted(a[..|a| - 1], b[..i] + b[i + 1..], c, k);
      CostSumTake(b, c, k, i);
    }
  }

  /** The order of the lines does not matter: not to success, and not to a single digit of a cost. */
  lemma LinesInAnyOrder(a: seq<UsageLine>, b: seq<UsageLine>, c: Context)
    requires multiset(a) == multiset(b)
    ensures BaseCosts(a, c).Ok? <==> BaseCosts(b, c).Ok?
    ensures BaseCosts(a, c).Ok? ==> BaseCosts(a, c) == BaseCosts(b, c)
  {
    hide BaseCosts, Usable, Money.Amount, Money.Canonical, CostSum;
    Sorting.SameMembers(a, b);
    CostsAreSums(a, c);
    CostsAreSums(b, c);
    if BaseCosts(a, c).Ok? {
      var x, y := BaseCosts(a, c).value, BaseCosts(b, c).value;
      forall k ensures k in x <==> k in y {}
      forall k | k in x ensures x[k] == y[k] {
        CostSumPermuted(a, b, c, k);
        Money.CanonicalDecides(x[k], y[k]);
      }
      assert x == y;
    }
  }

  // ---- Previous allocations -------------------------------------------------------------

  function AddPrevious(previous: Amounts, a: PreviousAllocation, c: Context): Result<Amounts>
  {
    if a.consumed < 0 || a.consumed % 10 != 0 then Err(PreviousAllocationInvalid)
    else if a.service !in c.services then Err(ServiceMissing)
    else Ok(previous[Key(a.service, a.user) := a.consumed])
  }

  function PreviousAmounts(allocations: seq<PreviousAllocation>, c: Context): Result<Amounts>
  {
    if allocations == [] then Ok(map[]) else
    match PreviousAmounts(allocations[..|allocations| - 1], c)
    case Err(e) => Err(e)
    case Ok(previous) => AddPrevious(previous, allocations[|allocations| - 1], c)
  }

  method CollectPrevious(allocations: seq<PreviousAllocation>, c: Context) returns (r: Result<Amounts>)
    ensures r == PreviousAmounts(allocations, c)
  {
    var previous: Amounts := map[];
    for i := 0 to |allocations|
      invariant PreviousAmounts(allocations[..i], c) == Ok(previous)
    {
      assert allocations[..i + 1][..i] == allocations[..i];
      var after := AddPrevious(previous, allocations[i], c);
      if after.Err? {
        FirstBadPrevious(allocations, c, i + 1);
        return after;
      }
      previous := after.value;
    }
    assert allocations[..|allocations|] == allocations;
    r := Ok(previous);
  }

  lemma {:induction false} FirstBadPrevious(allocations: seq<PreviousAllocation>, c: Context, n: nat)
    requires n <= |allocations| && PreviousAmounts(allocations[..n], c).Err?
    ensures PreviousAmounts(allocations, c) == PreviousAmounts(allocations[..n], c)
  {
    if n < |allocations| {
      assert allocations[..|allocations| - 1][..n] == allocations[..n];
      FirstBadPrevious(allocations[..|allocations| - 1], c, n);
    } else {
      assert allocations[..n] == allocations;
    }
  }

  /** A ledger names each bucket once. */
  ghost predicate OncePerBucket(allocations: seq<PreviousAllocation>)
  {
    forall i, j :: 0 <= i < j < |allocations| ==>
      Key(allocations[i].service, allocations[i].user) != Key(allocations[j].service, allocations[j].user)
  }

  predicate PreviousUsable(a: PreviousAllocation, c: Context)
  {
    a.consumed >= 0 && a.consumed % 10 == 0 && a.service in c.services
  }

  /** The map holds exactly what the allocations say. */
  ghost predicate LooksUp(previous: Amounts, allocations: seq<PreviousAllocation>)
  {
    && (forall a :: a in allocations ==>
          Key(a.service, a.user) in previous && previous[Key(a.service, a.user)] == a.consumed)
    && (forall k :: k in previous ==> exists a :: a in allocations && Key(a.service, a.user) == k)
  }

  lemma LooksUpStep(previous: Amounts, init: seq<PreviousAllocation>, last: PreviousAllocation, c: Context)
    requires LooksUp(previous, init) && OncePerBucket(init + [last])
    ensures AddPrevious(previous, last, c).Ok? <==> PreviousUsable(last, c)
    ensures AddPrevious(previous, last, c).Ok? ==> LooksUp(AddPrevious(previous, last, c).value, init + [last])
  {
    assert forall a :: a in init + [last] <==> a in init || a == last;
    forall a | a in init ensures Key(a.service, a.user) != Key(last.service, last.user) {
      var i :| 0 <= i < |init| && init[i] == a;
      assert (init + [last])[i] == a && (init + [last])[|init|] == last;
    }
  }

  lemma {:induction false} PreviousIsLookup(allocations: seq<PreviousAllocation>, c: Context)
    requires OncePerBucket(allocations)
    ensures PreviousAmounts(allocations, c).Ok? <==> forall a :: a in allocations ==> PreviousUsable(a, c)
    ensures PreviousAmounts(allocations, c).Ok? ==> LooksUp(PreviousAmounts(allocations, c).value, allocations)
  {
    hide AddPrevious, PreviousUsable, LooksUp;
    if allocations == [] {
      NothingToLookUp();
    } else {
      var init, last := allocations[..|allocations| - 1], allocations[|allocations| - 1];
      assert allocations == init + [last];
      assert forall a :: a in allocations <==> a in init || a == last;
      PreviousIsLookup(init, c);
      if PreviousAmounts(init, c).Ok? {
        LooksUpStep(PreviousAmounts(init, c).value, init, last, c);
      }
    }
  }

  lemma NothingToLookUp()
    ensures LooksUp(map[], [])
  {}

  /** Nor does the order of the previous allocations matter. */
  lemma PreviousInAnyOrder(a: seq<PreviousAllocation>, b: seq<PreviousAllocation>, c: Context)
    requires OncePerBucket(a) && OncePerBucket(b) && multiset(a) == multiset(b)
    ensures PreviousAmounts(a, c).Ok? <==> PreviousAmounts(b, c).Ok?
    ensures PreviousAmounts(a, c).Ok? ==> PreviousAmounts(a, c) == PreviousAmounts(b, c)
  {
    Sorting.SameMembers(a, b);
    PreviousIsLookup(a, c);
    PreviousIsLookup(b, c);
    hide PreviousAmounts, PreviousUsable;
    if PreviousAmounts(a, c).Ok? {
      assert PreviousAmounts(a, c).value == PreviousAmounts(b, c).value;
    }
  }

  // ---- Rated usage ------------------------------------------------------------------------

  function RatedMicroMinor(baseCost: string, tariff: Tariff): Result<nat>
  {
    if tariff.currency != "USD" then Err(TariffCurrencyInvalid)
    else if tariff.mode.Free? then Ok(0)
    else
      match Money.MultiplyByBps(baseCost, 10_000 + tariff.markupBps)
      case Err(e) => Err(e)
      case Ok(rated) => Rounding.MeterQuantity(rated, "USD")
  }

  /**
   * The amount is the cost and the markup on it, to the nearest hundred-millionth of a dollar with
   * halves rounded up; free usage is worth nothing.
   */
  ghost predicate Worth(rated: nat, cost: real, tariff: Tariff)
  {
    if tariff.mode.Free? then rated == 0 else
    var doubled := 2.0 * (cost * (10_000 + tariff.markupBps) as real / 10_000.0) * 100_000_000.0;
    (2 * rated - 1) as real <= doubled < (2 * rated + 1) as real
  }

  /**
   * What usage is rated at: its cost and the markup on it, to the nearest hundred-millionth of a
   * dollar with halves rounded up; nothing where it is free; and every way in which it is refused.
   */
  lemma RatedValue(cost: string, tariff: Tariff)
    requires Decimals.IsDecimal(cost)
    ensures var r := RatedMicroMinor(cost, tariff);
      var doubled := 2.0 * (Money.Amount(cost) * (10_000 + tariff.markupBps) as real / 10_000.0) * 100_000_000.0;
      if tariff.currency != "USD" then r == Err(TariffCurrencyInvalid)
      else if tariff.mode.Free? then r == Ok(0)
      else if !(0 <= 10_000 + tariff.markupBps <= 9007199254740991) then r == Err(MultiplierInvalid)
      else if doubled < 0.0 then r == Err(AmountInvalid)
      else if doubled >= (2 * 9223372036854775807 + 1) as real then r == Err(AmountOutOfRange)
      else r.Ok? && Worth(r.value, Money.Amount(cost), tariff)
  {
    hide Money.Marked, Decimals.Print, Decimals.Parsed, Money.Canonical, Money.Amount, Rounding.MeterQuantity,
      Money.MultiplyByBps, Decimals.IsDecimal;
    MultiplierBounds();
    var doubled := 2.0 * (Money.Amount(cost) * (10_000 + tariff.markupBps) as real / 10_000.0) * 100_000_000.0;
    if tariff.currency == "USD" && !tariff.mode.Free? {
      var bps := 10_000 + tariff.markupBps;
      if 0 <= bps <= Money.MAX_SAFE_INTEGER {
        Money.MultiplyExact(cost, bps);
        var marked := Money.MultiplyByBps(cost, bps).value;
        MeteringRating.CanonicalIsDecimal(marked);
        Money.CanonicalSign(marked);
        Rounding.MeteredDollars(marked);
        TenThousandth(Money.Amount(marked), Money.Amount(cost), bps as real);
        assert doubled == 2.0 * Money.Amount(marked) * 100_000_000.0;
      } else {
        MultiplierRefused(cost, bps);
      }
    }
  }

  lemma TenThousandth(marked: real, cost: real, bps: real)
    requires marked * 10_000.0 == cost * bps
    ensures marked == cost * bps / 10_000.0
  {}

  lemma MultiplierBounds()
    ensures Money.MAX_SAFE_INTEGER == 9007199254740991
  {}

  lemma MultiplierRefused(cost: string, bps: int)
    requires !(0 <= bps <= Money.MAX_SAFE_INTEGER)
    ensures Money.MultiplyByBps(cost, bps) == Err(MultiplierInvalid)
  {}

  /** Credits are drawn for exactly what the metering rating would charge, under the same terms. */
  lemma RatedAsMetered(cost: string, tariff: Tariff)
    requires Decimals.IsDecimal(cost) && tariff.currency == "USD"
    ensures var money := MeteringRating.RateProviderCost(cost, "USD", MeteringRating.Terms(tariff.mode, tariff.markupBps));
      money.Ok? ==> RatedMicroMinor(cost, tariff) == Rounding.MeterQuantity(money.value.total, "USD")
  {
    hide Decimals.Print, Decimals.Parsed, Money.Amount, Rounding.MeterQuantity, Decimals.IsDecimal;
    MeteringRating.RatingByMode(cost, "USD", MeteringRating.Terms(tariff.mode, tariff.markupBps));
    NothingMetered();
  }

  lemma NothingMetered()
    ensures Rounding.MeterQuantity("0", "USD") == Ok(0)
  {
    Money.PrintCanonical(Decimals.Decimal(0, 0));
    Rounding.MeteredDollars("0");
  }

  predicate Known(keys: set<Key>, c: Context)
  {
    forall k :: k in keys ==> k.service in c.services
  }

  function RatedBucket(costs: Costs, k: Key, c: Context): Result<nat>
    requires k.service in c.services
  {
    if k in costs then RatedMicroMinor(costs[k], c.services[k.service]) else Ok(0)
  }

  ghost predicate Ratable(costs: Costs, c: Context)
    requires Known(costs.Keys, c)
  {
    forall k :: k in costs ==> RatedBucket(costs, k, c).Ok?
  }

  ghost function RatedAmounts(costs: Costs, c: Context): (rated: Amounts)
    requires Known(costs.Keys, c) && Ratable(costs, c)
    ensures rated.Keys == costs.Keys
  {
    map k | k in costs :: RatedBucket(costs, k, c).value
  }

  lemma {:induction false} CostsKnown(lines: seq<UsageLine>, c: Context)
    requires BaseCosts(lines, c).Ok?
    ensures Known(BaseCosts(lines, c).value.Keys, c)
  {
    hide Money.Add;
    if lines != [] { CostsKnown(lines[..|lines| - 1], c); }
  }

  lemma {:induction false} PreviousKnown(allocations: seq<PreviousAllocation>, c: Context)
    requires PreviousAmounts(allocations, c).Ok?
    ensures Known(PreviousAmounts(allocations, c).value.Keys, c)
  {
    if allocations != [] { PreviousKnown(allocations[..|allocations| - 1], c); }
  }

  // ---- Buckets ------------------------------------------------------------------------------

  function BucketFor(rated: nat, previous: nat, k: Key): Bucket
  {
    Bucket(k, rated, previous, Min(previous / MICROCREDITS_PER_CREDIT, rated / MICRO_MINOR_PER_CREDIT))
  }

  predicate BucketLess(left: Bucket, right: Bucket)
  {
    KeyLess(left.key, right.key)
  }

  lemma BucketOrder()
    ensures Sorting.IsOrder(BucketLess)
  {}

  /** One bucket per key, each as the rating starts with it, in bucket order. */
  ghost predicate Prepared(s: seq<Bucket>, rated: Amounts, previous: Amounts)
  {
    && Sorting.Ascending(s, BucketLess)
    && (forall b :: b in s ==> b == BucketFor(At(rated, b.key), At(previous, b.key), b.key))
    && (set b | b in s :: b.key) == rated.Keys + previous.Keys
  }

  /** One bucket for every key dealt with, in any order. */
  ghost predicate Gathered(found: seq<Bucket>, done: set<Key>, costs: Costs, previous: Amounts, c: Context)
    requires Known(costs.Keys, c) && Known(previous.Keys, c) && done <= costs.Keys + previous.Keys
  {
    && Sorting.Distinct(found)
    && (set b | b in found :: b.key) == done
    && (forall k :: k in done ==> RatedBucket(costs, k, c).Ok?)
    && forall b :: b in found ==>
         b.key in done && b == BucketFor(RatedBucket(costs, b.key, c).value, At(previous, b.key), b.key)
  }

  lemma GatherStep(found: seq<Bucket>, done: set<Key>, costs: Costs, previous: Amounts, c: Context, k: Key)
    requires Known(costs.Keys, c) && Known(previous.Keys, c) && done <= costs.Keys + previous.Keys
    requires Gathered(found, done, costs, previous, c)
    requires k in costs.Keys + previous.Keys && k !in done && RatedBucket(costs, k, c).Ok?
    ensures Gathered(
      found + [BucketFor(RatedBucket(costs, k, c).value, At(previous, k), k)], done + {k}, costs, previous, c)
  {
    hide RatedBucket;
    var b := BucketFor(RatedBucket(costs, k, c).value, At(previous, k), k);
    forall x | x in found ensures x.key in done && x != b {}
    assert forall x :: x in found + [b] <==> x in found || x == b;
    var keys := set x | x in found + [b] :: x.key;
    forall x ensures x in keys <==> x in done + {k} {
      if x in done {
        var y :| y in found && y.key == x;
        assert y in found + [b];
      }
      if x == k { assert b in found + [b]; }
    }
  }

  method GatherBuckets(costs: Costs, previous: Amounts, c: Context) returns (r: Result<seq<Bucket>>)
    requires Known(costs.Keys, c) && Known(previous.Keys, c)
    ensures r.Ok? ==> Gathered(r.value, costs.Keys + previous.Keys, costs, previous, c)
    ensures r.Err? ==> exists k :: k in costs && RatedBucket(costs, k, c) == Err(r.error)
  {
    hide RatedMicroMinor, Gathered;
    NoneGathered(costs, previous, c);
    var keys := costs.Keys + previous.Keys;
    var rest, found: seq<Bucket> := keys, [];
    while rest != {}
      invariant rest <= keys && Gathered(found, keys - rest, costs, previous, c)
      decreases |rest|
    {
      var k :| k in rest;
      var rated := RatedBucket(costs, k, c);
      if rated.Err? { return Err(rated.error); }
      GatherStep(found, keys - rest, costs, previous, c, k);
      found := found + [BucketFor(rated.value, At(previous, k), k)];
      assert keys - (rest - {k}) == keys - rest + {k};
      rest := rest - {k};
    }
    assert keys - rest == keys;
    r := Ok(found);
  }

  lemma NoneGathered(costs: Costs, previous: Amounts, c: Context)
    requires Known(costs.Keys, c) && Known(previous.Keys, c)
    ensures var keys := costs.Keys + previous.Keys; Gathered([], keys - keys, costs, previous, c)
  {}

  method PrepareBuckets(costs: Costs, previous: Amounts, c: Context) returns (r: Result<array<Bucket>>)
    requires Known(costs.Keys, c) && Known(previous.Keys, c)
    ensures r.Ok? ==> Ratable(costs, c) && fresh(r.value) && Prepared(r.value[..], RatedAmounts(costs, c), previous)
    ensures r.Err? ==> exists k :: k in costs && RatedBucket(costs, k, c) == Err(r.error)
  {
    hide RatedMicroMinor, Prepared, BucketFor;
    var found :- GatherBuckets(costs, previous, c);
    var buckets := new Bucket[|found|](i requires 0 <= i < |found| => found[i]);
    assert buckets[..] == found;
    BucketOrder();
    Sorting.Sort(buckets, BucketLess);
    SortedBuckets(found, buckets[..], RatedAmounts(costs, c), previous);
    r := Ok(buckets);
  }

  lemma SortedBuckets(found: seq<Bucket>, sorted: seq<Bucket>, rated: Amounts, previous: Amounts)
    requires Sorting.Distinct(found) && multiset(found) == multiset(sorted) && Sorting.Sorted(sorted, BucketLess)
    requires forall b :: b in found ==> b == BucketFor(At(rated, b.key), At(previous, b.key), b.key)
    requires (set b | b in found :: b.key) == rated.Keys + previous.Keys
    ensures Prepared(sorted, rated, previous)
  {
    hide BucketFor;
    BucketOrder();
    Sorting.SameMembers(found, sorted);
    Sorting.SortedAscending(found, sorted, BucketLess);
  }

  // ---- What can be spent -----------------------------------------------------------------

  function ReleasedBy(b: Bucket): int
  {
    b.previous - b.target * MICROCREDITS_PER_CREDIT
  }

  function RemainingIn(b: Bucket): int
  {
    BillableCapacity(b) - b.target
  }

  lemma PreparedKeys(s: seq<Bucket>, rated: Amounts, previous: Amounts)
    requires Prepared(s, rated, previous)
    ensures DistinctKeys(s)
    ensures forall i :: 0 <= i < |s| ==> s[i].key in rated.Keys + previous.Keys
    ensures forall i :: 0 <= i < |s| ==> s[i] == BucketFor(At(rated, s[i].key), At(previous, s[i].key), s[i].key)
    ensures forall k :: k in rated.Keys + previous.Keys ==> exists i :: 0 <= i < |s| && s[i].key == k
  {
    hide BucketFor;
    var keys := set b | b in s :: b.key;
    forall i, j | 0 <= i < j < |s| ensures s[i].key != s[j].key {
      assert BucketLess(s[i], s[j]);
    }
    forall i | 0 <= i < |s|
      ensures s[i].key in keys && s[i] == BucketFor(At(rated, s[i].key), At(previous, s[i].key), s[i].key)
    {
      assert s[i] in s;
    }
    forall k | k in keys ensures exists i :: 0 <= i < |s| && s[i].key == k {
      var b :| b in s && b.key == k;
      var i :| 0 <= i < |s| && s[i] == b;
      assert s[i].key == k;
    }
  }

  function BucketKey(b: Bucket): Key { b.key }

  lemma PreparedSums(s: seq<Bucket>, rated: Amounts, previous: Amounts)
    requires Prepared(s, rated, previous)
    ensures SumOver(s, ReleasedBy) == Sum(Released(rated, previous))
    ensures SumOver(s, RemainingIn) == Sum(Room(rated, previous))
  {
    hide Prepared, BucketFor, Kept, Capacity, ReleasedBy, RemainingIn, RoomOf, At;
    PreparedKeys(s, rated, previous);
    forall i | 0 <= i < |s|
      ensures ReleasedBy(s[i]) == Released(rated, previous)[s[i].key]
      ensures RemainingIn(s[i]) == Room(rated, previous)[s[i].key]
    {
      KeptFields(rated, previous, s[i]);
    }
    SumOverIs(s, BucketKey, ReleasedBy, Released(rated, previous));
    SumOverIs(s, BucketKey, RemainingIn, Room(rated, previous));
  }

  lemma PreparedRooms(s: seq<Bucket>, rated: Amounts, previous: Amounts)
    requires Prepared(s, rated, previous)
    ensures DistinctKeys(s) && Rooms(s) == Room(rated, previous)
  {
    hide Prepared, BucketFor, Kept, Capacity, ReleasedBy, RemainingIn, RoomOf, At;
    PreparedKeys(s, rated, previous);
    var room := Room(rated, previous);
    forall i | 0 <= i < |s| ensures RoomOf(s[i]) == room[s[i].key] {
      KeptFields(rated, previous, s[i]);
    }
    SameRooms(s, room);
  }

  lemma SameRooms(s: seq<Bucket>, room: map<Key, nat>)
    requires DistinctKeys(s)
    requires forall i :: 0 <= i < |s| ==> s[i].key in room && room[s[i].key] == RoomOf(s[i])
    requires forall k :: k in room ==> exists i :: 0 <= i < |s| && s[i].key == k
    ensures Rooms(s) == room
  {
    hide RoomOf;
  }

  lemma KeptFields(rated: Amounts, previous: Amounts, b: Bucket)
    requires b == BucketFor(At(rated, b.key), At(previous, b.key), b.key)
    ensures ReleasedBy(b) == At(previous, b.key) - Kept(rated, previous, b.key) * MICROCREDITS_PER_CREDIT
    ensures RemainingIn(b) == RoomOf(b) == Capacity(rated, b.key) - Kept(rated, previous, b.key)
    ensures b.target == Kept(rated, previous, b.key) && b.rated == At(rated, b.key)
  {}

  /** What is left after the release, in whole credits, as far as there is room for it. */
  method SpendableCredits(s: seq<Bucket>, balance: int, ghost rated: Amounts, ghost previous: Amounts)
    returns (credits: int)
    requires Prepared(s, rated, previous)
    ensures credits == Requested(rated, previous, balance)
  {
    hide Released, Room, Prepared;
    PreparedSums(s, rated, previous);
    var released, remaining := 0, 0;
    for i := 0 to |s|
      invariant released == SumOver(s[..i], ReleasedBy)
      invariant remaining == SumOver(s[..i], RemainingIn)
    {
      SumOverStep(s, ReleasedBy, i);
      SumOverStep(s, RemainingIn, i);
      released := released + ReleasedBy(s[i]);
      remaining := remaining + RemainingIn(s[i]);
    }
    assert s[..|s|] == s;
    credits := Min(WholeCredits(balance + released), remaining);
  }

  /** The buckets once everything has been spent, in bucket order. */
  ghost predicate Spent(s: seq<Bucket>, rated: Amounts, targets: map<Key, nat>)
  {
    && Sorting.Ascending(s, BucketLess)
    && (forall b :: b in s ==> b.key in targets && b.rated == At(rated, b.key) && b.target == targets[b.key])
    && (set b | b in s :: b.key) == targets.Keys
  }

  lemma ApportionedIsSpent(s: seq<Bucket>, rated: Amounts, previous: Amounts, balance: int)
    requires Prepared(s, rated, previous)
    ensures DistinctKeys(s) && Requested(rated, previous, balance) <= Sum(Rooms(s))
    ensures Spent(Apportioned(s, Requested(rated, previous, balance)), rated, Targets(rated, previous, balance))
  {
    hide Prepared, Requested, Apportionment.Shares, Rooms, Spent, Kept, Capacity;
    PreparedRooms(s, rated, previous);
    PreparedKeys(s, rated, previous);
    var spent := Apportioned(s, Requested(rated, previous, balance));
    SpentFrom(s, spent, rated, previous, balance);
  }

  lemma SpentFrom(s: seq<Bucket>, spent: seq<Bucket>, rated: Amounts, previous: Amounts, balance: int)
    requires Prepared(s, rated, previous) && |spent| == |s|
    requires var shares := Apportionment.Shares(Room(rated, previous), Requested(rated, previous, balance));
      forall i :: 0 <= i < |s| ==> s[i].key in shares && spent[i] == Raised(s[i], shares[s[i].key])
    ensures Spent(spent, rated, Targets(rated, previous, balance))
  {
    hide Apportionment.Shares, Requested, Room, Capacity, BucketFor, Kept, Prepared, Targets, Spent, At;
    PreparedKeys(s, rated, previous);
    var targets := Targets(rated, previous, balance);
    forall i | 0 <= i < |s|
      ensures spent[i].key == s[i].key && s[i].key in targets
      ensures spent[i].rated == At(rated, s[i].key) && spent[i].target == targets[s[i].key]
    {
      KeptFields(rated, previous, s[i]);
      TargetFrom(rated, previous, balance, s[i].key);
    }
    InBucketOrder(s, rated, previous);
    SpentSame(s, spent, rated, targets);
  }

  lemma InBucketOrder(s: seq<Bucket>, rated: Amounts, previous: Amounts)
    requires Prepared(s, rated, previous)
    ensures Sorting.Ascending(s, BucketLess)
  {}

  lemma TargetFrom(rated: Amounts, previous: Amounts, balance: int, k: Key)
    requires k in rated.Keys + previous.Keys
    ensures var shares := Apportionment.Shares(Room(rated, previous), Requested(rated, previous, balance));
      k in shares && Targets(rated, previous, balance)[k] == Kept(rated, previous, k) + shares[k]
  {
    hide Apportionment.Shares, Requested;
  }

  lemma SpentSame(s: seq<Bucket>, spent: seq<Bucket>, rated: Amounts, targets: map<Key, nat>)
    requires |spent| == |s| && Sorting.Ascending(s, BucketLess)
    requires forall i :: 0 <= i < |s| ==>
      && spent[i].key == s[i].key && s[i].key in targets
      && spent[i].rated == At(rated, s[i].key) && spent[i].target == targets[s[i].key]
    requires forall k :: k in targets ==> exists i :: 0 <= i < |s| && s[i].key == k
    ensures Spent(spent, rated, targets)
  {
    hide At;
    forall i, j | 0 <= i < j < |spent| ensures BucketLess(spent[i], spent[j]) {
      assert BucketLess(s[i], s[j]);
    }
    forall k | k in targets ensures exists b :: b in spent && b.key == k {
      var i :| 0 <= i < |s| && s[i].key == k;
      assert spent[i] in spent;
    }
  }

  // ---- The outcome, by service --------------------------------------------------------------

  datatype Allocation = Allocation(user: UserId, rated: nat, consumed: nat, remaining: int)

  datatype RatedService =
    RatedService(service: ServiceId, rated: nat, consumed: nat, remaining: int, allocations: seq<Allocation>)

  function AllocationOf(b: Bucket): Allocation
  {
    Allocation(b.key.user, b.rated, b.target * MICROCREDITS_PER_CREDIT, b.rated - b.target * MICRO_MINOR_PER_CREDIT)
  }

  function Include(r: RatedService, a: Allocation): RatedService
  {
    RatedService(r.service, r.rated + a.rated, r.consumed + a.consumed, r.remaining + a.remaining, r.allocations + [a])
  }

  /** The buckets of one service, in bucket order, with their totals. */
  function Grouped(s: seq<Bucket>, service: ServiceId): RatedService
  {
    if s == [] then RatedService(service, 0, 0, 0, []) else
    var last, rest := s[|s| - 1], Grouped(s[..|s| - 1], service);
    if last.key.service == service then Include(rest, AllocationOf(last)) else rest
  }

  method GroupByService(s: seq<Bucket>, services: set<ServiceId>) returns (byService: map<ServiceId, RatedService>)
    requires forall b :: b in s ==> b.key.service in services
    ensures byService == map id | id in services :: Grouped(s, id)
  {
    hide AllocationOf, Include;
    byService := map id | id in services :: RatedService(id, 0, 0, 0, []);
    for i := 0 to |s|
      invariant byService == map id | id in services :: Grouped(s[..i], id)
    {
      assert s[..i + 1][..i] == s[..i];
      assert s[i] in s;
      var id := s[i].key.service;
      byService := byService[id := Include(byService[id], AllocationOf(s[i]))];
    }
    assert s[..|s|] == s;
  }

  predicate ServiceLess(left: RatedService, right: RatedService)
  {
    left.service < right.service
  }

  method InOrder(byService: map<ServiceId, RatedService>) returns (result: seq<RatedService>)
    requires forall id :: id in byService ==> byService[id].service == id
    ensures Sorting.Ascending(result, ServiceLess)
    ensures (set r | r in result :: r.service) == byService.Keys
    ensures forall r :: r in result ==> r.service in byService && r == byService[r.service]
  {
    var ids := Sorting.Listing(byService.Keys, (a: nat, b: nat) => a < b);
    assert forall i :: 0 <= i < |ids| ==> ids[i] in Sorting.Elements(ids);
    result := seq(|ids|, i requires 0 <= i < |ids| => byService[ids[i]]);
    forall id | id in byService ensures id in set r | r in result :: r.service {
      assert id in Sorting.Elements(ids);
      var i :| 0 <= i < |ids| && ids[i] == id;
      assert result[i] in result;
    }
  }

  lemma {:induction false} GroupedService(s: seq<Bucket>, service: ServiceId)
    ensures Grouped(s, service).service == service
  {
    if s != [] { GroupedService(s[..|s| - 1], service); }
  }

  predicate AllocationLess(left: Allocation, right: Allocation)
  {
    KeyLess(Key(0, left.user), Key(0, right.user))
  }

  function RatedOf(a: Allocation): int { a.rated }
  function ConsumedOf(a: Allocation): int { a.consumed }
  function RemainingOf(a: Allocation): int { a.remaining }

  /** The rating of one service: every bucket of it once, in user order, with exact totals. */
  ghost predicate ServiceRated(r: RatedService, rated: Amounts, targets: map<Key, nat>)
  {
    && Sorting.Ascending(r.allocations, AllocationLess)
    && (forall a :: a in r.allocations ==>
          var k := Key(r.service, a.user);
          && k in targets && a.rated == At(rated, k)
          && a.consumed == targets[k] * MICROCREDITS_PER_CREDIT
          && a.remaining == a.rated - targets[k] * MICRO_MINOR_PER_CREDIT)
    && (forall k :: k in targets && k.service == r.service ==> exists a :: a in r.allocations && a.user == k.user)
    && r.rated == SumOver(r.allocations, RatedOf)
    && r.consumed == SumOver(r.allocations, ConsumedOf)
    && r.remaining == SumOver(r.allocations, RemainingOf)
  }

  /** The rating of all services, in the order of their names. */
  ghost predicate Describes(result: seq<RatedService>, services: set<ServiceId>, rated: Amounts, targets: map<Key, nat>)
  {
    && Sorting.Ascending(result, ServiceLess)
    && (set r | r in result :: r.service) == services
    && forall r :: r in result ==> ServiceRated(r, rated, targets)
  }

  lemma {:induction false} GroupedAllocations(s: seq<Bucket>, service: ServiceId)
    requires Sorting.Ascending(s, BucketLess)
    ensures var g := Grouped(s, service);
      && Sorting.Ascending(g.allocations, AllocationLess)
      && (forall a :: a in g.allocations ==>
            exists b :: b in s && b.key == Key(service, a.user) && a == AllocationOf(b))
      && (forall b :: b in s && b.key.service == service ==> AllocationOf(b) in g.allocations)
  {
    hide AllocationOf;
    if s != [] {
      var init, last := s[..|s| - 1], s[|s| - 1];
      GroupedAllocations(init, service);
      assert s == init + [last];
      var g := Grouped(init, service);
      if last.key.service == service {
        assert AllocationOf(last).user == last.key.user by { AllocationUser(last); }
        forall a | a in g.allocations ensures AllocationLess(a, AllocationOf(last)) {
          var b :| b in init && b.key == Key(service, a.user) && a == AllocationOf(b);
          var i :| 0 <= i < |init| && init[i] == b;
          assert BucketLess(s[i], s[|s| - 1]);
        }
      }
    }
  }

  lemma AllocationUser(b: Bucket)
    ensures AllocationOf(b).user == b.key.user
  {}

  lemma {:induction false} GroupedTotals(s: seq<Bucket>, service: ServiceId)
    ensures var g := Grouped(s, service);
      && g.rated == SumOver(g.allocations, RatedOf)
      && g.consumed == SumOver(g.allocations, ConsumedOf)
      && g.remaining == SumOver(g.allocations, RemainingOf)
  {
    hide AllocationOf;
    if s != [] {
      var init, last := s[..|s| - 1], s[|s| - 1];
      GroupedTotals(init, service);
      var g, a := Grouped(init, service), AllocationOf(last);
      assert (g.allocations + [a])[..|g.allocations|] == g.allocations;
    }
  }

  lemma GroupedIsRated(s: seq<Bucket>, rated: Amounts, targets: map<Key, nat>, service: ServiceId)
    requires Spent(s, rated, targets)
    ensures ServiceRated(Grouped(s, service), rated, targets)
  {
    hide Grouped;
    GroupedService(s, service);
    GroupedAllocations(s, service);
    GroupedTotals(s, service);
    var g := Grouped(s, service);
    forall k | k in targets && k.service == service ensures exists a :: a in g.allocations && a.user == k.user {
      assert k in set b | b in s :: b.key;
      var b :| b in s && b.key == k;
      assert AllocationOf(b) in g.allocations;
    }
  }

  /** What it means to have rated a portfolio: a failure of the input, or the specified consumption. */
  ghost predicate IsRating(r: Result<seq<RatedService>>, lines: seq<UsageLine>, allocations: seq<PreviousAllocation>,
                           balance: int, c: Context)
  {
    if BaseCosts(lines, c).Err? then r == Err(BaseCosts(lines, c).error)
    else if PreviousAmounts(allocations, c).Err? then r == Err(PreviousAmounts(allocations, c).error)
    else
      var costs, previous := BaseCosts(lines, c).value, PreviousAmounts(allocations, c).value;
      CostsKnown(lines, c);
      if Ratable(costs, c) then
        r.Ok? && Describes(r.value, c.services.Keys, RatedAmounts(costs, c),
          Targets(RatedAmounts(costs, c), previous, balance))
      else r.Err? && exists k :: k in costs && RatedBucket(costs, k, c) == Err(r.error)
  }

  method RateCreditPortfolio(lines: seq<UsageLine>, allocations: seq<PreviousAllocation>, balance: int, c: Context)
    returns (r: Result<seq<RatedService>>)
    ensures IsRating(r, lines, allocations, balance, c)
  {
    hide BaseCosts, PreviousAmounts, RatedBucket, RatedAmounts, Prepared, Spent, Targets, Requested, Rooms,
      ServiceRated, Grouped, Apportioned, LargestRemainders, FreeTotal;
    var costs :- CollectCosts(lines, c);
    var previous :- CollectPrevious(allocations, c);
    CostsKnown(lines, c);
    PreviousKnown(allocations, c);
    var prepared := PrepareBuckets(costs, previous, c);
    if prepared.Err? {
      UnratableBucket(costs, c, prepared.error);
      return Err(prepared.error);
    }
    var buckets := prepared.value;
    ghost var rated := RatedAmounts(costs, c);
    ghost var targets := Targets(rated, previous, balance);
    var credits := SpendableCredits(buckets[..], balance, rated, previous);
    ApportionedIsSpent(buckets[..], rated, previous, balance);
    var allocation := AllocateAdditionalCredits(buckets, credits);
    assert allocation.Ok?;
    SpentServices(buckets[..], rated, targets);
    var byService := GroupByService(buckets[..], c.services.Keys);
    forall id | id in c.services
      ensures byService[id].service == id && ServiceRated(byService[id], rated, targets)
    {
      GroupedService(buckets[..], id);
      GroupedIsRated(buckets[..], rated, targets, id);
    }
    var result := InOrder(byService);
    r := Ok(result);
  }

  /** Listing the lines or the previous allocations in another order gives the very same rating. */
  lemma RatingInAnyOrder(r: Result<seq<RatedService>>, lines: seq<UsageLine>, allocations: seq<PreviousAllocation>,
                         r': Result<seq<RatedService>>, lines': seq<UsageLine>, allocations': seq<PreviousAllocation>,
                         balance: int, c: Context)
    requires IsRating(r, lines, allocations, balance, c) && IsRating(r', lines', allocations', balance, c)
    requires multiset(lines) == multiset(lines') && multiset(allocations) == multiset(allocations')
    requires OncePerBucket(allocations) && OncePerBucket(allocations')
    ensures r.Ok? <==> r'.Ok?
    ensures r.Ok? ==> r == r'
  {
    hide BaseCosts, PreviousAmounts, RatedBucket, RatedAmounts, Targets, ServiceRated, OncePerBucket, Describes;
    LinesInAnyOrder(lines, lines', c);
    PreviousInAnyOrder(allocations, allocations', c);
    if r.Ok? {
      var costs, previous := BaseCosts(lines, c).value, PreviousAmounts(allocations, c).value;
      CostsKnown(lines, c);
      var rated := RatedAmounts(costs, c);
      RatingUnique(r.value, r'.value, c.services.Keys, rated, Targets(rated, previous, balance));
    }
  }

  lemma UnratableBucket(costs: Costs, c: Context, e: Error)
    requires Known(costs.Keys, c)
    requires exists k :: k in costs && RatedBucket(costs, k, c) == Err(e)
    ensures !Ratable(costs, c)
  {
    hide RatedBucket;
  }

  lemma SpentServices(s: seq<Bucket>, rated: Amounts, targets: map<Key, nat>)
    requires Spent(s, rated, targets)
    ensures forall b :: b in s ==> b.key in targets
  {}

  /** The specification leaves no choice: two ratings of the same amounts are the same list. */
  lemma RatingUnique(a: seq<RatedService>, b: seq<RatedService>, services: set<ServiceId>, rated: Amounts,
                     targets: map<Key, nat>)
    requires Describes(a, services, rated, targets) && Describes(b, services, rated, targets)
    ensures a == b
  {
    hide ServiceRated;
    forall x ensures x in a <==> x in b {
      if x in a { SameRating(x, a, b, services, rated, targets); }
      if x in b { SameRating(x, b, a, services, rated, targets); }
    }
    assert Sorting.Elements(a) == Sorting.Elements(b);
    Sorting.AscendingUnique(a, b, ServiceLess);
  }

  lemma SameRating(x: RatedService, a: seq<RatedService>, b: seq<RatedService>, services: set<ServiceId>,
                   rated: Amounts, targets: map<Key, nat>)
    requires Describes(a, services, rated, targets) && Describes(b, services, rated, targets) && x in a
    ensures x in b
  {
    hide ServiceRated;
    assert x.service in services;
    var y :| y in b && y.service == x.service;
    ServiceUnique(x, y, rated, targets);
  }

  lemma ServiceUnique(x: RatedService, y: RatedService, rated: Amounts, targets: map<Key, nat>)
    requires x.service == y.service && ServiceRated(x, rated, targets) && ServiceRated(y, rated, targets)
    ensures x == y
  {
    AllocationsMatch(x, y, rated, targets);
    AllocationsMatch(y, x, rated, targets);
    assert Sorting.Elements(x.allocations) == Sorting.Elements(y.allocations);
    Sorting.AscendingUnique(x.allocations, y.allocations, AllocationLess);
  }

  lemma AllocationsMatch(x: RatedService, y: RatedService, rated: Amounts, targets: map<Key, nat>)
    requires x.service == y.service && ServiceRated(x, rated, targets) && ServiceRated(y, rated, targets)
    ensures forall a :: a in x.allocations ==> a in y.allocations
  {
    hide SumOver, Sorting.Ascending, At;
    forall a | a in x.allocations ensures a in y.allocations {
      var k := Key(x.service, a.user);
      var b :| b in y.allocations && b.user == k.user;
    }
  }
}
