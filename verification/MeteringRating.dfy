/** Rating of metered provider cost, grouped by caller and in total. */
module MeteringRating {
  import opened Prelude
  import opened Decimals
  import opened Money
  import Sorting

  datatype Mode = Standard | Free | AtCost | Custom
  datatype Terms = Terms(mode: Mode, markupBps: int)
  datatype RatedMoney = RatedMoney(base: string, markup: string, total: string, currency: string)

  /** Products and callers are named by their rank in the collation order. */
  datatype Line = Line(product: nat, caller: Option<nat>, cost: Option<string>, currency: Option<string>)
  datatype Query = Query(product: nat, currency: string, terms: Terms, unattributed: nat, skipMissing: bool)
  datatype CallerTotal = CallerTotal(product: nat, caller: nat, money: RatedMoney)

  function Multiplier(terms: Terms): Result<nat>
  {
    if !(0 <= terms.markupBps <= MAX_SAFE_INTEGER)
       || ((terms.mode.Free? || terms.mode.AtCost?) && terms.markupBps != 0)
    then Err(RatingTermsInvalid)
    else Ok(if terms.mode.Free? then 0 else 10_000 + terms.markupBps)
  }

  function RateProviderCost(amount: string, currency: string, terms: Terms): Result<RatedMoney>
  {
    match Multiplier(terms)
    case Err(e) => Err(e)
    case Ok(multiplier) =>
      match MultiplyByBps(amount, multiplier)
      case Err(e) => Err(e)
      case Ok(total) =>
        if terms.mode.Free? then Ok(RatedMoney(amount, "0", total, currency))
        else
          match Subtract(total, amount)
          case Err(e) => Err(e)
          case Ok(markup) => Ok(RatedMoney(amount, markup, total, currency))
  }

  function SelectedCost(line: Line, q: Query): Result<Option<string>>
  {
    if line.product != q.product then Err(ProductMismatch)
    else if line.cost.None? && line.currency.None? then if q.skipMissing then Ok(None) else Err(CostMissing)
    else if line.cost.None? || line.currency != Some(q.currency) then Err(CostMismatch)
    else Ok(line.cost)
  }

  // ---- What a list of lines costs --------------------------------------------------

  datatype Cost = Cost(caller: nat, amount: string)

  predicate AllDecimal(amounts: seq<string>)
  {
    forall i :: 0 <= i < |amounts| ==> IsDecimal(amounts[i])
  }

  predicate Priced(costs: seq<Cost>)
  {
    forall i :: 0 <= i < |costs| ==> IsDecimal(costs[i].amount)
  }

  function CallerOf(line: Line, q: Query): nat
  {
    if line.caller.Some? then line.caller.value else q.unattributed
  }

  /** The costs of the lines in order, or the first failure. */
  function Costs(lines: seq<Line>, q: Query): (r: Result<seq<Cost>>)
    ensures r.Ok? ==> Priced(r.value)
  {
    if lines == [] then Ok([]) else
    var line := lines[|lines| - 1];
    match Costs(lines[..|lines| - 1], q)
    case Err(e) => Err(e)
    case Ok(costs) =>
      match SelectedCost(line, q)
      case Err(e) => Err(e)
      case Ok(None) => Ok(costs)
      case Ok(Some(amount)) =>
        if IsDecimal(amount) then Ok(costs + [Cost(CallerOf(line, q), amount)]) else Err(DecimalInvalid)
  }

  lemma {:induction false} FirstFailure(lines: seq<Line>, q: Query, n: nat)
    requires n <= |lines| && Costs(lines[..n], q).Err?
    ensures Costs(lines, q) == Costs(lines[..n], q)
  {
    if n < |lines| {
      var init := lines[..|lines| - 1];
      assert init[..n] == lines[..n];
      FirstFailure(init, q, n);
    } else {
      assert lines[..n] == lines;
    }
  }

  /** The amounts added up one after another, as strings. */
  function Total(amounts: seq<string>): (total: string)
    requires AllDecimal(amounts)
    ensures Canonical(total)
  {
    if amounts == [] then
      PrintCanonical(Decimal(0, 0));
      "0"
    else
      var sofar, last := Total(amounts[..|amounts| - 1]), amounts[|amounts| - 1];
      AddExact(sofar, last);
      Add(sofar, last).value
  }

  function Amounts(costs: seq<Cost>): (amounts: seq<string>)
    ensures |amounts| == |costs|
    ensures forall i :: 0 <= i < |costs| ==> amounts[i] == costs[i].amount
  {
    seq(|costs|, i requires 0 <= i < |costs| => costs[i].amount)
  }

  function Of(costs: seq<Cost>, caller: nat): (amounts: seq<string>)
    ensures Priced(costs) ==> AllDecimal(amounts)
  {
    if costs == [] then [] else
    var last := costs[|costs| - 1];
    Of(costs[..|costs| - 1], caller) + (if last.caller == caller then [last.amount] else [])
  }

  function Callers(costs: seq<Cost>): set<nat>
  {
    set i | 0 <= i < |costs| :: costs[i].caller
  }

  // ---- The two ratings ---------------------------------------------------------------

  method RateTotal(lines: seq<Line>, q: Query) returns (r: Result<RatedMoney>)
    ensures r == match Costs(lines, q)
                 case Err(e) => Err(e)
                 case Ok(costs) => RateProviderCost(Total(Amounts(costs)), q.currency, q.terms)
  {
    hide Add, RateProviderCost, SelectedCost, Total, Amounts, Of, Callers, Canonical, IsDecimal;
    TotalOfNone();
    var base := "0";
    var i := 0;
    while i < |lines|
      invariant 0 <= i <= |lines|
      invariant Costs(lines[..i], q).Ok? && base == Total(Amounts(Costs(lines[..i], q).value))
    {
      CostStep(lines, q, i);
      var cost := SelectedCost(lines[i], q);
      if cost.Err? {
        FirstFailure(lines, q, i + 1);
        return Err(cost.error);
      }
      if cost.value.Some? {
        var sum := Add(base, cost.value.value);
        if sum.Err? {
          FirstFailure(lines, q, i + 1);
          return Err(sum.error);
        }
        base := sum.value;
      }
      i := i + 1;
    }
    assert lines[..i] == lines;
    r := RateProviderCost(base, q.currency, q.terms);
  }

  lemma CostsAppend(lines: seq<Line>, q: Query, i: nat)
    requires i < |lines| && Costs(lines[..i], q).Ok?
    ensures var before, after := Costs(lines[..i], q).value, Costs(lines[..i + 1], q);
      match SelectedCost(lines[i], q)
      case Err(e) => after == Err(e)
      case Ok(None) => after == Ok(before)
      case Ok(Some(amount)) =>
        after == if IsDecimal(amount) then Ok(before + [Cost(CallerOf(lines[i], q), amount)]) else Err(DecimalInvalid)
  {
    hide IsDecimal, SelectedCost;
    assert lines[..i + 1][..i] == lines[..i];
  }

  /** What one more line does to the running total, to each caller's, and to the callers. */
  lemma CostStep(lines: seq<Line>, q: Query, i: nat)
    requires i < |lines| && Costs(lines[..i], q).Ok?
    ensures var before, after := Costs(lines[..i], q).value, Costs(lines[..i + 1], q);
      match SelectedCost(lines[i], q)
      case Err(e) => after == Err(e)
      case Ok(None) => after == Ok(before)
      case Ok(Some(amount)) =>
        var caller := CallerOf(lines[i], q);
        (caller !in Callers(before) ==> Total(Of(before, caller)) == "0") &&
        match Add(Total(Amounts(before)), amount)
        case Err(e) => after == Err(e) && Add(Total(Of(before, caller)), amount) == Err(e)
        case Ok(sum) =>
          && after == Ok(before + [Cost(caller, amount)])
          && Total(Amounts(after.value)) == sum
          && Add(Total(Of(before, caller)), amount) == Ok(Total(Of(after.value, caller)))
          && (forall other :: other != caller ==> Of(after.value, other) == Of(before, other))
          && Callers(after.value) == Callers(before) + {caller}
  {
    hide Add, Canonical, IsDecimal, Total, Of, Callers, Amounts, Costs, SelectedCost, CallerOf, Amount;
    CostsAppend(lines, q, i);
    var before := Costs(lines[..i], q).value;
    var cost := SelectedCost(lines[i], q);
    if cost.Ok? && cost.value.Some? {
      var amount, caller := cost.value.value, CallerOf(lines[i], q);
      CanonicalIsDecimal(Total(Amounts(before)));
      CanonicalIsDecimal(Total(Of(before, caller)));
      AddRefuses(Total(Amounts(before)), amount);
      AddRefuses(Total(Of(before, caller)), amount);
      if IsDecimal(amount) {
        AddExact(Total(Amounts(before)), amount);
        AddExact(Total(Of(before, caller)), amount);
        AppendAmount(before, Cost(caller, amount));
        AppendOf(before, Cost(caller, amount));
        AppendCaller(before, Cost(caller, amount));
      }
      if caller !in Callers(before) {
        NoCosts(before, caller);
        TotalOfNone();
      }
    }
  }

  lemma AddRefuses(sum: string, amount: string)
    requires IsDecimal(sum)
    ensures !IsDecimal(amount) ==> Add(sum, amount) == Err(DecimalInvalid)
  {
    hide Print, Parsed;
  }

  lemma TotalOfNone()
    ensures Total([]) == "0"
  {}

  lemma TotalAppend(amounts: seq<string>, amount: string)
    requires AllDecimal(amounts) && IsDecimal(amount)
    ensures Total(amounts + [amount]) == Add(Total(amounts), amount).value
  {
    hide IsDecimal, Add, Canonical;
    assert (amounts + [amount])[..|amounts|] == amounts;
  }

  lemma AppendAmount(costs: seq<Cost>, cost: Cost)
    requires Priced(costs) && IsDecimal(cost.amount)
    ensures Total(Amounts(costs + [cost])) == Add(Total(Amounts(costs)), cost.amount).value
  {
    hide IsDecimal, Add, Canonical, Total;
    TotalAppend(Amounts(costs), cost.amount);
    assert Amounts(costs + [cost]) == Amounts(costs) + [cost.amount];
  }

  lemma AppendOf(costs: seq<Cost>, cost: Cost)
    requires Priced(costs) && IsDecimal(cost.amount)
    ensures Total(Of(costs + [cost], cost.caller)) == Add(Total(Of(costs, cost.caller)), cost.amount).value
    ensures forall other :: other != cost.caller ==> Of(costs + [cost], other) == Of(costs, other)
  {
    hide IsDecimal, Add, Canonical, Total;
    assert (costs + [cost])[..|costs|] == costs;
    TotalAppend(Of(costs, cost.caller), cost.amount);
  }

  lemma AppendCaller(costs: seq<Cost>, cost: Cost)
    ensures Callers(costs + [cost]) == Callers(costs) + {cost.caller}
  {
    var after := costs + [cost];
    assert after[|costs|] == cost;
    forall c | c in Callers(costs) ensures c in Callers(after) {
      var i :| 0 <= i < |costs| && costs[i].caller == c;
      assert after[i].caller == c;
    }
  }

  lemma {:induction false} NoCosts(costs: seq<Cost>, caller: nat)
    requires caller !in Callers(costs)
    ensures Of(costs, caller) == []
  {
    if costs != [] {
      assert costs[|costs| - 1].caller in Callers(costs);
      NoCosts(costs[..|costs| - 1], caller);
    }
  }

  /** The rated totals of all callers, in the order of their names. */
  ghost predicate RatedByCaller(totals: seq<CallerTotal>, costs: seq<Cost>, q: Query)
    requires Priced(costs)
  {
    && (forall i, j :: 0 <= i < j < |totals| ==> totals[i].caller < totals[j].caller)
    && (set t | t in totals :: t.caller) == Callers(costs)
    && forall t :: t in totals ==>
         && t.product == q.product
         && RateProviderCost(Total(Of(costs, t.caller)), q.currency, q.terms) == Ok(t.money)
  }

  /** What every caller's usage costs before rating. */
  ghost function Bases(costs: seq<Cost>): map<nat, string>
    requires Priced(costs)
  {
    map c | c in Callers(costs) :: Total(Of(costs, c))
  }

  lemma BasesStep(lines: seq<Line>, q: Query, i: nat)
    requires i < |lines| && Costs(lines[..i], q).Ok?
    ensures var before, after := Costs(lines[..i], q).value, Costs(lines[..i + 1], q);
      match SelectedCost(lines[i], q)
      case Err(e) => after == Err(e)
      case Ok(None) => after == Ok(before)
      case Ok(Some(amount)) =>
        var caller := CallerOf(lines[i], q);
        var current := if caller in Bases(before) then Bases(before)[caller] else "0";
        match Add(current, amount)
        case Err(e) => after == Err(e)
        case Ok(sum) => after.Ok? && Bases(after.value) == Bases(before)[caller := sum]
  {
    hide Add, SelectedCost, Total, Amounts, Of, Costs, Callers, IsDecimal, Canonical;
    CostStep(lines, q, i);
    var before := Costs(lines[..i], q).value;
    var cost := SelectedCost(lines[i], q);
    if cost.Ok? && cost.value.Some? {
      var caller := CallerOf(lines[i], q);
      assert (if caller in Bases(before) then Bases(before)[caller] else "0") == Total(Of(before, caller));
    }
  }

  lemma NoCallers(costs: seq<Cost>)
    ensures costs == [] ==> Callers(costs) == {}
  {}

  lemma NoBases()
    ensures Bases([]) == map[]
  {}

  method BaseByCaller(lines: seq<Line>, q: Query) returns (r: Result<map<nat, string>>)
    ensures match Costs(lines, q)
            case Err(e) => r == Err(e)
            case Ok(costs) => r == Ok(Bases(costs))
  {
    hide Add, SelectedCost, Bases;
    NoBases();
    var baseByCaller: map<nat, string> := map[];
    var i := 0;
    while i < |lines|
      invariant 0 <= i <= |lines|
      invariant Costs(lines[..i], q).Ok? && baseByCaller == Bases(Costs(lines[..i], q).value)
    {
      BasesStep(lines, q, i);
      var cost := SelectedCost(lines[i], q);
      if cost.Err? {
        FirstFailure(lines, q, i + 1);
        return Err(cost.error);
      }
      if cost.value.Some? {
        var caller := CallerOf(lines[i], q);
        var current := if caller in baseByCaller then baseByCaller[caller] else "0";
        var sum := Add(current, cost.value.value);
        if sum.Err? {
          FirstFailure(lines, q, i + 1);
          return Err(sum.error);
        }
        baseByCaller := baseByCaller[caller := sum.value];
      }
      i := i + 1;
    }
    assert lines[..i] == lines;
    r := Ok(baseByCaller);
  }

  method RateByCaller(lines: seq<Line>, q: Query) returns (r: Result<seq<CallerTotal>>)
    ensures Costs(lines, q).Err? ==> r == Err(Costs(lines, q).error)
    ensures Costs(lines, q).Ok? ==>
      var costs := Costs(lines, q).value;
      if r.Ok? then RatedByCaller(r.value, costs, q)
      else costs != [] && RateProviderCost(Total(Amounts(costs)), q.currency, q.terms) == Err(r.error)
  {
    hide Add, RateProviderCost, SelectedCost, Total, Amounts, Of, Costs, Callers, IsDecimal, Canonical;
    var based := BaseByCaller(lines, q);
    if based.Err? { return Err(based.error); }
    var baseByCaller := based.value;
    ghost var costs := Costs(lines, q).value;
    var callers := Sorting.Listing(baseByCaller.Keys, (a: nat, b: nat) => a < b);
    assert forall j :: 0 <= j < |callers| ==> callers[j] in Sorting.Elements(callers);
    var totals: seq<CallerTotal> := [];
    for n := 0 to |callers|
      invariant |totals| == n
      invariant forall j :: 0 <= j < n ==>
        && totals[j].caller == callers[j] && totals[j].product == q.product
        && RateProviderCost(Total(Of(costs, callers[j])), q.currency, q.terms) == Ok(totals[j].money)
    {
      var money := RateProviderCost(baseByCaller[callers[n]], q.currency, q.terms);
      if money.Err? {
        CanonicalIsDecimal(Total(Of(costs, callers[n])));
        CanonicalIsDecimal(Total(Amounts(costs)));
        assert callers[n] in Callers(costs);
        NoCallers(costs);
        FailureOfTerms(Total(Of(costs, callers[n])), Total(Amounts(costs)), q);
        return Err(money.error);
      }
      totals := totals + [CallerTotal(q.product, callers[n], money.value)];
    }
    NamesOf(totals, callers);
    r := Ok(totals);
  }

  lemma NamesOf(totals: seq<CallerTotal>, callers: seq<nat>)
    requires |totals| == |callers| && forall i :: 0 <= i < |callers| ==> totals[i].caller == callers[i]
    ensures (set t | t in totals :: t.caller) == Sorting.Elements(callers)
  {
    forall c | c in Sorting.Elements(callers) ensures c in set t | t in totals :: t.caller {
      var i :| 0 <= i < |callers| && callers[i] == c;
      assert totals[i] in totals;
    }
  }

  /** Whether rating fails depends on the terms alone. */
  lemma FailureOfTerms(a: string, b: string, q: Query)
    requires IsDecimal(a) && IsDecimal(b)
    requires RateProviderCost(a, q.currency, q.terms).Err?
    ensures RateProviderCost(a, q.currency, q.terms) == RateProviderCost(b, q.currency, q.terms)
  {
    hide IsDecimal, Print, Marked, Parsed;
    RatingExact(a, q);
    RatingExact(b, q);
  }

  /** A rating is exact: the total is the marked-up base, and base plus markup unless usage is free. */
  lemma RatingExact(amount: string, q: Query)
    requires IsDecimal(amount)
    ensures var r := RateProviderCost(amount, q.currency, q.terms);
      var multiplier := Multiplier(q.terms);
      if multiplier.Err? then r == Err(multiplier.error)
      else if multiplier.value > MAX_SAFE_INTEGER then r == Err(MultiplierInvalid)
      else
        && r.Ok? && r.value.base == amount && r.value.currency == q.currency
        && Canonical(r.value.total) && Canonical(r.value.markup)
        && Amount(r.value.total) * 10000.0 == Amount(amount) * multiplier.value as real
        && (q.terms.mode.Free? ==> r.value.markup == "0" && Amount(r.value.markup) == 0.0)
        && (!q.terms.mode.Free? ==> Amount(r.value.markup) == Amount(r.value.total) - Amount(amount))
  {
    hide Print, Marked, Parsed, Value, Canonical, Difference, IsDecimal;
    var multiplier := Multiplier(q.terms);
    if multiplier.Ok? && multiplier.value <= MAX_SAFE_INTEGER {
      MultiplyExact(amount, multiplier.value);
      ZeroCanonical();
      var total := MultiplyByBps(amount, multiplier.value).value;
      CanonicalIsDecimal(total);
      SubtractExact(total, amount);
    }
  }

  lemma ZeroCanonical()
    ensures Canonical("0") && Amount("0") == 0.0
  {
    PrintCanonical(Decimal(0, 0));
  }

  lemma CanonicalIsDecimal(s: string)
    requires Canonical(s)
    ensures IsDecimal(s)
  {}

  // ---- Grouping loses nothing ---------------------------------------------------------

  ghost function AmountSum(amounts: seq<string>): real
    requires AllDecimal(amounts)
  {
    if amounts == [] then 0.0 else AmountSum(amounts[..|amounts| - 1]) + Amount(amounts[|amounts| - 1])
  }

  lemma {:induction false} TotalIsSum(amounts: seq<string>)
    requires AllDecimal(amounts)
    ensures Canonical(Total(amounts)) && Amount(Total(amounts)) == AmountSum(amounts)
  {
    hide Add, Canonical, IsDecimal, Amount;
    if amounts == [] {
      ZeroCanonical();
    } else {
      var init, last := amounts[..|amounts| - 1], amounts[|amounts| - 1];
      TotalIsSum(init);
      CanonicalIsDecimal(Total(init));
      AddExact(Total(init), last);
    }
  }

  function Without(costs: seq<Cost>, caller: nat): seq<Cost>
  {
    if costs == [] then [] else
    var last := costs[|costs| - 1];
    Without(costs[..|costs| - 1], caller) + (if last.caller == caller then [] else [last])
  }

  lemma {:induction false} WithoutMembers(costs: seq<Cost>, caller: nat)
    ensures forall c :: c in Without(costs, caller) <==> c in costs && c.caller != caller
  {
    if costs != [] {
      assert costs == costs[..|costs| - 1] + [costs[|costs| - 1]];
      WithoutMembers(costs[..|costs| - 1], caller);
    }
  }

  lemma SumAppend(amounts: seq<string>, amount: string)
    requires AllDecimal(amounts) && IsDecimal(amount)
    ensures AllDecimal(amounts + [amount])
    ensures AmountSum(amounts + [amount]) == AmountSum(amounts) + Amount(amount)
  {
    hide IsDecimal, Amount;
    assert (amounts + [amount])[..|amounts|] == amounts;
  }

  /** Taking one caller's usage aside splits the sum. */
  lemma {:induction false} SetAside(costs: seq<Cost>, caller: nat)
    requires Priced(costs)
    ensures var rest := Without(costs, caller);
      Priced(rest) && AmountSum(Amounts(costs)) == AmountSum(Of(costs, caller)) + AmountSum(Amounts(rest))
  {
    hide IsDecimal, Amount, AmountSum, Of, Without, Amounts;
    if costs == [] {
      NoAmounts();
      NothingAside(caller);
    } else {
      var init, last := costs[..|costs| - 1], costs[|costs| - 1];
      SetAside(init, caller);
      assert costs == init + [last];
      AsideStep(init, last, caller);
      SumAppend(Amounts(init), last.amount);
      if last.caller == caller {
        SumAppend(Of(init, caller), last.amount);
      } else {
        SumAppend(Amounts(Without(init, caller)), last.amount);
      }
    }
  }

  lemma NothingAside(caller: nat)
    ensures Of([], caller) == [] && Without([], caller) == [] && Amounts([]) == []
  {}

  lemma AsideStep(init: seq<Cost>, last: Cost, caller: nat)
    ensures Amounts(init + [last]) == Amounts(init) + [last.amount]
    ensures last.caller == caller ==>
      Of(init + [last], caller) == Of(init, caller) + [last.amount]
      && Without(init + [last], caller) == Without(init, caller)
    ensures last.caller != caller ==>
      Of(init + [last], caller) == Of(init, caller)
      && Without(init + [last], caller) == Without(init, caller) + [last]
      && Amounts(Without(init + [last], caller)) == Amounts(Without(init, caller)) + [last.amount]
  {
    assert (init + [last])[..|init|] == init;
  }

  /** Setting one caller's usage aside leaves the others' alone. */
  lemma {:induction false} OthersKept(costs: seq<Cost>, caller: nat, other: nat)
    requires other != caller
    ensures Of(Without(costs, caller), other) == Of(costs, other)
  {
    hide Amounts, IsDecimal;
    if costs != [] {
      var init, last := costs[..|costs| - 1], costs[|costs| - 1];
      OthersKept(init, caller, other);
      assert costs == init + [last];
      AsideStep(init, last, caller);
      OfStep(init, last, other);
      OfStep(Without(init, caller), last, other);
    }
  }

  lemma OfStep(init: seq<Cost>, last: Cost, caller: nat)
    ensures Of(init + [last], caller) == Of(init, caller) + (if last.caller == caller then [last.amount] else [])
  {
    assert (init + [last])[..|init|] == init;
  }

  lemma NoAmounts()
    ensures AmountSum([]) == 0.0
  {}

  /** The value of the callers' groups, one after another. */
  ghost function GroupSum(costs: seq<Cost>, callers: seq<nat>): real
    requires Priced(costs)
  {
    if callers == [] then 0.0
    else GroupSum(costs, callers[..|callers| - 1]) + AmountSum(Of(costs, callers[|callers| - 1]))
  }

  lemma {:induction false} GroupsOnlyRead(a: seq<Cost>, b: seq<Cost>, callers: seq<nat>)
    requires Priced(a) && Priced(b)
    requires forall c :: c in callers ==> Of(a, c) == Of(b, c)
    ensures GroupSum(a, callers) == GroupSum(b, callers)
  {
    if callers != [] { GroupsOnlyRead(a, b, callers[..|callers| - 1]); }
  }

  lemma HasFirst(costs: seq<Cost>)
    ensures costs != [] ==> costs[0] in costs
  {}

  lemma {:induction false} GroupsAddUp(costs: seq<Cost>, callers: seq<nat>)
    requires Priced(costs) && Sorting.Distinct(callers)
    requires forall c :: c in costs ==> c.caller in callers
    ensures GroupSum(costs, callers) == AmountSum(Amounts(costs))
    decreases |callers|
  {
    hide IsDecimal, Amount, AmountSum;
    if callers == [] {
      HasFirst(costs);
      assert Amounts(costs) == [];
      NoAmounts();
    } else {
      var init, last := callers[..|callers| - 1], callers[|callers| - 1];
      SetAside(costs, last);
      WithoutMembers(costs, last);
      var rest := Without(costs, last);
      assert callers == init + [last];
      forall other | other in init ensures Of(rest, other) == Of(costs, other) {
        assert other != last;
        OthersKept(costs, last, other);
      }
      GroupsAddUp(rest, init);
      GroupsOnlyRead(rest, costs, init);
    }
  }

  function BaseAmounts(totals: seq<CallerTotal>): seq<string>
  {
    seq(|totals|, i requires 0 <= i < |totals| => totals[i].money.base)
  }

  function MarkupAmounts(totals: seq<CallerTotal>): seq<string>
  {
    seq(|totals|, i requires 0 <= i < |totals| => totals[i].money.markup)
  }

  function TotalAmounts(totals: seq<CallerTotal>): seq<string>
  {
    seq(|totals|, i requires 0 <= i < |totals| => totals[i].money.total)
  }

  function Names(totals: seq<CallerTotal>): seq<nat>
  {
    seq(|totals|, i requires 0 <= i < |totals| => totals[i].caller)
  }

  lemma {:induction false} RatedGroups(totals: seq<CallerTotal>, costs: seq<Cost>, q: Query)
    requires Priced(costs)
    requires Multiplier(q.terms).Ok? && Multiplier(q.terms).value <= MAX_SAFE_INTEGER
    requires forall t :: t in totals ==>
      RateProviderCost(Total(Of(costs, t.caller)), q.currency, q.terms) == Ok(t.money)
    ensures AllDecimal(BaseAmounts(totals)) && AllDecimal(TotalAmounts(totals)) && AllDecimal(MarkupAmounts(totals))
    ensures AmountSum(BaseAmounts(totals)) == GroupSum(costs, Names(totals))
    ensures AmountSum(TotalAmounts(totals)) * 10000.0
         == GroupSum(costs, Names(totals)) * Multiplier(q.terms).value as real
    ensures AmountSum(MarkupAmounts(totals))
         == if q.terms.mode.Free? then 0.0 else AmountSum(TotalAmounts(totals)) - AmountSum(BaseAmounts(totals))
  {
    hide IsDecimal, Amount, AmountSum, Of, Total, RateProviderCost, Multiplier, Canonical, GroupSum;
    if totals == [] {
      NoAmounts();
      NoGroups(costs);
      assert BaseAmounts(totals) == [] && TotalAmounts(totals) == [] && MarkupAmounts(totals) == [] && Names(totals) == [];
    } else {
      var init, last := totals[..|totals| - 1], totals[|totals| - 1];
      RatedGroups(init, costs, q);
      var base := Total(Of(costs, last.caller));
      TotalIsSum(Of(costs, last.caller));
      CanonicalIsDecimal(base);
      RatingExact(base, q);
      CanonicalIsDecimal(last.money.total);
      CanonicalIsDecimal(last.money.markup);
      SumAppend(BaseAmounts(init), base);
      SumAppend(TotalAmounts(init), last.money.total);
      SumAppend(MarkupAmounts(init), last.money.markup);
      GroupAppend(costs, Names(init), last.caller);
      assert BaseAmounts(totals) == BaseAmounts(init) + [base];
      assert TotalAmounts(totals) == TotalAmounts(init) + [last.money.total];
      assert MarkupAmounts(totals) == MarkupAmounts(init) + [last.money.markup];
      assert Names(totals) == Names(init) + [last.caller];
      Distributes(GroupSum(costs, Names(init)), Amount(base), Multiplier(q.terms).value as real);
    }
  }

  lemma Distributes(a: real, b: real, m: real)
    ensures (a + b) * m == a * m + b * m
  {}

  lemma NoGroups(costs: seq<Cost>)
    requires Priced(costs)
    ensures GroupSum(costs, []) == 0.0
  {}

  lemma GroupAppend(costs: seq<Cost>, callers: seq<nat>, caller: nat)
    requires Priced(costs)
    ensures GroupSum(costs, callers + [caller]) == GroupSum(costs, callers) + AmountSum(Of(costs, caller))
  {
    hide AmountSum, Of, IsDecimal;
    assert (callers + [caller])[..|callers|] == callers;
  }

  /**
   * Grouping loses nothing: in every mode and for every markup the callers' bases, markups
   * and totals add up to those of the same usage rated as a whole, as the very same strings.
   */
  lemma GroupingLosesNothing(totals: seq<CallerTotal>, whole: RatedMoney, costs: seq<Cost>, q: Query)
    requires Priced(costs) && RatedByCaller(totals, costs, q)
    requires RateProviderCost(Total(Amounts(costs)), q.currency, q.terms) == Ok(whole)
    ensures AllDecimal(BaseAmounts(totals)) && Total(BaseAmounts(totals)) == whole.base
    ensures AllDecimal(MarkupAmounts(totals)) && Total(MarkupAmounts(totals)) == whole.markup
    ensures AllDecimal(TotalAmounts(totals)) && Total(TotalAmounts(totals)) == whole.total
  {
    hide IsDecimal, Amount, AmountSum, Of, Total, RateProviderCost, Multiplier, Canonical, GroupSum, Callers;
    var base := Total(Amounts(costs));
    TotalIsSum(Amounts(costs));
    CanonicalIsDecimal(base);
    RatingExact(base, q);
    RatedGroups(totals, costs, q);
    NamesCover(totals, costs, q);
    GroupsAddUp(costs, Names(totals));
    SameAmount(BaseAmounts(totals), whole.base);
    SameAmount(TotalAmounts(totals), whole.total);
    SameAmount(MarkupAmounts(totals), whole.markup);
  }

  lemma SameAmount(amounts: seq<string>, amount: string)
    requires AllDecimal(amounts) && Canonical(amount) && Amount(amount) == AmountSum(amounts)
    ensures Total(amounts) == amount
  {
    hide Total, AmountSum, Print, Parsed, Value;
    TotalIsSum(amounts);
    CanonicalDecides(Total(amounts), amount);
  }

  lemma NamesCover(totals: seq<CallerTotal>, costs: seq<Cost>, q: Query)
    requires Priced(costs) && RatedByCaller(totals, costs, q)
    ensures Sorting.Distinct(Names(totals))
    ensures forall c :: c in costs ==> c.caller in Names(totals)
  {
    hide RateProviderCost;
    forall c | c in costs ensures c.caller in Names(totals) {
      assert c.caller in Callers(costs);
      var t :| t in totals && t.caller == c.caller;
      var i :| 0 <= i < |totals| && totals[i] == t;
      assert Names(totals)[i] == c.caller;
    }
  }

  // ---- The terms and the lines, spelled out --------------------------------------------------

  /**
   * The total is the base in full, plus the markup where the terms have one; free usage costs
   * nothing. Terms are refused for a markup that is negative, too large, or given for usage that is
   * free or at cost.
   */
  lemma RatingByMode(amount: string, currency: string, terms: Terms)
    requires IsDecimal(amount)
    ensures var r := RateProviderCost(amount, currency, terms);
      var unmarked := terms.mode.Free? || terms.mode.AtCost?;
      if terms.markupBps < 0 || terms.markupBps > 9007199254740991 || (unmarked && terms.markupBps != 0)
      then r == Err(RatingTermsInvalid)
      else if 10_000 + terms.markupBps > 9007199254740991 then r == Err(MultiplierInvalid)
      else
        && r.Ok? && r.value.base == amount && r.value.currency == currency
        && IsDecimal(r.value.total) && IsDecimal(r.value.markup)
        && (terms.mode.Free? ==> r.value.total == "0" && r.value.markup == "0")
        && (!terms.mode.Free? ==>
              && Amount(r.value.total) == Amount(amount) + Amount(r.value.markup)
              && Amount(r.value.markup) == Amount(amount) * terms.markupBps as real / 10_000.0)
  {
    hide Print, Marked, Parsed, Value, Canonical, Difference, IsDecimal;
    var multiplier := Multiplier(terms);
    if multiplier.Ok? && multiplier.value <= MAX_SAFE_INTEGER {
      MultiplyExact(amount, multiplier.value);
      ZeroCanonical();
      CanonicalIsDecimal("0");
      var total := MultiplyByBps(amount, multiplier.value).value;
      CanonicalIsDecimal(total);
      SubtractExact(total, amount);
      if terms.mode.Free? {
        CanonicalDecides(total, "0");
      } else {
        CanonicalIsDecimal(Subtract(total, amount).value);
        Distributes(10_000.0, terms.markupBps as real, Amount(amount));
      }
    }
  }

  /** The line is of the product and has a cost in its currency, or none where that is let pass. */
  predicate Meters(line: Line, q: Query)
  {
    && line.product == q.product
    && match line.cost
       case None => line.currency.None? && q.skipMissing
       case Some(cost) => line.currency == Some(q.currency) && IsDecimal(cost)
  }

  /** What the lines cost: those of one caller, or of all. A line without a caller is the product's own. */
  ghost function Metered(lines: seq<Line>, q: Query, caller: Option<nat>): real
  {
    if lines == [] then 0.0 else
    var last := lines[|lines| - 1];
    var mine := if last.caller.Some? then last.caller.value else q.unattributed;
    Metered(lines[..|lines| - 1], q, caller)
    + (if last.cost.Some? && IsDecimal(last.cost.value) && (caller.None? || caller == Some(mine))
       then Amount(last.cost.value) else 0.0)
  }

  /** Usage can be rated exactly when every line can be, and every line then counts in full. */
  lemma {:induction false} CostsAreMetered(lines: seq<Line>, q: Query, caller: nat)
    ensures Costs(lines, q).Ok? <==> forall line :: line in lines ==> Meters(line, q)
    ensures Costs(lines, q).Ok? ==>
      var costs := Costs(lines, q).value;
      && AllDecimal(Amounts(costs)) && AmountSum(Amounts(costs)) == Metered(lines, q, None)
      && AmountSum(Of(costs, caller)) == Metered(lines, q, Some(caller))
  {
    hide IsDecimal, Amount, AmountSum, Amounts, Of, Meters, SelectedCost;
    if lines == [] {
      NothingMetered(caller);
    } else {
      var init, last := lines[..|lines| - 1], lines[|lines| - 1];
      assert forall line :: line in lines <==> line in init || line == last;
      CostsAreMetered(init, q, caller);
      LineMeters(last, q);
      if Costs(init, q).Ok? && SelectedCost(last, q).Ok? && last.cost.Some? && IsDecimal(last.cost.value) {
        MeteredAppend(Costs(init, q).value, Cost(CallerOf(last, q), last.cost.value), caller);
      }
    }
  }

  lemma LineMeters(line: Line, q: Query)
    ensures Meters(line, q)
      <==> SelectedCost(line, q).Ok? && (SelectedCost(line, q).value.Some? ==> IsDecimal(SelectedCost(line, q).value.value))
    ensures Meters(line, q) ==> SelectedCost(line, q).value == line.cost
  {}

  lemma NothingMetered(caller: nat)
    ensures AmountSum(Amounts([])) == 0.0 && AmountSum(Of([], caller)) == 0.0
  {}

  lemma MeteredAppend(costs: seq<Cost>, cost: Cost, caller: nat)
    requires Priced(costs) && IsDecimal(cost.amount)
    ensures AmountSum(Amounts(costs + [cost])) == AmountSum(Amounts(costs)) + Amount(cost.amount)
    ensures AmountSum(Of(costs + [cost], caller))
         == AmountSum(Of(costs, caller)) + (if cost.caller == caller then Amount(cost.amount) else 0.0)
  {
    hide IsDecimal, Amount, AmountSum;
    assert (costs + [cost])[..|costs|] == costs;
    assert Amounts(costs + [cost]) == Amounts(costs) + [cost.amount];
    SumAppend(Amounts(costs), cost.amount);
    SumAppend(Of(costs, caller), cost.amount);
    assert Of(costs, caller) + [] == Of(costs, caller);
  }

  /** The first line that cannot be rated decides why the usage cannot. */
  lemma FirstRefused(lines: seq<Line>, q: Query, n: nat)
    requires n < |lines| && (forall i :: 0 <= i < n ==> Meters(lines[i], q)) && !Meters(lines[n], q)
    ensures var line := lines[n];
      Costs(lines, q)
      == Err(if line.product != q.product then ProductMismatch
             else if line.cost.None? && line.currency.None? then CostMissing
             else if line.cost.None? || line.currency != Some(q.currency) then CostMismatch
             else DecimalInvalid)
  {
    hide Meters, SelectedCost, IsDecimal;
    CostsAreMetered(lines[..n], q, 0);
    LineMeters(lines[n], q);
    CostsAppend(lines, q, n);
    RefusedAs(lines[n], q);
    FirstFailure(lines, q, n + 1);
  }

  lemma RefusedAs(line: Line, q: Query)
    requires !Meters(line, q)
    ensures var refusal := if line.product != q.product then ProductMismatch
                           else if line.cost.None? && line.currency.None? then CostMissing
                           else if line.cost.None? || line.currency != Some(q.currency) then CostMismatch
                           else DecimalInvalid;
      match SelectedCost(line, q)
      case Err(e) => e == refusal
      case Ok(cost) => cost.Some? && !IsDecimal(cost.value) && refusal == DecimalInvalid
  {}
}
