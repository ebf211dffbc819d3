/** Why settling a portfolio keeps the account coherent. */
module LedgerSettlement {
  import opened Prelude
  import opened Buckets
  import opened Sums
  import opened CreditRating
  import opened Ledger
  import opened LedgerRows
  import opened LedgerInvariants

  // ---- One service ---------------------------------------------------------------------------

  /** What a rating guarantees of each service it lists. */
  ghost predicate WellRated(r: RatedService)
  {
    AddsUp(r) && forall a :: a in r.allocations ==> a.consumed % 10 == 0
  }

  /** What holds between the writes of one transaction, too. */
  ghost predicate Coherent(s: State)
  {
    && Chained(s) && Conserved(s) && Posted(s.entries, s.orders)
    && RowsAgree(s.rows, s.settlements) && RowsWhole(s.rows) && RowsTelescope(s.rows)
    && RowsNumbered(s.rows, s.corrections) && CorrectionsTelescope(s.corrections) && TotalsCurrent(s)
  }

  lemma ApplyMoney(s: State, key: SettlementKey, snapshot: Cursor, r: RatedService)
    requires key in s.settlements && Chained(s) && Conserved(s)
    ensures var after := ApplyRatedService(s, key, snapshot, r);
      && Chained(after) && Conserved(after)
      && after.orders == s.orders && after.adjustments == s.adjustments && after.snapshots == s.snapshots
      && after.balance == s.balance - ConsumedDelta(s, key, r)
  {
    hide ClawedBack, Paid, ChangedRows, UsersOf, NextSequence, Chained;
    var after := ApplyRatedService(s, key, snapshot, r);
    var source := Usage(key, snapshot, s.settlements[key].total == ZERO);
    var posted := Post(s, source, -ConsumedDelta(s, key, r));
    PostChained(s, source, -ConsumedDelta(s, key, r));
    SameChain(if ConsumedDelta(s, key, r) == 0 then s else posted, after);
    assert ConsumedBy(after.settlements) == ConsumedBy(s.settlements)[key := r.consumed];
    SumUpdate(ConsumedBy(s.settlements), key, r.consumed);
    SamePaid(s, after);
  }

  lemma SamePaid(s: State, t: State)
    requires s.orders == t.orders
    ensures Paid(s) == Paid(t)
  {}

  lemma ApplyRowsAgree(rows: seq<Row>, settlements: map<SettlementKey, Settlement>, key: SettlementKey, r: RatedService,
                       sequence: nat, after: seq<Row>)
    requires key in settlements && AddsUp(r) && RowsAgree(rows, settlements)
    requires after == rows + ChangedRows(UsersOf(rows, key, r), rows, key, r, sequence)
    ensures RowsAgree(after, settlements[key := settlements[key].(total := TotalOf(r))])
  {
    hide Latest, ChangedRows, UsersOf, TargetOf, AddsUp;
    LatestIsTruth(rows, key, r, sequence);
    var updated := settlements[key := settlements[key].(total := TotalOf(r))];
    forall x | x in Latest(after) ensures x.settlement in updated {
      assert x.settlement != key ==> x in Latest(rows);
    }
    forall k, f | k in updated ensures Sum(Figures(Latest(after), k, f)) == Pick(updated[k].total, f) {
      if k == key {
        forall x: Subject | x.settlement == key
          ensures (if x in Latest(after) then Latest(after)[x] else ZERO) == TargetOf(r.allocations, x.user)
        {
          assert Cumulative(after, x) == TargetOf(r.allocations, x.user);
        }
        FiguresAddUp(Latest(after), key, r, f);
      } else {
        SameFigures(rows, after, k, f);
      }
    }
  }

  lemma SameFigures(rows: seq<Row>, after: seq<Row>, k: SettlementKey, f: Field)
    requires forall x: Subject :: x.settlement == k ==>
      Cumulative(after, x) == Cumulative(rows, x) && (x in Latest(after) <==> x in Latest(rows))
    ensures Figures(Latest(after), k, f) == Figures(Latest(rows), k, f)
  {
    hide Latest;
    forall x | x in Latest(rows) && x.settlement == k ensures Latest(after)[x] == Latest(rows)[x] {
      assert Cumulative(after, x) == Cumulative(rows, x);
    }
  }

  lemma {:induction false} TargetWhole(allocations: seq<Allocation>, user: UserId)
    requires forall a :: a in allocations ==> a.consumed % 10 == 0
    ensures TargetOf(allocations, user).consumed >= 0 && TargetOf(allocations, user).consumed % 10 == 0
  {
    if allocations != [] {
      assert allocations[|allocations| - 1] in allocations;
      TargetWhole(allocations[..|allocations| - 1], user);
    }
  }

  lemma ApplyRowsWhole(rows: seq<Row>, key: SettlementKey, r: RatedService, sequence: nat, after: seq<Row>)
    requires WellRated(r) && RowsWhole(rows)
    requires after == rows + ChangedRows(UsersOf(rows, key, r), rows, key, r, sequence)
    ensures RowsWhole(after)
  {
    hide Latest, ChangedRows, UsersOf, TargetOf, AddsUp;
    LatestIsTruth(rows, key, r, sequence);
    forall x | x in Latest(after) ensures Latest(after)[x].consumed >= 0 && Latest(after)[x].consumed % 10 == 0 {
      assert Latest(after)[x] == Cumulative(after, x);
      if x.settlement == key {
        TargetWhole(r.allocations, x.user);
      } else {
        assert Cumulative(rows, x) == Latest(rows)[x];
      }
    }
  }

  lemma {:induction false} ChangedRowsTelescope(users: seq<UserId>, rows: seq<Row>, key: SettlementKey, r: RatedService,
                                                sequence: nat)
    requires UsersDistinct(users) && RowsTelescope(rows)
    ensures RowsTelescope(rows + ChangedRows(users, rows, key, r, sequence))
  {
    if users == [] {
      assert rows + [] == rows;
    } else {
      var init, user := users[..|users| - 1], users[|users| - 1];
      ChangedRowsTelescope(init, rows, key, r, sequence);
      ChangedRowsTell(init, rows, key, r, sequence);
      var before := rows + ChangedRows(init, rows, key, r, sequence);
      assert user !in init;
      assert Cumulative(before, Subject(key, user)) == Cumulative(rows, Subject(key, user));
      var total := TargetOf(r.allocations, user);
      var delta := Minus(total, Cumulative(rows, Subject(key, user)));
      var row := Row(key, user, sequence, delta, total);
      TelescopeAppend(before, row);
      assert rows + (ChangedRows(init, rows, key, r, sequence) + [row]) == before + [row];
      assert rows + (ChangedRows(init, rows, key, r, sequence) + []) == before;
    }
  }

  lemma TelescopeAppend(rows: seq<Row>, row: Row)
    requires RowsTelescope(rows)
    requires row.delta == Minus(row.total, Cumulative(rows, Subject(row.settlement, row.user)))
    ensures RowsTelescope(rows + [row])
  {
    hide Cumulative;
    var after := rows + [row];
    forall i | 0 <= i < |after|
      ensures after[i].delta == Minus(after[i].total, Cumulative(after[..i], Subject(after[i].settlement, after[i].user)))
    {
      assert i < |rows| ==> after[..i] == rows[..i];
      assert i == |rows| ==> after[..i] == rows;
    }
  }

  lemma CorrectionAppend(corrections: seq<Correction>, c: Correction)
    ensures forall k ::
      LastCorrection(corrections + [c], k) == if c.settlement == k then Some(c) else LastCorrection(corrections, k)
    ensures forall k, snapshot ::
      ReplayOf(corrections + [c], k, snapshot)
      == if c.settlement == k && c.snapshot == snapshot then Some(c) else ReplayOf(corrections, k, snapshot)
  {
    assert (corrections + [c])[..|corrections|] == corrections;
  }

  lemma ApplyCorrections(s: State, key: SettlementKey, snapshot: Cursor, r: RatedService)
    requires key in s.settlements && CorrectionsTelescope(s.corrections) && TotalsCurrent(s)
    ensures var after := ApplyRatedService(s, key, snapshot, r);
      CorrectionsTelescope(after.corrections) && TotalsCurrent(after)
  {
    hide ChangedRows, UsersOf, LastCorrection;
    var after := ApplyRatedService(s, key, snapshot, r);
    var c := after.corrections[|s.corrections|];
    CorrectionAppend(s.corrections, c);
    assert s.settlements[key].total
      == if LastCorrection(s.corrections, key).Some? then LastCorrection(s.corrections, key).value.total else ZERO;
    forall i | 0 <= i < |after.corrections|
      ensures var x, last := after.corrections[i], LastCorrection(after.corrections[..i], after.corrections[i].settlement);
        && x.delta == Minus(x.total, if last.Some? then last.value.total else ZERO)
        && x.sequence == if last.Some? then last.value.sequence + 1 else 1
    {
      assert i < |s.corrections| ==> after.corrections[..i] == s.corrections[..i];
      assert i == |s.corrections| ==> after.corrections[..i] == s.corrections;
    }
  }

  lemma {:induction false} ChangedRowsNumbered(users: seq<UserId>, rows: seq<Row>, key: SettlementKey, r: RatedService,
                                               sequence: nat)
    requires UsersDistinct(users)
    ensures var changed := ChangedRows(users, rows, key, r, sequence);
      && (forall row :: row in changed ==> row.settlement == key && row.user in users && row.sequence == sequence)
      && forall i, j :: 0 <= i < j < |changed| ==> changed[i].user != changed[j].user
  {
    hide Cumulative, TargetOf;
    if users != [] {
      var init, user := users[..|users| - 1], users[|users| - 1];
      assert forall u :: u in users <==> u in init || u == user;
      assert user !in init;
      ChangedRowsNumbered(init, rows, key, r, sequence);
      var before := ChangedRows(init, rows, key, r, sequence);
      forall i | 0 <= i < |before| ensures before[i].user != user { assert before[i] in before; }
    }
  }

  lemma ApplyNumbers(s: State, key: SettlementKey, snapshot: Cursor, r: RatedService)
    requires key in s.settlements && RowsNumbered(s.rows, s.corrections)
    ensures var after := ApplyRatedService(s, key, snapshot, r); RowsNumbered(after.rows, after.corrections)
  {
    hide ChangedRows, UsersOf, LastCorrection;
    UsersOfAre(s.rows, key, r);
    var sequence := NextSequence(s, key);
    ChangedRowsNumbered(UsersOf(s.rows, key, r), s.rows, key, r, sequence);
    var changed := ChangedRows(UsersOf(s.rows, key, r), s.rows, key, r, sequence);
    var after := ApplyRatedService(s, key, snapshot, r);
    CorrectionAppend(s.corrections, after.corrections[|s.corrections|]);
    assert after.rows == s.rows + changed;
    forall row | row in after.rows
      ensures var last := LastCorrection(after.corrections, row.settlement);
        last.Some? && row.sequence <= last.value.sequence
    {
      assert row in s.rows || row in changed;
    }
    NumbersAppend(s.rows, changed, s.corrections, key, sequence);
  }

  lemma NumbersAppend(rows: seq<Row>, changed: seq<Row>, corrections: seq<Correction>, key: SettlementKey, sequence: nat)
    requires RowsNumbered(rows, corrections)
    requires forall row :: row in changed ==> row.settlement == key && row.sequence == sequence
    requires forall i, j :: 0 <= i < j < |changed| ==> changed[i].user != changed[j].user
    requires var last := LastCorrection(corrections, key); last.Some? ==> last.value.sequence < sequence
    ensures NumbersGrow(rows + changed)
  {
    hide LastCorrection;
    var all := rows + changed;
    forall i, j | 0 <= i < j < |all| && all[i].settlement == all[j].settlement && all[i].user == all[j].user
      ensures all[i].sequence < all[j].sequence
    {
      if j >= |rows| {
        assert all[j] == changed[j - |rows|] && all[j] in changed;
        if i < |rows| {
          assert all[i] in rows;
        }
      }
    }
  }

  lemma ApplyPosted(s: State, key: SettlementKey, snapshot: Cursor, r: RatedService)
    requires key in s.settlements && Posted(s.entries, s.orders)
    ensures var after := ApplyRatedService(s, key, snapshot, r); Posted(after.entries, after.orders)
  {
    hide Posted, ChangedRows, UsersOf, NextSequence;
    var delta := -ConsumedDelta(s, key, r);
    PostedOther(s.entries, s.orders,
      Entry(Usage(key, snapshot, s.settlements[key].total == ZERO), delta, s.balance + delta));
  }

  lemma ApplyCoherent(s: State, key: SettlementKey, snapshot: Cursor, r: RatedService)
    requires key in s.settlements && Coherent(s) && WellRated(r)
    ensures Coherent(ApplyRatedService(s, key, snapshot, r))
  {
    hide Chained, Conserved, Posted, RowsAgree, RowsWhole, RowsTelescope, RowsNumbered, CorrectionsTelescope, TotalsCurrent;
    ApplyPosted(s, key, snapshot, r);
    ApplyMoney(s, key, snapshot, r);
    ApplyNumbers(s, key, snapshot, r);
    ApplyCorrections(s, key, snapshot, r);
    var after := ApplyRatedService(s, key, snapshot, r);
    var sequence := NextSequence(s, key);
    ApplyRowsAgree(s.rows, s.settlements, key, r, sequence, after.rows);
    ApplyRowsWhole(s.rows, key, r, sequence, after.rows);
    UsersOfAre(s.rows, key, r);
    ChangedRowsTelescope(UsersOf(s.rows, key, r), s.rows, key, r, sequence);
  }

  // ---- All services of a portfolio --------------------------------------------------------------

  ghost predicate DistinctServices(work: seq<RatedService>)
  {
    forall i, j :: 0 <= i < j < |work| ==> work[i].service != work[j].service
  }

  ghost function ServicesOf(work: seq<RatedService>): set<ServiceId>
  {
    set r | r in work :: r.service
  }

  function DeltaOf(s: State, month: Month, r: RatedService): int
  {
    var key := SettlementKey(month, r.service);
    if key in s.settlements then ConsumedDelta(s, key, r) else 0
  }

  function DeltaSum(s: State, month: Month, work: seq<RatedService>): int
  {
    if work == [] then 0 else DeltaSum(s, month, work[..|work| - 1]) + DeltaOf(s, month, work[|work| - 1])
  }

  /** The account after the given services have been corrected, and nothing else. */
  ghost predicate Corrected(s: State, p: Portfolio, done: set<ServiceId>, after: State)
  {
    && after.orders == s.orders && after.adjustments == s.adjustments && after.snapshots == s.snapshots
    && after.settlements.Keys == s.settlements.Keys
    && (forall k :: k in s.settlements && !(k.month == p.month && k.service in done) ==>
          after.settlements[k] == s.settlements[k])
    && (forall k ::
          var last := LastCorrection(after.corrections, k);
          if k.month == p.month && k.service in done then
            last.Some? && last.value.snapshot == p.cursor && ReplayOf(after.corrections, k, p.cursor).Some?
          else last == LastCorrection(s.corrections, k))
    && (forall k, c :: ReplayOf(s.corrections, k, c).Some? ==> ReplayOf(after.corrections, k, c).Some?)
    && (forall c :: c in after.corrections ==>
          c in s.corrections
          || (c.snapshot == p.cursor && c.settlement.month == p.month && c.settlement in s.settlements))
  }

  lemma NothingCorrected(s: State, p: Portfolio)
    ensures Corrected(s, p, {}, s)
  {}

  lemma OneMoreCorrected(s: State, p: Portfolio, done: set<ServiceId>, mid: State, r: RatedService)
    requires Corrected(s, p, done, mid) && SettlementKey(p.month, r.service) in mid.settlements
    ensures Corrected(s, p, done + {r.service},
      ApplyRatedService(mid, SettlementKey(p.month, r.service), p.cursor, r))
  {
    hide LastCorrection, ReplayOf, ChangedRows, UsersOf;
    var key := SettlementKey(p.month, r.service);
    var after := ApplyRatedService(mid, key, p.cursor, r);
    var c := after.corrections[|mid.corrections|];
    assert after.corrections == mid.corrections + [c];
    CorrectionAppend(mid.corrections, c);
    assert forall x :: x in after.corrections <==> x in mid.corrections || x == c;
  }

  lemma {:induction false} ApplyAllEffect(s: State, p: Portfolio, work: seq<RatedService>)
    requires DistinctServices(work) && Coherent(s) && (forall r :: r in work ==> WellRated(r))
    requires ApplyAll(s, p, work).Ok?
    ensures var after := ApplyAll(s, p, work).value;
      && Coherent(after) && Corrected(s, p, ServicesOf(work), after)
      && after.balance == s.balance - DeltaSum(s, p.month, work)
  {
    hide Coherent, WellRated, Corrected;
    if work == [] {
      NothingCorrected(s, p);
      assert ServicesOf(work) == {};
    } else {
      var init, last := work[..|work| - 1], work[|work| - 1];
      assert forall r :: r in work <==> r in init || r == last;
      ApplyAllEffect(s, p, init);
      var mid := ApplyAll(s, p, init).value;
      var key := SettlementKey(p.month, last.service);
      ApplyCoherent(mid, key, p.cursor, last);
      OneMoreCorrected(s, p, ServicesOf(init), mid, last);
      assert ServicesOf(work) == ServicesOf(init) + {last.service};
      LastIsNew(work);
      UntouchedDelta(s, p, ServicesOf(init), mid, last);
      MoneyOf(mid, key, p.cursor, last);
    }
  }

  lemma LastIsNew(work: seq<RatedService>)
    requires DistinctServices(work) && work != []
    ensures work[|work| - 1].service !in ServicesOf(work[..|work| - 1])
  {}

  lemma UntouchedDelta(s: State, p: Portfolio, done: set<ServiceId>, mid: State, r: RatedService)
    requires Corrected(s, p, done, mid) && r.service !in done
    requires SettlementKey(p.month, r.service) in mid.settlements
    ensures ConsumedDelta(mid, SettlementKey(p.month, r.service), r) == DeltaOf(s, p.month, r)
  {
    hide LastCorrection, ReplayOf;
  }

  lemma MoneyOf(s: State, key: SettlementKey, snapshot: Cursor, r: RatedService)
    requires key in s.settlements && Coherent(s)
    ensures ApplyRatedService(s, key, snapshot, r).balance == s.balance - ConsumedDelta(s, key, r)
  {
    hide Posted, RowsAgree, RowsWhole, RowsTelescope, RowsNumbered, CorrectionsTelescope, TotalsCurrent;
    ApplyMoney(s, key, snapshot, r);
  }

  lemma {:induction false} FirstRefusal(s: State, p: Portfolio, work: seq<RatedService>, n: nat)
    requires n <= |work| && ApplyAll(s, p, work[..n]).Err?
    ensures ApplyAll(s, p, work) == ApplyAll(s, p, work[..n])
  {
    hide ApplyChecked;
    if n < |work| {
      assert work[..|work| - 1][..n] == work[..n];
      FirstRefusal(s, p, work[..|work| - 1], n);
    } else {
      assert work[..n] == work;
    }
  }

  // ---- The order of the work ------------------------------------------------------------------------

  lemma {:induction false} SelectIs(s: State, month: Month, rated: seq<RatedService>, release: bool)
    requires DistinctServices(rated)
    ensures DistinctServices(Select(s, month, rated, release))
    ensures forall r :: r in Select(s, month, rated, release) <==> r in rated && IsRelease(s, month, r) == release
  {
    hide IsRelease;
    if rated != [] {
      var init, last := rated[..|rated| - 1], rated[|rated| - 1];
      assert forall r :: r in rated <==> r in init || r == last;
      SelectIs(s, month, init, release);
      var before := Select(s, month, init, release);
      forall i | 0 <= i < |before| ensures before[i].service != last.service {
        assert before[i] in init;
        var j :| 0 <= j < |init| && init[j] == before[i];
        assert rated[j].service != rated[|rated| - 1].service;
      }
    }
  }

  lemma WorkOrderIs(s: State, month: Month, rated: seq<RatedService>)
    requires DistinctServices(rated)
    ensures DistinctServices(WorkOrder(s, month, rated))
    ensures forall r :: r in WorkOrder(s, month, rated) <==> r in rated
    ensures ServicesOf(WorkOrder(s, month, rated)) == ServicesOf(rated)
  {
    hide IsRelease, Select;
    SelectIs(s, month, rated, true);
    SelectIs(s, month, rated, false);
    var a, b := Select(s, month, rated, true), Select(s, month, rated, false);
    forall i, j | 0 <= i < |a| && 0 <= j < |b| ensures a[i].service != b[j].service {
      assert a[i] in a && b[j] in b;
      var x :| 0 <= x < |rated| && rated[x] == a[i];
      var y :| 0 <= y < |rated| && rated[y] == b[j];
    }
  }

  lemma DeltaSumAppend(s: State, month: Month, work: seq<RatedService>, r: RatedService)
    ensures DeltaSum(s, month, work + [r]) == DeltaSum(s, month, work) + DeltaOf(s, month, r)
  {
    assert (work + [r])[..|work|] == work;
  }

  lemma {:induction false} DeltaSumConcat(s: State, month: Month, a: seq<RatedService>, b: seq<RatedService>)
    ensures DeltaSum(s, month, a + b) == DeltaSum(s, month, a) + DeltaSum(s, month, b)
  {
    hide DeltaOf;
    if b == [] {
      assert a + b == a;
    } else {
      DeltaSumConcat(s, month, a, b[..|b| - 1]);
      assert (a + b)[..|a + b| - 1] == a + b[..|b| - 1];
    }
  }

  lemma {:induction false} SelectedSums(s: State, month: Month, rated: seq<RatedService>)
    ensures DeltaSum(s, month, rated)
         == DeltaSum(s, month, Select(s, month, rated, true)) + DeltaSum(s, month, Select(s, month, rated, false))
  {
    hide DeltaOf, IsRelease, DeltaSum, Select;
    if rated == [] {
      NothingSelected(s, month);
    } else {
      var init, last := rated[..|rated| - 1], rated[|rated| - 1];
      SelectedSums(s, month, init);
      assert rated == init + [last];
      DeltaSumAppend(s, month, init, last);
      SelectAppend(s, month, init, last);
      DeltaSumAppend(s, month, Select(s, month, init, IsRelease(s, month, last)), last);
    }
  }

  lemma NothingSelected(s: State, month: Month)
    ensures Select(s, month, [], true) == [] && Select(s, month, [], false) == [] && DeltaSum(s, month, []) == 0
  {}

  lemma SelectAppend(s: State, month: Month, init: seq<RatedService>, last: RatedService)
    ensures var release := IsRelease(s, month, last);
      Select(s, month, init + [last], release) == Select(s, month, init, release) + [last]
    ensures Select(s, month, init + [last], !IsRelease(s, month, last)) == Select(s, month, init, !IsRelease(s, month, last))
  {
    assert (init + [last])[..|init|] == init;
  }

  lemma {:induction false} DeltaSumSign(s: State, month: Month, work: seq<RatedService>)
    ensures (forall r :: r in work ==> DeltaOf(s, month, r) <= 0) ==> DeltaSum(s, month, work) <= 0
    ensures (forall r :: r in work ==> DeltaOf(s, month, r) >= 0) ==> DeltaSum(s, month, work) >= 0
  {
    hide DeltaOf;
    if work != [] {
      assert forall r :: r in work <==> r in work[..|work| - 1] || r == work[|work| - 1];
      DeltaSumSign(s, month, work[..|work| - 1]);
    }
  }

  /** With releases first, no prefix of the work takes more than the whole, or than nothing. */
  lemma PrefixBounded(s: State, month: Month, rated: seq<RatedService>, j: nat)
    requires DistinctServices(rated) && j <= |WorkOrder(s, month, rated)|
    ensures var work := WorkOrder(s, month, rated);
      && (DeltaSum(s, month, work[..j]) <= 0 || DeltaSum(s, month, work[..j]) <= DeltaSum(s, month, rated))
      && (j > 0 && DeltaOf(s, month, work[j - 1]) > 0 ==> DeltaSum(s, month, work[..j]) <= DeltaSum(s, month, rated))
  {
    hide DeltaSum, Select, IsRelease;
    var a, b := Select(s, month, rated, true), Select(s, month, rated, false);
    var work := WorkOrder(s, month, rated);
    SelectIs(s, month, rated, true);
    SelectIs(s, month, rated, false);
    ReleaseSigns(s, month, a, b);
    SelectedSums(s, month, rated);
    if j <= |a| {
      assert work[..j] == a[..j];
      DeltaSumSign(s, month, a[..j]);
      if j > 0 { assert work[j - 1] in a; }
    } else {
      assert work[..j] == a + b[..j - |a|];
      assert b == b[..j - |a|] + b[j - |a|..];
      DeltaSumConcat(s, month, a, b[..j - |a|]);
      DeltaSumConcat(s, month, b[..j - |a|], b[j - |a|..]);
      DeltaSumSign(s, month, b[j - |a|..]);
    }
  }

  lemma ReleaseSigns(s: State, month: Month, a: seq<RatedService>, b: seq<RatedService>)
    requires forall r :: r in a ==> IsRelease(s, month, r)
    requires forall r :: r in b ==> !IsRelease(s, month, r)
    ensures forall r :: r in a ==> DeltaOf(s, month, r) < 0
    ensures forall r :: r in b ==> DeltaOf(s, month, r) >= 0
  {}
}
