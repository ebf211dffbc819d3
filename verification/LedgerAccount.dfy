/** The account as the service updates it: in place, one transaction at a time. */
module LedgerAccount {
  import opened Prelude
  import opened Buckets
  import opened CreditRating
  import opened Ledger
  import opened LedgerInvariants
  import LedgerSettlement
  import LedgerTheorems
  import Payments = PaymentAdjustments
  import Sorting

  // ---- Reading the latest rows -------------------------------------------------------------------

  function SubjectOf(row: Row): Subject
  {
    Subject(row.settlement, row.user)
  }

  predicate LaterFirst(left: Row, right: Row)
  {
    left.sequence > right.sequence
  }

  /** Row i is the first about its subject. */
  ghost predicate IsFirst(list: seq<Row>, i: nat)
    requires i < |list|
  {
    forall j :: 0 <= j < i ==> SubjectOf(list[j]) != SubjectOf(list[i])
  }

  /** The first row of every subject wins. */
  method LatestAllocationMap(list: seq<Row>) returns (latest: map<Subject, Triple>)
    ensures forall i :: 0 <= i < |list| ==> SubjectOf(list[i]) in latest
    ensures forall x :: x in latest ==>
      exists i :: 0 <= i < |list| && SubjectOf(list[i]) == x && IsFirst(list, i) && latest[x] == list[i].total
  {
    latest := map[];
    for i := 0 to |list|
      invariant forall j :: 0 <= j < i ==> SubjectOf(list[j]) in latest
      invariant forall x :: x in latest ==>
        exists j :: 0 <= j < i && SubjectOf(list[j]) == x && IsFirst(list, j) && latest[x] == list[j].total
    {
      if SubjectOf(list[i]) !in latest {
        latest := latest[SubjectOf(list[i]) := list[i].total];
      }
    }
  }

  /** The rows of a month, highest number first. */
  method RowsOfMonth(rows: seq<Row>, month: Month) returns (list: seq<Row>)
    ensures Sorting.Sorted(list, LaterFirst)
    ensures forall row :: row in list <==> row in rows && row.settlement.month == month
  {
    var found: seq<Row> := [];
    for i := 0 to |rows|
      invariant forall row :: row in found <==> row in rows[..i] && row.settlement.month == month
    {
      assert rows[..i + 1] == rows[..i] + [rows[i]];
      if rows[i].settlement.month == month { found := found + [rows[i]]; }
    }
    assert rows[..|rows|] == rows;
    var a := new Row[|found|](i requires 0 <= i < |found| => found[i]);
    assert a[..] == found;
    Sorting.Sort(a, LaterFirst);
    Sorting.SameMembers(found, a[..]);
    list := a[..];
  }

  /** Row i is the last about x. */
  ghost predicate IsLast(rows: seq<Row>, x: Subject, i: nat)
    requires i < |rows|
  {
    SubjectOf(rows[i]) == x && forall j :: i < j < |rows| ==> SubjectOf(rows[j]) != x
  }

  lemma {:induction false} LatestIsLast(rows: seq<Row>, x: Subject)
    ensures x in Latest(rows) <==> exists i :: 0 <= i < |rows| && SubjectOf(rows[i]) == x
    ensures x in Latest(rows) ==> exists i :: 0 <= i < |rows| && IsLast(rows, x, i) && rows[i].total == Latest(rows)[x]
  {
    if rows != [] {
      var init, last := rows[..|rows| - 1], rows[|rows| - 1];
      LatestIsLast(init, x);
      if SubjectOf(last) == x {
        assert IsLast(rows, x, |rows| - 1);
      } else {
        if x in Latest(init) {
          var i :| 0 <= i < |init| && IsLast(init, x, i) && init[i].total == Latest(init)[x];
          assert IsLast(rows, x, i);
        }
        assert forall i :: 0 <= i < |rows| && SubjectOf(rows[i]) == x ==> SubjectOf(init[i]) == x;
      }
    }
  }

  /** Read backwards by number, the first row about a subject is the last one written. */
  lemma FirstIsLatest(rows: seq<Row>, list: seq<Row>, month: Month, i: nat)
    requires NumbersGrow(rows) && Sorting.Sorted(list, LaterFirst)
    requires forall row :: row in list <==> row in rows && row.settlement.month == month
    requires i < |list| && IsFirst(list, i)
    ensures SubjectOf(list[i]) in Latest(rows) && list[i].total == Latest(rows)[SubjectOf(list[i])]
  {
    var x := SubjectOf(list[i]);
    assert list[i] in list;
    var k :| 0 <= k < |rows| && rows[k] == list[i];
    LatestIsLast(rows, x);
    var last :| 0 <= last < |rows| && IsLast(rows, x, last) && rows[last].total == Latest(rows)[x];
    assert rows[last] in rows && rows[last].settlement.month == month;
    var m :| 0 <= m < |list| && list[m] == rows[last];
    assert i <= m;
    assert i < m ==> !LaterFirst(list[m], list[i]);
    assert k <= last;
  }

  /** The latest figures of a month's settlements. */
  method LatestOfMonth(rows: seq<Row>, month: Month) returns (latest: map<Subject, Triple>)
    requires NumbersGrow(rows)
    ensures latest == map x | x in Latest(rows) && x.settlement.month == month :: Latest(rows)[x]
  {
    hide Latest, NumbersGrow;
    var list := RowsOfMonth(rows, month);
    latest := LatestAllocationMap(list);
    forall x | x in latest ensures x in Latest(rows) && x.settlement.month == month && latest[x] == Latest(rows)[x] {
      var i :| 0 <= i < |list| && SubjectOf(list[i]) == x && IsFirst(list, i) && latest[x] == list[i].total;
      assert list[i] in list;
      FirstIsLatest(rows, list, month, i);
    }
    forall x | x in Latest(rows) && x.settlement.month == month ensures x in latest {
      LatestIsLast(rows, x);
      var i :| 0 <= i < |rows| && SubjectOf(rows[i]) == x;
      assert rows[i] in list;
    }
  }

  /** The subjects dealt with, each listed once. */
  ghost predicate Listed(previous: seq<PreviousAllocation>, done: set<Subject>, latest: map<Subject, Triple>, month: Month)
  {
    && OncePerBucket(previous)
    && (forall a :: a in previous ==>
          var x := Subject(SettlementKey(month, a.service), a.user);
          x in done && x in latest && a.consumed == latest[x].consumed)
    && forall x :: x in done ==> exists a :: a in previous && a.service == x.settlement.service && a.user == x.user
  }

  lemma ListOne(previous: seq<PreviousAllocation>, done: set<Subject>, latest: map<Subject, Triple>, month: Month, x: Subject)
    requires Listed(previous, done, latest, month)
    requires x !in done && x in latest && x.settlement.month == month
    ensures Listed(previous + [PreviousAllocation(x.settlement.service, x.user, latest[x].consumed)], done + {x}, latest, month)
  {
    var a := PreviousAllocation(x.settlement.service, x.user, latest[x].consumed);
    var after := previous + [a];
    assert x == Subject(SettlementKey(month, a.service), a.user);
    assert forall b :: b in after <==> b in previous || b == a;
    forall i | 0 <= i < |previous|
      ensures Key(previous[i].service, previous[i].user) != Key(a.service, a.user)
    {
      assert previous[i] in previous;
    }
  }

  /** The month's latest figures, as the rating wants them. */
  method PreviousOf(latest: map<Subject, Triple>, month: Month) returns (previous: seq<PreviousAllocation>)
    requires forall x :: x in latest ==> x.settlement.month == month
    ensures Listed(previous, latest.Keys, latest, month)
  {
    hide Listed;
    var rest := latest.Keys;
    previous := [];
    assert Listed(previous, latest.Keys - rest, latest, month) by { NothingListed(latest, month); }
    while rest != {}
      invariant rest <= latest.Keys && Listed(previous, latest.Keys - rest, latest, month)
      decreases |rest|
    {
      var x :| x in rest;
      ListOne(previous, latest.Keys - rest, latest, month, x);
      previous := previous + [PreviousAllocation(x.settlement.service, x.user, latest[x].consumed)];
      assert latest.Keys - (rest - {x}) == latest.Keys - rest + {x};
      rest := rest - {x};
    }
    assert latest.Keys - rest == latest.Keys;
  }

  lemma NothingListed(latest: map<Subject, Triple>, month: Month)
    ensures Listed([], latest.Keys - latest.Keys, latest, month)
  {}

  lemma ListedIsPrevious(previous: seq<PreviousAllocation>, latest: map<Subject, Triple>, s: State, month: Month)
    requires latest == map x | x in Latest(s.rows) && x.settlement.month == month :: Latest(s.rows)[x]
    requires Listed(previous, latest.Keys, latest, month)
    ensures ListsPrevious(previous, s, month)
  {
    hide Latest;
  }

  // ---- The order of the work -----------------------------------------------------------------------

  predicate WorkBefore(s: State, month: Month, left: RatedService, right: RatedService)
  {
    if IsRelease(s, month, left) != IsRelease(s, month, right) then IsRelease(s, month, left)
    else left.service < right.service
  }

  lemma {:induction false} SelectAscending(s: State, month: Month, rated: seq<RatedService>, release: bool)
    requires Sorting.Ascending(rated, ServiceLess)
    ensures Sorting.Ascending(Select(s, month, rated, release), ServiceLess)
    ensures forall r :: r in Select(s, month, rated, release) <==> r in rated && IsRelease(s, month, r) == release
  {
    hide IsRelease;
    if rated != [] {
      var init, last := rated[..|rated| - 1], rated[|rated| - 1];
      assert forall r :: r in rated <==> r in init || r == last;
      SelectAscending(s, month, init, release);
      forall r | r in init ensures ServiceLess(r, last) {
        var i :| 0 <= i < |init| && init[i] == r;
        assert ServiceLess(rated[i], rated[|rated| - 1]);
      }
    }
  }

  /** Sorting by release and name gives exactly the releases in order, then the others in order. */
  lemma SortedWork(s: State, month: Month, rated: seq<RatedService>, sorted: seq<RatedService>)
    requires Sorting.Ascending(rated, ServiceLess)
    requires var less := (a: RatedService, b: RatedService) => WorkBefore(s, month, a, b);
      Sorting.Sorted(sorted, less) && Sorting.IsOrder(less)
    requires multiset(rated) == multiset(sorted)
    ensures sorted == WorkOrder(s, month, rated)
  {
    hide IsRelease, Select;
    var less := (a: RatedService, b: RatedService) => WorkBefore(s, month, a, b);
    var work := WorkOrder(s, month, rated);
    SelectAscending(s, month, rated, true);
    SelectAscending(s, month, rated, false);
    forall i, j | 0 <= i < j < |work| ensures less(work[i], work[j]) {
      assert work[i] in work && work[j] in work;
      var a, b := Select(s, month, rated, true), Select(s, month, rated, false);
      assert i < |a| ==> work[i] == a[i] && work[i] in a;
      assert j < |a| ==> work[j] == a[j] && work[j] in a;
      assert i >= |a| ==> work[i] == b[i - |a|] && work[i] in b;
      assert j >= |a| ==> work[j] == b[j - |a|] && work[j] in b;
    }
    forall x, y | x in rated && y in rated && x != y ensures less(x, y) || less(y, x) {
      var i :| 0 <= i < |rated| && rated[i] == x;
      var j :| 0 <= j < |rated| && rated[j] == y;
      assert i < j ==> ServiceLess(rated[i], rated[j]);
      assert j < i ==> ServiceLess(rated[j], rated[i]);
    }
    DistinctRated(rated);
    Sorting.SortedAscending(rated, sorted, less);
    assert forall x :: x in work <==> x in rated;
    assert Sorting.Elements(work) == Sorting.Elements(rated);
    Sorting.AscendingUnique(sorted, work, less);
  }

  lemma DistinctRated(rated: seq<RatedService>)
    requires Sorting.Ascending(rated, ServiceLess)
    ensures Sorting.Distinct(rated)
  {}

  lemma WorkIsOrdered(s: State, month: Month)
    ensures Sorting.IsOrder((a: RatedService, b: RatedService) => WorkBefore(s, month, a, b))
  {
    hide IsRelease;
  }

  method SortWork(s: State, month: Month, rated: seq<RatedService>) returns (work: seq<RatedService>)
    requires Sorting.Ascending(rated, ServiceLess)
    ensures work == WorkOrder(s, month, rated)
  {
    hide WorkBefore, WorkOrder;
    var a := new RatedService[|rated|](i requires 0 <= i < |rated| => rated[i]);
    assert a[..] == rated;
    var less := (x: RatedService, y: RatedService) => WorkBefore(s, month, x, y);
    WorkIsOrdered(s, month);
    Sorting.Sort(a, less);
    work := a[..];
    SortedWork(s, month, rated, work);
  }

  // ---- The account ---------------------------------------------------------------------------------

  class Account {
    var balance: int
    var entries: seq<Entry>
    var orders: map<OrderId, Order>
    var adjustments: Payments.Log
    var snapshots: map<Cursor, Snapshot>
    var settlements: map<SettlementKey, Settlement>
    var corrections: seq<Correction>
    var rows: seq<Row>

    function View(): State
      reads this
    {
      State(balance, entries, orders, adjustments, snapshots, settlements, corrections, rows)
    }

    ghost predicate Valid()
      reads this
    {
      Inv(View())
    }

    constructor ()
      ensures Valid() && View() == Empty()
    {
      balance, entries, orders, adjustments := 0, [], map[], [];
      snapshots, settlements, corrections, rows := map[], map[], [], [];
      new;
      EmptyInv();
    }

    /** Undoes everything a failed transaction has written. */
    method Rollback(s: State)
      modifies this
      ensures View() == s
    {
      balance, entries, orders, adjustments := s.balance, s.entries, s.orders, s.adjustments;
      snapshots, settlements, corrections, rows := s.snapshots, s.settlements, s.corrections, s.rows;
    }

    method PostEntry(source: Source, delta: int)
      modifies `balance, `entries
      ensures View() == Post(old(View()), source, delta)
    {
      entries := entries + [Entry(source, delta, balance + delta)];
      balance := balance + delta;
    }

    method Open(id: OrderId, credits: nat, automatic: bool) returns (r: Result<()>)
      requires Valid()
      modifies this
      ensures Valid()
      ensures View() == Committed(old(View()), OpenOrder(old(View()), id, credits, automatic))
      ensures r == if id in old(orders) then Err(OrderExists) else Ok(())
    {
      OpenOrderKeeps(View(), id, credits, automatic);
      if id in orders { return Err(OrderExists); }
      orders := orders[id := Order(credits, automatic, false, None)];
      r := Ok(());
    }

    method Close(id: OrderId) returns (r: Result<()>)
      requires Valid()
      modifies this
      ensures Valid()
      ensures View() == Committed(old(View()), CloseOrder(old(View()), id))
      ensures r == if CloseOrder(old(View()), id).Ok? then Ok(()) else Err(PaymentBindingInvalid)
    {
      CloseOrderKeeps(View(), id);
      if id !in orders || orders[id].paidBy.Some? { return Err(PaymentBindingInvalid); }
      orders := orders[id := orders[id].(closed := true)];
      r := Ok(());
    }

    /** A payment has succeeded; the same payment reported again is accepted and writes nothing. */
    method Pay(id: OrderId, intent: IntentId) returns (r: Result<()>)
      requires Valid()
      modifies this
      ensures Valid()
      ensures View() == Committed(old(View()), PaymentSucceeded(old(View()), id, intent))
      ensures match PaymentSucceeded(old(View()), id, intent) case Ok(_) => r == Ok(()) case Err(e) => r == Err(e)
    {
      PaymentSucceededKeeps(View(), id, intent);
      if id !in orders { return Err(PaymentBindingInvalid); }
      var order := orders[id];
      if order.paidBy.Some? {
        return if order.paidBy == Some(intent) then Ok(()) else Err(PaymentRebindForbidden);
      }
      if order.automatic && order.closed { return Err(PaymentBindingInvalid); }
      if IntentUsed(View(), intent) { return Err(EntryExists); }
      orders := orders[id := order.(paidBy := Some(intent))];
      PostEntry(TopUp(id, intent), order.credits);
      r := Ok(());
    }

    /** A refund, a dispute or a reversal has been reported. */
    method Adjust(e: Payments.Event) returns (r: Result<()>)
      requires Valid()
      modifies this
      ensures Valid()
      ensures View() == Committed(old(View()), PaymentAdjusted(old(View()), e))
      ensures match PaymentAdjusted(old(View()), e) case Ok(_) => r == Ok(()) case Err(error) => r == Err(error)
    {
      hide Inv, Payments.ExpectedDelta, Payments.For;
      PaymentAdjustedKeeps(View(), e);
      if e.entry !in orders || orders[e.entry].paidBy != Some(e.intent) { return Err(PaymentNotFound); }
      var existing := Payments.Find(adjustments, e);
      if existing.Some? {
        return if existing.value.event == e then Ok(()) else Err(AdjustmentRebindForbidden);
      }
      var amount :- Payments.ExpectedAppliedDelta(Payments.For(adjustments, e.entry), e, orders[e.entry].credits);
      var written := Payments.Adjustment(e, amount);
      adjustments := adjustments + [written];
      if amount != 0 {
        PostEntry(PaymentAdjustment(e.kind, e.objectId), -Payments.Signed(written));
      }
      r := Ok(());
    }

    /** Writes one rated service: the entry, the correction, the rows that changed and the new totals. */
    method ApplyService(key: SettlementKey, snapshot: Cursor, r: RatedService)
      requires key in settlements
      modifies this
      ensures View() == ApplyRatedService(old(View()), key, snapshot, r)
    {
      hide UsersOf, TargetOf, Cumulative, LastCorrection;
      ghost var s := View();
      var settlement := settlements[key];
      var delta := Minus(TotalOf(r), settlement.total);
      var sequence := NextSequence(View(), key);
      if delta.consumed != 0 {
        PostEntry(Usage(key, snapshot, settlement.total == ZERO), -delta.consumed);
      }
      corrections := corrections + [Correction(key, snapshot, sequence, delta, TotalOf(r))];
      var previous, users := rows, UsersOf(rows, key, r);
      for i := 0 to |users|
        invariant View() == ApplyRatedService(s, key, snapshot, r).(
          rows := previous + ChangedRows(users[..i], previous, key, r, sequence), settlements := s.settlements)
      {
        assert users[..i + 1][..i] == users[..i];
        var total := TargetOf(r.allocations, users[i]);
        var change := Minus(total, Cumulative(previous, Subject(key, users[i])));
        if change != ZERO {
          rows := rows + [Row(key, users[i], sequence, change, total)];
        }
      }
      assert users[..|users|] == users;
      settlements := settlements[key := settlement.(total := TotalOf(r))];
    }

    method ApplyOne(p: Portfolio, r: RatedService) returns (applied: Result<()>)
      modifies this
      ensures match ApplyChecked(old(View()), p, r)
              case Ok(after) => applied == Ok(()) && View() == after
              case Err(e) => applied == Err(e) && View() == old(View())
    {
      hide LastCorrection, ApplyRatedService;
      var key := SettlementKey(p.month, r.service);
      if key !in settlements { return Err(ServiceMissing); }
      var last := LastCorrection(corrections, key);
      if && last.Some? && last.value.snapshot != p.cursor
         && last.value.snapshot in snapshots && p.capturedAt <= snapshots[last.value.snapshot].capturedAt
      {
        return Err(OlderSnapshot);
      }
      var delta := ConsumedDelta(View(), key, r);
      if delta > 0 && balance - delta < 0 { return Err(Overdrawn); }
      ApplyService(key, p.cursor, r);
      applied := Ok(());
    }

    method WriteRated(p: Portfolio, c: Context, rated: seq<RatedService>) returns (r: Result<Outcome>)
      requires Sorting.Ascending(rated, ServiceLess)
      modifies this
      ensures match WritePrepared(old(View()), p, c, rated)
              case Ok((after, outcome)) => r == Ok(outcome) && View() == after
              case Err(e) => r == Err(e)
    {
      hide ApplyChecked, WorkOrder, ReplayOf, IsRelease;
      ghost var s := View();
      var replayed := ReplayedServices(View(), p, c.services.Keys);
      if replayed != {} && replayed != c.services.Keys { return Err(PartialSnapshot); }
      if replayed == c.services.Keys {
        return if ReplayMatches(View(), p, rated) then Ok(Replayed) else Err(SnapshotMutated);
      }
      var work := SortWork(View(), p.month, rated);
      for i := 0 to |work|
        invariant ApplyAll(s, p, work[..i]) == Ok(View())
      {
        assert work[..i + 1][..i] == work[..i];
        var applied := ApplyOne(p, work[i]);
        if applied.Err? {
          LedgerSettlement.FirstRefusal(s, p, work, i + 1);
          return Err(applied.error);
        }
      }
      assert work[..|work|] == work;
      r := Ok(Applied);
    }

    /** Settles a portfolio snapshot in one transaction. */
    method Settle(p: Portfolio, env: Environment) returns (r: Result<Outcome>)
      requires Valid()
      modifies this
      ensures Valid()
      ensures Settles(old(View()), p, env, View(), r)
    {
      hide Inv, IsRating, ListsPrevious, RatingContext, WritePrepared, IsStale, Latest, NumbersGrow;
      var before := View();
      if p.cursor in snapshots {
        if snapshots[p.cursor] != SnapshotOf(p) { return Err(SnapshotMutated); }
      } else if IsStale(View(), p) {
        return Ok(Superseded);
      }
      if !(Products(p.lines) <= env.catalog.Keys) { return Err(ServiceUnknown); }
      if !(Products(p.lines) <= env.active) { return Err(ServiceInactive); }
      var c := RatingContext(View(), p, env);
      RowsInOrder(View());
      var latest := LatestOfMonth(rows, p.month);
      var previous := PreviousOf(latest, p.month);
      ListedIsPrevious(previous, latest, View(), p.month);
      var rating := RateCreditPortfolio(p.lines, previous, balance, c);
      if rating.Err? {
        assert Writes(before, p, c, rating, View(), Err(rating.error));
        return Err(rating.error);
      }
      if !StartsInDollars(View(), p, c) {
        assert Writes(before, p, c, rating, View(), Err(TariffNotInDollars));
        return Err(TariffNotInDollars);
      }
      var prepared := Prepare(View(), p, c);
      snapshots, settlements := prepared.snapshots, prepared.settlements;
      RatingAscends(rating, p, previous, before.balance, c);
      r := WriteRated(p, c, rating.value);
      if r.Err? { Rollback(before); }
      assert Writes(before, p, c, rating, View(), r);
      LedgerTheorems.SettlesKeeps(before, p, env, View(), r);
    }
  }

  lemma RowsInOrder(s: State)
    requires Inv(s)
    ensures NumbersGrow(s.rows)
  {}

  lemma RatingAscends(rating: Result<seq<RatedService>>, p: Portfolio, previous: seq<PreviousAllocation>, balance: int,
                      c: Context)
    requires IsRating(rating, p.lines, previous, balance, c) && rating.Ok?
    ensures Sorting.Ascending(rating.value, ServiceLess)
  {
    hide BaseCosts, PreviousAmounts, ServiceRated, Ratable;
  }
}
