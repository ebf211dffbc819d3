/** Why the latest rows always hold everybody's current figures, and add up to the settlement. */
module LedgerRows {
  import opened Buckets
  import opened Sums
  import opened CreditRating
  import opened Ledger
  import CreditAllocation

  datatype Field = Rated | Consumed | Remaining

  function Pick(t: Triple, f: Field): int
  {
    match f
    case Rated => t.rated
    case Consumed => t.consumed
    case Remaining => t.remaining
  }

  /** The latest figures of one settlement, by user. */
  ghost function Figures(latest: map<Subject, Triple>, key: SettlementKey, f: Field): map<Subject, int>
  {
    map x | x in latest && x.settlement == key :: Pick(latest[x], f)
  }

  /** The latest rows of every settlement add up to its totals, in each figure. */
  ghost predicate RowsAgree(rows: seq<Row>, settlements: map<SettlementKey, Settlement>)
  {
    && (forall x :: x in Latest(rows) ==> x.settlement in settlements)
    && forall key, f :: key in settlements ==> Sum(Figures(Latest(rows), key, f)) == Pick(settlements[key].total, f)
  }

  /** Nobody's consumption is negative or finer than the ledger's precision. */
  ghost predicate RowsWhole(rows: seq<Row>)
  {
    forall x :: x in Latest(rows) ==> Latest(rows)[x].consumed >= 0 && Latest(rows)[x].consumed % 10 == 0
  }

  ghost predicate UsersDistinct(users: seq<UserId>)
  {
    forall i, j :: 0 <= i < j < |users| ==> users[i] != users[j]
  }

  // ---- Who gets a row ---------------------------------------------------------------------

  lemma AddUserIs(users: seq<UserId>, user: UserId)
    requires UsersDistinct(users)
    ensures UsersDistinct(AddUser(users, user))
    ensures forall u :: u in AddUser(users, user) <==> u in users || u == user
  {}

  lemma {:induction false} AllocationUsersAre(allocations: seq<Allocation>)
    ensures UsersDistinct(AllocationUsers(allocations))
    ensures forall u :: u in AllocationUsers(allocations) <==> exists a :: a in allocations && a.user == u
  {
    if allocations != [] {
      var init, last := allocations[..|allocations| - 1], allocations[|allocations| - 1];
      assert forall a :: a in allocations <==> a in init || a == last;
      AllocationUsersAre(init);
      AddUserIs(AllocationUsers(init), last.user);
    }
  }

  lemma {:induction false} PreviousUsersAre(users: seq<UserId>, rows: seq<Row>, key: SettlementKey)
    requires UsersDistinct(users)
    ensures UsersDistinct(PreviousUsers(users, rows, key))
    ensures forall u :: u in PreviousUsers(users, rows, key) <==> u in users || Subject(key, u) in Latest(rows)
  {
    if rows != [] {
      var init, last := rows[..|rows| - 1], rows[|rows| - 1];
      PreviousUsersAre(users, init, key);
      AddUserIs(PreviousUsers(users, init, key), last.user);
    }
  }

  lemma UsersOfAre(rows: seq<Row>, key: SettlementKey, r: RatedService)
    ensures UsersDistinct(UsersOf(rows, key, r))
    ensures forall u :: u in UsersOf(rows, key, r) <==>
      (exists a :: a in r.allocations && a.user == u) || Subject(key, u) in Latest(rows)
  {
    AllocationUsersAre(r.allocations);
    PreviousUsersAre(AllocationUsers(r.allocations), rows, key);
  }

  lemma {:induction false} NoTarget(allocations: seq<Allocation>, user: UserId)
    ensures !(exists a :: a in allocations && a.user == user) ==> TargetOf(allocations, user) == ZERO
  {
    if allocations != [] {
      var init, last := allocations[..|allocations| - 1], allocations[|allocations| - 1];
      assert forall a :: a in allocations <==> a in init || a == last;
      NoTarget(init, user);
    }
  }

  // ---- What the rows say afterwards -----------------------------------------------------------

  lemma LatestAppend(rows: seq<Row>, row: Row)
    ensures Latest(rows + [row]) == Latest(rows)[Subject(row.settlement, row.user) := row.total]
  {
    assert (rows + [row])[..|rows|] == rows;
  }

  lemma RowTells(rows: seq<Row>, row: Row)
    ensures forall x ::
      Cumulative(rows + [row], x) == if x == Subject(row.settlement, row.user) then row.total else Cumulative(rows, x)
    ensures forall x :: x in Latest(rows + [row]) <==> x in Latest(rows) || x == Subject(row.settlement, row.user)
  {
    LatestAppend(rows, row);
  }

  /** After the changed rows are written, everyone concerned has their target; nobody else moved. */
  lemma {:induction false} ChangedRowsTell(users: seq<UserId>, rows: seq<Row>, key: SettlementKey, r: RatedService,
                                           sequence: nat)
    requires UsersDistinct(users)
    ensures var after := rows + ChangedRows(users, rows, key, r, sequence);
      && (forall x :: Cumulative(after, x) ==
            if x.settlement == key && x.user in users then TargetOf(r.allocations, x.user) else Cumulative(rows, x))
      && (forall x :: x in Latest(rows) ==> x in Latest(after))
      && (forall x :: x in Latest(after) ==> x in Latest(rows) || (x.settlement == key && x.user in users))
  {
    hide TargetOf, Latest, Cumulative;
    if users == [] {
      assert rows + [] == rows;
    } else {
      var init, user := users[..|users| - 1], users[|users| - 1];
      assert forall u :: u in users <==> u in init || u == user;
      assert user !in init;
      ChangedRowsTell(init, rows, key, r, sequence);
      var total := TargetOf(r.allocations, user);
      var delta := Minus(total, Cumulative(rows, Subject(key, user)));
      var before := ChangedRows(init, rows, key, r, sequence);
      if delta != ZERO {
        var row := Row(key, user, sequence, delta, total);
        RowTells(rows + before, row);
        assert rows + (before + [row]) == (rows + before) + [row];
      } else {
        assert before + [] == before;
      }
    }
  }

  /** Although users without a change get no row, the latest rows are everybody's true figures. */
  lemma LatestIsTruth(rows: seq<Row>, key: SettlementKey, r: RatedService, sequence: nat)
    ensures var after := rows + ChangedRows(UsersOf(rows, key, r), rows, key, r, sequence);
      && (forall x: Subject :: x.settlement == key ==> Cumulative(after, x) == TargetOf(r.allocations, x.user))
      && (forall x: Subject :: x.settlement != key ==>
            Cumulative(after, x) == Cumulative(rows, x) && (x in Latest(after) <==> x in Latest(rows)))
  {
    hide Latest, ChangedRows, UsersOf, TargetOf;
    var users := UsersOf(rows, key, r);
    UsersOfAre(rows, key, r);
    ChangedRowsTell(users, rows, key, r, sequence);
    var after := rows + ChangedRows(users, rows, key, r, sequence);
    forall x: Subject | x.settlement == key ensures Cumulative(after, x) == TargetOf(r.allocations, x.user) {
      if x.user !in users {
        assert x == Subject(key, x.user);
        NoTarget(r.allocations, x.user);
      }
    }
  }

  // ---- The rows add up ---------------------------------------------------------------------------

  /** A rated service names each user once, and its totals are the sums over its users. */
  ghost predicate AddsUp(r: RatedService)
  {
    && (forall i, j :: 0 <= i < j < |r.allocations| ==> r.allocations[i].user != r.allocations[j].user)
    && r.rated == CreditAllocation.SumOver(r.allocations, RatedOf)
    && r.consumed == CreditAllocation.SumOver(r.allocations, ConsumedOf)
    && r.remaining == CreditAllocation.SumOver(r.allocations, RemainingOf)
  }

  function FieldOf(f: Field): Allocation -> int
  {
    match f
    case Rated => RatedOf
    case Consumed => ConsumedOf
    case Remaining => RemainingOf
  }

  lemma {:induction false} TargetIs(allocations: seq<Allocation>, i: nat)
    requires i < |allocations|
    requires forall i, j :: 0 <= i < j < |allocations| ==> allocations[i].user != allocations[j].user
    ensures TargetOf(allocations, allocations[i].user) == AllocationTotal(allocations[i])
  {
    if i < |allocations| - 1 {
      TargetIs(allocations[..|allocations| - 1], i);
    }
  }

  ghost function Named(key: SettlementKey, r: RatedService): set<Subject>
  {
    set i | 0 <= i < |r.allocations| :: Subject(key, r.allocations[i].user)
  }

  /** What the rating gives each of the subjects, in one figure. */
  ghost function FiguresDue(subjects: set<Subject>, r: RatedService, f: Field): map<Subject, int>
  {
    map x | x in subjects :: Pick(TargetOf(r.allocations, x.user), f)
  }

  lemma ListedAddUp(key: SettlementKey, r: RatedService, f: Field)
    requires AddsUp(r)
    ensures Sum(FiguresDue(Named(key, r), r, f)) == Pick(TotalOf(r), f)
  {
    hide TargetOf, CreditAllocation.SumOver;
    var subject := (a: Allocation) => Subject(key, a.user);
    var listed := FiguresDue(Named(key, r), r, f);
    forall i | 0 <= i < |r.allocations|
      ensures subject(r.allocations[i]) in listed && listed[subject(r.allocations[i])] == FieldOf(f)(r.allocations[i])
    {
      TargetIs(r.allocations, i);
    }
    CreditAllocation.SumOverIs(r.allocations, subject, FieldOf(f), listed);
  }

  lemma UnnamedIsZero(key: SettlementKey, r: RatedService, x: Subject)
    requires x.settlement == key && x !in Named(key, r)
    ensures TargetOf(r.allocations, x.user) == ZERO
  {
    forall a | a in r.allocations ensures a.user != x.user {
      var i :| 0 <= i < |r.allocations| && r.allocations[i] == a;
      assert Subject(key, r.allocations[i].user) in Named(key, r);
    }
    NoTarget(r.allocations, x.user);
  }

  /** Summing the users of a rated service as listed, or as the rows tell them, is the same. */
  lemma FiguresAddUp(latest: map<Subject, Triple>, key: SettlementKey, r: RatedService, f: Field)
    requires AddsUp(r)
    requires forall x: Subject :: x.settlement == key ==>
      (if x in latest then latest[x] else ZERO) == TargetOf(r.allocations, x.user)
    ensures Sum(Figures(latest, key, f)) == Pick(TotalOf(r), f)
  {
    hide TargetOf, AddsUp;
    ListedAddUp(key, r, f);
    var named, figures := Named(key, r), Figures(latest, key, f);
    var whole := FiguresDue(named + figures.Keys, r, f);
    assert forall x :: x in whole ==> x.settlement == key;
    forall x | x in whole && x !in named ensures whole[x] == 0 {
      UnnamedIsZero(key, r, x);
    }
    SumExtend(FiguresDue(named, r, f), whole);
    SumExtend(figures, whole);
  }
}
