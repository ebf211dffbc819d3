/** What every transaction of the account keeps. */
module LedgerInvariants {
  import opened Prelude
  import opened Sums
  import opened Ledger
  import opened LedgerRows
  import Payments = PaymentAdjustments

  // ---- Entries -------------------------------------------------------------------------------

  function BalanceOf(entries: seq<Entry>): int
  {
    if entries == [] then 0 else entries[|entries| - 1].balanceAfter
  }

  /** Every entry continues the balance of the one before it, and the account shows the last. */
  ghost predicate Chained(s: State)
  {
    && s.balance == BalanceOf(s.entries)
    && forall i :: 0 <= i < |s.entries| ==> s.entries[i].balanceAfter == BalanceOf(s.entries[..i]) + s.entries[i].delta
  }

  lemma PostChained(s: State, source: Source, delta: int)
    requires Chained(s)
    ensures Chained(Post(s, source, delta))
  {
    var after := Post(s, source, delta);
    forall i | 0 <= i < |after.entries|
      ensures after.entries[i].balanceAfter == BalanceOf(after.entries[..i]) + after.entries[i].delta
    {
      assert after.entries[..i] == s.entries[..i];
    }
  }

  // ---- Conservation ---------------------------------------------------------------------------

  /** The credits taken back from every paid order at the moment. */
  ghost function ClawedBack(log: Payments.Log, paid: map<OrderId, nat>): map<OrderId, int>
  {
    map id | id in paid :: Payments.Applied(Payments.For(log, id))
  }

  ghost function ConsumedBy(settlements: map<SettlementKey, Settlement>): map<SettlementKey, int>
  {
    map k | k in settlements :: settlements[k].total.consumed
  }

  /** Credits are neither lost nor created: paid in, less clawed back, less consumed. */
  ghost predicate Conserved(s: State)
  {
    s.balance == Sum(Paid(s)) - Sum(ClawedBack(s.adjustments, Paid(s))) - Sum(ConsumedBy(s.settlements))
  }

  ghost predicate PaymentsKept(s: State)
  {
    && Payments.Consistent(s.adjustments, Paid(s))
    && forall a, b :: a in s.orders && b in s.orders && s.orders[a].paidBy.Some? && s.orders[a].paidBy == s.orders[b].paidBy
         ==> a == b
  }

  ghost predicate EntryFor(entries: seq<Entry>, id: OrderId, intent: IntentId)
  {
    exists i :: 0 <= i < |entries| && entries[i].source == TopUp(id, intent)
  }

  /** One entry for every paid order, in its amount and for its payment, and no other. */
  ghost predicate Posted(entries: seq<Entry>, orders: map<OrderId, Order>)
  {
    && (forall i :: 0 <= i < |entries| && entries[i].source.TopUp? ==>
          var t := entries[i].source;
          t.order in orders && orders[t.order].paidBy == Some(t.intent) && entries[i].delta == orders[t.order].credits)
    && (forall i, j :: 0 <= i < j < |entries| && entries[i].source.TopUp? && entries[j].source.TopUp? ==>
          entries[i].source.order != entries[j].source.order)
    && forall id :: id in orders && orders[id].paidBy.Some? ==> EntryFor(entries, id, orders[id].paidBy.value)
  }

  lemma EntriesStay(entries: seq<Entry>, e: Entry, id: OrderId, intent: IntentId)
    ensures EntryFor(entries, id, intent) || e.source == TopUp(id, intent) ==> EntryFor(entries + [e], id, intent)
  {
    if EntryFor(entries, id, intent) {
      var i :| 0 <= i < |entries| && entries[i].source == TopUp(id, intent);
      assert (entries + [e])[i].source == TopUp(id, intent);
    } else {
      assert (entries + [e])[|entries|] == e;
    }
  }

  lemma PostedOther(entries: seq<Entry>, orders: map<OrderId, Order>, e: Entry)
    requires Posted(entries, orders) && !e.source.TopUp?
    ensures Posted(entries + [e], orders)
  {
    hide EntryFor;
    forall id | id in orders && orders[id].paidBy.Some? ensures EntryFor(entries + [e], id, orders[id].paidBy.value) {
      EntriesStay(entries, e, id, orders[id].paidBy.value);
    }
  }

  lemma PostedPayment(entries: seq<Entry>, orders: map<OrderId, Order>, id: OrderId, intent: IntentId, balanceAfter: int)
    requires Posted(entries, orders) && id in orders && orders[id].paidBy.None?
    ensures Posted(entries + [Entry(TopUp(id, intent), orders[id].credits, balanceAfter)],
      orders[id := orders[id].(paidBy := Some(intent))])
  {
    hide EntryFor;
    var e := Entry(TopUp(id, intent), orders[id].credits, balanceAfter);
    var paid := orders[id := orders[id].(paidBy := Some(intent))];
    forall x | x in paid && paid[x].paidBy.Some? ensures EntryFor(entries + [e], x, paid[x].paidBy.value) {
      EntriesStay(entries, e, x, paid[x].paidBy.value);
    }
  }

  lemma PostedOrder(entries: seq<Entry>, orders: map<OrderId, Order>, id: OrderId, order: Order)
    requires Posted(entries, orders) && order.paidBy.None? && (id in orders ==> orders[id].paidBy.None?)
    ensures Posted(entries, orders[id := order])
  {
    hide EntryFor;
  }

  // ---- Corrections and snapshots -----------------------------------------------------------------

  ghost predicate CorrectionsTelescope(corrections: seq<Correction>)
  {
    forall i :: 0 <= i < |corrections| ==>
      var c, last := corrections[i], LastCorrection(corrections[..i], corrections[i].settlement);
      && c.delta == Minus(c.total, if last.Some? then last.value.total else ZERO)
      && c.sequence == if last.Some? then last.value.sequence + 1 else 1
  }

  ghost predicate RowsTelescope(rows: seq<Row>)
  {
    forall i :: 0 <= i < |rows| ==>
      rows[i].delta == Minus(rows[i].total, Cumulative(rows[..i], Subject(rows[i].settlement, rows[i].user)))
  }

  /** Later rows about a subject carry higher numbers. */
  ghost predicate NumbersGrow(rows: seq<Row>)
  {
    forall i, j :: 0 <= i < j < |rows| && rows[i].settlement == rows[j].settlement && rows[i].user == rows[j].user ==>
      rows[i].sequence < rows[j].sequence
  }

  /** And no row is numbered beyond the settlement's last correction. */
  ghost predicate RowsNumbered(rows: seq<Row>, corrections: seq<Correction>)
  {
    && NumbersGrow(rows)
    && forall row :: row in rows ==>
         var last := LastCorrection(corrections, row.settlement);
         last.Some? && row.sequence <= last.value.sequence
  }

  /** A settlement shows the totals of its last correction. */
  ghost predicate TotalsCurrent(s: State)
  {
    forall k :: k in s.settlements ==>
      var last := LastCorrection(s.corrections, k);
      s.settlements[k].total == if last.Some? then last.value.total else ZERO
  }

  ghost predicate SnapshotsKnown(s: State)
  {
    forall c :: c in s.corrections ==>
      c.settlement in s.settlements && c.snapshot in s.snapshots
      && s.snapshots[c.snapshot].month == c.settlement.month
  }

  /** Captures of one month never coincide. */
  ghost predicate CapturesDistinct(s: State)
  {
    forall a, b :: a in s.snapshots && b in s.snapshots && a != b && s.snapshots[a].month == s.snapshots[b].month
      ==> s.snapshots[a].capturedAt != s.snapshots[b].capturedAt
  }

  /** The snapshot has corrected the settlement, or only later captures have. */
  ghost predicate CorrectedOrLater(s: State, snapshot: Cursor, k: SettlementKey)
    requires snapshot in s.snapshots
  {
    var last := LastCorrection(s.corrections, k);
    && last.Some? && last.value.snapshot in s.snapshots
    && (ReplayOf(s.corrections, k, snapshot).Some?
        || s.snapshots[snapshot].capturedAt < s.snapshots[last.value.snapshot].capturedAt)
  }

  ghost predicate SnapshotsApplied(s: State)
  {
    forall c, k :: c in s.snapshots && k in s.settlements && k.month == s.snapshots[c].month ==> CorrectedOrLater(s, c, k)
  }

  ghost predicate ProductsSettled(s: State)
  {
    forall c :: c in s.snapshots ==> Products(s.snapshots[c].content) <= Settled(s, s.snapshots[c].month)
  }

  /** Nothing is settled under a tariff in another currency. */
  ghost predicate TariffsInDollars(s: State)
  {
    forall k :: k in s.settlements ==> s.settlements[k].tariff.currency == "USD"
  }

  ghost predicate UsageKept(s: State)
  {
    && TariffsInDollars(s)
    && RowsAgree(s.rows, s.settlements) && RowsWhole(s.rows) && RowsTelescope(s.rows)
    && RowsNumbered(s.rows, s.corrections) && CorrectionsTelescope(s.corrections) && TotalsCurrent(s)
    && SnapshotsKnown(s) && CapturesDistinct(s) && SnapshotsApplied(s) && ProductsSettled(s)
  }

  ghost predicate Inv(s: State)
  {
    Chained(s) && Conserved(s) && PaymentsKept(s) && Posted(s.entries, s.orders) && UsageKept(s)
  }

  lemma EmptyInv()
    ensures Inv(Empty())
  {
    Payments.NothingDelivered(map[]);
    assert Paid(Empty()) == map[];
    assert ClawedBack([], map[]) == map[];
    assert ConsumedBy(Empty().settlements) == map[];
  }

  // ---- Orders and payments --------------------------------------------------------------------

  /** What concerns usage depends on the settlements, their rows and the snapshots alone. */
  lemma SameUsage(s: State, t: State)
    requires UsageKept(s)
    requires s.snapshots == t.snapshots && s.settlements == t.settlements
    requires s.corrections == t.corrections && s.rows == t.rows
    ensures UsageKept(t)
  {
    hide RowsAgree, RowsWhole, RowsTelescope, RowsNumbered, CorrectionsTelescope;
  }

  lemma OpenOrderKeeps(s: State, id: OrderId, credits: nat, automatic: bool)
    requires Inv(s)
    ensures Inv(Committed(s, OpenOrder(s, id, credits, automatic)))
  {
    hide Payments.Consistent, UsageKept, Chained, ClawedBack, ConsumedBy, Posted;
    if id !in s.orders {
      var after := OpenOrder(s, id, credits, automatic).value;
      PostedOrder(s.entries, s.orders, id, after.orders[id]);
      assert Paid(after) == Paid(s);
      SameUsage(s, after);
      assert Chained(after) by { SameChain(s, after); }
    }
  }

  lemma SameChain(s: State, t: State)
    requires Chained(s) && s.balance == t.balance && s.entries == t.entries
    ensures Chained(t)
  {}

  lemma CloseOrderKeeps(s: State, id: OrderId)
    requires Inv(s)
    ensures Inv(Committed(s, CloseOrder(s, id)))
  {
    hide Payments.Consistent, UsageKept, Chained, ClawedBack, ConsumedBy, Posted;
    if CloseOrder(s, id).Ok? {
      var after := CloseOrder(s, id).value;
      PostedOrder(s.entries, s.orders, id, after.orders[id]);
      assert Paid(after) == Paid(s);
      SameUsage(s, after);
      SameChain(s, after);
    }
  }

  /** Without a row of its own a payment has lost nothing. */
  lemma {:induction false} NoRows(log: Payments.Log, id: OrderId)
    requires forall a :: a in log ==> a.event.entry != id
    ensures Payments.For(log, id) == []
  {
    if log != [] {
      assert log == log[..|log| - 1] + [log[|log| - 1]];
      NoRows(log[..|log| - 1], id);
    }
  }

  lemma MorePaid(log: Payments.Log, paid: map<OrderId, nat>, id: OrderId, credits: nat)
    requires Payments.Consistent(log, paid) && id !in paid
    ensures Payments.Consistent(log, paid[id := credits])
    ensures Sum(ClawedBack(log, paid[id := credits])) == Sum(ClawedBack(log, paid))
    ensures Sum(paid[id := credits]) == Sum(paid) + credits
  {
    hide Payments.For, Payments.Applied, Payments.Reconciled;
    NoRows(log, id);
    Payments.NothingDelivered(map[id := credits]);
    NothingApplied(id);
    assert ClawedBack(log, paid[id := credits]) == ClawedBack(log, paid)[id := 0];
    SumUpdate(paid, id, credits);
    SumUpdate(ClawedBack(log, paid), id, 0);
  }

  lemma NothingApplied(id: OrderId)
    ensures Payments.For([], id) == [] && Payments.Applied([]) == 0
  {}

  lemma PaymentSucceededKeeps(s: State, id: OrderId, intent: IntentId)
    requires Inv(s)
    ensures Inv(Committed(s, PaymentSucceeded(s, id, intent)))
  {
    hide Payments.Consistent, UsageKept, Chained, ClawedBack, ConsumedBy, Posted;
    var r := PaymentSucceeded(s, id, intent);
    if r.Ok? && r.value != s {
      var credits := s.orders[id].credits;
      var completed := s.(orders := s.orders[id := s.orders[id].(paidBy := Some(intent))]);
      MorePaid(s.adjustments, Paid(s), id, credits);
      PostedPayment(s.entries, s.orders, id, intent, s.balance + credits);
      SameChain(s, completed);
      PostChained(completed, TopUp(id, intent), credits);
      assert Paid(r.value) == Paid(s)[id := credits];
      SameUsage(s, r.value);
    }
  }

  lemma AppliedAppend(log: Payments.Log, a: Payments.Adjustment)
    ensures Payments.Applied(log + [a]) == Payments.Applied(log) + Payments.Signed(a)
  {
    assert (log + [a])[..|log|] == log;
  }

  lemma DeliverGrows(log: Payments.Log, e: Payments.Event, paid: map<OrderId, nat>)
    requires Payments.Deliver(log, e, paid).Ok?
    ensures var after := Payments.Deliver(log, e, paid).value;
      after == log
      || (after != [] && after == log + [after[|after| - 1]] && after[|after| - 1].event == e && e.entry in paid)
  {
    hide Payments.ExpectedDelta;
  }

  lemma MoreClawedBack(log: Payments.Log, a: Payments.Adjustment, paid: map<OrderId, nat>)
    requires a.event.entry in paid
    ensures Sum(ClawedBack(log + [a], paid)) == Sum(ClawedBack(log, paid)) + Payments.Signed(a)
  {
    hide Payments.For, Payments.Applied, Payments.Signed;
    var id := a.event.entry;
    var taken := ClawedBack(log, paid);
    forall x | x in paid
      ensures Payments.Applied(Payments.For(log + [a], x)) == taken[x] + (if x == id then Payments.Signed(a) else 0)
    {
      Payments.ForAppend(log, a, x);
      AppliedAppend(Payments.For(log, x), a);
      assert Payments.For(log, x) + [] == Payments.For(log, x);
    }
    assert ClawedBack(log + [a], paid) == taken[id := taken[id] + Payments.Signed(a)];
    SumUpdate(taken, id, taken[id] + Payments.Signed(a));
  }

  lemma PaymentAdjustedKeeps(s: State, e: Payments.Event)
    requires Inv(s)
    ensures Inv(Committed(s, PaymentAdjusted(s, e)))
  {
    hide Payments.Consistent, UsageKept, Chained, ClawedBack, ConsumedBy, Posted, Payments.Deliver;
    var r := PaymentAdjusted(s, e);
    if r.Ok? && r.value != s {
      var log := Payments.Deliver(s.adjustments, e, Paid(s)).value;
      DeliverGrows(s.adjustments, e, Paid(s));
      EntryPaid(s, e);
      Payments.DeliverKeeps(s.adjustments, e, Paid(s));
      var written := log[|log| - 1];
      var adjusted := s.(adjustments := log);
      PostedOther(s.entries, s.orders,
        Entry(PaymentAdjustment(e.kind, e.objectId), -Payments.Signed(written), s.balance - Payments.Signed(written)));
      SameChain(s, adjusted);
      PostChained(adjusted, PaymentAdjustment(e.kind, e.objectId), -Payments.Signed(written));
      assert Paid(r.value) == Paid(s);
      MoreClawedBack(s.adjustments, written, Paid(s));
      SameUsage(s, r.value);
    }
  }

  lemma EntryPaid(s: State, e: Payments.Event)
    requires PaymentAdjusted(s, e).Ok?
    ensures e.entry in Paid(s)
  {}
}
