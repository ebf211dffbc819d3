/** What every transaction of the account comes to: when it is accepted, and everything it then writes. */
module LedgerOutcomes {
  import opened Prelude
  import opened Buckets
  import opened CreditTargets
  import opened CreditRating
  import opened Ledger
  import opened LedgerRows
  import opened LedgerInvariants
  import opened LedgerSettlement
  import opened LedgerCharges
  import opened LedgerTheorems
  import opened LedgerRepeat
  import Payments = PaymentAdjustments

  // ---- Orders and payments --------------------------------------------------------------------------

  /** The payment has completed another order. */
  ghost predicate PaysAnother(s: State, id: OrderId, intent: IntentId)
  {
    exists other :: other in s.orders && other != id && s.orders[other].paidBy == Some(intent)
  }

  /**
   * A reported payment completes an unpaid order exactly when it has completed no other and the
   * order is not an automatic one that has been given up: the order's credits are added to the
   * balance by one entry, and nothing else changes. A paid order accepts its own payment again,
   * without effect, and no other.
   */
  lemma PaymentOutcome(s: State, id: OrderId, intent: IntentId)
    requires id in s.orders
    ensures var r, order := PaymentSucceeded(s, id, intent), s.orders[id];
      if order.paidBy == Some(intent) then r == Ok(s)
      else if order.paidBy.Some? then r == Err(PaymentRebindForbidden)
      else if order.automatic && order.closed then r == Err(PaymentBindingInvalid)
      else if PaysAnother(s, id, intent) then r == Err(EntryExists)
      else r == Ok(s.(
        balance := s.balance + order.credits,
        entries := s.entries + [Entry(TopUp(id, intent), order.credits, s.balance + order.credits)],
        orders := s.orders[id := Order(order.credits, order.automatic, order.closed, Some(intent))]))
  {}

  lemma UnknownOrder(s: State, id: OrderId, intent: IntentId)
    requires id !in s.orders
    ensures PaymentSucceeded(s, id, intent) == Err(PaymentBindingInvalid) && CloseOrder(s, id) == Err(PaymentBindingInvalid)
  {}

  /** An order is opened once, unpaid, and may be given up until it is paid. */
  lemma OrderOutcome(s: State, id: OrderId, credits: nat, automatic: bool)
    ensures OpenOrder(s, id, credits, automatic)
         == if id in s.orders then Err(OrderExists)
            else Ok(s.(orders := s.orders[id := Order(credits, automatic, false, None)]))
    ensures id in s.orders ==>
      CloseOrder(s, id) == if s.orders[id].paidBy.Some? then Err(PaymentBindingInvalid)
                           else Ok(s.(orders := s.orders[id := s.orders[id].(closed := true)]))
  {}

  // ---- Refunds and disputes -----------------------------------------------------------------------------

  /** A new notification has been recorded, and the balance moved by what it changes of the credits clawed back. */
  ghost predicate ClawsBack(s: State, e: Payments.Event, after: State)
  {
    var n := |s.adjustments|;
    && |after.adjustments| == n + 1 && after.adjustments[..n] == s.adjustments && after.adjustments[n].event == e
    && var moved := after.balance - s.balance;
       && Payments.Applied(Payments.For(after.adjustments, e.entry))
          == Payments.Applied(Payments.For(s.adjustments, e.entry)) - moved
       && (forall p :: p != e.entry ==> Payments.For(after.adjustments, p) == Payments.For(s.adjustments, p))
       && after == s.(balance := s.balance + moved, adjustments := after.adjustments,
            entries := if moved == 0 then s.entries
                       else s.entries + [Entry(Source.PaymentAdjustment(e.kind, e.objectId), moved, s.balance + moved)])
  }

  ghost predicate Notified(log: Payments.Log, e: Payments.Event)
  {
    exists a :: a in log && Payments.SameNotification(a.event, e)
  }

  ghost predicate Recorded(log: Payments.Log, e: Payments.Event)
  {
    exists a :: a in log && a.event == e
  }

  /**
   * A refund, dispute or reversal of a paid order moves the balance by exactly what it changes of
   * the credits clawed back from that payment, by at most one entry, and nothing of any other. It
   * is recorded once; told again it changes nothing, and contradicted it is refused.
   */
  lemma AdjustmentOutcome(s: State, e: Payments.Event)
    requires Inv(s)
    ensures var r := PaymentAdjusted(s, e);
      if !(e.entry in s.orders && s.orders[e.entry].paidBy == Some(e.intent)) then r == Err(PaymentNotFound)
      else if Recorded(s.adjustments, e) then r == Ok(s)
      else if Notified(s.adjustments, e) then r == Err(AdjustmentRebindForbidden)
      else r.Ok? && ClawsBack(s, e, r.value)
  {
    hide Chained, Conserved, Posted, UsageKept, Payments.Deliver, Payments.Reconciled, Payments.SameNotification, ClawsBack,
      Payments.Consistent;
    if e.entry in s.orders && s.orders[e.entry].paidBy == Some(e.intent) {
      assert e.entry in Paid(s);
      if Notified(s.adjustments, e) {
        KnownAdjusted(s.adjustments, e, Paid(s));
      } else {
        FreshAdjusted(s, e);
      }
      if Recorded(s.adjustments, e) { RecordedNotified(s.adjustments, e); }
    }
  }

  lemma RecordedNotified(log: Payments.Log, e: Payments.Event)
    requires Recorded(log, e)
    ensures Notified(log, e)
  {}

  lemma KnownAdjusted(log: Payments.Log, e: Payments.Event, paid: Payments.Payments)
    requires Payments.Consistent(log, paid) && e.entry in paid && Notified(log, e)
    ensures Payments.Deliver(log, e, paid) == if Recorded(log, e) then Ok(log) else Err(AdjustmentRebindForbidden)
  {
    hide Payments.ExpectedDelta, Payments.Reconciled, Payments.For;
    var found := Payments.Find(log, e);
    Payments.UniqueMember(log, found.value, e);
  }

  lemma FreshAdjusted(s: State, e: Payments.Event)
    requires Payments.Consistent(s.adjustments, Paid(s)) && e.entry in Paid(s) && !Notified(s.adjustments, e)
    requires e.entry in s.orders && s.orders[e.entry].paidBy == Some(e.intent)
    ensures PaymentAdjusted(s, e).Ok? && ClawsBack(s, e, PaymentAdjusted(s, e).value)
  {
    hide Payments.ExpectedDelta, Payments.Reconciled, Payments.For, Payments.Applied, Payments.Signed, Payments.Consistent, Paid,
      Payments.SameNotification;
    Payments.DeliverKeeps(s.adjustments, e, Paid(s));
    var log := Payments.Deliver(s.adjustments, e, Paid(s)).value;
    var a := log[|log| - 1];
    assert log == s.adjustments + [a];
    forall p
      ensures p != e.entry ==> Payments.For(log, p) == Payments.For(s.adjustments, p)
      ensures p == e.entry ==> Payments.For(log, p) == Payments.For(s.adjustments, p) + [a]
    {
      Payments.ForAppend(s.adjustments, a, p);
    }
    AppliedAppend(Payments.For(s.adjustments, e.entry), a);
    NothingSigned(a);
  }

  lemma NothingSigned(a: Payments.Adjustment)
    ensures a.amount == 0 <==> Payments.Signed(a) == 0
  {}

  // ---- What a settlement writes ---------------------------------------------------------------------------

  /** What had been settled of a service in a month. */
  function TotalBefore(s: State, month: Month, service: ServiceId): Triple
  {
    var key := SettlementKey(month, service);
    if key in s.settlements then s.settlements[key].total else Triple(0, 0, 0)
  }

  /** The entry of a service: what it consumes less, or more, than before; the first one is marked as such. */
  function SourceOf(s: State, p: Portfolio, r: RatedService): Source
  {
    Usage(SettlementKey(p.month, r.service), p.cursor, TotalBefore(s, p.month, r.service) == Triple(0, 0, 0))
  }

  function ChargeOf(s: State, p: Portfolio, r: RatedService): int
  {
    TotalBefore(s, p.month, r.service).consumed - r.consumed
  }

  function Charges(s: State, p: Portfolio, work: seq<RatedService>): seq<(Source, int)>
  {
    if work == [] then [] else
    var last := work[|work| - 1];
    Charges(s, p, work[..|work| - 1])
    + (if ChargeOf(s, p, last) == 0 then [] else [(SourceOf(s, p, last), ChargeOf(s, p, last))])
  }

  /** The entries from n on are for these sources and amounts. */
  ghost predicate Writes(entries: seq<Entry>, n: nat, charges: seq<(Source, int)>)
  {
    && |entries| == n + |charges|
    && forall i :: 0 <= i < |charges| ==> (entries[n + i].source, entries[n + i].delta) == charges[i]
  }

  lemma {:induction false} WorkWrites(t: State, p: Portfolio, work: seq<RatedService>)
    requires DistinctServices(work) && Coherent(t) && (forall r :: r in work ==> WellRated(r))
    requires ApplyAll(t, p, work).Ok?
    ensures var after := ApplyAll(t, p, work).value;
      && |t.entries| <= |after.entries| && after.entries[..|t.entries|] == t.entries
      && Writes(after.entries, |t.entries|, Charges(t, p, work))
    ensures forall r :: r in work ==> CorrectionWritten(t, p, r, ApplyAll(t, p, work).value.corrections)
  {
    hide Coherent, WellRated, CorrectionWritten, ApplyRatedService, Corrected;
    if work != [] {
      var init, last := work[..|work| - 1], work[|work| - 1];
      assert forall r :: r in work <==> r in init || r == last;
      WorkWrites(t, p, init);
      ApplyAllEffect(t, p, init);
      LastIsNew(work);
      OneWrites(t, p, ServicesOf(init), ApplyAll(t, p, init).value, last);
      forall r | r in init ensures CorrectionWritten(t, p, r, ApplyAll(t, p, work).value.corrections) {
        CorrectionStays(t, p, r, ApplyAll(t, p, init).value, last);
      }
    }
  }

  /** The correction of a service: its new totals, and their change. */
  ghost predicate CorrectionWritten(s: State, p: Portfolio, r: RatedService, corrections: seq<Correction>)
  {
    exists c :: c in corrections && c.settlement == SettlementKey(p.month, r.service) && c.snapshot == p.cursor
      && c.total == Triple(r.rated, r.consumed, r.remaining)
      && c.delta == Minus(c.total, TotalBefore(s, p.month, r.service))
  }

  lemma CorrectionStays(t: State, p: Portfolio, r: RatedService, mid: State, last: RatedService)
    requires SettlementKey(p.month, last.service) in mid.settlements && CorrectionWritten(t, p, r, mid.corrections)
    ensures CorrectionWritten(t, p, r,
      ApplyRatedService(mid, SettlementKey(p.month, last.service), p.cursor, last).corrections)
  {
    hide ChangedRows, UsersOf, NextSequence;
  }

  lemma OneWrites(t: State, p: Portfolio, done: set<ServiceId>, mid: State, r: RatedService)
    requires Corrected(t, p, done, mid) && r.service !in done && SettlementKey(p.month, r.service) in mid.settlements
    ensures var after := ApplyRatedService(mid, SettlementKey(p.month, r.service), p.cursor, r);
      && |mid.entries| <= |after.entries| && after.entries[..|mid.entries|] == mid.entries
      && Writes(after.entries, |mid.entries|,
           if ChargeOf(t, p, r) == 0 then [] else [(SourceOf(t, p, r), ChargeOf(t, p, r))])
      && CorrectionWritten(t, p, r, after.corrections)
  {
    hide LastCorrection, ReplayOf, ChangedRows, UsersOf, NextSequence;
    var key := SettlementKey(p.month, r.service);
    assert mid.settlements[key] == t.settlements[key];
    var after := ApplyRatedService(mid, key, p.cursor, r);
    var c := after.corrections[|mid.corrections|];
    assert c in after.corrections && c.total == Triple(r.rated, r.consumed, r.remaining);
  }

  ghost predicate IsCharge(s: State, p: Portfolio, work: seq<RatedService>, x: (Source, int))
  {
    exists r :: r in work && ChargeOf(s, p, r) != 0 && x == (SourceOf(s, p, r), ChargeOf(s, p, r))
  }

  /** One charge for every service whose consumption changes, and none for another. */
  lemma {:induction false} ChargesAre(s: State, p: Portfolio, work: seq<RatedService>)
    requires DistinctServices(work)
    ensures forall x :: x in Charges(s, p, work) <==> IsCharge(s, p, work, x)
    ensures SourcesDiffer(Charges(s, p, work))
  {
    hide ChargeOf, SourcesDiffer;
    if work == [] {
      assert SourcesDiffer([]) by { NoSources(); }
    } else {
      var init, last := work[..|work| - 1], work[|work| - 1];
      assert forall r :: r in work <==> r in init || r == last;
      ChargesAre(s, p, init);
      LastIsNew(work);
      var before := Charges(s, p, init);
      forall i | 0 <= i < |before| ensures before[i].0 != SourceOf(s, p, last) {
        assert before[i] in before;
        var r :| r in init && before[i] == (SourceOf(s, p, r), ChargeOf(s, p, r));
        assert r.service in ServicesOf(init);
      }
      OneMoreSource(before, (SourceOf(s, p, last), ChargeOf(s, p, last)));
    }
  }

  predicate SourcesDiffer(charges: seq<(Source, int)>)
  {
    forall i, j :: 0 <= i < j < |charges| ==> charges[i].0 != charges[j].0
  }

  lemma NoSources()
    ensures SourcesDiffer([])
  {}

  lemma OneMoreSource(charges: seq<(Source, int)>, x: (Source, int))
    requires SourcesDiffer(charges) && forall i :: 0 <= i < |charges| ==> charges[i].0 != x.0
    ensures SourcesDiffer(charges + [x]) && SourcesDiffer(charges + [])
  {
    assert charges + [] == charges;
  }

  // ---- A settlement that is applied ---------------------------------------------------------------------

  /** The services, each under the tariff it was settled with this month, or today's. */
  ghost predicate RatedUnder(s: State, p: Portfolio, env: Environment, c: Context)
  {
    && c.users == env.users
    && (forall id :: id in c.services <==>
          SettlementKey(p.month, id) in s.settlements || exists line :: line in p.lines && line.service == id)
    && forall id :: id in c.services ==>
         var key := SettlementKey(p.month, id);
         if key in s.settlements then c.services[id] == s.settlements[key].tariff
         else id in env.catalog && c.services[id] == env.catalog[id]
  }

  /** Every service's settlement, and each of its users, stands as rated. */
  ghost predicate SettledAs(after: State, p: Portfolio, c: Context, r: RatedService)
  {
    var key := SettlementKey(p.month, r.service);
    && r.service in c.services && key in after.settlements
    && after.settlements[key] == Settlement(c.services[r.service], Triple(r.rated, r.consumed, r.remaining))
    && (forall a :: a in r.allocations ==>
          Cumulative(after.rows, Subject(key, a.user)) == Triple(a.rated, a.consumed, a.remaining))
    && forall user :: (forall a :: a in r.allocations ==> a.user != user) ==>
         Cumulative(after.rows, Subject(key, user)) == Triple(0, 0, 0)
  }

  /** Credits are given back before any are taken. */
  predicate BackFirst(entries: seq<Entry>, n: nat)
  {
    forall i, j :: n <= i < j < |entries| && entries[i].delta < 0 ==> entries[j].delta < 0
  }

  /** Every rated service is settled as rated, nothing else is settled, and nothing of another month moves. */
  ghost predicate SettledOnly(s: State, p: Portfolio, c: Context, rated: seq<RatedService>, after: State)
  {
    && (forall r :: r in rated ==> SettledAs(after, p, c, r))
    && (forall k :: k in s.settlements && k.month != p.month ==>
          k in after.settlements && after.settlements[k] == s.settlements[k])
    && forall k :: k in after.settlements ==> k.month == p.month || k in s.settlements
  }

  /** One entry for every service whose consumption changes, by that change, credits given back first; and all corrections. */
  ghost predicate Entered(s: State, p: Portfolio, rated: seq<RatedService>, after: State)
  {
    var n := |s.entries|;
    && n <= |after.entries| && after.entries[..n] == s.entries
    && (forall i :: n <= i < |after.entries| ==>
          IsCharge(s, p, rated, (after.entries[i].source, after.entries[i].delta)))
    && (forall r :: r in rated && ChargeOf(s, p, r) != 0 ==> HasEntry(s, p, r, after.entries))
    && (forall i, j :: n <= i < j < |after.entries| ==> after.entries[i].source != after.entries[j].source)
    && BackFirst(after.entries, n)
    && forall r :: r in rated ==> CorrectionWritten(s, p, r, after.corrections)
  }

  ghost predicate HasEntry(s: State, p: Portfolio, r: RatedService, entries: seq<Entry>)
  {
    exists i :: |s.entries| <= i < |entries|
      && entries[i].source == SourceOf(s, p, r) && entries[i].delta == ChargeOf(s, p, r)
  }

  /** Everything an applied settlement writes, and that it writes nothing else. */
  ghost predicate AppliedAs(s: State, p: Portfolio, c: Context, rated: seq<RatedService>, after: State)
  {
    && after.snapshots == s.snapshots[p.cursor := Snapshot(p.month, p.capturedAt, p.lines)]
    && after.orders == s.orders && after.adjustments == s.adjustments
    && SettledOnly(s, p, c, rated, after) && Entered(s, p, rated, after)
  }

  lemma ContextIs(s: State, p: Portfolio, env: Environment)
    requires Products(p.lines) <= env.catalog.Keys
    ensures RatedUnder(s, p, env, RatingContext(s, p, env))
  {
    hide RatingContext;
    var c := RatingContext(s, p, env);
    ContextCovers(s, p, env);
    forall id
      ensures id in c.services
        <==> SettlementKey(p.month, id) in s.settlements || exists line :: line in p.lines && line.service == id
    {
      SettledIs(s, p.month, id);
      assert id in Products(p.lines) <==> exists line :: line in p.lines && line.service == id;
    }
    forall id | id in c.services
      ensures var key := SettlementKey(p.month, id);
        if key in s.settlements then c.services[id] == s.settlements[key].tariff
        else id in env.catalog && c.services[id] == env.catalog[id]
    {
      if SettlementKey(p.month, id) in s.settlements {
        SettledTariff(s, p, env, id);
      } else {
        StartingTariff(s, p, env, id);
      }
    }
  }

  lemma SettledIs(s: State, month: Month, id: ServiceId)
    ensures id in Settled(s, month) <==> SettlementKey(month, id) in s.settlements
  {
    if id in Settled(s, month) {
      var k :| k in s.settlements && k.month == month && k.service == id;
      assert k == SettlementKey(month, id);
    }
  }

  lemma StartingTariff(s: State, p: Portfolio, env: Environment, id: ServiceId)
    requires Products(p.lines) <= env.catalog.Keys
    requires id in RatingContext(s, p, env).services && SettlementKey(p.month, id) !in s.settlements
    ensures id in env.catalog && RatingContext(s, p, env).services[id] == env.catalog[id]
  {
    SettledIs(s, p.month, id);
  }

  lemma PreparedBefore(s: State, p: Portfolio, c: Context, service: ServiceId)
    ensures TotalBefore(Prepare(s, p, c), p.month, service) == TotalBefore(s, p.month, service)
  {
    hide Prepare;
    PreparedSettlements(s, p, c);
  }

  lemma {:induction false} ChargesConcat(s: State, p: Portfolio, a: seq<RatedService>, b: seq<RatedService>)
    ensures Charges(s, p, a + b) == Charges(s, p, a) + Charges(s, p, b)
  {
    hide ChargeOf, SourceOf;
    if b == [] {
      assert a + b == a;
    } else {
      ChargesConcat(s, p, a, b[..|b| - 1]);
      assert (a + b)[..|a + b| - 1] == a + b[..|b| - 1];
    }
  }

  /** The work gives credits back before it takes any. */
  lemma WorkBackFirst(t: State, p: Portfolio, rated: seq<RatedService>)
    requires DistinctServices(rated) && forall r :: r in rated ==> SettlementKey(p.month, r.service) in t.settlements
    ensures var charges := Charges(t, p, WorkOrder(t, p.month, rated));
      forall i, j :: 0 <= i < j < |charges| && charges[i].1 < 0 ==> charges[j].1 < 0
  {
    hide Charges, Select, SourceOf;
    var a, b := Select(t, p.month, rated, true), Select(t, p.month, rated, false);
    SelectIs(t, p.month, rated, true);
    SelectIs(t, p.month, rated, false);
    ChargesConcat(t, p, a, b);
    ChargesAre(t, p, a);
    ChargesAre(t, p, b);
    var first, second := Charges(t, p, a), Charges(t, p, b);
    forall x | x in first ensures x.1 > 0 {
      assert IsCharge(t, p, a, x);
    }
    forall x | x in second ensures x.1 < 0 {
      assert IsCharge(t, p, b, x);
    }
  }

  /**
   * An applied settlement rates the month's usage under the tariffs that hold, from what has been
   * allocated, and writes exactly that rating: totals, corrections, users' rows, and one entry for
   * every service whose consumption changes, credits given back first.
   */
  lemma SettlementApplied(s: State, p: Portfolio, env: Environment, after: State)
    returns (previous: seq<PreviousAllocation>, rated: seq<RatedService>)
    requires Inv(s) && Settles(s, p, env, after, Ok(Applied))
    ensures Products(p.lines) <= env.catalog.Keys && ListsPrevious(previous, s, p.month)
    ensures var c := RatingContext(s, p, env);
      && RatedUnder(s, p, env, c) && IsRating(Ok(rated), p.lines, previous, s.balance, c)
      && AppliedAs(s, p, c, rated, after)
  {
    hide Inv, IsRating, ListsPrevious, RatingContext, AppliedAs, RatedUnder, Wrote, Settles, WellRated;
    previous, rated := FirstWrote(s, p, env, after);
    WroteFacts(s, p, env, previous, rated, after);
    var c := RatingContext(s, p, env);
    ContextIs(s, p, env);
    WroteIsWriting(s, p, env, previous, rated, after);
    WrittenAs(s, p, env, previous, rated, AmountsFor(p, c), after);
  }

  lemma WroteFacts(s: State, p: Portfolio, env: Environment, previous: seq<PreviousAllocation>, rated: seq<RatedService>,
                   after: State)
    requires Wrote(s, p, env, previous, rated, after)
    ensures Products(p.lines) <= env.catalog.Keys && ListsPrevious(previous, s, p.month)
    ensures IsRating(Ok(rated), p.lines, previous, s.balance, RatingContext(s, p, env))
    ensures p.cursor !in s.snapshots
  {
    hide Inv, IsRating, ListsPrevious, RatingContext, Prepare, ApplyAll, WorkOrder, StartsInDollars;
  }

  lemma WrittenAs(s: State, p: Portfolio, env: Environment, previous: seq<PreviousAllocation>, rated: seq<RatedService>,
                  amounts: Amounts, after: State)
    requires Products(p.lines) <= env.catalog.Keys
    requires var c := RatingContext(s, p, env); Writing(Prepare(s, p, c), p, c, previous, rated, amounts, after)
    ensures AppliedAs(s, p, RatingContext(s, p, env), rated, after)
  {
    hide RatingContext, Prepare, Writing, SettledAs, Entered;
    var c := RatingContext(s, p, env);
    var t := Prepare(s, p, c);
    PreparedSettlements(s, p, c);
    WritingKeeps(t, p, c, previous, rated, amounts, after);
    SettlementsStayed(t, p, c, previous, rated, amounts, after);
    TariffsKept(s, p, env, after);
    WritingStands(t, p, c, previous, rated, amounts, after);
    forall r | r in rated ensures SettledAs(after, p, c, r) {
      RatedKnown(t, p, c, previous, rated, amounts, after, r);
      StandsAs(after, p, c, r);
    }
    WrittenEntries(s, p, c, previous, rated, amounts, after);
  }

  lemma SettlementsStayed(t: State, p: Portfolio, c: Context, previous: seq<PreviousAllocation>, rated: seq<RatedService>,
                          amounts: Amounts, after: State)
    requires Writing(t, p, c, previous, rated, amounts, after)
    ensures after.settlements.Keys == t.settlements.Keys
    ensures forall k :: k in t.settlements ==> after.settlements[k].tariff == t.settlements[k].tariff
  {
    hide Coherent, RatedFor, WellRated, WorkOrder;
    SettlementsStay(t, p, WorkOrder(t, p.month, rated));
  }

  lemma WritingKeeps(t: State, p: Portfolio, c: Context, previous: seq<PreviousAllocation>, rated: seq<RatedService>,
                     amounts: Amounts, after: State)
    requires Writing(t, p, c, previous, rated, amounts, after)
    ensures after.snapshots == t.snapshots && after.orders == t.orders && after.adjustments == t.adjustments
    ensures after.settlements.Keys == t.settlements.Keys
    ensures forall k :: k in t.settlements && k.month != p.month ==> after.settlements[k] == t.settlements[k]
  {
    hide Coherent, RatedFor, WellRated, WorkOrder, LastCorrection, ReplayOf;
    WorkOrderIs(t, p.month, rated);
    ApplyAllEffect(t, p, WorkOrder(t, p.month, rated));
  }

  lemma RatedKnown(t: State, p: Portfolio, c: Context, previous: seq<PreviousAllocation>, rated: seq<RatedService>,
                   amounts: Amounts, after: State, r: RatedService)
    requires Writing(t, p, c, previous, rated, amounts, after) && r in rated
    ensures r.service in c.services && SettlementKey(p.month, r.service) in t.settlements
    ensures forall i, j :: 0 <= i < j < |r.allocations| ==> r.allocations[i].user != r.allocations[j].user
  {
    hide Coherent, WorkOrder, Targets, ListsPrevious, ServiceRated;
    assert r.service in set x | x in rated :: x.service;
    assert WellRated(r);
  }

  lemma StandsAs(after: State, p: Portfolio, c: Context, r: RatedService)
    requires Stands(after, p.month, r) && KeepsTariffs(after, p.month, c) && r.service in c.services
    requires forall i, j :: 0 <= i < j < |r.allocations| ==> r.allocations[i].user != r.allocations[j].user
    ensures SettledAs(after, p, c, r)
  {
    hide Cumulative, TargetOf, Settled;
    var key := SettlementKey(p.month, r.service);
    forall a | a in r.allocations
      ensures Cumulative(after.rows, Subject(key, a.user)) == Triple(a.rated, a.consumed, a.remaining)
    {
      var i :| 0 <= i < |r.allocations| && r.allocations[i] == a;
      TargetIs(r.allocations, i);
      assert Cumulative(after.rows, Subject(key, a.user)) == TargetOf(r.allocations, a.user);
    }
    forall user | forall a :: a in r.allocations ==> a.user != user
      ensures Cumulative(after.rows, Subject(key, user)) == Triple(0, 0, 0)
    {
      NoTarget(r.allocations, user);
      assert Cumulative(after.rows, Subject(key, user)) == TargetOf(r.allocations, user);
    }
  }

  lemma WrittenEntries(s: State, p: Portfolio, c: Context, previous: seq<PreviousAllocation>, rated: seq<RatedService>,
                       amounts: Amounts, after: State)
    requires Writing(Prepare(s, p, c), p, c, previous, rated, amounts, after)
    ensures Entered(s, p, rated, after)
  {
    hide Prepare, Coherent, RatedFor, WellRated, WorkOrder, ApplyAll, Entered, Charges, CorrectionWritten;
    var t := Prepare(s, p, c);
    PreparedSettlements(s, p, c);
    var work := WorkOrder(t, p.month, rated);
    WorkOrderIs(t, p.month, rated);
    WorkWrites(t, p, work);
    ChargesAre(t, p, work);
    forall r | r in rated ensures SettlementKey(p.month, r.service) in t.settlements {
      RatedKnown(t, p, c, previous, rated, amounts, after, r);
    }
    WorkBackFirst(t, p, rated);
    forall r | r in rated ensures CorrectionWritten(s, p, r, after.corrections) {
      SameCorrection(s, p, c, r, after.corrections);
    }
    forall x ensures x in Charges(t, p, work) <==> IsCharge(s, p, rated, x) {
      SameCharge(s, p, c, rated, work, x);
    }
    EnteredFrom(s, p, rated, after, Charges(t, p, work));
  }

  lemma SameCorrection(s: State, p: Portfolio, c: Context, r: RatedService, corrections: seq<Correction>)
    requires CorrectionWritten(Prepare(s, p, c), p, r, corrections)
    ensures CorrectionWritten(s, p, r, corrections)
  {
    hide Prepare, TotalBefore;
    PreparedBefore(s, p, c, r.service);
  }

  lemma SameCharge(s: State, p: Portfolio, c: Context, rated: seq<RatedService>, work: seq<RatedService>, x: (Source, int))
    requires forall r :: r in work <==> r in rated
    ensures IsCharge(Prepare(s, p, c), p, work, x) <==> IsCharge(s, p, rated, x)
  {
    hide Prepare, TotalBefore;
    forall r ensures TotalBefore(Prepare(s, p, c), p.month, r) == TotalBefore(s, p.month, r) {
      PreparedBefore(s, p, c, r);
    }
  }

  lemma EnteredFrom(s: State, p: Portfolio, rated: seq<RatedService>, after: State, charges: seq<(Source, int)>)
    requires |s.entries| <= |after.entries| && after.entries[..|s.entries|] == s.entries
    requires Writes(after.entries, |s.entries|, charges)
    requires forall x :: x in charges <==> IsCharge(s, p, rated, x)
    requires SourcesDiffer(charges)
    requires forall i, j :: 0 <= i < j < |charges| && charges[i].1 < 0 ==> charges[j].1 < 0
    requires forall r :: r in rated ==> CorrectionWritten(s, p, r, after.corrections)
    ensures Entered(s, p, rated, after)
  {
    hide CorrectionWritten, IsCharge, SourceOf, ChargeOf, Writes, HasEntry, BackFirst;
    EntriesInOrder(after.entries, |s.entries|, charges);
    forall i | |s.entries| <= i < |after.entries|
      ensures IsCharge(s, p, rated, (after.entries[i].source, after.entries[i].delta))
    {
      assert charges[i - |s.entries|] in charges;
    }
    forall r | r in rated && ChargeOf(s, p, r) != 0 ensures HasEntry(s, p, r, after.entries) {
      ChargedIs(s, p, rated, r);
      EntryFound(s, p, r, after.entries, charges);
    }
  }

  lemma EntriesInOrder(entries: seq<Entry>, n: nat, charges: seq<(Source, int)>)
    requires Writes(entries, n, charges)
    requires SourcesDiffer(charges)
    requires forall i, j :: 0 <= i < j < |charges| && charges[i].1 < 0 ==> charges[j].1 < 0
    ensures |entries| == n + |charges|
    ensures forall i :: n <= i < |entries| ==> (entries[i].source, entries[i].delta) == charges[i - n]
    ensures forall i, j :: n <= i < j < |entries| ==> entries[i].source != entries[j].source
    ensures BackFirst(entries, n)
  {
    forall i | n <= i < |entries| ensures (entries[i].source, entries[i].delta) == charges[i - n] {
      assert (entries[n + (i - n)].source, entries[n + (i - n)].delta) == charges[i - n];
    }
    forall i, j | n <= i < j < |entries|
      ensures entries[i].source != entries[j].source && (entries[i].delta < 0 ==> entries[j].delta < 0)
    {
      assert charges[i - n].0 != charges[j - n].0 && (charges[i - n].1 < 0 ==> charges[j - n].1 < 0);
    }
  }

  lemma EntryFound(s: State, p: Portfolio, r: RatedService, entries: seq<Entry>, charges: seq<(Source, int)>)
    requires Writes(entries, |s.entries|, charges) && (SourceOf(s, p, r), ChargeOf(s, p, r)) in charges
    ensures HasEntry(s, p, r, entries)
  {
    hide SourceOf, ChargeOf;
    var i :| 0 <= i < |charges| && charges[i] == (SourceOf(s, p, r), ChargeOf(s, p, r));
    var x := |s.entries| + i;
    assert entries[x].source == SourceOf(s, p, r) && entries[x].delta == ChargeOf(s, p, r);
  }

  lemma ChargedIs(s: State, p: Portfolio, rated: seq<RatedService>, r: RatedService)
    requires r in rated && ChargeOf(s, p, r) != 0
    ensures IsCharge(s, p, rated, (SourceOf(s, p, r), ChargeOf(s, p, r)))
  {}

  // ---- Which settlement comes to what -----------------------------------------------------------------

  /** A capture of the same month that is as late or later has been taken. */
  ghost predicate Overtaken(s: State, p: Portfolio)
  {
    exists c :: c in s.snapshots && s.snapshots[c].month == p.month && s.snapshots[c].capturedAt >= p.capturedAt
  }

  predicate AllIn(lines: seq<UsageLine>, services: set<ServiceId>)
  {
    forall line :: line in lines ==> line.service in services
  }

  lemma AllInIs(lines: seq<UsageLine>, services: set<ServiceId>)
    ensures AllIn(lines, services) <==> Products(lines) <= services
  {
    if AllIn(lines, services) {
      forall id | id in Products(lines) ensures id in services {}
    } else {
      var line :| line in lines && line.service !in services;
      assert line.service in Products(lines);
    }
  }

  /**
   * What a settlement comes to before anything is rated: a capture that has been taken must be as
   * it was then; a new one is superseded exactly when one of its month is as late; and its services
   * must be known and active.
   */
  lemma BeforeRating(s: State, p: Portfolio, env: Environment, after: State, r: Result<Outcome>)
    requires Settles(s, p, env, after, r)
    ensures var taken := p.cursor in s.snapshots;
      && (taken && s.snapshots[p.cursor] != Snapshot(p.month, p.capturedAt, p.lines) ==>
            r == Err(SnapshotMutated) && after == s)
      && (!taken && Overtaken(s, p) ==> r == Ok(Superseded) && after == s)
      && (r == Ok(Superseded) ==> !taken && Overtaken(s, p))
      && ((if taken then s.snapshots[p.cursor] == Snapshot(p.month, p.capturedAt, p.lines) else !Overtaken(s, p)) ==>
            && (!AllIn(p.lines, env.catalog.Keys) ==> r == Err(ServiceUnknown) && after == s)
            && (AllIn(p.lines, env.catalog.Keys) && !AllIn(p.lines, env.active) ==> r == Err(ServiceInactive) && after == s))
  {
    hide IsRating, ListsPrevious, RatingContext, ApplyAll, WorkOrder, Prepare, ReplayedServices, ReplayMatches, StartsInDollars,
      Products, AllIn;
    AllInIs(p.lines, env.catalog.Keys);
    AllInIs(p.lines, env.active);
    assert Overtaken(s, p) <==> IsStale(s, p);
  }

  /** A correction of the service by this capture. */
  ghost predicate CorrectedBy(s: State, p: Portfolio, id: ServiceId, c: Correction)
  {
    c in s.corrections && c.settlement == SettlementKey(p.month, id) && c.snapshot == p.cursor
  }

  ghost predicate AnyCorrected(s: State, p: Portfolio)
  {
    exists id, c :: CorrectedBy(s, p, id, c)
  }

  /** Every service settled this month has been corrected by this capture. */
  ghost predicate AllCorrected(s: State, p: Portfolio)
  {
    forall k :: k in s.settlements && k.month == p.month ==> exists c :: CorrectedBy(s, p, k.service, c)
  }

  lemma {:induction false} ReplayFound(corrections: seq<Correction>, k: SettlementKey, snapshot: Cursor)
    ensures ReplayOf(corrections, k, snapshot).Some?
      <==> exists c :: c in corrections && c.settlement == k && c.snapshot == snapshot
  {
    if corrections != [] {
      var init, last := corrections[..|corrections| - 1], corrections[|corrections| - 1];
      assert forall c :: c in corrections <==> c in init || c == last;
      ReplayFound(init, k, snapshot);
    }
  }

  lemma ReplayIs(s: State, p: Portfolio, id: ServiceId)
    ensures ReplayOf(s.corrections, SettlementKey(p.month, id), p.cursor).Some? <==> exists c :: CorrectedBy(s, p, id, c)
  {
    hide ReplayOf;
    ReplayFound(s.corrections, SettlementKey(p.month, id), p.cursor);
    if c :| c in s.corrections && c.settlement == SettlementKey(p.month, id) && c.snapshot == p.cursor {
      assert CorrectedBy(s, p, id, c);
    }
  }

  /**
   * A capture that is delivered again, once it can be rated, is a replay when it has corrected every
   * service of the month and the amounts are the same; it is refused as mutated when they are not,
   * as partial when it has corrected some services only, and as older when it has corrected none.
   */
  lemma DeliveredAgain(s: State, p: Portfolio, env: Environment, previous: seq<PreviousAllocation>,
                       rating: Result<seq<RatedService>>)
    requires Inv(s) && p.cursor in s.snapshots && s.snapshots[p.cursor] == SnapshotOf(p)
    requires Products(p.lines) <= env.catalog.Keys
    requires ListsPrevious(previous, s, p.month)
    requires IsRating(rating, p.lines, previous, s.balance, RatingContext(s, p, env)) && rating.Ok?
    ensures var r := Write(s, p, RatingContext(s, p, env), rating.value);
      if AllCorrected(s, p) then r == if SameAmounts(s, p, rating.value) then Ok((s, Replayed)) else Err(SnapshotMutated)
      else if AnyCorrected(s, p) then r == Err(PartialSnapshot)
      else r == Err(OlderSnapshot)
  {
    hide Inv, IsRating, ListsPrevious, RatingContext, Write, ReplayMatches, ReplayOf, SameAmounts, AllCorrected, AnyCorrected;
    RedeliveryOutcome(s, p, env, previous, rating);
    ReplayedAll(s, p);
    ReplayedAny(s, p);
    SameAmountsIs(s, p, rating.value);
  }

  /** What the capture has corrected is rated the same again. */
  ghost predicate SameAmounts(s: State, p: Portfolio, rated: seq<RatedService>)
  {
    forall r :: r in rated ==>
      var c := ReplayOf(s.corrections, SettlementKey(p.month, r.service), p.cursor);
      c.Some? ==> c.value.total.rated == r.rated
  }

  lemma SameAmountsIs(s: State, p: Portfolio, rated: seq<RatedService>)
    ensures ReplayMatches(s, p, rated) <==> SameAmounts(s, p, rated)
  {}

  lemma ReplayedAll(s: State, p: Portfolio)
    ensures AllCorrected(s, p) <==> ReplayedServices(s, p, Settled(s, p.month)) == Settled(s, p.month)
  {
    hide ReplayOf, CorrectedBy;
    forall id ensures ReplayOf(s.corrections, SettlementKey(p.month, id), p.cursor).Some? <==> exists c :: CorrectedBy(s, p, id, c) {
      ReplayIs(s, p, id);
    }
    if AllCorrected(s, p) {
      forall id | id in Settled(s, p.month) ensures id in ReplayedServices(s, p, Settled(s, p.month)) {
        SettledIs(s, p.month, id);
      }
    } else {
      var k :| k in s.settlements && k.month == p.month && !exists c :: CorrectedBy(s, p, k.service, c);
      assert k.service in Settled(s, p.month) && k.service !in ReplayedServices(s, p, Settled(s, p.month));
    }
  }

  lemma ReplayedAny(s: State, p: Portfolio)
    requires Inv(s)
    ensures AnyCorrected(s, p) <==> ReplayedServices(s, p, Settled(s, p.month)) != {}
  {
    hide ReplayOf, Chained, Conserved, Posted, PaymentsKept, RowsAgree, RowsTelescope, RowsWhole, RowsNumbered,
      CorrectionsTelescope, TotalsCurrent, SnapshotsApplied, CapturesDistinct, ProductsSettled, TariffsInDollars;
    if AnyCorrected(s, p) {
      var id, c :| CorrectedBy(s, p, id, c);
      ReplayIs(s, p, id);
      SettledIs(s, p.month, id);
      assert id in ReplayedServices(s, p, Settled(s, p.month));
    }
    if id :| id in ReplayedServices(s, p, Settled(s, p.month)) {
      ReplayIs(s, p, id);
    }
  }

  /** A new capture that can be rated and starts nothing outside dollars is applied, unless there is nothing to settle. */
  lemma FreshOutcome(s: State, p: Portfolio, env: Environment, previous: seq<PreviousAllocation>,
                     rating: Result<seq<RatedService>>)
    requires Inv(s) && p.cursor !in s.snapshots && !IsStale(s, p) && Products(p.lines) <= env.catalog.Keys
    requires ListsPrevious(previous, s, p.month)
    requires IsRating(rating, p.lines, previous, s.balance, RatingContext(s, p, env)) && rating.Ok?
    ensures var r := Write(s, p, RatingContext(s, p, env), rating.value);
      if exists line :: line in p.lines && SettlementKey(p.month, line.service) !in s.settlements
           && env.catalog[line.service].currency != "USD"
      then r == Err(TariffNotInDollars)
      else r.Ok? && r.value.1 == if p.lines == [] && Settled(s, p.month) == {} then Replayed else Applied
  {
    hide Inv, IsRating, ListsPrevious, WritePrepared, RatingContext, StartsInDollars, Safe, Prepare;
    var c := RatingContext(s, p, env);
    FreshWrites(s, p, env, previous, rating);
    DollarsIs(s, p, env);
    ContextCovers(s, p, env);
    FreshIsNewest(s, p, c);
    NoProducts(p.lines);
    if StartsInDollars(s, p, c) {
      WrittenOutcome(Prepare(s, p, c), p, c, rating.value);
    }
  }

  lemma NoProducts(lines: seq<UsageLine>)
    ensures Products(lines) == {} <==> lines == []
  {
    if lines != [] { assert lines[0].service in Products(lines); }
  }

  lemma DollarsIs(s: State, p: Portfolio, env: Environment)
    requires Products(p.lines) <= env.catalog.Keys
    ensures StartsInDollars(s, p, RatingContext(s, p, env))
      <==> !exists line :: line in p.lines && SettlementKey(p.month, line.service) !in s.settlements
             && line.service in env.catalog && env.catalog[line.service].currency != "USD"
  {
    hide RatingContext;
    ContextIs(s, p, env);
  }

  lemma WrittenOutcome(t: State, p: Portfolio, c: Context, rated: seq<RatedService>)
    requires ReplayedServices(t, p, c.services.Keys) == {} && WritePrepared(t, p, c, rated).Ok?
    ensures WritePrepared(t, p, c, rated).value.1 == if c.services.Keys == {} then Replayed else Applied
  {
    hide ApplyAll, WorkOrder, ReplayedServices, ReplayMatches;
  }

  // ---- Events -------------------------------------------------------------------------------------------

  /** Each event is its transaction; one that is refused changes nothing. */
  lemma EventsCommit(s: State, e: Event, after: State)
    requires Step(s, e, after)
    ensures match e
      case OrderOpened(id, credits, automatic) =>
        after == if OpenOrder(s, id, credits, automatic).Ok? then OpenOrder(s, id, credits, automatic).value else s
      case OrderClosed(id) => after == if CloseOrder(s, id).Ok? then CloseOrder(s, id).value else s
      case OrderPaid(id, intent) => after == if PaymentSucceeded(s, id, intent).Ok? then PaymentSucceeded(s, id, intent).value else s
      case Adjusted(e) => after == if PaymentAdjusted(s, e).Ok? then PaymentAdjusted(s, e).value else s
      case PortfolioSettled(p, env) => exists r :: Settles(s, p, env, after, r)
  {
    hide Settles;
  }
}
