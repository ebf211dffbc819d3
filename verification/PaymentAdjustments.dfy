/**
 * Refunds, disputes and their reversals: how much of a paid top-up is clawed back, whatever
 * the order and the number of times the notifications arrive.
 */
module PaymentAdjustments {
  import opened Prelude
  import opened Sums

  type EntryId = nat

  datatype Kind = Refund | Dispute | RefundReversal | DisputeReversal

  /** A refund or a dispute together with its reversal. */
  datatype Family = Family(refund: bool, objectId: nat)

  /** A verified notification about the payment that wrote the credit entry `entry`. */
  datatype Event =
    Event(entry: EntryId, kind: Kind, objectId: nat, amountMinor: nat, intent: nat, charge: nat)

  /** The row kept for a notification, with the credits it moved. */
  datatype Adjustment = Adjustment(event: Event, amount: nat)

  const MICROCREDITS_PER_MINOR: nat := 10_000_000

  predicate IsReversal(kind: Kind)
  {
    kind.RefundReversal? || kind.DisputeReversal?
  }

  function FamilyOf(e: Event): Family
  {
    Family(e.kind.Refund? || e.kind.RefundReversal?, e.objectId)
  }

  function Principal(e: Event): nat
  {
    e.amountMinor * MICROCREDITS_PER_MINOR
  }

  function Signed(a: Adjustment): int
  {
    var amount: int := a.amount;
    if IsReversal(a.event.kind) then -amount else amount
  }

  // ---- What should be clawed back ------------------------------------------------------

  type Log = seq<Adjustment>
  type Principals = map<Family, nat>

  function With(m: Principals, e: Event, reversal: bool): Principals
  {
    if IsReversal(e.kind) == reversal then m[FamilyOf(e) := Principal(e)] else m
  }

  /** The refunded and disputed principals (or the restored ones) a log speaks of. */
  function PrincipalsOf(log: Log, reversal: bool): Principals
  {
    if log == [] then map[] else
    With(PrincipalsOf(log[..|log| - 1], reversal), log[|log| - 1].event, reversal)
  }

  function Applied(log: Log): int
  {
    if log == [] then 0 else Applied(log[..|log| - 1]) + Signed(log[|log| - 1])
  }

  function OutstandingOf(active: Principals, restored: Principals, k: Family): nat
    requires k in active
  {
    var restoredAmount: int := if k in restored then restored[k] else 0;
    AtLeastZero(active[k] - restoredAmount)
  }

  ghost function Outstanding(active: Principals, restored: Principals): map<Family, nat>
  {
    map k | k in active :: OutstandingOf(active, restored, k)
  }

  /** The principal in dispute or refunded and not restored, but never more than was paid. */
  ghost function Desired(active: Principals, restored: Principals, paid: nat): (d: int)
    ensures 0 <= d <= paid
  {
    SumNonNegative(Outstanding(active, restored));
    Min(Sum(Outstanding(active, restored)), paid)
  }

  ghost function DesiredFor(log: Log, paid: nat): int
  {
    Desired(PrincipalsOf(log, false), PrincipalsOf(log, true), paid)
  }

  /** The credits a notification must move, or a conflict when they would move the wrong way. */
  ghost function ExpectedDelta(log: Log, e: Event, paid: nat): Result<nat>
  {
    var delta := Desired(With(PrincipalsOf(log, false), e, false), With(PrincipalsOf(log, true), e, true), paid)
      - Applied(log);
    if (IsReversal(e.kind) && delta > 0) || (!IsReversal(e.kind) && delta < 0) then Err(AdjustmentStateConflict)
    else Ok(if delta < 0 then -delta else delta)
  }

  method ExpectedAppliedDelta(states: Log, e: Event, paid: nat) returns (r: Result<nat>)
    ensures r == ExpectedDelta(states, e, paid)
  {
    var active: Principals, restored: Principals := map[], map[];
    var currentlyApplied := 0;
    for i := 0 to |states|
      invariant active == PrincipalsOf(states[..i], false) && restored == PrincipalsOf(states[..i], true)
      invariant currentlyApplied == Applied(states[..i])
    {
      assert states[..i + 1][..i] == states[..i];
      var state := states[i];
      if IsReversal(state.event.kind) {
        restored := restored[FamilyOf(state.event) := Principal(state.event)];
      } else {
        active := active[FamilyOf(state.event) := Principal(state.event)];
      }
      currentlyApplied := currentlyApplied + Signed(state);
    }
    assert states[..|states|] == states;
    if IsReversal(e.kind) {
      restored := restored[FamilyOf(e) := Principal(e)];
    } else {
      active := active[FamilyOf(e) := Principal(e)];
    }
    var activePrincipal := ActivePrincipal(active, restored);
    var desiredApplied := if activePrincipal < paid then activePrincipal else paid;
    var delta := desiredApplied - currentlyApplied;
    if (IsReversal(e.kind) && delta > 0) || (!IsReversal(e.kind) && delta < 0) {
      return Err(AdjustmentStateConflict);
    }
    r := Ok(if delta < 0 then -delta else delta);
  }

  method ActivePrincipal(active: Principals, restored: Principals) returns (principal: int)
    ensures principal == Sum(Outstanding(active, restored))
  {
    ghost var net := Outstanding(active, restored);
    var rest := active.Keys;
    principal := 0;
    assert net - rest == map[];
    while rest != {}
      invariant rest <= active.Keys
      invariant principal == Sum(net - rest)
      decreases |rest|
    {
      var k :| k in rest;
      SumRemove(net - (rest - {k}), k);
      assert net - (rest - {k}) - {k} == net - rest;
      principal := principal + OutstandingOf(active, restored, k);
      rest := rest - {k};
    }
    assert net - rest == net;
  }

  // ---- The reconciliation invariant ------------------------------------------------------

  /** A log of one payment holds each notification once. */
  ghost predicate Unique(log: Log)
  {
    forall i, j :: 0 <= i < j < |log| ==> !SameNotification(log[i].event, log[j].event)
  }

  predicate SameNotification(a: Event, b: Event)
  {
    a.kind == b.kind && a.objectId == b.objectId
  }

  ghost predicate Fresh(log: Log, e: Event)
  {
    forall a :: a in log ==> !SameNotification(a.event, e)
  }

  /** What has been clawed back is exactly what should be. */
  ghost predicate Reconciled(log: Log, paid: nat)
  {
    Applied(log) == DesiredFor(log, paid)
  }

  lemma {:induction false} FreshFamily(log: Log, e: Event)
    requires Fresh(log, e)
    ensures FamilyOf(e) !in PrincipalsOf(log, IsReversal(e.kind))
  {
    if log != [] {
      var init, last := log[..|log| - 1], log[|log| - 1];
      assert log == init + [last];
      assert last in log;
      FreshFamily(init, e);
    }
  }

  lemma MoreActive(active: Principals, restored: Principals, k: Family, p: nat)
    requires k !in active
    ensures Sum(Outstanding(active[k := p], restored))
         == Sum(Outstanding(active, restored)) + AtLeastZero(p - (if k in restored then restored[k] else 0))
  {
    var before, after := Outstanding(active, restored), Outstanding(active[k := p], restored);
    SumRemove(after, k);
    assert after - {k} == before;
  }

  lemma MoreRestored(active: Principals, restored: Principals, k: Family, p: nat)
    requires k !in restored
    ensures Sum(Outstanding(active, restored[k := p]))
         == Sum(Outstanding(active, restored)) - (if k in active then Min(active[k], p) else 0)
  {
    var before, after := Outstanding(active, restored), Outstanding(active, restored[k := p]);
    if k in active {
      SumRemove(after, k);
      SumRemove(before, k);
      assert after - {k} == before - {k};
    } else {
      assert after == before;
    }
  }

  /**
   * The conflict error cannot occur for a new notification, and recording it with the
   * expected delta keeps the payment reconciled.
   */
  lemma NoConflict(log: Log, e: Event, paid: nat)
    requires Fresh(log, e) && Reconciled(log, paid)
    ensures ExpectedDelta(log, e, paid).Ok?
    ensures Reconciled(log + [Adjustment(e, ExpectedDelta(log, e, paid).value)], paid)
  {
    var active, restored := PrincipalsOf(log, false), PrincipalsOf(log, true);
    FreshFamily(log, e);
    if IsReversal(e.kind) {
      MoreRestored(active, restored, FamilyOf(e), Principal(e));
    } else {
      MoreActive(active, restored, FamilyOf(e), Principal(e));
    }
    assert ExpectedDelta(log, e, paid).Ok?;
    var a := Adjustment(e, ExpectedDelta(log, e, paid).value);
    assert (log + [a])[..|log|] == log;
  }

  /** The database recomputes the change from the one family concerned, and always agrees. */
  ghost function TriggerActiveAfter(log: Log, e: Event): int
  {
    var active, restored := PrincipalsOf(log, false), PrincipalsOf(log, true);
    var activeBefore := Sum(Outstanding(active, restored));
    var k := FamilyOf(e);
    if IsReversal(e.kind) then
      activeBefore - Min(if k in active then OutstandingOf(active, restored, k) else 0, Principal(e))
    else
      activeBefore + AtLeastZero(Principal(e) - (if k in restored then restored[k] else 0))
  }

  lemma TriggerAgrees(log: Log, e: Event, paid: nat)
    requires Fresh(log, e) && Reconciled(log, paid)
    ensures var change := Min(TriggerActiveAfter(log, e), paid) - DesiredFor(log, paid);
      ExpectedDelta(log, e, paid) == Ok(if change < 0 then -change else change)
      && (if IsReversal(e.kind) then change <= 0 else change >= 0)
  {
    hide PrincipalsOf, Sum, Applied;
    var active, restored := PrincipalsOf(log, false), PrincipalsOf(log, true);
    FreshFamily(log, e);
    if IsReversal(e.kind) {
      MoreRestored(active, restored, FamilyOf(e), Principal(e));
    } else {
      MoreActive(active, restored, FamilyOf(e), Principal(e));
    }
  }

  // ---- All payments of an account --------------------------------------------------------

  /** The rows that belong to one payment. */
  function For(log: Log, entry: EntryId): Log
  {
    if log == [] then [] else
    For(log[..|log| - 1], entry) + (if log[|log| - 1].event.entry == entry then [log[|log| - 1]] else [])
  }

  function Find(log: Log, e: Event): (found: Option<Adjustment>)
    ensures found.Some? ==> found.value in log && SameNotification(found.value.event, e)
    ensures found.None? ==> Fresh(log, e)
  {
    if log == [] then None
    else if SameNotification(log[|log| - 1].event, e) then Some(log[|log| - 1])
    else
      var init, last := log[..|log| - 1], log[|log| - 1];
      assert log == init + [last];
      Find(init, e)
  }

  type Payments = map<EntryId, nat>

  /** What one notification does to the rows: nothing when it is known, and refused when it has changed. */
  ghost function Deliver(log: Log, e: Event, paid: Payments): Result<Log>
  {
    if e.entry !in paid then Err(PaymentNotFound) else
    match Find(log, e)
    case Some(existing) => if existing.event == e then Ok(log) else Err(AdjustmentRebindForbidden)
    case None =>
      match ExpectedDelta(For(log, e.entry), e, paid[e.entry])
      case Err(error) => Err(error)
      case Ok(amount) => Ok(log + [Adjustment(e, amount)])
  }

  ghost predicate Consistent(log: Log, paid: Payments)
  {
    && Unique(log)
    && (forall a :: a in log ==> a.event.entry in paid)
    && forall p :: p in paid ==> Reconciled(For(log, p), paid[p])
  }

  ghost function Notified(log: Log): set<Event>
  {
    set a | a in log :: a.event
  }

  lemma {:induction false} ForMembers(log: Log, entry: EntryId)
    ensures forall a :: a in For(log, entry) <==> a in log && a.event.entry == entry
    ensures Unique(log) ==> Unique(For(log, entry))
  {
    if log != [] {
      var init, last := log[..|log| - 1], log[|log| - 1];
      assert log == init + [last];
      ForMembers(init, entry);
      if Unique(log) {
        forall a | a in init ensures !SameNotification(a.event, last.event) {
          var i :| 0 <= i < |init| && init[i] == a;
          assert log[i] == a && log[|log| - 1] == last;
        }
      }
    }
  }

  lemma ForAppend(log: Log, a: Adjustment, entry: EntryId)
    ensures For(log + [a], entry) == For(log, entry) + (if a.event.entry == entry then [a] else [])
  {
    assert (log + [a])[..|log|] == log;
  }

  /** Every payment stays reconciled, and only a changed notification is ever refused. */
  lemma DeliverKeeps(log: Log, e: Event, paid: Payments)
    requires Consistent(log, paid) && e.entry in paid
    ensures var after := Deliver(log, e, paid);
      && (after.Err? <==> exists a :: a in log && SameNotification(a.event, e) && a.event != e)
      && (after.Err? ==> after == Err(AdjustmentRebindForbidden))
      && (after.Ok? ==> Consistent(after.value, paid))
      && (after.Ok? ==> Notified(after.value) == Notified(log) + {e})
  {
    hide ExpectedDelta, Reconciled;
    match Find(log, e)
    case Some(existing) =>
      UniqueMember(log, existing, e);
    case None =>
      ForMembers(log, e.entry);
      NoConflict(For(log, e.entry), e, paid[e.entry]);
      var a := Adjustment(e, ExpectedDelta(For(log, e.entry), e, paid[e.entry]).value);
      assert forall x :: x in log + [a] <==> x in log || x == a;
      forall p | p in paid ensures Reconciled(For(log + [a], p), paid[p]) {
        ForAppend(log, a, p);
        assert For(log, p) + [] == For(log, p);
      }
  }

  lemma UniqueMember(log: Log, existing: Adjustment, e: Event)
    requires Unique(log) && existing in log && SameNotification(existing.event, e)
    ensures forall a :: a in log && SameNotification(a.event, e) ==> a == existing
  {}

  /** A known notification changes nothing. */
  lemma Redelivered(log: Log, a: Adjustment, paid: Payments)
    requires Consistent(log, paid) && a in log
    ensures Deliver(log, a.event, paid) == Ok(log)
  {
    var existing := Find(log, a.event).value;
    UniqueMember(log, existing, a.event);
  }

  /** The rows after a sequence of deliveries, starting from none. */
  ghost function DeliverAll(events: seq<Event>, paid: Payments): Result<Log>
  {
    if events == [] then Ok([]) else
    match DeliverAll(events[..|events| - 1], paid)
    case Err(e) => Err(e)
    case Ok(log) => Deliver(log, events[|events| - 1], paid)
  }

  /** The provider never contradicts itself about one object. */
  ghost predicate Coherent(events: seq<Event>, paid: Payments)
  {
    && (forall e :: e in events ==> e.entry in paid)
    && forall a, b :: a in events && b in events && SameNotification(a, b) ==> a == b
  }

  lemma {:induction false} AllDelivered(events: seq<Event>, paid: Payments)
    requires Coherent(events, paid)
    ensures DeliverAll(events, paid).Ok? && Consistent(DeliverAll(events, paid).value, paid)
    ensures Notified(DeliverAll(events, paid).value) == set e | e in events
  {
    hide Deliver, Reconciled;
    if events == [] {
      NothingDelivered(paid);
    } else {
      var init, last := events[..|events| - 1], events[|events| - 1];
      assert forall e :: e in events <==> e in init || e == last;
      AllDelivered(init, paid);
      var log := DeliverAll(init, paid).value;
      forall a | a in log ensures a.event in init {
        assert a.event in Notified(log);
      }
      DeliverKeeps(log, last, paid);
    }
  }

  lemma NothingDelivered(paid: Payments)
    ensures Consistent([], paid)
  {
    forall p | p in paid ensures Reconciled(For([], p), paid[p]) {
      assert Outstanding(map[], map[]) == map[];
    }
  }

  lemma {:induction false} PrincipalsAre(log: Log, reversal: bool)
    requires Unique(log)
    ensures forall a :: a in log && IsReversal(a.event.kind) == reversal ==>
      FamilyOf(a.event) in PrincipalsOf(log, reversal)
      && PrincipalsOf(log, reversal)[FamilyOf(a.event)] == Principal(a.event)
    ensures forall k :: k in PrincipalsOf(log, reversal) ==>
      exists a :: a in log && IsReversal(a.event.kind) == reversal && FamilyOf(a.event) == k
  {
    if log != [] {
      var init, last := log[..|log| - 1], log[|log| - 1];
      assert forall a :: a in log <==> a in init || a == last;
      PrincipalsAre(init, reversal);
      forall a | a in init ensures !SameNotification(a.event, last.event) {
        var i :| 0 <= i < |init| && init[i] == a;
        assert log[i] == a && log[|log| - 1] == last;
      }
    }
  }

  /** Two logs of the same notifications call for the same principals. */
  lemma SamePrincipals(x: Log, y: Log, reversal: bool)
    requires Unique(x) && Unique(y)
    requires Notified(x) == Notified(y)
    ensures PrincipalsOf(x, reversal) == PrincipalsOf(y, reversal)
  {
    PrincipalsAre(x, reversal);
    PrincipalsAre(y, reversal);
    PrincipalsWithin(x, y, reversal);
    PrincipalsWithin(y, x, reversal);
  }

  lemma PrincipalsWithin(x: Log, y: Log, reversal: bool)
    requires Unique(x) && Unique(y)
    requires Notified(x) == Notified(y)
    ensures forall k :: k in PrincipalsOf(x, reversal) ==>
      k in PrincipalsOf(y, reversal) && PrincipalsOf(x, reversal)[k] == PrincipalsOf(y, reversal)[k]
  {
    PrincipalsAre(x, reversal);
    PrincipalsAre(y, reversal);
    forall k | k in PrincipalsOf(x, reversal)
      ensures k in PrincipalsOf(y, reversal) && PrincipalsOf(x, reversal)[k] == PrincipalsOf(y, reversal)[k]
    {
      var a :| a in x && IsReversal(a.event.kind) == reversal && FamilyOf(a.event) == k;
      assert a.event in Notified(y);
      var b :| b in y && b.event == a.event;
    }
  }

  /**
   * Confluence: whatever the order and however often the notifications arrive, every payment
   * ends with the same credits clawed back, namely the capped outstanding principal.
   */
  lemma AnyOrderAnyRepetition(a: seq<Event>, b: seq<Event>, paid: Payments, p: EntryId)
    requires Coherent(a, paid) && Coherent(b, paid) && p in paid
    requires forall e :: e in a <==> e in b
    ensures DeliverAll(a, paid).Ok? && DeliverAll(b, paid).Ok?
    ensures var x, y := For(DeliverAll(a, paid).value, p), For(DeliverAll(b, paid).value, p);
      Applied(x) == Applied(y) == DesiredFor(x, paid[p]) && 0 <= Applied(x) <= paid[p]
  {
    hide DeliverAll, PrincipalsOf, Applied, Outstanding, Notified, For;
    AllDelivered(a, paid);
    AllDelivered(b, paid);
    assert (set e | e in a) == (set e | e in b);
    var s, t := DeliverAll(a, paid).value, DeliverAll(b, paid).value;
    ForMembers(s, p);
    ForMembers(t, p);
    SameRows(s, t, p);
    SamePrincipals(For(s, p), For(t, p), false);
    SamePrincipals(For(s, p), For(t, p), true);
  }

  lemma SameRows(s: Log, t: Log, p: EntryId)
    requires Notified(s) == Notified(t)
    ensures Notified(For(s, p)) == Notified(For(t, p))
  {
    RowsWithin(s, t, p);
    RowsWithin(t, s, p);
  }

  lemma RowsWithin(s: Log, t: Log, p: EntryId)
    requires Notified(s) == Notified(t)
    ensures Notified(For(s, p)) <= Notified(For(t, p))
  {
    ForMembers(s, p);
    ForMembers(t, p);
    forall e | e in Notified(For(s, p)) ensures e in Notified(For(t, p)) {
      assert e in Notified(s);
      var b :| b in t && b.event == e;
      assert b in For(t, p);
    }
  }

  // ---- What is clawed back, by kind and object --------------------------------------------

  predicate IsOriginal(e: Event)
  {
    e.kind.Refund? || e.kind.Dispute?
  }

  /** A refund is reversed by the reversal of that refund, a dispute by the reversal of that dispute. */
  predicate Reverses(r: Event, e: Event)
  {
    && r.objectId == e.objectId
    && ((e.kind.Refund? && r.kind.RefundReversal?) || (e.kind.Dispute? && r.kind.DisputeReversal?))
  }

  /** What has been given back of a refund or a dispute, in minor units. */
  function GivenBack(events: seq<Event>, e: Event): nat
  {
    if events == [] then 0
    else if Reverses(events[|events| - 1], e) then events[|events| - 1].amountMinor
    else GivenBack(events[..|events| - 1], e)
  }

  /** What some of the notifications leave lost, in microcredits: ten million to the minor unit. */
  function Lost(some: seq<Event>, events: seq<Event>): nat
  {
    if some == [] then 0 else Lost(some[..|some| - 1], events) + LostBy(some[|some| - 1], events)
  }

  function LostBy(e: Event, events: seq<Event>): nat
  {
    if IsOriginal(e) && e.amountMinor > GivenBack(events, e) then (e.amountMinor - GivenBack(events, e)) * 10_000_000
    else 0
  }

  /** Each notification once. */
  ghost predicate Distinct(events: seq<Event>)
  {
    forall i, j :: 0 <= i < j < |events| ==> !SameNotification(events[i], events[j])
  }

  lemma {:induction false} GivenBackIs(events: seq<Event>, e: Event)
    requires Distinct(events)
    ensures forall r :: r in events && Reverses(r, e) ==> GivenBack(events, e) == r.amountMinor
    ensures (forall r :: r in events ==> !Reverses(r, e)) ==> GivenBack(events, e) == 0
  {
    if events != [] {
      var init, last := events[..|events| - 1], events[|events| - 1];
      assert events == init + [last];
      GivenBackIs(init, e);
      forall r | r in init && Reverses(r, e) ensures !Reverses(last, e) {
        var i :| 0 <= i < |init| && init[i] == r;
        assert events[i] == r && events[|events| - 1] == last;
      }
    }
  }

  /** The family is in the map with what its original leaves lost. */
  ghost predicate Values(m: map<Family, int>, e: Event, events: seq<Event>)
  {
    FamilyOf(e) in m && m[FamilyOf(e)] == LostBy(e, events)
  }

  lemma OneOriginal(e: Event, f: Event)
    requires IsOriginal(e) && IsOriginal(f) && FamilyOf(e) == FamilyOf(f)
    ensures SameNotification(e, f)
  {}

  /** The sum over the families is the sum over the originals. */
  lemma {:induction false} LostIs(some: seq<Event>, events: seq<Event>, m: map<Family, int>)
    requires Distinct(some)
    requires forall e :: e in some && IsOriginal(e) ==> Values(m, e, events)
    requires forall k :: k in m ==> exists e :: e in some && IsOriginal(e) && FamilyOf(e) == k
    ensures Sum(m) == Lost(some, events)
  {
    hide GivenBack, FamilyOf, SameNotification, LostBy, Values;
    if some == [] {
      assert m == map[];
    } else {
      var init, last := some[..|some| - 1], some[|some| - 1];
      assert some == init + [last];
      assert forall e :: e in some <==> e in init || e == last;
      if IsOriginal(last) {
        var k := FamilyOf(last);
        assert k in m && m[k] == LostBy(last, events) by { ValueOf(m, last, events); }
        SumRemove(m, k);
        forall e | e in init && IsOriginal(e) ensures Values(m - {k}, e, events) && FamilyOf(e) != k {
          OtherFamily(some, e);
          ValueOf(m, e, events);
          ValueElsewhere(m, e, k, events);
        }
        LostIs(init, events, m - {k});
      } else {
        LostIs(init, events, m);
        NothingLost(last, events);
      }
    }
  }

  lemma ValueOf(m: map<Family, int>, e: Event, events: seq<Event>)
    requires Values(m, e, events)
    ensures FamilyOf(e) in m && m[FamilyOf(e)] == LostBy(e, events)
  {}

  lemma ValueElsewhere(m: map<Family, int>, e: Event, k: Family, events: seq<Event>)
    requires Values(m, e, events) && FamilyOf(e) != k
    ensures Values(m - {k}, e, events)
  {}

  lemma OtherFamily(some: seq<Event>, e: Event)
    requires Distinct(some) && some != [] && IsOriginal(some[|some| - 1]) && IsOriginal(e) && e in some[..|some| - 1]
    ensures FamilyOf(e) != FamilyOf(some[|some| - 1])
  {
    var i :| 0 <= i < |some| - 1 && some[i] == e;
    if FamilyOf(e) == FamilyOf(some[|some| - 1]) {
      OneOriginal(e, some[|some| - 1]);
      assert false;
    }
  }

  lemma NothingLost(e: Event, events: seq<Event>)
    requires !IsOriginal(e)
    ensures LostBy(e, events) == 0
  {}

  /** What the rows call for is what their notifications leave lost, however these are listed. */
  lemma OutstandingIsLost(log: Log, events: seq<Event>)
    requires Unique(log) && Distinct(events) && Notified(log) == set e | e in events
    ensures Sum(Outstanding(PrincipalsOf(log, false), PrincipalsOf(log, true))) == Lost(events, events)
  {
    hide PrincipalsOf, FamilyOf, OutstandingOf, GivenBack;
    PrincipalsAre(log, false);
    PrincipalsAre(log, true);
    var active, restored := PrincipalsOf(log, false), PrincipalsOf(log, true);
    var net := Outstanding(active, restored);
    forall e | e in events && IsOriginal(e)
      ensures Values(net, e, events)
    {
      assert e in Notified(log);
      OneLost(log, events, e);
    }
    forall k | k in net ensures exists e :: e in events && IsOriginal(e) && FamilyOf(e) == k {
      var a :| a in log && IsReversal(a.event.kind) == false && FamilyOf(a.event) == k;
      assert a.event in Notified(log);
    }
    LostIs(events, events, net);
  }

  lemma OneLost(log: Log, events: seq<Event>, e: Event)
    requires Unique(log) && Distinct(events) && Notified(log) == (set x | x in events)
    requires e in events && IsOriginal(e)
    ensures var active, restored := PrincipalsOf(log, false), PrincipalsOf(log, true);
      && FamilyOf(e) in active
      && OutstandingOf(active, restored, FamilyOf(e))
         == AtLeastZero(e.amountMinor - GivenBack(events, e)) * MICROCREDITS_PER_MINOR
  {
    hide PrincipalsOf, GivenBack;
    PrincipalsAre(log, false);
    PrincipalsAre(log, true);
    GivenBackIs(events, e);
    assert e in Notified(log);
    var a :| a in log && a.event == e;
    var restored := PrincipalsOf(log, true);
    if r :| r in events && Reverses(r, e) {
      assert r in Notified(log);
      var b :| b in log && b.event == r;
      assert FamilyOf(r) == FamilyOf(e) && restored[FamilyOf(e)] == Principal(r);
    } else if FamilyOf(e) in restored {
      RestoredReverses(log, events, e);
      assert false;
    }
  }

  lemma RestoredReverses(log: Log, events: seq<Event>, e: Event)
    requires Unique(log) && Notified(log) == (set x | x in events)
    requires IsOriginal(e) && FamilyOf(e) in PrincipalsOf(log, true)
    ensures exists r :: r in events && Reverses(r, e)
  {
    hide PrincipalsOf;
    PrincipalsAre(log, true);
    var b :| b in log && IsReversal(b.event.kind) && FamilyOf(b.event) == FamilyOf(e);
    assert b.event in Notified(log);
    assert Reverses(b.event, e);
  }

  /**
   * What is clawed back of a payment after any deliveries, in any order and with any repetition, is
   * what its refunds and disputes leave lost once their own reversals are taken off, and never
   * more than was paid.
   */
  lemma ClawedBackIs(events: seq<Event>, paid: Payments, p: EntryId, about: seq<Event>)
    requires Coherent(events, paid) && p in paid
    requires Distinct(about) && forall e :: e in about <==> e in events && e.entry == p
    ensures DeliverAll(events, paid).Ok?
    ensures var lost := Lost(about, about);
      Applied(For(DeliverAll(events, paid).value, p)) == if lost < paid[p] then lost else paid[p]
  {
    hide DeliverAll, PrincipalsOf, Applied, Outstanding, Notified, For, Lost, Unique;
    AllDelivered(events, paid);
    var log := DeliverAll(events, paid).value;
    assert Unique(log);
    ForMembers(log, p);
    NotifiedFor(log, p, events, about);
    OutstandingIsLost(For(log, p), about);
  }

  lemma NotifiedFor(log: Log, p: EntryId, events: seq<Event>, about: seq<Event>)
    requires Notified(log) == (set e | e in events) && forall e :: e in about <==> e in events && e.entry == p
    ensures Notified(For(log, p)) == set e | e in about
  {
    ForMembers(log, p);
    forall e ensures e in Notified(For(log, p)) <==> e in about {
      assert e in Notified(log) <==> e in events;
    }
  }

  /** A refund or dispute and its full reversal, in either order, leave lost what neither would. */
  lemma ReversedInFull(events: seq<Event>, e: Event, r: Event)
    requires Distinct(events + [e] + [r]) && IsOriginal(e) && Reverses(r, e) && r.amountMinor == e.amountMinor
    ensures Lost(events + [e] + [r], events + [e] + [r]) == Lost(events, events)
    ensures Lost(events + [r] + [e], events + [r] + [e]) == Lost(events, events)
  {
    hide Lost, GivenBack;
    var x, y := events + [e] + [r], events + [r] + [e];
    DistinctParts(events, e, r);
    GivenBackIs(x, e);
    GivenBackIs(y, e);
    assert r in x && r in y;
    LostAppend(events, e, x);
    LostAppend(events + [e], r, x);
    LostAppend(events, r, y);
    LostAppend(events + [r], e, y);
    LostSame(events, events, x, e, r);
    LostSame(events, events, y, e, r);
  }

  lemma DistinctParts(events: seq<Event>, e: Event, r: Event)
    requires Distinct(events + [e] + [r]) && !SameNotification(e, r)
    ensures Distinct(events) && Distinct(events + [r] + [e])
    ensures forall o :: o in events ==> !SameNotification(o, e) && !SameNotification(o, r)
  {
    var all := events + [e] + [r];
    assert all[|events|] == e && all[|events| + 1] == r;
    forall o | o in events ensures !SameNotification(o, e) && !SameNotification(o, r) {
      var i :| 0 <= i < |events| && events[i] == o;
      assert all[i] == o;
    }
    assert forall i :: 0 <= i < |events| ==> all[i] == events[i];
  }

  lemma LostAppend(some: seq<Event>, e: Event, events: seq<Event>)
    ensures Lost(some + [e], events) == Lost(some, events) + LostBy(e, events)
  {
    assert (some + [e])[..|some|] == some;
  }

  lemma {:induction false} LostSame(some: seq<Event>, events: seq<Event>, more: seq<Event>, e: Event, r: Event)
    requires Distinct(events) && Distinct(more) && IsOriginal(e) && Reverses(r, e)
    requires forall o :: o in more <==> o in events || o == e || o == r
    requires forall o :: o in some ==> o in events && !SameNotification(o, e)
    ensures Lost(some, more) == Lost(some, events)
  {
    hide GivenBack;
    if some != [] {
      var last := some[|some| - 1];
      assert last in some && forall o :: o in some[..|some| - 1] ==> o in some;
      LostSame(some[..|some| - 1], events, more, e, r);
      if IsOriginal(last) {
        GivenBackSame(events, more, e, r, last);
      }
    }
  }

  lemma GivenBackSame(events: seq<Event>, more: seq<Event>, e: Event, r: Event, other: Event)
    requires Distinct(events) && Distinct(more) && IsOriginal(e) && Reverses(r, e)
    requires forall o :: o in more <==> o in events || o == e || o == r
    requires IsOriginal(other) && !SameNotification(other, e)
    ensures GivenBack(more, other) == GivenBack(events, other)
  {
    GivenBackIs(events, other);
    GivenBackIs(more, other);
    if x :| x in events && Reverses(x, other) {
      assert x in more;
    }
  }

  /** So delivering both, in either order and after whatever else, claws back what was clawed back before. */
  lemma ReversalRestores(events: seq<Event>, e: Event, r: Event, paid: Payments, about: seq<Event>)
    requires Coherent(events + [e] + [r], paid) && IsOriginal(e) && Reverses(r, e)
    requires r.amountMinor == e.amountMinor && r.entry == e.entry
    requires Distinct(about + [e] + [r]) && forall x :: x in about <==> x in events && x.entry == e.entry
    ensures DeliverAll(events, paid).Ok?
    ensures DeliverAll(events + [e] + [r], paid).Ok? && DeliverAll(events + [r] + [e], paid).Ok?
    ensures var before := Applied(For(DeliverAll(events, paid).value, e.entry));
      && Applied(For(DeliverAll(events + [e] + [r], paid).value, e.entry)) == before
      && Applied(For(DeliverAll(events + [r] + [e], paid).value, e.entry)) == before
  {
    hide DeliverAll, Applied, For, Lost, Distinct;
    assert e in events + [e] + [r];
    ReversedInFull(about, e, r);
    PartsDistinct(about, e, r);
    ClawedBackIs(events, paid, e.entry, about);
    ClawedBackIs(events + [e] + [r], paid, e.entry, about + [e] + [r]);
    ClawedBackIs(events + [r] + [e], paid, e.entry, about + [r] + [e]);
  }

  lemma PartsDistinct(events: seq<Event>, e: Event, r: Event)
    requires Distinct(events + [e] + [r]) && IsOriginal(e) && Reverses(r, e)
    ensures Distinct(events) && Distinct(events + [r] + [e])
  {
    DistinctParts(events, e, r);
  }
}
