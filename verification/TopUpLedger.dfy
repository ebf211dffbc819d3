/**
 * The automatic top-up and the ledger of its account as one system: an attempt is an order of the
 * ledger, and a success writes the attempt and its entry in one transaction.
 */
module TopUpLedger {
  import opened Prelude
  import AutoTopUp
  import Top = AutoTopUpTheorems
  import Ledger
  import LedgerInvariants
  import LedgerTheorems
  import CreditRating

  /** The names the ledger knows attempts and payment intents by. */
  datatype Naming = Naming(order: nat -> nat, intent: nat -> nat)

  ghost predicate Proper(n: Naming)
  {
    && (forall a: nat, b: nat :: n.order(a) == n.order(b) ==> a == b)
    && forall i: nat, k: nat :: n.intent(i) == n.intent(k) ==> i == k
  }

  predicate OfAttempt(n: Naming, id: nat, a: nat) { n.order(a) == id }

  predicate OfIntent(n: Naming, id: nat, i: nat) { n.intent(i) == id }

  /** An order that is no attempt, and a payment that is for none. */
  ghost predicate ForeignOrder(n: Naming, id: nat) { forall a: nat :: !OfAttempt(n, id, a) }

  ghost predicate ForeignIntent(n: Naming, id: nat) { forall i: nat :: !OfIntent(n, id, i) }

  datatype Joint = Joint(top: AutoTopUp.State, ledger: Ledger.State)

  /** A transaction of the protocol, or anything else that happens to the account. */
  datatype Move = Protocol(top: AutoTopUp.Event) | Account(ledger: Ledger.Event)

  // ---- Steps ------------------------------------------------------------------------------------------

  predicate IsClosed(status: AutoTopUp.Status)
  {
    status.Failed? || status.Canceled?
  }

  /** What a transaction of the protocol writes to the ledger. */
  function Written(n: Naming, e: AutoTopUp.Event, s: AutoTopUp.State, after: AutoTopUp.State, l: Ledger.State)
    : Result<Ledger.State>
  {
    match e
    case Claimed(_, _) =>
      if |after.attempts| > |s.attempts|
      then Ledger.OpenOrder(l, n.order(|s.attempts|), after.attempts[|s.attempts|].terms.credits, true)
      else Ok(l)
    case SuccessReported(a, intent) =>
      if AutoTopUp.PaymentSucceeded(s, a, intent).Ok? then Ledger.PaymentSucceeded(l, n.order(a), n.intent(intent))
      else Ok(l)
    case FailureReported(a, _, _, _) => Closed(n, a, s, after, l)
    case StateReported(a, _, _) => Closed(n, a, s, after, l)
    case Recovered(a, _, _) => Closed(n, a, s, after, l)
    case _ => Ok(l)
  }

  function Closed(n: Naming, a: nat, s: AutoTopUp.State, after: AutoTopUp.State, l: Ledger.State): Result<Ledger.State>
  {
    if a < |s.attempts| && a < |after.attempts| && !IsClosed(s.attempts[a].status) && IsClosed(after.attempts[a].status)
    then Ledger.CloseOrder(l, n.order(a))
    else Ok(l)
  }

  /** Checkouts and their payments; adjustments and usage concern the whole account. */
  ghost predicate Foreign(n: Naming, e: Ledger.Event)
  {
    match e
    case OrderOpened(id, _, automatic) => !automatic && ForeignOrder(n, id)
    case OrderClosed(id) => ForeignOrder(n, id)
    case OrderPaid(id, intent) => ForeignOrder(n, id) && ForeignIntent(n, intent)
    case Adjusted(_) => true
    case PortfolioSettled(_, _) => true
  }

  /** The account moves with its ledger, and a new payment adjustment marks it for review. */
  function Moved(s: AutoTopUp.State, before: Ledger.State, after: Ledger.State): AutoTopUp.State
  {
    s.(balance := after.balance,
       mode := if after.adjustments != before.adjustments then AutoTopUp.Unless(s, AutoTopUp.ReviewRequired) else s.mode)
  }

  /** Both sides of a protocol transaction are written, or neither. */
  ghost predicate Step(g: AutoTopUp.SnapshotGuard, n: Naming, j: Joint, move: Move, after: Joint)
  {
    match move
    case Protocol(e) =>
      && !e.BalanceMoved? && !e.AdjustmentRecorded?
      && var top := AutoTopUp.Step(g, j.top, e);
         var written := Written(n, e, j.top, top, j.ledger);
         after == if written.Ok? then Joint(top, written.value) else j
    case Account(e) =>
      && Foreign(n, e) && Ledger.Step(j.ledger, e, after.ledger)
      && after.top == Moved(j.top, j.ledger, after.ledger)
  }

  ghost predicate IsRun(g: AutoTopUp.SnapshotGuard, n: Naming, joints: seq<Joint>, moves: seq<Move>)
  {
    && |joints| == |moves| + 1 && joints[0] == Joint(AutoTopUp.Initial(), Ledger.Empty())
    && forall i :: 0 <= i < |moves| ==> Step(g, n, joints[i], moves[i], joints[i + 1])
  }

  // ---- What ties the two together ---------------------------------------------------------------------

  function OrderOf(n: Naming, attempt: AutoTopUp.Attempt): Ledger.Order
  {
    Ledger.Order(attempt.terms.credits, true, IsClosed(attempt.status),
      if attempt.status.Succeeded? && attempt.intent.Some? then Some(n.intent(attempt.intent.value)) else None)
  }

  /** The ledger's automatic orders are the attempts, as they stand. */
  ghost predicate OrdersMatch(n: Naming, attempts: seq<AutoTopUp.Attempt>, orders: map<Ledger.OrderId, Ledger.Order>)
  {
    && (forall a :: 0 <= a < |attempts| ==> n.order(a) in orders && orders[n.order(a)] == OrderOf(n, attempts[a]))
    && (forall a: nat :: n.order(a) in orders ==> a < |attempts|)
    && forall id :: id in orders && ForeignOrder(n, id) && orders[id].paidBy.Some? ==>
         ForeignIntent(n, orders[id].paidBy.value)
  }

  ghost predicate Tied(n: Naming, j: Joint)
  {
    && Top.Inv(j.top) && LedgerInvariants.Inv(j.ledger) && j.top.balance == j.ledger.balance
    && OrdersMatch(n, j.top.attempts, j.ledger.orders)
  }

  /** An attempt's intent pays for no other order. */
  lemma IntentFree(n: Naming, j: Joint, a: nat, intent: nat)
    requires Proper(n) && Tied(n, j)
    requires AutoTopUp.Genuine(j.top, a, intent) && !j.top.attempts[a].status.Succeeded?
    ensures !Ledger.IntentUsed(j.ledger, n.intent(intent))
  {
    hide LedgerInvariants.Inv, Top.OneOpen, Top.CapsKept, Top.CreditsMatch, Top.ModeMatches, Top.SetupsCurrent,
      Top.EvidenceMatches;
    assert OfIntent(n, n.intent(intent), intent);
    forall id | id in j.ledger.orders ensures j.ledger.orders[id].paidBy != Some(n.intent(intent)) {
      if !ForeignOrder(n, id) {
        var b: nat :| OfAttempt(n, id, b);
        assert n.order(b) in j.ledger.orders;
        assert j.ledger.orders[id] == OrderOf(n, j.top.attempts[b]);
      }
    }
  }

  /** Whatever success the protocol accepts, the ledger accepts: the entry is never refused. */
  lemma SuccessWritten(n: Naming, j: Joint, a: nat, intent: nat)
    requires Proper(n) && Tied(n, j) && AutoTopUp.PaymentSucceeded(j.top, a, intent).Ok?
    ensures Ledger.PaymentSucceeded(j.ledger, n.order(a), n.intent(intent)).Ok? && a < |j.top.attempts|
    ensures var top, ledger := AutoTopUp.PaymentSucceeded(j.top, a, intent).value,
        Ledger.PaymentSucceeded(j.ledger, n.order(a), n.intent(intent)).value;
      && top.balance == ledger.balance
      && top.attempts == j.top.attempts[a := j.top.attempts[a].(status := AutoTopUp.Succeeded, intent := Some(intent))]
      && ledger.orders == j.ledger.orders[n.order(a) := OrderOf(n, top.attempts[a])]
  {
    hide LedgerInvariants.Inv, Top.Inv, Ledger.IntentUsed;
    if !j.top.attempts[a].status.Succeeded? {
      IntentFree(n, j, a, intent);
    } else {
      assert j.ledger.orders[n.order(a)] == OrderOf(n, j.top.attempts[a]);
    }
  }

  lemma OrderReplaced(n: Naming, attempts: seq<AutoTopUp.Attempt>, orders: map<Ledger.OrderId, Ledger.Order>, a: nat,
                      next: AutoTopUp.Attempt)
    requires Proper(n) && OrdersMatch(n, attempts, orders) && a < |attempts|
    ensures OrdersMatch(n, attempts[a := next], orders[n.order(a) := OrderOf(n, next)])
  {
    hide OrderOf;
    assert OfAttempt(n, n.order(a), a);
  }

  lemma OrderAdded(n: Naming, attempts: seq<AutoTopUp.Attempt>, orders: map<Ledger.OrderId, Ledger.Order>,
                   next: AutoTopUp.Attempt)
    requires Proper(n) && OrdersMatch(n, attempts, orders)
    ensures n.order(|attempts|) !in orders
    ensures OrdersMatch(n, attempts + [next], orders[n.order(|attempts|) := OrderOf(n, next)])
  {
    hide OrderOf;
    assert OfAttempt(n, n.order(|attempts|), |attempts|);
  }

  // ---- The protocol's transactions ------------------------------------------------------------------------

  /** The attempt a report or a recovery is about. */
  function About(e: AutoTopUp.Event): Option<nat>
  {
    match e
    case FailureReported(a, _, _, _) => Some(a)
    case StateReported(a, _, _) => Some(a)
    case Recovered(a, _, _) => Some(a)
    case _ => None
  }

  predicate MovesAttempts(e: AutoTopUp.Event)
  {
    !e.Claimed? && !e.SuccessReported? && !e.BalanceMoved? && !e.AdjustmentRecorded?
  }

  /** An attempt stays as it is, or is moved without being credited; only what a report is about is closed. */
  predicate MovedOn(before: AutoTopUp.Attempt, after: AutoTopUp.Attempt, concerned: bool)
  {
    || after == before
    || (&& AutoTopUp.IsOpen(before.status) && after.terms == before.terms && !after.status.Succeeded?
        && (IsClosed(after.status) ==> concerned))
  }

  lemma AttemptsMove(g: AutoTopUp.SnapshotGuard, s: AutoTopUp.State, e: AutoTopUp.Event)
    requires Top.Inv(s) && MovesAttempts(e)
    ensures var after := AutoTopUp.Step(g, s, e);
      && |after.attempts| == |s.attempts| && after.balance == s.balance
      && forall i :: 0 <= i < |s.attempts| ==> MovedOn(s.attempts[i], after.attempts[i], About(e) == Some(i))
  {
    hide Top.Inv, MovedOn, AutoTopUp.Step;
    OneAttempt(g, s, e);
    forall i | 0 <= i < |s.attempts|
      ensures MovedOn(s.attempts[i], AutoTopUp.Step(g, s, e).attempts[i], About(e) == Some(i))
    {
      if AutoTopUp.IsOpen(s.attempts[i].status) {
        OpenMoves(g, s, e, i);
      } else {
        Top.ResolvedForGood(g, s, e, i);
        Unmoved(s.attempts[i], About(e) == Some(i));
      }
    }
  }

  lemma Unmoved(attempt: AutoTopUp.Attempt, concerned: bool)
    ensures MovedOn(attempt, attempt, concerned)
  {}

  lemma OneAttempt(g: AutoTopUp.SnapshotGuard, s: AutoTopUp.State, e: AutoTopUp.Event)
    requires MovesAttempts(e)
    ensures |AutoTopUp.Step(g, s, e).attempts| == |s.attempts| && AutoTopUp.Step(g, s, e).balance == s.balance
  {}

  lemma OpenMoves(g: AutoTopUp.SnapshotGuard, s: AutoTopUp.State, e: AutoTopUp.Event, i: nat)
    requires MovesAttempts(e) && i < |s.attempts| && AutoTopUp.IsOpen(s.attempts[i].status)
    ensures i < |AutoTopUp.Step(g, s, e).attempts|
    ensures MovedOn(s.attempts[i], AutoTopUp.Step(g, s, e).attempts[i], About(e) == Some(i))
  {}

  /** An order says the same of its attempt until the attempt is closed or has succeeded. */
  lemma SameOrder(n: Naming, before: AutoTopUp.Attempt, after: AutoTopUp.Attempt, concerned: bool)
    requires MovedOn(before, after, concerned) && (IsClosed(after.status) ==> IsClosed(before.status))
    ensures OrderOf(n, after) == OrderOf(n, before)
  {}

  lemma MoveTied(n: Naming, e: AutoTopUp.Event, s: AutoTopUp.State, after: AutoTopUp.State, l: Ledger.State)
    requires Proper(n) && MovesAttempts(e) && LedgerInvariants.Inv(l)
    requires OrdersMatch(n, s.attempts, l.orders) && |after.attempts| == |s.attempts|
    requires forall i :: 0 <= i < |s.attempts| ==> MovedOn(s.attempts[i], after.attempts[i], About(e) == Some(i))
    ensures var r := Written(n, e, s, after, l);
      && r.Ok? && LedgerInvariants.Inv(r.value) && r.value.balance == l.balance
      && OrdersMatch(n, after.attempts, r.value.orders)
  {
    hide LedgerInvariants.Inv, OrderOf, Closed, MovedOn;
    if About(e).Some? {
      var a := About(e).value;
      forall i | 0 <= i < |s.attempts| && i != a ensures OrderOf(n, after.attempts[i]) == OrderOf(n, s.attempts[i]) {
        NotConcerned(n, e, s.attempts[i], after.attempts[i], i);
      }
      assert Written(n, e, s, after, l) == Closed(n, a, s, after, l);
      ClosedTied(n, a, s, after, l, true);
    } else {
      forall i | 0 <= i < |s.attempts| ensures OrderOf(n, after.attempts[i]) == OrderOf(n, s.attempts[i]) {
        NotConcerned(n, e, s.attempts[i], after.attempts[i], i);
      }
    }
  }

  lemma NotConcerned(n: Naming, e: AutoTopUp.Event, before: AutoTopUp.Attempt, after: AutoTopUp.Attempt, i: nat)
    requires MovedOn(before, after, About(e) == Some(i)) && About(e) != Some(i)
    ensures OrderOf(n, after) == OrderOf(n, before)
  {}

  lemma ClosedTied(n: Naming, a: nat, s: AutoTopUp.State, after: AutoTopUp.State, l: Ledger.State, concerned: bool)
    requires Proper(n) && LedgerInvariants.Inv(l)
    requires OrdersMatch(n, s.attempts, l.orders) && |after.attempts| == |s.attempts|
    requires a < |s.attempts| ==> MovedOn(s.attempts[a], after.attempts[a], concerned)
    requires forall i :: 0 <= i < |s.attempts| && i != a ==> OrderOf(n, after.attempts[i]) == OrderOf(n, s.attempts[i])
    ensures var r := Closed(n, a, s, after, l);
      && r.Ok? && LedgerInvariants.Inv(r.value) && r.value.balance == l.balance
      && OrdersMatch(n, after.attempts, r.value.orders)
  {
    hide LedgerInvariants.Inv;
    LedgerInvariants.CloseOrderKeeps(l, n.order(a));
    assert OfAttempt(n, n.order(a), a);
  }

  lemma ClaimTied(n: Naming, j: Joint, month: nat, exact: bool)
    requires Proper(n) && Tied(n, j)
    ensures var after := AutoTopUp.ClaimAttempt(j.top, month, exact).0;
      var r := Written(n, AutoTopUp.Claimed(month, exact), j.top, after, j.ledger);
      r.Ok? && Tied(n, Joint(after, r.value))
  {
    hide LedgerInvariants.Inv, Top.Inv, AutoTopUp.ClaimAttempt;
    Top.ClaimAppends(j.top, month, exact);
    Top.ClaimKeeps(j.top, month, exact);
    var after := AutoTopUp.ClaimAttempt(j.top, month, exact).0;
    if after != j.top {
      var next := after.attempts[|j.top.attempts|];
      OrderAdded(n, j.top.attempts, j.ledger.orders, next);
      LedgerInvariants.OpenOrderKeeps(j.ledger, n.order(|j.top.attempts|), next.terms.credits, true);
    }
  }

  lemma SuccessTied(n: Naming, j: Joint, a: nat, intent: nat)
    requires Proper(n) && Tied(n, j)
    ensures var after := AutoTopUp.Committed(j.top, AutoTopUp.PaymentSucceeded(j.top, a, intent));
      var r := Written(n, AutoTopUp.SuccessReported(a, intent), j.top, after, j.ledger);
      r.Ok? && Tied(n, Joint(after, r.value))
  {
    hide LedgerInvariants.Inv, Top.Inv, AutoTopUp.PaymentSucceeded, Ledger.PaymentSucceeded, OrdersMatch;
    Top.SuccessKeeps(j.top, a, intent);
    if AutoTopUp.PaymentSucceeded(j.top, a, intent).Ok? {
      SuccessWritten(n, j, a, intent);
      var top := AutoTopUp.PaymentSucceeded(j.top, a, intent).value;
      OrderReplaced(n, j.top.attempts, j.ledger.orders, a, top.attempts[a]);
      LedgerInvariants.PaymentSucceededKeeps(j.ledger, n.order(a), n.intent(intent));
    }
  }

  /** The ledger never refuses what the protocol writes, and the two stay tied. */
  lemma ProtocolKeeps(g: AutoTopUp.SnapshotGuard, n: Naming, j: Joint, e: AutoTopUp.Event)
    requires Proper(n) && Tied(n, j) && !e.BalanceMoved? && !e.AdjustmentRecorded?
    ensures var top := AutoTopUp.Step(g, j.top, e);
      var r := Written(n, e, j.top, top, j.ledger);
      r.Ok? && Tied(n, Joint(top, r.value))
  {
    hide LedgerInvariants.Inv, Top.Inv, Written, OrdersMatch, AutoTopUp.ClaimAttempt, AutoTopUp.PaymentSucceeded;
    match e
    case Claimed(month, exact) => ClaimTied(n, j, month, exact);
    case SuccessReported(a, intent) => SuccessTied(n, j, a, intent);
    case _ =>
      OtherTied(g, n, j, e);
  }

  lemma OtherTied(g: AutoTopUp.SnapshotGuard, n: Naming, j: Joint, e: AutoTopUp.Event)
    requires Proper(n) && Tied(n, j) && MovesAttempts(e)
    ensures var top := AutoTopUp.Step(g, j.top, e);
      var r := Written(n, e, j.top, top, j.ledger);
      r.Ok? && Tied(n, Joint(top, r.value))
  {
    hide LedgerInvariants.Inv, Top.Inv, Written, OrdersMatch, AutoTopUp.Step, MovedOn;
    Top.StepKeeps(g, j.top, e);
    AttemptsMove(g, j.top, e);
    MoveTied(n, e, j.top, AutoTopUp.Step(g, j.top, e), j.ledger);
  }

  // ---- The account's own transactions -------------------------------------------------------------------

  lemma {:induction false} OrdersStay(s: Ledger.State, p: Ledger.Portfolio, work: seq<CreditRating.RatedService>)
    ensures Ledger.ApplyAll(s, p, work).Ok? ==>
      Ledger.ApplyAll(s, p, work).value.orders == s.orders && Ledger.ApplyAll(s, p, work).value.adjustments == s.adjustments
  {
    hide Ledger.ChangedRows, Ledger.UsersOf, Ledger.LastCorrection;
    if work != [] { OrdersStay(s, p, work[..|work| - 1]); }
  }

  lemma WrittenOrders(s: Ledger.State, p: Ledger.Portfolio, c: CreditRating.Context, rated: seq<CreditRating.RatedService>)
    ensures Ledger.Write(s, p, c, rated).Ok? ==> Ledger.Write(s, p, c, rated).value.0.orders == s.orders
    ensures Ledger.Write(s, p, c, rated).Ok? ==> Ledger.Write(s, p, c, rated).value.0.adjustments == s.adjustments
  {
    hide Ledger.ApplyAll, Ledger.WorkOrder, Ledger.ReplayedServices, Ledger.ReplayMatches, Ledger.StartsInDollars;
    OrdersStay(Ledger.Prepare(s, p, c), p, Ledger.WorkOrder(Ledger.Prepare(s, p, c), p.month, rated));
  }

  lemma SettledOrders(s: Ledger.State, p: Ledger.Portfolio, env: Ledger.Environment, after: Ledger.State,
                      r: Result<Ledger.Outcome>)
    requires Ledger.Settles(s, p, env, after, r)
    ensures after.orders == s.orders && after.adjustments == s.adjustments
  {
    hide Ledger.Write, CreditRating.IsRating, Ledger.ListsPrevious, Ledger.RatingContext, Ledger.IsStale;
    if after != s {
      var c := Ledger.RatingContext(s, p, env);
      var previous, rating :|
        Ledger.ListsPrevious(previous, s, p.month) && CreditRating.IsRating(rating, p.lines, previous, s.balance, c)
        && Ledger.Writes(s, p, c, rating, after, r);
      WrittenOrders(s, p, c, rating.value);
    }
  }

  lemma ForeignMatches(n: Naming, attempts: seq<AutoTopUp.Attempt>, s: Ledger.State, e: Ledger.Event, after: Ledger.State)
    requires OrdersMatch(n, attempts, s.orders) && Foreign(n, e) && Ledger.Step(s, e, after)
    ensures OrdersMatch(n, attempts, after.orders)
  {
    hide OrderOf, Ledger.Settles;
    assert forall a: nat :: OfAttempt(n, n.order(a), a);
    match e
    case PortfolioSettled(p, env) =>
      var r :| Ledger.Settles(s, p, env, after, r);
      SettledOrders(s, p, env, after, r);
    case _ =>
  }

  lemma MovedKeeps(s: AutoTopUp.State, before: Ledger.State, after: Ledger.State)
    requires Top.Inv(s) && s.balance == before.balance
    ensures Top.Inv(Moved(s, before, after))
  {
    hide Top.Inv;
    var g := AutoTopUp.AsWritten;
    var balanced := AutoTopUp.Step(g, s, AutoTopUp.BalanceMoved(after.balance - s.balance));
    Top.AccountMoves(g, s, AutoTopUp.BalanceMoved(after.balance - s.balance));
    Top.AccountMoves(g, balanced, AutoTopUp.AdjustmentRecorded);
  }

  lemma AccountKeeps(n: Naming, j: Joint, e: Ledger.Event, after: Joint)
    requires Tied(n, j) && Foreign(n, e) && Ledger.Step(j.ledger, e, after.ledger)
    requires after.top == Moved(j.top, j.ledger, after.ledger)
    ensures Tied(n, after)
  {
    hide Top.Inv, LedgerInvariants.Inv, OrdersMatch, Ledger.Step, Foreign;
    MovedKeeps(j.top, j.ledger, after.ledger);
    LedgerTheorems.StepKeeps(j.ledger, e, after.ledger);
    ForeignMatches(n, j.top.attempts, j.ledger, e, after.ledger);
  }

  // ---- Every run ---------------------------------------------------------------------------------------------

  lemma {:induction false} AlwaysTied(g: AutoTopUp.SnapshotGuard, n: Naming, joints: seq<Joint>, moves: seq<Move>, i: nat)
    requires Proper(n) && IsRun(g, n, joints, moves) && i < |joints|
    ensures Tied(n, joints[i])
  {
    hide Tied, AutoTopUp.Step, Ledger.Step, Written, Foreign, Moved;
    if i == 0 {
      assert Tied(n, joints[0]) by { NothingTied(n); }
    } else {
      AlwaysTied(g, n, joints, moves, i - 1);
      var j := joints[i - 1];
      assert Step(g, n, j, moves[i - 1], joints[i]);
      match moves[i - 1]
      case Protocol(e) => ProtocolKeeps(g, n, j, e);
      case Account(e) => AccountKeeps(n, j, e, joints[i]);
    }
  }

  lemma NothingTied(n: Naming)
    ensures Tied(n, Joint(AutoTopUp.Initial(), Ledger.Empty()))
  {
    hide Top.Inv, LedgerInvariants.Inv;
    Top.InitialInv();
    LedgerInvariants.EmptyInv();
  }

  /** The entry credits the attempt's order. */
  predicate Names(n: Naming, e: Ledger.Entry, a: nat)
  {
    e.source.TopUp? && e.source.order == n.order(a)
  }

  /** The entry is the one that a charge of the attempt calls for. */
  predicate Credits(n: Naming, s: AutoTopUp.State, a: nat, e: Ledger.Entry)
    requires a < |s.attempts|
  {
    && s.attempts[a].intent.Some? && a in s.intents
    && s.intents[a] == AutoTopUp.Intent(s.attempts[a].intent.value, AutoTopUp.Charged)
    && e.source == Ledger.TopUp(n.order(a), n.intent(s.attempts[a].intent.value))
    && e.delta == s.attempts[a].terms.credits
  }

  /**
   * Exactly once, in the ledger: an attempt has succeeded if and only if the ledger has an entry
   * for it; that entry is in the consented amount and for the attempt's own charged intent, and no
   * other entry names the attempt or the intent. Both sides agree on the balance, which is what
   * the entries add up to.
   */
  lemma CreditedOnce(g: AutoTopUp.SnapshotGuard, n: Naming, joints: seq<Joint>, moves: seq<Move>, i: nat, a: nat)
    requires Proper(n) && IsRun(g, n, joints, moves) && i < |joints| && a < |joints[i].top.attempts|
    ensures var s, entries := joints[i].top, joints[i].ledger.entries;
      && s.balance == joints[i].ledger.balance == LedgerInvariants.BalanceOf(entries)
      && (s.attempts[a].status.Succeeded? <==> exists k :: 0 <= k < |entries| && Names(n, entries[k], a))
      && (forall k :: 0 <= k < |entries| && Names(n, entries[k], a) ==> Credits(n, s, a, entries[k]))
      && (forall k, l :: 0 <= k < |entries| && 0 <= l < |entries| && k != l && Names(n, entries[k], a) ==>
            !Names(n, entries[l], a)
            && (entries[l].source.TopUp? ==> entries[l].source.intent != entries[k].source.intent))
  {
    hide IsRun, Tied;
    AlwaysTied(g, n, joints, moves, i);
    TiedBalance(n, joints[i]);
    TiedEntry(n, joints[i], a);
    forall k | 0 <= k < |joints[i].ledger.entries| && Names(n, joints[i].ledger.entries[k], a)
      ensures Credits(n, joints[i].top, a, joints[i].ledger.entries[k])
    {
      TiedCredits(n, joints[i], a, k);
    }
    TiedAlone(n, joints[i]);
  }

  lemma TiedBalance(n: Naming, j: Joint)
    requires Tied(n, j)
    ensures j.top.balance == j.ledger.balance == LedgerInvariants.BalanceOf(j.ledger.entries)
  {
    hide Top.Inv, OrdersMatch, LedgerInvariants.UsageKept, LedgerInvariants.Posted, LedgerInvariants.Conserved,
      LedgerInvariants.PaymentsKept;
  }

  lemma TiedEntry(n: Naming, j: Joint, a: nat)
    requires Tied(n, j) && a < |j.top.attempts|
    ensures j.top.attempts[a].status.Succeeded? <==>
      exists k :: 0 <= k < |j.ledger.entries| && Names(n, j.ledger.entries[k], a)
  {
    hide LedgerInvariants.UsageKept, LedgerInvariants.Chained, LedgerInvariants.Conserved, LedgerInvariants.PaymentsKept,
      Top.OneOpen, Top.CapsKept, Top.CreditsMatch, Top.ModeMatches, Top.SetupsCurrent, Top.EvidenceMatches;
    var order := j.ledger.orders[n.order(a)];
    assert order == OrderOf(n, j.top.attempts[a]);
    if j.top.attempts[a].status.Succeeded? {
      assert LedgerInvariants.EntryFor(j.ledger.entries, n.order(a), order.paidBy.value);
      var k :| 0 <= k < |j.ledger.entries| && j.ledger.entries[k].source == Ledger.TopUp(n.order(a), order.paidBy.value);
      assert Names(n, j.ledger.entries[k], a);
    }
  }

  lemma TiedCredits(n: Naming, j: Joint, a: nat, k: nat)
    requires Tied(n, j) && a < |j.top.attempts| && k < |j.ledger.entries| && Names(n, j.ledger.entries[k], a)
    ensures Credits(n, j.top, a, j.ledger.entries[k])
  {
    hide LedgerInvariants.UsageKept, LedgerInvariants.Chained, LedgerInvariants.Conserved, LedgerInvariants.PaymentsKept,
      LedgerInvariants.EntryFor, Top.OneOpen, Top.CapsKept, Top.CreditsMatch, Top.ModeMatches, Top.SetupsCurrent,
      Top.EvidenceMatches;
    assert j.ledger.orders[n.order(a)] == OrderOf(n, j.top.attempts[a]);
  }

  lemma TiedAlone(n: Naming, j: Joint)
    requires Tied(n, j)
    ensures var entries := j.ledger.entries;
      forall k, l :: 0 <= k < |entries| && 0 <= l < |entries| && k != l && entries[k].source.TopUp? && entries[l].source.TopUp?
        ==> entries[k].source.order != entries[l].source.order && entries[k].source.intent != entries[l].source.intent
  {
    hide Top.Inv, OrdersMatch, LedgerInvariants.UsageKept, LedgerInvariants.Chained, LedgerInvariants.Conserved,
      LedgerInvariants.EntryFor;
  }

  // ---- Each side is a run of its own -------------------------------------------------------------------------

  /** What the protocol alone sees of a run. */
  lemma {:induction false} ProtocolRun(g: AutoTopUp.SnapshotGuard, n: Naming, joints: seq<Joint>, moves: seq<Move>, i: nat)
    returns (events: seq<AutoTopUp.Event>)
    requires Proper(n) && IsRun(g, n, joints, moves) && i < |joints|
    ensures joints[i].top == AutoTopUp.Run(g, events)
  {
    hide AutoTopUp.Step, AutoTopUp.Run, Ledger.Step, Written, Foreign, Tied;
    if i == 0 {
      Top.NoEvents(g);
      return [];
    }
    events := ProtocolRun(g, n, joints, moves, i - 1);
    var j := joints[i - 1];
    assert Step(g, n, j, moves[i - 1], joints[i]);
    match moves[i - 1] {
      case Protocol(e) =>
        AlwaysTied(g, n, joints, moves, i - 1);
        ProtocolKeeps(g, n, j, e);
        Top.RunAppend(g, events, e);
        events := events + [e];
      case Account(_) =>
        var moved := AutoTopUp.BalanceMoved(joints[i].ledger.balance - j.top.balance);
        MovedSteps(g, j.top, j.ledger, joints[i].ledger);
        Top.RunAppend(g, events, moved);
        events := events + [moved];
        if joints[i].ledger.adjustments != j.ledger.adjustments {
          Top.RunAppend(g, events, AutoTopUp.AdjustmentRecorded);
          events := events + [AutoTopUp.AdjustmentRecorded];
        }
    }
  }

  lemma MovedSteps(g: AutoTopUp.SnapshotGuard, s: AutoTopUp.State, before: Ledger.State, after: Ledger.State)
    ensures var balanced := AutoTopUp.Step(g, s, AutoTopUp.BalanceMoved(after.balance - s.balance));
      Moved(s, before, after)
      == if after.adjustments != before.adjustments then AutoTopUp.Step(g, balanced, AutoTopUp.AdjustmentRecorded)
         else balanced
  {}

  /** And what the ledger alone sees. */
  lemma {:induction false} LedgerRun(g: AutoTopUp.SnapshotGuard, n: Naming, joints: seq<Joint>, moves: seq<Move>, i: nat)
    returns (states: seq<Ledger.State>, events: seq<Ledger.Event>)
    requires IsRun(g, n, joints, moves) && i < |joints|
    ensures Ledger.IsRun(states, events) && joints[i].ledger == states[|events|]
  {
    hide AutoTopUp.Step, Ledger.Step, Written, Foreign, Moved;
    if i == 0 {
      return [Ledger.Empty()], [];
    }
    states, events := LedgerRun(g, n, joints, moves, i - 1);
    var j := joints[i - 1];
    assert Step(g, n, j, moves[i - 1], joints[i]);
    if joints[i].ledger != j.ledger {
      var e := LedgerStep(g, n, j, moves[i - 1], joints[i]);
      LedgerAppend(states, events, e, joints[i].ledger);
      states, events := states + [joints[i].ledger], events + [e];
    }
  }

  lemma LedgerAppend(states: seq<Ledger.State>, events: seq<Ledger.Event>, e: Ledger.Event, after: Ledger.State)
    requires Ledger.IsRun(states, events) && Ledger.Step(states[|events|], e, after)
    ensures Ledger.IsRun(states + [after], events + [e])
  {
    hide Ledger.Step;
  }

  lemma LedgerStep(g: AutoTopUp.SnapshotGuard, n: Naming, j: Joint, move: Move, after: Joint) returns (e: Ledger.Event)
    requires Step(g, n, j, move, after) && after.ledger != j.ledger
    ensures Ledger.Step(j.ledger, e, after.ledger)
  {
    hide AutoTopUp.Step, Ledger.OpenOrder, Ledger.CloseOrder, Ledger.PaymentSucceeded, Ledger.Settles, Moved, Foreign;
    match move
    case Protocol(p) =>
      match p {
        case Claimed(_, _) =>
          var attempts := AutoTopUp.Step(g, j.top, p).attempts;
          e := Ledger.OrderOpened(n.order(|j.top.attempts|), attempts[|j.top.attempts|].terms.credits, true);
        case SuccessReported(a, intent) => e := Ledger.OrderPaid(n.order(a), n.intent(intent));
        case FailureReported(a, _, _, _) => e := Ledger.OrderClosed(n.order(a));
        case StateReported(a, _, _) => e := Ledger.OrderClosed(n.order(a));
        case Recovered(a, _, _) => e := Ledger.OrderClosed(n.order(a));
        case _ => assert false;
      }
    case Account(l) => e := l;
  }
}
