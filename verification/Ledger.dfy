/**
 * The credit account of one team as rows that are only ever appended: entries with running
 * balances, usage settlements with their corrections and per-user rows, and portfolio snapshots.
 */
module Ledger {
  import opened Prelude
  import opened Buckets
  import opened CreditRating
  import Payments = PaymentAdjustments

  type Month = nat
  type Cursor = nat
  type OrderId = nat
  type IntentId = nat

  // ---- Rows -----------------------------------------------------------------------------

  datatype Triple = Triple(rated: int, consumed: int, remaining: int)

  const ZERO: Triple := Triple(0, 0, 0)

  function Minus(a: Triple, b: Triple): Triple
  {
    Triple(a.rated - b.rated, a.consumed - b.consumed, a.remaining - b.remaining)
  }

  /** A settlement covers one service in one month. */
  datatype SettlementKey = SettlementKey(month: Month, service: ServiceId)

  datatype Settlement = Settlement(tariff: Tariff, total: Triple)

  datatype Correction =
    Correction(settlement: SettlementKey, snapshot: Cursor, sequence: nat, delta: Triple, total: Triple)

  datatype Row = Row(settlement: SettlementKey, user: UserId, sequence: nat, delta: Triple, total: Triple)

  datatype Source =
    | TopUp(order: OrderId, intent: IntentId)
    | PaymentAdjustment(kind: Payments.Kind, objectId: nat)
    | Usage(settlement: SettlementKey, snapshot: Cursor, first: bool)

  /** A positive delta is a credit, a negative one a debit. */
  datatype Entry = Entry(source: Source, delta: int, balanceAfter: int)

  /** The content stands for the digest by which a snapshot is recognised. */
  datatype Snapshot = Snapshot(month: Month, capturedAt: int, content: seq<UsageLine>)

  /** A checkout or an automatic attempt, and the payment that completed it. */
  datatype Order = Order(credits: nat, automatic: bool, closed: bool, paidBy: Option<IntentId>)

  datatype State = State(
    balance: int,
    entries: seq<Entry>,
    orders: map<OrderId, Order>,
    adjustments: Payments.Log,
    snapshots: map<Cursor, Snapshot>,
    settlements: map<SettlementKey, Settlement>,
    corrections: seq<Correction>,
    rows: seq<Row>)

  function Empty(): State
  {
    State(0, [], map[], [], map[], map[], [], [])
  }

  /** Writing an entry also moves the balance, in one step. */
  function Post(s: State, source: Source, delta: int): State
  {
    s.(balance := s.balance + delta, entries := s.entries + [Entry(source, delta, s.balance + delta)])
  }

  // ---- Payments --------------------------------------------------------------------------

  function OpenOrder(s: State, id: OrderId, credits: nat, automatic: bool): Result<State>
  {
    if id in s.orders then Err(OrderExists)
    else Ok(s.(orders := s.orders[id := Order(credits, automatic, false, None)]))
  }

  /** An automatic attempt that failed or was canceled; a paid one stays paid. */
  function CloseOrder(s: State, id: OrderId): Result<State>
  {
    if id !in s.orders || s.orders[id].paidBy.Some? then Err(PaymentBindingInvalid)
    else Ok(s.(orders := s.orders[id := s.orders[id].(closed := true)]))
  }

  predicate IntentUsed(s: State, intent: IntentId)
  {
    exists id :: id in s.orders && s.orders[id].paidBy == Some(intent)
  }

  function PaymentSucceeded(s: State, id: OrderId, intent: IntentId): Result<State>
  {
    if id !in s.orders then Err(PaymentBindingInvalid) else
    var order := s.orders[id];
    if order.paidBy.Some? then
      if order.paidBy == Some(intent) then Ok(s) else Err(PaymentRebindForbidden)
    else if order.automatic && order.closed then Err(PaymentBindingInvalid)
    else if IntentUsed(s, intent) then Err(EntryExists)
    else
      Ok(Post(s.(orders := s.orders[id := order.(paidBy := Some(intent))]), TopUp(id, intent), order.credits))
  }

  /** The credits of every order that has been paid. */
  function Paid(s: State): map<OrderId, nat>
  {
    map id | id in s.orders && s.orders[id].paidBy.Some? :: s.orders[id].credits
  }

  ghost function PaymentAdjusted(s: State, e: Payments.Event): Result<State>
  {
    if e.entry !in s.orders || s.orders[e.entry].paidBy != Some(e.intent) then Err(PaymentNotFound) else
    match Payments.Deliver(s.adjustments, e, Paid(s))
    case Err(error) => Err(error)
    case Ok(log) =>
      if log == s.adjustments then Ok(s) else
      var written := log[|log| - 1];
      var after := s.(adjustments := log);
      if written.amount == 0 then Ok(after)
      else Ok(Post(after, PaymentAdjustment(e.kind, e.objectId), -Payments.Signed(written)))
  }

  // ---- The latest cumulative figures -------------------------------------------------------

  datatype Subject = Subject(settlement: SettlementKey, user: UserId)

  /** What the rows say last about every subject. */
  function Latest(rows: seq<Row>): map<Subject, Triple>
  {
    if rows == [] then map[] else
    var last := rows[|rows| - 1];
    Latest(rows[..|rows| - 1])[Subject(last.settlement, last.user) := last.total]
  }

  function Cumulative(rows: seq<Row>, x: Subject): Triple
  {
    if x in Latest(rows) then Latest(rows)[x] else ZERO
  }

  function LastCorrection(corrections: seq<Correction>, key: SettlementKey): Option<Correction>
  {
    if corrections == [] then None else
    var last := corrections[|corrections| - 1];
    if last.settlement == key then Some(last) else LastCorrection(corrections[..|corrections| - 1], key)
  }

  /** The correction a snapshot has already made to a settlement. */
  function ReplayOf(corrections: seq<Correction>, key: SettlementKey, snapshot: Cursor): Option<Correction>
  {
    if corrections == [] then None else
    var last := corrections[|corrections| - 1];
    if last.settlement == key && last.snapshot == snapshot then Some(last)
    else ReplayOf(corrections[..|corrections| - 1], key, snapshot)
  }

  // ---- Writing one rated service -------------------------------------------------------------

  function TotalOf(r: RatedService): Triple
  {
    Triple(r.rated, r.consumed, r.remaining)
  }

  function AllocationTotal(a: Allocation): Triple
  {
    Triple(a.rated, a.consumed, a.remaining)
  }

  /** The figures a rating gives a user; the last one listed counts, and none means zero. */
  function TargetOf(allocations: seq<Allocation>, user: UserId): Triple
  {
    if allocations == [] then ZERO
    else if allocations[|allocations| - 1].user == user then AllocationTotal(allocations[|allocations| - 1])
    else TargetOf(allocations[..|allocations| - 1], user)
  }

  function AddUser(users: seq<UserId>, user: UserId): seq<UserId>
  {
    if user in users then users else users + [user]
  }

  function AllocationUsers(allocations: seq<Allocation>): seq<UserId>
  {
    if allocations == [] then []
    else AddUser(AllocationUsers(allocations[..|allocations| - 1]), allocations[|allocations| - 1].user)
  }

  function PreviousUsers(users: seq<UserId>, rows: seq<Row>, key: SettlementKey): seq<UserId>
  {
    if rows == [] then users else
    var before, last := PreviousUsers(users, rows[..|rows| - 1], key), rows[|rows| - 1];
    if last.settlement == key then AddUser(before, last.user) else before
  }

  /** Everyone the rating or an earlier row names. */
  function UsersOf(rows: seq<Row>, key: SettlementKey, r: RatedService): seq<UserId>
  {
    PreviousUsers(AllocationUsers(r.allocations), rows, key)
  }

  /** The rows for the users whose figures changed; the others get none. */
  function ChangedRows(users: seq<UserId>, rows: seq<Row>, key: SettlementKey, r: RatedService, sequence: nat): seq<Row>
  {
    if users == [] then [] else
    var user := users[|users| - 1];
    var total := TargetOf(r.allocations, user);
    var delta := Minus(total, Cumulative(rows, Subject(key, user)));
    ChangedRows(users[..|users| - 1], rows, key, r, sequence)
    + (if delta == ZERO then [] else [Row(key, user, sequence, delta, total)])
  }

  function NextSequence(s: State, key: SettlementKey): nat
  {
    var last := LastCorrection(s.corrections, key);
    if last.Some? then last.value.sequence + 1 else 1
  }

  function ConsumedDelta(s: State, key: SettlementKey, r: RatedService): int
    requires key in s.settlements
  {
    r.consumed - s.settlements[key].total.consumed
  }

  /** The entry, the correction, the per-user rows and the new totals of one settlement. */
  function ApplyRatedService(s: State, key: SettlementKey, snapshot: Cursor, r: RatedService): State
    requires key in s.settlements
  {
    var settlement := s.settlements[key];
    var sequence := NextSequence(s, key);
    var delta := Minus(TotalOf(r), settlement.total);
    var posted :=
      if delta.consumed == 0 then s
      else Post(s, Usage(key, snapshot, settlement.total == ZERO), -delta.consumed);
    posted.(
      corrections := s.corrections + [Correction(key, snapshot, sequence, delta, TotalOf(r))],
      rows := s.rows + ChangedRows(UsersOf(s.rows, key, r), s.rows, key, r, sequence),
      settlements := s.settlements[key := settlement.(total := TotalOf(r))])
  }

  // ---- Settling a portfolio --------------------------------------------------------------------

  datatype Portfolio = Portfolio(month: Month, cursor: Cursor, capturedAt: int, lines: seq<UsageLine>)

  /** What the database knows besides this account: the tariff a service would start with, and who is in the team. */
  datatype Environment = Environment(catalog: map<ServiceId, Tariff>, active: set<ServiceId>, users: set<nat>)

  datatype Outcome = Superseded | Replayed | Applied

  function SnapshotOf(p: Portfolio): Snapshot
  {
    Snapshot(p.month, p.capturedAt, p.lines)
  }

  /** A later, or equally late, capture of the month has already been taken. */
  predicate IsStale(s: State, p: Portfolio)
  {
    exists c :: c in s.snapshots && s.snapshots[c].month == p.month && p.capturedAt <= s.snapshots[c].capturedAt
  }

  function Products(lines: seq<UsageLine>): set<ServiceId>
  {
    set line | line in lines :: line.service
  }

  function Settled(s: State, month: Month): set<ServiceId>
  {
    set k | k in s.settlements && k.month == month :: k.service
  }

  /** New services start with their tariff of today; settled ones keep theirs for the month. */
  function RatingContext(s: State, p: Portfolio, env: Environment): Context
    requires Products(p.lines) <= env.catalog.Keys
  {
    var starting := map id | id in Products(p.lines) :: env.catalog[id];
    var settled := map id | id in Settled(s, p.month) :: s.settlements[SettlementKey(p.month, id)].tariff;
    Context(starting + settled, env.users)
  }

  /** The previous allocations of the month, each subject once, in any order. */
  ghost predicate ListsPrevious(previous: seq<PreviousAllocation>, s: State, month: Month)
  {
    && OncePerBucket(previous)
    && (forall a :: a in previous ==>
          var x := Subject(SettlementKey(month, a.service), a.user);
          x in Latest(s.rows) && a.consumed == Latest(s.rows)[x].consumed)
    && forall x :: x in Latest(s.rows) && x.settlement.month == month ==>
         exists a :: a in previous && a.service == x.settlement.service && a.user == x.user
  }

  /** The snapshot and the settlements of services that had none this month. */
  function Prepare(s: State, p: Portfolio, c: Context): State
  {
    var starting := map id | id in c.services :: SettlementKey(p.month, id) := Settlement(c.services[id], ZERO);
    s.(snapshots := s.snapshots[p.cursor := SnapshotOf(p)], settlements := starting + s.settlements)
  }

  function ReplayedServices(s: State, p: Portfolio, services: set<ServiceId>): set<ServiceId>
  {
    set id | id in services && ReplayOf(s.corrections, SettlementKey(p.month, id), p.cursor).Some?
  }

  /** A replay must repeat the usage it was first rated with. */
  predicate ReplayMatches(s: State, p: Portfolio, rated: seq<RatedService>)
  {
    forall r :: r in rated ==>
      var replay := ReplayOf(s.corrections, SettlementKey(p.month, r.service), p.cursor);
      replay.Some? ==> replay.value.total.rated == r.rated
  }

  predicate IsRelease(s: State, month: Month, r: RatedService)
  {
    var key := SettlementKey(month, r.service);
    key in s.settlements && ConsumedDelta(s, key, r) < 0
  }

  function Select(s: State, month: Month, rated: seq<RatedService>, release: bool): seq<RatedService>
  {
    if rated == [] then [] else
    var last := rated[|rated| - 1];
    Select(s, month, rated[..|rated| - 1], release) + (if IsRelease(s, month, last) == release then [last] else [])
  }

  /** Services that give credits back come before those that take them. */
  function WorkOrder(s: State, month: Month, rated: seq<RatedService>): seq<RatedService>
  {
    Select(s, month, rated, true) + Select(s, month, rated, false)
  }

  /** The database refuses a correction by an older snapshot and a charge the balance does not cover. */
  function ApplyChecked(s: State, p: Portfolio, r: RatedService): Result<State>
  {
    var key := SettlementKey(p.month, r.service);
    if key !in s.settlements then Err(ServiceMissing) else
    var last := LastCorrection(s.corrections, key);
    if && last.Some? && last.value.snapshot != p.cursor
       && last.value.snapshot in s.snapshots && p.capturedAt <= s.snapshots[last.value.snapshot].capturedAt
    then Err(OlderSnapshot)
    else if ConsumedDelta(s, key, r) > 0 && s.balance - ConsumedDelta(s, key, r) < 0 then Err(Overdrawn)
    else Ok(ApplyRatedService(s, key, p.cursor, r))
  }

  function ApplyAll(s: State, p: Portfolio, work: seq<RatedService>): Result<State>
  {
    if work == [] then Ok(s) else
    match ApplyAll(s, p, work[..|work| - 1])
    case Err(e) => Err(e)
    case Ok(before) => ApplyChecked(before, p, work[|work| - 1])
  }

  /** What a rated portfolio does once its snapshot and settlements are in place. */
  function WritePrepared(s: State, p: Portfolio, c: Context, rated: seq<RatedService>): Result<(State, Outcome)>
  {
    var replayed := ReplayedServices(s, p, c.services.Keys);
    if replayed != {} && replayed != c.services.Keys then Err(PartialSnapshot)
    else if replayed == c.services.Keys then
      if ReplayMatches(s, p, rated) then Ok((s, Replayed)) else Err(SnapshotMutated)
    else
      match ApplyAll(s, p, WorkOrder(s, p.month, rated))
      case Err(e) => Err(e)
      case Ok(after) => Ok((after, Applied))
  }

  /** The database starts a settlement under a tariff in dollars only. */
  predicate StartsInDollars(s: State, p: Portfolio, c: Context)
  {
    forall id :: id in c.services && SettlementKey(p.month, id) !in s.settlements ==> c.services[id].currency == "USD"
  }

  function Write(s: State, p: Portfolio, c: Context, rated: seq<RatedService>): Result<(State, Outcome)>
  {
    if !StartsInDollars(s, p, c) then Err(TariffNotInDollars)
    else WritePrepared(Prepare(s, p, c), p, c, rated)
  }

  /** The outcome of settling a portfolio; a failure leaves the account as it was. */
  ghost predicate Settles(s: State, p: Portfolio, env: Environment, after: State, r: Result<Outcome>)
  {
    if p.cursor in s.snapshots && s.snapshots[p.cursor] != SnapshotOf(p) then
      r == Err(SnapshotMutated) && after == s
    else if p.cursor !in s.snapshots && IsStale(s, p) then
      r == Ok(Superseded) && after == s
    else if !(Products(p.lines) <= env.catalog.Keys) then
      r == Err(ServiceUnknown) && after == s
    else if !(Products(p.lines) <= env.active) then
      r == Err(ServiceInactive) && after == s
    else
      var c := RatingContext(s, p, env);
      exists previous, rating ::
        && ListsPrevious(previous, s, p.month)
        && IsRating(rating, p.lines, previous, s.balance, c)
        && Writes(s, p, c, rating, after, r)
  }

  ghost predicate Writes(s: State, p: Portfolio, c: Context, rating: Result<seq<RatedService>>, after: State,
                         r: Result<Outcome>)
  {
    match rating
    case Err(e) => r == Err(e) && after == s
    case Ok(rated) =>
      match Write(s, p, c, rated)
      case Err(e) => r == Err(e) && after == s
      case Ok((written, outcome)) => r == Ok(outcome) && after == written
  }

  // ---- Runs -------------------------------------------------------------------------------------

  datatype Event =
    | OrderOpened(id: OrderId, credits: nat, automatic: bool)
    | OrderClosed(id: OrderId)
    | OrderPaid(id: OrderId, intent: IntentId)
    | Adjusted(notification: Payments.Event)
    | PortfolioSettled(portfolio: Portfolio, env: Environment)

  /** A failed transaction changes nothing. */
  function Committed(s: State, r: Result<State>): State
  {
    if r.Ok? then r.value else s
  }

  ghost predicate Step(s: State, e: Event, after: State)
  {
    match e
    case OrderOpened(id, credits, automatic) => after == Committed(s, OpenOrder(s, id, credits, automatic))
    case OrderClosed(id) => after == Committed(s, CloseOrder(s, id))
    case OrderPaid(id, intent) => after == Committed(s, PaymentSucceeded(s, id, intent))
    case Adjusted(notification) => after == Committed(s, PaymentAdjusted(s, notification))
    case PortfolioSettled(p, env) => exists r :: Settles(s, p, env, after, r)
  }

  /** Any interleaving of events, from an empty account. */
  ghost predicate IsRun(states: seq<State>, events: seq<Event>)
  {
    && |states| == |events| + 1 && states[0] == Empty()
    && forall i :: 0 <= i < |events| ==> Step(states[i], events[i], states[i + 1])
  }
}
