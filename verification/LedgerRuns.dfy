/** Runs of the account in which the refusals of the database decide. */
module LedgerRuns {
  import opened Prelude
  import opened CreditTargets
  import opened CreditRating
  import opened Ledger
  import opened LedgerInvariants
  import opened LedgerTheorems
  import MeteringRating

  /** A line that names a service but carries no cost. */
  function Uncosted(): UsageLine
  {
    UsageLine(0, None, None, None)
  }

  function OneService(currency: string): Environment
  {
    Environment(map[0 := Tariff(MeteringRating.Standard, 0, currency)], {0}, {})
  }

  function FirstCapture(): Portfolio { Portfolio(0, 0, 0, []) }

  function SecondCapture(): Portfolio { Portfolio(0, 1, 1, [Uncosted()]) }

  function Unused(): RatedService { RatedService(0, 0, 0, 0, []) }

  /** A service without costs is rated, whatever its tariff's currency: the rating never looks at it. */
  lemma UncostedRated(balance: int, c: Context)
    requires c.services.Keys == {0}
    ensures IsRating(Ok([Unused()]), [Uncosted()], [], balance, c)
  {
    hide Targets;
    assert BaseCosts([Uncosted()][..0], c) == Ok(map[]);
    assert BaseCosts([Uncosted()], c) == Ok(map[]);
    CostsKnown([Uncosted()], c);
    var rated := RatedAmounts(map[], c);
    assert rated == map[];
    var targets := Targets(rated, map[], balance);
    assert ServiceRated(Unused(), rated, targets);
    assert (set r | r in [Unused()] :: r.service) == {0};
    assert Describes([Unused()], {0}, rated, targets);
  }

  lemma NothingRated(balance: int, c: Context)
    requires c.services.Keys == {}
    ensures IsRating(Ok([]), [], [], balance, c)
  {
    hide Targets;
    assert BaseCosts([], c) == Ok(map[]);
    CostsKnown([], c);
    var rated := RatedAmounts(map[], c);
    assert Describes([], {}, rated, Targets(rated, map[], balance));
  }

  /** A portfolio that may be rated settles as it is written. */
  lemma SettlesBy(s: State, p: Portfolio, env: Environment, rating: Result<seq<RatedService>>, after: State,
                  r: Result<Outcome>)
    requires p.cursor in s.snapshots ==> s.snapshots[p.cursor] == SnapshotOf(p)
    requires p.cursor !in s.snapshots ==> !IsStale(s, p)
    requires Products(p.lines) <= env.catalog.Keys && Products(p.lines) <= env.active && s.rows == []
    requires IsRating(rating, p.lines, [], s.balance, RatingContext(s, p, env))
    requires Writes(s, p, RatingContext(s, p, env), rating, after, r)
    ensures Settles(s, p, env, after, r)
  {
    hide IsRating, Writes, RatingContext;
    assert ListsPrevious([], s, p.month);
  }

  lemma LinesOf()
    ensures Products(FirstCapture().lines) == {} && Products(SecondCapture().lines) == {0}
  {}

  /** A rated capture is refused because it would start a settlement under a tariff in another currency. */
  lemma ForeignTariffRefused()
    ensures Settles(Empty(), SecondCapture(), OneService("EUR"), Empty(), Err(TariffNotInDollars))
  {
    hide IsRating;
    var p, env := SecondCapture(), OneService("EUR");
    LinesOf();
    var c := RatingContext(Empty(), p, env);
    ContextCovers(Empty(), p, env);
    assert Settled(Empty(), p.month) == {};
    UncostedRated(0, c);
    assert 0 in c.services && c.services[0].currency == "EUR" && "EUR"[0] != "USD"[0];
    assert Writes(Empty(), p, c, Ok([Unused()]), Empty(), Err(TariffNotInDollars));
    SettlesBy(Empty(), p, env, Ok([Unused()]), Empty(), Err(TariffNotInDollars));
  }

  // ---- An empty capture comes back ---------------------------------------------------------------

  /** After an empty capture: it is remembered, and nothing is settled. */
  function AfterFirst(): State
  {
    Empty().(snapshots := map[0 := Snapshot(0, 0, [])])
  }

  /** After a later capture that names a service: its settlement has been corrected once. */
  function AfterSecond(): State
  {
    var key := SettlementKey(0, 0);
    AfterFirst().(
      snapshots := map[0 := Snapshot(0, 0, []), 1 := Snapshot(0, 1, [Uncosted()])],
      settlements := map[key := Settlement(Tariff(MeteringRating.Standard, 0, "USD"), ZERO)],
      corrections := [Correction(key, 1, 1, ZERO, ZERO)])
  }

  lemma FirstStep()
    ensures Settles(Empty(), FirstCapture(), OneService("USD"), AfterFirst(), Ok(Replayed))
  {
    hide IsRating, WritePrepared, RatingContext;
    var p, env := FirstCapture(), OneService("USD");
    LinesOf();
    assert Settled(Empty(), p.month) == {};
    ContextCovers(Empty(), p, env);
    var c := RatingContext(Empty(), p, env);
    NothingRated(0, c);
    assert Prepare(Empty(), p, c) == AfterFirst();
    NothingToCorrect(p, c);
    assert Writes(Empty(), p, c, Ok([]), AfterFirst(), Ok(Replayed));
    SettlesBy(Empty(), p, env, Ok([]), AfterFirst(), Ok(Replayed));
  }

  lemma NothingToCorrect(p: Portfolio, c: Context)
    requires c.services.Keys == {}
    ensures WritePrepared(AfterFirst(), p, c, []) == Ok((AfterFirst(), Replayed))
  {
    assert ReplayedServices(AfterFirst(), p, c.services.Keys) == {};
  }

  /** The state in which the second capture finds its settlement, before it is corrected. */
  function Prepared(): State
  {
    AfterSecond().(corrections := [])
  }

  lemma UnusedIsNoRelease()
    ensures !IsRelease(Prepared(), 0, Unused())
    ensures WorkOrder(Prepared(), 0, [Unused()]) == [Unused()]
  {
    var t := Prepared();
    assert [Unused()][..0] == [];
    assert Select(t, 0, [], true) == [] && Select(t, 0, [], false) == [];
    assert Select(t, 0, [Unused()], true) == [];
    assert Select(t, 0, [Unused()], false) == [Unused()];
  }

  lemma NoUsers(key: SettlementKey)
    ensures UsersOf([], key, Unused()) == [] && ChangedRows([], [], key, Unused(), 1) == []
  {}

  lemma UnusedApplies(t: State, key: SettlementKey)
    requires key in t.settlements && t.settlements[key].total == ZERO && t.rows == [] && t.corrections == []
    ensures ApplyRatedService(t, key, 1, Unused()) == t.(corrections := [Correction(key, 1, 1, ZERO, ZERO)])
  {
    hide UsersOf, ChangedRows;
    NoUsers(key);
    var settlement := t.settlements[key];
    assert settlement.(total := ZERO) == settlement;
    assert t.settlements[key := settlement] == t.settlements;
  }

  lemma UnusedApplied()
    ensures ApplyRatedService(Prepared(), SettlementKey(0, 0), 1, Unused()) == AfterSecond()
  {
    hide ApplyRatedService;
    UnusedApplies(Prepared(), SettlementKey(0, 0));
  }

  /** Correcting the one service, which owes nothing, writes its correction and no more. */
  lemma OneCorrection()
    ensures ApplyAll(Prepared(), SecondCapture(), WorkOrder(Prepared(), 0, [Unused()])) == Ok(AfterSecond())
  {
    hide ApplyRatedService, WorkOrder;
    UnusedIsNoRelease();
    UnusedApplied();
    assert ApplyChecked(Prepared(), SecondCapture(), Unused()) == Ok(AfterSecond());
    assert ApplyAll(Prepared(), SecondCapture(), []) == Ok(Prepared());
    assert [Unused()][..0] == [];
  }

  lemma SecondWritten(c: Context)
    requires c.services.Keys == {0}
    ensures WritePrepared(Prepared(), SecondCapture(), c, [Unused()]) == Ok((AfterSecond(), Applied))
  {
    hide ApplyAll, WorkOrder;
    OneCorrection();
    assert ReplayedServices(Prepared(), SecondCapture(), c.services.Keys) == {};
    assert 0 in c.services.Keys;
  }

  lemma SecondContext()
    ensures Products(SecondCapture().lines) <= OneService("USD").catalog.Keys
    ensures RatingContext(AfterFirst(), SecondCapture(), OneService("USD"))
      == Context(map[0 := Tariff(MeteringRating.Standard, 0, "USD")], {})
  {
    LinesOf();
    assert Settled(AfterFirst(), 0) == {};
  }

  lemma SecondPrepared()
    ensures var c := Context(map[0 := Tariff(MeteringRating.Standard, 0, "USD")], {});
      Prepare(AfterFirst(), SecondCapture(), c) == Prepared() && StartsInDollars(AfterFirst(), SecondCapture(), c)
  {
    var c := Context(map[0 := Tariff(MeteringRating.Standard, 0, "USD")], {});
    var t := Prepare(AfterFirst(), SecondCapture(), c);
    PreparedSettlements(AfterFirst(), SecondCapture(), c);
    assert t.settlements == Prepared().settlements;
    assert t.snapshots == Prepared().snapshots;
  }

  lemma SecondStep()
    ensures Settles(AfterFirst(), SecondCapture(), OneService("USD"), AfterSecond(), Ok(Applied))
  {
    hide IsRating, WritePrepared, RatingContext, Prepare, StartsInDollars;
    var s, p, env := AfterFirst(), SecondCapture(), OneService("USD");
    LinesOf();
    SecondContext();
    SecondPrepared();
    var c := RatingContext(s, p, env);
    UncostedRated(0, c);
    SecondWritten(c);
    assert Writes(s, p, c, Ok([Unused()]), AfterSecond(), Ok(Applied));
    SettlesBy(s, p, env, Ok([Unused()]), AfterSecond(), Ok(Applied));
  }

  lemma SecondCoherent()
    ensures Inv(AfterSecond())
  {
    hide Inv, Settles, AfterFirst, AfterSecond, Empty, Safe;
    EmptyInv();
    FirstStep();
    SettlesKeeps(Empty(), FirstCapture(), OneService("USD"), AfterFirst(), Ok(Replayed));
    SecondStep();
    SettlesKeeps(AfterFirst(), SecondCapture(), OneService("USD"), AfterSecond(), Ok(Applied));
  }

  lemma SecondSettled()
    ensures Settled(AfterSecond(), 0) == {0}
    ensures ReplayedServices(AfterSecond(), FirstCapture(), {0}) == {}
  {
    var s := AfterSecond();
    assert SettlementKey(0, 0) in s.settlements;
    assert s.corrections[..0] == [];
    assert ReplayOf(s.corrections, SettlementKey(0, 0), 0).None?;
  }

  /** The empty capture again: it passes the replay test, and only its age stops it. */
  lemma ThirdStep()
    ensures Settles(AfterSecond(), FirstCapture(), OneService("USD"), AfterSecond(), Err(OlderSnapshot))
  {
    hide Inv, IsRating, Write, RatingContext, ReplayedServices, Settled;
    var s, p, env := AfterSecond(), FirstCapture(), OneService("USD");
    SecondCoherent();
    SecondSettled();
    LinesOf();
    ContextCovers(s, p, env);
    var c := RatingContext(s, p, env);
    assert ListsPrevious([], s, p.month);
    UnusedRated(s.balance, c);
    RewriteRefused(s, p, env, [], Ok([Unused()]));
    assert Writes(s, p, c, Ok([Unused()]), s, Err(OlderSnapshot));
    SettlesBy(s, p, env, Ok([Unused()]), s, Err(OlderSnapshot));
  }

  lemma UnusedRated(balance: int, c: Context)
    requires c.services.Keys == {0}
    ensures IsRating(Ok([Unused()]), [], [], balance, c)
  {
    hide Targets;
    assert BaseCosts([], c) == Ok(map[]);
    CostsKnown([], c);
    var rated := RatedAmounts(map[], c);
    assert rated == map[];
    var targets := Targets(rated, map[], balance);
    assert ServiceRated(Unused(), rated, targets);
    assert (set r | r in [Unused()] :: r.service) == {0};
    assert Describes([Unused()], {0}, rated, targets);
  }

  /** The whole run: an empty capture, a later one with a line, and the empty one again. */
  lemma EmptyCaptureReturns()
    ensures IsRun([Empty(), AfterFirst(), AfterSecond(), AfterSecond()],
      [PortfolioSettled(FirstCapture(), OneService("USD")), PortfolioSettled(SecondCapture(), OneService("USD")),
       PortfolioSettled(FirstCapture(), OneService("USD"))])
    ensures Settles(AfterSecond(), FirstCapture(), OneService("USD"), AfterSecond(), Err(OlderSnapshot))
    ensures ReplayedServices(AfterSecond(), FirstCapture(), Settled(AfterSecond(), 0)) == {} != Settled(AfterSecond(), 0)
  {
    hide Settles, Empty, AfterFirst, AfterSecond, ReplayedServices, Settled, Inv;
    FirstStep();
    SecondStep();
    ThirdStep();
    SecondSettled();
  }
}
