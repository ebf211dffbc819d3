/**
 * The whole-credit consumption of every bucket after a rating: credits consumed beyond
 * the rated capacity are released first, then the balance is spent on the remaining
 * capacity by largest remainder.
 */
module CreditTargets {
  import opened Prelude
  import opened Buckets
  import opened Sums
  import opened Apportionment

  /** Rated usage in millionths of a minor unit, and consumption in microcredits. */
  type Amounts = map<Key, nat>

  function At(m: Amounts, k: Key): nat
  {
    if k in m then m[k] else 0
  }

  function Capacity(rated: Amounts, k: Key): nat
  {
    At(rated, k) / MICRO_MINOR_PER_CREDIT
  }

  /** The previously consumed whole credits that the new rating still covers. */
  function Kept(rated: Amounts, previous: Amounts, k: Key): nat
  {
    Min(At(previous, k) / MICROCREDITS_PER_CREDIT, Capacity(rated, k))
  }

  ghost function Room(rated: Amounts, previous: Amounts): Capacities
  {
    map k | k in rated.Keys + previous.Keys :: Capacity(rated, k) - Kept(rated, previous, k)
  }

  ghost function Released(rated: Amounts, previous: Amounts): map<Key, nat>
  {
    map k | k in rated.Keys + previous.Keys ::
      At(previous, k) - Kept(rated, previous, k) * MICROCREDITS_PER_CREDIT
  }

  ghost function BalanceAfterRelease(rated: Amounts, previous: Amounts, balance: int): int
  {
    balance + Sum(Released(rated, previous))
  }

  function WholeCredits(microcredits: int): nat
  {
    if microcredits > 0 then microcredits / MICROCREDITS_PER_CREDIT else 0
  }

  ghost function Requested(rated: Amounts, previous: Amounts, balance: int): (r: nat)
    ensures r <= Sum(Room(rated, previous))
  {
    SumNonNegative(Room(rated, previous));
    Min(WholeCredits(BalanceAfterRelease(rated, previous, balance)), Sum(Room(rated, previous)))
  }

  /** The whole credits consumed by each bucket after the rating. */
  ghost function Targets(rated: Amounts, previous: Amounts, balance: int): (targets: map<Key, nat>)
    ensures targets.Keys == rated.Keys + previous.Keys
  {
    var shares := Shares(Room(rated, previous), Requested(rated, previous, balance));
    map k | k in rated.Keys + previous.Keys :: Kept(rated, previous, k) + shares[k]
  }

  /** The same in microcredits, as it is written to the ledger. */
  ghost function Consumed(rated: Amounts, previous: Amounts, balance: int): (consumed: Amounts)
    ensures consumed.Keys == rated.Keys + previous.Keys
  {
    var targets := Targets(rated, previous, balance);
    map k | k in rated.Keys + previous.Keys :: targets[k] * MICROCREDITS_PER_CREDIT
  }

  /** The balance once the change in consumption has been charged. */
  ghost function BalanceAfter(rated: Amounts, previous: Amounts, balance: int): int
  {
    balance + Sum(previous) - Sum(Consumed(rated, previous, balance))
  }

  // ---- What a rating hands out ------------------------------------------------

  /** The whole credits consumed before that are still covered: a million microcredits, 100000 rated, to the credit. */
  function StillCovered(rated: Amounts, previous: Amounts, k: Key): nat
  {
    var before, capacity := At(previous, k) / 1_000_000, At(rated, k) / 100_000;
    if before < capacity then before else capacity
  }

  /** What there is room for beyond that, in whole credits. */
  ghost function StillFree(rated: Amounts, previous: Amounts): map<Key, int>
  {
    map k | k in rated.Keys + previous.Keys :: At(rated, k) / 100_000 - StillCovered(rated, previous, k)
  }

  /** What is given back because it is no longer covered, in microcredits. */
  ghost function GivenBack(rated: Amounts, previous: Amounts): map<Key, int>
  {
    map k | k in rated.Keys + previous.Keys :: At(previous, k) - StillCovered(rated, previous, k) * 1_000_000
  }

  /** What each bucket gets beyond what is kept. */
  ghost function HandedTo(rated: Amounts, previous: Amounts, targets: map<Key, nat>): map<Key, int>
  {
    map k | k in targets :: targets[k] - StillCovered(rated, previous, k)
  }

  /**
   * The rating keeps what is still covered and hands out, of what is left, all the whole credits
   * there are or all there is room for, whichever is less.
   */
  lemma HandedOut(rated: Amounts, previous: Amounts, balance: int)
    ensures var spendable, free := balance + Sum(GivenBack(rated, previous)), Sum(StillFree(rated, previous));
      var whole := if spendable > 0 then spendable / 1_000_000 else 0;
      Sum(HandedTo(rated, previous, Targets(rated, previous, balance))) == if whole < free then whole else free
  {
    hide Shares, At, Kept, Capacity, StillCovered, Room, Released;
    CoveredIsKept(rated, previous);
    FreeIsRoom(rated, previous);
    BackIsReleased(rated, previous);
    var shares := Shares(Room(rated, previous), Requested(rated, previous, balance));
    SharesExact(Room(rated, previous), Requested(rated, previous, balance));
    assert Room(rated, previous).Keys == rated.Keys + previous.Keys by { RoomFor(rated, previous); }
    assert HandedTo(rated, previous, Targets(rated, previous, balance)) == shares;
  }

  lemma RoomFor(rated: Amounts, previous: Amounts)
    ensures Room(rated, previous).Keys == rated.Keys + previous.Keys
  {}

  lemma CoveredIsKept(rated: Amounts, previous: Amounts)
    ensures forall k :: StillCovered(rated, previous, k) == Kept(rated, previous, k)
  {}

  lemma FreeIsRoom(rated: Amounts, previous: Amounts)
    ensures StillFree(rated, previous) == Room(rated, previous)
  {
    hide At;
  }

  lemma BackIsReleased(rated: Amounts, previous: Amounts)
    ensures GivenBack(rated, previous) == Released(rated, previous)
  {
    hide At;
    CoveredIsKept(rated, previous);
  }

  // ---- What a rating guarantees ----------------------------------------------

  /** Nobody pays for more than was rated, and a re-rating takes back only what the new capacity no longer covers. */
  lemma TargetsBounded(rated: Amounts, previous: Amounts, balance: int, k: Key)
    requires k in rated.Keys + previous.Keys
    ensures Min(At(previous, k) / MICROCREDITS_PER_CREDIT, Capacity(rated, k))
         <= Targets(rated, previous, balance)[k] <= Capacity(rated, k)
  {
    SharesExact(Room(rated, previous), Requested(rated, previous, balance));
  }

  /** What is charged is exactly the whole credits asked for after the release. */
  lemma BalanceAfterIs(rated: Amounts, previous: Amounts, balance: int)
    ensures BalanceAfter(rated, previous, balance)
         == BalanceAfterRelease(rated, previous, balance)
            - Requested(rated, previous, balance) * MICROCREDITS_PER_CREDIT
  {
    var keys := rated.Keys + previous.Keys;
    var r := Requested(rated, previous, balance);
    var shares := Shares(Room(rated, previous), r);
    var targets := Targets(rated, previous, balance);
    var consumed := Consumed(rated, previous, balance);
    var released := Released(rated, previous);
    var whole: map<Key, int> := map k | k in keys :: At(previous, k);
    var kept: map<Key, int> := map k | k in keys :: Kept(rated, previous, k) * MICROCREDITS_PER_CREDIT;
    var charged: map<Key, int> := map k | k in keys :: shares[k] * MICROCREDITS_PER_CREDIT;
    SumExtend(previous, whole);
    SumAdd(kept, released, whole);
    SumAdd(kept, charged, consumed);
    SumMillions(shares, charged);
    SharesExact(Room(rated, previous), r);
  }

  lemma {:induction false} SumMillions(m: map<Key, int>, n: map<Key, int>)
    requires m.Keys == n.Keys
    requires forall k :: k in m ==> n[k] == m[k] * MICROCREDITS_PER_CREDIT
    ensures Sum(n) == Sum(m) * MICROCREDITS_PER_CREDIT
    decreases |m.Keys|
  {
    if m == map[] {
      assert n == map[];
    } else {
      var k :| k in m;
      SumRemove(m, k);
      SumRemove(n, k);
      SumMillions(m - {k}, n - {k});
    }
  }

  /** A rating never overdraws: the balance ends at zero or more, or not below where it started. */
  lemma NoOverdraft(rated: Amounts, previous: Amounts, balance: int)
    ensures BalanceAfter(rated, previous, balance) >= Min(balance, 0)
    ensures BalanceAfterRelease(rated, previous, balance) >= balance
    ensures Requested(rated, previous, balance) > 0 ==> BalanceAfter(rated, previous, balance) >= 0
  {
    BalanceAfterIs(rated, previous, balance);
    SumNonNegative(Released(rated, previous));
  }

  /** Nothing is left unspent: less than one credit remains, or every bucket is at capacity. */
  lemma FullUse(rated: Amounts, previous: Amounts, balance: int)
    ensures BalanceAfter(rated, previous, balance) < MICROCREDITS_PER_CREDIT
         || forall k :: k in rated.Keys + previous.Keys ==>
              Targets(rated, previous, balance)[k] == Capacity(rated, k)
  {
    BalanceAfterIs(rated, previous, balance);
    var room, r := Room(rated, previous), Requested(rated, previous, balance);
    if r == Sum(room) {
      SharesExact(room, r);
      SumMonotone(Shares(room, r), room);
    }
  }

  /** If consumption is whole credits within capacity, all of it is kept and nothing released. */
  lemma AllKept(rated: Amounts, targets: map<Key, nat>, consumed: Amounts)
    requires rated.Keys <= targets.Keys == consumed.Keys
    requires forall k :: k in targets ==>
      targets[k] <= Capacity(rated, k) && consumed[k] == targets[k] * MICROCREDITS_PER_CREDIT
    ensures forall k :: k in targets ==> Kept(rated, consumed, k) == targets[k]
    ensures Sum(Released(rated, consumed)) == 0
  {
    assert rated.Keys + consumed.Keys == targets.Keys;
    forall k | k in targets ensures Kept(rated, consumed, k) == targets[k] {
      assert consumed[k] / MICROCREDITS_PER_CREDIT == targets[k];
    }
    SumIndicator(Released(rated, consumed), {});
  }

  /** If in addition no whole credit is left, or no room, nothing is spent. */
  lemma NothingToSpend(rated: Amounts, targets: map<Key, nat>, consumed: Amounts, balance: int)
    requires rated.Keys <= targets.Keys == consumed.Keys
    requires forall k :: k in targets ==>
      targets[k] <= Capacity(rated, k) && consumed[k] == targets[k] * MICROCREDITS_PER_CREDIT
    requires balance < MICROCREDITS_PER_CREDIT || forall k :: k in targets ==> targets[k] == Capacity(rated, k)
    ensures Requested(rated, consumed, balance) == 0
  {
    AllKept(rated, targets, consumed);
    var room := Room(rated, consumed);
    SumNonNegative(room);
    if balance >= MICROCREDITS_PER_CREDIT {
      assert room.Keys == targets.Keys;
      SumIndicator(room, {});
    }
  }

  lemma KeptWithoutRequest(rated: Amounts, targets: map<Key, nat>, consumed: Amounts, balance: int)
    requires rated.Keys <= targets.Keys == consumed.Keys
    requires forall k :: k in targets ==> Kept(rated, consumed, k) == targets[k]
    requires Requested(rated, consumed, balance) == 0
    ensures Targets(rated, consumed, balance) == targets
  {
    assert rated.Keys + consumed.Keys == targets.Keys;
  }

  /** Rating the same usage again from its own outcome changes nothing. */
  lemma Fixpoint(rated: Amounts, previous: Amounts, balance: int)
    ensures Targets(rated, Consumed(rated, previous, balance), BalanceAfter(rated, previous, balance))
         == Targets(rated, previous, balance)
  {
    forall k | k in rated.Keys + previous.Keys
      ensures Targets(rated, previous, balance)[k] <= Capacity(rated, k)
    {
      TargetsBounded(rated, previous, balance, k);
    }
    FullUse(rated, previous, balance);
    var targets, consumed := Targets(rated, previous, balance), Consumed(rated, previous, balance);
    AllKept(rated, targets, consumed);
    NothingToSpend(rated, targets, consumed, BalanceAfter(rated, previous, balance));
    KeptWithoutRequest(rated, targets, consumed, BalanceAfter(rated, previous, balance));
  }

  /** What counts of the previous consumption is its value in each bucket. */
  lemma TargetsByValue(rated: Amounts, p: Amounts, q: Amounts, balance: int)
    requires rated.Keys + p.Keys == rated.Keys + q.Keys
    requires forall k :: k in rated.Keys + p.Keys ==> At(p, k) == At(q, k)
    ensures Targets(rated, p, balance) == Targets(rated, q, balance)
  {
    hide Shares, At, Kept, Capacity, Requested, Room, Released;
    forall k | k in rated.Keys + p.Keys ensures Kept(rated, p, k) == Kept(rated, q, k) {
      KeptByValue(rated, p, q, k);
    }
    RoomByValue(rated, p, q);
    ReleasedByValue(rated, p, q);
    RequestedBySums(rated, p, q, balance);
    RoomFor(rated, p);
    var r := Requested(rated, p, balance);
    assert Shares(Room(rated, p), r).Keys == rated.Keys + p.Keys;
  }

  lemma RoomByValue(rated: Amounts, p: Amounts, q: Amounts)
    requires rated.Keys + p.Keys == rated.Keys + q.Keys
    requires forall k :: k in rated.Keys + p.Keys ==> Kept(rated, p, k) == Kept(rated, q, k)
    ensures Room(rated, p) == Room(rated, q)
  {
    hide Kept, Capacity;
    assert forall k :: k in rated.Keys + p.Keys <==> k in rated.Keys + q.Keys;
  }

  lemma ReleasedByValue(rated: Amounts, p: Amounts, q: Amounts)
    requires rated.Keys + p.Keys == rated.Keys + q.Keys
    requires forall k :: k in rated.Keys + p.Keys ==> Kept(rated, p, k) == Kept(rated, q, k) && At(p, k) == At(q, k)
    ensures Released(rated, p) == Released(rated, q)
  {
    hide Kept, At;
    assert forall k :: k in rated.Keys + p.Keys <==> k in rated.Keys + q.Keys;
  }

  lemma KeptByValue(rated: Amounts, p: Amounts, q: Amounts, k: Key)
    requires At(p, k) == At(q, k)
    ensures Kept(rated, p, k) == Kept(rated, q, k)
  {}

  lemma RequestedBySums(rated: Amounts, p: Amounts, q: Amounts, balance: int)
    requires Room(rated, p) == Room(rated, q) && Released(rated, p) == Released(rated, q)
    ensures Requested(rated, p, balance) == Requested(rated, q, balance)
  {
    hide Room, Released;
  }
}
