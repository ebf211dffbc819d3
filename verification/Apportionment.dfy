/**
 * Largest-remainder apportionment of whole credits, as a function of a map and so
 * independent of the order in which buckets are listed.
 */
module Apportionment {
  import opened Prelude
  import opened Buckets
  import opened Sums

  type Capacities = map<Key, nat>

  /** The buckets that can still take a credit. */
  ghost function Candidates(caps: Capacities): Capacities
  {
    map k | k in caps && caps[k] > 0 :: caps[k]
  }

  /** The whole part of capacity * requested / total. */
  function Quotient(capacity: nat, requested: nat, total: nat): nat
    requires total > 0
  {
    capacity * requested / total
  }

  function Remainder(capacity: nat, requested: nat, total: nat): nat
    requires total > 0
  {
    capacity * requested % total
  }

  ghost function Floors(caps: Capacities, requested: nat): map<Key, nat>
    requires Sum(caps) > 0
  {
    map k | k in caps :: Quotient(caps[k], requested, Sum(caps))
  }

  ghost function Remainders(caps: Capacities, requested: nat): map<Key, nat>
    requires Sum(caps) > 0
  {
    map k | k in caps :: Remainder(caps[k], requested, Sum(caps))
  }

  /** Larger remainder first; equal remainders in bucket order. */
  predicate Before(remainders: map<Key, nat>, left: Key, right: Key)
    requires left in remainders && right in remainders
  {
    if remainders[left] != remainders[right] then remainders[left] > remainders[right]
    else KeyLess(left, right)
  }

  ghost function Ahead(remainders: map<Key, nat>, among: set<Key>, k: Key): set<Key>
    requires among <= remainders.Keys && k in remainders
  {
    set j | j in among && Before(remainders, j, k)
  }

  /** The buckets among the first `count` in remainder order. */
  ghost function Leaders(remainders: map<Key, nat>, among: set<Key>, count: nat): set<Key>
    requires among <= remainders.Keys
  {
    set k | k in among && |Ahead(remainders, among, k)| < count
  }

  ghost function Outstanding(caps: Capacities, requested: nat): int
    requires Sum(caps) > 0
  {
    requested - Sum(Floors(caps, requested))
  }

  /** The buckets that receive one credit beyond their whole part. */
  ghost function Rounded(caps: Capacities, requested: nat): set<Key>
    requires Sum(caps) > 0
  {
    var o := Outstanding(caps, requested);
    Leaders(Remainders(caps, requested), caps.Keys, AtLeastZero(o))
  }

  /** The additional credits each bucket receives out of `requested`. */
  ghost function Shares(caps: Capacities, requested: nat): (shares: map<Key, nat>)
    requires requested <= Sum(caps)
    ensures shares.Keys == caps.Keys
  {
    var open := Candidates(caps);
    if requested == 0 || Sum(open) <= 0 then map k | k in caps :: 0 else
    var rounded := Rounded(open, requested);
    map k | k in caps ::
      if k !in open then 0
      else Quotient(caps[k], requested, Sum(open)) + (if k in rounded then 1 else 0)
  }

  // ---- The remainder order -------------------------------------------------

  lemma LastExists(remainders: map<Key, nat>, among: set<Key>) returns (last: Key)
    requires among != {} && among <= remainders.Keys
    ensures last in among
    ensures forall k :: k in among && k != last ==> Before(remainders, k, last)
    decreases |among|
  {
    last :| last in among;
    if among != {last} {
      var other := LastExists(remainders, among - {last});
      if Before(remainders, last, other) {
        last := other;
      } else {
        assert Before(remainders, other, last);
        forall k | k in among && k != last ensures Before(remainders, k, last) {
          assert k == other || Before(remainders, k, other);
        }
      }
    }
  }

  /** Exactly `count` buckets are among the first `count`. */
  lemma {:induction false} LeadersCount(remainders: map<Key, nat>, among: set<Key>, count: nat)
    requires among <= remainders.Keys && count <= |among|
    ensures |Leaders(remainders, among, count)| == count
    decreases |among|
  {
    if among == {} {
      assert Leaders(remainders, among, count) == {};
    } else {
      var last := LastExists(remainders, among);
      var rest := among - {last};
      assert Ahead(remainders, among, last) == rest;
      forall k | k in rest
        ensures Ahead(remainders, among, k) == Ahead(remainders, rest, k)
      {}
      if count < |among| {
        LeadersCount(remainders, rest, count);
        assert Leaders(remainders, among, count) == Leaders(remainders, rest, count);
      } else {
        LeadersCount(remainders, rest, count - 1);
        forall k | k in among ensures |Ahead(remainders, among, k)| < count {
          AheadProper(remainders, among, k);
        }
        assert Leaders(remainders, among, count) == among;
      }
    }
  }

  lemma AheadProper(remainders: map<Key, nat>, among: set<Key>, k: Key)
    requires among <= remainders.Keys && k in among
    ensures |Ahead(remainders, among, k)| < |among|
  {
    var ahead := Ahead(remainders, among, k);
    assert ahead <= among - {k};
    SubsetSize(ahead, among - {k});
  }

  lemma {:induction false} SubsetSize<T>(a: set<T>, b: set<T>)
    requires a <= b
    ensures |a| <= |b|
    decreases |a|
  {
    if a != {} {
      var x :| x in a;
      SubsetSize(a - {x}, b - {x});
    }
  }

  // ---- The apportionment is exact ------------------------------------------

  lemma DivisionLaw(capacity: nat, requested: nat, total: nat)
    requires total > 0 && requested <= total
    ensures total * Quotient(capacity, requested, total) + Remainder(capacity, requested, total)
         == capacity * requested
    ensures 0 <= Remainder(capacity, requested, total) < total
    ensures Quotient(capacity, requested, total) <= capacity
    ensures Remainder(capacity, requested, total) > 0 ==> Quotient(capacity, requested, total) < capacity
  {
    var q, r := Quotient(capacity, requested, total), Remainder(capacity, requested, total);
    MulMonotone(requested, total, capacity);
    assert total * q + r <= total * capacity;
    MulCancel(total, q, capacity);
  }

  lemma MulMonotone(a: nat, b: nat, c: nat)
    requires a <= b
    ensures c * a <= c * b == b * c
  {}

  lemma MulCancel(c: nat, a: nat, b: nat)
    requires c > 0 && c * a <= c * b
    ensures a <= b
    ensures c * a < c * b ==> a < b
  {}

  /** total * outstanding is the sum of the remainders. */
  lemma RemaindersSum(caps: Capacities, requested: nat)
    requires Sum(caps) > 0 && requested <= Sum(caps)
    ensures Sum(Remainders(caps, requested)) == Sum(caps) * Outstanding(caps, requested)
  {
    var total := Sum(caps);
    var floors, remainders := Floors(caps, requested), Remainders(caps, requested);
    SumScaled(total, floors);
    SumScaled(requested, caps);
    forall k | k in caps
      ensures Scaled(total, floors)[k] + remainders[k] == Scaled(requested, caps)[k]
    {
      DivisionLaw(caps[k], requested, total);
      TimesIsProduct(total, floors[k]);
      TimesIsProduct(requested, caps[k]);
    }
    SumAdd(Scaled(total, floors), remainders, Scaled(requested, caps));
    SplitProduct(total, requested, Sum(floors));
  }

  lemma SplitProduct(total: int, requested: int, floors: int)
    ensures total * (requested - floors) == requested * total - total * floors
  {}

  ghost function Positive(m: map<Key, nat>): set<Key>
  {
    set k | k in m && m[k] > 0
  }

  lemma LeftoverFewer(remainders: map<Key, nat>, total: nat, leftover: int)
    requires total > 0
    requires forall k :: k in remainders ==> remainders[k] < total
    requires Sum(remainders) == total * leftover
    ensures 0 <= leftover <= |Positive(remainders)| <= |remainders.Keys|
  {
    var positive := Positive(remainders);
    SumNonNegative(remainders);
    SumBound(remainders, positive, total - 1);
    OutstandingBounds(total, leftover, |positive|);
    SubsetSize(positive, remainders.Keys);
  }

  /** Buckets with a positive remainder come first, so a short enough lead has only those. */
  lemma LeadersPositive(remainders: map<Key, nat>, count: nat)
    requires count <= |Positive(remainders)|
    ensures Leaders(remainders, remainders.Keys, count) <= Positive(remainders)
  {
    var positive := Positive(remainders);
    forall k | k in Leaders(remainders, remainders.Keys, count) ensures k in positive {
      if k !in positive {
        assert positive <= Ahead(remainders, remainders.Keys, k);
        SubsetSize(positive, Ahead(remainders, remainders.Keys, k));
      }
    }
  }

  /**
   * The credits left over by rounding down are fewer than the buckets with a positive
   * remainder (or there are none), so one pass over the remainder order hands all of
   * them out, and only to buckets that still have room.
   */
  lemma OnePassSuffices(caps: Capacities, requested: nat)
    requires Sum(caps) > 0 && requested <= Sum(caps)
    ensures 0 <= Outstanding(caps, requested) == |Rounded(caps, requested)|
    ensures forall k :: k in Rounded(caps, requested) ==> k in caps && Remainders(caps, requested)[k] > 0
  {
    RemaindersBounded(caps, requested);
    RemaindersSum(caps, requested);
    assert Remainders(caps, requested).Keys == caps.Keys;
    LeadersExact(Remainders(caps, requested), Sum(caps), Outstanding(caps, requested));
  }

  lemma LeadersExact(remainders: map<Key, nat>, total: nat, leftover: int)
    requires total > 0
    requires forall k :: k in remainders ==> remainders[k] < total
    requires Sum(remainders) == total * leftover
    ensures 0 <= leftover
    ensures leftover == |Leaders(remainders, remainders.Keys, leftover)|
    ensures Leaders(remainders, remainders.Keys, leftover) <= Positive(remainders)
  {
    LeftoverFewer(remainders, total, leftover);
    LeadersCount(remainders, remainders.Keys, leftover);
    LeadersPositive(remainders, leftover);
  }

  lemma RemaindersBounded(caps: Capacities, requested: nat)
    requires Sum(caps) > 0 && requested <= Sum(caps)
    ensures forall k :: k in caps ==> Remainders(caps, requested)[k] < Sum(caps)
  {
    forall k | k in caps ensures Remainders(caps, requested)[k] < Sum(caps) {
      DivisionLaw(caps[k], requested, Sum(caps));
    }
  }

  lemma OutstandingBounds(total: nat, o: int, p: nat)
    requires total > 0
    requires 0 <= total * o <= (total - 1) * p
    ensures 0 <= o <= p
  {
    assert (total - 1) * p <= total * p;
  }

  /**
   * Every outstanding credit is handed out; each share is the exact proportion rounded
   * down or up, and rounded up only where the proportion is not whole; no bucket
   * receives more than its capacity.
   */
  lemma SharesExact(caps: Capacities, requested: nat)
    requires requested <= Sum(caps)
    ensures Sum(Shares(caps, requested)) == requested
    ensures forall k :: k in caps ==> 0 <= Shares(caps, requested)[k] <= caps[k]
    ensures forall k :: k in caps ==>
      var exact := caps[k] * requested;
      var share := Shares(caps, requested)[k] * Sum(caps);
      exact - Sum(caps) < share < exact + Sum(caps) || (Sum(caps) == 0 && share == exact)
  {
    var shares := Shares(caps, requested);
    CandidatesTotal(caps);
    var open := Candidates(caps);
    if requested == 0 {
      SumIndicator(shares, {});
      forall k | k in caps ensures Sum(caps) == 0 || -Sum(caps) < 0 {}
    } else {
      var total := Sum(open);
      OnePassSuffices(open, requested);
      var rounded := Rounded(open, requested);
      var floors := Floors(open, requested);
      var ones: map<Key, int> := map k | k in open :: if k in rounded then 1 else 0;
      var given: map<Key, int> := map k | k in open :: shares[k];
      SumIndicator(ones, rounded);
      SumAdd(floors, ones, given);
      SumExtend(given, shares);
      forall k | k in caps
        ensures 0 <= shares[k] <= caps[k]
        ensures caps[k] * requested - total < shares[k] * total < caps[k] * requested + total
      {
        DivisionLaw(caps[k], requested, total);
        ShareBounds(caps[k], requested, total, k in open, k in rounded, shares[k]);
      }
    }
  }

  lemma ShareBounds(capacity: nat, requested: nat, total: nat, open: bool, rounded: bool, share: nat)
    requires total > 0 && requested <= total
    requires open <==> capacity > 0
    requires rounded ==> Remainder(capacity, requested, total) > 0
    requires share == if !open then 0 else Quotient(capacity, requested, total) + (if rounded then 1 else 0)
    ensures share <= capacity
    ensures capacity * requested - total < share * total < capacity * requested + total
  {
    DivisionLaw(capacity, requested, total);
    var q, r := Quotient(capacity, requested, total), Remainder(capacity, requested, total);
    if !open {
      assert capacity * requested == 0;
    } else if rounded {
      assert share * total == total * q + total;
    } else {
      assert share * total == total * q;
    }
  }

  lemma CandidatesTotal(caps: Capacities)
    ensures Sum(Candidates(caps)) == Sum(caps)
  {
    SumExtend(Candidates(caps), caps);
  }

  // ---- Who is rounded up ------------------------------------------------------

  /** Whoever is ahead of one of the first is among the first too. */
  lemma LeadersClosed(remainders: map<Key, nat>, among: set<Key>, count: nat, j: Key, k: Key)
    requires among <= remainders.Keys && j in among && k in among && j != k
    requires k in Leaders(remainders, among, count) && j !in Leaders(remainders, among, count)
    ensures Before(remainders, k, j)
  {
    if Before(remainders, j, k) {
      assert Ahead(remainders, among, j) <= Ahead(remainders, among, k);
      SubsetSize(Ahead(remainders, among, j), Ahead(remainders, among, k));
    }
  }

  /**
   * Of two buckets with room of which one is rounded up and the other down, the one rounded up has
   * the larger remainder of capacity * requested by the total capacity, or the same remainder and
   * the earlier place.
   */
  lemma LargerRemainderWins(caps: Capacities, requested: nat, j: Key, k: Key)
    requires requested <= Sum(caps) && Sum(caps) > 0 && j in caps && k in caps && caps[j] > 0 && caps[k] > 0
    requires Shares(caps, requested)[k] == caps[k] * requested / Sum(caps) + 1
    requires Shares(caps, requested)[j] == caps[j] * requested / Sum(caps)
    ensures caps[k] * requested % Sum(caps) >= caps[j] * requested % Sum(caps)
    ensures caps[k] * requested % Sum(caps) == caps[j] * requested % Sum(caps) ==> KeyLess(k, j)
  {
    hide Ahead, Leaders;
    CandidatesTotal(caps);
    var open := Candidates(caps);
    if requested > 0 {
      var remainders := Remainders(open, requested);
      var o := Outstanding(open, requested);
      LeadersClosed(remainders, open.Keys, AtLeastZero(o), j, k);
    }
  }

  /** A share is the whole part of the proportion, or one more where that is not exact. */
  lemma ShareWhole(caps: Capacities, requested: nat, k: Key)
    requires 0 < requested <= Sum(caps) && k in caps
    ensures var exact, share := caps[k] * requested, Shares(caps, requested)[k];
      share == exact / Sum(caps) || (share == exact / Sum(caps) + 1 && exact % Sum(caps) > 0)
  {
    hide Leaders, Sum, Ahead;
    CandidatesTotal(caps);
    OnePassSuffices(Candidates(caps), requested);
    if caps[k] == 0 { NothingOf(requested, Sum(caps)); }
    assert k in Candidates(caps) <==> caps[k] > 0;
  }

  lemma NothingOf(requested: nat, total: nat)
    requires total > 0
    ensures 0 * requested / total == 0 && 0 * requested % total == 0
  {}
}
