/** The in-place allocation of additional credits, proved against the apportionment. */
module CreditAllocation {
  import opened Prelude
  import opened Buckets
  import opened Sums
  import opened Apportionment
  import Sorting

  datatype Bucket = Bucket(key: Key, rated: nat, previous: nat, target: nat)

  datatype Candidate = Candidate(index: nat, key: Key, capacity: nat, remainder: nat)

  function BillableCapacity(b: Bucket): nat
  {
    b.rated / MICRO_MINOR_PER_CREDIT
  }

  function RoomOf(b: Bucket): nat
  {
    if BillableCapacity(b) > b.target then BillableCapacity(b) - b.target else 0
  }

  ghost predicate DistinctKeys(s: seq<Bucket>)
  {
    forall i, j :: 0 <= i < j < |s| ==> s[i].key != s[j].key
  }

  ghost function Rooms(s: seq<Bucket>): Capacities
    requires DistinctKeys(s)
  {
    map i | 0 <= i < |s| :: s[i].key := RoomOf(s[i])
  }

  // ---- Sums over lists ----------------------------------------------------------

  ghost function SumOver<T>(s: seq<T>, f: T -> int): int
  {
    if s == [] then 0 else SumOver(s[..|s| - 1], f) + f(s[|s| - 1])
  }

  lemma SumOverStep<T>(s: seq<T>, f: T -> int, i: nat)
    requires i < |s|
    ensures SumOver(s[..i + 1], f) == SumOver(s[..i], f) + f(s[i])
  {
    assert s[..i + 1][..i] == s[..i];
  }

  /** A list with distinct keys adds up to the map it lists. */
  lemma {:induction false} SumOverIs<T, K(!new)>(s: seq<T>, key: T -> K, f: T -> int, m: map<K, int>)
    requires forall i, j :: 0 <= i < j < |s| ==> key(s[i]) != key(s[j])
    requires forall i :: 0 <= i < |s| ==> key(s[i]) in m && m[key(s[i])] == f(s[i])
    requires forall k :: k in m ==> exists i :: 0 <= i < |s| && key(s[i]) == k
    ensures SumOver(s, f) == Sum(m)
  {
    if s == [] {
      assert m == map[];
    } else {
      var init, last := s[..|s| - 1], s[|s| - 1];
      SumRemove(m, key(last));
      var rest := m - {key(last)};
      forall k | k in rest ensures exists i :: 0 <= i < |init| && key(init[i]) == k {
        var i :| 0 <= i < |s| && key(s[i]) == k;
        assert key(init[i]) == k;
      }
      SumOverIs(init, key, f, rest);
    }
  }

  // ---- The candidates -------------------------------------------------------------

  ghost predicate Sound(candidates: seq<Candidate>, s: seq<Bucket>, n: nat)
    requires n <= |s|
  {
    forall j :: 0 <= j < |candidates| ==>
      var c := candidates[j]; c.index < n && s[c.index].key == c.key && RoomOf(s[c.index]) == c.capacity > 0
  }

  ghost predicate Increasing(candidates: seq<Candidate>)
  {
    forall i, j :: 0 <= i < j < |candidates| ==> candidates[i].index < candidates[j].index
  }

  ghost predicate Listed(candidates: seq<Candidate>, i: nat)
  {
    exists j :: 0 <= j < |candidates| && candidates[j].index == i
  }

  /** The candidates found among the first n buckets, in bucket order. */
  ghost predicate Found(candidates: seq<Candidate>, s: seq<Bucket>, n: nat)
    requires n <= |s|
  {
    && Sound(candidates, s, n) && Increasing(candidates)
    && forall i :: 0 <= i < n && RoomOf(s[i]) > 0 ==> Listed(candidates, i)
  }

  function KeyOf(c: Candidate): Key { c.key }

  function CapacityOf(c: Candidate): int { c.capacity }

  method CollectCandidates(s: seq<Bucket>) returns (candidates: seq<Candidate>, total: int)
    requires DistinctKeys(s)
    ensures Found(candidates, s, |s|)
    ensures total == Sum(Candidates(Rooms(s)))
  {
    hide RoomOf, Found, Rooms, Candidates;
    candidates, total := [], 0;
    NoneFound(s);
    var i := 0;
    while i < |s|
      invariant 0 <= i <= |s|
      invariant Found(candidates, s, i)
      invariant total == SumOver(candidates, CapacityOf)
    {
      FoundStep(candidates, s, i);
      if RoomOf(s[i]) > 0 {
        var c := Candidate(i, s[i].key, RoomOf(s[i]), 0);
        assert (candidates + [c])[..|candidates|] == candidates;
        candidates, total := candidates + [c], total + c.capacity;
      }
      i := i + 1;
    }
    CandidatesListed(candidates, s);
    SumOverIs(candidates, KeyOf, CapacityOf, Candidates(Rooms(s)));
  }

  lemma NoneFound(s: seq<Bucket>)
    ensures Found([], s, 0)
  {}

  lemma FoundStep(candidates: seq<Candidate>, s: seq<Bucket>, i: nat)
    requires i < |s| && Found(candidates, s, i)
    ensures Found(
      if RoomOf(s[i]) > 0 then candidates + [Candidate(i, s[i].key, RoomOf(s[i]), 0)] else candidates, s, i + 1)
  {
    hide RoomOf, Listed, Sound, Increasing;
    SoundMore(candidates, s, i);
    if RoomOf(s[i]) > 0 {
      var c := Candidate(i, s[i].key, RoomOf(s[i]), 0);
      SoundAppend(candidates, c, s, i);
      forall x | 0 <= x <= i && RoomOf(s[x]) > 0 ensures Listed(candidates + [c], x) {
        ListedAppend(candidates, c, x);
      }
    }
  }

  lemma SoundMore(candidates: seq<Candidate>, s: seq<Bucket>, i: nat)
    requires i < |s| && Sound(candidates, s, i)
    ensures Sound(candidates, s, i + 1)
  {
    hide RoomOf;
  }

  lemma SoundAppend(candidates: seq<Candidate>, c: Candidate, s: seq<Bucket>, i: nat)
    requires i < |s| && Sound(candidates, s, i) && Increasing(candidates)
    requires c.index == i && c.key == s[i].key && c.capacity == RoomOf(s[i]) > 0
    ensures Sound(candidates + [c], s, i + 1) && Increasing(candidates + [c])
  {
    hide RoomOf;
  }

  lemma ListedAppend(candidates: seq<Candidate>, c: Candidate, x: nat)
    ensures Listed(candidates, x) || c.index == x ==> Listed(candidates + [c], x)
  {
    var after := candidates + [c];
    if Listed(candidates, x) {
      var j :| 0 <= j < |candidates| && candidates[j].index == x;
      assert after[j].index == x;
    } else {
      assert after[|candidates|] == c;
    }
  }

  lemma CandidatesListed(candidates: seq<Candidate>, s: seq<Bucket>)
    requires DistinctKeys(s) && Found(candidates, s, |s|)
    ensures forall i, j :: 0 <= i < j < |candidates| ==> candidates[i].key != candidates[j].key
    ensures forall j :: 0 <= j < |candidates| ==>
      candidates[j].key in Candidates(Rooms(s)) && Candidates(Rooms(s))[candidates[j].key] == candidates[j].capacity
    ensures forall k :: k in Candidates(Rooms(s)) ==> exists j :: 0 <= j < |candidates| && candidates[j].key == k
  {
    forall k | k in Candidates(Rooms(s)) ensures exists j :: 0 <= j < |candidates| && candidates[j].key == k {
      var i :| 0 <= i < |s| && s[i].key == k;
      var j :| 0 <= j < |candidates| && candidates[j].index == i;
      assert candidates[j].key == k;
    }
  }

  // ---- Whole parts ------------------------------------------------------------------

  function Raised(b: Bucket, credits: nat): Bucket
  {
    b.(target := b.target + credits)
  }

  /** A bucket once it has received the whole part of its proportion. */
  function Floored(b: Bucket, requested: nat, total: nat): Bucket
    requires total > 0
  {
    Raised(b, Quotient(RoomOf(b), requested, total))
  }

  lemma NoRoomNoFloor(b: Bucket, requested: nat, total: nat)
    requires total > 0 && RoomOf(b) == 0
    ensures Floored(b, requested, total) == b
  {}

  /** Between one candidate and the next no bucket has room. */
  lemma GapIsEmpty(candidates: seq<Candidate>, s: seq<Bucket>, j: nat, i: nat)
    requires Found(candidates, s, |s|) && j <= |candidates| && i < |s|
    requires j > 0 ==> candidates[j - 1].index < i
    requires j < |candidates| ==> i < candidates[j].index
    ensures RoomOf(s[i]) == 0
  {
    forall x | 0 <= x < |candidates| ensures candidates[x].index != i {
      assert x < j ==> candidates[x].index <= candidates[j - 1].index;
    }
  }

  /** How far the buckets have been dealt with once j candidates are. */
  function Bound(candidates: seq<Candidate>, j: nat): nat
    requires j <= |candidates|
  {
    if j == 0 then 0 else candidates[j - 1].index + 1
  }

  ghost function FloorState(s: seq<Bucket>, bound: nat, requested: nat, total: nat): seq<Bucket>
    requires total > 0
  {
    seq(|s|, i requires 0 <= i < |s| => if i < bound then Floored(s[i], requested, total) else s[i])
  }

  lemma FloorStep(candidates: seq<Candidate>, s: seq<Bucket>, j: nat, requested: nat, total: nat)
    requires total > 0 && Found(candidates, s, |s|) && j < |candidates|
    ensures var c := candidates[j];
      var before := FloorState(s, Bound(candidates, j), requested, total);
      c.index < |s| && before[c.index] == s[c.index]
      && before[c.index := Raised(s[c.index], Quotient(c.capacity, requested, total))]
         == FloorState(s, Bound(candidates, j + 1), requested, total)
  {
    hide RoomOf, Quotient;
    var c := candidates[j];
    var before := FloorState(s, Bound(candidates, j), requested, total);
    var after := FloorState(s, Bound(candidates, j + 1), requested, total);
    forall i | 0 <= i < |s| && i != c.index ensures before[i] == after[i] {
      if Bound(candidates, j) <= i < c.index {
        GapIsEmpty(candidates, s, j, i);
        NoRoomNoFloor(s[i], requested, total);
      }
    }
  }

  lemma NoFloors(candidates: seq<Candidate>, s: seq<Bucket>, requested: nat, total: nat)
    requires total > 0
    ensures FloorState(s, Bound(candidates, 0), requested, total) == s
  {}

  lemma FloorsDone(candidates: seq<Candidate>, s: seq<Bucket>, requested: nat, total: nat)
    requires total > 0 && Found(candidates, s, |s|)
    ensures FloorState(s, Bound(candidates, |candidates|), requested, total) == FloorState(s, |s|, requested, total)
  {
    hide RoomOf, Quotient;
    var last := Bound(candidates, |candidates|);
    forall i | last <= i < |s| ensures Floored(s[i], requested, total) == s[i] {
      GapIsEmpty(candidates, s, |candidates|, i);
      NoRoomNoFloor(s[i], requested, total);
    }
  }

  function Weighed(c: Candidate, requested: nat, total: nat): Candidate
    requires total > 0
  {
    c.(remainder := Remainder(c.capacity, requested, total))
  }

  method GiveFloors(buckets: array<Bucket>, candidates: seq<Candidate>, requested: nat, total: nat)
    returns (remainders: array<Candidate>, given: int)
    requires total > 0 && Found(candidates, buckets[..], buckets.Length)
    modifies buckets
    ensures fresh(remainders)
    ensures buckets[..] == FloorState(old(buckets[..]), buckets.Length, requested, total)
    ensures remainders[..] == seq(|candidates|, j requires 0 <= j < |candidates| => Weighed(candidates[j], requested, total))
    ensures given == SumOver(candidates, (c: Candidate) => Quotient(c.capacity, requested, total))
  {
    hide RoomOf, Quotient, Remainder, Found, FloorState, Bound;
    ghost var s := buckets[..];
    ghost var share := (c: Candidate) => Quotient(c.capacity, requested, total);
    given := 0;
    remainders := new Candidate[|candidates|](j requires 0 <= j < |candidates| => candidates[j]);
    var j := 0;
    NoFloors(candidates, s, requested, total);
    while j < |candidates|
      invariant 0 <= j <= |candidates|
      invariant buckets[..] == FloorState(s, Bound(candidates, j), requested, total)
      invariant forall x :: 0 <= x < |candidates| ==>
        remainders[x] == if x < j then Weighed(candidates[x], requested, total) else candidates[x]
      invariant given == SumOver(candidates[..j], share)
    {
      FloorStep(candidates, s, j, requested, total);
      SumOverStep(candidates, share, j);
      var c := candidates[j];
      var credits := Quotient(c.capacity, requested, total);
      ghost var before := buckets[..];
      assert before[c.index] == s[c.index];
      buckets[c.index] := Raised(buckets[c.index], credits);
      assert buckets[..] == before[c.index := Raised(s[c.index], credits)];
      given := given + credits;
      remainders[j] := Weighed(c, requested, total);
      j := j + 1;
    }
    assert candidates[..j] == candidates;
    FloorsDone(candidates, s, requested, total);
  }

  // ---- The pass over the remainders ------------------------------------------------

  predicate CandidateBefore(left: Candidate, right: Candidate)
  {
    if left.remainder != right.remainder then left.remainder > right.remainder
    else KeyLess(left.key, right.key)
  }

  lemma CandidateOrder()
    ensures Sorting.IsOrder(CandidateBefore)
  {}

  ghost function Handed(order: seq<Candidate>, j: nat): set<Key>
    requires j <= |order|
  {
    set x | 0 <= x < j :: order[x].key
  }

  /** The list names every bucket of the map once, with its remainder, in remainder order. */
  ghost predicate Ranks(order: seq<Candidate>, remainders: map<Key, nat>)
  {
    && Sorting.Ascending(order, CandidateBefore)
    && (forall i, j :: 0 <= i < j < |order| ==> order[i].key != order[j].key)
    && (forall j :: 0 <= j < |order| ==>
          order[j].key in remainders && remainders[order[j].key] == order[j].remainder)
    && Handed(order, |order|) == remainders.Keys
  }

  lemma {:induction false} HandedSize(order: seq<Candidate>, j: nat)
    requires j <= |order|
    requires forall i, j :: 0 <= i < j < |order| ==> order[i].key != order[j].key
    ensures |Handed(order, j)| == j
    ensures j > 0 ==> Handed(order, j) == Handed(order, j - 1) + {order[j - 1].key}
  {
    if j > 0 {
      HandedSize(order, j - 1);
      assert Handed(order, j) == Handed(order, j - 1) + {order[j - 1].key};
      assert order[j - 1].key !in Handed(order, j - 1);
    } else {
      assert Handed(order, 0) == {};
    }
  }

  /** Walking a ranking from the front meets exactly the leaders. */
  lemma RankIsPosition(order: seq<Candidate>, remainders: map<Key, nat>, j: nat)
    requires Ranks(order, remainders) && j < |order|
    ensures |Ahead(remainders, remainders.Keys, order[j].key)| == j
  {
    var ahead := Ahead(remainders, remainders.Keys, order[j].key);
    forall k | k in ahead ensures k in Handed(order, j) {
      var x :| 0 <= x < |order| && order[x].key == k;
      assert CandidateBefore(order[x], order[j]);
    }
    forall x | 0 <= x < j ensures order[x].key in ahead {
      assert CandidateBefore(order[x], order[j]);
      assert order[x].key in Handed(order, |order|);
    }
    assert ahead == Handed(order, j);
    HandedSize(order, j);
  }

  lemma HandedAreLeaders(order: seq<Candidate>, remainders: map<Key, nat>, count: nat)
    requires Ranks(order, remainders) && count <= |order|
    ensures Handed(order, count) == Leaders(remainders, remainders.Keys, count)
  {
    hide Ahead;
    forall k | k in remainders
      ensures k in Handed(order, count) <==> k in Leaders(remainders, remainders.Keys, count)
    {
      assert k in Handed(order, |order|);
      var x :| 0 <= x < |order| && order[x].key == k;
      RankIsPosition(order, remainders, x);
    }
    forall k | k in Handed(order, count) ensures k in remainders {
      assert k in Handed(order, |order|);
    }
  }

  function Topped(b: Bucket, chosen: set<Key>): Bucket
  {
    Raised(b, if b.key in chosen then 1 else 0)
  }

  ghost function ToppedState(s: seq<Bucket>, chosen: set<Key>): seq<Bucket>
  {
    seq(|s|, i requires 0 <= i < |s| => Topped(s[i], chosen))
  }

  lemma ToppedStep(s: seq<Bucket>, order: seq<Candidate>, j: nat)
    requires DistinctKeys(s) && j < |order|
    requires forall i, j :: 0 <= i < j < |order| ==> order[i].key != order[j].key
    requires order[j].index < |s| && s[order[j].index].key == order[j].key
    ensures var i := order[j].index;
      var before := ToppedState(s, Handed(order, j));
      before[i] == s[i] && before[i := Raised(s[i], 1)] == ToppedState(s, Handed(order, j + 1))
  {
    hide Handed;
    HandedSize(order, j + 1);
    HandedFresh(order, j);
    ToppedOne(s, order[j].index, Handed(order, j));
  }

  lemma HandedFresh(order: seq<Candidate>, j: nat)
    requires j < |order|
    requires forall i, j :: 0 <= i < j < |order| ==> order[i].key != order[j].key
    ensures order[j].key !in Handed(order, j)
  {}

  lemma ToppedOne(s: seq<Bucket>, i: nat, chosen: set<Key>)
    requires DistinctKeys(s) && i < |s| && s[i].key !in chosen
    ensures ToppedState(s, chosen)[i] == s[i]
    ensures ToppedState(s, chosen)[i := Raised(s[i], 1)] == ToppedState(s, chosen + {s[i].key})
  {}

  /**
   * One pass in remainder order. Every bucket it meets still has room, so the credits left
   * over by rounding down run out before the candidates do.
   */
  method HandOut(buckets: array<Bucket>, order: array<Candidate>, leftover: int)
    requires buckets != order as object
    requires DistinctKeys(buckets[..]) && 0 <= leftover <= order.Length
    requires forall i, j :: 0 <= i < j < order.Length ==> order[i].key != order[j].key
    requires forall j :: 0 <= j < order.Length ==>
      order[j].index < buckets.Length && buckets[order[j].index].key == order[j].key
    requires forall j :: 0 <= j < leftover ==> RoomOf(buckets[order[j].index]) > 0
    modifies buckets
    ensures buckets[..] == ToppedState(old(buckets[..]), Handed(order[..], leftover))
  {
    hide Handed;
    ghost var s := buckets[..];
    ghost var ranked := order[..];
    var outstanding := leftover;
    var j := 0;
    NothingHanded(s, ranked);
    while j < order.Length && outstanding != 0
      invariant 0 <= j <= order.Length
      invariant 0 <= outstanding == leftover - j
      invariant buckets[..] == ToppedState(s, Handed(ranked, j))
    {
      ToppedStep(s, ranked, j);
      var i := order[j].index;
      ghost var before := buckets[..];
      assert before[i] == s[i];
      if buckets[i].target < BillableCapacity(buckets[i]) {
        buckets[i] := Raised(buckets[i], 1);
        outstanding := outstanding - 1;
        assert buckets[..] == before[i := Raised(s[i], 1)];
      }
      j := j + 1;
    }
    assert outstanding == 0;
  }

  lemma NothingHanded(s: seq<Bucket>, order: seq<Candidate>)
    ensures ToppedState(s, Handed(order, 0)) == s
  {}

  // ---- The whole allocation -----------------------------------------------------------

  /** Every bucket raised by its apportioned share of the request. */
  ghost function Apportioned(s: seq<Bucket>, requested: int): seq<Bucket>
    requires DistinctKeys(s) && requested <= Sum(Rooms(s))
  {
    SumNonNegative(Rooms(s));
    var shares := Shares(Rooms(s), AtLeastZero(requested));
    seq(|s|, i requires 0 <= i < |s| => Raised(s[i], shares[s[i].key]))
  }

  lemma NothingRequested(s: seq<Bucket>, requested: int)
    requires DistinctKeys(s) && requested <= 0
    ensures 0 <= Sum(Rooms(s)) && Apportioned(s, requested) == s
  {
    SumNonNegative(Rooms(s));
  }

  /** The whole credits a bucket can still take: a credit covers 100000 millionths of a minor unit. */
  function Free(b: Bucket): nat
  {
    if b.rated / 100_000 > b.target then b.rated / 100_000 - b.target else 0
  }

  function FreeIn(b: Bucket): int { Free(b) }

  function TargetIn(b: Bucket): int { b.target }

  function NameOf(b: Bucket): Key { b.key }

  ghost function FreeTotal(s: seq<Bucket>): int
  {
    SumOver(s, FreeIn)
  }

  /** A bucket is given the whole part of its proportion of the request, or one more if that is not exact. */
  predicate GivenFairly(before: Bucket, after: Bucket, requested: nat, total: nat)
    requires total > 0
  {
    var exact, given := Free(before) * requested, after.target - before.target;
    && after == before.(target := after.target) && 0 <= given <= Free(before)
    && (given == exact / total || (given == exact / total + 1 && exact % total > 0))
  }

  predicate RoundedUp(before: Bucket, after: Bucket, requested: nat, total: nat)
    requires total > 0
  {
    after.target - before.target == Free(before) * requested / total + 1
  }

  /** Larger remainders are rounded up first, and equal ones by name. */
  predicate ComesFirst(left: Bucket, right: Bucket, requested: nat, total: nat)
    requires total > 0
  {
    var mine, other := Free(left) * requested % total, Free(right) * requested % total;
    mine > other || (mine == other && KeyLess(left.key, right.key))
  }

  /** The request has been handed out in full and by largest remainder, never beyond what there is room for. */
  ghost predicate LargestRemainders(before: seq<Bucket>, after: seq<Bucket>, requested: nat)
  {
    var total := FreeTotal(before);
    && total > 0 && |after| == |before|
    && SumOver(after, TargetIn) == SumOver(before, TargetIn) + requested
    && (forall i :: 0 <= i < |before| ==> GivenFairly(before[i], after[i], requested, total))
    && forall i, j :: 0 <= i < |before| && 0 <= j < |before| ==>
         RoundedUp(before[i], after[i], requested, total) && Free(before[j]) > 0 ==>
           RoundedUp(before[j], after[j], requested, total) || ComesFirst(before[i], before[j], requested, total)
  }

  lemma RoomsAreFree(s: seq<Bucket>)
    requires DistinctKeys(s)
    ensures Sum(Rooms(s)) == FreeTotal(s) >= 0
    ensures forall i :: 0 <= i < |s| ==> s[i].key in Rooms(s) && Rooms(s)[s[i].key] == Free(s[i])
  {
    hide SumOver;
    SumOverIs(s, NameOf, FreeIn, Rooms(s));
    SumNonNegative(Rooms(s));
  }

  lemma AllocationMeans(s: seq<Bucket>, requested: nat)
    requires DistinctKeys(s) && 0 < requested <= Sum(Rooms(s))
    ensures LargestRemainders(s, Apportioned(s, requested), requested)
  {
    hide Shares, Rooms, Free, FreeTotal, SumOver, GivenFairly, RoundedUp, ComesFirst;
    RoomsAreFree(s);
    var caps, after := Rooms(s), Apportioned(s, requested);
    var shares := Shares(caps, requested);
    RoomKeys(s);
    SharesExact(caps, requested);
    GivenSum(s, after, shares);
    forall i | 0 <= i < |s| ensures GivenFairly(s[i], after[i], requested, Sum(caps)) {
      ShareFair(caps, requested, s[i]);
    }
    forall i, j | 0 <= i < |s| && 0 <= j < |s| && RoundedUp(s[i], after[i], requested, Sum(caps)) && Free(s[j]) > 0
      ensures RoundedUp(s[j], after[j], requested, Sum(caps)) || ComesFirst(s[i], s[j], requested, Sum(caps))
    {
      ShareFirst(caps, requested, s[i], s[j]);
    }
  }

  lemma ShareFair(caps: Capacities, requested: nat, b: Bucket)
    requires 0 < requested <= Sum(caps) && b.key in caps && caps[b.key] == Free(b)
    ensures GivenFairly(b, Raised(b, Shares(caps, requested)[b.key]), requested, Sum(caps))
  {
    hide Shares, Free;
    SharesExact(caps, requested);
    ShareWhole(caps, requested, b.key);
  }

  lemma ShareFirst(caps: Capacities, requested: nat, b: Bucket, other: Bucket)
    requires 0 < requested <= Sum(caps) && b.key in caps && caps[b.key] == Free(b)
    requires other.key in caps && caps[other.key] == Free(other) > 0
    requires RoundedUp(b, Raised(b, Shares(caps, requested)[b.key]), requested, Sum(caps))
    ensures RoundedUp(other, Raised(other, Shares(caps, requested)[other.key]), requested, Sum(caps))
         || ComesFirst(b, other, requested, Sum(caps))
  {
    hide Shares, Free;
    ShareWhole(caps, requested, b.key);
    ShareWhole(caps, requested, other.key);
    if Free(b) == 0 {
      NothingOf(requested, Sum(caps));
    } else if Shares(caps, requested)[other.key] == caps[other.key] * requested / Sum(caps) {
      LargerRemainderWins(caps, requested, other.key, b.key);
    }
  }

  lemma RoomKeys(s: seq<Bucket>)
    requires DistinctKeys(s)
    ensures forall k :: k in Rooms(s) ==> exists i :: 0 <= i < |s| && NameOf(s[i]) == k
  {}

  lemma GivenSum(s: seq<Bucket>, after: seq<Bucket>, shares: map<Key, nat>)
    requires DistinctKeys(s) && |after| == |s|
    requires forall i :: 0 <= i < |s| ==> s[i].key in shares && after[i] == Raised(s[i], shares[s[i].key])
    requires forall k :: k in shares ==> exists i :: 0 <= i < |s| && NameOf(s[i]) == k
    ensures SumOver(after, TargetIn) == SumOver(s, TargetIn) + Sum(shares)
  {
    hide SumOver;
    var share := (b: Bucket) => if b.key in shares then shares[b.key] as int else 0;
    SumOverIs(s, NameOf, share, shares);
    TargetsRise(s, after, share);
  }

  lemma {:induction false} TargetsRise(s: seq<Bucket>, after: seq<Bucket>, share: Bucket -> int)
    requires |after| == |s| && forall i :: 0 <= i < |s| ==> after[i].target == s[i].target + share(s[i])
    ensures SumOver(after, TargetIn) == SumOver(s, TargetIn) + SumOver(s, share)
  {
    if s != [] {
      TargetsRise(s[..|s| - 1], after[..|s| - 1], share);
    }
  }

  method AllocateAdditionalCredits(buckets: array<Bucket>, requested: int) returns (r: Result<()>)
    requires DistinctKeys(buckets[..])
    modifies buckets
    ensures r.Ok? <==> requested <= Sum(Rooms(old(buckets[..])))
    ensures r.Ok? ==> buckets[..] == Apportioned(old(buckets[..]), requested)
    ensures r.Err? ==> r == Err(AllocationInvalid) && buckets[..] == old(buckets[..])
    ensures r.Ok? <==> requested <= 0 || requested <= FreeTotal(old(buckets[..]))
    ensures r.Ok? && requested > 0 ==> LargestRemainders(old(buckets[..]), buckets[..], requested)
    ensures r.Ok? && requested <= 0 ==> buckets[..] == old(buckets[..])
  {
    hide Found, RoomOf, Candidates, Shares, Rooms, Ranks, Rounded, Quotient, Remainder, FreeTotal, LargestRemainders;
    ghost var s := buckets[..];
    RoomsAreFree(s);
    if requested <= 0 {
      NothingRequested(s, requested);
      return Ok(());
    }
    if requested <= Sum(Rooms(s)) { AllocationMeans(s, requested); }
    var candidates, total := CollectCandidates(buckets[..]);
    CandidatesTotal(Rooms(s));
    if requested > total || total == 0 {
      return Err(AllocationInvalid);
    }
    var remainders, given := GiveFloors(buckets, candidates, requested, total);
    FloorsAddUp(candidates, s, requested);
    CandidateOrder();
    ghost var weighed := remainders[..];
    Sorting.Sort(remainders, CandidateBefore);
    SortedRanks(candidates, s, requested, weighed, remainders[..]);
    RankSize(remainders[..], Remainders(Candidates(Rooms(s)), requested));
    LeadersFirst(remainders[..], Candidates(Rooms(s)), requested);
    LeadersHaveRoom(s, requested, remainders[..]);
    BothRoundsApportion(s, requested);
    HandOut(buckets, remainders, requested - given);
    r := Ok(());
  }

  lemma FloorsAddUp(candidates: seq<Candidate>, s: seq<Bucket>, requested: nat)
    requires DistinctKeys(s) && Found(candidates, s, |s|)
    requires Sum(Candidates(Rooms(s))) > 0
    ensures var total: nat := Sum(Candidates(Rooms(s)));
      SumOver(candidates, (c: Candidate) => Quotient(c.capacity, requested, total))
      == Sum(Floors(Candidates(Rooms(s)), requested))
  {
    hide Found, RoomOf, Candidates, Rooms, Quotient;
    CandidatesListed(candidates, s);
    var total: nat := Sum(Candidates(Rooms(s)));
    SumOverIs(candidates, KeyOf, (c: Candidate) => Quotient(c.capacity, requested, total),
      Floors(Candidates(Rooms(s)), requested));
  }

  /** The list names every bucket of the map once, with its remainder, in any order. */
  ghost predicate Lists(list: seq<Candidate>, remainders: map<Key, nat>)
  {
    && (forall i, j :: 0 <= i < j < |list| ==> list[i].key != list[j].key)
    && (forall c :: c in list ==> c.key in remainders && remainders[c.key] == c.remainder)
    && (forall k :: k in remainders ==> exists c :: c in list && c.key == k)
  }

  lemma ListSorted(list: seq<Candidate>, order: seq<Candidate>, remainders: map<Key, nat>)
    requires Lists(list, remainders)
    requires Sorting.Sorted(order, CandidateBefore) && multiset(list) == multiset(order)
    ensures Ranks(order, remainders) && |order| == |list|
    ensures forall c :: c in order <==> c in list
  {
    CandidateOrder();
    Sorting.SameMembers(list, order);
    SameKey(list);
    forall x, y | x in list && y in list && x != y ensures CandidateBefore(x, y) || CandidateBefore(y, x) {
      assert x.key != y.key;
    }
    Sorting.SortedAscending(list, order, CandidateBefore);
    forall i, j | 0 <= i < j < |order| ensures order[i].key != order[j].key {
      assert order[i] in list && order[j] in list && order[i] != order[j];
    }
    forall k | k in remainders ensures k in Handed(order, |order|) {
      var c :| c in list && c.key == k;
      var x :| 0 <= x < |order| && order[x] == c;
      assert order[x].key == k;
    }
  }

  lemma SameKey(list: seq<Candidate>)
    requires forall i, j :: 0 <= i < j < |list| ==> list[i].key != list[j].key
    ensures forall x, y :: x in list && y in list && x.key == y.key ==> x == y
    ensures Sorting.Distinct(list)
  {}

  lemma WeighedLists(candidates: seq<Candidate>, open: Capacities, requested: nat)
    requires Sum(open) > 0
    requires forall i, j :: 0 <= i < j < |candidates| ==> candidates[i].key != candidates[j].key
    requires forall j :: 0 <= j < |candidates| ==>
      candidates[j].key in open && open[candidates[j].key] == candidates[j].capacity
    requires forall k :: k in open ==> exists j :: 0 <= j < |candidates| && candidates[j].key == k
    ensures Lists(
      seq(|candidates|, j requires 0 <= j < |candidates| => Weighed(candidates[j], requested, Sum(open))),
      Remainders(open, requested))
  {
    hide Remainder, Weighed, Sum, Remainders;
    var weighed := seq(|candidates|, j requires 0 <= j < |candidates| => Weighed(candidates[j], requested, Sum(open)));
    forall j | 0 <= j < |weighed|
      ensures weighed[j].key == candidates[j].key && weighed[j].key in Remainders(open, requested)
      ensures Remainders(open, requested)[weighed[j].key] == weighed[j].remainder
    {
      WeighedIs(candidates[j], open, requested);
    }
    assert forall c :: c in weighed ==> exists j :: 0 <= j < |weighed| && weighed[j] == c;
    forall k | k in Remainders(open, requested) ensures exists c :: c in weighed && c.key == k {
      RemaindersOf(open, requested);
      var j :| 0 <= j < |candidates| && candidates[j].key == k;
      assert weighed[j] in weighed;
    }
  }

  lemma RemaindersOf(open: Capacities, requested: nat)
    requires Sum(open) > 0
    ensures Remainders(open, requested).Keys == open.Keys
  {}

  lemma WeighedIs(c: Candidate, open: Capacities, requested: nat)
    requires Sum(open) > 0 && c.key in open && open[c.key] == c.capacity
    ensures var weighed := Weighed(c, requested, Sum(open));
      && weighed.key == c.key && c.key in Remainders(open, requested)
      && Remainders(open, requested)[c.key] == weighed.remainder
  {
    hide Remainder, Sum;
  }

  /** Every listed candidate stands for the bucket it points at. */
  ghost predicate PointsInto(list: seq<Candidate>, s: seq<Bucket>)
  {
    forall c :: c in list ==> c.index < |s| && s[c.index].key == c.key && RoomOf(s[c.index]) == c.capacity
  }

  /** What the sorted list of weighed candidates is. */
  lemma SortedRanks(candidates: seq<Candidate>, s: seq<Bucket>, requested: nat, weighed: seq<Candidate>,
                    order: seq<Candidate>)
    requires DistinctKeys(s) && Found(candidates, s, |s|)
    requires Sum(Candidates(Rooms(s))) > 0
    requires weighed == seq(|candidates|, j requires 0 <= j < |candidates| =>
      Weighed(candidates[j], requested, Sum(Candidates(Rooms(s)))))
    requires Sorting.Sorted(order, CandidateBefore) && multiset(weighed) == multiset(order)
    ensures Ranks(order, Remainders(Candidates(Rooms(s)), requested)) && PointsInto(order, s)
  {
    hide Rooms, Candidates, Found, RoomOf, Weighed, Ranks, Lists, Remainders, PointsInto, Sorting.Sorted;
    CandidatesListed(candidates, s);
    WeighedLists(candidates, Candidates(Rooms(s)), requested);
    ListSorted(weighed, order, Remainders(Candidates(Rooms(s)), requested));
    WeighedPoint(candidates, s, requested, Sum(Candidates(Rooms(s))), weighed, order);
  }

  lemma WeighedPoint(candidates: seq<Candidate>, s: seq<Bucket>, requested: nat, total: nat, weighed: seq<Candidate>,
                     order: seq<Candidate>)
    requires Found(candidates, s, |s|) && total > 0
    requires weighed == seq(|candidates|, j requires 0 <= j < |candidates| => Weighed(candidates[j], requested, total))
    requires forall c :: c in order <==> c in weighed
    ensures PointsInto(order, s)
  {
    hide Remainder, RoomOf;
  }

  lemma RankSize(order: seq<Candidate>, remainders: map<Key, nat>)
    requires Ranks(order, remainders)
    ensures |order| == |remainders.Keys|
    ensures forall i, j :: 0 <= i < j < |order| ==> order[i].key != order[j].key
  {
    HandedSize(order, |order|);
  }

  /** The credits left over by rounding down go to the leaders of the ranking. */
  lemma LeadersFirst(order: seq<Candidate>, open: Capacities, requested: nat)
    requires 0 < Sum(open) && requested <= Sum(open) && Ranks(order, Remainders(open, requested))
    ensures 0 <= Outstanding(open, requested) <= |order|
    ensures Handed(order, Outstanding(open, requested)) == Rounded(open, requested)
    ensures forall j :: 0 <= j < Outstanding(open, requested) ==>
      order[j].key in open && Quotient(open[order[j].key], requested, Sum(open)) < open[order[j].key]
  {
    hide Ranks, Leaders, Quotient, Remainder, Ahead;
    var remainders := Remainders(open, requested);
    OnePassSuffices(open, requested);
    RankSize(order, remainders);
    SubsetSize(Rounded(open, requested), open.Keys);
    assert remainders.Keys == open.Keys;
    HandedAreLeaders(order, remainders, Outstanding(open, requested));
    forall j | 0 <= j < Outstanding(open, requested)
      ensures order[j].key in open && Quotient(open[order[j].key], requested, Sum(open)) < open[order[j].key]
    {
      assert order[j].key in Handed(order, Outstanding(open, requested));
      DivisionLaw(open[order[j].key], requested, Sum(open));
    }
  }

  /** Whoever is due a credit beyond the whole part has room for it. */
  lemma LeadersHaveRoom(s: seq<Bucket>, requested: nat, order: seq<Candidate>)
    requires DistinctKeys(s) && PointsInto(order, s)
    requires var open := Candidates(Rooms(s));
      0 < Sum(open) && requested <= Sum(open) && Ranks(order, Remainders(open, requested))
    ensures var open := Candidates(Rooms(s));
      forall j :: 0 <= j < Outstanding(open, requested) && j < |order| ==>
        PointsInto(order, s) && RoomOf(Floored(s[order[j].index], requested, Sum(open))) > 0
  {
    hide Ranks, Remainders, Outstanding, Rounded, RoomOf, Quotient, Floored, Handed;
    var open := Candidates(Rooms(s));
    LeadersFirst(order, open, requested);
    forall j | 0 <= j < Outstanding(open, requested)
      ensures RoomOf(Floored(s[order[j].index], requested, Sum(open))) > 0
    {
      assert order[j] in order;
      RoomLeft(s[order[j].index], requested, Sum(open));
    }
  }

  lemma RoomLeft(b: Bucket, requested: nat, total: nat)
    requires total > 0 && Quotient(RoomOf(b), requested, total) < RoomOf(b)
    ensures RoomOf(Floored(b, requested, total)) > 0
  {}

  /** The whole parts and the pass over the remainders together are the apportionment. */
  lemma BothRoundsApportion(s: seq<Bucket>, requested: nat)
    requires DistinctKeys(s) && 0 < requested <= Sum(Rooms(s))
    ensures var open := Candidates(Rooms(s));
      && Sum(open) == Sum(Rooms(s))
      && DistinctKeys(FloorState(s, |s|, requested, Sum(open)))
      && ToppedState(FloorState(s, |s|, requested, Sum(open)), Rounded(open, requested)) == Apportioned(s, requested)
  {
    hide RoomOf, Quotient, Shares, Rounded, Floored, Topped, Rooms, Candidates;
    CandidatesTotal(Rooms(s));
    RoomsAreFree(s);
    var open := Candidates(Rooms(s));
    var shares := Shares(Rooms(s), requested);
    forall i | 0 <= i < |s|
      ensures Floored(s[i], requested, Sum(open)).key == s[i].key
      ensures Topped(Floored(s[i], requested, Sum(open)), Rounded(open, requested)) == Raised(s[i], shares[s[i].key])
    {
      BucketApportioned(s, requested, i);
    }
  }

  lemma BucketApportioned(s: seq<Bucket>, requested: nat, i: nat)
    requires DistinctKeys(s) && 0 < requested <= Sum(Rooms(s)) == Sum(Candidates(Rooms(s))) && i < |s|
    ensures s[i].key in Rooms(s)
    ensures var open := Candidates(Rooms(s));
      && Floored(s[i], requested, Sum(open)).key == s[i].key
      && Topped(Floored(s[i], requested, Sum(open)), Rounded(open, requested))
         == Raised(s[i], Shares(Rooms(s), requested)[s[i].key])
  {
    hide RoomOf, Quotient, Shares, Rounded, Floored, Topped;
    var open := Candidates(Rooms(s));
    var share := Shares(Rooms(s), requested)[s[i].key];
    ShareIs(Rooms(s), requested, s[i].key);
    TwoRaises(s[i], requested, Sum(open), Rounded(open, requested), share, s[i].key in open);
  }

  lemma ShareIs(caps: Capacities, requested: nat, k: Key)
    requires 0 < requested <= Sum(caps) == Sum(Candidates(caps)) && k in caps
    ensures k !in Candidates(caps) <==> caps[k] == 0
    ensures k !in Candidates(caps) ==> k !in Rounded(Candidates(caps), requested)
    ensures Shares(caps, requested)[k]
         == if k !in Candidates(caps) then 0
            else Quotient(caps[k], requested, Sum(caps)) + (if k in Rounded(Candidates(caps), requested) then 1 else 0)
  {
    hide Quotient, Remainder, Ahead;
  }

  lemma TwoRaises(b: Bucket, requested: nat, total: nat, rounded: set<Key>, share: nat, open: bool)
    requires total > 0
    requires open <==> RoomOf(b) > 0
    requires !open ==> b.key !in rounded
    requires share == if !open then 0 else Quotient(RoomOf(b), requested, total) + (if b.key in rounded then 1 else 0)
    ensures Floored(b, requested, total).key == b.key
    ensures Topped(Floored(b, requested, total), rounded) == Raised(b, share)
  {
    if !open { NoRoomNoFloor(b, requested, total); }
  }
}
