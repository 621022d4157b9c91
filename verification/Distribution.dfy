/**
 Distributing a load test: choosing the spokes, numbering the shards, splitting the rate, and the
 abort test.
 */
module Distribution {
  import opened Text
  import opened Collections
  import opened Sharding

  /** A spoke counts as connected for this long after its last heartbeat. */
  const SPOKE_TIMEOUT: int := 90_000_000_000

  /** A registered spoke, as far as planning looks at it. */
  datatype Candidate = Candidate(cell: string, lastHeartbeat: int)

  datatype Selection = Selection(spoke: string, cell: string)

  datatype Assignment = Assignment(spoke: string, cell: string, indexes: seq<nat>)

  // ---------------------------------------------------------------------
  // Choosing the spokes
  // ---------------------------------------------------------------------

  predicate Eligible(c: Candidate, cells: seq<string>, now: int) {
    now - c.lastHeartbeat <= SPOKE_TIMEOUT && (cells == [] || c.cell in cells)
  }

  ghost function EligibleIDs(spokes: map<string, Candidate>, cells: seq<string>, now: int): set<string> {
    set id |
      && id in spokes && now - spokes[id].lastHeartbeat <= SPOKE_TIMEOUT
      && (cells == [] || spokes[id].cell in cells)
  }

  function IDs(selected: seq<Selection>): (ids: seq<string>)
    ensures |ids| == |selected| && forall i :: 0 <= i < |ids| ==> ids[i] == selected[i].spoke
  {
    seq(|selected|, i requires 0 <= i < |selected| => selected[i].spoke)
  }

  /** The first `max` eligible spokes in ID order, or all of them when there is no maximum. */
  ghost predicate IsSelection(spokes: map<string, Candidate>, cells: seq<string>, max: int, now: int,
                              selected: seq<Selection>)
  {
    var eligible := EligibleIDs(spokes, cells, now);
    && Ascending(IDs(selected))
    && (forall i :: 0 <= i < |selected| ==>
          selected[i].spoke in eligible && selected[i].cell == spokes[selected[i].spoke].cell)
    && |selected| == (if max > 0 && |eligible| > max then max else |eligible|)
    && forall id :: id in eligible && id !in IDs(selected) ==>
         forall i :: 0 <= i < |selected| ==> Less(selected[i].spoke, id)
  }

  ghost function Elements(s: seq<string>): set<string> {
    set x | x in s
  }

  lemma {:induction false} DistinctCount(s: seq<string>)
    requires forall i, j :: 0 <= i < j < |s| ==> s[i] != s[j]
    ensures |Elements(s)| == |s|
  {
    if s == [] {
    } else {
      var t := s[..|s| - 1];
      DistinctCount(t);
      assert Elements(s) == Elements(t) + {s[|s| - 1]};
    }
  }

  lemma AscendingDistinct(s: seq<string>)
    requires Ascending(s)
    ensures forall i, j :: 0 <= i < j < |s| ==> s[i] != s[j]
  {
    forall i, j | 0 <= i < j < |s| ensures s[i] != s[j] {
      LessIrreflexive(s[i]);
    }
  }

  /** `SelectSpokes`; the registry is visited in any order. */
  method SelectSpokes(spokes: map<string, Candidate>, cells: seq<string>, max: int, now: int)
    returns (selected: seq<Selection>)
    ensures IsSelection(spokes, cells, max, now, selected)
  {
    var ids := CollectEligible(spokes, cells, now);
    DistinctCount(ids);
    var sorted := Sort(ids);
    SortSpec(ids);
    AscendingDistinct(sorted);
    DistinctCount(sorted);
    ghost var eligible := EligibleIDs(spokes, cells, now);
    assert Elements(ids) == eligible && Elements(sorted) == eligible;
    var kept := sorted;
    if max > 0 && |sorted| > max {
      kept := sorted[..max];
    }
    assert forall i :: 0 <= i < |kept| ==> kept[i] == sorted[i] && kept[i] in eligible;
    selected := seq(|kept|, i requires 0 <= i < |kept| => Selection(kept[i], spokes[kept[i]].cell));
    assert IDs(selected) == kept;
    forall id | id in eligible && id !in kept ensures forall i :: 0 <= i < |kept| ==> Less(kept[i], id) {
      var j :| 0 <= j < |sorted| && sorted[j] == id;
      assert j >= |kept|;
    }
  }

  method CollectEligible(spokes: map<string, Candidate>, cells: seq<string>, now: int) returns (ids: seq<string>)
    ensures forall id :: id in ids <==> id in EligibleIDs(spokes, cells, now)
    ensures forall i, j :: 0 <= i < j < |ids| ==> ids[i] != ids[j]
  {
    var left := spokes.Keys;
    ids := [];
    while left != {}
      invariant left <= spokes.Keys
      invariant forall id :: id in ids <==> id in EligibleIDs(spokes, cells, now) && id !in left
      invariant forall i, j :: 0 <= i < j < |ids| ==> ids[i] != ids[j]
    {
      var id :| id in left;
      left := left - {id};
      if Eligible(spokes[id], cells, now) {
        ids := ids + [id];
      }
    }
  }

  lemma SelectionCovers(spokes: map<string, Candidate>, cells: seq<string>, max: int, now: int, a: seq<Selection>,
                        b: seq<Selection>, i: nat)
    requires IsSelection(spokes, cells, max, now, a) && IsSelection(spokes, cells, max, now, b) && i < |a|
    ensures a[i].spoke in IDs(b)
  {
    var x := a[i].spoke;
    if x !in IDs(b) {
      // Everything in b is below x and hence in a, which then has more elements than b.
      AscendingDistinct(IDs(a));
      AscendingDistinct(IDs(b));
      DistinctCount(IDs(a));
      DistinctCount(IDs(b));
      forall y | y in Elements(IDs(b)) ensures y in Elements(IDs(a)) - {x} {
        var j :| 0 <= j < |IDs(b)| && IDs(b)[j] == y;
        assert Less(b[j].spoke, x);
        LessAsymmetric(y, x);
        assert y !in IDs(a) ==> Less(x, y);
      }
      SubsetCount(Elements(IDs(b)), Elements(IDs(a)) - {x});
      assert false;
    }
  }

  /** Without a maximum everybody eligible is chosen. */
  lemma AllChosen(spokes: map<string, Candidate>, cells: seq<string>, now: int, selected: seq<Selection>)
    requires IsSelection(spokes, cells, 0, now, selected)
    ensures Elements(IDs(selected)) == EligibleIDs(spokes, cells, now)
  {
    AscendingDistinct(IDs(selected));
    DistinctCount(IDs(selected));
    SubsetCount(Elements(IDs(selected)), EligibleIDs(spokes, cells, now));
  }

  /** The selection depends on the registry alone, not on the order it is visited in. */
  lemma SelectionUnique(spokes: map<string, Candidate>, cells: seq<string>, max: int, now: int, a: seq<Selection>,
                        b: seq<Selection>)
    requires IsSelection(spokes, cells, max, now, a) && IsSelection(spokes, cells, max, now, b)
    ensures a == b
  {
    forall i | 0 <= i < |a| ensures IDs(a)[i] in IDs(b) {
      SelectionCovers(spokes, cells, max, now, a, b, i);
    }
    forall i | 0 <= i < |b| ensures IDs(b)[i] in IDs(a) {
      SelectionCovers(spokes, cells, max, now, b, a, i);
    }
    AscendingUnique(IDs(a), IDs(b));
    assert forall i :: 0 <= i < |a| ==> a[i].spoke == IDs(a)[i] && b[i].spoke == IDs(b)[i];
  }

  // ---------------------------------------------------------------------
  // Numbering the shards
  // ---------------------------------------------------------------------

  function Range(start: nat, n: nat): (r: seq<nat>)
    ensures |r| == n && forall j :: 0 <= j < n ==> r[j] == start + j
  {
    seq(n, j => start + j)
  }

  /** The first index of the i-th spoke. */
  function First(i: nat, workers: nat): nat {
    if i == 0 then 0 else First(i - 1, workers) + workers
  }

  lemma {:induction false} FirstIsProduct(i: nat, workers: nat)
    ensures First(i, workers) == i * workers
  {
    if i == 0 {
    } else {
      FirstIsProduct(i - 1, workers);
    }
  }

  lemma {:induction false} FirstGrows(i: nat, j: nat, workers: nat)
    requires i <= j
    ensures First(i, workers) <= First(j, workers)
  {
    if i < j {
      FirstGrows(i, j - 1, workers);
    }
  }

  ghost predicate IsPlan(selected: seq<Selection>, workers: nat, plan: seq<Assignment>) {
    && |plan| == |selected|
    && forall i :: 0 <= i < |plan| ==>
         plan[i] == Assignment(selected[i].spoke, selected[i].cell, Range(First(i, workers), workers))
  }

  method PlanDistribution(selected: seq<Selection>, workers: nat) returns (plan: seq<Assignment>)
    ensures IsPlan(selected, workers, plan)
  {
    plan := [];
    var next := 0;
    for i := 0 to |selected|
      invariant next == First(i, workers)
      invariant IsPlan(selected[..i], workers, plan)
    {
      var indexes := [];
      for w := 0 to workers
        invariant next == First(i, workers) + w && indexes == Range(First(i, workers), w)
      {
        indexes := indexes + [next];
        next := next + 1;
      }
      plan := plan + [Assignment(selected[i].spoke, selected[i].cell, indexes)];
    }
  }

  /** Shard i runs on spoke `Owners(plan)[i]`. */
  function Owners(plan: seq<Assignment>): seq<string> {
    if plan == [] then []
    else
      var last := plan[|plan| - 1];
      Owners(plan[..|plan| - 1]) + seq(|last.indexes|, i => last.spoke)
  }

  method CountShards(plan: seq<Assignment>) returns (count: nat)
    ensures count == |Owners(plan)|
  {
    count := 0;
    for i := 0 to |plan|
      invariant count == |Owners(plan[..i])|
    {
      assert plan[..i + 1][..i] == plan[..i];
      count := count + |plan[i].indexes|;
    }
    assert plan[..|plan|] == plan;
  }

  /** Assignment `a` of the plan carries shard `index`. */
  ghost predicate Carries(plan: seq<Assignment>, a: int, index: int) {
    0 <= a < |plan| && index in plan[a].indexes
  }

  lemma CarriesRange(selected: seq<Selection>, workers: nat, plan: seq<Assignment>, a: int, index: int)
    requires IsPlan(selected, workers, plan) && 0 <= a < |plan|
    ensures Carries(plan, a, index) <==> First(a, workers) <= index < First(a + 1, workers)
  {
    var r := Range(First(a, workers), workers);
    if First(a, workers) <= index < First(a + 1, workers) {
      assert r[index - First(a, workers)] == index;
    }
  }

  lemma CarriedStill(plan: seq<Assignment>, n: nat, index: nat, spoke: string)
    requires n <= |plan| && CarriedBy(plan[..n], index, spoke)
    ensures CarriedBy(plan, index, spoke)
  {
    var a :| Carries(plan[..n], a, index) && plan[..n][a].spoke == spoke;
    assert Carries(plan, a, index);
  }

  lemma CarriedLast(selected: seq<Selection>, workers: nat, plan: seq<Assignment>, index: int)
    requires IsPlan(selected, workers, plan) && plan != []
    requires First(|plan| - 1, workers) <= index < First(|plan| - 1, workers) + workers
    ensures CarriedBy(plan, index, plan[|plan| - 1].spoke)
  {
    CarriesRange(selected, workers, plan, |plan| - 1, index);
    assert Carries(plan, |plan| - 1, index);
  }

  lemma OwnersSnoc(plan: seq<Assignment>, n: nat)
    requires |plan| == n + 1
    ensures |Owners(plan)| == |Owners(plan[..n])| + |plan[n].indexes|
    ensures forall i :: 0 <= i < |Owners(plan)| ==>
      Owners(plan)[i] == if i < |Owners(plan[..n])| then Owners(plan[..n])[i] else plan[n].spoke
  {
  }

  /** The owner list puts every shard on the spoke whose assignment carries it. */
  lemma {:induction false} OwnerCarries(selected: seq<Selection>, workers: nat, plan: seq<Assignment>)
    requires IsPlan(selected, workers, plan)
    ensures |Owners(plan)| == First(|plan|, workers)
    ensures forall index :: 0 <= index < |Owners(plan)| ==> CarriedBy(plan, index, Owners(plan)[index])
  {
    if plan == [] {
    } else {
      var n := |plan| - 1;
      var init := plan[..n];
      OwnerCarries(selected[..n], workers, init);
      OwnersSnoc(plan, n);
      forall index | 0 <= index < |Owners(plan)| ensures CarriedBy(plan, index, Owners(plan)[index]) {
        if index < |Owners(init)| {
          CarriedStill(plan, n, index, Owners(init)[index]);
        } else {
          CarriedLast(selected, workers, plan, index);
        }
      }
    }
  }

  ghost predicate CarriedBy(plan: seq<Assignment>, index: int, spoke: string) {
    exists a :: Carries(plan, a, index) && plan[a].spoke == spoke
  }

  /** The shards are numbered 0 .. spokes * workers - 1, each carried by exactly one assignment. */
  lemma {:induction false} DenseIndexes(selected: seq<Selection>, workers: nat, plan: seq<Assignment>)
    requires IsPlan(selected, workers, plan)
    ensures |Owners(plan)| == |plan| * workers
    ensures forall index :: 0 <= index < |Owners(plan)| ==> CarriedBy(plan, index, Owners(plan)[index])
    ensures forall a, index :: Carries(plan, a, index) ==>
      index < |Owners(plan)| && plan[a].spoke == Owners(plan)[index]
    ensures forall a, b, index :: Carries(plan, a, index) && Carries(plan, b, index) ==> a == b
  {
    OwnerCarries(selected, workers, plan);
    FirstIsProduct(|plan|, workers);
    forall a, b, index | Carries(plan, a, index) && Carries(plan, b, index) ensures a == b {
      CarriesRange(selected, workers, plan, a, index);
      CarriesRange(selected, workers, plan, b, index);
      if a < b {
        FirstGrows(a + 1, b, workers);
      } else if b < a {
        FirstGrows(b + 1, a, workers);
      }
    }
    forall a, index | Carries(plan, a, index) ensures index < |Owners(plan)| {
      CarriesRange(selected, workers, plan, a, index);
      FirstGrows(a + 1, |plan|, workers);
    }
    forall a, index | Carries(plan, a, index) ensures plan[a].spoke == Owners(plan)[index] {
      assert CarriedBy(plan, index, Owners(plan)[index]);
    }
  }

  /** Shard `index`, carried by assignment `a`, replays the request. */
  ghost predicate Replays(plan: seq<Assignment>, a: int, index: int, id: string) {
    Carries(plan, a, index) && ShardOwns(id, index, |Owners(plan)|)
  }

  /** One owner among `total` shards, whatever the sharding function is. */
  lemma OneOfMany(plan: seq<Assignment>, id: string, total: int, index: nat)
    requires total == |Owners(plan)| && index < total
    requires forall i :: 0 <= i < total ==> (ShardOwns(id, i, total) <==> i == index)
    requires CarriedBy(plan, index, Owners(plan)[index])
    requires forall a, i :: Carries(plan, a, i) ==> i < total
    requires forall a, b, i :: Carries(plan, a, i) && Carries(plan, b, i) ==> a == b
    ensures exists a, i :: Replays(plan, a, i, id)
    ensures forall a, i, b, j :: Replays(plan, a, i, id) && Replays(plan, b, j, id) ==> a == b && i == j
  {
    var a :| Carries(plan, a, index) && plan[a].spoke == Owners(plan)[index];
    assert Replays(plan, a, index, id);
  }

  /** Every captured request is replayed by exactly one shard, on exactly one of the distinct selected spokes. */
  lemma ExactlyOneWorker(selected: seq<Selection>, workers: nat, plan: seq<Assignment>, id: string)
    requires IsPlan(selected, workers, plan) && Ascending(IDs(selected)) && selected != [] && workers > 0
    ensures exists a, index :: Replays(plan, a, index, id)
    ensures forall a, i, b, j :: Replays(plan, a, i, id) && Replays(plan, b, j, id) ==> a == b && i == j
    ensures forall a, b :: 0 <= a < b < |plan| ==> plan[a].spoke != plan[b].spoke
  {
    DenseIndexes(selected, workers, plan);
    FirstIsProduct(|plan|, workers);
    FirstGrows(1, |plan|, workers);
    assert First(1, workers) == workers by { assert First(0, workers) == 0; }
    ExactlyOneOwner(id, |Owners(plan)|);
    OneOfMany(plan, id, |Owners(plan)|, ShardIndexOf(id, |Owners(plan)|));
    AscendingDistinct(IDs(selected));
    assert forall a :: 0 <= a < |plan| ==> plan[a].spoke == IDs(selected)[a];
  }

  // ---------------------------------------------------------------------
  // Splitting the rate
  // ---------------------------------------------------------------------

  /** Division towards zero. */
  function Quotient(a: int, b: int): int
    requires b > 0
  {
    if a >= 0 then a / b else -(-a / b)
  }

  function Remainder(a: int, b: int): int
    requires b > 0
  {
    a - Quotient(a, b) * b
  }

  function SplitRate(total: int, count: int, shard: int): int {
    if count <= 0 then total
    else
      var base := Quotient(total, count) + if shard < Remainder(total, count) then 1 else 0;
      if base < 1 then 1 else base
  }

  function SumRates(total: int, count: int, n: nat): int {
    if n == 0 then 0 else SumRates(total, count, n - 1) + SplitRate(total, count, n - 1)
  }

  lemma {:induction false} PartialSum(total: int, count: int, n: nat)
    requires total >= count > 0 && n <= count
    ensures SumRates(total, count, n)
         == n * Quotient(total, count) + if n < Remainder(total, count) then n else Remainder(total, count)
  {
    if n == 0 {
    } else {
      PartialSum(total, count, n - 1);
      OneMoreTime(n, Quotient(total, count));
    }
  }

  lemma OneMoreTime(n: nat, q: int)
    requires n > 0
    ensures n * q == (n - 1) * q + q
  {
  }

  lemma {:induction false} AllOnes(total: int, count: int, n: nat)
    requires total < count && count > 0
    ensures SumRates(total, count, n) == n
  {
    if n == 0 {
    } else {
      AllOnes(total, count, n - 1);
    }
  }

  /** The shard rates add up to the configured aggregate if and only if it is at least one request per
      second and shard; otherwise every shard runs at 1. */
  lemma RatesAddUp(total: int, count: int)
    requires count > 0
    ensures SumRates(total, count, count) == if total >= count then total else count
    ensures SumRates(total, count, count) == total <==> total >= count
  {
    if total >= count {
      PartialSum(total, count, count);
    } else {
      AllOnes(total, count, count);
    }
  }

  /** As even as can be: no two shards differ by more than 1, and the larger rates are on the lower indexes. With
      the sum this leaves one way to split a rate. */
  lemma RatesAreEven(total: int, count: int, i: nat, j: nat)
    requires i <= j < count
    ensures SplitRate(total, count, i) - 1 <= SplitRate(total, count, j) <= SplitRate(total, count, i)
    ensures SplitRate(total, count, j) >= 1
  {
  }

  /** Ten requests per second for four shards. */
  lemma TenByFour()
    ensures SplitRate(10, 4, 0) == 3 && SplitRate(10, 4, 1) == 3 && SplitRate(10, 4, 2) == 2 && SplitRate(10, 4, 3) == 2
  {
  }

  // ---------------------------------------------------------------------
  // The abort test
  // ---------------------------------------------------------------------

  datatype Limit = Unlimited | AtMost(value: int)

  /** An absent limit is `Unlimited`; `minSample` is the configured or the default sample size. */
  datatype Policy = Policy(maxDuration: Limit, errorPercent: Limit, minSample: int)

  predicate TooLong(p: Policy, elapsed: int) {
    p.maxDuration.AtMost? && elapsed > p.maxDuration.value
  }

  /** The percentage comparison, multiplied out. */
  predicate TooManyErrors(p: Policy, sent: nat, failed: nat) {
    && p.errorPercent.AtMost?
    && sent + failed >= p.minSample && sent + failed > 0
    && failed * 100 > p.errorPercent.value * (sent + failed)
  }

  predicate ShouldAbort(p: Policy, elapsed: int, sent: nat, failed: nat) {
    TooLong(p, elapsed) || TooManyErrors(p, sent, failed)
  }

  /** A run is too long from the first moment after its maximum on, and never without one. */
  lemma TooLongExactly(p: Policy, elapsed: int)
    ensures p.maxDuration.AtMost? ==> !TooLong(p, p.maxDuration.value) && TooLong(p, p.maxDuration.value + 1)
    ensures TooLong(p, elapsed) <==> p.maxDuration.AtMost? && elapsed - p.maxDuration.value >= 1
  {
  }

  /** The error test as the program computes it: the percentage is above the limit, in a large enough sample. */
  lemma TooManyErrorsExactly(p: Policy, sent: nat, failed: nat)
    ensures TooManyErrors(p, sent, failed)
       <==> && p.errorPercent.AtMost? && sent + failed > 0 && sent + failed >= p.minSample
            && failed as real * 100.0 / (sent + failed) as real > p.errorPercent.value as real
  {
    if sent + failed > 0 && p.errorPercent.AtMost? {
      Percentage(failed, sent + failed, p.errorPercent.value);
    }
  }

  lemma Percentage(part: nat, whole: nat, percent: int)
    requires whole > 0
    ensures part as real * 100.0 / whole as real > percent as real <==> part * 100 > percent * whole
  {
    var q := part as real * 100.0 / whole as real;
    assert q * whole as real == part as real * 100.0;
    assert part as real * 100.0 == (part * 100) as real && percent as real * whole as real == (percent * whole) as real;
    if q > percent as real {
      Larger(percent as real, q, whole as real);
    } else {
      assert q == percent as real || q < percent as real;
      if q < percent as real {
        Larger(q, percent as real, whole as real);
      }
    }
  }

  lemma Larger(a: real, b: real, c: real)
    requires a < b && c > 0.0
    ensures a * c < b * c
  {
    assert (b - a) * c > 0.0;
  }

  /** Once a run is too long it stays so, whatever is reported later. */
  lemma DurationAbortIsStable(p: Policy, elapsed: int, later: int, sent: nat, failed: nat)
    requires TooLong(p, elapsed) && elapsed <= later
    ensures ShouldAbort(p, later, sent, failed)
  {
  }

  /** How far the failures are above the threshold, in hundredths of a request. */
  function Excess(p: Policy, sent: int, failed: int): int
    requires p.errorPercent.AtMost?
  {
    failed * 100 - p.errorPercent.value * (sent + failed)
  }

  /** An abort on the error rate survives a change of the totals exactly when the change does not use up the
      excess and leaves a large enough sample. The totals may also fall: a spoke that registers anew starts with
      no reports. */
  lemma ErrorAbortSurvives(p: Policy, sent: nat, failed: nat, moreSent: int, moreFailed: int)
    requires TooManyErrors(p, sent, failed) && sent + moreSent >= 0 && failed + moreFailed >= 0
    ensures TooManyErrors(p, sent + moreSent, failed + moreFailed)
       <==> && Excess(p, moreSent, moreFailed) > -Excess(p, sent, failed)
            && (var total := sent + failed + moreSent + moreFailed; total >= p.minSample && total > 0)
  {
    var e := p.errorPercent.value;
    assert e * (sent + moreSent + failed + moreFailed) == e * (sent + failed) + e * (moreSent + moreFailed);
  }

  /** So it is not monotonic: 60 failures out of 100 trip a 50 % limit, 100 successes later they do not; and
      neither do they once the spoke that reported them has registered anew. */
  lemma ErrorAbortIsNotStable()
    ensures var p := Policy(Unlimited, AtMost(50), 100);
            ShouldAbort(p, 0, 40, 60) && !ShouldAbort(p, 0, 140, 60) && !ShouldAbort(p, 0, 40, 0)
  {
  }
}
