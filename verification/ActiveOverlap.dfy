// How many active probe runs can overlap: the checked duration arithmetic of the
// configuration, the bound it enforces, and the loop that relies on it.
module ActiveOverlap {
  // Durations are 64-bit counts of nanoseconds.
  const MAX_DURATION := 0x7FFF_FFFF_FFFF_FFFF
  const SECOND := 1_000_000_000
  const TARGET_PLANNING := SECOND
  const END_TO_END := 12 * SECOND
  const CONFIRMATIONS := 2

  function Sum(parts: seq<int>): int {
    if parts == [] then 0 else Sum(parts[..|parts| - 1]) + parts[|parts| - 1]
  }

  lemma {:induction false} SumGrows(parts: seq<int>, i: nat)
    requires i <= |parts| && forall k :: 0 <= k < |parts| ==> parts[k] >= 0
    ensures 0 <= Sum(parts[..i]) <= Sum(parts)
    decreases |parts|
  {
    if i == |parts| {
      assert parts[..i] == parts;
      if i > 0 {
        SumGrows(parts[..i - 1], i - 1);
      }
    } else {
      var rest := parts[..|parts| - 1];
      SumGrows(rest, i);
      assert rest[..i] == parts[..i];
    }
  }

  predicate Fits(duration: int) {
    -MAX_DURATION - 1 <= duration <= MAX_DURATION
  }

  lemma SumSnoc(parts: seq<int>, part: int)
    ensures Sum(parts + [part]) == Sum(parts) + part
  {
    assert (parts + [part])[..|parts|] == parts;
  }

  lemma SumOfTwo(a: int, b: int)
    ensures Sum([a, b]) == a + b
  {
    SumSnoc([], a);
    SumSnoc([a], b);
    assert [a] + [b] == [a, b] && [] + [a] == [a];
  }

  // No intermediate value leaves the 64-bit range, and a sum is refused exactly when
  // a part is negative or the true total is too large.
  method CheckedDurationSum(parts: seq<int>) returns (total: int, ok: bool)
    requires forall p :: p in parts ==> Fits(p)
    ensures ok <==> (forall p :: p in parts ==> p >= 0) && Sum(parts) <= MAX_DURATION
    ensures total == if ok then Sum(parts) else 0
  {
    total := 0;
    for i := 0 to |parts|
      invariant 0 <= total <= MAX_DURATION && total == Sum(parts[..i])
      invariant forall k :: 0 <= k < i ==> parts[k] >= 0
    {
      var part := parts[i];
      assert part in parts;
      assert parts[..i + 1][..i] == parts[..i];
      assert part >= 0 ==> 0 <= MAX_DURATION - total;
      if part < 0 || part > MAX_DURATION - total {
        if forall p :: p in parts ==> p >= 0 {
          assert forall k :: 0 <= k < |parts| ==> parts[k] in parts;
          SumGrows(parts, i + 1);
        }
        return 0, false;
      }
      total := total + part;
    }
    assert parts[..|parts|] == parts;
    ok := true;
  }

  method CheckedDurationProduct(value: int, count: int) returns (product: int, ok: bool)
    ensures ok <==> value >= 0 && count >= 0 && value * count <= MAX_DURATION
    ensures product == if ok then value * count else 0
  {
    if value < 0 || count < 0 {
      return 0, false;
    }
    if count > 0 {
      QuotientBound(value, count, MAX_DURATION);
      if value > MAX_DURATION / count {
        return 0, false;
      }
    }
    return value * count, true;
  }

  lemma QuotientBound(value: nat, count: nat, limit: nat)
    requires count > 0
    ensures value <= limit / count <==> value * count <= limit
  {
    var q, r := limit / count, limit % count;
    assert limit == q * count + r;
    if value <= q {
      MulGrows(value, q, count);
    } else {
      MulGrows(q + 1, value, count);
      assert (q + 1) * count == q * count + count;
    }
  }

  lemma MulGrows(a: nat, b: nat, c: nat)
    requires a <= b
    ensures a * c <= b * c
  {
    assert b * c - a * c == (b - a) * c;
  }

  // Two port ranges overlap when some port is in both.
  function PortRangesOverlap(leftBase: int, leftCount: int, rightBase: int, rightCount: int): bool {
    if leftBase <= 0 || leftCount <= 0 || rightBase <= 0 || rightCount <= 0 then false
    else leftBase <= rightBase + rightCount - 1 && rightBase <= leftBase + leftCount - 1
  }

  predicate InRange(port: int, base: int, count: int) {
    base <= port < base + count
  }

  lemma OverlapMeansSharedPort(leftBase: int, leftCount: int, rightBase: int, rightCount: int)
    requires leftBase > 0 && rightBase > 0
    ensures PortRangesOverlap(leftBase, leftCount, rightBase, rightCount) <==>
      exists port :: InRange(port, leftBase, leftCount) && InRange(port, rightBase, rightCount)
  {
    if PortRangesOverlap(leftBase, leftCount, rightBase, rightCount) {
      var port := if leftBase < rightBase then rightBase else leftBase;
      assert InRange(port, leftBase, leftCount) && InRange(port, rightBase, rightCount);
    }
  }

  // ---------- What the configuration demands ----------

  datatype Probes = Probes(activeInterval: int, activeDeadline: int, responseSlack: int, proofGrace: int,
                           routeLimit: int, overlap: int, workers: int, hardBudget: int, preemptTimeout: int)

  // A run: its deadline and slack, and the planning before it.
  function Window(p: Probes): int {
    p.activeDeadline + p.responseSlack + TARGET_PLANNING
  }

  // Detection by two confirmations, one run, and the hard placement.
  function Freshness(p: Probes): int {
    p.activeInterval * CONFIRMATIONS + Window(p) + p.hardBudget
  }

  predicate ValidActive(p: Probes) {
    && p.workers > 0 && p.activeInterval > 0 && p.activeDeadline > 0
    && p.routeLimit > 0 && p.overlap > 0 && p.responseSlack > 0
    && Window(p) <= END_TO_END
    && (Window(p) - 1) / p.activeInterval + 1 <= p.overlap
    && p.routeLimit <= p.workers / p.overlap
    && 0 < p.preemptTimeout < p.hardBudget
    && Freshness(p) <= END_TO_END
    && Freshness(p) <= p.proofGrace
  }

  predicate Representable(p: Probes) {
    && Fits(p.activeInterval) && Fits(p.activeDeadline) && Fits(p.responseSlack)
    && Fits(p.proofGrace) && Fits(p.hardBudget) && Fits(p.preemptTimeout)
  }

  method ActiveFailureFreshness(p: Probes) returns (freshness: int)
    requires Representable(p) && p.activeInterval > 0 && p.activeDeadline > 0 && p.responseSlack > 0 && p.hardBudget > 0
    ensures freshness == if Freshness(p) <= MAX_DURATION then Freshness(p) else MAX_DURATION
  {
    var detection, ok := CheckedDurationProduct(p.activeInterval, CONFIRMATIONS);
    if !ok {
      return MAX_DURATION;
    }
    var parts := [detection, p.activeDeadline, p.responseSlack, TARGET_PLANNING, p.hardBudget];
    SumOfTwo(detection, p.activeDeadline);
    SumSnoc([detection, p.activeDeadline], p.responseSlack);
    SumSnoc([detection, p.activeDeadline, p.responseSlack], TARGET_PLANNING);
    SumSnoc([detection, p.activeDeadline, p.responseSlack, TARGET_PLANNING], p.hardBudget);
    assert [detection, p.activeDeadline] + [p.responseSlack] + [TARGET_PLANNING] + [p.hardBudget] == parts;
    freshness, ok := CheckedDurationSum(parts);
    if !ok {
      return MAX_DURATION;
    }
  }

  // The checks that concern active runs, with overflow ruled out on the way.
  method Validate(p: Probes) returns (ok: bool)
    requires Representable(p)
    ensures ok <==> ValidActive(p)
  {
    if p.workers <= 0 || p.activeInterval <= 0 || p.activeDeadline <= 0 {
      return false;
    }
    if p.routeLimit <= 0 || p.overlap <= 0 || p.responseSlack <= 0 {
      return false;
    }
    SumOfTwo(p.activeDeadline, p.responseSlack);
    var activeWindow, windowOk := CheckedDurationSum([p.activeDeadline, p.responseSlack]);
    if !windowOk || activeWindow <= 0 || activeWindow > END_TO_END - TARGET_PLANNING {
      return false;
    }
    SumOfTwo(activeWindow, TARGET_PLANNING);
    var runWindow, runOk := CheckedDurationSum([activeWindow, TARGET_PLANNING]);
    if !runOk {
      return false;
    }
    var requiredOverlap := (runWindow - 1) / p.activeInterval + 1;
    if p.overlap < requiredOverlap || p.routeLimit > p.workers / p.overlap {
      return false;
    }
    if p.hardBudget <= 0 || p.preemptTimeout <= 0 || p.preemptTimeout >= p.hardBudget {
      return false;
    }
    var freshness := ActiveFailureFreshness(p);
    if freshness > END_TO_END {
      return false;
    }
    return p.proofGrace > 0 && p.proofGrace >= freshness;
  }

  // ---------- The loop that starts the runs ----------

  // Every run starts at least one interval after the one before it.
  ghost predicate Spaced(starts: seq<int>, interval: int) {
    forall k :: 0 < k < |starts| ==> starts[k - 1] + interval <= starts[k]
  }

  lemma {:induction false} SpacedApart(starts: seq<int>, interval: int, j: nat, k: nat)
    requires interval > 0 && Spaced(starts, interval) && j <= k < |starts|
    ensures starts[j] + (k - j) * interval <= starts[k]
  {
    if j < k {
      SpacedApart(starts, interval, j, k - 1);
      assert (k - j) * interval == (k - 1 - j) * interval + interval;
    }
  }

  // The runs that have begun less than a window before a given time.
  ghost function Alive(starts: seq<int>, window: int, time: int): set<int> {
    set k | 0 <= k < |starts| && time < starts[k] + window
  }

  // At the time a run is due, one interval after the last start, at most (W - 1) / I
  // earlier ones can be alive.
  lemma AliveBound(starts: seq<int>, interval: int, window: int, time: int)
    requires interval > 0 && window > 0 && Spaced(starts, interval)
    requires starts != [] ==> starts[|starts| - 1] + interval <= time
    ensures |Alive(starts, window, time)| <= (window - 1) / interval
  {
    var n, m := |starts|, (window - 1) / interval;
    forall k | k in Alive(starts, window, time)
      ensures n - m <= k < n
    {
      SpacedApart(starts, interval, k, n - 1);
      assert (n - k) * interval == (n - 1 - k) * interval + interval;
      QuotientBound(n - k, interval, window - 1);
    }
    RangeBound(Alive(starts, window, time), n - m, n);
  }

  lemma {:induction false} RangeBound(s: set<int>, low: int, high: int)
    requires low <= high && forall k :: k in s ==> low <= k < high
    ensures |s| <= high - low
    decreases high - low
  {
    if low < high {
      RangeBound(s - {low}, low + 1, high);
      if low in s {
        assert |s - {low}| == |s| - 1;
      } else {
        assert s - {low} == s;
      }
    } else {
      assert s == {};
    }
  }

  // The bound is reached: runs every interval that use their whole window overlap
  // exactly so often, so no smaller number of slots would do.
  lemma BoundIsTight(interval: int, window: int)
    requires interval > 0 && window > 0
    ensures var starts := seq((window - 1) / interval, k => k * interval);
      Spaced(starts, interval) && |Alive(starts, window, |starts| * interval)| == (window - 1) / interval
  {
    var n := (window - 1) / interval;
    var starts := seq(n, k => k * interval);
    forall k | 0 <= k < n
      ensures n * interval < starts[k] + window
    {
      assert n * interval <= window - 1;
      MulGrows(0, k, interval);
    }
    forall k | 0 < k < n
      ensures starts[k - 1] + interval <= starts[k]
    {
      assert k * interval == (k - 1) * interval + interval;
    }
    FirstFacts(n);
    assert Alive(starts, window, n * interval) == First(n);
  }

  function First(n: nat): set<int> {
    if n == 0 then {} else First(n - 1) + {n - 1}
  }

  lemma {:induction false} FirstFacts(n: nat)
    ensures |First(n)| == n && forall k :: k in First(n) <==> 0 <= k < n
  {
    if n > 0 {
      FirstFacts(n - 1);
    }
  }

  // At any other time there is at most one more, the run that was started last.
  lemma AliveAtAnyTime(starts: seq<int>, interval: int, window: int, time: int)
    requires interval > 0 && window > 0 && Spaced(starts, interval)
    requires starts != [] ==> starts[|starts| - 1] <= time
    ensures |Alive(starts, window, time)| <= (window - 1) / interval + 1
  {
    if starts != [] {
      AliveBound(starts[..|starts| - 1], interval, window, time);
      LastIsOneMore(starts, window, time);
    } else {
      AliveBound(starts, interval, window, time);
    }
  }

  lemma LastIsOneMore(starts: seq<int>, window: int, time: int)
    requires starts != []
    ensures |Alive(starts, window, time)| <= |Alive(starts[..|starts| - 1], window, time)| + 1
  {
    var n := |starts| - 1;
    SubsetBound(Alive(starts, window, time) - {n}, Alive(starts[..n], window, time));
    SubsetBound(Alive(starts, window, time), Alive(starts, window, time) - {n} + {n});
  }

  // The critical candidates that the first n runs are probing, counted once per run.
  function InFlight(slots: map<int, set<string>>, n: nat): nat {
    if n == 0 then 0 else InFlight(slots, n - 1) + if n - 1 in slots then |slots[n - 1]| else 0
  }

  function Holders(slots: map<int, set<string>>, n: nat): set<int> {
    set k | k in slots && 0 <= k < n
  }

  lemma OneMoreHolder(slots: map<int, set<string>>, n: nat)
    requires n > 0
    ensures |Holders(slots, n)| == |Holders(slots, n - 1)| + if n - 1 in slots then 1 else 0
  {
    if n - 1 in slots {
      assert Holders(slots, n) == Holders(slots, n - 1) + {n - 1};
    } else {
      assert Holders(slots, n) == Holders(slots, n - 1);
    }
  }

  lemma MulStep(a: nat, c: nat)
    ensures (a + 1) * c == a * c + c
  {
  }

  lemma {:induction false} InFlightBound(slots: map<int, set<string>>, limit: nat, n: nat)
    requires forall k :: k in slots ==> |slots[k]| <= limit
    ensures InFlight(slots, n) <= |Holders(slots, n)| * limit
  {
    if n > 0 {
      InFlightBound(slots, limit, n - 1);
      OneMoreHolder(slots, n);
      MulStep(|Holders(slots, n - 1)|, limit);
    }
  }

  // Under an accepted configuration the probes of all runs alive fit the workers.
  lemma WorkersSuffice(p: Probes, slots: map<int, set<string>>, n: nat)
    requires ValidActive(p) && |slots| <= p.overlap && forall k :: k in slots ==> |slots[k]| <= p.routeLimit
    ensures InFlight(slots, n) <= p.workers
  {
    InFlightBound(slots, p.routeLimit, n);
    SubsetBound(Holders(slots, n), slots.Keys);
    MulGrows(|Holders(slots, n)|, p.overlap, p.routeLimit);
    QuotientBound(p.routeLimit, p.overlap, p.workers);
    assert p.overlap * p.routeLimit == p.routeLimit * p.overlap;
  }

  datatype Role = Critical | Reserve | Prospective

  function CriticalOf(roles: map<string, Role>): set<string> {
    set id | id in roles && roles[id].Critical?
  }

  // The loop's state; `slots` are the runs whose slot is not released yet, each with
  // the critical candidates it is probing now.
  class ActiveRuns {
    const probes: Probes
    var clock: int
    var starts: seq<int>
    var slots: map<int, set<string>>

    // The runs that may be alive at once, and the critical probes they may have.
    ghost predicate Bounded()
      requires ValidActive(probes)
      reads this
    {
      && |slots| <= (Window(probes) - 1) / probes.activeInterval + 1 <= probes.overlap
      && (forall k :: k in slots ==> |slots[k]| <= probes.routeLimit)
      && InFlight(slots, |starts|) <= probes.workers
    }

    ghost predicate Paced()
      reads this
    {
      && ValidActive(probes)
      && Spaced(starts, probes.activeInterval)
      && (starts != [] ==> starts[|starts| - 1] <= clock)
      && slots.Keys <= Alive(starts, Window(probes), clock)
    }

    ghost predicate Valid()
      reads this
    {
      Paced() && Bounded()
    }

    constructor (probes: Probes)
      requires ValidActive(probes)
      ensures Valid() && this.probes == probes && slots == map[] && starts == []
    {
      this.probes := probes;
      clock, starts, slots := 0, [], map[];
      assert (Window(probes) - 1) / probes.activeInterval >= 0;
    }

    // Time passes no run's window before that run has ended.
    method Tick(time: nat)
      requires Valid() && forall k :: k in slots ==> clock + time < starts[k] + Window(probes)
      modifies this`clock
      ensures Valid() && clock == old(clock) + time
    {
      clock := clock + time;
    }

    lemma RunsAreBounded()
      requires Paced() && forall k :: k in slots ==> |slots[k]| <= probes.routeLimit
      ensures Bounded()
    {
      AliveAtAnyTime(starts, probes.activeInterval, Window(probes), clock);
      SubsetBound(slots.Keys, Alive(starts, Window(probes), clock));
      WorkersSuffice(probes, slots, |starts|);
    }

    method RunEnds(k: int)
      requires Valid() && k in slots
      modifies this`slots
      ensures Valid() && slots == old(slots) - {k}
    {
      slots := slots - {k};
      assert slots.Keys <= old(slots).Keys && forall j :: j in slots ==> slots[j] == old(slots)[j];
      RunsAreBounded();
    }

    // A signal that finds no slot is dropped; that never happens, because the loop has
    // waited for the interval since the last start.
    method Begin() returns (admitted: bool)
      requires Valid() && (starts != [] ==> starts[|starts| - 1] + probes.activeInterval <= clock)
      modifies this`starts, this`slots
      ensures Valid() && admitted && starts == old(starts) + [clock] && slots == old(slots)[|old(starts)| := {}]
    {
      AliveBound(starts, probes.activeInterval, Window(probes), clock);
      SubsetBound(slots.Keys, Alive(starts, Window(probes), clock));
      admitted := |slots| < probes.overlap;
      if admitted {
        slots := slots[|starts| := {}];
        starts := starts + [clock];
      }
      RunsAreBounded();
    }

    // The targets of a run: with more critical candidates than the limit the run ends
    // without a probe, and otherwise each of them is probed.
    method Observe(k: int, roles: map<string, Role>) returns (ok: bool)
      requires Valid() && k in slots
      modifies this`slots
      ensures Valid() && (ok <==> |CriticalOf(roles)| <= probes.routeLimit)
      ensures slots == if ok then old(slots)[k := CriticalOf(roles)] else old(slots) - {k}
    {
      ok := |CriticalOf(roles)| <= probes.routeLimit;
      if ok {
        slots := slots[k := CriticalOf(roles)];
      } else {
        slots := slots - {k};
      }
      RunsAreBounded();
    }

    method ProbeEnds(k: int, candidate: string)
      requires Valid() && k in slots && candidate in slots[k]
      modifies this`slots
      ensures Valid() && slots == old(slots)[k := old(slots)[k] - {candidate}]
    {
      SubsetBound(slots[k] - {candidate}, slots[k]);
      slots := slots[k := slots[k] - {candidate}];
      RunsAreBounded();
    }
  }

  lemma SubsetBound<T>(a: set<T>, b: set<T>)
    requires a <= b
    ensures |a| <= |b|
  {
    assert b == a + (b - a);
  }
}
