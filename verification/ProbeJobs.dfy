// The order in which probe jobs are launched: within a run of equal priority the
// sources, or the failure domains, take turns; maintenance and discovery share the
// workers three to one.
module ProbeJobs {
  datatype Job = Job(id: string, source: string, domain: string, priority: int)

  // What the jobs of one bucket have in common.
  datatype Key = Key(text: string)

  function SourceKey(job: Job): Key {
    Key(job.source)
  }

  // A candidate without a failure domain is a domain of its own.
  function DomainKey(job: Job): Key {
    Key(if job.domain == "" then "candidate:" + job.id else "domain:" + job.domain)
  }

  lemma DomainKeysDoNotMix(a: Job, b: Job)
    ensures DomainKey(a) == DomainKey(b) <==> a.domain == b.domain && (a.domain == "" ==> a.id == b.id)
  {
    assert DomainKey(a).text[0] == (if a.domain == "" then 'c' else 'd');
    assert DomainKey(b).text[0] == (if b.domain == "" then 'c' else 'd');
    if a.domain == "" {
      assert DomainKey(a).text[10..] == a.id;
      assert b.domain == "" ==> DomainKey(b).text[10..] == b.id;
    } else {
      assert DomainKey(a).text[7..] == a.domain;
      assert b.domain != "" ==> DomainKey(b).text[7..] == b.domain;
    }
  }

  // ---------- What taking turns means ----------

  // The jobs of one bucket, in order.
  function Bucket(jobs: seq<Job>, key: Job -> Key, k: Key): seq<Job> {
    if jobs == [] then []
    else Bucket(jobs[..|jobs| - 1], key, k) + if key(jobs[|jobs| - 1]) == k then [jobs[|jobs| - 1]] else []
  }

  lemma BucketSnoc(jobs: seq<Job>, job: Job, key: Job -> Key, k: Key)
    ensures Bucket(jobs + [job], key, k) == Bucket(jobs, key, k) + if key(job) == k then [job] else []
  {
    assert (jobs + [job])[..|jobs|] == jobs;
  }

  // Every bucket keeps its jobs and their order.
  ghost predicate SameBuckets(jobs: seq<Job>, ordered: seq<Job>, key: Job -> Key) {
    forall k :: Bucket(ordered, key, k) == Bucket(jobs, key, k)
  }

  // Whoever is not exhausted is at most one job behind anybody else.
  ghost predicate Level(jobs: seq<Job>, prefix: seq<Job>, key: Job -> Key) {
    forall a, b :: |Bucket(prefix, key, b)| < |Bucket(jobs, key, b)| ==>
      |Bucket(prefix, key, a)| <= |Bucket(prefix, key, b)| + 1
  }

  ghost predicate TakesTurns(jobs: seq<Job>, ordered: seq<Job>, key: Job -> Key) {
    forall p :: 0 <= p <= |ordered| ==> Level(jobs, ordered[..p], key)
  }

  lemma {:induction false} BucketHasAll(jobs: seq<Job>, key: Job -> Key, job: Job)
    ensures multiset(jobs)[job] == multiset(Bucket(jobs, key, key(job)))[job]
  {
    if jobs != [] {
      var rest, last := jobs[..|jobs| - 1], jobs[|jobs| - 1];
      BucketHasAll(rest, key, job);
      assert jobs == rest + [last];
    }
  }

  lemma SameBucketsPermute(jobs: seq<Job>, ordered: seq<Job>, key: Job -> Key)
    requires SameBuckets(jobs, ordered, key)
    ensures multiset(ordered) == multiset(jobs) && |ordered| == |jobs|
  {
    forall job
      ensures multiset(ordered)[job] == multiset(jobs)[job]
    {
      BucketHasAll(jobs, key, job);
      BucketHasAll(ordered, key, job);
    }
    assert |multiset(ordered)| == |ordered| && |multiset(jobs)| == |jobs|;
  }

  // In other words: when one bucket's job number n is launched (counting from 0),
  // every other bucket has launched its job number n - 1, if it has one.
  lemma NobodyOvertakes(jobs: seq<Job>, ordered: seq<Job>, key: Job -> Key, p: nat, k: Key)
    requires TakesTurns(jobs, ordered, key) && p < |ordered|
    ensures var n := |Bucket(ordered[..p], key, key(ordered[p]))|;
      n <= |Bucket(jobs, key, k)| ==> |Bucket(ordered[..p + 1], key, k)| >= n
  {
    var job := ordered[p];
    assert ordered[..p + 1] == ordered[..p] + [job];
    BucketSnoc(ordered[..p], job, key, key(job));
    assert Level(jobs, ordered[..p + 1], key);
    LevelForTwo(jobs, ordered[..p + 1], key, key(job), k);
  }

  lemma LevelForTwo(jobs: seq<Job>, prefix: seq<Job>, key: Job -> Key, a: Key, b: Key)
    requires Level(jobs, prefix, key)
    ensures |Bucket(prefix, key, b)| < |Bucket(jobs, key, b)| ==> |Bucket(prefix, key, a)| <= |Bucket(prefix, key, b)| + 1
  {
  }

  // ---------- Buckets, and how far each has been emptied ----------

  ghost predicate Grouped(jobs: seq<Job>, key: Job -> Key, order: seq<Key>, buckets: seq<seq<Job>>) {
    && |buckets| == |order|
    && (forall i, j :: 0 <= i < j < |order| ==> order[i] != order[j])
    && (forall i :: 0 <= i < |order| ==> buckets[i] == Bucket(jobs, key, order[i]) != [])
    && (forall k :: k !in order ==> Bucket(jobs, key, k) == [])
  }

  method Group(jobs: seq<Job>, key: Job -> Key) returns (order: seq<Key>, buckets: seq<seq<Job>>)
    ensures Grouped(jobs, key, order, buckets)
  {
    order, buckets := [], [];
    var places: map<Key, nat> := map[];
    for i := 0 to |jobs|
      invariant Grouped(jobs[..i], key, order, buckets)
      invariant forall k :: k in places <==> k in order
      invariant forall k :: k in places ==> places[k] < |order| && order[places[k]] == k
    {
      assert jobs[..i + 1] == jobs[..i] + [jobs[i]];
      var k := key(jobs[i]);
      if k in places {
        GroupOld(jobs[..i], jobs[i], key, order, buckets, places[k]);
        buckets := buckets[places[k] := buckets[places[k]] + [jobs[i]]];
      } else {
        GroupNew(jobs[..i], jobs[i], key, order, buckets);
        places := places[k := |order|];
        order, buckets := order + [k], buckets + [[jobs[i]]];
      }
    }
    assert jobs[..|jobs|] == jobs;
  }

  lemma GroupOld(jobs: seq<Job>, job: Job, key: Job -> Key, order: seq<Key>, buckets: seq<seq<Job>>, place: nat)
    requires Grouped(jobs, key, order, buckets) && place < |order| && order[place] == key(job)
    ensures Grouped(jobs + [job], key, order, buckets[place := buckets[place] + [job]])
  {
    forall k
      ensures Bucket(jobs + [job], key, k) == Bucket(jobs, key, k) + if key(job) == k then [job] else []
    {
      BucketSnoc(jobs, job, key, k);
    }
  }

  lemma GroupNew(jobs: seq<Job>, job: Job, key: Job -> Key, order: seq<Key>, buckets: seq<seq<Job>>)
    requires Grouped(jobs, key, order, buckets) && key(job) !in order
    ensures Grouped(jobs + [job], key, order + [key(job)], buckets + [[job]])
  {
    forall k
      ensures Bucket(jobs + [job], key, k) == Bucket(jobs, key, k) + if key(job) == k then [job] else []
    {
      BucketSnoc(jobs, job, key, k);
    }
  }

  function Min(a: nat, b: nat): nat {
    if a < b then a else b
  }

  ghost predicate Emptied(ordered: seq<Job>, key: Job -> Key, order: seq<Key>, buckets: seq<seq<Job>>, next: seq<nat>) {
    && |next| == |buckets| == |order|
    && (forall i :: 0 <= i < |order| ==> next[i] <= |buckets[i]| && Bucket(ordered, key, order[i]) == buckets[i][..next[i]])
    && (forall k :: k !in order ==> Bucket(ordered, key, k) == [])
  }

  predicate InRound(buckets: seq<seq<Job>>, next: seq<nat>, round: nat) {
    && |next| == |buckets|
    && forall i :: 0 <= i < |buckets| ==> next[i] == Min(round, |buckets[i]|) || next[i] == Min(round + 1, |buckets[i]|)
  }

  lemma InRoundIsLevel(jobs: seq<Job>, ordered: seq<Job>, key: Job -> Key, order: seq<Key>, buckets: seq<seq<Job>>,
                       next: seq<nat>, round: nat)
    requires Grouped(jobs, key, order, buckets) && Emptied(ordered, key, order, buckets, next) && InRound(buckets, next, round)
    ensures Level(jobs, ordered, key)
  {
    forall a, b | |Bucket(ordered, key, b)| < |Bucket(jobs, key, b)|
      ensures |Bucket(ordered, key, a)| <= |Bucket(ordered, key, b)| + 1
    {
      NobodyIsAhead(jobs, ordered, key, order, buckets, next, round, a, b);
    }
  }

  lemma NobodyIsAhead(jobs: seq<Job>, ordered: seq<Job>, key: Job -> Key, order: seq<Key>, buckets: seq<seq<Job>>,
                      next: seq<nat>, round: nat, a: Key, b: Key)
    requires Grouped(jobs, key, order, buckets) && Emptied(ordered, key, order, buckets, next) && InRound(buckets, next, round)
    requires |Bucket(ordered, key, b)| < |Bucket(jobs, key, b)|
    ensures |Bucket(ordered, key, a)| <= |Bucket(ordered, key, b)| + 1
  {
    var j :| 0 <= j < |order| && order[j] == b;
    AtItsTurn(jobs, ordered, key, order, buckets, next, round, j);
    if a in order {
      var i :| 0 <= i < |order| && order[i] == a;
      AtItsTurn(jobs, ordered, key, order, buckets, next, round, i);
    }
  }

  lemma AtItsTurn(jobs: seq<Job>, ordered: seq<Job>, key: Job -> Key, order: seq<Key>, buckets: seq<seq<Job>>,
                  next: seq<nat>, round: nat, i: nat)
    requires Grouped(jobs, key, order, buckets) && Emptied(ordered, key, order, buckets, next) && InRound(buckets, next, round)
    requires i < |order|
    ensures |Bucket(ordered, key, order[i])| == next[i] && |Bucket(jobs, key, order[i])| == |buckets[i]|
    ensures next[i] <= round + 1 && (next[i] < |buckets[i]| ==> next[i] >= round)
  {
  }

  // Taking the next job of one bucket in its round keeps all turns level.
  lemma TakeNext(jobs: seq<Job>, ordered: seq<Job>, key: Job -> Key, order: seq<Key>, buckets: seq<seq<Job>>,
                 next: seq<nat>, round: nat, i: nat)
    requires Grouped(jobs, key, order, buckets) && Emptied(ordered, key, order, buckets, next) && InRound(buckets, next, round)
    requires TakesTurns(jobs, ordered, key)
    requires i < |order| && next[i] == round < |buckets[i]|
    ensures var more, after := ordered + [buckets[i][round]], next[i := round + 1];
      Emptied(more, key, order, buckets, after) && InRound(buckets, after, round) && TakesTurns(jobs, more, key)
  {
    var job := buckets[i][round];
    BucketMembers(jobs, key, order[i], round);
    OneLessLeft(jobs, ordered, key, order, buckets, next, round, i);
    InRoundIsLevel(jobs, ordered + [job], key, order, buckets, next[i := round + 1], round);
    OneMoreTurn(jobs, ordered, key, job);
  }

  lemma OneLessLeft(jobs: seq<Job>, ordered: seq<Job>, key: Job -> Key, order: seq<Key>, buckets: seq<seq<Job>>,
                    next: seq<nat>, round: nat, i: nat)
    requires Grouped(jobs, key, order, buckets) && Emptied(ordered, key, order, buckets, next)
    requires i < |order| && next[i] == round < |buckets[i]| && key(buckets[i][round]) == order[i]
    ensures Emptied(ordered + [buckets[i][round]], key, order, buckets, next[i := round + 1])
  {
    var job := buckets[i][round];
    forall k
      ensures Bucket(ordered + [job], key, k) == Bucket(ordered, key, k) + if key(job) == k then [job] else []
    {
      BucketSnoc(ordered, job, key, k);
    }
    assert buckets[i][..round + 1] == buckets[i][..round] + [job];
  }

  lemma OneMoreTurn(jobs: seq<Job>, ordered: seq<Job>, key: Job -> Key, job: Job)
    requires TakesTurns(jobs, ordered, key) && Level(jobs, ordered + [job], key)
    ensures TakesTurns(jobs, ordered + [job], key)
  {
    var more := ordered + [job];
    forall p | 0 <= p <= |more|
      ensures Level(jobs, more[..p], key)
    {
      if p < |more| {
        assert more[..p] == ordered[..p];
      } else {
        assert more[..p] == more;
      }
    }
  }

  lemma {:induction false} BucketMembers(jobs: seq<Job>, key: Job -> Key, k: Key, i: nat)
    requires i < |Bucket(jobs, key, k)|
    ensures key(Bucket(jobs, key, k)[i]) == k
  {
    var rest := Bucket(jobs[..|jobs| - 1], key, k);
    if i < |rest| {
      BucketMembers(jobs[..|jobs| - 1], key, k, i);
    }
  }

  lemma NothingTaken(jobs: seq<Job>, key: Job -> Key, order: seq<Key>, buckets: seq<seq<Job>>)
    requires Grouped(jobs, key, order, buckets)
    ensures var next := seq(|order|, i => 0);
      Emptied([], key, order, buckets, next) && InRound(buckets, next, 0) && TakesTurns(jobs, [], key)
  {
  }

  lemma AllTaken(jobs: seq<Job>, ordered: seq<Job>, key: Job -> Key, order: seq<Key>, buckets: seq<seq<Job>>, next: seq<nat>)
    requires Grouped(jobs, key, order, buckets) && Emptied(ordered, key, order, buckets, next)
    requires forall i :: 0 <= i < |order| ==> next[i] == |buckets[i]|
    ensures SameBuckets(jobs, ordered, key)
  {
    forall k
      ensures Bucket(ordered, key, k) == Bucket(jobs, key, k)
    {
      if k in order {
        var i :| 0 <= i < |order| && order[i] == k;
      }
    }
  }

  lemma {:induction false} BucketIsSmall(jobs: seq<Job>, key: Job -> Key, k: Key)
    ensures |Bucket(jobs, key, k)| <= |jobs|
  {
    if jobs != [] {
      BucketIsSmall(jobs[..|jobs| - 1], key, k);
    }
  }

  // ---------- The two interleavers ----------

  // Round after round over all sources, until a round adds nothing.
  method InterleaveSourceRun(jobs: seq<Job>) returns (result: seq<Job>)
    ensures SameBuckets(jobs, result, SourceKey) && TakesTurns(jobs, result, SourceKey)
  {
    var order, buckets := Group(jobs, SourceKey);
    result := [];
    ghost var next: seq<nat> := seq(|order|, i => 0);
    NothingTaken(jobs, SourceKey, order, buckets);
    var round := 0;
    var added := true;
    while added
      invariant Emptied(result, SourceKey, order, buckets, next) && TakesTurns(jobs, result, SourceKey)
      invariant forall i :: 0 <= i < |order| ==> next[i] == Min(round, |buckets[i]|)
      invariant round <= |jobs| + 1 && (!added ==> forall i :: 0 <= i < |order| ==> next[i] == |buckets[i]|)
      invariant added ==> round <= |jobs|
      decreases |jobs| + 1 - round, added
    {
      added := false;
      for i := 0 to |order|
        invariant Emptied(result, SourceKey, order, buckets, next) && TakesTurns(jobs, result, SourceKey)
        invariant forall j :: 0 <= j < |order| ==> next[j] == Min(if j < i then round + 1 else round, |buckets[j]|)
        invariant added ==> round < |jobs|
        invariant !added ==> forall j :: 0 <= j < i ==> |buckets[j]| <= round
      {
        if round < |buckets[i]| {
          TakeNext(jobs, result, SourceKey, order, buckets, next, round, i);
          BucketIsSmall(jobs, SourceKey, order[i]);
          result := result + [buckets[i][round]];
          next := next[i := round + 1];
          added := true;
        }
      }
      round := round + 1;
    }
    AllTaken(jobs, result, SourceKey, order, buckets, next);
  }

  lemma AllActive(buckets: seq<seq<Job>>, active: seq<nat>)
    requires |active| == |buckets| && forall i :: 0 <= i < |active| ==> active[i] == i
    requires forall i :: 0 <= i < |buckets| ==> buckets[i] != []
    ensures Active(buckets, active, 0)
  {
    forall i: nat
      ensures i in active <==> i < |buckets|
    {
      if i < |buckets| {
        assert active[i] == i;
      }
    }
  }

  // Within a round, some buckets have had their turn and the others have not.
  ghost predicate Halfway(buckets: seq<seq<Job>>, next: seq<nat>, done: set<nat>, round: nat) {
    && |next| == |buckets|
    && forall i: nat :: i < |buckets| ==> next[i] == Min(if i in done then round + 1 else round, |buckets[i]|)
  }

  ghost predicate GoesOn(buckets: seq<seq<Job>>, nextRound: seq<nat>, done: set<nat>, round: nat) {
    && (forall i: nat :: i in nextRound <==> i in done && i < |buckets| && |buckets[i]| > round + 1)
    && (forall b, c :: 0 <= b < c < |nextRound| ==> nextRound[b] != nextRound[c])
  }

  lemma HalfwayStep(buckets: seq<seq<Job>>, next: seq<nat>, done: set<nat>, round: nat, i: nat)
    requires Halfway(buckets, next, done, round) && i < |buckets| && i !in done && round < |buckets[i]|
    ensures next[i] == round && InRound(buckets, next, round) && Halfway(buckets, next[i := round + 1], done + {i}, round)
  {
  }

  lemma GoesOnStep(buckets: seq<seq<Job>>, nextRound: seq<nat>, done: set<nat>, round: nat, i: nat)
    requires GoesOn(buckets, nextRound, done, round) && i < |buckets| && i !in done
    ensures GoesOn(buckets, if round + 1 < |buckets[i]| then nextRound + [i] else nextRound, done + {i}, round)
  {
    assert i !in nextRound;
  }

  lemma AllHalfway(buckets: seq<seq<Job>>, next: seq<nat>, active: seq<nat>, done: set<nat>, round: nat)
    requires Halfway(buckets, next, done, round) && Active(buckets, active, round)
    requires done == First(active, |active|)
    ensures Halfway(buckets, next, {}, round + 1)
    ensures forall i: nat :: i in done <==> i in active
  {
    assert active[..|active|] == active;
  }

  function First(active: seq<nat>, n: nat): set<nat>
    requires n <= |active|
  {
    set i | i in active[..n]
  }

  lemma FirstStep(active: seq<nat>, n: nat)
    requires n < |active| && forall a, b :: 0 <= a < b < |active| ==> active[a] != active[b]
    ensures active[n] in active && active[n] !in First(active, n) && First(active, n + 1) == First(active, n) + {active[n]}
  {
    assert active[..n + 1] == active[..n] + [active[n]];
  }

  // Round after round over the domains that still have jobs.
  method InterleaveFullProbePriorityGroup(jobs: seq<Job>) returns (ordered: seq<Job>)
    ensures SameBuckets(jobs, ordered, DomainKey) && TakesTurns(jobs, ordered, DomainKey)
  {
    var order, buckets := Group(jobs, DomainKey);
    ordered := [];
    var next: seq<nat> := seq(|order|, i => 0);
    NothingTaken(jobs, DomainKey, order, buckets);
    var active: seq<nat> := seq(|order|, i => i);
    AllActive(buckets, active);
    ghost var round := 0;
    while |active| > 0
      invariant Emptied(ordered, DomainKey, order, buckets, next) && TakesTurns(jobs, ordered, DomainKey)
      invariant Halfway(buckets, next, {}, round)
      invariant Active(buckets, active, round) && round <= |jobs|
      decreases |jobs| + 1 - round
    {
      ordered, next, active := TakeRound(jobs, order, buckets, ordered, next, active, round);
      round := round + 1;
    }
    AllTaken(jobs, ordered, DomainKey, order, buckets, next);
  }

  method TakeRound(jobs: seq<Job>, order: seq<Key>, buckets: seq<seq<Job>>, taken: seq<Job>, was: seq<nat>,
                   active: seq<nat>, ghost round: nat)
    returns (ordered: seq<Job>, next: seq<nat>, nextRound: seq<nat>)
    requires Grouped(jobs, DomainKey, order, buckets) && active != []
    requires Emptied(taken, DomainKey, order, buckets, was) && TakesTurns(jobs, taken, DomainKey)
    requires Halfway(buckets, was, {}, round) && Active(buckets, active, round)
    ensures Emptied(ordered, DomainKey, order, buckets, next) && TakesTurns(jobs, ordered, DomainKey)
    ensures Halfway(buckets, next, {}, round + 1) && Active(buckets, nextRound, round + 1) && round < |jobs|
  {
    ordered, next, nextRound := taken, was, [];
    ghost var done: set<nat> := {};
    for a := 0 to |active|
      invariant Emptied(ordered, DomainKey, order, buckets, next) && TakesTurns(jobs, ordered, DomainKey)
      invariant Halfway(buckets, next, done, round) && done == First(active, a)
      invariant GoesOn(buckets, nextRound, done, round)
    {
      var index := active[a];
      FirstStep(active, a);
      HalfwayStep(buckets, next, done, round, index);
      TakeNext(jobs, ordered, DomainKey, order, buckets, next, round, index);
      ordered := ordered + [buckets[index][next[index]]];
      next := next[index := next[index] + 1];
      GoesOnStep(buckets, nextRound, done, round, index);
      if next[index] < |buckets[index]| {
        nextRound := nextRound + [index];
      }
      done := done + {index};
    }
    AllHalfway(buckets, next, active, done, round);
    assert active[0] in active;
    BucketIsSmall(jobs, DomainKey, order[active[0]]);
  }

  ghost predicate Active(buckets: seq<seq<Job>>, active: seq<nat>, round: nat) {
    && (forall a, b :: 0 <= a < b < |active| ==> active[a] != active[b])
    && (forall i: nat :: i in active <==> i < |buckets| && |buckets[i]| > round)
  }

  // ---------- Priority runs stay in place ----------

  // A longest stretch of equal priority.
  predicate IsRun(jobs: seq<Job>, start: int, end: int) {
    && 0 <= start < end <= |jobs|
    && (forall i :: start <= i < end ==> jobs[i].priority == jobs[start].priority)
    && (start > 0 ==> jobs[start - 1].priority != jobs[start].priority)
    && (end < |jobs| ==> jobs[end].priority != jobs[start].priority)
  }

  ghost predicate Interleaved(jobs: seq<Job>, result: seq<Job>, key: Job -> Key) {
    SameBuckets(jobs, result, key) && TakesTurns(jobs, result, key)
  }

  // Every run keeps its place, and within it the buckets take turns.
  ghost predicate RunsInterleaved(jobs: seq<Job>, result: seq<Job>, key: Job -> Key) {
    && |result| == |jobs|
    && forall start, end :: IsRun(jobs, start, end) ==> Interleaved(jobs[start..end], result[start..end], key)
  }

  ghost predicate RunsBefore(jobs: seq<Job>, result: seq<Job>, key: Job -> Key) {
    && |result| <= |jobs|
    && forall start, end :: IsRun(jobs, start, end) && end <= |result| ==> Interleaved(jobs[start..end], result[start..end], key)
  }

  predicate RunStarts(jobs: seq<Job>, start: nat) {
    start <= |jobs| && (0 < start < |jobs| ==> jobs[start - 1].priority != jobs[start].priority)
  }

  method RunEnd(jobs: seq<Job>, start: nat) returns (end: nat)
    requires start < |jobs| && RunStarts(jobs, start)
    ensures IsRun(jobs, start, end) && RunStarts(jobs, end)
  {
    end := start + 1;
    while end < |jobs| && jobs[end].priority == jobs[start].priority
      invariant start < end <= |jobs|
      invariant forall i :: start <= i < end ==> jobs[i].priority == jobs[start].priority
    {
      end := end + 1;
    }
  }

  lemma SameInRun(jobs: seq<Job>, start: int, end: int, i: int, j: int)
    requires IsRun(jobs, start, end) && start <= i < end && start <= j < end
    ensures jobs[i].priority == jobs[j].priority
  {
  }

  lemma RunsDoNotOverlap(jobs: seq<Job>, a: int, b: int, c: int, d: int)
    requires IsRun(jobs, a, b) && IsRun(jobs, c, d) && c < b <= d
    ensures a == c && b == d
  {
    if a < c {
      SameInRun(jobs, a, b, c - 1, c);
    } else if c < a {
      SameInRun(jobs, c, d, a - 1, a);
    } else if b < d {
      SameInRun(jobs, c, d, b, a);
    }
  }

  lemma AppendRun(jobs: seq<Job>, result: seq<Job>, run: seq<Job>, key: Job -> Key, end: nat)
    requires RunsBefore(jobs, result, key) && IsRun(jobs, |result|, end)
    requires Interleaved(jobs[|result|..end], run, key)
    ensures RunsBefore(jobs, result + run, key) && |result + run| == end
  {
    SameBucketsPermute(jobs[|result|..end], run, key);
    forall a, b | IsRun(jobs, a, b) && b <= end
      ensures Interleaved(jobs[a..b], (result + run)[a..b], key)
    {
      if b <= |result| {
        assert (result + run)[a..b] == result[a..b];
      } else {
        RunsDoNotOverlap(jobs, a, b, |result|, end);
        assert (result + run)[a..b] == run;
      }
    }
  }

  lemma RunsCover(jobs: seq<Job>, result: seq<Job>, key: Job -> Key)
    requires RunsBefore(jobs, result, key) && |result| == |jobs|
    ensures RunsInterleaved(jobs, result, key)
  {
  }

  lemma {:induction false} RunFrom(jobs: seq<Job>, start: nat, end: nat) returns (last: nat)
    requires start < end <= |jobs| && RunStarts(jobs, start)
    requires forall i :: start <= i < end ==> jobs[i].priority == jobs[start].priority
    ensures IsRun(jobs, start, last) && RunStarts(jobs, last)
    decreases |jobs| - end
  {
    if end < |jobs| && jobs[end].priority == jobs[start].priority {
      last := RunFrom(jobs, start, end + 1);
    } else {
      last := end;
    }
  }

  // Nothing is lost, added or moved to another priority.
  lemma {:induction false} RunsPermute(jobs: seq<Job>, result: seq<Job>, key: Job -> Key, start: nat)
    requires RunsInterleaved(jobs, result, key) && RunStarts(jobs, start)
    ensures multiset(result[start..]) == multiset(jobs[start..])
    decreases |jobs| - start
  {
    if start < |jobs| {
      var end := RunFrom(jobs, start, start + 1);
      SameBucketsPermute(jobs[start..end], result[start..end], key);
      RunsPermute(jobs, result, key, end);
      InTwoParts(jobs, start, end);
      InTwoParts(result, start, end);
    }
  }

  lemma InTwoParts(jobs: seq<Job>, start: nat, end: nat)
    requires start <= end <= |jobs|
    ensures multiset(jobs[start..]) == multiset(jobs[start..end]) + multiset(jobs[end..])
  {
    assert jobs[start..] == jobs[start..end] + jobs[end..];
  }

  method InterleaveProbeSources(jobs: seq<Job>) returns (result: seq<Job>)
    ensures RunsInterleaved(jobs, result, SourceKey)
  {
    result := [];
    var start := 0;
    while start < |jobs|
      invariant RunsBefore(jobs, result, SourceKey) && |result| == start && RunStarts(jobs, start)
    {
      var end := RunEnd(jobs, start);
      var run := InterleaveSourceRun(jobs[start..end]);
      AppendRun(jobs, result, run, SourceKey, end);
      result := result + run;
      start := end;
    }
    RunsCover(jobs, result, SourceKey);
  }

  method InterleaveFullProbeJobsByFailureDomain(jobs: seq<Job>) returns (ordered: seq<Job>)
    ensures RunsInterleaved(jobs, ordered, DomainKey)
  {
    if |jobs| < 2 {
      FewJobs(jobs);
      return jobs;
    }
    ordered := [];
    var start := 0;
    while start < |jobs|
      invariant RunsBefore(jobs, ordered, DomainKey) && |ordered| == start && RunStarts(jobs, start)
    {
      var end := RunEnd(jobs, start);
      var run := InterleaveFullProbePriorityGroup(jobs[start..end]);
      AppendRun(jobs, ordered, run, DomainKey, end);
      ordered := ordered + run;
      start := end;
    }
    RunsCover(jobs, ordered, DomainKey);
  }

  lemma FewJobs(jobs: seq<Job>)
    requires |jobs| < 2
    ensures RunsInterleaved(jobs, jobs, DomainKey)
  {
    forall start, end | IsRun(jobs, start, end)
      ensures Interleaved(jobs[start..end], jobs[start..end], DomainKey)
    {
      assert jobs[start..end] == jobs;
      forall p | 0 <= p <= |jobs|
        ensures Level(jobs, jobs[..p], DomainKey)
      {
        forall a
          ensures |Bucket(jobs[..p], DomainKey, a)| <= 1
        {
          BucketIsSmall(jobs[..p], DomainKey, a);
        }
      }
    }
  }

  // ---------- Maintenance and discovery share the workers ----------

  function Lane(jobs: seq<Job>, member: Job -> bool): seq<Job> {
    if jobs == [] then []
    else Lane(jobs[..|jobs| - 1], member) + if member(jobs[|jobs| - 1]) then [jobs[|jobs| - 1]] else []
  }

  function Capped(jobs: seq<Job>, limit: int): seq<Job> {
    if limit <= 0 then [] else if |jobs| <= limit then jobs else jobs[..limit]
  }

  // Three maintenance jobs, then one for discovery; an empty lane lends its turns.
  function Merge(maintenance: seq<Job>, discovery: seq<Job>): seq<Job>
    decreases |maintenance| + |discovery|
  {
    if maintenance == [] && discovery == [] then []
    else
      var n, g := Min(3, |maintenance|), Min(1, |discovery|);
      maintenance[..n] + discovery[..g] + Merge(maintenance[n..], discovery[g..])
  }

  // What the merge means: both lanes keep their order, and discovery's job k comes
  // right after exactly 3(k + 1) maintenance jobs, or after all of them.
  lemma {:induction false} MergeIsFair(maintenance: seq<Job>, discovery: seq<Job>, k: nat)
    requires k < |discovery|
    ensures |Merge(maintenance, discovery)| == |maintenance| + |discovery|
    ensures Merge(maintenance, discovery)[k + Min(3 * (k + 1), |maintenance|)] == discovery[k]
    decreases |maintenance| + |discovery|
  {
    var n := Min(3, |maintenance|);
    MergeLength(maintenance, discovery);
    if k > 0 {
      MergeIsFair(maintenance[n..], discovery[1..], k - 1);
      assert Min(3 * (k + 1), |maintenance|) == n + Min(3 * k, |maintenance| - n);
    }
  }

  lemma {:induction false} MergeLength(maintenance: seq<Job>, discovery: seq<Job>)
    ensures |Merge(maintenance, discovery)| == |maintenance| + |discovery|
    decreases |maintenance| + |discovery|
  {
    if maintenance != [] || discovery != [] {
      var n := Min(3, |maintenance|);
      MergeLength(maintenance[n..], discovery[Min(1, |discovery|)..]);
    }
  }

  lemma {:induction false} LaneConcat(a: seq<Job>, b: seq<Job>, member: Job -> bool)
    ensures Lane(a + b, member) == Lane(a, member) + Lane(b, member)
  {
    if b == [] {
      assert a + b == a;
    } else {
      assert (a + b)[..|a + b| - 1] == a + b[..|b| - 1];
      LaneConcat(a, b[..|b| - 1], member);
    }
  }

  lemma {:induction false} LaneOfMembers(jobs: seq<Job>, member: Job -> bool, all: bool)
    requires forall job :: job in jobs ==> member(job) == all
    ensures Lane(jobs, member) == if all then jobs else []
  {
    if jobs != [] {
      LaneOfMembers(jobs[..|jobs| - 1], member, all);
      assert jobs == jobs[..|jobs| - 1] + [jobs[|jobs| - 1]];
      assert jobs[|jobs| - 1] in jobs;
    }
  }

  lemma {:induction false} MergeKeepsLanes(maintenance: seq<Job>, discovery: seq<Job>, member: Job -> bool, which: bool)
    requires forall job :: job in maintenance ==> member(job) == which
    requires forall job :: job in discovery ==> member(job) == !which
    ensures Lane(Merge(maintenance, discovery), member) == if which then maintenance else discovery
    decreases |maintenance| + |discovery|
  {
    if maintenance != [] || discovery != [] {
      var n, g := Min(3, |maintenance|), Min(1, |discovery|);
      var turn, guest, later, after := maintenance[..n], discovery[..g], maintenance[n..], discovery[g..];
      MergeKeepsLanes(later, after, member, which);
      TurnLane(turn, guest, Merge(later, after), member, which);
      Rejoin(maintenance, n);
      Rejoin(discovery, g);
    }
  }

  lemma Rejoin(jobs: seq<Job>, n: nat)
    requires n <= |jobs|
    ensures jobs == jobs[..n] + jobs[n..]
  {
  }

  lemma HeadLane(turn: seq<Job>, guest: seq<Job>, member: Job -> bool, which: bool)
    requires forall job :: job in turn ==> member(job) == which
    requires forall job :: job in guest ==> member(job) == !which
    ensures Lane(turn + guest, member) == if which then turn else guest
  {
    LaneConcat(turn, guest, member);
    LaneOfMembers(turn, member, which);
    LaneOfMembers(guest, member, !which);
    if which {
      assert turn + [] == turn;
    } else {
      assert [] + guest == guest;
    }
  }

  lemma TurnLane(turn: seq<Job>, guest: seq<Job>, rest: seq<Job>, member: Job -> bool, which: bool)
    requires forall job :: job in turn ==> member(job) == which
    requires forall job :: job in guest ==> member(job) == !which
    ensures Lane(turn + guest + rest, member) == (if which then turn else guest) + Lane(rest, member)
  {
    LaneConcat(turn + guest, rest, member);
    HeadLane(turn, guest, member, which);
  }

  lemma {:induction false} LaneMembers(jobs: seq<Job>, member: Job -> bool)
    ensures forall job :: job in Lane(jobs, member) ==> member(job)
  {
    if jobs != [] {
      LaneMembers(jobs[..|jobs| - 1], member);
    }
  }

  const PRIORITY_ONE_SUCCESS := 3
  const PRIORITY_WORKING_POOL := 5
  const PRIORITY_ASSIGNED := 6

  predicate IsMaintenance(job: Job) {
    job.priority == PRIORITY_ASSIGNED || job.priority == PRIORITY_WORKING_POOL || job.priority == PRIORITY_ONE_SUCCESS
  }

  predicate IsDiscovery(job: Job) {
    !IsMaintenance(job)
  }

  lemma FairLanes(maintenance: seq<Job>, discovery: seq<Job>, jobs: seq<Job>, limit: int)
    requires maintenance == Capped(Lane(jobs, IsMaintenance), 3 * limit) && discovery == Capped(Lane(jobs, IsDiscovery), limit)
    ensures var result := Merge(maintenance, discovery);
      && Lane(result, IsMaintenance) == maintenance && Lane(result, IsDiscovery) == discovery
      && |result| == |maintenance| + |discovery|
      && forall k :: 0 <= k < |discovery| ==> result[k + Min(3 * (k + 1), |maintenance|)] == discovery[k]
  {
    LaneMembers(jobs, IsMaintenance);
    LaneMembers(jobs, IsDiscovery);
    assert forall job :: job in maintenance ==> job in Lane(jobs, IsMaintenance);
    assert forall job :: job in discovery ==> job in Lane(jobs, IsDiscovery);
    MergeKeepsLanes(maintenance, discovery, IsMaintenance, true);
    MergeKeepsLanes(maintenance, discovery, IsDiscovery, false);
    MergeLength(maintenance, discovery);
    forall k | 0 <= k < |discovery|
      ensures Merge(maintenance, discovery)[k + Min(3 * (k + 1), |maintenance|)] == discovery[k]
    {
      MergeIsFair(maintenance, discovery, k);
    }
  }

  method FairProbeJobs(jobs: seq<Job>, explorationLimit: int) returns (result: seq<Job>)
    ensures Lane(result, IsMaintenance) == Capped(Lane(jobs, IsMaintenance), 3 * explorationLimit)
    ensures Lane(result, IsDiscovery) == Capped(Lane(jobs, IsDiscovery), explorationLimit)
    ensures var maintenance, discovery := Lane(result, IsMaintenance), Lane(result, IsDiscovery);
      |result| == |maintenance| + |discovery|
      && forall k :: 0 <= k < |discovery| ==> result[k + Min(3 * (k + 1), |maintenance|)] == discovery[k]
  {
    var maintenance, discovery := SplitLanes(jobs, explorationLimit);
    FairLanes(maintenance, discovery, jobs, explorationLimit);
    result := MergeLanes(maintenance, discovery);
  }

  method SplitLanes(jobs: seq<Job>, explorationLimit: int) returns (maintenance: seq<Job>, discovery: seq<Job>)
    ensures maintenance == Capped(Lane(jobs, IsMaintenance), 3 * explorationLimit)
    ensures discovery == Capped(Lane(jobs, IsDiscovery), explorationLimit)
  {
    maintenance, discovery := [], [];
    for i := 0 to |jobs|
      invariant maintenance == Capped(Lane(jobs[..i], IsMaintenance), 3 * explorationLimit)
      invariant discovery == Capped(Lane(jobs[..i], IsDiscovery), explorationLimit)
    {
      var job := jobs[i];
      assert jobs[..i + 1][..i] == jobs[..i];
      if job.priority == PRIORITY_ASSIGNED || job.priority == PRIORITY_WORKING_POOL || job.priority == PRIORITY_ONE_SUCCESS {
        if |maintenance| < 3 * explorationLimit {
          maintenance := maintenance + [job];
        }
      } else if |discovery| < explorationLimit {
        discovery := discovery + [job];
      }
    }
    assert jobs[..|jobs|] == jobs;
  }

  method MergeLanes(m: seq<Job>, d: seq<Job>) returns (result: seq<Job>)
    ensures result == Merge(m, d)
  {
    var maintenance, discovery := m, d;
    result := [];
    while |maintenance| > 0 || |discovery| > 0
      invariant Merge(m, d) == result + Merge(maintenance, discovery)
      decreases |maintenance| + |discovery|
    {
      var n, g := Min(3, |maintenance|), Min(1, |discovery|);
      if g > 0 {
        FullTurn(result, maintenance, discovery);
      } else {
        LoneTurn(result, maintenance);
      }
      result := result + maintenance[..n];
      maintenance := maintenance[n..];
      if g > 0 {
        result := result + [discovery[0]];
        discovery := discovery[1..];
      }
    }
  }

  lemma FullTurn(result: seq<Job>, maintenance: seq<Job>, discovery: seq<Job>)
    requires discovery != []
    ensures var n := Min(3, |maintenance|);
      result + Merge(maintenance, discovery) == result + maintenance[..n] + [discovery[0]] + Merge(maintenance[n..], discovery[1..])
  {
    assert discovery[..1] == [discovery[0]];
    var n := Min(3, |maintenance|);
    Regroup(result, maintenance[..n], discovery[..1], Merge(maintenance[n..], discovery[1..]));
  }

  lemma Regroup(result: seq<Job>, a: seq<Job>, b: seq<Job>, rest: seq<Job>)
    ensures result + (a + b + rest) == result + a + b + rest
  {
  }

  lemma LoneTurn(result: seq<Job>, maintenance: seq<Job>)
    requires maintenance != []
    ensures var n := Min(3, |maintenance|);
      result + Merge(maintenance, []) == result + maintenance[..n] + Merge(maintenance[n..], [])
  {
    var none: seq<Job> := [];
    assert none[..0] == none && none[0..] == none;
    var n := Min(3, |maintenance|);
    Regroup(result, maintenance[..n], none, Merge(maintenance[n..], none));
  }
}
