// What the bounded cover search is meant to compute: the first covering pool in
// the preorder of index-increasing pools, said without a stack and without slices.
module CoverSpec {
  import opened Wrappers
  import opened PoolKey

  datatype Evaluation = Evaluation(satisfied: set<string>, witnessIDs: seq<string>)

  type Evaluate = (seq<Candidate>, Option<seq<string>>) -> Evaluation

  predicate Complete(evaluation: Evaluation, required: seq<string>) {
    |evaluation.satisfied| == |required|
  }

  function Missing(evaluation: Evaluation, required: seq<string>): (missing: seq<string>)
    ensures forall r :: r in missing <==> r in required && r !in evaluation.satisfied
  {
    if required == [] then []
    else (if required[0] in evaluation.satisfied then [] else [required[0]]) + Missing(evaluation, required[1..])
  }

  predicate Distinct<T(==)>(items: seq<T>) {
    forall i, j :: 0 <= i < j < |items| ==> items[i] != items[j]
  }

  lemma {:induction false} DistinctCount<T>(items: seq<T>)
    requires Distinct(items)
    ensures |set x | x in items| == |items|
  {
    if items != [] {
      DistinctCount(items[1..]);
      assert (set x | x in items) == (set x | x in items[1..]) + {items[0]};
    }
  }

  lemma SubsetOfSameSize<T>(a: set<T>, b: set<T>)
    requires a <= b && |a| == |b|
    ensures a == b
  {
    var rest := b - a;
    assert b == a + rest;
  }

  // The planner only compares counts. For an evaluation that reports nothing but
  // requirements, drawn from a list without repetitions, the count decides coverage.
  lemma CompleteMeansNothingMissing(evaluation: Evaluation, required: seq<string>)
    requires Distinct(required)
    requires forall r :: r in evaluation.satisfied ==> r in required
    ensures Complete(evaluation, required) <==> Missing(evaluation, required) == []
  {
    var all := set r | r in required;
    DistinctCount(required);
    if Complete(evaluation, required) {
      SubsetOfSameSize(evaluation.satisfied, all);
    }
    if Missing(evaluation, required) != [] {
      assert Missing(evaluation, required)[0] in Missing(evaluation, required);
    } else {
      assert forall r :: r in required ==> r in evaluation.satisfied || r in Missing(evaluation, required);
      assert evaluation.satisfied == all;
    }
  }

  // p is visited before q: it is a proper prefix, or branches off to the left.
  ghost predicate Before(p: seq<nat>, q: seq<nat>) {
    exists i :: 0 <= i <= |p| && i <= |q| && Splits(p, q, i)
  }

  predicate Splits(p: seq<nat>, q: seq<nat>, i: nat)
    requires i <= |p| && i <= |q|
  {
    p[..i] == q[..i] && i < |q| && (i == |p| || p[i] < q[i])
  }

  datatype Frame = Frame(pool: seq<nat>, next: nat, evaluated: bool)

  datatype Problem = Problem(ordered: seq<Candidate>, required: seq<string>, limit: nat, eval: Evaluate) {
    // An index-ordered pool of at most `limit` candidates.
    predicate Pool(p: seq<nat>) {
      && |p| <= limit
      && (forall i :: 0 <= i < |p| ==> p[i] < |ordered|)
      && (forall i, j :: 0 <= i < j < |p| ==> p[i] < p[j])
    }

    function Pick(p: seq<nat>): (pool: seq<Candidate>)
      requires Pool(p)
      ensures |pool| == |p| && forall i :: 0 <= i < |p| ==> pool[i] == ordered[p[i]]
    {
      seq(|p|, i requires 0 <= i < |p| => ordered[p[i]])
    }

    predicate Covers(p: seq<nat>)
      requires Pool(p)
    {
      Complete(eval(Pick(p), Some(required)), required)
    }

    predicate Node(pool: seq<nat>, next: nat) {
      Pool(pool) && next <= |ordered| && (pool != [] ==> pool[|pool| - 1] < next)
    }

    // The first covering pool below `pool` that continues with an index >= next.
    function Below(pool: seq<nat>, next: nat): (found: Option<seq<nat>>)
      requires Node(pool, next)
      ensures found.Some? ==> Pool(found.value)
      decreases limit - |pool|, |ordered| - next
    {
      if |pool| == limit || next == |ordered| then None
      else
        var child := pool + [next];
        if Covers(child) then Some(child)
        else
          var found := Below(child, next + 1);
          if found.Some? then found else Below(pool, next + 1)
    }

    function First(): (found: Option<seq<nat>>)
      ensures found.Some? ==> Pool(found.value)
    {
      if Covers([]) then Some([]) else Below([], 0)
    }

    predicate Legal(frames: seq<Frame>) {
      forall f :: f in frames ==> Node(f.pool, f.next)
    }

    // What a stack of frames has still to deliver.
    function Pending(frames: seq<Frame>): (found: Option<seq<nat>>)
      requires Legal(frames)
      ensures found.Some? ==> Pool(found.value)
    {
      if frames == [] then None
      else
        var top := frames[|frames| - 1];
        if !top.evaluated && Covers(top.pool) then Some(top.pool)
        else
          var found := Below(top.pool, top.next);
          if found.Some? then found else Pending(frames[..|frames| - 1])
    }

    // Loop steps left for a frame at distance `depth` from the limit.
    function Steps(depth: nat, next: nat): (n: nat)
      requires next <= |ordered|
      ensures n > 0
      decreases depth, |ordered| - next
    {
      if depth == 0 || next == |ordered| then 1
      else 1 + Steps(depth - 1, next + 1) + Steps(depth, next + 1)
    }

    function StackSteps(frames: seq<Frame>): nat
      requires Legal(frames)
    {
      if frames == [] then 0
      else
        var top := frames[|frames| - 1];
        Steps(limit - |top.pool|, top.next) + StackSteps(frames[..|frames| - 1])
    }

    lemma StackStepsPush(frames: seq<Frame>, f: Frame)
      requires Legal(frames) && Node(f.pool, f.next)
      ensures Legal(frames + [f])
      ensures StackSteps(frames + [f]) == StackSteps(frames) + Steps(limit - |f.pool|, f.next)
    {
      assert (frames + [f])[..|frames|] == frames;
    }

    // One loop step of the search once the top frame is known not to cover: open
    // its next child, or drop it.
    function Advanced(frames: seq<Frame>): seq<Frame>
      requires Legal(frames) && frames != []
    {
      var top, rest := frames[|frames| - 1], frames[..|frames| - 1];
      if |top.pool| < limit && top.next < |ordered| then
        rest + [Frame(top.pool, top.next + 1, true)] + [Frame(top.pool + [top.next], top.next + 1, false)]
      else rest
    }

    // The step neither loses nor adds an answer, and there is one step less to go.
    lemma AdvancedKeeps(frames: seq<Frame>)
      requires Legal(frames) && frames != []
      requires frames[|frames| - 1].evaluated || !Covers(frames[|frames| - 1].pool)
      ensures Legal(Advanced(frames))
      ensures Pending(Advanced(frames)) == Pending(frames)
      ensures StackSteps(Advanced(frames)) < StackSteps(frames)
    {
      var top, rest := frames[|frames| - 1], frames[..|frames| - 1];
      assert frames == rest + [top];
      StackStepsPush(rest, top);
      PendingPush(rest, top);
      if |top.pool| < limit && top.next < |ordered| {
        PushedKeeps(rest, top);
      }
    }

    lemma PushedKeeps(rest: seq<Frame>, top: Frame)
      requires Legal(rest) && Node(top.pool, top.next) && |top.pool| < limit && top.next < |ordered|
      ensures var parent := Frame(top.pool, top.next + 1, true);
        var child := Frame(top.pool + [top.next], top.next + 1, false);
        var pushed := rest + [parent] + [child];
        && Legal(pushed)
        && Pending(pushed) ==
            (if Below(top.pool, top.next).Some? then Below(top.pool, top.next) else Pending(rest))
        && StackSteps(pushed) < StackSteps(rest) + Steps(limit - |top.pool|, top.next)
    {
      var parent := Frame(top.pool, top.next + 1, true);
      var child := Frame(top.pool + [top.next], top.next + 1, false);
      assert Node(child.pool, child.next);
      assert Legal(rest + [parent]) && Pending(rest + [parent]) ==
        (if Below(top.pool, top.next + 1).Some? then Below(top.pool, top.next + 1) else Pending(rest)) by {
        PendingPush(rest, parent);
      }
      PendingPush(rest + [parent], child);
      PushedSteps(rest, parent, child);
    }

    lemma PushedSteps(rest: seq<Frame>, parent: Frame, child: Frame)
      requires Legal(rest) && Legal(rest + [parent]) && Legal(rest + [parent] + [child])
      requires Node(parent.pool, parent.next) && Node(child.pool, child.next)
      requires |child.pool| == |parent.pool| + 1 && child.next == parent.next > 0
      ensures StackSteps(rest + [parent] + [child]) < StackSteps(rest) + Steps(limit - |parent.pool|, parent.next - 1)
    {
      StackStepsPush(rest, parent);
      StackStepsPush(rest + [parent], child);
    }

    lemma PendingPush(rest: seq<Frame>, top: Frame)
      requires Legal(rest) && Node(top.pool, top.next)
      ensures Legal(rest + [top])
      ensures Pending(rest + [top]) ==
        if !top.evaluated && Covers(top.pool) then Some(top.pool)
        else if Below(top.pool, top.next).Some? then Below(top.pool, top.next)
        else Pending(rest)
    {
      assert (rest + [top])[..|rest|] == rest;
    }

    ghost predicate Extends(q: seq<nat>, pool: seq<nat>, next: nat) {
      Pool(q) && |pool| < |q| && q[..|pool|] == pool && q[|pool|] >= next
    }

    ghost predicate NotAfter(found: Option<seq<nat>>, q: seq<nat>) {
      found.Some? && (q == found.value || Before(found.value, q))
    }

    ghost predicate FirstOf(found: Option<seq<nat>>, pool: seq<nat>, next: nat) {
      && (found.Some? ==> Extends(found.value, pool, next) && Covers(found.value))
      && (forall q :: Extends(q, pool, next) && Covers(q) ==> NotAfter(found, q))
    }

    // `Below` finds the first of all covering pools it is responsible for, and
    // misses none.
    lemma {:induction false} BelowIsFirst(pool: seq<nat>, next: nat)
      requires Node(pool, next)
      ensures FirstOf(Below(pool, next), pool, next)
      decreases limit - |pool|, |ordered| - next
    {
      if |pool| < limit && next < |ordered| {
        var child := pool + [next];
        if !Covers(child) {
          BelowIsFirst(child, next + 1);
          BelowIsFirst(pool, next + 1);
        }
        var found := Below(pool, next);
        BelowExtends(pool, next);
        forall q | Extends(q, pool, next) && Covers(q)
          ensures NotAfter(found, q)
        {
          BelowStep(pool, next, q);
        }
      }
    }

    lemma BelowExtends(pool: seq<nat>, next: nat)
      requires Node(pool, next) && |pool| < limit && next < |ordered|
      requires !Covers(pool + [next]) ==>
        FirstOf(Below(pool + [next], next + 1), pool + [next], next + 1) && FirstOf(Below(pool, next + 1), pool, next + 1)
      ensures Below(pool, next).Some? ==> Extends(Below(pool, next).value, pool, next) && Covers(Below(pool, next).value)
    {
      var found, child := Below(pool, next), pool + [next];
      if !Covers(child) && found.Some? && found == Below(child, next + 1) {
        ExtendsChild(found.value, pool, next);
      }
    }

    lemma ExtendsChild(q: seq<nat>, pool: seq<nat>, next: nat)
      requires Extends(q, pool + [next], next + 1)
      ensures Extends(q, pool, next) && q[|pool|] == next
    {
      var child := pool + [next];
      assert q[..|pool|] == q[..|child|][..|pool|] == child[..|pool|];
      assert q[|pool|] == q[..|child|][|pool|];
    }

    lemma BelowStep(pool: seq<nat>, next: nat, q: seq<nat>)
      requires Node(pool, next) && |pool| < limit && next < |ordered|
      requires !Covers(pool + [next]) ==>
        FirstOf(Below(pool + [next], next + 1), pool + [next], next + 1) && FirstOf(Below(pool, next + 1), pool, next + 1)
      requires Extends(q, pool, next) && Covers(q)
      ensures NotAfter(Below(pool, next), q)
    {
      var child := pool + [next];
      SubtreeCases(q, pool, next);
      if q[|pool|] == next {
        if Covers(child) && q != child {
          assert Splits(child, q, |child|);
        }
      } else {
        assert Extends(q, pool, next + 1);
        if Covers(child) {
          assert Splits(child, q, |pool|);
        } else if Below(child, next + 1).Some? {
          var first := Below(child, next + 1).value;
          ExtendsChild(first, pool, next);
          assert Splits(first, q, |pool|);
        }
      }
    }

    lemma SubtreeCases(q: seq<nat>, pool: seq<nat>, next: nat)
      requires Extends(q, pool, next)
      ensures q[|pool|] == next ==> q == pool + [next] || Extends(q, pool + [next], next + 1)
    {
      if q[|pool|] == next {
        assert q[..|pool| + 1] == pool + [next];
      }
    }

    // The search as a whole: the answer is the first covering pool of at most
    // `limit` index-ordered candidates, and there is none only if no pool covers.
    lemma FirstIsFirst()
      ensures var found := First();
        && (found.Some? ==> Covers(found.value))
        && (forall q :: Pool(q) && Covers(q) ==> found.Some? && (q == found.value || Before(found.value, q)))
    {
      BelowIsFirst([], 0);
      var found := First();
      forall q | Pool(q) && Covers(q)
        ensures found.Some? && (q == found.value || Before(found.value, q))
      {
        if q != [] {
          assert Extends(q, [], 0);
          if found == Some([]) {
            assert Splits([], q, 0);
          }
        }
      }
    }

    lemma PendingOfRoot()
      ensures Legal([Frame([], 0, false)])
      ensures Pending([Frame([], 0, false)]) == First()
    {
      var frames := [Frame([], 0, false)];
      assert Legal(frames);
      assert frames[..0] == [];
      assert Pending([]) == None;
    }
  }
}
