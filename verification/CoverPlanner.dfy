// The planner around the search: the full pool first, then its witness, then a
// greedy pass, then the exhaustive search. It is cut into slices; a slice may end
// in the middle of any evaluation and the next one picks the evaluation up.
module CoverPlanner {
  import opened Wrappers
  import opened PoolKey
  import opened CoverSpec
  import Strings

  datatype Phase = Full | Witness | Greedy | Search

  datatype Task = Task(pool: seq<Candidate>, required: Option<seq<string>>)

  datatype Reply = Value(evaluation: Evaluation) | Expired | Failed | Mismatch

  datatype Slice = Done(pool: Option<seq<Candidate>>) | Interrupted(reply: Reply)

  const Nothing := Evaluation({}, [])

  // ---------- The verdict, as if every evaluation came back at once ----------

  datatype GreedyState = GreedyState(
    selected: seq<Candidate>, selectedIDs: set<string>, current: Evaluation,
    cursor: nat, bestID: string, best: Evaluation, bestGain: nat)
  {
    ghost predicate Valid(p: Problem) {
      && |selected| <= p.limit && cursor <= |p.ordered|
      && (forall c :: c in selected ==> c in p.ordered)
      && selectedIDs == (set c | c in selected :: c.id)
      && (current == Nothing || current == p.eval(selected, Some(p.required)))
      && (bestID != "" ==> |selected| < p.limit && BestFrom(p))
    }

    ghost predicate BestFrom(p: Problem) {
      exists c :: c in p.ordered && c.id == bestID && best == p.eval(selected + [c], Some(p.required))
    }

    function Score(c: Candidate, e: Evaluation): GreedyState {
      if |e.satisfied| > bestGain
      then this.(cursor := cursor + 1, bestID := c.id, bestGain := |e.satisfied|, best := e)
      else this.(cursor := cursor + 1)
    }

    function Adopt(c: Candidate): GreedyState {
      GreedyState(selected + [c], selectedIDs + {c.id}, best, 0, "", Nothing, |best.satisfied|)
    }
  }

  function Start(selected: seq<Candidate>, current: Evaluation): GreedyState {
    GreedyState(selected, set c | c in selected :: c.id, current, 0, "", Nothing, |current.satisfied|)
  }

  function Lookup(ordered: seq<Candidate>, id: string): (c: Candidate)
    requires exists c :: c in ordered && c.id == id
    ensures c in ordered && c.id == id
  {
    if ordered[0].id == id then ordered[0] else Lookup(ordered[1..], id)
  }

  lemma {:induction false} LookupUnique(ordered: seq<Candidate>, c: Candidate)
    requires Distinct(Ids(ordered)) && c in ordered
    ensures Lookup(ordered, c.id) == c
  {
    var d := Lookup(ordered, c.id);
    var i :| 0 <= i < |ordered| && ordered[i] == c;
    var j :| 0 <= j < |ordered| && ordered[j] == d;
    assert Ids(ordered)[i] == Ids(ordered)[j];
  }

  function FoundPool(p: Problem, found: Option<seq<nat>>): Option<seq<Candidate>>
    requires found.Some? ==> p.Pool(found.value)
  {
    if found.Some? then Some(p.Pick(found.value)) else None
  }

  ghost function GreedyVerdict(p: Problem, g: GreedyState): Option<seq<Candidate>>
    requires g.Valid(p)
    decreases p.limit - |g.selected|, |p.ordered| - g.cursor
  {
    if Complete(g.current, p.required) then Some(g.selected)
    else if |g.selected| == p.limit || g.cursor == |p.ordered| then
      if g.bestID == "" then FoundPool(p, p.First())
      else if Distinct(Ids(p.ordered)) then
        AdoptValid(p, g);
        GreedyVerdict(p, g.Adopt(Lookup(p.ordered, g.bestID)))
      else None
    else
      var c := p.ordered[g.cursor];
      if c.id in g.selectedIDs then GreedyVerdict(p, g.(cursor := g.cursor + 1))
      else
        var trial := g.selected + [c];
        var e := p.eval(trial, Some(p.required));
        if Complete(e, p.required) then Some(trial) else GreedyVerdict(p, g.Score(c, e))
  }

  lemma AdoptValid(p: Problem, g: GreedyState)
    requires g.Valid(p) && g.bestID != "" && Distinct(Ids(p.ordered))
    ensures g.Adopt(Lookup(p.ordered, g.bestID)).Valid(p)
  {
    var c :| c in p.ordered && c.id == g.bestID && g.best == p.eval(g.selected + [c], Some(p.required));
    LookupUnique(p.ordered, c);
  }

  lemma AdoptVerdict(p: Problem, g: GreedyState)
    requires g.Valid(p) && g.bestID != "" && Distinct(Ids(p.ordered))
    requires !Complete(g.current, p.required) && (|g.selected| == p.limit || g.cursor == |p.ordered|)
    ensures g.Adopt(Lookup(p.ordered, g.bestID)).Valid(p)
    ensures GreedyVerdict(p, g) == GreedyVerdict(p, g.Adopt(Lookup(p.ordered, g.bestID)))
  {
    AdoptValid(p, g);
  }

  function Filter(pool: seq<Candidate>, ids: set<string>): (kept: seq<Candidate>)
    ensures forall c :: c in kept ==> c in pool
    ensures |kept| <= |pool|
  {
    if pool == [] then []
    else (if pool[0].id in ids then [pool[0]] else []) + Filter(pool[1..], ids)
  }

  ghost function WitnessVerdict(p: Problem, selected: seq<Candidate>): Option<seq<Candidate>>
    requires |selected| <= p.limit && forall c :: c in selected ==> c in p.ordered
  {
    var e := p.eval(selected, Some(p.required));
    if Complete(e, p.required) then Some(selected) else GreedyVerdict(p, Start(selected, e))
  }

  function Requirements(required: seq<string>, full: Evaluation): seq<string> {
    if required == [] then Strings.Sorted(full.satisfied) else required
  }

  function WitnessSet(full: Evaluation): (ids: set<string>)
    ensures |ids| <= |full.witnessIDs|
  {
    SetOfSeqSize(full.witnessIDs);
    set id | id in full.witnessIDs
  }

  lemma {:induction false} SetOfSeqSize(items: seq<string>)
    ensures |set x | x in items| <= |items|
  {
    if items != [] {
      SetOfSeqSize(items[1..]);
      assert (set x | x in items) == (set x | x in items[1..]) + {items[0]};
    }
  }

  predicate UseWitness(fullPool: seq<Candidate>, limit: nat, full: Evaluation) {
    && 0 < |full.witnessIDs| <= limit
    && |Filter(fullPool, WitnessSet(full))| == |WitnessSet(full)|
  }

  // The verdict of a whole planning run, given the evaluation of the full pool.
  ghost function FullVerdict(fullPool: seq<Candidate>, p: Problem, full: Evaluation): Option<seq<Candidate>>
    requires forall c :: c in fullPool ==> c in p.ordered
  {
    var q := p.(required := Requirements(p.required, full));
    if q.required == [] then None
    else if UseWitness(fullPool, p.limit, full) then WitnessVerdict(q, Filter(fullPool, WitnessSet(full)))
    else GreedyVerdict(q, Start([], Nothing))
  }

  ghost predicate Acceptable(p: Problem, verdict: Option<seq<Candidate>>) {
    match verdict
    case Some(pool) =>
      && |pool| <= p.limit
      && (forall c :: c in pool ==> c in p.ordered)
      && Complete(p.eval(pool, Some(p.required)), p.required)
    case None => forall q :: p.Pool(q) ==> !p.Covers(q)
  }

  lemma {:induction false} GreedyVerdictAcceptable(p: Problem, g: GreedyState)
    requires g.Valid(p) && p.required != [] && Distinct(Ids(p.ordered))
    ensures Acceptable(p, GreedyVerdict(p, g))
    decreases p.limit - |g.selected|, |p.ordered| - g.cursor
  {
    if Complete(g.current, p.required) {
    } else if |g.selected| == p.limit || g.cursor == |p.ordered| {
      if g.bestID == "" {
        p.FirstIsFirst();
      } else {
        AdoptValid(p, g);
        GreedyVerdictAcceptable(p, g.Adopt(Lookup(p.ordered, g.bestID)));
      }
    } else {
      var c := p.ordered[g.cursor];
      var e := p.eval(g.selected + [c], Some(p.required));
      if c.id in g.selectedIDs {
        GreedyVerdictAcceptable(p, g.(cursor := g.cursor + 1));
      } else if !Complete(e, p.required) {
        GreedyVerdictAcceptable(p, g.Score(c, e));
      }
    }
  }

  // Whatever shortcut was taken, a verdict is a covering pool within the limit, or
  // there is nothing to cover, or no index-ordered pool within the limit covers.
  lemma VerdictAcceptable(fullPool: seq<Candidate>, p: Problem, full: Evaluation)
    requires forall c :: c in fullPool ==> c in p.ordered
    requires Distinct(Ids(p.ordered))
    ensures var q := p.(required := Requirements(p.required, full));
      if q.required == [] then FullVerdict(fullPool, p, full) == None
      else Acceptable(q, FullVerdict(fullPool, p, full))
  {
    var q := p.(required := Requirements(p.required, full));
    if q.required != [] {
      if UseWitness(fullPool, p.limit, full) {
        var selected := Filter(fullPool, WitnessSet(full));
        var e := q.eval(selected, Some(q.required));
        if !Complete(e, q.required) {
          GreedyVerdictAcceptable(q, Start(selected, e));
        }
      } else {
        GreedyVerdictAcceptable(q, Start([], Nothing));
      }
    }
  }

  // ---------- The session, as it is kept between slices ----------

  ghost predicate Told(was: seq<Reply>, misses: seq<Reply>, reply: Reply) {
    !reply.Mismatch? && misses == if reply.Value? then was else was + [reply]
  }

  // Nothing but an evaluation that was cut off or failed interrupts a slice.
  ghost predicate CutBy(was: seq<Reply>, misses: seq<Reply>, slice: Option<Slice>) {
    if slice.Some? && slice.value.Interrupted? then
      !slice.value.reply.Value? && Told(was, misses, slice.value.reply)
    else
      misses == was
  }

  class Session {
    const fullPool: seq<Candidate>
    const ordered: seq<Candidate>
    const limit: nat
    const eval: Evaluate
    var required: seq<string>
    var frames: seq<Frame>
    var cached: map<string, Evaluation>
    var phase: Phase
    var initialFull: Option<Evaluation>
    var selected: seq<Candidate>
    var selectedIDs: set<string>
    var current: Evaluation
    var greedyCursor: nat
    var greedyBest: Evaluation
    var greedyBestID: string
    var greedyBestGain: nat
    var pending: Option<Task>
    // How the evaluations that yielded no value ended: with the slice over, or failed.
    ghost var misses: seq<Reply>

    ghost predicate Inventory() {
      && Distinct(Ids(ordered))
      && (forall c :: c in fullPool <==> c in ordered)
    }

    function Problem(): Problem
      reads this
    {
      CoverSpec.Problem(ordered, required, limit, eval)
    }

    ghost function Choice(): GreedyState
      reads this
    {
      GreedyState(selected, selectedIDs, current, greedyCursor, greedyBestID, greedyBest, greedyBestGain)
    }

    ghost predicate CacheExact()
      reads this
    {
      forall pool :: FromOrdered(pool) && Key(pool) in cached ==> cached[Key(pool)] == eval(pool, Some(required))
    }

    ghost predicate FromOrdered(pool: seq<Candidate>) {
      forall c :: c in pool ==> c in ordered
    }

    // The evaluation the planner asks for next; a task left over from an earlier
    // slice must be exactly this one.
    ghost predicate Asks(task: Task)
      reads this
    {
      match phase
      case Full => initialFull == None && task == Task(fullPool, None)
      case Witness => task == Task(selected, Some(required))
      case Greedy =>
        && !Complete(current, required)
        && |selected| != limit && greedyCursor < |ordered|
        && ordered[greedyCursor].id !in selectedIDs
        && task == Task(selected + [ordered[greedyCursor]], Some(required))
      case Search =>
        && frames != []
        && !frames[|frames| - 1].evaluated
        && Problem().Pool(frames[|frames| - 1].pool)
        && var pool := Problem().Pick(frames[|frames| - 1].pool);
           Key(pool) !in cached && task == Task(pool, Some(required))
    }

    ghost predicate Valid()
      reads this
    {
      && Inventory()
      && CacheExact()
      && (phase == Full ==> cached == map[])
      && (phase != Full ==> required != [])
      && (phase == Witness ==> |selected| <= limit && FromOrdered(selected))
      && (phase == Greedy ==> Choice().Valid(Problem()))
      && (phase == Search ==> Problem().Legal(frames))
      && (pending.Some? ==> Asks(pending.value))
    }

    // The verdict this session is bound to reach.
    ghost function Verdict(): Option<seq<Candidate>>
      reads this
      requires Valid()
    {
      match phase
      case Full =>
        FullVerdict(fullPool, Problem(), if initialFull.Some? then initialFull.value else eval(fullPool, None))
      case Witness => WitnessVerdict(Problem(), selected)
      case Greedy => GreedyVerdict(Problem(), Choice())
      case Search => FoundPool(Problem(), Problem().Pending(frames))
    }

    constructor (fullPool: seq<Candidate>, ordered: seq<Candidate>, required: seq<string>, limit: nat,
                 initialFull: Option<Evaluation>, eval: Evaluate)
      requires Distinct(Ids(ordered)) && forall c :: c in fullPool <==> c in ordered
      ensures Valid() && phase == Full && pending == None && misses == []
      ensures Verdict() == FullVerdict(fullPool, CoverSpec.Problem(ordered, required, limit, eval),
                                       if initialFull.Some? then initialFull.value else eval(fullPool, None))
    {
      this.fullPool, this.ordered, this.limit, this.eval := fullPool, ordered, limit, eval;
      this.required, this.initialFull := required, initialFull;
      frames, cached, phase, pending, misses := [], map[], Full, None, [];
      selected, selectedIDs, current := [], {}, Nothing;
      greedyCursor, greedyBest, greedyBestID, greedyBestGain := 0, Nothing, "", 0;
    }

    // One evaluation. The slice may be over before a task is started or before its
    // result is there; it then stays behind. An evaluation may also fail.
    method EvaluatePool(pool: seq<Candidate>, required: Option<seq<string>>) returns (reply: Reply)
      requires pending.Some? ==> pending == Some(Task(pool, required))
      modifies this`pending, this`misses
      ensures Told(old(misses), misses, reply)
      ensures reply.Value? ==> pending == None && reply.evaluation == eval(pool, required)
      ensures pending == None || pending == Some(Task(pool, required))
    {
      if pending == None {
        var over := SliceOver();
        if over {
          return Expired;
        }
        pending := Some(Task(pool, required));
      } else if Key(pending.value.pool) != Key(pool) {
        return Mismatch;
      }
      var over := SliceOver();
      if over {
        return Expired;
      }
      var task := pending.value;
      pending := None;
      var failed := EvaluationFails();
      if failed {
        return Failed;
      }
      return Value(eval(task.pool, task.required));
    }

    method SliceOver() returns (over: bool)
      modifies this`misses
      ensures misses == old(misses) + if over then [Expired] else []
    {
      over := *;
      misses := misses + if over then [Expired] else [];
    }

    method EvaluationFails() returns (failed: bool)
      modifies this`misses
      ensures misses == old(misses) + if failed then [Failed] else []
    {
      failed := *;
      misses := misses + if failed then [Failed] else [];
    }

    // Cancelling the evaluation in flight changes nothing but the work already done.
    method Stop()
      requires Valid()
      modifies this`pending
      ensures Valid() && pending == None && Verdict() == old(Verdict())
    {
      pending := None;
    }

    method MayStop()
      requires Valid()
      modifies this`pending
      ensures Valid() && Verdict() == old(Verdict())
    {
      var cancelled: bool := *;
      if cancelled {
        Stop();
      }
    }

    method InitializeGreedy()
      requires Inventory() && required != [] && CacheExact() && pending == None
      modifies this
      ensures Valid() && phase == Greedy && Choice() == Start([], Nothing)
      ensures unchanged(`required, `cached, `frames, `initialFull, `pending, `misses)
    {
      selected, selectedIDs, current := [], {}, Nothing;
      InitializeGreedyState();
    }

    method InitializeGreedyFromWitness(evaluation: Evaluation)
      requires Inventory() && required != [] && CacheExact() && pending == None
      requires |selected| <= limit && FromOrdered(selected)
      requires evaluation == eval(selected, Some(required))
      modifies this
      ensures Valid() && phase == Greedy && Choice() == Start(old(selected), evaluation)
      ensures unchanged(`required, `cached, `frames, `initialFull, `pending, `misses)
    {
      selectedIDs := set c | c in selected :: c.id;
      current := evaluation;
      InitializeGreedyState();
    }

    method InitializeGreedyState()
      modifies this
      ensures phase == Greedy && greedyCursor == 0 && greedyBest == Nothing && greedyBestID == ""
      ensures greedyBestGain == |current.satisfied|
      ensures unchanged(`required, `cached, `frames, `initialFull, `selected, `selectedIDs, `current, `pending, `misses)
    {
      greedyCursor, greedyBest, greedyBestID := 0, Nothing, "";
      greedyBestGain := |current.satisfied|;
      phase := Greedy;
    }

    // The first phase: fix the requirements, then try the pool the full schedule used.
    method BeginFull() returns (slice: Option<Slice>)
      requires Valid() && phase == Full
      modifies this
      ensures slice.Some? && slice.value.Done? ==> slice.value.pool == old(Verdict())
      ensures slice.None? || slice.value.Interrupted? ==> Valid() && Verdict() == old(Verdict())
      ensures slice.None? ==> phase == Witness || phase == Greedy
      ensures CutBy(old(misses), misses, slice)
    {
      var full;
      if initialFull.Some? {
        full := initialFull.value;
        initialFull := None;
      } else {
        var reply := EvaluatePool(fullPool, None);
        if !reply.Value? {
          return Some(Interrupted(reply));
        }
        full := reply.evaluation;
      }
      slice := ChoosePhase(full);
    }

    method ChoosePhase(full: Evaluation) returns (slice: Option<Slice>)
      requires Inventory() && cached == map[] && pending == None
      modifies this
      ensures misses == old(misses)
      ensures slice.Some? ==> slice == Some(Done(None)) && FullVerdict(fullPool, old(Problem()), full) == None
      ensures slice.None? ==>
        (phase == Witness || phase == Greedy) && Valid() && Verdict() == FullVerdict(fullPool, old(Problem()), full)
    {
      if |required| == 0 {
        required := Strings.Sorted(full.satisfied);
      }
      if |required| == 0 {
        return Some(Done(None));
      }
      if 0 < |full.witnessIDs| <= limit {
        var witnessSet := WitnessSet(full);
        selected := Filter(fullPool, witnessSet);
        if |selected| == |witnessSet| {
          phase := Witness;
          return None;
        }
      }
      InitializeGreedy();
      return None;
    }

    // One step of the greedy pass.
    method GreedyStep() returns (slice: Option<Slice>)
      requires Valid() && phase == Greedy
      modifies this
      ensures slice.Some? && slice.value.Done? ==> slice.value.pool == old(Verdict())
      ensures slice.None? || slice.value.Interrupted? ==> Valid() && Verdict() == old(Verdict())
      ensures CutBy(old(misses), misses, slice)
      ensures slice.None? ==>
        || phase == Search
        || (phase == Greedy && |selected| > old(|selected|))
        || (phase == Greedy && selected == old(selected) && greedyCursor == old(greedyCursor) + 1 <= |ordered|)
    {
      if Complete(current, required) {
        return Some(Done(Some(selected)));
      }
      if |selected| == limit || greedyCursor == |ordered| {
        EndPass();
        return None;
      }
      if ordered[greedyCursor].id in selectedIDs {
        greedyCursor := greedyCursor + 1;
        return None;
      }
      slice := TryCandidate();
    }

    method EndPass()
      requires Valid() && phase == Greedy && pending == None
      requires !Complete(current, required) && (|selected| == limit || greedyCursor == |ordered|)
      modifies this`phase, this`frames, this`selected, this`selectedIDs, this`current, this`greedyCursor,
        this`greedyBestID, this`greedyBest, this`greedyBestGain
      ensures Valid() && Verdict() == old(Verdict())
      ensures phase == Search || (phase == Greedy && |selected| > old(|selected|))
    {
      if greedyBestID == "" {
        phase := Search;
        frames := [Frame([], 0, false)];
        Problem().PendingOfRoot();
      } else {
        AdoptBest();
      }
    }

    method AdoptBest()
      requires Valid() && phase == Greedy && pending == None
      requires !Complete(current, required) && (|selected| == limit || greedyCursor == |ordered|)
      requires greedyBestID != ""
      modifies this`selected, this`selectedIDs, this`current, this`greedyCursor, this`greedyBestID, this`greedyBest,
        this`greedyBestGain
      ensures Valid() && phase == Greedy && Verdict() == old(Verdict())
      ensures |selected| > old(|selected|)
    {
      AdoptVerdict(Problem(), Choice());
      var candidate := Lookup(ordered, greedyBestID);
      Adopt(candidate);
    }

    method Adopt(candidate: Candidate)
      modifies this`selected, this`selectedIDs, this`current, this`greedyCursor, this`greedyBestID, this`greedyBest,
        this`greedyBestGain
      ensures Choice() == old(Choice()).Adopt(candidate)
    {
      selected := selected + [candidate];
      selectedIDs := selectedIDs + {candidate.id};
      current := greedyBest;
      greedyCursor, greedyBestID, greedyBest := 0, "", Nothing;
      greedyBestGain := |current.satisfied|;
    }

    method TryCandidate() returns (slice: Option<Slice>)
      requires Valid() && phase == Greedy
      requires !Complete(current, required) && |selected| < limit && greedyCursor < |ordered|
      requires ordered[greedyCursor].id !in selectedIDs
      modifies this
      ensures slice.Some? && slice.value.Done? ==> slice.value.pool == old(Verdict())
      ensures slice.None? || slice.value.Interrupted? ==> Valid() && phase == Greedy && Verdict() == old(Verdict())
      ensures CutBy(old(misses), misses, slice)
      ensures slice.None? ==> selected == old(selected) && greedyCursor == old(greedyCursor) + 1
    {
      var candidate := ordered[greedyCursor];
      greedyCursor := greedyCursor + 1;
      var trial := selected + [candidate];
      var reply := EvaluatePool(trial, Some(required));
      if !reply.Value? {
        // The cursor advances only after the evaluation has completed.
        greedyCursor := greedyCursor - 1;
        assert Choice() == old(Choice()) && Problem() == old(Problem());
        return Some(Interrupted(reply));
      }
      Remember(trial, reply.evaluation);
      if Complete(reply.evaluation, required) {
        return Some(Done(Some(trial)));
      }
      ScoreCandidate(candidate, reply.evaluation, Choice().(cursor := greedyCursor - 1));
      return None;
    }

    // A candidate that gains more than the best so far becomes the best.
    method ScoreCandidate(candidate: Candidate, evaluation: Evaluation, ghost was: GreedyState)
      requires Inventory() && CacheExact() && required != [] && phase == Greedy && pending == None
      requires was == Choice().(cursor := was.cursor) && greedyCursor == was.cursor + 1 && was.Valid(Problem())
      requires !Complete(current, required) && |selected| < limit && greedyCursor <= |ordered|
      requires candidate == ordered[was.cursor] && candidate.id !in selectedIDs
      requires evaluation == eval(selected + [candidate], Some(required)) && !Complete(evaluation, required)
      modifies this`greedyBestID, this`greedyBestGain, this`greedyBest
      ensures Valid() && Verdict() == GreedyVerdict(old(Problem()), was)
    {
      if |evaluation.satisfied| > greedyBestGain {
        greedyBestID := candidate.id;
        greedyBestGain := |evaluation.satisfied|;
        greedyBest := evaluation;
      }
      assert Choice() == was.Score(candidate, evaluation);
      assert Problem() == old(Problem());
    }

    method Remember(trial: seq<Candidate>, evaluation: Evaluation)
      requires Inventory() && CacheExact() && FromOrdered(trial)
      requires evaluation == eval(trial, Some(required))
      modifies this`cached
      ensures CacheExact()
    {
      forall pool | FromOrdered(pool) && Key(pool) == Key(trial)
        ensures pool == trial
      {
        SamePool(pool, trial);
      }
      cached := cached[Key(trial) := evaluation];
    }

    lemma SamePool(left: seq<Candidate>, right: seq<Candidate>)
      requires Inventory() && FromOrdered(left) && FromOrdered(right) && Key(left) == Key(right)
      ensures left == right
    {
      KeyInjective(left, right);
      forall i | 0 <= i < |left|
        ensures left[i] == right[i]
      {
        assert Ids(left)[i] == Ids(right)[i];
        LookupUnique(ordered, left[i]);
        LookupUnique(ordered, right[i]);
      }
    }

    // The exhaustive search over its own stack of frames.
    method ResumeSearch() returns (slice: Slice)
      requires Valid() && phase == Search
      modifies this
      ensures slice.Done? ==> slice.pool == old(Verdict())
      ensures slice.Interrupted? ==> Valid() && Verdict() == old(Verdict())
      ensures CutBy(old(misses), misses, Some(slice))
    {
      while frames != []
        invariant Valid() && phase == Search
        invariant Verdict() == old(Verdict()) && misses == old(misses)
        decreases Problem().StackSteps(frames)
      {
        var early := VisitTop();
        if early.Some? {
          return early.value;
        }
        Advance();
      }
      return Done(None);
    }

    // The pool of the top frame is evaluated when it has not been yet; one that covers
    // is what the search is bound to find.
    method VisitTop() returns (early: Option<Slice>)
      requires Valid() && phase == Search && frames != []
      modifies this`cached, this`pending, this`misses
      ensures early.Some? && early.value.Done? ==> early.value.pool == old(Verdict())
      ensures CutBy(old(misses), misses, early)
      ensures early.None? || early.value.Interrupted? ==> Valid() && Verdict() == old(Verdict())
      ensures early.None? && !frames[|frames| - 1].evaluated ==> !Problem().Covers(frames[|frames| - 1].pool)
      ensures early.None? ==> pending == None
    {
      var last := |frames| - 1;
      var frame := frames[last];
      if frame.evaluated {
        return None;
      }
      var pool := Problem().Pick(frame.pool);
      var reply := EvaluateTop(pool);
      if !reply.Value? {
        return Some(Interrupted(reply));
      }
      if Complete(reply.evaluation, required) {
        return Some(Done(Some(pool)));
      }
      return None;
    }

    method EvaluateTop(pool: seq<Candidate>) returns (reply: Reply)
      requires Valid() && phase == Search && frames != [] && !frames[|frames| - 1].evaluated
      requires pool == Problem().Pick(frames[|frames| - 1].pool)
      modifies this`cached, this`pending, this`misses
      ensures Valid() && Told(old(misses), misses, reply)
      ensures reply.Value? ==> pending == None && reply.evaluation == eval(pool, Some(required))
    {
      if Key(pool) in cached {
        assert FromOrdered(pool);
        var evaluation := cached[Key(pool)];
        cached := cached - {Key(pool)};
        return Value(evaluation);
      }
      reply := EvaluatePool(pool, Some(required));
    }

    // Open the next child of the top frame, or drop the frame.
    method Advance()
      requires Valid() && phase == Search && pending == None && frames != []
      requires frames[|frames| - 1].evaluated || !Problem().Covers(frames[|frames| - 1].pool)
      modifies this`frames
      ensures Valid() && Verdict() == old(Verdict())
      ensures Problem().StackSteps(frames) < old(Problem().StackSteps(frames))
    {
      Problem().AdvancedKeeps(frames);
      Descend();
    }

    method Descend()
      requires Problem().Legal(frames) && frames != []
      modifies this`frames
      ensures frames == Problem().Advanced(old(frames))
    {
      frames := NextFrames(frames);
    }

    method NextFrames(stack: seq<Frame>) returns (next: seq<Frame>)
      requires Problem().Legal(stack) && stack != []
      ensures next == Problem().Advanced(stack)
    {
      var last := |stack| - 1;
      var frame, rest := stack[last], stack[..last];
      if |frame.pool| < limit && frame.next < |ordered| {
        var parent := Frame(frame.pool, frame.next + 1, true);
        var child := Frame(frame.pool + [frame.next], frame.next + 1, false);
        next := rest + [parent] + [child];
      } else {
        next := rest;
      }
    }

    // A slice of planning. It returns the verdict the session is bound to reach, unless
    // an evaluation was cut off or failed in it, which does not change that verdict; a
    // task left behind is always the one asked for again.
    method Resume() returns (slice: Slice)
      requires Valid()
      modifies this
      ensures slice.Done? ==> slice.pool == old(Verdict())
      ensures slice.Interrupted? ==> Valid() && Verdict() == old(Verdict())
      ensures CutBy(old(misses), misses, Some(slice))
    {
      while true
        invariant Valid() && Verdict() == old(Verdict()) && misses == old(misses)
        decreases match phase case Full => 3 case Witness => 2 case Greedy => 1 case Search => 0,
                  limit - |selected|, |ordered| - greedyCursor
      {
        match phase {
          case Full =>
            var early := BeginFull();
            if early.Some? {
              return early.value;
            }
          case Witness =>
            var reply := EvaluatePool(selected, Some(required));
            if !reply.Value? {
              return Interrupted(reply);
            }
            if Complete(reply.evaluation, required) {
              return Done(Some(selected));
            }
            InitializeGreedyFromWitness(reply.evaluation);
          case Greedy =>
            var early := GreedyStep();
            if early.Some? {
              return early.value;
            }
          case Search =>
            slice := ResumeSearch();
            return;
        }
      }
    }

    // Planning carried over any number of slices, with the evaluation in flight cancelled
    // between some of them, comes to its verdict unless something goes amiss in every one.
    method AcrossSlices(slices: nat) returns (slice: Slice)
      requires Valid()
      modifies this
      ensures slice.Done? ==> slice.pool == old(Verdict())
      ensures slice.Interrupted? ==> Valid() && Verdict() == old(Verdict()) && !slice.reply.Mismatch?
      ensures |misses| <= |old(misses)| + slices && (slice.Interrupted? <==> |misses| == |old(misses)| + slices)
    {
      slice := Interrupted(Expired);
      for n := 0 to slices
        invariant Valid() && Verdict() == old(Verdict())
        invariant slice.Interrupted? && !slice.reply.Mismatch?
        invariant |misses| == |old(misses)| + n
      {
        slice := Resume();
        if slice.Done? {
          return;
        }
        MayStop();
      }
    }
  }
}
