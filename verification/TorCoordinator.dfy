// The Tor profile coordinator: remote mutations one at a time, a versioned snapshot
// of what the agent runs, and a fence that keeps both still while a plan commits.
module TorCoordinator {
  import opened Wrappers

  datatype Profile = Profile(candidate: string, slot: int, address: string, role: string)

  type Profiles = seq<Profile>

  // The profiles that carry traffic; explorers come and go on their own.
  function Warm(profiles: Profiles): Profiles {
    if profiles == [] then []
    else
      var last := profiles[|profiles| - 1];
      Warm(profiles[..|profiles| - 1]) + if last.role == "warm" then [last] else []
  }

  // ---------- The coordinator, one function per critical section ----------

  datatype Coordinator = Coordinator(token: bool, committed: bool, mutating: bool, profiles: Profiles, version: nat)
  {
    predicate CanCommit(v: nat) {
      !committed && !mutating && version == v
    }

    function Publish(p: Profiles): Coordinator {
      this.(profiles := p, version := version + 1)
    }
  }

  class TorCoordinator {
    var mutation: bool
    var commit: bool
    var mutating: bool
    var profiles: Profiles
    var version: nat

    function State(): Coordinator
      reads this
    {
      Coordinator(mutation, commit, mutating, profiles, version)
    }

    constructor ()
      ensures State() == Coordinator(true, false, false, [], 1)
    {
      mutation, commit, mutating, profiles, version := true, false, false, [], 1;
    }

    // Never waits: the fence is refused while anything is published or mutated.
    method AcquirePlanCommit(v: nat) returns (ok: bool)
      modifies this
      ensures ok == old(State()).CanCommit(v)
      ensures State() == if ok then old(State()).(committed := true) else old(State())
    {
      if commit {
        return false;
      }
      commit := true;
      if mutating || version != v {
        commit := false;
        return false;
      }
      return true;
    }

    method ReleasePlanCommit()
      requires commit
      modifies this
      ensures State() == old(State()).(committed := false)
    {
      commit := false;
    }

    method BeginMutation()
      requires !commit
      modifies this
      ensures State() == old(State()).(mutating := true)
    {
      mutating := true;
    }

    method EndMutation()
      requires !commit
      modifies this
      ensures State() == old(State()).(mutating := false)
    {
      mutating := false;
    }

    method PublishLocked(p: Profiles)
      requires !commit
      modifies this
      ensures State() == old(State()).Publish(p)
    {
      version := version + 1;
      profiles := p;
    }
  }

  // ---------- Operations, commits and captures, in any interleaving ----------

  datatype Kind = Sync | Reconcile | Repair | Explore

  // `Calling(touched)`: a remote mutation is in flight, and has or has not begun to
  // change what the agent runs. One that has begun is over before the agent answers a
  // fetch; one that has not may be lost, or take effect at any later time.
  datatype Phase = Waiting | Holding | Fetching | Calling(touched: bool) | Resyncing(touched: bool)
                 | Publishing(p: Profiles) | Ending | Returning | Finished

  datatype Op = Op(kind: Kind, phase: Phase)

  datatype Reply = Succeeded | Unsent | Failed

  // `agent` is what the agent really runs; `published` lists what each version showed;
  // `loose` counts the mutations of warm profiles whose reply was lost and that may
  // still take effect; `stale` says that one has done so since the profiles were read.
  datatype State = State(c: Coordinator, ops: seq<Op>, agent: Profiles, published: seq<Profiles>,
                         fence: Option<nat>, captures: set<(nat, Profiles)>, loose: nat, stale: bool)

  // `Probes` is a candidate probe that borrows the explorer slot of the agent without
  // asking the coordinator.
  datatype Step = Arrive(kind: Kind) | GiveUp(m: nat) | TakeToken(m: nat) | Mark(m: nat)
                | Fetched(m: nat, ok: bool, reconcile: bool) | AgentChanges(m: nat, to: Profiles) | Replied(m: nat, reply: Reply)
                | Resynced(m: nat, ok: bool) | Publish(m: nat) | End(m: nat) | ReturnToken(m: nat)
                | Capture | AcquireCommit(v: nat) | ReleaseCommit | Probes(to: Profiles) | LateEffect(to: Profiles)

  const Initial := State(Coordinator(true, false, false, [], 1), [], [], [[]], None, {}, 0, false)

  predicate At(s: State, m: nat, phase: Phase) {
    m < |s.ops| && s.ops[m].phase == phase
  }

  // A mutation at work on the agent; exploring leaves the warm profiles alone.
  predicate CanChange(s: State, m: nat, to: Profiles) {
    && m < |s.ops| && (s.ops[m].phase.Calling? || s.ops[m].phase == Resyncing(true))
    && (s.ops[m].kind.Explore? ==> Warm(to) == Warm(s.agent))
  }

  // Whoever needs the commit lock waits while a plan holds it.
  predicate Enabled(s: State, step: Step) {
    match step
    case Arrive(_) => true
    case GiveUp(m) => At(s, m, Waiting)
    case TakeToken(m) => At(s, m, Waiting) && s.c.token
    case Mark(m) => At(s, m, Holding) && !s.c.committed
    case Fetched(m, _, _) => At(s, m, Fetching)
    case AgentChanges(m, to) => CanChange(s, m, to)
    case Replied(m, reply) => m < |s.ops| && s.ops[m].phase.Calling? && (reply.Unsent? ==> !s.ops[m].phase.touched)
    case Resynced(m, _) => m < |s.ops| && s.ops[m].phase.Resyncing?
    case Publish(m) => m < |s.ops| && s.ops[m].phase.Publishing? && !s.c.committed
    case End(m) => At(s, m, Ending) && !s.c.committed
    case ReturnToken(m) => At(s, m, Returning)
    case Capture => true
    case AcquireCommit(v) => s.c.CanCommit(v)
    case ReleaseCommit => s.fence.Some?
    case Probes(to) => Warm(to) == Warm(s.agent)
    case LateEffect(_) => s.loose > 0
  }

  function Go(s: State, m: nat, phase: Phase): State
    requires m < |s.ops|
  {
    s.(ops := s.ops[m := s.ops[m].(phase := phase)])
  }

  // The profiles are read from the agent, or given up, and are about to be shown.
  function Read(s: State, m: nat, p: Profiles): State
    requires m < |s.ops|
  {
    Go(s, m, Publishing(p)).(stale := false)
  }

  function Changed(s: State, m: nat, to: Profiles): State
    requires CanChange(s, m, to)
  {
    Go(s, m, if s.ops[m].phase.Calling? then Calling(true) else Resyncing(true)).(agent := to)
  }

  function Lost(s: State, m: nat): State
    requires m < |s.ops| && s.ops[m].phase.Calling?
  {
    var touched := s.ops[m].phase.touched;
    Go(s, m, Resyncing(touched)).(loose := s.loose + if touched || s.ops[m].kind.Explore? then 0 else 1)
  }

  function After(s: State, step: Step): State
    requires Enabled(s, step)
  {
    match step
    case Arrive(kind) => s.(ops := s.ops + [Op(kind, Waiting)])
    case GiveUp(m) => Go(s, m, Finished)
    case TakeToken(m) => Go(s, m, Holding).(c := s.c.(token := false))
    case Mark(m) =>
      Go(s, m, if s.ops[m].kind.Sync? || s.ops[m].kind.Repair? then Fetching else Calling(false)).(c := s.c.(mutating := true))
    case Fetched(m, ok, reconcile) =>
      if ok && reconcile && s.ops[m].kind.Repair? then Go(s, m, Calling(false)) else Read(s, m, if ok then s.agent else [])
    case AgentChanges(m, to) => Changed(s, m, to)
    case Replied(m, reply) =>
      if reply.Succeeded? then Read(s, m, s.agent) else if reply.Unsent? then Go(s, m, Ending) else Lost(s, m)
    case Resynced(m, ok) => Read(s, m, if ok then s.agent else [])
    case Publish(m) =>
      var p := s.ops[m].phase.p;
      Go(s, m, Ending).(c := s.c.Publish(p), published := s.published + [p])
    case End(m) => Go(s, m, Returning).(c := s.c.(mutating := false))
    case ReturnToken(m) => Go(s, m, Finished).(c := s.c.(token := true))
    case Capture => s.(captures := s.captures + {(s.c.version, s.c.profiles)})
    case AcquireCommit(v) => s.(c := s.c.(committed := true), fence := Some(v))
    case ReleaseCommit => s.(c := s.c.(committed := false), fence := None)
    case Probes(to) => s.(agent := to)
    case LateEffect(to) => s.(agent := to, loose := s.loose - 1, stale := s.stale || Warm(to) != Warm(s.agent))
  }

  ghost predicate Path(states: seq<State>, steps: seq<Step>) {
    && |states| == |steps| + 1
    && forall k :: 0 <= k < |steps| ==> Enabled(states[k], steps[k]) && states[k + 1] == After(states[k], steps[k])
  }

  ghost predicate Run(states: seq<State>, steps: seq<Step>) {
    Path(states, steps) && states[0] == Initial
  }

  // ---------- What every step keeps ----------

  predicate Inside(op: Op) {
    !op.phase.Waiting? && !op.phase.Finished?
  }

  predicate Marked(op: Op) {
    Inside(op) && !op.phase.Holding? && !op.phase.Returning?
  }

  // One operation at a time is between taking and returning the token.
  ghost predicate Exclusive(s: State) {
    && (forall i: nat, j: nat :: i < |s.ops| && j < |s.ops| && Inside(s.ops[i]) && Inside(s.ops[j]) ==> i == j)
    && (s.c.token ==> forall i: nat :: i < |s.ops| ==> !Inside(s.ops[i]))
    && (forall i: nat :: i < |s.ops| && Inside(s.ops[i]) ==> (s.c.mutating <==> Marked(s.ops[i])))
    && (!s.c.token ==> exists i: nat :: i < |s.ops| && Inside(s.ops[i]))
    && (s.c.mutating ==> !s.c.token)
  }

  predicate Truthful(s: State, p: Profiles) {
    p == [] || Warm(p) == Warm(s.agent)
  }

  ghost predicate Faithful(s: State) {
    s.stale || Fresh(s)
  }

  ghost predicate Fresh(s: State) {
    && (!s.c.mutating ==> Truthful(s, s.c.profiles))
    && (forall i: nat :: i < |s.ops| && (s.ops[i].phase.Fetching? || s.ops[i].phase == Calling(false) || s.ops[i].phase.Ending?) ==>
          Truthful(s, s.c.profiles))
    && (forall i: nat :: i < |s.ops| && s.ops[i].phase.Publishing? ==> Truthful(s, s.ops[i].phase.p))
  }

  ghost predicate Versioned(s: State) {
    && s.c.version == |s.published| && s.c.version > 0 && s.c.profiles == s.published[s.c.version - 1]
    && (forall cap :: cap in s.captures ==> 0 < cap.0 <= |s.published| && s.published[cap.0 - 1] == cap.1)
  }

  ghost predicate Fenced(s: State) {
    && (s.c.committed <==> s.fence.Some?)
    && (s.fence.Some? ==> !s.c.mutating && s.fence.value == s.c.version)
  }

  ghost predicate Inv(s: State) {
    Exclusive(s) && Faithful(s) && Versioned(s) && Fenced(s)
  }

  // A marked operation goes on, and is still marked.
  lemma MarkedGoesOn(s: State, s': State, m: nat)
    requires Exclusive(s) && m < |s.ops| && Marked(s.ops[m]) && |s'.ops| == |s.ops| && Marked(s'.ops[m])
    requires forall i: nat :: i < |s.ops| && i != m ==> s'.ops[i] == s.ops[i]
    requires s'.c.token == s.c.token && s'.c.mutating == s.c.mutating
    ensures Exclusive(s')
  {
    assert Inside(s.ops[m]) && Inside(s'.ops[m]);
  }

  // An operation that is outside before and after changes nothing for the others.
  lemma OutsiderMoves(s: State, s': State, m: nat)
    requires Exclusive(s) && m < |s'.ops| && (m < |s.ops| ==> !Inside(s.ops[m])) && !Inside(s'.ops[m])
    requires |s.ops| <= |s'.ops| <= |s.ops| + 1 && (|s'.ops| > |s.ops| ==> m == |s.ops|)
    requires forall i: nat :: i < |s.ops| && i != m ==> s'.ops[i] == s.ops[i]
    requires s'.c.token == s.c.token && s'.c.mutating == s.c.mutating
    ensures Exclusive(s')
  {
    if !s.c.token {
      var i: nat :| i < |s.ops| && Inside(s.ops[i]);
      assert Inside(s'.ops[i]);
    }
  }

  lemma TokenMoves(s: State, step: Step)
    requires Exclusive(s) && Enabled(s, step)
    requires step.TakeToken? || step.Mark? || step.End? || step.ReturnToken?
    ensures Exclusive(After(s, step))
  {
    var s' := After(s, step);
    if !step.TakeToken? {
      assert Inside(s.ops[step.m]);
    }
    if !step.ReturnToken? {
      assert Inside(s'.ops[step.m]);
    }
  }

  predicate Works(step: Step) {
    step.Fetched? || step.AgentChanges? || step.Replied? || step.Resynced? || step.Publish?
  }

  lemma WorkKept(s: State, step: Step)
    requires Exclusive(s) && Enabled(s, step) && Works(step)
    ensures Exclusive(After(s, step))
  {
    MarkedGoesOn(s, After(s, step), step.m);
  }

  lemma ExclusiveKept(s: State, step: Step)
    requires Exclusive(s) && Enabled(s, step)
    ensures Exclusive(After(s, step))
  {
    if step.Arrive? {
      OutsiderMoves(s, After(s, step), |s.ops|);
    } else if step.GiveUp? {
      OutsiderMoves(s, After(s, step), step.m);
    } else if Works(step) {
      WorkKept(s, step);
    } else if step.TakeToken? || step.Mark? || step.End? || step.ReturnToken? {
      TokenMoves(s, step);
    }
  }

  // Only the marked operation can spoil what is shown, and only while it is at work.
  lemma MarkedStaysFresh(s: State, s': State, m: nat)
    requires Exclusive(s) && Fresh(s) && m < |s.ops| && Marked(s.ops[m]) && |s'.ops| == |s.ops|
    requires forall i: nat :: i < |s.ops| && i != m ==> s'.ops[i] == s.ops[i]
    requires s'.c.mutating == s.c.mutating
    requires s'.ops[m].phase.Fetching? || s'.ops[m].phase == Calling(false) || s'.ops[m].phase.Ending? ==>
      Truthful(s', s'.c.profiles)
    requires s'.ops[m].phase.Publishing? ==> Truthful(s', s'.ops[m].phase.p)
    ensures Fresh(s')
  {
    assert Inside(s.ops[m]);
    forall i: nat | i < |s.ops| && i != m
      ensures !Inside(s'.ops[i])
    {
    }
  }

  lemma OthersStayFresh(s: State, s': State)
    requires Fresh(s) && |s.ops| <= |s'.ops|
    requires s'.c.profiles == s.c.profiles && s'.c.mutating == s.c.mutating && Warm(s'.agent) == Warm(s.agent)
    requires forall i: nat :: i < |s'.ops| ==>
      (i < |s.ops| && s'.ops[i] == s.ops[i]) || s'.ops[i].phase.Waiting? || s'.ops[i].phase.Finished? || s'.ops[i].phase.Holding?
    ensures Fresh(s')
  {
  }

  lemma MarksStayFresh(s: State, step: Step)
    requires Exclusive(s) && Fresh(s) && Enabled(s, step) && (step.Mark? || step.End?)
    ensures Fresh(After(s, step))
  {
    assert Inside(s.ops[step.m]);
  }

  lemma ReadsAreFresh(s: State, m: nat, p: Profiles)
    requires Exclusive(s) && m < |s.ops| && Marked(s.ops[m]) && Truthful(s, p)
    ensures Fresh(Read(s, m, p))
  {
    assert Inside(s.ops[m]);
  }

  lemma FaithfulKept(s: State, step: Step)
    requires Exclusive(s) && Faithful(s) && Enabled(s, step)
    ensures Faithful(After(s, step))
  {
    if step.Fetched? && !(step.ok && step.reconcile && s.ops[step.m].kind.Repair?) {
      ReadsAreFresh(s, step.m, if step.ok then s.agent else []);
    } else if step.Resynced? {
      ReadsAreFresh(s, step.m, if step.ok then s.agent else []);
    } else if step.Replied? && step.reply.Succeeded? {
      ReadsAreFresh(s, step.m, s.agent);
    } else if !s.stale && !After(s, step).stale {
      FreshKept(s, step);
    }
  }

  lemma FreshKept(s: State, step: Step)
    requires Exclusive(s) && Fresh(s) && Enabled(s, step) && !s.stale && !After(s, step).stale
    requires step.Fetched? ==> step.ok && step.reconcile && s.ops[step.m].kind.Repair?
    requires !step.Resynced? && !(step.Replied? && step.reply.Succeeded?)
    ensures Fresh(After(s, step))
  {
    if Works(step) {
      MarkedStaysFresh(s, After(s, step), step.m);
    } else if step.Mark? || step.End? {
      MarksStayFresh(s, step);
    } else {
      OthersStayFresh(s, After(s, step));
    }
  }

  lemma FenceKept(s: State, step: Step)
    requires Versioned(s) && Fenced(s) && Enabled(s, step)
    ensures Versioned(After(s, step)) && Fenced(After(s, step))
  {
    if Works(step) {
      WorkKeepsFence(s, step);
    }
  }

  lemma WorkKeepsFence(s: State, step: Step)
    requires Versioned(s) && Fenced(s) && Enabled(s, step) && Works(step)
    ensures Versioned(After(s, step)) && Fenced(After(s, step))
  {
  }

  lemma {:induction false} InvAlways(states: seq<State>, steps: seq<Step>, k: nat)
    requires Run(states, steps) && k < |states|
    ensures Inv(states[k])
  {
    if k > 0 {
      InvAlways(states, steps, k - 1);
      ExclusiveKept(states[k - 1], steps[k - 1]);
      FaithfulKept(states[k - 1], steps[k - 1]);
      FenceKept(states[k - 1], steps[k - 1]);
    }
  }

  // ---------- The promises ----------

  predicate InFlight(op: Op) {
    op.phase.Calling? || op.phase.Fetching? || op.phase.Resyncing?
  }

  // While a plan holds the fence for version v, the snapshot is version v and no
  // remote call is in flight; it shows the warm profiles the agent runs, or nothing,
  // unless a mutation whose reply was lost has taken effect since they were read.
  lemma FenceHolds(states: seq<State>, steps: seq<Step>, k: nat)
    requires Run(states, steps) && k < |states| && states[k].fence.Some?
    ensures states[k].c.version == states[k].fence.value
    ensures states[k].stale || Truthful(states[k], states[k].c.profiles)
    ensures forall i: nat :: i < |states[k].ops| ==> !InFlight(states[k].ops[i])
  {
    InvAlways(states, steps, k);
  }

  // Some steps from a given state on, all of them behind the fence.
  ghost predicate Behind(s: State, states: seq<State>, steps: seq<Step>) {
    && |states| == |steps| + 1 && states[0] == s
    && (forall k :: 0 <= k < |states| ==> states[k].fence.Some?)
    && forall k :: 0 <= k < |steps| ==>
         !steps[k].ReleaseCommit? && Enabled(states[k], steps[k]) && states[k + 1] == After(states[k], steps[k])
  }

  // The fence keeps the snapshot still, and no mutation begins or ends behind it, so
  // nothing becomes loose there.
  lemma {:induction false} SnapshotStaysBehindFence(s: State, states: seq<State>, steps: seq<Step>, k: nat)
    requires Inv(s) && Behind(s, states, steps) && k < |states|
    ensures Inv(states[k]) && states[k].fence == s.fence
    ensures states[k].c.profiles == s.c.profiles && states[k].c.version == s.c.version
    ensures states[k].loose <= s.loose && (s.loose == 0 ==> Warm(states[k].agent) == Warm(s.agent))
  {
    if k > 0 {
      SnapshotStaysBehindFence(s, states, steps, k - 1);
      ExclusiveKept(states[k - 1], steps[k - 1]);
      FaithfulKept(states[k - 1], steps[k - 1]);
      FenceKept(states[k - 1], steps[k - 1]);
      StillBehindFence(states[k - 1], steps[k - 1]);
    }
  }

  lemma StillBehindFence(s: State, step: Step)
    requires Inv(s) && Enabled(s, step) && s.fence.Some? && !step.ReleaseCommit?
    ensures var s' := After(s, step);
      s'.c.profiles == s.c.profiles && s'.c.version == s.c.version && s'.fence == s.fence && s'.loose <= s.loose
    ensures !step.LateEffect? ==> Warm(After(s, step).agent) == Warm(s.agent)
  {
  }

  // From taking the fence to releasing it the warm profiles of the agent stay as they
  // are, whatever happens, if and only if no mutation whose reply was lost is loose.
  lemma NothingMovesBehindFence(s: State)
    requires Inv(s) && s.fence.Some?
    ensures s.loose == 0 <==>
      forall states: seq<State>, steps: seq<Step>, k: nat :: Behind(s, states, steps) && k < |states| ==> Warm(states[k].agent) == Warm(s.agent)
  {
    if s.loose == 0 {
      forall states: seq<State>, steps: seq<Step>, k: nat | Behind(s, states, steps) && k < |states|
        ensures Warm(states[k].agent) == Warm(s.agent)
      {
        SnapshotStaysBehindFence(s, states, steps, k);
      }
    } else {
      var to := OneMore(s.agent);
      var states := [s, After(s, LateEffect(to))];
      assert Behind(s, states, [LateEffect(to)]) && Warm(states[1].agent) != Warm(s.agent);
    }
  }

  lemma OneMore(agent: Profiles) returns (to: Profiles)
    ensures Warm(to) != Warm(agent)
  {
    to := agent + [Profile("candidate", 0, "127.0.0.1:19050", "warm")];
    assert to[..|to| - 1] == agent;
  }

  // A run in which a plan holds the fence while a mutation is loose: the reply of a
  // reconciliation was lost, the profiles were fetched again and shown, and the agent
  // has not carried the reconciliation out yet.
  lemma LooseBehindFence() returns (states: seq<State>, steps: seq<Step>)
    ensures Run(states, steps) && states[|steps|].fence == Some(2) && states[|steps|].loose == 1 && !states[|steps|].stale
  {
    var s5 := Alone(Publishing([]), Coordinator(false, false, true, [], 1), [[]], 1);
    var s9 := Alone(Finished, Coordinator(true, true, false, [], 2), [[], []], 1).(fence := Some(2));
    var first, firstSteps := LosesReply(s5);
    var second, secondSteps := ShowsAgain(s5, s9);
    steps := firstSteps + secondSteps;
    states := first + second[1..];
    Joined(first, firstSteps, second, secondSteps);
  }

  function Alone(phase: Phase, c: Coordinator, published: seq<Profiles>, loose: nat): State {
    State(c, [Op(Reconcile, phase)], [], published, None, {}, loose, false)
  }

  lemma LosesReply(s5: State) returns (states: seq<State>, steps: seq<Step>)
    requires s5 == Alone(Publishing([]), Coordinator(false, false, true, [], 1), [[]], 1)
    ensures Path(states, steps) && states[0] == Initial && states[|steps|] == s5
  {
    var s1 := Alone(Waiting, Coordinator(true, false, false, [], 1), [[]], 0);
    var s2 := Alone(Holding, Coordinator(false, false, false, [], 1), [[]], 0);
    var s3 := Alone(Calling(false), Coordinator(false, false, true, [], 1), [[]], 0);
    var s4 := Alone(Resyncing(false), Coordinator(false, false, true, [], 1), [[]], 1);
    steps := [Arrive(Reconcile), TakeToken(0), Mark(0), Replied(0, Failed), Resynced(0, true)];
    states := [Initial, s1, s2, s3, s4, s5];
    assert After(Initial, Arrive(Reconcile)) == s1;
    assert After(s1, TakeToken(0)) == s2;
    assert After(s2, Mark(0)) == s3;
    assert After(s3, Replied(0, Failed)) == s4;
    assert After(s4, Resynced(0, true)) == s5;
  }

  lemma PublishesNothing(s5: State, s6: State)
    requires s5 == Alone(Publishing([]), Coordinator(false, false, true, [], 1), [[]], 1)
    requires s6 == Alone(Ending, Coordinator(false, false, true, [], 2), [[], []], 1)
    ensures Enabled(s5, Publish(0)) && After(s5, Publish(0)) == s6
  {
    assert s5.published + [[]] == s6.published;
    assert Go(s5, 0, Ending).ops == s6.ops;
  }

  lemma ShowsAgain(s5: State, s9: State) returns (states: seq<State>, steps: seq<Step>)
    requires s5 == Alone(Publishing([]), Coordinator(false, false, true, [], 1), [[]], 1)
    requires s9 == Alone(Finished, Coordinator(true, true, false, [], 2), [[], []], 1).(fence := Some(2))
    ensures Path(states, steps) && states[0] == s5 && states[|steps|] == s9 && steps != []
  {
    var s6 := Alone(Ending, Coordinator(false, false, true, [], 2), [[], []], 1);
    var s7 := Alone(Returning, Coordinator(false, false, false, [], 2), [[], []], 1);
    var s8 := Alone(Finished, Coordinator(true, false, false, [], 2), [[], []], 1);
    steps := [Publish(0), End(0), ReturnToken(0), AcquireCommit(2)];
    states := [s5, s6, s7, s8, s9];
    PublishesNothing(s5, s6);
    assert After(s6, End(0)) == s7;
    assert After(s7, ReturnToken(0)) == s8;
    assert After(s8, AcquireCommit(2)) == s9;
  }

  // ---------- What the replies tell ----------

  // Every reply that was lost belongs to an exploration, which leaves the warm
  // profiles alone.
  ghost predicate Unambiguous(states: seq<State>, steps: seq<Step>)
    requires Run(states, steps)
  {
    forall k :: 0 <= k < |steps| && steps[k].Replied? && steps[k].reply.Failed? ==> states[k].ops[steps[k].m].kind.Explore?
  }

  lemma {:induction false} NothingIsLoose(states: seq<State>, steps: seq<Step>, k: nat)
    requires Run(states, steps) && Unambiguous(states, steps) && k < |states|
    ensures states[k].loose == 0 && !states[k].stale
  {
    if k > 0 {
      NothingIsLoose(states, steps, k - 1);
      StaysTight(states[k - 1], steps[k - 1]);
    }
  }

  lemma StaysTight(s: State, step: Step)
    requires Enabled(s, step) && s.loose == 0 && !s.stale
    requires step.Replied? && step.reply.Failed? ==> s.ops[step.m].kind.Explore?
    ensures After(s, step).loose == 0 && !After(s, step).stale
  {
  }

  // So while no other mutation has ended with a lost reply, the fence keeps its whole
  // promise: the snapshot is true, and the warm profiles stay what they are.
  lemma FenceHoldsUnambiguously(states: seq<State>, steps: seq<Step>, a: nat, b: nat)
    requires Run(states, steps) && Unambiguous(states, steps) && a <= b < |states|
    requires forall k :: a <= k <= b ==> states[k].fence.Some?
    requires forall k :: a <= k < b ==> !steps[k].ReleaseCommit?
    ensures Truthful(states[b], states[b].c.profiles) && Warm(states[b].agent) == Warm(states[a].agent)
    ensures states[b].c.version == states[a].c.version && states[b].c.profiles == states[a].c.profiles
  {
    TrueUnambiguously(states, steps, b);
    NothingIsLoose(states, steps, a);
    InvAlways(states, steps, a);
    BehindInRun(states, steps, a, b);
    SnapshotStaysBehindFence(states[a], states[a..b + 1], steps[a..b], b - a);
  }

  lemma TrueUnambiguously(states: seq<State>, steps: seq<Step>, k: nat)
    requires Run(states, steps) && Unambiguous(states, steps) && k < |states| && states[k].fence.Some?
    ensures Truthful(states[k], states[k].c.profiles)
  {
    NothingIsLoose(states, steps, k);
    FenceHolds(states, steps, k);
  }

  lemma BehindInRun(states: seq<State>, steps: seq<Step>, a: nat, b: nat)
    requires Path(states, steps) && a <= b < |states|
    requires forall k :: a <= k <= b ==> states[k].fence.Some?
    requires forall k :: a <= k < b ==> !steps[k].ReleaseCommit?
    ensures Behind(states[a], states[a..b + 1], steps[a..b])
  {
    var some, taken := states[a..b + 1], steps[a..b];
    forall k | 0 <= k < |taken|
      ensures !taken[k].ReleaseCommit? && Enabled(some[k], taken[k]) && some[k + 1] == After(some[k], taken[k])
    {
      assert taken[k] == steps[a + k] && some[k] == states[a + k] && some[k + 1] == states[a + k + 1];
    }
  }

  lemma CommitsTheTruthUnambiguously(states: seq<State>, steps: seq<Step>, k: nat, capture: (nat, Profiles))
    requires Run(states, steps) && Unambiguous(states, steps) && k < |steps| && capture in states[k].captures
    requires steps[k] == AcquireCommit(capture.0)
    ensures Truthful(states[k], capture.1)
  {
    CommitsWhatWasCaptured(states, steps, k, capture);
    NothingIsLoose(states, steps, k);
  }

  // And as soon as the reply to another mutation is lost, the agent may change under a
  // plan: if it had not begun by then, whatever the fetch that follows answers, a plan
  // can take the fence afterwards while the mutation may still take effect.
  lemma LostReplyEndsTheGuarantee(s: State, m: nat, fetched: bool) returns (states: seq<State>, steps: seq<Step>, to: Profiles)
    requires Inv(s) && At(s, m, Calling(false)) && !s.ops[m].kind.Explore?
    ensures Path(states, steps) && states[0] == s && |steps| > 1
    ensures steps[0] == Replied(m, Failed) && steps[1] == Resynced(m, fetched)
    ensures Moves(states[|steps|], to)
  {
    var first, firstSteps := ReplyIsLost(s, m, fetched);
    var second, secondSteps := ThenShown(first[2], m);
    var third, thirdSteps := ThenFenced(second[2], m);
    Joined(first, firstSteps, second, secondSteps);
    Joined(first + second[1..], firstSteps + secondSteps, third, thirdSteps);
    states := first + second[1..] + third[1..];
    steps := firstSteps + secondSteps + thirdSteps;
    to := OneMore(third[2].agent);
  }

  // A plan holds the fence for what is shown, and the warm profiles can change now.
  predicate Moves(s: State, to: Profiles) {
    s.fence == Some(s.c.version) && s.loose > 0 && Warm(After(s, LateEffect(to)).agent) != Warm(s.agent)
  }

  lemma Joined(first: seq<State>, firstSteps: seq<Step>, second: seq<State>, secondSteps: seq<Step>)
    requires Path(first, firstSteps) && Path(second, secondSteps) && first[|firstSteps|] == second[0]
    ensures Path(first + second[1..], firstSteps + secondSteps)
  {
    var states, steps := first + second[1..], firstSteps + secondSteps;
    forall k | 0 <= k < |steps|
      ensures Enabled(states[k], steps[k]) && states[k + 1] == After(states[k], steps[k])
    {
      if k >= |firstSteps| {
        var j := k - |firstSteps|;
        assert Enabled(second[j], secondSteps[j]) && second[j + 1] == After(second[j], secondSteps[j]);
      }
    }
  }

  lemma ReplyIsLost(s: State, m: nat, fetched: bool) returns (states: seq<State>, steps: seq<Step>)
    requires Inv(s) && At(s, m, Calling(false)) && !s.ops[m].kind.Explore?
    ensures Path(states, steps) && states[0] == s && steps == [Replied(m, Failed), Resynced(m, fetched)]
    ensures Unfenced(states[2], m) && states[2].ops[m].phase.Publishing?
  {
    assert Inside(s.ops[m]) && Marked(s.ops[m]);
    var s1 := After(s, Replied(m, Failed));
    states, steps := [s, s1, After(s1, Resynced(m, fetched))], [Replied(m, Failed), Resynced(m, fetched)];
  }

  predicate Unfenced(s: State, m: nat) {
    m < |s.ops| && !s.c.committed && s.loose > 0
  }

  lemma ThenShown(s: State, m: nat) returns (states: seq<State>, steps: seq<Step>)
    requires Unfenced(s, m) && s.ops[m].phase.Publishing?
    ensures Path(states, steps) && |steps| == 2 && states[0] == s
    ensures Unfenced(states[2], m) && states[2].ops[m].phase.Returning? && !states[2].c.mutating
  {
    var s1 := After(s, Publish(m));
    states, steps := [s, s1, After(s1, End(m))], [Publish(m), End(m)];
  }

  lemma ThenFenced(s: State, m: nat) returns (states: seq<State>, steps: seq<Step>)
    requires Unfenced(s, m) && s.ops[m].phase.Returning? && !s.c.mutating
    ensures Path(states, steps) && |steps| == 2 && states[0] == s
    ensures states[2].fence == Some(states[2].c.version) && states[2].loose > 0
  {
    var s1 := After(s, ReturnToken(m));
    states, steps := [s, s1, After(s1, AcquireCommit(s1.c.version))], [ReturnToken(m), AcquireCommit(s1.c.version)];
  }

  // ---------- One at a time, and by version ----------

  // At most one operation is at work on the agent at any time.
  lemma OneMutationAtATime(states: seq<State>, steps: seq<Step>, k: nat, i: nat, j: nat)
    requires Run(states, steps) && k < |states| && i < |states[k].ops| && j < |states[k].ops|
    requires InFlight(states[k].ops[i]) && InFlight(states[k].ops[j])
    ensures i == j && states[k].c.mutating && states[k].fence.None?
  {
    InvAlways(states, steps, k);
  }

  // Versions never go back, and a version stands for one list of profiles: captures
  // with equal versions, taken at any time, are equal.
  lemma VersionsGrow(states: seq<State>, steps: seq<Step>, a: nat, b: nat)
    requires Run(states, steps) && a <= b < |states|
    ensures states[a].c.version <= states[b].c.version
    ensures states[a].published <= states[b].published && states[a].captures <= states[b].captures
    ensures states[a].c.version == states[b].c.version ==> states[a].c.profiles == states[b].c.profiles
  {
    InvAlways(states, steps, a);
    InvAlways(states, steps, b);
    PublishedGrows(states, steps, a, b);
  }

  lemma {:induction false} PublishedGrows(states: seq<State>, steps: seq<Step>, a: nat, b: nat)
    requires Run(states, steps) && a <= b < |states|
    ensures states[a].published <= states[b].published && states[a].captures <= states[b].captures
  {
    if a < b {
      PublishedGrows(states, steps, a, b - 1);
      StepGrows(states[b - 1], steps[b - 1], states[b]);
    }
  }

  lemma StepGrows(s: State, step: Step, s': State)
    requires Enabled(s, step) && s' == After(s, step)
    ensures s.published <= s'.published && s.captures <= s'.captures
  {
  }

  lemma CapturesAgree(states: seq<State>, steps: seq<Step>, k: nat, x: (nat, Profiles), y: (nat, Profiles))
    requires Run(states, steps) && k < |states| && x in states[k].captures && y in states[k].captures && x.0 == y.0
    ensures x == y
  {
    InvAlways(states, steps, k);
  }

  // So a plan made from a capture commits only against those very profiles.
  lemma CommitsWhatWasCaptured(states: seq<State>, steps: seq<Step>, k: nat, capture: (nat, Profiles))
    requires Run(states, steps) && k < |steps| && capture in states[k].captures
    requires steps[k] == AcquireCommit(capture.0)
    ensures states[k].c.profiles == capture.1 && (states[k].stale || Truthful(states[k], capture.1))
  {
    InvAlways(states, steps, k);
  }
}
