// Resetting the flows of a failed route: the queue of jobs, which of them a plan
// still wants, and how long a job can wait.
module FlowRecovery {
  import opened Wrappers
  import opened Plan

  type Token = int

  datatype Recovery = Recovery(clientID: string, source: Source, failed: string, replacement: string)

  datatype Job = Job(recovery: Recovery, token: Option<Token>)

  datatype AppliedPlan = AppliedPlan(plan: DesiredPlan, jobs: seq<Job>)

  const BATCH := 4
  const MAX_PENDING := 2048
  const NothingApplied := AppliedPlan(NoPlan, [])

  function JobKey(q: Recovery): (string, string) {
    (q.clientID, q.failed)
  }

  predicate IsQueue(jobs: seq<Job>) {
    && |jobs| <= MAX_PENDING
    && (forall i, j :: 0 <= i < j < |jobs| ==> JobKey(jobs[i].recovery) != JobKey(jobs[j].recovery))
    && (forall job :: job in jobs ==> job.recovery.source.Host?)
  }

  function RouteOf(clients: seq<ClientRoute>, clientID: string): Option<ClientRoute> {
    if clients == [] then None
    else if clients[0].clientID == clientID then Some(clients[0])
    else RouteOf(clients[1..], clientID)
  }

  predicate Serves(route: ClientRoute, q: Recovery) {
    route.clientID == q.clientID && route.source == q.source && !route.blockTCP && route.tcp != ""
  }

  // The client still has a TCP route from the same source, and not the failed one.
  predicate Applicable(plan: DesiredPlan, q: Recovery) {
    var route := RouteOf(plan.clients, q.clientID);
    route.Some? && Serves(route.value, q) && route.value.tcp != q.failed
  }

  function Kept(plan: DesiredPlan, jobs: seq<Job>): (kept: seq<Job>)
    ensures |kept| <= |jobs|
    ensures forall job :: job in kept <==> job in jobs && Applicable(plan, job.recovery)
  {
    if jobs == [] then []
    else Kept(plan, jobs[..|jobs| - 1]) +
         (if Applicable(plan, jobs[|jobs| - 1].recovery) then [jobs[|jobs| - 1]] else [])
  }

  lemma {:induction false} KeptIsQueue(plan: DesiredPlan, jobs: seq<Job>)
    requires IsQueue(jobs)
    ensures IsQueue(Kept(plan, jobs))
  {
    if jobs != [] {
      var rest, last := jobs[..|jobs| - 1], jobs[|jobs| - 1];
      KeptIsQueue(plan, rest);
      forall job | job in Kept(plan, rest)
        ensures JobKey(job.recovery) != JobKey(last.recovery)
      {
        var i :| 0 <= i < |rest| && rest[i] == job;
        assert jobs[i] == job;
      }
    }
  }

  // Dropping jobs never moves a kept one back.
  lemma {:induction false} KeptPosition(plan: DesiredPlan, jobs: seq<Job>, i: nat) returns (j: nat)
    requires i < |jobs| && Applicable(plan, jobs[i].recovery)
    ensures j <= i && j < |Kept(plan, jobs)| && Kept(plan, jobs)[j] == jobs[i]
  {
    var rest := jobs[..|jobs| - 1];
    if i == |rest| {
      j := |Kept(plan, rest)|;
    } else {
      j := KeptPosition(plan, rest, i);
    }
  }

  predicate ValidTag(value: string) {
    && 0 < |value| <= 256
    && forall ch :: ch in value ==>
         'a' <= ch <= 'z' || 'A' <= ch <= 'Z' || '0' <= ch <= '9' || ch in {'-', '_', '.'}
  }

  predicate ValidScope(plan: DesiredPlan, q: Recovery) {
    && q.source.Host? && q.source.address != 0
    && ValidTag(q.failed) && q.failed != q.replacement
    && exists route :: route in plan.clients && Serves(route, q) && route.tcp == q.replacement
  }

  predicate ValidRecoveries(plan: DesiredPlan, recoveries: seq<Recovery>) {
    && |recoveries| <= |plan.clients|
    && (forall q :: q in recoveries ==> ValidScope(plan, q))
    && (forall i, j :: 0 <= i < j < |recoveries| ==> recoveries[i].clientID != recoveries[j].clientID)
  }

  method ValidateFlowRecoveries(plan: DesiredPlan, recoveries: seq<Recovery>) returns (ok: bool)
    ensures ok <==> ValidRecoveries(plan, recoveries)
  {
    if |recoveries| > |plan.clients| {
      return false;
    }
    var seen: set<string> := {};
    for i := 0 to |recoveries|
      invariant seen == set j | 0 <= j < i :: recoveries[j].clientID
      invariant forall j :: 0 <= j < i ==> ValidScope(plan, recoveries[j])
      invariant forall j, k :: 0 <= j < k < i ==> recoveries[j].clientID != recoveries[k].clientID
    {
      var q := recoveries[i];
      if !q.source.Host? || q.source.address == 0 || !ValidTag(q.failed) {
        assert q in recoveries;
        return false;
      }
      if q.clientID in seen || q.failed == q.replacement {
        assert q in recoveries;
        return false;
      }
      seen := seen + {q.clientID};
      var matched := FindReplacement(plan, q);
      if !matched {
        assert q in recoveries;
        return false;
      }
    }
    return true;
  }

  method FindReplacement(plan: DesiredPlan, q: Recovery) returns (matched: bool)
    ensures matched <==> exists route :: route in plan.clients && Serves(route, q) && route.tcp == q.replacement
  {
    for i := 0 to |plan.clients|
      invariant forall j :: 0 <= j < i ==> !(Serves(plan.clients[j], q) && plan.clients[j].tcp == q.replacement)
    {
      if Serves(plan.clients[i], q) && plan.clients[i].tcp == q.replacement {
        return true;
      }
    }
    return false;
  }

  function FirstServing(clients: seq<ClientRoute>, q: Recovery): Option<ClientRoute> {
    if clients == [] then None
    else if Serves(clients[0], q) then Some(clients[0])
    else FirstServing(clients[1..], q)
  }

  predicate HadRoute(previous: DesiredPlan, q: Recovery) {
    FirstServing(previous.clients, q).Some?
  }

  predicate StillFailed(previous: DesiredPlan, q: Recovery) {
    HadRoute(previous, q) && FirstServing(previous.clients, q).value.tcp == q.failed
  }

  function Current(previous: DesiredPlan, recoveries: seq<Recovery>): seq<Recovery> {
    if recoveries == [] then []
    else
      var last := recoveries[|recoveries| - 1];
      Current(previous, recoveries[..|recoveries| - 1]) + if StillFailed(previous, last) then [last] else []
  }

  // Keep the recoveries whose client was really served by the failed route; a
  // client without a previous route makes the whole request an error.
  method CurrentFlowRecoveries(previous: DesiredPlan, recoveries: seq<Recovery>)
    returns (ok: bool, current: seq<Recovery>)
    ensures ok <==> forall q :: q in recoveries ==> HadRoute(previous, q)
    ensures ok ==> current == Current(previous, recoveries)
    ensures ok ==> forall q :: q in current <==> q in recoveries && StillFailed(previous, q)
  {
    current := [];
    for i := 0 to |recoveries|
      invariant forall j :: 0 <= j < i ==> HadRoute(previous, recoveries[j])
      invariant current == Current(previous, recoveries[..i])
      invariant forall q :: q in current <==> q in recoveries[..i] && StillFailed(previous, q)
    {
      var q := recoveries[i];
      var route := FirstServing(previous.clients, q);
      if route == None {
        assert q in recoveries;
        return false, current;
      }
      if route.value.tcp == q.failed {
        current := current + [q];
      }
      assert recoveries[..i + 1] == recoveries[..i] + [q] && recoveries[..i + 1][..i] == recoveries[..i];
    }
    assert recoveries[..|recoveries|] == recoveries;
    return true, current;
  }

  // The backlog of the next plan: jobs it still wants keep their place and their
  // token; new ones get the snapshot taken now, while there is room. A plan that is
  // rehydrated queues nothing new.
  method PrepareFlowRecoveries(applied: AppliedPlan, plan: DesiredPlan, recoveries: seq<Recovery>,
                               rehydrating: bool, snapshot: Option<Token>)
    returns (pending: seq<Job>)
    requires IsQueue(applied.jobs)
    requires forall q :: q in recoveries ==> q.source.Host?
    ensures IsQueue(pending)
    ensures Kept(plan, applied.jobs) <= pending
    ensures rehydrating || plan.generation <= applied.plan.generation ==> pending == Kept(plan, applied.jobs)
    ensures forall k :: |Kept(plan, applied.jobs)| <= k < |pending| ==>
      pending[k].recovery in recoveries && pending[k].token == snapshot
    ensures !rehydrating && plan.generation > applied.plan.generation ==>
      forall q :: q in recoveries ==> |pending| == MAX_PENDING || JobKey(q) in Keys(pending)
  {
    var seen;
    pending, seen := KeepApplicable(applied.jobs, plan);
    KeptIsQueue(plan, applied.jobs);
    if rehydrating || plan.generation <= applied.plan.generation {
      return;
    }
    ghost var kept := pending;
    for i := 0 to |recoveries|
      invariant IsQueue(pending) && kept <= pending
      invariant seen == Keys(pending)
      invariant forall k :: |kept| <= k < |pending| ==> pending[k].recovery in recoveries && pending[k].token == snapshot
      invariant forall j :: 0 <= j < i ==> |pending| == MAX_PENDING || JobKey(recoveries[j]) in seen
    {
      var q := recoveries[i];
      if JobKey(q) !in seen && |pending| < MAX_PENDING {
        QueueSnoc(pending, Job(q, snapshot));
        pending := pending + [Job(q, snapshot)];
        seen := seen + {JobKey(q)};
      }
    }
    forall q | q in recoveries
      ensures |pending| == MAX_PENDING || JobKey(q) in Keys(pending)
    {
      var j :| 0 <= j < |recoveries| && recoveries[j] == q;
    }
  }

  function Keys(jobs: seq<Job>): set<(string, string)> {
    set job | job in jobs :: JobKey(job.recovery)
  }

  lemma QueueSnoc(jobs: seq<Job>, job: Job)
    requires IsQueue(jobs) && |jobs| < MAX_PENDING && JobKey(job.recovery) !in Keys(jobs) && job.recovery.source.Host?
    ensures IsQueue(jobs + [job])
    ensures Keys(jobs + [job]) == Keys(jobs) + {JobKey(job.recovery)}
  {
    forall i | 0 <= i < |jobs|
      ensures JobKey(jobs[i].recovery) != JobKey(job.recovery)
    {
      assert jobs[i] in jobs;
    }
  }

  method KeepApplicable(jobs: seq<Job>, plan: DesiredPlan) returns (pending: seq<Job>, seen: set<(string, string)>)
    ensures pending == Kept(plan, jobs) && seen == Keys(pending)
  {
    pending, seen := [], {};
    for i := 0 to |jobs|
      invariant pending == Kept(plan, jobs[..i])
      invariant seen == Keys(pending)
    {
      var job := jobs[i];
      assert jobs[..i + 1][..i] == jobs[..i];
      if Applicable(plan, job.recovery) {
        pending := pending + [job];
        seen := seen + {JobKey(job.recovery)};
      }
    }
    assert jobs[..|jobs|] == jobs;
  }

  // ---------- How long a job can wait ----------

  // The first jobs have got a token, and nothing else has changed.
  predicate Stamped(jobs: seq<Job>, stamped: seq<Job>, limit: nat) {
    && |stamped| == |jobs| && limit <= |jobs|
    && (forall i :: limit <= i < |jobs| ==> stamped[i] == jobs[i])
    && (forall i :: 0 <= i < limit ==>
          stamped[i].token.Some? && stamped[i].recovery == jobs[i].recovery
          && (jobs[i].token.Some? ==> stamped[i] == jobs[i]))
  }

  // One of the first jobs has no token yet.
  predicate Untokened(jobs: seq<Job>, limit: nat)
    requires limit <= |jobs|
  {
    exists i :: 0 <= i < limit && jobs[i].token.None?
  }

  // What a maintenance pass did: whether there was a control to use, the resets it
  // sent, and how the captures and the writes it made went.
  datatype Effort = Effort(control: bool, sent: seq<Reset>, captured: seq<bool>, written: seq<bool>)
  {
    predicate Quiet() {
      sent == [] && captured == [] && written == []
    }

    predicate Succeeds() {
      written == [true, true]
    }

    // It gives up at the first failure: of the one capture it may need, or of one of
    // the two writes.
    predicate InOrder(needed: bool) {
      if needed && captured == [false] then sent == [] && written == []
      else captured == (if needed then [true] else []) && written in {[false], [true, false], [true, true]}
    }
  }

  const NoEffort := Effort(false, [], [], [])

  predicate EndsWith(all: seq<bool>, last: seq<bool>) {
    |last| <= |all| && all[|all| - |last|..] == last
  }

  // What happens to the queue: a plan is applied, or a maintenance pass is made.
  datatype Round = Replan(plan: DesiredPlan, before: seq<Job>, after: seq<Job>)
                 | Pass(plan: DesiredPlan, before: seq<Job>, after: seq<Job>, effort: Effort)
  {
    function Width(): nat {
      if |Kept(plan, before)| < BATCH then |Kept(plan, before)| else BATCH
    }

    // Both writes of a pass were acknowledged, and the capture if it needed one.
    predicate Succeeds() {
      Pass? && effort.Succeeds()
    }

    predicate Made()
      requires Pass?
    {
      if before == [] || !effort.control then effort.Quiet() else effort.InOrder(Untokened(Kept(plan, before), Width()))
    }

    // Applying a plan keeps wanted jobs in front; a pass that succeeds tries the first
    // few and moves the others to the front; one that gives up leaves everything in
    // place, with or without the tokens it had taken.
    ghost predicate Holds() {
      match this
      case Replan(_, _, _) => Kept(plan, before) <= after
      case Pass(_, _, _, _) => Made() && if Succeeds() then Moves() else Stays()
    }

    ghost predicate Moves() {
      Kept(plan, before)[Width()..] <= after && forall job :: job in Kept(plan, before)[..Width()] ==> Tries(job.recovery)
    }

    ghost predicate Stays() {
      after == before || Stamped(Kept(plan, before), after, Width())
    }

    ghost predicate Tries(q: Recovery) {
      Pass? && exists reset :: reset in effort.sent && reset.job.recovery == q
    }

    ghost predicate Sends(resets: seq<Reset>) {
      Pass? ==> forall reset :: reset in effort.sent ==> reset in resets
    }
  }

  // Everything that happened to the queue so far led to these jobs.
  ghost predicate History(rounds: seq<Round>, jobs: seq<Job>, resets: seq<Reset>) {
    && (forall k :: 0 <= k < |rounds| ==> rounds[k].Holds() && rounds[k].Sends(resets))
    && (forall k :: 0 <= k < |rounds| - 1 ==> rounds[k].after == rounds[k + 1].before)
    && (rounds != [] ==> rounds[|rounds| - 1].after == jobs)
  }

  lemma HistoryGrows(rounds: seq<Round>, resets: seq<Reset>, round: Round, sent: seq<Reset>)
    requires History(rounds, round.before, resets) && round.Holds()
    requires resets <= sent && round.Sends(sent)
    ensures History(rounds + [round], round.after, sent)
  {
    forall k | 0 <= k < |rounds|
      ensures rounds[k].Sends(sent)
    {
      assert rounds[k].Sends(resets);
    }
  }

  ghost predicate IsRun(rounds: seq<Round>, q: Recovery) {
    && (forall k :: 0 <= k < |rounds| ==> rounds[k].Holds() && Applicable(rounds[k].plan, q))
    && (forall k :: 0 <= k < |rounds| - 1 ==> rounds[k].after == rounds[k + 1].before)
  }

  function Passes(rounds: seq<Round>): nat {
    if rounds == [] then 0 else (if rounds[0].Succeeds() then 1 else 0) + Passes(rounds[1..])
  }

  // A wanted job at position i is tried within i / 4 + 1 passes that succeed, however
  // many plans are applied and however many passes give up in between.
  lemma {:induction false} TriedInTime(rounds: seq<Round>, q: Recovery, i: nat)
    requires IsRun(rounds, q) && rounds != []
    requires i < |rounds[0].before| && rounds[0].before[i].recovery == q
    requires Passes(rounds) > i / BATCH
    ensures exists k :: 0 <= k < |rounds| && rounds[k].Tries(q)
    decreases |rounds|
  {
    var rest := rounds[1..];
    var tried, next := OneRound(rounds[0], q, i);
    if !tried {
      assert Passes(rounds) == (if rounds[0].Succeeds() then 1 else 0) + Passes(rest);
      assert Passes(rest) > next / BATCH && rest[0].before == rounds[0].after by {
        assert Passes(rest) > 0;
      }
      TriedInTime(rest, q, next);
      var k :| 0 <= k < |rest| && rest[k].Tries(q);
      assert rounds[k + 1].Tries(q);
    }
  }

  // In one round a wanted job is tried, moves up by the width of a pass that succeeds,
  // or at least does not fall back.
  lemma OneRound(round: Round, q: Recovery, i: nat) returns (tried: bool, next: nat)
    requires round.Holds() && Applicable(round.plan, q)
    requires i < |round.before| && round.before[i].recovery == q
    ensures tried ==> round.Tries(q)
    ensures !tried ==> next < |round.after| && round.after[next].recovery == q
    ensures !tried ==> if round.Succeeds() then next + BATCH <= i else next <= i
  {
    var kept := Kept(round.plan, round.before);
    var j := KeptPosition(round.plan, round.before, i);
    tried, next := round.Succeeds() && j < BATCH, j;
    if tried {
      assert kept[..round.Width()][j] == kept[j];
    } else if round.Succeeds() {
      next := j - BATCH;
      assert kept[round.Width()..][next] == kept[j];
    } else if round.Pass? && round.after == round.before {
      next := i;
    }
  }

  // ---------- The flow-control side of the adapter, and the state file ----------

  datatype ResetOutcome = Closed(count: nat) | StaleInstance | ResetFailed

  // A reset as it was sent, and what the state file held at that moment.
  datatype Reset = Reset(job: Job, outcome: ResetOutcome, saved: Option<AppliedPlan>)

  ghost predicate TokenSaved(reset: Reset) {
    reset.saved.Some? && reset.job.token.Some? && reset.job in reset.saved.value.jobs
  }

  // `resets` are the resets sent, and `captures` says which snapshots were obtained.
  class FlowControl {
    const available: bool
    ghost var resets: seq<Reset>
    ghost var captures: seq<bool>

    constructor (available: bool)
      ensures this.available == available && resets == [] && captures == []
    {
      this.available := available;
      resets, captures := [], [];
    }

    method FlowSnapshot() returns (token: Option<Token>)
      modifies this`captures
      ensures captures == old(captures) + [token.Some?]
    {
      token := *;
      captures := captures + [token.Some?];
    }

    method ResetFlow(job: Job, ghost saved: Option<AppliedPlan>) returns (outcome: ResetOutcome)
      modifies this`resets
      ensures resets == old(resets) + [Reset(job, outcome, saved)]
    {
      outcome := *;
      resets := resets + [Reset(job, outcome, saved)];
    }
  }

  // A write that fails may still have reached the disk; `writes` says which of them
  // were acknowledged.
  class StateFile {
    var saved: Option<AppliedPlan>
    ghost var writes: seq<bool>

    constructor (saved: Option<AppliedPlan>)
      ensures this.saved == saved && writes == []
    {
      this.saved, writes := saved, [];
    }

    method Write(plan: AppliedPlan) returns (ok: bool)
      modifies this
      ensures saved == old(saved) || saved == Some(plan)
      ensures ok ==> saved == Some(plan)
      ensures writes == old(writes) + [ok]
    {
      var effect: bool;
      ok, effect := *, *;
      writes := writes + [ok];
      if ok || effect {
        saved := Some(plan);
      }
    }
  }
}
