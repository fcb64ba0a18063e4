// The manager of a probe Xray process: leases belong to the epoch of one process,
// and a recycle drains them before the next process gets the next epoch.
module ProbeRuntime {
  datatype Reason = NoReason | CleanupFailure | ChildExit | ReadinessFailure | RssLimit | FdLimit | ProbeLimit

  function Rank(reason: Reason): nat {
    match reason
    case CleanupFailure => 0
    case ChildExit => 1
    case ReadinessFailure => 2
    case RssLimit => 3
    case FdLimit => 4
    case ProbeLimit => 5
    case NoReason => 6
  }

  // A limit of probes of 0 stands for no limit.
  datatype Limits = Limits(maxProbes: nat, maxRSS: int, maxFDs: int)

  datatype Metrics = Unread | Read(rss: int, fds: int)

  // What a release finds out between its two critical sections.
  datatype Observation = Observation(cleanupFailed: bool, exited: bool, unready: bool, metrics: Metrics)

  predicate Applies(reason: Reason, o: Observation, completed: nat, limits: Limits) {
    match reason
    case CleanupFailure => o.cleanupFailed
    case ChildExit => o.exited
    case ReadinessFailure => o.unready
    case RssLimit => o.metrics.Read? && o.metrics.rss >= limits.maxRSS
    case FdLimit => o.metrics.Read? && o.metrics.fds >= limits.maxFDs
    case ProbeLimit => limits.maxProbes != 0 && completed >= limits.maxProbes
    case NoReason => true
  }

  function ReasonFor(o: Observation, completed: nat, limits: Limits): Reason {
    if o.cleanupFailed then CleanupFailure
    else if o.exited then ChildExit
    else if o.unready then ReadinessFailure
    else if o.metrics.Read? && o.metrics.rss >= limits.maxRSS then RssLimit
    else if o.metrics.Read? && o.metrics.fds >= limits.maxFDs then FdLimit
    else if limits.maxProbes != 0 && completed >= limits.maxProbes then ProbeLimit
    else NoReason
  }

  // The order of the checks is the order in which recycle reasons outrank each other.
  lemma ReasonIsStrongest(o: Observation, completed: nat, limits: Limits)
    ensures Applies(ReasonFor(o, completed, limits), o, completed, limits)
    ensures forall r :: Applies(r, o, completed, limits) ==> Rank(ReasonFor(o, completed, limits)) <= Rank(r)
  {
  }

  // ---------- The manager, one function per critical section ----------

  datatype Lease = Lease(epoch: nat, active: bool)

  datatype Manager = Manager(
    startCalled: bool, starting: bool, ready: bool, draining: bool, degraded: bool, closed: bool, resetting: bool,
    epoch: nat, completed: nat, recycles: nat, reason: Reason, token: bool, leases: seq<Lease>, active: set<nat>)
  {
    predicate CanGrant() {
      !closed && startCalled && ready && !draining
    }

    function Grant(): Manager {
      this.(leases := leases + [Lease(epoch, true)], active := active + {|leases|})
    }

    function Request(why: Reason): Manager {
      if closed then this
      else if draining then (if Rank(why) < Rank(reason) then this.(reason := why) else this)
      else if !ready then this
      else this.(draining := true, reason := why, token := true)
    }

    function ReleaseBegin(l: nat): Manager
      requires l < |leases|
    {
      if !leases[l].active then this
      else this.(leases := leases[l := leases[l].(active := false)],
                 completed := if leases[l].epoch == epoch && !closed then completed + 1 else completed)
    }

    predicate Accountable(l: nat)
      requires l < |leases|
    {
      l in active && leases[l].epoch == epoch && !closed
    }

    function ReleaseEnd(l: nat, why: Reason): Manager
      requires l < |leases|
    {
      var released := this.(active := active - {l});
      if Accountable(l) && why != NoReason then released.Request(why) else released
    }

    function TakeToken(): Manager {
      this.(token := false, recycles := if closed then recycles else recycles + 1)
    }

    function Drained(): Manager {
      this.(leases := seq(|leases|, i requires 0 <= i < |leases| => if i in active then leases[i].(active := false) else leases[i]),
            active := {})
    }

    function BeginStop(childExited: bool): Manager {
      (if childExited then Request(ChildExit) else this).(starting := true, ready := false)
    }

    function Failed(): Manager {
      this.(starting := false, draining := false, degraded := true)
    }

    function Replace(): Manager {
      this.(epoch := epoch + 1, completed := 0, resetting := true)
    }

    function Recycled(exited: bool): Manager {
      if exited then
        this.(resetting := false, reason := ChildExit, starting := false, ready := false, draining := false, degraded := true)
      else this.(resetting := false, starting := false, draining := false, degraded := false, ready := true)
    }

    function Started(exited: bool): Manager {
      if exited then this.(resetting := false, starting := false, degraded := true)
      else this.(resetting := false, starting := false, ready := true, degraded := false)
    }

    function Closed(): Manager {
      Drained().(closed := true, ready := false, draining := true)
    }
  }

  const Unstarted :=
    Manager(false, false, false, false, false, false, false, 0, 0, 0, NoReason, false, [], {})

  class Runtime {
    const limits: Limits
    var startCalled: bool
    var starting: bool
    var ready: bool
    var draining: bool
    var degraded: bool
    var closed: bool
    var resetting: bool
    var epoch: nat
    var completedProbes: nat
    var recycleCount: nat
    var lastRecycleReason: Reason
    var recycleRequests: bool
    var leases: seq<Lease>
    var active: set<nat>

    function State(): Manager
      reads this
    {
      Manager(startCalled, starting, ready, draining, degraded, closed, resetting, epoch, completedProbes, recycleCount,
              lastRecycleReason, recycleRequests, leases, active)
    }

    constructor (limits: Limits)
      ensures State() == Unstarted && this.limits == limits
    {
      this.limits := limits;
      startCalled, starting, ready, draining, degraded, closed, resetting := false, false, false, false, false, false, false;
      epoch, completedProbes, recycleCount := 0, 0, 0;
      lastRecycleReason, recycleRequests, leases, active := NoReason, false, [], {};
    }

    method Acquire() returns (granted: bool, lease: nat)
      modifies this
      ensures granted == old(State()).CanGrant()
      ensures granted ==> lease == |old(leases)| && State() == old(State()).Grant()
      ensures !granted ==> State() == old(State())
    {
      if closed || !startCalled || !ready || draining {
        return false, 0;
      }
      granted, lease := true, |leases|;
      leases := leases + [Lease(epoch, true)];
      active := active + {lease};
    }

    // The first half of a release counts the lease; the second half looks at what the
    // process looks like by then.
    method ReleaseBegin(lease: nat) returns (proceed: bool, completed: nat)
      requires lease < |leases|
      modifies this
      ensures State() == old(State()).ReleaseBegin(lease)
      ensures proceed == old(leases)[lease].active && completed == completedProbes
    {
      if !leases[lease].active {
        return false, completedProbes;
      }
      leases := leases[lease := leases[lease].(active := false)];
      if leases[lease].epoch == epoch && !closed {
        completedProbes := completedProbes + 1;
      }
      return true, completedProbes;
    }

    method ReleaseEnd(lease: nat, o: Observation, completed: nat)
      requires lease < |leases|
      modifies this
      ensures State() == old(State()).ReleaseEnd(lease, ReasonFor(o, completed, limits))
    {
      var tracked := lease in active;
      active := active - {lease};
      if tracked && leases[lease].epoch == epoch && !closed {
        var reason := NoReason;
        if o.cleanupFailed {
          reason := CleanupFailure;
        } else if o.exited {
          reason := ChildExit;
        } else if o.unready {
          reason := ReadinessFailure;
        } else if o.metrics.Read? && o.metrics.rss >= limits.maxRSS {
          reason := RssLimit;
        } else if o.metrics.Read? && o.metrics.fds >= limits.maxFDs {
          reason := FdLimit;
        } else if limits.maxProbes != 0 && completed >= limits.maxProbes {
          reason := ProbeLimit;
        }
        if reason != NoReason {
          RequestRecycle(reason);
        }
      }
    }

    method RequestRecycle(why: Reason)
      modifies this
      ensures State() == old(State()).Request(why)
    {
      if closed {
        return;
      }
      if draining {
        if Rank(why) < Rank(lastRecycleReason) {
          lastRecycleReason := why;
        }
        return;
      }
      if !ready {
        return;
      }
      draining := true;
      lastRecycleReason := why;
      recycleRequests := true;
    }

    method TakeToken() returns (proceed: bool)
      modifies this
      ensures State() == old(State()).TakeToken() && proceed == !closed
    {
      recycleRequests := false;
      if closed {
        return false;
      }
      recycleCount := recycleCount + 1;
      return true;
    }

    // Take back every lease that is still out.
    method DropLeases()
      requires forall l :: l in active ==> l < |leases|
      modifies this`leases, this`active
      ensures State() == old(State()).Drained()
    {
      while active != {}
        invariant active <= old(active) && |leases| == |old(leases)|
        invariant forall i :: 0 <= i < |leases| ==>
          leases[i] == if i in old(active) - active then old(leases)[i].(active := false) else old(leases)[i]
      {
        var l :| l in active;
        leases := leases[l := leases[l].(active := false)];
        active := active - {l};
      }
    }

    method BeginStop(childExited: bool)
      modifies this
      ensures State() == old(State()).BeginStop(childExited)
    {
      if childExited {
        RequestRecycle(ChildExit);
      }
      starting := true;
      ready := false;
    }

    method Replace()
      modifies this
      ensures State() == old(State()).Replace()
    {
      epoch := epoch + 1;
      completedProbes := 0;
      resetting := true;
    }

    method FinishReset(exited: bool)
      modifies this
      ensures State() == old(State()).Recycled(exited)
    {
      resetting := false;
      if exited {
        lastRecycleReason := ChildExit;
        starting, ready, draining, degraded := false, false, false, true;
        return;
      }
      starting, draining, degraded, ready := false, false, false, true;
    }

    method FinishStart(exited: bool)
      modifies this
      ensures State() == old(State()).Started(exited)
    {
      resetting, starting := false, false;
      degraded := exited;
      if !exited {
        ready := true;
      }
    }

    method RecycleFailed()
      modifies this
      ensures State() == old(State()).Failed()
    {
      starting, draining, degraded := false, false, true;
    }

    method Close()
      requires forall l :: l in active ==> l < |leases|
      modifies this
      ensures State() == old(State()).Closed()
    {
      closed, ready, draining := true, false, true;
      DropLeases();
    }
  }

  // ---------- Callers, the recycle worker and the process, in any interleaving ----------

  datatype Starter = NotCalled | Launching | FirstReset | Returned

  datatype Worker = NoWorker | Idle | Draining | Stopping | Replacing | Resetting

  datatype Releasing = Held | Checking(completed: nat) | Released

  datatype Event = Requested | BecameReady | Granted

  // `ended` is the end of the manager's lifetime context; `counts` lists which lease
  // was counted in which epoch.
  datatype State = State(m: Manager, starter: Starter, worker: Worker, ended: bool, releases: seq<Releasing>,
                         counts: seq<(nat, nat)>, trace: seq<Event>)

  datatype Step = StartBegins | Launches(ok: bool) | FirstResetEnds(exited: bool)
                | Acquires | ReleaseBegins(l: nat) | ReleaseEnds(l: nat, o: Observation) | ChildExits
                | TakesToken | DrainEnds(timedOut: bool) | StopBegins(exited: bool) | Replaces(ok: bool) | ResetEnds(exited: bool)
                | LifetimeEnds | Closes

  const Initial := State(Unstarted, NotCalled, NoWorker, false, [], [], [])

  predicate Over(s: State) {
    s.m.closed || s.ended
  }

  predicate Enabled(s: State, step: Step) {
    match step
    case StartBegins => s.starter.NotCalled? && !s.m.closed
    case Launches(_) => s.starter.Launching?
    case FirstResetEnds(_) => s.starter.FirstReset?
    case Acquires => s.m.CanGrant()
    case ReleaseBegins(l) => l < |s.m.leases| && l < |s.releases| && s.releases[l].Held?
    case ReleaseEnds(l, _) => l < |s.m.leases| && l < |s.releases| && s.releases[l].Checking?
    case ChildExits => !s.worker.NoWorker?
    case TakesToken => s.worker.Idle? && s.m.token
    case DrainEnds(timedOut) => s.worker.Draining? && (Over(s) || timedOut || s.m.active == {})
    case StopBegins(_) => s.worker.Stopping?
    case Replaces(_) => s.worker.Replacing?
    case ResetEnds(_) => s.worker.Resetting?
    case LifetimeEnds => true
    case Closes => true
  }

  function With(s: State, m: Manager): State {
    s.(m := m, trace := s.trace + (if m.token && !s.m.token then [Requested] else []))
  }

  function After(s: State, step: Step, limits: Limits): State
    requires Enabled(s, step)
  {
    match step
    case StartBegins => s.(m := s.m.(startCalled := true, starting := true), starter := Launching)
    case Launches(ok) =>
      if !ok || Over(s) then s.(m := s.m.(starting := false, degraded := true), ended := true, starter := Returned)
      else s.(m := s.m.(epoch := 1, resetting := true), starter := FirstReset)
    case FirstResetEnds(exited) =>
      if Over(s) then
        s.(m := if s.m.closed then s.m.(resetting := false) else s.m.(resetting := false, starting := false, degraded := true),
           ended := true, starter := Returned)
      else if exited then s.(m := s.m.Started(true), ended := true, starter := Returned)
      else s.(m := s.m.Started(false), starter := Returned, worker := Idle, trace := s.trace + [BecameReady])
    case Acquires => s.(m := s.m.Grant(), releases := s.releases + [Held], trace := s.trace + [Granted])
    case ReleaseBegins(l) =>
      var m := s.m.ReleaseBegin(l);
      s.(m := m,
         releases := s.releases[l := if s.m.leases[l].active then Checking(m.completed) else Released],
         counts := if m.completed > s.m.completed then s.counts + [(l, s.m.epoch)] else s.counts)
    case ReleaseEnds(l, o) =>
      With(s, s.m.ReleaseEnd(l, ReasonFor(o, s.releases[l].completed, limits))).(releases := s.releases[l := Released])
    case ChildExits => With(s, s.m.Request(ChildExit))
    case TakesToken => s.(m := s.m.TakeToken(), worker := if s.m.closed then Idle else Draining)
    case DrainEnds(timedOut) =>
      if Over(s) then s.(worker := Idle) else s.(m := s.m.Drained(), worker := Stopping)
    case StopBegins(exited) =>
      if s.m.closed then s.(worker := Idle) else With(s, s.m.BeginStop(exited)).(worker := Replacing)
    case Replaces(ok) =>
      if !ok then s.(m := s.m.Failed(), worker := Idle)
      else if Over(s) then s.(worker := Idle)
      else s.(m := s.m.Replace(), worker := Resetting)
    case ResetEnds(exited) =>
      if Over(s) then s.(m := s.m.(resetting := false), worker := Idle)
      else s.(m := s.m.Recycled(exited), worker := Idle, trace := if exited then s.trace else s.trace + [BecameReady])
    case LifetimeEnds => s.(ended := true)
    case Closes => s.(m := s.m.Closed(), ended := true)
  }

  ghost predicate Run(states: seq<State>, steps: seq<Step>, limits: Limits) {
    && |states| == |steps| + 1 && states[0] == Initial
    && forall k :: 0 <= k < |steps| ==> Enabled(states[k], steps[k]) && states[k + 1] == After(states[k], steps[k], limits)
  }

  // ---------- What every step keeps ----------

  predicate Recycling(s: State) {
    s.worker.Draining? || s.worker.Stopping? || s.worker.Replacing? || s.worker.Resetting?
  }

  // The stages of a start and of a recycle, as the flags show them.
  ghost predicate StageInv(s: State) {
    && (s.starter.NotCalled? ==> !s.m.startCalled)
    && (!s.starter.Returned? ==> s.worker.NoWorker? && s.m.completed == 0)
    && (s.worker.NoWorker? ==> !s.m.ready && !s.m.token && s.m.leases == [] && s.counts == [] && s.m.recycles == 0)
    && (s.worker.NoWorker? && !s.m.closed ==> !s.m.draining)
    && (s.m.closed ==> s.ended && !s.m.ready && s.m.active == {})
    && (s.m.token ==> !Recycling(s) && (s.m.draining || s.m.closed))
    && (!Over(s) ==> (s.m.draining <==> s.m.token || Recycling(s)))
    && (Recycling(s) && !s.m.closed ==> s.m.draining)
    && (s.worker.Stopping? || s.worker.Replacing? || s.worker.Resetting? ==> s.m.active == {})
    && (s.worker.Replacing? || s.worker.Resetting? ==> !s.m.ready)
    && (s.worker.Resetting? ==> s.m.completed == 0)
  }

  // Tracked leases are of the current epoch; a lease that can still be released is
  // tracked, and one that was taken back or released is not active any more.
  ghost predicate LeasesOk(leases: seq<Lease>, active: set<nat>, epoch: nat, releases: seq<Releasing>) {
    && |releases| == |leases|
    && (forall l :: l in active ==>
          l < |leases| && leases[l].epoch == epoch && !releases[l].Released? && (releases[l].Held? ==> leases[l].active))
    && (forall l: nat :: l < |leases| && leases[l].active ==> l in active && releases[l].Held?)
    && (forall l: nat :: l < |leases| ==> leases[l].epoch <= epoch)
  }

  ghost predicate LeaseInv(s: State) {
    LeasesOk(s.m.leases, s.m.active, s.m.epoch, s.releases)
  }

  function CountsIn(counts: seq<(nat, nat)>, epoch: nat): nat {
    if counts == [] then 0
    else CountsIn(counts[..|counts| - 1], epoch) + if counts[|counts| - 1].1 == epoch then 1 else 0
  }

  // A counted lease has been released, and was counted in its own epoch.
  predicate Counted(leases: seq<Lease>, releases: seq<Releasing>, c: (nat, nat)) {
    c.0 < |leases| && c.0 < |releases| && leases[c.0].epoch == c.1 && !releases[c.0].Held? && !leases[c.0].active
  }

  ghost predicate CountsOk(leases: seq<Lease>, releases: seq<Releasing>, counts: seq<(nat, nat)>) {
    && (forall c :: c in counts ==> Counted(leases, releases, c))
    && (forall i, j :: 0 <= i < j < |counts| ==> counts[i].0 != counts[j].0)
  }

  ghost predicate CountInv(s: State) {
    CountsOk(s.m.leases, s.releases, s.counts) && s.m.completed == CountsIn(s.counts, s.m.epoch)
  }

  ghost predicate NoneAfter(t: seq<Event>, i: int, e: Event) {
    forall k :: 0 <= k && i < k < |t| ==> t[k] != e
  }

  ghost predicate ReadySinceRequest(t: seq<Event>) {
    exists i :: 0 <= i < |t| && t[i] == BecameReady && NoneAfter(t, i, Requested)
  }

  function Requests(t: seq<Event>): nat {
    if t == [] then 0 else Requests(t[..|t| - 1]) + if t[|t| - 1].Requested? then 1 else 0
  }

  ghost predicate TraceInv(s: State) {
    && (s.m.CanGrant() ==> ReadySinceRequest(s.trace))
    && (!s.m.closed ==> Requests(s.trace) == s.m.recycles + if s.m.token then 1 else 0)
  }

  predicate OverLimit(s: State, l: nat, limits: Limits) {
    && l < |s.m.leases| && l < |s.releases| && l in s.m.active
    && s.releases[l].Checking? && s.releases[l].completed >= limits.maxProbes
  }

  // While the limit of probes is exceeded and leases are still granted, one release
  // that will ask for the recycle is under way.
  ghost predicate LimitInv(s: State, limits: Limits) {
    limits.maxProbes != 0 && s.m.CanGrant() && s.m.completed >= limits.maxProbes ==>
      exists l :: OverLimit(s, l, limits)
  }

  ghost predicate Inv(s: State, limits: Limits) {
    StageInv(s) && LeaseInv(s) && CountInv(s) && TraceInv(s) && LimitInv(s, limits)
  }

  predicate Starts(step: Step) {
    step.StartBegins? || step.Launches? || step.FirstResetEnds?
  }

  predicate Recycles(step: Step) {
    step.StopBegins? || step.Replaces? || step.ResetEnds?
  }

  lemma StageOfStart(s: State, step: Step, limits: Limits)
    requires StageInv(s) && Enabled(s, step) && Starts(step)
    ensures StageInv(After(s, step, limits))
  {
  }

  lemma StageOfRecycle(s: State, step: Step, limits: Limits)
    requires StageInv(s) && Enabled(s, step) && Recycles(step)
    ensures StageInv(After(s, step, limits))
  {
  }

  lemma StageOfDrain(s: State, step: Step, limits: Limits)
    requires StageInv(s) && Enabled(s, step) && (step.TakesToken? || step.DrainEnds? || step.LifetimeEnds? || step.Closes?)
    ensures StageInv(After(s, step, limits))
  {
  }

  lemma StageOfLease(s: State, step: Step, limits: Limits)
    requires StageInv(s) && LeaseInv(s) && Enabled(s, step) && (step.Acquires? || step.ReleaseBegins?)
    ensures StageInv(After(s, step, limits))
  {
  }

  // A request from a release or a child that exited.
  lemma StageOfRequest(s: State, step: Step, limits: Limits)
    requires StageInv(s) && LeaseInv(s) && Enabled(s, step) && (step.ReleaseEnds? || step.ChildExits?)
    ensures StageInv(After(s, step, limits))
  {
    var m' := After(s, step, limits).m;
    if step.ReleaseEnds? {
      ReleaseEndFacts(s.m, step.l, ReasonFor(step.o, s.releases[step.l].completed, limits), m');
    } else {
      RequestFacts(s.m, ChildExit);
    }
  }

  lemma StageKept(s: State, step: Step, limits: Limits)
    requires StageInv(s) && LeaseInv(s) && Enabled(s, step)
    ensures StageInv(After(s, step, limits))
  {
    if Starts(step) {
      StageOfStart(s, step, limits);
    } else if Recycles(step) {
      StageOfRecycle(s, step, limits);
    } else if step.Acquires? || step.ReleaseBegins? {
      StageOfLease(s, step, limits);
    } else if step.ReleaseEnds? || step.ChildExits? {
      StageOfRequest(s, step, limits);
    } else {
      StageOfDrain(s, step, limits);
    }
  }

  lemma LeaseKept(s: State, step: Step, limits: Limits)
    requires StageInv(s) && LeaseInv(s) && Enabled(s, step)
    ensures LeaseInv(After(s, step, limits))
  {
    if step.Acquires? {
      LeaseGranted(s.m.leases, s.m.active, s.m.epoch, s.releases);
    } else if step.ReleaseBegins? {
      LeaseReleased(s.m.leases, s.m.active, s.m.epoch, s.releases, step.l, s.m.ReleaseBegin(step.l).completed);
    } else if step.ReleaseEnds? {
      LeaseChecked(s, step, limits);
    } else if step.DrainEnds? || step.Closes? {
      LeasesDropped(s.m, s.releases);
    } else {
      LeasesUntouched(s, step, limits);
    }
  }

  lemma LeaseGranted(leases: seq<Lease>, active: set<nat>, epoch: nat, releases: seq<Releasing>)
    requires LeasesOk(leases, active, epoch, releases)
    ensures LeasesOk(leases + [Lease(epoch, true)], active + {|leases|}, epoch, releases + [Held])
  {
  }

  lemma LeaseChecked(s: State, step: Step, limits: Limits)
    requires LeaseInv(s) && Enabled(s, step) && step.ReleaseEnds?
    ensures LeaseInv(After(s, step, limits))
  {
    ReleaseEndFacts(s.m, step.l, ReasonFor(step.o, s.releases[step.l].completed, limits), After(s, step, limits).m);
  }

  // All other steps leave the leases alone, and a new epoch finds none of them tracked.
  lemma LeasesUntouched(s: State, step: Step, limits: Limits)
    requires StageInv(s) && LeaseInv(s) && Enabled(s, step)
    requires !step.Acquires? && !step.ReleaseBegins? && !step.ReleaseEnds? && !step.DrainEnds? && !step.Closes?
    ensures LeaseInv(After(s, step, limits))
  {
    if step.Replaces? || step.Launches? {
      EpochMoves(s, step, limits);
    } else {
      BooksUntouched(s, step, limits, After(s, step, limits));
    }
  }

  lemma EpochMoves(s: State, step: Step, limits: Limits)
    requires StageInv(s) && LeaseInv(s) && Enabled(s, step) && (step.Replaces? || step.Launches?)
    ensures LeaseInv(After(s, step, limits))
  {
  }

  lemma BooksUntouched(s: State, step: Step, limits: Limits, s': State)
    requires Enabled(s, step) && s' == After(s, step, limits)
    requires !step.Acquires? && !step.ReleaseBegins? && !step.ReleaseEnds? && !step.DrainEnds? && !step.Closes?
    requires !step.Replaces? && !step.Launches?
    ensures s'.m.leases == s.m.leases && s'.m.active == s.m.active && s'.m.epoch == s.m.epoch
    ensures s'.releases == s.releases && s'.counts == s.counts && s'.m.completed == s.m.completed
  {
    if step.ChildExits? || step.StopBegins? {
      RequestFacts(s.m, ChildExit);
    }
  }

  lemma LeaseReleased(leases: seq<Lease>, active: set<nat>, epoch: nat, releases: seq<Releasing>, l: nat, completed: nat)
    requires LeasesOk(leases, active, epoch, releases) && l < |leases| && releases[l].Held?
    ensures LeasesOk(leases[l := leases[l].(active := false)], active, epoch, releases[l := Checking(completed)])
    ensures !leases[l].active ==> LeasesOk(leases, active, epoch, releases[l := Released])
  {
  }

  lemma LeasesDropped(m: Manager, releases: seq<Releasing>)
    requires LeasesOk(m.leases, m.active, m.epoch, releases)
    ensures LeasesOk(m.Drained().leases, {}, m.epoch, releases)
  {
  }

  lemma {:induction false} NoCountsAhead(counts: seq<(nat, nat)>, epoch: nat)
    requires forall c :: c in counts ==> c.1 < epoch
    ensures CountsIn(counts, epoch) == 0
  {
    if counts != [] {
      assert counts[|counts| - 1] in counts;
      NoCountsAhead(counts[..|counts| - 1], epoch);
    }
  }

  lemma CountKept(s: State, step: Step, limits: Limits)
    requires StageInv(s) && LeaseInv(s) && CountInv(s) && Enabled(s, step)
    ensures CountInv(After(s, step, limits))
  {
    if step.ReleaseBegins? {
      ReleaseBeginCounts(s, step.l, limits);
    } else if step.ReleaseEnds? {
      ReleaseEndCounts(s, step.l, step.o, limits);
    } else if step.Acquires? || step.DrainEnds? || step.Closes? {
      CountsLater(s, After(s, step, limits));
    } else {
      CountsUntouched(s, step, limits);
    }
  }

  // All other steps leave the counts alone, and a new epoch begins to count afresh.
  lemma CountsUntouched(s: State, step: Step, limits: Limits)
    requires StageInv(s) && LeaseInv(s) && CountInv(s) && Enabled(s, step)
    requires !step.ReleaseBegins? && !step.ReleaseEnds? && !step.Acquires? && !step.DrainEnds? && !step.Closes?
    ensures CountInv(After(s, step, limits))
  {
    if step.Replaces? || step.Launches? {
      CountsAfresh(s, step, limits);
    } else {
      BooksUntouched(s, step, limits, After(s, step, limits));
    }
  }

  lemma CountsAfresh(s: State, step: Step, limits: Limits)
    requires StageInv(s) && LeaseInv(s) && CountInv(s) && Enabled(s, step) && (step.Replaces? || step.Launches?)
    ensures CountInv(After(s, step, limits))
  {
    assert forall c :: c in s.counts ==> Counted(s.m.leases, s.releases, c) && c.1 <= s.m.epoch;
    NoCountsAhead(s.counts, s.m.epoch + 1);
  }

  lemma CountsLater(s: State, s': State)
    requires CountInv(s) && s'.counts == s.counts && s'.m.completed == s.m.completed && s'.m.epoch == s.m.epoch
    requires |s.m.leases| <= |s'.m.leases| && |s.releases| <= |s'.releases|
    requires forall l :: 0 <= l < |s.m.leases| ==>
      s'.m.leases[l].epoch == s.m.leases[l].epoch && (s'.m.leases[l].active ==> s.m.leases[l].active)
    requires forall l :: 0 <= l < |s.releases| && s'.releases[l].Held? ==> s.releases[l].Held?
    ensures CountInv(s')
  {
    forall c | c in s.counts
      ensures Counted(s'.m.leases, s'.releases, c)
    {
      assert Counted(s.m.leases, s.releases, c);
    }
  }

  lemma ReleaseEndFacts(m: Manager, l: nat, why: Reason, m': Manager)
    requires l < |m.leases| && m' == m.ReleaseEnd(l, why)
    ensures m' == m.(active := m.active - {l}, draining := m'.draining, reason := m'.reason, token := m'.token)
    ensures m'.token ==> m.token || m'.draining
    ensures m.token ==> m'.token
    ensures m'.CanGrant() ==> m.CanGrant()
  {
    RequestFacts(m.(active := m.active - {l}), why);
  }

  lemma RequestFacts(m: Manager, why: Reason)
    ensures var m' := m.Request(why);
      && m' == m.(draining := m'.draining, reason := m'.reason, token := m'.token)
      && (m'.token ==> m.token || m'.draining) && (m.token ==> m'.token)
      && (m'.CanGrant() ==> m.CanGrant())
  {
  }

  lemma ReleaseEndCounts(s: State, l: nat, o: Observation, limits: Limits)
    requires CountInv(s) && Enabled(s, ReleaseEnds(l, o))
    ensures CountInv(After(s, ReleaseEnds(l, o), limits))
  {
    var s' := After(s, ReleaseEnds(l, o), limits);
    ReleaseEndFacts(s.m, l, ReasonFor(o, s.releases[l].completed, limits), s'.m);
    CountsLater(s, s');
  }

  lemma ReleaseBeginCounts(s: State, l: nat, limits: Limits)
    requires LeaseInv(s) && CountInv(s) && Enabled(s, ReleaseBegins(l))
    ensures CountInv(After(s, ReleaseBegins(l), limits))
  {
    var m := s.m.ReleaseBegin(l);
    var releases := s.releases[l := if s.m.leases[l].active then Checking(m.completed) else Released];
    ReleaseIsCounted(s.m, s.releases, s.counts, l, m, releases);
  }

  lemma ReleaseIsCounted(m: Manager, releases: seq<Releasing>, counts: seq<(nat, nat)>, l: nat,
                         m': Manager, releases': seq<Releasing>)
    requires LeasesOk(m.leases, m.active, m.epoch, releases) && CountsOk(m.leases, releases, counts)
    requires m.completed == CountsIn(counts, m.epoch) && l < |m.leases| && releases[l].Held?
    requires m' == m.ReleaseBegin(l)
    requires releases' == releases[l := if m.leases[l].active then Checking(m'.completed) else Released]
    ensures var counts' := if m'.completed > m.completed then counts + [(l, m.epoch)] else counts;
      CountsOk(m'.leases, releases', counts') && m'.completed == CountsIn(counts', m'.epoch)
  {
    CountsSurvive(m.leases, releases, counts, l, m'.leases, releases');
    if m'.completed > m.completed {
      assert Counted(m'.leases, releases', (l, m.epoch));
      OneMoreCount(m'.leases, releases', counts, l, m.epoch);
    }
  }

  lemma OneMoreCount(leases: seq<Lease>, releases: seq<Releasing>, counts: seq<(nat, nat)>, l: nat, epoch: nat)
    requires CountsOk(leases, releases, counts) && (forall c :: c in counts ==> c.0 != l)
    requires Counted(leases, releases, (l, epoch))
    ensures CountsOk(leases, releases, counts + [(l, epoch)])
    ensures CountsIn(counts + [(l, epoch)], epoch) == CountsIn(counts, epoch) + 1
  {
    assert (counts + [(l, epoch)])[..|counts|] == counts;
  }

  lemma CountsSurvive(leases: seq<Lease>, releases: seq<Releasing>, counts: seq<(nat, nat)>, l: nat,
                      leases': seq<Lease>, releases': seq<Releasing>)
    requires CountsOk(leases, releases, counts) && l < |leases| && l < |releases| && releases[l].Held?
    requires |leases'| == |leases| && |releases'| == |releases|
    requires forall i :: 0 <= i < |leases| && i != l ==> leases'[i] == leases[i]
    requires forall i :: 0 <= i < |releases| && i != l ==> releases'[i] == releases[i]
    ensures CountsOk(leases', releases', counts) && forall c :: c in counts ==> c.0 != l
  {
    forall c | c in counts
      ensures Counted(leases', releases', c) && c.0 != l
    {
      assert Counted(leases, releases, c);
    }
  }

  lemma TraceKept(s: State, step: Step, limits: Limits)
    requires StageInv(s) && TraceInv(s) && Enabled(s, step)
    ensures TraceInv(After(s, step, limits))
  {
    if step.FirstResetEnds? || step.ResetEnds? {
      ReadyTrace(s, After(s, step, limits));
    } else if step.Acquires? {
      GrantTrace(s, After(s, step, limits));
    } else if step.ReleaseEnds? {
      ReleaseEndTrace(s, step.l, step.o, limits);
    } else if step.ChildExits? || step.StopBegins? {
      RequestTrace(s, After(s, step, limits));
    } else {
      TraceUntouched(s, step, limits);
    }
  }

  lemma TraceUntouched(s: State, step: Step, limits: Limits)
    requires StageInv(s) && TraceInv(s) && Enabled(s, step)
    requires !step.FirstResetEnds? && !step.ResetEnds? && !step.Acquires? && !step.ReleaseEnds?
    requires !step.ChildExits? && !step.StopBegins?
    ensures TraceInv(After(s, step, limits))
  {
  }

  lemma ReadyTrace(s: State, s': State)
    requires s'.trace == s.trace || s'.trace == s.trace + [BecameReady]
    requires s'.m.closed == s.m.closed && s'.m.recycles == s.m.recycles && s'.m.token == s.m.token
    requires TraceInv(s) && (s'.m.CanGrant() && s'.trace == s.trace ==> s.m.CanGrant())
    ensures TraceInv(s')
  {
    if s'.trace != s.trace {
      assert s'.trace[..|s.trace|] == s.trace;
      assert s'.trace[|s.trace|] == BecameReady && NoneAfter(s'.trace, |s.trace|, Requested);
    }
  }

  lemma GrantTrace(s: State, s': State)
    requires s'.trace == s.trace + [Granted] && s.m.CanGrant() && s'.m == s.m.Grant()
    requires TraceInv(s)
    ensures TraceInv(s')
  {
    assert s'.trace[..|s.trace|] == s.trace;
    var i :| 0 <= i < |s.trace| && s.trace[i] == BecameReady && NoneAfter(s.trace, i, Requested);
    assert NoneAfter(s'.trace, i, Requested);
  }

  lemma ReleaseEndTrace(s: State, l: nat, o: Observation, limits: Limits)
    requires TraceInv(s) && Enabled(s, ReleaseEnds(l, o))
    ensures TraceInv(After(s, ReleaseEnds(l, o), limits))
  {
    var s' := After(s, ReleaseEnds(l, o), limits);
    ReleaseEndFacts(s.m, l, ReasonFor(o, s.releases[l].completed, limits), s'.m);
    RequestTrace(s, s');
  }

  // A request leaves things as they are, or sets the token and stops the granting.
  lemma RequestTrace(s: State, s': State)
    requires s'.trace == s.trace + if s'.m.token && !s.m.token then [Requested] else []
    requires s'.m.closed == s.m.closed && s'.m.recycles == s.m.recycles
    requires s'.m.token ==> s.m.token || s'.m.draining
    requires s.m.token ==> s'.m.token
    requires s'.m.CanGrant() ==> s.m.CanGrant()
    requires TraceInv(s)
    ensures TraceInv(s')
  {
    if s'.trace != s.trace {
      assert s'.trace[..|s.trace|] == s.trace;
    }
  }

  // The lease that exceeds the limit is itself still being checked.
  lemma LimitKept(s: State, step: Step, limits: Limits)
    requires StageInv(s) && LeaseInv(s) && CountInv(s) && LimitInv(s, limits) && Enabled(s, step)
    ensures LimitInv(After(s, step, limits), limits)
  {
    var s' := After(s, step, limits);
    if limits.maxProbes != 0 && s'.m.CanGrant() && s'.m.completed >= limits.maxProbes {
      if step.ReleaseBegins? && s'.m.completed > s.m.completed {
        assert OverLimit(s', step.l, limits);
      } else if step.ReleaseEnds? {
        LimitKeptByRelease(s, step.l, step.o, limits);
      } else {
        var l :| OverLimit(s, l, limits);
        assert OverLimit(s', l, limits);
      }
    }
  }

  lemma LimitKeptByRelease(s: State, r: nat, o: Observation, limits: Limits)
    requires StageInv(s) && LeaseInv(s) && LimitInv(s, limits) && Enabled(s, ReleaseEnds(r, o)) && limits.maxProbes != 0
    ensures LimitInv(After(s, ReleaseEnds(r, o), limits), limits)
  {
    var s', why := After(s, ReleaseEnds(r, o), limits), ReasonFor(o, s.releases[r].completed, limits);
    ReleaseEndFacts(s.m, r, why, s'.m);
    if s'.m.CanGrant() && s'.m.completed >= limits.maxProbes {
      var l :| OverLimit(s, l, limits);
      if l == r {
        assert Applies(ProbeLimit, o, s.releases[r].completed, limits);
        assert s.m.Accountable(r);
      } else {
        assert OverLimit(s', l, limits);
      }
    }
  }

  lemma {:induction false} InvAlways(states: seq<State>, steps: seq<Step>, limits: Limits, k: nat)
    requires Run(states, steps, limits) && k < |states|
    ensures Inv(states[k], limits)
  {
    if k > 0 {
      InvAlways(states, steps, limits, k - 1);
      var s, step := states[k - 1], steps[k - 1];
      StageKept(s, step, limits);
      LeaseKept(s, step, limits);
      CountKept(s, step, limits);
      TraceKept(s, step, limits);
      LimitKept(s, step, limits);
    }
  }

  // ---------- The promises ----------

  // Every tracked lease is of the current epoch, and so is every lease that still
  // counts when it is released.
  lemma LeasesAreCurrent(states: seq<State>, steps: seq<Step>, limits: Limits, k: nat)
    requires Run(states, steps, limits) && k < |states|
    ensures forall l :: l in states[k].m.active ==> l < |states[k].m.leases| && states[k].m.leases[l].epoch == states[k].m.epoch
    ensures forall l: nat :: l < |states[k].m.leases| && states[k].m.leases[l].active ==> l in states[k].m.active
  {
    InvAlways(states, steps, limits, k);
  }

  // A lease that outlives its epoch is released without a trace.
  lemma LateReleaseChangesNothing(states: seq<State>, steps: seq<Step>, limits: Limits, k: nat)
    requires Run(states, steps, limits) && k < |steps|
    requires steps[k].ReleaseBegins? || steps[k].ReleaseEnds?
    requires states[k].m.leases[steps[k].l].epoch != states[k].m.epoch
    ensures states[k + 1].m == states[k].m && states[k + 1].counts == states[k].counts
  {
    InvAlways(states, steps, limits, k);
    var m, l := states[k].m, steps[k].l;
    assert l !in m.active && !m.leases[l].active;
    assert m.active - {l} == m.active;
  }

  // No lease is counted twice, each in its own epoch, and the counter of completed
  // probes is exactly the number counted in the current epoch.
  lemma CountedOnceInOwnEpoch(states: seq<State>, steps: seq<Step>, limits: Limits, k: nat)
    requires Run(states, steps, limits) && k < |states|
    ensures var s := states[k];
      && s.m.completed == CountsIn(s.counts, s.m.epoch)
      && (forall i, j :: 0 <= i < j < |s.counts| ==> s.counts[i].0 != s.counts[j].0)
      && (forall c :: c in s.counts ==> Counted(s.m.leases, s.releases, c))
  {
    InvAlways(states, steps, limits, k);
  }

  // In one step the trace grows by at most one event, and a lease needs readiness.
  ghost predicate Grows(t: seq<Event>, t': seq<Event>, granting: bool) {
    && |t| <= |t'| <= |t| + 1 && (forall i :: 0 <= i < |t| ==> t'[i] == t[i])
    && (|t'| > |t| && t'[|t|].Granted? ==> granting)
  }

  lemma OneEventAtATime(s: State, step: Step, limits: Limits, s': State)
    requires Enabled(s, step) && s' == After(s, step, limits)
    ensures Grows(s.trace, s'.trace, s.m.CanGrant())
  {
  }

  lemma TraceGrows(states: seq<State>, steps: seq<Step>, limits: Limits, k: nat)
    requires Run(states, steps, limits) && 0 < k < |states|
    ensures Grows(states[k - 1].trace, states[k].trace, states[k - 1].m.CanGrant())
    ensures states[k - 1].m.CanGrant() ==> ReadySinceRequest(states[k - 1].trace)
  {
    InvAlways(states, steps, limits, k - 1);
    var s, step, s' := states[k - 1], steps[k - 1], states[k];
    assert Enabled(s, step) && s' == After(s, step, limits);
    OneEventAtATime(s, step, limits, s');
  }

  lemma GrantIsAfterReady(t: seq<Event>, a: nat) returns (c: nat)
    requires ReadySinceRequest(t) && a < |t| && t[a] == Requested
    ensures a < c < |t| && t[c] == BecameReady
  {
    c :| 0 <= c < |t| && t[c] == BecameReady && NoneAfter(t, c, Requested);
  }

  ghost predicate ReadyBetween(t: seq<Event>, a: nat, b: nat) {
    exists c :: a < c < b && c < |t| && t[c] == BecameReady
  }

  ghost predicate Orderly(t: seq<Event>) {
    forall a: nat, b: nat :: a < b < |t| && t[a] == Requested && t[b] == Granted ==> ReadyBetween(t, a, b)
  }

  lemma OrderlyKept(t: seq<Event>, t': seq<Event>, granting: bool)
    requires Orderly(t) && Grows(t, t', granting) && (granting ==> ReadySinceRequest(t))
    ensures Orderly(t')
  {
    forall a: nat, b: nat | a < b < |t'| && t'[a] == Requested && t'[b] == Granted
      ensures ReadyBetween(t', a, b)
    {
      var c: nat;
      if b < |t| {
        assert ReadyBetween(t, a, b);
        c :| a < c < b && c < |t| && t[c] == BecameReady;
      } else {
        c := GrantIsAfterReady(t, a);
      }
      assert t'[c] == BecameReady;
    }
  }

  lemma {:induction false} OrderlyAlways(states: seq<State>, steps: seq<Step>, limits: Limits, k: nat)
    requires Run(states, steps, limits) && k < |states|
    ensures Orderly(states[k].trace)
  {
    if k > 0 {
      OrderlyAlways(states, steps, limits, k - 1);
      TraceGrows(states, steps, limits, k);
      OrderlyKept(states[k - 1].trace, states[k].trace, states[k - 1].m.CanGrant());
    }
  }

  // Between a recycle request and the next lease the manager has become ready again.
  lemma NoLeaseBetweenRequestAndReady(states: seq<State>, steps: seq<Step>, limits: Limits, k: nat, a: nat, b: nat)
    requires Run(states, steps, limits) && k < |states|
    requires a < b < |states[k].trace| && states[k].trace[a] == Requested && states[k].trace[b] == Granted
    ensures exists c :: a < c < b && states[k].trace[c] == BecameReady
  {
    OrderlyAlways(states, steps, limits, k);
    assert ReadyBetween(states[k].trace, a, b);
  }

  // Each request that takes effect leads to one drain: it never finds the channel
  // full, and requests, drains and the token waiting add up.
  lemma OneDrainPerRequest(states: seq<State>, steps: seq<Step>, limits: Limits, k: nat)
    requires Run(states, steps, limits) && k < |states| && !states[k].m.closed
    ensures Requests(states[k].trace) == states[k].m.recycles + if states[k].m.token then 1 else 0
    ensures states[k].m.ready && !states[k].m.draining ==> !states[k].m.token && !Recycling(states[k])
  {
    InvAlways(states, steps, limits, k);
  }

  // With a limit of probes, leases are granted beyond it only while the release that
  // asks for the recycle is under way.
  lemma LimitIsEnforced(states: seq<State>, steps: seq<Step>, limits: Limits, k: nat)
    requires Run(states, steps, limits) && k < |states|
    requires limits.maxProbes != 0 && states[k].m.CanGrant() && states[k].m.completed >= limits.maxProbes
    ensures exists l :: OverLimit(states[k], l, limits)
  {
    InvAlways(states, steps, limits, k);
  }

  lemma OverLimitAsks(states: seq<State>, steps: seq<Step>, limits: Limits, k: nat)
    requires Run(states, steps, limits) && k < |steps| && limits.maxProbes != 0
    requires steps[k].ReleaseEnds? && OverLimit(states[k], steps[k].l, limits)
    ensures !states[k + 1].m.CanGrant()
  {
    InvAlways(states, steps, limits, k);
    assert Applies(ProbeLimit, steps[k].o, states[k].releases[steps[k].l].completed, limits);
  }
}
