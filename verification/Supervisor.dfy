// The supervisor of the Xray process. Three goroutines share a few fields under a
// mutex: the starter restarts the process, a late registration supplies the
// callbacks, and a worker rehydrates each new process before it counts as ready.
module Supervisor {
  // ---------- The shared fields, one function per critical section ----------

  datatype Shared = Shared(generation: nat, invalidated: nat, ready: nat,
                           pending: bool, pendingInvalidated: bool, registered: bool, signal: bool)
  {
    function BeginStart(): Shared {
      this.(pending := true, ready := 0, pendingInvalidated := pending && pendingInvalidated)
    }

    function NoteInvalidated(): Shared {
      if pending then this.(pendingInvalidated := true) else this
    }

    function FinishStart(): Shared {
      this.(generation := generation + 1, pending := false, pendingInvalidated := false,
            invalidated := if pendingInvalidated then generation + 1 else invalidated)
    }

    function NoteLateInvalidation(): Shared {
      if pending then this.(pendingInvalidated := true)
      else if generation > 0 then this.(invalidated := generation)
      else this
    }

    predicate Current(g: nat) {
      !pending && generation == g && invalidated == g
    }

    function MarkReady(g: nat): Shared {
      if Current(g) then this.(ready := g) else this
    }

    function RecordError(g: nat): Shared {
      if pending || generation != g then this else this.(ready := 0)
    }

    // There is a process to rehydrate.
    predicate HasWork() {
      generation != 0 && ready != generation && Current(generation) && registered
    }

    predicate Accepts() {
      !pending && generation != 0 && ready == generation
    }
  }

  class Group {
    var generation: nat
    var invalidatedGeneration: nat
    var readyGeneration: nat
    var startPending: bool
    var pendingStartInvalidated: bool
    var rehydrationStarted: bool
    var startEvents: bool

    function State(): Shared
      reads this
    {
      Shared(generation, invalidatedGeneration, readyGeneration, startPending, pendingStartInvalidated,
             rehydrationStarted, startEvents)
    }

    constructor ()
      ensures State() == Shared(0, 0, 0, false, false, false, false)
    {
      generation, invalidatedGeneration, readyGeneration := 0, 0, 0;
      startPending, pendingStartInvalidated, rehydrationStarted, startEvents := false, false, false, false;
    }

    method BeginStart() returns (mustInvalidate: bool)
      modifies this
      ensures State() == old(State()).BeginStart() && mustInvalidate == rehydrationStarted
    {
      if !startPending {
        pendingStartInvalidated := false;
      }
      startPending := true;
      readyGeneration := 0;
      mustInvalidate := rehydrationStarted;
    }

    method StartInvalidated()
      modifies this
      ensures State() == old(State()).NoteInvalidated()
    {
      if startPending {
        pendingStartInvalidated := true;
      }
    }

    method FinishStart()
      modifies this
      ensures State() == old(State()).FinishStart()
    {
      generation := generation + 1;
      startPending := false;
      if pendingStartInvalidated {
        invalidatedGeneration := generation;
      }
      pendingStartInvalidated := false;
    }

    method Register() returns (mustInvalidate: bool)
      requires !rehydrationStarted
      modifies this
      ensures State() == old(State()).(registered := true) && mustInvalidate == (generation > 0 || startPending)
    {
      rehydrationStarted := true;
      mustInvalidate := generation > 0 || startPending;
    }

    method LateInvalidated()
      modifies this
      ensures State() == old(State()).NoteLateInvalidation()
    {
      if startPending {
        pendingStartInvalidated := true;
      } else if generation > 0 {
        invalidatedGeneration := generation;
      }
    }

    // The channel holds one event; further ones are dropped.
    method SignalStart()
      modifies this
      ensures State() == old(State()).(signal := true)
    {
      startEvents := true;
    }

    method MarkReady(g: nat) returns (marked: bool)
      modifies this
      ensures State() == old(State()).MarkReady(g) && marked == old(State()).Current(g)
    {
      if startPending || generation != g || invalidatedGeneration != g {
        return false;
      }
      readyGeneration := g;
      marked := true;
    }

    method RecordRehydrateError(g: nat)
      modifies this
      ensures State() == old(State()).RecordError(g)
    {
      if startPending || generation != g {
        return;
      }
      readyGeneration := 0;
    }

    method Readiness() returns (accepted: bool)
      ensures accepted == State().Accepts()
    {
      accepted := !(startPending || generation == 0 || readyGeneration != generation);
    }
  }

  // ---------- The three goroutines ----------

  datatype Event = StartBegan | Invalidated | ProcessStarted | RehydrateBegan | RehydrateSucceeded | RehydrateFailed

  datatype Starter = Stopped | Began | Cleared | Ready | Running | Announcing

  datatype Registrar = Uncalled | MustInvalidate | MustNote | MustLaunch | MustSignal | Returned

  datatype Worker = Unborn | Waiting | Looking | Checking(g: nat) | Confirming(g: nat) | Permitted(g: nat)
                  | Rehydrating(g: nat) | Marking(g: nat, rehydrated: bool) | Failing(g: nat) | Pausing

  datatype State = State(shared: Shared, starter: Starter, covered: bool, registrar: Registrar, worker: Worker,
                         trace: seq<Event>)

  datatype Step = StartBegins | StarterInvalidates | StarterNotes | StarterSkips | ProcessStarts | StartFails
                | StartFinishes | StarterSignals
                | Registers | LateInvalidates | LateNotes | Launches | RegistrarSignals
                | Wakes | Looks | Checks(ok: bool) | Confirms | RehydrateBegins | RehydrateEnds(ok: bool)
                | Marks | RecordsError | Resumes(bySignal: bool)

  const Initial := State(Shared(0, 0, 0, false, false, false, false), Stopped, false, Uncalled, Unborn, [])

  predicate Enabled(s: State, step: Step) {
    match step
    case StartBegins => s.starter.Stopped?
    case StarterInvalidates => s.starter.Began? && s.covered
    case StarterSkips => s.starter.Began? && !s.covered
    case StarterNotes => s.starter.Cleared?
    case ProcessStarts => s.starter.Ready?
    case StartFails => s.starter.Ready?
    case StartFinishes => s.starter.Running?
    case StarterSignals => s.starter.Announcing?
    case Registers => s.registrar.Uncalled?
    case LateInvalidates => s.registrar.MustInvalidate?
    case LateNotes => s.registrar.MustNote?
    case Launches => s.registrar.MustLaunch?
    case RegistrarSignals => s.registrar.MustSignal?
    case Wakes => s.worker.Waiting? && s.shared.signal
    case Looks => s.worker.Looking?
    case Checks(_) => s.worker.Checking?
    case Confirms => s.worker.Confirming?
    case RehydrateBegins => s.worker.Permitted?
    case RehydrateEnds(_) => s.worker.Rehydrating?
    case Marks => s.worker.Marking?
    case RecordsError => s.worker.Failing?
    case Resumes(bySignal) => s.worker.Pausing? && (bySignal ==> s.shared.signal)
  }

  // `covered` remembers whether the callbacks were there when the last start began.
  function After(s: State, step: Step): State
    requires Enabled(s, step)
  {
    match step
    case StartBegins =>
      s.(shared := s.shared.BeginStart(), starter := Began, covered := s.shared.registered, trace := s.trace + [StartBegan])
    case StarterInvalidates => s.(starter := Cleared, trace := s.trace + [Invalidated])
    case StarterNotes => s.(shared := s.shared.NoteInvalidated(), starter := Ready)
    case StarterSkips => s.(starter := Ready)
    case ProcessStarts => s.(starter := Running, trace := s.trace + [ProcessStarted])
    case StartFails => s.(starter := Stopped)
    case StartFinishes => s.(shared := s.shared.FinishStart(), starter := Announcing)
    case StarterSignals => s.(shared := s.shared.(signal := true), starter := Stopped)
    case Registers =>
      s.(shared := s.shared.(registered := true),
         registrar := if s.shared.generation > 0 || s.shared.pending then MustInvalidate else MustLaunch)
    case LateInvalidates => s.(registrar := MustNote, trace := s.trace + [Invalidated])
    case LateNotes => s.(shared := s.shared.NoteLateInvalidation(), registrar := MustLaunch)
    case Launches => s.(registrar := MustSignal, worker := Waiting)
    case RegistrarSignals => s.(shared := s.shared.(signal := true), registrar := Returned)
    case Wakes => s.(shared := s.shared.(signal := false), worker := Looking)
    case Looks => s.(worker := if s.shared.HasWork() then Checking(s.shared.generation) else Waiting)
    case Checks(ok) => s.(worker := if ok then Confirming(s.worker.g) else Failing(s.worker.g))
    case Confirms =>
      s.(worker := if s.shared.Current(s.worker.g) then Permitted(s.worker.g) else Marking(s.worker.g, false))
    case RehydrateBegins => s.(worker := Rehydrating(s.worker.g), trace := s.trace + [RehydrateBegan])
    case RehydrateEnds(ok) =>
      s.(worker := if ok then Marking(s.worker.g, true) else Failing(s.worker.g),
         trace := s.trace + [if ok then RehydrateSucceeded else RehydrateFailed])
    case Marks =>
      s.(shared := s.shared.MarkReady(s.worker.g),
         worker := if s.shared.Current(s.worker.g) then Waiting else Looking)
    case RecordsError => s.(shared := s.shared.RecordError(s.worker.g), worker := Pausing)
    case Resumes(bySignal) => s.(shared := s.shared.(signal := s.shared.signal && !bySignal), worker := Looking)
  }

  ghost predicate Run(states: seq<State>, steps: seq<Step>) {
    && |states| == |steps| + 1 && states[0] == Initial
    && forall k :: 0 <= k < |steps| ==> Enabled(states[k], steps[k]) && states[k + 1] == After(states[k], steps[k])
  }

  // ---------- Generation safety ----------

  ghost predicate NoneAfter(t: seq<Event>, i: int, e: Event) {
    forall k :: 0 <= k && i < k < |t| ==> t[k] != e
  }

  // An invalidation finished after the last start began.
  ghost predicate ClearedAt(t: seq<Event>, i: int) {
    0 <= i < |t| && t[i] == Invalidated && NoneAfter(t, i, StartBegan)
  }

  ghost predicate ClearedSinceStart(t: seq<Event>) {
    exists i :: ClearedAt(t, i)
  }

  // A rehydration that began after that invalidation, and no process start since.
  ghost predicate RehydrateAt(t: seq<Event>, r: int) {
    && 0 <= r < |t| && t[r] == RehydrateBegan && NoneAfter(t, r, ProcessStarted) && NoneAfter(t, r, StartBegan)
    && exists i :: i < r && ClearedAt(t, i)
  }

  ghost predicate SucceededAt(t: seq<Event>, r: int, e: int) {
    0 <= r < e < |t| && t[e] == RehydrateSucceeded && forall k :: r < k < e ==> t[k] != RehydrateBegan
  }

  ghost predicate RehydratedSinceCleared(t: seq<Event>) {
    exists r, e :: RehydrateAt(t, r) && SucceededAt(t, r, e)
  }

  ghost predicate StarterInv(s: State) {
    && (s.starter.Began? || s.starter.Cleared? || s.starter.Ready? || s.starter.Running? ==> s.shared.pending)
    && (s.starter.Announcing? ==> !s.shared.pending)
    && (s.starter.Cleared? ==> s.covered)
    && (s.shared.registered <==> !s.registrar.Uncalled?)
    && (s.covered || s.shared.pendingInvalidated || s.shared.invalidated > 0 ==> s.shared.registered)
    && (s.worker.Unborn? <==> s.registrar.Uncalled? || s.registrar.MustInvalidate? || s.registrar.MustNote? || s.registrar.MustLaunch?)
    && s.shared.invalidated <= s.shared.generation && s.shared.ready <= s.shared.generation
    && (s.shared.pending ==> s.shared.ready == 0)
  }

  ghost predicate ClearedInv(s: State) {
    && (s.covered && !s.starter.Began? ==> ClearedSinceStart(s.trace))
    && (!s.covered && (s.registrar.MustNote? || s.shared.pendingInvalidated) ==> ClearedSinceStart(s.trace))
    && (s.shared.generation > 0 && s.shared.Current(s.shared.generation) ==> ClearedSinceStart(s.trace))
  }

  predicate Stale(s: State, g: nat) {
    s.shared.pending || s.shared.generation != g
  }

  ghost predicate LastRehydrate(t: seq<Event>, r: int) {
    RehydrateAt(t, r) && NoneAfter(t, r, RehydrateBegan)
  }

  // What the worker knows about the generation it works on stays true of it.
  ghost predicate WorkerInv(s: State) {
    match s.worker
    case Checking(g) => 0 < g <= s.shared.generation && (Stale(s, g) || s.shared.invalidated == g)
    case Confirming(g) => 0 < g <= s.shared.generation && (Stale(s, g) || s.shared.invalidated == g)
    case Permitted(g) => 0 < g <= s.shared.generation && (Stale(s, g) || s.shared.invalidated == g)
    case Rehydrating(g) => 0 < g <= s.shared.generation && (Stale(s, g) || exists r :: LastRehydrate(s.trace, r))
    case Marking(g, rehydrated) =>
      0 < g <= s.shared.generation && (Stale(s, g) || (rehydrated && RehydratedSinceCleared(s.trace)))
    case Failing(g) => 0 < g <= s.shared.generation
    case _ => true
  }

  ghost predicate Inv(s: State) {
    StarterInv(s) && ClearedInv(s) && WorkerInv(s) && (s.shared.Accepts() ==> RehydratedSinceCleared(s.trace))
  }

  lemma Extend(t: seq<Event>, e: Event)
    requires e != StartBegan
    ensures ClearedSinceStart(t) ==> ClearedSinceStart(t + [e])
    ensures e != ProcessStarted ==> RehydratedSinceCleared(t) ==> RehydratedSinceCleared(t + [e])
    ensures e == Invalidated ==> ClearedSinceStart(t + [e])
    ensures e == RehydrateBegan && ClearedSinceStart(t) ==> exists r :: LastRehydrate(t + [e], r)
    ensures e == RehydrateSucceeded && (exists r :: LastRehydrate(t, r)) ==> RehydratedSinceCleared(t + [e])
    ensures e != ProcessStarted && e != RehydrateBegan ==>
      forall r :: LastRehydrate(t, r) ==> LastRehydrate(t + [e], r)
  {
    var more := t + [e];
    if ClearedSinceStart(t) {
      var i :| ClearedAt(t, i);
      assert ClearedAt(more, i);
      if e == RehydrateBegan {
        assert LastRehydrate(more, |t|);
      }
    }
    if e == Invalidated {
      assert ClearedAt(more, |t|);
    }
    if e != ProcessStarted {
      forall r | RehydrateAt(t, r)
        ensures RehydrateAt(more, r)
      {
        var i :| i < r && ClearedAt(t, i);
        assert ClearedAt(more, i);
      }
      if RehydratedSinceCleared(t) {
        var r, done :| RehydrateAt(t, r) && SucceededAt(t, r, done);
        assert RehydrateAt(more, r) && SucceededAt(more, r, done);
      }
      if e == RehydrateSucceeded && exists r :: LastRehydrate(t, r) {
        var r :| LastRehydrate(t, r);
        assert RehydrateAt(more, r) && SucceededAt(more, r, |t|);
      }
    }
  }

  predicate ByStarter(step: Step) {
    || step.StartBegins? || step.StarterInvalidates? || step.StarterNotes? || step.StarterSkips?
    || step.ProcessStarts? || step.StartFails? || step.StartFinishes? || step.StarterSignals?
  }

  predicate ByRegistrar(step: Step) {
    step.Registers? || step.LateInvalidates? || step.LateNotes? || step.Launches? || step.RegistrarSignals?
  }

  lemma FlagsOfStart(s: State, step: Step)
    requires StarterInv(s) && Enabled(s, step) && ByStarter(step)
    ensures StarterInv(After(s, step))
  {
  }

  lemma FlagsOfOthers(s: State, step: Step)
    requires StarterInv(s) && WorkerInv(s) && Enabled(s, step) && !ByStarter(step)
    ensures StarterInv(After(s, step))
  {
  }

  // What a step does to the trace, when it is not the begin of a start.
  lemma TraceKept(s: State, step: Step)
    requires Enabled(s, step) && !step.StartBegins?
    ensures var t, t' := s.trace, After(s, step).trace;
      && (ClearedSinceStart(t) ==> ClearedSinceStart(t'))
      && (!step.ProcessStarts? && RehydratedSinceCleared(t) ==> RehydratedSinceCleared(t'))
      && (step.StarterInvalidates? || step.LateInvalidates? ==> ClearedSinceStart(t'))
      && (step.RehydrateBegins? && ClearedSinceStart(t) ==> exists r :: LastRehydrate(t', r))
      && (step == RehydrateEnds(true) && (exists r :: LastRehydrate(t, r)) ==> RehydratedSinceCleared(t'))
      && (!step.ProcessStarts? && !step.RehydrateBegins? ==> forall r :: LastRehydrate(t, r) ==> LastRehydrate(t', r))
  {
    var s' := After(s, step);
    if |s'.trace| > |s.trace| {
      Extend(s.trace, s'.trace[|s.trace|]);
    }
  }

  lemma ByStarterKept(s: State, step: Step)
    requires Inv(s) && Enabled(s, step) && ByStarter(step)
    ensures ClearedInv(After(s, step)) && WorkerInv(After(s, step))
    ensures After(s, step).shared.Accepts() ==> RehydratedSinceCleared(After(s, step).trace)
  {
    if !step.StartBegins? {
      TraceKept(s, step);
    }
  }

  lemma ByRegistrarKept(s: State, step: Step)
    requires Inv(s) && Enabled(s, step) && ByRegistrar(step)
    ensures ClearedInv(After(s, step)) && WorkerInv(After(s, step))
    ensures After(s, step).shared.Accepts() ==> RehydratedSinceCleared(After(s, step).trace)
  {
    TraceKept(s, step);
  }

  lemma ByWorkerKept(s: State, step: Step)
    requires Inv(s) && Enabled(s, step) && !ByStarter(step) && !ByRegistrar(step)
    ensures ClearedInv(After(s, step)) && WorkerInv(After(s, step))
    ensures After(s, step).shared.Accepts() ==> RehydratedSinceCleared(After(s, step).trace)
  {
    TraceKept(s, step);
  }

  lemma InvKept(s: State, step: Step)
    requires Inv(s) && Enabled(s, step)
    ensures Inv(After(s, step))
  {
    if ByStarter(step) {
      FlagsOfStart(s, step);
      ByStarterKept(s, step);
    } else {
      FlagsOfOthers(s, step);
      if ByRegistrar(step) {
        ByRegistrarKept(s, step);
      } else {
        ByWorkerKept(s, step);
      }
    }
  }

  lemma {:induction false} InvAlways(states: seq<State>, steps: seq<Step>, k: nat)
    requires Run(states, steps) && k < |states|
    ensures Inv(states[k])
  {
    if k > 0 {
      InvAlways(states, steps, k - 1);
      InvKept(states[k - 1], steps[k - 1]);
    }
  }

  // However the goroutines interleave: while Readiness accepts, an invalidation has
  // finished since the last start began, a rehydration that began after it has
  // succeeded, and no process was started since that rehydration began.
  lemma GenerationSafety(states: seq<State>, steps: seq<Step>, k: nat)
    requires Run(states, steps) && k < |states| && states[k].shared.Accepts()
    ensures var t := states[k].trace;
      exists i, r, e ::
        && 0 <= i < r < e < |t| && ClearedAt(t, i)
        && t[r] == RehydrateBegan && SucceededAt(t, r, e) && NoneAfter(t, r, ProcessStarted)
  {
    InvAlways(states, steps, k);
    var t := states[k].trace;
    var r, e :| RehydrateAt(t, r) && SucceededAt(t, r, e);
    var i :| i < r && ClearedAt(t, i);
  }

  lemma Continue(states: seq<State>, steps: seq<Step>, step: Step) returns (more: seq<State>, taken: seq<Step>)
    requires Run(states, steps) && Enabled(states[|steps|], step)
    ensures Run(more, taken) && |taken| == |steps| + 1 && more[|taken|] == After(states[|steps|], step)
  {
    more, taken := states + [After(states[|steps|], step)], steps + [step];
  }

  // And readiness can be reached: a late registration, a start that invalidates, and
  // one rehydration.
  lemma FirstStart() returns (states: seq<State>, steps: seq<Step>)
    ensures Run(states, steps)
    ensures states[|steps|] == State(Shared(1, 1, 0, false, false, true, true), Stopped, true, Returned, Waiting,
                                     [StartBegan, Invalidated, ProcessStarted])
  {
    states, steps := [Initial], [];
    states, steps := Continue(states, steps, Registers);
    states, steps := Continue(states, steps, Launches);
    states, steps := Continue(states, steps, RegistrarSignals);
    states, steps := Continue(states, steps, StartBegins);
    states, steps := Continue(states, steps, StarterInvalidates);
    states, steps := Continue(states, steps, StarterNotes);
    states, steps := Continue(states, steps, ProcessStarts);
    states, steps := Continue(states, steps, StartFinishes);
    states, steps := Continue(states, steps, StarterSignals);
  }

  lemma ReadinessIsReachable()
    ensures exists states: seq<State>, steps: seq<Step> :: Run(states, steps) && states[|steps|].shared.Accepts()
  {
    var states, steps := FirstStart();
    states, steps := Continue(states, steps, Wakes);
    states, steps := Continue(states, steps, Looks);
    states, steps := Continue(states, steps, Checks(true));
    states, steps := Continue(states, steps, Confirms);
    states, steps := Continue(states, steps, RehydrateBegins);
    states, steps := Continue(states, steps, RehydrateEnds(true));
    states, steps := Continue(states, steps, Marks);
  }

  // ---------- No lost wake-up ----------

  ghost predicate WillWake(s: State) {
    s.shared.HasWork() && s.worker.Waiting? ==>
      s.shared.signal || s.starter.Announcing? || s.registrar.MustSignal?
  }

  // While a process waits to be rehydrated the worker never sleeps without a signal
  // that is there or about to be given.
  lemma {:induction false} NoLostWakeUp(states: seq<State>, steps: seq<Step>, k: nat)
    requires Run(states, steps) && k < |states|
    ensures WillWake(states[k])
  {
    if k > 0 {
      NoLostWakeUp(states, steps, k - 1);
      InvAlways(states, steps, k - 1);
      WakeKept(states[k - 1], steps[k - 1]);
    }
  }

  lemma WakeKept(s: State, step: Step)
    requires StarterInv(s) && WillWake(s) && Enabled(s, step)
    ensures WillWake(After(s, step))
  {
  }

  // ---------- What the reconciler is asked to do ----------

  // What the callbacks make of the reconciler and of Xray: whether a process was
  // started since the last start began; whether the books of the reconciler, emptied
  // since then, are right; whether recovery is required; and whether nothing has been
  // installed in the process yet.
  datatype Link = Link(running: bool, cleared: bool, required: bool, untouched: bool) {
    // A rehydration that does not find recovery required empties the books, which is
    // wrong when something has been installed.
    function Next(e: Event): Link {
      match e
      case StartBegan => Link(false, false, required, false)
      case Invalidated => Link(running, true, true, untouched)
      case ProcessStarted => Link(true, cleared, required, true)
      case RehydrateBegan => Link(running, cleared && (running ==> required || untouched), true, false)
      case RehydrateSucceeded => Link(running, cleared, false, false)
      case RehydrateFailed => Link(running, cleared, required, false)
    }

    // What a rehydration asks of the reconciler: nothing is lost, and recovery is
    // required or Xray is fresh.
    predicate Fits() {
      running && cleared && (required || untouched)
    }
  }

  function Linked(t: seq<Event>): Link {
    if t == [] then Link(false, false, false, false) else Linked(t[..|t| - 1]).Next(t[|t| - 1])
  }

  // Some rehydration has succeeded since the last process was started.
  ghost predicate AlreadyDone(t: seq<Event>) {
    exists k :: 0 <= k < |t| && t[k] == RehydrateSucceeded && NoneAfter(t, k, ProcessStarted)
  }

  predicate Agrees(s: State, link: Link, done: bool) {
    var right := link.cleared || (link.running && done);
    && (s.starter.Began? || s.starter.Cleared? || s.starter.Ready? ==> !link.running)
    && (s.starter.Running? || (!s.shared.pending && s.shared.generation > 0) ==> link.running)
    && (s.covered && !s.starter.Began? ==> right)
    && (!s.covered && (s.registrar.MustNote? || s.shared.pendingInvalidated) ==> right)
    && (s.shared.generation > 0 && s.shared.Current(s.shared.generation) ==> right)
    && (s.worker.Rehydrating? ==> link.required)
    && (s.worker.Unborn? ==> !done)
    && (link.running ==> link.required || link.untouched || done)
    && (link.running && done ==> !link.Fits())
  }

  ghost predicate LinkInv(s: State) {
    Agrees(s, Linked(s.trace), AlreadyDone(s.trace))
  }

  lemma LinkedNext(t: seq<Event>, e: Event)
    ensures Linked(t + [e]) == Linked(t).Next(e)
    ensures AlreadyDone(t + [e]) <==> e == RehydrateSucceeded || (e != ProcessStarted && AlreadyDone(t))
  {
    var more := t + [e];
    assert more[..|more| - 1] == t;
    if e == RehydrateSucceeded {
      assert more[|t|] == e && NoneAfter(more, |t|, ProcessStarted);
    } else if e != ProcessStarted && AlreadyDone(t) {
      var k :| 0 <= k < |t| && t[k] == RehydrateSucceeded && NoneAfter(t, k, ProcessStarted);
      assert more[k] == RehydrateSucceeded && NoneAfter(more, k, ProcessStarted);
    }
    if AlreadyDone(more) && e != RehydrateSucceeded {
      var k :| 0 <= k < |more| && more[k] == RehydrateSucceeded && NoneAfter(more, k, ProcessStarted);
      assert more[|t|] == e && t[k] == RehydrateSucceeded && NoneAfter(t, k, ProcessStarted);
    }
  }

  lemma QuietAgrees(s: State, step: Step, link: Link, done: bool)
    requires StarterInv(s) && Agrees(s, link, done) && Enabled(s, step) && After(s, step).trace == s.trace
    ensures Agrees(After(s, step), link, done)
  {
  }

  lemma NotedAgrees(s: State, step: Step, link: Link, done: bool, e: Event)
    requires StarterInv(s) && Agrees(s, link, done) && Enabled(s, step) && After(s, step).trace == s.trace + [e]
    ensures Agrees(After(s, step), link.Next(e), e == RehydrateSucceeded || (e != ProcessStarted && done))
  {
    assert (s.trace + [e])[|s.trace|] == e;
  }

  lemma LinkKept(s: State, step: Step)
    requires StarterInv(s) && LinkInv(s) && Enabled(s, step)
    ensures LinkInv(After(s, step))
  {
    var t, t' := s.trace, After(s, step).trace;
    if |t'| == |t| {
      QuietAgrees(s, step, Linked(t), AlreadyDone(t));
    } else {
      LinkedNext(t, t'[|t|]);
      NotedAgrees(s, step, Linked(t), AlreadyDone(t), t'[|t|]);
    }
  }

  lemma {:induction false} LinkAlways(states: seq<State>, steps: seq<Step>, k: nat)
    requires Run(states, steps) && k < |states|
    ensures LinkInv(states[k])
  {
    if k > 0 {
      LinkAlways(states, steps, k - 1);
      InvAlways(states, steps, k - 1);
      LinkKept(states[k - 1], steps[k - 1]);
    }
  }

  // A rehydration that is about to begin for the process that runs finds the
  // reconciler fit for it if and only if none has succeeded in that process yet.
  lemma RehydrationFits(states: seq<State>, steps: seq<Step>, k: nat)
    requires Run(states, steps) && k < |states| && states[k].worker.Permitted? && !Stale(states[k], states[k].worker.g)
    ensures Linked(states[k].trace).Fits() <==> !AlreadyDone(states[k].trace)
  {
    InvAlways(states, steps, k);
    LinkAlways(states, steps, k);
  }

  // And one can have: a rehydration meant for an earlier process may begin only after
  // the next process was started, and succeed in that one.
  lemma RehydratesTwice() returns (states: seq<State>, steps: seq<Step>)
    ensures Run(states, steps) && states[|steps|].worker == Permitted(2)
    ensures !Stale(states[|steps|], 2) && AlreadyDone(states[|steps|].trace)
    ensures !Linked(states[|steps|].trace).Fits()
  {
    states, steps := LateRehydration();
    states, steps := Continue(states, steps, StartFinishes);
    states, steps := Continue(states, steps, StarterSignals);
    states, steps := Continue(states, steps, Marks);
    states, steps := Continue(states, steps, Looks);
    states, steps := Continue(states, steps, Checks(true));
    states, steps := Continue(states, steps, Confirms);
    var t := states[|steps|].trace;
    assert t[7] == RehydrateSucceeded && NoneAfter(t, 7, ProcessStarted);
    RehydrationFits(states, steps, |steps|);
  }

  lemma SecondStart() returns (states: seq<State>, steps: seq<Step>)
    ensures Run(states, steps)
    ensures states[|steps|] == State(Shared(1, 1, 0, true, true, true, false), Running, true, Returned, Permitted(1),
      [StartBegan, Invalidated, ProcessStarted, StartBegan, Invalidated, ProcessStarted])
  {
    states, steps := FirstStart();
    states, steps := Continue(states, steps, Wakes);
    states, steps := Continue(states, steps, Looks);
    states, steps := Continue(states, steps, Checks(true));
    states, steps := Continue(states, steps, Confirms);
    states, steps := Continue(states, steps, StartBegins);
    states, steps := Continue(states, steps, StarterInvalidates);
    states, steps := Continue(states, steps, StarterNotes);
    states, steps := Continue(states, steps, ProcessStarts);
  }

  lemma LateRehydration() returns (states: seq<State>, steps: seq<Step>)
    ensures Run(states, steps)
    ensures states[|steps|] == State(Shared(1, 1, 0, true, true, true, false), Running, true, Returned, Marking(1, true),
      [StartBegan, Invalidated, ProcessStarted, StartBegan, Invalidated, ProcessStarted, RehydrateBegan, RehydrateSucceeded])
  {
    states, steps := SecondStart();
    states, steps := Continue(states, steps, RehydrateBegins);
    states, steps := Continue(states, steps, RehydrateEnds(true));
  }
}
