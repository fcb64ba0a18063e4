// The gate in front of the probe Xray's API: one holder at a time, resets before
// priority work before regular work, and the epoch that resets change.
module ProbeControl {
  datatype Class = Reset | Priority | Regular

  // ---------- The gate ----------

  // A waiter is named by the ticket of its call; `granted` holds the waiters whose
  // channel was closed.
  datatype Gate = Gate(held: bool, resets: seq<nat>, priorities: seq<nat>, regulars: seq<nat>,
                       priorityWaiters: int, regularWaiters: int, granted: set<nat>)
  {
    function Queue(c: Class): seq<nat> {
      match c
      case Reset => resets
      case Priority => priorities
      case Regular => regulars
    }

    predicate CanEnter(c: Class) {
      !held && (c.Reset? || priorityWaiters == 0)
    }

    function Enter(c: Class, t: nat): Gate {
      if CanEnter(c) then this.(held := true)
      else match c
        case Reset => this.(resets := resets + [t], priorityWaiters := priorityWaiters + 1)
        case Priority => this.(priorities := priorities + [t], priorityWaiters := priorityWaiters + 1)
        case Regular => this.(regulars := regulars + [t], regularWaiters := regularWaiters + 1)
    }

    // The waiter that is served next, if any.
    function Next(): seq<Grant> {
      if resets != [] then [Grant(Reset, resets[0])]
      else if priorities != [] then [Grant(Priority, priorities[0])]
      else if regulars != [] then [Grant(Regular, regulars[0])]
      else []
    }

    function GrantNext(): Gate {
      if resets != [] then
        this.(resets := resets[1..], priorityWaiters := priorityWaiters - 1, granted := granted + {resets[0]})
      else if priorities != [] then
        this.(priorities := priorities[1..], priorityWaiters := priorityWaiters - 1, granted := granted + {priorities[0]})
      else if regulars != [] then
        this.(regulars := regulars[1..], regularWaiters := regularWaiters - 1, granted := granted + {regulars[0]})
      else this.(held := false)
    }

    function Cancel(t: nat, priority: bool): Gate {
      if t in granted then GrantNext()
      else if priority then this.(priorities := Without(priorities, t), priorityWaiters := priorityWaiters - 1)
      else this.(regulars := Without(regulars, t), regularWaiters := regularWaiters - 1)
    }
  }

  function Without(queue: seq<nat>, t: nat): seq<nat> {
    if queue == [] then []
    else if queue[0] == t then queue[1..]
    else [queue[0]] + Without(queue[1..], t)
  }

  lemma WithoutStep(queue: seq<nat>, i: nat, t: nat)
    requires i < |queue|
    ensures queue[..i] + Without(queue[i..], t) ==
      if queue[i] == t then queue[..i] + queue[i + 1..] else queue[..i + 1] + Without(queue[i + 1..], t)
  {
    assert queue[i..][1..] == queue[i + 1..];
    assert queue[..i + 1] == queue[..i] + [queue[i]];
  }

  class PriorityGate {
    var held: bool
    var resetQueue: seq<nat>
    var priorityQueue: seq<nat>
    var regularQueue: seq<nat>
    var priorityWaiters: int
    var regularWaiters: int
    var granted: set<nat>

    function State(): Gate
      reads this
    {
      Gate(held, resetQueue, priorityQueue, regularQueue, priorityWaiters, regularWaiters, granted)
    }

    constructor ()
      ensures State() == Gate(false, [], [], [], 0, 0, {})
    {
      held, resetQueue, priorityQueue, regularQueue := false, [], [], [];
      priorityWaiters, regularWaiters, granted := 0, 0, {};
    }

    // The caller holds the gate at once, or has to wait for its channel.
    method Acquire(t: nat, priority: bool) returns (atOnce: bool)
      modifies this
      ensures State() == old(State()).Enter(if priority then Priority else Regular, t)
      ensures atOnce == old(State()).CanEnter(if priority then Priority else Regular)
    {
      if !held && priorityWaiters == 0 {
        held := true;
        return true;
      }
      if priority {
        priorityWaiters := priorityWaiters + 1;
        priorityQueue := priorityQueue + [t];
      } else {
        regularWaiters := regularWaiters + 1;
        regularQueue := regularQueue + [t];
      }
      return false;
    }

    method EnterReset(t: nat) returns (atOnce: bool)
      modifies this
      ensures State() == old(State()).Enter(Reset, t)
      ensures atOnce == old(State()).CanEnter(Reset)
    {
      if !held {
        held := true;
        return true;
      }
      resetQueue := resetQueue + [t];
      priorityWaiters := priorityWaiters + 1;
      return false;
    }

    // A waiter whose context has ended; its grant may have come first.
    method Cancel(t: nat, priority: bool)
      modifies this
      ensures State() == old(State()).Cancel(t, priority)
    {
      if t in granted {
        GrantNext();
      } else if priority {
        priorityQueue := RemoveWaiter(priorityQueue, t);
        priorityWaiters := priorityWaiters - 1;
      } else {
        regularQueue := RemoveWaiter(regularQueue, t);
        regularWaiters := regularWaiters - 1;
      }
    }

    method GrantNext()
      modifies this
      ensures State() == old(State()).GrantNext()
    {
      var t;
      if |resetQueue| > 0 {
        t := resetQueue[0];
        resetQueue := resetQueue[1..];
        priorityWaiters := priorityWaiters - 1;
      } else if |priorityQueue| > 0 {
        t := priorityQueue[0];
        priorityQueue := priorityQueue[1..];
        priorityWaiters := priorityWaiters - 1;
      } else if |regularQueue| > 0 {
        t := regularQueue[0];
        regularQueue := regularQueue[1..];
        regularWaiters := regularWaiters - 1;
      } else {
        held := false;
        return;
      }
      granted := granted + {t};
    }

    method RemoveWaiter(queue: seq<nat>, target: nat) returns (rest: seq<nat>)
      ensures rest == Without(queue, target)
    {
      for index := 0 to |queue|
        invariant Without(queue, target) == queue[..index] + Without(queue[index..], target)
      {
        WithoutStep(queue, index, target);
        if queue[index] == target {
          return queue[..index] + queue[index + 1..];
        }
      }
      assert queue[..|queue|] == queue;
      return queue;
    }
  }

  // ---------- Callers of the gate, in any interleaving ----------

  // A call inside holds the gate; a configure goes on with the epoch it has checked.
  datatype Phase = Waiting | Inside | Configuring(epoch: nat) | Finished

  datatype Call = Call(class_: Class, phase: Phase)

  datatype Grant = Grant(class_: Class, ticket: nat)

  // Calls are numbered in the order of arrival; `grants` lists who was let in.
  datatype State = State(gate: Gate, calls: seq<Call>, epoch: nat, grants: seq<Grant>)

  datatype Step = Arrive(c: Class, ended: bool) | Notice(t: nat) | Abandon(t: nat) | CheckEpoch(t: nat, epoch: nat)
                | ChangeEpoch(t: nat, epoch: nat) | Release(t: nat)

  const Initial := State(Gate(false, [], [], [], 0, 0, {}), [], 0, [])

  predicate In(s: State, t: nat) {
    t < |s.calls| && (s.calls[t].phase.Inside? || s.calls[t].phase.Configuring?)
  }

  predicate Granted(s: State, t: nat) {
    t < |s.calls| && s.calls[t].phase.Waiting? && t in s.gate.granted
  }

  predicate Owns(s: State, t: nat) {
    In(s, t) || Granted(s, t)
  }

  // A reset ignores contexts; a waiter may leave even after it was granted.
  predicate Enabled(s: State, step: Step) {
    match step
    case Arrive(c, ended) => c.Reset? ==> !ended
    case Notice(t) => Granted(s, t)
    case Abandon(t) => t < |s.calls| && s.calls[t].phase.Waiting? && !s.calls[t].class_.Reset?
    case CheckEpoch(t, _) => In(s, t) && s.calls[t].phase.Inside? && !s.calls[t].class_.Reset?
    case ChangeEpoch(t, _) => In(s, t) && s.calls[t].class_.Reset?
    case Release(t) => In(s, t)
  }

  function Move(s: State, t: nat, phase: Phase): State
    requires t < |s.calls|
  {
    s.(calls := s.calls[t := s.calls[t].(phase := phase)])
  }

  function Leave(s: State, t: nat): State
    requires t < |s.calls|
  {
    Move(s, t, Finished).(gate := s.gate.GrantNext(), grants := s.grants + s.gate.Next())
  }

  function After(s: State, step: Step): State
    requires Enabled(s, step)
  {
    match step
    case Arrive(c, ended) =>
      var t := |s.calls|;
      if ended then s.(calls := s.calls + [Call(c, Finished)])
      else if s.gate.CanEnter(c) then
        s.(gate := s.gate.Enter(c, t), calls := s.calls + [Call(c, Inside)], grants := s.grants + [Grant(c, t)])
      else s.(gate := s.gate.Enter(c, t), calls := s.calls + [Call(c, Waiting)])
    case Notice(t) => Move(s, t, Inside)
    case Abandon(t) =>
      if t in s.gate.granted then Leave(s, t)
      else Move(s, t, Finished).(gate := s.gate.Cancel(t, s.calls[t].class_.Priority?))
    case CheckEpoch(t, epoch) => if epoch == s.epoch then Move(s, t, Configuring(epoch)) else s
    case ChangeEpoch(t, epoch) => s.(epoch := epoch)
    case Release(t) => Leave(s, t)
  }

  ghost predicate Run(states: seq<State>, steps: seq<Step>) {
    && |states| == |steps| + 1 && states[0] == Initial
    && forall k :: 0 <= k < |steps| ==> Enabled(states[k], steps[k]) && states[k + 1] == After(states[k], steps[k])
  }

  // ---------- What every step keeps ----------

  predicate Ascending(q: seq<nat>) {
    forall i, j :: 0 <= i < j < |q| ==> q[i] < q[j]
  }

  predicate WaitsAs(s: State, c: Class, t: nat) {
    t < |s.calls| && s.calls[t] == Call(c, Waiting) && t !in s.gate.granted
  }

  // A queue holds, in order of arrival, the calls of its class that still wait.
  ghost predicate QueueInv(s: State, c: Class) {
    && Ascending(s.gate.Queue(c))
    && (forall t: nat :: t in s.gate.Queue(c) <==> WaitsAs(s, c, t))
  }

  // Calls of one class are let in in the order of their arrival.
  ghost predicate InOrder(grants: seq<Grant>, queue: seq<nat>, c: Class) {
    && (forall i, j :: 0 <= i < j < |grants| && grants[i].class_ == c && grants[j].class_ == c ==>
          grants[i].ticket < grants[j].ticket)
    && (forall i, t :: 0 <= i < |grants| && grants[i].class_ == c && t in queue ==> grants[i].ticket < t)
  }

  predicate Recorded(s: State, g: Grant) {
    g.ticket < |s.calls| && s.calls[g.ticket].class_ == g.class_ && !WaitsAs(s, g.class_, g.ticket)
  }

  ghost predicate GrantInv(s: State) {
    && (forall i :: 0 <= i < |s.grants| ==> Recorded(s, s.grants[i]))
    && (forall t :: t in s.gate.granted ==> t < |s.calls|)
  }

  ghost predicate OwnerInv(s: State) {
    && (s.gate.held ==> s.grants != [])
    && (forall t: nat :: Owns(s, t) <==> s.gate.held && t == s.grants[|s.grants| - 1].ticket)
    && (!s.gate.held ==> s.gate.resets == [] && s.gate.priorities == [] && s.gate.regulars == [])
  }

  ghost predicate EpochInv(s: State) {
    forall t: nat :: t < |s.calls| && s.calls[t].phase.Configuring? ==>
      s.calls[t].phase.epoch == s.epoch && !s.calls[t].class_.Reset?
  }

  ghost predicate Inv(s: State) {
    && s.gate.priorityWaiters == |s.gate.resets| + |s.gate.priorities|
    && s.gate.regularWaiters == |s.gate.regulars|
    && (forall c :: QueueInv(s, c))
    && (forall c :: InOrder(s.grants, s.gate.Queue(c), c))
    && GrantInv(s) && OwnerInv(s) && EpochInv(s)
  }

  // Queues only depend on who waits.
  lemma SameQueues(s: State, s': State)
    requires forall c :: QueueInv(s, c)
    requires forall c :: s'.gate.Queue(c) == s.gate.Queue(c)
    requires forall c, u: nat :: WaitsAs(s', c, u) <==> WaitsAs(s, c, u)
    ensures forall c :: QueueInv(s', c)
  {
    forall c
      ensures QueueInv(s', c)
    {
      assert QueueInv(s, c);
    }
  }

  // The owner goes on; nobody else notices.
  lemma MoveKeeps(s: State, t: nat, phase: Phase)
    requires Inv(s) && Owns(s, t)
    requires phase.Inside? || (phase == Configuring(s.epoch) && !s.calls[t].class_.Reset?)
    ensures Inv(Move(s, t, phase))
  {
    var s' := Move(s, t, phase);
    SameQueues(s, s');
    assert forall u: nat :: Owns(s', u) <==> Owns(s, u);
    assert forall g :: Recorded(s, g) ==> Recorded(s', g);
  }

  // Only a reset that holds the gate changes the epoch, so no configure is under way.
  lemma EpochKeeps(s: State, t: nat, epoch: nat)
    requires Inv(s) && In(s, t) && s.calls[t].class_.Reset?
    ensures Inv(s.(epoch := epoch))
  {
    var s' := s.(epoch := epoch);
    SameQueues(s, s');
    assert forall u: nat :: Owns(s', u) <==> Owns(s, u);
    assert forall g :: Recorded(s, g) ==> Recorded(s', g);
    assert Owns(s, t);
    forall u: nat | u < |s.calls| && s.calls[u].phase.Configuring?
      ensures false
    {
      assert Owns(s, u);
    }
  }

  // The owner leaves; nobody waits, or the next waiter gets the gate.
  lemma LeaveKeeps(s: State, t: nat)
    requires Inv(s) && Owns(s, t)
    ensures Inv(Leave(s, t))
  {
    var s' := Leave(s, t);
    assert forall u: nat :: Owns(s, u) <==> u == t;
    assert forall g :: Recorded(s, g) ==> Recorded(s', g);
    if s.gate.Next() == [] {
      SameQueues(s, s');
      assert forall u: nat :: Owns(s', u) ==> Owns(s, u) && u != t;
    } else {
      HandOverKeeps(s, t, s.gate.Next()[0]);
    }
  }

  lemma HandOverKeeps(s: State, t: nat, g: Grant)
    requires Inv(s) && Owns(s, t) && s.gate.Next() == [g]
    ensures Inv(Leave(s, t))
  {
    var s' := Leave(s, t);
    var q := s.gate.Queue(g.class_);
    assert q != [] && q[0] == g.ticket && QueueInv(s, g.class_) && q[0] in q;
    assert WaitsAs(s, g.class_, g.ticket) && g.ticket != t;
    assert forall d, u: nat :: WaitsAs(s', d, u) <==> WaitsAs(s, d, u) && u != g.ticket;
    forall c
      ensures QueueInv(s', c) && InOrder(s'.grants, s'.gate.Queue(c), c)
    {
      assert QueueInv(s, c) && InOrder(s.grants, s.gate.Queue(c), c);
      HandOverQueue(s, s', g, c);
    }
    assert Recorded(s', g) && forall h :: Recorded(s, h) ==> Recorded(s', h);
    HandOverOwner(s, t, g);
  }

  lemma HandOverOwner(s: State, t: nat, g: Grant)
    requires OwnerInv(s) && Owns(s, t) && s.gate.Next() == [g] && WaitsAs(s, g.class_, g.ticket)
    ensures OwnerInv(Leave(s, t))
  {
    var s' := Leave(s, t);
    assert forall u: nat :: Owns(s, u) <==> u == t;
    assert forall u: nat :: Owns(s', u) ==> u == g.ticket || (Owns(s, u) && u != t);
    assert Owns(s', g.ticket);
  }

  lemma HandOverQueue(s: State, s': State, g: Grant, c: Class)
    requires QueueInv(s, c) && InOrder(s.grants, s.gate.Queue(c), c) && WaitsAs(s, g.class_, g.ticket)
    requires s.gate.Queue(g.class_) != [] && s.gate.Queue(g.class_)[0] == g.ticket && s'.grants == s.grants + [g]
    requires s'.gate.Queue(c) == if c == g.class_ then s.gate.Queue(c)[1..] else s.gate.Queue(c)
    requires forall d, u: nat :: WaitsAs(s', d, u) <==> WaitsAs(s, d, u) && u != g.ticket
    ensures QueueInv(s', c) && InOrder(s'.grants, s'.gate.Queue(c), c)
  {
    if c == g.class_ {
      PopAscending(s.gate.Queue(c));
      PopOrder(s.grants, s.gate.Queue(c), c);
    } else {
      assert g.ticket !in s.gate.Queue(c);
    }
  }

  lemma PopAscending(q: seq<nat>)
    requires q != [] && Ascending(q)
    ensures Ascending(q[1..]) && forall u :: u in q[1..] <==> u in q && u != q[0]
    ensures forall u :: u in q[1..] ==> q[0] < u
  {
  }

  lemma PushAscending(q: seq<nat>, t: nat)
    requires Ascending(q) && forall u :: u in q ==> u < t
    ensures Ascending(q + [t])
  {
    assert forall i :: 0 <= i < |q| ==> q[i] in q;
  }

  lemma PopOrder(grants: seq<Grant>, q: seq<nat>, c: Class)
    requires InOrder(grants, q, c) && q != [] && Ascending(q)
    ensures InOrder(grants + [Grant(c, q[0])], q[1..], c)
  {
    PopAscending(q);
    assert q[0] in q;
  }

  lemma InvKept(s: State, step: Step)
    requires Inv(s) && Enabled(s, step)
    ensures Inv(After(s, step))
  {
    match step
    case Arrive(c, ended) => ArriveKeeps(s, c, ended);
    case Notice(t) => MoveKeeps(s, t, Inside);
    case Abandon(t) =>
      if t in s.gate.granted {
        LeaveKeeps(s, t);
      } else {
        CancelKeeps(s, t);
      }
    case CheckEpoch(t, epoch) =>
      if epoch == s.epoch {
        MoveKeeps(s, t, Configuring(epoch));
      }
    case ChangeEpoch(t, epoch) => EpochKeeps(s, t, epoch);
    case Release(t) => LeaveKeeps(s, t);
  }

  lemma {:induction false} WithoutFacts(q: seq<nat>, t: nat)
    requires Ascending(q) && t in q
    ensures Ascending(Without(q, t)) && |Without(q, t)| == |q| - 1
    ensures forall u :: u in Without(q, t) <==> u in q && u != t
  {
    if q[0] != t {
      PopAscending(q);
      WithoutFacts(q[1..], t);
      PrependAscending(q[0], Without(q[1..], t));
    } else {
      PopAscending(q);
    }
  }

  lemma PrependAscending(t: nat, q: seq<nat>)
    requires Ascending(q) && forall u :: u in q ==> t < u
    ensures Ascending([t] + q)
  {
    assert forall i :: 0 <= i < |q| ==> q[i] in q;
  }

  // A waiter that was not granted yet takes itself out of its queue.
  lemma CancelKeeps(s: State, t: nat)
    requires Inv(s) && Enabled(s, Abandon(t)) && t !in s.gate.granted
    ensures Inv(After(s, Abandon(t)))
  {
    var s', ct := After(s, Abandon(t)), s.calls[t].class_;
    assert QueueInv(s, ct) && WaitsAs(s, ct, t);
    WithoutFacts(s.gate.Queue(ct), t);
    assert forall d, u: nat :: WaitsAs(s', d, u) <==> WaitsAs(s, d, u) && u != t;
    assert forall g :: Recorded(s, g) ==> Recorded(s', g);
    forall c
      ensures QueueInv(s', c) && InOrder(s'.grants, s'.gate.Queue(c), c)
    {
      assert QueueInv(s, c) && InOrder(s.grants, s.gate.Queue(c), c);
      assert s'.gate.Queue(c) == if c == ct then Without(s.gate.Queue(c), t) else s.gate.Queue(c);
      assert t in s.gate.Queue(c) <==> c == ct;
    }
    assert forall u: nat :: Owns(s', u) <==> Owns(s, u);
  }

  lemma ArriveKeeps(s: State, c: Class, ended: bool)
    requires Inv(s) && Enabled(s, Arrive(c, ended))
    ensures Inv(After(s, Arrive(c, ended)))
  {
    var s', t := After(s, Arrive(c, ended)), |s.calls|;
    assert forall d, u: nat :: u != t ==> (WaitsAs(s', d, u) <==> WaitsAs(s, d, u));
    assert forall g :: Recorded(s, g) ==> Recorded(s', g);
    forall d
      ensures QueueInv(s', d) && InOrder(s'.grants, s'.gate.Queue(d), d)
    {
      assert QueueInv(s, d) && InOrder(s.grants, s.gate.Queue(d), d);
      ArriveQueue(s, c, ended, d);
    }
    assert forall u: nat :: u != t ==> (Owns(s', u) <==> Owns(s, u));
    assert Owns(s', t) <==> !ended && s.gate.CanEnter(c);
  }

  lemma ArriveQueue(s: State, c: Class, ended: bool, d: Class)
    requires QueueInv(s, d) && InOrder(s.grants, s.gate.Queue(d), d) && GrantInv(s)
    requires Enabled(s, Arrive(c, ended)) && (s.gate.CanEnter(c) ==> s.gate.Queue(d) == [])
    ensures var s' := After(s, Arrive(c, ended));
      QueueInv(s', d) && InOrder(s'.grants, s'.gate.Queue(d), d)
  {
    var s', t := After(s, Arrive(c, ended)), |s.calls|;
    var q, q' := s.gate.Queue(d), s'.gate.Queue(d);
    assert forall u :: u in q ==> WaitsAs(s, d, u) && u < t;
    assert forall u: nat :: WaitsAs(s', d, u) <==> WaitsAs(s, d, u) || (u == t && q' == q + [t]) by {
      assert t !in s.gate.granted;
      assert c == d || q' == q;
    }
    PushAscending(q, t);
    ArriveOrder(s, q', d, t);
    assert s'.grants == s.grants || (s'.grants == s.grants + [Grant(c, t)] && q' == []);
  }

  lemma ArriveOrder(s: State, q': seq<nat>, d: Class, t: nat)
    requires InOrder(s.grants, s.gate.Queue(d), d) && GrantInv(s) && t == |s.calls|
    requires q' == s.gate.Queue(d) || q' == s.gate.Queue(d) + [t]
    ensures InOrder(s.grants, q', d) && forall c :: InOrder(s.grants + [Grant(c, t)], [], d)
  {
    assert forall i :: 0 <= i < |s.grants| ==> Recorded(s, s.grants[i]);
  }

  lemma {:induction false} InvAlways(states: seq<State>, steps: seq<Step>, k: nat)
    requires Run(states, steps) && k < |states|
    ensures Inv(states[k])
  {
    if k > 0 {
      InvAlways(states, steps, k - 1);
      InvKept(states[k - 1], steps[k - 1]);
    }
  }

  // ---------- The promises ----------

  // A held gate has exactly one owner and a free one none, with nobody waiting; and
  // a configure that has passed its epoch check works on the current epoch.
  lemma OneOwner(states: seq<State>, steps: seq<Step>, k: nat)
    requires Run(states, steps) && k < |states|
    ensures var s := states[k];
      && (s.gate.held ==> exists t: nat :: Owns(s, t) && forall u: nat :: Owns(s, u) ==> u == t)
      && (!s.gate.held ==> (forall u: nat :: !Owns(s, u)) && forall c :: s.gate.Queue(c) == [])
      && s.gate.priorityWaiters == |s.gate.resets| + |s.gate.priorities|
      && s.gate.regularWaiters == |s.gate.regulars|
      && forall t: nat :: t < |s.calls| && s.calls[t].phase.Configuring? ==> s.calls[t].phase.epoch == s.epoch
  {
    InvAlways(states, steps, k);
    var s := states[k];
    if s.gate.held {
      assert Owns(s, s.grants[|s.grants| - 1].ticket);
    }
  }

  // First come, first served within a class, over the whole run and whether a call
  // found the gate free or had to wait.
  lemma FirstComeFirstServed(states: seq<State>, steps: seq<Step>, k: nat, i: nat, j: nat)
    requires Run(states, steps) && k < |states| && i < j < |states[k].grants|
    ensures Recorded(states[k], states[k].grants[i]) && Recorded(states[k], states[k].grants[j])
    ensures states[k].grants[i].class_ == states[k].grants[j].class_ ==>
      states[k].grants[i].ticket < states[k].grants[j].ticket
  {
    InvAlways(states, steps, k);
    var s := states[k];
    assert InOrder(s.grants, s.gate.Queue(s.grants[i].class_), s.grants[i].class_);
  }

  predicate Before(a: Class, b: Class) {
    (a.Reset? && !b.Reset?) || (a.Priority? && b.Regular?)
  }

  // Whoever is let in, nobody of a more urgent class was waiting.
  lemma UrgentFirst(states: seq<State>, steps: seq<Step>, k: nat)
    requires Run(states, steps) && k < |steps|
    ensures |states[k].grants| <= |states[k + 1].grants| <= |states[k].grants| + 1
    ensures |states[k + 1].grants| > |states[k].grants| ==>
      forall c :: Before(c, states[k + 1].grants[|states[k].grants|].class_) ==> states[k].gate.Queue(c) == []
  {
    InvAlways(states, steps, k);
  }

  // A waiting reset is let in within as many hand-overs as its place in the queue,
  // whatever arrives or leaves meanwhile.
  ghost predicate ResetWithin(s: State, t: nat, handOvers: int) {
    Grant(Reset, t) in s.grants || exists i :: 0 <= i < |s.gate.resets| && i <= handOvers && s.gate.resets[i] == t
  }

  lemma {:induction false} ResetServedInTime(states: seq<State>, steps: seq<Step>, a: nat, b: nat, i: nat)
    requires Run(states, steps) && a <= b < |states| && i < |states[a].gate.resets|
    ensures |states[a].grants| <= |states[b].grants|
    ensures ResetWithin(states[b], states[a].gate.resets[i], i - (|states[b].grants| - |states[a].grants|))
    ensures |states[b].grants| > |states[a].grants| + i ==>
      Grant(Reset, states[a].gate.resets[i]) in states[b].grants
  {
    if a < b {
      ResetServedInTime(states, steps, a, b - 1, i);
      InvAlways(states, steps, b - 1);
      ResetStep(states[b - 1], steps[b - 1], states[a].gate.resets[i], i - (|states[b - 1].grants| - |states[a].grants|));
    }
  }

  lemma ResetStep(s: State, step: Step, t: nat, handOvers: int)
    requires Inv(s) && Enabled(s, step) && ResetWithin(s, t, handOvers)
    ensures var s' := After(s, step);
      |s'.grants| >= |s.grants| && ResetWithin(s', t, handOvers - (|s'.grants| - |s.grants|))
  {
    var s' := After(s, step);
    assert s.grants <= s'.grants;
    if Grant(Reset, t) !in s.grants {
      var i :| 0 <= i < |s.gate.resets| && i <= handOvers && s.gate.resets[i] == t;
      if s'.gate.resets == s.gate.resets || s.gate.resets <= s'.gate.resets {
        assert s'.gate.resets[i] == t;
      } else if i == 0 {
        assert Grant(Reset, t) in s'.grants;
      } else {
        assert s'.gate.resets[i - 1] == t;
      }
    }
  }
}
