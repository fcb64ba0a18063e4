// The dataplane reconciler: it drives Xray towards a plan by calls whose replies
// can be lost, and keeps books of what it knows and what is in doubt.
module Dataplane {
  import opened Wrappers
  import opened Plan
  import opened XrayRuntime
  import opened SortOutbounds
  import opened FlowRecovery

  datatype Refusal = InvalidPlan | InvalidRecoveries | StaleGeneration | GenerationReused
                   | RecoveryMismatch | ImmutableOutbound | RuntimeRecovering

  datatype Outcome = Applied | NoOp | Refused(why: Refusal) | AdapterFailed | PersistFailed

  datatype Entry = Proceed(pending: seq<Job>) | AlreadyApplied | TurnAway(why: Refusal)

  datatype RetryOutcome = Idle | NoControl | CaptureFailed | SaveFailed | CompletionFailed | Completed(pending: bool)

  function Converged(plan: DesiredPlan): World {
    World(ById(plan.outbounds), Rules(plan.clients))
  }

  predicate Compatible(runtime: Table, next: Table) {
    forall id :: id in runtime && id in next ==> runtime[id] == next[id]
  }

  predicate Within(small: Table, big: Table) {
    forall id :: id in small ==> id in big && small[id] == big[id]
  }

  predicate Loadable(record: AppliedPlan) {
    ValidPlan(record.plan) && IsQueue(record.jobs)
  }

  predicate HeldIn(items: seq<Outbound>, table: Table) {
    forall o :: o in items ==> o.id in table && table[o.id] == o
  }

  // A plan gives a DNS handler, whose addition is in doubt, a dialer that Xray does
  // not run yet.
  predicate Redirects(next: Table, b: Books) {
    exists id :: id in b.adds && id in next && next[id].protocol.Dns? && !Dials(next[id], b)
  }

  // And this is exactly when retrying some addition in doubt would leave a DNS handler
  // of Xray without its dialer.
  lemma RedirectsIsDangling(w: World, b: Books, plan: DesiredPlan)
    requires Tracked(w, b) && Dialed(w, b) && ValidPlan(plan) && Compatible(b.runtime, ById(plan.outbounds))
    ensures var next := ById(plan.outbounds);
      Redirects(next, b) <==> exists id :: id in b.adds && id in next && !Reachable(World(w.outbounds[id := next[id]], w.rules))
  {
    var next := ById(plan.outbounds);
    forall id | id in b.adds && id in next
      ensures next[id].protocol.Dns? && !Dials(next[id], b) <==> !Reachable(World(w.outbounds[id := next[id]], w.rules))
    {
      RedirectedDangles(w, b, plan, id);
    }
  }

  lemma RedirectedDangles(w: World, b: Books, plan: DesiredPlan, id: string)
    requires Tracked(w, b) && Dialed(w, b) && ValidPlan(plan) && Compatible(b.runtime, ById(plan.outbounds))
    requires id in b.adds && id in ById(plan.outbounds)
    ensures var o := ById(plan.outbounds)[id];
      o.protocol.Dns? && !Dials(o, b) <==> !Reachable(World(w.outbounds[id := o], w.rules))
  {
    ByIdFacts(plan.outbounds);
    var o := ById(plan.outbounds)[id];
    assert Dialable(o, ById(plan.outbounds)) && o.id == id;
    RetriedAddReaches(w, b, o);
    if o.protocol.Dns? {
      var proxy := o.config.proxy;
      assert id in b.Doubt() && (proxy in b.removes ==> proxy in b.Doubt());
    }
  }

  const Exit := Outbound("exit", Vless, Opaque(0))
  const Other := Outbound("other", Vless, Opaque(1))
  const Resolver := Outbound("dns", Dns, DialsThrough("exit"))
  const Redirected := Outbound("dns", Dns, DialsThrough("other"))
  const FirstPlan := DesiredPlan(1, [Exit, Resolver], [], true)
  const SecondPlan := DesiredPlan(2, [Exit, Other, Redirected], [], true)

  // The first plan adds its exit, and then adding its resolver fails without effect.
  // The second plan is admissible, gives the resolver another dialer, and retries the
  // addition first: the resolver runs in Xray without that dialer.
  lemma RetriedAddCanDangle()
    ensures ValidPlan(FirstPlan) && ValidPlan(SecondPlan) && FirstPlan.generation < SecondPlan.generation
    ensures Sort(FirstPlan.outbounds, AddLayer) == [Exit, Resolver]
    ensures var w, b := World(map["exit" := Exit], {}), Books(map["exit" := Exit], map["dns" := Resolver], map[]);
      && Tracked(w, b) && Dialed(w, b)
      && Compatible(b.runtime, ById(SecondPlan.outbounds)) && Redirects(ById(SecondPlan.outbounds), b)
      && Redirected in SecondPlan.outbounds && !Reachable(World(w.outbounds["dns" := Redirected], w.rules))
  {
    var w, b := World(map["exit" := Exit], {}), Books(map["exit" := Exit], map["dns" := Resolver], map[]);
    FirstPlanIsValid();
    SecondPlanIsValid();
    assert Insert(Resolver, [], AddLayer) == [Resolver];
    assert Sort([Resolver], AddLayer) == [Resolver];
    assert FirstPlan.outbounds[1..] == [Resolver];
    assert Tracked(w, b) && Dialed(w, b);
    var next := ById(SecondPlan.outbounds);
    assert Redirected in SecondPlan.outbounds && next["dns"] == Redirected;
    RetriedAddReaches(w, b, Redirected);
  }

  lemma FirstPlanIsValid()
    ensures ValidPlan(FirstPlan)
  {
    ByIdFacts(FirstPlan.outbounds);
    assert Exit in FirstPlan.outbounds;
  }

  lemma SecondPlanIsValid()
    ensures ValidPlan(SecondPlan)
    ensures forall o :: o in SecondPlan.outbounds ==> o.id in ById(SecondPlan.outbounds) && ById(SecondPlan.outbounds)[o.id] == o
    ensures Exit in SecondPlan.outbounds
  {
    ByIdFacts(SecondPlan.outbounds);
    assert SecondPlan.outbounds[0] == Exit && SecondPlan.outbounds[1] == Other && SecondPlan.outbounds[2] == Redirected;
    assert Other in SecondPlan.outbounds;
  }

  // A queued token is never exchanged for another.
  ghost predicate TokensKept(before: seq<Job>, after: seq<Job>) {
    forall a, b :: a in before && b in after && a.recovery == b.recovery && a.token.Some? ==> b.token == a.token
  }

  lemma NothingExchanged(jobs: seq<Job>)
    requires IsQueue(jobs)
    ensures TokensKept(jobs, jobs)
  {
  }

  ghost predicate StillQueued(job: Job, jobs: seq<Job>) {
    exists other :: other in jobs && other.recovery == job.recovery
  }

  ghost predicate Finished(job: Job, resets: seq<Reset>) {
    exists r :: r in resets && r.job.recovery == job.recovery && !r.outcome.ResetFailed?
  }

  // The backlog a plan is applied with: the old jobs it still wants, in front, and one
  // for every recovery whose failed route was in use, while there is room.
  ghost predicate NewBacklog(before: AppliedPlan, desired: DesiredPlan, recovering: bool, recoveries: seq<Recovery>, jobs: seq<Job>) {
    var kept, newer := Kept(desired, before.jobs), !recovering && desired.generation > before.plan.generation;
    && IsQueue(jobs) && kept <= jobs && (!newer ==> jobs == kept)
    && (forall k :: |kept| <= k < |jobs| ==> jobs[k].recovery in recoveries && StillFailed(before.plan, jobs[k].recovery))
    && (newer ==> forall q :: q in recoveries && StillFailed(before.plan, q) ==> |jobs| == MAX_PENDING || JobKey(q) in Keys(jobs))
  }

  // Every job the plan wants is finished or still queued.
  ghost predicate LookedAfter(plan: DesiredPlan, backlog: seq<Job>, jobs: seq<Job>, sent: seq<Reset>) {
    forall job :: job in backlog && Applicable(plan, job.recovery) ==> StillQueued(job, jobs) || Finished(job, sent)
  }

  lemma ScopeIsApplicable(plan: DesiredPlan, q: Recovery)
    requires ValidPlan(plan) && ValidScope(plan, q)
    ensures Applicable(plan, q)
  {
    var route :| route in plan.clients && Serves(route, q) && route.tcp == q.replacement;
    RouteOfFindsIt(plan.clients, route);
  }

  lemma {:induction false} RouteOfFindsIt(clients: seq<ClientRoute>, route: ClientRoute)
    requires route in clients
    requires forall i, j :: 0 <= i < j < |clients| ==> clients[i].clientID != clients[j].clientID
    ensures RouteOf(clients, route.clientID) == Some(route)
  {
    if clients[0] != route {
      assert route in clients[1..];
      RouteOfFindsIt(clients[1..], route);
    }
  }

  predicate AnyFailed(resets: seq<Reset>) {
    exists r :: r in resets && r.outcome.ResetFailed?
  }

  lemma AnyFailedSnoc(resets: seq<Reset>, last: Reset)
    ensures AnyFailed(resets + [last]) <==> AnyFailed(resets) || last.outcome.ResetFailed?
  {
    assert last in resets + [last];
    forall r | r in resets
      ensures r in resets + [last]
    {
    }
  }

  ghost predicate Sent(job: Job, resets: seq<Reset>) {
    exists r :: r in resets && r.job == job
  }

  function IdsOf(items: seq<Outbound>): set<string> {
    set o | o in items :: o.id
  }

  lemma IdsOfTail(items: seq<Outbound>)
    requires items != [] && DistinctIds(items)
    ensures items[0].id in IdsOf(items) && DistinctIds(items[1..])
    ensures IdsOf(items[1..]) == IdsOf(items) - {items[0].id}
  {
    assert items == [items[0]] + items[1..];
  }

  lemma HeldInTail(items: seq<Outbound>, table: Table)
    requires items != [] && DistinctIds(items) && HeldIn(items, table)
    ensures HeldIn(items[1..], table - {items[0].id})
  {
    forall o | o in items[1..]
      ensures o in items && o.id != items[0].id
    {
    }
  }

  lemma IdsOfTable(items: seq<Outbound>, table: Table)
    requires forall id :: id in table ==> table[id].id == id
    requires forall o :: o in items <==> o.id in table && table[o.id] == o
    ensures IdsOf(items) == table.Keys
  {
    forall id | id in table
      ensures id in IdsOf(items)
    {
      assert table[id] in items;
    }
  }

  lemma ByIdOfPermutation(a: seq<Outbound>, b: seq<Outbound>)
    requires DistinctIds(a) && DistinctIds(b) && forall o :: o in a <==> o in b
    ensures ById(a) == ById(b)
  {
    ByIdFacts(a);
    ByIdFacts(b);
  }

  class Reconciler {
    const xray: Xray
    const disk: StateFile
    const flow: FlowControl
    var applied: AppliedPlan
    var runtimeOutbounds: Table
    var pendingAdds: Table
    var pendingRemoves: Table
    var runtimeReady: bool
    var recoveryRequired: bool
    // The dynamic state was declared lost and no new process has been started yet.
    ghost var lost: bool
    // A plan has redirected a DNS handler (see Redirects), and no plan has been reached
    // since; `mark` is where the log stood when one was reached again.
    ghost var redirected: bool
    ghost var mark: nat
    // What has happened to the queue of flow resets.
    ghost var rounds: seq<Round>

    function Books(): Books
      reads this
    {
      XrayRuntime.Books(runtimeOutbounds, pendingAdds, pendingRemoves)
    }

    // Books and Xray agree up to what is in doubt, and no call made to this process
    // has disturbed a route.
    ghost predicate Tracking()
      reads this, xray
    {
      && Tracked(xray.world, Books())
      && (forall call :: call in xray.log ==> SafeCall(call))
      && (!redirected ==> Dialed(xray.world, Books()) && forall k :: mark <= k < |xray.log| ==> Reachable(xray.log[k].after))
    }

    ghost predicate InSync()
      reads this, xray
    {
      xray.world == Converged(applied.plan) && Books() == XrayRuntime.Books(ById(applied.plan.outbounds), map[], map[])
    }

    // The state file can be started from, and is never behind what was acknowledged.
    ghost predicate RecordsValid()
      reads this, disk, flow
    {
      RecordsButRounds() && History(rounds, applied.jobs, flow.resets)
    }

    ghost predicate RecordsButRounds()
      reads this, disk, flow
    {
      && (applied == NothingApplied || (ValidPlan(applied.plan) && disk.saved.Some?))
      && (disk.saved.Some? ==> Loadable(disk.saved.value) && applied.plan.generation <= disk.saved.value.plan.generation)
      && IsQueue(applied.jobs)
      && (forall r :: r in flow.resets ==> TokenSaved(r))
    }

    ghost predicate Valid()
      reads this, xray, disk, flow
    {
      && RecordsValid()
      && (lost ==> recoveryRequired && !runtimeReady && Books() == EmptyBooks && !redirected && mark == 0)
      && (!lost ==> Tracking())
      && (runtimeReady ==> !recoveryRequired && InSync() && !redirected)
      && (recoveryRequired && !lost ==> Within(runtimeOutbounds, ById(applied.plan.outbounds)))
      && (recoveryRequired && !lost && applied.plan == NoPlan ==> xray.world == Fresh && Books() == EmptyBooks)
    }

    constructor (xray: Xray, disk: StateFile, flow: FlowControl)
      requires xray.world == Fresh && xray.log == [] && flow.resets == []
      requires disk.saved.Some? ==> Loadable(disk.saved.value)
      ensures Valid() && !lost && this.xray == xray && this.disk == disk && this.flow == flow
      ensures recoveryRequired <==> disk.saved.Some?
      ensures applied == if disk.saved.Some? then disk.saved.value else NothingApplied
      ensures rounds == [] && !redirected && mark == 0
    {
      this.xray, this.disk, this.flow := xray, disk, flow;
      applied := if disk.saved.Some? then disk.saved.value else NothingApplied;
      runtimeOutbounds, pendingAdds, pendingRemoves := map[], map[], map[];
      runtimeReady, recoveryRequired, lost, redirected := false, disk.saved.Some?, false, false;
      rounds, mark := [], 0;
    }

    ghost predicate WouldRedirect(desired: DesiredPlan)
      reads this
    {
      redirected || Redirects(ById(desired.outbounds), Books())
    }

    // The write of the plan, and how it went.
    function Written(o: Outcome): seq<bool> {
      if o.Applied? then [true] else if o.PersistFailed? then [false] else []
    }

    // ---------- Entry points ----------

    // The reasons for which a plan is turned away, in the order they are checked.
    ghost function Admission(desired: DesiredPlan, recovering: bool, recoveries: seq<Recovery>): Option<Refusal>
      reads this
    {
      if !ValidPlan(desired) then Some(InvalidPlan)
      else if !ValidRecoveries(desired, recoveries) then Some(InvalidRecoveries)
      else if desired.generation < applied.plan.generation then Some(StaleGeneration)
      else if desired == applied.plan && runtimeReady then None
      else if desired.generation == applied.plan.generation && desired != applied.plan then Some(GenerationReused)
      else if !recovering && desired.generation > applied.plan.generation
              && exists q :: q in recoveries && !HadRoute(applied.plan, q) then Some(RecoveryMismatch)
      else if !Compatible(runtimeOutbounds, ById(desired.outbounds)) then Some(ImmutableOutbound)
      else None
    }

    // Success means Xray runs exactly this plan. A refusal has a stated reason and
    // changes nothing; everything else is a failed call or a failed write.
    method ApplyWithRecovery(desired: DesiredPlan, recoveries: seq<Recovery>) returns (o: Outcome, ghost backlog: seq<Job>, ghost effort: Effort)
      requires Valid()
      modifies this, xray, disk, flow
      ensures Valid() && lost == old(lost) && recoveryRequired == old(recoveryRequired)
      ensures o.Applied? || o.NoOp? ==>
        && applied.plan == desired && runtimeReady && xray.world == Converged(desired) && Books().Doubt() == {}
        && !redirected && Reachable(xray.world)
      ensures o.Applied? ==> disk.saved.Some? && disk.saved.value.plan == desired
      ensures flow.resets == old(flow.resets) + effort.sent && EndsWith(flow.captures, effort.captured)
      ensures disk.writes == old(disk.writes) + Written(o) + effort.written
      ensures !o.Applied? && !o.NoOp? ==> effort == NoEffort
      ensures o.Applied? || o.NoOp? ==> effort.control == flow.available
      ensures o.Applied? ==> NewBacklog(old(applied), desired, false, recoveries, backlog)
      ensures o.Applied? ==> LookedAfter(desired, backlog, applied.jobs, effort.sent)
      ensures o.NoOp? ==> LookedAfter(desired, old(applied.jobs), applied.jobs, effort.sent)
      ensures o.Applied? ==>
        rounds == old(rounds) + [Replan(desired, old(applied.jobs), backlog), Pass(desired, backlog, applied.jobs, effort)]
      ensures o.NoOp? ==> rounds == old(rounds) + [Pass(desired, old(applied.jobs), applied.jobs, effort)]
      ensures !o.Applied? && !o.NoOp? ==> rounds == old(rounds)
      ensures o.PersistFailed? ==> xray.world == Converged(desired)
      ensures redirected ==> !o.Applied? && old(WouldRedirect(desired))
      ensures mark != old(mark) ==> old(WouldRedirect(desired))
      ensures old(applied.plan.generation) <= applied.plan.generation
      ensures o.NoOp? ==> xray.log == old(xray.log) && old(runtimeReady) && old(applied.plan) == desired
      ensures old(recoveryRequired) ==> o == Refused(RuntimeRecovering)
      ensures !old(recoveryRequired) ==>
        old(Admission(desired, false, recoveries)) == if o.Refused? then Some(o.why) else None
      ensures o.Refused? ==> unchanged(this) && unchanged(xray) && unchanged(disk) && flow.resets == old(flow.resets)
      ensures old(xray.log) <= xray.log && (o.AdapterFailed? ==> CallFailed(old(xray.log), xray.log))
      ensures o.AdapterFailed? || o.PersistFailed? ==> applied == old(applied)
      ensures TokensKept(old(applied.jobs), applied.jobs)
    {
      if recoveryRequired {
        return Refused(RuntimeRecovering), [], NoEffort;
      }
      o, backlog, effort := ApplyLocked(desired, false, recoveries);
      if !redirected {
        DialedIsReachable(xray.world, Books());
      }
    }

    // All dynamic state of Xray is lost; it is one atomic step here.
    method InvalidateRuntime()
      requires Valid()
      modifies this
      ensures Valid() && lost && recoveryRequired && !runtimeReady && applied == old(applied) && rounds == old(rounds)
    {
      recoveryRequired := true;
      runtimeOutbounds, pendingAdds, pendingRemoves := map[], map[], map[];
      runtimeReady := false;
      lost, redirected, mark := true, false, 0;
    }

    // The supervisor starts a new process only after the invalidation.
    ghost method ProcessStarted()
      requires Valid() && lost
      modifies xray, this`lost
      ensures Valid() && !lost && xray.world == Fresh && applied == old(applied)
    {
      xray.Restart();
      lost := false;
    }

    // A process was started after the last invalidation: either that is still on record,
    // or nothing has been installed since (Supervisor.RehydrationFits).
    method Rehydrate() returns (o: Outcome)
      requires Valid() && !lost
      requires recoveryRequired || xray.world == Fresh
      modifies this, xray, disk, flow
      ensures Valid() && !lost && applied.plan == old(applied.plan)
      ensures o.Applied? ==> runtimeReady && !recoveryRequired && xray.world == Converged(applied.plan)
      ensures !o.Applied? ==> recoveryRequired && !runtimeReady
      ensures !o.Refused? && !o.NoOp?
      ensures old(xray.log) <= xray.log && (o.AdapterFailed? ==> CallFailed(old(xray.log), xray.log))
      ensures o.PersistFailed? ==> xray.world == Converged(applied.plan)
      ensures disk.writes == old(disk.writes) + if applied.plan.generation == 0 then [] else Written(o)
      ensures if o.Applied? && applied.plan.generation != 0
        then rounds == old(rounds) + [Replan(applied.plan, old(applied.jobs), applied.jobs)]
        else rounds == old(rounds) && applied == old(applied)
      ensures TokensKept(old(applied.jobs), applied.jobs)
    {
      RequireRecovery();
      if applied.plan.generation == 0 {
        assert ById([]) == map[];
        NoteArrival(applied.plan);
        Recovered();
        return Applied;
      }
      ghost var backlog, effort;
      o, backlog, effort := ApplyLocked(applied.plan, true, []);
      if !o.Applied? {
        return;
      }
      Recovered();
    }

    method Recovered()
      requires Valid() && !lost && InSync() && !redirected
      modifies this`runtimeReady, this`recoveryRequired
      ensures Valid() && runtimeReady && !recoveryRequired
    {
      runtimeReady := true;
      recoveryRequired := false;
    }

    method RequireRecovery()
      requires Valid() && !lost && (recoveryRequired || xray.world == Fresh)
      modifies this`runtimeOutbounds, this`pendingAdds, this`pendingRemoves, this`runtimeReady, this`recoveryRequired
      ensures Valid() && recoveryRequired && !runtimeReady
    {
      if !recoveryRequired {
        runtimeOutbounds, pendingAdds, pendingRemoves := map[], map[], map[];
        runtimeReady := false;
        recoveryRequired := true;
      }
    }

    // ---------- Applying a plan ----------

    method ApplyLocked(desired: DesiredPlan, recovering: bool, recoveries: seq<Recovery>)
      returns (o: Outcome, ghost backlog: seq<Job>, ghost effort: Effort)
      requires Valid() && !lost && recovering == recoveryRequired
      requires recovering ==> desired == applied.plan && recoveries == [] && applied.plan != NoPlan
      modifies this, xray, disk, flow
      ensures Valid() && !lost && recoveryRequired == old(recoveryRequired)
      ensures o.Applied? || o.NoOp? ==> applied.plan == desired && InSync() && runtimeReady == !recovering
      ensures o.Applied? ==> disk.saved.Some? && disk.saved.value.plan == desired
      ensures flow.resets == old(flow.resets) + effort.sent && EndsWith(flow.captures, effort.captured)
      ensures disk.writes == old(disk.writes) + Written(o) + effort.written
      ensures recovering || (!o.Applied? && !o.NoOp?) ==> effort == NoEffort
      ensures (o.Applied? && !recovering) || o.NoOp? ==> effort.control == flow.available
      ensures o.Applied? ==> NewBacklog(old(applied), desired, recovering, recoveries, backlog)
      ensures o.Applied? ==> LookedAfter(desired, backlog, applied.jobs, effort.sent)
      ensures o.NoOp? ==> LookedAfter(desired, old(applied.jobs), applied.jobs, effort.sent)
      ensures o.Applied? && !recovering ==>
        rounds == old(rounds) + [Replan(desired, old(applied.jobs), backlog), Pass(desired, backlog, applied.jobs, effort)]
      ensures o.Applied? && recovering ==> rounds == old(rounds) + [Replan(desired, old(applied.jobs), applied.jobs)]
      ensures o.NoOp? ==> rounds == old(rounds) + [Pass(desired, old(applied.jobs), applied.jobs, effort)]
      ensures !o.Applied? && !o.NoOp? ==> rounds == old(rounds)
      ensures o.PersistFailed? ==> xray.world == Converged(desired)
      ensures redirected ==> !o.Applied? && old(WouldRedirect(desired))
      ensures mark != old(mark) ==> old(WouldRedirect(desired))
      ensures o.NoOp? ==> xray.log == old(xray.log) && old(runtimeReady) && old(applied.plan) == desired
      ensures old(Admission(desired, recovering, recoveries)) == if o.Refused? then Some(o.why) else None
      ensures o.Refused? ==> unchanged(this) && unchanged(xray) && unchanged(disk) && flow.resets == old(flow.resets)
      ensures old(xray.log) <= xray.log && (o.AdapterFailed? ==> CallFailed(old(xray.log), xray.log))
      ensures o.AdapterFailed? || o.PersistFailed? ==> applied == old(applied)
      ensures recovering && !o.Applied? ==> !runtimeReady
      ensures TokensKept(old(applied.jobs), applied.jobs)
    {
      var entry := Admit(desired, recovering, recoveries);
      if entry.TurnAway? {
        o, backlog, effort := Refused(entry.why), [], NoEffort;
      } else {
        o, backlog, effort := ApplyAdmitted(desired, recovering, recoveries, entry);
      }
    }

    method ApplyAdmitted(desired: DesiredPlan, recovering: bool, ghost recoveries: seq<Recovery>, entry: Entry)
      returns (o: Outcome, ghost backlog: seq<Job>, ghost effort: Effort)
      requires Valid() && !lost && recovering == recoveryRequired
      requires recovering ==> desired == applied.plan
      requires !entry.TurnAway? && Admission(desired, recovering, recoveries) == None
      requires entry.AlreadyApplied? ==> desired == applied.plan && runtimeReady
      requires entry.Proceed? ==>
        NewBacklog(applied, desired, recovering, recoveries, entry.pending) && TokensKept(applied.jobs, entry.pending)
      modifies this, xray, disk, flow
      ensures Valid() && !lost && recoveryRequired == old(recoveryRequired)
      ensures o.Applied? || o.NoOp? ==> applied.plan == desired && InSync() && runtimeReady == !recovering
      ensures o.Applied? ==> disk.saved.Some? && disk.saved.value.plan == desired
      ensures flow.resets == old(flow.resets) + effort.sent && EndsWith(flow.captures, effort.captured)
      ensures disk.writes == old(disk.writes) + Written(o) + effort.written
      ensures recovering || (!o.Applied? && !o.NoOp?) ==> effort == NoEffort
      ensures (o.Applied? && !recovering) || o.NoOp? ==> effort.control == flow.available
      ensures o.Applied? ==> NewBacklog(old(applied), desired, recovering, recoveries, backlog)
      ensures o.Applied? ==> LookedAfter(desired, backlog, applied.jobs, effort.sent)
      ensures o.NoOp? ==> LookedAfter(desired, old(applied.jobs), applied.jobs, effort.sent)
      ensures o.Applied? && !recovering ==>
        rounds == old(rounds) + [Replan(desired, old(applied.jobs), backlog), Pass(desired, backlog, applied.jobs, effort)]
      ensures o.Applied? && recovering ==> rounds == old(rounds) + [Replan(desired, old(applied.jobs), applied.jobs)]
      ensures o.NoOp? ==> rounds == old(rounds) + [Pass(desired, old(applied.jobs), applied.jobs, effort)]
      ensures !o.Applied? && !o.NoOp? ==> rounds == old(rounds)
      ensures o.PersistFailed? ==> xray.world == Converged(desired)
      ensures redirected ==> !o.Applied? && old(WouldRedirect(desired))
      ensures mark != old(mark) ==> old(WouldRedirect(desired))
      ensures o.NoOp? ==> xray.log == old(xray.log) && old(runtimeReady) && old(applied.plan) == desired
      ensures !o.Refused?
      ensures old(xray.log) <= xray.log && (o.AdapterFailed? ==> CallFailed(old(xray.log), xray.log))
      ensures o.AdapterFailed? || o.PersistFailed? ==> applied == old(applied)
      ensures recovering && !o.Applied? ==> !runtimeReady
      ensures TokensKept(old(applied.jobs), applied.jobs)
    {
      if entry.AlreadyApplied? {
        effort := PassAgain();
        o, backlog := NoOp, [];
      } else {
        backlog := entry.pending;
        o, effort := Commit(desired, recovering, entry.pending);
      }
    }

    // The plan is served already; only its backlog is gone over once more.
    method PassAgain() returns (ghost effort: Effort)
      requires Valid() && !lost && runtimeReady
      modifies this`applied, this`rounds, disk, flow
      ensures Valid() && InSync() && applied.plan == old(applied.plan)
      ensures flow.resets == old(flow.resets) + effort.sent && EndsWith(flow.captures, effort.captured)
      ensures disk.writes == old(disk.writes) + effort.written && effort.control == flow.available
      ensures rounds == old(rounds) + [Pass(applied.plan, old(applied.jobs), applied.jobs, effort)]
      ensures TokensKept(old(applied.jobs), applied.jobs)
      ensures LookedAfter(applied.plan, old(applied.jobs), applied.jobs, effort.sent)
    {
      var o;
      o, effort := RetryFlowRecoveriesLocked();
    }

    lemma TokensKeptTwice(before: seq<Job>, middle: seq<Job>, after: seq<Job>)
      requires TokensKept(before, middle) && TokensKept(middle, after)
      requires forall job :: job in after ==> StillQueued(job, middle)
      ensures TokensKept(before, after)
    {
      forall a, c | a in before && c in after && a.recovery == c.recovery && a.token.Some?
        ensures c.token == a.token
      {
        var b :| b in middle && b.recovery == c.recovery;
      }
    }

    // All checks before the first call to Xray, and the backlog of the new plan.
    method Admit(desired: DesiredPlan, recovering: bool, recoveries: seq<Recovery>) returns (entry: Entry)
      requires Valid()
      modifies flow`captures
      ensures Admission(desired, recovering, recoveries) == if entry.TurnAway? then Some(entry.why) else None
      ensures !entry.TurnAway? ==> (entry.AlreadyApplied? <==> desired == applied.plan && runtimeReady)
      ensures entry.Proceed? ==>
        NewBacklog(applied, desired, recovering, recoveries, entry.pending) && TokensKept(applied.jobs, entry.pending)
    {
      var planOk := Validate(desired);
      if !planOk {
        return TurnAway(InvalidPlan);
      }
      var recoveriesOk := ValidateFlowRecoveries(desired, recoveries);
      if !recoveriesOk {
        return TurnAway(InvalidRecoveries);
      }
      if desired.generation < applied.plan.generation {
        return TurnAway(StaleGeneration);
      }
      if desired.generation == applied.plan.generation {
        if desired == applied.plan && runtimeReady {
          return AlreadyApplied;
        }
        if desired != applied.plan {
          return TurnAway(GenerationReused);
        }
      }
      var current := recoveries;
      if !recovering && desired.generation > applied.plan.generation {
        var served;
        served, current := CurrentFlowRecoveries(applied.plan, recoveries);
        if !served {
          return TurnAway(RecoveryMismatch);
        }
      }
      var pending := Backlog(desired, recovering, recoveries, current);
      var compatible := CheckImmutable(ById(desired.outbounds));
      if !compatible {
        return TurnAway(ImmutableOutbound);
      }
      return Proceed(pending);
    }

    method Backlog(desired: DesiredPlan, recovering: bool, ghost recoveries: seq<Recovery>, current: seq<Recovery>)
      returns (pending: seq<Job>)
      requires IsQueue(applied.jobs) && ValidPlan(desired) && ValidRecoveries(desired, recoveries)
      requires if recovering || desired.generation <= applied.plan.generation then current == recoveries
        else forall q :: q in current <==> q in recoveries && StillFailed(applied.plan, q)
      modifies flow`captures
      ensures NewBacklog(applied, desired, recovering, recoveries, pending) && TokensKept(applied.jobs, pending)
    {
      var snapshot := None;
      if !recovering && desired.generation > applied.plan.generation && flow.available && |current| > 0 {
        snapshot := flow.FlowSnapshot();
      }
      pending := PrepareFlowRecoveries(applied, desired, current, recovering, snapshot);
      PreparedKeepTokens(desired, recoveries, current, pending);
    }

    method Commit(desired: DesiredPlan, recovering: bool, pending: seq<Job>)
      returns (o: Outcome, ghost effort: Effort)
      requires Valid() && !lost && recovering == recoveryRequired && ValidPlan(desired)
      requires recovering ==> desired == applied.plan
      requires applied.plan.generation <= desired.generation
      requires Compatible(runtimeOutbounds, ById(desired.outbounds))
      requires IsQueue(pending) && TokensKept(applied.jobs, pending) && Kept(desired, applied.jobs) <= pending
      modifies this, xray, disk, flow
      ensures Valid() && !lost && recoveryRequired == old(recoveryRequired)
      ensures o.Applied? || o.AdapterFailed? || o.PersistFailed?
      ensures o.Applied? ==> applied.plan == desired && InSync() && runtimeReady == !recovering
      ensures o.Applied? ==> disk.saved.Some? && disk.saved.value.plan == desired
      ensures flow.resets == old(flow.resets) + effort.sent && EndsWith(flow.captures, effort.captured)
      ensures disk.writes == old(disk.writes) + Written(o) + effort.written
      ensures if recovering || !o.Applied? then effort == NoEffort else effort.control == flow.available
      ensures o.Applied? ==> LookedAfter(desired, pending, applied.jobs, effort.sent)
      ensures o.Applied? && !recovering ==>
        rounds == old(rounds) + [Replan(desired, old(applied.jobs), pending), Pass(desired, pending, applied.jobs, effort)]
      ensures o.Applied? && recovering ==> rounds == old(rounds) + [Replan(desired, old(applied.jobs), applied.jobs)]
      ensures !o.Applied? ==> rounds == old(rounds)
      ensures o.PersistFailed? ==> xray.world == Converged(desired)
      ensures !o.Applied? ==> applied == old(applied) && !runtimeReady
      ensures old(xray.log) <= xray.log && (o.AdapterFailed? ==> CallFailed(old(xray.log), xray.log))
      ensures redirected ==> !o.Applied? && old(WouldRedirect(desired))
      ensures mark != old(mark) ==> old(WouldRedirect(desired))
      ensures TokensKept(old(applied.jobs), applied.jobs)
    {
      effort := NoEffort;
      o := Converge(desired);
      if o.Applied? {
        o, effort := Persist(desired, recovering, pending);
      }
    }

    method Persist(desired: DesiredPlan, recovering: bool, pending: seq<Job>)
      returns (o: Outcome, ghost effort: Effort)
      requires Valid() && !lost && !runtimeReady && !redirected && recovering == recoveryRequired && ValidPlan(desired)
      requires recovering ==> desired == applied.plan
      requires applied.plan.generation <= desired.generation
      requires xray.world == Converged(desired) && Books() == XrayRuntime.Books(ById(desired.outbounds), map[], map[])
      requires IsQueue(pending) && TokensKept(applied.jobs, pending) && Kept(desired, applied.jobs) <= pending
      modifies this`applied, this`runtimeReady, this`rounds, disk, flow
      ensures Valid()
      ensures o.Applied? || o.PersistFailed?
      ensures o.Applied? ==> applied.plan == desired && InSync() && runtimeReady == !recovering
      ensures o.Applied? ==> disk.saved.Some? && disk.saved.value.plan == desired
      ensures flow.resets == old(flow.resets) + effort.sent && EndsWith(flow.captures, effort.captured)
      ensures disk.writes == old(disk.writes) + Written(o) + effort.written
      ensures if recovering || !o.Applied? then effort == NoEffort else effort.control == flow.available
      ensures o.Applied? ==> LookedAfter(desired, pending, applied.jobs, effort.sent)
      ensures o.Applied? && !recovering ==>
        rounds == old(rounds) + [Replan(desired, old(applied.jobs), pending), Pass(desired, pending, applied.jobs, effort)]
      ensures o.Applied? && recovering ==> rounds == old(rounds) + [Replan(desired, old(applied.jobs), applied.jobs)]
      ensures !o.Applied? ==> rounds == old(rounds)
      ensures o.PersistFailed? ==> applied == old(applied) && !runtimeReady
      ensures TokensKept(old(applied.jobs), applied.jobs)
    {
      var plan := AppliedPlan(desired, pending);
      var saved := disk.Write(plan);
      effort := NoEffort;
      if !saved {
        NothingExchanged(applied.jobs);
        o := PersistFailed;
      } else {
        Acknowledge(plan);
        if !recovering {
          effort := Serve(old(applied.jobs));
        }
        o := Applied;
      }
    }

    // The plan is served, and a first pass goes over its backlog.
    method Serve(ghost before: seq<Job>) returns (ghost effort: Effort)
      requires Valid() && !lost && !recoveryRequired && InSync() && !redirected && TokensKept(before, applied.jobs)
      requires disk.saved.Some? && disk.saved.value.plan == applied.plan
      modifies this`runtimeReady, this`applied, this`rounds, disk, flow
      ensures Valid() && runtimeReady && InSync() && applied.plan == old(applied.plan)
      ensures disk.saved.Some? && disk.saved.value.plan == applied.plan
      ensures flow.resets == old(flow.resets) + effort.sent && EndsWith(flow.captures, effort.captured)
      ensures disk.writes == old(disk.writes) + effort.written && effort.control == flow.available
      ensures rounds == old(rounds) + [Pass(applied.plan, old(applied.jobs), applied.jobs, effort)]
      ensures TokensKept(before, applied.jobs)
      ensures LookedAfter(applied.plan, old(applied.jobs), applied.jobs, effort.sent)
    {
      runtimeReady := true;
      var o;
      o, effort := RetryFlowRecoveriesLocked();
      TokensKeptTwice(before, old(applied.jobs), applied.jobs);
    }

    // The plan counts from now on, with its backlog.
    method Acknowledge(plan: AppliedPlan)
      requires Kept(plan.plan, applied.jobs) <= plan.jobs && History(rounds, applied.jobs, flow.resets)
      modifies this`applied, this`rounds
      ensures applied == plan && rounds == old(rounds) + [Replan(plan.plan, old(applied.jobs), plan.jobs)]
      ensures History(rounds, applied.jobs, flow.resets)
    {
      ghost var round := Replan(plan.plan, applied.jobs, plan.jobs);
      HistoryGrows(rounds, flow.resets, round, flow.resets);
      rounds := rounds + [round];
      applied := plan;
    }

    lemma PreparedKeepTokens(desired: DesiredPlan, recoveries: seq<Recovery>, current: seq<Recovery>, pending: seq<Job>)
      requires ValidPlan(desired) && ValidRecoveries(desired, recoveries)
      requires IsQueue(applied.jobs)
      requires forall q :: q in current ==> q in recoveries
      requires Kept(desired, applied.jobs) <= pending && IsQueue(pending)
      requires forall k :: |Kept(desired, applied.jobs)| <= k < |pending| ==> pending[k].recovery in current
      ensures TokensKept(applied.jobs, pending)
    {
      var kept := Kept(desired, applied.jobs);
      forall a, b | a in applied.jobs && b in pending && a.recovery == b.recovery && a.token.Some?
        ensures b.token == a.token
      {
        var k :| 0 <= k < |pending| && pending[k] == b;
        if k >= |kept| {
          ScopeIsApplicable(desired, b.recovery);
        } else {
          assert kept[k] == b;
          var i :| 0 <= i < |applied.jobs| && applied.jobs[i] == a;
          var m :| 0 <= m < |applied.jobs| && applied.jobs[m] == b;
        }
      }
    }

    method CheckImmutable(next: Table) returns (ok: bool)
      ensures ok <==> Compatible(runtimeOutbounds, next)
    {
      var ids := runtimeOutbounds.Keys;
      while ids != {}
        invariant ids <= runtimeOutbounds.Keys
        invariant forall id :: id in runtimeOutbounds && id !in ids && id in next ==> runtimeOutbounds[id] == next[id]
      {
        var id :| id in ids;
        if id in next && runtimeOutbounds[id] != next[id] {
          return false;
        }
        ids := ids - {id};
      }
      return true;
    }

    // Bring Xray to the plan: settle what is in doubt, add what is missing, replace
    // the routes, and only then remove what no route uses any more.
    method Converge(desired: DesiredPlan) returns (o: Outcome)
      requires Tracking() && ValidPlan(desired) && Compatible(runtimeOutbounds, ById(desired.outbounds))
      requires runtimeReady ==> InSync()
      modifies this`runtimeOutbounds, this`pendingAdds, this`pendingRemoves, this`runtimeReady, this`redirected, this`mark, xray
      ensures Tracking() && !runtimeReady
      ensures redirected == (!o.Applied? && old(WouldRedirect(desired)))
      ensures mark != old(mark) ==> old(WouldRedirect(desired))
      ensures o.Applied? || o.AdapterFailed?
      ensures o.Applied? ==>
        xray.world == Converged(desired) && Books() == XrayRuntime.Books(ById(desired.outbounds), map[], map[])
      ensures old(xray.log) <= xray.log && (o.AdapterFailed? ==> CallFailed(old(xray.log), xray.log))
      ensures Within(old(runtimeOutbounds), ById(desired.outbounds)) ==> Within(runtimeOutbounds, ById(desired.outbounds))
    {
      ByIdFacts(desired.outbounds);
      var runtimeWasReady := runtimeReady;
      NoteRedirection(ById(desired.outbounds));
      runtimeReady := false;
      var settled := NormalizePending(ById(desired.outbounds));
      if !settled {
        return AdapterFailed;
      }
      o := ConvergeSettled(desired, runtimeWasReady);
      if o.Applied? {
        NoteArrival(desired);
      }
    }

    // In a plan that was reached every DNS handler has its dialer.
    ghost method NoteArrival(plan: DesiredPlan)
      requires Tracking() && (ValidPlan(plan) || plan == NoPlan)
      requires Books() == XrayRuntime.Books(ById(plan.outbounds), map[], map[])
      modifies this`redirected, this`mark
      ensures Tracking() && !redirected
      ensures mark == if old(redirected) then |xray.log| else old(mark)
    {
      if redirected {
        ReachedIsDialed(plan);
        redirected, mark := false, |xray.log|;
      }
    }

    lemma ReachedIsDialed(plan: DesiredPlan)
      requires ValidPlan(plan) || plan == NoPlan
      requires Books() == XrayRuntime.Books(ById(plan.outbounds), map[], map[])
      ensures Dialed(xray.world, Books())
    {
      ByIdFacts(plan.outbounds);
    }

    ghost method NoteRedirection(next: Table)
      requires Tracking()
      modifies this`redirected
      ensures Tracking() && redirected == (old(redirected) || Redirects(next, Books()))
    {
      redirected := redirected || Redirects(next, Books());
    }

    method ConvergeSettled(desired: DesiredPlan, runtimeWasReady: bool) returns (o: Outcome)
      requires Tracking() && Books().Doubt() == {}
      requires ValidPlan(desired) && Compatible(runtimeOutbounds, ById(desired.outbounds))
      requires runtimeWasReady ==> xray.world.rules == Rules(applied.plan.clients)
      modifies this`runtimeOutbounds, this`pendingAdds, this`pendingRemoves, xray
      ensures Tracking()
      ensures o.Applied? || o.AdapterFailed?
      ensures o.Applied? ==>
        xray.world == Converged(desired) && Books() == XrayRuntime.Books(ById(desired.outbounds), map[], map[])
      ensures old(xray.log) <= xray.log && (o.AdapterFailed? ==> CallFailed(old(xray.log), xray.log))
      ensures Within(old(runtimeOutbounds), ById(desired.outbounds)) ==> Within(runtimeOutbounds, ById(desired.outbounds))
    {
      var current := runtimeOutbounds;
      RemovesAreNamed();
      var added := AddMissing(desired, current);
      if !added {
        return AdapterFailed;
      }
      var routed := Route(desired, runtimeWasReady);
      if !routed {
        return AdapterFailed;
      }
      var removed := RemoveObsolete(desired, current);
      if !removed {
        return AdapterFailed;
      }
      return Applied;
    }

    // ---------- The phases ----------

    method NormalizePending(next: Table) returns (ok: bool)
      requires Tracking() && Compatible(runtimeOutbounds, next)
      requires forall id :: id in next ==> next[id].id == id
      requires !redirected ==> !Redirects(next, Books())
      modifies this`runtimeOutbounds, this`pendingAdds, this`pendingRemoves, xray
      ensures Tracking() && Compatible(runtimeOutbounds, next)
      ensures xray.world.rules == old(xray.world).rules
      ensures ok ==> Books().Doubt() == {}
      ensures old(xray.log) <= xray.log && (!ok ==> CallFailed(old(xray.log), xray.log))
      ensures Within(old(runtimeOutbounds), next) ==> Within(runtimeOutbounds, next)
    {
      var wanted, obsolete := SplitPendingAdds(next);
      ok := NormalizeWanted(next, wanted, IdsOf(obsolete));
      if !ok {
        return;
      }
      ok := NormalizeObsolete(next, obsolete);
      if !ok {
        return;
      }
      ok := NormalizeRemoves(next);
    }

    method NormalizeWanted(next: Table, wanted: seq<Outbound>, ghost others: set<string>) returns (ok: bool)
      requires Tracking() && Compatible(runtimeOutbounds, next)
      requires DistinctIds(wanted) && pendingAdds.Keys == IdsOf(wanted) + others && IdsOf(wanted) !! others
      requires forall o :: o in wanted ==> o.id in next && o == next[o.id]
      requires !redirected ==> forall o :: o in wanted ==> Dials(o, Books())
      modifies this`runtimeOutbounds, this`pendingAdds, xray
      ensures Tracking() && Compatible(runtimeOutbounds, next)
      ensures xray.world.rules == old(xray.world).rules
      ensures ok ==> pendingAdds.Keys == others
      ensures forall id :: id in others ==> id in pendingAdds && pendingAdds[id] == old(pendingAdds)[id]
      ensures old(xray.log) <= xray.log && (!ok ==> CallFailed(old(xray.log), xray.log))
      ensures Within(old(runtimeOutbounds), next) ==> Within(runtimeOutbounds, next)
    {
      SortFacts(wanted, AddLayer);
      var todo := Sort(wanted, AddLayer);
      assert IdsOf(todo) == IdsOf(wanted);
      while todo != []
        invariant Tracking() && Compatible(runtimeOutbounds, next)
        invariant xray.world.rules == old(xray.world).rules && old(xray.log) <= xray.log
        invariant DistinctIds(todo) && pendingAdds.Keys == IdsOf(todo) + others && IdsOf(todo) !! others
        invariant forall o :: o in todo ==> o.id in next && o == next[o.id]
        invariant !redirected ==> forall o :: o in todo ==> Dials(o, Books())
        invariant forall id :: id in others ==> id in pendingAdds && pendingAdds[id] == old(pendingAdds)[id]
        invariant Within(old(runtimeOutbounds), next) ==> Within(runtimeOutbounds, next)
      {
        IdsOfTail(todo);
        ghost var before := Books();
        assert Slot(xray.world, before, todo[0].id);
        ok := RetryPendingAdd(todo[0]);
        if !ok {
          return;
        }
        if !redirected {
          DialsStay(before, Books(), todo[0], todo[1..]);
        }
        todo := todo[1..];
      }
      ok := true;
    }

    lemma DialsStay(b: Books, b': Books, added: Outbound, others: seq<Outbound>)
      requires added.id !in b.runtime && b'.runtime == b.runtime[added.id := added] && b'.removes == b.removes
      requires forall o :: o in others ==> Dials(o, b)
      ensures forall o :: o in others ==> Dials(o, b')
    {
    }

    method NormalizeObsolete(next: Table, obsolete: seq<Outbound>) returns (ok: bool)
      requires Tracking() && Compatible(runtimeOutbounds, next)
      requires DistinctIds(obsolete) && pendingAdds.Keys == IdsOf(obsolete) && HeldIn(obsolete, pendingAdds)
      modifies this`runtimeOutbounds, this`pendingAdds, xray
      ensures Tracking() && runtimeOutbounds == old(runtimeOutbounds)
      ensures xray.world.rules == old(xray.world).rules
      ensures ok ==> pendingAdds == map[]
      ensures old(xray.log) <= xray.log && (!ok ==> CallFailed(old(xray.log), xray.log))
    {
      SortFacts(obsolete, RemovalLayer);
      var todo := Sort(obsolete, RemovalLayer);
      assert IdsOf(todo) == IdsOf(obsolete);
      while todo != []
        invariant Tracking() && runtimeOutbounds == old(runtimeOutbounds)
        invariant xray.world.rules == old(xray.world).rules && old(xray.log) <= xray.log
        invariant DistinctIds(todo) && pendingAdds.Keys == IdsOf(todo) && HeldIn(todo, pendingAdds)
      {
        IdsOfTail(todo);
        HeldInTail(todo, pendingAdds);
        ok := DiscardPendingAdd(todo[0]);
        if !ok {
          return;
        }
        todo := todo[1..];
      }
      ok := true;
    }

    method NormalizeRemoves(next: Table) returns (ok: bool)
      requires Tracking() && Compatible(runtimeOutbounds, next)
      modifies this`runtimeOutbounds, this`pendingRemoves, xray
      ensures Tracking() && Compatible(runtimeOutbounds, next)
      ensures xray.world.rules == old(xray.world).rules
      ensures ok ==> pendingRemoves == map[]
      ensures old(xray.log) <= xray.log && (!ok ==> CallFailed(old(xray.log), xray.log))
      ensures Within(old(runtimeOutbounds), next) ==> Within(runtimeOutbounds, next)
    {
      RemovesAreNamed();
      var items := Items(pendingRemoves);
      SortFacts(items, RemovalLayer);
      var todo := Sort(items, RemovalLayer);
      IdsOfTable(todo, pendingRemoves);
      while todo != []
        invariant Tracking() && Compatible(runtimeOutbounds, next)
        invariant xray.world.rules == old(xray.world).rules && old(xray.log) <= xray.log
        invariant DistinctIds(todo) && pendingRemoves.Keys == IdsOf(todo) && HeldIn(todo, pendingRemoves)
        invariant Within(old(runtimeOutbounds), next) ==> Within(runtimeOutbounds, next)
      {
        IdsOfTail(todo);
        HeldInTail(todo, pendingRemoves);
        ok := RetryPendingRemove(todo[0]);
        if !ok {
          return;
        }
        todo := todo[1..];
      }
      ok := true;
    }

    lemma RemovesAreNamed()
      requires Tracking()
      ensures forall id :: id in pendingRemoves ==> pendingRemoves[id].id == id
      ensures forall id :: id in pendingAdds ==> pendingAdds[id].id == id
      ensures forall id :: id in runtimeOutbounds ==> runtimeOutbounds[id].id == id
    {
      forall id | id in pendingRemoves || id in pendingAdds || id in runtimeOutbounds
        ensures Slot(xray.world, Books(), id)
      {
      }
    }

    // The values of a table, in no particular order.
    method Items(table: Table) returns (items: seq<Outbound>)
      requires forall id :: id in table ==> table[id].id == id
      ensures DistinctIds(items)
      ensures forall o :: o in items <==> o.id in table && table[o.id] == o
    {
      items := [];
      var ids := table.Keys;
      while ids != {}
        invariant ids <= table.Keys && DistinctIds(items)
        invariant forall o :: o in items <==> o.id in table && o.id !in ids && table[o.id] == o
      {
        var id :| id in ids;
        assert forall o :: o in items ==> o.id != id;
        items := items + [table[id]];
        ids := ids - {id};
      }
    }

    method SplitPendingAdds(next: Table) returns (wanted: seq<Outbound>, obsolete: seq<Outbound>)
      requires Tracking() && forall id :: id in next ==> next[id].id == id
      ensures DistinctIds(wanted) && DistinctIds(obsolete)
      ensures forall o :: o in wanted <==> o.id in pendingAdds && o.id in next && o == next[o.id]
      ensures forall o :: o in obsolete <==> o.id in pendingAdds && o.id !in next && o == pendingAdds[o.id]
      ensures pendingAdds.Keys == IdsOf(wanted) + IdsOf(obsolete) && IdsOf(wanted) !! IdsOf(obsolete)
    {
      RemovesAreNamed();
      wanted, obsolete := [], [];
      var ids := pendingAdds.Keys;
      while ids != {}
        invariant ids <= pendingAdds.Keys && DistinctIds(wanted) && DistinctIds(obsolete)
        invariant forall o :: o in wanted <==> o.id in pendingAdds && o.id !in ids && o.id in next && o == next[o.id]
        invariant forall o :: o in obsolete <==> o.id in pendingAdds && o.id !in ids && o.id !in next && o == pendingAdds[o.id]
      {
        var id :| id in ids;
        if id in next {
          assert forall o :: o in wanted ==> o.id != id;
          wanted := wanted + [next[id]];
        } else {
          assert forall o :: o in obsolete ==> o.id != id;
          obsolete := obsolete + [pendingAdds[id]];
        }
        ids := ids - {id};
      }
      forall id | id in pendingAdds
        ensures id in IdsOf(wanted) || id in IdsOf(obsolete)
      {
        if id in next {
          assert next[id] in wanted;
        } else {
          assert pendingAdds[id] in obsolete;
        }
      }
    }

    method AddMissing(desired: DesiredPlan, current: Table) returns (ok: bool)
      requires Tracking() && Books().Doubt() == {} && current == runtimeOutbounds
      requires ValidPlan(desired) && Compatible(current, ById(desired.outbounds))
      modifies this`runtimeOutbounds, this`pendingAdds, xray
      ensures Tracking()
      ensures xray.world.rules == old(xray.world).rules
      ensures ok ==> Books().Doubt() == {} && runtimeOutbounds == current + ById(desired.outbounds)
      ensures old(xray.log) <= xray.log && (!ok ==> CallFailed(old(xray.log), xray.log))
      ensures Within(current, ById(desired.outbounds)) ==> Within(runtimeOutbounds, ById(desired.outbounds))
    {
      SortFacts(desired.outbounds, AddLayer);
      var todo := Sort(desired.outbounds, AddLayer);
      ByIdOfPermutation(todo, desired.outbounds);
      ByIdFacts(desired.outbounds);
      ok := AddAll(todo, current);
      PrefixWithinAll(todo, desired.outbounds);
    }

    method AddAll(items: seq<Outbound>, current: Table) returns (ok: bool)
      requires Tracking() && Books().Doubt() == {} && current == runtimeOutbounds
      requires DistinctIds(items) && forall o :: o in items && o.id in current ==> current[o.id] == o
      requires Layered(items, AddLayer) && forall o :: o in items ==> Dialable(o, ById(items))
      modifies this`runtimeOutbounds, this`pendingAdds, xray
      ensures Tracking() && xray.world.rules == old(xray.world).rules
      ensures ok ==> Books().Doubt() == {} && runtimeOutbounds == current + ById(items)
      ensures exists k :: 0 <= k <= |items| && runtimeOutbounds == current + ById(items[..k])
      ensures old(xray.log) <= xray.log && (!ok ==> CallFailed(old(xray.log), xray.log))
    {
      for k := 0 to |items|
        invariant Tracking() && Books().Doubt() == {}
        invariant xray.world.rules == old(xray.world).rules && old(xray.log) <= xray.log
        invariant runtimeOutbounds == current + ById(items[..k])
      {
        ok := AddOne(items, current, k);
        if !ok {
          return;
        }
      }
      assert items[..|items|] == items;
      ok := true;
    }

    method AddOne(items: seq<Outbound>, current: Table, k: nat) returns (ok: bool)
      requires Tracking() && Books().Doubt() == {} && k < |items| && runtimeOutbounds == current + ById(items[..k])
      requires DistinctIds(items) && forall o :: o in items && o.id in current ==> current[o.id] == o
      requires Layered(items, AddLayer) && forall o :: o in items ==> Dialable(o, ById(items))
      modifies this`runtimeOutbounds, this`pendingAdds, xray
      ensures Tracking() && xray.world.rules == old(xray.world).rules
      ensures ok ==> Books().Doubt() == {} && runtimeOutbounds == current + ById(items[..k + 1])
      ensures !ok ==> runtimeOutbounds == old(runtimeOutbounds)
      ensures old(xray.log) <= xray.log && (!ok ==> CallFailed(old(xray.log), xray.log))
    {
      PrefixFacts(items, k);
      DialerComesFirst(items, k);
      ok := AddIfMissing(items[k], current, ById(items[..k]));
    }

    lemma PrefixWithinAll(todo: seq<Outbound>, items: seq<Outbound>)
      requires DistinctIds(todo) && ById(todo) == ById(items)
      ensures forall k :: 0 <= k <= |todo| ==> Within(ById(todo[..k]), ById(items))
    {
      forall k | 0 <= k <= |todo|
        ensures Within(ById(todo[..k]), ById(items))
      {
        PrefixWithin(todo, k);
      }
    }

    // Layer by layer, a DNS handler is added after the handler it dials through.
    lemma DialerComesFirst(items: seq<Outbound>, k: nat)
      requires DistinctIds(items) && k < |items| && Layered(items, AddLayer) && Dialable(items[k], ById(items))
      ensures items[k].protocol.Dns? ==>
        var proxy := items[k].config.proxy;
        proxy in ById(items[..k]) && TcpCapable(ById(items[..k])[proxy].protocol)
    {
      if items[k].protocol.Dns? {
        var proxy := items[k].config.proxy;
        ByIdFacts(items);
        var j :| 0 <= j < |items| && items[j] == ById(items)[proxy];
        InPrefix(items, k, j);
      }
    }

    lemma InPrefix(items: seq<Outbound>, k: nat, j: nat)
      requires DistinctIds(items) && j < k <= |items|
      ensures items[j].id in ById(items[..k]) && ById(items[..k])[items[j].id] == items[j]
    {
      ByIdFacts(items[..k]);
      assert items[..k][j] == items[j];
    }

    lemma PrefixFacts(items: seq<Outbound>, k: nat)
      requires DistinctIds(items) && k < |items|
      ensures items[k].id !in ById(items[..k])
      ensures ById(items[..k + 1]) == ById(items[..k])[items[k].id := items[k]]
    {
      ByIdSnoc(items, k);
      ByIdFacts(items[..k]);
    }

    lemma PrefixWithin(items: seq<Outbound>, k: nat)
      requires DistinctIds(items) && k <= |items|
      ensures Within(ById(items[..k]), ById(items))
    {
      ByIdFacts(items[..k]);
      ByIdFacts(items);
    }

    method AddIfMissing(o: Outbound, current: Table, ghost done: Table) returns (ok: bool)
      requires Tracking() && Books().Doubt() == {}
      requires runtimeOutbounds == current + done && o.id !in done
      requires o.id in current ==> current[o.id] == o
      requires o.protocol.Dns? ==>
        o.config.DialsThrough? && o.config.proxy in done && TcpCapable(done[o.config.proxy].protocol)
      modifies this`runtimeOutbounds, this`pendingAdds, xray
      ensures Tracking() && xray.world.rules == old(xray.world).rules
      ensures ok ==> Books().Doubt() == {} && runtimeOutbounds == current + done[o.id := o]
      ensures !ok ==> runtimeOutbounds == old(runtimeOutbounds)
      ensures old(xray.log) <= xray.log && (!ok ==> CallFailed(old(xray.log), xray.log))
    {
      if o.id !in current || current[o.id] != o {
        ok := AddNew(o);
      } else {
        ok := true;
      }
    }

    method Route(desired: DesiredPlan, runtimeWasReady: bool) returns (ok: bool)
      requires Tracking() && Books().Doubt() == {} && ValidPlan(desired)
      requires Within(ById(desired.outbounds), runtimeOutbounds)
      requires runtimeWasReady ==> xray.world.rules == Rules(applied.plan.clients)
      modifies xray
      ensures Tracking()
      ensures ok ==> xray.world.rules == Rules(desired.clients)
      ensures old(xray.log) <= xray.log && (!ok ==> CallFailed(old(xray.log), xray.log))
    {
      ghost var before := xray.world;
      forall rule | rule in Rules(desired.clients)
        ensures ServedBy(rule, runtimeOutbounds)
      {
        ValidPlanServesItsRules(desired, rule);
        assert rule.dns != "" ==> rule.dns in rule.Uses();
      }
      if xray.staged {
        var previousRoutes := applied.plan.clients;
        if !runtimeWasReady {
          previousRoutes := [];
        }
        ok := xray.ReplaceRoutesStaged(previousRoutes, desired.clients);
      } else {
        ok := xray.ReplaceRoutes(desired.clients);
      }
      TrackedIsLive(before, Books());
      Reroute(before, Books(), xray.world, Rules(desired.clients));
      if !redirected {
        forall id
          ensures DialSlot(xray.world, Books(), id)
        {
          assert DialSlot(before, Books(), id);
        }
        DialedIsReachable(xray.world, Books());
      }
    }

    method RemoveObsolete(desired: DesiredPlan, current: Table) returns (ok: bool)
      requires Tracking() && Books().Doubt() == {} && ValidPlan(desired)
      requires runtimeOutbounds == current + ById(desired.outbounds) && Compatible(current, ById(desired.outbounds))
      requires forall id :: id in current ==> current[id].id == id
      requires xray.world.rules == Rules(desired.clients)
      modifies this`runtimeOutbounds, this`pendingRemoves, xray
      ensures Tracking()
      ensures ok ==>
        xray.world == Converged(desired) && Books() == XrayRuntime.Books(ById(desired.outbounds), map[], map[])
      ensures old(xray.log) <= xray.log && (!ok ==> CallFailed(old(xray.log), xray.log))
      ensures Within(current, ById(desired.outbounds)) ==> Within(runtimeOutbounds, ById(desired.outbounds))
    {
      var next := ById(desired.outbounds);
      ByIdFacts(desired.outbounds);
      forall rule | rule in Rules(desired.clients)
        ensures rule.Uses() <= next.Keys
      {
        ValidPlanServesItsRules(desired, rule);
      }
      var removed := Items(map id | id in current && (id !in next || current[id] != next[id]) :: current[id]);
      SortFacts(removed, RemovalLayer);
      var todo := Sort(removed, RemovalLayer);
      ObsoleteIds(current, next, todo);
      ok := RemoveAll(todo, next);
      if !ok {
        return;
      }
      SettledWorld();
      ok := true;
    }

    method RemoveAll(items: seq<Outbound>, ghost next: Table) returns (ok: bool)
      requires Tracking() && Books().Doubt() == {}
      requires forall rule :: rule in xray.world.rules ==> rule.Uses() <= next.Keys
      requires DistinctIds(items) && Within(next, runtimeOutbounds)
      requires runtimeOutbounds.Keys == next.Keys + IdsOf(items) && next.Keys !! IdsOf(items)
      requires HeldIn(items, runtimeOutbounds) && Layered(items, RemovalLayer)
      requires forall id :: id in next ==> Dialable(next[id], next)
      modifies this`runtimeOutbounds, this`pendingRemoves, xray
      ensures Tracking() && xray.world.rules == old(xray.world).rules
      ensures ok ==> Books().Doubt() == {} && runtimeOutbounds == next
      ensures old(xray.log) <= xray.log && (!ok ==> CallFailed(old(xray.log), xray.log))
      ensures items == [] ==> runtimeOutbounds == old(runtimeOutbounds)
    {
      var todo := items;
      while todo != []
        invariant Tracking() && Books().Doubt() == {}
        invariant xray.world.rules == old(xray.world).rules && old(xray.log) <= xray.log
        invariant DistinctIds(todo) && Within(next, runtimeOutbounds)
        invariant runtimeOutbounds.Keys == next.Keys + IdsOf(todo) && next.Keys !! IdsOf(todo)
        invariant HeldIn(todo, runtimeOutbounds) && Layered(todo, RemovalLayer)
        invariant items == [] ==> todo == [] && runtimeOutbounds == old(runtimeOutbounds)
      {
        IdsOfTail(todo);
        HeldInTail(todo, runtimeOutbounds);
        ok := DrainAndRemove(todo[0], todo, next);
        if !ok {
          return;
        }
        todo := todo[1..];
      }
      ok := true;
    }

    method DrainAndRemove(outbound: Outbound, ghost todo: seq<Outbound>, ghost next: Table) returns (ok: bool)
      requires Tracking() && Books().Doubt() == {} && todo != [] && outbound == todo[0]
      requires forall rule :: rule in xray.world.rules ==> rule.Uses() <= next.Keys
      requires Within(next, runtimeOutbounds) && HeldIn(todo, runtimeOutbounds) && Layered(todo, RemovalLayer)
      requires runtimeOutbounds.Keys == next.Keys + IdsOf(todo) && next.Keys !! IdsOf(todo)
      requires forall id :: id in next ==> Dialable(next[id], next)
      modifies this`runtimeOutbounds, this`pendingRemoves, xray
      ensures Tracking() && xray.world.rules == old(xray.world).rules
      ensures runtimeOutbounds == if ok then old(runtimeOutbounds) - {outbound.id} else old(runtimeOutbounds)
      ensures ok ==> Books().Doubt() == {}
      ensures old(xray.log) <= xray.log && (!ok ==> CallFailed(old(xray.log), xray.log))
    {
      TrackedIsLive(xray.world, Books());
      if !redirected {
        DialedIsReachable(xray.world, Books());
        NothingDialsFirst(xray.world, Books(), todo, next);
      }
      assert todo[0] in todo && todo[0].id in IdsOf(todo);
      ok := xray.DrainOutbound(outbound.id);
      if ok {
        ok := RemoveOld(outbound);
      }
    }

    // Layer by layer, a DNS handler is removed before the handler it dials through.
    lemma NothingDialsFirst(w: World, b: Books, todo: seq<Outbound>, next: Table)
      requires Dialed(w, b) && b.adds == map[] && todo != [] && Layered(todo, RemovalLayer)
      requires b.runtime.Keys == next.Keys + IdsOf(todo) && next.Keys !! IdsOf(todo)
      requires Within(next, b.runtime) && HeldIn(todo, b.runtime)
      requires forall id :: id in next ==> Dialable(next[id], next)
      ensures NoDialer(w, b, todo[0].id)
    {
      var proxy := todo[0].id;
      assert todo[0] in todo;
      forall id | id in b.runtime && id != proxy && b.runtime[id].protocol.Dns?
        ensures !DialsTo(b.runtime[id], proxy)
      {
        assert DialSlot(w, b, id);
        if id in next {
          assert proxy in IdsOf(todo);
        } else {
          var o :| o in todo && o.id == id;
          var j :| 0 <= j < |todo| && todo[j] == o;
        }
      }
    }

    lemma ObsoleteIds(current: Table, next: Table, todo: seq<Outbound>)
      requires forall id :: id in current ==> current[id].id == id
      requires forall o :: o in todo <==> o.id in current && current[o.id] == o && (o.id !in next || current[o.id] != next[o.id])
      requires Compatible(current, next)
      ensures (current + next).Keys == next.Keys + IdsOf(todo) && next.Keys !! IdsOf(todo)
      ensures HeldIn(todo, current + next)
      ensures Within(next, current + next)
      ensures Within(current, next) ==> todo == []
    {
      forall id | id in current && id !in next
        ensures id in IdsOf(todo)
      {
        assert current[id] in todo;
      }
      if todo != [] {
        assert todo[0] in todo;
      }
    }

    lemma SettledWorld()
      requires Tracking() && Books().Doubt() == {}
      ensures xray.world.outbounds == runtimeOutbounds && pendingAdds == map[] && pendingRemoves == map[]
    {
      forall id
        ensures (id in xray.world.outbounds <==> id in runtimeOutbounds)
        ensures id in runtimeOutbounds ==> xray.world.outbounds[id] == runtimeOutbounds[id]
      {
        assert Slot(xray.world, Books(), id);
      }
    }

    // ---------- One handler at a time ----------

    method AddNew(o: Outbound) returns (ok: bool)
      requires Tracking() && Books().Doubt() == {} && o.id !in runtimeOutbounds
      requires !redirected ==> Dials(o, Books())
      modifies this`runtimeOutbounds, this`pendingAdds, xray
      ensures Tracking() && xray.world.rules == old(xray.world).rules
      ensures runtimeOutbounds == if ok then old(runtimeOutbounds)[o.id := o] else old(runtimeOutbounds)
      ensures pendingAdds == if ok then old(pendingAdds) - {o.id} else old(pendingAdds)[o.id := o]
      ensures old(xray.log) < xray.log && xray.log[|xray.log| - 1].ok == ok
    {
      ghost var before, books := xray.world, Books();
      TrackedIsLive(before, books);
      ok := xray.AddOutbound(o);
      QuietCall(before, xray.world, o.id, ok);
      assert Slot(before, books, o.id);
      if ok {
        pendingAdds := pendingAdds - {o.id};
        runtimeOutbounds := runtimeOutbounds[o.id := o];
      } else {
        pendingAdds := pendingAdds[o.id := o];
      }
      Touch(before, books, xray.world, Books(), o.id);
      if !redirected {
        NewHasNoDialer(before, books, o.id);
        assert DialSlot(before, books, o.id);
        TouchDial(before, books, xray.world, Books(), o.id);
      }
    }

    method RemoveOld(o: Outbound) returns (ok: bool)
      requires Tracking() && Books().Doubt() == {} && o.id in runtimeOutbounds && runtimeOutbounds[o.id] == o
      requires Unused(xray.world, o.id)
      requires !redirected ==> NoDialer(xray.world, Books(), o.id)
      modifies this`runtimeOutbounds, this`pendingRemoves, xray
      ensures Tracking() && xray.world.rules == old(xray.world).rules
      ensures runtimeOutbounds == if ok then old(runtimeOutbounds) - {o.id} else old(runtimeOutbounds)
      ensures pendingRemoves == if ok then old(pendingRemoves) - {o.id} else old(pendingRemoves)[o.id := o]
      ensures old(xray.log) < xray.log && xray.log[|xray.log| - 1].ok == ok
    {
      ghost var before, books := xray.world, Books();
      TrackedIsLive(before, books);
      ok := xray.RemoveOutbound(o.id);
      QuietCall(before, xray.world, o.id, ok);
      assert Slot(before, books, o.id);
      if ok {
        pendingRemoves := pendingRemoves - {o.id};
        runtimeOutbounds := runtimeOutbounds - {o.id};
      } else {
        pendingRemoves := pendingRemoves[o.id := o];
      }
      Touch(before, books, xray.world, Books(), o.id);
      if !redirected {
        assert DialSlot(before, books, o.id);
        TouchDial(before, books, xray.world, Books(), o.id);
      }
    }

    // The handler may or may not be there, and may be there with an older config.
    method RetryPendingAdd(o: Outbound) returns (ok: bool)
      requires Tracking() && o.id in pendingAdds
      requires !redirected ==> Dials(o, Books())
      modifies this`runtimeOutbounds, this`pendingAdds, xray
      ensures Tracking() && xray.world.rules == old(xray.world).rules
      ensures runtimeOutbounds == if ok then old(runtimeOutbounds)[o.id := o] else old(runtimeOutbounds)
      ensures pendingAdds == if ok then old(pendingAdds) - {o.id} else old(pendingAdds)[o.id := o]
      ensures old(xray.log) < xray.log && xray.log[|xray.log| - 1].ok == ok
    {
      var _ := Disturb(o, false);
      ghost var before, books := xray.world, Books();
      TrackedIsLive(before, books);
      ok := xray.AddOutbound(o);
      QuietCall(before, xray.world, o.id, ok);
      assert Slot(before, books, o.id);
      if ok {
        pendingAdds := pendingAdds - {o.id};
        runtimeOutbounds := runtimeOutbounds[o.id := o];
      } else {
        pendingAdds := pendingAdds[o.id := o];
      }
      Touch(before, books, xray.world, Books(), o.id);
      if !redirected {
        DoubtHasNoDialer(before, books, o.id);
        assert DialSlot(before, books, o.id);
        TouchDial(before, books, xray.world, Books(), o.id);
      }
    }

    method DiscardPendingAdd(o: Outbound) returns (ok: bool)
      requires Tracking() && o.id in pendingAdds && pendingAdds[o.id] == o
      modifies this`runtimeOutbounds, this`pendingAdds, xray
      ensures Tracking() && xray.world.rules == old(xray.world).rules
      ensures runtimeOutbounds == old(runtimeOutbounds)
      ensures pendingAdds == if ok then old(pendingAdds) - {o.id} else old(pendingAdds)
      ensures old(xray.log) < xray.log && xray.log[|xray.log| - 1].ok == ok
    {
      assert Slot(xray.world, Books(), o.id);
      var _ := Disturb(o, true);
      ghost var before, books := xray.world, Books();
      TrackedIsLive(before, books);
      ok := xray.RemoveOutbound(o.id);
      QuietCall(before, xray.world, o.id, ok);
      assert Slot(before, books, o.id);
      if ok {
        pendingAdds := pendingAdds - {o.id};
        runtimeOutbounds := runtimeOutbounds - {o.id};
      }
      Touch(before, books, xray.world, Books(), o.id);
      if !redirected {
        DoubtHasNoDialer(before, books, o.id);
        assert DialSlot(before, books, o.id);
        TouchDial(before, books, xray.world, Books(), o.id);
      }
    }

    method RetryPendingRemove(o: Outbound) returns (ok: bool)
      requires Tracking() && o.id in pendingRemoves && pendingRemoves[o.id] == o
      modifies this`runtimeOutbounds, this`pendingRemoves, xray
      ensures Tracking() && xray.world.rules == old(xray.world).rules
      ensures runtimeOutbounds == if ok then old(runtimeOutbounds) - {o.id} else old(runtimeOutbounds)
      ensures pendingRemoves == if ok then old(pendingRemoves) - {o.id} else old(pendingRemoves)
      ensures old(xray.log) < xray.log && xray.log[|xray.log| - 1].ok == ok
    {
      assert Slot(xray.world, Books(), o.id);
      var _ := Disturb(o, true);
      ghost var before, books := xray.world, Books();
      TrackedIsLive(before, books);
      ok := xray.RemoveOutbound(o.id);
      QuietCall(before, xray.world, o.id, ok);
      assert Slot(before, books, o.id);
      if ok {
        pendingRemoves := pendingRemoves - {o.id};
        runtimeOutbounds := runtimeOutbounds - {o.id};
      }
      Touch(before, books, xray.world, Books(), o.id);
      if !redirected {
        DoubtHasNoDialer(before, books, o.id);
        assert DialSlot(before, books, o.id);
        TouchDial(before, books, xray.world, Books(), o.id);
      }
    }

    // A call about a handler in doubt whose reply is not looked at.
    method Disturb(o: Outbound, add: bool) returns (ok: bool)
      requires Tracking() && o.id in Books().Doubt()
      requires add ==> (o.id in pendingAdds ==> pendingAdds[o.id] == o) && (o.id in pendingRemoves ==> pendingRemoves[o.id] == o)
      modifies xray
      ensures Tracking() && xray.world.rules == old(xray.world).rules && old(xray.log) <= xray.log
    {
      ghost var before := xray.world;
      TrackedIsLive(before, Books());
      if add {
        ok := xray.AddOutbound(o);
      } else {
        ok := xray.RemoveOutbound(o.id);
      }
      QuietCall(before, xray.world, o.id, ok);
      assert Slot(before, Books(), o.id);
      Touch(before, Books(), xray.world, Books(), o.id);
      if !redirected {
        DoubtHasNoDialer(before, Books(), o.id);
        assert DialSlot(before, Books(), o.id);
        TouchDial(before, Books(), xray.world, Books(), o.id);
      }
    }

    // ---------- Flow resets ----------

    // Does nothing while the runtime is not ready, and is otherwise one pass, which
    // ends as its captures and writes went.
    method RetryFlowRecoveries() returns (o: RetryOutcome, ghost effort: Effort)
      requires Valid()
      modifies this`applied, this`rounds, disk, flow
      ensures Valid() && applied.plan == old(applied.plan)
      ensures TokensKept(old(applied.jobs), applied.jobs)
      ensures old(!runtimeReady || recoveryRequired) ==>
        o.Idle? && unchanged(this) && unchanged(xray) && unchanged(disk) && unchanged(flow)
      ensures old(runtimeReady && !recoveryRequired) ==>
        && Spent(old(flow.resets), old(flow.captures), old(disk.writes), effort)
        && Explains(o, old(applied.jobs), effort)
        && rounds == old(rounds) + [Pass(applied.plan, old(applied.jobs), applied.jobs, effort)]
        && LookedAfter(applied.plan, old(applied.jobs), applied.jobs, effort.sent)
    {
      if !runtimeReady || recoveryRequired {
        return Idle, NoEffort;
      }
      o, effort := RetryFlowRecoveriesLocked();
    }

    // What a pass did is what the control and the state file have seen since.
    ghost predicate Spent(resets: seq<Reset>, captures: seq<bool>, writes: seq<bool>, e: Effort)
      reads flow, disk
    {
      && e.control == flow.available
      && flow.resets == resets + e.sent && flow.captures == captures + e.captured && disk.writes == writes + e.written
    }

    // The outcome of a pass tells what it did.
    predicate Explains(o: RetryOutcome, before: seq<Job>, e: Effort) {
      match o
      case Idle => before == [] && e.Quiet()
      case NoControl => before != [] && !e.control && e.Quiet()
      case CaptureFailed => e.captured == [false] && e.written == []
      case SaveFailed => e.captured in {[], [true]} && e.written == [false]
      case CompletionFailed => e.captured in {[], [true]} && e.written == [true, false]
      case Completed(pending) =>
        e.captured in {[], [true]} && e.written == [true, true] && (pending <==> AnyFailed(e.sent))
    }

    // A pass, entered in the history of the queue.
    method RetryFlowRecoveriesLocked() returns (o: RetryOutcome, ghost effort: Effort)
      requires RecordsValid()
      modifies this`applied, this`rounds, disk, flow
      ensures RecordsValid() && applied.plan == old(applied.plan)
      ensures disk.saved == old(disk.saved) || (disk.saved.Some? && disk.saved.value.plan == applied.plan)
      ensures TokensKept(old(applied.jobs), applied.jobs)
      ensures forall job :: job in applied.jobs ==> StillQueued(job, old(applied.jobs))
      ensures LookedAfter(applied.plan, old(applied.jobs), applied.jobs, effort.sent)
      ensures Spent(old(flow.resets), old(flow.captures), old(disk.writes), effort) && Explains(o, old(applied.jobs), effort)
      ensures rounds == old(rounds) + [Pass(applied.plan, old(applied.jobs), applied.jobs, effort)]
    {
      o, effort := RunPass();
      ghost var round := Pass(applied.plan, old(applied.jobs), applied.jobs, effort);
      HistoryGrows(rounds, old(flow.resets), round, flow.resets);
      rounds := rounds + [round];
    }

    // A maintenance pass. Every reset it sends carries a token already saved, and a
    // job that is still wanted is afterwards finished or still queued.
    method RunPass() returns (o: RetryOutcome, ghost effort: Effort)
      requires RecordsButRounds()
      modifies this`applied, disk, flow
      ensures RecordsButRounds() && applied.plan == old(applied.plan)
      ensures disk.saved == old(disk.saved) || (disk.saved.Some? && disk.saved.value.plan == applied.plan)
      ensures Spent(old(flow.resets), old(flow.captures), old(disk.writes), effort)
      ensures Passed(o, applied.plan, old(applied.jobs), applied.jobs, effort)
    {
      if |applied.jobs| == 0 {
        o, effort := Idle, Effort(flow.available, [], [], []);
        NothingMore(flow.resets);
        NothingMore(flow.captures);
        NothingMore(disk.writes);
        GaveUp(o, applied.plan, applied.jobs, effort);
      } else if !flow.available {
        o, effort := NoControl, Effort(false, [], [], []);
        NothingMore(flow.resets);
        NothingMore(flow.captures);
        NothingMore(disk.writes);
        GaveUp(o, applied.plan, applied.jobs, effort);
      } else {
        o, effort := StampAndSend();
      }
    }

    method StampAndSend() returns (o: RetryOutcome, ghost effort: Effort)
      requires RecordsButRounds() && applied.jobs != [] && flow.available
      modifies this`applied, disk, flow
      ensures RecordsButRounds() && applied.plan == old(applied.plan)
      ensures disk.saved == old(disk.saved) || (disk.saved.Some? && disk.saved.value.plan == applied.plan)
      ensures Spent(old(flow.resets), old(flow.captures), old(disk.writes), effort)
      ensures Passed(o, applied.plan, old(applied.jobs), applied.jobs, effort)
    {
      var pending, _ := KeepApplicable(applied.jobs, applied.plan);
      var limit := if |pending| < BATCH then |pending| else BATCH;
      ghost var kept := pending;
      var captured;
      captured, pending := Stamp(pending, limit);
      if !captured {
        o, effort := CaptureFailed, Effort(true, [], [false], []);
        NothingMore(flow.resets);
        NothingMore(disk.writes);
        GaveUp(o, applied.plan, applied.jobs, effort);
      } else {
        CutOff(applied.plan, applied.jobs, kept, pending, limit);
        o, effort := SendPass(kept, pending, limit, flow.captures[|old(flow.captures)|..]);
      }
    }

    // What a pass does to the queue: tokens are kept, nothing is made up, wanted jobs
    // are finished or still queued, and the rest is as its round says.
    ghost predicate Passed(o: RetryOutcome, plan: DesiredPlan, before: seq<Job>, after: seq<Job>, effort: Effort) {
      && TokensKept(before, after) && (forall job :: job in after ==> StillQueued(job, before))
      && LookedAfter(plan, before, after, effort.sent)
      && Explains(o, before, effort)
      && Pass(plan, before, after, effort).Holds()
    }

    lemma GaveUp(o: RetryOutcome, plan: DesiredPlan, jobs: seq<Job>, effort: Effort)
      requires IsQueue(jobs) && Explains(o, jobs, effort) && !effort.Succeeds() && Pass(plan, jobs, jobs, effort).Made()
      ensures Passed(o, plan, jobs, jobs, effort)
    {
      forall a, b | a in jobs && b in jobs && a.recovery == b.recovery
        ensures a == b
      {
        var i :| 0 <= i < |jobs| && jobs[i] == a;
        var j :| 0 <= j < |jobs| && jobs[j] == b;
        assert JobKey(jobs[i].recovery) == JobKey(jobs[j].recovery);
      }
    }

    lemma NothingMore<T>(s: seq<T>)
      ensures s + [] == s
    {
    }

    lemma InTurn(s: seq<bool>, first: bool, second: bool)
      ensures s + [first] + [second] == s + [first, second]
    {
    }

    // Save the exact cut-off before the resets are sent.
    method SendPass(ghost kept: seq<Job>, pending: seq<Job>, limit: nat, ghost captured: seq<bool>)
      returns (o: RetryOutcome, ghost effort: Effort)
      requires RecordsButRounds() && applied.jobs != [] && IsCutOff(applied.plan, applied.jobs, kept, pending, limit)
      requires captured == if Untokened(kept, limit) then [true] else []
      modifies this`applied, disk, flow`resets
      ensures RecordsButRounds() && applied.plan == old(applied.plan)
      ensures disk.saved == old(disk.saved) || (disk.saved.Some? && disk.saved.value.plan == applied.plan)
      ensures effort.control && effort.captured == captured
      ensures flow.resets == old(flow.resets) + effort.sent && disk.writes == old(disk.writes) + effort.written
      ensures Passed(o, applied.plan, old(applied.jobs), applied.jobs, effort)
    {
      var next := applied.(jobs := pending);
      var saved := disk.Write(next);
      if !saved {
        o, effort := SaveFailed, Effort(true, [], captured, [false]);
        NothingMore(flow.resets);
        GaveUp(o, applied.plan, applied.jobs, effort);
      } else {
        applied := next;
        o, effort := FinishPass(old(applied.jobs), kept, pending, limit, captured);
        InTurn(old(disk.writes), true, o.Completed?);
      }
    }

    // The jobs a pass saves: those the plan wants, the first of them with tokens.
    ghost predicate IsCutOff(plan: DesiredPlan, before: seq<Job>, kept: seq<Job>, pending: seq<Job>, limit: nat) {
      && kept == Kept(plan, before) && limit == (if |kept| < BATCH then |kept| else BATCH)
      && Stamped(kept, pending, limit) && IsQueue(pending)
      && TokensKept(before, pending) && forall job :: job in pending ==> StillQueued(job, before)
    }

    lemma CutOff(plan: DesiredPlan, before: seq<Job>, kept: seq<Job>, pending: seq<Job>, limit: nat)
      requires IsQueue(before) && kept == Kept(plan, before) && limit == (if |kept| < BATCH then |kept| else BATCH)
      requires Stamped(kept, pending, limit)
      ensures IsCutOff(plan, before, kept, pending, limit)
    {
      KeptIsQueue(plan, before);
      StampedIsQueue(kept, pending, limit);
      StampKeepsTokens(before, kept, pending, limit);
    }

    method FinishPass(ghost before: seq<Job>, ghost kept: seq<Job>, pending: seq<Job>, limit: nat, ghost captured: seq<bool>)
      returns (o: RetryOutcome, ghost effort: Effort)
      requires RecordsButRounds() && applied.jobs == pending && disk.saved == Some(applied) && applied != NothingApplied
      requires before != [] && IsCutOff(applied.plan, before, kept, pending, limit)
      requires captured == if Untokened(kept, limit) then [true] else []
      modifies this`applied, disk, flow`resets
      ensures RecordsButRounds() && applied.plan == old(applied.plan)
      ensures disk.saved.Some? && disk.saved.value.plan == applied.plan
      ensures effort.control && effort.captured == captured && effort.written == [true, o.Completed?]
      ensures flow.resets == old(flow.resets) + effort.sent && disk.writes == old(disk.writes) + [o.Completed?]
      ensures Passed(o, applied.plan, before, applied.jobs, effort)
    {
      ghost var sent;
      o, sent := CompletePass(kept, pending, limit);
      effort := Effort(true, sent, captured, [true, o.Completed?]);
      PassEnded(o, applied.plan, before, kept, pending, limit, applied.jobs, effort);
    }

    // What became of the first jobs once the cut-off was saved.
    ghost predicate Tried(o: RetryOutcome, kept: seq<Job>, pending: seq<Job>, limit: nat, after: seq<Job>, sent: seq<Reset>) {
      && |pending| == |kept| && limit <= |kept|
      && (o.CompletionFailed? || o == Completed(AnyFailed(sent))) && (o.CompletionFailed? ==> after == pending)
      && (forall job :: job in after ==> job in pending)
      && (forall job :: job in kept ==> StillQueued(job, after) || Finished(job, sent))
      && (o.Completed? ==> kept[limit..] <= after)
      && (o.Completed? ==> forall job :: job in kept[..limit] ==> exists r :: r in sent && r.job.recovery == job.recovery)
    }

    lemma PassEnded(o: RetryOutcome, plan: DesiredPlan, before: seq<Job>, kept: seq<Job>, pending: seq<Job>, limit: nat,
                    after: seq<Job>, e: Effort)
      requires before != [] && kept == Kept(plan, before) && limit == (if |kept| < BATCH then |kept| else BATCH)
      requires Stamped(kept, pending, limit) && Tried(o, kept, pending, limit, after, e.sent)
      requires TokensKept(before, pending) && forall job :: job in pending ==> StillQueued(job, before)
      requires e.control && e.captured == (if Untokened(kept, limit) then [true] else []) && e.written == [true, o.Completed?]
      ensures Passed(o, plan, before, after, e)
    {
      JobsAreOld(plan, before, kept, pending, after);
      PassHolds(o, plan, before, kept, pending, limit, after, e);
    }

    lemma JobsAreOld(plan: DesiredPlan, before: seq<Job>, kept: seq<Job>, pending: seq<Job>, after: seq<Job>)
      requires forall job :: job in after ==> job in pending
      requires TokensKept(before, pending) && forall job :: job in pending ==> StillQueued(job, before)
      ensures TokensKept(before, after) && forall job :: job in after ==> StillQueued(job, before)
    {
    }

    lemma PassHolds(o: RetryOutcome, plan: DesiredPlan, before: seq<Job>, kept: seq<Job>, pending: seq<Job>, limit: nat,
                    after: seq<Job>, e: Effort)
      requires before != [] && kept == Kept(plan, before) && limit == (if |kept| < BATCH then |kept| else BATCH)
      requires Stamped(kept, pending, limit) && Tried(o, kept, pending, limit, after, e.sent)
      requires e.control && e.captured == (if Untokened(kept, limit) then [true] else []) && e.written == [true, o.Completed?]
      ensures Pass(plan, before, after, e).Holds()
    {
      var round := Pass(plan, before, after, e);
      assert round.Made();
      if o.Completed? {
        forall job | job in kept[..limit]
          ensures round.Tries(job.recovery)
        {
        }
        assert round.Moves();
      } else {
        assert round.Stays();
      }
    }

    method CompletePass(ghost kept: seq<Job>, pending: seq<Job>, limit: nat) returns (o: RetryOutcome, ghost sent: seq<Reset>)
      requires RecordsButRounds() && applied.jobs == pending && Stamped(kept, pending, limit)
      requires disk.saved == Some(applied) && applied != NothingApplied
      modifies this`applied, disk, flow`resets
      ensures disk.saved.Some? && disk.saved.value.plan == applied.plan
      ensures RecordsButRounds() && applied.plan == old(applied.plan)
      ensures flow.resets == old(flow.resets) + sent && disk.writes == old(disk.writes) + [o.Completed?]
      ensures Tried(o, kept, pending, limit, applied.jobs, sent)
    {
      var failed := SendResets(pending, limit);
      sent := flow.resets[|old(flow.resets)|..];
      var remaining := pending[limit..] + failed;
      PassAccounts(kept, pending, limit, failed, sent);
      var next := applied.(jobs := remaining);
      var saved := disk.Write(next);
      if !saved {
        AllStillQueued(kept, pending, limit);
        o := CompletionFailed;
      } else {
        applied := next;
        assert pending[limit..] == kept[limit..];
        o := Completed(failed != []);
      }
    }

    lemma AllStillQueued(kept: seq<Job>, pending: seq<Job>, limit: nat)
      requires Stamped(kept, pending, limit)
      ensures forall job :: job in kept ==> StillQueued(job, pending)
    {
      forall job | job in kept
        ensures StillQueued(job, pending)
      {
        var i :| 0 <= i < |kept| && kept[i] == job;
        assert pending[i].recovery == job.recovery;
      }
    }

    lemma PassAccounts(kept: seq<Job>, pending: seq<Job>, limit: nat, failed: seq<Job>, sent: seq<Reset>)
      requires Stamped(kept, pending, limit)
      requires forall i :: 0 <= i < limit ==> Sent(pending[i], sent) && (pending[i] in failed || Finished(pending[i], sent))
      ensures forall job :: job in kept ==> StillQueued(job, pending[limit..] + failed) || Finished(job, sent)
      ensures forall job :: job in kept[..limit] ==> exists r :: r in sent && r.job.recovery == job.recovery
    {
      forall job | job in kept
        ensures StillQueued(job, pending[limit..] + failed) || Finished(job, sent)
      {
        var i :| 0 <= i < |kept| && kept[i] == job;
        if i >= limit {
          assert pending[limit..][i - limit] == job;
        } else if pending[i] in failed {
          assert pending[i] in pending[limit..] + failed;
        }
      }
      forall job | job in kept[..limit]
        ensures exists r :: r in sent && r.job.recovery == job.recovery
      {
        var i :| 0 <= i < limit && kept[..limit][i] == job;
        assert Sent(pending[i], sent);
      }
    }

    lemma StampedIsQueue(kept: seq<Job>, pending: seq<Job>, limit: nat)
      requires IsQueue(kept) && Stamped(kept, pending, limit)
      ensures IsQueue(pending)
    {
      forall i | 0 <= i < |kept|
        ensures pending[i].recovery == kept[i].recovery && kept[i] in kept
      {
      }
    }

    lemma StampKeepsTokens(jobs: seq<Job>, kept: seq<Job>, pending: seq<Job>, limit: nat)
      requires IsQueue(jobs) && Stamped(kept, pending, limit)
      requires forall job :: job in kept ==> job in jobs
      ensures TokensKept(jobs, pending)
      ensures forall job :: job in pending ==> StillQueued(job, jobs)
    {
      forall b | b in pending
        ensures StillQueued(b, jobs)
      {
        var i :| 0 <= i < |pending| && pending[i] == b;
        assert kept[i] in jobs;
      }
      forall a, b | a in jobs && b in pending && a.recovery == b.recovery && a.token.Some?
        ensures b.token == a.token
      {
        var i :| 0 <= i < |pending| && pending[i] == b;
        assert kept[i] in jobs;
        var j :| 0 <= j < |jobs| && jobs[j] == kept[i];
        var m :| 0 <= m < |jobs| && jobs[m] == a;
        assert JobKey(jobs[j].recovery) == JobKey(jobs[m].recovery);
      }
    }

    // Give the first jobs the token of one common capture where they have none.
    method Stamp(jobs: seq<Job>, limit: nat) returns (ok: bool, stamped: seq<Job>)
      requires limit <= |jobs|
      modifies flow`captures
      ensures flow.captures == old(flow.captures) + if Untokened(jobs, limit) then [ok] else []
      ensures ok || Untokened(jobs, limit)
      ensures ok ==> Stamped(jobs, stamped, limit)
    {
      stamped := jobs;
      var captured := None;
      for i := 0 to limit
        invariant Stamped(jobs, stamped, i)
        invariant stamped[i..] == jobs[i..]
        invariant captured.Some? <==> Untokened(jobs, i)
        invariant flow.captures == old(flow.captures) + if captured.Some? then [true] else []
      {
        if stamped[i].token == None {
          if captured == None {
            captured := flow.FlowSnapshot();
            if captured == None {
              return false, stamped;
            }
          }
          stamped := stamped[i := stamped[i].(token := captured)];
        }
      }
      ok := true;
    }

    // Send the resets of the first jobs; the failed ones are returned.
    method SendResets(jobs: seq<Job>, limit: nat) returns (failed: seq<Job>)
      requires limit <= |jobs| && IsQueue(jobs) && forall i :: 0 <= i < limit ==> jobs[i].token.Some?
      requires disk.saved.Some? && disk.saved.value.jobs == jobs
      requires forall r :: r in flow.resets ==> TokenSaved(r)
      modifies flow`resets
      ensures old(flow.resets) <= flow.resets && forall r :: r in flow.resets ==> TokenSaved(r)
      ensures IsQueue(jobs[limit..] + failed)
      ensures forall job :: job in failed ==> job in jobs[..limit]
      ensures failed != [] <==> AnyFailed(flow.resets[|old(flow.resets)|..])
      ensures forall i :: 0 <= i < limit ==>
        Sent(jobs[i], flow.resets[|old(flow.resets)|..])
        && (jobs[i] in failed || Finished(jobs[i], flow.resets[|old(flow.resets)|..]))
    {
      failed := [];
      ghost var start := |flow.resets|;
      for i := 0 to limit
        invariant old(flow.resets) <= flow.resets && forall r :: r in flow.resets ==> TokenSaved(r)
        invariant IsQueue(jobs[limit..] + failed) && |failed| <= i
        invariant forall job :: job in failed ==> job in jobs[..i]
        invariant failed != [] <==> AnyFailed(flow.resets[start..])
        invariant forall j :: 0 <= j < i ==>
          Sent(jobs[j], flow.resets[start..]) && (jobs[j] in failed || Finished(jobs[j], flow.resets[start..]))
      {
        ghost var sent := flow.resets[start..];
        ghost var already := failed;
        var outcome := flow.ResetFlow(jobs[i], disk.saved);
        assert flow.resets[start..] == sent + [Reset(jobs[i], outcome, disk.saved)];
        AnyFailedSnoc(sent, Reset(jobs[i], outcome, disk.saved));
        if outcome.ResetFailed? {
          LaterKeysDiffer(jobs, limit, failed, i);
          QueueSnoc(jobs[limit..] + failed, jobs[i]);
          assert jobs[limit..] + (failed + [jobs[i]]) == jobs[limit..] + failed + [jobs[i]];
          failed := failed + [jobs[i]];
        }
        SentGrows(jobs, i, already, failed, sent, flow.resets[start..]);
      }
    }

    lemma SentGrows(jobs: seq<Job>, i: nat, already: seq<Job>, failed: seq<Job>, sent: seq<Reset>, more: seq<Reset>)
      requires i < |jobs| && already <= failed && sent <= more && |more| == |sent| + 1 && more[|sent|].job == jobs[i]
      requires more[|sent|].outcome.ResetFailed? ==> jobs[i] in failed
      requires forall j :: 0 <= j < i ==> Sent(jobs[j], sent) && (jobs[j] in already || Finished(jobs[j], sent))
      ensures forall j :: 0 <= j < i + 1 ==> Sent(jobs[j], more) && (jobs[j] in failed || Finished(jobs[j], more))
    {
      forall j | 0 <= j < i + 1
        ensures Sent(jobs[j], more) && (jobs[j] in failed || Finished(jobs[j], more))
      {
        if j == i {
          assert more[|sent|] in more;
        } else {
          assert forall r :: r in sent ==> r in more;
        }
      }
    }

    lemma LaterKeysDiffer(jobs: seq<Job>, limit: nat, failed: seq<Job>, i: nat)
      requires i < limit <= |jobs| && IsQueue(jobs) && |failed| <= i
      requires forall job :: job in failed ==> job in jobs[..i]
      ensures JobKey(jobs[i].recovery) !in Keys(jobs[limit..] + failed)
      ensures |jobs[limit..] + failed| < MAX_PENDING
      ensures jobs[i].recovery.source.Host?
    {
      assert jobs[i] in jobs;
      forall job | job in jobs[limit..] + failed
        ensures JobKey(job.recovery) != JobKey(jobs[i].recovery)
      {
        if job in failed {
          var j :| 0 <= j < i && jobs[..i][j] == job;
          assert jobs[j] == job;
        } else {
          var j :| 0 <= j < |jobs| - limit && jobs[limit..][j] == job;
          assert jobs[limit + j] == job;
        }
      }
    }
  }

  // Over the life of a reconciler, a job that stays wanted from some round on is sent
  // to Xray once as many passes are completed as its place in the queue asks for,
  // whatever else is applied, given up or rehydrated meanwhile.
  lemma WaitingJobIsTried(r: Reconciler, a: nat, b: nat, q: Recovery, i: nat)
    requires r.RecordsValid() && a < b <= |r.rounds|
    requires i < |r.rounds[a].before| && r.rounds[a].before[i].recovery == q
    requires forall k :: a <= k < b ==> Applicable(r.rounds[k].plan, q)
    requires Passes(r.rounds[a..b]) > i / BATCH
    ensures exists k, reset :: a <= k < b && r.rounds[k].Tries(q) && reset in r.flow.resets && reset.job.recovery == q
  {
    var rounds := r.rounds[a..b];
    assert IsRun(rounds, q) by {
      assert forall k :: 0 <= k < |rounds| ==> rounds[k] == r.rounds[a + k];
    }
    TriedInTime(rounds, q, i);
    var k :| 0 <= k < |rounds| && rounds[k].Tries(q);
    assert r.rounds[a + k].Sends(r.flow.resets);
    var reset :| reset in rounds[k].effort.sent && reset.job.recovery == q;
  }
}
