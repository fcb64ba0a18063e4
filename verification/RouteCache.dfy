// The cache of routes for critical active probes: a fixed number of slots, each
// entry counted by its users, the least recently used idle entry evicted first.
module RouteCache {
  import opened Wrappers

  datatype Request = Request(candidate: string, epoch: nat, key: int)

  datatype Entry = Entry(slot: nat, epoch: nat, key: int, configured: bool, settingUp: bool, users: nat, lastUsed: nat)
  {
    predicate Matches(r: Request) {
      configured && epoch == r.epoch && key == r.key
    }

    predicate Idle() {
      !settingUp && users == 0
    }
  }

  // ---------- The cache, one function per critical section ----------

  // `changed` numbers the channel that waiters of today wait on.
  datatype Cache = Cache(entries: map<string, Entry>, free: seq<nat>, clock: nat, changed: nat)
  {
    function Touched(candidate: string, e: Entry): Cache {
      this.(entries := entries[candidate := e.(lastUsed := clock + 1)], clock := clock + 1)
    }

    predicate MustWait(r: Request) {
      if r.candidate in entries then
        entries[r.candidate].settingUp || (!entries[r.candidate].Matches(r) && entries[r.candidate].users > 0)
      else free == [] && forall id :: id in entries ==> !entries[id].Idle()
    }

    predicate IsVictim(id: string) {
      && id in entries && entries[id].Idle()
      && forall other :: other in entries && entries[other].Idle() ==> entries[id].lastUsed <= entries[other].lastUsed
    }

    // The idle entry given up for a new one, when no slot is free.
    predicate Takes(r: Request, victim: Option<string>) {
      && !MustWait(r)
      && (victim.Some? <==> r.candidate !in entries && free == [])
      && (victim.Some? ==> IsVictim(victim.value))
    }

    function Acquire(r: Request, victim: Option<string>): Cache
      requires Takes(r, victim)
    {
      if r.candidate in entries then
        var e := entries[r.candidate];
        if e.Matches(r) then Touched(r.candidate, e.(users := e.users + 1))
        else Touched(r.candidate, Entry(e.slot, r.epoch, r.key, false, true, 1, 0))
      else if free != [] then
        this.(free := free[1..]).Touched(r.candidate, Entry(free[0], r.epoch, r.key, false, true, 1, 0))
      else
        this.(entries := entries - {victim.value})
            .Touched(r.candidate, Entry(entries[victim.value].slot, r.epoch, r.key, false, true, 1, 0))
    }

    function Finish(candidate: string, ok: bool): Cache
      requires candidate in entries
    {
      var e := entries[candidate];
      if ok then Touched(candidate, e.(settingUp := false, configured := true)).Notified()
      else this.(entries := entries - {candidate}, free := free + [e.slot]).Notified()
    }

    function Release(candidate: string): Cache
      requires candidate in entries
    {
      var e := entries[candidate];
      if e.users > 0 then Touched(candidate, e.(users := e.users - 1)).Notified() else this
    }

    function Notified(): Cache {
      this.(changed := changed + 1)
    }
  }

  datatype Outcome = Served(slot: nat) | MustSetUp(slot: nat) | Wait(channel: nat)

  class RouteCache {
    var entries: map<string, Entry>
    var free: seq<nat>
    var clock: nat
    var changed: nat

    function State(): Cache
      reads this
    {
      Cache(entries, free, clock, changed)
    }

    constructor (capacity: nat)
      ensures State() == Cache(map[], seq(capacity, i => i), 0, 0)
    {
      entries, free, clock, changed := map[], seq(capacity, i => i), 0, 0;
    }

    // One turn of the acquire loop.
    method Acquire(r: Request) returns (outcome: Outcome, ghost victim: Option<string>)
      modifies this
      ensures outcome.Wait? <==> old(State()).MustWait(r)
      ensures outcome.Wait? ==> State() == old(State()) && outcome.channel == changed
      ensures !outcome.Wait? ==> old(State()).Takes(r, victim) && State() == old(State()).Acquire(r, victim)
      ensures !outcome.Wait? ==> r.candidate in entries && outcome.slot == entries[r.candidate].slot
      ensures outcome.Served? <==> r.candidate in old(entries) && !old(State()).MustWait(r) && old(entries)[r.candidate].Matches(r)
    {
      victim := None;
      if r.candidate in entries {
        var entry := entries[r.candidate];
        var matches := entry.configured && entry.epoch == r.epoch && entry.key == r.key;
        if entry.settingUp || (!matches && entry.users > 0) {
          return Wait(changed), None;
        }
        if matches {
          Touch(r.candidate, entry.(users := entry.users + 1));
          return Served(entry.slot), None;
        }
        Touch(r.candidate, Entry(entry.slot, r.epoch, r.key, false, true, 1, 0));
        return MustSetUp(entry.slot), None;
      }
      var slot, ok;
      slot, ok, victim := TakeSlot();
      if !ok {
        return Wait(changed), None;
      }
      Touch(r.candidate, Entry(slot, r.epoch, r.key, false, true, 1, 0));
      return MustSetUp(slot), victim;
    }

    method TakeSlot() returns (slot: nat, ok: bool, ghost victim: Option<string>)
      modifies this
      ensures ok <==> old(free) != [] || exists id :: id in old(entries) && old(entries)[id].Idle()
      ensures old(free) != [] ==>
        victim == None && slot == old(free)[0] && State() == old(State()).(free := old(free)[1..])
      ensures ok && old(free) == [] ==>
        && victim.Some? && old(State()).IsVictim(victim.value) && slot == old(entries)[victim.value].slot
        && State() == old(State()).(entries := old(entries) - {victim.value})
      ensures !ok ==> State() == old(State())
    {
      if |free| > 0 {
        slot, ok, victim := free[0], true, None;
        free := free[1..];
        return;
      }
      var chosen: Option<string> := None;
      var ids := entries.Keys;
      while ids != {}
        invariant ids <= entries.Keys
        invariant chosen.None? ==> forall id :: id in entries && id !in ids ==> !entries[id].Idle()
        invariant chosen.Some? ==> chosen.value in entries && entries[chosen.value].Idle()
        invariant chosen.Some? ==> forall id :: id in entries && id !in ids && entries[id].Idle() ==>
          entries[chosen.value].lastUsed <= entries[id].lastUsed
      {
        var id :| id in ids;
        ids := ids - {id};
        if entries[id].settingUp || entries[id].users != 0 {
          continue;
        }
        if chosen.None? || entries[id].lastUsed < entries[chosen.value].lastUsed {
          chosen := Some(id);
        }
      }
      if chosen.None? {
        return 0, false, None;
      }
      slot, ok, victim := entries[chosen.value].slot, true, chosen;
      entries := entries - {chosen.value};
    }

    method FinishSetup(candidate: string, ok: bool)
      requires candidate in entries
      modifies this
      ensures State() == old(State()).Finish(candidate, ok)
    {
      var entry := entries[candidate];
      if !ok {
        entries := entries - {candidate};
        free := free + [entry.slot];
      } else {
        Touch(candidate, entry.(settingUp := false, configured := true));
      }
      changed := changed + 1;
    }

    method Release(candidate: string)
      requires candidate in entries
      modifies this
      ensures State() == old(State()).Release(candidate)
    {
      var entry := entries[candidate];
      if entry.users > 0 {
        Touch(candidate, entry.(users := entry.users - 1));
        changed := changed + 1;
      }
    }

    method Touch(candidate: string, entry: Entry)
      modifies this`entries, this`clock
      ensures State() == old(State()).Touched(candidate, entry)
    {
      clock := clock + 1;
      entries := entries[candidate := entry.(lastUsed := clock)];
    }
  }

  // ---------- Users of the cache, in any interleaving ----------

  // A handle is what a successful acquire returned; it is released at most once.
  datatype Handle = Handle(candidate: string, slot: nat, epoch: nat, key: int, live: bool)

  datatype Waiter = Waiter(id: nat, request: Request, channel: nat)

  datatype State = State(cache: Cache, handles: seq<Handle>, waiters: set<Waiter>)

  datatype Step = Acquires(r: Request, victim: Option<string>) | StartsToWait(id: nat, r: Request) | StopsWaiting(w: Waiter)
                | Finishes(candidate: string, ok: bool) | Releases(h: nat)

  function Initial(capacity: nat): State {
    State(Cache(map[], seq(capacity, i => i), 0, 0), [], {})
  }

  // A waiter goes back to acquiring once its channel is closed, or gives up.
  predicate Enabled(s: State, step: Step) {
    match step
    case Acquires(r, victim) => s.cache.Takes(r, victim)
    case StartsToWait(id, r) => s.cache.MustWait(r) && forall w :: w in s.waiters ==> w.id != id
    case StopsWaiting(w) => w in s.waiters
    case Finishes(candidate, _) => candidate in s.cache.entries && s.cache.entries[candidate].settingUp
    case Releases(h) => h < |s.handles| && s.handles[h].live && s.handles[h].candidate in s.cache.entries
  }

  function HandleOf(cache: Cache, candidate: string): Handle
    requires candidate in cache.entries
  {
    var e := cache.entries[candidate];
    Handle(candidate, e.slot, e.epoch, e.key, true)
  }

  function After(s: State, step: Step): State
    requires Enabled(s, step)
  {
    match step
    case Acquires(r, victim) =>
      var cache := s.cache.Acquire(r, victim);
      s.(cache := cache,
         handles := if cache.entries[r.candidate].settingUp then s.handles else s.handles + [HandleOf(cache, r.candidate)])
    case StartsToWait(id, r) => s.(waiters := s.waiters + {Waiter(id, r, s.cache.changed)})
    case StopsWaiting(w) => s.(waiters := s.waiters - {w})
    case Finishes(candidate, ok) =>
      s.(cache := s.cache.Finish(candidate, ok),
         handles := if ok then s.handles + [HandleOf(s.cache, candidate)] else s.handles)
    case Releases(h) =>
      s.(cache := s.cache.Release(s.handles[h].candidate), handles := s.handles[h := s.handles[h].(live := false)])
  }

  ghost predicate Run(states: seq<State>, steps: seq<Step>, capacity: nat) {
    && |states| == |steps| + 1 && states[0] == Initial(capacity)
    && forall k :: 0 <= k < |steps| ==> Enabled(states[k], steps[k]) && states[k + 1] == After(states[k], steps[k])
  }

  // ---------- What every step keeps ----------

  function LiveCount(handles: seq<Handle>, candidate: string): nat {
    if handles == [] then 0
    else LiveCount(handles[..|handles| - 1], candidate)
         + if handles[|handles| - 1].live && handles[|handles| - 1].candidate == candidate then 1 else 0
  }

  lemma LiveCountSnoc(handles: seq<Handle>, h: Handle, candidate: string)
    ensures LiveCount(handles + [h], candidate) ==
            LiveCount(handles, candidate) + if h.live && h.candidate == candidate then 1 else 0
  {
    assert (handles + [h])[..|handles|] == handles;
  }

  lemma {:induction false} LiveCountClose(handles: seq<Handle>, i: nat, candidate: string)
    requires i < |handles| && handles[i].live
    ensures LiveCount(handles, candidate) ==
            LiveCount(handles[i := handles[i].(live := false)], candidate) + if handles[i].candidate == candidate then 1 else 0
  {
    var closed := handles[i := handles[i].(live := false)];
    var n := |handles| - 1;
    if i < n {
      LiveCountClose(handles[..n], i, candidate);
      assert closed[..n] == handles[..n][i := handles[i].(live := false)];
    } else {
      assert closed[..n] == handles[..n];
    }
  }

  lemma {:induction false} LiveCountPositive(handles: seq<Handle>, i: nat)
    requires i < |handles| && handles[i].live
    ensures LiveCount(handles, handles[i].candidate) > 0
  {
    if i < |handles| - 1 {
      LiveCountPositive(handles[..|handles| - 1], i);
    }
  }

  // The free slots and the slots of the entries are all slots, each once.
  ghost predicate Partition(c: Cache, capacity: nat) {
    && (forall i, j :: 0 <= i < j < |c.free| ==> c.free[i] != c.free[j])
    && (forall a, b :: a in c.entries && b in c.entries && a != b ==> c.entries[a].slot != c.entries[b].slot)
    && (forall a :: a in c.entries ==> c.entries[a].slot !in c.free)
    && (forall slot: nat :: slot < capacity <==> slot in c.free || exists a :: a in c.entries && c.entries[a].slot == slot)
  }

  ghost predicate Clocked(c: Cache) {
    && (forall a :: a in c.entries ==> c.entries[a].lastUsed <= c.clock)
    && (forall a, b :: a in c.entries && b in c.entries && a != b ==> c.entries[a].lastUsed != c.entries[b].lastUsed)
  }

  predicate Backed(c: Cache, h: Handle) {
    h.live ==>
      h.candidate in c.entries && HandleOf(c, h.candidate) == h && c.entries[h.candidate].configured
  }

  ghost predicate Counted(s: State, a: string) {
    if a !in s.cache.entries then LiveCount(s.handles, a) == 0
    else
      var e := s.cache.entries[a];
      && e.settingUp == !e.configured
      && e.users == LiveCount(s.handles, a) + (if e.settingUp then 1 else 0)
      && (e.settingUp ==> LiveCount(s.handles, a) == 0)
  }

  // A waiter whose channel is still open has nothing it could take.
  ghost predicate Blocked(s: State) {
    forall w :: w in s.waiters ==> w.channel <= s.cache.changed && (w.channel == s.cache.changed ==> s.cache.MustWait(w.request))
  }

  ghost predicate Inv(s: State, capacity: nat) {
    && Partition(s.cache, capacity) && Clocked(s.cache) && Blocked(s)
    && (forall i :: 0 <= i < |s.handles| ==> Backed(s.cache, s.handles[i]))
    && (forall a :: Counted(s, a))
  }

  lemma SlotHasHome(c: Cache, capacity: nat, slot: nat)
    requires Partition(c, capacity)
    ensures slot < capacity <==> slot in c.free || exists a :: a in c.entries && c.entries[a].slot == slot
  {
  }

  // A candidate keeps its slot.
  lemma PartitionKept(c: Cache, c': Cache, capacity: nat)
    requires Partition(c, capacity) && c'.free == c.free && c'.entries.Keys == c.entries.Keys
    requires forall a :: a in c.entries ==> c'.entries[a].slot == c.entries[a].slot
    ensures Partition(c', capacity)
  {
    forall slot: nat
      ensures slot < capacity <==> slot in c'.free || exists a :: a in c'.entries && c'.entries[a].slot == slot
    {
      SlotHasHome(c, capacity, slot);
      if a :| a in c.entries && c.entries[a].slot == slot {
        assert c'.entries[a].slot == slot;
      }
    }
  }

  // A new candidate takes the first free slot, or the slot of an entry that goes.
  lemma PartitionTaken(c: Cache, c': Cache, capacity: nat, candidate: string, e: Entry)
    requires Partition(c, capacity) && candidate !in c.entries && c.free != []
    requires c'.free == c.free[1..] && c'.entries == c.entries[candidate := e] && e.slot == c.free[0]
    ensures Partition(c', capacity)
  {
    assert c.free == [c.free[0]] + c.free[1..];
    forall slot: nat
      ensures slot < capacity <==> slot in c'.free || exists a :: a in c'.entries && c'.entries[a].slot == slot
    {
      SlotHasHome(c, capacity, slot);
      assert c'.entries[candidate].slot == e.slot;
      if a :| a in c.entries && c.entries[a].slot == slot {
        assert c'.entries[a].slot == slot;
      }
    }
  }

  lemma PartitionEvicted(c: Cache, c': Cache, capacity: nat, victim: string, candidate: string, e: Entry)
    requires Partition(c, capacity) && candidate !in c.entries && victim in c.entries
    requires c'.free == c.free && c'.entries == (c.entries - {victim})[candidate := e] && e.slot == c.entries[victim].slot
    ensures Partition(c', capacity)
  {
    forall slot: nat
      ensures slot < capacity <==> slot in c'.free || exists a :: a in c'.entries && c'.entries[a].slot == slot
    {
      SlotHasHome(c, capacity, slot);
      assert c'.entries[candidate].slot == e.slot;
      if a :| a in c.entries && c.entries[a].slot == slot {
        assert a == victim || c'.entries[a].slot == slot;
      }
    }
  }

  lemma PartitionGiven(c: Cache, c': Cache, capacity: nat, candidate: string)
    requires Partition(c, capacity) && candidate in c.entries
    requires c'.free == c.free + [c.entries[candidate].slot] && c'.entries == c.entries - {candidate}
    ensures Partition(c', capacity)
  {
    forall slot: nat
      ensures slot < capacity <==> slot in c'.free || exists a :: a in c'.entries && c'.entries[a].slot == slot
    {
      SlotHasHome(c, capacity, slot);
      if a :| a in c.entries && c.entries[a].slot == slot {
        assert a == candidate || c'.entries[a].slot == slot;
      }
    }
  }

  lemma AcquireKeeps(s: State, capacity: nat, r: Request, victim: Option<string>)
    requires Inv(s, capacity) && Enabled(s, Acquires(r, victim))
    ensures Inv(After(s, Acquires(r, victim)), capacity)
  {
    AcquirePartition(s.cache, capacity, r, victim);
    AcquireClocked(s.cache, r, victim);
    AcquireCounted(s, capacity, r, victim);
    AcquireBacked(s, capacity, r, victim);
    AcquireBlocked(s, capacity, r, victim);
  }

  lemma AcquireClocked(c: Cache, r: Request, victim: Option<string>)
    requires Clocked(c) && c.Takes(r, victim)
    ensures Clocked(c.Acquire(r, victim))
  {
  }

  lemma AcquirePartition(c: Cache, capacity: nat, r: Request, victim: Option<string>)
    requires Partition(c, capacity) && c.Takes(r, victim)
    ensures Partition(c.Acquire(r, victim), capacity)
  {
    var c' := c.Acquire(r, victim);
    if r.candidate in c.entries {
      PartitionKept(c, c', capacity);
    } else if c.free != [] {
      PartitionTaken(c, c', capacity, r.candidate, c'.entries[r.candidate]);
    } else {
      PartitionEvicted(c, c', capacity, victim.value, r.candidate, c'.entries[r.candidate]);
    }
  }

  lemma AcquireCounted(s: State, capacity: nat, r: Request, victim: Option<string>)
    requires Inv(s, capacity) && Enabled(s, Acquires(r, victim))
    ensures forall a :: Counted(After(s, Acquires(r, victim)), a)
  {
    var s' := After(s, Acquires(r, victim));
    assert Counted(s, r.candidate);
    forall a
      ensures Counted(s', a)
    {
      assert Counted(s, a);
      LiveCountSnoc(s.handles, HandleOf(s'.cache, r.candidate), a);
    }
  }

  lemma AcquireBacked(s: State, capacity: nat, r: Request, victim: Option<string>)
    requires Inv(s, capacity) && Enabled(s, Acquires(r, victim))
    ensures var s' := After(s, Acquires(r, victim));
      forall i :: 0 <= i < |s'.handles| ==> Backed(s'.cache, s'.handles[i])
  {
    var s' := After(s, Acquires(r, victim));
    forall i | 0 <= i < |s.handles|
      ensures Backed(s'.cache, s.handles[i])
    {
      assert Backed(s.cache, s.handles[i]) && Counted(s, s.handles[i].candidate);
      if s.handles[i].live {
        LiveCountPositive(s.handles, i);
      }
    }
  }

  // Whoever waits still has to: an acquire only takes what a waiter would have taken.
  lemma AcquireBlocked(s: State, capacity: nat, r: Request, victim: Option<string>)
    requires Inv(s, capacity) && Enabled(s, Acquires(r, victim))
    ensures Blocked(After(s, Acquires(r, victim)))
  {
    var s' := After(s, Acquires(r, victim));
    forall w | w in s.waiters && w.channel == s.cache.changed
      ensures s'.cache.MustWait(w.request)
    {
      assert s.cache.MustWait(w.request) && Counted(s, w.request.candidate) && Counted(s, r.candidate);
    }
  }

  lemma FinishKeeps(s: State, capacity: nat, candidate: string, ok: bool)
    requires Inv(s, capacity) && Enabled(s, Finishes(candidate, ok))
    ensures Inv(After(s, Finishes(candidate, ok)), capacity)
  {
    var c, s' := s.cache, After(s, Finishes(candidate, ok));
    if ok {
      PartitionKept(c, s'.cache, capacity);
    } else {
      PartitionGiven(c, s'.cache, capacity, candidate);
    }
    FinishCounted(s, capacity, candidate, ok);
    FinishBacked(s, capacity, candidate, ok);
  }

  lemma FinishCounted(s: State, capacity: nat, candidate: string, ok: bool)
    requires Inv(s, capacity) && Enabled(s, Finishes(candidate, ok))
    ensures forall a :: Counted(After(s, Finishes(candidate, ok)), a)
  {
    assert Counted(s, candidate);
    forall a
      ensures Counted(After(s, Finishes(candidate, ok)), a)
    {
      assert Counted(s, a);
      LiveCountSnoc(s.handles, HandleOf(s.cache, candidate), a);
    }
  }

  lemma FinishBacked(s: State, capacity: nat, candidate: string, ok: bool)
    requires Inv(s, capacity) && Enabled(s, Finishes(candidate, ok))
    ensures var s' := After(s, Finishes(candidate, ok));
      forall i :: 0 <= i < |s'.handles| ==> Backed(s'.cache, s'.handles[i])
  {
    var s' := After(s, Finishes(candidate, ok));
    assert Counted(s, candidate);
    forall i | 0 <= i < |s.handles|
      ensures Backed(s'.cache, s.handles[i])
    {
      assert Backed(s.cache, s.handles[i]);
    }
  }

  lemma ReleaseKeeps(s: State, capacity: nat, h: nat)
    requires Inv(s, capacity) && Enabled(s, Releases(h))
    ensures Inv(After(s, Releases(h)), capacity)
  {
    var s', candidate := After(s, Releases(h)), s.handles[h].candidate;
    LiveCountPositive(s.handles, h);
    assert Counted(s, candidate);
    PartitionKept(s.cache, s'.cache, capacity);
    ReleaseCounted(s, capacity, h);
    forall i | 0 <= i < |s'.handles|
      ensures Backed(s'.cache, s'.handles[i])
    {
      assert Backed(s.cache, s.handles[i]);
    }
  }

  lemma ReleaseCounted(s: State, capacity: nat, h: nat)
    requires Inv(s, capacity) && Enabled(s, Releases(h))
    ensures forall a :: Counted(After(s, Releases(h)), a)
  {
    LiveCountPositive(s.handles, h);
    assert Counted(s, s.handles[h].candidate);
    forall a
      ensures Counted(After(s, Releases(h)), a)
    {
      assert Counted(s, a);
      LiveCountClose(s.handles, h, a);
    }
  }

  lemma InvKept(s: State, step: Step, capacity: nat)
    requires Inv(s, capacity) && Enabled(s, step)
    ensures Inv(After(s, step), capacity)
  {
    match step
    case Acquires(r, victim) => AcquireKeeps(s, capacity, r, victim);
    case StartsToWait(_, _) => assert forall a :: Counted(s, a) ==> Counted(After(s, step), a);
    case StopsWaiting(_) => assert forall a :: Counted(s, a) ==> Counted(After(s, step), a);
    case Finishes(candidate, ok) => FinishKeeps(s, capacity, candidate, ok);
    case Releases(h) => ReleaseKeeps(s, capacity, h);
  }

  lemma InitialInv(capacity: nat)
    ensures Inv(Initial(capacity), capacity)
  {
    var c := Initial(capacity).cache;
    forall slot: nat
      ensures slot < capacity <==> slot in c.free
    {
      if slot < capacity {
        assert c.free[slot] == slot;
      }
    }
  }

  lemma {:induction false} InvAlways(states: seq<State>, steps: seq<Step>, capacity: nat, k: nat)
    requires Run(states, steps, capacity) && k < |states|
    ensures Inv(states[k], capacity)
  {
    if k == 0 {
      InitialInv(capacity);
    } else {
      InvAlways(states, steps, capacity, k - 1);
      InvKept(states[k - 1], steps[k - 1], capacity);
    }
  }

  // ---------- The promises ----------

  // In every reachable state: each slot is free or belongs to one entry; `users`
  // counts the handles out (and a setup under way); a live handle finds its slot
  // configured as it was acquired.
  lemma SlotsAccountedFor(states: seq<State>, steps: seq<Step>, capacity: nat, k: nat)
    requires Run(states, steps, capacity) && k < |states|
    ensures Partition(states[k].cache, capacity)
    ensures forall a :: Counted(states[k], a)
    ensures forall i :: 0 <= i < |states[k].handles| ==> Backed(states[k].cache, states[k].handles[i])
    ensures forall g, h :: g in states[k].handles && h in states[k].handles && g.live && h.live && g.slot == h.slot ==> g == h
  {
    InvAlways(states, steps, capacity, k);
    var s := states[k];
    forall g, h | g in s.handles && h in s.handles && g.live && h.live && g.slot == h.slot
      ensures g == h
    {
      assert Backed(s.cache, g) && Backed(s.cache, h);
    }
  }

  // A slot with a live handle is neither given to another candidate nor set up again
  // by any acquire.
  lemma LiveSlotsUntouched(states: seq<State>, steps: seq<Step>, capacity: nat, k: nat, i: nat)
    requires Run(states, steps, capacity) && k < |steps| && i < |states[k].handles|
    requires states[k].handles[i].live && steps[k].Acquires?
    ensures var h, entries := states[k].handles[i], states[k + 1].cache.entries;
      && (steps[k].victim != Some(h.candidate))
      && h.candidate in entries && entries[h.candidate].slot == h.slot && !entries[h.candidate].settingUp
      && forall a :: a in entries && entries[a].slot == h.slot ==> a == h.candidate
  {
    InvAlways(states, steps, capacity, k);
    InvAlways(states, steps, capacity, k + 1);
    var s, s' := states[k], states[k + 1];
    assert Backed(s.cache, s.handles[i]) && Backed(s'.cache, s'.handles[i]);
    assert Counted(s, s.handles[i].candidate) && Counted(s', s'.handles[i].candidate);
    LiveCountPositive(s.handles, i);
  }

  // The victim does not depend on the order in which the entries are looked at.
  lemma VictimIsUnique(states: seq<State>, steps: seq<Step>, capacity: nat, k: nat, a: string, b: string)
    requires Run(states, steps, capacity) && k < |states|
    requires states[k].cache.IsVictim(a) && states[k].cache.IsVictim(b)
    ensures a == b
  {
    InvAlways(states, steps, capacity, k);
  }

  // No lost wake-up: a waiter whose request could now be served finds its channel
  // closed.
  lemma NoLostWakeUp(states: seq<State>, steps: seq<Step>, capacity: nat, k: nat, w: Waiter)
    requires Run(states, steps, capacity) && k < |states| && w in states[k].waiters
    requires !states[k].cache.MustWait(w.request)
    ensures w.channel < states[k].cache.changed
  {
    InvAlways(states, steps, capacity, k);
  }

  // An acquire waits exactly when there is nothing it may take.
  lemma AcquireFindsSlot(c: Cache, r: Request)
    ensures c.MustWait(r) <==> !exists victim :: c.Takes(r, victim)
  {
    if c.MustWait(r) {
    } else if r.candidate in c.entries || c.free != [] {
      assert c.Takes(r, None);
    } else {
      var id :| id in c.entries && c.entries[id].Idle();
      var least := LeastUsed(c, c.entries.Keys, id);
      assert c.Takes(r, Some(least));
    }
  }

  lemma {:induction false} LeastUsed(c: Cache, ids: set<string>, id: string) returns (least: string)
    requires ids <= c.entries.Keys && id in ids && c.entries[id].Idle()
    ensures least in ids && c.entries[least].Idle()
    ensures forall other :: other in ids && c.entries[other].Idle() ==> c.entries[least].lastUsed <= c.entries[other].lastUsed
    decreases |ids|
  {
    if other :| other in ids && other != id && c.entries[other].Idle() {
      var worse := if c.entries[id].lastUsed <= c.entries[other].lastUsed then other else id;
      var better := if worse == id then other else id;
      least := LeastUsed(c, ids - {worse}, better);
    } else {
      least := id;
    }
  }
}
