// The remote Xray process and the state file, as the reconciler meets them: every
// call may succeed, fail without effect, or fail after its effect.
module XrayRuntime {
  import opened Plan

  datatype World = World(outbounds: Table, rules: set<Rule>)

  const Fresh := World(map[], {})

  datatype Call = Call(ok: bool, before: World, after: World)

  ghost predicate Live(w: World) {
    forall rule :: rule in w.rules ==> ServedBy(rule, w.outbounds)
  }

  // No rule that was installed loses or changes a handler it uses.
  ghost predicate Undisturbed(before: World, after: World) {
    forall rule, id :: rule in before.rules && id in rule.Uses() ==>
      id in before.outbounds && id in after.outbounds && after.outbounds[id] == before.outbounds[id]
  }

  ghost predicate SafeCall(call: Call) {
    Live(call.before) && Live(call.after) && Undisturbed(call.before, call.after)
  }

  // Calls were made since, and the last of them failed.
  predicate CallFailed(before: seq<Call>, log: seq<Call>) {
    before < log && !log[|log| - 1].ok
  }

  // ---------- What the reconciler believes about Xray ----------

  datatype Books = Books(runtime: Table, adds: Table, removes: Table) {
    function Doubt(): set<string> {
      adds.Keys + removes.Keys
    }
  }

  predicate Unused(w: World, id: string) {
    forall rule :: rule in w.rules ==> id !in rule.Uses()
  }

  // One handler ID: either it is in doubt, or Xray has what the books say.
  predicate Slot(w: World, b: Books, id: string) {
    && (id in b.Doubt() || (id in w.outbounds <==> id in b.runtime))
    && (id in b.runtime && id !in b.Doubt() ==> id in w.outbounds && w.outbounds[id] == b.runtime[id])
    && (id in b.adds ==> id !in b.runtime && b.adds[id].id == id)
    && (id in b.removes ==> id in b.runtime && b.removes[id] == b.runtime[id])
    && (id in b.runtime ==> b.runtime[id].id == id)
  }

  ghost predicate Tracked(w: World, b: Books) {
    && (forall id :: Slot(w, b, id))
    && (forall x, y :: x in b.Doubt() && y in b.Doubt() ==> x == y)
    && (forall rule :: rule in w.rules ==> ServedBy(rule, b.runtime) && rule.Uses() !! b.Doubt())
  }

  lemma TrackedIsLive(w: World, b: Books)
    requires Tracked(w, b)
    ensures Live(w)
    ensures forall id :: id !in b.runtime ==> Unused(w, id)
    ensures forall id :: id in b.Doubt() ==> Unused(w, id)
  {
    forall rule | rule in w.rules
      ensures ServedBy(rule, w.outbounds)
    {
      assert ServedBy(rule, b.runtime);
      forall id | id in rule.Uses()
        ensures id in w.outbounds && w.outbounds[id] == b.runtime[id]
      {
        assert Slot(w, b, id);
      }
      assert rule.dns != "" ==> rule.dns in rule.Uses();
    }
  }

  const EmptyBooks := Books(map[], map[], map[])

  // Emptying the books keeps them right if and only if Xray runs no handler and no
  // rule uses one.
  lemma EmptyBooksAreRight(w: World)
    ensures Tracked(w, EmptyBooks) <==> w.outbounds == map[] && forall rule :: rule in w.rules ==> rule.Uses() == {}
  {
    if Tracked(w, EmptyBooks) {
      forall id
        ensures id !in w.outbounds
      {
        assert Slot(w, EmptyBooks, id);
      }
      assert w.outbounds == map[];
    } else if w.outbounds == map[] && forall rule :: rule in w.rules ==> rule.Uses() == {} {
      forall rule | rule in w.rules
        ensures ServedBy(rule, map[])
      {
        assert rule.dns != "" ==> rule.dns in rule.Uses();
      }
    }
  }

  ghost predicate SameElsewhere(a: Table, b: Table, id: string) {
    forall x :: x != id ==> (x in a <==> x in b) && (x in a ==> a[x] == b[x])
  }

  // One call about one handler that no rule uses keeps the books right, whatever
  // the call did, as long as they are right about that handler.
  lemma Touch(w: World, b: Books, w': World, b': Books, id: string)
    requires Tracked(w, b) && Unused(w, id)
    requires w'.rules == w.rules && SameElsewhere(w.outbounds, w'.outbounds, id)
    requires SameElsewhere(b.runtime, b'.runtime, id)
    requires SameElsewhere(b.adds, b'.adds, id) && SameElsewhere(b.removes, b'.removes, id)
    requires Slot(w', b', id)
    requires id in b'.Doubt() ==> b.Doubt() <= {id}
    ensures Tracked(w', b')
    ensures Live(w') && Undisturbed(w, w')
  {
    TrackedIsLive(w, b);
    forall x
      ensures Slot(w', b', x)
    {
      assert Slot(w, b, x);
    }
    RulesStayServed(w, b, b', id);
    forall x, y | x in b'.Doubt() && y in b'.Doubt()
      ensures x == y
    {
      assert x != id ==> x in b.Doubt();
      assert y != id ==> y in b.Doubt();
    }
    QuietCall(w, w', id, true);
  }

  lemma RulesStayServed(w: World, b: Books, b': Books, id: string)
    requires Tracked(w, b) && Unused(w, id)
    requires SameElsewhere(b.runtime, b'.runtime, id)
    requires SameElsewhere(b.adds, b'.adds, id) && SameElsewhere(b.removes, b'.removes, id)
    ensures forall rule :: rule in w.rules ==> ServedBy(rule, b'.runtime) && rule.Uses() !! b'.Doubt()
  {
    forall rule | rule in w.rules
      ensures ServedBy(rule, b'.runtime) && rule.Uses() !! b'.Doubt()
    {
      assert ServedBy(rule, b.runtime) && id !in rule.Uses();
      assert rule.dns != "" ==> rule.dns in rule.Uses();
    }
  }

  // The same for a call alone: a handler no rule uses can be added, replaced or
  // removed without disturbing traffic.
  lemma QuietCall(before: World, after: World, id: string, ok: bool)
    requires Live(before) && Unused(before, id)
    requires after.rules == before.rules && SameElsewhere(before.outbounds, after.outbounds, id)
    ensures SafeCall(Call(ok, before, after))
  {
    forall rule | rule in before.rules
      ensures ServedBy(rule, after.outbounds)
      ensures forall x :: x in rule.Uses() ==>
        x in before.outbounds && x in after.outbounds && after.outbounds[x] == before.outbounds[x]
    {
      assert ServedBy(rule, before.outbounds) && id !in rule.Uses();
      assert rule.dns != "" ==> rule.dns in rule.Uses();
    }
  }

  // A handler may change while routes stay, or routes while handlers stay: when all
  // new rules are served by settled handlers, any mixture of the tables is live.
  lemma Reroute(w: World, b: Books, w': World, rules: set<Rule>)
    requires Tracked(w, b) && w'.outbounds == w.outbounds && w'.rules <= w.rules + rules
    requires b.Doubt() == {}
    requires forall rule :: rule in rules ==> ServedBy(rule, b.runtime)
    ensures Tracked(w', b) && Live(w') && Undisturbed(w, w')
  {
    forall id
      ensures Slot(w', b, id)
    {
      assert Slot(w, b, id);
    }
    TrackedIsLive(w, b);
    TrackedIsLive(w', b);
    forall rule, x | rule in w.rules && x in rule.Uses()
      ensures x in w.outbounds && x in w'.outbounds && w'.outbounds[x] == w.outbounds[x]
    {
      assert ServedBy(rule, w.outbounds);
    }
  }

  // ---------- DNS handlers and the handlers they dial through ----------

  // Every DNS handler in Xray finds the handler it dials through.
  ghost predicate Reachable(w: World) {
    forall id :: id in w.outbounds && w.outbounds[id].protocol.Dns? ==>
      w.outbounds[id].config.DialsThrough? && w.outbounds[id].config.proxy in w.outbounds
  }

  predicate Dials(o: Outbound, b: Books) {
    o.protocol.Dns? ==>
      && o.config.DialsThrough? && o.config.proxy in b.runtime && o.config.proxy !in b.removes
      && TcpCapable(b.runtime[o.config.proxy].protocol)
  }

  predicate DialsTo(o: Outbound, proxy: string) {
    o.protocol.Dns? && o.config == DialsThrough(proxy)
  }

  predicate DialSlot(w: World, b: Books, id: string) {
    && (id in b.runtime ==> Dials(b.runtime[id], b))
    && (id in b.adds ==> Dials(b.adds[id], b) && (id in w.outbounds ==> Dials(w.outbounds[id], b)))
    && (id in b.removes && id in w.outbounds ==> w.outbounds[id] == b.removes[id])
  }

  ghost predicate Dialed(w: World, b: Books) {
    forall id :: DialSlot(w, b, id)
  }

  predicate NoDialer(w: World, b: Books, proxy: string) {
    && (forall id :: id in b.runtime && id != proxy ==> !DialsTo(b.runtime[id], proxy))
    && (forall id :: id in b.adds && id != proxy ==> !DialsTo(b.adds[id], proxy))
    && (forall id :: id in b.adds && id in w.outbounds && id != proxy ==> !DialsTo(w.outbounds[id], proxy))
  }

  lemma DialedIsReachable(w: World, b: Books)
    requires Tracked(w, b) && Dialed(w, b)
    ensures Reachable(w)
  {
    forall id | id in w.outbounds && w.outbounds[id].protocol.Dns?
      ensures w.outbounds[id].config.DialsThrough? && w.outbounds[id].config.proxy in w.outbounds
    {
      assert Slot(w, b, id) && DialSlot(w, b, id);
      var proxy := w.outbounds[id].config.proxy;
      assert Slot(w, b, proxy);
    }
  }

  // One call about one handler keeps the layering when that handler has its dialer
  // afterwards, and is not taken away from under another one.
  lemma TouchDial(w: World, b: Books, w': World, b': Books, id: string)
    requires Dialed(w, b) && Tracked(w', b')
    requires SameElsewhere(w.outbounds, w'.outbounds, id)
    requires SameElsewhere(b.runtime, b'.runtime, id)
    requires SameElsewhere(b.adds, b'.adds, id) && SameElsewhere(b.removes, b'.removes, id)
    requires DialSlot(w', b', id)
    requires NoDialer(w, b, id) || (id in b.runtime && id in b'.runtime && b'.runtime[id] == b.runtime[id] && (id in b'.removes ==> id in b.removes))
    ensures Dialed(w', b') && Reachable(w')
  {
    forall x
      ensures DialSlot(w', b', x)
    {
      assert DialSlot(w, b, x);
    }
    DialedIsReachable(w', b');
  }

  // A handler in doubt is dialled by nobody: it is missing from the books, or its
  // removal was attempted when nothing needed it any more.
  lemma DoubtHasNoDialer(w: World, b: Books, id: string)
    requires Tracked(w, b) && Dialed(w, b) && id in b.Doubt()
    ensures NoDialer(w, b, id)
  {
    assert Slot(w, b, id);
    forall x | x in b.runtime || x in b.adds
      ensures DialSlot(w, b, x)
    {
    }
  }

  lemma NewHasNoDialer(w: World, b: Books, id: string)
    requires Tracked(w, b) && Dialed(w, b) && id !in b.runtime
    ensures NoDialer(w, b, id)
  {
    forall x | x in b.runtime || x in b.adds
      ensures DialSlot(w, b, x)
    {
    }
  }

  // Retrying an addition in doubt keeps the layering exactly when the dialer is
  // already there: a plan may have given the handler another one meanwhile.
  lemma RetriedAddReaches(w: World, b: Books, o: Outbound)
    requires Tracked(w, b) && Dialed(w, b) && o.id in b.adds
    requires o.protocol.Dns? ==> o.config.DialsThrough? && o.config.proxy != o.id
    ensures Reachable(World(w.outbounds[o.id := o], w.rules)) <==> (o.protocol.Dns? ==> o.config.proxy in b.runtime)
  {
    var after := World(w.outbounds[o.id := o], w.rules);
    DialedIsReachable(w, b);
    if o.protocol.Dns? {
      assert after.outbounds[o.id] == o;
      assert Slot(w, b, o.config.proxy);
    }
  }

  class Xray {
    ghost var world: World
    ghost var log: seq<Call>
    const staged: bool

    constructor (staged: bool)
      ensures world == Fresh && log == [] && this.staged == staged
    {
      this.staged := staged;
      world, log := Fresh, [];
    }

    // A new process knows no handler and no client rule.
    ghost method Restart()
      modifies this
      ensures world == Fresh && log == []
    {
      world, log := Fresh, [];
    }

    method AddOutbound(o: Outbound) returns (ok: bool)
      modifies this
      ensures log == old(log) + [Call(ok, old(world), world)]
      ensures world == old(world) || world == World(old(world).outbounds[o.id := o], old(world).rules)
      ensures ok ==> world == World(old(world).outbounds[o.id := o], old(world).rules)
    {
      ghost var before := world;
      var effect: bool;
      ok, effect := *, *;
      if ok || effect {
        world := World(world.outbounds[o.id := o], world.rules);
      }
      log := log + [Call(ok, before, world)];
    }

    method RemoveOutbound(id: string) returns (ok: bool)
      modifies this
      ensures log == old(log) + [Call(ok, old(world), world)]
      ensures world == old(world) || world == World(old(world).outbounds - {id}, old(world).rules)
      ensures ok ==> world == World(old(world).outbounds - {id}, old(world).rules)
    {
      ghost var before := world;
      var effect: bool;
      ok, effect := *, *;
      if ok || effect {
        world := World(world.outbounds - {id}, world.rules);
      }
      log := log + [Call(ok, before, world)];
    }

    // Draining changes nothing in Xray, but an adapter may refuse it.
    method DrainOutbound(id: string) returns (ok: bool)
      modifies this
      ensures log == old(log) + [Call(ok, old(world), world)] && world == old(world)
    {
      ok := *;
      log := log + [Call(ok, world, world)];
    }

    // A failed replacement may leave any mixture of the old and the new rules.
    method ReplaceRoutes(routes: seq<ClientRoute>) returns (ok: bool)
      modifies this
      ensures log == old(log) + [Call(ok, old(world), world)]
      ensures world.outbounds == old(world).outbounds && world.rules <= old(world).rules + Rules(routes)
      ensures ok ==> world.rules == Rules(routes)
    {
      ghost var before := world;
      ok := *;
      if ok {
        world := World(world.outbounds, Rules(routes));
      } else {
        ghost var mixture: set<Rule> :| mixture <= world.rules + Rules(routes);
        world := World(world.outbounds, mixture);
      }
      log := log + [Call(ok, before, world)];
    }

    // The staged form skips the call when both route lists render to the same
    // document, and relies on its caller that `current` is what is installed.
    method ReplaceRoutesStaged(current: seq<ClientRoute>, desired: seq<ClientRoute>) returns (ok: bool)
      requires current != [] ==> world.rules == Rules(current)
      modifies this
      ensures log == old(log) + [Call(ok, old(world), world)] || (ok && log == old(log))
      ensures world.outbounds == old(world).outbounds && world.rules <= old(world).rules + Rules(desired)
      ensures ok ==> world.rules == Rules(desired)
    {
      if |current| > 0 && Rules(current) == Rules(desired) {
        return true;
      }
      ok := ReplaceRoutes(desired);
    }
  }
}
