// Dataplane plans: outbound handlers, client routes, and what makes a plan
// admissible. An outbound config is a parsed value; of a DNS handler only the
// handler it dials through matters here.
module Plan {
  datatype Protocol = Vless | Tor | Dns | Unknown(name: string)

  datatype Config = Absent | Opaque(payload: int) | DialsThrough(proxy: string)

  datatype Outbound = Outbound(id: string, protocol: Protocol, config: Config)

  datatype Source = Host(address: int) | Network(text: string)

  datatype ClientRoute = ClientRoute(
    clientID: string, source: Source, tcp: string, udp: string, dns: string,
    tcpReserve: string, udpReserve: string, blockTCP: bool, blockUDP: bool, dormant: bool)

  datatype DesiredPlan = DesiredPlan(generation: int, outbounds: seq<Outbound>, clients: seq<ClientRoute>, failClosed: bool)

  const NoPlan := DesiredPlan(0, [], [], false)

  type Table = map<string, Outbound>

  function ById(items: seq<Outbound>): Table {
    if items == [] then map[]
    else ById(items[..|items| - 1])[items[|items| - 1].id := items[|items| - 1]]
  }

  lemma {:induction false} ByIdFacts(items: seq<Outbound>)
    ensures forall id :: id in ById(items) ==> ById(items)[id].id == id && ById(items)[id] in items
    ensures forall o :: o in items ==> o.id in ById(items)
    ensures DistinctIds(items) ==> forall o :: o in items ==> ById(items)[o.id] == o
  {
    if items != [] {
      var rest, last := items[..|items| - 1], items[|items| - 1];
      ByIdFacts(rest);
      assert items == rest + [last];
    }
  }

  predicate TcpCapable(p: Protocol) {
    p.Vless? || p.Tor?
  }

  predicate DistinctIds(items: seq<Outbound>) {
    forall i, j :: 0 <= i < j < |items| ==> items[i].id != items[j].id
  }

  predicate Named(o: Outbound) {
    o.id != "" && !o.protocol.Unknown?
  }

  // A DNS handler dials through another handler of the plan that can carry TCP.
  predicate Dialable(o: Outbound, table: Table) {
    o.protocol.Dns? ==>
      && o.config.DialsThrough? && o.config.proxy != "" && o.config.proxy != o.id
      && o.config.proxy in table && TcpCapable(table[o.config.proxy].protocol)
  }

  predicate Carries(table: Table, id: string, tcp: bool) {
    id in table && (if tcp then TcpCapable(table[id].protocol) else table[id].protocol.Vless?)
  }

  predicate ValidReserve(table: Table, reserve: string, primary: string, tcp: bool) {
    reserve == "" || (primary != "" && reserve != primary && Carries(table, reserve, tcp))
  }

  predicate ValidRoute(r: ClientRoute, table: Table) {
    && r.clientID != ""
    && (r.blockTCP <==> r.tcp == "")
    && (r.blockUDP <==> r.udp == "")
    && (r.tcp != "" ==> Carries(table, r.tcp, true))
    && (r.udp != "" ==> Carries(table, r.udp, false))
    && (r.dns != "" ==> r.dns in table && table[r.dns].protocol.Dns? && table[r.dns].config == DialsThrough(r.tcp))
    && ValidReserve(table, r.tcpReserve, r.tcp, true)
    && ValidReserve(table, r.udpReserve, r.udp, false)
  }

  predicate ValidPlan(plan: DesiredPlan) {
    && plan.generation > 0
    && plan.failClosed
    && DistinctIds(plan.outbounds)
    && (forall o :: o in plan.outbounds ==> Named(o) && Dialable(o, ById(plan.outbounds)))
    && (forall i, j :: 0 <= i < j < |plan.clients| ==> plan.clients[i].clientID != plan.clients[j].clientID)
    && (forall r :: r in plan.clients ==> ValidRoute(r, ById(plan.outbounds)))
  }

  // The checks in the order the program makes them, over the tables it builds.
  method Validate(plan: DesiredPlan) returns (ok: bool)
    ensures ok <==> ValidPlan(plan)
  {
    if plan.generation <= 0 || !plan.failClosed {
      return false;
    }
    var indexed, outbounds := IndexOutbounds(plan.outbounds);
    if !indexed {
      return false;
    }
    ByIdFacts(plan.outbounds);
    var dialable, dnsProxies := IndexProxies(plan.outbounds, outbounds);
    if !dialable {
      return false;
    }
    var clients: set<string> := {};
    for i := 0 to |plan.clients|
      invariant clients == set j | 0 <= j < i :: plan.clients[j].clientID
      invariant forall j, k :: 0 <= j < k < i ==> plan.clients[j].clientID != plan.clients[k].clientID
      invariant forall j :: 0 <= j < i ==> ValidRoute(plan.clients[j], outbounds)
    {
      var route := plan.clients[i];
      if route.clientID in clients {
        return false;
      }
      clients := clients + {route.clientID};
      var routeOk := CheckRoute(route, outbounds, dnsProxies);
      if !routeOk {
        assert route in plan.clients;
        return false;
      }
    }
    return true;
  }

  method IndexOutbounds(items: seq<Outbound>) returns (ok: bool, table: Table)
    ensures ok <==> DistinctIds(items) && forall o :: o in items ==> Named(o)
    ensures ok ==> table == ById(items)
  {
    table := map[];
    for i := 0 to |items|
      invariant table == ById(items[..i])
      invariant table.Keys == set j | 0 <= j < i :: items[j].id
      invariant forall j :: 0 <= j < i ==> Named(items[j])
      invariant forall j, k :: 0 <= j < k < i ==> items[j].id != items[k].id
    {
      var outbound := items[i];
      if outbound.id == "" || outbound.protocol.Unknown? {
        assert outbound in items;
        return false, table;
      }
      if outbound.id in table {
        return false, table;
      }
      ByIdSnoc(items, i);
      table := table[outbound.id := outbound];
    }
    assert items[..|items|] == items;
    return true, table;
  }

  lemma ByIdSnoc(items: seq<Outbound>, i: nat)
    requires i < |items|
    ensures ById(items[..i + 1]) == ById(items[..i])[items[i].id := items[i]]
  {
    assert items[..i + 1][..i] == items[..i];
  }

  predicate Recorded(o: Outbound, proxies: map<string, string>) {
    o.id in proxies && o.config == DialsThrough(proxies[o.id])
  }

  method IndexProxies(items: seq<Outbound>, table: Table) returns (ok: bool, proxies: map<string, string>)
    requires DistinctIds(items)
    requires forall id :: id in table ==> table[id].id == id && table[id] in items
    ensures ok <==> forall o :: o in items ==> Dialable(o, table)
    ensures ok ==> forall id :: id in table && table[id].protocol.Dns? ==> Recorded(table[id], proxies)
  {
    proxies := map[];
    for i := 0 to |items|
      invariant forall j :: 0 <= j < i ==> Dialable(items[j], table)
      invariant forall j :: 0 <= j < i && items[j].protocol.Dns? ==> Recorded(items[j], proxies)
    {
      var outbound := items[i];
      if outbound.protocol.Dns? {
        if !outbound.config.DialsThrough? || outbound.config.proxy == "" || outbound.config.proxy == outbound.id
           || outbound.config.proxy !in table || !TcpCapable(table[outbound.config.proxy].protocol) {
          assert outbound in items;
          return false, proxies;
        }
        proxies := proxies[outbound.id := outbound.config.proxy];
      }
    }
    forall id | id in table && table[id].protocol.Dns?
      ensures Recorded(table[id], proxies)
    {
      assert Recorded(table[id], proxies) by {
        var j :| 0 <= j < |items| && items[j] == table[id];
      }
    }
    return true, proxies;
  }

  method CheckRoute(route: ClientRoute, outbounds: Table, dnsProxies: map<string, string>) returns (ok: bool)
    requires forall id :: id in outbounds && outbounds[id].protocol.Dns? ==> Recorded(outbounds[id], dnsProxies)
    requires forall id :: id in outbounds ==> outbounds[id].id == id && id != ""
    ensures ok <==> ValidRoute(route, outbounds)
  {
    if route.clientID == "" {
      return false;
    }
    if (route.tcp == "") == !route.blockTCP || (route.udp == "") == !route.blockUDP {
      return false;
    }
    if !route.blockTCP && (route.tcp !in outbounds || !TcpCapable(outbounds[route.tcp].protocol)) {
      return false;
    }
    if !route.blockUDP && (route.udp !in outbounds || !outbounds[route.udp].protocol.Vless?) {
      return false;
    }
    if route.dns != "" {
      if route.dns !in outbounds || !outbounds[route.dns].protocol.Dns? || dnsProxies[route.dns] != route.tcp {
        return false;
      }
    }
    if route.tcpReserve != "" {
      if route.blockTCP || route.tcp == "" || route.tcpReserve == route.tcp
         || route.tcpReserve !in outbounds || !TcpCapable(outbounds[route.tcpReserve].protocol) {
        return false;
      }
    }
    if route.udpReserve != "" {
      if route.blockUDP || route.udp == "" || route.udpReserve == route.udp
         || route.udpReserve !in outbounds || !outbounds[route.udpReserve].protocol.Vless? {
        return false;
      }
    }
    return true;
  }

  // An installed routing rule: the handlers a client's traffic is sent to ("" is
  // blocked). Reserves are preloaded handlers and appear in no rule.
  datatype Rule = Rule(clientID: string, source: Source, tcp: string, udp: string, dns: string) {
    function Uses(): set<string> {
      {tcp, udp, dns} - {""}
    }
  }

  function Render(r: ClientRoute): Rule {
    Rule(r.clientID, r.source,
         if r.blockTCP then "" else r.tcp,
         if r.blockUDP then "" else r.udp,
         if r.blockTCP then "" else r.dns)
  }

  function Rules(routes: seq<ClientRoute>): set<Rule> {
    set r | r in routes :: Render(r)
  }

  // A rule is served by a table when every handler it uses is there and its DNS
  // handler dials through the handler that carries the client's TCP traffic.
  predicate ServedBy(rule: Rule, table: Table) {
    && rule.Uses() <= table.Keys
    && (rule.dns != "" ==> rule.tcp != "" && table[rule.dns].config == DialsThrough(rule.tcp))
  }

  lemma ValidPlanServesItsRules(plan: DesiredPlan, rule: Rule)
    requires ValidPlan(plan) && rule in Rules(plan.clients)
    ensures ServedBy(rule, ById(plan.outbounds))
  {
    ByIdFacts(plan.outbounds);
    var r :| r in plan.clients && rule == Render(r);
    assert ValidRoute(r, ById(plan.outbounds));
    if rule.dns != "" {
      var dns := ById(plan.outbounds)[rule.dns];
      assert Dialable(dns, ById(plan.outbounds));
    }
  }
}
