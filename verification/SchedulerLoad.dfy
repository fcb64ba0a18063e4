// The scheduler's book-keeping of load: counts kept up to date client by client are
// what counting from scratch gives, and the choice among candidates does not depend
// on the order in which they are listed.
module SchedulerLoad {
  import Strings

  datatype Candidate = Candidate(id: string, failureDomain: string, qoeQuality: real, qoeEffective: real, score: real)

  datatype Assignment = Assignment(tcp: string, udp: string)

  // A client is active when its last traffic is recent enough.
  datatype Client = Client(id: string, active: bool, assignment: Assignment)

  type Counts = map<string, int>

  function At(counts: Counts, key: string): int {
    if key in counts then counts[key] else 0
  }

  function LegacyDomain(id: string): string {
    "legacy-candidate:" + id
  }

  function CandidateDomain(c: Candidate): string {
    if c.failureDomain != "" then c.failureDomain else LegacyDomain(c.id)
  }

  function Domain(id: string, byID: map<string, Candidate>): string {
    if id in byID then CandidateDomain(byID[id]) else LegacyDomain(id)
  }

  // ---------- What the counts mean ----------

  // An assignment burdens a candidate, or a domain, at most once.
  function Burden(a: Assignment, id: string): int {
    if id != "" && (a.tcp == id || a.udp == id) then 1 else 0
  }

  function DomainBurden(a: Assignment, domain: string, byID: map<string, Candidate>): int {
    if (a.tcp != "" && Domain(a.tcp, byID) == domain) || (a.udp != "" && Domain(a.udp, byID) == domain) then 1 else 0
  }

  function LoadOf(clients: seq<Client>, id: string): int {
    if clients == [] then 0
    else
      var last := clients[|clients| - 1];
      LoadOf(clients[..|clients| - 1], id) + if last.active then Burden(last.assignment, id) else 0
  }

  function DomainLoadOf(clients: seq<Client>, domain: string, byID: map<string, Candidate>): int {
    if clients == [] then 0
    else
      var last := clients[|clients| - 1];
      DomainLoadOf(clients[..|clients| - 1], domain, byID) + if last.active then DomainBurden(last.assignment, domain, byID) else 0
  }

  ghost predicate CountsAre(load: Counts, clients: seq<Client>) {
    forall id :: At(load, id) == LoadOf(clients, id)
  }

  ghost predicate DomainCountsAre(load: Counts, clients: seq<Client>, byID: map<string, Candidate>) {
    forall domain :: At(load, domain) == DomainLoadOf(clients, domain, byID)
  }

  lemma {:induction false} LoadConcat(a: seq<Client>, b: seq<Client>, id: string)
    ensures LoadOf(a + b, id) == LoadOf(a, id) + LoadOf(b, id)
  {
    if b == [] {
      assert a + b == a;
    } else {
      assert (a + b)[..|a + b| - 1] == a + b[..|b| - 1];
      LoadConcat(a, b[..|b| - 1], id);
    }
  }

  lemma {:induction false} DomainLoadConcat(a: seq<Client>, b: seq<Client>, domain: string, byID: map<string, Candidate>)
    ensures DomainLoadOf(a + b, domain, byID) == DomainLoadOf(a, domain, byID) + DomainLoadOf(b, domain, byID)
  {
    if b == [] {
      assert a + b == a;
    } else {
      assert (a + b)[..|a + b| - 1] == a + b[..|b| - 1];
      DomainLoadConcat(a, b[..|b| - 1], domain, byID);
    }
  }

  // Exchanging one client changes each count by what the two clients burden.
  lemma Exchanged(clients: seq<Client>, k: nat, client: Client, id: string)
    requires k < |clients|
    ensures LoadOf(clients[k := client], id) == LoadOf(clients, id) - LoadOf([clients[k]], id) + LoadOf([client], id)
  {
    var before, after := clients[..k], clients[k + 1..];
    assert clients == before + [clients[k]] + after && clients[k := client] == before + [client] + after;
    LoadConcat(before + [clients[k]], after, id);
    LoadConcat(before + [client], after, id);
    LoadConcat(before, [clients[k]], id);
    LoadConcat(before, [client], id);
  }

  lemma DomainExchanged(clients: seq<Client>, k: nat, client: Client, domain: string, byID: map<string, Candidate>)
    requires k < |clients|
    ensures DomainLoadOf(clients[k := client], domain, byID) ==
            DomainLoadOf(clients, domain, byID) - DomainLoadOf([clients[k]], domain, byID) + DomainLoadOf([client], domain, byID)
  {
    var before, after := clients[..k], clients[k + 1..];
    assert clients == before + [clients[k]] + after && clients[k := client] == before + [client] + after;
    DomainLoadConcat(before + [clients[k]], after, domain, byID);
    DomainLoadConcat(before + [client], after, domain, byID);
    DomainLoadConcat(before, [clients[k]], domain, byID);
    DomainLoadConcat(before, [client], domain, byID);
  }

  // ---------- Counting from scratch ----------

  function AssignmentsOf(clients: seq<Client>): map<string, Assignment> {
    if clients == [] then map[]
    else AssignmentsOf(clients[..|clients| - 1])[clients[|clients| - 1].id := clients[|clients| - 1].assignment]
  }

  predicate DistinctIDs(clients: seq<Client>) {
    forall i, j :: 0 <= i < j < |clients| ==> clients[i].id != clients[j].id
  }

  // The clients with the assignments looked up by their IDs.
  function Reassigned(clients: seq<Client>, assignments: map<string, Assignment>): seq<Client> {
    seq(|clients|, i requires 0 <= i < |clients| =>
      if clients[i].id in assignments then clients[i].(assignment := assignments[clients[i].id])
      else clients[i].(assignment := Assignment("", "")))
  }

  method LoadFromAssignments(clients: seq<Client>, assignments: map<string, Assignment>) returns (result: Counts)
    ensures CountsAre(result, Reassigned(clients, assignments))
  {
    result := map[];
    ghost var all := Reassigned(clients, assignments);
    for i := 0 to |clients|
      invariant CountsAre(result, all[..i])
    {
      assert all[..i + 1][..i] == all[..i];
      if clients[i].active {
        var assignment := if clients[i].id in assignments then assignments[clients[i].id] else Assignment("", "");
        if assignment.tcp != "" {
          result := result[assignment.tcp := At(result, assignment.tcp) + 1];
        }
        if assignment.udp != "" && assignment.udp != assignment.tcp {
          result := result[assignment.udp := At(result, assignment.udp) + 1];
        }
      }
    }
    assert all[..|all|] == all;
  }

  lemma {:induction false} AssignmentsFacts(clients: seq<Client>)
    requires DistinctIDs(clients)
    ensures forall k :: 0 <= k < |clients| ==>
      clients[k].id in AssignmentsOf(clients) && AssignmentsOf(clients)[clients[k].id] == clients[k].assignment
  {
    if clients != [] {
      AssignmentsFacts(clients[..|clients| - 1]);
    }
  }

  method ActiveLoad(clients: seq<Client>) returns (result: Counts)
    requires DistinctIDs(clients)
    ensures CountsAre(result, clients)
  {
    var assignments: map<string, Assignment> := map[];
    for i := 0 to |clients|
      invariant assignments == AssignmentsOf(clients[..i])
    {
      assert clients[..i + 1][..i] == clients[..i];
      assignments := assignments[clients[i].id := clients[i].assignment];
    }
    assert clients[..|clients|] == clients;
    AssignmentsFacts(clients);
    assert Reassigned(clients, assignments) == clients;
    result := LoadFromAssignments(clients, assignments);
  }

  method ActiveDomainLoad(clients: seq<Client>, byID: map<string, Candidate>) returns (result: Counts)
    ensures DomainCountsAre(result, clients, byID)
  {
    result := map[];
    for i := 0 to |clients|
      invariant DomainCountsAre(result, clients[..i], byID)
    {
      assert clients[..i + 1][..i] == clients[..i];
      if clients[i].active {
        var a := clients[i].assignment;
        var domainTCP := "";
        if a.tcp != "" {
          domainTCP := Domain(a.tcp, byID);
          result := result[domainTCP := At(result, domainTCP) + 1];
        }
        if a.udp != "" {
          var domainUDP := Domain(a.udp, byID);
          if a.tcp == "" || domainUDP != domainTCP {
            result := result[domainUDP := At(result, domainUDP) + 1];
          }
        }
      }
    }
    assert clients[..|clients|] == clients;
  }

  // ---------- Keeping the counts up to date ----------

  class Loads {
    var load: Counts
    var domainLoad: Counts

    constructor (load: Counts, domainLoad: Counts)
      ensures this.load == load && this.domainLoad == domainLoad
    {
      this.load, this.domainLoad := load, domainLoad;
    }

    method Adjust(a: Assignment, byID: map<string, Candidate>, delta: int)
      modifies this
      ensures forall id :: At(load, id) == At(old(load), id) + delta * Burden(a, id)
      ensures forall domain :: At(domainLoad, domain) == At(old(domainLoad), domain) + delta * DomainBurden(a, domain, byID)
    {
      if a.tcp != "" {
        load := load[a.tcp := At(load, a.tcp) + delta];
        var domain := Domain(a.tcp, byID);
        domainLoad := domainLoad[domain := At(domainLoad, domain) + delta];
      }
      if a.udp != "" && a.udp != a.tcp {
        load := load[a.udp := At(load, a.udp) + delta];
      }
      if a.udp != "" {
        var domainUDP := Domain(a.udp, byID);
        if a.tcp == "" || domainUDP != Domain(a.tcp, byID) {
          domainLoad := domainLoad[domainUDP := At(domainLoad, domainUDP) + delta];
        }
      }
    }

    ghost predicate Count(clients: seq<Client>, byID: map<string, Candidate>)
      reads this
    {
      CountsAre(load, clients) && DomainCountsAre(domainLoad, clients, byID)
    }

    // Exchange one client for the same one in or out of the counts.
    method Move(clients: seq<Client>, k: nat, byID: map<string, Candidate>, ghost after: seq<Client>, delta: int)
      requires Count(clients, byID) && k < |clients| && (delta == 1 || delta == -1)
      requires after == if delta == 1 then clients[k := clients[k].(active := true)] else clients[k := Gone(clients[k])]
      requires clients[k].active <==> delta == -1
      modifies this
      ensures Count(after, byID)
    {
      Adjust(clients[k].assignment, byID, delta);
      forall id
        ensures At(load, id) == LoadOf(after, id)
      {
        Exchanged(clients, k, after[k], id);
      }
      forall domain
        ensures At(domainLoad, domain) == DomainLoadOf(after, domain, byID)
      {
        DomainExchanged(clients, k, after[k], domain, byID);
      }
    }

    // One pass over the clients: each is taken out of the counts, given an assignment
    // that may depend on them, and put back. At every choice the counts are those of
    // all the others, and at the end they are those of the new assignments.
    method Reassign(clients: seq<Client>, byID: map<string, Candidate>, choose: (Client, Counts, Counts) -> Assignment)
      returns (next: seq<Client>, ghost seen: seq<(Counts, Counts)>)
      requires Count(clients, byID)
      modifies this
      ensures Count(next, byID) && |next| == |clients| && |seen| == |clients|
      ensures forall k :: 0 <= k < |clients| ==> ChosenFairly(clients, next, seen[k], byID, choose, k)
    {
      next, seen := clients, [];
      for k := 0 to |clients|
        invariant |next| == |clients| && |seen| == k && next[k..] == clients[k..]
        invariant Count(next, byID)
        invariant forall i :: 0 <= i < k ==> ChosenFairly(clients, next, seen[i], byID, choose, i)
      {
        var client := clients[k];
        ghost var before := next;
        assert next[k] == client && before[k + 1..] == clients[k + 1..];
        if client.active {
          Move(next, k, byID, next[k := Gone(client)], -1);
        } else {
          assert next == next[k := Gone(client)];
        }
        var out := next[k := Gone(client)];
        seen := seen + [(load, domainLoad)];
        next := next[k := client.(assignment := choose(client, load, domainLoad))];
        SameWithout(before, next, k, client, this, byID);
        if client.active {
          Move(next[k := Gone(next[k])], k, byID, next, 1);
        } else {
          assert next == next[k := Gone(next[k])];
        }
        assert out == next[..k] + [Gone(client)] + clients[k + 1..];
        forall i | 0 <= i < k
          ensures ChosenFairly(clients, next, seen[i], byID, choose, i)
        {
          assert ChosenFairly(clients, before, seen[i], byID, choose, i);
          assert next[..i] == before[..i];
        }
      }
    }

    // Out of the counts, a client's assignment does not matter.
    lemma SameWithout(before: seq<Client>, next: seq<Client>, k: nat, client: Client, loads: Loads, byID: map<string, Candidate>)
      requires k < |before| && before[k] == client && loads.Count(before[k := Gone(client)], byID)
      requires exists a :: next == before[k := client.(assignment := a)]
      ensures loads.Count(next[k := Gone(next[k])], byID)
    {
      forall id
        ensures At(loads.load, id) == LoadOf(next[k := Gone(next[k])], id)
      {
        Exchanged(before[k := Gone(client)], k, Gone(next[k]), id);
        assert next[k := Gone(next[k])] == before[k := Gone(client)][k := Gone(next[k])];
      }
      forall domain
        ensures At(loads.domainLoad, domain) == DomainLoadOf(next[k := Gone(next[k])], domain, byID)
      {
        DomainExchanged(before[k := Gone(client)], k, Gone(next[k]), domain, byID);
        assert next[k := Gone(next[k])] == before[k := Gone(client)][k := Gone(next[k])];
      }
    }
  }

  // The choice for a client was made from the counts of all the others: new
  // assignments before it, old ones after it.
  ghost predicate ChosenFairly(clients: seq<Client>, next: seq<Client>, seen: (Counts, Counts), byID: map<string, Candidate>,
                               choose: (Client, Counts, Counts) -> Assignment, k: int)
    requires 0 <= k < |clients| == |next|
  {
    var others := next[..k] + [Gone(clients[k])] + clients[k + 1..];
    && next[k] == clients[k].(assignment := choose(clients[k], seen.0, seen.1))
    && CountsAre(seen.0, others) && DomainCountsAre(seen.1, others, byID)
  }

  // A client taken out of the counts.
  function Gone(c: Client): Client {
    c.(active := false)
  }

  // ---------- The choice among candidates ----------

  function Quality(c: Candidate): real {
    if c.qoeQuality > 0.0 then c.qoeQuality
    else if c.qoeEffective > 0.0 then 1.0 / c.qoeEffective
    else c.score
  }

  // Whether two candidates are one physical route, and a hash of a key and an ID in
  // the unit interval, are the business of other parts.
  datatype Rules = Rules(sameRoute: (Candidate, Candidate) -> bool, hash: (string, string) -> real)

  function Shared(c: Candidate, inventory: seq<Candidate>, load: Counts, rules: Rules): int {
    if inventory == [] then 0
    else
      var other := inventory[|inventory| - 1];
      Shared(c, inventory[..|inventory| - 1], load, rules)
      + if other.id != c.id && rules.sameRoute(c, other) then At(load, other.id) else 0
  }

  // The load of a physical route, over all entries that stand for it.
  function RouteLoad(c: Candidate, inventory: seq<Candidate>, load: Counts, rules: Rules): int {
    At(load, c.id) + Shared(c, inventory, load, rules)
  }

  ghost predicate IsBest(best: real, eligible: seq<Candidate>) {
    && (forall c :: c in eligible ==> Quality(c) <= best)
    && (best == 0.0 || exists c :: c in eligible && Quality(c) == best) && best >= 0.0
  }

  predicate HasSpare(c: Candidate, best: real, inventory: seq<Candidate>, load: Counts, rules: Rules) {
    Quality(c) >= best * 0.8 && RouteLoad(c, inventory, load, rules) < 2
  }

  // Who stays in the running: those with spare capacity, or everybody when none has.
  ghost predicate PreferredBy(best: real, pool: seq<Candidate>, eligible: seq<Candidate>, inventory: seq<Candidate>,
                              load: Counts, rules: Rules) {
    if exists c :: c in eligible && HasSpare(c, best, inventory, load, rules)
    then forall c :: c in pool <==> c in eligible && HasSpare(c, best, inventory, load, rules)
    else forall c :: c in pool <==> c in eligible
  }

  ghost predicate Preferred(pool: seq<Candidate>, eligible: seq<Candidate>, inventory: seq<Candidate>, load: Counts, rules: Rules) {
    exists best :: IsBest(best, eligible) && PreferredBy(best, pool, eligible, inventory, load, rules)
  }

  method SharedLoad(c: Candidate, inventory: seq<Candidate>, load: Counts, rules: Rules) returns (count: int)
    ensures count == RouteLoad(c, inventory, load, rules)
  {
    count := At(load, c.id);
    for i := 0 to |inventory|
      invariant count == At(load, c.id) + Shared(c, inventory[..i], load, rules)
    {
      assert inventory[..i + 1][..i] == inventory[..i];
      var other := inventory[i];
      if other.id != c.id && rules.sameRoute(c, other) {
        count := count + At(load, other.id);
      }
    }
    assert inventory[..|inventory|] == inventory;
  }

  method BestQuality(eligible: seq<Candidate>) returns (best: real)
    ensures IsBest(best, eligible)
  {
    best := 0.0;
    for i := 0 to |eligible|
      invariant IsBest(best, eligible[..i])
    {
      assert eligible[..i + 1] == eligible[..i] + [eligible[i]];
      if Quality(eligible[i]) > best {
        best := Quality(eligible[i]);
        assert eligible[i] in eligible[..i + 1];
      }
    }
    assert eligible[..|eligible|] == eligible;
  }

  method PreferSpareCapacity(eligible: seq<Candidate>, inventory: seq<Candidate>, load: Counts, rules: Rules)
    returns (pool: seq<Candidate>)
    ensures Preferred(pool, eligible, inventory, load, rules)
  {
    var best := BestQuality(eligible);
    var spare: seq<Candidate> := [];
    for i := 0 to |eligible|
      invariant forall c :: c in spare <==> c in eligible[..i] && HasSpare(c, best, inventory, load, rules)
    {
      assert eligible[..i + 1] == eligible[..i] + [eligible[i]];
      var routeLoad := SharedLoad(eligible[i], inventory, load, rules);
      if Quality(eligible[i]) >= best * 0.8 && routeLoad < 2 {
        spare := spare + [eligible[i]];
      }
    }
    assert eligible[..|eligible|] == eligible;
    if |spare| > 0 {
      assert spare[0] in spare;
      return spare;
    }
    return eligible;
  }

  // Quality, discounted by load, with a little of the hash to break up ties.
  function Score(key: string, c: Candidate, load: Counts, domainLoad: Counts, rules: Rules): real
    requires At(load, c.id) >= 0 && At(domainLoad, CandidateDomain(c)) >= 0
  {
    var quality := if Quality(c) > 0.001 then Quality(c) else 0.001;
    quality / (1.0 + 0.05 * At(load, c.id) as real + 0.02 * At(domainLoad, CandidateDomain(c)) as real)
    * (1.0 + 0.01 * rules.hash(key, c.id))
  }

  ghost predicate NonNegative(load: Counts) {
    forall id :: At(load, id) >= 0
  }

  // The counts the scheduler keeps are never negative.
  lemma CountsAreNatural(load: Counts, domainLoad: Counts, clients: seq<Client>, byID: map<string, Candidate>)
    requires CountsAre(load, clients) && DomainCountsAre(domainLoad, clients, byID)
    ensures NonNegative(load) && NonNegative(domainLoad)
  {
    forall id
      ensures At(load, id) >= 0 && At(domainLoad, id) >= 0
    {
      LoadIsNatural(clients, id, byID);
    }
  }

  lemma {:induction false} LoadIsNatural(clients: seq<Client>, id: string, byID: map<string, Candidate>)
    ensures LoadOf(clients, id) >= 0 && DomainLoadOf(clients, id, byID) >= 0
  {
    if clients != [] {
      LoadIsNatural(clients[..|clients| - 1], id, byID);
    }
  }

  ghost predicate Wins(c: Candidate, pool: seq<Candidate>, key: string, load: Counts, domainLoad: Counts, rules: Rules)
    requires NonNegative(load) && NonNegative(domainLoad)
  {
    && c in pool
    && forall other :: other in pool ==>
         Score(key, other, load, domainLoad, rules) < Score(key, c, load, domainLoad, rules)
         || (Score(key, other, load, domainLoad, rules) == Score(key, c, load, domainLoad, rules)
             && (other.id == c.id || Strings.Less(c.id, other.id)))
  }

  ghost predicate IsChoice(choice: string, key: string, candidates: seq<Candidate>, load: Counts, domainLoad: Counts, rules: Rules)
    requires NonNegative(load) && NonNegative(domainLoad)
  {
    if candidates == [] then choice == ""
    else exists pool, c ::
      Preferred(pool, candidates, candidates, load, rules) && Wins(c, pool, key, load, domainLoad, rules) && choice == c.id
  }

  method Rendezvous(key: string, candidates: seq<Candidate>, load: Counts, domainLoad: Counts, rules: Rules)
    returns (selected: string)
    requires NonNegative(load) && NonNegative(domainLoad)
    requires forall k, id :: 0.0 <= rules.hash(k, id) <= 1.0
    ensures IsChoice(selected, key, candidates, load, domainLoad, rules)
  {
    if |candidates| == 0 {
      return "";
    }
    var pool := PreferSpareCapacity(candidates, candidates, load, rules);
    PoolIsNotEmpty(pool, candidates, load, rules);
    ghost var winner := pool[0];
    selected := "";
    var bestScore := -1.0;
    for i := 0 to |pool|
      invariant if i == 0 then bestScore == -1.0 && selected == "" else
        && Wins(winner, pool[..i], key, load, domainLoad, rules)
        && selected == winner.id && bestScore == Score(key, winner, load, domainLoad, rules)
    {
      var c := pool[i];
      var score := Score(key, c, load, domainLoad, rules);
      ScoreIsPositive(key, c, load, domainLoad, rules);
      assert pool[..i + 1] == pool[..i] + [c];
      if i > 0 {
        StillWins(winner, pool[..i], c, key, load, domainLoad, rules);
      }
      if score > bestScore || (score == bestScore && Strings.Less(c.id, selected)) {
        bestScore, selected, winner := score, c.id, c;
      }
    }
    assert pool[..|pool|] == pool;
  }

  lemma PoolIsNotEmpty(pool: seq<Candidate>, candidates: seq<Candidate>, load: Counts, rules: Rules)
    requires Preferred(pool, candidates, candidates, load, rules) && candidates != []
    ensures pool != []
  {
    var best :| IsBest(best, candidates) && PreferredBy(best, pool, candidates, candidates, load, rules);
    assert candidates[0] in candidates;
  }

  lemma ScoreIsPositive(key: string, c: Candidate, load: Counts, domainLoad: Counts, rules: Rules)
    requires At(load, c.id) >= 0 && At(domainLoad, CandidateDomain(c)) >= 0 && 0.0 <= rules.hash(key, c.id) <= 1.0
    ensures Score(key, c, load, domainLoad, rules) > 0.0
  {
    var quality := if Quality(c) > 0.001 then Quality(c) else 0.001;
    var discount := 1.0 + 0.05 * At(load, c.id) as real + 0.02 * At(domainLoad, CandidateDomain(c)) as real;
    assert quality / discount > 0.0;
  }

  lemma StillWins(winner: Candidate, pool: seq<Candidate>, c: Candidate, key: string, load: Counts, domainLoad: Counts, rules: Rules)
    requires NonNegative(load) && NonNegative(domainLoad) && Wins(winner, pool, key, load, domainLoad, rules)
    ensures var mine, best := Score(key, c, load, domainLoad, rules), Score(key, winner, load, domainLoad, rules);
      Wins(if mine > best || (mine == best && Strings.Less(c.id, winner.id)) then c else winner, pool + [c], key, load, domainLoad, rules)
  {
    Strings.LessIsTotal(c.id, winner.id);
    forall other | other in pool && Strings.Less(c.id, winner.id) && Strings.Less(winner.id, other.id)
      ensures Strings.Less(c.id, other.id)
    {
      Strings.LessIsTransitive(c.id, winner.id, other.id);
    }
  }

  // ---------- The choice does not depend on the order ----------

  lemma {:induction false} SharedConcat(c: Candidate, a: seq<Candidate>, b: seq<Candidate>, load: Counts, rules: Rules)
    ensures Shared(c, a + b, load, rules) == Shared(c, a, load, rules) + Shared(c, b, load, rules)
  {
    if b == [] {
      assert a + b == a;
    } else {
      assert (a + b)[..|a + b| - 1] == a + b[..|b| - 1];
      SharedConcat(c, a, b[..|b| - 1], load, rules);
    }
  }

  lemma {:induction false} SharedPermuted(c: Candidate, a: seq<Candidate>, b: seq<Candidate>, load: Counts, rules: Rules)
    requires multiset(a) == multiset(b)
    ensures Shared(c, a, load, rules) == Shared(c, b, load, rules)
    decreases |a|
  {
    if a == [] {
      assert |multiset(b)| == |b|;
    } else {
      var rest, last := a[..|a| - 1], a[|a| - 1];
      assert a == rest + [last];
      assert last in multiset(a) && last in multiset(b);
      var i :| 0 <= i < |b| && b[i] == last;
      var before, after := b[..i], b[i + 1..];
      assert b == before + [last] + after;
      assert multiset(a) == multiset(rest) + multiset{last};
      assert multiset(b) == multiset(before) + multiset{last} + multiset(after);
      assert multiset(before + after) == multiset(b) - multiset{last};
      assert multiset(rest) == multiset(a) - multiset{last};
      SharedPermuted(c, rest, before + after, load, rules);
      SharedConcat(c, before + [last], after, load, rules);
      SharedConcat(c, before, [last], load, rules);
      SharedConcat(c, before, after, load, rules);
      SharedConcat(c, rest, [last], load, rules);
    }
  }

  lemma BestIsUnique(x: real, y: real, a: seq<Candidate>, b: seq<Candidate>)
    requires IsBest(x, a) && IsBest(y, b) && forall c :: c in a <==> c in b
    ensures x == y
  {
  }

  lemma PreferredPermuted(p: seq<Candidate>, q: seq<Candidate>, a: seq<Candidate>, b: seq<Candidate>, load: Counts, rules: Rules)
    requires multiset(a) == multiset(b) && Preferred(p, a, a, load, rules) && Preferred(q, b, b, load, rules)
    ensures forall c :: c in p <==> c in q
  {
    assert forall c :: c in a <==> c in multiset(a);
    assert forall c :: c in b <==> c in multiset(b);
    var x :| IsBest(x, a) && PreferredBy(x, p, a, a, load, rules);
    var y :| IsBest(y, b) && PreferredBy(y, q, b, b, load, rules);
    BestIsUnique(x, y, a, b);
    forall c
      ensures HasSpare(c, x, a, load, rules) <==> HasSpare(c, x, b, load, rules)
    {
      SharedPermuted(c, a, b, load, rules);
    }
    SamePreference(x, p, q, a, b, load, rules);
  }

  lemma SamePreference(best: real, p: seq<Candidate>, q: seq<Candidate>, a: seq<Candidate>, b: seq<Candidate>, load: Counts, rules: Rules)
    requires forall c :: c in a <==> c in b
    requires forall c :: HasSpare(c, best, a, load, rules) <==> HasSpare(c, best, b, load, rules)
    requires PreferredBy(best, p, a, a, load, rules) && PreferredBy(best, q, b, b, load, rules)
    ensures forall c :: c in p <==> c in q
  {
  }

  // However the candidates are listed, the same one is chosen.
  lemma ChoiceIsOrderFree(x: string, y: string, key: string, a: seq<Candidate>, b: seq<Candidate>,
                          load: Counts, domainLoad: Counts, rules: Rules)
    requires NonNegative(load) && NonNegative(domainLoad) && multiset(a) == multiset(b)
    requires IsChoice(x, key, a, load, domainLoad, rules) && IsChoice(y, key, b, load, domainLoad, rules)
    ensures x == y
  {
    assert |multiset(a)| == |a| && |multiset(b)| == |b|;
    if a != [] {
      var p, c :| Preferred(p, a, a, load, rules) && Wins(c, p, key, load, domainLoad, rules) && x == c.id;
      var q, d :| Preferred(q, b, b, load, rules) && Wins(d, q, key, load, domainLoad, rules) && y == d.id;
      PreferredPermuted(p, q, a, b, load, rules);
      SameWinner(c, d, p, q, key, load, domainLoad, rules);
    }
  }

  lemma SameWinner(c: Candidate, d: Candidate, p: seq<Candidate>, q: seq<Candidate>, key: string,
                   load: Counts, domainLoad: Counts, rules: Rules)
    requires NonNegative(load) && NonNegative(domainLoad) && forall x :: x in p <==> x in q
    requires Wins(c, p, key, load, domainLoad, rules) && Wins(d, q, key, load, domainLoad, rules)
    ensures c.id == d.id
  {
    Strings.LessIsTotal(c.id, d.id);
  }
}
