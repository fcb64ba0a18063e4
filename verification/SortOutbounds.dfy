// The order in which handlers are added and removed: DNS handlers last when adding
// and first when removing, and by ID within a layer.
module SortOutbounds {
  import opened Plan
  import Strings

  function AddLayer(o: Outbound): int {
    if o.protocol.Dns? then 1 else 0
  }

  function RemovalLayer(o: Outbound): int {
    if o.protocol.Dns? then 0 else 1
  }

  predicate Goes(left: Outbound, right: Outbound, layer: Outbound -> int) {
    layer(left) < layer(right) || (layer(left) == layer(right) && Strings.Less(left.id, right.id))
  }

  function Insert(o: Outbound, sorted: seq<Outbound>, layer: Outbound -> int): seq<Outbound> {
    if sorted == [] || Goes(o, sorted[0], layer) then [o] + sorted
    else [sorted[0]] + Insert(o, sorted[1..], layer)
  }

  function Sort(items: seq<Outbound>, layer: Outbound -> int): seq<Outbound> {
    if items == [] then [] else Insert(items[0], Sort(items[1..], layer), layer)
  }

  predicate Layered(items: seq<Outbound>, layer: Outbound -> int) {
    forall i, j :: 0 <= i < j < |items| ==> layer(items[i]) <= layer(items[j])
  }

  lemma {:induction false} InsertMembers(o: Outbound, sorted: seq<Outbound>, layer: Outbound -> int)
    ensures forall x :: x in Insert(o, sorted, layer) <==> x == o || x in sorted
  {
    if sorted != [] && !Goes(o, sorted[0], layer) {
      InsertMembers(o, sorted[1..], layer);
      assert sorted == [sorted[0]] + sorted[1..];
    }
  }

  lemma PutInFront(first: Outbound, rest: seq<Outbound>, layer: Outbound -> int)
    requires DistinctIds(rest) && Layered(rest, layer)
    requires forall x :: x in rest ==> x.id != first.id && layer(first) <= layer(x)
    ensures DistinctIds([first] + rest) && Layered([first] + rest, layer)
  {
  }

  lemma {:induction false} InsertFacts(o: Outbound, sorted: seq<Outbound>, layer: Outbound -> int)
    requires DistinctIds(sorted) && Layered(sorted, layer)
    requires forall x :: x in sorted ==> x.id != o.id
    ensures DistinctIds(Insert(o, sorted, layer)) && Layered(Insert(o, sorted, layer), layer)
    ensures forall x :: x in Insert(o, sorted, layer) <==> x == o || x in sorted
  {
    InsertMembers(o, sorted, layer);
    if sorted == [] || Goes(o, sorted[0], layer) {
      PutInFront(o, sorted, layer);
    } else {
      InsertFacts(o, sorted[1..], layer);
      PutInFront(sorted[0], Insert(o, sorted[1..], layer), layer);
    }
  }

  lemma {:induction false} SortFacts(items: seq<Outbound>, layer: Outbound -> int)
    requires DistinctIds(items)
    ensures DistinctIds(Sort(items, layer)) && Layered(Sort(items, layer), layer)
    ensures forall x :: x in Sort(items, layer) <==> x in items
  {
    if items != [] {
      SortFacts(items[1..], layer);
      assert forall x :: x in items[1..] ==> x.id != items[0].id;
      InsertFacts(items[0], Sort(items[1..], layer), layer);
    }
  }
}
