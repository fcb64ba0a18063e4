// The placement worker's inputs: a priority queue that holds each reason at most
// once, and a mailbox that keeps the most urgent hard failure.
module PlacementQueue {
  import opened Wrappers
  import Strings

  datatype Reason = HardFailure | QoEDegraded | Manual | ClientLifecycle | Promotion | StartupNormalization | Periodic

  function Name(reason: Reason): string {
    match reason
    case HardFailure => "hard_failure"
    case QoEDegraded => "qoe_degraded"
    case Manual => "manual_reassign"
    case ClientLifecycle => "client_lifecycle"
    case Promotion => "pool_promotion"
    case StartupNormalization => "startup_normalization"
    case Periodic => "periodic"
  }

  function Priority(reason: Reason): nat {
    match reason
    case HardFailure => 0
    case QoEDegraded => 1
    case Manual => 2
    case ClientLifecycle => 3
    case Promotion => 4
    case _ => 5
  }

  predicate Less(left: Reason, right: Reason) {
    if Priority(left) == Priority(right) then Strings.Less(Name(left), Name(right)) else Priority(left) < Priority(right)
  }

  function Place(reason: Reason): nat {
    match reason
    case HardFailure => 0
    case QoEDegraded => 1
    case Manual => 2
    case ClientLifecycle => 3
    case Promotion => 4
    case Periodic => 5
    case StartupNormalization => 6
  }

  // The order has no ties, so what comes next depends on the contents alone.
  lemma PeriodicFirst()
    ensures Strings.Less("periodic", "startup_normalization") && !Strings.Less("startup_normalization", "periodic")
  {
    assert "periodic"[0] < "startup_normalization"[0];
  }

  lemma LessIsByPlace(a: Reason, b: Reason)
    ensures Less(a, b) <==> Place(a) < Place(b)
  {
    if a == b {
      Strings.LessIsTotal(Name(a), Name(b));
    } else if Priority(a) == Priority(b) {
      PeriodicFirst();
    }
  }

  ghost predicate Next(contents: set<Reason>, r: Reason) {
    r in contents && forall other :: other in contents ==> Place(r) <= Place(other)
  }

  lemma NextIsLeast(contents: set<Reason>, r: Reason)
    ensures Next(contents, r) <==> r in contents && forall other :: other in contents && other != r ==> Less(r, other)
  {
    forall other
      ensures Less(r, other) <==> Place(r) < Place(other)
    {
      LessIsByPlace(r, other);
    }
  }

  lemma HardFailureIsNext(contents: set<Reason>, r: Reason)
    requires Next(contents, r) && HardFailure in contents
    ensures r == HardFailure
  {
  }

  class PlacementQueue {
    var items: seq<Reason>
    var pending: set<Reason>

    ghost predicate Valid()
      reads this
    {
      && (forall i, j :: 0 <= i < j < |items| ==> items[i] != items[j])
      && (forall r :: r in pending <==> r in items)
    }

    constructor ()
      ensures Valid() && pending == {}
    {
      items, pending := [], {};
    }

    method Enqueue(reason: Reason)
      requires Valid()
      modifies this
      ensures Valid() && pending == old(pending) + {reason}
    {
      if reason in pending {
        return;
      }
      pending := pending + {reason};
      items := items + [reason];
    }

    // The heap gives up its least element.
    method Pop() returns (reason: Option<Reason>)
      requires Valid()
      modifies this
      ensures Valid()
      ensures reason.None? <==> old(pending) == {}
      ensures reason.None? ==> pending == {}
      ensures reason.Some? ==> Next(old(pending), reason.value) && pending == old(pending) - {reason.value}
    {
      if |items| == 0 {
        assert pending == {};
        return None;
      }
      var least := 0;
      for i := 1 to |items|
        invariant items == old(items) && pending == old(pending)
        invariant 0 <= least < i <= |items|
        invariant forall k :: 0 <= k < i ==> Place(items[least]) <= Place(items[k])
      {
        LessIsByPlace(items[i], items[least]);
        if Less(items[i], items[least]) {
          least := i;
        }
      }
      reason := Some(items[least]);
      assert items[least] in items;
      RemoveAt(least);
    }

    method Take(reason: Reason) returns (taken: bool)
      requires Valid()
      modifies this
      ensures Valid() && taken == (reason in old(pending)) && pending == old(pending) - {reason}
    {
      if reason !in pending {
        return false;
      }
      for i := 0 to |items|
        invariant items == old(items) && pending == old(pending)
        invariant reason !in items[..i]
      {
        if items[i] == reason {
          RemoveAt(i);
          return true;
        }
      }
      return false;
    }

    method RemoveAt(i: nat)
      requires Valid() && i < |items|
      modifies this
      ensures Valid() && pending == old(pending) - {old(items)[i]}
    {
      ghost var before := items;
      pending := pending - {items[i]};
      items := items[..i] + items[i + 1..];
      forall r
        ensures r in items <==> r in before && r != before[i]
      {
        if r in before && r != before[i] {
          var k :| 0 <= k < |before| && before[k] == r;
          assert items[if k < i then k else k - 1] == r;
        }
      }
    }
  }

  // ---------- The mailbox of hard failures ----------

  // A deadline of 0 is a time that was never set.
  datatype HardFailureEvent = HardFailureEvent(candidate: string, deadline: nat)

  // The more urgent of two; the first one when they tie.
  function Earlier(a: Option<HardFailureEvent>, b: Option<HardFailureEvent>): Option<HardFailureEvent> {
    if b.None? || (a.Some? && a.value.deadline <= b.value.deadline) then a else b
  }

  // What a holder of one event stands for: a set of failures none of which is more
  // urgent than the event it kept.
  ghost predicate StandsFor(holder: Option<HardFailureEvent>, failures: set<HardFailureEvent>) {
    if holder.None? then failures == {}
    else holder.value in failures && forall f :: f in failures ==> holder.value.deadline <= f.deadline
  }

  lemma EarlierStandsForBoth(a: Option<HardFailureEvent>, b: Option<HardFailureEvent>,
                             fa: set<HardFailureEvent>, fb: set<HardFailureEvent>)
    requires StandsFor(a, fa) && StandsFor(b, fb)
    ensures StandsFor(Earlier(a, b), fa + fb)
  {
  }

  class HardFailureMailbox {
    var pending: Option<HardFailureEvent>
    var wake: bool

    constructor ()
      ensures pending == None && !wake
    {
      pending, wake := None, false;
    }

    method Publish(event: HardFailureEvent)
      modifies this
      ensures event.deadline == 0 ==> pending == old(pending) && wake == old(wake)
      ensures event.deadline != 0 ==> pending == Earlier(old(pending), Some(event)) && wake
    {
      if event.deadline == 0 {
        return;
      }
      if pending.None? || event.deadline < pending.value.deadline {
        pending := Some(event);
      }
      wake := true;
    }

    method Pop() returns (event: Option<HardFailureEvent>)
      modifies this
      ensures event == old(pending) && pending == None && wake == old(wake)
    {
      event := pending;
      pending := None;
    }
  }
}
