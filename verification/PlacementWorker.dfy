// The placement worker: one goroutine that runs placements one at a time, lets hard
// failures preempt everything else, and retries what failed for a while.
module PlacementWorker {
  import opened Wrappers
  import opened PlacementQueue

  type Failure = HardFailureEvent

  // How a placement ended: `Halted` is a context that was cancelled or ran out.
  datatype Ending = Done | Halted | CoverageTemporary | CoveragePermanent | Retryable | Broken

  datatype Attempt = Attempt(reason: Reason, event: Option<Failure>, canceledForHard: bool)

  datatype Result = Result(reason: Reason, event: Option<Failure>, ending: Ending)

  datatype Retry = Retry(attempt: nat, serial: nat, due: Option<nat>, event: Option<Failure>)

  // ---------- The delay before a retry, in milliseconds ----------

  datatype Intervals = Intervals(retryBase: int, retryMax: int, normalizationRetry: int, preemptTimeout: int)

  function PositiveInterval(value: int, fallback: nat): nat {
    if value <= 0 then fallback else value
  }

  function Doubled(base: nat, times: nat): nat {
    if times == 0 then base else 2 * Doubled(base, times - 1)
  }

  lemma {:induction false} DoubledGrows(base: nat, small: nat, big: nat)
    requires small <= big
    ensures Doubled(base, small) <= Doubled(base, big)
  {
    if small < big {
      DoubledGrows(base, small, big - 1);
    }
  }

  function Cap(base: int, maximum: int): nat {
    var b, m := PositiveInterval(base, 250), PositiveInterval(maximum, 5000);
    if m < b then b else m
  }

  // The base doubled with every attempt, but never above the maximum.
  method RetryDelay(base: int, maximum: int, attempt: nat) returns (delay: nat)
    requires attempt > 0
    ensures delay == var d := Doubled(PositiveInterval(base, 250), attempt - 1); if d < Cap(base, maximum) then d else Cap(base, maximum)
  {
    var b, m := PositiveInterval(base, 250), Cap(base, maximum);
    delay := b;
    var index := 1;
    while index < attempt && delay < m
      invariant 1 <= index <= attempt && delay == Doubled(b, index - 1) && delay <= m
    {
      if delay > m / 2 {
        DoubledGrows(b, index, attempt - 1);
        return m;
      }
      delay := delay * 2;
      index := index + 1;
    }
    DoubledGrows(b, index - 1, attempt - 1);
    if delay > m {
      return m;
    }
  }

  // ---------- Where the published failures are ----------

  // The waiting places, and what became of the others: a placement succeeded in time,
  // the deadline was missed, readiness was withdrawn, or the attempt was halted or
  // broke the worker.
  datatype Ledger = Ledger(published: set<Failure>,
                           mailbox: set<Failure>, pending: set<Failure>, retry: set<Failure>, attempt: set<Failure>,
                           succeeded: set<Failure>, expired: set<Failure>, unready: set<Failure>, dropped: set<Failure>,
                           abandoned: set<Failure>)
  {
    predicate Waits(f: Failure) {
      f in mailbox || f in pending || f in retry || f in attempt
    }

    predicate Has(f: Failure) {
      Waits(f) || f in succeeded || f in expired || f in unready || f in dropped || f in abandoned
    }

    ghost predicate Complete() {
      && (forall f :: f in published ==> Has(f))
      && (forall f :: Waits(f) ==> f.deadline != 0)
    }

    function AdmitRetry(): Ledger { this.(pending := pending + retry) }
    function AdmitMailbox(): Ledger { this.(pending := pending + mailbox, mailbox := {}) }
    function Admit(): Ledger { this.(attempt := pending, pending := {}) }
    function Retain(): Ledger { this.(pending := pending + attempt, attempt := {}) }
    function KeepForRetry(): Ledger { this.(retry := retry + attempt, attempt := {}) }
    function Cleared(): Ledger { this.(retry := {}, attempt := {}) }

    function Settle(ending: Ending): Ledger {
      match ending
      case Done => this.(succeeded := succeeded + attempt).Cleared()
      case CoveragePermanent => this.(unready := unready + attempt).Cleared()
      case Halted => this.(dropped := dropped + attempt).Cleared()
      case Broken => this.(abandoned := abandoned + attempt, attempt := {})
      case _ => KeepForRetry()
    }

    function ExpireRetry(): Ledger { this.(expired := expired + retry, retry := {}) }
    function ExpireAttempt(): Ledger { this.(expired := expired + attempt, attempt := {}) }
    function Expire(): Ledger { ExpireRetry().ExpireAttempt() }

    // The failures that wait somewhere or were given up when their deadline was missed.
    predicate InPlay(f: Failure) { Waits(f) || f in expired }

    // The failures whose attempt ended for good.
    predicate Settled(f: Failure) { f in succeeded || f in unready || f in abandoned }

    predicate OnlyAttempted(f: Failure) { f !in mailbox && f !in pending && f !in expired && !Settled(f) }
  }

  lemma SettlingKeepsAll(l: Ledger, ending: Ending)
    requires l.Complete() && l.retry <= l.attempt
    ensures l.Settle(ending).Complete()
  {
  }

  lemma MovingKeepsAll(l: Ledger)
    requires l.Complete()
    ensures l.AdmitRetry().Complete() && l.AdmitMailbox().Complete() && l.Retain().Complete()
    ensures l.ExpireRetry().Complete() && l.ExpireAttempt().Complete()
    ensures l.KeepForRetry().Complete() && (l.attempt == {} ==> l.Admit().Complete())
  {
  }

  lemma MovingKeepsInPlay(l: Ledger)
    ensures Conserved(l, l.AdmitRetry()) && Conserved(l, l.AdmitMailbox())
    ensures Conserved(l, l.ExpireRetry()) && Conserved(l, l.ExpireAttempt())
    ensures l.attempt == {} ==> Conserved(l, l.Admit())
  {
  }

  // Failures only change their place.
  ghost predicate Conserved(was: Ledger, now: Ledger) {
    forall f :: was.InPlay(f) <==> now.InPlay(f)
  }

  const Nowhere := Ledger({}, {}, {}, {}, {}, {}, {}, {}, {}, {})

  // Everything published is somewhere, and who holds failures holds the most urgent.
  ghost predicate Balanced(l: Ledger, posted: Option<Failure>, pending: Option<Failure>, retry: Option<Failure>) {
    l.Complete() && StandsFor(posted, l.mailbox) && StandsFor(pending, l.pending) && StandsFor(retry, l.retry)
  }

  // At most one placement is under way, and `owed` are the cancelled ones still due.
  ghost predicate Solo(current: Option<Attempt>, results: Option<Result>, running: nat, preemptBy: Option<nat>,
                       deferred: set<Reason>, owed: set<Reason>, l: Ledger) {
    && running == (if current.Some? && results.None? then 1 else 0)
    && (results.Some? ==> current.Some? && results.value.reason == current.value.reason && results.value.event == current.value.event)
    && (preemptBy.Some? <==> current.Some? && current.value.canceledForHard)
    && (if current.Some? && current.value.reason.HardFailure?
        then !current.value.canceledForHard && StandsFor(current.value.event, l.attempt) && l.retry <= l.attempt
        else l.attempt == {})
    && HardFailure !in owed
    && (if preemptBy.Some? then owed == deferred + {current.value.reason} else owed == deferred)
  }

  // A placement as it was started: for which failures, and when.
  datatype Start = Start(reason: Reason, event: Option<Failure>, at: nat, failures: set<Failure>)

  // A hard failure is started before its deadline, which is the earliest of all the
  // failures it is for.
  ghost predicate InTime(s: Start) {
    s.reason.HardFailure? ==>
      StandsFor(s.event, s.failures) && (s.event.Some? ==> s.at < s.event.value.deadline)
  }

  ghost predicate AllInTime(starts: seq<Start>) {
    forall s :: s in starts ==> InTime(s)
  }

  ghost predicate HardEventsOnly(retries: map<Reason, Retry>) {
    forall r :: r in retries && !r.HardFailure? ==> retries[r].event == None
  }

  function RetryEventOf(retries: map<Reason, Retry>): Option<Failure> {
    if HardFailure in retries then retries[HardFailure].event else None
  }

  // What a free worker finds when it looks for something to do.
  datatype Turn = Turn(asked: bool, inHand: Option<Failure>, queued: set<Reason>, posted: Option<Failure>,
                       degraded: bool, started: seq<Start>)

  class Worker {
    const queue: PlacementQueue
    const mailbox: HardFailureMailbox
    const usesMailbox: bool
    const checksCapacity: bool
    const intervals: Intervals
    var clock: nat
    var placementWake: bool
    var current: Option<Attempt>
    var results: Option<Result>
    var pendingHard: Option<Failure>
    var retries: map<Reason, Retry>
    var deferredAfterHard: set<Reason>
    var preemptBy: Option<nat>
    var ordinary: bool
    var degraded: bool
    var stopped: bool

    // Placements that are running, every start so far, reasons whose placement was
    // cancelled for a hard failure and is still due, and where the failures are.
    ghost var running: nat
    ghost var starts: seq<Start>
    ghost var owed: set<Reason>
    ghost var l: Ledger

    ghost predicate Kept()
      reads this, queue, mailbox
    {
      && queue.Valid()
      && Balanced(l, mailbox.pending, pendingHard, RetryEventOf(retries))
      && (!usesMailbox ==> mailbox.pending == None)
      && HardEventsOnly(retries)
      && AllInTime(starts)
    }

    predicate RunsHard()
      reads this
    {
      current.Some? && current.value.reason.HardFailure?
    }

    predicate Preempting()
      reads this
    {
      current.Some? && current.value.canceledForHard
    }

    ghost predicate OneAttempt()
      reads this
    {
      Solo(current, results, running, preemptBy, deferredAfterHard, owed, l)
    }

    // Work that could start, or should preempt, has the worker's attention.
    ghost predicate Attentive()
      reads this, queue
    {
      && (current.None? && (queue.pending != {} || pendingHard.Some?) ==> placementWake)
      && (current.Some? && !RunsHard() && !Preempting() && HardFailure in queue.pending ==> placementWake)
      && PendingIsQueued()
    }

    ghost predicate PendingIsQueued()
      reads this, queue
    {
      pendingHard.Some? ==> HardFailure in queue.pending || Preempting()
    }

    ghost predicate Valid()
      reads this, queue, mailbox
    {
      Kept() && OneAttempt() && (!stopped ==> Attentive())
    }

    constructor (usesMailbox: bool, checksCapacity: bool, intervals: Intervals, ordinary: bool, degraded: bool)
      ensures Valid() && !stopped && !placementWake && clock == 0 && starts == [] && l == Nowhere && owed == {}
      ensures fresh(queue) && fresh(mailbox)
      ensures queue.pending == {} && mailbox.pending == None && current == None && pendingHard == None && retries == map[]
      ensures this.usesMailbox == usesMailbox && this.checksCapacity == checksCapacity && this.intervals == intervals
      ensures this.ordinary == ordinary && this.degraded == degraded
    {
      this.usesMailbox, this.checksCapacity, this.intervals := usesMailbox, checksCapacity, intervals;
      this.ordinary, this.degraded, stopped := ordinary, degraded, false;
      queue := new PlacementQueue();
      mailbox := new HardFailureMailbox();
      clock, placementWake, current, results, pendingHard := 0, false, None, None, None;
      retries, deferredAfterHard, preemptBy := map[], {}, None;
      running, starts, owed := 0, [], {};
      l := Nowhere;
    }

    // ---------- What happens around the worker ----------

    method Tick(time: nat)
      requires Valid()
      modifies this`clock
      ensures Valid() && clock == old(clock) + time
    {
      clock := clock + time;
    }

    method Enqueue(reason: Reason)
      requires queue.Valid()
      modifies this`placementWake, queue
      ensures queue.Valid() && placementWake && queue.pending == old(queue.pending) + {reason}
      ensures old(Kept()) ==> Kept()
      ensures old(Valid()) ==> Valid()
    {
      queue.Enqueue(reason);
      placementWake := true;
    }

    method Publish(event: Failure)
      requires Valid() && usesMailbox
      modifies this`l, mailbox
      ensures Valid()
      ensures event.deadline == 0 ==> l == old(l) && mailbox.pending == old(mailbox.pending)
      ensures event.deadline != 0 ==>
        l == old(l).(published := old(l).published + {event}, mailbox := old(l).mailbox + {event})
      ensures event.deadline != 0 ==> mailbox.pending == Earlier(old(mailbox.pending), Some(event))
    {
      mailbox.Publish(event);
      if event.deadline != 0 {
        l := l.(published := l.published + {event}, mailbox := l.mailbox + {event});
      }
    }

    // The goroutine of the placement delivers its result; the channel is empty then.
    method PlaceEnds(ending: Ending)
      requires Valid() && running > 0
      modifies this`results, this`running
      ensures Valid() && old(running) == 1 && running == 0 && old(results) == None
      ensures results == Some(Result(current.value.reason, current.value.event, ending))
    {
      results := Some(Result(current.value.reason, current.value.event, ending));
      running := running - 1;
    }

    // ---------- Helpers of the loop ----------

    method RetainPendingHard(event: Option<Failure>)
      modifies this`pendingHard
      ensures pendingHard == Earlier(old(pendingHard), event)
    {
      if event.None? {
        return;
      }
      if pendingHard.None? || event.value.deadline < pendingHard.value.deadline {
        pendingHard := event;
      }
    }

    // Take over everything that waits: what was pending, what would be retried, and
    // what the mailbox holds.
    method AdmitHard() returns (event: Option<Failure>)
      requires Kept() && l.attempt == {}
      modifies this`pendingHard, this`retries, this`l, mailbox
      ensures Kept() && pendingHard == None && StandsFor(event, l.attempt) && l.retry <= l.attempt
      ensures l == (if usesMailbox then old(l).AdmitRetry().AdmitMailbox() else old(l).AdmitRetry()).Admit()
      ensures mailbox.pending == None
      ensures Conserved(old(l), l) && event == old(HardInHand()) && retries.Keys == old(retries).Keys
    {
      MovingKeepsInPlay(l);
      AdmitRetry();
      if usesMailbox {
        AdmitMailbox();
      }
      event := pendingHard;
      pendingHard := None;
      MovingKeepsAll(l);
      MovingKeepsInPlay(l);
      l := l.Admit();
    }

    method AdmitRetry()
      requires Kept()
      modifies this`pendingHard, this`retries, this`l
      ensures Kept() && l == old(l).AdmitRetry() && Conserved(old(l), l)
      ensures RetryEventOf(retries) == old(RetryEventOf(retries)) && retries.Keys == old(retries).Keys
      ensures pendingHard == Earlier(old(pendingHard), old(RetryEventOf(retries)))
    {
      MovingKeepsInPlay(l);
      EarlierStandsForBoth(pendingHard, RetryEventOf(retries), l.pending, l.retry);
      MovingKeepsAll(l);
      if HardFailure in retries {
        var state := retries[HardFailure];
        RetainPendingHard(state.event);
        retries := retries[HardFailure := Retry(state.attempt, state.serial + 1, None, state.event)];
      }
      l := l.AdmitRetry();
    }

    method AdmitMailbox()
      requires Kept()
      modifies this`pendingHard, this`l, mailbox
      ensures Kept() && l == old(l).AdmitMailbox() && Conserved(old(l), l) && mailbox.pending == None
      ensures pendingHard == Earlier(old(pendingHard), old(mailbox.pending))
    {
      EarlierStandsForBoth(pendingHard, mailbox.pending, l.pending, l.mailbox);
      MovingKeepsInPlay(l);
      MovingKeepsAll(l);
      var event := mailbox.Pop();
      RetainPendingHard(event);
      l := l.AdmitMailbox();
    }

    method ClearRetry(reason: Reason)
      modifies this`retries
      ensures retries == old(retries) - {reason}
      ensures HardEventsOnly(old(retries)) ==> HardEventsOnly(retries)
      ensures RetryEventOf(retries) == if reason.HardFailure? then None else old(RetryEventOf(retries))
    {
      retries := retries - {reason};
    }

    // The deadline is missed: readiness is withdrawn and normalization takes over.
    method ExpireHardDeadline()
      requires Kept()
      modifies this`retries, this`l, this`degraded, this`placementWake, queue
      ensures Kept() && placementWake && degraded && l == old(l).ExpireRetry()
      ensures queue.pending == old(queue.pending) + {StartupNormalization}
      ensures retries == old(retries) - {HardFailure}
    {
      MovingKeepsAll(l);
      ClearRetry(HardFailure);
      l := l.ExpireRetry();
      degraded := true;
      Enqueue(StartupNormalization);
    }

    // The next attempt comes after a growing delay, and for a hard failure never
    // after its deadline.
    method ScheduleRetry(reason: Reason, event: Option<Failure>)
      requires HardEventsOnly(retries) && (!reason.HardFailure? ==> event == None)
      requires RetryEventOf(retries).Some? ==> RetryEventOf(retries).value.deadline != 0
      requires event.Some? ==> event.value.deadline != 0
      modifies this`retries
      ensures HardEventsOnly(retries) && retries.Keys == old(retries).Keys + {reason}
      ensures forall r :: r in old(retries) && r != reason ==> retries[r] == old(retries)[r]
      ensures RetryEventOf(retries) == Earlier(old(RetryEventOf(retries)), event)
      ensures reason in old(retries) ==> retries[reason].serial == old(retries)[reason].serial + 1
      ensures retries[reason].due.Some? && retries[reason].due.value >= clock
      ensures retries[reason].event.Some? ==>
        retries[reason].due.value <= if clock < retries[reason].event.value.deadline then retries[reason].event.value.deadline else clock
    {
      var state := if reason in retries then retries[reason] else Retry(0, 0, None, None);
      var kept := state.event;
      if event.Some? && (kept.None? || event.value.deadline < kept.value.deadline) {
        kept := event;
      }
      var due := RetryAt(reason, state.attempt + 1, kept);
      retries := retries[reason := Retry(state.attempt + 1, state.serial + 1, Some(due), kept)];
    }

    method RetryAt(reason: Reason, attempt: nat, event: Option<Failure>) returns (due: nat)
      requires attempt > 0 && (event.Some? ==> reason.HardFailure? && event.value.deadline != 0)
      ensures due >= clock
      ensures event.Some? ==> due <= if clock < event.value.deadline then event.value.deadline else clock
    {
      var delay;
      if reason.StartupNormalization? {
        var maximum := PositiveInterval(intervals.normalizationRetry, 5000);
        delay := RetryDelay(if maximum < 1000 then maximum else 1000, maximum, attempt);
      } else {
        delay := RetryDelay(intervals.retryBase, intervals.retryMax, attempt);
      }
      if reason.HardFailure? && event.Some? && event.value.deadline != 0 {
        var remaining := event.value.deadline - clock;
        if remaining < delay {
          delay := if remaining < 0 then 0 else remaining;
        }
      }
      return clock + delay;
    }

    ghost function Current(): set<Reason>
      reads this
    {
      if current.Some? then {current.value.reason} else {}
    }

    // No placement is under way; one that has ended may still have failures to settle.
    ghost predicate Free()
      reads this, queue, mailbox
    {
      Kept() && current.None? && results.None? && running == 0 && preemptBy.None? && owed == deferredAfterHard && HardFailure !in owed
    }

    // The most urgent failure somebody holds, if the retry has the given one.
    function InHand(retry: Option<Failure>): Option<Failure>
      reads this, mailbox
    {
      Earlier(Earlier(pendingHard, retry), if usesMailbox then mailbox.pending else None)
    }

    // A hard placement is asked for: a failure is pending, or one is announced in the
    // queue and somebody holds it. Without a mailbox the announcement is enough.
    predicate Asked(retry: Option<Failure>)
      reads this, queue, mailbox
    {
      pendingHard.Some? || (HardFailure in queue.pending && (!usesMailbox || InHand(retry).Some?))
    }

    function HardInHand(): Option<Failure>
      reads this, mailbox
    {
      InHand(RetryEventOf(retries))
    }

    predicate HardAsked()
      reads this, queue, mailbox
    {
      Asked(RetryEventOf(retries))
    }

    predicate NobodyHolds()
      reads this, mailbox
    {
      (usesMailbox ==> mailbox.pending.None?) && pendingHard.None? && RetryEventOf(retries).None?
    }

    predicate InTimeFor(event: Option<Failure>)
      reads this
    {
      event.Some? && event.value.deadline != 0 ==> clock < event.value.deadline
    }

    predicate HardHandled()
      reads this, queue
    {
      RunsHard() || (degraded && StartupNormalization in queue.pending)
    }

    // A hard placement runs now, or was too late and readiness is withdrawn.
    predicate HardChosen(event: Option<Failure>)
      reads this, queue
    {
      && HardHandled() && (RunsHard() <==> InTimeFor(event))
      && (RunsHard() ==> current.value.event == event)
    }

    // The rest still waits; a failure that was too late leaves normalization to do.
    predicate Absorbed(queued: set<Reason>, wasDegraded: bool)
      reads this, queue
    {
      && queue.pending == queued - {HardFailure} + (if RunsHard() then {} else {StartupNormalization})
      && degraded == (wasDegraded || !RunsHard())
    }

    // The most urgent of what was queued runs now, and the rest still waits.
    ghost predicate Took(queued: set<Reason>)
      reads this, queue
    {
      if queued == {} then current.None? && queue.pending == {}
      else current.Some? && Next(queued, current.value.reason)
           && current.value == Attempt(current.value.reason, None, false)
           && queue.pending == queued - {current.value.reason}
    }

    ghost function Finds(retry: Option<Failure>): Turn
      reads this, queue, mailbox
    {
      Turn(Asked(retry), InHand(retry), queue.pending, mailbox.pending, degraded, starts)
    }

    ghost function Found(): Turn
      reads this, queue, mailbox
    {
      Finds(RetryEventOf(retries))
    }

    // What a free worker does next: a hard placement if one is asked for, and else the
    // most urgent of the others.
    ghost predicate Chose(t: Turn)
      reads this, queue, mailbox
    {
      && HardFailure !in queue.pending && pendingHard.None?
      && (t.asked ==> HardChosen(t.inHand) && mailbox.pending.None? && Absorbed(t.queued, t.degraded))
      && (!t.asked ==> Took(t.queued - {HardFailure}) && degraded == t.degraded && mailbox.pending == t.posted)
      && starts == t.started + Running()
    }

    // The placement under way, as it was started.
    ghost function Running(): seq<Start>
      reads this
    {
      if current.Some? then [Start(current.value.reason, current.value.event, clock, l.attempt)] else []
    }

    // At most one more placement was started; what was queued is still queued or runs
    // now, except that a hard failure is absorbed; a failure kept for a retry runs
    // now, still waits, or has missed its deadline. No failure is lost or made up.
    ghost predicate Went(queued: set<Reason>, started: seq<Start>, was: Ledger)
      reads this, queue
    {
      && |starts| <= |started| + 1 && started <= starts
      && queued - {HardFailure} <= queue.pending + Current()
      && l == was.(mailbox := l.mailbox, pending := l.pending, retry := l.retry, attempt := l.attempt, expired := l.expired)
      && was.expired <= l.expired && was.retry <= l.retry + l.expired && Conserved(was, l)
      && (RunsHard() ==> l.expired == was.expired)
    }

    method ExpireAdmitted()
      requires Free()
      modifies this`retries, this`l, this`degraded, this`placementWake, queue
      ensures Free() && OneAttempt() && placementWake && degraded && l == old(l).Expire()
      ensures queue.pending == old(queue.pending) + {StartupNormalization} && retries == old(retries) - {HardFailure}
      ensures Conserved(old(l), l)
    {
      MovingKeepsInPlay(l);
      ExpireHardDeadline();
      MovingKeepsAll(l);
      MovingKeepsInPlay(l);
      l := l.ExpireAttempt();
    }

    method Launch(reason: Reason, event: Option<Failure>)
      requires Free()
      requires if reason.HardFailure? then StandsFor(event, l.attempt) && l.retry <= l.attempt else event == None && l.attempt == {}
      requires reason.HardFailure? && event.Some? ==> clock < event.value.deadline
      modifies this`current, this`running, this`starts
      ensures Kept() && OneAttempt() && current == Some(Attempt(reason, event, false))
      ensures starts == old(starts) + [Start(reason, event, clock, l.attempt)]
    {
      current := Some(Attempt(reason, event, false));
      running := running + 1;
      assert InTime(Start(reason, event, clock, l.attempt));
      starts := starts + [Start(reason, event, clock, l.attempt)];
    }

    // A hard failure is only started before its deadline.
    method StartHard(event: Option<Failure>)
      requires Free() && StandsFor(event, l.attempt) && l.retry <= l.attempt && pendingHard.None?
      requires HardFailure !in queue.pending
      modifies this`current, this`running, this`starts, this`retries, this`l, this`degraded, this`placementWake, queue
      ensures Kept() && OneAttempt() && Attentive()
      ensures Went(old(queue.pending), old(starts), old(l)) && (old(degraded) ==> degraded)
      ensures HardChosen(event) && Absorbed(old(queue.pending), old(degraded)) && retries.Keys <= old(retries).Keys
      ensures starts == old(starts) + Running()
    {
      if event.Some? && event.value.deadline != 0 {
        if !(clock < event.value.deadline) {
          ExpireAdmitted();
          return;
        }
      }
      Launch(HardFailure, event);
    }

    // The next placement: a pending hard failure, or the most urgent reason queued.
    method StartNext()
      requires Kept() && OneAttempt() && (current.Some? ==> Attentive())
      modifies this`current, this`running, this`starts, this`pendingHard, this`retries, this`l, this`degraded,
        this`placementWake, queue, mailbox
      ensures Kept() && OneAttempt() && Attentive()
      ensures Went(old(queue.pending), old(starts), old(l)) && (old(degraded) ==> degraded)
      ensures retries.Keys <= old(retries).Keys
      ensures old(current).Some? ==> current == old(current) && starts == old(starts) && queue.pending == old(queue.pending)
      ensures old(current).Some? ==> degraded == old(degraded)
      ensures old(current).None? ==> Chose(old(Found()))
      decreases |queue.pending|, 2
    {
      if current.Some? {
        return;
      }
      if pendingHard.Some? {
        StartPending();
        return;
      }
      StartQueued();
    }

    method StartQueued()
      requires Kept() && OneAttempt() && current.None? && pendingHard.None?
      modifies this`current, this`running, this`starts, this`pendingHard, this`retries, this`l, this`degraded,
        this`placementWake, queue, mailbox
      ensures Kept() && OneAttempt() && Attentive()
      ensures Went(old(queue.pending), old(starts), old(l))
      ensures retries.Keys <= old(retries).Keys && Chose(old(Found()))
      decreases |queue.pending|, 1
    {
      var reason := queue.Pop();
      ghost var t := old(Found());
      if reason.None? {
        assert t.queued - {HardFailure} == {};
        return;
      }
      if HardFailure in t.queued {
        HardFailureIsNext(t.queued, reason.value);
      }
      StartPopped(reason.value, t);
    }

    method StartPending()
      requires Kept() && OneAttempt() && current.None? && pendingHard.Some?
      modifies this`current, this`running, this`starts, this`pendingHard, this`retries, this`l, this`degraded,
        this`placementWake, queue, mailbox
      ensures Kept() && OneAttempt() && Attentive()
      ensures Went(old(queue.pending), old(starts), old(l))
      ensures retries.Keys <= old(retries).Keys
      ensures Chose(old(Found()))
    {
      var _ := queue.Take(HardFailure);
      var event := AdmitHard();
      StartHard(event);
    }

    method StartPopped(reason: Reason, ghost t: Turn)
      requires Kept() && OneAttempt() && current.None? && pendingHard.None?
      requires t == Found().(queued := t.queued, asked := t.asked)
      requires Next(t.queued, reason) && queue.pending == t.queued - {reason}
      requires reason == HardFailure <==> HardFailure in t.queued
      requires t.asked <==> reason == HardFailure && (!usesMailbox || t.inHand.Some?)
      modifies this`current, this`running, this`starts, this`pendingHard, this`retries, this`l, this`degraded,
        this`placementWake, queue, mailbox
      ensures Kept() && OneAttempt() && Attentive()
      ensures Went(t.queued, old(starts), old(l))
      ensures retries.Keys <= old(retries).Keys
      ensures Chose(t)
      decreases |queue.pending|, 6
    {
      if reason == HardFailure {
        StartAnnounced(t);
      } else {
        assert t.queued - {HardFailure} == t.queued && t.queued != {};
        Launch(reason, None);
      }
    }

    method StartAnnounced(ghost t: Turn)
      requires Kept() && OneAttempt() && current.None? && pendingHard.None?
      requires t == Found().(queued := t.queued, asked := !usesMailbox || t.inHand.Some?)
      requires queue.pending == t.queued - {HardFailure}
      modifies this`current, this`running, this`starts, this`pendingHard, this`retries, this`l, this`degraded,
        this`placementWake, queue, mailbox
      ensures Kept() && OneAttempt() && Attentive()
      ensures Went(t.queued, old(starts), old(l))
      ensures retries.Keys <= old(retries).Keys
      ensures Chose(t)
      decreases |queue.pending|, 5
    {
      var event := AdmitHard();
      ghost var admitted := l;
      StartAdmitted(event, t);
      AdmittedWent(t.queued, old(starts), old(l), admitted);
    }

    // With a mailbox, a hard failure that somebody has already absorbed starts nothing.
    method StartAdmitted(event: Option<Failure>, ghost t: Turn)
      requires Free() && StandsFor(event, l.attempt) && l.retry <= l.attempt && pendingHard.None? && mailbox.pending.None?
      requires t.inHand == event && t.queued - {HardFailure} == queue.pending && t.degraded == degraded && t.started == starts
      requires (t.asked <==> !usesMailbox || event.Some?) && (!t.asked ==> t.posted == None)
      modifies this`current, this`running, this`starts, this`pendingHard, this`retries, this`l, this`degraded,
        this`placementWake, queue, mailbox
      ensures Kept() && OneAttempt() && Attentive()
      ensures Went(t.queued - {HardFailure}, old(starts), old(l))
      ensures retries.Keys <= old(retries).Keys
      ensures Chose(t)
      decreases |queue.pending|, 4
    {
      if usesMailbox && event.None? {
        StartOthers();
      } else {
        StartHard(event);
      }
    }

    // The turn after an announcement that nobody stands behind.
    method StartOthers()
      requires Kept() && OneAttempt() && current.None? && pendingHard.None? && HardFailure !in queue.pending
      modifies this`current, this`running, this`starts, this`pendingHard, this`retries, this`l, this`degraded,
        this`placementWake, queue, mailbox
      ensures Kept() && OneAttempt() && Attentive() && HardFailure !in queue.pending && pendingHard.None?
      ensures Went(old(queue.pending), old(starts), old(l)) && degraded == old(degraded)
      ensures retries.Keys <= old(retries).Keys && Took(old(queue.pending))
      ensures mailbox.pending == old(mailbox.pending) && starts == old(starts) + Running()
      decreases |queue.pending|, 3
    {
      assert queue.pending - {HardFailure} == queue.pending;
      StartNext();
    }

    lemma AdmittedWent(queued: set<Reason>, started: seq<Start>, was: Ledger, admitted: Ledger)
      requires Went(queued - {HardFailure}, started, admitted) && Conserved(was, admitted) && was.retry == admitted.retry
      requires admitted == was.(mailbox := admitted.mailbox, pending := admitted.pending, attempt := admitted.attempt)
      ensures Went(queued, started, was)
    {
    }

    // ---------- The branches of the loop ----------

    // The result of the only placement under way.
    method OnResult()
      requires Valid() && !stopped && results.Some?
      modifies this, queue, mailbox
      ensures Valid() && clock == old(clock) && old(starts) <= starts && |starts| <= |old(starts)| + 1
      ensures if Succeeded(old(results.value), clock) then owed == {} && old(owed) <= queue.pending + Current()
        else old(owed) <= owed
      ensures Accounted(old(results.value), old(l), l, clock)
      ensures old(Preempting()) && old(pendingHard).Some? ==> HardHandled()
      ensures !stopped ==> HardFailure !in queue.pending && pendingHard.None?
      ensures !stopped && !old(RunsHard()) && !old(Preempting()) ==>
        Chose(old(Found()).(degraded := old(DegradedAfter(results.value))))
      ensures old(RunsHard()) && HaltedInTime(old(results.value), clock) ==>
        Chose(old(Finds(None))) && HardFailure !in retries
      ensures old(Preempting()) ==> Chose(old(Found())) && retries.Keys <= old(retries).Keys
      ensures old(Preempting() && !HardAsked()) ==> !RunsHard() && HardFailure !in queue.pending
      ensures old(RunsHard()) ==> forall f :: f in old(l.attempt) ==>
        (Forgotten(f) <==> HaltedInTime(old(results.value), clock) && old(LeftAlone(f)))
      ensures stopped <==>
        && old(results).value.ending.Broken? && !old(Preempting())
        && (old(results).value.reason.StartupNormalization?
            || (old(results).value.reason.HardFailure? && !Late(old(results).value, clock)))
    {
      if results.value.reason == HardFailure {
        OnHardResult();
      } else {
        OnOrdinaryResult();
      }
    }

    method OnHardResult()
      requires Valid() && !stopped && results.Some? && RunsHard()
      modifies this`results, this`preemptBy, this`current, this`stopped, this`pendingHard, this`deferredAfterHard, this`owed,
        this`retries, this`degraded, this`placementWake, this`running, this`starts, this`l, queue, mailbox
      ensures Valid() && old(starts) <= starts && |starts| <= |old(starts)| + 1
      ensures if Succeeded(old(results.value), clock) then owed == {} && old(owed) <= queue.pending + Current()
        else old(owed) <= owed
      ensures Accounted(old(results.value), old(l), l, clock)
      ensures !stopped ==> HardFailure !in queue.pending && pendingHard.None?
      ensures HaltedInTime(old(results.value), clock) ==> Chose(old(Finds(None))) && HardFailure !in retries
      ensures forall f :: f in old(l.attempt) ==>
        (Forgotten(f) <==> HaltedInTime(old(results.value), clock) && old(LeftAlone(f)))
      ensures stopped <==> old(results.value).ending.Broken? && !Late(old(results.value), clock)
    {
      var result := results.value;
      FinishHardAttempt();
      ForgottenWhenHalted(result, old(l), l, clock);
      if !stopped {
        NextTurn(result, old(l), if Succeeded(result, clock) then old(owed) else {});
      }
    }

    method OnOrdinaryResult()
      requires Valid() && !stopped && results.Some? && !RunsHard()
      modifies this`results, this`preemptBy, this`current, this`stopped, this`pendingHard, this`deferredAfterHard,
        this`retries, this`degraded, this`ordinary, this`placementWake, this`running, this`starts, this`l, queue, mailbox
      ensures Valid() && old(starts) <= starts && |starts| <= |old(starts)| + 1
      ensures Accounted(old(results.value), old(l), l, clock)
      ensures !stopped ==> HardFailure !in queue.pending && pendingHard.None?
      ensures !stopped && !old(Preempting()) ==> Chose(old(Found()).(degraded := old(DegradedAfter(results.value))))
      ensures old(Preempting()) ==> Chose(old(Found())) && retries.Keys <= old(retries).Keys
      ensures stopped <==>
        old(results.value).ending.Broken? && old(results.value).reason.StartupNormalization? && !old(Preempting())
    {
      var result := results.value;
      FinishOrdinaryAttempt();
      if !stopped {
        NextTurn(result, old(l), {});
      }
    }

    // The next placement, after a result that is accounted for.
    method NextTurn(result: Result, ghost was: Ledger, ghost due: set<Reason>)
      requires Free() && OneAttempt() && Accounted(result, was, l, clock)
      requires due <= queue.pending && HardFailure !in due
      modifies this`current, this`running, this`starts, this`pendingHard, this`retries, this`l, this`degraded,
        this`placementWake, queue, mailbox
      ensures Kept() && OneAttempt() && Attentive() && Accounted(result, was, l, clock)
      ensures Conserved(old(l), l) && (forall f :: l.Settled(f) <==> old(l).Settled(f))
      ensures due <= queue.pending + Current()
      ensures retries.Keys <= old(retries).Keys && Chose(old(Found()))
    {
      StartNext();
      StillAccounted(result, was, old(l), l, clock);
    }

    // Nobody has the failure in hand, no hard placement runs or is announced, and it
    // was neither served nor reported.
    ghost predicate Forgotten(f: Failure)
      reads this, queue
    {
      !RunsHard() && HardFailure !in queue.pending && !l.InPlay(f) && !l.Settled(f)
    }

    // The ledger and the holders agree: a forgotten failure is in no field of the worker.
    lemma ForgottenIsHeldByNobody(f: Failure)
      requires Valid() && Forgotten(f)
      ensures mailbox.pending != Some(f) && pendingHard != Some(f) && RetryEventOf(retries) != Some(f)
    {
      assert !l.Waits(f);
    }

    // Besides the attempt and its retry nobody has the failure, and no hard placement
    // would start for another one.
    ghost predicate LeftAlone(f: Failure)
      reads this, queue, mailbox
    {
      l.OnlyAttempted(f) && !(Asked(None) && InTimeFor(InHand(None)))
    }

    lemma ForgottenWhenHalted(r: Result, was: Ledger, now: Ledger, time: nat)
      requires was.retry <= was.attempt
      requires now == Resolved(r, was, time) || (!r.ending.Halted? && now == Resolved(r, was, time).AdmitMailbox())
      ensures forall f :: f in was.attempt ==>
        (!now.InPlay(f) && !now.Settled(f) <==> HaltedInTime(r, time) && was.OnlyAttempted(f))
    {
    }

    method FinishHardAttempt()
      requires Valid() && !stopped && results.Some? && RunsHard()
      modifies this`results, this`preemptBy, this`current, this`stopped, this`pendingHard, this`deferredAfterHard, this`owed,
        this`retries, this`degraded, this`placementWake, this`l, queue, mailbox
      ensures Free() && OneAttempt() && HardFailure !in old(owed)
      ensures Accounted(old(results.value), old(l), l, clock)
      ensures if Succeeded(old(results.value), clock) then owed == {} && old(owed) <= queue.pending else old(owed) <= owed
      ensures old(l.retry) <= old(l.attempt)
      ensures l == Resolved(old(results.value), old(l), clock)
        || (!old(results).value.ending.Halted? && l == Resolved(old(results.value), old(l), clock).AdmitMailbox())
      ensures HaltedInTime(old(results.value), clock) ==> HardFailure !in retries && Found() == old(Finds(None))
      ensures stopped <==> old(results.value).ending.Broken? && !Late(old(results.value), clock)
    {
      var result := results.value;
      EndAttempt();
      FinishHard(result);
      ResolvedIsAccounted(result, old(l), l, clock);
    }

    method FinishOrdinaryAttempt()
      requires Valid() && !stopped && results.Some? && !RunsHard()
      modifies this`results, this`preemptBy, this`current, this`stopped, this`deferredAfterHard, this`retries, this`degraded,
        this`ordinary
      ensures Free() && OneAttempt() && Accounted(old(results.value), old(l), l, clock)
      ensures old(Preempting()) ==> Found() == old(Found()) && retries == old(retries)
      ensures !old(Preempting()) ==> Found() == old(Found()).(degraded := old(DegradedAfter(results.value)))
      ensures stopped <==>
        old(results.value).ending.Broken? && old(results.value).reason.StartupNormalization? && !old(Preempting())
    {
      var result, canceled := results.value, current.value.canceledForHard;
      EndAttempt();
      if !canceled {
        FinishOrdinary(result);
      }
    }

    // Nothing about hard failures has changed, but for the attempt and its retry.
    twostate predicate SameHardWork()
      reads this, queue, mailbox
    {
      queue.pending == old(queue.pending) && pendingHard == old(pendingHard) && mailbox.pending == old(mailbox.pending)
    }

    lemma StillAccounted(r: Result, was: Ledger, settled: Ledger, now: Ledger, time: nat)
      requires Accounted(r, was, settled, time)
      requires now == settled.(mailbox := now.mailbox, pending := now.pending, retry := now.retry, attempt := now.attempt, expired := now.expired)
      requires settled.expired <= now.expired && settled.retry <= now.retry + now.expired
      ensures Accounted(r, was, now, time)
    {
    }

    // The result is taken; a placement cancelled for a hard failure is deferred.
    method EndAttempt()
      requires Valid() && !stopped && results.Some?
      modifies this`results, this`preemptBy, this`current, this`deferredAfterHard
      ensures Free() && !old(results).value.reason.HardFailure? ==> l.attempt == {}
      ensures Free() && (old(RunsHard()) <==> old(results).value.reason.HardFailure?)
      ensures old(RunsHard()) ==> StandsFor(old(results).value.event, l.attempt) && l.retry <= l.attempt && !old(Preempting())
      ensures pendingHard.Some? ==> HardFailure in queue.pending || old(Preempting())
    {
      var attempt := current.value;
      results, preemptBy, current := None, None, None;
      if attempt.canceledForHard {
        deferredAfterHard := deferredAfterHard + {attempt.reason};
      }
    }

    predicate Late(r: Result, now: nat) {
      r.event.Some? && now >= r.event.value.deadline
    }

    // It was cancelled, or ran out of time, before the deadline of the failure.
    predicate HaltedInTime(r: Result, now: nat) {
      r.ending.Halted? && !Late(r, now)
    }

    predicate Succeeded(r: Result, now: nat) {
      r.reason.HardFailure? && r.ending.Done? && !Late(r, now)
    }

    // What has become of the failures a finished attempt was for.
    ghost predicate Accounted(r: Result, was: Ledger, now: Ledger, time: nat) {
      && now.published == was.published
      && now.succeeded == was.succeeded + (if !Late(r, time) && r.ending.Done? then was.attempt else {})
      && now.unready == was.unready + (if !Late(r, time) && r.ending.CoveragePermanent? then was.attempt else {})
      && now.dropped == was.dropped + (if !Late(r, time) && r.ending.Halted? then was.attempt else {})
      && now.abandoned == was.abandoned + (if !Late(r, time) && r.ending.Broken? then was.attempt else {})
      && (Late(r, time) ==> was.attempt <= now.expired)
      && (!Late(r, time) && (r.ending.CoverageTemporary? || r.ending.Retryable?) ==> was.attempt <= now.retry + now.expired)
    }

    function Resolved(r: Result, was: Ledger, time: nat): Ledger {
      if Late(r, time) then was.Expire() else was.Settle(r.ending)
    }

    lemma ResolvedIsAccounted(r: Result, was: Ledger, now: Ledger, time: nat)
      requires now == Resolved(r, was, time) || now == Resolved(r, was, time).AdmitMailbox()
      ensures Accounted(r, was, now, time)
    {
    }

    method FinishHard(result: Result)
      requires Free() && !stopped && result.reason.HardFailure? && StandsFor(result.event, l.attempt) && l.retry <= l.attempt
      requires PendingIsQueued()
      modifies this`stopped, this`pendingHard, this`deferredAfterHard, this`owed, this`retries, this`degraded,
        this`placementWake, this`l, queue, mailbox
      ensures Free() && OneAttempt() && PendingIsQueued() && old(queue.pending) <= queue.pending
      ensures l == Resolved(result, old(l), clock)
        || (!result.ending.Halted? && l == Resolved(result, old(l), clock).AdmitMailbox())
      ensures HaltedInTime(result, clock) ==> HardFailure !in retries && degraded == old(degraded) && SameHardWork()
      ensures if Succeeded(result, clock) then owed == {} && old(owed) <= queue.pending else owed == old(owed)
      ensures stopped <==> result.ending.Broken? && !Late(result, clock)
    {
      if result.event.Some? && result.event.value.deadline != 0 && !(clock < result.event.value.deadline) {
        ExpireAdmitted();
      } else {
        FinishInTime(result);
      }
    }

    method FinishInTime(result: Result)
      requires Free() && !stopped && result.reason.HardFailure? && StandsFor(result.event, l.attempt) && l.retry <= l.attempt
      requires PendingIsQueued()
      modifies this`stopped, this`pendingHard, this`deferredAfterHard, this`owed, this`retries, this`degraded,
        this`placementWake, this`l, queue, mailbox
      ensures Free() && OneAttempt() && PendingIsQueued() && old(queue.pending) <= queue.pending
      ensures l == old(l).Settle(result.ending)
        || (!result.ending.Halted? && l == old(l).Settle(result.ending).AdmitMailbox())
      ensures result.ending.Halted? ==> HardFailure !in retries && SameHardWork()
      ensures if result.ending.Done? then owed == {} && old(owed) <= queue.pending else owed == old(owed)
      ensures stopped <==> result.ending.Broken?
      ensures degraded == (old(degraded) || result.ending.CoverageTemporary? || result.ending.CoveragePermanent?)
      ensures result.ending.Done? && (!ordinary || degraded) ==> StartupNormalization in queue.pending
    {
      match result.ending {
        case CoverageTemporary =>
          degraded := true;
          KeepForRetry(result.event);
        case CoveragePermanent =>
          degraded := true;
          Settle(result.ending);
        case Retryable =>
          RetryHard(result.event);
        case Broken =>
          stopped := true;
          SettlingKeepsAll(l, Broken);
          l := l.Settle(Broken);
        case Halted =>
          Settle(result.ending);
        case Done =>
          Settle(result.ending);
          CompleteHard();
      }
    }

    // A failure published meanwhile does not wait for the retry.
    method RetryHard(event: Option<Failure>)
      requires Free() && StandsFor(event, l.attempt) && l.retry <= l.attempt && PendingIsQueued()
      modifies this`retries, this`l, this`pendingHard, this`placementWake, queue, mailbox
      ensures Free() && OneAttempt() && PendingIsQueued() && old(queue.pending) <= queue.pending
      ensures l == if usesMailbox && old(mailbox.pending).Some? then old(l).KeepForRetry().AdmitMailbox() else old(l).KeepForRetry()
    {
      KeepForRetry(event);
      if usesMailbox && mailbox.pending.Some? {
        AdmitMailbox();
        Enqueue(HardFailure);
      }
    }

    // After a success readiness is established again, and what was cancelled is due.
    method CompleteHard()
      requires Free() && OneAttempt() && PendingIsQueued()
      modifies this`deferredAfterHard, this`owed, this`placementWake, queue
      ensures Free() && OneAttempt() && PendingIsQueued() && owed == {}
      ensures old(queue.pending) + old(owed) <= queue.pending
      ensures !ordinary || degraded ==> StartupNormalization in queue.pending
    {
      if !ordinary || degraded {
        Enqueue(StartupNormalization);
      }
      Requeue();
    }

    // The attempt goes back to waiting for its retry.
    method KeepForRetry(event: Option<Failure>)
      requires Free() && StandsFor(event, l.attempt) && l.retry <= l.attempt
      modifies this`retries, this`l
      ensures Free() && OneAttempt() && l == old(l).KeepForRetry()
    {
      MovingKeepsAll(l);
      EarlierStandsForBoth(RetryEventOf(retries), event, l.retry, l.attempt);
      assert RetryEventOf(retries).Some? ==> l.Waits(RetryEventOf(retries).value);
      assert event.Some? ==> l.Waits(event.value);
      ScheduleRetry(HardFailure, event);
      l := l.KeepForRetry();
    }

    // The failures of the attempt are settled, and nothing is left to retry.
    method Settle(ending: Ending)
      requires Free() && l.retry <= l.attempt && (ending.Done? || ending.CoveragePermanent? || ending.Halted?)
      modifies this`retries, this`l
      ensures Free() && OneAttempt() && l == old(l).Settle(ending) && HardFailure !in retries
    {
      SettlingKeepsAll(l, ending);
      ClearRetry(HardFailure);
      l := l.Settle(ending);
    }

    // After a successful hard placement what it had cancelled is due again.
    method Requeue()
      requires Free()
      modifies this`deferredAfterHard, this`owed, this`placementWake, queue
      ensures Free() && owed == {}
      ensures old(queue.pending) + old(deferredAfterHard) <= queue.pending
    {
      while deferredAfterHard != {}
        invariant Free()
        invariant old(queue.pending) <= queue.pending && old(deferredAfterHard) <= queue.pending + deferredAfterHard
      {
        var reason :| reason in deferredAfterHard;
        Enqueue(reason);
        deferredAfterHard := deferredAfterHard - {reason};
        owed := owed - {reason};
      }
    }

    // Missing coverage degrades the worker; a normalization, or a checked placement,
    // that succeeds makes it ready again.
    predicate DegradedAfter(r: Result)
      reads this
    {
      || r.ending.CoverageTemporary? || r.ending.CoveragePermanent?
      || (degraded && !(r.ending.Done? && (r.reason.StartupNormalization? || checksCapacity)))
    }

    method FinishOrdinary(result: Result)
      requires Free() && !stopped && !result.reason.HardFailure?
      modifies this`stopped, this`retries, this`degraded, this`ordinary
      ensures Free() && RetryEventOf(retries) == old(RetryEventOf(retries))
      ensures stopped <==> result.ending.Broken? && result.reason.StartupNormalization?
      ensures result.ending.CoverageTemporary? || result.ending.Retryable? ==>
        result.reason in retries && retries[result.reason].due.Some?
      ensures !result.ending.CoverageTemporary? && !result.ending.Retryable? && !stopped ==> retries == old(retries) - {result.reason}
      ensures degraded == old(DegradedAfter(result))
      ensures ordinary == (old(ordinary) || (result.ending.Done? && result.reason.StartupNormalization?))
    {
      assert RetryEventOf(retries).Some? ==> l.Waits(RetryEventOf(retries).value);
      match result.ending {
        case CoverageTemporary =>
          degraded := true;
          ScheduleRetry(result.reason, None);
        case CoveragePermanent =>
          degraded := true;
          ClearRetry(result.reason);
        case Retryable =>
          ScheduleRetry(result.reason, None);
        case Broken =>
          if result.reason == StartupNormalization {
            stopped := true;
          } else {
            ClearRetry(result.reason);
          }
        case Halted =>
          ClearRetry(result.reason);
        case Done =>
          ClearRetry(result.reason);
          if result.reason == StartupNormalization {
            ordinary, degraded := true, false;
          } else if checksCapacity && degraded {
            degraded := false;
          }
      }
    }

    // A retry timer has fired; one that was stopped since is recognised by its serial.
    method OnRetryWake(reason: Reason, serial: nat)
      requires Valid() && !stopped
      modifies this`current, this`running, this`starts, this`pendingHard, this`retries, this`l, this`degraded,
        this`placementWake, queue, mailbox
      ensures Valid() && old(starts) <= starts && |starts| <= |old(starts)| + 1 && l.dropped == old(l).dropped
      ensures reason !in old(retries) || old(retries)[reason].serial != serial ==> unchanged(this) && unchanged(queue)
      ensures reason in old(retries) && old(retries)[reason].serial == serial ==>
        if reason.HardFailure? && old(retries)[reason].event.Some? && clock + 1 >= old(retries)[reason].event.value.deadline
        then degraded && old(l).retry <= l.expired
        else reason in queue.pending && placementWake
    {
      if reason !in retries || retries[reason].serial != serial {
        return;
      }
      var state := retries[reason];
      if reason == HardFailure && state.event.Some? {
        if !(clock + 1 < state.event.value.deadline) {
          ExpireRetried();
          return;
        }
        RetainRetried();
      }
      AnnounceRetry(reason);
    }

    method AnnounceRetry(reason: Reason)
      requires Kept() && OneAttempt() && reason in retries && (reason.HardFailure? || PendingIsQueued())
      modifies this`retries, this`placementWake, queue
      ensures Kept() && OneAttempt() && Attentive() && placementWake && queue.pending == old(queue.pending) + {reason}
    {
      var state := retries[reason];
      retries := retries[reason := Retry(state.attempt, state.serial, None, state.event)];
      Enqueue(reason);
    }

    method ExpireRetried()
      requires Valid() && !stopped
      modifies this`current, this`running, this`starts, this`pendingHard, this`retries, this`l, this`degraded,
        this`placementWake, queue, mailbox
      ensures Kept() && OneAttempt() && Attentive() && Went(old(queue.pending), old(starts), old(l).ExpireRetry())
      ensures degraded
    {
      ExpireHardDeadline();
      StartNext();
    }

    method RetainRetried()
      requires Kept() && OneAttempt()
      modifies this`pendingHard, this`l
      ensures Kept() && OneAttempt() && l == old(l).AdmitRetry()
    {
      EarlierStandsForBoth(pendingHard, RetryEventOf(retries), l.pending, l.retry);
      MovingKeepsAll(l);
      RetainPendingHard(RetryEventOf(retries));
      l := l.AdmitRetry();
    }

    // A hard failure is announced while something else is under way.
    predicate Interrupts()
      reads this, queue
    {
      current.Some? && !RunsHard() && HardFailure in queue.pending
    }

    // The placement under way is cancelled, is still owed, and has until the timeout
    // or the hard deadline, whichever is first.
    ghost predicate PreemptedInTime()
      reads this
    {
      && Preempting() && current.value.reason in owed && preemptBy.Some?
      && preemptBy.value <= clock + PositiveInterval(intervals.preemptTimeout, 100)
      && (pendingHard.Some? && clock <= pendingHard.value.deadline ==> preemptBy.value <= pendingHard.value.deadline)
    }

    // Something was queued: a hard failure preempts what is running, anything else
    // waits for its turn.
    method OnPlacementWake()
      requires Valid() && !stopped && placementWake
      modifies this`current, this`running, this`starts, this`pendingHard, this`retries, this`l, this`degraded,
        this`placementWake, this`preemptBy, this`owed, queue, mailbox
      ensures Valid() && old(starts) <= starts && |starts| <= |old(starts)| + 1 && l.dropped == old(l).dropped
      ensures old(owed) <= owed
      ensures old(current).None? ==> Chose(old(Found()))
      ensures old(current).None? ==> Went(old(queue.pending), old(starts), old(l))
      ensures retries.Keys <= old(retries).Keys && (old(current).Some? ==> degraded == old(degraded))
      ensures old(current).Some? ==> starts == old(starts) && current.Some? && current.value.reason == old(current).value.reason
      ensures old(Interrupts()) ==> queue.pending == old(queue.pending) - {HardFailure}
      ensures old(Interrupts()) ==> mailbox.pending == None && pendingHard == old(HardInHand())
      ensures old(Interrupts()) ==> (pendingHard.Some? <==> !old(NobodyHolds()))
      ensures old(Interrupts()) ==> (Preempting() <==> old(Preempting() || !usesMailbox || !NobodyHolds()))
      ensures old(Interrupts() && (!usesMailbox || !NobodyHolds())) ==> PreemptedInTime()
    {
      placementWake := false;
      if current.Some? && current.value.reason != HardFailure {
        var taken := queue.Take(HardFailure);
        if taken {
          Preempt();
          return;
        }
      }
      assert queue.pending == old(queue.pending);
      StartNext();
    }

    // What somebody holds becomes pending. The announcement has left the queue, so if
    // nobody holds a failure nothing is left that would start a hard placement.
    method Preempt()
      requires Kept() && OneAttempt() && current.Some? && !RunsHard() && HardFailure !in queue.pending
      modifies this`current, this`pendingHard, this`retries, this`l, this`preemptBy, this`owed, mailbox
      ensures Kept() && OneAttempt() && Attentive() && l.dropped == old(l).dropped && old(owed) <= owed
      ensures mailbox.pending == None && pendingHard == old(HardInHand()) && (pendingHard.Some? <==> !old(NobodyHolds()))
      ensures current.Some? && current.value.reason == old(current).value.reason && retries.Keys == old(retries).Keys
      ensures Preempting() <==> old(Preempting() || !usesMailbox || !NobodyHolds())
      ensures old(!usesMailbox || !NobodyHolds()) ==> PreemptedInTime()
    {
      var event := AdmitHard();
      if usesMailbox && event.None? {
        return;
      }
      CancelForHard(event);
    }

    method CancelForHard(event: Option<Failure>)
      requires Kept() && current.Some? && !RunsHard() && HardFailure !in queue.pending && pendingHard.None?
      requires Solo(current, results, running, preemptBy, deferredAfterHard, owed, l.(attempt := {}))
      requires StandsFor(event, l.attempt) && l.retry <= l.attempt
      modifies this`current, this`pendingHard, this`l, this`preemptBy, this`owed
      ensures Kept() && OneAttempt() && Attentive() && l == old(l).Retain() && old(owed) <= owed
      ensures PreemptedInTime() && pendingHard == event && current.value.reason == old(current).value.reason
    {
      MovingKeepsAll(l);
      RetainPendingHard(event);
      l := l.Retain();
      current := Some(current.value.(canceledForHard := true));
      owed := owed + {current.value.reason};
      var timeout := PositiveInterval(intervals.preemptTimeout, 100);
      if pendingHard.Some? && pendingHard.value.deadline != 0 {
        var remaining := pendingHard.value.deadline - clock;
        if remaining <= timeout {
          timeout := if remaining < 0 then 0 else remaining;
        }
      }
      preemptBy := Some(clock + timeout);
    }

    // A placement that ignores its cancellation stops the worker instead of running
    // beside the hard one.
    method OnPreemptDeadline()
      requires Valid() && preemptBy.Some? && clock >= preemptBy.value
      modifies this`stopped
      ensures Valid() && stopped && running == old(running) && starts == old(starts)
    {
      stopped := true;
    }
  }

  // ---------- Two runs of the worker ----------

  // A hard failure is published and its placement starts.
  method PublishOne(intervals: Intervals) returns (w: Worker, f: Failure)
    ensures fresh(w) && fresh(w.queue) && fresh(w.mailbox) && w.Valid() && !w.stopped && w.usesMailbox && !w.degraded
    ensures w.clock < f.deadline && w.current == None && w.results == None && w.retries == map[] && w.placementWake
    ensures w.l == Nowhere.(published := {f}, mailbox := {f})
    ensures w.queue.pending == {HardFailure} && w.pendingHard == None && w.mailbox.pending == Some(f)
  {
    w := new Worker(true, true, intervals, true, false);
    f := HardFailureEvent("candidate", 5);
    w.Publish(f);
    w.Enqueue(HardFailure);
  }

  method RunHard(intervals: Intervals) returns (w: Worker, f: Failure)
    ensures fresh(w) && fresh(w.queue) && fresh(w.mailbox) && w.Valid() && !w.stopped && w.clock < f.deadline
    ensures w.RunsHard() && w.current.value.event == Some(f) && w.results == None && w.starts != []
    ensures f in w.l.published && f in w.l.attempt && f !in w.l.expired && !w.l.Settled(f)
    ensures w.queue.pending == {} && w.pendingHard == None && w.mailbox.pending == None && !w.degraded
  {
    w, f := PublishOne(intervals);
    w.OnPlacementWake();
  }

  // The placement is halted before the deadline: afterwards the worker is idle,
  // nobody has the failure, and it was neither served nor reported.
  method HaltedAttemptIsForgotten(intervals: Intervals) returns (w: Worker, f: Failure)
    ensures fresh(w) && w.Valid() && !w.stopped && f in w.l.published && w.clock < f.deadline && w.Forgotten(f)
    ensures w.current == None && w.queue.pending == {} && w.pendingHard == None && w.mailbox.pending == None
    ensures HardFailure !in w.retries && !w.degraded
  {
    w, f := RunHard(intervals);
    w.PlaceEnds(Halted);
    w.OnResult();
  }

  // A hard failure is announced while another placement runs, and nobody holds an
  // event. The announcement is dropped; without a mailbox the placement is cancelled.
  method Announce(usesMailbox: bool, intervals: Intervals) returns (w: Worker)
    ensures fresh(w) && fresh(w.queue) && fresh(w.mailbox) && w.Valid() && !w.stopped && !w.degraded
    ensures w.current.Some? && w.current.value.reason == Manual && w.results == None
    ensures w.Preempting() == !usesMailbox && w.NobodyHolds() && w.queue.pending == {} && w.retries == map[]
    ensures forall s :: s in w.starts ==> s.reason == Manual
  {
    w := RunManual(usesMailbox, intervals);
    w.Enqueue(HardFailure);
    w.OnPlacementWake();
  }

  method RunManual(usesMailbox: bool, intervals: Intervals) returns (w: Worker)
    ensures fresh(w) && fresh(w.queue) && fresh(w.mailbox) && w.Valid() && !w.stopped && !w.degraded
    ensures w.usesMailbox == usesMailbox && w.current == Some(Attempt(Manual, None, false)) && w.results == None
    ensures w.NobodyHolds() && w.queue.pending == {} && w.retries == map[]
    ensures forall s :: s in w.starts ==> s.reason == Manual
  {
    w := new Worker(usesMailbox, true, intervals, true, false);
    w.Enqueue(Manual);
    assert {Manual} - {HardFailure} == {Manual};
    w.OnPlacementWake();
  }

  // Without a mailbox the worker is idle afterwards: the hard placement has never
  // started, and the cancelled one stays due.
  method AnnouncementIsForgotten(intervals: Intervals) returns (w: Worker)
    ensures fresh(w) && w.Valid() && !w.stopped && w.current == None && w.queue.pending == {} && w.NobodyHolds()
    ensures w.retries == map[] && !w.degraded && Manual in w.owed
    ensures forall s :: s in w.starts ==> s.reason == Manual
  {
    w := Announce(false, intervals);
    w.PlaceEnds(Halted);
    w.OnResult();
  }
}
