// Route quality: every probe becomes a sample, the last samples decide whether the
// route is degraded, and a baseline is learnt while it is not. Times are counted in
// nanoseconds; medians and moving averages are whatever the policy brings along.
module QoE {
  import opened Wrappers

  datatype Status = Learning | Healthy | Degraded

  datatype Reason = NoReason | SustainedThroughput | SlowTTFB | SlowThroughput
                  | ApplicationGates | DNSRoute | RouteTimeout | RouteTLS | RouteTransport | OtherFailure(code: string)

  predicate AvailabilityFailure(r: Reason) {
    r.ApplicationGates? || r.DNSRoute? || r.RouteTimeout? || r.RouteTLS? || r.RouteTransport?
  }

  datatype Policy = Policy(windowSize: int, badSamples: int, recoveryGoodSamples: int,
                           availabilityWindow: int, availabilityFailures: int,
                           initialTTFBLimit: real, ttfbFloor: real, ttfbMultiplier: real,
                           initialThroughput: real, throughputRatio: real,
                           median: seq<real> -> real, ewma: (real, real) -> real)

  // What the configuration accepts.
  predicate ValidPolicy(p: Policy) {
    && p.windowSize >= 1 && 0 < p.badSamples <= p.windowSize && 0 < p.recoveryGoodSamples <= p.windowSize
    && p.availabilityWindow >= 1 && 0 < p.availabilityFailures <= p.availabilityWindow
    && p.initialTTFBLimit > 0.0 && p.ttfbFloor > 0.0 && p.ttfbMultiplier > 0.0
    && p.initialThroughput > 0.0 && 0.0 < p.throughputRatio <= 1.0
  }

  datatype Observation = Observation(at: int, success: bool, infrastructure: bool, error: Reason, ttfb: real, throughput: real)

  datatype Sample = Sample(at: int, valid: bool, success: bool, bad: bool, reason: Reason, ttfb: real, throughput: real)

  datatype State = State(status: Status, baselineTTFB: real, baselineThroughput: real, baselineSamples: int,
                         recoveredAt: Option<int>)

  const Unknown := State(Learning, 0.0, 0.0, 0, None)

  // ---------- The specification ----------

  function SampleFrom(p: Policy, s: State, o: Observation): Sample {
    if !o.success then Sample(o.at, true, false, true, o.error, o.ttfb, o.throughput)
    else
      var reason := if s.baselineSamples < p.windowSize then LearningReason(p, o) else LearntReason(p, s, o);
      Sample(o.at, true, true, reason != NoReason, reason, o.ttfb, o.throughput)
  }

  function LearningReason(p: Policy, o: Observation): Reason {
    if o.ttfb > p.initialTTFBLimit then SlowTTFB
    else if o.throughput < p.initialThroughput then SustainedThroughput
    else NoReason
  }

  function LearntReason(p: Policy, s: State, o: Observation): Reason {
    if o.throughput < p.initialThroughput then SustainedThroughput
    else if o.ttfb > p.ttfbFloor && o.ttfb > s.baselineTTFB * p.ttfbMultiplier then SlowTTFB
    else if o.throughput < s.baselineThroughput * p.throughputRatio then SlowThroughput
    else NoReason
  }

  function Last(samples: seq<Sample>, size: int): seq<Sample> {
    if size <= 0 then [] else if |samples| <= size then samples else samples[|samples| - size..]
  }

  function ValidOnes(samples: seq<Sample>): seq<Sample> {
    if samples == [] then []
    else ValidOnes(samples[..|samples| - 1]) + if samples[|samples| - 1].valid then [samples[|samples| - 1]] else []
  }

  lemma ValidOnesSnoc(samples: seq<Sample>, sample: Sample)
    ensures ValidOnes(samples + [sample]) == ValidOnes(samples) + if sample.valid then [sample] else []
  {
    assert (samples + [sample])[..|samples|] == samples;
  }

  function Window(size: int, recent: seq<Sample>, sample: Sample): seq<Sample> {
    Last(ValidOnes(recent + [sample]), size)
  }

  function BadCount(samples: seq<Sample>): nat {
    if samples == [] then 0 else BadCount(samples[..|samples| - 1]) + if samples[|samples| - 1].bad then 1 else 0
  }

  predicate Outage(s: Sample, recoveredAt: Option<int>) {
    s.bad && AvailabilityFailure(s.reason) && (recoveredAt.Some? ==> s.at > recoveredAt.value)
  }

  // The outage that is still going on: the failures at the end since the recovery.
  function Streak(samples: seq<Sample>, recoveredAt: Option<int>): nat {
    if samples == [] || !Outage(samples[|samples| - 1], recoveredAt) then 0
    else Streak(samples[..|samples| - 1], recoveredAt) + 1
  }

  predicate Recovers(p: Policy, window: seq<Sample>) {
    |window| - BadCount(window) >= p.recoveryGoodSamples && BadCount(window) < p.badSamples
  }

  predicate Fails(p: Policy, window: seq<Sample>, streak: nat) {
    BadCount(window) >= p.badSamples || (p.availabilityFailures > 0 && streak >= p.availabilityFailures)
  }

  function NextStatus(p: Policy, s: State, window: seq<Sample>, streak: nat): Status {
    if s.status.Degraded? && Recovers(p, window) then
      if s.baselineSamples >= p.windowSize then Healthy else Learning
    else if Fails(p, window, streak) then Degraded
    else s.status
  }

  function Successes(samples: seq<Sample>): seq<Sample> {
    if samples == [] then []
    else Successes(samples[..|samples| - 1])
         + if samples[|samples| - 1].valid && samples[|samples| - 1].success then [samples[|samples| - 1]] else []
  }

  function TTFBs(samples: seq<Sample>): seq<real> {
    seq(|samples|, i requires 0 <= i < |samples| => samples[i].ttfb)
  }

  function Throughputs(samples: seq<Sample>): seq<real> {
    seq(|samples|, i requires 0 <= i < |samples| => samples[i].throughput)
  }

  // The first successes make the baseline.
  function Learn(p: Policy, s: State, learning: seq<Sample>, sample: Sample): State
    requires p.windowSize >= 0
  {
    var all := Successes(learning + [sample]);
    var first := if |all| > p.windowSize then all[..p.windowSize] else all;
    if |first| != p.windowSize || p.windowSize == 0 then s.(baselineSamples := |first|)
    else s.(baselineSamples := |first|, baselineTTFB := p.median(TTFBs(first)), baselineThroughput := p.median(Throughputs(first)))
  }

  function Adapt(p: Policy, s: State, learning: seq<Sample>, sample: Sample): State
    requires p.windowSize >= 0
  {
    if s.baselineSamples < p.windowSize then Learn(p, s, learning, sample)
    else if sample.success && !sample.bad then
      s.(baselineTTFB := p.ewma(s.baselineTTFB, sample.ttfb), baselineThroughput := p.ewma(s.baselineThroughput, sample.throughput))
    else s
  }

  function ApplySpec(p: Policy, s: State, recent: seq<Sample>, learning: seq<Sample>, o: Observation): (State, Sample)
    requires p.windowSize >= 0
  {
    var sample := SampleFrom(p, s, o);
    var streak := Streak(Window(p.availabilityWindow, recent, sample), s.recoveredAt);
    var status := NextStatus(p, s, Window(p.windowSize, recent, sample), streak);
    var adapted := if s.status.Degraded? || status.Degraded? then s else Adapt(p, s, learning, sample);
    var next :=
      if !s.status.Degraded? && !status.Degraded? && s.baselineSamples < p.windowSize && adapted.baselineSamples >= p.windowSize
      then Healthy else status;
    (adapted.(status := next, recoveredAt := if s.status.Degraded? && !next.Degraded? then Some(o.at) else s.recoveredAt), sample)
  }

  // ---------- The code ----------

  method LatestWindow(size: int, recent: seq<Sample>, sample: Sample) returns (window: seq<Sample>)
    ensures window == Window(size, recent, sample)
  {
    window := [];
    for i := 0 to |recent|
      invariant window == ValidOnes(recent[..i])
    {
      ValidOnesSnoc(recent[..i], recent[i]);
      assert recent[..i + 1] == recent[..i] + [recent[i]];
      if recent[i].valid {
        window := window + [recent[i]];
      }
    }
    assert recent[..|recent|] == recent;
    ValidOnesSnoc(recent, sample);
    if sample.valid {
      window := window + [sample];
    }
    if size <= 0 {
      return [];
    }
    if |window| > size {
      window := window[|window| - size..];
    }
  }

  method WindowCounts(window: seq<Sample>) returns (valid: nat, bad: nat)
    ensures valid == |window| && bad == BadCount(window)
  {
    valid, bad := |window|, 0;
    for i := 0 to |window|
      invariant bad == BadCount(window[..i])
    {
      assert window[..i + 1][..i] == window[..i];
      if window[i].bad {
        bad := bad + 1;
      }
    }
    assert window[..|window|] == window;
  }

  method CountAvailabilityFailures(window: seq<Sample>, recoveredAt: Option<int>) returns (count: nat)
    ensures count == Streak(window, recoveredAt)
  {
    count := 0;
    var index := |window|;
    assert window[..|window|] == window;
    while index > 0
      invariant 0 <= index <= |window| && Streak(window, recoveredAt) == count + Streak(window[..index], recoveredAt)
    {
      var sample := window[index - 1];
      assert window[..index][..index - 1] == window[..index - 1];
      if !sample.bad || !AvailabilityFailure(sample.reason) || (recoveredAt.Some? && !(sample.at > recoveredAt.value)) {
        break;
      }
      count := count + 1;
      index := index - 1;
    }
  }

  method LearnBaseline(p: Policy, s: State, learning: seq<Sample>, sample: Sample) returns (next: State)
    requires p.windowSize >= 0
    ensures next == Learn(p, s, learning, sample)
  {
    var successes := SuccessfulOnes(learning, sample);
    if |successes| > p.windowSize {
      successes := successes[..p.windowSize];
    }
    next := s.(baselineSamples := |successes|);
    if |successes| != p.windowSize || p.windowSize == 0 {
      return;
    }
    var ttfb, throughput := Measurements(successes);
    next := next.(baselineTTFB := p.median(ttfb), baselineThroughput := p.median(throughput));
  }

  method SuccessfulOnes(learning: seq<Sample>, sample: Sample) returns (successes: seq<Sample>)
    ensures successes == Successes(learning + [sample])
  {
    successes := [];
    for i := 0 to |learning|
      invariant successes == Successes(learning[..i])
    {
      assert learning[..i + 1][..i] == learning[..i];
      if learning[i].valid && learning[i].success {
        successes := successes + [learning[i]];
      }
    }
    assert learning[..|learning|] == learning && (learning + [sample])[..|learning|] == learning;
    if sample.valid && sample.success {
      successes := successes + [sample];
    }
  }

  method Measurements(successes: seq<Sample>) returns (ttfb: seq<real>, throughput: seq<real>)
    ensures ttfb == TTFBs(successes) && throughput == Throughputs(successes)
  {
    ttfb, throughput := [], [];
    for i := 0 to |successes|
      invariant ttfb == TTFBs(successes)[..i] && throughput == Throughputs(successes)[..i]
    {
      ttfb := ttfb + [successes[i].ttfb];
      throughput := throughput + [successes[i].throughput];
    }
  }

  // An infrastructure failure is no sample and changes nothing.
  method Apply(p: Policy, current: State, recent: seq<Sample>, learning: seq<Sample>, o: Observation)
    returns (next: State, sample: Option<Sample>)
    requires p.windowSize >= 0
    ensures o.infrastructure ==> next == current && sample == None
    ensures !o.infrastructure ==>
      sample.Some? && (next, sample.value) == ApplySpec(p, current, recent, learning, o)
  {
    if o.infrastructure {
      return current, None;
    }
    var taken := SampleFrom(p, current, o);
    var window := LatestWindow(p.windowSize, recent, taken);
    var availabilityWindow := LatestWindow(p.availabilityWindow, recent, taken);
    var failures := CountAvailabilityFailures(availabilityWindow, current.recoveredAt);
    var availabilityDegraded := p.availabilityFailures > 0 && failures >= p.availabilityFailures;
    var valid, bad := WindowCounts(window);
    next := current;
    var nextStatus := current.status;
    if current.status == Degraded && valid - bad >= p.recoveryGoodSamples && bad < p.badSamples {
      nextStatus := if next.baselineSamples >= p.windowSize then Healthy else Learning;
    } else if bad >= p.badSamples || availabilityDegraded {
      nextStatus := Degraded;
    }
    if current.status != Degraded && nextStatus != Degraded {
      if next.baselineSamples < p.windowSize {
        next := LearnBaseline(p, next, learning, taken);
        if next.baselineSamples >= p.windowSize {
          nextStatus := Healthy;
        }
      } else if taken.success && !taken.bad {
        next := next.(baselineTTFB := p.ewma(next.baselineTTFB, taken.ttfb),
                      baselineThroughput := p.ewma(next.baselineThroughput, taken.throughput));
      }
    }
    next := next.(status := nextStatus);
    if current.status == Degraded && nextStatus != Degraded {
      next := next.(recoveredAt := Some(o.at));
    }
    sample := Some(taken);
  }

  // ---------- Whole runs ----------

  datatype Input = Input(o: Observation, learning: seq<Sample>)

  function Keep(p: Policy): int {
    if p.windowSize > p.availabilityWindow then p.windowSize else p.availabilityWindow
  }

  // Every observation is judged by the last samples of the same run. What is offered
  // for learning may be anything.
  ghost predicate Run(p: Policy, states: seq<State>, samples: seq<Sample>, inputs: seq<Input>) {
    && ValidPolicy(p) && |states| == |inputs| + 1 && |samples| == |inputs| && states[0] == Unknown
    && forall k :: 0 <= k < |inputs| ==> Stepped(p, states, samples, inputs, k)
  }

  ghost predicate Stepped(p: Policy, states: seq<State>, samples: seq<Sample>, inputs: seq<Input>, k: int)
    requires p.windowSize >= 0 && 0 <= k < |inputs| && |states| == |inputs| + 1 && |samples| == |inputs|
  {
    && !inputs[k].o.infrastructure
    && (states[k + 1], samples[k]) == ApplySpec(p, states[k], Last(samples[..k], Keep(p)), inputs[k].learning, inputs[k].o)
  }

  ghost predicate Ticking(samples: seq<Sample>) {
    forall i, j :: 0 <= i < j < |samples| ==> samples[i].at < samples[j].at
  }

  lemma {:induction false} ValidOnesOfValid(samples: seq<Sample>)
    requires forall i :: 0 <= i < |samples| ==> samples[i].valid
    ensures ValidOnes(samples) == samples
  {
    if samples != [] {
      ValidOnesOfValid(samples[..|samples| - 1]);
    }
  }

  // What a step sees is the end of the run's history.
  lemma WindowOfRun(p: Policy, states: seq<State>, samples: seq<Sample>, inputs: seq<Input>, k: nat, size: int)
    requires Run(p, states, samples, inputs) && k < |inputs| && 0 < size <= Keep(p)
    ensures Window(size, Last(samples[..k], Keep(p)), samples[k]) == Last(samples[..k + 1], size)
  {
    forall i | 0 <= i <= k
      ensures samples[i].valid
    {
      assert Stepped(p, states, samples, inputs, i);
    }
    WindowOfHistory(samples[..k], samples[k], Keep(p), size);
    assert samples[..k + 1] == samples[..k] + [samples[k]];
  }

  lemma WindowOfHistory(h: seq<Sample>, sample: Sample, keep: int, size: int)
    requires 0 < size <= keep && sample.valid && forall i :: 0 <= i < |h| ==> h[i].valid
    ensures Window(size, Last(h, keep), sample) == Last(h + [sample], size)
  {
    ValidOnesOfValid(Last(h, keep) + [sample]);
    LastOfLast(h, sample, keep, size);
  }

  lemma LastOfLast(h: seq<Sample>, sample: Sample, keep: int, size: int)
    requires 0 < size <= keep
    ensures Last(Last(h, keep) + [sample], size) == Last(h + [sample], size)
  {
    if |h| > keep {
      var kept := h[|h| - keep..];
      assert Last(h, keep) == kept;
      assert (kept + [sample])[keep + 1 - size..] == (h + [sample])[|h| + 1 - size..];
    } else {
      assert Last(h, keep) == h;
    }
  }

  // A step of a run in terms of the history alone.
  lemma StepOfRun(p: Policy, states: seq<State>, samples: seq<Sample>, inputs: seq<Input>, k: nat)
    requires Run(p, states, samples, inputs) && k < |inputs|
    ensures var s, s' := states[k], states[k + 1];
      var status := NextStatus(p, s, Last(samples[..k + 1], p.windowSize),
                               Streak(Last(samples[..k + 1], p.availabilityWindow), s.recoveredAt));
      && samples[k] == SampleFrom(p, s, inputs[k].o)
      && (s'.status.Degraded? <==> status.Degraded?)
      && s'.recoveredAt == (if s.status.Degraded? && !status.Degraded? then Some(samples[k].at) else s.recoveredAt)
  {
    WindowOfRun(p, states, samples, inputs, k, p.windowSize);
    WindowOfRun(p, states, samples, inputs, k, p.availabilityWindow);
    assert Stepped(p, states, samples, inputs, k);
  }

  lemma {:induction false} BadCountConcat(a: seq<Sample>, b: seq<Sample>)
    ensures BadCount(a + b) == BadCount(a) + BadCount(b)
  {
    if b == [] {
      assert a + b == a;
    } else {
      assert (a + b)[..|a + b| - 1] == a + b[..|b| - 1];
      BadCountConcat(a, b[..|b| - 1]);
    }
  }

  lemma {:induction false} BadCountOf(samples: seq<Sample>, bad: bool)
    requires forall i :: 0 <= i < |samples| ==> samples[i].bad == bad
    ensures BadCount(samples) == if bad then |samples| else 0
  {
    if samples != [] {
      BadCountOf(samples[..|samples| - 1], bad);
    }
  }

  lemma LastSplits(samples: seq<Sample>, size: int, n: int)
    requires 0 <= n <= size && n <= |samples|
    ensures Last(samples, size) == Last(samples, size)[..|Last(samples, size)| - n] + samples[|samples| - n..]
  {
  }

  // ---------- Enough bad samples degrade, enough good ones recover ----------

  lemma BadRunDegrades(p: Policy, states: seq<State>, samples: seq<Sample>, inputs: seq<Input>, k: nat)
    requires Run(p, states, samples, inputs) && k < |inputs| && k + 1 >= p.badSamples
    requires forall i :: k + 1 - p.badSamples <= i <= k ==> samples[i].bad
    ensures states[k + 1].status == Degraded
  {
    var h := samples[..k + 1];
    StepOfRun(p, states, samples, inputs, k);
    LastSplits(h, p.windowSize, p.badSamples);
    var tail := h[|h| - p.badSamples..];
    BadCountOf(tail, true);
    BadCountConcat(Last(h, p.windowSize)[..|Last(h, p.windowSize)| - p.badSamples], tail);
  }

  lemma GoodRunRecovers(p: Policy, states: seq<State>, samples: seq<Sample>, inputs: seq<Input>, k: nat)
    requires Run(p, states, samples, inputs) && k < |inputs| && k + 1 >= p.windowSize
    requires forall i :: k + 1 - p.windowSize <= i <= k ==> !samples[i].bad
    ensures states[k + 1].status != Degraded
  {
    var h := samples[..k + 1];
    StepOfRun(p, states, samples, inputs, k);
    BadCountOf(Last(h, p.windowSize), false);
    assert Last(h, p.availabilityWindow)[|Last(h, p.availabilityWindow)| - 1] == samples[k];
  }

  // ---------- The baseline ----------

  // Healthy means a complete baseline, in every state of every run.
  lemma {:induction false} HealthyHasBaseline(p: Policy, states: seq<State>, samples: seq<Sample>, inputs: seq<Input>, k: nat)
    requires Run(p, states, samples, inputs) && k < |states|
    ensures states[k].status == Healthy ==> states[k].baselineSamples >= p.windowSize
  {
    if k > 0 {
      HealthyHasBaseline(p, states, samples, inputs, k - 1);
      assert Stepped(p, states, samples, inputs, k - 1);
    }
  }

  // The baseline does not move on the way into, during, or out of a degradation.
  lemma BaselineRestsWhileDegraded(p: Policy, states: seq<State>, samples: seq<Sample>, inputs: seq<Input>, k: nat)
    requires Run(p, states, samples, inputs) && k < |inputs|
    requires states[k].status == Degraded || states[k + 1].status == Degraded
    ensures states[k + 1].baselineTTFB == states[k].baselineTTFB
    ensures states[k + 1].baselineThroughput == states[k].baselineThroughput
    ensures states[k + 1].baselineSamples == states[k].baselineSamples
  {
    assert Stepped(p, states, samples, inputs, k);
  }

  // ---------- Outages ----------

  predicate FailedRoute(s: Sample) {
    s.bad && AvailabilityFailure(s.reason)
  }

  lemma {:induction false} StreakMeans(samples: seq<Sample>, recoveredAt: Option<int>, n: nat)
    ensures Streak(samples, recoveredAt) >= n <==>
      n <= |samples| && forall i :: |samples| - n <= i < |samples| ==> Outage(samples[i], recoveredAt)
  {
    if n > 0 && samples != [] {
      StreakMeans(samples[..|samples| - 1], recoveredAt, n - 1);
    }
  }

  // A bad sample never makes a window look recovered that did not before.
  lemma BadSampleDoesNotHelp(p: Policy, h: seq<Sample>, sample: Sample)
    requires ValidPolicy(p) && sample.bad && Recovers(p, Last(h + [sample], p.windowSize))
    ensures Recovers(p, Last(h, p.windowSize))
  {
    var before, after := Last(h, p.windowSize), Last(h + [sample], p.windowSize);
    BadCountConcat(before, [sample]);
    assert BadCount([sample]) == 1 by {
      BadCountOf([sample], true);
    }
    if |h| < p.windowSize {
      assert after == before + [sample];
    } else {
      assert before + [sample] == [before[0]] + after;
      BadCountConcat([before[0]], after);
      BadCountOf([before[0]], before[0].bad);
    }
  }

  // Policies under which a recovery cannot be decided on a failing sample.
  predicate Steady(p: Policy) {
    p.availabilityFailures + 1 >= p.badSamples || p.availabilityFailures + 1 > p.windowSize - p.recoveryGoodSamples
  }

  lemma RecoversOnGoodSample(p: Policy, states: seq<State>, samples: seq<Sample>, inputs: seq<Input>, k: nat)
    requires Run(p, states, samples, inputs) && k < |inputs| && Steady(p)
    requires states[k].status == Degraded && states[k + 1].status != Degraded
    ensures !samples[k].bad
  {
    if samples[k].bad {
      RecoversInWindow(p, states, samples, inputs, k);
      assert samples[..k + 1] == samples[..k] + [samples[k]];
      BadSampleDoesNotHelp(p, samples[..k], samples[k]);
      DegradedByOutage(p, states, samples, inputs, k - 1);
      NoRecoveryInOutage(p, samples[..k + 1]);
      assert false;
    }
  }

  lemma RecoversInWindow(p: Policy, states: seq<State>, samples: seq<Sample>, inputs: seq<Input>, k: nat)
    requires Run(p, states, samples, inputs) && k < |inputs|
    requires states[k].status == Degraded && states[k + 1].status != Degraded
    ensures k < |samples| && Recovers(p, Last(samples[..k + 1], p.windowSize))
    ensures k > 0 && ValidPolicy(p)
  {
    StepOfRun(p, states, samples, inputs, k);
  }

  lemma NoRecoveryInOutage(p: Policy, h: seq<Sample>)
    requires ValidPolicy(p) && Steady(p) && p.availabilityFailures + 1 <= |h|
    requires forall i :: |h| - (p.availabilityFailures + 1) <= i < |h| ==> h[i].bad
    ensures !Recovers(p, Last(h, p.windowSize))
  {
    TailOfWindow(h, p.windowSize, p.availabilityFailures + 1);
  }

  // A window that looks recovered and a degraded route: only an outage explains it.
  lemma DegradedByOutage(p: Policy, states: seq<State>, samples: seq<Sample>, inputs: seq<Input>, k: nat)
    requires Run(p, states, samples, inputs) && k < |inputs|
    requires states[k + 1].status == Degraded && Recovers(p, Last(samples[..k + 1], p.windowSize))
    ensures p.availabilityFailures <= k + 1 && forall i :: k + 1 - p.availabilityFailures <= i <= k ==> samples[i].bad
  {
    StepOfRun(p, states, samples, inputs, k);
    OutageIsAtTheEnd(p, samples[..k + 1], states[k].recoveredAt);
    assert forall i :: k + 1 - p.availabilityFailures <= i <= k ==> samples[i] == samples[..k + 1][i];
  }

  lemma OutageIsAtTheEnd(p: Policy, h: seq<Sample>, recoveredAt: Option<int>)
    requires ValidPolicy(p) && Streak(Last(h, p.availabilityWindow), recoveredAt) >= p.availabilityFailures
    ensures p.availabilityFailures <= |h| && forall i :: |h| - p.availabilityFailures <= i < |h| ==> h[i].bad
  {
    var n, seen := p.availabilityFailures, Last(h, p.availabilityWindow);
    StreakMeans(seen, recoveredAt, n);
    forall i | |h| - n <= i < |h|
      ensures h[i].bad
    {
      assert seen[|seen| - (|h| - i)] == h[i];
    }
  }

  // If the last n samples are bad, the window holds n bad ones or nothing else.
  lemma TailOfWindow(h: seq<Sample>, size: int, n: nat)
    requires n <= |h| && size > 0 && forall i :: |h| - n <= i < |h| ==> h[i].bad
    ensures BadCount(Last(h, size)) >= if n <= size then n else size
  {
    var m := if n <= size then n else size;
    LastSplits(h, size, m);
    BadCountOf(h[|h| - m..], true);
    BadCountConcat(Last(h, size)[..|Last(h, size)| - m], h[|h| - m..]);
  }

  // The last recovery, if any, was decided on a good sample of the run.
  lemma {:induction false} RecoveredOnGood(p: Policy, states: seq<State>, samples: seq<Sample>, inputs: seq<Input>, k: nat)
    returns (r: int)
    requires Run(p, states, samples, inputs) && k < |states| && Steady(p)
    ensures states[k].recoveredAt.Some? ==>
      0 <= r < k && !samples[r].bad && states[k].recoveredAt == Some(samples[r].at)
  {
    r := 0;
    if k > 0 {
      r := RecoveredOnGood(p, states, samples, inputs, k - 1);
      StepOfRun(p, states, samples, inputs, k - 1);
      if states[k - 1].status == Degraded && states[k].status != Degraded {
        RecoversOnGoodSample(p, states, samples, inputs, k - 1);
        r := k - 1;
      }
    }
  }

  // Under a steady policy a route that has failed so many times in a row is degraded.
  lemma OutageDegrades(p: Policy, states: seq<State>, samples: seq<Sample>, inputs: seq<Input>, k: nat)
    requires Run(p, states, samples, inputs) && k < |inputs| && k + 1 >= p.availabilityFailures
    requires Steady(p) && Ticking(samples)
    requires forall i :: k + 1 - p.availabilityFailures <= i <= k ==> FailedRoute(samples[i])
    ensures states[k + 1].status == Degraded
  {
    StepOfRun(p, states, samples, inputs, k);
    if states[k].status == Degraded {
      if states[k + 1].status != Degraded {
        RecoversOnGoodSample(p, states, samples, inputs, k);
      }
    } else {
      var r := RecoveredOnGood(p, states, samples, inputs, k);
      var n, seen := p.availabilityFailures, Last(samples[..k + 1], p.availabilityWindow);
      forall i | |seen| - n <= i < |seen|
        ensures Outage(seen[i], states[k].recoveredAt)
      {
        assert seen[i] == samples[k + 1 - |seen| + i];
      }
      StreakMeans(seen, states[k].recoveredAt, n);
    }
  }

  function Min(a: int, b: int): int {
    if a < b then a else b
  }

  // ---------- Policies under which an outage does not hold ----------

  // A run under construction, with the state it has reached.
  datatype Course = Course(states: seq<State>, samples: seq<Sample>, inputs: seq<Input>) {
    function Now(): State
      requires states != []
    {
      states[|states| - 1]
    }
  }

  ghost predicate IsCourse(p: Policy, c: Course) {
    Run(p, c.states, c.samples, c.inputs) && Ticking(c.samples)
  }

  function Observe(p: Policy, c: Course, o: Observation): Course
    requires p.windowSize >= 0 && c.states != []
  {
    var r := ApplySpec(p, c.Now(), Last(c.samples, Keep(p)), [], o);
    Course(c.states + [r.0], c.samples + [r.1], c.inputs + [Input(o, [])])
  }

  lemma ObserveKeeps(p: Policy, c: Course, o: Observation)
    requires IsCourse(p, c) && !o.infrastructure && o.at == |c.samples|
    requires forall i :: 0 <= i < |c.samples| ==> c.samples[i].at == i
    ensures var c' := Observe(p, c, o);
      IsCourse(p, c') && |c'.samples| == |c.samples| + 1 && c'.samples[..|c.samples|] == c.samples
      && c'.samples[|c.samples|] == SampleFrom(p, c.Now(), o) && forall i :: 0 <= i < |c'.samples| ==> c'.samples[i].at == i
  {
    var c' := Observe(p, c, o);
    forall k | 0 <= k < |c'.inputs|
      ensures Stepped(p, c'.states, c'.samples, c'.inputs, k)
    {
      if k < |c.inputs| {
        assert Stepped(p, c.states, c.samples, c.inputs, k);
        assert c'.samples[..k] == c.samples[..k];
      } else {
        assert c'.samples[..k] == c.samples;
      }
    }
  }

  function Good(p: Policy, c: Course): Observation
    requires c.states != []
  {
    var base := c.Now().baselineThroughput;
    Observation(|c.samples|, true, false, NoReason, 0.0, if base > p.initialThroughput then base else p.initialThroughput)
  }

  function Failing(c: Course): Observation {
    Observation(|c.samples|, false, false, RouteTimeout, 0.0, 0.0)
  }

  lemma GoodIsGood(p: Policy, c: Course)
    requires ValidPolicy(p) && c.states != []
    ensures !SampleFrom(p, c.Now(), Good(p, c)).bad
  {
    var o := Good(p, c);
    RatioShrinks(c.Now().baselineThroughput, p.throughputRatio, o.throughput);
    assert LearntReason(p, c.Now(), o) == NoReason && LearningReason(p, o) == NoReason;
  }

  lemma RatioShrinks(base: real, ratio: real, throughput: real)
    requires 0.0 < ratio <= 1.0 && throughput >= base && throughput > 0.0
    ensures throughput >= base * ratio
  {
    if base > 0.0 {
      assert base - base * ratio == base * (1.0 - ratio);
      assert base * (1.0 - ratio) >= 0.0;
    } else {
      assert base * ratio <= 0.0;
    }
  }

  lemma BadOfCourse(samples: seq<Sample>, good: nat, failing: nat, size: int)
    requires |samples| == good + failing && failing <= size
    requires forall i :: 0 <= i < good ==> !samples[i].bad
    requires forall i :: good <= i < good + failing ==> FailedRoute(samples[i])
    ensures BadCount(Last(samples, size)) == failing
  {
    var w := Last(samples, size);
    var front, back := w[..|w| - failing], w[|w| - failing..];
    BadCountOf(front, false);
    BadCountOf(back, true);
    assert w == front + back;
    BadCountConcat(front, back);
  }

  lemma StreakOfCourse(samples: seq<Sample>, good: nat, failing: nat, size: nat, n: nat)
    requires |samples| == good + failing && n <= size
    requires forall i :: 0 <= i < good ==> !samples[i].bad
    requires forall i :: good <= i < good + failing ==> FailedRoute(samples[i])
    ensures Streak(Last(samples, size), None) >= n <==> failing >= n
  {
    var a := Last(samples, size);
    StreakMeans(a, None, n);
    if n > failing && n <= |a| {
      assert a[|a| - n] == samples[|samples| - n];
      assert a[|a| - 1 - failing] == samples[good - 1];
    }
  }

  ghost predicate Shape(c: Course, good: nat, failing: nat) {
    && |c.samples| == good + failing
    && (forall i :: 0 <= i < |c.samples| ==> c.samples[i].at == i)
    && (forall i :: 0 <= i < good ==> !c.samples[i].bad)
    && (forall i :: good <= i < good + failing ==> FailedRoute(c.samples[i]))
  }

  lemma CourseGrows(p: Policy, b: Course, o: Observation, good: nat, failing: nat, bad: bool)
    requires IsCourse(p, b) && Shape(b, good, failing) && !o.infrastructure && o.at == |b.samples|
    requires if bad then FailedRoute(SampleFrom(p, b.Now(), o)) else failing == 0 && !SampleFrom(p, b.Now(), o).bad
    ensures var c := Observe(p, b, o);
      && IsCourse(p, c) && c.samples[..|b.samples|] == b.samples
      && (if bad then Shape(c, good, failing + 1) else Shape(c, good + 1, 0))
  {
    var c := Observe(p, b, o);
    ObserveKeeps(p, b, o);
    assert forall i :: 0 <= i < |b.samples| ==> c.samples[i] == b.samples[i];
  }

  // One more sample, and whether the route is degraded by then.
  lemma CourseStatus(p: Policy, b: Course, c: Course, good: nat, failing: nat)
    requires IsCourse(p, c) && Shape(c, good, failing) && good + failing > 0 && failing <= p.windowSize
    requires b.states != [] && |c.states| == |b.states| + 1 && c.states[..|b.states|] == b.states && b.Now().recoveredAt == None
    ensures b.Now().status != Degraded ==> c.Now().recoveredAt == None
    ensures b.Now().status != Degraded ==>
      (c.Now().status == Degraded <==> failing >= p.badSamples || failing >= p.availabilityFailures)
    ensures b.Now().status == Degraded ==>
      failing < p.badSamples && Min(good + failing, p.windowSize) - failing >= p.recoveryGoodSamples ==>
      c.Now().status != Degraded
  {
    var k := |c.samples| - 1;
    StepOfRun(p, c.states, c.samples, c.inputs, k);
    assert c.samples[..k + 1] == c.samples && c.states[k] == b.Now() && c.states[k + 1] == c.Now();
    BadOfCourse(c.samples, good, failing, p.windowSize);
    StreakOfCourse(c.samples, good, failing, p.availabilityWindow, p.availabilityFailures);
  }

  lemma {:induction false} GoodCourse(p: Policy, n: nat) returns (c: Course)
    requires ValidPolicy(p)
    ensures IsCourse(p, c) && Shape(c, n, 0) && c.Now().recoveredAt == None && c.Now().status != Degraded
  {
    if n == 0 {
      c := Course([Unknown], [], []);
    } else {
      var b := GoodCourse(p, n - 1);
      c := Observe(p, b, Good(p, b));
      GoodIsGood(p, b);
      CourseGrows(p, b, Good(p, b), n - 1, 0, false);
      CourseStatus(p, b, c, n, 0);
    }
  }

  // Failing samples leave the route alone until their number is reached.
  lemma {:induction false} FailingCourse(p: Policy, n: nat, m: nat) returns (c: Course)
    requires ValidPolicy(p) && p.availabilityFailures < p.badSamples && m <= p.availabilityFailures
    ensures IsCourse(p, c) && Shape(c, n, m) && c.Now().recoveredAt == None
    ensures c.Now().status == Degraded <==> m == p.availabilityFailures
  {
    if m == 0 {
      c := GoodCourse(p, n);
    } else {
      var b := FailingCourse(p, n, m - 1);
      c := Observe(p, b, Failing(b));
      CourseGrows(p, b, Failing(b), n, m - 1, true);
      CourseStatus(p, b, c, n, m);
    }
  }

  // Without a steady policy one more failure brings the route back: after a full
  // window of good samples, the failure after the one that degraded it recovers it.
  lemma OutageRecovers(p: Policy) returns (c: Course)
    requires ValidPolicy(p) && !Steady(p)
    ensures IsCourse(p, c) && EndsInOutage(p, c) && c.Now().status != Degraded
  {
    var n, m := p.windowSize, p.availabilityFailures;
    var b := FailingCourse(p, n, m);
    c := Observe(p, b, Failing(b));
    CourseGrows(p, b, Failing(b), n, m, true);
    CourseStatus(p, b, c, n, m + 1);
  }

  // An outage of the configured length always degrades the route exactly when the
  // policy is steady.
  predicate EndsInOutage(p: Policy, c: Course) {
    && 0 <= p.availabilityFailures <= |c.samples|
    && forall i :: |c.samples| - p.availabilityFailures <= i < |c.samples| ==> FailedRoute(c.samples[i])
  }

  ghost predicate OutagesDegrade(p: Policy) {
    forall c: Course :: IsCourse(p, c) && EndsInOutage(p, c) ==> c.Now().status == Degraded
  }

  lemma OutagesDegradeIfSteady(p: Policy)
    requires ValidPolicy(p)
    ensures OutagesDegrade(p) <==> Steady(p)
  {
    if Steady(p) {
      forall c: Course | IsCourse(p, c) && EndsInOutage(p, c)
        ensures c.Now().status == Degraded
      {
        OutageDegrades(p, c.states, c.samples, c.inputs, |c.samples| - 1);
      }
    } else {
      var c := OutageRecovers(p);
    }
  }

  // ---------- How soon a recovered route can be degraded again ----------

  lemma NewBadOnly(h: seq<Sample>, news: seq<Sample>, size: int)
    requires size > 0
    ensures BadCount(Last(h + news, size)) <= BadCount(Last(h, size)) + BadCount(news)
  {
    var all, was := Last(h + news, size), Last(h, size);
    if |news| >= size {
      assert news == news[..|news| - size] + all;
      BadCountConcat(news[..|news| - size], all);
    } else {
      var kept := |all| - |news|;
      assert all == was[|was| - kept..] + news;
      BadCountConcat(was[|was| - kept..], news);
      assert was == was[..|was| - kept] + was[|was| - kept..];
      BadCountConcat(was[..|was| - kept], was[|was| - kept..]);
    }
  }

  lemma {:induction false} RecoveredAtStays(p: Policy, states: seq<State>, samples: seq<Sample>, inputs: seq<Input>, r: nat, d: nat)
    requires Run(p, states, samples, inputs) && r < d < |states|
    requires states[r].status == Degraded && forall k :: r < k <= d ==> states[k].status != Degraded
    ensures states[d].recoveredAt == Some(samples[r].at)
  {
    StepOfRun(p, states, samples, inputs, d - 1);
    if d - 1 > r {
      RecoveredAtStays(p, states, samples, inputs, r, d - 1);
    }
  }

  // What it takes to recover, and to be degraded.
  lemma Turned(p: Policy, states: seq<State>, samples: seq<Sample>, inputs: seq<Input>, k: nat)
    requires Run(p, states, samples, inputs) && k < |inputs|
    ensures states[k].status == Degraded && states[k + 1].status != Degraded ==> Recovers(p, Last(samples[..k + 1], p.windowSize))
    ensures states[k].status != Degraded && states[k + 1].status == Degraded ==>
      BadCount(Last(samples[..k + 1], p.windowSize)) >= p.badSamples
      || Streak(Last(samples[..k + 1], p.availabilityWindow), states[k].recoveredAt) >= p.availabilityFailures
  {
    StepOfRun(p, states, samples, inputs, k);
  }

  // Hysteresis: between a recovery at sample r and the next degradation at sample d
  // there are at least so many new bad samples.
  lemma HysteresisGap(p: Policy, states: seq<State>, samples: seq<Sample>, inputs: seq<Input>, r: nat, d: nat)
    requires Run(p, states, samples, inputs) && Ticking(samples) && r < d < |inputs|
    requires states[r].status == Degraded && (forall k :: r < k <= d ==> states[k].status != Degraded)
    requires states[d + 1].status == Degraded
    ensures BadCount(samples[r + 1..d + 1]) >=
      Min(p.availabilityFailures, p.badSamples - Min(p.windowSize - p.recoveryGoodSamples, p.badSamples - 1))
  {
    var h, news := samples[..r + 1], samples[r + 1..d + 1];
    assert samples[..d + 1] == h + news;
    var n, seen := p.availabilityFailures, Last(h + news, p.availabilityWindow);
    Turned(p, states, samples, inputs, r);
    Turned(p, states, samples, inputs, d);
    if Streak(seen, states[d].recoveredAt) >= n {
      RecoveredAtStays(p, states, samples, inputs, r, d);
      StreakMeans(seen, states[d].recoveredAt, n);
      OutageIsNew(samples, r, d, seen, n);
    } else {
      WindowGap(p, h, news);
    }
  }

  lemma WindowGap(p: Policy, h: seq<Sample>, news: seq<Sample>)
    requires ValidPolicy(p) && Recovers(p, Last(h, p.windowSize)) && BadCount(Last(h + news, p.windowSize)) >= p.badSamples
    ensures BadCount(news) >= p.badSamples - Min(p.windowSize - p.recoveryGoodSamples, p.badSamples - 1)
  {
    NewBadOnly(h, news, p.windowSize);
  }

  lemma OutageIsNew(samples: seq<Sample>, r: nat, d: nat, seen: seq<Sample>, n: nat)
    requires Ticking(samples) && r < d < |samples| && n <= |seen| <= d + 1 && seen == samples[d + 1 - |seen|..d + 1]
    requires forall i :: |seen| - n <= i < |seen| ==> Outage(seen[i], Some(samples[r].at))
    ensures BadCount(samples[r + 1..d + 1]) >= n
  {
    forall i | d + 1 - n <= i <= d
      ensures samples[i].bad && i > r
    {
      assert seen[|seen| - (d + 1 - i)] == samples[i];
    }
    if n > 0 {
      var news := samples[r + 1..d + 1];
      assert samples[d + 1 - n].bad && d + 1 - n > r;
      BadCountOf(news[|news| - n..], true);
      assert news == news[..|news| - n] + news[|news| - n..];
      BadCountConcat(news[..|news| - n], news[|news| - n..]);
    }
  }
}
