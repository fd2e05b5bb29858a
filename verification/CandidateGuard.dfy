/** The candidate's own use of the guard: its runtime snapshots are adapted to guard samples, its
    first sample only sets a baseline, and a delayed sample may be forgiven while the independent
    monitor is known to be sampling. */
module CandidateGuard {
  import opened Prelude
  import opened ResourceGuard
  import opened Runs

  /** The kernel's `memory.pressure` text as the adapter sees it. */
  datatype PressureText = NoFullLine | FullLine(totalUs: Option<int>)

  datatype Snapshot = Snapshot(
    sampledNs: Option<int>,
    memAvailable: Option<int>,
    swapFree: Option<int>,
    systemStallUs: Option<int>,
    pressure: PressureText,
    storedStallUs: Option<int>,
    memoryEvents: map<string, int>)

  /** A runtime sample is always dated: by its own clock reading, else by the caller's time. */
  type DatedSample = s: Sample | s.sampledNs.Some?
    witness Sample(Some(0), None, None, None, None, map[])

  function Truncate(x: real): int {
    if x >= 0.0 then x.Floor else -((-x).Floor)
  }

  function Adapt(r: Snapshot, now: real): DatedSample {
    Sample(
      Some(r.sampledNs.GetOr(Truncate(now * 1000000000.0))),
      r.memAvailable,
      r.swapFree,
      r.systemStallUs,
      (match r.pressure case NoFullLine => r.storedStallUs case FullLine(totalUs) => totalUs),
      r.memoryEvents)
  }

  function TimeOf(s: DatedSample): real {
    Seconds(s.sampledNs.value)
  }

  predicate LowMemory(s: Sample) {
    s.memAvailable.GetOr(0) < MEM_AVAILABLE_FLOOR
  }

  predicate HasTotals(s: Sample) {
    s.systemStallUs.Some? && s.candidateStallUs.Some?
  }

  datatype GuardState = GuardState(previous: Option<DatedSample>, since: Timers)

  /** A sample without a predecessor that carries both totals sets the counter baseline; it trips
      nothing and starts the timer of low memory at once. */
  predicate SetsBaseline(sample: DatedSample, baseline: map<string, int>, previous: Option<DatedSample>) {
    && previous.None?
    && ImmediateTrigger(sample, baseline, previous) == Some(PsiTelemetryUnavailable)
    && HasTotals(sample)
  }

  function EvaluateTrigger(g: GuardState, sample: DatedSample, baseline: map<string, int>): Option<Trigger> {
    if SetsBaseline(sample, baseline, g.previous) then None
    else TriggerOf(sample, baseline, g.previous, g.since, TimeOf(sample))
  }

  function EvaluateTimers(g: GuardState, sample: DatedSample, baseline: map<string, int>): Timers {
    if SetsBaseline(sample, baseline, g.previous) then
      if LowMemory(sample) then g.since[MemAvailable := Since(g.since, MemAvailable, TimeOf(sample))] else g.since
    else TimersAfter(sample, baseline, g.previous, g.since, TimeOf(sample))
  }

  /** The only fault that may be forgiven: the sample came late, but its counters are sound. */
  predicate OnlyDelayed(previous: DatedSample, sample: DatedSample) {
    && sample.sampledNs.value - previous.sampledNs.value > MAX_SAMPLE_GAP_NS
    && HasTotals(sample) && HasTotals(previous)
    && sample.systemStallUs.value >= previous.systemStallUs.value >= 0
    && sample.candidateStallUs.value >= previous.candidateStallUs.value >= 0
  }

  predicate Forgives(g: GuardState, sample: DatedSample, baseline: map<string, int>, independentFresh: bool) {
    && EvaluateTrigger(g, sample, baseline) == Some(PsiTelemetryUnavailable)
    && g.previous.Some?
    && OnlyDelayed(g.previous.value, sample)
    && independentFresh
  }

  function GuardTrigger(g: GuardState, sample: DatedSample, baseline: map<string, int>,
                        independentFresh: bool): Option<Trigger> {
    if Forgives(g, sample, baseline, independentFresh) then None else EvaluateTrigger(g, sample, baseline)
  }

  function GuardAfter(g: GuardState, sample: DatedSample, baseline: map<string, int>,
                      independentFresh: bool): GuardState {
    GuardState(Some(sample),
               if Forgives(g, sample, baseline, independentFresh) then map[] else EvaluateTimers(g, sample, baseline))
  }

  // ---------- what the guard answers, on the snapshot and in numbers ----------

  /** The sample says what the snapshot says: its own date, or else the caller's cut off to whole nanoseconds, and
      the total of the kernel's text wherever that has a line, be it without a total. */
  predicate IsSampleOf(s: Sample, r: Snapshot, now: real) {
    && s.sampledNs.Some? && (r.sampledNs.Some? ==> s.sampledNs == r.sampledNs)
    && (r.sampledNs.None? ==>
          var ns, cut := s.sampledNs.value as real, now * 1000000000.0;
          if now >= 0.0 then ns <= cut < ns + 1.0 else ns - 1.0 < cut <= ns)
    && s.memAvailable == r.memAvailable && s.swapFree == r.swapFree && s.memoryEvents == r.memoryEvents
    && s.systemStallUs == r.systemStallUs
    && (r.pressure.FullLine? ==> s.candidateStallUs == r.pressure.totalUs)
    && (r.pressure.NoFullLine? ==> s.candidateStallUs == r.storedStallUs)
  }

  lemma AdaptMeans(r: Snapshot, now: real)
    ensures IsSampleOf(Adapt(r, now), r, now)
  {
    TruncateCuts(now * 1000000000.0);
    assert now >= 0.0 <==> now * 1000000000.0 >= 0.0;
  }

  lemma TruncateCuts(x: real)
    ensures x >= 0.0 ==> Truncate(x) as real <= x < Truncate(x) as real + 1.0
    ensures x < 0.0 ==> Truncate(x) as real - 1.0 < x <= Truncate(x) as real
  {
  }

  /** A first sample that knows both totals: it can only be compared with the next one. */
  predicate IsFirst(s: Sample, previous: Option<Sample>) {
    previous.None? && s.systemStallUs.Some? && s.candidateStallUs.Some?
  }

  /** More than 2.5 seconds late, with both totals known, not negative and not lower than before. */
  predicate IsMerelyLate(s: Sample, previous: Option<Sample>) {
    && previous.Some? && s.sampledNs.Some? && previous.value.sampledNs.Some?
    && s.sampledNs.value > previous.value.sampledNs.value + 2500000000
    && s.systemStallUs.Some? && previous.value.systemStallUs.Some?
    && 0 <= previous.value.systemStallUs.value <= s.systemStallUs.value
    && s.candidateStallUs.Some? && previous.value.candidateStallUs.Some?
    && 0 <= previous.value.candidateStallUs.value <= s.candidateStallUs.value
  }

  /** The answers of the shared guard, except that telemetry which cannot be trusted is let pass on a first sample,
      and on one that is merely late while the independent monitor is fresh. */
  predicate CandidateAnswersFor(s: Sample, baseline: map<string, int>, g: GuardState, watched: bool, trigger: Option<Trigger>)
    requires s.sampledNs.Some?
  {
    var oom, killed := Rose(baseline, s.memoryEvents, "oom"), Rose(baseline, s.memoryEvents, "oom_kill");
    && (trigger == Some(CounterIncreased("oom")) <==> oom)
    && (trigger == Some(CounterIncreased("oom_kill")) <==> !oom && killed)
    && (trigger == Some(SwapFreeLow(s.swapFree.GetOr(0))) <==> !oom && !killed && SwapLow(s))
    && (trigger == Some(PsiTelemetryUnavailable) <==>
          && !oom && !killed && !SwapLow(s) && !BothTrusted(s, g.previous)
          && !IsFirst(s, g.previous) && !(IsMerelyLate(s, g.previous) && watched))
    && (Sound(s, baseline, g.previous) ==>
          SustainedAnswersFor(s, g.previous, g.since, s.sampledNs.value as real / 1000000000.0, trigger))
  }

  /** Which timers run afterwards: none after a late sample that was let pass; those that ran and, if memory is low,
      its own after a first sample; otherwise those of the shared guard. */
  predicate CandidateTimersFor(s: Sample, baseline: map<string, int>, g: GuardState, watched: bool, trigger: Option<Trigger>,
                               after: Timers)
    requires s.sampledNs.Some?
  {
    var now := s.sampledNs.value as real / 1000000000.0;
    var passed := trigger.None? && !BothTrusted(s, g.previous);
    if passed && g.previous.Some? then after == map[]
    else if passed then
      && (forall c: Condition :: c in after <==> c in g.since || (c == MemAvailable && MemoryLow(s)))
      && (forall c: Condition :: c in after ==> after[c] == now - Age(g.since, c, now))
    else TimersFor(s, baseline, g.previous, g.since, now, trigger, after)
  }

  lemma GuardMeans(g: GuardState, s: DatedSample, baseline: map<string, int>, watched: bool)
    ensures CandidateAnswersFor(s, baseline, g, watched, GuardTrigger(g, s, baseline, watched))
    ensures CandidateTimersFor(s, baseline, g, watched, GuardTrigger(g, s, baseline, watched),
                               GuardAfter(g, s, baseline, watched).since)
  {
    hide TriggerOf, TimersAfter, ImmediateTrigger, PsiInterval, Rose, SwapLow, BothTrusted;
    TriggerMeans(s, baseline, g.previous, g.since, TimeOf(s));
    TimersMean(s, baseline, g.previous, g.since, TimeOf(s));
    TelemetryFault(s, baseline, g.previous, g.since, TimeOf(s));
  }

  lemma TelemetryFault(s: Sample, baseline: map<string, int>, previous: Option<Sample>, since: Timers, now: real)
    ensures ImmediateTrigger(s, baseline, previous) == Some(PsiTelemetryUnavailable) <==>
              TriggerOf(s, baseline, previous, since, now) == Some(PsiTelemetryUnavailable)
    ensures BothTrusted(s, previous) ==> previous.Some?
  {
  }

  class RuntimeGuard {
    const timers: GuardTimers
    var previous: Option<DatedSample>

    ghost function State(): GuardState
      reads this, timers
    {
      GuardState(previous, timers.since)
    }

    constructor ()
      ensures State() == GuardState(None, map[]) && fresh(timers)
    {
      timers := new GuardTimers();
      previous := None;
    }

    method EvaluateRuntimeSample(resources: Snapshot, baseline: map<string, int>, now: real)
      returns (sample: DatedSample, trigger: Option<Trigger>)
      modifies timers
      ensures sample == Adapt(resources, now)
      ensures trigger == EvaluateTrigger(old(State()), sample, baseline)
      ensures State() == GuardState(old(previous), EvaluateTimers(old(State()), sample, baseline))
      ensures IsSampleOf(sample, resources, now)
      ensures CandidateAnswersFor(sample, baseline, old(State()), false, trigger)
      ensures CandidateTimersFor(sample, baseline, old(State()), false, trigger, timers.since)
    {
      hide IsSampleOf, CandidateAnswersFor, CandidateTimersFor;
      AdaptMeans(resources, now);
      GuardMeans(State(), Adapt(resources, now), baseline, false);
      sample := Adapt(resources, now);
      var sampleTime := TimeOf(sample);
      trigger := timers.ResourceTrigger(sample, baseline, sampleTime, previous);
      if previous.None? && trigger == Some(PsiTelemetryUnavailable) && HasTotals(sample) {
        if LowMemory(sample) && MemAvailable !in timers.since {
          timers.since := timers.since[MemAvailable := sampleTime];
        }
        trigger := None;
      }
    }

    method ResourceGuard(resources: Snapshot, baseline: map<string, int>, now: real, independentFresh: bool)
      returns (trigger: Option<Trigger>)
      modifies this, timers
      ensures trigger == GuardTrigger(old(State()), Adapt(resources, now), baseline, independentFresh)
      ensures State() == GuardAfter(old(State()), Adapt(resources, now), baseline, independentFresh)
      ensures previous.Some? && IsSampleOf(previous.value, resources, now)
      ensures CandidateAnswersFor(previous.value, baseline, old(State()), independentFresh, trigger)
      ensures CandidateTimersFor(previous.value, baseline, old(State()), independentFresh, trigger, timers.since)
    {
      hide IsSampleOf, CandidateAnswersFor, CandidateTimersFor;
      GuardMeans(State(), Adapt(resources, now), baseline, independentFresh);
      var before := previous;
      var sample;
      sample, trigger := EvaluateRuntimeSample(resources, baseline, now);
      if trigger == Some(PsiTelemetryUnavailable) && before.Some? {
        if OnlyDelayed(before.value, sample) && independentFresh {
          trigger := None;
          timers.since := map[];
        }
      }
      previous := Some(sample);
    }
  }

  // ---------- whole runs ----------

  /** Everything one run of the candidate guard is fed. */
  datatype Feed = Feed(baseline: map<string, int>, samples: seq<DatedSample>, watched: seq<bool>) {

    predicate Shaped() {
      |watched| == |samples|
    }

    function StateAt(n: nat): GuardState
      requires Shaped() && n <= |samples|
    {
      if n == 0 then GuardState(None, map[])
      else GuardAfter(StateAt(n - 1), samples[n - 1], baseline, watched[n - 1])
    }

    function TriggerAt(n: nat): Option<Trigger>
      requires Shaped() && n < |samples|
    {
      GuardTrigger(StateAt(n), samples[n], baseline, watched[n])
    }

    ghost predicate QuietUpTo(n: nat)
      requires Shaped() && n <= |samples|
    {
      forall k :: 0 <= k < n ==> TriggerAt(k).None?
    }

    function Before(n: nat): Option<DatedSample>
      requires n <= |samples|
    {
      if n == 0 then None else Some(samples[n - 1])
    }

    function Time(n: nat): real
      requires n < |samples|
    {
      TimeOf(samples[n])
    }

    /** A sample in step with its predecessor: both stall intervals can be trusted. */
    predicate InStep(n: nat)
      requires n < |samples|
    {
      PsiInterval(samples[n], Before(n), SystemPsi).Some? && PsiInterval(samples[n], Before(n), CandidatePsi).Some?
    }

    /** The samples that may contribute time to `c`: in step and exceeding, or a low-memory first. */
    predicate Counts(n: nat, c: Condition)
      requires n < |samples|
    {
      if n == 0 then c == MemAvailable && LowMemory(samples[0])
      else InStep(n) && Exceeds(samples[n], Before(n), c)
    }

    function Marks(c: Condition): (m: seq<Mark>)
      ensures |m| == |samples|
      ensures forall n :: 0 <= n < |m| ==> m[n] == if Counts(n, c) then Joined else Cold
    {
      seq(|samples|, n requires 0 <= n < |samples| => if Counts(n, c) then Joined else Cold)
    }

    function Times(): (t: seq<real>)
      ensures |t| == |samples|
      ensures forall n :: 0 <= n < |t| ==> t[n] == Time(n)
    {
      seq(|samples|, n requires 0 <= n < |samples| => Time(n))
    }

    function RunBegan(n: nat, c: Condition): real
      requires n < |samples|
    {
      Time(Start(Marks(c), n))
    }

    function RunTimers(n: nat): Timers
      requires n <= |samples|
    {
      if n == 0 then map[]
      else map c: Condition | Rank(c) < |CONDITIONS| && Counts(n - 1, c) :: RunBegan(n - 1, c)
    }
  }

  /** After any quiet prefix, forgiven gaps included, every timer is the start of the current run
      of samples that count: time is never carried across a gap. */
  lemma {:induction false} TimersStayInsideRuns(f: Feed, n: nat)
    requires f.Shaped() && n <= |f.samples| && f.QuietUpTo(n)
    ensures f.StateAt(n) == GuardState(f.Before(n), f.RunTimers(n))
  {
    hide PsiInterval, GuardTrigger, GuardAfter;
    if n > 0 {
      TimersStayInsideRuns(f, n - 1);
      TimersStep(f, n - 1);
    }
  }

  lemma TimersStep(f: Feed, n: nat)
    requires f.Shaped() && n < |f.samples| && f.TriggerAt(n).None?
    requires f.StateAt(n) == GuardState(f.Before(n), f.RunTimers(n))
    ensures f.StateAt(n + 1) == GuardState(f.Before(n + 1), f.RunTimers(n + 1))
  {
    if n == 0 {
      assert SetsBaseline(f.samples[0], f.baseline, None);
      assert forall c :: f.Counts(0, c) ==> c == MemAvailable;
    } else if Forgives(f.StateAt(n), f.samples[n], f.baseline, f.watched[n]) {
      assert !f.InStep(n);
      assert f.RunTimers(n + 1) == map[];
    } else {
      hide PsiInterval, Forgives, OnlyDelayed, Measured.Trips;
      InStepTimers(f, n);
    }
  }

  lemma InStepTimers(f: Feed, n: nat)
    requires 0 < n < |f.samples|
    requires ImmediateTrigger(f.samples[n], f.baseline, f.Before(n)).None?
    requires SustainedTrigger(Measure(f.samples[n], f.Before(n)), f.RunTimers(n), f.Time(n)).None?
    ensures TimersAfter(f.samples[n], f.baseline, f.Before(n), f.RunTimers(n), f.Time(n)) == f.RunTimers(n + 1)
  {
    hide PsiInterval, Measured.Trips;
    assert f.InStep(n);
    forall c: Condition | f.Counts(n, c)
      ensures Since(f.RunTimers(n), c, f.Time(n)) == f.RunBegan(n, c)
    {
      RunGrows(f, n, c);
    }
    assert forall c: Condition :: f.Counts(n, c) <==> Measure(f.samples[n], f.Before(n)).Exceeds(c);
  }

  lemma RunGrows(f: Feed, n: nat, c: Condition)
    requires 0 < n < |f.samples| && f.Counts(n, c)
    ensures f.RunBegan(n, c) == if f.Counts(n - 1, c) then f.RunBegan(n - 1, c) else f.Time(n)
  {
    hide PsiInterval;
    var marks := f.Marks(c);
    assert Start(marks, n) == if f.Counts(n - 1, c) then Start(marks, n - 1) else n;
  }

  /** Inside a run, neighbouring samples are later by at most 2.5 seconds. */
  lemma RunHasNoGap(f: Feed, c: Condition, i: int, n: int, k: int)
    requires Window(f.Marks(c), i, n) && i < k <= n
    ensures 0.0 < f.Time(k) - f.Time(k - 1) <= 2.5
  {
    assert f.Marks(c)[k] == Joined;
    assert f.InStep(k);
  }

  lemma {:induction false} RunTimesIncrease(f: Feed, c: Condition, i: int, n: int)
    requires Window(f.Marks(c), i, n)
    ensures f.Time(i) <= f.Time(n)
    decreases n
  {
    hide PsiInterval;
    if i < n {
      assert Window(f.Marks(c), i, n - 1) by { assert i < n - 1 ==> f.Marks(c)[n - 1] == Joined; }
      RunTimesIncrease(f, c, i, n - 1);
      RunHasNoGap(f, c, i, n, n);
    }
  }

  /** After a quiet prefix, a sample in step trips exactly when some run of samples that count,
      ending at it, has lasted long enough; the reported time is the age of that run. */
  lemma SustainedTripIsWholeRun(f: Feed, n: nat, c: Condition)
    requires f.Shaped() && 0 < n < |f.samples| && f.QuietUpTo(n)
    requires ImmediateTrigger(f.samples[n], f.baseline, f.Before(n)).None?
    ensures Measure(f.samples[n], f.Before(n)).Trips(f.StateAt(n).since, f.Time(n), c)
       <==> Lasts(f.Marks(c), f.Times(), n, Duration(c))
    ensures f.Counts(n, c) ==> Since(f.StateAt(n).since, c, f.Time(n)) == f.RunBegan(n, c)
  {
    hide PsiInterval;
    TimersStayInsideRuns(f, n);
    assert f.InStep(n);
    if f.Counts(n, c) {
      RunGrows(f, n, c);
      StartIsMaximal(f.Marks(c), n);
      forall i | Window(f.Marks(c), i, n)
        ensures f.Times()[Start(f.Marks(c), n)] <= f.Times()[i]
      {
        assert Window(f.Marks(c), Start(f.Marks(c), n), i);
        RunTimesIncrease(f, c, Start(f.Marks(c), n), i);
      }
      LastsFromStart(f.Marks(c), f.Times(), n, Duration(c));
    } else {
      assert forall i :: !Window(f.Marks(c), i, n);
    }
  }

  /** The samples that count, in numbers: in step and with the condition holding, or low on memory at first. */
  lemma CountsMeans(f: Feed, n: nat, c: Condition)
    requires n < |f.samples|
    ensures f.Counts(n, c) <==>
              if n == 0 then c == MemAvailable && MemoryLow(f.samples[0])
              else BothTrusted(f.samples[n], Some(f.samples[n - 1])) && Holds(f.samples[n], Some(f.samples[n - 1]), c)
  {
    if n > 0 && BothTrusted(f.samples[n], Some(f.samples[n - 1])) {
      HoldsMeans(f.samples[n], Some(f.samples[n - 1]), c);
    }
  }

  /** What a sustained trip guarantees: at every sample of an unbroken stretch the condition held, no two of them were
      more than 2.5 seconds apart, and it spans the reported time, at least 15 seconds for memory and 10 for pressure. */
  lemma SustainedTripIsReal(f: Feed, n: nat)
    requires f.Shaped() && n < |f.samples| && f.QuietUpTo(n)
    requires f.TriggerAt(n).Some? && f.TriggerAt(n).value.Sustained?
    ensures var c := f.TriggerAt(n).value.condition;
            var i := Start(f.Marks(c), n);
            && Window(f.Marks(c), i, n)
            && f.TriggerAt(n).value.seconds == f.Time(n) - f.Time(i) >= (if c == MemAvailable then 15.0 else 10.0)
            && (forall k :: i < k <= n ==> f.Time(k) - f.Time(k - 1) <= 2.5)
            && (forall k :: i <= k <= n && k > 0 ==>
                  BothTrusted(f.samples[k], Some(f.samples[k - 1])) && Holds(f.samples[k], Some(f.samples[k - 1]), c))
            && (i == 0 ==> c == MemAvailable && MemoryLow(f.samples[0]))
  {
    hide PsiInterval, Lasts;
    var c := f.TriggerAt(n).value.condition;
    assert n > 0;
    SustainedTripIsWholeRun(f, n, c);
    assert f.Counts(n, c);
    StartIsMaximal(f.Marks(c), n);
    hide Feed.Counts, BothTrusted, Holds;
    forall k | Start(f.Marks(c), n) <= k <= n
      ensures f.Counts(k, c)
      ensures k > Start(f.Marks(c), n) ==> f.Time(k) - f.Time(k - 1) <= 2.5
    {
      assert f.Marks(c)[k] != Cold;
      if k > Start(f.Marks(c), n) {
        RunHasNoGap(f, c, Start(f.Marks(c), n), n, k);
      }
    }
    forall k | Start(f.Marks(c), n) <= k <= n
      ensures if k == 0 then c == MemAvailable && MemoryLow(f.samples[0])
              else BothTrusted(f.samples[k], Some(f.samples[k - 1])) && Holds(f.samples[k], Some(f.samples[k - 1]), c)
    {
      CountsMeans(f, k, c);
    }
  }

  /** The candidate hides a trigger only for the first baseline sample or for a late one with
      sound counters and a live independent monitor; counters, swap and sustained trips always
      get through, and a forgiven sample leaves no timer running. */
  lemma OnlyTelemetryIsForgiven(g: GuardState, sample: DatedSample, baseline: map<string, int>, independentFresh: bool)
    ensures var inner := TriggerOf(sample, baseline, g.previous, g.since, TimeOf(sample));
            var outer := GuardTrigger(g, sample, baseline, independentFresh);
            && (outer.Some? ==> outer == inner)
            && (inner.Some? && outer.None? <==>
                && inner == Some(PsiTelemetryUnavailable)
                && (IsFirst(sample, g.previous) || (IsMerelyLate(sample, g.previous) && independentFresh)))
            && (inner.Some? && outer.None? && g.previous.Some? ==>
                GuardAfter(g, sample, baseline, independentFresh).since == map[])
  {
    hide PsiInterval, Measure;
  }
}
