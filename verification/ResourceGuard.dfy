/** The shared resource guard: one decision over a sample, its predecessor and the timers of
    the conditions that are currently exceeded.  Seconds are exact reals and percentages exact fractions. */
module ResourceGuard {
  import opened Prelude

  const GIB: int := 1024 * 1024 * 1024
  const MEM_AVAILABLE_FLOOR := 5 * GIB
  const SWAP_FREE_FLOOR := GIB
  const PSI_CEILING_PERCENT: int := 2
  const MAX_SAMPLE_GAP: real := 2.5
  const MAX_SAMPLE_GAP_NS: int := 2500000000
  const OOM_COUNTERS: seq<string> := ["oom", "oom_kill"]

  /** A counter or a gauge is `None` when telemetry lacks it or it is not a number. */
  datatype Sample = Sample(
    sampledNs: Option<int>,
    memAvailable: Option<int>,
    swapFree: Option<int>,
    systemStallUs: Option<int>,
    candidateStallUs: Option<int>,
    memoryEvents: map<string, int>)

  datatype Condition = MemAvailable | SystemPsi | CandidatePsi

  /** The order in which the guard looks at its sustained conditions. */
  const CONDITIONS: seq<Condition> := [MemAvailable, SystemPsi, CandidatePsi]

  datatype Trigger =
    | CounterIncreased(name: string)
    | SwapFreeLow(bytes: int)
    | PsiTelemetryUnavailable
    | Sustained(condition: Condition, value: Reading, seconds: real)

  /** Stalled microseconds over sampled nanoseconds: a percentage kept as an exact fraction. */
  datatype Interval = Interval(stallUs: int, elapsedNs: int) {

    predicate Above(percent: int) {
      100 * 1000 * stallUs > percent * elapsedNs
    }
  }

  datatype Reading = Bytes(bytes: int) | StallShare(interval: Interval)

  type Timers = map<Condition, real>

  function Seconds(ns: int): real {
    ns as real / 1000000000.0
  }

  function Rank(c: Condition): (k: nat)
    ensures k < 3
  {
    match c
    case MemAvailable => 0
    case SystemPsi => 1
    case CandidatePsi => 2
  }

  /** How long a condition has to hold without interruption before the guard trips. */
  function Duration(c: Condition): real {
    if c == MemAvailable then 15.0 else 10.0
  }

  function Count(events: map<string, int>, name: string): int {
    if name in events then events[name] else 0
  }

  function StallUs(s: Sample, c: Condition): Option<int> {
    match c
    case MemAvailable => None
    case SystemPsi => s.systemStallUs
    case CandidatePsi => s.candidateStallUs
  }

  /** The stall share between two cumulative readings, or `None` when the interval cannot be
      trusted: a reading is missing, time did not advance, the samples are too far apart, or the
      counter went backwards. */
  function PsiInterval(sample: Sample, previous: Option<Sample>, c: Condition): (r: Option<Interval>)
    ensures r.Some? ==> 0 < r.value.elapsedNs <= MAX_SAMPLE_GAP_NS && r.value.stallUs >= 0
  {
    if previous.None? then None
    else
      var now, before := StallUs(sample, c), StallUs(previous.value, c);
      var nowNs, beforeNs := sample.sampledNs, previous.value.sampledNs;
      if now.None? || before.None? || nowNs.None? || beforeNs.None? then None
      else
        var interval := Interval(now.value - before.value, nowNs.value - beforeNs.value);
        if interval.elapsedNs <= 0 || interval.elapsedNs > MAX_SAMPLE_GAP_NS || interval.stallUs < 0 then None
        else Some(interval)
  }

  /** The exact comparison agrees with dividing the stalled time by the elapsed seconds. */
  lemma AboveIsPercentage(i: Interval, percent: int)
    requires i.elapsedNs > 0
    ensures i.Above(percent) <==> i.stallUs as real / (Seconds(i.elapsedNs) * 1000000.0) * 100.0 > percent as real
  {
    var e := Seconds(i.elapsedNs) * 1000000.0;
    var share := i.stallUs as real / e;
    assert share * e == i.stallUs as real;
    assert e * 1000.0 == i.elapsedNs as real;
    var p := percent as real / 100.0;
    assert p * e * 1000.0 * 100.0 == percent as real * i.elapsedNs as real;
    if share > p {
      assert (share - p) * e > 0.0;
    } else {
      assert (p - share) * e >= 0.0;
    }
  }

  // ---------- the decision, stated without loops ----------

  function ImmediateTrigger(sample: Sample, baseline: map<string, int>, previous: Option<Sample>): Option<Trigger> {
    if Count(sample.memoryEvents, "oom") > Count(baseline, "oom") then Some(CounterIncreased("oom"))
    else if Count(sample.memoryEvents, "oom_kill") > Count(baseline, "oom_kill") then Some(CounterIncreased("oom_kill"))
    else if sample.swapFree.GetOr(0) < SWAP_FREE_FLOOR then Some(SwapFreeLow(sample.swapFree.GetOr(0)))
    else if PsiInterval(sample, previous, SystemPsi).None? || PsiInterval(sample, previous, CandidatePsi).None? then
      Some(PsiTelemetryUnavailable)
    else None
  }

  /** The three values the guard compares with its thresholds. */
  datatype Measured = Measured(memAvailable: int, systemPsi: Interval, candidatePsi: Interval) {

    function Value(c: Condition): Reading {
      match c
      case MemAvailable => Bytes(memAvailable)
      case SystemPsi => StallShare(systemPsi)
      case CandidatePsi => StallShare(candidatePsi)
    }

    predicate Exceeds(c: Condition) {
      match Value(c)
      case Bytes(bytes) => bytes < MEM_AVAILABLE_FLOOR
      case StallShare(interval) => interval.Above(PSI_CEILING_PERCENT)
    }

    /** `c` is exceeded and, counting from its timer, has been for long enough. */
    predicate Trips(since: Timers, now: real, c: Condition) {
      Exceeds(c) && now - Since(since, c, now) >= Duration(c)
    }

    function Report(since: Timers, now: real, c: Condition): Trigger {
      Sustained(c, Value(c), now - Since(since, c, now))
    }
  }

  function StallOver(sample: Sample, previous: Option<Sample>, c: Condition): Interval {
    PsiInterval(sample, previous, c).GetOr(Interval(0, 1))
  }

  function Measure(sample: Sample, previous: Option<Sample>): Measured {
    Measured(sample.memAvailable.GetOr(0),
             StallOver(sample, previous, SystemPsi),
             StallOver(sample, previous, CandidatePsi))
  }

  predicate Exceeds(sample: Sample, previous: Option<Sample>, c: Condition) {
    Measure(sample, previous).Exceeds(c)
  }

  /** When the current exceedance of `c` began: at its timer, or now if it has none. */
  function Since(since: Timers, c: Condition, now: real): real {
    if c in since then since[c] else now
  }

  function SustainedTrigger(m: Measured, since: Timers, now: real): Option<Trigger> {
    if m.Trips(since, now, MemAvailable) then Some(m.Report(since, now, MemAvailable))
    else if m.Trips(since, now, SystemPsi) then Some(m.Report(since, now, SystemPsi))
    else if m.Trips(since, now, CandidatePsi) then Some(m.Report(since, now, CandidatePsi))
    else None
  }

  function TriggerOf(sample: Sample, baseline: map<string, int>, previous: Option<Sample>, since: Timers,
                     now: real): Option<Trigger> {
    var immediate := ImmediateTrigger(sample, baseline, previous);
    if immediate.Some? then immediate else SustainedTrigger(Measure(sample, previous), since, now)
  }

  /** The timers after a decision.  An immediate trip leaves them alone; a quiet sample keeps one
      for each exceeded condition and drops the rest; a sustained trip stops half way, having
      started the timers up to the tripping condition and dropped none. */
  function TimersAfter(sample: Sample, baseline: map<string, int>, previous: Option<Sample>, since: Timers,
                       now: real): Timers {
    if ImmediateTrigger(sample, baseline, previous).Some? then since
    else
      var m := Measure(sample, previous);
      var trip := SustainedTrigger(m, since, now);
      if trip.Some? then
        StartedUpTo(m, since, now, Rank(trip.value.condition) + 1)
      else
        map c: Condition | m.Exceeds(c) :: Since(since, c, now)
  }

  function StartedUpTo(m: Measured, since: Timers, now: real, k: nat): Timers {
    since + map c: Condition | Rank(c) < k && m.Exceeds(c) :: Since(since, c, now)
  }

  // ---------- what the decision means, on the telemetry and in numbers ----------

  /** The counter of this name is higher than it was; one that is missing stands at zero. */
  predicate Rose(before: map<string, int>, now: map<string, int>, name: string) {
    (if name in before then before[name] else 0) < (if name in now then now[name] else 0)
  }

  /** Less than one gibibyte of swap is free, or nobody knows how much. */
  predicate SwapLow(s: Sample) {
    s.swapFree.Some? ==> s.swapFree.value < 1073741824
  }

  /** Less than five gibibytes are available, or nobody knows how much. */
  predicate MemoryLow(s: Sample) {
    s.memAvailable.Some? ==> s.memAvailable.value < 5368709120
  }

  /** Two dated readings of a counter, the second later by at most 2.5 seconds and not lower. */
  predicate Trusted(ns: Option<int>, total: Option<int>, beforeNs: Option<int>, beforeTotal: Option<int>) {
    && ns.Some? && beforeNs.Some? && total.Some? && beforeTotal.Some?
    && 0 < ns.value - beforeNs.value <= 2500000000
    && beforeTotal.value <= total.value
  }

  predicate BothTrusted(s: Sample, previous: Option<Sample>) {
    && previous.Some?
    && Trusted(s.sampledNs, s.systemStallUs, previous.value.sampledNs, previous.value.systemStallUs)
    && Trusted(s.sampledNs, s.candidateStallUs, previous.value.sampledNs, previous.value.candidateStallUs)
  }

  /** More than one microsecond in fifty was stalled between two readings. */
  predicate StalledTooLong(ns: int, total: int, beforeNs: int, beforeTotal: int) {
    50 * 1000 * (total - beforeTotal) > ns - beforeNs
  }

  /** Nothing calls for stopping at once. */
  predicate Sound(s: Sample, baseline: map<string, int>, previous: Option<Sample>) {
    && !Rose(baseline, s.memoryEvents, "oom") && !Rose(baseline, s.memoryEvents, "oom_kill")
    && !SwapLow(s) && BothTrusted(s, previous)
  }

  /** The condition holds at this sample. */
  predicate Holds(s: Sample, previous: Option<Sample>, c: Condition)
    requires BothTrusted(s, previous)
  {
    var p := previous.value;
    match c
    case MemAvailable => MemoryLow(s)
    case SystemPsi =>
      StalledTooLong(s.sampledNs.value, s.systemStallUs.value, p.sampledNs.value, p.systemStallUs.value)
    case CandidatePsi =>
      StalledTooLong(s.sampledNs.value, s.candidateStallUs.value, p.sampledNs.value, p.candidateStallUs.value)
  }

  /** What a condition is judged on: free memory, or what was stalled and elapsed between the two readings. */
  function Read(s: Sample, previous: Option<Sample>, c: Condition): Reading
    requires BothTrusted(s, previous)
  {
    var p := previous.value;
    match c
    case MemAvailable => Bytes(if s.memAvailable.Some? then s.memAvailable.value else 0)
    case SystemPsi =>
      StallShare(Interval(s.systemStallUs.value - p.systemStallUs.value, s.sampledNs.value - p.sampledNs.value))
    case CandidatePsi =>
      StallShare(Interval(s.candidateStallUs.value - p.candidateStallUs.value, s.sampledNs.value - p.sampledNs.value))
  }

  lemma ReadMeans(s: Sample, previous: Option<Sample>)
    requires BothTrusted(s, previous)
    ensures forall c: Condition :: Measure(s, previous).Value(c) == Read(s, previous, c)
  {
  }

  /** How long a timer has been running; one that is not running starts now. */
  function Age(since: Timers, c: Condition, now: real): real {
    if c in since then now - since[c] else 0.0
  }

  /** The condition holds, and has by its timer for 15 seconds of low memory or 10 of pressure. */
  predicate Overdue(s: Sample, previous: Option<Sample>, since: Timers, now: real, c: Condition)
    requires BothTrusted(s, previous)
  {
    Holds(s, previous, c) && Age(since, c, now) >= (if c == MemAvailable then 15.0 else 10.0)
  }

  /** Which answer belongs to which telemetry: OOM counters come first, then swap, then telemetry, then
      low memory, then the system's pressure and the candidate's. */
  predicate AnswersFor(s: Sample, baseline: map<string, int>, previous: Option<Sample>, since: Timers, now: real,
                       trigger: Option<Trigger>)
  {
    var oom, killed := Rose(baseline, s.memoryEvents, "oom"), Rose(baseline, s.memoryEvents, "oom_kill");
    && (trigger == Some(CounterIncreased("oom")) <==> oom)
    && (trigger == Some(CounterIncreased("oom_kill")) <==> !oom && killed)
    && (trigger == Some(SwapFreeLow(s.swapFree.GetOr(0))) <==> !oom && !killed && SwapLow(s))
    && (trigger == Some(PsiTelemetryUnavailable) <==> !oom && !killed && !SwapLow(s) && !BothTrusted(s, previous))
    && (Sound(s, baseline, previous) ==> SustainedAnswersFor(s, previous, since, now, trigger))
  }

  predicate SustainedAnswersFor(s: Sample, previous: Option<Sample>, since: Timers, now: real, trigger: Option<Trigger>)
    requires BothTrusted(s, previous)
  {
    var memory, system := Overdue(s, previous, since, now, MemAvailable), Overdue(s, previous, since, now, SystemPsi);
    && (trigger.None? <==> !memory && !system && !Overdue(s, previous, since, now, CandidatePsi))
    && (trigger.Some? ==>
          && trigger.value.Sustained?
          && trigger.value.condition == (if memory then MemAvailable else if system then SystemPsi else CandidatePsi)
          && trigger.value.value == Read(s, previous, trigger.value.condition)
          && trigger.value.seconds == Age(since, trigger.value.condition, now))
  }

  /** Which timers run afterwards: all that ran, if the guard tripped at once; those of the conditions that
      hold, if it is quiet; and besides those that ran the ones up to the condition that tripped. */
  predicate TimersFor(s: Sample, baseline: map<string, int>, previous: Option<Sample>, since: Timers, now: real,
                      trigger: Option<Trigger>, after: Timers)
  {
    && (forall c: Condition :: c in after ==> after[c] == now - Age(since, c, now))
    && (forall c: Condition :: c in after <==>
          if !Sound(s, baseline, previous) then c in since
          else if trigger.None? then Holds(s, previous, c)
          else c in since || (trigger.value.Sustained? && NotAfter(c, trigger.value.condition) && Holds(s, previous, c)))
  }

  predicate NotAfter(c: Condition, d: Condition) {
    c == d || c == MemAvailable || d == CandidatePsi
  }

  lemma ImmediateMeans(s: Sample, baseline: map<string, int>, previous: Option<Sample>)
    ensures ImmediateTrigger(s, baseline, previous).None? <==> Sound(s, baseline, previous)
  {
  }

  lemma HoldsMeans(s: Sample, previous: Option<Sample>, c: Condition)
    requires BothTrusted(s, previous)
    ensures Measure(s, previous).Exceeds(c) <==> Holds(s, previous, c)
  {
  }

  lemma AllHoldsMean(s: Sample, previous: Option<Sample>)
    requires BothTrusted(s, previous)
    ensures forall c: Condition :: Measure(s, previous).Exceeds(c) <==> Holds(s, previous, c)
  {
    forall c: Condition ensures Measure(s, previous).Exceeds(c) <==> Holds(s, previous, c) {
      HoldsMeans(s, previous, c);
    }
  }

  /** The answer is the one that the telemetry calls for. */
  lemma TriggerMeans(s: Sample, baseline: map<string, int>, previous: Option<Sample>, since: Timers, now: real)
    ensures AnswersFor(s, baseline, previous, since, now, TriggerOf(s, baseline, previous, since, now))
  {
    ImmediateMeans(s, baseline, previous);
    if Sound(s, baseline, previous) {
      ReadMeans(s, previous);
      hide PsiInterval, Measured.Exceeds, Holds, Rose, SwapLow, BothTrusted, Read, Measure, Measured.Value;
      AllHoldsMean(s, previous);
    }
  }

  /** So are the timers. */
  lemma TimersMean(s: Sample, baseline: map<string, int>, previous: Option<Sample>, since: Timers, now: real)
    ensures TimersFor(s, baseline, previous, since, now, TriggerOf(s, baseline, previous, since, now),
                      TimersAfter(s, baseline, previous, since, now))
  {
    hide PsiInterval, Measured.Exceeds, Holds, Rose, SwapLow, BothTrusted, ImmediateTrigger;
    ImmediateMeans(s, baseline, previous);
    if Sound(s, baseline, previous) {
      AllHoldsMean(s, previous);
    } else {
      TripsAtOnce(s, baseline, previous);
    }
  }

  lemma TripsAtOnce(s: Sample, baseline: map<string, int>, previous: Option<Sample>)
    ensures ImmediateTrigger(s, baseline, previous).Some? ==> !ImmediateTrigger(s, baseline, previous).value.Sustained?
  {
  }

  /** The `exceeded_since` table, updated in place by each decision. */
  class GuardTimers {
    var since: Timers

    constructor ()
      ensures since == map[]
    {
      since := map[];
    }

    method ResourceTrigger(sample: Sample, baseline: map<string, int>, now: real, previous: Option<Sample>)
      returns (trigger: Option<Trigger>)
      modifies this
      ensures trigger == TriggerOf(sample, baseline, previous, old(since), now)
      ensures since == TimersAfter(sample, baseline, previous, old(since), now)
      ensures AnswersFor(sample, baseline, previous, old(since), now, trigger)
      ensures TimersFor(sample, baseline, previous, old(since), now, trigger, since)
    {
      TriggerMeans(sample, baseline, previous, since, now);
      TimersMean(sample, baseline, previous, since, now);
      hide AnswersFor, TimersFor;
      for k := 0 to |OOM_COUNTERS|
        invariant since == old(since)
        invariant forall j :: 0 <= j < k ==> Count(sample.memoryEvents, OOM_COUNTERS[j]) <= Count(baseline, OOM_COUNTERS[j])
      {
        var name := OOM_COUNTERS[k];
        if Count(sample.memoryEvents, name) > Count(baseline, name) {
          assert k == 1 ==> Count(sample.memoryEvents, OOM_COUNTERS[0]) <= Count(baseline, OOM_COUNTERS[0]);
          return Some(CounterIncreased(name));
        }
      }
      assert Count(sample.memoryEvents, OOM_COUNTERS[0]) <= Count(baseline, OOM_COUNTERS[0]);
      assert Count(sample.memoryEvents, OOM_COUNTERS[1]) <= Count(baseline, OOM_COUNTERS[1]);
      var swapFree := sample.swapFree.GetOr(0);
      if swapFree < SWAP_FREE_FLOOR {
        return Some(SwapFreeLow(swapFree));
      }
      if PsiInterval(sample, previous, SystemPsi).None? || PsiInterval(sample, previous, CandidatePsi).None? {
        return Some(PsiTelemetryUnavailable);
      }
      var active;
      trigger, active := StartTimers(Measure(sample, previous), now);
      if trigger.None? {
        DropInactive(active);
      }
    }

    /** Starts the timers of the exceeded conditions, in order, until one of them trips. */
    method StartTimers(m: Measured, now: real)
      returns (trigger: Option<Trigger>, active: set<Condition>)
      modifies this
      ensures trigger == SustainedTrigger(m, old(since), now)
      ensures since == StartedUpTo(m, old(since), now,
                                   if trigger.Some? then Rank(trigger.value.condition) + 1 else 3)
      ensures trigger.None? ==> active == set c: Condition | m.Exceeds(c)
    {
      active := {};
      for k := 0 to |CONDITIONS|
        invariant forall c :: c in active <==> Rank(c) < k && m.Exceeds(c)
        invariant forall c :: c in since <==> c in old(since) || c in active
        invariant forall c :: c in since ==> since[c] == Since(old(since), c, now)
        invariant forall c :: Rank(c) < k ==> !m.Trips(old(since), now, c)
      {
        var c := CONDITIONS[k];
        if m.Exceeds(c) {
          active := active + {c};
          if c !in since {
            since := since[c := now];
          }
          var sustained := now - since[c];
          if sustained >= Duration(c) {
            return Some(Sustained(c, m.Value(c), sustained)), active;
          }
        }
      }
      return None, active;
    }

    method DropInactive(active: set<Condition>)
      modifies this
      ensures since == map c | c in old(since) && c in active :: old(since)[c]
    {
      var names := since.Keys;
      while names != {}
        invariant names <= since.Keys <= old(since).Keys
        invariant forall c :: c in since ==> since[c] == old(since)[c]
        invariant forall c :: c in old(since) && c !in names ==> (c in since <==> c in active)
        decreases names
      {
        var c :| c in names;
        if c !in active {
          since := since - {c};
        }
        names := names - {c};
      }
    }
  }
}
