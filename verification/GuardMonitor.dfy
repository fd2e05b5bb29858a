/** The independent monitor: the shared guard run over an unbounded stream of readings. */
module GuardMonitor {
  import opened Prelude
  import opened ResourceGuard
  import opened Runs

  /** What one pass of the monitor finds: another process is already restoring, the counters
      could not be read, or a sample. */
  datatype Pass = Teardown | Unreadable | Read(sample: Sample)

  datatype Stop = TeardownSeen | ReaderFailed | TimestampMissing | Tripped(trigger: Trigger)

  datatype Stream = Stream(baseline: Sample, readings: seq<Pass>) {

    function SampleAt(n: nat): Sample
      requires n < |readings|
    {
      match readings[n]
      case Read(sample) => sample
      case _ => baseline
    }

    /** The sample that reading `n` is compared with. */
    function Before(n: nat): Sample
      requires n <= |readings|
    {
      if n == 0 then baseline else SampleAt(n - 1)
    }

    function Time(n: nat): real
      requires n < |readings|
    {
      Seconds(SampleAt(n).sampledNs.GetOr(0))
    }

    function Immediate(n: nat): Option<Trigger>
      requires n < |readings|
    {
      ImmediateTrigger(SampleAt(n), baseline.memoryEvents, Some(Before(n)))
    }

    /** A dated sample that trips nothing at once. */
    predicate Usable(n: nat)
      requires n < |readings|
    {
      readings[n].Read? && SampleAt(n).sampledNs.Some? && Immediate(n).None?
    }

    ghost predicate UsableUpTo(n: nat)
      requires n <= |readings|
    {
      forall k :: 0 <= k < n ==> Usable(k)
    }

    predicate ExceedsAt(n: nat, c: Condition)
      requires n < |readings|
    {
      Exceeds(SampleAt(n), Some(Before(n)), c)
    }

    function Marks(c: Condition): (m: seq<Mark>)
      ensures |m| == |readings|
      ensures forall n :: 0 <= n < |m| ==> m[n] == if ExceedsAt(n, c) then Joined else Cold
    {
      seq(|readings|, n requires 0 <= n < |readings| => if ExceedsAt(n, c) then Joined else Cold)
    }

    function Times(): (t: seq<real>)
      ensures |t| == |readings|
      ensures forall n :: 0 <= n < |t| ==> t[n] == Time(n)
    {
      seq(|readings|, n requires 0 <= n < |readings| => Time(n))
    }

    /** `c` held at every reading of some window that ends at `n` and is long enough to trip. */
    ghost predicate HeldLongEnough(n: nat, c: Condition) {
      Lasts(Marks(c), Times(), n, Duration(c))
    }

    /** When the unbroken run of exceedances that ends at `n` began. */
    function RunBegan(n: nat, c: Condition): real
      requires n < |readings|
    {
      Time(Start(Marks(c), n))
    }

    /** The reference: why the monitor has to stop at reading `n`, told from the stream alone. */
    ghost function StopAt(n: nat): Option<Stop>
      requires n < |readings|
    {
      match readings[n]
      case Teardown => Some(TeardownSeen)
      case Unreadable => Some(ReaderFailed)
      case Read(sample) =>
        if sample.sampledNs.None? then Some(TimestampMissing)
        else if Immediate(n).Some? then Some(Tripped(Immediate(n).value))
        else if FirstHeld(n).Some? then Some(Tripped(FirstHeld(n).value))
        else None
    }

    ghost function FirstHeld(n: nat): Option<Trigger>
      requires n < |readings|
    {
      if HeldLongEnough(n, MemAvailable) then Some(Sustains(n, MemAvailable))
      else if HeldLongEnough(n, SystemPsi) then Some(Sustains(n, SystemPsi))
      else if HeldLongEnough(n, CandidatePsi) then Some(Sustains(n, CandidatePsi))
      else None
    }

    /** The report of a sustained trip: the value at `n` and the age of the whole run. */
    function Sustains(n: nat, c: Condition): Trigger
      requires n < |readings|
    {
      Sustained(c, Measure(SampleAt(n), Some(Before(n))).Value(c), Time(n) - RunBegan(n, c))
    }

    /** The reference timers after the first `n` readings: the starts of the current runs. */
    ghost function RunTimers(n: nat): Timers
      requires n <= |readings|
    {
      if n == 0 then map[]
      else map c: Condition | Rank(c) < |CONDITIONS| && ExceedsAt(n - 1, c) :: RunBegan(n - 1, c)
    }
  }

  /** Cumulative stall and time at a reading; reading -1 is the baseline. */
  function StallAt(s: Stream, n: int, c: Condition): int
    requires -1 <= n < |s.readings|
  {
    StallUs(if n < 0 then s.baseline else s.SampleAt(n), c).GetOr(0)
  }

  function NanosAt(s: Stream, n: int): int
    requires -1 <= n < |s.readings|
  {
    (if n < 0 then s.baseline else s.SampleAt(n)).sampledNs.GetOr(0)
  }

  /** A usable reading is later than its predecessor by at most the permitted gap, and its stall
      counters have not gone backwards. */
  lemma UsableStep(s: Stream, n: nat)
    requires n < |s.readings| && s.Usable(n)
    ensures 0 < NanosAt(s, n) - NanosAt(s, n - 1) <= MAX_SAMPLE_GAP_NS
    ensures s.Time(n) == Seconds(NanosAt(s, n))
    ensures forall c | c != MemAvailable ::
              StallOver(s.SampleAt(n), Some(s.Before(n)), c)
              == Interval(StallAt(s, n, c) - StallAt(s, n - 1, c), NanosAt(s, n) - NanosAt(s, n - 1))
  {
    assert PsiInterval(s.SampleAt(n), Some(s.Before(n)), SystemPsi).Some?;
    assert PsiInterval(s.SampleAt(n), Some(s.Before(n)), CandidatePsi).Some?;
    assert s.Before(n) == if n == 0 then s.baseline else s.SampleAt(n - 1);
  }

  lemma {:induction false} TimesIncrease(s: Stream, i: nat, n: nat)
    requires i <= n < |s.readings| && s.UsableUpTo(n + 1)
    ensures s.Time(i) <= s.Time(n)
    ensures i < n ==> s.Time(i) < s.Time(n)
  {
    if i < n {
      TimesIncrease(s, i, n - 1);
      assert s.Usable(n) && s.Usable(n - 1);
      UsableStep(s, n);
    }
  }

  /** With run-start timers, a condition trips at `n` exactly when some window of exceedances
      ending at `n` is long enough, and the run it reports is the longest such window. */
  lemma TripsIffHeldLongEnough(s: Stream, n: nat, c: Condition)
    requires n < |s.readings| && s.UsableUpTo(n + 1)
    ensures Measure(s.SampleAt(n), Some(s.Before(n))).Trips(s.RunTimers(n), s.Time(n), c)
       <==> s.HeldLongEnough(n, c)
    ensures s.ExceedsAt(n, c) ==> Since(s.RunTimers(n), c, s.Time(n)) == s.RunBegan(n, c)
  {
    var marks := s.Marks(c);
    if s.ExceedsAt(n, c) {
      StartIsMaximal(marks, n);
      forall i | Window(marks, i, n)
        ensures s.Time(Start(marks, n)) <= s.Time(i)
      {
        assert s.UsableUpTo(i + 1);
        TimesIncrease(s, Start(marks, n), i);
      }
      LastsFromStart(marks, s.Times(), n, Duration(c));
      if n > 0 && s.ExceedsAt(n - 1, c) {
        assert Start(marks, n) == Start(marks, n - 1);
      }
    } else {
      assert forall i :: !Window(marks, i, n);
    }
  }

  /** With run-start timers, the sustained trip at `n` is the first condition that was held. */
  lemma SustainedIsHeld(s: Stream, n: nat)
    requires n < |s.readings| && s.UsableUpTo(n + 1)
    ensures SustainedTrigger(Measure(s.SampleAt(n), Some(s.Before(n))), s.RunTimers(n), s.Time(n)) == s.FirstHeld(n)
  {
    hide PsiInterval, Lasts, Window;
    TripsIffHeldLongEnough(s, n, MemAvailable);
    TripsIffHeldLongEnough(s, n, SystemPsi);
    TripsIffHeldLongEnough(s, n, CandidatePsi);
  }

  /** The trigger of the timed guard at `n` is the one the stream calls for. */
  lemma TriggerIsStop(s: Stream, n: nat)
    requires n < |s.readings| && s.UsableUpTo(n)
    requires s.readings[n].Read? && s.SampleAt(n).sampledNs.Some?
    ensures var t := TriggerOf(s.SampleAt(n), s.baseline.memoryEvents, Some(s.Before(n)), s.RunTimers(n), s.Time(n));
            s.StopAt(n) == if t.Some? then Some(Tripped(t.value)) else None
  {
    if s.Immediate(n).None? {
      assert s.Usable(n);
      SustainedIsHeld(s, n);
    }
  }

  /** A quiet reading leaves the timers at the starts of the runs that are current after it. */
  lemma TimersFollowRuns(s: Stream, n: nat)
    requires n < |s.readings| && s.UsableUpTo(n + 1)
    requires s.StopAt(n).None?
    ensures TimersAfter(s.SampleAt(n), s.baseline.memoryEvents, Some(s.Before(n)), s.RunTimers(n), s.Time(n))
         == s.RunTimers(n + 1)
  {
    assert s.Usable(n);
    SustainedIsHeld(s, n);
    forall c: Condition
      ensures s.ExceedsAt(n, c) ==> Since(s.RunTimers(n), c, s.Time(n)) == s.RunBegan(n, c)
    {
      TripsIffHeldLongEnough(s, n, c);
    }
  }

  // ---------- the stop, told from the telemetry in numbers ----------

  /** Both counters can be trusted at this reading and the condition holds. */
  predicate HoldsAt(s: Stream, k: nat, c: Condition)
    requires k < |s.readings|
  {
    BothTrusted(s.SampleAt(k), Some(s.Before(k))) && Holds(s.SampleAt(k), Some(s.Before(k)), c)
  }

  /** The condition has held at every reading for so many nanoseconds. */
  ghost predicate HeldFor(s: Stream, n: nat, c: Condition, ns: int)
    requires n < |s.readings|
  {
    exists i: nat :: i <= n && NanosAt(s, n) - NanosAt(s, i) >= ns && forall k: nat :: i <= k <= n ==> HoldsAt(s, k, c)
  }

  ghost predicate LowFor15Seconds(s: Stream, n: nat)
    requires n < |s.readings|
  {
    HeldFor(s, n, MemAvailable, 15000000000)
  }

  ghost predicate PressedFor10Seconds(s: Stream, n: nat, c: Condition)
    requires n < |s.readings|
  {
    HeldFor(s, n, c, 10000000000)
  }

  /** Reading `n` is no sample, has no date, calls for stopping at once, or ends a stretch that was too long. */
  ghost predicate CallsForStop(s: Stream, n: nat)
    requires n < |s.readings|
  {
    || !s.readings[n].Read? || s.SampleAt(n).sampledNs.None?
    || !Sound(s.SampleAt(n), s.baseline.memoryEvents, Some(s.Before(n)))
    || LowFor15Seconds(s, n) || PressedFor10Seconds(s, n, SystemPsi) || PressedFor10Seconds(s, n, CandidatePsi)
  }

  /** The reason that belongs to such a reading. */
  ghost predicate IsReason(s: Stream, n: nat, stop: Stop)
    requires n < |s.readings|
  {
    var sample, before, events := s.SampleAt(n), Some(s.Before(n)), s.baseline.memoryEvents;
    match stop
    case TeardownSeen => s.readings[n].Teardown?
    case ReaderFailed => s.readings[n].Unreadable?
    case TimestampMissing => s.readings[n].Read? && sample.sampledNs.None?
    case Tripped(CounterIncreased(name)) =>
      && Rose(events, sample.memoryEvents, name)
      && name == (if Rose(events, sample.memoryEvents, "oom") then "oom" else "oom_kill")
    case Tripped(SwapFreeLow(_)) =>
      SwapLow(sample) && !Rose(events, sample.memoryEvents, "oom") && !Rose(events, sample.memoryEvents, "oom_kill")
    case Tripped(PsiTelemetryUnavailable) => !BothTrusted(sample, before) && !SwapLow(sample)
    case Tripped(Sustained(c, _, _)) =>
      && Sound(sample, events, before)
      && (c == MemAvailable <==> LowFor15Seconds(s, n))
      && (c == SystemPsi <==> !LowFor15Seconds(s, n) && PressedFor10Seconds(s, n, SystemPsi))
      && (c == CandidatePsi ==> PressedFor10Seconds(s, n, CandidatePsi))
  }

  lemma UsableIsSound(s: Stream, n: nat)
    requires n < |s.readings|
    ensures s.Immediate(n).None? <==> Sound(s.SampleAt(n), s.baseline.memoryEvents, Some(s.Before(n)))
  {
    ImmediateMeans(s.SampleAt(n), s.baseline.memoryEvents, Some(s.Before(n)));
  }

  lemma ExceedsMeans(s: Stream, k: nat, c: Condition)
    requires k < |s.readings| && s.Usable(k)
    ensures s.ExceedsAt(k, c) <==> HoldsAt(s, k, c)
    ensures s.Time(k) == NanosAt(s, k) as real / 1000000000.0
  {
    UsableIsSound(s, k);
    HoldsMeans(s.SampleAt(k), Some(s.Before(k)), c);
  }

  /** Held long enough, in the marks of the stream, is held for that many nanoseconds, in its samples. */
  lemma HeldMeans(s: Stream, n: nat, c: Condition)
    requires n < |s.readings| && s.UsableUpTo(n + 1)
    ensures s.HeldLongEnough(n, c) <==> HeldFor(s, n, c, if c == MemAvailable then 15000000000 else 10000000000)
  {
    hide PsiInterval, HoldsAt, Stream.ExceedsAt, Stream.Usable;
    forall k: nat | k <= n
      ensures s.ExceedsAt(k, c) <==> HoldsAt(s, k, c)
      ensures s.Time(k) == NanosAt(s, k) as real / 1000000000.0
    {
      ExceedsMeans(s, k, c);
    }
    var ns := if c == MemAvailable then 15000000000 else 10000000000;
    forall i: nat | i <= n
      ensures Window(s.Marks(c), i, n) <==> forall k: nat :: i <= k <= n ==> HoldsAt(s, k, c)
      ensures s.Times()[n] - s.Times()[i] >= Duration(c) <==> NanosAt(s, n) - NanosAt(s, i) >= ns
    {
    }
  }

  /** The stream calls for a stop exactly then, with that reason. */
  lemma StopMeans(s: Stream, n: nat)
    requires n < |s.readings| && s.UsableUpTo(n)
    ensures s.StopAt(n).Some? <==> CallsForStop(s, n)
    ensures s.StopAt(n).Some? ==> IsReason(s, n, s.StopAt(n).value)
  {
    hide Sound, HeldFor, Stream.HeldLongEnough, Stream.Immediate, Stream.Sustains, BothTrusted, SwapLow, Rose;
    if s.readings[n].Read? && s.SampleAt(n).sampledNs.Some? {
      UsableIsSound(s, n);
      ImmediateReason(s, n);
      if s.Immediate(n).None? {
        assert s.Usable(n);
        HeldMeans(s, n, MemAvailable);
        HeldMeans(s, n, SystemPsi);
        HeldMeans(s, n, CandidatePsi);
        FirstHeldIs(s, n);
      }
    }
  }

  lemma ImmediateReason(s: Stream, n: nat)
    requires n < |s.readings|
    ensures s.Immediate(n).Some? ==> !s.Immediate(n).value.Sustained? && IsReason(s, n, Tripped(s.Immediate(n).value))
  {
  }

  lemma FirstHeldIs(s: Stream, n: nat)
    requires n < |s.readings|
    ensures s.FirstHeld(n).Some? ==> s.FirstHeld(n).value.Sustained?
    ensures s.FirstHeld(n).Some? ==>
              s.FirstHeld(n).value.condition == if s.HeldLongEnough(n, MemAvailable) then MemAvailable
                                                else if s.HeldLongEnough(n, SystemPsi) then SystemPsi else CandidatePsi
    ensures s.FirstHeld(n).None? <==>
              !s.HeldLongEnough(n, MemAvailable) && !s.HeldLongEnough(n, SystemPsi) && !s.HeldLongEnough(n, CandidatePsi)
  {
    hide Stream.HeldLongEnough;
  }

  /** The monitor's decision loop.  It stops at the first reading that calls for it, with that
      reading's reason, and otherwise consumes the whole stream. */
  method RunMonitor(s: Stream) returns (at: nat, stop: Option<Stop>)
    ensures at <= |s.readings|
    ensures forall k :: 0 <= k < at ==> s.StopAt(k).None?
    ensures if at < |s.readings| then stop.Some? && stop == s.StopAt(at) else stop.None?
    ensures forall k :: 0 <= k < at ==> !CallsForStop(s, k)
    ensures at < |s.readings| ==> CallsForStop(s, at) && IsReason(s, at, stop.value)
  {
    hide CallsForStop, IsReason, AnswersFor, TimersFor, TriggerOf, TimersAfter;
    var timers := new GuardTimers();
    var previous := s.baseline;
    at := 0;
    while at < |s.readings|
      invariant at <= |s.readings|
      invariant fresh(timers)
      invariant s.UsableUpTo(at)
      invariant forall k :: 0 <= k < at ==> s.StopAt(k).None?
      invariant previous == s.Before(at)
      invariant timers.since == s.RunTimers(at)
      invariant forall k :: 0 <= k < at ==> !CallsForStop(s, k)
    {
      StopMeans(s, at);
      match s.readings[at] {
        case Teardown => return at, Some(TeardownSeen);
        case Unreadable => return at, Some(ReaderFailed);
        case Read(sample) =>
          if sample.sampledNs.None? {
            return at, Some(TimestampMissing);
          }
          TriggerIsStop(s, at);
          var trigger := timers.ResourceTrigger(sample, s.baseline.memoryEvents, Seconds(sample.sampledNs.value),
              Some(previous));
          previous := sample;
          if trigger.Some? {
            return at, Some(Tripped(trigger.value));
          }
          assert s.Usable(at);
          TimersFollowRuns(s, at);
          at := at + 1;
      }
    }
    stop := None;
  }

  // ---------- what a sustained trip means ----------

  /** The per-interval percentages telescope: over a window of exceedances the cumulative stall is
      more than two percent of the time from just before the window to its end. */
  lemma {:induction false} StallTelescopes(s: Stream, i: int, n: int, c: Condition)
    requires 0 <= i <= n < |s.readings| && s.UsableUpTo(n + 1) && c != MemAvailable
    requires Window(s.Marks(c), i, n)
    ensures 50 * 1000 * (StallAt(s, n, c) - StallAt(s, i - 1, c)) > NanosAt(s, n) - NanosAt(s, i - 1)
    decreases n
  {
    hide PsiInterval;
    assert s.Usable(n) && s.ExceedsAt(n, c);
    UsableStep(s, n);
    if i < n {
      StallTelescopes(s, i, n - 1, c);
    }
  }

  /** A window that is long enough to trip makes the whole run it lies in long enough. */
  lemma WholeRunIsLongEnough(s: Stream, n: nat, c: Condition)
    requires n < |s.readings| && s.UsableUpTo(n + 1)
    requires s.HeldLongEnough(n, c)
    ensures Window(s.Marks(c), Start(s.Marks(c), n), n)
    ensures s.Time(n) - s.RunBegan(n, c) >= Duration(c)
  {
    hide PsiInterval;
    var j :| Window(s.Marks(c), j, n) && s.Times()[n] - s.Times()[j] >= Duration(c);
    StartIsMaximal(s.Marks(c), n);
    assert s.UsableUpTo(j + 1);
    TimesIncrease(s, Start(s.Marks(c), n), j);
  }

  lemma HeldPressureIsReal(s: Stream, n: nat, c: Condition)
    requires n < |s.readings| && s.UsableUpTo(n + 1) && c != MemAvailable
    requires s.HeldLongEnough(n, c)
    ensures var i := Start(s.Marks(c), n);
            && NanosAt(s, n) - NanosAt(s, i - 1) > 10 * 1000000000
            && 50 * 1000 * (StallAt(s, n, c) - StallAt(s, i - 1, c)) > NanosAt(s, n) - NanosAt(s, i - 1)
  {
    hide PsiInterval, Lasts;
    WholeRunIsLongEnough(s, n, c);
    var i := Start(s.Marks(c), n);
    StallTelescopes(s, i, n, c);
    assert s.Usable(i) && s.Usable(n);
    UsableStep(s, i);
    UsableStep(s, n);
  }

  /** The monitor stops at `n`, having passed over everything before, because `c` was sustained. */
  ghost predicate StopsForSustained(s: Stream, n: nat, c: Condition) {
    && n < |s.readings| && (forall k: nat :: k < n ==> s.StopAt(k).None?)
    && s.StopAt(n).Some? && s.StopAt(n).value.Tripped?
    && s.StopAt(n).value.trigger.Sustained? && s.StopAt(n).value.trigger.condition == c
  }

  lemma StopMeansHeld(s: Stream, n: nat, c: Condition)
    requires StopsForSustained(s, n, c)
    ensures s.UsableUpTo(n + 1) && s.HeldLongEnough(n, c)
  {
    hide PsiInterval, Lasts, Measured.Value;
    forall k: nat | k < n ensures s.Usable(k) {
      assert s.StopAt(k).None?;
    }
  }

  /** No false pressure trip: when the monitor stops for a sustained pressure condition, real stall time
      has accumulated at more than two percent over a span of more than ten seconds. */
  lemma NoFalsePressureTrip(s: Stream, n: nat, c: Condition)
    requires StopsForSustained(s, n, c) && c != MemAvailable
    ensures var i := Start(s.Marks(c), n);
            && NanosAt(s, n) - NanosAt(s, i - 1) > 10 * 1000000000
            && 50 * 1000 * (StallAt(s, n, c) - StallAt(s, i - 1, c)) > NanosAt(s, n) - NanosAt(s, i - 1)
  {
    hide PsiInterval, Lasts;
    StopMeansHeld(s, n, c);
    HeldPressureIsReal(s, n, c);
  }

  /** No missed trip: a condition that has held for its duration plus one sample gap has already
      stopped the monitor, so a trip is never more than 2.5 seconds late. */
  lemma TripIsPrompt(s: Stream, i: nat, n: nat, c: Condition)
    requires i < n < |s.readings| && s.UsableUpTo(n + 1)
    requires Window(s.Marks(c), i, n)
    requires s.Time(n) - s.Time(i) >= Duration(c) + MAX_SAMPLE_GAP
    ensures s.StopAt(n - 1).Some?
  {
    hide PsiInterval;
    assert s.Usable(n) && s.Usable(n - 1);
    UsableStep(s, n);
    UsableStep(s, n - 1);
    assert Window(s.Marks(c), i, n - 1);
    assert s.HeldLongEnough(n - 1, c);
  }
}
