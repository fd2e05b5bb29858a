/** The offline evaluation of a recorded run, and its agreement with the online guard. */
module SustainedDuration {
  import opened Prelude
  import opened ResourceGuard
  import opened Runs
  import opened CandidateGuard

  /** One recorded row: when it was taken, and the value under evaluation. */
  datatype Row = Row(time: real, value: real)

  predicate RowExceeds(row: Row, threshold: real, above: bool) {
    if above then row.value > threshold else row.value < threshold
  }

  /** Consecutive exceeding rows join unless they are more than 2.5 seconds apart. */
  function MarkOf(rows: seq<Row>, k: nat, threshold: real, above: bool): Mark
    requires k < |rows|
  {
    if !RowExceeds(rows[k], threshold, above) then Cold
    else if k == 0 || rows[k].time - rows[k - 1].time <= MAX_SAMPLE_GAP then Joined
    else Fresh
  }

  function RowMarks(rows: seq<Row>, threshold: real, above: bool): (m: seq<Mark>)
    ensures |m| == |rows| && forall k :: 0 <= k < |rows| ==> m[k] == MarkOf(rows, k, threshold, above)
  {
    seq(|rows|, k requires 0 <= k < |rows| => MarkOf(rows, k, threshold, above))
  }

  function RowTimes(rows: seq<Row>): (t: seq<real>)
    ensures |t| == |rows| && forall k :: 0 <= k < |rows| ==> t[k] == rows[k].time
  {
    seq(|rows|, k requires 0 <= k < |rows| => rows[k].time)
  }

  /** `d` is the greatest age any run reaches at any of the first k rows, or zero. */
  ghost predicate IsLongestUpTo(marks: seq<Mark>, times: seq<real>, k: nat, d: real)
    requires |times| == |marks| >= k
  {
    && d >= 0.0
    && (forall n: nat :: n < k && marks[n] != Cold ==> times[n] - times[Start(marks, n)] <= d)
    && (d == 0.0 || exists n: nat :: n < k && marks[n] != Cold && d == times[n] - times[Start(marks, n)])
  }

  /** `d` is the greatest age any run reaches at any of its rows, or zero. */
  ghost predicate IsLongestRun(marks: seq<Mark>, times: seq<real>, d: real)
    requires |times| == |marks|
  {
    IsLongestUpTo(marks, times, |marks|, d)
  }

  lemma LongestGrows(marks: seq<Mark>, times: seq<real>, k: nat, d: real)
    requires |times| == |marks| > k && IsLongestUpTo(marks, times, k, d)
    ensures marks[k] == Cold ==> IsLongestUpTo(marks, times, k + 1, d)
    ensures marks[k] != Cold ==> IsLongestUpTo(marks, times, k + 1, Max(d, times[k] - times[Start(marks, k)]))
  {
    hide Start;
  }

  /** What `since` and `last` hold after the first k rows. */
  ghost predicate FollowsRun(marks: seq<Mark>, times: seq<real>, k: nat, since: Option<real>, last: Option<real>)
    requires |times| == |marks| >= k
  {
    if k == 0 || marks[k - 1] == Cold then since.None? && last.None?
    else last == Some(times[k - 1]) && since == Some(times[Start(marks, k - 1)])
  }

  /** All rows from i to n are beyond the threshold, and each is at most 2.5 seconds after the one before. */
  ghost predicate Stretch(rows: seq<Row>, i: int, n: int, threshold: real, above: bool) {
    && 0 <= i <= n < |rows|
    && (forall k :: i <= k <= n ==> if above then rows[k].value > threshold else rows[k].value < threshold)
    && (forall k :: i < k <= n ==> rows[k].time <= rows[k - 1].time + 2.5)
  }

  /** `d` is how long the longest stretch lasted, or zero. */
  ghost predicate IsLongestStretch(rows: seq<Row>, threshold: real, above: bool, d: real) {
    && (forall i, n :: Stretch(rows, i, n, threshold, above) ==> rows[n].time - rows[i].time <= d)
    && (d == 0.0 || exists i, n :: Stretch(rows, i, n, threshold, above) && rows[n].time - rows[i].time == d)
  }

  lemma StretchIsWindow(rows: seq<Row>, i: int, n: int, threshold: real, above: bool)
    ensures Stretch(rows, i, n, threshold, above) <==> Window(RowMarks(rows, threshold, above), i, n)
  {
    hide RowMarks;
    if 0 <= i <= n < |rows| {
      var marks := RowMarks(rows, threshold, above);
      assert forall k :: i <= k <= n ==> marks[k] == MarkOf(rows, k, threshold, above);
      if Window(marks, i, n) {
        forall k | i <= k <= n
          ensures RowExceeds(rows[k], threshold, above)
          ensures i < k ==> rows[k].time <= rows[k - 1].time + 2.5
        {
          assert i < k ==> marks[k] == Joined;
        }
      }
    }
  }

  lemma LongestWindowIsStretch(rows: seq<Row>, threshold: real, above: bool, d: real)
    requires IsLongestWindow(RowMarks(rows, threshold, above), RowTimes(rows), d)
    ensures IsLongestStretch(rows, threshold, above, d)
  {
    hide RowMarks, RowTimes, Stretch, Window;
    forall i, n ensures Stretch(rows, i, n, threshold, above) <==> Window(RowMarks(rows, threshold, above), i, n) {
      StretchIsWindow(rows, i, n, threshold, above);
    }
    forall i, n | Stretch(rows, i, n, threshold, above)
      ensures 0 <= i <= n < |rows|
    {
      StretchInRange(rows, i, n, threshold, above);
    }
  }

  lemma StretchInRange(rows: seq<Row>, i: int, n: int, threshold: real, above: bool)
    requires Stretch(rows, i, n, threshold, above)
    ensures 0 <= i <= n < |rows|
  {
  }

  method EvaluateSustained(rows: seq<Row>, threshold: real, above: bool) returns (longest: real)
    ensures IsLongestRun(RowMarks(rows, threshold, above), RowTimes(rows), longest)
    ensures NeverBackAndForward(RowTimes(rows)) ==> IsLongestStretch(rows, threshold, above, longest)
  {
    hide RowMarks, RowTimes, IsLongestUpTo, IsLongestStretch, NeverBackAndForward;
    ghost var marks, times := RowMarks(rows, threshold, above), RowTimes(rows);
    longest := 0.0;
    NothingYet(marks, times);
    var since: Option<real> := None;
    var last: Option<real> := None;
    for k := 0 to |rows|
      invariant IsLongestUpTo(marks, times, k, longest) && FollowsRun(marks, times, k, since, last)
    {
      var timestamp := rows[k].time;
      assert times[k] == timestamp && marks[k] == MarkOf(rows, k, threshold, above);
      LongestGrows(marks, times, k, longest);
      if RowExceeds(rows[k], threshold, above) {
        if since.None? || (last.Some? && timestamp - last.value > MAX_SAMPLE_GAP) {
          since := Some(timestamp);
        }
        assert since == Some(times[Start(marks, k)]);
        longest := Max(longest, timestamp - since.value);
        last := Some(timestamp);
      } else {
        since := None;
        last := None;
      }
    }
    if NeverBackAndForward(RowTimes(rows)) {
      RunsInheritDates(rows, threshold, above);
      LongestRunIsLongestWindow(marks, times, longest);
      LongestWindowIsStretch(rows, threshold, above, longest);
    }
  }

  lemma NothingYet(marks: seq<Mark>, times: seq<real>)
    requires |times| == |marks|
    ensures IsLongestUpTo(marks, times, 0, 0.0)
  {
  }

  /** `d` is the greatest length of any window of one unbroken run, or zero. */
  ghost predicate IsLongestWindow(marks: seq<Mark>, times: seq<real>, d: real)
    requires |times| == |marks|
  {
    && (forall i, n :: Window(marks, i, n) ==> times[n] - times[i] <= d)
    && (d == 0.0 || exists i, n :: Window(marks, i, n) && times[n] - times[i] == d)
  }

  /** Inside a run, dates that went back do not go forward again. */
  ghost predicate NoReturnInRuns(marks: seq<Mark>, times: seq<real>)
    requires |times| == |marks|
  {
    forall k, m :: !Return(marks, times, k, m)
  }

  /** The date went back at entry k of a run, and forward again at its later entry m. */
  ghost predicate Return(marks: seq<Mark>, times: seq<real>, k: int, m: int)
    requires |times| == |marks|
  {
    && 0 < k < m < |marks| && Window(marks, k - 1, m)
    && times[k] < times[k - 1] && times[m] > times[m - 1]
  }

  lemma {:induction false} FallsAfterBack(marks: seq<Mark>, times: seq<real>, k: nat, i: nat, n: nat)
    requires |times| == |marks| && NoReturnInRuns(marks, times)
    requires 0 < k <= i <= n < |marks| && Window(marks, k - 1, n) && times[k] < times[k - 1]
    ensures times[n] <= times[i]
  {
    if i < n {
      assert Window(marks, k - 1, n - 1);
      FallsAfterBack(marks, times, k, i, n - 1);
      assert !Return(marks, times, k, n);
    }
  }

  lemma {:induction false} BackOrForward(marks: seq<Mark>, times: seq<real>, s: nat, i: nat) returns (k: nat)
    requires |times| == |marks| && s <= i < |marks|
    ensures times[s] <= times[i] || (s < k <= i && times[k] < times[k - 1])
  {
    k := 0;
    if s < i {
      if times[i] < times[i - 1] {
        k := i;
      } else {
        k := BackOrForward(marks, times, s, i - 1);
      }
    }
  }

  /** A window is no longer than the run it lies in lasts, or it is not longer than nothing. */
  lemma WindowIsCovered(marks: seq<Mark>, times: seq<real>, i: nat, n: nat)
    requires |times| == |marks| && NoReturnInRuns(marks, times) && Window(marks, i, n)
    ensures marks[n] != Cold
    ensures times[n] - times[i] <= 0.0 || times[n] - times[i] <= times[n] - times[Start(marks, n)]
  {
    assert marks[n] != Cold by { assert i < n ==> marks[n] == Joined; }
    StartIsMaximal(marks, n);
    var s := Start(marks, n);
    var k := BackOrForward(marks, times, s, i);
    if times[s] > times[i] {
      RunPart(marks, s, n, k - 1);
      FallsAfterBack(marks, times, k, i, n);
    }
  }

  lemma RunPart(marks: seq<Mark>, s: nat, n: nat, i: nat)
    requires Window(marks, s, n) && s <= i <= n
    ensures Window(marks, i, n)
  {
    assert s < i ==> marks[i] == Joined;
  }

  /** Unless dates went back and forward again inside a run, the result is the greatest length over all
      windows of consecutive exceeding rows with no gap of more than 2.5 seconds. */
  lemma LongestRunIsLongestWindow(marks: seq<Mark>, times: seq<real>, d: real)
    requires |times| == |marks| && NoReturnInRuns(marks, times) && IsLongestRun(marks, times, d)
    ensures IsLongestWindow(marks, times, d)
  {
    forall i, n | Window(marks, i, n)
      ensures times[n] - times[i] <= d
    {
      WindowIsCovered(marks, times, i, n);
    }
    if d != 0.0 {
      var n: nat :| n < |marks| && marks[n] != Cold && d == times[n] - times[Start(marks, n)];
      StartIsMaximal(marks, n);
      assert Window(marks, Start(marks, n), n);
    }
  }

  // ---------- exactly when the result is right, on the dates alone ----------

  /** The rows from i to n follow each other by at most 2.5 seconds. */
  ghost predicate Close(times: seq<real>, i: int, n: int) {
    0 <= i <= n < |times| && forall j {:trigger times[j]} :: i < j <= n ==> times[j] - times[j - 1] <= MAX_SAMPLE_GAP
  }

  /** The date went back at row k, and forward again at row m, with no gap of more than 2.5 s between. */
  ghost predicate GoesBackAndForward(times: seq<real>, k: int, m: int) {
    0 < k < m < |times| && Close(times, k, m) && times[k] < times[k - 1] && times[m] > times[m - 1]
  }

  ghost predicate NeverBackAndForward(times: seq<real>) {
    forall k, m :: !GoesBackAndForward(times, k, m)
  }

  /** Whatever the rows with these dates hold, the result is the length of the longest window. */
  ghost predicate AlwaysRight(times: seq<real>, threshold: real, above: bool) {
    forall rows: seq<Row>, d :: RowTimes(rows) == times && IsLongestRun(RowMarks(rows, threshold, above), times, d) ==>
      IsLongestWindow(RowMarks(rows, threshold, above), times, d)
  }

  lemma RunsInheritDates(rows: seq<Row>, threshold: real, above: bool)
    requires NeverBackAndForward(RowTimes(rows))
    ensures NoReturnInRuns(RowMarks(rows, threshold, above), RowTimes(rows))
  {
    var marks, times := RowMarks(rows, threshold, above), RowTimes(rows);
    forall k, m | Return(marks, times, k, m) ensures GoesBackAndForward(times, k, m) {
      CloseInRun(rows, threshold, above, k, m);
    }
  }

  lemma CloseInRun(rows: seq<Row>, threshold: real, above: bool, k: nat, m: nat)
    requires 0 < k && Window(RowMarks(rows, threshold, above), k - 1, m)
    ensures k <= m ==> Close(RowTimes(rows), k, m)
  {
    forall j | k < j <= m ensures RowTimes(rows)[j] - RowTimes(rows)[j - 1] <= MAX_SAMPLE_GAP {
      assert RowMarks(rows, threshold, above)[j] == MarkOf(rows, j, threshold, above);
    }
  }

  /** The values that make exactly the rows from a to m exceed. */
  function Exceeding(times: seq<real>, a: nat, m: nat, threshold: real, above: bool): (rows: seq<Row>)
    ensures |rows| == |times| && RowTimes(rows) == times
    ensures forall j :: 0 <= j < |rows| ==> (RowExceeds(rows[j], threshold, above) <==> a <= j <= m)
  {
    var rows := seq(|times|, j requires 0 <= j < |times| =>
      Row(times[j], if !(a <= j <= m) then threshold else if above then threshold + 1.0 else threshold - 1.0));
    assert RowTimes(rows) == times;
    rows
  }

  /** The first rise after the date went back. */
  lemma {:induction false} FirstRise(times: seq<real>, k: nat, m: nat) returns (r: nat)
    requires GoesBackAndForward(times, k, m)
    ensures r <= m && GoesBackAndForward(times, k, r)
    ensures forall j :: k <= j < r ==> times[j] < times[k - 1]
    ensures forall j :: k <= j < r ==> times[r - 1] <= times[j]
  {
    r := k + 1;
    while times[r] <= times[r - 1]
      invariant k < r <= m
      invariant forall j :: k <= j < r ==> times[r - 1] <= times[j] < times[k - 1]
      decreases m - r
    {
      r := r + 1;
    }
    assert Close(times, k, r);
  }

  /** Exactly the entries from a to m belong to a run, and it is one run. */
  ghost predicate SingleRun(marks: seq<Mark>, a: int, m: int) {
    && 0 <= a <= m < |marks|
    && (forall j :: 0 <= j < |marks| ==> (marks[j] != Cold <==> a <= j <= m))
    && (forall j :: a < j <= m ==> marks[j] == Joined)
  }

  lemma ExceedingIsOneRun(times: seq<real>, a: nat, m: nat, threshold: real, above: bool)
    requires Close(times, a, m)
    ensures var rows := Exceeding(times, a, m, threshold, above); SingleRun(RowMarks(rows, threshold, above), a, m)
  {
    var rows := Exceeding(times, a, m, threshold, above);
    var marks := RowMarks(rows, threshold, above);
    forall j | 0 <= j < |marks|
      ensures marks[j] != Cold <==> a <= j <= m
      ensures a < j <= m ==> marks[j] == Joined
    {
      assert marks[j] == MarkOf(rows, j, threshold, above);
      assert times[j] == rows[j].time;
      assert j > 0 ==> times[j - 1] == rows[j - 1].time;
    }
  }

  lemma {:induction false} StartOfRun(marks: seq<Mark>, a: nat, n: nat, m: nat)
    requires SingleRun(marks, a, m) && a <= n <= m
    ensures Start(marks, n) == a
  {
    if a < n {
      StartOfRun(marks, a, n - 1, m);
    }
  }

  lemma RiseIsHidden(marks: seq<Mark>, times: seq<real>, a: nat, r: nat, d: real)
    requires |times| == |marks| && SingleRun(marks, a, r) && a + 1 < r
    requires forall j :: a < j < r ==> times[j] < times[a]
    requires times[r] > times[r - 1] && d == Max(0.0, times[r] - times[a])
    ensures IsLongestRun(marks, times, d) && !IsLongestWindow(marks, times, d)
  {
    hide Start;
    forall n: nat | n < |marks| && marks[n] != Cold
      ensures Start(marks, n) == a && times[n] - times[a] <= d
    {
      StartOfRun(marks, a, n, r);
    }
    assert marks[r] != Cold;
    assert Window(marks, r - 1, r);
  }

  /** Dates that go back and forward again hide a window from the result, for some rows. */
  lemma HiddenWindow(times: seq<real>, k: nat, m: nat, threshold: real, above: bool) returns (rows: seq<Row>, d: real)
    requires GoesBackAndForward(times, k, m)
    ensures RowTimes(rows) == times && IsLongestRun(RowMarks(rows, threshold, above), times, d)
    ensures !IsLongestWindow(RowMarks(rows, threshold, above), times, d)
  {
    hide RowMarks, RowTimes, IsLongestRun, IsLongestWindow, Exceeding, SingleRun;
    var r := FirstRise(times, k, m);
    rows := Exceeding(times, k - 1, r, threshold, above);
    d := Max(0.0, times[r] - times[k - 1]);
    assert Close(times, k - 1, r);
    ExceedingIsOneRun(times, k - 1, r, threshold, above);
    RiseIsHidden(RowMarks(rows, threshold, above), times, k - 1, r, d);
  }

  /** The result is the longest window for every choice of row values if and only if no dates that have
      gone back go forward again before a gap of more than 2.5 seconds. */
  lemma ResultIsLongestIff(times: seq<real>, threshold: real, above: bool)
    ensures AlwaysRight(times, threshold, above) <==> NeverBackAndForward(times)
  {
    if NeverBackAndForward(times) {
      forall rows: seq<Row>, d | RowTimes(rows) == times && IsLongestRun(RowMarks(rows, threshold, above), times, d)
        ensures IsLongestWindow(RowMarks(rows, threshold, above), times, d)
      {
        RunsInheritDates(rows, threshold, above);
        LongestRunIsLongestWindow(RowMarks(rows, threshold, above), times, d);
      }
    } else {
      var k, m :| GoesBackAndForward(times, k, m);
      var rows, d := HiddenWindow(times, k, m, threshold, above);
    }
  }

  /** An instance: three rows dated 10, 0 and 2, for which a window of two seconds is overlooked. */
  lemma ClockSetBackHidesWindow()
    ensures exists rows: seq<Row>, d ::
              && RowTimes(rows) == [10.0, 0.0, 2.0]
              && IsLongestRun(RowMarks(rows, 5.0, false), RowTimes(rows), d)
              && !IsLongestWindow(RowMarks(rows, 5.0, false), RowTimes(rows), d)
  {
    var times := [10.0, 0.0, 2.0];
    assert GoesBackAndForward(times, 1, 2);
    var rows, d := HiddenWindow(times, 1, 2, 5.0, false);
  }

  lemma LongestWindowLasts(marks: seq<Mark>, times: seq<real>, d: real, limit: real)
    requires |times| == |marks| && limit > 0.0 && IsLongestWindow(marks, times, d)
    ensures d >= limit <==> exists n :: 0 <= n < |marks| && Lasts(marks, times, n, limit)
  {
    if d >= limit {
      var i, n :| Window(marks, i, n) && times[n] - times[i] == d;
      assert Lasts(marks, times, n, limit);
    }
    if n :| 0 <= n < |marks| && Lasts(marks, times, n, limit) {
      var i :| Window(marks, i, n) && times[n] - times[i] >= limit;
    }
  }

  // ---------- online and offline agree ----------

  const MEMORY_FLOOR: real := MEM_AVAILABLE_FLOOR as real

  /** The rows that record exactly the available memory of the samples the guard was fed. */
  function Recorded(f: Feed): (rows: seq<Row>)
    ensures |rows| == |f.samples|
    ensures forall k :: 0 <= k < |rows| ==> rows[k] == Row(f.Time(k), f.samples[k].memAvailable.GetOr(0) as real)
  {
    seq(|f.samples|, k requires 0 <= k < |f.samples| => Row(f.Time(k), f.samples[k].memAvailable.GetOr(0) as real))
  }

  /** Nothing but low memory can trip: the first sample is a sound baseline, every later one is in
      step with no immediate fault, and no pressure condition ever lasts long enough. */
  ghost predicate OnlyMemoryCanTrip(f: Feed) {
    && f.Shaped()
    && (|f.samples| > 0 ==> SetsBaseline(f.samples[0], f.baseline, None))
    && (forall n :: 0 < n < |f.samples| ==> ImmediateTrigger(f.samples[n], f.baseline, f.Before(n)).None?)
    && (forall n, c :: 0 < n < |f.samples| && c != MemAvailable ==> !Lasts(f.Marks(c), f.Times(), n, Duration(c)))
  }

  lemma SoundSampleIsInStep(f: Feed, n: nat)
    requires 0 < n < |f.samples| && ImmediateTrigger(f.samples[n], f.baseline, f.Before(n)).None?
    ensures f.InStep(n) && 0.0 < f.Time(n) - f.Time(n - 1) <= MAX_SAMPLE_GAP
  {
    assert PsiInterval(f.samples[n], f.Before(n), SystemPsi).Some?;
  }

  lemma SameMarks(f: Feed)
    requires OnlyMemoryCanTrip(f)
    ensures RowMarks(Recorded(f), MEMORY_FLOOR, false) == f.Marks(MemAvailable)
    ensures RowTimes(Recorded(f)) == f.Times() && NoReturnInRuns(f.Marks(MemAvailable), f.Times())
  {
    hide PsiInterval, Lasts, ImmediateTrigger, SetsBaseline;
    forall n: nat | 0 < n < |f.samples|
      ensures f.InStep(n) && 0.0 < f.Time(n) - f.Time(n - 1) <= MAX_SAMPLE_GAP
    {
      SoundSampleIsInStep(f, n);
    }
    hide Feed.InStep, Feed.Time;
    forall n: nat | n < |f.samples|
      ensures RowMarks(Recorded(f), MEMORY_FLOOR, false)[n] == f.Marks(MemAvailable)[n]
    {
      assert f.Counts(n, MemAvailable) <==> LowMemory(f.samples[n]);
    }
  }

  /** The guard trips at `n` for low memory, having been quiet until then. */
  ghost predicate FirstMemoryTrip(f: Feed, n: nat)
    requires f.Shaped()
  {
    && n < |f.samples| && f.QuietUpTo(n)
    && f.TriggerAt(n).Some? && f.TriggerAt(n).value.Sustained? && f.TriggerAt(n).value.condition == MemAvailable
  }

  /** While the guard stays quiet, the step to the next sample trips exactly when low memory has
      lasted fifteen seconds at it, and then for that reason. */
  lemma MemoryTripAt(f: Feed, n: nat)
    requires OnlyMemoryCanTrip(f) && n < |f.samples| && f.QuietUpTo(n)
    ensures f.TriggerAt(n).Some? ==> FirstMemoryTrip(f, n)
    ensures f.TriggerAt(n).Some? <==> Lasts(f.Marks(MemAvailable), f.Times(), n, 15.0)
  {
    hide PsiInterval;
    if n == 0 {
      assert SetsBaseline(f.samples[0], f.baseline, None);
      assert forall i :: Window(f.Marks(MemAvailable), i, 0) ==> i == 0;
    } else {
      hide Lasts, Window;
      assert ImmediateTrigger(f.samples[n], f.baseline, f.Before(n)).None?;
      TimersStayInsideRuns(f, n);
      SustainedTripIsWholeRun(f, n, MemAvailable);
      SustainedTripIsWholeRun(f, n, SystemPsi);
      SustainedTripIsWholeRun(f, n, CandidatePsi);
    }
  }

  /** The online guard reports sustained low memory exactly when the offline duration below 5 GiB
      of the same samples, the baseline sample included, is at least fifteen seconds. */
  lemma OnlineAgreesWithOffline(f: Feed, d: real)
    requires OnlyMemoryCanTrip(f)
    requires IsLongestRun(RowMarks(Recorded(f), MEMORY_FLOOR, false), RowTimes(Recorded(f)), d)
    ensures (exists n :: FirstMemoryTrip(f, n)) <==> d >= 15.0
  {
    var marks := f.Marks(MemAvailable);
    SameMarks(f);
    LongestRunIsLongestWindow(marks, f.Times(), d);
    LongestWindowLasts(marks, f.Times(), d, 15.0);
    hide OnlyMemoryCanTrip, IsLongestRun, Lasts, IsLongestWindow, FirstMemoryTrip;
    if n :| 0 <= n < |marks| && Lasts(marks, f.Times(), n, 15.0) {
      TripsBy(f, n);
    }
    if n: nat :| FirstMemoryTrip(f, n) {
      TripMeansWindow(f, n);
    }
  }

  lemma TripMeansWindow(f: Feed, n: nat)
    requires OnlyMemoryCanTrip(f) && FirstMemoryTrip(f, n)
    ensures n < |f.samples| && Lasts(f.Marks(MemAvailable), f.Times(), n, 15.0)
  {
    hide PsiInterval, Lasts;
    MemoryTripAt(f, n);
  }

  lemma {:induction false} TripsBy(f: Feed, n: nat)
    requires OnlyMemoryCanTrip(f) && n < |f.samples|
    requires Lasts(f.Marks(MemAvailable), f.Times(), n, 15.0)
    ensures exists m :: FirstMemoryTrip(f, m)
  {
    hide PsiInterval, Lasts;
    if f.QuietUpTo(n) {
      MemoryTripAt(f, n);
      assert FirstMemoryTrip(f, n);
    } else {
      var m := FirstNoise(f, n);
      MemoryTripAt(f, m);
    }
  }

  lemma {:induction false} FirstNoise(f: Feed, n: nat) returns (m: nat)
    requires f.Shaped() && n <= |f.samples| && !f.QuietUpTo(n)
    ensures m < n && f.QuietUpTo(m) && f.TriggerAt(m).Some?
  {
    if f.QuietUpTo(n - 1) {
      m := n - 1;
    } else {
      m := FirstNoise(f, n - 1);
    }
  }
}
