/** How each physical gate is judged from the sequenced runtime events seen since it was shown.
    Text matching and intent routing are facts an event carries. */
module GateEvidence {
  import opened Prelude

  datatype EventKind =
    | Transcription | LearningContext | LearningState
    | AssistantStarted | AssistantDelta | AssistantCompleted
    | SpeechStarted | SpeechCompleted | SpeechInterrupted
    | TurnCancelled | RuntimeStateChanged | ListeningStopped | OtherEvent

  datatype Phrase = ContinueCourse | StopFriday | ProgressQuestion | Yes

  datatype LearningProgress =
    | NoProgress | ProgressRead(readOnly: bool) | PendingConfirmation | SubmittedPendingReview(hasAttempt: bool)

  datatype RuntimeEvent = RuntimeEvent(
    sequence: int,
    kind: EventKind,
    acknowledgement: bool,
    finalized: bool,
    matches: set<Phrase>,
    repeatIntent: bool,
    hasText: bool,
    mentionsSubmit: bool,
    cancelled: bool,
    turnId: Option<string>,
    sessionId: Option<string>,
    timestamp: Option<string>,
    continuesLesson: bool,
    progress: LearningProgress,
    explicitStop: bool,
    idleTimeout: bool)
  {
    predicate Finalized() { kind == Transcription && finalized }

    predicate Matches(p: Phrase) { kind == Transcription && p in matches }

    predicate Repeats() { Finalized() && repeatIntent }

    predicate HasTurn() { Truthy(turnId) }

    predicate NonAck(k: EventKind) { kind == k && !acknowledgement }

    predicate Speech() { kind == SpeechStarted || kind == SpeechCompleted }

    predicate Response() {
      kind.AssistantStarted? || kind.AssistantDelta? || kind.AssistantCompleted? || Speech()
    }

    predicate Stops() {
      kind == TurnCancelled || (kind == RuntimeStateChanged && explicitStop)
    }
  }

  predicate Truthy(s: Option<string>) {
    s.Some? && s.value != ""
  }

  /** Every character that stripping a text removes. */
  predicate IsWhiteSpace(c: char) {
    || '\U{9}' <= c <= '\U{D}' || '\U{1C}' <= c <= '\U{20}' || c == '\U{85}' || c == '\U{A0}' || c == '\U{1680}'
    || '\U{2000}' <= c <= '\U{200A}' || c == '\U{2028}' || c == '\U{2029}' || c == '\U{202F}' || c == '\U{205F}'
    || c == '\U{3000}'
  }

  /** A turn identity that is not only white space. */
  predicate NonBlank(s: Option<string>) {
    s.Some? && exists k :: 0 <= k < |s.value| && !IsWhiteSpace(s.value[k])
  }

  type Test = RuntimeEvent -> bool

  predicate Any(events: seq<RuntimeEvent>, p: Test) {
    exists k :: 0 <= k < |events| && p(events[k])
  }

  predicate Several(events: seq<RuntimeEvent>, p: Test) {
    exists j, k :: 0 <= j < k < |events| && p(events[j]) && p(events[k])
  }

  function First(events: seq<RuntimeEvent>, p: Test): (r: Option<RuntimeEvent>)
    ensures r.None? <==> !Any(events, p)
    ensures r.Some? ==> exists k :: 0 <= k < |events| && r.value == events[k] && p(events[k]) && !Any(events[..k], p)
  {
    if events == [] then None
    else if p(events[0]) then
      assert !Any(events[..0], p);
      Some(events[0])
    else
      var r := First(events[1..], p);
      FirstOfRest(events, p, r);
      r
  }

  lemma FirstOfRest(events: seq<RuntimeEvent>, p: Test, r: Option<RuntimeEvent>)
    requires events != [] && !p(events[0])
    requires r.None? <==> !Any(events[1..], p)
    requires r.Some? ==>
               exists k :: 0 <= k < |events[1..]| &&
                 r.value == events[1..][k] && p(events[1..][k]) && !Any(events[1..][..k], p)
    ensures r.None? <==> !Any(events, p)
    ensures r.Some? ==> exists k :: 0 <= k < |events| && r.value == events[k] && p(events[k]) && !Any(events[..k], p)
  {
    if r.Some? {
      var k :| 0 <= k < |events[1..]| && r.value == events[1..][k] && p(events[1..][k]) && !Any(events[1..][..k], p);
      var before := events[..k + 1];
      forall j | 0 <= j < |before|
        ensures !p(before[j])
      {
        assert j > 0 ==> before[j] == events[1..][..k][j - 1];
      }
      assert events[k + 1] == r.value;
    }
    assert forall k :: 0 < k < |events| ==> events[k] == events[1..][k - 1];
  }

  function Last(events: seq<RuntimeEvent>, p: Test): (r: Option<RuntimeEvent>)
    ensures r.None? <==> !Any(events, p)
    ensures r.Some? ==> exists k :: 0 <= k < |events| && r.value == events[k] && p(events[k])
                                    && forall j :: k < j < |events| ==> !p(events[j])
  {
    if events == [] then None
    else if p(events[|events| - 1]) then Some(events[|events| - 1])
    else
      var init := events[..|events| - 1];
      assert forall k :: 0 <= k < |events| && p(events[k]) ==> k < |init| && p(init[k]);
      Last(init, p)
  }

  /** The least sequence number among the events that pass the test. */
  function MinSequence(events: seq<RuntimeEvent>, p: Test): Option<int> {
    if events == [] then None
    else
      var rest := MinSequence(events[1..], p);
      if !p(events[0]) then rest
      else if rest.Some? && rest.value < events[0].sequence then rest
      else Some(events[0].sequence)
  }

  // ---------- verdicts ----------

  datatype PlaybackId = PlaybackId(turnId: string, sequence: int)

  /** The playback the current gate is about. */
  datatype Playback = Playback(
    id: Option<PlaybackId>,
    turnId: Option<string>,
    sessionId: Option<string>,
    sequence: Option<int>,
    startedAt: Option<string>)

  const NO_PLAYBACK := Playback(None, None, None, None, None)

  datatype Failure =
    | TimedOut | ExtraWake | WrongTranscript | RouteEvidenceMissing | ResponseCancelled
    | OutputNotApproved | TurnIdentityUnavailable | PlaybackIdentityUnavailable | NotConfirmedDuringPlayback
    | PlaybackFinishedFirst | NotRoutedToRepeat | DuplicateTurns | StopDidNotInterrupt | StopTranscriptMissing
    | ResponseBeforeStop | StopDidNotCancel | SpeechAfterStop | ReadBeforeTranscript | AttemptNotRecorded

  /** What showing the next gate needs to know. */
  datatype NextGate = NextGate(includeSequence: Option<int>, playback: Playback)

  const PLAIN_NEXT := NextGate(None, NO_PLAYBACK)

  datatype Verdict =
    | Wait
    | Fail(failure: Failure)
    | Pass(next: NextGate)
    | PassStopped(stopSequence: int)
    | PassWithoutTurn
    | AskConfirmation
    | QuietConfirmed

  datatype VoiceHealth = VoiceHealth(wakes: Option<int>, lastWakeAccepted: bool)

  datatype Readiness = Readiness(
    actualInput: bool, aecInput: bool, pcmProgressing: bool, listenerReady: bool, captureOwner: bool,
    baselineWakes: int, pocketAnna: bool, qwenHttp200: bool)
  {
    predicate All() {
      actualInput && aecInput && pcmProgressing && listenerReady && captureOwner
    }
  }

  datatype Database = Database(rows: int, sha256: string)

  /** What is kept with a result: the events since the gate was shown, the voice's health and the wakes before,
      whether answer and output were approved, the playback, and the learner's database before and after. */
  datatype Evidence = Evidence(
    since: seq<RuntimeEvent>, health: VoiceHealth, wakesBefore: int, approved: bool, playback: Playback,
    before: Option<Database>, after: Option<Database>)

  function DecideWake(events: seq<RuntimeEvent>, voice: VoiceHealth, baseline: int): Verdict {
    var delta := voice.wakes.GetOr(0) - baseline;
    if delta > 1 then Fail(ExtraWake)
    else if delta != 1 || !voice.lastWakeAccepted
            || !Any(events, (e: RuntimeEvent) => e.kind == SpeechCompleted && e.acknowledgement) then Wait
    else Pass(PLAIN_NEXT)
  }

  predicate IsAnswer(e: RuntimeEvent) {
    e.kind == AssistantCompleted && e.hasText && !e.cancelled
  }

  predicate IsLessonContext(e: RuntimeEvent) {
    e.kind == LearningContext && e.continuesLesson
  }

  function DecideContinuation(events: seq<RuntimeEvent>, approvedOutput: bool): Verdict {
    var transcript := Last(events, (e: RuntimeEvent) => e.Finalized() && e.Matches(ContinueCourse));
    var context := Last(events, (e: RuntimeEvent) => IsLessonContext(e));
    var answer := Last(events, (e: RuntimeEvent) => IsAnswer(e));
    var delta := Any(events, (e: RuntimeEvent) => e.kind == AssistantDelta && e.hasText);
    var speech := Last(events, (e: RuntimeEvent) => e.NonAck(SpeechStarted));
    if Any(events, (e: RuntimeEvent) => e.Finalized() && !e.Matches(ContinueCourse)) then Fail(WrongTranscript)
    else if transcript.None? then Wait
    else if answer.Some? && (context.None? || !delta) then Fail(RouteEvidenceMissing)
    else if context.Some? && context.value.HasTurn()
            && Any(events, (e: RuntimeEvent) => e.kind == AssistantCompleted && e.cancelled
                  && e.turnId == context.value.turnId) then
      Fail(ResponseCancelled)
    else if context.None? || answer.None? || !delta || speech.None? then Wait
    else if !approvedOutput then Fail(OutputNotApproved)
    else if !NonBlank(answer.value.turnId) then PassWithoutTurn
    else
      var turn, sequence := answer.value.turnId.value, speech.value.sequence;
      Pass(NextGate(Some(transcript.value.sequence),
                    Playback(Some(PlaybackId(turn, sequence)), Some(turn), speech.value.sessionId,
                             Some(sequence), speech.value.timestamp)))
  }

  function DecideLearningOutput(events: seq<RuntimeEvent>, playback: Playback): Verdict {
    if playback.sequence.Some?
       && Any(events, (e: RuntimeEvent) => e.NonAck(SpeechCompleted) && e.sequence > playback.sequence.value) then
      Fail(NotConfirmedDuringPlayback)
    else Wait
  }

  predicate InterruptedAfter(e: RuntimeEvent, active: int) {
    e.kind == SpeechInterrupted && e.sequence > active
  }

  predicate RepeatsAfter(e: RuntimeEvent, from: int) {
    e.Repeats() && e.sequence > from
  }

  predicate ContextAfter(e: RuntimeEvent, from: int) {
    e.kind == LearningContext && e.sequence > from && e.continuesLesson && e.HasTurn()
  }

  predicate DeltaAfter(e: RuntimeEvent, from: int) {
    e.kind == AssistantDelta && e.sequence > from && e.hasText && e.HasTurn()
  }

  predicate SpeechAfter(e: RuntimeEvent, from: int) {
    e.NonAck(SpeechStarted) && e.sequence > from && e.HasTurn()
  }

  function DecideBargeIn(events: seq<RuntimeEvent>, playback: Playback): Verdict {
    if playback.sequence.None? then Wait
    else
      var active := playback.sequence.value;
      var interruption := First(events, (e: RuntimeEvent) => InterruptedAfter(e, active));
      if interruption.None? then
        if Any(events, (e: RuntimeEvent) => e.kind == SpeechCompleted && e.sequence > active) then Fail(PlaybackFinishedFirst)
        else Wait
      else
        var from := interruption.value.sequence;
        var transcript := First(events, (e: RuntimeEvent) => RepeatsAfter(e, from));
        if transcript.None? then
          if Any(events, (e: RuntimeEvent) => e.Finalized() && e.sequence > from) then Fail(NotRoutedToRepeat) else Wait
        else
          DecideFollowUp(events, transcript.value.sequence)
  }

  /** The repeat request was heard at `from`: judge the one turn that must follow it. */
  function DecideFollowUp(events: seq<RuntimeEvent>, from: int): Verdict {
    var isContext := (e: RuntimeEvent) => ContextAfter(e, from);
    var isDelta := (e: RuntimeEvent) => DeltaAfter(e, from);
    var isSpeech := (e: RuntimeEvent) => SpeechAfter(e, from);
    var context, speech := First(events, isContext), First(events, isSpeech);
    if Several(events, isContext) then Fail(DuplicateTurns)
    else if context.None? then
      if Any(events, isDelta) || speech.Some? then Fail(RouteEvidenceMissing) else Wait
    else if Any(events, (e: RuntimeEvent) => (isDelta(e) || isSpeech(e)) && e.turnId != context.value.turnId) then
      Fail(DuplicateTurns)
    else if !Any(events, isDelta) || speech.None? then Wait
    else
      var turn, sequence := speech.value.turnId.value, speech.value.sequence;
      Pass(NextGate(Some(sequence),
                    Playback(Some(PlaybackId(turn, sequence)), Some(turn), speech.value.sessionId,
                             Some(sequence), speech.value.timestamp)))
  }

  predicate Interrupts(e: RuntimeEvent, playback: Playback) {
    && playback.sequence.Some?
    && e.kind == SpeechInterrupted && e.sequence > playback.sequence.value
    && (playback.turnId.None? || e.turnId == playback.turnId)
    && (playback.sessionId.None? || e.sessionId == playback.sessionId)
  }

  predicate StopHeard(e: RuntimeEvent) {
    e.Finalized() && e.Matches(StopFriday)
  }

  function DecideSpokenStop(events: seq<RuntimeEvent>, playback: Playback): Verdict {
    if playback.sequence.None? then Wait
    else
      var active := playback.sequence.value;
      var interruption := First(events, (e: RuntimeEvent) => Interrupts(e, playback));
      if interruption.None? then
        if Any(events, (e: RuntimeEvent) => e.kind == SpeechCompleted && e.sequence > active) then Fail(PlaybackFinishedFirst)
        else if Any(events, (e: RuntimeEvent) => StopHeard(e)) then Fail(StopDidNotInterrupt)
        else Wait
      else
        DecideAfterInterruption(events, interruption.value.sequence)
  }

  function DecideAfterInterruption(events: seq<RuntimeEvent>, from: int): Verdict {
    var heard := First(events, (e: RuntimeEvent) => StopHeard(e) && e.sequence > from);
    if heard.None? then
      if Any(events, (e: RuntimeEvent) => e.Finalized() && e.sequence > from) then Fail(WrongTranscript)
      else if Any(events, (e: RuntimeEvent) => e.kind == ListeningStopped && e.idleTimeout && e.sequence > from) then
        Fail(StopTranscriptMissing)
      else if Any(events, (e: RuntimeEvent) => e.Response() && e.sequence > from) then Fail(ResponseBeforeStop)
      else if Any(events, (e: RuntimeEvent) => e.Stops()) then Fail(StopDidNotCancel)
      else Wait
    else
      var stop := MinSequence(events, (e: RuntimeEvent) => e.Stops() && e.sequence > heard.value.sequence);
      if stop.Some? then
        if Any(events, (e: RuntimeEvent) => from < e.sequence < stop.value && e.Response()) then Fail(ResponseBeforeStop)
        else PassStopped(stop.value)
      else if Any(events, (e: RuntimeEvent) => e.Response() && e.sequence > from) then Fail(ResponseBeforeStop)
      else Wait
  }

  function DecideProgress(events: seq<RuntimeEvent>): Verdict {
    var transcript := Last(events, (e: RuntimeEvent) => e.Finalized() && e.Matches(ProgressQuestion));
    var read := Last(events, (e: RuntimeEvent) => e.kind == LearningState && e.progress == ProgressRead(true));
    if Any(events, (e: RuntimeEvent) => e.Finalized() && !e.Matches(ProgressQuestion)) then Fail(WrongTranscript)
    else if transcript.None? || read.None?
            || !Any(events, (e: RuntimeEvent) => e.kind == AssistantCompleted && e.hasText)
            || !Any(events, (e: RuntimeEvent) => e.NonAck(SpeechCompleted)) then Wait
    else if read.value.sequence < transcript.value.sequence then Fail(ReadBeforeTranscript)
    else Pass(PLAIN_NEXT)
  }

  function DecideAnswer(events: seq<RuntimeEvent>): Verdict {
    var answer := Last(events, (e: RuntimeEvent) => e.Finalized() && e.hasText);
    if answer.None? then Wait
    else
      var pending := Last(events, (e: RuntimeEvent) =>
        e.kind == LearningState && e.progress == PendingConfirmation && e.sequence > answer.value.sequence);
      if pending.None? then Wait
      else if Any(events, (e: RuntimeEvent) => e.kind == AssistantCompleted && e.sequence > pending.value.sequence
          && e.mentionsSubmit)
              && Any(events, (e: RuntimeEvent) => e.NonAck(SpeechCompleted) && e.sequence > pending.value.sequence) then
        AskConfirmation
      else Wait
  }

  predicate AttemptRecorded(before: Option<Database>, after: Option<Database>) {
    before.Some? && after.Some? && before.value.rows >= 0
    && after.value.rows == before.value.rows + 1 && after.value.sha256 != before.value.sha256
  }

  function DecideConfirmation(events: seq<RuntimeEvent>, before: Option<Database>, after: Option<Database>): Verdict {
    var yes := Last(events, (e: RuntimeEvent) => e.Finalized() && e.Matches(Yes));
    if yes.None? || !Any(events, (e: RuntimeEvent) =>
        e.kind == LearningState && e.progress == SubmittedPendingReview(true) && e.sequence > yes.value.sequence) then Wait
    else if !AttemptRecorded(before, after) then Fail(AttemptNotRecorded)
    else Pass(PLAIN_NEXT)
  }

  function DecideQuiet(events: seq<RuntimeEvent>, stopSequence: int, quietReady: bool, deadline: real,
                       now: real): Verdict {
    if Any(events, (e: RuntimeEvent) => e.Speech() && e.sequence > stopSequence) then Fail(SpeechAfterStop)
    else if !quietReady && now >= deadline then QuietConfirmed
    else Wait
  }

  // ---------- what a spoken stop proves ----------

  ghost predicate Increasing(events: seq<RuntimeEvent>) {
    forall j, k :: 0 <= j < k < |events| ==> events[j].sequence < events[k].sequence
  }

  /** At `i` the playback was interrupted, at `t` the stop phrase was heard, at `s` the stop took
      effect, and nothing was answered or spoken from the interruption to the stop. */
  ghost predicate StopChain(events: seq<RuntimeEvent>, playback: Playback, i: int, t: int, s: int) {
    && 0 <= i < t < s < |events|
    && Interrupts(events[i], playback)
    && StopHeard(events[t])
    && events[s].Stops()
    && forall k :: i < k < s ==> !events[k].Response()
  }

  ghost predicate FirstInterruption(events: seq<RuntimeEvent>, playback: Playback, i: int) {
    && 0 <= i < |events| && Interrupts(events[i], playback)
    && forall k :: 0 <= k < i ==> !Interrupts(events[k], playback)
  }

  lemma {:induction false} MinIsLeast(events: seq<RuntimeEvent>, p: Test)
    ensures MinSequence(events, p).None? <==> !Any(events, p)
    ensures MinSequence(events, p).Some? ==>
              && (exists k :: 0 <= k < |events| && p(events[k]) && events[k].sequence == MinSequence(events, p).value)
              && (forall k :: 0 <= k < |events| && p(events[k]) ==> MinSequence(events, p).value <= events[k].sequence)
  {
    if events != [] {
      MinIsLeast(events[1..], p);
      assert forall k :: 0 < k < |events| ==> events[k] == events[1..][k - 1];
      var tail := events[1..];
      if rest: nat :| rest < |tail| && p(tail[rest]) && Some(tail[rest].sequence) == MinSequence(tail, p) {
        assert p(events[rest + 1]);
      }
    }
  }

  /** `spoken_stop` passes exactly when the log since the gate holds a chain from the first
      interruption of the gate's playback over the stop phrase to a stop, unbroken by any answer
      or speech; it then reports the sequence number of such a stop. */
  lemma SpokenStopPassesIffChain(events: seq<RuntimeEvent>, playback: Playback)
    requires Increasing(events)
    ensures DecideSpokenStop(events, playback).PassStopped?
       <==> exists i, t, s :: FirstInterruption(events, playback, i) && StopChain(events, playback, i, t, s)
    ensures DecideSpokenStop(events, playback).PassStopped? ==>
              exists i, t, s :: FirstInterruption(events, playback, i) && StopChain(events, playback, i, t, s)
                && events[s].sequence == DecideSpokenStop(events, playback).stopSequence
  {
    var interruption := First(events, (e: RuntimeEvent) => Interrupts(e, playback));
    if playback.sequence.Some? && interruption.Some? {
      var i := FirstIndex(events, playback);
      AfterInterruption(events, playback, i);
    }
  }

  lemma FirstIndex(events: seq<RuntimeEvent>, playback: Playback) returns (i: nat)
    requires First(events, (e: RuntimeEvent) => Interrupts(e, playback)).Some?
    ensures FirstInterruption(events, playback, i)
    ensures First(events, (e: RuntimeEvent) => Interrupts(e, playback)).value == events[i]
  {
    var p := (e: RuntimeEvent) => Interrupts(e, playback);
    i :| 0 <= i < |events| && First(events, p).value == events[i] && p(events[i]) && !Any(events[..i], p);
    forall k | 0 <= k < i
      ensures !Interrupts(events[k], playback)
    {
      assert events[..i][k] == events[k];
    }
  }

  lemma AfterInterruption(events: seq<RuntimeEvent>, playback: Playback, i: nat)
    requires Increasing(events) && FirstInterruption(events, playback, i)
    ensures var v := DecideAfterInterruption(events, events[i].sequence);
            && (v.PassStopped? <==> exists t, s :: StopChain(events, playback, i, t, s))
            && (v.PassStopped? ==> exists t, s :: StopChain(events, playback, i, t, s) && events[s].sequence == v.stopSequence)
  {
    var from := events[i].sequence;
    var isHeard := (e: RuntimeEvent) => StopHeard(e) && e.sequence > from;
    var heard := First(events, isHeard);
    if heard.None? {
      assert forall k :: 0 <= k < |events| && StopHeard(events[k]) ==> !isHeard(events[k]) && k <= i;
    } else {
      var t :| 0 <= t < |events| && heard.value == events[t] && isHeard(events[t]) && !Any(events[..t], isHeard);
      forall k | i < k < t
        ensures !StopHeard(events[k])
      {
        assert events[..t][k] == events[k];
      }
      CleanMeansChain(events, playback, i, t);
      forall t', s | StopChain(events, playback, i, t', s)
        ensures StopChain(events, playback, i, t, s)
      {
      }
    }
  }

  /** The stop the gate waits for, and whether an answer or speech came before it. */
  function StopSequence(events: seq<RuntimeEvent>, t: nat): Option<int>
    requires t < |events|
  {
    MinSequence(events, (e: RuntimeEvent) => e.Stops() && e.sequence > events[t].sequence)
  }

  predicate CleanUntil(events: seq<RuntimeEvent>, from: int, stop: Option<int>) {
    stop.Some? && !Any(events, (e: RuntimeEvent) => from < e.sequence < stop.value && e.Response())
  }

  lemma CleanMeansChain(events: seq<RuntimeEvent>, playback: Playback, i: nat, t: nat)
    requires Increasing(events) && FirstInterruption(events, playback, i)
    requires i < t < |events| && StopHeard(events[t])
    ensures var stop := StopSequence(events, t);
            && (CleanUntil(events, events[i].sequence, stop) <==> exists s :: StopChain(events, playback, i, t, s))
            && (CleanUntil(events, events[i].sequence, stop) ==>
                  exists s :: StopChain(events, playback, i, t, s) && events[s].sequence == stop.value)
  {
    var isStop := (e: RuntimeEvent) => e.Stops() && e.sequence > events[t].sequence;
    var stop := StopSequence(events, t);
    MinIsLeast(events, isStop);
    if stop.None? {
      assert forall s :: t < s < |events| ==> !isStop(events[s]);
    } else {
      var k := LeastStop(events, t);
      ChainUpTo(events, playback, i, t, k);
    }
  }

  lemma LeastStop(events: seq<RuntimeEvent>, t: nat) returns (k: nat)
    requires Increasing(events) && t < |events| && StopSequence(events, t).Some?
    ensures t < k < |events| && events[k].Stops() && events[k].sequence == StopSequence(events, t).value
    ensures forall s :: t < s < |events| && events[s].Stops() ==> k <= s
  {
    var isStop := (e: RuntimeEvent) => e.Stops() && e.sequence > events[t].sequence;
    MinIsLeast(events, isStop);
    k :| 0 <= k < |events| && isStop(events[k]) && events[k].sequence == StopSequence(events, t).value;
    forall s | t < s < |events| && events[s].Stops()
      ensures k <= s
    {
      assert isStop(events[s]);
    }
  }

  lemma ChainUpTo(events: seq<RuntimeEvent>, playback: Playback, i: nat, t: nat, k: nat)
    requires Increasing(events) && FirstInterruption(events, playback, i)
    requires i < t < k < |events| && StopHeard(events[t]) && events[k].Stops()
    requires forall s :: t < s < |events| && events[s].Stops() ==> k <= s
    ensures CleanUntil(events, events[i].sequence, Some(events[k].sequence)) <==> StopChain(events, playback, i, t, k)
    ensures (exists s :: StopChain(events, playback, i, t, s)) ==> StopChain(events, playback, i, t, k)
  {
    var from, stop := events[i].sequence, events[k].sequence;
    var isEarly := (e: RuntimeEvent) => from < e.sequence < stop && e.Response();
    assert forall j :: 0 <= j < |events| ==> (isEarly(events[j]) <==> i < j < k && events[j].Response());
  }

  // ---------- what a barge-in proves ----------

  /** After `from` exactly one lesson context, and answer and speech of its turn and of no other. */
  ghost predicate OneTurnFollows(events: seq<RuntimeEvent>, from: int) {
    exists c: nat ::
      && c < |events| && ContextAfter(events[c], from)
      && (forall k: nat :: k < |events| && ContextAfter(events[k], from) ==> k == c)
      && (forall k: nat :: k < |events| && (DeltaAfter(events[k], from) || SpeechAfter(events[k], from)) ==>
            events[k].turnId == events[c].turnId)
      && (exists k: nat :: k < |events| && DeltaAfter(events[k], from))
      && (exists k: nat :: k < |events| && SpeechAfter(events[k], from))
  }

  /** `k` is the first interruption after the playback began. */
  ghost predicate FirstInterrupted(events: seq<RuntimeEvent>, active: int, k: nat) {
    && k < |events| && InterruptedAfter(events[k], active)
    && forall j: nat :: j < k ==> !InterruptedAfter(events[j], active)
  }

  /** `k` is the first repeat request after the interruption. */
  ghost predicate FirstRepeat(events: seq<RuntimeEvent>, from: int, k: nat) {
    && k < |events| && RepeatsAfter(events[k], from)
    && forall j: nat :: j < k ==> !RepeatsAfter(events[j], from)
  }

  /** The follow-up passes exactly when one turn follows, and the next gate is about its speech. */
  lemma FollowUpPassesIffOneTurn(events: seq<RuntimeEvent>, from: int)
    ensures DecideFollowUp(events, from).Pass? <==> OneTurnFollows(events, from)
    ensures DecideFollowUp(events, from).Pass? ==>
              var playback := DecideFollowUp(events, from).next.playback;
              exists k: nat :: k < |events| && SpeechAfter(events[k], from)
                               && playback.sequence == Some(events[k].sequence) && playback.turnId == events[k].turnId
  {
    hide ContextAfter, DeltaAfter;
    var isContext := (e: RuntimeEvent) => ContextAfter(e, from);
    var isDelta := (e: RuntimeEvent) => DeltaAfter(e, from);
    var isSpeech := (e: RuntimeEvent) => SpeechAfter(e, from);
    var context, speech := First(events, isContext), First(events, isSpeech);
    if context.Some? && !Several(events, isContext) {
      var c :| 0 <= c < |events| && context.value == events[c] && isContext(events[c]) && !Any(events[..c], isContext);
      forall k: nat | k < |events| && ContextAfter(events[k], from) ensures k == c {
        assert isContext(events[k]);
      }
      assert ContextAfter(events[c], from);
    }
  }

  /** A barge-in that passes aims the next gate at the speech of the turn that followed. */
  lemma BargeInAims(events: seq<RuntimeEvent>, playback: Playback) returns (k: nat)
    requires DecideBargeIn(events, playback).Pass?
    ensures var aimed := DecideBargeIn(events, playback).next.playback;
            && k < |events| && events[k].NonAck(SpeechStarted)
            && aimed.sequence == Some(events[k].sequence) && aimed.turnId == events[k].turnId
  {
    hide DecideFollowUp, InterruptedAfter, RepeatsAfter;
    var from := First(events, (e: RuntimeEvent) => InterruptedAfter(e, playback.sequence.value)).value.sequence;
    var heard := First(events, (e: RuntimeEvent) => RepeatsAfter(e, from)).value.sequence;
    FollowUpPassesIffOneTurn(events, heard);
    k :| k < |events| && SpeechAfter(events[k], heard)
         && DecideFollowUp(events, heard).next.playback.sequence == Some(events[k].sequence)
         && DecideFollowUp(events, heard).next.playback.turnId == events[k].turnId;
  }

  /** `barge_in` passes exactly when, after the first interruption of the playback, the first repeat
      request is followed by exactly one turn. */
  lemma BargeInPassesIffOneTurn(events: seq<RuntimeEvent>, playback: Playback)
    ensures DecideBargeIn(events, playback).Pass? <==>
              playback.sequence.Some?
              && exists i: nat, t: nat ::
                   && FirstInterrupted(events, playback.sequence.value, i)
                   && FirstRepeat(events, events[i].sequence, t)
                   && OneTurnFollows(events, events[t].sequence)
  {
    hide InterruptedAfter, RepeatsAfter, OneTurnFollows, DecideFollowUp;
    if playback.sequence.Some? {
      var active := playback.sequence.value;
      var interruption := First(events, (e: RuntimeEvent) => InterruptedAfter(e, active));
      if interruption.Some? {
        var i := InterruptedAt(events, active);
        var from := interruption.value.sequence;
        var transcript := First(events, (e: RuntimeEvent) => RepeatsAfter(e, from));
        if transcript.Some? {
          var t := RepeatAt(events, from);
          FollowUpPassesIffOneTurn(events, transcript.value.sequence);
        }
      }
    }
  }

  lemma InterruptedAt(events: seq<RuntimeEvent>, active: int) returns (k: nat)
    requires First(events, (e: RuntimeEvent) => InterruptedAfter(e, active)).Some?
    ensures FirstInterrupted(events, active, k)
    ensures events[k] == First(events, (e: RuntimeEvent) => InterruptedAfter(e, active)).value
    ensures forall j: nat :: FirstInterrupted(events, active, j) ==> j == k
  {
    hide InterruptedAfter;
    var p := (e: RuntimeEvent) => InterruptedAfter(e, active);
    k :| 0 <= k < |events| && First(events, p).value == events[k] && p(events[k]) && !Any(events[..k], p);
    assert forall j: nat :: j < k ==> events[..k][j] == events[j];
  }

  lemma RepeatAt(events: seq<RuntimeEvent>, from: int) returns (k: nat)
    requires First(events, (e: RuntimeEvent) => RepeatsAfter(e, from)).Some?
    ensures FirstRepeat(events, from, k)
    ensures events[k] == First(events, (e: RuntimeEvent) => RepeatsAfter(e, from)).value
    ensures forall j: nat :: FirstRepeat(events, from, j) ==> j == k
  {
    hide RepeatsAfter;
    var p := (e: RuntimeEvent) => RepeatsAfter(e, from);
    k :| 0 <= k < |events| && First(events, p).value == events[k] && p(events[k]) && !Any(events[..k], p);
    assert forall j: nat :: j < k ==> events[..k][j] == events[j];
  }
}
