/** What each gate's verdict means, on the fields of the events alone. */
module GateMeaning {
  import opened Prelude
  import opened GateEvidence

  // ---------- the words ----------

  predicate Heard(e: RuntimeEvent) {
    e.kind == Transcription && e.finalized
  }

  predicate Said(e: RuntimeEvent, phrase: Phrase) {
    e.kind == Transcription && e.finalized && phrase in e.matches
  }

  function Saying(phrase: Phrase): Test {
    (e: RuntimeEvent) => Said(e, phrase)
  }

  predicate SpeechBegins(e: RuntimeEvent) {
    e.kind == SpeechStarted && !e.acknowledgement
  }

  predicate SpeechEnds(e: RuntimeEvent) {
    e.kind == SpeechCompleted && !e.acknowledgement
  }

  predicate Answers(e: RuntimeEvent) {
    e.kind == AssistantCompleted && e.hasText && !e.cancelled
  }

  predicate FindsLesson(e: RuntimeEvent) {
    e.kind == LearningContext && e.continuesLesson
  }

  predicate Writes(e: RuntimeEvent) {
    e.kind == AssistantDelta && e.hasText
  }

  predicate HasTurnId(e: RuntimeEvent) {
    e.turnId.Some? && e.turnId.value != ""
  }

  predicate TakesEffect(e: RuntimeEvent) {
    e.kind == TurnCancelled || (e.kind == RuntimeStateChanged && e.explicitStop)
  }

  predicate RespondsOrSpeaks(e: RuntimeEvent) {
    e.kind in {AssistantStarted, AssistantDelta, AssistantCompleted, SpeechStarted, SpeechCompleted}
  }

  /** The playback is interrupted: of its own turn and session, as far as those are known. */
  predicate Breaks(e: RuntimeEvent, playback: Playback) {
    && e.kind == SpeechInterrupted
    && playback.sequence.Some? && playback.sequence.value < e.sequence
    && (playback.turnId.Some? ==> playback.turnId == e.turnId)
    && (playback.sessionId.Some? ==> playback.sessionId == e.sessionId)
  }

  /** The words of the verdicts mean just this. */
  lemma Vocabulary(e: RuntimeEvent, playback: Playback, from: int)
    ensures e.Finalized() <==> Heard(e)
    ensures forall phrase :: e.Finalized() && e.Matches(phrase) <==> Said(e, phrase)
    ensures e.Repeats() <==> Heard(e) && e.repeatIntent
    ensures e.NonAck(SpeechStarted) <==> SpeechBegins(e)
    ensures e.NonAck(SpeechCompleted) <==> SpeechEnds(e)
    ensures e.Speech() <==> e.kind == SpeechStarted || e.kind == SpeechCompleted
    ensures e.HasTurn() <==> HasTurnId(e)
    ensures e.Stops() <==> TakesEffect(e)
    ensures e.Response() <==> RespondsOrSpeaks(e)
    ensures IsAnswer(e) <==> Answers(e)
    ensures IsLessonContext(e) <==> FindsLesson(e)
    ensures Interrupts(e, playback) <==> Breaks(e, playback)
    ensures StopHeard(e) <==> Said(e, StopFriday)
    ensures ContextAfter(e, from) <==> FindsLesson(e) && HasTurnId(e) && e.sequence > from
    ensures DeltaAfter(e, from) <==> Writes(e) && HasTurnId(e) && e.sequence > from
    ensures SpeechAfter(e, from) <==> SpeechBegins(e) && HasTurnId(e) && e.sequence > from
    ensures InterruptedAfter(e, from) <==> e.kind == SpeechInterrupted && e.sequence > from
    ensures RepeatsAfter(e, from) <==> Heard(e) && e.repeatIntent && e.sequence > from
  {
  }

  /** A text without the white space around it. */
  function Stripped(s: string): string
    decreases |s|
  {
    if s == "" then s
    else if IsWhiteSpace(s[0]) then Stripped(s[1..])
    else if IsWhiteSpace(s[|s| - 1]) then Stripped(s[..|s| - 1])
    else s
  }

  /** A text is not blank exactly when stripping it leaves something. */
  lemma {:induction false} NonBlankMeansStripped(s: string)
    ensures NonBlank(Some(s)) <==> Stripped(s) != ""
    ensures !NonBlank(None)
    decreases |s|
  {
    hide IsWhiteSpace;
    if s != "" && IsWhiteSpace(s[0]) {
      NonBlankMeansStripped(s[1..]);
      assert forall k :: 0 < k < |s| ==> s[k] == s[1..][k - 1];
    } else if s != "" && IsWhiteSpace(s[|s| - 1]) {
      NonBlankMeansStripped(s[..|s| - 1]);
    }
  }

  /** The last event of its kind. */
  ghost predicate IsLast(events: seq<RuntimeEvent>, k: int, p: Test)
    ensures IsLast(events, k, p) ==> 0 <= k < |events| && p(events[k])
  {
    0 <= k < |events| && p(events[k]) && forall j :: k < j < |events| ==> !p(events[j])
  }

  lemma LastIs(events: seq<RuntimeEvent>, p: Test)
    ensures forall k :: IsLast(events, k, p) ==> Last(events, p) == Some(events[k])
    ensures Last(events, p).Some? ==> exists k :: IsLast(events, k, p) && Last(events, p).value == events[k]
  {
    hide Last;
    if Last(events, p).Some? {
      var last :| 0 <= last < |events| && Last(events, p).value == events[last] && p(events[last])
                  && forall j :: last < j < |events| ==> !p(events[j]);
      assert IsLast(events, last, p);
    }
  }

  // ---------- wake ----------

  /** Exactly one wake since the baseline, the last of them accepted, and its acknowledgement spoken to the end. */
  ghost predicate WokenOnce(events: seq<RuntimeEvent>, voice: VoiceHealth, baseline: int) {
    && (if voice.wakes.Some? then voice.wakes.value else 0) == baseline + 1 && voice.lastWakeAccepted
    && exists k :: 0 <= k < |events| && events[k].kind == SpeechCompleted && events[k].acknowledgement
  }

  lemma WakeMeans(events: seq<RuntimeEvent>, voice: VoiceHealth, baseline: int)
    ensures var v := DecideWake(events, voice, baseline);
            && (v == Pass(NextGate(None, NO_PLAYBACK)) <==> WokenOnce(events, voice, baseline))
            && (v == Fail(ExtraWake) <==> (if voice.wakes.Some? then voice.wakes.value else 0) >= baseline + 2)
            && (v == Wait || v == Fail(ExtraWake) || v == Pass(NextGate(None, NO_PLAYBACK)))
  {
  }

  // ---------- the lesson ----------

  /** The owner said something else. */
  ghost predicate SaidOtherwise(events: seq<RuntimeEvent>, phrase: Phrase) {
    exists k :: 0 <= k < |events| && Heard(events[k]) && phrase !in events[k].matches
  }

  ghost predicate SaidSo(events: seq<RuntimeEvent>, phrase: Phrase) {
    !SaidOtherwise(events, phrase) && exists k :: 0 <= k < |events| && Said(events[k], phrase)
  }

  ghost predicate Answered(events: seq<RuntimeEvent>) {
    exists k :: 0 <= k < |events| && Answers(events[k])
  }

  ghost predicate LessonFound(events: seq<RuntimeEvent>) {
    exists k :: 0 <= k < |events| && FindsLesson(events[k])
  }

  ghost predicate Written(events: seq<RuntimeEvent>) {
    exists k :: 0 <= k < |events| && Writes(events[k])
  }

  ghost predicate Spoken(events: seq<RuntimeEvent>) {
    exists k :: 0 <= k < |events| && SpeechBegins(events[k])
  }

  /** A completed answer of the last lesson's turn was cancelled. */
  ghost predicate LessonCancelled(events: seq<RuntimeEvent>) {
    exists c, k ::
      && IsLast(events, c, FindsLesson) && HasTurnId(events[c])
      && 0 <= k < |events| && events[k].kind == AssistantCompleted && events[k].cancelled
      && events[k].turnId == events[c].turnId
  }

  /** The lesson was asked for, found, written, answered and spoken, and not cancelled. */
  ghost predicate LessonGiven(events: seq<RuntimeEvent>) {
    && SaidSo(events, ContinueCourse) && LessonFound(events) && Written(events) && Answered(events) && Spoken(events)
    && !LessonCancelled(events)
  }

  /** The next gate is about the last speech, under the turn of the last answer, and counts from the last request. */
  ghost predicate AimsAtLesson(events: seq<RuntimeEvent>, next: NextGate) {
    exists t, a, s :: AimsFrom(events, t, a, s, next)
  }

  ghost predicate AimsFrom(events: seq<RuntimeEvent>, t: int, a: int, s: int, next: NextGate) {
    && IsLast(events, t, Saying(ContinueCourse)) && IsLast(events, a, Answers) && IsLast(events, s, SpeechBegins)
    && NonBlank(events[a].turnId)
    && next == NextGate(Some(events[t].sequence),
                        Playback(Some(PlaybackId(events[a].turnId.value, events[s].sequence)), events[a].turnId,
                                 events[s].sessionId, Some(events[s].sequence), events[s].timestamp))
  }

  /** Every verdict on the lesson. */
  ghost predicate JudgesLesson(events: seq<RuntimeEvent>, approved: bool, v: Verdict) {
    && (v == Fail(WrongTranscript) <==> SaidOtherwise(events, ContinueCourse))
    && (v == Fail(RouteEvidenceMissing) <==>
          SaidSo(events, ContinueCourse) && Answered(events) && (!LessonFound(events) || !Written(events)))
    && (v == Fail(ResponseCancelled) <==>
          && SaidSo(events, ContinueCourse) && !(Answered(events) && (!LessonFound(events) || !Written(events)))
          && LessonCancelled(events))
    && (v == Fail(OutputNotApproved) <==> LessonGiven(events) && !approved)
    && (v.Pass? || v == PassWithoutTurn <==> LessonGiven(events) && approved)
    && (v.Pass? ==> AimsAtLesson(events, v.next))
    && (v.Wait? || v.Fail? || v.Pass? || v == PassWithoutTurn)
    && (v.Fail? ==> v.failure in {WrongTranscript, RouteEvidenceMissing, ResponseCancelled, OutputNotApproved})
  }

  /** The last event that passes one test is the last that passes another one meaning the same. */
  lemma LastMeans(events: seq<RuntimeEvent>, p: Test, q: Test)
    requires forall e :: p(e) <==> q(e)
    ensures Last(events, p).None? <==> !exists k :: 0 <= k < |events| && q(events[k])
    ensures Last(events, p).Some? ==> exists k :: IsLast(events, k, q) && Last(events, p).value == events[k]
  {
    hide Last;
    LastIs(events, p);
  }

  lemma LastSaid(events: seq<RuntimeEvent>, phrase: Phrase)
    ensures var t := Last(events, (e: RuntimeEvent) => e.Finalized() && e.Matches(phrase));
            && (t.None? <==> !exists k :: 0 <= k < |events| && Said(events[k], phrase))
            && (t.Some? ==> exists k :: IsLast(events, k, Saying(phrase)) && t.value == events[k])
  {
    LastMeans(events, (e: RuntimeEvent) => e.Finalized() && e.Matches(phrase), Saying(phrase));
  }

  lemma LastLesson(events: seq<RuntimeEvent>)
    ensures var c := Last(events, (e: RuntimeEvent) => IsLessonContext(e));
            && (c.None? <==> !LessonFound(events))
            && (c.Some? ==> exists k :: IsLast(events, k, FindsLesson) && c.value == events[k])
  {
    LastMeans(events, (e: RuntimeEvent) => IsLessonContext(e), FindsLesson);
  }

  lemma LastAnswer(events: seq<RuntimeEvent>)
    ensures var a := Last(events, (e: RuntimeEvent) => IsAnswer(e));
            && (a.None? <==> !Answered(events))
            && (a.Some? ==> exists k :: IsLast(events, k, Answers) && a.value == events[k])
  {
    LastMeans(events, (e: RuntimeEvent) => IsAnswer(e), Answers);
  }

  lemma LastSpeech(events: seq<RuntimeEvent>)
    ensures var s := Last(events, (e: RuntimeEvent) => e.NonAck(SpeechStarted));
            && (s.None? <==> !Spoken(events))
            && (s.Some? ==> exists k :: IsLast(events, k, SpeechBegins) && s.value == events[k])
  {
    LastMeans(events, (e: RuntimeEvent) => e.NonAck(SpeechStarted), SpeechBegins);
  }

  lemma OtherwiseMeans(events: seq<RuntimeEvent>, phrase: Phrase)
    ensures Any(events, (e: RuntimeEvent) => e.Finalized() && !e.Matches(phrase)) <==> SaidOtherwise(events, phrase)
  {
  }

  lemma WrittenMeans(events: seq<RuntimeEvent>)
    ensures Any(events, (e: RuntimeEvent) => e.kind == AssistantDelta && e.hasText) <==> Written(events)
  {
  }

  /** The last lesson is one lesson, so its cancellation can be told from it. */
  lemma CancelledMeans(events: seq<RuntimeEvent>, context: RuntimeEvent)
    requires exists c :: IsLast(events, c, FindsLesson) && context == events[c]
    ensures context.HasTurn() && Any(events, (e: RuntimeEvent) => e.kind == AssistantCompleted && e.cancelled
                                                                   && e.turnId == context.turnId)
       <==> LessonCancelled(events)
  {
    var c :| IsLast(events, c, FindsLesson) && context == events[c];
    assert forall d :: IsLast(events, d, FindsLesson) ==> d == c;
  }

  lemma CancelledNeedsLesson(events: seq<RuntimeEvent>)
    requires !LessonFound(events)
    ensures !LessonCancelled(events)
  {
  }

  /** What the lesson is judged by, in the terms of its verdicts. */
  lemma LessonFacts(events: seq<RuntimeEvent>)
    ensures var context := Last(events, (e: RuntimeEvent) => IsLessonContext(e));
            && (context.None? <==> !LessonFound(events))
            && (context.Some? && context.value.HasTurn()
                && Any(events, (e: RuntimeEvent) => e.kind == AssistantCompleted && e.cancelled
                      && e.turnId == context.value.turnId)
                <==> LessonCancelled(events))
  {
    hide Last, IsLast, IsLessonContext, LessonFound, FindsLesson, LessonCancelled;
    LastLesson(events);
    var context := Last(events, (e: RuntimeEvent) => IsLessonContext(e));
    if context.Some? {
      CancelledMeans(events, context.value);
    } else {
      CancelledNeedsLesson(events);
    }
  }

  lemma LessonMeans(events: seq<RuntimeEvent>, approved: bool)
    ensures JudgesLesson(events, approved, DecideContinuation(events, approved))
  {
    hide Last, Any, NonBlank, IsLast, IsAnswer, IsLessonContext, SaidOtherwise, Answered, LessonFound, Written, Spoken,
      LessonCancelled, Said, Answers, SpeechBegins, FindsLesson, AimsAtLesson;
    LastSaid(events, ContinueCourse);
    LessonFacts(events);
    LastAnswer(events);
    LastSpeech(events);
    OtherwiseMeans(events, ContinueCourse);
    WrittenMeans(events);
    LessonPassAims(events, approved);
  }

  lemma LessonPassAims(events: seq<RuntimeEvent>, approved: bool)
    ensures DecideContinuation(events, approved).Pass? ==> AimsAtLesson(events, DecideContinuation(events, approved).next)
  {
    hide Last, Any, NonBlank, IsLast, IsAnswer, IsLessonContext, Said, Answers, SpeechBegins, FindsLesson;
    var v := DecideContinuation(events, approved);
    if v.Pass? {
      LastSaid(events, ContinueCourse);
      LastAnswer(events);
      LastSpeech(events);
      var transcript := Last(events, (e: RuntimeEvent) => e.Finalized() && e.Matches(ContinueCourse)).value;
      var answer := Last(events, (e: RuntimeEvent) => IsAnswer(e)).value;
      var speech := Last(events, (e: RuntimeEvent) => e.NonAck(SpeechStarted)).value;
      var t :| IsLast(events, t, Saying(ContinueCourse)) && transcript == events[t];
      var a :| IsLast(events, a, Answers) && answer == events[a];
      var s :| IsLast(events, s, SpeechBegins) && speech == events[s];
      NonBlankIsSome(events[a].turnId);
      assert AimsFrom(events, t, a, s, v.next);
    }
  }

  lemma NonBlankIsSome(turn: Option<string>)
    ensures NonBlank(turn) ==> turn.Some?
  {
  }

  /** The answer that counts has no turn of its own. */
  ghost predicate AnswerWithoutTurn(events: seq<RuntimeEvent>) {
    exists a :: IsLast(events, a, Answers) && !NonBlank(events[a].turnId)
  }

  lemma WithoutTurnMeans(events: seq<RuntimeEvent>, approved: bool)
    ensures DecideContinuation(events, approved) == PassWithoutTurn
       <==> LessonGiven(events) && approved && AnswerWithoutTurn(events)
  {
    hide Last, Any, NonBlank, IsLast, IsAnswer, IsLessonContext, LessonGiven, Answers;
    LessonMeans(events, approved);
    hide JudgesLesson;
    LastAnswer(events);
    OneLastAnswer(events);
    JudgedLesson(events, approved);
  }

  lemma OneLastAnswer(events: seq<RuntimeEvent>)
    ensures forall a, b :: IsLast(events, a, Answers) && IsLast(events, b, Answers) ==> a == b
  {
  }

  lemma JudgedLesson(events: seq<RuntimeEvent>, approved: bool)
    requires JudgesLesson(events, approved, DecideContinuation(events, approved))
    ensures var v := DecideContinuation(events, approved);
            (v.Pass? || v == PassWithoutTurn <==> LessonGiven(events) && approved)
  {
    hide LessonGiven;
  }

  // ---------- the playback of the lesson, read-only progress, the assessment, the quiet ----------

  /** The playback has been spoken to its end. */
  ghost predicate PlaybackOver(events: seq<RuntimeEvent>, playback: Playback) {
    && playback.sequence.Some?
    && exists k :: 0 <= k < |events| && SpeechEnds(events[k]) && events[k].sequence > playback.sequence.value
  }

  lemma OutputMeans(events: seq<RuntimeEvent>, playback: Playback)
    ensures DecideLearningOutput(events, playback)
         == if PlaybackOver(events, playback) then Fail(NotConfirmedDuringPlayback) else Wait
  {
  }

  predicate ReadsOnly(e: RuntimeEvent) {
    e.kind == LearningState && e.progress == ProgressRead(true)
  }

  /** Asked in the right words only, read without writing, answered, and spoken to the end. */
  ghost predicate ProgressTold(events: seq<RuntimeEvent>) {
    && SaidSo(events, ProgressQuestion)
    && (exists k :: 0 <= k < |events| && ReadsOnly(events[k]))
    && (exists k :: 0 <= k < |events| && events[k].kind == AssistantCompleted && events[k].hasText)
    && (exists k :: 0 <= k < |events| && SpeechEnds(events[k]))
  }

  /** The last reading does not precede the last question. */
  ghost predicate ReadAfterAsked(events: seq<RuntimeEvent>) {
    exists t, r ::
      && IsLast(events, t, Saying(ProgressQuestion)) && IsLast(events, r, ReadsOnly)
      && events[t].sequence <= events[r].sequence
  }

  lemma LastRead(events: seq<RuntimeEvent>)
    ensures var r := Last(events, (e: RuntimeEvent) => e.kind == LearningState && e.progress == ProgressRead(true));
            && (r.None? <==> !exists k :: 0 <= k < |events| && ReadsOnly(events[k]))
            && (r.Some? ==> exists k :: IsLast(events, k, ReadsOnly) && r.value == events[k])
  {
    LastMeans(events, (e: RuntimeEvent) => e.kind == LearningState && e.progress == ProgressRead(true), ReadsOnly);
  }

  lemma ProgressMeans(events: seq<RuntimeEvent>)
    ensures DecideProgress(events)
         == if SaidOtherwise(events, ProgressQuestion) then Fail(WrongTranscript)
            else if !ProgressTold(events) then Wait
            else if !ReadAfterAsked(events) then Fail(ReadBeforeTranscript)
            else Pass(NextGate(None, NO_PLAYBACK))
  {
    hide Last, Said, ReadsOnly, IsLast, ReadAfterAsked, SaidOtherwise;
    LastSaid(events, ProgressQuestion);
    OtherwiseMeans(events, ProgressQuestion);
    LastRead(events);
    OrderMeans(events);
  }

  /** There is one last question and one last reading. */
  lemma OrderMeans(events: seq<RuntimeEvent>)
    ensures forall t, r :: IsLast(events, t, Saying(ProgressQuestion)) && IsLast(events, r, ReadsOnly) ==>
              (ReadAfterAsked(events) <==> events[t].sequence <= events[r].sequence)
  {
    hide Said, ReadsOnly;
  }

  /** The last answer, the last question about submitting it after that, and that question completed and spoken. */
  ghost predicate AsksToSubmit(events: seq<RuntimeEvent>) {
    exists a, p ::
      && IsLast(events, a, SaysSomething) && IsLast(events, p, PendingSince(events[a].sequence))
      && (exists k :: 0 <= k < |events| && events[k].sequence > events[p].sequence
                      && events[k].kind == AssistantCompleted && events[k].mentionsSubmit)
      && (exists k :: 0 <= k < |events| && events[k].sequence > events[p].sequence && SpeechEnds(events[k]))
  }

  predicate SaysSomething(e: RuntimeEvent) {
    Heard(e) && e.hasText
  }

  function PendingSince(from: int): Test {
    (e: RuntimeEvent) => e.kind == LearningState && e.progress == PendingConfirmation && e.sequence > from
  }

  lemma AnswerMeans(events: seq<RuntimeEvent>)
    ensures DecideAnswer(events) == if AsksToSubmit(events) then AskConfirmation else Wait
  {
    hide Last, SaysSomething;
    LastSomething(events);
    var answer := Last(events, (e: RuntimeEvent) => e.Finalized() && e.hasText);
    if answer.Some? {
      LastPending(events, answer.value.sequence);
    }
  }

  lemma LastSomething(events: seq<RuntimeEvent>)
    ensures var a := Last(events, (e: RuntimeEvent) => e.Finalized() && e.hasText);
            && (a.None? ==> forall k :: !IsLast(events, k, SaysSomething))
            && (a.Some? ==> exists k :: IsLast(events, k, SaysSomething) && a.value == events[k])
            && forall j, k :: IsLast(events, j, SaysSomething) && IsLast(events, k, SaysSomething) ==> j == k
  {
    LastMeans(events, (e: RuntimeEvent) => e.Finalized() && e.hasText, SaysSomething);
  }

  lemma LastPending(events: seq<RuntimeEvent>, from: int)
    ensures var p := Last(events, (e: RuntimeEvent) =>
              e.kind == LearningState && e.progress == PendingConfirmation && e.sequence > from);
            && (p.None? ==> forall k :: !IsLast(events, k, PendingSince(from)))
            && (p.Some? ==> exists k :: IsLast(events, k, PendingSince(from)) && p.value == events[k])
            && forall j, k :: IsLast(events, j, PendingSince(from)) && IsLast(events, k, PendingSince(from)) ==> j == k
  {
    LastMeans(events, (e: RuntimeEvent) => e.kind == LearningState && e.progress == PendingConfirmation && e.sequence > from,
              PendingSince(from));
  }

  /** The last Yes is followed by a submission with an attempt. */
  ghost predicate Submitted(events: seq<RuntimeEvent>) {
    exists y, k ::
      && IsLast(events, y, Saying(Yes))
      && 0 <= k < |events| && events[k].sequence > events[y].sequence
      && events[k].kind == LearningState && events[k].progress == SubmittedPendingReview(true)
  }

  /** The learner's database gained exactly one row, and changed. */
  predicate GainedAttempt(before: Option<Database>, after: Option<Database>) {
    && before.Some? && after.Some? && 0 <= before.value.rows
    && after.value.rows - before.value.rows == 1 && after.value.sha256 != before.value.sha256
  }

  lemma ConfirmationMeans(events: seq<RuntimeEvent>, before: Option<Database>, after: Option<Database>)
    ensures DecideConfirmation(events, before, after)
         == if !Submitted(events) then Wait
            else if GainedAttempt(before, after) then Pass(NextGate(None, NO_PLAYBACK)) else Fail(AttemptNotRecorded)
  {
    hide Last, Said;
    LastSaid(events, Yes);
    OneLastSaid(events, Yes);
  }

  lemma OneLastSaid(events: seq<RuntimeEvent>, phrase: Phrase)
    ensures forall j, k :: IsLast(events, j, Saying(phrase)) && IsLast(events, k, Saying(phrase)) ==> j == k
  {
  }

  ghost predicate SpeechSinceStop(events: seq<RuntimeEvent>, stop: int) {
    exists k :: 0 <= k < |events| && events[k].sequence > stop
                && (events[k].kind == SpeechStarted || events[k].kind == SpeechCompleted)
  }

  lemma QuietMeans(events: seq<RuntimeEvent>, stop: int, ready: bool, deadline: real, now: real)
    ensures DecideQuiet(events, stop, ready, deadline, now)
         == if SpeechSinceStop(events, stop) then Fail(SpeechAfterStop)
            else if !ready && deadline <= now then QuietConfirmed else Wait
  {
  }

  // ---------- the barge-in and the spoken stop ----------

  /** The first event of its kind. */
  ghost predicate IsFirst(events: seq<RuntimeEvent>, k: int, p: Test)
    ensures IsFirst(events, k, p) ==> 0 <= k < |events| && p(events[k])
  {
    0 <= k < |events| && p(events[k]) && forall j :: 0 <= j < k ==> !p(events[j])
  }

  ghost predicate Occurs(events: seq<RuntimeEvent>, p: Test) {
    exists k :: 0 <= k < |events| && p(events[k])
  }

  lemma FirstMeans(events: seq<RuntimeEvent>, p: Test, q: Test)
    requires forall e :: p(e) <==> q(e)
    ensures First(events, p).None? <==> !Occurs(events, q)
    ensures First(events, p).Some? ==> exists k :: IsFirst(events, k, q) && First(events, p).value == events[k]
    ensures forall j, k :: IsFirst(events, j, q) && IsFirst(events, k, q) ==> j == k
  {
    hide First;
    if First(events, p).Some? {
      var k :| 0 <= k < |events| && First(events, p).value == events[k] && p(events[k]) && !Any(events[..k], p);
      assert forall j :: 0 <= j < k ==> events[..k][j] == events[j];
      assert IsFirst(events, k, q);
    }
  }

  function BreakAfter(active: int): Test {
    (e: RuntimeEvent) => e.kind == SpeechInterrupted && e.sequence > active
  }

  function RepeatAfter(from: int): Test {
    (e: RuntimeEvent) => Heard(e) && e.repeatIntent && e.sequence > from
  }

  function HeardAfter(from: int): Test {
    (e: RuntimeEvent) => Heard(e) && e.sequence > from
  }

  function CompletedAfter(active: int): Test {
    (e: RuntimeEvent) => e.kind == SpeechCompleted && e.sequence > active
  }

  function LessonAfter(from: int): Test {
    (e: RuntimeEvent) => FindsLesson(e) && HasTurnId(e) && e.sequence > from
  }

  function WritingAfter(from: int): Test {
    (e: RuntimeEvent) => Writes(e) && HasTurnId(e) && e.sequence > from
  }

  function SpeakingAfter(from: int): Test {
    (e: RuntimeEvent) => SpeechBegins(e) && HasTurnId(e) && e.sequence > from
  }

  /** The next gate is about this speech and counts from it. */
  predicate AimsAt(e: RuntimeEvent, next: NextGate) {
    && e.turnId.Some?
    && next == NextGate(Some(e.sequence),
                        Playback(Some(PlaybackId(e.turnId.value, e.sequence)), e.turnId, e.sessionId, Some(e.sequence),
                                 e.timestamp))
  }

  /** Something of another turn than the lesson's was written or spoken. */
  ghost predicate OtherTurn(events: seq<RuntimeEvent>, from: int, turn: Option<string>) {
    exists k :: 0 <= k < |events| && (WritingAfter(from)(events[k]) || SpeakingAfter(from)(events[k]))
                && events[k].turnId != turn
  }

  /** Every verdict on what follows the request to repeat. */
  ghost predicate JudgesFollowUp(events: seq<RuntimeEvent>, from: int, v: Verdict) {
    if exists j, k :: 0 <= j < k < |events| && LessonAfter(from)(events[j]) && LessonAfter(from)(events[k]) then
      v == Fail(DuplicateTurns)
    else if !Occurs(events, LessonAfter(from)) then
      v == if Occurs(events, WritingAfter(from)) || Occurs(events, SpeakingAfter(from)) then Fail(RouteEvidenceMissing)
           else Wait
    else exists c ::
      && IsFirst(events, c, LessonAfter(from))
      && if OtherTurn(events, from, events[c].turnId) then v == Fail(DuplicateTurns)
         else if !Occurs(events, WritingAfter(from)) || !Occurs(events, SpeakingAfter(from)) then v == Wait
         else exists s :: IsFirst(events, s, SpeakingAfter(from)) && v.Pass? && AimsAt(events[s], v.next)
  }

  lemma FollowUpMeans(events: seq<RuntimeEvent>, from: int)
    ensures JudgesFollowUp(events, from, DecideFollowUp(events, from))
  {
    hide First, ContextAfter, DeltaAfter, SpeechAfter, IsFirst, Occurs;
    FirstLesson(events, from);
    FirstSpeaking(events, from);
    SomeWriting(events, from);
    var context := First(events, (e: RuntimeEvent) => ContextAfter(e, from));
    var speech := First(events, (e: RuntimeEvent) => SpeechAfter(e, from));
    SeveralMeans(events, from);
    if context.Some? {
      OtherTurnMeans(events, from, context.value);
    }
  }

  lemma FirstLesson(events: seq<RuntimeEvent>, from: int)
    ensures var c := First(events, (e: RuntimeEvent) => ContextAfter(e, from));
            && (c.None? <==> !Occurs(events, LessonAfter(from)))
            && (c.Some? ==> exists k :: IsFirst(events, k, LessonAfter(from)) && c.value == events[k])
  {
    FirstMeans(events, (e: RuntimeEvent) => ContextAfter(e, from), LessonAfter(from));
  }

  lemma FirstSpeaking(events: seq<RuntimeEvent>, from: int)
    ensures var c := First(events, (e: RuntimeEvent) => SpeechAfter(e, from));
            && (c.None? <==> !Occurs(events, SpeakingAfter(from)))
            && (c.Some? ==> exists k :: IsFirst(events, k, SpeakingAfter(from)) && c.value == events[k])
            && (c.Some? ==> c.value.turnId.Some?)
  {
    FirstMeans(events, (e: RuntimeEvent) => SpeechAfter(e, from), SpeakingAfter(from));
  }

  lemma SomeWriting(events: seq<RuntimeEvent>, from: int)
    ensures Any(events, (e: RuntimeEvent) => DeltaAfter(e, from)) <==> Occurs(events, WritingAfter(from))
  {
  }

  lemma SeveralMeans(events: seq<RuntimeEvent>, from: int)
    ensures Several(events, (e: RuntimeEvent) => ContextAfter(e, from)) <==>
              exists j, k :: 0 <= j < k < |events| && LessonAfter(from)(events[j]) && LessonAfter(from)(events[k])
  {
  }

  lemma OtherTurnMeans(events: seq<RuntimeEvent>, from: int, context: RuntimeEvent)
    ensures OtherTurn(events, from, context.turnId) <==>
              exists k :: 0 <= k < |events| && (DeltaAfter(events[k], from) || SpeechAfter(events[k], from))
                          && events[k].turnId != context.turnId
  {
    forall e: RuntimeEvent
      ensures WritingAfter(from)(e) <==> DeltaAfter(e, from)
      ensures SpeakingAfter(from)(e) <==> SpeechAfter(e, from)
    {
    }
  }

  /** Every verdict on the barge-in. */
  ghost predicate JudgesBargeIn(events: seq<RuntimeEvent>, playback: Playback, v: Verdict) {
    if playback.sequence.None? then v == Wait
    else
      var active := playback.sequence.value;
      if !Occurs(events, BreakAfter(active)) then
        v == if Occurs(events, CompletedAfter(active)) then Fail(PlaybackFinishedFirst) else Wait
      else exists i ::
        && IsFirst(events, i, BreakAfter(active))
        && var from := events[i].sequence;
           if !Occurs(events, RepeatAfter(from)) then
             v == if Occurs(events, HeardAfter(from)) then Fail(NotRoutedToRepeat) else Wait
           else exists t :: IsFirst(events, t, RepeatAfter(from)) && JudgesFollowUp(events, events[t].sequence, v)
  }

  lemma BargeInMeans(events: seq<RuntimeEvent>, playback: Playback)
    ensures JudgesBargeIn(events, playback, DecideBargeIn(events, playback))
  {
    hide First, InterruptedAfter, RepeatsAfter, IsFirst, JudgesFollowUp, DecideFollowUp;
    if playback.sequence.Some? {
      var active := playback.sequence.value;
      FirstBreak(events, active);
      CompletedMeans(events, active);
      var interruption := First(events, (e: RuntimeEvent) => InterruptedAfter(e, active));
      if interruption.Some? {
        var from := interruption.value.sequence;
        FirstRepeating(events, from);
        HeardMeans(events, from);
        var transcript := First(events, (e: RuntimeEvent) => RepeatsAfter(e, from));
        if transcript.Some? {
          FollowUpMeans(events, transcript.value.sequence);
        }
      }
    }
  }

  lemma FirstBreak(events: seq<RuntimeEvent>, active: int)
    ensures var i := First(events, (e: RuntimeEvent) => InterruptedAfter(e, active));
            && (i.None? <==> !Occurs(events, BreakAfter(active)))
            && (i.Some? ==> exists k :: IsFirst(events, k, BreakAfter(active)) && i.value == events[k])
  {
    FirstMeans(events, (e: RuntimeEvent) => InterruptedAfter(e, active), BreakAfter(active));
  }

  lemma FirstRepeating(events: seq<RuntimeEvent>, from: int)
    ensures var t := First(events, (e: RuntimeEvent) => RepeatsAfter(e, from));
            && (t.None? <==> !Occurs(events, RepeatAfter(from)))
            && (t.Some? ==> exists k :: IsFirst(events, k, RepeatAfter(from)) && t.value == events[k])
  {
    FirstMeans(events, (e: RuntimeEvent) => RepeatsAfter(e, from), RepeatAfter(from));
  }

  lemma CompletedMeans(events: seq<RuntimeEvent>, active: int)
    ensures Any(events, (e: RuntimeEvent) => e.kind == SpeechCompleted && e.sequence > active)
       <==> Occurs(events, CompletedAfter(active))
  {
  }

  lemma HeardMeans(events: seq<RuntimeEvent>, from: int)
    ensures Any(events, (e: RuntimeEvent) => e.Finalized() && e.sequence > from) <==> Occurs(events, HeardAfter(from))
  {
  }

  function Breaking(playback: Playback): Test {
    (e: RuntimeEvent) => Breaks(e, playback)
  }

  function StopSaidAfter(from: int): Test {
    (e: RuntimeEvent) => Said(e, StopFriday) && e.sequence > from
  }

  function GaveUpAfter(from: int): Test {
    (e: RuntimeEvent) => e.kind == ListeningStopped && e.idleTimeout && e.sequence > from
  }

  function RespondingAfter(from: int): Test {
    (e: RuntimeEvent) => RespondsOrSpeaks(e) && e.sequence > from
  }

  function TakingEffectAfter(from: int): Test {
    (e: RuntimeEvent) => TakesEffect(e) && e.sequence > from
  }

  /** The smallest number among the events of a kind. */
  ghost predicate IsLeast(events: seq<RuntimeEvent>, n: int, p: Test) {
    && (exists k :: 0 <= k < |events| && p(events[k]) && events[k].sequence == n)
    && (forall k :: 0 <= k < |events| && p(events[k]) ==> n <= events[k].sequence)
  }

  /** Every verdict after the playback was interrupted at `from`. */
  ghost predicate JudgesAfterBreak(events: seq<RuntimeEvent>, from: int, v: Verdict) {
    if !Occurs(events, StopSaidAfter(from)) then
      v == if Occurs(events, HeardAfter(from)) then Fail(WrongTranscript)
           else if Occurs(events, GaveUpAfter(from)) then Fail(StopTranscriptMissing)
           else if Occurs(events, RespondingAfter(from)) then Fail(ResponseBeforeStop)
           else if Occurs(events, TakesEffect) then Fail(StopDidNotCancel)
           else Wait
    else exists t ::
      && IsFirst(events, t, StopSaidAfter(from))
      && if !Occurs(events, TakingEffectAfter(events[t].sequence)) then
           v == if Occurs(events, RespondingAfter(from)) then Fail(ResponseBeforeStop) else Wait
         else exists stop ::
           && IsLeast(events, stop, TakingEffectAfter(events[t].sequence))
           && v == if exists k :: 0 <= k < |events| && from < events[k].sequence < stop && RespondsOrSpeaks(events[k])
                   then Fail(ResponseBeforeStop) else PassStopped(stop)
  }

  /** Every verdict on the spoken stop. */
  ghost predicate JudgesStop(events: seq<RuntimeEvent>, playback: Playback, v: Verdict) {
    if playback.sequence.None? then v == Wait
    else if !Occurs(events, Breaking(playback)) then
      v == if Occurs(events, CompletedAfter(playback.sequence.value)) then Fail(PlaybackFinishedFirst)
           else if Occurs(events, Saying(StopFriday)) then Fail(StopDidNotInterrupt)
           else Wait
    else exists i :: IsFirst(events, i, Breaking(playback)) && JudgesAfterBreak(events, events[i].sequence, v)
  }

  lemma StopMeans(events: seq<RuntimeEvent>, playback: Playback)
    ensures JudgesStop(events, playback, DecideSpokenStop(events, playback))
  {
    hide First, IsFirst, Interrupts, StopHeard, JudgesAfterBreak, DecideAfterInterruption;
    if playback.sequence.Some? {
      FirstMeans(events, (e: RuntimeEvent) => Interrupts(e, playback), Breaking(playback)) by { BreaksMeans(playback); }
      CompletedMeans(events, playback.sequence.value);
      StopSaidMeans(events);
      var interruption := First(events, (e: RuntimeEvent) => Interrupts(e, playback));
      if interruption.Some? {
        AfterBreakMeans(events, interruption.value.sequence);
      }
    }
  }

  lemma BreaksMeans(playback: Playback)
    ensures forall e :: Interrupts(e, playback) <==> Breaking(playback)(e)
  {
  }

  lemma StopSaidMeans(events: seq<RuntimeEvent>)
    ensures Any(events, (e: RuntimeEvent) => StopHeard(e)) <==> Occurs(events, Saying(StopFriday))
  {
  }

  lemma AfterBreakMeans(events: seq<RuntimeEvent>, from: int)
    ensures JudgesAfterBreak(events, from, DecideAfterInterruption(events, from))
  {
    hide First, IsFirst, MinSequence, IsLeast, Occurs, StopHeard;
    FirstStopSaid(events, from);
    HeardMeans(events, from);
    AfterBreakFacts(events, from);
    var heard := First(events, (e: RuntimeEvent) => StopHeard(e) && e.sequence > from);
    if heard.Some? {
      LeastMeans(events, heard.value.sequence);
      BetweenMeans(events);
    }
  }

  lemma FirstStopSaid(events: seq<RuntimeEvent>, from: int)
    ensures var t := First(events, (e: RuntimeEvent) => StopHeard(e) && e.sequence > from);
            && (t.None? <==> !Occurs(events, StopSaidAfter(from)))
            && (t.Some? ==> exists k :: IsFirst(events, k, StopSaidAfter(from)) && t.value == events[k])
  {
    FirstMeans(events, (e: RuntimeEvent) => StopHeard(e) && e.sequence > from, StopSaidAfter(from));
  }

  lemma AfterBreakFacts(events: seq<RuntimeEvent>, from: int)
    ensures Any(events, (e: RuntimeEvent) => e.kind == ListeningStopped && e.idleTimeout && e.sequence > from)
       <==> Occurs(events, GaveUpAfter(from))
    ensures Any(events, (e: RuntimeEvent) => e.Response() && e.sequence > from) <==> Occurs(events, RespondingAfter(from))
    ensures Any(events, (e: RuntimeEvent) => e.Stops()) <==> Occurs(events, TakesEffect)
  {
  }

  lemma BetweenMeans(events: seq<RuntimeEvent>)
    ensures forall e: RuntimeEvent :: e.Response() <==> RespondsOrSpeaks(e)
  {
  }

  lemma LeastMeans(events: seq<RuntimeEvent>, from: int)
    ensures var stop := MinSequence(events, (e: RuntimeEvent) => e.Stops() && e.sequence > from);
            && (stop.None? <==> !Occurs(events, TakingEffectAfter(from)))
            && (stop.Some? ==> IsLeast(events, stop.value, TakingEffectAfter(from)))
  {
    MinIsLeast(events, (e: RuntimeEvent) => e.Stops() && e.sequence > from);
  }

  // ---------- what a pass proves ----------

  /** The playback was interrupted, the request to repeat was heard after that, and then one lesson was found and
      written and spoken under its turn and no other. */
  ghost predicate RepeatedOnce(events: seq<RuntimeEvent>, playback: Playback) {
    && playback.sequence.Some?
    && exists i, t, c ::
       && IsFirst(events, i, BreakAfter(playback.sequence.value)) && IsFirst(events, t, RepeatAfter(events[i].sequence))
       && OnlyLesson(events, events[t].sequence, c) && !OtherTurn(events, events[t].sequence, events[c].turnId)
       && Occurs(events, WritingAfter(events[t].sequence)) && Occurs(events, SpeakingAfter(events[t].sequence))
  }

  ghost predicate OnlyLesson(events: seq<RuntimeEvent>, from: int, c: int)
    ensures OnlyLesson(events, from, c) ==> 0 <= c < |events|
  {
    IsFirst(events, c, LessonAfter(from)) && forall k :: c < k < |events| ==> !LessonAfter(from)(events[k])
  }

  lemma PassedFollowUpIsOneTurn(events: seq<RuntimeEvent>, from: int, v: Verdict)
    requires JudgesFollowUp(events, from, v) && v.Pass?
    ensures exists c :: OnlyLesson(events, from, c) && !OtherTurn(events, from, events[c].turnId)
    ensures Occurs(events, WritingAfter(from)) && Occurs(events, SpeakingAfter(from))
  {
    hide IsFirst, Occurs, OtherTurn, WritingAfter, SpeakingAfter;
    var c :| IsFirst(events, c, LessonAfter(from)) && !OtherTurn(events, from, events[c].turnId)
             && Occurs(events, WritingAfter(from)) && Occurs(events, SpeakingAfter(from));
    assert OnlyLesson(events, from, c);
  }

  lemma PassedBargeInIsRepeated(events: seq<RuntimeEvent>, playback: Playback)
    ensures DecideBargeIn(events, playback).Pass? ==> RepeatedOnce(events, playback)
  {
    hide DecideBargeIn, IsFirst, Occurs, OtherTurn, JudgesFollowUp, OnlyLesson, BreakAfter, RepeatAfter, WritingAfter,
      SpeakingAfter;
    BargeInMeans(events, playback);
    var v := DecideBargeIn(events, playback);
    if v.Pass? {
      var i :| IsFirst(events, i, BreakAfter(playback.sequence.value)) && Occurs(events, RepeatAfter(events[i].sequence))
               && exists t :: IsFirst(events, t, RepeatAfter(events[i].sequence))
                              && JudgesFollowUp(events, events[t].sequence, v);
      var t :| IsFirst(events, t, RepeatAfter(events[i].sequence)) && JudgesFollowUp(events, events[t].sequence, v);
      PassedFollowUpIsOneTurn(events, events[t].sequence, v);
    }
  }

  /** What a pass of the k-th gate rests on, besides the chain of the stop and the quiet after it. */
  ghost predicate Proves(k: int, e: Evidence) {
    && (k == 0 || k == 6 ==> WokenOnce(e.since, e.health, e.wakesBefore))
    && (k == 1 ==> LessonGiven(e.since) && e.approved)
    && (k == 2 ==> !PlaybackOver(e.since, e.playback))
    && (k == 3 ==> RepeatedOnce(e.since, e.playback))
    && (k == 7 ==> ProgressTold(e.since) && ReadAfterAsked(e.since))
    && (k == 8 ==> Submitted(e.since) && GainedAttempt(e.before, e.after))
  }

  /** The verdicts of the lesson that pass it. */
  lemma PassedLessonIsGiven(events: seq<RuntimeEvent>, approved: bool)
    ensures DecideContinuation(events, approved).Pass? || DecideContinuation(events, approved) == PassWithoutTurn ==>
              LessonGiven(events) && approved
  {
    hide LessonGiven, DecideContinuation;
    LessonMeans(events, approved);
  }
}
