/** Which gate failures leave a failed result behind, and which one does not. */
module GateFailures {
  import opened Prelude
  import opened PhysicalControl
  import opened FlowProperties
  import opened GateEvidence
  import opened GateMeaning
  import opened Orchestrator
  import opened OrchestratorRuns
  import opened OrchestratorPromises
  import opened SampleSession

  // ---------- an answer without a turn, told from the events ----------

  /** The lesson was asked for, found, written, answered and spoken by the approved output, and not cancelled;
      but its last answer has no turn identity. */
  ghost predicate AnsweredWithoutTurn(events: seq<RuntimeEvent>, approvedOutput: bool) {
    approvedOutput && LessonGiven(events) && AnswerWithoutTurn(events)
  }

  /** The learning gate passes without a turn exactly when the lesson was answered so. */
  lemma PassWithoutTurnIff(events: seq<RuntimeEvent>, approvedOutput: bool)
    ensures DecideContinuation(events, approvedOutput) == PassWithoutTurn <==> AnsweredWithoutTurn(events, approvedOutput)
  {
    hide LessonGiven, AnswerWithoutTurn, DecideContinuation;
    WithoutTurnMeans(events, approvedOutput);
  }

  // ---------- which evaluations fail a gate ----------

  /** The gate's time is up. */
  predicate TimedOutNow(o: Orch, now: real) {
    o.flow.gateStartedAt.Some? && now - o.flow.gateStartedAt.value >= 240.0
  }

  /** The condition, on the gate shown and the events since: it is the learning gate, in time, and the
      answer came without a turn. */
  ghost predicate MissesItsTurn(o: Orch, now: real) {
    && o.flow.gateIndex == 1 && !TimedOutNow(o, now)
    && AnsweredWithoutTurn(o.EventsSinceGate(), o.Approved())
  }

  lemma DecidesWithoutTurnIff(o: Orch, database: Option<Database>, now: real)
    requires o.flow.gates == DEFAULT_GATES && 0 <= o.flow.gateIndex < 10
    ensures o.Decide(database, now) == PassWithoutTurn <==> MissesItsTurn(o, now)
  {
    hide Orch.Decide, AnsweredWithoutTurn, DecideContinuation;
    PassIsProven(o, database, now);
    GateIsJudged(o, database, now);
    PassWithoutTurnIff(o.EventsSinceGate(), o.Approved());
  }

  /** From `o` to `p`, restoration was asked for because a gate failed. */
  ghost predicate GateFailureCalled(o: Orch, p: Orch) {
    exists gate :: p.restoreCalls == o.restoreCalls + [PhysicalGateFailed(gate)]
  }

  /** Calls without a new one, or with one for another reason, do not show a gate failure. */
  lemma NoGateFailure(o: Orch, p: Orch, reason: AbortReason)
    requires p.restoreCalls == o.restoreCalls || (!reason.PhysicalGateFailed? && p.restoreCalls == o.restoreCalls + [reason])
    ensures !GateFailureCalled(o, p)
  {
    LastReason(o.restoreCalls, reason);
    forall gate: GateKey ensures p.restoreCalls != o.restoreCalls + [PhysicalGateFailed(gate)] {
      LastReason(o.restoreCalls, PhysicalGateFailed(gate));
    }
  }

  lemma LastReason(calls: seq<AbortReason>, reason: AbortReason)
    ensures |calls + [reason]| == |calls| + 1 && (calls + [reason])[|calls|] == reason
  {
  }

  /** Failing the gate that is shown leaves its failed result behind. */
  lemma FailingLeavesFailure(o: Orch, failure: Failure, w: World)
    requires FlowOk(o.flow) && o.flow.state == StartSpeaking && !InRestoration(o.lifecycle) && !o.restoreRequested
    ensures o.flow.IndexInRange()
    ensures var p := o.FailGate(failure, w); GateFailureCalled(o, p) && !AllPassed(p.gateResults)
  {
    hide FlowOk, AllPassed, Orch.RecordGate, Orch.RestoreOnce, Flow.RecordGateResult;
    FlowOkInRange(o.flow);
    ShownGateIsCurrent(o.flow);
    var r := RecordGateUnfolds(o, false, Some(failure), None, w);
    var recorded := o.RecordGate(false, Some(failure), None, w).0;
    RestoreOncePromise(recorded, PhysicalGateFailed(o.CurrentGate().value), w);
    LastFailed(o.gateResults, r);
  }

  lemma ShownGateIsCurrent(f: Flow)
    requires FlowOk(f) && f.state == StartSpeaking
    ensures 0 <= f.gateIndex < 10 && f.gates == DEFAULT_GATES
  {
    hide LogExplainsState;
  }

  lemma LastFailed(results: seq<GateSummary>, r: GateSummary)
    requires !r.passed
    ensures !AllPassed(results + [r])
  {
    assert (results + [r])[|results|] == r;
  }

  /** Going on to the next gate fails one only for want of a playback to confirm, and records that. */
  lemma NextFailureIsRecorded(o: Orch, next: NextGate, w: World)
    requires FlowOk(o.flow) && o.flow.state == GateResult && !InRestoration(o.lifecycle) && !o.restoreRequested
    ensures o.flow.IndexInRange()
    ensures var p := o.ShowNextGate(next, w).0; GateFailureCalled(o, p) ==> !AllPassed(p.gateResults)
  {
    hide FlowOk, AllPassed, Orch.FailGate, Orch.RestoreOnce, Flow.SpeakingPrompt, Orch.Show, Orch.Prepare, Identified;
    FlowOkInRange(o.flow);
    PromptKeepsFlow(o.flow, w.now);
    var (prompted, gate) := o.flow.SpeakingPrompt(w.now);
    var aimed := o.(flow := prompted).Aim(next);
    if gate.None? {
      RestoreOncePromise(o.(flow := prompted), AllPhysicalGatesCompleted, w);
      NoGateFailure(o, o.ShowNextGate(next, w).0, AllPhysicalGatesCompleted);
    } else if gate.value.key == LearningOutput && !Identified(next.playback) {
      FailingLeavesFailure(aimed, PlaybackIdentityUnavailable, w);
    } else {
      PresentingFailsNoGate(aimed, gate.value, w);
    }
  }

  lemma PresentingFailsNoGate(o: Orch, gate: Gate, w: World)
    requires !o.restoreRequested
    ensures !GateFailureCalled(o, o.Present(gate, w).0)
  {
    hide Orch.RestoreOnce;
    var shown := o.(lifecycle := LStartSpeakingNow);
    RestoreOncePromise(shown.(phase := AnswerPhase), AssessmentDatabaseUnavailable, w);
    NoGateFailure(o, o.Present(gate, w).0, AssessmentDatabaseUnavailable);
  }

  /** A learning answer without a turn identity has its gate recorded as passed. */
  lemma MissingTurnIsRecorded(o: Orch, d: Option<Database>, w: World)
    requires Inv(o) && o.flow.state == StartSpeaking && o.flow.gateIndex == 1 && o.Decide(d, w.now) == PassWithoutTurn
    ensures o.flow.IndexInRange()
    ensures var p := o.RecordGate(true, None, d, w).0;
            && o.RecordGate(true, None, d, w).1 && Core(p) && Recorded(o, p, true)
            && !p.restoreRequested && !InRestoration(p.lifecycle)
            && AllPassed(o.gateResults) && o.restoreCalls == []
            && p.flow.IndexInRange() && p.CurrentGate() == Some(LearningContinuation)
  {
    hide FlowOk, ResultsMatch, OnlyLastCanFail, CompletionClaim, ProperStarts, StreamOk, StopProven, AllFounded, QuietTimed,
      OnceOk,
      CueOk, ChainSeen, QuietAfter, StopStored, AllPassed, QuietGateTimed, Orch.RecordGate, Orch.Decide, Proves, Confirmed,
      Orch.EvidenceNow;
    FlowOkInRange(o.flow);
    PassIsProven(o, d, w.now);
    RecordGateRecords(o, true, None, d, w);
    FlowOkInRange(o.RecordGate(true, None, d, w).0.flow);
  }

  lemma MissingTurnUnfolds(o: Orch, database: Option<Database>, w: World)
    requires o.flow.IndexInRange() && o.Decide(o.Judged(database, w), w.now) == PassWithoutTurn
    requires o.RecordGate(true, None, o.Judged(database, w), w).1
    ensures o.Evaluate(database, w)
         == o.RecordGate(true, None, o.Judged(database, w), w).0.FailGate(TurnIdentityUnavailable, w)
  {
    hide Orch.Decide, Orch.FailGate, Orch.RecordGate, Orch.Judged;
  }

  /** Failing a gate that has its verdict already records nothing and asks for restoration. */
  lemma FailingAfterVerdict(p: Orch, failure: Failure, w: World)
    requires Core(p) && p.flow.state == GateResult && !p.restoreRequested && !InRestoration(p.lifecycle)
    requires 0 <= p.flow.gateIndex < 10
    ensures p.flow.IndexInRange() && p.CurrentGate().Some?
    ensures var q := p.FailGate(failure, w);
            && q.gateResults == p.gateResults && Leaving(q.flow.state)
            && q.restoreCalls == p.restoreCalls + [PhysicalGateFailed(p.CurrentGate().value)]
  {
    hide FlowOk, ResultsMatch, OnlyLastCanFail, CompletionClaim, ProperStarts, StreamOk, StopProven, AllFounded, QuietTimed,
      OnceOk,
      CueOk, ChainSeen, QuietAfter, StopStored, AllPassed, QuietGateTimed, Orch.RecordGate, Orch.RestoreOnce, Orch.FailGate;
    FlowOkInRange(p.flow);
    NothingRecorded(p, false, Some(failure), None, w);
    FailGateUnfolds(p, failure, w);
    RestoreOnceRestores(p, PhysicalGateFailed(p.CurrentGate().value), w);
  }

  /** A learning answer without a turn identity passes its gate and is then restored as a failure of
      that gate: the last result recorded is a pass. */
  lemma MissingTurnLeavesNoFailedResult(o: Orch, database: Option<Database>, w: World)
    requires Inv(o) && o.flow.state == StartSpeaking && o.flow.gateIndex == 1
    requires o.Decide(o.Judged(database, w), w.now) == PassWithoutTurn
    ensures o.flow.IndexInRange()
    ensures var p := o.Evaluate(database, w);
            && AllPassed(p.gateResults) && |p.gateResults| == |o.gateResults| + 1
            && p.restoreCalls == [PhysicalGateFailed(LearningContinuation)] && Leaving(p.flow.state)
  {
    hide FlowOk, ResultsMatch, OnlyLastCanFail, CompletionClaim, ProperStarts, StreamOk, StopProven, AllFounded, QuietTimed,
      OnceOk, CueOk, ChainSeen, QuietAfter, StopStored, AllPassed, QuietGateTimed, Orch.RecordGate, Orch.RestoreOnce,
      Orch.FailGate, Orch.Decide, Orch.Judged, Orch.Evaluate, Core;
    MissingTurnIsRecorded(o, o.Judged(database, w), w);
    MissingTurnUnfolds(o, database, w);
    var p := o.RecordGate(true, None, o.Judged(database, w), w).0;
    AllPassedGrows(o.gateResults, p.gateResults);
    FailingAfterVerdict(p, TurnIdentityUnavailable, w);
  }

  lemma PassingFailsOnlyLoudly(o: Orch, next: NextGate, stop: Option<int>, d: Option<Database>, w: World)
    requires FlowOk(o.flow) && o.flow.state == StartSpeaking && !o.restoreRequested
    ensures o.flow.IndexInRange()
    ensures var recorded := o.RecordGate(true, None, d, w).0;
            var noted := if stop.Some? then recorded.NoteStop(stop.value, w.now) else recorded;
            recorded.flow.IndexInRange()
            && var p := noted.ShowNextGate(next, w).0;
               GateFailureCalled(o, p) ==> !AllPassed(p.gateResults)
  {
    hide FlowOk, AllPassed, Orch.RecordGate, Orch.ShowNextGate, Flow.RecordGateResult, GateFailureCalled;
    FlowOkInRange(o.flow);
    RecordKeepsFlow(o.flow, true, w.now);
    var r := RecordGateUnfolds(o, true, None, d, w);
    var recorded := o.RecordGate(true, None, d, w).0;
    var noted := if stop.Some? then recorded.NoteStop(stop.value, w.now) else recorded;
    NextFailureIsRecorded(noted, next, w);
    SameCalls(o, noted, noted.ShowNextGate(next, w).0);
  }

  lemma SameCalls(o: Orch, q: Orch, p: Orch)
    requires o.restoreCalls == q.restoreCalls
    ensures GateFailureCalled(o, p) <==> GateFailureCalled(q, p)
  {
  }

  /** Judging the gate shown asks for restoration as for a failed gate, and yet leaves no failed result
      behind, exactly when it is the learning gate, in time, and its answer has no turn identity. */
  lemma FailureWithoutFailedResultIff(o: Orch, database: Option<Database>, w: World)
    requires Inv(o) && o.flow.state == StartSpeaking && !InRestoration(o.lifecycle)
    ensures o.flow.IndexInRange()
    ensures var p := o.Evaluate(database, w);
            GateFailureCalled(o, p) && AllPassed(p.gateResults) <==> MissesItsTurn(o, w.now)
  {
    hide FlowOk, ResultsMatch, OnlyLastCanFail, CompletionClaim, ProperStarts, StreamOk, StopProven, AllFounded, QuietTimed,
      OnceOk, CueOk, AllPassed, QuietGateOk, Orch.Decide, Orch.FailGate, Orch.RecordGate, Orch.ShowNextGate, Orch.AskForYes,
      Orch.ConfirmQuiet, Orch.NoteStop, GateFailureCalled, MissesItsTurn;
    FlowOkInRange(o.flow);
    ShownGateIsCurrent(o.flow);
    DecidesWithoutTurnIff(o, o.Judged(database, w), w.now);
    var p := o.Evaluate(database, w);
    match o.Decide(o.Judged(database, w), w.now) {
      case Fail(failure) => FailingLeavesFailure(o, failure, w);
      case Pass(next) =>
        PassingFailsOnlyLoudly(o, next, None, o.Judged(database, w), w);
        NoGateFailure(o, o, PreflightFailed);
      case PassStopped(stop) =>
        PassingFailsOnlyLoudly(o, NextGate(Some(stop), NO_PLAYBACK), Some(stop), o.Judged(database, w), w);
        NoGateFailure(o, o, PreflightFailed);
      case PassWithoutTurn =>
        TurnlessIsLearning(o, w.now);
        MissingTurnLeavesNoFailedResult(o, database, w);
        NothingCalledYet(o);
        FailureCalledFor(o, p, LearningContinuation);
      case Wait => NoGateFailure(o, p, PreflightFailed);
      case AskConfirmation => PhaseChangeCallsNothing(o, w.now);
      case QuietConfirmed => PhaseChangeCallsNothing(o, w.now);
    }
  }

  lemma TurnlessIsLearning(o: Orch, now: real)
    requires MissesItsTurn(o, now)
    ensures o.flow.gateIndex == 1
  {
  }

  lemma NothingCalledYet(o: Orch)
    requires Inv(o) && o.flow.state == StartSpeaking
    ensures o.restoreCalls == []
  {
    hide FlowOk, ResultsMatch, OnlyLastCanFail, CompletionClaim, ProperStarts, StreamOk, StopProven, AllFounded, QuietTimed,
      OnceOk, CueOk, AllPassed, QuietGateOk;
  }

  lemma FailureCalledFor(o: Orch, p: Orch, gate: GateKey)
    requires o.restoreCalls == [] && p.restoreCalls == [PhysicalGateFailed(gate)]
    ensures GateFailureCalled(o, p)
  {
    assert p.restoreCalls == o.restoreCalls + [PhysicalGateFailed(gate)];
  }

  lemma PhaseChangeCallsNothing(o: Orch, now: real)
    ensures !GateFailureCalled(o, o.AskForYes(now)) && !GateFailureCalled(o, o.ConfirmQuiet(now))
  {
    NoGateFailure(o, o.AskForYes(now), PreflightFailed);
    NoGateFailure(o, o.ConfirmQuiet(now), PreflightFailed);
  }

  // ---------- a run that fails so ----------

  lemma LessonHasNoTurn()
    ensures AnsweredWithoutTurn(LESSON, true)
  {
    hide NonBlank;
    assert Said(LESSON[0], ContinueCourse) && FindsLesson(LESSON[1]) && Writes(LESSON[2]) && Answers(LESSON[3])
           && SpeechBegins(LESSON[4]);
    assert IsLast(LESSON, 3, Answers) && LESSON[3].turnId.None?;
    BlankIsBlank(LESSON[3].turnId);
  }

  lemma BlankIsBlank(turn: Option<string>)
    requires turn.None?
    ensures !NonBlank(turn)
  {
  }

  /** The session is at the learning gate and has seen the first n events of the lesson. */
  predicate Learning(o: Orch, n: nat, now: real)
    requires n <= 5
  {
    GateShown(o, 1, 2, now) && OnePassed(o) && o.events == [ACKNOWLEDGED] + LESSON[..n] && o.eventSequence == 1 + n
  }

  lemma LessonSince(n: nat)
    requires n <= 5
    ensures Since([ACKNOWLEDGED] + LESSON[..n], 2) == LESSON[..n]
    decreases n
  {
    var events := [ACKNOWLEDGED] + LESSON[..n];
    if n == 0 {
      NoneSince(events, 2);
      assert LESSON[..0] == [];
    } else {
      LessonSince(n - 1);
      assert events[..n] == [ACKNOWLEDGED] + LESSON[..n - 1];
      assert events[n] == LESSON[n - 1];
      assert LESSON[..n] == LESSON[..n - 1] + [LESSON[n - 1]];
    }
  }

  lemma LearningDecides(o: Orch, n: nat, database: Option<Database>, now: real)
    requires n <= 5 && Learning(o, n, now) && o.flow.gates == DEFAULT_GATES
    ensures o.EventsSinceGate() == LESSON[..n] && o.Approved() && !TimedOutNow(o, now)
    ensures o.Decide(database, now) == DecideContinuation(LESSON[..n], true)
  {
    hide DecideContinuation, Since;
    LessonSince(n);
  }

  lemma LessonGoesOn(o: Orch, n: nat, w: World)
    requires Inv(o) && n < 4 && Learning(o, n, w.now)
    ensures o.flow.IndexInRange()
    ensures Learning(o.ObserveRuntimeEvents([LESSON[n]], None, None, w), n + 1, w.now)
  {
    hide Inv, FlowOk, Learning, LESSON, ACKNOWLEDGED, Orch.Append, Orch.Decide, Orch.Evaluate,
      Orch.ObserveRuntimeEvents, DecideContinuation;
    WholeLesson();
    InvInRange(o);
    FlowOkInRange(o.flow);
    NextLessonEvent(o, n, w);
    var a := o.Append(LESSON[n]);
    LearningDecides(a, n + 1, a.Judged(None, w), w.now);
    LessonWaits(n + 1, true);
    WaitingChangesNothing(a, None, w);
  }

  lemma WaitingChangesNothing(o: Orch, database: Option<Database>, w: World)
    requires o.flow.IndexInRange() && o.Decide(o.Judged(database, w), w.now) == Wait
    ensures o.Evaluate(database, w) == o
  {
    hide Orch.Decide, Orch.FailGate, Orch.RecordGate, Orch.ShowNextGate, Orch.AskForYes, Orch.ConfirmQuiet;
  }

  lemma NextLessonEvent(o: Orch, n: nat, w: World)
    requires Inv(o) && n < 5 && Learning(o, n, w.now)
    ensures o.flow.IndexInRange()
    ensures var a := o.Append(LESSON[n]);
            && Learning(a, n + 1, w.now) && a.flow == o.flow && a.flow.IndexInRange() && !InRestoration(a.lifecycle)
            && var p := a.Evaluate(None, w);
               o.ObserveRuntimeEvents([LESSON[n]], None, None, w) ==
                 if InRestoration(p.lifecycle) then p else p.Evaluate(None, w)
  {
    hide Inv, FlowOk, Orch.Append, Orch.ObserveRuntimeEvents, Orch.Evaluate;
    InvInRange(o);
    AppendedGate(o, None, LESSON[n], 1, 2, w.now);
    OneDelivered(o, LESSON[n], None, w);
    assert o.events + [LESSON[n]] == [ACKNOWLEDGED] + LESSON[..n + 1];
  }

  lemma LessonFails(o: Orch, w: World)
    requires Inv(o) && Learning(o, 4, w.now)
    ensures o.flow.IndexInRange()
    ensures var p := o.ObserveRuntimeEvents([LESSON[4]], None, None, w);
            |p.gateResults| == 2 && AllPassed(p.gateResults) && p.restoreCalls == [PhysicalGateFailed(LearningContinuation)]
  {
    hide Inv, FlowOk, LESSON, ACKNOWLEDGED, AllPassed, AnsweredWithoutTurn, Orch.Append, Orch.Decide, Orch.Evaluate,
      Orch.ObserveRuntimeEvents, DecideContinuation;
    WholeLesson();
    InvInRange(o);
    FlowOkInRange(o.flow);
    NextLessonEvent(o, 4, w);
    var a := o.Append(LESSON[4]);
    AppendKeepsInv(o, LESSON[4]);
    LearningDecides(a, 5, a.Judged(None, w), w.now);
    LessonHasNoTurn();
    PassWithoutTurnIff(LESSON, true);
    MissingTurnLeavesNoFailedResult(a, None, w);
    FailureRestores(a, w);
  }

  lemma WholeLesson()
    ensures |LESSON| == 5 && LESSON[..5] == LESSON && LESSON[4].sequence == 6
  {
  }

  lemma AppendKeepsInv(o: Orch, e: RuntimeEvent)
    requires Inv(o) && o.flow.state == StartSpeaking && o.flow.gateIndex == 1 && e.sequence > o.eventSequence
    ensures Inv(o.Append(e))
  {
    hide FlowOk, ResultsMatch, OnlyLastCanFail, CompletionClaim, ProperStarts, StreamOk, StopProven, AllFounded, QuietTimed,
      OnceOk, CueOk, AllPassed, QuietAfter, StopStored, Orch.Append;
    AppendKeepsCore(o, e);
    AppendFrame(o, e);
  }

  lemma FailureRestores(o: Orch, w: World)
    requires Inv(o) && !InRestoration(o.lifecycle)
    ensures o.flow.IndexInRange()
    ensures var p := o.Evaluate(None, w); p.restoreCalls != [] ==> InRestoration(p.lifecycle)
  {
    hide FlowOk, ResultsMatch, OnlyLastCanFail, CompletionClaim, ProperStarts, StreamOk, StopProven, AllFounded, QuietTimed,
      OnceOk, CueOk, AllPassed, QuietAfter, StopStored, Orch.Evaluate;
    InvInRange(o);
    QuietGateCanBeJudged(o);
    EvaluateKeeps(o, None, w);
  }

  function LearningRun(session: string, w: World): seq<Action> {
    Prepare(session, w) + [Observe(ACKNOWLEDGED, Some(ONE_WAKE), w)] + [Observe(LESSON[0], None, w)]
      + [Observe(LESSON[1], None, w)] + [Observe(LESSON[2], None, w)] + [Observe(LESSON[3], None, w)]
      + [Observe(LESSON[4], None, w)]
  }

  function Observe(e: RuntimeEvent, health: Option<VoiceHealth>, w: World): Action {
    ObserveRuntimeEvents([e], health, None, w)
  }

  function Prepare(session: string, w: World): seq<Action> {
    [RecordPreflight(true, w)] + [QualifyResourceStartup(true, w)] + [ArmRestoration(true, true, true, w)]
      + [AwaitStart(START_TTL_SECONDS, PhysicalVoice, w)] + [PollOnce(true, true, Request(FirstRequest(session, w.now)), w)]
      + [CompleteCaptureHandoff(READY, w)]
  }

  lemma RunGoesOn(session: string, actions: seq<Action>, a: Action)
    requires PossibleRun(actions) && Possible(a)
    ensures PossibleRun(actions + [a])
    ensures var o := OrchestratorRuns.Run(session, true, actions);
            && o.flow.IndexInRange()
            && OrchestratorRuns.Run(session, true, actions + [a]) == OrchestratorRuns.Step(o, a)
  {
    hide Inv, OrchestratorRuns.Step, FlowOk;
    assert (actions + [a])[..|actions|] == actions;
    InvInRange(OrchestratorRuns.Run(session, true, actions));
  }

  lemma PreparedRun(session: string, w: World)
    ensures PossibleRun(Prepare(session, w))
    ensures var o := OrchestratorRuns.Run(session, true, Prepare(session, w));
            GateShown(o, 0, 1, w.now) && NothingSeen(o) && o.wakeBaseline == 0
  {
    hide Inv, FlowOk, OrchestratorRuns.Run, ResourcesVerified, SafeguardsArmed, Inviting, HandoffPending, GateShown,
      InitialOrch, Orch.RecordPreflight, Orch.QualifyResourceStartup, Orch.ArmRestoration, Orch.AwaitOwnerStart,
      Orch.PollOnce, Orch.CompleteCaptureHandoff;
    var actions: seq<Action> := [];
    EmptyRun(session);
    RunGoesOn(session, actions, RecordPreflight(true, w));
    actions := actions + [RecordPreflight(true, w)];
    RunGoesOn(session, actions, QualifyResourceStartup(true, w));
    actions := actions + [QualifyResourceStartup(true, w)];
    PreflightVerifies(session, w);
    ArmingArms(OrchestratorRuns.Run(session, true, actions), session, w);
    RunGoesOn(session, actions, ArmRestoration(true, true, true, w));
    actions := actions + [ArmRestoration(true, true, true, w)];
    AwaitingInvites(OrchestratorRuns.Run(session, true, actions), session, w);
    RunGoesOn(session, actions, AwaitStart(START_TTL_SECONDS, PhysicalVoice, w));
    actions := actions + [AwaitStart(START_TTL_SECONDS, PhysicalVoice, w)];
    InvInRange(OrchestratorRuns.Run(session, true, actions));
    StartHandsOff(OrchestratorRuns.Run(session, true, actions), session, w.now + START_TTL_SECONDS, w);
    RunGoesOn(session, actions, PollOnce(true, true, Request(FirstRequest(session, w.now)), w));
    actions := actions + [PollOnce(true, true, Request(FirstRequest(session, w.now)), w)];
    InvInRange(OrchestratorRuns.Run(session, true, actions));
    CaptureShowsFirstGate(OrchestratorRuns.Run(session, true, actions), w);
    RunGoesOn(session, actions, CompleteCaptureHandoff(READY, w));
    actions := actions + [CompleteCaptureHandoff(READY, w)];
    assert actions == Prepare(session, w);
  }

  lemma EmptyRun(session: string)
    ensures PossibleRun([]) && OrchestratorRuns.Run(session, true, []) == InitialOrch(session, true)
  {
    hide Inv;
  }

  /** A whole run in which the lesson is completed without a turn identity: both results are passes,
      and restoration is asked for because the learning gate failed. */
  lemma TurnlessRun(session: string, w: World)
    ensures PossibleRun(LearningRun(session, w))
    ensures var o := OrchestratorRuns.Run(session, true, LearningRun(session, w));
            |o.gateResults| == 2 && AllPassed(o.gateResults) && o.restoreCalls == [PhysicalGateFailed(LearningContinuation)]
  {
    hide Inv, FlowOk, OrchestratorRuns.Run, GateShown, NothingSeen, AllPassed, OnePassed, Prepare, LESSON, ACKNOWLEDGED,
      Orch.ObserveRuntimeEvents;
    WholeLesson();
    PreparedRun(session, w);
    var actions := Prepare(session, w);
    WakePasses(OrchestratorRuns.Run(session, true, actions), w);
    RunGoesOn(session, actions, Observe(ACKNOWLEDGED, Some(ONE_WAKE), w));
    actions := actions + [Observe(ACKNOWLEDGED, Some(ONE_WAKE), w)];
    assert LESSON[..0] == [] && [ACKNOWLEDGED] + LESSON[..0] == [ACKNOWLEDGED];
    assert actions == Prepare(session, w) + [Observe(ACKNOWLEDGED, Some(ONE_WAKE), w)];
    LessonGoesOn(OrchestratorRuns.Run(session, true, actions), 0, w);
    RunGoesOn(session, actions, Observe(LESSON[0], None, w));
    actions := actions + [Observe(LESSON[0], None, w)];
    LessonGoesOn(OrchestratorRuns.Run(session, true, actions), 1, w);
    RunGoesOn(session, actions, Observe(LESSON[1], None, w));
    actions := actions + [Observe(LESSON[1], None, w)];
    LessonGoesOn(OrchestratorRuns.Run(session, true, actions), 2, w);
    RunGoesOn(session, actions, Observe(LESSON[2], None, w));
    actions := actions + [Observe(LESSON[2], None, w)];
    LessonGoesOn(OrchestratorRuns.Run(session, true, actions), 3, w);
    RunGoesOn(session, actions, Observe(LESSON[3], None, w));
    actions := actions + [Observe(LESSON[3], None, w)];
    LessonFails(OrchestratorRuns.Run(session, true, actions), w);
    RunGoesOn(session, actions, Observe(LESSON[4], None, w));
  }
}
