/** Which situation gets which answer from the orchestrator, in the terms of the situation alone. */
module OrchestratorAnswers {
  import opened Prelude
  import opened PhysicalControl
  import opened FlowProperties
  import opened GateEvidence
  import opened GateMeaning
  import opened Orchestrator
  import opened OperatorPage
  import opened OrchestratorRuns
  import opened OrchestratorPromises
  import opened OrchestratorLimits

  // ---------- publishing ----------

  /** The page is told what the session is, and nothing to say or to do. */
  predicate Tells(s: Status, o: Orch) {
    && s.status == s.lifecycle == o.lifecycle && s.sessionId == o.sessionId && s.operatorState == FlowText(o.flow.state)
    && s.resourceSafe == o.flow.resourceSafe && s.captureVerified == o.flow.captureVerified
    && s.autoRestoreArmed == o.flow.autoRestoreArmed && s.independentAbortArmed == o.flow.independentAbortArmed
    && s.ownerStartCount == o.flow.ownerStartCount && s.startDeadline == o.flow.startDeadline
    && s.prompt.None? && s.ownerAction.None?
  }

  // ---------- restoration ----------

  /** Restoration is asked for once: the first reason is the flow's, unless it was leaving already, and the page is told
      whether the independent service was launched. */
  ghost predicate AnswersRestore(o: Orch, p: Orch, reason: AbortReason, w: World) {
    if o.restoreRequested then p == o
    else
      && p.restoreRequested && p.restoreCalls == o.restoreCalls + [reason] && p.lifecycle == LRestoring
      && (if o.flow.state == Restoring || o.flow.state == Restored then p.flow == o.flow
          else p.flow.state == Restoring && p.flow.restoreReason == Some(Aborted(reason)))
      && p.status.status == (if w.restoreLaunches then LRestoring else LRestoreFailed)
      && p.status.lifecycle == LRestoring && p.status.operatorState == FlowText(p.flow.state)
  }

  lemma RestoreAnswers(o: Orch, reason: AbortReason, w: World)
    ensures AnswersRestore(o, o.RestoreOnce(reason, w), reason, w)
  {
    hide AbortedFlow;
    AbortedMeans(o.flow, reason, w.now);
  }

  lemma AbortedMeans(f: Flow, reason: AbortReason, now: real)
    ensures var g := AbortedFlow(f, reason, now);
            if f.state == Restoring || f.state == Restored then g == f
            else g.state == Restoring && g.restoreReason == Some(Aborted(reason))
  {
    hide Flow.IndexInRange;
    if !Leaving(f.state) {
      var g := f.(state := Restoring, restoreReason := Some(Aborted(reason)));
      assert AbortedFlow(f, reason, now) == g.Log(GuardAborted(Aborted(reason)), now);
    }
  }

  // ---------- START ----------

  /** A START for this session, with a number and the word itself, asked for by the deadline and found before it. */
  predicate MayStart(o: Orch, r: ControlRequest, now: real) {
    && r.sessionId == Some(o.sessionId)
    && r.requestId.Some? && r.requestId.value != ""
    && r.action == StartAction && r.acknowledgement == "START"
    && o.flow.startDeadline.Some? && now < o.flow.startDeadline.value
    && r.requestedMonotonic.Some? && r.requestedMonotonic.value <= o.flow.startDeadline.value
  }

  lemma CurrentMeans(o: Orch, r: ControlRequest, now: real)
    requires Inv(o) && o.lifecycle == LAwaitingOwnerStart
    ensures o.StartIsCurrent(r, now) <==> MayStart(o, r, now)
  {
    hide Inv;
    NothingAcceptedWhileWaiting(o);
    NoNumberYet(o);
  }

  lemma NoNumberYet(o: Orch)
    requires Inv(o) && o.accepted == []
    ensures o.lastRequestId.None?
  {
    hide FlowOk, ResultsMatch, OnlyLastCanFail, CompletionClaim, ProperStarts, StreamOk, StopProven, AllFounded, QuietTimed,
      CueOk, RestorationOk, LifecycleOk, WaitingOk, StopGateAimed, Settled, QuietGateOk;
  }

  predicate AllFive(ready: Readiness) {
    ready.actualInput && ready.aecInput && ready.pcmProgressing && ready.listenerReady && ready.captureOwner
  }

  /** The handoff, once its checks are known: the first cue, or restoration for want of one of the five. */
  ghost predicate AnswersHandoff(o: Orch, p: Orch, ok: bool, ready: Readiness) {
    && (ok <==> AllFive(ready))
    && p.restoreCalls == (if ok then o.restoreCalls else o.restoreCalls + [CaptureReadinessFailed])
    && (ok ==> p.lifecycle == LStartSpeakingNow && p.flow.state == StartSpeaking && p.flow.gateIndex == 0
               && p.wakeBaseline == ready.baselineWakes
               && DisplayModel(p.status).cue == Some(Prompt(Wake, Some("Friday"))))
  }

  lemma HandoffAnswers(o: Orch, ready: Readiness, w: World)
    requires Inv(o) && o.lifecycle == LCaptureHandoff
    ensures o.flow.IndexInRange()
    ensures var (p, ok) := o.CompleteCaptureHandoff(ready, w); AnswersHandoff(o, p, ok, ready)
  {
    hide Base, RestorationOk, WaitingOk, StopGateAimed, Settled, QuietGateOk, FlowOk, Inv, NothingTaken, DisplayModel,
      Orch.RestoreOnce, Orch.ShowFirstCue, Flow.VerifyCapture, Flow.SpeakingPrompt;
    InvInRange(o);
    CompleteCaptureHandoffPromise(o, ready, w);
    InvParts(o);
    HandoffMeansFlow(o);
    HandoffHasStarted(o);
    VerifyKeepsFlow(o.flow, ready.All(), w.now);
    var (g, ok) := o.flow.VerifyCapture(ready.All(), ready.All(), w.now);
    if ok {
      FirstPromptKeepsFlow(g, w.now);
      FirstCueFrame(o.(flow := g.SpeakingPrompt(w.now).0).NoteReadiness(ready), DEFAULT_GATES[0]);
    } else {
      RestoringAdds(o.(flow := g), CaptureReadinessFailed, w);
    }
  }

  lemma FirstCueFrame(o: Orch, gate: Gate)
    ensures var p := o.ShowFirstCue(gate);
            p == o.(lifecycle := LStartSpeakingNow, status := p.status)
  {
  }

  lemma RestoringAdds(o: Orch, reason: AbortReason, w: World)
    requires !o.restoreRequested
    ensures o.RestoreOnce(reason, w).restoreCalls == o.restoreCalls + [reason]
    ensures o.RestoreOnce(reason, w).restoreRequested && o.RestoreOnce(reason, w).lifecycle == LRestoring
  {
    hide DisplayModel;
    RestoreOncePromise(o, reason, w);
  }

  /** A START that may be taken is, and its capture is handed over at once unless that is left to the caller. */
  ghost predicate AnswersStart(o: Orch, p: Orch, result: PollResult, r: ControlRequest, w: World) {
    if !MayStart(o, r, w.now) then p == o && result == Rejected
    else
      && p.accepted == [Accepted(r, w.now)] && p.flow.ownerStartCount == 1 && p.lastRequestId == r.requestId
      && (if o.deferHandoff then
            result == HandoffDeferred && p.lifecycle == LCaptureHandoff && p.handoffCalls == 0 && p.restoreCalls == []
          else
            && p.handoffCalls == 1
            && match w.handoff
               case HandoffRaised => result == RestoringNow && p.restoreCalls == [CaptureHandoffFailed]
               case HandoffReady(ready) =>
                 if AllFive(ready) then result == CaptureReady && p.lifecycle == LStartSpeakingNow && p.restoreCalls == []
                 else result == RestoringNow && p.restoreCalls == [CaptureReadinessFailed])
  }

  lemma StartAnswers(o: Orch, r: ControlRequest, w: World)
    requires Inv(o) && o.lifecycle == LAwaitingOwnerStart
    ensures o.flow.IndexInRange()
    ensures var (p, result) := o.ConsumeStart(r, w); AnswersStart(o, p, result, r, w)
  {
    hide Inv, Base, FlowOk, Qualified, ProperStart, MayStart, DisplayModel, AllFive, Orch.RestoreOnce, Orch.Enter, Orch.Accept,
      Orch.BeginHandoff, Orch.CallHandoff, Flow.AcknowledgeStart, Orch.CompleteCaptureHandoff, Orch.StartIsCurrent;
    InvInRange(o);
    CurrentMeans(o, r, w.now);
    ConsumeStartPromise(o, r, w);
    if MayStart(o, r, w.now) {
      StartHandedOver(o, r, w);
      AcceptingFrame(o, r, w);
      NothingCalledYet(o);
      var g := o.flow.AcknowledgeStart("START", w.now).0;
      var d := o.(flow := g).Accept(r, w.now).Enter(LOwnerStartAccepted).BeginHandoff();
      HandingCounts(o, g, r, w.now);
      if !o.deferHandoff {
        RestoringAdds(d.CallHandoff(), CaptureHandoffFailed, w);
        RestoringTakesNothing(d.CallHandoff(), CaptureHandoffFailed, w);
        if w.handoff.HandoffReady? {
          HandoffAnswers(d.CallHandoff(), w.handoff.readiness, w);
          HandoffTakesNothing(d.CallHandoff(), w.handoff.readiness, w);
        }
      }
    }
  }

  lemma NothingCalledYet(o: Orch)
    requires Inv(o) && o.lifecycle == LAwaitingOwnerStart
    ensures o.restoreCalls == [] && o.handoffCalls == 0 && !o.restoreRequested
  {
    hide ResultsMatch, OnlyLastCanFail, CompletionClaim, ProperStarts, StreamOk, StopProven, AllFounded, QuietTimed,
      LogExplainsState, WaitingOk, StopGateAimed, Settled, QuietGateOk;
    BeforeStartFacts(o.flow);
  }

  lemma HandingCounts(o: Orch, g: Flow, r: ControlRequest, now: real)
    ensures var d := o.(flow := g).Accept(r, now).Enter(LOwnerStartAccepted).BeginHandoff();
            && d.restoreCalls == o.restoreCalls && d.handoffCalls == o.handoffCalls && d.lifecycle == LCaptureHandoff
            && d.lastRequestId == r.requestId == d.CallHandoff().lastRequestId
            && d.CallHandoff().restoreCalls == o.restoreCalls && d.CallHandoff().handoffCalls == o.handoffCalls + 1
  {
  }

  // ---------- polling ----------

  /** The deadline is reached. */
  predicate IsDue(o: Orch, now: real) {
    o.flow.startDeadline.Some? && o.flow.startDeadline.value <= now
  }

  /** Why a session that awaits START has to be restored, if it has to: first of all because it is unsafe, then because
      the candidate is dead, then because nobody came, then because of what came. */
  predicate MustRestore(o: Orch, safe: bool, alive: bool, file: RequestFile, now: real, reason: AbortReason) {
    match reason
    case PreStartSafetyCheckFailed => !safe
    case CandidateDied => safe && !alive
    case LeaseExpired => safe && alive && IsDue(o, now)
    case InvalidControlRequest => safe && alive && !IsDue(o, now) && file.NotAnObject?
    case UnsupportedControlRequest =>
      && safe && alive && !IsDue(o, now) && file.Request?
      && file.request.sessionId == Some(o.sessionId) && file.request.action == OtherAction
    case _ => false
  }

  /** A request that is looked at. */
  predicate Comes(o: Orch, safe: bool, alive: bool, file: RequestFile, now: real) {
    safe && alive && !IsDue(o, now) && file.Request?
  }

  predicate ComesFromHere(o: Orch, safe: bool, alive: bool, file: RequestFile, now: real, action: RequestAction) {
    Comes(o, safe, alive, file, now) && file.request.sessionId == Some(o.sessionId) && file.request.action == action
  }

  /** The answer of a poll in a session that awaits START. */
  ghost predicate AnswersWaiting(o: Orch, p: Orch, result: PollResult, safe: bool, alive: bool, file: RequestFile, w: World) {
    && (forall reason: AbortReason :: MustRestore(o, safe, alive, file, w.now, reason) ==>
          result == RestoringNow && p.restoreRequested && p.lifecycle == LRestoring && p.restoreCalls == [reason])
    && (ComesFromHere(o, safe, alive, file, w.now, AbortAction) || ComesFromHere(o, safe, alive, file, w.now, FinishAction) ==>
          result == RestoringNow && p.restoreRequested && p.lifecycle == LRestoring && p.restoreCalls == [] && p.flow == o.flow)
    && (result == Waiting <==> safe && alive && !IsDue(o, w.now) && file.NoRequest?)
    && (result == StaleRejected <==>
          Comes(o, safe, alive, file, w.now) && file.request.sessionId != Some(o.sessionId))
    && (ComesFromHere(o, safe, alive, file, w.now, StartAction) ==> AnswersStart(o, p, result, file.request, w))
    && result != Idle && result != RestoredNow
  }

  /** The answer of a poll in any session: what another process restores is followed, and nothing is awaited
      but START. */
  ghost predicate AnswersPoll(o: Orch, p: Orch, result: PollResult, safe: bool, alive: bool, file: RequestFile, w: World) {
    if o.status.status == LRestoring || o.status.status == LRestoreFailed || o.status.status == LRestoredVerified then
      && p == o.(lifecycle := o.status.lifecycle)
      && result == (if o.status.lifecycle == LRestoredVerified then RestoredNow else RestoringNow)
    else if o.lifecycle == LAwaitingOwnerStart then AnswersWaiting(o, p, result, safe, alive, file, w)
    else p == o && result == Idle
  }

  lemma PollAnswers(o: Orch, safe: bool, alive: bool, file: RequestFile, w: World)
    requires Inv(o)
    ensures o.flow.IndexInRange()
    ensures var (p, result) := o.PollOnce(safe, alive, file, w); AnswersPoll(o, p, result, safe, alive, file, w)
  {
    hide Inv, FlowOk, AnswersWaiting, Orch.RestoreOnce, Orch.ConsumeStart, Orch.Enter;
    InvInRange(o);
    if o.lifecycle == LAwaitingOwnerStart && !InRestoration(o.status.status) {
      WaitingAnswers(o, safe, alive, file, w);
    }
  }

  lemma WaitingAnswers(o: Orch, safe: bool, alive: bool, file: RequestFile, w: World)
    requires Inv(o) && o.lifecycle == LAwaitingOwnerStart && !InRestoration(o.status.status)
    ensures o.flow.IndexInRange()
    ensures var (p, result) := o.PollOnce(safe, alive, file, w); AnswersWaiting(o, p, result, safe, alive, file, w)
  {
    InvInRange(o);
    NothingAcceptedWhileWaiting(o);
    hide Inv, AnswersWaiting, Orch.PollOnce;
    if Comes(o, safe, alive, file, w.now) {
      RequestAnswers(o, file.request, w);
    } else {
      NoRequestAnswers(o, safe, alive, file, w);
    }
  }

  lemma NoRequestAnswers(o: Orch, safe: bool, alive: bool, file: RequestFile, w: World)
    requires Inv(o) && o.lifecycle == LAwaitingOwnerStart && !InRestoration(o.status.status)
    requires !Comes(o, safe, alive, file, w.now)
    ensures o.flow.IndexInRange()
    ensures var (p, result) := o.PollOnce(safe, alive, file, w); AnswersWaiting(o, p, result, safe, alive, file, w)
  {
    hide Inv, FlowOk, AnswersStart, Orch.RestoreOnce, Orch.ConsumeStart, Orch.Enter;
    InvInRange(o);
    NothingCalledYet(o);
    NothingAcceptedWhileWaiting(o);
    RefusingAdds(o, w);
  }

  lemma RequestAnswers(o: Orch, r: ControlRequest, w: World)
    requires Inv(o) && o.lifecycle == LAwaitingOwnerStart && !InRestoration(o.status.status) && !IsDue(o, w.now)
    ensures o.flow.IndexInRange()
    ensures var (p, result) := o.PollOnce(true, true, Request(r), w); AnswersWaiting(o, p, result, true, true, Request(r), w)
  {
    hide Inv, FlowOk, AnswersStart, Orch.RestoreOnce, Orch.ConsumeStart, Orch.Enter;
    InvInRange(o);
    NothingCalledYet(o);
    NothingAcceptedWhileWaiting(o);
    EnterFrame(o, LRestoring);
    RestoringAdds(o, UnsupportedControlRequest, w);
    StartAnswers(o, r, w);
    StartIsAnswered(o, o.ConsumeStart(r, w).0, o.ConsumeStart(r, w).1, r, w);
  }

  lemma StartIsAnswered(o: Orch, p: Orch, result: PollResult, r: ControlRequest, w: World)
    requires AnswersStart(o, p, result, r, w)
    ensures !result.Idle? && !result.Waiting? && !result.StaleRejected? && !result.RestoredNow?
  {
  }

  lemma RefusingAdds(o: Orch, w: World)
    requires !o.restoreRequested && o.restoreCalls == []
    ensures forall reason: AbortReason ::
              var p := o.RestoreOnce(reason, w); p.restoreRequested && p.lifecycle == LRestoring && p.restoreCalls == [reason]
  {
    hide Orch.RestoreOnce;
    forall reason: AbortReason
      ensures var p := o.RestoreOnce(reason, w); p.restoreRequested && p.lifecycle == LRestoring && p.restoreCalls == [reason]
    {
      RestoringAdds(o, reason, w);
    }
  }

  // ---------- showing the next gate ----------

  /** A playback that the owner can be asked about. */
  predicate CanBeAskedAbout(p: Playback) {
    && p.id.Some? && p.turnId.Some? && p.turnId.value != "" && p.sequence.Some? && p.sequence.value != 0
    && p.startedAt.Some? && p.startedAt.value != ""
  }

  /** What the page shows of the gate with this number. */
  predicate ShowsOnPage(s: Status, k: int)
    requires 0 <= k < 10
  {
    && s.captureVerified && s.prompt == Some(Prompt(DEFAULT_GATES[k].key, DEFAULT_GATES[k].spokenPhrase))
    && s.operatorState == (if k == 2 || k == 9 then WaitingOwnerConfirmation
                           else if k == 5 then WaitingForQuietCheck else FlowText(StartSpeaking))
    && s.ownerAction == (if k == 2 then Some(ConfirmLearningOutputAudible)
                         else if k == 9 then Some(ConfirmUiVoiceSync) else None)
  }

  /** The gate with this number is shown now, about this playback, and counts its events from there on. */
  ghost predicate Shown(o: Orch, p: Orch, k: int, next: NextGate, w: World)
    requires 0 <= k < 10
  {
    && p.flow.state == StartSpeaking && p.flow.gateIndex == k && p.flow.gateStartedAt == Some(w.now)
    && p.lifecycle == LStartSpeakingNow && p.restoreCalls == o.restoreCalls && p.gateResults == o.gateResults
    && p.playback == next.playback
    && p.gateStartedSequence == (if next.includeSequence.Some? then next.includeSequence.value else o.eventSequence + 1)
    && p.wakeBaseline == (if o.voice.Some? && o.voice.value.wakes.Some? then o.voice.value.wakes.value else o.wakeBaseline)
    && ShowsOnPage(p.status, k)
    && (k == 5 ==> p.quietDeadline == Some(w.now + 5.0) && !p.quietReady)
    && (k == 8 ==> p.phase == AnswerPhase
                   && p.databaseBefore == if w.attempt.AttemptSnapshot? then Some(w.attempt.database) else o.databaseBefore)
  }

  /** A failed result for this gate and this reason, and restoration because of it. */
  ghost predicate FailedFor(o: Orch, p: Orch, key: GateKey, failure: Failure) {
    && |p.gateResults| == |o.gateResults| + 1 && p.gateResults[..|o.gateResults|] == o.gateResults
    && p.gateResults[|o.gateResults|].gate == key && !p.gateResults[|o.gateResults|].passed
    && p.gateResults[|o.gateResults|].failure == Some(failure)
    && p.restoreCalls == o.restoreCalls + [PhysicalGateFailed(key)]
  }

  /** After the gate with this number: the next one, the end, or restoration for want of what the next one needs. */
  ghost predicate GoesOn(o: Orch, p: Orch, k: int, next: NextGate, w: World)
    requires 0 <= k < 10
  {
    if k == 9 then p.gateResults == o.gateResults && p.restoreCalls == o.restoreCalls + [AllPhysicalGatesCompleted]
    else if k == 1 && !CanBeAskedAbout(next.playback) then FailedFor(o, p, LearningOutput, PlaybackIdentityUnavailable)
    else if k == 7 && w.attempt.AttemptRaised? then
      p.gateResults == o.gateResults && p.restoreCalls == o.restoreCalls + [AssessmentDatabaseUnavailable]
    else Shown(o, p, k + 1, next, w)
  }

  lemma FailingAnswers(o: Orch, failure: Failure, w: World)
    requires FlowOk(o.flow) && o.flow.state == StartSpeaking && !InRestoration(o.lifecycle) && !o.restoreRequested
    ensures o.flow.IndexInRange() && 0 <= o.flow.gateIndex < 10
    ensures FailedFor(o, o.FailGate(failure, w), DEFAULT_GATES[o.flow.gateIndex].key, failure)
  {
    hide FlowOk, Orch.RecordGate, Orch.RestoreOnce, Orch.Enter, DisplayModel;
    FlowOkInRange(o.flow);
    RecordKeepsFlow(o.flow, false, w.now);
    RecordGatePromise(o, false, Some(failure), None, w);
    VerdictKeepsRequest(o, false, Some(failure), None, w);
    FailGateUnfolds(o, failure, w);
    RestoreOncePromise(o.RecordGate(false, Some(failure), None, w).0,
                       PhysicalGateFailed(DEFAULT_GATES[o.flow.gateIndex].key), w);
  }

  /** The gate with this number has been published, and whatever belongs to it alone prepared. */
  ghost predicate Presented(o: Orch, p: Orch, k: int, w: World)
    requires 0 <= k < 10
  {
    && p.flow == o.flow && p.lifecycle == LStartSpeakingNow && p.restoreCalls == o.restoreCalls
    && p.gateResults == o.gateResults && p.playback == o.playback && p.gateStartedSequence == o.gateStartedSequence
    && p.wakeBaseline == o.wakeBaseline && ShowsOnPage(p.status, k)
    && (k == 5 ==> p.quietDeadline == Some(w.now + 5.0) && !p.quietReady)
    && (k == 8 ==> p.phase == AnswerPhase
                   && p.databaseBefore == if w.attempt.AttemptSnapshot? then Some(w.attempt.database) else o.databaseBefore)
  }

  lemma ShowMeans(o: Orch, k: int)
    requires 0 <= k < 10
    ensures var p := o.Show(DEFAULT_GATES[k]); p == o.(status := p.status) && ShowsOnPage(p.status, k)
  {
    hide Orch.Snapshot;
    QuietGateIsFifth(k);
  }

  lemma PrepareMeans(o: Orch, k: int, w: World)
    requires 0 <= k < 10
    ensures var p := o.Prepare(DEFAULT_GATES[k].key, w);
            && p == o.(phase := p.phase, databaseBefore := p.databaseBefore, quietReady := p.quietReady,
                        quietDeadline := p.quietDeadline)
            && (k == 5 ==> p.quietDeadline == Some(w.now + 5.0) && !p.quietReady)
            && (k == 8 ==> p.phase == AnswerPhase
                           && p.databaseBefore == if w.attempt.AttemptSnapshot? then Some(w.attempt.database)
                                                    else o.databaseBefore)
  {
    QuietGateIsFifth(k);
  }

  lemma PresentingAnswers(o: Orch, k: int, w: World)
    requires 0 <= k < 10 && !o.restoreRequested
    ensures var p := o.Present(DEFAULT_GATES[k], w).0;
            if k == 8 && w.attempt.AttemptRaised? then
              p.gateResults == o.gateResults && p.restoreCalls == o.restoreCalls + [AssessmentDatabaseUnavailable]
            else Presented(o, p, k, w)
  {
    hide Orch.RestoreOnce, Orch.Prepare, Orch.Show, ShowsOnPage;
    QuietGateIsFifth(k);
    var shown := o.(lifecycle := LStartSpeakingNow);
    RestoringAdds(shown.(phase := AnswerPhase), AssessmentDatabaseUnavailable, w);
    RestoringTakesNothing(shown.(phase := AnswerPhase), AssessmentDatabaseUnavailable, w);
    PrepareMeans(shown, k, w);
    ShowMeans(shown.Prepare(DEFAULT_GATES[k].key, w), k);
  }

  /** What was aimed and then presented is shown. */
  lemma PresentedIsShown(o: Orch, g: Flow, next: NextGate, p: Orch, k: int, w: World)
    requires 0 <= k < 10 && g.state == StartSpeaking && g.gateIndex == k && g.gateStartedAt == Some(w.now)
    requires Presented(o.(flow := g).Aim(next), p, k, w)
    ensures Shown(o, p, k, next, w)
  {
    hide ShowsOnPage;
  }

  lemma AimFrame(o: Orch, g: Flow, next: NextGate)
    ensures var a := o.(flow := g).Aim(next);
            && a.flow == g && a.gateResults == o.gateResults && a.restoreCalls == o.restoreCalls
            && a.restoreRequested == o.restoreRequested && a.lifecycle == o.lifecycle
  {
  }

  lemma IdentifiedMeans(p: Playback)
    ensures Identified(p) <==> CanBeAskedAbout(p)
  {
  }

  lemma EndingAnswers(o: Orch, g: Flow, w: World)
    requires !o.restoreRequested
    ensures var p := o.(flow := g).RestoreOnce(AllPhysicalGatesCompleted, w);
            p.gateResults == o.gateResults && p.restoreCalls == o.restoreCalls + [AllPhysicalGatesCompleted]
  {
    hide Orch.RestoreOnce;
    RestoringAdds(o.(flow := g), AllPhysicalGatesCompleted, w);
    RestoringTakesNothing(o.(flow := g), AllPhysicalGatesCompleted, w);
  }

  lemma ShowingAnswers(o: Orch, next: NextGate, w: World)
    requires FlowOk(o.flow) && o.flow.state == GateResult && !InRestoration(o.lifecycle) && !o.restoreRequested
    requires 0 <= o.flow.gateIndex < 10
    ensures o.flow.IndexInRange()
    ensures GoesOn(o, o.ShowNextGate(next, w).0, o.flow.gateIndex, next, w)
  {
    hide FlowOk, ShowsOnPage, Shown, Presented, CanBeAskedAbout, Identified, InRestoration, FailedFor,
      Orch.FailGate, Orch.RestoreOnce, Orch.Present, Orch.Aim, Flow.SpeakingPrompt;
    FlowOkInRange(o.flow);
    PromptKeepsFlow(o.flow, w.now);
    IdentifiedMeans(next.playback);
    var (prompted, gate) := o.flow.SpeakingPrompt(w.now);
    var aimed := o.(flow := prompted).Aim(next);
    AimFrame(o, prompted, next);
    if gate.None? {
      EndingAnswers(o, prompted, w);
    } else {
      var k := o.flow.gateIndex + 1;
      QuietGateIsFifth(k);
      if gate.value.key == LearningOutput && !Identified(next.playback) {
        FailingAnswers(aimed, PlaybackIdentityUnavailable, w);
        SameFailure(o, aimed, aimed.FailGate(PlaybackIdentityUnavailable, w), LearningOutput, PlaybackIdentityUnavailable);
      } else {
        PresentingAnswers(aimed, k, w);
        if k != 8 || !w.attempt.AttemptRaised? {
          PresentedIsShown(o, prompted, next, aimed.Present(DEFAULT_GATES[k], w).0, k, w);
        }
      }
    }
  }

  lemma SameFailure(o: Orch, a: Orch, p: Orch, key: GateKey, failure: Failure)
    requires FailedFor(a, p, key, failure) && a.gateResults == o.gateResults && a.restoreCalls == o.restoreCalls
    ensures FailedFor(o, p, key, failure)
  {
  }

  // ---------- judging the gate shown ----------

  /** The verdict that the evidence on the gate with this number calls for; after 240 seconds it is too late. */
  ghost predicate CalledFor(o: Orch, k: int, database: Option<Database>, now: real, v: Verdict)
    requires 0 <= k < 10
  {
    var since := o.EventsSinceGate();
    if o.flow.gateStartedAt.Some? && now - o.flow.gateStartedAt.value >= 240.0 then v == Fail(TimedOut)
    else
      && (k == 0 || k == 6 ==>
            JudgesWake(since, if o.voice.Some? then o.voice.value else VoiceHealth(None, false), o.wakeBaseline, v))
      && (k == 1 ==> JudgesLesson(since, IsApproved(o.readiness), v)
                     && (v == PassWithoutTurn <==> LessonGiven(since) && IsApproved(o.readiness) && AnswerWithoutTurn(since)))
      && (k == 2 ==> v == if PlaybackOver(since, o.playback) then Fail(NotConfirmedDuringPlayback) else Wait)
      && (k == 3 ==> JudgesBargeIn(since, o.playback, v))
      && (k == 4 ==> JudgesStop(since, o.playback, v))
      && (k == 5 ==> JudgesQuiet(since, o.stopSequence, o.quietReady, o.quietDeadline, now, v))
      && (k == 7 ==> JudgesProgress(since, v))
      && (k == 8 && o.phase == AnswerPhase ==> v == if AsksToSubmit(since) then AskConfirmation else Wait)
      && (k == 8 && o.phase == ConfirmPhase ==> JudgesAttempt(since, o.databaseBefore, database, v))
      && (k == 9 ==> v == Wait)
  }

  predicate IsApproved(readiness: Option<Readiness>) {
    readiness.Some? && readiness.value.pocketAnna && readiness.value.qwenHttp200
  }

  ghost predicate JudgesWake(since: seq<RuntimeEvent>, voice: VoiceHealth, baseline: int, v: Verdict) {
    && (v == Pass(NextGate(None, NO_PLAYBACK)) <==> WokenOnce(since, voice, baseline))
    && (v == Fail(ExtraWake) <==> (if voice.wakes.Some? then voice.wakes.value else 0) >= baseline + 2)
    && (v == Wait || v == Fail(ExtraWake) || v == Pass(NextGate(None, NO_PLAYBACK)))
  }

  ghost predicate JudgesQuiet(since: seq<RuntimeEvent>, stop: Option<int>, ready: bool, deadline: Option<real>,
                               now: real, v: Verdict) {
    v == if deadline.None? then Wait
         else if SpeechSinceStop(since, if stop.Some? then stop.value else 0) then Fail(SpeechAfterStop)
         else if !ready && deadline.value <= now then QuietConfirmed else Wait
  }

  ghost predicate JudgesProgress(since: seq<RuntimeEvent>, v: Verdict) {
    v == if SaidOtherwise(since, ProgressQuestion) then Fail(WrongTranscript)
         else if !ProgressTold(since) then Wait
         else if !ReadAfterAsked(since) then Fail(ReadBeforeTranscript)
         else Pass(NextGate(None, NO_PLAYBACK))
  }

  ghost predicate JudgesAttempt(since: seq<RuntimeEvent>, before: Option<Database>, after: Option<Database>, v: Verdict) {
    v == if !Submitted(since) then Wait
         else if GainedAttempt(before, after) then Pass(NextGate(None, NO_PLAYBACK)) else Fail(AttemptNotRecorded)
  }

  lemma DecisionIsCalledFor(o: Orch, database: Option<Database>, now: real)
    requires o.flow.gates == DEFAULT_GATES && 0 <= o.flow.gateIndex < 10
    ensures CalledFor(o, o.flow.gateIndex, database, now, o.Decide(database, now))
  {
    hide Orch.Decide, DecideWake, DecideContinuation, DecideLearningOutput, DecideBargeIn, DecideSpokenStop, DecideProgress,
      DecideAnswer, DecideConfirmation, DecideQuiet, WokenOnce, LessonGiven, PlaybackOver, ProgressTold, ReadAfterAsked,
      Submitted, GainedAttempt, JudgesLesson, JudgesBargeIn, JudgesStop, SaidOtherwise, AnswerWithoutTurn, SpeechSinceStop,
      AsksToSubmit, Orch.EventsSinceGate;
    var since := o.EventsSinceGate();
    GateIsJudged(o, database, now);
    WakeMeans(since, o.voice.GetOr(VoiceHealth(None, false)), o.wakeBaseline);
    LessonMeans(since, o.Approved());
    WithoutTurnMeans(since, o.Approved());
    OutputMeans(since, o.playback);
    BargeInMeans(since, o.playback);
    StopMeans(since, o.playback);
    QuietMeans(since, o.stopSequence.GetOr(0), o.quietReady, o.quietDeadline.GetOr(0.0), now);
    ProgressMeans(since);
    AnswerMeans(since);
    ConfirmationMeans(since, o.databaseBefore, database);
  }

  /** What a verdict on the gate with this number does. */
  ghost predicate FollowsVerdict(o: Orch, p: Orch, k: int, v: Verdict, w: World)
    requires 0 <= k < 10
  {
    match v
    case Wait => p == o
    case Fail(failure) => FailedFor(o, p, DEFAULT_GATES[k].key, failure)
    case Pass(next) => exists q :: Recorded(o, q, true) && GoesOn(q, p, k, next, w)
    case PassStopped(stop) =>
      p.stopSequence == Some(stop)
      && exists q :: Recorded(o, q, true)
                     && GoesOn(q.(stopSequence := Some(stop), quietDeadline := Some(w.now + 5.0), quietReady := false), p, k,
                               NextGate(Some(stop), NO_PLAYBACK), w)
    case PassWithoutTurn =>
      exists q :: Recorded(o, q, true) && p.gateResults == q.gateResults
                  && p.restoreCalls == o.restoreCalls + [PhysicalGateFailed(DEFAULT_GATES[k].key)]
    case AskConfirmation =>
      && p.phase == ConfirmPhase && p.lifecycle == LStartSpeakingNow
      && p.flow == o.flow.(gateStartedAt := Some(w.now)) && p.gateStartedSequence == o.eventSequence + 1
      && p.gateResults == o.gateResults && p.restoreCalls == o.restoreCalls
      && p.status.prompt == Some(Prompt(IsolatedAssessment, Some("Yes"))) && p.status.operatorState == FlowText(StartSpeaking)
    case QuietConfirmed =>
      && p.quietReady && p.flow == o.flow && p.gateResults == o.gateResults && p.restoreCalls == o.restoreCalls
      && p.status.operatorState == WaitingOwnerConfirmation && p.status.ownerAction == Some(ConfirmNoStalePlayback)
      && p.status.prompt == Some(Prompt(NoStalePlayback, None))
  }

  /** A verdict on the gate shown is recorded, whatever it rests on. */
  lemma IsRecorded(o: Orch, d: Option<Database>, w: World)
    requires FlowOk(o.flow) && o.flow.state == StartSpeaking && ResultsMatch(o.gateResults, o.flow.latencies)
    ensures o.flow.IndexInRange() && 0 <= o.flow.gateIndex < 10
    ensures var (q, ok) := o.RecordGate(true, None, d, w);
            && ok && FlowOk(q.flow) && Recorded(o, q, true) && q.lifecycle == LGateResult
  {
    hide FlowOk, ResultsMatch, Orch.RecordGate, Orch.Enter, Flow.RecordGateResult;
    FlowOkInRange(o.flow);
    RecordKeepsFlow(o.flow, true, w.now);
    ResultsCount(o.gateResults, o.flow.latencies);
    var r := RecordGateUnfolds(o, true, None, d, w);
    var recorded := o.(flow := o.flow.RecordGateResult(true, w.now).0, gateResults := o.gateResults + [r]);
    EnterFrame(recorded, LGateResult);
    assert recorded.gateResults[..|o.gateResults|] == o.gateResults && recorded.gateResults[|o.gateResults|] == r;
  }

  lemma PassFollows(o: Orch, next: NextGate, d: Option<Database>, w: World)
    requires FlowOk(o.flow) && o.flow.state == StartSpeaking && ResultsMatch(o.gateResults, o.flow.latencies)
    requires !o.restoreRequested
    ensures o.flow.IndexInRange() && 0 <= o.flow.gateIndex < 10
    ensures var (q, ok) := o.RecordGate(true, None, d, w);
            && ok && q.flow.IndexInRange()
            && FollowsVerdict(o, q.ShowNextGate(next, w).0, o.flow.gateIndex, Pass(next), w)
  {
    hide FlowOk, ResultsMatch, GoesOn, Orch.RecordGate, Orch.ShowNextGate;
    IsRecorded(o, d, w);
    var q := o.RecordGate(true, None, d, w).0;
    FlowOkInRange(q.flow);
    ShowingAnswers(q, next, w);
  }

  lemma StoppedFollows(o: Orch, stop: int, d: Option<Database>, w: World)
    requires FlowOk(o.flow) && o.flow.state == StartSpeaking && ResultsMatch(o.gateResults, o.flow.latencies)
    requires !o.restoreRequested
    ensures o.flow.IndexInRange() && 0 <= o.flow.gateIndex < 10
    ensures var (q, ok) := o.RecordGate(true, None, d, w);
            && ok && q.flow.IndexInRange()
            && var p := q.NoteStop(stop, w.now).ShowNextGate(NextGate(Some(stop), NO_PLAYBACK), w).0;
               FollowsVerdict(o, p, o.flow.gateIndex, PassStopped(stop), w)
  {
    hide FlowOk, ResultsMatch, GoesOn, Orch.RecordGate, Orch.ShowNextGate;
    IsRecorded(o, d, w);
    var q := o.RecordGate(true, None, d, w).0;
    FlowOkInRange(q.flow);
    var noted := q.NoteStop(stop, w.now);
    ShowingAnswers(noted, NextGate(Some(stop), NO_PLAYBACK), w);
    ShowingKeepsStop(noted, NextGate(Some(stop), NO_PLAYBACK), w);
  }

  lemma RestoringKeepsStop(o: Orch, reason: AbortReason, w: World)
    ensures o.RestoreOnce(reason, w).stopSequence == o.stopSequence
  {
    hide AbortedFlow, Orch.Leave, Orch.LaunchFailed;
    var left := o.Leave(AbortedFlow(o.flow, reason, w.now), reason);
    LeavingKeepsStop(o, AbortedFlow(o.flow, reason, w.now), reason);
    ReportingKeepsStop(left);
  }

  lemma LeavingKeepsStop(o: Orch, g: Flow, reason: AbortReason)
    ensures o.Leave(g, reason).stopSequence == o.stopSequence
  {
    hide Orch.Snapshot;
  }

  lemma ReportingKeepsStop(o: Orch)
    ensures o.LaunchFailed().stopSequence == o.stopSequence
  {
    hide Orch.Snapshot;
  }

  lemma FailingKeepsStop(o: Orch, failure: Failure, w: World)
    requires o.flow.IndexInRange()
    ensures o.FailGate(failure, w).stopSequence == o.stopSequence
  {
    hide Orch.RestoreOnce, Orch.EvidenceNow, Orch.Snapshot, Flow.RecordGateResult;
    if o.CurrentGate().Some? {
      RestoringKeepsStop(o.RecordGate(false, Some(failure), None, w).0, PhysicalGateFailed(o.CurrentGate().value), w);
    }
  }

  lemma PresentingKeepsStop(o: Orch, gate: Gate, w: World)
    ensures o.Present(gate, w).0.stopSequence == o.stopSequence
  {
    hide Orch.RestoreOnce, Orch.Prepare, Orch.Show;
    var shown := o.(lifecycle := LStartSpeakingNow);
    RestoringKeepsStop(shown.(phase := AnswerPhase), AssessmentDatabaseUnavailable, w);
    PrepareFrame(shown, gate.key, w);
    ShowFrame(shown.Prepare(gate.key, w), gate);
  }

  lemma ShowingKeepsStop(o: Orch, next: NextGate, w: World)
    requires o.flow.IndexInRange()
    ensures o.ShowNextGate(next, w).0.stopSequence == o.stopSequence
  {
    hide Flow.SpeakingPrompt, Orch.RestoreOnce, Orch.FailGate, Orch.Present, Identified;
    var (prompted, gate) := o.flow.SpeakingPrompt(w.now);
    RestoringKeepsStop(o.(flow := prompted), AllPhysicalGatesCompleted, w);
    var aimed := o.(flow := prompted).Aim(next);
    FailingKeepsStop(aimed, PlaybackIdentityUnavailable, w);
    if gate.Some? {
      PresentingKeepsStop(aimed, gate.value, w);
    }
  }

  lemma TurnlessFollows(o: Orch, d: Option<Database>, w: World)
    requires FlowOk(o.flow) && o.flow.state == StartSpeaking && ResultsMatch(o.gateResults, o.flow.latencies)
    requires !o.restoreRequested
    ensures o.flow.IndexInRange() && 0 <= o.flow.gateIndex < 10
    ensures var (q, ok) := o.RecordGate(true, None, d, w);
            && ok && q.flow.IndexInRange()
            && FollowsVerdict(o, q.FailGate(TurnIdentityUnavailable, w), o.flow.gateIndex, PassWithoutTurn, w)
  {
    hide FlowOk, ResultsMatch, Orch.RecordGate, Orch.FailGate, Orch.RestoreOnce;
    IsRecorded(o, d, w);
    var q := o.RecordGate(true, None, d, w).0;
    FlowOkInRange(q.flow);
    NothingRecorded(q, false, Some(TurnIdentityUnavailable), None, w);
    FailGateUnfolds(q, TurnIdentityUnavailable, w);
    RestoringAdds(q, PhysicalGateFailed(DEFAULT_GATES[o.flow.gateIndex].key), w);
    RestoringTakesNothing(q, PhysicalGateFailed(DEFAULT_GATES[o.flow.gateIndex].key), w);
  }

  /** The database that is judged: the one handed in, or else what the candidate says now. */
  predicate IsJudged(d: Option<Database>, database: Option<Database>, w: World) {
    && (database.Some? ==> d == database)
    && (database.None? && w.attempt.AttemptSnapshot? ==> d == Some(w.attempt.database))
    && (database.None? && !w.attempt.AttemptSnapshot? ==> d.None?)
  }

  /** The events of the gate are those numbered from its start, and they are the newest. */
  ghost predicate CountsFrom(events: seq<RuntimeEvent>, from: int, since: seq<RuntimeEvent>) {
    exists j ::
      && 0 <= j <= |events| && since == events[j..]
      && (forall k :: 0 <= k < j ==> events[k].sequence < from)
      && (forall k :: j <= k < |events| ==> events[k].sequence >= from)
  }

  lemma {:induction false} SinceKeeps(events: seq<RuntimeEvent>, from: int)
    ensures forall k :: 0 <= k < |Since(events, from)| ==> Since(events, from)[k].sequence >= from
  {
    if events != [] {
      SinceKeeps(events[..|events| - 1], from);
    }
  }

  lemma SinceCounts(events: seq<RuntimeEvent>, from: int)
    requires Increasing(events)
    ensures CountsFrom(events, from, Since(events, from))
  {
    hide Since, Increasing;
    var j := SinceIsSuffix(events, from);
    SinceKeeps(events, from);
    assert forall k :: j <= k < |events| ==> events[k] == events[j..][k - j];
  }

  lemma GateCounts(o: Orch)
    requires StreamOk(o.events, o.observed, o.eventSequence)
    ensures CountsFrom(o.events, o.gateStartedSequence, o.EventsSinceGate())
  {
    hide Since, CountsFrom;
    SuffixIncreases(o.observed, o.events, |o.observed| - |o.events|);
    SinceCounts(o.events, o.gateStartedSequence);
  }

  /** Judging the gate that is shown, if one is: the verdict that its evidence calls for, and what follows from it. */
  ghost predicate AnswersEvaluation(o: Orch, p: Orch, database: Option<Database>, w: World) {
    if o.flow.state != StartSpeaking then p == o
    else
      && 0 <= o.flow.gateIndex < 10 && CountsFrom(o.events, o.gateStartedSequence, o.EventsSinceGate())
      && exists d, v :: IsJudged(d, database, w) && CalledFor(o, o.flow.gateIndex, d, w.now, v)
                        && FollowsVerdict(o, p, o.flow.gateIndex, v, w)
  }

  lemma ShownIsAnswered(o: Orch, database: Option<Database>, w: World)
    requires Core(o) && Settled(o) && !InRestoration(o.lifecycle)
    ensures o.flow.IndexInRange()
    ensures AnswersEvaluation(o, o.Evaluate(database, w), database, w)
  {
    hide Core, Settled, FlowOk, ResultsMatch, CalledFor, CountsFrom, FollowsVerdict, Orch.Decide, Orch.FailGate,
      Orch.RecordGate, Orch.ShowNextGate, Orch.NoteStop, Orch.AskForYes, Orch.ConfirmQuiet, Orch.EventsSinceGate;
    CoreParts(o);
    GateCounts(o);
    FlowOkInRange(o.flow);
    var d := o.Judged(database, w);
    var v := o.Decide(d, w.now);
    if o.flow.state == StartSpeaking {
      StartSpeakingCounts(o.flow);
      DecisionIsCalledFor(o, d, w.now);
      VerdictIsFollowed(o, database, w);
      assert IsJudged(d, database, w);
    } else {
      SettledShowsNone(o);
      VerdictOfGate(o, d, w.now);
    }
  }

  lemma EvaluationAnswers(o: Orch, database: Option<Database>, w: World)
    requires Inv(o) && !InRestoration(o.lifecycle)
    ensures o.flow.IndexInRange()
    ensures AnswersEvaluation(o, o.Evaluate(database, w), database, w)
  {
    hide Core, Settled, QuietGateOk, AnswersEvaluation, Orch.Evaluate;
    ShownIsAnswered(o, database, w);
  }

  lemma CoreParts(o: Orch)
    requires Core(o)
    ensures FlowOk(o.flow) && ResultsMatch(o.gateResults, o.flow.latencies) && StreamOk(o.events, o.observed, o.eventSequence)
    ensures !InRestoration(o.lifecycle) ==> !o.restoreRequested && !Leaving(o.flow.state)
  {
    hide FlowOk, ResultsMatch, OnlyLastCanFail, CompletionClaim, ProperStarts, StreamOk, StopProven, AllFounded, QuietTimed,
      OnceOk, CueOk, AllPassed;
  }

  lemma SettledShowsNone(o: Orch)
    requires Settled(o) && FlowOk(o.flow) && o.flow.state != StartSpeaking && !Leaving(o.flow.state)
    ensures o.CurrentGate().None?
  {
    NoGateBeforeStart(o);
  }

  lemma VerdictIsFollowed(o: Orch, database: Option<Database>, w: World)
    requires FlowOk(o.flow) && o.flow.state == StartSpeaking && ResultsMatch(o.gateResults, o.flow.latencies)
    requires !o.restoreRequested && !InRestoration(o.lifecycle)
    ensures o.flow.IndexInRange() && 0 <= o.flow.gateIndex < 10
    ensures var v := o.Decide(o.Judged(database, w), w.now);
            FollowsVerdict(o, o.Evaluate(database, w), o.flow.gateIndex, v, w)
  {
    hide FlowOk, ResultsMatch, FollowsVerdict, Orch.Decide, Orch.FailGate, Orch.RecordGate, Orch.ShowNextGate, Orch.NoteStop,
      Orch.AskForYes, Orch.ConfirmQuiet;
    FlowOkInRange(o.flow);
    StartSpeakingCounts(o.flow);
    var d := o.Judged(database, w);
    match o.Decide(d, w.now) {
      case Wait => StillFollows(o, w);
      case Fail(failure) =>
        FailingAnswers(o, failure, w);
        FailureFollows(o, o.FailGate(failure, w), failure, w);
      case Pass(next) => PassFollows(o, next, d, w);
      case PassStopped(stop) => StoppedFollows(o, stop, d, w);
      case PassWithoutTurn => TurnlessFollows(o, d, w);
      case AskConfirmation => PhasesFollow(o, w);
      case QuietConfirmed => PhasesFollow(o, w);
    }
  }

  lemma StillFollows(o: Orch, w: World)
    requires 0 <= o.flow.gateIndex < 10
    ensures FollowsVerdict(o, o, o.flow.gateIndex, Wait, w)
  {
  }

  lemma FailureFollows(o: Orch, p: Orch, failure: Failure, w: World)
    requires 0 <= o.flow.gateIndex < 10 && FailedFor(o, p, DEFAULT_GATES[o.flow.gateIndex].key, failure)
    ensures FollowsVerdict(o, p, o.flow.gateIndex, Fail(failure), w)
  {
  }

  lemma PhasesFollow(o: Orch, w: World)
    requires 0 <= o.flow.gateIndex < 10
    ensures FollowsVerdict(o, o.AskForYes(w.now), o.flow.gateIndex, AskConfirmation, w)
    ensures FollowsVerdict(o, o.ConfirmQuiet(w.now), o.flow.gateIndex, QuietConfirmed, w)
  {
  }

  // ---------- a delivery of events ----------

  /** The event has been seen: it has the newest number, and it is the newest of at most 2048 that are kept. */
  predicate HasSeen(o: Orch, q: Orch, e: RuntimeEvent) {
    && q == o.(eventSequence := e.sequence, observed := o.observed + [e], events := q.events)
    && q.events == (if |o.events| >= 2048 then o.events[|o.events| - 2047..] else o.events) + [e]
  }

  /** Speech after the stop, while the quiet after it is awaited. */
  predicate BreaksQuiet(o: Orch, e: RuntimeEvent) {
    && o.flow.gateIndex == 5 && o.stopSequence.Some? && e.sequence > o.stopSequence.value
    && (e.kind == SpeechStarted || e.kind == SpeechCompleted)
  }

  /** An event that is not new is passed over.  A new one is seen, and then fails the quiet gate at once or has the
      gate shown judged; the rest of the delivery is not looked at once restoration has begun. */
  ghost predicate AnswersEvent(o: Orch, p: Orch, done: bool, e: RuntimeEvent, database: Option<Database>, w: World) {
    if e.sequence <= o.eventSequence then p == o && !done
    else exists q ::
      && HasSeen(o, q, e)
      && if BreaksQuiet(o, e) then done && FailedFor(q, p, NoStalePlayback, SpeechAfterStop)
         else (done <==> InRestoration(p.lifecycle)) && AnswersEvaluation(q, p, database, w)
  }

  lemma EventAnswers(o: Orch, e: RuntimeEvent, database: Option<Database>, w: World)
    requires Inv(o) && !InRestoration(o.lifecycle)
    ensures o.flow.IndexInRange()
    ensures var (p, done) := o.ObserveOne(e, database, w); AnswersEvent(o, p, done, e, database, w)
  {
    hide Core, Settled, QuietGateOk, FlowOk, AnswersEvaluation, FailedFor, BreaksQuiet, HasSeen, Orch.Append, Orch.FailGate,
      Orch.Evaluate, Orch.CurrentGate;
    InvInRange(o);
    BreakingMeans(o, e);
    if e.sequence > o.eventSequence {
      var q := o.Append(e);
      AppendMeans(o, e);
      AppendFrame(o, e);
      AppendKeepsCore(o, e);
      if BreaksQuiet(o, e) {
        BreakingAnswers(o, e, w);
      } else {
        ShownIsAnswered(q, database, w);
      }
    }
  }

  lemma BreakingAnswers(o: Orch, e: RuntimeEvent, w: World)
    requires Core(o.Append(e)) && Settled(o.Append(e)) && !InRestoration(o.lifecycle) && BreaksQuiet(o, e)
    ensures o.Append(e).flow.IndexInRange()
    ensures FailedFor(o.Append(e), o.Append(e).FailGate(SpeechAfterStop, w), NoStalePlayback, SpeechAfterStop)
  {
    hide Core, Settled, FlowOk, ResultsMatch, StreamOk, FailedFor, Orch.Append, Orch.FailGate;
    var q := o.Append(e);
    AppendFrame(o, e);
    CoreParts(q);
    QuietIsShown(q);
    QuietGateIsFifth(5);
    FailingAnswers(q, SpeechAfterStop, w);
  }

  lemma BreakingMeans(o: Orch, e: RuntimeEvent)
    requires FlowOk(o.flow)
    ensures BreaksQuiet(o, e) <==>
              && o.stopSequence.Some? && e.sequence > o.stopSequence.value && e.Speech()
              && o.CurrentGate() == Some(NoStalePlayback)
  {
    hide LogExplainsState;
  }

  lemma AppendMeans(o: Orch, e: RuntimeEvent)
    ensures HasSeen(o, o.Append(e), e)
  {
    if |o.events| >= 2048 {
      assert (o.events + [e])[|o.events| - 2047..] == o.events[|o.events| - 2047..] + [e];
    }
  }

  lemma QuietIsShown(o: Orch)
    requires Settled(o) && FlowOk(o.flow) && !Leaving(o.flow.state) && o.flow.gateIndex == 5
    ensures o.flow.state == StartSpeaking
  {
    hide AllPassed;
    if o.flow.state != StartSpeaking {
      SettledShowsNone(o);
    }
    assert o.flow.gates == DEFAULT_GATES;
  }

  /** The events of a delivery are answered one after the other, and the gate shown is judged once more at the end. */
  ghost predicate AnswersBatch(o: Orch, p: Orch, batch: seq<RuntimeEvent>, database: Option<Database>, w: World)
    decreases |batch|
  {
    if batch == [] then AnswersEvaluation(o, p, database, w)
    else exists q, done ::
      && AnswersEvent(o, q, done, batch[0], database, w)
      && if done then p == q else AnswersBatch(q, p, batch[1..], database, w)
  }

  lemma {:induction false} BatchAnswers(o: Orch, batch: seq<RuntimeEvent>, database: Option<Database>, w: World)
    requires Inv(o) && !InRestoration(o.lifecycle)
    ensures o.flow.IndexInRange()
    ensures AnswersBatch(o, o.ObserveBatch(batch, database, w), batch, database, w)
    decreases |batch|
  {
    hide Core, Settled, QuietGateOk, AnswersEvaluation, AnswersEvent, Orch.Evaluate, Orch.ObserveOne;
    InvInRange(o);
    if batch == [] {
      EvaluationAnswers(o, database, w);
    } else {
      EventAnswers(o, batch[0], database, w);
      ObserveOneKeeps(o, batch[0], database, w);
      var (q, done) := o.ObserveOne(batch[0], database, w);
      if !done {
        BatchAnswers(q, batch[1..], database, w);
      }
    }
  }

  function Numbered(events: seq<RuntimeEvent>, n: int): seq<RuntimeEvent> {
    if events == [] then []
    else
      var last := |events| - 1;
      Numbered(events[..last], n) + if events[last].sequence == n then [events[last]] else []
  }

  /** In order of the numbers, with the events of each number as they were delivered. */
  ghost predicate InOrder(batch: seq<RuntimeEvent>, delivered: seq<RuntimeEvent>) {
    Sorted(batch) && multiset(batch) == multiset(delivered) && forall n :: Numbered(batch, n) == Numbered(delivered, n)
  }

  lemma {:induction false} InsertionIsStable(e: RuntimeEvent, sorted: seq<RuntimeEvent>, n: int)
    ensures Numbered(InsertBySequence(e, sorted), n) == Numbered(sorted + [e], n)
  {
    assert (sorted + [e])[..|sorted|] == sorted;
    if sorted != [] && sorted[|sorted| - 1].sequence > e.sequence {
      var front, last := sorted[..|sorted| - 1], sorted[|sorted| - 1];
      InsertionIsStable(e, front, n);
      assert (InsertBySequence(e, front) + [last])[..|sorted|] == InsertBySequence(e, front);
      assert (front + [e])[..|front|] == front;
    }
  }

  lemma {:induction false} SortIsStable(delivered: seq<RuntimeEvent>, n: int)
    ensures Numbered(SortedBySequence(delivered), n) == Numbered(delivered, n)
  {
    hide InsertBySequence;
    if delivered != [] {
      var last := |delivered| - 1;
      var front := SortedBySequence(delivered[..last]);
      SortIsStable(delivered[..last], n);
      InsertionIsStable(delivered[last], front, n);
      assert (front + [delivered[last]])[..last] == front;
    }
  }

  lemma SortingOrders(delivered: seq<RuntimeEvent>)
    ensures InOrder(SortedBySequence(delivered), delivered)
  {
    hide Sorted, Numbered, SortedBySequence;
    SortSorts(delivered);
    SortPermutes(delivered);
    forall n ensures Numbered(SortedBySequence(delivered), n) == Numbered(delivered, n) {
      SortIsStable(delivered, n);
    }
  }

  /** A delivery is looked at in order, with the health that came with it, unless restoration has begun or the session is
      no physical one. */
  ghost predicate AnswersDelivery(o: Orch, p: Orch, delivered: seq<RuntimeEvent>, health: Option<VoiceHealth>,
                                  database: Option<Database>, w: World) {
    if o.mode == Some(ResourceRequalification) then p == o
    else
      var q := o.(voice := if health.Some? then health else o.voice);
      if InRestoration(o.lifecycle) then p == q
      else exists batch :: InOrder(batch, delivered) && AnswersBatch(q, p, batch, database, w)
  }

  lemma DeliveryAnswers(o: Orch, delivered: seq<RuntimeEvent>, health: Option<VoiceHealth>, database: Option<Database>,
                        w: World)
    requires Inv(o)
    ensures o.flow.IndexInRange()
    ensures AnswersDelivery(o, o.ObserveRuntimeEvents(delivered, health, database, w), delivered, health, database, w)
  {
    hide Inv, InOrder, AnswersBatch, Orch.ObserveBatch, SortedBySequence;
    InvInRange(o);
    SortingOrders(delivered);
    VoiceIsFree(o, if health.Some? then health else o.voice);
    if !InRestoration(o.lifecycle) {
      BatchAnswers(o.(voice := if health.Some? then health else o.voice), SortedBySequence(delivered), database, w);
    }
  }

  // ---------- the owner's confirmations ----------

  /** A fresh confirmation of what the page asks for: for this session, under a number not used before, for the gate
      shown, and not more than half a minute old. */
  predicate MayConfirm(o: Orch, r: ObservationRequest, now: real) {
    && r.sessionId == Some(o.sessionId)
    && r.requestId.Some? && r.requestId.value != ""
    && (forall n :: 0 <= n < |o.observations| ==> o.observations[n].requestId != r.requestId.value)
    && r.action.Some? && o.status.ownerAction == r.action && o.status.operatorState == WaitingOwnerConfirmation
    && 0 <= o.flow.gateIndex < 10 && r.gate == Some(DEFAULT_GATES[o.flow.gateIndex].key)
    && r.requestedMonotonic.Some? && 0.0 <= now - r.requestedMonotonic.value <= 30.0
  }

  /** It names the playback that the gate is about, and that was heard to begin. */
  predicate NamesPlayback(o: Orch, r: ObservationRequest) {
    && o.playback.sequence.Some?
    && r.playbackSequence == o.playback.sequence && r.playbackId == o.playback.id && r.playbackTurnId == o.playback.turnId
    && exists n :: 0 <= n < |o.events| && SpeechBegins(o.events[n]) && o.events[n].sequence == o.playback.sequence.value
  }

  /** What is confirmed can be confirmed: the quiet once it was found, the playback while it lasts, the view at the end. */
  ghost predicate CanConfirm(o: Orch, r: ObservationRequest)
    requires r.action.Some?
  {
    match r.action.value
    case ConfirmNoStalePlayback => o.flow.gateIndex == 5 && o.quietReady
    case ConfirmLearningOutputAudible =>
      o.flow.gateIndex == 2 && NamesPlayback(o, r) && !PlaybackOver(o.EventsSinceGate(), o.playback)
    case ConfirmUiVoiceSync => o.flow.gateIndex == 9
  }

  /** It comes too late for the playback. */
  ghost predicate ComesTooLate(o: Orch, r: ObservationRequest)
    requires r.action.Some?
  {
    && r.action.value == ConfirmLearningOutputAudible && o.flow.gateIndex == 2 && NamesPlayback(o, r)
    && PlaybackOver(o.EventsSinceGate(), o.playback)
  }

  /** The answer to a confirmation. */
  ghost predicate AnswersConfirmation(o: Orch, p: Orch, ok: bool, r: ObservationRequest, w: World) {
    if !MayConfirm(o, r, w.now) then p == o && !ok
    else if ComesTooLate(o, r) then
      !ok && if InRestoration(o.lifecycle) then p == o else FailedFor(o, p, LearningOutput, NotConfirmedDuringPlayback)
    else if !CanConfirm(o, r) then p == o && !ok
    else
      && ok
      && var k := o.flow.gateIndex;
         var seen := o.(observations := o.observations
                          + [Observation(r.requestId.value, DEFAULT_GATES[k].key, r.action.value, w.now)]);
         exists q :: Recorded(seen, q, true)
                     && GoesOn(q, p, k, if k == 2 then NextGate(o.playback.sequence, o.playback.(sessionId := None))
                                        else NextGate(None, NO_PLAYBACK), w)
  }

  lemma CurrentConfirmationMeans(o: Orch, r: ObservationRequest, now: real)
    requires Inv(o)
    ensures o.ObservationIsCurrent(r, now) && r.action.Some? && o.CurrentGate().Some? <==> MayConfirm(o, r, now)
    ensures o.CurrentGate().Some? ==> 0 <= o.flow.gateIndex < 10 && o.CurrentGate() == Some(DEFAULT_GATES[o.flow.gateIndex].key)
  {
    hide Inv;
    InvInRange(o);
    FlowOkInRange(o.flow);
  }

  lemma NamingMeans(o: Orch, r: ObservationRequest)
    ensures o.NamesActivePlayback(r) <==> NamesPlayback(o, r)
  {
  }

  lemma CurrentNeedsGate(o: Orch, r: ObservationRequest, w: World)
    requires Inv(o) && !MayConfirm(o, r, w.now)
    ensures o.flow.IndexInRange()
    ensures o.ConsumeOwnerObservation(r, w) == (o, false)
  {
    hide Inv, Orch.NamesActivePlayback, Orch.PlaybackEnded, Orch.RecordGate, Orch.ShowNextGate, Orch.FailGate, Orch.RestoreOnce,
      Orch.Observe, Orch.CurrentGate, Orch.ObservationIsCurrent;
    InvInRange(o);
    CurrentConfirmationMeans(o, r, w.now);
  }

  lemma ConfirmationAnswers(o: Orch, r: ObservationRequest, w: World)
    requires Inv(o)
    ensures o.flow.IndexInRange()
    ensures var (p, ok) := o.ConsumeOwnerObservation(r, w); AnswersConfirmation(o, p, ok, r, w)
  {
    hide Inv, FlowOk, MayConfirm, NamesPlayback, PlaybackOver, FailedFor, GoesOn, Recorded, Orch.NamesActivePlayback,
      Orch.PlaybackEnded, Orch.RecordGate, Orch.ShowNextGate, Orch.FailGate, Orch.RestoreOnce, Orch.Observe, Orch.CurrentGate,
      Orch.ObservationIsCurrent, Orch.EventsSinceGate;
    InvInRange(o);
    if !MayConfirm(o, r, w.now) {
      CurrentNeedsGate(o, r, w);
    } else {
      CurrentConfirmationMeans(o, r, w.now);
      ConfirmableIsShown(o, r, w.now);
      NamingMeans(o, r);
      NotOverMeans(o);
      QuietGateIsFifth(o.flow.gateIndex);
      if InRestoration(o.lifecycle) {
        NothingFails(o, NotConfirmedDuringPlayback, w);
      } else {
        FailingAnswers(o, NotConfirmedDuringPlayback, w);
      }
      ConfirmedGoesOn(o, r, NextGate(None, NO_PLAYBACK), w);
      ConfirmedGoesOn(o, r, NextGate(o.playback.sequence, o.playback.(sessionId := None)), w);
    }
  }

  /** While a confirmation is awaited a gate is shown and nothing is restored. */
  lemma ConfirmableIsShown(o: Orch, r: ObservationRequest, now: real)
    requires Inv(o) && MayConfirm(o, r, now)
    ensures o.flow.state == StartSpeaking && !o.restoreRequested && FlowOk(o.flow)
    ensures ResultsMatch(o.gateResults, o.flow.latencies)
    ensures r.requestId.Some? && r.action.Some? && 0 <= o.flow.gateIndex < 10
  {
    hide FlowOk, ResultsMatch, OnlyLastCanFail, CompletionClaim, ProperStarts, StreamOk, StopProven, AllFounded, QuietTimed,
      OnceOk, CueOk, LifecycleOk, StopGateAimed, Settled, QuietGateOk;
  }

  lemma NothingFails(o: Orch, failure: Failure, w: World)
    requires o.flow.IndexInRange() && InRestoration(o.lifecycle)
    ensures o.FailGate(failure, w) == o
  {
    hide Orch.RecordGate, Orch.RestoreOnce;
  }

  lemma ObserveMeans(o: Orch, r: ObservationRequest, w: World)
    requires FlowOk(o.flow) && 0 <= o.flow.gateIndex < 10 && r.requestId.Some? && r.action.Some?
    ensures o.Observe(r, w) == o.(observations := o.observations
              + [Observation(r.requestId.value, DEFAULT_GATES[o.flow.gateIndex].key, r.action.value, w.now)])
  {
    hide Valid;
  }

  lemma ConfirmedGoesOn(o: Orch, r: ObservationRequest, next: NextGate, w: World)
    requires FlowOk(o.flow) && o.flow.state == StartSpeaking && ResultsMatch(o.gateResults, o.flow.latencies)
    requires !o.restoreRequested && 0 <= o.flow.gateIndex < 10 && r.requestId.Some? && r.action.Some?
    ensures var seen := o.(observations := o.observations
                             + [Observation(r.requestId.value, DEFAULT_GATES[o.flow.gateIndex].key, r.action.value, w.now)]);
            && seen == o.Observe(r, w) && seen.flow.IndexInRange()
            && var q := seen.RecordGate(true, None, None, w).0;
               && q.flow.IndexInRange() && Recorded(seen, q, true)
               && GoesOn(q, q.ShowNextGate(next, w).0, o.flow.gateIndex, next, w)
               && (o.flow.gateIndex == 9 ==> GoesOn(q, q.RestoreOnce(AllPhysicalGatesCompleted, w), 9, next, w))
  {
    hide FlowOk, ResultsMatch, GoesOn, Orch.RecordGate, Orch.ShowNextGate, Orch.RestoreOnce, Orch.Observe;
    ObserveMeans(o, r, w);
    var seen := o.Observe(r, w);
    IsRecorded(seen, None, w);
    var q := seen.RecordGate(true, None, None, w).0;
    FlowOkInRange(q.flow);
    ShowingAnswers(q, next, w);
    EndGoesOn(q, next, w);
  }

  lemma EndGoesOn(o: Orch, next: NextGate, w: World)
    requires !o.restoreRequested
    ensures GoesOn(o, o.RestoreOnce(AllPhysicalGatesCompleted, w), 9, next, w)
  {
    EndingAnswers(o, o.flow, w);
  }

  // ---------- the preparation ----------

  /** One step of the preparation: only when it is due, and then it goes on or asks for restoration, once. */
  predicate AnswersStep(o: Orch, p: Orch, ok: bool, from: Lifecycle, to: Lifecycle, given: bool, reason: AbortReason) {
    if o.lifecycle != from then p == o && !ok
    else if given then ok && p.lifecycle == to && p.restoreCalls == o.restoreCalls && !p.restoreRequested
    else !ok && p.lifecycle == LRestoring && p.restoreCalls == o.restoreCalls + [reason]
  }

  lemma PreparationCanGoOn(o: Orch)
    requires Inv(o) && !InRestoration(o.lifecycle)
    ensures !o.restoreRequested && StateFits(o.lifecycle, o.flow.state) && FlowOk(o.flow)
  {
    hide FlowOk, ResultsMatch, OnlyLastCanFail, CompletionClaim, ProperStarts, StreamOk, StopProven, AllFounded, QuietTimed,
      OnceOk, CueOk, WaitingOk, StopGateAimed, Settled, QuietGateOk;
  }

  lemma PreflightAnswers(o: Orch, passed: bool, w: World)
    requires Inv(o)
    ensures var (p, ok) := o.RecordPreflight(passed, w);
            AnswersStep(o, p, ok, LPreparing, LGuardedResourceStartup, passed, PreflightFailed)
  {
    hide Inv, FlowOk, Orch.RestoreOnce, Orch.Enter;
    if o.lifecycle == LPreparing {
      PreparationCanGoOn(o);
      EnterFrame(o, LPreflight);
      EnterFrame(o.Enter(LPreflight), LGuardedResourceStartup);
      RestoringAdds(o.Enter(LPreflight), PreflightFailed, w);
    }
  }

  lemma ResourceStartupAnswers(o: Orch, passed: bool, w: World)
    requires Inv(o)
    ensures var (p, ok) := o.QualifyResourceStartup(passed, w);
            AnswersStep(o, p, ok, LGuardedResourceStartup, LResourceStabilityVerified, passed, ResourceQualificationFailed)
  {
    hide Inv, FlowOk, Orch.RestoreOnce, Orch.Enter;
    if o.lifecycle == LGuardedResourceStartup {
      PreparationCanGoOn(o);
      RestoringAdds(o, ResourceQualificationFailed, w);
      EnterFrame(o.(flow := o.flow.BeginResourceCheck(w.now).0), LResourceStabilityVerified);
    }
  }

  lemma ArmingAnswers(o: Orch, timer: bool, manual: bool, controls: bool, w: World)
    requires Inv(o)
    ensures var (p, ok) := o.ArmRestoration(timer, manual, controls, w);
            && AnswersStep(o, p, ok, LResourceStabilityVerified, LRestorationArmed, timer && manual && controls,
                           RestorationSafeguardMissing)
            && (ok ==> p.flow.autoRestoreArmed && p.flow.independentAbortArmed && p.flow.resourceSafe
                       && p.status.manualRestoreVerified && p.status.operatorControlsPassed)
  {
    hide Inv, FlowOk, Orch.RestoreOnce, Orch.Armed, Flow.QualifyResources;
    if o.lifecycle == LResourceStabilityVerified {
      PreparationCanGoOn(o);
      var (g, ok) := o.flow.QualifyResources(timer && manual && controls, timer, manual, w.now);
      CheckingQualifies(o.flow, timer && manual && controls, timer, manual, w.now);
      RestoringAdds(o.(flow := g), RestorationSafeguardMissing, w);
      ArmedMeans(o.(flow := g), controls);
    }
  }

  lemma CheckingQualifies(f: Flow, safe: bool, autoRestore: bool, independentAbort: bool, now: real)
    requires f.state == ResourceCheck
    ensures var (g, ok) := f.QualifyResources(safe, autoRestore, independentAbort, now);
            && (ok <==> safe && autoRestore && independentAbort)
            && (ok ==> g.autoRestoreArmed && g.independentAbortArmed && g.resourceSafe)
  {
  }

  lemma ArmedMeans(o: Orch, controls: bool)
    ensures var p := o.Armed(controls);
            && p == o.(lifecycle := LRestorationArmed, status := p.status)
            && p.status.manualRestoreVerified && p.status.operatorControlsPassed == controls
  {
  }

  /** START is awaited exactly when the session is armed and the time is positive. */
  lemma AwaitingAnswers(o: Orch, ttl: real, mode: Mode, w: World)
    requires Inv(o)
    ensures var (p, ok) := o.AwaitOwnerStart(ttl, mode, w);
            && (ok <==> o.lifecycle == LRestorationArmed && ttl > 0.0)
            && (ok ==> p.lifecycle == LAwaitingOwnerStart && p.mode == Some(mode) && p.restoreCalls == o.restoreCalls
                       && p.status.rechecking == (mode == ResourceRequalification))
  {
    hide Inv, Orch.Enter;
    if o.lifecycle == LRestorationArmed {
      PreparationCanGoOn(o);
      QualifiedCanAwait(o.flow);
      EnterFrame(o.(flow := o.flow.AwaitOwnerStart(w.now, ttl).0, leaseDeadline := Some(w.now + ttl),
                     mode := Some(mode)), LAwaitingOwnerStart);
    }
  }

  lemma QualifiedCanAwait(f: Flow)
    requires FlowOk(f) && f.state == ResourceQualified
    ensures f.resourceSafe && f.autoRestoreArmed && f.independentAbortArmed
  {
    hide LogExplainsState;
  }
}
