/** What the caller of one orchestrator operation may rely on, beside the invariant: `o` is the state
    before the call and `p` the state after it. */
module OrchestratorPromises {
  import opened Prelude
  import opened PhysicalControl
  import opened FlowProperties
  import opened GateEvidence
  import opened Orchestrator
  import opened OperatorPage
  import opened OrchestratorRuns
  import opened OrchestratorLimits

  /** No verdict given and no owner confirmation taken. */
  ghost predicate NothingJudged(o: Orch, p: Orch) {
    p.gateResults == o.gateResults && p.observations == o.observations
  }

  /** Nothing accepted, observed, judged or confirmed. */
  ghost predicate NothingTaken(o: Orch, p: Orch) {
    && p.accepted == o.accepted && p.observed == o.observed && p.sessionId == o.sessionId
    && p.lastRequestId == o.lastRequestId && p.handoffCalls == o.handoffCalls && NothingJudged(o, p)
  }

  // ---------- restoring ----------

  /** Restoration is asked for with this reason, unless it has been asked for before. */
  ghost predicate RestoresOnce(o: Orch, p: Orch, reason: AbortReason) {
    && p.restoreRequested && NothingTaken(o, p)
    && (if o.restoreRequested then p == o
        else
          && p.restoreCalls == o.restoreCalls + [reason]
          && Leaving(p.flow.state) && p.lifecycle == LRestoring && DisplayModel(p.status) == Display(None, None))
  }

  lemma RestoreOncePromise(o: Orch, reason: AbortReason, w: World)
    ensures RestoresOnce(o, o.RestoreOnce(reason, w), reason)
  {
    hide AbortedFlow, Orch.Leave, Orch.LaunchFailed, Orch.Snapshot, DisplayModel;
    if !o.restoreRequested {
      var g := AbortedFlow(o.flow, reason, w.now);
      AbortedIsLeaving(o.flow, reason, w.now);
      LeavePromise(o, g, reason);
      LaunchFailedPromise(o.Leave(g, reason));
    }
  }

  lemma AbortedIsLeaving(f: Flow, reason: AbortReason, now: real)
    ensures Leaving(AbortedFlow(f, reason, now).state)
  {
  }

  lemma LeavePromise(o: Orch, g: Flow, reason: AbortReason)
    requires Leaving(g.state)
    ensures var p := o.Leave(g, reason);
            && p.restoreRequested && NothingTaken(o, p) && p.restoreCalls == o.restoreCalls + [reason]
            && p.flow == g && p.lifecycle == LRestoring && DisplayModel(p.status) == Display(None, None)
  {
  }

  lemma LaunchFailedPromise(o: Orch)
    requires Leaving(o.flow.state)
    ensures var p := o.LaunchFailed();
            && p == o.(status := p.status) && DisplayModel(p.status) == Display(None, None)
  {
  }

  // ---------- preparation ----------

  /** One step of the preparation, from one lifecycle state to the next or into restoration. */
  ghost predicate PreparesOrRestores(o: Orch, p: Orch, ok: bool, from: Lifecycle, to: Lifecycle) {
    && NothingTaken(o, p)
    && (ok ==> o.lifecycle == from && p.lifecycle == to && p.restoreCalls == o.restoreCalls)
    && (!ok ==> p == o || (o.lifecycle == from && p.restoreRequested))
  }

  lemma RecordPreflightPromise(o: Orch, passed: bool, w: World)
    ensures var (p, ok) := o.RecordPreflight(passed, w);
            PreparesOrRestores(o, p, ok, LPreparing, LGuardedResourceStartup) && (ok <==> o.lifecycle == LPreparing && passed)
  {
    hide Orch.RestoreOnce, Orch.Snapshot, DisplayModel;
    RestoreOncePromise(o.Enter(LPreflight), PreflightFailed, w);
  }

  lemma QualifyResourceStartupPromise(o: Orch, passed: bool, w: World)
    ensures var (p, ok) := o.QualifyResourceStartup(passed, w);
            && PreparesOrRestores(o, p, ok, LGuardedResourceStartup, LResourceStabilityVerified)
            && (ok ==> passed && p.flow.state == ResourceCheck)
  {
    hide Orch.RestoreOnce, Orch.Snapshot, DisplayModel;
    RestoreOncePromise(o, ResourceQualificationFailed, w);
  }

  lemma ArmRestorationPromise(o: Orch, timerArmed: bool, manualVerified: bool, controlsPassed: bool, w: World)
    ensures var (p, ok) := o.ArmRestoration(timerArmed, manualVerified, controlsPassed, w);
            && PreparesOrRestores(o, p, ok, LResourceStabilityVerified, LRestorationArmed)
            && (ok ==> timerArmed && manualVerified && controlsPassed && Qualified(p.flow))
  {
    hide Orch.RestoreOnce, Orch.Armed, Flow.QualifyResources, RestoresOnce;
    var (g, ok) := o.flow.QualifyResources(timerArmed && manualVerified && controlsPassed, timerArmed, manualVerified, w.now);
    QualifyPromise(o.flow, timerArmed && manualVerified && controlsPassed, timerArmed, manualVerified, w.now);
    ArmedPromise(o.(flow := g), controlsPassed);
    RestoringTakesNothing(o.(flow := g), RestorationSafeguardMissing, w);
  }

  lemma QualifyPromise(f: Flow, safe: bool, autoRestore: bool, independentAbort: bool, now: real)
    ensures var (g, ok) := f.QualifyResources(safe, autoRestore, independentAbort, now);
            ok ==> safe && autoRestore && independentAbort && Qualified(g)
  {
  }

  lemma ArmedPromise(o: Orch, controlsPassed: bool)
    ensures var p := o.Armed(controlsPassed);
            NothingTaken(o, p) && p.flow == o.flow && p.lifecycle == LRestorationArmed && p.restoreCalls == o.restoreCalls
  {
  }

  /** The operator is invited, behind both safeguards and until the deadline, or nothing happens. */
  ghost predicate Invites(o: Orch, p: Orch, ok: bool, ttl: real, now: real) {
    && NothingTaken(o, p)
    && (ok ==> && o.lifecycle == LRestorationArmed && ttl > 0.0 && Qualified(p.flow)
               && p.flow.startDeadline == p.leaseDeadline == Some(now + ttl)
               && DisplayModel(p.status).ready.Some? && p.status.startDeadline == p.leaseDeadline)
    && (!ok ==> p == o)
  }

  lemma AwaitOwnerStartPromise(o: Orch, ttl: real, mode: Mode, w: World)
    ensures var (p, ok) := o.AwaitOwnerStart(ttl, mode, w); Invites(o, p, ok, ttl, w.now)
  {
  }

  // ---------- START and capture ----------

  /** One START, current at that moment and the first of the session, is accepted behind both safeguards. */
  ghost predicate TakesStart(o: Orch, p: Orch, r: ControlRequest, now: real) {
    && NothingJudged(o, p) && p.observed == o.observed && p.sessionId == o.sessionId
    && o.accepted == [] && p.accepted == [Accepted(r, now)]
    && ProperStart(p.accepted[0], o.sessionId, o.leaseDeadline) && r.requestedMonotonic.Some?
    && Qualified(p.flow) && p.flow.ownerStartCount == 1 && p.handoffStarted
  }

  /** A cue is on the page only once all five readiness checks were true. */
  ghost predicate CueIsReady(p: Orch) {
    DisplayModel(p.status).cue.Some? ==> p.readiness.Some? && p.readiness.value.All()
  }

  lemma CueNeedsReadiness(o: Orch)
    requires Inv(o)
    ensures CueIsReady(o)
  {
    hide FlowOk, ResultsMatch, OnlyLastCanFail, CompletionClaim, ProperStarts, StreamOk, StopProven, AllFounded, QuietTimed,
      OnceOk, RestorationOk, LifecycleOk, WaitingOk, StopGateAimed, Settled, QuietGateOk;
  }

  /** The handoff succeeds exactly when all five checks are true, and then shows the first gate. */
  ghost predicate HandsOver(o: Orch, p: Orch, ok: bool, ready: Readiness) {
    && NothingTaken(o, p)
    && (ok <==> o.lifecycle == LCaptureHandoff && ready.All())
    && (ok ==> && o.flow.ownerStartCount == 1 && p.readiness == Some(ready) && p.flow.captureVerified
               && p.gateStartedSequence == o.eventSequence + 1
               && DisplayModel(p.status).cue == Some(Prompt(Wake, Some("Friday"))))
    && (!ok ==> if o.lifecycle == LCaptureHandoff then p.restoreRequested else p == o)
  }

  lemma HandoffTakesNothing(o: Orch, ready: Readiness, w: World)
    requires o.flow.IndexInRange()
    ensures NothingTaken(o, o.CompleteCaptureHandoff(ready, w).0)
  {
    hide Orch.RestoreOnce, Flow.VerifyCapture, Flow.SpeakingPrompt, Orch.NoteReadiness, Orch.ShowFirstCue, RestoresOnce;
    var verified := o.flow.VerifyCapture(ready.All(), ready.All(), w.now).0;
    RestoringTakesNothing(o.(flow := verified), CaptureReadinessFailed, w);
    VerifyKeepsIndex(o.flow, ready.All(), w.now);
    var (prompted, gate) := verified.SpeakingPrompt(w.now);
    RestoringTakesNothing(o.(flow := prompted), InitialPromptUnavailable, w);
    if gate.Some? {
      FirstCueTakesNothing(o.(flow := prompted), ready, gate.value);
    }
  }

  lemma FirstCueTakesNothing(o: Orch, ready: Readiness, gate: Gate)
    ensures NothingTaken(o, o.NoteReadiness(ready).ShowFirstCue(gate))
  {
  }

  lemma VerifyKeepsIndex(f: Flow, ready: bool, now: real)
    requires f.IndexInRange()
    ensures f.VerifyCapture(ready, ready, now).0.IndexInRange()
  {
  }

  lemma RestoringTakesNothing(o: Orch, reason: AbortReason, w: World)
    ensures NothingTaken(o, o.RestoreOnce(reason, w)) && o.RestoreOnce(reason, w).restoreRequested
  {
    hide DisplayModel;
    RestoreOncePromise(o, reason, w);
  }

  lemma CompleteCaptureHandoffPromise(o: Orch, ready: Readiness, w: World)
    requires Inv(o)
    ensures o.flow.IndexInRange()
    ensures var (p, ok) := o.CompleteCaptureHandoff(ready, w); HandsOver(o, p, ok, ready)
  {
    hide Base, RestorationOk, WaitingOk, StopGateAimed, Settled, QuietGateOk, FlowOk, Inv, NothingTaken,
      Orch.RestoreOnce, Flow.VerifyCapture, Flow.SpeakingPrompt;
    InvInRange(o);
    HandoffTakesNothing(o, ready, w);
    if o.lifecycle == LCaptureHandoff {
      InvParts(o);
      HandoffMeansFlow(o);
      HandoffHasStarted(o);
      VerifyKeepsFlow(o.flow, ready.All(), w.now);
      var (g, ok) := o.flow.VerifyCapture(ready.All(), ready.All(), w.now);
      if ok {
        FirstPromptKeepsFlow(g, w.now);
      } else {
        RestoringTakesNothing(o.(flow := g), CaptureReadinessFailed, w);
      }
    }
  }

  lemma HandoffHasStarted(o: Orch)
    requires Base(o) && o.flow.state == CaptureHandoff
    ensures o.handoffStarted && o.flow.ownerStartCount == 1
  {
    hide ResultsMatch, OnlyLastCanFail, CompletionClaim, ProperStarts, StreamOk, StopProven, AllFounded, QuietTimed,
      LogExplainsState;
  }

  /** A START is taken exactly when it is current, and otherwise nothing changes. */
  ghost predicate ConsumesStart(o: Orch, p: Orch, result: PollResult, r: ControlRequest, now: real) {
    && (o.StartIsCurrent(r, now) ==>
          TakesStart(o, p, r, now) && (result.HandoffDeferred? || result.CaptureReady? || result.RestoringNow?))
    && (result == CaptureReady ==> DisplayModel(p.status).cue == Some(Prompt(Wake, Some("Friday"))))
    && (result == RestoringNow ==> p.restoreRequested)
    && (!o.StartIsCurrent(r, now) ==> p == o && result == Rejected)
  }

  lemma ConsumeStartPromise(o: Orch, r: ControlRequest, w: World)
    requires Inv(o) && o.lifecycle == LAwaitingOwnerStart
    ensures o.flow.IndexInRange()
    ensures var (p, result) := o.ConsumeStart(r, w); ConsumesStart(o, p, result, r, w.now)
  {
    hide Inv, FlowOk, ProperStart, Orch.ConsumeStart, Orch.StartIsCurrent;
    InvInRange(o);
    NothingAcceptedWhileWaiting(o);
    ConsumeStartKeeps(o, r, w);
    ConsumeStartFrame(o, r, w);
    ConsumeStartResult(o, r, w);
    var p := o.ConsumeStart(r, w).0;
    if o.StartIsCurrent(r, w.now) {
      CurrentStartIsProper(o, r, w.now);
      AcceptedIsProper(p);
    }
  }

  /** What the answer to a current START tells. */
  lemma ConsumeStartResult(o: Orch, r: ControlRequest, w: World)
    requires Inv(o) && o.lifecycle == LAwaitingOwnerStart
    ensures o.flow.IndexInRange()
    ensures var (p, result) := o.ConsumeStart(r, w);
            && (result == CaptureReady ==> DisplayModel(p.status).cue == Some(Prompt(Wake, Some("Friday"))))
            && (result == RestoringNow ==> p.restoreRequested)
            && (o.StartIsCurrent(r, w.now) ==> result.HandoffDeferred? || result.CaptureReady? || result.RestoringNow?)
  {
    hide Inv, Base, FlowOk, DisplayModel, NothingTaken, Orch.RestoreOnce, Orch.Enter, Orch.Accept, Orch.BeginHandoff,
      Orch.CallHandoff, Flow.AcknowledgeStart, Orch.CompleteCaptureHandoff, Orch.StartIsCurrent;
    InvInRange(o);
    if o.StartIsCurrent(r, w.now) {
      StartHandedOver(o, r, w);
      AcceptingFrame(o, r, w);
      var g := o.flow.AcknowledgeStart("START", w.now).0;
      var c := o.(flow := g).Accept(r, w.now).Enter(LOwnerStartAccepted).BeginHandoff().CallHandoff();
      RestoringTakesNothing(c, CaptureHandoffFailed, w);
      if w.handoff.HandoffReady? {
        CompleteCaptureHandoffPromise(c, w.handoff.readiness, w);
      }
    }
  }

  lemma CurrentStartIsProper(o: Orch, r: ControlRequest, now: real)
    requires o.StartIsCurrent(r, now)
    ensures ProperStart(Accepted(r, now), o.sessionId, o.leaseDeadline) && r.requestedMonotonic.Some?
  {
  }

  lemma NothingAcceptedWhileWaiting(o: Orch)
    requires Inv(o) && o.lifecycle == LAwaitingOwnerStart
    ensures o.accepted == [] && o.flow.state == AwaitingOwnerStart && o.flow.startDeadline == o.leaseDeadline
  {
    hide ResultsMatch, OnlyLastCanFail, CompletionClaim, ProperStarts, StreamOk, StopProven, AllFounded, QuietTimed,
      LogExplainsState, RestorationOk, WaitingOk, StopGateAimed, Settled, QuietGateOk;
    BeforeStartFacts(o.flow);
  }

  lemma AcceptedIsProper(o: Orch)
    requires Inv(o) && o.accepted != []
    ensures |o.accepted| == 1 && ProperStart(o.accepted[0], o.sessionId, o.leaseDeadline) && Qualified(o.flow)
    ensures o.flow.ownerStartCount == 1 && o.handoffStarted
  {
    hide LogExplainsState, ResultsMatch, OnlyLastCanFail, CompletionClaim, StreamOk, StopProven, AllFounded, QuietTimed,
      QuietGateOk, AllPassed, RestorationOk, LifecycleOk, WaitingOk, StopGateAimed, Settled;
    assert Valid(o.flow);
  }

  /** A waiting flow takes a current START, which is then all that was taken. */
  lemma ConsumeStartFrame(o: Orch, r: ControlRequest, w: World)
    requires o.flow.IndexInRange() && o.flow.state == AwaitingOwnerStart && o.flow.startDeadline == o.leaseDeadline
    ensures var (p, result) := o.ConsumeStart(r, w);
            && NothingJudged(o, p) && p.observed == o.observed && p.sessionId == o.sessionId
            && (if o.StartIsCurrent(r, w.now) then p.accepted == o.accepted + [Accepted(r, w.now)]
                  else p == o && result == Rejected)
  {
    hide Orch.RestoreOnce, Orch.CompleteCaptureHandoff, Flow.AcknowledgeStart, Orch.Snapshot;
    AcknowledgeKeepsIndex(o.flow, w.now);
    var (g, ok) := o.flow.AcknowledgeStart("START", w.now);
    if o.StartIsCurrent(r, w.now) {
      WaitingFlowStarts(o.flow, w.now);
    }
    var c := o.(flow := g).Accept(r, w.now).Enter(LOwnerStartAccepted).BeginHandoff().CallHandoff();
    RestoringTakesNothing(c, CaptureHandoffFailed, w);
    if w.handoff.HandoffReady? {
      HandoffTakesNothing(c, w.handoff.readiness, w);
    }
  }

  lemma WaitingFlowStarts(f: Flow, now: real)
    requires f.state == AwaitingOwnerStart && f.startDeadline.Some? && now < f.startDeadline.value
    ensures f.AcknowledgeStart("START", now).1
  {
  }

  predicate FindsStart(o: Orch, safetyHealthy: bool, candidateAlive: bool, file: RequestFile, now: real) {
    && o.lifecycle == LAwaitingOwnerStart && !InRestoration(o.status.status) && safetyHealthy && candidateAlive
    && file.Request? && o.StartIsCurrent(file.request, now)
  }

  /** A poll takes a START exactly when one is found, current and in a healthy session; its answer tells what
      happened, and whatever cue the page then shows, all five readiness checks were true. */
  ghost predicate Polls(o: Orch, p: Orch, result: PollResult, safetyHealthy: bool, candidateAlive: bool,
                        file: RequestFile, now: real) {
    && (if FindsStart(o, safetyHealthy, candidateAlive, file, now) then TakesStart(o, p, file.request, now)
          else NothingTaken(o, p))
    && (result.Idle? || result.Waiting? || result.Rejected? || result.StaleRejected? ==> p == o)
    && (result == CaptureReady ==> DisplayModel(p.status).cue == Some(Prompt(Wake, Some("Friday"))))
    && (result == RestoringNow ==> p.restoreRequested || InRestoration(p.status.status))
    && (result == RestoredNow ==> p.lifecycle == LRestoredVerified)
    && (result == StaleRejected ==> file.Request? && file.request.sessionId != Some(o.sessionId))
    && CueIsReady(p)
  }

  lemma LeaseBoundsStart(o: Orch)
    ensures forall r: ControlRequest, now: real :: o.StartIsCurrent(r, now) ==>
              o.leaseDeadline.Some? && now < o.leaseDeadline.value && r.sessionId == Some(o.sessionId)
                  && r.action == StartAction
  {
  }

  lemma MovingTakesNothing(o: Orch)
    ensures NothingTaken(o, o) && NothingTaken(o, o.(lifecycle := o.status.lifecycle))
    ensures NothingTaken(o, o.Enter(LRestoring).(restoreRequested := true))
  {
  }

  /** What is asked for restoration while polling takes nothing else. */
  lemma RefusingTakesNothing(o: Orch, w: World)
    ensures forall reason: AbortReason :: NothingTaken(o, o.RestoreOnce(reason, w)) && o.RestoreOnce(reason, w).restoreRequested
  {
    hide NothingTaken, Orch.RestoreOnce;
    forall reason: AbortReason
      ensures NothingTaken(o, o.RestoreOnce(reason, w)) && o.RestoreOnce(reason, w).restoreRequested
    {
      RestoringTakesNothing(o, reason, w);
    }
  }

  lemma PollKeepsCueReady(o: Orch, safetyHealthy: bool, candidateAlive: bool, file: RequestFile, w: World)
    requires Inv(o)
    ensures o.flow.IndexInRange()
    ensures CueIsReady(o.PollOnce(safetyHealthy, candidateAlive, file, w).0)
  {
    hide Inv, CueIsReady, Orch.PollOnce;
    PollOnceKeeps(o, safetyHealthy, candidateAlive, file, w);
    CueNeedsReadiness(o.PollOnce(safetyHealthy, candidateAlive, file, w).0);
  }

  /** A poll that reaches a request. */
  lemma PollRequestPromise(o: Orch, r: ControlRequest, w: World)
    requires Inv(o) && o.lifecycle == LAwaitingOwnerStart && !InRestoration(o.status.status)
    requires o.leaseDeadline.Some? ==> w.now < o.leaseDeadline.value
    ensures o.flow.IndexInRange()
    ensures var (p, result) := o.PollOnce(true, true, Request(r), w); Polls(o, p, result, true, true, Request(r), w.now)
  {
    hide Inv, FlowOk, CueIsReady, TakesStart, NothingTaken, Orch.RestoreOnce, Orch.ConsumeStart, Orch.Enter,
      Orch.StartIsCurrent, DisplayModel;
    PollKeepsCueReady(o, true, true, Request(r), w);
    InvInRange(o);
    LeaseBoundsStart(o);
    MovingTakesNothing(o);
    RestoringTakesNothing(o, UnsupportedControlRequest, w);
    ConsumeStartPromise(o, r, w);
  }

  /** A poll that reaches none, or takes place outside a healthy session. */
  lemma PollWithoutRequestPromise(o: Orch, safetyHealthy: bool, candidateAlive: bool, file: RequestFile, w: World)
    requires Inv(o) && !ReachesRequest(o, safetyHealthy, candidateAlive, file, w.now)
    ensures o.flow.IndexInRange()
    ensures var (p, result) := o.PollOnce(safetyHealthy, candidateAlive, file, w);
            Polls(o, p, result, safetyHealthy, candidateAlive, file, w.now)
  {
    hide Inv, FlowOk, CueIsReady, TakesStart, NothingTaken, Orch.RestoreOnce, Orch.ConsumeStart, Orch.Enter,
      Orch.StartIsCurrent, DisplayModel;
    PollKeepsCueReady(o, safetyHealthy, candidateAlive, file, w);
    InvInRange(o);
    LeaseBoundsStart(o);
    MovingTakesNothing(o);
    RefusingTakesNothing(o, w);
  }

  predicate ReachesRequest(o: Orch, safetyHealthy: bool, candidateAlive: bool, file: RequestFile, now: real) {
    && o.lifecycle == LAwaitingOwnerStart && !InRestoration(o.status.status) && safetyHealthy && candidateAlive && file.Request?
    && (o.leaseDeadline.Some? ==> now < o.leaseDeadline.value)
  }

  lemma PollOncePromise(o: Orch, safetyHealthy: bool, candidateAlive: bool, file: RequestFile, w: World)
    requires Inv(o)
    ensures o.flow.IndexInRange()
    ensures var (p, result) := o.PollOnce(safetyHealthy, candidateAlive, file, w);
            Polls(o, p, result, safetyHealthy, candidateAlive, file, w.now)
  {
    hide Inv, Polls, Orch.PollOnce;
    if ReachesRequest(o, safetyHealthy, candidateAlive, file, w.now) {
      PollRequestPromise(o, file.request, w);
    } else {
      PollWithoutRequestPromise(o, safetyHealthy, candidateAlive, file, w);
    }
  }

  /** The baseline moves forward only: no event up to it, nor up to the number given, will count for the first gate, and
      neither will a wake counted in the health given. */
  ghost predicate SetsBaseline(o: Orch, p: Orch, ok: bool, sequence: int, health: Option<VoiceHealth>) {
    && NothingTaken(o, p) && o.eventSequence <= p.eventSequence
    && (ok <==> o.lifecycle == LCaptureHandoff && sequence >= 0)
    && (if ok then
          && sequence <= p.eventSequence && (p.eventSequence == sequence || p.eventSequence == o.eventSequence)
          && p.gateStartedSequence == p.eventSequence + 1
          && (match health
              case None => p.voice == o.voice && p.wakeBaseline == o.wakeBaseline
              case Some(h) => p.voice == Some(h) && p.wakeBaseline == if h.wakes.Some? then h.wakes.value else 0)
          && p == o.(eventSequence := p.eventSequence, gateStartedSequence := p.gateStartedSequence, voice := p.voice,
                     wakeBaseline := p.wakeBaseline)
        else p == o)
  }

  lemma EstablishRuntimeBaselinePromise(o: Orch, sequence: int, health: Option<VoiceHealth>)
    ensures var (p, ok) := o.EstablishRuntimeBaseline(sequence, health); SetsBaseline(o, p, ok, sequence, health)
  {
  }

  // ---------- gates ----------

  /** At most `most` new results, each a pass unless restoration has been asked for. */
  ghost predicate AddsResults(o: Orch, p: Orch, most: nat) {
    && |o.gateResults| <= |p.gateResults| <= |o.gateResults| + most
    && p.gateResults[..|o.gateResults|] == o.gateResults
    && (forall k :: |o.gateResults| <= k < |p.gateResults| ==> p.gateResults[k].passed || p.restoreRequested)
  }

  /** A result is timed from when its gate was shown, in milliseconds; a gate shown at exactly zero counts as shown now. */
  predicate IsTimed(r: GateSummary, shown: Option<real>, now: real) {
    && r.completedAt == now
    && r.shownAt == (if shown.Some? then shown.value else now)
    && r.startedAt == (if shown.Some? && shown.value != 0.0 then shown.value else now)
    && r.durationMs == (if r.startedAt <= now then (now - r.startedAt) * 1000.0 else 0.0)
  }

  /** Exactly one verdict, on the gate shown, in the results and in the flow; or nothing if none is shown. */
  ghost predicate GivesVerdict(o: Orch, p: Orch, ok: bool, passed: bool, failure: Option<Failure>,
                               database: Option<Database>, now: real) {
    && o.SameStream(p) && p.observations == o.observations && p.restoreCalls == o.restoreCalls
    && (ok <==> AtGate(o.flow.state))
    && (if ok then
          && |p.gateResults| == |o.gateResults| + 1 && p.gateResults[..|o.gateResults|] == o.gateResults
          && |p.flow.latencies| == |o.flow.latencies| + 1 && p.flow.latencies[..|o.flow.latencies|] == o.flow.latencies
          && p.flow.state == GateResult && p.lifecycle == LGateResult
          && var r, l := p.gateResults[|o.gateResults|], p.flow.latencies[|o.flow.latencies|];
             && Some(r.gate) == o.CurrentGate() && r.gate == l.gate && r.passed == l.passed == passed
             && r.failure == failure && IsTimed(r, o.flow.gateStartedAt, now)
             && r.seen == |o.observed| && r.evidence == o.EvidenceNow(database)
        else p == o)
  }

  lemma RecordGatePromise(o: Orch, passed: bool, failure: Option<Failure>, d: Option<Database>, w: World)
    requires o.flow.IndexInRange()
    ensures var (p, ok) := o.RecordGate(passed, failure, d, w); GivesVerdict(o, p, ok, passed, failure, d, w.now)
  {
    hide Orch.RecordGate, Orch.AddResult, Orch.EvidenceNow, IsTimed, Flow.RecordGateResult;
    if AtGate(o.flow.state) {
      var r := GateIsRecorded(o, passed, failure, d, w);
      VerdictIsNoted(o.flow, passed, w.now);
      ResultIsAdded(o.(flow := o.flow.RecordGateResult(passed, w.now).0), r);
    } else {
      NothingRecorded(o, passed, failure, d, w);
    }
  }

  lemma GateIsRecorded(o: Orch, passed: bool, failure: Option<Failure>, d: Option<Database>, w: World) returns (r: GateSummary)
    requires o.flow.IndexInRange() && AtGate(o.flow.state)
    ensures o.RecordGate(passed, failure, d, w) == (o.(flow := o.flow.RecordGateResult(passed, w.now).0).AddResult(r), true)
    ensures Some(r.gate) == o.CurrentGate() && r.passed == passed && r.failure == failure && r.seen == |o.observed|
    ensures IsTimed(r, o.flow.gateStartedAt, w.now) && r.evidence == o.EvidenceNow(d)
  {
    hide Orch.AddResult, Orch.EvidenceNow, Flow.RecordGateResult, Orch.GateStart, Orch.ShownAt, IsTimed;
    VerdictIsNoted(o.flow, passed, w.now);
    r := GateSummary(o.CurrentGate().value, passed, failure, o.GateStart(w.now), w.now,
                     Max(0.0, (w.now - o.GateStart(w.now)) * 1000.0), o.ShownAt(w.now), |o.observed|, o.EvidenceNow(d));
    SummaryIsTimed(o, o.CurrentGate().value, passed, failure, w.now, |o.observed|, o.EvidenceNow(d));
  }

  lemma ResultIsAdded(o: Orch, r: GateSummary)
    ensures var p := o.AddResult(r);
            && p == o.(gateResults := o.gateResults + [r], lifecycle := LGateResult, status := p.status)
            && p.gateResults[..|o.gateResults|] == o.gateResults && p.gateResults[|o.gateResults|] == r
  {
  }

  lemma VerdictIsNoted(f: Flow, passed: bool, now: real)
    requires f.IndexInRange()
    ensures var (g, ok) := f.RecordGateResult(passed, now);
            && (ok <==> AtGate(f.state))
            && (ok ==>
                  && g.state == GateResult && 0 <= f.gateIndex < |f.gates|
                  && |g.latencies| == |f.latencies| + 1 && g.latencies[..|f.latencies|] == f.latencies
                  && g.latencies[|f.latencies|].gate == f.gates[f.gateIndex].key && g.latencies[|f.latencies|].passed == passed)
  {
  }

  lemma SummaryIsTimed(o: Orch, key: GateKey, passed: bool, failure: Option<Failure>, now: real, seen: nat, e: Evidence)
    ensures var started := o.GateStart(now);
            IsTimed(GateSummary(key, passed, failure, started, now, Max(0.0, (now - started) * 1000.0), o.ShownAt(now),
                                seen, e),
                    o.flow.gateStartedAt, now)
  {
  }

  /** A gate that is shown outside restoration is failed: restoration is asked for, once. */
  ghost predicate FailsGate(o: Orch, p: Orch) {
    && o.SameStream(p) && p.observations == o.observations && AddsResults(o, p, 1)
    && (forall k :: |o.gateResults| <= k < |p.gateResults| ==> !p.gateResults[k].passed)
    && |o.restoreCalls| <= |p.restoreCalls| <= |o.restoreCalls| + (if o.restoreRequested then 0 else 1)
    && (if o.CurrentGate().None? || InRestoration(o.lifecycle) then p == o else p.restoreRequested)
  }

  lemma FailGatePromise(o: Orch, failure: Failure, w: World)
    requires o.flow.IndexInRange()
    ensures FailsGate(o, o.FailGate(failure, w))
  {
    hide Orch.RecordGate, Orch.RestoreOnce, DisplayModel;
    if o.CurrentGate().Some? && !InRestoration(o.lifecycle) {
      RecordGatePromise(o, false, Some(failure), None, w);
      VerdictKeepsRequest(o, false, Some(failure), None, w);
      RestoreOncePromise(o.RecordGate(false, Some(failure), None, w).0, PhysicalGateFailed(o.CurrentGate().value), w);
    }
  }

  lemma VerdictKeepsRequest(o: Orch, passed: bool, failure: Option<Failure>, d: Option<Database>, w: World)
    requires o.flow.IndexInRange()
    ensures o.RecordGate(passed, failure, d, w).0.restoreRequested == o.restoreRequested
  {
    hide Orch.Snapshot, Orch.GateStart, Orch.ShownAt, Flow.RecordGateResult;
  }

  /** The gate after the last one judged is shown, or the sequence ends in restoration. */
  ghost predicate ShowsNext(o: Orch, p: Orch, ok: bool) {
    && o.SameStream(p) && p.observations == o.observations && AddsResults(o, p, 1)
    && (ok ==> && p.flow.state == StartSpeaking && p.gateResults == o.gateResults && p.restoreCalls == o.restoreCalls
               && p.flow.gateIndex == |p.flow.latencies| < |p.flow.gates|
               && p.status.prompt == Some(Prompt(p.flow.gates[p.flow.gateIndex].key,
                     p.flow.gates[p.flow.gateIndex].spokenPhrase)))
    && (!ok ==> p.restoreRequested || InRestoration(o.lifecycle))
  }

  lemma PresentPromise(o: Orch, gate: Gate, w: World)
    ensures var (p, ok) := o.Present(gate, w);
            && o.SameStream(p) && NothingJudged(o, p)
            && (if ok then p.flow == o.flow && p.restoreCalls == o.restoreCalls
                  && p.status.prompt == Some(Prompt(gate.key, gate.spokenPhrase))
                else p.restoreRequested)
  {
    hide RestoresOnce, Orch.RestoreOnce, Orch.Prepare, Orch.Show;
    RestoringTakesNothing(o.(lifecycle := LStartSpeakingNow, phase := AnswerPhase), AssessmentDatabaseUnavailable, w);
    var shown := o.(lifecycle := LStartSpeakingNow);
    PrepareFrame(shown, gate.key, w);
    ShowFrame(shown.Prepare(gate.key, w), gate);
  }

  lemma PrepareFrame(o: Orch, key: GateKey, w: World)
    ensures var p := o.Prepare(key, w);
            p == o.(phase := p.phase, databaseBefore := p.databaseBefore, quietReady := p.quietReady,
                quietDeadline := p.quietDeadline)
  {
  }

  lemma ShowFrame(o: Orch, gate: Gate)
    ensures o.Show(gate) == o.(status := o.Show(gate).status)
            && o.Show(gate).status.prompt == Some(Prompt(gate.key, gate.spokenPhrase))
  {
  }

  lemma PromptCounts(f: Flow, now: real)
    requires Valid(f)
    ensures var (g, gate) := f.SpeakingPrompt(now);
            && g.latencies == f.latencies
            && (gate.Some? ==>
                  g.state == StartSpeaking && 0 <= g.gateIndex == |g.latencies| < |g.gates|
                  && gate.value == g.gates[g.gateIndex])
  {
    hide LogExplainsState;
  }

  lemma ShowNextGatePromise(o: Orch, next: NextGate, w: World)
    requires Valid(o.flow)
    ensures o.flow.IndexInRange()
    ensures var (p, ok) := o.ShowNextGate(next, w); ShowsNext(o, p, ok)
  {
    hide Valid, Orch.FailGate, Orch.RestoreOnce, Orch.Present, Flow.SpeakingPrompt, Identified, DisplayModel,
      InRestoration;
    ValidInRange(o.flow);
    PromptCounts(o.flow, w.now);
    var (g, gate) := o.flow.SpeakingPrompt(w.now);
    RestoreOncePromise(o.(flow := g), AllPhysicalGatesCompleted, w);
    var aimed := o.(flow := g).Aim(next);
    FailGatePromise(aimed, PlaybackIdentityUnavailable, w);
    if gate.Some? {
      PresentPromise(aimed, gate.value, w);
    }
  }

  lemma ValidInRange(f: Flow)
    requires Valid(f)
    ensures f.IndexInRange()
  {
    hide LogExplainsState;
  }

  lemma VerdictKeepsFlow(o: Orch, passed: bool, failure: Option<Failure>, d: Option<Database>, w: World)
    requires Valid(o.flow)
    ensures o.flow.IndexInRange()
    ensures Valid(o.RecordGate(passed, failure, d, w).0.flow)
  {
    hide Valid, Orch.AddResult, Orch.GateStart, Orch.ShownAt, Flow.RecordGateResult;
    ValidInRange(o.flow);
    RecordGateResultKeeps(o.flow, passed, w.now);
    AddResultKeepsFlow(o, o.flow.RecordGateResult(passed, w.now).0);
  }

  lemma AddResultKeepsFlow(o: Orch, g: Flow)
    ensures forall summary :: o.(flow := g).AddResult(summary).flow == g
  {
  }

  /** Judging gives at most two verdicts, and restoration has been asked for if one of them is not a pass. */
  ghost predicate Judges(o: Orch, p: Orch) {
    o.SameStream(p) && p.observations == o.observations && AddsResults(o, p, 2)
  }

  lemma JudgingTwice(o: Orch, q: Orch, p: Orch)
    requires o.SameStream(q) && q.observations == o.observations && q.SameStream(p) && p.observations == q.observations
    requires |q.gateResults| == |o.gateResults| + 1 && q.gateResults[..|o.gateResults|] == o.gateResults
    requires q.gateResults[|o.gateResults|].passed && AddsResults(q, p, 1)
    ensures Judges(o, p) && |p.gateResults| > |o.gateResults|
            && p.gateResults[|o.gateResults|] == q.gateResults[|o.gateResults|]
  {
    assert forall k :: 0 <= k < |q.gateResults| ==> p.gateResults[k] == p.gateResults[..|q.gateResults|][k];
    assert p.gateResults[..|o.gateResults|] == p.gateResults[..|q.gateResults|][..|o.gateResults|];
  }

  /** Passing the gate shown and going on: the pass stays, whatever happens to the next gate. */
  lemma PassPromise(o: Orch, next: NextGate, stop: Option<int>, d: Option<Database>, w: World)
    requires Valid(o.flow) && AtGate(o.flow.state)
    ensures o.flow.IndexInRange()
    ensures var (q, ok) := o.RecordGate(true, None, d, w);
            var noted := if stop.Some? then q.NoteStop(stop.value, w.now) else q;
            && ok && q.flow.IndexInRange()
            && var p := noted.ShowNextGate(next, w).0;
               Judges(o, p) && PassStays(o, p)
  {
    hide Valid, Orch.RecordGate, Orch.ShowNextGate, GivesVerdict, AddsResults, Judges;
    ValidInRange(o.flow);
    VerdictKeepsFlow(o, true, None, d, w);
    var q := o.RecordGate(true, None, d, w).0;
    PassIsGiven(o, d, w);
    var noted := if stop.Some? then q.NoteStop(stop.value, w.now) else q;
    ShowNextGatePromise(noted, next, w);
    NotedAdds(q, noted, noted.ShowNextGate(next, w).0);
    JudgingTwice(o, q, noted.ShowNextGate(next, w).0);
  }

  ghost predicate PassStays(o: Orch, p: Orch) {
    |p.gateResults| > |o.gateResults|
    && p.gateResults[|o.gateResults|].passed && Some(p.gateResults[|o.gateResults|].gate) == o.CurrentGate()
  }

  lemma NotedAdds(q: Orch, noted: Orch, p: Orch)
    requires noted.gateResults == q.gateResults && AddsResults(noted, p, 1)
    ensures AddsResults(q, p, 1)
  {
  }

  lemma PassIsGiven(o: Orch, d: Option<Database>, w: World)
    requires o.flow.IndexInRange() && AtGate(o.flow.state)
    ensures var (q, ok) := o.RecordGate(true, None, d, w);
            && ok && o.SameStream(q) && q.observations == o.observations
            && |q.gateResults| == |o.gateResults| + 1 && q.gateResults[..|o.gateResults|] == o.gateResults
            && PassStays(o, q)
  {
    hide Orch.RecordGate, Orch.CurrentGate;
    RecordGatePromise(o, true, None, d, w);
  }

  lemma FailureJudges(o: Orch, p: Orch)
    requires FailsGate(o, p)
    ensures Judges(o, p)
  {
  }

  lemma EvaluatePromise(o: Orch, database: Option<Database>, w: World)
    requires Valid(o.flow)
    ensures o.flow.IndexInRange()
    ensures Judges(o, o.Evaluate(database, w))
  {
    hide Valid, Orch.RecordGate, Orch.FailGate, Orch.ShowNextGate, Orch.NoteStop, Orch.AskForYes, Orch.ConfirmQuiet,
      Orch.Decide, FailsGate, Judges, AddsResults, PassStays, GivesVerdict;
    ValidInRange(o.flow);
    NoVerdictJudges(o, w.now);
    match o.Decide(o.Judged(database, w), w.now) {
      case Fail(failure) =>
        FailGatePromise(o, failure, w);
        FailureJudges(o, o.FailGate(failure, w));
      case Pass(next) =>
        NothingWithoutGate(o, o.Judged(database, w), w);
        if AtGate(o.flow.state) {
          PassPromise(o, next, None, o.Judged(database, w), w);
        }
      case PassStopped(stop) =>
        NothingWithoutGate(o, o.Judged(database, w), w);
        if AtGate(o.flow.state) {
          PassPromise(o, NextGate(Some(stop), NO_PLAYBACK), Some(stop), o.Judged(database, w), w);
        }
      case PassWithoutTurn =>
        NothingWithoutGate(o, o.Judged(database, w), w);
        if AtGate(o.flow.state) {
          VerdictKeepsFlow(o, true, None, o.Judged(database, w), w);
          PassIsGiven(o, o.Judged(database, w), w);
          var q := o.RecordGate(true, None, o.Judged(database, w), w).0;
          FailGatePromise(q, TurnIdentityUnavailable, w);
          FailureAdds(q, q.FailGate(TurnIdentityUnavailable, w));
          PassMeans(o, q);
          JudgingTwice(o, q, q.FailGate(TurnIdentityUnavailable, w));
        }
      case Wait =>
      case AskConfirmation =>
      case QuietConfirmed =>
    }
  }

  lemma PassMeans(o: Orch, q: Orch)
    requires PassStays(o, q)
    ensures |q.gateResults| > |o.gateResults| && q.gateResults[|o.gateResults|].passed
  {
  }

  lemma FailureAdds(o: Orch, p: Orch)
    requires FailsGate(o, p)
    ensures o.SameStream(p) && p.observations == o.observations && AddsResults(o, p, 1)
  {
  }

  lemma NothingWithoutGate(o: Orch, d: Option<Database>, w: World)
    requires o.flow.IndexInRange()
    ensures !AtGate(o.flow.state) ==> !o.RecordGate(true, None, d, w).1
  {
  }

  lemma NoVerdictJudges(o: Orch, now: real)
    ensures Judges(o, o) && Judges(o, o.AskForYes(now)) && Judges(o, o.ConfirmQuiet(now))
  {
  }

  // ---------- events and owner confirmations ----------

  /** A confirmation is taken under a number not used before and passes the gate it names; a rejected one leaves
      no trace, unless it comes too late for a playback, which fails the gate. */
  ghost predicate Confirms(o: Orch, p: Orch, ok: bool, r: ObservationRequest, now: real) {
    && o.SameStream(p)
    && (if ok then
          && r.requestId.Some? && r.action.Some? && r.gate.Some? && r.gate == o.CurrentGate()
          && (forall k :: 0 <= k < |o.observations| ==> o.observations[k].requestId != r.requestId.value)
          && p.observations == o.observations + [Observation(r.requestId.value, r.gate.value, r.action.value, now)]
          && AddsResults(o, p, 2) && PassStays(o, p)
        else
          && p.observations == o.observations && AddsResults(o, p, 1)
          && (p == o || p.restoreRequested))
  }

  /** The recorded confirmation, then the pass. */
  lemma ConfirmedPasses(o: Orch, r: ObservationRequest, q: Orch, p: Orch, now: real)
    requires r.requestId.Some? && r.action.Some? && r.gate.Some? && r.gate == o.CurrentGate()
    requires forall k :: 0 <= k < |o.observations| ==> o.observations[k].requestId != r.requestId.value
    requires q == o.(observations := o.observations + [Observation(r.requestId.value, r.gate.value, r.action.value, now)])
    requires Judges(q, p) && PassStays(q, p)
    ensures Confirms(o, p, true, r, now)
  {
  }

  lemma LastPassPromise(o: Orch, w: World)
    requires Valid(o.flow) && AtGate(o.flow.state)
    ensures o.flow.IndexInRange()
    ensures var p := o.RecordGate(true, None, None, w).0.RestoreOnce(AllPhysicalGatesCompleted, w);
            Judges(o, p) && PassStays(o, p)
  {
    hide Valid, Orch.RecordGate, Orch.RestoreOnce, DisplayModel, Orch.CurrentGate;
    ValidInRange(o.flow);
    PassIsGiven(o, None, w);
    RestoreOncePromise(o.RecordGate(true, None, None, w).0, AllPhysicalGatesCompleted, w);
  }

  lemma ConsumeOwnerObservationPromise(o: Orch, r: ObservationRequest, w: World)
    requires Inv(o)
    ensures o.flow.IndexInRange()
    ensures var (p, ok) := o.ConsumeOwnerObservation(r, w); Confirms(o, p, ok, r, w.now)
  {
    hide Inv, FlowOk, Valid, Orch.RecordGate, Orch.FailGate, Orch.ShowNextGate, Orch.RestoreOnce, Orch.CurrentGate,
      Orch.NamesActivePlayback, Orch.PlaybackEnded, Confirms, Judges, PassStays, AddsResults, FailsGate;
    InvInRange(o);
    FlowOkMeansValid(o.flow);
    NothingConfirmed(o, r, w.now);
    if o.ObservationIsCurrent(r, w.now) && r.action.Some? && o.CurrentGate().Some? {
      WaitingMeansShown(o);
      FailGatePromise(o, NotConfirmedDuringPlayback, w);
      if o.CurrentGate() == Some(LearningOutput) {
        FailedConfirmation(o, o.FailGate(NotConfirmedDuringPlayback, w), r, w.now);
      }
      var q := o.Observe(r, w);
      ObserveFrame(o, r, w);
      PassPromise(q, PLAIN_NEXT, None, None, w);
      PassPromise(q, NextGate(o.playback.sequence, o.playback.(sessionId := None)), None, None, w);
      LastPassPromise(q, w);
      var p := o.ConsumeOwnerObservation(r, w).0;
      if o.ConsumeOwnerObservation(r, w).1 {
        ConfirmedPasses(o, r, q, p, w.now);
      }
    }
  }

  lemma FlowOkMeansValid(f: Flow)
    requires FlowOk(f)
    ensures Valid(f)
  {
  }

  lemma NothingConfirmed(o: Orch, r: ObservationRequest, now: real)
    ensures Confirms(o, o, false, r, now)
  {
  }

  lemma FailedConfirmation(o: Orch, p: Orch, r: ObservationRequest, now: real)
    requires FailsGate(o, p)
    ensures Confirms(o, p, false, r, now)
  {
  }

  lemma WaitingMeansShown(o: Orch)
    requires Inv(o) && o.status.operatorState == WaitingOwnerConfirmation
    ensures AtGate(o.flow.state)
  {
    hide Base, RestorationOk, LifecycleOk, Settled, QuietGateOk;
  }

  lemma ObserveFrame(o: Orch, r: ObservationRequest, w: World)
    requires r.requestId.Some? && r.action.Some? && o.CurrentGate().Some?
    ensures o.Observe(r, w) ==
              var seen := Observation(r.requestId.value, o.CurrentGate().value, r.action.value, w.now);
              o.(observations := o.observations + [seen])
  {
  }

  lemma ResultsExtend(results: seq<GateSummary>, more: seq<GateSummary>, most: seq<GateSummary>)
    requires results <= more <= most
    ensures results <= most
  {
  }

  lemma JudgingExtends(o: Orch, p: Orch)
    requires Judges(o, p) || FailsGate(o, p)
    ensures o.gateResults <= p.gateResults && p.observations == o.observations
  {
  }

  lemma ObserveOneExtends(o: Orch, e: RuntimeEvent, database: Option<Database>, w: World)
    requires Valid(o.flow)
    ensures o.flow.IndexInRange()
    ensures var p := o.ObserveOne(e, database, w).0; o.gateResults <= p.gateResults && p.observations == o.observations
  {
    hide Valid, Orch.FailGate, Orch.Evaluate, Judges, FailsGate;
    ValidInRange(o.flow);
    var appended := o.Append(e);
    if e.sequence > o.eventSequence {
      FailGatePromise(appended, SpeechAfterStop, w);
      JudgingExtends(appended, appended.FailGate(SpeechAfterStop, w));
      EvaluatePromise(appended, database, w);
      JudgingExtends(appended, appended.Evaluate(database, w));
    }
  }

  lemma {:induction false} ObserveBatchExtends(o: Orch, batch: seq<RuntimeEvent>, database: Option<Database>, w: World)
    requires Inv(o) && !InRestoration(o.lifecycle)
    ensures o.flow.IndexInRange()
    ensures var p := o.ObserveBatch(batch, database, w); o.gateResults <= p.gateResults && p.observations == o.observations
    decreases |batch|
  {
    hide Inv, FlowOk, Valid, Orch.Evaluate, Orch.ObserveOne, Judges;
    InvInRange(o);
    FlowOkMeansValid(o.flow);
    if batch == [] {
      EvaluatePromise(o, database, w);
      JudgingExtends(o, o.Evaluate(database, w));
    } else {
      ObserveOneKeeps(o, batch[0], database, w);
      ObserveOneExtends(o, batch[0], database, w);
      var (p, done) := o.ObserveOne(batch[0], database, w);
      if !done {
        ObserveBatchExtends(p, batch[1..], database, w);
        ResultsExtend(o.gateResults, p.gateResults, p.ObserveBatch(batch[1..], database, w).gateResults);
      }
    }
  }

  /** However events are delivered, the log stays increasing and gains delivered events newer than all before, and
      every such number unless the session ends on the way; what was judged and confirmed stays. */
  ghost predicate Observes(o: Orch, p: Orch, delivered: seq<RuntimeEvent>) {
    && Increasing(p.observed) && GainsOnly(o.observed, p.observed, o.eventSequence, delivered)
    && (o.mode != Some(ResourceRequalification) && !InRestoration(o.lifecycle) && !InRestoration(p.lifecycle) ==>
          GainsAll(o.observed, p.observed, o.eventSequence, delivered))
    && o.gateResults <= p.gateResults && p.observations == o.observations && p.accepted == o.accepted
  }

  lemma ObserveRuntimeEventsPromise(o: Orch, delivered: seq<RuntimeEvent>, health: Option<VoiceHealth>,
                                    database: Option<Database>, w: World)
    requires Inv(o)
    ensures o.flow.IndexInRange()
    ensures Observes(o, o.ObserveRuntimeEvents(delivered, health, database, w), delivered)
  {
    hide Inv, FlowOk, GainsAll, Orch.ObserveBatch, SortedBySequence;
    InvInRange(o);
    LogIncreases(o);
    if o.mode != Some(ResourceRequalification) && !InRestoration(o.lifecycle) {
      hide GainsOnly, GainsAll;
      DeliveryIsComplete(o, delivered, health, database, w);
      VoiceIsFree(o, health);
      ObserveBatchExtends(if health.Some? then o.(voice := health) else o, SortedBySequence(delivered), database, w);
    }
  }

  // ---------- the end ----------

  /** A report of restoration moves the lifecycle as it says; a verified one ends the flow exactly when restoration
      had been called for. */
  ghost predicate EndsRestoration(o: Orch, p: Orch, ok: bool, verified: bool) {
    && NothingTaken(o, p) && p.restoreCalls == o.restoreCalls
    && (ok <==> verified)
    && p.lifecycle == (if verified then LRestoredVerified else LRestoreFailed)
    && (if verified then p.flow.state == Restored <==> o.restoreCalls != [] else p.flow == o.flow)
  }

  lemma ConfirmRestorationPromise(o: Orch, verified: bool, w: World)
    requires Inv(o)
    ensures var (p, ok) := o.ConfirmRestoration(verified, w); EndsRestoration(o, p, ok, verified)
  {
    hide Base, LifecycleOk, WaitingOk, StopGateAimed, Settled, QuietGateOk, Orch.Snapshot;
  }
}
