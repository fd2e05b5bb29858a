/** The orchestrator as the object it is: fields updated in place, one machine object behind it.  Every public
    method keeps the session's invariant, does what the operation on values of its name does, and keeps the
    promise stated beside it. */
module OperatorOrchestrator {
  import opened Prelude
  import opened PhysicalControl
  import FlowProperties
  import opened GateEvidence
  import opened Orchestrator
  import opened OperatorMachine
  import opened OperatorPage
  import opened OrchestratorRuns
  import opened OrchestratorPromises
  import opened OrchestratorAnswers

  class OperatorOrchestrator {
    const flow: OperatorFlow
    const sessionId: string
    const deferHandoff: bool
    var mode: Option<Mode>
    var lifecycle: Lifecycle
    var leaseDeadline: Option<real>
    var handoffStarted: bool
    var restoreRequested: bool
    var lastRequestId: Option<string>
    var eventSequence: int
    var events: seq<RuntimeEvent>
    var gateResults: seq<GateSummary>
    var observations: seq<Observation>
    var readiness: Option<Readiness>
    var voice: Option<VoiceHealth>
    var gateStartedSequence: int
    var wakeBaseline: int
    var playback: Playback
    var quietDeadline: Option<real>
    var quietReady: bool
    var stopSequence: Option<int>
    var phase: AssessmentPhase
    var databaseBefore: Option<Database>
    var status: Status
    var restoreCalls: seq<AbortReason>
    var handoffCalls: nat
    var accepted: seq<Accepted>
    var observed: seq<RuntimeEvent>
    var quietConfirmedAt: Option<real>

    function State(): Orch
      reads this, flow
    {
      Orch(flow.State(), sessionId, deferHandoff, mode, lifecycle, leaseDeadline, handoffStarted, restoreRequested,
           lastRequestId, eventSequence, events, gateResults, observations, readiness, voice, gateStartedSequence,
           wakeBaseline, playback, quietDeadline, quietReady, stopSequence, phase, databaseBefore, status,
           restoreCalls, handoffCalls, accepted, observed, quietConfirmedAt)
    }

    /** What every call keeps: the whole invariant of the session, and the machine behind it. */
    ghost predicate Valid()
      reads this, flow
      ensures Valid() ==> flow.Valid() && State().flow.IndexInRange()
      ensures Valid() ==> |accepted| <= 1 && |restoreCalls| <= 1 && handoffCalls <= |accepted|
    {
      Inv(State())
    }

    constructor (sessionId: string, deferHandoff: bool)
      ensures Valid() && fresh(flow)
      ensures State() == InitialOrch(sessionId, deferHandoff)
      ensures lifecycle == LPreparing && flow.state == Preparing && Tells(status, State())
      ensures !status.manualRestoreVerified && !status.operatorControlsPassed && !status.rechecking
      ensures accepted == [] && observed == [] && gateResults == [] && observations == [] && restoreCalls == []
      ensures eventSequence == 0 && gateStartedSequence == 1 && wakeBaseline == 0 && playback == NO_PLAYBACK
      ensures phase == AnswerPhase && !restoreRequested && !handoffStarted && handoffCalls == 0
    {
      flow := new OperatorFlow(DEFAULT_GATES);
      this.sessionId := sessionId;
      this.deferHandoff := deferHandoff;
      mode, lifecycle, leaseDeadline := None, LPreparing, None;
      handoffStarted, restoreRequested, lastRequestId := false, false, None;
      eventSequence, events, gateResults, observations := 0, [], [], [];
      readiness, voice, gateStartedSequence, wakeBaseline := None, None, 1, 0;
      playback := NO_PLAYBACK;
      quietDeadline, quietReady, stopSequence := None, false, None;
      phase, databaseBefore := AnswerPhase, None;
      status := InitialOrch(sessionId, deferHandoff).status;
      restoreCalls, handoffCalls, accepted, observed, quietConfirmedAt := [], 0, [], [], None;
      new;
      InitialInv(sessionId, deferHandoff);
    }

    method Publish()
      modifies this`status
      ensures State() == old(State()).Publish() && Tells(status, State())
      ensures status.manualRestoreVerified == old(status).manualRestoreVerified
      ensures status.operatorControlsPassed == old(status).operatorControlsPassed
      ensures DisplayModel(status).cue.None?
      ensures DisplayModel(status).ready.Some? ==> flow.state == AwaitingOwnerStart && FlowProperties.Qualified(flow.State())
    {
      status := Status(lifecycle, lifecycle, FlowText(flow.state), sessionId,
                       flow.resourceSafe, flow.autoRestoreArmed, flow.independentAbortArmed,
                       status.manualRestoreVerified, status.operatorControlsPassed,
                       flow.ownerStartCount, flow.startDeadline, flow.captureVerified,
                       None, None, status.rechecking);
    }

    method Enter(l: Lifecycle)
      modifies this`status, this`lifecycle
      ensures State() == old(State()).Enter(l)
    {
      hide Orch.Publish;
      lifecycle := l;
      Publish();
    }

    method Latch(reason: AbortReason)
      modifies this`restoreRequested, this`restoreCalls
      ensures State() == old(State()).(restoreRequested := true, restoreCalls := old(restoreCalls) + [reason])
    {
      restoreRequested := true;
      restoreCalls := restoreCalls + [reason];
    }

    method AbortFlow(reason: AbortReason, w: World)
      requires flow.Valid()
      modifies flow
      ensures flow.Valid()
      ensures State() == old(State()).(flow := AbortedFlow(old(State()).flow, reason, w.now))
    {
      hide FlowProperties.Valid, OperatorFlow.Valid, Flow.GuardAbort;
      if !Leaving(flow.state) {
        var _ := flow.GuardAbort(reason, w.now);
      }
    }

    method RequestRestoreOnce(reason: AbortReason, w: World)
      requires flow.Valid()
      modifies this`restoreRequested, this`restoreCalls, this`lifecycle, this`status, flow
      ensures flow.Valid()
      ensures State() == old(State()).RestoreOnce(reason, w)
      ensures RestoresOnce(old(State()), State(), reason)
      ensures AnswersRestore(old(State()), State(), reason, w)
      ensures old(Valid()) && reason != AllPhysicalGatesCompleted ==> Valid()
    {
      hide FlowProperties.Valid, OperatorFlow.Valid, OperatorFlow.State, Inv, RestoresOnce, AnswersRestore, Orch.RestoreOnce;
      RestoreOncePromise(State(), reason, w);
      RestoreAnswers(State(), reason, w);
      if Inv(State()) && reason != AllPhysicalGatesCompleted {
        RestoreOnceKeeps(State(), reason, w);
      }
      LaunchOnce(reason, w);
    }

    method LaunchOnce(reason: AbortReason, w: World)
      requires flow.Valid()
      modifies this`restoreRequested, this`restoreCalls, this`lifecycle, this`status, flow
      ensures flow.Valid()
      ensures State() == old(State()).RestoreOnce(reason, w)
    {
      hide FlowProperties.Valid, OperatorFlow.Valid, OperatorFlow.State, Inv, AbortedFlow, Orch.Enter, Orch.LaunchFailed;
      if restoreRequested {
        return;
      }
      Latch(reason);
      AbortFlow(reason, w);
      Enter(LRestoring);
      if !w.restoreLaunches {
        ReportLaunchFailure();
      }
    }

    method ReportLaunchFailure()
      modifies this`status
      ensures State() == old(State()).LaunchFailed()
    {
      Publish();
      status := status.(status := LRestoreFailed);
    }

    method RecordPreflight(passed: bool, w: World) returns (ok: bool)
      requires Valid()
      modifies this, flow
      ensures Valid()
      ensures (State(), ok) == old(State()).RecordPreflight(passed, w)
      ensures PreparesOrRestores(old(State()), State(), ok, LPreparing, LGuardedResourceStartup)
      ensures ok <==> old(lifecycle) == LPreparing && passed
      ensures AnswersStep(old(State()), State(), ok, LPreparing, LGuardedResourceStartup, passed, PreflightFailed)
    {
      hide AnswersStep, RestoresOnce, FlowProperties.Valid, OperatorFlow.Valid, OperatorFlow.State, Inv, PreparesOrRestores,
        Orch.Enter, Orch.RestoreOnce;
      PreflightAnswers(State(), passed, w);
      RecordPreflightKeeps(State(), passed, w);
      RecordPreflightPromise(State(), passed, w);
      if lifecycle != LPreparing {
        return false;
      }
      Enter(LPreflight);
      if !passed {
        RequestRestoreOnce(PreflightFailed, w);
        return false;
      }
      Enter(LGuardedResourceStartup);
      return true;
    }

    method QualifyResourceStartup(passed: bool, w: World) returns (ok: bool)
      requires Valid()
      modifies this, flow
      ensures Valid()
      ensures (State(), ok) == old(State()).QualifyResourceStartup(passed, w)
      ensures PreparesOrRestores(old(State()), State(), ok, LGuardedResourceStartup, LResourceStabilityVerified)
      ensures ok ==> passed && flow.state == ResourceCheck
      ensures AnswersStep(old(State()), State(), ok, LGuardedResourceStartup, LResourceStabilityVerified, passed,
                          ResourceQualificationFailed)
    {
      hide AnswersStep, RestoresOnce, FlowProperties.Valid, OperatorFlow.Valid, Inv, PreparesOrRestores, Orch.Enter,
        Orch.RestoreOnce, Flow.BeginResourceCheck;
      ResourceStartupAnswers(State(), passed, w);
      QualifyResourceStartupKeeps(State(), passed, w);
      QualifyResourceStartupPromise(State(), passed, w);
      if lifecycle != LGuardedResourceStartup {
        return false;
      }
      if !passed {
        RequestRestoreOnce(ResourceQualificationFailed, w);
        return false;
      }
      ok := CheckResources(w);
      if ok {
        Enter(LResourceStabilityVerified);
      }
    }

    method CheckResources(w: World) returns (ok: bool)
      requires flow.Valid()
      modifies flow
      ensures flow.Valid()
      ensures ok == old(State()).flow.BeginResourceCheck(w.now).1
      ensures State() == if ok then old(State()).(flow := old(State()).flow.BeginResourceCheck(w.now).0) else old(State())
    {
      hide FlowProperties.Valid, OperatorFlow.Valid, OperatorFlow.State;
      ok := flow.BeginResourceCheck(w.now);
    }

    method ArmRestoration(timerArmed: bool, manualVerified: bool, controlsPassed: bool, w: World) returns (ok: bool)
      requires Valid()
      modifies this, flow
      ensures Valid()
      ensures (State(), ok) == old(State()).ArmRestoration(timerArmed, manualVerified, controlsPassed, w)
      ensures PreparesOrRestores(old(State()), State(), ok, LResourceStabilityVerified, LRestorationArmed)
      ensures ok ==> timerArmed && manualVerified && controlsPassed && FlowProperties.Qualified(flow.State())
      ensures AnswersStep(old(State()), State(), ok, LResourceStabilityVerified, LRestorationArmed,
                          timerArmed && manualVerified && controlsPassed, RestorationSafeguardMissing)
    {
      hide AnswersStep, RestoresOnce, FlowProperties.Valid, OperatorFlow.Valid, OperatorFlow.State, Inv, PreparesOrRestores,
        Orch.Armed, Orch.RestoreOnce, Flow.QualifyResources;
      ArmingAnswers(State(), timerArmed, manualVerified, controlsPassed, w);
      ArmRestorationKeeps(State(), timerArmed, manualVerified, controlsPassed, w);
      ArmRestorationPromise(State(), timerArmed, manualVerified, controlsPassed, w);
      if lifecycle != LResourceStabilityVerified {
        return false;
      }
      ok := QualifyFlow(timerArmed && manualVerified && controlsPassed, timerArmed, manualVerified, w);
      if !ok {
        RequestRestoreOnce(RestorationSafeguardMissing, w);
        return false;
      }
      PublishArmed(controlsPassed);
    }

    method QualifyFlow(safe: bool, autoRestore: bool, independentAbort: bool, w: World) returns (ok: bool)
      requires flow.Valid()
      modifies flow
      ensures flow.Valid()
      ensures ok == old(State()).flow.QualifyResources(safe, autoRestore, independentAbort, w.now).1
      ensures State() == old(State()).(flow := old(State()).flow.QualifyResources(safe, autoRestore, independentAbort, w.now).0)
    {
      hide FlowProperties.Valid, OperatorFlow.Valid, OperatorFlow.State, Flow.QualifyResources;
      ok := flow.QualifyResources(safe, autoRestore, independentAbort, w.now);
    }

    method PublishArmed(controlsPassed: bool)
      modifies this`status, this`lifecycle
      ensures State() == old(State()).Armed(controlsPassed)
    {
      hide Orch.Enter;
      Enter(LRestorationArmed);
      status := status.(manualRestoreVerified := true, operatorControlsPassed := controlsPassed);
    }

    method AwaitOwnerStart(ttl: real, mode': Mode, w: World) returns (ok: bool)
      requires Valid()
      modifies this, flow
      ensures Valid()
      ensures (State(), ok) == old(State()).AwaitOwnerStart(ttl, mode', w)
      ensures Invites(old(State()), State(), ok, ttl, w.now)
      ensures ok <==> old(lifecycle) == LRestorationArmed && ttl > 0.0
    {
      hide AnswersStep, FlowProperties.Valid, OperatorFlow.Valid, OperatorFlow.State, Inv, Invites, Orch.OpenStart,
        Flow.AwaitOwnerStart;
      AwaitingAnswers(State(), ttl, mode', w);
      AwaitOwnerStartKeepsInv(State(), ttl, mode', w);
      AwaitOwnerStartPromise(State(), ttl, mode', w);
      if lifecycle != LRestorationArmed {
        return false;
      }
      ok := AwaitFlow(ttl, w);
      if ok {
        PublishOpenStart(mode');
      }
    }

    method AwaitFlow(ttl: real, w: World) returns (ok: bool)
      requires flow.Valid()
      modifies flow
      ensures flow.Valid()
      ensures ok == old(State()).flow.AwaitOwnerStart(w.now, ttl).1
      ensures State() == if ok then old(State()).(flow := old(State()).flow.AwaitOwnerStart(w.now, ttl).0) else old(State())
    {
      hide FlowProperties.Valid, OperatorFlow.Valid, OperatorFlow.State;
      ok := flow.AwaitOwnerStart(w.now, ttl);
    }

    method SetLease(mode': Mode)
      modifies this`leaseDeadline, this`mode
      ensures State() == old(State()).(leaseDeadline := old(State()).flow.startDeadline, mode := Some(mode'))
    {
      leaseDeadline := flow.startDeadline;
      mode := Some(mode');
    }

    method PublishOpenStart(mode': Mode)
      modifies this
      ensures State() == old(State()).OpenStart(mode')
    {
      hide Orch.Enter;
      SetLease(mode');
      Enter(LAwaitingOwnerStart);
      status := status.(manualRestoreVerified := true, operatorControlsPassed := true,
                        rechecking := mode' == ResourceRequalification);
    }

    // ---------- START and capture ----------

    method AcknowledgeFlow(w: World) returns (ok: bool)
      requires flow.Valid()
      modifies flow
      ensures flow.Valid()
      ensures ok == old(State()).flow.AcknowledgeStart("START", w.now).1
      ensures State() == old(State()).(flow := old(State()).flow.AcknowledgeStart("START", w.now).0)
    {
      hide FlowProperties.Valid, OperatorFlow.Valid, OperatorFlow.State, Flow.AcknowledgeStart;
      ok := flow.AcknowledgeStart("START", w.now);
    }

    method Accept(r: ControlRequest, now: real)
      modifies this`lastRequestId, this`accepted
      ensures State() == old(State()).Accept(r, now)
    {
      lastRequestId := r.requestId;
      accepted := accepted + [Accepted(r, now)];
    }

    method BeginHandoff()
      modifies this`handoffStarted, this`lifecycle, this`status
      ensures State() == old(State()).BeginHandoff()
    {
      hide Orch.Enter;
      handoffStarted := true;
      Enter(LCaptureHandoff);
    }

    method CallHandoff()
      modifies this`handoffCalls
      ensures State() == old(State()).CallHandoff()
    {
      handoffCalls := handoffCalls + 1;
    }

    /** The steps of consuming a START. */
    method TakeStart(r: ControlRequest, w: World) returns (result: PollResult)
      requires flow.Valid()
      modifies this, flow
      ensures flow.Valid()
      ensures (State(), result) == old(State()).ConsumeStart(r, w)
    {
      hide RestoresOnce, FlowProperties.Valid, OperatorFlow.Valid, OperatorFlow.State, Flow.AcknowledgeStart,
        Orch.Accept, Orch.Enter, Orch.BeginHandoff, Orch.CallHandoff, Orch.RestoreOnce, Orch.CompleteCaptureHandoff,
        Orch.StartIsCurrent;
      if !State().StartIsCurrent(r, w.now) {
        return Rejected;
      }
      var ok := AcknowledgeFlow(w);
      if !ok {
        return Rejected;
      }
      Accept(r, w.now);
      Enter(LOwnerStartAccepted);
      if deferHandoff {
        BeginHandoff();
        return HandoffDeferred;
      }
      if handoffStarted {
        return HandoffAlreadyStarted;
      }
      BeginHandoff();
      CallHandoff();
      match w.handoff {
        case HandoffRaised =>
          RequestRestoreOnce(CaptureHandoffFailed, w);
          return RestoringNow;
        case HandoffReady(ready) =>
          var complete := VerifyCapture(ready, w);
          return if complete then CaptureReady else RestoringNow;
      }
    }

    method ConsumeStart(r: ControlRequest, w: World) returns (result: PollResult)
      requires Valid() && lifecycle == LAwaitingOwnerStart
      modifies this, flow
      ensures Valid()
      ensures (State(), result) == old(State()).ConsumeStart(r, w)
      ensures ConsumesStart(old(State()), State(), result, r, w.now)
      ensures AnswersStart(old(State()), State(), result, r, w)
    {
      hide AnswersStart, Inv, ConsumesStart, Orch.ConsumeStart;
      StartAnswers(State(), r, w);
      ConsumeStartKeeps(State(), r, w);
      ConsumeStartPromise(State(), r, w);
      result := TakeStart(r, w);
    }

    method VerifyFlow(ready: Readiness, w: World) returns (ok: bool)
      requires flow.Valid()
      modifies flow
      ensures flow.Valid()
      ensures ok == old(State()).flow.VerifyCapture(ready.All(), ready.All(), w.now).1
      ensures State() == old(State()).(flow := old(State()).flow.VerifyCapture(ready.All(), ready.All(), w.now).0)
    {
      hide FlowProperties.Valid, OperatorFlow.Valid, OperatorFlow.State, Flow.VerifyCapture;
      ok := flow.VerifyCapture(ready.All(), ready.All(), w.now);
    }

    method PromptFlow(w: World) returns (gate: Option<Gate>)
      requires flow.Valid()
      modifies flow
      ensures flow.Valid()
      ensures gate == old(State()).flow.SpeakingPrompt(w.now).1
      ensures State() == old(State()).(flow := old(State()).flow.SpeakingPrompt(w.now).0)
    {
      hide FlowProperties.Valid, OperatorFlow.Valid, OperatorFlow.State, Flow.SpeakingPrompt;
      gate := flow.SpeakingPrompt(w.now);
    }

    method NoteReadiness(ready: Readiness)
      modifies this`readiness, this`wakeBaseline, this`gateStartedSequence
      ensures State() == old(State()).NoteReadiness(ready)
    {
      readiness := Some(ready);
      SetWakeBaseline(ready.baselineWakes);
      SetGateStart(eventSequence + 1);
    }

    method ShowFirstCue(gate: Gate)
      modifies this`status, this`lifecycle
      ensures State() == old(State()).ShowFirstCue(gate)
    {
      hide Orch.Enter;
      Enter(LStartSpeakingNow);
      status := status.(prompt := Some(Prompt(gate.key, gate.spokenPhrase)));
    }

    /** The steps of completing the handoff. */
    method VerifyCapture(ready: Readiness, w: World) returns (ok: bool)
      requires flow.Valid()
      modifies this, flow
      ensures flow.Valid()
      ensures (State(), ok) == old(State()).CompleteCaptureHandoff(ready, w)
    {
      hide RestoresOnce, FlowProperties.Valid, OperatorFlow.Valid, OperatorFlow.State, Flow.VerifyCapture,
        Flow.SpeakingPrompt, Orch.NoteReadiness, Orch.ShowFirstCue, Orch.RestoreOnce;
      if lifecycle != LCaptureHandoff || !handoffStarted {
        return false;
      }
      ok := VerifyFlow(ready, w);
      if !ok {
        RequestRestoreOnce(CaptureReadinessFailed, w);
        return false;
      }
      ok := ShowFirstGate(ready, w);
    }

    method CompleteCaptureHandoff(ready: Readiness, w: World) returns (ok: bool)
      requires Valid()
      modifies this, flow
      ensures Valid()
      ensures (State(), ok) == old(State()).CompleteCaptureHandoff(ready, w)
      ensures HandsOver(old(State()), State(), ok, ready)
      ensures old(lifecycle) == LCaptureHandoff ==> AnswersHandoff(old(State()), State(), ok, ready)
    {
      hide AnswersHandoff, Inv, HandsOver, Orch.CompleteCaptureHandoff;
      if lifecycle == LCaptureHandoff {
        HandoffAnswers(State(), ready, w);
      }
      CompleteCaptureHandoffKeeps(State(), ready, w);
      CompleteCaptureHandoffPromise(State(), ready, w);
      ok := VerifyCapture(ready, w);
    }

    method ShowFirstGate(ready: Readiness, w: World) returns (ok: bool)
      requires flow.Valid()
      modifies this, flow
      ensures flow.Valid()
      ensures var (prompted, gate) := old(State()).flow.SpeakingPrompt(w.now);
              var p := old(State()).(flow := prompted);
              (State(), ok) == if gate.None? then (p.RestoreOnce(InitialPromptUnavailable, w), false)
                               else (p.NoteReadiness(ready).ShowFirstCue(gate.value), true)
    {
      hide Inv, RestoresOnce, FlowProperties.Valid, OperatorFlow.Valid, OperatorFlow.State, Flow.SpeakingPrompt,
        Orch.NoteReadiness, Orch.ShowFirstCue, Orch.RestoreOnce;
      var gate := PromptFlow(w);
      if gate.None? {
        RequestRestoreOnce(InitialPromptUnavailable, w);
        return false;
      }
      NoteReadiness(ready);
      ShowFirstCue(gate.value);
      return true;
    }

    method EstablishRuntimeBaseline(sequence: int, health: Option<VoiceHealth>) returns (ok: bool)
      requires Valid()
      modifies this`eventSequence, this`gateStartedSequence, this`voice, this`wakeBaseline
      ensures Valid()
      ensures (State(), ok) == old(State()).EstablishRuntimeBaseline(sequence, health)
      ensures SetsBaseline(old(State()), State(), ok, sequence, health)
    {
      hide FlowProperties.Valid, OperatorFlow.Valid, OperatorFlow.State, Inv, SetsBaseline;
      EstablishRuntimeBaselineKeeps(State(), sequence, health);
      EstablishRuntimeBaselinePromise(State(), sequence, health);
      if lifecycle != LCaptureHandoff || sequence < 0 {
        return false;
      }
      MoveBaseline(sequence, health);
      return true;
    }

    method MoveBaseline(sequence: int, health: Option<VoiceHealth>)
      requires lifecycle == LCaptureHandoff && sequence >= 0
      modifies this`eventSequence, this`gateStartedSequence, this`voice, this`wakeBaseline
      ensures State() == old(State()).EstablishRuntimeBaseline(sequence, health).0
    {
      if sequence > eventSequence {
        SetEventSequence(sequence);
      }
      SetGateStart(eventSequence + 1);
      if health.Some? {
        SetVoice(health);
        SetWakeBaseline(health.value.wakes.GetOr(0));
      }
    }

    // ---------- gates ----------

    method RecordFlow(passed: bool, w: World) returns (ok: bool)
      requires flow.Valid()
      modifies flow
      ensures flow.Valid()
      ensures ok == old(State()).flow.RecordGateResult(passed, w.now).1
      ensures State() == if ok then old(State()).(flow := old(State()).flow.RecordGateResult(passed, w.now).0) else old(State())
    {
      hide FlowProperties.Valid, OperatorFlow.Valid, OperatorFlow.State;
      ok := flow.RecordGateResult(passed, w.now);
    }

    method AddResult(summary: GateSummary)
      modifies this`gateResults, this`status, this`lifecycle
      ensures State() == old(State()).AddResult(summary)
    {
      hide Orch.Enter;
      gateResults := gateResults + [summary];
      Enter(LGateResult);
    }

    method RecordGate(passed: bool, failure: Option<Failure>, database: Option<Database>, w: World) returns (ok: bool)
      requires flow.Valid()
      modifies this, flow
      ensures flow.Valid()
      ensures (State(), ok) == old(State()).RecordGate(passed, failure, database, w)
      ensures GivesVerdict(old(State()), State(), ok, passed, failure, database, w.now)
    {
      hide FlowProperties.Valid, OperatorFlow.Valid, OperatorFlow.State, GivesVerdict, Flow.RecordGateResult,
        Orch.AddResult, Orch.GateStart, Orch.ShownAt, Orch.EvidenceNow;
      RecordGatePromise(State(), passed, failure, database, w);
      var gate := State().CurrentGate();
      if gate.None? {
        return false;
      }
      var started := State().GateStart(w.now);
      var shown, seen, evidence := State().ShownAt(w.now), |observed|, State().EvidenceNow(database);
      ok := RecordFlow(passed, w);
      if ok {
        AddResult(GateSummary(gate.value, passed, failure, started, w.now, Max(0.0, (w.now - started) * 1000.0),
                              shown, seen, evidence));
      }
    }

    method FailGate(failure: Failure, w: World)
      requires flow.Valid()
      modifies this, flow
      ensures flow.Valid()
      ensures State() == old(State()).FailGate(failure, w)
      ensures FailsGate(old(State()), State())
      ensures old(Valid()) ==> Valid()
    {
      hide RestoresOnce, GivesVerdict, FlowProperties.Valid, OperatorFlow.Valid, OperatorFlow.State, Inv, FailsGate,
        Orch.RecordGate, Orch.RestoreOnce;
      FailGatePromise(State(), failure, w);
      if Inv(State()) {
        FailGateWhenever(State(), failure, w);
      }
      var gate := State().CurrentGate();
      if gate.None? || InRestoration(lifecycle) {
        return;
      }
      var _ := RecordGate(false, Some(failure), None, w);
      RequestRestoreOnce(PhysicalGateFailed(gate.value), w);
    }

    method Aim(next: NextGate)
      modifies this`gateStartedSequence, this`wakeBaseline, this`playback
      ensures State() == old(State()).Aim(next)
    {
      SetGateStart(next.includeSequence.GetOr(eventSequence + 1));
      if voice.Some? && voice.value.wakes.Some? {
        SetWakeBaseline(voice.value.wakes.value);
      }
      playback := next.playback;
    }

    method Prepare(key: GateKey, w: World)
      modifies this`phase, this`databaseBefore, this`quietReady, this`quietDeadline
      ensures State() == old(State()).Prepare(key, w)
    {
      if key == IsolatedAssessment {
        SetPhase(AnswerPhase);
        if w.attempt.AttemptSnapshot? {
          databaseBefore := Some(w.attempt.database);
        }
      } else if key == NoStalePlayback {
        SetQuietWindow(w.now);
      }
    }

    method Show(gate: Gate)
      modifies this`status
      ensures State() == old(State()).Show(gate)
    {
      hide Orch.Publish;
      Publish();
      status := status.(captureVerified := true,
                        prompt := Some(Prompt(gate.key, gate.spokenPhrase)),
                        operatorState := GateText(gate.key),
                        ownerAction := GateAction(gate.key));
    }

    method Present(gate: Gate, w: World) returns (ok: bool)
      requires flow.Valid()
      modifies this, flow
      ensures flow.Valid()
      ensures (State(), ok) == old(State()).Present(gate, w)
    {
      hide Inv, RestoresOnce, FlowProperties.Valid, OperatorFlow.Valid, OperatorFlow.State, Orch.Prepare, Orch.Show,
        Orch.RestoreOnce;
      SetLifecycle(LStartSpeakingNow);
      if gate.key == IsolatedAssessment && w.attempt.AttemptRaised? {
        SetPhase(AnswerPhase);
        RequestRestoreOnce(AssessmentDatabaseUnavailable, w);
        return false;
      }
      Prepare(gate.key, w);
      Show(gate);
      return true;
    }

    method SetQuietWindow(now: real)
      modifies this`quietDeadline, this`quietReady
      ensures State() == old(State()).(quietDeadline := Some(now + QUIET_SECONDS), quietReady := false)
    {
      quietDeadline := Some(now + QUIET_SECONDS);
      quietReady := false;
    }

    method SetEventSequence(sequence: int)
      modifies this`eventSequence
      ensures State() == old(State()).(eventSequence := sequence)
    {
      eventSequence := sequence;
    }

    method SetVoice(health: Option<VoiceHealth>)
      modifies this`voice
      ensures State() == old(State()).(voice := health)
    {
      voice := health;
    }

    method SetWakeBaseline(wakes: int)
      modifies this`wakeBaseline
      ensures State() == old(State()).(wakeBaseline := wakes)
    {
      wakeBaseline := wakes;
    }

    method SetLifecycle(l: Lifecycle)
      modifies this`lifecycle
      ensures State() == old(State()).(lifecycle := l)
    {
      lifecycle := l;
    }

    method SetPhase(p: AssessmentPhase)
      modifies this`phase
      ensures State() == old(State()).(phase := p)
    {
      phase := p;
    }

    method ShowNextGate(next: NextGate, w: World) returns (ok: bool)
      requires flow.Valid()
      modifies this, flow
      ensures flow.Valid()
      ensures (State(), ok) == old(State()).ShowNextGate(next, w)
      ensures ShowsNext(old(State()), State(), ok)
      ensures old(NextDue(State(), next)) ==> Valid()
    {
      hide RestoresOnce, FailsGate, FlowProperties.Valid, OperatorFlow.State, Inv, NextDue, ShowsNext,
        Flow.SpeakingPrompt, Orch.Aim, Orch.FailGate, Orch.Present, Orch.RestoreOnce;
      ShowNextGatePromise(State(), next, w);
      if NextDue(State(), next) {
        ShowNextGateKeeps(State(), next, w);
      }
      var gate := PromptFlow(w);
      if gate.None? {
        RequestRestoreOnce(AllPhysicalGatesCompleted, w);
        return false;
      }
      ok := ShowGate(gate.value, next, w);
    }

    method ShowGate(gate: Gate, next: NextGate, w: World) returns (ok: bool)
      requires flow.Valid()
      modifies this, flow
      ensures flow.Valid()
      ensures var o := old(State()).Aim(next);
              && o.flow == old(State()).flow
              && (State(), ok) == if gate.key == LearningOutput && !Identified(next.playback)
                                  then (o.FailGate(PlaybackIdentityUnavailable, w), false) else o.Present(gate, w)
    {
      hide Inv, FailsGate, FlowProperties.Valid, OperatorFlow.Valid, OperatorFlow.State, Orch.Aim, Orch.FailGate,
        Orch.Present;
      AimKeepsFlow(State(), next);
      Aim(next);
      if gate.key == LearningOutput && !Identified(next.playback) {
        FailGate(PlaybackIdentityUnavailable, w);
        return false;
      }
      ok := Present(gate, w);
    }

    method AskForYes(now: real)
      requires flow.Valid()
      modifies this`phase, this`gateStartedSequence, this`lifecycle, this`status, flow
      ensures flow.Valid()
      ensures State() == old(State()).AskForYes(now)
    {
      hide FlowProperties.Valid, OperatorFlow.Valid, OperatorFlow.State, Orch.Enter, Flow.RestartGateClock, Orch.YesCue;
      RestartClock(now);
      SetPhase(ConfirmPhase);
      SetGateStart(eventSequence + 1);
      Enter(LStartSpeakingNow);
      ShowYesCue();
    }

    method ShowYesCue()
      modifies this`status
      ensures State() == old(State()).YesCue()
    {
      status := status.(operatorState := FlowText(StartSpeaking),
                        prompt := Some(Prompt(IsolatedAssessment, Some("Yes"))));
    }

    method RestartClock(now: real)
      requires flow.Valid()
      modifies flow
      ensures flow.Valid()
      ensures State() == old(State()).(flow := old(State()).flow.RestartGateClock(now))
    {
      hide FlowProperties.Valid, OperatorFlow.Valid, OperatorFlow.State, Flow.RestartGateClock;
      flow.RestartGateClock(now);
    }

    method SetGateStart(sequence: int)
      modifies this`gateStartedSequence
      ensures State() == old(State()).(gateStartedSequence := sequence)
    {
      gateStartedSequence := sequence;
    }

    method ConfirmQuiet(now: real)
      modifies this`quietReady, this`quietConfirmedAt, this`status
      ensures State() == old(State()).ConfirmQuiet(now)
    {
      hide Orch.Publish;
      SetQuiet(now);
      Publish();
      status := status.(operatorState := WaitingOwnerConfirmation,
                        prompt := Some(Prompt(NoStalePlayback, None)),
                        ownerAction := Some(ConfirmNoStalePlayback));
    }

    method SetQuiet(now: real)
      modifies this`quietReady, this`quietConfirmedAt
      ensures State() == old(State()).(quietReady := true, quietConfirmedAt := Some(now))
    {
      quietReady := true;
      quietConfirmedAt := Some(now);
    }

    method NoteStop(stop: int, now: real)
      modifies this`stopSequence, this`quietDeadline, this`quietReady
      ensures State() == old(State()).NoteStop(stop, now)
    {
      stopSequence := Some(stop);
      SetQuietWindow(now);
    }

    method EvaluateCurrentGate(database: Option<Database>, w: World)
      requires flow.Valid()
      modifies this, flow
      ensures flow.Valid()
      ensures State() == old(State()).Evaluate(database, w)
      ensures Judges(old(State()), State())
      ensures old(Valid() && !InRestoration(lifecycle)) ==>
                Valid() && AnswersEvaluation(old(State()), State(), database, w)
    {
      hide AnswersEvaluation, FailsGate, FlowProperties.Valid, OperatorFlow.State, Inv, Judges, Orch.Decide, Orch.FailGate,
        Orch.RecordGate, Orch.ShowNextGate, Orch.NoteStop, Orch.AskForYes, Orch.ConfirmQuiet;
      EvaluatePromise(State(), database, w);
      if Inv(State()) && !InRestoration(lifecycle) {
        JudgedKeeps(State(), database, w);
        EvaluationAnswers(State(), database, w);
      }
      var judged := State().Judged(database, w);
      var verdict := State().Decide(judged, w.now);
      match verdict {
        case Wait =>
        case Fail(failure) => FailGate(failure, w);
        case AskConfirmation => AskForYes(w.now);
        case QuietConfirmed => ConfirmQuiet(w.now);
        case Pass(next) => PassGate(next, judged, w);
        case PassStopped(stop) => PassStoppedGate(stop, judged, w);
        case PassWithoutTurn => PassGateWithoutTurn(judged, w);
      }
    }

    method PassGate(next: NextGate, database: Option<Database>, w: World)
      requires flow.Valid()
      modifies this, flow
      ensures flow.Valid()
      ensures var (o, ok) := old(State()).RecordGate(true, None, database, w);
              State() == if ok then o.ShowNextGate(next, w).0 else old(State())
    {
      hide GivesVerdict, Inv, ShowsNext, NextDue, FlowProperties.Valid, OperatorFlow.Valid, OperatorFlow.State,
        Orch.RecordGate, Orch.ShowNextGate;
      NothingRecordedNothingChanged(State(), database, w);
      var ok := RecordGate(true, None, database, w);
      if ok {
        var _ := ShowNextGate(next, w);
      }
    }

    method PassStoppedGate(stop: int, database: Option<Database>, w: World)
      requires flow.Valid()
      modifies this, flow
      ensures flow.Valid()
      ensures var (o, ok) := old(State()).RecordGate(true, None, database, w);
              o.NoteStop(stop, w.now).flow == o.flow
              && State() == if ok then o.NoteStop(stop, w.now).ShowNextGate(NextGate(Some(stop), NO_PLAYBACK), w).0
                    else old(State())
    {
      hide GivesVerdict, Inv, ShowsNext, NextDue, FlowProperties.Valid, OperatorFlow.Valid, OperatorFlow.State,
        Orch.RecordGate, Orch.ShowNextGate;
      NothingRecordedNothingChanged(State(), database, w);
      var ok := RecordGate(true, None, database, w);
      if ok {
        NoteStop(stop, w.now);
        var _ := ShowNextGate(NextGate(Some(stop), NO_PLAYBACK), w);
      }
    }

    method PassGateWithoutTurn(database: Option<Database>, w: World)
      requires flow.Valid()
      modifies this, flow
      ensures flow.Valid()
      ensures var (o, ok) := old(State()).RecordGate(true, None, database, w);
              State() == if ok then o.FailGate(TurnIdentityUnavailable, w) else old(State())
    {
      hide GivesVerdict, Inv, FailsGate, FlowProperties.Valid, OperatorFlow.Valid, OperatorFlow.State, Orch.RecordGate,
        Orch.FailGate;
      NothingRecordedNothingChanged(State(), database, w);
      var ok := RecordGate(true, None, database, w);
      if ok {
        FailGate(TurnIdentityUnavailable, w);
      }
    }

    // ---------- the runtime event stream ----------

    method Append(e: RuntimeEvent)
      modifies this`eventSequence, this`events, this`observed
      ensures State() == old(State()).Append(e)
    {
      hide Orch.Stored;
      Store(e);
      SetEventSequence(e.sequence);
      observed := observed + [e];
    }

    method Store(e: RuntimeEvent)
      modifies this`events
      ensures State() == old(State()).(events := old(State()).Stored(e))
    {
      var all := events + [e];
      events := if |all| > EVENT_WINDOW then all[|all| - EVENT_WINDOW..] else all;
    }

    method ObserveOne(e: RuntimeEvent, database: Option<Database>, w: World) returns (done: bool)
      requires flow.Valid()
      modifies this, flow
      ensures flow.Valid()
      ensures (State(), done) == old(State()).ObserveOne(e, database, w)
    {
      hide Inv, FailsGate, Judges, FlowProperties.Valid, OperatorFlow.Valid, OperatorFlow.State, Orch.Append,
        Orch.FailGate, Orch.Evaluate;
      if e.sequence <= eventSequence {
        return false;
      }
      AppendKeepsGate(State(), e);
      var quietGate := State().CurrentGate() == Some(NoStalePlayback);
      Append(e);
      if stopSequence.Some? && e.sequence > stopSequence.value && e.Speech() && quietGate {
        FailGate(SpeechAfterStop, w);
        return true;
      }
      EvaluateCurrentGate(database, w);
      return InRestoration(lifecycle);
    }

    method ObserveRuntimeEvents(delivered: seq<RuntimeEvent>, health: Option<VoiceHealth>, database: Option<Database>,
                                w: World)
      requires Valid()
      modifies this, flow
      ensures Valid()
      ensures State() == old(State()).ObserveRuntimeEvents(delivered, health, database, w)
      ensures Observes(old(State()), State(), delivered)
      ensures AnswersDelivery(old(State()), State(), delivered, health, database, w)
    {
      hide FlowProperties.Valid, OperatorFlow.Valid, OperatorFlow.State, Inv, Observes, AnswersDelivery, Orch.ObserveOne,
        Orch.Evaluate, SortedBySequence;
      DeliveryAnswers(State(), delivered, health, database, w);
      ObserveRuntimeEventsKeeps(State(), delivered, health, database, w);
      ObserveRuntimeEventsPromise(State(), delivered, health, database, w);
      if mode == Some(ResourceRequalification) {
        return;
      }
      if health.Some? {
        SetVoice(health);
      }
      if InRestoration(lifecycle) {
        return;
      }
      ObserveInOrder(SortedBySequence(delivered), database, w);
    }

    method ObserveInOrder(batch: seq<RuntimeEvent>, database: Option<Database>, w: World)
      requires flow.Valid()
      modifies this, flow
      ensures flow.Valid()
      ensures State() == old(State()).ObserveBatch(batch, database, w)
    {
      hide Inv, Judges, FlowProperties.Valid, OperatorFlow.Valid, OperatorFlow.State, Orch.ObserveOne, Orch.Evaluate;
      for k := 0 to |batch|
        invariant flow.Valid()
        invariant State().ObserveBatch(batch[k..], database, w) == old(State()).ObserveBatch(batch, database, w)
      {
        var done := ObserveOne(batch[k], database, w);
        assert batch[k..][1..] == batch[k + 1..];
        if done {
          return;
        }
      }
      EvaluateCurrentGate(database, w);
    }

    // ---------- owner observations ----------

    method Observe(r: ObservationRequest, w: World)
      modifies this`observations
      ensures State() == old(State()).Observe(r, w)
    {
      hide Orch.CurrentGate;
      var gate := State().CurrentGate();
      if r.requestId.Some? && r.action.Some? && gate.Some? {
        observations := observations + [Observation(r.requestId.value, gate.value, r.action.value, w.now)];
      }
    }

    method ConsumeOwnerObservation(r: ObservationRequest, w: World) returns (ok: bool)
      requires Valid()
      modifies this, flow
      ensures Valid()
      ensures (State(), ok) == old(State()).ConsumeOwnerObservation(r, w)
      ensures Confirms(old(State()), State(), ok, r, w.now)
      ensures AnswersConfirmation(old(State()), State(), ok, r, w)
    {
      hide AnswersConfirmation, FailsGate, FlowProperties.Valid, OperatorFlow.Valid, OperatorFlow.State, Inv, Confirms,
        Orch.ObservationIsCurrent, Orch.CurrentGate, Orch.NamesActivePlayback, Orch.PlaybackEnded, Orch.Observe,
        Orch.FailGate, Orch.RecordGate, Orch.ShowNextGate, Orch.RestoreOnce;
      ConfirmationAnswers(State(), r, w);
      ConsumeOwnerObservationKeeps(State(), r, w);
      ConsumeOwnerObservationPromise(State(), r, w);
      if !State().ObservationIsCurrent(r, w.now) {
        return false;
      }
      match r.action {
        case None =>
          return false;
        case Some(ConfirmNoStalePlayback) =>
          if State().CurrentGate() != Some(NoStalePlayback) || !quietReady {
            return false;
          }
          PassConfirmed(r, PLAIN_NEXT, w);
        case Some(ConfirmLearningOutputAudible) =>
          if State().CurrentGate() != Some(LearningOutput) || !State().NamesActivePlayback(r) {
            return false;
          }
          if State().PlaybackEnded() {
            FailGate(NotConfirmedDuringPlayback, w);
            return false;
          }
          PassConfirmed(r, NextGate(playback.sequence, playback.(sessionId := None)), w);
        case Some(ConfirmUiVoiceSync) =>
          if State().CurrentGate() != Some(UiVoiceSynchronization) {
            return false;
          }
          CompleteConfirmed(r, w);
      }
      return true;
    }

    method PassConfirmed(r: ObservationRequest, next: NextGate, w: World)
      requires flow.Valid()
      modifies this, flow
      ensures flow.Valid()
      ensures old(State()).Observe(r, w).flow == old(State()).flow
      ensures State() == old(State()).Observe(r, w).RecordGate(true, None, None, w).0.ShowNextGate(next, w).0
    {
      hide GivesVerdict, Inv, ShowsNext, NextDue, FlowProperties.Valid, OperatorFlow.Valid, OperatorFlow.State,
        Orch.RecordGate, Orch.ShowNextGate, Orch.CurrentGate;
      Observe(r, w);
      var _ := RecordGate(true, None, None, w);
      var _ := ShowNextGate(next, w);
    }

    method CompleteConfirmed(r: ObservationRequest, w: World)
      requires flow.Valid()
      modifies this, flow
      ensures flow.Valid()
      ensures old(State()).Observe(r, w).flow == old(State()).flow
      ensures State() == old(State()).Observe(r, w).RecordGate(true, None, None, w).0.RestoreOnce(AllPhysicalGatesCompleted, w)
    {
      hide Inv, RestoresOnce, GivesVerdict, FlowProperties.Valid, OperatorFlow.Valid, OperatorFlow.State,
        Orch.RecordGate, Orch.RestoreOnce, Orch.CurrentGate;
      Observe(r, w);
      var _ := RecordGate(true, None, None, w);
      RequestRestoreOnce(AllPhysicalGatesCompleted, w);
    }

    // ---------- polling and the end ----------

    method PollOnce(safetyHealthy: bool, candidateAlive: bool, file: RequestFile, w: World) returns (result: PollResult)
      requires Valid()
      modifies this, flow
      ensures Valid()
      ensures (State(), result) == old(State()).PollOnce(safetyHealthy, candidateAlive, file, w)
      ensures Polls(old(State()), State(), result, safetyHealthy, candidateAlive, file, w.now)
      ensures AnswersPoll(old(State()), State(), result, safetyHealthy, candidateAlive, file, w)
    {
      hide AnswersPoll, AnswersRestore, AnswersStart, TakesStart, RestoresOnce, FlowProperties.Valid, OperatorFlow.Valid,
        OperatorFlow.State, Inv, Polls, Orch.RestoreOnce, Orch.ConsumeStart, Orch.Enter;
      PollAnswers(State(), safetyHealthy, candidateAlive, file, w);
      PollOnceKeeps(State(), safetyHealthy, candidateAlive, file, w);
      PollOncePromise(State(), safetyHealthy, candidateAlive, file, w);
      if InRestoration(status.status) {
        SetLifecycle(status.lifecycle);
        return if lifecycle == LRestoredVerified then RestoredNow else RestoringNow;
      }
      if lifecycle != LAwaitingOwnerStart {
        return Idle;
      }
      if !safetyHealthy {
        RequestRestoreOnce(PreStartSafetyCheckFailed, w);
        return RestoringNow;
      }
      if !candidateAlive {
        RequestRestoreOnce(CandidateDied, w);
        return RestoringNow;
      }
      if leaseDeadline.Some? && w.now >= leaseDeadline.value {
        RequestRestoreOnce(LeaseExpired, w);
        return RestoringNow;
      }
      match file {
        case NoRequest => return Waiting;
        case NotAnObject =>
          RequestRestoreOnce(InvalidControlRequest, w);
          return RestoringNow;
        case Request(r) =>
          if r.sessionId != Some(sessionId) {
            return StaleRejected;
          }
          if r.action == AbortAction || r.action == FinishAction {
            AcceptOwnerAbort();
            return RestoringNow;
          }
          if r.action != StartAction {
            RequestRestoreOnce(UnsupportedControlRequest, w);
            return RestoringNow;
          }
          result := ConsumeStart(r, w);
      }
    }

    method AcceptOwnerAbort()
      modifies this`lifecycle, this`status, this`restoreRequested
      ensures State() == old(State()).Enter(LRestoring).(restoreRequested := true)
    {
      hide Orch.Enter;
      Enter(LRestoring);
      restoreRequested := true;
    }

    method ConfirmRestoration(verified: bool, w: World) returns (ok: bool)
      requires Valid()
      modifies this, flow
      ensures Valid()
      ensures (State(), ok) == old(State()).ConfirmRestoration(verified, w)
      ensures EndsRestoration(old(State()), State(), ok, verified)
    {
      hide FlowProperties.Valid, OperatorFlow.Valid, OperatorFlow.State, Inv, EndsRestoration, Orch.Enter,
        Flow.RestorationComplete;
      ConfirmRestorationKeeps(State(), verified, w);
      ConfirmRestorationPromise(State(), verified, w);
      if !verified {
        Enter(LRestoreFailed);
        return false;
      }
      CompleteFlow(w);
      Enter(LRestoredVerified);
      return true;
    }

    method CompleteFlow(w: World)
      requires flow.Valid()
      modifies flow
      ensures flow.Valid()
      ensures State() == old(State()).(flow := old(State()).flow.RestorationComplete(true, w.now).0)
    {
      hide FlowProperties.Valid, OperatorFlow.Valid, OperatorFlow.State, Flow.RestorationComplete;
      var _ := flow.RestorationComplete(true, w.now);
    }
  }

  lemma JudgedKeeps(o: Orch, database: Option<Database>, w: World)
    requires Inv(o) && !InRestoration(o.lifecycle)
    ensures o.flow.IndexInRange()
    ensures Inv(o.Evaluate(database, w))
  {
    hide Core, Settled;
    QuietGateCanBeJudged(o);
    EvaluateKeeps(o, database, w);
  }

  lemma AppendKeepsGate(o: Orch, e: RuntimeEvent)
    ensures o.Append(e).flow == o.flow && o.Append(e).stopSequence == o.stopSequence
  {
  }

  lemma AimKeepsFlow(o: Orch, next: NextGate)
    ensures o.Aim(next).flow == o.flow
  {
  }

  lemma NothingRecordedNothingChanged(o: Orch, database: Option<Database>, w: World)
    requires o.flow.IndexInRange()
    ensures !o.RecordGate(true, None, database, w).1 ==> o.RecordGate(true, None, database, w).0 == o
  {
    hide Flow.RecordGateResult, Orch.AddResult;
  }
}
