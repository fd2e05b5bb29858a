/** The operator orchestrator as a value: its state, the status it publishes, and what each of its
    operations does.  One operation reads the clock once. */
module Orchestrator {
  import opened Prelude
  import opened PhysicalControl
  import opened GateEvidence

  const GATE_TIMEOUT: real := 240.0
  const QUIET_SECONDS: real := 5.0
  const OBSERVATION_MAX_AGE: real := 30.0
  const EVENT_WINDOW: nat := 2048

  datatype Lifecycle =
    | LPreparing | LPreflight | LGuardedResourceStartup | LResourceStabilityVerified | LRestorationArmed
    | LAwaitingOwnerStart | LOwnerStartAccepted | LCaptureHandoff | LStartSpeakingNow | LGateResult
    | LRestoring | LRestoreFailed | LRestoredVerified
    | LOther

  predicate InRestoration(l: Lifecycle) {
    l.LRestoring? || l.LRestoreFailed? || l.LRestoredVerified?
  }

  datatype Mode = PhysicalVoice | ResourceRequalification

  /** The operator state shown on the page: the flow's own, or a text only the page knows. */
  datatype OperatorText = FlowText(state: FlowState) | WaitingOwnerConfirmation | WaitingForQuietCheck | ForeignText

  datatype OwnerAction = ConfirmLearningOutputAudible | ConfirmNoStalePlayback | ConfirmUiVoiceSync

  datatype Prompt = Prompt(gate: GateKey, phrase: Option<string>)

  /** The shared status file. */
  datatype Status = Status(
    status: Lifecycle,
    lifecycle: Lifecycle,
    operatorState: OperatorText,
    sessionId: string,
    resourceSafe: bool,
    autoRestoreArmed: bool,
    independentAbortArmed: bool,
    manualRestoreVerified: bool,
    operatorControlsPassed: bool,
    ownerStartCount: nat,
    startDeadline: Option<real>,
    captureVerified: bool,
    prompt: Option<Prompt>,
    ownerAction: Option<OwnerAction>,
    rechecking: bool)

  /** What others write over the status file: the page's abort and the restore service a restoration, with
      the operator state and perhaps the lifecycle; the candidate's own reports any other text, alone. */
  datatype ForeignStatus = ForeignStatus(text: Lifecycle, lifecycle: Option<Lifecycle>, namesState: bool)

  /** A lifecycle that is written by others is one of restoration. */
  predicate PossibleStatus(f: ForeignStatus) {
    f.lifecycle.Some? ==> InRestoration(f.lifecycle.value)
  }

  function Overwritten(s: Status, f: ForeignStatus): Status {
    s.(status := f.text, operatorState := if f.namesState then ForeignText else s.operatorState,
       lifecycle := f.lifecycle.GetOr(s.lifecycle))
  }

  /** A recorded verdict, with its history: when the gate was really shown, how many runtime events had
      been observed by the verdict, and what the verdict was given on. */
  datatype GateSummary = GateSummary(
    gate: GateKey, passed: bool, failure: Option<Failure>,
    startedAt: real, completedAt: real, durationMs: real, shownAt: real, seen: nat,
    evidence: Evidence)

  datatype Observation = Observation(requestId: string, gate: GateKey, action: OwnerAction, acceptedAt: real)

  datatype RequestAction = StartAction | AbortAction | FinishAction | OtherAction

  datatype ControlRequest = ControlRequest(
    sessionId: Option<string>,
    requestId: Option<string>,
    action: RequestAction,
    acknowledgement: string,
    requestedMonotonic: Option<real>)

  /** What the orchestrator finds at the request path. */
  datatype RequestFile = NoRequest | NotAnObject | Request(request: ControlRequest)

  datatype ObservationRequest = ObservationRequest(
    sessionId: Option<string>,
    requestId: Option<string>,
    action: Option<OwnerAction>,
    gate: Option<GateKey>,
    requestedMonotonic: Option<real>,
    playbackId: Option<PlaybackId>,
    playbackTurnId: Option<string>,
    playbackSequence: Option<int>)

  datatype Accepted = Accepted(request: ControlRequest, at: real)

  datatype Handoff = HandoffRaised | HandoffReady(readiness: Readiness)

  datatype Attempt = NoAttemptCallback | AttemptRaised | AttemptSnapshot(database: Database)

  /** What the world answers while one operation runs. */
  datatype World = World(now: real, restoreLaunches: bool, handoff: Handoff, attempt: Attempt)

  datatype PollResult =
    | Idle | Waiting | Rejected | StaleRejected | RestoringNow | RestoredNow
    | HandoffDeferred | CaptureReady | HandoffAlreadyStarted

  datatype AssessmentPhase = AnswerPhase | ConfirmPhase

  datatype Orch = Orch(
    flow: Flow,
    sessionId: string,
    deferHandoff: bool,
    mode: Option<Mode>,
    lifecycle: Lifecycle,
    leaseDeadline: Option<real>,
    handoffStarted: bool,
    restoreRequested: bool,
    lastRequestId: Option<string>,
    eventSequence: int,
    events: seq<RuntimeEvent>,
    gateResults: seq<GateSummary>,
    observations: seq<Observation>,
    readiness: Option<Readiness>,
    voice: Option<VoiceHealth>,
    gateStartedSequence: int,
    wakeBaseline: int,
    playback: Playback,
    quietDeadline: Option<real>,
    quietReady: bool,
    stopSequence: Option<int>,
    phase: AssessmentPhase,
    databaseBefore: Option<Database>,
    status: Status,
    // The history of what was done outside and of what was seen.
    restoreCalls: seq<AbortReason>,
    handoffCalls: nat,
    accepted: seq<Accepted>,
    observed: seq<RuntimeEvent>,
    quietConfirmedAt: Option<real>)
  {
    /** `o` is of the same session, has seen exactly the same runtime events, and accepted the same STARTs. */
    predicate SameStream(o: Orch) {
      o.observed == observed && o.events == events && o.eventSequence == eventSequence
      && o.accepted == accepted && o.sessionId == sessionId
    }

    // ---------- publishing and restoring ----------

    /** What a publication without extras writes; two flags survive from the file before. */
    function Snapshot(): Status {
      Status(lifecycle, lifecycle, FlowText(flow.state), sessionId,
             flow.resourceSafe, flow.autoRestoreArmed, flow.independentAbortArmed,
             status.manualRestoreVerified, status.operatorControlsPassed,
             flow.ownerStartCount, flow.startDeadline, flow.captureVerified,
             None, None, status.rechecking)
    }

    function Publish(): Orch {
      this.(status := Snapshot())
    }

    function Enter(l: Lifecycle): Orch {
      this.(lifecycle := l).Publish()
    }

    function RestoreOnce(reason: AbortReason, w: World): (o: Orch)
      ensures (flow.IndexInRange() ==> o.flow.IndexInRange()) && SameStream(o)
    {
      if restoreRequested then this
      else
        var o := Leave(AbortedFlow(flow, reason, w.now), reason);
        if w.restoreLaunches then o else o.LaunchFailed()
    }

    function Leave(aborted: Flow, reason: AbortReason): Orch {
      this.(restoreRequested := true, flow := aborted, restoreCalls := restoreCalls + [reason]).Enter(LRestoring)
    }

    function LaunchFailed(): Orch {
      var o := Publish();
      o.(status := o.status.(status := LRestoreFailed))
    }

    // ---------- preparation ----------

    function RecordPreflight(passed: bool, w: World): (Orch, bool) {
      if lifecycle != LPreparing then (this, false)
      else if !passed then (Enter(LPreflight).RestoreOnce(PreflightFailed, w), false)
      else (Enter(LPreflight).Enter(LGuardedResourceStartup), true)
    }

    function QualifyResourceStartup(passed: bool, w: World): (Orch, bool) {
      if lifecycle != LGuardedResourceStartup then (this, false)
      else if !passed then (RestoreOnce(ResourceQualificationFailed, w), false)
      else
        var (checked, ok) := flow.BeginResourceCheck(w.now);
        if !ok then (this, false)
        else (this.(flow := checked).Enter(LResourceStabilityVerified), true)
    }

    function ArmRestoration(timerArmed: bool, manualVerified: bool, controlsPassed: bool, w: World): (Orch, bool) {
      if lifecycle != LResourceStabilityVerified then (this, false)
      else
        var (qualified, ok) :=
          flow.QualifyResources(timerArmed && manualVerified && controlsPassed, timerArmed, manualVerified, w.now);
        var o := this.(flow := qualified);
        if !ok then (o.RestoreOnce(RestorationSafeguardMissing, w), false) else (o.Armed(controlsPassed), true)
    }

    function Armed(controlsPassed: bool): Orch {
      var o := Enter(LRestorationArmed);
      o.(status := o.status.(manualRestoreVerified := true, operatorControlsPassed := controlsPassed))
    }

    function AwaitOwnerStart(ttl: real, mode': Mode, w: World): (Orch, bool) {
      if lifecycle != LRestorationArmed then (this, false)
      else
        var (waiting, ok) := flow.AwaitOwnerStart(w.now, ttl);
        if !ok then (this, false) else (this.(flow := waiting).OpenStart(mode'), true)
    }

    function OpenStart(mode': Mode): Orch {
      var o := this.(leaseDeadline := flow.startDeadline, mode := Some(mode')).Enter(LAwaitingOwnerStart);
      o.(status := o.status.(manualRestoreVerified := true, operatorControlsPassed := true,
                             rechecking := mode' == ResourceRequalification))
    }

    // ---------- START and capture ----------

    /** The process-side check of a START request. */
    predicate StartIsCurrent(r: ControlRequest, now: real) {
      && r.sessionId == Some(sessionId)
      && Truthy(r.requestId) && r.requestId != lastRequestId
      && r.action == StartAction && r.acknowledgement == "START"
      && leaseDeadline.Some? && now < leaseDeadline.value
      && r.requestedMonotonic.Some? && r.requestedMonotonic.value <= leaseDeadline.value
    }

    function ConsumeStart(r: ControlRequest, w: World): (Orch, PollResult)
      requires flow.IndexInRange()
    {
      if !StartIsCurrent(r, w.now) then (this, Rejected)
      else
        var (started, ok) := flow.AcknowledgeStart("START", w.now);
        if !ok then (this.(flow := started), Rejected)
        else
          var o := this.(flow := started).Accept(r, w.now).Enter(LOwnerStartAccepted);
          if deferHandoff then (o.BeginHandoff(), HandoffDeferred)
          else if handoffStarted then (o, HandoffAlreadyStarted)
          else
            var p := o.BeginHandoff().CallHandoff();
            match w.handoff
            case HandoffRaised => (p.RestoreOnce(CaptureHandoffFailed, w), RestoringNow)
            case HandoffReady(ready) =>
              var (q, complete) := p.CompleteCaptureHandoff(ready, w);
              (q, if complete then CaptureReady else RestoringNow)
    }

    function Accept(r: ControlRequest, now: real): Orch {
      this.(lastRequestId := r.requestId, accepted := accepted + [Accepted(r, now)])
    }

    function BeginHandoff(): Orch {
      this.(handoffStarted := true).Enter(LCaptureHandoff)
    }

    function CallHandoff(): Orch {
      this.(handoffCalls := handoffCalls + 1)
    }

    function CompleteCaptureHandoff(ready: Readiness, w: World): (Orch, bool)
      requires flow.IndexInRange()
    {
      if lifecycle != LCaptureHandoff || !handoffStarted then (this, false)
      else
        var (verified, ok) := flow.VerifyCapture(ready.All(), ready.All(), w.now);
        if !ok then (this.(flow := verified).RestoreOnce(CaptureReadinessFailed, w), false)
        else
          var (prompted, gate) := verified.SpeakingPrompt(w.now);
          if gate.None? then (this.(flow := prompted).RestoreOnce(InitialPromptUnavailable, w), false)
          else
            (this.(flow := prompted).NoteReadiness(ready).ShowFirstCue(gate.value), true)
    }

    function NoteReadiness(ready: Readiness): Orch {
      this.(readiness := Some(ready), wakeBaseline := ready.baselineWakes, gateStartedSequence := eventSequence + 1)
    }

    function ShowFirstCue(gate: Gate): Orch {
      var o := Enter(LStartSpeakingNow);
      o.(status := o.status.(prompt := Some(Prompt(gate.key, gate.spokenPhrase))))
    }

    function EstablishRuntimeBaseline(sequence: int, health: Option<VoiceHealth>): (Orch, bool) {
      if lifecycle != LCaptureHandoff || sequence < 0 then (this, false)
      else
        var from := if sequence > eventSequence then sequence else eventSequence;
        var o := this.(eventSequence := from, gateStartedSequence := from + 1);
        (if health.None? then o else o.(voice := health, wakeBaseline := health.value.wakes.GetOr(0)), true)
    }

    // ---------- gates ----------

    function CurrentGate(): Option<GateKey> {
      if 0 <= flow.gateIndex < |flow.gates| then Some(flow.gates[flow.gateIndex].key) else None
    }

    function EventsSinceGate(): seq<RuntimeEvent> {
      Since(events, gateStartedSequence)
    }

    /** The start time used for a gate's duration; a start at exactly zero counts as missing. */
    function GateStart(now: real): real {
      if flow.gateStartedAt.Some? && flow.gateStartedAt.value != 0.0 then flow.gateStartedAt.value else now
    }

    /** When the gate was shown, a start at exactly zero included. */
    function ShownAt(now: real): real {
      flow.gateStartedAt.GetOr(now)
    }

    /** Both the answering model and the voice were the approved ones. */
    predicate Approved() {
      readiness.Some? && readiness.value.pocketAnna && readiness.value.qwenHttp200
    }

    /** What a verdict given now is given on; the databases belong to the assessment alone. */
    function EvidenceNow(database: Option<Database>): Evidence {
      var assessed := CurrentGate() == Some(IsolatedAssessment);
      Evidence(EventsSinceGate(), voice.GetOr(VoiceHealth(None, false)), wakeBaseline, Approved(), playback,
               if assessed then databaseBefore else None, if assessed then database else None)
    }

    function RecordGate(passed: bool, failure: Option<Failure>, database: Option<Database>, w: World): (r: (Orch, bool))
      requires flow.IndexInRange()
      ensures r.0.flow.IndexInRange() && SameStream(r.0)
    {
      var gate := CurrentGate();
      if gate.None? then (this, false)
      else
        var started := GateStart(w.now);
        var (recorded, ok) := flow.RecordGateResult(passed, w.now);
        if !ok then (this, false)
        else
          var summary := GateSummary(gate.value, passed, failure, started, w.now, Max(0.0, (w.now - started) * 1000.0),
                                     ShownAt(w.now), |observed|, EvidenceNow(database));
          (this.(flow := recorded).AddResult(summary), true)
    }

    function AddResult(summary: GateSummary): Orch {
      this.(gateResults := gateResults + [summary]).Enter(LGateResult)
    }

    function FailGate(failure: Failure, w: World): (o: Orch)
      requires flow.IndexInRange()
      ensures o.flow.IndexInRange() && SameStream(o)
    {
      var gate := CurrentGate();
      if gate.None? || InRestoration(lifecycle) then this
      else RecordGate(false, Some(failure), None, w).0.RestoreOnce(PhysicalGateFailed(gate.value), w)
    }

    function ShowNextGate(next: NextGate, w: World): (r: (Orch, bool))
      requires flow.IndexInRange()
      ensures r.0.flow.IndexInRange() && SameStream(r.0)
    {
      var (prompted, gate) := flow.SpeakingPrompt(w.now);
      if gate.None? then (this.(flow := prompted).RestoreOnce(AllPhysicalGatesCompleted, w), false)
      else
        var o := this.(flow := prompted).Aim(next);
        if gate.value.key == LearningOutput && !Identified(next.playback) then
          (o.FailGate(PlaybackIdentityUnavailable, w), false)
        else o.Present(gate.value, w)
    }

    /** Sets what the newly prompted gate is about and from where its events count. */
    function Aim(next: NextGate): Orch {
      this.(gateStartedSequence := next.includeSequence.GetOr(eventSequence + 1),
            wakeBaseline := if voice.None? || voice.value.wakes.None? then wakeBaseline else voice.value.wakes.value,
            playback := next.playback)
    }

    /** Publishes a freshly prompted gate, preparing what that gate will be judged by. */
    function Present(gate: Gate, w: World): (r: (Orch, bool))
      ensures (flow.IndexInRange() ==> r.0.flow.IndexInRange()) && SameStream(r.0)
    {
      var o := this.(lifecycle := LStartSpeakingNow);
      if gate.key == IsolatedAssessment && w.attempt.AttemptRaised? then
        (o.(phase := AnswerPhase).RestoreOnce(AssessmentDatabaseUnavailable, w), false)
      else (o.Prepare(gate.key, w).Show(gate), true)
    }

    function Prepare(key: GateKey, w: World): Orch {
      match key
      case IsolatedAssessment =>
        this.(phase := AnswerPhase,
              databaseBefore := if w.attempt.AttemptSnapshot? then Some(w.attempt.database) else databaseBefore)
      case NoStalePlayback => this.(quietReady := false, quietDeadline := Some(w.now + QUIET_SECONDS))
      case _ => this
    }

    function Show(gate: Gate): Orch {
      var o := Publish();
      o.(status := o.status.(captureVerified := true,
                             prompt := Some(Prompt(gate.key, gate.spokenPhrase)),
                             operatorState := GateText(gate.key),
                             ownerAction := GateAction(gate.key)))
    }

    /** The judged database: the one passed in, or else a fresh snapshot. */
    function Judged(database: Option<Database>, w: World): Option<Database> {
      if database.None? && w.attempt.AttemptSnapshot? then Some(w.attempt.database) else database
    }

    function Decide(database: Option<Database>, now: real): Verdict {
      var gate := CurrentGate();
      var since := EventsSinceGate();
      if gate.Some? && flow.gateStartedAt.Some? && now - flow.gateStartedAt.value >= GATE_TIMEOUT then Fail(TimedOut)
      else
        match gate
        case Some(Wake) => DecideWake(since, voice.GetOr(VoiceHealth(None, false)), wakeBaseline)
        case Some(RecoveryNextWake) => DecideWake(since, voice.GetOr(VoiceHealth(None, false)), wakeBaseline)
        case Some(LearningContinuation) =>
          DecideContinuation(since, Approved())
        case Some(LearningOutput) => DecideLearningOutput(since, playback)
        case Some(BargeIn) => DecideBargeIn(since, playback)
        case Some(SpokenStop) => DecideSpokenStop(since, playback)
        case Some(ReadOnlyProgress) => DecideProgress(since)
        case Some(IsolatedAssessment) =>
          if phase == AnswerPhase then DecideAnswer(since) else DecideConfirmation(since, databaseBefore, database)
        case Some(NoStalePlayback) =>
          if quietDeadline.None? then Wait
          else DecideQuiet(since, stopSequence.GetOr(0), quietReady, quietDeadline.value, now)
        case _ => Wait
    }

    function Evaluate(database: Option<Database>, w: World): (o: Orch)
      requires flow.IndexInRange()
      ensures o.flow.IndexInRange() && SameStream(o)
    {
      match Decide(Judged(database, w), w.now)
      case Wait => this
      case Fail(failure) => FailGate(failure, w)
      case Pass(next) =>
        var (o, ok) := RecordGate(true, None, Judged(database, w), w);
        if ok then o.ShowNextGate(next, w).0 else this
      case PassStopped(stop) =>
        var (o, ok) := RecordGate(true, None, Judged(database, w), w);
        if ok then
          o.NoteStop(stop, w.now).ShowNextGate(NextGate(Some(stop), NO_PLAYBACK), w).0
        else this
      case PassWithoutTurn =>
        var (o, ok) := RecordGate(true, None, Judged(database, w), w);
        if ok then o.FailGate(TurnIdentityUnavailable, w) else this
      case AskConfirmation => AskForYes(w.now)
      case QuietConfirmed => ConfirmQuiet(w.now)
    }

    function NoteStop(stop: int, now: real): Orch {
      this.(stopSequence := Some(stop), quietDeadline := Some(now + QUIET_SECONDS), quietReady := false)
    }

    /** The second phase of the assessment: the owner is asked to confirm. */
    function AskForYes(now: real): Orch {
      var o := this.(phase := ConfirmPhase, flow := flow.RestartGateClock(now),
                     gateStartedSequence := eventSequence + 1).Enter(LStartSpeakingNow);
      o.YesCue()
    }

    function YesCue(): Orch {
      this.(status := status.(operatorState := FlowText(StartSpeaking),
                              prompt := Some(Prompt(IsolatedAssessment, Some("Yes")))))
    }

    /** Five quiet seconds have passed: the owner may confirm. */
    function ConfirmQuiet(now: real): Orch {
      var o := this.(quietReady := true, quietConfirmedAt := Some(now)).Publish();
      o.(status := o.status.(operatorState := WaitingOwnerConfirmation,
                             prompt := Some(Prompt(NoStalePlayback, None)),
                             ownerAction := Some(ConfirmNoStalePlayback)))
    }

    // ---------- the runtime event stream ----------

    /** The stored events with one more, the oldest dropped beyond the window. */
    function Stored(e: RuntimeEvent): seq<RuntimeEvent> {
      var all := events + [e];
      if |all| > EVENT_WINDOW then all[|all| - EVENT_WINDOW..] else all
    }

    function Append(e: RuntimeEvent): Orch {
      this.(eventSequence := e.sequence, events := Stored(e), observed := observed + [e])
    }

    /** One event of a batch; the flag says that the rest of the batch is not looked at. */
    function ObserveOne(e: RuntimeEvent, database: Option<Database>, w: World): (r: (Orch, bool))
      requires flow.IndexInRange()
      ensures r.0.flow.IndexInRange() && r.0.accepted == accepted && r.0.sessionId == sessionId
    {
      if e.sequence <= eventSequence then (this, false)
      else
        var o := Append(e);
        if stopSequence.Some? && e.sequence > stopSequence.value && e.Speech() && CurrentGate() == Some(NoStalePlayback) then
          (o.FailGate(SpeechAfterStop, w), true)
        else
          var p := o.Evaluate(database, w);
          (p, InRestoration(p.lifecycle))
    }

    /** A batch in order of sequence numbers, and one more look at the gate at its end. */
    function ObserveBatch(batch: seq<RuntimeEvent>, database: Option<Database>, w: World): (o: Orch)
      requires flow.IndexInRange()
      ensures o.flow.IndexInRange() && o.accepted == accepted && o.sessionId == sessionId
      decreases |batch|
    {
      if batch == [] then Evaluate(database, w)
      else
        var (o, done) := ObserveOne(batch[0], database, w);
        if done then o else o.ObserveBatch(batch[1..], database, w)
    }

    function ObserveRuntimeEvents(delivered: seq<RuntimeEvent>, health: Option<VoiceHealth>,
                                  database: Option<Database>, w: World): (o: Orch)
      requires flow.IndexInRange()
      ensures o.flow.IndexInRange() && o.accepted == accepted && o.sessionId == sessionId
    {
      if mode == Some(ResourceRequalification) then this
      else
        var o := if health.Some? then this.(voice := health) else this;
        if InRestoration(lifecycle) then o else o.ObserveBatch(SortedBySequence(delivered), database, w)
    }

    // ---------- owner observations ----------

    predicate ObservationIsCurrent(r: ObservationRequest, now: real) {
      && r.sessionId == Some(sessionId)
      && Truthy(r.requestId)
      && (forall k :: 0 <= k < |observations| ==> observations[k].requestId != r.requestId.value)
      && status.ownerAction == r.action
      && r.gate == CurrentGate()
      && status.operatorState == WaitingOwnerConfirmation
      && r.requestedMonotonic.Some?
      && 0.0 <= now - r.requestedMonotonic.value <= OBSERVATION_MAX_AGE
    }

    predicate NamesActivePlayback(r: ObservationRequest) {
      && playback.sequence.Some?
      && r.playbackId == playback.id && r.playbackTurnId == playback.turnId && r.playbackSequence == playback.sequence
      && Any(events, (e: RuntimeEvent) => e.NonAck(SpeechStarted) && Some(e.sequence) == playback.sequence)
    }

    predicate PlaybackEnded() {
      playback.sequence.Some?
      && Any(EventsSinceGate(), (e: RuntimeEvent) => e.NonAck(SpeechCompleted) && e.sequence > playback.sequence.value)
    }

    function ConsumeOwnerObservation(r: ObservationRequest, w: World): (Orch, bool)
      requires flow.IndexInRange()
    {
      if !ObservationIsCurrent(r, w.now) then (this, false)
      else
        match r.action
        case None => (this, false)
        case Some(ConfirmNoStalePlayback) =>
          if CurrentGate() != Some(NoStalePlayback) || !quietReady then (this, false)
          else (Observe(r, w).RecordGate(true, None, None, w).0.ShowNextGate(PLAIN_NEXT, w).0, true)
        case Some(ConfirmLearningOutputAudible) =>
          if CurrentGate() != Some(LearningOutput) || !NamesActivePlayback(r) then (this, false)
          else if PlaybackEnded() then (FailGate(NotConfirmedDuringPlayback, w), false)
          else
            (Observe(r, w).RecordGate(true, None, None, w).0
               .ShowNextGate(NextGate(playback.sequence, playback.(sessionId := None)), w).0, true)
        case Some(ConfirmUiVoiceSync) =>
          if CurrentGate() != Some(UiVoiceSynchronization) then (this, false)
          else (Observe(r, w).RecordGate(true, None, None, w).0.RestoreOnce(AllPhysicalGatesCompleted, w), true)
    }

    function Observe(r: ObservationRequest, w: World): Orch {
      if r.requestId.Some? && r.action.Some? && CurrentGate().Some? then
        this.(observations := observations + [Observation(r.requestId.value, CurrentGate().value, r.action.value, w.now)])
      else this
    }

    // ---------- polling and the end ----------

    function PollOnce(safetyHealthy: bool, candidateAlive: bool, file: RequestFile, w: World): (Orch, PollResult)
      requires flow.IndexInRange()
    {
      if InRestoration(status.status) then
        (this.(lifecycle := status.lifecycle),
         if status.lifecycle == LRestoredVerified then RestoredNow else RestoringNow)
      else if lifecycle != LAwaitingOwnerStart then (this, Idle)
      else if !safetyHealthy then (RestoreOnce(PreStartSafetyCheckFailed, w), RestoringNow)
      else if !candidateAlive then (RestoreOnce(CandidateDied, w), RestoringNow)
      else if leaseDeadline.Some? && w.now >= leaseDeadline.value then (RestoreOnce(LeaseExpired, w), RestoringNow)
      else
        match file
        case NoRequest => (this, Waiting)
        case NotAnObject => (RestoreOnce(InvalidControlRequest, w), RestoringNow)
        case Request(r) =>
          if r.sessionId != Some(sessionId) then (this, StaleRejected)
          else
            match r.action
            case AbortAction => (Enter(LRestoring).(restoreRequested := true), RestoringNow)
            case FinishAction => (Enter(LRestoring).(restoreRequested := true), RestoringNow)
            case OtherAction => (RestoreOnce(UnsupportedControlRequest, w), RestoringNow)
            case StartAction => ConsumeStart(r, w)
    }

    function ConfirmRestoration(verified: bool, w: World): (Orch, bool) {
      if !verified then (Enter(LRestoreFailed), false)
      else (this.(flow := flow.RestorationComplete(true, w.now).0).Enter(LRestoredVerified), true)
    }

    function ForeignWrite(f: ForeignStatus): Orch {
      this.(status := Overwritten(status, f))
    }
  }

  /** A flow that is not leaving yet is told to. */
  function AbortedFlow(f: Flow, reason: AbortReason, now: real): Flow {
    if Leaving(f.state) then f else f.GuardAbort(reason, now).0
  }

  function InsertBySequence(e: RuntimeEvent, sorted: seq<RuntimeEvent>): (r: seq<RuntimeEvent>)
    ensures |r| == |sorted| + 1
  {
    if sorted == [] then [e]
    else if sorted[|sorted| - 1].sequence <= e.sequence then sorted + [e]
    else InsertBySequence(e, sorted[..|sorted| - 1]) + [sorted[|sorted| - 1]]
  }

  /** Stable: events with equal numbers keep their order of delivery. */
  function SortedBySequence(delivered: seq<RuntimeEvent>): (r: seq<RuntimeEvent>)
    ensures |r| == |delivered|
  {
    if delivered == [] then []
    else InsertBySequence(delivered[|delivered| - 1], SortedBySequence(delivered[..|delivered| - 1]))
  }

  /** The events numbered `from` or later. */
  function Since(events: seq<RuntimeEvent>, from: int): seq<RuntimeEvent> {
    if events == [] then []
    else
      var last := events[|events| - 1];
      Since(events[..|events| - 1], from) + if last.sequence >= from then [last] else []
  }

  /** A playback that the owner can be asked to confirm. */
  predicate Identified(p: Playback) {
    && p.id.Some? && Truthy(p.turnId) && p.sequence.Some? && p.sequence.value != 0 && Truthy(p.startedAt)
  }

  function GateText(key: GateKey): OperatorText {
    match key
    case LearningOutput => WaitingOwnerConfirmation
    case NoStalePlayback => WaitingForQuietCheck
    case UiVoiceSynchronization => WaitingOwnerConfirmation
    case _ => FlowText(StartSpeaking)
  }

  function GateAction(key: GateKey): Option<OwnerAction> {
    match key
    case LearningOutput => Some(ConfirmLearningOutputAudible)
    case UiVoiceSynchronization => Some(ConfirmUiVoiceSync)
    case _ => None
  }

  lemma AcknowledgeKeepsIndex(f: Flow, now: real)
    requires f.IndexInRange()
    ensures f.AcknowledgeStart("START", now).0.IndexInRange()
  {
  }

  function InitialOrch(sessionId: string, deferHandoff: bool): Orch {
    Orch(Initial(DEFAULT_GATES), sessionId, deferHandoff, None, LPreparing, None, false, false, None, 0, [], [], [],
         None, None, 1, 0, NO_PLAYBACK, None, false, None, AnswerPhase, None,
         Status(LPreparing, LPreparing, FlowText(Preparing), sessionId, false, false, false, false, false, 0, None,
                false, None, None, false),
         [], 0, [], [], None)
  }
}
