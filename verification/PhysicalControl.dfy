/** The fail-closed operator state machine with its event log. */
module PhysicalControl {
  import opened Prelude

  datatype GateKey =
    | Wake | LearningContinuation | LearningOutput | BargeIn | SpokenStop | NoStalePlayback
    | RecoveryNextWake | ReadOnlyProgress | IsolatedAssessment | UiVoiceSynchronization
    | OtherGate(name: string)

  datatype Gate = Gate(key: GateKey, spokenPhrase: Option<string>)

  const DEFAULT_GATES: seq<Gate> := [
    Gate(Wake, Some("Friday")),
    Gate(LearningContinuation, Some("Friday, continue my machine learning course.")),
    Gate(LearningOutput, None),
    Gate(BargeIn, Some("Please explain the lesson again.")),
    Gate(SpokenStop, Some("Friday, stop.")),
    Gate(NoStalePlayback, None),
    Gate(RecoveryNextWake, Some("Friday")),
    Gate(ReadOnlyProgress, Some("Friday, what is my current learning progress?")),
    Gate(IsolatedAssessment, None),
    Gate(UiVoiceSynchronization, None)]

  const START_TTL_SECONDS: real := 300.0

  datatype FlowState =
    | Preparing | ResourceCheck | ResourceQualified | AwaitingOwnerStart | CaptureHandoff
    | CaptureVerified | StartSpeaking | Listening | Processing | Speaking | GateResult
    | Restoring | Restored

  /** Why the orchestrator asks for restoration. */
  datatype AbortReason =
    | PreflightFailed | ResourceQualificationFailed | RestorationSafeguardMissing
    | PreStartSafetyCheckFailed | CandidateDied | LeaseExpired
    | InvalidControlRequest | UnsupportedControlRequest
    | CaptureHandoffFailed | CaptureReadinessFailed | InitialPromptUnavailable
    | AssessmentDatabaseUnavailable | PhysicalGateFailed(gate: GateKey) | AllPhysicalGatesCompleted
    | CallerRequest(text: string)

  datatype Reason =
    | ResourceCheckFailed | SafeguardsNotArmed | OwnerStartExpired | OperatorCancelled
    | MicrophoneOrListenerNotReady | AllGatesCompleted | Aborted(why: AbortReason)

  datatype Event =
    | ResourceCheckStarted | ResourceCheckAborted(reason: Reason) | ResourcesQualified
    | OwnerStartPrompted(expiresAt: real) | OwnerStartTimedOut(reason: Reason)
    | OwnerStartAccepted | CaptureHandoffStarted
    | CaptureVerifyFailed(reason: Reason) | CaptureVerifyPassed
    | SpeakingPromptShown(gate: GateKey) | ListeningStarted(gate: GateKey)
    | ProcessingStarted(gate: GateKey) | SpeakingStarted(gate: GateKey)
    | GateResultRecorded(gate: GateKey, passed: bool, durationMs: real)
    | GateSequenceCompleted(reason: Reason)
    | OperatorCancelledEvent(reason: Reason) | GuardAborted(reason: Reason)
    | RestorationVerificationFailed | RestorationVerified

  datatype Entry = Entry(sequence: int, monotonic: real, event: Event)

  datatype Latency = Latency(gate: GateKey, passed: bool, durationMs: real)

  predicate BeforeStart(s: FlowState) {
    s.Preparing? || s.ResourceCheck? || s.ResourceQualified? || s.AwaitingOwnerStart?
  }

  predicate PreGate(s: FlowState) {
    BeforeStart(s) || s.CaptureHandoff? || s.CaptureVerified?
  }

  predicate AtGate(s: FlowState) {
    s.StartSpeaking? || s.Listening? || s.Processing? || s.Speaking?
  }

  predicate Leaving(s: FlowState) {
    s.Restoring? || s.Restored?
  }

  /** The whole state of the machine, as a value. */
  datatype Flow = Flow(
    gates: seq<Gate>,
    state: FlowState,
    autoRestoreArmed: bool,
    independentAbortArmed: bool,
    resourceSafe: bool,
    startDeadline: Option<real>,
    ownerStartCount: nat,
    captureHandoffRequested: bool,
    captureVerified: bool,
    restoreReason: Option<Reason>,
    restorationVerified: bool,
    gateIndex: int,
    gateStartedAt: Option<real>,
    events: seq<Entry>,
    latencies: seq<Latency>)
  {
    predicate IndexInRange() {
      -1 <= gateIndex < |gates| && (AtGate(state) || state == GateResult ==> gateIndex >= 0)
    }

    function Log(event: Event, now: real): Flow {
      this.(events := events + [Entry(|events| + 1, now, event)])
    }

    function Restore(reason: Reason, now: real, event: Event): (Flow, bool) {
      if state == Restored then (this, false)
      else if state == Restoring then (this, true)
      else (this.(state := Restoring, restoreReason := Some(reason)).Log(event, now), true)
    }

    function BeginResourceCheck(now: real): (Flow, bool) {
      if state != Preparing then (this, false)
      else (this.(state := ResourceCheck).Log(ResourceCheckStarted, now), true)
    }

    function QualifyResources(safe: bool, autoRestore: bool, independentAbort: bool, now: real): (Flow, bool) {
      if state != ResourceCheck then (this, false)
      else
        var armed := this.(autoRestoreArmed := autoRestore, independentAbortArmed := independentAbort);
        if !safe || !autoRestore || !independentAbort then
          var reason := if !safe then ResourceCheckFailed else SafeguardsNotArmed;
          (armed.Restore(reason, now, ResourceCheckAborted(reason)).0, false)
        else
          (armed.(resourceSafe := true, state := ResourceQualified).Log(ResourcesQualified, now), true)
    }

    function AwaitOwnerStart(now: real, ttl: real): (Flow, bool) {
      if state != ResourceQualified || !resourceSafe || !autoRestoreArmed || !independentAbortArmed || ttl <= 0.0 then
        (this, false)
      else
        (this.(startDeadline := Some(now + ttl), state := AwaitingOwnerStart)
             .Log(OwnerStartPrompted(now + ttl), now), true)
    }

    function AcknowledgeStart(text: string, now: real): (Flow, bool) {
      if state == AwaitingOwnerStart && startDeadline.Some? && now >= startDeadline.value then
        (Restore(OwnerStartExpired, now, OwnerStartTimedOut(OwnerStartExpired)).0, false)
      else if state != AwaitingOwnerStart || text != "START" then (this, false)
      else
        (this.(ownerStartCount := ownerStartCount + 1, captureHandoffRequested := true, state := CaptureHandoff)
             .Log(OwnerStartAccepted, now).Log(CaptureHandoffStarted, now), true)
    }

    function Cancel(now: real): (Flow, bool) {
      Restore(OperatorCancelled, now, OperatorCancelledEvent(OperatorCancelled))
    }

    function GuardAbort(why: AbortReason, now: real): (Flow, bool) {
      Restore(Aborted(why), now, GuardAborted(Aborted(why)))
    }

    function VerifyCapture(microphoneReady: bool, listenerReady: bool, now: real): (Flow, bool) {
      if state != CaptureHandoff then (this, false)
      else if !microphoneReady || !listenerReady then
        (Restore(MicrophoneOrListenerNotReady, now, CaptureVerifyFailed(MicrophoneOrListenerNotReady)).0, false)
      else
        (this.(captureVerified := true, state := CaptureVerified).Log(CaptureVerifyPassed, now), true)
    }

    function SpeakingPrompt(now: real): (r: (Flow, Option<Gate>))
      requires IndexInRange()
      ensures r.0.IndexInRange()
    {
      if state != CaptureVerified && state != GateResult then (this, None)
      else
        var next := if state == CaptureVerified then 0 else gateIndex + 1;
        if next >= |gates| then
          (Restore(AllGatesCompleted, now, GateSequenceCompleted(AllGatesCompleted)).0, None)
        else
          (this.(gateIndex := next, state := StartSpeaking, gateStartedAt := Some(now))
               .Log(SpeakingPromptShown(gates[next].key), now), Some(gates[next]))
    }

    function BeginListening(now: real): (Flow, bool)
      requires IndexInRange()
    {
      if state != StartSpeaking || gates[gateIndex].spokenPhrase.None? then (this, false)
      else (this.(state := Listening).Log(ListeningStarted(gates[gateIndex].key), now), true)
    }

    function BeginProcessing(now: real): (Flow, bool)
      requires IndexInRange()
    {
      if state != Listening then (this, false)
      else (this.(state := Processing).Log(ProcessingStarted(gates[gateIndex].key), now), true)
    }

    function BeginSpeaking(now: real): (Flow, bool)
      requires IndexInRange()
    {
      if state != Processing then (this, false)
      else (this.(state := Speaking).Log(SpeakingStarted(gates[gateIndex].key), now), true)
    }

    function RecordGateResult(passed: bool, now: real): (r: (Flow, bool))
      requires IndexInRange()
      ensures r.0.IndexInRange()
    {
      if !AtGate(state) then (this, false)
      else
        var key := gates[gateIndex].key;
        var durationMs := Max(0.0, (now - gateStartedAt.GetOr(now)) * 1000.0);
        (this.(latencies := latencies + [Latency(key, passed, durationMs)], state := GateResult, gateStartedAt := None)
             .Log(GateResultRecorded(key, passed, durationMs), now), true)
    }

    function RestorationComplete(verified: bool, now: real): (Flow, bool) {
      if state != Restoring then (this, false)
      else if !verified then (Log(RestorationVerificationFailed, now), false)
      else (this.(restorationVerified := true, state := Restored).Log(RestorationVerified, now), true)
    }

    /** The orchestrator restarts the clock of a gate that has a second phase. */
    function RestartGateClock(now: real): Flow {
      this.(gateStartedAt := Some(now))
    }
  }

  function Initial(gates: seq<Gate>): Flow {
    Flow(gates, Preparing, false, false, false, None, 0, false, false, None, false, -1, None, [], [])
  }
}
