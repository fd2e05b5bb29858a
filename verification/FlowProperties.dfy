/** What every run of the operator state machine keeps, whatever is called on it and when. */
module FlowProperties {
  import opened Prelude
  import opened PhysicalControl

  datatype Call =
    | BeginResourceCheck(now: real)
    | QualifyResources(safe: bool, autoRestore: bool, independentAbort: bool, now: real)
    | AwaitOwnerStart(now: real, ttl: real)
    | AcknowledgeStart(text: string, now: real)
    | Cancel(now: real)
    | GuardAbort(why: AbortReason, now: real)
    | VerifyCapture(microphoneReady: bool, listenerReady: bool, now: real)
    | SpeakingPrompt(now: real)
    | BeginListening(now: real)
    | BeginProcessing(now: real)
    | BeginSpeaking(now: real)
    | RecordGateResult(passed: bool, now: real)
    | RestorationComplete(verified: bool, now: real)
    | RestartGateClock(now: real)

  function Apply(f: Flow, call: Call): Flow
    requires f.IndexInRange()
  {
    match call
    case BeginResourceCheck(now) => f.BeginResourceCheck(now).0
    case QualifyResources(safe, autoRestore, independentAbort, now) =>
      f.QualifyResources(safe, autoRestore, independentAbort, now).0
    case AwaitOwnerStart(now, ttl) => f.AwaitOwnerStart(now, ttl).0
    case AcknowledgeStart(text, now) => f.AcknowledgeStart(text, now).0
    case Cancel(now) => f.Cancel(now).0
    case GuardAbort(why, now) => f.GuardAbort(why, now).0
    case VerifyCapture(microphoneReady, listenerReady, now) => f.VerifyCapture(microphoneReady, listenerReady, now).0
    case SpeakingPrompt(now) => f.SpeakingPrompt(now).0
    case BeginListening(now) => f.BeginListening(now).0
    case BeginProcessing(now) => f.BeginProcessing(now).0
    case BeginSpeaking(now) => f.BeginSpeaking(now).0
    case RecordGateResult(passed, now) => f.RecordGateResult(passed, now).0
    case RestorationComplete(verified, now) => f.RestorationComplete(verified, now).0
    case RestartGateClock(now) => f.RestartGateClock(now)
  }

  // ---------- the log determines the machine ----------

  /** What can be read back from the event log alone. */
  datatype Replayed = Replayed(
    state: FlowState,
    gateIndex: int,
    startCount: nat,
    captureVerified: bool,
    restoreReason: Option<Reason>,
    verdicts: seq<(GateKey, bool)>)

  function ReplayOne(r: Replayed, e: Event): Replayed {
    match e
    case ResourceCheckStarted => r.(state := ResourceCheck)
    case ResourcesQualified => r.(state := ResourceQualified)
    case OwnerStartPrompted(_) => r.(state := AwaitingOwnerStart)
    case OwnerStartAccepted => r.(startCount := r.startCount + 1)
    case CaptureHandoffStarted => r.(state := CaptureHandoff)
    case CaptureVerifyPassed => r.(state := CaptureVerified, captureVerified := true)
    case SpeakingPromptShown(_) => r.(state := StartSpeaking, gateIndex := r.gateIndex + 1)
    case ListeningStarted(_) => r.(state := Listening)
    case ProcessingStarted(_) => r.(state := Processing)
    case SpeakingStarted(_) => r.(state := Speaking)
    case GateResultRecorded(gate, passed, _) => r.(state := GateResult, verdicts := r.verdicts + [(gate, passed)])
    case ResourceCheckAborted(reason) => r.(state := Restoring, restoreReason := Some(reason))
    case OwnerStartTimedOut(reason) => r.(state := Restoring, restoreReason := Some(reason))
    case CaptureVerifyFailed(reason) => r.(state := Restoring, restoreReason := Some(reason))
    case GateSequenceCompleted(reason) => r.(state := Restoring, restoreReason := Some(reason))
    case OperatorCancelledEvent(reason) => r.(state := Restoring, restoreReason := Some(reason))
    case GuardAborted(reason) => r.(state := Restoring, restoreReason := Some(reason))
    case RestorationVerificationFailed => r
    case RestorationVerified => r.(state := Restored)
  }

  function Replay(log: seq<Entry>): Replayed {
    if log == [] then Replayed(Preparing, -1, 0, false, None, [])
    else ReplayOne(Replay(log[..|log| - 1]), log[|log| - 1].event)
  }

  function Verdicts(latencies: seq<Latency>): (v: seq<(GateKey, bool)>)
    ensures |v| == |latencies|
    ensures forall k :: 0 <= k < |v| ==> v[k] == (latencies[k].gate, latencies[k].passed)
  {
    seq(|latencies|, k requires 0 <= k < |latencies| => (latencies[k].gate, latencies[k].passed))
  }

  function Observed(f: Flow): Replayed {
    Replayed(f.state, f.gateIndex, f.ownerStartCount, f.captureVerified, f.restoreReason, Verdicts(f.latencies))
  }

  ghost predicate LogExplainsState(f: Flow) {
    && (forall k :: 0 <= k < |f.events| ==> f.events[k].sequence == k + 1)
    && Replay(f.events) == Observed(f)
  }

  // ---------- gates in order, safeguards before START ----------

  ghost predicate GatesInOrder(f: Flow) {
    && f.IndexInRange()
    && (PreGate(f.state) ==> f.gateIndex == -1)
    && |f.latencies| <= f.gateIndex + 1 <= |f.latencies| + 1
    && (AtGate(f.state) ==> |f.latencies| == f.gateIndex)
    && (PreGate(f.state) || f.state == GateResult ==> |f.latencies| == f.gateIndex + 1)
    && (forall k :: 0 <= k < |f.latencies| ==> f.latencies[k].gate == f.gates[k].key)
  }

  /** The sequence is called complete only when there are as many verdicts as gates. */
  predicate CompletedMeansAllDecided(f: Flow) {
    f.restoreReason == Some(AllGatesCompleted) ==> |f.latencies| == |f.gates|
  }

  predicate Qualified(f: Flow) {
    f.resourceSafe && f.autoRestoreArmed && f.independentAbortArmed
  }

  ghost predicate Safeguarded(f: Flow) {
    && f.ownerStartCount <= 1
    && (f.captureHandoffRequested <==> f.ownerStartCount == 1)
    && (f.ownerStartCount == 1 || f.state.ResourceQualified? || f.state.AwaitingOwnerStart? ==> Qualified(f))
    && (BeforeStart(f.state) ==> f.ownerStartCount == 0)
    && (f.state == AwaitingOwnerStart || f.ownerStartCount == 1 ==> f.startDeadline.Some?)
    && (f.state == CaptureHandoff || f.captureVerified ==> f.ownerStartCount == 1)
    && (f.captureVerified <== f.state == CaptureVerified || f.gateIndex >= 0)
    && (f.captureVerified ==> !BeforeStart(f.state) && f.state != CaptureHandoff)
    && (f.restoreReason.Some? <==> Leaving(f.state))
    && (f.restorationVerified <==> f.state == Restored)
  }

  ghost predicate Valid(f: Flow) {
    LogExplainsState(f) && GatesInOrder(f) && CompletedMeansAllDecided(f) && Safeguarded(f)
  }

  lemma InitialIsValid(gates: seq<Gate>)
    ensures Valid(Initial(gates))
  {
  }

  lemma ReplayAppends(log: seq<Entry>, entry: Entry)
    ensures Replay(log + [entry]) == ReplayOne(Replay(log), entry.event)
  {
    assert (log + [entry])[..|log|] == log;
  }

  /** Any state change that logs the matching event keeps the log and the state in agreement. */
  lemma LoggedChange(before: Flow, changed: Flow, event: Event, now: real)
    requires LogExplainsState(before) && changed.events == before.events
    requires ReplayOne(Observed(before), event) == Observed(changed)
    ensures LogExplainsState(changed.Log(event, now))
  {
    ReplayAppends(before.events, Entry(|before.events| + 1, now, event));
  }

  /** How many state changes are still possible. */
  function Rank(f: Flow): int {
    var toCome := 5 * (|f.gates| - f.gateIndex);
    match f.state
    case Preparing => 5 * |f.gates| + 7
    case ResourceCheck => 5 * |f.gates| + 6
    case ResourceQualified => 5 * |f.gates| + 5
    case AwaitingOwnerStart => 5 * |f.gates| + 4
    case CaptureHandoff => 5 * |f.gates| + 3
    case CaptureVerified => 5 * |f.gates| + 2
    case StartSpeaking => toCome + 1
    case Listening => toCome
    case Processing => toCome - 1
    case Speaking => toCome - 2
    case GateResult => toCome - 3
    case Restoring => 1
    case Restored => 0
  }

  /** One call, seen from outside: the machine stays valid, a change of state uses up rank, and a
      machine that is leaving keeps on leaving with its reason and its verdicts. */
  ghost predicate Steps(f: Flow, g: Flow) {
    && Valid(g)
    && g.gates == f.gates
    && 0 <= Rank(g)
    && (if g.state != f.state then Rank(g) < Rank(f) else Rank(g) == Rank(f))
    && (Leaving(f.state) ==> Leaving(g.state) && g.restoreReason == f.restoreReason && g.latencies == f.latencies)
  }

  /** The reason a restoring event carries. */
  function RestoreReason(e: Event): Option<Reason> {
    match e
    case ResourceCheckAborted(reason) => Some(reason)
    case OwnerStartTimedOut(reason) => Some(reason)
    case CaptureVerifyFailed(reason) => Some(reason)
    case GateSequenceCompleted(reason) => Some(reason)
    case OperatorCancelledEvent(reason) => Some(reason)
    case GuardAborted(reason) => Some(reason)
    case _ => None
  }

  lemma RestoreKeeps(f: Flow, reason: Reason, now: real, event: Event)
    requires Valid(f) && RestoreReason(event) == Some(reason)
    requires reason == AllGatesCompleted ==> |f.latencies| == |f.gates|
    ensures Steps(f, f.Restore(reason, now, event).0)
  {
    hide LogExplainsState;
    if !Leaving(f.state) {
      LoggedChange(f, f.(state := Restoring, restoreReason := Some(reason)), event, now);
    }
  }

  lemma BeginResourceCheckKeeps(f: Flow, now: real)
    requires Valid(f)
    ensures Steps(f, f.BeginResourceCheck(now).0)
  {
    hide LogExplainsState;
    if f.state == Preparing {
      LoggedChange(f, f.(state := ResourceCheck), ResourceCheckStarted, now);
    }
  }

  lemma QualifyResourcesKeeps(f: Flow, safe: bool, autoRestore: bool, independentAbort: bool, now: real)
    requires Valid(f)
    ensures Steps(f, f.QualifyResources(safe, autoRestore, independentAbort, now).0)
  {
    if f.state == ResourceCheck {
      var armed := f.(autoRestoreArmed := autoRestore, independentAbortArmed := independentAbort);
      assert Observed(armed) == Observed(f);
      if safe && autoRestore && independentAbort {
        LoggedChange(armed, armed.(resourceSafe := true, state := ResourceQualified), ResourcesQualified, now);
      } else {
        var reason := if !safe then ResourceCheckFailed else SafeguardsNotArmed;
        RestoreKeeps(armed, reason, now, ResourceCheckAborted(reason));
      }
    }
  }

  lemma AwaitOwnerStartKeeps(f: Flow, now: real, ttl: real)
    requires Valid(f)
    ensures Steps(f, f.AwaitOwnerStart(now, ttl).0)
  {
    hide LogExplainsState;
    if f.AwaitOwnerStart(now, ttl).1 {
      LoggedChange(f, f.(startDeadline := Some(now + ttl), state := AwaitingOwnerStart), OwnerStartPrompted(now + ttl), now);
    }
  }

  lemma AcknowledgeStartKeeps(f: Flow, text: string, now: real)
    requires Valid(f)
    ensures Steps(f, f.AcknowledgeStart(text, now).0)
  {
    hide LogExplainsState;
    if f.AcknowledgeStart(text, now).1 {
      var counted := f.(ownerStartCount := f.ownerStartCount + 1, captureHandoffRequested := true);
      LoggedChange(f, counted, OwnerStartAccepted, now);
      var logged := counted.Log(OwnerStartAccepted, now);
      LoggedChange(logged, logged.(state := CaptureHandoff), CaptureHandoffStarted, now);
      assert f.AcknowledgeStart(text, now).0 == logged.(state := CaptureHandoff).Log(CaptureHandoffStarted, now);
    } else {
      RestoreKeeps(f, OwnerStartExpired, now, OwnerStartTimedOut(OwnerStartExpired));
    }
  }

  lemma VerifyCaptureKeeps(f: Flow, microphoneReady: bool, listenerReady: bool, now: real)
    requires Valid(f)
    ensures Steps(f, f.VerifyCapture(microphoneReady, listenerReady, now).0)
  {
    hide LogExplainsState;
    if f.VerifyCapture(microphoneReady, listenerReady, now).1 {
      LoggedChange(f, f.(captureVerified := true, state := CaptureVerified), CaptureVerifyPassed, now);
    } else {
      RestoreKeeps(f, MicrophoneOrListenerNotReady, now, CaptureVerifyFailed(MicrophoneOrListenerNotReady));
    }
  }

  lemma SpeakingPromptKeeps(f: Flow, now: real)
    requires Valid(f)
    ensures Steps(f, f.SpeakingPrompt(now).0)
  {
    hide LogExplainsState;
    var next := f.gateIndex + 1;
    if f.SpeakingPrompt(now).1.Some? {
      LoggedChange(f, f.(gateIndex := next, state := StartSpeaking, gateStartedAt := Some(now)),
                   SpeakingPromptShown(f.gates[next].key), now);
    } else if f.state == CaptureVerified || f.state == GateResult {
      RestoreKeeps(f, AllGatesCompleted, now, GateSequenceCompleted(AllGatesCompleted));
    }
  }

  lemma BeginListeningKeeps(f: Flow, now: real)
    requires Valid(f)
    ensures Steps(f, f.BeginListening(now).0)
  {
    hide LogExplainsState;
    if f.BeginListening(now).1 {
      LoggedChange(f, f.(state := Listening), ListeningStarted(f.gates[f.gateIndex].key), now);
    }
  }

  lemma BeginProcessingKeeps(f: Flow, now: real)
    requires Valid(f)
    ensures Steps(f, f.BeginProcessing(now).0)
  {
    hide LogExplainsState;
    if f.BeginProcessing(now).1 {
      LoggedChange(f, f.(state := Processing), ProcessingStarted(f.gates[f.gateIndex].key), now);
    }
  }

  lemma BeginSpeakingKeeps(f: Flow, now: real)
    requires Valid(f)
    ensures Steps(f, f.BeginSpeaking(now).0)
  {
    hide LogExplainsState;
    if f.BeginSpeaking(now).1 {
      LoggedChange(f, f.(state := Speaking), SpeakingStarted(f.gates[f.gateIndex].key), now);
    }
  }

  lemma RecordGateResultKeeps(f: Flow, passed: bool, now: real)
    requires Valid(f)
    ensures Steps(f, f.RecordGateResult(passed, now).0)
  {
    hide LogExplainsState;
    if AtGate(f.state) {
      var after := f.RecordGateResult(passed, now).0;
      var latency := after.latencies[|f.latencies|];
      var changed := f.(latencies := f.latencies + [latency], state := GateResult, gateStartedAt := None);
      assert Verdicts(changed.latencies) == Verdicts(f.latencies) + [(latency.gate, passed)];
      LoggedChange(f, changed, GateResultRecorded(latency.gate, passed, latency.durationMs), now);
    }
  }

  lemma RestorationCompleteKeeps(f: Flow, verified: bool, now: real)
    requires Valid(f)
    ensures Steps(f, f.RestorationComplete(verified, now).0)
  {
    hide LogExplainsState;
    if f.state == Restoring {
      if verified {
        LoggedChange(f, f.(restorationVerified := true, state := Restored), RestorationVerified, now);
      } else {
        LoggedChange(f, f, RestorationVerificationFailed, now);
      }
    }
  }

  lemma ApplySteps(f: Flow, call: Call)
    requires Valid(f)
    ensures Steps(f, Apply(f, call))
  {
    hide Steps, Valid;
    match call {
      case BeginResourceCheck(now) => BeginResourceCheckKeeps(f, now);
      case QualifyResources(safe, autoRestore, independentAbort, now) =>
        QualifyResourcesKeeps(f, safe, autoRestore, independentAbort, now);
      case AwaitOwnerStart(now, ttl) => AwaitOwnerStartKeeps(f, now, ttl);
      case AcknowledgeStart(text, now) => AcknowledgeStartKeeps(f, text, now);
      case Cancel(now) => RestoreKeeps(f, OperatorCancelled, now, OperatorCancelledEvent(OperatorCancelled));
      case GuardAbort(why, now) => RestoreKeeps(f, Aborted(why), now, GuardAborted(Aborted(why)));
      case VerifyCapture(microphoneReady, listenerReady, now) => VerifyCaptureKeeps(f, microphoneReady, listenerReady, now);
      case SpeakingPrompt(now) => SpeakingPromptKeeps(f, now);
      case BeginListening(now) => BeginListeningKeeps(f, now);
      case BeginProcessing(now) => BeginProcessingKeeps(f, now);
      case BeginSpeaking(now) => BeginSpeakingKeeps(f, now);
      case RecordGateResult(passed, now) => RecordGateResultKeeps(f, passed, now);
      case RestorationComplete(verified, now) => RestorationCompleteKeeps(f, verified, now);
      case RestartGateClock(now) => RestartKeeps(f, now);
    }
  }

  lemma RestartKeeps(f: Flow, now: real)
    requires Valid(f)
    ensures Steps(f, f.RestartGateClock(now))
  {
    assert Observed(f.RestartGateClock(now)) == Observed(f);
  }

  // ---------- whole runs ----------

  function Run(gates: seq<Gate>, calls: seq<Call>): (f: Flow)
    ensures Valid(f) && f.gates == gates
    decreases |calls|
  {
    if calls == [] then
      InitialIsValid(gates);
      Initial(gates)
    else
      var f := Run(gates, calls[..|calls| - 1]);
      hide LogExplainsState, CompletedMeansAllDecided, Safeguarded;
      ApplySteps(f, calls[|calls| - 1]);
      Apply(f, calls[|calls| - 1])
  }

  /** After any sequence of calls the log is numbered 1..n and replaying it from the beginning
      reproduces state, gate index, START count, capture flag, restore reason and verdicts. */
  lemma LogReplaysEveryRun(gates: seq<Gate>, calls: seq<Call>)
    ensures var f := Run(gates, calls);
            && Replay(f.events) == Observed(f)
            && forall k :: 0 <= k < |f.events| ==> f.events[k].sequence == k + 1
  {
    assert LogExplainsState(Run(gates, calls));
  }

  /** After any sequence of calls the verdicts are those of the first gates in order, one each; the
      gate being shown is the next one; and completion means every gate has its verdict. */
  lemma GatesDecidedInOrder(gates: seq<Gate>, calls: seq<Call>)
    ensures var f := Run(gates, calls);
            && |f.latencies| <= |gates|
            && (forall k :: 0 <= k < |f.latencies| ==> f.latencies[k].gate == gates[k].key)
            && (AtGate(f.state) ==> f.gateIndex == |f.latencies| < |gates|)
            && (f.restoreReason == Some(AllGatesCompleted) ==> |f.latencies| == |gates|)
  {
    hide LogExplainsState;
    assert Valid(Run(gates, calls));
  }

  /** START is counted at most once, only behind the resource check and both safeguards, and it
      precedes any capture; a gate is shown only with verified capture. */
  lemma StartIsGuarded(gates: seq<Gate>, calls: seq<Call>)
    ensures var f := Run(gates, calls);
            && f.ownerStartCount <= 1
            && (f.ownerStartCount == 1 ==> Qualified(f) && f.startDeadline.Some?)
            && (f.captureVerified ==> f.ownerStartCount == 1)
            && (f.gateIndex >= 0 ==> f.captureVerified)
  {
    hide LogExplainsState;
    assert Valid(Run(gates, calls));
  }

  // ---------- leaving, and how long a run can be ----------

  /** Restoring is left only for Restored, by a verified completion; Restored is left never and
      changes nothing but the gate clock. */
  lemma RestoringIsFinal(f: Flow, call: Call)
    requires Valid(f) && Leaving(f.state)
    ensures var g := Apply(f, call);
            && Leaving(g.state) && g.restoreReason == f.restoreReason && g.latencies == f.latencies
            && (g.state != f.state ==> f.state == Restoring && call.RestorationComplete? && call.verified)
            && (f.state == Restored ==> g == f.(gateStartedAt := g.gateStartedAt))
  {
    hide LogExplainsState;
  }

  function StateChanges(gates: seq<Gate>, calls: seq<Call>): nat
    decreases |calls|
  {
    if calls == [] then 0
    else
      var init := calls[..|calls| - 1];
      StateChanges(gates, init) + if Run(gates, calls).state != Run(gates, init).state then 1 else 0
  }

  /** However long it is called, the machine changes state at most 5 * gates + 7 times. */
  lemma {:induction false} RunsAreBounded(gates: seq<Gate>, calls: seq<Call>)
    ensures StateChanges(gates, calls) <= 5 * |gates| + 7
    ensures StateChanges(gates, calls) + Rank(Run(gates, calls)) <= 5 * |gates| + 7
    ensures 0 <= Rank(Run(gates, calls))
    decreases |calls|
  {
    if calls != [] {
      var init := calls[..|calls| - 1];
      RunsAreBounded(gates, init);
      hide Valid, Apply;
      ApplySteps(Run(gates, init), calls[|calls| - 1]);
    }
  }
}
