/** The operator machine as the object it is.  Each method is tied to the operation on values of the same
    name, keeps the machine valid, and states what its caller may rely on. */
module OperatorMachine {
  import opened Prelude
  import opened PhysicalControl
  import FlowProperties

  /** What a caller of a valid machine may rely on in each state. */
  lemma ValidMeans(f: Flow)
    requires FlowProperties.Valid(f)
    ensures f.state == ResourceQualified || f.state == AwaitingOwnerStart || f.ownerStartCount == 1 ==>
            FlowProperties.Qualified(f)
    ensures BeforeStart(f.state) ==> f.ownerStartCount == 0
    ensures f.state == AwaitingOwnerStart ==> f.startDeadline.Some?
    ensures f.state == CaptureHandoff || f.captureVerified ==> f.ownerStartCount == 1
    ensures f.state == CaptureVerified || f.state == GateResult || AtGate(f.state) ==> f.captureVerified
    ensures f.state == CaptureVerified || f.state == GateResult ==> |f.latencies| == f.gateIndex + 1
    ensures f.state == CaptureVerified ==> f.gateIndex == -1
    ensures AtGate(f.state) ==> |f.latencies| == f.gateIndex < |f.gates|
  {
    hide FlowProperties.LogExplainsState;
  }

  lemma StandsStill(f: Flow)
    requires FlowProperties.Valid(f)
    ensures FlowProperties.Steps(f, f)
  {
    hide FlowProperties.LogExplainsState;
  }

  lemma MillisMean(started: Option<real>, now: real)
    ensures Max(0.0, (now - started.GetOr(now)) * 1000.0)
         == if started.Some? && started.value <= now then (now - started.value) * 1000.0 else 0.0
  {
  }

  class OperatorFlow {
    var gates: seq<Gate>
    var state: FlowState
    var autoRestoreArmed: bool
    var independentAbortArmed: bool
    var resourceSafe: bool
    var startDeadline: Option<real>
    var ownerStartCount: nat
    var captureHandoffRequested: bool
    var captureVerified: bool
    var restoreReason: Option<Reason>
    var restorationVerified: bool
    var gateIndex: int
    var gateStartedAt: Option<real>
    var events: seq<Entry>
    var latencies: seq<Latency>

    function State(): Flow
      reads this
    {
      Flow(gates, state, autoRestoreArmed, independentAbortArmed, resourceSafe, startDeadline, ownerStartCount,
           captureHandoffRequested, captureVerified, restoreReason, restorationVerified, gateIndex, gateStartedAt,
           events, latencies)
    }

    /** What every call keeps: the log explains the state, gates are in order, START is guarded. */
    ghost predicate Valid()
      reads this
      ensures Valid() ==> State().IndexInRange()
    {
      FlowProperties.Valid(State())
    }

    /** From `before` to now the machine took one step: valid as before, on the way to its end, and leaving for good once
        it is leaving. */
    ghost predicate SteppedFrom(before: Flow)
      reads this
      ensures SteppedFrom(before) ==> Valid()
    {
      FlowProperties.Steps(before, State())
    }

    constructor (gates: seq<Gate>)
      ensures Valid() && State() == Initial(gates)
    {
      this.gates := gates;
      state := Preparing;
      autoRestoreArmed, independentAbortArmed, resourceSafe := false, false, false;
      startDeadline := None;
      ownerStartCount := 0;
      captureHandoffRequested, captureVerified := false, false;
      restoreReason := None;
      restorationVerified := false;
      gateIndex := -1;
      gateStartedAt := None;
      events := [];
      latencies := [];
      new;
      FlowProperties.InitialIsValid(gates);
    }

    method Log(event: Event, now: real)
      modifies this`events
      ensures State() == old(State()).Log(event, now)
    {
      events := events + [Entry(|events| + 1, now, event)];
    }

    method Enter(next: FlowState, event: Event, now: real)
      modifies this`state, this`events
      ensures State() == old(State()).(state := next).Log(event, now)
      ensures state == next
    {
      hide Flow.Log;
      state := next;
      Log(event, now);
    }

    method Restore(reason: Reason, now: real, event: Event) returns (restoring: bool)
      modifies this`state, this`restoreReason, this`events
      ensures (State(), restoring) == old(State()).Restore(reason, now, event)
      ensures restoring <==> old(state) != Restored
      ensures old(Leaving(state)) ==> State() == old(State())
      ensures !old(Leaving(state)) ==> state == Restoring && restoreReason == Some(reason)
    {
      if state == Restored {
        return false;
      }
      if state != Restoring {
        state := Restoring;
        restoreReason := Some(reason);
        Log(event, now);
      }
      return true;
    }

    method BeginResourceCheck(now: real) returns (ok: bool)
      requires Valid()
      modifies this
      ensures SteppedFrom(old(State()))
      ensures (State(), ok) == old(State()).BeginResourceCheck(now)
      ensures ok <==> old(state) == Preparing
      ensures ok ==> state == ResourceCheck
      ensures !ok ==> State() == old(State())
    {
      hide FlowProperties.Valid, FlowProperties.Steps, Flow.Log;
      ValidMeans(State());
      FlowProperties.BeginResourceCheckKeeps(State(), now);
      if state != Preparing {
        return false;
      }
      Enter(ResourceCheck, ResourceCheckStarted, now);
      return true;
    }

    method Arm(autoRestore: bool, independentAbort: bool)
      modifies this`autoRestoreArmed, this`independentAbortArmed
      ensures autoRestoreArmed == autoRestore && independentAbortArmed == independentAbort
      ensures State() == old(State()).(autoRestoreArmed := autoRestore, independentAbortArmed := independentAbort)
    {
      autoRestoreArmed := autoRestore;
      independentAbortArmed := independentAbort;
    }

    method QualifyResources(safe: bool, autoRestore: bool, independentAbort: bool, now: real) returns (ok: bool)
      requires Valid()
      modifies this
      ensures SteppedFrom(old(State()))
      ensures (State(), ok) == old(State()).QualifyResources(safe, autoRestore, independentAbort, now)
      ensures ok <==> old(state) == ResourceCheck && safe && autoRestore && independentAbort
      ensures ok ==> state == ResourceQualified && FlowProperties.Qualified(State())
      ensures old(state) != ResourceCheck ==> State() == old(State())
      ensures old(state) == ResourceCheck && !ok ==>
                state == Restoring && restoreReason == Some(if safe then SafeguardsNotArmed else ResourceCheckFailed)
    {
      hide FlowProperties.Valid, FlowProperties.Steps, Flow.Log;
      ValidMeans(State());
      FlowProperties.QualifyResourcesKeeps(State(), safe, autoRestore, independentAbort, now);
      if state != ResourceCheck {
        return false;
      }
      Arm(autoRestore, independentAbort);
      if !safe || !autoRestore || !independentAbort {
        var reason := if !safe then ResourceCheckFailed else SafeguardsNotArmed;
        var _ := Restore(reason, now, ResourceCheckAborted(reason));
        return false;
      }
      resourceSafe := true;
      Enter(ResourceQualified, ResourcesQualified, now);
      return true;
    }

    method AwaitOwnerStart(now: real, ttl: real) returns (ok: bool)
      requires Valid()
      modifies this
      ensures SteppedFrom(old(State()))
      ensures (State(), ok) == old(State()).AwaitOwnerStart(now, ttl)
      ensures ok <==> old(state) == ResourceQualified && ttl > 0.0
      ensures ok ==> state == AwaitingOwnerStart && FlowProperties.Qualified(State()) && startDeadline == Some(now + ttl)
      ensures !ok ==> State() == old(State())
    {
      hide FlowProperties.Valid, FlowProperties.Steps, Flow.Log;
      ValidMeans(State());
      FlowProperties.AwaitOwnerStartKeeps(State(), now, ttl);
      if state != ResourceQualified || !resourceSafe || !autoRestoreArmed || !independentAbortArmed || ttl <= 0.0 {
        return false;
      }
      startDeadline := Some(now + ttl);
      Enter(AwaitingOwnerStart, OwnerStartPrompted(startDeadline.value), now);
      return true;
    }

    method ExpireStart(now: real) returns (expired: bool)
      requires Valid()
      modifies this
      ensures SteppedFrom(old(State()))
      ensures expired == old(state == AwaitingOwnerStart && startDeadline.Some? && now >= startDeadline.value)
      ensures State() == if expired then old(State()).Restore(OwnerStartExpired, now, OwnerStartTimedOut(OwnerStartExpired)).0
                         else old(State())
      ensures expired ==> state == Restoring && restoreReason == Some(OwnerStartExpired)
      ensures !expired && state == AwaitingOwnerStart ==> startDeadline.Some? && now < startDeadline.value
    {
      hide FlowProperties.Valid, FlowProperties.Steps, Flow.Log;
      ValidMeans(State());
      FlowProperties.RestoreKeeps(State(), OwnerStartExpired, now, OwnerStartTimedOut(OwnerStartExpired));
      if state == AwaitingOwnerStart && startDeadline.Some? && now >= startDeadline.value {
        var _ := Restore(OwnerStartExpired, now, OwnerStartTimedOut(OwnerStartExpired));
        return true;
      }
      StandsStill(State());
      return false;
    }

    method AcknowledgeStart(text: string, now: real) returns (ok: bool)
      requires Valid()
      modifies this
      ensures SteppedFrom(old(State()))
      ensures (State(), ok) == old(State()).AcknowledgeStart(text, now)
      ensures ok <==>
                old(state) == AwaitingOwnerStart && text == "START"
                && old(startDeadline).Some? && now < old(startDeadline).value
      ensures ok ==> state == CaptureHandoff && FlowProperties.Qualified(State())
      ensures ok ==> old(ownerStartCount) == 0 && ownerStartCount == 1
      ensures old(state == AwaitingOwnerStart && startDeadline.Some? && now >= startDeadline.value) ==>
                state == Restoring && restoreReason == Some(OwnerStartExpired)
      ensures !ok && !old(state == AwaitingOwnerStart && startDeadline.Some? && now >= startDeadline.value) ==>
                State() == old(State())
    {
      hide FlowProperties.Valid, FlowProperties.Steps, Flow.Log;
      ValidMeans(State());
      FlowProperties.AcknowledgeStartKeeps(State(), text, now);
      var expired := ExpireStart(now);
      if expired {
        return false;
      }
      if state != AwaitingOwnerStart || text != "START" {
        return false;
      }
      ownerStartCount := ownerStartCount + 1;
      captureHandoffRequested := true;
      Enter(CaptureHandoff, OwnerStartAccepted, now);
      Log(CaptureHandoffStarted, now);
      return true;
    }

    method Cancel(now: real) returns (restoring: bool)
      requires Valid()
      modifies this
      ensures SteppedFrom(old(State()))
      ensures (State(), restoring) == old(State()).Cancel(now)
      ensures Leaving(state)
      ensures restoring <==> old(state) != Restored
      ensures if old(Leaving(state)) then State() == old(State()) else restoreReason == Some(OperatorCancelled)
    {
      hide FlowProperties.Valid, FlowProperties.Steps, Flow.Log;
      ValidMeans(State());
      FlowProperties.RestoreKeeps(State(), OperatorCancelled, now, OperatorCancelledEvent(OperatorCancelled));
      restoring := Restore(OperatorCancelled, now, OperatorCancelledEvent(OperatorCancelled));
    }

    method GuardAbort(why: AbortReason, now: real) returns (restoring: bool)
      requires Valid()
      modifies this
      ensures SteppedFrom(old(State()))
      ensures (State(), restoring) == old(State()).GuardAbort(why, now)
      ensures Leaving(state)
      ensures restoring <==> old(state) != Restored
      ensures if old(Leaving(state)) then State() == old(State()) else restoreReason == Some(Aborted(why))
    {
      hide FlowProperties.Valid, FlowProperties.Steps, Flow.Log;
      ValidMeans(State());
      FlowProperties.RestoreKeeps(State(), Aborted(why), now, GuardAborted(Aborted(why)));
      restoring := Restore(Aborted(why), now, GuardAborted(Aborted(why)));
    }

    method VerifyCapture(microphoneReady: bool, listenerReady: bool, now: real) returns (ok: bool)
      requires Valid()
      modifies this
      ensures SteppedFrom(old(State()))
      ensures (State(), ok) == old(State()).VerifyCapture(microphoneReady, listenerReady, now)
      ensures ok <==> old(state) == CaptureHandoff && microphoneReady && listenerReady
      ensures ok ==> captureVerified && ownerStartCount == 1
      ensures old(state) != CaptureHandoff ==> State() == old(State())
      ensures old(state) == CaptureHandoff && !ok ==>
                state == Restoring && restoreReason == Some(MicrophoneOrListenerNotReady)
    {
      hide FlowProperties.Valid, FlowProperties.Steps, Flow.Log;
      ValidMeans(State());
      FlowProperties.VerifyCaptureKeeps(State(), microphoneReady, listenerReady, now);
      if state != CaptureHandoff {
        return false;
      }
      if !microphoneReady || !listenerReady {
        var _ := Restore(MicrophoneOrListenerNotReady, now, CaptureVerifyFailed(MicrophoneOrListenerNotReady));
        return false;
      }
      captureVerified := true;
      Enter(CaptureVerified, CaptureVerifyPassed, now);
      return true;
    }

    method SpeakingPrompt(now: real) returns (prompt: Option<Gate>)
      requires Valid()
      modifies this
      ensures SteppedFrom(old(State()))
      ensures (State(), prompt) == old(State()).SpeakingPrompt(now)
      ensures prompt.Some? ==> captureVerified && gateIndex == |latencies| < |gates| && prompt == Some(gates[gateIndex])
      ensures prompt.Some? ==> state == StartSpeaking && gateStartedAt == Some(now)
      ensures !old(state == CaptureVerified || state == GateResult) ==> prompt.None? && State() == old(State())
      ensures old(state == CaptureVerified || state == GateResult) ==> (prompt.Some? <==> |latencies| < |gates|)
      ensures prompt.None? && old(state == CaptureVerified || state == GateResult) ==>
                state == Restoring && restoreReason == Some(AllGatesCompleted) && |latencies| == |gates|
    {
      hide FlowProperties.Valid, FlowProperties.Steps, Flow.Log;
      ValidMeans(State());
      FlowProperties.SpeakingPromptKeeps(State(), now);
      var nextIndex;
      if state == CaptureVerified {
        nextIndex := 0;
      } else if state == GateResult {
        nextIndex := gateIndex + 1;
      } else {
        return None;
      }
      if nextIndex >= |gates| {
        var _ := Restore(AllGatesCompleted, now, GateSequenceCompleted(AllGatesCompleted));
        return None;
      }
      var gate := gates[nextIndex];
      gateIndex := nextIndex;
      state := StartSpeaking;
      gateStartedAt := Some(now);
      Log(SpeakingPromptShown(gate.key), now);
      return Some(gate);
    }

    method BeginListening(now: real) returns (ok: bool)
      requires Valid()
      modifies this
      ensures SteppedFrom(old(State()))
      ensures (State(), ok) == old(State()).BeginListening(now)
      ensures ok <==> old(state) == StartSpeaking && gates[old(gateIndex)].spokenPhrase.Some?
      ensures ok ==> state == Listening
      ensures !ok ==> State() == old(State())
    {
      hide FlowProperties.Valid, FlowProperties.Steps, Flow.Log;
      ValidMeans(State());
      FlowProperties.BeginListeningKeeps(State(), now);
      if state != StartSpeaking || gates[gateIndex].spokenPhrase.None? {
        return false;
      }
      Enter(Listening, ListeningStarted(gates[gateIndex].key), now);
      return true;
    }

    method BeginProcessing(now: real) returns (ok: bool)
      requires Valid()
      modifies this
      ensures SteppedFrom(old(State()))
      ensures (State(), ok) == old(State()).BeginProcessing(now)
      ensures ok <==> old(state) == Listening
      ensures ok ==> state == Processing
      ensures !ok ==> State() == old(State())
    {
      hide FlowProperties.Valid, FlowProperties.Steps, Flow.Log;
      ValidMeans(State());
      FlowProperties.BeginProcessingKeeps(State(), now);
      if state != Listening {
        return false;
      }
      Enter(Processing, ProcessingStarted(gates[gateIndex].key), now);
      return true;
    }

    method BeginSpeaking(now: real) returns (ok: bool)
      requires Valid()
      modifies this
      ensures SteppedFrom(old(State()))
      ensures (State(), ok) == old(State()).BeginSpeaking(now)
      ensures ok <==> old(state) == Processing
      ensures ok ==> state == Speaking
      ensures !ok ==> State() == old(State())
    {
      hide FlowProperties.Valid, FlowProperties.Steps, Flow.Log;
      ValidMeans(State());
      FlowProperties.BeginSpeakingKeeps(State(), now);
      if state != Processing {
        return false;
      }
      Enter(Speaking, SpeakingStarted(gates[gateIndex].key), now);
      return true;
    }

    method NoteLatency(latency: Latency)
      modifies this`latencies, this`gateStartedAt
      ensures latencies == old(latencies) + [latency]
      ensures State() == old(State()).(latencies := latencies, gateStartedAt := None)
    {
      latencies := latencies + [latency];
      gateStartedAt := None;
    }

    method RecordGateResult(passed: bool, now: real) returns (ok: bool)
      requires Valid()
      modifies this
      ensures SteppedFrom(old(State()))
      ensures (State(), ok) == old(State()).RecordGateResult(passed, now)
      ensures ok <==> old(AtGate(state))
      ensures ok ==> |old(latencies)| < |gates| && |latencies| == |old(latencies)| + 1 && old(latencies) <= latencies
      ensures ok ==> latencies[|old(latencies)|].gate == gates[|old(latencies)|].key
      ensures ok ==> latencies[|old(latencies)|].passed == passed
      ensures ok ==> latencies[|old(latencies)|].durationMs
                     == if old(gateStartedAt.Some? && gateStartedAt.value <= now) then (now - old(gateStartedAt).value) * 1000.0
                        else 0.0
      ensures !ok ==> State() == old(State())
    {
      hide FlowProperties.Valid, FlowProperties.Steps, Flow.Log, Max;
      ValidMeans(State());
      MillisMean(gateStartedAt, now);
      FlowProperties.RecordGateResultKeeps(State(), passed, now);
      if !AtGate(state) {
        return false;
      }
      var gate := gates[gateIndex];
      var started := gateStartedAt.GetOr(now);
      var durationMs := Max(0.0, (now - started) * 1000.0);
      NoteLatency(Latency(gate.key, passed, durationMs));
      Enter(GateResult, GateResultRecorded(gate.key, passed, durationMs), now);
      return true;
    }

    method RestorationComplete(verified: bool, now: real) returns (ok: bool)
      requires Valid()
      modifies this
      ensures SteppedFrom(old(State()))
      ensures (State(), ok) == old(State()).RestorationComplete(verified, now)
      ensures ok <==> old(state) == Restoring && verified
      ensures ok ==> state == Restored && restorationVerified
      ensures !ok ==> state == old(state)
    {
      hide FlowProperties.Valid, FlowProperties.Steps, Flow.Log;
      ValidMeans(State());
      FlowProperties.RestorationCompleteKeeps(State(), verified, now);
      if state != Restoring {
        return false;
      }
      if !verified {
        Log(RestorationVerificationFailed, now);
        return false;
      }
      restorationVerified := true;
      Enter(Restored, RestorationVerified, now);
      return true;
    }

    method RestartGateClock(now: real)
      requires Valid()
      modifies this
      ensures SteppedFrom(old(State()))
      ensures State() == old(State()).RestartGateClock(now)
      ensures state == old(state)
    {
      hide FlowProperties.Valid, FlowProperties.Steps, Flow.Log;
      ValidMeans(State());
      FlowProperties.RestartKeeps(State(), now);
      gateStartedAt := Some(now);
    }
  }
}
