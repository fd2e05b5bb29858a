/** What every interleaving of orchestrator operations keeps. */
module OrchestratorRuns {
  import opened Prelude
  import opened PhysicalControl
  import opened FlowProperties
  import opened GateEvidence
  import opened GateMeaning
  import opened Orchestrator
  import opened OperatorPage

  // ---------- the invariant, one concern at a time ----------

  ghost predicate FlowOk(f: Flow) {
    Valid(f) && f.gates == DEFAULT_GATES
  }

  /** The recorded results are the verdicts of the flow. */
  ghost predicate ResultsMatch(results: seq<GateSummary>, latencies: seq<Latency>) {
    && |results| == |latencies|
    && forall k :: 0 <= k < |results| ==> results[k].gate == latencies[k].gate && results[k].passed == latencies[k].passed
  }

  ghost predicate AllPassed(results: seq<GateSummary>) {
    forall k :: 0 <= k < |results| ==> results[k].passed
  }

  ghost predicate OnlyLastCanFail(results: seq<GateSummary>) {
    forall k :: 0 <= k < |results| - 1 ==> results[k].passed
  }

  ghost predicate CompletionClaim(calls: seq<AbortReason>, results: seq<GateSummary>) {
    AllPhysicalGatesCompleted in calls ==> |results| == 10 && AllPassed(results)
  }

  predicate ProperStart(a: Accepted, sessionId: string, lease: Option<real>) {
    && a.request.sessionId == Some(sessionId)
    && Truthy(a.request.requestId)
    && a.request.action == StartAction && a.request.acknowledgement == "START"
    && lease.Some? && a.at < lease.value
  }

  ghost predicate ProperStarts(accepted: seq<Accepted>, sessionId: string, lease: Option<real>) {
    forall k :: 0 <= k < |accepted| ==> ProperStart(accepted[k], sessionId, lease)
  }

  /** Restoration and capture are each started at most once, START is accepted at most once. */
  ghost predicate OnceOk(o: Orch) {
    && |o.restoreCalls| <= (if o.restoreRequested then 1 else 0)
    && o.handoffCalls <= (if o.handoffStarted then 1 else 0)
    && |o.accepted| == o.flow.ownerStartCount <= 1
    && (o.handoffStarted <==> o.flow.ownerStartCount == 1)
    && o.leaseDeadline == o.flow.startDeadline
    && (o.lastRequestId.Some? ==> o.accepted != [])
  }

  /** Restoration asked for means a restoring lifecycle and a flow that is leaving; the exception is
      an owner's abort before START, which leaves the flow waiting. */
  ghost predicate RestorationOk(o: Orch) {
    && (Leaving(o.flow.state) ==> o.restoreRequested)
    && (o.restoreCalls != [] <==> Leaving(o.flow.state))
    && (o.restoreRequested ==>
          && (Leaving(o.flow.state) || o.flow.state == AwaitingOwnerStart)
          && InRestoration(o.lifecycle) && InRestoration(o.status.lifecycle))
  }

  /** The flow is where the lifecycle says, up to the handoff. */
  predicate StateFits(l: Lifecycle, s: FlowState) {
    && (l == LPreparing || l == LPreflight || l == LGuardedResourceStartup ==> s == Preparing)
    && (l == LResourceStabilityVerified ==> s == ResourceCheck)
    && (l == LRestorationArmed ==> s == ResourceQualified)
    && (l == LAwaitingOwnerStart ==> s == AwaitingOwnerStart)
    && (l == LCaptureHandoff ==> s == CaptureHandoff)
  }

  ghost predicate LifecycleOk(o: Orch) {
    (o.status.lifecycle == o.lifecycle || InRestoration(o.status.lifecycle)) && StateFits(o.lifecycle, o.flow.state)
  }

  ghost predicate StreamOk(events: seq<RuntimeEvent>, observed: seq<RuntimeEvent>, last: int) {
    && Increasing(observed)
    && (|observed| > 0 ==> observed[|observed| - 1].sequence <= last)
    && |events| <= EVENT_WINDOW && |events| <= |observed|
    && events == observed[|observed| - |events|..]
  }

  ghost predicate WaitingOk(o: Orch) {
    o.status.operatorState == WaitingOwnerConfirmation ==> o.flow.state == StartSpeaking
  }

  ghost predicate CueOk(o: Orch) {
    && (o.status.captureVerified ==> o.flow.captureVerified)
    && o.status.ownerStartCount == o.flow.ownerStartCount && o.status.sessionId == o.sessionId
    && (o.flow.captureVerified ==> o.readiness.Some? && o.readiness.value.All())
  }

  ghost predicate QuietAfter(events: seq<RuntimeEvent>, stop: int) {
    forall k :: 0 <= k < |events| && events[k].sequence > stop ==> !events[k].Speech()
  }

  ghost predicate StopStored(events: seq<RuntimeEvent>, stop: int) {
    exists k :: 0 <= k < |events| && events[k].sequence == stop
  }

  predicate Begins(e: RuntimeEvent, playback: Playback) {
    e.NonAck(SpeechStarted) && playback.sequence == Some(e.sequence) && playback.turnId == e.turnId
  }

  ghost predicate SpeechBegan(events: seq<RuntimeEvent>, playback: Playback) {
    exists b :: 0 <= b < |events| && Begins(events[b], playback)
  }

  /** The playback began, was interrupted, the stop phrase was heard, and it stopped with the event numbered `stop`. */
  ghost predicate ChainSeen(events: seq<RuntimeEvent>, playback: Playback, stop: int) {
    exists b, i, t, s :: 0 <= b < i && StopChain(events, playback, i, t, s) && Begins(events[b], playback)
        && events[s].sequence == stop
  }

  predicate AtStopGate(o: Orch) {
    o.flow.state == StartSpeaking && o.flow.gateIndex == 4
  }

  /** The playback that `spoken_stop` is about was really heard to begin. */
  ghost predicate StopGateAimed(o: Orch) {
    AtStopGate(o) ==> SpeechBegan(o.observed, o.playback)
  }

  /** Every event after the stop is still among the stored ones. */
  ghost predicate TailStored(events: seq<RuntimeEvent>, observed: seq<RuntimeEvent>, stop: int) {
    forall k :: 0 <= k < |observed| && observed[k].sequence > stop ==> k >= |observed| - |events|
  }

  predicate AtQuietGate(o: Orch) {
    o.flow.state == StartSpeaking && o.flow.gateIndex == 5
  }

  /** While `no_stale_playback` is shown it is judged from the stop on, and it is marked quiet only
      after its five seconds and with no speech observed since. */
  ghost predicate QuietGateTimed(o: Orch) {
    AtQuietGate(o) ==>
      && o.stopSequence.Some? && o.gateStartedSequence == o.stopSequence.value
      && o.flow.gateStartedAt.Some? && o.quietDeadline == Some(o.flow.gateStartedAt.value + QUIET_SECONDS)
      && (o.quietReady ==>
            && QuietAfter(o.observed, o.stopSequence.value)
            && o.quietConfirmedAt.Some? && o.quietConfirmedAt.value >= o.quietDeadline.value)
  }

  ghost predicate QuietGateOk(o: Orch) {
    && QuietGateTimed(o)
    && (AtQuietGate(o) ==> QuietAfter(o.observed, o.stopSequence.value) || StopStored(o.events, o.stopSequence.value))
  }

  /** At one of the two gates that the stop is about. */
  predicate AtStopGates(o: Orch) {
    AtStopGate(o) || AtQuietGate(o)
  }

  /** What judging the quiet gate relies on. */
  ghost predicate QuietGateJudgeable(o: Orch) {
    && QuietGateTimed(o)
    && (AtQuietGate(o) ==>
          QuietAfter(o.observed, o.stopSequence.value) || TailStored(o.events, o.observed, o.stopSequence.value))
  }

  ghost predicate SeenInRange(results: seq<GateSummary>, observed: seq<RuntimeEvent>) {
    forall k :: 0 <= k < |results| ==> results[k].seen <= |observed|
  }

  /** A passed `spoken_stop` rests on a chain in the events seen by then, of the playback that gate was about. */
  ghost predicate StopProven(results: seq<GateSummary>, observed: seq<RuntimeEvent>, stop: Option<int>) {
    SeenInRange(results, observed)
    && (|results| > 4 && results[4].passed ==>
          stop.Some? && ChainSeen(observed[..results[4].seen], results[4].evidence.playback, stop.value))
    && (|results| > 5 && results[5].passed ==> stop.Some? && QuietAfter(observed[..results[5].seen], stop.value))
  }

  /** The events are the newest of these. */
  ghost predicate IsTail(since: seq<RuntimeEvent>, all: seq<RuntimeEvent>) {
    exists j :: 0 <= j <= |all| && since == all[j..]
  }

  /** The gates that the owner has to confirm are confirmed. */
  ghost predicate Confirmed(k: int, observations: seq<Observation>) {
    && (k == 2 ==> exists n :: 0 <= n < |observations| && observations[n].gate == LearningOutput
                               && observations[n].action == ConfirmLearningOutputAudible)
    && (k == 5 ==> exists n :: 0 <= n < |observations| && observations[n].gate == NoStalePlayback
                               && observations[n].action == ConfirmNoStalePlayback)
    && (k == 9 ==> exists n :: 0 <= n < |observations| && observations[n].gate == UiVoiceSynchronization
                               && observations[n].action == ConfirmUiVoiceSync)
  }

  /** A pass rests on its evidence, and that is the newest part of what had been observed. */
  ghost predicate RestsOnEvidence(k: int, r: GateSummary, observed: seq<RuntimeEvent>, observations: seq<Observation>) {
    r.passed ==>
      && Proves(k, r.evidence) && Confirmed(k, observations)
      && r.seen <= |observed| && IsTail(r.evidence.since, observed[..r.seen])
  }

  ghost predicate AllFounded(results: seq<GateSummary>, observed: seq<RuntimeEvent>, observations: seq<Observation>) {
    forall k :: 0 <= k < |results| ==> RestsOnEvidence(k, results[k], observed, observations)
  }

  /** A passed `no_stale_playback` was found quiet at least five seconds after it was shown. */
  ghost predicate QuietTimed(results: seq<GateSummary>, deadline: Option<real>, confirmed: Option<real>) {
    |results| > 5 && results[5].passed ==>
      && deadline == Some(results[5].shownAt + QUIET_SECONDS)
      && confirmed.Some? && confirmed.value >= deadline.value
  }

  /** Everything but the relation of the flow to restoration and to the quiet gate. */
  ghost predicate Base(o: Orch) {
    && FlowOk(o.flow)
    && ResultsMatch(o.gateResults, o.flow.latencies)
    && OnlyLastCanFail(o.gateResults)
    && CompletionClaim(o.restoreCalls, o.gateResults)
    && ProperStarts(o.accepted, o.sessionId, o.leaseDeadline)
    && StreamOk(o.events, o.observed, o.eventSequence)
    && StopProven(o.gateResults, o.observed, o.stopSequence)
    && QuietTimed(o.gateResults, o.quietDeadline, o.quietConfirmedAt)
    && AllFounded(o.gateResults, o.observed, o.observations)
    && OnceOk(o) && CueOk(o)
  }

  ghost predicate Core(o: Orch) {
    Base(o) && RestorationOk(o) && LifecycleOk(o) && WaitingOk(o) && StopGateAimed(o)
  }

  /** Between operations a gate is either being shown or over, and a failed one is being restored. */
  ghost predicate Settled(o: Orch) {
    && (BeforeStart(o.flow.state) || o.flow.state.CaptureHandoff? || o.flow.state.StartSpeaking? || Leaving(o.flow.state))
    && (AllPassed(o.gateResults) || o.restoreRequested)
  }

  ghost predicate Inv(o: Orch) {
    Core(o) && Settled(o) && QuietGateOk(o)
  }

  lemma InitialInv(sessionId: string, deferHandoff: bool)
    ensures Inv(InitialOrch(sessionId, deferHandoff))
  {
    InitialIsValid(DEFAULT_GATES);
  }

  // ---------- restoring ----------

  lemma AbortKeepsFlow(f: Flow, reason: AbortReason, now: real)
    requires FlowOk(f)
    ensures var g := AbortedFlow(f, reason, now);
            && FlowOk(g) && Leaving(g.state)
            && g == f.(state := g.state, restoreReason := g.restoreReason, events := g.events)
  {
    RestoreKeeps(f, Aborted(reason), now, GuardAborted(Aborted(reason)));
    hide Valid;
  }

  lemma LeaveKeepsCore(o: Orch, g: Flow, reason: AbortReason)
    requires Base(o) && !o.restoreRequested
    requires FlowOk(g) && Leaving(g.state)
    requires g == o.flow.(state := g.state, restoreReason := g.restoreReason, events := g.events)
    requires reason == AllPhysicalGatesCompleted ==> |o.gateResults| == 10 && AllPassed(o.gateResults)
    ensures Core(o.Leave(g, reason)) && Restored(o, o.Leave(g, reason), reason)
  {
    hide FlowOk, ResultsMatch, OnlyLastCanFail, AllPassed, ProperStarts, StreamOk, StopProven, AllFounded, QuietTimed;
  }

  lemma LaunchFailedKeepsCore(o: Orch)
    requires Core(o)
    ensures Core(o.LaunchFailed())
    ensures o.LaunchFailed() == o.(status := o.LaunchFailed().status)
  {
    hide FlowOk, ResultsMatch, OnlyLastCanFail, CompletionClaim, ProperStarts, StreamOk, StopProven, AllFounded, QuietTimed;
  }

  /** `p` is `o` after restoration was asked for, this once, for the given reason. */
  ghost predicate Restored(o: Orch, p: Orch, reason: AbortReason) {
    && p.restoreRequested && Leaving(p.flow.state)
    && p.gateResults == o.gateResults && p.restoreCalls == o.restoreCalls + [reason]
  }

  /** The restore latch: it fires at most once, and the flow is leaving afterwards. */
  lemma RestoreOnceRestores(o: Orch, reason: AbortReason, w: World)
    requires Base(o) && !o.restoreRequested
    requires reason == AllPhysicalGatesCompleted ==> |o.gateResults| == 10 && AllPassed(o.gateResults)
    ensures Inv(o.RestoreOnce(reason, w)) && Restored(o, o.RestoreOnce(reason, w), reason)
  {
    hide FlowOk, ResultsMatch, OnlyLastCanFail, CompletionClaim, ProperStarts, StreamOk, StopProven, AllFounded, QuietTimed,
      Orch.Leave, Orch.LaunchFailed, AbortedFlow, AllPassed;
    var g := AbortedFlow(o.flow, reason, w.now);
    AbortKeepsFlow(o.flow, reason, w.now);
    LeaveKeepsCore(o, g, reason);
    LaunchFailedKeepsCore(o.Leave(g, reason));
  }

  // ---------- recording a verdict ----------

  lemma RecordKeepsFlow(f: Flow, passed: bool, now: real)
    requires FlowOk(f) && f.state == StartSpeaking
    ensures var (g, ok) := f.RecordGateResult(passed, now);
            && ok && FlowOk(g) && g.state == GateResult
            && 0 <= f.gateIndex == |f.latencies| < 10
            && g == f.(state := GateResult, gateStartedAt := None, latencies := g.latencies, events := g.events)
            && |g.latencies| == |f.latencies| + 1 && g.latencies[..|f.latencies|] == f.latencies
            && g.latencies[|f.latencies|].gate == DEFAULT_GATES[f.gateIndex].key
            && g.latencies[|f.latencies|].passed == passed
  {
    hide LogExplainsState;
    RecordGateResultKeeps(f, passed, now);
  }

  /** What a verdict must rest on: its evidence, a stop chain for `spoken_stop`, timed quiet for the gate after. */
  ghost predicate VerdictFounded(o: Orch, passed: bool, d: Option<Database>) {
    passed ==>
      && Proves(o.flow.gateIndex, o.EvidenceNow(d)) && Confirmed(o.flow.gateIndex, o.observations)
      && (o.flow.gateIndex == 4 ==> o.stopSequence.Some? && ChainSeen(o.observed, o.playback, o.stopSequence.value))
      && (o.flow.gateIndex == 5 ==> AtQuietGate(o) && QuietGateTimed(o) && o.quietReady)
  }

  /** `p` is `o` with one more verdict. */
  ghost predicate Recorded(o: Orch, p: Orch, passed: bool) {
    && p.flow.state == GateResult && p.flow.gateIndex == o.flow.gateIndex == |o.gateResults| < 10
    && |p.gateResults| == |o.gateResults| + 1 && p.gateResults[..|o.gateResults|] == o.gateResults
    && p.gateResults[|o.gateResults|].passed == passed
    && p == o.(flow := p.flow, gateResults := p.gateResults, lifecycle := LGateResult, status := p.status)
  }

  lemma ResultsGrow(results: seq<GateSummary>, latencies: seq<Latency>, r: GateSummary, latencies': seq<Latency>)
    requires ResultsMatch(results, latencies) && AllPassed(results)
    requires |latencies'| == |latencies| + 1 && latencies'[..|latencies|] == latencies
    requires latencies'[|latencies|].gate == r.gate && latencies'[|latencies|].passed == r.passed
    ensures ResultsMatch(results + [r], latencies') && OnlyLastCanFail(results + [r])
    ensures AllPassed(results + [r]) <==> r.passed
  {
    assert forall k :: 0 <= k < |latencies| ==> latencies'[k] == latencies'[..|latencies|][k];
    assert (results + [r])[|results|] == r;
  }

  lemma ProofsGrow(o: Orch, r: GateSummary, d: Option<Database>)
    requires Base(o) && AllPassed(o.gateResults) && o.flow.state == StartSpeaking
    requires o.flow.gateIndex == |o.gateResults|
    requires VerdictFounded(o, r.passed, d) && r.evidence == o.EvidenceNow(d)
    requires r.seen == |o.observed| && r.shownAt == o.ShownAt(r.completedAt)
    ensures StopProven(o.gateResults + [r], o.observed, o.stopSequence)
    ensures QuietTimed(o.gateResults + [r], o.quietDeadline, o.quietConfirmedAt)
  {
    hide FlowOk, ResultsMatch, OnlyLastCanFail, CompletionClaim, ProperStarts, StreamOk, ChainSeen, QuietAfter;
    assert o.observed[..|o.observed|] == o.observed;
  }

  lemma FoundedGrows(o: Orch, r: GateSummary, d: Option<Database>)
    requires Base(o) && o.flow.gateIndex == |o.gateResults|
    requires VerdictFounded(o, r.passed, d) && r.evidence == o.EvidenceNow(d) && r.seen == |o.observed|
    ensures AllFounded(o.gateResults + [r], o.observed, o.observations)
  {
    hide FlowOk, ResultsMatch, OnlyLastCanFail, CompletionClaim, ProperStarts, StreamOk, StopProven, QuietTimed, OnceOk,
      CueOk, ChainSeen, Proves, Confirmed, Orch.EventsSinceGate;
    var k := ObservedSuffix(o);
    assert o.observed[..|o.observed|] == o.observed;
    assert IsTail(r.evidence.since, o.observed[..r.seen]);
  }

  lemma RecordGateUnfolds(o: Orch, passed: bool, failure: Option<Failure>, d: Option<Database>, w: World)
    returns (r: GateSummary)
    requires FlowOk(o.flow) && o.flow.state == StartSpeaking
    ensures o.flow.IndexInRange()
    ensures o.RecordGate(passed, failure, d, w)
            == (o.(flow := o.flow.RecordGateResult(passed, w.now).0,
                   gateResults := o.gateResults + [r]).Enter(LGateResult), true)
    ensures r.gate == DEFAULT_GATES[o.flow.gateIndex].key && r.passed == passed && r.seen == |o.observed|
    ensures r.completedAt == w.now && r.shownAt == o.ShownAt(w.now) && r.evidence == o.EvidenceNow(d)
  {
    hide FlowOk, Orch.Enter, Flow.Log;
    FlowOkInRange(o.flow);
    var started := o.GateStart(w.now);
    r := GateSummary(DEFAULT_GATES[o.flow.gateIndex].key, passed, failure, started, w.now,
                     Max(0.0, (w.now - started) * 1000.0), o.ShownAt(w.now), |o.observed|, o.EvidenceNow(d));
  }

  lemma RecordGateRecords(o: Orch, passed: bool, failure: Option<Failure>, d: Option<Database>, w: World)
    requires Core(o) && Settled(o) && o.flow.state == StartSpeaking && VerdictFounded(o, passed, d)
    ensures o.flow.IndexInRange()
    ensures var (p, ok) := o.RecordGate(passed, failure, d, w);
            ok && Core(p) && Recorded(o, p, passed) && !p.restoreRequested && AllPassed(o.gateResults)
  {
    hide FlowOk, ResultsMatch, OnlyLastCanFail, CompletionClaim, ProperStarts, StreamOk, StopProven, AllFounded, QuietTimed,
      AllPassed, ChainSeen, QuietAfter, VerdictFounded, Flow.RecordGateResult, OnceOk, CueOk, Orch.RecordGate;
    FlowOkInRange(o.flow);
    RecordKeepsFlow(o.flow, passed, w.now);
    var g := o.flow.RecordGateResult(passed, w.now).0;
    var r := RecordGateUnfolds(o, passed, failure, d, w);
    ResultsCount(o.gateResults, o.flow.latencies);
    ResultsGrow(o.gateResults, o.flow.latencies, r, g.latencies);
    ProofsGrow(o, r, d);
    FoundedGrows(o, r, d);
    RecordedKeeps(o, g, r);
  }

  lemma ResultsCount(results: seq<GateSummary>, latencies: seq<Latency>)
    requires ResultsMatch(results, latencies)
    ensures |results| == |latencies|
  {
  }

  lemma RecordedKeeps(o: Orch, g: Flow, r: GateSummary)
    requires Core(o) && !o.restoreRequested && FlowOk(g)
    requires g == o.flow.(state := GateResult, gateStartedAt := None, latencies := g.latencies, events := g.events)
    requires ResultsMatch(o.gateResults + [r], g.latencies) && OnlyLastCanFail(o.gateResults + [r])
    requires StopProven(o.gateResults + [r], o.observed, o.stopSequence)
    requires QuietTimed(o.gateResults + [r], o.quietDeadline, o.quietConfirmedAt)
    requires AllFounded(o.gateResults + [r], o.observed, o.observations)
    ensures Core(o.(flow := g, gateResults := o.gateResults + [r]).Enter(LGateResult))
  {
    hide FlowOk, ResultsMatch, OnlyLastCanFail, ProperStarts, StreamOk, StopProven, AllFounded, QuietTimed, AllPassed;
  }

  lemma FlowOkInRange(f: Flow)
    requires FlowOk(f)
    ensures f.IndexInRange() && f.gates == DEFAULT_GATES
  {
    hide LogExplainsState;
  }

  // ---------- failing a gate, showing the next ----------

  /** Whatever asks for restoration, for any reason but the end of the sequence, may do so at any time. */
  lemma RestoreOnceKeeps(o: Orch, reason: AbortReason, w: World)
    requires Inv(o) && reason != AllPhysicalGatesCompleted
    ensures Inv(o.RestoreOnce(reason, w))
  {
    hide FlowOk, ResultsMatch, OnlyLastCanFail, CompletionClaim, ProperStarts, StreamOk, StopProven, AllFounded, QuietTimed,
      AllPassed, QuietAfter, StopStored, OnceOk, CueOk, Orch.Leave, Orch.LaunchFailed;
    if !o.restoreRequested {
      RestoreOnceRestores(o, reason, w);
    }
  }

  lemma FailGateKeeps(o: Orch, failure: Failure, w: World)
    requires Core(o) && Settled(o) && !InRestoration(o.lifecycle)
    ensures o.flow.IndexInRange()
    ensures var p := o.FailGate(failure, w);
            if o.CurrentGate().None? then p == o else Inv(p) && p.restoreRequested
  {
    hide FlowOk, ResultsMatch, OnlyLastCanFail, CompletionClaim, ProperStarts, StreamOk, StopProven, AllFounded, QuietTimed,
      AllPassed, ChainSeen, QuietAfter, Orch.RestoreOnce, Orch.RecordGate, Inv, Recorded;
    FlowOkInRange(o.flow);
    var gate := o.CurrentGate();
    if gate.Some? {
      if o.flow.state == StartSpeaking {
        RecordGateRecords(o, false, Some(failure), None, w);
      } else {
        NothingRecorded(o, false, Some(failure), None, w);
      }
      RestoreOnceRestores(o.RecordGate(false, Some(failure), None, w).0, PhysicalGateFailed(gate.value), w);
      FailGateUnfolds(o, failure, w);
    }
  }

  lemma NothingRecorded(o: Orch, passed: bool, failure: Option<Failure>, d: Option<Database>, w: World)
    requires o.flow.IndexInRange() && !AtGate(o.flow.state)
    ensures o.RecordGate(passed, failure, d, w) == (o, false)
  {
  }

  lemma FailGateUnfolds(o: Orch, failure: Failure, w: World)
    requires o.flow.IndexInRange() && o.CurrentGate().Some? && !InRestoration(o.lifecycle)
    ensures o.FailGate(failure, w)
         == o.RecordGate(false, Some(failure), None, w).0.RestoreOnce(PhysicalGateFailed(o.CurrentGate().value), w)
  {
    hide Orch.RecordGate, Orch.RestoreOnce;
  }

  lemma PromptKeepsFlow(f: Flow, now: real)
    requires FlowOk(f) && f.state == GateResult
    ensures var (g, gate) := f.SpeakingPrompt(now);
            && FlowOk(g)
            && (gate.Some? <==> f.gateIndex < 9)
            && (gate.Some? ==>
                  && 0 <= g.gateIndex == f.gateIndex + 1 && gate.value == DEFAULT_GATES[g.gateIndex]
                  && g == f.(state := StartSpeaking, gateIndex := g.gateIndex, gateStartedAt := Some(now), events := g.events))
            && (gate.None? ==>
                  && |f.latencies| == 10
                  && g == f.(state := Restoring, restoreReason := g.restoreReason, events := g.events))
  {
    hide LogExplainsState;
    SpeakingPromptKeeps(f, now);
  }

  /** What must be prepared before `spoken_stop` and the gate after it are shown. */
  ghost predicate StopPrepared(o: Orch, next: NextGate) {
    && (o.flow.gateIndex == 3 ==> SpeechBegan(o.observed, next.playback))
    && (o.flow.gateIndex == 4 ==>
          o.stopSequence.Some? && next.includeSequence == o.stopSequence && StopStored(o.events, o.stopSequence.value))
  }

  lemma PromptedKeeps(o: Orch, next: NextGate, now: real)
    requires Core(o) && o.flow.state == GateResult && !o.restoreRequested && AllPassed(o.gateResults)
    requires o.flow.gateIndex < 9 && o.lifecycle == LGateResult && StopPrepared(o, next)
    ensures o.flow.IndexInRange()
    ensures var p := o.(flow := o.flow.SpeakingPrompt(now).0).Aim(next);
            Core(p) && Settled(p) && p.flow.state == StartSpeaking && p.flow.gateIndex == o.flow.gateIndex + 1
            && p.flow.gateStartedAt == Some(now) && !p.restoreRequested && p.lifecycle == LGateResult
            && p.flow.captureVerified
  {
    hide ResultsMatch, OnlyLastCanFail, CompletionClaim, ProperStarts, StreamOk, StopProven, AllFounded, QuietTimed, AllPassed,
      Valid, Flow.SpeakingPrompt;
    FlowOkInRange(o.flow);
    PromptKeepsFlow(o.flow, now);
    CaptureBeforeGates(o.flow);
  }

  lemma CaptureBeforeGates(f: Flow)
    requires FlowOk(f) && f.gateIndex >= 0
    ensures f.captureVerified && f.ownerStartCount == 1
  {
    hide LogExplainsState;
  }

  /** A gate has just been prompted and is about to be published. */
  ghost predicate JustPrompted(o: Orch, w: World) {
    && Core(o) && Settled(o) && o.flow.state == StartSpeaking && !o.restoreRequested && o.flow.captureVerified
    && !InRestoration(o.lifecycle)
    && o.flow.gateStartedAt == Some(w.now)
    && |o.gateResults| <= o.flow.gateIndex
    && (o.flow.gateIndex == 5 ==>
          && o.stopSequence.Some? && o.gateStartedSequence == o.stopSequence.value
          && StopStored(o.events, o.stopSequence.value))
  }

  lemma ShowKeepsCore(o: Orch, gate: Gate)
    requires Base(o) && RestorationOk(o) && StopGateAimed(o)
    requires o.flow.state == StartSpeaking && !o.restoreRequested && o.flow.captureVerified
    requires StateFits(o.lifecycle, o.flow.state)
    ensures Core(o.Show(gate)) && o.Show(gate) == o.(status := o.Show(gate).status)
  {
    hide FlowOk, ResultsMatch, OnlyLastCanFail, CompletionClaim, ProperStarts, StreamOk, StopProven, AllFounded, QuietTimed;
  }

  lemma PrepareKeepsBase(o: Orch, key: GateKey, w: World)
    requires Base(o) && o.flow.state == StartSpeaking && !o.restoreRequested
    requires key == NoStalePlayback <==> o.flow.gateIndex == 5
    requires |o.gateResults| <= o.flow.gateIndex
    requires RestorationOk(o)
    ensures Base(o.Prepare(key, w)) && RestorationOk(o.Prepare(key, w))
    ensures o.flow.gateIndex == 5 ==>
            !o.Prepare(key, w).quietReady && o.Prepare(key, w).quietDeadline == Some(w.now + QUIET_SECONDS)
    ensures var p := o.Prepare(key, w);
            p == o.(phase := p.phase, databaseBefore := p.databaseBefore, quietReady := p.quietReady,
                quietDeadline := p.quietDeadline)
  {
    hide FlowOk, ResultsMatch, OnlyLastCanFail, CompletionClaim, ProperStarts, StreamOk, StopProven;
  }

  lemma SpeakingKeepsBase(o: Orch)
    requires Base(o)
    ensures var p := o.(lifecycle := LStartSpeakingNow); Base(p) && Base(p.(phase := AnswerPhase))
  {
    hide FlowOk, ResultsMatch, OnlyLastCanFail, CompletionClaim, ProperStarts, StreamOk, StopProven, AllFounded, QuietTimed;
  }

  lemma PresentKeeps(o: Orch, gate: Gate, w: World)
    requires JustPrompted(o, w)
    requires gate.key == NoStalePlayback <==> o.flow.gateIndex == 5
    ensures Inv(o.Present(gate, w).0)
  {
    hide Base, AllPassed, QuietAfter, StopStored, Orch.RestoreOnce, Orch.Show, Orch.Prepare;
    var p := o.(lifecycle := LStartSpeakingNow);
    SpeakingKeepsBase(o);
    if gate.key == IsolatedAssessment && w.attempt.AttemptRaised? {
      RestoreOnceRestores(p.(phase := AnswerPhase), AssessmentDatabaseUnavailable, w);
    } else {
      PrepareKeepsBase(p, gate.key, w);
      ShowKeepsCore(p.Prepare(gate.key, w), gate);
    }
  }

  /** The gate whose turn it is has this key and no other. */
  lemma QuietGateIsFifth(k: int)
    requires 0 <= k < 10
    ensures DEFAULT_GATES[k].key == NoStalePlayback <==> k == 5
    ensures DEFAULT_GATES[k].key == SpokenStop <==> k == 4
    ensures DEFAULT_GATES[k].key == UiVoiceSynchronization <==> k == 9
    ensures DEFAULT_GATES[k].key == IsolatedAssessment <==> k == 8
    ensures DEFAULT_GATES[k].key == LearningOutput <==> k == 2
  {
  }

  /** A gate has passed and the next one is due. */
  ghost predicate NextDue(o: Orch, next: NextGate) {
    && Core(o) && o.flow.state == GateResult && !o.restoreRequested && AllPassed(o.gateResults)
    && o.lifecycle == LGateResult && StopPrepared(o, next)
    && |o.gateResults| == o.flow.gateIndex + 1
  }

  lemma NoMoreGates(o: Orch, next: NextGate, w: World)
    requires NextDue(o, next) && o.flow.gateIndex >= 9
    ensures o.flow.IndexInRange()
    ensures Inv(o.ShowNextGate(next, w).0)
  {
    hide FlowOk, ResultsMatch, OnlyLastCanFail, CompletionClaim, ProperStarts, StreamOk, StopProven, AllFounded, QuietTimed,
      AllPassed, StopStored, Orch.RestoreOnce, Orch.Present, Orch.FailGate, Flow.SpeakingPrompt, Inv;
    FlowOkInRange(o.flow);
    PromptKeepsFlow(o.flow, w.now);
    RestoreOnceRestores(o.(flow := o.flow.SpeakingPrompt(w.now).0), AllPhysicalGatesCompleted, w);
  }

  lemma OneMoreGate(o: Orch, next: NextGate, w: World)
    requires NextDue(o, next) && o.flow.gateIndex < 9
    ensures o.flow.IndexInRange()
    ensures Inv(o.ShowNextGate(next, w).0)
  {
    hide FlowOk, ResultsMatch, OnlyLastCanFail, CompletionClaim, ProperStarts, StreamOk, StopProven, AllFounded, QuietTimed,
      OnceOk, CueOk, StopStored, Orch.Present, Orch.FailGate, Flow.SpeakingPrompt, Inv, Identified,
      Settled, RestorationOk, LifecycleOk, WaitingOk, AllPassed;
    FlowOkInRange(o.flow);
    PromptKeepsFlow(o.flow, w.now);
    var (g, gate) := o.flow.SpeakingPrompt(w.now);
    PromptedKeeps(o, next, w.now);
    var p := o.(flow := g).Aim(next);
    QuietGateIsFifth(g.gateIndex);
    FailGateKeeps(p, PlaybackIdentityUnavailable, w);
    PresentKeeps(p, gate.value, w);
  }

  lemma ShowNextGateKeeps(o: Orch, next: NextGate, w: World)
    requires NextDue(o, next)
    ensures o.flow.IndexInRange()
    ensures Inv(o.ShowNextGate(next, w).0)
  {
    hide *;
    if o.flow.gateIndex < 9 {
      OneMoreGate(o, next, w);
    } else {
      NoMoreGates(o, next, w);
    }
  }

  // ---------- what a verdict rests on ----------

  lemma {:induction false} NoneSince(events: seq<RuntimeEvent>, from: int)
    requires forall j :: 0 <= j < |events| ==> events[j].sequence < from
    ensures Since(events, from) == []
  {
    if events != [] {
      NoneSince(events[..|events| - 1], from);
    }
  }

  /** The events since the gate are the newest of the stored ones. */
  lemma {:induction false} SinceIsSuffix(events: seq<RuntimeEvent>, from: int) returns (k: nat)
    requires Increasing(events)
    ensures k <= |events| && Since(events, from) == events[k..]
    ensures forall j :: 0 <= j < k ==> events[j].sequence < from
  {
    if events == [] {
      k := 0;
    } else if events[|events| - 1].sequence < from {
      k := |events|;
      NoneSince(events, from);
    } else {
      var init := events[..|events| - 1];
      k := SinceIsSuffix(init, from);
      assert events[k..] == init[k..] + [events[|events| - 1]];
    }
  }

  lemma SuffixIncreases(observed: seq<RuntimeEvent>, events: seq<RuntimeEvent>, dropped: nat)
    requires Increasing(observed) && dropped <= |observed| && events == observed[dropped..]
    ensures Increasing(events)
    ensures forall j :: 0 <= j < |events| ==> events[j] == observed[dropped + j]
  {
  }

  lemma ObservedSuffix(o: Orch) returns (k: nat)
    requires StreamOk(o.events, o.observed, o.eventSequence)
    ensures k <= |o.observed| && o.EventsSinceGate() == o.observed[k..]
    ensures |o.observed| - |o.events| <= k
    ensures forall j :: |o.observed| - |o.events| <= j < k ==> o.observed[j].sequence < o.gateStartedSequence
  {
    hide Since;
    var dropped := |o.observed| - |o.events|;
    SuffixIncreases(o.observed, o.events, dropped);
    var n := SinceIsSuffix(o.events, o.gateStartedSequence);
    k := dropped + n;
    assert o.events[n..] == o.observed[k..];
    forall j | dropped <= j < k
      ensures o.observed[j].sequence < o.gateStartedSequence
    {
      assert o.events[j - dropped] == o.observed[j];
    }
  }

  lemma ChainShifts(all: seq<RuntimeEvent>, k: nat, playback: Playback, i: int, t: int, s: int)
    requires k <= |all| && StopChain(all[k..], playback, i, t, s)
    ensures StopChain(all, playback, k + i, k + t, k + s) && all[k + s] == all[k..][s]
  {
    assert forall m :: 0 <= m < |all[k..]| ==> all[k..][m] == all[k + m];
    forall m | k + i < m < k + s
      ensures !all[m].Response()
    {
      assert !all[k..][m - k].Response();
    }
  }

  lemma ChainInSuffix(observed: seq<RuntimeEvent>, events: seq<RuntimeEvent>, dropped: nat, k: nat,
                      playback: Playback, i: int, t: int, s: int)
    requires Increasing(observed) && SpeechBegan(observed, playback)
    requires dropped <= k <= |observed| && events == observed[dropped..]
    requires StopChain(observed[k..], playback, i, t, s)
    ensures ChainSeen(observed, playback, observed[k..][s].sequence) && StopStored(events, observed[k..][s].sequence)
  {
    ChainShifts(observed, k, playback, i, t, s);
    assert events[k + s - dropped] == observed[k + s];
    var b :| 0 <= b < |observed| && Begins(observed[b], playback);
    assert b < k + i;
  }

  /** A spoken stop that passes leaves its chain in the observed log and its stop in the stored one. */
  lemma PassStoppedIsFounded(o: Orch, stop: int)
    requires StreamOk(o.events, o.observed, o.eventSequence) && SpeechBegan(o.observed, o.playback)
    requires DecideSpokenStop(o.EventsSinceGate(), o.playback) == PassStopped(stop)
    ensures ChainSeen(o.observed, o.playback, stop) && StopStored(o.events, stop)
  {
    hide DecideSpokenStop, ChainSeen, StopStored, FirstInterruption, SpeechBegan;
    var k := ObservedSuffix(o);
    SuffixIncreases(o.observed, o.EventsSinceGate(), k);
    SpokenStopPassesIffChain(o.EventsSinceGate(), o.playback);
    var i, t, s :| FirstInterruption(o.EventsSinceGate(), o.playback, i) && StopChain(o.EventsSinceGate(), o.playback, i, t, s)
                   && o.EventsSinceGate()[s].sequence == stop;
    ChainInSuffix(o.observed, o.events, |o.observed| - |o.events|, k, o.playback, i, t, s);
  }

  /** A barge-in that passes aims the next gate at a speech in the observed log. */
  lemma PassedBargeInAims(o: Orch, next: NextGate)
    requires StreamOk(o.events, o.observed, o.eventSequence)
    requires DecideBargeIn(o.EventsSinceGate(), o.playback) == Pass(next)
    ensures SpeechBegan(o.observed, next.playback)
  {
    hide StreamOk, DecideBargeIn, Orch.EventsSinceGate;
    var k := ObservedSuffix(o);
    var b := BargeInAims(o.EventsSinceGate(), o.playback);
    assert Begins(o.observed[k..][b], next.playback) && o.observed[k + b] == o.observed[k..][b];
  }

  /** If speech has been observed after the stop, judging the gate after it finds that speech. */
  lemma SpeechIsFound(o: Orch, stop: int)
    requires StreamOk(o.events, o.observed, o.eventSequence) && o.gateStartedSequence == stop
    requires TailStored(o.events, o.observed, stop) && !QuietAfter(o.observed, stop)
    ensures Any(o.EventsSinceGate(), (e: RuntimeEvent) => e.Speech() && e.sequence > stop)
  {
    hide StreamOk, Any, Orch.EventsSinceGate;
    var k := ObservedSuffix(o);
    var j :| 0 <= j < |o.observed| && o.observed[j].sequence > stop && o.observed[j].Speech();
    AnyInSuffix(o.observed, k, j, (e: RuntimeEvent) => e.Speech() && e.sequence > stop);
  }

  lemma AnyInSuffix(all: seq<RuntimeEvent>, k: nat, j: nat, p: Test)
    requires k <= j < |all| && p(all[j])
    ensures Any(all[k..], p)
  {
    assert all[k..][j - k] == all[j];
  }

  // ---------- judging the current gate ----------

  predicate SpeechSince(o: Orch, stop: int) {
    Any(o.EventsSinceGate(), (e: RuntimeEvent) => e.Speech() && e.sequence > stop)
  }

  predicate Ordinary(v: Verdict) {
    v == Wait || v.Fail? || v.Pass? || v == PassWithoutTurn
  }

  lemma OrdinaryVerdicts(since: seq<RuntimeEvent>, approved: bool, playback: Playback, health: VoiceHealth,
                         baseline: int)
    ensures Ordinary(DecideWake(since, health, baseline)) && Ordinary(DecideContinuation(since, approved))
    ensures Ordinary(DecideLearningOutput(since, playback)) && Ordinary(DecideBargeIn(since, playback))
            && Ordinary(DecideProgress(since))
  {
    hide Any, Several, First, Last, MinSequence, Since, NonBlank, Interrupts;
  }

  /** Which gate can give which verdict. */
  lemma VerdictOfGate(o: Orch, database: Option<Database>, now: real)
    requires o.flow.gates == DEFAULT_GATES
    ensures var v := o.Decide(database, now);
            && (o.CurrentGate().None? ==> v == Wait)
            && (v.Pass? || v == PassWithoutTurn ==> o.flow.gateIndex != 4 && o.flow.gateIndex != 5)
            && (v.Pass? && o.flow.gateIndex == 3 ==> v == DecideBargeIn(o.EventsSinceGate(), o.playback))
            && (v.PassStopped? ==> o.flow.gateIndex == 4 && v == DecideSpokenStop(o.EventsSinceGate(), o.playback))
            && (v == AskConfirmation ==> o.flow.gateIndex == 8)
            && (v == QuietConfirmed ==> o.flow.gateIndex == 5 && o.quietDeadline.Some? && now >= o.quietDeadline.value)
            && (o.flow.gateIndex == 5 && o.quietDeadline.Some? && (v == Wait || v == QuietConfirmed) ==>
                  !SpeechSince(o, o.stopSequence.GetOr(0)))
  {
    hide Any, Several, First, Last, MinSequence, Since, NonBlank, Interrupts,
      DecideWake, DecideContinuation, DecideLearningOutput, DecideBargeIn, DecideProgress;
    OrdinaryVerdicts(o.EventsSinceGate(), o.Approved(), o.playback, o.voice.GetOr(VoiceHealth(None, false)), o.wakeBaseline);
    var k := o.flow.gateIndex;
    if 0 <= k < 10 {
      assert o.CurrentGate() == Some(DEFAULT_GATES[k].key);
    }
  }

  /** Which gate is judged how: any after 240 seconds as too late, and else each by its own evidence. */
  lemma GateIsJudged(o: Orch, database: Option<Database>, now: real)
    requires o.flow.gates == DEFAULT_GATES && 0 <= o.flow.gateIndex < 10
    ensures var v, since, k := o.Decide(database, now), o.EventsSinceGate(), o.flow.gateIndex;
            if o.flow.gateStartedAt.Some? && now >= o.flow.gateStartedAt.value + 240.0 then v == Fail(TimedOut)
            else
              && (k == 0 || k == 6 ==> v == DecideWake(since, o.voice.GetOr(VoiceHealth(None, false)), o.wakeBaseline))
              && (k == 1 ==> v == DecideContinuation(since, o.Approved()))
              && (k == 2 ==> v == DecideLearningOutput(since, o.playback))
              && (k == 3 ==> v == DecideBargeIn(since, o.playback))
              && (k == 4 ==> v == DecideSpokenStop(since, o.playback))
              && (k == 5 ==> v == if o.quietDeadline.None? then Wait
                                  else DecideQuiet(since, o.stopSequence.GetOr(0), o.quietReady, o.quietDeadline.value, now))
              && (k == 7 ==> v == DecideProgress(since))
              && (k == 8 && o.phase == AnswerPhase ==> v == DecideAnswer(since))
              && (k == 8 && o.phase == ConfirmPhase ==> v == DecideConfirmation(since, o.databaseBefore, database))
              && (k == 9 ==> v == Wait)
  {
    hide DecideWake, DecideContinuation, DecideLearningOutput, DecideBargeIn, DecideSpokenStop, DecideProgress, DecideAnswer,
      DecideConfirmation, DecideQuiet, Orch.EventsSinceGate;
    assert o.CurrentGate() == Some(DEFAULT_GATES[o.flow.gateIndex].key);
  }

  /** A verdict that passes the gate shown rests on its evidence. */
  lemma PassIsProven(o: Orch, database: Option<Database>, now: real)
    requires o.flow.gates == DEFAULT_GATES && 0 <= o.flow.gateIndex < 10
    ensures var v := o.Decide(database, now);
            && (v.Pass? || v == PassWithoutTurn ==>
                  Proves(o.flow.gateIndex, o.EvidenceNow(database)) && Confirmed(o.flow.gateIndex, o.observations))
            && (v == PassWithoutTurn ==> o.flow.gateIndex == 1)
  {
    hide Orch.Decide, DecideWake, DecideContinuation, DecideLearningOutput, DecideBargeIn, DecideSpokenStop, DecideProgress,
      DecideAnswer, DecideConfirmation, DecideQuiet, WokenOnce, LessonGiven, PlaybackOver, RepeatedOnce, ProgressTold,
      ReadAfterAsked, Submitted, GainedAttempt, Orch.EventsSinceGate;
    var since := o.EventsSinceGate();
    GateIsJudged(o, database, now);
    QuietGateIsFifth(o.flow.gateIndex);
    WakeMeans(since, o.voice.GetOr(VoiceHealth(None, false)), o.wakeBaseline);
    PassedLessonIsGiven(since, o.Approved());
    OutputMeans(since, o.playback);
    PassedBargeInIsRepeated(since, o.playback);
    ProgressMeans(since);
    AnswerMeans(since);
    ConfirmationMeans(since, o.databaseBefore, database);
    StopAndQuietDoNotPass(since, o.playback, o.stopSequence.GetOr(0), o.quietReady, o.quietDeadline.GetOr(0.0), now);
    TurnlessOnlyLesson(since, o.playback);
  }

  lemma StopAndQuietDoNotPass(since: seq<RuntimeEvent>, playback: Playback, stop: int, ready: bool, deadline: real, now: real)
    ensures !DecideSpokenStop(since, playback).Pass? && DecideSpokenStop(since, playback) != PassWithoutTurn
    ensures !DecideQuiet(since, stop, ready, deadline, now).Pass?
    ensures DecideQuiet(since, stop, ready, deadline, now) != PassWithoutTurn
  {
    hide Any, First, MinSequence;
  }

  lemma TurnlessOnlyLesson(since: seq<RuntimeEvent>, playback: Playback)
    ensures DecideBargeIn(since, playback) != PassWithoutTurn
  {
    hide Any, Several, First;
  }

  lemma PassKeeps(o: Orch, next: NextGate, d: Option<Database>, w: World)
    requires Core(o) && Settled(o) && o.flow.state == StartSpeaking
    requires o.flow.gateIndex != 4 && o.flow.gateIndex != 5
    requires o.flow.gateIndex == 3 ==> SpeechBegan(o.observed, next.playback)
    requires Proves(o.flow.gateIndex, o.EvidenceNow(d)) && Confirmed(o.flow.gateIndex, o.observations)
    ensures o.flow.IndexInRange()
    ensures var (p, ok) := o.RecordGate(true, None, d, w);
            ok && p.flow.IndexInRange() && Inv(p.ShowNextGate(next, w).0)
  {
    hide Proves, Confirmed, Orch.EvidenceNow, FlowOk, ResultsMatch, OnlyLastCanFail, CompletionClaim, ProperStarts, StreamOk,
      StopProven, AllFounded, QuietTimed,
      OnceOk, CueOk, StopStored, ChainSeen, QuietGateTimed, Orch.RecordGate, Orch.ShowNextGate, Inv;
    FlowOkInRange(o.flow);
    RecordGateRecords(o, true, None, d, w);
    var p := o.RecordGate(true, None, d, w).0;
    assert AllPassed(p.gateResults) by { AllPassedGrows(o.gateResults, p.gateResults); }
    ShowNextGateKeeps(p, next, w);
  }

  lemma AllPassedGrows(results: seq<GateSummary>, more: seq<GateSummary>)
    requires AllPassed(results) && |more| == |results| + 1 && more[..|results|] == results && more[|results|].passed
    ensures AllPassed(more)
  {
    assert forall k :: 0 <= k < |results| ==> more[k] == more[..|results|][k];
  }

  lemma StopIsFree(o: Orch, stop: int, now: real)
    requires Core(o) && Settled(o) && o.flow.state == StartSpeaking && o.flow.gateIndex == 4
    ensures var p := o.NoteStop(stop, now);
            Core(p) && Settled(p)
  {
    hide Valid, OnlyLastCanFail, CompletionClaim, ProperStarts, StreamOk, ChainSeen, QuietAfter, AllPassed;
    StartSpeakingCounts(o.flow);
  }

  lemma StartSpeakingCounts(f: Flow)
    requires FlowOk(f) && f.state == StartSpeaking
    ensures 0 <= f.gateIndex == |f.latencies| < 10
  {
    hide LogExplainsState;
  }

  lemma PassStoppedKeeps(o: Orch, stop: int, d: Option<Database>, w: World)
    requires Core(o) && Settled(o) && o.flow.state == StartSpeaking && o.flow.gateIndex == 4
    requires DecideSpokenStop(o.EventsSinceGate(), o.playback) == PassStopped(stop)
    ensures o.flow.IndexInRange()
    ensures var (p, ok) := o.RecordGate(true, None, d, w);
            ok && p.flow.IndexInRange()
            && Inv(p.NoteStop(stop, w.now).ShowNextGate(NextGate(Some(stop), NO_PLAYBACK), w).0)
  {
    hide FlowOk, ResultsMatch, OnlyLastCanFail, CompletionClaim, ProperStarts, StreamOk, StopProven, AllFounded, QuietTimed,
      OnceOk, CueOk, StopStored, ChainSeen, QuietGateTimed, Orch.RecordGate, Orch.ShowNextGate, Inv, DecideSpokenStop,
      AllPassed;
    PassStoppedIsFounded(o, stop);
    StopIsFree(o, stop, w.now);
    var q := o.NoteStop(stop, w.now);
    RecordGateRecords(q, true, None, d, w);
    var p := q.RecordGate(true, None, d, w).0;
    AllPassedGrows(o.gateResults, p.gateResults);
    ShowNextGateKeeps(p, NextGate(Some(stop), NO_PLAYBACK), w);
    StopCommutes(o, stop, d, w);
  }

  lemma StopCommutes(o: Orch, stop: int, d: Option<Database>, w: World)
    requires o.flow.IndexInRange()
    ensures var (p, ok) := o.RecordGate(true, None, d, w);
            o.NoteStop(stop, w.now).RecordGate(true, None, d, w) == (p.NoteStop(stop, w.now), ok)
  {
  }

  lemma PassWithoutTurnKeeps(o: Orch, d: Option<Database>, w: World)
    requires Core(o) && Settled(o) && o.flow.state == StartSpeaking
    requires o.flow.gateIndex == 1 && Proves(1, o.EvidenceNow(d))
    ensures o.flow.IndexInRange()
    ensures var (p, ok) := o.RecordGate(true, None, d, w);
            ok && p.flow.IndexInRange() && Inv(p.FailGate(TurnIdentityUnavailable, w))
  {
    hide Proves, Orch.EvidenceNow, FlowOk, ResultsMatch, OnlyLastCanFail, CompletionClaim, ProperStarts, StreamOk, StopProven,
      AllFounded, QuietTimed, OnceOk, CueOk, ChainSeen, QuietGateTimed, Orch.RecordGate, Orch.RestoreOnce, Orch.FailGate, Inv;
    FlowOkInRange(o.flow);
    RecordGateRecords(o, true, None, d, w);
    var p := o.RecordGate(true, None, d, w).0;
    FlowOkInRange(p.flow);
    NothingRecorded(p, false, Some(TurnIdentityUnavailable), None, w);
    FailGateUnfolds(p, TurnIdentityUnavailable, w);
    RestoreOnceRestores(p, PhysicalGateFailed(p.CurrentGate().value), w);
  }

  lemma RestartKeepsFlow(f: Flow, now: real)
    requires FlowOk(f)
    ensures FlowOk(f.RestartGateClock(now))
  {
    RestartKeeps(f, now);
  }

  lemma AskForYesKeeps(o: Orch, now: real)
    requires Core(o) && Settled(o) && o.flow.state == StartSpeaking && o.flow.gateIndex == 8
    ensures Inv(o.AskForYes(now))
  {
    hide FlowOk, ResultsMatch, OnlyLastCanFail, CompletionClaim, ProperStarts, StreamOk, StopProven, AllFounded, QuietTimed,
      AllPassed;
    RestartKeepsFlow(o.flow, now);
  }

  lemma ConfirmQuietKeeps(o: Orch, now: real)
    requires Core(o) && Settled(o) && AtQuietGate(o) && QuietGateTimed(o)
    requires now >= o.quietDeadline.value && QuietAfter(o.observed, o.stopSequence.value)
    requires |o.gateResults| == 5
    ensures Inv(o.ConfirmQuiet(now))
  {
    hide FlowOk, ResultsMatch, OnlyLastCanFail, CompletionClaim, ProperStarts, StreamOk, StopProven, AllPassed,
      QuietAfter;
  }

  /** Judging whatever gate is current keeps the invariant; in particular the quiet gate is found
      quiet only if no speech at all has been observed since the stop. */
  lemma EvaluateKeeps(o: Orch, database: Option<Database>, w: World)
    requires Core(o) && Settled(o) && QuietGateJudgeable(o) && !InRestoration(o.lifecycle)
    ensures o.flow.IndexInRange()
    ensures Inv(o.Evaluate(database, w))
  {
    hide FlowOk, ResultsMatch, OnlyLastCanFail, CompletionClaim, ProperStarts, StreamOk, StopProven, AllFounded, QuietTimed,
      OnceOk, CueOk, AllPassed, QuietAfter, TailStored, StopStored, ChainSeen, Orch.Decide, Orch.FailGate, Orch.RecordGate,
      Orch.ShowNextGate, Orch.AskForYes, Orch.ConfirmQuiet, DecideSpokenStop, DecideBargeIn, SpeechSince, SpeechBegan, Proves,
      Confirmed, Orch.EvidenceNow;
    FlowOkInRange(o.flow);
    var v := o.Decide(o.Judged(database, w), w.now);
    VerdictOfGate(o, o.Judged(database, w), w.now);
    if v.Fail? {
      FailGateKeeps(o, v.failure, w);
    } else if o.flow.state != StartSpeaking {
      NoGateBeforeStart(o);
    } else {
      StartSpeakingCounts(o.flow);
      ResultsCount(o.gateResults, o.flow.latencies);
      QuietIsFound(o);
      match v {
        case Wait =>
        case Pass(next) =>
          if o.flow.gateIndex == 3 {
            PassedBargeInAims(o, next);
          }
          PassIsProven(o, o.Judged(database, w), w.now);
          PassKeeps(o, next, o.Judged(database, w), w);
        case PassStopped(stop) => PassStoppedKeeps(o, stop, o.Judged(database, w), w);
        case PassWithoutTurn =>
          PassIsProven(o, o.Judged(database, w), w.now);
          PassWithoutTurnKeeps(o, o.Judged(database, w), w);
        case AskConfirmation => AskForYesKeeps(o, w.now);
        case QuietConfirmed => ConfirmQuietKeeps(o, w.now);
      }
    }
  }

  lemma NoGateBeforeStart(o: Orch)
    requires FlowOk(o.flow) && (BeforeStart(o.flow.state) || o.flow.state == CaptureHandoff)
    ensures o.CurrentGate().None?
  {
    hide LogExplainsState;
  }

  lemma QuietIsFound(o: Orch)
    requires StreamOk(o.events, o.observed, o.eventSequence) && QuietGateJudgeable(o)
    ensures AtQuietGate(o) && !SpeechSince(o, o.stopSequence.GetOr(0)) ==> QuietAfter(o.observed, o.stopSequence.value)
  {
    hide QuietAfter, TailStored, StreamOk;
    if AtQuietGate(o) && !QuietAfter(o.observed, o.stopSequence.value) {
      SpeechIsFound(o, o.stopSequence.value);
    }
  }

  // ---------- one runtime event ----------

  /** The stream grows by strictly newer events only, whatever is delivered. */
  lemma AppendKeepsStream(o: Orch, e: RuntimeEvent)
    requires StreamOk(o.events, o.observed, o.eventSequence) && e.sequence > o.eventSequence
    ensures var p := o.Append(e);
            StreamOk(p.events, p.observed, p.eventSequence) && p.observed == o.observed + [e]
  {
    var p := o.Append(e);
    assert forall k :: 0 <= k < |o.observed| ==> o.observed[k].sequence <= o.eventSequence;
    assert p.events == p.observed[|p.observed| - |p.events|..];
  }

  /** An event that is not late speech leaves the quiet gate judgeable. */
  lemma AppendKeepsJudgeable(o: Orch, e: RuntimeEvent)
    requires StreamOk(o.events, o.observed, o.eventSequence) && e.sequence > o.eventSequence
    requires QuietGateOk(o)
    requires AtQuietGate(o) ==> !(e.sequence > o.stopSequence.value && e.Speech())
    ensures QuietGateJudgeable(o.Append(e))
  {
    if AtQuietGate(o) {
      var stop := o.stopSequence.value;
      var p := o.Append(e);
      AppendKeepsStream(o, e);
      if QuietAfter(o.observed, stop) {
        assert QuietAfter(p.observed, stop);
      } else {
        TailSurvives(o, e, stop);
      }
    }
  }

  lemma TailSurvives(o: Orch, e: RuntimeEvent, stop: int)
    requires StreamOk(o.events, o.observed, o.eventSequence) && e.sequence > o.eventSequence
    requires StopStored(o.events, stop)
    ensures var p := o.Append(e); TailStored(p.events, p.observed, stop)
  {
    var j :| 0 <= j < |o.events| && o.events[j].sequence == stop;
    var dropped := |o.observed| - |o.events|;
    assert o.observed[dropped + j] == o.events[j];
    var p := o.Append(e);
    forall k | 0 <= k < |p.observed| && p.observed[k].sequence > stop
      ensures k >= |p.observed| - |p.events|
    {
      assert k < |o.observed| ==> p.observed[k] == o.observed[k] && k > dropped + j;
    }
  }

  lemma AppendKeepsProofs(results: seq<GateSummary>, observed: seq<RuntimeEvent>, e: RuntimeEvent, stop: Option<int>)
    requires StopProven(results, observed, stop)
    ensures StopProven(results, observed + [e], stop)
  {
    assert |results| > 4 ==> (observed + [e])[..results[4].seen] == observed[..results[4].seen];
    assert |results| > 5 ==> (observed + [e])[..results[5].seen] == observed[..results[5].seen];
  }

  lemma AppendKeepsFounded(results: seq<GateSummary>, observed: seq<RuntimeEvent>, e: RuntimeEvent,
                            observations: seq<Observation>)
    requires AllFounded(results, observed, observations)
    ensures AllFounded(results, observed + [e], observations)
  {
    hide Proves, Confirmed, IsTail;
    forall k | 0 <= k < |results|
      ensures RestsOnEvidence(k, results[k], observed + [e], observations)
    {
      assert RestsOnEvidence(k, results[k], observed, observations);
      if results[k].passed {
        assert (observed + [e])[..results[k].seen] == observed[..results[k].seen];
      }
    }
  }

  lemma AppendKeepsCore(o: Orch, e: RuntimeEvent)
    requires Core(o) && Settled(o) && e.sequence > o.eventSequence
    ensures Core(o.Append(e)) && Settled(o.Append(e))
  {
    hide FlowOk, ResultsMatch, OnlyLastCanFail, CompletionClaim, ProperStarts, StreamOk, StopProven, AllFounded, QuietTimed,
      AllPassed, Orch.Append;
    AppendKeepsStream(o, e);
    AppendKeepsProofs(o.gateResults, o.observed, e, o.stopSequence);
    AppendKeepsFounded(o.gateResults, o.observed, e, o.observations);
    AppendKeepsSpeech(o.observed, e, o.playback);
    AppendFrame(o, e);
  }

  lemma AppendKeepsSpeech(observed: seq<RuntimeEvent>, e: RuntimeEvent, playback: Playback)
    ensures SpeechBegan(observed, playback) ==> SpeechBegan(observed + [e], playback)
  {
    if SpeechBegan(observed, playback) {
      var b :| 0 <= b < |observed| && Begins(observed[b], playback);
      assert (observed + [e])[b] == observed[b];
    }
  }

  lemma AppendFrame(o: Orch, e: RuntimeEvent)
    ensures var p := o.Append(e); p == o.(eventSequence := p.eventSequence, events := p.events, observed := p.observed)
  {
  }

  lemma ObserveOneKeeps(o: Orch, e: RuntimeEvent, database: Option<Database>, w: World)
    requires Inv(o) && !InRestoration(o.lifecycle)
    ensures o.flow.IndexInRange()
    ensures var (p, done) := o.ObserveOne(e, database, w);
            Inv(p) && (done <==> InRestoration(p.lifecycle)) && (done ==> e.sequence > o.eventSequence)
  {
    hide FlowOk, ResultsMatch, OnlyLastCanFail, CompletionClaim, ProperStarts, StreamOk, StopProven, AllFounded, QuietTimed,
      OnceOk, CueOk, AllPassed, QuietAfter, TailStored, StopStored, ChainSeen, Orch.FailGate, Orch.Evaluate, Orch.Append,
      QuietGateTimed;
    FlowOkInRange(o.flow);
    if e.sequence > o.eventSequence {
      var p := o.Append(e);
      AppendKeepsCore(o, e);
      AppendFrame(o, e);
      if o.stopSequence.Some? && e.sequence > o.stopSequence.value && e.Speech() && o.CurrentGate() == Some(NoStalePlayback) {
        FailGateKeeps(p, SpeechAfterStop, w);
      } else {
        if AtQuietGate(o) {
          QuietGateIsFifth(5);
          QuietGateHasStop(o);
        }
        AppendKeepsJudgeable(o, e);
        EvaluateKeeps(p, database, w);
      }
    }
  }

  lemma QuietGateHasStop(o: Orch)
    requires QuietGateOk(o) && AtQuietGate(o)
    ensures o.stopSequence.Some?
  {
  }

  // ---------- batches of events and owner observations ----------

  lemma {:induction false} ObserveBatchKeeps(o: Orch, batch: seq<RuntimeEvent>, database: Option<Database>, w: World)
    requires Inv(o) && !InRestoration(o.lifecycle)
    ensures o.flow.IndexInRange()
    ensures Inv(o.ObserveBatch(batch, database, w))
    decreases |batch|
  {
    hide Core, Settled, Orch.Evaluate, Orch.ObserveOne;
    InvInRange(o);
    if batch == [] {
      QuietGateCanBeJudged(o);
      EvaluateKeeps(o, database, w);
    } else {
      ObserveOneKeeps(o, batch[0], database, w);
      var (p, done) := o.ObserveOne(batch[0], database, w);
      if !done {
        ObserveBatchKeeps(p, batch[1..], database, w);
      }
    }
  }

  lemma InvInRange(o: Orch)
    requires Inv(o)
    ensures o.flow.IndexInRange() && FlowOk(o.flow)
  {
    hide FlowOk;
    FlowOkInRange(o.flow);
  }

  lemma QuietGateCanBeJudged(o: Orch)
    requires Inv(o)
    ensures QuietGateJudgeable(o)
  {
    hide FlowOk, ResultsMatch, OnlyLastCanFail, CompletionClaim, ProperStarts, StopProven, AllFounded, QuietTimed, QuietAfter;
    if AtQuietGate(o) && StopStored(o.events, o.stopSequence.value) {
      StoredMeansTail(o.events, o.observed, o.eventSequence, o.stopSequence.value);
    }
  }

  lemma StoredMeansTail(events: seq<RuntimeEvent>, observed: seq<RuntimeEvent>, last: int, stop: int)
    requires StreamOk(events, observed, last) && StopStored(events, stop)
    ensures TailStored(events, observed, stop)
  {
    var j :| 0 <= j < |events| && events[j].sequence == stop;
    assert observed[|observed| - |events| + j] == events[j];
  }

  lemma ObserveRuntimeEventsKeeps(o: Orch, delivered: seq<RuntimeEvent>, health: Option<VoiceHealth>,
                                  database: Option<Database>, w: World)
    requires Inv(o)
    ensures o.flow.IndexInRange()
    ensures Inv(o.ObserveRuntimeEvents(delivered, health, database, w))
  {
    hide FlowOk, ResultsMatch, OnlyLastCanFail, CompletionClaim, ProperStarts, StreamOk, StopProven, AllFounded, QuietTimed,
      AllPassed, QuietAfter, StopStored, Orch.ObserveBatch, SortedBySequence;
    InvInRange(o);
    var p := if health.Some? then o.(voice := health) else o;
    assert Inv(p);
    if !InRestoration(o.lifecycle) {
      ObserveBatchKeeps(p, SortedBySequence(delivered), database, w);
    }
  }

  lemma ObserveKeepsFounded(o: Orch, r: ObservationRequest, w: World)
    ensures AllFounded(o.gateResults, o.observed, o.observations) ==>
              AllFounded(o.gateResults, o.observed, o.Observe(r, w).observations)
  {
    hide Proves, IsTail, Orch.Observe;
    if AllFounded(o.gateResults, o.observed, o.observations) {
      ObservationsGrow(o, r, w);
      forall k | 0 <= k < |o.gateResults|
        ensures RestsOnEvidence(k, o.gateResults[k], o.observed, o.Observe(r, w).observations)
      {
        assert RestsOnEvidence(k, o.gateResults[k], o.observed, o.observations);
        ConfirmedGrows(k, o.observations, o.Observe(r, w).observations);
      }
    }
  }

  lemma ObservationsGrow(o: Orch, r: ObservationRequest, w: World)
    ensures o.observations <= o.Observe(r, w).observations
  {
  }

  lemma ConfirmedGrows(k: int, observations: seq<Observation>, more: seq<Observation>)
    requires observations <= more
    ensures Confirmed(k, observations) ==> Confirmed(k, more)
  {
    assert forall n :: 0 <= n < |observations| ==> more[n] == observations[n];
  }

  /** What has just been confirmed is confirmed. */
  lemma JustConfirmed(o: Orch, r: ObservationRequest, w: World)
    requires o.flow.gates == DEFAULT_GATES && 0 <= o.flow.gateIndex < 10
    requires r.requestId.Some? && r.action.Some?
    requires (r.action == Some(ConfirmNoStalePlayback) && o.flow.gateIndex == 5)
             || (r.action == Some(ConfirmLearningOutputAudible) && o.flow.gateIndex == 2)
             || (r.action == Some(ConfirmUiVoiceSync) && o.flow.gateIndex == 9)
    ensures Confirmed(o.flow.gateIndex, o.Observe(r, w).observations)
  {
    assert o.CurrentGate() == Some(DEFAULT_GATES[o.flow.gateIndex].key);
    var added := Observation(r.requestId.value, DEFAULT_GATES[o.flow.gateIndex].key, r.action.value, w.now);
    assert o.Observe(r, w).observations == o.observations + [added];
    assert o.Observe(r, w).observations[|o.observations|] == added;
  }

  lemma NotOverMeans(o: Orch)
    ensures o.PlaybackEnded() <==> PlaybackOver(o.EventsSinceGate(), o.playback)
  {
    hide Orch.EventsSinceGate;
  }

  lemma ObserveKeeps(o: Orch, r: ObservationRequest, w: World)
    requires Inv(o)
    ensures Inv(o.Observe(r, w)) && o.Observe(r, w) == o.(observations := o.Observe(r, w).observations)
  {
    ObserveKeepsFounded(o, r, w);
    hide FlowOk, ResultsMatch, OnlyLastCanFail, CompletionClaim, ProperStarts, StreamOk, StopProven, AllFounded, QuietTimed,
      AllPassed, QuietAfter, StopStored;
  }

  lemma NoStaleConfirmed(o: Orch, w: World)
    requires Inv(o) && AtQuietGate(o) && o.quietReady && Confirmed(5, o.observations)
    ensures o.flow.IndexInRange()
    ensures Inv(o.RecordGate(true, None, None, w).0.ShowNextGate(PLAIN_NEXT, w).0)
  {
    hide FlowOk, ResultsMatch, OnlyLastCanFail, CompletionClaim, ProperStarts, StreamOk, StopProven, AllFounded, QuietTimed,
      OnceOk, CueOk, StopStored, ChainSeen, AllPassed, QuietGateTimed, Orch.RecordGate, Orch.ShowNextGate;
    FlowOkInRange(o.flow);
    RecordGateRecords(o, true, None, None, w);
    var p := o.RecordGate(true, None, None, w).0;
    AllPassedGrows(o.gateResults, p.gateResults);
    ShowNextGateKeeps(p, PLAIN_NEXT, w);
  }

  lemma LastGateConfirmed(o: Orch, w: World)
    requires Inv(o) && o.flow.state == StartSpeaking && o.flow.gateIndex == 9 && Confirmed(9, o.observations)
    ensures o.flow.IndexInRange()
    ensures Inv(o.RecordGate(true, None, None, w).0.RestoreOnce(AllPhysicalGatesCompleted, w))
  {
    hide FlowOk, ResultsMatch, OnlyLastCanFail, CompletionClaim, ProperStarts, StreamOk, StopProven, AllFounded, QuietTimed,
      OnceOk, CueOk, ChainSeen, AllPassed, QuietGateTimed, Orch.RecordGate, Orch.RestoreOnce;
    FlowOkInRange(o.flow);
    RecordGateRecords(o, true, None, None, w);
    var p := o.RecordGate(true, None, None, w).0;
    AllPassedGrows(o.gateResults, p.gateResults);
    RestoreOnceRestores(p, AllPhysicalGatesCompleted, w);
  }

  lemma StaleConfirmed(o: Orch, r: ObservationRequest, w: World)
    requires Inv(o) && AtQuietGate(o) && o.quietReady && r.requestId.Some? && r.action == Some(ConfirmNoStalePlayback)
    ensures o.Observe(r, w).flow.IndexInRange()
    ensures Inv(o.Observe(r, w).RecordGate(true, None, None, w).0.ShowNextGate(PLAIN_NEXT, w).0)
  {
    hide Inv, FlowOk, Confirmed, Orch.RecordGate, Orch.ShowNextGate, Orch.Observe, QuietGateTimed;
    InvInRange(o);
    FlowOkInRange(o.flow);
    JustConfirmed(o, r, w);
    ObserveKeeps(o, r, w);
    NoStaleConfirmed(o.Observe(r, w), w);
  }

  lemma SyncConfirmed(o: Orch, r: ObservationRequest, w: World)
    requires Inv(o) && o.flow.state == StartSpeaking && o.flow.gateIndex == 9
    requires r.requestId.Some? && r.action == Some(ConfirmUiVoiceSync)
    ensures o.Observe(r, w).flow.IndexInRange()
    ensures Inv(o.Observe(r, w).RecordGate(true, None, None, w).0.RestoreOnce(AllPhysicalGatesCompleted, w))
  {
    hide Inv, FlowOk, Confirmed, Orch.RecordGate, Orch.RestoreOnce, Orch.Observe;
    InvInRange(o);
    FlowOkInRange(o.flow);
    JustConfirmed(o, r, w);
    ObserveKeeps(o, r, w);
    LastGateConfirmed(o.Observe(r, w), w);
  }

  lemma AudibleConfirmed(o: Orch, r: ObservationRequest, w: World)
    requires Inv(o) && o.flow.state == StartSpeaking && o.flow.gateIndex == 2 && !o.PlaybackEnded()
    requires r.requestId.Some? && r.action == Some(ConfirmLearningOutputAudible)
    ensures o.Observe(r, w).flow.IndexInRange()
    ensures Inv(o.Observe(r, w).RecordGate(true, None, None, w).0
                 .ShowNextGate(NextGate(o.playback.sequence, o.playback.(sessionId := None)), w).0)
  {
    hide Base, RestorationOk, LifecycleOk, WaitingOk, StopGateAimed, Settled, QuietGateOk, FlowOk, Confirmed, PlaybackOver,
      Orch.RecordGate, Orch.ShowNextGate, Orch.Observe, Orch.PlaybackEnded;
    InvInRange(o);
    FlowOkInRange(o.flow);
    JustConfirmed(o, r, w);
    ObserveKeeps(o, r, w);
    NotOverMeans(o.Observe(r, w));
    NotOverMeans(o);
    PassKeeps(o.Observe(r, w), NextGate(o.playback.sequence, o.playback.(sessionId := None)), None, w);
  }

  lemma ConsumeOwnerObservationKeeps(o: Orch, r: ObservationRequest, w: World)
    requires Inv(o)
    ensures o.flow.IndexInRange()
    ensures Inv(o.ConsumeOwnerObservation(r, w).0)
  {
    hide FlowOk, ResultsMatch, OnlyLastCanFail, CompletionClaim, ProperStarts, StreamOk, StopProven, AllFounded, QuietTimed,
      OnceOk, CueOk, AllPassed, QuietAfter, StopStored, QuietGateTimed, Settled, RestorationOk, LifecycleOk, Orch.RecordGate,
      Orch.ShowNextGate, Orch.FailGate, Orch.RestoreOnce, Orch.Observe, Orch.NamesActivePlayback, Orch.PlaybackEnded;
    InvInRange(o);
    FlowOkInRange(o.flow);
    if o.ObservationIsCurrent(r, w.now) && r.action.Some? && o.CurrentGate().Some? {
      QuietGateIsFifth(o.flow.gateIndex);
      match r.action.value {
        case ConfirmNoStalePlayback =>
          if o.CurrentGate() == Some(NoStalePlayback) && o.quietReady {
            StaleConfirmed(o, r, w);
          }
        case ConfirmLearningOutputAudible =>
          if o.CurrentGate() == Some(LearningOutput) {
            FailGateWhenever(o, NotConfirmedDuringPlayback, w);
            if !o.PlaybackEnded() {
              AudibleConfirmed(o, r, w);
            }
          }
        case ConfirmUiVoiceSync =>
          if o.CurrentGate() == Some(UiVoiceSynchronization) {
            SyncConfirmed(o, r, w);
          }
      }
    }
  }

  lemma FailGateWhenever(o: Orch, failure: Failure, w: World)
    requires Inv(o)
    ensures o.flow.IndexInRange()
    ensures Inv(o.FailGate(failure, w))
  {
    hide FlowOk, Base, Settled, RestorationOk, LifecycleOk, WaitingOk, QuietGateOk, Orch.RecordGate, Orch.RestoreOnce;
    InvInRange(o);
    if !InRestoration(o.lifecycle) {
      FailGateKeeps(o, failure, w);
    }
  }

  // ---------- preparation, START and capture ----------

  /** Entering an ordinary lifecycle state while nothing is being restored. */
  lemma EnterKeeps(o: Orch, l: Lifecycle)
    requires Base(o) && !o.restoreRequested && !Leaving(o.flow.state) && Settled(o) && !AtStopGates(o)
    requires StateFits(l, o.flow.state)
    ensures Inv(o.Enter(l)) && o.Enter(l) == o.(lifecycle := l, status := o.Enter(l).status)
  {
    hide FlowOk, ResultsMatch, OnlyLastCanFail, CompletionClaim, ProperStarts, StreamOk, StopProven, AllFounded, QuietTimed,
      AllPassed;
  }

  lemma BeforeStartFacts(f: Flow)
    requires FlowOk(f) && (BeforeStart(f.state) || f.state == CaptureHandoff)
    ensures f.gateIndex == -1 && !f.captureVerified
    ensures BeforeStart(f.state) ==> f.ownerStartCount == 0
    ensures f.state == CaptureHandoff ==> f.ownerStartCount == 1
    ensures f.state == AwaitingOwnerStart ==> f.startDeadline.Some?
  {
    hide LogExplainsState;
  }

  lemma RecordPreflightKeeps(o: Orch, passed: bool, w: World)
    requires Inv(o)
    ensures Inv(o.RecordPreflight(passed, w).0)
  {
    hide FlowOk, ResultsMatch, OnlyLastCanFail, CompletionClaim, ProperStarts, StreamOk, StopProven, AllFounded, QuietTimed,
      OnceOk, CueOk, AllPassed, QuietAfter, StopStored, WaitingOk, Orch.RestoreOnce, Orch.Enter, Inv;
    if o.lifecycle == LPreparing {
      InvParts(o);
      if passed {
        PreparationMoves(o, LPreflight);
        PreparationMoves(o.Enter(LPreflight), LGuardedResourceStartup);
      } else {
        PreparationMoves(o, LPreflight);
        InvParts(o.Enter(LPreflight));
        RestoreOnceRestores(o.Enter(LPreflight), PreflightFailed, w);
      }
    }
  }

  lemma InvParts(o: Orch)
    requires Inv(o)
    ensures Base(o) && RestorationOk(o) && LifecycleOk(o) && WaitingOk(o) && StopGateAimed(o)
    ensures Settled(o) && QuietGateOk(o) && FlowOk(o.flow)
    ensures !InRestoration(o.lifecycle) ==> !o.restoreRequested && !Leaving(o.flow.state)
  {
    hide FlowOk, ResultsMatch, OnlyLastCanFail, CompletionClaim, ProperStarts, StreamOk, StopProven, AllFounded, QuietTimed,
      OnceOk, CueOk, AllPassed, QuietAfter, StopStored;
  }

  /** A move between lifecycle states that leaves the flow alone, from outside restoration. */
  lemma PreparationMoves(o: Orch, l: Lifecycle)
    requires Inv(o) && !InRestoration(o.lifecycle) && StateFits(l, o.flow.state)
    ensures Inv(o.Enter(l)) && o.Enter(l) == o.(lifecycle := l, status := o.Enter(l).status)
  {
    hide FlowOk, ResultsMatch, OnlyLastCanFail, CompletionClaim, ProperStarts, StreamOk, StopProven, AllFounded, QuietTimed,
      AllPassed, QuietAfter, StopStored;
  }

  lemma BeginCheckKeepsFlow(f: Flow, now: real)
    requires FlowOk(f) && f.state == Preparing
    ensures var g := f.BeginResourceCheck(now).0;
            FlowOk(g) && g == f.(state := ResourceCheck, events := g.events)
  {
    hide LogExplainsState;
    BeginResourceCheckKeeps(f, now);
  }

  lemma QualifyKeepsFlow(f: Flow, safe: bool, autoRestore: bool, independentAbort: bool, now: real)
    requires FlowOk(f) && f.state == ResourceCheck
    ensures var (g, ok) := f.QualifyResources(safe, autoRestore, independentAbort, now);
            && FlowOk(g) && (ok <==> g.state == ResourceQualified) && (!ok ==> g.state == Restoring)
            && g == f.(state := g.state, autoRestoreArmed := autoRestore, independentAbortArmed := independentAbort,
                       resourceSafe := g.resourceSafe, restoreReason := g.restoreReason, events := g.events)
  {
    hide LogExplainsState;
    QualifyResourcesKeeps(f, safe, autoRestore, independentAbort, now);
  }

  lemma AwaitKeepsFlow(f: Flow, now: real, ttl: real)
    requires FlowOk(f)
    ensures var (g, ok) := f.AwaitOwnerStart(now, ttl);
            ok ==> && f.state == ResourceQualified && FlowOk(g)
                   && g == f.(state := AwaitingOwnerStart, startDeadline := g.startDeadline, events := g.events)
  {
    hide LogExplainsState;
    AwaitOwnerStartKeeps(f, now, ttl);
  }

  lemma AckKeepsFlow(f: Flow, now: real)
    requires FlowOk(f) && f.state == AwaitingOwnerStart && f.startDeadline.Some? && now < f.startDeadline.value
    ensures var (g, ok) := f.AcknowledgeStart("START", now);
            && ok && FlowOk(g) && f.ownerStartCount == 0
            && g == f.(state := CaptureHandoff, ownerStartCount := 1, captureHandoffRequested := true, events := g.events)
  {
    hide LogExplainsState;
    AcknowledgeStartKeeps(f, "START", now);
  }

  lemma VerifyKeepsFlow(f: Flow, ready: bool, now: real)
    requires FlowOk(f) && f.state == CaptureHandoff
    ensures var (g, ok) := f.VerifyCapture(ready, ready, now);
            && ok == ready && FlowOk(g)
            && (ok ==> g == f.(state := CaptureVerified, captureVerified := true, events := g.events))
            && (!ok ==> g == f.(state := Restoring, restoreReason := g.restoreReason, events := g.events))
  {
    hide LogExplainsState;
    VerifyCaptureKeeps(f, ready, ready, now);
  }

  lemma FirstPromptKeepsFlow(f: Flow, now: real)
    requires FlowOk(f) && f.state == CaptureVerified
    ensures f.IndexInRange()
    ensures var (g, gate) := f.SpeakingPrompt(now);
            && gate == Some(DEFAULT_GATES[0]) && FlowOk(g)
            && g == f.(state := StartSpeaking, gateIndex := 0, gateStartedAt := Some(now), events := g.events)
  {
    hide LogExplainsState;
    SpeakingPromptKeeps(f, now);
  }

  lemma QualifyResourceStartupKeeps(o: Orch, passed: bool, w: World)
    requires Inv(o)
    ensures Inv(o.QualifyResourceStartup(passed, w).0)
  {
    hide FlowOk, ResultsMatch, OnlyLastCanFail, CompletionClaim, ProperStarts, StreamOk, StopProven, AllFounded, QuietTimed,
      AllPassed, QuietAfter, StopStored, Orch.RestoreOnce, Orch.Enter, Inv;
    InvParts(o);
    if o.lifecycle == LGuardedResourceStartup {
      if !passed {
        RestoreOnceRestores(o, ResourceQualificationFailed, w);
      } else if o.flow.state == Preparing {
        BeginCheckKeepsFlow(o.flow, w.now);
        EnterKeeps(o.(flow := o.flow.BeginResourceCheck(w.now).0), LResourceStabilityVerified);
      }
    }
  }

  /** The rest of the status file does not matter to the invariant. */
  lemma StatusExtrasKeep(o: Orch, s: Status)
    requires Inv(o)
    requires s.lifecycle == o.status.lifecycle && s.operatorState == o.status.operatorState
    requires s.captureVerified == o.status.captureVerified && s.ownerStartCount == o.status.ownerStartCount
    requires s.sessionId == o.status.sessionId
    ensures Inv(o.(status := s))
  {
    hide FlowOk, ResultsMatch, OnlyLastCanFail, CompletionClaim, ProperStarts, StreamOk, StopProven, AllFounded, QuietTimed,
      AllPassed, QuietAfter, StopStored;
  }

  lemma ArmRestorationKeeps(o: Orch, timerArmed: bool, manualVerified: bool, controlsPassed: bool, w: World)
    requires Inv(o)
    ensures Inv(o.ArmRestoration(timerArmed, manualVerified, controlsPassed, w).0)
  {
    hide Base, RestorationOk, LifecycleOk, WaitingOk, StopGateAimed, Settled, QuietGateOk, Inv,
      Orch.RestoreOnce, Orch.Armed, Flow.QualifyResources;
    if o.lifecycle == LResourceStabilityVerified {
      InvParts(o);
      var safe := timerArmed && manualVerified && controlsPassed;
      var (g, ok) := o.flow.QualifyResources(safe, timerArmed, manualVerified, w.now);
      if o.flow.state == ResourceCheck {
        QualifyKeepsFlow(o.flow, safe, timerArmed, manualVerified, w.now);
      } else {
        NotChecking(o.flow, safe, timerArmed, manualVerified, w.now);
      }
      ArmedFlowKeeps(o, g, timerArmed, manualVerified);
      if ok {
        ArmedKeeps(o.(flow := g), controlsPassed);
      } else {
        RestoreOnceRestores(o.(flow := g), RestorationSafeguardMissing, w);
      }
    }
  }

  lemma ArmedKeeps(o: Orch, controlsPassed: bool)
    requires Base(o) && !o.restoreRequested && !Leaving(o.flow.state) && Settled(o) && !AtStopGates(o)
    requires o.flow.state == ResourceQualified
    ensures Inv(o.Armed(controlsPassed))
  {
    hide Base, Settled, Inv, Orch.Enter;
    EnterKeeps(o, LRestorationArmed);
    var p := o.Enter(LRestorationArmed);
    StatusExtrasKeep(p, p.status.(manualRestoreVerified := true, operatorControlsPassed := controlsPassed));
  }

  lemma ShowFirstCueKeeps(o: Orch, gate: Gate)
    requires Base(o) && !o.restoreRequested && !Leaving(o.flow.state) && Settled(o) && !AtStopGates(o)
    ensures Inv(o.ShowFirstCue(gate))
  {
    hide Base, Settled, Inv, Orch.Enter;
    EnterKeeps(o, LStartSpeakingNow);
    var p := o.Enter(LStartSpeakingNow);
    StatusExtrasKeep(p, p.status.(prompt := Some(Prompt(gate.key, gate.spokenPhrase))));
  }

  lemma ArmedFlowKeeps(o: Orch, g: Flow, autoRestore: bool, independentAbort: bool)
    requires Inv(o) && o.lifecycle == LResourceStabilityVerified && FlowOk(g)
    requires g == o.flow || (o.flow.state == ResourceCheck
               && g == o.flow.(state := g.state, autoRestoreArmed := autoRestore, independentAbortArmed := independentAbort,
                               resourceSafe := g.resourceSafe, restoreReason := g.restoreReason, events := g.events))
    ensures var p := o.(flow := g);
            && Base(p) && !p.restoreRequested
            && (g.state == ResourceQualified ==> Settled(p) && !AtStopGates(p) && !Leaving(p.flow.state))
  {
    hide FlowOk, ResultsMatch, OnlyLastCanFail, CompletionClaim, ProperStarts, StreamOk, StopProven, AllFounded, QuietTimed,
      AllPassed, QuietAfter, StopStored;
  }

  lemma NotChecking(f: Flow, safe: bool, autoRestore: bool, independentAbort: bool, now: real)
    requires f.state != ResourceCheck
    ensures f.QualifyResources(safe, autoRestore, independentAbort, now) == (f, false)
  {
  }

  lemma AwaitOwnerStartKeepsInv(o: Orch, ttl: real, mode: Mode, w: World)
    requires Inv(o)
    ensures Inv(o.AwaitOwnerStart(ttl, mode, w).0)
  {
    hide FlowOk, ResultsMatch, OnlyLastCanFail, CompletionClaim, StreamOk, StopProven, AllFounded, QuietTimed,
      AllPassed, QuietAfter, StopStored, Orch.Enter, Flow.AwaitOwnerStart;
    InvParts(o);
    var (g, ok) := o.flow.AwaitOwnerStart(w.now, ttl);
    if o.lifecycle == LRestorationArmed && ok {
      AwaitKeepsFlow(o.flow, w.now, ttl);
      BeforeStartFacts(o.flow);
      var p := o.(flow := g, leaseDeadline := g.startDeadline, mode := Some(mode));
      EnterKeeps(p, LAwaitingOwnerStart);
      var q := p.Enter(LAwaitingOwnerStart);
      StatusExtrasKeep(q, q.status.(manualRestoreVerified := true, operatorControlsPassed := true,
                                    rechecking := mode == ResourceRequalification));
    }
  }

  lemma VerifiedHandoffKeeps(o: Orch, g: Flow)
    requires Inv(o) && o.lifecycle == LCaptureHandoff && FlowOk(g)
    requires g == o.flow.(state := Restoring, restoreReason := g.restoreReason, events := g.events)
    ensures Base(o.(flow := g)) && !o.restoreRequested
  {
    hide FlowOk, ResultsMatch, OnlyLastCanFail, CompletionClaim, ProperStarts, StreamOk, StopProven, AllFounded, QuietTimed,
      AllPassed, QuietAfter, StopStored;
  }

  lemma FirstPromptedKeeps(o: Orch, ready: Readiness, h: Flow)
    requires Inv(o) && o.lifecycle == LCaptureHandoff && FlowOk(h) && ready.All()
    requires h == o.flow.(state := StartSpeaking, captureVerified := true, gateIndex := 0,
                          gateStartedAt := h.gateStartedAt, events := h.events)
    ensures var p := o.(flow := h).NoteReadiness(ready);
            Base(p) && !p.restoreRequested && !Leaving(p.flow.state) && Settled(p) && !AtStopGates(p)
  {
    hide FlowOk, ResultsMatch, OnlyLastCanFail, CompletionClaim, ProperStarts, StreamOk, StopProven, AllFounded, QuietTimed,
      AllPassed, QuietAfter, StopStored;
  }

  lemma CompleteCaptureHandoffKeeps(o: Orch, ready: Readiness, w: World)
    requires Inv(o)
    ensures o.flow.IndexInRange()
    ensures Inv(o.CompleteCaptureHandoff(ready, w).0)
  {
    hide Base, RestorationOk, WaitingOk, StopGateAimed, Settled, QuietGateOk, FlowOk, Inv, LifecycleOk,
      Orch.RestoreOnce, Orch.ShowFirstCue, Flow.VerifyCapture, Flow.SpeakingPrompt;
    InvInRange(o);
    if o.lifecycle == LCaptureHandoff && o.handoffStarted {
      InvParts(o);
      HandoffMeansFlow(o);
      VerifyKeepsFlow(o.flow, ready.All(), w.now);
      var (g, ok) := o.flow.VerifyCapture(ready.All(), ready.All(), w.now);
      if !ok {
        VerifiedHandoffKeeps(o, g);
        RestoreOnceRestores(o.(flow := g), CaptureReadinessFailed, w);
      } else {
        FirstPromptKeepsFlow(g, w.now);
        var (h, gate) := g.SpeakingPrompt(w.now);
        FirstPromptedKeeps(o, ready, h);
        ShowFirstCueKeeps(o.(flow := h).NoteReadiness(ready), gate.value);
      }
    }
  }

  lemma HandoffMeansFlow(o: Orch)
    requires LifecycleOk(o) && o.lifecycle == LCaptureHandoff
    ensures o.flow.state == CaptureHandoff
  {
  }

  lemma StartedKeeps(o: Orch, r: ControlRequest, g: Flow, now: real)
    requires Inv(o) && o.lifecycle == LAwaitingOwnerStart && FlowOk(g) && o.StartIsCurrent(r, now)
    requires o.flow.ownerStartCount == 0
    requires g == o.flow.(state := CaptureHandoff, ownerStartCount := 1, captureHandoffRequested := true, events := g.events)
    ensures var p := o.(flow := g).Accept(r, now).Enter(LOwnerStartAccepted).(handoffStarted := true);
            && !o.handoffStarted
            && Base(p) && !p.restoreRequested && !Leaving(p.flow.state) && Settled(p) && !AtStopGates(p)
            && p.flow.state == CaptureHandoff && p.handoffCalls == 0
  {
    hide FlowOk, ResultsMatch, OnlyLastCanFail, CompletionClaim, StreamOk, StopProven, AllFounded, QuietTimed,
      AllPassed, QuietAfter, StopStored;
  }

  lemma HandoffCounted(o: Orch)
    requires Inv(o) && o.handoffStarted && o.handoffCalls == 0 && !o.restoreRequested
    ensures var p := o.CallHandoff(); Inv(p) && Base(p)
  {
    hide FlowOk, ResultsMatch, OnlyLastCanFail, CompletionClaim, StreamOk, StopProven, AllFounded, QuietTimed, ProperStarts,
      AllPassed, QuietAfter, StopStored;
  }

  /** A current START is acknowledged by the flow and leaves everything ready for the handoff. */
  lemma StartHandedOver(o: Orch, r: ControlRequest, w: World)
    requires Inv(o) && o.lifecycle == LAwaitingOwnerStart && o.StartIsCurrent(r, w.now)
    ensures var (g, ok) := o.flow.AcknowledgeStart("START", w.now);
            var p := o.(flow := g).Accept(r, w.now).Enter(LOwnerStartAccepted).BeginHandoff();
            && ok && !o.handoffStarted && Inv(p)
            && var c := p.CallHandoff(); Inv(c) && Base(c) && !c.restoreRequested && c.lifecycle == LCaptureHandoff
  {
    hide Base, RestorationOk, WaitingOk, StopGateAimed, Settled, QuietGateOk, FlowOk, Inv, LifecycleOk, Orch.Enter,
      Flow.AcknowledgeStart;
    InvInRange(o);
    AwaitingMeansFlow(o);
    AckKeepsFlow(o.flow, w.now);
    var g := o.flow.AcknowledgeStart("START", w.now).0;
    StartedKeeps(o, r, g, w.now);
    var p := o.(flow := g).Accept(r, w.now).Enter(LOwnerStartAccepted).(handoffStarted := true);
    EnterKeeps(p, LCaptureHandoff);
    EnterFrame(o.(flow := g).Accept(r, w.now), LOwnerStartAccepted);
    HandoffCounted(p.Enter(LCaptureHandoff));
  }

  lemma ConsumeStartKeeps(o: Orch, r: ControlRequest, w: World)
    requires Inv(o) && o.lifecycle == LAwaitingOwnerStart
    ensures o.flow.IndexInRange()
    ensures Inv(o.ConsumeStart(r, w).0)
  {
    hide Base, RestorationOk, WaitingOk, StopGateAimed, Settled, QuietGateOk, FlowOk, Inv, LifecycleOk,
      Orch.RestoreOnce, Orch.Enter, Orch.Accept, Orch.BeginHandoff, Orch.CallHandoff, Flow.AcknowledgeStart,
      Orch.CompleteCaptureHandoff, Orch.StartIsCurrent;
    InvInRange(o);
    if o.StartIsCurrent(r, w.now) {
      StartHandedOver(o, r, w);
      AcceptingFrame(o, r, w);
      var g := o.flow.AcknowledgeStart("START", w.now).0;
      var c := o.(flow := g).Accept(r, w.now).Enter(LOwnerStartAccepted).BeginHandoff().CallHandoff();
      if !o.deferHandoff {
        match w.handoff {
          case HandoffRaised => RestoreOnceRestores(c, CaptureHandoffFailed, w);
          case HandoffReady(ready) => CompleteCaptureHandoffKeeps(c, ready, w);
        }
      }
    }
  }

  lemma AcceptingFrame(o: Orch, r: ControlRequest, w: World)
    ensures var p := o.(flow := o.flow.AcknowledgeStart("START", w.now).0).Accept(r, w.now).Enter(LOwnerStartAccepted);
            p.handoffStarted == o.handoffStarted && p.deferHandoff == o.deferHandoff
  {
    hide Flow.AcknowledgeStart, Orch.Snapshot;
  }

  lemma AwaitingMeansFlow(o: Orch)
    requires Inv(o) && o.lifecycle == LAwaitingOwnerStart
    ensures o.flow.state == AwaitingOwnerStart && o.leaseDeadline == o.flow.startDeadline && FlowOk(o.flow)
  {
    hide FlowOk, ResultsMatch, OnlyLastCanFail, CompletionClaim, StreamOk, StopProven, AllFounded, QuietTimed, ProperStarts,
      AllPassed;
  }

  lemma EnterFrame(o: Orch, l: Lifecycle)
    ensures o.Enter(l) == o.(lifecycle := l, status := o.Enter(l).status)
  {
  }

  // ---------- polling, the end, and other processes ----------

  lemma RefusingKeeps(o: Orch, w: World)
    requires Inv(o)
    ensures forall reason: AbortReason :: reason != AllPhysicalGatesCompleted ==> Inv(o.RestoreOnce(reason, w))
  {
    hide Inv, Orch.RestoreOnce;
    forall reason: AbortReason | reason != AllPhysicalGatesCompleted
      ensures Inv(o.RestoreOnce(reason, w))
    {
      RestoreOnceKeeps(o, reason, w);
    }
  }

  lemma PollOnceKeeps(o: Orch, safetyHealthy: bool, candidateAlive: bool, file: RequestFile, w: World)
    requires Inv(o)
    ensures o.flow.IndexInRange()
    ensures Inv(o.PollOnce(safetyHealthy, candidateAlive, file, w).0)
  {
    hide Base, RestorationOk, WaitingOk, StopGateAimed, Settled, QuietGateOk, FlowOk, Inv, LifecycleOk,
      Orch.RestoreOnce, Orch.Enter, Orch.ConsumeStart;
    InvInRange(o);
    LifecycleFollowsFile(o);
    RefusingKeeps(o, w);
    if o.lifecycle == LAwaitingOwnerStart && file.Request? {
      OwnerAbortKeeps(o);
      ConsumeStartKeeps(o, file.request, w);
    }
  }

  lemma LifecycleFollowsFile(o: Orch)
    requires Inv(o)
    ensures Inv(o.(lifecycle := o.status.lifecycle))
  {
    hide FlowOk, ResultsMatch, OnlyLastCanFail, CompletionClaim, ProperStarts, StreamOk, StopProven, AllFounded, QuietTimed,
      AllPassed, QuietAfter, StopStored;
  }

  lemma OwnerAbortKeeps(o: Orch)
    requires Inv(o) && o.lifecycle == LAwaitingOwnerStart
    ensures Inv(o.Enter(LRestoring).(restoreRequested := true))
  {
    hide FlowOk, ResultsMatch, OnlyLastCanFail, CompletionClaim, ProperStarts, StreamOk, StopProven, AllFounded, QuietTimed,
      AllPassed, QuietAfter, StopStored;
  }

  lemma CompletionKeepsFlow(f: Flow, now: real)
    requires FlowOk(f)
    ensures var g := f.RestorationComplete(true, now).0;
            && FlowOk(g) && (Leaving(g.state) <==> Leaving(f.state)) && (!Leaving(f.state) ==> g == f)
            && g == f.(state := g.state, restorationVerified := g.restorationVerified, events := g.events)
  {
    hide LogExplainsState;
    RestorationCompleteKeeps(f, true, now);
  }

  lemma EnterRestorationKeeps(o: Orch, l: Lifecycle)
    requires Inv(o) && InRestoration(l)
    ensures Inv(o.Enter(l))
  {
    hide FlowOk, ResultsMatch, OnlyLastCanFail, CompletionClaim, ProperStarts, StreamOk, StopProven, AllFounded, QuietTimed,
      AllPassed, QuietAfter, StopStored;
  }

  lemma CompletedFlowKeeps(o: Orch, g: Flow)
    requires Inv(o) && FlowOk(g) && (Leaving(g.state) <==> Leaving(o.flow.state)) && (!Leaving(o.flow.state) ==> g == o.flow)
    requires g == o.flow.(state := g.state, restorationVerified := g.restorationVerified, events := g.events)
    ensures Inv(o.(flow := g))
  {
    hide FlowOk, ResultsMatch, OnlyLastCanFail, CompletionClaim, ProperStarts, StreamOk, StopProven, AllFounded, QuietTimed,
      AllPassed, QuietAfter, StopStored;
  }

  lemma ConfirmRestorationKeeps(o: Orch, verified: bool, w: World)
    requires Inv(o)
    ensures Inv(o.ConfirmRestoration(verified, w).0)
  {
    hide Inv, Orch.Enter, Flow.RestorationComplete;
    InvInRange(o);
    CompletionKeepsFlow(o.flow, w.now);
    var g := o.flow.RestorationComplete(true, w.now).0;
    CompletedFlowKeeps(o, g);
    EnterRestorationKeeps(o, LRestoreFailed);
    EnterRestorationKeeps(o.(flow := g), LRestoredVerified);
  }

  lemma ForeignWriteKeeps(o: Orch, f: ForeignStatus)
    requires Inv(o) && PossibleStatus(f)
    ensures Inv(o.ForeignWrite(f))
  {
    hide FlowOk, ResultsMatch, OnlyLastCanFail, CompletionClaim, ProperStarts, StreamOk, StopProven, AllFounded, QuietTimed,
      AllPassed, QuietAfter, StopStored;
  }

  lemma StreamMayJump(events: seq<RuntimeEvent>, observed: seq<RuntimeEvent>, last: int, from: int)
    requires StreamOk(events, observed, last) && last <= from
    ensures StreamOk(events, observed, from)
  {
  }

  lemma BaselineIsFree(o: Orch, from: int, health: Option<VoiceHealth>, wakes: int)
    requires Inv(o) && o.flow.state == CaptureHandoff && StreamOk(o.events, o.observed, from)
    ensures Inv(o.(eventSequence := from, gateStartedSequence := from + 1, voice := health, wakeBaseline := wakes))
  {
    hide FlowOk, ResultsMatch, OnlyLastCanFail, CompletionClaim, ProperStarts, StreamOk, StopProven, AllFounded, QuietTimed,
      AllPassed, QuietAfter, StopStored;
  }

  lemma EstablishRuntimeBaselineKeeps(o: Orch, sequence: int, health: Option<VoiceHealth>)
    requires Inv(o)
    ensures Inv(o.EstablishRuntimeBaseline(sequence, health).0)
  {
    if o.lifecycle == LCaptureHandoff && sequence >= 0 {
      hide StreamOk, Inv, Orch.EstablishRuntimeBaseline;
      HandoffStreams(o);
      var from := BaselineUnfolds(o, sequence, health);
      StreamMayJump(o.events, o.observed, o.eventSequence, from);
      BaselineIsFree(o, from, if health.Some? then health else o.voice,
                     if health.Some? then health.value.wakes.GetOr(0) else o.wakeBaseline);
    }
  }

  lemma BaselineUnfolds(o: Orch, sequence: int, health: Option<VoiceHealth>) returns (from: int)
    requires o.lifecycle == LCaptureHandoff && sequence >= 0
    ensures from >= o.eventSequence
    ensures o.EstablishRuntimeBaseline(sequence, health).0
         == o.(eventSequence := from, gateStartedSequence := from + 1,
               voice := if health.Some? then health else o.voice,
               wakeBaseline := if health.Some? then health.value.wakes.GetOr(0) else o.wakeBaseline)
  {
    from := if sequence > o.eventSequence then sequence else o.eventSequence;
  }

  lemma HandoffStreams(o: Orch)
    requires Inv(o) && o.lifecycle == LCaptureHandoff
    ensures o.flow.state == CaptureHandoff && StreamOk(o.events, o.observed, o.eventSequence)
  {
    hide StreamOk, FlowOk, ResultsMatch, OnlyLastCanFail, CompletionClaim, ProperStarts, StopProven, AllFounded, QuietTimed,
      OnceOk, CueOk, RestorationOk, WaitingOk, StopGateAimed, Settled, QuietGateOk;
    InvParts(o);
    HandoffMeansFlow(o);
  }

  // ---------- every interleaving ----------

  datatype Action =
    | RecordPreflight(passed: bool, w: World)
    | QualifyResourceStartup(passed: bool, w: World)
    | ArmRestoration(timerArmed: bool, manualVerified: bool, controlsPassed: bool, w: World)
    | AwaitStart(ttl: real, mode: Mode, w: World)
    | PollOnce(safetyHealthy: bool, candidateAlive: bool, file: RequestFile, w: World)
    | CompleteCaptureHandoff(ready: Readiness, w: World)
    | EstablishRuntimeBaseline(sequence: int, health: Option<VoiceHealth>)
    | ObserveRuntimeEvents(delivered: seq<RuntimeEvent>, health: Option<VoiceHealth>, database: Option<Database>, w: World)
    | ConsumeOwnerObservation(request: ObservationRequest, w: World)
    | RequestRestore(why: string, w: World)
    | ConfirmRestoration(verified: bool, w: World)
    | ForeignWrite(status: ForeignStatus)

  predicate Possible(a: Action) {
    a.ForeignWrite? ==> PossibleStatus(a.status)
  }

  function Step(o: Orch, a: Action): Orch
    requires o.flow.IndexInRange()
  {
    match a
    case RecordPreflight(passed, w) => o.RecordPreflight(passed, w).0
    case QualifyResourceStartup(passed, w) => o.QualifyResourceStartup(passed, w).0
    case ArmRestoration(timerArmed, manualVerified, controlsPassed, w) =>
      o.ArmRestoration(timerArmed, manualVerified, controlsPassed, w).0
    case AwaitStart(ttl, mode, w) => o.AwaitOwnerStart(ttl, mode, w).0
    case PollOnce(safetyHealthy, candidateAlive, file, w) => o.PollOnce(safetyHealthy, candidateAlive, file, w).0
    case CompleteCaptureHandoff(ready, w) => o.CompleteCaptureHandoff(ready, w).0
    case EstablishRuntimeBaseline(sequence, health) => o.EstablishRuntimeBaseline(sequence, health).0
    case ObserveRuntimeEvents(delivered, health, database, w) => o.ObserveRuntimeEvents(delivered, health, database, w)
    case ConsumeOwnerObservation(request, w) => o.ConsumeOwnerObservation(request, w).0
    case RequestRestore(why, w) => o.RestoreOnce(CallerRequest(why), w)
    case ConfirmRestoration(verified, w) => o.ConfirmRestoration(verified, w).0
    case ForeignWrite(status) => o.ForeignWrite(status)
  }

  lemma StepKeeps(o: Orch, a: Action)
    requires Inv(o) && Possible(a)
    ensures o.flow.IndexInRange()
    ensures Inv(Step(o, a))
  {
    hide Inv, Orch.RecordPreflight, Orch.QualifyResourceStartup, Orch.ArmRestoration, Orch.AwaitOwnerStart,
      Orch.PollOnce, Orch.CompleteCaptureHandoff, Orch.EstablishRuntimeBaseline, Orch.ObserveRuntimeEvents,
      Orch.ConsumeOwnerObservation, Orch.RestoreOnce, Orch.ConfirmRestoration, Orch.ForeignWrite;
    InvInRange(o);
    match a {
      case RecordPreflight(passed, w) => RecordPreflightKeeps(o, passed, w);
      case QualifyResourceStartup(passed, w) => QualifyResourceStartupKeeps(o, passed, w);
      case ArmRestoration(timerArmed, manualVerified, controlsPassed, w) =>
        ArmRestorationKeeps(o, timerArmed, manualVerified, controlsPassed, w);
      case AwaitStart(ttl, mode, w) => AwaitOwnerStartKeepsInv(o, ttl, mode, w);
      case PollOnce(safetyHealthy, candidateAlive, file, w) => PollOnceKeeps(o, safetyHealthy, candidateAlive, file, w);
      case CompleteCaptureHandoff(ready, w) => CompleteCaptureHandoffKeeps(o, ready, w);
      case EstablishRuntimeBaseline(sequence, health) => EstablishRuntimeBaselineKeeps(o, sequence, health);
      case ObserveRuntimeEvents(delivered, health, database, w) => ObserveRuntimeEventsKeeps(o, delivered, health, database, w);
      case ConsumeOwnerObservation(request, w) => ConsumeOwnerObservationKeeps(o, request, w);
      case RequestRestore(why, w) => RestoreOnceKeeps(o, CallerRequest(why), w);
      case ConfirmRestoration(verified, w) => ConfirmRestorationKeeps(o, verified, w);
      case ForeignWrite(status) => ForeignWriteKeeps(o, status);
    }
  }

  predicate PossibleRun(actions: seq<Action>) {
    forall k :: 0 <= k < |actions| ==> Possible(actions[k])
  }

  ghost function Run(sessionId: string, deferHandoff: bool, actions: seq<Action>): (o: Orch)
    requires PossibleRun(actions)
    ensures Inv(o)
    decreases |actions|
  {
    hide Inv;
    if actions == [] then
      InitialInv(sessionId, deferHandoff);
      InitialOrch(sessionId, deferHandoff)
    else
      var o := Run(sessionId, deferHandoff, actions[..|actions| - 1]);
      StepKeeps(o, actions[|actions| - 1]);
      Step(o, actions[|actions| - 1])
  }

  // ---------- the theorems ----------

  /** START is accepted at most once in any run, properly addressed and strictly before the
      deadline, behind qualified resources and both safeguards; restoration is requested at most
      once and capture is handed over at most once, and only after that START. */
  lemma OnceAndInOrder(sessionId: string, deferHandoff: bool, actions: seq<Action>)
    requires PossibleRun(actions)
    ensures var o := Run(sessionId, deferHandoff, actions);
            && |o.accepted| <= 1 && |o.restoreCalls| <= 1 && o.handoffCalls <= |o.accepted|
            && (|o.accepted| == 1 ==> ProperStart(o.accepted[0], o.sessionId, o.leaseDeadline) && Qualified(o.flow))
  {
    hide LogExplainsState, ResultsMatch, OnlyLastCanFail, CompletionClaim, StreamOk, StopProven, AllFounded, QuietTimed,
      QuietGateOk, AllPassed;
    var o := Run(sessionId, deferHandoff, actions);
    assert Valid(o.flow);
  }

  /** The recorded results are the flow's verdicts on the first gates in order; every one but the
      last passed, a failed last one is being restored, and the completion reason was given only
      when all ten passed. */
  lemma ResultsAreVerdicts(sessionId: string, deferHandoff: bool, actions: seq<Action>)
    requires PossibleRun(actions)
    ensures var o := Run(sessionId, deferHandoff, actions);
            && |o.gateResults| == |o.flow.latencies| <= 10
            && (forall k :: 0 <= k < |o.gateResults| ==>
                  && o.gateResults[k].gate == o.flow.latencies[k].gate == DEFAULT_GATES[k].key
                  && o.gateResults[k].passed == o.flow.latencies[k].passed
                  && (o.gateResults[k].passed || (k == |o.gateResults| - 1 && o.restoreRequested)))
            && (AllPhysicalGatesCompleted in o.restoreCalls ==> |o.gateResults| == 10 && AllPassed(o.gateResults))
  {
    hide LogExplainsState, ProperStarts, StreamOk, StopProven, AllFounded, QuietTimed, QuietGateOk, OnceOk, CueOk;
    var o := Run(sessionId, deferHandoff, actions);
    assert Valid(o.flow);
  }

  /** The observed log is strictly increasing however events are delivered.  `spoken_stop` passed
      only on a chain in the log of that moment: begin and interruption of the playback it was about, stop phrase,
      stop; `no_stale_playback`
      passed only with no speech seen since that stop, and five seconds after it was shown. */
  lemma StopVerdictsAreFounded(sessionId: string, deferHandoff: bool, actions: seq<Action>)
    requires PossibleRun(actions)
    ensures var o := Run(sessionId, deferHandoff, actions);
            && Increasing(o.observed)
            && StopProven(o.gateResults, o.observed, o.stopSequence)
            && QuietTimed(o.gateResults, o.quietDeadline, o.quietConfirmedAt)
  {
    hide FlowOk, ProperStarts, StopProven, AllFounded, QuietTimed, QuietGateOk, OnceOk, CueOk;
    assert Inv(Run(sessionId, deferHandoff, actions));
  }

  /** The assessment passed only on a submission, after a Yes, that the isolated database shows as one attempt more;
      each wake only on one wake more than before; the repeated question only on one answer that was spoken whole. */
  ghost predicate EvidenceInWords(results: seq<GateSummary>, observed: seq<RuntimeEvent>) {
    && (|results| > 0 && results[0].passed ==>
          WokenOnce(results[0].evidence.since, results[0].evidence.health, results[0].evidence.wakesBefore))
    && (|results| > 3 && results[3].passed ==> RepeatedOnce(results[3].evidence.since, results[3].evidence.playback))
    && (|results| > 6 && results[6].passed ==>
          WokenOnce(results[6].evidence.since, results[6].evidence.health, results[6].evidence.wakesBefore))
    && (|results| > 8 && results[8].passed ==>
          && Submitted(results[8].evidence.since) && GainedAttempt(results[8].evidence.before, results[8].evidence.after)
          && results[8].seen <= |observed| && IsTail(results[8].evidence.since, observed[..results[8].seen]))
  }

  lemma FoundedInWords(results: seq<GateSummary>, observed: seq<RuntimeEvent>, observations: seq<Observation>)
    requires AllFounded(results, observed, observations)
    ensures EvidenceInWords(results, observed)
  {
    hide Submitted, GainedAttempt, WokenOnce, IsTail, LessonGiven, RepeatedOnce, ProgressTold, ReadAfterAsked, PlaybackOver;
    forall k | 0 <= k < |results| ensures RestsOnEvidence(k, results[k], observed, observations) {
    }
  }

  /** Every gate passed in any run rests on evidence in the newest events seen by then. */
  lemma PassesRestOnEvidence(sessionId: string, deferHandoff: bool, actions: seq<Action>)
    requires PossibleRun(actions)
    ensures var o := Run(sessionId, deferHandoff, actions);
            AllFounded(o.gateResults, o.observed, o.observations) && EvidenceInWords(o.gateResults, o.observed)
  {
    hide FlowOk, ResultsMatch, OnlyLastCanFail, ProperStarts, StreamOk, StopProven, QuietTimed, QuietGateOk, OnceOk, CueOk,
      AllFounded, EvidenceInWords;
    var o := Run(sessionId, deferHandoff, actions);
    assert Inv(o);
    FoundedInWords(o.gateResults, o.observed, o.observations);
  }

  /** A speaking cue on the page means that exactly one START was accepted and that all five
      capture readiness checks were true. */
  lemma CueMeansVerifiedCapture(sessionId: string, deferHandoff: bool, actions: seq<Action>)
    requires PossibleRun(actions)
    ensures var o := Run(sessionId, deferHandoff, actions);
            DisplayModel(o.status).cue.Some? ==>
              |o.accepted| == 1 && o.readiness.Some? && o.readiness.value.All()
  {
    hide LogExplainsState, ResultsMatch, OnlyLastCanFail, CompletionClaim, ProperStarts, StreamOk, StopProven,
      QuietTimed, QuietGateOk;
    assert Valid(Run(sessionId, deferHandoff, actions).flow);
  }
}
