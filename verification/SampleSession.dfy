/** One session step by step: from preparation over START and capture to the learning gate. */
module SampleSession {
  import opened Prelude
  import opened PhysicalControl
  import opened FlowProperties
  import opened GateEvidence
  import opened Orchestrator
  import opened OrchestratorRuns

  // ---------- up to the invitation ----------

  /** No runtime event has been seen and no voice heard of. */
  predicate NothingSeen(o: Orch) {
    o.eventSequence == 0 && o.events == [] && o.observed == [] && o.stopSequence.None? && o.voice.None?
  }

  predicate ResourcesVerified(o: Orch, session: string) {
    && o.lifecycle == LResourceStabilityVerified && o.flow.state == ResourceCheck
    && o.flow.ownerStartCount == 0 && !o.flow.captureVerified
    && o.lastRequestId.None? && o.accepted == [] && o.deferHandoff && o.sessionId == session && NothingSeen(o)
  }

  predicate SafeguardsArmed(o: Orch, session: string) {
    && o.lifecycle == LRestorationArmed && o.flow.state == ResourceQualified && Qualified(o.flow)
    && o.flow.ownerStartCount == 0 && !o.flow.captureVerified
    && o.lastRequestId.None? && o.accepted == [] && o.deferHandoff && o.sessionId == session && NothingSeen(o)
  }

  /** Waiting for a START that the page would take. */
  predicate Inviting(o: Orch, session: string, deadline: real) {
    && o.lifecycle == LAwaitingOwnerStart && o.flow.state == AwaitingOwnerStart
    && o.flow.startDeadline == Some(deadline) && o.leaseDeadline == Some(deadline)
    && o.lastRequestId.None? && o.accepted == [] && o.deferHandoff && o.sessionId == session && NothingSeen(o)
    && o.mode == Some(PhysicalVoice)
    && o.status == Status(LAwaitingOwnerStart, LAwaitingOwnerStart, FlowText(AwaitingOwnerStart), session,
                          true, true, true, true, true, 0, Some(deadline), false, None, None, false)
  }

  lemma PreflightVerifies(session: string, w: World)
    ensures ResourcesVerified(InitialOrch(session, true).RecordPreflight(true, w).0.QualifyResourceStartup(true, w).0, session)
  {
  }

  lemma ArmingArms(o: Orch, session: string, w: World)
    requires ResourcesVerified(o, session)
    ensures SafeguardsArmed(o.ArmRestoration(true, true, true, w).0, session)
  {
  }

  lemma AwaitingInvites(o: Orch, session: string, w: World)
    requires SafeguardsArmed(o, session)
    ensures Inviting(o.AwaitOwnerStart(START_TTL_SECONDS, PhysicalVoice, w).0, session, w.now + START_TTL_SECONDS)
  {
  }

  // ---------- START and capture ----------

  function FirstRequest(session: string, now: real): ControlRequest {
    ControlRequest(Some(session), Some("first"), StartAction, "START", Some(now))
  }

  const READY: Readiness := Readiness(true, true, true, true, true, 0, true, true)

  predicate HandoffPending(o: Orch) {
    && o.lifecycle == LCaptureHandoff && o.handoffStarted && o.flow.state == CaptureHandoff
    && NothingSeen(o) && o.mode == Some(PhysicalVoice)
  }

  lemma AcknowledgedNow(f: Flow, now: real)
    requires f.state == AwaitingOwnerStart && (f.startDeadline.Some? ==> now < f.startDeadline.value)
    ensures f.AcknowledgeStart("START", now).1 && f.AcknowledgeStart("START", now).0.state == CaptureHandoff
  {
  }

  lemma StartHandsOff(o: Orch, session: string, deadline: real, w: World)
    requires o.flow.IndexInRange() && Inviting(o, session, deadline) && w.now < deadline
    ensures HandoffPending(o.PollOnce(true, true, Request(FirstRequest(session, w.now)), w).0)
  {
    hide Orch.RestoreOnce, Flow.AcknowledgeStart;
    AcknowledgedNow(o.flow, w.now);
  }

  /** The gate with an index is shown since now, and judged on the events from a number on. */
  predicate GateShown(o: Orch, index: int, from: int, now: real) {
    && o.lifecycle == LStartSpeakingNow && o.flow.state == StartSpeaking && o.flow.gateIndex == index
    && o.flow.gateStartedAt == Some(now) && o.gateStartedSequence == from
    && o.mode == Some(PhysicalVoice) && o.stopSequence.None? && o.readiness == Some(READY)
  }

  lemma CaptureShowsFirstGate(o: Orch, w: World)
    requires FlowOk(o.flow) && HandoffPending(o)
    ensures o.flow.IndexInRange()
    ensures var p := o.CompleteCaptureHandoff(READY, w).0;
            GateShown(p, 0, 1, w.now) && NothingSeen(p) && p.wakeBaseline == 0
  {
    hide FlowOk, Orch.RestoreOnce, Flow.VerifyCapture, Flow.SpeakingPrompt;
    FlowOkInRange(o.flow);
    VerifyKeepsFlow(o.flow, true, w.now);
    FirstPromptKeepsFlow(o.flow.VerifyCapture(true, true, w.now).0, w.now);
  }

  // ---------- the wake gate ----------

  function Plain(sequence: int, kind: EventKind): RuntimeEvent {
    RuntimeEvent(sequence, kind, false, false, {}, false, false, false, false, None, None, None, false, NoProgress,
        false, false)
  }

  /** The candidate's listening acknowledgement has been spoken. */
  const ACKNOWLEDGED: RuntimeEvent := Plain(1, SpeechCompleted).(acknowledgement := true)

  const ONE_WAKE: VoiceHealth := VoiceHealth(Some(1), true)

  predicate OnePassed(o: Orch) {
    |o.gateResults| == 1 && o.gateResults[0].passed
  }

  lemma {:induction false} AllSince(events: seq<RuntimeEvent>, from: int)
    requires forall k :: 0 <= k < |events| ==> events[k].sequence >= from
    ensures Since(events, from) == events
  {
    if events != [] {
      AllSince(events[..|events| - 1], from);
      assert events == events[..|events| - 1] + [events[|events| - 1]];
    }
  }

  lemma WakeIsHeard(o: Orch, database: Option<Database>, w: World)
    requires GateShown(o, 0, 1, w.now) && o.flow.gates == DEFAULT_GATES
    requires o.events == [ACKNOWLEDGED] && o.voice == Some(ONE_WAKE) && o.wakeBaseline == 0
    ensures o.Decide(database, w.now) == Pass(PLAIN_NEXT)
  {
    hide DecideContinuation, DecideBargeIn, DecideSpokenStop, DecideProgress, DecideAnswer, DecideConfirmation,
      DecideQuiet;
    var since := o.EventsSinceGate();
    AllSince(o.events, 1);
    assert since[0].kind == SpeechCompleted && since[0].acknowledgement;
  }

  /** Passing one of the first gates shows the one after it. */
  lemma PassShowsNext(o: Orch, d: Option<Database>, w: World)
    requires FlowOk(o.flow) && GateShown(o, 0, 1, w.now) && !o.restoreRequested && o.gateResults == []
    ensures o.flow.IndexInRange()
    ensures var (recorded, ok) := o.RecordGate(true, None, d, w);
            && ok && recorded.flow.IndexInRange()
            && var p := recorded.ShowNextGate(PLAIN_NEXT, w).0;
               && GateShown(p, 1, o.eventSequence + 1, w.now) && OnePassed(p)
               && p.SameStream(o) && p.flow.gates == DEFAULT_GATES
  {
    hide FlowOk, Orch.RecordGate, Flow.RecordGateResult, Flow.SpeakingPrompt, Orch.RestoreOnce, Orch.FailGate;
    FlowOkInRange(o.flow);
    RecordKeepsFlow(o.flow, true, w.now);
    var r := RecordGateUnfolds(o, true, None, d, w);
    var recorded := o.RecordGate(true, None, d, w).0;
    FlowOkInRange(recorded.flow);
    PromptKeepsFlow(recorded.flow, w.now);
  }

  lemma NoWakeNoWait(o: Orch, database: Option<Database>, now: real)
    requires GateShown(o, 1, 2, now) && o.flow.gates == DEFAULT_GATES && Since(o.events, 2) == []
    ensures o.Decide(database, now) == Wait
  {
    hide DecideWake, DecideBargeIn, DecideSpokenStop, DecideProgress, DecideAnswer, DecideConfirmation, DecideQuiet;
  }

  lemma SortOne(e: RuntimeEvent)
    ensures SortedBySequence([e]) == [e]
  {
    assert [e][..0] == [];
  }

  /** A delivery of one new event: it is appended and judged, and judged again unless that ended it. */
  lemma OneDelivered(o: Orch, e: RuntimeEvent, health: Option<VoiceHealth>, w: World)
    requires o.flow.IndexInRange() && o.mode == Some(PhysicalVoice) && !InRestoration(o.lifecycle)
    requires o.stopSequence.None? && e.sequence > o.eventSequence
    ensures var heard := if health.Some? then o.(voice := health) else o;
            heard.Append(e).flow.IndexInRange()
            && var p := heard.Append(e).Evaluate(None, w);
               o.ObserveRuntimeEvents([e], health, None, w) == if InRestoration(p.lifecycle) then p else p.Evaluate(None, w)
  {
    hide Orch.Evaluate, SortedBySequence, Orch.FailGate, Orch.Stored;
    SortOne(e);
    var heard := if health.Some? then o.(voice := health) else o;
    var (p, done) := heard.ObserveOne(e, None, w);
    BatchOfOne(heard, e, w);
  }

  lemma BatchOfOne(o: Orch, e: RuntimeEvent, w: World)
    requires o.flow.IndexInRange()
    ensures var (p, done) := o.ObserveOne(e, None, w);
            o.ObserveBatch([e], None, w) == if done then p else p.Evaluate(None, w)
  {
    hide Orch.Evaluate, Orch.ObserveOne;
    assert [e][1..] == [];
  }

  /** In a sound session nothing is recorded before the first gate is decided. */
  lemma FirstGateIsFresh(o: Orch)
    requires Inv(o) && o.flow.state == StartSpeaking
    ensures FlowOk(o.flow) && !o.restoreRequested && (o.flow.gateIndex == 0 ==> o.gateResults == [])
  {
    hide LogExplainsState, OnlyLastCanFail, CompletionClaim, ProperStarts, StreamOk, StopProven, AllFounded, QuietTimed, OnceOk,
      CueOk, AllPassed, QuietGateOk;
  }

  lemma AppendedGate(o: Orch, health: Option<VoiceHealth>, e: RuntimeEvent, index: int, from: int, now: real)
    requires GateShown(o, index, from, now) && |o.events| < 2048
    ensures var heard := if health.Some? then o.(voice := health) else o;
            var a := heard.Append(e);
            && GateShown(a, index, from, now) && a.flow == o.flow && a.restoreRequested == o.restoreRequested
            && a.gateResults == o.gateResults && a.events == o.events + [e] && a.eventSequence == e.sequence
            && a.voice == heard.voice && a.wakeBaseline == o.wakeBaseline
  {
  }

  lemma WakePasses(o: Orch, w: World)
    requires Inv(o) && GateShown(o, 0, 1, w.now) && NothingSeen(o) && o.wakeBaseline == 0
    ensures o.flow.IndexInRange()
    ensures var p := o.ObserveRuntimeEvents([ACKNOWLEDGED], Some(ONE_WAKE), None, w);
            GateShown(p, 1, 2, w.now) && OnePassed(p) && p.events == [ACKNOWLEDGED] && p.eventSequence == 1
  {
    hide Inv, FlowOk, Orch.Decide, Orch.RecordGate, Orch.ShowNextGate, OnePassed, Orch.Append, Since,
      Orch.ObserveRuntimeEvents;
    InvInRange(o);
    FirstGateIsFresh(o);
    FlowOkInRange(o.flow);
    AppendedGate(o, Some(ONE_WAKE), ACKNOWLEDGED, 0, 1, w.now);
    OneDelivered(o, ACKNOWLEDGED, Some(ONE_WAKE), w);
    var a := o.(voice := Some(ONE_WAKE)).Append(ACKNOWLEDGED);
    assert [] + [ACKNOWLEDGED] == [ACKNOWLEDGED];
    WakeIsHeard(a, a.Judged(None, w), w);
    PassShowsNext(a, a.Judged(None, w), w);
    var p := a.RecordGate(true, None, a.Judged(None, w), w).0.ShowNextGate(PLAIN_NEXT, w).0;
    NoneSince(p.events, 2);
    NoWakeNoWait(p, p.Judged(None, w), w.now);
  }

  // ---------- an answer without a turn ----------

  /** The lesson is asked for, retrieved, answered and spoken; no event carries a turn identity. */
  const LESSON: seq<RuntimeEvent> := [
    Plain(2, Transcription).(finalized := true, matches := {ContinueCourse}),
    Plain(3, LearningContext).(continuesLesson := true),
    Plain(4, AssistantDelta).(hasText := true),
    Plain(5, AssistantCompleted).(hasText := true),
    Plain(6, SpeechStarted)]

  /** Nothing wrong was said and nothing was cancelled, an answer comes after context and delta, and
      speech has not begun: the gate waits. */
  lemma SilenceWaits(events: seq<RuntimeEvent>, approvedOutput: bool)
    requires forall k :: 0 <= k < |events| && events[k].Finalized() ==> events[k].Matches(ContinueCourse)
    requires forall k :: 0 <= k < |events| ==> !events[k].NonAck(SpeechStarted) && !events[k].cancelled
    requires forall k :: 0 <= k < |events| && IsAnswer(events[k]) ==>
               (exists j :: 0 <= j < |events| && IsLessonContext(events[j]))
               && (exists j :: 0 <= j < |events| && events[j].kind == AssistantDelta && events[j].hasText)
    ensures DecideContinuation(events, approvedOutput) == Wait
  {
    hide Last, NonBlank;
  }

  lemma LessonWaits(n: nat, approvedOutput: bool)
    requires n <= 4
    ensures DecideContinuation(LESSON[..n], approvedOutput) == Wait
  {
    hide DecideContinuation;
    var events := LESSON[..n];
    assert forall k :: 0 <= k < n ==> events[k] == LESSON[k];
    if n == 4 {
      assert IsLessonContext(events[1]) && events[2].kind == AssistantDelta && events[2].hasText;
    }
    SilenceWaits(events, approvedOutput);
  }
}
