/** The START exchange between the page and the orchestrator as interleaved steps of two processes
    that share a request file and a status file.  One write or rename is one step. */
module StartProtocol {
  import opened Prelude
  import opened PhysicalControl
  import opened FlowProperties
  import opened GateEvidence
  import opened Orchestrator
  import opened OperatorPage
  import opened OrchestratorRuns
  import opened OrchestratorPromises
  import opened OrchestratorAnswers
  import opened SampleSession

  /** Where the orchestrator is: between operations, or inside the consumption of a START, when the
      status file still says `shown` and the request may not have been moved away yet. */
  datatype Phase = Steady | Consuming(shown: Status, renamed: bool)

  /** Where the page is with the one request it handles under its lock.  `late` marks a status that
      was read after an accepted START had been published. */
  datatype PageTask = PageIdle | StatusRead(snapshot: Status, late: bool) | Checked

  datatype System = System(
    session: string,
    orch: Orch,
    phase: Phase,
    file: RequestFile,
    page: PageTask,
    clock: real,
    usedIds: set<string>,
    starts: seq<ControlRequest>)

  datatype Step =
    | Tick(now: real)
    | Operate(action: Action)
    | Poll(safetyHealthy: bool, candidateAlive: bool, w: World)
    | Rename
    | PublishStart
    | PageReads
    | PageChecks(requestSession: string)
    | PageWrites(id: string)
    | PageAborts(finish: bool, id: string)
    | OthersWrite(status: ForeignStatus)

  function Begin(sessionId: string, deferHandoff: bool, clock: real): System {
    System(sessionId, InitialOrch(sessionId, deferHandoff), Steady, NoRequest, PageIdle, clock, {}, [])
  }

  /** What the status file says. */
  function Visible(s: System): Status {
    if s.phase.Steady? then s.orch.status else s.phase.shown
  }

  predicate StartPublished(s: System) {
    s.orch.accepted != [] && s.phase.Steady?
  }

  predicate Enabled(s: System, step: Step) {
    match step
    case Tick(now) => now >= s.clock
    case Operate(a) => s.phase.Steady? && !a.PollOnce? && !a.ForeignWrite?
    case Poll(_, _, w) => s.phase.Steady? && w.now == s.clock
    case Rename => s.phase.Consuming? && !s.phase.renamed
    case PublishStart => s.phase.Consuming? && s.phase.renamed
    case PageReads => s.page.PageIdle?
    case PageChecks(_) => s.page.StatusRead?
    case PageWrites(id) => s.page.Checked? && Truthy(Some(id)) && id !in s.usedIds
    case PageAborts(_, id) => s.page.PageIdle? && Truthy(Some(id)) && id !in s.usedIds
    case OthersWrite(status) => PossibleStatus(status)
  }

  /** Another process rewrites the status file. */
  function WriteStatus(s: System, f: ForeignStatus): System {
    if s.phase.Steady? then s.(orch := s.orch.ForeignWrite(f))
    else s.(phase := s.phase.(shown := Overwritten(s.phase.shown, f)))
  }

  /** What the page's abort writes. */
  const ABORTING: ForeignStatus := ForeignStatus(LRestoring, None, true)

  /** The orchestrator polls: a START it accepts is from here on being consumed. */
  function DoPoll(s: System, safetyHealthy: bool, candidateAlive: bool, w: World): System
    requires s.orch.flow.IndexInRange()
  {
    var (p, result) := s.orch.PollOnce(safetyHealthy, candidateAlive, s.file, w);
    var t := s.(orch := p);
    if |p.accepted| > |s.orch.accepted| then t.(phase := Consuming(s.orch.status, false))
    else if result == StaleRejected then t.(file := NoRequest)
    else t
  }

  predicate PageAccepts(s: System, snapshot: Status, requestSession: string) {
    && snapshot.sessionId == s.session
    && OwnerStartRequestError(snapshot, s.session, requestSession, s.clock, s.file != NoRequest).None?
  }

  function StartRequest(s: System, id: string): ControlRequest {
    ControlRequest(Some(s.session), Some(id), StartAction, "START", Some(s.clock))
  }

  function AbortRequest(s: System, finish: bool, id: string): ControlRequest {
    ControlRequest(Some(s.session), Some(id), if finish then FinishAction else AbortAction, "", None)
  }

  /** The page aborts or finishes, unless restoration is shown already. */
  function Abort(s: System, finish: bool, id: string): System {
    var current := Visible(s).status;
    if current == LRestoring || current == LRestoredVerified then s
    else WriteStatus(s.(file := Request(AbortRequest(s, finish, id)), usedIds := s.usedIds + {id}), ABORTING)
  }

  function Do(s: System, step: Step): System
    requires s.orch.flow.IndexInRange() && Enabled(s, step)
  {
    match step
    case Tick(now) => s.(clock := now)
    case Operate(a) => s.(orch := OrchestratorRuns.Step(s.orch, a))
    case Poll(safetyHealthy, candidateAlive, w) => DoPoll(s, safetyHealthy, candidateAlive, w)
    case Rename => s.(file := NoRequest, phase := s.phase.(renamed := true))
    case PublishStart => s.(phase := Steady)
    case PageReads => s.(page := StatusRead(Visible(s), StartPublished(s)))
    case PageChecks(requestSession) =>
      s.(page := if PageAccepts(s, s.page.snapshot, requestSession) then Checked else PageIdle)
    case PageWrites(id) =>
      var r := StartRequest(s, id);
      s.(page := PageIdle, file := Request(r), usedIds := s.usedIds + {id}, starts := s.starts + [r])
    case PageAborts(finish, id) => Abort(s, finish, id)
    case OthersWrite(status) => WriteStatus(s, status)
  }

  // ---------- what every step keeps ----------

  /** The STARTs written by the page: each with its own number, for this session, in the past. */
  ghost predicate StartsOk(starts: seq<ControlRequest>, usedIds: set<string>, sessionId: string, clock: real) {
    && (forall k :: 0 <= k < |starts| ==>
          && starts[k].sessionId == Some(sessionId)
          && starts[k].requestId.Some? && starts[k].requestId.value in usedIds
          && starts[k].requestedMonotonic.Some? && starts[k].requestedMonotonic.value <= clock)
    && (forall j, k :: 0 <= j < k < |starts| ==> starts[j].requestId != starts[k].requestId)
  }

  predicate FileOk(file: RequestFile, starts: seq<ControlRequest>) {
    file.Request? && file.request.action == StartAction ==> file.request in starts
  }

  ghost predicate AcceptedOk(accepted: seq<Accepted>, starts: seq<ControlRequest>, clock: real) {
    forall k :: 0 <= k < |accepted| ==>
      && accepted[k].request in starts && accepted[k].at <= clock
      && accepted[k].request.requestedMonotonic.Some?
      && accepted[k].request.requestedMonotonic.value <= accepted[k].at
  }

  /** Whatever status is shown or was read belongs to this session, and it counts a START exactly
      when it is one that was published with it. */
  predicate PageOk(s: System) {
    && s.orch.sessionId == s.session
    && (s.phase.Consuming? ==>
          s.orch.accepted != [] && s.phase.shown.ownerStartCount == 0 && s.phase.shown.sessionId == s.session)
    && (s.page.StatusRead? ==>
          && (s.page.late ==> s.orch.accepted != [])
          && (s.page.late <==> s.page.snapshot.ownerStartCount > 0) && s.page.snapshot.sessionId == s.session)
  }

  ghost predicate ProtocolOk(s: System) {
    && Inv(s.orch)
    && StartsOk(s.starts, s.usedIds, s.session, s.clock)
    && FileOk(s.file, s.starts)
    && AcceptedOk(s.orch.accepted, s.starts, s.clock)
    && PageOk(s)
  }

  /** Operations other than polling accept nothing. */
  lemma OperateFrame(o: Orch, a: Action)
    requires Inv(o) && !a.PollOnce?
    ensures o.flow.IndexInRange()
    ensures var p := OrchestratorRuns.Step(o, a); p.accepted == o.accepted && p.sessionId == o.sessionId
  {
    hide Inv, DisplayModel, Orch.RestoreOnce, Orch.CompleteCaptureHandoff, Orch.ConsumeOwnerObservation,
      Orch.ObserveRuntimeEvents, Orch.RecordPreflight, Orch.QualifyResourceStartup, Orch.ArmRestoration,
      Orch.AwaitOwnerStart, Orch.EstablishRuntimeBaseline, Orch.ConfirmRestoration;
    InvInRange(o);
    match a {
      case RecordPreflight(passed, w) => RecordPreflightPromise(o, passed, w);
      case QualifyResourceStartup(passed, w) => QualifyResourceStartupPromise(o, passed, w);
      case ArmRestoration(timerArmed, manualVerified, controlsPassed, w) =>
        ArmRestorationPromise(o, timerArmed, manualVerified, controlsPassed, w);
      case AwaitStart(ttl, mode, w) => AwaitOwnerStartPromise(o, ttl, mode, w);
      case EstablishRuntimeBaseline(sequence, health) => EstablishRuntimeBaselinePromise(o, sequence, health);
      case CompleteCaptureHandoff(ready, w) => CompleteCaptureHandoffPromise(o, ready, w);
      case ConsumeOwnerObservation(request, w) => ConsumeOwnerObservationPromise(o, request, w);
      case ConfirmRestoration(verified, w) => ConfirmRestorationPromise(o, verified, w);
      case _ =>
    }
  }

  lemma AcceptedCounts(o: Orch)
    requires Inv(o)
    ensures |o.accepted| <= 1 && o.status.ownerStartCount == |o.accepted| && o.status.sessionId == o.sessionId
  {
    hide FlowOk, ResultsMatch, OnlyLastCanFail, CompletionClaim, ProperStarts, StreamOk, StopProven, AllFounded, QuietTimed,
      RestorationOk, LifecycleOk, WaitingOk, StopGateAimed, Settled, QuietGateOk;
  }

  lemma StartsGrow(starts: seq<ControlRequest>, usedIds: set<string>, session: string, clock: real, id: string)
    requires StartsOk(starts, usedIds, session, clock) && id !in usedIds
    ensures StartsOk(starts + [ControlRequest(Some(session), Some(id), StartAction, "START", Some(clock))],
                     usedIds + {id}, session, clock)
  {
  }

  lemma StartsAge(starts: seq<ControlRequest>, usedIds: set<string>, session: string, clock: real, more: set<string>,
                  later: real)
    requires StartsOk(starts, usedIds, session, clock) && usedIds <= more && clock <= later
    ensures StartsOk(starts, more, session, later)
  {
  }

  lemma AcceptedGrows(accepted: seq<Accepted>, starts: seq<ControlRequest>, clock: real, a: Accepted)
    requires AcceptedOk(accepted, starts, clock)
    requires a.request in starts && a.at == clock
    requires a.request.requestedMonotonic.Some? && a.request.requestedMonotonic.value <= clock
    ensures AcceptedOk(accepted + [a], starts, clock)
  {
  }

  lemma AcceptedAge(accepted: seq<Accepted>, starts: seq<ControlRequest>, clock: real, more: seq<ControlRequest>,
                    later: real)
    requires AcceptedOk(accepted, starts, clock) && starts <= more && clock <= later
    ensures AcceptedOk(accepted, more, later)
  {
    assert forall r :: r in starts ==> r in more;
  }

  lemma PollKeeps(s: System, safetyHealthy: bool, candidateAlive: bool, w: World)
    requires ProtocolOk(s) && s.phase.Steady? && w.now == s.clock
    ensures s.orch.flow.IndexInRange()
    ensures ProtocolOk(DoPoll(s, safetyHealthy, candidateAlive, w))
  {
    hide Inv, Orch.PollOnce, AcceptedOk;
    InvInRange(s.orch);
    var p := s.orch.PollOnce(safetyHealthy, candidateAlive, s.file, w).0;
    PollOnceKeeps(s.orch, safetyHealthy, candidateAlive, s.file, w);
    AcceptedCounts(s.orch);
    AcceptedCounts(p);
    PollOncePromise(s.orch, safetyHealthy, candidateAlive, s.file, w);
    if p.accepted != s.orch.accepted {
      AcceptedGrows(s.orch.accepted, s.starts, s.clock, Accepted(s.file.request, w.now));
      assert p.accepted == s.orch.accepted + [Accepted(s.file.request, w.now)];
    }
  }

  lemma WriteStatusKeeps(s: System, f: ForeignStatus)
    requires ProtocolOk(s) && PossibleStatus(f)
    ensures ProtocolOk(WriteStatus(s, f))
  {
    hide Inv, AcceptedOk, StartsOk;
    ForeignWriteKeeps(s.orch, f);
  }

  lemma PageWritesKeeps(s: System, id: string)
    requires ProtocolOk(s) && Enabled(s, PageWrites(id))
    ensures s.orch.flow.IndexInRange()
    ensures ProtocolOk(Do(s, PageWrites(id)))
  {
    hide Inv, AcceptedOk, StartsOk;
    InvInRange(s.orch);
    StartsGrow(s.starts, s.usedIds, s.session, s.clock, id);
    AcceptedAge(s.orch.accepted, s.starts, s.clock, s.starts + [StartRequest(s, id)], s.clock);
  }

  lemma PageAbortsKeeps(s: System, finish: bool, id: string)
    requires ProtocolOk(s) && Enabled(s, PageAborts(finish, id))
    ensures s.orch.flow.IndexInRange()
    ensures ProtocolOk(Do(s, PageAborts(finish, id)))
  {
    hide Inv, AcceptedOk, StartsOk, WriteStatus;
    InvInRange(s.orch);
    StartsAge(s.starts, s.usedIds, s.session, s.clock, s.usedIds + {id}, s.clock);
    WriteStatusKeeps(s.(file := Request(AbortRequest(s, finish, id)), usedIds := s.usedIds + {id}), ABORTING);
  }

  lemma OperateKeeps(s: System, a: Action)
    requires ProtocolOk(s) && Enabled(s, Operate(a))
    ensures s.orch.flow.IndexInRange()
    ensures ProtocolOk(Do(s, Operate(a)))
  {
    hide Inv, AcceptedOk, StartsOk, OrchestratorRuns.Step;
    InvInRange(s.orch);
    StepKeeps(s.orch, a);
    OperateFrame(s.orch, a);
  }

  lemma SameSession(s: System, step: Step)
    requires s.orch.flow.IndexInRange() && Enabled(s, step)
    ensures Do(s, step).session == s.session
  {
    hide Orch.PollOnce, OrchestratorRuns.Step, Orch.ForeignWrite, PageAccepts, OwnerStartRequestError;
  }

  lemma DoKeeps(s: System, step: Step)
    requires ProtocolOk(s) && Enabled(s, step)
    ensures s.orch.flow.IndexInRange()
    ensures ProtocolOk(Do(s, step))
  {
    hide Inv, AcceptedOk, StartsOk, OrchestratorRuns.Step, DoPoll, WriteStatus, PageAccepts;
    InvInRange(s.orch);
    AcceptedCounts(s.orch);
    match step {
      case Tick(now) =>
        StartsAge(s.starts, s.usedIds, s.session, s.clock, s.usedIds, now);
        AcceptedAge(s.orch.accepted, s.starts, s.clock, s.starts, now);
      case Operate(a) => OperateKeeps(s, a);
      case Poll(safetyHealthy, candidateAlive, w) => PollKeeps(s, safetyHealthy, candidateAlive, w);
      case PageWrites(id) => PageWritesKeeps(s, id);
      case PageAborts(finish, id) => PageAbortsKeeps(s, finish, id);
      case OthersWrite(status) => WriteStatusKeeps(s, status);
      case _ =>
    }
  }

  lemma BeginOk(session: string, deferHandoff: bool, clock: real)
    ensures ProtocolOk(Begin(session, deferHandoff, clock))
  {
    hide Inv;
    InitialInv(session, deferHandoff);
  }

  /** The state after some steps, or nothing if one of them was not enabled. */
  ghost function Execute(s: System, steps: seq<Step>): (r: Option<System>)
    requires ProtocolOk(s)
    ensures r.Some? ==> ProtocolOk(r.value) && r.value.session == s.session
    decreases |steps|
  {
    hide ProtocolOk, Enabled, Do;
    if steps == [] then Some(s)
    else if !Enabled(s, steps[0]) then None
    else
      DoKeeps(s, steps[0]);
      SameSession(s, steps[0]);
      Execute(Do(s, steps[0]), steps[1..])
  }

  // ---------- the theorems ----------

  /** Over every interleaving at most one START is accepted; it is one that the page wrote for this
      session, under a number no other request has, no later than it was accepted, and it is accepted
      strictly before the deadline with resources and both safeguards qualified. */
  lemma OneStart(session: string, deferHandoff: bool, clock: real, steps: seq<Step>)
    ensures ProtocolOk(Begin(session, deferHandoff, clock))
    ensures var end := Execute(Begin(session, deferHandoff, clock), steps);
            end.Some? ==>
              && |end.value.orch.accepted| <= 1
              && (end.value.orch.accepted != [] ==> ProperlyStarted(end.value, session))
  {
    hide Inv, StartsOk, FileOk, AcceptedOk;
    BeginOk(session, deferHandoff, clock);
    var end := Execute(Begin(session, deferHandoff, clock), steps);
    if end.Some? {
      AcceptedCounts(end.value.orch);
      if end.value.orch.accepted != [] {
        StartedProperly(end.value);
      }
    }
  }

  ghost predicate ProperlyStarted(s: System, session: string)
    requires s.orch.accepted != []
  {
    var a := s.orch.accepted[0];
    && Qualified(s.orch.flow)
    && s.orch.leaseDeadline.Some? && a.at < s.orch.leaseDeadline.value
    && a.request.requestedMonotonic.Some? && a.request.requestedMonotonic.value <= a.at <= s.clock
    && exists j ::
         && 0 <= j < |s.starts| && s.starts[j] == a.request && s.starts[j].sessionId == Some(session)
         && forall k :: 0 <= k < |s.starts| && k != j ==> s.starts[k].requestId != a.request.requestId
  }

  lemma StartedProperly(s: System)
    requires ProtocolOk(s) && s.orch.accepted != []
    ensures ProperlyStarted(s, s.session)
  {
    hide Inv;
    ProperAcceptance(s.orch);
    var a := s.orch.accepted[0];
    var j :| 0 <= j < |s.starts| && s.starts[j] == a.request;
    assert forall k :: 0 <= k < |s.starts| && k != j ==> s.starts[k].requestId != s.starts[j].requestId;
  }

  lemma ProperAcceptance(o: Orch)
    requires Inv(o) && o.accepted != []
    ensures ProperStart(o.accepted[0], o.sessionId, o.leaseDeadline) && Qualified(o.flow)
  {
    hide LogExplainsState, ResultsMatch, OnlyLastCanFail, CompletionClaim, StreamOk, StopProven, AllFounded, QuietTimed,
      QuietGateOk, AllPassed, RestorationOk, LifecycleOk, WaitingOk, StopGateAimed, Settled;
    assert Valid(o.flow);
  }

  /** A page that reads the status after an accepted START was published rejects every further
      START as a duplicate, however much later it decides. */
  lemma LateStartIsRejected(session: string, deferHandoff: bool, clock: real, steps: seq<Step>, requestSession: string)
    ensures ProtocolOk(Begin(session, deferHandoff, clock))
    ensures var end := Execute(Begin(session, deferHandoff, clock), steps);
            end.Some? && end.value.page.StatusRead? && end.value.page.late ==>
              OwnerStartRequestError(end.value.page.snapshot, session, requestSession, end.value.clock,
                                     end.value.file != NoRequest) == Some(DuplicateStart)
  {
    hide Inv, StartsOk, FileOk, AcceptedOk;
    BeginOk(session, deferHandoff, clock);
  }

  /** Exactly when the page takes a START in any run, a second one included: the status it had read,
      however long ago, was read before an accepted START was published, no request is pending now,
      and what the status displays still invites one. */
  lemma StartTakenIff(session: string, deferHandoff: bool, clock: real, steps: seq<Step>, requestSession: string)
    ensures ProtocolOk(Begin(session, deferHandoff, clock))
    ensures var end := Execute(Begin(session, deferHandoff, clock), steps);
            end.Some? && end.value.page.StatusRead? ==>
              var s, read := end.value, end.value.page.snapshot;
              PageAccepts(s, read, requestSession) <==>
                && !s.page.late && s.file.NoRequest? && requestSession == session
                && DisplayModel(read).ready.Some? && read.startDeadline.Some? && s.clock < read.startDeadline.value
  {
    hide Inv, StartsOk, FileOk, AcceptedOk, OwnerStartRequestError, DisplayModel;
    BeginOk(session, deferHandoff, clock);
    var end := Execute(Begin(session, deferHandoff, clock), steps);
    if end.Some? && end.value.page.StatusRead? {
      AcceptedOnlyWhenInvited(end.value.page.snapshot, session, requestSession, end.value.clock, end.value.file != NoRequest);
    }
  }

  // ---------- how many STARTs there can be ----------

  /** A request in the file is of this session, and it stays there until an accepted START is moved away; so
      there is no START yet, or one, or a second one that then stays. */
  predicate FewStarts(s: System) {
    && s.file != NotAnObject && (s.file.Request? ==> s.file.request.sessionId == Some(s.session))
    && (s.page.Checked? ==> s.file.NoRequest?)
    && (s.phase.Consuming? && !s.phase.renamed ==> s.file.Request? && |s.starts| <= 1)
    && |s.starts| <= (if s.orch.accepted == [] then 0 else 1) + (if s.file.NoRequest? then 0 else 1)
  }

  lemma PollKeepsFew(s: System, safetyHealthy: bool, candidateAlive: bool, w: World)
    requires ProtocolOk(s) && FewStarts(s) && s.phase.Steady? && w.now == s.clock
    ensures s.orch.flow.IndexInRange()
    ensures FewStarts(DoPoll(s, safetyHealthy, candidateAlive, w))
  {
    hide Inv, StartsOk, FileOk, AcceptedOk, Orch.PollOnce, CueIsReady;
    InvInRange(s.orch);
    PollOncePromise(s.orch, safetyHealthy, candidateAlive, s.file, w);
  }

  lemma DoKeepsFew(s: System, step: Step)
    requires ProtocolOk(s) && FewStarts(s) && Enabled(s, step)
    ensures s.orch.flow.IndexInRange()
    ensures FewStarts(Do(s, step))
  {
    hide Inv, StartsOk, FileOk, AcceptedOk, OrchestratorRuns.Step, DoPoll, DisplayModel, OwnerStartRequestError;
    InvInRange(s.orch);
    match step {
      case Operate(a) => OperateFrame(s.orch, a);
      case Poll(safetyHealthy, candidateAlive, w) => PollKeepsFew(s, safetyHealthy, candidateAlive, w);
      case PageChecks(requestSession) => PendingIsRejected(s, requestSession);
      case _ =>
    }
  }

  lemma PendingIsRejected(s: System, requestSession: string)
    requires s.page.StatusRead?
    ensures PageAccepts(s, s.page.snapshot, requestSession) ==> s.file.NoRequest?
  {
  }

  lemma {:induction false} ExecuteKeepsFew(s: System, steps: seq<Step>)
    requires ProtocolOk(s) && FewStarts(s)
    ensures Execute(s, steps).Some? ==> FewStarts(Execute(s, steps).value)
    decreases |steps|
  {
    hide ProtocolOk, FewStarts, Enabled, Do;
    if steps != [] && Enabled(s, steps[0]) {
      DoKeeps(s, steps[0]);
      DoKeepsFew(s, steps[0]);
      ExecuteKeepsFew(Do(s, steps[0]), steps[1..]);
    }
  }

  /** In every run the page takes at most two STARTs, and at most one before one is accepted. */
  lemma AtMostTwoStarts(session: string, deferHandoff: bool, clock: real, steps: seq<Step>)
    ensures ProtocolOk(Begin(session, deferHandoff, clock))
    ensures var end := Execute(Begin(session, deferHandoff, clock), steps);
            end.Some? ==> |end.value.starts| <= 2 && (end.value.orch.accepted == [] ==> |end.value.starts| <= 1)
  {
    hide ProtocolOk, Execute;
    BeginOk(session, deferHandoff, clock);
    ExecuteKeepsFew(Begin(session, deferHandoff, clock), steps);
  }

  /** A page that is idle between the rename and the publication and does all its steps there takes a
      second START exactly when the old status, not rewritten by anyone meanwhile, still invites one. */
  lemma SecondStartInTheGap(s: System, id: string)
    requires ProtocolOk(s) && s.phase.Consuming? && s.phase.renamed && s.file.NoRequest? && s.page.PageIdle?
    requires Truthy(Some(id)) && id !in s.usedIds
    ensures s.orch.flow.IndexInRange()
    ensures var shown, end := s.phase.shown, Execute(s, [PageReads] + ([PageChecks(s.session)] + ([PageWrites(id)] + [])));
            if shown.sessionId == s.session && DisplayModel(shown).ready.Some? && shown.ownerStartCount == 0
               && shown.startDeadline.Some? && s.clock < shown.startDeadline.value then
              end.Some? && |end.value.starts| == |s.starts| + 1 && end.value.orch.accepted == s.orch.accepted != []
            else end.None?
  {
    hide Inv, StartsOk, FileOk, AcceptedOk;
    InvInRange(s.orch);
    var read := s.(page := StatusRead(s.phase.shown, false));
    Unfold(s, PageReads, [PageChecks(s.session), PageWrites(id)]);
    DoKeeps(s, PageReads);
    Unfold(read, PageChecks(s.session), [PageWrites(id)]);
    DoKeeps(read, PageChecks(s.session));
    var checked := Do(read, PageChecks(s.session));
    AcceptedOnlyWhenInvited(s.phase.shown, s.session, s.session, s.clock, false);
    Unfold(checked, PageWrites(id), []);
  }

  lemma Unfold(s: System, step: Step, rest: seq<Step>)
    requires ProtocolOk(s)
    ensures s.orch.flow.IndexInRange()
    ensures Enabled(s, step) ==> ProtocolOk(Do(s, step))
    ensures Execute(s, [step] + rest) == if Enabled(s, step) then Execute(Do(s, step), rest) else None
  {
    hide ProtocolOk, Enabled, Do;
    assert ([step] + rest)[1..] == rest;
    if Enabled(s, step) {
      DoKeeps(s, step);
    }
    StaysInRange(s);
  }

  lemma StaysInRange(s: System)
    requires ProtocolOk(s)
    ensures s.orch.flow.IndexInRange()
  {
    hide Inv;
    InvInRange(s.orch);
  }

  // ---------- the gap is reached ----------

  lemma InvitationIsAccepted(o: Orch, session: string, deadline: real, r: ControlRequest, w: World)
    requires o.flow.IndexInRange()
    requires Inviting(o, session, deadline) && w.now < deadline
    requires r == ControlRequest(Some(session), Some("first"), StartAction, "START", Some(w.now))
    ensures var p := o.PollOnce(true, true, Request(r), w).0;
            && p.accepted == [Accepted(r, w.now)]
            && (o.deferHandoff ==> p.lifecycle == LCaptureHandoff == p.status.status)
  {
    hide Orch.RestoreOnce;
    AcknowledgedNow(o.flow, w.now);
  }

  function PrepareSteps(w: World, rest: seq<Step>): seq<Step> {
    [Operate(RecordPreflight(true, w))] + ([Operate(QualifyResourceStartup(true, w))]
      + ([Operate(ArmRestoration(true, true, true, w))] + ([Operate(AwaitStart(START_TTL_SECONDS, PhysicalVoice, w))] + rest)))
  }

  lemma OperateUnfolds(s: System, a: Action, rest: seq<Step>) returns (t: System)
    requires ProtocolOk(s) && s.phase.Steady? && !a.PollOnce? && !a.ForeignWrite?
    ensures s.orch.flow.IndexInRange() && ProtocolOk(t)
    ensures t == s.(orch := OrchestratorRuns.Step(s.orch, a))
    ensures Execute(s, [Operate(a)] + rest) == Execute(t, rest)
  {
    hide ProtocolOk, OrchestratorRuns.Step;
    DoKeeps(s, Operate(a));
    Unfold(s, Operate(a), rest);
    t := Do(s, Operate(a));
  }

  lemma InvitationIsReached(session: string, w: World, rest: seq<Step>) returns (s: System)
    ensures ProtocolOk(Begin(session, true, w.now)) && ProtocolOk(s)
    ensures s == Begin(session, true, w.now).(orch := s.orch)
    ensures Inviting(s.orch, session, w.now + START_TTL_SECONDS)
    ensures Execute(Begin(session, true, w.now), PrepareSteps(w, rest)) == Execute(s, rest)
  {
    hide ProtocolOk, Execute, ResourcesVerified, SafeguardsArmed, Inviting, InitialOrch,
      Orch.RecordPreflight, Orch.QualifyResourceStartup, Orch.ArmRestoration, Orch.AwaitOwnerStart;
    BeginOk(session, true, w.now);
    s := Begin(session, true, w.now);
    var last := [Operate(AwaitStart(START_TTL_SECONDS, PhysicalVoice, w))] + rest;
    var third := [Operate(ArmRestoration(true, true, true, w))] + last;
    s := OperateUnfolds(s, RecordPreflight(true, w), [Operate(QualifyResourceStartup(true, w))] + third);
    s := OperateUnfolds(s, QualifyResourceStartup(true, w), third);
    PreflightVerifies(session, w);
    ArmingArms(s.orch, session, w);
    s := OperateUnfolds(s, ArmRestoration(true, true, true, w), last);
    AwaitingInvites(s.orch, session, w);
    s := OperateUnfolds(s, AwaitStart(START_TTL_SECONDS, PhysicalVoice, w), rest);
  }

  function StartSteps(session: string, id: string, rest: seq<Step>): seq<Step> {
    [PageReads] + ([PageChecks(session)] + ([PageWrites(id)] + rest))
  }

  /** The page takes a START on an inviting status when no request is pending. */
  lemma PageTakesStart(s: System, id: string, deadline: real, rest: seq<Step>) returns (t: System)
    requires ProtocolOk(s) && s.page.PageIdle? && s.file.NoRequest? && Truthy(Some(id)) && id !in s.usedIds
    requires Visible(s) == Status(LAwaitingOwnerStart, LAwaitingOwnerStart, FlowText(AwaitingOwnerStart), s.session,
                                  true, true, true, true, true, 0, Some(deadline), false, None, None, false)
    requires s.clock < deadline
    ensures ProtocolOk(t)
    ensures t == s.(file := Request(StartRequest(s, id)), usedIds := s.usedIds + {id},
                        starts := s.starts + [StartRequest(s, id)])
    ensures Execute(s, StartSteps(s.session, id, rest)) == Execute(t, rest)
  {
    hide Inv, StartsOk, FileOk, AcceptedOk, Execute;
    DoKeeps(s, PageReads);
    Unfold(s, PageReads, [PageChecks(s.session)] + ([PageWrites(id)] + rest));
    var read := s.(page := StatusRead(Visible(s), StartPublished(s)));
    DoKeeps(read, PageChecks(s.session));
    Unfold(read, PageChecks(s.session), [PageWrites(id)] + rest);
    var checked := s.(page := Checked);
    DoKeeps(checked, PageWrites(id));
    Unfold(checked, PageWrites(id), rest);
    t := Do(checked, PageWrites(id));
  }

  /** The orchestrator finds that START, accepts it and moves the request away. */
  lemma OrchestratorTakesStart(s: System, deadline: real, w: World, rest: seq<Step>) returns (t: System)
    requires ProtocolOk(s) && s.phase.Steady? && Inviting(s.orch, s.session, deadline) && w.now == s.clock < deadline
    requires s.file == Request(ControlRequest(Some(s.session), Some("first"), StartAction, "START", Some(w.now)))
    ensures ProtocolOk(t) && |t.orch.accepted| == 1
    ensures s.orch.deferHandoff ==> t.orch.lifecycle == LCaptureHandoff == t.orch.status.status
    ensures t == s.(orch := t.orch, file := NoRequest, phase := Consuming(s.orch.status, true))
    ensures Execute(s, [Poll(true, true, w)] + ([Rename] + rest)) == Execute(t, rest)
  {
    hide ProtocolOk, Execute, Inviting, Orch.PollOnce;
    StaysInRange(s);
    NothingAcceptedYet(s.orch, s.session, deadline);
    InvitationIsAccepted(s.orch, s.session, deadline, s.file.request, w);
    DoKeeps(s, Poll(true, true, w));
    Unfold(s, Poll(true, true, w), [Rename] + rest);
    t := Do(s, Poll(true, true, w));
    DoKeeps(t, Rename);
    Unfold(t, Rename, rest);
    t := Do(t, Rename);
  }

  lemma NothingAcceptedYet(o: Orch, session: string, deadline: real)
    requires Inviting(o, session, deadline)
    ensures o.accepted == [] && o.deferHandoff
    ensures o.status == Status(LAwaitingOwnerStart, LAwaitingOwnerStart, FlowText(AwaitingOwnerStart), session,
                               true, true, true, true, true, 0, Some(deadline), false, None, None, false)
  {
  }

  function DuplicateSteps(session: string, w: World): seq<Step> {
    PrepareSteps(w, StartSteps(session, "first", [Poll(true, true, w)] + ([Rename] + StartSteps(session, "second", []))))
  }

  /** A whole run in which the page takes two STARTs and the orchestrator accepts one. */
  lemma PageCanTakeTwo(session: string, w: World)
    ensures ProtocolOk(Begin(session, true, w.now))
    ensures var end := Execute(Begin(session, true, w.now), DuplicateSteps(session, w));
            end.Some? && |end.value.starts| == 2 && |end.value.orch.accepted| == 1
  {
    hide ProtocolOk, Execute, Inviting, PrepareSteps, StartSteps;
    var rest := [Poll(true, true, w)] + ([Rename] + StartSteps(session, "second", []));
    var deadline := w.now + START_TTL_SECONDS;
    var s := InvitationIsReached(session, w, StartSteps(session, "first", rest));
    NothingAcceptedYet(s.orch, session, deadline);
    s := PageTakesStart(s, "first", deadline, rest);
    s := OrchestratorTakesStart(s, deadline, w, StartSteps(session, "second", []));
    s := PageTakesStart(s, "second", deadline, []);
    NothingLeft(s);
  }

  lemma NothingLeft(s: System)
    requires ProtocolOk(s)
    ensures Execute(s, []) == Some(s)
  {
    hide ProtocolOk;
  }

  function StaleSteps(session: string, w: World): seq<Step> {
    PrepareSteps(w, StartSteps(session, "first", [Poll(true, true, w)] + ([Rename] + AfterPublication(session))))
  }

  function AfterPublication(session: string): seq<Step> {
    [PageReads] + ([PublishStart] + ([PageChecks(session)] + ([PageWrites("second")] + [])))
  }

  /** The page need not be quick: a status read before the publication is enough, and the second START
      is then taken after it. */
  lemma PageCanTakeOneAfterPublication(session: string, w: World)
    ensures ProtocolOk(Begin(session, true, w.now))
    ensures var end := Execute(Begin(session, true, w.now), StaleSteps(session, w));
            end.Some? && StartPublished(end.value) && |end.value.starts| == 2 && |end.value.orch.accepted| == 1
  {
    hide ProtocolOk, Execute, Inviting, PrepareSteps, StartSteps, AfterPublication;
    var deadline := w.now + START_TTL_SECONDS;
    var rest := [Poll(true, true, w)] + ([Rename] + AfterPublication(session));
    var s := InvitationIsReached(session, w, StartSteps(session, "first", rest));
    NothingAcceptedYet(s.orch, session, deadline);
    s := PageTakesStart(s, "first", deadline, rest);
    s := OrchestratorTakesStart(s, deadline, w, AfterPublication(session));
    s := StaleReadIsTaken(s, deadline);
    NothingLeft(s);
  }

  lemma StaleReadIsTaken(s: System, deadline: real) returns (t: System)
    requires ProtocolOk(s) && s.page.PageIdle? && s.file.NoRequest? && "second" !in s.usedIds
    requires s.phase.Consuming? && s.phase.renamed && s.clock < deadline
    requires Visible(s) == Status(LAwaitingOwnerStart, LAwaitingOwnerStart, FlowText(AwaitingOwnerStart), s.session,
                                  true, true, true, true, true, 0, Some(deadline), false, None, None, false)
    ensures ProtocolOk(t) && StartPublished(t) && |t.starts| == |s.starts| + 1 && t.orch.accepted == s.orch.accepted
    ensures Execute(s, AfterPublication(s.session)) == Execute(t, [])
  {
    hide Inv, StartsOk, FileOk, AcceptedOk, Execute;
    DoKeeps(s, PageReads);
    Unfold(s, PageReads, [PublishStart] + ([PageChecks(s.session)] + ([PageWrites("second")] + [])));
    var read := s.(page := StatusRead(Visible(s), false));
    DoKeeps(read, PublishStart);
    Unfold(read, PublishStart, [PageChecks(s.session)] + ([PageWrites("second")] + []));
    var published := read.(phase := Steady);
    DoKeeps(published, PageChecks(s.session));
    Unfold(published, PageChecks(s.session), [PageWrites("second")] + []);
    var checked := published.(page := Checked);
    DoKeeps(checked, PageWrites("second"));
    Unfold(checked, PageWrites("second"), []);
    t := Do(checked, PageWrites("second"));
  }

  // ---------- polling ----------

  /** The orchestrator is about to look at a request. */
  predicate LooksAtRequest(o: Orch, safe: bool, alive: bool, file: RequestFile, w: World) {
    !InRestoration(o.status.status) && o.lifecycle == LAwaitingOwnerStart && Comes(o, safe, alive, file, w.now)
  }

  /** It is a START that may be taken. */
  predicate LooksAtStart(o: Orch, safe: bool, alive: bool, file: RequestFile, w: World) {
    LooksAtRequest(o, safe, alive, file, w) && file.request.action == StartAction && MayStart(o, file.request, w.now)
  }

  lemma StartIsFound(o: Orch, safe: bool, alive: bool, file: RequestFile, w: World)
    requires Inv(o)
    ensures LooksAtStart(o, safe, alive, file, w) <==> FindsStart(o, safe, alive, file, w.now)
  {
    hide Inv, Orch.StartIsCurrent, MayStart;
    if o.lifecycle == LAwaitingOwnerStart {
      NothingAcceptedWhileWaiting(o);
      if file.Request? {
        CurrentMeans(o, file.request, w.now);
        LeaseBoundsStart(o);
      }
    }
  }

  lemma PollIsKnown(o: Orch, safe: bool, alive: bool, file: RequestFile, w: World)
    requires Inv(o)
    ensures o.flow.IndexInRange()
    ensures var (p, result) := o.PollOnce(safe, alive, file, w);
            && (|p.accepted| > |o.accepted| <==> LooksAtStart(o, safe, alive, file, w))
            && (result == StaleRejected <==>
                  LooksAtRequest(o, safe, alive, file, w) && file.request.sessionId != Some(o.sessionId))
  {
    hide Inv, Orch.PollOnce, LooksAtStart, FindsStart, MustRestore, AnswersStart, DisplayModel, CueIsReady, Qualified,
      ProperStart;
    PollAnswers(o, safe, alive, file, w);
    PollOncePromise(o, safe, alive, file, w);
    StartIsFound(o, safe, alive, file, w);
  }

  /** A request of another session is removed; a START that may be taken is being consumed from here on, and the page
      still sees the status of before; anything else leaves the file as it is. */
  lemma PollMoves(s: System, safe: bool, alive: bool, w: World)
    requires ProtocolOk(s) && s.phase.Steady? && w.now == s.clock
    ensures s.orch.flow.IndexInRange()
    ensures var t := DoPoll(s, safe, alive, w);
            && t.file == (if LooksAtRequest(s.orch, safe, alive, s.file, w) && s.file.request.sessionId != Some(s.session)
                          then NoRequest else s.file)
            && (if LooksAtStart(s.orch, safe, alive, s.file, w) then
                  t.phase == Consuming(s.orch.status, false) && Visible(t) == Visible(s)
                else t.phase == Steady && Visible(t) == t.orch.status)
            && t == s.(orch := t.orch, file := t.file, phase := t.phase)
  {
    hide Inv, StartsOk, FileOk, AcceptedOk, Orch.PollOnce, LooksAtRequest, LooksAtStart;
    StaysInRange(s);
    PollIsKnown(s.orch, safe, alive, s.file, w);
    StartIsOfSession(s.orch, safe, alive, s.file, w);
  }

  lemma StartIsOfSession(o: Orch, safe: bool, alive: bool, file: RequestFile, w: World)
    ensures LooksAtStart(o, safe, alive, file, w) ==> file.Request? && file.request.sessionId == Some(o.sessionId)
  {
  }

  // ---------- aborting ----------

  /** What an abort or finish of the page does: nothing where restoration is shown; otherwise it leaves its request in
      the file, whatever was there, and marks the status, and nothing else changes. */
  ghost predicate AnswersAbort(s: System, t: System, finish: bool, id: string) {
    if Visible(s).status == LRestoring || Visible(s).status == LRestoredVerified then t == s
    else
      && t.file == Request(ControlRequest(Some(s.session), Some(id), if finish then FinishAction else AbortAction, "", None))
      && Visible(t) == Visible(s).(status := LRestoring, operatorState := ForeignText)
      && t == s.(file := t.file, usedIds := s.usedIds + {id}, phase := t.phase, orch := s.orch.(status := t.orch.status))
      && (if s.phase.Steady? then t.phase.Steady? else t.phase == s.phase.(shown := Visible(t)) && t.orch == s.orch)
  }

  lemma AbortAnswers(s: System, finish: bool, id: string)
    ensures AnswersAbort(s, Abort(s, finish, id), finish, id)
  {
  }

  /** An abort between the orchestrator's operations is followed by its next poll, though the request itself is not
      read: no START is accepted any more, whatever the page had written, and no further restoration is called for. */
  lemma AbortIsFollowed(s: System, finish: bool, id: string, safetyHealthy: bool, candidateAlive: bool, w: World)
    requires ProtocolOk(s) && Enabled(s, PageAborts(finish, id)) && s.phase.Steady? && w.now == s.clock
    requires Visible(s).status != LRestoring && Visible(s).status != LRestoredVerified
    ensures var t := Abort(s, finish, id);
            && t.orch.flow.IndexInRange() && Enabled(t, Poll(safetyHealthy, candidateAlive, w))
            && Do(t, Poll(safetyHealthy, candidateAlive, w)) == t.(orch := t.orch.(lifecycle := t.orch.status.lifecycle))
            && forall read: System, requestSession ::
                 read.page.StatusRead? && read.page.snapshot == Visible(t) ==> !PageAccepts(read, Visible(t), requestSession)
  {
    hide Inv, StartsOk, FileOk, AcceptedOk, Orch.PollOnce, OrchestratorRuns.Step;
    StaysInRange(s);
    var t := Abort(s, finish, id);
    AbortAnswers(s, finish, id);
    PageAbortsKeeps(s, finish, id);
    PollAnswers(t.orch, safetyHealthy, candidateAlive, t.file, w);
  }

  /** An abort inside the consumption of a START is lost on the orchestrator: the publication writes over the mark in
      the status, and the request is left unread by every later poll of the session as it is then. */
  lemma AbortInTheGapIsLost(s: System, finish: bool, id: string, safetyHealthy: bool, candidateAlive: bool, w: World)
    requires ProtocolOk(s) && Enabled(s, PageAborts(finish, id)) && s.phase.Consuming? && s.phase.renamed
    requires s.phase.shown.status != LRestoring && s.phase.shown.status != LRestoredVerified
    requires !InRestoration(s.orch.status.status)
    ensures var t := Abort(s, finish, id);
            && t.orch.flow.IndexInRange() && Enabled(t, PublishStart)
            && Visible(Do(t, PublishStart)) == s.orch.status && Do(t, PublishStart).file.Request?
            && s.orch.PollOnce(safetyHealthy, candidateAlive, t.file, w) == (s.orch, Idle)
  {
    hide Inv, StartsOk, FileOk, AcceptedOk, Orch.PollOnce, OrchestratorRuns.Step;
    StaysInRange(s);
    var t := Abort(s, finish, id);
    AbortAnswers(s, finish, id);
    if s.orch.lifecycle == LAwaitingOwnerStart {
      NothingAcceptedWhileWaiting(s.orch);
    }
    PollAnswers(s.orch, safetyHealthy, candidateAlive, t.file, w);
  }

  function LostAbortSteps(session: string, w: World): seq<Step> {
    PrepareSteps(w, StartSteps(session, "first", [Poll(true, true, w)]
                                                 + ([Rename] + ([PageAborts(false, "abort")] + ([PublishStart] + [])))))
  }

  lemma AbortLeavesRequest(s: System)
    requires s.phase.Consuming? && s.phase.shown.status == LAwaitingOwnerStart
    ensures var t := Abort(s, false, "abort");
            && t.phase.Consuming? && t.phase.renamed == s.phase.renamed && t.orch == s.orch
            && t.file.Request? && t.file.request.action == AbortAction
  {
  }

  lemma AbortIsDone(s: System, finish: bool, id: string)
    requires s.orch.flow.IndexInRange() && Enabled(s, PageAborts(finish, id))
    ensures Do(s, PageAborts(finish, id)) == Abort(s, finish, id)
  {
    hide Abort;
  }

  lemma AbortIsWritten(s: System, rest: seq<Step>) returns (t: System)
    requires ProtocolOk(s) && Enabled(s, PageAborts(false, "abort")) && s.phase.Consuming? && s.phase.renamed
    requires s.phase.shown.status == LAwaitingOwnerStart
    ensures ProtocolOk(t) && t.phase.Consuming? && t.phase.renamed && t.orch == s.orch
    ensures t.file.Request? && t.file.request.action == AbortAction
    ensures Execute(s, [PageAborts(false, "abort")] + rest) == Execute(t, rest)
  {
    StaysInRange(s);
    hide ProtocolOk, Execute, Do, Abort;
    Unfold(s, PageAborts(false, "abort"), rest);
    AbortIsDone(s, false, "abort");
    t := Abort(s, false, "abort");
    AbortLeavesRequest(s);
  }

  lemma PublicationWritesOver(s: System) returns (t: System)
    requires ProtocolOk(s) && s.phase.Consuming? && s.phase.renamed
    ensures ProtocolOk(t) && t == s.(phase := Steady)
    ensures Execute(s, [PublishStart] + []) == Execute(t, [])
  {
    StaysInRange(s);
    hide ProtocolOk, Execute;
    Unfold(s, PublishStart, []);
    t := s.(phase := Steady);
  }

  /** A whole run that loses an abort: the session goes on to hand over the capture. */
  lemma AbortCanBeLost(session: string, w: World)
    ensures ProtocolOk(Begin(session, true, w.now))
    ensures var end := Execute(Begin(session, true, w.now), LostAbortSteps(session, w));
            && end.Some? && end.value.file.Request? && end.value.file.request.action == AbortAction
            && |end.value.orch.accepted| == 1 && end.value.orch.lifecycle == LCaptureHandoff
            && Visible(end.value).status == LCaptureHandoff
  {
    hide ProtocolOk, Execute, Inviting, PrepareSteps, StartSteps;
    var deadline := w.now + START_TTL_SECONDS;
    var last := [PublishStart] + [];
    var rest := [PageAborts(false, "abort")] + last;
    var s := InvitationIsReached(session, w, StartSteps(session, "first", [Poll(true, true, w)] + ([Rename] + rest)));
    NothingAcceptedYet(s.orch, session, deadline);
    s := PageTakesStart(s, "first", deadline, [Poll(true, true, w)] + ([Rename] + rest));
    s := OrchestratorTakesStart(s, deadline, w, rest);
    s := AbortIsWritten(s, last);
    s := PublicationWritesOver(s);
    NothingLeft(s);
  }
}
