/** The page's side of the exchange: when it takes a START and what it shows the operator. */
module OperatorPage {
  import opened Prelude
  import opened PhysicalControl
  import opened Orchestrator

  datatype Rejection =
    | DuplicateStart | NotAwaitingOwnerStart | QualificationOrSafeguardsMissing
    | RestorationOrControlsMissing | SessionIdentityMismatch | StartWindowExpired

  /** Why a typed START is rejected, judged on a status snapshot; `None` accepts it. */
  function OwnerStartRequestError(s: Status, expectedSession: string, requestSession: string, now: real,
                                  pending: bool): Option<Rejection> {
    if s.ownerStartCount > 0 || pending then Some(DuplicateStart)
    else if s.operatorState != FlowText(AwaitingOwnerStart) then Some(NotAwaitingOwnerStart)
    else if !s.resourceSafe || !s.autoRestoreArmed || !s.independentAbortArmed then Some(QualificationOrSafeguardsMissing)
    else if !s.manualRestoreVerified || !s.operatorControlsPassed then Some(RestorationOrControlsMissing)
    else if requestSession != expectedSession then Some(SessionIdentityMismatch)
    else if s.startDeadline.None? || now >= s.startDeadline.value then Some(StartWindowExpired)
    else None
  }

  datatype ReadyMessage = PhysicalTestReady | ResourceRecheckReady

  datatype Display = Display(ready: Option<ReadyMessage>, cue: Option<Prompt>)

  /** One safe instruction at a time; a speaking cue only from a status with verified capture. */
  function DisplayModel(s: Status): Display {
    if s.operatorState == FlowText(AwaitingOwnerStart)
       && s.autoRestoreArmed && s.independentAbortArmed && s.manualRestoreVerified && s.operatorControlsPassed then
      Display(if !s.resourceSafe then None else Some(if s.rechecking then ResourceRecheckReady else PhysicalTestReady), None)
    else if s.operatorState == FlowText(StartSpeaking) && s.captureVerified then Display(None, s.prompt)
    else Display(None, None)
  }

  /** Helper: whatever START the page accepts on this status, the operator was being told to type it. */
  lemma AcceptedOnlyWhenInvited(s: Status, expectedSession: string, requestSession: string, now: real, pending: bool)
    ensures OwnerStartRequestError(s, expectedSession, requestSession, now, pending).None? <==>
              && DisplayModel(s).ready.Some?
              && s.ownerStartCount == 0 && !pending && requestSession == expectedSession
              && s.startDeadline.Some? && now < s.startDeadline.value
  {
  }

  /** The first thing that is wrong is the reason given: a START taken or pending already, a page that asks for none,
      resources or safeguards, restoration or controls, the session, the time. */
  lemma RejectionMeans(s: Status, expectedSession: string, requestSession: string, now: real, pending: bool)
    ensures var error := OwnerStartRequestError(s, expectedSession, requestSession, now, pending);
            var due := s.ownerStartCount <= 0 && !pending;
            var asked := due && s.operatorState == FlowText(AwaitingOwnerStart);
            var safe := asked && s.resourceSafe && s.autoRestoreArmed && s.independentAbortArmed;
            var ready := safe && s.manualRestoreVerified && s.operatorControlsPassed;
            var here := ready && requestSession == expectedSession;
            && (error == Some(DuplicateStart) <==> !due)
            && (error == Some(NotAwaitingOwnerStart) <==> due && !asked)
            && (error == Some(QualificationOrSafeguardsMissing) <==> asked && !safe)
            && (error == Some(RestorationOrControlsMissing) <==> safe && !ready)
            && (error == Some(SessionIdentityMismatch) <==> ready && !here)
            && (error == Some(StartWindowExpired) <==> here && !(s.startDeadline.Some? && now < s.startDeadline.value))
  {
  }

  /** The operator is told to type START, or to speak, or nothing: never both, and to speak only with verified capture. */
  lemma OneInstruction(s: Status)
    ensures var d := DisplayModel(s);
            && (d.ready.None? || d.cue.None?)
            && (d.ready.Some? ==> (d.ready.value == ResourceRecheckReady <==> s.rechecking))
            && (d.cue.Some? ==> s.captureVerified && s.operatorState == FlowText(StartSpeaking) && d.cue == s.prompt)
  {
  }
}
