# Stage 32 qualification and Neural Core, verified

This project models, in Dafny, the parts of the repository whose behaviour is hardest to see from one
function at a time, and proves what they promise over whole runs.

**The resource guard.** `ResourceGuard` is the shared decision over one sample: it compares cumulative
pressure counters over exact intervals, keeps a table of timers for the conditions that are currently
exceeded, and fails closed on telemetry it cannot trust. `GuardMonitor` runs it over an unbounded stream
and refines it to a statement about windows of samples. `CandidateGuard` adds the candidate's adapter,
its baseline sample and its suppression of late samples. `SustainedDuration` is the offline evaluator, a
different loop, and its agreement with the online guard. `Runs` holds what they share.

**The operator session.** `PhysicalControl` is the fail-closed operator machine with its event log, as a
value; `FlowProperties` holds what every run of it keeps, and `OperatorMachine` is the class that does it
in place. `GateEvidence` judges the gates on the runtime events, and `GateMeaning` says what each verdict
means on the fields of the events alone. `Orchestrator` is the state of the orchestrator and what each
operation does to it and to the published status, `OrchestratorRuns` the invariant of every interleaving of
operations and the theorems that follow, `OrchestratorAnswers` which situation gets which answer from each
operation, `OrchestratorPromises` what the caller of one operation may rely on afterwards, and
`OperatorOrchestrator` the class that does it all in place and keeps all three. `OrchestratorLimits` and `GateFailures` give promises with the exact extent to which they
hold. `OperatorPage` is the page's own judgement, and `StartProtocol` puts page, orchestrator, clock and
restore service side by side as interleaved steps over shared files. `SampleSession` holds the stages of
one session, from which the concrete runs are built.

**The geometry.** `Seeded` is the 32-bit generator and its single cycle, `Strip` the closed-strip
triangulation, `TriangleSampler` the area-weighted binary search, `SpatialHash` the neighbour search.
`Arithmetic` holds facts about products and quotients.

**Streams and repositories.** `Framing` is the length-prefixed chunk stream over a socket that delivers
bytes in pieces of any size, `ChunkedProxy` the chunked transfer coding of section 7.1 of RFC 9112 with
a reader for it. `RepositoryScan` is the bounded walk of a repository and the decision whether its index
is current, `RepositoryIdentity` the registry that ties an identifier to one identity.

How the pieces are built: an object that the source updates in place is a class. Each of its methods is
proved to turn the state before into what a function says, and the theorems are about those functions, so
they hold of the classes; the public methods also keep the object's `Valid()` and state the promise they
are called for. Loops of the source are loops here. What comes from outside (files, sockets, clocks, Git,
the candidate's runtime) is an argument of the step that reads it.

Six promises turned out to hold only in part, and are stated exactly:

- A verified restoration ends the flow if and only if the orchestrator itself called for restoration. An
  owner's abort before START moves the lifecycle alone (`OwnerAbortLeavesFlowWaiting`).
- Only the orchestrator's acceptance of START is unique. The page takes a further START exactly when the
  status it had read, however long ago, was read before the accepted one was published, no request is
  pending, and that status still invites one (`StartTakenIff`). Two runs reach it: a quick page between the
  rename of the request and the publication (`PageCanTakeTwo`), and a slow page after the publication
  (`PageCanTakeOneAfterPublication`). There is never a third, and never a second before the first is accepted
  (`AtMostTwoStarts`).
- A page's abort is followed by the orchestrator's next poll, unless it falls into the consumption of a START:
  the publication then writes over its mark and the request stays unread (`AbortIsFollowed`,
  `AbortInTheGapIsLost`, with the run `AbortCanBeLost`). The restore service that the page launches with the
  abort is another process.
- A gate failure that is restored leaves a failed result behind, except exactly when the learning gate's
  answer has no turn identity but white space: the gate has then passed already (`FailureWithoutFailedResultIff`, with the
  run `TurnlessRun`).
- The offline duration is computed from wall-clock dates. It is the longest window of rows, whatever the
  rows hold, if and only if no dates that have gone back go forward again before a gap of more than 2.5 s
  (`ResultIsLongestIff`, with the instance `ClockSetBackHidesWindow`).
- The neighbour search allows steps up to 0.072 but finds every candidate only up to the cell side of
  0.060: what it considers are exactly the passing points in touching cells (`CandidatesAre`,
  `LongStepOverlooked`).

## Model

| member | source | states |
|---|---|---|
| `ResourceGuard.PsiInterval` | scripts/qualification/stage32_resource_guard.py:134-163 | A stall share is only reported for two readings at most 2.5 s apart, in order, with a counter that did not go back; missing telemetry gives nothing. |
| `ResourceGuard.AboveIsPercentage` | scripts/qualification/stage32_resource_guard.py:159-163 | The exact integer comparison agrees with dividing stalled time by elapsed seconds and comparing percentages. |
| `ResourceGuard.GuardTimers.ResourceTrigger` | scripts/qualification/stage32_resource_guard.py:166-245 | One decision, in bytes, percents and seconds: a risen OOM counter trips at once, else missing or less than 1 GiB of free swap, else readings that cannot be trusted; else the first condition that had lasted 15 or 10 s; the timer of every condition afterwards. |
| `ResourceGuard.TriggerMeans` | scripts/qualification/stage32_resource_guard.py:166-245 | Exactly when each trigger is given, with its reason and duration, in literal thresholds: 1 GiB of swap, 5 GiB of memory, 2 percent of stall, readings at most 2.5 s apart. |
| `ResourceGuard.TimersMean` | scripts/qualification/stage32_resource_guard.py:226-245 | Which timer each condition has afterwards: none while it does not hold, its old start or the present while it does. |
| `ResourceGuard.GuardTimers.StartTimers` | scripts/qualification/stage32_resource_guard.py:227-241 | The loop over the conditions starts the timers up to a tripping condition and no further, and reports the active ones. |
| `ResourceGuard.GuardTimers.DropInactive` | scripts/qualification/stage32_resource_guard.py:242-245 | Timers of conditions that are no longer exceeded go, the others keep their time. |
| `Runs.StartIsMaximal` | scripts/qualification/stage32_resource_guard.py:238-245 | The start of a run is the earliest of all unbroken windows that end at the same entry. |
| `Runs.LastsFromStart` | scripts/qualification/stage32_resource_guard.py:238-241 | A run lasts a duration exactly when its age from its start does. |
| `GuardMonitor.RunMonitor` | scripts/qualification/stage32_resource_guard.py:1075-1181 | For every stream the monitor stops at the first reading, if any, that calls for it, and with its reason: teardown or a fault of the file, a risen OOM counter, low swap, readings that cannot be trusted, memory low for 15 s or stalls above 2 percent for 10 s, all in literal numbers over the stream. |
| `GuardMonitor.StopMeans` | scripts/qualification/stage32_resource_guard.py:1075-1181 | The answer told from the stream is a stop exactly when the stream calls for one in literal numbers, and the reason is one that holds and that no earlier one precedes. |
| `GuardMonitor.HeldMeans` | scripts/qualification/stage32_resource_guard.py:192-241 | A condition was held exactly when some window of readings that ends now, each above its threshold and usable after its predecessor, is 15 or 10 s long. |
| `GuardMonitor.TripsIffHeldLongEnough` | scripts/qualification/stage32_resource_guard.py:226-241 | A condition trips exactly when some window of exceeding samples that ends now is long enough, and it reports the age of the longest one. |
| `GuardMonitor.SustainedIsHeld` | scripts/qualification/stage32_resource_guard.py:210-241 | The trigger is that of the first condition, in the guard's order, that was held long enough. |
| `GuardMonitor.TriggerIsStop` | scripts/qualification/stage32_resource_guard.py:166-245 | The timed guard's answer is the one told from the stream alone. |
| `GuardMonitor.TimersFollowRuns` | scripts/qualification/stage32_resource_guard.py:238-245 | After a quiet sample every timer is the start of the current maximal exceeding run, and only such timers exist. |
| `GuardMonitor.UsableStep` | scripts/qualification/stage32_resource_guard.py:145-163 | A sample that passes the telemetry check is later than its predecessor by at most 2.5 s with stall counters that did not go back. |
| `GuardMonitor.StallTelescopes` | scripts/qualification/stage32_resource_guard.py:134-163 | Per-interval shares telescope: over a window the cumulative stall exceeds 2% of the time from just before it to its end. |
| `GuardMonitor.WholeRunIsLongEnough` | scripts/qualification/stage32_resource_guard.py:238-241 | If some window is long enough to trip, the whole run is. |
| `GuardMonitor.NoFalsePressureTrip` | scripts/qualification/stage32_resource_guard.py:192-241 | When the monitor stops for a sustained pressure condition, stall has accumulated at more than 2% over a span of more than 10 s of the cumulative counters. |
| `GuardMonitor.TripIsPrompt` | scripts/qualification/stage32_resource_guard.py:192-241 | A condition held for its duration plus one sample gap has already stopped the monitor. |
| `CandidateGuard.RuntimeGuard.EvaluateRuntimeSample` | scripts/qualification/stage32_resource_guard.py:248-312 | The snapshot's fields go where they belong, missing ones stay missing, the date is cut to whole nanoseconds; a first sample with both totals only sets the baseline and starts the low-memory timer; any other is judged as by the shared guard, in literal numbers. |
| `CandidateGuard.GuardMeans` | scripts/qualification/stage32_candidate_orchestrator.py:575-612 | What a sample is answered and which timers it leaves, baseline rule and forgiveness included, in literal numbers. |
| `CandidateGuard.AdaptMeans` | scripts/qualification/stage32_resource_guard.py:248-294 | Each field of the adapted sample is the one of the snapshot that it stands for. |
| `CandidateGuard.RuntimeGuard.ResourceGuard` | scripts/qualification/stage32_candidate_orchestrator.py:575-612 | A late sample with sound counters is forgiven while the independent monitor is fresh, and then no timer is left running; the sample becomes the next predecessor in every case. |
| `CandidateGuard.TimersStayInsideRuns` | scripts/qualification/stage32_candidate_orchestrator.py:575-612 | As long as the guard is quiet, every timer is the start of a stretch of samples that all exceed and follow each other in step. |
| `CandidateGuard.RunHasNoGap` | scripts/qualification/stage32_resource_guard.py:295-312 | Consecutive samples of such a stretch are at most 2.5 s apart. |
| `CandidateGuard.SustainedTripIsWholeRun` | scripts/qualification/stage32_resource_guard.py:226-241 | With gap suppression included, a condition trips exactly when the unbroken run that ends now is long enough. |
| `CandidateGuard.SustainedTripIsReal` | scripts/qualification/stage32_candidate_orchestrator.py:575-612 | A sustained trip reports the length of one unbroken stretch without a gap: no time across a suppressed gap is counted. |
| `CandidateGuard.OnlyTelemetryIsForgiven` | scripts/qualification/stage32_candidate_orchestrator.py:585-610 | Exactly when a trigger is hidden: it is the telemetry fault, on a first sample with totals or on a merely late one; OOM, swap and sustained trips always come through. |
| `SustainedDuration.EvaluateSustained` | scripts/qualification/stage32_resource_qualification.py:33-55 | The offline loop returns the longest stretch of consecutive exceeding rows at most 2.5 s apart, or zero, whenever dates do not go back and forward again; in general the greatest age that a run reaches. |
| `SustainedDuration.ResultIsLongestIff` | scripts/qualification/stage32_resource_qualification.py:33-55 | On the dates alone: the result is the longest window for every choice of row values if and only if no dates that have gone back go forward again before a gap of more than 2.5 s. |
| `SustainedDuration.LongestRunIsLongestWindow` | scripts/qualification/stage32_resource_qualification.py:33-55 | Unless dates went back and forward again inside a run, the result is the maximum length over all windows of consecutive exceeding rows with gaps of at most 2.5 s. |
| `SustainedDuration.ClockSetBackHidesWindow` | scripts/qualification/stage32_resource_qualification.py:45-51 | An instance: three rows dated 10, 0 and 2, for which a window of two seconds is overlooked. |
| `SustainedDuration.MemoryTripAt` | scripts/qualification/stage32_resource_guard.py:286-312 | While quiet, the next sample trips for low memory exactly when it has lasted 15 s. |
| `SustainedDuration.OnlineAgreesWithOffline` | scripts/qualification/stage32_resource_qualification.py:229-235 | On the same samples, with nothing else tripping, the runtime guard reports sustained low memory if and only if the offline duration below 5 GiB is at least 15 s. |
| `OperatorMachine.OperatorFlow.constructor` | scripts/qualification/stage32_physical_control.py:106-121 | A new machine is valid: preparing, before its first gate, with nothing armed and an empty log. |
| `OperatorMachine.OperatorFlow.Restore` | scripts/qualification/stage32_physical_control.py:128-135 | The first reason wins: a machine that is leaving is left as it is, any other is restoring for this reason; the answer tells whether it is restoring. |
| `OperatorMachine.OperatorFlow.BeginResourceCheck` | scripts/qualification/stage32_physical_control.py:137-142 | The machine stays valid and uses up rank if its state changes. The check begins if and only if it was preparing, and otherwise nothing changes. |
| `OperatorMachine.OperatorFlow.QualifyResources` | scripts/qualification/stage32_physical_control.py:144-167 | The machine stays valid and uses up rank if its state changes. Success if and only if it was checking and resources and both safeguards are given, and then all three are recorded; otherwise nothing changes or it is restoring. |
| `OperatorMachine.OperatorFlow.AwaitOwnerStart` | scripts/qualification/stage32_physical_control.py:169-181 | The machine stays valid and uses up rank if its state changes. From qualified, whenever the time is positive, START is awaited behind both safeguards until now plus that time; otherwise nothing changes. |
| `OperatorMachine.OperatorFlow.ExpireStart` | scripts/qualification/stage32_physical_control.py:183-191 | The machine stays valid and uses up rank if its state changes. Expired exactly from the deadline on, and then restoring for that reason; a machine still awaiting START is strictly before its deadline. |
| `OperatorMachine.OperatorFlow.AcknowledgeStart` | scripts/qualification/stage32_physical_control.py:193-203 | The machine stays valid and uses up rank if its state changes. START is accepted if and only if it is awaited, is the exact word and comes strictly before the deadline; it is then the first and only one, with resources and both safeguards qualified. |
| `OperatorMachine.OperatorFlow.VerifyCapture` | scripts/qualification/stage32_physical_control.py:211-220 | The machine stays valid and uses up rank if its state changes. Verified if and only if it was handing over and both are ready, and then exactly one START had been counted; otherwise nothing changes or it is restoring. |
| `OperatorMachine.OperatorFlow.SpeakingPrompt` | scripts/qualification/stage32_physical_control.py:222-247 | The machine stays valid and uses up rank if its state changes. A prompt is that of the first gate without a verdict, with capture verified; none, when one was due, means that every gate has its verdict and restoration begins. |
| `OperatorMachine.OperatorFlow.RecordGateResult` | scripts/qualification/stage32_physical_control.py:270-293 | The machine stays valid and uses up rank if its state changes. One more verdict, for the first gate without one, if and only if a gate is being shown; otherwise nothing changes. |
| `OperatorMachine.OperatorFlow.RestorationComplete` | scripts/qualification/stage32_physical_control.py:295-304 | The machine stays valid and uses up rank if its state changes. Restored if and only if it was restoring and the report is verified; otherwise the state stays. |
| `FlowProperties.LogReplaysEveryRun` | scripts/qualification/stage32_physical_control.py:123-304 | After any sequence of calls the log is numbered 1..n and replaying it reproduces state, gate index, START count, capture flag, restore reason and verdicts. |
| `FlowProperties.GatesDecidedInOrder` | scripts/qualification/stage32_physical_control.py:222-293 | Gates are shown and decided strictly in order, one verdict each; completion means as many verdicts as gates. |
| `FlowProperties.StartIsGuarded` | scripts/qualification/stage32_physical_control.py:144-220 | START counts at most once and only behind resources and both safeguards; capture and gates only behind START. |
| `FlowProperties.RestoringIsFinal` | scripts/qualification/stage32_physical_control.py:128-135 | Restoring is left only for restored, by a verified completion; restored is never left. |
| `FlowProperties.RunsAreBounded` | scripts/qualification/stage32_physical_control.py:137-304 | A decreasing measure bounds every run at 5 times the gates plus 7 state changes. |
| `FlowProperties.ApplySteps` | scripts/qualification/stage32_physical_control.py:137-304 | Every call keeps the whole invariant and uses up rank if it changes the state. |
| `GateEvidence.SpokenStopPassesIffChain` | scripts/qualification/stage32_operator_orchestrator.py:1066-1180 | The spoken stop passes exactly when the log has an interruption of the playback, then the finalized stop phrase, then a stop event, with no assistant or speech event between first and last. |
| `GateEvidence.BargeInPassesIffOneTurn` | scripts/qualification/stage32_operator_orchestrator.py:919-1064 | The barge-in passes exactly when the first repeat request after the first interruption is followed by exactly one turn. |
| `GateEvidence.FollowUpPassesIffOneTurn` | scripts/qualification/stage32_operator_orchestrator.py:965-1062 | One lesson context, and answer and speech of its turn and of no other; the next gate is about that speech. |
| `GateMeaning.Vocabulary` | scripts/qualification/stage32_operator_orchestrator.py:501-529 | What the words of the verdicts mean on the fields of one event. |
| `GateMeaning.WakeMeans` | scripts/qualification/stage32_operator_orchestrator.py:765-793 | Wake passes if and only if there is exactly one wake more than at the baseline, it was accepted, and its acknowledgement was spoken to the end; two or more fail it. |
| `GateMeaning.LessonMeans` | scripts/qualification/stage32_operator_orchestrator.py:795-900 | Every verdict on the lesson from the events: wrong words, missing route, cancelled, output not approved, passed; a pass aims the next gate at the last speech under the last answer's turn. |
| `GateMeaning.NonBlankMeansStripped` | scripts/qualification/stage32_operator_orchestrator.py:882 | A turn identity counts exactly when stripping the white space around it leaves something. |
| `GateMeaning.OutputMeans` | scripts/qualification/stage32_operator_orchestrator.py:902-917 | The learning output only fails, and exactly when its playback has been spoken to the end before it was confirmed. |
| `GateMeaning.BargeInMeans` | scripts/qualification/stage32_operator_orchestrator.py:919-1064 | Every verdict on the barge-in and the follow-up, from the first interruption and the first repeat request after it. |
| `GateMeaning.StopMeans` | scripts/qualification/stage32_operator_orchestrator.py:1066-1215 | Every verdict on the spoken stop, each failure included. |
| `GateMeaning.ProgressMeans` | scripts/qualification/stage32_operator_orchestrator.py:1217-1262 | Read-only progress passes if and only if it was asked for in the right words only, read without writing, answered and spoken, and the last reading does not precede the last question. |
| `GateMeaning.AnswerMeans` | scripts/qualification/stage32_operator_orchestrator.py:1264-1322 | The owner is asked to confirm if and only if after the last answer a submission is pending and the question about it was completed and spoken. |
| `GateMeaning.ConfirmationMeans` | scripts/qualification/stage32_operator_orchestrator.py:1323-1366 | The assessment passes if and only if the last finalized Yes is followed by a submission with an attempt and the isolated database gained exactly one row and changed its digest; it fails if and only if it was submitted without that. |
| `GateMeaning.QuietMeans` | scripts/qualification/stage32_operator_orchestrator.py:1395-1419 | The quiet gate fails on any speech after the stop, and is found quiet exactly from its deadline on. |
| `OrchestratorRuns.OnceAndInOrder` | scripts/qualification/stage32_operator_orchestrator.py:357-419 | Over every interleaving at most one START is accepted, properly addressed and before the deadline; restoration is requested at most once and capture handed over at most once, after that START. |
| `OrchestratorRuns.ResultsAreVerdicts` | scripts/qualification/stage32_operator_orchestrator.py:537-627 | The recorded results equal the flow's verdicts on a prefix of the gates; only the last can be a failure and then restoration is asked for; completion is the reason only when all ten passed. |
| `OrchestratorRuns.StopVerdictsAreFounded` | scripts/qualification/stage32_operator_orchestrator.py:1423-1477 | The observed log is strictly increasing under any delivery; a passed spoken stop rests on a chain in it, of the very playback that the gate was about: its begin, its interruption, the stop phrase, the stop; a passed quiet gate on a confirmation at least five seconds after it was shown, with no speech seen after that stop. |
| `OrchestratorRuns.PassesRestOnEvidence` | scripts/qualification/stage32_operator_orchestrator.py:1368-1421 | In every run each passed gate rests on the newest events seen by then: the wakes on one wake more, the repeated answer on one turn, the assessment on a submission after a Yes that the database shows as one attempt more. |
| `OrchestratorRuns.GateIsJudged` | scripts/qualification/stage32_operator_orchestrator.py:765-1421 | Which verdict function judges which of the ten gates, and the limit of 240 s before all of them. |
| `OrchestratorRuns.PassIsProven` | scripts/qualification/stage32_operator_orchestrator.py:1368-1421 | A verdict that passes the gate shown rests on what that gate has to prove, and on the owner's confirmation where one is needed. |
| `OrchestratorRuns.CueMeansVerifiedCapture` | scripts/qualification/stage32_operator_orchestrator.py:421-465 | A speaking cue on the page implies exactly one accepted START and all five capture checks true. |
| `OrchestratorRuns.StepKeeps` | scripts/qualification/stage32_operator_orchestrator.py:257-1714 | Every public operation, and everything that others write over the status file, keeps the whole invariant. |
| `OrchestratorRuns.RestoreOnceRestores` | scripts/qualification/stage32_operator_orchestrator.py:357-376 | The restore latch fires once and leaves the flow leaving, with a restoring lifecycle. |
| `OrchestratorRuns.RecordGateRecords` | scripts/qualification/stage32_operator_orchestrator.py:537-627 | A verdict on the gate shown is recorded once, in the results and in the flow alike. |
| `OrchestratorRuns.ShowNextGateKeeps` | scripts/qualification/stage32_operator_orchestrator.py:629-751 | After a passed gate the next is shown, or the session completes, and the invariant holds again. |
| `OrchestratorRuns.FailGateKeeps` | scripts/qualification/stage32_operator_orchestrator.py:753-763 | Failing the current gate asks for restoration and keeps the invariant, so a failure can only be the last result. |
| `OrchestratorRuns.EvaluateKeeps` | scripts/qualification/stage32_operator_orchestrator.py:1368-1421 | Judging the current gate keeps the invariant whatever the verdict. |
| `OrchestratorRuns.VerdictOfGate` | scripts/qualification/stage32_operator_orchestrator.py:1368-1421 | A verdict that passes the stop or the quiet gate is founded on what was observed. |
| `OrchestratorRuns.PassStoppedIsFounded` | scripts/qualification/stage32_operator_orchestrator.py:1066-1180 | The stop chain found in the stored events is a chain in everything observed, from the begin of the playback on. |
| `OrchestratorRuns.ObserveOneKeeps` | scripts/qualification/stage32_operator_orchestrator.py:1443-1476 | One runtime event keeps the invariant, and the batch ends exactly when restoration has begun. |
| `OrchestratorRuns.ObserveRuntimeEventsKeeps` | scripts/qualification/stage32_operator_orchestrator.py:1423-1477 | A whole delivery, in whatever order, keeps the invariant. |
| `OrchestratorRuns.ConsumeOwnerObservationKeeps` | scripts/qualification/stage32_operator_orchestrator.py:1479-1618 | An owner's confirmation keeps the invariant: the quiet gate passes only when it was found quiet, the last gate completes the session. |
| `OrchestratorRuns.ConsumeStartKeeps` | scripts/qualification/stage32_operator_orchestrator.py:378-419 | Consuming a START keeps the invariant through acceptance, handoff and readiness. |
| `OrchestratorRuns.CompleteCaptureHandoffKeeps` | scripts/qualification/stage32_operator_orchestrator.py:421-465 | Completing the handoff keeps the invariant, in which verified capture means all five readiness checks. |
| `OrchestratorRuns.PollOnceKeeps` | scripts/qualification/stage32_operator_orchestrator.py:1620-1662 | Polling keeps the invariant in every branch. |
| `OrchestratorRuns.ConfirmRestorationKeeps` | scripts/qualification/stage32_operator_orchestrator.py:1681-1714 | Confirming restoration keeps the invariant. |
| `OrchestratorLimits.LeavingMeansCalled` | scripts/qualification/stage32_operator_orchestrator.py:1652-1657 | In every run the flow is leaving exactly when the orchestrator itself called for restoration; an abort before START leaves it waiting. |
| `OrchestratorLimits.VerifiedRestorationEndsFlowIffCalled` | scripts/qualification/stage32_operator_orchestrator.py:1681-1714 | A verified restoration ends the lifecycle always and the flow if and only if restoration had been called for. |
| `OrchestratorLimits.OwnerAbortLeavesFlowWaiting` | scripts/qualification/stage32_operator_orchestrator.py:1652-1657 | After an owner's abort and a verified restoration the flow still awaits START. |
| `OrchestratorLimits.DeliveryIsComplete` | scripts/qualification/stage32_operator_orchestrator.py:1423-1477 | The log gains exactly the event numbers not seen before, however events are ordered or repeated, unless a gate ends the session on the way. |
| `OrchestratorLimits.SortSorts` | scripts/qualification/stage32_operator_orchestrator.py:1443 | A delivery is looked at in the order of its sequence numbers. |
| `OrchestratorLimits.SortPermutes` | scripts/qualification/stage32_operator_orchestrator.py:1443 | Sorting neither loses nor invents events. |
| `GateFailures.FailureWithoutFailedResultIff` | scripts/qualification/stage32_operator_orchestrator.py:795-884 | In every state of the invariant with a gate shown: judging it asks for restoration as for a failed gate and yet leaves only passes behind if and only if it is the learning gate, in time, and the last completed answer of the lesson has no turn identity, or one of white space alone. |
| `GateFailures.PassWithoutTurnIff` | scripts/qualification/stage32_operator_orchestrator.py:795-884 | The learning gate passes without a turn if and only if the lesson was asked for, retrieved, answered and spoken by the approved output, uncancelled, and its last answer has no turn identity, or one of white space alone. |
| `GateFailures.MissingTurnLeavesNoFailedResult` | scripts/qualification/stage32_operator_orchestrator.py:879-884 | Then the gate has passed, restoration is asked for because of it, and the flow is leaving. |
| `GateFailures.TurnlessRun` | scripts/qualification/stage32_operator_orchestrator.py:795-884 | A whole run from the beginning that ends so: two results, both passes, and restoration called for the learning gate. |
| `OrchestratorPromises.ConsumeStartPromise` | scripts/qualification/stage32_operator_orchestrator.py:378-419 | A START is taken if and only if it is current, and is then the first of the session, proper and behind both safeguards; otherwise nothing changes. |
| `OrchestratorPromises.PollOncePromise` | scripts/qualification/stage32_operator_orchestrator.py:1620-1662 | A poll takes a START exactly when it finds a current one in a healthy session, and its answer tells what happened; whatever cue the page then shows, all five checks were true. |
| `OrchestratorPromises.CompleteCaptureHandoffPromise` | scripts/qualification/stage32_operator_orchestrator.py:421-465 | The handoff succeeds if and only if it is due and all five checks are true; the page then shows the cue of the first gate. |
| `OrchestratorPromises.EvaluatePromise` | scripts/qualification/stage32_operator_orchestrator.py:1368-1421 | Judging gives at most two verdicts, keeps the earlier ones, and has asked for restoration if one of them is not a pass. |
| `OrchestratorPromises.ConsumeOwnerObservationPromise` | scripts/qualification/stage32_operator_orchestrator.py:1479-1618 | A confirmation is taken under a number not used before and passes the gate it names; a rejected one leaves no trace, unless it comes too late for a playback. |
| `OrchestratorPromises.ObserveRuntimeEventsPromise` | scripts/qualification/stage32_operator_orchestrator.py:1423-1477 | A delivery in any order leaves an increasing log that gained delivered, newer events only, and all their numbers unless the session ended; what was judged and confirmed stays. |
| `OrchestratorAnswers.PollAnswers` | scripts/qualification/stage32_operator_orchestrator.py:1620-1662 | Which situation gets which answer: an unsafe session, a dead candidate, a deadline reached, a file that is no object, an action of this session that is none of the three, each is restored for that reason; an abort or finish is followed without a restore call; waiting if and only if nothing of that holds and there is no file; stale if and only if the request is of another session; idle if and only if not awaiting. |
| `OrchestratorAnswers.DeliveryAnswers` | scripts/qualification/stage32_operator_orchestrator.py:1423-1477 | A delivery is looked at in order of its numbers, equal ones as delivered: what is not new is passed over, what is new is seen and kept among the last 2048, fails the quiet gate at once if it is speech after the stop, and has the gate shown judged; nothing after restoration has begun. |
| `OrchestratorAnswers.RestoreAnswers` | scripts/qualification/stage32_operator_orchestrator.py:357-376 | Restoration is asked for once; a flow that was not leaving is restoring for this reason, and the status says whether the service was launched. |
| `OrchestratorAnswers.StartAnswers` | scripts/qualification/stage32_operator_orchestrator.py:378-419 | A START is taken if and only if it is for this session, has a number, is the word itself, was asked for by the deadline and found before it; deferred it is left to the caller, otherwise the capture is handed over once and its outcome is the answer. |
| `OrchestratorAnswers.HandoffAnswers` | scripts/qualification/stage32_operator_orchestrator.py:421-465 | The first cue if and only if all five checks are true, otherwise one restoration for that reason. |
| `OrchestratorAnswers.EvaluationAnswers` | scripts/qualification/stage32_operator_orchestrator.py:1368-1421 | Judging gives exactly the verdict that the events, the time and the databases call for, and does exactly what follows from that verdict. |
| `OrchestratorAnswers.ShowingAnswers` | scripts/qualification/stage32_operator_orchestrator.py:629-751 | After a gate the next one is shown with its words, its aim and its clock; after the last one the session completes; a playback that cannot be identified fails its gate. |
| `OrchestratorAnswers.ConfirmationAnswers` | scripts/qualification/stage32_operator_orchestrator.py:1479-1618 | A confirmation is taken if and only if it is fresh, for the gate and action shown and under a new number, and what it confirms can be confirmed; the gate then passes and the session goes on. |
| `OrchestratorAnswers.PreflightAnswers` | scripts/qualification/stage32_operator_orchestrator.py:257-269 | Exactly when due and passed it goes on; when due and not passed it asks for restoration once; otherwise nothing changes. |
| `OrchestratorAnswers.ResourceStartupAnswers` | scripts/qualification/stage32_operator_orchestrator.py:271-290 | The same for the resource startup. |
| `OrchestratorAnswers.ArmingAnswers` | scripts/qualification/stage32_operator_orchestrator.py:292-323 | Armed if and only if due with timer, manual restore and controls; each missing one is a restoration for its own reason. |
| `OrchestratorAnswers.AwaitingAnswers` | scripts/qualification/stage32_operator_orchestrator.py:325-355 | START is awaited until now plus the time given if and only if the session is armed and that time is positive. |
| `OperatorOrchestrator.OperatorOrchestrator.constructor` | scripts/qualification/stage32_operator_orchestrator.py:117-190 | A new session satisfies the invariant. |
| `OperatorOrchestrator.OperatorOrchestrator.Publish` | scripts/qualification/stage32_operator_orchestrator.py:211-255 | What is published shows no speaking cue, and invites a START only while the flow awaits one behind both safeguards. |
| `OperatorOrchestrator.OperatorOrchestrator.RequestRestoreOnce` | scripts/qualification/stage32_operator_orchestrator.py:357-376 | One restore call at most, with this reason; nothing is accepted, judged or confirmed, the flow is leaving and the page shows nothing. Unless it claims completion, the invariant is kept. |
| `OperatorOrchestrator.OperatorOrchestrator.RecordPreflight` | scripts/qualification/stage32_operator_orchestrator.py:257-269 | The invariant of the session is kept. Resource startup begins if and only if it was due and the preflight passed; else nothing changes or restoration is asked for. |
| `OperatorOrchestrator.OperatorOrchestrator.QualifyResourceStartup` | scripts/qualification/stage32_operator_orchestrator.py:271-290 | The invariant of the session is kept. The next state only after a passed qualification and with the check begun in the flow; else nothing changes or restoration is asked for. |
| `OperatorOrchestrator.OperatorOrchestrator.ArmRestoration` | scripts/qualification/stage32_operator_orchestrator.py:292-323 | The invariant of the session is kept. Armed only with timer, manual restore and controls given and both safeguards recorded in the flow; else nothing changes or restoration is asked for. |
| `OperatorOrchestrator.OperatorOrchestrator.AwaitOwnerStart` | scripts/qualification/stage32_operator_orchestrator.py:325-355 | The invariant of the session is kept. START is invited on the page behind both safeguards, with the lease equal to the flow's deadline, or nothing changes. |
| `OperatorOrchestrator.OperatorOrchestrator.ConsumeStart` | scripts/qualification/stage32_operator_orchestrator.py:378-419 | The invariant of the session is kept. One START is accepted if and only if it is for this session, new, the word itself and in time; the capture is handed over once, unless that is deferred, and the answer is its outcome; otherwise nothing changes. |
| `OperatorOrchestrator.OperatorOrchestrator.CompleteCaptureHandoff` | scripts/qualification/stage32_operator_orchestrator.py:421-465 | The invariant of the session is kept. Success if and only if the handoff is due and all five checks are true, and then the first gate's cue is shown and the wakes count from the baseline given; a failure that was due asks for restoration for that reason. |
| `OperatorOrchestrator.OperatorOrchestrator.EstablishRuntimeBaseline` | scripts/qualification/stage32_operator_orchestrator.py:467-486 | The invariant of the session is kept. The event number never goes back and reaches the number given, the first gate counts from the next event on, and wakes from the count in the health given; otherwise nothing else changes. |
| `OperatorOrchestrator.OperatorOrchestrator.RecordGate` | scripts/qualification/stage32_operator_orchestrator.py:537-627 | Exactly one verdict if a gate is shown, the same in the results and in the flow, for that gate; otherwise nothing changes. |
| `OperatorOrchestrator.OperatorOrchestrator.ShowNextGate` | scripts/qualification/stage32_operator_orchestrator.py:629-751 | The first gate without a verdict is shown with its prompt and nothing is judged, or restoration is asked for; when a gate had just passed, the invariant holds again. |
| `OperatorOrchestrator.OperatorOrchestrator.FailGate` | scripts/qualification/stage32_operator_orchestrator.py:753-763 | The invariant of the session is kept. Failing a gate outside restoration adds at most one result, a failed one, and has restoration asked for, with at most one call; otherwise nothing changes. |
| `OperatorOrchestrator.OperatorOrchestrator.EvaluateCurrentGate` | scripts/qualification/stage32_operator_orchestrator.py:1368-1421 | Exactly the verdict that the events, the time and the databases call for is given, and exactly what follows from it done; outside restoration the invariant is kept. |
| `OperatorOrchestrator.OperatorOrchestrator.ObserveRuntimeEvents` | scripts/qualification/stage32_operator_orchestrator.py:1423-1477 | The invariant of the session is kept. The log stays increasing, gains delivered newer events only, and all their numbers unless the session ends on the way; what was judged and confirmed stays. |
| `OperatorOrchestrator.OperatorOrchestrator.ObserveInOrder` | scripts/qualification/stage32_operator_orchestrator.py:1443-1477 | The loop over the sorted delivery, stopping where restoration begins, equals the recursive batch. |
| `OperatorOrchestrator.OperatorOrchestrator.ConsumeOwnerObservation` | scripts/qualification/stage32_operator_orchestrator.py:1479-1618 | The invariant of the session is kept. One confirmation, under a new number and no more than 30 s old, of what the page asks for passes the gate and shows the next; one too late for a playback fails it; any other leaves no trace. |
| `OperatorOrchestrator.OperatorOrchestrator.PollOnce` | scripts/qualification/stage32_operator_orchestrator.py:1620-1662 | The invariant of the session is kept. Each situation gets its answer: restored for the first reason that holds, in the order unsafe, dead, too late, malformed, unsupported; an abort or finish followed; a current START taken; waiting, stale and idle exactly when they should be; a cue that is then shown means all five checks. |
| `OperatorOrchestrator.OperatorOrchestrator.ConfirmRestoration` | scripts/qualification/stage32_operator_orchestrator.py:1681-1714 | The invariant of the session is kept. The lifecycle ends as reported; a verified report ends the flow if and only if restoration had been called for. |
| `StartProtocol.OneStart` | scripts/qualification/stage32_operator_control_server.py:958-1029 | Over every interleaving of page, orchestrator, clock and restore service at most one START is accepted: one that the page wrote for this session under a number no other START has, accepted strictly before the deadline behind resources and both safeguards, even when the page acts on stale status. |
| `StartProtocol.DoKeeps` | scripts/qualification/stage32_operator_control_server.py:958-1143 | Every step of either process keeps the protocol invariant. |
| `StartProtocol.OperateFrame` | scripts/qualification/stage32_operator_orchestrator.py:257-1714 | No operation but polling accepts a START. |
| `StartProtocol.LateStartIsRejected` | scripts/qualification/stage32_operator_control_server.py:970-1012 | A page that read the status after the publication rejects every further START as a duplicate. |
| `StartProtocol.StartTakenIff` | scripts/qualification/stage32_operator_control_server.py:970-1012 | In every run, exactly when the page takes a START, a second one included: what it read was read before an accepted START was published, no request is pending now, the session is right, and the status it read invites a START whose window is still open. |
| `StartProtocol.AtMostTwoStarts` | scripts/qualification/stage32_operator_control_server.py:958-1029 | In every run the page takes at most two STARTs, and at most one before one is accepted. |
| `StartProtocol.SecondStartInTheGap` | scripts/qualification/stage32_operator_orchestrator.py:396-401 | An idle page that does all its steps between the rename and the publication takes a second START exactly when the old status still invites one; the orchestrator's acceptance stays single. |
| `StartProtocol.PageCanTakeTwo` | scripts/qualification/stage32_operator_orchestrator.py:396-401 | A whole run in which the page takes two STARTs and the orchestrator accepts one. |
| `StartProtocol.PageCanTakeOneAfterPublication` | scripts/qualification/stage32_operator_control_server.py:970-1012 | A whole run in which it takes the second one after the publication, on a status read before. |
| `OperatorPage.RejectionMeans` | scripts/qualification/stage32_physical_control.py:325-354 | The reason of a rejected START is the first thing that is wrong with it. |
| `OperatorPage.OneInstruction` | scripts/qualification/stage32_physical_control.py:357-385 | The page tells the operator to type START or to speak, never both, and to speak only with verified capture. |
| `StartProtocol.PollMoves` | scripts/qualification/stage32_operator_orchestrator.py:1636-1661 | A poll removes a request of another session, begins to consume a START that may be taken, while the page still sees the old status, and leaves the file as it is otherwise. |
| `StartProtocol.AbortAnswers` | scripts/qualification/stage32_operator_control_server.py:1101-1143 | An abort or finish of the page does nothing where restoration is shown; otherwise it leaves its request, whatever was in the file, marks the status and changes nothing else. |
| `StartProtocol.AbortIsFollowed` | scripts/qualification/stage32_operator_control_server.py:1101-1143 | Between the orchestrator's operations an abort is followed by the next poll, which accepts no START and calls for nothing, and no page takes a START on that status. |
| `StartProtocol.AbortInTheGapIsLost` | scripts/qualification/stage32_operator_orchestrator.py:396-401 | During the consumption of a START the publication writes over the mark of an abort, and polling the session as it is then leaves the request unread. |
| `StartProtocol.AbortCanBeLost` | scripts/qualification/stage32_operator_orchestrator.py:396-401 | A whole run that loses an abort so and goes on to hand over the capture. |
| `Seeded.Generator.Next` | frontend/src/components/NeuralCore.tsx:131-143 | The state times 1664525 plus 1013904223 modulo 2^32, and a number in [0,1); the product stays below 2^53, where every integer is a double. |
| `Seeded.Generator.constructor` | frontend/src/components/NeuralCore.tsx:131-133 | The seed is truncated to 32 bits. |
| `Seeded.SingleCycle` | frontend/src/components/NeuralCore.tsx:134-142 | From any state every state is reached within 2^32 steps, after exactly one number of steps. |
| `Seeded.ReturnsIff` | frontend/src/components/NeuralCore.tsx:134-142 | A state comes back after n steps if and only if 2^32 divides n. |
| `Seeded.StepPermutes` | frontend/src/components/NeuralCore.tsx:134-142 | One step is a permutation of the 32-bit states. |
| `Seeded.SumValuation` | frontend/src/components/NeuralCore.tsx:134-142 | The geometric sum of the multiplier carries exactly the powers of two that its length carries. |
| `Seeded.TruncationIsHarmless` | frontend/src/components/NeuralCore.tsx:134-142 | Truncating at every step is truncating once at the end. |
| `Strip.Triangulate` | frontend/src/components/NeuralCore.tsx:7758-7813 | The nested loops build exactly the cells' triangles, row by row, wound by lobe. |
| `Strip.WeldedMeansSameSample` | frontend/src/components/NeuralCore.tsx:7049-7060 | The seam identifies exactly the columns that are sampled at the same place. |
| `Strip.EdgeOfCell` | frontend/src/components/NeuralCore.tsx:7758-7813 | Position by position, which welded edge of which cell an index starts. |
| `Strip.EdgesOccurOnce` | frontend/src/components/NeuralCore.tsx:7758-7813 | For any length and at least three ring segments no directed edge occurs twice. |
| `Strip.ReverseOccursIffInside` | frontend/src/components/NeuralCore.tsx:7758-7813 | The reverse of an edge occurs if and only if the edge is not on an end ring. |
| `Strip.EndRingsAreBoundary` | frontend/src/components/NeuralCore.tsx:7758-7813 | Both end rings are boundary all the way around. |
| `Strip.TwoSegmentsCloseTheEnd` | frontend/src/components/NeuralCore.tsx:7758-7813 | With two ring segments a segment of an end ring runs both ways, so three are needed. |
| `Strip.LeftMirrorsRight` | frontend/src/components/NeuralCore.tsx:7785-7811 | The left lobe's triangles are the right lobe's, each wound the other way round. |
| `TriangleSampler.MakeSampler` | frontend/src/components/NeuralCore.tsx:781-915 | The cumulative list holds the prefix sums and the total. |
| `TriangleSampler.ChooseTriangle` | frontend/src/components/NeuralCore.tsx:927-977 | The search returns three times the least triangle whose cumulative area reaches the target; zero for an empty list. |
| `TriangleSampler.ChosenOnItsInterval` | frontend/src/components/NeuralCore.tsx:927-977 | The positive targets of a triangle form the interval of length its area that follows the areas before it. |
| `TriangleSampler.ExactlyOne` | frontend/src/components/NeuralCore.tsx:927-977 | Every target up to the total chooses exactly one triangle. |
| `TriangleSampler.EmptyTriangleChosenIff` | frontend/src/components/NeuralCore.tsx:930-977 | A triangle without area is chosen if and only if the target is zero and the first triangle has no area. |
| `SpatialHash.BuildBuckets` | frontend/src/components/NeuralCore.tsx:2198-2245 | Each bucket holds the indices of its cell in order, and nothing else does. |
| `SpatialHash.InExactlyOneBucket` | frontend/src/components/NeuralCore.tsx:2198-2245 | Every point is in exactly one bucket exactly once. |
| `SpatialHash.VisitedIffAdjacent` | frontend/src/components/NeuralCore.tsx:2313-2351 | The 27 cells hold exactly the points whose cell is the current one or touches it. |
| `SpatialHash.ChooseNext` | frontend/src/components/NeuralCore.tsx:2289-2494 | Nothing exactly when no searched candidate passes every limit; otherwise a passing candidate that no other beats, whose score is linear in continuity, nearness to 0.042, signal and the draw made for it. |
| `SpatialHash.Consider` | frontend/src/components/NeuralCore.tsx:2353-2486 | One candidate is filtered, scored and kept if it beats the best so far. |
| `SpatialHash.ScoreIsLinear` | frontend/src/components/NeuralCore.tsx:2450-2473 | The score in literal weights: it grows with continuity, signal and the draw and falls with the distance from 0.042 up to 0.042 away. |
| `SpatialHash.ClearLeaderIsChosen` | frontend/src/components/NeuralCore.tsx:2450-2486 | A candidate that leads every other by more than 0.24 without the draws is chosen whatever is drawn. |
| `SpatialHash.NearerToIdealIsPreferred` | frontend/src/components/NeuralCore.tsx:2450-2486 | Other things equal, the candidate nearer to 0.042 is chosen if it is nearer by enough to outweigh any draw. |
| `SpatialHash.PassesMeans` | frontend/src/components/NeuralCore.tsx:2365-2420 | Which candidates pass: not the current point, within 0.018 and 0.072, colours and direction within their limits. |
| `SpatialHash.LiesInCell` | frontend/src/components/NeuralCore.tsx:2179-2196 | A point lies within its cell, a cube of side 0.060. |
| `SpatialHash.NearMeansAdjacent` | frontend/src/components/NeuralCore.tsx:2179-2187 | Any point within 0.060 of the current one lies in a searched cell. |
| `SpatialHash.CandidatesAre` | frontend/src/components/NeuralCore.tsx:2313-2420 | What is considered is exactly the passing points in touching cells. |
| `SpatialHash.AgreesWithBruteForce` | frontend/src/components/NeuralCore.tsx:2289-2494 | The search agrees with trying every point up to one cell side. |
| `SpatialHash.LongStepOverlooked` | frontend/src/components/NeuralCore.tsx:2380-2392 | A step of 0.061, which the limits allow, can be overlooked. |
| `Framing.UnpackInvertsPack` | scripts/qualification/offline_bridges.py:127 | Four bytes, most significant first, give the length back. |
| `Framing.PackInvertsUnpack` | scripts/qualification/offline_bridges.py:127 | Every four bytes are the packing of the number they give. |
| `Framing.ReadExact` | scripts/qualification/offline_bridges.py:116-123 | Exactly the next bytes in whatever pieces the socket delivers them, or a truncation error. |
| `Framing.SendFrameHeader` | scripts/qualification/offline_bridges.py:136-140 | A header above 4096 bytes is refused and nothing is sent. |
| `Framing.RecvFrameHeader` | scripts/qualification/offline_bridges.py:126-133 | A header of 1 to 4096 bytes, or the matching error. |
| `Framing.HeaderMeans` | scripts/qualification/offline_bridges.py:126-133 | Four bytes give the length, most significant first; it has to be 1 to 4096 and so many bytes have to follow; each failure has its own error. |
| `Framing.HeaderRoundTrip` | scripts/qualification/offline_bridges.py:126-140 | A header that can be sent is received as it was if and only if it is not empty. |
| `Framing.SendChunk` | scripts/qualification/offline_bridges.py:143-144 | Length and bytes. |
| `Framing.Forward` | scripts/qualification/offline_bridges.py:209-214 | All chunks and the terminator, or exactly those before the first that exceeds 32 MiB. |
| `Framing.Relay` | scripts/qualification/offline_bridges.py:284-297 | The adapter's loop equals the decoder on whatever the socket delivers. |
| `Framing.RoundTripIff` | scripts/qualification/offline_bridges.py:209-297 | Decoding inverts encoding if and only if every chunk has 1 to 65536 bytes and all together at most 32 MiB; what follows the terminator stays unread. |
| `Framing.CompleteMeansEncoded` | scripts/qualification/offline_bridges.py:286-297 | A stream that is taken to be complete is the encoding of such a list. |
| `Framing.Exchange` | scripts/qualification/offline_bridges.py:126-297 | A response from end to end, header frame included and in whatever pieces it is delivered, arrives whole with nothing left over if and only if the header has 1 to 4096 bytes and the pieces can be delivered. |
| `ChunkedProxy.WriteBody` | scripts/qualification/offline_presentation_proxy.py:126-132 | What is written for the pieces up to the first empty one, and the last chunk. |
| `ChunkedProxy.HexRoundTrip` | scripts/qualification/offline_presentation_proxy.py:127 | A reader of hexadecimal digits gets the length back. |
| `ChunkedProxy.BodyRoundTrip` | scripts/qualification/offline_presentation_proxy.py:126-132 | A reader of section 7.1 of RFC 9112 gets exactly the bytes before the upstream's end, and leaves what follows alone. |
| `ChunkedProxy.ProxyAndRead` | scripts/qualification/offline_presentation_proxy.py:126-132 | What the proxy writes is read back as exactly the bytes before the upstream's end, with nothing left over. |
| `RepositoryScan.InspectKeeps` | src/local_ai_assistant/onboarding.py:520-576 | One file keeps every bound and is in every list it belongs to unless a bound is met. |
| `RepositoryScan.NoteSkipped` | src/local_ai_assistant/onboarding.py:502-509 | The skipped directories with generated files are noted, or as many as there is room for. |
| `RepositoryScan.ScanFiles` | src/local_ai_assistant/onboarding.py:514-576 | One directory's files, all of them or the first code files. |
| `RepositoryScan.Walk` | src/local_ai_assistant/onboarding.py:499-579 | Complete if and only if the tree fits: no entered directory at the depth limit or beyond, no oversized manifest or language file, and room for every file, byte, manifest, instruction, component and skipped generated directory; then every list is complete. Always within all bounds, and the source paths are the first reachable code files. |
| `RepositoryScan.FitsIff` | src/local_ai_assistant/onboarding.py:499-579 | Fitting, counted along the walk, is fitting told from the tree and the limits alone. |
| `RepositoryScan.MetIffReached` | src/local_ai_assistant/onboarding.py:499-519 | What the walk meets is exactly what lies in directories that are reached along names none of which is skipped or a symbolic link: as deep as there are names, in the component of the first of them. |
| `RepositoryScan.FilesAreReached` | src/local_ai_assistant/onboarding.py:499-576 | The files of a kind are exactly the regular ones of that kind in those directories. |
| `RepositoryScan.RoomMeansFits` | src/local_ai_assistant/onboarding.py:499-579 | A tree whose totals stay within the limits fits. |
| `RepositoryScan.CurrentMeans` | src/local_ai_assistant/onboarding.py:694-751 | Current exactly when the chosen manifest records exactly the source paths with the digests of the files as they are. |
| `RepositoryScan.CheckDigests` | src/local_ai_assistant/onboarding.py:736-751 | Current exactly when every digest matches; otherwise the first path that does not decides between partial, for a missing digest, and stale. |
| `RepositoryScan.DecideIndexState` | src/local_ai_assistant/onboarding.py:694-751 | Current if and only if the scan was complete and the chosen manifest's keys for this repository are exactly the source paths, each with the digest of the file as it is; absent exactly when the index has nothing of this repository; other keys make it stale, and otherwise the first path that does not match tells between partial and stale. |
| `RepositoryScan.Assess` | src/local_ai_assistant/onboarding.py:476-665 | Current if and only if the tree fits the limits, neither late read is skipped and the index knows exactly the code files that the repository has, each by its present digest. |
| `RepositoryIdentity.OnboardingService.ScanRepository` | src/local_ai_assistant/onboarding.py:435-474 | A profile that is returned carries the identifier asked for, the root that the path, or else the registered root, leads to, and the mapping given or else the registered one; it says what a scan of that root finds now; for a registered identifier its fingerprint is the registered one. |
| `RepositoryIdentity.OnboardingService.RegisterRepository` | src/local_ai_assistant/onboarding.py:411-427 | Accepts if and only if identifier and mapping are well formed, the path is accepted and its scan succeeds with the registered and the expected fingerprint, if any; then it stores a fresh profile of that root with the mapping given or else the registered one, and otherwise nothing; no identifier is dropped or changes its fingerprint. |
| `RepositoryIdentity.OnboardingService.Readiness` | src/local_ai_assistant/onboarding.py:759-766 | Refreshes if and only if the registered root still leads to the repository that was registered, with that root and the registered mapping; otherwise stores nothing; no identifier is dropped or changes its fingerprint. |
| `RepositoryIdentity.OnboardingService.AssertReadyForMutation` | src/local_ai_assistant/onboarding.py:768-800 | Permission if and only if path, identity, commit, status and, where required, index are right on a scan made now; the profile stored keeps the registered mapping; no identifier is dropped or changes its fingerprint. |
| `RepositoryIdentity.MappingMeans` | src/local_ai_assistant/onboarding.py:414-418 | A publication mapping is an owner and a name around a slash, each of 1 to 100 characters. |
| `RepositoryIdentity.RefusalsMean` | src/local_ai_assistant/onboarding.py:411-800 | Each refusal is for a reason that holds, in the order of the checks. |
| `RepositoryIdentity.FingerprintNeverChanges` | src/local_ai_assistant/onboarding.py:411-474 | Over every sequence of calls and whatever the file system becomes, an identifier keeps its fingerprint and is never dropped. |

## Left out

- Floating point: percentages and durations in the guard, and lengths and areas in the geometry, are exact; only the generator's bound of 2^53 is about doubles. A length is any function, assumed to be the exact square root only where near points are compared by distance.
- Non-integer telemetry: counters and gauges are integers or missing; booleans and infinities that the adapter filters out are among the missing.
- The monitor's plumbing: files, the detail sampler, waiting for a verified restoration and launching the independent service; teardown seen in the status file is one kind of reading.
- Whether the independent monitor is fresh is an input of the candidate's guard.
- Text matching, intent routing and prompt wording: an event carries which phrases it matches; a cue is the gate and its phrase.
- The branch for a gate that waits for a playback to begin (scripts/qualification/stage32_operator_orchestrator.py:1465-1472): nothing in the source ever sets it.
- A candidate snapshot callback that raises while a confirmed attempt is judged: the source lets the exception out of the delivery, the model judges without a database.
- Reasons carry their origin: a caller's reason is never equal to the machine's or the orchestrator's own, although in the source all are texts and a caller could pass the text of completion; no caller does.
- A turn identity that is not a text counts as missing.
- Evidence payloads, the latest transcript and response, latency snapshots and the lifecycle event log file; runtime events whose sequence is not a number.
- `cancelled` in an assistant's completion is one flag, although the source tests it once for truth and once for being exactly true.
- One operation of the orchestrator reads the clock once.
- What others write over the status file: the page's abort and the restore service a restoration with its operator state and perhaps a lifecycle of restoration, the candidate's own reports a status text alone; each reads and rewrites the file in one step.
- The publications inside one consumption of START are one step of the protocol; the rename before them is a step of its own.
- What the page's abort does besides its request and its mark in the status: a note among the owner's observations and the launch of the restore service, which later writes the status itself.
- Authentication of the page's requests, boot identity, and the flow file as a fallback for a status without the two start fields.
- OperatorOrchestrator.OperatorOrchestrator.ConfirmRestoration: the thirteen checks of a restoration report are one input.
- wait_for_start: a loop around polling with a sleep.
- Shaders, materials, React components and the formulas of the brain's shape; normals and displacement attributes of the strip.
- Framing.Forward: an upstream that fails in the middle of a response makes the source send a second header inside the stream; only the success path and the size limit are modelled.
- The HTTP side of both bridges: header validation, status lines, peer credentials, time-outs.
- JSON and SHA-256: a frame header is its bytes, a digest is any function.
- RepositoryScan.Walk: languages per component, secrets, warnings, tool versions and readiness status are not part of this model; what a file name says about a file is given with the file.
- RepositoryIdentity.OnboardingService.RegisterRepository: a registry file that cannot be written, and loading a registry, are left out; Git queries are one answer per root.
- The broker, the command line, the benchmarks, the demonstration application and the service units would only add input and output.
