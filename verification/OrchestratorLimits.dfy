/** How far two promises of the orchestrator reach: when a verified restoration also ends the flow, and
    which delivered events are looked at. */
module OrchestratorLimits {
  import opened Prelude
  import opened PhysicalControl
  import opened GateEvidence
  import opened Orchestrator
  import opened OrchestratorRuns

  // ---------- verified restoration ----------

  /** In every run, the flow is leaving exactly when the orchestrator itself called for restoration. */
  lemma LeavingMeansCalled(sessionId: string, deferHandoff: bool, actions: seq<Action>)
    requires PossibleRun(actions)
    ensures var o := OrchestratorRuns.Run(sessionId, deferHandoff, actions);
            && (Leaving(o.flow.state) <==> o.restoreCalls != [])
            && (o.restoreRequested && o.restoreCalls == [] ==> o.flow.state == AwaitingOwnerStart)
  {
    hide Base, LifecycleOk, WaitingOk, StopGateAimed, Settled, QuietGateOk;
    assert Inv(OrchestratorRuns.Run(sessionId, deferHandoff, actions));
  }

  /** A verified restoration report always ends the lifecycle; it ends the flow exactly when the
      orchestrator had called for restoration, so not after an owner's abort before START. */
  lemma VerifiedRestorationEndsFlowIffCalled(sessionId: string, deferHandoff: bool, actions: seq<Action>, w: World)
    requires PossibleRun(actions)
    ensures var o := OrchestratorRuns.Run(sessionId, deferHandoff, actions);
            var (p, ok) := o.ConfirmRestoration(true, w);
            ok && p.lifecycle == LRestoredVerified && (p.flow.state == Restored <==> o.restoreCalls != [])
  {
    hide Inv, OrchestratorRuns.Run;
    LeavingMeansCalled(sessionId, deferHandoff, actions);
  }

  /** The owner's abort before START moves the lifecycle and not the flow, which then outlives even a
      verified restoration as still awaiting START. */
  lemma OwnerAbortLeavesFlowWaiting(o: Orch, r: ControlRequest, w: World, later: World)
    requires Inv(o) && o.lifecycle == LAwaitingOwnerStart && !InRestoration(o.status.status)
    requires o.leaseDeadline.Some? ==> w.now < o.leaseDeadline.value
    requires r.sessionId == Some(o.sessionId) && (r.action == AbortAction || r.action == FinishAction)
    ensures o.flow.IndexInRange()
    ensures var (p, result) := o.PollOnce(true, true, Request(r), w);
            && result == RestoringNow && p.lifecycle == LRestoring && p.flow == o.flow
            && p.ConfirmRestoration(true, later).0.lifecycle == LRestoredVerified
            && p.ConfirmRestoration(true, later).0.flow.state == AwaitingOwnerStart
  {
    hide Inv;
    InvInRange(o);
    AwaitingMeansFlow(o);
  }

  // ---------- delivery of runtime events ----------

  ghost predicate Sorted(events: seq<RuntimeEvent>) {
    forall i, j :: 0 <= i < j < |events| ==> events[i].sequence <= events[j].sequence
  }

  lemma {:induction false} InsertionPermutes(e: RuntimeEvent, sorted: seq<RuntimeEvent>)
    ensures multiset(InsertBySequence(e, sorted)) == multiset(sorted) + multiset{e}
  {
    if sorted != [] && sorted[|sorted| - 1].sequence > e.sequence {
      InsertionPermutes(e, sorted[..|sorted| - 1]);
      assert sorted == sorted[..|sorted| - 1] + [sorted[|sorted| - 1]];
    }
  }

  lemma {:induction false} InsertionSorts(e: RuntimeEvent, sorted: seq<RuntimeEvent>, bound: int)
    requires Sorted(sorted) && e.sequence <= bound
    requires sorted != [] ==> sorted[|sorted| - 1].sequence <= bound
    ensures Sorted(InsertBySequence(e, sorted))
    ensures var r := InsertBySequence(e, sorted); r[|r| - 1].sequence <= bound
  {
    if sorted != [] && sorted[|sorted| - 1].sequence > e.sequence {
      var front, last := sorted[..|sorted| - 1], sorted[|sorted| - 1];
      InsertionSorts(e, front, last.sequence);
      assert InsertBySequence(e, sorted) == InsertBySequence(e, front) + [last];
    }
  }

  lemma {:induction false} SortPermutes(delivered: seq<RuntimeEvent>)
    ensures multiset(SortedBySequence(delivered)) == multiset(delivered)
  {
    hide InsertBySequence;
    if delivered != [] {
      var n := |delivered| - 1;
      SortPermutes(delivered[..n]);
      InsertionPermutes(delivered[n], SortedBySequence(delivered[..n]));
      assert delivered == delivered[..n] + [delivered[n]];
    }
  }

  lemma {:induction false} SortSorts(delivered: seq<RuntimeEvent>)
    ensures Sorted(SortedBySequence(delivered))
  {
    hide InsertBySequence, Sorted;
    if delivered == [] {
      EmptyIsSorted();
    } else {
      var n := |delivered| - 1;
      SortSorts(delivered[..n]);
      var front, last := SortedBySequence(delivered[..n]), delivered[n].sequence;
      InsertionSorts(delivered[n], front, if front != [] && front[n - 1].sequence > last then front[n - 1].sequence else last);
    }
  }

  lemma EmptyIsSorted()
    ensures Sorted([])
  {
  }

  /** `after` extends `before` by events of the batch that are newer than `last`. */
  ghost predicate GainsOnly(before: seq<RuntimeEvent>, after: seq<RuntimeEvent>, last: int, batch: seq<RuntimeEvent>) {
    && |before| <= |after| && after[..|before|] == before
    && forall j :: |before| <= j < |after| ==> after[j] in batch && after[j].sequence > last
  }

  /** Every number of the batch that is newer than `last` is among the events gained. */
  ghost predicate GainsAll(before: seq<RuntimeEvent>, after: seq<RuntimeEvent>, last: int, batch: seq<RuntimeEvent>) {
    forall e :: e in batch && e.sequence > last ==> exists j :: |before| <= j < |after| && after[j].sequence == e.sequence
  }

  lemma ObserveOneGrows(o: Orch, e: RuntimeEvent, database: Option<Database>, w: World)
    requires o.flow.IndexInRange()
    ensures var p := o.ObserveOne(e, database, w).0;
            if e.sequence <= o.eventSequence then p == o
            else p.observed == o.observed + [e] && p.eventSequence == e.sequence
  {
    hide Orch.FailGate, Orch.Evaluate;
  }

  lemma SkipKeepsGains(before: seq<RuntimeEvent>, after: seq<RuntimeEvent>, last: int, batch: seq<RuntimeEvent>)
    requires batch != [] && batch[0].sequence <= last
    ensures GainsOnly(before, after, last, batch[1..]) ==> GainsOnly(before, after, last, batch)
    ensures GainsAll(before, after, last, batch[1..]) ==> GainsAll(before, after, last, batch)
  {
    assert batch == [batch[0]] + batch[1..];
  }

  lemma OneMoreGain(before: seq<RuntimeEvent>, after: seq<RuntimeEvent>, last: int, batch: seq<RuntimeEvent>)
    requires batch != [] && Sorted(batch) && batch[0].sequence > last
    requires GainsOnly(before + [batch[0]], after, batch[0].sequence, batch[1..])
    ensures GainsOnly(before, after, last, batch)
    ensures GainsAll(before + [batch[0]], after, batch[0].sequence, batch[1..]) ==> GainsAll(before, after, last, batch)
  {
    var e := batch[0];
    assert batch == [e] + batch[1..];
    assert after[..|before|] == after[..|before| + 1][..|before|] == before;
    assert after[|before|] == after[..|before| + 1][|before|] == e;
    if GainsAll(before + [e], after, e.sequence, batch[1..]) {
      forall x | x in batch && x.sequence > last
        ensures exists j :: |before| <= j < |after| && after[j].sequence == x.sequence
      {
        if x.sequence == e.sequence {
          assert after[|before|].sequence == x.sequence;
        } else {
          assert x in batch[1..] && x.sequence > e.sequence;
        }
      }
    }
  }

  lemma {:induction false} BatchIsObserved(o: Orch, batch: seq<RuntimeEvent>, database: Option<Database>, w: World)
    requires Inv(o) && !InRestoration(o.lifecycle) && Sorted(batch)
    ensures o.flow.IndexInRange()
    ensures var p := o.ObserveBatch(batch, database, w);
            && GainsOnly(o.observed, p.observed, o.eventSequence, batch)
            && (!InRestoration(p.lifecycle) ==> GainsAll(o.observed, p.observed, o.eventSequence, batch))
    decreases |batch|
  {
    hide Inv, Orch.Evaluate, Orch.ObserveOne, GainsOnly, GainsAll, Sorted;
    InvInRange(o);
    if batch == [] {
      EmptyBatchGainsNothing(o, database, w);
    } else {
      ObserveOneKeeps(o, batch[0], database, w);
      ObserveOneGrows(o, batch[0], database, w);
      RestIsSorted(batch);
      var (p, done) := o.ObserveOne(batch[0], database, w);
      if done {
        FirstGain(o.observed, o.eventSequence, batch);
      } else {
        BatchIsObserved(p, batch[1..], database, w);
        var q := p.ObserveBatch(batch[1..], database, w);
        if batch[0].sequence <= o.eventSequence {
          SkipKeepsGains(o.observed, q.observed, o.eventSequence, batch);
        } else {
          OneMoreGain(o.observed, q.observed, o.eventSequence, batch);
        }
      }
    }
  }

  lemma EmptyBatchGainsNothing(o: Orch, database: Option<Database>, w: World)
    requires o.flow.IndexInRange()
    ensures var p := o.Evaluate(database, w);
            GainsOnly(o.observed, p.observed, o.eventSequence, []) && GainsAll(o.observed, p.observed, o.eventSequence, [])
  {
    hide Orch.Evaluate;
  }

  lemma RestIsSorted(batch: seq<RuntimeEvent>)
    requires Sorted(batch) && batch != []
    ensures Sorted(batch[1..])
  {
  }

  lemma FirstGain(before: seq<RuntimeEvent>, last: int, batch: seq<RuntimeEvent>)
    requires batch != [] && batch[0].sequence > last
    ensures GainsOnly(before, before + [batch[0]], last, batch)
  {
  }

  /** However events are delivered, in whatever order and however often, the log gains exactly the
      numbers not seen before, unless a gate ends the session on the way: then it gains only such. */
  lemma DeliveryIsComplete(o: Orch, delivered: seq<RuntimeEvent>, health: Option<VoiceHealth>,
                           database: Option<Database>, w: World)
    requires Inv(o) && !InRestoration(o.lifecycle) && o.mode != Some(ResourceRequalification)
    ensures o.flow.IndexInRange()
    ensures var p := o.ObserveRuntimeEvents(delivered, health, database, w);
            && GainsOnly(o.observed, p.observed, o.eventSequence, delivered)
            && (!InRestoration(p.lifecycle) ==> GainsAll(o.observed, p.observed, o.eventSequence, delivered))
            && Increasing(p.observed)
  {
    hide Inv, Orch.ObserveBatch, SortedBySequence, Sorted;
    InvInRange(o);
    var batch := SortedBySequence(delivered);
    SortSorts(delivered);
    SortPermutes(delivered);
    SameElements(batch, delivered);
    ObserveRuntimeEventsKeeps(o, delivered, health, database, w);
    LogIncreases(o.ObserveRuntimeEvents(delivered, health, database, w));
    var from := if health.Some? then o.(voice := health) else o;
    VoiceIsFree(o, health);
    BatchIsObserved(from, batch, database, w);
  }

  lemma SameElements(s: seq<RuntimeEvent>, t: seq<RuntimeEvent>)
    requires multiset(s) == multiset(t)
    ensures forall e :: e in s <==> e in t
  {
    assert forall e :: e in s <==> e in multiset(s);
    assert forall e :: e in t <==> e in multiset(t);
  }

  lemma LogIncreases(o: Orch)
    requires Inv(o)
    ensures Increasing(o.observed)
  {
  }

  lemma VoiceIsFree(o: Orch, health: Option<VoiceHealth>)
    requires Inv(o)
    ensures Inv(o.(voice := health))
  {
    hide FlowOk, ResultsMatch, OnlyLastCanFail, CompletionClaim, ProperStarts, StreamOk, StopProven, AllFounded, QuietTimed,
      AllPassed, QuietAfter, StopStored;
  }
}
