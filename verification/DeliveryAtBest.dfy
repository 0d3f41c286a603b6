/**
  A delivery in the runner that nothing disturbs, from the submission to the end: the main path exists.
*/
module DeliveryAtBest {
  import opened DeliveryContinuations
  import opened DeliveryFencing
  import opened DeliveryPhases
  import opened DeliverySharedCopy
  import opened DeliverySteps
  import opened Options

  // Job 0, at a phase and still the owner, with goroutine t at a place and another one, if any, at another.
  ghost predicate Alive(r: Run, t: ThreadId, at: Location, phase: Phase) {
    && IsRun(r) && WellFormed(Last(r)) && Free(Last(r), t, 0, at)
    && 0 in Last(r).shared.heap && Owner(Last(r), 0) && Last(r).shared.heap[0].phase == phase
  }

  ghost predicate OnlyMoves(r: Run, r': Run, t: ThreadId) {
    |r.states| > 0 && |r'.states| > 0 && t in Last(r').threads && Last(r').threads == Last(r).threads[t := Last(r').threads[t]]
  }

  lemma AMove(r: Run, t: ThreadId, at: Location, phase: Phase, to: Location) returns (r': Run)
    requires Alive(r, t, at, phase) && MayMove(Last(r).shared, 0, at, to)
    ensures Alive(r', t, to, phase) && OnlyMoves(r, r', t)
  {
    hide MayMove;
    r' := Moved(r, t, 0, at, to);
  }

  lemma AWrite(r: Run, t: ThreadId, at: Location, phase: Phase, p: Phase, to: Location) returns (r': Run)
    requires Alive(r, t, at, phase) && at != UploadBroken && at != PostFailed && MayWritePhase(Last(r).shared, 0, at, p, false, to, t in Last(r).dogs.stalled)
    ensures Alive(r', t, to, p) && OnlyMoves(r, r', t)
  {
    hide MayWritePhase;
    r' := Written(r, t, 0, at, p, to);
  }

  // A test that passes, and its effect.
  lemma ATestedEffect(r: Run, t: ThreadId, at: Location, phase: Phase, e: Effect) returns (r': Run)
    requires Alive(r, t, at, phase) && MayAttempt(at, e)
    ensures Alive(r', t, AfterEffect(at, e, true), phase) && OnlyMoves(r, r', t)
  {
    var s := Last(r);
    CheckPasses(s, t, at, e);
    hide IsRun, WellFormed, MayAttempt, OwnerIntact, CheckStep;
    var r1 := Extend(r, Check(t, e), s.(threads := s.threads[t := Thread(0, at, Some(e))]));
    r' := AnEffect(r1, t, at, phase, e);
  }

  lemma CheckPasses(s: State, t: ThreadId, at: Location, e: Effect)
    requires Free(s, t, 0, at) && Owner(s, 0) && MayAttempt(at, e)
    ensures CheckStep(s, t, e) == Some(s.(threads := s.threads[t := Thread(0, at, Some(e))]))
  {
  }

  lemma AnEffect(r: Run, t: ThreadId, at: Location, phase: Phase, e: Effect) returns (r': Run)
    requires IsRun(r) && WellFormed(Last(r)) && t in Last(r).threads && Last(r).threads[t] == Thread(0, at, Some(e))
    requires 0 in Last(r).shared.heap && Owner(Last(r), 0) && Last(r).shared.heap[0].phase == phase
    ensures Alive(r', t, AfterEffect(at, e, true), phase) && OnlyMoves(r, r', t)
  {
    var s' := PerformStep(Last(r), t, true).value;
    EffectKeepsTheOwner(Last(r), t);
    hide WellFormed, AfterEffect, OwnerIntact;
    r' := Extend(r, Perform(t, true), s');
  }

  lemma EffectKeepsTheOwner(s: State, t: ThreadId)
    requires WellFormed(s) && t in s.threads && s.threads[t].job == 0 && s.threads[t].armed.Some? && 0 in s.shared.heap && Owner(s, 0)
    ensures PerformStep(s, t, true).Some?
    ensures var (th, s') := (s.threads[t], PerformStep(s, t, true).value);
            && 0 in s'.shared.heap && Owner(s', 0) && s'.shared.heap[0].phase == s.shared.heap[0].phase
            && s'.threads == s.threads[t := Thread(0, AfterEffect(th.at, th.armed.value, true), None)]
  {
    hide WellFormed, AfterEffect;
  }

  // ---------- The run ----------

  // The whole archive has been pulled.
  lemma PullIsMeasured(r: Run, t: ThreadId, phase: Phase) returns (r': Run)
    requires Alive(r, t, PullArrived, phase)
    ensures Alive(r', t, PullKept, phase) && OnlyMoves(r, r', t) && Last(r').shared.heap[0].held.full
  {
    MeasureKeepsTheOwner(Last(r), t);
    hide WellFormed, OwnerIntact;
    r' := Extend(r, Measure(t, true, PullKept), MeasureStep(Last(r), t, true, PullKept).value);
  }

  lemma MeasureKeepsTheOwner(s: State, t: ThreadId)
    requires WellFormed(s) && Free(s, t, 0, PullArrived) && 0 in s.shared.heap && Owner(s, 0)
    ensures MeasureStep(s, t, true, PullKept).Some?
    ensures var s' := MeasureStep(s, t, true, PullKept).value;
            && 0 in s'.shared.heap && Owner(s', 0) && s'.shared.heap[0].phase == s.shared.heap[0].phase && s'.shared.heap[0].held.full
            && s'.threads == s.threads[t := Thread(0, PullKept, None)]
  {
    hide WellFormed;
  }

  lemma Uploading1(id: string, a: Session) returns (r: Run)
    ensures Alive(r, 1, UploadJoin, Uploading) && 9 !in Last(r).threads
  {
    r := FirstJobPulling(id, a);
    hide IsRun, WellFormed;
    r := AMove(r, 1, PullEntry, Pulling, PullArrived);
    r := PullIsMeasured(r, 1, Pulling);
    r := UploadIsReached(r);
  }

  lemma UploadIsReached(r: Run) returns (r': Run)
    requires Alive(r, 1, PullKept, Pulling) && 9 !in Last(r).threads
    ensures Alive(r', 1, UploadJoin, Uploading) && 9 !in Last(r').threads
  {
    hide IsRun, WellFormed, OwnerIntact, Classifies, Normalizes;
    r' := AWrite(r, 1, PullKept, Pulling, Uploading, UploadEntry);
    r' := AMove(r', 1, UploadEntry, Uploading, UploadJoin);
  }

  // A worker sends one part and registers it.
  lemma AWorkerStarts(r: Run) returns (r': Run)
    requires Alive(r, 1, UploadJoin, Uploading) && 9 !in Last(r).threads
    ensures Alive(r', 9, WorkerLoop(1), Uploading) && Free(Last(r'), 1, 0, UploadJoin)
  {
    var s := Last(r);
    hide WellFormed, OwnerIntact;
    r' := Extend(r, SpawnWorker(1, 9), s.(threads := s.threads[9 := Thread(0, WorkerLoop(1), None)]));
  }

  lemma APartIsSent(r: Run) returns (r': Run)
    requires Alive(r, 9, WorkerLoop(1), Uploading) && Free(Last(r), 1, 0, UploadJoin)
    ensures Alive(r', 9, WorkerSent(1), Uploading) && Free(Last(r'), 1, 0, UploadJoin)
  {
    hide IsRun, WellFormed;
    r' := AMove(r, 9, WorkerLoop(1), Uploading, WorkerReading(1));
    r' := ATestedEffect(r', 9, WorkerReading(1), Uploading, PutPart(1));
  }

  lemma APartIsRegistered(r: Run) returns (r': Run)
    requires Alive(r, 9, WorkerSent(1), Uploading) && Free(Last(r), 1, 0, UploadJoin)
    ensures Alive(r', 1, UploadJoin, Uploading) && Last(r').shared.heap[0].held.parts
    ensures var s := Last(r').shared; s.heap[0].id in s.journal && s.journal[s.heap[0].id] == 0
  {
    SaveKeepsTheOwner(Last(r));
    hide WellFormed, OwnerIntact;
    r' := Extend(r, LockedSave(9), LockedSaveStep(Last(r), 9).value);
  }

  lemma SaveKeepsTheOwner(s: State)
    requires WellFormed(s) && Free(s, 9, 0, WorkerSent(1)) && 0 in s.shared.heap && Owner(s, 0)
    ensures LockedSaveStep(s, 9).Some?
    ensures var s' := LockedSaveStep(s, 9).value;
            && 0 in s'.shared.heap && Owner(s', 0) && s'.shared.heap[0].phase == s.shared.heap[0].phase && s'.shared.heap[0].held.parts
            && s'.shared.heap[0].id in s'.shared.journal && s'.shared.journal[s'.shared.heap[0].id] == 0
            && s'.threads == s.threads[9 := Thread(0, WorkerLoop(1), None)]
  {
    hide WellFormed;
  }

  lemma AskedToMerge(r: Run) returns (r': Run)
    requires Alive(r, 1, UploadJoin, Uploading)
    ensures Alive(r', 1, Completed, Completing)
  {
    hide IsRun, WellFormed, OwnerIntact;
    r' := AWrite(r, 1, UploadJoin, Uploading, Completing, UploadJoin);
    r' := AMove(r', 1, UploadJoin, Completing, CompleteEntry);
    r' := ATestedEffect(r', 1, CompleteEntry, Completing, PostComplete);
  }

  lemma Settled1(r: Run) returns (r': Run)
    requires Alive(r, 1, Completed, Completing)
    ensures Alive(r', 1, Closing, Completing)
  {
    hide IsRun, WellFormed, OwnerIntact;
    r' := AMove(r, 1, Completed, Completing, Settling);
    r' := ATestedEffect(r', 1, Settling, Completing, RemoveCopy);
  }

  lemma Ended(r: Run) returns (r': Run)
    requires Alive(r, 1, Closing, Completing)
    ensures IsRun(r') && Free(Last(r'), 1, 0, Exited) && 0 in Last(r').shared.heap && Last(r').shared.heap[0].phase == Done
  {
    r' := ADone(r);
    hide IsRun, WellFormed, OwnerIntact;
    r' := AMove(r', 1, Concluded, Done, Leaving);
    r' := CleanUp(r', 1, Last(r').shared.heap[0].id);
  }

  lemma ADone(r: Run) returns (r': Run)
    requires Alive(r, 1, Closing, Completing)
    ensures Alive(r', 1, Concluded, Done)
  {
    hide IsRun, WellFormed, Normalizes, Classifies;
    r' := AWrite(r, 1, Closing, Completing, Done, Concluded);
  }

  // A submitted job is collected, pulled, uploaded by a worker, completed and done.
  lemma DeliveryMayBeDone(id: string, a: Session) returns (r: Run)
    ensures IsRun(r) && Free(Last(r), 1, 0, Exited) && 0 in Last(r).shared.heap && Last(r).shared.heap[0].phase == Done
  {
    r := Uploading1(id, a);
    hide IsRun, WellFormed;
    r := AWorkerStarts(r);
    r := APartIsSent(r);
    r := APartIsRegistered(r);
    r := AskedToMerge(r);
    r := Settled1(r);
    r := Ended(r);
  }
}
