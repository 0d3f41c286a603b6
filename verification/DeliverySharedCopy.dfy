/**
  The local copy that the generations of a task share, and the two effects on it that no ownership
  test precedes: pullArchive removes a file that is too long and appends every block it reads.
*/
module DeliverySharedCopy {
  import opened DeliveryContinuations
  import opened DeliveryDrivers
  import opened DeliveryFencing
  import opened DeliveryLostJobs
  import opened DeliveryPhases
  import opened DeliverySteps
  import opened Options

  // Goroutine t removes or extends the copy on behalf of job j at step i, untested.
  ghost predicate Touches(r: Run, i: nat, t: ThreadId, j: JobRef)
    requires IsRun(r)
  {
    && i < |r.steps| && (r.steps[i] == RemoveLocal(t) || r.steps[i] == AppendLocal(t))
    && t in r.states[i].threads && r.states[i].threads[t].job == j
  }

  // A job that lost ownership touches the copy only if it could at the loss, as DeliveryLostJobs says.
  lemma LateTouchWasPossible(r: Run, k: nat, i: nat, t: ThreadId, j: JobRef)
    requires IsRun(r) && Lost(r, k, j) && k <= i && Touches(r, i, t, j)
    ensures CanStillTouch(r.states[k], j)
  {
    assert Linked(r, i);
    assert OnBranch(r.states[i], t, j);
    CouldTouchBefore(r, k, i, j);
  }

  // ---------- A job that still can may do so without bound ----------

  function Blocks(s: State, id: string): seq<JobRef> { if id in s.copies then s.copies[id] else [] }

  function Times(j: JobRef, n: nat): seq<JobRef> { if n == 0 then [] else Times(j, n - 1) + [j] }

  // One more block from the read loop.
  lemma AppendOnce(r: Run, t: ThreadId, j: JobRef) returns (r': Run)
    requires IsRun(r) && WellFormed(Last(r)) && Free(Last(r), t, j, PullLoop)
    ensures GoesOn(r, r', j) && Free(Last(r'), t, j, PullLoop)
    ensures Blocks(Last(r'), Last(r).shared.heap[j].id) == Blocks(Last(r), Last(r).shared.heap[j].id) + [j]
    ensures |r'.steps| == |r.steps| + 1 && Touches(r', |r.steps|, t, j)
  {
    var s := Last(r);
    r' := Extend(r, AppendLocal(t), s.(copies := Appended(s.copies, s.shared.heap[j].id, j)));
  }

  // A continuation that added n blocks of job j to the copy of task id, the last of them with its last step.
  ghost predicate Grew(r: Run, r': Run, t: ThreadId, j: JobRef, id: string, n: nat) {
    && GoesOn(r, r', j) && Free(Last(r'), t, j, PullLoop)
    && Blocks(Last(r'), id) == Blocks(Last(r), id) + Times(j, n)
    && (n > 0 ==> |r'.steps| > |r.steps| && Touches(r', |r'.steps| - 1, t, j))
  }

  lemma GrewOnce(r: Run, r1: Run, r': Run, t: ThreadId, j: JobRef, id: string, n: nat)
    requires Grew(r, r1, t, j, id, n) && GoesOn(r1, r', j) && Free(Last(r'), t, j, PullLoop)
    requires Blocks(Last(r'), id) == Blocks(Last(r1), id) + [j]
    requires |r'.steps| == |r1.steps| + 1 && Touches(r', |r1.steps|, t, j)
    ensures Grew(r, r', t, j, id, n + 1)
  {
    var before := Blocks(Last(r), id);
    GoesOnTwice(r, r1, r', j);
    assert before + Times(j, n) + [j] == before + Times(j, n + 1);
  }

  lemma GrowsOnce(r: Run, r1: Run, t: ThreadId, j: JobRef, id: string, n: nat) returns (r': Run)
    requires Grew(r, r1, t, j, id, n) && id == Last(r).shared.heap[j].id
    ensures Grew(r, r', t, j, id, n + 1)
  {
    hide IsRun, WellFormed, Free, Touches, Blocks, Times;
    r' := AppendOnce(r1, t, j);
    GrewOnce(r, r1, r', t, j, id, n);
  }

  lemma NothingYet(r: Run, r': Run, t: ThreadId, j: JobRef, id: string)
    requires Calmly(r, r', j) && Free(Last(r'), t, j, PullLoop)
    ensures Grew(r, r', t, j, id, 0)
  {
    assert Blocks(Last(r), id) + Times(j, 0) == Blocks(Last(r), id);
  }

  // The read loop appends as long as the node sends and no notice has come; no ownership test ends it.
  lemma {:induction false} AppendsAreUnbounded(r: Run, t: ThreadId, j: JobRef, n: nat) returns (r': Run)
    requires IsRun(r) && WellFormed(Last(r)) && OnBranch(Last(r), t, j)
    ensures Grew(r, r', t, j, Last(r).shared.heap[j].id, n)
    decreases n
  {
    var id := Last(r).shared.heap[j].id;
    hide OnBranch, Grew, Calmly, WellFormed;
    if n == 0 {
      r' := ReachLoop(r, t, j);
      NothingYet(r, r', t, j, id);
    } else {
      var r1 := AppendsAreUnbounded(r, t, j, n - 1);
      r' := GrowsOnce(r, r1, t, j, id, n - 1);
    }
  }

  // Some continuation of the run touches the copy on behalf of job j.
  ghost predicate MayTouchLater(r: Run, j: JobRef)
    requires IsRun(r)
  {
    exists r': Run, i: nat, t: ThreadId :: IsRun(r') && Extends(r, r') && |r.steps| <= i && Touches(r', i, t, j)
  }

  lemma OnBranchTouches(r: Run, r0: Run, t: ThreadId, j: JobRef)
    requires Calmly(r, r0, j) && OnBranch(Last(r0), t, j)
    ensures MayTouchLater(r, j)
  {
    var r' := AppendsAreUnbounded(r0, t, j, 1);
    GoesOnTwice(r, r0, r', j);
    assert Touches(r', |r'.steps| - 1, t, j) && |r.steps| <= |r'.steps| - 1;
  }

  lemma LeadsTouches(r: Run, r0: Run, t: ThreadId, j: JobRef)
    requires Calmly(r, r0, j) && Leads(Last(r0), t, j)
    ensures MayTouchLater(r, j)
  {
    var r1 := ReachBranch(r0, t, j);
    GoesOnTwice(r, r0, r1, j);
    OnBranchTouches(r, r1, t, j);
  }

  lemma RevivesTouches(r: Run, t: ThreadId, j: JobRef)
    requires IsRun(r) && WellFormed(Last(r)) && Revives(Last(r), t, j) && !Owner(Last(r), j)
    ensures MayTouchLater(r, j)
  {
    if LeadsToPull(Last(r).shared.heap[j].phase) {
      StartsCalmly(r, j);
      LeadsTouches(r, r, t, j);
    } else {
      var r0 := RevivesLeads(r, t, j);
      LeadsTouches(r, r0, t, j);
    }
  }

  // The exact extent of the leak: a job that is no longer the owner can still remove or extend the
  // copy of its replacement if and only if one of its goroutines is on the pull branch and not past
  // pullArchive, or is bound for that branch, or waits before the normalization of a job that is
  // retrying, or may be set back to it, and may then have nothing to upload.
  lemma LostJobMayTouchLaterIff(r: Run, j: JobRef)
    requires IsRun(r) && Lost(r, |r.steps|, j)
    ensures MayTouchLater(r, j) <==> CanStillTouch(Last(r), j)
  {
    RunStatesAreWellFormed(r, |r.steps|);
    if MayTouchLater(r, j) {
      var r': Run, i: nat, t: ThreadId :| IsRun(r') && Extends(r, r') && |r.steps| <= i && Touches(r', i, t, j);
      assert r'.states[|r.steps|] == Last(r);
      LateTouchWasPossible(r', |r.steps|, i, t, j);
    }
    if CanStillTouch(Last(r), j) {
      StartsCalmly(r, j);
      hide IsRun, WellFormed, OnBranch, Bound, Revives, Calmly;
      if t :| OnBranch(Last(r), t, j) {
        OnBranchTouches(r, r, t, j);
      } else if t :| Bound(Last(r), t, j) {
        LeadsTouches(r, r, t, j);
      } else {
        var t :| Revives(Last(r), t, j);
        RevivesTouches(r, t, j);
      }
    }
  }

  // For a job that is marked as replaced it takes a stall: without one seen, and with no phase watched
  // or to be watched any more, only the first two ways are left.
  lemma MarkedJobsNeedAStall(r: Run, j: JobRef)
    requires IsRun(r) && Lost(r, |r.steps|, j) && Last(r).shared.heap[j].superseded && Last(r).shared.heap[j].phase == Failed
    requires forall u :: Of(Last(r), u, j) ==> u !in Last(r).dogs.noticed && u !in Last(r).dogs.stalled && !MayUpload(Last(r), u, j)
    ensures MayTouchLater(r, j) <==> exists t :: OnBranch(Last(r), t, j)
  {
    LostJobMayTouchLaterIff(r, j);
  }

  // ---------- The same for a job that is driven once ----------

  // A job is lost only to a submit, which finds it over or marks it as failed.
  lemma LossIsASubmit(s: State, step: Step, j: JobRef)
    requires WellFormed(s) && Apply(s, step).Some? && Owner(s, j) && !step.Submit?
    ensures Owner(Apply(s, step).value, j)
  {
    OthersKeepTheMark(s, step, j);
    if step.Recover? {
      hide WellFormed;
    } else {
      OthersKeepTheJobs(s, step);
      IdStays(s, step, j);
      hide Apply, WellFormed;
    }
  }

  lemma IdStays(s: State, step: Step, j: JobRef)
    requires WellFormed(s) && Apply(s, step).Some? && j in s.shared.heap
    ensures j in Apply(s, step).value.shared.heap && Apply(s, step).value.shared.heap[j].id == s.shared.heap[j].id
  {
    StepEvolves(s, step);
  }

  lemma OthersKeepTheJobs(s: State, step: Step)
    requires WellFormed(s) && Apply(s, step).Some? && !step.Submit? && !step.Recover?
    ensures Apply(s, step).value.shared.jobs == s.shared.jobs
  {
    hide Apply, WellFormed;
    if KeepsShared(step) {
      SharedIsKept(s, step);
    } else if WritesJob(step) {
      OnlyTheHeapChanges(s, step);
    } else {
      RecordsKeepTheJobs(s, step);
    }
  }

  lemma RecordsKeepTheJobs(s: State, step: Step)
    requires WellFormed(s) && Apply(s, step).Some? && (step.Perform? || step.RegisterRun? || step.LockedSave? || step.Leave?)
    ensures Apply(s, step).value.shared.jobs == s.shared.jobs
  {
    hide WellFormed, OwnerIntact, AfterEffect;
  }

  lemma LossEndsTheJob(s: State, step: Step, j: JobRef)
    requires WellFormed(s) && Apply(s, step).Some? && Owner(s, j) && !Owner(Apply(s, step).value, j)
    ensures j in Apply(s, step).value.shared.heap && Apply(s, step).value.shared.heap[j].phase.Terminal()
  {
    if step.Submit? {
      SubmitEndsTheJob(s, step, j);
    } else {
      LossIsASubmit(s, step, j);
    }
  }

  lemma SubmitEndsTheJob(s: State, step: Step, j: JobRef)
    requires WellFormed(s) && Apply(s, step).Some? && step.Submit? && Owner(s, j) && !Owner(Apply(s, step).value, j)
    ensures j in Apply(s, step).value.shared.heap && Apply(s, step).value.shared.heap[j].phase.Terminal()
  {
  }

  predicate BeforeSwitch(s: State, t: ThreadId, j: JobRef) { Of(s, t, j) && 0 < Rank(s.threads[t].at) < 3 }

  // A lost job stays over while its only goroutine has not come to the switch.
  lemma {:induction false} StaysOver(r: Run, k: nat, t: ThreadId, j: JobRef)
    requires IsRun(r) && k <= |r.steps| && Lost(r, k, j) && ResumesWhenFree(r, k, j) && BeforeSwitch(r.states[k], t, j)
    ensures r.states[k].shared.heap[j].phase.Terminal()
    decreases k
  {
    if k > 0 {
      WasBeforeSwitch(r, k - 1, t, j);
      if Lost(r, k - 1, j) {
        StaysOver(r, k - 1, t, j);
        StaysOverOnce(r, k - 1, t, j);
      } else {
        assert Linked(r, k - 1);
        LossEndsTheJob(r.states[k - 1], r.steps[k - 1], j);
      }
    }
  }

  lemma WasBeforeSwitch(r: Run, k: nat, t: ThreadId, j: JobRef)
    requires IsRun(r) && k < |r.steps| && Lost(r, k + 1, j) && BeforeSwitch(r.states[k + 1], t, j)
    ensures j in r.states[k].shared.heap && (Lost(r, k, j) ==> BeforeSwitch(r.states[k], t, j))
  {
    OneStep(r, k, t);
    RunStatesAreWellFormed(r, k);
  }

  lemma StaysOverOnce(r: Run, k: nat, t: ThreadId, j: JobRef)
    requires IsRun(r) && k < |r.steps| && Lost(r, k, j) && ResumesWhenFree(r, k, j) && BeforeSwitch(r.states[k], t, j)
    requires r.states[k].shared.heap[j].phase.Terminal()
    ensures j in r.states[k + 1].shared.heap && r.states[k + 1].shared.heap[j].phase.Terminal()
  {
    assert InRunOf(r.states[k], t, j);
    LostStepChanges(r, k, j);
    if r.states[k + 1].shared.heap[j].phase != r.states[k].shared.heap[j].phase {
      NobodyElseWrites(r, k, t, j);
    }
  }

  lemma NobodyElseWrites(r: Run, k: nat, t: ThreadId, j: JobRef)
    requires IsRun(r) && k < |r.steps| && ResumesWhenFree(r, k, j) && BeforeSwitch(r.states[k], t, j)
    requires r.states[k].shared.heap[j].phase.Terminal() && r.steps[k].WritePhase?
    requires WritesPhase(r.states[k], r.steps[k], j, r.steps[k].p)
    ensures r.steps[k].p == Failed
  {
    var s, u := r.states[k], r.steps[k].t;
    if Holds(s.threads[u].at) {
      OneGoroutineDrives(r, k, t, u, j);
    }
  }

  // For a lost job that is driven once the other ways do not exist: what counts is whether its goroutine
  // is on the pull branch and not past pullArchive.
  lemma SingleRunMayTouchLaterIff(r: Run, j: JobRef)
    requires IsRun(r) && Lost(r, |r.steps|, j) && ResumesWhenFree(r, |r.steps|, j)
    ensures MayTouchLater(r, j) <==> exists t :: OnBranch(Last(r), t, j)
  {
    LostJobMayTouchLaterIff(r, j);
    var n := |r.steps|;
    forall t ensures !Bound(Last(r), t, j) && !Revives(Last(r), t, j) {
      if BeforeSwitch(Last(r), t, j) {
        StaysOver(r, n, t, j);
        forall u ensures !MayRetry(Last(r), t, u, j) {
          NobodyElseRetries(r, t, u, j);
        }
      }
    }
  }

  lemma NobodyElseRetries(r: Run, t: ThreadId, u: ThreadId, j: JobRef)
    requires IsRun(r) && ResumesWhenFree(r, |r.steps|, j) && BeforeSwitch(Last(r), t, j)
    ensures !MayRetry(Last(r), t, u, j)
  {
    if MayRetry(Last(r), t, u, j) {
      RetriersHold(Last(r), t, u, j);
      OneGoroutineDrives(r, |r.steps|, t, u, j);
    }
  }

  lemma RetriersHold(s: State, t: ThreadId, u: ThreadId, j: JobRef)
    requires MayRetry(s, t, u, j)
    ensures Holds(s.threads[u].at)
  {
  }

  // ---------- Three runs ----------

  lemma FirstJobPulling(id: string, a: Session) returns (r: Run)
    ensures IsRun(r) && WellFormed(Last(r)) && Last(r) == FirstAt(id, a, Pulling, PullEntry)
  {
    r := FirstJobCollecting(id, a);
    r := FirstWrites(r, id, a, WaitingCollect, Collecting, Pulling, Collected);
    r := FirstMoves(r, id, a, Pulling, Collected, PullEntry);
  }

  // Job 0 is about to start pullArchive on goroutine 1 when job 1 replaces it.
  ghost predicate Overtaken(s: State, id: string) {
    && 0 in s.shared.heap && 1 in s.shared.heap && s.shared.heap[0].id == s.shared.heap[1].id == id
    && s.shared.jobs == map[id := 1] && s.shared.heap[0].superseded && !s.shared.heap[1].superseded
    && Free(s, 1, 0, PullEntry) && s.dogs == CALM
  }

  lemma FirstJobReplaced(id: string, a: Session, b: Session) returns (r: Run)
    requires a != b
    ensures IsRun(r) && WellFormed(Last(r)) && Overtaken(Last(r), id) && 3 !in Last(r).threads && Free(Last(r), 2, 1, SubmitEnqueue)
    ensures Last(r).queue == [] && Last(r).copies == map[] && Last(r).shared.heap[1].phase == WaitingCollect
  {
    r := FirstJobPulling(id, a);
    r := SecondJobSubmitted(r, id, b);
  }

  lemma RegisteredBeside(s: State, s': State, id: string)
    requires Overtaken(s, id) && Free(s, 2, 1, SubmitEnqueue)
    requires s' == Taken(s, 2, 3, 1, Advancing).(shared := s.shared.(cancels := s.shared.cancels[id := 3]))
    ensures Overtaken(s', id) && Free(s', 3, 1, Advancing) && s'.copies == s.copies && s'.shared.heap == s.shared.heap
  {
  }

  lemma SecondJobRegistered(id: string, a: Session, b: Session) returns (r: Run)
    requires a != b
    ensures IsRun(r) && WellFormed(Last(r)) && Overtaken(Last(r), id) && Free(Last(r), 3, 1, Advancing) && Last(r).copies == map[]
    ensures Last(r).shared.heap[1].phase == WaitingCollect
  {
    r := FirstJobReplaced(id, a, b);
    var s := Last(r);
    r := QueueAndRegister(r, 2, 3, 1, id);
    hide IsRun, WellFormed;
    RegisteredBeside(s, Last(r), id);
  }

  lemma SecondMoves(r: Run, id: string, at: Location, to: Location) returns (r': Run)
    requires IsRun(r) && WellFormed(Last(r)) && Overtaken(Last(r), id) && Free(Last(r), 3, 1, at) && MayMove(Last(r).shared, 1, at, to)
    ensures IsRun(r') && WellFormed(Last(r')) && Overtaken(Last(r'), id) && Free(Last(r'), 3, 1, to)
    ensures Last(r').copies == Last(r).copies && Last(r').shared == Last(r).shared
  {
    hide MayMove;
    r' := Go(r, 3, to);
  }

  lemma SecondWrites(r: Run, id: string, at: Location, p: Phase, to: Location) returns (r': Run)
    requires IsRun(r) && WellFormed(Last(r)) && Overtaken(Last(r), id) && Free(Last(r), 3, 1, at) && at != UploadBroken && at != PostFailed
    requires MayWritePhase(Last(r).shared, 1, at, p, false, to, false)
    ensures IsRun(r') && WellFormed(Last(r')) && Overtaken(Last(r'), id) && Free(Last(r'), 3, 1, to)
    ensures Last(r').copies == Last(r).copies && Last(r').shared.heap[1].phase == p
  {
    hide MayWritePhase;
    r' := Write(r, 3, p, to);
  }

  lemma SecondJobCollecting(id: string, a: Session, b: Session) returns (r: Run)
    requires a != b
    ensures IsRun(r) && WellFormed(Last(r)) && Overtaken(Last(r), id) && Free(Last(r), 3, 1, Collecting) && Last(r).copies == map[]
  {
    r := SecondJobRegistered(id, a, b);
    hide IsRun, WellFormed;
    r := SecondWrites(r, id, Advancing, WaitingCollect, Switching);
    r := SecondMoves(r, id, Switching, Collecting);
  }

  lemma SecondJobPulling(id: string, a: Session, b: Session) returns (r: Run)
    requires a != b
    ensures IsRun(r) && WellFormed(Last(r)) && Overtaken(Last(r), id) && Free(Last(r), 3, 1, PullLoop) && Last(r).copies == map[]
  {
    r := SecondJobCollecting(id, a, b);
    hide IsRun, WellFormed, OwnerIntact, Classifies, Normalizes, Stage;
    r := SecondWrites(r, id, Collecting, Pulling, Collected);
    r := SecondMoves(r, id, Collected, PullEntry);
    r := SecondMoves(r, id, PullEntry, PullLoop);
  }

  lemma SecondJobAppended(id: string, a: Session, b: Session) returns (r: Run)
    requires a != b
    ensures IsRun(r) && WellFormed(Last(r)) && Overtaken(Last(r), id) && Last(r).copies == map[id := [1]]
  {
    r := SecondJobPulling(id, a, b);
    var s := Last(r);
    var none: seq<JobRef> := [];
    assert none + [1] == [1];
    r := Extend(r, AppendLocal(3), s.(copies := Appended(s.copies, id, 1)));
  }

  // The copy of the owner ends with a block of the job it replaced.
  lemma ReplacedPullExtendsTheCopy(id: string, a: Session, b: Session) returns (r: Run)
    requires a != b
    ensures IsRun(r) && 1 in Last(r).shared.heap && Owner(Last(r), 1) && 0 in Last(r).shared.heap && !Owner(Last(r), 0)
    ensures id in Last(r).copies && Last(r).copies[id] == [1, 0]
  {
    r := SecondJobAppended(id, a, b);
    r := Go(r, 1, PullLoop);
    var s := Last(r);
    r := Extend(r, AppendLocal(1), s.(copies := Appended(s.copies, id, 0)));
  }

  // The copy the owner is writing is removed by the job it replaced.
  lemma ReplacedPullRemovesTheCopy(id: string, a: Session, b: Session) returns (r: Run)
    requires a != b
    ensures IsRun(r) && |r.steps| > 0 && 1 in Last(r).shared.heap && Owner(Last(r), 1) && 0 in Last(r).shared.heap && !Owner(Last(r), 0)
    ensures id in r.states[|r.steps| - 1].copies && r.states[|r.steps| - 1].copies[id] == [1] && id !in Last(r).copies
  {
    var r0 := SecondJobAppended(id, a, b);
    var s := Last(r0);
    r := Extend(r0, RemoveLocal(1), MoveTo(s, 1, PullLoop).(copies := s.copies - {id}));
  }

  // Job 0 alone, with a stall that the watchdog of goroutine 1 has marked.
  ghost function StalledAt(id: string, a: Session, at: Location): State {
    FirstAt(id, a, Pulling, at).(dogs := Dogs({1}, {1}))
  }

  lemma FirstJobStalled(id: string, a: Session) returns (r: Run)
    ensures IsRun(r) && WellFormed(Last(r)) && Last(r) == StalledAt(id, a, PullLoop)
  {
    r := FirstJobPulling(id, a);
    r := FirstMoves(r, id, a, Pulling, PullEntry, PullLoop);
    r := Noticed(r, 1, 0);
    r := Marked(r, 1, 0);
    var none: set<ThreadId> := {};
    assert none + {1} == {1};
  }

  // Its pull breaks, and it is past pullArchive.
  lemma StalledPullFails(id: string, a: Session) returns (r: Run)
    ensures IsRun(r) && WellFormed(Last(r)) && Last(r) == StalledAt(id, a, PullFailed)
  {
    r := FirstJobStalled(id, a);
    r := Go(r, 1, PullBroken);
    assert Last(r).threads == StalledAt(id, a, PullBroken).threads;
    StalledMeasure(id, a);
    hide IsRun, WellFormed, MeasureStep;
    r := Extend(r, Measure(1, false, PullFailed), StalledAt(id, a, PullFailed));
  }

  lemma StalledMeasure(id: string, a: Session)
    requires WellFormed(StalledAt(id, a, PullBroken))
    ensures MeasureStep(StalledAt(id, a, PullBroken), 1, false, PullFailed) == Some(StalledAt(id, a, PullFailed))
  {
    var s, s' := StalledAt(id, a, PullFailed), MeasureStep(StalledAt(id, a, PullBroken), 1, false, PullFailed).value;
    assert s.threads == s'.threads && s.shared.heap == s'.shared.heap;
  }

  // The job is resumed meanwhile, and registers a second run on goroutine 3.
  lemma ResumedBeside(id: string, a: Session) returns (r: Run)
    ensures IsRun(r) && WellFormed(Last(r)) && 5 !in Last(r).threads && Last(r).dogs == Dogs({1}, {1})
    ensures Last(r).shared.heap == map[0 := Job(id, a, Retrying, false, false, NOTHING_HELD)] && Last(r).shared.jobs == map[id := 0]
    ensures Free(Last(r), 1, 0, PullFailed) && Free(Last(r), 3, 0, Advancing)
    ensures forall t <- Last(r).threads | t != 1 && t != 3 :: Last(r).threads[t].at == Exited
  {
    r := StalledPullFails(id, a);
    var s := Last(r);
    r := Extend(r, Resume(id, 2), s.(shared := ResumeLocked(s.shared, 0), threads := s.threads[2 := Thread(0, ResumeSaving, None)]));
    r := QueueAndRegister(r, 2, 3, 0, id);
  }

  // Then job 1 replaces it.
  lemma TwiceDrivenReplaced(r: Run, id: string, a: Session, b: Session) returns (r': Run)
    requires IsRun(r) && WellFormed(Last(r)) && a != b && 5 !in Last(r).threads
    requires Last(r).shared.heap == map[0 := Job(id, a, Retrying, false, false, NOTHING_HELD)] && Last(r).shared.jobs == map[id := 0]
    ensures IsRun(r') && WellFormed(Last(r')) && 0 in Last(r').shared.heap && Last(r').shared.heap[0] == Job(id, a, Failed, true, false, NOTHING_HELD)
    ensures Last(r').threads == Last(r).threads[5 := Thread(1, SubmitSaving, Some(SaveJournal))] && Last(r').dogs == Last(r).dogs
  {
    var job := Job(id, b, WaitingCollect, false, false, NOTHING_HELD);
    r' := Extend(r, Submit(1, job, 5), SubmitStep(Last(r), 1, job, 5).value);
  }

  lemma OnlyTheStallHelps(s: State)
    requires 0 in s.shared.heap && s.shared.heap[0].phase == Failed && s.shared.heap[0].superseded && s.shared.heap[0].held == NOTHING_HELD
    requires Free(s, 1, 0, PullFailed) && Free(s, 3, 0, Advancing) && s.dogs == Dogs({1}, {1})
    requires forall t <- s.threads | t != 1 && t != 3 && t != 5 :: s.threads[t].at == Exited
    requires 5 in s.threads && s.threads[5].job == 1
    ensures forall t :: !OnBranch(s, t, 0) && !Bound(s, t, 0)
    ensures CanStillTouch(s, 0)
  {
    assert MayRetry(s, 3, 1, 0);
    assert Revives(s, 3, 0);
  }

  // Driven twice, a replaced job none of whose goroutines is on the pull branch or bound for it may still
  // get there: one goroutine has stalled in its pull and is past it, and writes retrying whatever
  // happened since; the other one has not normalized the phase.
  lemma SecondDriverRevivesThePull(id: string, a: Session, b: Session) returns (r: Run)
    requires a != b
    ensures IsRun(r) && Lost(r, |r.steps|, 0) && MayTouchLater(r, 0)
    ensures Last(r).shared.heap[0].superseded && forall t :: !OnBranch(Last(r), t, 0) && !Bound(Last(r), t, 0)
  {
    r := ResumedBeside(id, a);
    r := TwiceDrivenReplaced(r, id, a, b);
    OnlyTheStallHelps(Last(r));
    LostJobMayTouchLaterIff(r, 0);
  }
}
