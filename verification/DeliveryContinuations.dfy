/**
  How a run may go on for a job that is no longer the owner: along the pull branch, to the end of a
  failed round, and back to retrying. These are the continuations behind DeliveryLostJobs.CanStillTouch.
*/
module DeliveryContinuations {
  import opened DeliveryFencing
  import opened DeliveryLostJobs
  import opened DeliveryPhases
  import opened DeliverySteps
  import opened Options

  // A continuation in which job j keeps its id and its mark, and is still not the owner if it was not.
  ghost predicate GoesOn(r: Run, r': Run, j: JobRef) {
    && IsRun(r) && IsRun(r') && Extends(r, r') && WellFormed(Last(r'))
    && j in Last(r).shared.heap && j in Last(r').shared.heap
    && Last(r').shared.heap[j].id == Last(r).shared.heap[j].id
    && Last(r').shared.heap[j].superseded == Last(r).shared.heap[j].superseded
    && Last(r').shared.jobs == Last(r).shared.jobs
  }

  // ... and nothing is written to a copy.
  ghost predicate Calmly(r: Run, r': Run, j: JobRef) {
    GoesOn(r, r', j) && Last(r').copies == Last(r).copies
  }

  lemma GoesOnTwice(r: Run, r1: Run, r2: Run, j: JobRef)
    requires GoesOn(r, r1, j) && GoesOn(r1, r2, j)
    ensures GoesOn(r, r2, j)
    ensures Calmly(r, r1, j) && Calmly(r1, r2, j) ==> Calmly(r, r2, j)
  {
  }

  lemma StartsCalmly(r: Run, j: JobRef)
    requires IsRun(r) && WellFormed(Last(r)) && j in Last(r).shared.heap
    ensures Calmly(r, r, j)
  {
  }

  // Goroutine t of job j, with nothing pending.
  predicate Free(s: State, t: ThreadId, j: JobRef, at: Location) {
    t in s.threads && s.threads[t] == Thread(j, at, None)
  }

  // Steps of goroutine u alone, with nothing pulled or uploaded for job j.
  ghost predicate Alone(r: Run, r': Run, u: ThreadId, j: JobRef) {
    && Calmly(r, r', j) && u in Last(r').threads && Last(r').threads == Last(r).threads[u := Last(r').threads[u]]
    && Last(r').dogs == Last(r).dogs
    && (GoesToUpload(Last(r').shared.heap[j]) ==> GoesToUpload(Last(r).shared.heap[j]))
  }

  lemma AloneTwice(r: Run, r1: Run, r2: Run, u: ThreadId, j: JobRef)
    requires Alone(r, r1, u, j) && Alone(r1, r2, u, j)
    ensures Alone(r, r2, u, j)
  {
    GoesOnTwice(r, r1, r2, j);
  }

  lemma Moved(r: Run, t: ThreadId, j: JobRef, at: Location, to: Location) returns (r': Run)
    requires IsRun(r) && WellFormed(Last(r)) && Free(Last(r), t, j, at) && MayMove(Last(r).shared, j, at, to)
    ensures Alone(r, r', t, j) && Free(Last(r'), t, j, to) && Last(r').shared == Last(r).shared
  {
    hide MayMove;
    r' := Go(r, t, to);
  }

  lemma Written(r: Run, t: ThreadId, j: JobRef, at: Location, p: Phase, to: Location) returns (r': Run)
    requires IsRun(r) && WellFormed(Last(r)) && Free(Last(r), t, j, at) && at != UploadBroken && at != PostFailed
    requires MayWritePhase(Last(r).shared, j, at, p, false, to, t in Last(r).dogs.stalled)
    ensures Alone(r, r', t, j) && Free(Last(r'), t, j, to) && Last(r').shared == SetPhase(Last(r).shared, j, p, false)
  {
    hide MayWritePhase;
    r' := Write(r, t, p, to);
  }

  // A pull turns out not to be complete.
  lemma Measured(r: Run, t: ThreadId, j: JobRef, at: Location, to: Location) returns (r': Run)
    requires IsRun(r) && WellFormed(Last(r)) && Free(Last(r), t, j, at) && MayMeasure(at, to)
    ensures Alone(r, r', t, j) && Free(Last(r'), t, j, to) && Last(r').shared.heap[j].phase == Last(r).shared.heap[j].phase
    ensures !Last(r').shared.heap[j].held.full && Last(r').shared.heap[j].held.parts == Last(r).shared.heap[j].held.parts
    ensures Last(r').shared.heap[j].held.insecure == Last(r).shared.heap[j].held.insecure
  {
    hide MayMeasure;
    r' := Extend(r, Measure(t, false, to), MeasureStep(Last(r), t, false, to).value);
  }

  // Where a goroutine comes when what it has pending fails.
  function AfterFailure(th: Thread): Location {
    if th.armed.Some? then AfterEffect(th.at, th.armed.value, false) else th.at
  }

  lemma Disarmed(r: Run, t: ThreadId, j: JobRef) returns (r': Run)
    requires IsRun(r) && WellFormed(Last(r)) && Of(Last(r), t, j)
    ensures Alone(r, r', t, j) && Free(Last(r'), t, j, AfterFailure(Last(r).threads[t]))
    ensures Last(r').shared.heap[j].phase == Last(r).shared.heap[j].phase
    ensures Last(r').shared.heap[j].held.insecure == Last(r).shared.heap[j].held.insecure
    ensures Discarding(Last(r).threads[t]) ==> !GoesToUpload(Last(r').shared.heap[j])
  {
    if Last(r).threads[t].armed.Some? {
      r' := PendingFails(r, t, j);
    } else {
      r' := r;
      StartsCalmly(r, j);
      hide IsRun, WellFormed;
    }
  }

  lemma PendingFails(r: Run, t: ThreadId, j: JobRef) returns (r': Run)
    requires IsRun(r) && WellFormed(Last(r)) && Of(Last(r), t, j) && Last(r).threads[t].armed.Some?
    ensures Alone(r, r', t, j) && Free(Last(r'), t, j, AfterFailure(Last(r).threads[t]))
    ensures Last(r').shared.heap[j].phase == Last(r).shared.heap[j].phase
    ensures Last(r').shared.heap[j].held.insecure == Last(r).shared.heap[j].held.insecure
    ensures Discarding(Last(r).threads[t]) ==> !GoesToUpload(Last(r').shared.heap[j])
  {
    var s' := PerformStep(Last(r), t, false).value;
    FailedPending(Last(r), t, j);
    hide IsRun, WellFormed, PerformStep, AfterFailure, Discarding;
    r' := Extend(r, Perform(t, false), s');
  }

  lemma FailedPending(s: State, t: ThreadId, j: JobRef)
    requires WellFormed(s) && Of(s, t, j) && s.threads[t].armed.Some?
    ensures PerformStep(s, t, false).Some?
    ensures var s' := PerformStep(s, t, false).value;
            && s'.threads == s.threads[t := Thread(j, AfterFailure(s.threads[t]), None)]
            && s'.copies == s.copies && s'.dogs == s.dogs && s'.shared.jobs == s.shared.jobs && j in s'.shared.heap
            && var (before, after) := (s.shared.heap[j], s'.shared.heap[j]);
               && after.(held := before.held) == before && after.held.insecure == before.held.insecure
               && (GoesToUpload(after) ==> GoesToUpload(before))
               && (Discarding(s.threads[t]) ==> !GoesToUpload(after))
  {
    hide AfterEffect, WellFormed;
  }

  // What is pending there is a journal write at most, which leaves the goroutine where it is.
  lemma FailureStays(th: Thread)
    requires Fits(th) && (OnPullBranch(th.at) || th.at == UploadJoin || th.at == UploadBroken || (th.at == PullKept && !Discarding(th)))
    ensures AfterFailure(th) == th.at
  {
  }

  lemma Settled(r: Run, t: ThreadId, j: JobRef) returns (r': Run)
    requires IsRun(r) && WellFormed(Last(r)) && Of(Last(r), t, j)
    requires var th := Last(r).threads[t]; OnPullBranch(th.at) || th.at == UploadJoin || th.at == UploadBroken || (th.at == PullKept && !Discarding(th))
    ensures Alone(r, r', t, j) && Free(Last(r'), t, j, Last(r).threads[t].at)
    ensures Last(r').shared.heap[j].phase == Last(r).shared.heap[j].phase
    ensures Last(r').shared.heap[j].held.insecure == Last(r).shared.heap[j].held.insecure
  {
    PendingFits(r, |r.steps|, t);
    FailureStays(Last(r).threads[t]);
    r' := Disarmed(r, t, j);
  }

  // ---------- Along the pull branch ----------

  // A goroutine on the pull branch may finish what is pending and go on to the read loop.
  lemma ReachLoop(r: Run, t: ThreadId, j: JobRef) returns (r': Run)
    requires IsRun(r) && WellFormed(Last(r)) && OnBranch(Last(r), t, j)
    ensures Calmly(r, r', j) && Free(Last(r'), t, j, PullLoop)
  {
    var at := Last(r).threads[t].at;
    assert at == Collecting || at == Collected || at == PullEntry || at == PullLoop;
    var r0 := Settled(r, t, j);
    hide IsRun, WellFormed, GoesOn, Free, OnBranch, Rank, GoesToUpload;
    if at == Collecting {
      r0 := ReachCollected(r, r0, t, j);
      at := Collected;
    }
    r' := ReachLoopFrom(r, r0, t, j, at);
  }

  lemma ReachCollected(r: Run, r0: Run, t: ThreadId, j: JobRef) returns (r': Run)
    requires Calmly(r, r0, j) && Free(Last(r0), t, j, Collecting)
    ensures Calmly(r, r', j) && Free(Last(r'), t, j, Collected)
  {
    r' := Written(r0, t, j, Collecting, Pulling, Collected);
    GoesOnTwice(r, r0, r', j);
  }

  lemma ReachLoopFrom(r: Run, r0: Run, t: ThreadId, j: JobRef, from: Location) returns (r': Run)
    requires Calmly(r, r0, j) && Free(Last(r0), t, j, from) && (from == Collected || from == PullEntry || from == PullLoop)
    ensures Calmly(r, r', j) && Free(Last(r'), t, j, PullLoop)
  {
    r' := r0;
    var at := from;
    if at == Collected {
      var r1 := Moved(r', t, j, Collected, PullEntry);
      GoesOnTwice(r, r', r1, j);
      r', at := r1, PullEntry;
    }
    if at == PullEntry {
      var r1 := Moved(r', t, j, PullEntry, PullLoop);
      GoesOnTwice(r, r', r1, j);
      r' := r1;
    }
  }

  // A goroutine before the switch may take the pull branch: one that is bound for it, and one that has
  // not normalized the phase of a retrying job that has nothing to upload.
  predicate Leads(s: State, t: ThreadId, j: JobRef) {
    Bound(s, t, j) || (Of(s, t, j) && s.threads[t].at == Advancing && s.shared.heap[j].phase == Retrying && !GoesToUpload(s.shared.heap[j]))
  }

  lemma ReachSwitch(r: Run, t: ThreadId, j: JobRef) returns (r': Run)
    requires IsRun(r) && WellFormed(Last(r)) && Leads(Last(r), t, j)
    ensures Calmly(r, r', j) && Free(Last(r'), t, j, Switching) && LeadsToPull(Last(r').shared.heap[j].phase)
  {
    PendingFits(r, |r.steps|, t);
    r' := r;
    if Last(r).threads[t].at == Advancing {
      var p := if Last(r).shared.heap[j].phase == Pulling then Pulling else WaitingCollect;
      assert MayWritePhase(Last(r).shared, j, Advancing, p, false, Switching, t in Last(r).dogs.stalled);
      hide MayWritePhase, IsRun, WellFormed;
      r' := Written(r, t, j, Advancing, p, Switching);
    } else {
      StartsCalmly(r, j);
    }
  }

  lemma ReachBranch(r: Run, t: ThreadId, j: JobRef) returns (r': Run)
    requires IsRun(r) && WellFormed(Last(r)) && Leads(Last(r), t, j)
    ensures Calmly(r, r', j) && OnBranch(Last(r'), t, j)
  {
    var r0 := ReachSwitch(r, t, j);
    SwitchLeads(Last(r0).shared, j);
    hide IsRun, WellFormed, MayMove, Stage, OnPullBranch, LeadsToPull, Leads;
    r' := Moved(r0, t, j, Switching, Stage(Last(r0).shared.heap[j].phase));
    GoesOnTwice(r, r0, r', j);
  }

  lemma SwitchLeads(s: Shared, j: JobRef)
    requires j in s.heap && LeadsToPull(s.heap[j].phase)
    ensures MayMove(s, j, Switching, Stage(s.heap[j].phase)) && OnPullBranch(Stage(s.heap[j].phase))
  {
  }

  // ---------- To the end of a round ----------

  // The test for deleting the copy refuses a job that is not the owner.
  lemma Refused(r: Run, u: ThreadId, j: JobRef) returns (r': Run)
    requires IsRun(r) && WellFormed(Last(r)) && Free(Last(r), u, j, Settling) && !Owner(Last(r), j)
    ensures Alone(r, r', u, j) && Free(Last(r'), u, j, Barred) && Last(r').shared == Last(r).shared
  {
    r' := Extend(r, Check(u, RemoveCopy), MoveTo(Last(r), u, Barred));
  }

  // Where a goroutine goes on to the end of its round.
  function Onward(job: Job, at: Location): Location {
    match at
    case Switching => if job.phase.WaitingCollect? || job.phase.Pulling? then Barred else Stage(job.phase)
    case PullEntry | PullKept | UploadBroken => Finishing
    case PullLoop => PullBroken
    case PullBroken => PullFailed
    case PullArrived => PullKept
    case Completed => Settling
    case _ => Barred
  }

  // One step of that way.
  lemma OneOnward(r: Run, u: ThreadId, j: JobRef, at: Location) returns (r': Run)
    requires IsRun(r) && WellFormed(Last(r)) && Free(Last(r), u, j, at) && !Owner(Last(r), j)
    requires 0 < Rank(at) < Rank(Finishing) && (at == Closing ==> Last(r).shared.heap[j].superseded)
    ensures Alone(r, r', u, j) && Free(Last(r'), u, j, Onward(Last(r).shared.heap[j], at))
    ensures Last(r').shared.heap[j].phase == Last(r).shared.heap[j].phase
  {
    var to := Onward(Last(r).shared.heap[j], at);
    hide WellFormed;
    if at == PullBroken || at == PullArrived {
      r' := Measured(r, u, j, at, to);
    } else if at == Settling {
      r' := Refused(r, u, j);
    } else {
      OnwardMayMove(Last(r).shared, j, at);
      hide MayMove, Onward;
      r' := Moved(r, u, j, at, to);
    }
  }

  lemma OnwardMayMove(s: Shared, j: JobRef, at: Location)
    requires j in s.heap && 0 < Rank(at) < Rank(Finishing) && (at == Closing ==> s.heap[j].superseded)
    requires at != PullBroken && at != PullArrived && at != Settling
    ensures MayMove(s, j, at, Onward(s.heap[j], at))
  {
  }

  lemma OnwardIsFurther(job: Job, at: Location)
    requires 0 < Rank(at) < Rank(Finishing)
    ensures Rank(at) < Rank(Onward(job, at)) <= Rank(Barred) && Onward(job, at) != Closing
  {
  }

  lemma {:induction false} FreeToEnd(r: Run, u: ThreadId, j: JobRef, at: Location) returns (r': Run)
    requires IsRun(r) && WellFormed(Last(r)) && Free(Last(r), u, j, at) && !Owner(Last(r), j)
    requires 0 < Rank(at) <= Rank(Barred) && (at == Closing ==> Last(r).shared.heap[j].superseded)
    ensures Alone(r, r', u, j) && (Free(Last(r'), u, j, Finishing) || Free(Last(r'), u, j, Barred))
    decreases Rank(Barred) - Rank(at)
  {
    if at == Finishing || at == Barred {
      r' := r;
      StartsCalmly(r, j);
    } else {
      var to := Onward(Last(r).shared.heap[j], at);
      OnwardIsFurther(Last(r).shared.heap[j], at);
      var r1 := OneOnward(r, u, j, at);
      hide IsRun, WellFormed;
      r' := FreeToEnd(r1, u, j, to);
      AloneTwice(r, r1, r', u, j);
    }
  }

  // What is pending fails, and the goroutine is still on its way to an error.
  lemma FailureIsOnTheWay(s: State, u: ThreadId, j: JobRef)
    requires EndsBadly(s, u, j) && Fits(s.threads[u])
    ensures var at := AfterFailure(s.threads[u]); 0 < Rank(at) <= Rank(Barred) && (at == Closing ==> s.shared.heap[j].superseded)
  {
  }

  // Any goroutine of a lost job that may end with an error may do so.
  lemma ToEnd(r: Run, u: ThreadId, j: JobRef) returns (r': Run)
    requires IsRun(r) && WellFormed(Last(r)) && EndsBadly(Last(r), u, j) && !Owner(Last(r), j)
    ensures Alone(r, r', u, j) && (Free(Last(r'), u, j, Finishing) || Free(Last(r'), u, j, Barred))
  {
    PendingFits(r, |r.steps|, u);
    FailureIsOnTheWay(Last(r), u, j);
    var r0 := Disarmed(r, u, j);
    r' := FreeToEnd(r0, u, j, AfterFailure(Last(r).threads[u]));
    hide IsRun, WellFormed, GoesOn;
    AloneTwice(r, r0, r', u, j);
  }

  // ---------- Who helps moves aside ----------

  // A continuation in which t stays where it is, j is no nearer to uploading, and no watchdog forgets.
  ghost predicate Beside(r: Run, r': Run, t: ThreadId, j: JobRef) {
    && Calmly(r, r', j) && t in Last(r).threads && t in Last(r').threads && Last(r').threads[t] == Last(r).threads[t]
    && (GoesToUpload(Last(r').shared.heap[j]) ==> GoesToUpload(Last(r).shared.heap[j]))
    && Last(r).dogs.noticed <= Last(r').dogs.noticed && Last(r).dogs.stalled <= Last(r').dogs.stalled
  }

  lemma BesideTwice(r: Run, r1: Run, r2: Run, t: ThreadId, j: JobRef)
    requires Beside(r, r1, t, j) && Beside(r1, r2, t, j)
    ensures Beside(r, r2, t, j)
  {
    GoesOnTwice(r, r1, r2, j);
  }

  lemma AloneIsBeside(r: Run, r': Run, u: ThreadId, t: ThreadId, j: JobRef)
    requires Alone(r, r', u, j) && u != t && t in Last(r).threads
    ensures Beside(r, r', t, j)
  {
  }

  lemma StillLost(r: Run, r': Run, j: JobRef)
    requires GoesOn(r, r', j) && !Owner(Last(r), j)
    ensures !Owner(Last(r'), j)
  {
  }

  // ---------- Making the phase uploading ----------

  // Worker x fails, and the upload of run w with it.
  lemma WorkerFails(r: Run, w: ThreadId, x: ThreadId, j: JobRef) returns (r': Run)
    requires IsRun(r) && WellFormed(Last(r)) && MayBreak(Last(r), w, x) && j in Last(r).shared.heap && Last(r).threads[x].job == j
    ensures Alone(r, r', x, j) && Last(r').threads[x].at == WorkerFailed(w)
    ensures Last(r').shared.heap[j].phase == Last(r).shared.heap[j].phase
    ensures Last(r').shared.heap[j].held.insecure == Last(r).shared.heap[j].held.insecure
  {
    PendingFits(r, |r.steps|, x);
    if Last(r).threads[x].at == WorkerReading(w) && Last(r).threads[x].armed == None {
      r' := Moved(r, x, j, WorkerReading(w), WorkerFailed(w));
    } else {
      WorkerFailure(Last(r).threads[x], w);
      r' := Disarmed(r, x, j);
    }
  }

  lemma WorkerFailure(th: Thread, w: ThreadId)
    requires Fits(th) && (th.at == WorkerFailed(w) || (th.at == WorkerReading(w) && th.armed.Some?))
    ensures AfterFailure(th) == WorkerFailed(w)
  {
  }

  lemma UploadBreaks(r: Run, w: ThreadId, x: ThreadId, j: JobRef) returns (r': Run)
    requires IsRun(r) && WellFormed(Last(r)) && Free(Last(r), w, j, UploadJoin) && x in Last(r).threads && Last(r).threads[x].at == WorkerFailed(w)
    ensures Alone(r, r', w, j) && Free(Last(r'), w, j, UploadBroken) && Last(r').shared == Last(r).shared
  {
    r' := Extend(r, PartFailed(w, x), MoveTo(Last(r), w, UploadBroken));
  }

  // A worker of a run has the job of the run.
  lemma WorkersJob(r: Run, w: ThreadId, x: ThreadId, j: JobRef)
    requires IsRun(r) && Of(Last(r), w, j) && MayBreak(Last(r), w, x)
    ensures Last(r).threads[x].job == j && x != w
  {
    WorkersHaveRuns(r, |r.steps|, x, w);
  }

  // The upload of run w is broken, with t and u where they were.
  lemma BreakUpload(r: Run, w: ThreadId, j: JobRef) returns (r': Run, x: ThreadId)
    requires IsRun(r) && WellFormed(Last(r)) && Of(Last(r), w, j) && Last(r).threads[w].at == UploadJoin && Breaks(Last(r), w)
    ensures Calmly(r, r', j) && Free(Last(r'), w, j, UploadBroken)
    ensures x in Last(r).threads && IsWorker(Last(r).threads[x].at) && x in Last(r').threads
    ensures Last(r').threads == Last(r).threads[w := Last(r').threads[w]][x := Last(r').threads[x]]
    ensures Last(r').dogs == Last(r).dogs && Last(r').shared.heap[j].phase == Last(r).shared.heap[j].phase
    ensures Last(r').shared.heap[j].held.insecure == Last(r).shared.heap[j].held.insecure
    ensures GoesToUpload(Last(r').shared.heap[j]) ==> GoesToUpload(Last(r).shared.heap[j])
  {
    x :| MayBreak(Last(r), w, x);
    WorkersJob(r, w, x, j);
    var r1 := Settled(r, w, j);
    assert MayBreak(Last(r1), w, x);
    assert IsWorker(Last(r).threads[x].at);
    hide IsRun, WellFormed, MayBreak, Rank, GoesToUpload, IsWorker, Breaks;
    r' := BreakFrom(r1, w, x, j);
    GoesOnTwice(r, r1, r', j);
    UpdatedTwice(Last(r).threads, w, x, Last(r1).threads[w], Last(r').threads[w], Last(r').threads[x]);
  }

  lemma UpdatedTwice(m: map<ThreadId, Thread>, w: ThreadId, x: ThreadId, a: Thread, b: Thread, c: Thread)
    requires w != x
    ensures m[w := a][w := b][x := c] == m[w := b][x := c]
    ensures m[x := c][w := b] == m[w := b][x := c]
  {
  }

  lemma BreakFrom(r: Run, w: ThreadId, x: ThreadId, j: JobRef) returns (r': Run)
    requires IsRun(r) && WellFormed(Last(r)) && Free(Last(r), w, j, UploadJoin) && MayBreak(Last(r), w, x)
    requires j in Last(r).shared.heap && Last(r).threads[x].job == j
    ensures Calmly(r, r', j) && Free(Last(r'), w, j, UploadBroken) && x in Last(r').threads
    ensures Last(r').threads == Last(r).threads[w := Last(r').threads[w]][x := Last(r').threads[x]]
    ensures Last(r').dogs == Last(r).dogs && Last(r').shared.heap[j].phase == Last(r).shared.heap[j].phase
    ensures Last(r').shared.heap[j].held.insecure == Last(r).shared.heap[j].held.insecure
    ensures GoesToUpload(Last(r').shared.heap[j]) ==> GoesToUpload(Last(r).shared.heap[j])
  {
    var r1 := WorkerFails(r, w, x, j);
    assert x != w;
    hide IsRun, WellFormed, MayBreak, GoesToUpload;
    r' := UploadBreaks(r1, w, x, j);
    GoesOnTwice(r, r1, r', j);
    UpdatedTwice(Last(r).threads, w, x, Last(r).threads[w], Last(r').threads[w], Last(r').threads[x]);
  }

  // The one-time relaxation of TLS.
  lemma Relaxed(r: Run, w: ThreadId, j: JobRef) returns (r': Run)
    requires IsRun(r) && WellFormed(Last(r)) && Free(Last(r), w, j, UploadBroken) && !Last(r).shared.heap[j].held.insecure
    ensures Alone(r, r', w, j) && Free(Last(r'), w, j, UploadBroken) && Last(r').shared.heap[j].phase == Uploading
  {
    r' := Extend(r, WritePhase(w, Uploading, false, UploadBroken), WritePhaseStep(Last(r), w, Uploading, false, UploadBroken).value);
  }

  // Nobody but w and workers has moved, and w is in its upload.
  predicate OnlyUploads(s: State, s': State, w: ThreadId, j: JobRef) {
    && (Free(s', w, j, UploadEntry) || Free(s', w, j, UploadBroken))
    && forall y <- s.threads | y != w && !IsWorker(s.threads[y].at) :: y in s'.threads && s'.threads[y] == s.threads[y]
  }

  lemma PulledUp(r: Run, w: ThreadId, j: JobRef) returns (r': Run)
    requires IsRun(r) && WellFormed(Last(r)) && Of(Last(r), w, j)
    requires Last(r).threads[w].at == PullArrived || (Last(r).threads[w].at == PullKept && !Discarding(Last(r).threads[w]))
    ensures Alone(r, r', w, j) && Free(Last(r'), w, j, UploadEntry) && Last(r').shared.heap[j].phase == Uploading
  {
    var r0 := PulledKept(r, w, j);
    KeptMayUpload(Last(r0).shared, j, w in Last(r0).dogs.stalled);
    hide IsRun, WellFormed, Discarding, GoesToUpload, MayWritePhase;
    r' := Written(r0, w, j, PullKept, Uploading, UploadEntry);
    AloneTwice(r, r0, r', w, j);
  }

  lemma KeptMayUpload(s: Shared, j: JobRef, stalled: bool)
    requires j in s.heap
    ensures MayWritePhase(s, j, PullKept, Uploading, false, UploadEntry, stalled)
  {
  }

  lemma PulledKept(r: Run, w: ThreadId, j: JobRef) returns (r': Run)
    requires IsRun(r) && WellFormed(Last(r)) && Of(Last(r), w, j)
    requires Last(r).threads[w].at == PullArrived || (Last(r).threads[w].at == PullKept && !Discarding(Last(r).threads[w]))
    ensures Alone(r, r', w, j) && Free(Last(r'), w, j, PullKept)
  {
    if Last(r).threads[w].at == PullArrived {
      PendingFits(r, |r.steps|, w);
      r' := Measured(r, w, j, PullArrived, PullKept);
    } else {
      r' := Settled(r, w, j);
    }
  }

  lemma RelaxedUp(r: Run, w: ThreadId, j: JobRef) returns (r': Run)
    requires IsRun(r) && WellFormed(Last(r)) && Of(Last(r), w, j) && Last(r).threads[w].at == UploadBroken && !Last(r).shared.heap[j].held.insecure
    ensures Alone(r, r', w, j) && Free(Last(r'), w, j, UploadBroken) && Last(r').shared.heap[j].phase == Uploading
  {
    var r0 := Settled(r, w, j);
    hide IsRun, WellFormed;
    r' := Relaxed(r0, w, j);
    AloneTwice(r, r0, r', w, j);
  }

  lemma BrokenUp(r: Run, w: ThreadId, t: ThreadId, j: JobRef) returns (r': Run)
    requires IsRun(r) && WellFormed(Last(r)) && Of(Last(r), w, j) && Last(r).threads[w].at == UploadJoin && Breaks(Last(r), w)
    requires !Last(r).shared.heap[j].held.insecure && t in Last(r).threads && t != w && !IsWorker(Last(r).threads[t].at)
    ensures Beside(r, r', t, j) && OnlyUploads(Last(r), Last(r'), w, j) && Last(r').shared.heap[j].phase == Uploading
  {
    var r0, x := BreakUpload(r, w, j);
    r' := Relaxed(r0, w, j);
    GoesOnTwice(r, r0, r', j);
  }

  // Whoever may write uploading does so.
  lemma MakeUploading(r: Run, w: ThreadId, t: ThreadId, j: JobRef) returns (r': Run)
    requires IsRun(r) && WellFormed(Last(r)) && MayUpload(Last(r), w, j) && t in Last(r).threads && t != w && !IsWorker(Last(r).threads[t].at)
    ensures Beside(r, r', t, j) && OnlyUploads(Last(r), Last(r'), w, j) && Last(r').shared.heap[j].phase == Uploading
  {
    var at := Last(r).threads[w].at;
    if at == UploadJoin {
      r' := BrokenUp(r, w, t, j);
    } else {
      if at == UploadBroken {
        r' := RelaxedUp(r, w, j);
      } else {
        r' := PulledUp(r, w, j);
      }
      AloneIsBeside(r, r', w, t, j);
    }
  }

  // ---------- Stalls ----------

  lemma Noticed(r: Run, u: ThreadId, j: JobRef) returns (r': Run)
    requires IsRun(r) && WellFormed(Last(r)) && Of(Last(r), u, j) && InRun(Last(r).threads[u].at) && Watched(Last(r).shared.heap[j].phase)
    ensures Calmly(r, r', j) && Last(r') == Last(r).(dogs := Last(r).dogs.(noticed := Last(r).dogs.noticed + {u}))
  {
    r' := Extend(r, Notice(u), NoticeStep(Last(r), u).value);
  }

  lemma Marked(r: Run, u: ThreadId, j: JobRef) returns (r': Run)
    requires IsRun(r) && WellFormed(Last(r)) && u in Last(r).dogs.noticed && j in Last(r).shared.heap
    ensures Calmly(r, r', j) && Last(r') == Last(r).(dogs := Last(r).dogs.(stalled := Last(r).dogs.stalled + {u}))
  {
    r' := Extend(r, MarkStalled(u), MarkStalledStep(Last(r), u).value);
  }

  lemma UploadsKeepEnds(s: State, s': State, w: ThreadId, u: ThreadId, j: JobRef)
    requires OnlyUploads(s, s', w, j) && EndsBadly(s, u, j) && j in s'.shared.heap && s'.shared.heap[j].superseded == s.shared.heap[j].superseded
    ensures EndsBadly(s', u, j)
  {
  }

  // The phase is watched, if nobody has noticed a stall of u yet.
  lemma MakeWatched(r: Run, t: ThreadId, u: ThreadId, j: JobRef) returns (r': Run)
    requires IsRun(r) && WellFormed(Last(r)) && Of(Last(r), t, j) && Last(r).threads[t].at == Advancing
    requires u != t && EndsBadly(Last(r), u, j) && Stalls(Last(r), u, j)
    ensures Beside(r, r', t, j) && EndsBadly(Last(r'), u, j)
    ensures u in Last(r').dogs.noticed || u in Last(r').dogs.stalled || Watched(Last(r').shared.heap[j].phase)
  {
    if u in Last(r).dogs.noticed || u in Last(r).dogs.stalled || Watched(Last(r).shared.heap[j].phase) {
      r' := r;
      StartsCalmly(r, j);
    } else {
      var w :| MayUpload(Last(r), w, j);
      hide IsRun, WellFormed, EndsBadly, OnlyUploads;
      r' := MakeUploading(r, w, t, j);
      UploadsKeepEnds(Last(r), Last(r'), w, u, j);
    }
  }

  lemma Stalled(r: Run, t: ThreadId, u: ThreadId, j: JobRef) returns (r': Run)
    requires IsRun(r) && WellFormed(Last(r)) && Of(Last(r), t, j) && Last(r).threads[t].at == Advancing
    requires u != t && EndsBadly(Last(r), u, j) && Stalls(Last(r), u, j)
    ensures Beside(r, r', t, j) && EndsBadly(Last(r'), u, j) && u in Last(r').dogs.stalled
  {
    r' := MakeWatched(r, t, u, j);
    hide IsRun, WellFormed, Stalls, Rank;
    r' := StalledFrom(r, r', t, u, j);
  }

  lemma StalledFrom(r: Run, r0: Run, t: ThreadId, u: ThreadId, j: JobRef) returns (r': Run)
    requires Beside(r, r0, t, j) && EndsBadly(Last(r0), u, j)
    requires u in Last(r0).dogs.noticed || u in Last(r0).dogs.stalled || Watched(Last(r0).shared.heap[j].phase)
    ensures Beside(r, r', t, j) && EndsBadly(Last(r'), u, j) && u in Last(r').dogs.stalled
  {
    r' := r0;
    if u !in Last(r').dogs.stalled {
      if u !in Last(r').dogs.noticed {
        var r1 := Noticed(r', u, j);
        GoesOnTwice(r, r', r1, j);
        r' := r1;
      }
      var r2 := Marked(r', u, j);
      GoesOnTwice(r, r', r2, j);
      r' := r2;
    }
  }

  // Where a failed round goes on, if it is not for the credentials.
  function EndOf(job: Job, retried: bool): Location { if retried && !job.needsReauth then Finished else Concluded }

  lemma EndMayBeWritten(s: Shared, j: JobRef, at: Location, stalled: bool)
    requires j in s.heap && (at == Finishing || at == Barred)
    ensures MayWritePhase(s, j, at, if stalled then Retrying else Failed, false, EndOf(s.heap[j], stalled), stalled)
  {
  }

  // A stalled run ends, and the phase is retrying whatever the error.
  lemma StallIsRetried(r: Run, t: ThreadId, u: ThreadId, j: JobRef) returns (r': Run)
    requires IsRun(r) && WellFormed(Last(r)) && Of(Last(r), t, j) && !Owner(Last(r), j)
    requires u != t && EndsBadly(Last(r), u, j) && u in Last(r).dogs.stalled
    ensures Beside(r, r', t, j) && Last(r').shared.heap[j].phase == Retrying
  {
    var r1 := ToEnd(r, u, j);
    AloneIsBeside(r, r1, u, t, j);
    EndMayBeWritten(Last(r1).shared, j, Last(r1).threads[u].at, true);
    hide IsRun, WellFormed, EndsBadly, GoesToUpload, OwnerIntact, MayWritePhase, EndOf;
    r' := Written(r1, u, j, Last(r1).threads[u].at, Retrying, EndOf(Last(r1).shared.heap[j], true));
    AloneIsBeside(r1, r', u, t, j);
    BesideTwice(r, r1, r', t, j);
  }

  // ---------- Plain failures ----------

  // From a place where an error may be an ordinary one.
  lemma PlainlyFrom(r: Run, u: ThreadId, j: JobRef, at: Location) returns (r': Run)
    requires IsRun(r) && WellFormed(Last(r)) && Free(Last(r), u, j, at)
    requires at == PullFailed || at == PullKept || at == UploadEntry || at == UploadBroken || at == PostFailed
    ensures Alone(r, r', u, j) && Free(Last(r'), u, j, Finishing)
  {
    r' := Moved(r, u, j, at, Finishing);
  }

  lemma MeasuredPlainly(r: Run, u: ThreadId, j: JobRef, at: Location) returns (r': Run)
    requires IsRun(r) && WellFormed(Last(r)) && Free(Last(r), u, j, at) && (at == PullBroken || at == PullArrived)
    ensures Alone(r, r', u, j) && Free(Last(r'), u, j, Finishing)
  {
    var to := if at == PullBroken then PullFailed else PullKept;
    var r0 := Measured(r, u, j, at, to);
    r' := PlainlyFrom(r0, u, j, to);
    AloneTwice(r, r0, r', u, j);
  }

  // The places where u needs no help.
  predicate Unaided(th: Thread) {
    match th.at
    case PullBroken | PullArrived | UploadEntry | UploadBroken | PostFailed | Finishing => true
    case PullFailed | PullKept => th.armed != Some(RemoveCopy)
    case CompleteEntry => th.armed == Some(PostComplete)
    case _ => false
  }

  lemma UnaidedFailure(th: Thread)
    requires Unaided(th) && Fits(th)
    ensures AfterFailure(th) == if th.at == CompleteEntry then PostFailed else th.at
  {
  }

  lemma FailUnaided(r: Run, u: ThreadId, j: JobRef) returns (r': Run)
    requires IsRun(r) && WellFormed(Last(r)) && Of(Last(r), u, j) && Unaided(Last(r).threads[u])
    ensures Alone(r, r', u, j) && Free(Last(r'), u, j, Finishing)
  {
    PendingFits(r, |r.steps|, u);
    UnaidedFailure(Last(r).threads[u]);
    var at := AfterFailure(Last(r).threads[u]);
    var r0 := Disarmed(r, u, j);
    hide IsRun, WellFormed, GoesOn;
    if at == Finishing {
      r' := r0;
    } else {
      if at == PullBroken || at == PullArrived {
        r' := MeasuredPlainly(r0, u, j, at);
      } else {
        r' := PlainlyFrom(r0, u, j, at);
      }
      AloneTwice(r, r0, r', u, j);
    }
  }

  // The end of such a round, if the job is not marked.
  lemma PlainIsRetried(r: Run, t: ThreadId, u: ThreadId, j: JobRef) returns (r': Run)
    requires IsRun(r) && WellFormed(Last(r)) && Of(Last(r), t, j) && u != t
    requires Free(Last(r), u, j, Finishing) && !Last(r).shared.heap[j].superseded
    ensures Beside(r, r', t, j) && Last(r').shared.heap[j].phase == Retrying
  {
    r' := Written(r, u, j, Finishing, Retrying, if Last(r).shared.heap[j].needsReauth then Concluded else Finished);
    AloneIsBeside(r, r', u, t, j);
  }

  lemma UnaidedIsRetried(r: Run, t: ThreadId, u: ThreadId, j: JobRef) returns (r': Run)
    requires IsRun(r) && WellFormed(Last(r)) && Of(Last(r), t, j) && u != t && Of(Last(r), u, j)
    requires Unaided(Last(r).threads[u]) && !Last(r).shared.heap[j].superseded
    ensures Beside(r, r', t, j) && Last(r').shared.heap[j].phase == Retrying
  {
    var r0 := FailUnaided(r, u, j);
    AloneIsBeside(r, r0, u, t, j);
    r' := PlainIsRetried(r0, t, u, j);
    BesideTwice(r, r0, r', t, j);
  }

  lemma BrokenIsRetried(r: Run, t: ThreadId, u: ThreadId, j: JobRef) returns (r': Run)
    requires IsRun(r) && WellFormed(Last(r)) && Of(Last(r), t, j) && !IsWorker(Last(r).threads[t].at) && u != t && Of(Last(r), u, j)
    requires Last(r).threads[u].at == UploadJoin && Breaks(Last(r), u) && !Last(r).shared.heap[j].superseded
    ensures Beside(r, r', t, j) && Last(r').shared.heap[j].phase == Retrying
  {
    var r0, x := BreakUpload(r, u, j);
    assert Beside(r, r0, t, j);
    r' := UnaidedIsRetried(r0, t, u, j);
    BesideTwice(r, r0, r', t, j);
  }

  // A goroutine at the switch of an uploading job.
  lemma SwitchedIsRetried(r: Run, t: ThreadId, u: ThreadId, j: JobRef) returns (r': Run)
    requires IsRun(r) && WellFormed(Last(r)) && Of(Last(r), t, j) && u != t && Free(Last(r), u, j, Switching)
    requires Last(r).shared.heap[j].phase == Uploading && !Last(r).shared.heap[j].superseded
    ensures Beside(r, r', t, j) && Last(r').shared.heap[j].phase == Retrying
  {
    var r0 := Moved(r, u, j, Switching, UploadEntry);
    AloneIsBeside(r, r0, u, t, j);
    r' := UnaidedIsRetried(r0, t, u, j);
    BesideTwice(r, r0, r', t, j);
  }

  lemma SwitchingIsRetried(r: Run, t: ThreadId, u: ThreadId, j: JobRef) returns (r': Run)
    requires IsRun(r) && WellFormed(Last(r)) && Of(Last(r), t, j) && Last(r).threads[t].at == Advancing && u != t
    requires Free(Last(r), u, j, Switching) && !Last(r).shared.heap[j].superseded
    requires Last(r).shared.heap[j].phase == Uploading || exists w :: MayUpload(Last(r), w, j)
    ensures Beside(r, r', t, j) && Last(r').shared.heap[j].phase == Retrying
  {
    if Last(r).shared.heap[j].phase == Uploading {
      r' := SwitchedIsRetried(r, t, u, j);
    } else {
      var w :| MayUpload(Last(r), w, j);
      var r0 := MakeUploading(r, w, t, j);
      r' := SwitchedIsRetried(r0, t, u, j);
      BesideTwice(r, r0, r', t, j);
    }
  }

  // Whoever may overwrite the phase leaves the job over, or retrying.
  lemma Overwritten(r: Run, w: ThreadId, j: JobRef) returns (r': Run)
    requires IsRun(r) && WellFormed(Last(r)) && MayOverwrite(Last(r), w, j) && !Owner(Last(r), j)
    ensures Alone(r, r', w, j) && (Last(r').shared.heap[j].phase.Terminal() || Last(r').shared.heap[j].phase == Retrying)
  {
    PendingFits(r, |r.steps|, w);
    if Last(r).threads[w].at == CancelMark {
      r' := Written(r, w, j, CancelMark, Failed, CancelSaving);
    } else if EndsBadly(Last(r), w, j) {
      r' := EndIsClassified(r, w, j);
    } else {
      r' := ClosedIsDone(r, w, j);
    }
  }

  lemma EndIsClassified(r: Run, w: ThreadId, j: JobRef) returns (r': Run)
    requires IsRun(r) && WellFormed(Last(r)) && EndsBadly(Last(r), w, j) && !Owner(Last(r), j)
    ensures Alone(r, r', w, j) && (Last(r').shared.heap[j].phase.Terminal() || Last(r').shared.heap[j].phase == Retrying)
  {
    var r0 := ToEnd(r, w, j);
    var at, stalled := Last(r0).threads[w].at, w in Last(r0).dogs.stalled;
    EndMayBeWritten(Last(r0).shared, j, at, stalled);
    hide IsRun, WellFormed, EndsBadly, GoesToUpload, OwnerIntact, MayWritePhase, EndOf;
    r' := Written(r0, w, j, at, if stalled then Retrying else Failed, EndOf(Last(r0).shared.heap[j], stalled));
    AloneTwice(r, r0, r', w, j);
  }

  // A job that is not marked, behind the last test.
  lemma ClosedIsDone(r: Run, w: ThreadId, j: JobRef) returns (r': Run)
    requires IsRun(r) && WellFormed(Last(r)) && Of(Last(r), w, j) && !Last(r).shared.heap[j].superseded
    requires var th := Last(r).threads[w]; th.at == Closing || (th.at == Settling && th.armed.Some?)
    ensures Alone(r, r', w, j) && Last(r').shared.heap[j].phase == Done
  {
    PendingFits(r, |r.steps|, w);
    ClosingAfterFailure(Last(r).threads[w]);
    var r0 := Disarmed(r, w, j);
    CloseMayBeWritten(Last(r0).shared, j, w in Last(r0).dogs.stalled);
    hide IsRun, WellFormed, AfterFailure, Discarding, GoesToUpload, Fits, MayWritePhase;
    r' := Written(r0, w, j, Closing, Done, Concluded);
    AloneTwice(r, r0, r', w, j);
  }

  lemma CloseMayBeWritten(s: Shared, j: JobRef, stalled: bool)
    requires j in s.heap && !s.heap[j].superseded
    ensures MayWritePhase(s, j, Closing, Done, false, Concluded, stalled)
  {
  }

  lemma ClosingAfterFailure(th: Thread)
    requires Fits(th) && (th.at == Closing || (th.at == Settling && th.armed.Some?))
    ensures AfterFailure(th) == Closing
  {
  }

  // A goroutine before the normalization of a job that is over, or uploading.
  lemma RefusedIsRetried(r: Run, t: ThreadId, u: ThreadId, j: JobRef) returns (r': Run)
    requires IsRun(r) && WellFormed(Last(r)) && Of(Last(r), t, j) && u != t && Free(Last(r), u, j, Advancing)
    requires !Last(r).shared.heap[j].superseded && (RefusesToAdvance(Last(r).shared.heap[j].phase) || Last(r).shared.heap[j].phase == Uploading)
    ensures Beside(r, r', t, j) && Last(r').shared.heap[j].phase == Retrying
  {
    var r0;
    if Last(r).shared.heap[j].phase == Uploading {
      r0 := Written(r, u, j, Advancing, Uploading, Switching);
      AloneIsBeside(r, r0, u, t, j);
      r' := SwitchedIsRetried(r0, t, u, j);
    } else {
      r0 := Moved(r, u, j, Advancing, Finishing);
      AloneIsBeside(r, r0, u, t, j);
      r' := PlainIsRetried(r0, t, u, j);
    }
    BesideTwice(r, r0, r', t, j);
  }

  lemma AdvancingIsRetried(r: Run, t: ThreadId, u: ThreadId, j: JobRef) returns (r': Run)
    requires IsRun(r) && WellFormed(Last(r)) && Of(Last(r), t, j) && u != t && Free(Last(r), u, j, Advancing) && !Owner(Last(r), j)
    requires !Last(r).shared.heap[j].superseded && !LeadsToPull(Last(r).shared.heap[j].phase) && Last(r).shared.heap[j].phase != Retrying
    requires Last(r).shared.heap[j].phase != Completing || exists w :: w != t && w != u && MayOverwrite(Last(r), w, j)
    ensures Beside(r, r', t, j) && Last(r').shared.heap[j].phase == Retrying
  {
    if Last(r).shared.heap[j].phase != Completing {
      r' := RefusedIsRetried(r, t, u, j);
    } else {
      var w :| w != t && w != u && MayOverwrite(Last(r), w, j);
      hide WellFormed, OwnerIntact, Beside;
      r' := OverwrittenIsRetried(r, t, u, w, j);
    }
  }

  // Whatever the phase, another goroutine w helps.
  lemma OverwrittenIsRetried(r: Run, t: ThreadId, u: ThreadId, w: ThreadId, j: JobRef) returns (r': Run)
    requires IsRun(r) && WellFormed(Last(r)) && Of(Last(r), t, j) && u != t && Free(Last(r), u, j, Advancing) && !Owner(Last(r), j)
    requires !Last(r).shared.heap[j].superseded && w != t && w != u && MayOverwrite(Last(r), w, j)
    ensures Beside(r, r', t, j) && Last(r').shared.heap[j].phase == Retrying
  {
    assert |r.states| > 0;
    hide IsRun, WellFormed, MayOverwrite, OwnerIntact, GoesToUpload;
    var r0 := Overwritten(r, w, j);
    AloneIsBeside(r, r0, w, t, j);
    if Last(r0).shared.heap[j].phase == Retrying {
      r' := r0;
    } else {
      r' := RefusedIsRetried(r0, t, u, j);
      BesideTwice(r, r0, r', t, j);
    }
  }

  // ---------- Retrying, with nothing to upload ----------

  // Whoever may set the phase back to retrying does so.
  lemma Retried(r: Run, t: ThreadId, u: ThreadId, j: JobRef) returns (r': Run)
    requires IsRun(r) && WellFormed(Last(r)) && Of(Last(r), t, j) && Last(r).threads[t].at == Advancing && !Owner(Last(r), j)
    requires MayRetry(Last(r), t, u, j) && !LeadsToPull(Last(r).shared.heap[j].phase) && Last(r).shared.heap[j].phase != Retrying
    ensures Beside(r, r', t, j) && Last(r').shared.heap[j].phase == Retrying
  {
    if EndsBadly(Last(r), u, j) && Stalls(Last(r), u, j) {
      var r0 := Stalled(r, t, u, j);
      StillLost(r, r0, j);
      r' := StallIsRetried(r0, t, u, j);
      BesideTwice(r, r0, r', t, j);
    } else {
      r' := RetriedPlainly(r, t, u, j);
    }
  }

  lemma RetriedPlainly(r: Run, t: ThreadId, u: ThreadId, j: JobRef) returns (r': Run)
    requires IsRun(r) && WellFormed(Last(r)) && Of(Last(r), t, j) && Last(r).threads[t].at == Advancing && !Owner(Last(r), j)
    requires u != t && Of(Last(r), u, j) && !Last(r).shared.heap[j].superseded && FailsPlainlyAt(Last(r), t, u, j, Last(r).threads[u])
    requires !LeadsToPull(Last(r).shared.heap[j].phase) && Last(r).shared.heap[j].phase != Retrying
    ensures Beside(r, r', t, j) && Last(r').shared.heap[j].phase == Retrying
  {
    PendingFits(r, |r.steps|, u);
    var th := Last(r).threads[u];
    match th.at
    case Advancing => r' := AdvancingIsRetried(r, t, u, j);
    case Switching => r' := SwitchingIsRetried(r, t, u, j);
    case UploadJoin => r' := BrokenIsRetried(r, t, u, j);
    case _ => r' := UnaidedIsRetried(r, t, u, j);
  }

  // What sends the job to uploading is thrown away.
  lemma Emptied(r: Run, t: ThreadId, v: ThreadId, j: JobRef) returns (r': Run)
    requires IsRun(r) && WellFormed(Last(r)) && Of(Last(r), t, j) && Last(r).threads[t].at == Advancing && MayEmpty(Last(r), v, j)
    ensures Alone(r, r', v, j) && !GoesToUpload(Last(r').shared.heap[j])
    ensures Last(r').shared.heap[j].phase == Last(r).shared.heap[j].phase
    ensures Last(r').shared.heap[j].held.insecure == Last(r).shared.heap[j].held.insecure
    ensures Last(r').threads[v] == Thread(j, EmptiedTo(Last(r).threads[v]), None)
  {
    PendingFits(r, |r.steps|, v);
    var at := Last(r).threads[v].at;
    if Discarding(Last(r).threads[v]) {
      r' := Disarmed(r, v, j);
    } else {
      r' := Measured(r, v, j, at, if at == PullBroken then PullFailed else PullKept);
    }
  }

  function EmptiedTo(th: Thread): Location {
    if Discarding(th) then Barred else if th.at == PullBroken then PullFailed else PullKept
  }

  // It takes away no other help.
  lemma EmptiedKeepsRetry(s: State, s': State, t: ThreadId, v: ThreadId, u: ThreadId, j: JobRef)
    requires MayEmpty(s, v, j) && MayRetry(s, t, u, j) && v != t && j in s'.shared.heap
    requires s'.threads == s.threads[v := Thread(j, EmptiedTo(s.threads[v]), None)] && s'.dogs == s.dogs
    requires s'.shared.heap[j].phase == s.shared.heap[j].phase && s'.shared.heap[j].superseded == s.shared.heap[j].superseded
    requires s'.shared.heap[j].held.insecure == s.shared.heap[j].held.insecure
    ensures MayRetry(s', t, u, j)
  {
    forall w | MayUpload(s, w, j) ensures MayUpload(s', w, j) {
      BreaksStays(s, s', v, w, j);
    }
    forall w | MayOverwrite(s, w, j) ensures MayOverwrite(s', w, j) {
    }
    BreaksStays(s, s', v, u, j);
  }

  lemma BreaksStays(s: State, s': State, v: ThreadId, w: ThreadId, j: JobRef)
    requires MayEmpty(s, v, j) && s'.threads == s.threads[v := Thread(j, EmptiedTo(s.threads[v]), None)]
    ensures Breaks(s, w) ==> Breaks(s', w)
  {
    if x :| MayBreak(s, w, x) {
      assert MayBreak(s', w, x);
    }
  }

  // A goroutine that waits for the phase to be set back may be sent to the pull branch.
  lemma RevivesLeads(r: Run, t: ThreadId, j: JobRef) returns (r': Run)
    requires IsRun(r) && WellFormed(Last(r)) && Revives(Last(r), t, j) && !Owner(Last(r), j) && !LeadsToPull(Last(r).shared.heap[j].phase)
    ensures Calmly(r, r', j) && Leads(Last(r'), t, j)
  {
    var r0 := MadeEmpty(r, t, j);
    StillLost(r, r0, j);
    if Last(r0).shared.heap[j].phase == Retrying {
      r' := r0;
    } else {
      var u :| MayRetry(Last(r0), t, u, j);
      r' := Retried(r0, t, u, j);
      BesideTwice(r, r0, r', t, j);
    }
  }

  lemma MadeEmpty(r: Run, t: ThreadId, j: JobRef) returns (r': Run)
    requires IsRun(r) && WellFormed(Last(r)) && Revives(Last(r), t, j)
    ensures Beside(r, r', t, j) && !GoesToUpload(Last(r').shared.heap[j])
    ensures Last(r').shared.heap[j].phase == Last(r).shared.heap[j].phase
    ensures Last(r').shared.heap[j].phase == Retrying || exists u :: MayRetry(Last(r'), t, u, j)
  {
    if !GoesToUpload(Last(r).shared.heap[j]) {
      r' := r;
      StartsCalmly(r, j);
    } else {
      var v :| MayEmpty(Last(r), v, j);
      r' := Emptied(r, t, v, j);
      AloneIsBeside(r, r', v, t, j);
      if Last(r).shared.heap[j].phase != Retrying {
        var u :| MayRetry(Last(r), t, u, j);
        EmptiedKeepsRetry(Last(r), Last(r'), t, v, u, j);
      }
    }
  }
}
