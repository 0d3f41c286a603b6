/**
  What the goroutines of a job that is no longer the owner may still do to the shared copy, untested.

  Nothing stops a goroutine of a replaced job on its way to pullArchive. advance refuses a job that is
  over, and submit leaves a replaced job over; but a second goroutine of it may end its round by
  setting the phase back to retrying, and what a retrying job does depends on its bytes and parts. This
  module says in terms of one state who can still come to pullArchive, and proves that nobody else can.
*/
module DeliveryLostJobs {
  import opened DeliveryFencing
  import opened DeliveryPhases
  import opened DeliverySteps
  import opened Options

  predicate Of(s: State, t: ThreadId, j: JobRef) { t in s.threads && s.threads[t].job == j && j in s.shared.heap }

  // Goroutine t is on the pull branch and not past pullArchive.
  predicate OnBranch(s: State, t: ThreadId, j: JobRef) { Of(s, t, j) && OnPullBranch(s.threads[t].at) }

  // Goroutine t has not come to the switch, and the phase leads it to the pull branch.
  predicate Bound(s: State, t: ThreadId, j: JobRef) {
    Of(s, t, j) && 0 < Rank(s.threads[t].at) < 3 && LeadsToPull(s.shared.heap[j].phase)
  }

  // ---------- Help from other goroutines ----------

  // Goroutine v may still throw away what makes a retrying job go to uploading: by a discard whose test
  // has passed, or by recording what it pulled, if no part is registered.
  predicate MayEmpty(s: State, v: ThreadId, j: JobRef) {
    && Of(s, v, j)
    && var th := s.threads[v];
       || Discarding(th)
       || (!s.shared.heap[j].held.parts && (th.at == PullBroken || th.at == PullArrived))
  }

  ghost predicate Emptyable(s: State, j: JobRef) {
    (j in s.shared.heap && !GoesToUpload(s.shared.heap[j])) || exists v :: MayEmpty(s, v, j)
  }

  predicate Discarding(th: Thread) { th.armed == Some(RemoveCopy) && (th.at == PullFailed || th.at == PullKept) }

  // Worker x may make the upload of run u fail: it has failed, or it is past its first test.
  predicate MayBreak(s: State, u: ThreadId, x: ThreadId) {
    x in s.threads && (s.threads[x].at == WorkerFailed(u) || s.threads[x].at == WorkerReading(u))
  }

  ghost predicate Breaks(s: State, u: ThreadId) { exists x :: MayBreak(s, u, x) }

  // Goroutine w may still write the phase uploading: at the end of its pull, or when its upload meets an
  // untrusted certificate.
  ghost predicate MayUpload(s: State, w: ThreadId, j: JobRef) {
    && Of(s, w, j)
    && var at := s.threads[w].at;
       || at == PullArrived || (at == PullKept && !Discarding(s.threads[w]))
       || (!s.shared.heap[j].held.insecure && (at == UploadBroken || (at == UploadJoin && Breaks(s, w))))
  }

  // Goroutine w may still write some phase that is over, or retrying.
  predicate MayOverwrite(s: State, w: ThreadId, j: JobRef) {
    Of(s, w, j) && (0 < Rank(s.threads[w].at) <= Rank(Barred) || s.threads[w].at == CancelMark)
  }

  // ---------- Setting the phase back to retrying ----------

  // Goroutine u may come to the end of a failed round, whatever the error.
  predicate EndsBadly(s: State, u: ThreadId, j: JobRef) {
    && Of(s, u, j) && 0 < Rank(s.threads[u].at) <= Rank(Barred)
    && (!s.shared.heap[j].superseded ==> s.threads[u].at != Closing && !(s.threads[u].at == Settling && s.threads[u].armed.Some?))
  }

  // The watchdog of u has seen a stall, or may still see one: the phase is watched, or somebody may make
  // it so.
  ghost predicate Stalls(s: State, u: ThreadId, j: JobRef) {
    || u in s.dogs.noticed || u in s.dogs.stalled
    || (j in s.shared.heap && Watched(s.shared.heap[j].phase))
    || exists w :: MayUpload(s, w, j)
  }

  // Goroutine u at a place, with an effect pending or not, may fail with an error that is retried; t is
  // waiting for it.
  ghost predicate FailsPlainlyAt(s: State, t: ThreadId, u: ThreadId, j: JobRef, th: Thread)
    requires j in s.shared.heap
  {
    match th.at
    case Advancing => s.shared.heap[j].phase != Completing || exists w :: w != t && w != u && MayOverwrite(s, w, j)
    case Switching => s.shared.heap[j].phase == Uploading || exists w :: MayUpload(s, w, j)
    case PullBroken | PullArrived | UploadEntry | UploadBroken | PostFailed | Finishing => true
    case PullFailed | PullKept => th.armed != Some(RemoveCopy)
    case UploadJoin => Breaks(s, u)
    case CompleteEntry => th.armed == Some(PostComplete)
    case _ => false
  }

  // A job that is not marked as replaced is retried on such an error; a marked one only after a stall.
  ghost predicate MayRetry(s: State, t: ThreadId, u: ThreadId, j: JobRef) {
    && u != t && Of(s, u, j)
    && ((EndsBadly(s, u, j) && Stalls(s, u, j))
        || (!s.shared.heap[j].superseded && FailsPlainlyAt(s, t, u, j, s.threads[u])))
  }

  // Goroutine t has not normalized the phase, which is retrying or may become so, and by then nothing
  // may send the job to uploading.
  ghost predicate Revives(s: State, t: ThreadId, j: JobRef) {
    && Of(s, t, j) && s.threads[t].at == Advancing
    && (s.shared.heap[j].phase == Retrying || exists u :: MayRetry(s, t, u, j))
    && Emptyable(s, j)
  }

  ghost predicate CanStillTouch(s: State, j: JobRef) {
    || (exists t :: OnBranch(s, t, j))
    || (exists t :: Bound(s, t, j))
    || (exists t :: Revives(s, t, j))
  }

  // ---------- What a step may do to a job that is not the owner ----------

  // A job that is marked as replaced and yet holds its id.
  predicate MarkedHolder(s: State, j: JobRef) {
    && j in s.shared.heap && s.shared.heap[j].superseded
    && s.shared.heap[j].id in s.shared.jobs && s.shared.jobs[s.shared.heap[j].id] == j
  }

  // Only its own goroutines change it.
  predicate LostJobMay(s: State, step: Step, j: JobRef, s': State) {
    && j in s.shared.heap && j in s'.shared.heap
    && var (before, after) := (s.shared.heap[j], s'.shared.heap[j]);
       && after.superseded == before.superseded && (before.held.insecure ==> after.held.insecure)
       && (after.phase != before.phase ==> WritesPhase(s, step, j, after.phase))
       && (before.held.parts && !after.held.parts ==> step.Perform? && Of(s, step.t, j) && s.threads[step.t].armed == Some(RemoveCopy) && s.threads[step.t].at != Settling)
       && (before.held.full && !after.held.full ==>
             || (step.Perform? && Of(s, step.t, j) && s.threads[step.t].armed == Some(RemoveCopy) && s.threads[step.t].at != Settling)
             || (step.Measure? && Of(s, step.t, j) && MayMeasure(s.threads[step.t].at, step.to)))
  }

  predicate WritesPhase(s: State, step: Step, j: JobRef, p: Phase) {
    && step.WritePhase? && Of(s, step.t, j) && s.threads[step.t].armed == None && step.p == p
    && MayWritePhase(s.shared, j, s.threads[step.t].at, p, step.reauth, step.to, step.t in s.dogs.stalled)
  }

  lemma OthersKeepTheHeap(s: State, step: Step)
    requires WellFormed(s) && Apply(s, step).Some? && !step.Submit? && !step.Recover? && !step.Resume?
    requires !step.WritePhase? && !step.Measure? && !step.Perform? && !step.LockedSave?
    ensures Apply(s, step).value.shared.heap == s.shared.heap
  {
    hide WellFormed, OwnerIntact;
    if KeepsShared(step) {
      SharedIsKept(s, step);
      hide Apply;
    }
  }

  lemma RegistryLeavesTheLost(s: State, step: Step, j: JobRef)
    requires WellFormed(s) && Apply(s, step).Some? && j in s.shared.heap && !Owner(s, j) && !MarkedHolder(s, j)
    requires step.Submit? || step.Recover? || step.Resume?
    ensures j in Apply(s, step).value.shared.heap && Apply(s, step).value.shared.heap[j] == s.shared.heap[j]
  {
    hide MayMove, MayWritePhase;
  }

  lemma WriteChangesTheLost(s: State, step: Step, j: JobRef)
    requires WellFormed(s) && Apply(s, step).Some? && j in s.shared.heap && step.WritePhase?
    ensures LostJobMay(s, step, j, Apply(s, step).value)
  {
    hide MayWritePhase, WellFormed;
  }

  lemma MeasureChangesTheLost(s: State, t: ThreadId, full: bool, to: Location, j: JobRef)
    requires WellFormed(s) && MeasureStep(s, t, full, to).Some? && j in s.shared.heap
    ensures LostJobMay(s, Measure(t, full, to), j, MeasureStep(s, t, full, to).value)
  {
    assert s.threads[t].job in s.shared.heap;
    hide MayMeasure, WellFormed;
  }

  lemma PerformChangesTheLost(s: State, t: ThreadId, ok: bool, j: JobRef)
    requires WellFormed(s) && PerformStep(s, t, ok).Some? && j in s.shared.heap
    ensures LostJobMay(s, Perform(t, ok), j, PerformStep(s, t, ok).value)
  {
    assert s.threads[t].job in s.shared.heap;
    hide AfterEffect, WellFormed;
  }

  lemma SaveChangesTheLost(s: State, t: ThreadId, j: JobRef)
    requires WellFormed(s) && LockedSaveStep(s, t).Some? && j in s.shared.heap
    ensures LostJobMay(s, LockedSave(t), j, LockedSaveStep(s, t).value)
  {
    assert s.threads[t].job in s.shared.heap;
    hide WellFormed, OwnerIntact;
  }

  lemma RecordsChangeTheLost(s: State, step: Step, j: JobRef)
    requires WellFormed(s) && Apply(s, step).Some? && j in s.shared.heap && (step.Measure? || step.Perform? || step.LockedSave?)
    ensures LostJobMay(s, step, j, Apply(s, step).value)
  {
    hide WellFormed, LostJobMay, MeasureStep, PerformStep, LockedSaveStep;
    if step.Measure? {
      MeasureChangesTheLost(s, step.t, step.full, step.to, j);
    } else if step.Perform? {
      PerformChangesTheLost(s, step.t, step.ok, j);
    } else {
      SaveChangesTheLost(s, step.t, j);
    }
  }

  lemma LostJobChanges(s: State, step: Step, j: JobRef)
    requires WellFormed(s) && Apply(s, step).Some? && j in s.shared.heap && !Owner(s, j) && !MarkedHolder(s, j)
    ensures LostJobMay(s, step, j, Apply(s, step).value)
  {
    hide Apply, WellFormed, OwnerIntact;
    if step.Submit? || step.Recover? || step.Resume? {
      RegistryLeavesTheLost(s, step, j);
    } else if step.WritePhase? {
      WriteChangesTheLost(s, step, j);
    } else if step.Measure? || step.Perform? || step.LockedSave? {
      RecordsChangeTheLost(s, step, j);
    } else {
      OthersKeepTheHeap(s, step);
    }
  }

  // submit marks a job only while it hands the id over.
  lemma SubmitMarksTheReplaced(s: State, step: Step, j: JobRef)
    requires WellFormed(s) && Apply(s, step).Some? && step.Submit? && j in s.shared.heap
    ensures MarkedHolder(Apply(s, step).value, j) ==> MarkedHolder(s, j)
  {
  }

  lemma OthersKeepTheMark(s: State, step: Step, j: JobRef)
    requires WellFormed(s) && Apply(s, step).Some? && !step.Submit? && j in s.shared.heap
    ensures j in Apply(s, step).value.shared.heap
    ensures Apply(s, step).value.shared.heap[j].superseded == s.shared.heap[j].superseded
  {
    if step.Recover? || step.Resume? {
      hide WellFormed;
    } else if step.WritePhase? {
      WriteChangesTheLost(s, step, j);
      hide Apply;
    } else if step.Measure? || step.Perform? || step.LockedSave? {
      RecordsChangeTheLost(s, step, j);
      hide Apply;
    } else {
      OthersKeepTheHeap(s, step);
      hide Apply;
    }
  }

  lemma NobodyIsMarkedInPlace(r: Run, i: nat, j: JobRef)
    requires IsRun(r) && i < |r.steps| && j in r.states[i].shared.heap && MarkedHolder(r.states[i + 1], j)
    ensures MarkedHolder(r.states[i], j)
  {
    var s, step := r.states[i], r.steps[i];
    RunEvolves(r, i);
    assert Linked(r, i);
    if step.Submit? {
      SubmitMarksTheReplaced(s, step, j);
    } else {
      OthersKeepTheMark(s, step, j);
      hide Apply, IsRun;
    }
  }

  // A marked holder was read like that from the journal: it has never run.
  lemma {:induction false} NoRunOfAMarkedHolder(r: Run, k: nat, t: ThreadId, j: JobRef)
    requires IsRun(r) && k <= |r.steps| && MarkedHolder(r.states[k], j)
    ensures !InRunOf(r.states[k], t, j)
    decreases k
  {
    if InRunOf(r.states[k], t, j) {
      assert k > 0;
      OneStep(r, k - 1, t);
      RunStatesAreWellFormed(r, k - 1);
      assert j in r.states[k - 1].shared.heap;
      NobodyIsMarkedInPlace(r, k - 1, j);
      hide IsRun;
      NoRunOfAMarkedHolder(r, k - 1, t, j);
    }
  }

  // One step of a run, seen by a lost job that somebody runs.
  ghost predicate LostStep(r: Run, k: nat, j: JobRef)
    requires IsRun(r)
  {
    k < |r.steps| && Lost(r, k, j) && exists t :: InRunOf(r.states[k], t, j)
  }

  lemma LostStepChanges(r: Run, k: nat, j: JobRef)
    requires IsRun(r) && LostStep(r, k, j)
    ensures LostJobMay(r.states[k], r.steps[k], j, r.states[k + 1]) && !MarkedHolder(r.states[k], j)
  {
    var t :| InRunOf(r.states[k], t, j);
    assert Linked(r, k);
    if MarkedHolder(r.states[k], j) {
      NoRunOfAMarkedHolder(r, k, t, j);
    }
    LostJobChanges(r.states[k], r.steps[k], j);
  }

  // ---------- Workers ----------

  predicate WorkerOf(at: Location, u: ThreadId) {
    at == WorkerLoop(u) || at == WorkerReading(u) || at == WorkerSent(u) || at == WorkerFailed(u)
  }

  // A worker stays a worker of its run, comes to reading only past an ownership test, and starts while
  // its run is in the upload.
  predicate WorkerCame(s: State, step: Step, x: ThreadId, u: ThreadId, s': State) {
    if x in s.threads then
      x in s'.threads && WorkerOf(s.threads[x].at, u) && (MayBreak(s', u, x) ==> MayBreak(s, u, x) || Owner(s, s.threads[x].job))
    else
      step == SpawnWorker(u, x) && u in s.threads && s.threads[u].at == UploadJoin && x in s'.threads && s'.threads[x] == Thread(s.threads[u].job, WorkerLoop(u), None)
  }

  lemma NewWorkers(s: State, step: Step, x: ThreadId, u: ThreadId)
    requires WellFormed(s) && Apply(s, step).Some? && x in Apply(s, step).value.threads && x !in s.threads
    requires WorkerOf(Apply(s, step).value.threads[x].at, u)
    ensures WorkerCame(s, step, x, u, Apply(s, step).value)
  {
    hide MayMove, MayWritePhase, MayAttempt, SubmitLocked, RegisterLocked, WellFormed, AfterEffect, AfterRefusal;
  }

  lemma MovedWorkers(s: State, t: ThreadId, to: Location, u: ThreadId)
    requires WellFormed(s) && MoveStep(s, t, to).Some? && WorkerOf(to, u)
    ensures WorkerCame(s, Move(t, to), t, u, MoveStep(s, t, to).value)
  {
    assert s.threads[t].job in s.shared.heap;
    MovesOfWorkers(s.shared, s.threads[t].job, s.threads[t].at, to, u);
    hide MayMove, WellFormed, OwnerIntact;
  }

  lemma MovesOfWorkers(s: Shared, j: JobRef, at: Location, to: Location, u: ThreadId)
    requires j in s.heap && MayMove(s, j, at, to) && WorkerOf(to, u)
    ensures (to == WorkerReading(u) && at == WorkerLoop(u) && OwnerIntact(s, j)) || (to == WorkerFailed(u) && at == WorkerReading(u))
  {
    hide OwnerIntact, RequeueEligible, RefusesToAdvance;
  }

  lemma PerformedWorkers(s: State, t: ThreadId, ok: bool, u: ThreadId)
    requires WellFormed(s) && PerformStep(s, t, ok).Some? && WorkerOf(PerformStep(s, t, ok).value.threads[t].at, u)
    ensures WorkerCame(s, Perform(t, ok), t, u, PerformStep(s, t, ok).value)
  {
    assert s.threads[t].job in s.shared.heap;
    hide AfterPerform, WellFormed;
  }

  lemma OtherWorkers(s: State, step: Step, x: ThreadId, u: ThreadId)
    requires WellFormed(s) && Apply(s, step).Some? && x in s.threads && !step.Move? && !step.Perform? && !step.WritePhase? && !Starts(step)
    requires x in Apply(s, step).value.threads && WorkerOf(Apply(s, step).value.threads[x].at, u)
    ensures WorkerCame(s, step, x, u, Apply(s, step).value)
  {
    hide MayAttempt, SubmitLocked, RegisterLocked, AfterPerform, WellFormed, OwnerIntact, SaveLocked, MayMove, MayWritePhase;
  }

  lemma WritesMakeNoWorkers(s: Shared, j: JobRef, at: Location, p: Phase, reauth: bool, to: Location, stalled: bool, u: ThreadId)
    requires j in s.heap && MayWritePhase(s, j, at, p, reauth, to, stalled)
    ensures !WorkerOf(to, u)
  {
    WriteTargets(s, j, at, p, reauth, to, stalled);
    hide MayWritePhase;
  }

  lemma WorkersCame(r: Run, k: nat, x: ThreadId, u: ThreadId)
    requires IsRun(r) && k < |r.steps| && x in r.states[k + 1].threads && WorkerOf(r.states[k + 1].threads[x].at, u)
    ensures WorkerCame(r.states[k], r.steps[k], x, u, r.states[k + 1])
  {
    var s, step := r.states[k], r.steps[k];
    assert Linked(r, k);
    if x !in s.threads {
      NewWorkers(s, step, x, u);
    } else if Actor(step) != Some(x) {
      OthersStay(s, step, x);
    } else if step.Move? {
      MovedWorkers(s, x, step.to, u);
    } else if step.Perform? {
      PerformedWorkers(s, x, step.ok, u);
    } else if step.WritePhase? {
      WritesMakeNoWorkers(s.shared, s.threads[x].job, s.threads[x].at, step.p, step.reauth, step.to, x in s.dogs.stalled, u);
    } else {
      if Starts(step) {
        StartersAreNew(s, step, x);
      }
      OtherWorkers(s, step, x, u);
    }
  }

  ghost predicate HasRun(s: State, x: ThreadId, u: ThreadId) {
    x in s.threads && u in s.threads && s.threads[u].job == s.threads[x].job && Rank(UploadJoin) <= Rank(s.threads[u].at)
  }

  lemma HasRunStill(r: Run, k: nat, x: ThreadId, u: ThreadId)
    requires IsRun(r) && k < |r.steps| && HasRun(r.states[k], x, u)
    ensures HasRun(r.states[k + 1], x, u)
  {
    RunEvolves(r, k);
    OneStep(r, k, x);
    OneStep(r, k, u);
    hide IsRun, InRun, OnPullBranch, Holds;
  }

  lemma NewWorkerHasRun(r: Run, k: nat, x: ThreadId, u: ThreadId)
    requires IsRun(r) && k < |r.steps| && x !in r.states[k].threads && x in r.states[k + 1].threads && WorkerOf(r.states[k + 1].threads[x].at, u)
    ensures HasRun(r.states[k + 1], x, u)
  {
    WorkersCame(r, k, x, u);
    RunEvolves(r, k);
    OneStep(r, k, u);
    hide IsRun;
  }

  // The run of a worker is in the upload or past it.
  lemma {:induction false} WorkersHaveRuns(r: Run, k: nat, x: ThreadId, u: ThreadId)
    requires IsRun(r) && k <= |r.steps| && x in r.states[k].threads && WorkerOf(r.states[k].threads[x].at, u)
    ensures HasRun(r.states[k], x, u)
    decreases k
  {
    assert k > 0;
    if x in r.states[k - 1].threads {
      WorkersCame(r, k - 1, x, u);
      WorkersHaveRuns(r, k - 1, x, u);
      HasRunStill(r, k - 1, x, u);
    } else {
      NewWorkerHasRun(r, k - 1, x, u);
    }
  }

  // ---------- Where a goroutine of a lost job can have come from ----------

  // One step of goroutine u, from th to th': effects are performed or dropped, none is newly allowed, and
  // a place is reached from the places before it.
  ghost predicate CameTo(s: State, u: ThreadId, th: Thread, th': Thread)
    requires th.job in s.shared.heap
  {
    if th'.at == th.at then th'.armed == th.armed || (th.armed == Some(SaveJournal) && th'.armed == None) else
    && th'.armed == None
    && var phase := s.shared.heap[th.job].phase;
       match th'.at
       case PullBroken | PullArrived => OnPullBranch(th.at)
       case PullFailed => th.at == PullBroken
       case PullKept => th.at == PullArrived
       case UploadEntry => (th.at == PullKept && th.armed == None) || (th.at == Switching && phase == Uploading)
       case UploadJoin => th.at == UploadEntry
       case UploadBroken => th.at == UploadJoin && Breaks(s, u)
       case CompleteEntry => th.at == UploadJoin || th.at == Switching
       case PostFailed => th.at == CompleteEntry && th.armed == Some(PostComplete)
       case Closing => th.at == Settling && th.armed.Some?
       case Finishing =>
         || (th.at == Advancing && RefusesToAdvance(phase)) || OnPullBranch(th.at)
         || ((th.at == PullFailed || th.at == PullKept) && th.armed == None)
         || th.at == UploadEntry || th.at == UploadBroken || th.at == PostFailed
       case Barred => th.at == Closing || (th.at == Settling && th.armed.Some?) ==> s.shared.heap[th.job].superseded
       case Switching => th.at == Advancing
       case _ => true
  }

  lemma EarlyMoveCameTo(s: State, u: ThreadId, th: Thread, to: Location)
    requires th.job in s.shared.heap && th.armed == None && MayMove(s.shared, th.job, th.at, to) && 0 < Rank(th.at) < 7
    ensures CameTo(s, u, th, th.(at := to))
  {
    hide Breaks;
  }

  lemma LateMoveCameTo(s: State, u: ThreadId, th: Thread, to: Location)
    requires th.job in s.shared.heap && th.armed == None && MayMove(s.shared, th.job, th.at, to) && 7 <= Rank(th.at)
    ensures CameTo(s, u, th, th.(at := to))
  {
    hide Breaks, Stage;
  }

  lemma MoveCameTo(s: State, u: ThreadId, to: Location)
    requires WellFormed(s) && MoveStep(s, u, to).Some? && InRun(s.threads[u].at)
    ensures CameTo(s, u, s.threads[u], s.threads[u].(at := to)) && MoveStep(s, u, to).value.threads[u] == s.threads[u].(at := to)
  {
    assert s.threads[u].job in s.shared.heap;
    hide WellFormed, MayMove, CameTo, Rank;
    if Rank(s.threads[u].at) < 7 {
      EarlyMoveCameTo(s, u, s.threads[u], to);
    } else {
      LateMoveCameTo(s, u, s.threads[u], to);
    }
  }

  lemma WriteCameTo(s: State, u: ThreadId, p: Phase, reauth: bool, to: Location)
    requires WellFormed(s) && WritePhaseStep(s, u, p, reauth, to).Some?
    ensures CameTo(s, u, s.threads[u], WritePhaseStep(s, u, p, reauth, to).value.threads[u])
  {
    assert s.threads[u].job in s.shared.heap;
    hide WellFormed, Normalizes, Breaks, Classifies;
    WriteTargets(s.shared, s.threads[u].job, s.threads[u].at, p, reauth, to, u in s.dogs.stalled);
  }

  // Where a write of the phase leads.
  lemma WriteTargets(s: Shared, j: JobRef, at: Location, p: Phase, reauth: bool, to: Location, stalled: bool)
    requires j in s.heap && MayWritePhase(s, j, at, p, reauth, to, stalled)
    ensures at == UploadJoin || at == UploadBroken || at == PostFailed || to == Switching || to == Collected || to == UploadEntry || to == Concluded || to == Finished || to == CancelSaving
    ensures at == UploadJoin || at == UploadBroken || at == PostFailed ==> to == at
    ensures to == UploadEntry ==> at == PullKept
    ensures to == Switching ==> at == Advancing
  {
  }

  lemma PerformCameTo(s: State, u: ThreadId, ok: bool)
    requires WellFormed(s) && u in s.threads && Fits(s.threads[u]) && PerformStep(s, u, ok).Some?
    ensures CameTo(s, u, s.threads[u], PerformStep(s, u, ok).value.threads[u])
  {
    assert s.threads[u].job in s.shared.heap;
    EffectCameTo(s, u, s.threads[u], ok);
    hide WellFormed, AfterPerform, AfterEffect, CameTo;
  }

  lemma EffectCameTo(s: State, u: ThreadId, th: Thread, ok: bool)
    requires th.job in s.shared.heap && th.armed.Some? && Fits(th)
    ensures CameTo(s, u, th, th.(at := AfterEffect(th.at, th.armed.value, ok), armed := None))
  {
    hide Breaks;
  }

  lemma CheckCameTo(s: State, u: ThreadId, e: Effect)
    requires WellFormed(s) && u in s.threads && !Owner(s, s.threads[u].job) && CheckStep(s, u, e).Some?
    ensures CameTo(s, u, s.threads[u], CheckStep(s, u, e).value.threads[u])
  {
    assert s.threads[u].job in s.shared.heap;
    hide WellFormed, OwnerIntact, Breaks;
  }

  // These two are taken outside of a run only.
  lemma OuterStepsAreOutside(s: State, u: ThreadId, step: Step)
    requires WellFormed(s) && Apply(s, step).Some? && Actor(step) == Some(u) && (step.Enqueue? || step.RegisterRun?)
    ensures u in s.threads && !InRun(s.threads[u].at)
  {
    hide WellFormed, RegisterLocked;
  }

  // These only move a goroutine on, or do not.
  lemma SaveCameTo(s: State, u: ThreadId)
    requires WellFormed(s) && u in s.threads && InRun(s.threads[u].at) && LockedSaveStep(s, u).Some?
    ensures CameTo(s, u, s.threads[u], LockedSaveStep(s, u).value.threads[u])
  {
    assert s.threads[u].job in s.shared.heap;
    hide WellFormed, SaveLocked, Breaks;
  }

  lemma RemoveCameTo(s: State, u: ThreadId)
    requires WellFormed(s) && RemoveLocalStep(s, u).Some?
    ensures CameTo(s, u, s.threads[u], RemoveLocalStep(s, u).value.threads[u])
  {
    assert s.threads[u].job in s.shared.heap;
    hide WellFormed, Breaks;
  }

  lemma AppendCameTo(s: State, u: ThreadId)
    requires WellFormed(s) && AppendLocalStep(s, u).Some?
    ensures CameTo(s, u, s.threads[u], AppendLocalStep(s, u).value.threads[u])
  {
    assert s.threads[u].job in s.shared.heap;
    hide WellFormed, Breaks;
  }

  lemma MeasureCameTo(s: State, u: ThreadId, full: bool, to: Location)
    requires WellFormed(s) && MeasureStep(s, u, full, to).Some?
    ensures CameTo(s, u, s.threads[u], MeasureStep(s, u, full, to).value.threads[u])
  {
    assert s.threads[u].job in s.shared.heap;
    hide WellFormed, Breaks, Rank, RefusesToAdvance;
  }

  lemma BackOffCameTo(s: State, u: ThreadId, z: ThreadId)
    requires WellFormed(s) && BackOffStep(s, u, z).Some?
    ensures CameTo(s, u, s.threads[u], BackOffStep(s, u, z).value.threads[u])
  {
    assert s.threads[u].job in s.shared.heap;
    hide WellFormed, Breaks;
  }

  lemma LeaveCameTo(s: State, u: ThreadId)
    requires WellFormed(s) && LeaveStep(s, u).Some?
    ensures CameTo(s, u, s.threads[u], LeaveStep(s, u).value.threads[u])
  {
    assert s.threads[u].job in s.shared.heap;
    hide WellFormed, Breaks;
  }

  lemma DogsMove(s: State, step: Step, u: ThreadId)
    requires WellFormed(s) && u in s.threads && (step == Notice(u) || step == MarkStalled(u)) && Apply(s, step).Some?
    ensures Apply(s, step).value.threads == s.threads
  {
    hide WellFormed;
  }

  lemma PartCameTo(s: State, u: ThreadId, w: ThreadId)
    requires WellFormed(s) && PartFailedStep(s, u, w).Some?
    ensures CameTo(s, u, s.threads[u], PartFailedStep(s, u, w).value.threads[u])
  {
    assert s.threads[u].job in s.shared.heap;
    assert MayBreak(s, u, w);
    hide WellFormed, Rank;
  }

  lemma LostCameTo(r: Run, k: nat, u: ThreadId, j: JobRef)
    requires IsRun(r) && k < |r.steps| && Lost(r, k, j) && InRunOf(r.states[k + 1], u, j)
    ensures InRunOf(r.states[k], u, j) && CameTo(r.states[k], u, r.states[k].threads[u], r.states[k + 1].threads[u])
    ensures Rank(r.states[k].threads[u].at) <= Rank(r.states[k + 1].threads[u].at)
  {
    var s, step := r.states[k], r.steps[k];
    OneStep(r, k, u);
    assert Linked(r, k);
    PendingFits(r, k, u);
    if Actor(step) != Some(u) {
      OthersStay(s, step, u);
    } else if step.Move? {
      MoveCameTo(s, u, step.to);
    } else if step.WritePhase? {
      WriteCameTo(s, u, step.p, step.reauth, step.to);
    } else if step.Perform? {
      PerformCameTo(s, u, step.ok);
    } else if step.Check? {
      CheckCameTo(s, u, step.e);
    } else if Starts(step) {
      StartersAreNew(s, step, u);
    } else if step.Enqueue? || step.RegisterRun? {
      OuterStepsAreOutside(s, u, step);
    } else {
      PlainCameTo(s, step, u);
    }
  }

  lemma PlainCameTo(s: State, step: Step, u: ThreadId)
    requires WellFormed(s) && Apply(s, step).Some? && Actor(step) == Some(u) && u in s.threads && InRun(s.threads[u].at)
    requires !step.Move? && !step.WritePhase? && !step.Perform? && !step.Check? && !Starts(step) && !step.Enqueue? && !step.RegisterRun?
    requires u in Apply(s, step).value.threads
    ensures CameTo(s, u, s.threads[u], Apply(s, step).value.threads[u])
  {
    assert s.threads[u].job in s.shared.heap;
    if step.Measure? {
      MeasureCameTo(s, u, step.full, step.to);
    } else if step.PartFailed? {
      PartCameTo(s, u, step.w);
    } else if step.BackOff? {
      BackOffCameTo(s, u, step.z);
    } else if step.Leave? {
      LeaveCameTo(s, u);
    } else if step.LockedSave? {
      SaveCameTo(s, u);
    } else if step.RemoveLocal? {
      RemoveCameTo(s, u);
    } else if step.AppendLocal? {
      AppendCameTo(s, u);
    } else {
      DogsMove(s, step, u);
    }
  }

  // ---------- What may happen after a step might have happened before it ----------

  // Nobody is on the pull branch before step k of a lost job that somebody runs.
  ghost predicate OffBranch(r: Run, k: nat, j: JobRef)
    requires IsRun(r)
  {
    LostStep(r, k, j) && forall b :: !OnBranch(r.states[k], b, j)
  }

  lemma NobodyComesFromTheBranch(r: Run, k: nat, u: ThreadId, j: JobRef)
    requires IsRun(r) && OffBranch(r, k, j) && InRunOf(r.states[k + 1], u, j)
    ensures InRunOf(r.states[k], u, j) && Of(r.states[k], u, j) && !OnPullBranch(r.states[k].threads[u].at)
    ensures CameTo(r.states[k], u, r.states[k].threads[u], r.states[k + 1].threads[u])
    ensures Rank(r.states[k].threads[u].at) <= Rank(r.states[k + 1].threads[u].at)
  {
    LostCameTo(r, k, u, j);
    assert !OnBranch(r.states[k], u, j);
  }

  lemma EmptiedBefore(r: Run, k: nat, v: ThreadId, j: JobRef)
    requires IsRun(r) && OffBranch(r, k, j) && MayEmpty(r.states[k + 1], v, j)
    ensures exists v0 :: MayEmpty(r.states[k], v0, j)
  {
    NobodyComesFromTheBranch(r, k, v, j);
    LostStepChanges(r, k, j);
    var s, step := r.states[k], r.steps[k];
    if !MayEmpty(s, v, j) {
      PendingFits(r, k, step.t);
      assert MayEmpty(s, step.t, j);
    }
  }

  lemma StockBefore(r: Run, k: nat, j: JobRef)
    requires IsRun(r) && OffBranch(r, k, j) && GoesToUpload(r.states[k].shared.heap[j]) && j in r.states[k + 1].shared.heap
    requires !GoesToUpload(r.states[k + 1].shared.heap[j])
    ensures exists v0 :: MayEmpty(r.states[k], v0, j)
  {
    LostStepChanges(r, k, j);
    var s, step := r.states[k], r.steps[k];
    PendingFits(r, k, step.t);
    assert !OnBranch(s, step.t, j);
    assert MayEmpty(s, step.t, j);
  }

  lemma BrokenBefore(r: Run, k: nat, u: ThreadId, x: ThreadId, j: JobRef)
    requires IsRun(r) && OffBranch(r, k, j) && Of(r.states[k + 1], u, j) && MayBreak(r.states[k + 1], u, x)
    ensures MayBreak(r.states[k], u, x) && u in r.states[k].threads && Rank(UploadJoin) <= Rank(r.states[k].threads[u].at)
  {
    WorkersHaveRuns(r, k + 1, x, u);
    WorkersCame(r, k, x, u);
    OneStep(r, k, x);
    WorkersHaveRuns(r, k, x, u);
  }

  lemma UploadedBefore(r: Run, k: nat, w: ThreadId, j: JobRef)
    requires IsRun(r) && OffBranch(r, k, j) && MayUpload(r.states[k + 1], w, j)
    ensures MayUpload(r.states[k], w, j)
  {
    NobodyComesFromTheBranch(r, k, w, j);
    LostStepChanges(r, k, j);
    var s, s' := r.states[k], r.states[k + 1];
    if s'.threads[w].at == UploadJoin {
      var x :| MayBreak(s', w, x);
      BrokenBefore(r, k, w, x, j);
      assert s.threads[w].at == UploadJoin && Breaks(s, w);
    } else if s'.threads[w].at == UploadBroken {
      assert s.threads[w].at == UploadBroken || (s.threads[w].at == UploadJoin && Breaks(s, w));
    }
  }

  // A cancel starts for the job that holds the id.
  lemma CancelStarts(s: State, step: Step, w: ThreadId)
    requires WellFormed(s) && Apply(s, step).Some? && w in Apply(s, step).value.threads && w !in s.threads
    requires Apply(s, step).value.threads[w].at == CancelMark
    ensures var j := Apply(s, step).value.threads[w].job;
            j in s.shared.heap && s.shared.heap[j].id in s.shared.jobs && s.shared.jobs[s.shared.heap[j].id] == j
  {
    if !step.Cancel? {
      OnlyCancelCancels(s, step, w);
    }
  }

  lemma OnlyCancelCancels(s: State, step: Step, w: ThreadId)
    requires WellFormed(s) && Apply(s, step).Some? && w in Apply(s, step).value.threads && w !in s.threads && !step.Cancel?
    ensures Apply(s, step).value.threads[w].at != CancelMark
  {
    hide MayMove, MayWritePhase, MayAttempt, SubmitLocked, RegisterLocked, AfterPerform, WellFormed, AfterEffect, AfterRefusal;
  }

  lemma OverwrittenBefore(r: Run, k: nat, w: ThreadId, j: JobRef)
    requires IsRun(r) && OffBranch(r, k, j) && MayOverwrite(r.states[k + 1], w, j)
    ensures MayOverwrite(r.states[k], w, j)
  {
    if r.states[k + 1].threads[w].at == CancelMark {
      CancelledBefore(r, k, w, j);
    } else {
      NobodyComesFromTheBranch(r, k, w, j);
      hide IsRun;
    }
  }

  lemma CancelledBefore(r: Run, k: nat, w: ThreadId, j: JobRef)
    requires IsRun(r) && LostStep(r, k, j) && Of(r.states[k + 1], w, j) && r.states[k + 1].threads[w].at == CancelMark
    ensures Of(r.states[k], w, j) && r.states[k].threads[w].at == CancelMark
  {
    LostStepChanges(r, k, j);
    assert Linked(r, k);
    if w in r.states[k].threads {
      CancelStays(r, k, w);
      RunEvolves(r, k);
    } else {
      CancelStarts(r.states[k], r.steps[k], w);
      RunEvolves(r, k);
    }
  }

  lemma CancelStays(r: Run, k: nat, w: ThreadId)
    requires IsRun(r) && k < |r.steps| && w in r.states[k].threads && w in r.states[k + 1].threads
    requires r.states[k + 1].threads[w].at == CancelMark
    ensures r.states[k].threads[w].at == CancelMark
  {
    var s, step := r.states[k], r.steps[k];
    assert Linked(r, k);
    OneStep(r, k, w);
    if Actor(step) != Some(w) {
      OthersStay(s, step, w);
    } else if Starts(step) {
      StartersAreNew(s, step, w);
    } else {
      NothingComesToCancel(s, step, w);
    }
  }

  lemma NothingMovesToCancel(s: State, w: ThreadId, to: Location)
    requires WellFormed(s) && MoveStep(s, w, to).Some? && Rank(s.threads[w].at) == 0
    ensures to != CancelMark
  {
    OuterMovesStayOut(s.shared, s.threads[w].job, s.threads[w].at, to);
    hide MayMove;
  }

  lemma NothingWritesToCancel(s: State, w: ThreadId, p: Phase, reauth: bool, to: Location)
    requires WellFormed(s) && WritePhaseStep(s, w, p, reauth, to).Some?
    ensures to != CancelMark
  {
    hide WellFormed, Normalizes;
  }

  lemma NothingElseComesToCancel(s: State, step: Step, w: ThreadId)
    requires WellFormed(s) && Apply(s, step).Some? && w in s.threads && Actor(step) == Some(w) && !Starts(step) && !step.Move? && !step.WritePhase?
    requires w in Apply(s, step).value.threads && Apply(s, step).value.threads[w].at == CancelMark
    ensures s.threads[w].at == CancelMark
  {
    hide WellFormed, MayAttempt, AfterPerform, MayMove, MayWritePhase, Rank, OwnerIntact;
  }

  lemma NothingComesToCancel(s: State, step: Step, w: ThreadId)
    requires WellFormed(s) && Apply(s, step).Some? && w in s.threads && Actor(step) == Some(w) && !Starts(step) && Rank(s.threads[w].at) == 0
    requires w in Apply(s, step).value.threads && Apply(s, step).value.threads[w].at == CancelMark
    ensures s.threads[w].at == CancelMark
  {
    if step.Move? {
      NothingMovesToCancel(s, w, step.to);
    } else if step.WritePhase? {
      NothingWritesToCancel(s, w, step.p, step.reauth, step.to);
    } else {
      hide Apply, WellFormed;
      NothingElseComesToCancel(s, step, w);
    }
  }

  lemma StalledBefore(r: Run, k: nat, u: ThreadId, j: JobRef)
    requires IsRun(r) && OffBranch(r, k, j) && Stalls(r.states[k + 1], u, j) && InRunOf(r.states[k + 1], u, j)
    ensures Stalls(r.states[k], u, j) || r.states[k].shared.heap[j].phase == Retrying || CanStillTouch(r.states[k], j)
  {
    var s, s', step := r.states[k], r.states[k + 1], r.steps[k];
    NobodyComesFromTheBranch(r, k, u, j);
    LostStepChanges(r, k, j);
    if w :| MayUpload(s', w, j) {
      UploadedBefore(r, k, w, j);
    } else if Watched(s'.shared.heap[j].phase) {
      if !Watched(s.shared.heap[j].phase) {
        WatchedWrites(s, step.t, j, step.p, step.reauth, step.to);
      }
    } else {
      assert Linked(r, k);
      DogsBark(s, step, u);
    }
  }

  // Who writes a watched phase was able to, or the phase was retrying.
  lemma WatchedWrites(s: State, w: ThreadId, j: JobRef, p: Phase, reauth: bool, to: Location)
    requires Of(s, w, j) && Watched(p) && !Watched(s.shared.heap[j].phase) && s.threads[w].armed == None
    requires MayWritePhase(s.shared, j, s.threads[w].at, p, reauth, to, w in s.dogs.stalled)
    ensures MayUpload(s, w, j) || OnBranch(s, w, j) || s.shared.heap[j].phase == Retrying
  {
  }

  lemma DogsBark(s: State, step: Step, u: ThreadId)
    requires WellFormed(s) && Apply(s, step).Some? && u in s.threads
    requires var dogs := Apply(s, step).value.dogs; u in dogs.noticed || u in dogs.stalled
    ensures u in s.dogs.noticed || u in s.dogs.stalled || Watched(s.shared.heap[s.threads[u].job].phase)
  {
    if !step.Notice? && !step.MarkStalled? {
      OthersKeepTheDogs(s, step);
    }
  }

  lemma OthersKeepTheDogs(s: State, step: Step)
    requires WellFormed(s) && Apply(s, step).Some? && !step.Notice? && !step.MarkStalled?
    ensures Apply(s, step).value.dogs == s.dogs
  {
    hide MayMove, MayWritePhase, MayAttempt, SubmitLocked, RegisterLocked, AfterPerform, WellFormed, AfterEffect, AfterRefusal;
  }

  lemma EndedBadlyBefore(r: Run, k: nat, u: ThreadId, j: JobRef)
    requires IsRun(r) && OffBranch(r, k, j) && EndsBadly(r.states[k + 1], u, j)
    ensures EndsBadly(r.states[k], u, j)
  {
    NobodyComesFromTheBranch(r, k, u, j);
    LostStepChanges(r, k, j);
    PendingFits(r, k, u);
  }

  // Whoever writes a phase is able to overwrite it.
  lemma WritersOverwrite(s: State, w: ThreadId, j: JobRef, p: Phase, reauth: bool, to: Location)
    requires Of(s, w, j) && MayWritePhase(s.shared, j, s.threads[w].at, p, reauth, to, w in s.dogs.stalled)
    ensures MayOverwrite(s, w, j) && to != Advancing
    ensures to == Switching ==> s.threads[w].at == Advancing && Normalizes(s.shared.heap[j], p)
  {
  }

  // The goroutine a phase is written by has moved on.
  lemma WriterMoves(r: Run, k: nat)
    requires IsRun(r) && k < |r.steps| && r.steps[k].WritePhase?
    ensures var t := r.steps[k].t; t in r.states[k + 1].threads && r.states[k + 1].threads[t].at == r.steps[k].to
  {
    assert Linked(r, k);
  }

  lemma PlainAtAdvancing(r: Run, k: nat, t: ThreadId, u: ThreadId, j: JobRef)
    requires IsRun(r) && OffBranch(r, k, j) && t != u
    requires Of(r.states[k + 1], t, j) && r.states[k + 1].threads[t].at == Advancing
    requires Of(r.states[k + 1], u, j) && r.states[k + 1].threads[u].at == Advancing
    requires FailsPlainlyAt(r.states[k + 1], t, u, j, r.states[k + 1].threads[u])
    ensures Of(r.states[k], u, j) && FailsPlainlyAt(r.states[k], t, u, j, r.states[k].threads[u])
  {
    var s, s', step := r.states[k], r.states[k + 1], r.steps[k];
    NobodyComesFromTheBranch(r, k, u, j);
    LostStepChanges(r, k, j);
    if s'.shared.heap[j].phase == Completing {
      var w :| w != t && w != u && MayOverwrite(s', w, j);
      OverwrittenBefore(r, k, w, j);
    } else if s.shared.heap[j].phase == Completing {
      WritersOverwrite(s, step.t, j, step.p, step.reauth, step.to);
      WriterMoves(r, k);
    }
  }

  lemma PlainAtSwitching(r: Run, k: nat, t: ThreadId, u: ThreadId, j: JobRef)
    requires IsRun(r) && OffBranch(r, k, j) && t != u
    requires Of(r.states[k + 1], t, j) && r.states[k + 1].threads[t].at == Advancing
    requires Of(r.states[k + 1], u, j) && r.states[k + 1].threads[u].at == Switching
    requires FailsPlainlyAt(r.states[k + 1], t, u, j, r.states[k + 1].threads[u])
    ensures Of(r.states[k], u, j)
    ensures FailsPlainlyAt(r.states[k], t, u, j, r.states[k].threads[u]) || r.states[k].shared.heap[j].phase == Retrying || CanStillTouch(r.states[k], j)
  {
    var s, s', step := r.states[k], r.states[k + 1], r.steps[k];
    NobodyComesFromTheBranch(r, k, u, j);
    LostStepChanges(r, k, j);
    if w :| MayUpload(s', w, j) {
      UploadedBefore(r, k, w, j);
      NobodyComesFromTheBranch(r, k, t, j);
      UploadersHelp(s, t, u, w, j);
    } else if s.threads[u].at == Switching {
      if s.shared.heap[j].phase != Uploading {
        WatchedOrRetrying(s, step.t, j, step.reauth, step.to);
      }
    } else {
      NormalizedHere(r, k, u, j);
    }
  }

  lemma UploadersHelp(s: State, t: ThreadId, u: ThreadId, w: ThreadId, j: JobRef)
    requires MayUpload(s, w, j) && Of(s, u, j) && (s.threads[u].at == Advancing || s.threads[u].at == Switching)
    requires t in s.threads && Rank(s.threads[t].at) <= 1
    ensures FailsPlainlyAt(s, t, u, j, s.threads[u])
  {
    assert w != t && w != u && MayOverwrite(s, w, j);
  }

  // Who writes uploading was able to, or has normalized a retrying job.
  lemma WatchedOrRetrying(s: State, w: ThreadId, j: JobRef, reauth: bool, to: Location)
    requires Of(s, w, j) && s.shared.heap[j].phase != Uploading && s.threads[w].armed == None
    requires MayWritePhase(s.shared, j, s.threads[w].at, Uploading, reauth, to, w in s.dogs.stalled)
    ensures MayUpload(s, w, j) || s.shared.heap[j].phase == Retrying
  {
  }

  // A goroutine that has come to the switch has just normalized the phase.
  lemma NormalizedHere(r: Run, k: nat, u: ThreadId, j: JobRef)
    requires IsRun(r) && LostStep(r, k, j) && Of(r.states[k], u, j) && r.states[k].threads[u].at == Advancing
    requires Of(r.states[k + 1], u, j) && r.states[k + 1].threads[u].at == Switching
    ensures Normalizes(r.states[k].shared.heap[j], r.states[k + 1].shared.heap[j].phase)
  {
    var s, step := r.states[k], r.steps[k];
    assert Linked(r, k);
    PendingFits(r, k, u);
    if Actor(step) != Some(u) {
      OthersStay(s, step, u);
    } else if Starts(step) {
      StartersAreNew(s, step, u);
    } else {
      SwitchIsReachedByWriting(s, step, u);
    }
  }

  lemma WriteNormalizes(s: State, u: ThreadId, p: Phase, reauth: bool, to: Location)
    requires WellFormed(s) && WritePhaseStep(s, u, p, reauth, to).Some? && s.threads[u].at == Advancing
    ensures var (j, s') := (s.threads[u].job, WritePhaseStep(s, u, p, reauth, to).value);
            j in s.shared.heap && j in s'.shared.heap && Normalizes(s.shared.heap[j], s'.shared.heap[j].phase)
  {
    hide Normalizes;
  }

  lemma NothingElseSwitches(s: State, step: Step, u: ThreadId)
    requires WellFormed(s) && Apply(s, step).Some? && u in s.threads && Actor(step) == Some(u) && !Starts(step) && !step.WritePhase?
    requires s.threads[u].at == Advancing && s.threads[u].armed == None
    ensures u in Apply(s, step).value.threads ==> Apply(s, step).value.threads[u].at != Switching
  {
    hide WellFormed, AfterPerform, MayWritePhase, Rank, OwnerIntact;
  }

  lemma SwitchIsReachedByWriting(s: State, step: Step, u: ThreadId)
    requires WellFormed(s) && Apply(s, step).Some? && u in s.threads && Actor(step) == Some(u) && !Starts(step) && Fits(s.threads[u])
    requires s.threads[u].at == Advancing && u in Apply(s, step).value.threads && Apply(s, step).value.threads[u].at == Switching
    ensures var j := s.threads[u].job;
            j in s.shared.heap && j in Apply(s, step).value.shared.heap && Normalizes(s.shared.heap[j], Apply(s, step).value.shared.heap[j].phase)
  {
    if step.WritePhase? {
      hide WritePhaseStep, WellFormed, Normalizes, Fits;
      assert Apply(s, step) == WritePhaseStep(s, u, step.p, step.reauth, step.to);
      hide Apply;
      WriteNormalizes(s, u, step.p, step.reauth, step.to);
    } else {
      hide Apply, WellFormed;
      NothingElseSwitches(s, step, u);
    }
  }

  lemma PlainElsewhere(r: Run, k: nat, t: ThreadId, u: ThreadId, j: JobRef)
    requires IsRun(r) && OffBranch(r, k, j) && Of(r.states[k + 1], u, j)
    requires r.states[k + 1].threads[u].at != Advancing && r.states[k + 1].threads[u].at != Switching
    requires FailsPlainlyAt(r.states[k + 1], t, u, j, r.states[k + 1].threads[u])
    ensures Of(r.states[k], u, j) && FailsPlainlyAt(r.states[k], t, u, j, r.states[k].threads[u])
  {
    var s, s' := r.states[k], r.states[k + 1];
    NobodyComesFromTheBranch(r, k, u, j);
    if s'.threads[u].at == UploadJoin {
      var x :| MayBreak(s', u, x);
      BrokenBefore(r, k, u, x, j);
      assert s.threads[u].at == UploadJoin && Breaks(s, u);
    }
  }

  lemma RetriedBefore(r: Run, k: nat, t: ThreadId, u: ThreadId, j: JobRef)
    requires IsRun(r) && OffBranch(r, k, j) && MayRetry(r.states[k + 1], t, u, j)
    requires Of(r.states[k + 1], t, j) && r.states[k + 1].threads[t].at == Advancing
    ensures MayRetry(r.states[k], t, u, j) || r.states[k].shared.heap[j].phase == Retrying || CanStillTouch(r.states[k], j)
  {
    var s, s' := r.states[k], r.states[k + 1];
    LostStepChanges(r, k, j);
    if EndsBadly(s', u, j) && Stalls(s', u, j) {
      EndedBadlyBefore(r, k, u, j);
      StalledBefore(r, k, u, j);
    } else if s'.threads[u].at == Advancing {
      PlainAtAdvancing(r, k, t, u, j);
    } else if s'.threads[u].at == Switching {
      PlainAtSwitching(r, k, t, u, j);
    } else {
      PlainElsewhere(r, k, t, u, j);
    }
  }

  lemma BoundBefore(r: Run, k: nat, t: ThreadId, j: JobRef)
    requires IsRun(r) && OffBranch(r, k, j) && Bound(r.states[k + 1], t, j)
    ensures CanStillTouch(r.states[k], j)
  {
    var s, s', step := r.states[k], r.states[k + 1], r.steps[k];
    NobodyComesFromTheBranch(r, k, t, j);
    LostStepChanges(r, k, j);
    if s'.shared.heap[j].phase == s.shared.heap[j].phase {
      assert Bound(s, t, j);
    } else {
      LeadingWrites(s, step.t, j, step.p, step.reauth, step.to);
      assert Bound(s, step.t, j) || OnBranch(s, step.t, j) || Revives(s, step.t, j);
    }
  }

  // A goroutine that writes a phase leading to pull is on the way there.
  lemma LeadingWrites(s: State, w: ThreadId, j: JobRef, p: Phase, reauth: bool, to: Location)
    requires Of(s, w, j) && LeadsToPull(p) && MayWritePhase(s.shared, j, s.threads[w].at, p, reauth, to, w in s.dogs.stalled)
    ensures OnBranch(s, w, j) || Bound(s, w, j) || Revives(s, w, j)
  {
  }

  // A goroutine that writes retrying was able to.
  lemma RetryingWrites(s: State, t: ThreadId, u: ThreadId, j: JobRef, reauth: bool, to: Location)
    requires Of(s, u, j) && u != t && MayWritePhase(s.shared, j, s.threads[u].at, Retrying, reauth, to, u in s.dogs.stalled)
    ensures MayRetry(s, t, u, j)
  {
  }

  lemma RevivedBefore(r: Run, k: nat, t: ThreadId, j: JobRef)
    requires IsRun(r) && OffBranch(r, k, j) && Revives(r.states[k + 1], t, j)
    ensures CanStillTouch(r.states[k], j)
  {
    var s, s', step := r.states[k], r.states[k + 1], r.steps[k];
    NobodyComesFromTheBranch(r, k, t, j);
    LostStepChanges(r, k, j);
    StockWas(r, k, j);
    if s.shared.heap[j].phase != Retrying && !CanStillTouch(s, j) {
      if s'.shared.heap[j].phase == Retrying {
        WriterMoves(r, k);
        WritersOverwrite(s, step.t, j, step.p, step.reauth, step.to);
        RetryingWrites(s, t, step.t, j, step.reauth, step.to);
      } else {
        var u :| MayRetry(s', t, u, j);
        RetriedBefore(r, k, t, u, j);
      }
    }
    assert CanStillTouch(s, j) || Revives(s, t, j);
  }

  lemma StockWas(r: Run, k: nat, j: JobRef)
    requires IsRun(r) && OffBranch(r, k, j) && Emptyable(r.states[k + 1], j)
    ensures Emptyable(r.states[k], j)
  {
    var s' := r.states[k + 1];
    if v :| MayEmpty(s', v, j) {
      EmptiedBefore(r, k, v, j);
    } else if GoesToUpload(r.states[k].shared.heap[j]) {
      StockBefore(r, k, j);
    }
  }

  // ---------- A job that cannot touch the copy cannot become able to ----------

  lemma SomebodyRan(r: Run, k: nat, t: ThreadId, j: JobRef)
    requires IsRun(r) && k < |r.steps| && Lost(r, k, j) && InRunOf(r.states[k + 1], t, j)
    ensures LostStep(r, k, j) && Of(r.states[k], t, j)
    ensures OnBranch(r.states[k + 1], t, j) ==> CanStillTouch(r.states[k], j)
  {
    LostCameTo(r, k, t, j);
    OneStep(r, k, t);
    if OnBranch(r.states[k + 1], t, j) {
      assert OnBranch(r.states[k], t, j) || Bound(r.states[k], t, j);
    }
  }

  lemma CannotTouchStays(r: Run, k: nat, j: JobRef)
    requires IsRun(r) && k < |r.steps| && Lost(r, k, j) && CanStillTouch(r.states[k + 1], j)
    ensures CanStillTouch(r.states[k], j)
  {
    var s, s' := r.states[k], r.states[k + 1];
    if t :| OnBranch(s', t, j) {
      SomebodyRan(r, k, t, j);
    } else if t :| Bound(s', t, j) {
      SomebodyRan(r, k, t, j);
      if forall b :: !OnBranch(s, b, j) {
        BoundBefore(r, k, t, j);
      }
    } else {
      var t :| Revives(s', t, j);
      SomebodyRan(r, k, t, j);
      if forall b :: !OnBranch(s, b, j) {
        RevivedBefore(r, k, t, j);
      }
    }
  }

  lemma {:induction false} CouldTouchBefore(r: Run, k: nat, i: nat, j: JobRef)
    requires IsRun(r) && Lost(r, k, j) && k <= i <= |r.steps| && CanStillTouch(r.states[i], j)
    ensures CanStillTouch(r.states[k], j)
    decreases i
  {
    if k < i {
      OwnershipIsNeverRegained(r, k, i - 1, j);
      CannotTouchStays(r, i - 1, j);
      CouldTouchBefore(r, k, i - 1, j);
    }
  }
}
