/**
  What the runner does for a job that is resumed, retried or recovered, and how its steps agree with the
  functions of one delivery job.
*/
module DeliveryRetries {
  import opened DeliveryContinuations
  import opened DeliveryFencing
  import opened DeliveryLostJobs
  import opened DeliveryPhases
  import opened DeliverySteps
  import opened Options
  import C = DeliveryCompletion
  import J = DeliveryJobs
  import T = StallDetection

  // ---------- The runner follows the functions of a job ----------

  // What the runner knows of the facts of a job.
  predicate Abstracts(f: J.Facts, job: Job) {
    && f.phase == job.phase && f.needsReauth == job.needsReauth && f.superseded == job.superseded
    && (f.parts != [] <==> job.held.parts) && (J.PullComplete(f) <==> job.held.full)
  }

  // Some facts of a job.
  function Example(job: Job, pulled: bool): J.Facts {
    J.Facts(job.phase, if job.held.full then 1 else 2, if job.held.full || pulled then 1 else 0, 1, if job.held.parts then [1] else [], 0,
            job.needsReauth, job.superseded)
  }

  // advance normalizes a phase in the runner exactly as normalizeDeliveryPhase does for some job of which the
  // runner knows as much, and refuses the same ones.
  lemma NormalizesIff(job: Job, p: Phase)
    ensures Normalizes(job, p) <==> exists f :: Abstracts(f, job) && J.NormalizePhase(f) == Some(p)
    ensures RefusesToAdvance(job.phase) <==> exists f :: Abstracts(f, job) && J.NormalizePhase(f) == None
  {
    assert Abstracts(Example(job, true), job) && Abstracts(Example(job, false), job);
    assert Normalizes(job, p) ==> J.NormalizePhase(Example(job, p == Pulling)) == Some(p);
    assert RefusesToAdvance(job.phase) ==> J.NormalizePhase(Example(job, false)) == None;
  }

  // Which errors are final, by the place where runJob finds itself with one.
  predicate Returns(at: Location, e: J.Failure) {
    if e in {J.Superseded, J.Canceled, J.Unauthorized, J.Fatal} then at == Barred else at == Finishing
  }

  // runJob ends a failed round with these facts.
  ghost predicate EndsRound(f: J.Facts, at: Location, p: Phase, reauth: bool, to: Location, stalled: bool, e: J.Failure, parts: nat, pulled: nat) {
    var f' := J.AfterRound(f, parts, pulled, Some(e), stalled);
    && Returns(at, e) && f'.phase == p && f'.needsReauth == (reauth || f.needsReauth)
    && (reauth ==> e == J.Unauthorized && !stalled && !f.superseded) && (e == J.Unauthorized && !stalled && !f.superseded ==> reauth)
    && to == if J.BacksOff(f', Some(e)) then Finished else Concluded
  }

  // A failed round ends in the runner exactly as runJob classifies it for some facts, error and progress.
  lemma ClassifiesIff(job: Job, at: Location, p: Phase, reauth: bool, to: Location, stalled: bool)
    requires at == Finishing || at == Barred
    ensures Classifies(job, at, p, reauth, to, stalled) <==>
              exists f, e, parts, pulled :: Abstracts(f, job) && EndsRound(f, at, p, reauth, to, stalled, e, parts, pulled)
  {
    if Classifies(job, at, p, reauth, to, stalled) {
      var f0 := Example(job, false);
      var e := if at == Finishing then J.Ordinary else if reauth then J.Unauthorized else J.Fatal;
      var f := f0.(attempt := if p == Retrying || to == Finished then 0 else 9);
      assert Abstracts(f, job);
      assert EndsRound(f, at, p, reauth, to, stalled, e, 5, f.pulled);
    }
    forall f, e, parts, pulled | Abstracts(f, job) && EndsRound(f, at, p, reauth, to, stalled, e, parts, pulled)
      ensures Classifies(job, at, p, reauth, to, stalled)
    {
    }
  }

  // The stage of a delivery at a location behind the switch.
  function StageAt(at: Location): C.Stage {
    match at
    case Collecting => C.AtCollect
    case PullEntry => C.AtPull
    case UploadEntry => C.BeforeUpload
    case CompleteEntry => C.AtComplete
    case _ => C.AtSettle(false)
  }

  // Both switches of advance lead to the same stage.
  lemma SwitchesAgree(s: C.Life)
    requires s.stage == C.AtSwitch
    ensures C.SwitchEvent(s) == Some(s.(stage := StageAt(Stage(s.job.phase))))
    ensures Stage(s.job.phase) in {Collecting, PullEntry, UploadEntry, CompleteEntry, Settling}
  {
  }

  // The watchdog of a run sees a stall in the phases whose signature it compares, and in no others.
  lemma WatchedAgrees(s: State, t: ThreadId, j: JobRef, parts: nat, pulled: int)
    requires WellFormed(s) && Of(s, t, j) && InRun(s.threads[t].at)
    ensures Apply(s, Notice(t)).Some? <==> T.ProgressSignature(s.shared.heap[j].phase, parts, pulled).1
    ensures Apply(s, Notice(t)).Some? ==> Apply(Apply(s, Notice(t)).value, MarkStalled(t)).Some?
  {
    if Apply(s, Notice(t)).Some? {
      NoticeIsWellFormed(s, t);
    }
    var phase := s.shared.heap[j].phase;
    T.SignaturesDiffer(phase, parts, pulled, phase, parts, pulled);
    hide WellFormed, InRun;
  }

  lemma NoticeIsWellFormed(s: State, t: ThreadId)
    requires WellFormed(s) && Apply(s, Notice(t)).Some?
    ensures WellFormed(Apply(s, Notice(t)).value)
  {
    StepKeepsWellFormed(s, Notice(t));
  }

  // ---------- A job that is resumed ----------

  // A resume puts the job of an id back to retrying without its wait for credentials, and changes nothing else.
  lemma ResumeClears(s: State, id: string, t: ThreadId)
    requires WellFormed(s) && Apply(s, Resume(id, t)).Some?
    ensures id in s.shared.jobs && t !in s.threads
    ensures var (j, s') := (s.shared.jobs[id], Apply(s, Resume(id, t)).value);
            && s'.shared == s.shared.(heap := s.shared.heap[j := s.shared.heap[j].(phase := Retrying, needsReauth := false)])
            && s' == s.(shared := s'.shared, threads := s.threads[t := Thread(j, ResumeSaving, None)])
            && (!s.shared.heap[j].superseded ==> RequeueEligible(s'.shared, j) && Owner(s', j))
  {
  }

  // requeueEligible: retrying, not waiting for credentials, and the job its id stands for.
  lemma EligibleIff(s: Shared, j: JobRef)
    requires JobsPointIntoHeap(s) && j in s.heap
    ensures RequeueEligible(s, j) <==>
              s.heap[j].phase == Retrying && !s.heap[j].needsReauth && !s.heap[j].superseded && s.heap[j].id in s.jobs && s.jobs[s.heap[j].id] == j
    ensures RequeueEligible(s, j) ==> OwnerIntact(s, j)
  {
  }

  // Only the end of a round sets a job to wait for credentials.
  predicate AsksForCredentials(s: State, step: Step, j: JobRef) {
    step.WritePhase? && step.reauth && Of(s, step.t, j)
  }

  lemma WriteAsks(s: State, step: Step, j: JobRef)
    requires WellFormed(s) && Apply(s, step).Some? && step.WritePhase? && j in s.shared.heap && !s.shared.heap[j].needsReauth
    ensures j in Apply(s, step).value.shared.heap
    ensures Apply(s, step).value.shared.heap[j].needsReauth ==> AsksForCredentials(s, step, j)
  {
    assert s.threads[step.t].job in s.shared.heap;
    hide MayWritePhase, WellFormed;
  }

  lemma RegistryAsksNobody(s: State, step: Step, j: JobRef)
    requires WellFormed(s) && Apply(s, step).Some? && (step.Submit? || step.Recover? || step.Resume?)
    requires j in s.shared.heap && !s.shared.heap[j].needsReauth
    ensures j in Apply(s, step).value.shared.heap && !Apply(s, step).value.shared.heap[j].needsReauth
  {
  }

  lemma RecordsAskNobody(s: State, step: Step, j: JobRef)
    requires WellFormed(s) && Apply(s, step).Some? && (step.Measure? || step.Perform? || step.LockedSave?)
    requires j in s.shared.heap && !s.shared.heap[j].needsReauth
    ensures j in Apply(s, step).value.shared.heap && !Apply(s, step).value.shared.heap[j].needsReauth
  {
    hide WellFormed, OwnerIntact, AfterEffect, MayMeasure;
  }

  lemma StepAsks(s: State, step: Step, j: JobRef)
    requires WellFormed(s) && Apply(s, step).Some? && j in s.shared.heap && !s.shared.heap[j].needsReauth && !AsksForCredentials(s, step, j)
    ensures j in Apply(s, step).value.shared.heap && !Apply(s, step).value.shared.heap[j].needsReauth
  {
    hide Apply, WellFormed;
    if step.WritePhase? {
      WriteAsks(s, step, j);
    } else if step.Submit? || step.Recover? || step.Resume? {
      RegistryAsksNobody(s, step, j);
    } else if step.Measure? || step.Perform? || step.LockedSave? {
      RecordsAskNobody(s, step, j);
    } else {
      OthersKeepTheHeap(s, step);
    }
  }

  // From time i to time k no round of job j has ended with an error of credentials.
  ghost predicate NobodyAsks(r: Run, i: nat, k: nat, j: JobRef)
    requires IsRun(r) && k <= |r.steps|
  {
    forall m: nat | i <= m < k :: !AsksForCredentials(r.states[m], r.steps[m], j)
  }

  lemma {:induction false} StaysClear(r: Run, i: nat, k: nat, j: JobRef)
    requires IsRun(r) && i <= k <= |r.steps| && j in r.states[i].shared.heap && !r.states[i].shared.heap[j].needsReauth && NobodyAsks(r, i, k, j)
    ensures j in r.states[k].shared.heap && !r.states[k].shared.heap[j].needsReauth
    decreases k
  {
    if i < k {
      StaysClear(r, i, k - 1, j);
      assert Linked(r, k - 1);
      StepAsks(r.states[k - 1], r.steps[k - 1], j);
    }
  }

  // Step i resumes job j.
  ghost predicate ResumedAt(r: Run, i: nat, j: JobRef)
    requires IsRun(r)
  {
    i < |r.steps| && r.steps[i].Resume? && r.steps[i].id in r.states[i].shared.jobs && r.states[i].shared.jobs[r.steps[i].id] == j
  }

  // Goroutine t writes retrying for job j at step k.
  ghost predicate RetriesAt(r: Run, k: nat, t: ThreadId, j: JobRef)
    requires IsRun(r)
  {
    k < |r.steps| && r.steps[k].WritePhase? && r.steps[k].t == t && r.steps[k].p == Retrying && Of(r.states[k], t, j)
  }

  lemma RetryIsFinished(s: State, t: ThreadId, reauth: bool, to: Location)
    requires WellFormed(s) && Apply(s, WritePhase(t, Retrying, reauth, to)).Some? && Of(s, t, s.threads[t].job)
    ensures var (j, s') := (s.threads[t].job, Apply(s, WritePhase(t, Retrying, reauth, to)).value);
            && !reauth && (to == Finished <==> !s.shared.heap[j].needsReauth) && to in {Finished, Concluded}
            && s'.threads == s.threads[t := Thread(j, to, None)] && s'.shared == SetPhase(s.shared, j, Retrying, false) && s'.queue == s.queue
  {
    hide WellFormed;
  }

  // A resumed job is retried like a new one: until a round of it ends with an error of credentials, each of
  // its rounds that leaves it retrying may start a backoff goroutine, whatever it waited for before.
  lemma ResumedJobIsRetriedAgain(r: Run, i: nat, k: nat, t: ThreadId, j: JobRef)
    requires IsRun(r) && ResumedAt(r, i, j) && i < k && RetriesAt(r, k, t, j) && NobodyAsks(r, i, k, j)
    ensures Free(r.states[k + 1], t, j, Finished) && WellFormed(r.states[k + 1])
    ensures forall z: ThreadId | z !in r.states[k + 1].threads ::
              var after := Apply(r.states[k + 1], BackOff(t, z)); after.Some? && Free(after.value, z, j, Sleeping)
  {
    ResumedIsClear(r, i, k, j);
    RetryLeavesFinished(r, k, t, j);
    hide IsRun, WellFormed, Apply, RetriesAt, ResumedAt, NobodyAsks;
    forall z: ThreadId | z !in r.states[k + 1].threads
      ensures var after := Apply(r.states[k + 1], BackOff(t, z)); after.Some? && Free(after.value, z, j, Sleeping)
    {
      BackOffStarts(r.states[k + 1], t, z, j);
    }
  }

  lemma ResumedIsClear(r: Run, i: nat, k: nat, j: JobRef)
    requires IsRun(r) && ResumedAt(r, i, j) && i < k <= |r.steps| && NobodyAsks(r, i, k, j)
    ensures j in r.states[k].shared.heap && !r.states[k].shared.heap[j].needsReauth
  {
    assert Linked(r, i);
    ResumeClears(r.states[i], r.steps[i].id, r.steps[i].t);
    hide Apply, WellFormed;
    StaysClear(r, i + 1, k, j);
  }

  lemma RetryLeavesFinished(r: Run, k: nat, t: ThreadId, j: JobRef)
    requires IsRun(r) && RetriesAt(r, k, t, j) && j in r.states[k].shared.heap && !r.states[k].shared.heap[j].needsReauth
    ensures Free(r.states[k + 1], t, j, Finished) && WellFormed(r.states[k + 1])
  {
    assert Linked(r, k);
    RunStatesAreWellFormed(r, k + 1);
    assert r.steps[k] == WritePhase(t, Retrying, r.steps[k].reauth, r.steps[k].to);
    RetryIsFinished(r.states[k], t, r.steps[k].reauth, r.steps[k].to);
    hide Apply, WellFormed;
  }

  lemma BackOffStarts(s: State, t: ThreadId, z: ThreadId, j: JobRef)
    requires WellFormed(s) && Free(s, t, j, Finished) && z !in s.threads
    ensures Apply(s, BackOff(t, z)).Some? && Free(Apply(s, BackOff(t, z)).value, z, j, Sleeping)
  {
    hide WellFormed;
  }

  // ---------- A retry comes to the queue ----------

  // A backoff goroutine that wakes puts its job back on the queue exactly if it is still eligible.
  lemma SleeperWakesIff(s: State, z: ThreadId, j: JobRef)
    requires WellFormed(s) && Free(s, z, j, Sleeping)
    ensures Apply(s, Move(z, SleeperEnqueue)).Some? <==> RequeueEligible(s.shared, j)
    ensures Apply(s, Move(z, Exited)).Some? <==> !RequeueEligible(s.shared, j)
  {
    assert j in s.shared.heap;
    SleeperMayMove(s.shared, j);
    hide WellFormed, MayMove, RequeueEligible;
  }

  lemma SleeperMayMove(s: Shared, j: JobRef)
    requires j in s.heap
    ensures MayMove(s, j, Sleeping, SleeperEnqueue) <==> RequeueEligible(s, j)
    ensures MayMove(s, j, Sleeping, Exited) <==> !RequeueEligible(s, j)
  {
    hide RequeueEligible;
  }

  lemma Woken(r: Run, z: ThreadId, j: JobRef) returns (r': Run)
    requires IsRun(r) && WellFormed(Last(r)) && Free(Last(r), z, j, Sleeping) && RequeueEligible(Last(r).shared, j) && |Last(r).queue| < 16
    ensures IsRun(r') && WellFormed(Last(r')) && Extends(r, r') && Last(r').queue == Last(r).queue + [j] && Last(r').shared == Last(r).shared
  {
    assert |r.states| > 0;
    hide IsRun, WellFormed;
    SleeperWakesIff(Last(r), z, j);
    var r1 := Go(r, z, SleeperEnqueue);
    r' := Queued(r1, z, j);
  }

  lemma Queued(r: Run, z: ThreadId, j: JobRef) returns (r': Run)
    requires IsRun(r) && WellFormed(Last(r)) && Free(Last(r), z, j, SleeperEnqueue) && |Last(r).queue| < 16
    ensures IsRun(r') && WellFormed(Last(r')) && Extends(r, r') && Last(r').queue == Last(r).queue + [j] && Last(r').shared == Last(r).shared
  {
    r' := Extend(r, Step.Enqueue(z), EnqueueStep(Last(r), z).value);
  }

  // A round that has left its job retrying, with the job still its id's own: the retry may come to the queue.
  lemma RetryMayBeQueued(r: Run, t: ThreadId, z: ThreadId, j: JobRef) returns (r': Run)
    requires IsRun(r) && WellFormed(Last(r)) && Free(Last(r), t, j, Finished) && z !in Last(r).threads
    requires RequeueEligible(Last(r).shared, j) && |Last(r).queue| < 16
    ensures IsRun(r') && WellFormed(Last(r')) && Extends(r, r') && Last(r').queue == Last(r).queue + [j]
  {
    var s := Last(r);
    hide IsRun, WellFormed;
    var r1 := Extend(r, BackOff(t, z), s.(threads := s.threads[t := Thread(j, Leaving, None)][z := Thread(j, Sleeping, None)]));
    r' := Woken(r1, z, j);
  }

  // ---------- The queue, and the jobs found at start ----------

  // The queue is first in, first out, holds sixteen jobs, and drops what it cannot hold; whatever is taken
  // from it starts a run.
  lemma QueueIsFifo(s: State, step: Step)
    requires WellFormed(s) && Apply(s, step).Some?
    ensures var s' := Apply(s, step).value;
            match step
            case Enqueue(t) =>
              && t in s.threads && s'.threads == s.threads[t := Thread(s.threads[t].job, Exited, None)]
              && s'.queue == (if |s.queue| < 16 then s.queue + [s.threads[t].job] else s.queue)
            case Dequeue(t) => s.queue == [s'.threads[t].job] + s'.queue && Free(s', t, s'.threads[t].job, RunEntry)
            case Recover(j, job) => s'.queue == if job.needsReauth || |s.queue| >= 16 then s.queue else s.queue + [j]
            case _ => s'.queue == s.queue
  {
    if KeepsShared(step) {
      hide MayMove, MayAttempt, OwnerIntact, AfterRefusal, WellFormed;
    } else {
      hide MayWritePhase, MayMeasure, SubmitLocked, OwnerIntact, AfterEffect, AfterPerform;
    }
  }

  // A job found at start is the one of its id, as it was; one that is over or that has a job already is not
  // taken.
  lemma RecoveredIsItself(s: State, j: JobRef, job: Job)
    requires WellFormed(s)
    ensures Apply(s, Recover(j, job)).Some? <==> j !in s.shared.heap && !job.phase.Terminal() && job.id !in s.shared.jobs
    ensures Apply(s, Recover(j, job)).Some? ==>
              var s' := Apply(s, Recover(j, job)).value;
              s'.shared == s.shared.(heap := s.shared.heap[j := job], jobs := s.shared.jobs[job.id := j]) && s'.threads == s.threads
  {
  }

  // ---------- The start and the end of a run ----------

  // A run of a replaced job ends before it registers.
  lemma ReplacedRunEndsAtEntry(s: State, t: ThreadId, j: JobRef, to: Location)
    requires WellFormed(s) && Free(s, t, j, RunEntry)
    ensures j in s.shared.heap
    ensures Apply(s, Move(t, to)).Some? <==> to == if s.shared.heap[j].superseded then Exited else RunRegister
  {
    assert j in s.shared.heap;
    hide WellFormed;
  }

  // Who registers runs if its job is its id's own, with its cancel function in the table, and leaves otherwise;
  // nothing else changes.
  lemma RegisterDecides(s: State, t: ThreadId, j: JobRef)
    requires WellFormed(s) && Free(s, t, j, RunRegister)
    ensures j in s.shared.heap && Apply(s, RegisterRun(t)).Some?
    ensures var (s', owner) := (Apply(s, RegisterRun(t)).value, Owner(s, j));
            && Free(s', t, j, if owner then Advancing else Exited) && s'.queue == s.queue
            && s'.shared == if owner then s.shared.(cancels := s.shared.cancels[s.shared.heap[j].id := t]) else s.shared
  {
    assert j in s.shared.heap;
    hide WellFormed, OwnerIntact;
  }

  // A run that leaves is gone, and so is the cancel function of its id.
  lemma LeaveIsFinal(s: State, t: ThreadId, j: JobRef)
    requires WellFormed(s) && Free(s, t, j, Leaving)
    ensures j in s.shared.heap && Apply(s, Leave(t)).Some?
    ensures var s' := Apply(s, Leave(t)).value;
            && Free(s', t, j, Exited) && s'.queue == s.queue
            && s'.shared == s.shared.(cancels := s.shared.cancels - {s.shared.heap[j].id})
  {
    assert j in s.shared.heap;
    hide WellFormed;
  }

  // A goroutine that has left does nothing any more.
  lemma ExitedIsFinal(s: State, t: ThreadId, step: Step)
    requires WellFormed(s) && Apply(s, step).Some? && t in s.threads && s.threads[t].at == Exited && s.threads[t].armed == None
    ensures t in Apply(s, step).value.threads && Apply(s, step).value.threads[t] == s.threads[t]
  {
    if Actor(step) == Some(t) {
      if Starts(step) {
        StartersAreNew(s, step, t);
      } else {
        NobodyMovesFromExited(s, t, step);
      }
    } else {
      OthersStay(s, step, t);
    }
  }

  lemma NobodyMovesFromExited(s: State, t: ThreadId, step: Step)
    requires WellFormed(s) && Apply(s, step).Some? && t in s.threads && s.threads[t] == Thread(s.threads[t].job, Exited, None)
    requires Actor(step) == Some(t) && !Starts(step)
    ensures t in Apply(s, step).value.threads && Apply(s, step).value.threads[t] == s.threads[t]
  {
    hide WellFormed, OwnerIntact, Normalizes, Classifies, Stage;
  }

  // ---------- A cancel ----------

  // A cancel is for the job of the id; it changes the phase to failed and nothing else, whoever runs the job.
  lemma CancelFails(s: State, id: string, t: ThreadId)
    requires WellFormed(s)
    ensures Apply(s, Cancel(id, t)).Some? <==> id in s.shared.jobs && t !in s.threads
    ensures Apply(s, Cancel(id, t)).Some? ==>
              var s' := Apply(s, Cancel(id, t)).value;
              s'.shared == s.shared && s'.queue == s.queue && s'.threads == s.threads[t := Thread(s.shared.jobs[id], CancelMark, None)]
  {
  }

  lemma CancelMarkWrites(s: State, t: ThreadId, p: Phase, reauth: bool, to: Location, j: JobRef)
    requires WellFormed(s) && Free(s, t, j, CancelMark)
    ensures WritePhaseStep(s, t, p, reauth, to).Some? <==> p == Failed && !reauth && to == CancelSaving
    ensures j in s.shared.heap
    ensures WritePhaseStep(s, t, p, reauth, to).Some? ==>
              WritePhaseStep(s, t, p, reauth, to).value.shared == s.shared.(heap := s.shared.heap[j := s.shared.heap[j].(phase := Failed)])
  {
    assert j in s.shared.heap;
    CancelMayWrite(s.shared, j, p, reauth, to, t in s.dogs.stalled);
    hide WellFormed, MayWritePhase;
  }

  lemma CancelMayWrite(s: Shared, j: JobRef, p: Phase, reauth: bool, to: Location, stalled: bool)
    requires j in s.heap
    ensures MayWritePhase(s, j, CancelMark, p, reauth, to, stalled) <==> p == Failed && !reauth && to == CancelSaving
  {
  }

  // ---------- The relaxation of TLS ----------

  predicate Relaxes(s: State, step: Step, j: JobRef) {
    step.WritePhase? && Of(s, step.t, j) && (s.threads[step.t].at == UploadBroken || s.threads[step.t].at == PostFailed)
  }

  predicate Insecure(s: State, j: JobRef) { j in s.shared.heap && s.shared.heap[j].held.insecure }

  lemma RegistryStaysInsecure(s: State, step: Step, j: JobRef)
    requires WellFormed(s) && Apply(s, step).Some? && (step.Submit? || step.Recover? || step.Resume?) && Insecure(s, j)
    ensures Insecure(Apply(s, step).value, j)
  {
  }

  lemma WriteStaysInsecure(s: State, step: Step, j: JobRef)
    requires WellFormed(s) && Apply(s, step).Some? && step.WritePhase? && j in s.shared.heap
    ensures Insecure(s, j) || Relaxes(s, step, j) ==> Insecure(Apply(s, step).value, j)
    ensures Relaxes(s, step, j) ==> !Insecure(s, j)
  {
    assert s.threads[step.t].job in s.shared.heap;
    hide WellFormed, Normalizes, Classifies, OwnerIntact;
  }

  lemma RecordsStayInsecure(s: State, step: Step, j: JobRef)
    requires WellFormed(s) && Apply(s, step).Some? && (step.Measure? || step.Perform? || step.LockedSave?) && Insecure(s, j)
    ensures Insecure(Apply(s, step).value, j)
  {
    hide WellFormed, OwnerIntact, AfterEffect, MayMeasure;
  }

  lemma StaysInsecure(s: State, step: Step, j: JobRef)
    requires WellFormed(s) && Apply(s, step).Some? && Insecure(s, j)
    ensures Insecure(Apply(s, step).value, j)
  {
    hide Apply, WellFormed;
    if step.WritePhase? {
      WriteStaysInsecure(s, step, j);
    } else if step.Submit? || step.Recover? || step.Resume? {
      RegistryStaysInsecure(s, step, j);
    } else if step.Measure? || step.Perform? || step.LockedSave? {
      RecordsStayInsecure(s, step, j);
    } else {
      OthersKeepTheHeap(s, step);
    }
  }

  lemma {:induction false} InsecureLater(r: Run, i: nat, k: nat, j: JobRef)
    requires IsRun(r) && i <= k <= |r.steps| && Insecure(r.states[i], j)
    ensures Insecure(r.states[k], j)
    decreases k
  {
    if i < k {
      InsecureLater(r, i, k - 1, j);
      assert Linked(r, k - 1);
      StaysInsecure(r.states[k - 1], r.steps[k - 1], j);
    }
  }

  // Certificates are given up at most once for a job, however many goroutines run it and however often it is
  // retried.
  lemma RelaxedAtMostOnce(r: Run, i: nat, k: nat, j: JobRef)
    requires IsRun(r) && i < |r.steps| && k < |r.steps| && Relaxes(r.states[i], r.steps[i], j) && Relaxes(r.states[k], r.steps[k], j)
    ensures i == k
  {
    var (first, last) := if i < k then (i, k) else (k, i);
    assert Linked(r, first) && Linked(r, last);
    WriteStaysInsecure(r.states[first], r.steps[first], j);
    WriteStaysInsecure(r.states[last], r.steps[last], j);
    hide Apply, WellFormed;
    if first < last {
      InsecureLater(r, first + 1, last, j);
    }
  }
}
