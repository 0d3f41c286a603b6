/**
  Where the goroutines of the delivery runner stand before and after one atomic step.
*/
module DeliverySteps {
  import opened DeliveryFencing
  import opened DeliveryPhases
  import opened Options

  // The goroutine a step starts or moves; BackOff starts one and moves another.
  function Actor(step: Step): Option<ThreadId> {
    match step
    case Submit(_, _, t) => Some(t)
    case Recover(_, _) => None
    case Dequeue(t) => Some(t)
    case Resume(_, t) => Some(t)
    case Cancel(_, t) => Some(t)
    case Measure(t, _, _) => Some(t)
    case Notice(t) => Some(t)
    case MarkStalled(t) => Some(t)
    case SpawnWorker(_, w) => Some(w)
    case PartFailed(t, _) => Some(t)
    case Enqueue(t) => Some(t)
    case RegisterRun(t) => Some(t)
    case Move(t, _) => Some(t)
    case WritePhase(t, _, _, _) => Some(t)
    case Check(t, _) => Some(t)
    case Perform(t, _) => Some(t)
    case LockedSave(t) => Some(t)
    case RemoveLocal(t) => Some(t)
    case AppendLocal(t) => Some(t)
    case BackOff(t, _) => Some(t)
    case Leave(t) => Some(t)
  }

  predicate Starts(step: Step) {
    step.Submit? || step.Recover? || step.Dequeue? || step.Resume? || step.Cancel? || step.SpawnWorker?
  }

  // Goroutine t runs job e.
  predicate InRunOf(s: State, t: ThreadId, e: JobRef) {
    t in s.threads && s.threads[t].job == e && InRun(s.threads[t].at)
  }

  // In a stage that leads to pullArchive or in it, and not past it.
  predicate OnPullBranch(at: Location) { 2 < Rank(at) < 7 }

  // A goroutine that drives its job, or is going to: by running it, by putting it on the queue, or
  // by waking up from backoff. A run that has only its cleanup to do is none.
  predicate Holds(at: Location) {
    !IsWorker(at) && !at.CancelMark? && !at.CancelSaving? && !at.Leaving? && !at.Exited?
  }

  predicate IsWorker(at: Location) { at.WorkerLoop? || at.WorkerReading? || at.WorkerSent? || at.WorkerFailed? }

  // A phase that leads to pullArchive.
  predicate LeadsToPull(p: Phase) { p.Blank? || p.WaitingCollect? || p.Pulling? }

  lemma StartLeavesOthers(s: State, step: Step, t: ThreadId)
    requires WellFormed(s) && Apply(s, step).Some? && t in s.threads && Actor(step) != Some(t) && Starts(step)
    ensures t in Apply(s, step).value.threads && Apply(s, step).value.threads[t] == s.threads[t]
  {
    hide SubmitLocked, WellFormed;
  }

  lemma MoveLeavesOthers(s: State, step: Step, t: ThreadId)
    requires WellFormed(s) && Apply(s, step).Some? && t in s.threads && Actor(step) != Some(t) && !Starts(step)
    ensures t in Apply(s, step).value.threads && Apply(s, step).value.threads[t] == s.threads[t]
  {
    hide MayMove, MayWritePhase, MayAttempt, WellFormed, AfterEffect, AfterRefusal;
  }

  lemma StartersAreOutside(s: State, step: Step, t: ThreadId)
    requires WellFormed(s) && Apply(s, step).Some? && t !in s.threads && t in Apply(s, step).value.threads && Starts(step)
    ensures !InRun(Apply(s, step).value.threads[t].at)
  {
    hide MayMove, MayWritePhase, MayAttempt, SubmitLocked, RegisterLocked, WellFormed;
  }

  // Of the other steps only the start of a backoff goroutine brings one.
  lemma SleepersAreOutside(s: State, step: Step, t: ThreadId)
    requires WellFormed(s) && Apply(s, step).Some? && t !in s.threads && t in Apply(s, step).value.threads && !Starts(step)
    ensures !InRun(Apply(s, step).value.threads[t].at)
  {
    hide MayMove, MayWritePhase, MayAttempt, SubmitLocked, RegisterLocked;
  }

  lemma NewcomersAreOutside(s: State, step: Step, t: ThreadId)
    requires WellFormed(s) && Apply(s, step).Some? && t !in s.threads && t in Apply(s, step).value.threads
    ensures !InRun(Apply(s, step).value.threads[t].at)
  {
    hide Apply, InRun, WellFormed;
    if Starts(step) {
      StartersAreOutside(s, step, t);
    } else {
      SleepersAreOutside(s, step, t);
    }
  }

  // What may be pending at a location.
  predicate Fits(th: Thread) {
    th.armed.Some? ==> (th.at == SubmitSaving && th.armed.value == SaveJournal) || MayAttempt(th.at, th.armed.value)
  }

  lemma StartArmsFitting(s: State, step: Step, t: ThreadId)
    requires WellFormed(s) && Apply(s, step).Some? && Starts(step) && IsArmed(Apply(s, step).value, t) && !IsArmed(s, t)
    ensures Fits(Apply(s, step).value.threads[t])
  {
    hide SubmitLocked;
  }

  // Of the other steps only a test arms.
  lemma MoveArmsFitting(s: State, step: Step, t: ThreadId)
    requires WellFormed(s) && Apply(s, step).Some? && !Starts(step) && IsArmed(Apply(s, step).value, t) && !IsArmed(s, t)
    ensures Fits(Apply(s, step).value.threads[t])
  {
    if step.Check? {
      assert Apply(s, step) == CheckStep(s, step.t, step.e);
    } else {
      OthersDoNotArm(s, step, t);
    }
  }

  lemma OthersDoNotArm(s: State, step: Step, t: ThreadId)
    requires WellFormed(s) && Apply(s, step).Some? && !Starts(step) && !step.Check? && !IsArmed(s, t)
    ensures !IsArmed(Apply(s, step).value, t)
  {
    hide MayMove, MayWritePhase, MayAttempt, OwnerIntact, WellFormed, AfterEffect, RegisterLocked, SaveLocked;
  }

  lemma {:induction false} PendingFits(r: Run, k: nat, t: ThreadId)
    requires IsRun(r) && k <= |r.steps| && t in r.states[k].threads
    ensures Fits(r.states[k].threads[t])
    decreases k
  {
    if k > 0 && IsArmed(r.states[k], t) {
      RunEvolves(r, k - 1);
      assert Linked(r, k - 1);
      if IsArmed(r.states[k - 1], t) {
        ArmedBefore(r, k, t);
        PendingFits(r, k - 1, t);
      } else {
        if Starts(r.steps[k - 1]) {
          StartArmsFitting(r.states[k - 1], r.steps[k - 1], t);
        } else {
          MoveArmsFitting(r.states[k - 1], r.steps[k - 1], t);
        }
      }
    }
  }

  // A goroutine only moves forward; it comes into a run only by registering as the owner, comes from
  // the switch to the pull branch only at a phase that leads there, leaves the run only by its
  // cleanup, and once it has let go of its job it does not take it up again.
  predicate MovesOn(s: State, step: Step, t: ThreadId, s': State) {
    && t in s.threads && s.threads[t].job in s.shared.heap && t in s'.threads
    && var (at, at') := (s.threads[t].at, s'.threads[t].at);
       && Rank(at) <= Rank(at')
       && (Rank(at) == 0 && InRun(at') ==> at' == Advancing && step == RegisterRun(t) && Owner(s, s.threads[t].job))
       && (OnPullBranch(at') ==> OnPullBranch(at) || (at == Switching && LeadsToPull(s.shared.heap[s.threads[t].job].phase)))
       && (InRun(at) && !InRun(at') ==> step == Leave(t))
       && (Holds(at') ==> Holds(at))
  }

  // Forward, inside the run or outside of it, and not to the pull branch.
  predicate Ahead(at: Location, to: Location) {
    && Rank(at) <= Rank(to)
    && (InRun(at) <==> InRun(to))
    && (OnPullBranch(to) ==> OnPullBranch(at))
    && (Holds(to) ==> Holds(at))
  }

  lemma EffectsGoAhead(at: Location, e: Effect, ok: bool)
    requires Fits(Thread(0, at, Some(e)))
    ensures Ahead(at, AfterEffect(at, e, ok))
    ensures MayAttempt(at, e) ==> Ahead(at, AfterRefusal(at, e))
  {
  }

  lemma PerformMovesOn(s: State, t: ThreadId, ok: bool)
    requires WellFormed(s) && PerformStep(s, t, ok).Some? && Fits(s.threads[t])
    ensures MovesOn(s, Perform(t, ok), t, PerformStep(s, t, ok).value)
  {
    EffectsGoAhead(s.threads[t].at, s.threads[t].armed.value, ok);
    hide AfterEffect;
  }

  lemma CheckMovesOn(s: State, t: ThreadId, e: Effect)
    requires WellFormed(s) && CheckStep(s, t, e).Some?
    ensures MovesOn(s, Check(t, e), t, CheckStep(s, t, e).value)
  {
    EffectsGoAhead(s.threads[t].at, e, true);
    hide AfterRefusal, MayAttempt;
  }

  // What a move and a write of the phase have in common.
  predicate Forward(s: Shared, j: JobRef, at: Location, to: Location)
    requires j in s.heap
  {
    Ahead(at, to) || (at == Switching && OnPullBranch(to) && LeadsToPull(s.heap[j].phase))
  }

  lemma EarlyMovesGoForward(s: Shared, j: JobRef, at: Location, to: Location)
    requires j in s.heap && MayMove(s, j, at, to) && 0 < Rank(at) < 7
    ensures Forward(s, j, at, to)
  {
  }

  lemma LateMovesGoForward(s: Shared, j: JobRef, at: Location, to: Location)
    requires j in s.heap && MayMove(s, j, at, to) && 7 <= Rank(at)
    ensures Forward(s, j, at, to)
  {
    LateMovesGo(s, j, at, to);
    hide MayMove;
  }

  lemma LateMovesGo(s: Shared, j: JobRef, at: Location, to: Location)
    requires j in s.heap && MayMove(s, j, at, to) && 7 <= Rank(at)
    ensures Rank(at) < Rank(to) < 24
    ensures to == Leaving || (at != Leaving && Holds(to))
  {
    hide Stage, OwnerIntact, RequeueEligible;
  }

  lemma OuterMovesGoForward(s: Shared, j: JobRef, at: Location, to: Location)
    requires j in s.heap && MayMove(s, j, at, to) && Rank(at) == 0
    ensures Forward(s, j, at, to)
  {
    OuterMovesStayOut(s, j, at, to);
    hide MayMove, Stage;
  }

  lemma OuterMovesStayOut(s: Shared, j: JobRef, at: Location, to: Location)
    requires j in s.heap && MayMove(s, j, at, to) && Rank(at) == 0
    ensures to == Exited || to == RunRegister || to == SleeperEnqueue || to.WorkerReading? || to.WorkerFailed?
    ensures Holds(to) ==> Holds(at)
  {
    hide Stage;
  }

  lemma MovesGoForward(s: Shared, j: JobRef, at: Location, to: Location)
    requires j in s.heap && MayMove(s, j, at, to)
    ensures Forward(s, j, at, to)
  {
    hide MayMove, Forward, Rank;
    if Rank(at) == 0 {
      OuterMovesGoForward(s, j, at, to);
    } else if Rank(at) < 7 {
      EarlyMovesGoForward(s, j, at, to);
    } else {
      LateMovesGoForward(s, j, at, to);
    }
  }

  lemma WritesGoForward(s: Shared, j: JobRef, at: Location, p: Phase, reauth: bool, to: Location, stalled: bool)
    requires j in s.heap && MayWritePhase(s, j, at, p, reauth, to, stalled)
    ensures Forward(s, j, at, to)
  {
  }

  lemma ForwardMovesOn(s: State, step: Step, t: ThreadId, s': State)
    requires t in s.threads && s.threads[t].job in s.shared.heap && t in s'.threads
    requires Forward(s.shared, s.threads[t].job, s.threads[t].at, s'.threads[t].at)
    ensures MovesOn(s, step, t, s')
  {
    hide LeadsToPull, Owner;
  }

  lemma MoveMovesOn(s: State, t: ThreadId, to: Location)
    requires WellFormed(s) && MoveStep(s, t, to).Some?
    ensures MovesOn(s, Move(t, to), t, MoveStep(s, t, to).value)
  {
    assert s.threads[t].job in s.shared.heap;
    MovesGoForward(s.shared, s.threads[t].job, s.threads[t].at, to);
    hide MayMove, WellFormed, Forward, MovesOn, Rank;
    ForwardMovesOn(s, Move(t, to), t, MoveStep(s, t, to).value);
  }

  lemma WritePhaseMovesOn(s: State, t: ThreadId, p: Phase, reauth: bool, to: Location)
    requires WellFormed(s) && WritePhaseStep(s, t, p, reauth, to).Some?
    ensures MovesOn(s, WritePhase(t, p, reauth, to), t, WritePhaseStep(s, t, p, reauth, to).value)
  {
    assert s.threads[t].job in s.shared.heap;
    WritesGoForward(s.shared, s.threads[t].job, s.threads[t].at, p, reauth, to, t in s.dogs.stalled);
    hide MayWritePhase, WellFormed, Forward, MovesOn, Rank;
    ForwardMovesOn(s, WritePhase(t, p, reauth, to), t, WritePhaseStep(s, t, p, reauth, to).value);
  }

  lemma LeaveMovesOn(s: State, t: ThreadId)
    requires WellFormed(s) && LeaveStep(s, t).Some?
    ensures MovesOn(s, Leave(t), t, LeaveStep(s, t).value)
  {
    assert s.threads[t].job in s.shared.heap;
    hide WellFormed, MovesOn;
    LeavingMovesOn(s, t, LeaveStep(s, t).value);
  }

  lemma LeavingMovesOn(s: State, t: ThreadId, s': State)
    requires t in s.threads && s.threads[t].job in s.shared.heap && s.threads[t].at == Leaving
    requires t in s'.threads && s'.threads[t].at == Exited
    ensures MovesOn(s, Leave(t), t, s')
  {
  }

  // The steps that only move a goroutine from one known place to another.
  lemma PlainMovesGoAhead(at: Location, to: Location)
    requires MayMeasure(at, to) || (at == Finished && to == Leaving) || (at == UploadJoin && to == UploadBroken)
    ensures Ahead(at, to)
  {
  }

  lemma BackOffMovesOn(s: State, t: ThreadId, z: ThreadId)
    requires WellFormed(s) && BackOffStep(s, t, z).Some?
    ensures MovesOn(s, BackOff(t, z), t, BackOffStep(s, t, z).value)
  {
    assert s.threads[t].job in s.shared.heap;
    PlainMovesGoAhead(Finished, Leaving);
    hide WellFormed, MovesOn, Ahead, Rank;
    ForwardMovesOn(s, BackOff(t, z), t, BackOffStep(s, t, z).value);
  }

  // A step that starts a goroutine starts a new one.
  lemma StartersAreNew(s: State, step: Step, t: ThreadId)
    requires WellFormed(s) && Apply(s, step).Some? && Actor(step) == Some(t) && Starts(step)
    ensures t !in s.threads
  {
    hide SubmitLocked, WellFormed;
  }

  lemma RegisterMovesOn(s: State, t: ThreadId)
    requires WellFormed(s) && RegisterStep(s, t).Some?
    ensures MovesOn(s, RegisterRun(t), t, RegisterStep(s, t).value)
  {
  }

  lemma EnqueueMovesOn(s: State, t: ThreadId)
    requires WellFormed(s) && EnqueueStep(s, t).Some?
    ensures MovesOn(s, Step.Enqueue(t), t, EnqueueStep(s, t).value)
  {
    assert s.threads[t].job in s.shared.heap;
    hide WellFormed;
  }

  lemma SaveMovesOn(s: State, t: ThreadId)
    requires WellFormed(s) && LockedSaveStep(s, t).Some?
    ensures MovesOn(s, LockedSave(t), t, LockedSaveStep(s, t).value)
  {
  }

  lemma RemoveMovesOn(s: State, t: ThreadId)
    requires WellFormed(s) && RemoveLocalStep(s, t).Some?
    ensures MovesOn(s, RemoveLocal(t), t, RemoveLocalStep(s, t).value)
  {
  }

  lemma AppendMovesOn(s: State, t: ThreadId)
    requires WellFormed(s) && AppendLocalStep(s, t).Some?
    ensures MovesOn(s, AppendLocal(t), t, AppendLocalStep(s, t).value)
  {
  }

  lemma MeasureMovesOn(s: State, t: ThreadId, full: bool, to: Location)
    requires WellFormed(s) && MeasureStep(s, t, full, to).Some?
    ensures MovesOn(s, Measure(t, full, to), t, MeasureStep(s, t, full, to).value)
  {
    assert s.threads[t].job in s.shared.heap;
    PlainMovesGoAhead(s.threads[t].at, to);
    hide WellFormed, MovesOn, Ahead, Rank, MayMeasure;
    ForwardMovesOn(s, Measure(t, full, to), t, MeasureStep(s, t, full, to).value);
  }

  lemma PartFailedMovesOn(s: State, t: ThreadId, w: ThreadId)
    requires WellFormed(s) && PartFailedStep(s, t, w).Some?
    ensures MovesOn(s, PartFailed(t, w), t, PartFailedStep(s, t, w).value)
  {
    assert s.threads[t].job in s.shared.heap;
    PlainMovesGoAhead(UploadJoin, UploadBroken);
    hide WellFormed, MovesOn, Ahead, Rank;
    ForwardMovesOn(s, PartFailed(t, w), t, PartFailedStep(s, t, w).value);
  }

  lemma DogsMoveNobody(s: State, step: Step, t: ThreadId)
    requires WellFormed(s) && t in s.threads && (step == Notice(t) || step == MarkStalled(t)) && Apply(s, step).Some?
    ensures MovesOn(s, step, t, Apply(s, step).value)
  {
    assert s.threads[t].job in s.shared.heap;
    hide WellFormed;
  }

  lemma ActorMovesOn(s: State, step: Step, t: ThreadId)
    requires WellFormed(s) && Apply(s, step).Some? && t in s.threads && Actor(step) == Some(t) && Fits(s.threads[t])
    ensures MovesOn(s, step, t, Apply(s, step).value)
  {
    hide MovesOn, Fits, WellFormed, PerformStep, MoveStep, WritePhaseStep, CheckStep, EnqueueStep, RegisterStep, LockedSaveStep;
    hide RemoveLocalStep, AppendLocalStep, MeasureStep, PartFailedStep, NoticeStep, MarkStalledStep, BackOffStep, LeaveStep, SubmitStep, RecoverStep, DequeueStep, ResumeStep, CancelStep, SpawnStep;
    match step
    case Perform(_, ok) => PerformMovesOn(s, t, ok);
    case Move(_, to) => MoveMovesOn(s, t, to);
    case WritePhase(_, p, reauth, to) => WritePhaseMovesOn(s, t, p, reauth, to);
    case Check(_, e) => CheckMovesOn(s, t, e);
    case Enqueue(_) => EnqueueMovesOn(s, t);
    case RegisterRun(_) => RegisterMovesOn(s, t);
    case Measure(_, full, to) => MeasureMovesOn(s, t, full, to);
    case PartFailed(_, w) => PartFailedMovesOn(s, t, w);
    case Notice(_) | MarkStalled(_) => DogsMoveNobody(s, step, t);
    case LockedSave(_) => SaveMovesOn(s, t);
    case RemoveLocal(_) => RemoveMovesOn(s, t);
    case AppendLocal(_) => AppendMovesOn(s, t);
    case BackOff(_, z) => BackOffMovesOn(s, t, z);
    case Leave(_) => LeaveMovesOn(s, t);
    case _ => StartersAreNew(s, step, t);
  }

  // What all of this says about one step of a run.
  lemma OneStep(r: Run, i: nat, t: ThreadId)
    requires IsRun(r) && i < |r.steps| && t in r.states[i + 1].threads
    ensures t !in r.states[i].threads ==> !InRun(r.states[i + 1].threads[t].at)
    ensures t in r.states[i].threads ==>
              && r.states[i + 1].threads[t].job == r.states[i].threads[t].job
              && MovesOn(r.states[i], r.steps[i], t, r.states[i + 1])
  {
    var s, step := r.states[i], r.steps[i];
    RunEvolves(r, i);
    assert Linked(r, i);
    if t !in s.threads {
      NewcomersAreOutside(s, step, t);
    } else if Actor(step) == Some(t) {
      PendingFits(r, i, t);
      ActorMovesOn(s, step, t);
    } else {
      OthersStay(s, step, t);
    }
  }

  lemma OthersStay(s: State, step: Step, t: ThreadId)
    requires WellFormed(s) && Apply(s, step).Some? && t in s.threads && Actor(step) != Some(t)
    ensures t in Apply(s, step).value.threads && Apply(s, step).value.threads[t] == s.threads[t]
  {
    hide Apply, WellFormed;
    if Starts(step) {
      StartLeavesOthers(s, step, t);
    } else {
      MoveLeavesOthers(s, step, t);
    }
  }
}
