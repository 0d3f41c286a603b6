/**
  Who drives a job. resume puts a job on the queue without looking whether it is there already, or
  asleep in backoff, or running: this module says exactly when a job is driven by one run at a time.
*/
module DeliveryDrivers {
  import opened DeliveryFencing
  import opened DeliveryPhases
  import opened DeliverySteps
  import opened Options

  // The goroutines of job j that drive it or are going to.
  ghost function HoldersOf(s: State, j: JobRef): set<ThreadId> {
    set t | t in s.threads && s.threads[t].job == j && Holds(s.threads[t].at)
  }

  // Places in the queue, runs, backoff sleepers and pending enqueues of job j; a run counts until it
  // has started its sleeper, or has nothing but its cleanup to do.
  ghost function Tokens(s: State, j: JobRef): nat {
    |HoldersOf(s, j)| + multiset(s.queue)[j]
  }

  // Step i is a resume of job j.
  ghost predicate Resumes(r: Run, i: nat, j: JobRef)
    requires IsRun(r)
  {
    && i < |r.steps| && r.steps[i].Resume?
    && r.steps[i].id in r.states[i].shared.jobs && r.states[i].shared.jobs[r.steps[i].id] == j
  }

  // A goroutine that was not there before the step.
  predicate Arrives(s: State, step: Step, t: ThreadId, th: Thread) {
    match step
    case Submit(j, _, u) => t == u && th.job == j
    case Dequeue(u) => t == u && s.queue != [] && th == Thread(s.queue[0], RunEntry, None)
    case Resume(id, u) => t == u && id in s.shared.jobs && th == Thread(s.shared.jobs[id], ResumeSaving, None)
    case BackOff(u, z) => t == z && u in s.threads && th == Thread(s.threads[u].job, Sleeping, None)
    case _ => !Holds(th.at)
  }

  lemma NewcomersArrive(s: State, step: Step, t: ThreadId)
    requires WellFormed(s) && Apply(s, step).Some? && t !in s.threads && t in Apply(s, step).value.threads
    ensures Arrives(s, step, t, Apply(s, step).value.threads[t])
  {
    hide MayMove, MayWritePhase, MayAttempt;
  }

  // What a step does to the queue.
  predicate QueueMoves(s: State, step: Step, queue: seq<JobRef>) {
    match step
    case Recover(j, _) => queue == s.queue || queue == Push(s.queue, j)
    case Dequeue(_) => s.queue != [] && queue == s.queue[1..]
    case Enqueue(t) => t in s.threads && Holds(s.threads[t].at) && queue == Push(s.queue, s.threads[t].job)
    case _ => queue == s.queue
  }

  lemma StepMovesQueue(s: State, step: Step)
    requires WellFormed(s) && Apply(s, step).Some?
    ensures QueueMoves(s, step, Apply(s, step).value.queue)
  {
    hide MayMove, MayWritePhase, MayAttempt, SubmitLocked, RegisterLocked, WellFormed;
  }

  lemma HoldersAfter(r: Run, i: nat, j: JobRef, t: ThreadId)
    requires IsRun(r) && i < |r.steps| && t in HoldersOf(r.states[i + 1], j) && t !in HoldersOf(r.states[i], j)
    ensures t !in r.states[i].threads && Arrives(r.states[i], r.steps[i], t, r.states[i + 1].threads[t])
  {
    OneStep(r, i, t);
    if t !in r.states[i].threads {
      assert Linked(r, i);
      NewcomersArrive(r.states[i], r.steps[i], t);
    }
  }

  lemma NobodyHoldsAnUnknownJob(s: State, j: JobRef)
    requires WellFormed(s) && j !in s.shared.heap
    ensures Tokens(s, j) == 0
  {
    assert HoldersOf(s, j) == {};
  }

  // The goroutines that drive j after a step: no others than before, but for one that arrives.
  ghost function Newcomer(s: State, step: Step, j: JobRef): set<ThreadId> {
    match step
    case Submit(k, _, t) => if k == j then {t} else {}
    case Dequeue(t) => if s.queue != [] && s.queue[0] == j then {t} else {}
    case Resume(id, t) => if id in s.shared.jobs && s.shared.jobs[id] == j then {t} else {}
    case BackOff(t, z) => if t in s.threads && s.threads[t].job == j then {z} else {}
    case _ => {}
  }

  lemma HoldersGrowByTheNewcomer(r: Run, i: nat, j: JobRef)
    requires IsRun(r) && i < |r.steps|
    ensures HoldersOf(r.states[i + 1], j) <= HoldersOf(r.states[i], j) + Newcomer(r.states[i], r.steps[i], j)
  {
    forall t | t in HoldersOf(r.states[i + 1], j) && t !in HoldersOf(r.states[i], j)
      ensures t in Newcomer(r.states[i], r.steps[i], j)
    {
      HoldersAfter(r, i, j, t);
    }
  }

  lemma Pushed(queue: seq<JobRef>, k: JobRef, j: JobRef)
    ensures multiset(Push(queue, k))[j] <= multiset(queue)[j] + if k == j then 1 else 0
  {
  }

  lemma TakenHead(queue: seq<JobRef>, j: JobRef)
    requires queue != []
    ensures multiset(queue[1..])[j] + (if queue[0] == j then 1 else 0) == multiset(queue)[j]
  {
    assert queue == [queue[0]] + queue[1..];
  }

  // A goroutine that queues the job, or that has started a sleeper, drives it no more.
  lemma GivesUp(r: Run, i: nat, t: ThreadId)
    requires IsRun(r) && i < |r.steps| && (r.steps[i] == Step.Enqueue(t) || (r.steps[i].BackOff? && r.steps[i].t == t))
    ensures t in r.states[i].threads && Holds(r.states[i].threads[t].at)
    ensures t in r.states[i + 1].threads && !Holds(r.states[i + 1].threads[t].at)
  {
    assert Linked(r, i);
    if r.steps[i].BackOff? {
      assert BackOffStep(r.states[i], t, r.steps[i].z) == Some(r.states[i + 1]);
    } else {
      assert EnqueueStep(r.states[i], t) == Some(r.states[i + 1]);
    }
  }

  lemma TradesNoMore(r: Run, i: nat, j: JobRef)
    requires IsRun(r) && i < |r.steps| && !Resumes(r, i, j) && j in r.states[i].shared.heap
    requires !r.steps[i].Enqueue? && !r.steps[i].BackOff? && !r.steps[i].Dequeue?
    ensures Tokens(r.states[i + 1], j) <= Tokens(r.states[i], j)
  {
    var s, s' := r.states[i], r.states[i + 1];
    HoldersGrowByTheNewcomer(r, i, j);
    assert Linked(r, i);
    StepMovesQueue(s, r.steps[i]);
    StartsNew(s, r.steps[i]);
    SubsetSize(HoldersOf(s', j), HoldersOf(s, j));
    if r.steps[i].Recover? {
      Pushed(s.queue, r.steps[i].j, j);
    }
  }

  lemma StartsNew(s: State, step: Step)
    requires WellFormed(s) && Apply(s, step).Some?
    ensures step.Submit? || step.Recover? ==> step.j !in s.shared.heap
  {
    hide SubmitLocked;
  }

  lemma TradesOneForOne(r: Run, i: nat, j: JobRef)
    requires IsRun(r) && i < |r.steps|
    requires r.steps[i].Enqueue? || r.steps[i].BackOff? || r.steps[i].Dequeue?
    ensures Tokens(r.states[i + 1], j) <= Tokens(r.states[i], j)
  {
    var s, s', step := r.states[i], r.states[i + 1], r.steps[i];
    HoldersGrowByTheNewcomer(r, i, j);
    assert Linked(r, i);
    StepMovesQueue(s, step);
    if step.Dequeue? {
      TakenHead(s.queue, j);
      SubsetSize(HoldersOf(s', j), HoldersOf(s, j) + Newcomer(s, step, j));
    } else {
      GivesUp(r, i, step.t);
      var gone := if s.threads[step.t].job == j then {step.t} else {};
      OneStep(r, i, step.t);
      assert gone <= HoldersOf(s, j);
      SubsetSize(HoldersOf(s', j), HoldersOf(s, j) - gone + Newcomer(s, step, j));
      if step.Enqueue? {
        Pushed(s.queue, s.threads[step.t].job, j);
      }
    }
  }

  lemma ResumeAddsOne(r: Run, i: nat, j: JobRef)
    requires IsRun(r) && Resumes(r, i, j)
    ensures Tokens(r.states[i + 1], j) == Tokens(r.states[i], j) + 1
  {
    assert Linked(r, i);
    var s, s', t := r.states[i], r.states[i + 1], r.steps[i].t;
    assert ResumeStep(s, r.steps[i].id, t) == Some(s');
    assert HoldersOf(s', j) == HoldersOf(s, j) + {t};
  }

  // A resume adds one token, no other step adds any, and a new job starts with at most one.
  lemma TokensAfter(r: Run, i: nat, j: JobRef)
    requires IsRun(r) && i < |r.steps|
    ensures Resumes(r, i, j) ==> Tokens(r.states[i + 1], j) == Tokens(r.states[i], j) + 1
    ensures !Resumes(r, i, j) && j in r.states[i].shared.heap ==> Tokens(r.states[i + 1], j) <= Tokens(r.states[i], j)
    ensures j !in r.states[i].shared.heap ==> Tokens(r.states[i + 1], j) <= 1
  {
    RunEvolves(r, i);
    if Resumes(r, i, j) {
      ResumeAddsOne(r, i, j);
    } else if r.steps[i].Enqueue? || r.steps[i].BackOff? || r.steps[i].Dequeue? {
      TradesOneForOne(r, i, j);
      if j !in r.states[i].shared.heap {
        NobodyHoldsAnUnknownJob(r.states[i], j);
      }
    } else if j in r.states[i].shared.heap {
      TradesNoMore(r, i, j);
    } else {
      StartsWithOne(r, i, j);
    }
  }

  lemma StartsWithOne(r: Run, i: nat, j: JobRef)
    requires IsRun(r) && i < |r.steps| && j !in r.states[i].shared.heap
    requires !r.steps[i].Enqueue? && !r.steps[i].BackOff? && !r.steps[i].Dequeue?
    ensures Tokens(r.states[i + 1], j) <= 1
  {
    var s, s', step := r.states[i], r.states[i + 1], r.steps[i];
    assert Linked(r, i);
    NobodyHoldsAnUnknownJob(s, j);
    HoldersGrowByTheNewcomer(r, i, j);
    StepMovesQueue(s, step);
    SubsetSize(HoldersOf(s', j), HoldersOf(s, j) + Newcomer(s, step, j));
    if step.Recover? {
      Pushed(s.queue, step.j, j);
    }
  }

  // Every resume of job j up to step n was taken while nobody drove it or was going to.
  ghost predicate ResumesWhenFree(r: Run, n: nat, j: JobRef)
    requires IsRun(r) && n <= |r.steps|
  {
    forall i: nat | i < n && Resumes(r, i, j) :: Tokens(r.states[i], j) == 0
  }

  lemma {:induction false} AtMostOneToken(r: Run, n: nat, j: JobRef)
    requires IsRun(r) && n <= |r.steps| && ResumesWhenFree(r, n, j)
    ensures Tokens(r.states[n], j) <= 1
    decreases n
  {
    if n == 0 {
      assert HoldersOf(r.states[0], j) == {};
    } else {
      AtMostOneToken(r, n - 1, j);
      TokensAfter(r, n - 1, j);
    }
  }

  // A job has at most one place in the queue, run, sleeper or pending enqueue at all times of a run if
  // and only if every resume of it was taken while it had none.
  lemma AtMostOneDriverIff(r: Run, j: JobRef)
    requires IsRun(r)
    ensures (forall k: nat | k < |r.states| :: Tokens(r.states[k], j) <= 1) <==> ResumesWhenFree(r, |r.steps|, j)
  {
    if forall k: nat | k < |r.states| :: Tokens(r.states[k], j) <= 1 {
      forall i: nat | i < |r.steps| && Resumes(r, i, j) ensures Tokens(r.states[i], j) == 0 {
        TokensAfter(r, i, j);
      }
    }
    if ResumesWhenFree(r, |r.steps|, j) {
      forall k: nat | k < |r.states| ensures Tokens(r.states[k], j) <= 1 {
        AtMostOneToken(r, k, j);
      }
    }
  }

  // Then no two goroutines drive it at once.
  lemma OneGoroutineDrives(r: Run, k: nat, t: ThreadId, u: ThreadId, j: JobRef)
    requires IsRun(r) && k <= |r.steps| && ResumesWhenFree(r, k, j)
    requires t in HoldersOf(r.states[k], j) && u in HoldersOf(r.states[k], j)
    ensures t == u && j !in r.states[k].queue
  {
    AtMostOneToken(r, k, j);
    TwoOf(HoldersOf(r.states[k], j), t, u);
  }

  lemma TwoOf<T>(s: set<T>, a: T, b: T)
    requires a in s && b in s
    ensures |s| >= 1 && (a != b ==> |s| >= 2)
  {
    SubsetSize({a, b}, s);
    if a != b {
      assert |{a, b}| == 2;
    }
  }
}
