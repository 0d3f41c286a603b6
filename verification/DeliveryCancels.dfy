/**
  Whom a submit that replaces a job can tell.

  A submit takes the cancel function of its task out of the table only if the job it replaces is not
  over, and runJob deletes the function of its task when it leaves, whoever registered it. This
  module says exactly when the replaced run is told.
*/
module DeliveryCancels {
  import opened DeliveryDrivers
  import opened DeliveryFencing
  import opened DeliveryPhases
  import opened DeliverySteps
  import opened Options

  predicate LeavesIn(s: State, step: Step, id: string) {
    && step.Leave? && step.t in s.threads
    && s.threads[step.t].job in s.shared.heap && s.shared.heap[s.threads[step.t].job].id == id
  }

  predicate RegistersIn(s: State, step: Step, id: string) {
    && step.RegisterRun? && step.t in s.threads
    && Owner(s, s.threads[step.t].job) && s.shared.heap[s.threads[step.t].job].id == id
  }

  // At step n a run of some job of the task leaves.
  ghost predicate LeavesAt(r: Run, n: nat, id: string)
    requires IsRun(r)
  {
    n < |r.steps| && LeavesIn(r.states[n], r.steps[n], id)
  }

  // At step n a run of some job of the task registers.
  ghost predicate RegistersAt(r: Run, n: nat, id: string)
    requires IsRun(r)
  {
    n < |r.steps| && RegistersIn(r.states[n], r.steps[n], id)
  }

  // A run that leaves takes another run's cancel function with it if and only if the one that is
  // registered for the task is not its own.
  lemma LeaveDropsAnotherIff(s: State, t: ThreadId, id: string)
    requires WellFormed(s) && Apply(s, Leave(t)).Some? && LeavesIn(s, Leave(t), id)
    ensures (exists x <- s.shared.cancels :: s.shared.cancels[x] != t && x !in Apply(s, Leave(t)).value.shared.cancels)
       <==> (id in s.shared.cancels && s.shared.cancels[id] != t)
  {
    assert Apply(s, Leave(t)).value.shared.cancels == s.shared.cancels - {id};
  }

  lemma SubmitKeepsOthersCancel(s: State, step: Step, e: JobRef)
    requires WellFormed(s) && Apply(s, step).Some? && step.Submit? && Owner(s, e) && Owner(Apply(s, step).value, e)
    ensures var id := s.shared.heap[e].id;
            id in Apply(s, step).value.shared.cancels <==> id in s.shared.cancels
    ensures var id := s.shared.heap[e].id;
            id in s.shared.cancels ==> Apply(s, step).value.shared.cancels[id] == s.shared.cancels[id]
  {
  }

  // The cancel function of a task after a step that leaves its owner in place.
  predicate CancelsFollow(s: State, step: Step, s': State, id: string) {
    var (c, c') := (s.shared.cancels, s'.shared.cancels);
    if LeavesIn(s, step, id) then id !in c'
    else if RegistersIn(s, step, id) then step.RegisterRun? && id in c' && c'[id] == step.t
    else (id in c' <==> id in c) && (id in c' ==> c'[id] == c[id])
  }

  lemma OtherStepsKeepCancels(s: State, step: Step)
    requires WellFormed(s) && Apply(s, step).Some? && !step.Submit? && !step.Leave? && !step.RegisterRun?
    ensures Apply(s, step).value.shared.cancels == s.shared.cancels
  {
    hide Apply, WellFormed;
    if KeepsShared(step) {
      SharedIsKept(s, step);
    } else if WritesJob(step) {
      OnlyTheHeapChanges(s, step);
    } else {
      RecordsKeepCancels(s, step);
    }
  }

  lemma RecordsKeepCancels(s: State, step: Step)
    requires WellFormed(s) && Apply(s, step).Some? && (step.Perform? || step.LockedSave? || step.Recover?)
    ensures Apply(s, step).value.shared.cancels == s.shared.cancels
  {
    hide WellFormed, OwnerIntact, AfterEffect;
  }

  lemma LeaveFollows(s: State, t: ThreadId, id: string)
    requires WellFormed(s) && Apply(s, Leave(t)).Some?
    ensures CancelsFollow(s, Leave(t), Apply(s, Leave(t)).value, id)
  {
  }

  lemma RegisterFollows(s: State, t: ThreadId, id: string)
    requires WellFormed(s) && Apply(s, RegisterRun(t)).Some?
    ensures CancelsFollow(s, RegisterRun(t), Apply(s, RegisterRun(t)).value, id)
  {
  }

  lemma CancelsAfter(s: State, step: Step, e: JobRef, id: string)
    requires WellFormed(s) && Apply(s, step).Some?
    requires Owner(s, e) && Owner(Apply(s, step).value, e) && s.shared.heap[e].id == id
    ensures CancelsFollow(s, step, Apply(s, step).value, id)
  {
    hide Apply, WellFormed, OwnerIntact;
    if step.Submit? {
      SubmitKeepsOthersCancel(s, step, e);
    } else if step.Leave? {
      LeaveFollows(s, step.t, id);
    } else if step.RegisterRun? {
      RegisterFollows(s, step.t, id);
    } else {
      OtherStepsKeepCancels(s, step);
    }
  }

  // Between steps m and i no run of the task registered or left.
  ghost predicate Undisturbed(r: Run, m: nat, i: nat, id: string)
    requires IsRun(r)
  {
    forall n: nat | m < n < i :: !LeavesAt(r, n, id) && !RegistersAt(r, n, id)
  }

  // Between steps m and i some run of the task left and none has registered since.
  ghost predicate Dropped(r: Run, m: nat, i: nat, id: string)
    requires IsRun(r)
  {
    exists n: nat :: m < n < i && LeavesAt(r, n, id) && NoneRegisters(r, n, i, id)
  }

  ghost predicate NoneRegisters(r: Run, n: nat, i: nat, id: string)
    requires IsRun(r)
  {
    forall p: nat | n < p < i :: !RegistersAt(r, p, id)
  }

  // Goroutine t has been in its run since it registered it at step m.
  ghost predicate RunsSince(r: Run, m: nat, i: nat, t: ThreadId, e: JobRef)
    requires IsRun(r)
  {
    && m < i <= |r.steps| && Registers(r, m, t, e)
    && forall k | m < k <= i :: InRunOf(r.states[k], t, e)
  }

  lemma RegisteredHere(r: Run, m: nat, t: ThreadId, e: JobRef)
    requires IsRun(r) && m < |r.steps| && r.steps[m] == RegisterRun(t)
    requires t in r.states[m].threads && r.states[m].threads[t].job == e && InRunOf(r.states[m + 1], t, e)
    ensures Registers(r, m, t, e)
  {
    assert Linked(r, m);
    assert RegisterStep(r.states[m], t) == Some(r.states[m + 1]);
  }

  // Every goroutine inside a run of advance registered it once, as the owner.
  lemma {:induction false} RunWasRegistered(r: Run, i: nat, t: ThreadId, e: JobRef) returns (m: nat)
    requires IsRun(r) && i <= |r.steps| && InRunOf(r.states[i], t, e)
    ensures RunsSince(r, m, i, t, e)
    decreases i
  {
    assert i > 0;
    OneStep(r, i - 1, t);
    hide IsRun;
    if InRunOf(r.states[i - 1], t, e) {
      m := RunWasRegistered(r, i - 1, t, e);
    } else {
      m := i - 1;
      RegisteredHere(r, m, t, e);
    }
  }

  lemma OwnedBefore(r: Run, p: nat, i: nat, e: JobRef)
    requires IsRun(r) && p <= i <= |r.steps| && e in r.states[p].shared.heap && Owner(r.states[i], e)
    ensures Owner(r.states[p], e)
  {
    if !Owner(r.states[p], e) {
      OwnershipIsNeverRegained(r, p, i, e);
    }
  }

  lemma {:induction false} KeepsItsId(r: Run, p: nat, i: nat, e: JobRef)
    requires IsRun(r) && p <= i <= |r.steps| && e in r.states[p].shared.heap
    ensures e in r.states[i].shared.heap && r.states[i].shared.heap[e].id == r.states[p].shared.heap[e].id
    decreases i
  {
    if p < i {
      KeepsItsId(r, p, i - 1, e);
      RunEvolves(r, i - 1);
    }
  }

  // One step further while e stays the owner.
  lemma CancelsAfterStep(r: Run, n: nat, e: JobRef, id: string)
    requires IsRun(r) && n < |r.steps| && Owner(r.states[n], e) && Owner(r.states[n + 1], e) && r.states[n].shared.heap[e].id == id
    ensures CancelsFollow(r.states[n], r.steps[n], r.states[n + 1], id)
  {
    assert Linked(r, n);
    CancelsAfter(r.states[n], r.steps[n], e, id);
  }

  lemma DroppedAfter(r: Run, m: nat, i: nat, id: string)
    requires IsRun(r) && m + 1 < i <= |r.steps|
    ensures Dropped(r, m, i, id) <==> LeavesAt(r, i - 1, id) || (Dropped(r, m, i - 1, id) && !RegistersAt(r, i - 1, id))
    ensures Undisturbed(r, m, i, id) <==> Undisturbed(r, m, i - 1, id) && !LeavesAt(r, i - 1, id) && !RegistersAt(r, i - 1, id)
  {
    if Dropped(r, m, i, id) {
      var n: nat :| m < n < i && LeavesAt(r, n, id) && NoneRegisters(r, n, i, id);
      assert n < i - 1 ==> NoneRegisters(r, n, i - 1, id);
    }
    if LeavesAt(r, i - 1, id) {
      assert NoneRegisters(r, i - 1, i, id);
    }
    if Dropped(r, m, i - 1, id) && !RegistersAt(r, i - 1, id) {
      var n: nat :| m < n < i - 1 && LeavesAt(r, n, id) && NoneRegisters(r, n, i - 1, id);
      assert NoneRegisters(r, n, i, id);
    }
  }

  lemma RegistrantIsAnother(r: Run, m: nat, i: nat, n: nat, t: ThreadId, e: JobRef, id: string)
    requires IsRun(r) && RunsSince(r, m, i, t, e) && m < n < i && RegistersAt(r, n, id)
    ensures r.steps[n].t != t
  {
    assert Linked(r, n);
    assert InRunOf(r.states[n], t, e);
    assert RegisterStep(r.states[n], r.steps[n].t).Some?;
  }

  // Job e is the owner of task id.
  predicate Owns(s: State, e: JobRef, id: string) {
    Owner(s, e) && s.shared.heap[e].id == id
  }

  lemma OwnsSince(r: Run, m: nat, p: nat, i: nat, t: ThreadId, e: JobRef, id: string)
    requires IsRun(r) && RunsSince(r, m, i, t, e) && Owns(r.states[i], e, id) && m <= p <= i
    ensures Owns(r.states[p], e, id)
  {
    RegistrationNeedsOwnership(r, m, t, e);
    KeepsItsId(r, m, p, e);
    KeepsItsId(r, p, i, e);
    OwnedBefore(r, p, i, e);
  }

  ghost predicate EntryTells(r: Run, m: nat, i: nat, t: ThreadId, id: string)
    requires IsRun(r) && i <= |r.steps|
  {
    var cancels := r.states[i].shared.cancels;
    && (id !in cancels <==> Dropped(r, m, i, id))
    && (id in cancels && cancels[id] == t <==> Undisturbed(r, m, i, id))
  }

  lemma EntryAtFirst(r: Run, m: nat, t: ThreadId, e: JobRef, id: string)
    requires IsRun(r) && Registers(r, m, t, e) && Owns(r.states[m], e, id)
    ensures EntryTells(r, m, m + 1, t, id)
  {
    assert Linked(r, m);
    assert RegisterStep(r.states[m], t) == Some(r.states[m + 1]);
  }

  lemma EntryLater(r: Run, m: nat, i: nat, t: ThreadId, id: string)
    requires IsRun(r) && m + 1 < i <= |r.steps| && EntryTells(r, m, i - 1, t, id)
    requires CancelsFollow(r.states[i - 1], r.steps[i - 1], r.states[i], id)
    requires RegistersAt(r, i - 1, id) ==> r.steps[i - 1].t != t
    ensures EntryTells(r, m, i, t, id)
  {
    DroppedAfter(r, m, i, id);
    hide IsRun, Dropped, Undisturbed, LeavesIn, RegistersIn;
  }

  // The cancel function registered for the task of a running job that still is the owner: none if and
  // only if a run of the task left and none registered since, and the run's own if and only if no run
  // of the task registered or left since this one did.
  lemma {:induction false} CancelEntryIff(r: Run, m: nat, i: nat, t: ThreadId, e: JobRef, id: string)
    requires IsRun(r) && RunsSince(r, m, i, t, e) && Owner(r.states[i], e) && r.states[i].shared.heap[e].id == id
    ensures var cancels := r.states[i].shared.cancels;
            && (id !in cancels <==> Dropped(r, m, i, id))
            && (id in cancels && cancels[id] == t <==> Undisturbed(r, m, i, id))
    decreases i
  {
    hide IsRun, Registers, Dropped, Undisturbed, CancelsFollow, Owner, RegistersAt;
    OwnsSince(r, m, m, i, t, e, id);
    if i == m + 1 {
      EntryAtFirst(r, m, t, e, id);
    } else {
      OwnsSince(r, m, i - 1, i, t, e, id);
      CancelEntryIff(r, m, i - 1, t, e, id);
      CancelsAfterStep(r, i - 1, e, id);
      if RegistersAt(r, i - 1, id) {
        RegistrantIsAnother(r, m, i, i - 1, t, e, id);
      }
      EntryLater(r, m, i, t, id);
    }
  }

  // The cancel function a step takes out of the table to call it, by the goroutine it stops.
  function Told(s: State, step: Step): Option<ThreadId>
    requires WellFormed(s)
  {
    match step
    case Submit(j, job, _) =>
      if j in s.shared.heap then None else SubmitLocked(s.shared.(heap := s.shared.heap[j := job.(phase := WaitingCollect)]), j).2
    case Cancel(id, _) => CancelOf(s.shared, id)
    case _ => None
  }

  // Goroutine t runs job e and has more to do than its cleanup.
  predicate Runs(s: State, t: ThreadId, e: JobRef) {
    InRunOf(s, t, e) && Holds(s.threads[t].at)
  }

  // The submit of step i replaces job e, the owner until then, while goroutine t runs it.
  ghost predicate ReplacesRunning(r: Run, i: nat, t: ThreadId, e: JobRef)
    requires IsRun(r)
  {
    && i < |r.steps| && r.steps[i].Submit?
    && Owner(r.states[i], e) && !Owner(r.states[i + 1], e) && Runs(r.states[i], t, e)
  }

  ghost predicate Tells(r: Run, i: nat, t: ThreadId)
    requires IsRun(r) && i < |r.steps|
  {
    WellFormed(r.states[i]) && Told(r.states[i], r.steps[i]) == Some(t)
  }

  // A submit looks into the table only for a job that is not over.
  lemma ReplacingLooksUp(s: State, step: Step, e: JobRef)
    requires WellFormed(s) && Apply(s, step).Some? && step.Submit? && Owner(s, e) && !Owner(Apply(s, step).value, e)
    ensures Told(s, step) == if s.shared.heap[e].phase.Terminal() then None else CancelOf(s.shared, s.shared.heap[e].id)
  {
  }

  // The replaced run is told if and only if its job was not over and no run of the task registered or
  // left since it did; nobody is told if and only if the job was over, or a run left and none
  // registered since; otherwise another goroutine is told.
  lemma SubmitTellsTheRunIff(r: Run, i: nat, t: ThreadId, e: JobRef) returns (m: nat)
    requires IsRun(r) && ReplacesRunning(r, i, t, e)
    ensures RunsSince(r, m, i, t, e)
    ensures var Job(id, _, phase, _, _, _) := r.states[i].shared.heap[e];
            && (Tells(r, i, t) <==> !phase.Terminal() && Undisturbed(r, m, i, id))
            && ((forall u: ThreadId :: !Tells(r, i, u)) <==> phase.Terminal() || Dropped(r, m, i, id))
  {
    var id := r.states[i].shared.heap[e].id;
    m := RunWasRegistered(r, i, t, e);
    CancelEntryIff(r, m, i, t, e, id);
    assert Linked(r, i);
    ReplacingLooksUp(r.states[i], r.steps[i], e);
    assert forall u: ThreadId :: Tells(r, i, u) <==> Told(r.states[i], r.steps[i]) == Some(u);
    hide IsRun, RunsSince, Dropped, Undisturbed, Told, WellFormed;
    var told := Told(r.states[i], r.steps[i]);
    if told.Some? {
      assert Tells(r, i, told.value);
    }
  }

  // ---------- The same for a job that is driven once ----------

  // At step n, later than step m, a run of the task cleans up that had registered before step m.
  ghost predicate LateCleanup(r: Run, m: nat, n: nat, id: string)
    requires IsRun(r)
  {
    LeavesAt(r, n, id) && exists k: nat :: k < m < n && Registers(r, k, r.steps[n].t, r.states[n].threads[r.steps[n].t].job)
  }

  lemma OwnersAreEqual(s: State, e: JobRef, f: JobRef)
    requires WellFormed(s) && Owner(s, e) && Owner(s, f) && s.shared.heap[e].id == s.shared.heap[f].id
    ensures e == f
  {
  }

  // A second goroutine that registered the same job meanwhile would be a second driver.
  lemma NobodyElseRegisters(r: Run, m: nat, i: nat, n: nat, t: ThreadId, e: JobRef, id: string)
    requires IsRun(r) && RunsSince(r, m, i, t, e) && Runs(r.states[i], t, e) && Owns(r.states[i], e, id)
    requires ResumesWhenFree(r, i, e) && m < n < i
    ensures !RegistersAt(r, n, id)
  {
    if RegistersAt(r, n, id) {
      var u := r.steps[n].t;
      OwnsSince(r, m, n, i, t, e, id);
      RunStatesAreWellFormed(r, n);
      OwnersAreEqual(r.states[n], e, r.states[n].threads[u].job);
      RegistrantHolds(r, n);
      HeldBefore(r, n, i, t, e);
      OneGoroutineDrives(r, n, t, u, e);
      RegistrantIsAnother(r, m, i, n, t, e, id);
    }
  }

  lemma RegistrantHolds(r: Run, n: nat)
    requires IsRun(r) && n < |r.steps| && r.steps[n].RegisterRun?
    ensures r.steps[n].t in r.states[n].threads && r.states[n].threads[r.steps[n].t].at == RunRegister
  {
    assert Linked(r, n);
    assert RegisterStep(r.states[n], r.steps[n].t).Some?;
  }

  lemma {:induction false} HeldBefore(r: Run, n: nat, i: nat, t: ThreadId, e: JobRef)
    requires IsRun(r) && n <= i <= |r.steps| && Runs(r.states[i], t, e) && forall k | n <= k <= i :: InRunOf(r.states[k], t, e)
    ensures Runs(r.states[n], t, e)
    decreases i
  {
    if n < i {
      OneStep(r, i - 1, t);
      hide IsRun, InRun;
      HeldBefore(r, n, i - 1, t, e);
    }
  }

  // Whoever cleans up meanwhile had registered before.
  lemma CleanupsAreLate(r: Run, m: nat, i: nat, n: nat, t: ThreadId, e: JobRef, id: string)
    requires IsRun(r) && RunsSince(r, m, i, t, e) && m < n < i && LeavesAt(r, n, id)
    requires forall k: nat | m < k < i :: !RegistersAt(r, k, id)
    ensures LateCleanup(r, m, n, id)
  {
    var u, f := r.steps[n].t, r.states[n].threads[r.steps[n].t].job;
    LeaverIsInRun(r, n);
    var k := RunWasRegistered(r, n, u, f);
    RegistrationNeedsOwnership(r, k, u, f);
    KeepsItsId(r, k, n, f);
    assert InRunOf(r.states[n + 1], t, e);
    if m < k {
      assert RegistersAt(r, k, id);
    }
  }

  lemma LeaverIsInRun(r: Run, n: nat)
    requires IsRun(r) && n < |r.steps| && r.steps[n].Leave?
    ensures var u := r.steps[n].t;
            && u in r.states[n].threads && r.states[n].threads[u].at == Leaving
            && u in r.states[n + 1].threads && r.states[n + 1].threads[u].at == Exited
  {
    assert Linked(r, n);
    assert LeaveStep(r.states[n], r.steps[n].t) == Some(r.states[n + 1]);
  }

  // A submit that replaces a job driven once tells the run or nobody, and nobody if and only if the
  // job was over already, or an earlier run of the task cleaned up while this one was running.
  lemma SubmitMissesTheRunIff(r: Run, i: nat, t: ThreadId, e: JobRef) returns (m: nat)
    requires IsRun(r) && ReplacesRunning(r, i, t, e) && ResumesWhenFree(r, i, e)
    ensures RunsSince(r, m, i, t, e)
    ensures var Job(id, _, phase, _, _, _) := r.states[i].shared.heap[e];
            && (forall u: ThreadId | Tells(r, i, u) :: u == t)
            && (!Tells(r, i, t) <==> phase.Terminal() || exists n: nat :: m < n < i && LateCleanup(r, m, n, id))
  {
    m := SubmitTellsTheRunIff(r, i, t, e);
    var id := r.states[i].shared.heap[e].id;
    forall n: nat | m < n < i
      ensures !RegistersAt(r, n, id)
    {
      NobodyElseRegisters(r, m, i, n, t, e, id);
    }
    forall n: nat | m < n < i && LeavesAt(r, n, id)
      ensures LateCleanup(r, m, n, id)
    {
      CleanupsAreLate(r, m, i, n, t, e, id);
    }
    UndisturbedOrDropped(r, m, i, id);
  }

  lemma UndisturbedOrDropped(r: Run, m: nat, i: nat, id: string)
    requires IsRun(r) && forall n: nat | m < n < i :: !RegistersAt(r, n, id)
    ensures Undisturbed(r, m, i, id) || Dropped(r, m, i, id)
    ensures Undisturbed(r, m, i, id) <==> !exists n: nat :: m < n < i && LeavesAt(r, n, id)
  {
    if !Undisturbed(r, m, i, id) {
      var n: nat :| m < n < i && (LeavesAt(r, n, id) || RegistersAt(r, n, id));
      assert NoneRegisters(r, n, i, id);
    }
  }

  // ---------- Both ways to miss the run ----------

  // No step has called anybody's cancel function, resumed a job or cleaned up.
  ghost predicate Quiet(r: Run)
    requires IsRun(r)
  {
    forall i: nat | i < |r.steps| :: QuietStep(r, i)
  }

  ghost predicate QuietStep(r: Run, i: nat)
    requires IsRun(r) && i < |r.steps|
  {
    (forall t: ThreadId :: !Tells(r, i, t)) && !r.steps[i].Leave? && !r.steps[i].Resume?
  }

  predicate Same(a: State, b: State) {
    && a.shared.heap == b.shared.heap && a.shared.jobs == b.shared.jobs
    && a.shared.cancels == b.shared.cancels && a.shared.journal == b.shared.journal
    && a.threads == b.threads && a.queue == b.queue && a.copies == b.copies && a.dogs == b.dogs
  }

  // One more step of this kind.
  lemma Quietly(r: Run, step: Step, s: State) returns (r': Run)
    requires IsRun(r) && WellFormed(Last(r)) && Quiet(r) && Apply(Last(r), step).Some? && Same(Apply(Last(r), step).value, s)
    requires Told(Last(r), step) == None && !step.Leave? && !step.Resume?
    ensures Reached(r', s) && r'.steps == r.steps + [step] && r'.states == r.states + [s]
  {
    hide WellFormed;
    r' := Extend(r, step, s);
    hide IsRun, Told;
    assert r'.steps == r.steps + [step] && r'.states == r.states + [s];
    forall i: nat | i < |r'.steps| ensures QuietStep(r', i) {
      if i < |r.steps| {
        assert QuietStep(r, i);
        assert forall t: ThreadId :: Tells(r', i, t) ==> Tells(r, i, t);
      }
    }
  }

  ghost predicate Reached(r: Run, s: State) {
    IsRun(r) && WellFormed(Last(r)) && Quiet(r) && Last(r) == s
  }

  // Only job 0 of task id: goroutine 0 has submitted it, 1 runs it, and 4 cancels it.
  ghost function Cancelling(id: string, a: Session, phase: Phase, at: Location, registered: bool, canceller: Location): State {
    State(Shared(map[0 := Job(id, a, phase, false, false, NOTHING_HELD)], map[id := 0], if registered then map[id := 1] else map[], map[id := 0]),
          map[0 := Thread(0, Exited, None), 1 := Thread(0, at, None), 4 := Thread(0, canceller, None)], [], map[], CALM)
  }

  // Job 0 is submitted, saved and queued.
  lemma FirstJobQueued(id: string, a: Session) returns (r: Run)
    ensures Reached(r, State(Shared(map[0 := Job(id, a, WaitingCollect, false, false, NOTHING_HELD)], map[id := 0], map[], map[id := 0]),
                             map[0 := Thread(0, Exited, None)], [0], map[], CALM))
  {
    var job := Job(id, a, WaitingCollect, false, false, NOTHING_HELD);
    var known := Shared(map[0 := job], map[id := 0], map[], map[]);
    r := Quietly(Run([Init()], []), Submit(0, job, 0), State(known, map[0 := Thread(0, SubmitSaving, Some(SaveJournal))], [], map[], CALM));
    var saved := State(known.(journal := map[id := 0]), map[0 := Thread(0, SubmitEnqueue, None)], [], map[], CALM);
    r := Quietly(r, Perform(0, true), saved);
    r := Quietly(r, Step.Enqueue(0), State(saved.shared, map[0 := Thread(0, Exited, None)], [0], map[], CALM));
  }

  lemma RunMoves(r: Run, id: string, a: Session, phase: Phase, at: Location, registered: bool, c: Location, to: Location) returns (r': Run)
    requires Reached(r, Cancelling(id, a, phase, at, registered, c)) && MayMove(Last(r).shared, 0, at, to)
    ensures Reached(r', Cancelling(id, a, phase, to, registered, c))
  {
    hide MayMove, IsRun, Quiet, WellFormed;
    r' := Quietly(r, Move(1, to), Cancelling(id, a, phase, to, registered, c));
  }

  lemma RunWrites(r: Run, id: string, a: Session, phase: Phase, at: Location, c: Location, p: Phase, to: Location) returns (r': Run)
    requires Reached(r, Cancelling(id, a, phase, at, true, c)) && MayWritePhase(Last(r).shared, 0, at, p, false, to, false) && at != UploadBroken && at != PostFailed
    ensures Reached(r', Cancelling(id, a, p, to, true, c))
  {
    RunMayWrite(id, a, phase, at, c, p, to);
    hide MayWritePhase, IsRun, Quiet, WellFormed, Apply, Same;
    r' := Quietly(r, WritePhase(1, p, false, to), Cancelling(id, a, p, to, true, c));
  }

  lemma RunMayWrite(id: string, a: Session, phase: Phase, at: Location, c: Location, p: Phase, to: Location)
    requires WellFormed(Cancelling(id, a, phase, at, true, c)) && at != UploadBroken && at != PostFailed
    requires MayWritePhase(Cancelling(id, a, phase, at, true, c).shared, 0, at, p, false, to, false)
    ensures var done := Apply(Cancelling(id, a, phase, at, true, c), WritePhase(1, p, false, to));
            done.Some? && Same(done.value, Cancelling(id, a, p, to, true, c))
  {
    hide MayWritePhase, WellFormed, OwnerIntact;
    var s, s' := Cancelling(id, a, phase, at, true, c), Cancelling(id, a, p, to, true, c);
    assert s.threads[1 := s'.threads[1]] == s'.threads;
    assert s.shared.heap[0 := s'.shared.heap[0]] == s'.shared.heap;
  }

  // A cancel looks up the function before the run registers, and finds none.
  lemma CancelledFirst(id: string, a: Session) returns (r: Run)
    ensures Reached(r, Cancelling(id, a, WaitingCollect, RunEntry, false, CancelMark))
  {
    r := FirstJobQueued(id, a);
    var s := Last(r);
    r := Quietly(r, Dequeue(1), s.(threads := s.threads[1 := Thread(0, RunEntry, None)], queue := []));
    r := Quietly(r, Step.Cancel(id, 4), Cancelling(id, a, WaitingCollect, RunEntry, false, CancelMark));
  }

  lemma CancelledEarly(id: string, a: Session) returns (r: Run)
    ensures Reached(r, Cancelling(id, a, WaitingCollect, Advancing, true, CancelMark))
  {
    r := CancelledFirst(id, a);
    r := RunMoves(r, id, a, WaitingCollect, RunEntry, false, CancelMark, RunRegister);
    hide IsRun, WellFormed, Quiet;
    r := Quietly(r, RegisterRun(1), Cancelling(id, a, WaitingCollect, Advancing, true, CancelMark));
  }

  // The run goes on to pull.
  lemma CancelledAtPull(id: string, a: Session) returns (r: Run)
    ensures Reached(r, Cancelling(id, a, Pulling, PullLoop, true, CancelMark))
  {
    r := CancelledEarly(id, a);
    hide IsRun, WellFormed, Quiet;
    r := RunWrites(r, id, a, WaitingCollect, Advancing, CancelMark, WaitingCollect, Switching);
    r := RunMoves(r, id, a, WaitingCollect, Switching, true, CancelMark, Collecting);
    r := RunWrites(r, id, a, WaitingCollect, Collecting, CancelMark, Pulling, Collected);
    r := RunMoves(r, id, a, Pulling, Collected, true, CancelMark, PullEntry);
    r := RunMoves(r, id, a, Pulling, PullEntry, true, CancelMark, PullLoop);
  }

  // Now the cancel marks the job as failed.
  lemma CancelledInPull(id: string, a: Session) returns (r: Run)
    ensures Reached(r, Cancelling(id, a, Failed, PullLoop, true, CancelSaving))
  {
    var r0 := CancelledAtPull(id, a);
    CancelMarks(id, a);
    hide IsRun, WellFormed, Quiet, Apply, Same;
    r := Quietly(r0, WritePhase(4, Failed, false, CancelSaving), Cancelling(id, a, Failed, PullLoop, true, CancelSaving));
  }

  lemma CancelMarks(id: string, a: Session)
    requires WellFormed(Cancelling(id, a, Pulling, PullLoop, true, CancelMark))
    ensures var done := Apply(Cancelling(id, a, Pulling, PullLoop, true, CancelMark), WritePhase(4, Failed, false, CancelSaving));
            done.Some? && Same(done.value, Cancelling(id, a, Failed, PullLoop, true, CancelSaving))
  {
    hide WellFormed, OwnerIntact, Normalizes, Classifies;
    var s, s' := Cancelling(id, a, Pulling, PullLoop, true, CancelMark), Cancelling(id, a, Failed, PullLoop, true, CancelSaving);
    assert s.threads[4 := s'.threads[4]] == s'.threads;
    assert s.shared.heap[0 := s'.shared.heap[0]] == s'.shared.heap;
  }

  // A cancelled run that nobody tells: its job is over when the next submit replaces it, so that one
  // does not look for the cancel function, although it is there.
  lemma CancelledRunIsNotTold(id: string, a: Session, b: Session) returns (r: Run)
    requires a != b
    ensures IsRun(r) && |r.steps| > 0 && Quiet(r) && ReplacesRunning(r, |r.steps| - 1, 1, 0)
    ensures id in Last(r).shared.cancels && Last(r).shared.cancels[id] == 1
  {
    r := CancelledInPull(id, a);
    SubmittedOver(id, a, b);
    hide IsRun, WellFormed, Quiet, Apply, Same;
    r := Quietly(r, Submit(1, Job(id, b, WaitingCollect, false, false, NOTHING_HELD), 2), Submitted(Last(r), id, b));
  }

  // The next submit, as job 1 on goroutine 2.
  ghost function Submitted(s: State, id: string, b: Session): State {
    State(s.shared.(heap := s.shared.heap[1 := Job(id, b, WaitingCollect, false, false, NOTHING_HELD)], jobs := map[id := 1]),
          s.threads[2 := Thread(1, SubmitSaving, Some(SaveJournal))], [], map[], CALM)
  }

  lemma SubmittedOver(id: string, a: Session, b: Session)
    requires WellFormed(Cancelling(id, a, Failed, PullLoop, true, CancelSaving))
    ensures var (s, step) := (Cancelling(id, a, Failed, PullLoop, true, CancelSaving), Submit(1, Job(id, b, WaitingCollect, false, false, NOTHING_HELD), 2));
            && Apply(s, step).Some? && Same(Apply(s, step).value, Submitted(s, id, b)) && Told(s, step) == None
            && Owner(s, 0) && !Owner(Submitted(s, id, b), 0)
  {
  }

  // Only job 0 of task id: goroutine 1 runs it, 4 sleeps or queues it, and 3 is its next run, if any.
  ghost function Retried(id: string, a: Session, at: Location, sleeper: Location, next: Option<Location>, cancels: map<string, ThreadId>): State {
    var first := map[0 := Thread(0, Exited, None), 1 := Thread(0, at, None), 4 := Thread(0, sleeper, None)];
    State(Shared(map[0 := Job(id, a, Retrying, false, false, NOTHING_HELD)], map[id := 0], cancels, map[id := 0]),
          if next.Some? then first[3 := Thread(0, next.value, None)] else first, [], map[], CALM)
  }

  // The first round fails and is going to be retried.
  lemma FirstRoundFails(id: string, a: Session) returns (r: Run)
    ensures IsRun(r) && WellFormed(Last(r)) && Last(r) == FirstAt(id, a, Retrying, Finished)
  {
    r := FirstJobCollecting(id, a);
    r := FirstMoves(r, id, a, WaitingCollect, Collecting, Finishing);
    r := FirstWrites(r, id, a, WaitingCollect, Finishing, Retrying, Finished);
  }

  // Its backoff goroutine starts, and the round has only its cleanup to do.
  lemma FirstRoundSleeps(id: string, a: Session) returns (r: Run)
    ensures IsRun(r) && WellFormed(Last(r)) && Last(r) == Retried(id, a, Leaving, Sleeping, None, map[id := 1])
  {
    r := FirstRoundFails(id, a);
    var s := Last(r);
    r := Extend(r, BackOff(1, 4), s.(threads := s.threads[1 := Thread(0, Leaving, None)][4 := Thread(0, Sleeping, None)]));
    assert Same(Last(r), Retried(id, a, Leaving, Sleeping, None, map[id := 1]));
  }

  lemma SleeperWakes(id: string, a: Session) returns (r: Run)
    ensures IsRun(r) && WellFormed(Last(r)) && Last(r) == Retried(id, a, Leaving, SleeperEnqueue, None, map[id := 1])
  {
    r := FirstRoundSleeps(id, a);
    r := Go(r, 4, SleeperEnqueue);
    assert Same(Last(r), Retried(id, a, Leaving, SleeperEnqueue, None, map[id := 1]));
  }

  lemma NextRoundRegisters(id: string, a: Session) returns (r: Run)
    ensures IsRun(r) && WellFormed(Last(r)) && Last(r) == Retried(id, a, Leaving, Exited, Some(Advancing), map[id := 3])
  {
    r := SleeperWakes(id, a);
    r := QueueAndRegister(r, 4, 3, 0, id);
    assert Same(Last(r), Retried(id, a, Leaving, Exited, Some(Advancing), map[id := 3]));
  }

  // One job, no resume and no other submit: the cleanup of its first round takes the cancel function of
  // the retry with it, which is the owner and has just begun.
  lemma OwnRoundMayDropTheCancel(id: string, a: Session) returns (r: Run)
    ensures IsRun(r) && Last(r).shared.cancels == map[] && Owner(Last(r), 0)
    ensures Last(r).shared.heap.Keys == {0} && Runs(Last(r), 3, 0) && 1 in Last(r).threads && Last(r).threads[1].at == Exited
  {
    r := NextRoundRegisters(id, a);
    hide IsRun, WellFormed;
    var s := Last(r);
    r := Extend(r, Leave(1), MoveTo(s, 1, Exited).(shared := s.shared.(cancels := map[])));
  }
}
