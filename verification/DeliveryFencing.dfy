/**
  The delivery runner as a concurrent protocol.

  A `submit` may replace the job that holds a task id while goroutines of the replaced job are
  still running. Nothing stops those goroutines: the only protection is the ownership test made
  before most external effects. This module models every lock-held region, every ownership test,
  the unlocked look at the phase in advance, the start of a backoff goroutine and every external
  effect as one atomic step, lets any number of goroutines interleave, and
  proves what the protocol really guarantees: for the effects that are tested first (a part, the
  complete request, a journal write, the deletion of a copy that is no longer wanted), and for the
  two that are not, which pullArchive makes on the local copy the generations of a task share.
*/
module DeliveryFencing {
  import opened DeliveryPhases
  import opened Options

  // ---------- The state guarded by r.mu ----------

  // `heap` holds the job structures by address, `jobs` is r.jobs, and `journal` tells which
  // structure was last written to the file dj-<task>.json.

  // A pointer to a job structure; two submits never share one.
  type JobRef = nat

  // What sameDeliverySession compares.
  datatype Session = Session(token: string, submittedSize: int, partCount: int, chunkSize: int, direct: bool)

  // What decides how a retrying job goes on, and the one-time TLS relaxation: whether a part is
  // registered, whether the pull is complete, and whether certificates are not verified any more.
  datatype Held = Held(parts: bool, full: bool, insecure: bool)

  datatype Job = Job(id: string, session: Session, phase: Phase, superseded: bool, needsReauth: bool, held: Held)

  const NOTHING_HELD := Held(false, false, false)

  type ThreadId = nat

  datatype Shared = Shared(
    heap: map<JobRef, Job>,
    jobs: map<string, JobRef>,
    cancels: map<string, ThreadId>,
    journal: map<string, JobRef>)

  // ownerIntact: the single criterion for being allowed an external effect.
  predicate OwnerIntact(s: Shared, j: JobRef)
  {
    && j in s.heap
    && !s.heap[j].superseded
    && (s.heap[j].id in s.jobs ==> s.jobs[s.heap[j].id] == j)
  }

  predicate RequeueEligible(s: Shared, j: JobRef)
  {
    && j in s.heap
    && s.heap[j].phase == Retrying && !s.heap[j].needsReauth && !s.heap[j].superseded
    && s.heap[j].id in s.jobs && s.jobs[s.heap[j].id] == j
  }

  // The goroutine whose cancel function is registered for a task.
  function CancelOf(s: Shared, id: string): Option<ThreadId> {
    if id in s.cancels then Some(s.cancels[id]) else None
  }

  // The lock-held region of submit: the new shared state, the job the caller gets back, and the cancel
  // function it takes. Only a job that is not over is marked and has its cancel function taken.
  function SubmitLocked(s: Shared, j: JobRef): (Shared, JobRef, Option<ThreadId>)
    requires j in s.heap
    requires forall id <- s.jobs :: s.jobs[id] in s.heap
  {
    var id := s.heap[j].id;
    if id in s.jobs && !s.heap[s.jobs[id]].phase.Terminal() then
      var existing := s.jobs[id];
      if s.heap[existing].session == s.heap[j].session then
        (s, existing, None)
      else
        var marked := s.heap[existing].(phase := Failed, superseded := true);
        (s.(heap := s.heap[existing := marked], jobs := s.jobs[id := j], cancels := s.cancels - {id}), j, CancelOf(s, id))
    else
      (s.(jobs := s.jobs[id := j]), j, None)
  }

  // The register region of runJob: ownership test and registration under one lock.
  function RegisterLocked(s: Shared, t: ThreadId, j: JobRef): Option<Shared>
    requires j in s.heap
  {
    if OwnerIntact(s, j) then Some(s.(cancels := s.cancels[s.heap[j].id := t])) else None
  }

  // saveJobLocked: ownership test and journal write under one lock.
  function SaveLocked(s: Shared, j: JobRef): Shared
    requires j in s.heap
  {
    if OwnerIntact(s, j) then WriteJournal(s, j) else s
  }

  function WriteJournal(s: Shared, j: JobRef): Shared
    requires j in s.heap
  {
    s.(journal := s.journal[s.heap[j].id := j])
  }

  // The lock-held region of resume.
  function ResumeLocked(s: Shared, j: JobRef): Shared
    requires j in s.heap
  {
    s.(heap := s.heap[j := s.heap[j].(needsReauth := false, phase := Retrying)])
  }

  function SetPhase(s: Shared, j: JobRef, phase: Phase, reauth: bool): Shared
    requires j in s.heap
  {
    SetPhaseAndHeld(s, j, phase, reauth, s.heap[j].held)
  }

  function SetPhaseAndHeld(s: Shared, j: JobRef, phase: Phase, reauth: bool, held: Held): Shared
    requires j in s.heap
  {
    s.(heap := s.heap[j := s.heap[j].(phase := phase, needsReauth := reauth || s.heap[j].needsReauth, held := held)])
  }

  function SetHeld(s: Shared, j: JobRef, held: Held): Shared
    requires j in s.heap
  {
    s.(heap := s.heap[j := s.heap[j].(held := held)])
  }

  // ---------- Goroutines ----------

  // The effects that follow an ownership test.
  datatype Effect =
    | PutPart(number: nat)   // uploadOnePart sends one part
    | PostComplete           // complete asks the platform to merge
    | SaveJournal            // saveJob writes the journal, outside the lock
    | RemoveCopy             // discardLocalCopy / discardDeliveredCopy delete the local archive

  // Where a goroutine stands between two atomic steps.
  datatype Location =
    | SubmitSaving | SubmitEnqueue
    | RunEntry | RunRegister
    | Advancing                       // before advance normalizes the phase
    | Switching                       // before advance looks which stage the phase means
    | Collecting | Collected          // waitCollect or prepareDirect, before and after the phase is pulling
    | PullEntry | PullLoop            // up to the start of pullArchive, and in it
    | PullBroken | PullFailed         // pullArchive has failed, before and after the bytes are recorded
    | PullArrived | PullKept          // pullArchive has succeeded, before and after the bytes are recorded
    | UploadEntry | UploadJoin | UploadBroken // before the workers, while they run, after an error of theirs
    | CompleteEntry | PostFailed | Completed
    | Settling | Closing              // behind all stages, before and after the test for deleting the copy
    | Finishing                       // advance has returned an error that may be retried
    | Barred                          // advance has returned one that may not: superseded, cancelled, fatal or credentials
    | Finished | Concluded            // the round is classified, with and without a backoff goroutine to start
    | Leaving                         // before the deferred cleanup
    | WorkerLoop(run: ThreadId) | WorkerReading(run: ThreadId) | WorkerSent(run: ThreadId) | WorkerFailed(run: ThreadId)
    | Sleeping | SleeperEnqueue
    | ResumeSaving
    | CancelMark | CancelSaving
    | Exited

  // How far a goroutine has come: 0 outside a run, then along advance, and Exited behind everything.
  function Rank(at: Location): nat {
    match at
    case Advancing => 1
    case Switching => 2
    case Collecting => 3
    case Collected => 4
    case PullEntry => 5
    case PullLoop => 6
    case PullBroken => 7
    case PullFailed => 8
    case PullArrived => 9
    case PullKept => 10
    case UploadEntry => 11
    case UploadJoin => 12
    case UploadBroken => 13
    case CompleteEntry => 14
    case PostFailed => 15
    case Completed => 16
    case Settling => 17
    case Closing => 18
    case Finishing => 19
    case Barred => 20
    case Finished => 21
    case Concluded => 22
    case Leaving => 23
    case Exited => 24
    case _ => 0
  }

  // From the registration of a run to its deferred cleanup.
  predicate InRun(at: Location) { 0 < Rank(at) < 24 }

  // `armed` is the effect whose ownership test has passed and that has not been performed yet.
  datatype Thread = Thread(job: JobRef, at: Location, armed: Option<Effect>)

  // The watchdogs of the runs: which have seen a stall, and which have said so.
  datatype Dogs = Dogs(noticed: set<ThreadId>, stalled: set<ThreadId>)

  const CALM := Dogs({}, {})

  // `copies` is the local archive of each task id, as the list of jobs that wrote its blocks.
  datatype State = State(shared: Shared, threads: map<ThreadId, Thread>, queue: seq<JobRef>, copies: map<string, seq<JobRef>>, dogs: Dogs)

  const QUEUE_CAPACITY := 16

  // enqueue never blocks: a full queue drops the job.
  function Push(queue: seq<JobRef>, j: JobRef): seq<JobRef>
  {
    if |queue| < QUEUE_CAPACITY then queue + [j] else queue
  }

  // What normalizeDeliveryPhase may make of a phase; a retrying job that has parts or the whole pull
  // goes to uploading, and another one to waiting or pulling, depending on its bytes.
  predicate Normalizes(job: Job, to: Phase) {
    match job.phase
    case Blank | WaitingCollect => to == WaitingCollect
    case Pulling | Uploading | Completing => to == job.phase
    case Retrying => if GoesToUpload(job) then to == Uploading else to == WaitingCollect || to == Pulling
    case Done | Failed | Unknown(_) => false
  }

  predicate RefusesToAdvance(p: Phase) { p.Terminal() || p.Unknown? }

  predicate GoesToUpload(job: Job) { job.held.parts || job.held.full }

  // The switch of advance. A phase that means no stage leads behind all of them.
  function Stage(p: Phase): Location {
    match p
    case Blank | WaitingCollect => Collecting
    case Pulling => PullEntry
    case Uploading => UploadEntry
    case Completing => CompleteEntry
    case Retrying | Done | Failed | Unknown(_) => Settling
  }

  // Moves that change no shared state. A stage may fail anywhere, and a cancelled context may end it
  // anywhere; workers may stop at any time.
  predicate MayMove(s: Shared, j: JobRef, at: Location, to: Location)
    requires j in s.heap
  {
    match at
    case RunEntry => to == if s.heap[j].superseded then Exited else RunRegister
    case Advancing => to == Barred || (to == Finishing && RefusesToAdvance(s.heap[j].phase))
    case Switching => to == Stage(s.heap[j].phase) || (to == Barred && (s.heap[j].phase.WaitingCollect? || s.heap[j].phase.Pulling?))
    case Collecting => to == Finishing || to == Barred
    case Collected => to == PullEntry || to == Finishing || to == Barred
    case PullEntry => to == PullLoop || to == PullBroken || to == PullArrived || to == Finishing
    case PullLoop => to == PullBroken || to == PullArrived
    case PullFailed => to == Finishing || to == Barred
    case PullKept => to == Finishing
    case UploadEntry => to == UploadJoin || to == Finishing || to == Barred
    case UploadJoin => to == CompleteEntry || to == Barred
    case UploadBroken => to == Finishing
    case CompleteEntry => to == Barred
    case PostFailed => to == Finishing || to == Barred
    case Completed => to == Settling
    case Closing => to == Barred && s.heap[j].superseded
    case Concluded => to == Leaving
    case WorkerLoop(run) => to == Exited || (to == WorkerReading(run) && OwnerIntact(s, j))
    case WorkerReading(run) => to == WorkerFailed(run)
    case Sleeping => to == if RequeueEligible(s, j) then SleeperEnqueue else Exited
    case _ => false
  }

  // The end of a failed round: a stall is retried whatever the error; otherwise a job that is marked as
  // replaced fails, as it does on an error that may not be retried.
  predicate Classifies(job: Job, at: Location, p: Phase, reauth: bool, to: Location, stalled: bool) {
    if p == Retrying then
      && !reauth && to == (if job.needsReauth then Concluded else Finished)
      && (stalled || (at == Finishing && !job.superseded))
    else
      && p == Failed && !stalled && (to == Concluded || (to == Finished && !reauth && !job.needsReauth && (at == Barred || job.superseded)))
      && (reauth ==> at == Barred && !job.superseded)
  }

  // Writes of job.Phase, with the location that follows.
  predicate MayWritePhase(s: Shared, j: JobRef, at: Location, p: Phase, reauth: bool, to: Location, stalled: bool)
    requires j in s.heap
  {
    match at
    case Finishing | Barred => Classifies(s.heap[j], at, p, reauth, to, stalled)
    case Advancing => !reauth && to == Switching && Normalizes(s.heap[j], p)
    case Collecting => !reauth && to == Collected && p == Pulling
    case PullKept => !reauth && to == UploadEntry && p == Uploading
    case UploadJoin => !reauth && to == at && p == Completing
    case UploadBroken => !reauth && to == at && p == Uploading && !s.heap[j].held.insecure
    case PostFailed => !reauth && to == at && p == Completing && !s.heap[j].held.insecure
    case Closing => !reauth && to == Concluded && p == Done && !s.heap[j].superseded
    case CancelMark => !reauth && to == CancelSaving && p == Failed
    case _ => false
  }

  // Where the bytes pulled or the size of the source are recorded.
  predicate MayMeasure(at: Location, to: Location) {
    match at
    case Collecting | PullEntry | PullLoop => to == at
    case PullBroken => to == PullFailed
    case PullArrived => to == PullKept
    case _ => false
  }

  // Which ownership-tested effects the code at a location may attempt.
  predicate MayAttempt(at: Location, e: Effect)
  {
    match e
    case PutPart(_) => at.WorkerReading?
    case PostComplete => at == CompleteEntry
    case SaveJournal => MaySave(at)
    case RemoveCopy => at == PullFailed || at == PullKept || at == Settling
  }

  predicate MaySave(at: Location) {
    match at
    case Collected | PullLoop | PullFailed | PullKept | UploadEntry | UploadJoin | UploadBroken => true
    case PostFailed | Completed | Closing | Barred | Finished | Concluded | ResumeSaving | CancelSaving => true
    case _ => false
  }

  // Where a goroutine goes when the ownership test refuses the effect.
  function AfterRefusal(at: Location, e: Effect): Location
  {
    match e
    case PutPart(_) => Exited     // the worker records the error and returns
    case PostComplete => Barred   // complete returns errDeliverySuperseded
    case SaveJournal => at        // saveJob silently skips the write
    case RemoveCopy => Barred     // nothing is discarded, and the error is what it was: fatal, or superseded
  }

  function AfterEffect(at: Location, e: Effect, ok: bool): Location
  {
    match e
    case PostComplete => if ok then Completed else PostFailed
    case SaveJournal => if at == SubmitSaving then SubmitEnqueue else at
    case RemoveCopy => if at == Settling then Closing else Barred
    case PutPart(_) => if at.WorkerReading? then (if ok then WorkerSent(at.run) else WorkerFailed(at.run)) else at
  }

  // ---------- The atomic steps ----------

  datatype Step =
    | Submit(j: JobRef, job: Job, t: ThreadId)        // submit, up to its unlock
    | Recover(j: JobRef, job: Job)                    // start: load one job from the journal
    | Dequeue(t: ThreadId)                            // schedule starts runJob for the queue head
    | Resume(id: string, t: ThreadId)                 // resume, up to its unlock
    | Cancel(id: string, t: ThreadId)                 // cancel, up to its unlock
    | Enqueue(t: ThreadId)                            // a goroutine puts its job on the queue
    | RegisterRun(t: ThreadId)                        // runJob: test and register under the lock
    | Move(t: ThreadId, to: Location)
    | WritePhase(t: ThreadId, p: Phase, reauth: bool, to: Location)
    | Measure(t: ThreadId, full: bool, to: Location)  // bytes or size recorded: is the pull complete now?
    | Notice(t: ThreadId)                             // the watchdog of a run sees a stall
    | MarkStalled(t: ThreadId)                        // and marks it
    | SpawnWorker(t: ThreadId, w: ThreadId)
    | PartFailed(t: ThreadId, w: ThreadId)            // upload returns the error of a worker
    | Check(t: ThreadId, e: Effect)                   // fence or ownerIntact before effect e
    | Perform(t: ThreadId, ok: bool)                  // the external effect itself
    | LockedSave(t: ThreadId)                         // saveJobLocked
    | RemoveLocal(t: ThreadId)                        // pullArchive removes a file that is too long
    | AppendLocal(t: ThreadId)                        // pullArchive appends one block
    | BackOff(t: ThreadId, z: ThreadId)               // runJob starts the backoff goroutine
    | Leave(t: ThreadId)                              // deferred cleanup of runJob

  predicate JobsPointIntoHeap(s: Shared) {
    forall id <- s.jobs :: s.jobs[id] in s.heap && s.heap[s.jobs[id]].id == id
  }

  // submit deletes and re-inserts the key inside one lock region, so no id ever becomes vacant.
  predicate EveryIdHasAnOwner(s: Shared) {
    forall j <- s.heap :: s.heap[j].id in s.jobs
  }

  predicate WellFormed(s: State) {
    && JobsPointIntoHeap(s.shared)
    && EveryIdHasAnOwner(s.shared)
    && (forall t <- s.threads :: s.threads[t].job in s.shared.heap)
    && (forall j <- s.queue :: j in s.shared.heap)
  }

  function Init(): State {
    State(Shared(map[], map[], map[], map[]), map[], [], map[], CALM)
  }

  // A goroutine with no effect pending.
  predicate Idle(s: State, t: ThreadId) {
    t in s.threads && s.threads[t].armed == None
  }

  function MoveTo(s: State, t: ThreadId, at: Location): State
    requires t in s.threads
  {
    s.(threads := s.threads[t := s.threads[t].(at := at)])
  }

  function SubmitStep(s: State, j: JobRef, job: Job, t: ThreadId): Option<State>
    requires WellFormed(s)
  {
    if j in s.shared.heap || t in s.threads || job.superseded then None else
    var known := s.shared.(heap := s.shared.heap[j := job.(phase := WaitingCollect)]);
    var (shared, owner, taken) := SubmitLocked(known, j);
    // The first save of a freshly registered job is not tested again: registration armed it.
    var th := if owner == j then Thread(j, SubmitSaving, Some(SaveJournal)) else Thread(j, Exited, None);
    Some(s.(shared := shared, threads := s.threads[t := th]))
  }

  function RecoverStep(s: State, j: JobRef, job: Job): Option<State>
    requires WellFormed(s)
  {
    if j in s.shared.heap || job.phase.Terminal() || job.id in s.shared.jobs then None else
    var shared := s.shared.(heap := s.shared.heap[j := job], jobs := s.shared.jobs[job.id := j]);
    Some(s.(shared := shared, queue := if job.needsReauth then s.queue else Push(s.queue, j)))
  }

  function DequeueStep(s: State, t: ThreadId): Option<State>
  {
    if s.queue == [] || t in s.threads then None else
    Some(s.(threads := s.threads[t := Thread(s.queue[0], RunEntry, None)], queue := s.queue[1..]))
  }

  function ResumeStep(s: State, id: string, t: ThreadId): Option<State>
    requires WellFormed(s)
  {
    if id !in s.shared.jobs || t in s.threads then None else
    var j := s.shared.jobs[id];
    Some(s.(shared := ResumeLocked(s.shared, j), threads := s.threads[t := Thread(j, ResumeSaving, None)]))
  }

  function CancelStep(s: State, id: string, t: ThreadId): Option<State>
    requires WellFormed(s)
  {
    if id !in s.shared.jobs || t in s.threads then None else
    Some(s.(threads := s.threads[t := Thread(s.shared.jobs[id], CancelMark, None)]))
  }

  function EnqueueStep(s: State, t: ThreadId): Option<State>
  {
    if !(Idle(s, t) && s.threads[t].at in {SubmitEnqueue, SleeperEnqueue, ResumeSaving}) then None else
    Some(MoveTo(s, t, Exited).(queue := Push(s.queue, s.threads[t].job)))
  }

  function RegisterStep(s: State, t: ThreadId): Option<State>
    requires WellFormed(s)
  {
    if !(Idle(s, t) && s.threads[t].at == RunRegister) then None else
    match RegisterLocked(s.shared, t, s.threads[t].job)
    case Some(shared) => Some(MoveTo(s, t, Advancing).(shared := shared))
    case None => Some(MoveTo(s, t, Exited))
  }

  function MoveStep(s: State, t: ThreadId, to: Location): Option<State>
    requires WellFormed(s)
  {
    if Idle(s, t) && MayMove(s.shared, s.threads[t].job, s.threads[t].at, to) then Some(MoveTo(s, t, to)) else None
  }

  // The relaxation of TLS comes with the phase, under the same lock.
  function HeldAtWrite(held: Held, at: Location): Held {
    if at == UploadBroken || at == PostFailed then held.(insecure := true) else held
  }

  function WritePhaseStep(s: State, t: ThreadId, p: Phase, reauth: bool, to: Location): Option<State>
    requires WellFormed(s)
  {
    if !(Idle(s, t) && MayWritePhase(s.shared, s.threads[t].job, s.threads[t].at, p, reauth, to, t in s.dogs.stalled)) then None else
    var j, at := s.threads[t].job, s.threads[t].at;
    Some(MoveTo(s, t, to).(shared := SetPhaseAndHeld(s.shared, j, p, reauth, HeldAtWrite(s.shared.heap[j].held, at))))
  }

  function MeasureStep(s: State, t: ThreadId, full: bool, to: Location): Option<State>
    requires WellFormed(s)
  {
    if !(Idle(s, t) && MayMeasure(s.threads[t].at, to)) then None else
    var j := s.threads[t].job;
    Some(MoveTo(s, t, to).(shared := SetHeld(s.shared, j, s.shared.heap[j].held.(full := full))))
  }

  // progressSignature watches the phases pulling and uploading only. Noticing and marking are two steps.
  function NoticeStep(s: State, t: ThreadId): Option<State>
    requires WellFormed(s)
  {
    if t in s.threads && InRun(s.threads[t].at) && Watched(s.shared.heap[s.threads[t].job].phase)
    then Some(s.(dogs := s.dogs.(noticed := s.dogs.noticed + {t})))
    else None
  }

  predicate Watched(p: Phase) { p.Pulling? || p.Uploading? }

  function MarkStalledStep(s: State, t: ThreadId): Option<State> {
    if t in s.dogs.noticed then Some(s.(dogs := s.dogs.(stalled := s.dogs.stalled + {t}))) else None
  }

  function SpawnStep(s: State, t: ThreadId, w: ThreadId): Option<State>
  {
    if !(Idle(s, t) && s.threads[t].at == UploadJoin) || w in s.threads then None else
    Some(s.(threads := s.threads[w := Thread(s.threads[t].job, WorkerLoop(t), None)]))
  }

  function PartFailedStep(s: State, t: ThreadId, w: ThreadId): Option<State>
  {
    if !(Idle(s, t) && s.threads[t].at == UploadJoin && w in s.threads && s.threads[w].at == WorkerFailed(t)) then None else
    Some(MoveTo(s, t, UploadBroken))
  }

  function CheckStep(s: State, t: ThreadId, e: Effect): Option<State>
  {
    if !(Idle(s, t) && MayAttempt(s.threads[t].at, e)) then None else
    var th := s.threads[t];
    var after := if OwnerIntact(s.shared, th.job) then th.(armed := Some(e)) else th.(at := AfterRefusal(th.at, e));
    Some(s.(threads := s.threads[t := after]))
  }

  // discardLocalCopy resets the pulled bytes and the part list together, before it removes the file.
  function AfterPerform(s: Shared, j: JobRef, at: Location, e: Effect): Shared
    requires j in s.heap
  {
    if e == SaveJournal then WriteJournal(s, j)
    else if e == RemoveCopy && at != Settling then SetHeld(s, j, s.heap[j].held.(parts := false, full := false))
    else s
  }

  function PerformStep(s: State, t: ThreadId, ok: bool): Option<State>
    requires WellFormed(s)
  {
    if !(t in s.threads && s.threads[t].armed.Some?) then None else
    var th := s.threads[t];
    var after := th.(armed := None, at := AfterEffect(th.at, th.armed.value, ok));
    var shared := AfterPerform(s.shared, th.job, th.at, th.armed.value);
    var copies := if th.armed.value == RemoveCopy && ok then s.copies - {s.shared.heap[th.job].id} else s.copies;
    Some(s.(shared := shared, threads := s.threads[t := after], copies := copies))
  }

  // A worker registers its part and may save under one lock; the run may save its pace.
  function LockedSaveStep(s: State, t: ThreadId): Option<State>
    requires WellFormed(s)
  {
    if !Idle(s, t) then None else
    var j := s.threads[t].job;
    match s.threads[t].at
    case WorkerSent(run) =>
      var registered := SetHeld(s.shared, j, s.shared.heap[j].held.(parts := true));
      Some(MoveTo(s, t, WorkerLoop(run)).(shared := SaveLocked(registered, j)))
    case UploadJoin => Some(s.(shared := SaveLocked(s.shared, j)))
    case _ => None
  }

  // Neither of the next two is preceded by an ownership test.
  function RemoveLocalStep(s: State, t: ThreadId): Option<State>
    requires WellFormed(s)
  {
    if !(Idle(s, t) && s.threads[t].at == PullEntry) then None else
    Some(MoveTo(s, t, PullLoop).(copies := s.copies - {s.shared.heap[s.threads[t].job].id}))
  }

  function AppendLocalStep(s: State, t: ThreadId): Option<State>
    requires WellFormed(s)
  {
    if !(Idle(s, t) && s.threads[t].at == PullLoop) then None else
    var j := s.threads[t].job;
    Some(s.(copies := Appended(s.copies, s.shared.heap[j].id, j)))
  }

  function Appended(copies: map<string, seq<JobRef>>, id: string, j: JobRef): map<string, seq<JobRef>> {
    copies[id := (if id in copies then copies[id] else []) + [j]]
  }

  // The backoff goroutine may wake and requeue the job before the deferred cleanup.
  function BackOffStep(s: State, t: ThreadId, z: ThreadId): Option<State>
  {
    if !(Idle(s, t) && s.threads[t].at == Finished) || z in s.threads then None else
    Some(s.(threads := s.threads[t := s.threads[t].(at := Leaving)][z := Thread(s.threads[t].job, Sleeping, None)]))
  }

  function LeaveStep(s: State, t: ThreadId): Option<State>
    requires WellFormed(s)
  {
    if !(Idle(s, t) && s.threads[t].at == Leaving) then None else
    Some(MoveTo(s, t, Exited).(shared := s.shared.(cancels := s.shared.cancels - {s.shared.heap[s.threads[t].job].id})))
  }

  // One atomic step; None when the step is not possible.
  function Apply(s: State, step: Step): Option<State>
    requires WellFormed(s)
  {
    match step
    case Submit(j, job, t) => SubmitStep(s, j, job, t)
    case Recover(j, job) => RecoverStep(s, j, job)
    case Dequeue(t) => DequeueStep(s, t)
    case Resume(id, t) => ResumeStep(s, id, t)
    case Cancel(id, t) => CancelStep(s, id, t)
    case Enqueue(t) => EnqueueStep(s, t)
    case RegisterRun(t) => RegisterStep(s, t)
    case Move(t, to) => MoveStep(s, t, to)
    case WritePhase(t, p, reauth, to) => WritePhaseStep(s, t, p, reauth, to)
    case Measure(t, full, to) => MeasureStep(s, t, full, to)
    case Notice(t) => NoticeStep(s, t)
    case MarkStalled(t) => MarkStalledStep(s, t)
    case SpawnWorker(t, w) => SpawnStep(s, t, w)
    case PartFailed(t, w) => PartFailedStep(s, t, w)
    case Check(t, e) => CheckStep(s, t, e)
    case Perform(t, ok) => PerformStep(s, t, ok)
    case LockedSave(t) => LockedSaveStep(s, t)
    case RemoveLocal(t) => RemoveLocalStep(s, t)
    case AppendLocal(t) => AppendLocalStep(s, t)
    case BackOff(t, z) => BackOffStep(s, t, z)
    case Leave(t) => LeaveStep(s, t)
  }

  predicate Owner(s: State, j: JobRef) {
    OwnerIntact(s.shared, j)
  }

  predicate IsArmed(s: State, t: ThreadId) {
    t in s.threads && s.threads[t].armed.Some?
  }

  // ---------- What every step keeps ----------

  // Structures stay at their address with their id and are never un-superseded, every id keeps an
  // owner, and an id is handed over only to a new structure.
  ghost predicate SharedEvolves(s: Shared, s': Shared) {
    && (forall j <- s.heap :: j in s'.heap && s'.heap[j].id == s.heap[j].id && (s.heap[j].superseded ==> s'.heap[j].superseded))
    && (forall j <- s'.heap :: j in s.heap || s'.heap[j].id in s'.jobs)
    && (forall id <- s.jobs :: id in s'.jobs)
    && (forall id <- s'.jobs :: (id in s.jobs && s'.jobs[id] == s.jobs[id])
                                || (s'.jobs[id] !in s.heap && s'.jobs[id] in s'.heap && s'.heap[s'.jobs[id]].id == id))
  }

  // Each goroutine keeps its job; while an effect is pending only performing it (by `performer`)
  // changes the goroutine; and an effect becomes pending only when the job is the owner.
  ghost predicate ThreadsEvolve(s: State, performer: Option<ThreadId>, s': State) {
    && (forall t <- s.threads :: t in s'.threads && s'.threads[t].job == s.threads[t].job)
    && (forall t <- s'.threads :: t !in s.threads ==> s'.threads[t].job in s'.shared.heap)
    && (forall t | IsArmed(s, t) && Some(t) != performer :: s'.threads[t] == s.threads[t])
    && (performer.Some? ==> IsArmed(s, performer.value) && !IsArmed(s', performer.value))
    && (forall t | IsArmed(s', t) && !IsArmed(s, t) :: Owner(s', s'.threads[t].job))
  }

  ghost predicate Evolves(s: State, performer: Option<ThreadId>, s': State) {
    && SharedEvolves(s.shared, s'.shared)
    && ThreadsEvolve(s, performer, s')
    && (forall j <- s'.queue :: j in s.queue || j in s'.shared.heap)
  }

  function Performer(step: Step): Option<ThreadId> {
    if step.Perform? then Some(step.t) else None
  }

  lemma SameRegistryEvolves(s: Shared, s': Shared)
    requires JobsPointIntoHeap(s) && EveryIdHasAnOwner(s) && s'.heap == s.heap && s'.jobs == s.jobs
    ensures SharedEvolves(s, s')
  {
  }

  lemma JobWriteEvolves(s: Shared, j: JobRef, job: Job)
    requires JobsPointIntoHeap(s) && EveryIdHasAnOwner(s) && j in s.heap
    requires job.id == s.heap[j].id && (s.heap[j].superseded ==> job.superseded)
    ensures SharedEvolves(s, s.(heap := s.heap[j := job]))
  {
  }

  // A new structure takes its id over; the structure that held the id may be marked superseded.
  lemma HandoverEvolves(s: Shared, s': Shared, j: JobRef)
    requires JobsPointIntoHeap(s) && EveryIdHasAnOwner(s) && j !in s.heap
    requires s'.heap.Keys == s.heap.Keys + {j}
    requires forall k <- s.heap :: s'.heap[k].id == s.heap[k].id && (s.heap[k].superseded ==> s'.heap[k].superseded)
    requires s'.jobs == s.jobs[s'.heap[j].id := j] || (s'.jobs == s.jobs && s'.heap[j].id in s.jobs)
    ensures SharedEvolves(s, s')
  {
  }

  // One goroutine that had no effect pending moves on, or a new one appears.
  lemma OneThreadEvolves(s: State, t: ThreadId, th: Thread, s': State)
    requires WellFormed(s) && SharedEvolves(s.shared, s'.shared) && s'.threads == s.threads[t := th]
    requires if t in s.threads then s.threads[t].armed == None && th.job == s.threads[t].job else th.job in s'.shared.heap
    requires th.armed.Some? ==> Owner(s', th.job)
    requires forall j <- s'.queue :: j in s.queue || j in s'.shared.heap
    ensures Evolves(s, None, s')
  {
    hide SharedEvolves, OwnerIntact, WellFormed;
  }

  lemma SubmitEvolves(s: State, j: JobRef, job: Job, t: ThreadId)
    requires WellFormed(s) && SubmitStep(s, j, job, t).Some?
    ensures Evolves(s, None, SubmitStep(s, j, job, t).value)
  {
    var s' := SubmitStep(s, j, job, t).value;
    SubmitHandsOver(s, j, job, t);
    hide SharedEvolves, SubmitLocked;
    OneThreadEvolves(s, t, s'.threads[t], s');
  }

  lemma SubmitHandsOver(s: State, j: JobRef, job: Job, t: ThreadId)
    requires WellFormed(s) && SubmitStep(s, j, job, t).Some?
    ensures var s' := SubmitStep(s, j, job, t).value;
            && SharedEvolves(s.shared, s'.shared) && t in s'.threads && s'.threads[t].job in s'.shared.heap
            && (s'.threads[t].armed.Some? ==> Owner(s', s'.threads[t].job))
  {
    HandoverEvolves(s.shared, SubmitStep(s, j, job, t).value.shared, j);
  }

  lemma RecoverEvolves(s: State, j: JobRef, job: Job)
    requires WellFormed(s) && RecoverStep(s, j, job).Some?
    ensures Evolves(s, None, RecoverStep(s, j, job).value)
  {
    HandoverEvolves(s.shared, RecoverStep(s, j, job).value.shared, j);
  }

  lemma DequeueEvolves(s: State, t: ThreadId)
    requires WellFormed(s) && DequeueStep(s, t).Some?
    ensures Evolves(s, None, DequeueStep(s, t).value)
  {
    SameRegistryEvolves(s.shared, s.shared);
    OneThreadEvolves(s, t, Thread(s.queue[0], RunEntry, None), DequeueStep(s, t).value);
  }

  lemma ResumeEvolves(s: State, id: string, t: ThreadId)
    requires WellFormed(s) && ResumeStep(s, id, t).Some?
    ensures Evolves(s, None, ResumeStep(s, id, t).value)
  {
    var j := s.shared.jobs[id];
    JobWriteEvolves(s.shared, j, s.shared.heap[j].(needsReauth := false, phase := Retrying));
    OneThreadEvolves(s, t, Thread(j, ResumeSaving, None), ResumeStep(s, id, t).value);
  }

  lemma CancelEvolves(s: State, id: string, t: ThreadId)
    requires WellFormed(s) && CancelStep(s, id, t).Some?
    ensures Evolves(s, None, CancelStep(s, id, t).value)
  {
    SameRegistryEvolves(s.shared, s.shared);
    OneThreadEvolves(s, t, Thread(s.shared.jobs[id], CancelMark, None), CancelStep(s, id, t).value);
  }

  lemma EnqueueEvolves(s: State, t: ThreadId)
    requires WellFormed(s) && EnqueueStep(s, t).Some?
    ensures Evolves(s, None, EnqueueStep(s, t).value)
  {
    SameRegistryEvolves(s.shared, s.shared);
    OneThreadEvolves(s, t, s.threads[t].(at := Exited), EnqueueStep(s, t).value);
  }

  lemma RegisterEvolves(s: State, t: ThreadId)
    requires WellFormed(s) && RegisterStep(s, t).Some?
    ensures Evolves(s, None, RegisterStep(s, t).value)
  {
    var s' := RegisterStep(s, t).value;
    SameRegistryEvolves(s.shared, s'.shared);
    OneThreadEvolves(s, t, s'.threads[t], s');
  }

  lemma MoveEvolves(s: State, t: ThreadId, to: Location)
    requires WellFormed(s) && MoveStep(s, t, to).Some?
    ensures Evolves(s, None, MoveStep(s, t, to).value)
  {
    SameRegistryEvolves(s.shared, s.shared);
    OneThreadEvolves(s, t, s.threads[t].(at := to), MoveStep(s, t, to).value);
  }

  lemma WritePhaseEvolves(s: State, t: ThreadId, p: Phase, reauth: bool, to: Location)
    requires WellFormed(s) && WritePhaseStep(s, t, p, reauth, to).Some?
    ensures Evolves(s, None, WritePhaseStep(s, t, p, reauth, to).value)
  {
    var s', j := WritePhaseStep(s, t, p, reauth, to).value, s.threads[t].job;
    WritePhaseWrites(s, t, p, reauth, to);
    hide WritePhaseStep;
    JobWriteEvolves(s.shared, j, s'.shared.heap[j]);
    hide SharedEvolves;
    OneThreadEvolves(s, t, s.threads[t].(at := to), s');
  }

  lemma WritePhaseWrites(s: State, t: ThreadId, p: Phase, reauth: bool, to: Location)
    requires WellFormed(s) && WritePhaseStep(s, t, p, reauth, to).Some?
    ensures Idle(s, t) && s.threads[t].job in s.shared.heap
    ensures var (j, s') := (s.threads[t].job, WritePhaseStep(s, t, p, reauth, to).value);
            && j in s'.shared.heap && s' == MoveTo(s, t, to).(shared := s.shared.(heap := s.shared.heap[j := s'.shared.heap[j]]))
            && s'.shared.heap[j].id == s.shared.heap[j].id && s'.shared.heap[j].superseded == s.shared.heap[j].superseded
  {
    assert s.threads[t].job in s.shared.heap;
    hide WellFormed, MayWritePhase;
  }

  lemma MeasureEvolves(s: State, t: ThreadId, full: bool, to: Location)
    requires WellFormed(s) && MeasureStep(s, t, full, to).Some?
    ensures Evolves(s, None, MeasureStep(s, t, full, to).value)
  {
    var s' := MeasureStep(s, t, full, to).value;
    JobWriteEvolves(s.shared, s.threads[t].job, s'.shared.heap[s.threads[t].job]);
    OneThreadEvolves(s, t, s.threads[t].(at := to), s');
  }

  lemma DogsEvolve(s: State, dogs: Dogs)
    requires WellFormed(s)
    ensures Evolves(s, None, s.(dogs := dogs))
  {
    SameRegistryEvolves(s.shared, s.shared);
  }

  lemma SpawnEvolves(s: State, t: ThreadId, w: ThreadId)
    requires WellFormed(s) && SpawnStep(s, t, w).Some?
    ensures Evolves(s, None, SpawnStep(s, t, w).value)
  {
    SameRegistryEvolves(s.shared, s.shared);
    OneThreadEvolves(s, w, Thread(s.threads[t].job, WorkerLoop(t), None), SpawnStep(s, t, w).value);
  }

  lemma PartFailedEvolves(s: State, t: ThreadId, w: ThreadId)
    requires WellFormed(s) && PartFailedStep(s, t, w).Some?
    ensures Evolves(s, None, PartFailedStep(s, t, w).value)
  {
    SameRegistryEvolves(s.shared, s.shared);
    OneThreadEvolves(s, t, s.threads[t].(at := UploadBroken), PartFailedStep(s, t, w).value);
  }

  lemma CheckEvolves(s: State, t: ThreadId, e: Effect)
    requires WellFormed(s) && CheckStep(s, t, e).Some?
    ensures Evolves(s, None, CheckStep(s, t, e).value)
  {
    var s' := CheckStep(s, t, e).value;
    SameRegistryEvolves(s.shared, s.shared);
    OneThreadEvolves(s, t, s'.threads[t], s');
  }

  lemma AfterPerformEvolves(s: Shared, j: JobRef, at: Location, e: Effect)
    requires JobsPointIntoHeap(s) && EveryIdHasAnOwner(s) && j in s.heap
    ensures SharedEvolves(s, AfterPerform(s, j, at, e))
  {
    SameRegistryEvolves(s, WriteJournal(s, j));
    SameRegistryEvolves(s, s);
    JobWriteEvolves(s, j, s.heap[j].(held := s.heap[j].held.(parts := false, full := false)));
  }

  lemma PerformEvolves(s: State, t: ThreadId, ok: bool)
    requires WellFormed(s) && PerformStep(s, t, ok).Some?
    ensures Evolves(s, Some(t), PerformStep(s, t, ok).value)
  {
    AfterPerformEvolves(s.shared, s.threads[t].job, s.threads[t].at, s.threads[t].armed.value);
    hide AfterPerform, AfterEffect, SharedEvolves, WellFormed, ThreadsEvolve;
    assert ThreadsEvolve(s, Some(t), PerformStep(s, t, ok).value) by {
      PerformedThreadsEvolve(s, t, ok);
    }
  }

  lemma PerformedThreadsEvolve(s: State, t: ThreadId, ok: bool)
    requires WellFormed(s) && PerformStep(s, t, ok).Some?
    ensures ThreadsEvolve(s, Some(t), PerformStep(s, t, ok).value)
  {
    hide AfterPerform, AfterEffect, OwnerIntact, WellFormed;
  }

  lemma LockedSaveEvolves(s: State, t: ThreadId)
    requires WellFormed(s) && LockedSaveStep(s, t).Some?
    ensures Evolves(s, None, LockedSaveStep(s, t).value)
  {
    var s', j := LockedSaveStep(s, t).value, s.threads[t].job;
    if s.threads[t].at == UploadJoin {
      SameRegistryEvolves(s.shared, s'.shared);
      assert s'.threads == s.threads[t := s.threads[t]];
    } else {
      JobWriteEvolves(s.shared, j, s'.shared.heap[j]);
      assert SharedEvolves(s.shared, s'.shared);
    }
    OneThreadEvolves(s, t, s'.threads[t], s');
  }

  lemma TouchEvolves(s: State, t: ThreadId)
    requires WellFormed(s)
    ensures RemoveLocalStep(s, t).Some? ==> Evolves(s, None, RemoveLocalStep(s, t).value)
    ensures AppendLocalStep(s, t).Some? ==> Evolves(s, None, AppendLocalStep(s, t).value)
  {
    SameRegistryEvolves(s.shared, s.shared);
    hide SharedEvolves;
    if RemoveLocalStep(s, t).Some? {
      OneThreadEvolves(s, t, s.threads[t].(at := PullLoop), RemoveLocalStep(s, t).value);
    }
  }

  lemma BackOffEvolves(s: State, t: ThreadId, z: ThreadId)
    requires WellFormed(s) && BackOffStep(s, t, z).Some?
    ensures Evolves(s, None, BackOffStep(s, t, z).value)
  {
    var left := MoveTo(s, t, Leaving);
    SameRegistryEvolves(s.shared, s.shared);
    OneThreadEvolves(s, t, s.threads[t].(at := Leaving), left);
    SleeperEvolves(s, left, z, Thread(s.threads[t].job, Sleeping, None));
  }

  lemma LeaveEvolves(s: State, t: ThreadId)
    requires WellFormed(s) && LeaveStep(s, t).Some?
    ensures Evolves(s, None, LeaveStep(s, t).value)
  {
    var s' := LeaveStep(s, t).value;
    SameRegistryEvolves(s.shared, s'.shared);
    OneThreadEvolves(s, t, s.threads[t].(at := Exited), s');
  }

  lemma SleeperEvolves(s: State, left: State, z: ThreadId, th: Thread)
    requires Evolves(s, None, left) && z !in left.threads && th.armed == None && th.job in left.shared.heap
    ensures Evolves(s, None, left.(threads := left.threads[z := th]))
  {
  }

  lemma StepEvolves(s: State, step: Step)
    requires WellFormed(s) && Apply(s, step).Some?
    ensures Evolves(s, Performer(step), Apply(s, step).value)
  {
    hide Evolves, WellFormed;
    match step
    case Submit(j, job, t) => SubmitEvolves(s, j, job, t);
    case Recover(j, job) => RecoverEvolves(s, j, job);
    case Dequeue(t) => DequeueEvolves(s, t);
    case Resume(id, t) => ResumeEvolves(s, id, t);
    case Cancel(id, t) => CancelEvolves(s, id, t);
    case Enqueue(t) => EnqueueEvolves(s, t);
    case RegisterRun(t) => RegisterEvolves(s, t);
    case Move(t, to) => MoveEvolves(s, t, to);
    case WritePhase(t, p, reauth, to) => WritePhaseEvolves(s, t, p, reauth, to);
    case Measure(t, full, to) => MeasureEvolves(s, t, full, to);
    case Notice(t) => DogsEvolve(s, s.dogs.(noticed := s.dogs.noticed + {t}));
    case MarkStalled(t) => DogsEvolve(s, s.dogs.(stalled := s.dogs.stalled + {t}));
    case SpawnWorker(t, w) => SpawnEvolves(s, t, w);
    case PartFailed(t, w) => PartFailedEvolves(s, t, w);
    case Check(t, e) => CheckEvolves(s, t, e);
    case Perform(t, ok) => PerformEvolves(s, t, ok);
    case LockedSave(t) => LockedSaveEvolves(s, t);
    case RemoveLocal(t) => TouchEvolves(s, t);
    case AppendLocal(t) => TouchEvolves(s, t);
    case BackOff(t, z) => BackOffEvolves(s, t, z);
    case Leave(t) => LeaveEvolves(s, t);
  }

  lemma EvolvingKeepsWellFormed(s: State, performer: Option<ThreadId>, s': State)
    requires WellFormed(s) && Evolves(s, performer, s')
    ensures WellFormed(s')
  {
  }

  lemma StepKeepsWellFormed(s: State, step: Step)
    requires WellFormed(s) && Apply(s, step).Some?
    ensures WellFormed(Apply(s, step).value)
  {
    StepEvolves(s, step);
    EvolvingKeepsWellFormed(s, Performer(step), Apply(s, step).value);
  }

  // The heart of the protocol: a job that is not the owner can never become the owner again.
  lemma OwnershipIsNotRestored(s: Shared, s': Shared, j: JobRef)
    requires JobsPointIntoHeap(s) && EveryIdHasAnOwner(s) && SharedEvolves(s, s') && j in s.heap
    ensures j in s'.heap && (!OwnerIntact(s, j) ==> !OwnerIntact(s', j))
  {
  }

  // ---------- Whole runs ----------

  // A run: states[i] becomes states[i + 1] by steps[i].
  datatype Run = Run(states: seq<State>, steps: seq<Step>)

  ghost predicate IsRun(r: Run) {
    && |r.states| == |r.steps| + 1
    && r.states[0] == Init()
    && forall i | 0 <= i < |r.steps| :: Linked(r, i)
  }

  ghost predicate Linked(r: Run, i: nat)
    requires i < |r.steps| && |r.states| == |r.steps| + 1
  {
    WellFormed(r.states[i]) && Apply(r.states[i], r.steps[i]) == Some(r.states[i + 1])
  }

  // What the run theorems need of one step.
  lemma RunEvolves(r: Run, i: nat)
    requires IsRun(r) && i < |r.steps|
    ensures WellFormed(r.states[i])
    ensures SharedEvolves(r.states[i].shared, r.states[i + 1].shared)
    ensures ThreadsEvolve(r.states[i], Performer(r.steps[i]), r.states[i + 1])
  {
    assert Linked(r, i);
    StepEvolves(r.states[i], r.steps[i]);
  }

  lemma RunStatesAreWellFormed(r: Run, k: nat)
    requires IsRun(r) && k <= |r.steps|
    ensures WellFormed(r.states[k])
  {
    if k > 0 {
      assert Linked(r, k - 1);
      StepKeepsWellFormed(r.states[k - 1], r.steps[k - 1]);
    }
  }

  // Well-formedness never stands in the way: every possible step extends a run.
  lemma RunsExtend(r: Run, step: Step, s: State)
    requires IsRun(r)
    ensures WellFormed(r.states[|r.steps|])
    ensures Apply(r.states[|r.steps|], step) == Some(s) ==> IsRun(Run(r.states + [s], r.steps + [step]))
  {
    RunStatesAreWellFormed(r, |r.steps|);
    if Apply(r.states[|r.steps|], step) == Some(s) {
      var r' := Run(r.states + [s], r.steps + [step]);
      forall i | 0 <= i < |r'.steps| ensures Linked(r', i) {
        if i < |r.steps| {
          assert Linked(r, i);
        }
      }
    }
  }

  // Job j exists at time k and is not the owner then.
  ghost predicate Lost(r: Run, k: nat, j: JobRef)
    requires IsRun(r)
  {
    k <= |r.steps| && j in r.states[k].shared.heap && !Owner(r.states[k], j)
  }

  // Ownership is lost at most once and never regained.
  lemma {:induction false} OwnershipIsNeverRegained(r: Run, k: nat, m: nat, j: JobRef)
    requires IsRun(r) && Lost(r, k, j) && k <= m <= |r.steps|
    ensures Lost(r, m, j)
    decreases m
  {
    if k < m {
      OwnershipIsNeverRegained(r, k, m - 1, j);
      RunEvolves(r, m - 1);
      OwnershipIsNotRestored(r.states[m - 1].shared, r.states[m].shared, j);
    }
  }

  // A task id that has a job keeps having one: submit replaces, it never vacates.
  lemma {:induction false} TaskIdsStayPresent(r: Run, k: nat, m: nat, id: string)
    requires IsRun(r) && k <= m <= |r.steps| && id in r.states[k].shared.jobs
    ensures id in r.states[m].shared.jobs
    decreases m
  {
    if k < m {
      TaskIdsStayPresent(r, k, m - 1, id);
      RunEvolves(r, m - 1);
    }
  }

  // Goroutine t performs a tested effect of job j at step i.
  ghost predicate Performs(r: Run, i: nat, t: ThreadId, j: JobRef)
    requires IsRun(r)
  {
    i < |r.steps| && Performer(r.steps[i]) == Some(t) && t in r.states[i].threads && r.states[i].threads[t].job == j
  }

  // From just after step f until step i goroutine t holds one and the same passed test.
  ghost predicate HoldsTest(r: Run, f: nat, i: nat, t: ThreadId)
    requires IsRun(r)
  {
    && f < i <= |r.steps| && IsArmed(r.states[i], t)
    && (forall m | f < m <= i :: t in r.states[m].threads && r.states[m].threads[t] == r.states[i].threads[t])
    && (forall m | f <= m < i :: Performer(r.steps[m]) != Some(t))
  }

  // Looking one step back from an armed goroutine: it was armed with the same effect already, or
  // this very step armed it while its job was the owner.
  lemma ArmedBefore(r: Run, i: nat, t: ThreadId)
    requires IsRun(r) && 0 < i <= |r.steps| && IsArmed(r.states[i], t)
    ensures Performer(r.steps[i - 1]) != Some(t)
    ensures IsArmed(r.states[i - 1], t) ==> r.states[i - 1].threads[t] == r.states[i].threads[t]
    ensures !IsArmed(r.states[i - 1], t) ==> Owner(r.states[i], r.states[i].threads[t].job)
  {
    RunEvolves(r, i - 1);
  }

  // Every tested effect was preceded by an ownership test of the same goroutine that passed while its
  // job was the owner, with no effect of that goroutine in between.
  lemma {:induction false} EveryEffectWasFenced(r: Run, i: nat, t: ThreadId) returns (f: nat)
    requires IsRun(r) && i <= |r.steps| && IsArmed(r.states[i], t)
    ensures HoldsTest(r, f, i, t) && !IsArmed(r.states[f], t)
    ensures Owner(r.states[f + 1], r.states[i].threads[t].job)
  {
    if i == 0 {
      assert false;
    } else {
      ArmedBefore(r, i, t);
      if IsArmed(r.states[i - 1], t) {
        f := EveryEffectWasFenced(r, i - 1, t);
      } else {
        f := i - 1;
      }
    }
  }

  // Bounded leakage, part one: an effect of a job that is no longer the owner was tested while the
  // job still was, and its goroutine performed nothing since that test.
  lemma LateEffectWasTestedInTime(r: Run, k: nat, i: nat, t: ThreadId, j: JobRef) returns (f: nat)
    requires IsRun(r) && Lost(r, k, j) && k <= i && Performs(r, i, t, j)
    ensures f + 1 < k && Owner(r.states[f + 1], j) && HoldsTest(r, f, i, t)
  {
    assert IsArmed(r.states[i], t) by {
      RunEvolves(r, i);
    }
    f := EveryEffectWasFenced(r, i, t);
    if k <= f + 1 {
      OwnershipIsNeverRegained(r, k, f + 1, j);
    }
  }

  // Bounded leakage, part two: from the moment job j is not the owner, each goroutine of j (an
  // upload worker, a runJob invocation, a resume, a cancel) performs at most one more effect: one
  // PUT, one complete POST, one journal write or one deletion.
  lemma AtMostOneLateEffectPerGoroutine(r: Run, k: nat, i: nat, i': nat, t: ThreadId, j: JobRef)
    requires IsRun(r) && Lost(r, k, j) && k <= i && k <= i'
    requires Performs(r, i, t, j) && Performs(r, i', t, j)
    ensures i == i'
  {
    var f := LateEffectWasTestedInTime(r, k, i, t, j);
    var f' := LateEffectWasTestedInTime(r, k, i', t, j);
  }

  // The goroutines of job j whose test has passed and whose effect is still to come.
  ghost function Armed(s: State, j: JobRef): set<ThreadId> {
    set t | t in s.threads && s.threads[t].job == j && s.threads[t].armed.Some?
  }

  // How many tested effects of job j the steps k, k + 1, ... perform.
  ghost function LateEffects(r: Run, k: nat, j: JobRef): nat
    requires IsRun(r) && k <= |r.steps|
    decreases |r.steps| - k
  {
    if k == |r.steps| then 0
    else (if r.steps[k].Perform? && Performs(r, k, r.steps[k].t, j) then 1 else 0) + LateEffects(r, k + 1, j)
  }

  lemma LateStepOnlyDisarms(s: State, performer: Option<ThreadId>, s': State, j: JobRef)
    requires WellFormed(s) && ThreadsEvolve(s, performer, s')
    requires j in s.shared.heap && !Owner(s', j)
    ensures Armed(s', j) <= Armed(s, j)
    ensures performer.Some? && s.threads[performer.value].job == j ==>
              performer.value in Armed(s, j) && performer.value !in Armed(s', j)
  {
    forall t | t in Armed(s', j) ensures t in Armed(s, j) {
      assert IsArmed(s', t);
    }
  }

  // Bounded leakage, part three: in total, a job that lost ownership leaks no more effects than it
  // had goroutines between test and effect at that moment.
  lemma {:induction false} LateEffectsAreBounded(r: Run, k: nat, j: JobRef)
    requires IsRun(r) && Lost(r, k, j)
    ensures LateEffects(r, k, j) + |Armed(r.states[|r.steps|], j)| <= |Armed(r.states[k], j)|
    decreases |r.steps| - k
  {
    if k < |r.steps| {
      var now, next := Armed(r.states[k], j), Armed(r.states[k + 1], j);
      OwnershipIsNeverRegained(r, k, k + 1, j);
      LateEffectsAreBounded(r, k + 1, j);
      RunEvolves(r, k);
      LateStepOnlyDisarms(r.states[k], Performer(r.steps[k]), r.states[k + 1], j);
      SubsetSize(next, now);
      if r.steps[k].Perform? && Performs(r, k, r.steps[k].t, j) {
        SubsetSize(next, now - {r.steps[k].t});
      }
    }
  }

  lemma {:induction false} SubsetSize<T>(a: set<T>, b: set<T>)
    requires a <= b
    ensures |a| <= |b|
  {
    if a != {} {
      var x :| x in a;
      SubsetSize(a - {x}, b - {x});
    }
  }

  // Goroutine t registers a run of advance for job j at step i.
  ghost predicate Registers(r: Run, i: nat, t: ThreadId, j: JobRef)
    requires IsRun(r)
  {
    && i < |r.steps| && r.steps[i] == RegisterRun(t)
    && t in r.states[i].threads && r.states[i].threads[t].job == j
    && t in r.states[i + 1].threads && r.states[i + 1].threads[t].at == Advancing
  }

  lemma RegistrationNeedsOwnership(r: Run, i: nat, t: ThreadId, j: JobRef)
    requires IsRun(r)
    ensures Registers(r, i, t, j) ==> Owner(r.states[i], j)
  {
    assert i < |r.steps| ==> Linked(r, i);
  }

  // A replaced job never starts another advance, wherever it was waiting: in the queue, asleep in
  // backoff, or being resumed at that moment.
  lemma NoRunStartsAfterReplacement(r: Run, k: nat, i: nat, t: ThreadId, j: JobRef)
    requires IsRun(r) && Lost(r, k, j) && k <= i
    ensures !Registers(r, i, t, j)
  {
    RegistrationNeedsOwnership(r, i, t, j);
    if i <= |r.steps| {
      OwnershipIsNeverRegained(r, k, i, j);
    }
  }

  // A backoff goroutine that wakes after the replacement leaves without touching the queue.
  lemma NoBackoffRequeuesAfterReplacement(r: Run, k: nat, i: nat, t: ThreadId, j: JobRef)
    requires IsRun(r) && Lost(r, k, j) && k <= i < |r.steps|
    requires r.steps[i].Move? && r.steps[i].t == t && t in r.states[i].threads && r.states[i].threads[t].job == j
    requires r.states[i].threads[t].at == Sleeping
    ensures t in r.states[i + 1].threads && r.states[i + 1].threads[t].at == Exited
    ensures r.states[i + 1].queue == r.states[i].queue
  {
    OwnershipIsNeverRegained(r, k, i, j);
    assert Linked(r, i);
  }

  // ---------- What the protocol does not guarantee ----------

  ghost predicate Extends(r: Run, r': Run) { r.states <= r'.states && r.steps <= r'.steps }

  lemma Extend(r: Run, step: Step, s: State) returns (r': Run)
    requires IsRun(r) && WellFormed(Last(r)) && Apply(Last(r), step) == Some(s)
    ensures IsRun(r') && WellFormed(Last(r')) && Last(r') == s && Extends(r, r')
    ensures |r'.steps| == |r.steps| + 1 && r'.steps[|r.steps|] == step && r'.states[|r.steps|] == Last(r)
  {
    RunsExtend(r, step, s);
    StepKeepsWellFormed(Last(r), step);
    r' := Run(r.states + [s], r.steps + [step]);
  }

  lemma Go(r: Run, t: ThreadId, to: Location) returns (r': Run)
    requires IsRun(r) && WellFormed(Last(r)) && Idle(Last(r), t) && MayMove(Last(r).shared, Last(r).threads[t].job, Last(r).threads[t].at, to)
    ensures IsRun(r') && WellFormed(Last(r')) && Last(r') == MoveTo(Last(r), t, to) && Extends(r, r')
  {
    r' := Extend(r, Move(t, to), MoveTo(Last(r), t, to));
  }

  lemma Write(r: Run, t: ThreadId, p: Phase, to: Location) returns (r': Run)
    requires IsRun(r) && WellFormed(Last(r)) && Idle(Last(r), t)
    requires MayWritePhase(Last(r).shared, Last(r).threads[t].job, Last(r).threads[t].at, p, false, to, t in Last(r).dogs.stalled)
    requires Last(r).threads[t].at != UploadBroken && Last(r).threads[t].at != PostFailed
    ensures IsRun(r') && WellFormed(Last(r')) && Extends(r, r')
    ensures Last(r') == MoveTo(Last(r), t, to).(shared := SetPhase(Last(r).shared, Last(r).threads[t].job, p, false))
  {
    r' := Extend(r, WritePhase(t, p, false, to), MoveTo(Last(r), t, to).(shared := SetPhase(Last(r).shared, Last(r).threads[t].job, p, false)));
  }

  ghost function Last(r: Run): State
    requires |r.states| > 0
  {
    r.states[|r.states| - 1]
  }

  // Goroutine u has queued job j and left, and goroutine t has taken j from the queue.
  ghost function Taken(s: State, u: ThreadId, t: ThreadId, j: JobRef, at: Location): State
    requires u in s.threads
  {
    s.(threads := s.threads[u := s.threads[u].(at := Exited)][t := Thread(j, at, None)])
  }

  lemma QueueAndTake(r: Run, u: ThreadId, t: ThreadId, j: JobRef) returns (r': Run)
    requires IsRun(r) && WellFormed(Last(r)) && Last(r).queue == []
    requires Idle(Last(r), u) && Last(r).threads[u].at in {SubmitEnqueue, SleeperEnqueue, ResumeSaving} && Last(r).threads[u].job == j
    requires t !in Last(r).threads
    ensures IsRun(r') && WellFormed(Last(r')) && Last(r') == Taken(Last(r), u, t, j, RunEntry)
  {
    var s1 := MoveTo(Last(r), u, Exited).(queue := Push([], j));
    r' := Extend(r, Step.Enqueue(u), s1);
    assert s1.queue[1..] == [];
    r' := Extend(r', Dequeue(t), Taken(Last(r), u, t, j, RunEntry));
  }

  lemma TakeAndRegister(r: Run, t: ThreadId, j: JobRef, id: string) returns (r': Run)
    requires IsRun(r) && WellFormed(Last(r)) && Owner(Last(r), j) && Last(r).shared.heap[j].id == id
    requires t in Last(r).threads && Last(r).threads[t] == Thread(j, RunEntry, None)
    ensures IsRun(r') && WellFormed(Last(r'))
    ensures Last(r') == MoveTo(Last(r), t, Advancing).(shared := Last(r).shared.(cancels := Last(r).shared.cancels[id := t]))
  {
    r' := Go(r, t, RunRegister);
    var s1 := Last(r');
    var s2 := MoveTo(s1, t, Advancing).(shared := s1.shared.(cancels := s1.shared.cancels[id := t]));
    r' := Extend(r', RegisterRun(t), s2);
    assert s2.threads == Last(r).threads[t := Thread(j, Advancing, None)];
  }

  lemma QueueAndRegister(r: Run, u: ThreadId, t: ThreadId, j: JobRef, id: string) returns (r': Run)
    requires IsRun(r) && WellFormed(Last(r)) && Last(r).queue == []
    requires Idle(Last(r), u) && Last(r).threads[u].at in {SubmitEnqueue, SleeperEnqueue, ResumeSaving} && Last(r).threads[u].job == j
    requires t !in Last(r).threads && Owner(Last(r), j) && Last(r).shared.heap[j].id == id
    ensures IsRun(r') && WellFormed(Last(r'))
    ensures Last(r') == Taken(Last(r), u, t, j, Advancing).(shared := Last(r).shared.(cancels := Last(r).shared.cancels[id := t]))
  {
    r' := QueueAndTake(r, u, t, j);
    r' := TakeAndRegister(r', t, j, id);
    assert Last(r').threads == Taken(Last(r), u, t, j, Advancing).threads;
  }

  // Task `id` is submitted as job 0 and saved.
  lemma FirstJobSubmitted(id: string, session: Session) returns (r: Run)
    ensures IsRun(r) && WellFormed(Last(r))
    ensures Last(r) == State(
                         Shared(map[0 := Job(id, session, WaitingCollect, false, false, NOTHING_HELD)], map[id := 0], map[], map[]),
                         map[0 := Thread(0, SubmitSaving, Some(SaveJournal))], [], map[], CALM)
  {
    r := Run([Init()], []);
    var job := Job(id, session, WaitingCollect, false, false, NOTHING_HELD);
    var s1 := State(Shared(map[0 := job], map[id := 0], map[], map[]), map[0 := Thread(0, SubmitSaving, Some(SaveJournal))], [], map[], CALM);
    r := Extend(r, Submit(0, job, 0), s1);
  }

  lemma FirstJobSaved(id: string, session: Session) returns (r: Run)
    ensures IsRun(r) && WellFormed(Last(r))
    ensures Last(r) == State(
                         Shared(map[0 := Job(id, session, WaitingCollect, false, false, NOTHING_HELD)], map[id := 0], map[], map[id := 0]),
                         map[0 := Thread(0, SubmitEnqueue, None)], [], map[], CALM)
  {
    r := FirstJobSubmitted(id, session);
    hide IsRun, WellFormed;
    var s := Last(r);
    r := Extend(r, Perform(0, true), s.(shared := WriteJournal(s.shared, 0), threads := s.threads[0 := Thread(0, SubmitEnqueue, None)]));
  }

  // Only job 0 of task `id`, at some phase, and its run on goroutine 1.
  ghost function FirstAt(id: string, session: Session, phase: Phase, at: Location): State {
    State(Shared(map[0 := Job(id, session, phase, false, false, NOTHING_HELD)], map[id := 0], map[id := 1], map[id := 0]),
          map[0 := Thread(0, Exited, None), 1 := Thread(0, at, None)], [], map[], CALM)
  }

  // It is queued and registered on goroutine 1.
  lemma FirstJobAdvancing(id: string, session: Session) returns (r: Run)
    ensures IsRun(r) && WellFormed(Last(r)) && Last(r) == FirstAt(id, session, WaitingCollect, Advancing)
  {
    r := FirstJobSaved(id, session);
    r := QueueAndRegister(r, 0, 1, 0, id);
    assert Last(r).threads == FirstAt(id, session, WaitingCollect, Advancing).threads;
  }

  lemma FirstMoves(r: Run, id: string, session: Session, phase: Phase, at: Location, to: Location) returns (r': Run)
    requires IsRun(r) && WellFormed(Last(r)) && Last(r) == FirstAt(id, session, phase, at) && MayMove(Last(r).shared, 0, at, to)
    ensures IsRun(r') && WellFormed(Last(r')) && Last(r') == FirstAt(id, session, phase, to) && Extends(r, r')
  {
    hide MayMove;
    r' := Go(r, 1, to);
    assert Last(r').threads == FirstAt(id, session, phase, to).threads;
  }

  lemma FirstWrites(r: Run, id: string, session: Session, phase: Phase, at: Location, p: Phase, to: Location) returns (r': Run)
    requires IsRun(r) && WellFormed(Last(r)) && Last(r) == FirstAt(id, session, phase, at)
    requires MayWritePhase(Last(r).shared, 0, at, p, false, to, false) && at != UploadBroken && at != PostFailed
    ensures IsRun(r') && WellFormed(Last(r')) && Last(r') == FirstAt(id, session, p, to) && Extends(r, r')
  {
    hide MayWritePhase, IsRun, WellFormed;
    r' := Write(r, 1, p, to);
    assert Last(r').threads == FirstAt(id, session, p, to).threads;
    assert Last(r').shared.heap == FirstAt(id, session, p, to).shared.heap;
  }

  lemma FirstJobCollecting(id: string, session: Session) returns (r: Run)
    ensures IsRun(r) && WellFormed(Last(r)) && Last(r) == FirstAt(id, session, WaitingCollect, Collecting)
  {
    r := FirstJobAdvancing(id, session);
    r := FirstWrites(r, id, session, WaitingCollect, Advancing, WaitingCollect, Switching);
    r := FirstMoves(r, id, session, WaitingCollect, Switching, Collecting);
  }

  // A submit of another session, job 1 on goroutine 2, replaces the owner of `id`, and saves.
  ghost function Replaced(s: State, id: string, owner: JobRef, job: Job): State
    requires owner in s.shared.heap
  {
    State(Shared(s.shared.heap[1 := job.(phase := WaitingCollect)][owner := s.shared.heap[owner].(phase := Failed, superseded := true)],
                 s.shared.jobs[id := 1], s.shared.cancels - {id}, s.shared.journal[id := 1]),
          s.threads[2 := Thread(1, SubmitEnqueue, None)], s.queue, s.copies, s.dogs)
  }

  lemma SecondJobSubmitted(r: Run, id: string, b: Session) returns (r': Run)
    requires IsRun(r) && WellFormed(Last(r))
    requires id in Last(r).shared.jobs && Last(r).shared.jobs[id] == 0 && 1 !in Last(r).shared.heap && 2 !in Last(r).threads
    requires !Last(r).shared.heap[0].phase.Terminal() && Last(r).shared.heap[0].session != b
    ensures IsRun(r') && WellFormed(Last(r'))
    ensures Last(r') == Replaced(Last(r), id, 0, Job(id, b, Blank, false, false, NOTHING_HELD))
  {
    var s, job := Last(r), Job(id, b, Blank, false, false, NOTHING_HELD);
    var s2 := Replaced(s, id, 0, job);
    var s1 := s2.(shared := s2.shared.(journal := s.shared.journal), threads := s.threads[2 := Thread(1, SubmitSaving, Some(SaveJournal))]);
    r' := Extend(r, Submit(1, job, 2), s1);
    hide IsRun, WellFormed, SubmitStep, SubmitLocked;
    assert s2.threads == s1.threads[2 := Thread(1, SubmitEnqueue, None)];
    r' := Extend(r', Perform(2, true), s2);
  }

  // Job 0 has been resumed on goroutine 3, whose saveJob has passed its test.
  lemma ResumeTested(id: string, a: Session) returns (r: Run)
    ensures IsRun(r) && WellFormed(Last(r)) && 3 in Last(r).threads && Last(r).threads[3] == Thread(0, ResumeSaving, Some(SaveJournal))
    ensures Last(r).shared.heap == map[0 := Job(id, a, Retrying, false, false, NOTHING_HELD)] && Last(r).shared.jobs == map[id := 0]
    ensures 1 !in Last(r).shared.heap && 2 !in Last(r).threads
  {
    r := FirstJobAdvancing(id, a);
    hide IsRun, WellFormed;
    var s := Last(r);
    var s1 := s.(shared := ResumeLocked(s.shared, 0), threads := s.threads[3 := Thread(0, ResumeSaving, None)]);
    r := Extend(r, Resume(id, 3), s1);
    var s2 := s1.(threads := s1.threads[3 := Thread(0, ResumeSaving, Some(SaveJournal))]);
    r := Extend(r, Check(3, SaveJournal), s2);
  }

  // saveJob tests and then writes outside the lock, so a replaced job can overwrite the journal of
  // its replacement.
  lemma JournalMayEndStale(id: string, a: Session, b: Session) returns (r: Run)
    requires a != b
    ensures IsRun(r)
    ensures id in Last(r).shared.jobs && id in Last(r).shared.journal
    ensures Owner(Last(r), Last(r).shared.jobs[id]) && !Owner(Last(r), Last(r).shared.journal[id])
  {
    r := ResumeTested(id, a);
    r := SecondJobSubmitted(r, id, b);
    hide IsRun, WellFormed;
    var s := Last(r);
    r := Extend(r, Perform(3, true), State(WriteJournal(s.shared, 0), s.threads[3 := Thread(0, ResumeSaving, None)], s.queue, s.copies, s.dogs));
  }

  // resume does not look for a running goroutine, so one job may be driven twice at once.
  lemma OneJobMayBeDrivenTwice(id: string, a: Session) returns (r: Run)
    ensures IsRun(r) && WellFormed(Last(r))
    ensures 1 in Last(r).threads && 3 in Last(r).threads && Last(r).threads[1] == Last(r).threads[3] == Thread(0, Advancing, None)
    ensures forall t <- Last(r).threads :: t < 4 && (t != 1 && t != 3 ==> Last(r).threads[t] == Thread(0, Exited, None))
    ensures Last(r).shared.heap == map[0 := Job(id, a, Retrying, false, false, NOTHING_HELD)] && Last(r).shared.jobs == map[id := 0] && Owner(Last(r), 0)
  {
    r := FirstJobAdvancing(id, a);
    var s := Last(r);
    r := Extend(r, Resume(id, 2), s.(shared := ResumeLocked(s.shared, 0), threads := s.threads[2 := Thread(0, ResumeSaving, None)]));
    r := QueueAndRegister(r, 2, 3, 0, id);
  }

  // The deferred delete of a stale run removes the cancel function of the new run.
  lemma StaleRunMayDropNewCancel(id: string, a: Session, b: Session) returns (r: Run)
    requires a != b
    ensures IsRun(r)
    ensures 3 in Last(r).threads && Last(r).threads[3] == Thread(1, Advancing, None) && Owner(Last(r), 1)
    ensures id !in Last(r).shared.cancels
  {
    r := FirstJobAdvancing(id, a);
    r := SecondJobSubmitted(r, id, b);
    r := QueueAndRegister(r, 2, 3, 1, id);
    r := FailAndLeave(r, 1, id);
  }

  // Goroutine t fails out of advance and has its round classified as failed, for good.
  ghost function FailedRound(s: State, t: ThreadId, at: Location): State
    requires t in s.threads && s.threads[t].job in s.shared.heap
  {
    State(SetPhase(s.shared, s.threads[t].job, Failed, false), s.threads[t := s.threads[t].(at := at)], s.queue, s.copies, s.dogs)
  }

  lemma ConcludeRound(r: Run, t: ThreadId) returns (r': Run)
    requires IsRun(r) && WellFormed(Last(r)) && Idle(Last(r), t) && Last(r).threads[t].at == Advancing && t !in Last(r).dogs.stalled
    ensures IsRun(r') && WellFormed(Last(r')) && Last(r') == FailedRound(Last(r), t, Concluded)
  {
    var failed := FailedRound(Last(r), t, Concluded);
    r' := Go(r, t, Barred);
    r' := Write(r', t, Failed, Concluded);
    assert Last(r').threads == failed.threads;
  }

  lemma FailRound(r: Run, t: ThreadId) returns (r': Run)
    requires IsRun(r) && WellFormed(Last(r)) && Idle(Last(r), t) && Last(r).threads[t].at == Advancing && t !in Last(r).dogs.stalled
    ensures IsRun(r') && WellFormed(Last(r')) && Last(r') == FailedRound(Last(r), t, Leaving)
  {
    var failed := FailedRound(Last(r), t, Leaving);
    r' := ConcludeRound(r, t);
    r' := Go(r', t, Leaving);
    assert Last(r').threads == failed.threads;
  }

  lemma FailAndLeave(r: Run, t: ThreadId, id: string) returns (r': Run)
    requires IsRun(r) && WellFormed(Last(r)) && Idle(Last(r), t) && Last(r).threads[t].at == Advancing && t !in Last(r).dogs.stalled
    requires Last(r).shared.heap[Last(r).threads[t].job].id == id
    ensures IsRun(r') && Last(r').shared.cancels == Last(r).shared.cancels - {id} && Last(r').shared.jobs == Last(r).shared.jobs
    ensures Last(r').shared.heap == SetPhase(Last(r).shared, Last(r).threads[t].job, Failed, false).heap
    ensures Last(r').threads == Last(r).threads[t := Last(r).threads[t].(at := Exited)]
  {
    r' := FailRound(r, t);
    hide IsRun, WellFormed;
    r' := CleanUp(r', t, id);
    hide Idle;
    assert Last(r').threads == Last(r).threads[t := Last(r).threads[t].(at := Exited)];
  }

  lemma CleanUp(r: Run, t: ThreadId, id: string) returns (r': Run)
    requires IsRun(r) && WellFormed(Last(r)) && Idle(Last(r), t) && Last(r).threads[t].at == Leaving
    requires Last(r).shared.heap[Last(r).threads[t].job].id == id
    ensures IsRun(r') && WellFormed(Last(r'))
    ensures Last(r') == MoveTo(Last(r), t, Exited).(shared := Last(r).shared.(cancels := Last(r).shared.cancels - {id}))
  {
    var s := Last(r);
    hide IsRun, WellFormed;
    r' := Extend(r, Leave(t), MoveTo(s, t, Exited).(shared := s.shared.(cancels := s.shared.cancels - {id})));
  }

  // ---------- Exactly when a lost job can still do harm under a test ----------

  // Some continuation of the run performs effect e on behalf of job j.
  ghost predicate MayPerformLater(r: Run, j: JobRef, e: Effect)
    requires IsRun(r)
  {
    exists r': Run, i: nat, t: ThreadId :: IsRun(r') && Extends(r, r') && |r.steps| <= i && PerformsEffect(r', i, t, j, e)
  }

  ghost predicate PerformsEffect(r: Run, i: nat, t: ThreadId, j: JobRef, e: Effect)
    requires IsRun(r)
  {
    Performs(r, i, t, j) && r.states[i].threads[t].armed == Some(e)
  }

  ghost predicate HasArmed(s: State, j: JobRef, e: Effect) {
    exists t :: t in s.threads && s.threads[t] == Thread(j, s.threads[t].at, Some(e))
  }

  lemma LaterEffectIsArmed(r: Run, j: JobRef, e: Effect, r': Run, i: nat, t: ThreadId)
    requires IsRun(r) && Lost(r, |r.steps|, j)
    requires IsRun(r') && Extends(r, r') && |r.steps| <= i && PerformsEffect(r', i, t, j, e)
    ensures HasArmed(Last(r), j, e)
  {
    assert r'.states[|r.steps|] == Last(r);
    var f := LateEffectWasTestedInTime(r', |r.steps|, i, t, j);
    assert r'.states[|r.steps|].threads[t] == r'.states[i].threads[t];
  }

  // A job that lost ownership can still send a part, ask for the merge, write the journal or delete
  // the copy if and only if one of its goroutines has passed the test for just that effect.
  lemma LostJobMayPerformLaterIff(r: Run, j: JobRef, e: Effect)
    requires IsRun(r) && Lost(r, |r.steps|, j)
    ensures MayPerformLater(r, j, e) <==> HasArmed(Last(r), j, e)
  {
    RunStatesAreWellFormed(r, |r.steps|);
    if MayPerformLater(r, j, e) {
      var r': Run, i: nat, t: ThreadId :| IsRun(r') && Extends(r, r') && |r.steps| <= i && PerformsEffect(r', i, t, j, e);
      LaterEffectIsArmed(r, j, e, r', i, t);
    }
    if HasArmed(Last(r), j, e) {
      var t :| t in Last(r).threads && Last(r).threads[t] == Thread(j, Last(r).threads[t].at, Some(e));
      var r' := Extend(r, Perform(t, true), PerformStep(Last(r), t, true).value);
      assert PerformsEffect(r', |r.steps|, t, j, e);
    }
  }

  // Step i writes the journal of its task on behalf of job j.
  ghost predicate WritesJournal(r: Run, i: nat, j: JobRef)
    requires IsRun(r)
  {
    i < |r.steps| &&
    match r.steps[i]
    case Perform(t, _) => PerformsEffect(r, i, t, j, SaveJournal)
    case LockedSave(t) => t in r.states[i].threads && r.states[i].threads[t].job == j && Owner(r.states[i], j)
    case _ => false
  }

  // Steps that change nothing under the lock, and steps that change only a job there.
  predicate KeepsShared(step: Step) {
    match step
    case Dequeue(_) | Cancel(_, _) | Enqueue(_) | Move(_, _) | Notice(_) | MarkStalled(_) | SpawnWorker(_, _) => true
    case PartFailed(_, _) | Check(_, _) | RemoveLocal(_) | AppendLocal(_) | BackOff(_, _) => true
    case _ => false
  }

  predicate WritesJob(step: Step) { step.Resume? || step.WritePhase? || step.Measure? }

  lemma SharedIsKept(s: State, step: Step)
    requires WellFormed(s) && Apply(s, step).Some? && KeepsShared(step)
    ensures Apply(s, step).value.shared == s.shared
  {
    hide MayMove, MayAttempt, OwnerIntact, AfterRefusal, WellFormed;
  }

  lemma OnlyTheHeapChanges(s: State, step: Step)
    requires WellFormed(s) && Apply(s, step).Some? && WritesJob(step)
    ensures Apply(s, step).value.shared == s.shared.(heap := Apply(s, step).value.shared.heap)
  {
    hide MayWritePhase, MayMeasure, WellFormed;
  }

  lemma OthersKeepTheJournal(s: State, step: Step)
    requires WellFormed(s) && Apply(s, step).Some? && !step.Perform? && !step.LockedSave?
    ensures Apply(s, step).value.shared.journal == s.shared.journal
  {
    hide WellFormed;
    if KeepsShared(step) {
      SharedIsKept(s, step);
    } else if WritesJob(step) {
      OnlyTheHeapChanges(s, step);
    } else {
      RegistryKeepsTheJournal(s, step);
    }
  }

  lemma RegistryKeepsTheJournal(s: State, step: Step)
    requires WellFormed(s) && Apply(s, step).Some? && (step.Submit? || step.Recover? || step.RegisterRun? || step.Leave?)
    ensures Apply(s, step).value.shared.journal == s.shared.journal
  {
    hide WellFormed, OwnerIntact;
  }

  lemma JournalChangesAreWrites(r: Run, i: nat, id: string)
    requires IsRun(r) && i < |r.steps| && id in r.states[i + 1].shared.journal
    requires id !in r.states[i].shared.journal || r.states[i].shared.journal[id] != r.states[i + 1].shared.journal[id]
    ensures WritesJournal(r, i, r.states[i + 1].shared.journal[id])
  {
    assert Linked(r, i);
    var s, step := r.states[i], r.steps[i];
    if !step.Perform? && !step.LockedSave? {
      OthersKeepTheJournal(s, step);
    } else {
      hide MayMove, MayWritePhase, MayAttempt, SubmitLocked;
    }
  }

  ghost predicate MayWriteJournalLater(r: Run, j: JobRef)
    requires IsRun(r)
  {
    exists r': Run, i: nat :: IsRun(r') && Extends(r, r') && |r.steps| <= i && WritesJournal(r', i, j)
  }

  // "Not the executor, no journal write" fails exactly by the saves that are between test and write.
  lemma LostJobMayWriteJournalIff(r: Run, j: JobRef)
    requires IsRun(r) && Lost(r, |r.steps|, j)
    ensures MayWriteJournalLater(r, j) <==> HasArmed(Last(r), j, SaveJournal)
  {
    LostJobMayPerformLaterIff(r, j, SaveJournal);
    if MayWriteJournalLater(r, j) {
      var r': Run, i: nat :| IsRun(r') && Extends(r, r') && |r.steps| <= i && WritesJournal(r', i, j);
      assert r'.states[|r.steps|] == Last(r);
      if i <= |r'.steps| {
        OwnershipIsNeverRegained(r', |r.steps|, i, j);
      }
      assert PerformsEffect(r', i, r'.steps[i].t, j, SaveJournal);
    }
    if MayPerformLater(r, j, SaveJournal) {
      var r': Run, i: nat, t: ThreadId :| IsRun(r') && Extends(r, r') && |r.steps| <= i && PerformsEffect(r', i, t, j, SaveJournal);
      assert WritesJournal(r', i, j);
    }
  }

  // ---------- The lock-held regions, in the form of the source ----------

  class DeliveryRunner {
    var heap: map<JobRef, Job>
    var jobs: map<string, JobRef>
    var cancels: map<string, ThreadId>
    var journal: map<string, JobRef>

    ghost function View(): Shared
      reads this
    {
      Shared(heap, jobs, cancels, journal)
    }

    ghost predicate Valid()
      reads this
    {
      JobsPointIntoHeap(View()) && EveryIdHasAnOwner(View())
    }

    constructor ()
      ensures Valid() && View() == Init().shared
    {
      heap, jobs, cancels, journal := map[], map[], map[], map[];
    }

    method CheckOwner(j: JobRef) returns (ok: bool)
      requires Valid() && j in heap
      ensures ok == OwnerIntact(View(), j)
      ensures ok <==> !heap[j].superseded && (heap[j].id !in jobs || jobs[heap[j].id] == j)
    {
      var job := heap[j];
      if job.superseded {
        return false;
      }
      ok := job.id !in jobs || jobs[job.id] == j;
    }

    // submit: j is the unused address of the new structure; returns the job that holds the task
    // afterwards, the job that was marked as replaced, if any, and the cancel function to call.
    method Submit(j: JobRef, submitted: Job) returns (owner: JobRef, stale: Option<JobRef>, staleCancel: Option<ThreadId>)
      requires Valid() && j !in heap && !submitted.superseded
      modifies this
      ensures Valid()
      ensures var known := old(View()).(heap := old(heap)[j := submitted.(phase := WaitingCollect)]);
              (View(), owner, staleCancel) == SubmitLocked(known, j)
      ensures OwnerIntact(View(), owner) || old(submitted.id in jobs && heap[jobs[submitted.id]].superseded)
      ensures stale.Some? ==> !OwnerIntact(View(), stale.value) && owner == j
      // a run is told exactly if its job is marked, and then it is the run registered for the task
      ensures staleCancel == if stale.Some? then CancelOf(old(View()), submitted.id) else None
      ensures stale.Some? <==> old(submitted.id in jobs && !heap[jobs[submitted.id]].phase.Terminal()
                                   && heap[jobs[submitted.id]].session != submitted.session)
      // field by field: the new structure waits, a replaced one is failed and marked, the id goes to the new
      // one unless the same session is still being delivered, and only a replacement takes the function out
      ensures owner != j <==> old(submitted.id in jobs && !heap[jobs[submitted.id]].phase.Terminal()
                                  && heap[jobs[submitted.id]].session == submitted.session)
      ensures owner != j || stale.Some? ==> old(submitted.id in jobs && jobs[submitted.id] == if stale.Some? then stale.value else owner)
      ensures heap.Keys == old(heap.Keys) + {j} && heap[j] == submitted.(phase := WaitingCollect)
      ensures forall k <- old(heap) :: heap[k] == if stale == Some(k) then old(heap)[k].(phase := Failed, superseded := true) else old(heap)[k]
      ensures jobs == if owner == j then old(jobs)[submitted.id := j] else old(jobs)
      ensures cancels == if stale.Some? then old(cancels) - {submitted.id} else old(cancels)
      ensures journal == old(journal)
    {
      heap := heap[j := submitted.(phase := WaitingCollect)];
      var id := submitted.id;
      stale, staleCancel := None, None;
      if id in jobs && !heap[jobs[id]].phase.Terminal() {
        var existing := jobs[id];
        if heap[existing].session == submitted.session {
          return existing, None, None;
        }
        heap := heap[existing := heap[existing].(phase := Failed, superseded := true)];
        stale := Some(existing);
        if id in cancels {
          staleCancel := Some(cancels[id]);
        }
        cancels := cancels - {id};
        jobs := jobs - {id};
      }
      jobs := jobs[id := j];
      owner := j;
      assert jobs == old(jobs)[id := j];
    }

    method Register(j: JobRef, t: ThreadId) returns (ok: bool)
      requires Valid() && j in heap
      modifies this`cancels
      ensures Valid()
      ensures ok == RegisterLocked(old(View()), t, j).Some?
      ensures View() == if ok then RegisterLocked(old(View()), t, j).value else old(View())
      ensures ok <==> !heap[j].superseded && (heap[j].id !in jobs || jobs[heap[j].id] == j)
      ensures cancels == if ok then old(cancels)[heap[j].id := t] else old(cancels)
    {
      if heap[j].superseded || (heap[j].id in jobs && jobs[heap[j].id] != j) {
        return false;
      }
      cancels := cancels[heap[j].id := t];
      ok := true;
    }

    method SaveJobLocked(j: JobRef)
      requires Valid() && j in heap
      modifies this`journal
      ensures Valid() && View() == SaveLocked(old(View()), j)
      ensures journal == if !heap[j].superseded && (heap[j].id !in jobs || jobs[heap[j].id] == j) then old(journal)[heap[j].id := j] else old(journal)
    {
      if heap[j].superseded || (heap[j].id in jobs && jobs[heap[j].id] != j) {
        return;
      }
      journal := journal[heap[j].id := j];
    }

    method ResumeJob(id: string) returns (found: bool)
      requires Valid()
      modifies this`heap
      ensures Valid() && found == (id in jobs)
      ensures View() == if found then ResumeLocked(old(View()), jobs[id]) else old(View())
      // the job of the id is retrying and no longer waits for credentials, and nothing else has changed
      ensures found ==> heap[jobs[id]] == old(heap)[jobs[id]].(phase := Retrying, needsReauth := false)
      ensures heap.Keys == old(heap.Keys) && forall k <- heap | !found || k != jobs[id] :: heap[k] == old(heap)[k]
    {
      if id !in jobs {
        return false;
      }
      var j := jobs[id];
      heap := heap[j := heap[j].(needsReauth := false, phase := Retrying)];
      found := true;
    }
  }
}
