/**
  A delivery from submission to the complete request, over any number of runs, retries, resumes and
  crashes, driven by one run at a time (DrivenDeliveries takes them together). The upload stage is the
  round of UploadRounds, step by step.
*/
module DeliveryCompletion {
  import opened DeliveryJobs
  import opened DeliveryPhases
  import opened Options
  import U = UploadRounds

  // Where the run stands. AtSwitch: the phase is normalized, and advance has not looked which stage it
  // means; AtSettle: behind all stages, with or without a complete request; AtFailure: advance is
  // returning an error that runJob has not handled yet.
  datatype Stage =
    | AtRest | AtSwitch | AtCollect | AtPull | BeforeUpload | AtUpload(round: U.Round) | AtComplete | AtPost
    | AtSettle(asked: bool) | AtFailure

  // `journal` is the job file on disk; `posted` lists the part numbers of every complete request;
  // `skipped` says that some run was done without one.
  datatype Life = Life(job: Facts, journal: Option<Facts>, stage: Stage, outerDone: bool, posted: seq<seq<int>>, skipped: bool)

  datatype Event =
    | StartRun
    | Switch
    | Collected(size: int)
    | PullProgress(written: nat, size: int)
    | Discard
    | Pulled(written: nat)
    | StartUpload(streams: nat)
    | Upload(step: U.Step)
    | UploadEnds(owner: bool, relaxTLS: bool)
    | AskComplete(owner: bool)
    | PostOk
    | Settle(owner: bool)
    | PostRelaxed
    | RunFails(failure: Failure, stalled: bool, partsBefore: nat, pulledBefore: nat)
    | OuterCancel
    | MarkFailed
    | Resume
    | Save
    | Crash

  // A fresh context, then normalizeDeliveryPhase.
  function StartRunEvent(s: Life): Option<Life> {
    if s.stage != AtRest then None else
    match NormalizePhase(s.job)
    case None => Some(s.(stage := AtFailure, outerDone := false))
    case Some(phase) => Some(s.(job := s.job.(phase := phase), outerDone := false, stage := AtSwitch))
  }

  // The switch of advance, on the phase as it is by then; a phase that means no stage leads behind
  // all of them.
  function SwitchEvent(s: Life): Option<Life> {
    if s.stage != AtSwitch then None else
    Some(s.(stage := match s.job.phase
                     case Blank | WaitingCollect => AtCollect
                     case Pulling => AtPull
                     case Uploading => BeforeUpload
                     case Completing => AtComplete
                     case Retrying | Done | Failed | Unknown(_) => AtSettle(false)))
  }

  // The ownership test behind all stages, and the end.
  function SettleEvent(s: Life, owner: bool): Option<Life> {
    if !s.stage.AtSettle? then None
    else if !owner then Some(s.(stage := AtFailure))
    else Some(s.(job := s.job.(phase := Done, attempt := 0), stage := AtRest, skipped := s.skipped || !s.stage.asked))
  }

  function CollectedEvent(s: Life, size: int): Option<Life> {
    if s.stage == AtCollect then Some(s.(job := s.job.(phase := Pulling, sourceSize := size), stage := AtPull)) else None
  }

  function PullProgressEvent(s: Life, written: nat, size: int): Option<Life> {
    if s.stage == AtPull then Some(s.(job := s.job.(pulled := written, sourceSize := size))) else None
  }

  function DiscardEvent(s: Life): Option<Life> {
    if s.stage == AtPull then Some(s.(job := Discarded(s.job), stage := AtFailure)) else None
  }

  function PulledEvent(s: Life, written: nat): Option<Life> {
    if s.stage == AtPull
    then Some(s.(job := s.job.(pulled := written, phase := Uploading), stage := BeforeUpload))
    else None
  }

  function Numbers(parts: seq<int>): set<int> { set p <- parts }

  function StartUploadEvent(s: Life, streams: nat): Option<Life> {
    if s.stage == BeforeUpload && s.job.partCount > 0
    then Some(s.(stage := AtUpload(U.Begin(s.job.partCount, Numbers(s.job.parts), streams, s.outerDone))))
    else None
  }

  // A step of the round; a finished part is registered in the job.
  function UploadEvent(s: Life, step: U.Step): Option<Life> {
    if !s.stage.AtUpload? || step.OuterCancel? then None else
    match U.Apply(s.stage.round, step)
    case None => None
    case Some(round) =>
      Some(s.(stage := AtUpload(round),
              job := if step.Finish? then s.job.(parts := WithPart(s.job.parts, s.stage.round.workers[step.w].part)) else s.job))
  }

  function UploadEndsEvent(s: Life, owner: bool, relaxTLS: bool): Option<Life> {
    if !s.stage.AtUpload? || !s.stage.round.Over() then None else
    var round := s.stage.round;
    var phase := if !round.Stopped() && owner then Completing else s.job.phase;
    if round.failed
    then Some(s.(job := s.job.(phase := if relaxTLS then Uploading else phase), stage := AtFailure))
    else Some(s.(job := s.job.(phase := phase), stage := AtComplete))
  }

  // The fence of complete, then the request.
  function AskCompleteEvent(s: Life, owner: bool): Option<Life> {
    if s.stage != AtComplete then None
    else if s.outerDone || !owner then Some(s.(stage := AtFailure))
    else Some(s.(stage := AtPost, posted := s.posted + [s.job.parts]))
  }

  function RunFailsEvent(s: Life, failure: Failure, stalled: bool, partsBefore: nat, pulledBefore: nat): Option<Life> {
    if s.stage.AtRest? || s.stage.AtUpload? then None
    else Some(s.(job := AfterRound(s.job, partsBefore, pulledBefore, Some(failure), stalled), stage := AtRest))
  }

  function OuterCancelEvent(s: Life): Life {
    s.(outerDone := true, stage := if s.stage.AtUpload? then AtUpload(s.stage.round.(outerDone := true)) else s.stage)
  }

  function Apply(s: Life, e: Event): Option<Life> {
    match e
    case StartRun => StartRunEvent(s)
    case Switch => SwitchEvent(s)
    case Collected(size) => CollectedEvent(s, size)
    case PullProgress(written, size) => PullProgressEvent(s, written, size)
    case Discard => DiscardEvent(s)
    case Pulled(written) => PulledEvent(s, written)
    case StartUpload(streams) => StartUploadEvent(s, streams)
    case Upload(step) => UploadEvent(s, step)
    case UploadEnds(owner, relaxTLS) => UploadEndsEvent(s, owner, relaxTLS)
    case AskComplete(owner) => AskCompleteEvent(s, owner)
    case PostOk => if s.stage == AtPost then Some(s.(stage := AtSettle(true))) else None
    case Settle(owner) => SettleEvent(s, owner)
    case PostRelaxed => if s.stage == AtPost then Some(s.(job := s.job.(phase := Completing), stage := AtFailure)) else None
    case RunFails(failure, stalled, partsBefore, pulledBefore) => RunFailsEvent(s, failure, stalled, partsBefore, pulledBefore)
    case OuterCancel => Some(OuterCancelEvent(s))
    case MarkFailed => Some(s.(job := s.job.(phase := Phase.Failed)))
    case Resume => if s.stage == AtRest then Some(s.(job := s.job.(phase := Retrying, needsReauth := false))) else None
    case Save => Some(s.(journal := Some(s.job)))
    case Crash => if s.journal.Some? then Some(s.(job := s.journal.value, stage := AtRest)) else None
  }

  // ---------- What every event keeps ----------

  ghost predicate AllParts(parts: seq<int>, count: int) {
    forall n :: 1 <= n <= count ==> n in parts
  }

  ghost predicate Completed(parts: seq<int>, count: int, posted: seq<seq<int>>) { AllParts(parts, count) && parts in posted }

  // A completing job has every part, and a done one was completed with exactly its parts, unless some
  // run skipped the request.
  ghost predicate JobIsHonest(job: Facts, count: int, posted: seq<seq<int>>, skipped: bool) {
    && job.partCount == count
    && (job.phase == Completing ==> AllParts(job.parts, count))
    && (job.phase == Done && !skipped ==> Completed(job.parts, count, posted))
  }

  // Phases the normalization leaves, or a cancel.
  predicate SwitchPhase(p: Phase) {
    p.WaitingCollect? || p.Pulling? || p.Uploading? || p.Completing? || p.Failed?
  }

  ghost predicate StageIsHonest(s: Life, count: int) {
    (s.stage.AtRest? || s.stage.AtFailure? || s.job.phase != Done) &&
    match s.stage
    case AtRest | BeforeUpload | AtFailure => true
    case AtSwitch => SwitchPhase(s.job.phase)
    case AtCollect | AtPull => s.job.phase != Completing
    case AtUpload(round) =>
      && U.Inv(round) && round.partCount == count && round.outerDone == s.outerDone
      && (forall n :: n in round.uploaded <==> n in s.job.parts)
    case AtComplete => AllParts(s.job.parts, count) || s.outerDone
    case AtPost => Completed(s.job.parts, count, s.posted)
    case AtSettle(asked) => asked ==> Completed(s.job.parts, count, s.posted)
  }

  ghost predicate Inv(s: Life, count: int) {
    && JobIsHonest(s.job, count, s.posted, s.skipped)
    && (s.journal.Some? ==> JobIsHonest(s.journal.value, count, s.posted, s.skipped))
    && StageIsHonest(s, count)
    && (forall i | 0 <= i < |s.posted| :: AllParts(s.posted[i], count))
  }

  lemma UploadKeepsInv(s: Life, step: U.Step, count: int)
    requires Inv(s, count) && UploadEvent(s, step).Some?
    ensures Inv(UploadEvent(s, step).value, count)
  {
    var round := s.stage.round;
    U.StepKeepsInv(round, step);
    if step.Finish? {
      WithPartAddsOne(s.job.parts, round.workers[step.w].part);
    }
  }

  lemma UploadEndsKeepsInv(s: Life, owner: bool, relaxTLS: bool, count: int)
    requires Inv(s, count) && UploadEndsEvent(s, owner, relaxTLS).Some?
    ensures Inv(UploadEndsEvent(s, owner, relaxTLS).value, count)
  {
    U.OverIsCompleteOrStopped(s.stage.round);
  }

  // The events before and after the upload stage that write the phase.
  lemma RunEndsKeepInv(s: Life, e: Event, count: int)
    requires Inv(s, count) && Apply(s, e).Some? && (e.StartRun? || e.Switch? || e.Settle? || e.RunFails? || e.MarkFailed? || e.Resume?)
    ensures Inv(Apply(s, e).value, count)
  {
  }

  lemma StepKeepsInv(s: Life, e: Event, count: int)
    requires Inv(s, count) && Apply(s, e).Some?
    ensures Inv(Apply(s, e).value, count)
  {
    match e
    case StartRun | Switch | Settle(_) | RunFails(_, _, _, _) | MarkFailed | Resume => RunEndsKeepInv(s, e, count);
    case StartUpload(streams) => U.BeginKeepsInv(s.job.partCount, Numbers(s.job.parts), streams, s.outerDone);
    case Upload(step) => UploadKeepsInv(s, step, count);
    case UploadEnds(owner, relaxTLS) => UploadEndsKeepsInv(s, owner, relaxTLS, count);
    case OuterCancel => if s.stage.AtUpload? && !s.outerDone { U.StepKeepsInv(s.stage.round, U.OuterCancel); }
    case _ =>
  }

  // ---------- Runs ----------

  function After(s: Life, events: seq<Event>): Option<Life>
    decreases |events|
  {
    if events == [] then Some(s)
    else match Apply(s, events[0])
      case None => None
      case Some(s') => After(s', events[1..])
  }

  lemma {:induction false} RunKeepsInv(s: Life, events: seq<Event>, count: int)
    requires Inv(s, count) && After(s, events).Some?
    ensures Inv(After(s, events).value, count)
    decreases |events|
  {
    if events != [] {
      StepKeepsInv(s, events[0], count);
      RunKeepsInv(Apply(s, events[0]).value, events[1..], count);
    }
  }

  // A job as submit registers it.
  function Submitted(job: Facts): Life {
    Life(job.(phase := WaitingCollect), None, AtRest, false, [], false)
  }

  // What a delivery may be relied on for: no complete request leaves with a part missing, a job that
  // says completing has every part (in memory and in its file), and a job that says done was
  // completed with exactly the parts it lists, unless a run skipped the request.
  ghost predicate Honest(job: Facts, journal: Option<Facts>, posted: seq<seq<int>>, skipped: bool, count: int) {
    && (forall i | 0 <= i < |posted| :: AllParts(posted[i], count))
    && (job.phase == Completing ==> AllParts(job.parts, count))
    && (journal.Some? && journal.value.phase == Completing ==> AllParts(journal.value.parts, count))
    && (job.phase == Done && !skipped ==> Completed(job.parts, count, posted))
  }

  // Over every life of a delivery that is driven by one run at a time, whatever fails, is cancelled,
  // crashes or is resumed.
  lemma LifeIsHonest(job: Facts, events: seq<Event>)
    requires After(Submitted(job), events).Some?
    ensures var s := After(Submitted(job), events).value; Honest(s.job, s.journal, s.posted, s.skipped, job.partCount)
  {
    RunKeepsInv(Submitted(job), events, job.partCount);
  }

  // When upload has returned without error and a part is missing, the fence refuses.
  lemma FenceRefusesAnIncompleteUpload(job: Facts, events: seq<Event>, owner: bool)
    requires After(Submitted(job), events).Some?
    ensures var s := After(Submitted(job), events).value;
            s.stage == AtComplete && !AllParts(s.job.parts, job.partCount) ==>
              s.outerDone && AskCompleteEvent(s, owner) == Some(s.(stage := AtFailure))
  {
    RunKeepsInv(Submitted(job), events, job.partCount);
  }

  // ---------- Nothing that was accepted is lost ----------

  // The part whose PUT comes to its end with an event.
  function FinishedNow(s: Life, e: Event): set<int> {
    if s.stage.AtUpload? && e.Upload? && e.step.Finish? && e.step.w < |s.stage.round.workers| then U.Held(s.stage.round.workers[e.step.w]) else {}
  }

  // The parts whose PUT came to its end in these events.
  function FinishedIn(s: Life, events: seq<Event>): set<int>
    decreases |events|
  {
    if events == [] then {} else
    FinishedNow(s, events[0]) +
    match Apply(s, events[0])
    case None => {}
    case Some(s') => FinishedIn(s', events[1..])
  }

  lemma OneMorePart(s: Life, e: Event, count: int)
    requires Inv(s, count) && Apply(s, e).Some? && !e.Discard? && !e.Crash?
    ensures Numbers(Apply(s, e).value.job.parts) == Numbers(s.job.parts) + FinishedNow(s, e)
  {
    if e.Upload? {
      FinishIsListed(s, e.step);
      hide UploadEvent;
    }
  }

  lemma FinishIsListed(s: Life, step: U.Step)
    requires UploadEvent(s, step).Some?
    ensures Numbers(UploadEvent(s, step).value.job.parts) == Numbers(s.job.parts) + FinishedNow(s, Upload(step))
  {
    if step.Finish? {
      NumbersWithPart(s.job.parts, s.stage.round.workers[step.w].part);
    }
    hide Numbers, WithPart;
  }

  lemma NumbersWithPart(parts: seq<int>, part: int)
    ensures Numbers(WithPart(parts, part)) == Numbers(parts) + {part}
  {
    WithPartAddsOne(parts, part);
    hide WithPart;
    forall p ensures p in Numbers(WithPart(parts, part)) <==> p in Numbers(parts) + {part} {
    }
  }

  // Over runs, retries, failures, cancels and resumes the job lists exactly the parts it had and those
  // whose PUT has finished since; only a discard or a crash takes one away.
  lemma {:induction false} PartsAreWhatFinished(s: Life, events: seq<Event>, count: int)
    requires Inv(s, count) && After(s, events).Some? && forall e <- events :: !e.Discard? && !e.Crash?
    ensures Numbers(After(s, events).value.job.parts) == Numbers(s.job.parts) + FinishedIn(s, events)
    decreases |events|
  {
    if events != [] {
      OneMorePart(s, events[0], count);
      StepKeepsInv(s, events[0], count);
      PartsAreWhatFinished(Apply(s, events[0]).value, events[1..], count);
    }
  }

  // ---------- Resumes and crashes ----------

  // A resume makes any job at rest a retrying one that waits for nothing, so its next run is not refused, and
  // keeps all it has got.
  lemma ResumeRevives(s: Life)
    requires s.stage == AtRest
    ensures Apply(s, Resume) == Some(s.(job := s.job.(phase := Retrying, needsReauth := false)))
    ensures var job := Apply(s, Resume).value.job;
            NormalizePhase(job).Some? && (!job.superseded ==> Requeues(job)) && job.parts == s.job.parts && job.pulled == s.job.pulled
  {
  }

  // A job that is over is not advanced, and its run ends like a failed round; after a request that met an
  // untrusted certificate the job shows that it is still completing until its round is classified.
  lemma RefusalsAreFailures(s: Life)
    ensures s.stage == AtRest && s.job.phase.Terminal() ==> Apply(s, StartRun) == Some(s.(stage := AtFailure, outerDone := false))
    ensures s.stage == AtPost ==> Apply(s, PostRelaxed) == Some(s.(job := s.job.(phase := Completing), stage := AtFailure))
    ensures s.stage == AtFailure ==> forall e: Failure, stalled: bool, parts: nat, pulled: nat ::
              Apply(s, RunFails(e, stalled, parts, pulled)) == Some(s.(job := AfterRound(s.job, parts, pulled, Some(e), stalled), stage := AtRest))
  {
  }

  lemma {:induction false} JournalIsKept(s: Life, events: seq<Event>)
    requires After(s, events).Some? && Save !in events
    ensures After(s, events).value.journal == s.journal
    decreases |events|
  {
    if events != [] {
      assert events[0] in events && forall e :: e in events[1..] ==> e in events;
      JournalIsKept(Apply(s, events[0]).value, events[1..]);
    }
  }

  // A crash goes back to the job as it was saved last, whatever has happened since.
  lemma CrashReturnsToTheSave(s: Life, events: seq<Event>)
    requires Save !in events && After(Apply(s, Save).value, events).Some?
    ensures var before := After(Apply(s, Save).value, events).value;
            Apply(before, Crash) == Some(before.(job := s.job, stage := AtRest))
  {
    JournalIsKept(Apply(s, Save).value, events);
  }

  // ---------- A delivery that nothing disturbs ----------

  lemma {:induction false} AfterBoth(s: Life, a: seq<Event>, b: seq<Event>)
    requires After(s, a).Some?
    ensures After(s, a + b) == After(After(s, a).value, b)
    decreases |a|
  {
    if a == [] {
      assert a + b == b;
    } else {
      assert (a + b)[1..] == a[1..] + b;
      AfterBoth(Apply(s, a[0]).value, a[1..], b);
    }
  }

  function Uploads(steps: seq<U.Step>): seq<Event>
    decreases |steps|
  {
    if steps == [] then [] else [Upload(steps[0])] + Uploads(steps[1..])
  }

  // The steps of a round, seen by the job.
  lemma {:induction false} RoundIsFollowed(s: Life, steps: seq<U.Step>, count: int)
    requires Inv(s, count) && s.stage.AtUpload? && U.After(s.stage.round, steps).Some? && forall x <- steps :: !x.OuterCancel?
    ensures After(s, Uploads(steps)).Some?
    ensures var s' := After(s, Uploads(steps)).value;
            && s'.stage == AtUpload(U.After(s.stage.round, steps).value) && Inv(s', count)
            && s' == s.(stage := s'.stage, job := s.job.(parts := s'.job.parts))
    decreases |steps|
  {
    if steps != [] {
      var e := Upload(steps[0]);
      StepKeepsInv(s, e, count);
      RoundIsFollowed(Apply(s, e).value, steps[1..], count);
      assert Uploads(steps)[1..] == Uploads(steps[1..]);
    }
  }

  // The events in front of the first upload, and those behind it.
  function UpToUpload(size: nat, streams: nat): seq<Event> {
    [StartRun, Switch, Collected(size), Pulled(size), StartUpload(streams)]
  }

  function BehindUpload(): seq<Event> { [UploadEnds(true, false), AskComplete(true), PostOk, Settle(true)] }

  // A job that is collected, pulled and uploaded by a round that is over without an error or a cancel is
  // done at the end: it has asked once, with every part it lists, and has lost none.
  lemma UndisturbedDeliveryIsDone(job: Facts, size: nat, streams: nat, steps: seq<U.Step>)
    requires job.partCount > 0 && forall x <- steps :: !x.OuterCancel? && !x.Fail?
    requires var round := U.After(U.Begin(job.partCount, Numbers(job.parts), streams, false), steps); round.Some? && round.value.Over()
    ensures After(Submitted(job), UpToUpload(size, streams) + Uploads(steps) + BehindUpload()).Some?
    ensures var s := After(Submitted(job), UpToUpload(size, streams) + Uploads(steps) + BehindUpload()).value;
            && s.job == job.(phase := Done, attempt := 0, sourceSize := size, pulled := size, parts := s.job.parts)
            && s.stage == AtRest && s.posted == [s.job.parts] && !s.skipped
            && AllParts(s.job.parts, job.partCount) && Numbers(job.parts) <= Numbers(s.job.parts)
  {
    var start := U.Begin(job.partCount, Numbers(job.parts), streams, false);
    var s0 := Life(job.(phase := Uploading, sourceSize := size, pulled := size), None, AtUpload(start), false, [], false);
    ReachesUpload(job, size, streams);
    U.BeginKeepsInv(job.partCount, Numbers(job.parts), streams, false);
    RoundIsFollowed(s0, steps, job.partCount);
    U.RoundIsCompleteOrStopped(job.partCount, Numbers(job.parts), streams, false, steps);
    U.ReasonsAreRecorded(start, steps);
    var s1 := After(s0, Uploads(steps)).value;
    RoundListsItsParts(s1, job.partCount);
    EndsDone(s1, job.partCount);
    hide After, Inv, U.After, U.Begin, Numbers, U.Inv;
    AfterBoth(Submitted(job), UpToUpload(size, streams), Uploads(steps));
    AfterBoth(Submitted(job), UpToUpload(size, streams) + Uploads(steps), BehindUpload());
  }

  lemma RoundListsItsParts(s: Life, count: int)
    requires Inv(s, count) && s.stage.AtUpload?
    ensures Numbers(s.job.parts) == s.stage.round.uploaded && (s.stage.round.Complete() ==> AllParts(s.job.parts, count))
  {
    assert forall n :: n in Numbers(s.job.parts) <==> n in s.stage.round.uploaded;
  }

  lemma ReachesUpload(job: Facts, size: nat, streams: nat)
    requires job.partCount > 0
    ensures After(Submitted(job), UpToUpload(size, streams)) ==
              Some(Life(job.(phase := Uploading, sourceSize := size, pulled := size), None,
                        AtUpload(U.Begin(job.partCount, Numbers(job.parts), streams, false)), false, [], false))
  {
    var s := Submitted(job);
    var s1 := s.(stage := AtSwitch);
    var s2 := s1.(stage := AtCollect);
    var s3 := s2.(job := s2.job.(phase := Pulling, sourceSize := size), stage := AtPull);
    var s4 := s3.(job := s3.job.(pulled := size, phase := Uploading), stage := BeforeUpload);
    var s5 := s4.(stage := AtUpload(U.Begin(job.partCount, Numbers(job.parts), streams, false)));
    FiveEvents(s, UpToUpload(size, streams), s1, s2, s3, s4, s5);
  }

  lemma FiveEvents(s: Life, e: seq<Event>, s1: Life, s2: Life, s3: Life, s4: Life, s5: Life)
    requires |e| == 5 && Apply(s, e[0]) == Some(s1) && Apply(s1, e[1]) == Some(s2) && Apply(s2, e[2]) == Some(s3)
    requires Apply(s3, e[3]) == Some(s4) && Apply(s4, e[4]) == Some(s5)
    ensures After(s, e) == Some(s5)
  {
    hide Apply;
    assert After(s5, e[1..][1..][1..][1..][1..]) == Some(s5);
    assert After(s4, e[1..][1..][1..][1..]) == Some(s5);
    assert After(s3, e[1..][1..][1..]) == Some(s5);
    assert After(s2, e[1..][1..]) == Some(s5);
    assert After(s1, e[1..]) == Some(s5);
  }

  lemma EndsDone(s: Life, count: int)
    requires s.stage.AtUpload? && s.stage.round.Over() && !s.stage.round.Stopped() && !s.stage.round.failed && !s.outerDone && s.job.phase == Uploading
    ensures After(s, BehindUpload()) ==
              Some(s.(job := s.job.(phase := Done, attempt := 0), stage := AtRest, posted := s.posted + [s.job.parts]))
  {
    var e := BehindUpload();
    var s1 := s.(job := s.job.(phase := Completing), stage := AtComplete);
    var s2 := s1.(stage := AtPost, posted := s.posted + [s.job.parts]);
    var s3 := s2.(stage := AtSettle(true));
    var s4 := s3.(job := s3.job.(phase := Done, attempt := 0), stage := AtRest);
    assert Apply(s, e[0]) == Some(s1) && Apply(s1, e[1]) == Some(s2) && Apply(s2, e[2]) == Some(s3) && Apply(s3, e[3]) == Some(s4);
    hide Apply;
    assert After(s4, e[1..][1..][1..][1..]) == Some(s4);
    assert After(s3, e[1..][1..][1..]) == Some(s4);
    assert After(s2, e[1..][1..]) == Some(s4);
    assert After(s1, e[1..]) == Some(s4);
  }

  // ---------- The request that is skipped ----------

  // A run gets behind all stages without asking if and only if its job was cancelled between the
  // normalization and the switch.
  lemma SwitchSkipsIff(job: Facts, events: seq<Event>)
    requires After(Submitted(job), events).Some? && After(Submitted(job), events).value.stage == AtSwitch
    ensures var s := After(Submitted(job), events).value;
            SwitchEvent(s) == Some(s.(stage := AtSettle(false))) <==> s.job.phase == Failed
  {
    RunKeepsInv(Submitted(job), events, job.partCount);
  }

  // Such a job is cancelled by its user and ends as done, with whatever parts it has.
  lemma CancelAtTheSwitchEndsDone(s: Life)
    requires s.stage == AtSwitch
    ensures var cancelled := s.(job := s.job.(phase := Failed));
            var behind := cancelled.(stage := AtSettle(false));
            && Apply(s, MarkFailed) == Some(cancelled)
            && Apply(cancelled, Switch) == Some(behind)
            && Apply(behind, Settle(true)) == Some(s.(job := s.job.(phase := Done, attempt := 0), stage := AtRest, skipped := true))
  {
  }

  // No cancel between the normalization and the switch of a run.
  predicate NotCancelledAtSwitch(s: Life, events: seq<Event>)
    decreases |events|
  {
    events == [] ||
    (!(s.stage == AtSwitch && events[0] == MarkFailed) &&
     (Apply(s, events[0]).Some? ==> NotCancelledAtSwitch(Apply(s, events[0]).value, events[1..])))
  }

  predicate NothingSkipped(s: Life) {
    && !s.skipped && (s.stage.AtSettle? ==> s.stage.asked)
    && (s.stage == AtSwitch ==> SwitchPhase(s.job.phase) && !s.job.phase.Failed?)
  }

  // And only so: without such a cancel nothing is skipped, and done means completed.
  lemma {:induction false} SkippingNeedsACancel(s: Life, events: seq<Event>)
    requires NothingSkipped(s) && NotCancelledAtSwitch(s, events) && After(s, events).Some?
    ensures NothingSkipped(After(s, events).value)
    decreases |events|
  {
    if events != [] {
      SkippingNeedsACancel(Apply(s, events[0]).value, events[1..]);
    }
  }
}
