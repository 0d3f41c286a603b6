/**
  A delivery with any number of runs on it at once, each of them as DeliveryCompletion has it, and the
  exact condition of DeliveryDrivers for there being only one.
*/
module DrivenDeliveries {
  import opened DeliveryCompletion
  import opened DeliveryJobs
  import opened DeliveryPhases
  import opened Options
  import D = DeliveryDrivers
  import F = DeliveryFencing
  import S = DeliverySteps
  import U = UploadRounds

  datatype Driver = Driver(stage: Stage, outerDone: bool)

  // Every goroutine that runs the job has its own stage and context; the rest is shared.
  datatype Delivery = Delivery(
    job: Facts,
    journal: Option<Facts>,
    drivers: map<F.ThreadId, Driver>,
    posted: seq<seq<int>>,
    skipped: bool)

  // An event at the hand of goroutine d, or the end of the process and its restart.
  datatype Act = By(d: F.ThreadId, e: Event) | Restart

  // The delivery as goroutine d sees it.
  function View(s: Delivery, d: F.ThreadId): Life {
    if d in s.drivers then Life(s.job, s.journal, s.drivers[d].stage, s.drivers[d].outerDone, s.posted, s.skipped)
    else Life(s.job, s.journal, AtRest, false, s.posted, s.skipped)
  }

  function Merged(s: Delivery, d: F.ThreadId, l: Life): Delivery {
    Delivery(l.job, l.journal, if l.stage == AtRest then s.drivers - {d} else s.drivers[d := Driver(l.stage, l.outerDone)], l.posted, l.skipped)
  }

  function Perform(s: Delivery, a: Act): Option<Delivery> {
    match a
    case By(d, e) =>
      if e == Crash then None else
      (match Apply(View(s, d), e)
       case Some(l) => Some(Merged(s, d, l))
       case None => None)
    case Restart => if s.journal.Some? then Some(s.(job := s.journal.value, drivers := map[])) else None
  }

  function Performed(s: Delivery, acts: seq<Act>): Option<Delivery>
    decreases |acts|
  {
    if acts == [] then Some(s)
    else match Perform(s, acts[0])
      case None => None
      case Some(s') => Performed(s', acts[1..])
  }

  function Begun(job: Facts): Delivery {
    Delivery(job.(phase := WaitingCollect), None, map[], [], false)
  }

  // Runs start and resumes come while nobody runs the job.
  predicate Alone(s: Delivery, a: Act) {
    a.By? && (a.e == StartRun || a.e == Resume) ==> s.drivers == map[]
  }

  predicate AlwaysAlone(s: Delivery, acts: seq<Act>)
    decreases |acts|
  {
    acts == [] || (Alone(s, acts[0]) && (Perform(s, acts[0]).Some? ==> AlwaysAlone(Perform(s, acts[0]).value, acts[1..])))
  }

  // ---------- One run at a time ----------

  // The invariant of DeliveryCompletion from every point of view, and at most one run.
  ghost predicate Single(s: Delivery, count: int) {
    && (forall d :: Inv(View(s, d), count))
    && (forall d, d' | d in s.drivers && d' in s.drivers :: d == d')
    && (forall d <- s.drivers :: s.drivers[d].stage != AtRest)
  }

  // Events of a goroutine that does not run the job are the same from the point of view of the run.
  lemma BystanderIsSeen(s: Delivery, d: F.ThreadId, e: Event, x: F.ThreadId)
    requires d !in s.drivers && x in s.drivers && Perform(s, By(d, e)).Some? && e != StartRun && e != Resume
    ensures var s' := Perform(s, By(d, e)).value;
            View(s', x) == View(s, x) || (e in {MarkFailed, Save} && Apply(View(s, x), e) == Some(View(s', x)))
  {
  }

  lemma RunIsSeen(s: Delivery, d: F.ThreadId, e: Event, x: F.ThreadId, count: int)
    requires Single(s, count) && Perform(s, By(d, e)).Some? && (d in s.drivers || s.drivers == map[])
    ensures Inv(View(Perform(s, By(d, e)).value, x), count)
  {
    var s' := Perform(s, By(d, e)).value;
    var l := Apply(View(s, d), e).value;
    StepKeepsInv(View(s, d), e, count);
    hide DeliveryCompletion.Apply;
    if x != d {
      assert x !in s'.drivers;
    }
  }

  lemma ActKeepsSingle(s: Delivery, a: Act, count: int)
    requires Single(s, count) && Alone(s, a) && Perform(s, a).Some?
    ensures Single(Perform(s, a).value, count)
  {
    var s' := Perform(s, a).value;
    forall x ensures Inv(View(s', x), count) {
      match a
      case By(d, e) =>
        if d in s.drivers || s.drivers == map[] {
          RunIsSeen(s, d, e, x, count);
        } else {
          OthersSeeTheBystander(s, d, e, x, count);
        }
      case Restart => assert Inv(View(s, x), count);
    }
  }

  lemma OthersSeeTheBystander(s: Delivery, d: F.ThreadId, e: Event, x: F.ThreadId, count: int)
    requires Single(s, count) && Perform(s, By(d, e)).Some? && d !in s.drivers && e != StartRun && e != Resume
    ensures Inv(View(Perform(s, By(d, e)).value, x), count)
  {
    if x in s.drivers {
      BystanderIsSeen(s, d, e, x);
      if e == MarkFailed || e == Save {
        StepKeepsInv(View(s, x), e, count);
      }
    } else {
      StepKeepsInv(View(s, x), e, count);
    }
  }

  lemma {:induction false} ActsKeepSingle(s: Delivery, acts: seq<Act>, count: int)
    requires Single(s, count) && AlwaysAlone(s, acts) && Performed(s, acts).Some?
    ensures Single(Performed(s, acts).value, count)
    decreases |acts|
  {
    if acts != [] {
      ActKeepsSingle(s, acts[0], count);
      ActsKeepSingle(Perform(s, acts[0]).value, acts[1..], count);
    }
  }

  lemma AloneIsHonest(job: Facts, acts: seq<Act>)
    requires Performed(Begun(job), acts).Some? && AlwaysAlone(Begun(job), acts)
    ensures var s := Performed(Begun(job), acts).value; Honest(s.job, s.journal, s.posted, s.skipped, job.partCount)
  {
    ActsKeepSingle(Begun(job), acts, job.partCount);
    var s := Performed(Begun(job), acts).value;
    assert Inv(View(s, 0), job.partCount);
  }

  // ---------- When there is one run at a time ----------

  // A point in a run of the delivery runner, and the job there that the delivery is about. After a
  // restart of the process it is another run.
  datatype Moment = Moment(run: F.Run, time: nat, job: F.JobRef)

  // The runner lets the act happen at that point: whoever runs the job in the delivery drives it in the
  // runner, a run that starts is one of those, and a resume is a resume there; and all resumes there
  // are taken while nobody drives the job.
  ghost predicate Scheduled(s: Delivery, a: Act, m: Moment) {
    && F.IsRun(m.run) && m.time <= |m.run.steps| && D.ResumesWhenFree(m.run, |m.run.steps|, m.job)
    && s.drivers.Keys <= D.HoldersOf(m.run.states[m.time], m.job)
    && (a.By? && a.e == StartRun ==> a.d in D.HoldersOf(m.run.states[m.time], m.job))
    && (a.By? && a.e == Resume ==> D.Resumes(m.run, m.time, m.job))
  }

  ghost predicate Follows(s: Delivery, acts: seq<Act>, moments: seq<Moment>)
    requires |acts| == |moments|
    decreases |acts|
  {
    acts == [] ||
    (Scheduled(s, acts[0], moments[0]) &&
     (Perform(s, acts[0]).Some? ==> Follows(Perform(s, acts[0]).value, acts[1..], moments[1..])))
  }

  lemma ScheduledIsAlone(s: Delivery, a: Act, m: Moment, count: int)
    requires Single(s, count) && Scheduled(s, a, m) && Perform(s, a).Some?
    ensures Alone(s, a)
  {
    if a.By? && a.e == StartRun && s.drivers != map[] {
      var x :| x in s.drivers;
      assert x in s.drivers.Keys;
      D.OneGoroutineDrives(m.run, m.time, a.d, x, m.job);
    } else if a.By? && a.e == Resume {
      assert D.Tokens(m.run.states[m.time], m.job) == 0;
      assert s.drivers.Keys == {};
    }
  }

  lemma {:induction false} FollowingIsAlone(s: Delivery, acts: seq<Act>, moments: seq<Moment>, count: int)
    requires |acts| == |moments| && Single(s, count) && Follows(s, acts, moments) && Performed(s, acts).Some?
    ensures AlwaysAlone(s, acts)
    decreases |acts|
  {
    if acts != [] {
      ScheduledIsAlone(s, acts[0], moments[0], count);
      ActKeepsSingle(s, acts[0], count);
      FollowingIsAlone(Perform(s, acts[0]).value, acts[1..], moments[1..], count);
    }
  }

  // Over every life of a delivery with any number of goroutines, whatever fails, is cancelled, crashes or
  // is resumed, as long as every resume is taken while nobody drives the job, which
  // DeliveryDrivers.AtMostOneDriverIff shows to be the exact condition for one driver at a time.
  lemma CompleteIsNeverAskedWithAPartMissing(job: Facts, acts: seq<Act>, moments: seq<Moment>)
    requires |acts| == |moments| && Follows(Begun(job), acts, moments) && Performed(Begun(job), acts).Some?
    ensures var s := Performed(Begun(job), acts).value; Honest(s.job, s.journal, s.posted, s.skipped, job.partCount)
  {
    FollowingIsAlone(Begun(job), acts, moments, job.partCount);
    AloneIsHonest(job, acts);
  }

  // ---------- Why it takes one run at a time ----------

  lemma {:induction false} Then(s0: Delivery, acts: seq<Act>, a: Act, s: Delivery) returns (longer: seq<Act>)
    requires Performed(s0, acts).Some? && Perform(Performed(s0, acts).value, a).Some?
    requires var s' := Perform(Performed(s0, acts).value, a).value;
             s'.drivers == s.drivers && s'.(drivers := s.drivers) == s
    ensures longer == acts + [a] && Performed(s0, longer) == Some(s)
    decreases |acts|
  {
    longer := acts + [a];
    if acts != [] {
      var rest := Then(Perform(s0, acts[0]).value, acts[1..], a, s);
      assert longer[1..] == rest;
    } else {
      assert longer[1..] == [];
    }
  }

  // A job of one part, which its submission says is there already.
  const ONE_PART := Facts(WaitingCollect, 0, 0, 1, [1], 0, false, false)

  function Of(job: Facts, stage: Stage): Life { Life(job, None, stage, false, [], false) }

  // The delivery with goroutine 1 at one stage, and goroutine 2 at another or not there.
  function Beside(job: Facts, first: Stage, second: Stage): Delivery {
    Delivery(job, None, if second == AtRest then map[1 := Driver(first, false)] else map[1 := Driver(first, false), 2 := Driver(second, false)], [], false)
  }

  ghost predicate Comes(acts: seq<Act>, job: Facts, first: Stage, second: Stage) {
    Performed(Begun(ONE_PART), acts) == Some(Beside(job, first, second))
  }

  // One of the two goes on.
  lemma OneGoesOn(acts: seq<Act>, job: Facts, first: Stage, second: Stage, d: F.ThreadId, e: Event, job': Facts, stage: Stage) returns (longer: seq<Act>)
    requires Comes(acts, job, first, second) && (d == 1 || d == 2) && first != AtRest && e != Crash
    requires Apply(Of(job, if d == 1 then first else second), e) == Some(Of(job', stage)) && (d == 1 ==> stage != AtRest)
    ensures Comes(longer, job', if d == 1 then stage else first, if d == 1 then second else stage)
  {
    hide DeliveryCompletion.Apply;
    longer := Then(Begun(ONE_PART), acts, By(d, e), Beside(job', if d == 1 then stage else first, if d == 1 then second else stage));
  }

  lemma FirstPulls() returns (acts: seq<Act>)
    ensures Comes(acts, ONE_PART.(phase := Pulling, sourceSize := 1), AtPull, AtRest)
  {
    acts := Then(Begun(ONE_PART), [], By(1, StartRun), Beside(ONE_PART, AtSwitch, AtRest));
    hide Comes, Performed;
    acts := OneGoesOn(acts, ONE_PART, AtSwitch, AtRest, 1, Switch, ONE_PART, AtCollect);
    acts := OneGoesOn(acts, ONE_PART, AtCollect, AtRest, 1, Collected(1), ONE_PART.(phase := Pulling, sourceSize := 1), AtPull);
  }

  // Goroutine 1 is pulling when the job is resumed, and goroutine 2 goes on to upload.
  lemma ResumedWhilePulling() returns (acts: seq<Act>)
    ensures Comes(acts, ONE_PART.(phase := Uploading, sourceSize := 1), AtPull, BeforeUpload)
  {
    acts := FirstPulls();
    hide Comes, Performed;
    var job := ONE_PART.(phase := Pulling, sourceSize := 1);
    acts := OneGoesOn(acts, job, AtPull, AtRest, 2, Resume, job.(phase := Retrying), AtRest);
    var up := job.(phase := Uploading);
    acts := OneGoesOn(acts, job.(phase := Retrying), AtPull, AtRest, 2, StartRun, up, AtSwitch);
    acts := OneGoesOn(acts, up, AtPull, AtSwitch, 2, Switch, up, BeforeUpload);
  }

  // A round over the only part, which is there.
  function Idling(next: int, sender: U.Sender, worker: U.Worker): U.Round {
    U.Round(1, {1}, {1}, next, sender, [worker], false, false, false)
  }

  lemma RoundIsOver(before: seq<Act>, job: Facts) returns (acts: seq<Act>)
    requires Comes(before, job, AtPull, BeforeUpload) && job.parts == [1] && job.partCount == 1
    ensures Comes(acts, job, AtPull, AtUpload(Idling(2, U.Closed, U.Quit)))
  {
    hide Comes, Performed;
    assert Numbers([1]) == {1} && U.Begin(1, {1}, 1, false) == Idling(1, U.Offering, U.Idle);
    acts := OneGoesOn(before, job, AtPull, BeforeUpload, 2, StartUpload(1), job, AtUpload(Idling(1, U.Offering, U.Idle)));
    acts := OneGoesOn(acts, job, AtPull, AtUpload(Idling(1, U.Offering, U.Idle)), 2, Upload(U.Skip), job, AtUpload(Idling(2, U.Offering, U.Idle)));
    acts := OneGoesOn(acts, job, AtPull, AtUpload(Idling(2, U.Offering, U.Idle)), 2, Upload(U.Close), job, AtUpload(Idling(2, U.Closed, U.Idle)));
    assert [U.Idle][0 := U.Quit] == [U.Quit];
    acts := OneGoesOn(acts, job, AtPull, AtUpload(Idling(2, U.Closed, U.Idle)), 2, Upload(U.Leave(0)), job, AtUpload(Idling(2, U.Closed, U.Quit)));
  }

  // Goroutine 2 has nothing to send and comes to the request, and goroutine 1 discards the copy, and with
  // it the part list.
  lemma DiscardedBeforeTheRequest() returns (acts: seq<Act>)
    ensures Comes(acts, Discarded(ONE_PART.(phase := Completing, sourceSize := 1)), AtFailure, AtComplete)
  {
    var up, job := ONE_PART.(phase := Uploading, sourceSize := 1), ONE_PART.(phase := Completing, sourceSize := 1);
    acts := ResumedWhilePulling();
    acts := RoundIsOver(acts, up);
    hide Comes, Performed;
    acts := OneGoesOn(acts, up, AtPull, AtUpload(Idling(2, U.Closed, U.Quit)), 2, UploadEnds(true, false), job, AtComplete);
    acts := OneGoesOn(acts, job, AtPull, AtComplete, 1, Discard, Discarded(job), AtFailure);
  }

  // Driven twice, a delivery asks for the merge of parts it no longer has.
  lemma TwoRunsMayAskWithAPartMissing() returns (acts: seq<Act>)
    ensures Performed(Begun(ONE_PART), acts).Some? && Performed(Begun(ONE_PART), acts).value.posted == [[]]
    ensures !AllParts([], ONE_PART.partCount)
  {
    acts := DiscardedBeforeTheRequest();
    hide Performed;
    var job := Discarded(ONE_PART.(phase := Completing, sourceSize := 1));
    acts := Then(Begun(ONE_PART), acts, By(2, AskComplete(true)), Beside(job, AtFailure, AtPost).(posted := [[]]));
    var none: seq<int> := [];
    assert 1 !in none && !AllParts(none, 1);
  }
}
