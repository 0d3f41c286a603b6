/**
  One round of upload: a dispatcher hands part numbers over an unbuffered channel to a fixed group
  of workers, which share one cancelable context derived from the run's own context.

  A state is taken apart at every point where another goroutine may run in between.
*/
module UploadRounds {
  import opened Options
  import opened Sums

  // Idle waits on the channel, Got has received a number, Sending is inside uploadOnePart, Failing
  // has recorded its error and not yet called cancel.
  datatype Worker = Idle | Got(part: int) | Sending(part: int) | Failing(part: int) | Quit

  // Offering stands at the loop head or in the select, Checking after the select, Closed after
  // close(pending).
  datatype Sender = Offering | Checking | Closed

  datatype Round = Round(
    partCount: int,
    already: set<int>,
    uploaded: set<int>,
    next: int,
    sender: Sender,
    workers: seq<Worker>,
    failed: bool,
    cancelled: bool,
    outerDone: bool)
  {
    // ctx.Err() != nil for the round's own context.
    predicate Stopped() { cancelled || outerDone }

    // wg.Wait has returned.
    predicate Over() { sender == Closed && forall w | 0 <= w < |workers| :: workers[w] == Quit }

    ghost predicate Complete() { forall n :: 1 <= n <= partCount ==> n in uploaded }
  }

  datatype Step =
    | Skip | Hand(w: nat) | GiveUp | Check | Close
    | Start(w: nat) | Finish(w: nat) | Fail(w: nat) | CancelAll(w: nat) | Leave(w: nat)
    | OuterCancel

  function Begin(partCount: int, parts: set<int>, streams: nat, outerDone: bool): Round {
    Round(partCount, parts, parts, 1, Offering, seq(streams, i => Idle), false, false, outerDone)
  }

  // ---------- The dispatcher ----------

  predicate Offers(r: Round) { r.sender == Offering && r.next <= r.partCount && r.next !in r.already }

  function SkipStep(r: Round): Option<Round> {
    if r.sender == Offering && r.next <= r.partCount && r.next in r.already then Some(r.(next := r.next + 1)) else None
  }

  function HandStep(r: Round, w: nat): Option<Round> {
    if Offers(r) && w < |r.workers| && r.workers[w] == Idle
    then Some(r.(workers := r.workers[w := Got(r.next)], sender := Checking))
    else None
  }

  // The select takes the ctx.Done branch; its break leaves only the select.
  function GiveUpStep(r: Round): Option<Round> {
    if Offers(r) && r.Stopped() then Some(r.(sender := Checking)) else None
  }

  function CheckStep(r: Round): Option<Round> {
    if r.sender != Checking then None
    else if r.Stopped() then Some(r.(sender := Closed))
    else Some(r.(sender := Offering, next := r.next + 1))
  }

  function CloseStep(r: Round): Option<Round> {
    if r.sender == Offering && r.next > r.partCount then Some(r.(sender := Closed)) else None
  }

  // ---------- A worker ----------

  function StartStep(r: Round, w: nat): Option<Round> {
    if w < |r.workers| && r.workers[w].Got?
    then Some(r.(workers := r.workers[w := if r.Stopped() then Quit else Sending(r.workers[w].part)]))
    else None
  }

  function FinishStep(r: Round, w: nat): Option<Round> {
    if w < |r.workers| && r.workers[w].Sending?
    then Some(r.(workers := r.workers[w := Idle], uploaded := r.uploaded + {r.workers[w].part}))
    else None
  }

  function FailStep(r: Round, w: nat): Option<Round> {
    if w < |r.workers| && r.workers[w].Sending?
    then Some(r.(workers := r.workers[w := Failing(r.workers[w].part)], failed := true))
    else None
  }

  function CancelAllStep(r: Round, w: nat): Option<Round> {
    if w < |r.workers| && r.workers[w].Failing?
    then Some(r.(workers := r.workers[w := Quit], cancelled := true))
    else None
  }

  function LeaveStep(r: Round, w: nat): Option<Round> {
    if w < |r.workers| && r.workers[w] == Idle && r.sender == Closed
    then Some(r.(workers := r.workers[w := Quit]))
    else None
  }

  function Apply(r: Round, step: Step): Option<Round> {
    match step
    case Skip => SkipStep(r)
    case Hand(w) => HandStep(r, w)
    case GiveUp => GiveUpStep(r)
    case Check => CheckStep(r)
    case Close => CloseStep(r)
    case Start(w) => StartStep(r, w)
    case Finish(w) => FinishStep(r, w)
    case Fail(w) => FailStep(r, w)
    case CancelAll(w) => CancelAllStep(r, w)
    case Leave(w) => LeaveStep(r, w)
    case OuterCancel => if r.outerDone then None else Some(r.(outerDone := true))
  }

  // ---------- What every step keeps ----------

  predicate Holds(w: Worker, n: int) { (w.Got? || w.Sending? || w.Failing?) && w.part == n }

  ghost predicate HeldBySome(r: Round, n: int) {
    exists w :: 0 <= w < |r.workers| && Holds(r.workers[w], n)
  }

  // Numbers from here on have not been offered to a worker yet.
  function Reached(r: Round): int { if r.sender == Offering then r.next else r.next + 1 }

  ghost predicate NothingIsLost(r: Round) {
    forall n :: 1 <= n < Reached(r) && n <= r.partCount && !r.Stopped() ==> n in r.uploaded || HeldBySome(r, n)
  }

  ghost predicate HeldPartsAreNew(r: Round) {
    forall w | 0 <= w < |r.workers| && !r.workers[w].Idle? && !r.workers[w].Quit? ::
      1 <= r.workers[w].part < Reached(r) && r.workers[w].part <= r.partCount && r.workers[w].part !in r.uploaded
  }

  // No part is in the hands of two workers.
  ghost predicate HeldOnce(r: Round) {
    forall v, w | 0 <= v < w < |r.workers| && !r.workers[v].Idle? && !r.workers[v].Quit? ::
      !Holds(r.workers[w], r.workers[v].part)
  }

  ghost predicate ErrorsCancel(r: Round) {
    r.failed <==> r.cancelled || exists w :: 0 <= w < |r.workers| && r.workers[w].Failing?
  }

  ghost predicate EndsForAReason(r: Round) {
    && (r.sender == Closed ==> r.Stopped() || r.next > r.partCount)
    && (forall w | 0 <= w < |r.workers| && r.workers[w] == Quit :: r.Stopped() || r.sender == Closed)
  }

  ghost predicate UploadedIsKnown(r: Round) {
    && r.next >= 1 && r.already <= r.uploaded
    && (forall n <- r.uploaded :: n in r.already || 1 <= n < Reached(r))
    && (forall n <- r.uploaded :: n in r.already || n <= r.partCount)
    && (r.sender == Checking ==> r.next <= r.partCount)
  }

  ghost predicate Inv(r: Round) {
    && UploadedIsKnown(r) && NothingIsLost(r) && HeldPartsAreNew(r) && HeldOnce(r) && ErrorsCancel(r) && EndsForAReason(r)
  }

  lemma BeginKeepsInv(partCount: int, parts: set<int>, streams: nat, outerDone: bool)
    ensures Inv(Begin(partCount, parts, streams, outerDone))
  {
  }

  // Moving worker w between states that hold the same part, or from holding n to not holding it,
  // leaves every other part in the same hands.
  lemma OthersKeepTheirParts(r: Round, w: nat, to: Worker, n: int)
    requires w < |r.workers| && HeldBySome(r, n) && (Holds(r.workers[w], n) ==> Holds(to, n))
    ensures HeldBySome(r.(workers := r.workers[w := to]), n)
  {
    var v :| 0 <= v < |r.workers| && Holds(r.workers[v], n);
    assert Holds(r.workers[w := to][v], n);
  }

  lemma DispatchKeepsInv(r: Round, step: Step)
    requires Inv(r) && (step.Skip? || step.GiveUp? || step.Check? || step.Close? || step.OuterCancel?)
    requires Apply(r, step).Some?
    ensures Inv(Apply(r, step).value)
  {
    var r' := Apply(r, step).value;
    assert r'.workers == r.workers;
    forall n | 1 <= n < Reached(r') && n <= r.partCount && !r'.Stopped() ensures n in r'.uploaded || HeldBySome(r', n) {
      if n < Reached(r) && n !in r.uploaded {
        assert HeldBySome(r, n);
        var v :| 0 <= v < |r.workers| && Holds(r.workers[v], n);
        assert Holds(r'.workers[v], n);
      }
    }
  }

  lemma HandKeepsInv(r: Round, w: nat)
    requires Inv(r) && HandStep(r, w).Some?
    ensures Inv(HandStep(r, w).value)
  {
    var r' := HandStep(r, w).value;
    forall n | 1 <= n < Reached(r') && n <= r.partCount && !r'.Stopped() ensures n in r'.uploaded || HeldBySome(r', n) {
      if n == r.next {
        assert Holds(r'.workers[w], n);
      } else if n !in r.uploaded {
        OthersKeepTheirParts(r, w, Got(r.next), n);
      }
    }
    FailingStays(r, r', w);
  }

  lemma FailingStays(r: Round, r': Round, w: nat)
    requires w < |r.workers| && |r'.workers| == |r.workers| && !r.workers[w].Failing?
    requires forall v | 0 <= v < |r.workers| && v != w :: r'.workers[v] == r.workers[v]
    requires ErrorsCancel(r)
    ensures r.failed && !r.cancelled ==> exists v :: 0 <= v < |r'.workers| && r'.workers[v].Failing?
    ensures r'.failed == r.failed && r'.cancelled == r.cancelled && !r'.workers[w].Failing? ==> ErrorsCancel(r')
  {
    assert forall v | 0 <= v < |r.workers| && r'.workers[v].Failing? && !r'.workers[w].Failing? :: r.workers[v].Failing?;
    if r.failed && !r.cancelled {
      var v :| 0 <= v < |r.workers| && r.workers[v].Failing?;
      assert r'.workers[v].Failing?;
    }
  }

  // NothingIsLost after worker w moved on, provided its own part is settled.
  lemma KeptWhereHeld(r: Round, r': Round, w: nat)
    requires NothingIsLost(r) && w < |r.workers|
    requires |r'.workers| == |r.workers| && r'.workers == r.workers[w := r'.workers[w]]
    requires r'.partCount == r.partCount && Reached(r') == Reached(r) && r.uploaded <= r'.uploaded
    requires r.Stopped() ==> r'.Stopped()
    requires forall n | Holds(r.workers[w], n) && !r'.Stopped() :: Holds(r'.workers[w], n) || n in r'.uploaded
    ensures NothingIsLost(r')
  {
    forall n | 1 <= n < Reached(r') && n <= r.partCount && !r'.Stopped() ensures n in r'.uploaded || HeldBySome(r', n) {
      if n !in r'.uploaded {
        var v :| 0 <= v < |r.workers| && Holds(r.workers[v], n);
        assert Holds(r'.workers[v], n);
      }
    }
  }

  lemma StartKeepsInv(r: Round, w: nat)
    requires Inv(r) && StartStep(r, w).Some?
    ensures Inv(StartStep(r, w).value)
  {
    var r' := StartStep(r, w).value;
    KeptWhereHeld(r, r', w);
    FailingStays(r, r', w);
  }

  lemma FinishKeepsInv(r: Round, w: nat)
    requires Inv(r) && FinishStep(r, w).Some?
    ensures Inv(FinishStep(r, w).value)
  {
    var r' := FinishStep(r, w).value;
    KeptWhereHeld(r, r', w);
    FailingStays(r, r', w);
  }

  lemma LeaveKeepsInv(r: Round, w: nat)
    requires Inv(r) && LeaveStep(r, w).Some?
    ensures Inv(LeaveStep(r, w).value)
  {
    var r' := LeaveStep(r, w).value;
    KeptWhereHeld(r, r', w);
    FailingStays(r, r', w);
  }

  lemma FailKeepsInv(r: Round, w: nat)
    requires Inv(r) && FailStep(r, w).Some?
    ensures Inv(FailStep(r, w).value)
  {
    var r' := FailStep(r, w).value;
    KeptWhereHeld(r, r', w);
    assert r'.workers[w].Failing?;
  }

  lemma CancelAllKeepsInv(r: Round, w: nat)
    requires Inv(r) && CancelAllStep(r, w).Some?
    ensures Inv(CancelAllStep(r, w).value)
  {
    var r' := CancelAllStep(r, w).value;
    KeptWhereHeld(r, r', w);
    assert r.workers[w].Failing?;
  }

  lemma StepKeepsInv(r: Round, step: Step)
    requires Inv(r) && Apply(r, step).Some?
    ensures Inv(Apply(r, step).value)
  {
    match step
    case Skip | GiveUp | Check | Close | OuterCancel => DispatchKeepsInv(r, step);
    case Hand(w) => HandKeepsInv(r, w);
    case Start(w) => StartKeepsInv(r, w);
    case Finish(w) => FinishKeepsInv(r, w);
    case Fail(w) => FailKeepsInv(r, w);
    case CancelAll(w) => CancelAllKeepsInv(r, w);
    case Leave(w) => LeaveKeepsInv(r, w);
  }

  // ---------- Runs ----------

  // The state after a list of steps; None when one of them was not possible.
  function After(r: Round, steps: seq<Step>): Option<Round>
    decreases |steps|
  {
    if steps == [] then Some(r)
    else match Apply(r, steps[0])
      case None => None
      case Some(r') => After(r', steps[1..])
  }

  lemma {:induction false} RunKeepsInv(r: Round, steps: seq<Step>)
    requires Inv(r) && After(r, steps).Some?
    ensures Inv(After(r, steps).value)
    decreases |steps|
  {
    if steps != [] {
      StepKeepsInv(r, steps[0]);
      RunKeepsInv(Apply(r, steps[0]).value, steps[1..]);
    }
  }

  // When wg.Wait returns and the round's context is still live, every part is uploaded; when upload
  // is about to return nil with a part missing, the run's own context is already done.
  lemma RoundIsCompleteOrStopped(partCount: int, parts: set<int>, streams: nat, outerDone: bool, steps: seq<Step>)
    requires After(Begin(partCount, parts, streams, outerDone), steps).Some?
    ensures var r := After(Begin(partCount, parts, streams, outerDone), steps).value;
            r.Over() ==>
              && (r.failed <==> r.cancelled)
              && (!r.Stopped() ==> r.Complete())
              && (!r.failed && !r.Complete() ==> r.outerDone)
              && parts <= r.uploaded && (forall n <- r.uploaded :: n in parts || 1 <= n <= partCount)
  {
    var start := Begin(partCount, parts, streams, outerDone);
    BeginKeepsInv(partCount, parts, streams, outerDone);
    RunKeepsInv(start, steps);
    PlanIsKept(start, steps);
    if After(start, steps).value.Over() {
      OverIsCompleteOrStopped(After(start, steps).value);
    }
  }

  lemma {:induction false} PlanIsKept(r: Round, steps: seq<Step>)
    requires After(r, steps).Some?
    ensures After(r, steps).value.already == r.already && After(r, steps).value.partCount == r.partCount
    decreases |steps|
  {
    if steps != [] {
      PlanIsKept(Apply(r, steps[0]).value, steps[1..]);
    }
  }

  lemma OverIsCompleteOrStopped(r: Round)
    requires Inv(r) && r.Over()
    ensures r.failed <==> r.cancelled
    ensures !r.Stopped() ==> r.Complete()
  {
    if !r.Stopped() {
      forall n | 1 <= n <= r.partCount ensures n in r.uploaded {
        assert n in r.uploaded || HeldBySome(r, n);
      }
    }
  }

  // In one round a part that is already uploaded is never sent again, and no part is sent by two
  // workers at a time, so every part is stored at most once.
  lemma PartsAreSentOnce(r: Round, v: nat, w: nat)
    requires Inv(r) && v < |r.workers| && w < |r.workers| && r.workers[v].Sending? && r.workers[w].Sending?
    ensures r.workers[v].part !in r.uploaded
    ensures r.workers[v].part == r.workers[w].part ==> v == w
  {
    assert !Holds(r.workers[if v < w then w else v], r.workers[if v < w then v else w].part) || v == w;
  }

  // ---------- What a run of steps does ----------

  function Held(w: Worker): set<int> {
    match w
    case Idle | Quit => {}
    case Got(part) => {part}
    case Sending(part) => {part}
    case Failing(part) => {part}
  }

  // The parts whose PUT came to its end in these steps.
  function FinishedParts(r: Round, steps: seq<Step>): set<int>
    decreases |steps|
  {
    if steps == [] then {} else
    (if steps[0].Finish? && steps[0].w < |r.workers| then Held(r.workers[steps[0].w]) else {}) +
    match Apply(r, steps[0])
    case None => {}
    case Some(r') => FinishedParts(r', steps[1..])
  }

  lemma {:induction false} FinishedAreAdded(r: Round, steps: seq<Step>)
    requires After(r, steps).Some?
    ensures After(r, steps).value.uploaded == r.uploaded + FinishedParts(r, steps)
    decreases |steps|
  {
    if steps != [] {
      FinishedAreAdded(Apply(r, steps[0]).value, steps[1..]);
    }
  }

  // A part the platform has accepted is registered, stopped round or not, and nothing else is: what is
  // uploaded are the parts at the start and those whose PUT has finished since.
  lemma UploadedIsWhatFinished(partCount: int, parts: set<int>, streams: nat, outerDone: bool, steps: seq<Step>)
    requires After(Begin(partCount, parts, streams, outerDone), steps).Some?
    ensures var start := Begin(partCount, parts, streams, outerDone);
            After(start, steps).value.uploaded == parts + FinishedParts(start, steps)
  {
    FinishedAreAdded(Begin(partCount, parts, streams, outerDone), steps);
  }

  // Errors and cancels are told apart: a round has failed exactly if some PUT failed in it, cancels itself
  // exactly after that, and its run's context is done exactly if it was or has become so.
  lemma {:induction false} ReasonsAreRecorded(r: Round, steps: seq<Step>)
    requires After(r, steps).Some?
    ensures var r' := After(r, steps).value;
            && (r'.failed <==> r.failed || exists i | 0 <= i < |steps| :: steps[i].Fail?)
            && (r'.cancelled <==> r.cancelled || exists i | 0 <= i < |steps| :: steps[i].CancelAll?)
            && (r'.outerDone <==> r.outerDone || exists i | 0 <= i < |steps| :: steps[i].OuterCancel?)
    decreases |steps|
  {
    if steps != [] {
      var rest := steps[1..];
      ReasonsAreRecorded(Apply(r, steps[0]).value, rest);
      assert forall i | 0 < i < |steps| :: steps[i] == rest[i - 1];
    }
  }

  function Hands(steps: seq<Step>): nat
    decreases |steps|
  {
    if steps == [] then 0 else (if steps[0].Hand? then 1 else 0) + Hands(steps[1..])
  }

  // Once a round is stopped, whoever is sending was sending that part already, and the dispatcher hands
  // out at most the one number it may be offering.
  lemma {:induction false} NothingStartsOnceStopped(r: Round, steps: seq<Step>)
    requires r.Stopped() && After(r, steps).Some?
    ensures var r' := After(r, steps).value;
            && r'.Stopped() && |r'.workers| == |r.workers|
            && (forall w | 0 <= w < |r.workers| && r'.workers[w].Sending? :: r'.workers[w] == r.workers[w])
            && Hands(steps) <= if r.sender == Offering then 1 else 0
    decreases |steps|
  {
    if steps != [] {
      NothingStartsOnceStopped(Apply(r, steps[0]).value, steps[1..]);
    }
  }

  // ---------- Every round ends ----------

  // With at least one worker some goroutine of the round can always take a step.
  lemma NeverStuck(r: Round)
    requires Inv(r) && |r.workers| > 0 && !r.Over()
    ensures exists step :: step != OuterCancel && Apply(r, step).Some?
  {
    if w :| 0 <= w < |r.workers| && r.workers[w].Got? {
      assert Apply(r, Start(w)).Some?;
    } else if w :| 0 <= w < |r.workers| && r.workers[w].Sending? {
      assert Apply(r, Finish(w)).Some?;
    } else if w :| 0 <= w < |r.workers| && r.workers[w].Failing? {
      assert Apply(r, CancelAll(w)).Some?;
    } else if r.sender == Checking {
      assert Apply(r, Check).Some?;
    } else if r.sender == Closed {
      var w :| 0 <= w < |r.workers| && r.workers[w] != Quit;
      assert Apply(r, Leave(w)).Some?;
    } else if r.next > r.partCount {
      assert Apply(r, Close).Some?;
    } else if r.next in r.already {
      assert Apply(r, Skip).Some?;
    } else if r.workers[0] == Idle {
      assert Apply(r, Hand(0)).Some?;
    } else {
      assert r.workers[0] == Quit;
      assert Apply(r, GiveUp).Some?;
    }
  }

  function Weight(w: Worker): nat {
    match w
    case Quit => 0
    case Idle => 1
    case Failing(_) => 2
    case Sending(_) => 3
    case Got(_) => 4
  }

  function Weights(ws: seq<Worker>): seq<int> { seq(|ws|, i requires 0 <= i < |ws| => Weight(ws[i])) }

  function Left(r: Round): int {
    match r.sender
    case Closed => 0
    case Checking => 10 * (r.partCount - r.next + 1) + 1
    case Offering => 10 * (if r.next > r.partCount then 0 else r.partCount - r.next + 1) + 5
  }

  function Work(r: Round): int { Sum(Weights(r.workers)) + Left(r) + if r.outerDone then 0 else 1 }

  lemma WeightMoves(ws: seq<Worker>, w: nat, to: Worker)
    requires w < |ws|
    ensures Sum(Weights(ws[w := to])) == Sum(Weights(ws)) - Weight(ws[w]) + Weight(to)
  {
    assert Weights(ws[w := to]) == Weights(ws)[w := Weight(to)];
    SumUpdate(Weights(ws), w, Weight(to));
  }

  lemma DispatchDoesWork(r: Round, step: Step)
    requires Inv(r) && (step.Skip? || step.GiveUp? || step.Check? || step.Close? || step.OuterCancel?)
    requires Apply(r, step).Some?
    ensures Work(Apply(r, step).value) < Work(r)
  {
  }

  lemma WorkerDoesWork(r: Round, r': Round, w: nat)
    requires w < |r.workers| && |r'.workers| == |r.workers| && r'.workers == r.workers[w := r'.workers[w]]
    requires Weight(r'.workers[w]) + Left(r') < Weight(r.workers[w]) + Left(r) && r'.outerDone == r.outerDone
    ensures Work(r') < Work(r)
  {
    WeightMoves(r.workers, w, r'.workers[w]);
  }

  lemma StepDoesWork(r: Round, step: Step)
    requires Inv(r) && Apply(r, step).Some?
    ensures Work(Apply(r, step).value) < Work(r)
  {
    match step
    case Skip | GiveUp | Check | Close | OuterCancel => DispatchDoesWork(r, step);
    case Hand(w) => WorkerDoesWork(r, HandStep(r, w).value, w);
    case Start(w) => WorkerDoesWork(r, StartStep(r, w).value, w);
    case Finish(w) => WorkerDoesWork(r, FinishStep(r, w).value, w);
    case Fail(w) => WorkerDoesWork(r, FailStep(r, w).value, w);
    case CancelAll(w) => WorkerDoesWork(r, CancelAllStep(r, w).value, w);
    case Leave(w) => WorkerDoesWork(r, LeaveStep(r, w).value, w);
  }

  lemma WorkIsNatural(r: Round)
    requires Inv(r)
    ensures Work(r) >= 0
  {
    ZeroSum(|r.workers|);
    SumMonotone(seq(|r.workers|, k => 0), Weights(r.workers));
  }

  lemma {:induction false} RunDoesWork(r: Round, steps: seq<Step>)
    requires Inv(r) && After(r, steps).Some?
    ensures |steps| <= Work(r)
    decreases |steps|
  {
    if steps == [] {
      WorkIsNatural(r);
    } else {
      StepKeepsInv(r, steps[0]);
      StepDoesWork(r, steps[0]);
      RunDoesWork(Apply(r, steps[0]).value, steps[1..]);
    }
  }

  lemma {:induction false} IdleWeights(n: nat)
    ensures Sum(Weights(seq(n, i => Idle))) == n
  {
    if n > 0 {
      IdleWeights(n - 1);
      assert Weights(seq(n, i => Idle))[..n - 1] == Weights(seq(n - 1, i => Idle));
    }
  }

  // However the scheduler interleaves, a round is over after at most 10 steps a part and a few
  // more, and before that it is never stuck (NeverStuck).
  lemma RoundsAreBounded(partCount: nat, parts: set<int>, streams: nat, outerDone: bool, steps: seq<Step>)
    requires After(Begin(partCount, parts, streams, outerDone), steps).Some?
    ensures |steps| <= 10 * partCount + streams + 6
  {
    BeginKeepsInv(partCount, parts, streams, outerDone);
    RunDoesWork(Begin(partCount, parts, streams, outerDone), steps);
    IdleWeights(streams);
  }
}
