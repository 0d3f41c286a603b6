/**
  One delivery job: its phase, its reported progress, its list of uploaded parts, and how runJob
  classifies the end of a round.
*/
module DeliveryJobs {
  import opened DeliveryPhases
  import opened Options
  import ArchivePull
  import PartChunking

  // The fields these functions read and write; sizes are in bytes.
  datatype Facts = Facts(
    phase: Phase,
    sourceSize: int,
    pulled: nat,
    partCount: int,
    parts: seq<int>,
    attempt: nat,
    needsReauth: bool,
    superseded: bool)

  // normalizeDeliveryPhase; None is its refusal to advance a terminal or unknown phase.
  function NormalizePhase(f: Facts): Option<Phase> {
    match f.phase
    case Blank | WaitingCollect => Some(WaitingCollect)
    case Pulling | Uploading | Completing => Some(f.phase)
    case Retrying =>
      if |f.parts| > 0 then Some(Uploading)
      else if f.sourceSize > 0 && f.pulled >= f.sourceSize then Some(Uploading)
      else if f.pulled > 0 then Some(Pulling)
      else Some(WaitingCollect)
    case Done | Failed | Unknown(_) => None
  }

  function Progress(f: Facts): int {
    match f.phase
    case Done => 100
    case Uploading | Completing => if f.partCount <= 0 then 50 else 50 + |f.parts| * 50 / f.partCount
    case Pulling => if f.sourceSize <= 0 then 0 else f.pulled * 50 / f.sourceSize
    case Retrying =>
      if f.partCount > 0 && |f.parts| > 0 then 50 + |f.parts| * 50 / f.partCount
      else if f.sourceSize > 0 && f.pulled > 0 then f.pulled * 50 / f.sourceSize
      else 0
    case _ => 0
  }

  // ---------- The object the runner updates ----------

  predicate Ascending(s: seq<int>) {
    forall i, k | 0 <= i < k < |s| :: s[i] <= s[k]
  }

  function Inserted(s: seq<int>, x: int): (r: seq<int>)
    ensures multiset(r) == multiset(s) + multiset{x}
  {
    if s == [] || x <= s[0] then [x] + s else
    assert s == [s[0]] + s[1..];
    [s[0]] + Inserted(s[1..], x)
  }

  function Sorted(s: seq<int>): seq<int> {
    if s == [] then [] else Inserted(Sorted(s[1..]), s[0])
  }

  lemma {:induction false} InsertedKeepsOrder(s: seq<int>, x: int)
    requires Ascending(s)
    ensures Ascending(Inserted(s, x))
  {
    if s != [] && x > s[0] {
      InsertedKeepsOrder(s[1..], x);
      var rest := Inserted(s[1..], x);
      forall k | 0 <= k < |rest| ensures s[0] <= rest[k] {
        assert rest[k] in multiset(rest);
        assert rest[k] == x || rest[k] in s[1..];
      }
    }
  }

  lemma {:induction false} SortedIsSorted(s: seq<int>)
    ensures Ascending(Sorted(s)) && multiset(Sorted(s)) == multiset(s)
  {
    if s != [] {
      SortedIsSorted(s[1..]);
      InsertedKeepsOrder(Sorted(s[1..]), s[0]);
      assert s == [s[0]] + s[1..];
    }
  }

  // The part list after one more part is registered.
  function WithPart(parts: seq<int>, part: int): seq<int> {
    if part in parts then parts else Sorted(parts + [part])
  }

  // Registering is idempotent, adds exactly that number, and never lists a number twice; a list
  // that grew is sorted.
  lemma WithPartAddsOne(parts: seq<int>, part: int)
    ensures WithPart(WithPart(parts, part), part) == WithPart(parts, part)
    ensures forall p :: p in WithPart(parts, part) <==> p in parts || p == part
    ensures multiset(WithPart(parts, part)) == multiset(parts) + if part in parts then multiset{} else multiset{part}
    ensures part !in parts ==> Ascending(WithPart(parts, part))
  {
    var longer := parts + [part];
    SortedIsSorted(longer);
    forall p ensures p in WithPart(parts, part) <==> p in parts || p == part {
      assert p in Sorted(longer) <==> p in multiset(Sorted(longer));
      assert p in longer <==> p in multiset(longer);
    }
  }

  class DeliveryJob {
    var facts: Facts

    constructor (facts: Facts)
      ensures this.facts == facts
    {
      this.facts := facts;
    }

    method AddUploadedPart(part: int)
      modifies this
      ensures facts == old(facts).(parts := WithPart(old(facts.parts), part))
    {
      for i := 0 to |facts.parts|
        invariant facts == old(facts) && part !in facts.parts[..i]
      {
        if facts.parts[i] == part {
          return;
        }
      }
      facts := facts.(parts := Sorted(facts.parts + [part]));
    }

    // The lock-held end of runJob: `failure` is the error of advance, None on success. A success keeps
    // the phase; a stall always leaves the job retrying with a fresh budget, even a superseded one;
    // otherwise the job is retrying exactly when nothing final happened and attempts are left; and
    // attempts are renewed by any progress.
    method FinishRound(partsBefore: nat, pulledBefore: nat, failure: Option<Failure>, stalled: bool)
      modifies this
      ensures facts == AfterRound(old(facts), partsBefore, pulledBefore, failure, stalled)
      ensures facts == old(facts).(phase := facts.phase, attempt := facts.attempt, needsReauth := facts.needsReauth)
      ensures failure.None? ==> facts.phase == old(facts.phase) && facts.attempt == 0
      ensures failure.Some? && stalled ==> facts.phase == Retrying && facts.attempt == 0
      ensures failure.Some? && !stalled ==> facts.phase in {Retrying, Phase.Failed}
      ensures failure.Some? && !stalled ==>
                (facts.phase == Retrying <==>
                   && !facts.superseded && failure.value !in {Superseded, Canceled, Unauthorized, Fatal}
                   && facts.attempt < Budget(failure.value))
      ensures failure.Some? && !stalled ==>
                facts.attempt == if |facts.parts| > partsBefore || facts.pulled > pulledBefore then 0 else old(facts.attempt) + 1
      ensures facts.needsReauth == (old(facts.needsReauth) || (failure == Some(Unauthorized) && !stalled && !facts.superseded))
    {
      if failure.None? {
        facts := facts.(attempt := 0);
        return;
      }
      var progressed := |facts.parts| > partsBefore || facts.pulled > pulledBefore;
      if progressed {
        facts := facts.(attempt := 0);
      } else {
        facts := facts.(attempt := facts.attempt + 1);
      }
      if stalled {
        facts := facts.(attempt := 0, phase := Retrying);
      } else if facts.superseded || failure.value == Superseded {
        facts := facts.(phase := Phase.Failed);
      } else if failure.value == Canceled {
        facts := facts.(phase := Phase.Failed);
      } else if failure.value == Unauthorized {
        facts := facts.(phase := Phase.Failed, needsReauth := true);
      } else if failure.value == Fatal {
        facts := facts.(phase := Phase.Failed);
      } else if facts.attempt < Budget(failure.value) {
        facts := facts.(phase := Retrying);
      } else {
        facts := facts.(phase := Phase.Failed);
      }
    }
  }

  // ---------- Progress is a sound monotone measure ----------

  // Distinct part numbers between 1 and the part count, and no more bytes than the source has.
  ghost predicate InOrder(f: Facts) {
    && f.partCount > 0
    && (forall p <- f.parts :: 1 <= p <= f.partCount)
    && (forall i, k | 0 <= i < k < |f.parts| :: f.parts[i] != f.parts[k])
    && (f.sourceSize > 0 ==> f.pulled <= f.sourceSize)
  }

  lemma {:induction false} DistinctPartsFit(parts: seq<int>, count: nat)
    requires forall p <- parts :: 1 <= p <= count
    requires forall i, k | 0 <= i < k < |parts| :: parts[i] != parts[k]
    ensures |parts| <= count
  {
    assert |parts| > 0 ==> parts[0] in parts && 1 <= parts[0] <= count;
    if |parts| == 0 {
    } else if count in parts {
      var i :| 0 <= i < |parts| && parts[i] == count;
      var others := parts[..i] + parts[i + 1..];
      forall k | 0 <= k < |others| ensures 1 <= others[k] <= count - 1 {
        var was := if k < i then k else k + 1;
        assert others[k] == parts[was] && parts[was] in parts;
        assert parts[if was < i then was else i] != parts[if was < i then i else was];
      }
      DistinctPartsFit(others, count - 1);
    } else {
      DistinctPartsFit(parts, count - 1);
    }
  }

  lemma ShareIsMonotone(a: int, b: int, total: int)
    requires 0 <= a <= b <= total && total > 0
    ensures 0 <= a * 50 / total <= b * 50 / total <= 50
  {
    DivMonotone(a * 50, b * 50, total);
    DivMonotone(b * 50, 50 * total, total);
    FullShare(total);
  }

  lemma FullShare(total: int)
    requires total > 0
    ensures total * 50 / total == 50 && 50 * total / total == 50 && 0 * 50 / total == 0
  {
    QuotientOfProduct(50, total);
    QuotientOfProduct(0, total);
  }

  lemma {:induction false} ProductGap(q: int, r: int, d: int)
    requires d > 0
    ensures q > r ==> q * d >= r * d + d
    decreases q - r
  {
    if q > r {
      OneMore(q - 1, d);
      ProductGap(q - 1, r, d);
    }
  }

  lemma OneMore(q: int, d: int)
    ensures (q + 1) * d == q * d + d
  {
  }

  lemma QuotientOfProduct(q: int, d: int)
    requires d > 0
    ensures q * d / d == q
  {
    var r := q * d / d;
    assert q * d == r * d + q * d % d;
    ProductGap(q, r, d);
    ProductGap(r, q, d);
  }

  lemma DivMonotone(a: int, b: int, d: int)
    requires 0 <= a <= b && d > 0
    ensures 0 <= a / d <= b / d
  {
    var q, r := a / d, b / d;
    assert a == q * d + a % d && b == r * d + b % d;
    ProductGap(q, r, d);
    ProductGap(0, q, d);
  }

  lemma ProgressInRange(f: Facts)
    requires InOrder(f)
    ensures 0 <= Progress(f) <= 100
    ensures f.phase in {Uploading, Completing} ==> 50 <= Progress(f)
    ensures f.phase == Pulling ==> Progress(f) <= 50
  {
    DistinctPartsFit(f.parts, f.partCount);
    ShareIsMonotone(|f.parts|, |f.parts|, f.partCount);
    if f.sourceSize > 0 {
      ShareIsMonotone(f.pulled, f.pulled, f.sourceSize);
    }
  }

  // A round that ends retrying keeps the number shown: while pulling always, and later when a part is
  // registered or the pull is complete.
  predicate KeepsShown(f: Facts) {
    f.phase in {WaitingCollect, Pulling} || f.parts != [] || (f.sourceSize > 0 && f.pulled >= f.sourceSize)
  }

  lemma ShareBelowFull(a: int, total: int)
    requires 0 <= a < total
    ensures a * 50 / total < 50
  {
    var q := a * 50 / total;
    assert a * 50 == q * total + a * 50 % total;
    if q >= 50 {
      ProductGap(q, 49, total);
    }
  }

  lemma RetryKeepsProgressIff(f: Facts)
    requires InOrder(f) && f.phase in {WaitingCollect, Pulling, Uploading, Completing}
    ensures Progress(f) <= Progress(f.(phase := Retrying)) <==> KeepsShown(f)
  {
    ProgressInRange(f);
    DistinctPartsFit(f.parts, f.partCount);
    ShareIsMonotone(|f.parts|, |f.parts|, f.partCount);
    if f.sourceSize > 0 {
      FullShare(f.sourceSize);
      ShareIsMonotone(f.pulled, f.pulled, f.sourceSize);
      if f.pulled < f.sourceSize {
        ShareBelowFull(f.pulled, f.sourceSize);
      }
    }
    FullShare(f.partCount);
  }

  // One step of a delivery that has not failed, failed rounds that are retried included.
  ghost predicate Advances(f: Facts, f': Facts) {
    || (f.phase in {Blank, WaitingCollect} && f' == f.(phase := f'.phase, sourceSize := f'.sourceSize) && f'.phase in {WaitingCollect, Pulling})
    || (f.phase == Pulling && f.pulled <= f'.pulled && f' == f.(pulled := f'.pulled))
    || (f.phase == Pulling && f' == f.(phase := Uploading))
    || (f.phase == Uploading && (forall p <- f.parts :: p in f'.parts) && |f.parts| <= |f'.parts| && f' == f.(parts := f'.parts))
    || (f.phase == Uploading && f' == f.(phase := Completing))
    || (f.phase == Completing && f' == f.(phase := Done))
    || (f.phase in {WaitingCollect, Pulling, Uploading, Completing} && KeepsShown(f) && f' == f.(phase := Retrying, attempt := f'.attempt))
    || (f.phase == Retrying && NormalizePhase(f) == Some(f'.phase) && f' == f.(phase := f'.phase))
  }

  lemma StepNeverLosesProgress(f: Facts, f': Facts)
    requires InOrder(f) && InOrder(f') && Advances(f, f')
    ensures Progress(f) <= Progress(f')
  {
    ProgressInRange(f);
    ProgressInRange(f');
    if f.phase == Retrying {
      NormalizingKeepsProgress(f);
    } else if f'.phase == Retrying {
      RetryKeepsProgressIff(f);
    } else if f.phase == Pulling && f'.phase == Pulling && f.sourceSize > 0 {
      ShareIsMonotone(f.pulled, f'.pulled, f.sourceSize);
    } else if f.phase == Uploading && f'.phase == Uploading {
      DistinctPartsFit(f'.parts, f.partCount);
      ShareIsMonotone(|f.parts|, |f'.parts|, f.partCount);
    }
  }

  // Along any delivery until it fails, over any number of retries, reported progress stays in 0..100
  // and never falls.
  lemma {:induction false} ProgressIsMonotone(history: seq<Facts>, i: nat, k: nat)
    requires i <= k < |history|
    requires forall m | 0 <= m < |history| :: InOrder(history[m])
    requires forall m | 0 <= m < |history| - 1 :: Advances(history[m], history[m + 1])
    ensures 0 <= Progress(history[i]) <= Progress(history[k]) <= 100
    decreases k - i
  {
    ProgressInRange(history[i]);
    ProgressInRange(history[k]);
    if i < k {
      StepNeverLosesProgress(history[i], history[i + 1]);
      ProgressIsMonotone(history, i + 1, k);
    }
  }

  // Resuming a retrying job at its normalized phase shows the same number as before.
  lemma NormalizingKeepsProgress(f: Facts)
    requires InOrder(f) && f.phase == Retrying
    ensures NormalizePhase(f).Some? && Progress(f.(phase := NormalizePhase(f).value)) == Progress(f)
  {
    if |f.parts| == 0 && f.sourceSize > 0 && f.pulled >= f.sourceSize {
      FullShare(f.sourceSize);
      FullShare(f.partCount);
    }
  }

  // Normalizing never jumps to completing, and never revives a job that is over.
  lemma NormalizingIsConservative(f: Facts)
    ensures f.phase.Terminal() ==> NormalizePhase(f) == None
    ensures NormalizePhase(f) == Some(Completing) ==> f.phase == Completing
    ensures NormalizePhase(f).Some? ==> NormalizePhase(f.(phase := NormalizePhase(f).value)) == NormalizePhase(f)
  {
  }

  // Where a job goes on: every working phase stays; a retrying one goes to uploading with a part or the
  // whole pull, to pulling with some bytes, and to waiting with nothing.
  lemma WhereAJobGoesOn(f: Facts)
    ensures f.phase in {Blank, WaitingCollect} ==> NormalizePhase(f) == Some(WaitingCollect)
    ensures f.phase in {Pulling, Uploading, Completing} ==> NormalizePhase(f) == Some(f.phase)
    ensures f.phase == Retrying ==>
              && (NormalizePhase(f) == Some(Uploading) <==> f.parts != [] || PullComplete(f))
              && (NormalizePhase(f) == Some(Pulling) <==> f.parts == [] && !PullComplete(f) && f.pulled > 0)
              && (NormalizePhase(f) == Some(WaitingCollect) <==> f.parts == [] && !PullComplete(f) && f.pulled == 0)
    ensures NormalizePhase(f) == None <==> f.phase.Terminal() || f.phase.Unknown?
  {
  }

  // The number shown is half the pull's share, or fifty plus half the parts' share, rounded down; it is 100
  // exactly for a job that is done or has every part.
  lemma ProgressIsTheShare(f: Facts)
    requires InOrder(f) && f.sourceSize > 0
    ensures f.phase == Pulling || (f.phase == Retrying && f.parts == []) ==>
              Progress(f) * f.sourceSize <= f.pulled * 50 < (Progress(f) + 1) * f.sourceSize
    ensures f.phase in {Uploading, Completing} || (f.phase == Retrying && f.parts != []) ==>
              (Progress(f) - 50) * f.partCount <= |f.parts| * 50 < (Progress(f) - 49) * f.partCount
    ensures f.phase in {Blank, WaitingCollect, Phase.Failed} ==> Progress(f) == 0
    ensures f.phase == Done ==> Progress(f) == 100
  {
    OneMore(f.pulled * 50 / f.sourceSize, f.sourceSize);
    OneMore(|f.parts| * 50 / f.partCount, f.partCount);
    FullShare(f.sourceSize);
  }

  predicate PullComplete(f: Facts) { f.sourceSize > 0 && f.pulled >= f.sourceSize }

  // A retrying job that normalizes to uploading has its whole archive if and only if no part is
  // registered yet or the pull is complete: registered parts win over an incomplete pull.
  lemma UploadingHasTheArchiveIff(f: Facts)
    requires f.phase == Retrying
    ensures (NormalizePhase(f) == Some(Uploading) ==> PullComplete(f)) <==> f.parts == [] || PullComplete(f)
    ensures NormalizePhase(f) in {Some(WaitingCollect), Some(Pulling)} <==> f.parts == [] && !PullComplete(f)
  {
  }

  // Parts may be registered before the first byte is pulled, because a submission carries the parts
  // the platform already holds. When such a job loses its link while pulling, every retry goes to
  // uploading; with a known size the guard then refuses the partial file for good, although the pull
  // could be resumed.
  lemma RegisteredPartsAbandonThePull(f: Facts, e: Failure)
    requires f.phase == Pulling && f.parts != [] && 0 < f.pulled < f.sourceSize && f.attempt == 0 && !f.superseded && e in {Ordinary, Transient}
    ensures var f' := AfterRound(f, |f.parts|, f.pulled, Some(e), false);
            && f'.phase == Retrying && NormalizePhase(f') == Some(Uploading) && !PullComplete(f')
            && PartChunking.SourceSizeGuard(f.sourceSize, f'.pulled) == PartChunking.SourceChanged
            && AfterRound(f', |f.parts|, f.pulled, Some(Fatal), false).phase == Phase.Failed
  {
  }

  // ---------- The end of a round ----------

  datatype Failure = Superseded | Canceled | Unauthorized | Fatal | DiskFull | Admission | Transient | Ordinary

  const MAX_ATTEMPTS := 5
  const MAX_TRANSIENT_ATTEMPTS := 8

  function Budget(failure: Failure): nat {
    match failure
    case Transient => MAX_TRANSIENT_ATTEMPTS
    case DiskFull | Admission => 1
    case _ => MAX_ATTEMPTS
  }

  function AfterRound(f: Facts, partsBefore: nat, pulledBefore: nat, failure: Option<Failure>, stalled: bool): Facts {
    match failure
    case None => f.(attempt := 0)
    case Some(e) =>
      var progressed := |f.parts| > partsBefore || f.pulled > pulledBefore;
      var attempt := if progressed then 0 else f.attempt + 1;
      if stalled then f.(attempt := 0, phase := Retrying)
      else if f.superseded || e in {Superseded, Canceled, Fatal} then f.(attempt := attempt, phase := Phase.Failed)
      else if e == Unauthorized then f.(attempt := attempt, phase := Phase.Failed, needsReauth := true)
      else f.(attempt := attempt, phase := if attempt < Budget(e) then Retrying else Phase.Failed)
  }

  // What each class of error does to a job that is not superseded, without a stall. An error of the last
  // group is retried after any progress; without, a full disk or a busy one ends the job at once, an
  // ordinary error at the fifth round in a row, and a transient one at the eighth.
  lemma FailureClasses(f: Facts, partsBefore: nat, pulledBefore: nat, e: Failure)
    requires !f.superseded
    ensures var f' := AfterRound(f, partsBefore, pulledBefore, Some(e), false);
            var progressed := |f.parts| > partsBefore || f.pulled > pulledBefore;
            && (e in {Superseded, Canceled, Unauthorized, Fatal} ==> f'.phase == Phase.Failed)
            && (e in {DiskFull, Admission, Ordinary, Transient} && progressed ==> f'.phase == Retrying && f'.attempt == 0)
            && (e in {DiskFull, Admission} && !progressed ==> f'.phase == Phase.Failed)
            && (e == Ordinary && !progressed ==> f'.phase == if f.attempt < 4 then Retrying else Phase.Failed)
            && (e == Transient && !progressed ==> f'.phase == if f.attempt < 7 then Retrying else Phase.Failed)
            && f'.needsReauth == (f.needsReauth || e == Unauthorized)
  {
  }

  // A superseded job fails whatever the error and is never asked for credentials; only a stall retries it.
  lemma SupersededFails(f: Facts, partsBefore: nat, pulledBefore: nat, e: Failure, stalled: bool)
    requires f.superseded
    ensures var f' := AfterRound(f, partsBefore, pulledBefore, Some(e), stalled);
            f'.phase == (if stalled then Retrying else Phase.Failed) && f'.needsReauth == f.needsReauth && !Requeues(f')
  {
  }

  // The job after n rounds in a row that all fail with the same error and without progress.
  function AfterBarrenRounds(f: Facts, e: Failure, n: nat): Facts {
    if n == 0 then f else
    var before := AfterBarrenRounds(f, e, n - 1);
    AfterRound(before, |before.parts|, before.pulled, Some(e), false)
  }

  // From a fresh start such a run ends with the first round, the fifth or the eighth, and not before.
  lemma {:induction false} BarrenRoundsEnd(f: Facts, e: Failure, n: nat)
    requires f.attempt == 0 && !f.superseded && n > 0 && e in {DiskFull, Admission, Ordinary, Transient}
    ensures AfterBarrenRounds(f, e, n) == f.(attempt := n, phase := AfterBarrenRounds(f, e, n).phase)
    ensures AfterBarrenRounds(f, e, n).phase == if n < (if e == Transient then 8 else if e == Ordinary then 5 else 1) then Retrying else Phase.Failed
  {
    if n > 1 {
      BarrenRoundsEnd(f, e, n - 1);
    }
    FailureClasses(AfterBarrenRounds(f, e, n - 1), |f.parts|, f.pulled, e);
  }

  // Whether runJob starts the backoff goroutine for the state it leaves.
  predicate BacksOff(f: Facts, failure: Option<Failure>) {
    failure.Some? && !f.needsReauth && f.attempt < Budget(failure.value)
  }

  // What the backoff goroutine asks when it wakes (requeueEligible for a job still in r.jobs).
  predicate Requeues(f: Facts) {
    f.phase == Retrying && !f.needsReauth && !f.superseded
  }

  // No job is stranded: a job left retrying has a backoff goroutine that will requeue it, and a
  // job left failed is not requeued by one.
  lemma RetryingIsRequeuedAndFailedIsNot(f: Facts, partsBefore: nat, pulledBefore: nat, e: Failure, stalled: bool)
    requires !f.needsReauth && !f.superseded
    ensures var f' := AfterRound(f, partsBefore, pulledBefore, Some(e), stalled);
            && f'.phase in {Retrying, Phase.Failed}
            && (f'.phase == Retrying <==> BacksOff(f', Some(e)) && Requeues(f'))
  {
  }

  // ---------- How pull reports a failure ----------

  // What the environment does to one pull. `refused` is an error before the transfer (no source path,
  // disk precheck); `local` is the size of the local file; `received` bytes arrive; `cancelled` says
  // that the transfer was ended by its context; `current` is the source size measured again after a
  // failed transfer; `md5Ok` says that the MD5 of the local file could be taken when one is needed.
  datatype Pull = Pull(refused: Option<Failure>, local: nat, mkdirOk: bool, prefixOk: bool, received: nat, transferOk: bool, cancelled: bool,
                       localDiskFull: bool, current: Option<int>, sizeMismatch: bool, md5Ok: bool, verdictOk: bool)

  function StartOffset(f: Facts, p: Pull): nat { ArchivePull.ResolvePullStart(p.local, f.sourceSize).offset }

  // What pullArchive reports as written.
  function Written(f: Facts, p: Pull): nat {
    if ArchivePull.Blocked(p.local, f.sourceSize, p.mkdirOk, p.prefixOk) then 0 else StartOffset(f, p) + p.received
  }

  // discardLocalCopy resets the pulled bytes and the part list together.
  function Discarded(f: Facts): Facts { f.(pulled := 0, parts := []) }

  // The branches of pull: the job afterwards, and the error.
  function ConcludePull(f: Facts, p: Pull): (Facts, Option<Failure>) {
    var kept := f.(pulled := Written(f, p));
    var blocked := ArchivePull.Blocked(p.local, f.sourceSize, p.mkdirOk, p.prefixOk);
    if p.refused.Some? then (f, p.refused)
    else if blocked || !p.transferOk then
      if p.localDiskFull then (kept, Some(DiskFull))
      else if p.current.Some? && f.sourceSize > 0 && p.current.value != f.sourceSize then (Discarded(f), Some(Fatal))
      else if !blocked && p.sizeMismatch then (kept, Some(Fatal))
      else (kept, Some(if !blocked && p.cancelled then Canceled else Ordinary))
    else if !p.md5Ok then (kept, Some(Ordinary))
    else if !p.verdictOk then (Discarded(f), Some(Fatal))
    else (kept, None)
  }

  // What a pull reports, by what happened to it. Nothing is discarded but a source that changed its size
  // under the transfer and a copy that fails its verdict, and then all of it.
  lemma WhatAPullReports(f: Facts, p: Pull)
    ensures var (f', failure) := ConcludePull(f, p);
            var blocked := ArchivePull.Blocked(p.local, f.sourceSize, p.mkdirOk, p.prefixOk);
            var broken := blocked || !p.transferOk;
            var moved := broken && !p.localDiskFull && p.current.Some? && f.sourceSize > 0 && p.current.value != f.sourceSize;
            && (p.refused.Some? <==> failure == p.refused && f' == f && p.refused.Some?)
            && (p.refused.None? ==>
                  && (failure == None <==> !broken && p.md5Ok && p.verdictOk)
                  && (failure == Some(DiskFull) <==> broken && p.localDiskFull)
                  && (failure == Some(Canceled) <==>
                        broken && !p.localDiskFull && !moved && !blocked && !p.sizeMismatch && p.cancelled)
                  && (failure == Some(Fatal) <==>
                        moved || (broken && !p.localDiskFull && !blocked && p.sizeMismatch) || (!broken && p.md5Ok && !p.verdictOk))
                  && (failure in {None, Some(DiskFull), Some(Canceled), Some(Fatal), Some(Ordinary)})
                  && f' == if moved || (!broken && p.md5Ok && !p.verdictOk) then f.(pulled := 0, parts := []) else f.(pulled := Written(f, p)))
  {
  }

  // A discard always ends in a fatal error, so a pull that may be retried keeps the parts. It keeps
  // the pulled bytes if and only if there were none, or directory and prefix could be read and the
  // transfer got at least as far as the record: pullArchive reports zero bytes otherwise, and pull
  // stores that.
  lemma PulledIsKeptIff(f: Facts, p: Pull)
    ensures var (f', failure) := ConcludePull(f, p);
            && (f'.parts != f.parts ==> failure == Some(Fatal))
            && (p.refused.None? && failure != Some(Fatal) ==>
                  (f.pulled <= f'.pulled <==>
                     f.pulled == 0 || (p.mkdirOk && (StartOffset(f, p) == 0 || p.prefixOk) && f.pulled <= StartOffset(f, p) + p.received)))
  {
  }

  // ---------- The rounds the retry budget is about ----------

  // One round of advance that fails: it pulls, and may go on to upload, or it does not get to a pull.
  datatype Work = Pulls(pull: Pull, uploaded: seq<int>) | NoPull(uploaded: seq<int>)

  ghost predicate Grown(f: Facts, parts: seq<int>) {
    |f.parts| <= |parts| && InOrder(f.(parts := parts))
  }

  // `after` is the job when advance returns the error.
  ghost predicate Worked(before: Facts, w: Work, after: Facts, e: Failure) {
    match w
    case NoPull(parts) => after == before.(parts := parts, phase := after.phase) && Grown(before, parts)
    case Pulls(p, parts) =>
      && NormalizePhase(before) in {Some(WaitingCollect), Some(Pulling)}
      && var (f, failure) := ConcludePull(before, p);
         if failure.Some? then e == failure.value && after == f.(phase := after.phase)
         else after == f.(parts := parts, phase := after.phase) && Grown(f, parts)
  }

  // The circumstances: the job is in order and has attempts, the local copy is what the record says
  // or more, and the source keeps its size.
  ghost predicate Steady(f: Facts, w: Work) {
    && InOrder(f) && f.sourceSize > 0 && !f.needsReauth && f.attempt < MAX_TRANSIENT_ATTEMPTS
    && (w.Pulls? ==> f.pulled <= w.pull.local && w.pull.local + w.pull.received <= f.sourceSize)
  }

  // The guard on which the retry budget depends: what is recorded as pulled can be read again.
  predicate Rereadable(f: Facts, w: Work) {
    w.Pulls? && w.pull.refused.None? ==> f.pulled == 0 || (w.pull.mkdirOk && w.pull.prefixOk)
  }

  // In steady circumstances a round that does not end fatally keeps what it had pulled if and only if
  // that could be read again; parts are always kept.
  lemma RoundKeepsProgressIff(before: Facts, w: Work, after: Facts, e: Failure)
    requires Steady(before, w) && Worked(before, w, after, e) && e != Fatal
    ensures before.pulled <= after.pulled <==> Rereadable(before, w)
    ensures |before.parts| <= |after.parts| && InOrder(after)
  {
    if w.Pulls? {
      PulledIsKeptIff(before, w.pull);
    }
  }

  function Missing(f: Facts): int { f.partCount - |f.parts| }

  function Unpulled(f: Facts): int { f.sourceSize - f.pulled }

  function AttemptsLeft(f: Facts): int { MAX_TRANSIENT_ATTEMPTS - f.attempt }

  // (missing parts, unpulled bytes, attempts left), compared lexicographically.
  predicate MeasureDrops(f: Facts, f': Facts) {
    || Missing(f') < Missing(f)
    || (Missing(f') == Missing(f) && Unpulled(f') < Unpulled(f))
    || (Missing(f') == Missing(f) && Unpulled(f') == Unpulled(f) && AttemptsLeft(f') < AttemptsLeft(f))
  }

  function RetryBound(f: Facts): int {
    MAX_TRANSIENT_ATTEMPTS * (Missing(f) + Unpulled(f)) + AttemptsLeft(f)
  }

  // A steady failing round that could read its prefix again and was not ended by the stall watchdog
  // either ends the job or makes the measure strictly smaller, and every component stays bounded
  // below.
  lemma FailingRoundMakesProgressOrEnds(before: Facts, w: Work, after: Facts, e: Failure)
    requires Steady(before, w) && Rereadable(before, w) && Worked(before, w, after, e)
    ensures var f := AfterRound(after, |before.parts|, before.pulled, Some(e), false);
            && f.phase in {Retrying, Phase.Failed}
            && (f.phase == Retrying ==>
                  && MeasureDrops(before, f) && RetryBound(f) < RetryBound(before)
                  && Missing(f) >= 0 && Unpulled(f) >= 0 && AttemptsLeft(f) > 0
                  && InOrder(f) && !f.needsReauth && f.sourceSize > 0)
  {
    if e != Fatal {
      RoundKeepsProgressIff(before, w, after, e);
      DistinctPartsFit(after.parts, after.partCount);
    }
  }

  // One failed round of a run, as the environment and advance made it.
  datatype FailedRound = FailedRound(work: Work, worked: Facts, error: Failure)

  // jobs[i] is the job before round i; every round but the last left the job retrying.
  ghost predicate FailingRound(jobs: seq<Facts>, rounds: seq<FailedRound>, i: nat)
    requires |jobs| == |rounds| + 1 && i < |rounds|
  {
    var r := rounds[i];
    && Steady(jobs[i], r.work) && Worked(jobs[i], r.work, r.worked, r.error)
    && jobs[i + 1] == AfterRound(r.worked, |jobs[i].parts|, jobs[i].pulled, Some(r.error), false)
    && (i < |rounds| - 1 ==> jobs[i + 1].phase == Retrying)
  }

  ghost predicate FailingRun(jobs: seq<Facts>, rounds: seq<FailedRound>) {
    && |jobs| == |rounds| + 1
    && forall i | 0 <= i < |rounds| :: FailingRound(jobs, rounds, i)
  }

  // The retry loop terminates: without stalls, and as long as what was pulled can be read again, a
  // job fails at most RetryBound times before it is over or has nothing left to send.
  lemma {:induction false} RetriesAreBounded(jobs: seq<Facts>, rounds: seq<FailedRound>)
    requires FailingRun(jobs, rounds) && |rounds| > 0
    requires forall i | 0 <= i < |rounds| :: Rereadable(jobs[i], rounds[i].work)
    ensures |rounds| <= RetryBound(jobs[0])
  {
    assert FailingRound(jobs, rounds, 0);
    if |rounds| == 1 {
      DistinctPartsFit(jobs[0].parts, jobs[0].partCount);
    } else {
      FailingRoundMakesProgressOrEnds(jobs[0], rounds[0].work, rounds[0].worked, rounds[0].error);
      forall i | 0 <= i < |rounds| - 1 ensures FailingRound(jobs[1..], rounds[1..], i) {
        assert FailingRound(jobs, rounds, i + 1);
      }
      RetriesAreBounded(jobs[1..], rounds[1..]);
    }
  }

  // ---------- Where the retry loop need not end ----------

  // A round whose prefix cannot be read again, and the next one, which reads it and loses the link at
  // once: the record goes to zero and back, which counts as progress.
  function UnreadableRound(f: Facts): FailedRound {
    FailedRound(Pulls(Pull(None, f.pulled, true, false, 0, false, false, false, None, false, true, true), f.parts), f.(pulled := 0), Ordinary)
  }

  function RereadRound(f: Facts): FailedRound {
    FailedRound(Pulls(Pull(None, f.pulled, true, true, 0, false, false, false, None, false, true, true), f.parts), f.(attempt := 1), Ordinary)
  }

  // For every job that is waiting to resume a partial pull, and for every n, there is a run of 2n
  // steady failing rounds that ends where it began, ready for the next retry.
  lemma {:induction false} UnreadablePrefixMayRepeatForEver(f: Facts, n: nat) returns (jobs: seq<Facts>, rounds: seq<FailedRound>)
    requires InOrder(f) && f.phase == Retrying && f.attempt == 0 && !f.needsReauth && !f.superseded
    requires f.parts == [] && 0 < f.pulled < f.sourceSize
    ensures FailingRun(jobs, rounds) && |rounds| == 2 * n && jobs[0] == jobs[2 * n] == f
    ensures forall j <- jobs :: j.phase == Retrying && BacksOff(j, Some(Ordinary)) && Requeues(j)
  {
    if n == 0 {
      jobs, rounds := [f], [];
    } else {
      var more, later := UnreadablePrefixMayRepeatForEver(f, n - 1);
      var blank := f.(pulled := 0, attempt := 1);
      jobs, rounds := [f, blank] + more, [UnreadableRound(f), RereadRound(f)] + later;
      forall i | 0 <= i < |rounds| ensures FailingRound(jobs, rounds, i) {
        if i >= 2 {
          assert FailingRound(more, later, i - 2);
        }
      }
    }
  }

  // Stalls are the other exception the bound needs: a stalled round without progress puts the job
  // back to exactly where a fresh retry starts, so stalls alone may repeat for ever.
  lemma StallsMayRepeatForEver(f: Facts, e: Failure)
    requires f.phase == Retrying && f.attempt == 0
    ensures AfterRound(f, |f.parts|, f.pulled, Some(e), true) == f
    ensures !f.needsReauth && !f.superseded ==> BacksOff(f, Some(e)) && Requeues(f)
  {
  }
}
