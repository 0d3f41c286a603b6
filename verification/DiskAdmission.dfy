/**
  Disk admission of concurrent pulls on one directory.

  A pull publishes its own path and size, looks at its local file, adds up what the other jobs
  still owe, and only then reads the free space. No lock spans these reads. The module models each
  of them as an atomic step and proves that the bytes admitted jobs still have to write never
  exceed the free space.
*/
module DiskAdmission {
  import opened Options
  import opened Sums

  // ---------- delivery_disk.go ----------

  const SLACK_MIN := 67_108_864  // 64 MiB
  const SLACK_DIV := 20

  datatype Precheck = Precheck(need: int, free: int, probed: bool, ok: bool)

  datatype Verdict = Verdict(check: Precheck, reserved: int, concurrent: bool)

  function DiskNeed(remaining: int): (need: int)
    ensures remaining > 0 ==> need >= remaining + SLACK_MIN && SLACK_DIV * (need - remaining) > remaining - SLACK_DIV
    ensures remaining <= 0 ==> need == 0
  {
    if remaining <= 0 then 0 else
    var slack := remaining / SLACK_DIV;
    remaining + if slack < SLACK_MIN then SLACK_MIN else slack
  }

  // `probe` is what the volume reports as free; a probe that fails reports 0.
  function PrecheckDisk(sourceSize: int, existing: int, probe: int): Precheck
  {
    var remaining := sourceSize - existing;
    if remaining <= 0 then Precheck(0, 0, false, true) else
    var need := DiskNeed(remaining);
    if probe <= 0 then Precheck(need, 0, false, true) else
    Precheck(need, probe, true, probe >= need)
  }

  function AdmissionCheck(sourceSize: int, existing: int, reserved: int, probe: int): Verdict
  {
    var single := PrecheckDisk(sourceSize, existing, probe);
    if reserved <= 0 || !single.probed || !single.ok then Verdict(single, reserved, false) else
    var need := single.need + reserved;
    Verdict(Precheck(need, single.free, true, single.free >= need), reserved, single.free < need)
  }

  // What an accepted and a refused pull may conclude, in terms of bytes alone.
  lemma AdmissionMeans(sourceSize: int, existing: int, reserved: int, probe: int)
    ensures var v := AdmissionCheck(sourceSize, existing, reserved, probe);
            && (v.check.ok && probe > 0 && sourceSize > existing && reserved >= 0 ==>
                  probe >= (sourceSize - existing) + SLACK_MIN + reserved)
            && (probe <= 0 || sourceSize <= existing ==> v.check.ok)
            // a refusal blames the other jobs exactly when this job alone would have fitted
            && (!v.check.ok ==> (v.concurrent <==> probe >= DiskNeed(sourceSize - existing)))
            && (v.concurrent ==> !v.check.ok && reserved > 0)
  {
  }

  // The verdict in bytes, both ways: a pull that lacks something is accepted on a probed volume exactly if
  // the free space covers what it lacks, what the others are counted for, and a slack of 64 MiB or a
  // twentieth of what it lacks, whichever is more. What is asked for is just that, without the others'
  // bytes when the pull does not even fit alone.
  lemma AdmittedIff(sourceSize: int, existing: int, reserved: int, probe: int)
    requires probe > 0 && sourceSize > existing && reserved >= 0
    ensures var (v, lacks) := (AdmissionCheck(sourceSize, existing, reserved, probe), sourceSize - existing);
            var slack := v.check.need - lacks - if v.check.ok || v.concurrent then reserved else 0;
            && (v.check.ok <==> probe >= lacks + 67_108_864 + reserved && 20 * (probe - lacks - reserved) > lacks - 20)
            && slack >= 67_108_864 && 20 * slack > lacks - 20 && (slack == 67_108_864 || 20 * slack <= lacks)
            && v.check.probed && v.check.free == probe && v.reserved == reserved
  {
  }

  // ---------- The jobs of one directory ----------

  // Progress of one pull through its unlocked reads. A resumed job starts a new entry.
  datatype Stage =
    | Waiting                                                  // queued, collecting, or in backoff
    | Measured                                                 // path and size published
    | Looked(existing: nat)                                    // os.Stat of the local file done
    | Reserved(seen: nat, reserved: int, at: nat, base: int)   // pendingLocalBytes read, `seen` is the file size
    | Skipped                                                  // a file longer than the source needs no space
    | Writing(skipped: bool)                                   // admitted or not asked, pullArchive may append
    | Leaving                                                  // round lost, local copy discarded
    | Gone

  // `publishedAt` is the time the path and size became visible to others, 0 before that.
  datatype Entry = Entry(listed: bool, publishedAt: nat, size: nat, pulled: nat, onDisk: nat, stage: Stage)

  // Two history variables and one in each reservation: `lastAdmitted` is the latest reservation time of
  // any admitted pull, `unasked` adds up what pulls write that started by removing a file that was too
  // long, and `base` says what escaped a reservation when it was read, less `unasked` at that time.
  datatype State = State(entries: seq<Entry>, free: int, clock: nat, lastAdmitted: nat, unasked: nat)

  // What pendingLocalBytes adds for one other job.
  function Owed(e: Entry): int {
    if e.listed && e.publishedAt > 0 && e.size > 0 && e.size - e.pulled > 0 then e.size - e.pulled else 0
  }

  function OwedByOthers(entries: seq<Entry>, self: nat): seq<int> {
    seq(|entries|, i requires 0 <= i < |entries| => if i == self then 0 else Owed(entries[i]))
  }

  method PendingLocalBytes(entries: seq<Entry>, self: nat) returns (total: int)
    ensures total == Sum(OwedByOthers(entries, self))
  {
    total := 0;
    var owed := OwedByOthers(entries, self);
    for i := 0 to |entries|
      invariant total == Sum(owed[..i])
    {
      SumPush(owed[..i], owed[i]);
      assert owed[..i + 1] == owed[..i] + [owed[i]];
      var other := entries[i];
      if i == self || !other.listed {
        continue;
      }
      if other.size <= 0 || other.publishedAt == 0 {
        continue;
      }
      if other.size - other.pulled > 0 {
        total := total + (other.size - other.pulled);
      }
    }
    assert owed[..|entries|] == owed;
  }

  datatype Step =
    | Add(size: nat, pulled: nat, onDisk: nat)   // a job appears, possibly with a partial file
    | Publish(i: nat)                            // pull sets LocalPath and SourceSize
    | Look(i: nat)                               // os.Stat of the local file
    | Reserve(i: nat)                            // pendingLocalBytes
    | Probe(i: nat)                              // free-space probe and verdict
    | Remove(i: nat, ok: bool)                   // pullArchive removes a file that is too long
    | Write(i: nat, n: nat)                      // pullArchive appends n bytes
    | Report(i: nat, pulled: nat)                // progress callback
    | Interrupt(i: nat)                          // transfer broke; the job will retry
    | Discard(i: nat)                            // discardLocalCopy, always on the way to a fatal error
    | Finish(i: nat)                             // pulled completely; listed until the job is terminal
    | Exit(i: nat)                               // the job is terminal and its pull has stopped
    | Unlist(i: nat)                             // cancelled or replaced: no longer listed, its pull goes on
    | FreeUp(n: nat)                             // someone deletes other files

  function Put(s: State, i: nat, e: Entry): State
    requires i < |s.entries|
  {
    s.(entries := s.entries[i := e], clock := s.clock + 1)
  }

  predicate AtStage(s: State, i: nat, waiting: bool, measured: bool, writing: bool) {
    i < |s.entries| && match s.entries[i].stage
      case Waiting => waiting
      case Measured => measured
      case Writing(_) => writing
      case _ => false
  }

  function Apply(s: State, step: Step): Option<State>
  {
    match step
    case Add(size, pulled, onDisk) =>
      Some(s.(entries := s.entries + [Entry(true, 0, size, pulled, onDisk, Waiting)], clock := s.clock + 1))
    case Publish(i) =>
      if !AtStage(s, i, true, false, false) then None else
      var e := s.entries[i];
      Some(Put(s, i, e.(stage := Measured, publishedAt := if e.publishedAt > 0 then e.publishedAt else s.clock + 1)))
    case Look(i) =>
      if !AtStage(s, i, false, true, false) then None else
      var e := s.entries[i];
      if e.size - e.onDisk > 0 then Some(Put(s, i, e.(stage := Looked(e.onDisk))))
      else if e.size == e.onDisk then Some(Put(s, i, e.(stage := Writing(true))))
      else Some(Put(s, i, e.(stage := Skipped)))
    case Reserve(i) =>
      if !(i < |s.entries| && s.entries[i].stage.Looked?) then None else
      var e := s.entries[i];
      Some(Put(s, i, e.(stage := Reserved(e.stage.existing, Sum(OwedByOthers(s.entries, i)), s.clock + 1, Uncounted(s, i) - s.unasked))))
    case Probe(i) =>
      if !(i < |s.entries| && s.entries[i].stage.Reserved?) then None else
      var e := s.entries[i];
      var v := AdmissionCheck(e.size, e.stage.seen, e.stage.reserved, s.free);
      if !v.check.ok then Some(Put(s, i, e.(stage := Waiting))) else
      Some(Put(s, i, e.(stage := Writing(false))).(lastAdmitted := if e.stage.at > s.lastAdmitted then e.stage.at else s.lastAdmitted))
    case Remove(i, ok) =>
      if !(i < |s.entries| && s.entries[i].stage.Skipped?) then None else
      var e := s.entries[i];
      // A removal that fails is ignored, and the whole source is appended behind what is there.
      Some(Put(s, i, e.(stage := Writing(true), onDisk := 0)).(free := if ok then s.free + e.onDisk else s.free, unasked := s.unasked + e.size))
    case Write(i, n) =>
      if !(AtStage(s, i, false, false, true) && s.entries[i].onDisk + n <= s.entries[i].size) then None else
      Some(Put(s, i, s.entries[i].(onDisk := s.entries[i].onDisk + n)).(free := s.free - n))
    case Report(i, pulled) =>
      if !(AtStage(s, i, false, false, true) && pulled <= s.entries[i].onDisk) then None else
      Some(Put(s, i, s.entries[i].(pulled := pulled)))
    case Interrupt(i) =>
      if !AtStage(s, i, false, false, true) then None else
      Some(Put(s, i, s.entries[i].(stage := Waiting, pulled := s.entries[i].onDisk)))
    case Discard(i) =>
      if !AtStage(s, i, false, false, true) then None else
      Some(Put(s, i, s.entries[i].(stage := Leaving, pulled := 0, onDisk := 0)).(free := s.free + s.entries[i].onDisk))
    case Finish(i) =>
      if !(AtStage(s, i, false, false, true) && s.entries[i].onDisk == s.entries[i].size) then None else
      Some(Put(s, i, s.entries[i].(stage := Waiting, pulled := s.entries[i].size)))
    case Exit(i) =>
      if i >= |s.entries| || s.entries[i].stage.Gone? then None else
      Some(Put(s, i, s.entries[i].(stage := Gone, listed := false)))
    case Unlist(i) =>
      if i >= |s.entries| || !s.entries[i].listed then None else
      Some(Put(s, i, s.entries[i].(listed := false)))
    case FreeUp(n) =>
      Some(s.(free := s.free + n, clock := s.clock + 1))
  }

  // Bytes the pull of this entry may still append.
  function ToWrite(e: Entry): int {
    if e.stage.Leaving? || e.stage.Gone? || e.onDisk > e.size then 0 else e.size - e.onDisk
  }

  function AdmittedBytes(s: State): seq<int> {
    seq(|s.entries|, i requires 0 <= i < |s.entries| => if s.entries[i].stage.Writing? then ToWrite(s.entries[i]) else 0)
  }

  // What the safety property says: everything the admitted pulls still append fits.
  predicate NoOvercommit(s: State) {
    Sum(AdmittedBytes(s)) <= s.free
  }

  // An entry that a reservation read at time t may know of, or that writes without having asked.
  predicate Concerns(e: Entry, t: nat) {
    0 < e.publishedAt < t || e.stage == Writing(true)
  }

  // Bytes to be written by the entries that concern a reservation read at time t, leaving out `self`.
  function Concerning(s: State, t: nat, self: int): seq<int> {
    seq(|s.entries|, i requires 0 <= i < |s.entries| =>
      if i != self && Concerns(s.entries[i], t) then ToWrite(s.entries[i]) else 0)
  }

  // By how much what the other published jobs still write exceeds what they are counted to owe: a
  // pull that was cancelled or replaced is not counted at all, and one whose record claims bytes
  // that are no longer on disk is counted for too little.
  function Uncounted(s: State, i: nat): int {
    Sum(Concerning(s, s.clock + 1, i)) - Sum(OwedByOthers(s.entries, i))
  }

  // What has escaped a reservation by now: what was not counted then, and what pulls write that have
  // removed a file that was too long since; such a pull does not ask, and the space it gives back is
  // more than it takes, but the next probe sees the one and not the other.
  function Escaped(s: State, i: nat): int
    requires i < |s.entries| && s.entries[i].stage.Reserved?
  {
    s.entries[i].stage.base + s.unasked
  }

  // The circumstances the admission argument relies on: the volume is not at exactly zero free bytes
  // when probed (a zero reads as a failed probe and is let through), no more than `allowance` bytes
  // have escaped the reservation then, and a file that is too long can be removed.
  predicate Ordinary(s: State, step: Step, allowance: int) {
    match step
    case Probe(i) => s.free > 0 && (i < |s.entries| && s.entries[i].stage.Reserved? ==> Escaped(s, i) <= allowance)
    case Remove(_, ok) => ok
    case _ => true
  }

  // Nothing escapes while every job that still writes is listed and reports no more than it has.
  lemma NothingUncounted(s: State, i: nat)
    requires forall e <- s.entries :: (ToWrite(e) > 0 ==> e.listed && e.pulled <= e.onDisk) && (e.stage.Writing? ==> e.publishedAt > 0)
    ensures Uncounted(s, i) <= 0
  {
    var writes, owed := Concerning(s, s.clock + 1, i), OwedByOthers(s.entries, i);
    forall k | 0 <= k < |writes| ensures writes[k] <= owed[k] {
      assert s.entries[k] in s.entries;
    }
    SumMonotone(writes, owed);
  }

  // ---------- The invariant ----------

  predicate EntryOk(e: Entry, clock: nat, lastAdmitted: nat) {
    && e.publishedAt <= clock
    && (e.stage.Measured? || e.stage.Looked? || e.stage.Reserved? || e.stage.Skipped? || e.stage.Writing? ==> e.publishedAt > 0)
    && (e.stage.Skipped? ==> e.onDisk > e.size)
    && (e.stage.Writing? ==> e.onDisk <= e.size)
    && (e.stage.Looked? ==> e.stage.existing == e.onDisk < e.size)
    && (e.stage.Reserved? ==> e.stage.seen == e.onDisk < e.size && e.publishedAt < e.stage.at <= clock && e.stage.reserved >= 0)
    // the latest reservation among admitted pulls has counted this writer
    && (e.stage == Writing(false) && ToWrite(e) > 0 ==> e.publishedAt < lastAdmitted)
  }

  // A reservation and what escaped it cover everything that concerns it.
  predicate ReservationCovers(s: State, k: nat)
    requires k < |s.entries|
  {
    var e := s.entries[k];
    e.stage.Reserved? ==> Sum(Concerning(s, e.stage.at, k)) <= e.stage.reserved + Escaped(s, k)
  }

  ghost predicate Inv(s: State) {
    && s.lastAdmitted <= s.clock
    && (forall k | 0 <= k < |s.entries| :: EntryOk(s.entries[k], s.clock, s.lastAdmitted))
    && (forall k | 0 <= k < |s.entries| :: ReservationCovers(s, k))
    && 0 <= s.free
    && Sum(Concerning(s, s.lastAdmitted, -1)) <= s.free
  }

  function Weight(e: Entry, t: nat): int {
    if Concerns(e, t) then ToWrite(e) else 0
  }

  // Replacing entry i changes each covered sum by the change of that entry's weight.
  lemma PutSum(s: State, i: nat, e: Entry, t: nat, self: int)
    requires i < |s.entries|
    ensures Sum(Concerning(Put(s, i, e), t, self)) ==
              Sum(Concerning(s, t, self)) + if i == self then 0 else Weight(e, t) - Weight(s.entries[i], t)
  {
    var before, after := Concerning(s, t, self), Concerning(Put(s, i, e), t, self);
    assert after == before[i := after[i]];
    SumUpdate(before, i, after[i]);
  }

  // A change of one entry that writes `written` bytes (negative when bytes are given back) keeps
  // the invariant when it owes no more than before and the new entry is in order itself.
  lemma PutKeepsInv(s: State, i: nat, e: Entry, free: int)
    requires Inv(s) && i < |s.entries| && 0 <= free
    requires EntryOk(e, s.clock + 1, s.lastAdmitted)
    requires e.stage.Reserved? ==> ReservationCovers(Put(s, i, e), i)
    requires forall t: nat | t <= s.clock :: Weight(e, t) <= Weight(s.entries[i], t)
    requires s.free + Weight(e, s.lastAdmitted) - Weight(s.entries[i], s.lastAdmitted) <= free
    ensures Inv(Put(s, i, e).(free := free))
  {
    var s' := Put(s, i, e).(free := free);
    PutSum(s, i, e, s.lastAdmitted, -1);
    assert Concerning(s', s.lastAdmitted, -1) == Concerning(Put(s, i, e), s.lastAdmitted, -1);
    forall k | 0 <= k < |s'.entries| ensures ReservationCovers(s', k) {
      var at := s'.entries[k].stage;
      if at.Reserved? {
        assert Concerning(s', at.at, k) == Concerning(Put(s, i, e), at.at, k);
        if k != i {
          assert ReservationCovers(s, k) && s.entries[k] == s'.entries[k];
          PutSum(s, i, e, at.at, k);
        }
      }
    }
  }

  lemma AddKeepsInv(s: State, step: Step)
    requires Inv(s) && step.Add?
    ensures Inv(Apply(s, step).value)
  {
    var s' := Apply(s, step).value;
    NewcomerConcernsNobody(s, step, s.lastAdmitted, -1);
    forall k | 0 <= k < |s'.entries| ensures ReservationCovers(s', k) {
      if k < |s.entries| && s.entries[k].stage.Reserved? {
        assert ReservationCovers(s, k) && s.entries[k] == s'.entries[k];
        NewcomerConcernsNobody(s, step, s.entries[k].stage.at, k);
        hide Concerning;
      }
    }
  }

  lemma NewcomerConcernsNobody(s: State, step: Step, t: nat, self: int)
    requires step.Add?
    ensures Sum(Concerning(Apply(s, step).value, t, self)) == Sum(Concerning(s, t, self))
  {
    SumPush(Concerning(s, t, self), 0);
    assert Concerning(Apply(s, step).value, t, self) == Concerning(s, t, self) + [0];
  }

  // The value a reservation reads covers, up to what is not counted, every job that concerns it.
  lemma ReserveKeepsInv(s: State, i: nat)
    requires Inv(s) && i < |s.entries| && s.entries[i].stage.Looked?
    ensures Inv(Apply(s, Reserve(i)).value)
  {
    var e := Apply(s, Reserve(i)).value.entries[i];
    var s' := Put(s, i, e);
    var owed := OwedByOthers(s.entries, i);
    ZeroSum(|owed|);
    SumMonotone(seq(|owed|, k => 0), owed);
    assert Concerning(s', s.clock + 1, i) == Concerning(s, s.clock + 1, i);
    PutKeepsInv(s, i, e, s.free);
  }

  // Moving the covering reservation to entry i, whose own free-space reading covers the bytes it
  // counted and its own.
  lemma CoverFrom(s: State, i: nat)
    requires Inv(s) && i < |s.entries| && s.entries[i].stage.Reserved?
    requires s.entries[i].stage.at > s.lastAdmitted
    requires ToWrite(s.entries[i]) + s.entries[i].stage.reserved + Escaped(s, i) <= s.free
    ensures Inv(s.(lastAdmitted := s.entries[i].stage.at))
  {
    var e := s.entries[i];
    var s1 := s.(lastAdmitted := e.stage.at);
    var all, others := Concerning(s1, e.stage.at, -1), Concerning(s, e.stage.at, i);
    assert all == others[i := ToWrite(e)];
    SumUpdate(others, i, ToWrite(e));
    assert ReservationCovers(s, i);
    forall k | 0 <= k < |s1.entries| ensures ReservationCovers(s1, k) {
      assert ReservationCovers(s, k);
      var st := s.entries[k].stage;
      assert st.Reserved? ==> Concerning(s1, st.at, k) == Concerning(s, st.at, k);
    }
  }

  // Admission: the pull with the latest reservation carries the argument for everyone.
  lemma AdmitKeepsInv(s: State, i: nat)
    requires Inv(s) && i < |s.entries| && s.entries[i].stage.Reserved?
    requires Ordinary(s, Probe(i), SLACK_MIN)
    ensures Inv(Apply(s, Probe(i)).value)
  {
    var e := s.entries[i];
    var v := AdmissionCheck(e.size, e.stage.seen, e.stage.reserved, s.free);
    AdmissionMeans(e.size, e.stage.seen, e.stage.reserved, s.free);
    if !v.check.ok {
      PutKeepsInv(s, i, e.(stage := Waiting), s.free);
    } else if e.stage.at > s.lastAdmitted {
      CoverFrom(s, i);
      PutKeepsInv(s.(lastAdmitted := e.stage.at), i, e.(stage := Writing(false)), s.free);
    } else {
      PutKeepsInv(s, i, e.(stage := Writing(false)), s.free);
    }
  }

  // A writer's remaining bytes are part of the covered sum, so they fit.
  lemma WriterFits(s: State, i: nat)
    requires Inv(s) && i < |s.entries| && s.entries[i].stage.Writing?
    ensures ToWrite(s.entries[i]) <= s.free
  {
    var ws := Concerning(s, s.lastAdmitted, -1);
    assert EntryOk(s.entries[i], s.clock, s.lastAdmitted);
    if ToWrite(s.entries[i]) > 0 {
      assert ws[i] == ToWrite(s.entries[i]);
      EntryBelowSum(ws, i);
    }
  }

  lemma FreeUpKeepsInv(s: State, n: nat)
    requires Inv(s)
    ensures Inv(Apply(s, FreeUp(n)).value)
  {
    var s' := Apply(s, FreeUp(n)).value;
    assert Concerning(s', s.lastAdmitted, -1) == Concerning(s, s.lastAdmitted, -1);
    forall k | 0 <= k < |s'.entries| ensures ReservationCovers(s', k) {
      assert ReservationCovers(s, k);
      assert s.entries[k].stage.Reserved? ==>
        Concerning(s', s.entries[k].stage.at, k) == Concerning(s, s.entries[k].stage.at, k);
    }
  }

  lemma WriteKeepsInv(s: State, i: nat, n: nat)
    requires Inv(s) && Apply(s, Write(i, n)).Some?
    ensures Inv(Apply(s, Write(i, n)).value)
  {
    WriterFits(s, i);
    var s' := Apply(s, Write(i, n)).value;
    PutKeepsInv(s, i, s'.entries[i], s'.free);
  }

  // Removing a file that is too long gives back more than the pull takes.
  lemma RemoveKeepsInv(s: State, i: nat)
    requires Inv(s) && Apply(s, Remove(i, true)).Some?
    ensures Inv(Apply(s, Remove(i, true)).value)
  {
    var s' := Apply(s, Remove(i, true)).value;
    var e' := s'.entries[i];
    PutSum(s, i, e', s.lastAdmitted, -1);
    assert Concerning(s', s.lastAdmitted, -1) == Concerning(Put(s, i, e'), s.lastAdmitted, -1);
    forall k | 0 <= k < |s'.entries| ensures ReservationCovers(s', k) {
      if s'.entries[k].stage.Reserved? {
        var at := s'.entries[k].stage.at;
        assert ReservationCovers(s, k);
        PutSum(s, i, e', at, k);
        assert Concerning(s', at, k) == Concerning(Put(s, i, e'), at, k);
      }
    }
  }

  // Steps before admission and after writing.
  lemma OwnStepKeepsInv(s: State, step: Step)
    requires Inv(s) && Apply(s, step).Some?
    requires step.Publish? || step.Look? || step.Report? || step.Interrupt? || step.Discard? || step.Finish? || step.Exit? || step.Unlist?
    ensures Inv(Apply(s, step).value)
  {
    var s' := Apply(s, step).value;
    if step.Unlist? && s.entries[step.i].stage.Reserved? {
      assert ReservationCovers(s, step.i);
      PutSum(s, step.i, s'.entries[step.i], s.entries[step.i].stage.at, step.i);
    }
    PutKeepsInv(s, step.i, s'.entries[step.i], s'.free);
  }

  lemma StepKeepsInv(s: State, step: Step)
    requires Inv(s) && Ordinary(s, step, SLACK_MIN) && Apply(s, step).Some?
    ensures Inv(Apply(s, step).value)
  {
    match step
    case Add(_, _, _) => AddKeepsInv(s, step);
    case Reserve(i) => ReserveKeepsInv(s, i);
    case Probe(i) => AdmitKeepsInv(s, i);
    case Remove(i, _) => RemoveKeepsInv(s, i);
    case FreeUp(n) => FreeUpKeepsInv(s, n);
    case Write(i, n) => WriteKeepsInv(s, i, n);
    case _ => OwnStepKeepsInv(s, step);
  }

  lemma InvMeansNoOvercommit(s: State)
    requires Inv(s)
    ensures NoOvercommit(s)
  {
    SumMonotone(AdmittedBytes(s), Concerning(s, s.lastAdmitted, -1));
  }

  // The exact condition for a probe: of all the admissions it may decide on, those at exactly zero
  // free bytes are the ones that overcommit.
  lemma ProbeIsSafeIff(s: State, i: nat)
    requires Inv(s) && i < |s.entries| && s.entries[i].stage.Reserved? && Escaped(s, i) <= SLACK_MIN
    ensures NoOvercommit(Apply(s, Probe(i)).value) <==> s.free > 0
  {
    var s' := Apply(s, Probe(i)).value;
    if s.free > 0 {
      AdmitKeepsInv(s, i);
      InvMeansNoOvercommit(s');
    } else {
      var ws := AdmittedBytes(s');
      assert s'.entries[i].stage.Writing? && ws[i] == ToWrite(s.entries[i]) > 0;
      forall k | 0 <= k < |ws| ensures 0 <= ws[k] {
      }
      EntryBelowSum(ws, i);
    }
  }

  // ---------- Whole runs ----------

  // The states of a run from `s`; the run stops at the first impossible step.
  function Execute(s: State, steps: seq<Step>): Option<State>
    decreases |steps|
  {
    if steps == [] then Some(s) else
    match Apply(s, steps[0])
    case None => None
    case Some(next) => Execute(next, steps[1..])
  }

  ghost predicate OrdinaryRun(s: State, steps: seq<Step>, allowance: int)
    decreases |steps|
  {
    steps == [] || (Ordinary(s, steps[0], allowance)
                     && (Apply(s, steps[0]).Some? ==> OrdinaryRun(Apply(s, steps[0]).value, steps[1..], allowance)))
  }

  function Start(free: nat): State {
    State([], free, 0, 0, 0)
  }

  lemma {:induction false} RunKeepsInv(s: State, steps: seq<Step>)
    requires Inv(s) && OrdinaryRun(s, steps, SLACK_MIN) && Execute(s, steps).Some?
    ensures Inv(Execute(s, steps).value)
    decreases |steps|
  {
    if steps != [] {
      StepKeepsInv(s, steps[0]);
      RunKeepsInv(Apply(s, steps[0]).value, steps[1..]);
    }
  }

  // Main result: however many pulls interleave, and although up to 64 MiB of what they still write may
  // have escaped each admission, the bytes all admitted pulls still append fit the free space, and hence no
  // admitted pull runs out of space.
  lemma NoDiskOvercommit(free: nat, steps: seq<Step>)
    requires OrdinaryRun(Start(free), steps, SLACK_MIN) && Execute(Start(free), steps).Some?
    ensures var s := Execute(Start(free), steps).value;
            && NoOvercommit(s)
            && forall i | 0 <= i < |s.entries| && s.entries[i].stage.Writing? :: ToWrite(s.entries[i]) <= s.free
  {
    var s0 := Start(free);
    assert Concerning(s0, 0, -1) == [];
    RunKeepsInv(s0, steps);
    var s := Execute(s0, steps).value;
    InvMeansNoOvercommit(s);
    forall i | 0 <= i < |s.entries| && s.entries[i].stage.Writing? ensures ToWrite(s.entries[i]) <= s.free {
      WriterFits(s, i);
    }
  }

  // ---------- What a pull gets ----------

  // An entry whose record is what is on disk, and no more than the source.
  predicate Honest(e: Entry) { e.pulled == e.onDisk && (e.listed && e.publishedAt > 0 ==> e.onDisk <= e.size) }

  // What the others of a directory still have to put on disk.
  function MissingOfOthers(s: State, i: nat): seq<int> {
    seq(|s.entries|, k requires 0 <= k < |s.entries| =>
      if k != i && s.entries[k].listed && s.entries[k].publishedAt > 0 then s.entries[k].size - s.entries[k].onDisk else 0)
  }

  // With honest records a reservation is exactly the bytes the other listed jobs lack, none counted twice.
  lemma ReservationIsExact(s: State, i: nat)
    requires i < |s.entries| && s.entries[i].stage.Looked? && forall e <- s.entries :: Honest(e)
    ensures var e := Apply(s, Reserve(i)).value.entries[i];
            e.stage.Reserved? && e.stage.seen == s.entries[i].stage.existing && e.stage.reserved == Sum(MissingOfOthers(s, i))
  {
    var owed, missing := OwedByOthers(s.entries, i), MissingOfOthers(s, i);
    forall k | 0 <= k < |owed| ensures owed[k] == missing[k] {
      assert s.entries[k] in s.entries;
    }
    assert owed == missing;
  }

  // The four looks of a pull with nobody in between: what they make of its entry.
  function Looks(i: nat): seq<Step> { [Publish(i), Look(i), Reserve(i), Probe(i)] }

  // A job that lacks something starts to write exactly if the free space covers what it lacks, the slack
  // and what the others lack; otherwise it waits again. Nobody else's entry changes.
  lemma PullIsLetInIff(s: State, i: nat)
    requires i < |s.entries| && s.entries[i].stage.Waiting? && s.entries[i].onDisk < s.entries[i].size && s.free > 0
    requires forall e <- s.entries :: Honest(e)
    ensures Execute(s, Looks(i)).Some?
    ensures var (e, s') := (s.entries[i], Execute(s, Looks(i)).value);
            var (lacks, others) := (e.size - e.onDisk, Sum(MissingOfOthers(s, i)));
            && |s'.entries| == |s.entries| && (forall k | 0 <= k < |s.entries| && k != i :: s'.entries[k] == s.entries[k])
            && s'.free == s.free && s'.entries[i].onDisk == e.onDisk && s'.entries[i].publishedAt > 0
            && (s'.entries[i].stage == Writing(false) <==>
                  s.free >= lacks + 67_108_864 + others && 20 * (s.free - lacks - others) > lacks - 20)
            && (s'.entries[i].stage == Writing(false) || s'.entries[i].stage == Waiting)
  {
    var e := s.entries[i];
    var s1, s2, s3 := LooksUntilReserved(s, i);
    ProbeDecides(s3, i);
    hide Apply, Execute, AdmissionCheck, MissingOfOthers, Honest;
    ExecuteFour(s, Publish(i), s1, Look(i), s2, Reserve(i), s3, Probe(i), Apply(s3, Probe(i)).value);
  }

  lemma LooksUntilReserved(s: State, i: nat) returns (s1: State, s2: State, s3: State)
    requires i < |s.entries| && s.entries[i].stage.Waiting? && s.entries[i].onDisk < s.entries[i].size
    requires forall e <- s.entries :: Honest(e)
    ensures Apply(s, Publish(i)) == Some(s1) && Apply(s1, Look(i)) == Some(s2) && Apply(s2, Reserve(i)) == Some(s3)
    ensures |s3.entries| == |s.entries| && (forall k | 0 <= k < |s.entries| && k != i :: s3.entries[k] == s.entries[k]) && s3.free == s.free
    ensures var (e, e') := (s.entries[i], s3.entries[i]);
            && e'.onDisk == e.onDisk && e'.size == e.size && e'.publishedAt > 0 && e'.stage.Reserved?
            && e'.stage.seen == e.onDisk && e'.stage.reserved == Sum(MissingOfOthers(s, i)) >= 0
  {
    var e := s.entries[i];
    var published := e.(stage := Measured, publishedAt := if e.publishedAt > 0 then e.publishedAt else s.clock + 1);
    s1 := Put(s, i, published);
    s2 := Put(s1, i, published.(stage := Looked(e.onDisk)));
    OthersOwe(s2, s, i);
    hide MissingOfOthers, OwedByOthers, Uncounted;
    s3 := Apply(s2, Reserve(i)).value;
  }

  lemma ProbeDecides(s: State, i: nat)
    requires i < |s.entries| && s.entries[i].stage.Reserved? && s.entries[i].stage.seen < s.entries[i].size
    requires s.free > 0 && s.entries[i].stage.reserved >= 0
    ensures Apply(s, Probe(i)).Some?
    ensures var (e, s') := (s.entries[i], Apply(s, Probe(i)).value);
            var (lacks, others) := (e.size - e.stage.seen, e.stage.reserved);
            && |s'.entries| == |s.entries| && (forall k | 0 <= k < |s.entries| && k != i :: s'.entries[k] == s.entries[k]) && s'.free == s.free
            && s'.entries[i] == e.(stage := s'.entries[i].stage)
            && s'.entries[i].stage == (if s.free >= lacks + 67_108_864 + others && 20 * (s.free - lacks - others) > lacks - 20
                                       then Writing(false) else Waiting)
  {
    AdmittedIff(s.entries[i].size, s.entries[i].stage.seen, s.entries[i].stage.reserved, s.free);
    hide AdmissionCheck;
  }

  lemma ExecuteFour(s: State, a: Step, s1: State, b: Step, s2: State, c: Step, s3: State, d: Step, s4: State)
    requires Apply(s, a) == Some(s1) && Apply(s1, b) == Some(s2) && Apply(s2, c) == Some(s3) && Apply(s3, d) == Some(s4)
    ensures Execute(s, [a, b, c, d]) == Some(s4)
  {
    hide Apply;
    assert [a, b, c, d][1..] == [b, c, d] && [b, c, d][1..] == [c, d] && [c, d][1..] == [d] && [d][1..] == [];
    assert Execute(s4, []) == Some(s4) && Execute(s3, [d]) == Some(s4);
    assert Execute(s2, [c, d]) == Some(s4);
    assert Execute(s1, [b, c, d]) == Some(s4);
  }

  lemma OthersOwe(s: State, s0: State, i: nat)
    requires |s.entries| == |s0.entries| && forall k | 0 <= k < |s.entries| && k != i :: s.entries[k] == s0.entries[k]
    requires i < |s.entries| && forall e <- s0.entries :: Honest(e)
    ensures Sum(OwedByOthers(s.entries, i)) == Sum(MissingOfOthers(s0, i)) && Sum(MissingOfOthers(s0, i)) >= 0
  {
    var owed, missing := OwedByOthers(s.entries, i), MissingOfOthers(s0, i);
    forall k | 0 <= k < |owed| ensures owed[k] == missing[k] {
      assert s0.entries[k] in s0.entries;
    }
    assert owed == missing;
    ZeroSum(|owed|);
    SumMonotone(seq(|owed|, k => 0), owed);
  }

  // A job that lacks nothing is not asked for space, and a file that is too long is removed first.
  lemma WhoIsNotAsked(s: State, i: nat)
    requires i < |s.entries| && s.entries[i].stage.Measured?
    ensures var e := Apply(s, Look(i)).value.entries[i];
            && (e.stage == Writing(true) <==> e.onDisk == e.size) && (e.stage == Skipped <==> e.onDisk > e.size)
            && (e.stage.Looked? <==> e.onDisk < e.size)
            && (e.stage == Skipped ==> Apply(Apply(s, Look(i)).value, Remove(i, true)).Some?)
  {
  }

  // A job that has ended or is no longer listed is counted for nothing, whatever it still writes.
  lemma WhoIsNotCounted(s: State, step: Step)
    requires (step.Exit? || step.Unlist?) && Apply(s, step).Some?
    ensures var e' := Apply(s, step).value.entries[step.i]; Owed(e') == 0 && !e'.listed && e'.onDisk == s.entries[step.i].onDisk
    ensures step.Unlist? ==> Apply(s, step).value.entries[step.i].stage == s.entries[step.i].stage
    ensures step.Exit? ==> ToWrite(Apply(s, step).value.entries[step.i]) == 0
  {
  }

  // ---------- No byte is unaccounted for ----------

  function OnDisk(s: State): seq<int> { seq(|s.entries|, k requires 0 <= k < |s.entries| => s.entries[k].onDisk) }

  // What others free, a file that was there before, and one that stays although its removal was tried.
  function Unexplained(s: State, step: Step): int {
    match step
    case FreeUp(n) => n
    case Add(_, _, onDisk) => onDisk
    case Remove(i, ok) => if ok || i >= |s.entries| then 0 else 0 - (s.entries[i].onDisk as int)
    case _ => 0
  }

  // But for that, free bytes and those of the copies add up to the same.
  lemma BytesAreConserved(s: State, step: Step)
    requires Apply(s, step).Some?
    ensures var s' := Apply(s, step).value; s'.free + Sum(OnDisk(s')) == s.free + Sum(OnDisk(s)) + Unexplained(s, step)
  {
    var s' := Apply(s, step).value;
    match step
    case Add(_, _, onDisk) =>
      SumPush(OnDisk(s), onDisk);
      assert OnDisk(s') == OnDisk(s) + [onDisk];
    case FreeUp(_) => assert OnDisk(s') == OnDisk(s);
    case _ =>
      SumUpdate(OnDisk(s), step.i, s'.entries[step.i].onDisk);
      assert OnDisk(s') == OnDisk(s)[step.i := s'.entries[step.i].onDisk];
  }

  // When a pull ends, whichever way, the record is what is on disk; it is the whole source after a
  // finished one and nothing after a discard.
  lemma RecordAgreesAtTheEnd(s: State, step: Step)
    requires (step.Interrupt? || step.Finish? || step.Discard?) && Apply(s, step).Some?
    ensures var (e, e') := (s.entries[step.i], Apply(s, step).value.entries[step.i]);
            && e'.pulled == e'.onDisk && e'.size == e.size && e'.listed == e.listed && !e'.stage.Writing?
            && e'.onDisk == (if step.Discard? then 0 else e.onDisk) && (step.Finish? ==> e'.pulled == e.size)
  {
  }

  // ---------- Why each circumstance is needed ----------

  // One step more; `h` is the allowance the run has been ordinary with, if it has been.
  lemma {:induction false} Then(s0: State, steps: seq<Step>, step: Step, s: State, h: int) returns (longer: seq<Step>)
    requires Execute(s0, steps).Some? && Apply(Execute(s0, steps).value, step).Some?
    requires Apply(Execute(s0, steps).value, step).value.entries == s.entries
    requires Apply(Execute(s0, steps).value, step).value.(entries := s.entries) == s
    ensures longer == steps + [step] && Execute(s0, longer) == Some(s)
    ensures OrdinaryRun(s0, steps, h) && Ordinary(Execute(s0, steps).value, step, h) ==> OrdinaryRun(s0, longer, h)
    decreases |steps|
  {
    longer := steps + [step];
    if steps != [] {
      var rest := Then(Apply(s0, steps[0]).value, steps[1..], step, s, h);
      assert longer[1..] == rest;
    } else {
      assert longer[1..] == [];
    }
  }

  // The first pull publishes, looks, reserves and is admitted, alone on the disk.
  lemma ReserveFirst(free: nat, size: nat, pulled: nat, h: int) returns (steps: seq<Step>)
    requires 0 < size
    ensures Execute(Start(free), steps) == Some(State([Entry(true, 2, size, pulled, 0, Reserved(0, 0, 4, 0))], free, 4, 0, 0))
    ensures OrdinaryRun(Start(free), steps, h)
  {
    var s0 := Start(free);
    var e := Entry(true, 0, size, pulled, 0, Waiting);
    steps := Then(s0, [], Add(size, pulled, 0), State([e], free, 1, 0, 0), h);
    e := e.(stage := Measured, publishedAt := 2);
    steps := Then(s0, steps, Publish(0), State([e], free, 2, 0, 0), h);
    var looked := State([e.(stage := Looked(0))], free, 3, 0, 0);
    steps := Then(s0, steps, Look(0), looked, h);
    SumPush([], 0);
    assert OwedByOthers(looked.entries, 0) == [] + [0] && Concerning(looked, 4, 0) == [] + [0];
    steps := Then(s0, steps, Reserve(0), State([e.(stage := Reserved(0, 0, 4, 0))], free, 4, 0, 0), h);
  }

  lemma AdmitFirst(free: nat, size: nat, pulled: nat, h: int) returns (steps: seq<Step>)
    requires 0 < size && (free == 0 || free >= DiskNeed(size)) && h >= 0
    ensures Execute(Start(free), steps) == Some(State([Entry(true, 2, size, pulled, 0, Writing(false))], free, 5, 4, 0))
    ensures free > 0 ==> OrdinaryRun(Start(free), steps, h)
  {
    steps := ReserveFirst(free, size, pulled, h);
    hide Execute, OrdinaryRun;
    steps := Then(Start(free), steps, Probe(0), State([Entry(true, 2, size, pulled, 0, Writing(false))], free, 5, 4, 0), h);
  }

  // A volume with exactly zero free bytes reads as a failed probe: the pull is admitted.
  lemma ZeroFreeIsAdmitted() returns (steps: seq<Step>)
    ensures Execute(Start(0), steps).Some? && !NoOvercommit(Execute(Start(0), steps).value)
  {
    steps := AdmitFirst(0, 1, 0, 0);
    SumPush([], 1);
    assert AdmittedBytes(Execute(Start(0), steps).value) == [] + [1];
  }

  // A file that is too long and cannot be removed: the pull appends to it without having asked.
  lemma FailedRemovalOvercommits() returns (steps: seq<Step>)
    ensures Execute(Start(0), steps).Some? && !NoOvercommit(Execute(Start(0), steps).value)
  {
    var s0 := Start(0);
    var e := Entry(true, 0, 1, 0, 2, Waiting);
    steps := Then(s0, [], Add(1, 0, 2), State([e], 0, 1, 0, 0), 0);
    e := e.(stage := Measured, publishedAt := 2);
    steps := Then(s0, steps, Publish(0), State([e], 0, 2, 0, 0), 0);
    steps := Then(s0, steps, Look(0), State([e.(stage := Skipped)], 0, 3, 0, 0), 0);
    steps := Then(s0, steps, Remove(0, false), State([e.(stage := Writing(true), onDisk := 0)], 0, 4, 0, 1), 0);
    SumPush([], 1);
    assert AdmittedBytes(Execute(s0, steps).value) == [] + [1];
  }

  // One byte more than the slack, and a volume that has just enough for one such file.
  const ONE_OVER: nat := SLACK_MIN + 1
  const ROOM: nat := SLACK_MIN + ONE_OVER

  // A job whose record claims bytes that a cleanup has removed is not counted by the next one.
  lemma StaleProgressOvercommits(h: int) returns (steps: seq<Step>)
    requires h > SLACK_MIN
    ensures OrdinaryRun(Start(ROOM), steps, h) && Execute(Start(ROOM), steps).Some?
    ensures !NoOvercommit(Execute(Start(ROOM), steps).value)
  {
    steps := AdmitFirst(ROOM, ONE_OVER, ONE_OVER, h);
    steps := AdmitSecond(steps, Entry(true, 2, ONE_OVER, ONE_OVER, 0, Writing(false)), 5, h);
  }

  // A pull that is cancelled or replaced is no longer listed, but it goes on writing: the next one
  // does not count it.
  lemma UnlistedWriterOvercommits(h: int) returns (steps: seq<Step>)
    requires h > SLACK_MIN
    ensures OrdinaryRun(Start(ROOM), steps, h) && Execute(Start(ROOM), steps).Some?
    ensures !NoOvercommit(Execute(Start(ROOM), steps).value)
  {
    steps := AdmitFirst(ROOM, ONE_OVER, 0, h);
    var first := Entry(false, 2, ONE_OVER, 0, 0, Writing(false));
    steps := Then(Start(ROOM), steps, Unlist(0), State([first], ROOM, 6, 4, 0), h);
    steps := AdmitSecond(steps, first, 6, h);
  }

  // A second job of the same size is admitted beside one whose bytes nobody counts.
  lemma AdmitSecond(before: seq<Step>, first: Entry, clock: nat, h: int) returns (steps: seq<Step>)
    requires clock >= 5 && h > SLACK_MIN && OrdinaryRun(Start(ROOM), before, h)
    requires Execute(Start(ROOM), before) == Some(State([first], ROOM, clock, 4, 0)) && Owed(first) == 0
    requires first.stage.Writing? && first.publishedAt == 2 && ToWrite(first) == ONE_OVER
    ensures OrdinaryRun(Start(ROOM), steps, h) && Execute(Start(ROOM), steps).Some?
    ensures !NoOvercommit(Execute(Start(ROOM), steps).value)
  {
    var s0 := Start(ROOM);
    var e := Entry(true, 0, ONE_OVER, 0, 0, Waiting);
    steps := Then(s0, before, Add(ONE_OVER, 0, 0), State([first, e], ROOM, clock + 1, 4, 0), h);
    e := e.(stage := Measured, publishedAt := clock + 2);
    steps := Then(s0, steps, Publish(1), State([first, e], ROOM, clock + 2, 4, 0), h);
    var looked := State([first, e.(stage := Looked(0))], ROOM, clock + 3, 4, 0);
    steps := Then(s0, steps, Look(1), looked, h);
    OneUncounted(looked);
    steps := Then(s0, steps, Reserve(1), State([first, e.(stage := Reserved(0, 0, clock + 4, ONE_OVER))], ROOM, clock + 4, 4, 0), h);
    steps := Then(s0, steps, Probe(1), State([first, e.(stage := Writing(false))], ROOM, clock + 5, clock + 4, 0), h);
    SumOfTwo(ONE_OVER, ONE_OVER);
    assert AdmittedBytes(Execute(s0, steps).value) == [ONE_OVER, ONE_OVER];
  }

  lemma OneUncounted(s: State)
    requires |s.entries| == 2 && Owed(s.entries[0]) == 0 && 0 < s.entries[0].publishedAt <= s.clock && ToWrite(s.entries[0]) == ONE_OVER
    ensures Sum(OwedByOthers(s.entries, 1)) == 0 && Uncounted(s, 1) == ONE_OVER
  {
    SumOfTwo(0, 0);
    SumOfTwo(ONE_OVER, 0);
    assert OwedByOthers(s.entries, 1) == [0, 0] && Concerning(s, s.clock + 1, 1) == [ONE_OVER, 0];
  }

  lemma SumOfTwo(a: int, b: int)
    ensures Sum([a, b]) == a + b
  {
    SumPush([], a);
    SumPush([a], b);
    assert [a, b] == [a] + [b] && [a] == [] + [a];
  }

  // A file longer than the source skips the check; the space that its removal frees is granted to a
  // pull that had read its reservation before.
  lemma OversizedCopyOvercommits(h: int) returns (steps: seq<Step>)
    requires h > SLACK_MIN
    ensures OrdinaryRun(Start(0), steps, h) && Execute(Start(0), steps).Some?
    ensures !NoOvercommit(Execute(Start(0), steps).value)
  {
    var s0, found := Start(0), ONE_OVER + 1;
    var a, b := Entry(true, 3, 2, 0, 0, Reserved(0, 0, 5, 0)), Entry(true, 0, ONE_OVER, 0, found, Waiting);
    steps := ReserveBesideWaiting(h);
    b := b.(stage := Measured, publishedAt := 6);
    steps := Then(s0, steps, Publish(1), State([a, b], 0, 6, 0, 0), h);
    steps := Then(s0, steps, Look(1), State([a, b.(stage := Skipped)], 0, 7, 0, 0), h);
    b := b.(stage := Writing(true), onDisk := 0);
    steps := Then(s0, steps, Remove(1, true), State([a, b], found, 8, 0, ONE_OVER), h);
    steps := Then(s0, steps, Probe(0), State([a.(stage := Writing(false)), b], found, 9, 5, ONE_OVER), h);
    SumOfTwo(2, ONE_OVER);
    assert AdmittedBytes(Execute(s0, steps).value) == [2, ONE_OVER];
  }

  // Two jobs on a full disk: the first has read its reservation before the second publishes.
  lemma ReserveBesideWaiting(h: int) returns (steps: seq<Step>)
    ensures OrdinaryRun(Start(0), steps, h)
    ensures Execute(Start(0), steps) ==
              Some(State([Entry(true, 3, 2, 0, 0, Reserved(0, 0, 5, 0)), Entry(true, 0, ONE_OVER, 0, ONE_OVER + 1, Waiting)], 0, 5, 0, 0))
  {
    var s0 := Start(0);
    var a, b := Entry(true, 0, 2, 0, 0, Waiting), Entry(true, 0, ONE_OVER, 0, ONE_OVER + 1, Waiting);
    steps := Then(s0, [], Add(2, 0, 0), State([a], 0, 1, 0, 0), h);
    steps := Then(s0, steps, Add(ONE_OVER, 0, ONE_OVER + 1), State([a, b], 0, 2, 0, 0), h);
    a := a.(stage := Measured, publishedAt := 3);
    steps := Then(s0, steps, Publish(0), State([a, b], 0, 3, 0, 0), h);
    a := a.(stage := Looked(0));
    steps := Then(s0, steps, Look(0), State([a, b], 0, 4, 0, 0), h);
    SumOfTwo(0, 0);
    assert OwedByOthers([a, b], 0) == [0, 0] && Concerning(State([a, b], 0, 4, 0, 0), 5, 0) == [0, 0];
    steps := Then(s0, steps, Reserve(0), State([a.(stage := Reserved(0, 0, 5, 0)), b], 0, 5, 0, 0), h);
  }

  // No run that is ordinary with this allowance ever overcommits the disk.
  ghost predicate SafeWithin(h: int) {
    forall free: nat, steps | OrdinaryRun(Start(free), steps, h) && Execute(Start(free), steps).Some? ::
      NoOvercommit(Execute(Start(free), steps).value)
  }

  lemma {:induction false} SmallerAllowance(s: State, steps: seq<Step>, h: int)
    requires OrdinaryRun(s, steps, h) && h <= SLACK_MIN
    ensures OrdinaryRun(s, steps, SLACK_MIN)
    decreases |steps|
  {
    if steps != [] && Apply(s, steps[0]).Some? {
      SmallerAllowance(Apply(s, steps[0]).value, steps[1..], h);
    }
  }

  // The slack of 64 MiB is exactly what may escape: one byte more, by a pull that is no longer listed,
  // by a record that claims too much or by a file that is too long, and some run overcommits.
  lemma SafeWithinIff(h: int)
    ensures SafeWithin(h) <==> h <= SLACK_MIN
  {
    if h <= SLACK_MIN {
      forall free: nat, steps | OrdinaryRun(Start(free), steps, h) && Execute(Start(free), steps).Some?
        ensures NoOvercommit(Execute(Start(free), steps).value)
      {
        SmallerAllowance(Start(free), steps, h);
        NoDiskOvercommit(free, steps);
      }
    } else {
      var steps := UnlistedWriterOvercommits(h);
    }
  }
}
