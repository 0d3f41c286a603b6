/**
  The resumable pull of the archive from the node, with its streaming digest.

  The remote session is a script of reads, any of which may be short, late or last; the digest is
  an arbitrary streaming hash.
*/
module ArchivePull {
  import opened Bytes
  import opened LetterCase

  // ---------- Streaming hashes ----------

  datatype Hash<!S> = Hash(init: S, absorb: (S, Byte) -> S, finish: S -> string)

  function Absorbed<S>(h: Hash<S>, state: S, bytes: seq<Byte>): S {
    if bytes == [] then state
    else h.absorb(Absorbed(h, state, bytes[..|bytes| - 1]), bytes[|bytes| - 1])
  }

  // The digest of a whole file.
  function Digest<S>(h: Hash<S>, bytes: seq<Byte>): string {
    h.finish(Absorbed(h, h.init, bytes))
  }

  // Hashing piecewise is hashing the concatenation.
  lemma {:induction false} AbsorbedInPieces<S>(h: Hash<S>, state: S, a: seq<Byte>, b: seq<Byte>)
    ensures Absorbed(h, Absorbed(h, state, a), b) == Absorbed(h, state, a + b)
  {
    if b == [] {
      assert a + b == a;
    } else {
      AbsorbedInPieces(h, state, a, b[..|b| - 1]);
      assert (a + b)[..|a + b| - 1] == a + b[..|b| - 1];
    }
  }

  class Hasher<!S> {
    const hash: Hash<S>
    var state: S
    ghost var absorbed: seq<Byte>

    ghost predicate Valid()
      reads this
    {
      state == Absorbed(hash, hash.init, absorbed)
    }

    constructor (hash: Hash<S>)
      ensures Valid() && absorbed == [] && this.hash == hash
    {
      this.hash, state, absorbed := hash, hash.init, [];
    }

    method Write(bytes: seq<Byte>)
      requires Valid()
      modifies this
      ensures Valid() && absorbed == old(absorbed) + bytes
    {
      AbsorbedInPieces(hash, hash.init, absorbed, bytes);
      state := Absorbed(hash, state, bytes);
      absorbed := absorbed + bytes;
    }

    method Sum() returns (digest: string)
      requires Valid()
      ensures digest == Digest(hash, absorbed)
    {
      digest := hash.finish(state);
    }
  }

  // ---------- Where to start, and what to ask the node for ----------

  datatype PullStart = PullStart(offset: int, discard: bool, complete: bool)

  function ResolvePullStart(localSize: nat, remoteSize: int): (s: PullStart)
    ensures 0 <= s.offset <= localSize
  {
    if remoteSize <= 0 then PullStart(localSize, false, false)
    else if localSize > remoteSize then PullStart(0, true, false)
    else if localSize == remoteSize then PullStart(localSize, false, true)
    else PullStart(localSize, false, false)
  }

  datatype Command = Cat | TailFrom(firstByte: int)

  function BuildPullCommand(offset: int): Command {
    if offset <= 0 then Cat else TailFrom(offset + 1)
  }

  // What the remote command prints: `tail -c +N` starts at byte N, counted from one.
  function Output(command: Command, source: seq<Byte>): seq<Byte> {
    match command
    case Cat => source
    case TailFrom(n) => if n <= 1 then source else if n - 1 <= |source| then source[n - 1..] else []
  }

  // The command asks for exactly the bytes the local file lacks.
  lemma CommandContinuesTheFile(local: seq<Byte>, source: seq<Byte>)
    requires local <= source
    ensures local + Output(BuildPullCommand(|local|), source) == source
  {
  }

  const MIB := 1_048_576

  // A hundredth of the total, but no less than 4 and no more than 64 MiB, which it is for an unknown total.
  function ProgressStep(total: int): (step: int)
    ensures 4_194_304 <= step <= 67_108_864 && (total <= 0 ==> step == 67_108_864)
    ensures total > 0 ==> (step == 4_194_304 || 100 * step <= total) && (step == 67_108_864 || total < 100 * (step + 1))
  {
    if total <= 0 then 64 * MIB else
    var step := total / 100;
    if step < 4 * MIB then 4 * MIB else if step > 64 * MIB then 64 * MIB else step
  }

  // ---------- The pull ----------

  datatype Ending = More | Eof | Broken

  // One pass of the read loop: `n` bytes arrive and `ending` is what Read reports with them. A
  // write failure lands `landed` of the bytes in the file.
  datatype Read = Cancelled | Arrives(n: nat, ending: Ending) | WriteFails(n: nat, landed: nat)

  // How the environment answers one attempt, in the order pullArchive asks: the directory, the removal
  // of a file that is too long, the second reading of the kept prefix, the remote session, the local
  // file, the reads, the exit status. A script that ends without an end is a lost link.
  datatype Attempt = Attempt(mkdirOk: bool, removeOk: bool, prefixOk: bool, sessionOk: bool, openOk: bool, script: seq<Read>, exitOk: bool)

  datatype Failure = NoDirectory | PrefixUnreadable | NoSession | NoFile | CancelledByContext | WriteFailed | Interrupted | CommandFailed
                   | SizeMismatch

  datatype Outcome = Pulled(digest: string) | Failed(failure: Failure)

  class LocalFile {
    var data: seq<Byte>

    constructor (data: seq<Byte>)
      ensures this.data == data
    {
      this.data := data;
    }
  }

  // What the local file holds when the transfer starts appending: the start decision removes a
  // file longer than the source, and the result of that removal is ignored.
  function Base(local: seq<Byte>, total: int, attempt: Attempt): seq<Byte> {
    if attempt.mkdirOk && ResolvePullStart(|local|, total).discard && attempt.removeOk then [] else local
  }

  // The two errors that report zero bytes written whatever the local file holds: no directory, or a
  // kept prefix that cannot be hashed again.
  predicate Blocked(localSize: nat, total: int, mkdirOk: bool, prefixOk: bool) {
    !mkdirOk || (ResolvePullStart(localSize, total).offset > 0 && !prefixOk)
  }

  function Requested(local: seq<Byte>, source: seq<Byte>, total: int): seq<Byte> {
    Output(BuildPullCommand(ResolvePullStart(|local|, total).offset), source)
  }

  datatype LoopEnd = EndOfOutput | Stopped(failure: Failure)

  // The reads that go well and are not the last, at the front of a script.
  function Ongoing(script: seq<Read>): (k: nat)
    ensures k <= |script| && forall i | 0 <= i < k :: script[i].Arrives? && script[i].ending == More
    ensures k < |script| ==> !(script[k].Arrives? && script[k].ending == More)
  {
    if script != [] && script[0].Arrives? && script[0].ending == More then 1 + Ongoing(script[1..]) else 0
  }

  // What the first k reads bring.
  function Brought(script: seq<Read>, k: nat): nat
    requires k <= |script|
  {
    if k == 0 then 0 else Brought(script, k - 1) + if script[k - 1].Arrives? then script[k - 1].n else 0
  }

  // The bytes that arrive before the loop ends, and those that still land with a failing write.
  function Arriving(script: seq<Read>): nat {
    var k := Ongoing(script);
    Brought(script, if k < |script| then k + 1 else k)
  }

  function LandingLast(script: seq<Read>): nat {
    var k := Ongoing(script);
    if k < |script| && script[k].WriteFails? then (if script[k].landed < script[k].n then script[k].landed else script[k].n) else 0
  }

  predicate EndsAs(script: seq<Read>, end: LoopEnd) {
    var k := Ongoing(script);
    match end
    case EndOfOutput => k < |script| && script[k].Arrives? && script[k].ending == Eof
    case Stopped(CancelledByContext) => k < |script| && script[k] == Cancelled
    case Stopped(WriteFailed) => k < |script| && script[k].WriteFails?
    case Stopped(Interrupted) => k == |script| || (script[k].Arrives? && script[k].ending == Broken)
    case Stopped(_) => false
  }

  function AtMost(n: nat, limit: nat): nat { if n <= limit then n else limit }

  // Progress is reported whenever `step` more bytes have come since the last report, and only then.
  predicate ReportsKeepStep(offset: nat, reports: seq<nat>, reached: nat, step: int) {
    StepsApart(offset, reports, step) && (forall r <- reports :: r <= reached) && reached - LastReport(reports, offset) < step
  }

  predicate StepsApart(offset: nat, reports: seq<nat>, step: int) {
    reports == [] ||
    var before := reports[..|reports| - 1];
    StepsApart(offset, before, step) && reports[|reports| - 1] - LastReport(before, offset) >= step
  }

  function LastReport(reports: seq<nat>, offset: nat): nat { if reports == [] then offset else reports[|reports| - 1] }

  // One block of the output, to the file and to the hasher.
  method TakeBlock<S>(file: LocalFile, hasher: Hasher<S>, output: seq<Byte>, count: nat, n: nat) returns (reached: nat)
    requires hasher.Valid() && count <= |output|
    modifies file, hasher
    ensures reached == AtMost(count + n, |output|) && count <= reached
    ensures file.data == old(file.data) + output[count..reached]
    ensures hasher.Valid() && hasher.absorbed == old(hasher.absorbed) + output[count..reached]
  {
    reached := count;
    var bytes := NextBytes(output, count, n);
    if |bytes| > 0 {
      file.data := file.data + bytes;
      hasher.Write(bytes);
      reached := count + |bytes|;
    }
  }

  // The bytes of a write that fails.
  method LandSome(file: LocalFile, output: seq<Byte>, count: nat, n: nat) returns (ghost landed: nat)
    requires count <= |output|
    modifies file
    ensures landed == AtMost(count + n, |output|) && count <= landed && file.data == old(file.data) + output[count..landed]
  {
    var bytes := NextBytes(output, count, n);
    file.data := file.data + bytes;
    landed := count + |bytes|;
  }

  function ReportDue(reports: seq<nat>, offset: nat, reached: nat, step: int): seq<nat> {
    if reached - LastReport(reports, offset) >= step then reports + [reached] else reports
  }

  lemma ReportingKeepsStep(offset: nat, reports: seq<nat>, before: nat, reached: nat, step: int)
    requires step > 0 && ReportsKeepStep(offset, reports, before, step) && before <= reached
    ensures ReportsKeepStep(offset, ReportDue(reports, offset, reached, step), reached, step)
    ensures forall r <- ReportDue(reports, offset, reached, step) :: r <= reached
  {
    assert (reports + [reached])[..|reports|] == reports;
  }

  lemma NothingReported(offset: nat, step: int)
    requires step > 0
    ensures ReportsKeepStep(offset, [], offset, step)
  {
  }

  lemma Continued(front: seq<Byte>, output: seq<Byte>, a: nat, b: nat)
    requires a <= b <= |output|
    ensures front + output[..a] + output[a..b] == front + output[..b]
  {
    assert output[..a] + output[a..b] == output[..b];
  }

  // What one more read brings.
  lemma NextRead(script: seq<Read>, i: nat, limit: nat)
    requires i < |script| && i <= Ongoing(script)
    ensures script[i].Arrives? ==> AtMost(Brought(script, i + 1), limit) == AtMost(AtMost(Brought(script, i), limit) + script[i].n, limit)
    ensures script[i].Arrives? && script[i].ending == More <==> i < Ongoing(script)
    ensures i == Ongoing(script) ==>
              match script[i]
              case Cancelled => Arriving(script) == Brought(script, i) && LandingLast(script) == 0 && EndsAs(script, Stopped(CancelledByContext))
              case WriteFails(n, some) =>
                && Arriving(script) == Brought(script, i) && LandingLast(script) == (if some < n then some else n)
                && EndsAs(script, Stopped(WriteFailed))
              case Arrives(_, ending) =>
                && Arriving(script) == Brought(script, i + 1) && LandingLast(script) == 0
                && (ending == Eof ==> EndsAs(script, EndOfOutput)) && (ending == Broken ==> EndsAs(script, Stopped(Interrupted)))
  {
  }

  lemma NoMoreReads(script: seq<Read>)
    requires Ongoing(script) == |script|
    ensures Arriving(script) == Brought(script, |script|) && LandingLast(script) == 0 && EndsAs(script, Stopped(Interrupted))
  {
  }

  // The read loop of pullArchive: what arrives goes to the file and to the hasher alike. `count`
  // bytes were written and hashed; `landed` bytes of the output are in the file. How many that is, and how
  // the loop ends, is decided by the reads alone.
  method CopyOutput<S>(file: LocalFile, hasher: Hasher<S>, output: seq<Byte>, script: seq<Read>, offset: nat, step: int)
    returns (count: nat, end: LoopEnd, reports: seq<nat>, ghost landed: nat)
    requires hasher.Valid() && step > 0
    modifies file, hasher
    ensures count == AtMost(Arriving(script), |output|) && landed == AtMost(Arriving(script) + LandingLast(script), |output|)
    ensures count <= landed <= |output| && file.data == old(file.data) + output[..landed]
    ensures EndsAs(script, end) && (end.EndOfOutput? ==> landed == count)
    ensures hasher.Valid() && hasher.absorbed == old(hasher.absorbed) + output[..count]
    ensures ReportsKeepStep(offset, reports, offset + count, step) && forall r <- reports :: r <= offset + count
  {
    hide Ongoing, Arriving, LandingLast, EndsAs, ReportsKeepStep, ReportDue;
    NothingReported(offset, step);
    count, reports, landed := 0, [], 0;
    ghost var file0, hashed := file.data, hasher.absorbed;
    assert file0 == file0 + output[..0] && hashed == hashed + output[..0];
    for i := 0 to |script|
      invariant count == landed == AtMost(Brought(script, i), |output|) && i <= Ongoing(script)
      invariant file.data == file0 + output[..count]
      invariant hasher.Valid() && hasher.absorbed == hashed + output[..count]
      invariant ReportsKeepStep(offset, reports, offset + count, step) && forall r <- reports :: r <= offset + count
    {
      NextRead(script, i, |output|);
      match script[i] {
        case Cancelled =>
          return count, Stopped(CancelledByContext), reports, landed;
        case WriteFails(n, some) =>
          landed := LandSome(file, output, count, if some < n then some else n);
          Continued(file0, output, count, landed);
          return count, Stopped(WriteFailed), reports, landed;
        case Arrives(n, ending) =>
          var reached := TakeBlock(file, hasher, output, count, n);
          Continued(file0, output, count, reached);
          Continued(hashed, output, count, reached);
          ReportingKeepsStep(offset, reports, offset + count, offset + reached, step);
          count, landed := reached, reached;
          reports := ReportDue(reports, offset, offset + count, step);
          if ending == Eof {
            return count, EndOfOutput, reports, landed;
          }
          if ending == Broken {
            return count, Stopped(Interrupted), reports, landed;
          }
      }
    }
    NoMoreReads(script);
    end := Stopped(Interrupted);
  }

  function NextBytes(output: seq<Byte>, pos: nat, n: nat): (bytes: seq<Byte>)
    requires pos <= |output|
    ensures pos + |bytes| <= |output|
    ensures forall front: seq<Byte> :: (front + output[..pos]) + bytes == front + output[..pos + |bytes|]
  {
    var bytes := if pos + n <= |output| then output[pos..pos + n] else output[pos..];
    assert output[..pos] + bytes == output[..pos + |bytes|];
    bytes
  }

  // The remote command runs, all of its output is read, and it exits well.
  predicate TransferEnds(attempt: Attempt) {
    attempt.sessionOk && attempt.openOk && EndsAs(attempt.script, EndOfOutput) && attempt.exitOk
  }

  // A pull succeeds exactly if it is not blocked and the file is complete already, or the transfer ends and
  // has brought it to the known size; every other end has its own error.
  ghost predicate EndsFor(localSize: nat, total: int, attempt: Attempt, written: nat, outcome: Outcome) {
    var start := ResolvePullStart(localSize, total);
    var asks := !Blocked(localSize, total, attempt.mkdirOk, attempt.prefixOk) && !start.complete;
    && (outcome.Pulled? <==>
          !Blocked(localSize, total, attempt.mkdirOk, attempt.prefixOk)
          && (start.complete || (TransferEnds(attempt) && (total > 0 ==> written == total))))
    && (outcome == Failed(NoDirectory) <==> !attempt.mkdirOk)
    && (outcome == Failed(PrefixUnreadable) <==> attempt.mkdirOk && start.offset > 0 && !attempt.prefixOk)
    && (outcome == Failed(NoSession) <==> asks && !attempt.sessionOk)
    && (outcome == Failed(NoFile) <==> asks && attempt.sessionOk && !attempt.openOk)
    && (forall f: Failure | outcome == Failed(f) && f in {CancelledByContext, WriteFailed, Interrupted} ::
          asks && EndsAs(attempt.script, Stopped(f)))
    && (outcome == Failed(CommandFailed) <==>
          asks && attempt.sessionOk && attempt.openOk && EndsAs(attempt.script, EndOfOutput) && !attempt.exitOk)
    && (outcome == Failed(SizeMismatch) <==> asks && TransferEnds(attempt) && total > 0 && written != total)
  }

  // The ends before the read loop, and those behind it.
  lemma ConcludesAs(localSize: nat, total: int, attempt: Attempt)
    ensures !attempt.mkdirOk ==> EndsFor(localSize, total, attempt, 0, Failed(NoDirectory))
    ensures var start := ResolvePullStart(localSize, total);
            attempt.mkdirOk ==>
              if start.offset > 0 && !attempt.prefixOk then EndsFor(localSize, total, attempt, 0, Failed(PrefixUnreadable))
              else if start.complete then forall digest :: EndsFor(localSize, total, attempt, start.offset, Pulled(digest))
              else if !attempt.sessionOk then EndsFor(localSize, total, attempt, start.offset, Failed(NoSession))
              else if !attempt.openOk then EndsFor(localSize, total, attempt, start.offset, Failed(NoFile))
              else forall written, outcome | Finishes(attempt, total, written, outcome) :: EndsFor(localSize, total, attempt, written, outcome)
  {
  }

  // How the read loop and the exit status decide.
  ghost predicate Finishes(attempt: Attempt, total: int, written: nat, outcome: Outcome) {
    if !EndsAs(attempt.script, EndOfOutput) then
      outcome.Failed? && outcome.failure in {CancelledByContext, WriteFailed, Interrupted} && EndsAs(attempt.script, Stopped(outcome.failure))
    else if !attempt.exitOk then outcome == Failed(CommandFailed)
    else if total > 0 && written != total then outcome == Failed(SizeMismatch)
    else outcome.Pulled?
  }

  lemma EndsOneWay(script: seq<Read>, end: LoopEnd)
    requires EndsAs(script, end)
    ensures EndsAs(script, EndOfOutput) <==> end == EndOfOutput
    ensures end.Stopped? ==> end.failure in {CancelledByContext, WriteFailed, Interrupted}
  {
  }

  // What one attempt appends to the file, and what of it is counted.
  function Lands(localSize: nat, total: int, attempt: Attempt, requested: nat): nat {
    if Reads(localSize, total, attempt) then AtMost(Arriving(attempt.script) + LandingLast(attempt.script), requested) else 0
  }

  function Counts(localSize: nat, total: int, attempt: Attempt, requested: nat): nat {
    if Reads(localSize, total, attempt) then AtMost(Arriving(attempt.script), requested) else 0
  }

  predicate Reads(localSize: nat, total: int, attempt: Attempt) {
    && !Blocked(localSize, total, attempt.mkdirOk, attempt.prefixOk) && !ResolvePullStart(localSize, total).complete
    && attempt.sessionOk && attempt.openOk
  }

  method PullArchive<S>(file: LocalFile, source: seq<Byte>, total: int, hash: Hash<S>, attempt: Attempt)
    returns (written: nat, outcome: Outcome, reports: seq<nat>, ghost appended: seq<Byte>)
    modifies file
    // the file is its base followed by a prefix of what was asked for
    ensures file.data == Base(old(file.data), total, attempt) + appended
    ensures appended <= Requested(old(file.data), source, total)
    // how much that is, and how it ends, is decided by what the environment answers
    ensures |appended| == Lands(|old(file.data)|, total, attempt, |Requested(old(file.data), source, total)|)
    ensures EndsFor(|old(file.data)|, total, attempt, written, outcome)
    ensures outcome.Pulled? ==> reports != [] && reports[|reports| - 1] == written
    ensures var offset := ResolvePullStart(|old(file.data)|, total).offset;
            if Blocked(|old(file.data)|, total, attempt.mkdirOk, attempt.prefixOk)
            then written == 0 && outcome.Failed? && appended == [] && reports == []
            else
              && written == offset + Counts(|old(file.data)|, total, attempt, |Requested(old(file.data), source, total)|) <= offset + |appended|
              && (forall r <- reports :: r <= written)
              // success at a known size means exactly that many bytes, and the digest covers them all
              && (outcome.Pulled? ==>
                    && outcome.digest == Digest(hash, old(file.data)[..offset] + appended)
                    && written == offset + |appended|
                    && (total > 0 ==> written == total))
  {
    hide EndsAs, Arriving, LandingLast, Ongoing, Output, BuildPullCommand, Digest, EndsFor;
    appended := [];
    ConcludesAs(|file.data|, total, attempt);
    if !attempt.mkdirOk {
      return 0, Failed(NoDirectory), [], [];
    }
    var start := ResolvePullStart(|file.data|, total);
    if start.discard && attempt.removeOk {
      file.data := [];
    }
    ghost var kept := old(file.data)[..start.offset];
    var hasher := new Hasher(hash);
    if start.offset > 0 {
      if !attempt.prefixOk {
        return 0, Failed(PrefixUnreadable), [], [];
      }
      hasher.Write(file.data[..start.offset]);
    }
    assert hasher.absorbed == kept;
    if start.complete {
      var digest := hasher.Sum();
      assert kept + [] == kept;
      return start.offset, Pulled(digest), [start.offset], [];
    }
    if !attempt.sessionOk {
      return start.offset, Failed(NoSession), [], [];
    }
    if !attempt.openOk {
      return start.offset, Failed(NoFile), [], [];
    }
    var output := Output(BuildPullCommand(start.offset), source);
    written, outcome, reports, appended := Transfer(file, hasher, output, total, attempt, start.offset, kept);
  }

  // From the start of the read loop on.
  method Transfer<S>(file: LocalFile, hasher: Hasher<S>, output: seq<Byte>, total: int, attempt: Attempt, offset: nat, ghost kept: seq<Byte>)
    returns (written: nat, outcome: Outcome, reports: seq<nat>, ghost appended: seq<Byte>)
    requires hasher.Valid() && hasher.absorbed == kept
    modifies file, hasher
    ensures file.data == old(file.data) + appended && appended <= output
    ensures |appended| == AtMost(Arriving(attempt.script) + LandingLast(attempt.script), |output|)
    ensures written == offset + AtMost(Arriving(attempt.script), |output|) <= offset + |appended| && forall r <- reports :: r <= written
    ensures Finishes(attempt, total, written, outcome)
    ensures outcome.Pulled? ==>
              && outcome.digest == Digest(hasher.hash, kept + appended) && written == offset + |appended|
              && reports != [] && reports[|reports| - 1] == written
  {
    hide EndsAs, Arriving, LandingLast, ReportsKeepStep, StepsApart;
    var count, end, reported, landed := CopyOutput(file, hasher, output, attempt.script, offset, ProgressStep(total));
    EndsOneWay(attempt.script, end);
    written, reports, appended := offset + count, reported, output[..landed];
    if end.Stopped? {
      return written, Failed(end.failure), reports, appended;
    }
    if !attempt.exitOk {
      return written, Failed(CommandFailed), reports, appended;
    }
    if total > 0 && written != total {
      return written, Failed(SizeMismatch), reports, appended;
    }
    reports := reports + [written];
    var digest := hasher.Sum();
    outcome := Pulled(digest);
  }

  // ---------- What one attempt achieves ----------

  // A local file the start decision can handle: a prefix of the source, or too long to be one.
  predicate PrefixOrTooLong(local: seq<Byte>, source: seq<Byte>) { local <= source || |local| > |source| }

  // What an attempt has to bring.
  function Lacking(localSize: nat, sourceSize: nat): nat { if localSize <= sourceSize then sourceSize - localSize else sourceSize }

  // An attempt succeeds if directory and prefix are all right, and the file is complete or the transfer
  // ends with all it lacks.
  predicate Succeeds(localSize: nat, sourceSize: nat, attempt: Attempt) {
    && !Blocked(localSize, sourceSize, attempt.mkdirOk, attempt.prefixOk)
    && (localSize == sourceSize || (TransferEnds(attempt) && Arriving(attempt.script) >= Lacking(localSize, sourceSize)))
  }

  // Nothing is wrong with an attempt, and it brings n bytes.
  predicate Brings(attempt: Attempt, n: nat) {
    attempt.mkdirOk && attempt.prefixOk && TransferEnds(attempt) && Arriving(attempt.script) >= n
  }

  lemma LackingLess(attempts: seq<Attempt>, n: nat)
    ensures forall k, m: nat | 0 <= k < |attempts| && m <= n && Brings(attempts[k], n) :: Brings(attempts[k], m)
  {
  }

  lemma RequestedIsLacking(local: seq<Byte>, source: seq<Byte>)
    requires |source| > 0
    ensures |local| != |source| ==> |Requested(local, source, |source|)| == Lacking(|local|, |source|)
    ensures ResolvePullStart(|local|, |source|).complete <==> |local| == |source|
    ensures ResolvePullStart(|local|, |source|).offset == if |local| <= |source| then |local| else 0
  {
  }

  // One attempt against an unchanged source of known size, from an empty, partial or oversized
  // local file: the file is a prefix of the source afterwards exactly when it was not too long or
  // could be removed, and still too long otherwise; nothing it held of the source is lost; and a
  // success means that a file of no more than the source's size is the source. A removal that fails
  // is ignored by the code: the file is then never the source, yet success still reports the digest
  // of the source. What is reported as written covers what the file held exactly when that was
  // nothing or directory and prefix could be read.
  method PullOnce<S>(file: LocalFile, source: seq<Byte>, hash: Hash<S>, attempt: Attempt)
    returns (written: nat, outcome: Outcome, reports: seq<nat>)
    requires |source| > 0 && PrefixOrTooLong(file.data, source)
    modifies file
    ensures PrefixOrTooLong(file.data, source)
    ensures file.data <= source <==> |old(file.data)| <= |source| || (attempt.mkdirOk && attempt.removeOk)
    ensures |old(file.data)| <= |source| ==> old(file.data) <= file.data
    ensures |old(file.data)| <= |source| ==>
              (|old(file.data)| <= written <==> old(file.data) == [] || (attempt.mkdirOk && attempt.prefixOk))
    ensures file.data <= source ==> written <= |file.data| && forall r <- reports :: r <= |file.data|
    ensures outcome.Pulled? ==> outcome.digest == Digest(hash, source) && written == |source|
    ensures outcome.Pulled? && file.data <= source ==> file.data == source
    // it succeeds exactly if it can, ends as fatal exactly if the output was too short, and otherwise every
    // byte that arrived is kept for the next attempt
    ensures outcome.Pulled? <==> Succeeds(|old(file.data)|, |source|, attempt)
    ensures outcome == Failed(SizeMismatch) <==>
              !Blocked(|old(file.data)|, |source|, attempt.mkdirOk, attempt.prefixOk) && |old(file.data)| != |source|
              && TransferEnds(attempt) && Arriving(attempt.script) < Lacking(|old(file.data)|, |source|)
    ensures |old(file.data)| <= |source| && Reads(|old(file.data)|, |source|, attempt) ==>
              |file.data| == AtMost(|old(file.data)| + Arriving(attempt.script) + LandingLast(attempt.script), |source|)
  {
    hide EndsAs, Ongoing, Arriving, LandingLast;
    RequestedIsLacking(file.data, source);
    ghost var appended;
    written, outcome, reports, appended := PullArchive(file, source, |source|, hash, attempt);
    ghost var local := old(file.data);
    ghost var start := ResolvePullStart(|local|, |source|);
    if |local| <= |source| {
      CommandContinuesTheFile(local, source);
      assert local[..start.offset] == local;
      PrefixExtends(local, Requested(local, source, |source|), appended);
    } else {
      assert local[..start.offset] + appended == appended;
      assert |appended| == |source| ==> appended == source;
      assert Base(local, |source|, attempt) == [] ==> file.data == appended;
    }
  }

  lemma PrefixExtends(a: seq<Byte>, b: seq<Byte>, c: seq<Byte>)
    requires c <= b
    ensures a + c <= a + b && (|c| == |b| ==> c == b)
  {
  }

  // Any number of interrupted attempts: a file that is a prefix stays one throughout and nothing it
  // holds is lost again, a file that is too long becomes one with the first attempt that can remove
  // it, and the first success with a file of no more than the source's size delivers the source with
  // its digest.
  method PullUntilDone<S>(file: LocalFile, source: seq<Byte>, hash: Hash<S>, attempts: seq<Attempt>)
    returns (used: nat, outcome: Outcome)
    requires |source| > 0 && PrefixOrTooLong(file.data, source)
    modifies file
    ensures used <= |attempts| && PrefixOrTooLong(file.data, source)
    ensures |old(file.data)| <= |source| ==> old(file.data) <= file.data <= source
    ensures file.data <= source <==>
              |old(file.data)| <= |source| || exists k | 0 <= k < used :: attempts[k].mkdirOk && attempts[k].removeOk
    ensures outcome.Pulled? ==> outcome.digest == Digest(hash, source) && (file.data <= source ==> file.data == source)
    ensures outcome.Failed? ==> used == |attempts|
    // the first attempt that brings all the file lacked at the start is the last one at the latest
    ensures forall k | 0 <= k < |attempts| && Brings(attempts[k], Lacking(|old(file.data)|, |source|)) :: outcome.Pulled? && used <= k + 1
  {
    hide TransferEnds, Arriving, LandingLast;
    used, outcome := 0, Failed(NoSession);
    while used < |attempts|
      invariant used <= |attempts| && outcome.Failed? && PrefixOrTooLong(file.data, source)
      invariant |old(file.data)| <= |source| ==> old(file.data) <= file.data <= source
      invariant file.data <= source <==>
                  |old(file.data)| <= |source| || exists k | 0 <= k < used :: attempts[k].mkdirOk && attempts[k].removeOk
      invariant Lacking(|file.data|, |source|) <= Lacking(|old(file.data)|, |source|)
      invariant forall k | 0 <= k < used :: !Brings(attempts[k], Lacking(|old(file.data)|, |source|))
    {
      var written, result, reports := PullOnce(file, source, hash, attempts[used]);
      outcome := result;
      used := used + 1;
      if outcome.Pulled? {
        return;
      }
    }
  }

  // ---------- The integrity verdict ----------

  datatype Verdict = Accepted | WrongSize | WrongSha256 | WrongMd5

  // strings.EqualFold on hexadecimal digests.
  predicate EqualFold(a: string, b: string) {
    Lower(a) == Lower(b)
  }

  function VerifyPulledIntegrity(sourceSha: string, sourceMd5: string, localSha: string, localMd5: string,
                                 written: int, expected: int): Verdict
  {
    if expected > 0 && written != expected then WrongSize
    else if sourceSha != "" then (if EqualFold(sourceSha, localSha) then Accepted else WrongSha256)
    else if sourceMd5 != "" && !EqualFold(sourceMd5, localMd5) then WrongMd5
    else Accepted
  }

  // Digests are printed in lower case.
  predicate Printed(digest: string) { digest != "" && Lower(digest) == digest }

  // What the verdict is worth, baseline by baseline. With a SHA-256 baseline a wrong file of the right
  // size passes exactly when its digest collides, whatever the MD5 says; with only an MD5 baseline,
  // exactly when the MD5 collides; without a baseline every file of the right size passes.
  lemma AcceptedIsTheSource<S, M>(sha: Hash<S>, md5: Hash<M>, source: seq<Byte>, local: seq<Byte>, expected: int, sourceMd5: string)
    requires Printed(Digest(sha, source)) && Printed(Digest(sha, local)) && Printed(Digest(md5, source)) && Printed(Digest(md5, local))
    ensures var sized := expected > 0 ==> |local| == expected;
            var localSha, localMd5 := Digest(sha, local), Digest(md5, local);
            && (VerifyPulledIntegrity(Digest(sha, source), sourceMd5, localSha, localMd5, |local|, expected) == Accepted <==>
                  sized && (source == local || Collides(sha, source, local)))
            && (VerifyPulledIntegrity("", Digest(md5, source), localSha, localMd5, |local|, expected) == Accepted <==>
                  sized && (source == local || Collides(md5, source, local)))
            && (VerifyPulledIntegrity("", "", localSha, localMd5, |local|, expected) == Accepted <==> sized)
  {
  }

  // Upper and lower case of a baseline or a digest make no difference.
  lemma CaseDoesNotMatter(sourceSha: string, sourceMd5: string, localSha: string, localMd5: string, written: int, expected: int)
    ensures VerifyPulledIntegrity(sourceSha, sourceMd5, localSha, localMd5, written, expected) ==
              VerifyPulledIntegrity(Lower(sourceSha), Lower(sourceMd5), localSha, localMd5, written, expected)
  {
    assert Lower(Lower(sourceSha)) == Lower(sourceSha) && Lower(Lower(sourceMd5)) == Lower(sourceMd5);
  }

  ghost predicate Collides<S>(hash: Hash<S>, a: seq<Byte>, b: seq<Byte>) { a != b && Digest(hash, a) == Digest(hash, b) }

  datatype Baseline = Sha256 | Md5 | NoBaseline

  ghost predicate PrintsLower<S>(hash: Hash<S>) { forall b: seq<Byte> :: Printed(Digest(hash, b)) }

  // A pull against an unchanged source, then the verdict. The SHA-256 that is compared is the digest
  // of the transfer, so with that baseline or with none an accepted file is the source exactly when
  // it was not too long or could be removed. The MD5 is taken from the file itself, so with an MD5
  // baseline an accepted file is the source unless the MD5 collides. A pulled file that is a prefix
  // of the source is always accepted.
  method PullAndVerify<S, M>(file: LocalFile, source: seq<Byte>, sha: Hash<S>, md5: Hash<M>, attempt: Attempt, baseline: Baseline)
    returns (pulled: bool, accepted: bool)
    requires |source| > 0 && PrefixOrTooLong(file.data, source) && PrintsLower(sha) && PrintsLower(md5)
    modifies file
    ensures accepted ==> pulled
    ensures accepted && baseline != Md5 ==> (file.data == source <==> |old(file.data)| <= |source| || (attempt.mkdirOk && attempt.removeOk))
    ensures accepted && baseline == Md5 ==> file.data == source || Collides(md5, source, file.data)
    ensures pulled && file.data <= source ==> accepted && file.data == source
    ensures pulled <==> Succeeds(|old(file.data)|, |source|, attempt)
  {
    var written, outcome, reports := PullOnce(file, source, sha, attempt);
    if outcome.Failed? {
      return false, false;
    }
    pulled := true;
    var sourceSha := if baseline == Sha256 then Digest(sha, source) else "";
    var sourceMd5 := if baseline == Md5 then Digest(md5, source) else "";
    var localMd5 := if baseline == Md5 then Digest(md5, file.data) else "";
    var verdict := VerifyPulledIntegrity(sourceSha, sourceMd5, outcome.digest, localMd5, written, |source|);
    accepted := verdict == Accepted;
    assert Printed(Digest(sha, source)) && Printed(Digest(md5, source)) && Printed(Digest(md5, file.data));
  }
}
