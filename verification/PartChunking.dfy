/**
  Cutting the local archive into parts and merging the parts back on the platform.
*/
module PartChunking {

  import opened Bytes
  import opened Options

  // The number of parts the control plane derives from the total size.
  function PartCountFor(total: nat, chunk: nat): nat
    requires chunk > 0
  {
    (total + chunk - 1) / chunk
  }

  // file.ReadAt into a zeroed buffer, with io.EOF ignored: what the file lacks reads as zeros.
  function ReadAt(file: seq<Byte>, offset: nat, length: nat): seq<Byte> {
    seq(length, i requires 0 <= i < length => if offset + i < |file| then file[offset + i] else 0)
  }

  // What is there is read, and zeros stand behind it.
  lemma ReadPadsWithZeros(file: seq<Byte>, offset: nat, length: nat)
    ensures offset + length <= |file| ==> ReadAt(file, offset, length) == file[offset..offset + length]
    ensures offset <= |file| < offset + length ==> ReadAt(file, offset, length) == file[offset..] + seq(offset + length - |file|, i => 0)
    ensures |file| < offset ==> ReadAt(file, offset, length) == seq(length, i => 0)
  {
  }

  // What uploadOnePart sends as part `number`; None is its "part size abnormal" error. `total` is
  // the file size taken at the start of the round.
  function PartPayload(file: seq<Byte>, total: nat, chunk: nat, number: nat): Option<seq<Byte>>
    requires chunk > 0 && number >= 1
  {
    var offset := (number - 1) * chunk;
    var expected := if offset + chunk > total then total - offset else chunk;
    if expected <= 0 then None else Some(ReadAt(file, offset, expected))
  }

  datatype Guard = Proceed | SourceChanged

  // sourceSizeGuard: a size that is not known is not compared.
  function SourceSizeGuard(submitted: int, current: int): Guard {
    if submitted <= 0 || current <= 0 || submitted == current then Proceed else SourceChanged
  }

  // A size that is not known, on either side, is not compared; two known ones must be equal.
  lemma GuardIff(submitted: int, current: int)
    ensures SourceSizeGuard(submitted, current) == SourceChanged <==> submitted > 0 && current > 0 && submitted != current
  {
  }

  // ---------- One cut ----------

  lemma PartCountBounds(total: nat, chunk: nat)
    requires chunk > 0 && total > 0
    ensures var c := PartCountFor(total, chunk);
            c >= 1 && (c - 1) * chunk < total <= c * chunk
  {
    var c := PartCountFor(total, chunk);
    var rest := (total + chunk - 1) % chunk;
    assert total + chunk - 1 == c * chunk + rest;
    assert (c - 1) * chunk == c * chunk - chunk;
  }

  lemma ProductMonotone(a: nat, b: nat, c: nat)
    requires a <= b
    ensures a * c <= b * c
  {
  }

  // The end of part `number` in the file.
  function PartEnd(total: nat, chunk: nat, number: nat): nat {
    if number * chunk <= total then number * chunk else total
  }

  // The parts 1..PartCount are exactly the consecutive non-empty pieces of the file, none longer
  // than a chunk, and every further part is refused.
  lemma PartsTileTheFile(file: seq<Byte>, chunk: nat, number: nat)
    requires chunk > 0 && number >= 1
    ensures number <= PartCountFor(|file|, chunk) ==>
              && PartEnd(|file|, chunk, number - 1) < PartEnd(|file|, chunk, number) <= PartEnd(|file|, chunk, number - 1) + chunk
              && PartPayload(file, |file|, chunk, number) ==
                   Some(file[PartEnd(|file|, chunk, number - 1)..PartEnd(|file|, chunk, number)])
    ensures number > PartCountFor(|file|, chunk) ==> PartPayload(file, |file|, chunk, number) == None
  {
    var count := PartCountFor(|file|, chunk);
    if |file| == 0 {
      assert count == 0;
      ProductMonotone(0, number - 1, chunk);
    } else {
      PartCountBounds(|file|, chunk);
      assert number * chunk == (number - 1) * chunk + chunk;
      if number <= count {
        ProductMonotone(number - 1, count - 1, chunk);
        var from, to := PartEnd(|file|, chunk, number - 1), PartEnd(|file|, chunk, number);
        assert ReadAt(file, from, to - from) == file[from..to];
      } else {
        ProductMonotone(count, number - 1, chunk);
      }
    }
  }

  // ---------- Merging ----------

  // The platform's merge of the first `count` parts cut from one file.
  function Merged(file: seq<Byte>, chunk: nat, count: nat): Option<seq<Byte>>
    requires chunk > 0
  {
    if count == 0 then Some([]) else
    match (Merged(file, chunk, count - 1), PartPayload(file, |file|, chunk, count))
    case (Some(front), Some(part)) => Some(front + part)
    case _ => None
  }

  lemma {:induction false} MergedIsAPrefix(file: seq<Byte>, chunk: nat, count: nat)
    requires chunk > 0
    ensures Merged(file, chunk, count) ==
              if count <= PartCountFor(|file|, chunk) then Some(file[..PartEnd(|file|, chunk, count)]) else None
  {
    if count == 0 {
      assert PartEnd(|file|, chunk, 0) == 0;
    } else {
      MergedIsAPrefix(file, chunk, count - 1);
      PartsTileTheFile(file, chunk, count);
      if count <= PartCountFor(|file|, chunk) {
        var from, to := PartEnd(|file|, chunk, count - 1), PartEnd(|file|, chunk, count);
        assert file[..from] + file[from..to] == file[..to];
      }
    }
  }

  // Round trip: cutting and merging gives the file back exactly when the part count is the
  // ceiling of size over chunk; any smaller count loses the tail and any larger one fails.
  lemma ChunkingRoundTrip(file: seq<Byte>, chunk: nat, count: nat)
    requires chunk > 0
    ensures Merged(file, chunk, count) == Some(file) <==> count == PartCountFor(|file|, chunk)
  {
    MergedIsAPrefix(file, chunk, count);
    var full := PartCountFor(|file|, chunk);
    if |file| > 0 {
      PartCountBounds(|file|, chunk);
      if count < full {
        ProductMonotone(count, full - 1, chunk);
        assert |file[..PartEnd(|file|, chunk, count)]| < |file|;
      } else if count == full {
        assert file[..|file|] == file;
      }
    } else {
      assert full == 0 && file[..0] == file;
    }
  }

  lemma {:induction false} HeldPartsMerge(file: seq<Byte>, chunk: nat, held: map<nat, seq<Byte>>, count: nat)
    requires chunk > 0
    requires forall n | 1 <= n <= count :: n in held && PartPayload(file, |file|, chunk, n) == Some(held[n])
    ensures MergeStored(held, count) == Merged(file, chunk, count)
  {
    if count > 0 {
      HeldPartsMerge(file, chunk, held, count - 1);
    }
  }

  // ---------- Many rounds, one platform session ----------

  // A PUT of part `number` cut from the local file as it was in that round.
  datatype Put = Put(file: seq<Byte>, number: nat)

  // The platform keeps the last payload put under each number; a refused cut sends nothing.
  function Stored(puts: seq<Put>, chunk: nat): map<nat, seq<Byte>>
    requires chunk > 0
  {
    if puts == [] then map[] else
    var before, last := Stored(puts[..|puts| - 1], chunk), puts[|puts| - 1];
    if last.number == 0 then before else
    match PartPayload(last.file, |last.file|, chunk, last.number)
    case Some(payload) => before[last.number := payload]
    case None => before
  }

  function MergeStored(parts: map<nat, seq<Byte>>, count: nat): Option<seq<Byte>> {
    if count == 0 then Some([])
    else if count !in parts then None
    else match MergeStored(parts, count - 1)
      case Some(front) => Some(front + parts[count])
      case None => None
  }

  // Every round passed the size guard against the submitted size.
  ghost predicate Guarded(puts: seq<Put>, submitted: int) {
    forall p <- puts :: SourceSizeGuard(submitted, |p.file|) == Proceed
  }

  // Part n is held with as many bytes as part n of a file of this size has.
  ghost predicate RightLength(held: map<nat, seq<Byte>>, total: nat, chunk: nat, n: nat)
    requires chunk > 0 && n in held
  {
    1 <= n <= PartCountFor(total, chunk) && |held[n]| == PartEnd(total, chunk, n) - PartEnd(total, chunk, n - 1)
  }

  lemma {:induction false} GuardedCutsHaveTheRightLength(puts: seq<Put>, total: nat, chunk: nat, n: nat)
    requires chunk > 0 && total > 0 && Guarded(puts, total) && n in Stored(puts, chunk)
    ensures RightLength(Stored(puts, chunk), total, chunk, n)
  {
    var front, last := puts[..|puts| - 1], puts[|puts| - 1];
    assert last in puts;
    if last.number == n && n > 0 && PartPayload(last.file, |last.file|, chunk, n).Some? {
      PartsTileTheFile(last.file, chunk, n);
    } else {
      GuardedCutsHaveTheRightLength(front, total, chunk, n);
    }
  }

  // Part n is held as the source's own cut.
  ghost predicate HeldAsCut(held: map<nat, seq<Byte>>, source: seq<Byte>, chunk: nat, n: nat)
    requires chunk > 0 && n >= 1
  {
    n in held && PartPayload(source, |source|, chunk, n) == Some(held[n])
  }

  // A merge of parts of the right lengths that gives a prefix of the source is made of its cuts.
  lemma {:induction false} PrefixMeansCuts(held: map<nat, seq<Byte>>, source: seq<Byte>, chunk: nat, count: nat, n: nat)
    requires chunk > 0 && 1 <= n <= count <= PartCountFor(|source|, chunk)
    requires forall k <- held :: RightLength(held, |source|, chunk, k)
    requires MergeStored(held, count) == Some(source[..PartEnd(|source|, chunk, count)])
    ensures HeldAsCut(held, source, chunk, n)
    decreases count
  {
    var front := MergeStored(held, count - 1).value;
    assert RightLength(held, |source|, chunk, count);
    PartsTileTheFile(source, chunk, count);
    var from, to := PartEnd(|source|, chunk, count - 1), PartEnd(|source|, chunk, count);
    assert source[..to] == source[..from] + source[from..to];
    assert front + held[count] == source[..to] && |front| == from;
    assert front == (front + held[count])[..from] && held[count] == (front + held[count])[from..];
    assert source[..to][..from] == source[..from] && source[..to][from..] == source[from..to];
    if n < count {
      PrefixMeansCuts(held, source, chunk, count - 1, n);
    }
  }

  // For all puts of guarded rounds, of whatever files: the platform merges to the source if and only
  // if what it holds last under each number is the source's own cut.
  lemma MergeIsSourceIff(puts: seq<Put>, source: seq<Byte>, chunk: nat)
    requires chunk > 0 && |source| > 0 && Guarded(puts, |source|)
    ensures MergeStored(Stored(puts, chunk), PartCountFor(|source|, chunk)) == Some(source) <==>
              forall n | 1 <= n <= PartCountFor(|source|, chunk) :: HeldAsCut(Stored(puts, chunk), source, chunk, n)
  {
    var count, held := PartCountFor(|source|, chunk), Stored(puts, chunk);
    PartCountBounds(|source|, chunk);
    assert source[..PartEnd(|source|, chunk, count)] == source;
    if MergeStored(held, count) == Some(source) {
      forall k | k in held ensures RightLength(held, |source|, chunk, k) {
        GuardedCutsHaveTheRightLength(puts, |source|, chunk, k);
      }
      forall n | 1 <= n <= count ensures HeldAsCut(held, source, chunk, n) {
        PrefixMeansCuts(held, source, chunk, count, n);
      }
    }
    if forall n | 1 <= n <= count :: HeldAsCut(held, source, chunk, n) {
      forall n | 1 <= n <= count ensures n in held && PartPayload(source, |source|, chunk, n) == Some(held[n]) {
        assert HeldAsCut(held, source, chunk, n);
      }
      HeldPartsMerge(source, chunk, held, count);
      ChunkingRoundTrip(source, chunk, count);
    }
  }

  // The guard is what makes the lengths right: without it wrong cuts may even merge to the source.
  lemma ShiftedCutsMayMerge() returns (puts: seq<Put>, source: seq<Byte>)
    ensures |source| == 3 && !Guarded(puts, 3)
    ensures MergeStored(Stored(puts, 2), PartCountFor(3, 2)) == Some(source) && !HeldAsCut(Stored(puts, 2), source, 2, 1)
  {
    source := [1, 2, 3];
    var a, b: seq<Byte> := [1], [9, 9, 2, 3];
    puts := [Put(a, 1), Put(b, 2)];
    PartsTileTheFile(a, 2, 1);
    PartsTileTheFile(b, 2, 2);
    PartsTileTheFile(source, 2, 1);
    assert a[0..1] == [1] && b[2..4] == [2, 3] && source[0..2] == [1, 2];
    TwoPuts(Put(a, 1), Put(b, 2), 2, [1], [2, 3]);
    assert [1] + [2, 3] == source;
    assert puts[0] in puts;
  }

  // The store after two puts of different parts.
  lemma TwoPuts(p: Put, q: Put, chunk: nat, first: seq<Byte>, second: seq<Byte>)
    requires chunk > 0 && p.number == 1 && q.number == 2
    requires PartPayload(p.file, |p.file|, chunk, 1) == Some(first) && PartPayload(q.file, |q.file|, chunk, 2) == Some(second)
    ensures Stored([p, q], chunk) == map[1 := first, 2 := second]
    ensures MergeStored(Stored([p, q], chunk), 2) == Some(first + second)
  {
    assert [p, q][..1] == [p] && [p][..0] == [];
    assert Stored([p], chunk) == map[1 := first];
    var held := Stored([p, q], chunk);
    assert held == map[1 := first][2 := second];
    assert MergeStored(held, 1) == Some([] + first) && [] + first == first;
  }

  // Files that are prefixes of the source, as pulls against an unchanged source leave them: the guard
  // leaves only the source itself and the empty file, so any mix of earlier and later rounds merges
  // to the source if and only if no part is missing.
  lemma PrefixRoundsMergeIff(puts: seq<Put>, source: seq<Byte>, chunk: nat)
    requires chunk > 0 && |source| > 0 && Guarded(puts, |source|) && forall p <- puts :: p.file <= source
    ensures MergeStored(Stored(puts, chunk), PartCountFor(|source|, chunk)) == Some(source) <==>
              forall n | 1 <= n <= PartCountFor(|source|, chunk) :: n in Stored(puts, chunk)
  {
    MergeIsSourceIff(puts, source, chunk);
    forall n | n in Stored(puts, chunk) ensures n >= 1 && HeldAsCut(Stored(puts, chunk), source, chunk, n) {
      StoredPartsAreSourceCuts(puts, source, chunk, n);
    }
    var count := PartCountFor(|source|, chunk);
    if forall n | 1 <= n <= count :: HeldAsCut(Stored(puts, chunk), source, chunk, n) {
      forall n | 1 <= n <= count ensures n in Stored(puts, chunk) {
        assert HeldAsCut(Stored(puts, chunk), source, chunk, n);
      }
    }
  }

  lemma {:induction false} StoredPartsAreSourceCuts(puts: seq<Put>, source: seq<Byte>, chunk: nat, n: nat)
    requires chunk > 0 && |source| > 0 && n in Stored(puts, chunk)
    requires Guarded(puts, |source|) && forall p <- puts :: p.file <= source
    ensures n >= 1 && HeldAsCut(Stored(puts, chunk), source, chunk, n)
  {
    var front, last := puts[..|puts| - 1], puts[|puts| - 1];
    assert last in puts;
    if last.number == n && n > 0 && PartPayload(last.file, |last.file|, chunk, n).Some? {
      assert last.file != [] ==> last.file == source;
    } else {
      StoredPartsAreSourceCuts(front, source, chunk, n);
    }
  }

  // The guard compares sizes, not bytes: a package rebuilt with the same size between two rounds
  // passes it, and the merge is a hybrid.
  lemma SameSizeRebuildMixes() returns (puts: seq<Put>, a: seq<Byte>, b: seq<Byte>)
    ensures |a| == |b| == 2 && Guarded(puts, |a|) && puts == [Put(a, 1), Put(b, 2)]
    ensures MergeStored(Stored(puts, 1), PartCountFor(2, 1)).Some?
    ensures MergeStored(Stored(puts, 1), PartCountFor(2, 1)) != Some(a) && MergeStored(Stored(puts, 1), PartCountFor(2, 1)) != Some(b)
  {
    a, b := [1, 2], [3, 4];
    puts := [Put(a, 1), Put(b, 2)];
    PartsTileTheFile(a, 1, 1);
    PartsTileTheFile(b, 1, 2);
    assert a[0..1] == [1] && b[1..2] == [4];
    TwoPuts(Put(a, 1), Put(b, 2), 1, [1], [4]);
    var merged: seq<Byte> := [1] + [4];
    assert merged[1] != a[1] && merged[0] != b[0];
  }

  // Without a known submitted size nothing is compared, and a package that grew between two rounds
  // mixes as well; a known size refuses one of the two rounds.
  lemma UnguardedRoundsMayMix() returns (puts: seq<Put>, a: seq<Byte>, b: seq<Byte>)
    ensures Guarded(puts, 0) && !Guarded(puts, |a|) && !Guarded(puts, |b|) && puts == [Put(a, 1), Put(b, 2)]
    ensures var merged := MergeStored(Stored(puts, 1), PartCountFor(|b|, 1));
            merged.Some? && merged.value != b && |merged.value| == |b|
  {
    a, b := [1], [3, 4];
    puts := [Put(a, 1), Put(b, 2)];
    PartsTileTheFile(a, 1, 1);
    PartsTileTheFile(b, 1, 2);
    assert a[0..1] == [1] && b[1..2] == [4];
    TwoPuts(Put(a, 1), Put(b, 2), 1, [1], [4]);
    var merged: seq<Byte> := [1] + [4];
    assert merged[0] != b[0];
    assert puts[0] in puts && puts[1] in puts;
  }

  // ---------- The sequential uploader ----------

  function ArchivePartLength(total: int, chunk: nat, number: nat): int {
    var offset := (number - 1) * chunk;
    if total > 0 && offset + chunk > total then total - offset else chunk
  }

  // What uploadArchiveParts sends as part `number`; `total` is the size the request states, not
  // positive when it states none.
  function ArchivePart(file: seq<Byte>, total: int, chunk: nat, number: nat): Option<seq<Byte>>
    requires chunk > 0 && number >= 1
  {
    var expected := ArchivePartLength(total, chunk, number);
    if expected <= 0 then None else Some(ReadAt(file, (number - 1) * chunk, expected))
  }

  // A stated size that is the file's cuts as above; without one the last part is padded with zeros,
  // so a part is the right piece exactly when the file has a full chunk there.
  lemma ArchivePartIsTheCutIff(file: seq<Byte>, total: int, chunk: nat, number: nat)
    requires chunk > 0 && number >= 1
    ensures total == |file| > 0 ==> ArchivePart(file, total, chunk, number) == PartPayload(file, |file|, chunk, number)
    ensures total <= 0 ==>
              (ArchivePart(file, total, chunk, number) == PartPayload(file, |file|, chunk, number) <==> number * chunk <= |file|)
  {
    assert number * chunk == (number - 1) * chunk + chunk;
    if total <= 0 {
      assert |ArchivePart(file, total, chunk, number).value| == chunk;
    }
  }

  // The sequential upload from part `number` on: what the platform holds afterwards, and whether
  // every missing part got through. `accepts` stands for the platform's answers.
  function UploadFrom(file: seq<Byte>, total: int, chunk: nat, partCount: nat, uploaded: set<nat>, accepts: nat -> bool,
                      parts: map<nat, seq<Byte>>, number: nat): (bool, map<nat, seq<Byte>>)
    requires chunk > 0 && number >= 1
    decreases partCount + 1 - number
  {
    if number > partCount then (true, parts)
    else if number in uploaded then UploadFrom(file, total, chunk, partCount, uploaded, accepts, parts, number + 1)
    else match ArchivePart(file, total, chunk, number)
      case Some(payload) =>
        if accepts(number)
        then UploadFrom(file, total, chunk, partCount, uploaded, accepts, parts[number := payload], number + 1)
        else (false, parts)
      case None => (false, parts)
  }

  // uploadArchiveParts: skips what the platform already has, stops at the first failing part.
  method UploadArchiveParts(file: seq<Byte>, total: int, chunk: nat, partCount: nat, uploaded: set<nat>,
                            accepts: nat -> bool, parts: map<nat, seq<Byte>>)
    returns (ok: bool, held: map<nat, seq<Byte>>)
    requires chunk > 0
    ensures (ok, held) == UploadFrom(file, total, chunk, partCount, uploaded, accepts, parts, 1)
  {
    held := parts;
    var number := 1;
    while number <= partCount
      invariant 1 <= number <= partCount + 1
      invariant UploadFrom(file, total, chunk, partCount, uploaded, accepts, parts, 1)
             == UploadFrom(file, total, chunk, partCount, uploaded, accepts, held, number)
    {
      if number !in uploaded {
        var expected := ArchivePartLength(total, chunk, number);
        if expected <= 0 || !accepts(number) {
          return false, held;
        }
        held := held[number := ReadAt(file, (number - 1) * chunk, expected)];
      }
      number := number + 1;
    }
    ok := true;
  }

  // What is there is never disturbed, and success means that every missing part is held as cut.
  lemma {:induction false} SequentialUploadIsComplete(file: seq<Byte>, total: int, chunk: nat, partCount: nat, uploaded: set<nat>,
                                     accepts: nat -> bool, parts: map<nat, seq<Byte>>, from: nat, n: nat)
    requires chunk > 0 && from >= 1 && n >= 1
    ensures var (ok, held) := UploadFrom(file, total, chunk, partCount, uploaded, accepts, parts, from);
            && (n in uploaded || n < from || n > partCount ==> (n in held <==> n in parts) && (n in held ==> held[n] == parts[n]))
            && (ok && n !in uploaded && from <= n <= partCount ==>
                  n in held && ArchivePart(file, total, chunk, n) == Some(held[n]))
    decreases partCount + 1 - from
  {
    if from <= partCount {
      if from in uploaded {
        SequentialUploadIsComplete(file, total, chunk, partCount, uploaded, accepts, parts, from + 1, n);
      } else {
        var cut := ArchivePart(file, total, chunk, from);
        if cut.Some? && accepts(from) {
          SequentialUploadIsComplete(file, total, chunk, partCount, uploaded, accepts, parts[from := cut.value], from + 1, n);
        }
      }
    }
  }

  // With the right size, nothing uploaded before and every part accepted, the merge is the file.
  lemma {:induction false} SequentialUploadMerges(file: seq<Byte>, chunk: nat, accepts: nat -> bool)
    requires chunk > 0 && |file| > 0
    ensures var (ok, held) := UploadFrom(file, |file|, chunk, PartCountFor(|file|, chunk), {}, accepts, map[], 1);
            ok ==> MergeStored(held, PartCountFor(|file|, chunk)) == Some(file)
  {
    var count := PartCountFor(|file|, chunk);
    var (ok, held) := UploadFrom(file, |file|, chunk, count, {}, accepts, map[], 1);
    if ok {
      forall n | 1 <= n <= count ensures n in held && PartPayload(file, |file|, chunk, n) == Some(held[n]) {
        SequentialUploadIsComplete(file, |file|, chunk, count, {}, accepts, map[], 1, n);
        ArchivePartIsTheCutIff(file, |file|, chunk, n);
      }
      HeldPartsMerge(file, chunk, held, count);
      ChunkingRoundTrip(file, chunk, count);
    }
  }
}
