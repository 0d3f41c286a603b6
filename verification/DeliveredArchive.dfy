/**
  From the node to the platform: pulls, the size guard, cutting and merging put together.
*/
module DeliveredArchive {
  import opened ArchivePull
  import opened Bytes
  import opened Options
  import opened PartChunking

  // One round of a delivery: what the environment does to its pulls, and the parts it gets through.
  datatype Round = Round(attempts: seq<Attempt>, numbers: seq<nat>)

  function Cuts(data: seq<Byte>, numbers: seq<nat>): (puts: seq<Put>)
    ensures forall p <- puts :: p.file == data
  {
    seq(|numbers|, k requires 0 <= k < |numbers| => Put(data, numbers[k]))
  }

  // What the rounds put when the local file was files[i] after the pulls of round i.
  function RoundPuts(submitted: int, rounds: seq<Round>, files: seq<seq<Byte>>): seq<Put>
    requires |files| == |rounds|
  {
    if rounds == [] then [] else
    var n := |rounds| - 1;
    RoundPuts(submitted, rounds[..n], files[..n])
    + if SourceSizeGuard(submitted, |files[n]|) == Proceed then Cuts(files[n], rounds[n].numbers) else []
  }

  // Some attempt of the round brings the whole source.
  ghost predicate PullsAll(round: Round, size: nat) { exists k | 0 <= k < |round.attempts| :: Brings(round.attempts[k], size) }

  // Part n was put by a round that pulled all.
  ghost predicate PutInFull(rounds: seq<Round>, files: seq<seq<Byte>>, source: seq<Byte>, n: nat)
    requires |files| == |rounds|
  {
    exists i | 0 <= i < |rounds| :: PullsAll(rounds[i], |source|) && files[i] <= source && n in rounds[i].numbers
  }

  lemma {:induction false} RoundPutsHave(submitted: int, rounds: seq<Round>, files: seq<seq<Byte>>, i: nat, n: nat)
    requires |files| == |rounds| && i < |rounds| && n in rounds[i].numbers && SourceSizeGuard(submitted, |files[i]|) == Proceed
    ensures Put(files[i], n) in RoundPuts(submitted, rounds, files)
    decreases |rounds|
  {
    var m := |rounds| - 1;
    if i == m {
      var k :| 0 <= k < |rounds[i].numbers| && rounds[i].numbers[k] == n;
      assert Cuts(files[i], rounds[i].numbers)[k] == Put(files[i], n);
    } else {
      RoundPutsHave(submitted, rounds[..m], files[..m], i, n);
    }
  }

  lemma {:induction false} PutsAreStored(puts: seq<Put>, chunk: nat, p: Put)
    requires chunk > 0 && p in puts && 1 <= p.number <= PartCountFor(|p.file|, chunk)
    ensures p.number in Stored(puts, chunk)
  {
    var last := puts[|puts| - 1];
    if last == p {
      PartsTileTheFile(p.file, chunk, p.number);
    } else {
      PutsAreStored(puts[..|puts| - 1], chunk, p);
    }
  }

  // What the rounds so far have left: the file never loses a byte of the source once it is a prefix, every
  // file is a prefix or too long, and a round that pulled all has left the source.
  ghost predicate Grows(rounds: seq<Round>, files: seq<seq<Byte>>, source: seq<Byte>)
    requires |files| <= |rounds|
  {
    && (forall i | 0 <= i < |files| :: PrefixOrTooLong(files[i], source))
    && (forall i, k | 0 <= i < k < |files| && files[i] <= source :: files[i] <= files[k] <= source)
    && (forall i | 0 <= i < |files| && PullsAll(rounds[i], |source|) && files[i] <= source :: files[i] == source)
  }

  lemma GrowsFromNothing(rounds: seq<Round>, source: seq<Byte>)
    ensures Grows(rounds, [], source)
  {
  }

  lemma GrowsOn(rounds: seq<Round>, files: seq<seq<Byte>>, source: seq<Byte>, data: seq<Byte>)
    requires |files| < |rounds| && Grows(rounds, files, source) && PrefixOrTooLong(data, source)
    requires files != [] && files[|files| - 1] <= source ==> files[|files| - 1] <= data <= source
    requires PullsAll(rounds[|files|], |source|) && data <= source ==> data == source
    ensures Grows(rounds, files + [data], source)
  {
    var n, longer := |files|, files + [data];
    forall i | 0 <= i < n && files[i] <= source ensures files[i] <= data <= source {
      assert i < n - 1 ==> files[i] <= files[n - 1] <= source;
    }
  }

  // The pulls of one round.
  method PullRound<S>(file: LocalFile, source: seq<Byte>, hash: Hash<S>, round: Round)
    requires |source| > 0 && PrefixOrTooLong(file.data, source)
    modifies file
    ensures PrefixOrTooLong(file.data, source)
    ensures old(file.data) <= source ==> old(file.data) <= file.data <= source
    ensures PullsAll(round, |source|) && file.data <= source ==> file.data == source
  {
    hide Brings;
    var used, outcome := PullUntilDone(file, source, hash, round.attempts);
    LackingLess(round.attempts, |source|);
  }

  // Any number of rounds against an unchanged source, each pulling as far as it gets and then, if the
  // local file passes the guard against the submitted size, putting some parts of it, in any order
  // and number. The platform's merge is the source if and only if no part is missing, and none is once
  // every part has been put by a round that pulled all.
  method Deliver<S>(file: LocalFile, source: seq<Byte>, hash: Hash<S>, chunk: nat, rounds: seq<Round>)
    returns (puts: seq<Put>, ghost files: seq<seq<Byte>>)
    requires |source| > 0 && chunk > 0 && PrefixOrTooLong(file.data, source)
    modifies file
    ensures |files| == |rounds| && puts == RoundPuts(|source|, rounds, files) && Grows(rounds, files, source)
    ensures MergeStored(Stored(puts, chunk), PartCountFor(|source|, chunk)) == Some(source) <==>
              forall n | 1 <= n <= PartCountFor(|source|, chunk) :: n in Stored(puts, chunk)
    ensures (forall n | 1 <= n <= PartCountFor(|source|, chunk) :: PutInFull(rounds, files, source, n)) ==>
              MergeStored(Stored(puts, chunk), PartCountFor(|source|, chunk)) == Some(source)
  {
    hide PullsAll, Grows, Stored, MergeStored, PutInFull;
    puts, files := [], [];
    GrowsFromNothing(rounds, source);
    for i := 0 to |rounds|
      invariant |files| == i && puts == RoundPuts(|source|, rounds[..i], files) && Grows(rounds, files, source)
      invariant PrefixOrTooLong(file.data, source) && (files != [] ==> file.data == files[i - 1])
      invariant Guarded(puts, |source|) && forall p <- puts :: p.file <= source
    {
      PullRound(file, source, hash, rounds[i]);
      GrowsOn(rounds, files, source, file.data);
      assert rounds[..i + 1][..i] == rounds[..i] && (files + [file.data])[..i] == files;
      files := files + [file.data];
      if SourceSizeGuard(|source|, |file.data|) == Proceed {
        puts := puts + Cuts(file.data, rounds[i].numbers);
      }
    }
    assert rounds[..|rounds|] == rounds;
    PrefixRoundsMergeIff(puts, source, chunk);
    FullRoundsStore(rounds, files, source, chunk);
  }

  lemma FullRoundsStore(rounds: seq<Round>, files: seq<seq<Byte>>, source: seq<Byte>, chunk: nat)
    requires chunk > 0 && |files| == |rounds| && Grows(rounds, files, source)
    ensures forall n | 1 <= n <= PartCountFor(|source|, chunk) && PutInFull(rounds, files, source, n) ::
              n in Stored(RoundPuts(|source|, rounds, files), chunk)
  {
    forall n | 1 <= n <= PartCountFor(|source|, chunk) && PutInFull(rounds, files, source, n)
      ensures n in Stored(RoundPuts(|source|, rounds, files), chunk)
    {
      var i :| 0 <= i < |rounds| && PullsAll(rounds[i], |source|) && files[i] <= source && n in rounds[i].numbers;
      RoundPutsHave(|source|, rounds, files, i, n);
      PutsAreStored(RoundPuts(|source|, rounds, files), chunk, Put(source, n));
    }
  }

  // When the source may be rebuilt, the size is not enough (SameSizeRebuildMixes); a SHA-256 baseline
  // is: rounds whose file the verdict accepted merge to the source if and only if no part is missing,
  // unless a file with other bytes has the same digest.
  lemma AcceptedRoundsMergeIff<S>(sha: Hash<S>, source: seq<Byte>, puts: seq<Put>, chunk: nat)
    requires chunk > 0 && |source| > 0 && Guarded(puts, |source|) && PrintsLower(sha)
    requires forall p <- puts ::
               VerifyPulledIntegrity(Digest(sha, source), "", Digest(sha, p.file), "", |p.file|, |source|) == Accepted
               && !Collides(sha, source, p.file)
    ensures MergeStored(Stored(puts, chunk), PartCountFor(|source|, chunk)) == Some(source) <==>
              forall n | 1 <= n <= PartCountFor(|source|, chunk) :: n in Stored(puts, chunk)
  {
    assert Printed(Digest(sha, source));
    forall p | p in puts ensures p.file <= source {
      assert Printed(Digest(sha, p.file));
    }
    PrefixRoundsMergeIff(puts, source, chunk);
  }
}
