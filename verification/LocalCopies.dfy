/**
  Cleanup of the local copies that deliveries leave in one directory: which files a round removes,
  for which reason, and how the directory is brought back under its cap.

  Times and durations are in seconds. Nothing else writes the directory during a round; a removal
  either succeeds (a file that is already gone counts as removed) or is refused by the system.
*/
module LocalCopies {
  import opened DeliveryPhases
  import opened LetterCase
  import opened Options

  // One directory entry, by full path.
  datatype Info = Info(isDir: bool, mod: int, size: nat)

  type Directory = map<string, Info>

  datatype Ref = Ref(job: string, phase: Phase)

  datatype Policy = Policy(failureTTL: int, maxBytes: int, dryRun: bool, disabled: bool)

  const ORPHAN_GRACE := 3600

  predicate IsZip(path: string) { |path| >= 4 && Lower(path[|path| - 4..]) == ".zip" }

  // By the last four characters, in any case.
  lemma ZipByItsEnding(stem: string, ending: string)
    requires |ending| == 4
    ensures IsZip(stem + ending) <==> Lower(ending) == ".zip"
    ensures |stem| < 4 ==> !IsZip(stem)
  {
    assert (stem + ending)[|stem + ending| - 4..] == ending;
  }

  // The files a round looks at.
  predicate Candidate(dir: Directory, path: string) { path in dir && !dir[path].isDir && IsZip(path) }

  // ---------- References ----------

  // What a job record says about its local copy.
  datatype Claim = Claim(job: string, localPath: string, phase: Phase)

  // The loops of localCopyReferences over `claims`: the jobs in memory, then the job files.
  method References(claims: seq<Claim>) returns (refs: map<string, Ref>)
    ensures refs == RefsOf(claims)
  {
    refs := map[];
    for i := 0 to |claims|
      invariant refs == RefsOf(claims[..i])
    {
      assert claims[..i + 1][..i] == claims[..i];
      if claims[i].localPath != "" {
        refs := refs[Lower(claims[i].localPath) := Ref(claims[i].job, claims[i].phase)];
      }
    }
    assert claims[..|claims|] == claims;
  }

  function RefsOf(claims: seq<Claim>): map<string, Ref> {
    if claims == [] then map[] else
    var rest := RefsOf(claims[..|claims| - 1]);
    var last := claims[|claims| - 1];
    if last.localPath == "" then rest else rest[Lower(last.localPath) := Ref(last.job, last.phase)]
  }

  predicate Claims(c: Claim, key: string) { c.localPath != "" && Lower(c.localPath) == key }

  // A path is protected from every branch of a round.
  predicate Protected(refs: map<string, Ref>, path: string) {
    Lower(path) in refs && !refs[Lower(path)].phase.Terminal()
  }

  // Where the last record of a path stands, -1 when there is none.
  function LastClaim(claims: seq<Claim>, key: string): (last: int)
    ensures -1 <= last < |claims| && (last >= 0 ==> Claims(claims[last], key))
    ensures forall k | last < k < |claims| :: !Claims(claims[k], key)
  {
    var last := |claims| - 1;
    if claims == [] || Claims(claims[last], key) then last else LastClaim(claims[..last], key)
  }

  // The last record that names a path decides alone, so a copy in use is protected exactly when that
  // record is not terminal, whatever the other records say.
  lemma {:induction false} ProtectedIffLastClaimIsLive(claims: seq<Claim>, path: string)
    ensures var last := LastClaim(claims, Lower(path));
            Protected(RefsOf(claims), path) <==> last >= 0 && !claims[last].phase.Terminal()
  {
    LastClaimIsTheReference(claims, Lower(path));
  }

  lemma {:induction false} LastClaimIsTheReference(claims: seq<Claim>, key: string)
    ensures var last := LastClaim(claims, key);
            && (key in RefsOf(claims) <==> last >= 0)
            && (last >= 0 ==> RefsOf(claims)[key] == Ref(claims[last].job, claims[last].phase))
  {
    var last := |claims| - 1;
    if claims != [] && !Claims(claims[last], key) {
      LastClaimIsTheReference(claims[..last], key);
    }
  }

  // ---------- Why a file goes ----------

  datatype Reason = Delivered | Expired | Orphan | OverCap

  // The switch of reconcileLocalCopies.
  function ReasonFor(refs: map<string, Ref>, policy: Policy, now: int, path: string, info: Info): Option<Reason> {
    var key := Lower(path);
    if key in refs && refs[key].phase == Done then Some(Delivered)
    else if key in refs && refs[key].phase == Phase.Failed then (if now - info.mod >= policy.failureTTL then Some(Expired) else None)
    else if key in refs then None
    else if now - info.mod >= ORPHAN_GRACE then Some(Orphan) else None
  }

  // The same by the records themselves: the last one that names the path decides. A delivered copy goes at
  // once, one of a failed job when it has not been touched for the failure TTL, one that no record names
  // when it has not been touched for an hour, and the copy of any other job never.
  predicate Due(claims: seq<Claim>, policy: Policy, now: int, path: string, info: Info, reason: Reason) {
    var last := LastClaim(claims, Lower(path));
    match reason
    case Delivered => last >= 0 && claims[last].phase == Done
    case Expired => last >= 0 && claims[last].phase == Phase.Failed && now - info.mod >= policy.failureTTL
    case Orphan => last < 0 && now - info.mod >= 3600
    case OverCap => false
  }

  lemma DueIff(claims: seq<Claim>, policy: Policy, now: int, path: string, info: Info, reason: Reason)
    ensures ReasonFor(RefsOf(claims), policy, now, path, info) == Some(reason) <==> Due(claims, policy, now, path, info, reason)
  {
    LastClaimIsTheReference(claims, Lower(path));
  }

  datatype Removal = Removal(path: string, size: nat, reason: Reason)

  function Bytes(log: seq<Removal>): nat {
    if log == [] then 0 else Bytes(log[..|log| - 1]) + log[|log| - 1].size
  }

  function CountOf(log: seq<Removal>, reason: Reason): nat {
    if log == [] then 0 else CountOf(log[..|log| - 1], reason) + if log[|log| - 1].reason == reason then 1 else 0
  }

  // Every removal has exactly one reason.
  lemma {:induction false} CountsAddUp(log: seq<Removal>)
    ensures |log| == CountOf(log, Delivered) + CountOf(log, Expired) + CountOf(log, Orphan) + CountOf(log, OverCap)
  {
    if log != [] {
      CountsAddUp(log[..|log| - 1]);
    }
  }

  // The report of a round; `log` is what was removed, in order.
  class Report {
    var removed: nat
    var bytes: nat
    var reasons: map<Reason, nat>
    ghost var log: seq<Removal>

    constructor ()
      ensures removed == 0 && log == [] && Agrees(0)
    {
      removed, bytes, reasons, log := 0, 0, map[], [];
    }

    function Reasons(reason: Reason): nat
      reads this
    {
      if reason in reasons then reasons[reason] else 0
    }

    // The figures are those of the log; the last `pending` removals are not in `removed` yet.
    ghost predicate Agrees(pending: nat)
      reads this
    {
      removed + pending == |log| && bytes == Bytes(log) && forall reason :: Reasons(reason) == CountOf(log, reason)
    }

    // Takes one removal into `removed`.
    method Settle(ghost pending: nat)
      requires Agrees(pending + 1)
      modifies this
      ensures Agrees(pending) && log == old(log)
    {
      removed := removed + 1;
    }

    method Note(ghost path: string, size: nat, reason: Reason, ghost pending: nat)
      requires Agrees(pending)
      modifies this
      ensures log == old(log) + [Removal(path, size, reason)] && removed == old(removed) && Agrees(pending + 1)
    {
      bytes := bytes + size;
      reasons := reasons[reason := Reasons(reason) + 1];
      log := log + [Removal(path, size, reason)];
      assert log[..|log| - 1] == old(log);
    }
  }

  // ---------- Sizes ----------

  function Weight(dir: Directory, path: string): nat
    requires path in dir
  {
    if Candidate(dir, path) then dir[path].size else 0
  }

  // The bytes of all candidates.
  ghost function Total(dir: Directory): nat
    decreases |dir|
  {
    if dir == map[] then 0 else
    var path :| path in dir;
    assert |dir - {path}| < |dir| by { assert (dir - {path}).Keys == dir.Keys - {path}; }
    Weight(dir, path) + Total(dir - {path})
  }

  lemma {:induction false} TotalWithout(dir: Directory, path: string)
    requires path in dir
    ensures Total(dir) == Weight(dir, path) + Total(dir - {path})
    decreases |dir|
  {
    var first :| first in dir && Total(dir) == Weight(dir, first) + Total(dir - {first});
    if first == path {
      assert dir - {first} == dir - {path};
    } else {
      var both := dir - {first} - {path};
      assert both == dir - {path} - {first};
      assert (dir - {first}).Keys == dir.Keys - {first} && (dir - {path}).Keys == dir.Keys - {path};
      TotalWithout(dir - {first}, path);
      TotalWithout(dir - {path}, first);
      assert Weight(dir - {first}, path) == Weight(dir, path);
      assert Weight(dir - {path}, first) == Weight(dir, first);
      assert Total(dir - {path}) == Weight(dir, first) + Total(both);
      assert Total(dir - {first}) == Weight(dir, path) + Total(both);
    }
  }

  lemma TotalIsCounted(dir: Directory, path: string)
    requires path in dir
    ensures Candidate(dir, path) ==> Total(dir - {path}) == Total(dir) - dir[path].size
    ensures !Candidate(dir, path) ==> Total(dir - {path}) == Total(dir)
  {
    TotalWithout(dir, path);
  }

  // ---------- Accounting ----------

  function PathsOf(log: seq<Removal>): set<string> { set r <- log :: r.path }

  // A removal the policy allows, of a file no live job refers to.
  ghost predicate Justified(dir: Directory, refs: map<string, Ref>, policy: Policy, now: int, r: Removal) {
    && Candidate(dir, r.path) && r.size == dir[r.path].size && !Protected(refs, r.path)
    && (r.reason == OverCap || ReasonFor(refs, policy, now, r.path, dir[r.path]) == Some(r.reason))
  }

  // `files` is what is left of `dir` after the removals of `log`.
  ghost predicate Accounts(dir: Directory, log: seq<Removal>, files: Directory) {
    && files == dir - PathsOf(log)
    && PathsOf(log) <= dir.Keys
    && (forall i, k | 0 <= i < k < |log| :: log[i].path != log[k].path)
    && Total(files) + Bytes(log) == Total(dir)
  }

  lemma AccountsForOneMore(dir: Directory, log: seq<Removal>, files: Directory, r: Removal)
    requires Accounts(dir, log, files) && r.path in files && Candidate(dir, r.path) && r.size == dir[r.path].size
    ensures Accounts(dir, log + [r], files - {r.path})
  {
    var longer := log + [r];
    assert longer[..|log|] == log;
    assert PathsOf(longer) == PathsOf(log) + {r.path} by {
      assert longer[|log|] == r;
      forall p | p in PathsOf(log) ensures p in PathsOf(longer) {
        var i :| 0 <= i < |log| && log[i].path == p;
        assert longer[i].path == p;
      }
    }
    forall i | 0 <= i < |log| ensures log[i].path != r.path {
      assert log[i] in log;
    }
    TotalIsCounted(files, r.path);
  }

  lemma NothingRemovedYet(dir: Directory)
    ensures Accounts(dir, [], dir)
  {
    assert PathsOf([]) == {};
    assert dir - {} == dir;
  }

  // ---------- The directory ----------

  ghost predicate Lists(names: seq<string>, dir: Directory) {
    && (forall p :: p in names <==> p in dir)
    && (forall i, k | 0 <= i < k < |names| :: names[i] != names[k])
  }

  ghost predicate OldestFirst(dir: Directory, order: seq<string>) {
    && (forall p <- order :: p in dir)
    && (forall i, k | 0 <= i < k < |order| :: dir[order[i]].mod <= dir[order[k]].mod)
  }

  ghost predicate Distinct(order: seq<string>) { forall i, k | 0 <= i < k < |order| :: order[i] != order[k] }

  // The candidates, oldest first; files of the same age may come in any order.
  ghost predicate AgeOrder(dir: Directory, order: seq<string>) {
    && (forall p :: p in order <==> Candidate(dir, p))
    && Distinct(order) && OldestFirst(dir, order)
  }

  // What an eviction pass over `order` can remove.
  function Evictable(order: seq<string>, refs: map<string, Ref>, refuses: set<string>): set<string> {
    set p <- order | !Protected(refs, p) && p !in refuses
  }

  // A job that was replaced while its new file could not be written: the failed snapshot of the old
  // session, on disk under its own name, hides the new job that is pulling into the same path, and
  // both passes take the copy in use.
  lemma LiveCopyMayBeRemoved(policy: Policy, now: int, info: Info)
    requires now - info.mod >= policy.failureTTL
    ensures exists claims: seq<Claim>, path: string ::
              && claims != [] && claims[0].phase == Pulling && Claims(claims[0], Lower(path))
              && ReasonFor(RefsOf(claims), policy, now, path, info) == Some(Expired)
              && Evictable([path], RefsOf(claims), {}) == {path}
  {
    var path := "/tmp/7.zip";
    var claims := [Claim("dj-7", path, Pulling), Claim("dj-7-superseded", path, Phase.Failed)];
    LastClaimIsTheReference(claims, Lower(path));
    assert LastClaim(claims, Lower(path)) == 1;
    assert Claims(claims[0], Lower(path));
    assert ReasonFor(RefsOf(claims), policy, now, path, info) == Some(Expired);
    assert Evictable([path], RefsOf(claims), {}) == {path};
  }

  // Every file the switch of reconcileLocalCopies selects.
  function Selected(dir: Directory, refs: map<string, Ref>, policy: Policy, now: int): set<string> {
    set p <- dir.Keys | Candidate(dir, p) && ReasonFor(refs, policy, now, p, dir[p]).Some?
  }

  // The directory once the evictable files among the first k of `order` are gone.
  ghost function AfterPrefix(dir: Directory, order: seq<string>, k: nat, refs: map<string, Ref>, refuses: set<string>): Directory
    requires k <= |order|
  {
    dir - Evictable(order[..k], refs, refuses)
  }

  lemma NextPrefix(dir: Directory, order: seq<string>, k: nat, refs: map<string, Ref>, refuses: set<string>)
    requires k < |order| && AgeOrder(dir, order)
    ensures order[k] in AfterPrefix(dir, order, k, refs, refuses)
    ensures AfterPrefix(dir, order, k + 1, refs, refuses) ==
              if Protected(refs, order[k]) || order[k] in refuses then AfterPrefix(dir, order, k, refs, refuses)
              else AfterPrefix(dir, order, k, refs, refuses) - {order[k]}
  {
    assert order[..k + 1] == order[..k] + [order[k]];
    assert Candidate(dir, order[k]);
    assert order[k] !in order[..k];
  }

  lemma NoPrefix(dir: Directory, order: seq<string>, refs: map<string, Ref>, refuses: set<string>)
    ensures AfterPrefix(dir, order, 0, refs, refuses) == dir
  {
    assert Evictable(order[..0], refs, refuses) == {};
    assert dir - {} == dir;
  }

  // The log grew by files of no live job, all taken because of the cap.
  ghost predicate OnlyOverCap(base: Directory, refs: map<string, Ref>, before: seq<Removal>, log: seq<Removal>) {
    && before <= log
    && forall i | |before| <= i < |log| ::
         log[i].reason == OverCap && Candidate(base, log[i].path) && log[i].size == base[log[i].path].size && !Protected(refs, log[i].path)
  }

  // The eviction pass has looked at the first k files, and had to.
  ghost predicate Evicted(dir: Directory, order: seq<string>, k: nat, refs: map<string, Ref>, refuses: set<string>, cap: int, files: Directory)
  {
    && k <= |order| && files == AfterPrefix(dir, order, k, refs, refuses)
    && forall m | 0 <= m < k :: Total(AfterPrefix(dir, order, m, refs, refuses)) > cap
  }

  lemma NextEvicted(dir: Directory, order: seq<string>, k: nat, refs: map<string, Ref>, refuses: set<string>, cap: int, files: Directory)
    requires AgeOrder(dir, order) && k < |order| && Evicted(dir, order, k, refs, refuses, cap, files) && Total(files) > cap
    ensures order[k] in files && Candidate(dir, order[k]) && files[order[k]] == dir[order[k]]
    ensures Protected(refs, order[k]) || order[k] in refuses ==> Evicted(dir, order, k + 1, refs, refuses, cap, files)
    ensures !Protected(refs, order[k]) && order[k] !in refuses ==> Evicted(dir, order, k + 1, refs, refuses, cap, files - {order[k]})
  {
    NextPrefix(dir, order, k, refs, refuses);
  }

  // What the first pass takes among some paths.
  function SweptAmong(dir: Directory, paths: seq<string>, refs: map<string, Ref>, policy: Policy, now: int, refuses: set<string>): set<string> {
    set p <- paths | p in Selected(dir, refs, policy, now) && p !in refuses
  }

  ghost function AfterSweep(dir: Directory, names: seq<string>, k: nat, refs: map<string, Ref>, policy: Policy, now: int,
                            refuses: set<string>): Directory
    requires k <= |names|
  {
    dir - SweptAmong(dir, names[..k], refs, policy, now, refuses)
  }

  lemma NextSwept(dir: Directory, names: seq<string>, k: nat, refs: map<string, Ref>, policy: Policy, now: int, refuses: set<string>)
    requires k < |names| && Distinct(names) && Candidate(dir, names[k])
    ensures names[k] in AfterSweep(dir, names, k, refs, policy, now, refuses)
    ensures AfterSweep(dir, names, k + 1, refs, policy, now, refuses) ==
              if ReasonFor(refs, policy, now, names[k], dir[names[k]]) == None || names[k] in refuses
              then AfterSweep(dir, names, k, refs, policy, now, refuses)
              else AfterSweep(dir, names, k, refs, policy, now, refuses) - {names[k]}
  {
    assert names[..k + 1] == names[..k] + [names[k]];
    assert names[k] !in names[..k];
  }

  lemma SweepEnds(dir: Directory, names: seq<string>, refs: map<string, Ref>, policy: Policy, now: int, refuses: set<string>)
    requires forall p :: p in names <==> Candidate(dir, p)
    ensures AfterSweep(dir, names, 0, refs, policy, now, refuses) == dir
    ensures AfterSweep(dir, names, |names|, refs, policy, now, refuses) == dir - (Selected(dir, refs, policy, now) - refuses)
  {
    assert names[..|names|] == names;
    assert SweptAmong(dir, names[..0], refs, policy, now, refuses) == {} && dir - {} == dir;
    assert SweptAmong(dir, names, refs, policy, now, refuses) == Selected(dir, refs, policy, now) - refuses;
  }

  ghost predicate SweptFor(dir: Directory, refs: map<string, Ref>, policy: Policy, now: int, log: seq<Removal>) {
    forall i | 0 <= i < |log| ::
      && Candidate(dir, log[i].path) && log[i].size == dir[log[i].path].size
      && ReasonFor(refs, policy, now, log[i].path, dir[log[i].path]) == Some(log[i].reason)
  }

  lemma SweptForOneMore(dir: Directory, refs: map<string, Ref>, policy: Policy, now: int, log: seq<Removal>, r: Removal)
    requires SweptFor(dir, refs, policy, now, log) && Candidate(dir, r.path) && r.size == dir[r.path].size
    requires ReasonFor(refs, policy, now, r.path, dir[r.path]) == Some(r.reason)
    ensures SweptFor(dir, refs, policy, now, log + [r])
  {
  }

  // The first pass enters what the switch selects, for the reason it selects it, unless the system refuses.
  lemma SweptExactly(dir: Directory, refs: map<string, Ref>, policy: Policy, now: int, stuck: set<string>, log: seq<Removal>,
                     shadow: Directory, path: string, reason: Reason)
    requires SweptFor(dir, refs, policy, now, log) && Accounts(dir, log, shadow)
    requires shadow == dir - (Selected(dir, refs, policy, now) - stuck) && Candidate(dir, path) && path !in stuck
    ensures Removal(path, dir[path].size, reason) in log <==> ReasonFor(refs, policy, now, path, dir[path]) == Some(reason)
    ensures ReasonFor(refs, policy, now, path, dir[path]).Some? <==> path !in shadow
  {
    if ReasonFor(refs, policy, now, path, dir[path]) == Some(reason) {
      assert path !in shadow && path in PathsOf(log);
      var i :| 0 <= i < |log| && log[i].path == path;
      assert log[i] == Removal(path, dir[path].size, reason);
    }
  }

  // The report of the first pass, by the records: an entry for each candidate that is due, and the reason.
  ghost predicate EntersTheDue(dir: Directory, claims: seq<Claim>, policy: Policy, now: int, refuses: set<string>, log: seq<Removal>) {
    forall path, reason | Candidate(dir, path) && path !in refuses && reason != OverCap ::
      Removal(path, dir[path].size, reason) in log <==> Due(claims, policy, now, path, dir[path], reason)
  }

  // What is due goes, and what is not stays.
  ghost predicate TakesTheDue(dir: Directory, claims: seq<Claim>, policy: Policy, now: int, refuses: set<string>, left: Directory) {
    forall path | Candidate(dir, path) && path !in refuses ::
      path !in left <==> exists reason :: Due(claims, policy, now, path, dir[path], reason)
  }

  lemma SweptIsDue(dir: Directory, claims: seq<Claim>, policy: Policy, now: int, stuck: set<string>, log: seq<Removal>, shadow: Directory)
    requires SweptFor(dir, RefsOf(claims), policy, now, log) && Accounts(dir, log, shadow)
    requires shadow == dir - (Selected(dir, RefsOf(claims), policy, now) - stuck)
    ensures EntersTheDue(dir, claims, policy, now, stuck, log) && TakesTheDue(dir, claims, policy, now, stuck, shadow)
  {
    forall path, reason | Candidate(dir, path) && path !in stuck
      ensures Removal(path, dir[path].size, reason) in log <==> Due(claims, policy, now, path, dir[path], reason)
      ensures path !in shadow <==> ReasonFor(RefsOf(claims), policy, now, path, dir[path]).Some?
    {
      SweptExactly(dir, RefsOf(claims), policy, now, stuck, log, shadow, path, reason);
      DueIff(claims, policy, now, path, dir[path], reason);
    }
    hide SweptFor, Accounts, Due, ReasonFor;
    forall path | Candidate(dir, path) && path !in stuck
      ensures path !in shadow <==> exists reason :: Due(claims, policy, now, path, dir[path], reason)
    {
      DueForSome(dir, claims, policy, now, path);
      SweptExactly(dir, RefsOf(claims), policy, now, stuck, log, shadow, path, OverCap);
    }
  }

  lemma DueForSome(dir: Directory, claims: seq<Claim>, policy: Policy, now: int, path: string)
    requires path in dir
    ensures ReasonFor(RefsOf(claims), policy, now, path, dir[path]).Some? <==> exists reason :: Due(claims, policy, now, path, dir[path], reason)
  {
    forall reason: Reason ensures ReasonFor(RefsOf(claims), policy, now, path, dir[path]) == Some(reason) <==> Due(claims, policy, now, path, dir[path], reason) {
      DueIff(claims, policy, now, path, dir[path], reason);
    }
    var r := ReasonFor(RefsOf(claims), policy, now, path, dir[path]);
    if r.Some? {
      assert Due(claims, policy, now, path, dir[path], r.value);
    }
  }

  // Evicting enters nothing else.
  lemma EvictingEntersOverCap(dir: Directory, claims: seq<Claim>, policy: Policy, now: int, refuses: set<string>, swept: seq<Removal>, log: seq<Removal>)
    requires EntersTheDue(dir, claims, policy, now, refuses, swept) && OnlyOverCap(dir, RefsOf(claims), swept, log)
    ensures EntersTheDue(dir, claims, policy, now, refuses, log)
  {
    forall path, reason | Candidate(dir, path) && path !in refuses && reason != OverCap
      ensures Removal(path, dir[path].size, reason) in log <==> Removal(path, dir[path].size, reason) in swept
    {
      var r := Removal(path, dir[path].size, reason);
      if r in log {
        var i :| 0 <= i < |log| && log[i] == r;
        assert i < |swept| && swept[i] == r;
      }
    }
  }

  lemma SweptIsJustified(dir: Directory, refs: map<string, Ref>, policy: Policy, now: int, log: seq<Removal>)
    requires SweptFor(dir, refs, policy, now, log)
    ensures forall r <- log :: Justified(dir, refs, policy, now, r)
  {
    forall r | r in log ensures Justified(dir, refs, policy, now, r) {
      var i :| 0 <= i < |log| && log[i] == r;
      assert ReasonFor(refs, policy, now, r.path, dir[r.path]) == Some(r.reason);
    }
  }

  lemma OverCapIsJustified(dir: Directory, refs: map<string, Ref>, policy: Policy, now: int, swept: seq<Removal>, log: seq<Removal>)
    requires SweptFor(dir, refs, policy, now, swept) && OnlyOverCap(dir, refs, swept, log)
    ensures forall r <- log :: Justified(dir, refs, policy, now, r)
  {
    SweptIsJustified(dir, refs, policy, now, swept);
    forall r | r in log ensures Justified(dir, refs, policy, now, r) {
      var i :| 0 <= i < |log| && log[i] == r;
      if i < |swept| {
        assert swept[i] in swept;
      }
    }
  }

  lemma LogSparesLiveCopies(dir: Directory, refs: map<string, Ref>, policy: Policy, now: int, log: seq<Removal>)
    requires forall r <- log :: Justified(dir, refs, policy, now, r)
    ensures forall p | p in dir && (Protected(refs, p) || !Candidate(dir, p)) :: p in dir - PathsOf(log)
  {
  }

  // When the whole order was gone through, only protected and refused candidates are left.
  lemma WholeOrderIsGone(dir: Directory, order: seq<string>, refs: map<string, Ref>, refuses: set<string>, files: Directory)
    requires AgeOrder(dir, order) && files == AfterPrefix(dir, order, |order|, refs, refuses)
    ensures forall p | Candidate(files, p) :: Protected(refs, p) || p in refuses
  {
    assert order[..|order|] == order;
    forall p | Candidate(files, p) ensures Protected(refs, p) || p in refuses {
      assert Candidate(dir, p) && p in order;
    }
  }

  // What is left of the directory after its first i names.
  ghost function Unseen(dir: Directory, names: seq<string>, i: nat): Directory
    requires i <= |names|
  {
    dir - set p <- names[..i]
  }

  lemma ScanStep(dir: Directory, names: seq<string>, i: nat)
    requires Lists(names, dir) && i < |names|
    ensures Total(Unseen(dir, names, i)) == Weight(dir, names[i]) + Total(Unseen(dir, names, i + 1))
  {
    assert names[..i + 1] == names[..i] + [names[i]];
    var rest := Unseen(dir, names, i);
    assert names[i] in rest;
    TotalWithout(rest, names[i]);
    assert Unseen(dir, names, i + 1) == rest - {names[i]};
    assert Weight(rest, names[i]) == Weight(dir, names[i]);
  }

  lemma ScanEnds(dir: Directory, names: seq<string>)
    requires Lists(names, dir)
    ensures Unseen(dir, names, 0) == dir && Total(Unseen(dir, names, |names|)) == 0
  {
    assert (set p <- names[..0]) == {} && dir - {} == dir;
    assert Unseen(dir, names, |names|) == map[];
  }

  // `items` are the candidates among the first i names.
  ghost predicate Found(dir: Directory, names: seq<string>, i: nat, items: seq<string>) {
    i <= |names| && (forall p :: p in items <==> Candidate(dir, p) && p in names[..i]) && Distinct(items)
  }

  lemma NextFound(dir: Directory, names: seq<string>, i: nat, items: seq<string>)
    requires Lists(names, dir) && i < |names| && Found(dir, names, i, items)
    ensures Found(dir, names, i + 1, if Candidate(dir, names[i]) then items + [names[i]] else items)
  {
    PrefixGrows(names, i);
    assert names[i] !in names[..i];
  }

  lemma PrefixGrows(names: seq<string>, i: nat)
    requires i < |names|
    ensures forall p :: p in names[..i + 1] <==> p in names[..i] || p == names[i]
  {
    assert names[..i + 1] == names[..i] + [names[i]];
  }

  function InsertedAt(order: seq<string>, k: nat, path: string): seq<string>
    requires k <= |order|
  {
    order[..k] + [path] + order[k..]
  }

  lemma InsertedAtKeepsEntries(order: seq<string>, k: nat, path: string)
    requires k <= |order| && Distinct(order) && path !in order
    ensures Distinct(InsertedAt(order, k, path))
    ensures forall p :: p in InsertedAt(order, k, path) <==> p in order || p == path
  {
    assert order == order[..k] + order[k..];
    var longer := InsertedAt(order, k, path);
    forall i, j | 0 <= i < j < |longer| ensures longer[i] != longer[j] {
      assert i < k ==> longer[i] == order[i];
      assert j < k ==> longer[j] == order[j];
      assert i > k ==> longer[i] == order[i - 1];
      assert j > k ==> longer[j] == order[j - 1];
    }
  }

  lemma InsertedAtKeepsAge(dir: Directory, order: seq<string>, k: nat, path: string)
    requires k <= |order| && OldestFirst(dir, order) && path in dir
    requires forall m | k <= m < |order| :: dir[order[m]].mod > dir[path].mod
    requires k > 0 ==> dir[order[k - 1]].mod <= dir[path].mod
    ensures OldestFirst(dir, InsertedAt(order, k, path))
  {
    var longer := InsertedAt(order, k, path);
    forall i | 0 <= i < k ensures longer[i] == order[i] && dir[order[i]].mod <= dir[path].mod {
    }
    forall i | k < i < |longer| ensures longer[i] == order[i - 1] {
    }
    assert longer[k] == path;
    forall p | p in longer ensures p in dir {
      assert p in order || p == path;
    }
  }

  // sort.Slice by modification time.
  method SortByAge(dir: Directory, items: seq<string>) returns (order: seq<string>)
    requires (forall p <- items :: p in dir) && Distinct(items)
    ensures (forall p :: p in order <==> p in items) && Distinct(order) && OldestFirst(dir, order)
  {
    order := [];
    for i := 0 to |items|
      invariant forall p :: p in order <==> p in items[..i]
      invariant Distinct(order) && OldestFirst(dir, order)
    {
      var k := |order|;
      while k > 0 && dir[order[k - 1]].mod > dir[items[i]].mod
        invariant 0 <= k <= |order|
        invariant forall m | k <= m < |order| :: dir[order[m]].mod > dir[items[i]].mod
      {
        k := k - 1;
      }
      assert items[i] !in items[..i];
      PrefixGrows(items, i);
      InsertedAtKeepsEntries(order, k, items[i]);
      InsertedAtKeepsAge(dir, order, k, items[i]);
      order := InsertedAt(order, k, items[i]);
    }
    assert items[..|items|] == items;
  }

  class LocalStore {
    var files: Directory

    constructor (files: Directory)
      ensures this.files == files
    {
      this.files := files;
    }

    method ReadDir() returns (names: seq<string>)
      ensures Lists(names, files)
    {
      names := [];
      var rest := files.Keys;
      while rest != {}
        invariant rest <= files.Keys
        invariant forall p :: p in names <==> p in files && p !in rest
        invariant Distinct(names)
        decreases |rest|
      {
        var p :| p in rest;
        names := names + [p];
        rest := rest - {p};
      }
    }

    // os.Remove of a candidate, and the lines of the report when it went well.
    method RemoveAndNote(path: string, reason: Reason, refuses: set<string>, report: Report, ghost pending: nat, ghost base: Directory)
      returns (ok: bool)
      requires path in files && Candidate(base, path) && report.Agrees(pending) && Accounts(base, report.log, files)
      modifies this, report
      ensures ok <==> path !in refuses
      ensures files == if ok then old(files) - {path} else old(files)
      ensures report.log == if ok then old(report.log) + [Removal(path, base[path].size, reason)] else old(report.log)
      ensures report.removed == old(report.removed) && report.Agrees(if ok then pending + 1 else pending)
      ensures Accounts(base, report.log, files)
    {
      ok := path !in refuses;
      if ok {
        AccountsForOneMore(base, report.log, files, Removal(path, base[path].size, reason));
        assert files[path] == base[path];
        report.Note(path, files[path].size, reason, pending);
        files := files - {path};
      }
    }

    // The paths of all candidates and the sum of their sizes.
    method Scan() returns (items: seq<string>, total: int)
      ensures (forall p :: p in items <==> Candidate(files, p)) && Distinct(items)
      ensures total == Total(files)
    {
      items, total := [], 0;
      var names := ReadDir();
      ScanEnds(files, names);
      for i := 0 to |names|
        invariant Found(files, names, i, items)
        invariant total + Total(Unseen(files, names, i)) == Total(files)
      {
        var name := names[i];
        NextFound(files, names, i, items);
        ScanStep(files, names, i);
        if Candidate(files, name) {
          items := items + [name];
          total := total + files[name].size;
        }
      }
      assert names[..|names|] == names;
    }

    // The loop body of evictUntilUnderCap for the k-th file of the order, the total being over the cap.
    method EvictOne(path: string, refs: map<string, Ref>, refuses: set<string>, report: Report, ghost cap: int, ghost pending: nat,
                    ghost base: Directory, ghost log: seq<Removal>, ghost dir: Directory, ghost order: seq<string>, ghost k: nat)
      returns (gone: bool)
      requires AgeOrder(dir, order) && k < |order| && order[k] == path
      requires Evicted(dir, order, k, refs, refuses, cap, files) && Total(files) > cap
      requires report.Agrees(pending) && Accounts(base, report.log, files) && OnlyOverCap(base, refs, log, report.log)
      modifies this, report
      ensures report.removed == old(report.removed) && report.Agrees(if gone then pending + 1 else pending)
      ensures Accounts(base, report.log, files) && OnlyOverCap(base, refs, log, report.log)
      ensures Evicted(dir, order, k + 1, refs, refuses, cap, files)
      ensures path in dir && Total(files) == Total(old(files)) - if gone then dir[path].size else 0
    {
      NextEvicted(dir, order, k, refs, refuses, cap, files);
      gone := false;
      if Protected(refs, path) {
        return;
      }
      assert files[path] == base[path];
      TotalIsCounted(files, path);
      gone := RemoveAndNote(path, OverCap, refuses, report, pending, base);
    }

    // evictUntilUnderCap. The candidates removed are the evictable ones among the first `stop` of an
    // oldest-first order, and no shorter prefix would have brought the total under the cap.
    method EvictUntilUnderCap(cap: int, refs: map<string, Ref>, refuses: set<string>, report: Report, ghost base: Directory)
      returns (removed: nat, ghost order: seq<string>, ghost stop: nat)
      requires report.Agrees(0) && Accounts(base, report.log, files)
      modifies this, report
      ensures report.removed == old(report.removed) && report.Agrees(removed) && Accounts(base, report.log, files)
      ensures OnlyOverCap(base, refs, old(report.log), report.log)
      ensures Total(old(files)) <= cap ==> files == old(files)
      ensures Total(old(files)) > cap ==>
                && AgeOrder(old(files), order) && stop <= |order|
                && Evicted(old(files), order, stop, refs, refuses, cap, files)
                && (stop < |order| ==> Total(files) <= cap)
    {
      removed, order, stop := 0, [], 0;
      var dir := files;
      var items, total := Scan();
      if total <= cap {
        return;
      }
      var sorted := SortByAge(dir, items);
      order := sorted;
      NoPrefix(dir, order, refs, refuses);
      ghost var log := report.log;
      for i := 0 to |sorted|
        invariant stop == i && total == Total(files)
        invariant Evicted(dir, order, i, refs, refuses, cap, files)
        invariant report.removed == old(report.removed) && report.Agrees(removed) && Accounts(base, report.log, files)
        invariant OnlyOverCap(base, refs, log, report.log)
      {
        if total <= cap {
          return;
        }
        stop := i + 1;
        var path := sorted[i];
        var gone := EvictOne(path, refs, refuses, report, cap, removed, base, log, dir, order, i);
        if gone {
          removed := removed + 1;
          total := total - dir[path].size;
        }
      }
    }

    // One call of `remove` in reconcileLocalCopies; a dry run only writes the report. `shadow` is the
    // directory as if every removal in the report had been carried out.
    method SweepOne(path: string, reason: Reason, dryRun: bool, refs: map<string, Ref>, refuses: set<string>, report: Report,
                    ghost dir: Directory, ghost shadow: Directory)
      returns (ghost left: Directory)
      requires path in shadow && Candidate(dir, path) && report.Agrees(0) && Accounts(dir, report.log, shadow)
      requires files == if dryRun then dir else shadow
      requires !Protected(refs, path)
      modifies this, report
      ensures left == if dryRun || path !in refuses then shadow - {path} else shadow
      ensures files == if dryRun then dir else left
      ensures report.log == old(report.log) || report.log == old(report.log) + [Removal(path, dir[path].size, reason)]
      ensures report.Agrees(0) && Accounts(dir, report.log, left)
    {
      left := shadow;
      if Protected(refs, path) {
        return;
      }
      if dryRun {
        AccountsForOneMore(dir, report.log, shadow, Removal(path, dir[path].size, reason));
        report.Note(path, files[path].size, reason, 0);
        report.Settle(0);
        left := shadow - {path};
        return;
      }
      var ok := RemoveAndNote(path, reason, refuses, report, 0, dir);
      if ok {
        report.Settle(0);
        left := shadow - {path};
      }
    }

    // The first pass of reconcileLocalCopies.
    method Sweep(policy: Policy, now: int, refs: map<string, Ref>, refuses: set<string>, report: Report) returns (ghost shadow: Directory)
      requires report.Agrees(0) && report.log == []
      modifies this, report
      ensures shadow == old(files) - (Selected(old(files), refs, policy, now) - if policy.dryRun then {} else refuses)
      ensures files == if policy.dryRun then old(files) else shadow
      ensures report.Agrees(0) && Accounts(old(files), report.log, shadow)
      ensures SweptFor(old(files), refs, policy, now, report.log)
    {
      ghost var dir, stuck := files, if policy.dryRun then {} else refuses;
      shadow := files;
      NothingRemovedYet(dir);
      var names, _ := Scan();
      SweepEnds(dir, names, refs, policy, now, stuck);
      for i := 0 to |names|
        invariant shadow == AfterSweep(dir, names, i, refs, policy, now, stuck)
        invariant files == if policy.dryRun then dir else shadow
        invariant report.Agrees(0) && Accounts(dir, report.log, shadow)
        invariant SweptFor(dir, refs, policy, now, report.log)
      {
        var path := names[i];
        assert Candidate(dir, path);
        NextSwept(dir, names, i, refs, policy, now, stuck);
        var reason := ReasonFor(refs, policy, now, path, files[path]);
        if reason.Some? {
          ghost var log := report.log;
          shadow := SweepOne(path, reason.value, policy.dryRun, refs, refuses, report, dir, shadow);
          SweptForOneMore(dir, refs, policy, now, log, Removal(path, dir[path].size, reason.value));
        }
      }
    }

    // reconcileLocalCopies, for any directory, records, policy and clock, and any set of removals the
    // system refuses in either pass.
    method Reconcile(policy: Policy, now: int, claims: seq<Claim>, refusesFirst: set<string>, refusesThen: set<string>)
      returns (report: Report, ghost refs: map<string, Ref>)
      modifies this
      ensures fresh(report) && report.Agrees(0) && refs == RefsOf(claims)
      // By the last record that names its path, each candidate is taken for its reason or left alone; what
      // goes beyond that goes because of the cap.
      ensures !policy.disabled ==> EntersTheDue(old(files), claims, policy, now, if policy.dryRun then {} else refusesFirst, report.log)
      ensures !policy.disabled && !policy.dryRun && policy.maxBytes <= 0 ==>
                TakesTheDue(old(files), claims, policy, now, refusesFirst, files)
      ensures policy.maxBytes <= 0 || policy.dryRun ==> forall r <- report.log :: r.reason != OverCap
      // A file a live job refers to, and anything that is not a candidate, stays.
      ensures forall p | p in old(files) && (Protected(refs, p) || old(files)[p].isDir || !IsZip(p)) :: p in files
      // Every removal is one the policy allows; in a dry run nothing is removed.
      ensures forall r <- report.log :: Justified(old(files), refs, policy, now, r)
      ensures policy.disabled ==> files == old(files) && report.log == []
      ensures policy.dryRun ==> files == old(files)
      // Otherwise the removed files are those of the report, and no byte is unaccounted for.
      ensures !policy.dryRun ==> Accounts(old(files), report.log, files) && Total(files) + report.bytes == Total(old(files))
      // The first pass takes everything it selects, and the eviction brings the total under the cap
      // unless only files of live jobs and files the system refuses are left.
      ensures !policy.disabled && !policy.dryRun ==>
                forall p <- Selected(old(files), refs, policy, now) :: p in files ==> p in refusesFirst
      ensures !policy.disabled && !policy.dryRun && policy.maxBytes > 0 ==>
                Total(files) <= policy.maxBytes
                || forall p | Candidate(files, p) :: Protected(refs, p) || p in refusesThen
    {
      hide Due, RefsOf, EntersTheDue, TakesTheDue;
      report := new Report();
      refs := RefsOf(claims);
      NothingRemovedYet(files);
      if policy.disabled {
        return;
      }
      var found := References(claims);
      ghost var shadow := Sweep(policy, now, found, refusesFirst, report);
      SweptIsDue(old(files), claims, policy, now, if policy.dryRun then {} else refusesFirst, report.log, shadow);
      if !policy.dryRun && policy.maxBytes > 0 {
        ghost var swept, log := files, report.log;
        var evicted; ghost var order, stop;
        evicted, order, stop := EvictUntilUnderCap(policy.maxBytes, found, refusesThen, report, old(files));
        report.removed := report.removed + evicted;
        EvictingEntersOverCap(old(files), claims, policy, now, refusesFirst, log, report.log);
        OverCapIsJustified(old(files), refs, policy, now, log, report.log);
        if Total(swept) > policy.maxBytes && Total(files) > policy.maxBytes {
          WholeOrderIsGone(swept, order, refs, refusesThen, files);
        }
        LogSparesLiveCopies(old(files), refs, policy, now, report.log);
      } else {
        SweptIsJustified(old(files), refs, policy, now, report.log);
        LogSparesLiveCopies(old(files), refs, policy, now, report.log);
      }
    }
  }
}
