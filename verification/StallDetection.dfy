/**
  Stall detection: is a job still moving, whatever the clock says?

  `StallTracker` is the tracker of the source, fed one observation at a time. `StalledAt` says
  declaratively, over the whole history, when it has to fire.
*/
module StallDetection {
  import opened DeliveryPhases

  // The comparable signature of a job; other phases than pulling and uploading show no counters.
  datatype Signature = Counters(phase: Phase, parts: nat, pulled: int) | PhaseOnly(phase: Phase)

  datatype Observation = Observation(at: int, signature: Signature, watched: bool)

  function ProgressSignature(phase: Phase, parts: nat, pulled: int): (Signature, bool) {
    if phase.Pulling? || phase.Uploading? then (Counters(phase, parts, pulled), true) else (PhaseOnly(phase), false)
  }

  ghost predicate TimesNeverGoBack(h: seq<Observation>) {
    forall i, k | 0 <= i <= k < |h| :: h[i].at <= h[k].at
  }

  // From observation k to the last one nothing moved, and everything after k was watched.
  ghost predicate QuietSince(h: seq<Observation>, k: nat)
    requires k < |h|
  {
    && (forall i | k <= i < |h| :: h[i].signature == h[k].signature)
    && (forall i | k < i < |h| :: h[i].watched)
  }

  // What firing at the last observation of h means.
  ghost predicate StalledAt(h: seq<Observation>, timeout: int) {
    exists k | 0 <= k < |h| - 1 :: QuietSince(h, k) && h[|h| - 1].at - h[k].at >= timeout
  }

  class StallTracker {
    const timeout: int
    var signature: Signature
    var since: int
    var started: bool
    ghost var history: seq<Observation>
    ghost var quietFrom: nat

    constructor (timeout: int)
      ensures Valid() && history == [] && this.timeout == timeout
    {
      this.timeout := timeout;
      signature, since, started := PhaseOnly(Blank), 0, false;
      history, quietFrom := [], 0;
    }

    // `quietFrom` is the earliest observation nothing has moved since.
    ghost predicate Valid()
      reads this
    {
      && started == (history != [])
      && (started ==>
            && quietFrom < |history| && QuietSince(history, quietFrom)
            && signature == history[quietFrom].signature && since == history[quietFrom].at
            && forall k | 0 <= k < quietFrom :: !QuietSince(history, k))
    }

    method Observe(at: int, sig: Signature, watched: bool) returns (stalled: bool)
      requires Valid() && TimesNeverGoBack(history + [Observation(at, sig, watched)])
      modifies this
      ensures Valid() && history == old(history) + [Observation(at, sig, watched)]
      ensures stalled <==> StalledAt(history, timeout)
    {
      ghost var before := history;
      ghost var n := |history|;
      history := history + [Observation(at, sig, watched)];
      ghost var seen := history;
      forall k | 0 <= k < n && QuietSince(seen, k) ensures QuietSince(before, k) && watched && sig == before[n - 1].signature {
        assert seen[n] == Observation(at, sig, watched);
        forall i | k <= i < n ensures before[i].signature == before[k].signature {
          assert seen[i] == before[i];
        }
        forall i | k < i < n ensures before[i].watched {
          assert seen[i] == before[i];
        }
      }
      if !watched || !started {
        signature, since, started := sig, at, true;
        quietFrom := n;
        return false;
      }
      if sig != signature {
        signature, since := sig, at;
        quietFrom := n;
        return false;
      }
      assert QuietSince(history, quietFrom);
      stalled := at - since >= timeout;
      if k :| 0 <= k < n && QuietSince(history, k) && at - history[k].at >= timeout {
        assert history[quietFrom].at <= history[k].at;
      }
    }
  }

  lemma OneMore(ticks: seq<Observation>, n: nat)
    requires TimesNeverGoBack(ticks) && n < |ticks|
    ensures var o := ticks[n];
            ticks[..n + 1] == ticks[..n] + [Observation(o.at, o.signature, o.watched)] && TimesNeverGoBack(ticks[..n + 1])
  {
  }

  ghost predicate NoStallWithin(ticks: seq<Observation>, n: nat, timeout: int)
    requires n <= |ticks|
  {
    forall m | 0 < m <= n :: !StalledAt(ticks[..m], timeout)
  }

  // The watchdog ends the round at the first observation at which the tracker fires: n observations
  // pass, and the next one, if any, is a stall.
  method WatchStall(timeout: int, ticks: seq<Observation>) returns (n: nat)
    requires TimesNeverGoBack(ticks)
    ensures n <= |ticks| && NoStallWithin(ticks, n, timeout)
    ensures n < |ticks| ==> StalledAt(ticks[..n + 1], timeout)
  {
    var tracker := new StallTracker(timeout);
    n := 0;
    while n < |ticks|
      invariant n <= |ticks| && tracker.Valid() && fresh(tracker)
      invariant tracker.history == ticks[..n] && tracker.timeout == timeout
      invariant NoStallWithin(ticks, n, timeout)
    {
      var stalled := Feed(tracker, ticks, n);
      if stalled {
        return;
      }
      n := n + 1;
    }
  }

  method Feed(tracker: StallTracker, ticks: seq<Observation>, n: nat) returns (stalled: bool)
    requires TimesNeverGoBack(ticks) && n < |ticks| && tracker.Valid() && tracker.history == ticks[..n]
    modifies tracker
    ensures tracker.Valid() && tracker.history == ticks[..n + 1]
    ensures stalled <==> StalledAt(ticks[..n + 1], tracker.timeout)
  {
    OneMore(ticks, n);
    stalled := tracker.Observe(ticks[n].at, ticks[n].signature, ticks[n].watched);
  }

  // Observations of a job: what progressSignature reports for its fields.
  ghost predicate Observes(o: Observation, phase: Phase, parts: nat, pulled: int) {
    (o.signature, o.watched) == ProgressSignature(phase, parts, pulled)
  }

  // A round is never ended while it moves: if inside the window before the last observation the
  // phase, the number of uploaded parts or the pulled bytes differed from now, or the job was
  // waiting for the node or the platform, it is not stalled.
  lemma MovingIsNotStalled(h: seq<Observation>, i: nat, timeout: int, phase: Phase, parts: nat, pulled: int,
                           phase': Phase, parts': nat, pulled': int)
    requires TimesNeverGoBack(h) && i < |h| && timeout > 0
    requires h[|h| - 1].at - h[i].at < timeout
    requires Observes(h[i], phase, parts, pulled) && Observes(h[|h| - 1], phase', parts', pulled')
    requires phase != phase' || parts != parts' || pulled != pulled' || phase !in {Pulling, Uploading}
    ensures !StalledAt(h, timeout)
  {
    forall k | 0 <= k < |h| - 1 && h[|h| - 1].at - h[k].at >= timeout ensures !QuietSince(h, k) {
      assert k < i by {
        assert h[k].at < h[i].at;
      }
      assert h[i].watched && h[|h| - 1].watched ==> h[i].signature != h[|h| - 1].signature;
    }
  }

  // And every round that does not move is ended: if all observations of the last window and one before it
  // show the same uploading or pulling job with the same counters, it is stalled.
  lemma UnmovingIsStalled(h: seq<Observation>, k: nat, timeout: int, phase: Phase, parts: nat, pulled: int)
    requires k < |h| - 1 && h[|h| - 1].at - h[k].at >= timeout && phase in {Pulling, Uploading}
    requires forall i | k <= i < |h| :: Observes(h[i], phase, parts, pulled)
    ensures StalledAt(h, timeout)
  {
    assert QuietSince(h, k);
  }

  // A signature shows exactly what moves: for a watched phase the phase and both counters, for any other the
  // phase alone.
  lemma SignaturesDiffer(phase: Phase, parts: nat, pulled: int, phase': Phase, parts': nat, pulled': int)
    ensures ProgressSignature(phase, parts, pulled).1 <==> phase in {Pulling, Uploading}
    ensures ProgressSignature(phase, parts, pulled).0 == ProgressSignature(phase', parts', pulled').0 <==>
              phase == phase' && (phase in {Pulling, Uploading} ==> parts == parts' && pulled == pulled')
  {
  }
}
