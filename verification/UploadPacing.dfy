/**
  The pace of part uploads: how many streams, and how long one part may take.

  Seconds and nanoseconds are unbounded integers and rates are real numbers; the truncations the
  code performs (to nanoseconds, then to whole seconds) are kept.
*/
module UploadPacing {

  const SECOND := 1_000_000_000  // a time.Duration counts nanoseconds
  const MIN_PART_TIMEOUT := 300 * SECOND
  const MAX_PART_TIMEOUT := 1200 * SECOND
  const SAFETY_FACTOR := 1.6

  datatype Reason = Empty | Default | Escalated | Measured(rate: real) | Other(text: string)

  // `partTimeout` is in whole seconds, as stored in the journal.
  datatype Pace = Pace(parts: int, partTimeout: int, reason: Reason)

  // What one upload round observed; `elapsed` is in nanoseconds.
  datatype Sample = Sample(uploadedParts: int, uploadedBytes: int, timedOutParts: int, elapsed: int)
  {
    predicate HasThroughput() {
      uploadedParts > 0 && uploadedBytes > 0 && elapsed > 0
    }

    // Bytes per second over the whole round.
    function Rate(): real
      requires HasThroughput()
    {
      uploadedBytes as real / (elapsed as real / SECOND as real)
    }
  }

  function Timeout(p: Pace): int {
    if p.partTimeout <= 0 then MIN_PART_TIMEOUT else p.partTimeout * SECOND
  }

  function Clamp(value: int, low: int, high: int): int {
    if value < low then low else if value > high then high else value
  }

  function Resolve(p: Pace, ceiling: int): Pace {
    var top := if ceiling < 1 then 1 else ceiling;
    Pace(Clamp(p.parts, 1, top),
         Clamp(Timeout(p), MIN_PART_TIMEOUT, MAX_PART_TIMEOUT) / SECOND,
         if p.reason == Empty then Default else p.reason)
  }

  // Seconds one part is predicted to take when `parts` streams share the rate.
  function Predicted(chunkSize: int, parts: int, rate: real): real
    requires rate > 0.0 && parts > 0
  {
    PositiveQuotient(rate, parts as real);
    chunkSize as real / (rate / parts as real)
  }

  lemma PositiveQuotient(a: real, b: real)
    requires a > 0.0 && b > 0.0
    ensures a / b > 0.0
  {
  }

  // The smallest number of halvings of `parts` that lets a part fit the budget.
  function Halved(parts: int, chunkSize: int, rate: real, budget: real): (r: int)
    requires parts >= 1 && rate > 0.0
    ensures 1 <= r <= parts
    ensures r > 1 ==> Predicted(chunkSize, r, rate) * SAFETY_FACTOR <= budget
  {
    if parts > 1 && Predicted(chunkSize, parts, rate) * SAFETY_FACTOR > budget
    then Halved(parts / 2, chunkSize, rate, budget)
    else parts
  }

  // Halving stops at the first number that fits: whatever was halved last did not fit.
  lemma {:induction false} HalvesOnlyWhileNeeded(parts: int, chunkSize: int, rate: real, budget: real)
    requires parts >= 1 && rate > 0.0
    ensures var r := Halved(parts, chunkSize, rate, budget);
            r == parts || exists q | r < q <= parts && q / 2 == r :: Predicted(chunkSize, q, rate) * SAFETY_FACTOR > budget
  {
    if parts > 1 && Predicted(chunkSize, parts, rate) * SAFETY_FACTOR > budget {
      HalvesOnlyWhileNeeded(parts / 2, chunkSize, rate, budget);
    }
  }

  // nextUploadPace as a function of the previous pace and the sample.
  function NextPace(before: Pace, sample: Sample, chunkSize: int, ceiling: int): Pace {
    var prev := Resolve(before, ceiling);
    if chunkSize <= 0 || sample.timedOutParts <= 0 then prev
    else if !sample.HasThroughput() then
      var doubled := Timeout(prev) * 2;
      Pace(if prev.parts > 1 then prev.parts / 2 else prev.parts,
           (if doubled > MAX_PART_TIMEOUT then MAX_PART_TIMEOUT else doubled) / SECOND, Escalated)
    else
      RateIsPositive(sample);
      var rate := sample.Rate();
      var parts := Halved(prev.parts, chunkSize, rate, prev.partTimeout as real);
      var wanted := (Predicted(chunkSize, parts, rate) * SAFETY_FACTOR * SECOND as real).Floor;
      var raised := if wanted < Timeout(prev) then Timeout(prev) else wanted;
      Pace(parts, Clamp(raised, MIN_PART_TIMEOUT, MAX_PART_TIMEOUT) / SECOND, Measured(rate))
  }

  lemma RateIsPositive(sample: Sample)
    requires sample.HasThroughput()
    ensures sample.Rate() > 0.0
  {
    PositiveQuotient(sample.elapsed as real, SECOND as real);
    PositiveQuotient(sample.uploadedBytes as real, sample.elapsed as real / SECOND as real);
  }

  method NextUploadPace(before: Pace, sample: Sample, chunkSize: int, ceiling: int) returns (next: Pace)
    ensures next == NextPace(before, sample, chunkSize, ceiling)
  {
    var prev := Resolve(before, ceiling);
    if chunkSize <= 0 {
      return prev;
    }
    if sample.timedOutParts <= 0 {
      return prev;
    }
    if !sample.HasThroughput() {
      next := prev;
      if next.parts > 1 {
        next := next.(parts := next.parts / 2);
        if next.parts < 1 {
          next := next.(parts := 1);
        }
      }
      var timeout := Timeout(next) * 2;
      if timeout > MAX_PART_TIMEOUT {
        timeout := MAX_PART_TIMEOUT;
      }
      next := next.(partTimeout := timeout / SECOND, reason := Escalated);
      return;
    }
    RateIsPositive(sample);
    var rate := sample.Rate();
    var parts := prev.parts;
    var budget := prev.partTimeout as real;
    while parts > 1
      invariant 1 <= parts
      invariant Halved(parts, chunkSize, rate, budget) == Halved(prev.parts, chunkSize, rate, budget)
    {
      if Predicted(chunkSize, parts, rate) * SAFETY_FACTOR <= budget {
        break;
      }
      parts := parts / 2;
    }
    var want := (Predicted(chunkSize, parts, rate) * SAFETY_FACTOR * SECOND as real).Floor;
    if want < Timeout(prev) {
      want := Timeout(prev);
    }
    if want > MAX_PART_TIMEOUT {
      want := MAX_PART_TIMEOUT;
    }
    if want < MIN_PART_TIMEOUT {
      want := MIN_PART_TIMEOUT;
    }
    next := Pace(parts, want / SECOND, Measured(rate));
  }

  // ---------- The legal interval ----------

  predicate Legal(p: Pace, ceiling: int) {
    && 1 <= p.parts <= (if ceiling < 1 then 1 else ceiling)
    && 300 <= p.partTimeout <= 1200
  }

  // resolve repairs any stored pace, and repairing twice changes nothing.
  lemma ResolveIsIdempotent(p: Pace, ceiling: int)
    ensures Legal(Resolve(p, ceiling), ceiling)
    ensures Resolve(Resolve(p, ceiling), ceiling) == Resolve(p, ceiling)
    ensures Legal(p, ceiling) && p.reason != Empty ==> Resolve(p, ceiling) == p
  {
  }

  // A job without a stored pace starts on one stream.
  lemma ZeroPaceIsOneStream(ceiling: int)
    ensures Resolve(Pace(0, 0, Empty), ceiling) == Pace(1, 300, Default)
  {
  }

  // ---------- One decision ----------

  // After a round with timeouts and measured throughput, either a part is predicted to fit the new
  // budget, truncation included, or the pace is the most patient one there is.
  lemma DecisionIsSufficient(before: Pace, sample: Sample, chunkSize: int, ceiling: int)
    requires chunkSize > 0 && sample.timedOutParts > 0 && sample.HasThroughput()
    ensures sample.Rate() > 0.0
    ensures var next := NextPace(before, sample, chunkSize, ceiling);
            && Legal(next, ceiling)
            && (Predicted(chunkSize, next.parts, sample.Rate()) <= next.partTimeout as real
                || (next.parts == 1 && next.partTimeout == 1200))
  {
    RateIsPositive(sample);
    var prev := Resolve(before, ceiling);
    var next := NextPace(before, sample, chunkSize, ceiling);
    var need := Predicted(chunkSize, next.parts, sample.Rate());
    PositiveQuotient(sample.Rate(), next.parts as real);
    PositiveQuotient(chunkSize as real, sample.Rate() / next.parts as real);
    BudgetCoversNeed(need, prev.partTimeout, next.parts);
  }

  // Rates and predictions in plain units: bytes in a second, and seconds for a part when the streams share it.
  lemma RateIsPerSecond(sample: Sample, chunkSize: int, parts: int)
    requires sample.HasThroughput() && parts > 0
    ensures sample.Rate() > 0.0 && sample.Rate() * sample.elapsed as real == sample.uploadedBytes as real * 1_000_000_000.0
    ensures Predicted(chunkSize, parts, sample.Rate()) * sample.Rate() == chunkSize as real * parts as real
  {
    RateIsPositive(sample);
    var seconds := sample.elapsed as real / SECOND as real;
    PositiveQuotient(sample.elapsed as real, SECOND as real);
    QuotientTimes(sample.uploadedBytes as real, seconds);
    assert sample.elapsed as real == seconds * 1_000_000_000.0;
    SharedRate(chunkSize as real, parts as real, sample.Rate());
  }

  lemma QuotientTimes(a: real, b: real)
    requires b > 0.0
    ensures a / b * b == a
  {
  }

  lemma SharedRate(chunk: real, parts: real, rate: real)
    requires parts > 0.0 && rate > 0.0
    ensures rate / parts > 0.0 && chunk / (rate / parts) * rate == chunk * parts
  {
    PositiveQuotient(rate, parts);
    var share := rate / parts;
    QuotientTimes(rate, parts);
    QuotientTimes(chunk, share);
    assert rate == share * parts;
    assert chunk / share * (share * parts) == chunk / share * share * parts;
  }

  // A decision takes no more than it needs: the timeout is raised to 1.6 times the prediction and rounded
  // down to seconds, up to the cap and never below what it was; and streams are given up only while a part
  // does not fit, with the factor, into the old timeout.
  lemma DecisionIsNotExcessive(before: Pace, sample: Sample, chunkSize: int, ceiling: int)
    requires chunkSize > 0 && sample.timedOutParts > 0 && sample.HasThroughput()
    ensures sample.Rate() > 0.0
    ensures var (prev, next) := (Resolve(before, ceiling), NextPace(before, sample, chunkSize, ceiling));
            var wanted := Predicted(chunkSize, if next.parts >= 1 then next.parts else 1, sample.Rate()) * 1.6;
            && (next.partTimeout == prev.partTimeout || next.partTimeout as real <= wanted)
            && (next.partTimeout == 1200 || wanted < next.partTimeout as real + 1.0)
            && next.reason == Measured(sample.Rate())
            && (next.parts == prev.parts
                || exists q | next.parts < q <= prev.parts && q / 2 == next.parts :: Predicted(chunkSize, q, sample.Rate()) * 1.6 > prev.partTimeout as real)
            && (next.parts > 1 ==> wanted <= prev.partTimeout as real)
  {
    RateIsPositive(sample);
    var prev := Resolve(before, ceiling);
    var next := NextPace(before, sample, chunkSize, ceiling);
    HalvesOnlyWhileNeeded(prev.parts, chunkSize, sample.Rate(), prev.partTimeout as real);
    RaisedAsNeeded(Predicted(chunkSize, next.parts, sample.Rate()), prev.partTimeout);
    hide Predicted, Sample.Rate;
  }

  lemma RaisedAsNeeded(need: real, prevSeconds: int)
    requires 300 <= prevSeconds <= 1200
    ensures var wanted := (need * SAFETY_FACTOR * SECOND as real).Floor;
            var raised := if wanted < prevSeconds * SECOND then prevSeconds * SECOND else wanted;
            var seconds := Clamp(raised, MIN_PART_TIMEOUT, MAX_PART_TIMEOUT) / SECOND;
            && (seconds == prevSeconds || seconds as real <= need * 1.6)
            && (seconds == 1200 || need * 1.6 < seconds as real + 1.0)
  {
    var wanted := (need * SAFETY_FACTOR * SECOND as real).Floor;
    var raised := if wanted < prevSeconds * SECOND then prevSeconds * SECOND else wanted;
    var clamped := Clamp(raised, MIN_PART_TIMEOUT, MAX_PART_TIMEOUT);
    var seconds := clamped / SECOND;
    assert seconds * SECOND <= clamped < seconds * SECOND + SECOND;
  }

  // The arithmetic of the budget: rounding 1.6 times the need down twice still covers the need.
  lemma BudgetCoversNeed(need: real, prevSeconds: int, parts: int)
    requires need > 0.0 && 300 <= prevSeconds <= 1200
    requires parts > 1 ==> need * SAFETY_FACTOR <= prevSeconds as real
    ensures var wanted := (need * SAFETY_FACTOR * SECOND as real).Floor;
            var raised := if wanted < prevSeconds * SECOND then prevSeconds * SECOND else wanted;
            var seconds := Clamp(raised, MIN_PART_TIMEOUT, MAX_PART_TIMEOUT) / SECOND;
            need <= seconds as real || (parts <= 1 && seconds == 1200)
  {
    var wanted := (need * SAFETY_FACTOR * SECOND as real).Floor;
    if wanted >= prevSeconds * SECOND && wanted < MAX_PART_TIMEOUT {
      var seconds := wanted / SECOND;
      assert seconds * SECOND > wanted - SECOND;
      assert seconds as real > need * SAFETY_FACTOR - 2.0;
    }
  }

  // Streams only go down and patience only goes up.
  lemma DecisionIsMonotone(before: Pace, sample: Sample, chunkSize: int, ceiling: int)
    ensures var prev, next := Resolve(before, ceiling), NextPace(before, sample, chunkSize, ceiling);
            && Legal(next, ceiling) && next.reason != Empty
            && next.parts <= prev.parts && prev.partTimeout <= next.partTimeout
            && (sample.timedOutParts <= 0 ==> next == prev)
  {
  }

  // ---------- Whole runs of rounds ----------

  // upload resolves the stored pace; adjustPace stores the decision when it differs.
  function AfterRound(stored: Pace, sample: Sample, chunkSize: int, ceiling: int): Pace {
    var prev := Resolve(stored, ceiling);
    var next := NextPace(prev, sample, chunkSize, ceiling);
    if next == prev then stored else next
  }

  // A round without a timeout, and one whose decision changes nothing, leave the stored pace as it is.
  lemma UnchangedIsNotStored(stored: Pace, sample: Sample, chunkSize: int, ceiling: int)
    ensures sample.timedOutParts <= 0 || chunkSize <= 0 ==> AfterRound(stored, sample, chunkSize, ceiling) == stored
    ensures NextPace(Resolve(stored, ceiling), sample, chunkSize, ceiling) == Resolve(stored, ceiling) ==>
              AfterRound(stored, sample, chunkSize, ceiling) == stored
  {
    ResolveIsIdempotent(stored, ceiling);
  }

  function AfterRounds(stored: Pace, samples: seq<Sample>, chunkSize: int, ceiling: int): Pace
    decreases |samples|
  {
    if samples == [] then stored
    else AfterRounds(AfterRound(stored, samples[0], chunkSize, ceiling), samples[1..], chunkSize, ceiling)
  }

  predicate SameRhythm(a: Pace, b: Pace) {
    a.parts == b.parts && a.partTimeout == b.partTimeout
  }

  // In how many rounds the effective number of streams or the part timeout changes.
  function Changes(stored: Pace, samples: seq<Sample>, chunkSize: int, ceiling: int): nat
    decreases |samples|
  {
    if samples == [] then 0 else
    var next := AfterRound(stored, samples[0], chunkSize, ceiling);
    (if SameRhythm(Resolve(stored, ceiling), Resolve(next, ceiling)) then 0 else 1)
    + Changes(next, samples[1..], chunkSize, ceiling)
  }

  // How far the effective pace is from the most patient one.
  function Slack(stored: Pace, ceiling: int): nat {
    ResolveIsIdempotent(stored, ceiling);
    (Resolve(stored, ceiling).parts - 1) + (1200 - Resolve(stored, ceiling).partTimeout)
  }

  lemma RoundUsesUpSlack(stored: Pace, sample: Sample, chunkSize: int, ceiling: int)
    ensures var next := AfterRound(stored, sample, chunkSize, ceiling);
            && Resolve(next, ceiling).parts <= Resolve(stored, ceiling).parts
            && Resolve(stored, ceiling).partTimeout <= Resolve(next, ceiling).partTimeout
            && Slack(next, ceiling) <= Slack(stored, ceiling)
            && (!SameRhythm(Resolve(stored, ceiling), Resolve(next, ceiling)) ==> Slack(next, ceiling) < Slack(stored, ceiling))
  {
    var prev := Resolve(stored, ceiling);
    ResolveIsIdempotent(stored, ceiling);
    DecisionIsMonotone(prev, sample, chunkSize, ceiling);
    ResolveIsIdempotent(NextPace(prev, sample, chunkSize, ceiling), ceiling);
  }

  // Convergence: over any run of rounds under one ceiling streams never rise, patience never
  // falls, both stay legal, and the pace changes at most Slack times, from any stored pace.
  lemma {:induction false} PaceConverges(stored: Pace, samples: seq<Sample>, chunkSize: int, ceiling: int)
    ensures var end := AfterRounds(stored, samples, chunkSize, ceiling);
            && Resolve(end, ceiling).parts <= Resolve(stored, ceiling).parts
            && Resolve(stored, ceiling).partTimeout <= Resolve(end, ceiling).partTimeout
            && Legal(Resolve(end, ceiling), ceiling)
            && Changes(stored, samples, chunkSize, ceiling) + Slack(end, ceiling) <= Slack(stored, ceiling)
    ensures Slack(stored, ceiling) <= (if ceiling < 1 then 0 else ceiling - 1) + 900
    decreases |samples|
  {
    ResolveIsIdempotent(stored, ceiling);
    if samples != [] {
      RoundUsesUpSlack(stored, samples[0], chunkSize, ceiling);
      PaceConverges(AfterRound(stored, samples[0], chunkSize, ceiling), samples[1..], chunkSize, ceiling);
    }
  }

  // A round in which parts timed out and none got through.
  predicate Stuck(sample: Sample) {
    sample.timedOutParts > 0 && !sample.HasThroughput()
  }

  function Pow2(k: nat): nat {
    if k == 0 then 1 else 2 * Pow2(k - 1)
  }

  lemma StuckRound(stored: Pace, sample: Sample, chunkSize: int, ceiling: int)
    requires chunkSize > 0 && Stuck(sample)
    ensures var prev, next := Resolve(stored, ceiling), Resolve(AfterRound(stored, sample, chunkSize, ceiling), ceiling);
            && next.parts == (if prev.parts > 1 then prev.parts / 2 else 1)
            && next.partTimeout == (if 2 * prev.partTimeout > 1200 then 1200 else 2 * prev.partTimeout)
  {
    var prev := Resolve(stored, ceiling);
    ResolveIsIdempotent(stored, ceiling);
    ResolveIsIdempotent(NextPace(prev, sample, chunkSize, ceiling), ceiling);
  }

  function HalvedTimes(parts: int, k: nat): int
    decreases k
  {
    if k == 0 then parts else HalvedTimes(if parts > 1 then parts / 2 else 1, k - 1)
  }

  function DoubledTimes(seconds: int, k: nat): int
    decreases k
  {
    if k == 0 then seconds else DoubledTimes(if 2 * seconds > 1200 then 1200 else 2 * seconds, k - 1)
  }

  // Rounds without progress halve the streams and double the patience, exactly.
  lemma {:induction false} StuckRounds(stored: Pace, samples: seq<Sample>, chunkSize: int, ceiling: int)
    requires chunkSize > 0 && forall s <- samples :: Stuck(s)
    ensures var start, end := Resolve(stored, ceiling), Resolve(AfterRounds(stored, samples, chunkSize, ceiling), ceiling);
            && end.parts == HalvedTimes(start.parts, |samples|)
            && end.partTimeout == DoubledTimes(start.partTimeout, |samples|)
    decreases |samples|
  {
    if samples != [] {
      StuckRound(stored, samples[0], chunkSize, ceiling);
      StuckRounds(AfterRound(stored, samples[0], chunkSize, ceiling), samples[1..], chunkSize, ceiling);
    }
  }

  lemma {:induction false} HalvingReachesOne(parts: int, k: nat)
    requires 1 <= parts < 2 * Pow2(k)
    ensures HalvedTimes(parts, k) == 1
    decreases k
  {
    if k > 0 {
      HalvingReachesOne(if parts > 1 then parts / 2 else 1, k - 1);
    }
  }

  lemma {:induction false} DoublingReachesTheCap(seconds: int, k: nat)
    requires 300 <= seconds <= 1200 && (k >= 2 || seconds == 1200)
    ensures DoubledTimes(seconds, k) == 1200
    decreases k
  {
    if k > 2 || (k > 0 && seconds == 1200) {
      DoublingReachesTheCap(if 2 * seconds > 1200 then 1200 else 2 * seconds, k - 1);
    } else if k == 2 {
      assert DoubledTimes(1200, 0) == 1200;
    }
  }

  // Enough rounds without any progress always end at one stream with the longest timeout; under
  // the hard limit of four streams two such rounds are enough.
  lemma StuckRoundsReachTheFloor(stored: Pace, samples: seq<Sample>, chunkSize: int, ceiling: int)
    requires chunkSize > 0 && forall s <- samples :: Stuck(s)
    requires |samples| >= 2 && (ceiling <= 4 || ceiling < 2 * Pow2(|samples|))
    ensures var end := Resolve(AfterRounds(stored, samples, chunkSize, ceiling), ceiling);
            end.parts == 1 && end.partTimeout == 1200
  {
    StuckRounds(stored, samples, chunkSize, ceiling);
    ResolveIsIdempotent(stored, ceiling);
    PowGrows(|samples|);
    HalvingReachesOne(Resolve(stored, ceiling).parts, |samples|);
    DoublingReachesTheCap(Resolve(stored, ceiling).partTimeout, |samples|);
  }

  lemma {:induction false} PowGrows(k: nat)
    requires k >= 2
    ensures Pow2(k) >= 4
  {
    if k > 2 {
      PowGrows(k - 1);
    } else {
      assert Pow2(2) == 2 * Pow2(1);
    }
  }
}
