/** Sums of integer sequences under the changes the models make to them. */
module Sums {

  function Sum(ws: seq<int>): int
  {
    if ws == [] then 0 else Sum(ws[..|ws| - 1]) + ws[|ws| - 1]
  }

  lemma {:induction false} SumUpdate(ws: seq<int>, i: nat, v: int)
    requires i < |ws|
    ensures Sum(ws[i := v]) == Sum(ws) - ws[i] + v
  {
    var last := |ws| - 1;
    if i == last {
      assert ws[i := v][..last] == ws[..last];
    } else {
      SumUpdate(ws[..last], i, v);
      assert ws[i := v][..last] == ws[..last][i := v];
    }
  }

  lemma SumPush(ws: seq<int>, v: int)
    ensures Sum(ws + [v]) == Sum(ws) + v
  {
    assert (ws + [v])[..|ws|] == ws;
  }

  lemma {:induction false} SumMonotone(a: seq<int>, b: seq<int>)
    requires |a| == |b|
    requires forall i | 0 <= i < |a| :: a[i] <= b[i]
    ensures Sum(a) <= Sum(b)
  {
    if a != [] {
      SumMonotone(a[..|a| - 1], b[..|b| - 1]);
    }
  }

  // One entry is no more than the sum when none is negative.
  lemma {:induction false} EntryBelowSum(ws: seq<int>, i: nat)
    requires i < |ws|
    requires forall k | 0 <= k < |ws| :: 0 <= ws[k]
    ensures ws[i] <= Sum(ws)
  {
    var zeros := seq(|ws|, k => 0);
    ZeroSum(|ws|);
    SumUpdate(zeros, i, ws[i]);
    SumMonotone(zeros[i := ws[i]], ws);
  }

  lemma {:induction false} ZeroSum(n: nat)
    ensures Sum(seq(n, k => 0)) == 0
  {
    if n > 0 {
      ZeroSum(n - 1);
      assert seq(n, k => 0)[..n - 1] == seq(n - 1, k => 0);
    }
  }
}
