/** Sequences that leave out some elements of another one, and when they leave out none. */
module Subsequences {

  // `a` is what is left of `b` after leaving some elements out.
  predicate Within<T(==)>(a: seq<T>, b: seq<T>) {
    if b == [] then a == []
    else Within(a, b[..|b| - 1]) || (a != [] && a[|a| - 1] == b[|b| - 1] && Within(a[..|a| - 1], b[..|b| - 1]))
  }

  lemma {:induction false} WithinConcat<T>(a: seq<T>, b: seq<T>, c: seq<T>, d: seq<T>)
    requires Within(a, b) && Within(c, d)
    ensures Within(a + c, b + d)
    decreases |d|
  {
    if d == [] {
      assert a + c == a && b + d == b;
    } else {
      var rest := d[..|d| - 1];
      assert (b + d)[..|b + d| - 1] == b + rest;
      if Within(c, rest) {
        WithinConcat(a, b, c, rest);
      } else {
        WithinConcat(a, b, c[..|c| - 1], rest);
        assert (a + c)[..|a + c| - 1] == a + c[..|c| - 1];
      }
    }
  }

  lemma {:induction false} WithinIsShorter<T>(a: seq<T>, b: seq<T>)
    requires Within(a, b)
    ensures |a| <= |b|
    ensures |a| == |b| ==> a == b
    decreases |b|
  {
    if b != [] {
      var rest := b[..|b| - 1];
      assert b == rest + [b[|b| - 1]];
      if Within(a, rest) {
        WithinIsShorter(a, rest);
      } else {
        WithinIsShorter(a[..|a| - 1], rest);
        assert a == a[..|a| - 1] + [a[|a| - 1]];
      }
    }
  }

  lemma {:induction false} NothingIsWithin<T>(b: seq<T>)
    ensures Within([], b)
    decreases |b|
  {
    if b != [] {
      NothingIsWithin(b[..|b| - 1]);
    }
  }

  lemma {:induction false} AllIsWithin<T>(b: seq<T>)
    ensures Within(b, b)
    decreases |b|
  {
    if b != [] {
      AllIsWithin(b[..|b| - 1]);
    }
  }

  // `emitted` is part of `source`, and all of it exactly when `well` holds.
  ghost predicate Renders<T>(emitted: seq<T>, source: seq<T>, well: bool) {
    Within(emitted, source) && (|emitted| == |source| <==> well)
  }

  lemma RendersBoth<T>(a: seq<T>, b: seq<T>, p: bool, c: seq<T>, d: seq<T>, q: bool)
    requires Renders(a, b, p) && Renders(c, d, q)
    ensures Renders(a + c, b + d, p && q)
  {
    WithinConcat(a, b, c, d);
    WithinIsShorter(a, b);
    WithinIsShorter(c, d);
  }

  lemma RendersAll<T>(es: seq<T>)
    ensures Renders(es, es, true)
  {
    AllIsWithin(es);
  }

  lemma RendersNone<T>(es: seq<T>)
    ensures Renders([], es, es == [])
  {
    NothingIsWithin(es);
  }

  lemma AfterOwn<T>(own: seq<T>, a: seq<T>, b: seq<T>, p: bool)
    requires Renders(a, b, p)
    ensures Renders(own + a, own + b, p)
    ensures own == [] ==> Renders(a, own + b, p)
  {
    RendersAll(own);
    RendersBoth(own, own, true, a, b, p);
    assert own == [] ==> own + b == b;
  }
}
