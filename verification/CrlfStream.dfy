/**
  Rewriting CRLF to LF in a byte stream that arrives in pieces: the reader keeps a trailing CR back
  until it has seen the next byte.
*/
module CrlfStreams {
  import opened Bytes

  const CR: Byte := 13
  const LF: Byte := 10

  predicate StartsWithCrlf(s: seq<Byte>) { |s| >= 2 && s[0] == CR && s[1] == LF }

  // strings.ReplaceAll(s, "\r\n", "\n"), which is also normalizePtyOutput.
  function Normal(s: seq<Byte>): seq<Byte> {
    if s == [] then []
    else if StartsWithCrlf(s) then [LF] + Normal(s[2..])
    else [s[0]] + Normal(s[1..])
  }

  // ---------- Where a stream may be cut ----------

  predicate CutsCrlf(a: seq<Byte>, b: seq<Byte>) { a != [] && b != [] && a[|a| - 1] == CR && b[0] == LF }

  lemma {:induction false} NormalSplits(a: seq<Byte>, b: seq<Byte>)
    requires !CutsCrlf(a, b)
    ensures Normal(a + b) == Normal(a) + Normal(b)
    decreases |a|
  {
    if a == [] {
      assert a + b == b;
    } else if StartsWithCrlf(a) {
      assert (a + b)[2..] == a[2..] + b;
      NormalSplits(a[2..], b);
    } else {
      assert (a + b)[1..] == a[1..] + b;
      assert !StartsWithCrlf(a + b);
      NormalSplits(a[1..], b);
    }
  }

  // ---------- What absorb adds ----------

  function Held(pending: bool): seq<Byte> { if pending then [CR] else [] }

  predicate EndsInCr(s: seq<Byte>) { s != [] && s[|s| - 1] == CR }

  // Everything up to a trailing CR, which stays pending.
  function Settled(s: seq<Byte>): seq<Byte> { if EndsInCr(s) then s[..|s| - 1] else s }

  lemma SettledKeepsTheRest(s: seq<Byte>, rest: seq<Byte>)
    ensures Normal(s + rest) == Normal(Settled(s)) + Normal(Held(EndsInCr(s)) + rest)
  {
    if EndsInCr(s) {
      assert s + rest == Settled(s) + ([CR] + rest);
      NormalSplits(Settled(s), [CR] + rest);
    } else {
      assert [] + rest == rest;
      NormalSplits(s, rest);
    }
  }

  lemma HeldIsPassedOn(pending: bool, chunk: seq<Byte>, rest: seq<Byte>)
    ensures var full := Held(pending) + chunk;
            Normal(Held(pending) + (chunk + rest)) == Normal(Settled(full)) + Normal(Held(EndsInCr(full)) + rest)
  {
    var full := Held(pending) + chunk;
    assert Held(pending) + (chunk + rest) == full + rest;
    SettledKeepsTheRest(full, rest);
  }

  lemma MoveOver(a: seq<Byte>, b: seq<Byte>, c: seq<Byte>)
    ensures a + (b + c) == (a + b) + c
  {
  }

  // One turn of the loop in absorb.
  lemma SettledStep(s: seq<Byte>)
    requires s != []
    ensures s == [CR] ==> Normal(Settled(s)) == []
    ensures s != [CR] && StartsWithCrlf(s) ==>
              Normal(Settled(s)) == [LF] + Normal(Settled(s[2..])) && EndsInCr(s) == EndsInCr(s[2..])
    ensures s != [CR] && !StartsWithCrlf(s) ==>
              Normal(Settled(s)) == [s[0]] + Normal(Settled(s[1..])) && EndsInCr(s) == EndsInCr(s[1..])
  {
    if s != [CR] {
      assert Settled(s)[1..] == Settled(s[1..]);
      if StartsWithCrlf(s) {
        assert Settled(s)[2..] == Settled(s[2..]);
      }
    }
  }

  lemma EndOfSource(pending: bool, last: seq<Byte>)
    ensures var full := Held(pending) + last;
            Normal(Held(pending) + (Flatten([]) + last)) == Normal(Settled(full)) + Held(EndsInCr(full))
    ensures last == [] ==> Normal(Settled(Held(pending) + last)) == [] && EndsInCr(Held(pending) + last) == pending
  {
    assert Flatten([]) + last == last && last + [] == last;
    HeldIsPassedOn(pending, last, []);
    var held := Held(EndsInCr(Held(pending) + last));
    assert held + [] == held;
  }

  // The output `whole` is `buf` and what the data from i on still gives.
  ghost predicate Remains(whole: seq<Byte>, buf: seq<Byte>, data: seq<Byte>, i: nat)
    requires i <= |data|
  {
    whole == buf + Normal(Settled(data[i..]))
  }

  lemma Turn(whole: seq<Byte>, buf: seq<Byte>, data: seq<Byte>, i: nat)
    requires i < |data| && Remains(whole, buf, data, i)
    ensures data[i] != CR ==> Remains(whole, buf + [data[i]], data, i + 1) && EndsInCr(data[i..]) == EndsInCr(data[i + 1..])
    ensures data[i] == CR && i + 1 == |data| ==> Remains(whole, buf, data, i + 1) && EndsInCr(data[i..])
    ensures data[i] == CR && i + 1 < |data| && data[i + 1] == LF ==>
              Remains(whole, buf + [LF], data, i + 2) && EndsInCr(data[i..]) == EndsInCr(data[i + 2..])
    ensures data[i] == CR && i + 1 < |data| && data[i + 1] != LF ==>
              Remains(whole, buf + [CR], data, i + 1) && EndsInCr(data[i..]) == EndsInCr(data[i + 1..])
  {
    var rest := data[i..];
    SettledStep(rest);
    assert rest[1..] == data[i + 1..];
    MoveOver(buf, [data[i]], Normal(Settled(data[i + 1..])));
    if i + 1 < |data| {
      assert rest[2..] == data[i + 2..];
      MoveOver(buf, [LF], Normal(Settled(data[i + 2..])));
    }
  }

  // The first byte of the next chunk decides what a pending CR was.
  lemma HeldCrIsDecided(chunk: seq<Byte>)
    requires chunk != []
    ensures var full := Held(true) + chunk;
            if chunk[0] == LF
            then Normal(Settled(full)) == [LF] + Normal(Settled(chunk[1..])) && EndsInCr(full) == EndsInCr(chunk[1..])
            else Normal(Settled(full)) == [CR] + Normal(Settled(chunk)) && EndsInCr(full) == EndsInCr(chunk)
  {
    var full := Held(true) + chunk;
    if chunk[0] == LF {
      assert Settled(full)[2..] == Settled(chunk[1..]);
    } else {
      assert Settled(full)[1..] == Settled(chunk);
    }
  }

  function Flatten(chunks: seq<seq<Byte>>): seq<Byte> {
    if chunks == [] then [] else chunks[0] + Flatten(chunks[1..])
  }

  // What the reader puts out for a list of chunks, pending CR and final flush included; one chunk at
  // a time, as absorb sees them.
  function Streamed(pending: bool, chunks: seq<seq<Byte>>): seq<Byte>
    decreases |chunks|
  {
    if chunks == [] then Held(pending)
    else if chunks[0] == [] then Streamed(false, chunks[1..])
    else
      var full := Held(pending) + chunks[0];
      Normal(Settled(full)) + Streamed(EndsInCr(full), chunks[1..])
  }

  // However a stream is split into non-empty chunks, the output is one replace-all over the whole.
  lemma {:induction false} ChunkingDoesNotMatter(pending: bool, chunks: seq<seq<Byte>>)
    requires forall i | 0 <= i < |chunks| :: chunks[i] != []
    ensures Streamed(pending, chunks) == Normal(Held(pending) + Flatten(chunks))
    decreases |chunks|
  {
    if chunks == [] {
      assert Held(pending) + [] == Held(pending);
    } else {
      var full := Held(pending) + chunks[0];
      ChunkingDoesNotMatter(EndsInCr(full), chunks[1..]);
      HeldIsPassedOn(pending, chunks[0], Flatten(chunks[1..]));
    }
  }

  // An empty chunk would drop a pending CR; Read never passes one to absorb.
  lemma EmptyChunkLosesACr(rest: seq<seq<Byte>>)
    requires forall i | 0 <= i < |rest| :: rest[i] != []
    ensures Streamed(true, [[]] + rest) == Normal(Flatten(rest))
    ensures |Streamed(true, [[]])| < |Normal(Held(true) + Flatten([[]]))|
  {
    assert ([[]] + rest)[1..] == rest;
    ChunkingDoesNotMatter(false, rest);
    assert Held(false) + Flatten(rest) == Flatten(rest);
    var none: seq<seq<Byte>> := [[]];
    assert none[1..] == [] && Flatten(none) == [];
    assert Held(true) + [] == [CR];
  }

  // ---------- The reader ----------

  // `src` is what the source's reads will give, `last` the bytes it returns together with its error.
  class CrlfReader {
    var src: seq<seq<Byte>>
    var last: seq<Byte>
    var buf: seq<Byte>
    var pending: bool
    var done: bool

    constructor (src: seq<seq<Byte>>, last: seq<Byte>)
      ensures Future() == Normal(Flatten(src) + last)
    {
      this.src, this.last := src, last;
      buf, pending, done := [], false, false;
      new;
      assert Held(false) + (Flatten(src) + last) == Flatten(src) + last;
    }

    // Every byte the reader will still hand out.
    ghost function Future(): seq<Byte>
      reads this
    {
      buf + if done then [] else Normal(Held(pending) + (Flatten(src) + last))
    }

    // The loop of absorb, over what is left of the chunk once a pending CR is decided.
    method AbsorbRest(data: seq<Byte>)
      requires !pending
      modifies this`buf, this`pending
      ensures buf == old(buf) + Normal(Settled(data)) && pending == EndsInCr(data)
    {
      ghost var whole := buf + Normal(Settled(data));
      var i := 0;
      assert data[0..] == data;
      while i < |data|
        invariant 0 <= i <= |data| && Remains(whole, buf, data, i)
        invariant if pending then i == |data| && EndsInCr(data) else EndsInCr(data[i..]) == EndsInCr(data)
      {
        Turn(whole, buf, data, i);
        if data[i] != CR {
          buf := buf + [data[i]];
          i := i + 1;
          continue;
        }
        if i + 1 < |data| {
          if data[i + 1] == LF {
            buf := buf + [LF];
            i := i + 1;
          } else {
            buf := buf + [CR];
          }
          i := i + 1;
          continue;
        }
        pending := true;
        i := i + 1;
      }
      assert data[|data|..] == [];
      assert buf + [] == buf;
    }

    method Absorb(chunk: seq<Byte>)
      modifies this`buf, this`pending
      ensures chunk != [] ==> buf == old(buf) + Normal(Settled(Held(old(pending)) + chunk))
      ensures chunk != [] ==> pending == EndsInCr(Held(old(pending)) + chunk)
      ensures chunk == [] ==> buf == old(buf) && !pending
    {
      var data := chunk;
      assert Held(false) + chunk == chunk;
      if pending {
        pending := false;
        if |data| > 0 {
          HeldCrIsDecided(chunk);
          if data[0] == LF {
            MoveOver(buf, [LF], Normal(Settled(chunk[1..])));
            buf := buf + [LF];
            data := data[1..];
          } else {
            MoveOver(buf, [CR], Normal(Settled(chunk)));
            buf := buf + [CR];
          }
        }
      }
      AbsorbRest(data);
    }

    method FlushPending()
      modifies this`buf, this`pending
      ensures buf == old(buf) + Held(old(pending)) && !pending
    {
      if pending {
        buf := buf + [CR];
        pending := false;
      }
    }

    // One read of the source inside Read.
    method Fill()
      requires !done
      modifies this
      ensures Future() == old(Future())
      ensures (|src| < old(|src|) && !done) || (done && src == old(src))
    {
      if src != [] {
        var chunk := src[0];
        ghost var rest := Flatten(src[1..]) + last;
        assert Flatten(src) + last == chunk + rest;
        src := src[1..];
        if chunk != [] {
          HeldIsPassedOn(pending, chunk, rest);
          ghost var full := Held(pending) + chunk;
          MoveOver(buf, Normal(Settled(full)), Normal(Held(EndsInCr(full)) + rest));
          Absorb(chunk);
        } else {
          assert chunk + rest == rest;
        }
      } else {
        EndOfSource(pending, last);
        ghost var full := Held(pending) + last;
        MoveOver(buf, Normal(Settled(full)), Held(EndsInCr(full)));
        if last != [] {
          Absorb(last);
        }
        done := true;
        FlushPending();
      }
    }

    // Read into a slice of p bytes: what is handed out, and whether the source is at its end.
    method Read(p: nat) returns (bytes: seq<Byte>, end: bool)
      modifies this
      ensures old(Future()) == bytes + Future() && |bytes| <= p
      ensures end ==> bytes == [] && Future() == []
      ensures !end && p > 0 ==> bytes != []
    {
      bytes, end := [], false;
      while buf == []
        invariant Future() == old(Future())
        decreases |src|, !done
      {
        if done {
          end := true;
          return;
        }
        Fill();
      }
      var n := if p < |buf| then p else |buf|;
      bytes := buf[..n];
      buf := buf[n..];
    }
  }

  // io.ReadAll over the reader: chunk boundaries, CRs on them and read sizes leave no trace.
  method ReadAll(src: seq<seq<Byte>>, last: seq<Byte>, size: nat) returns (all: seq<Byte>)
    requires size > 0
    ensures all == Normal(Flatten(src) + last)
  {
    var reader := new CrlfReader(src, last);
    all := [];
    var end := false;
    while !end
      invariant fresh(reader)
      invariant all + reader.Future() == Normal(Flatten(src) + last)
      invariant end ==> reader.Future() == []
      decreases |reader.Future()|, !end
    {
      var bytes;
      bytes, end := reader.Read(size);
      all := all + bytes;
    }
  }

  // ---------- Normalizing twice ----------

  predicate HasCrlf(s: seq<Byte>) { s != [] && (StartsWithCrlf(s) || HasCrlf(s[1..])) }

  predicate StartsWithCrCrlf(s: seq<Byte>) { |s| >= 3 && s[0] == CR && StartsWithCrlf(s[1..]) }

  predicate HasCrCrlf(s: seq<Byte>) { s != [] && (StartsWithCrCrlf(s) || HasCrCrlf(s[1..])) }

  lemma {:induction false} NormalIsIdentityIff(s: seq<Byte>)
    ensures |Normal(s)| <= |s|
    ensures Normal(s) == s <==> !HasCrlf(s)
    decreases |s|
  {
    if s != [] {
      NormalIsIdentityIff(s[1..]);
      if StartsWithCrlf(s) {
        NormalIsIdentityIff(s[2..]);
      } else {
        assert s == [s[0]] + s[1..];
      }
    }
  }

  // Every pair of CR and LF becomes one LF, and what stands between the pairs stays.
  lemma PairsAreReplaced(a: seq<Byte>, b: seq<Byte>)
    requires !HasCrlf(a)
    ensures Normal(a + [13, 10] + b) == a + [10] + Normal(b)
  {
    var rest: seq<Byte> := [13, 10] + b;
    NormalIsIdentityIff(a);
    NormalSplits(a, rest);
    assert a + [13, 10] + b == a + rest && rest[2..] == b;
    assert Normal(rest) == [10] + Normal(b);
  }

  lemma {:induction false} CrlfSurvivesIff(s: seq<Byte>)
    ensures HasCrlf(Normal(s)) <==> HasCrCrlf(s)
    decreases |s|
  {
    if s != [] {
      CrlfSurvivesIff(s[1..]);
      if StartsWithCrlf(s) {
        CrlfSurvivesIff(s[2..]);
        assert Normal(s)[1..] == Normal(s[2..]);
        assert s[1..][1..] == s[2..];
      } else {
        assert Normal(s)[1..] == Normal(s[1..]);
      }
    }
  }

  // Normalizing a second time changes nothing exactly when no CR stands before a CRLF.
  lemma NormalIsIdempotentIff(s: seq<Byte>)
    ensures Normal(Normal(s)) == Normal(s) <==> !HasCrCrlf(s)
  {
    NormalIsIdentityIff(Normal(s));
    CrlfSurvivesIff(s);
  }
}
