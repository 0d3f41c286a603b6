/**
  What the white space of rendered text looks like, and that no step of the text path joins two words or
  splits one.
*/
module SemanticSpaces {
  import opened SemanticText
  import opened SemanticTree

  // For every visible atom and marker whether a word starts there; `after` says that a space, or nothing,
  // comes before. Text with the same content and the same starts has the same words.
  function Starts(l: Line, after: bool): seq<bool> {
    if l == [] then []
    else if IsSpace(l[0]) then Starts(l[1..], true)
    else [after] + Starts(l[1..], false)
  }

  predicate Blanks(l: Line) { forall x <- l :: IsSpace(x) }

  lemma {:induction false} StartsConcat(a: Line, b: Line, after: bool)
    ensures Starts(a + b, after) == Starts(a, after) + Starts(b, if a == [] then after else IsSpace(a[|a| - 1]))
    decreases |a|
  {
    if a == [] {
      assert a + b == b;
    } else {
      assert (a + b)[1..] == a[1..] + b;
      StartsConcat(a[1..], b, IsSpace(a[0]));
      if |a| > 1 {
        assert a[1..][|a[1..]| - 1] == a[|a| - 1];
      }
    }
  }

  lemma {:induction false} BlanksStartNothing(l: Line, after: bool)
    requires Blanks(l)
    ensures Starts(l, after) == []
  {
    if l != [] {
      BlanksStartNothing(l[1..], true);
    }
  }

  // ---------- Stripping ----------

  lemma {:induction false} RStripCuts(l: Line)
    ensures RStrip(l) <= l && Blanks(l[|RStrip(l)|..]) && (RStrip(l) != [] ==> !IsSpace(RStrip(l)[|RStrip(l)| - 1]))
  {
    if l != [] && IsSpace(l[|l| - 1]) {
      RStripCuts(l[..|l| - 1]);
      var n := |RStrip(l)|;
      assert l[n..] == l[..|l| - 1][n..] + [l[|l| - 1]];
    }
  }

  lemma {:induction false} LStripCuts(l: Line)
    ensures |LStrip(l)| <= |l| && l[|l| - |LStrip(l)|..] == LStrip(l) && Blanks(l[..|l| - |LStrip(l)|])
    ensures LStrip(l) != [] ==> !IsSpace(LStrip(l)[0])
  {
    if l != [] && IsSpace(l[0]) {
      LStripCuts(l[1..]);
      var n := |l| - |LStrip(l)|;
      assert l[..n] == [l[0]] + l[1..][..n - 1];
    }
  }

  // strip takes the white space at both ends and nothing else.
  lemma StripCuts(l: Line)
    ensures exists a: Line, b: Line :: l == a + Strip(l) + b && Blanks(a) && Blanks(b)
    ensures Strip(l) != [] ==> !IsSpace(Strip(l)[0]) && !IsSpace(Strip(l)[|Strip(l)| - 1])
  {
    RStripCuts(l);
    LStripCuts(RStrip(l));
    var r := RStrip(l);
    var n := |r| - |LStrip(r)|;
    var a, b := r[..n], l[|r|..];
    assert l == r + b && r == a + LStrip(r);
    if Strip(l) != [] {
      assert Strip(l)[|Strip(l)| - 1] == r[|r| - 1];
    }
  }

  lemma StripKeepsWords(l: Line)
    ensures Starts(Strip(l), true) == Starts(l, true)
  {
    StripCuts(l);
    var a: Line, b: Line :| l == a + Strip(l) + b && Blanks(a) && Blanks(b);
    StartsConcat(a + Strip(l), b, true);
    StartsConcat(a, Strip(l), true);
    BlanksStartNothing(a, true);
    BlanksStartNothing(b, if a + Strip(l) == [] then true else IsSpace((a + Strip(l))[|a + Strip(l)| - 1]));
    assert a != [] ==> IsSpace(a[|a| - 1]);
    assert [] + Starts(Strip(l), true) + [] == Starts(Strip(l), true);
  }

  // ---------- Squeezing ----------

  // Single blanks only.
  predicate Single(l: Line) {
    forall i | 0 <= i < |l| && IsSpace(l[i]) :: Is(l[i], ' ') && (i + 1 < |l| ==> !IsSpace(l[i + 1]))
  }

  lemma SingleGrows(x: Atom, l: Line)
    requires Single(l) && (IsSpace(x) ==> Is(x, ' ') && (l != [] ==> !IsSpace(l[0])))
    ensures Single([x] + l)
  {
    var r := [x] + l;
    forall i | 0 <= i < |r| && IsSpace(r[i]) ensures Is(r[i], ' ') && (i + 1 < |r| ==> !IsSpace(r[i + 1])) {
      assert i > 0 ==> r[i] == l[i - 1];
      assert i + 1 < |r| ==> r[i + 1] == l[i];
    }
  }

  // Every stretch of white space becomes one blank; the words stay.
  lemma {:induction false} SqueezedIsSingle(l: Line, after: bool)
    ensures Single(Squeezed(l)) && Starts(Squeezed(l), after) == Starts(l, after)
    ensures l != [] && !IsSpace(l[0]) ==> Squeezed(l) != [] && Squeezed(l)[0] == l[0]
    ensures Squeezed(l) == [] <==> l == []
    decreases |l|
  {
    if l != [] {
      if !IsSpace(l[0]) {
        SqueezedIsSingle(l[1..], false);
        SingleGrows(l[0], Squeezed(l[1..]));
      } else if |l| > 1 && IsSpace(l[1]) {
        SqueezedIsSingle(l[1..], after);
        SpacesAreAlike(l[1..], after);
      } else {
        SqueezedIsSingle(l[1..], true);
        SingleGrows(Ch(' '), Squeezed(l[1..]));
        assert ([Ch(' ')] + Squeezed(l[1..]))[1..] == Squeezed(l[1..]);
      }
    }
  }

  lemma SpacesAreAlike(l: Line, after: bool)
    requires l != [] && IsSpace(l[0])
    ensures Starts(l, after) == Starts(l, true)
  {
  }

  // ---------- Line breaks ----------

  function WithoutBlanks(l: Line): Line {
    if l == [] then [] else (if Is(l[0], ' ') then [] else [l[0]]) + WithoutBlanks(l[1..])
  }

  // No blank beside a line break.
  predicate Tight(l: Line) {
    forall i | 0 <= i < |l| - 1 :: !(Is(l[i], '\n') && Is(l[i + 1], ' ')) && !(Is(l[i], ' ') && Is(l[i + 1], '\n'))
  }

  lemma TightGrows(x: Atom, l: Line)
    requires Tight(l) && (l != [] ==> !(Is(x, '\n') && Is(l[0], ' ')) && !(Is(x, ' ') && Is(l[0], '\n')))
    ensures Tight([x] + l)
  {
    var r := [x] + l;
    forall i | 0 <= i < |r| - 1 ensures !(Is(r[i], '\n') && Is(r[i + 1], ' ')) && !(Is(r[i], ' ') && Is(r[i + 1], '\n')) {
      assert r[i + 1] == l[i] && (i > 0 ==> r[i] == l[i - 1]);
    }
  }

  // The blanks beside line breaks go, and nothing else: all but blanks stays, and so do the words.
  lemma {:induction false} TightBreaksIsTight(l: Line, afterBreak: bool)
    ensures Tight(TightBreaks(l, afterBreak))
    ensures var r := TightBreaks(l, afterBreak); r != [] ==>
              (afterBreak ==> !Is(r[0], ' ')) && (Is(r[0], '\n') ==> BreakAhead(l))
    decreases |l|
  {
    if l != [] {
      if Is(l[0], ' ') && (afterBreak || BreakAhead(l)) {
        TightBreaksIsTight(l[1..], afterBreak);
      } else {
        TightBreaksIsTight(l[1..], Is(l[0], '\n'));
        TightGrows(l[0], TightBreaks(l[1..], Is(l[0], '\n')));
        hide Tight;
      }
    }
  }

  lemma {:induction false} OnlyBlanksGo(l: Line, afterBreak: bool)
    ensures WithoutBlanks(TightBreaks(l, afterBreak)) == WithoutBlanks(l)
    decreases |l|
  {
    if l != [] {
      if Is(l[0], ' ') && (afterBreak || BreakAhead(l)) {
        OnlyBlanksGo(l[1..], afterBreak);
      } else {
        OnlyBlanksGo(l[1..], Is(l[0], '\n'));
        assert ([l[0]] + TightBreaks(l[1..], Is(l[0], '\n')))[1..] == TightBreaks(l[1..], Is(l[0], '\n'));
      }
    }
  }

  lemma {:induction false} TightBreaksKeepsWords(l: Line, afterBreak: bool, after: bool)
    requires afterBreak ==> after
    ensures Starts(TightBreaks(l, afterBreak), after) == Starts(l, after)
    decreases |l|
  {
    if l != [] {
      if Is(l[0], ' ') && (afterBreak || BreakAhead(l)) {
        TightBreaksKeepsWords(l[1..], afterBreak, after);
        if !afterBreak {
          BreakAheadIsSpace(l[1..], after);
        }
      } else {
        TightBreaksKeepsWords(l[1..], Is(l[0], '\n'), IsSpace(l[0]));
        assert ([l[0]] + TightBreaks(l[1..], Is(l[0], '\n')))[1..] == TightBreaks(l[1..], Is(l[0], '\n'));
      }
    }
  }

  lemma {:induction false} BreakAheadIsSpace(l: Line, after: bool)
    requires BreakAhead(l)
    ensures Starts(l, after) == Starts(l, true)
  {
  }

  predicate NoTriple(l: Line) { forall i | 0 <= i < |l| - 2 :: !(Is(l[i], '\n') && Is(l[i + 1], '\n') && Is(l[i + 2], '\n')) }

  // No more than two line breaks in a row are left, text without three of them stays as it is, and the words
  // stay in any case.
  lemma {:induction false} FewBreaksAreFew(l: Line, after: bool)
    ensures NoTriple(FewBreaks(l)) && (NoTriple(l) ==> FewBreaks(l) == l) && Starts(FewBreaks(l), after) == Starts(l, after)
    ensures Pair(FewBreaks(l)) ==> Pair(l)
    ensures FewBreaks(l) != [] && Is(FewBreaks(l)[0], '\n') ==> l != [] && Is(l[0], '\n')
    decreases |l|
  {
    if l != [] {
      if Is(l[0], '\n') && Pair(l[1..]) {
        FewBreaksAreFew(l[1..], after);
        SpacesAreAlike(l[1..], after);
        assert Is(l[0], '\n') && Is(l[1], '\n') && Is(l[2], '\n');
      } else {
        FewBreaksAreFew(l[1..], IsSpace(l[0]));
        NoTripleGrows(l[0], l[1..], FewBreaks(l[1..]));
      }
    }
  }

  predicate Pair(l: Line) { |l| >= 2 && Is(l[0], '\n') && Is(l[1], '\n') }

  lemma NoTripleGrows(x: Atom, l: Line, r: Line)
    requires NoTriple(r) && !(Is(x, '\n') && Pair(r))
    ensures NoTriple([x] + r)
    ensures NoTriple([x] + l) ==> NoTriple(l)
  {
    var s, t := [x] + r, [x] + l;
    forall i | 0 <= i < |s| - 2 ensures !(Is(s[i], '\n') && Is(s[i + 1], '\n') && Is(s[i + 2], '\n')) {
      assert s[i + 1] == r[i] && s[i + 2] == r[i + 1] && (i > 0 ==> s[i] == r[i - 1]);
    }
    if NoTriple(t) {
      forall i | 0 <= i < |l| - 2 ensures !(Is(l[i], '\n') && Is(l[i + 1], '\n') && Is(l[i + 2], '\n')) {
        assert t[i + 1] == l[i] && t[i + 2] == l[i + 1] && t[i + 3] == l[i + 2];
      }
    }
  }

  // ---------- Lines ----------

  predicate OneLine(l: Line) { forall x <- l :: !Is(x, '\n') }

  lemma {:induction false} NoBreakBefore(l: Line)
    ensures OneLine(l[..BreakAt(l)])
  {
    if l != [] && !Is(l[0], '\n') {
      NoBreakBefore(l[1..]);
      assert l[..BreakAt(l)] == [l[0]] + l[1..][..BreakAt(l[1..])];
    }
  }

  lemma {:induction false} JoinFront(first: Line, more: seq<Line>, sep: char)
    requires more != []
    ensures Join([first] + more, sep) == first + [Ch(sep)] + Join(more, sep)
    decreases |more|
  {
    var all := [first] + more;
    assert all[|all| - 1] == more[|more| - 1];
    if |more| == 1 {
      assert all[..1] == [first] && more == [more[0]];
      assert Join(all[..1], sep) == first;
    } else {
      assert all[..|all| - 1] == [first] + more[..|more| - 1];
      JoinFront(first, more[..|more| - 1], sep);
      assert first + [Ch(sep)] + Join(more[..|more| - 1], sep) + [Ch(sep)] + more[|more| - 1] == first + [Ch(sep)] + Join(more, sep);
    }
  }

  // split("\n") and join undo each other: the lines have no break, and put together they are the text, a
  // break being a character of the document or of the converter.
  lemma {:induction false} SplitAllIsUndone(l: Line)
    requires forall x <- l :: Is(x, '\n') ==> x == Ch('\n')
    ensures (forall line <- SplitAll(l) :: OneLine(line)) && SplitAll(l) != [] && Join(SplitAll(l), '\n') == l
    decreases |l|
  {
    var i := BreakAt(l);
    NoBreakBefore(l);
    if i < |l| {
      SplitAllIsUndone(l[i + 1..]);
      JoinFront(l[..i], SplitAll(l[i + 1..]), '\n');
      assert l[i] in l;
      CutOut(l, i);
    } else {
      assert SplitAll(l) == [l[..i]] && l[..i] == l;
    }
  }

  // splitlines likewise, but for a break at the very end, which starts no line.
  lemma SplitLinesIsUndone(l: Line)
    requires forall x <- l :: Is(x, '\n') ==> x == Ch('\n')
    ensures (forall line <- SplitLines(l) :: OneLine(line)) && (l != [] ==> SplitLines(l) != [])
    ensures Join(SplitLines(l), '\n') + (if l != [] && Is(l[|l| - 1], '\n') then [Ch('\n')] else []) == l
  {
    if l != [] {
      SplitAllIsUndone(if Is(l[|l| - 1], '\n') then l[..|l| - 1] else l);
    }
  }

  // ---------- Words of a run ----------

  function StartsOf(parts: seq<Line>): seq<bool> {
    if parts == [] then [] else StartsOf(parts[..|parts| - 1]) + Starts(parts[|parts| - 1], true)
  }

  // Parts put together with white space between them keep their words apart.
  lemma {:induction false} JoinKeepsWords(parts: seq<Line>, sep: char)
    requires IsBlank(sep)
    ensures Starts(Join(parts, sep), true) == StartsOf(parts)
  {
    if parts != [] {
      var front, last := parts[..|parts| - 1], parts[|parts| - 1];
      JoinKeepsWords(front, sep);
      if |parts| == 1 {
        assert StartsOf(front) == [] && [] + Starts(last, true) == Starts(last, true);
      } else {
        WordsBehindASpace(Join(front, sep), Ch(sep), last);
      }
    }
  }

  lemma WordsBehindASpace(front: Line, space: Atom, last: Line)
    requires IsSpace(space)
    ensures Starts(front + [space] + last, true) == Starts(front, true) + Starts(last, true)
  {
    StartsConcat(front + [space], last, true);
    StartsConcat(front, [space], true);
    BlanksStartNothing([space], if front == [] then true else IsSpace(front[|front| - 1]));
    assert Starts(front, true) + [] == Starts(front, true);
  }

  // _inline_text of such parts keeps their words.
  lemma RunKeepsWords(parts: seq<Line>)
    ensures Starts(Strip(TightBreaks(Join(parts, ' '), false)), true) == StartsOf(parts)
  {
    JoinKeepsWords(parts, ' ');
    TightBreaksKeepsWords(Join(parts, ' '), false, true);
    StripKeepsWords(TightBreaks(Join(parts, ' '), false));
  }

  lemma CollapsedKeepsWords(l: Line)
    ensures Starts(Collapsed(l), true) == Starts(l, true)
  {
    SqueezedIsSingle(l, true);
    StripKeepsWords(Squeezed(l));
  }

  // The words of a document as its inline text shows them: a string keeps its own, and what stands in
  // another node, or behind a line break, never continues one.
  function InlinedStarts(nodes: seq<Node>): seq<bool> {
    if nodes == [] then [] else InlinedStarts(nodes[..|nodes| - 1]) + InlinedStartsOf(nodes[|nodes| - 1])
  }

  function InlinedStartsOf(n: Node): seq<bool> {
    match n
    case Text(t) => Starts(Doc(t), true)
    case Comment(t) => Starts(Notes(t), true)
    case Elem(tag, children) =>
      match tag
      case Img(seqNo) => if seqNo.Some? then [true] else []
      case Inline | Item(_) | Row | Cell => InlinedStarts(children)
      case Br | List(_, _) | Pre(_) | Table | Block | Ignored => []
  }

  // ---------- Line breaks of other systems ----------

  // A text without CR stays, a CR with its LF becomes one line feed and a CR alone another, wherever they
  // stand.
  lemma {:induction false} UnixBreaksReplaces(a: string, b: string)
    requires '\r' !in a
    ensures UnixBreaks(a) == a && UnixBreaks(a + "\r\n" + b) == a + "\n" + UnixBreaks(b)
    ensures b == "" || b[0] != '\n' ==> UnixBreaks(a + "\r" + b) == a + "\n" + UnixBreaks(b)
    decreases |a|
  {
    if a == "" {
      assert a + "\r\n" + b == "\r\n" + b && ("\r\n" + b)[2..] == b;
      assert a + "\r" + b == "\r" + b && ("\r" + b)[1..] == b;
    } else {
      UnixBreaksReplaces(a[1..], b);
      assert (a + "\r\n" + b)[1..] == a[1..] + "\r\n" + b && (a + "\r" + b)[1..] == a[1..] + "\r" + b;
    }
  }
}
