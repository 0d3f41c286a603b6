/**
  The pieces of text the HTML renderer moves around: lines whose atoms are document characters,
  characters the renderer adds, and image markers, and the whitespace operations it applies to them.
  None of them loses or moves a marker or a visible character of the document.
*/
module SemanticText {

  // Ch(c) is written by the renderer itself, Txt(c) is a character of the document's text, Note(c) a
  // character of one of its comments, and Mark(n) is the marker of image n.
  datatype Atom = Ch(c: char) | Txt(c: char) | Note(c: char) | Mark(seqNo: int)

  type Line = seq<Atom>

  predicate Is(a: Atom, c: char) { !a.Mark? && a.c == c }

  predicate IsBlank(c: char) { c in " \t\n\r\U{0B}\U{0C}" }

  predicate IsSpace(a: Atom) { !a.Mark? && IsBlank(a.c) }

  // What a reader sees of the document: markers and visible characters of its text and its comments.
  predicate Shown(a: Atom) { a.Mark? || (!a.Ch? && !IsSpace(a)) }

  function Chars(s: string): Line { seq(|s|, i requires 0 <= i < |s| => Ch(s[i])) }

  function Doc(s: string): Line { seq(|s|, i requires 0 <= i < |s| => Txt(s[i])) }

  function Notes(s: string): Line { seq(|s|, i requires 0 <= i < |s| => Note(s[i])) }

  function Content(l: Line): Line {
    if l == [] then [] else Content(l[..|l| - 1]) + if Shown(l[|l| - 1]) then [l[|l| - 1]] else []
  }

  function LinesContent(lines: seq<Line>): Line {
    if lines == [] then [] else LinesContent(lines[..|lines| - 1]) + Content(lines[|lines| - 1])
  }

  // The visible characters of a piece of document text.
  function Visible(s: string): Line { Content(Doc(s)) }

  // The visible characters of a comment.
  function Remarks(s: string): Line { Content(Notes(s)) }

  lemma Regroup<T>(a: seq<T>, b: seq<T>, c: seq<T>)
    ensures (a + b) + c == a + (b + c)
  {
  }

  lemma {:induction false} ContentConcat(a: Line, b: Line)
    ensures Content(a + b) == Content(a) + Content(b)
  {
    if b == [] {
      assert a + b == a;
    } else {
      var n := |b| - 1;
      ContentConcat(a, b[..n]);
      assert (a + b)[..|a + b| - 1] == a + b[..n];
    }
  }

  lemma {:induction false} LinesContentConcat(a: seq<Line>, b: seq<Line>)
    ensures LinesContent(a + b) == LinesContent(a) + LinesContent(b)
  {
    if b == [] {
      assert a + b == a;
    } else {
      var n := |b| - 1;
      LinesContentConcat(a, b[..n]);
      Regroup(LinesContent(a), LinesContent(b[..n]), Content(b[n]));
      Regroup(a, b[..n], [b[n]]);
      assert b == b[..n] + [b[n]];
      assert (a + b)[..|a + b| - 1] == a + b[..n];
    }
  }

  lemma {:induction false} CharsHaveNoContent(s: string)
    ensures Content(Chars(s)) == []
  {
    if s != "" {
      CharsHaveNoContent(s[..|s| - 1]);
      assert Chars(s)[..|s| - 1] == Chars(s[..|s| - 1]);
    }
  }

  lemma ContentOfOne(a: Atom)
    ensures Content([a]) == if Shown(a) then [a] else []
  {
    assert [a][..0] == [];
  }

  lemma FirstAtom(l: Line)
    requires l != []
    ensures Content(l) == (if Shown(l[0]) then [l[0]] else []) + Content(l[1..])
  {
    assert l == [l[0]] + l[1..];
    ContentConcat([l[0]], l[1..]);
    ContentOfOne(l[0]);
  }

  // ---------- Whitespace ----------

  // str.rstrip, str.lstrip and str.strip.
  function RStrip(l: Line): Line { if l != [] && IsSpace(l[|l| - 1]) then RStrip(l[..|l| - 1]) else l }

  function LStrip(l: Line): Line { if l != [] && IsSpace(l[0]) then LStrip(l[1..]) else l }

  function Strip(l: Line): Line { LStrip(RStrip(l)) }

  lemma {:induction false} RStripKeepsContent(l: Line)
    ensures Content(RStrip(l)) == Content(l)
  {
    if l != [] && IsSpace(l[|l| - 1]) {
      RStripKeepsContent(l[..|l| - 1]);
    }
  }

  lemma {:induction false} LStripKeepsContent(l: Line)
    ensures Content(LStrip(l)) == Content(l)
  {
    if l != [] && IsSpace(l[0]) {
      FirstAtom(l);
      LStripKeepsContent(l[1..]);
    }
  }

  lemma StripKeepsContent(l: Line)
    ensures Content(Strip(l)) == Content(l)
  {
    RStripKeepsContent(l);
    LStripKeepsContent(RStrip(l));
  }

  // re.sub(r"\s+", " ", s) followed by strip.
  function Collapsed(l: Line): Line { Strip(Squeezed(l)) }

  function Squeezed(l: Line): Line {
    if l == [] then []
    else if !IsSpace(l[0]) then [l[0]] + Squeezed(l[1..])
    else if |l| > 1 && IsSpace(l[1]) then Squeezed(l[1..])
    else [Ch(' ')] + Squeezed(l[1..])
  }

  lemma {:induction false} SqueezedKeepsContent(l: Line)
    ensures Content(Squeezed(l)) == Content(l)
  {
    if l != [] {
      FirstAtom(l);
      SqueezedKeepsContent(l[1..]);
      if Squeezed(l) != Squeezed(l[1..]) || !IsSpace(l[0]) {
        var rest := Squeezed(l[1..]);
        assert Squeezed(l) == Squeezed(l[1..]) || Squeezed(l)[1..] == rest;
        if Squeezed(l) != [] {
          FirstAtom(Squeezed(l));
        }
      }
    }
  }

  lemma CollapsedKeepsContent(l: Line)
    ensures Content(Collapsed(l)) == Content(l)
  {
    SqueezedKeepsContent(l);
    StripKeepsContent(Squeezed(l));
  }

  // re.sub(r" *\n *", "\n", text); `afterBreak` says that only spaces came since the last break.
  function TightBreaks(l: Line, afterBreak: bool): Line {
    if l == [] then []
    else if Is(l[0], ' ') && (afterBreak || BreakAhead(l)) then TightBreaks(l[1..], afterBreak)
    else [l[0]] + TightBreaks(l[1..], Is(l[0], '\n'))
  }

  // Spaces, then a line break.
  predicate BreakAhead(l: Line) { l != [] && (Is(l[0], '\n') || (Is(l[0], ' ') && BreakAhead(l[1..]))) }

  lemma {:induction false} TightBreaksKeepsContent(l: Line, afterBreak: bool)
    ensures Content(TightBreaks(l, afterBreak)) == Content(l)
    decreases |l|
  {
    if l != [] {
      FirstAtom(l);
      if Is(l[0], ' ') && (afterBreak || BreakAhead(l)) {
        TightBreaksKeepsContent(l[1..], afterBreak);
      } else {
        TightBreaksKeepsContent(l[1..], Is(l[0], '\n'));
        FirstAtom(TightBreaks(l, afterBreak));
      }
    }
  }

  // re.sub(r"\n{3,}", "\n\n", text).
  function FewBreaks(l: Line): Line {
    if l == [] then []
    else if |l| >= 3 && Is(l[0], '\n') && Is(l[1], '\n') && Is(l[2], '\n') then FewBreaks(l[1..])
    else [l[0]] + FewBreaks(l[1..])
  }

  lemma {:induction false} FewBreaksKeepsContent(l: Line)
    ensures Content(FewBreaks(l)) == Content(l)
  {
    if l != [] {
      FirstAtom(l);
      FewBreaksKeepsContent(l[1..]);
      if !(|l| >= 3 && Is(l[0], '\n') && Is(l[1], '\n') && Is(l[2], '\n')) {
        FirstAtom(FewBreaks(l));
      }
    }
  }

  // ---------- Joining and splitting ----------

  function Join(parts: seq<Line>, sep: char): Line {
    if parts == [] then []
    else if |parts| == 1 then parts[0]
    else Join(parts[..|parts| - 1], sep) + [Ch(sep)] + parts[|parts| - 1]
  }

  lemma SeparatorIsNoContent(before: Line, sep: Atom, last: Line)
    requires !Shown(sep)
    ensures Content(before + [sep] + last) == Content(before) + Content(last)
  {
    ContentConcat(before + [sep], last);
    ContentConcat(before, [sep]);
    ContentOfOne(sep);
    assert Content(before) + [] == Content(before);
  }

  lemma {:induction false} JoinKeepsContent(parts: seq<Line>, sep: char)
    ensures Content(Join(parts, sep)) == LinesContent(parts)
  {
    if |parts| == 1 {
      assert parts[..0] == [];
    } else if parts != [] {
      var before, last := Join(parts[..|parts| - 1], sep), parts[|parts| - 1];
      JoinKeepsContent(parts[..|parts| - 1], sep);
      SeparatorIsNoContent(before, Ch(sep), last);
    }
  }

  function BreakAt(l: Line): (i: nat)
    ensures i <= |l| && (i < |l| ==> Is(l[i], '\n'))
  {
    if l == [] || Is(l[0], '\n') then 0 else 1 + BreakAt(l[1..])
  }

  // str.split("\n").
  function SplitAll(l: Line): seq<Line>
    decreases |l|
  {
    var i := BreakAt(l);
    [l[..i]] + if i < |l| then SplitAll(l[i + 1..]) else []
  }

  // str.splitlines, on text whose only line separator is the line feed: a break at the end starts no line.
  function SplitLines(l: Line): seq<Line> {
    if l == [] then [] else SplitAll(if Is(l[|l| - 1], '\n') then l[..|l| - 1] else l)
  }

  lemma CutOut<T>(s: seq<T>, i: nat)
    requires i < |s|
    ensures s == s[..i] + [s[i]] + s[i + 1..]
  {
  }

  lemma ContentAround(l: Line, i: nat)
    requires i < |l| && !Shown(l[i])
    ensures Content(l) == Content(l[..i]) + Content(l[i + 1..])
  {
    CutOut(l, i);
    SeparatorIsNoContent(l[..i], l[i], l[i + 1..]);
  }

  lemma LinesContentOfOne(l: Line)
    ensures LinesContent([l]) == Content(l)
  {
    assert [l][..0] == [];
  }

  lemma SplitLinesKeepsContent(l: Line)
    ensures LinesContent(SplitLines(l)) == Content(l)
  {
    if l != [] {
      SplitAllKeepsContent(if Is(l[|l| - 1], '\n') then l[..|l| - 1] else l);
      assert Is(l[|l| - 1], '\n') ==> Content(l) == Content(l[..|l| - 1]);
    }
  }

  lemma {:induction false} SplitAllKeepsContent(l: Line)
    ensures LinesContent(SplitAll(l)) == Content(l)
    decreases |l|
  {
    var i := BreakAt(l);
    LinesContentOfOne(l[..i]);
    if i < |l| {
      ContentAround(l, i);
      SplitAllKeepsContent(l[i + 1..]);
      LinesContentConcat([l[..i]], SplitAll(l[i + 1..]));
    } else {
      assert l[..i] == l && [l] + [] == [l];
    }
  }

  // ---------- Markers ----------

  function MarksIn(l: Line): seq<int> {
    if l == [] then [] else MarksIn(l[..|l| - 1]) + if l[|l| - 1].Mark? then [l[|l| - 1].seqNo] else []
  }

  lemma {:induction false} MarksInConcat(a: Line, b: Line)
    ensures MarksIn(a + b) == MarksIn(a) + MarksIn(b)
  {
    if b == [] {
      assert a + b == a;
    } else {
      var n := |b| - 1;
      MarksInConcat(a, b[..n]);
      assert (a + b)[..|a + b| - 1] == a + b[..n];
    }
  }

  lemma {:induction false} ContentKeepsMarks(l: Line)
    ensures MarksIn(Content(l)) == MarksIn(l)
  {
    if l != [] {
      var rest, last := l[..|l| - 1], l[|l| - 1];
      ContentKeepsMarks(rest);
      if Shown(last) {
        assert Content(l)[..|Content(l)| - 1] == Content(rest);
      } else {
        assert Content(l) == Content(rest) && MarksIn(l) == MarksIn(rest);
      }
    }
  }

  lemma {:induction false} DocHasNoMarks(s: string)
    ensures MarksIn(Doc(s)) == []
  {
    if s != "" {
      DocHasNoMarks(s[..|s| - 1]);
      assert Doc(s)[..|s| - 1] == Doc(s[..|s| - 1]);
    }
  }

  lemma VisibleHasNoMarks(s: string)
    ensures MarksIn(Visible(s)) == []
  {
    ContentKeepsMarks(Doc(s));
    DocHasNoMarks(s);
  }

  lemma {:induction false} RemarksHaveNoMarks(s: string)
    ensures MarksIn(Remarks(s)) == []
  {
    if s != "" {
      RemarksGrow(s);
      RemarksHaveNoMarks(s[..|s| - 1]);
      var last := s[|s| - 1];
      MarksInConcat(Remarks(s[..|s| - 1]), if IsBlank(last) then [] else [Note(last)]);
      assert [Note(last)][..0] == [];
    }
  }

  // ---------- Comments ----------

  predicate NoNotes(l: Line) { forall a <- l :: !a.Note? }

  // Without what comes from comments.
  function Unnoted(l: Line): Line {
    if l == [] then [] else Unnoted(l[..|l| - 1]) + if l[|l| - 1].Note? then [] else [l[|l| - 1]]
  }

  predicate Blank(s: string) { forall c <- s :: IsBlank(c) }

  lemma RemarksGrow(s: string)
    requires s != ""
    ensures Remarks(s) == Remarks(s[..|s| - 1]) + if IsBlank(s[|s| - 1]) then [] else [Note(s[|s| - 1])]
  {
    assert Notes(s)[..|s| - 1] == Notes(s[..|s| - 1]);
  }

  // Only a blank comment is invisible; of a visible one nothing but comment characters is seen.
  lemma {:induction false} RemarksOfAComment(s: string)
    ensures Remarks(s) == [] <==> Blank(s)
    ensures Unnoted(Remarks(s)) == []
    ensures NoNotes(Remarks(s)) <==> Remarks(s) == []
  {
    if s != "" {
      var rest, last := s[..|s| - 1], s[|s| - 1];
      RemarksGrow(s);
      RemarksOfAComment(rest);
      assert s == rest + [last];
      UnnotedConcat(Remarks(rest), if IsBlank(last) then [] else [Note(last)]);
      assert [Note(last)][..0] == [];
      assert !IsBlank(last) ==> Note(last) in Remarks(s);
    }
  }

  lemma {:induction false} UnnotedConcat(a: Line, b: Line)
    ensures Unnoted(a + b) == Unnoted(a) + Unnoted(b)
  {
    if b == [] {
      assert a + b == a;
    } else {
      var n := |b| - 1;
      UnnotedConcat(a, b[..n]);
      assert (a + b)[..|a + b| - 1] == a + b[..n];
    }
  }

  lemma {:induction false} UnnotedIff(l: Line)
    ensures |Unnoted(l)| <= |l|
    ensures Unnoted(l) == l <==> NoNotes(l)
  {
    if l != [] {
      var rest, last := l[..|l| - 1], l[|l| - 1];
      UnnotedIff(rest);
      assert l == rest + [last];
      assert last in l;
      if !last.Note? && Unnoted(l) == l {
        assert (Unnoted(rest) + [last])[..|rest|] == rest;
      }
    }
  }

  lemma {:induction false} VisibleHasNoNotes(s: string)
    ensures NoNotes(Visible(s)) && Unnoted(Visible(s)) == Visible(s)
  {
    if s != "" {
      VisibleHasNoNotes(s[..|s| - 1]);
      assert Doc(s)[..|s| - 1] == Doc(s[..|s| - 1]);
    }
    UnnotedIff(Visible(s));
  }
}
