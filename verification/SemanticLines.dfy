/**
  The lines the HTML renderer writes: how a line is appended, how a code block and a table row are
  laid out, and that all of it keeps the visible content.
*/
module SemanticLines {
  import opened SemanticContent
  import opened SemanticText
  import opened SemanticTree

  // ---------- Lines ----------

  // _append: a blank line is not repeated, and no line keeps trailing blanks.
  function Appended(out: seq<Line>, line: Line): seq<Line> {
    if line != [] || out == [] || out[|out| - 1] != [] then out + [RStrip(line)] else out
  }

  function AppendedAll(out: seq<Line>, prefix: string, lines: seq<Line>): seq<Line> {
    if lines == [] then out
    else Appended(AppendedAll(out, prefix, lines[..|lines| - 1]), Chars(prefix) + lines[|lines| - 1])
  }

  lemma AppendedKeepsContent(out: seq<Line>, line: Line)
    ensures out <= Appended(out, line)
    ensures LinesContent(Appended(out, line)) == LinesContent(out) + Content(line)
  {
    if line != [] || out == [] || out[|out| - 1] != [] {
      var longer := out + [RStrip(line)];
      assert longer[..|out|] == out;
      RStripKeepsContent(line);
    } else {
      assert LinesContent(out) + [] == LinesContent(out);
    }
  }

  lemma PrefixHasNoContent(prefix: string, line: Line)
    ensures Content(Chars(prefix) + line) == Content(line)
  {
    ContentConcat(Chars(prefix), line);
    CharsHaveNoContent(prefix);
    assert [] + Content(line) == Content(line);
  }

  lemma {:induction false} AppendedAllKeepsContent(out: seq<Line>, prefix: string, lines: seq<Line>)
    ensures out <= AppendedAll(out, prefix, lines)
    ensures LinesContent(AppendedAll(out, prefix, lines)) == LinesContent(out) + LinesContent(lines)
  {
    if lines == [] {
      assert LinesContent(out) + [] == LinesContent(out);
    } else {
      var rest, last := lines[..|lines| - 1], lines[|lines| - 1];
      AppendedAllKeepsContent(out, prefix, rest);
      AppendedKeepsContent(AppendedAll(out, prefix, rest), Chars(prefix) + last);
      PrefixHasNoContent(prefix, last);
      Regroup(LinesContent(out), LinesContent(rest), Content(last));
    }
  }

  lemma LineReplaced(out: seq<Line>, i: nat, line: Line)
    requires i < |out| && Content(line) == Content(out[i])
    ensures LinesContent(out[i := line]) == LinesContent(out)
  {
    CutOut(out, i);
    CutOut(out[i := line], i);
    var head, tail := out[..i], out[i + 1..];
    assert out[i := line][..i] == head && out[i := line][i + 1..] == tail;
    LinesContentConcat(head + [line], tail);
    LinesContentConcat(head, [line]);
    LinesContentConcat(head + [out[i]], tail);
    LinesContentConcat(head, [out[i]]);
    LinesContentOfOne(line);
    LinesContentOfOne(out[i]);
  }

  // ---------- Code blocks ----------

  function LeadingTicks(s: string): nat { if s != "" && s[0] == '`' then 1 + LeadingTicks(s[1..]) else 0 }

  function LongestTicks(s: string): nat {
    if s == "" then 0 else
    var rest := LongestTicks(s[1..]);
    if LeadingTicks(s) > rest then LeadingTicks(s) else rest
  }

  function Repeated(c: char, n: nat): string { seq(n, i => c) }

  function Fence(payload: string): string {
    var longest := LongestTicks(payload);
    Repeated('`', if longest + 1 > 3 then longest + 1 else 3)
  }

  // Nothing in the payload can close the block: no stretch of it is as long as the fence.
  lemma {:induction false} FenceIsLongerThanAnyRun(payload: string, i: nat, n: nat)
    requires i + n <= |payload| && payload[i..i + n] == Repeated('`', n)
    ensures n < |Fence(payload)| && |Fence(payload)| >= 3
  {
    RunIsCounted(payload, i, n);
  }

  // And it is no longer than that takes: three ticks, or one more than some stretch of the payload.
  lemma FenceIsNotLonger(payload: string) returns (i: nat)
    ensures var n := |Fence(payload)| - 1;
            |Fence(payload)| == 3 || (i + n <= |payload| && payload[i..i + n] == Repeated('`', n))
    ensures forall c <- Fence(payload) :: c == '`'
  {
    i := LongestRun(payload);
  }

  lemma {:induction false} LongestRun(s: string) returns (i: nat)
    ensures i + LongestTicks(s) <= |s| && s[i..i + LongestTicks(s)] == Repeated('`', LongestTicks(s))
  {
    i := 0;
    if s != "" {
      if LongestTicks(s) == LeadingTicks(s) {
        LeadingRun(s);
      } else {
        var k := LongestRun(s[1..]);
        i := k + 1;
        SliceBehind(s, k, LongestTicks(s));
      }
    }
  }

  lemma SliceBehind(s: string, k: nat, n: nat)
    requires k + 1 + n <= |s|
    ensures s[k + 1..k + 1 + n] == s[1..][k..k + n]
  {
  }

  lemma {:induction false} LeadingRun(s: string)
    ensures LeadingTicks(s) <= |s| && s[..LeadingTicks(s)] == Repeated('`', LeadingTicks(s))
  {
    if s != "" && s[0] == '`' {
      LeadingRun(s[1..]);
      var n := LeadingTicks(s);
      assert s[..n] == [s[0]] + s[1..][..n - 1];
    }
  }

  lemma {:induction false} RunIsCounted(s: string, i: nat, n: nat)
    requires i + n <= |s| && s[i..i + n] == Repeated('`', n)
    ensures n <= LongestTicks(s)
    ensures i == 0 ==> n <= LeadingTicks(s)
    decreases |s|
  {
    if n > 0 {
      if i > 0 {
        assert s[1..][i - 1..i - 1 + n] == s[i..i + n];
        RunIsCounted(s[1..], i - 1, n);
      } else {
        assert s[0..n][0] == '`';
        assert s[1..][0..n - 1] == Repeated('`', n - 1) by {
          forall k | 0 <= k < n - 1 ensures s[1..][k] == '`' {
            assert s[0..n][k + 1] == '`';
          }
        }
        RunIsCounted(s[1..], 0, n - 1);
      }
    }
  }

  // What a fenced block adds to the lines.
  function CodeLines(out: seq<Line>, payload: string, language: string, prefix: string): seq<Line> {
    var fence := prefix + Fence(payload);
    var header := Appended(Appended(out, []), Chars(fence + language));
    Appended(Appended(AppendedAll(header, prefix, SplitAll(Doc(payload))), Chars(fence)), [])
  }

  // No line ends in a blank and no empty line follows another.
  predicate Tidy(lines: seq<Line>) {
    && (forall i | 0 <= i < |lines| :: RStrip(lines[i]) == lines[i])
    && (forall i | 0 < i < |lines| :: lines[i] != [] || lines[i - 1] != [])
  }

  // The integrity report compares the payload, not the lines written for it: at the left margin the
  // block shows its payload line for line exactly when the payload is tidy.
  lemma {:induction false} CodeIsVerbatimIff(out: seq<Line>, lines: seq<Line>)
    requires out != [] && out[|out| - 1] != []
    ensures AppendedAll(out, "", lines) == out + lines <==> Tidy(lines)
    ensures out <= AppendedAll(out, "", lines) && |AppendedAll(out, "", lines)| <= |out| + |lines|
  {
    if lines == [] {
      assert out + [] == out;
    } else {
      var rest, last := lines[..|lines| - 1], lines[|lines| - 1];
      var before := AppendedAll(out, "", rest);
      CodeIsVerbatimIff(out, rest);
      assert Chars("") + last == last && lines == rest + [last];
      Regroup(out, rest, [last]);
      TidyGrows(rest, last);
      AppendedIsVerbatimIff(before, last);
      if before != out + rest {
        LongerDiffers(before, out + rest, Appended(before, last), last);
      }
    }
  }

  lemma AppendedIsVerbatimIff(out: seq<Line>, line: Line)
    requires out != []
    ensures Appended(out, line) == out + [line] <==> RStrip(line) == line && (line != [] || out[|out| - 1] != [])
    ensures Appended(out, line) == out || exists x :: Appended(out, line) == out + [x]
  {
    if line != [] || out[|out| - 1] != [] {
      assert (out + [RStrip(line)])[|out|] == RStrip(line) && (out + [line])[|out|] == line;
    } else {
      assert |out + [line]| == |out| + 1;
    }
  }

  // Lines that already differ, or are already fewer, do not become equal by one more append.
  lemma LongerDiffers(a: seq<Line>, b: seq<Line>, longer: seq<Line>, last: Line)
    requires a != b && |a| <= |b| && (longer == a || exists x :: longer == a + [x])
    ensures longer != b + [last]
  {
    if longer != a && |a| == |b| {
      var x :| longer == a + [x];
      assert longer[..|a|] == a && (b + [last])[..|b|] == b;
    }
  }

  lemma TidyGrows(rest: seq<Line>, last: Line)
    ensures Tidy(rest + [last]) <==>
              Tidy(rest) && RStrip(last) == last && (last != [] || rest == [] || rest[|rest| - 1] != [])
  {
    var lines := rest + [last];
    assert lines[|rest|] == last;
    assert forall i | 0 <= i < |rest| :: lines[i] == rest[i];
  }

  // A document whose report is clean and whose code block loses a line.
  lemma CleanReportMayLoseALine()
    ensures exists nodes: seq<Node>, payload: string ::
              Source(nodes) == [Code(payload)] && WellNested(nodes) && !Tidy(SplitAll(Doc(payload)))
  {
    hide Source, WellNested, Tidy, SplitAll, UnixBreaks;
    OneCodeBlock("\n\n");
    BlankLinesAreNotTidy();
    var nodes := [Elem(Pre("text"), [Text("\n\n")])];
    assert Source(nodes) == [Code("\n\n")] && WellNested(nodes);
  }

  lemma OneCodeBlock(t: string)
    ensures Source([Elem(Pre("text"), [Text(t)])]) == [Code(UnixBreaks(t))] && WellNested([Elem(Pre("text"), [Text(t)])])
  {
    var text := [Text(t)];
    var block := Elem(Pre("text"), text);
    assert text[..0] == [] && [block][..0] == [];
    assert TextOf(text) == TextOf(text[..0]) + t == t;
    assert Source(text) == Source(text[..0]) + SourceOf(text[0]) == [];
    assert SourceOf(block) == [Code(UnixBreaks(t))];
    assert Source([block]) == [] + SourceOf(block);
    assert WellNestedOne(block);
  }

  lemma BlankLinesAreNotTidy()
    ensures !Tidy(SplitAll(Doc("\n\n"))) && UnixBreaks("\n\n") == "\n\n"
  {
    var l := [Txt('\n'), Txt('\n')];
    assert Doc("\n\n") == l;
    assert l[1..] == [Txt('\n')] && l[1..][1..] == [];
    var lines := SplitAll(l);
    assert lines == [[]] + SplitAll(l[1..]);
    assert SplitAll(l[1..]) == [[]] + SplitAll([]);
    assert lines[0] == [] && lines[1] == [];
  }

  lemma PlainLineHasNoContent(out: seq<Line>, line: string)
    ensures out <= Appended(out, Chars(line)) && LinesContent(Appended(out, Chars(line))) == LinesContent(out)
  {
    AppendedKeepsContent(out, Chars(line));
    CharsHaveNoContent(line);
    assert LinesContent(out) + [] == LinesContent(out);
  }

  lemma CodeLinesShowThePayload(out: seq<Line>, payload: string, language: string, prefix: string)
    ensures out <= CodeLines(out, payload, language, prefix)
    ensures LinesContent(CodeLines(out, payload, language, prefix)) == LinesContent(out) + Visible(payload)
  {
    var fence := prefix + Fence(payload);
    assert Chars("") == [];
    PlainLineHasNoContent(out, "");
    PlainLineHasNoContent(Appended(out, []), fence + language);
    var header := Appended(Appended(out, []), Chars(fence + language));
    var lines := SplitAll(Doc(payload));
    SplitAllKeepsContent(Doc(payload));
    AppendedAllKeepsContent(header, prefix, lines);
    var body := AppendedAll(header, prefix, lines);
    PlainLineHasNoContent(body, fence);
    PlainLineHasNoContent(Appended(body, Chars(fence)), "");
  }

  // ---------- Tables ----------

  // get_text(" ", strip=True).
  function Strings(nodes: seq<Node>): seq<Line> {
    if nodes == [] then [] else
    var last := nodes[|nodes| - 1];
    Strings(nodes[..|nodes| - 1]) +
    match last
    case Text(t) => (if Strip(Doc(t)) == [] then [] else [Strip(Doc(t))])
    case Comment(_) => []
    case Elem(tag, children) => if tag.Ignored? then [] else Strings(children)
  }

  function CellText(children: seq<Node>): Line { Squeezed(Join(Strings(children), ' ')) }

  lemma {:induction false} StringsShowTheText(nodes: seq<Node>)
    ensures LinesContent(Strings(nodes)) == Visible(TextOf(nodes))
    decreases nodes
  {
    if nodes != [] {
      var rest, last := nodes[..|nodes| - 1], nodes[|nodes| - 1];
      StringsShowTheText(rest);
      match last
      case Text(t) =>
        var stripped := Strip(Doc(t));
        VisibleConcat(TextOf(rest), t);
        StripKeepsContent(Doc(t));
        LinesContentOfOne(stripped);
        LinesContentConcat(Strings(rest), [stripped]);
        assert stripped == [] ==> Strings(rest) + [] == Strings(rest) && Visible(t) == [];
      case Comment(_) =>
        assert Strings(rest) + [] == Strings(rest) && TextOf(rest) + "" == TextOf(rest);
      case Elem(tag, children) =>
        StringsShowTheText(children);
        VisibleConcat(TextOf(rest), if tag.Ignored? then "" else TextOf(children));
        LinesContentConcat(Strings(rest), if tag.Ignored? then [] else Strings(children));
    }
  }

  lemma CellShowsItsText(children: seq<Node>)
    ensures Content(CellText(children)) == Visible(TextOf(children))
  {
    StringsShowTheText(children);
    JoinKeepsContent(Strings(children), ' ');
    SqueezedKeepsContent(Join(Strings(children), ' '));
  }

  function CellTexts(cells: seq<seq<Node>>): seq<Line> {
    if cells == [] then [] else
    var text := CellText(cells[|cells| - 1]);
    CellTexts(cells[..|cells| - 1]) + if text == [] then [] else [text]
  }

  // "- first" or "- first: the others", nothing for a row without text.
  function RowLine(cells: seq<Line>): Line
    requires cells != []
  {
    if |cells| == 1 then Chars("- ") + cells[0] else Chars("- ") + cells[0] + Chars(": ") + Join(cells[1..], ' ')
  }

  lemma {:induction false} CellTextsShowTheCells(cells: seq<seq<Node>>)
    ensures LinesContent(CellTexts(cells)) == CellsContent(cells)
  {
    if cells != [] {
      var rest, text := cells[..|cells| - 1], CellText(cells[|cells| - 1]);
      CellTextsShowTheCells(rest);
      CellShowsItsText(cells[|cells| - 1]);
      LinesContentOfOne(text);
      LinesContentConcat(CellTexts(rest), [text]);
      assert text == [] ==> CellTexts(rest) + [] == CellTexts(rest) && CellsContent(rest) + [] == CellsContent(rest);
    }
  }

  lemma RowLineShowsTheCells(cells: seq<Line>)
    requires cells != []
    ensures Content(RowLine(cells)) == LinesContent(cells)
  {
    var first, others := cells[0], cells[1..];
    assert cells == [first] + others;
    LinesContentConcat([first], others);
    LinesContentOfOne(first);
    PrefixHasNoContent("- ", first);
    if |cells| == 1 {
      assert LinesContent(others) == [] && Content(first) + [] == Content(first);
    } else {
      JoinKeepsContent(others, ' ');
      CharsHaveNoContent(": ");
      ContentConcat(Chars("- ") + first, Chars(": "));
      ContentConcat(Chars("- ") + first + Chars(": "), Join(others, ' '));
      assert Content(first) + [] == Content(first);
    }
  }

  // ---------- Markers of list items ----------

  function Digits(n: nat): string {
    if n < 10 then [n as char + '0'] else Digits(n / 10) + Digits(n % 10)
  }

  function Decimal(n: int): string { if n < 0 then "-" + Digits(-n) else Digits(n) }
}
