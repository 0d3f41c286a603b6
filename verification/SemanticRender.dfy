/**
  The converter's renderers: mutually recursive routines that append to one list of lines and one
  report of structure events.
*/
module SemanticRender {
  import opened Options
  import opened SemanticContent
  import opened SemanticLines
  import opened SemanticSpaces
  import opened SemanticText
  import opened SemanticTree

  // ---------- What a routine leaves behind ----------

  // From (out0, events0) to (out, events): the events are `emitted`; earlier lines stay; and the
  // lines written, with `pending` still to come, show exactly `content`, in order.
  ghost predicate Kept(out0: seq<Line>, events0: seq<Event>, out: seq<Line>, events: seq<Event>,
                       emitted: seq<Event>, content: Line, pending: Line)
  {
    && events == events0 + emitted
    && out0 <= out
    && LinesContent(out) + pending == LinesContent(out0) + content
  }

  lemma NothingDone(out: seq<Line>, events: seq<Event>)
    ensures Kept(out, events, out, events, [], [], [])
  {
    assert events + [] == events;
  }

  lemma Chained(out0: seq<Line>, events0: seq<Event>, out1: seq<Line>, events1: seq<Event>, a: seq<Event>, x: Line,
                out2: seq<Line>, events2: seq<Event>, b: seq<Event>, y: Line)
    requires Kept(out0, events0, out1, events1, a, x, []) && Kept(out1, events1, out2, events2, b, y, [])
    ensures Kept(out0, events0, out2, events2, a + b, x + y, [])
  {
    Regroup(events0, a, b);
    Regroup(LinesContent(out0), x, y);
    assert LinesContent(out1) + [] == LinesContent(out1) && LinesContent(out2) + [] == LinesContent(out2);
  }

  // The parts of an inline run are written.
  lemma Flushed(out0: seq<Line>, events0: seq<Event>, out1: seq<Line>, events1: seq<Event>, a: seq<Event>, x: Line, pending: Line,
                out2: seq<Line>)
    requires Kept(out0, events0, out1, events1, a, x, pending) && out1 <= out2 && LinesContent(out2) == LinesContent(out1) + pending
    ensures Kept(out0, events0, out2, events1, a, x, [])
  {
    assert LinesContent(out2) + [] == LinesContent(out2);
  }

  // One more part waits to be written.
  lemma Waiting(out0: seq<Line>, events0: seq<Event>, out: seq<Line>, events1: seq<Event>, a: seq<Event>, x: Line, parts: seq<Line>,
                events2: seq<Event>, b: seq<Event>, text: Line)
    requires Kept(out0, events0, out, events1, a, x, LinesContent(parts)) && events2 == events1 + b
    ensures Kept(out0, events0, out, events2, a + b, x + Content(text), LinesContent(if text != [] then parts + [text] else parts))
  {
    Regroup(events0, a, b);
    LinesContentConcat(parts, [text]);
    LinesContentOfOne(text);
    Regroup(LinesContent(out), LinesContent(parts), Content(text));
    Regroup(LinesContent(out0), x, Content(text));
    assert text == [] ==> LinesContent(parts) + [] == LinesContent(parts);
  }

  // Lines that show `content` were appended, and events `es` recorded.
  lemma Shows(out0: seq<Line>, events0: seq<Event>, out: seq<Line>, events: seq<Event>, es: seq<Event>, content: Line)
    requires out0 <= out && LinesContent(out) == LinesContent(out0) + content && events == events0 + es
    ensures Kept(out0, events0, out, events, es, content, [])
  {
    assert LinesContent(out) + [] == LinesContent(out);
  }

  // A line is replaced by one that shows the same.
  lemma Replaced(out0: seq<Line>, events0: seq<Event>, out: seq<Line>, events: seq<Event>, a: seq<Event>, x: Line, i: nat, line: Line)
    requires Kept(out0, events0, out, events, a, x, []) && |out0| <= i < |out| && Content(line) == Content(out[i])
    ensures Kept(out0, events0, out[i := line], events, a, x, [])
  {
    LineReplaced(out, i, line);
  }

  // ---------- The renderers ----------

  class Renderer {
    var out: seq<Line>
    var preHashes: seq<string>
    var imageSeqs: seq<int>
    var orderedItems: seq<nat>
    var events: seq<Event>

    constructor ()
      ensures out == [] && events == [] && Consistent()
    {
      out, preHashes, imageSeqs, orderedItems, events := [], [], [], [], [];
    }

    // The three lists of the report are those of the events.
    ghost predicate Consistent()
      reads this
    {
      preHashes == Codes(events) && imageSeqs == Numbers(events) && orderedItems == ItemCounts(events)
    }

    method Append(line: Line)
      modifies this`out
      ensures out == Appended(old(out), line)
      ensures old(out) <= out && LinesContent(out) == LinesContent(old(out)) + Content(line)
    {
      AppendedKeepsContent(out, line);
      if line != [] || out == [] || out[|out| - 1] != [] {
        out := out + [RStrip(line)];
      }
    }

    // `for line in lines: _append(prefix + line)`.
    method AppendAll(prefix: string, lines: seq<Line>)
      modifies this`out
      ensures out == AppendedAll(old(out), prefix, lines)
      ensures old(out) <= out && LinesContent(out) == LinesContent(old(out)) + LinesContent(lines)
    {
      AppendedAllKeepsContent(out, prefix, lines);
      for i := 0 to |lines|
        invariant out == AppendedAll(old(out), prefix, lines[..i])
      {
        assert lines[..i + 1][..i] == lines[..i];
        Append(Chars(prefix) + lines[i]);
      }
      assert lines[..|lines|] == lines;
    }

    method RecordImage(seqNo: int)
      requires Consistent()
      modifies this`imageSeqs, this`events
      ensures events == old(events) + [Image(seqNo)] && Consistent()
    {
      imageSeqs := imageSeqs + [seqNo];
      events := events + [Image(seqNo)];
      assert events[..|events| - 1] == old(events);
    }

    method RecordCode(payload: string)
      requires Consistent()
      modifies this`preHashes, this`events
      ensures events == old(events) + [Code(payload)] && Consistent()
    {
      preHashes := preHashes + [payload];
      events := events + [Code(payload)];
      assert events[..|events| - 1] == old(events);
    }

    method RecordList(items: nat)
      requires Consistent()
      modifies this`orderedItems, this`events
      ensures events == old(events) + [Ol(items)] && Consistent()
    {
      orderedItems := orderedItems + [items];
      events := events + [Ol(items)];
      assert events[..|events| - 1] == old(events);
    }

    // _inline_text: the text of a node, with the markers of the images it records.
    method InlineText(nodes: seq<Node>) returns (text: Line)
      requires Consistent()
      modifies this
      ensures events == old(events) + Inlined(nodes) && Content(text) == InlinedContent(nodes)
      ensures Starts(text, true) == InlinedStarts(nodes) && Tight(text)
      ensures out == old(out) && Consistent()
      decreases nodes
    {
      var parts: seq<Line> := [];
      assert events + [] == events;
      for i := 0 to |nodes|
        invariant events == old(events) + Inlined(nodes[..i]) && LinesContent(parts) == InlinedContent(nodes[..i])
        invariant StartsOf(parts) == InlinedStarts(nodes[..i])
        invariant out == old(out) && Consistent()
      {
        ghost var events1, before := events, parts;
        var part := InlinePart(nodes[i]);
        if part != [] {
          parts := parts + [part];
        }
        InlinedStep(old(events), nodes, i, events1, events, before, part);
        InlinedStartsStep(nodes, i, before, part);
      }
      assert nodes[..|nodes|] == nodes;
      text := Strip(TightBreaks(Join(parts, ' '), false));
      TextKeepsContent(parts);
      RunKeepsWords(parts);
      RunIsTight(parts);
    }

    // One child of _inline_text; the empty part is not added.
    method InlinePart(child: Node) returns (part: Line)
      requires Consistent()
      modifies this
      ensures events == old(events) + InlinedOf(child) && Content(part) == InlinedContentOf(child)
      ensures Starts(part, true) == InlinedStartsOf(child)
      ensures out == old(out) && Consistent()
      decreases child
    {
      part := [];
      if !child.Elem? {
        part := Collapsed(Characters(child));
        CollapsedKeepsContent(Characters(child));
        CollapsedKeepsWords(Characters(child));
      } else if child.tag.Br? {
        part := [Ch('\n')];
        ContentOfOne(Ch('\n'));
      } else if child.tag.Img? {
        if child.tag.seqNo.Some? {
          part := [Mark(child.tag.seqNo.value)];
          RecordImage(child.tag.seqNo.value);
          ContentOfOne(part[0]);
          assert part[1..] == [];
        }
      } else if child.tag.Inline? || child.tag.Item? || child.tag.Row? || child.tag.Cell? {
        part := InlineText(child.children);
      }
      assert InlinedOf(child) == [] ==> old(events) + [] == old(events);
    }

    // _flush_inline of a container.
    method FlushInline(parts: seq<Line>, prefix: string)
      modifies this`out
      ensures old(out) <= out && LinesContent(out) == LinesContent(old(out)) + LinesContent(parts)
    {
      var text := Strip(Join(parts, ' '));
      RunKeepsContent(parts);
      AppendAll(prefix, SplitLines(text));
    }

    method RenderImage(seqNo: Option<int>, prefix: string)
      requires Consistent()
      modifies this
      ensures Kept(old(out), old(events), out, events, OfImage(seqNo), MarkOf(seqNo), []) && Consistent()
    {
      hide Content, LinesContent, Appended, Numbers;
      if seqNo == None {
        NothingDone(out, events);
        return;
      }
      RecordImage(seqNo.value);
      Append([]);
      ghost var out1 := out;
      Append(Chars(prefix) + [Mark(seqNo.value)]);
      ghost var out2 := out;
      Append([]);
      MarkerIsWritten(old(out), old(events), out1, out2, out, prefix, seqNo.value);
    }

    method RenderCode(children: seq<Node>, language: string, prefix: string)
      requires Consistent()
      modifies this
      ensures Kept(old(out), old(events), out, events, [Code(Payload(children))] + Images(Source(children)),
                   Visible(TextOf(children)) + MarksOf(Images(Source(children))), []) && Consistent()
    {
      hide Content, LinesContent, Numbers, Codes, ItemCounts, Kept, Source, Images, MarksOf, TextOf, CodeLines;
      var payload := Payload(children);
      RecordCode(payload);
      WriteBlock(payload, language, prefix);
      UnixBreaksKeepsVisible(TextOf(children));
      Shows(old(out), old(events), out, events, [Code(payload)], Visible(payload));
      ghost var out1, events1 := out, events;
      var images := Images(Source(children));
      ImagesAreImages(Source(children));
      RenderImages(images, prefix);
      Chained(old(out), old(events), out1, events1, [Code(payload)], Visible(payload), out, events, images, MarksOf(images));
    }

    // The fenced block of _render_code.
    method WriteBlock(payload: string, language: string, prefix: string)
      modifies this`out
      ensures out == CodeLines(old(out), payload, language, prefix)
      ensures old(out) <= out && LinesContent(out) == LinesContent(old(out)) + Visible(payload)
    {
      var fence := Fence(payload);
      CodeLinesShowThePayload(out, payload, language, prefix);
      Append([]);
      Append(Chars(prefix + fence + language));
      AppendAll(prefix, SplitAll(Doc(payload)));
      Append(Chars(prefix + fence));
      Append([]);
    }

    // The images inside a pre, after the block.
    method RenderImages(images: seq<Event>, prefix: string)
      requires Consistent() && OnlyImages(images)
      modifies this
      ensures Kept(old(out), old(events), out, events, images, MarksOf(images), []) && Consistent()
    {
      hide Content, LinesContent, Numbers, Codes, ItemCounts, Kept;
      NothingDone(out, events);
      for i := 0 to |images|
        invariant Kept(old(out), old(events), out, events, images[..i], MarksOf(images[..i]), []) && Consistent()
      {
        assert images[i] in images;
        assert images[..i + 1] == images[..i] + [images[i]] && images[..i + 1][..i] == images[..i];
        ghost var out1, events1 := out, events;
        RenderImage(Some(images[i].seqNo), prefix);
        Chained(old(out), old(events), out1, events1, images[..i], MarksOf(images[..i]), out, events, [images[i]], [Mark(images[i].seqNo)]);
      }
      assert images[..|images|] == images;
    }

    method RenderTable(children: seq<Node>, prefix: string)
      requires Consistent()
      modifies this`out
      ensures Kept(old(out), events, out, events, [], RowsContent(Below(children, true)), []) && Consistent()
    {
      Append([]);
      assert LinesContent(old(out)) + [] == LinesContent(old(out));
      var rows := Below(children, true);
      for i := 0 to |rows|
        invariant old(out) <= out && LinesContent(out) == LinesContent(old(out)) + RowsContent(rows[..i])
      {
        assert rows[..i + 1][..i] == rows[..i];
        var cells := CellTexts(Below(rows[i], false));
        CellTextsShowTheCells(Below(rows[i], false));
        Regroup(LinesContent(old(out)), RowsContent(rows[..i]), LinesContent(cells));
        if cells != [] {
          RowLineShowsTheCells(cells);
          PrefixHasNoContent(prefix, RowLine(cells));
          Append(Chars(prefix) + RowLine(cells));
        } else {
          assert LinesContent(out) + [] == LinesContent(out);
        }
      }
      assert rows[..|rows|] == rows;
      Append([]);
      assert LinesContent(out) + [] == LinesContent(out) && events + [] == events;
      Shows(old(out), events, out, events, [], RowsContent(rows));
    }

    // A child that joins the current inline run: a string, or the text of an inline tag.
    method RunPart(child: Node) returns (part: Line)
      requires Consistent() && JoinsRun(child)
      modifies this
      ensures events == old(events) + FlowOf(child) && Content(part) == FlowContentOf(child)
      ensures out == old(out) && Consistent()
      decreases child
    {
      part := [];
      assert events + [] == events;
      if !child.Elem? {
        part := Collapsed(Characters(child));
        CollapsedKeepsContent(Characters(child));
      } else if !child.tag.Ignored? {
        part := InlineText(child.children);
      }
    }

    method RenderContainer(nodes: seq<Node>, prefix: string)
      requires Consistent()
      modifies this
      ensures Kept(old(out), old(events), out, events, Flow(nodes), FlowContent(nodes), []) && Consistent()
      decreases nodes, 0
    {
      hide Content, LinesContent, Numbers, Codes, ItemCounts, Kept;
      var parts: seq<Line> := [];
      NothingDone(out, events);
      NoPartsWait();
      for i := 0 to |nodes|
        invariant Kept(old(out), old(events), out, events, Flow(nodes[..i]), FlowContent(nodes[..i]), LinesContent(parts)) && Consistent()
      {
        ghost var out1, events1 := out, events;
        if JoinsRun(nodes[i]) {
          var part := RunPart(nodes[i]);
          Waiting(old(out), old(events), out, events1, Flow(nodes[..i]), FlowContent(nodes[..i]), parts, events, FlowOf(nodes[i]), part);
          if part != [] {
            parts := parts + [part];
          }
        } else {
          FlushInline(parts, prefix);
          Flushed(old(out), old(events), out1, events, Flow(nodes[..i]), FlowContent(nodes[..i]), LinesContent(parts), out);
          parts := [];
          out1 := out;
          RenderChild(nodes[i], prefix);
          Chained(old(out), old(events), out1, events1, Flow(nodes[..i]), FlowContent(nodes[..i]),
                  out, events, FlowOf(nodes[i]), FlowContentOf(nodes[i]));
        }
        FlowGrows(nodes, i);
      }
      assert nodes[..|nodes|] == nodes;
      ghost var out1 := out;
      FlushInline(parts, prefix);
      Flushed(old(out), old(events), out1, events, Flow(nodes), FlowContent(nodes), LinesContent(parts), out);
    }

    // A child of a container that ends the current inline run.
    method RenderChild(child: Node, prefix: string)
      requires Consistent() && !JoinsRun(child)
      modifies this
      ensures Kept(old(out), old(events), out, events, FlowOf(child), FlowContentOf(child), []) && Consistent()
      decreases child
    {
      hide Content, LinesContent, Numbers, Codes, ItemCounts, Kept;
      match child.tag
      case Img(seqNo) => RenderImage(seqNo, prefix);
      case List(ordered, start) => ghost var markers := RenderList(child.children, ordered, start, prefix);
      case Pre(language) => RenderCode(child.children, language, prefix);
      case Table => RenderTable(child.children, prefix);
      case Block =>
        if Structured(child.children) {
          RenderContainer(child.children, prefix);
        } else {
          var text := InlineText(child.children);
          SplitLinesKeepsContent(text);
          AppendAll(prefix, SplitLines(text));
          Shows(old(out), old(events), out, events, Inlined(child.children), InlinedContent(child.children));
        }
      case _ => NothingDone(out, events);
    }

    // Lines of a list item: the first content of the item gets the marker.
    method AppendItemLines(lines: seq<Line>, first: bool, firstPrefix: string, continuation: string) returns (still: bool)
      modifies this`out
      ensures old(out) <= out && LinesContent(out) == LinesContent(old(out)) + LinesContent(lines)
      ensures still == (first && lines == [])
      ensures lines == [] ==> out == old(out)
      ensures lines != [] ==>
                out == AppendedAll(Appended(old(out), Chars(if first then firstPrefix else continuation) + lines[0]), continuation, lines[1..])
      ensures lines != [] && first && firstPrefix != "" ==> StartsWithMarker(old(out), out, firstPrefix)
    {
      still := first;
      if |lines| == 0 {
        assert LinesContent(out) + [] == LinesContent(out);
        return;
      }
      var prefix := if first then firstPrefix else continuation;
      assert lines == [lines[0]] + lines[1..];
      LinesContentConcat([lines[0]], lines[1..]);
      LinesContentOfOne(lines[0]);
      Append(Chars(prefix) + lines[0]);
      PrefixHasNoContent(prefix, lines[0]);
      Regroup(LinesContent(old(out)), Content(lines[0]), LinesContent(lines[1..]));
      FirstLineHasTheMarker(old(out), prefix, lines[0], continuation, lines[1..]);
      AppendAll(continuation, lines[1..]);
      still := false;
    }

    // _flush_inline of a list item.
    method FlushItem(parts: seq<Line>, first: bool, firstPrefix: string, continuation: string) returns (still: bool)
      modifies this`out
      ensures old(out) <= out && LinesContent(out) == LinesContent(old(out)) + LinesContent(parts)
      ensures first && still ==> out == old(out)
      ensures first && !still && firstPrefix != "" ==> StartsWithMarker(old(out), out, firstPrefix)
    {
      var text := Strip(Join(parts, ' '));
      RunKeepsContent(parts);
      still := AppendItemLines(SplitLines(text), first, firstPrefix, continuation);
    }

    // An item of text alone starts with its marker on the first line it writes.
    method RenderListItem(nodes: seq<Node>, marker: string, indent: string)
      requires Consistent()
      modifies this
      ensures (forall n <- nodes :: JoinsRun(n)) && RStrip(Chars(indent + marker)) != [] ==> StartsWithMarker(old(out), out, indent + marker)
      ensures Kept(old(out), old(events), out, events, Flow(nodes), FlowContent(nodes), []) && Consistent()
      decreases nodes
    {
      hide Content, LinesContent, Numbers, Codes, ItemCounts, Kept;
      var firstPrefix, continuation := indent + marker, indent + Repeated(' ', |marker|);
      var first, parts: seq<Line> := true, [];
      NothingDone(out, events);
      NoPartsWait();
      for i := 0 to |nodes|
        invariant (forall n <- nodes[..i] :: JoinsRun(n)) ==> out == old(out) && first
        invariant Kept(old(out), old(events), out, events, Flow(nodes[..i]), FlowContent(nodes[..i]), LinesContent(parts)) && Consistent()
      {
        ghost var out1, events1 := out, events;
        if JoinsRun(nodes[i]) {
          var part := RunPart(nodes[i]);
          Waiting(old(out), old(events), out, events1, Flow(nodes[..i]), FlowContent(nodes[..i]), parts, events, FlowOf(nodes[i]), part);
          if part != [] {
            parts := parts + [part];
          }
        } else {
          first := FlushItem(parts, first, firstPrefix, continuation);
          Flushed(old(out), old(events), out1, events, Flow(nodes[..i]), FlowContent(nodes[..i]), LinesContent(parts), out);
          parts := [];
          out1 := out;
          first := RenderItemChild(nodes[i], first, firstPrefix, continuation);
          Chained(old(out), old(events), out1, events1, Flow(nodes[..i]), FlowContent(nodes[..i]),
                  out, events, FlowOf(nodes[i]), FlowContentOf(nodes[i]));
        }
        FlowGrows(nodes, i);
      }
      assert nodes[..|nodes|] == nodes;
      ghost var out1 := out;
      first := FlushItem(parts, first, firstPrefix, continuation);
      Flushed(old(out), old(events), out1, events, Flow(nodes), FlowContent(nodes), LinesContent(parts), out);
      if first {
        out1 := out;
        MarkerAlone(out, firstPrefix);
        AppendMarker(firstPrefix);
        Flushed(old(out), old(events), out1, events, Flow(nodes), FlowContent(nodes), [], out);
      }
    }

    // `_append(first_prefix.rstrip())`.
    method AppendMarker(firstPrefix: string)
      modifies this`out
      ensures out == Appended(old(out), RStrip(Chars(firstPrefix)))
      ensures old(out) <= out && LinesContent(out) == LinesContent(old(out)) + []
    {
      CharsHaveNoContent(firstPrefix);
      RStripKeepsContent(Chars(firstPrefix));
      Append(RStrip(Chars(firstPrefix)));
    }

    // A child of a list item that ends the current inline run; `still` says that the item has no
    // content yet.
    method RenderItemChild(child: Node, first: bool, firstPrefix: string, continuation: string) returns (still: bool)
      requires Consistent() && !JoinsRun(child)
      modifies this
      ensures Kept(old(out), old(events), out, events, FlowOf(child), FlowContentOf(child), []) && Consistent()
      decreases child
    {
      hide Content, LinesContent, Numbers, Codes, ItemCounts, Kept;
      var prefix := if first then firstPrefix else continuation;
      still := false;
      match child.tag
      case Img(seqNo) => RenderImage(seqNo, prefix);
      case List(ordered, start) =>
        NothingDone(out, events);
        if first {
          AppendMarker(firstPrefix);
          Flushed(old(out), old(events), old(out), events, [], [], [], out);
        }
        ghost var out1 := out;
        ghost var markers := RenderList(child.children, ordered, start, continuation);
        Chained(old(out), old(events), out1, old(events), [], [], out, events, FlowOf(child), FlowContentOf(child));
        assert [] + FlowOf(child) == FlowOf(child) && [] + FlowContentOf(child) == FlowContentOf(child);
      case Pre(language) => RenderCode(child.children, language, prefix);
      case Table => RenderTable(child.children, prefix);
      case Block => still := RenderItemBlock(child.children, first, firstPrefix, continuation);
      case _ =>
        NothingDone(out, events);
        still := first;
    }

    // A block inside a list item: the marker is put on the first line the block wrote.
    method RenderItemBlock(children: seq<Node>, first: bool, firstPrefix: string, continuation: string) returns (still: bool)
      requires Consistent()
      modifies this
      ensures Kept(old(out), old(events), out, events, FlowOf(Elem(Block, children)), FlowContentOf(Elem(Block, children)), [])
              && Consistent()
      decreases children, 1
    {
      hide Content, LinesContent, Numbers, Codes, ItemCounts, Kept;
      still := first;
      if Structured(children) {
        var before := |out|;
        RenderContainer(children, if first then "" else continuation);
        if |out| > before && first {
          var line := Chars(firstPrefix) + LStrip(out[before]);
          PrefixHasNoContent(firstPrefix, LStrip(out[before]));
          LStripKeepsContent(out[before]);
          Replaced(old(out), old(events), out, events, Flow(children), FlowContent(children), before, line);
          out := out[before := line];
          still := false;
        }
      } else {
        var text := InlineText(children);
        SplitLinesKeepsContent(text);
        still := AppendItemLines(SplitLines(text), first, firstPrefix, continuation);
        Shows(old(out), old(events), out, events, Inlined(children), InlinedContent(children));
      }
    }

    // `markers` are those the items are rendered with, in order.
    method RenderList(children: seq<Node>, ordered: bool, start: Option<int>, indent: string) returns (ghost markers: seq<string>)
      requires Consistent()
      modifies this
      ensures markers == Markers(children, ordered, start)
      ensures Kept(old(out), old(events), out, events, OfList(ordered, children) + Items(children), ItemsContent(children), [])
              && Consistent()
      decreases children
    {
      hide Content, LinesContent, Numbers, Codes, ItemCounts, Kept, ListSoFar, Items, ItemsContent;
      OpenList(children, ordered);
      ListBegins(ordered, children);
      var current := if start.Some? then start.value else 1;
      markers := [];
      for i := 0 to |children|
        invariant markers == Markers(children[..i], ordered, start) && (ordered ==> current == NextNumber(children[..i], start))
        invariant Kept(old(out), old(events), out, events, ListSoFar(ordered, children, i), ItemsContent(children[..i]), []) && Consistent()
      {
        ListGrows(ordered, children, i);
        assert children[..i + 1][..i] == children[..i];
        if IsItem(children[i]) {
          var marker := "- ";
          if ordered {
            current := if children[i].tag.value.Some? then children[i].tag.value.value else current;
            marker := Decimal(current) + ". ";
            current := current + 1;
          }
          ghost var out1, events1 := out, events;
          markers := markers + [marker];
          RenderListItem(children[i].children, marker, indent);
          Chained(old(out), old(events), out1, events1, ListSoFar(ordered, children, i), ItemsContent(children[..i]),
                  out, events, Flow(children[i].children), FlowContent(children[i].children));
        }
      }
      ghost var out1 := out;
      assert children[..|children|] == children;
      AppendMarker("");
      Flushed(old(out), old(events), out1, events, ListSoFar(ordered, children, |children|), ItemsContent(children), [], out);
    }

    method OpenList(children: seq<Node>, ordered: bool)
      requires Consistent()
      modifies this
      ensures Kept(old(out), old(events), out, events, OfList(ordered, children), [], []) && Consistent()
    {
      Append([]);
      if ordered {
        RecordList(CountItems(children));
      }
      assert old(events) + [] == old(events);
      Shows(old(out), old(events), out, events, OfList(ordered, children), []);
    }
  }

  // The test for a string makes no difference between text and comments.
  function Characters(n: Node): Line
    requires !n.Elem?
  {
    if n.Text? then Doc(n.text) else Notes(n.text)
  }

  // The first line behind `before` shows the marker in front.
  ghost predicate StartsWithMarker(before: seq<Line>, after: seq<Line>, firstPrefix: string) {
    before <= after && |before| < |after| && exists text: Line :: after[|before|] == RStrip(Chars(firstPrefix) + text)
  }

  lemma FirstLineHasTheMarker(out: seq<Line>, prefix: string, line: Line, continuation: string, more: seq<Line>)
    ensures prefix != "" ==> StartsWithMarker(out, AppendedAll(Appended(out, Chars(prefix) + line), continuation, more), prefix)
  {
    if prefix != "" {
      var start := Appended(out, Chars(prefix) + line);
      AppendedAllKeepsContent(start, continuation, more);
      assert start == out + [RStrip(Chars(prefix) + line)];
      assert AppendedAll(start, continuation, more)[|out|] == start[|out|];
    }
  }

  lemma MarkerAlone(out: seq<Line>, firstPrefix: string)
    ensures RStrip(Chars(firstPrefix)) != [] ==> StartsWithMarker(out, Appended(out, RStrip(Chars(firstPrefix))), firstPrefix)
  {
    var none: Line := [];
    assert Chars(firstPrefix) + none == Chars(firstPrefix);
    RStripTwice(Chars(firstPrefix));
    if RStrip(Chars(firstPrefix)) != [] {
      assert Appended(out, RStrip(Chars(firstPrefix)))[|out|] == RStrip(Chars(firstPrefix) + none);
    }
  }

  lemma {:induction false} RStripTwice(l: Line)
    ensures RStrip(RStrip(l)) == RStrip(l)
  {
    if l != [] && IsSpace(l[|l| - 1]) {
      RStripTwice(l[..|l| - 1]);
    }
  }

  // ---------- The numbers of list items ----------

  // The number an item gets, if it has none of its own, behind the children in front of it.
  function NextNumber(before: seq<Node>, start: Option<int>): int
    decreases |before|, 0
  {
    if before == [] then (if start.Some? then start.value else 1) else
    var last := before[|before| - 1];
    if IsItem(last) then NumberOf(before[..|before| - 1], last, start) + 1 else NextNumber(before[..|before| - 1], start)
  }

  function NumberOf(before: seq<Node>, item: Node, start: Option<int>): int
    requires IsItem(item)
    decreases |before|, 1
  {
    if item.tag.value.Some? then item.tag.value.value else NextNumber(before, start)
  }

  function Markers(children: seq<Node>, ordered: bool, start: Option<int>): seq<string> {
    if children == [] then [] else
    var (rest, last) := (children[..|children| - 1], children[|children| - 1]);
    Markers(rest, ordered, start) + if !IsItem(last) then [] else [if ordered then Decimal(NumberOf(rest, last, start)) + ". " else "- "]
  }

  predicate NoItems(nodes: seq<Node>) { forall n <- nodes :: !IsItem(n) }

  // Without an item in front the count is at the start of the list, or 1.
  lemma {:induction false} FirstNumber(before: seq<Node>, start: Option<int>)
    requires NoItems(before)
    ensures NextNumber(before, start) == if start.Some? then start.value else 1
  {
    if before != [] {
      FirstNumber(before[..|before| - 1], start);
    }
  }

  // Behind an item it is one more than the item's number, whatever else stands between.
  lemma {:induction false} NumberAfter(before: seq<Node>, item: Node, between: seq<Node>, start: Option<int>)
    requires IsItem(item) && NoItems(between)
    ensures NextNumber(before + [item] + between, start) == NumberOf(before, item, start) + 1
    decreases |between|
  {
    var all := before + [item] + between;
    if between == [] {
      assert all[..|all| - 1] == before && all[|all| - 1] == item;
    } else {
      assert all[..|all| - 1] == before + [item] + between[..|between| - 1] && all[|all| - 1] == between[|between| - 1];
      NumberAfter(before, item, between[..|between| - 1], start);
    }
  }

  // The items of an ordered list are numbered from its start, or 1, each one more than the item in front of it,
  // but for an item that names its number.
  lemma ItemsAreNumbered(before: seq<Node>, item: Node, between: seq<Node>, next: Node, start: Option<int>)
    requires IsItem(item) && NoItems(between) && IsItem(next)
    ensures next.tag.value.Some? ==> NumberOf(before + [item] + between, next, start) == next.tag.value.value
    ensures next.tag.value.None? ==> NumberOf(before + [item] + between, next, start) == NumberOf(before, item, start) + 1
    ensures next.tag.value.None? ==> NumberOf(between, next, start) == if start.Some? then start.value else 1
  {
    NumberAfter(before, item, between, start);
    FirstNumber(between, start);
  }

  // Every item has one marker.
  lemma {:induction false} OneMarkerEach(children: seq<Node>, ordered: bool, start: Option<int>)
    ensures |Markers(children, ordered, start)| == CountItems(children)
  {
    if children != [] {
      OneMarkerEach(children[..|children| - 1], ordered, start);
    }
  }

  // What a printed number reads as.
  function ReadDigits(s: string): int {
    if s == "" then 0 else 10 * ReadDigits(s[..|s| - 1]) + (s[|s| - 1] as int - '0' as int)
  }

  lemma {:induction false} DigitsReadBack(n: nat)
    ensures forall c <- Digits(n) :: '0' <= c <= '9'
    ensures Digits(n) != "" && ReadDigits(Digits(n)) == n && (Digits(n)[0] == '0' ==> n == 0)
  {
    if n >= 10 {
      DigitsReadBack(n / 10);
      var front, last := Digits(n / 10), Digits(n % 10);
      assert (front + last)[..|front + last| - 1] == front && last == [(n % 10) as char + '0'];
    } else {
      assert Digits(n)[..0] == "";
    }
  }

  // Strings, inline tags and ignored tags do not end an inline run.
  predicate JoinsRun(n: Node) {
    !n.Elem? || n.tag.Inline? || n.tag.Item? || n.tag.Row? || n.tag.Cell? || n.tag.Ignored?
  }

  lemma NoPartsWait()
    ensures LinesContent([]) == [] && Flow([]) == [] && FlowContent([]) == []
  {
  }

  lemma FlowGrows(nodes: seq<Node>, i: nat)
    requires i < |nodes|
    ensures Flow(nodes[..i + 1]) == Flow(nodes[..i]) + FlowOf(nodes[i])
    ensures FlowContent(nodes[..i + 1]) == FlowContent(nodes[..i]) + FlowContentOf(nodes[i])
    ensures LinesContent([]) == []
  {
    assert nodes[..i + 1][..i] == nodes[..i];
  }

  // The events of a list up to its i-th child.
  ghost function ListSoFar(ordered: bool, children: seq<Node>, i: nat): seq<Event>
    requires i <= |children|
  {
    OfList(ordered, children) + Items(children[..i])
  }

  lemma ListBegins(ordered: bool, children: seq<Node>)
    ensures ListSoFar(ordered, children, 0) == OfList(ordered, children) && ItemsContent(children[..0]) == []
    ensures ListSoFar(ordered, children, |children|) == OfList(ordered, children) + Items(children)
    ensures ItemsContent(children[..|children|]) == ItemsContent(children)
  {
    assert children[..|children|] == children;
  }

  lemma ListGrows(ordered: bool, children: seq<Node>, i: nat)
    requires i < |children|
    ensures ListSoFar(ordered, children, i + 1) ==
              if IsItem(children[i]) then ListSoFar(ordered, children, i) + Flow(children[i].children) else ListSoFar(ordered, children, i)
    ensures ItemsContent(children[..i + 1]) ==
              if IsItem(children[i]) then ItemsContent(children[..i]) + FlowContent(children[i].children) else ItemsContent(children[..i])
  {
    assert children[..i + 1][..i] == children[..i];
    if !IsItem(children[i]) {
      assert Items(children[..i]) + [] == Items(children[..i]);
      assert ItemsContent(children[..i]) + [] == ItemsContent(children[..i]);
    }
  }

  lemma InlinedStep(events0: seq<Event>, nodes: seq<Node>, i: nat, events1: seq<Event>, events2: seq<Event>, parts: seq<Line>, part: Line)
    requires i < |nodes|
    requires events1 == events0 + Inlined(nodes[..i]) && LinesContent(parts) == InlinedContent(nodes[..i])
    requires events2 == events1 + InlinedOf(nodes[i]) && Content(part) == InlinedContentOf(nodes[i])
    ensures events2 == events0 + Inlined(nodes[..i + 1])
    ensures LinesContent(if part != [] then parts + [part] else parts) == InlinedContent(nodes[..i + 1])
  {
    assert nodes[..i + 1][..i] == nodes[..i];
    Regroup(events0, Inlined(nodes[..i]), InlinedOf(nodes[i]));
    LinesContentConcat(parts, [part]);
    LinesContentOfOne(part);
    assert LinesContent(parts) + [] == LinesContent(parts);
  }

  lemma InlinedStartsStep(nodes: seq<Node>, i: nat, parts: seq<Line>, part: Line)
    requires i < |nodes| && StartsOf(parts) == InlinedStarts(nodes[..i]) && Starts(part, true) == InlinedStartsOf(nodes[i])
    ensures StartsOf(if part != [] then parts + [part] else parts) == InlinedStarts(nodes[..i + 1])
  {
    assert nodes[..i + 1][..i] == nodes[..i];
    assert (parts + [part])[..|parts|] == parts;
    assert part == [] ==> StartsOf(parts) + [] == StartsOf(parts);
  }

  // Cutting the ends off leaves no blank beside a line break.
  lemma RunIsTight(parts: seq<Line>)
    ensures Tight(Strip(TightBreaks(Join(parts, ' '), false)))
  {
    var l := TightBreaks(Join(parts, ' '), false);
    TightBreaksIsTight(Join(parts, ' '), false);
    StripCuts(l);
    var a: Line, b: Line :| l == a + Strip(l) + b && Blanks(a) && Blanks(b);
    forall i | 0 <= i < |Strip(l)| ensures Strip(l)[i] == l[|a| + i] {
    }
  }

  lemma {:induction false} ImagesAreImages(es: seq<Event>)
    ensures OnlyImages(Images(es))
  {
    if es != [] {
      ImagesAreImages(es[..|es| - 1]);
    }
  }

  lemma TextKeepsContent(parts: seq<Line>)
    ensures Content(Strip(TightBreaks(Join(parts, ' '), false))) == LinesContent(parts)
  {
    var joined := Join(parts, ' ');
    JoinKeepsContent(parts, ' ');
    TightBreaksKeepsContent(joined, false);
    StripKeepsContent(TightBreaks(joined, false));
  }

  lemma RunKeepsContent(parts: seq<Line>)
    ensures LinesContent(SplitLines(Strip(Join(parts, ' ')))) == LinesContent(parts)
  {
    JoinKeepsContent(parts, ' ');
    StripKeepsContent(Join(parts, ' '));
    SplitLinesKeepsContent(Strip(Join(parts, ' ')));
  }

  lemma MarkerIsWritten(out0: seq<Line>, events0: seq<Event>, out1: seq<Line>, out2: seq<Line>, out3: seq<Line>, prefix: string, seqNo: int)
    requires out0 <= out1 <= out2 <= out3
    requires LinesContent(out1) == LinesContent(out0) + Content([])
    requires LinesContent(out2) == LinesContent(out1) + Content(Chars(prefix) + [Mark(seqNo)])
    requires LinesContent(out3) == LinesContent(out2) + Content([])
    ensures Kept(out0, events0, out3, events0 + [Image(seqNo)], [Image(seqNo)], [Mark(seqNo)], [])
  {
    PrefixHasNoContent(prefix, [Mark(seqNo)]);
    ContentOfOne(Mark(seqNo));
    assert LinesContent(out1) == LinesContent(out0) && LinesContent(out3) == LinesContent(out2);
  }

  // ---------- The conversion ----------

  datatype Check = CodeBlock | ImageAnchor | OrderedList | StructureOrder

  // _semantic_render: the text, and the checks of the integrity report that failed.
  method Render(nodes: seq<Node>) returns (text: Line, errors: seq<Check>)
    ensures errors == [] <==> WellNested(nodes)
    ensures Content(text) == FlowContent(nodes)
    ensures MarksIn(text) == Numbers(Flow(nodes))
    ensures NoTriple(text) && (text != [] ==> !IsSpace(text[0]) && !IsSpace(text[|text| - 1]))
  {
    var renderer := new Renderer();
    renderer.RenderContainer(nodes, "");
    text := Strip(FewBreaks(Join(renderer.out, '\n')));
    ResultKeepsContent(renderer.out);
    ResultIsTidy(Join(renderer.out, '\n'));
    assert Content(text) == FlowContent(nodes) by {
      assert LinesContent(renderer.out) + [] == LinesContent(renderer.out);
    }
    ContentKeepsMarks(text);
    FlowMarks(nodes);
    errors := [];
    if Codes(Source(nodes)) != renderer.preHashes {
      errors := errors + [CodeBlock];
    }
    if Numbers(Source(nodes)) != renderer.imageSeqs {
      errors := errors + [ImageAnchor];
    }
    if ItemCounts(Source(nodes)) != renderer.orderedItems {
      errors := errors + [OrderedList];
    }
    if Source(nodes) != renderer.events {
      errors := errors + [StructureOrder];
    }
    assert renderer.events == Flow(nodes);
    RenderingKeepsOrder(nodes);
  }

  // At most one empty line in a row, and no white space around the whole.
  lemma ResultIsTidy(l: Line)
    ensures var text := Strip(FewBreaks(l)); NoTriple(text) && (text != [] ==> !IsSpace(text[0]) && !IsSpace(text[|text| - 1]))
  {
    FewBreaksAreFew(l, true);
    StripCuts(FewBreaks(l));
    var few, text := FewBreaks(l), Strip(FewBreaks(l));
    var a: Line, b: Line :| few == a + text + b && Blanks(a) && Blanks(b);
    forall i | 0 <= i < |text| ensures text[i] == few[|a| + i] {
    }
  }

  lemma ResultKeepsContent(out: seq<Line>)
    ensures Content(Strip(FewBreaks(Join(out, '\n')))) == LinesContent(out)
  {
    JoinKeepsContent(out, '\n');
    FewBreaksKeepsContent(Join(out, '\n'));
    StripKeepsContent(FewBreaks(Join(out, '\n')));
  }

  // _html_to_semantic_text: a text comes out exactly for well-nested trees. Its markers are then the
  // mapped images of the document, in document order; it shows nothing of a comment exactly when no
  // visible one is taken for text; and in a plain document it shows all of the text, and that alone,
  // exactly when the document is also well texted.
  method HtmlToText(nodes: seq<Node>) returns (text: Option<Line>)
    ensures text.Some? <==> WellNested(nodes)
    ensures text.Some? ==> MarksIn(text.value) == Numbers(Source(nodes))
    ensures text.Some? ==> (NoNotes(Content(text.value)) <==> Silent(nodes))
    ensures text.Some? && Plain(nodes) ==> (Unnoted(Content(text.value)) == Written(nodes) <==> WellTexted(nodes))
    ensures text.Some? && Plain(nodes) ==> (Content(text.value) == Written(nodes) <==> WellTexted(nodes) && Silent(nodes))
  {
    var rendered, errors := Render(nodes);
    RenderingKeepsOrder(nodes);
    CommentsAreWrittenIff(nodes);
    if Plain(nodes) {
      TextIsKeptIff(nodes);
      ContentIsKeptIff(nodes);
    }
    text := if errors == [] then Some(rendered) else None;
  }
}
