/**
  The visible content of an HTML tree: the characters of its text and the markers of its images, in
  document order and as the renderers write it. The renderers take a comment for text.
*/
module SemanticContent {
  import opened Options
  import opened SemanticText
  import opened SemanticTree
  import opened Subsequences

  function MarkOf(seqNo: Option<int>): Line { if seqNo.Some? then [Mark(seqNo.value)] else [] }

  // The markers of the images among some events.
  function MarksOf(es: seq<Event>): Line {
    if es == [] then [] else
    var last := es[|es| - 1];
    MarksOf(es[..|es| - 1]) + if last.Image? then [Mark(last.seqNo)] else []
  }

  // ---------- Document order ----------

  // Everything but comments and what stands under an ignored tag.
  function Written(nodes: seq<Node>): Line {
    if nodes == [] then [] else Written(nodes[..|nodes| - 1]) + WrittenOf(nodes[|nodes| - 1])
  }

  function WrittenOf(n: Node): Line {
    match n
    case Text(t) => Visible(t)
    case Comment(_) => []
    case Elem(tag, children) =>
      match tag
      case Ignored => []
      case Img(seqNo) => MarkOf(seqNo) + Written(children)
      case _ => Written(children)
  }

  // ---------- As rendered ----------

  // A container or a list item. A code block shows its text, then the images found in it.
  function FlowContent(nodes: seq<Node>): Line {
    if nodes == [] then [] else FlowContent(nodes[..|nodes| - 1]) + FlowContentOf(nodes[|nodes| - 1])
  }

  function FlowContentOf(n: Node): Line {
    match n
    case Text(t) => Visible(t)
    case Comment(t) => Remarks(t)
    case Elem(tag, children) =>
      match tag
      case Img(seqNo) => MarkOf(seqNo)
      case List(_, _) => ItemsContent(children)
      case Pre(_) => Visible(TextOf(children)) + MarksOf(Images(Source(children)))
      case Table => RowsContent(Below(children, true))
      case Block => if Structured(children) then FlowContent(children) else InlinedContent(children)
      case Inline | Item(_) | Row | Cell => InlinedContent(children)
      case Br | Ignored => []
  }

  function ItemsContent(nodes: seq<Node>): Line {
    if nodes == [] then [] else
    var last := nodes[|nodes| - 1];
    ItemsContent(nodes[..|nodes| - 1]) + if IsItem(last) then FlowContent(last.children) else []
  }

  function InlinedContent(nodes: seq<Node>): Line {
    if nodes == [] then [] else InlinedContent(nodes[..|nodes| - 1]) + InlinedContentOf(nodes[|nodes| - 1])
  }

  function InlinedContentOf(n: Node): Line {
    match n
    case Text(t) => Visible(t)
    case Comment(t) => Remarks(t)
    case Elem(tag, children) =>
      match tag
      case Img(seqNo) => MarkOf(seqNo)
      case Inline | Item(_) | Row | Cell => InlinedContent(children)
      case Br | List(_, _) | Pre(_) | Table | Block | Ignored => []
  }

  // A table: the cells below each row, one row after the other.
  function RowsContent(rows: seq<seq<Node>>): Line {
    if rows == [] then [] else RowsContent(rows[..|rows| - 1]) + CellsContent(Below(rows[|rows| - 1], false))
  }

  function CellsContent(cells: seq<seq<Node>>): Line {
    if cells == [] then [] else CellsContent(cells[..|cells| - 1]) + Visible(TextOf(cells[|cells| - 1]))
  }

  // ---------- Text ----------

  lemma VisibleConcat(a: string, b: string)
    ensures Visible(a + b) == Visible(a) + Visible(b)
  {
    assert Doc(a + b) == Doc(a) + Doc(b);
    ContentConcat(Doc(a), Doc(b));
  }

  lemma VisibleOfOne(c: char)
    ensures Visible([c]) == if IsSpace(Txt(c)) then [] else [Txt(c)]
  {
    assert Doc([c]) == [Txt(c)];
    ContentOfOne(Txt(c));
  }

  // Line breaks of another system are no visible characters.
  lemma {:induction false} UnixBreaksKeepsVisible(s: string)
    ensures Visible(UnixBreaks(s)) == Visible(s)
    decreases |s|
  {
    if s != "" {
      var head := if s[0] == '\r' then "\n" else [s[0]];
      var eaten := if s[0] == '\r' && |s| > 1 && s[1] == '\n' then 2 else 1;
      UnixBreaksKeepsVisible(s[eaten..]);
      VisibleConcat(head, UnixBreaks(s[eaten..]));
      assert s == s[..eaten] + s[eaten..];
      VisibleConcat(s[..eaten], s[eaten..]);
      VisibleOfOne(s[0]);
      VisibleOfOne('\n');
      if eaten == 2 {
        assert s[..2] == [s[0]] + [s[1]];
        VisibleConcat([s[0]], [s[1]]);
      } else {
        assert s[..1] == [s[0]];
      }
    }
  }

  // ---------- Markers agree with events ----------

  lemma MarksOfOption(seqNo: Option<int>)
    ensures MarksIn(MarkOf(seqNo)) == Numbers(OfImage(seqNo))
  {
    if seqNo.Some? {
      assert [Mark(seqNo.value)][..0] == [] && [Image(seqNo.value)][..0] == [];
    }
  }

  lemma {:induction false} MarksOfEvents(es: seq<Event>)
    ensures MarksIn(MarksOf(es)) == Numbers(es)
  {
    if es != [] {
      var rest, last := es[..|es| - 1], es[|es| - 1];
      MarksOfEvents(rest);
      if last.Image? {
        assert MarksOf(es)[..|MarksOf(es)| - 1] == MarksOf(rest);
      } else {
        assert MarksOf(es) == MarksOf(rest) && Numbers(es) == Numbers(rest);
      }
    }
  }

  lemma BothConcat(a: Line, b: Line, c: seq<Event>, d: seq<Event>)
    requires MarksIn(a) == Numbers(c) && MarksIn(b) == Numbers(d)
    ensures MarksIn(a + b) == Numbers(c + d)
  {
    MarksInConcat(a, b);
    NumbersConcat(c, d);
  }

  lemma {:induction false} InlinedMarks(nodes: seq<Node>)
    ensures MarksIn(InlinedContent(nodes)) == Numbers(Inlined(nodes))
    decreases nodes
  {
    if nodes != [] {
      var rest, last := nodes[..|nodes| - 1], nodes[|nodes| - 1];
      InlinedMarks(rest);
      InlinedMarksOf(last);
      BothConcat(InlinedContent(rest), InlinedContentOf(last), Inlined(rest), InlinedOf(last));
    }
  }

  lemma {:induction false} InlinedMarksOf(n: Node)
    ensures MarksIn(InlinedContentOf(n)) == Numbers(InlinedOf(n))
    decreases n
  {
    if n.Text? {
      VisibleHasNoMarks(n.text);
    } else if n.Comment? {
      RemarksHaveNoMarks(n.text);
    } else if n.tag.Img? {
      MarksOfOption(n.tag.seqNo);
    } else if n.tag.Inline? || n.tag.Item? || n.tag.Row? || n.tag.Cell? {
      InlinedMarks(n.children);
    }
  }

  // The markers in the rendered content are the images among the emitted events, in order.
  lemma {:induction false} FlowMarks(nodes: seq<Node>)
    ensures MarksIn(FlowContent(nodes)) == Numbers(Flow(nodes))
    decreases nodes
  {
    if nodes != [] {
      var rest, last := nodes[..|nodes| - 1], nodes[|nodes| - 1];
      FlowMarks(rest);
      FlowMarksOf(last);
      BothConcat(FlowContent(rest), FlowContentOf(last), Flow(rest), FlowOf(last));
    }
  }

  lemma {:induction false} FlowMarksOf(n: Node)
    ensures MarksIn(FlowContentOf(n)) == Numbers(FlowOf(n))
    decreases n
  {
    if n.Text? {
      VisibleHasNoMarks(n.text);
    } else if n.Comment? {
      RemarksHaveNoMarks(n.text);
    } else if n.tag.Img? {
      MarksOfOption(n.tag.seqNo);
    } else if n.tag.List? {
      ListMarks(n.tag.ordered, n.children);
    } else if n.tag.Pre? {
      CodeMarks(n.children);
    } else if n.tag.Table? {
      RowsHaveNoMarks(Below(n.children, true));
    } else if n.tag.Block? {
      if Structured(n.children) {
        FlowMarks(n.children);
      } else {
        InlinedMarks(n.children);
      }
    } else if n.tag.Inline? || n.tag.Item? || n.tag.Row? || n.tag.Cell? {
      InlinedMarks(n.children);
    }
  }

  lemma {:induction false} ListMarks(ordered: bool, children: seq<Node>)
    ensures MarksIn(ItemsContent(children)) == Numbers(OfList(ordered, children) + Items(children))
    decreases children, 1
  {
    ItemsMarks(children);
    assert [Ol(CountItems(children))][..0] == [];
    assert Numbers(OfList(ordered, children)) == [];
    NumbersConcat(OfList(ordered, children), Items(children));
  }

  lemma {:induction false} ItemsMarks(nodes: seq<Node>)
    ensures MarksIn(ItemsContent(nodes)) == Numbers(Items(nodes))
    decreases nodes, 0
  {
    if nodes != [] {
      var rest, last := nodes[..|nodes| - 1], nodes[|nodes| - 1];
      ItemsMarks(rest);
      if IsItem(last) {
        FlowMarks(last.children);
        BothConcat(ItemsContent(rest), FlowContent(last.children), Items(rest), Flow(last.children));
      } else {
        assert ItemsContent(rest) + [] == ItemsContent(rest) && Items(rest) + [] == Items(rest);
      }
    }
  }

  lemma CodeMarks(children: seq<Node>)
    ensures MarksIn(Visible(TextOf(children)) + MarksOf(Images(Source(children)))) ==
              Numbers([Code(Payload(children))] + Images(Source(children)))
  {
    var images := Images(Source(children));
    VisibleHasNoMarks(TextOf(children));
    MarksOfEvents(images);
    assert [Code(Payload(children))][..0] == [];
    BothConcat(Visible(TextOf(children)), MarksOf(images), [Code(Payload(children))], images);
  }

  lemma {:induction false} CellsHaveNoMarks(cells: seq<seq<Node>>)
    ensures MarksIn(CellsContent(cells)) == []
  {
    if cells != [] {
      CellsHaveNoMarks(cells[..|cells| - 1]);
      VisibleHasNoMarks(TextOf(cells[|cells| - 1]));
      MarksInConcat(CellsContent(cells[..|cells| - 1]), Visible(TextOf(cells[|cells| - 1])));
    }
  }

  lemma {:induction false} RowsHaveNoMarks(rows: seq<seq<Node>>)
    ensures MarksIn(RowsContent(rows)) == []
  {
    if rows != [] {
      RowsHaveNoMarks(rows[..|rows| - 1]);
      CellsHaveNoMarks(Below(rows[|rows| - 1], false));
      MarksInConcat(RowsContent(rows[..|rows| - 1]), CellsContent(Below(rows[|rows| - 1], false)));
    }
  }

  // ---------- Which documents keep all their content ----------

  // Documents whose tables are flat and whose code blocks hold no images: other tables repeat the text
  // of nested rows and cells, and the images of a code block move behind its text.
  predicate Plain(nodes: seq<Node>) {
    nodes == [] || (Plain(nodes[..|nodes| - 1]) && PlainOne(nodes[|nodes| - 1]))
  }

  predicate PlainOne(n: Node) {
    n.Elem? ==> if n.tag.Table? then FlatRows(n.children) else if n.tag.Pre? then JustText(n.children) else Plain(n.children)
  }

  predicate JustText(nodes: seq<Node>) {
    nodes == [] || (JustText(nodes[..|nodes| - 1]) && JustTextOne(nodes[|nodes| - 1]))
  }

  predicate JustTextOne(n: Node) { n.Elem? ==> !n.tag.Img? && JustText(n.children) }

  // No row inside a row, no cell inside a cell, and neither inside an ignored tag.
  predicate FlatRows(nodes: seq<Node>) {
    nodes == [] || (FlatRows(nodes[..|nodes| - 1]) && FlatRowsOne(nodes[|nodes| - 1]))
  }

  predicate FlatRowsOne(n: Node) {
    n.Elem? ==>
      if n.tag.Ignored? then Below(n.children, true) == []
      else if n.tag.Row? then Below(n.children, true) == [] && FlatCells(n.children)
      else FlatRows(n.children)
  }

  predicate FlatCells(nodes: seq<Node>) {
    nodes == [] || (FlatCells(nodes[..|nodes| - 1]) && FlatCellsOne(nodes[|nodes| - 1]))
  }

  predicate FlatCellsOne(n: Node) {
    n.Elem? ==> if n.tag.Ignored? || n.tag.Cell? then Below(n.children, false) == [] else FlatCells(n.children)
  }

  // Nothing written under an image or a line break; under a list only inside its li children; inside
  // an inline tag only inline tags, images and ignored tags; in a table only text, in cells of rows.
  predicate WellTexted(nodes: seq<Node>) {
    nodes == [] || (WellTexted(nodes[..|nodes| - 1]) && WellTextedOne(nodes[|nodes| - 1]))
  }

  predicate WellTextedOne(n: Node) {
    n.Elem? ==>
      match n.tag
      case Img(_) | Br => Written(n.children) == []
      case List(_, _) => WellTextedItems(n.children)
      case Block => WellTexted(n.children)
      case Inline | Item(_) | Row | Cell => TextInlined(n.children)
      case Table => WellTextedRows(n.children)
      case Pre(_) | Ignored => true
  }

  predicate WellTextedRows(nodes: seq<Node>) {
    nodes == [] || (WellTextedRows(nodes[..|nodes| - 1]) && WellTextedRowsOne(nodes[|nodes| - 1]))
  }

  predicate WellTextedRowsOne(n: Node) {
    match n
    case Text(t) => Visible(t) == []
    case Comment(_) => true
    case Elem(tag, children) =>
      match tag
      case Ignored => true
      case Img(seqNo) => seqNo == None && WellTextedRows(children)
      case Row => WellTextedCells(children)
      case _ => WellTextedRows(children)
  }

  predicate WellTextedCells(nodes: seq<Node>) {
    nodes == [] || (WellTextedCells(nodes[..|nodes| - 1]) && WellTextedCellsOne(nodes[|nodes| - 1]))
  }

  predicate WellTextedCellsOne(n: Node) {
    match n
    case Text(t) => Visible(t) == []
    case Comment(_) => true
    case Elem(tag, children) =>
      match tag
      case Ignored => true
      case Img(seqNo) => seqNo == None && WellTextedCells(children)
      case Cell => Unmarked(children)
      case _ => WellTextedCells(children)
  }

  // No mapped image but under an ignored tag.
  predicate Unmarked(nodes: seq<Node>) {
    nodes == [] || (Unmarked(nodes[..|nodes| - 1]) && UnmarkedOne(nodes[|nodes| - 1]))
  }

  predicate UnmarkedOne(n: Node) {
    n.Elem? && !n.tag.Ignored? ==> (n.tag.Img? ==> n.tag.seqNo == None) && Unmarked(n.children)
  }

  predicate WellTextedItems(nodes: seq<Node>) {
    nodes == [] ||
    var last := nodes[|nodes| - 1];
    WellTextedItems(nodes[..|nodes| - 1]) && if IsItem(last) then WellTexted(last.children) else WrittenOf(last) == []
  }

  predicate TextInlined(nodes: seq<Node>) {
    nodes == [] || (TextInlined(nodes[..|nodes| - 1]) && TextInlinedOne(nodes[|nodes| - 1]))
  }

  predicate TextInlinedOne(n: Node) {
    n.Elem? ==>
      match n.tag
      case Img(_) => Written(n.children) == []
      case Inline | Item(_) | Row | Cell => TextInlined(n.children)
      case Ignored => true
      case _ => WrittenOf(n) == []
  }

  lemma {:induction false} JustTextIsItsText(nodes: seq<Node>)
    requires JustText(nodes)
    ensures Written(nodes) == Visible(TextOf(nodes)) && Images(Source(nodes)) == []
    decreases nodes
  {
    if nodes != [] {
      var rest, last := nodes[..|nodes| - 1], nodes[|nodes| - 1];
      JustTextIsItsText(rest);
      var text := match last case Text(t) => t case Comment(_) => "" case Elem(tag, children) => if tag.Ignored? then "" else TextOf(children);
      VisibleConcat(TextOf(rest), text);
      if last.Elem? {
        JustTextIsItsText(last.children);
        ImagesConcat(Own(last.tag, last.children), Source(last.children));
        OwnIsNoImage(last.tag, last.children);
      }
      ImagesConcat(Source(rest), SourceOf(last));
    }
  }

  lemma OwnIsNoImage(tag: Tag, children: seq<Node>)
    requires !tag.Img?
    ensures Images(Own(tag, children)) == []
  {
    assert [Ol(CountItems(children))][..0] == [] && [Code(Payload(children))][..0] == [];
  }

  lemma {:induction false} ImagesConcat(a: seq<Event>, b: seq<Event>)
    ensures Images(a + b) == Images(a) + Images(b)
  {
    if b == [] {
      assert a + b == a;
    } else {
      var n := |b| - 1;
      ImagesConcat(a, b[..n]);
      assert (a + b)[..|a + b| - 1] == a + b[..n];
    }
  }

  // ---------- Comments ----------

  // No comment but blank ones, except where none is written: in tables, code blocks and ignored tags,
  // under images and line breaks, among the li children of a list, and in the blocks and structures
  // inside an inline tag.
  predicate Silent(nodes: seq<Node>) {
    nodes == [] || (Silent(nodes[..|nodes| - 1]) && SilentOne(nodes[|nodes| - 1]))
  }

  predicate SilentOne(n: Node) {
    match n
    case Text(_) => true
    case Comment(t) => Blank(t)
    case Elem(tag, children) =>
      match tag
      case List(_, _) => SilentItems(children)
      case Block => Silent(children)
      case Inline | Item(_) | Row | Cell => SilentInlined(children)
      case Img(_) | Br | Pre(_) | Table | Ignored => true
  }

  predicate SilentItems(nodes: seq<Node>) {
    nodes == [] ||
    var last := nodes[|nodes| - 1];
    SilentItems(nodes[..|nodes| - 1]) && (IsItem(last) ==> Silent(last.children))
  }

  predicate SilentInlined(nodes: seq<Node>) {
    nodes == [] || (SilentInlined(nodes[..|nodes| - 1]) && SilentInlinedOne(nodes[|nodes| - 1]))
  }

  predicate SilentInlinedOne(n: Node) {
    match n
    case Text(_) => true
    case Comment(t) => Blank(t)
    case Elem(tag, children) =>
      match tag
      case Inline | Item(_) | Row | Cell => SilentInlined(children)
      case _ => true
  }

  lemma {:induction false} UnstructuredIsSilentInlined(nodes: seq<Node>)
    requires !Structured(nodes)
    ensures SilentInlined(nodes) <==> Silent(nodes)
  {
    if nodes != [] {
      UnstructuredIsSilentInlined(nodes[..|nodes| - 1]);
    }
  }

  lemma NotesConcat(a: Line, b: Line)
    ensures NoNotes(a + b) <==> NoNotes(a) && NoNotes(b)
  {
    if NoNotes(a + b) {
      forall x | x in a || x in b ensures !x.Note? {
        assert x in a + b;
      }
    }
  }

  lemma MarkIsNoNote(seqNo: Option<int>)
    ensures NoNotes(MarkOf(seqNo)) && Unnoted(MarkOf(seqNo)) == MarkOf(seqNo)
  {
    UnnotedIff(MarkOf(seqNo));
  }

  lemma {:induction false} MarksAreNoNotes(es: seq<Event>)
    ensures NoNotes(MarksOf(es))
  {
    if es != [] {
      MarksAreNoNotes(es[..|es| - 1]);
    }
  }

  lemma {:induction false} CellsHaveNoNotes(cells: seq<seq<Node>>)
    ensures NoNotes(CellsContent(cells))
  {
    if cells != [] {
      CellsHaveNoNotes(cells[..|cells| - 1]);
      VisibleHasNoNotes(TextOf(cells[|cells| - 1]));
    }
  }

  lemma {:induction false} RowsHaveNoNotes(rows: seq<seq<Node>>)
    ensures NoNotes(RowsContent(rows))
  {
    if rows != [] {
      RowsHaveNoNotes(rows[..|rows| - 1]);
      CellsHaveNoNotes(Below(rows[|rows| - 1], false));
    }
  }

  lemma {:induction false} InlinedIsSilentIff(nodes: seq<Node>)
    ensures NoNotes(InlinedContent(nodes)) <==> SilentInlined(nodes)
    decreases nodes
  {
    if nodes != [] {
      var rest, last := nodes[..|nodes| - 1], nodes[|nodes| - 1];
      InlinedIsSilentIff(rest);
      NotesConcat(InlinedContent(rest), InlinedContentOf(last));
      if !last.Elem? {
        VisibleHasNoNotes(last.text);
        RemarksOfAComment(last.text);
      } else if last.tag.Inline? || last.tag.Item? || last.tag.Row? || last.tag.Cell? {
        InlinedIsSilentIff(last.children);
      }
    }
  }

  // A character of a comment is written if and only if one that is not blank stands where the
  // renderers take it for text.
  lemma {:induction false} CommentsAreWrittenIff(nodes: seq<Node>)
    ensures NoNotes(FlowContent(nodes)) <==> Silent(nodes)
    decreases nodes, 0
  {
    if nodes != [] {
      var rest, last := nodes[..|nodes| - 1], nodes[|nodes| - 1];
      CommentsAreWrittenIff(rest);
      NotesConcat(FlowContent(rest), FlowContentOf(last));
      if !last.Elem? {
        VisibleHasNoNotes(last.text);
        RemarksOfAComment(last.text);
      } else {
        ElementIsSilentIff(last.tag, last.children);
      }
    }
  }

  lemma {:induction false} ElementIsSilentIff(tag: Tag, children: seq<Node>)
    ensures NoNotes(FlowContentOf(Elem(tag, children))) <==> SilentOne(Elem(tag, children))
    decreases children, 1
  {
    match tag
    case Img(seqNo) => MarkIsNoNote(seqNo);
    case List(_, _) => ItemsAreSilentIff(children);
    case Pre(_) =>
      VisibleHasNoNotes(TextOf(children));
      MarksAreNoNotes(Images(Source(children)));
    case Table => RowsHaveNoNotes(Below(children, true));
    case Block =>
      if Structured(children) {
        CommentsAreWrittenIff(children);
      } else {
        InlinedIsSilentIff(children);
        UnstructuredIsSilentInlined(children);
      }
    case Inline | Item(_) | Row | Cell => InlinedIsSilentIff(children);
    case Br | Ignored =>
  }

  lemma {:induction false} ItemsAreSilentIff(nodes: seq<Node>)
    ensures NoNotes(ItemsContent(nodes)) <==> SilentItems(nodes)
    decreases nodes, 0
  {
    if nodes != [] {
      var rest, last := nodes[..|nodes| - 1], nodes[|nodes| - 1];
      ItemsAreSilentIff(rest);
      if IsItem(last) {
        CommentsAreWrittenIff(last.children);
        NotesConcat(ItemsContent(rest), FlowContent(last.children));
      } else {
        assert ItemsContent(rest) + [] == ItemsContent(rest);
      }
    }
  }

  // ---------- Which documents keep all their text ----------

  lemma {:induction false} InlinedTextRenders(nodes: seq<Node>)
    ensures Renders(Unnoted(InlinedContent(nodes)), Written(nodes), TextInlined(nodes))
    decreases nodes
  {
    if nodes == [] {
      RendersAll<Atom>([]);
    } else {
      var rest, last := nodes[..|nodes| - 1], nodes[|nodes| - 1];
      InlinedTextRenders(rest);
      InlinedTextOfRenders(last);
      UnnotedConcat(InlinedContent(rest), InlinedContentOf(last));
      RendersBoth(Unnoted(InlinedContent(rest)), Written(rest), TextInlined(rest),
                  Unnoted(InlinedContentOf(last)), WrittenOf(last), TextInlinedOne(last));
    }
  }

  lemma {:induction false} InlinedTextOfRenders(n: Node)
    ensures Renders(Unnoted(InlinedContentOf(n)), WrittenOf(n), TextInlinedOne(n))
    decreases n
  {
    if !n.Elem? {
      StringRenders(n);
    } else if n.tag.Img? {
      MarkRenders(n.tag.seqNo, n.children);
    } else if n.tag.Inline? || n.tag.Item? || n.tag.Row? || n.tag.Cell? {
      InlinedTextRenders(n.children);
    } else {
      RendersNone(WrittenOf(n));
    }
  }

  lemma StringRenders(n: Node)
    requires !n.Elem?
    ensures Renders(Unnoted(FlowContentOf(n)), WrittenOf(n), true) && InlinedContentOf(n) == FlowContentOf(n)
  {
    VisibleHasNoNotes(n.text);
    RemarksOfAComment(n.text);
    RendersAll(WrittenOf(n));
  }

  lemma MarkRenders(seqNo: Option<int>, children: seq<Node>)
    ensures Renders(Unnoted(MarkOf(seqNo)), MarkOf(seqNo) + Written(children), Written(children) == [])
  {
    MarkIsNoNote(seqNo);
    RendersNone(Written(children));
    AfterOwn(MarkOf(seqNo), [], Written(children), Written(children) == []);
    assert MarkOf(seqNo) + [] == MarkOf(seqNo);
  }

  // ---------- Tables ----------

  lemma {:induction false} CellTextRenders(nodes: seq<Node>)
    ensures Renders(Visible(TextOf(nodes)), Written(nodes), Unmarked(nodes))
    decreases nodes
  {
    if nodes == [] {
      RendersAll<Atom>([]);
    } else {
      var rest, last := nodes[..|nodes| - 1], nodes[|nodes| - 1];
      var text := match last case Text(t) => t case Comment(_) => "" case Elem(tag, children) => if tag.Ignored? then "" else TextOf(children);
      CellTextRenders(rest);
      if last.Elem? && !last.tag.Ignored? {
        CellTextRenders(last.children);
        if last.tag.Img? {
          MayLead(MarkOf(last.tag.seqNo), Visible(text), Written(last.children), Unmarked(last.children));
        }
      } else {
        RendersAll(WrittenOf(last));
      }
      VisibleConcat(TextOf(rest), text);
      RendersBoth(Visible(TextOf(rest)), Written(rest), Unmarked(rest), Visible(text), WrittenOf(last), UnmarkedOne(last));
    }
  }

  // What stands before is lost.
  lemma MayLead(own: Line, a: Line, b: Line, p: bool)
    requires Renders(a, b, p)
    ensures Renders(a, own + b, own == [] && p)
  {
    RendersNone(own);
    RendersBoth([], own, own == [], a, b, p);
    assert [] + a == a;
  }

  lemma {:induction false} CellsContentConcat(a: seq<seq<Node>>, b: seq<seq<Node>>)
    ensures CellsContent(a + b) == CellsContent(a) + CellsContent(b)
  {
    if b == [] {
      assert a + b == a && CellsContent(a) + [] == CellsContent(a);
    } else {
      CellsContentConcat(a, b[..|b| - 1]);
      assert (a + b)[..|a + b| - 1] == a + b[..|b| - 1] && (a + b)[|a + b| - 1] == b[|b| - 1];
      Regroup(CellsContent(a), CellsContent(b[..|b| - 1]), Visible(TextOf(b[|b| - 1])));
    }
  }

  lemma {:induction false} RowsContentConcat(a: seq<seq<Node>>, b: seq<seq<Node>>)
    ensures RowsContent(a + b) == RowsContent(a) + RowsContent(b)
  {
    if b == [] {
      assert a + b == a && RowsContent(a) + [] == RowsContent(a);
    } else {
      RowsContentConcat(a, b[..|b| - 1]);
      assert (a + b)[..|a + b| - 1] == a + b[..|b| - 1] && (a + b)[|a + b| - 1] == b[|b| - 1];
      Regroup(RowsContent(a), RowsContent(b[..|b| - 1]), CellsContent(Below(b[|b| - 1], false)));
    }
  }

  lemma {:induction false} CellsRender(nodes: seq<Node>)
    requires FlatCells(nodes)
    ensures Renders(CellsContent(Below(nodes, false)), Written(nodes), WellTextedCells(nodes))
    decreases nodes
  {
    if nodes == [] {
      RendersAll<Atom>([]);
    } else {
      var rest, last := nodes[..|nodes| - 1], nodes[|nodes| - 1];
      CellsRender(rest);
      CellsOfRender(last);
      CellsContentConcat(Below(rest, false), BelowOne(last, false));
      RendersBoth(CellsContent(Below(rest, false)), Written(rest), WellTextedCells(rest),
                  CellsContent(BelowOne(last, false)), WrittenOf(last), WellTextedCellsOne(last));
    }
  }

  lemma {:induction false} CellsOfRender(n: Node)
    requires FlatCellsOne(n)
    ensures Renders(CellsContent(BelowOne(n, false)), WrittenOf(n), WellTextedCellsOne(n))
    decreases n
  {
    if !n.Elem? {
      RendersNone(WrittenOf(n));
    } else if n.tag.Ignored? {
      RendersAll<Atom>([]);
    } else if n.tag.Cell? {
      assert BelowOne(n, false) == [n.children] && BelowOne(n, false)[..0] == [];
      assert CellsContent(BelowOne(n, false)) == [] + Visible(TextOf(n.children)) == Visible(TextOf(n.children));
      CellTextRenders(n.children);
    } else {
      CellsRender(n.children);
      assert BelowOne(n, false) == Below(n.children, false);
      if n.tag.Img? {
        MayLead(MarkOf(n.tag.seqNo), CellsContent(Below(n.children, false)), Written(n.children), WellTextedCells(n.children));
      }
    }
  }

  lemma {:induction false} RowsRender(nodes: seq<Node>)
    requires FlatRows(nodes)
    ensures Renders(RowsContent(Below(nodes, true)), Written(nodes), WellTextedRows(nodes))
    decreases nodes
  {
    if nodes == [] {
      RendersAll<Atom>([]);
    } else {
      var rest, last := nodes[..|nodes| - 1], nodes[|nodes| - 1];
      RowsRender(rest);
      RowsOfRender(last);
      RowsContentConcat(Below(rest, true), BelowOne(last, true));
      RendersBoth(RowsContent(Below(rest, true)), Written(rest), WellTextedRows(rest),
                  RowsContent(BelowOne(last, true)), WrittenOf(last), WellTextedRowsOne(last));
    }
  }

  lemma {:induction false} RowsOfRender(n: Node)
    requires FlatRowsOne(n)
    ensures Renders(RowsContent(BelowOne(n, true)), WrittenOf(n), WellTextedRowsOne(n))
    decreases n
  {
    if !n.Elem? {
      RendersNone(WrittenOf(n));
    } else if n.tag.Ignored? {
      RendersAll<Atom>([]);
    } else if n.tag.Row? {
      assert BelowOne(n, true) == [n.children] && BelowOne(n, true)[..0] == [];
      assert RowsContent(BelowOne(n, true)) == [] + CellsContent(Below(n.children, false)) == CellsContent(Below(n.children, false));
      CellsRender(n.children);
    } else {
      RowsRender(n.children);
      assert BelowOne(n, true) == Below(n.children, true);
      if n.tag.Img? {
        MayLead(MarkOf(n.tag.seqNo), RowsContent(Below(n.children, true)), Written(n.children), WellTextedRows(n.children));
      }
    }
  }

  // ---------- Documents ----------

  // Without block, structure or image inside the two ways to render a block agree.
  lemma {:induction false} UnstructuredTextIsInlined(nodes: seq<Node>)
    requires !Structured(nodes)
    ensures TextInlined(nodes) <==> WellTexted(nodes)
  {
    if nodes != [] {
      UnstructuredTextIsInlined(nodes[..|nodes| - 1]);
    }
  }

  lemma {:induction false} TextRenders(nodes: seq<Node>)
    requires Plain(nodes)
    ensures Renders(Unnoted(FlowContent(nodes)), Written(nodes), WellTexted(nodes))
    decreases nodes
  {
    if nodes == [] {
      RendersAll<Atom>([]);
    } else {
      var rest, last := nodes[..|nodes| - 1], nodes[|nodes| - 1];
      TextRenders(rest);
      TextOfRenders(last);
      UnnotedConcat(FlowContent(rest), FlowContentOf(last));
      RendersBoth(Unnoted(FlowContent(rest)), Written(rest), WellTexted(rest),
                  Unnoted(FlowContentOf(last)), WrittenOf(last), WellTextedOne(last));
    }
  }

  lemma {:induction false} TextOfRenders(n: Node)
    requires PlainOne(n)
    ensures Renders(Unnoted(FlowContentOf(n)), WrittenOf(n), WellTextedOne(n))
    decreases n
  {
    if !n.Elem? {
      StringRenders(n);
    } else if n.tag.Img? {
      MarkRenders(n.tag.seqNo, n.children);
    } else if n.tag.List? {
      ItemTextsRender(n.children);
    } else if n.tag.Pre? {
      JustTextIsItsText(n.children);
      VisibleHasNoNotes(TextOf(n.children));
      assert Visible(TextOf(n.children)) + [] == Visible(TextOf(n.children));
      RendersAll(Visible(TextOf(n.children)));
    } else if n.tag.Block? {
      if Structured(n.children) {
        TextRenders(n.children);
      } else {
        InlinedTextRenders(n.children);
        UnstructuredTextIsInlined(n.children);
      }
    } else if n.tag.Br? {
      RendersNone(Written(n.children));
    } else if n.tag.Ignored? {
      RendersAll<Atom>([]);
    } else if n.tag.Table? {
      RowsRender(n.children);
      RowsHaveNoNotes(Below(n.children, true));
      UnnotedIff(RowsContent(Below(n.children, true)));
    } else {
      InlinedTextRenders(n.children);
    }
  }

  lemma {:induction false} ItemTextsRender(nodes: seq<Node>)
    requires Plain(nodes)
    ensures Renders(Unnoted(ItemsContent(nodes)), Written(nodes), WellTextedItems(nodes))
    decreases nodes
  {
    if nodes == [] {
      RendersAll<Atom>([]);
    } else {
      var rest, last := nodes[..|nodes| - 1], nodes[|nodes| - 1];
      ItemTextsRender(rest);
      if IsItem(last) {
        TextRenders(last.children);
        UnnotedConcat(ItemsContent(rest), FlowContent(last.children));
        RendersBoth(Unnoted(ItemsContent(rest)), Written(rest), WellTextedItems(rest),
                    Unnoted(FlowContent(last.children)), WrittenOf(last), WellTexted(last.children));
      } else {
        RendersNone(WrittenOf(last));
        assert ItemsContent(rest) + [] == ItemsContent(rest);
        assert Unnoted(ItemsContent(rest)) + [] == Unnoted(ItemsContent(rest));
        RendersBoth(Unnoted(ItemsContent(rest)), Written(rest), WellTextedItems(rest), [], WrittenOf(last), WrittenOf(last) == []);
      }
    }
  }

  lemma {:induction false} WrittenHasNoNotes(nodes: seq<Node>)
    ensures NoNotes(Written(nodes))
    decreases nodes
  {
    if nodes != [] {
      var last := nodes[|nodes| - 1];
      WrittenHasNoNotes(nodes[..|nodes| - 1]);
      if last.Elem? {
        WrittenHasNoNotes(last.children);
      } else {
        VisibleHasNoNotes(last.text);
      }
    }
  }

  lemma {:induction false} NotesAreNotWithin(a: Line, b: Line)
    requires Within(a, b) && NoNotes(b)
    ensures NoNotes(a)
    decreases |b|
  {
    if b != [] {
      var rest := b[..|b| - 1];
      if Within(a, rest) {
        NotesAreNotWithin(a, rest);
      } else {
        NotesAreNotWithin(a[..|a| - 1], rest);
        assert a == a[..|a| - 1] + [a[|a| - 1]] && b[|b| - 1] in b;
      }
    }
  }

  // In a plain document what the renderers write of the text and the images is in document order, and
  // it is all of it exactly when the document is well texted.
  lemma TextIsKeptIff(nodes: seq<Node>)
    requires Plain(nodes)
    ensures Within(Unnoted(FlowContent(nodes)), Written(nodes))
    ensures Unnoted(FlowContent(nodes)) == Written(nodes) <==> WellTexted(nodes)
  {
    TextRenders(nodes);
    WithinIsShorter(Unnoted(FlowContent(nodes)), Written(nodes));
  }

  // Nothing else is written exactly when no comment is taken for text, and then the rendered content is
  // the document's content exactly when the document is well texted.
  lemma ContentIsKeptIff(nodes: seq<Node>)
    requires Plain(nodes)
    ensures Within(FlowContent(nodes), Written(nodes)) <==> Silent(nodes)
    ensures FlowContent(nodes) == Written(nodes) <==> WellTexted(nodes) && Silent(nodes)
  {
    TextIsKeptIff(nodes);
    CommentsAreWrittenIff(nodes);
    WrittenHasNoNotes(nodes);
    UnnotedIff(FlowContent(nodes));
    if Within(FlowContent(nodes), Written(nodes)) {
      NotesAreNotWithin(FlowContent(nodes), Written(nodes));
    }
    AllIsWithin(Written(nodes));
  }

  // A comment between two words is written as a word of its own.
  lemma CommentBecomesText()
    ensures exists nodes: seq<Node> ::
              Plain(nodes) && WellTexted(nodes) && Written(nodes) == [Txt('a')] && FlowContent(nodes) == [Txt('a'), Note('b')]
  {
    var text, note := Text("a"), Comment("b");
    var nodes := [text, note];
    assert nodes[..1] == [text] && [text][..0] == [];
    VisibleOfOne('a');
    RemarksGrow("b");
    assert "b"[..0] == "" && Remarks("") == [];
    assert Written(nodes) == Written([text]) + [] && Written([text]) == [] + Visible("a");
    assert FlowContent(nodes) == FlowContent([text]) + Remarks("b") && FlowContent([text]) == [] + Visible("a");
    var none: seq<Node> := [];
    assert Plain(none) && WellTexted(none) && PlainOne(text) && WellTextedOne(text) && PlainOne(note) && WellTextedOne(note);
    assert Plain([text]) && WellTexted([text]);
    assert Plain(nodes) && WellTexted(nodes);
  }
}
