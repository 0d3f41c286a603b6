/**
  The HTML tree, the structure events it holds in document order, and the events the renderers of
  the converter emit for it: exactly which trees lose none.
*/
module SemanticTree {
  import opened Options
  import opened Subsequences

  // Img carries the number of a mapped image; Item is li, Row is tr, Cell is td or th, Block a tag of
  // the block list, Ignored one of the ignored list, Inline any other tag.
  datatype Tag =
    | Img(seqNo: Option<int>) | Br | List(ordered: bool, start: Option<int>) | Item(value: Option<int>)
    | Pre(language: string) | Table | Row | Cell | Block | Inline | Ignored

  // Comment stands for every string that is no text: a comment, a declaration, a document type.
  datatype Node = Text(text: string) | Comment(text: string) | Elem(tag: Tag, children: seq<Node>)

  // A code event carries the payload; the digest the program compares stands for it.
  datatype Event = Ol(items: nat) | Code(payload: string) | Image(seqNo: int)

  // ---------- Text of a subtree ----------

  // get_text, which leaves out comments and the strings of scripts and style sheets.
  function TextOf(nodes: seq<Node>): string {
    if nodes == [] then "" else
    var last := nodes[|nodes| - 1];
    TextOf(nodes[..|nodes| - 1]) + match last
      case Text(t) => t
      case Comment(_) => ""
      case Elem(tag, children) => if tag.Ignored? then "" else TextOf(children)
  }

  // The children of every row, or of every cell, below some nodes, in document order.
  function Below(nodes: seq<Node>, rows: bool): seq<seq<Node>> {
    if nodes == [] then [] else
    var last := nodes[|nodes| - 1];
    Below(nodes[..|nodes| - 1], rows) + BelowOne(last, rows)
  }

  function BelowOne(n: Node, rows: bool): seq<seq<Node>> {
    match n
    case Text(_) | Comment(_) => []
    case Elem(tag, children) => (if (rows && tag.Row?) || (!rows && tag.Cell?) then [children] else []) + Below(children, rows)
  }

  // "\r\n" and "\r" become "\n".
  function UnixBreaks(s: string): string {
    if s == "" then ""
    else if s[0] == '\r' then "\n" + UnixBreaks(if |s| > 1 && s[1] == '\n' then s[2..] else s[1..])
    else [s[0]] + UnixBreaks(s[1..])
  }

  function Payload(children: seq<Node>): string { UnixBreaks(TextOf(children)) }

  // ---------- Document order ----------

  predicate IsItem(n: Node) { n.Elem? && n.tag.Item? }

  function CountItems(children: seq<Node>): nat {
    if children == [] then 0 else CountItems(children[..|children| - 1]) + if IsItem(children[|children| - 1]) then 1 else 0
  }

  function OfImage(seqNo: Option<int>): seq<Event> { if seqNo.Some? then [Image(seqNo.value)] else [] }

  function OfList(ordered: bool, children: seq<Node>): seq<Event> { if ordered then [Ol(CountItems(children))] else [] }

  // The event of an element itself.
  function Own(tag: Tag, children: seq<Node>): seq<Event> {
    match tag
    case Img(seqNo) => OfImage(seqNo)
    case List(ordered, _) => OfList(ordered, children)
    case Pre(_) => [Code(Payload(children))]
    case _ => []
  }

  // find_all over ol, pre and img.
  function Source(nodes: seq<Node>): seq<Event> {
    if nodes == [] then [] else Source(nodes[..|nodes| - 1]) + SourceOf(nodes[|nodes| - 1])
  }

  function SourceOf(n: Node): seq<Event> {
    match n
    case Text(_) | Comment(_) => []
    case Elem(tag, children) => Own(tag, children) + Source(children)
  }

  function Images(es: seq<Event>): seq<Event> {
    if es == [] then [] else Images(es[..|es| - 1]) + if es[|es| - 1].Image? then [es[|es| - 1]] else []
  }

  // find over block, structure and img tags.
  predicate Structured(nodes: seq<Node>) {
    nodes != [] && (Structured(nodes[..|nodes| - 1]) || StructuredOne(nodes[|nodes| - 1]))
  }

  predicate StructuredOne(n: Node) {
    n.Elem? && (n.tag.Block? || n.tag.List? || n.tag.Table? || n.tag.Pre? || n.tag.Img? || Structured(n.children))
  }

  // ---------- What the renderers emit ----------

  // _render_container and _render_list_item.
  function Flow(nodes: seq<Node>): seq<Event> {
    if nodes == [] then [] else Flow(nodes[..|nodes| - 1]) + FlowOf(nodes[|nodes| - 1])
  }

  function FlowOf(n: Node): seq<Event> {
    match n
    case Text(_) | Comment(_) => []
    case Elem(tag, children) =>
      match tag
      case Img(seqNo) => OfImage(seqNo)
      case List(ordered, _) => OfList(ordered, children) + Items(children)
      case Pre(_) => [Code(Payload(children))] + Images(Source(children))
      case Block => if Structured(children) then Flow(children) else Inlined(children)
      case Inline | Item(_) | Row | Cell => Inlined(children)
      case Br | Table | Ignored => []
  }

  // _render_list over the li children.
  function Items(nodes: seq<Node>): seq<Event> {
    if nodes == [] then [] else
    var last := nodes[|nodes| - 1];
    Items(nodes[..|nodes| - 1]) + if IsItem(last) then Flow(last.children) else []
  }

  // _inline_text.
  function Inlined(nodes: seq<Node>): seq<Event> {
    if nodes == [] then [] else Inlined(nodes[..|nodes| - 1]) + InlinedOf(nodes[|nodes| - 1])
  }

  function InlinedOf(n: Node): seq<Event> {
    match n
    case Text(_) | Comment(_) => []
    case Elem(tag, children) =>
      match tag
      case Img(seqNo) => OfImage(seqNo)
      case Inline | Item(_) | Row | Cell => Inlined(children)
      case Br | List(_, _) | Pre(_) | Table | Block | Ignored => []
  }

  // ---------- The lists of the report ----------

  function Numbers(es: seq<Event>): seq<int> {
    if es == [] then [] else
    var last := es[|es| - 1];
    Numbers(es[..|es| - 1]) + if last.Image? then [last.seqNo] else []
  }

  function Codes(es: seq<Event>): seq<string> {
    if es == [] then [] else
    var last := es[|es| - 1];
    Codes(es[..|es| - 1]) + if last.Code? then [last.payload] else []
  }

  function ItemCounts(es: seq<Event>): seq<nat> {
    if es == [] then [] else
    var last := es[|es| - 1];
    ItemCounts(es[..|es| - 1]) + if last.Ol? then [last.items] else []
  }

  lemma {:induction false} NumbersConcat(a: seq<Event>, b: seq<Event>)
    ensures Numbers(a + b) == Numbers(a) + Numbers(b)
  {
    if b == [] {
      assert a + b == a;
    } else {
      var n := |b| - 1;
      NumbersConcat(a, b[..n]);
      assert (a + b)[..|a + b| - 1] == a + b[..n];
    }
  }

  lemma {:induction false} ImagesKeepNumbers(es: seq<Event>)
    ensures Numbers(Images(es)) == Numbers(es)
  {
    if es != [] {
      var rest, last := es[..|es| - 1], es[|es| - 1];
      ImagesKeepNumbers(rest);
      if last.Image? {
        assert Images(es)[..|Images(es)| - 1] == Images(rest);
      } else {
        assert Images(es) == Images(rest) && Numbers(es) == Numbers(rest);
      }
    }
  }

  // ---------- Trees that lose nothing ----------

  predicate Quiet(nodes: seq<Node>) { Source(nodes) == [] }

  // No event under a table, an ignored tag, an image or a line break; under a list only inside its
  // li children; inside a pre only images; inside an inline tag nothing but inline tags and images.
  predicate WellNested(nodes: seq<Node>) {
    nodes == [] || (WellNested(nodes[..|nodes| - 1]) && WellNestedOne(nodes[|nodes| - 1]))
  }

  predicate WellNestedOne(n: Node) {
    n.Elem? ==>
      match n.tag
      case Img(_) | Br | Table | Ignored => Quiet(n.children)
      case List(_, _) => WellNestedItems(n.children)
      case Pre(_) => OnlyImages(Source(n.children))
      case Block => WellNested(n.children)
      case Inline | Item(_) | Row | Cell => WellInlined(n.children)
  }

  predicate WellNestedItems(nodes: seq<Node>) {
    nodes == [] ||
    var last := nodes[|nodes| - 1];
    WellNestedItems(nodes[..|nodes| - 1]) && if IsItem(last) then WellNested(last.children) else SourceOf(last) == []
  }

  predicate WellInlined(nodes: seq<Node>) {
    nodes == [] || (WellInlined(nodes[..|nodes| - 1]) && WellInlinedOne(nodes[|nodes| - 1]))
  }

  predicate WellInlinedOne(n: Node) {
    n.Elem? ==>
      match n.tag
      case Img(_) => Quiet(n.children)
      case Inline | Item(_) | Row | Cell => WellInlined(n.children)
      case _ => SourceOf(n) == []
  }

  predicate OnlyImages(es: seq<Event>) { forall e <- es :: e.Image? }

  // ---------- Emitted events are source events, in order ----------

  lemma {:induction false} ImagesAreWithin(es: seq<Event>)
    ensures Within(Images(es), es)
    ensures |Images(es)| == |es| <==> OnlyImages(es)
    decreases |es|
  {
    if es != [] {
      var rest, last := es[..|es| - 1], es[|es| - 1];
      ImagesAreWithin(rest);
      WithinIsShorter(Images(rest), rest);
      assert es == rest + [last];
      OneIsWithin(last);
      WithinConcat(Images(rest), rest, if last.Image? then [last] else [], [last]);
    }
  }

  lemma OneIsWithin(e: Event)
    ensures Within([], [e]) && Within([e], [e])
  {
    assert [e][..0] == [];
  }

  // No block, structure or image inside means no event inside, and nothing to lose.
  lemma {:induction false} UnstructuredIsQuiet(nodes: seq<Node>)
    requires !Structured(nodes)
    ensures Quiet(nodes) && Inlined(nodes) == [] && WellNested(nodes) && WellInlined(nodes)
  {
    if nodes != [] {
      var last := nodes[|nodes| - 1];
      UnstructuredIsQuiet(nodes[..|nodes| - 1]);
      if last.Elem? {
        UnstructuredIsQuiet(last.children);
      }
    }
  }

  lemma {:induction false} InlinedRenders(nodes: seq<Node>)
    ensures Renders(Inlined(nodes), Source(nodes), WellInlined(nodes))
    decreases nodes
  {
    if nodes == [] {
      RendersAll<Event>([]);
    } else {
      var rest, last := nodes[..|nodes| - 1], nodes[|nodes| - 1];
      InlinedRenders(rest);
      InlinedOfRenders(last);
      RendersBoth(Inlined(rest), Source(rest), WellInlined(rest), InlinedOf(last), SourceOf(last), WellInlinedOne(last));
    }
  }

  lemma {:induction false} InlinedOfRenders(n: Node)
    ensures Renders(InlinedOf(n), SourceOf(n), WellInlinedOne(n))
    decreases n
  {
    if !n.Elem? {
      RendersAll<Event>([]);
    } else if n.tag.Img? {
      ImageRenders(n.tag.seqNo, n.children);
    } else if n.tag.Inline? || n.tag.Item? || n.tag.Row? || n.tag.Cell? {
      InlinedRenders(n.children);
      AfterOwn([], Inlined(n.children), Source(n.children), WellInlined(n.children));
    } else {
      RendersNone(SourceOf(n));
    }
  }

  lemma ImageRenders(seqNo: Option<int>, children: seq<Node>)
    ensures Renders(OfImage(seqNo), OfImage(seqNo) + Source(children), Quiet(children))
  {
    RendersNone(Source(children));
    AfterOwn(OfImage(seqNo), [], Source(children), Quiet(children));
    assert OfImage(seqNo) + [] == OfImage(seqNo);
  }

  lemma {:induction false} FlowRenders(nodes: seq<Node>)
    ensures Renders(Flow(nodes), Source(nodes), WellNested(nodes))
    decreases nodes, 0
  {
    if nodes == [] {
      RendersAll<Event>([]);
    } else {
      var rest, last := nodes[..|nodes| - 1], nodes[|nodes| - 1];
      FlowRenders(rest);
      FlowOfRenders(last);
      RendersBoth(Flow(rest), Source(rest), WellNested(rest), FlowOf(last), SourceOf(last), WellNestedOne(last));
    }
  }

  lemma {:induction false} FlowOfRenders(n: Node)
    ensures Renders(FlowOf(n), SourceOf(n), WellNestedOne(n))
    decreases n
  {
    if !n.Elem? {
      RendersAll<Event>([]);
    } else if n.tag.Img? {
      ImageRenders(n.tag.seqNo, n.children);
    } else if n.tag.List? {
      ItemsRender(n.children);
      AfterOwn(OfList(n.tag.ordered, n.children), Items(n.children), Source(n.children), WellNestedItems(n.children));
    } else if n.tag.Pre? {
      var inside := Source(n.children);
      ImagesAreWithin(inside);
      AfterOwn([Code(Payload(n.children))], Images(inside), inside, OnlyImages(inside));
    } else if n.tag.Block? {
      BlockRenders(n.children);
    } else if n.tag.Br? || n.tag.Table? || n.tag.Ignored? {
      RendersNone(Source(n.children));
      AfterOwn([], [], Source(n.children), Quiet(n.children));
    } else {
      InlinedRenders(n.children);
      AfterOwn([], Inlined(n.children), Source(n.children), WellInlined(n.children));
    }
  }

  lemma {:induction false} BlockRenders(children: seq<Node>)
    ensures Renders(if Structured(children) then Flow(children) else Inlined(children), [] + Source(children), WellNested(children))
    decreases children, 1
  {
    if Structured(children) {
      FlowRenders(children);
    } else {
      UnstructuredIsQuiet(children);
      RendersAll<Event>([]);
    }
    AfterOwn([], if Structured(children) then Flow(children) else Inlined(children), Source(children), WellNested(children));
  }

  lemma {:induction false} ItemsRender(nodes: seq<Node>)
    ensures Renders(Items(nodes), Source(nodes), WellNestedItems(nodes))
    decreases nodes
  {
    if nodes == [] {
      RendersAll<Event>([]);
    } else {
      var rest, last := nodes[..|nodes| - 1], nodes[|nodes| - 1];
      ItemsRender(rest);
      if IsItem(last) {
        FlowRenders(last.children);
        assert [] + Source(last.children) == Source(last.children);
        RendersBoth(Items(rest), Source(rest), WellNestedItems(rest), Flow(last.children), SourceOf(last), WellNested(last.children));
      } else {
        RendersNone(SourceOf(last));
        RendersBoth(Items(rest), Source(rest), WellNestedItems(rest), [], SourceOf(last), SourceOf(last) == []);
      }
    }
  }

  // Whatever the tree, the renderers never invent, repeat or reorder an event; they emit all of them
  // exactly when the tree is well nested.
  lemma RenderingKeepsOrder(nodes: seq<Node>)
    ensures Within(Flow(nodes), Source(nodes))
    ensures Flow(nodes) == Source(nodes) <==> WellNested(nodes)
  {
    FlowRenders(nodes);
    WithinIsShorter(Flow(nodes), Source(nodes));
  }
}
