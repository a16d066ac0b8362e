/**
 * Backreference tables: each `autolink-examples` placeholder is replaced by
 * a table of links to the code examples that use the documented object, or
 * removed together with its paragraph when there are none.
 */
module Backref {
  import opened Wrappers
  import opened Text
  import Sorting

  /** `CodeExample`: the document of a block, the id of its section and the headings above it. */
  datatype CodeExample = CodeExample(document: string, refId: Option<string>, headings: seq<string>)

  /** A table row, the `(link, text)` tuple. */
  datatype Item = Item(link: string, text: string)

  /** Python's tuple order on `(link, text)`. */
  predicate ItemLess(a: Item, b: Item)
  {
    Less(a.link, b.link) || (a.link == b.link && Less(a.text, b.text))
  }

  lemma ItemOrder()
    ensures Sorting.StrictTotalOrder(ItemLess)
  {
    forall a: Item ensures !ItemLess(a, a) {
      LessIrreflexive(a.link);
      LessIrreflexive(a.text);
    }
    forall a: Item, b: Item, c: Item | ItemLess(a, b) && ItemLess(b, c) ensures ItemLess(a, c) {
      if Less(a.link, b.link) && Less(b.link, c.link) {
        LessTransitive(a.link, b.link, c.link);
      } else if Less(a.text, b.text) && Less(b.text, c.text) {
        LessTransitive(a.text, b.text, c.text);
      }
    }
    forall a: Item, b: Item ensures a == b || ItemLess(a, b) || ItemLess(b, a) {
      LessTotal(a.link, b.link);
      LessTotal(a.text, b.text);
    }
  }

  /** The link and text one example contributes: `document.html`, with `#ref_id` when the block sits in a section, and the headings joined by ` / `. */
  function ItemOf(ex: CodeExample): Item
  {
    var link := ex.document + ".html";
    Item(if ex.refId.Some? then link + "#" + ex.refId.value else link, Join(ex.headings, " / "))
  }

  /** When the document name holds no `#`, the link has a fragment exactly when the example has a section id, and the link starts with the page. */
  lemma ItemLinkFragment(ex: CodeExample)
    requires '#' !in ex.document
    ensures '#' in ItemOf(ex).link <==> ex.refId.Some?
    ensures StartsWith(ItemOf(ex).link, ex.document + ".html")
  {
    var page := ex.document + ".html";
    assert '#' !in page by {
      assert forall c :: c in page ==> c in ex.document || c in ".html";
    }
    if ex.refId.Some? {
      var link := page + "#" + ex.refId.value;
      assert link[|page|] == '#';
      assert link[..|page|] == page;
    }
  }

  /** The `(link, text)` items of a list of examples, in order. */
  function Items(refs: seq<CodeExample>): (items: seq<Item>)
    ensures |items| == |refs|
  {
    seq(|refs|, i requires 0 <= i < |refs| => ItemOf(refs[i]))
  }

  /** The placeholder node left in the tree by the `autolink-examples` directive. */
  datatype DocNode =
    | DeferredExamples(ref: string, collapse: bool, origRef: string)
    | OtherNode

  /** The single-column table: the optional "References to" header row, then one row per item. */
  datatype Table = Table(header: Option<string>, rows: seq<Item>)

  /** What replaces the placeholder's paragraph. */
  datatype Content =
    | Details(summary: string, origRef: string, table: Table)
    | PlainTable(table: Table)

  /** What the visit does to the tree around a node. */
  datatype Outcome =
    | Untouched
    | RemoveParagraph
    | ReplaceParagraph(content: Content)

  const HeaderText := "References to "
  const SummaryText := "Expand for references to "

  /** The examples recorded for the placeholder's object, `code_refs.get(node.ref, [])`. */
  function RefsOf(codeRefs: map<string, seq<CodeExample>>, key: string): seq<CodeExample>
  {
    if key in codeRefs then codeRefs[key] else []
  }

  /** `CodeRefsVisitor.unknown_visit` as a function of the node and the collected references. */
  function Visited(node: DocNode, codeRefs: map<string, seq<CodeExample>>): Outcome
  {
    match node
    case OtherNode => Untouched
    case DeferredExamples(ref, collapse, origRef) =>
      ItemOrder();
      var items := Sorting.SortedSet(Items(RefsOf(codeRefs, ref)), ItemLess);
      if |items| == 0 then RemoveParagraph
      else if collapse then ReplaceParagraph(Details(SummaryText, origRef, Table(None, items)))
      else ReplaceParagraph(PlainTable(Table(Some(HeaderText + origRef), items)))
  }

  /** `unknown_visit`: collects the items in a loop, then decides the replacement. */
  method UnknownVisit(node: DocNode, codeRefs: map<string, seq<CodeExample>>) returns (r: Outcome)
    ensures r == Visited(node, codeRefs)
  {
    if !node.DeferredExamples? {
      return Untouched;
    }
    var refs := RefsOf(codeRefs, node.ref);
    var items: seq<Item> := [];
    for i := 0 to |refs|
      invariant |items| == i
      invariant forall j :: 0 <= j < i ==> items[j] == ItemOf(refs[j])
    {
      var ref := refs[i];
      var link := ref.document + ".html";
      if ref.refId.Some? {
        link := link + "#" + ref.refId.value;
      }
      items := items + [Item(link, Join(ref.headings, " / "))];
    }
    assert items == Items(refs);
    ItemOrder();
    var sorted := Sorting.SortedSet(items, ItemLess);
    if |sorted| == 0 {
      return RemoveParagraph;
    }
    var table := Table(if node.collapse then None else Some(HeaderText + node.origRef), sorted);
    if node.collapse {
      r := ReplaceParagraph(Details(SummaryText, node.origRef, table));
    } else {
      r := ReplaceParagraph(PlainTable(table));
    }
  }

  /**
   * Nodes other than the placeholder are untouched; a placeholder whose
   * object has no examples is removed with its paragraph; otherwise the
   * rows are the distinct items of the examples in increasing order, a
   * collapsed table sits in a details element without a header row, and an
   * expanded one has the "References to" header.
   */
  lemma VisitedOutcome(node: DocNode, codeRefs: map<string, seq<CodeExample>>)
    ensures node.OtherNode? ==> Visited(node, codeRefs) == Untouched
    ensures node.DeferredExamples? ==>
      var refs := RefsOf(codeRefs, node.ref);
      && (Visited(node, codeRefs) == RemoveParagraph <==> |refs| == 0)
      && (|refs| > 0 ==>
        && Visited(node, codeRefs).ReplaceParagraph?
        && var content := Visited(node, codeRefs).content;
        && (content.Details? <==> node.collapse)
        && (content.table.header.None? <==> node.collapse)
        && (!node.collapse ==> content.table.header == Some(HeaderText + node.origRef))
        && (node.collapse ==> content.summary == SummaryText && content.origRef == node.origRef)
        && Sorting.Increasing(content.table.rows, ItemLess)
        && (forall it :: it in content.table.rows <==> exists ex :: ex in refs && ItemOf(ex) == it))
  {
    if node.DeferredExamples? {
      ItemOrder();
      var refs := RefsOf(codeRefs, node.ref);
      var items := Items(refs);
      var sorted := Sorting.SortedSet(items, ItemLess);
      forall it ensures it in items <==> exists ex :: ex in refs && ItemOf(ex) == it {
        if it in items {
          var i :| 0 <= i < |items| && items[i] == it;
          assert refs[i] in refs;
        }
        if exists ex :: ex in refs && ItemOf(ex) == it {
          var ex :| ex in refs && ItemOf(ex) == it;
          var i :| 0 <= i < |refs| && refs[i] == ex;
          assert items[i] == it;
        }
      }
      Sorting.SameElementsEmpty(sorted, items);
    }
  }
}
