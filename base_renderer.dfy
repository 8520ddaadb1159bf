/** `BaseMarkdownRenderer.renderList`
    (src/renderers/markdown/BaseMarkdownRenderer.ts:13-16): render every item
    as a list item, keep the input order, join with newlines. The items are
    rendered concurrently in the source; only the order-preserving result is
    modelled. */
module BaseRendering {
  import opened Text

  /** `items.map(f)`. */
  function Map<T>(items: seq<T>, f: T -> string): (r: seq<string>)
    ensures |r| == |items|
    ensures forall i :: 0 <= i < |items| ==> r[i] == f(items[i])
  {
    if items == [] then [] else [f(items[0])] + Map(items[1..], f)
  }

  /** `renderList(items)`, given the renderer's `renderAsListItem`. */
  function RenderList<T>(items: seq<T>, item: T -> string): string
  {
    Join(Map(items, item), "\n")
  }

  /** An empty list renders as the empty string. */
  lemma RenderListEmpty<T>(items: seq<T>, item: T -> string)
    requires items == []
    ensures RenderList(items, item) == ""
  {
  }

  /** A single item renders as its list item, with no newline. */
  lemma RenderListSingle<T>(items: seq<T>, item: T -> string)
    requires |items| == 1
    ensures RenderList(items, item) == item(items[0])
  {
  }

  /** For n >= 1 items the output is as long as the list items together
      plus n - 1 newlines. */
  lemma RenderListLength<T>(items: seq<T>, item: T -> string)
    requires |items| >= 1
    ensures |RenderList(items, item)| == TotalLength(Map(items, item)) + |items| - 1
  {
    JoinLength(Map(items, item), "\n");
  }

  /** When no list item contains a newline, the lines of the output are the
      list items, in input order. */
  lemma RenderListLines<T>(items: seq<T>, item: T -> string)
    requires |items| >= 1
    requires forall i :: 0 <= i < |items| ==> '\n' !in item(items[i])
    ensures Lines(RenderList(items, item)) == Map(items, item)
  {
    SplitJoin(Map(items, item), '\n');
  }

  /** Adding an item at the end adds its list item as a new last line. */
  lemma RenderListSnoc<T>(items: seq<T>, x: T, item: T -> string)
    requires |items| >= 1
    ensures RenderList(items + [x], item) == RenderList(items, item) + "\n" + item(x)
  {
    assert Map(items + [x], item) == Map(items, item) + [item(x)];
    JoinSnoc(Map(items, item), "\n", item(x));
  }
}
