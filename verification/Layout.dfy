/**
 * Laying a component tree out into boxes (packages/tui/src/layout.ts).
 *
 * Rendering is seen only through the sizes of its answer: `rows` is the
 * number of lines a component renders at a width, `columns` the widest of
 * them; one frame asks each question once and keeps the answer.
 */
module Layout {
  import opened Wrappers
  import opened Helpers
  import opened StackSizes
  import opened Boxes

  datatype Align = Stretch | Start | Center | End

  datatype Entry = Entry(component: Component, flex: Flex)

  datatype Component =
    | Leaf(id: nat)
    | Scroll(id: nat, view: ScrollState, content: Component)
    | VStack(id: nat, entries: seq<Entry>, gap: nat)
    | HStack(id: nat, entries: seq<Entry>, gap: nat, align: Align)

  datatype Screen = Screen(rows: (nat, int) -> nat, columns: (nat, int) -> nat)

  // ---- Scroll views (packages/tui/src/components/scroll-view.ts) ----

  function ContentWidth(s: ScrollState, width: int): int {
    if s.scrollbarAlways && width > 1 then width - 1 else width
  }

  function MaxScrollTop(contentHeight: int, viewportHeight: int): nat {
    Max(0, Max(0, contentHeight) - Max(0, viewportHeight))
  }

  /** The scroll position settles on the end while following it, and inside the content otherwise. */
  function UpdateLayout(s: ScrollState, contentHeight: int, viewportHeight: int): (r: ScrollState)
    ensures 0 <= r.scrollTop <= MaxScrollTop(contentHeight, viewportHeight)
  {
    var top := UpdatedTop(s, MaxScrollTop(contentHeight, viewportHeight));
    var suppressed := s.suppressedAtEnd && top >= MaxScrollTop(contentHeight, viewportHeight);
    s.(scrollTop := top,
       suppressedAtEnd := suppressed,
       followingEnd := s.followingEnd || (s.followEnd && top == MaxScrollTop(contentHeight, viewportHeight) && !suppressed))
  }

  function UpdatedTop(s: ScrollState, maxScrollTop: nat): nat {
    if s.followingEnd then maxScrollTop else Max(0, Min(s.scrollTop, maxScrollTop))
  }

  // ---- Sizes ----

  function Flexes(entries: seq<Entry>): (r: seq<Flex>)
    ensures |r| == |entries|
  {
    seq(|entries|, i requires 0 <= i < |entries| => entries[i].flex)
  }

  /** The heights of a column's entries at a width. */
  function ColumnSizes(screen: Screen, c: Component, width: int, height: Option<int>): (r: seq<nat>)
    requires c.VStack?
    ensures |r| == |c.entries|
  {
    AllocateStackSizes(
      Flexes(c.entries),
      seq(|c.entries|, i requires 0 <= i < |c.entries| => screen.rows(c.entries[i].component.id, width)),
      height, c.gap)
  }

  /** The widths of a row's entries. */
  function RowSizes(screen: Screen, c: Component, width: int): (r: seq<nat>)
    requires c.HStack?
    ensures |r| == |c.entries|
  {
    AllocateStackSizes(
      Flexes(c.entries),
      seq(|c.entries|, i requires 0 <= i < |c.entries| => screen.columns(c.entries[i].component.id, width)),
      Some(width), c.gap)
  }

  function RowHeights(screen: Screen, c: Component, width: int): (r: seq<nat>)
    requires c.HStack?
    ensures |r| == |c.entries|
  {
    var widths := RowSizes(screen, c, width);
    seq<nat>(|c.entries|, i requires 0 <= i < |c.entries| => screen.rows(c.entries[i].component.id, Max(1, widths[i])))
  }

  function Tallest(heights: seq<nat>): nat {
    if heights == [] then 0 else Max(heights[0], Tallest(heights[1..]))
  }

  /** Where the i-th entry of a stack starts. */
  function Offset(sizes: seq<nat>, gap: nat, i: nat): nat
    requires i <= |sizes|
  {
    if i == 0 then 0 else Offset(sizes, gap, i - 1) + sizes[i - 1] + gap
  }

  /** The height a component takes when none is imposed on it. */
  function NaturalHeight(screen: Screen, c: Component, width: int): nat {
    match c
    case Leaf(id) => screen.rows(id, width)
    case Scroll(_, view, content) => NaturalHeight(screen, content, Max(1, ContentWidth(view, width)))
    case VStack(_, entries, gap) => Sum(ColumnSizes(screen, c, width, None)) + Max(0, |entries| - 1) * gap
    case HStack(_, _, _, _) => Tallest(RowHeights(screen, c, width))
  }

  function HeightOf(screen: Screen, c: Component, width: int, height: Option<int>): nat {
    if height.Some? then Max(0, height.value) else NaturalHeight(screen, c, width)
  }

  /** Where a row puts an entry on the cross axis, and how tall it is there. */
  function ChildHeight(align: Align, available: nat, natural: nat): nat {
    if align.Stretch? then available else Min(available, natural)
  }

  function ChildTop(align: Align, available: nat, childHeight: nat): nat
    requires childHeight <= available
  {
    match align
    case Center => (available - childHeight) / 2
    case End => available - childHeight
    case _ => 0
  }

  /** An entry squeezed to no width is not laid out at all. */
  function EmptyBox(id: nat, x: int, y: int, height: nat): Box {
    Box(id, Rect(x, y, 0, height), Rect(x, y, 0, 0), [], None)
  }

  // ---- Layout as the code computes it ----

  /**
   * A scroll view lays its content out at the stale offset, learns the
   * content height from it, settles the offset, and then moves and re-clips
   * the whole subtree.
   */
  function LayoutComponent(screen: Screen, c: Component, x: int, y: int, width: int, height: Option<int>, clip: Rect): (b: Box)
    decreases c
  {
    var w := Max(1, width);
    match c
    case Leaf(id) =>
      var rect := Rect(x, y, w, HeightOf(screen, c, w, height));
      Box(id, rect, Intersect(clip, rect), [], None)
    case Scroll(id, view, content) =>
      var child := LayoutComponent(screen, content, x, y - view.scrollTop, ContentWidth(view, w), None, clip);
      var viewportHeight := if height.Some? then Max(0, height.value) else child.rect.height;
      var settled := UpdateLayout(view, child.rect.height, viewportHeight);
      var rect := Rect(x, y, w, viewportHeight);
      var childClip := Intersect(clip, rect);
      Box(id, rect, childClip,
          [UpdateClips(Translate(child, view.scrollTop - settled.scrollTop), childClip)], Some(settled))
    case VStack(id, entries, gap) =>
      var sizes := ColumnSizes(screen, c, w, height);
      var rect := Rect(x, y, w, HeightOf(screen, c, w, height));
      var own := Intersect(clip, rect);
      Box(id, rect, own,
          seq(|entries|, i requires 0 <= i < |entries| =>
            LayoutComponent(screen, entries[i].component, x, y + Offset(sizes, gap, i), w, Some(sizes[i]), own)), None)
    case HStack(id, entries, gap, align) =>
      var widths := RowSizes(screen, c, w);
      var heights := RowHeights(screen, c, w);
      var available := HeightOf(screen, c, w, height);
      var rect := Rect(x, y, w, available);
      var own := Intersect(clip, rect);
      Box(id, rect, own,
          seq(|entries|, i requires 0 <= i < |entries| =>
            var h := ChildHeight(align, available, heights[i]);
            var childX := x + Offset(widths, gap, i);
            var childY := y + ChildTop(align, available, h);
            if widths[i] == 0 then EmptyBox(entries[i].component.id, childX, childY, h)
            else LayoutComponent(screen, entries[i].component, childX, childY, widths[i], Some(h), own)), None)
  }

  // ---- Layout in one pass: every scroll view knows its content height beforehand ----

  function Direct(screen: Screen, c: Component, x: int, y: int, width: int, height: Option<int>, clip: Rect): (b: Box)
    decreases c
  {
    var w := Max(1, width);
    var rect := Rect(x, y, w, HeightOf(screen, c, w, height));
    var own := Intersect(clip, rect);
    match c
    case Leaf(id) => Box(id, rect, own, [], None)
    case Scroll(id, view, content) =>
      var settled := UpdateLayout(view, NaturalHeight(screen, c, w), rect.height);
      Box(id, rect, own,
          [Direct(screen, content, x, y - settled.scrollTop, ContentWidth(view, w), None, own)], Some(settled))
    case VStack(id, entries, gap) =>
      var sizes := ColumnSizes(screen, c, w, height);
      Box(id, rect, own,
          seq(|entries|, i requires 0 <= i < |entries| =>
            Direct(screen, entries[i].component, x, y + Offset(sizes, gap, i), w, Some(sizes[i]), own)), None)
    case HStack(id, entries, gap, align) =>
      var widths := RowSizes(screen, c, w);
      var heights := RowHeights(screen, c, w);
      Box(id, rect, own,
          seq(|entries|, i requires 0 <= i < |entries| =>
            var h := ChildHeight(align, rect.height, heights[i]);
            var child := Rect(x + Offset(widths, gap, i), y + ChildTop(align, rect.height, h), widths[i], h);
            if widths[i] == 0 then Box(entries[i].component.id, child, Intersect(own, child), [], None)
            else Direct(screen, entries[i].component, child.x, child.y, widths[i], Some(h), own)), None)
  }

  // ---- The frame a component gets ----

  lemma {:induction false} LayoutRect(screen: Screen, c: Component, x: int, y: int, width: int, height: Option<int>, clip: Rect)
    ensures LayoutComponent(screen, c, x, y, width, height, clip).rect
         == Rect(x, y, Max(1, width), HeightOf(screen, c, Max(1, width), height))
  {
    hide ColumnSizes, RowSizes, RowHeights, UpdateLayout, Offset, ContentWidth, Intersect, Translate, UpdateClips;
    if c.Scroll? {
      LayoutRect(screen, c.content, x, y - c.view.scrollTop, ContentWidth(c.view, Max(1, width)), None, clip);
    }
  }
}
