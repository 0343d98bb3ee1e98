/** Where layout puts boxes, stated on the boxes themselves: along a stack, across it, and inside a scroll
  view (packages/tui/src/layout.ts). */
module LayoutPlacement {
  import opened Wrappers
  import opened Helpers
  import opened StackSizes
  import opened Boxes
  import opened Layout
  import opened LayoutProofs

  function Heights(boxes: seq<Box>): seq<int> {
    seq(|boxes|, i requires 0 <= i < |boxes| => boxes[i].rect.height)
  }

  function Widths(boxes: seq<Box>): seq<int> {
    seq(|boxes|, i requires 0 <= i < |boxes| => boxes[i].rect.width)
  }

  /** The boxes stand for these entries, one each, in order. */
  ghost predicate StandFor(boxes: seq<Box>, entries: seq<Entry>) {
    |boxes| == |entries| && forall i :: 0 <= i < |boxes| ==> boxes[i].id == entries[i].component.id
  }

  /** Sizes share out a space: in range, and adding up to it unless the entries cannot take or give more. */
  ghost predicate Fills(flex: seq<Flex>, sizes: seq<nat>, content: nat) {
    && AllWithin(flex, sizes)
    && (Sum(sizes) < content ==> forall i :: 0 <= i < |flex| && flex[i].grow > 0.0 ==> sizes[i] >= flex[i].maxSize)
    && (Sum(sizes) > content ==> forall i :: 0 <= i < |flex| && flex[i].shrink > 0.0 ==> sizes[i] == flex[i].minSize)
  }

  // ---- Along the stack ----

  /** One box after the other from top to bottom, a gap apart. */
  ghost predicate StackedDown(boxes: seq<Box>, frame: Rect, gap: nat) {
    && (forall i :: 0 <= i < |boxes| ==> boxes[i].rect.x == frame.x && boxes[i].rect.width == frame.width)
    && (boxes != [] ==> boxes[0].rect.y == frame.y)
    && (forall i :: 0 <= i < |boxes| - 1 ==> boxes[i + 1].rect.y == boxes[i].rect.y + boxes[i].rect.height + gap)
  }

  /** One box after the other from left to right, a gap apart. */
  ghost predicate StackedRight(boxes: seq<Box>, frame: Rect, gap: nat) {
    && (boxes != [] ==> boxes[0].rect.x == frame.x)
    && (forall i :: 0 <= i < |boxes| - 1 ==> boxes[i + 1].rect.x == boxes[i].rect.x + boxes[i].rect.width + gap)
  }

  /** A box stands for its component, and only scroll views have a scroll position. */
  lemma {:induction false} LayoutId(screen: Screen, c: Component, x: int, y: int, width: int, height: Option<int>, clip: Rect)
    ensures var b := LayoutComponent(screen, c, x, y, width, height, clip);
            b.id == c.id && (b.scroll.Some? <==> c.Scroll?) && (c.Leaf? ==> b.children == [])
  {
    hide ColumnSizes, RowSizes, RowHeights, HeightOf, UpdateLayout, Offset, ContentWidth, Intersect, Translate, UpdateClips, Max;
  }

  lemma {:induction false} OffsetSum(sizes: seq<nat>, gap: nat, i: nat)
    requires i <= |sizes|
    ensures Offset(sizes, gap, i) == Sum(sizes[..i]) + i * gap
    decreases i
  {
    if i > 0 {
      OffsetSum(sizes, gap, i - 1);
      SumLast(sizes[..i]);
      assert sizes[..i][..i - 1] == sizes[..i - 1];
      assert (i - 1) * gap + gap == i * gap;
    }
  }

  lemma {:induction false} SumLast(sizes: seq<nat>)
    requires sizes != []
    ensures Sum(sizes) == Sum(sizes[..|sizes| - 1]) + sizes[|sizes| - 1]
  {
    if |sizes| == 1 {
      assert sizes[1..] == [] && sizes[..0] == [];
    } else {
      SumLast(sizes[1..]);
      assert sizes[1..][..|sizes| - 2] == sizes[..|sizes| - 1][1..];
    }
  }

  /** The boxes of a column and where they come from. */
  lemma ColumnBoxes(screen: Screen, c: Component, x: int, y: int, width: int, height: Option<int>, clip: Rect, i: nat)
    requires c.VStack? && i < |c.entries|
    ensures var b := LayoutComponent(screen, c, x, y, width, height, clip);
            var sizes := ColumnSizes(screen, c, b.rect.width, height);
            && |b.children| == |c.entries| && b.rect.x == x && b.rect.y == y
            && b.children[i].id == c.entries[i].component.id
            && b.children[i].rect == Rect(x, y + Offset(sizes, c.gap, i), b.rect.width, sizes[i])
  {
    hide ColumnSizes, NaturalHeight, Offset, Intersect;
    var b := LayoutComponent(screen, c, x, y, width, height, clip);
    var w := Max(1, width);
    var sizes := ColumnSizes(screen, c, w, height);
    var child := c.entries[i].component;
    LayoutRect(screen, child, x, y + Offset(sizes, c.gap, i), w, Some(sizes[i]), b.clip);
    LayoutId(screen, child, x, y + Offset(sizes, c.gap, i), w, Some(sizes[i]), b.clip);
    assert b.children[i] == LayoutComponent(screen, child, x, y + Offset(sizes, c.gap, i), w, Some(sizes[i]), b.clip);
  }

  /** The rows that the entries of a column ask for at its width. */
  function Asked(screen: Screen, c: Component, width: int): (r: seq<int>)
    requires c.VStack?
    ensures |r| == |c.entries|
  {
    seq(|c.entries|, i requires 0 <= i < |c.entries| => screen.rows(c.entries[i].component.id, width))
  }

  /**
   * A column puts its entries below each other, the first at its own corner,
   * each a gap after the end of the one before, as wide as itself.  Their
   * heights share out the height imposed on it; without one each has its
   * basis or its rendered rows within its range, and the column ends exactly
   * where its last entry ends, so every entry lies inside it.
   */
  lemma ColumnPlacement(screen: Screen, c: Component, x: int, y: int, width: int, height: Option<int>, clip: Rect)
    requires c.VStack?
    ensures var b := LayoutComponent(screen, c, x, y, width, height, clip);
            var kids := b.children;
            && StandFor(kids, c.entries) && StackedDown(kids, b.rect, c.gap)
            && (forall i :: 0 <= i < |kids| ==> kids[i].rect.height >= 0)
            && (height.Some? ==> b.rect.height == (if height.value < 0 then 0 else height.value)
                                 && Fills(Flexes(c.entries), Heights(kids), ContentSize(|kids|, height.value, c.gap)))
            && (height.None? ==>
                  && (kids == [] ==> b.rect.height == 0)
                  && (kids != [] ==> b.rect.y + b.rect.height == kids[|kids| - 1].rect.y + kids[|kids| - 1].rect.height)
                  && (forall i :: 0 <= i < |kids| ==> b.rect.y <= kids[i].rect.y && kids[i].rect.y + kids[i].rect.height <= b.rect.y + b.rect.height)
                  && (forall i :: 0 <= i < |kids| ==>
                        var flex := c.entries[i].flex;
                        Clamped(flex, if flex.basis.Some? then flex.basis.value else screen.rows(kids[i].id, b.rect.width), kids[i].rect.height)))
  {
    hide LayoutComponent, AllocateStackSizes, Offset, Fills, Clamped, Starting, ContentSize, StackedDown, StandFor, Sum;
    var b := LayoutComponent(screen, c, x, y, width, height, clip);
    var kids := b.children;
    var w := Max(1, width);
    LayoutRect(screen, c, x, y, width, height, clip);
    ColumnStacks(screen, c, x, y, width, height, clip);
    var sizes := ColumnSizes(screen, c, w, height);
    var asked := Asked(screen, c, w);
    if height.Some? {
      FillsLaw(Flexes(c.entries), asked, height.value, c.gap);
    } else {
      SizesStartFromBasis(Flexes(c.entries), asked, c.gap);
      NaturalEnd(sizes, c.gap);
      forall i | 0 <= i < |kids| ensures Offset(sizes, c.gap, i) + sizes[i] <= b.rect.height {
        if i < |kids| - 1 { OffsetsOrdered(sizes, c.gap, i, |kids| - 1); }
      }
    }
  }

  lemma ColumnStacks(screen: Screen, c: Component, x: int, y: int, width: int, height: Option<int>, clip: Rect)
    requires c.VStack?
    ensures var b := LayoutComponent(screen, c, x, y, width, height, clip);
            var kids := b.children;
            var sizes := ColumnSizes(screen, c, b.rect.width, height);
            && StandFor(kids, c.entries) && StackedDown(kids, b.rect, c.gap) && Heights(kids) == sizes
            && forall i :: 0 <= i < |kids| ==>
                 kids[i].id == c.entries[i].component.id && kids[i].rect.y == y + Offset(sizes, c.gap, i) && kids[i].rect.height == sizes[i]
  {
    hide LayoutComponent, ColumnSizes, Offset;
    var b := LayoutComponent(screen, c, x, y, width, height, clip);
    var kids := b.children;
    LayoutRect(screen, c, x, y, width, height, clip);
    var sizes := ColumnSizes(screen, c, b.rect.width, height);
    ColumnCount(screen, c, x, y, width, height, clip);
    forall i | 0 <= i < |c.entries|
      ensures kids[i].id == c.entries[i].component.id && kids[i].rect == Rect(x, y + Offset(sizes, c.gap, i), b.rect.width, sizes[i])
    {
      ColumnBoxes(screen, c, x, y, width, height, clip, i);
    }
    assert Heights(kids) == sizes;
    forall i | 0 <= i < |kids| ensures i == 0 ==> Offset(sizes, c.gap, i) == 0
      ensures i + 1 < |kids| ==> Offset(sizes, c.gap, i + 1) == Offset(sizes, c.gap, i) + sizes[i] + c.gap
    {
      OffsetStep(sizes, c.gap, i);
    }
  }

  lemma ColumnCount(screen: Screen, c: Component, x: int, y: int, width: int, height: Option<int>, clip: Rect)
    requires c.VStack?
    ensures |LayoutComponent(screen, c, x, y, width, height, clip).children| == |c.entries|
  {
    hide ColumnSizes, HeightOf, Offset, Intersect;
  }

  lemma OffsetStep(sizes: seq<nat>, gap: nat, i: nat)
    requires i < |sizes|
    ensures Offset(sizes, gap, 0) == 0 && Offset(sizes, gap, i + 1) == Offset(sizes, gap, i) + sizes[i] + gap
  {
  }

  /** The space for the entries of a stack and the gaps between them make up what is available, unless the gaps
    alone take more. */
  lemma SpaceWithoutGaps(n: nat, available: int, gap: nat)
    requires n > 0
    ensures available >= (n - 1) * gap ==> ContentSize(n, available, gap) + (n - 1) * gap == available
    ensures available < (n - 1) * gap ==> ContentSize(n, available, gap) == 0
    ensures ContentSize(0, available, gap) == if available < 0 then 0 else available
  {
  }

  lemma FillsLaw(flex: seq<Flex>, intrinsic: seq<int>, available: int, gap: nat)
    requires |flex| == |intrinsic|
    ensures Fills(flex, AllocateStackSizes(flex, intrinsic, Some(available), gap), ContentSize(|flex|, available, gap))
  {
    AllocationFills(flex, intrinsic, available, gap);
  }

  /** Sizes and gaps end where the last entry ends. */
  lemma NaturalEnd(sizes: seq<nat>, gap: nat)
    ensures sizes == [] ==> Sum(sizes) + Max(0, |sizes| - 1) * gap == 0
    ensures sizes != [] ==> Sum(sizes) + Max(0, |sizes| - 1) * gap == Offset(sizes, gap, |sizes| - 1) + sizes[|sizes| - 1]
  {
    if sizes != [] {
      OffsetSum(sizes, gap, |sizes| - 1);
      SumLast(sizes);
    }
  }

  // ---- Across a row ----

  /** How a box sits between the top and the bottom of a frame. */
  ghost predicate Aligned(align: Align, frame: Rect, box: Rect, natural: nat) {
    var above, below := box.y - frame.y, frame.y + frame.height - (box.y + box.height);
    match align
    case Stretch => above == 0 && below == 0
    case Start => above == 0 && box.height == if natural < frame.height then natural else frame.height
    case End => below == 0 && box.height == if natural < frame.height then natural else frame.height
    case Center => 0 <= above <= below <= above + 1 && box.height == if natural < frame.height then natural else frame.height
  }

  lemma RowBoxes(screen: Screen, c: Component, x: int, y: int, width: int, height: Option<int>, clip: Rect, i: nat)
    requires c.HStack? && i < |c.entries|
    ensures var b := LayoutComponent(screen, c, x, y, width, height, clip);
            var widths := RowSizes(screen, c, b.rect.width);
            var natural := screen.rows(c.entries[i].component.id, Max(1, widths[i]));
            && |b.children| == |c.entries| && b.rect.x == x && b.rect.y == y
            && b.children[i].id == c.entries[i].component.id
            && b.children[i].rect.x == x + Offset(widths, c.gap, i) && b.children[i].rect.width == widths[i]
            && Aligned(c.align, b.rect, b.children[i].rect, natural)
  {
    hide RowSizes, NaturalHeight, Offset, Intersect;
    var b := LayoutComponent(screen, c, x, y, width, height, clip);
    var w := Max(1, width);
    var widths := RowSizes(screen, c, w);
    var h := ChildHeight(c.align, b.rect.height, RowHeights(screen, c, w)[i]);
    var child := c.entries[i].component;
    var childX, childY := x + Offset(widths, c.gap, i), y + ChildTop(c.align, b.rect.height, h);
    if widths[i] != 0 {
      LayoutRect(screen, child, childX, childY, widths[i], Some(h), b.clip);
      LayoutId(screen, child, childX, childY, widths[i], Some(h), b.clip);
    }
    assert b.children[i] == if widths[i] == 0 then EmptyBox(child.id, childX, childY, h)
                            else LayoutComponent(screen, child, childX, childY, widths[i], Some(h), b.clip);
  }

  lemma {:induction false} TallestIs(heights: seq<nat>)
    ensures forall i :: 0 <= i < |heights| ==> heights[i] <= Tallest(heights)
    ensures heights == [] ==> Tallest(heights) == 0
    ensures heights != [] ==> exists i :: 0 <= i < |heights| && heights[i] == Tallest(heights)
  {
    if heights != [] {
      TallestIs(heights[1..]);
      forall i | 0 <= i < |heights| ensures heights[i] <= Tallest(heights) {
        if i > 0 { assert heights[i] == heights[1..][i - 1]; }
      }
      if heights[0] >= Tallest(heights[1..]) {
        assert heights[0] == Tallest(heights);
      } else {
        var i :| 0 <= i < |heights[1..]| && heights[1..][i] == Tallest(heights[1..]);
        assert heights[i + 1] == Tallest(heights);
      }
    }
  }

  /**
   * A row puts its entries beside each other, the first at its own corner,
   * each a gap after the end of the one before, with widths that share out
   * its own.  Across, entries fill the row, sit at its top or its bottom, or
   * leave equal margins with the smaller one above; without an imposed height
   * the row is as high as the highest entry renders.
   */
  lemma RowPlacement(screen: Screen, c: Component, x: int, y: int, width: int, height: Option<int>, clip: Rect)
    requires c.HStack?
    ensures var b := LayoutComponent(screen, c, x, y, width, height, clip);
            var kids := b.children;
            && StandFor(kids, c.entries) && StackedRight(kids, b.rect, c.gap)
            && (forall i :: 0 <= i < |kids| ==> kids[i].rect.width >= 0)
            && Fills(Flexes(c.entries), Widths(kids), ContentSize(|kids|, b.rect.width, c.gap))
            && (forall i :: 0 <= i < |kids| ==>
                  Aligned(c.align, b.rect, kids[i].rect, screen.rows(kids[i].id, if kids[i].rect.width < 1 then 1 else kids[i].rect.width)))
            && (height.Some? ==> b.rect.height == if height.value < 0 then 0 else height.value)
            && (height.None? ==>
                  && (forall i :: 0 <= i < |kids| ==> screen.rows(kids[i].id, if kids[i].rect.width < 1 then 1 else kids[i].rect.width) <= b.rect.height)
                  && (kids == [] ==> b.rect.height == 0)
                  && (kids != [] ==>
                        exists i :: 0 <= i < |kids| && screen.rows(kids[i].id, if kids[i].rect.width < 1 then 1 else kids[i].rect.width) == b.rect.height))
  {
    hide LayoutComponent, AllocateStackSizes, Offset, Fills, ContentSize, Aligned, Tallest;
    var b := LayoutComponent(screen, c, x, y, width, height, clip);
    var kids := b.children;
    var w := Max(1, width);
    LayoutRect(screen, c, x, y, width, height, clip);
    var widths := RowSizes(screen, c, w);
    RowCount(screen, c, x, y, width, height, clip);
    forall i | 0 <= i < |c.entries|
      ensures kids[i].id == c.entries[i].component.id && kids[i].rect.x == x + Offset(widths, c.gap, i) && kids[i].rect.width == widths[i]
      ensures Aligned(c.align, b.rect, kids[i].rect, screen.rows(kids[i].id, Max(1, widths[i])))
    {
      RowBoxes(screen, c, x, y, width, height, clip, i);
    }
    assert Widths(kids) == widths;
    forall i | 0 <= i < |kids| ensures i == 0 ==> Offset(widths, c.gap, i) == 0
      ensures i + 1 < |kids| ==> Offset(widths, c.gap, i + 1) == Offset(widths, c.gap, i) + widths[i] + c.gap
    {
      OffsetStep(widths, c.gap, i);
    }
    FillsLaw(Flexes(c.entries), AskedWidths(screen, c, w), w, c.gap);
    if height.None? {
      var heights := RowHeights(screen, c, w);
      TallestIs(heights);
      forall i | 0 <= i < |kids| ensures heights[i] == screen.rows(kids[i].id, Max(1, kids[i].rect.width)) {
      }
      if kids != [] {
        var i :| 0 <= i < |heights| && heights[i] == Tallest(heights);
        assert screen.rows(kids[i].id, Max(1, kids[i].rect.width)) == b.rect.height;
      }
    }
  }

  function AskedWidths(screen: Screen, c: Component, width: int): (r: seq<int>)
    requires c.HStack?
    ensures |r| == |c.entries|
  {
    seq(|c.entries|, i requires 0 <= i < |c.entries| => screen.columns(c.entries[i].component.id, width))
  }

  lemma RowCount(screen: Screen, c: Component, x: int, y: int, width: int, height: Option<int>, clip: Rect)
    requires c.HStack?
    ensures |LayoutComponent(screen, c, x, y, width, height, clip).children| == |c.entries|
  {
    hide RowSizes, RowHeights, HeightOf, Offset, Intersect;
  }

  // ---- Inside a scroll view ----

  /**
   * The content of a scroll view starts as many rows above its frame as it is
   * scrolled, takes its full natural height and the width that the scrollbar
   * leaves; the position follows the end or stays inside the content; and
   * without an imposed height the view is as high as its content.
   */
  lemma ScrollPlacement(screen: Screen, c: Component, x: int, y: int, width: int, height: Option<int>, clip: Rect)
    requires c.Scroll?
    ensures var b := LayoutComponent(screen, c, x, y, width, height, clip);
            && |b.children| == 1 && b.scroll.Some?
            && var kid, top := b.children[0], b.scroll.value.scrollTop;
            var end := if kid.rect.height > b.rect.height then kid.rect.height - b.rect.height else 0;
            && kid.id == c.content.id
            && kid.rect.x == b.rect.x && kid.rect.y == b.rect.y - top
            && kid.rect.width == (if c.view.scrollbarAlways && b.rect.width > 1 then b.rect.width - 1 else b.rect.width)
            && b.rect.height == (if height.None? then kid.rect.height else if height.value < 0 then 0 else height.value)
            && (c.view.followingEnd ==> top == end)
            && (!c.view.followingEnd ==> top == if c.view.scrollTop < 0 then 0 else if c.view.scrollTop > end then end else c.view.scrollTop)
            && b.scroll.value.followingEnd == (c.view.followingEnd || (c.view.followEnd && top == end && !c.view.suppressedAtEnd))
            && b.scroll.value.suppressedAtEnd == (c.view.suppressedAtEnd && top == end)
            && b.scroll.value.followEnd == c.view.followEnd && b.scroll.value.scrollbarAlways == c.view.scrollbarAlways
  {
    hide NaturalHeight, Intersect, Translate, UpdateClips;
    var w := Max(1, width);
    var cw := ContentWidth(c.view, w);
    var inner := LayoutComponent(screen, c.content, x, y - c.view.scrollTop, cw, None, clip);
    LayoutRect(screen, c.content, x, y - c.view.scrollTop, cw, None, clip);
    LayoutId(screen, c.content, x, y - c.view.scrollTop, cw, None, clip);
    LayoutRect(screen, c, x, y, width, height, clip);
    var b := LayoutComponent(screen, c, x, y, width, height, clip);
    MovedRoot(inner, c.view.scrollTop - b.scroll.value.scrollTop, b.clip);
  }

  lemma MovedRoot(b: Box, dy: int, clip: Rect)
    ensures var moved := UpdateClips(Translate(b, dy), clip);
            moved.id == b.id && moved.rect == b.rect.(y := b.rect.y + dy)
  {
  }
}
