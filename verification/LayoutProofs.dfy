/** The laws of layout: where boxes go, what their clips cover, and what a second frame changes. */
module LayoutProofs {
  import opened Wrappers
  import opened Helpers
  import opened StackSizes
  import opened Boxes
  import opened Layout

  lemma {:induction false} OffsetsOrdered(sizes: seq<nat>, gap: nat, i: nat, j: nat)
    requires i < j <= |sizes|
    ensures Offset(sizes, gap, i) + sizes[i] <= Offset(sizes, gap, j)
    decreases j
  {
    if i < j - 1 { OffsetsOrdered(sizes, gap, i, j - 1); }
  }

  // ---- Clips ----

  lemma FromChildren(b: Box, parentClip: Rect)
    requires b.clip == Intersect(parentClip, b.rect)
    requires forall i :: 0 <= i < |b.children| ==> ClipExact(b.children[i], b.clip)
    ensures ClipExact(b, parentClip)
  {
    hide Intersect;
  }

  /** Nothing of an entry without width is visible, and nothing of it should be. */
  lemma EmptyExact(id: nat, x: int, y: int, height: nat, parentClip: Rect)
    ensures ClipExact(EmptyBox(id, x, y, height), parentClip)
  {
  }

  /**
   * Every clip covers exactly the points of the parent's clip inside the
   * box's own rect, below any nesting of scroll views.
   */
  lemma {:induction false} LayoutClipExact(screen: Screen, c: Component, x: int, y: int, width: int, height: Option<int>, clip: Rect)
    ensures ClipExact(LayoutComponent(screen, c, x, y, width, height, clip), clip)
    decreases c
  {
    hide ColumnSizes, RowSizes, RowHeights, NaturalHeight, UpdateLayout, Offset, ContentWidth, Translate, UpdateClips, Intersect,
         ClipExact;
    var b := LayoutComponent(screen, c, x, y, width, height, clip);
    var w := Max(1, width);
    forall i | 0 <= i < |b.children| ensures ClipExact(b.children[i], b.clip) {
      match c
      case Leaf(_) =>
      case Scroll(_, view, content) =>
        var child := LayoutComponent(screen, content, x, y - view.scrollTop, ContentWidth(view, w), None, clip);
        UpdateClipsExact(Translate(child, view.scrollTop - b.scroll.value.scrollTop), b.clip);
      case VStack(_, entries, gap) =>
        var sizes := ColumnSizes(screen, c, w, height);
        LayoutClipExact(screen, entries[i].component, x, y + Offset(sizes, gap, i), w, Some(sizes[i]), b.clip);
      case HStack(_, entries, gap, align) =>
        var widths := RowSizes(screen, c, w);
        var h := ChildHeight(align, b.rect.height, RowHeights(screen, c, w)[i]);
        var childX := x + Offset(widths, gap, i);
        var childY := y + ChildTop(align, b.rect.height, h);
        if widths[i] != 0 {
          LayoutClipExact(screen, entries[i].component, childX, childY, widths[i], Some(h), b.clip);
        } else {
          EmptyExact(entries[i].component.id, childX, childY, h, b.clip);
        }
    }
    FromChildren(b, clip);
  }

  // ---- Translation ----

  /** A content tree that is a moved copy stays one after both are scrolled and re-clipped. */
  lemma MovedContent(a: Box, b: Box, d: int, dy: int, clipA: Rect, clipB: Rect)
    requires Skeleton(b) == Skeleton(Translate(a, dy))
    ensures Skeleton(UpdateClips(Translate(b, d), clipB)) == Skeleton(Translate(UpdateClips(Translate(a, d), clipA), dy))
  {
    hide Skeleton, Translate, UpdateClips;
    calc {
      Skeleton(UpdateClips(Translate(b, d), clipB));
      { UpdateClipsSkeleton(Translate(b, d), clipB); TranslateSkeleton(b, d); }
      Translate(Skeleton(Translate(a, dy)), d);
      { TranslateSkeleton(Translate(a, dy), d); TranslateTwice(a, dy, d); TranslateTwice(a, d, dy); }
      Skeleton(Translate(Translate(a, d), dy));
      { TranslateSkeleton(Translate(a, d), dy); UpdateClipsSkeleton(Translate(a, d), clipA); }
      Translate(Skeleton(UpdateClips(Translate(a, d), clipA)), dy);
      { TranslateSkeleton(UpdateClips(Translate(a, d), clipA), dy); }
      Skeleton(Translate(UpdateClips(Translate(a, d), clipA), dy));
    }
  }

  lemma {:induction false} MovedBox(a: Box, b: Box, dy: int)
    requires b.id == a.id && b.rect == Shift(a.rect, dy) && b.scroll == a.scroll && |b.children| == |a.children|
    requires forall i :: 0 <= i < |a.children| ==> Skeleton(b.children[i]) == Skeleton(Translate(a.children[i], dy))
    ensures Skeleton(b) == Skeleton(Translate(a, dy))
  {
    assert Skeleton(b).children == Skeleton(Translate(a, dy)).children;
  }

  /**
   * Moving the frame moves every rect with it and changes no size and no
   * scroll position, whatever the clips.
   */
  lemma {:induction false} LayoutEquivariant(
      screen: Screen, c: Component, x: int, y: int, dy: int, width: int, height: Option<int>, clip: Rect, clip': Rect)
    ensures Skeleton(LayoutComponent(screen, c, x, y + dy, width, height, clip'))
         == Skeleton(Translate(LayoutComponent(screen, c, x, y, width, height, clip), dy))
    decreases c
  {
    hide Skeleton, Translate, ColumnSizes, RowSizes, RowHeights, NaturalHeight, UpdateLayout, Offset, ContentWidth, UpdateClips, Intersect;
    var a := LayoutComponent(screen, c, x, y, width, height, clip);
    var b := LayoutComponent(screen, c, x, y + dy, width, height, clip');
    var w := Max(1, width);
    match c {
      case Leaf(_) =>
        MovedBox(a, b, dy);
      case Scroll(_, view, content) =>
        var inA := LayoutComponent(screen, content, x, y - view.scrollTop, ContentWidth(view, w), None, clip);
        var inB := LayoutComponent(screen, content, x, y + dy - view.scrollTop, ContentWidth(view, w), None, clip');
        LayoutRect(screen, content, x, y - view.scrollTop, ContentWidth(view, w), None, clip);
        LayoutRect(screen, content, x, y + dy - view.scrollTop, ContentWidth(view, w), None, clip');
        LayoutEquivariant(screen, content, x, y - view.scrollTop, dy, ContentWidth(view, w), None, clip, clip');
        assert y - view.scrollTop + dy == y + dy - view.scrollTop;
        var d := view.scrollTop - b.scroll.value.scrollTop;
        assert a.scroll == b.scroll;
        MovedContent(inA, inB, d, dy, a.clip, b.clip);
        MovedBox(a, b, dy);
      case VStack(_, entries, gap) =>
        var sizes := ColumnSizes(screen, c, w, height);
        forall i | 0 <= i < |entries| ensures Skeleton(b.children[i]) == Skeleton(Translate(a.children[i], dy)) {
          LayoutEquivariant(screen, entries[i].component, x, y + Offset(sizes, gap, i), dy, w, Some(sizes[i]), a.clip, b.clip);
          assert y + Offset(sizes, gap, i) + dy == y + dy + Offset(sizes, gap, i);
        }
        MovedBox(a, b, dy);
      case HStack(_, entries, gap, align) =>
        var widths := RowSizes(screen, c, w);
        forall i | 0 <= i < |entries| ensures Skeleton(b.children[i]) == Skeleton(Translate(a.children[i], dy)) {
          var h := ChildHeight(align, a.rect.height, RowHeights(screen, c, w)[i]);
          var childX := x + Offset(widths, gap, i);
          var childY := y + ChildTop(align, a.rect.height, h);
          if widths[i] != 0 {
            LayoutEquivariant(screen, entries[i].component, childX, childY, dy, widths[i], Some(h), a.clip, b.clip);
          } else {
            MovedBox(a.children[i], b.children[i], dy);
          }
        }
        MovedBox(a, b, dy);
    }
  }

  /** Laying out at a stale offset and moving is laying out at the settled one. */
  lemma StaleOffsetHarmless(
      screen: Screen, c: Component, x: int, y: int, stale: int, settled: int, width: int, height: Option<int>, clip: Rect, clip': Rect)
    ensures Skeleton(Translate(LayoutComponent(screen, c, x, y - stale, width, height, clip), stale - settled))
         == Skeleton(LayoutComponent(screen, c, x, y - settled, width, height, clip'))
  {
    hide LayoutComponent, Skeleton, Translate;
    LayoutEquivariant(screen, c, x, y - stale, stale - settled, width, height, clip, clip');
    assert y - stale + (stale - settled) == y - settled;
  }

  // ---- The two passes against one ----

  lemma {:induction false} SameSkeletonAsDirect(
      screen: Screen, c: Component, x: int, y: int, width: int, height: Option<int>, clip: Rect, clip': Rect)
    ensures Skeleton(LayoutComponent(screen, c, x, y, width, height, clip))
         == Skeleton(Direct(screen, c, x, y, width, height, clip'))
    decreases c
  {
    hide ColumnSizes, RowSizes, RowHeights, UpdateLayout, Offset, ContentWidth, UpdateClips, Intersect, Translate;
    var a := LayoutComponent(screen, c, x, y, width, height, clip);
    var b := Direct(screen, c, x, y, width, height, clip');
    var w := Max(1, width);
    match c {
      case Leaf(_) =>
      case Scroll(_, view, content) =>
        var inner := LayoutComponent(screen, content, x, y - view.scrollTop, ContentWidth(view, w), None, clip);
        LayoutRect(screen, content, x, y - view.scrollTop, ContentWidth(view, w), None, clip);
        var top := b.scroll.value.scrollTop;
        assert a.scroll == b.scroll;
        calc {
          Skeleton(a.children[0]);
          { UpdateClipsSkeleton(Translate(inner, view.scrollTop - top), a.clip); }
          Skeleton(Translate(inner, view.scrollTop - top));
          { StaleOffsetHarmless(screen, content, x, y, view.scrollTop, top, ContentWidth(view, w), None, clip, clip'); }
          Skeleton(LayoutComponent(screen, content, x, y - top, ContentWidth(view, w), None, clip'));
          { SameSkeletonAsDirect(screen, content, x, y - top, ContentWidth(view, w), None, clip', b.clip); }
          Skeleton(b.children[0]);
        }
        assert Skeleton(a).children == Skeleton(b).children;
      case VStack(_, entries, gap) =>
        var sizes := ColumnSizes(screen, c, w, height);
        forall i | 0 <= i < |entries| ensures Skeleton(a.children[i]) == Skeleton(b.children[i]) {
          SameSkeletonAsDirect(screen, entries[i].component, x, y + Offset(sizes, gap, i), w, Some(sizes[i]), a.clip, b.clip);
        }
        assert Skeleton(a).children == Skeleton(b).children;
      case HStack(_, entries, gap, align) =>
        var widths := RowSizes(screen, c, w);
        forall i | 0 <= i < |entries| ensures Skeleton(a.children[i]) == Skeleton(b.children[i]) {
          var h := ChildHeight(align, a.rect.height, RowHeights(screen, c, w)[i]);
          var childX := x + Offset(widths, gap, i);
          var childY := y + ChildTop(align, a.rect.height, h);
          if widths[i] != 0 {
            SameSkeletonAsDirect(screen, entries[i].component, childX, childY, widths[i], Some(h), a.clip, b.clip);
          }
        }
        assert Skeleton(a).children == Skeleton(b).children;
    }
  }

  lemma {:induction false} DirectClipExact(screen: Screen, c: Component, x: int, y: int, width: int, height: Option<int>, clip: Rect)
    ensures ClipExact(Direct(screen, c, x, y, width, height, clip), clip)
    decreases c
  {
    hide ColumnSizes, RowSizes, RowHeights, NaturalHeight, UpdateLayout, Offset, ContentWidth, Intersect, ClipExact;
    var b := Direct(screen, c, x, y, width, height, clip);
    var w := Max(1, width);
    forall i | 0 <= i < |b.children| ensures ClipExact(b.children[i], b.clip) {
      match c
      case Leaf(_) =>
      case Scroll(_, view, content) =>
        DirectClipExact(screen, content, x, y - b.scroll.value.scrollTop, ContentWidth(view, w), None, b.clip);
      case VStack(_, entries, gap) =>
        var sizes := ColumnSizes(screen, c, w, height);
        DirectClipExact(screen, entries[i].component, x, y + Offset(sizes, gap, i), w, Some(sizes[i]), b.clip);
      case HStack(_, entries, gap, align) =>
        var widths := RowSizes(screen, c, w);
        var h := ChildHeight(align, b.rect.height, RowHeights(screen, c, w)[i]);
        var childX := x + Offset(widths, gap, i);
        var childY := y + ChildTop(align, b.rect.height, h);
        if widths[i] != 0 {
          DirectClipExact(screen, entries[i].component, childX, childY, widths[i], Some(h), b.clip);
        } else {
          FromChildren(b.children[i], b.clip);
        }
    }
    FromChildren(b, clip);
  }

  /** The two passes place every box, and clip it to the same points, as the single pass that knows the heights. */
  lemma TwoPassesAreDirect(screen: Screen, c: Component, x: int, y: int, width: int, height: Option<int>, clip: Rect)
    ensures var a := LayoutComponent(screen, c, x, y, width, height, clip);
            var b := Direct(screen, c, x, y, width, height, clip);
            Skeleton(a) == Skeleton(b) && ClipsAgree(a, b)
  {
    hide LayoutComponent, Direct, Skeleton, ClipsAgree, ClipExact;
    var a := LayoutComponent(screen, c, x, y, width, height, clip);
    var b := Direct(screen, c, x, y, width, height, clip);
    SameSkeletonAsDirect(screen, c, x, y, width, height, clip, clip);
    LayoutClipExact(screen, c, x, y, width, height, clip);
    DirectClipExact(screen, c, x, y, width, height, clip);
    ExactClipsAgree(a, clip, b, clip);
  }

  // ---- Siblings ----

  lemma {:induction false} DirectApart(screen: Screen, c: Component, x: int, y: int, width: int, height: Option<int>, clip: Rect)
    ensures SiblingsApart(Direct(screen, c, x, y, width, height, clip))
    decreases c
  {
    hide ColumnSizes, RowSizes, RowHeights, NaturalHeight, UpdateLayout, Offset, ContentWidth, Intersect;
    var b := Direct(screen, c, x, y, width, height, clip);
    var w := Max(1, width);
    match c {
      case Leaf(_) =>
      case Scroll(_, view, content) =>
        DirectApart(screen, content, x, y - b.scroll.value.scrollTop, ContentWidth(view, w), None, b.clip);
      case VStack(_, entries, gap) =>
        var sizes := ColumnSizes(screen, c, w, height);
        forall i | 0 <= i < |entries|
          ensures SiblingsApart(b.children[i])
          ensures b.children[i].rect == Rect(x, y + Offset(sizes, gap, i), w, sizes[i])
        {
          DirectApart(screen, entries[i].component, x, y + Offset(sizes, gap, i), w, Some(sizes[i]), b.clip);
        }
        forall i, j | 0 <= i < j < |entries| ensures Apart(b.children[i].rect, b.children[j].rect) {
          OffsetsOrdered(sizes, gap, i, j);
        }
      case HStack(_, entries, gap, align) =>
        var widths := RowSizes(screen, c, w);
        forall i | 0 <= i < |entries|
          ensures SiblingsApart(b.children[i])
          ensures b.children[i].rect.x == x + Offset(widths, gap, i) && b.children[i].rect.width == widths[i]
        {
          var h := ChildHeight(align, b.rect.height, RowHeights(screen, c, w)[i]);
          var childX := x + Offset(widths, gap, i);
          var childY := y + ChildTop(align, b.rect.height, h);
          if widths[i] != 0 {
            DirectApart(screen, entries[i].component, childX, childY, widths[i], Some(h), b.clip);
          }
        }
        forall i, j | 0 <= i < j < |entries| ensures Apart(b.children[i].rect, b.children[j].rect) {
          OffsetsOrdered(widths, gap, i, j);
        }
    }
  }

  /** Children of a box never overlap, also below scroll views. */
  lemma LayoutApart(screen: Screen, c: Component, x: int, y: int, width: int, height: Option<int>, clip: Rect)
    ensures SiblingsApart(LayoutComponent(screen, c, x, y, width, height, clip))
  {
    hide LayoutComponent, Direct, Skeleton, SiblingsApart;
    SameSkeletonAsDirect(screen, c, x, y, width, height, clip, clip);
    DirectApart(screen, c, x, y, width, height, clip);
    ApartFromSkeleton(
      Direct(screen, c, x, y, width, height, clip), LayoutComponent(screen, c, x, y, width, height, clip));
  }

  // ---- The second frame ----

  lemma UpdateLayoutSettles(s: ScrollState, contentHeight: int, viewportHeight: int)
    ensures var r := UpdateLayout(s, contentHeight, viewportHeight);
            && UpdateLayout(r, contentHeight, viewportHeight) == r
            && (s.followingEnd ==> r.scrollTop == MaxScrollTop(contentHeight, viewportHeight) && r.followingEnd)
            && (!s.followingEnd && 0 <= s.scrollTop <= MaxScrollTop(contentHeight, viewportHeight) ==> r.scrollTop == s.scrollTop)
  {
  }

  /** The components as a frame leaves them: every scroll view it laid out holds its settled state. */
  function Settle(screen: Screen, c: Component, width: int, height: Option<int>): (r: Component)
    ensures r.id == c.id
    ensures c.Scroll? <==> r.Scroll?
    decreases c
  {
    var w := Max(1, width);
    match c
    case Leaf(_) => c
    case Scroll(id, view, content) =>
      Scroll(id, UpdateLayout(view, NaturalHeight(screen, c, w), HeightOf(screen, c, w, height)),
             Settle(screen, content, ContentWidth(view, w), None))
    case VStack(id, entries, gap) =>
      var sizes := ColumnSizes(screen, c, w, height);
      VStack(id, seq(|entries|, i requires 0 <= i < |entries| =>
               Entry(Settle(screen, entries[i].component, w, Some(sizes[i])), entries[i].flex)), gap)
    case HStack(id, entries, gap, align) =>
      var widths := RowSizes(screen, c, w);
      var heights := RowHeights(screen, c, w);
      var available := HeightOf(screen, c, w, height);
      HStack(id, seq(|entries|, i requires 0 <= i < |entries| =>
               if widths[i] == 0 then entries[i]
               else Entry(Settle(screen, entries[i].component, widths[i], Some(ChildHeight(align, available, heights[i]))),
                          entries[i].flex)), gap, align)
  }

  /** Settling scroll positions changes no size. */
  lemma {:induction false} SettleKeepsSizes(screen: Screen, c: Component, width: int, height: Option<int>, w: int, h: Option<int>)
    ensures var s := Settle(screen, c, width, height);
            && (c.VStack? ==> s.VStack? && s.gap == c.gap && |s.entries| == |c.entries|
                              && ColumnSizes(screen, s, w, h) == ColumnSizes(screen, c, w, h))
            && (c.HStack? ==> s.HStack? && s.gap == c.gap && s.align == c.align && |s.entries| == |c.entries|
                              && RowSizes(screen, s, w) == RowSizes(screen, c, w)
                              && RowHeights(screen, s, w) == RowHeights(screen, c, w))
  {
    hide AllocateStackSizes, UpdateLayout, HeightOf;
    var s := Settle(screen, c, width, height);
    if c.VStack? || c.HStack? {
      assert Flexes(s.entries) == Flexes(c.entries);
      forall i | 0 <= i < |c.entries| ensures s.entries[i].component.id == c.entries[i].component.id {
      }
      if c.VStack? {
        assert seq(|c.entries|, i requires 0 <= i < |c.entries| => screen.rows(s.entries[i].component.id, w))
            == seq(|c.entries|, i requires 0 <= i < |c.entries| => screen.rows(c.entries[i].component.id, w));
      } else {
        assert seq(|c.entries|, i requires 0 <= i < |c.entries| => screen.columns(s.entries[i].component.id, w))
            == seq(|c.entries|, i requires 0 <= i < |c.entries| => screen.columns(c.entries[i].component.id, w));
        assert RowHeights(screen, s, w) == RowHeights(screen, c, w);
      }
    }
  }

  lemma {:induction false} SettleKeepsHeight(screen: Screen, c: Component, width: int, height: Option<int>, w: int)
    ensures NaturalHeight(screen, Settle(screen, c, width, height), w) == NaturalHeight(screen, c, w)
    decreases c
  {
    hide AllocateStackSizes, ColumnSizes, RowHeights;
    SettleKeepsSizes(screen, c, width, height, w, None);
    if c.Scroll? {
      SettleKeepsHeight(screen, c.content, ContentWidth(c.view, Max(1, width)), None, Max(1, ContentWidth(c.view, w)));
    }
  }

  lemma {:induction false} SettledDirect(screen: Screen, c: Component, x: int, y: int, width: int, height: Option<int>, clip: Rect)
    ensures Direct(screen, Settle(screen, c, width, height), x, y, width, height, clip)
         == Direct(screen, c, x, y, width, height, clip)
    decreases c
  {
    hide AllocateStackSizes, ColumnSizes, RowHeights, RowSizes, Offset, Intersect, UpdateLayout, NaturalHeight;
    var w := Max(1, width);
    var s := Settle(screen, c, width, height);
    var a := Direct(screen, s, x, y, width, height, clip);
    var b := Direct(screen, c, x, y, width, height, clip);
    SettleKeepsSizes(screen, c, width, height, w, height);
    SettleKeepsHeight(screen, c, width, height, w);
    match c {
      case Leaf(_) =>
      case Scroll(_, view, content) =>
        UpdateLayoutSettles(view, NaturalHeight(screen, c, w), b.rect.height);
        UpdateLayoutKeepsBar(view, NaturalHeight(screen, c, w), b.rect.height, w);
        SettledDirect(screen, content, x, y - b.scroll.value.scrollTop, ContentWidth(view, w), None, b.clip);
      case VStack(_, entries, gap) =>
        var sizes := ColumnSizes(screen, c, w, height);
        forall i | 0 <= i < |entries| ensures a.children[i] == b.children[i] {
          SettledDirect(screen, entries[i].component, x, y + Offset(sizes, gap, i), w, Some(sizes[i]), b.clip);
        }
        assert a.children == b.children;
      case HStack(_, entries, gap, align) =>
        var widths := RowSizes(screen, c, w);
        forall i | 0 <= i < |entries| ensures a.children[i] == b.children[i] {
          var h := ChildHeight(align, b.rect.height, RowHeights(screen, c, w)[i]);
          var childX := x + Offset(widths, gap, i);
          var childY := y + ChildTop(align, b.rect.height, h);
          if widths[i] != 0 {
            SettledDirect(screen, entries[i].component, childX, childY, widths[i], Some(h), b.clip);
          }
        }
        assert a.children == b.children;
    }
  }

  lemma UpdateLayoutKeepsBar(s: ScrollState, contentHeight: int, viewportHeight: int, width: int)
    ensures ContentWidth(UpdateLayout(s, contentHeight, viewportHeight), width) == ContentWidth(s, width)
  {
  }

  /** A second frame at the same size moves nothing: positions settle at once. */
  lemma SecondFrameSame(screen: Screen, c: Component, x: int, y: int, width: int, height: Option<int>, clip: Rect)
    ensures var a := LayoutComponent(screen, Settle(screen, c, width, height), x, y, width, height, clip);
            var b := LayoutComponent(screen, c, x, y, width, height, clip);
            Skeleton(a) == Skeleton(b) && ClipsAgree(a, b)
  {
    hide LayoutComponent, Direct, Skeleton, ClipsAgree, ClipExact, Settle;
    var s := Settle(screen, c, width, height);
    SettledDirect(screen, c, x, y, width, height, clip);
    TwoPassesAreDirect(screen, c, x, y, width, height, clip);
    TwoPassesAreDirect(screen, s, x, y, width, height, clip);
    LayoutClipExact(screen, c, x, y, width, height, clip);
    LayoutClipExact(screen, s, x, y, width, height, clip);
    ExactClipsAgree(
      LayoutComponent(screen, s, x, y, width, height, clip), clip,
      LayoutComponent(screen, c, x, y, width, height, clip), clip);
  }
}
