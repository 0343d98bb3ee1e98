/**
 * Layout boxes as objects that are built, moved and re-clipped in place
 * (packages/tui/src/layout.ts).  Each method is proved to leave exactly the
 * tree the corresponding function describes.
 */
module LayoutRuntime {
  import opened Wrappers
  import opened Helpers
  import opened Boxes
  import opened Layout
  import opened HitTest

  class LayoutBox {
    const id: nat
    var rect: Rect
    var clip: Rect
    var children: seq<LayoutBox>
    var parent: LayoutBox?
    var scroll: Option<ScrollState>
    ghost var footprint: set<LayoutBox>

    constructor (id: nat, rect: Rect, clip: Rect, scroll: Option<ScrollState>)
      ensures this.id == id && this.rect == rect && this.clip == clip && this.scroll == scroll
      ensures children == [] && parent == null && footprint == {this}
      ensures Shows(Box(id, rect, clip, [], scroll))
    {
      this.id, this.rect, this.clip, this.scroll := id, rect, clip, scroll;
      children, parent, footprint := [], null, {this};
    }

    /** The local part of `Shows`: this object's fields and its links to its children. */
    ghost predicate Linked(b: Box)
      reads this, footprint
    {
      && this in footprint
      && b.id == id && b.rect == rect && b.clip == clip && b.scroll == scroll
      && |children| == |b.children|
      && (forall i :: 0 <= i < |children| ==> children[i] in footprint)
      && (forall i :: 0 <= i < |children| ==>
            && children[i] in children[i].footprint && children[i].footprint <= footprint && this !in children[i].footprint
            && children[i].parent == this)
      && (forall i, j :: 0 <= i < j < |children| ==> children[i].footprint !! children[j].footprint)
    }

    /** This object and its descendants form the tree `b`, unshared and linked to their parents. */
    ghost predicate Shows(b: Box)
      reads this, footprint
      decreases b
    {
      Linked(b) && forall i :: 0 <= i < |children| ==> children[i].Shows(b.children[i])
    }
  }

  lemma Unfold(box: LayoutBox, b: Box)
    requires box.Shows(b)
    ensures box.Linked(b) && forall i :: 0 <= i < |box.children| ==> box.children[i].Shows(b.children[i])
  {
  }

  lemma Fold(box: LayoutBox, b: Box)
    requires box.Linked(b) && forall i :: 0 <= i < |box.children| ==> box.children[i].Shows(b.children[i])
    ensures box.Shows(b)
  {
  }

  lemma TranslateParts(b: Box, dy: int)
    ensures var t := Translate(b, dy);
            && t == Box(b.id, Shift(b.rect, dy), b.clip, t.children, b.scroll)
            && |t.children| == |b.children|
            && forall i :: 0 <= i < |b.children| ==> t.children[i] == Translate(b.children[i], dy)
  {
  }

  lemma UpdateClipsParts(b: Box, parentClip: Rect)
    ensures var u := UpdateClips(b, parentClip);
            && u == Box(b.id, b.rect, Intersect(parentClip, b.rect), u.children, b.scroll)
            && |u.children| == |b.children|
            && forall i :: 0 <= i < |b.children| ==> u.children[i] == UpdateClips(b.children[i], u.clip)
  {
  }

  method TranslateBox(box: LayoutBox, dy: int, ghost b: Box)
    requires box.Shows(b)
    modifies box.footprint
    ensures box.Shows(Translate(b, dy))
    ensures box.footprint == old(box.footprint) && box.parent == old(box.parent)
    decreases b
  {
    hide Translate, LayoutBox.Shows;
    TranslateParts(b, dy);
    Unfold(box, b);
    box.rect := Shift(box.rect, dy);
    for i := 0 to |box.children|
      invariant box.footprint == old(box.footprint) && box.children == old(box.children)
      invariant box.rect == Shift(b.rect, dy) && box.clip == b.clip && box.scroll == b.scroll
      invariant box.parent == old(box.parent)
      invariant forall j :: 0 <= j < |box.children| ==>
        box.children[j].footprint == old(box.children[j].footprint) && box.children[j].parent == box
      invariant forall j :: 0 <= j < i ==> box.children[j].Shows(Translate(b.children[j], dy))
      invariant forall j :: i <= j < |box.children| ==> box.children[j].Shows(b.children[j])
    {
      TranslateBox(box.children[i], dy, b.children[i]);
    }
    Fold(box, Translate(b, dy));
  }

  method UpdateBoxClips(box: LayoutBox, parentClip: Rect, ghost b: Box)
    requires box.Shows(b)
    modifies box.footprint
    ensures box.Shows(UpdateClips(b, parentClip))
    ensures box.footprint == old(box.footprint) && box.parent == old(box.parent)
    decreases b
  {
    hide Intersect, UpdateClips, LayoutBox.Shows;
    UpdateClipsParts(b, parentClip);
    Unfold(box, b);
    box.clip := Intersect(parentClip, box.rect);
    for i := 0 to |box.children|
      invariant box.footprint == old(box.footprint) && box.children == old(box.children)
      invariant box.rect == b.rect && box.clip == Intersect(parentClip, b.rect) && box.scroll == b.scroll
      invariant box.parent == old(box.parent)
      invariant forall j :: 0 <= j < |box.children| ==>
        box.children[j].footprint == old(box.children[j].footprint) && box.children[j].parent == box
      invariant forall j :: 0 <= j < i ==> box.children[j].Shows(UpdateClips(b.children[j], box.clip))
      invariant forall j :: i <= j < |box.children| ==> box.children[j].Shows(b.children[j])
    {
      UpdateBoxClips(box.children[i], box.clip, b.children[i]);
    }
    Fold(box, UpdateClips(b, parentClip));
  }

  /** Attach a finished child at the end of a box's children. */
  method AdoptChild(box: LayoutBox, child: LayoutBox, ghost b: Box, ghost childBox: Box)
    requires box.Shows(b) && child.Shows(childBox) && box.footprint !! child.footprint
    modifies box, child
    ensures box.Shows(b.(children := b.children + [childBox]))
    ensures box.footprint == old(box.footprint) + old(child.footprint)
    ensures box.parent == old(box.parent) && box.clip == old(box.clip)
  {
    hide LayoutBox.Shows;
    Unfold(box, b);
    Unfold(child, childBox);
    child.parent := box;
    assert forall i :: 0 <= i < |box.children| ==> box.children[i].Shows(b.children[i]);
    Fold(child, childBox);
    box.children := box.children + [child];
    box.footprint := box.footprint + child.footprint;
    Fold(box, b.(children := b.children + [childBox]));
  }

  method LayoutBoxes(screen: Screen, c: Component, x: int, y: int, width: int, height: Option<int>, clip: Rect)
    returns (box: LayoutBox)
    ensures fresh(box) && fresh(box.footprint) && box.parent == null
    ensures box.Shows(LayoutComponent(screen, c, x, y, width, height, clip))
    decreases c, 2
  {
    hide ColumnSizes, RowSizes, RowHeights, NaturalHeight, UpdateLayout, Offset, ContentWidth, Intersect;
    match c {
      case Leaf(id) =>
        var w := Max(1, width);
        var rect := Rect(x, y, w, HeightOf(screen, c, w, height));
        box := new LayoutBox(id, rect, Intersect(clip, rect), None);
      case Scroll(_, _, _) =>
        box := LayoutScroll(screen, c, x, y, width, height, clip);
      case VStack(_, _, _) =>
        box := LayoutColumn(screen, c, x, y, width, height, clip);
      case HStack(_, _, _, _) =>
        box := LayoutRow(screen, c, x, y, width, height, clip);
    }
  }

  lemma ScrollGoal(screen: Screen, c: Component, x: int, y: int, width: int, height: Option<int>, clip: Rect)
    requires c.Scroll?
    ensures var w := Max(1, width);
            var inner := LayoutComponent(screen, c.content, x, y - c.view.scrollTop, ContentWidth(c.view, w), None, clip);
            var viewportHeight := if height.Some? then Max(0, height.value) else inner.rect.height;
            var settled := UpdateLayout(c.view, inner.rect.height, viewportHeight);
            var rect := Rect(x, y, w, viewportHeight);
            var placed := UpdateClips(Translate(inner, c.view.scrollTop - settled.scrollTop), Intersect(clip, rect));
            LayoutComponent(screen, c, x, y, width, height, clip)
            == Box(c.id, rect, Intersect(clip, rect), [placed], Some(settled))
  {
    hide UpdateLayout, ContentWidth, Intersect, Translate, UpdateClips, Max;
  }

  method LayoutScroll(screen: Screen, c: Component, x: int, y: int, width: int, height: Option<int>, clip: Rect)
    returns (box: LayoutBox)
    requires c.Scroll?
    ensures fresh(box) && fresh(box.footprint) && box.parent == null
    ensures box.Shows(LayoutComponent(screen, c, x, y, width, height, clip))
    decreases c, 0
  {
    hide LayoutBox.Shows, LayoutComponent, UpdateLayout, ContentWidth, Intersect, Translate, UpdateClips, Max;
    var w := Max(1, width);
    var view := c.view;
    var child := LayoutBoxes(screen, c.content, x, y - view.scrollTop, ContentWidth(view, w), None, clip);
    ghost var inner := LayoutComponent(screen, c.content, x, y - view.scrollTop, ContentWidth(view, w), None, clip);
    Unfold(child, inner);
    var viewportHeight := if height.Some? then Max(0, height.value) else child.rect.height;
    var settled := UpdateLayout(view, child.rect.height, viewportHeight);
    TranslateBox(child, view.scrollTop - settled.scrollTop, inner);
    var rect := Rect(x, y, w, viewportHeight);
    var childClip := Intersect(clip, rect);
    box := new LayoutBox(c.id, rect, childClip, Some(settled));
    UpdateBoxClips(child, childClip, Translate(inner, view.scrollTop - settled.scrollTop));
    ghost var placed := UpdateClips(Translate(inner, view.scrollTop - settled.scrollTop), childClip);
    ghost var outer := Box(c.id, rect, childClip, [], Some(settled));
    AdoptChild(box, child, outer, placed);
    ScrollGoal(screen, c, x, y, width, height, clip);
    assert [] + [placed] == [placed];
  }

  method PlaceChild(screen: Screen, c: Component, x: int, y: int, width: int, height: Option<int>, box: LayoutBox, ghost b: Box)
    requires box.Shows(b)
    modifies box
    ensures box.Shows(b.(children := b.children + [LayoutComponent(screen, c, x, y, width, height, old(box.clip))]))
    ensures fresh(box.footprint - old(box.footprint))
    ensures box.parent == old(box.parent) && box.clip == old(box.clip)
    decreases c, 3
  {
    hide LayoutComponent;
    var child := LayoutBoxes(screen, c, x, y, width, height, box.clip);
    AdoptChild(box, child, b, LayoutComponent(screen, c, x, y, width, height, box.clip));
  }

  /** An entry without width gets a box of its own, but is not laid out. */
  method PlaceEmpty(id: nat, x: int, y: int, height: nat, box: LayoutBox, ghost b: Box)
    requires box.Shows(b)
    modifies box
    ensures box.Shows(b.(children := b.children + [EmptyBox(id, x, y, height)]))
    ensures fresh(box.footprint - old(box.footprint))
    ensures box.parent == old(box.parent) && box.clip == old(box.clip)
  {
    var child := new LayoutBox(id, Rect(x, y, 0, height), Rect(x, y, 0, 0), None);
    AdoptChild(box, child, b, EmptyBox(id, x, y, height));
  }

  /** A laid-out column: its own box, and its i-th entry. */
  lemma ColumnGoal(screen: Screen, c: Component, x: int, y: int, width: int, height: Option<int>, clip: Rect, i: nat)
    requires c.VStack?
    ensures var goal := LayoutComponent(screen, c, x, y, width, height, clip);
            var w := Max(1, width);
            var sizes := ColumnSizes(screen, c, w, height);
            var rect := Rect(x, y, w, HeightOf(screen, c, w, height));
            && goal == Box(c.id, rect, Intersect(clip, rect), goal.children, None)
            && |goal.children| == |c.entries|
            && (i < |c.entries| ==>
                 goal.children[..i + 1] == goal.children[..i] +
                 [LayoutComponent(screen, c.entries[i].component, x, y + Offset(sizes, c.gap, i), w, Some(sizes[i]), goal.clip)])
  {
    hide ColumnSizes, HeightOf, Intersect, Max, Offset;
  }

  function RowChild(screen: Screen, c: Component, x: int, y: int, w: int, available: nat, own: Rect, i: nat): Box
    requires c.HStack? && i < |c.entries|
  {
    var widths := RowSizes(screen, c, w);
    var h := ChildHeight(c.align, available, RowHeights(screen, c, w)[i]);
    var childX := x + Offset(widths, c.gap, i);
    var childY := y + ChildTop(c.align, available, h);
    if widths[i] == 0 then EmptyBox(c.entries[i].component.id, childX, childY, h)
    else LayoutComponent(screen, c.entries[i].component, childX, childY, widths[i], Some(h), own)
  }

  /** A laid-out row: its own box, and its i-th entry. */
  lemma RowGoal(screen: Screen, c: Component, x: int, y: int, width: int, height: Option<int>, clip: Rect, i: nat)
    requires c.HStack?
    ensures var goal := LayoutComponent(screen, c, x, y, width, height, clip);
            var w := Max(1, width);
            var available := HeightOf(screen, c, w, height);
            var rect := Rect(x, y, w, available);
            && goal == Box(c.id, rect, Intersect(clip, rect), goal.children, None)
            && |goal.children| == |c.entries|
            && (i < |c.entries| ==>
                 goal.children[..i + 1] == goal.children[..i] + [RowChild(screen, c, x, y, w, available, goal.clip, i)])
  {
    hide RowSizes, RowHeights, HeightOf, Intersect, Max, Offset;
  }

  method LayoutColumn(screen: Screen, c: Component, x: int, y: int, width: int, height: Option<int>, clip: Rect)
    returns (box: LayoutBox)
    requires c.VStack?
    ensures fresh(box) && fresh(box.footprint) && box.parent == null
    ensures box.Shows(LayoutComponent(screen, c, x, y, width, height, clip))
    decreases c, 0
  {
    hide LayoutBox.Shows, LayoutComponent, ColumnSizes, HeightOf, Intersect, Max;
    var w := Max(1, width);
    var sizes := ColumnSizes(screen, c, w, height);
    var rect := Rect(x, y, w, HeightOf(screen, c, w, height));
    box := new LayoutBox(c.id, rect, Intersect(clip, rect), None);
    ghost var goal := LayoutComponent(screen, c, x, y, width, height, clip);
    ColumnGoal(screen, c, x, y, width, height, clip, 0);
    var childY := y;
    for i := 0 to |c.entries|
      invariant childY == y + Offset(sizes, c.gap, i)
      invariant fresh(box) && fresh(box.footprint) && box.parent == null
      invariant box.clip == goal.clip
      invariant box.Shows(goal.(children := goal.children[..i]))
    {
      ColumnGoal(screen, c, x, y, width, height, clip, i);
      PlaceChild(screen, c.entries[i].component, x, childY, w, Some(sizes[i]), box, goal.(children := goal.children[..i]));
      childY := childY + sizes[i] + c.gap;
    }
    assert goal.children[..|c.entries|] == goal.children;
  }

  method PlaceRowChild(screen: Screen, c: Component, ghost x: int, y: int, ghost w: int, available: nat,
                       childX: int, widths: seq<nat>, heights: seq<nat>, i: nat, box: LayoutBox, ghost b: Box)
    requires c.HStack? && i < |c.entries|
    requires widths == RowSizes(screen, c, w) && heights == RowHeights(screen, c, w)
    requires childX == x + Offset(widths, c.gap, i)
    requires box.Shows(b)
    modifies box
    ensures box.Shows(b.(children := b.children + [RowChild(screen, c, x, y, w, available, old(box.clip), i)]))
    ensures fresh(box.footprint - old(box.footprint))
    ensures box.parent == old(box.parent) && box.clip == old(box.clip)
    decreases c, 0
  {
    hide LayoutBox.Shows, LayoutComponent, RowSizes, RowHeights, Offset;
    var childHeight := ChildHeight(c.align, available, heights[i]);
    var childY := y + ChildTop(c.align, available, childHeight);
    if widths[i] == 0 {
      PlaceEmpty(c.entries[i].component.id, childX, childY, childHeight, box, b);
    } else {
      PlaceChild(screen, c.entries[i].component, childX, childY, widths[i], Some(childHeight), box, b);
    }
  }

  method LayoutRow(screen: Screen, c: Component, x: int, y: int, width: int, height: Option<int>, clip: Rect)
    returns (box: LayoutBox)
    requires c.HStack?
    ensures fresh(box) && fresh(box.footprint) && box.parent == null
    ensures box.Shows(LayoutComponent(screen, c, x, y, width, height, clip))
    decreases c, 1
  {
    hide LayoutBox.Shows, LayoutComponent, RowChild, RowSizes, RowHeights, HeightOf, Intersect, Max;
    var w := Max(1, width);
    var widths := RowSizes(screen, c, w);
    var heights := RowHeights(screen, c, w);
    var available := HeightOf(screen, c, w, height);
    var rect := Rect(x, y, w, available);
    box := new LayoutBox(c.id, rect, Intersect(clip, rect), None);
    ghost var goal := LayoutComponent(screen, c, x, y, width, height, clip);
    RowGoal(screen, c, x, y, width, height, clip, 0);
    var childX := x;
    for i := 0 to |c.entries|
      invariant childX == x + Offset(widths, c.gap, i)
      invariant fresh(box) && fresh(box.footprint) && box.parent == null
      invariant box.clip == goal.clip
      invariant box.Shows(goal.(children := goal.children[..i]))
    {
      RowGoal(screen, c, x, y, width, height, clip, i);
      PlaceRowChild(screen, c, x, y, w, available, childX, widths, heights, i, box, goal.(children := goal.children[..i]));
      childX := childX + widths[i] + c.gap;
    }
    assert goal.children[..|c.entries|] == goal.children;
  }

  // ---- Hit testing ----

  /** A box found by the walk, with its depth. */
  datatype Found = Found(box: LayoutBox, depth: nat)

  /** The parent links lead from `box` up to `root` along `path`. */
  ghost predicate Leads(root: LayoutBox, path: seq<nat>, box: LayoutBox)
    reads *
    decreases |path|
  {
    if path == [] then box == root
    else
      var last := path[|path| - 1];
      && box.parent != null
      && last < |box.parent.children| && box.parent.children[last] == box
      && Leads(root, path[..|path| - 1], box.parent)
  }

  ghost predicate Tied(root: LayoutBox, found: seq<Found>, hits: seq<Hit>)
    reads *
  {
    && |found| == |hits|
    && forall k :: 0 <= k < |found| ==>
      found[k].depth == |hits[k].path| && found[k].box.Shows(hits[k].box) && Leads(root, hits[k].path, found[k].box)
  }

  /** The recursive walk; the shared result list is threaded through. */
  method VisitBox(ghost root: LayoutBox, box: LayoutBox, depth: nat, x: int, y: int, sofar: seq<Found>,
                  ghost b: Box, ghost path: seq<nat>, ghost before: seq<Hit>)
    returns (found: seq<Found>)
    requires box.Shows(b) && depth == |path| && Leads(root, path, box)
    requires Tied(root, sofar, before)
    ensures Tied(root, found, before + Visit(b, x, y, path))
    decreases b
  {
    hide LayoutBox.Shows, Leads, VisitFrom;
    Unfold(box, b);
    found := sofar;
    if !Contains(box.clip, x, y) {
      assert before + [] == before;
      return;
    }
    found := found + [Found(box, depth)];
    ghost var hits := before + [Hit(path, b)];
    NoneLeft(b, x, y, path);
    for i := 0 to |box.children|
      invariant Tied(root, found, hits)
      invariant hits + VisitFrom(b, i, x, y, path) == before + Visit(b, x, y, path)
    {
      LeadsDown(root, path, box, i);
      FirstLeft(b, i, x, y, path);
      ghost var more := Visit(b.children[i], x, y, path + [i]);
      found := VisitBox(root, box.children[i], depth + 1, x, y, found, b.children[i], path + [i], hits);
      assert hits + (more + VisitFrom(b, i + 1, x, y, path)) == hits + more + VisitFrom(b, i + 1, x, y, path);
      hits := hits + more;
    }
  }

  lemma NoneLeft(b: Box, x: int, y: int, path: seq<nat>)
    ensures VisitFrom(b, |b.children|, x, y, path) == []
  {
  }

  lemma FirstLeft(b: Box, i: nat, x: int, y: int, path: seq<nat>)
    requires i < |b.children|
    ensures VisitFrom(b, i, x, y, path) == Visit(b.children[i], x, y, path + [i]) + VisitFrom(b, i + 1, x, y, path)
  {
    hide Visit;
  }

  lemma LeadsDown(root: LayoutBox, path: seq<nat>, box: LayoutBox, i: nat)
    requires Leads(root, path, box) && i < |box.children| && box.children[i].parent == box
    ensures Leads(root, path + [i], box.children[i])
  {
    assert (path + [i])[..|path|] == path;
  }

  lemma {:induction false} LeadsToOne(root: LayoutBox, path: seq<nat>, a: LayoutBox, b: LayoutBox)
    requires Leads(root, path, a) && Leads(root, path, b)
    ensures a == b
    decreases |path|
  {
    if path != [] { LeadsToOne(root, path[..|path| - 1], a.parent, b.parent); }
  }

  function InsertFound(f: Found, sorted: seq<Found>): seq<Found> {
    if sorted == [] || f.depth >= sorted[0].depth then [f] + sorted
    else [sorted[0]] + InsertFound(f, sorted[1..])
  }

  function SortFound(found: seq<Found>): seq<Found> {
    if found == [] then [] else InsertFound(found[0], SortFound(found[1..]))
  }

  lemma {:induction false} InsertTied(root: LayoutBox, f: Found, h: Hit, found: seq<Found>, hits: seq<Hit>)
    requires Tied(root, found, hits) && Tied(root, [f], [h])
    ensures Tied(root, InsertFound(f, found), Insert(h, hits))
    decreases |found|
  {
    hide LayoutBox.Shows, Leads;
    assert [f][0] == f && [h][0] == h;
    if found != [] { InsertTied(root, f, h, found[1..], hits[1..]); }
  }

  lemma {:induction false} SortTied(root: LayoutBox, found: seq<Found>, hits: seq<Hit>)
    requires Tied(root, found, hits)
    ensures Tied(root, SortFound(found), SortDeepest(hits))
    decreases |found|
  {
    hide LayoutBox.Shows, Leads;
    if found != [] {
      SortTied(root, found[1..], hits[1..]);
      InsertTied(root, found[0], hits[0], SortFound(found[1..]), SortDeepest(hits[1..]));
    }
  }

  /** The boxes under a point, as objects: those, and in the order, that `BoxesAt` describes. */
  method GetLayoutBoxesAt(root: LayoutBox, x: int, y: int, ghost b: Box) returns (boxes: seq<LayoutBox>)
    requires root.Shows(b)
    ensures var hits := BoxesAt(b, x, y);
            && |boxes| == |hits|
            && forall k :: 0 <= k < |hits| ==> boxes[k].Shows(hits[k].box) && Leads(root, hits[k].path, boxes[k])
  {
    hide LayoutBox.Shows, Visit, SortDeepest;
    var found := VisitBox(root, root, 0, x, y, [], b, [], []);
    assert [] + Visit(b, x, y, []) == Visit(b, x, y, []);
    SortTied(root, found, Visit(b, x, y, []));
    var sorted := SortFound(found);
    boxes := [];
    for i := 0 to |sorted|
      invariant |boxes| == i
      invariant forall k :: 0 <= k < i ==> boxes[k] == sorted[k].box
    {
      boxes := boxes + [sorted[i].box];
    }
  }

  /** On a laid-out tree the objects found are linked child to parent up to the root. */
  lemma FoundBoxesClimb(root: LayoutBox, boxes: seq<LayoutBox>, x: int, y: int,
                        screen: Screen, c: Component, left: int, top: int, width: int, height: Option<int>, clip: Rect)
    requires var hits := BoxesAt(LayoutComponent(screen, c, left, top, width, height, clip), x, y);
             |boxes| == |hits| && forall k :: 0 <= k < |hits| ==> Leads(root, hits[k].path, boxes[k])
    ensures boxes != [] ==> boxes[|boxes| - 1] == root
    ensures forall k :: 0 <= k < |boxes| - 1 ==> boxes[k].parent == boxes[k + 1]
  {
    hide LayoutComponent, BoxesAt;
    HitTestIsOneChain(screen, c, left, top, width, height, clip, x, y);
    var hits := BoxesAt(LayoutComponent(screen, c, left, top, width, height, clip), x, y);
    forall k | 0 <= k < |boxes| - 1 ensures boxes[k].parent == boxes[k + 1] {
      assert ChildOf(hits[k], hits[k + 1]);
      var path := hits[k].path;
      assert path[..|path| - 1] == hits[k + 1].path;
      LeadsToOne(root, hits[k + 1].path, boxes[k].parent, boxes[k + 1]);
    }
  }
}
