/** Finding the boxes under a point (packages/tui/src/layout.ts, `getLayoutBoxesAt`, `getScrollViewsAt`). */
module HitTest {
  import opened Wrappers
  import opened Boxes
  import opened Layout
  import opened LayoutProofs

  /** A box of a tree together with the child indices that lead to it; its depth is their number. */
  datatype Hit = Hit(path: seq<nat>, box: Box)

  // ---- The walk of the code: a box whose clip misses the point hides its whole subtree ----

  function Visit(b: Box, x: int, y: int, path: seq<nat>): seq<Hit>
    decreases b, |b.children| + 1
  {
    if !Contains(b.clip, x, y) then [] else [Hit(path, b)] + VisitFrom(b, 0, x, y, path)
  }

  function VisitFrom(b: Box, i: nat, x: int, y: int, path: seq<nat>): seq<Hit>
    requires i <= |b.children|
    decreases b, |b.children| - i
  {
    if i == |b.children| then []
    else Visit(b.children[i], x, y, path + [i]) + VisitFrom(b, i + 1, x, y, path)
  }

  /** Deepest first, boxes of one depth in the order found: the order a stable sort gives. */
  function SortDeepest(hits: seq<Hit>): seq<Hit> {
    if hits == [] then [] else Insert(hits[0], SortDeepest(hits[1..]))
  }

  function Insert(h: Hit, sorted: seq<Hit>): seq<Hit> {
    if sorted == [] || |h.path| >= |sorted[0].path| then [h] + sorted
    else [sorted[0]] + Insert(h, sorted[1..])
  }

  function BoxesAt(root: Box, x: int, y: int): seq<Hit> {
    SortDeepest(Visit(root, x, y, []))
  }

  /** The same walk keeping only scroll views whose rect holds the point. */
  function VisitScrolls(b: Box, x: int, y: int, path: seq<nat>): seq<Hit>
    decreases b, |b.children| + 1
  {
    if !Contains(b.clip, x, y) then []
    else if b.scroll.Some? && Contains(b.rect, x, y) then [Hit(path, b)] + VisitScrollsFrom(b, 0, x, y, path)
    else VisitScrollsFrom(b, 0, x, y, path)
  }

  function VisitScrollsFrom(b: Box, i: nat, x: int, y: int, path: seq<nat>): seq<Hit>
    requires i <= |b.children|
    decreases b, |b.children| - i
  {
    if i == |b.children| then []
    else VisitScrolls(b.children[i], x, y, path + [i]) + VisitScrollsFrom(b, i + 1, x, y, path)
  }

  function ScrollViewsAt(root: Box, x: int, y: int): seq<Hit> {
    SortDeepest(VisitScrolls(root, x, y, []))
  }

  // ---- The meaning: filter all boxes of the tree ----

  function All(b: Box, path: seq<nat>): seq<Hit>
    decreases b, |b.children| + 1
  {
    [Hit(path, b)] + AllFrom(b, 0, path)
  }

  function AllFrom(b: Box, i: nat, path: seq<nat>): seq<Hit>
    requires i <= |b.children|
    decreases b, |b.children| - i
  {
    if i == |b.children| then [] else All(b.children[i], path + [i]) + AllFrom(b, i + 1, path)
  }

  function Under(hits: seq<Hit>, x: int, y: int): seq<Hit> {
    if hits == [] then []
    else if Contains(hits[0].box.clip, x, y) then [hits[0]] + Under(hits[1..], x, y)
    else Under(hits[1..], x, y)
  }

  function Scrolls(hits: seq<Hit>): seq<Hit> {
    if hits == [] then []
    else if hits[0].box.scroll.Some? then [hits[0]] + Scrolls(hits[1..])
    else Scrolls(hits[1..])
  }

  predicate ValidPath(b: Box, path: seq<nat>) {
    path != [] ==> path[0] < |b.children| && ValidPath(b.children[path[0]], path[1..])
  }

  function At(b: Box, path: seq<nat>): Box
    requires ValidPath(b, path)
  {
    if path == [] then b else At(b.children[path[0]], path[1..])
  }

  /** The walk order of the whole tree visits every box, once per path. */
  lemma {:induction false} AllVisitsEveryBox(b: Box, base: seq<nat>, path: seq<nat>)
    requires ValidPath(b, path)
    ensures Hit(base + path, At(b, path)) in All(b, base)
    decreases |path|
  {
    if path != [] {
      var i := path[0];
      AllVisitsEveryBox(b.children[i], base + [i], path[1..]);
      assert base + [i] + path[1..] == base + path;
      AllFromHas(b, 0, i, base, Hit(base + path, At(b, path)));
    } else {
      assert base + path == base;
    }
  }

  lemma {:induction false} AllFromHas(b: Box, from: nat, i: nat, base: seq<nat>, h: Hit)
    requires from <= i < |b.children| && h in All(b.children[i], base + [i])
    ensures h in AllFrom(b, from, base)
    decreases i - from
  {
    hide All;
    if from < i { AllFromHas(b, from + 1, i, base, h); }
  }

  lemma {:induction false} UnderAppend(a: seq<Hit>, b: seq<Hit>, x: int, y: int)
    ensures Under(a + b, x, y) == Under(a, x, y) + Under(b, x, y)
  {
    if a == [] {
      assert a + b == b;
    } else {
      assert (a + b)[0] == a[0] && (a + b)[1..] == a[1..] + b;
      UnderAppend(a[1..], b, x, y);
    }
  }

  lemma {:induction false} ScrollsAppend(a: seq<Hit>, b: seq<Hit>)
    ensures Scrolls(a + b) == Scrolls(a) + Scrolls(b)
  {
    if a == [] {
      assert a + b == b;
    } else {
      assert (a + b)[0] == a[0] && (a + b)[1..] == a[1..] + b;
      ScrollsAppend(a[1..], b);
    }
  }

  /** The children of a box, as far as the filter is concerned. */
  lemma {:induction false} VisitFromFilters(b: Box, i: nat, x: int, y: int, path: seq<nat>)
    requires i <= |b.children|
    requires forall k :: 0 <= k < |b.children| ==> ClipExact(b.children[k], b.clip)
    ensures VisitFrom(b, i, x, y, path) == Under(AllFrom(b, i, path), x, y)
    ensures !Contains(b.clip, x, y) ==> VisitFrom(b, i, x, y, path) == []
    decreases b, |b.children| - i
  {
    hide Visit, All, ClipExact, Contains;
    if i < |b.children| {
      PrunedWalkIsFilter(b.children[i], b.clip, x, y, path + [i]);
      VisitFromFilters(b, i + 1, x, y, path);
      UnderAppend(All(b.children[i], path + [i]), AllFrom(b, i + 1, path), x, y);
    }
  }

  /** Pruning loses no box and keeps the order, on every tree whose clips are exact. */
  lemma {:induction false} PrunedWalkIsFilter(b: Box, parentClip: Rect, x: int, y: int, path: seq<nat>)
    requires ClipExact(b, parentClip)
    ensures Visit(b, x, y, path) == Under(All(b, path), x, y)
    ensures !Contains(parentClip, x, y) ==> Visit(b, x, y, path) == []
    decreases b, |b.children| + 1
  {
    hide VisitFrom, AllFrom;
    VisitFromFilters(b, 0, x, y, path);
    assert All(b, path)[0] == Hit(path, b) && All(b, path)[1..] == AllFrom(b, 0, path);
  }

  /** The scroll walk is the box walk, scroll views only: the rect test never drops one. */
  lemma {:induction false} ScrollWalk(b: Box, parentClip: Rect, x: int, y: int, path: seq<nat>)
    requires ClipExact(b, parentClip)
    ensures VisitScrolls(b, x, y, path) == Scrolls(Visit(b, x, y, path))
    decreases b, |b.children| + 1
  {
    hide VisitFrom, VisitScrollsFrom;
    if Contains(b.clip, x, y) {
      ScrollWalkFrom(b, 0, x, y, path);
      ScrollsAppend([Hit(path, b)], VisitFrom(b, 0, x, y, path));
      assert Scrolls([Hit(path, b)]) == if b.scroll.Some? then [Hit(path, b)] else [];
    }
  }

  lemma {:induction false} ScrollWalkFrom(b: Box, i: nat, x: int, y: int, path: seq<nat>)
    requires i <= |b.children|
    requires forall k :: 0 <= k < |b.children| ==> ClipExact(b.children[k], b.clip)
    ensures VisitScrollsFrom(b, i, x, y, path) == Scrolls(VisitFrom(b, i, x, y, path))
    decreases b, |b.children| - i
  {
    hide Visit, VisitScrolls, ClipExact;
    if i < |b.children| {
      ScrollWalk(b.children[i], b.clip, x, y, path + [i]);
      ScrollWalkFrom(b, i + 1, x, y, path);
      ScrollsAppend(Visit(b.children[i], x, y, path + [i]), VisitFrom(b, i + 1, x, y, path));
    }
  }

  // ---- One chain from the root ----

  ghost predicate ChildOf(child: Hit, parent: Hit) {
    exists i :: 0 <= i < |parent.box.children|
      && child.path == parent.path + [i] && child.box == parent.box.children[i]
  }

  /** Each entry is a child of the one before it. */
  ghost predicate Descends(hits: seq<Hit>) {
    forall k :: 0 < k < |hits| ==> ChildOf(hits[k], hits[k - 1])
  }

  /** No child of the box contains the point. */
  ghost predicate Innermost(h: Hit, x: int, y: int) {
    forall i :: 0 <= i < |h.box.children| ==> !Contains(h.box.children[i].clip, x, y)
  }

  lemma {:induction false} VisitDescends(b: Box, parentClip: Rect, x: int, y: int, path: seq<nat>)
    requires ClipExact(b, parentClip) && SiblingsApart(b) && Contains(b.clip, x, y)
    ensures var hits := Visit(b, x, y, path);
            && hits != [] && hits[0] == Hit(path, b) && Descends(hits)
            && Innermost(hits[|hits| - 1], x, y)
    decreases b, |b.children| + 1
  {
    hide VisitFrom;
    VisitFromDescends(b, 0, x, y, path);
  }

  /** Below a box at most one child is entered. */
  lemma {:induction false} VisitFromDescends(b: Box, i: nat, x: int, y: int, path: seq<nat>)
    requires i <= |b.children|
    requires SiblingsApart(b)
    requires forall k :: 0 <= k < |b.children| ==> ClipExact(b.children[k], b.clip)
    ensures var hits := VisitFrom(b, i, x, y, path);
            && (forall k :: i <= k < |b.children| && hits == [] ==> !Contains(b.children[k].clip, x, y))
            && (hits != [] ==> ChildOf(hits[0], Hit(path, b)) && Descends(hits) && Innermost(hits[|hits| - 1], x, y))
    decreases b, |b.children| - i
  {
    hide Visit, Contains, ClipExact, Descends, Innermost;
    if i < |b.children| {
      var child := b.children[i];
      if Contains(child.clip, x, y) {
        VisitDescends(child, b.clip, x, y, path + [i]);
        OthersMiss(b, i, x, y);
        MissedRest(b, i + 1, x, y, path);
        assert VisitFrom(b, i, x, y, path) == Visit(child, x, y, path + [i]);
      } else {
        VisitFromDescends(b, i + 1, x, y, path);
        MissedOne(child, x, y, path + [i]);
        assert VisitFrom(b, i, x, y, path) == VisitFrom(b, i + 1, x, y, path);
      }
    }
  }

  lemma MissedOne(b: Box, x: int, y: int, path: seq<nat>)
    requires !Contains(b.clip, x, y)
    ensures Visit(b, x, y, path) == []
  {
  }

  lemma {:induction false} MissedRest(b: Box, i: nat, x: int, y: int, path: seq<nat>)
    requires i <= |b.children| && forall k :: i <= k < |b.children| ==> !Contains(b.children[k].clip, x, y)
    ensures VisitFrom(b, i, x, y, path) == []
    decreases |b.children| - i
  {
    if i < |b.children| { MissedRest(b, i + 1, x, y, path); }
  }

  lemma OthersMiss(b: Box, i: nat, x: int, y: int)
    requires i < |b.children| && SiblingsApart(b) && Contains(b.children[i].clip, x, y)
    requires forall k :: 0 <= k < |b.children| ==> ClipExact(b.children[k], b.clip)
    ensures forall k :: i < k < |b.children| ==> !Contains(b.children[k].clip, x, y)
  {
    forall k | i < k < |b.children| ensures !Contains(b.children[k].clip, x, y) {
      assert ClipExact(b.children[i], b.clip) && ClipExact(b.children[k], b.clip);
      assert Apart(b.children[i].rect, b.children[k].rect);
      assert Contains(b.children[i].rect, x, y);
    }
  }

  // ---- Sorting ----

  function Reverse(hits: seq<Hit>): (r: seq<Hit>)
    ensures |r| == |hits|
    ensures forall k :: 0 <= k < |hits| ==> r[k] == hits[|hits| - 1 - k]
  {
    if hits == [] then [] else Reverse(hits[1..]) + [hits[0]]
  }

  ghost predicate Deepening(hits: seq<Hit>) {
    forall i, j :: 0 <= i < j < |hits| ==> |hits[i].path| < |hits[j].path|
  }

  lemma {:induction false} DescendsDeepens(hits: seq<Hit>, i: nat, j: nat)
    requires Descends(hits) && i <= j < |hits|
    ensures |hits[j].path| == |hits[i].path| + (j - i)
    decreases j
  {
    if i < j { DescendsDeepens(hits, i, j - 1); assert ChildOf(hits[j], hits[j - 1]); }
  }

  lemma {:induction false} InsertLast(h: Hit, sorted: seq<Hit>)
    requires forall k :: 0 <= k < |sorted| ==> |h.path| < |sorted[k].path|
    ensures Insert(h, sorted) == sorted + [h]
  {
    if sorted != [] { InsertLast(h, sorted[1..]); }
  }

  lemma {:induction false} SortReverses(hits: seq<Hit>)
    requires Deepening(hits)
    ensures SortDeepest(hits) == Reverse(hits)
  {
    if hits != [] {
      SortReverses(hits[1..]);
      InsertLast(hits[0], Reverse(hits[1..]));
    }
  }

  lemma {:induction false} ScrollsOrder(hits: seq<Hit>)
    requires Deepening(hits)
    ensures Deepening(Scrolls(hits))
    ensures forall h :: h in Scrolls(hits) ==> h in hits
    ensures Reverse(Scrolls(hits)) == Scrolls(Reverse(hits))
  {
    if hits != [] {
      ScrollsOrder(hits[1..]);
      ScrollsAppend(Reverse(hits[1..]), [hits[0]]);
      var rest := Scrolls(hits[1..]);
      if hits[0].box.scroll.Some? {
        assert Scrolls(hits)[1..] == rest;
        forall k | 0 <= k < |rest| ensures |hits[0].path| < |rest[k].path| {
          assert rest[k] in hits[1..];
        }
        assert Scrolls([hits[0]]) == [hits[0]];
      } else {
        assert Scrolls([hits[0]]) == [];
      }
    }
  }

  // ---- The results ----

  /** A path from a box up to the root: every entry is a child of the next one, the last is the root. */
  ghost predicate ClimbsToRoot(hits: seq<Hit>, root: Box) {
    && hits != []
    && hits[|hits| - 1] == Hit([], root)
    && forall k :: 0 <= k < |hits| - 1 ==> ChildOf(hits[k], hits[k + 1])
  }

  /**
   * On every laid-out component the pruned, sorted hit test is a single
   * chain from the innermost box to the root, made of exactly the boxes of
   * the tree whose clip contains the point; and the scroll views found are
   * the scroll views of that chain in the same order.
   */
  lemma HitTestIsOneChain(screen: Screen, c: Component, left: int, top: int, width: int, height: Option<int>, clip: Rect, x: int, y: int)
    ensures var root := LayoutComponent(screen, c, left, top, width, height, clip);
            && BoxesAt(root, x, y) == Reverse(Under(All(root, []), x, y))
            && (BoxesAt(root, x, y) == [] <==> !(Contains(clip, x, y) && Contains(root.rect, x, y)))
            && (BoxesAt(root, x, y) != [] ==>
                  ClimbsToRoot(BoxesAt(root, x, y), root) && Innermost(BoxesAt(root, x, y)[0], x, y))
            && ScrollViewsAt(root, x, y) == Scrolls(BoxesAt(root, x, y))
  {
    hide LayoutComponent, VisitFrom, VisitScrolls, All, Under, Scrolls, Innermost, ChildOf;
    var root := LayoutComponent(screen, c, left, top, width, height, clip);
    LayoutClipExact(screen, c, left, top, width, height, clip);
    LayoutApart(screen, c, left, top, width, height, clip);
    PrunedWalkIsFilter(root, clip, x, y, []);
    ScrollWalk(root, clip, x, y, []);
    var hits := Visit(root, x, y, []);
    if Contains(root.clip, x, y) { VisitDescends(root, clip, x, y, []); }
    forall i, j | 0 <= i < j < |hits| ensures |hits[i].path| < |hits[j].path| {
      DescendsDeepens(hits, i, j);
    }
    SortReverses(hits);
    ScrollsOrder(hits);
    SortReverses(Scrolls(hits));
  }
}
