/**
 * Layout boxes: rectangles, clips and the passes that move and re-clip a
 * laid-out tree (packages/tui/src/layout.ts).
 */
module Boxes {
  import opened Wrappers
  import opened Helpers

  datatype Rect = Rect(x: int, y: int, width: int, height: int)

  /** The part of a scroll view's state that layout reads and updates. */
  datatype ScrollState = ScrollState(
    scrollTop: int, followEnd: bool, followingEnd: bool, suppressedAtEnd: bool, scrollbarAlways: bool)

  /** Boxes carry the identity of their component; `scroll` is present on scroll views. */
  datatype Box = Box(id: nat, rect: Rect, clip: Rect, children: seq<Box>, scroll: Option<ScrollState>)

  predicate Contains(r: Rect, x: int, y: int) {
    r.x <= x < r.x + r.width && r.y <= y < r.y + r.height
  }

  function Intersect(a: Rect, b: Rect): (r: Rect)
    ensures forall x, y :: Contains(r, x, y) <==> Contains(a, x, y) && Contains(b, x, y)
    ensures r.width >= 0 && r.height >= 0
  {
    var x := Max(a.x, b.x);
    var y := Max(a.y, b.y);
    var right := Min(a.x + a.width, b.x + b.width);
    var bottom := Min(a.y + a.height, b.y + b.height);
    Rect(x, y, Max(0, right - x), Max(0, bottom - y))
  }

  function Shift(r: Rect, dy: int): Rect {
    r.(y := r.y + dy)
  }

  /** Move a tree down; the clips are left stale, as the code leaves them. */
  function Translate(b: Box, dy: int): Box {
    Box(b.id, Shift(b.rect, dy), b.clip,
        seq(|b.children|, i requires 0 <= i < |b.children| => Translate(b.children[i], dy)), b.scroll)
  }

  function UpdateClips(b: Box, parentClip: Rect): Box {
    var clip := Intersect(parentClip, b.rect);
    Box(b.id, b.rect, clip,
        seq(|b.children|, i requires 0 <= i < |b.children| => UpdateClips(b.children[i], clip)), b.scroll)
  }

  // ---- The tree-wide invariants ----

  ghost predicate SamePoints(a: Rect, b: Rect) {
    forall x, y :: Contains(a, x, y) <==> Contains(b, x, y)
  }

  /** A box's clip covers exactly its rect within the parent's clip, all the way down. */
  ghost predicate ClipExact(b: Box, parentClip: Rect) {
    && (forall x, y :: Contains(b.clip, x, y) <==> Contains(parentClip, x, y) && Contains(b.rect, x, y))
    && (forall i :: 0 <= i < |b.children| ==> ClipExact(b.children[i], b.clip))
  }

  ghost predicate Apart(a: Rect, b: Rect) {
    forall x, y :: !(Contains(a, x, y) && Contains(b, x, y))
  }

  /** No two children of the same box share a point, all the way down. */
  ghost predicate SiblingsApart(b: Box) {
    && (forall i, j :: 0 <= i < j < |b.children| ==> Apart(b.children[i].rect, b.children[j].rect))
    && (forall i :: 0 <= i < |b.children| ==> SiblingsApart(b.children[i]))
  }

  /** The tree without its clips: identities, rects and scroll positions. */
  function Skeleton(b: Box): Box {
    Box(b.id, b.rect, Rect(0, 0, 0, 0),
        seq(|b.children|, i requires 0 <= i < |b.children| => Skeleton(b.children[i])), b.scroll)
  }

  /** Two trees of the same shape whose corresponding clips cover the same points. */
  ghost predicate ClipsAgree(a: Box, b: Box) {
    && SamePoints(a.clip, b.clip)
    && |a.children| == |b.children|
    && forall i :: 0 <= i < |a.children| ==> ClipsAgree(a.children[i], b.children[i])
  }

  lemma {:induction false} TranslateSkeleton(b: Box, dy: int)
    ensures Skeleton(Translate(b, dy)) == Translate(Skeleton(b), dy)
  {
    forall i | 0 <= i < |b.children|
      ensures Skeleton(Translate(b, dy)).children[i] == Translate(Skeleton(b), dy).children[i]
    {
      TranslateSkeleton(b.children[i], dy);
    }
    assert Skeleton(Translate(b, dy)).children == Translate(Skeleton(b), dy).children;
  }

  lemma {:induction false} TranslateTwice(b: Box, d: int, e: int)
    ensures Translate(Translate(b, d), e) == Translate(b, d + e)
  {
    forall i | 0 <= i < |b.children|
      ensures Translate(Translate(b, d), e).children[i] == Translate(b, d + e).children[i]
    {
      TranslateTwice(b.children[i], d, e);
    }
    assert Translate(Translate(b, d), e).children == Translate(b, d + e).children;
  }

  lemma {:induction false} UpdateClipsSkeleton(b: Box, parentClip: Rect)
    ensures Skeleton(UpdateClips(b, parentClip)) == Skeleton(b)
  {
    var u := UpdateClips(b, parentClip);
    forall i | 0 <= i < |b.children| ensures Skeleton(u).children[i] == Skeleton(b).children[i] {
      UpdateClipsSkeleton(b.children[i], u.clip);
    }
    assert Skeleton(u).children == Skeleton(b).children;
  }

  /** Recomputed clips depend on nothing but the skeleton. */
  lemma {:induction false} ClipsFromSkeleton(a: Box, b: Box, parentClip: Rect)
    requires Skeleton(a) == Skeleton(b)
    ensures UpdateClips(a, parentClip) == UpdateClips(b, parentClip)
  {
    SkeletonParts(a, b);
    var clip := Intersect(parentClip, a.rect);
    forall i | 0 <= i < |a.children|
      ensures UpdateClips(a, parentClip).children[i] == UpdateClips(b, parentClip).children[i]
    {
      ClipsFromSkeleton(a.children[i], b.children[i], clip);
    }
    assert UpdateClips(a, parentClip).children == UpdateClips(b, parentClip).children;
  }

  lemma {:induction false} SkeletonParts(a: Box, b: Box)
    requires Skeleton(a) == Skeleton(b)
    ensures a.id == b.id && a.rect == b.rect && a.scroll == b.scroll && |a.children| == |b.children|
    ensures forall i :: 0 <= i < |a.children| ==> Skeleton(a.children[i]) == Skeleton(b.children[i])
  {
    assert |Skeleton(a).children| == |a.children| && |Skeleton(b).children| == |b.children|;
    forall i | 0 <= i < |a.children| ensures Skeleton(a.children[i]) == Skeleton(b.children[i]) {
      assert Skeleton(a).children[i] == Skeleton(b).children[i];
    }
  }

  lemma {:induction false} UpdateClipsExact(b: Box, parentClip: Rect)
    ensures ClipExact(UpdateClips(b, parentClip), parentClip)
  {
    var u := UpdateClips(b, parentClip);
    forall i | 0 <= i < |u.children| ensures ClipExact(u.children[i], u.clip) {
      UpdateClipsExact(b.children[i], u.clip);
    }
  }

  lemma {:induction false} ExactClipsAgree(a: Box, clipA: Rect, b: Box, clipB: Rect)
    requires Skeleton(a) == Skeleton(b)
    requires ClipExact(a, clipA) && ClipExact(b, clipB) && SamePoints(clipA, clipB)
    ensures ClipsAgree(a, b)
  {
    SkeletonParts(a, b);
    forall i | 0 <= i < |a.children| ensures ClipsAgree(a.children[i], b.children[i]) {
      ExactClipsAgree(a.children[i], a.clip, b.children[i], b.clip);
    }
  }

  lemma {:induction false} ApartFromSkeleton(a: Box, b: Box)
    requires Skeleton(a) == Skeleton(b) && SiblingsApart(a)
    ensures SiblingsApart(b)
  {
    SkeletonParts(a, b);
    forall i | 0 <= i < |b.children| ensures SiblingsApart(b.children[i]) && a.children[i].rect == b.children[i].rect {
      SkeletonParts(a.children[i], b.children[i]);
      ApartFromSkeleton(a.children[i], b.children[i]);
    }
  }

  lemma {:induction false} TranslateApart(b: Box, dy: int)
    requires SiblingsApart(b)
    ensures SiblingsApart(Translate(b, dy))
  {
    var t := Translate(b, dy);
    forall i, j | 0 <= i < j < |t.children| ensures Apart(t.children[i].rect, t.children[j].rect) {
      assert t.children[i] == Translate(b.children[i], dy);
      assert t.children[j] == Translate(b.children[j], dy);
      ShiftApart(b.children[i].rect, b.children[j].rect, dy);
    }
    forall i | 0 <= i < |t.children| ensures SiblingsApart(t.children[i]) {
      TranslateApart(b.children[i], dy);
    }
  }

  lemma ShiftApart(a: Rect, b: Rect, dy: int)
    requires Apart(a, b)
    ensures Apart(Shift(a, dy), Shift(b, dy))
  {
    forall x, y ensures !(Contains(Shift(a, dy), x, y) && Contains(Shift(b, dy), x, y)) {
      assert !(Contains(a, x, y - dy) && Contains(b, x, y - dy));
    }
  }
}
