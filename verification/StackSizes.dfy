/**
 * Sharing out the main axis of a stack (packages/tui/src/components/stack.ts).
 *
 * Every entry starts from its clamped basis; the difference to the space on
 * offer is then handed out in rounds, in proportion to the grow weights, or
 * taken back in proportion to the shrink weights.  Weights and quotients are
 * exact real numbers.
 */
module StackSizes {
  import opened Wrappers
  import opened Helpers

  const MAX_SAFE_INTEGER: nat := 9007199254740991

  /** The sizing options of one entry; an absent basis means "auto". */
  datatype Flex = Flex(basis: Option<int>, grow: real := 0.0, shrink: real := 1.0, minSize: nat := 0,
                       maxSize: nat := MAX_SAFE_INTEGER)

  datatype Mode = Grow | Shrink

  function Sum(sizes: seq<nat>): nat {
    if sizes == [] then 0 else sizes[0] + Sum(sizes[1..])
  }

  function ClampSize(size: int, f: Flex): (r: nat)
    ensures Within(f, r)
    ensures Within(f, size) ==> r == size
  {
    Max(f.minSize, Min(Max(f.minSize, f.maxSize), Max(0, size)))
  }

  /** The range the options allow; a minimum above the maximum wins. */
  predicate Within(f: Flex, size: int) {
    f.minSize <= size <= Max(f.minSize, f.maxSize)
  }

  predicate Candidate(f: Flex, size: nat, mode: Mode) {
    match mode
    case Grow => f.grow > 0.0 && size < f.maxSize
    case Shrink => f.shrink > 0.0 && size > f.minSize
  }

  function Weight(f: Flex, size: nat, mode: Mode): real {
    match mode
    case Grow => f.grow
    case Shrink => f.shrink * (Max(1, size) as real)
  }

  function TotalWeight(flex: seq<Flex>, sizes: seq<nat>, mode: Mode): real
    requires |flex| == |sizes|
  {
    if flex == [] then 0.0
    else if Candidate(flex[0], sizes[0], mode)
    then Weight(flex[0], sizes[0], mode) + TotalWeight(flex[1..], sizes[1..], mode)
    else TotalWeight(flex[1..], sizes[1..], mode)
  }

  predicate AnyCandidate(flex: seq<Flex>, sizes: seq<nat>, mode: Mode)
    requires |flex| == |sizes|
  {
    exists i :: 0 <= i < |flex| && Candidate(flex[i], sizes[i], mode)
  }

  /** The proportional share of a weight, before rounding. */
  function ExactShare(left: nat, weight: real, total: real): (share: real)
    requires total > 0.0
    ensures share * total == left as real * weight
  {
    left as real * weight / total
  }

  /** What one candidate takes when `remaining` cells are still to move. */
  function Delta(f: Flex, size: nat, mode: Mode, remaining: nat, total: real): (d: nat)
    requires remaining > 0 && total > 0.0 && Candidate(f, size, mode)
    ensures 1 <= d <= remaining
    ensures mode.Grow? ==> size + d <= f.maxSize
    ensures mode.Shrink? ==> f.minSize <= size - d
  {
    var proposed := Max(1, ExactShare(remaining, Weight(f, size, mode), total).Floor);
    var capacity := if mode.Grow? then f.maxSize - size else size - f.minSize;
    Min(Min(remaining, proposed), capacity)
  }

  function Moved(size: nat, d: nat, mode: Mode): int {
    if mode.Grow? then size + d else size - d
  }

  /** One pass over the candidates, from the entry at the head of the lists on. */
  function Round(flex: seq<Flex>, sizes: seq<nat>, mode: Mode, remaining: nat, total: real): (r: (seq<nat>, nat))
    requires |flex| == |sizes| && total > 0.0
    ensures |r.0| == |sizes| && r.1 <= remaining
    ensures remaining > 0 && AnyCandidate(flex, sizes, mode) ==> r.1 < remaining
  {
    if flex == [] || remaining == 0 then (sizes, remaining)
    else if !Candidate(flex[0], sizes[0], mode) then
      var rest := Round(flex[1..], sizes[1..], mode, remaining, total);
      assert AnyCandidate(flex, sizes, mode) ==> AnyCandidate(flex[1..], sizes[1..], mode) by {
        if i :| 0 <= i < |flex| && Candidate(flex[i], sizes[i], mode) {
          assert flex[1..][i - 1] == flex[i] && sizes[1..][i - 1] == sizes[i];
        }
      }
      ([sizes[0]] + rest.0, rest.1)
    else
      var d := Delta(flex[0], sizes[0], mode, remaining, total);
      var rest := Round(flex[1..], sizes[1..], mode, remaining - d, total);
      ([Moved(sizes[0], d, mode)] + rest.0, rest.1)
  }

  lemma CandidateWeight(f: Flex, size: nat, mode: Mode)
    requires Candidate(f, size, mode)
    ensures Weight(f, size, mode) > 0.0
  {
  }

  lemma {:induction false} TotalNonNegative(flex: seq<Flex>, sizes: seq<nat>, mode: Mode)
    requires |flex| == |sizes|
    ensures TotalWeight(flex, sizes, mode) >= 0.0
  {
    hide Weight;
    if flex != [] {
      TotalNonNegative(flex[1..], sizes[1..], mode);
      if Candidate(flex[0], sizes[0], mode) { CandidateWeight(flex[0], sizes[0], mode); }
    }
  }

  lemma {:induction false} CandidateWeighs(flex: seq<Flex>, sizes: seq<nat>, mode: Mode)
    requires |flex| == |sizes| && AnyCandidate(flex, sizes, mode)
    ensures TotalWeight(flex, sizes, mode) > 0.0
  {
    hide Weight;
    TotalNonNegative(flex[1..], sizes[1..], mode);
    if Candidate(flex[0], sizes[0], mode) {
      CandidateWeight(flex[0], sizes[0], mode);
    } else {
      var i :| 0 <= i < |flex| && Candidate(flex[i], sizes[i], mode);
      assert flex[1..][i - 1] == flex[i] && sizes[1..][i - 1] == sizes[i];
      CandidateWeighs(flex[1..], sizes[1..], mode);
    }
  }

  function Distribute(flex: seq<Flex>, sizes: seq<nat>, mode: Mode, remaining: nat): (r: seq<nat>)
    requires |flex| == |sizes|
    ensures |r| == |sizes|
    decreases remaining
  {
    if remaining == 0 || !AnyCandidate(flex, sizes, mode) then sizes
    else
      CandidateWeighs(flex, sizes, mode);
      var round := Round(flex, sizes, mode, remaining, TotalWeight(flex, sizes, mode));
      Distribute(flex, round.0, mode, round.1)
  }

  function Starting(flex: seq<Flex>, intrinsic: seq<int>): (r: seq<nat>)
    requires |flex| == |intrinsic|
    ensures |r| == |flex|
  {
    seq(|flex|, i requires 0 <= i < |flex| => ClampSize((if flex[i].basis.Some? then flex[i].basis.value else intrinsic[i]), flex[i]))
  }

  /** The cells a stack of n entries has for its entries. */
  function ContentSize(n: nat, available: int, gap: nat): nat {
    Max(0, available - Max(0, n - 1) * gap)
  }

  function AllocateStackSizes(flex: seq<Flex>, intrinsic: seq<int>, available: Option<int>, gap: nat): (r: seq<nat>)
    requires |flex| == |intrinsic|
    ensures |r| == |flex|
  {
    var sizes := Starting(flex, intrinsic);
    if available.None? then sizes
    else
      var content := ContentSize(|flex|, available.value, gap);
      var total := Sum(sizes);
      if total < content then Distribute(flex, sizes, Grow, content - total)
      else Distribute(flex, sizes, Shrink, total - content)
  }

  // ---- What the sharing guarantees ----

  ghost predicate AllWithin(flex: seq<Flex>, sizes: seq<nat>) {
    |flex| == |sizes| && forall i :: 0 <= i < |flex| ==> Within(flex[i], sizes[i])
  }

  /** Every entry moved in the direction of the mode, or stayed. */
  ghost predicate MovedOneWay(before: seq<nat>, after: seq<nat>, mode: Mode) {
    |before| == |after|
    && forall i :: 0 <= i < |before| ==>
      if mode.Grow? then before[i] <= after[i] else after[i] <= before[i]
  }

  /** An entry without weight in this mode keeps its size. */
  ghost predicate InflexibleKept(flex: seq<Flex>, before: seq<nat>, after: seq<nat>, mode: Mode) {
    |flex| == |before| == |after|
    && forall i :: 0 <= i < |flex| ==>
      (if mode.Grow? then flex[i].grow else flex[i].shrink) <= 0.0 ==> before[i] == after[i]
  }

  ghost predicate Steps(flex: seq<Flex>, before: seq<nat>, after: seq<nat>, mode: Mode) {
    AllWithin(flex, after) && MovedOneWay(before, after, mode) && InflexibleKept(flex, before, after, mode)
  }

  ghost predicate StepsOne(f: Flex, before: nat, after: nat, mode: Mode) {
    && Within(f, after)
    && (if mode.Grow? then before <= after else after <= before)
    && ((if mode.Grow? then f.grow else f.shrink) <= 0.0 ==> before == after)
  }

  lemma StepsCons(flex: seq<Flex>, before: seq<nat>, after: seq<nat>, mode: Mode)
    requires |flex| == |before| == |after| > 0
    requires StepsOne(flex[0], before[0], after[0], mode) && Steps(flex[1..], before[1..], after[1..], mode)
    ensures Steps(flex, before, after, mode)
  {
    forall i | 0 <= i < |flex| ensures StepsOne(flex[i], before[i], after[i], mode) {
      if i > 0 {
        assert flex[1..][i - 1] == flex[i] && before[1..][i - 1] == before[i] && after[1..][i - 1] == after[i];
      }
    }
  }

  lemma {:induction false} RoundMoves(flex: seq<Flex>, sizes: seq<nat>, mode: Mode, remaining: nat, total: real)
    requires AllWithin(flex, sizes) && total > 0.0
    ensures var r := Round(flex, sizes, mode, remaining, total);
            Steps(flex, sizes, r.0, mode) && Sum(r.0) == Moved(Sum(sizes), remaining - r.1, mode)
  {
    hide Weight, Steps;
    if flex == [] || remaining == 0 {
      assert Steps(flex, sizes, sizes, mode) by { StepsSame(flex, sizes, mode); }
    } else {
      var head := if Candidate(flex[0], sizes[0], mode)
                  then Delta(flex[0], sizes[0], mode, remaining, total) else 0;
      RoundMoves(flex[1..], sizes[1..], mode, remaining - head, total);
      var rest := Round(flex[1..], sizes[1..], mode, remaining - head, total);
      var r := Round(flex, sizes, mode, remaining, total);
      assert r.0[1..] == rest.0 && r.0[0] == Moved(sizes[0], head, mode);
      StepsCons(flex, sizes, r.0, mode);
    }
  }

  lemma StepsSame(flex: seq<Flex>, sizes: seq<nat>, mode: Mode)
    requires AllWithin(flex, sizes)
    ensures Steps(flex, sizes, sizes, mode)
  {
  }

  /** All of the difference is placed, or nothing can take any more of it. */
  lemma {:induction false} DistributeMoves(flex: seq<Flex>, sizes: seq<nat>, mode: Mode, remaining: nat)
    requires AllWithin(flex, sizes)
    ensures var r := Distribute(flex, sizes, mode, remaining);
            && Steps(flex, sizes, r, mode)
            && (if mode.Grow? then Sum(sizes) <= Sum(r) <= Sum(sizes) + remaining
                else Sum(sizes) - remaining <= Sum(r) <= Sum(sizes))
            && (Sum(r) == Moved(Sum(sizes), remaining, mode) || !AnyCandidate(flex, r, mode))
    decreases remaining
  {
    if remaining == 0 || !AnyCandidate(flex, sizes, mode) {
    } else {
      CandidateWeighs(flex, sizes, mode);
      var total := TotalWeight(flex, sizes, mode);
      var round := Round(flex, sizes, mode, remaining, total);
      RoundMoves(flex, sizes, mode, remaining, total);
      DistributeMoves(flex, round.0, mode, round.1);
    }
  }

  /**
   * The stack is filled exactly whenever its entries allow it: every size
   * stays in its range, and the sizes add up to the content space, or they
   * fall short with every growing entry at its maximum, or they exceed it
   * with every shrinking entry at its minimum.
   */
  lemma AllocationFills(flex: seq<Flex>, intrinsic: seq<int>, available: int, gap: nat)
    requires |flex| == |intrinsic|
    ensures var sizes := AllocateStackSizes(flex, intrinsic, Some(available), gap);
            var content := ContentSize(|flex|, available, gap);
            && AllWithin(flex, sizes)
            && (Sum(sizes) < content ==> forall i :: 0 <= i < |flex| && flex[i].grow > 0.0 ==> sizes[i] >= flex[i].maxSize)
            && (Sum(sizes) > content ==> forall i :: 0 <= i < |flex| && flex[i].shrink > 0.0 ==> sizes[i] == flex[i].minSize)
            && (Sum(Starting(flex, intrinsic)) <= content ==>
                  Sum(sizes) <= content && Steps(flex, Starting(flex, intrinsic), sizes, Grow))
            && (Sum(Starting(flex, intrinsic)) >= content ==>
                  Sum(sizes) >= content && Steps(flex, Starting(flex, intrinsic), sizes, Shrink))
  {
    hide Sum, ContentSize, Round, Weight;
    var sizes := Starting(flex, intrinsic);
    var content := ContentSize(|flex|, available, gap);
    var mode := if Sum(sizes) < content then Grow else Shrink;
    var amount := if mode.Grow? then content - Sum(sizes) else Sum(sizes) - content;
    DistributeMoves(flex, sizes, mode, amount);
  }

  // ---- How the shares come about ----

  /** A size asked for, brought into the range of the entry. */
  ghost predicate Clamped(f: Flex, want: int, got: int) {
    && (want < f.minSize ==> got == f.minSize)
    && (Within(f, want) ==> got == want)
    && (want > f.minSize && want > f.maxSize ==> got == if f.maxSize < f.minSize then f.minSize else f.maxSize)
  }

  /** Where nothing is imposed, every entry has its basis, or what it renders without one, within its range;
    where something is, sharing starts from there. */
  lemma SizesStartFromBasis(flex: seq<Flex>, intrinsic: seq<int>, gap: nat)
    requires |flex| == |intrinsic|
    ensures AllocateStackSizes(flex, intrinsic, None, gap) == Starting(flex, intrinsic)
    ensures forall i :: 0 <= i < |flex| ==>
              Clamped(flex[i], if flex[i].basis.Some? then flex[i].basis.value else intrinsic[i], Starting(flex, intrinsic)[i])
  {
  }

  /** What a candidate weighs: its growth, or its shrinking times its size. */
  function Pull(f: Flex, size: nat, mode: Mode): real {
    if mode.Grow? then f.grow else f.shrink * (if size == 0 then 1.0 else size as real)
  }

  lemma {:induction false} TotalAppend(flex: seq<Flex>, sizes: seq<nat>, more: seq<Flex>, moreSizes: seq<nat>, mode: Mode)
    requires |flex| == |sizes| && |more| == |moreSizes|
    ensures TotalWeight(flex + more, sizes + moreSizes, mode) == TotalWeight(flex, sizes, mode) + TotalWeight(more, moreSizes, mode)
  {
    hide Weight, Candidate;
    if flex == [] {
      assert flex + more == more && sizes + moreSizes == moreSizes;
    } else {
      assert (flex + more)[0] == flex[0] && (flex + more)[1..] == flex[1..] + more;
      assert (sizes + moreSizes)[0] == sizes[0] && (sizes + moreSizes)[1..] == sizes[1..] + moreSizes;
      TotalAppend(flex[1..], sizes[1..], more, moreSizes, mode);
    }
  }

  /** The total is the sum over the entries that can still move. */
  lemma TotalOne(f: Flex, size: nat, mode: Mode)
    ensures var movable := if mode.Grow? then f.grow > 0.0 && size < f.maxSize else f.shrink > 0.0 && size > f.minSize;
            TotalWeight([f], [size], mode) == if movable then Pull(f, size, mode) else 0.0
  {
    assert [f][1..] == [] && [size][1..] == [];
  }

  /** What is left to share when a pass comes to an entry. */
  function RemainingAt(flex: seq<Flex>, sizes: seq<nat>, mode: Mode, remaining: nat, total: real, i: nat): (r: nat)
    requires i < |flex| == |sizes| && total > 0.0
    ensures r <= remaining
  {
    if i == 0 || remaining == 0 then remaining
    else
      var d := if Candidate(flex[0], sizes[0], mode) then Delta(flex[0], sizes[0], mode, remaining, total) else 0;
      RemainingAt(flex[1..], sizes[1..], mode, remaining - d, total, i - 1)
  }

  /** The share an entry gets of what is left: proportional to its weight, rounded down, at least one cell,
    and no more than is left or than its range allows. */
  ghost predicate FairShare(f: Flex, size: nat, after: nat, mode: Mode, left: nat, total: real)
    requires total > 0.0
  {
    var movable := if mode.Grow? then f.grow > 0.0 && size < f.maxSize else f.shrink > 0.0 && size > f.minSize;
    var share := if mode.Grow? then after - size else size - after;
    if left == 0 || !movable then after == size
    else
      && 1 <= share <= left
      && (mode.Grow? ==> after <= f.maxSize) && (mode.Shrink? ==> after >= f.minSize)
      && (var exact := ExactShare(left, Pull(f, size, mode), total);
          && share as real <= (if exact >= 1.0 then exact else 1.0)
          && (share < left && after != (if mode.Grow? then f.maxSize else f.minSize) ==> exact < (share + 1) as real))
  }

  lemma FairOne(f: Flex, size: nat, mode: Mode, left: nat, total: real)
    requires total > 0.0 && left > 0 && Candidate(f, size, mode)
    ensures FairShare(f, size, Moved(size, Delta(f, size, mode, left, total), mode), mode, left, total)
  {
    hide Pull, Weight, ExactShare;
    PullIsWeight(f, size, mode);
    var exact := ExactShare(left, Pull(f, size, mode), total);
    var d := Delta(f, size, mode, left, total);
    var capacity := if mode.Grow? then f.maxSize - size else size - f.minSize;
    assert d == Min(Min(left, Max(1, exact.Floor)), capacity);
    assert exact < (exact.Floor + 1) as real && exact.Floor as real <= exact;
    if d < left && d < capacity {
      assert exact < (d + 1) as real;
    }
    assert d as real <= if exact >= 1.0 then exact else 1.0;
  }

  lemma PullIsWeight(f: Flex, size: nat, mode: Mode)
    ensures Pull(f, size, mode) == Weight(f, size, mode)
  {
  }

  /** In every pass each entry gets its fair share of what the entries before it left. */
  lemma {:induction false} RoundIsFair(flex: seq<Flex>, sizes: seq<nat>, mode: Mode, remaining: nat, total: real, i: nat)
    requires i < |flex| == |sizes| && total > 0.0
    ensures FairShare(flex[i], sizes[i], Round(flex, sizes, mode, remaining, total).0[i], mode,
                      RemainingAt(flex, sizes, mode, remaining, total, i), total)
    decreases flex
  {
    hide FairShare, Delta, Weight;
    if remaining == 0 {
      NoShare(flex[i], sizes[i], mode, total);
    } else {
      var d := if Candidate(flex[0], sizes[0], mode) then Delta(flex[0], sizes[0], mode, remaining, total) else 0;
      if i == 0 {
        if Candidate(flex[0], sizes[0], mode) { FairOne(flex[0], sizes[0], mode, remaining, total); }
        else { NoCandidate(flex[0], sizes[0], mode, remaining, total); }
      } else {
        RoundIsFair(flex[1..], sizes[1..], mode, remaining - d, total, i - 1);
      }
    }
  }

  lemma NoShare(f: Flex, size: nat, mode: Mode, total: real)
    requires total > 0.0
    ensures FairShare(f, size, size, mode, 0, total)
  {
  }

  lemma NoCandidate(f: Flex, size: nat, mode: Mode, left: nat, total: real)
    requires total > 0.0 && !Candidate(f, size, mode)
    ensures FairShare(f, size, size, mode, left, total)
  {
  }

  /** Sharing goes pass by pass, each fair with respect to the total of what can still move. */
  lemma PassesAreFair(flex: seq<Flex>, sizes: seq<nat>, mode: Mode, remaining: nat) returns (after: seq<nat>, left: nat)
    requires |flex| == |sizes| && remaining > 0
    requires exists i :: 0 <= i < |flex| && (if mode.Grow? then flex[i].grow > 0.0 && sizes[i] < flex[i].maxSize
                                             else flex[i].shrink > 0.0 && sizes[i] > flex[i].minSize)
    ensures |after| == |flex| && left < remaining
    ensures Distribute(flex, sizes, mode, remaining) == Distribute(flex, after, mode, left)
    ensures TotalWeight(flex, sizes, mode) > 0.0
    ensures forall i :: 0 <= i < |flex| ==>
              FairShare(flex[i], sizes[i], after[i], mode, RemainingAt(flex, sizes, mode, remaining, TotalWeight(flex, sizes, mode), i),
                        TotalWeight(flex, sizes, mode))
  {
    hide FairShare, RemainingAt, TotalWeight, Round;
    var k :| 0 <= k < |flex| && (if mode.Grow? then flex[k].grow > 0.0 && sizes[k] < flex[k].maxSize
                                 else flex[k].shrink > 0.0 && sizes[k] > flex[k].minSize);
    assert Candidate(flex[k], sizes[k], mode);
    CandidateWeighs(flex, sizes, mode);
    var total := TotalWeight(flex, sizes, mode);
    after, left := Round(flex, sizes, mode, remaining, total).0, Round(flex, sizes, mode, remaining, total).1;
    forall i | 0 <= i < |flex|
      ensures FairShare(flex[i], sizes[i], after[i], mode, RemainingAt(flex, sizes, mode, remaining, total, i), total)
    {
      RoundIsFair(flex, sizes, mode, remaining, total, i);
    }
  }

  // ---- The loop that shares in place ----

  method SumWeights(flex: seq<Flex>, sizes: array<nat>, mode: Mode) returns (total: real)
    requires |flex| == sizes.Length
    ensures total == TotalWeight(flex, sizes[..], mode)
  {
    hide Weight;
    total := 0.0;
    var k := |flex|;
    while k > 0
      invariant 0 <= k <= |flex|
      invariant total == TotalWeight(flex[k..], sizes[k..], mode)
    {
      k := k - 1;
      assert flex[k..][1..] == flex[k + 1..] && sizes[k..][1..] == sizes[k + 1..];
      if Candidate(flex[k], sizes[k], mode) { total := total + Weight(flex[k], sizes[k], mode); }
    }
    assert flex[0..] == flex && sizes[0..] == sizes[..];
  }

  /** One entry of a pass, seen from the middle of it. */
  lemma RoundAt(flex: seq<Flex>, sizes: seq<nat>, mode: Mode, remaining: nat, total: real, i: nat)
    requires i < |flex| == |sizes| && total > 0.0 && remaining > 0
    ensures var d := if Candidate(flex[i], sizes[i], mode) then Delta(flex[i], sizes[i], mode, remaining, total) else 0;
            var next := Round(flex[i + 1..], sizes[i + 1..], mode, remaining - d, total);
            Round(flex[i..], sizes[i..], mode, remaining, total) ==
            ([if d == 0 then sizes[i] else Moved(sizes[i], d, mode)] + next.0, next.1)
  {
    hide Weight;
    assert flex[i..][1..] == flex[i + 1..] && sizes[i..][1..] == sizes[i + 1..];
  }

  /** One pass in place; `i` walks the entries, of which only candidates move. */
  method DistributeRound(flex: seq<Flex>, sizes: array<nat>, mode: Mode, amount: nat) returns (remaining: nat)
    requires |flex| == sizes.Length
    requires TotalWeight(flex, sizes[..], mode) > 0.0
    modifies sizes
    ensures sizes[..] == Round(flex, old(sizes[..]), mode, amount, TotalWeight(flex, old(sizes[..]), mode)).0
    ensures remaining == Round(flex, old(sizes[..]), mode, amount, TotalWeight(flex, old(sizes[..]), mode)).1
  {
    hide Round, TotalWeight;
    var total := SumWeights(flex, sizes, mode);
    remaining := ShareOut(flex, sizes, mode, amount, total);
  }

  /** The share of one entry; an entry that is no candidate takes none. */
  method TakeShare(f: Flex, sizes: array<nat>, i: nat, mode: Mode, remaining: nat, total: real) returns (left: nat)
    requires i < sizes.Length && remaining > 0 && total > 0.0
    modifies sizes
    ensures var d := if Candidate(f, old(sizes[i]), mode) then Delta(f, old(sizes[i]), mode, remaining, total) else 0;
            left == remaining - d && sizes[i] == (if d == 0 then old(sizes[i]) else Moved(old(sizes[i]), d, mode))
    ensures forall j :: 0 <= j < sizes.Length && j != i ==> sizes[j] == old(sizes[j])
  {
    hide Weight;
    left := remaining;
    if Candidate(f, sizes[i], mode) {
      var d := Delta(f, sizes[i], mode, remaining, total);
      sizes[i] := Moved(sizes[i], d, mode);
      left := remaining - d;
    }
  }

  method ShareOut(flex: seq<Flex>, sizes: array<nat>, mode: Mode, amount: nat, total: real) returns (remaining: nat)
    requires |flex| == sizes.Length && total > 0.0
    modifies sizes
    ensures sizes[..] == Round(flex, old(sizes[..]), mode, amount, total).0
    ensures remaining == Round(flex, old(sizes[..]), mode, amount, total).1
  {
    hide Round, Weight, Delta, Candidate, Max, Min, Moved;
    ghost var start := sizes[..];
    remaining := amount;
    var i := 0;
    ghost var goal := Round(flex, start, mode, amount, total);
    assert flex[0..] == flex && start[0..] == start;
    while i < |flex| && remaining > 0
      invariant 0 <= i <= |flex|
      invariant forall j :: i <= j < |flex| ==> sizes[j] == start[j]
      invariant goal.0 == sizes[..i] + Round(flex[i..], start[i..], mode, remaining, total).0
      invariant goal.1 == Round(flex[i..], start[i..], mode, remaining, total).1
    {
      ghost var done := sizes[..i];
      RoundAt(flex, start, mode, remaining, total, i);
      remaining := TakeShare(flex[i], sizes, i, mode, remaining, total);
      ghost var rest := Round(flex[i + 1..], start[i + 1..], mode, remaining, total).0;
      assert sizes[..i + 1] == done + [sizes[i]];
      assert done + ([sizes[i]] + rest) == done + [sizes[i]] + rest;
      i := i + 1;
    }
    RoundEnds(flex[i..], start[i..], mode, remaining, total);
    assert sizes[..] == sizes[..i] + start[i..];
  }

  lemma RoundEnds(flex: seq<Flex>, sizes: seq<nat>, mode: Mode, remaining: nat, total: real)
    requires |flex| == |sizes| && total > 0.0 && (flex == [] || remaining == 0)
    ensures Round(flex, sizes, mode, remaining, total) == (sizes, remaining)
  {
  }

  method DistributeInPlace(flex: seq<Flex>, sizes: array<nat>, mode: Mode, amount: nat)
    requires |flex| == sizes.Length
    modifies sizes
    ensures sizes[..] == Distribute(flex, old(sizes[..]), mode, amount)
  {
    var remaining := amount;
    while remaining > 0
      invariant Distribute(flex, sizes[..], mode, remaining) == Distribute(flex, old(sizes[..]), mode, amount)
      decreases remaining
    {
      var any := false;
      for k := 0 to |flex|
        invariant any <==> exists j :: 0 <= j < k && Candidate(flex[j], sizes[..][j], mode)
      {
        if Candidate(flex[k], sizes[k], mode) { any := true; }
      }
      if !any { return; }
      CandidateWeighs(flex, sizes[..], mode);
      remaining := DistributeRound(flex, sizes, mode, remaining);
    }
  }
}
