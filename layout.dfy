/** Horizontal layout of the icons from the current scale vector. */
module Layout {
  import opened Dimensions
  import opened Magnification

  /** Space one icon takes in the rendered row: its scaled width plus the gap. */
  function Stride(scale: real): (w: real)
    ensures scale >= 1.0 ==> w >= ItemBaseWidth + ItemGap
  {
    ItemBaseWidth * scale + ItemGap
  }

  /** Offset of icon `i`: the padding plus the strides of the icons before it. */
  function Offset(scales: seq<real>, i: nat): (o: real)
    requires i <= |scales|
    ensures (forall k :: 0 <= k < |scales| ==> scales[k] >= 1.0) ==>
              o >= ContainerPadding + (i as real) * (ItemBaseWidth + ItemGap)
  {
    if i == 0 then ContainerPadding else Offset(scales, i - 1) + Stride(scales[i - 1])
  }

  /** The position vector: one offset per entry of the scale vector. */
  function Positions(scales: seq<real>): (p: seq<real>)
    ensures |p| == |scales|
  {
    seq(|scales|, i requires 0 <= i < |scales| => Offset(scales, i))
  }

  /** Sum of the scaled widths of all icons, gaps excluded. */
  function SumWidths(scales: seq<real>): (w: real)
    ensures (forall k :: 0 <= k < |scales| ==> scales[k] >= 1.0) ==> w >= ItemBaseWidth * (|scales| as real)
    ensures (forall k :: 0 <= k < |scales| ==> scales[k] <= MaxScale) ==>
              w <= ItemBaseWidth * MaxScale * (|scales| as real)
  {
    if scales == [] then 0.0
    else SumWidths(scales[..|scales| - 1]) + ItemBaseWidth * scales[|scales| - 1]
  }

  /** Number of the first `n` icon indices that are followed by a gap in a dock of
      `iconCount` icons (an index below `iconCount - 1`). */
  function GapCount(n: nat, iconCount: nat): (g: nat)
    ensures g <= n
    ensures iconCount == n && n >= 1 ==> g == n - 1
    ensures iconCount == 0 ==> g == 0
  {
    if iconCount == 0 then 0 else if n <= iconCount - 1 then n else iconCount - 1
  }

  /** Width of the container: scaled widths, the gaps between icons, and the padding on both sides. */
  function TotalWidth(scales: seq<real>, iconCount: nat): (w: real)
    ensures iconCount == |scales| >= 1 && (forall k :: 0 <= k < |scales| ==> 1.0 <= scales[k] <= MaxScale) ==>
              54.0 * (|scales| as real) + 10.0 + 2.0 * ContainerPadding <= w &&
              w <= 118.0 * (|scales| as real) + 10.0 + 2.0 * ContainerPadding
  {
    SumWidths(scales) + (GapCount(|scales|, iconCount) as real) * ItemGap + 2.0 * ContainerPadding
  }

  /** The recurrence the position vector satisfies. */
  lemma PositionsRecurrence(scales: seq<real>)
    ensures |Positions(scales)| == |scales|
    ensures |scales| > 0 ==> Positions(scales)[0] == ContainerPadding
    ensures forall i :: 0 <= i < |scales| - 1 ==>
              Positions(scales)[i + 1] == Positions(scales)[i] + ItemBaseWidth * scales[i] + ItemGap
  {
  }

  /** Offset `i` in closed form: padding, the first `i` scaled widths and `i` gaps. */
  lemma {:induction false} OffsetClosedForm(scales: seq<real>, i: nat)
    requires i <= |scales|
    ensures Offset(scales, i) == ContainerPadding + SumWidths(scales[..i]) + (i as real) * ItemGap
  {
    if i > 0 {
      OffsetClosedForm(scales, i - 1);
      assert scales[..i][..i - 1] == scales[..i - 1];
    }
  }

  /** When every stride is positive, positions strictly increase. */
  lemma {:induction false} StrictlyIncreasingByStride(scales: seq<real>, i: nat, j: nat)
    requires forall k :: 0 <= k < |scales| ==> Stride(scales[k]) > 0.0
    requires i < j <= |scales|
    ensures Offset(scales, i) < Offset(scales, j)
  {
    if j > i + 1 {
      StrictlyIncreasingByStride(scales, i, j - 1);
    }
  }

  /** Every scale is at least 1, so every stride is at least 54 and positions strictly increase. */
  lemma PositionsIncreasing(scales: seq<real>)
    requires forall k :: 0 <= k < |scales| ==> scales[k] >= 1.0
    ensures forall i, j :: 0 <= i < j < |scales| ==> Positions(scales)[i] < Positions(scales)[j]
  {
    forall i, j | 0 <= i < j < |scales| ensures Positions(scales)[i] < Positions(scales)[j] {
      StrictlyIncreasingByStride(scales, i, j);
    }
  }

  /** With at least one icon, the total width ends where the last icon ends, plus the padding. */
  lemma TotalWidthFromPositions(scales: seq<real>)
    requires |scales| >= 1
    ensures TotalWidth(scales, |scales|)
            == Positions(scales)[|scales| - 1] + ItemBaseWidth * scales[|scales| - 1] + ContainerPadding
  {
    var n := |scales|;
    OffsetClosedForm(scales, n - 1);
    assert scales[..n] == scales;
  }

  /** An empty dock is as wide as its two paddings. */
  lemma EmptyDockWidth(iconCount: nat)
    ensures TotalWidth([], iconCount) == 2.0 * ContainerPadding
    ensures Positions([]) == []
  {
  }

  /** At rest the icons are evenly spaced, and the centres the magnification measures from are the
      centres of this rest layout, seen from inside the padding. */
  lemma {:induction false} RestLayout(n: nat, i: nat)
    requires i < n
    ensures Positions(RestScales(n))[i] == ContainerPadding + (i as real) * (ItemBaseWidth + ItemGap)
    ensures ItemCenter(i) + ContainerPadding == Positions(RestScales(n))[i] + ItemBaseWidth / 2.0
  {
    var r := RestScales(n);
    OffsetClosedForm(r, i);
    SumOfOnes(r, i);
  }

  /** The first `i` icons at rest take `64 * i`. */
  lemma {:induction false} SumOfOnes(r: seq<real>, i: nat)
    requires i <= |r|
    requires forall k :: 0 <= k < |r| ==> r[k] == 1.0
    ensures SumWidths(r[..i]) == (i as real) * ItemBaseWidth
  {
    if i > 0 {
      SumOfOnes(r, i - 1);
      assert r[..i][..i - 1] == r[..i - 1];
    }
  }

  /** At rest a dock of `n >= 1` icons is `54 * n + 10` wide (374 for six icons). */
  lemma RestWidth(n: nat)
    requires n >= 1
    ensures TotalWidth(RestScales(n), n) == (n as real) * (ItemBaseWidth + ItemGap) - ItemGap + 2.0 * ContainerPadding
  {
    var r := RestScales(n);
    SumOfOnes(r, n);
    assert r[..n] == r;
  }

  /** The positions loop: one offset per icon, each stride added after it is recorded. */
  method GetPositions(scales: seq<real>) returns (positions: seq<real>)
    ensures |positions| == |scales|
    ensures |scales| > 0 ==> positions[0] == ContainerPadding
    ensures forall i :: 0 <= i < |scales| - 1 ==>
              positions[i + 1] == positions[i] + ItemBaseWidth * scales[i] + ItemGap
    ensures positions == Positions(scales)
  {
    positions := [];
    var currentPosition := ContainerPadding;
    var index := 0;
    while index < |scales|
      invariant 0 <= index <= |scales|
      invariant |positions| == index
      invariant forall k :: 0 <= k < index ==> positions[k] == Offset(scales, k)
      invariant currentPosition == Offset(scales, index)
    {
      positions := positions + [currentPosition];
      var scaledWidth := ItemBaseWidth * scales[index];
      currentPosition := currentPosition + scaledWidth + ItemGap;
      index := index + 1;
    }
  }

  /** The total-width loop: every scaled width, a gap after every icon but the last of the
      `iconCount` icons, then both paddings. */
  method GetTotalWidth(scales: seq<real>, iconCount: nat) returns (width: real)
    ensures width == TotalWidth(scales, iconCount)
    ensures iconCount == |scales| && |scales| >= 1 ==>
              width == SumWidths(scales) + ((|scales| - 1) as real) * ItemGap + 2.0 * ContainerPadding
  {
    var totalWidth := 0.0;
    var index := 0;
    while index < |scales|
      invariant 0 <= index <= |scales|
      invariant totalWidth == SumWidths(scales[..index]) + (GapCount(index, iconCount) as real) * ItemGap
    {
      assert scales[..index + 1][..index] == scales[..index];
      totalWidth := totalWidth + ItemBaseWidth * scales[index];
      if index < iconCount - 1 {
        totalWidth := totalWidth + ItemGap;
      }
      index := index + 1;
    }
    assert scales[..index] == scales;
    width := totalWidth + ContainerPadding * 2.0;
  }
}
