/** Fixed dimensions of the dock (the constants of the App component). */
module Dimensions {
  /** Number of icons in the dock's fixed list. */
  const IconCount: nat := 6
  /** Unscaled width (and height) of one icon, in pixels. */
  const ItemBaseWidth: real := 64.0
  /** Space between neighbouring icons; negative, so that icons overlap at rest. */
  const ItemGap: real := -10.0
  /** Scale of an icon with the pointer exactly at its rest centre. */
  const MaxScale: real := 2.0
  /** Padding on each side of the container. */
  const ContainerPadding: real := 0.0

  /** The rest stride is positive, so unscaled icons advance to the right by 54 despite the
      negative gap; magnification only enlarges; the padding is not negative. */
  lemma DimensionsAreSound()
    ensures ItemBaseWidth + ItemGap == 54.0 && ItemBaseWidth + ItemGap > 0.0
    ensures MaxScale > 1.0
    ensures ContainerPadding >= 0.0
  {
  }
}

/** The proximity-to-scale map computed on every pointer move. */
module Magnification {
  import opened Dimensions

  /** Beyond this distance from an icon's rest centre the icon is not magnified. */
  const MaxDistance: real := 80.0

  /** Absolute value of a real, as the component's `Math.abs`. */
  function Abs(x: real): (r: real)
    ensures r >= 0.0
    ensures r == x || r == -x
  {
    if x < 0.0 then -x else x
  }

  /** Centre of icon `index` in the idealised rest layout (unscaled, evenly spaced). */
  function ItemCenter(index: nat): (c: real)
    ensures c == 54.0 * (index as real) + 32.0
    ensures c >= ItemBaseWidth / 2.0
  {
    (index as real) * (ItemBaseWidth + ItemGap) + ItemBaseWidth / 2.0
  }

  /** Distance from the adjusted pointer offset `x` to the rest centre of icon `index`. */
  function Distance(x: real, index: nat): (d: real)
    ensures d >= 0.0
    ensures d == 0.0 <==> x == ItemCenter(index)
  {
    Abs(x - ItemCenter(index))
  }

  /** Linear falloff of the scale with distance, cut off at `MaxDistance`. */
  function Falloff(d: real): (s: real)
    requires d >= 0.0
    ensures 1.0 <= s <= MaxScale
    ensures s == MaxScale <==> d == 0.0
    ensures s == 1.0 <==> d >= MaxDistance
  {
    if d > MaxDistance then 1.0
    else 1.0 + (1.0 - d / MaxDistance) * (MaxScale - 1.0)
  }

  /** Scale of icon `index` for the adjusted pointer offset `x`. */
  function Scale(x: real, index: nat): (s: real)
    ensures 1.0 <= s <= MaxScale
    ensures s == MaxScale <==> x == ItemCenter(index)
    ensures s == 1.0 <==> Distance(x, index) >= MaxDistance
  {
    Falloff(Distance(x, index))
  }

  /** The scale vector produced for a pointer move: one entry per icon. */
  function Scales(x: real, n: nat): (r: seq<real>)
    ensures |r| == n
    ensures forall i :: 0 <= i < n ==> 1.0 <= r[i] <= MaxScale
    ensures forall i :: 0 <= i < n ==> (r[i] == MaxScale <==> x == ItemCenter(i))
    ensures forall i :: 0 <= i < n ==> (r[i] == 1.0 <==> Distance(x, i) >= MaxDistance)
  {
    seq(n, i requires 0 <= i => Scale(x, i))
  }

  /** The scale vector after the pointer leaves the dock: every icon at rest. */
  function RestScales(n: nat): (r: seq<real>)
    ensures |r| == n
    ensures forall i :: 0 <= i < n ==> r[i] == 1.0
  {
    seq(n, _ => 1.0)
  }

  /** At distance exactly `MaxDistance` the linear formula and the cut-off agree. */
  lemma BranchesAgreeAtCutoff()
    ensures 1.0 + (1.0 - MaxDistance / MaxDistance) * (MaxScale - 1.0) == 1.0
    ensures Falloff(MaxDistance) == 1.0
  {
  }

  /** Farther from the rest centre never means larger; inside the zone, strictly smaller. */
  lemma ScaleMonotone(index: nat, x1: real, x2: real)
    requires Distance(x1, index) <= Distance(x2, index)
    ensures Scale(x2, index) <= Scale(x1, index)
    ensures Distance(x1, index) < Distance(x2, index) && Distance(x1, index) < MaxDistance
            ==> Scale(x2, index) < Scale(x1, index)
  {
  }

  /** Only icons within two places of each other can be magnified at the same time:
      the rest centres are 54 apart and the zones are 160 wide. */
  lemma MagnifiedAreNeighbours(x: real, i: nat, j: nat)
    requires Scale(x, i) > 1.0 && Scale(x, j) > 1.0
    ensures -2 <= i - j <= 2
  {
  }

  /** A pointer farther than `MaxDistance` from every rest centre magnifies nothing. */
  lemma FarPointerIsRest(x: real, n: nat)
    requires forall i :: 0 <= i < n ==> Distance(x, i) >= MaxDistance
    ensures Scales(x, n) == RestScales(n)
  {
  }

  /** The pointer at icon 2's rest centre (offset 140) in a six-icon dock. */
  lemma PointerAtThirdIcon()
    ensures ItemCenter(2) == 140.0
    ensures Scales(140.0, IconCount) == [1.0, 1.325, 2.0, 1.325, 1.0, 1.0]
  {
  }
}
