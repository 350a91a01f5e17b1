/** The component's scale vector and the pointer moves that drive it. */
module Hover {
  import opened Options
  import opened Dimensions
  import opened Magnification
  import opened Layout

  /** Scale state of the dock. A pointer move does not recompute the scales at once: it schedules
      the computation for the next animation frame, and of several moves before one frame only the
      latest counts, so the scheduled work is one pending pointer offset that each move overwrites. */
  class HoverState {
    const iconCount: nat
    var scales: seq<real>
    var pendingPointer: Option<real>

    /** One scale per icon, each between 1 and `MaxScale`. */
    ghost predicate Valid()
      reads this
    {
      |scales| == iconCount &&
      forall i :: 0 <= i < |scales| ==> 1.0 <= scales[i] <= MaxScale
    }

    /** Every icon starts at rest and nothing is scheduled. */
    constructor (iconCount: nat)
      ensures Valid()
      ensures this.iconCount == iconCount
      ensures scales == RestScales(iconCount) && pendingPointer == None
    {
      this.iconCount := iconCount;
      scales := RestScales(iconCount);
      pendingPointer := None;
    }

    /** A pointer move at adjusted offset `adjustedX` schedules a recomputation, replacing any
        recomputation scheduled before and not yet run. */
    method MouseMove(adjustedX: real)
      requires Valid()
      modifies this`pendingPointer
      ensures Valid()
      ensures pendingPointer == Some(adjustedX)
      ensures scales == old(scales)
    {
      pendingPointer := Some(adjustedX);
    }

    /** The next animation frame runs the scheduled recomputation, if there is one. */
    method AnimationFrame()
      requires Valid()
      modifies this`scales, this`pendingPointer
      ensures Valid()
      ensures pendingPointer == None
      ensures old(pendingPointer).Some? ==> scales == Scales(old(pendingPointer).value, iconCount)
      ensures old(pendingPointer).None? ==> scales == old(scales)
    {
      if pendingPointer.Some? {
        scales := Scales(pendingPointer.value, iconCount);
        pendingPointer := None;
      }
    }

    /** The pointer leaves: every scale is reset to 1 at once. A recomputation already scheduled
        is not cancelled. */
    method MouseLeave()
      requires Valid()
      modifies this`scales
      ensures Valid()
      ensures scales == RestScales(iconCount)
      ensures forall i :: 0 <= i < iconCount ==> scales[i] == 1.0
      ensures pendingPointer == old(pendingPointer)
    {
      scales := RestScales(iconCount);
    }

    /** What a render computes from the current scales: the positions and the container width. */
    method Render() returns (positions: seq<real>, width: real)
      requires Valid()
      ensures |positions| == iconCount && positions == Positions(scales)
      ensures iconCount >= 1 ==> positions[0] == ContainerPadding
      ensures forall i, j :: 0 <= i < j < iconCount ==> positions[i] < positions[j]
      ensures iconCount >= 1 ==>
                width == positions[iconCount - 1] + ItemBaseWidth * scales[iconCount - 1] + ContainerPadding
      ensures iconCount == 0 ==> width == 2.0 * ContainerPadding
    {
      positions := GetPositions(scales);
      width := GetTotalWidth(scales, iconCount);
      PositionsIncreasing(scales);
      if iconCount >= 1 {
        TotalWidthFromPositions(scales);
      }
    }
  }

  /** Two moves before one frame: only the second offset takes effect. */
  method LatestMoveWins(n: nat, first: real, second: real) returns (after: seq<real>)
    ensures after == Scales(second, n)
  {
    var h := new HoverState(n);
    h.MouseMove(first);
    h.MouseMove(second);
    h.AnimationFrame();
    after := h.scales;
  }

  /** A move, then the pointer leaves before the next frame: the leave resets the scales, and the
      frame that follows still applies the move's scales. */
  method LeaveBeforeFrame(n: nat, x: real) returns (afterLeave: seq<real>, afterFrame: seq<real>)
    ensures afterLeave == RestScales(n)
    ensures afterFrame == Scales(x, n)
  {
    var h := new HoverState(n);
    h.MouseMove(x);
    h.MouseLeave();
    afterLeave := h.scales;
    h.AnimationFrame();
    afterFrame := h.scales;
  }
}
