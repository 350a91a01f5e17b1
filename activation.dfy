/** Which icon is active, which one is jumping, and whether tooltips are shown, with the two
    chained timers that end a jump. Timers are events, not clocks: the outer timer stands for the
    1800 ms delay started when a jump begins, the inner timer for the 600 ms delay the outer one
    starts when it fires. A render followed by the effect that watches `jumpingIcon` is folded into
    the event that changed `jumpingIcon`. */
module Activation {
  import opened Options

  /** The state machine as the component implements it. The effect's cleanup cancels only a
      still-pending outer timer; the cleanup the outer callback returns is dropped by the timer
      host, so inner timers are never cancelled and several can be pending at once. */
  class ActivationState {
    var activeIcon: Option<nat>
    var jumpingIcon: Option<nat>
    var showTooltips: bool
    var outerTimerPending: bool
    var innerTimersPending: nat

    /** Tooltips are shown exactly when no icon is jumping, and an outer timer is only pending
        for a jump in progress. */
    ghost predicate Valid()
      reads this
    {
      (showTooltips <==> jumpingIcon.None?) &&
      (outerTimerPending ==> jumpingIcon.Some?)
    }

    /** Nothing active, nothing jumping, tooltips shown, no timer scheduled. */
    constructor ()
      ensures Valid()
      ensures activeIcon == None && jumpingIcon == None && showTooltips
      ensures !outerTimerPending && innerTimersPending == 0
    {
      activeIcon, jumpingIcon, showTooltips := None, None, true;
      outerTimerPending, innerTimersPending := false, 0;
    }

    /** The effect, run after `jumpingIcon` changed: the previous run's cleanup cancels its outer
        timer (a no-op once it has fired); then, if an icon is jumping, tooltips are hidden and a
        new outer timer is scheduled. */
    method JumpingIconChanged()
      modifies this`showTooltips, this`outerTimerPending
      ensures jumpingIcon.Some? ==> !showTooltips && outerTimerPending
      ensures jumpingIcon.None? ==> showTooltips == old(showTooltips) && !outerTimerPending
    {
      outerTimerPending := false;
      if jumpingIcon.Some? {
        showTooltips := false;
        outerTimerPending := true;
      }
    }

    /** A click on icon `index` makes it active and jumping. The effect runs only if
        `jumpingIcon` changed, so clicking the icon that is already jumping restarts nothing. */
    method Click(index: nat)
      requires Valid()
      modifies this
      ensures Valid()
      ensures activeIcon == Some(index) && jumpingIcon == Some(index) && !showTooltips
      ensures old(jumpingIcon) != Some(index) ==> outerTimerPending
      ensures old(jumpingIcon) == Some(index) ==> outerTimerPending == old(outerTimerPending)
      ensures innerTimersPending == old(innerTimersPending)
    {
      activeIcon := Some(index);
      if jumpingIcon != Some(index) {
        jumpingIcon := Some(index);
        JumpingIconChanged();
      }
    }

    /** The outer timer fires and schedules an inner timer; no state changes. */
    method OuterTimerFires()
      requires Valid() && outerTimerPending
      modifies this`outerTimerPending, this`innerTimersPending
      ensures Valid()
      ensures !outerTimerPending && innerTimersPending == old(innerTimersPending) + 1
    {
      outerTimerPending := false;
      innerTimersPending := innerTimersPending + 1;
    }

    /** An inner timer fires: whatever is jumping stops and tooltips come back; the active icon
        stays. If that changed `jumpingIcon`, the effect's cleanup cancels a pending outer timer. */
    method InnerTimerFires()
      requires Valid() && innerTimersPending > 0
      modifies this`jumpingIcon, this`showTooltips, this`outerTimerPending, this`innerTimersPending
      ensures Valid()
      ensures jumpingIcon == None && showTooltips && !outerTimerPending
      ensures innerTimersPending == old(innerTimersPending) - 1
    {
      innerTimersPending := innerTimersPending - 1;
      if jumpingIcon.Some? {
        jumpingIcon := None;
        showTooltips := true;
        JumpingIconChanged();
      } else {
        showTooltips := true;
      }
    }
  }

  /** The state machine with the cancellation evidently intended: the effect's cleanup cancels
      whichever timer of the chain is pending, so every pending timer belongs to the current jump. */
  class CancellingActivationState {
    var activeIcon: Option<nat>
    var jumpingIcon: Option<nat>
    var showTooltips: bool
    var outerTimerPending: bool
    var innerTimerPending: bool

    /** Tooltips are shown exactly when no icon is jumping; at most one timer is pending, and only
        while an icon is jumping. */
    ghost predicate Valid()
      reads this
    {
      (showTooltips <==> jumpingIcon.None?) &&
      (outerTimerPending || innerTimerPending ==> jumpingIcon.Some?) &&
      !(outerTimerPending && innerTimerPending)
    }

    constructor ()
      ensures Valid()
      ensures activeIcon == None && jumpingIcon == None && showTooltips
      ensures !outerTimerPending && !innerTimerPending
    {
      activeIcon, jumpingIcon, showTooltips := None, None, true;
      outerTimerPending, innerTimerPending := false, false;
    }

    /** The effect, run after `jumpingIcon` changed: cancel the whole pending chain, then start a
        new one if an icon is jumping. */
    method JumpingIconChanged()
      modifies this`showTooltips, this`outerTimerPending, this`innerTimerPending
      ensures !innerTimerPending
      ensures jumpingIcon.Some? ==> !showTooltips && outerTimerPending
      ensures jumpingIcon.None? ==> showTooltips == old(showTooltips) && !outerTimerPending
    {
      outerTimerPending, innerTimerPending := false, false;
      if jumpingIcon.Some? {
        showTooltips := false;
        outerTimerPending := true;
      }
    }

    method Click(index: nat)
      requires Valid()
      modifies this
      ensures Valid()
      ensures activeIcon == Some(index) && jumpingIcon == Some(index) && !showTooltips
      ensures old(jumpingIcon) != Some(index) ==> outerTimerPending && !innerTimerPending
      ensures old(jumpingIcon) == Some(index) ==>
                outerTimerPending == old(outerTimerPending) && innerTimerPending == old(innerTimerPending)
    {
      activeIcon := Some(index);
      if jumpingIcon != Some(index) {
        jumpingIcon := Some(index);
        JumpingIconChanged();
      }
    }

    method OuterTimerFires()
      requires Valid() && outerTimerPending
      modifies this`outerTimerPending, this`innerTimerPending
      ensures Valid()
      ensures !outerTimerPending && innerTimerPending
    {
      outerTimerPending, innerTimerPending := false, true;
    }

    /** The inner timer fires only for the jump in progress, which then ends. */
    method InnerTimerFires()
      requires Valid() && innerTimerPending
      modifies this`jumpingIcon, this`showTooltips, this`outerTimerPending, this`innerTimerPending
      ensures Valid()
      ensures old(jumpingIcon).Some?
      ensures jumpingIcon == None && showTooltips && !outerTimerPending && !innerTimerPending
    {
      innerTimerPending := false;
      jumpingIcon := None;
      showTooltips := true;
      JumpingIconChanged();
    }
  }

  /** A click, then both timers: tooltips stay hidden until the inner timer, when the jump ends
      and tooltips return; the clicked icon stays active. */
  method ClickThenSettle(index: nat)
    returns (tooltipsAfterClick: bool, jumpingAfterOuter: Option<nat>, tooltipsAfterOuter: bool,
             active: Option<nat>, jumping: Option<nat>, tooltips: bool)
    ensures !tooltipsAfterClick
    ensures jumpingAfterOuter == Some(index) && !tooltipsAfterOuter
    ensures active == Some(index) && jumping == None && tooltips
  {
    var a := new ActivationState();
    a.Click(index);
    tooltipsAfterClick := a.showTooltips;
    a.OuterTimerFires();
    jumpingAfterOuter, tooltipsAfterOuter := a.jumpingIcon, a.showTooltips;
    a.InnerTimerFires();
    active, jumping, tooltips := a.activeIcon, a.jumpingIcon, a.showTooltips;
  }

  /** Clicking the jumping icon again, after its outer timer fired, starts no new chain: only the
      original inner timer is pending. */
  method RepeatedClickKeepsChain(index: nat) returns (outerPending: bool, innerPending: nat, jumping: Option<nat>)
    ensures !outerPending && innerPending == 1 && jumping == Some(index)
  {
    var a := new ActivationState();
    a.Click(index);
    a.OuterTimerFires();
    a.Click(index);
    outerPending, innerPending, jumping := a.outerTimerPending, a.innerTimersPending, a.jumpingIcon;
  }

  /** A second click before the first outer timer fires cancels that timer: one chain, keyed to
      the second icon, remains and settles normally. */
  method SupersedeBeforeOuter(first: nat, second: nat)
    returns (outerAfterSecond: bool, innerAfterSecond: nat,
             active: Option<nat>, jumping: Option<nat>, tooltips: bool)
    ensures outerAfterSecond && innerAfterSecond == 0
    ensures active == Some(second) && jumping == None && tooltips
  {
    var a := new ActivationState();
    a.Click(first);
    a.Click(second);
    outerAfterSecond, innerAfterSecond := a.outerTimerPending, a.innerTimersPending;
    a.OuterTimerFires();
    a.InnerTimerFires();
    active, jumping, tooltips := a.activeIcon, a.jumpingIcon, a.showTooltips;
  }

  /** As implemented: a second click on another icon after the first outer timer fired leaves the
      first chain's inner timer pending beside the new outer timer. When that stale timer fires,
      the second icon's jump ends and its own outer timer is cancelled before it ever fired. */
  method StaleInnerTimerEndsNewJump(first: nat, second: nat)
    returns (outerAfterSecond: bool, innerAfterSecond: nat,
             jumping: Option<nat>, tooltips: bool, outerAfterStale: bool, active: Option<nat>)
    requires first != second
    ensures outerAfterSecond && innerAfterSecond == 1
    ensures jumping == None && tooltips && !outerAfterStale && active == Some(second)
  {
    var a := new ActivationState();
    a.Click(first);
    a.OuterTimerFires();
    a.Click(second);
    outerAfterSecond, innerAfterSecond := a.outerTimerPending, a.innerTimersPending;
    a.InnerTimerFires();
    jumping, tooltips, outerAfterStale, active := a.jumpingIcon, a.showTooltips, a.outerTimerPending, a.activeIcon;
  }

  /** With the whole chain cancelled: the same events leave only the second icon's outer timer
      pending, so its jump lasts its full chain and then settles. */
  method SupersedeAfterOuterCancelling(first: nat, second: nat)
    returns (outerAfterSecond: bool, innerAfterSecond: bool, jumpingAfterSecondOuter: Option<nat>,
             active: Option<nat>, jumping: Option<nat>, tooltips: bool)
    requires first != second
    ensures outerAfterSecond && !innerAfterSecond
    ensures jumpingAfterSecondOuter == Some(second)
    ensures active == Some(second) && jumping == None && tooltips
  {
    var a := new CancellingActivationState();
    a.Click(first);
    a.OuterTimerFires();
    a.Click(second);
    outerAfterSecond, innerAfterSecond := a.outerTimerPending, a.innerTimerPending;
    a.OuterTimerFires();
    jumpingAfterSecondOuter := a.jumpingIcon;
    a.InnerTimerFires();
    active, jumping, tooltips := a.activeIcon, a.jumpingIcon, a.showTooltips;
  }
}
