# Dock magnification — a Dafny model

A model of the logic inside the single React component `App` of a macOS-style dock. The
component renders a row of icons. Icons near the pointer are magnified, the row is laid out again
from the magnified widths, and a clicked icon bounces for a while with its tooltip hidden.
The model has three parts.

- **Magnification** (`magnification.dfy`, modules `Dimensions` and `Magnification`). A pointer
  offset gives each icon a scale. The scale falls off linearly from 2 at the icon's rest centre
  `index * (64 - 10) + 32` to 1 at distance 80. Beyond 80 the scale is 1. When the pointer
  leaves, every scale is reset to 1. These are pure functions, with lemmas for bounds, peak,
  cut-off, monotone falloff, and the six-icon example.
- **Layout** (`layout.dfy`, module `Layout`). `GetPositions` and `GetTotalWidth` are the
  component's accumulator loops, written as methods with loop invariants. They are proved equal to
  the recursive functions `Positions`/`Offset` and `TotalWidth`/`SumWidths`. Lemmas cover the
  recurrence, strict ordering, total width against the last position, and the rest layout.
- **Component state** (`options.dfy`, module `Options`; `hover.dfy`, module `Hover`; `activation.dfy`, module
  `Activation`). `HoverState` holds the scale vector and the one animation-frame recomputation
  still pending. A new move overwrites that pending recomputation, so the latest move wins.
  `ActivationState` holds `activeIcon`, `jumpingIcon` and `showTooltips`, plus the pending timers.
  The timers are events: the outer 1800 ms timer is a flag, and the inner 600 ms timers are a count.
  A render together with the effect that watches `jumpingIcon` is folded into the event method
  that changed `jumpingIcon`. Scenario methods run event sequences on a fresh object and state the
  outcome.

Scales, positions and widths are Dafny `real`s. Icon indices are `nat`s.

Three behaviours of the code are worth stating before the table:
- A click is accepted for any index, with no range check. The click handler is only called from
  the per-icon `onClick` at src/App.tsx:134, always with an index of the icon list (0 to 5).
  So no range check is missing, and none is modelled.
- Only the outer timer of a jump is ever cancelled. The outer callback returns
  `() => clearTimeout(stopTimer)` at src/App.tsx:35, which shows that the inner timer was meant to
  be cancellable. But `setTimeout` discards its callback's return value, so that cleanup never
  runs. `Activation.ActivationState` models the code as written. `CancellingActivationState`
  models the cancellation that line intends; see Findings.
- A pointer leave does not cancel an animation frame that is already scheduled.
  `Hover.LeaveBeforeFrame` shows that such a frame still applies its scales after the reset.

## Model

| member | source | states |
|---|---|---|
| `Dimensions.DimensionsAreSound` | src/App.tsx:21-24 | the constants give a positive rest stride 64 + (−10) = 54, a maximum scale above 1 and a non-negative padding |
| `Magnification.Abs` | src/App.tsx:62 | `Math.abs`: the result is non-negative and equals the argument or its negation |
| `Magnification.ItemCenter` | src/App.tsx:61 | the rest centre of icon i is 54·i + 32, never left of half an icon width |
| `Magnification.Distance` | src/App.tsx:61-62 | the distance to an icon's rest centre is non-negative, and zero exactly at that centre |
| `Magnification.Falloff` | src/App.tsx:63-66 | for any non-negative distance the scale lies in [1, MaxScale]; it is MaxScale exactly at distance 0 and 1 exactly at distance ≥ 80 |
| `Magnification.Scale` | src/App.tsx:60-66 | an icon's scale lies in [1, 2]; it equals 2 iff the pointer is at the icon's rest centre, and 1 iff the distance is at least 80 |
| `Magnification.Scales` | src/App.tsx:60-67 | the move's scale vector has exactly one entry per icon, each in [1, 2], with peak and cut-off per entry |
| `Magnification.RestScales` | src/App.tsx:73-75 | the leave vector has one entry per icon and every entry is exactly 1 |
| `Magnification.BranchesAgreeAtCutoff` | src/App.tsx:65-66 | at distance exactly 80 the linear formula gives 1, the same value as the cut-off branch |
| `Magnification.ScaleMonotone` | src/App.tsx:61-66 | for a fixed icon a larger distance never gives a larger scale, and inside the zone it gives a strictly smaller one |
| `Magnification.MagnifiedAreNeighbours` | src/App.tsx:61-66 | two icons magnified by the same pointer position are at most two places apart |
| `Magnification.FarPointerIsRest` | src/App.tsx:65-74 | a pointer farther than 80 from every rest centre gives exactly the leave vector |
| `Magnification.PointerAtThirdIcon` | src/App.tsx:21-23 | with six icons and the pointer at 140 (icon 2's centre) the vector is [1, 1.325, 2, 1.325, 1, 1] |
| `Layout.Stride` | src/App.tsx:88-89 | the step from one position to the next, 64·scale + gap; at least 54 when the scale is at least 1 |
| `Layout.Offset` | src/App.tsx:84-89 | the running position: the padding, then one stride per earlier icon; with every scale ≥ 1 offset i is at least padding + 54·i |
| `Layout.SumWidths` | src/App.tsx:44 | the sum of the scaled widths 64·scale; at least 64·n when every scale is ≥ 1 and at most 128·n when every scale is ≤ 2 |
| `Layout.TotalWidth` | src/App.tsx:41-50 | the summed widths, the gaps counted by `GapCount`, and twice the padding; for n ≥ 1 icons with scales in [1, 2] it lies between 54·n + 10 and 118·n + 10, plus twice the padding |
| `Layout.Positions` | src/App.tsx:82-93 | the position vector has the same length as the scale vector |
| `Layout.GapCount` | src/App.tsx:45-47 | at most one gap per icon; n − 1 gaps when the count equals the number of icons; none with no icons |
| `Layout.PositionsRecurrence` | src/App.tsx:84-92 | positions[0] is the padding and positions[i+1] = positions[i] + 64·scales[i] + gap |
| `Layout.OffsetClosedForm` | src/App.tsx:84-89 | offset i is the padding plus the first i scaled widths plus i gaps |
| `Layout.StrictlyIncreasingByStride` | src/App.tsx:86-89 | when every stride 64·scale + gap is positive, a later offset is strictly larger |
| `Layout.PositionsIncreasing` | src/App.tsx:86-89 | when every scale is at least 1 (stride ≥ 54), positions strictly increase |
| `Layout.TotalWidthFromPositions` | src/App.tsx:41-49 | for n ≥ 1 the total width is the last position plus the last scaled width plus the padding |
| `Layout.EmptyDockWidth` | src/App.tsx:41-50 | with no icons the width is twice the padding and there are no positions |
| `Layout.RestLayout` | src/App.tsx:61 | at rest icon i sits at padding + 54·i, and the magnification's centre of icon i is that rest position plus 32, measured inside the padding |
| `Layout.SumOfOnes` | src/App.tsx:44 | i icons at rest have scaled widths summing to 64·i |
| `Layout.RestWidth` | src/App.tsx:41-49 | at rest a dock of n ≥ 1 icons is 54·n + 10 wide plus twice the padding |
| `Layout.GetPositions` | src/App.tsx:82-93 | the loop returns one position per scale, starting at the padding and following the recurrence, equal to `Positions` |
| `Layout.GetTotalWidth` | src/App.tsx:41-50 | the loop returns `TotalWidth`: the sum of scaled widths, one gap per index below iconCount − 1, and twice the padding; n − 1 gaps when iconCount = n |
| `Hover.HoverState.constructor` | src/App.tsx:16 | the initial scale vector is all ones, one per icon, and no recomputation is pending |
| `Hover.HoverState.MouseMove` | src/App.tsx:52-59 | a move schedules the recomputation for its offset, replacing one that has not run yet; scales unchanged |
| `Hover.HoverState.AnimationFrame` | src/App.tsx:59-70 | the frame replaces the scales with the pending offset's vector (otherwise leaves them) and clears the pending work |
| `Hover.HoverState.MouseLeave` | src/App.tsx:73-75 | every scale becomes exactly 1 whatever it was before; pending work is kept |
| `Hover.HoverState.Render` | src/App.tsx:95-96 | the rendered positions are `Positions(scales)` and strictly increasing, and the width ends at the last icon plus the padding (twice the padding with no icons) |
| `Hover.LatestMoveWins` | src/App.tsx:59-70 | of two moves before one frame, the second one's vector is the one applied |
| `Hover.LeaveBeforeFrame` | src/App.tsx:59-75 | a leave resets to all ones, but a frame already scheduled then applies the earlier move's vector |
| `Activation.ActivationState.constructor` | src/App.tsx:17-19 | nothing active or jumping, tooltips shown, no timers |
| `Activation.ActivationState.JumpingIconChanged` | src/App.tsx:27-39 | the effect cancels the pending outer timer; if an icon is jumping it hides tooltips and schedules a new outer timer |
| `Activation.ActivationState.Click` | src/App.tsx:77-80 | the icon becomes active and jumping and tooltips are hidden; a new outer timer is scheduled only if `jumpingIcon` changed; inner timers are untouched |
| `Activation.ActivationState.OuterTimerFires` | src/App.tsx:30-36 | the outer timer schedules one more inner timer and changes no visible state |
| `Activation.ActivationState.InnerTimerFires` | src/App.tsx:31-34 | jumping clears, tooltips return, the active icon stays, and any pending outer timer is cancelled |
| `Activation.CancellingActivationState.constructor` | src/App.tsx:17-19 | nothing active or jumping, tooltips shown, no timers |
| `Activation.CancellingActivationState.JumpingIconChanged` | src/App.tsx:27-39 | corrected effect: both timers of the old chain are cancelled before a new outer timer is scheduled |
| `Activation.CancellingActivationState.Click` | src/App.tsx:77-80 | as `Click`, and a changed `jumpingIcon` leaves exactly the new outer timer pending |
| `Activation.CancellingActivationState.OuterTimerFires` | src/App.tsx:30-36 | the outer timer hands over to the single inner timer |
| `Activation.CancellingActivationState.InnerTimerFires` | src/App.tsx:31-34 | the inner timer fires only while an icon is jumping; jumping clears, tooltips return, no timer remains |
| `Activation.ClickThenSettle` | src/App.tsx:27-39 | after a click tooltips are hidden; after the outer timer the icon is still jumping and tooltips are still hidden; after the inner timer jumping is cleared, tooltips are back, and the icon is still active |
| `Activation.RepeatedClickKeepsChain` | src/App.tsx:77-80 | clicking the jumping icon again after its outer timer fired restarts nothing: no outer timer, one inner timer |
| `Activation.SupersedeBeforeOuter` | src/App.tsx:37 | a second click before the first outer timer fired leaves exactly one outer timer, and the jump settles with the second icon active |
| `Activation.StaleInnerTimerEndsNewJump` | src/App.tsx:31-35 | a second click after the first outer timer fired leaves a stale inner timer beside the new outer one; the stale timer ends the new jump and cancels its outer timer |
| `Activation.SupersedeAfterOuterCancelling` | src/App.tsx:27-39 | with the corrected cleanup the same clicks leave only the new outer timer, and the new jump runs its full chain before it settles |

## Findings

| source | as written | input that shows it | evidently intended | confidence | as-written member | corrected member |
|---|---|---|---|---|---|---|
| src/App.tsx:31-35 | the cleanup returned inside the outer timer callback goes to the timer host, which drops it, so the inner 600 ms timer of a jump is never cancelled | click icon 0 at time 0; its 1800 ms timer fires; click icon 1 at a time t with 1800 < t < 2400 ms; icon 0's inner timer fires at 2400 ms. `jumpingIcon` becomes null 2400 − t ms into icon 1's jump (400 ms for t = 2000), and icon 1's own outer timer is cancelled | a new jump cancels the whole pending chain of the previous one, so each jump lasts its full chain | high (not executed) | `Activation.StaleInnerTimerEndsNewJump` | `Activation.SupersedeAfterOuterCancelling` |

## Left out

- Markup, styling, tooltip and dot rendering, icon URLs and app names are presentational.
- Measuring the container (`getBoundingClientRect`) and the null check on its reference are host
  DOM calls. The model takes the pointer offset already adjusted for the container's left edge
  and padding.
- `requestAnimationFrame` is a host frame callback. It is modelled as one pending offset that the
  next `AnimationFrame` event applies. Several same-frame callbacks end in the same state.
- Timer durations and clocks are modelled as fire events. The model allows orders that real
  clocks rule out, such as a second chain's outer timer firing before an earlier inner timer.
  Every property is proved for all orders.
- React's render/commit split is folded into the event methods. The one render in which
  `jumpingIcon` is set and the effect has not yet hidden the tooltips is not modelled.
- Unmounting the component and the cleanup it runs are not modelled.
- IEEE floating-point rounding is not modelled: scales, positions and widths are exact reals.
- `ITEM_BORDER_RADIUS` is declared but never used.
