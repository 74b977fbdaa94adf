# saber-scroll, modelled in Dafny

saber-scroll is a touch scroller for mobile pages. It moves one content element
inside its wrapper by CSS transforms. The core modelled here:

- the two controller files `src/Scroller.js` and `src/Scroll.js`. Each holds an
  `info` bag (offset, status IDLE/PREPARE/SCROLLING, reference point, last
  delta and interval, animation frame). Touch start, move and end handlers
  update that bag.
- momentum after release (`finishScroll` and its per-frame `step`):
  - constant deceleration of 0.0006 px/ms²;
  - on an axis that has run out of bounds, the deceleration is multiplied by five
    again on every frame the axis stays out;
  - a 0.5 s snap-back when momentum ends out of bounds.
- the public API: `scrollTo`, `getScrollTop`/`getScrollLeft`, `repaint`,
  `disable`/`enable`, `destroy`.
- the plugin registry `src/plugin.js` and two plugins:
  - the scrollbar arithmetic;
  - the overflow-hint class list.

Layout:

| file | module | contents |
|---|---|---|
| `js.dfy` | `Js` | JavaScript values, truthiness, option maps |
| `geometry.dfy` | `Geometry` | `isOutDir`, `isScrollOut`, `normalizePos` |
| `motion.dfy` | `Motion` | release velocity, per-tick deceleration, the continuation test |
| `engine.dfy` | `Engine` | the controller as functions from state to state |
| `controller.dfy` | `Controller` | class `Scroller`, whose methods update its fields in place and are proved to agree with `Engine` |
| `plugins.dfy` | `Plugins` | classes `Registry` (`pluginFactories`) and `Host` (`scroller.plugins`) |
| `scrollbar.dfy` | `Scrollbar` | bar sizes and offsets, registration factory |
| `overflowhint.dfy` | `OverflowHint` | edge classes, class-list rewrite, registration factory |
| `gestures.dfy` | `Gestures` | properties of the touch handlers and of `scrollTo` |
| `flings.dfy` | `Flings` | properties of momentum and of whole runs of events |

The two controller files differ in four places:

1. Scroller.js stores the resisted delta (`d/3` out of bounds) as the release
   delta. Scroll.js stores the raw delta.
2. Scroller.js stops every move event outside IDLE. Scroll.js calls
   `preventDefault` only on accepted moves.
3. Scroller.js's end handler needs the event, so its `disable` throws in
   SCROLLING. Scroll.js's does not.

4. Scroller.js clamps every position whenever overflow is disallowed.
   Scroll.js clamps only positions that are out of bounds (`Engine.Corrects`);
   `Geometry.GatedNormalizeAgrees` shows the two give the same position.

The model is one controller with a `Variant` (`ScrollerJs` | `ScrollJs`) and
these conventions:

- The clock is a parameter `now`.
- Animation-frame handles come from a counter.
- The promise of a snap-back is a counter of pending transitions. `SnapBackDone`
  completes one.
- Emitted events and the calls on the touch event go to a log.

## Model

| member | source | states |
|---|---|---|
| Geometry.Clamp | src/Scroller.js:93-98 | with min <= 0 the result lies in [min, 0]; an in-bounds value is unchanged, a positive one becomes 0, one below min becomes min |
| Geometry.NormalizePos | src/Scroller.js:93-98 | with proper bounds the result is never out of bounds; an in-bounds position is unchanged; a coordinate changes only on an axis where it is out |
| Geometry.NormalizeIdempotent | src/Scroller.js:93-98 | normalizing twice equals normalizing once |
| Geometry.OutIffNormalizeMoves | src/Scroller.js:70-98 | with proper bounds, `isScrollOut` holds exactly when `normalizePos` moves the position |
| Geometry.GatedNormalizeAgrees | src/Scroll.js:308-310 | normalizing only out-of-bounds positions gives the same position as normalizing always |
| Motion.InitialAcce | src/Scroller.js:151-156 | the deceleration is zero iff the speed is, points against the speed, and has magnitude 0.0006 |
| Motion.Release | src/Scroller.js:145-158 | release speed times the last interval equals the last delta, and both axes decelerate against their speed |
| Motion.NextSpeedDecelerates | src/Scroller.js:169-180 | for dt >= 0 a tick keeps each speed's sign, never increases its magnitude, keeps a zero speed at zero, and keeps the deceleration opposed |
| Motion.BrakeKeepsOpposed | src/Scroller.js:203-209 | multiplying the deceleration by 5 keeps it opposed to the speed |
| Motion.SignedSumStopsWhileMoving | src/Scroller.js:213-214 | a release of (30, -30) over 10 ms leaves both axes moving after a 16 ms tick while `speed.x + speed.y` is 0 |
| Motion.AsWrittenAgreesOffDiagonal | src/Scroller.js:213-214 | the signed-sum test and the either-axis-moving test agree unless the speeds are equal and opposite |
| Engine.MakeConfig | src/Scroller.js:444-474 | each option given overrides its default, every other option takes its default, and overflow is on unless given falsy |
| Engine.Calculate | src/Scroller.js:364-380 | minX = clientWidth - scrollWidth, minY likewise; an axis is enabled iff its option is not `false` and its content overflows |
| Controller.Scroller.constructor | src/Scroller.js:460-480 | config is defaults merged with options; state is offset (0, 0), IDLE, enabled, nothing emitted; the plugins are enabled with the caller's options |
| Controller.Scroller.Render | src/Scroller.js:36-63 | `:render` is emitted with position and duration, then the offset becomes the position |
| Controller.Scroller.StopAnimate | src/Scroller.js:123-129 | a pending frame is cancelled, nothing else changes |
| Controller.Scroller.RequestFrame | src/Scroller.js:228 | a fresh frame handle is stored |
| Controller.Scroller.ResetScroll | src/Scroller.js:106-111 | renders the normalized offset over 0.5 and registers one pending snap-back, status unchanged |
| Controller.Scroller.SnapBackDone | src/Scroller.js:112-115 | a pending snap-back completes: IDLE and `:end` |
| Controller.Scroller.FinishScroll | src/Scroller.js:138-158 | IDLE, release momentum from the last delta and interval, first frame scheduled |
| Controller.Scroller.Step | src/Scroller.js:160-226 | one frame of momentum: nothing unless IDLE, else a tick followed by the continuation decision (corrected continuation test; see ## Findings) |
| Controller.Scroller.Tick | src/Scroller.js:166-209 | decelerated speeds, trapezoidal displacement, overflow correction with stopped axes, render, brake on out-of-bounds axes |
| Controller.Scroller.Settle | src/Scroller.js:211-225 | another frame while an axis moves (corrected continuation test; see ## Findings), else snap-back in SCROLLING when out of bounds, else `:end` |
| Controller.Scroller.StartHandler | src/Scroller.js:248-268 | ignored in SCROLLING; otherwise cancels the frame, records point and clock, zeroes the deltas, enters PREPARE |
| Controller.Scroller.MoveHandler | src/Scroller.js:275-296 | ignored in IDLE; deltas are zero on disabled axes; Scroller.js stops the event; moves under 10 px on both axes go no further |
| Controller.Scroller.Engage | src/Scroller.js:298-302 | PREPARE becomes SCROLLING with `:start` |
| Controller.Scroller.Drag | src/Scroller.js:304-326 | point advances by the delta, resisted increment, overflow correction, render, `scroll` with the negated position, interval recorded |
| Controller.Scroller.EndHandler | src/Scroller.js:334-356 | outside SCROLLING IDLE; Scroller.js throws without an event; dt 0 IDLE; out of bounds snap-back; else momentum |
| Controller.Scroller.TouchStart | src/Scroller.js:402-413 | a disabled scroller ignores the touch; otherwise the start handler runs |
| Controller.Scroller.TouchMove | src/Scroller.js:402-414 | a disabled scroller ignores the touch; otherwise the move handler runs |
| Controller.Scroller.TouchEnd | src/Scroller.js:402-416 | a disabled scroller ignores the touch; otherwise the end handler runs with the event |
| Controller.Scroller.ScrollToInner | src/Scroller.js:432-437 | renders the normalized position with the given duration |
| Controller.Scroller.ScrollTo | src/Scroller.js:523-541 | top then left taken from the arguments for enabled axes only, negated, then the inner scrollTo |
| Controller.Scroller.Repaint | src/Scroller.js:488-496 | re-measures, resets every plugin that has `reset` without changing the plugin map, re-renders the clamped offset |
| Controller.Scroller.GetScrollTop | src/Scroller.js:576-578 | the negated vertical offset, non-negative exactly when the offset is at most 0 |
| Controller.Scroller.GetScrollLeft | src/Scroller.js:566-568 | the negated horizontal offset, non-negative exactly when the offset is at most 0 |
| Controller.Scroller.Disable | src/Scroller.js:585-595 | sets the flag; in SCROLLING ends the gesture and cancels the frame, and reports Scroller.js's throw |
| Controller.Scroller.Enable | src/Scroller.js:602-604 | clears the flag |
| Controller.Scroller.Destroy | src/Scroller.js:503-513 | disables every plugin |
| Gestures.MoveIgnoredWhenIdle | src/Scroller.js:278-280 | a move in IDLE changes nothing |
| Gestures.SubThresholdMoveChangesNothing | src/Scroller.js:290-296 | a move under the threshold changes no offset, point, status or momentum; only Scroller.js logs the stopped event |
| Gestures.AcceptedMoveAdvancesPoint | src/Scroller.js:283-305 | an accepted move advances the point by exactly the delta; a disabled axis keeps its point and a zero release delta; the status is SCROLLING and the interval is recorded |
| Gestures.ResistedMove | src/Scroller.js:304-322 | on each axis, a third of the delta while that axis is out of bounds and the whole delta otherwise; Scroller.js stores that increment as the release delta whatever the overflow option, Scroll.js (src/Scroll.js:292-305) the raw delta; with overflow allowed the offset moves by exactly the increment; the `scroll` notice carries the negated rendered offset |
| Gestures.MoveStaysInBounds | src/Scroll.js:307-312 | with overflow disallowed and proper bounds an accepted move renders an in-bounds position |
| Gestures.EngageEmitsStartFromPrepare | src/Scroll.js:284-290 | `:start` is emitted exactly when the status was PREPARE, which becomes SCROLLING |
| Gestures.DragEmitsNoStart | src/Scroller.js:304-326 | the offset update emits no `:start`, keeps the log prefix and the status |
| Gestures.MoveEmitsStartOnFirstAccept | src/Scroller.js:298-302 | one move adds a `:start` exactly when it is the gesture's first accepted move, and never returns to PREPARE |
| Gestures.StartEmittedAtMostOnce | src/Scroller.js:298-302 | over any run of moves `:start` is emitted at most once, and never when already SCROLLING; earlier log entries are kept |
| Gestures.StartIgnoredWhileScrolling | src/Scroll.js:240-242 | a start in SCROLLING changes nothing |
| Gestures.StartArmsGesture | src/Scroll.js:244-255 | otherwise no frame is pending, deltas and interval are zero, the point and clock are recorded, the status is PREPARE, the offset is kept |
| Gestures.EndOutsideScrolling | src/Scroller.js:337-340 | outside SCROLLING the end handler only sets IDLE |
| Gestures.EndThrowsOnlyWithoutEvent | src/Scroller.js:334-344 | the end handler throws exactly for Scroller.js, in SCROLLING, without an event |
| Gestures.EndCases | src/Scroller.js:346-355 | dt 0 gives IDLE; out of bounds renders the clamped offset over 0.5 and IDLE with `:end` follows its completion; else momentum in IDLE from the last delta with a frame scheduled |
| Gestures.ScrollerDisableThrowsWhileScrolling | src/Scroller.js:585-595 | Scroller.js's `disable` in SCROLLING throws with only the flag set |
| Gestures.ScrollDisableEndsGesture | src/Scroll.js:571-581 | Scroll.js's `disable` in SCROLLING ends the gesture, cancels the frame, and every touch is then ignored |
| Gestures.EnableUndoesDisable | src/Scroll.js:571-590 | outside SCROLLING `enable` after `disable` restores the state |
| Gestures.ScrollToClamps | src/Scroll.js:509-527 | `scrollTo(top, left, d)` renders the negated arguments clamped into bounds with duration d |
| Gestures.ScrollToSkipsDisabledAxis | src/Scroll.js:514-526 | with the horizontal axis disabled the second argument is the duration and the left offset is the current one, negated |
| Gestures.ScrollToThenGet | src/Scroll.js:552-564 | `getScrollTop`/`getScrollLeft` return what `scrollTo` was given for any reachable target |
| Gestures.TallContentScenario | src/Scroller.js:523-541 | a 300 px viewport over 900 px content: `scrollTo(300, 0, 0)` gives offset -300 and `getScrollTop()` 300 |
| Gestures.RepaintClamps | src/Scroller.js:488-496 | after `repaint` the layout is the new measurement and the offset lies inside the new bounds, unchanged if it already did |
| Flings.FinishScrollBrakes | src/Scroller.js:138-158 | released momentum decelerates on both axes, the status is IDLE and the first frame is scheduled |
| Flings.TickDecelerates | src/Scroll.js:166-210 | for a clock that does not run backwards a tick keeps both axes braking and never speeds up or reverses an axis |
| Flings.TickBrakesOutOfBounds | src/Scroll.js:204-210 | a moving axis whose rendered offset is out of bounds gets five times the deceleration; an in-bounds axis keeps it |
| Flings.TickStaysInBounds | src/Scroll.js:190-199 | with overflow disallowed a tick renders an in-bounds position and an axis that would leave its bounds stops |
| Flings.StaleStepReturns | src/Scroll.js:163-165 | a step fired after the status left IDLE does nothing |
| Flings.AsWrittenStepEndsMidFling | src/Scroller.js:211-225 | when a tick leaves equal and opposite non-zero speeds in bounds, the source's signed-sum decision emits `:end` and requests no frame, while the corrected step requests the next frame |
| Flings.StepStopsOnlyAtRest | src/Scroll.js:211-226 | a frame is requested while an axis moves; at rest it snaps back in SCROLLING when out of bounds, else emits `:end` |
| Flings.SnapBackBlocksStart | src/Scroll.js:218-242 | while a snap-back after momentum is pending a touch start is ignored; after it completes a start is accepted |
| Flings.DisableDuringMomentum | src/Scroll.js:571-581 | during momentum `disable` only sets the flag and the next step is unchanged |
| Flings.StepDecelerates | src/Scroll.js:161-226 | a step keeps both axes braking, slows them, and advances the momentum clock |
| Flings.FlingDecelerates | src/Scroll.js:161-228 | over any frames with a clock that never runs backwards both axes keep braking and end no faster, in the same direction |
| Flings.MoveKeepsContained | src/Scroller.js:316-322 | with overflow disallowed a move keeps the offset and every rendered position in bounds |
| Flings.StepKeepsContained | src/Scroller.js:188-199 | with overflow disallowed a step keeps the offset and every rendered position in bounds |
| Flings.EndKeepsContained | src/Scroller.js:346-355 | the end handler renders only clamped positions |
| Flings.RunStaysInBounds | src/Scroller.js:316-321 | with overflow disallowed no sequence of touches, frames, snap-back completions, `scrollTo`, `disable` and `enable` renders a position out of bounds |
| Flings.InitialContained | src/Scroller.js:387-400 | a new scroller over content no smaller than its viewport starts in bounds |
| Plugins.Without | src/plugin.js:60 | deleting a key keeps every other key and no duplicates |
| Plugins.DisableOne | src/plugin.js:54-61 | an enabled plugin is destroyed if it has `destroy` and deleted; the map stays well formed |
| Plugins.EnableKeepsEnabled | src/plugin.js:24-31 | `enable` never replaces an enabled plugin and calls factories only for names not yet enabled |
| Plugins.EnableStoresAccepted | src/plugin.js:26-29 | `enable` stores exactly what the factories accepted |
| Plugins.EnableTriesEveryName | src/plugin.js:24-31 | the factory of every registered name not enabled before is called, and that name is enabled afterwards exactly when its factory accepts |
| Plugins.EnablePreservesWellFormed | src/plugin.js:19-34 | the plugin map stays free of duplicate keys |
| Plugins.DisableRemovesNames | src/plugin.js:54-62 | disabling a list of names removes exactly those names |
| Plugins.DisableEverything | src/plugin.js:49-61 | `disable` without a name leaves no plugin |
| Plugins.DisableOneName | src/plugin.js:46-61 | `disable(name)` removes that entry only and calls `destroy` only when it exists |
| Plugins.ResetCallsExactly | src/plugin.js:71-79 | `reset` calls `reset` on exactly the enabled plugins that have one |
| Plugins.Registry.Register | src/plugin.js:88-90 | the factory replaces any earlier one under that name; a new name is appended to the key order |
| Plugins.Registry.Enable | src/plugin.js:19-34 | the loop over registered names produces the `enable` fold |
| Plugins.Host.Disable | src/plugin.js:43-63 | the loop over the target names produces the `disable` fold |
| Plugins.Host.Remove | src/plugin.js:54-61 | one round of `disable`'s loop |
| Plugins.Host.Reset | src/plugin.js:71-79 | the map is unchanged and the `reset` calls are appended in key order |
| Scrollbar.BarRate | src/plugin/scrollbar.js:34 | the initial bar size is `rate*100`, never below 5 |
| Scrollbar.OverscrollIsDistance | src/plugin/scrollbar.js:72 | the overscroll is the distance from the offset to its clamped value, and positive |
| Scrollbar.BarLength | src/plugin/scrollbar.js:70-94 | in bounds the size is client/scroll*100; out of bounds it is at least 5 and no larger than the in-bounds size (or 5) |
| Scrollbar.CreatedBarMatchesRender | src/plugin/scrollbar.js:158-168 | a created bar has the size of its first in-bounds render unless the 5% floor applies |
| Scrollbar.BarOffset | src/plugin/scrollbar.js:96-104 | the offset lies in [0, 0.95*client] and is the scaled content offset when that is in range |
| Scrollbar.Calculate | src/plugin/scrollbar.js:61-107 | in bounds on an axis, that bar's size is exactly the visible share; out of bounds it is at least 5% and at most the larger of 5% and the visible share; both offsets lie in [0, 0.95 of the viewport] |
| Scrollbar.InBoundsBarsShowVisibleShare | src/plugin/scrollbar.js:79-93 | in bounds both bars show exactly the visible share |
| Scrollbar.BarAtOriginSitsAtStart | src/plugin/scrollbar.js:96-104 | at offset (0, 0) both bars sit at the start of their tracks |
| Scrollbar.Factory | src/plugin/scrollbar.js:317-328 | a plugin with `reset` and `destroy` iff `options.scrollbar` is truthy |
| Scrollbar.EnableInstallsIffOption | src/plugin/scrollbar.js:319-327 | enabling installs the scrollbar iff the option is truthy, and it then takes part in `reset` |
| OverflowHint.Prefix | src/plugin/overflowHint.js:29 | the `className` option when it is a non-empty string, `scroll-overflow` when it is falsy |
| OverflowHint.AddClassName | src/plugin/overflowHint.js:18-25 | an empty name leaves the list unchanged; otherwise exactly `prefix-name` is appended |
| OverflowHint.HorizontalHint | src/plugin/overflowHint.js:57-66 | `right` iff x >= 0; `left` iff x < 0 and x <= minX; none strictly inside |
| OverflowHint.VerticalHint | src/plugin/overflowHint.js:68-77 | `bottom` iff y >= 0; `top` iff y < 0 and y <= minY; none strictly inside |
| OverflowHint.OutOfBoundsIsHinted | src/plugin/overflowHint.js:57-77 | an axis out of bounds always carries a hint |
| OverflowHint.Select | src/plugin/overflowHint.js:55 | stripping keeps exactly the tokens that are not hints |
| OverflowHint.SelectIdempotent | src/plugin/overflowHint.js:55 | stripping twice equals stripping once |
| OverflowHint.EdgeClassIsHint | src/plugin/overflowHint.js:30-32 | every edge class the plugin adds matches its own pattern |
| OverflowHint.RenderReplacesHints | src/plugin/overflowHint.js:50-80 | after a render the other classes are kept in order and the hints are exactly the current edge classes, at most two |
| OverflowHint.RenderIdempotent | src/plugin/overflowHint.js:50-80 | re-rendering the same position gives the same class list |
| OverflowHint.Factory | src/plugin/overflowHint.js:99-110 | a plugin with `destroy` and no `reset` iff `options.overflowHint` is truthy |
| OverflowHint.Hint.constructor | src/plugin/overflowHint.js:27-42 | the prefix comes from the options and the current offset is rendered once |
| OverflowHint.Hint.Render | src/plugin/overflowHint.js:50-80 | the container's class list becomes the stripped list plus the edge classes |

## Left out

- DOM and CSS effects are not modelled. This covers the transform strings, `runner.transition`, the scrollbar elements and their CSS, and `reset`/`show`/`hide`/`render` of the scrollbar with their timers. The promise `render` returns is reduced to a counter of pending snap-backs.
- Event listeners are not modelled: their attachment in `initScroller` and their removal in `destroy`. This includes `src/Scroll.js:495` removing them from a different element than they were added to, and the misspelled `touchcanel` key. Only `touchend` is modelled as reaching the end handler.
- The emitter is reduced to a log of notices.
- `src/util.js` (the `requestAnimationFrame` and clock shims) is not part of this model. The clock is a parameter and frame handles come from a counter.
- `src/main.js` is not part of this model.
- Touch coordinates are not extracted (`e.touches[0]`, `clientX || pageX`): the handlers receive the resolved coordinates.
- JavaScript number semantics are not modelled: NaN and the infinities. The `|| 0` fallbacks of `scrollTo` for missing or null arguments are modelled by `First`/`Rest`; what they do for NaN is not. Fields that are undefined before the first touch start are also left out; no handler reads them before then.
- `scrollToElement` is left out; it depends on `dom.position`.
- The constructor's error for an empty element is left out.
- Controller.Scroller.constructor: the options argument is always an options map, so construction always succeeds. In the source, omitting it passes `undefined` to `plugin.enable` (src/Scroller.js:479, src/Scroll.js:466), and every registered factory then reads a property of `undefined` (src/plugin/scrollbar.js:322, src/plugin/overflowHint.js:104) and throws a TypeError. That throw is not modelled.
- Plugins.Registry.Enable: never throws; the TypeError a factory raises on `undefined` options is not modelled (see the constructor line above).
- Plugin factories also receive the scroller. The model's factories see only the options, which is all the two bundled factories read to decide whether to accept; the plugin objects they build (`new Scrollbar(scroll, …)`, `new OverflowHint(scroll, …)`) read the scroller, and that construction is modelled separately by the Scrollbar and OverflowHint modules.
- Scrollbar.BarLength: content with zero `scrollHeight` or `scrollWidth` (a division by zero in the source) is excluded by a precondition. The same goes for Scrollbar.BarOffset and Scrollbar.Calculate.
- OverflowHint.Select: the class list is modelled as whitespace-free tokens, not a string matched by a regular expression. Three cases follow from this:
  - a prefix containing regular-expression metacharacters is not modelled;
  - a hint embedded at the end of a longer token is not modelled;
  - the whitespace left in the string is not modelled.
- OverflowHint.Prefix: a truthy `className` that is not a string falls back to the default prefix; JavaScript would convert it to a string.
- Momentum is not proved to terminate. Termination depends on the clock values the frames are fired with.
- Flings.RunStaysInBounds leaves out `repaint`, because `repaint` changes the bounds themselves. Gestures.RepaintClamps covers it on its own.

## Findings

| source | as written | input that shows it | evidently intended | confidence | as-written member | corrected member |
|---|---|---|---|---|---|---|
| src/Scroller.js:213-214 (and src/Scroll.js:214) | momentum continues only while `speed.x + speed.y` is non-zero, a signed sum | release delta (30, -30) over 10 ms, next frame 16 ms later: the speeds are still 2.9904 and -2.9904 but their sum is 0, so momentum stops and `:end` is emitted mid-fling | continue while either axis still moves | not executed | Motion.KeepsSteppingAsWritten, shown by Motion.SignedSumStopsWhileMoving and, for a whole step, Flings.AsWrittenStepEndsMidFling | Motion.KeepsStepping, used by Engine.Settle; Flings.StepStopsOnlyAtRest |
