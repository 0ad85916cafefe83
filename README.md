# Sequence-step navigator of the Mermaid viewer element

This project models the part of the `MermaidController` custom element that
steps through a rendered sequence diagram one numbered step at a time, and
proves properties of that model.

A navigator (`createSequenceController`) is built after each render. It holds:

- a snapshot of the step labels found in the diagram, each one a step number
  with its on-screen rectangle, in document order;
- the size read from the diagram's `viewBox`.

It offers three moves: `moveTo(n)`, `moveNext()` and `movePrev()`. A move looks
a step up in the snapshot. It then asks the pan/zoom engine to show the step's
rectangle, enlarged by a padding that depends on the viewBox size. Finally it
commits the step through `updateSequenceNumber`. That commit sets the current
step, the stepper input's value and the step label, and dispatches one
`sequenceChange` event. Step 0 is the home view: `movePrev` reaches it by
resetting the zoom, not by looking up a marker. `updateSequenceController`
installs a new navigator, replaces the cancellation token of the old
navigator's listeners and sets the stepper's maximum to the number of steps.

Layout, one module per component:

- `wrappers.dfy` (`Wrappers`): `Option`.
- `geometry.dfy` (`Geometry`): the JSON form of a DOMRect and the padded
  rectangle.
- `padding.dfy` (`ViewportPadding`): the viewBox size reading and the clamped
  padding line.
- `sequence_index.dfy` (`SequenceIndex`): markers, the first-match lookup,
  the navigator's snapshot and the rectangle it requests.
- `navigator.dfy` (`Navigator`): each operation's effect as a function from
  the old state to the new one, plus the lemmas about those functions.
- `controller.dfy` (`Controller`): the class `MermaidController`. Its fields
  are updated in place. Each method's `ensures` equates the new `State()`
  with the matching `Navigator` function of the old state.

The pan/zoom engine and the event target are outside the model. What they are
asked to do is recorded in two ghost logs: the pan requests (`ShowRect(rect)`
or `ResetZoom`) and the step numbers of the dispatched events.

Points where the code decides and the model follows it:

- With exactly three viewBox fields, the width is field 2 and only the height
  defaults to 0 (`viewBox?.[2] ?? 0`, `viewBox?.[3] ?? 0`). With no attribute
  or fewer than three fields, both default to 0.
- The comment above the formula lists sample values: 4500 → 150, 4000 → 200,
  3000 → 300, 2000 → 400, 1000 → 500. They agree with neither the formula line
  `y = -1/5x + 700` nor the code, except at 1000. The model follows the code,
  which matches the formula. `PaddingAtListedSizes` states the values the code
  gives at those sizes.
- The request keeps the marker's `x`, `y`, `width` and `height` from the
  `toJSON()` spread; only the four sides are padded (`PaddedKeepsStaleSize`).
- With no pan engine, a move still commits the step; only the pan request is
  missing. With no `#sequence` record or no label element, the commit changes
  nothing, and the current step reads as 0 when the record is missing.
- A missing controls container or button is an error thrown part-way
  through `updateSequenceController`; the effects made before the throw
  remain. A missing stepper makes the constructor fail, so it is always
  present.
- A number typed into the stepper stays on show even when `moveTo` finds no
  marker for it, so the stepper can disagree with the current step
  (`StepperInputSynced`); the three moves alone keep them equal.
- On the boundary, `moveNext` evaluates `this.#pan?.smoothShowRectangle`
  without calling it, so the move is a complete no-op.

## Model

| member | source | states |
|---|---|---|
| `Geometry.PaddedEncloses` | src/MermaidController.ts:487-495 | with non-negative paddings the requested rectangle encloses the marker's, exactly `inline` wider on the left and right and `block` taller above and below |
| `Geometry.PaddedKeepsStaleSize` | src/MermaidController.ts:488-495 | the spread carries `x`, `y`, `width`, `height` over unchanged, so a consistent DOMRect padded by a non-zero amount is no longer consistent |
| `ViewportPadding.SizeOfViewBox` | src/MermaidController.ts:433-441 | width is viewBox field 2 and height field 3; each missing field, or a missing attribute, gives 0 |
| `ViewportPadding.RectanglePadding` | src/MermaidController.ts:474-477 | padding lies in [100, 600]; it equals `700 - d/5` exactly when `500 <= d <= 3000`; it is 600 for `d <= 500` and 100 for `d >= 3000` |
| `ViewportPadding.PaddingNonIncreasing` | src/MermaidController.ts:474-477 | a larger viewBox dimension never yields more padding |
| `ViewportPadding.PaddingAtListedSizes` | src/MermaidController.ts:466-477 | the padding the code gives at 1000, 2000, 3000, 4000 and 4500 is 500, 300, 100, 100 and 100 |
| `ViewportPadding.MissingViewBoxGivesMaximumPadding` | src/MermaidController.ts:433-477 | without a viewBox, or with fewer than three fields, both paddings are 600; with fewer than four, the block padding is 600 |
| `SequenceIndex.GetSequenceElement` | src/MermaidController.ts:457-459 | a result is a marker of the snapshot with the asked number; there is no result exactly when no marker has that number |
| `SequenceIndex.GetSequenceElementIsFirst` | src/MermaidController.ts:457-459 | the first marker in snapshot order with number `n` is the one returned |
| `SequenceIndex.GetSequenceElementFound` | src/MermaidController.ts:457-459 | whatever is returned is the first marker with number `n` |
| `SequenceIndex.PanTargetSides` | src/MermaidController.ts:474-495 | the requested sides are `left - inline`, `top - block`, `right + inline`, `bottom + block`, with inline padding from the width and block padding from the height, each margin between 100 and 600 |
| `Navigator.UpdateSequenceNumberCommits` | src/MermaidController.ts:413-424 | with the record and label present, step, stepper and label become `n` and exactly one event `n` is appended; otherwise nothing changes; the pan engine is never asked |
| `Navigator.MoveToAbsentIsNoop` | src/MermaidController.ts:512-516 | when no marker has number `n`, `moveTo(n)` changes nothing: no pan request, no event, same step |
| `Navigator.MoveToPresent` | src/MermaidController.ts:512-519 | when marker `i` is the first with number `n`, `moveTo(n)` makes exactly one padded `ShowRect` request for it (if there is an engine) and commits `n` (if the record and label exist) |
| `Navigator.MoveNextIsMoveToNext` | src/MermaidController.ts:520-530 | `moveNext` behaves exactly as `moveTo(max(0, current + 1))` |
| `Navigator.MoveNextAtBoundaryIsNoop` | src/MermaidController.ts:520-527 | when no marker has the next number, `moveNext` changes nothing at all |
| `Navigator.MovePrevToHome` | src/MermaidController.ts:531-539 | when `max(0, current - 1)` is 0, `movePrev` asks for one zoom reset and commits step 0 with event 0, even from step 0 |
| `Navigator.MovePrevIsMoveToPrev` | src/MermaidController.ts:531-546 | for any other target, `movePrev` behaves exactly as `moveTo(current - 1)`, a no-op when that step has no marker |
| `Navigator.MovePrevFromFirstStep` | src/MermaidController.ts:531-539 | from step 1, `movePrev` resets the zoom and goes to step 0 with event 0 |
| `Navigator.NextThenPrevRestores` | src/MermaidController.ts:520-546 | from step `k >= 0`, if `k + 1` has a marker and `k` is 0 or has one, `moveNext` then `movePrev` returns to `k`, dispatches events `k + 1` then `k`, and makes two pan requests when there is an engine |
| `Navigator.MovesPreserveSynced` | src/MermaidController.ts:413-546 | every move keeps the stepper and label showing the current step, and the last event carrying it |
| `Navigator.StepperInputSynced` | src/MermaidController.ts:292-301 | after the user types `v` into the stepper, the label and the last event still show the current step; the stepper does exactly when `v` has a marker or already was the current step |
| `Navigator.MaxIsNextBoundary` | src/MermaidController.ts:444-453 | with step labels numbered 1 to N in order, `moveNext` from step `k < N` commits `k + 1` with one padded request for marker `k`, and from step N (the stepper's `max`) it is a no-op |
| `Navigator.MovesPreserveAtKnownStep` | src/MermaidController.ts:512-546 | every move keeps the current step at 0 or at a number some marker has |
| `Navigator.MovesAppendAtMostOne` | src/MermaidController.ts:512-546 | every move appends at most one event and one pan request, never rewrites either log, and changes the step only when it dispatches an event |
| `Controller.MermaidController.constructor` | src/MermaidController.ts:180-198 | the record exists exactly when there is a shadow root, and the label, controls container and buttons are present as found; step 0, no engine, no navigator, empty logs |
| `Controller.MermaidController.AttachPanEngine` | src/MermaidController.ts:372-388 | a render leaves a pan engine in place and changes nothing else |
| `Controller.MermaidController.UpdateSequenceNumber` | src/MermaidController.ts:413-424 | the new state is `AfterUpdateSequenceNumber` of the old one; only step, stepper, label and event log may change |
| `Controller.MermaidController.PanElement` | src/MermaidController.ts:460-495 | appends the padded `ShowRect` request when an engine exists; nothing else changes |
| `Controller.MermaidController.ResetZoom` | src/MermaidController.ts:536 | appends a `ResetZoom` request when an engine exists; nothing else changes |
| `Controller.MermaidController.MoveTo` | src/MermaidController.ts:512-519 | the new state is `AfterMoveTo` of the old one; the navigator, the stepper maximum and the listeners are untouched |
| `Controller.MermaidController.MoveNext` | src/MermaidController.ts:520-530 | the new state is `AfterMoveNext` of the old one |
| `Controller.MermaidController.MovePrev` | src/MermaidController.ts:531-546 | the new state is `AfterMovePrev` of the old one |
| `Controller.MermaidController.StepperInput` | src/MermaidController.ts:292-301 | the new state is `AfterStepperInput` of the old one: the typed value, then `moveTo` of it |
| `Controller.MermaidController.UpdateSequenceController` | src/MermaidController.ts:271-302 | fails, changing nothing, without the record or the controls container; otherwise shows the controls exactly when the text contains `sequenceDiagram`, replaces the listeners' token and installs the navigator built from this snapshot; then fails if a button is missing, and only with both buttons sets the stepper's `max` to the step count, `|markers|` |

## Left out

- URL storage, `compress` and `decompress` (lines 34-108): browser compression streams, base64 and the history API.
- `downloadAsPNG` (lines 134-172): canvas, image loading and a DOM download link.
- `render` (lines 361-395): it calls the diagram library and panzoom, neither of which is part of this model, then waits on a timer. Only its effect of leaving a pan engine in place is kept (`AttachPanEngine`). The max-width strip works on the library's output and is not modelled.
- `onReadySqeuenceController` and `waitForRendered` (lines 338-347, 397-411): timer-based polling.
- The dialog, the constructor's event listeners and `attributeChangedCallback` (lines 174-262, 304-359): DOM and custom-element plumbing around the asynchronous render.
- The easing callback (lines 496-507): floating-point animation timing. The pan engine is opaque, and only the requested target is recorded.
- DOM measurement and number parsing: `getBoundingClientRect`, `Number(textContent)` and `Number` on the viewBox fields are inputs. Step numbers are given as `int` and rectangle fields and viewBox fields as exact `real`s, so NaN and other floating-point effects are not modelled.
- `String(n)`: the stepper's `value`, its `max` and the label's `textContent` are modelled as the number they show, not as strings.
- Listener delivery: which navigator a click or stepper input reaches is not modelled. The moves and `StepperInput` take the navigator as a parameter, and cancelling the old listeners is modelled as a generation counter, so which listeners were added before `updateSequenceController` throws on a missing button is not recorded.
- Element lookups: the viewBox is read from `#graphDiv svg` while the markers come from the element named by the `target` attribute. Both are parameters. The unused `graphDivId` local is not modelled.
- The initial `value` of the stepper and `textContent` of the label come from markup that is not part of this model; the constructor takes them as 0.
- `console.debug` of the padding values: logging only.
