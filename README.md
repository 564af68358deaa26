# Touch gestures of the AR viewer, in Dafny

This project models the touch-gesture layer of a small A-Frame augmented-reality
viewer (`script.js`): the `gesture-detector` component, which turns raw touch
events into named gesture events, and the `gesture-handler` component, which
turns those events into rotation and zoom of the displayed model.

- `touches.dfy` (module `Touches`): contact points, the sample computed for each
  raw event (touch count, centroid of the contacts, spread between the first two
  contacts), and facts about the centroid and the spread.
- `detector.dfy` (module `GestureDetection`): the finger-count buckets
  (one, two, three, many), the start/move/end events, the transition function
  `Step` of one raw event and `Run` of a series, and the class
  `GestureDetector` whose only state is the stored previous sample; every event
  it emits is appended to `emitted`. `GetTouchState` keeps the source's copy
  loop; `EmitGestureEvent` keeps its three `if`s and is proved equal to `Step`.
- `handler.dfy` (module `GestureHandling`): the fixed-step zoom multiplier,
  the clamp of each scale axis, the class `GestureHandler` (the visibility flag,
  the subscription to one- and two-finger moves, the in-place changes of the
  entity's `Object3D`), the function `Respond` that states what one event does
  to the entity, and properties of event streams, including two that run from
  raw touches through the detector to the handler (`OneFingerDrag`,
  `TwoFingerPanKeepsScale`).

Coordinates, angles and scales are exact `real`s. A missing spread is `None`.
A spread change computed from missing spreads is `None` as well. In the source
that value is `NaN`, and `NaN` compares false with 0, so the zoom multiplier is 1.

The model keeps these behaviours of the code:

- The start fields are not carried forward through a gesture. On a
  continuation the stored sample is replaced by a freshly computed one that was
  never stamped (script.js:21, 49). So the `startSpread` of every move event is
  absent (`MovesHaveNoStartSpread`).
- Two contacts at (0,0) and (10,0) followed by (0,0) and (20,0) give a spread
  change of +10 and a zoom step of 1.05 (`PinchOutExample`).
- Each scale axis is scaled and clamped on its own, so the axes stay equal only
  if they start equal (`ScaleInvariant`).

Attaching the handler component is its constructor followed by `Update` with
the configuration, because A-Frame calls `update()` after `init()`. With
`enabled` true the handler is then listening.

## Model

| member | source | states |
|---|---|---|
| Touches.SampleOf | script.js:52-64 | no contacts give no sample; otherwise the touch count is the number of contacts, the sample has no start fields, its position is the centroid of the contacts, and its spread is the spread of the first two contacts, present exactly when there are two or more |
| Touches.Spread | script.js:59-62 | the spread is present exactly when there are at least two contacts |
| Touches.SpreadFirstTwo | script.js:59-61 | the spread depends only on the first two contacts |
| Touches.TouchSum | script.js:57 | no contract; the sum of the contacts accumulated left to right as `reduce` does, used by the ensures of TouchSumXInRange, TouchSumYInRange and TouchSumShifted |
| Touches.Centroid | script.js:58 | with a single contact the centroid is that contact; CentroidAppend pins it down as the mean of the contacts, and CentroidInBox and CentroidShifted give two properties of it |
| Touches.TouchSumXInRange | script.js:57 | the summed x coordinates of n contacts, each in [lo, hi], lie in [n·lo, n·hi] |
| Touches.TouchSumYInRange | script.js:57 | the same for the y coordinates |
| Touches.CentroidAppend | script.js:57-58 | the centroid is a running mean: with one more contact p, (n + 1) times the new centroid is n times the old centroid plus p, in each coordinate |
| Touches.CentroidInBox | script.js:57-58 | the centroid lies in every box that holds all the contacts |
| Touches.TouchSumShifted | script.js:57 | moving every contact by d adds n·d to the sum |
| Touches.CentroidShifted | script.js:57-58 | moving every contact by d moves the centroid by d |
| Touches.SpreadShifted | script.js:59-61 | moving every contact by d leaves the spread unchanged |
| GestureDetection.BucketOf | script.js:65-68 | 1, 2 and 3 contacts give buckets one, two and three; every count of 4 or more gives many |
| GestureDetection.PrefixNames | script.js:65-68 | the bucket's name is the entry min(n, 4) − 1 of ["one", "two", "three", "many"], which is "many" for n ≥ 4 |
| GestureDetection.EventNamesDistinct | script.js:27-47 | two events with the same name have the same bucket and the same kind, so a listener for "onefingermove" hears only one-finger moves |
| GestureDetection.Prefix | script.js:66-67 | no contract; the table of names "one", "two", "three", "many", used by PrefixNames and EventName |
| GestureDetection.EventName | script.js:27-47 | no contract; the bucket's name followed by "fingerstart", "fingermove" or "fingerend", used by EventNamesDistinct |
| GestureDetection.StartSpreadOf | script.js:43 | no contract; the sample's start spread, absent on a sample that was never stamped, used by MoveFrom and StepContinues |
| GestureDetection.MoveFrom | script.js:40-46 | previous position + position change = current position; the detail carries the current position and spread and the current sample's start spread |
| GestureDetection.Stamped | script.js:32-34 | the stamp holds `now`, the sample's position and its spread; nothing else of the sample changes |
| GestureDetection.SpreadChange | script.js:42 | the change is present exactly when both spreads are, and then previous + change = current |
| GestureDetection.Step | script.js:20-51 | the sample stored after one raw event is absent or has at least one contact |
| GestureDetection.Run | script.js:20-51 | the same after a series of raw events |
| GestureDetection.GestureDetector.constructor | script.js:9 | a new detector has no stored sample and has emitted nothing |
| GestureDetection.GestureDetector.GetTouchState | script.js:52-64 | the copy loop yields exactly `SampleOf` of the contacts |
| GestureDetection.GestureDetector.EmitGestureEvent | script.js:20-51 | appends exactly `Step`'s events, in order, to what was emitted, and stores `Step`'s next sample |
| GestureDetection.StepContinues | script.js:23-50 | same non-zero touch count: exactly one move event of that bucket and no start or end; it carries the centroid change cur − prev, the spread change, the current position and spread, and the current sample's start spread; the new sample is stored unstamped |
| GestureDetection.StepChangesCount | script.js:23-38 | the count changes from k to m, both non-zero: exactly the end of bucket(k) with the stored sample, then the start of bucket(m) with the stamped new sample, and no move |
| GestureDetection.StepReleases | script.js:23-31 | no contacts: an end event if a gesture was in progress, otherwise nothing; never a start; nothing is stored |
| GestureDetection.StepBegins | script.js:23-38 | contacts after none: a single start event with the stamped sample, which is stored |
| GestureDetection.StepStoresCurrent | script.js:26-50 | the stored sample is the one just computed (stamped only if it started a gesture), so it is absent exactly when the event had no contacts |
| GestureDetection.StartIsStamped | script.js:31-36 | a start event carries the new sample with start time `now`, start position its position and start spread its spread |
| GestureDetection.ShiftedMove | script.js:39-46 | when every contact moves by d, a single move event follows, with position change d and spread change 0 (absent with one contact) |
| GestureDetection.StepTracks | script.js:20-51 | one step keeps the start/move/end protocol, and the open gesture afterwards is the bucket of the stored sample |
| GestureDetection.TrackAppend | script.js:20-51 | following the protocol over two streams in turn is following it over their concatenation |
| GestureDetection.RunTracks | script.js:20-51 | for any series of raw events the emitted stream is well bracketed: each move and end belongs to the open gesture, each start comes when none is open, and the open gesture at the end is the stored sample's bucket |
| GestureDetection.RunTwo | script.js:20-51 | running two raw events is the step of the first followed by the step of the second, with their events concatenated |
| GestureDetection.RunStoresLast | script.js:20-51 | after a series of raw events the stored sample is the last event's sample, absent exactly when that event had no contacts |
| GestureDetection.MovesHaveNoStartSpread | script.js:43 | because start fields are not carried forward, every move event's start spread is absent |
| GestureDetection.DragTelescopes | script.js:39-49 | a drag that keeps the touch count emits only moves of that bucket, and their position changes add up to the centroid's whole displacement |
| GestureHandling.ScaleMultiplier | script.js:108-110 | the multiplier is exactly 1.05 when the spread change is positive, 0.95 when it is negative, and 1 when it is zero or absent |
| GestureHandling.Clamp | script.js:121-123 | the result is at most maxScale, at least minScale when minScale ≤ maxScale, unchanged inside the bounds, and equal to the bound it crosses; when minScale > maxScale the result is maxScale |
| GestureHandling.GestureHandler.constructor | script.js:79-82 | a new handler is not visible and not listening; attaching is this followed by `Update` |
| GestureHandling.GestureHandler.MarkerFound | script.js:83 | sets the visibility flag and changes nothing else |
| GestureHandling.GestureHandler.MarkerLost | script.js:84 | clears the visibility flag and changes nothing else |
| GestureHandling.GestureHandler.Update | script.js:86-94 | takes the new configuration and listens exactly when it is enabled |
| GestureHandling.GestureHandler.Remove | script.js:95-98 | stops listening |
| GestureHandling.GestureHandler.HandleRotation | script.js:99-105 | when visible, yaw grows by positionChange.x · rotationFactor · 0.005 and pitch by positionChange.y · rotationFactor · 0.005; otherwise nothing changes; the scale never changes |
| GestureHandling.GestureHandler.HandleScale | script.js:106-127 | when visible, each axis becomes min(max(v · multiplier, minScale), maxScale); otherwise nothing changes; the rotation never changes |
| GestureHandling.GestureHandler.Dispatch | script.js:86-98 | a delivered event changes the entity exactly as `Respond` says: one-finger moves rotate and two-finger moves zoom, only while listening and visible |
| GestureHandling.Rescaled | script.js:116-123 | no contract; each axis multiplied by the zoom step and clamped on its own, used by HandleScale, RescaledInBounds, RescaledAtBound and ClampAtMaxExample |
| GestureHandling.Rotated | script.js:102-103 | no contract; the rotation increment, used by HandleRotation, RotatedTwice, RotationAccumulates and OneFingerDrag |
| GestureHandling.Respond | script.js:86-127 | no contract; the effect of one delivered event, used by Dispatch |
| GestureHandling.RespondAll | script.js:86-127 | no contract; the effect of a stream of events, used by InvisibleIsInert, UnsubscribedIsInert, ScaleInvariant, RotationAccumulates and OnlyOneFingerMoves |
| GestureHandling.RescaledInBounds | script.js:112-125 | when minScale ≤ maxScale, one zoom step puts every axis inside the bounds, whatever the scale before, and equal axes stay equal |
| GestureHandling.RescaledAtBound | script.js:116-123 | with 0 ≤ minScale ≤ maxScale, zooming in at maxScale stays at maxScale and zooming out at minScale stays at minScale |
| GestureHandling.InvisibleIsInert | script.js:99-127 | while the marker is not visible, no stream of events changes the rotation or the scale |
| GestureHandling.UnsubscribedIsInert | script.js:86-98 | while the handler is not listening, no stream of events changes the entity |
| GestureHandling.ScaleInvariant | script.js:112-125 | a scale inside the bounds stays inside them, and a uniform scale stays uniform, through any stream of events |
| GestureHandling.DefaultScaleInvariant | script.js:73-77 | the schema defaults enable the handler, and with them a scale inside [0.01, 3.0] stays inside it through any stream of events |
| GestureHandling.RotatedTwice | script.js:102-103 | two rotation increments in a row equal one increment by the summed drag |
| GestureHandling.RotationAccumulates | script.js:99-105 | rotation is unclamped: while the marker is visible and the handler is listening, after any stream of events it is the start rotation turned by the sum of all one-finger position changes |
| GestureHandling.OneFingerDrag | script.js:99-105 | while the marker is visible and the handler is listening, a one-finger drag, from raw touches through the detector, turns the entity by the finger's whole displacement and leaves its scale unchanged |
| GestureHandling.OnlyOneFingerMoves | script.js:99-105 | a stream of one-finger moves never changes the scale |
| GestureHandling.TwoFingerPanKeepsScale | script.js:106-125 | two fingers moved together without changing their distance give one two-finger move with position change d, which leaves an in-bounds scale unchanged |
| GestureHandling.PinchOutSamples | script.js:52-64 | (0,0),(10,0) gives a two-contact sample at (5,0) with spread 10, and (0,0),(20,0) one at (10,0) with spread 20 |
| GestureHandling.PinchOutExample | script.js:39-50 | (0,0),(10,0) then (0,0),(20,0): a two-finger start at (5,0) with spread 10, then a move by (5,0) with spread change +10, which zooms by 1.05 |
| GestureHandling.ClampAtMaxExample | script.js:116-123 | with bounds [0.005, 0.2], zooming in at 0.19 gives 0.1995, and the next step is clamped to exactly 0.2 |

## Left out

- The `screenshot-handler` component (script.js:133-195): canvas and video compositing, the download link and the button text are I/O and UI.
- A-Frame component registration and schema parsing. The configuration is a `Config` value, and `DefaultConfig` holds the schema defaults (script.js:73-77).
- The detector's listener wiring (script.js:11-18): it adds and removes its handler for touchstart/touchmove/touchend on the target element. The model calls `EmitGestureEvent` directly with the event's contacts. The detector's `remove`, which only removes listeners, is not modelled.
- The lookup of the target element with `document.querySelector`, falling back to the component's own element (script.js:7-8). This is a DOM call.
- `performance.now()` (script.js:32) is the parameter `now` of `EmitGestureEvent`.
- `Math.hypot` (script.js:60) is the function `hypot` given to the detector at construction. The model does not assume anything about it.
- Floating-point rounding and `NaN`: arithmetic is exact on `real`, and a spread change from missing spreads is `None`.
- The event bus: `el.emit` is modelled as appending to `emitted`, and delivery to the handler as a call to `Dispatch`. Bubbling from the element to the scene is not modelled.
- The asynchronous delivery of markerFound/markerLost (script.js:83-84): they are the methods `MarkerFound` and `MarkerLost`.
- Adding a listener that is already registered does nothing in the DOM, so the subscription is the flag `subscribed`.
- `Object3D` stands for three.js's object: only its `rotation` (Euler angles) and `scale` fields are modelled.
