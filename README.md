# Map viewport controller

This project models the pan/zoom controller of the office-map view (`MapComponent`) in
Dafny, and proves what it promises. The map drawing has a fixed size of 463 × 1355 units.
It is shown inside a viewport rectangle under a view transform (translation plus scale).
Mouse, wheel and touch handlers update the transform. After every update a boundary
clamper applies one rule per axis:

- when the scaled map is larger than the viewport, the map must keep covering it;
- when the map fits, it is centred exactly on that axis.

The model has four modules:

- `Geometry` (`geometry.dfy`): the constants, the scale bound [0.8, 10] and its clamp, and
  the admissible translation range (`getBoundaryLimits`). It also holds the per-axis
  containment rule and the screen↔map coordinate convention of the zoom code. `Math.exp`
  and `Math.sqrt` are reduced to the facts the handlers rely on: `IsExpOf` and
  `IsTouchDistance`.
- `ViewModel` (`view_model.dfy`): the component's private state as a value, `ViewState`.
  It has one function per handler, which is the specification the imperative handler is
  proved against. Beside them are lemmas on containment, idempotence, the zoom anchor,
  pan exactness and zoom direction.
- `Gestures` (`gestures.dfy`): the component as an event machine. `Step` dispatches one
  input event and `Run` applies a sequence of them. Lemmas here cover all reachable
  states: the scale bound always holds, and containment holds while the viewport keeps
  one rectangle.
- `MapView` (`map_component.dfy`): class `MapComponent`. It has the source's private fields
  and the handlers as methods that update those fields statement by statement, as the
  source does. Each method ensures `State() == ViewModel.F(old(State()), …)` and keeps
  `Valid()`, the scale bound.

The code reads the translation in two ways that disagree whenever the scale is not 1:

- The zoom code (map.component.ts:69-74) treats the translation as map units. It takes
  the map point under screen coordinate `c` to be `(c - rect.left) / scale - translate`
  (`ToContent`), which places map point `p` at `rect.left + scale * (p + translate)`
  (`ToScreen`).
- The clamp (`getBoundaryLimits`, `clampTranslation`), the drag and the emitted
  `translate(t) scale(s)` string (line 312) treat it as screen pixels, added after
  scaling. That reading places `p` at `rect.left + translate + scale * p` (`DrawnAt`).

The model keeps both formulas exactly as written. Anchored zoom is stated in the zoom
code's own terms: its svgX formula recovers the same map point after the step. Two lemmas
exhibit the disagreement:

- `ViewModel.ZoomAnchorMovesWhenDrawn`: under `DrawnAt`, a zoom from scale 1 to scale 2
  about screen x moves the point drawn at x to 1.5·x.
- `ViewModel.ContainedYetOffScreen`: under `ToScreen`, a state the clamp accepts at
  scale 2 draws the whole map off-screen.

The template that applies the transform is not part of this model, so neither reading is
declared the intended one.

Facts about the code that the model keeps as they are:

- **Flags not exclusive.** The pan and pinch flags can both be set. A left-button press
  or a one-finger touch sets `isPanning` without clearing `isPinching`.
  `Gestures.PanAndPinchCanBothBeActive` exhibits such a state, and no invariant claims
  exclusivity.
- **Degenerate viewports.** The clamp skips only a missing rectangle. A zero or negative
  viewport size is clamped like any other, and so it is in `Clamp`.
- **No guard for non-finite scale.** The code has none. Exact reals have no non-finite
  values, so the model has none either.
- **No resize handler.** The component has none. Containment is therefore proved against
  the rectangle each event carries.

Other details of the code that the model keeps:

- `isOverInteractive` is set on a press over DESKS/ROOMS and is never cleared or read.
- `centerSVG` is written on a two-finger touch start, but the pinch handler recomputes its
  anchor and never reads it.

## Model

| member | source | states |
|---|---|---|
| `Geometry.ClampScale` | angular/src/app/map/map.component.ts:66 | the result always lies in [0.8, 10]; a scale already in range is kept; below 0.8 gives 0.8 and above 10 gives 10 |
| `Geometry.ClampedZoomDirection` | angular/src/app/map/map.component.ts:64-66 | a factor ≥ 1 never lowers a bounded scale after clamping, a factor ≤ 1 never raises it, and a factor of 1 keeps it |
| `Geometry.BoundaryLimits` | angular/src/app/map/map.component.ts:270-288 | at `minX`/`minY` the map's far edge lies on the viewport's far edge; `maxX`/`maxY` are the border margin; the range is non-empty whenever the scaled map is larger than the viewport |
| `Geometry.CentredMeansEqualGaps` | angular/src/app/map/map.component.ts:298-301 | on an axis where the map fits, the centring rule holds exactly when the gaps before and after the map are equal |
| `Geometry.ScreenContentRoundTrip` | angular/src/app/map/map.component.ts:69-70 | converting a screen coordinate to the map coordinate the zoom code computes, and back, gives the same screen coordinate |
| `Geometry.ContentScreenRoundTrip` | angular/src/app/map/map.component.ts:69-70 | converting a map coordinate to the screen and back gives the same map coordinate |
| `Geometry.Midpoint` | angular/src/app/map/map.component.ts:227-228 | the pinch centre is equidistant from both contacts on each axis |
| `Geometry.SquaredDistance` | angular/src/app/map/map.component.ts:247-250 | the quantity under the square root is never negative, and it is zero for coinciding contacts |
| `Geometry.TouchDistanceUnique` | angular/src/app/map/map.component.ts:247-251 | the touch distance is determined by the two contacts: two non-negative roots of the same squared distance are equal |
| `Geometry.TouchDistanceZero` | angular/src/app/map/map.component.ts:247-251 | coinciding contacts are at distance zero |
| `Geometry.IsTouchDistance` | angular/src/app/map/map.component.ts:247-251 | what the model keeps of `getTouchDistance`: the distance is non-negative and its square is the squared distance of the contacts; `TouchDistanceUnique` shows this determines it and `TouchDistanceZero` gives 0 for coinciding contacts |
| `ViewModel.Clamp` | angular/src/app/map/map.component.ts:290-309 | with no rectangle the state is unchanged; otherwise the result satisfies the containment rule on both axes (within `[-(mapW*scale - width), margin]` when the map is larger, centred when it fits); only the two translations change; an already contained state is a fixed point |
| `ViewModel.ClampNearest` | angular/src/app/map/map.component.ts:296-305 | on each axis the clamped translation is the admissible translation nearest the old one: no admissible value is closer |
| `ViewModel.ClampIdempotent` | angular/src/app/map/map.component.ts:290-309 | clamping a clamped state with the same rectangle changes nothing |
| `ViewModel.ClampKeepsAdmissibleAxis` | angular/src/app/map/map.component.ts:296-297 | an axis whose translation is already admissible keeps its translation, whatever the other axis does |
| `ViewModel.Settle` | angular/src/app/map/map.component.ts:45-49 | the initial state clamped once satisfies containment for the container's rectangle, at scale 1 with no gesture active |
| `ViewModel.SettleExample` | angular/src/app/map/map.component.ts:31-32 | for a 463 × 700 viewport at scale 1 the settled translation is (0, 0): centred horizontally, at the top vertically |
| `ViewModel.ZoomAt` | angular/src/app/map/map.component.ts:65-75 | the new scale is the clamped product and lies in [0.8, 10]; the map point under the anchor is the same at the new scale (anchor fixpoint, before clamping); no gesture bookkeeping changes |
| `ViewModel.ZoomKeepsSvgPointUnderAnchor` | angular/src/app/map/map.component.ts:69-74 | after the zoom step, the code's own svgX formula at the new scale and translation recovers the map point it computed under the anchor before the step |
| `ViewModel.ZoomAnchorMovesWhenDrawn` | angular/src/app/map/map.component.ts:69-74 | read as the emitted `translate(t) scale(s)` string reads it, a zoom from scale 1 and translation 0 to scale 2 about any screen x moves the map point drawn at x before the step to 1.5·x |
| `ViewModel.ContainedYetOffScreen` | angular/src/app/map/map.component.ts:275-305 | read as the zoom code reads it, a translation the clamp accepts at scale 2 in a 463 × 700 viewport draws the map's far corner at the viewport's origin, the whole map off-screen |
| `ViewModel.Wheel` | angular/src/app/map/map.component.ts:53-91 | the result keeps the scale bound, satisfies containment for the event's rectangle and leaves the gesture bookkeeping alone; with ctrl the scale becomes the clamped product, without ctrl the scale is unchanged |
| `ViewModel.WheelPanTarget` | angular/src/app/map/map.component.ts:83-87 | the unclamped wheel pan: each translation moves by `-2*delta/scale`; pinned down by `WheelPanExact`, which shows the wheel pan lands exactly there whenever that target is admissible |
| `ViewModel.WheelPanExact` | angular/src/app/map/map.component.ts:82-87 | a wheel pan whose target is admissible moves the translation by exactly `-2*delta/scale` on each axis |
| `ViewModel.WheelZoomDirection` | angular/src/app/map/map.component.ts:61-66 | with ctrl, scrolling up (negative deltaY) never zooms out, scrolling down never zooms in, and zero delta keeps the scale |
| `ViewModel.Mousedown` | angular/src/app/map/map.component.ts:93-105 | the view never moves; a non-left button changes nothing; a left press over DESKS/ROOMS sets only `isOverInteractive`; any other left press starts a pan anchored at the pointer; the pinch state and `centerSVG` are untouched |
| `ViewModel.DragComposes` | angular/src/app/map/map.component.ts:121-128 | incremental dragging does not drift: two drag steps equal one step to the final pointer position |
| `ViewModel.Drag` | angular/src/app/map/map.component.ts:121-128 | the unclamped drag update shared with lines 202-209: the translation grows by the pointer displacement since the anchor and the anchor moves to the pointer; `DragComposes` shows incremental steps do not drift and `PanTo` that the clamped step equals it whenever it is admissible |
| `ViewModel.PanTo` | angular/src/app/map/map.component.ts:201-213 | the pan step keeps the scale, flags, pinch distance and `centerSVG`, moves the anchor to the pointer and satisfies containment; when the dragged translation is admissible, the map moves by exactly the pointer displacement since the anchor |
| `ViewModel.Mousemove` | angular/src/app/map/map.component.ts:118-134 | without an active pan nothing changes; with one, the result is the pan step to the pointer |
| `ViewModel.Mouseup` | angular/src/app/map/map.component.ts:136-146 | without an active pan nothing changes; afterwards no pan is active; an ended pan is re-clamped (contained when the container exists); scale, pinch state, anchor, `isOverInteractive` and `centerSVG` are unchanged |
| `ViewModel.TouchStart` | angular/src/app/map/map.component.ts:150-176 | the view never moves; one contact starts a pan at it and leaves the pinch flag, distance and `centerSVG`; two contacts start a pinch, clear the pan and record the distance, and `centerSVG` is the map point the code's svgX formula puts under their midpoint; any other count changes nothing |
| `ViewModel.Pinch` | angular/src/app/map/map.component.ts:216-245 | the scale becomes the clamped product and stays in [0.8, 10]; the result is contained; the new distance is recorded; flags and pan anchor are unchanged |
| `ViewModel.PinchDirection` | angular/src/app/map/map.component.ts:217-224 | spreading the fingers never zooms out, pinching them together never zooms in, and an unchanged distance keeps the scale |
| `ViewModel.TouchMove` | angular/src/app/map/map.component.ts:178-188 | pinching with two contacts zooms; otherwise panning with one contact pans; every other flag/count combination changes nothing; the scale bound is kept |
| `ViewModel.TouchEnd` | angular/src/app/map/map.component.ts:190-199 | always clears both gesture flags and the pinch distance, then re-clamps: contained when the container exists, view unchanged when not; scale unchanged |
| `ViewModel.TouchEndIdempotent` | angular/src/app/map/map.component.ts:190-199 | ending a touch gesture twice is the same as ending it once |
| `Gestures.Step` | angular/src/app/map/map.component.ts:53-199 | every handler keeps the scale in [0.8, 10] |
| `Gestures.Run` | angular/src/app/map/map.component.ts:18-29 | starting from a bounded scale, the scale stays in [0.8, 10] through any sequence of events |
| `Gestures.StepContainedOrStill` | angular/src/app/map/map.component.ts:53-199 | every event either leaves scale and translation unchanged or leaves the state contained in the rectangle it clamps against |
| `Gestures.StepKeepsContained` | angular/src/app/map/map.component.ts:290-309 | on an unchanged viewport, a contained state stays contained through any single event |
| `Gestures.RunKeepsContained` | angular/src/app/map/map.component.ts:290-309 | on an unchanged viewport, a contained state stays contained through any sequence of events |
| `Gestures.ReachableStates` | angular/src/app/map/map.component.ts:45-49 | every state reached from the settled initial state keeps the scale bound and, on an unchanged viewport, the containment rule |
| `Gestures.PanAndPinchCanBothBeActive` | angular/src/app/map/map.component.ts:101-165 | a two-finger touch start followed by a left press outside DESKS/ROOMS leaves `isPanning` and `isPinching` both set |
| `Gestures.TouchEndRestores` | angular/src/app/map/map.component.ts:190-193 | whatever events came before, a touch end leaves no gesture active and the pinch distance at 0 |
| `MapView.MapComponent.constructor` | angular/src/app/map/map.component.ts:18-40 | the fields start at scale 1, translation (0, 0), no gesture, zero anchor and distance |
| `MapView.MapComponent.NgAfterViewInit` | angular/src/app/map/map.component.ts:45-49 | the state becomes the clamp of the old state against the container's rectangle, contained when it exists |
| `MapView.MapComponent.ClampTranslation` | angular/src/app/map/map.component.ts:290-309 | the fields become `Clamp` of the old state; contained when a rectangle is given; scale unchanged |
| `MapView.MapComponent.OnWheel` | angular/src/app/map/map.component.ts:53-91 | the fields become `Wheel` of the old state; scale bound kept; contained in the target's rectangle |
| `MapView.MapComponent.OnMousedown` | angular/src/app/map/map.component.ts:93-105 | the fields become `Mousedown` of the old state |
| `MapView.MapComponent.OnMousemove` | angular/src/app/map/map.component.ts:118-134 | the fields become `Mousemove` of the old state; contained after a pan step |
| `MapView.MapComponent.OnMouseup` | angular/src/app/map/map.component.ts:136-146 | the fields become `Mouseup` of the old state; no pan is active afterwards |
| `MapView.MapComponent.OnTouchStart` | angular/src/app/map/map.component.ts:150-176 | the fields become `TouchStart` of the old state |
| `MapView.MapComponent.OnTouchMove` | angular/src/app/map/map.component.ts:178-188 | the fields become `TouchMove` of the old state |
| `MapView.MapComponent.OnTouchEnd` | angular/src/app/map/map.component.ts:190-199 | the fields become `TouchEnd` of the old state; no gesture is active and the distance is 0 |
| `MapView.MapComponent.HandleTouchPan` | angular/src/app/map/map.component.ts:201-214 | the fields become the pan step `PanTo` of the old state; contained |
| `MapView.MapComponent.HandlePinch` | angular/src/app/map/map.component.ts:216-245 | the fields become `Pinch` of the old state; contained; the recorded distance is the current one |

## Left out

- DOM access becomes plain inputs. `getBoundingClientRect` becomes a `Rect`; a `document.querySelector` that may find nothing becomes an `Option<Rect>`; `event.button`, `clientX/Y`, `deltaX/Y`, `ctrlKey` and `touches` become parameters. `preventDefault`, `stopPropagation` and `classList.add/remove('panning')` only affect the page and are not modelled.
- `elementHasDesksOrRoomsLabel` walks the DOM ancestors looking for an `inkscape:label` of DESKS or ROOMS. Its answer is the boolean input `overDesksOrRooms` of the press handler.
- `onClick` only logs the clicked element and stops propagation, so it has no state to model.
- `updateTransform`, the `transform` string and `initialViewBox` only format numbers for the template.
- `ngOnInit` is empty. The Angular decorators and host-listener wiring are replaced by `Gestures.Step`. `app.component.ts` holds no logic.
- `Math.exp` is an input `factor` constrained by `IsExpOf`: positive, above 1 exactly for a positive exponent, below 1 exactly for a negative one. The numeric values of the tuning constants 0.005 and 0.004 are therefore not verified.
- `Math.sqrt` in `getTouchDistance` is an input `distance` constrained by `IsTouchDistance` to be the non-negative root of the squared distance.
- IEEE floating point (rounding, NaN, infinities) is not modelled: coordinates are exact reals. The anchor fixpoint therefore holds exactly, not within a tolerance.
- `ViewModel.ZoomAt`: the anchor fixpoint is stated before clamping, as the code computes it. The clamp that follows may move the anchor whenever the anchored translation is not admissible.
- `ViewModel.ZoomKeepsSvgPointUnderAnchor`: the zoom formula (map.component.ts:69-74) reads the translation as map units, while the clamp, the drag and the transform string read it as screen pixels. The model keeps both as written and proves the anchor only in the zoom code's reading, so it does not promise that the point under the cursor stays under the cursor on screen. The template that composes the transform is not part of this model.
- `Geometry.SquaredDistance`: the converse (a zero squared distance only for coinciding contacts) is not stated.
