# image-mappers viewport and region state, in Dafny

image-mappers is a React viewer for a large picture that has clickable polygon
regions. The user zooms with the wheel or a two-finger pinch, pans by dragging,
hovers a region to see a tooltip, and clicks a region to select it. This project
models the part of the viewer that decides where the picture is and which region
is highlighted, and proves what that logic promises:

- in `InteractiveMap`, every committed transform covers the view with the
  image, clamping is idempotent and leaves legal transforms alone, an
  unclamped zoom keeps the point under the cursor or the fingers where it
  was, and a drag stops at an edge;
- in `useTransform` and `calculateBounds`, in the centred frame their
  comments describe, an axis on which the image overflows stays covered,
  while an axis on which it fits is pinned at the centre (the image is centred there and may leave a margin);
  every clamp lands on the nearer bound, so a drag past a bound stops
  exactly at it;
- hover wins over selection;
- the tooltip record stays consistent over any sequence of events.

The repository uses three coordinate frames. Each is modelled as written and
none is merged into another.

- `Geometry` (`geometry.dfy`) holds the points, rectangles, `Clamp` and the
  pointer offset that every other module imports.
- `MapUtils` (`map_utils.dfy`) is `calculateBounds` from
  `src/utils/index.ts`. It uses a centred frame with a 1920x1200 image and
  allows half the overflow on each side.
- `TransformHook` (`transform_hook.dfy`) is the `useTransform` hook. It uses a
  hard-wired 1920x1080 image and bounds that divide the overflow half by the
  scale. The coverage statements assume the centred frame the hook's own
  comments describe, in which the translate is the screen offset of the
  image centre from the container centre (ImageMapper renders it as
  `scale(s) translate(tx/s)` about the wrapper's centre); in that frame the
  image may move only `1/scale` of its overflow half each way. Its pure
  helpers are functions. The hook's state (`transform`, `isDragging`,
  `dragStart`, `dragOffset`) is the class `TransformController`, with one
  method per handler.
- `InteractiveMap` (`interactive_map.dfy`) is the `InteractiveMap`
  component. It uses a top-left frame, a dynamic minimum scale and a maximum
  zoom of 5. `constrainTransform`, the zoom and pan steps and the polygon
  styles are functions. The component's state is the class `MapView`, with
  one method per event handler. `Legal`, meaning the image spans the
  container and the scale is in range, is the class invariant.
- `PolygonPoints` (`polygon_points.dfy`) is `coordsToPoints`. It is a
  `while` loop proved against the token list it builds, together with a
  split/join round trip.
- `TooltipHook` (`tooltip_hook.dfy`) is the `useTooltip` state machine. Each
  handler is a function on the tooltip record and a method of `TooltipState`.
  `Run` replays any sequence of events.

How inputs are modelled:

- All quantities are `real`.
- A DOM reference that may be unmounted (`ref.current`,
  `getBoundingClientRect()`) is an `Option<Rect>` or `Option<Size>` argument.
  `None` is the early-return path.
- A finger distance (`Math.sqrt` in `getTouchDistance`) is an argument.
- JavaScript's number-to-string conversion is a parameter
  `fmt: real -> string`.
- Whether the mouse-down target is a `<polygon>` is a boolean argument.

## Model

| member | source | states |
|---|---|---|
| Geometry.Clamp | src/hooks/use-transform.ts:85-92 | `Math.max(lo, Math.min(hi, v))` is in `[lo, hi]` when that interval is non-empty, is `v` when `v` is inside, is the nearer end otherwise, and is `lo` when the interval is empty |
| Geometry.Relative | src/hooks/use-tooltip.ts:30-32 | the pointer position relative to an element, plus the element's offset, gives back the client position |
| MapUtils.HalfOverflow | src/utils/index.ts:23-42 | the per-axis slack is 0 exactly when the image fits; otherwise container plus twice the slack equals the scaled image |
| MapUtils.CalculateBounds | src/utils/index.ts:15-50 | the four branches reduce to one rule per axis (0 when the axis fits, half the overflow otherwise), and the bounds are symmetric and ordered |
| MapUtils.AxesIndependent | src/utils/index.ts:24-49 | the X bounds do not depend on the container height, and the Y bounds do not depend on its width |
| MapUtils.BoundsCoverContainer | src/utils/index.ts:23-49 | any translate within the bounds keeps the centred image's edges at or beyond the container's on an overflowing axis, and pins the translate to 0 on an axis that fits |
| MapUtils.BoundsGrowWithScale | src/utils/index.ts:20-47 | for positive scales, a larger scale never shrinks `maxX` or `maxY` |
| TransformHook.CalculateImageBounds | src/hooks/use-transform.ts:30-66 | on each axis the bound is positive exactly when the image overflows, then equals overflow/(2*scale); otherwise 0; always `min == -max <= 0 <= max` |
| TransformHook.ImageBoundsCoverContainer | src/hooks/use-transform.ts:41-61 | at a scale of at least 1, a translate within the bounds, read in the assumed centred frame (the screen offset of the image centre from the container centre), keeps the image over the whole container on overflowing axes, and is 0 on an axis that fits |
| TransformHook.ImageBoundsGrowWithScale | src/hooks/use-transform.ts:42-61 | for a measured container, a larger scale never shrinks `maxX` or `maxY` |
| TransformHook.ResetPositionIfNeeded | src/hooks/use-transform.ts:69-97 | without a container the translate comes back unchanged; with one the result is within the bounds at the new scale, and each axis on its own is kept when it is within its bounds and lands exactly on the bound it passes otherwise |
| TransformHook.ResetPositionIdempotent | src/hooks/use-transform.ts:75-94 | resetting an already reset position changes nothing |
| TransformHook.GetMinimumScale | src/hooks/use-transform.ts:116-131 | `MIN_SCALE` without a container; for a measured container, the aspect-ratio branch picks `max(width/1920, height/1080)`, the scale at which the image covers both axes and fits one exactly |
| TransformHook.AspectComparison | src/hooks/use-transform.ts:120-124 | for a non-negative size, `1920/1080 > width/height` (with JavaScript's division by zero) holds exactly when the height ratio exceeds the width ratio |
| TransformHook.WheelScale | src/hooks/use-transform.ts:144-149 | the stepped scale is at least `max(MIN_SCALE, minimumScale)`, at most `MAX_SCALE` when that lower end allows, never grows on a scroll down nor shrinks on a scroll up from inside the range, is exactly `scale ± 0.1` when that is in range, and is the nearer end of the range when the step overshoots it (the lower end when the range is empty) |
| TransformHook.WheelTranslate | src/hooks/use-transform.ts:153-163 | a cursor at the container centre or an unchanged scale leaves the translate alone; in general `scale² * (new - old) == (centre - mouse) * (newScale - scale)` on each axis |
| TransformHook.WheelAtCentreKeepsTranslate | src/hooks/use-transform.ts:134-179 | a scroll up with the cursor at the container centre, from a scale of at most `MAX_SCALE` and an in-bounds translate, never lowers the scale and keeps the translate |
| TransformHook.WheelProposalKeepsPointIff | src/hooks/use-transform.ts:153-163 | in the assumed centred frame, for a real change of scale, the proposal keeps the image point `(m - tx)/s` under a cursor `m` pixels from the centre on an axis (stated without division: `(m - p) * s == (m - tx) * s'`) exactly when `tx * s == m * (s - 1)`, that is `tx == m(1 - 1/s)` |
| TransformHook.WheelZoom | src/hooks/use-transform.ts:134-179 | no container or an unchanged stepped scale is a no-op; otherwise the scale is `WheelScale`, at least `MIN_SCALE`, and the committed translate is `resetPositionIfNeeded` of `WheelTranslate`'s proposal, so it lies within the bounds at the new scale |
| TransformHook.DragTransform | src/hooks/use-transform.ts:200-228 | a drag keeps the scale and lands within the bounds; on each axis on its own the translate is snapshot offset plus pointer displacement when that is within the axis' bounds, and stops exactly at the bound it would pass otherwise |
| TransformHook.DragIgnoresPath | src/hooks/use-transform.ts:200-204 | dragging to `p1` and then `p2` gives the same transform as dragging straight to `p2` |
| TransformHook.Abs | src/hooks/use-transform.ts:280-281 | `Math.abs` is non-negative and equals `v` or `-v` |
| TransformHook.TransformController.constructor | src/hooks/use-transform.ts:19-27 | the initial state is scale 1, translate 0, not dragging, snapshots at the origin |
| TransformHook.TransformController.HandleWheel | src/hooks/use-transform.ts:134-179 | the transform becomes `WheelZoom` of the old one; the drag fields are untouched; the scale stays at least `MIN_SCALE` |
| TransformHook.TransformController.HandleMouseDown | src/hooks/use-transform.ts:182-193 | a non-left button changes nothing; a left button starts a drag and snapshots the pointer and the current translate |
| TransformHook.TransformController.HandleMouseMove | src/hooks/use-transform.ts:196-231 | not dragging, or no container, changes nothing; otherwise the transform becomes `DragTransform` of the snapshots and the pointer |
| TransformHook.TransformController.HandleMouseUp | src/hooks/use-transform.ts:234-236 | the drag ends and nothing else changes |
| TransformHook.TransformController.HandleResize | src/hooks/use-transform.ts:239-264 | the scale is kept; with a container the translate becomes `ResetPositionIfNeeded` of the old one at the same scale: within the new bounds, unchanged when already inside, on the nearer bound otherwise |
| TransformHook.TransformController.GetCursor | src/hooks/use-transform.ts:267-284 | grabbing exactly while dragging; otherwise grab exactly when the image overflows the container on some axis and default when it fits or there is no container |
| TooltipHook.DisplayText | src/hooks/use-tooltip.ts:18 | `area.title \|\| area.id`: the title unless it is missing or empty, else the id |
| TooltipHook.MouseEnter | src/hooks/use-tooltip.ts:13-20 | the tooltip becomes visible with the area's label and keeps its position |
| TooltipHook.ContainerMouseMove | src/hooks/use-tooltip.ts:27-40 | a hidden tooltip is unchanged; a visible one moves to the pointer relative to the container, offset by (+10, -60); visibility and text never change |
| TooltipHook.Step | src/hooks/use-tooltip.ts:13-48 | leaving resets to the initial record, the tooltip's own move handler changes nothing, and every handler keeps a hidden tooltip at the origin with no text |
| TooltipHook.MouseLeaveIdempotent | src/hooks/use-tooltip.ts:22-24 | leaving twice gives the same record as leaving once |
| TooltipHook.RunKeepsHiddenReset | src/hooks/use-tooltip.ts:6-48 | over any sequence of handler calls from a consistent record, a hidden tooltip is at (0, 0) with empty text |
| TooltipHook.RunAppend | src/hooks/use-tooltip.ts:13-48 | replaying two event sequences one after the other equals replaying their concatenation |
| TooltipHook.LeaveForgetsHistory | src/hooks/use-tooltip.ts:22-24 | after a mouse-leave, the record depends only on the events that follow it, whatever came before |
| TooltipHook.TooltipState.constructor | src/hooks/use-tooltip.ts:6-11 | the initial record is hidden at (0, 0) with empty text |
| TooltipHook.TooltipState.HandleMouseEnter | src/hooks/use-tooltip.ts:13-20 | the record becomes `MouseEnter` of the old one, keeping the invariant |
| TooltipHook.TooltipState.HandleMouseLeave | src/hooks/use-tooltip.ts:22-24 | the record becomes the initial record |
| TooltipHook.TooltipState.HandleContainerMouseMove | src/hooks/use-tooltip.ts:27-40 | the record becomes `ContainerMouseMove` of the old one, keeping the invariant |
| TooltipHook.TooltipState.Handle | src/hooks/use-tooltip.ts:13-48 | dispatching any event updates the record as `Step` does and keeps the invariant |
| InteractiveMap.MinScale | src/components/InteractiveMap/index.tsx:96-98 | the minimum scale is at least 0.1, makes the image cover the container on both axes, and is 0.1 or fits one axis exactly |
| InteractiveMap.CoversAtScale | src/components/InteractiveMap/index.tsx:96-104 | any scale at or above the minimum makes the image at least as large as the container on both axes |
| InteractiveMap.ConstrainScale | src/components/InteractiveMap/index.tsx:101 | the clamped scale is at least the minimum and at most 5 unless the minimum exceeds 5; a scale already in range is kept; one below the minimum becomes the minimum, one above 5 becomes 5, and an empty range gives the minimum |
| InteractiveMap.ConstrainAxis | src/components/InteractiveMap/index.tsx:107-115 | for an image at least as large as the container, the source's `maxX`/`minX` pair reduces to clamping into `[container - scaled, 0]` |
| InteractiveMap.ConstrainTransform | src/components/InteractiveMap/index.tsx:93-119 | the result is legal, meaning the scale is in range and the image covers the container; its scale is `ConstrainScale` of the requested one; each translate is clamped into `[container - image*scale, 0]`; a legal transform is returned unchanged |
| InteractiveMap.ConstrainFixedPoints | src/components/InteractiveMap/index.tsx:93-119 | a transform is a fixed point of `constrainTransform` exactly when it is legal, so constraining twice is constraining once |
| InteractiveMap.FocalZoom | src/components/InteractiveMap/index.tsx:141-144 | `v - (focus - v) * (newScale/scale - 1)` keeps the image point under `focus`: `(focus - r)/newScale == (focus - v)/scale`; an unchanged scale keeps `v`; a new scale of 0 gives `focus` |
| InteractiveMap.GetTouchCenter | src/components/InteractiveMap/index.tsx:70-78 | the origin with fewer than two touches, otherwise the midpoint of the first two |
| InteractiveMap.ZoomAround | src/components/InteractiveMap/index.tsx:138-147 | the shared zoom step is legal; its scale is the clamped new scale and each translate is the focal-zoom translate clamped at that scale; the image point under the focus stays put whenever no clamping was needed |
| InteractiveMap.WheelZoom | src/components/InteractiveMap/index.tsx:253-275 | no SVG element is a no-op; otherwise the result is legal, never zooms in on a scroll down or out on a scroll up, has the clamped `scale * 0.9` or `scale * 1.1` as its scale and the focal translate computed for that unclamped scale, clamped, as its translate, and keeps the point under the cursor when no clamping was needed |
| InteractiveMap.WheelUpAtMaxZoomPans | src/components/InteractiveMap/index.tsx:253-275 | at scale 5 a wheel-up keeps the scale but still shifts the translate by the focal step for 5.5: a 2000x2000 image in an 800x600 view moves from (-100, -100) to (-150, -140) |
| InteractiveMap.PinchZoom | src/components/InteractiveMap/index.tsx:126-148 | the result is legal, its scale is the clamped `scale * current/last`, its translate is the focal translate around the fingers' midpoint, clamped, and the point under the midpoint stays put when no clamping was needed |
| InteractiveMap.PanBy | src/components/InteractiveMap/index.tsx:156-163 | a pan step is legal, keeps a legal transform's scale, clamps each moved translate into `[container - image*scale, 0]`, and is the plain move when that is legal |
| InteractiveMap.PanStopsAtEdge | src/components/InteractiveMap/index.tsx:293-304 | from a legal transform pinned to an edge, a delta pushing further past that edge changes nothing on that axis and keeps the scale |
| InteractiveMap.AreaStyle | src/components/InteractiveMap/index.tsx:418-438 | fill, stroke and width are the hover style (width 3) for the hovered area, else the selected style (width 2), else transparent (width 0); the outline is drawn exactly when the area is hovered or selected |
| InteractiveMap.HoverWins | src/components/InteractiveMap/index.tsx:418-438 | a hovered area looks the same whatever is selected |
| InteractiveMap.MapView.constructor | src/components/InteractiveMap/index.tsx:34-56 | the initial state, then the mount-time size measurement: the size is the measured one and the transform `(0, 0, 1)` is constrained at 800x600 and then at the measured size; nothing is hovered or selected and no gesture is active |
| InteractiveMap.MapView.HandleResize | src/components/InteractiveMap/index.tsx:193-210 | with the element, records the new size and leaves the transform constrained at it (the stale constrain at the old size is proved to be the identity); otherwise a no-op; area and gesture state untouched |
| InteractiveMap.MapView.HandleWheel | src/components/InteractiveMap/index.tsx:253-275 | the transform becomes `WheelZoom` of the old one; nothing else changes; the transform stays legal |
| InteractiveMap.MapView.HandleMouseDown | src/components/InteractiveMap/index.tsx:278-286 | a press on a polygon changes nothing; elsewhere it starts a drag from the pointer |
| InteractiveMap.MapView.HandleMouseMove | src/components/InteractiveMap/index.tsx:289-317 | not dragging changes nothing; dragging pans by the pointer's movement since the last event at the same scale and records the pointer |
| InteractiveMap.MapView.HandleMouseUp | src/components/InteractiveMap/index.tsx:320-322 | mouse-up (and the SVG element's mouse-leave) ends the drag and changes nothing else |
| InteractiveMap.MapView.HandleTouchStart | src/components/InteractiveMap/index.tsx:81-90 | two fingers start a pinch and record their distance; one finger starts a drag from its position; other counts change nothing |
| InteractiveMap.MapView.HandleTouchMove | src/components/InteractiveMap/index.tsx:122-180 | while pinching with two fingers: a positive last distance zooms by `PinchZoom` (or returns early without recording when the SVG element is missing), a zero last distance leaves the transform and records the distance; one finger while dragging and not pinching pans; otherwise nothing changes |
| InteractiveMap.MapView.HandleTouchEnd | src/components/InteractiveMap/index.tsx:183-191 | fewer than two remaining fingers end the pinch and zero the distance; no remaining finger ends the drag; the transform is untouched |
| InteractiveMap.MapView.HandleAreaClick | src/components/InteractiveMap/index.tsx:222-230 | a click selects the area and changes nothing else |
| InteractiveMap.MapView.HandleAreaMouseEnter | src/components/InteractiveMap/index.tsx:233-242 | entering hovers the area and puts the tooltip at the pointer; the selection is untouched |
| InteractiveMap.MapView.HandleAreaMouseMove | src/components/InteractiveMap/index.tsx:244-246 | moving over an area only moves the tooltip |
| InteractiveMap.MapView.HandleAreaMouseLeave | src/components/InteractiveMap/index.tsx:248-250 | leaving clears the hover only; the selection and tooltip position survive |
| InteractiveMap.MapView.HandleCloseSelection | src/components/InteractiveMap/index.tsx:348 | the close button clears the selection only |
| PolygonPoints.PointTokens | src/components/InteractiveMap/index.tsx:213-219 | there is one token per pair, `(n + 1)/2` of them, in order; for an even-length list there are `n/2` tokens, token `k` is `coords[2k],coords[2k+1]` |
| PolygonPoints.CoordsToPoints | src/components/InteractiveMap/index.tsx:213-219 | the loop's output is the tokens of `PointTokens` joined by single spaces |
| PolygonPoints.SplitJoin | src/components/InteractiveMap/index.tsx:219 | joining space-free parts with single spaces is undone by splitting at spaces |
| PolygonPoints.PointsRoundTrip | src/components/InteractiveMap/index.tsx:213-219 | when number formatting yields no spaces, splitting a non-empty list's `points` string at spaces gives back exactly its tokens, so every vertex pair appears once, in order |

## Left out

- JSX, CSS classes, the SVG `transform`, `viewBox` and pattern strings, and
  the information panel's text are presentation. The polygon fill, stroke and
  width ternaries are modelled (`AreaStyle`).
- `src/components/ImageMapper/index.tsx`, `TooltipDisplay`, `ImageError`,
  `ImageLoader` and `src/App.tsx` are display components around an external
  library and are not part of this model. From ImageMapper only the form of
  the rendered transform is used (lines 63-67: `scale(s) translate(tx/s)`
  about the centre of the wrapper).
- TransformHook.ImageBoundsCoverContainer, TransformHook.WheelProposalKeepsPointIff:
  stated in an assumed centred frame, where the translate is the screen offset of the image
  centre from the container centre. ImageMapper's layout gives that frame
  only for a container 1920 px wide and as tall as the rendered image: the
  wrapper is full-width and as tall as its content, and the 1920 px image is
  laid out from its top-left corner, so in a wider or narrower container the
  image is not centred at translate 0.
- TransformHook.WheelZoom: does not claim that the point under the cursor
  stays put, because in the assumed centred frame it does not in general: the proposal divides by the old
  scale where keeping the point would need `m - (m - tx) * s'/s` (`m` the
  cursor's offset from the centre). From scale 2 to 2.1 with `tx = 0` and
  the cursor 100 px right of the centre, the image point drawn under it
  moves to 102.5 px. It stays put exactly when `tx = m(1 - 1/s)`, so at
  scale 1 or with the cursor at the centre only when `tx = 0`
  (`WheelProposalKeepsPointIff`). The proposal itself is stated exactly
  (`WheelTranslate`) and the commit as its reset.
- The fullscreen context and hook (browser Fullscreen API) and
  `use-load-image.ts` (asynchronous image loading) are not modelled.
- `getMediaUrl` is string concatenation with a configuration constant that is
  not part of this model.
- `getTouchDistance` is a floating-point square root. The distance is an
  argument of `HandleTouchStart` and `HandleTouchMove`. The pinch uses only
  the ratio of two distances and the `> 0` guard.
- Floating-point rounding, NaN and infinities are not modelled: every quantity
  is a `real`. The one place where a division by zero changes a branch, the
  aspect-ratio test of `getMinimumScale`, follows JavaScript's result
  (`ImageWiderThan`).
- TransformHook.GetMinimumScale: the closed form `max(width/1920, height/1080)` is
  stated for non-negative container sizes only. A DOM rectangle is never
  negative.
- InteractiveMap.ZoomAround, InteractiveMap.WheelZoom, InteractiveMap.PinchZoom:
  the point under the focus is claimed to stay put only when the zoomed
  transform needed no clamping. When the scale is clamped, the source still
  moves the translate by the focal step computed for the unclamped scale,
  so at the maximum zoom a wheel-up pans the image without zooming
  (`WheelUpAtMaxZoomPans`). The clamped result is stated exactly.
- PolygonPoints.PointsRoundTrip: holds only for a non-empty list (the empty
  list gives `""`, which splits into one empty token) and for number
  formatting without spaces, which JavaScript's number formatting satisfies.
- Event registration and the event objects are not modelled:
  `addEventListener`, `preventDefault`, `console.log` in the tooltip handlers
  and `handleTooltipMouseMove`, and the `onAreaClick`/`onAreaHover` callbacks.
  Each handler is one atomic update of the current state. React's batching
  is modelled only where it changes the result, namely the stale
  `constrainTransform` of the size effect, which the `MapView` constructor
  and `HandleResize` model step by step.
- `useTransform`'s mount-time `initializePosition` sets the translate to 0,
  which it already is in the initial state, so it is absorbed into the
  constructor.
- Browser hit-testing is not modelled: whether a mouse-down landed on a
  `<polygon>` is a boolean argument.
- A region's colours and line width are fields that `InteractiveMap` never
  reads, so `MapArea` omits them.
- An image size of zero is excluded: `MapView` requires positive image
  dimensions, since the source divides by them.
