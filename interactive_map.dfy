/** The `InteractiveMap` component of
    `src/components/InteractiveMap/index.tsx`: an SVG group drawn with
    `translate(x, y) scale(scale)`, so the translate is the screen position of
    the image's top-left corner and an image point `p` appears at
    `x + scale * p`. Wheel zoom multiplies the scale by 0.9 or 1.1 around the
    cursor, mouse and one-finger drags pan incrementally, two fingers pinch,
    and every committed transform goes through `ConstrainTransform`. The
    polygons' hover and selection state and their styles live here too. */
module InteractiveMap {
  import opened Geometry

  const MAX_ZOOM: real := 5.0
  const SCALE_FLOOR: real := 0.1
  const ZOOM_OUT_FACTOR: real := 0.9
  const ZOOM_IN_FACTOR: real := 1.1
  /** `containerSize` before the first measurement. */
  const INITIAL_CONTAINER_SIZE: Size := Size(800.0, 600.0)

  datatype MapTransform = MapTransform(x: real, y: real, scale: real)
  datatype Size = Size(width: real, height: real)

  /** A polygon region. Its colours and line width are not read by the
      component and are left out. */
  datatype MapArea = MapArea(id: string, title: string, coords: seq<real>, shape: string)

  // ---------------------------------------------------------------------
  // Constraining a transform
  // ---------------------------------------------------------------------

  /** The on-screen extent of an image extent drawn at `scale`. */
  function Scaled(extent: real, scale: real): real
  {
    extent * scale
  }

  /** Helper: a larger scale draws a non-negative extent at least as large. */
  lemma ScaledMonotone(extent: real, s1: real, s2: real)
    requires extent >= 0.0 && s1 <= s2
    ensures Scaled(extent, s1) <= Scaled(extent, s2)
  {
    assert extent * s2 - extent * s1 == extent * (s2 - s1);
  }

  /** The smallest scale at which the image covers the container on both
      axes, floored at 0.1: `Math.max(cw / iw, ch / ih, 0.1)`. */
  function MinScale(container: Size, imageWidth: real, imageHeight: real): (m: real)
    requires imageWidth > 0.0 && imageHeight > 0.0
    ensures m >= SCALE_FLOOR
    ensures Scaled(imageWidth, m) >= container.width && Scaled(imageHeight, m) >= container.height
    ensures m == SCALE_FLOOR || Scaled(imageWidth, m) == container.width || Scaled(imageHeight, m) == container.height
  {
    var minScaleX := container.width / imageWidth;
    var minScaleY := container.height / imageHeight;
    Max(Max(minScaleX, minScaleY), SCALE_FLOOR)
  }

  /** A transform the component may show: the scale lies in
      `[MinScale, MAX_ZOOM]` (or equals `MinScale` when that exceeds
      `MAX_ZOOM`), and the image spans the container on both axes, its
      top-left corner at or above-left of the container's and its
      bottom-right corner at or below-right of the container's. */
  ghost predicate Legal(t: MapTransform, container: Size, imageWidth: real, imageHeight: real)
    requires imageWidth > 0.0 && imageHeight > 0.0
  {
    var m := MinScale(container, imageWidth, imageHeight);
    && m <= t.scale
    && (t.scale <= MAX_ZOOM || t.scale == m)
    && t.x <= 0.0 && container.width <= t.x + Scaled(imageWidth, t.scale)
    && t.y <= 0.0 && container.height <= t.y + Scaled(imageHeight, t.scale)
  }

  /** Helper: a scale at or above `MinScale` makes the image at least as large
      as the container. */
  lemma CoversAtScale(container: Size, imageWidth: real, imageHeight: real, scale: real)
    requires imageWidth > 0.0 && imageHeight > 0.0
    requires scale >= MinScale(container, imageWidth, imageHeight)
    ensures Scaled(imageWidth, scale) >= container.width && Scaled(imageHeight, scale) >= container.height
  {
    var m := MinScale(container, imageWidth, imageHeight);
    ScaledMonotone(imageWidth, m, scale);
    ScaledMonotone(imageHeight, m, scale);
  }

  /** `constrainTransform`: the scale is clamped to `[MinScale, 5]` with the
      lower end winning, then each translate is clamped between
      `container - image * scale` and 0. The result is always legal, a legal
      transform is returned unchanged, and a legal scale is kept; any other
      scale becomes the nearer end of the range. */
  function ConstrainTransform(x: real, y: real, scale: real, container: Size,
                              imageWidth: real, imageHeight: real): (r: MapTransform)
    requires imageWidth > 0.0 && imageHeight > 0.0
    ensures Legal(r, container, imageWidth, imageHeight)
    ensures r.x == Clamp(container.width - Scaled(imageWidth, r.scale), 0.0, x)
    ensures r.y == Clamp(container.height - Scaled(imageHeight, r.scale), 0.0, y)
    ensures r.scale == ConstrainScale(MinScale(container, imageWidth, imageHeight), scale)
    ensures MinScale(container, imageWidth, imageHeight) <= scale <= MAX_ZOOM ==> r.scale == scale
    ensures Legal(MapTransform(x, y, scale), container, imageWidth, imageHeight) ==>
      r == MapTransform(x, y, scale)
  {
    var minScale := MinScale(container, imageWidth, imageHeight);
    var constrainedScale := ConstrainScale(minScale, scale);
    CoversAtScale(container, imageWidth, imageHeight, constrainedScale);
    var scaledWidth := Scaled(imageWidth, constrainedScale);
    var scaledHeight := Scaled(imageHeight, constrainedScale);
    MapTransform(ConstrainAxis(container.width, scaledWidth, x),
                 ConstrainAxis(container.height, scaledHeight, y),
                 constrainedScale)
  }

  /** The scale clamp `Math.max(minScale, Math.min(5, scale))`. */
  function ConstrainScale(minScale: real, scale: real): (s: real)
    ensures minScale <= s && (s <= MAX_ZOOM || s == minScale)
    ensures minScale <= scale && (scale <= MAX_ZOOM || scale == minScale) ==> s == scale
    ensures scale <= minScale ==> s == minScale
    ensures minScale <= MAX_ZOOM <= scale ==> s == MAX_ZOOM
    ensures MAX_ZOOM < minScale ==> s == minScale
  {
    Max(minScale, Min(MAX_ZOOM, scale))
  }

  /** The translate clamp on one axis: `max = Math.max(0, (c - scaled) / 2)`,
      `min = Math.min(0, c - scaled - max)`. For an image at least as large as
      the container these are `0` and `c - scaled`. */
  function ConstrainAxis(containerExtent: real, scaledExtent: real, v: real): (r: real)
    requires containerExtent <= scaledExtent
    ensures r == Clamp(containerExtent - scaledExtent, 0.0, v)
  {
    var maxV := Max(0.0, (containerExtent - scaledExtent) / 2.0);
    var minV := Min(0.0, containerExtent - scaledExtent - maxV);
    Clamp(minV, maxV, v)
  }

  /** A transform is a fixed point of `ConstrainTransform` exactly when it is
      legal; in particular constraining twice is constraining once. */
  lemma ConstrainFixedPoints(t: MapTransform, container: Size, imageWidth: real, imageHeight: real)
    requires imageWidth > 0.0 && imageHeight > 0.0
    ensures ConstrainTransform(t.x, t.y, t.scale, container, imageWidth, imageHeight) == t
        <==> Legal(t, container, imageWidth, imageHeight)
    ensures var r := ConstrainTransform(t.x, t.y, t.scale, container, imageWidth, imageHeight);
            ConstrainTransform(r.x, r.y, r.scale, container, imageWidth, imageHeight) == r
  {
  }

  // ---------------------------------------------------------------------
  // Gestures
  // ---------------------------------------------------------------------

  /** The translate that keeps the screen point `focus` over the same image
      point when the scale goes from `scale` to `newScale`:
      `v - (focus - v) * (newScale / scale - 1)`. */
  function FocalZoom(v: real, focus: real, scale: real, newScale: real): (r: real)
    requires scale > 0.0
    ensures newScale != 0.0 ==> (focus - r) / newScale == (focus - v) / scale
    ensures newScale == scale ==> r == v
    ensures newScale == 0.0 ==> r == focus
  {
    var scaleChange := newScale / scale;
    FocalZoomFixesFocus(v, focus, scale, newScale);
    v - (focus - v) * (scaleChange - 1.0)
  }

  /** Helper: the arithmetic behind `FocalZoom`. */
  lemma FocalZoomFixesFocus(v: real, focus: real, scale: real, newScale: real)
    requires scale > 0.0
    ensures var r := v - (focus - v) * (newScale / scale - 1.0);
            (newScale != 0.0 ==> (focus - r) / newScale == (focus - v) / scale) &&
            (newScale == scale ==> r == v)
  {
    var k := newScale / scale;
    var r := v - (focus - v) * (k - 1.0);
    assert focus - r == (focus - v) * k;
    assert k * scale == newScale;
    if newScale != 0.0 {
      var image := (focus - v) / scale;
      assert focus - v == image * scale;
      assert focus - r == image * scale * k == image * newScale;
      assert (focus - r) / newScale == image;
    }
    if newScale == scale {
      assert k == scale / scale == 1.0;
    }
  }

  /** `getTouchCenter`: the midpoint of the first two touches, or the origin
      with fewer than two. */
  function GetTouchCenter(touches: seq<Point>): (c: Point)
    ensures |touches| < 2 ==> c == Point(0.0, 0.0)
    ensures |touches| >= 2 ==>
      c.x - touches[0].x == touches[1].x - c.x && c.y - touches[0].y == touches[1].y - c.y
  {
    if |touches| < 2 then Point(0.0, 0.0)
    else Point((touches[0].x + touches[1].x) / 2.0, (touches[0].y + touches[1].y) / 2.0)
  }

  /** The zoom step shared by the wheel and the pinch: both translates move
      by `FocalZoom` around the screen point `focus` and the result is
      constrained. It is legal, takes `newScale` when that scale is legal, and
      keeps the image point under `focus` whenever the zoomed transform needed
      no clamping. */
  function ZoomAround(t: MapTransform, focus: Point, newScale: real, container: Size,
                      imageWidth: real, imageHeight: real): (r: MapTransform)
    requires imageWidth > 0.0 && imageHeight > 0.0 && t.scale > 0.0
    ensures Legal(r, container, imageWidth, imageHeight)
    ensures MinScale(container, imageWidth, imageHeight) <= newScale <= MAX_ZOOM ==> r.scale == newScale
    ensures (newScale != 0.0 &&
             Legal(MapTransform(FocalZoom(t.x, focus.x, t.scale, newScale), FocalZoom(t.y, focus.y, t.scale, newScale), newScale),
                   container, imageWidth, imageHeight)) ==>
        r.scale == newScale &&
        (focus.x - r.x) / r.scale == (focus.x - t.x) / t.scale &&
        (focus.y - r.y) / r.scale == (focus.y - t.y) / t.scale
    ensures r.scale == ConstrainScale(MinScale(container, imageWidth, imageHeight), newScale)
    ensures r.x == Clamp(container.width - Scaled(imageWidth, r.scale), 0.0, FocalZoom(t.x, focus.x, t.scale, newScale))
    ensures r.y == Clamp(container.height - Scaled(imageHeight, r.scale), 0.0, FocalZoom(t.y, focus.y, t.scale, newScale))
  {
    var zoomed := MapTransform(FocalZoom(t.x, focus.x, t.scale, newScale),
                               FocalZoom(t.y, focus.y, t.scale, newScale), newScale);
    var r := ConstrainTransform(zoomed.x, zoomed.y, newScale, container, imageWidth, imageHeight);
    assert Legal(zoomed, container, imageWidth, imageHeight) ==> r == zoomed;
    r
  }

  /** `handleWheel`: without the SVG element nothing changes. Otherwise the
      scale is multiplied by 0.9 (scrolling down) or 1.1 (scrolling up) around
      the cursor and the result is constrained: it is legal, never zooms in
      on a scroll down nor out on a scroll up, takes the multiplied scale when
      that is legal, and keeps the image point under the cursor whenever the
      zoomed transform needed no clamping. */
  function WheelZoom(t: MapTransform, deltaY: real, clientX: real, clientY: real, svgRect: Option<Rect>,
                     container: Size, imageWidth: real, imageHeight: real): (r: MapTransform)
    requires imageWidth > 0.0 && imageHeight > 0.0 && t.scale > 0.0
    ensures svgRect.None? ==> r == t
    ensures svgRect.Some? ==> Legal(r, container, imageWidth, imageHeight)
    ensures svgRect.Some? && Legal(t, container, imageWidth, imageHeight) ==>
      (deltaY > 0.0 ==> r.scale <= t.scale) && (deltaY <= 0.0 ==> r.scale >= t.scale)
    ensures svgRect.Some? ==>
      var s := t.scale * (if deltaY > 0.0 then ZOOM_OUT_FACTOR else ZOOM_IN_FACTOR);
      MinScale(container, imageWidth, imageHeight) <= s <= MAX_ZOOM ==> r.scale == s
    ensures svgRect.Some? ==>
      var focus := Relative(clientX, clientY, svgRect.value);
      var s := t.scale * (if deltaY > 0.0 then ZOOM_OUT_FACTOR else ZOOM_IN_FACTOR);
      Legal(MapTransform(FocalZoom(t.x, focus.x, t.scale, s), FocalZoom(t.y, focus.y, t.scale, s), s),
            container, imageWidth, imageHeight) ==>
        (focus.x - r.x) / r.scale == (focus.x - t.x) / t.scale &&
        (focus.y - r.y) / r.scale == (focus.y - t.y) / t.scale
    ensures svgRect.Some? ==>
      var focus := Relative(clientX, clientY, svgRect.value);
      var s := t.scale * (if deltaY > 0.0 then ZOOM_OUT_FACTOR else ZOOM_IN_FACTOR);
      r.scale == ConstrainScale(MinScale(container, imageWidth, imageHeight), s) &&
      r.x == Clamp(container.width - Scaled(imageWidth, r.scale), 0.0, FocalZoom(t.x, focus.x, t.scale, s)) &&
      r.y == Clamp(container.height - Scaled(imageHeight, r.scale), 0.0, FocalZoom(t.y, focus.y, t.scale, s))
  {
    match svgRect
    case None => t
    case Some(rect) =>
      var mouse := Relative(clientX, clientY, rect);
      var scaleFactor := if deltaY > 0.0 then ZOOM_OUT_FACTOR else ZOOM_IN_FACTOR;
      ZoomAround(t, mouse, t.scale * scaleFactor, container, imageWidth, imageHeight)
  }

  /** At the maximum zoom a wheel-up cannot zoom any further, yet the
      translate still moves by the focal step computed for `5 * 1.1`: the
      image pans towards the cursor at the same scale. Here a 2000x2000 image
      at scale 5 in an 800x600 view, with the cursor at the view's centre,
      moves from (-100, -100) to (-150, -140). */
  lemma WheelUpAtMaxZoomPans()
    ensures WheelZoom(MapTransform(-100.0, -100.0, MAX_ZOOM), -1.0, 400.0, 300.0, Some(Rect(0.0, 0.0, 800.0, 600.0)),
                      Size(800.0, 600.0), 2000.0, 2000.0)
         == MapTransform(-150.0, -140.0, MAX_ZOOM)
  {
    var container := Size(800.0, 600.0);
    assert MinScale(container, 2000.0, 2000.0) == 0.4;
    assert FocalZoom(-100.0, 400.0, MAX_ZOOM, MAX_ZOOM * ZOOM_IN_FACTOR) == -150.0;
    assert FocalZoom(-100.0, 300.0, MAX_ZOOM, MAX_ZOOM * ZOOM_IN_FACTOR) == -140.0;
  }

  /** The pinch branch of `handleTouchMove`, taken when the previous distance
      is positive and the SVG element is there: the scale is multiplied by the
      ratio of the new to the old finger distance around the midpoint of the
      two touches, then constrained. When that scale is legal it is the
      result's scale (so doubling the distance doubles the scale), and the
      image point under the midpoint stays put whenever no clamping was
      needed. */
  function PinchZoom(t: MapTransform, currentDistance: real, lastDistance: real, touches: seq<Point>,
                     rect: Rect, container: Size, imageWidth: real, imageHeight: real): (r: MapTransform)
    requires imageWidth > 0.0 && imageHeight > 0.0 && t.scale > 0.0 && lastDistance > 0.0
    ensures Legal(r, container, imageWidth, imageHeight)
    ensures MinScale(container, imageWidth, imageHeight) <= t.scale * (currentDistance / lastDistance) <= MAX_ZOOM ==>
      r.scale == t.scale * (currentDistance / lastDistance)
    ensures var center := GetTouchCenter(touches);
      var focus := Relative(center.x, center.y, rect);
      var s := t.scale * (currentDistance / lastDistance);
      s != 0.0 && Legal(MapTransform(FocalZoom(t.x, focus.x, t.scale, s), FocalZoom(t.y, focus.y, t.scale, s), s),
                        container, imageWidth, imageHeight) ==>
        (focus.x - r.x) / r.scale == (focus.x - t.x) / t.scale &&
        (focus.y - r.y) / r.scale == (focus.y - t.y) / t.scale
    ensures r.scale == ConstrainScale(MinScale(container, imageWidth, imageHeight), t.scale * (currentDistance / lastDistance))
    ensures var center := GetTouchCenter(touches);
      var focus := Relative(center.x, center.y, rect);
      var s := t.scale * (currentDistance / lastDistance);
      r.x == Clamp(container.width - Scaled(imageWidth, r.scale), 0.0, FocalZoom(t.x, focus.x, t.scale, s)) &&
      r.y == Clamp(container.height - Scaled(imageHeight, r.scale), 0.0, FocalZoom(t.y, focus.y, t.scale, s))
  {
    var currentCenter := GetTouchCenter(touches);
    var center := Relative(currentCenter.x, currentCenter.y, rect);
    ZoomAround(t, center, t.scale * (currentDistance / lastDistance), container, imageWidth, imageHeight)
  }

  /** One step of a mouse or one-finger drag: the pointer's movement since
      the last event is added to the translate at the same scale and the
      result constrained. A legal transform keeps its scale. */
  function PanBy(t: MapTransform, deltaX: real, deltaY: real, container: Size,
                 imageWidth: real, imageHeight: real): (r: MapTransform)
    requires imageWidth > 0.0 && imageHeight > 0.0
    ensures Legal(r, container, imageWidth, imageHeight)
    ensures Legal(t, container, imageWidth, imageHeight) ==> r.scale == t.scale
    ensures r.x == Clamp(container.width - Scaled(imageWidth, r.scale), 0.0, t.x + deltaX)
    ensures r.y == Clamp(container.height - Scaled(imageHeight, r.scale), 0.0, t.y + deltaY)
    ensures Legal(MapTransform(t.x + deltaX, t.y + deltaY, t.scale), container, imageWidth, imageHeight) ==>
      r == MapTransform(t.x + deltaX, t.y + deltaY, t.scale)
  {
    ConstrainTransform(t.x + deltaX, t.y + deltaY, t.scale, container, imageWidth, imageHeight)
  }

  /** Dragging past an edge stops exactly at the edge: from a legal
      transform pinned to one of an axis' limits, a delta that pushes further
      the same way changes nothing on that axis, and the scale stays. */
  lemma PanStopsAtEdge(t: MapTransform, deltaX: real, deltaY: real, container: Size,
                       imageWidth: real, imageHeight: real)
    requires imageWidth > 0.0 && imageHeight > 0.0
    requires Legal(t, container, imageWidth, imageHeight)
    ensures var r := PanBy(t, deltaX, deltaY, container, imageWidth, imageHeight);
      && r.scale == t.scale
      && ((t.x == container.width - Scaled(imageWidth, t.scale) && deltaX <= 0.0) || (t.x == 0.0 && deltaX >= 0.0) ==> r.x == t.x)
      && ((t.y == container.height - Scaled(imageHeight, t.scale) && deltaY <= 0.0) || (t.y == 0.0 && deltaY >= 0.0) ==> r.y == t.y)
  {
    LegalTranslate(t, container, imageWidth, imageHeight);
    EdgeStays(container.width - Scaled(imageWidth, t.scale), t.x, deltaX);
    EdgeStays(container.height - Scaled(imageHeight, t.scale), t.y, deltaY);
  }

  /** Helper: the translate range of a legal transform. */
  lemma LegalTranslate(t: MapTransform, container: Size, imageWidth: real, imageHeight: real)
    requires imageWidth > 0.0 && imageHeight > 0.0
    requires Legal(t, container, imageWidth, imageHeight)
    ensures container.width - Scaled(imageWidth, t.scale) <= t.x <= 0.0
    ensures container.height - Scaled(imageHeight, t.scale) <= t.y <= 0.0
  {
  }

  /** Helper: clamping a value already at an end of the interval, pushed
      further past that end, leaves it there. */
  lemma EdgeStays(low: real, v: real, delta: real)
    requires low <= v <= 0.0
    ensures (v == low && delta <= 0.0) || (v == 0.0 && delta >= 0.0) ==> Clamp(low, 0.0, v + delta) == v
  {
  }

  // ---------------------------------------------------------------------
  // Polygon styles
  // ---------------------------------------------------------------------

  datatype PolygonStyle = PolygonStyle(fill: string, stroke: string, strokeWidth: int)

  const HOVER_STYLE: PolygonStyle := PolygonStyle("rgba(255, 255, 255, 0.25)", "white", 3)
  const SELECTED_STYLE: PolygonStyle := PolygonStyle("rgba(34, 197, 94, 0.3)", "#22c55e", 2)
  const PLAIN_STYLE: PolygonStyle := PolygonStyle("transparent", "transparent", 0)

  /** `ref?.id === area.id`. */
  predicate Refers(ref: Option<MapArea>, area: MapArea)
  {
    ref.Some? && ref.value.id == area.id
  }

  /** The fill, stroke and stroke-width ternaries of a polygon. Together they
      pick one of three styles, hover winning over selection, and the outline
      is drawn exactly when the area is hovered or selected. */
  function AreaStyle(hoveredArea: Option<MapArea>, selectedArea: Option<MapArea>, area: MapArea): (s: PolygonStyle)
    ensures Refers(hoveredArea, area) ==> s == HOVER_STYLE
    ensures !Refers(hoveredArea, area) && Refers(selectedArea, area) ==> s == SELECTED_STYLE
    ensures !Refers(hoveredArea, area) && !Refers(selectedArea, area) ==> s == PLAIN_STYLE
    ensures s.strokeWidth > 0 <==> Refers(hoveredArea, area) || Refers(selectedArea, area)
  {
    PolygonStyle(
      if Refers(hoveredArea, area) then "rgba(255, 255, 255, 0.25)"
      else if Refers(selectedArea, area) then "rgba(34, 197, 94, 0.3)"
      else "transparent",
      if Refers(hoveredArea, area) then "white"
      else if Refers(selectedArea, area) then "#22c55e"
      else "transparent",
      if Refers(hoveredArea, area) then 3
      else if Refers(selectedArea, area) then 2
      else 0)
  }

  /** A hovered area looks the same whatever is selected. */
  lemma HoverWins(hoveredArea: Option<MapArea>, s1: Option<MapArea>, s2: Option<MapArea>, area: MapArea)
    requires Refers(hoveredArea, area)
    ensures AreaStyle(hoveredArea, s1, area) == AreaStyle(hoveredArea, s2, area)
  {
  }

  // ---------------------------------------------------------------------
  // The component's state
  // ---------------------------------------------------------------------

  /** The state of one mounted `InteractiveMap`. Each method is one event
      handler run to completion on the current state. */
  class MapView {
    const imageWidth: real
    const imageHeight: real

    var selectedArea: Option<MapArea>
    var hoveredArea: Option<MapArea>
    var tooltipPos: Point
    var transform: MapTransform
    var isDragging: bool
    var lastMousePos: Point
    var isPinching: bool
    var lastTouchDistance: real
    var containerSize: Size

    /** The image has a size and the transform shown is always legal. */
    ghost predicate Valid()
      reads this
    {
      imageWidth > 0.0 && imageHeight > 0.0 &&
      Legal(transform, containerSize, imageWidth, imageHeight)
    }

    /** Hover, selection and tooltip position. */
    ghost function AreaState(): (Option<MapArea>, Option<MapArea>, Point)
      reads this
    {
      (selectedArea, hoveredArea, tooltipPos)
    }

    /** Drag and pinch bookkeeping. */
    ghost function GestureState(): (bool, Point, bool, real)
      reads this
    {
      (isDragging, lastMousePos, isPinching, lastTouchDistance)
    }

    /** Mounting: the initial state, then the mount-time `updateSize` (the
        container is always rendered, so it is measured). That first call
        constrains with the `constrainTransform` of the first render, which
        still sees the initial 800x600 size; recording the measured size
        re-creates `constrainTransform` and re-runs the effect, which
        constrains again at the measured size. (When the measured size is
        800x600 there is no re-run, and the second constrain is the identity
        on the already legal transform.) */
    constructor (imageWidth: real, imageHeight: real, measured: Size)
      requires imageWidth > 0.0 && imageHeight > 0.0
      ensures Valid()
      ensures this.imageWidth == imageWidth && this.imageHeight == imageHeight
      ensures containerSize == measured
      ensures var first := ConstrainTransform(0.0, 0.0, 1.0, INITIAL_CONTAINER_SIZE, imageWidth, imageHeight);
        transform == ConstrainTransform(first.x, first.y, first.scale, measured, imageWidth, imageHeight)
      ensures selectedArea == None && hoveredArea == None && tooltipPos == Point(0.0, 0.0)
      ensures GestureState() == (false, Point(0.0, 0.0), false, 0.0)
    {
      this.imageWidth := imageWidth;
      this.imageHeight := imageHeight;
      selectedArea := None;
      hoveredArea := None;
      tooltipPos := Point(0.0, 0.0);
      isDragging := false;
      lastMousePos := Point(0.0, 0.0);
      isPinching := false;
      lastTouchDistance := 0.0;
      containerSize := INITIAL_CONTAINER_SIZE;
      transform := MapTransform(0.0, 0.0, 1.0);
      new;
      transform := ConstrainTransform(transform.x, transform.y, transform.scale, containerSize, imageWidth, imageHeight);
      containerSize := measured;
      transform := ConstrainTransform(transform.x, transform.y, transform.scale, containerSize, imageWidth, imageHeight);
    }

    /** `updateSize` on a window resize. The listener holds the
        `constrainTransform` of the current size: it records the new size and
        constrains with the old one, then the re-run effect constrains with
        the new one. The first constrain leaves the legal transform alone, so
        the net effect is one constrain at the new size. No-op without the
        element. */
    method HandleResize(measured: Option<Size>)
      requires Valid()
      modifies this
      ensures Valid()
      ensures AreaState() == old(AreaState()) && GestureState() == old(GestureState())
      ensures measured.None? ==> containerSize == old(containerSize) && transform == old(transform)
      ensures measured.Some? ==>
        (containerSize == measured.value &&
         transform == ConstrainTransform(old(transform).x, old(transform).y, old(transform).scale,
                                         measured.value, imageWidth, imageHeight))
    {
      if measured.Some? {
        ConstrainFixedPoints(transform, containerSize, imageWidth, imageHeight);
        transform := ConstrainTransform(transform.x, transform.y, transform.scale, containerSize, imageWidth, imageHeight);
        containerSize := measured.value;
        transform := ConstrainTransform(transform.x, transform.y, transform.scale, containerSize, imageWidth, imageHeight);
      }
    }

    method HandleWheel(deltaY: real, clientX: real, clientY: real, svgRect: Option<Rect>)
      requires Valid()
      modifies this
      ensures Valid()
      ensures AreaState() == old(AreaState()) && GestureState() == old(GestureState())
      ensures containerSize == old(containerSize)
      ensures transform == WheelZoom(old(transform), deltaY, clientX, clientY, svgRect,
                                     containerSize, imageWidth, imageHeight)
    {
      transform := WheelZoom(transform, deltaY, clientX, clientY, svgRect, containerSize, imageWidth, imageHeight);
    }

    /** A mouse-down on a polygon is left to the polygon's click; anywhere
        else it starts a drag from the pointer. */
    method HandleMouseDown(targetIsPolygon: bool, clientX: real, clientY: real)
      requires Valid()
      modifies this
      ensures Valid()
      ensures AreaState() == old(AreaState()) && containerSize == old(containerSize)
      ensures transform == old(transform) && isPinching == old(isPinching)
      ensures lastTouchDistance == old(lastTouchDistance)
      ensures targetIsPolygon ==> GestureState() == old(GestureState())
      ensures !targetIsPolygon ==> isDragging && lastMousePos == Point(clientX, clientY)
    {
      if targetIsPolygon {
        return;
      }
      isDragging := true;
      lastMousePos := Point(clientX, clientY);
    }

    /** While dragging, pans by the pointer's movement since the last event
        and remembers the pointer; otherwise does nothing. */
    method HandleMouseMove(clientX: real, clientY: real)
      requires Valid()
      modifies this
      ensures Valid()
      ensures AreaState() == old(AreaState()) && containerSize == old(containerSize)
      ensures isDragging == old(isDragging) && isPinching == old(isPinching)
      ensures lastTouchDistance == old(lastTouchDistance)
      ensures !old(isDragging) ==> transform == old(transform) && lastMousePos == old(lastMousePos)
      ensures old(isDragging) ==>
        lastMousePos == Point(clientX, clientY) &&
        transform.scale == old(transform).scale &&
        transform == PanBy(old(transform), clientX - old(lastMousePos).x, clientY - old(lastMousePos).y,
                           containerSize, imageWidth, imageHeight)
    {
      if !isDragging {
        return;
      }
      var deltaX := clientX - lastMousePos.x;
      var deltaY := clientY - lastMousePos.y;
      transform := PanBy(transform, deltaX, deltaY, containerSize, imageWidth, imageHeight);
      lastMousePos := Point(clientX, clientY);
    }

    /** Mouse-up, and mouse-leave of the SVG element, end the drag. */
    method HandleMouseUp()
      requires Valid()
      modifies this
      ensures Valid() && !isDragging
      ensures AreaState() == old(AreaState()) && containerSize == old(containerSize)
      ensures transform == old(transform) && lastMousePos == old(lastMousePos)
      ensures isPinching == old(isPinching) && lastTouchDistance == old(lastTouchDistance)
    {
      isDragging := false;
    }

    /** Two fingers start a pinch, recording their distance (computed by the
        caller); one finger starts a drag from its position. */
    method HandleTouchStart(touches: seq<Point>, distance: real)
      requires Valid()
      modifies this
      ensures Valid()
      ensures AreaState() == old(AreaState()) && containerSize == old(containerSize)
      ensures transform == old(transform)
      ensures |touches| == 2 ==>
        (isPinching && lastTouchDistance == distance &&
         isDragging == old(isDragging) && lastMousePos == old(lastMousePos))
      ensures |touches| == 1 ==>
        (isDragging && lastMousePos == touches[0] &&
         isPinching == old(isPinching) && lastTouchDistance == old(lastTouchDistance))
      ensures |touches| != 1 && |touches| != 2 ==> GestureState() == old(GestureState())
    {
      if |touches| == 2 {
        isPinching := true;
        lastTouchDistance := distance;
      } else if |touches| == 1 {
        isDragging := true;
        lastMousePos := touches[0];
      }
    }

    /** Two fingers while pinching: zoom by the distance ratio when the last
        distance is positive (returning early, without recording the
        distance, if the SVG element is missing), then record the distance.
        One finger while dragging and not pinching: pan like the mouse. */
    method HandleTouchMove(touches: seq<Point>, distance: real, svgRect: Option<Rect>)
      requires Valid()
      modifies this
      ensures Valid()
      ensures AreaState() == old(AreaState()) && containerSize == old(containerSize)
      ensures isDragging == old(isDragging) && isPinching == old(isPinching)
      ensures |touches| == 2 && old(isPinching) ==>
        lastMousePos == old(lastMousePos) &&
        (old(lastTouchDistance) > 0.0 && svgRect.None? ==>
          transform == old(transform) && lastTouchDistance == old(lastTouchDistance)) &&
        (old(lastTouchDistance) > 0.0 && svgRect.Some? ==>
          transform == PinchZoom(old(transform), distance, old(lastTouchDistance), touches, svgRect.value,
                                 containerSize, imageWidth, imageHeight) &&
          lastTouchDistance == distance) &&
        (old(lastTouchDistance) <= 0.0 ==> transform == old(transform) && lastTouchDistance == distance)
      ensures |touches| == 1 && old(isDragging) && !old(isPinching) ==>
        lastMousePos == touches[0] && lastTouchDistance == old(lastTouchDistance) &&
        transform == PanBy(old(transform), touches[0].x - old(lastMousePos).x, touches[0].y - old(lastMousePos).y,
                           containerSize, imageWidth, imageHeight)
      ensures !(|touches| == 2 && old(isPinching)) && !(|touches| == 1 && old(isDragging) && !old(isPinching)) ==>
        transform == old(transform) && GestureState() == old(GestureState())
    {
      if |touches| == 2 && isPinching {
        if lastTouchDistance > 0.0 {
          if svgRect.None? {
            return;
          }
          transform := PinchZoom(transform, distance, lastTouchDistance, touches, svgRect.value,
                                 containerSize, imageWidth, imageHeight);
        }
        lastTouchDistance := distance;
      } else if |touches| == 1 && isDragging && !isPinching {
        var deltaX := touches[0].x - lastMousePos.x;
        var deltaY := touches[0].y - lastMousePos.y;
        transform := PanBy(transform, deltaX, deltaY, containerSize, imageWidth, imageHeight);
        lastMousePos := touches[0];
      }
    }

    /** Fewer than two remaining fingers end the pinch and forget the
        distance; no remaining finger ends the drag. */
    method HandleTouchEnd(touches: seq<Point>)
      requires Valid()
      modifies this
      ensures Valid()
      ensures AreaState() == old(AreaState()) && containerSize == old(containerSize)
      ensures transform == old(transform) && lastMousePos == old(lastMousePos)
      ensures |touches| < 2 ==> !isPinching && lastTouchDistance == 0.0
      ensures |touches| >= 2 ==> isPinching == old(isPinching) && lastTouchDistance == old(lastTouchDistance)
      ensures |touches| == 0 ==> !isDragging
      ensures |touches| != 0 ==> isDragging == old(isDragging)
    {
      if |touches| < 2 {
        isPinching := false;
        lastTouchDistance := 0.0;
      }
      if |touches| == 0 {
        isDragging := false;
      }
    }

    /** A click on a polygon selects its area and nothing else. */
    method HandleAreaClick(area: MapArea)
      requires Valid()
      modifies this
      ensures Valid()
      ensures selectedArea == Some(area)
      ensures hoveredArea == old(hoveredArea) && tooltipPos == old(tooltipPos)
      ensures transform == old(transform) && GestureState() == old(GestureState())
      ensures containerSize == old(containerSize)
    {
      selectedArea := Some(area);
    }

    /** Entering a polygon hovers its area and places the tooltip at the
        pointer; the selection is untouched. */
    method HandleAreaMouseEnter(area: MapArea, clientX: real, clientY: real)
      requires Valid()
      modifies this
      ensures Valid()
      ensures hoveredArea == Some(area) && tooltipPos == Point(clientX, clientY)
      ensures selectedArea == old(selectedArea)
      ensures transform == old(transform) && GestureState() == old(GestureState())
      ensures containerSize == old(containerSize)
    {
      hoveredArea := Some(area);
      tooltipPos := Point(clientX, clientY);
    }

    /** Moving over a polygon only moves the tooltip. */
    method HandleAreaMouseMove(clientX: real, clientY: real)
      requires Valid()
      modifies this
      ensures Valid()
      ensures tooltipPos == Point(clientX, clientY)
      ensures selectedArea == old(selectedArea) && hoveredArea == old(hoveredArea)
      ensures transform == old(transform) && GestureState() == old(GestureState())
      ensures containerSize == old(containerSize)
    {
      tooltipPos := Point(clientX, clientY);
    }

    /** Leaving a polygon clears the hover only; the selection survives. */
    method HandleAreaMouseLeave()
      requires Valid()
      modifies this
      ensures Valid()
      ensures hoveredArea == None
      ensures selectedArea == old(selectedArea) && tooltipPos == old(tooltipPos)
      ensures transform == old(transform) && GestureState() == old(GestureState())
      ensures containerSize == old(containerSize)
    {
      hoveredArea := None;
    }

    /** The close button of the information panel clears the selection. */
    method HandleCloseSelection()
      requires Valid()
      modifies this
      ensures Valid()
      ensures selectedArea == None
      ensures hoveredArea == old(hoveredArea) && tooltipPos == old(tooltipPos)
      ensures transform == old(transform) && GestureState() == old(GestureState())
      ensures containerSize == old(containerSize)
    {
      selectedArea := None;
    }
  }
}
