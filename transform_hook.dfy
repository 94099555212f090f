/** The `useTransform` hook of `src/hooks/use-transform.ts`: wheel zoom in
    steps of 0.1, left-button drag from a snapshot, re-clamping on resize and
    the cursor class. Its bounds assume a 1920x1080 image and halve the
    overflow before dividing it by the scale. The coverage statements assume
    the centred frame the hook's comments describe, where the translate is
    the screen offset of the image centre from the container centre;
    ImageMapper's layout gives that frame only for a container 1920 px wide
    and as tall as the image. In it the image may move only `1/scale` of its
    overflow half each way. The container element (`containerRef.current`)
    is passed to each handler as an `Option<Rect>`; `None` is the
    not-yet-mounted case. */
module TransformHook {
  import opened Geometry
  import opened MapUtils

  const HOOK_IMAGE_WIDTH: real := 1920.0
  const HOOK_IMAGE_HEIGHT: real := 1080.0
  const WHEEL_STEP: real := 0.1

  datatype Transform = Transform(scale: real, translateX: real, translateY: real)

  /** `calculateImageBounds`: on each axis the translate may range over half
      the overflow divided by the scale, and is pinned at 0 when the image
      does not overflow. */
  function CalculateImageBounds(scale: real, containerWidth: real, containerHeight: real): (b: Bounds)
    requires scale > 0.0
    ensures b.minX == -b.maxX <= 0.0 <= b.maxX
    ensures b.minY == -b.maxY <= 0.0 <= b.maxY
    ensures b.maxX > 0.0 <==> HOOK_IMAGE_WIDTH * scale > containerWidth
    ensures b.maxY > 0.0 <==> HOOK_IMAGE_HEIGHT * scale > containerHeight
    ensures HOOK_IMAGE_WIDTH * scale > containerWidth ==>
      containerWidth + 2.0 * scale * b.maxX == HOOK_IMAGE_WIDTH * scale
    ensures HOOK_IMAGE_HEIGHT * scale > containerHeight ==>
      containerHeight + 2.0 * scale * b.maxY == HOOK_IMAGE_HEIGHT * scale
  {
    var scaledImageWidth := HOOK_IMAGE_WIDTH * scale;
    var scaledImageHeight := HOOK_IMAGE_HEIGHT * scale;
    var maxX := if scaledImageWidth > containerWidth
      then (scaledImageWidth - containerWidth) / (2.0 * scale) else 0.0;
    var maxY := if scaledImageHeight > containerHeight
      then (scaledImageHeight - containerHeight) / (2.0 * scale) else 0.0;
    Bounds(-maxX, maxX, -maxY, maxY)
  }

  /** The translate of `t` lies within the bounds at its own scale for the
      container `rect`. */
  ghost predicate InImageBounds(t: Transform, rect: Rect)
    requires t.scale > 0.0
  {
    var b := CalculateImageBounds(t.scale, rect.width, rect.height);
    b.minX <= t.translateX <= b.maxX && b.minY <= t.translateY <= b.maxY
  }

  /** No white edges on screen, in the assumed centred frame: ImageMapper
      draws the image with `scale(s) translate(tx / s, ty / s)` about the
      wrapper's centre, and the image centre is taken to sit `tx` screen
      pixels from the container centre. Since the hook's bounds are the
      overflow halved and then divided by `s >= 1`,
      every translate within them keeps the image's edges at or beyond the
      container's on each overflowing axis. An axis that fits is pinned at 0. */
  lemma ImageBoundsCoverContainer(t: Transform, rect: Rect)
    requires t.scale >= MIN_SCALE && InImageBounds(t, rect)
    ensures HOOK_IMAGE_WIDTH * t.scale > rect.width ==>
      t.translateX - HOOK_IMAGE_WIDTH * t.scale / 2.0 <= -rect.width / 2.0 &&
      rect.width / 2.0 <= t.translateX + HOOK_IMAGE_WIDTH * t.scale / 2.0
    ensures HOOK_IMAGE_WIDTH * t.scale <= rect.width ==> t.translateX == 0.0
    ensures HOOK_IMAGE_HEIGHT * t.scale > rect.height ==>
      t.translateY - HOOK_IMAGE_HEIGHT * t.scale / 2.0 <= -rect.height / 2.0 &&
      rect.height / 2.0 <= t.translateY + HOOK_IMAGE_HEIGHT * t.scale / 2.0
    ensures HOOK_IMAGE_HEIGHT * t.scale <= rect.height ==> t.translateY == 0.0
  {
    var b := CalculateImageBounds(t.scale, rect.width, rect.height);
    if HOOK_IMAGE_WIDTH * t.scale > rect.width {
      DividedByScaleShrinks(HOOK_IMAGE_WIDTH * t.scale - rect.width, t.scale);
    }
    if HOOK_IMAGE_HEIGHT * t.scale > rect.height {
      DividedByScaleShrinks(HOOK_IMAGE_HEIGHT * t.scale - rect.height, t.scale);
    }
  }

  /** Helper: dividing a positive overflow by `2 * s` with `s >= 1` gives at
      most half of it. */
  lemma DividedByScaleShrinks(overflow: real, s: real)
    requires overflow > 0.0 && s >= 1.0
    ensures overflow / (2.0 * s) <= overflow / 2.0
  {
    var q := overflow / (2.0 * s);
    assert q * (2.0 * s) == overflow;
    assert q * 2.0 <= q * (2.0 * s);
  }

  /** Zooming in never shrinks the room to pan: for a measured container, the
      bounds at a larger scale contain those at a smaller one. */
  lemma ImageBoundsGrowWithScale(s1: real, s2: real, containerWidth: real, containerHeight: real)
    requires 0.0 < s1 <= s2 && containerWidth >= 0.0 && containerHeight >= 0.0
    ensures CalculateImageBounds(s1, containerWidth, containerHeight).maxX <= CalculateImageBounds(s2, containerWidth, containerHeight).maxX
    ensures CalculateImageBounds(s1, containerWidth, containerHeight).maxY <= CalculateImageBounds(s2, containerWidth, containerHeight).maxY
  {
    if HOOK_IMAGE_WIDTH * s1 > containerWidth {
      OverflowPerScaleGrows(HOOK_IMAGE_WIDTH, s1, s2, containerWidth);
    }
    if HOOK_IMAGE_HEIGHT * s1 > containerHeight {
      OverflowPerScaleGrows(HOOK_IMAGE_HEIGHT, s1, s2, containerHeight);
    }
  }

  /** Helper: `(extent * s - c) / (2 * s)` is `extent / 2 - c / (2 * s)`,
      which grows with `s` for a non-negative `c`. */
  lemma OverflowPerScaleGrows(extent: real, s1: real, s2: real, c: real)
    requires extent > 0.0 && 0.0 < s1 <= s2 && c >= 0.0 && extent * s1 > c
    ensures extent * s2 > c
    ensures (extent * s1 - c) / (2.0 * s1) <= (extent * s2 - c) / (2.0 * s2)
  {
    assert extent * s2 - extent * s1 == extent * (s2 - s1);
    var q1 := c / (2.0 * s1);
    var q2 := c / (2.0 * s2);
    assert q1 * (2.0 * s1) == c == q2 * (2.0 * s2);
    assert q2 * (2.0 * s1) <= q2 * (2.0 * s2);
    assert q2 <= q1;
    assert (extent * s1 - c) / (2.0 * s1) == extent / 2.0 - q1;
    assert (extent * s2 - c) / (2.0 * s2) == extent / 2.0 - q2;
  }

  /** `resetPositionIfNeeded`: with a container, each translate is pulled into
      the bounds at `newScale`, and one already inside is left alone; without
      a container the translate is returned as given. */
  function ResetPositionIfNeeded(newScale: real, currentTranslateX: real, currentTranslateY: real,
                                 container: Option<Rect>): (p: Point)
    requires newScale > 0.0
    ensures container.None? ==> p == Point(currentTranslateX, currentTranslateY)
    ensures container.Some? ==>
      InImageBounds(Transform(newScale, p.x, p.y), container.value)
    ensures container.Some? && InImageBounds(Transform(newScale, currentTranslateX, currentTranslateY), container.value) ==>
      p == Point(currentTranslateX, currentTranslateY)
    ensures container.Some? ==>
      var b := CalculateImageBounds(newScale, container.value.width, container.value.height);
      (currentTranslateX <= b.minX ==> p.x == b.minX) && (b.maxX <= currentTranslateX ==> p.x == b.maxX) &&
      (currentTranslateY <= b.minY ==> p.y == b.minY) && (b.maxY <= currentTranslateY ==> p.y == b.maxY)
    ensures container.Some? ==>
      var b := CalculateImageBounds(newScale, container.value.width, container.value.height);
      (b.minX <= currentTranslateX <= b.maxX ==> p.x == currentTranslateX) &&
      (b.minY <= currentTranslateY <= b.maxY ==> p.y == currentTranslateY)
  {
    match container
    case None => Point(currentTranslateX, currentTranslateY)
    case Some(rect) =>
      var bounds := CalculateImageBounds(newScale, rect.width, rect.height);
      Point(Clamp(bounds.minX, bounds.maxX, currentTranslateX),
            Clamp(bounds.minY, bounds.maxY, currentTranslateY))
  }

  /** Re-clamping an already clamped position changes nothing. */
  lemma ResetPositionIdempotent(newScale: real, x: real, y: real, container: Option<Rect>)
    requires newScale > 0.0
    ensures var p := ResetPositionIfNeeded(newScale, x, y, container);
            ResetPositionIfNeeded(newScale, p.x, p.y, container) == p
  {
  }

  /** JavaScript's `1920 / 1080 > width / height`. A zero height makes the
      right-hand side +Infinity, NaN or -Infinity, so the comparison holds
      only for a negative width. */
  predicate ImageWiderThan(width: real, height: real)
  {
    if height == 0.0 then width < 0.0
    else HOOK_IMAGE_WIDTH / HOOK_IMAGE_HEIGHT > width / height
  }

  /** `getMinimumScale`: the scale at which the 16:9 image just covers the
      container, chosen by comparing aspect ratios; `MIN_SCALE` without a
      container. For a measured container it is the larger of the two
      per-axis ratios, so the image covers both axes and fits one exactly. */
  function GetMinimumScale(container: Option<Rect>): (r: real)
    ensures container.None? ==> r == MIN_SCALE
    ensures container.Some? && container.value.width >= 0.0 && container.value.height >= 0.0 ==>
      r == Max(container.value.width / HOOK_IMAGE_WIDTH, container.value.height / HOOK_IMAGE_HEIGHT)
    ensures container.Some? && container.value.width >= 0.0 && container.value.height >= 0.0 ==>
      HOOK_IMAGE_WIDTH * r >= container.value.width && HOOK_IMAGE_HEIGHT * r >= container.value.height &&
      (HOOK_IMAGE_WIDTH * r == container.value.width || HOOK_IMAGE_HEIGHT * r == container.value.height)
  {
    match container
    case None => MIN_SCALE
    case Some(rect) =>
      AspectComparison(rect.width, rect.height);
      if ImageWiderThan(rect.width, rect.height) then rect.height / HOOK_IMAGE_HEIGHT
      else rect.width / HOOK_IMAGE_WIDTH
  }

  /** Helper: for a non-negative size the aspect-ratio comparison picks the
      larger per-axis ratio. */
  lemma AspectComparison(width: real, height: real)
    ensures width >= 0.0 && height >= 0.0 ==>
      (ImageWiderThan(width, height) <==> height / HOOK_IMAGE_HEIGHT > width / HOOK_IMAGE_WIDTH)
  {
    if width >= 0.0 && height > 0.0 {
      var ratio := width / height;
      assert width == ratio * height;
      assert ImageWiderThan(width, height) <==> HOOK_IMAGE_WIDTH / HOOK_IMAGE_HEIGHT > ratio;
    }
  }

  /** The scale rule of `handleWheel`: one step of 0.1 down for a positive
      `deltaY`, up otherwise, clamped to
      `[max(MIN_SCALE, minimumScale), MAX_SCALE]` with the lower end winning. */
  function WheelScale(scale: real, deltaY: real, minimumScale: real): (s: real)
    ensures s >= MIN_SCALE && s >= minimumScale
    ensures Max(MIN_SCALE, minimumScale) <= MAX_SCALE ==> s <= MAX_SCALE
    ensures deltaY > 0.0 && scale >= Max(MIN_SCALE, minimumScale) ==> s <= scale
    ensures deltaY <= 0.0 && scale <= MAX_SCALE ==> s >= scale
    ensures var target := if deltaY > 0.0 then scale - WHEEL_STEP else scale + WHEEL_STEP;
            Max(MIN_SCALE, minimumScale) <= target <= MAX_SCALE ==> s == target
    ensures var target := if deltaY > 0.0 then scale - WHEEL_STEP else scale + WHEEL_STEP;
            var lower := Max(MIN_SCALE, minimumScale);
            (target <= lower ==> s == lower) &&
            (lower <= MAX_SCALE <= target ==> s == MAX_SCALE) &&
            (MAX_SCALE < lower ==> s == lower)
  {
    var delta := if deltaY > 0.0 then -WHEEL_STEP else WHEEL_STEP;
    var minScale := Max(MIN_SCALE, minimumScale);
    Max(minScale, Min(MAX_SCALE, scale + delta))
  }

  /** The translate `handleWheel` proposes before clamping: it moves by the
      cursor's offset from the container centre times the relative scale
      change, divided by the old scale. A cursor at the centre, or an
      unchanged scale, leaves the translate where it was. */
  function WheelTranslate(t: Transform, newScale: real, mouse: Point, center: Point): (p: Point)
    requires t.scale > 0.0
    ensures mouse == center || newScale == t.scale ==> p == Point(t.translateX, t.translateY)
    ensures t.scale * t.scale * (p.x - t.translateX) == (center.x - mouse.x) * (newScale - t.scale)
    ensures t.scale * t.scale * (p.y - t.translateY) == (center.y - mouse.y) * (newScale - t.scale)
  {
    var scaleRatio := newScale / t.scale;
    var p := Point(t.translateX + ((center.x - mouse.x) * (scaleRatio - 1.0)) / t.scale,
                   t.translateY + ((center.y - mouse.y) * (scaleRatio - 1.0)) / t.scale);
    WheelTranslateClosedForm(t.scale, newScale, center.x - mouse.x);
    WheelTranslateClosedForm(t.scale, newScale, center.y - mouse.y);
    p
  }

  /** Helper: the arithmetic behind `WheelTranslate`'s closed form. */
  lemma WheelTranslateClosedForm(scale: real, newScale: real, offset: real)
    requires scale > 0.0
    ensures scale * scale * ((offset * (newScale / scale - 1.0)) / scale) == offset * (newScale - scale)
    ensures newScale == scale || offset == 0.0 ==> (offset * (newScale / scale - 1.0)) / scale == 0.0
  {
    var ratio := newScale / scale;
    assert ratio * scale == newScale;
    var d := offset * (ratio - 1.0);
    assert (d / scale) * scale == d;
    if newScale == scale {
      assert (ratio - 1.0) * scale == 0.0;
      assert ratio - 1.0 == 0.0;
    }
    calc {
      scale * scale * (d / scale);
      scale * ((d / scale) * scale);
      scale * d;
      offset * (ratio * scale - scale);
      offset * (newScale - scale);
    }
  }

  /** `handleWheel`: without a container, or when the clamped scale equals
      the current one, nothing changes; otherwise the scale follows
      `WheelScale` and the committed translate lies within the bounds at the
      new scale. */
  function WheelZoom(t: Transform, deltaY: real, clientX: real, clientY: real, container: Option<Rect>): (r: Transform)
    requires t.scale > 0.0
    ensures container.None? ==> r == t
    ensures container.Some? ==> r.scale == WheelScale(t.scale, deltaY, GetMinimumScale(container))
    ensures r.scale == t.scale ==> r == t
    ensures r.scale >= MIN_SCALE || r == t
    ensures container.Some? && r != t ==> r.scale > 0.0 && InImageBounds(r, container.value)
    ensures container.Some? && r != t ==>
      var rect := container.value;
      var moved := WheelTranslate(t, r.scale, Relative(clientX, clientY, rect), Point(rect.width / 2.0, rect.height / 2.0));
      Point(r.translateX, r.translateY) == ResetPositionIfNeeded(r.scale, moved.x, moved.y, container)
  {
    match container
    case None => t
    case Some(rect) =>
      var mouse := Relative(clientX, clientY, rect);
      var newScale := WheelScale(t.scale, deltaY, GetMinimumScale(container));
      if newScale == t.scale then t
      else
        var center := Point(rect.width / 2.0, rect.height / 2.0);
        var moved := WheelTranslate(t, newScale, mouse, center);
        var position := ResetPositionIfNeeded(newScale, moved.x, moved.y, container);
        Transform(newScale, position.x, position.y)
  }

  /** Scrolling up with the cursor at the container centre zooms in (up to
      `MAX_SCALE`) without moving a translate that is within the bounds. */
  lemma WheelAtCentreKeepsTranslate(t: Transform, deltaY: real, rect: Rect)
    requires 0.0 < t.scale <= MAX_SCALE && deltaY <= 0.0
    requires rect.width >= 0.0 && rect.height >= 0.0 && InImageBounds(t, rect)
    ensures var r := WheelZoom(t, deltaY, rect.left + rect.width / 2.0, rect.top + rect.height / 2.0, Some(rect));
      r.scale >= t.scale && r.translateX == t.translateX && r.translateY == t.translateY
  {
    var r := WheelZoom(t, deltaY, rect.left + rect.width / 2.0, rect.top + rect.height / 2.0, Some(rect));
    if r != t {
      var mouse := Relative(rect.left + rect.width / 2.0, rect.top + rect.height / 2.0, rect);
      assert mouse == Point(rect.width / 2.0, rect.height / 2.0);
      assert r.scale >= t.scale;
      ImageBoundsGrowWithScale(t.scale, r.scale, rect.width, rect.height);
      assert InImageBounds(Transform(r.scale, t.translateX, t.translateY), rect);
    }
  }

  /** Where the wheel proposal keeps the point under the cursor. Reading the
      translate as the screen offset of the image centre from the container
      centre (the centred frame the bounds assume), the image point under a
      cursor `m` pixels from the centre is `(m - tx) / s`. For a real change
      of scale, `WheelTranslate` keeps that point under the cursor on an axis
      (`(m - p) / s' == (m - tx) / s`, written without division) exactly when
      `tx * s == m * (s - 1)` there; so at scale 1, or with the cursor at the
      centre, only when `tx == 0`. */
  lemma WheelProposalKeepsPointIff(t: Transform, newScale: real, mouse: Point, center: Point)
    requires t.scale > 0.0 && newScale > 0.0 && newScale != t.scale
    ensures var p := WheelTranslate(t, newScale, mouse, center);
      var m := mouse.x - center.x;
      (m - p.x) * t.scale == (m - t.translateX) * newScale <==> t.translateX * t.scale == m * (t.scale - 1.0)
    ensures var p := WheelTranslate(t, newScale, mouse, center);
      var m := mouse.y - center.y;
      (m - p.y) * t.scale == (m - t.translateY) * newScale <==> t.translateY * t.scale == m * (t.scale - 1.0)
  {
    var p := WheelTranslate(t, newScale, mouse, center);
    KeepsPointIff(t.scale, newScale, mouse.x, center.x, t.translateX, p.x);
    KeepsPointIff(t.scale, newScale, mouse.y, center.y, t.translateY, p.y);
  }

  /** Helper: one axis of `WheelProposalKeepsPointIff`, from the closed form
      `s² * (px - tx) == (center - mouse) * (s' - s)` of the proposal. */
  lemma KeepsPointIff(s: real, s2: real, mouse: real, center: real, tx: real, px: real)
    requires s > 0.0 && s2 != s
    requires s * s * (px - tx) == (center - mouse) * (s2 - s)
    ensures var m := mouse - center;
      (m - px) * s == (m - tx) * s2 <==> tx * s == m * (s - 1.0)
  {
    var m := mouse - center;
    var d := s2 - s;
    var e := px - tx;
    var u := m - tx;
    assert s * (s * e) == -m * d;
    // `(m - px) * s` is `u * s - e * s` and `u * s2` is `u * s + u * d`, so
    // the point is kept exactly when `-(e * s) == u * d`.
    assert (m - px) * s == u * s2 <==> -(e * s) == u * d;
    // Multiplying by `s > 0` and using the closed form: exactly when
    // `m * d == (s * u) * d`, that is `m == s * u` since `d != 0`.
    assert -(e * s) == u * d <==> m * d == (s * u) * d by {
      assert s * -(e * s) == m * d;
      assert s * (u * d) == (s * u) * d;
    }
    assert m * d == (s * u) * d <==> m == s * u;
  }

  /** The drag update of `handleMouseMove`: the snapshot offset plus the
      pointer's total displacement since mouse-down, clamped into the bounds
      at the current scale; the scale is kept. */
  function DragTransform(t: Transform, dragStart: Point, dragOffset: Point, pointer: Point, rect: Rect): (r: Transform)
    requires t.scale > 0.0
    ensures r.scale == t.scale && InImageBounds(r, rect)
    ensures InImageBounds(Transform(t.scale, dragOffset.x + (pointer.x - dragStart.x), dragOffset.y + (pointer.y - dragStart.y)), rect) ==>
      r.translateX == dragOffset.x + (pointer.x - dragStart.x) &&
      r.translateY == dragOffset.y + (pointer.y - dragStart.y)
    ensures var b := CalculateImageBounds(t.scale, rect.width, rect.height);
      var nx := dragOffset.x + (pointer.x - dragStart.x);
      var ny := dragOffset.y + (pointer.y - dragStart.y);
      (nx <= b.minX ==> r.translateX == b.minX) && (b.maxX <= nx ==> r.translateX == b.maxX) &&
      (ny <= b.minY ==> r.translateY == b.minY) && (b.maxY <= ny ==> r.translateY == b.maxY)
    ensures var b := CalculateImageBounds(t.scale, rect.width, rect.height);
      var nx := dragOffset.x + (pointer.x - dragStart.x);
      var ny := dragOffset.y + (pointer.y - dragStart.y);
      (b.minX <= nx <= b.maxX ==> r.translateX == nx) && (b.minY <= ny <= b.maxY ==> r.translateY == ny)
  {
    var newTranslateX := dragOffset.x + (pointer.x - dragStart.x);
    var newTranslateY := dragOffset.y + (pointer.y - dragStart.y);
    var bounds := CalculateImageBounds(t.scale, rect.width, rect.height);
    Transform(t.scale, Clamp(bounds.minX, bounds.maxX, newTranslateX),
                       Clamp(bounds.minY, bounds.maxY, newTranslateY))
  }

  /** A drag depends only on the latest pointer position, not on the moves
      before it. */
  lemma DragIgnoresPath(t: Transform, dragStart: Point, dragOffset: Point, p1: Point, p2: Point, rect: Rect)
    requires t.scale > 0.0
    ensures DragTransform(DragTransform(t, dragStart, dragOffset, p1, rect), dragStart, dragOffset, p2, rect)
         == DragTransform(t, dragStart, dragOffset, p2, rect)
  {
  }

  /** `Math.abs`. */
  function Abs(v: real): (r: real)
    ensures r >= 0.0 && (r == v || r == -v)
  {
    if v < 0.0 then -v else v
  }

  /** The state of one `useTransform` instance. */
  class TransformController {
    var transform: Transform
    var isDragging: bool
    var dragStart: Point
    var dragOffset: Point

    /** Every committed scale is at least `MIN_SCALE`, so dividing by it is safe. */
    ghost predicate Valid()
      reads this
    {
      transform.scale >= MIN_SCALE
    }

    constructor ()
      ensures Valid()
      ensures transform == Transform(1.0, 0.0, 0.0)
      ensures !isDragging && dragStart == Point(0.0, 0.0) && dragOffset == Point(0.0, 0.0)
    {
      transform := Transform(1.0, 0.0, 0.0);
      isDragging := false;
      dragStart := Point(0.0, 0.0);
      dragOffset := Point(0.0, 0.0);
    }

    method HandleWheel(deltaY: real, clientX: real, clientY: real, container: Option<Rect>)
      requires Valid()
      modifies this
      ensures Valid()
      ensures transform == WheelZoom(old(transform), deltaY, clientX, clientY, container)
      ensures isDragging == old(isDragging) && dragStart == old(dragStart) && dragOffset == old(dragOffset)
    {
      transform := WheelZoom(transform, deltaY, clientX, clientY, container);
    }

    /** Only the left button (0) starts a drag, snapshotting the pointer and
        the current translate. */
    method HandleMouseDown(button: int, clientX: real, clientY: real)
      requires Valid()
      modifies this
      ensures Valid() && transform == old(transform)
      ensures button != 0 ==>
        isDragging == old(isDragging) && dragStart == old(dragStart) && dragOffset == old(dragOffset)
      ensures button == 0 ==>
        isDragging && dragStart == Point(clientX, clientY) &&
        dragOffset == Point(old(transform).translateX, old(transform).translateY)
    {
      if button != 0 {
        return;
      }
      isDragging := true;
      dragStart := Point(clientX, clientY);
      dragOffset := Point(transform.translateX, transform.translateY);
    }

    method HandleMouseMove(clientX: real, clientY: real, container: Option<Rect>)
      requires Valid()
      modifies this
      ensures Valid()
      ensures isDragging == old(isDragging) && dragStart == old(dragStart) && dragOffset == old(dragOffset)
      ensures !old(isDragging) || container.None? ==> transform == old(transform)
      ensures old(isDragging) && container.Some? ==>
        transform == DragTransform(old(transform), dragStart, dragOffset, Point(clientX, clientY), container.value)
    {
      if !isDragging || container.None? {
        return;
      }
      transform := DragTransform(transform, dragStart, dragOffset, Point(clientX, clientY), container.value);
    }

    method HandleMouseUp()
      requires Valid()
      modifies this
      ensures Valid() && !isDragging
      ensures transform == old(transform) && dragStart == old(dragStart) && dragOffset == old(dragOffset)
    {
      isDragging := false;
    }

    /** The window-resize listener: keeps the scale and pulls the translate
        back into the bounds for the new container size. */
    method HandleResize(container: Option<Rect>)
      requires Valid()
      modifies this
      ensures Valid()
      ensures isDragging == old(isDragging) && dragStart == old(dragStart) && dragOffset == old(dragOffset)
      ensures container.None? ==> transform == old(transform)
      ensures transform.scale == old(transform).scale
      ensures container.Some? ==> InImageBounds(transform, container.value)
      ensures container.Some? && InImageBounds(old(transform), container.value) ==> transform == old(transform)
      ensures container.Some? ==>
        Point(transform.translateX, transform.translateY) ==
        ResetPositionIfNeeded(old(transform).scale, old(transform).translateX, old(transform).translateY, container)
    {
      if container.None? {
        return;
      }
      var position := ResetPositionIfNeeded(transform.scale, transform.translateX, transform.translateY, container);
      transform := transform.(translateX := position.x, translateY := position.y);
    }

    /** `getCursor`: grabbing while dragging; otherwise grab exactly when the
        image overflows the container on some axis, so that it can be moved. */
    function GetCursor(container: Option<Rect>): (c: string)
      reads this
      requires Valid()
      ensures isDragging ==> c == "cursor-grabbing"
      ensures !isDragging ==> c != "cursor-grabbing"
      ensures !isDragging && container.None? ==> c == "cursor-default"
      ensures !isDragging && container.Some? ==>
        (c == "cursor-grab" <==>
          HOOK_IMAGE_WIDTH * transform.scale > container.value.width ||
          HOOK_IMAGE_HEIGHT * transform.scale > container.value.height)
      ensures c == "cursor-grabbing" || c == "cursor-grab" || c == "cursor-default"
    {
      if isDragging then "cursor-grabbing"
      else match container
        case None => "cursor-default"
        case Some(rect) =>
          var bounds := CalculateImageBounds(transform.scale, rect.width, rect.height);
          var canMoveX := Abs(bounds.maxX - bounds.minX) > 0.0;
          var canMoveY := Abs(bounds.maxY - bounds.minY) > 0.0;
          if canMoveX || canMoveY then "cursor-grab" else "cursor-default"
    }
  }
}
