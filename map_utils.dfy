/** The centred-frame bounds helper of `src/utils/index.ts` and the constants
    shared with the transform hook. The translate is the offset of the image
    centre from the container centre, in screen pixels. */
module MapUtils {
  import opened Geometry

  const IMAGE_WIDTH: real := 1920.0
  const IMAGE_HEIGHT: real := 1200.0
  const MAX_SCALE: real := 4.0
  const MIN_SCALE: real := 1.0

  /** Legal translate interval on each axis. */
  datatype Bounds = Bounds(minX: real, maxX: real, minY: real, maxY: real)

  /** How far a centred image of extent `scaled` may slide either way inside a
      container of extent `container` without leaving a gap: half of its
      overflow, or nothing when it does not overflow. */
  function HalfOverflow(scaled: real, container: real): (m: real)
    ensures m >= 0.0
    ensures m == 0.0 <==> scaled <= container
    ensures scaled > container ==> container + 2.0 * m == scaled
  {
    if scaled <= container then 0.0 else (scaled - container) / 2.0
  }

  /** `calculateBounds`: four branches, one per combination of overflowing
      axes, that all reduce to the same rule applied to each axis on its own;
      the bounds are symmetric around 0. */
  function CalculateBounds(scale: real, containerWidth: real, containerHeight: real): (b: Bounds)
    ensures b.maxX == HalfOverflow(IMAGE_WIDTH * scale, containerWidth)
    ensures b.maxY == HalfOverflow(IMAGE_HEIGHT * scale, containerHeight)
    ensures b.minX == -b.maxX <= 0.0 <= b.maxX
    ensures b.minY == -b.maxY <= 0.0 <= b.maxY
  {
    var scaledWidth := IMAGE_WIDTH * scale;
    var scaledHeight := IMAGE_HEIGHT * scale;
    if scaledWidth <= containerWidth && scaledHeight <= containerHeight then
      Bounds(0.0, 0.0, 0.0, 0.0)
    else if scaledWidth <= containerWidth then
      var maxTranslateY := (scaledHeight - containerHeight) / 2.0;
      Bounds(0.0, 0.0, -maxTranslateY, maxTranslateY)
    else if scaledHeight <= containerHeight then
      var maxTranslateX := (scaledWidth - containerWidth) / 2.0;
      Bounds(-maxTranslateX, maxTranslateX, 0.0, 0.0)
    else
      var maxTranslateX := (scaledWidth - containerWidth) / 2.0;
      var maxTranslateY := (scaledHeight - containerHeight) / 2.0;
      Bounds(-maxTranslateX, maxTranslateX, -maxTranslateY, maxTranslateY)
  }

  /** The horizontal bounds ignore the container's height and the vertical
      bounds ignore its width. */
  lemma AxesIndependent(scale: real, w1: real, h1: real, w2: real, h2: real)
    ensures CalculateBounds(scale, w1, h1).minX == CalculateBounds(scale, w1, h2).minX
    ensures CalculateBounds(scale, w1, h1).maxX == CalculateBounds(scale, w1, h2).maxX
    ensures CalculateBounds(scale, w1, h1).minY == CalculateBounds(scale, w2, h1).minY
    ensures CalculateBounds(scale, w1, h1).maxY == CalculateBounds(scale, w2, h1).maxY
  {
  }

  /** No white edges: with the image centred at offset (tx, ty) from the
      container centre, any translate inside the bounds keeps the image's
      edges at or beyond the container's edges on every axis where the image
      overflows, and pins the translate to 0 on every axis where it does not. */
  lemma BoundsCoverContainer(scale: real, containerWidth: real, containerHeight: real, tx: real, ty: real)
    requires CalculateBounds(scale, containerWidth, containerHeight).minX <= tx
    requires tx <= CalculateBounds(scale, containerWidth, containerHeight).maxX
    requires CalculateBounds(scale, containerWidth, containerHeight).minY <= ty
    requires ty <= CalculateBounds(scale, containerWidth, containerHeight).maxY
    ensures IMAGE_WIDTH * scale > containerWidth ==>
      tx - IMAGE_WIDTH * scale / 2.0 <= -containerWidth / 2.0 &&
      containerWidth / 2.0 <= tx + IMAGE_WIDTH * scale / 2.0
    ensures IMAGE_WIDTH * scale <= containerWidth ==> tx == 0.0
    ensures IMAGE_HEIGHT * scale > containerHeight ==>
      ty - IMAGE_HEIGHT * scale / 2.0 <= -containerHeight / 2.0 &&
      containerHeight / 2.0 <= ty + IMAGE_HEIGHT * scale / 2.0
    ensures IMAGE_HEIGHT * scale <= containerHeight ==> ty == 0.0
  {
  }

  /** Zooming in never shrinks the room to pan. */
  lemma BoundsGrowWithScale(s1: real, s2: real, containerWidth: real, containerHeight: real)
    requires 0.0 < s1 <= s2
    ensures CalculateBounds(s1, containerWidth, containerHeight).maxX <= CalculateBounds(s2, containerWidth, containerHeight).maxX
    ensures CalculateBounds(s1, containerWidth, containerHeight).maxY <= CalculateBounds(s2, containerWidth, containerHeight).maxY
  {
  }
}
