/**
 * The two computational helpers of the drawing module: snapping a pointer
 * position to the grid and the scale that fits the canvas into its
 * container. The drawing calls themselves are not part of this model.
 */
module DrawUtils {
  import opened Types
  import opened JsMath
  import ObjectUtils

  /** `snapToGrid` of the drawing module, on a point. */
  function SnapPoint(point: Position, gridSize: int): (r: Position)
    requires gridSize != 0
    ensures ObjectUtils.NearestMultiple(point.x, gridSize, r.x)
    ensures ObjectUtils.NearestMultiple(point.y, gridSize, r.y)
  {
    var kx, ky := Round(point.x, gridSize), Round(point.y, gridSize);
    ObjectUtils.MultipleMod(kx, gridSize);
    ObjectUtils.MultipleMod(ky, gridSize);
    Position(kx * gridSize, ky * gridSize)
  }

  /**
   * The point version computes the same as the position snapping of the
   * object module, coordinate by coordinate.
   */
  lemma SnapPointAgreesWithSnapPosition(point: Position, gridSize: int)
    requires gridSize != 0
    ensures SnapPoint(point, gridSize) == ObjectUtils.SnapPositionToGrid(point, gridSize)
  {
    var r := SnapPoint(point, gridSize);
    ObjectUtils.NearestMultipleUnique(point.x, gridSize, r.x);
    ObjectUtils.NearestMultipleUnique(point.y, gridSize, r.y);
  }

  /** Snapping a snapped point changes nothing. */
  lemma SnapPointIdempotent(point: Position, gridSize: int)
    requires gridSize != 0
    ensures SnapPoint(SnapPoint(point, gridSize), gridSize) == SnapPoint(point, gridSize)
  {
    var r := SnapPoint(point, gridSize);
    SnapPointAgreesWithSnapPosition(point, gridSize);
    SnapPointAgreesWithSnapPosition(r, gridSize);
    ObjectUtils.SnapToGridIdempotent(point.x, gridSize);
    ObjectUtils.SnapToGridIdempotent(point.y, gridSize);
  }

  function RealMin(a: real, b: real): (r: real)
    ensures r <= a && r <= b && (r == a || r == b)
  {
    if a <= b then a else b
  }

  /**
   * `calculateScale`, over exact reals: the smaller of the horizontal and
   * vertical ratios of container to canvas.
   */
  function CalculateScale(canvasWidth: real, canvasHeight: real,
                          containerWidth: real, containerHeight: real): (r: real)
    requires canvasWidth != 0.0 && canvasHeight != 0.0
    ensures r <= containerWidth / canvasWidth && r <= containerHeight / canvasHeight
    ensures r == containerWidth / canvasWidth || r == containerHeight / canvasHeight
  {
    var scaleX := containerWidth / canvasWidth;
    var scaleY := containerHeight / canvasHeight;
    RealMin(scaleX, scaleY)
  }

  /**
   * The scaled canvas fits into the container in both directions and fills
   * it in one of them.
   */
  lemma ScaledCanvasFits(canvasWidth: real, canvasHeight: real,
                         containerWidth: real, containerHeight: real)
    requires canvasWidth > 0.0 && canvasHeight > 0.0
    ensures var s := CalculateScale(canvasWidth, canvasHeight, containerWidth, containerHeight);
      && s * canvasWidth <= containerWidth
      && s * canvasHeight <= containerHeight
      && (s * canvasWidth == containerWidth || s * canvasHeight == containerHeight)
  {
    var s := CalculateScale(canvasWidth, canvasHeight, containerWidth, containerHeight);
    var sx, sy := containerWidth / canvasWidth, containerHeight / canvasHeight;
    assert sx * canvasWidth == containerWidth;
    assert sy * canvasHeight == containerHeight;
    ScaleBelow(s, sx, canvasWidth);
    ScaleBelow(s, sy, canvasHeight);
  }

  lemma ScaleBelow(s: real, t: real, c: real)
    requires c > 0.0 && s <= t
    ensures s * c <= t * c
  {
  }
}
