/**
 * Object placement: grid snapping, the closed-box collision test, the
 * one-pass overlap resolver that pushes colliding objects up by one grid
 * cell, and the object factory and editing operations (move, resize,
 * rotate) that keep objects on the grid and inside the canvas.
 *
 * The clock readings the source takes with `Date.now()` (for ids and
 * `lastModified`) are parameters.
 */
module ObjectUtils {
  import opened Types
  import opened JsMath

  // ---------------------------------------------------------------- grid

  /**
   * `m` is the multiple of `gridSize` nearest to `value`. A value halfway
   * between two multiples belongs to the one `Math.round` picks: the larger
   * quotient, which is the larger multiple for a positive grid size and the
   * smaller one for a negative grid size.
   */
  ghost predicate NearestMultiple(value: int, gridSize: int, m: int)
    requires gridSize != 0
  {
    && m % gridSize == 0
    && (gridSize > 0 ==> 2 * value - gridSize < 2 * m <= 2 * value + gridSize)
    && (gridSize < 0 ==> 2 * value + gridSize <= 2 * m < 2 * value - gridSize)
  }

  /** `snapToGrid`: `Math.round(value / gridSize) * gridSize`. */
  function SnapToGrid(value: int, gridSize: int): (r: int)
    requires gridSize != 0
    ensures NearestMultiple(value, gridSize, r)
  {
    var k := Round(value, gridSize);
    MultipleMod(k, gridSize);
    k * gridSize
  }

  /** A multiple of `n` leaves no remainder. */
  lemma MultipleMod(k: int, n: int)
    requires n != 0
    ensures (k * n) % n == 0
  {
    var x := k * n;
    var q, r := x / n, x % n;
    assert x == q * n + r;
    assert r == (k - q) * n;
    SmallMultipleIsZero(k - q, n);
  }

  /** The nearest multiple is unique, so `SnapToGrid` is the only value with that property. */
  lemma NearestMultipleUnique(value: int, gridSize: int, m: int)
    requires gridSize != 0 && NearestMultiple(value, gridSize, m)
    ensures m == SnapToGrid(value, gridSize)
  {
    var r := SnapToGrid(value, gridSize);
    var i, j := m / gridSize, r / gridSize;
    assert m == i * gridSize;
    assert r == j * gridSize;
    assert m - r == (i - j) * gridSize;
    SmallMultipleIsZero(i - j, gridSize);
  }

  /** Snapping a value that is already on the grid leaves it where it is. */
  lemma SnapToGridIdempotent(value: int, gridSize: int)
    requires gridSize != 0
    ensures SnapToGrid(SnapToGrid(value, gridSize), gridSize) == SnapToGrid(value, gridSize)
  {
    var r := SnapToGrid(value, gridSize);
    NearestMultipleUnique(r, gridSize, r);
  }

  /** `snapPositionToGrid`: both coordinates are snapped independently. */
  function SnapPositionToGrid(position: Position, gridSize: int): (r: Position)
    requires gridSize != 0
    ensures NearestMultiple(position.x, gridSize, r.x)
    ensures NearestMultiple(position.y, gridSize, r.y)
  {
    Position(SnapToGrid(position.x, gridSize), SnapToGrid(position.y, gridSize))
  }

  /** `snapSizeToGrid`: width and height are snapped independently. */
  function SnapSizeToGrid(size: Size, gridSize: int): (r: Size)
    requires gridSize != 0
    ensures NearestMultiple(size.width, gridSize, r.width)
    ensures NearestMultiple(size.height, gridSize, r.height)
  {
    Size(SnapToGrid(size.width, gridSize), SnapToGrid(size.height, gridSize))
  }

  // ----------------------------------------------------------- collision

  function Right(o: CanvasObject): int { o.position.x + o.size.width }

  function Bottom(o: CanvasObject): int { o.position.y + o.size.height }

  /** The point lies in the object's closed bounding box. */
  predicate Contains(o: CanvasObject, p: Position)
  {
    o.position.x <= p.x <= Right(o) && o.position.y <= p.y <= Bottom(o)
  }

  /**
   * `checkCollision`: the closed bounding boxes are not separated along
   * either axis, that is, their x ranges meet and their y ranges meet. A box
   * of non-negative size whose top-left corner lies in the other box collides
   * with it.
   */
  function CheckCollision(obj1: CanvasObject, obj2: CanvasObject): (r: bool)
    ensures r <==> && obj1.position.x <= Right(obj2) && obj2.position.x <= Right(obj1)
                   && obj1.position.y <= Bottom(obj2) && obj2.position.y <= Bottom(obj1)
    ensures obj1.size.width >= 0 && obj1.size.height >= 0 && Contains(obj2, obj1.position) ==> r
    ensures obj2.size.width >= 0 && obj2.size.height >= 0 && Contains(obj1, obj2.position) ==> r
  {
    !(Right(obj1) < obj2.position.x ||
      obj1.position.x > Right(obj2) ||
      Bottom(obj1) < obj2.position.y ||
      obj1.position.y > Bottom(obj2))
  }

  /**
   * For boxes of non-negative size, the collision test holds exactly when
   * some point lies in both closed boxes; in particular boxes that only
   * share an edge or a corner collide.
   */
  lemma CollisionIsCommonPoint(obj1: CanvasObject, obj2: CanvasObject)
    requires obj1.size.width >= 0 && obj1.size.height >= 0
    requires obj2.size.width >= 0 && obj2.size.height >= 0
    ensures CheckCollision(obj1, obj2) <==> exists p :: Contains(obj1, p) && Contains(obj2, p)
  {
    if CheckCollision(obj1, obj2) {
      var p := Position(Max(obj1.position.x, obj2.position.x), Max(obj1.position.y, obj2.position.y));
      assert Contains(obj1, p) && Contains(obj2, p);
    }
  }

  /** The collision test does not depend on the order of its arguments. */
  lemma CollisionSymmetric(obj1: CanvasObject, obj2: CanvasObject)
    ensures CheckCollision(obj1, obj2) == CheckCollision(obj2, obj1)
  {
  }

  // -------------------------------------------------- overlap resolution

  /**
   * The rule of `handleObjectOverlap` (src/lib/objectUtils.ts:46-51): `obj` is pushed away by `newObject`
   * when it is another object, it collides with `newObject`, and both allow
   * displacement.
   */
  predicate Displaces(newObject: CanvasObject, obj: CanvasObject)
  {
    && obj.id != newObject.id
    && CheckCollision(newObject, obj)
    && obj.overlapRule == Displace
    && newObject.overlapRule == Displace
  }

  /**
   * The object moved up (toward smaller `y`) by `distance`, nothing else
   * changed: `obj.position.y -= gridSize` (src/lib/objectUtils.ts:53).
   */
  function ShiftUp(obj: CanvasObject, distance: int): CanvasObject
  {
    obj.(position := obj.position.(y := obj.position.y - distance))
  }

  /**
   * The objects after one pass of `handleObjectOverlap`: each object that
   * `newObject` displaces, judged against its position before the pass, is
   * shifted up by one grid cell; no object is re-checked after moving.
   */
  function OverlapResolved(newObject: CanvasObject, objects: seq<CanvasObject>, gridSize: int)
    : (r: seq<CanvasObject>)
    ensures |r| == |objects|
    ensures forall i :: 0 <= i < |objects| ==>
              r[i] == if Displaces(newObject, objects[i]) then ShiftUp(objects[i], gridSize) else objects[i]
  {
    if objects == [] then []
    else
      [if Displaces(newObject, objects[0]) then ShiftUp(objects[0], gridSize) else objects[0]]
      + OverlapResolved(newObject, objects[1..], gridSize)
  }

  /**
   * What the pass does to the object in slot `i`: it keeps its slot, its id
   * and its `x`; its `y` drops by exactly `gridSize` if `newObject` displaces
   * it, and otherwise it is unchanged.
   */
  lemma OverlapResolvedAt(newObject: CanvasObject, objects: seq<CanvasObject>, gridSize: int, i: int)
    requires gridSize != 0 && 0 <= i < |objects|
    ensures var r := OverlapResolved(newObject, objects, gridSize);
      && |r| == |objects|
      && r[i].id == objects[i].id
      && r[i].position.x == objects[i].position.x
      && (r[i].position.y == objects[i].position.y - gridSize <==> Displaces(newObject, objects[i]))
      && r[i] == objects[i].(position := r[i].position)
      && (!Displaces(newObject, objects[i]) ==> r[i] == objects[i])
  {
  }

  /** An incoming object whose rule is `allow` moves nothing. */
  lemma AllowMovesNothing(newObject: CanvasObject, objects: seq<CanvasObject>, gridSize: int)
    requires newObject.overlapRule == Allow
    ensures OverlapResolved(newObject, objects, gridSize) == objects
  {
    var r := OverlapResolved(newObject, objects, gridSize);
    assert forall i :: 0 <= i < |objects| ==> r[i] == objects[i];
  }

  /**
   * `handleObjectOverlap`. The source copies the array but then shifts the
   * colliding objects themselves, which the copy shares with the caller's
   * array; so the displacement shows in both arrays.
   */
  method HandleObjectOverlap(newObject: CanvasObject, existingObjects: array<CanvasObject>,
                             gridSize: int)
    returns (updatedObjects: array<CanvasObject>)
    modifies existingObjects
    ensures fresh(updatedObjects)
    ensures existingObjects[..] == OverlapResolved(newObject, old(existingObjects[..]), gridSize)
    ensures updatedObjects[..] == existingObjects[..]
  {
    var n := existingObjects.Length;
    updatedObjects := new CanvasObject[n];
    for i := 0 to n
      invariant updatedObjects[..i] == existingObjects[..i]
      invariant existingObjects[..] == old(existingObjects[..])
    {
      updatedObjects[i] := existingObjects[i];
    }
    ghost var before := old(existingObjects[..]);
    for i := 0 to n
      invariant forall j :: 0 <= j < i ==>
                  updatedObjects[j] == existingObjects[j] ==
                  (if Displaces(newObject, before[j]) then ShiftUp(before[j], gridSize) else before[j])
      invariant forall j :: i <= j < n ==> updatedObjects[j] == existingObjects[j] == before[j]
    {
      var obj := updatedObjects[i];
      if obj.id != newObject.id && CheckCollision(newObject, obj)
         && obj.overlapRule == Displace && newObject.overlapRule == Displace
      {
        var moved := obj.(position := obj.position.(y := obj.position.y - gridSize));
        updatedObjects[i] := moved;
        existingObjects[i] := moved;
      }
    }
  }

  // ------------------------------------------------------------- factory

  /** `Partial<CanvasObject>`: every property may be given or left out. */
  datatype ObjectOptions = ObjectOptions(
    id: Option<string>,
    objType: Option<ObjectType>,
    position: Option<Position>,
    size: Option<Size>,
    rotation: Option<int>,
    overlapRule: Option<OverlapRule>,
    zIndex: Option<int>,
    lastModified: Option<int>,
    content: Option<string>,
    fontSize: Option<int>,
    fontFamily: Option<string>,
    color: Option<string>,
    shapeType: Option<ShapeType>,
    fill: Option<string>,
    stroke: Option<string>,
    strokeWidth: Option<int>,
    imageUrl: Option<string>,
    toolType: Option<ToolType>)

  const NoOptions := ObjectOptions(None, None, None, None, None, None, None, None,
                                   None, None, None, None, None, None, None, None, None, None)

  /** An optional override of an optional property: a given value wins. */
  function Override<T>(given: Option<T>, current: Option<T>): Option<T>
  {
    if given.Some? then given else current
  }

  /**
   * `{ ...o, ...options }`, the last step of every branch of `createObject`
   * (src/lib/objectUtils.ts:85-109): each property the options supply wins.
   */
  function Spread(o: CanvasObject, options: ObjectOptions): CanvasObject
  {
    CanvasObject(
      options.id.GetOr(o.id), options.objType.GetOr(o.objType),
      options.position.GetOr(o.position), options.size.GetOr(o.size),
      options.rotation.GetOr(o.rotation), options.overlapRule.GetOr(o.overlapRule),
      options.zIndex.GetOr(o.zIndex), options.lastModified.GetOr(o.lastModified),
      Override(options.content, o.content), Override(options.fontSize, o.fontSize),
      Override(options.fontFamily, o.fontFamily), Override(options.color, o.color),
      Override(options.shapeType, o.shapeType), Override(options.fill, o.fill),
      Override(options.stroke, o.stroke), Override(options.strokeWidth, o.strokeWidth),
      Override(options.imageUrl, o.imageUrl), Override(options.toolType, o.toolType))
  }

  /**
   * `createObject`: a new object with snapped position and size, rotation 0,
   * rule `displace`, z-index 0 and the defaults of its type; the options are
   * spread last and override any of these. `id` and `now` stand for the
   * `Date.now()` readings.
   */
  function CreateObject(objType: ObjectType, position: Position, size: Size, gridSize: int,
                        options: ObjectOptions, id: string, now: int): (r: CanvasObject)
    requires gridSize != 0
    ensures r.id == options.id.GetOr(id)
    ensures r.objType == options.objType.GetOr(objType)
    ensures options.position.None? ==>
              NearestMultiple(position.x, gridSize, r.position.x) &&
              NearestMultiple(position.y, gridSize, r.position.y)
    ensures options.size.None? ==>
              NearestMultiple(size.width, gridSize, r.size.width) &&
              NearestMultiple(size.height, gridSize, r.size.height)
    ensures options.position.Some? ==> r.position == options.position.value
    ensures options.size.Some? ==> r.size == options.size.value
    ensures r.rotation == options.rotation.GetOr(0)
    ensures r.overlapRule == options.overlapRule.GetOr(Displace)
    ensures r.zIndex == options.zIndex.GetOr(0)
    ensures r.lastModified == options.lastModified.GetOr(now)
    ensures r.content == Override(options.content, if objType == Text then Some("새 텍스트") else None)
    ensures r.fontSize == Override(options.fontSize, if objType == Text then Some(24) else None)
    ensures r.fontFamily == Override(options.fontFamily, if objType == Text then Some("Arial") else None)
    ensures r.color == Override(options.color, if objType == Text then Some("#000000") else None)
    ensures r.shapeType == Override(options.shapeType, if objType == Shape then Some(Rectangle) else None)
    ensures r.fill == Override(options.fill, if objType == Shape then Some("#ffffff") else None)
    ensures r.stroke == Override(options.stroke, if objType == Shape then Some("#000000") else None)
    ensures r.strokeWidth == Override(options.strokeWidth, if objType == Shape then Some(2) else None)
    ensures r.imageUrl == options.imageUrl
    ensures r.toolType == Override(options.toolType, if objType == ToolButton then Some(Pen) else None)
  {
    var baseObject := BareObject(id, objType, SnapPositionToGrid(position, gridSize),
                                 SnapSizeToGrid(size, gridSize), 0, Displace, 0, now);
    match objType
    case Text =>
      Spread(baseObject.(content := Some("새 텍스트"), fontSize := Some(24),
                         fontFamily := Some("Arial"), color := Some("#000000")), options)
    case Shape =>
      Spread(baseObject.(shapeType := Some(Rectangle), fill := Some("#ffffff"),
                         stroke := Some("#000000"), strokeWidth := Some(2)), options)
    case ToolButton =>
      Spread(baseObject.(toolType := Some(Pen)), options)
    case Image =>
      Spread(baseObject, options)
  }

  // ------------------------------------------------------------- editing

  /**
   * One coordinate of `moveObject`: `Math.max(0, Math.min(snapped, limit))`.
   * A snapped value inside `[0, limit]` is kept; one past the limit is pulled
   * back to the limit (or to 0 when the limit is negative); one below 0
   * becomes 0.
   */
  function ClampToCanvas(snapped: int, limit: int): (r: int)
    ensures r >= 0
    ensures limit >= 0 ==> r <= limit
    ensures 0 <= snapped <= limit ==> r == snapped
    ensures snapped > limit ==> r == Max(0, limit)
    ensures snapped < 0 ==> r == 0
  {
    Max(0, Min(snapped, limit))
  }

  /**
   * `moveObject`: the target is snapped and then clamped so that the object
   * starts inside the canvas, at most `canvas - size` from the origin when
   * it fits; nothing but the position and `lastModified` changes.
   */
  function MoveObject(obj: CanvasObject, newPosition: Position, gridSize: int, canvasSize: Size,
                      now: int): (r: CanvasObject)
    requires gridSize != 0
    ensures r == obj.(position := r.position, lastModified := now)
    ensures r.position.x >= 0 && r.position.y >= 0
    ensures canvasSize.width >= obj.size.width ==> r.position.x <= canvasSize.width - obj.size.width
    ensures canvasSize.height >= obj.size.height ==> r.position.y <= canvasSize.height - obj.size.height
    ensures var s := SnapPositionToGrid(newPosition, gridSize);
      && (0 <= s.x <= canvasSize.width - obj.size.width ==> r.position.x == s.x)
      && (0 <= s.y <= canvasSize.height - obj.size.height ==> r.position.y == s.y)
  {
    var snappedPosition := SnapPositionToGrid(newPosition, gridSize);
    var boundedPosition := Position(
      ClampToCanvas(snappedPosition.x, canvasSize.width - obj.size.width),
      ClampToCanvas(snappedPosition.y, canvasSize.height - obj.size.height));
    obj.(position := boundedPosition, lastModified := now)
  }

  /**
   * When the canvas and the object's size are grid-aligned, a moved object
   * is grid-aligned as well (the clamping values are on the grid too).
   */
  lemma MoveObjectStaysOnGrid(obj: CanvasObject, newPosition: Position, gridSize: int,
                              canvasSize: Size, now: int)
    requires gridSize > 0
    requires canvasSize.width % gridSize == 0 && canvasSize.height % gridSize == 0
    requires obj.size.width % gridSize == 0 && obj.size.height % gridSize == 0
    ensures var r := MoveObject(obj, newPosition, gridSize, canvasSize, now);
      r.position.x % gridSize == 0 && r.position.y % gridSize == 0
  {
    var s := SnapPositionToGrid(newPosition, gridSize);
    var limitX, limitY := canvasSize.width - obj.size.width, canvasSize.height - obj.size.height;
    DifferenceOfMultiples(canvasSize.width, obj.size.width, gridSize);
    DifferenceOfMultiples(canvasSize.height, obj.size.height, gridSize);
    OnGridClamp(s.x, limitX, gridSize);
    OnGridClamp(s.y, limitY, gridSize);
  }

  lemma OnGridClamp(snapped: int, limit: int, n: int)
    requires n > 0 && snapped % n == 0 && limit % n == 0
    ensures ClampToCanvas(snapped, limit) % n == 0
  {
    var r := ClampToCanvas(snapped, limit);
    assert r == snapped || r == limit || r == 0;
  }

  lemma DifferenceOfMultiples(a: int, b: int, n: int)
    requires n != 0 && a % n == 0 && b % n == 0
    ensures (a - b) % n == 0
  {
    var i, j := a / n, b / n;
    assert a - b == (i - j) * n;
    MultipleMod(i - j, n);
  }

  /** A 100x100 object moved to (1905, 1075) on a 1920x1080 canvas with grid 20 lands at (1820, 980). */
  lemma MoveObjectClampsAtCorner(obj: CanvasObject, now: int)
    requires obj.size == Size(100, 100)
    ensures MoveObject(obj, Position(1905, 1075), 20, Size(1920, 1080), now).position == Position(1820, 980)
  {
    NearestMultipleUnique(1905, 20, 1900);
    NearestMultipleUnique(1075, 20, 1080);
  }

  /**
   * `resizeObject`: width and height are snapped, limited to the room left
   * between the object's position and the canvas edge, and never below one
   * grid cell; nothing but the size and `lastModified` changes.
   */
  function ResizeObject(obj: CanvasObject, newSize: Size, gridSize: int, canvasSize: Size,
                        now: int): (r: CanvasObject)
    requires gridSize != 0
    ensures r == obj.(size := r.size, lastModified := now)
    ensures r.size.width >= gridSize && r.size.height >= gridSize
    ensures var s := SnapSizeToGrid(newSize, gridSize);
      var roomX, roomY := canvasSize.width - obj.position.x, canvasSize.height - obj.position.y;
      && (gridSize <= s.width <= roomX ==> r.size.width == s.width)
      && (gridSize <= s.height <= roomY ==> r.size.height == s.height)
      && (s.width > roomX ==> r.size.width == Max(gridSize, roomX))
      && (s.height > roomY ==> r.size.height == Max(gridSize, roomY))
      && (s.width < gridSize ==> r.size.width == gridSize)
      && (s.height < gridSize ==> r.size.height == gridSize)
  {
    var snappedSize := SnapSizeToGrid(newSize, gridSize);
    var minSize := Size(gridSize, gridSize);
    var boundedSize := Size(
      Max(minSize.width, Min(snappedSize.width, canvasSize.width - obj.position.x)),
      Max(minSize.height, Min(snappedSize.height, canvasSize.height - obj.position.y)));
    obj.(size := boundedSize, lastModified := now)
  }

  /**
   * `rotateObject`: the rotation becomes `angle % 360` with JavaScript's
   * truncating remainder, so it lies strictly between -360 and 360 and has
   * the sign of `angle`; nothing else but `lastModified` changes.
   */
  function RotateObject(obj: CanvasObject, angle: int, now: int): (r: CanvasObject)
    ensures r == obj.(rotation := r.rotation, lastModified := now)
    ensures -360 < r.rotation < 360
    ensures angle >= 0 ==> r.rotation >= 0
    ensures angle <= 0 ==> r.rotation <= 0
    ensures angle == TruncDiv(angle, 360) * 360 + r.rotation
  {
    obj.(rotation := Rem(angle, 360), lastModified := now)
  }

  /** A negative angle stays negative: -90 degrees is kept as -90, not 270. */
  lemma RotateKeepsNegativeAngle(obj: CanvasObject, now: int)
    ensures RotateObject(obj, -90, now).rotation == -90
    ensures RotateObject(obj, -450, now).rotation == -90
  {
    RemUnique(-90, 360, 0, -90);
    RemUnique(-450, 360, -1, -90);
  }
}
