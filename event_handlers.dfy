/**
 * The pure helpers of the event-handling module: the copying overlap
 * resolver (a second resolver that disagrees with the one of the object
 * module), and the factories for strokes and tool buttons. Ids, which the
 * source takes from `Date.now()`, are parameters.
 */
module EventHandlers {
  import opened Types
  import ObjectUtils

  /**
   * The filter of `handleObjectOverlap`: the objects whose closed box meets
   * `newObject`'s, in list order. The source first skips objects whose rule
   * is `'overlap'`, a value outside the declared `'allow' | 'displace'`, so
   * that test never excludes anything and is left out; neither rule is
   * consulted. The box test is written out in the source with the existing
   * object first, which is exactly `checkCollision(obj, newObject)`.
   */
  function Overlapping(objects: seq<CanvasObject>, newObject: CanvasObject): (r: seq<CanvasObject>)
    ensures |r| <= |objects|
    ensures forall o :: o in r <==> o in objects && ObjectUtils.CheckCollision(o, newObject)
  {
    if objects == [] then []
    else if ObjectUtils.CheckCollision(objects[0], newObject)
    then [objects[0]] + Overlapping(objects[1..], newObject)
    else Overlapping(objects[1..], newObject)
  }

  /**
   * The filter keeps list order: filtering a concatenation filters each
   * part and keeps the parts in order.
   */
  lemma {:induction false} OverlappingAppend(a: seq<CanvasObject>, b: seq<CanvasObject>,
                                            newObject: CanvasObject)
    ensures Overlapping(a + b, newObject) == Overlapping(a, newObject) + Overlapping(b, newObject)
    decreases |a|
  {
    if a == [] {
      assert a + b == b;
    } else {
      assert (a + b)[0] == a[0] && (a + b)[1..] == a[1..] + b;
      OverlappingAppend(a[1..], b, newObject);
    }
  }

  /** The object moved 20 up, every other property kept. */
  function ShiftedUp20(obj: CanvasObject): (r: CanvasObject)
    ensures r.position.x == obj.position.x && r.position.y == obj.position.y - 20
    ensures r.(position := obj.position) == obj
  {
    obj.(position := Position(obj.position.x, obj.position.y - 20))
  }

  function ShiftAll(objects: seq<CanvasObject>): (r: seq<CanvasObject>)
    ensures |r| == |objects|
    ensures forall i :: 0 <= i < |objects| ==> r[i] == ShiftedUp20(objects[i])
  {
    if objects == [] then [] else [ShiftedUp20(objects[0])] + ShiftAll(objects[1..])
  }

  /**
   * `handleObjectOverlap` of the event module: with nothing in the way, the
   * objects followed by `newObject`; otherwise only the overlapping objects,
   * each moved 20 up, followed by `newObject`; the objects that do not
   * overlap are dropped.
   */
  function HandleObjectOverlap(objects: seq<CanvasObject>, newObject: CanvasObject)
    : (r: seq<CanvasObject>)
    ensures |r| > 0 && r[|r| - 1] == newObject
    ensures Overlapping(objects, newObject) == [] ==> r == objects + [newObject]
    ensures Overlapping(objects, newObject) != [] ==>
              r == ShiftAll(Overlapping(objects, newObject)) + [newObject]
  {
    var overlappingObjects := Overlapping(objects, newObject);
    if |overlappingObjects| == 0 then objects + [newObject]
    else
      var displacedObjects := ShiftAll(overlappingObjects);
      displacedObjects + [newObject]
  }

  /**
   * When something is in the way, every object of the result but the last
   * is an existing object that collides with `newObject`, moved exactly 20
   * up; every colliding existing object is in the result, moved; and the
   * result is shorter than `objects + [newObject]` whenever some object did
   * not collide.
   */
  lemma OverlapKeepsOnlyColliding(objects: seq<CanvasObject>, newObject: CanvasObject)
    requires Overlapping(objects, newObject) != []
    ensures var r := HandleObjectOverlap(objects, newObject);
      && (forall i :: 0 <= i < |r| - 1 ==>
            exists o :: o in objects && ObjectUtils.CheckCollision(o, newObject) && r[i] == ShiftedUp20(o))
      && (forall o :: o in objects && ObjectUtils.CheckCollision(o, newObject) ==> ShiftedUp20(o) in r)
      && ((exists o :: o in objects && !ObjectUtils.CheckCollision(o, newObject)) ==> |r| <= |objects|)
  {
    var ov := Overlapping(objects, newObject);
    var r := HandleObjectOverlap(objects, newObject);
    assert r[..|r| - 1] == ShiftAll(ov);
    forall i | 0 <= i < |r| - 1
      ensures exists o :: o in objects && ObjectUtils.CheckCollision(o, newObject) && r[i] == ShiftedUp20(o)
    {
      assert ov[i] in ov;
    }
    forall o | o in objects && ObjectUtils.CheckCollision(o, newObject)
      ensures ShiftedUp20(o) in r
    {
      var k :| 0 <= k < |ov| && ov[k] == o;
      assert r[k] == ShiftedUp20(o);
    }
    if exists o :: o in objects && !ObjectUtils.CheckCollision(o, newObject) {
      var o :| o in objects && !ObjectUtils.CheckCollision(o, newObject);
      FilterDropsOne(objects, newObject, o);
    }
  }

  /** An element the filter rejects makes the filtered list strictly shorter. */
  lemma {:induction false} FilterDropsOne(objects: seq<CanvasObject>, newObject: CanvasObject,
                                          o: CanvasObject)
    requires o in objects && !ObjectUtils.CheckCollision(o, newObject)
    ensures |Overlapping(objects, newObject)| < |objects|
    decreases |objects|
  {
    if objects[0] != o {
      FilterDropsOne(objects[1..], newObject, o);
    }
  }

  /**
   * The incoming object's overlap rule is never consulted: changing it
   * changes nothing but the last element.
   */
  lemma {:induction false} OverlapIgnoresNewRule(objects: seq<CanvasObject>, newObject: CanvasObject,
                                                rule: OverlapRule)
    ensures Overlapping(objects, newObject) == Overlapping(objects, newObject.(overlapRule := rule))
    decreases |objects|
  {
    if objects != [] {
      OverlapIgnoresNewRule(objects[1..], newObject, rule);
    }
  }

  /**
   * An existing object collides with `newObject` in the sense of the object
   * module exactly when it is kept by this filter, although the argument
   * order of the box test is reversed.
   */
  lemma {:induction false} OverlappingAgreesWithCheckCollision(objects: seq<CanvasObject>,
                                                              newObject: CanvasObject)
    ensures forall o :: o in Overlapping(objects, newObject) <==>
              o in objects && ObjectUtils.CheckCollision(newObject, o)
  {
    forall o | o in objects
      ensures ObjectUtils.CheckCollision(newObject, o) == ObjectUtils.CheckCollision(o, newObject)
    {
      ObjectUtils.CollisionSymmetric(newObject, o);
    }
  }

  /** `createStroke`: absent color and width default to black and 2. */
  function CreateStroke(id: string, points: seq<Position>, tool: ToolType,
                        color: Option<string>, width: Option<int>): (r: Stroke)
    ensures r.id == id && r.points == points && r.tool == tool
    ensures r.color == color.GetOr("#000000")
    ensures r.width == width.GetOr(2)
  {
    Stroke(id, tool, points, color.GetOr("#000000"), width.GetOr(2))
  }

  /**
   * What `createToolButton` returns. `eventHandlers.ts` imports the type
   * `ToolButtonObject` from `types.ts`, which does not declare it; unlike a
   * canvas object it carries an icon and no `lastModified`.
   */
  datatype ToolButtonObject = ToolButtonObject(
    id: string,
    objType: ObjectType,
    position: Position,
    size: Size,
    rotation: int,
    overlapRule: OverlapRule,
    zIndex: int,
    toolType: ToolType,
    icon: string)

  /**
   * `createToolButton`: a 50x50 tool button at the given position, never
   * displaced (rule `allow`), above every other object (z-index 1000), with
   * the pencil icon for the pen and the broom for the eraser.
   */
  function CreateToolButton(id: string, position: Position, toolType: ToolType): (r: ToolButtonObject)
    ensures r.id == id && r.objType == ToolButton && r.position == position
    ensures r.size == Size(50, 50) && r.rotation == 0
    ensures r.overlapRule == Allow && r.zIndex == 1000 && r.toolType == toolType
    ensures r.icon == if toolType == Pen then "✏️" else "🧹"
  {
    ToolButtonObject(id, ToolButton, position, Size(50, 50), 0, Allow, 1000, toolType,
                     if toolType == Pen then "✏️" else "🧹")
  }
}
