/**
 * The editor page's own object-list edits: its default document, adding an
 * object of a given type in the middle of the canvas, and replacing an
 * edited object. The page's canvas state is the field `canvasState`; the
 * ids and clock readings (`Date.now()`, `new Date().toISOString()`) are
 * parameters.
 */
module AdminPage {
  import opened Types
  import ObjectUtils
  import CanvasComponent

  /** The document the page starts with: a 1920x1080 canvas on a 20 grid, with nothing on it. */
  function DefaultCanvasState(now: string): (s: CanvasState)
    ensures s.canvas.width == 1920 && s.canvas.height == 1080 && s.canvas.gridSize == 20
    ensures s.objects == [] && s.strokes == [] && s.toolButtons == []
    ensures s.lastModified == now
  {
    CanvasState(CanvasConfig(1920, 1080, 20), [], [], [], now)
  }

  /**
   * The object `handleObjectAdd` appends: 100x100 at the canvas centre,
   * unrotated, displaceable, with the object count as its z-index; a text
   * gets the text defaults and a shape the shape defaults, any other type
   * nothing more. The position is not snapped and no overlap is resolved.
   */
  function AddedObject(objType: ObjectType, canvas: CanvasConfig, count: int, id: string, now: int)
    : (o: CanvasObject)
    requires canvas.width % 2 == 0 && canvas.height % 2 == 0
    ensures o.id == id && o.objType == objType && o.lastModified == now
    ensures 2 * o.position.x == canvas.width && 2 * o.position.y == canvas.height
    ensures o.size == Size(100, 100) && o.rotation == 0 && o.overlapRule == Displace
    ensures o.zIndex == count
    ensures o.content == (if objType == Text then Some("새 텍스트") else None)
    ensures o.fontSize == (if objType == Text then Some(24) else None)
    ensures o.fontFamily == (if objType == Text then Some("Arial") else None)
    ensures o.color == (if objType == Text then Some("#000000") else None)
    ensures o.shapeType == (if objType == Shape then Some(Rectangle) else None)
    ensures o.fill == (if objType == Shape then Some("#ffffff") else None)
    ensures o.stroke == (if objType == Shape then Some("#000000") else None)
    ensures o.strokeWidth == (if objType == Shape then Some(2) else None)
    ensures o.imageUrl.None? && o.toolType.None?
  {
    var base := BareObject(id, objType, Position(canvas.width / 2, canvas.height / 2), Size(100, 100),
                           0, Displace, count, now);
    if objType == Text then
      base.(content := Some("새 텍스트"), fontSize := Some(24), fontFamily := Some("Arial"),
            color := Some("#000000"))
    else if objType == Shape then
      base.(shapeType := Some(Rectangle), fill := Some("#ffffff"), stroke := Some("#000000"),
            strokeWidth := Some(2))
    else base
  }

  /**
   * On the default canvas the page's added object sits where the object
   * factory would put the same 100x100 object at the centre: 960 and 540
   * are already on the 20 grid. The two disagree in the z-index (the factory
   * uses 0) and, for a tool button, in the tool (the factory defaults to the
   * pen, the page sets none).
   */
  lemma AddedObjectMatchesFactory(objType: ObjectType, count: int, id: string, now: int)
    ensures var canvas := DefaultCanvasState("").canvas;
      var added := AddedObject(objType, canvas, count, id, now);
      var made := ObjectUtils.CreateObject(objType, Position(960, 540), Size(100, 100), 20,
                                           ObjectUtils.NoOptions, id, now);
      && added.position == made.position && added.size == made.size
      && added == made.(zIndex := count, toolType := None)
      && (objType == ToolButton ==> made.toolType == Some(Pen) && added.toolType == None)
  {
    ObjectUtils.NearestMultipleUnique(960, 20, 960);
    ObjectUtils.NearestMultipleUnique(540, 20, 540);
    ObjectUtils.NearestMultipleUnique(100, 20, 100);
  }

  class Admin {
    var canvasState: CanvasState

    /** The page opens on the default document. */
    constructor (now: string)
      ensures canvasState == DefaultCanvasState(now)
    {
      canvasState := DefaultCanvasState(now);
    }

    /**
     * `handleObjectAdd`: the base object is built, the type's extra
     * properties are assigned onto it, and it is appended after the
     * existing objects, which stay as they were and in their order.
     */
    method ObjectAdd(objType: ObjectType, id: string, now: int)
      requires canvasState.canvas.width % 2 == 0 && canvasState.canvas.height % 2 == 0
      modifies this
      ensures canvasState == old(canvasState).(objects := old(canvasState.objects) +
                [AddedObject(objType, old(canvasState.canvas), |old(canvasState.objects)|, id, now)])
      ensures |canvasState.objects| == |old(canvasState.objects)| + 1
      ensures canvasState.objects[..|old(canvasState.objects)|] == old(canvasState.objects)
      ensures canvasState.objects[|old(canvasState.objects)|].zIndex == |old(canvasState.objects)|
    {
      var canvas := canvasState.canvas;
      var newObject := BareObject(id, objType, Position(canvas.width / 2, canvas.height / 2),
                                  Size(100, 100), 0, Displace, |canvasState.objects|, now);
      if objType == Text {
        newObject := newObject.(content := Some("새 텍스트"), fontSize := Some(24),
                                fontFamily := Some("Arial"), color := Some("#000000"));
      } else if objType == Shape {
        newObject := newObject.(shapeType := Some(Rectangle), fill := Some("#ffffff"),
                                stroke := Some("#000000"), strokeWidth := Some(2));
      }
      var updatedObjects := canvasState.objects + [newObject];
      canvasState := canvasState.(objects := updatedObjects);
    }

    /**
     * `handleObjectUpdate`: the object with the edited object's id is
     * replaced, the list keeps its length and the others, and the document
     * timestamp becomes `now`.
     */
    method ObjectUpdate(updatedObject: CanvasObject, now: string)
      modifies this
      ensures canvasState == old(canvasState).(
                objects := CanvasComponent.ReplaceById(old(canvasState.objects), updatedObject),
                lastModified := now)
      ensures |canvasState.objects| == |old(canvasState.objects)|
      ensures CanvasComponent.RemoveById(canvasState.objects, updatedObject.id)
              == CanvasComponent.RemoveById(old(canvasState.objects), updatedObject.id)
    {
      CanvasComponent.ReplaceByIdEffect(canvasState.objects, updatedObject);
      canvasState := canvasState.(
        objects := CanvasComponent.ReplaceById(canvasState.objects, updatedObject),
        lastModified := now);
    }
  }
}
