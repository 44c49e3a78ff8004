/**
 * The whiteboard's data model: positions, sizes, canvas objects, strokes and
 * the canvas state that the editor, the persistence layer and the file
 * synchronisation pass around.
 *
 * JavaScript numbers are modelled as unbounded integers; optional properties
 * (`content?: string`, ...) are `Option` fields, `None` standing for a
 * property that is absent from the object.
 */
module Types {

  datatype Option<T> = None | Some(value: T)
  {
    /** The value, or `default` when absent (the `??` operator). */
    function GetOr(default: T): T
    {
      match this
      case Some(v) => v
      case None => default
    }
  }

  /** A value, or the message of the error the source throws instead. */
  datatype Result<T> = Ok(value: T) | Err(message: string)

  datatype Position = Position(x: int, y: int)

  datatype Size = Size(width: int, height: int)

  datatype CanvasConfig = CanvasConfig(width: int, height: int, gridSize: int)

  datatype ToolType = Pen | Eraser

  datatype ObjectType = Text | Image | Shape | ToolButton

  datatype OverlapRule = Allow | Displace

  datatype ShapeType = Rectangle | Circle | Triangle

  /** A freehand stroke. It has no `lastModified` property. */
  datatype Stroke = Stroke(
    id: string,
    tool: ToolType,
    points: seq<Position>,
    color: string,
    width: int)

  /**
   * A placed object. The variant-specific properties of every object type are
   * optional fields of the one record, as in the source's interface.
   */
  datatype CanvasObject = CanvasObject(
    id: string,
    objType: ObjectType,
    position: Position,
    size: Size,
    rotation: int,
    overlapRule: OverlapRule,
    zIndex: int,
    lastModified: int,
    content: Option<string>,
    fontSize: Option<int>,
    fontFamily: Option<string>,
    color: Option<string>,
    shapeType: Option<ShapeType>,
    fill: Option<string>,
    stroke: Option<string>,
    strokeWidth: Option<int>,
    imageUrl: Option<string>,
    toolType: Option<ToolType>)

  /** The whole document; `lastModified` is an ISO timestamp string. */
  datatype CanvasState = CanvasState(
    canvas: CanvasConfig,
    objects: seq<CanvasObject>,
    strokes: seq<Stroke>,
    toolButtons: seq<CanvasObject>,
    lastModified: string)

  /** A base object with every optional property absent. */
  function BareObject(id: string, objType: ObjectType, position: Position, size: Size,
                      rotation: int, overlapRule: OverlapRule, zIndex: int,
                      lastModified: int): CanvasObject
  {
    CanvasObject(id, objType, position, size, rotation, overlapRule, zIndex, lastModified,
                 None, None, None, None, None, None, None, None, None, None)
  }
}
