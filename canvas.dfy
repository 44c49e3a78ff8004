/**
 * The pointer and object-list handlers of the canvas component as
 * transitions on its state fields. The canvas state is a property owned by
 * the parent and replaced through `onStateChange`; here it is the field
 * `state`, replaced wholesale. The pointer position (which the source
 * derives from DOM geometry), new stroke ids and the clock are parameters.
 */
module CanvasComponent {
  import opened Types
  import opened JsMath
  import ObjectUtils
  import EventHandlers

  // ------------------------------------------------------- list edits

  /** `objects.filter(obj => obj.id !== id)`. */
  function RemoveById(objects: seq<CanvasObject>, id: string): (r: seq<CanvasObject>)
    ensures |r| <= |objects|
    ensures forall o :: o in r <==> o in objects && o.id != id
    decreases |objects|
  {
    if objects == [] then []
    else (if objects[0].id == id then [] else [objects[0]]) + RemoveById(objects[1..], id)
  }

  /** Filtering a concatenation filters each part and keeps them in order. */
  lemma {:induction false} RemoveByIdAppend(a: seq<CanvasObject>, b: seq<CanvasObject>, id: string)
    ensures RemoveById(a + b, id) == RemoveById(a, id) + RemoveById(b, id)
    decreases |a|
  {
    if a == [] {
      assert a + b == b;
    } else {
      assert (a + b)[0] == a[0] && (a + b)[1..] == a[1..] + b;
      RemoveByIdAppend(a[1..], b, id);
    }
  }

  /** A list without the id is kept as it is, in its order. */
  lemma {:induction false} RemoveByIdAbsent(objects: seq<CanvasObject>, id: string)
    requires forall i :: 0 <= i < |objects| ==> objects[i].id != id
    ensures RemoveById(objects, id) == objects
    decreases |objects|
  {
    if objects != [] {
      RemoveByIdAbsent(objects[1..], id);
    }
  }

  /** The number of objects with the given id. */
  function CountId(objects: seq<CanvasObject>, id: string): (n: nat)
    ensures n <= |objects|
    ensures n == 0 <==> forall i :: 0 <= i < |objects| ==> objects[i].id != id
    decreases |objects|
  {
    if objects == [] then 0
    else (if objects[0].id == id then 1 else 0) + CountId(objects[1..], id)
  }

  /** The filter drops exactly the objects with the id. */
  lemma {:induction false} RemoveByIdCount(objects: seq<CanvasObject>, id: string)
    ensures |RemoveById(objects, id)| == |objects| - CountId(objects, id)
    ensures CountId(RemoveById(objects, id), id) == 0
    decreases |objects|
  {
    if objects != [] {
      RemoveByIdCount(objects[1..], id);
    }
  }

  /** `objects.map(obj => obj.id === updated.id ? updated : obj)`. */
  function ReplaceById(objects: seq<CanvasObject>, updated: CanvasObject): (r: seq<CanvasObject>)
    ensures |r| == |objects|
    ensures forall i :: 0 <= i < |objects| ==>
              r[i] == if objects[i].id == updated.id then updated else objects[i]
    decreases |objects|
  {
    if objects == [] then []
    else [if objects[0].id == updated.id then updated else objects[0]] + ReplaceById(objects[1..], updated)
  }

  /**
   * Replacing keeps every other id's objects, puts the new object in each
   * slot of its id, and changes nothing when the id is absent.
   */
  lemma ReplaceByIdEffect(objects: seq<CanvasObject>, updated: CanvasObject)
    ensures RemoveById(ReplaceById(objects, updated), updated.id) == RemoveById(objects, updated.id)
    ensures CountId(ReplaceById(objects, updated), updated.id) == CountId(objects, updated.id)
    ensures CountId(objects, updated.id) == 0 ==> ReplaceById(objects, updated) == objects
  {
    ReplaceByIdFilters(objects, updated);
  }

  lemma {:induction false} ReplaceByIdFilters(objects: seq<CanvasObject>, updated: CanvasObject)
    ensures RemoveById(ReplaceById(objects, updated), updated.id) == RemoveById(objects, updated.id)
    ensures CountId(ReplaceById(objects, updated), updated.id) == CountId(objects, updated.id)
    decreases |objects|
  {
    if objects != [] {
      ReplaceByIdFilters(objects[1..], updated);
      assert ReplaceById(objects, updated)[1..] == ReplaceById(objects[1..], updated);
    }
  }

  /**
   * The `find` of `handlePointerDown`: the first object, in list order,
   * whose closed box contains the point, or none.
   */
  function FindClicked(objects: seq<CanvasObject>, point: Position): (r: Option<nat>)
    ensures r.Some? ==> r.value < |objects| && ObjectUtils.Contains(objects[r.value], point)
    ensures r.Some? ==> forall j :: 0 <= j < r.value ==> !ObjectUtils.Contains(objects[j], point)
    ensures r.None? ==> forall j :: 0 <= j < |objects| ==> !ObjectUtils.Contains(objects[j], point)
    decreases |objects|
  {
    if objects == [] then None
    else if ObjectUtils.Contains(objects[0], point) then Some(0)
    else
      match FindClicked(objects[1..], point)
      case None => None
      case Some(k) => Some(k + 1)
  }

  /** Any object containing the point precedes or is the one found. */
  lemma FindClickedFirst(objects: seq<CanvasObject>, point: Position, i: nat)
    requires i < |objects| && ObjectUtils.Contains(objects[i], point)
    ensures FindClicked(objects, point).Some? && FindClicked(objects, point).value <= i
  {
  }

  /**
   * The dragged object after a drag step: `selected`, moved by the pointer's
   * offset from `start`, snapped and kept on the canvas
   * (src/components/Canvas.tsx:257-269).
   */
  function DragMoved(state: CanvasState, selected: CanvasObject, start: Position, point: Position,
                     now: int): CanvasObject
    requires state.canvas.gridSize != 0
  {
    ObjectUtils.MoveObject(selected,
      Position(selected.position.x + (point.x - start.x), selected.position.y + (point.y - start.y)),
      state.canvas.gridSize, Size(state.canvas.width, state.canvas.height), now)
  }

  /**
   * A drag step: the other objects after overlap resolution, then the moved
   * object last (src/components/Canvas.tsx:271-280).
   */
  function DragResult(state: CanvasState, selected: CanvasObject, moved: CanvasObject): seq<CanvasObject>
  {
    ObjectUtils.OverlapResolved(moved, RemoveById(state.objects, selected.id), state.canvas.gridSize) + [moved]
  }

  /**
   * With the dragged object's id held by exactly one object, a drag step
   * keeps the number of objects, keeps every other object's id in order,
   * and the moved object ends up last.
   */
  lemma DragKeepsCount(state: CanvasState, selected: CanvasObject, moved: CanvasObject)
    requires CountId(state.objects, selected.id) == 1
    ensures |DragResult(state, selected, moved)| == |state.objects|
    ensures DragResult(state, selected, moved)[|state.objects| - 1] == moved
    ensures forall i :: 0 <= i < |state.objects| - 1 ==>
              DragResult(state, selected, moved)[i].id == RemoveById(state.objects, selected.id)[i].id
  {
    RemoveByIdCount(state.objects, selected.id);
  }

  /** A fresh array holding the list, as the source's array copies are. */
  method ArrayOf(s: seq<CanvasObject>) returns (a: array<CanvasObject>)
    ensures fresh(a) && a[..] == s
  {
    a := new CanvasObject[|s|](i requires 0 <= i < |s| => s[i]);
  }

  /**
   * The object list a drag step produces: the selected object is moved by
   * the pointer's offset from `start`, the other objects are copied into a
   * fresh array and overlap-resolved against it in place, and the moved
   * object is put last.
   */
  method DragStep(state: CanvasState, selected: CanvasObject, start: Position, point: Position, now: int)
    returns (objects: seq<CanvasObject>)
    requires state.canvas.gridSize != 0
    ensures objects == DragResult(state, selected, DragMoved(state, selected, start, point, now))
    ensures |objects| > 0 && objects[|objects| - 1] == DragMoved(state, selected, start, point, now)
  {
    var updatedObject := DragMoved(state, selected, start, point, now);
    var existing := ArrayOf(RemoveById(state.objects, selected.id));
    var updatedObjects := ObjectUtils.HandleObjectOverlap(updatedObject, existing, state.canvas.gridSize);
    objects := updatedObjects[..] + [updatedObject];
  }

  // ----------------------------------------------------------- component

  const InitialPenPosition := Position(50, 50)
  const InitialEraserPosition := Position(50, 100)

  class Canvas {
    var state: CanvasState
    var isDrawing: bool
    var currentStroke: Option<Stroke>
    var selectedTool: ToolType
    var isDragging: bool
    var dragStart: Option<Position>
    var selectedObject: Option<CanvasObject>
    var toolButtonPositions: map<ToolType, Position>

    constructor (initial: CanvasState)
      ensures state == initial && !isDrawing && currentStroke == None && selectedTool == Pen
      ensures !isDragging && dragStart == None && selectedObject == None
      ensures toolButtonPositions == map[Pen := InitialPenPosition, Eraser := InitialEraserPosition]
    {
      state := initial;
      isDrawing := false;
      currentStroke := None;
      selectedTool := Pen;
      isDragging := false;
      dragStart := None;
      selectedObject := None;
      toolButtonPositions := map[Pen := InitialPenPosition, Eraser := InitialEraserPosition];
    }

    /**
     * `handlePointerDown`: on an object, select it and start dragging from
     * the point, with no stroke started; on empty space, clear the selection
     * and begin a stroke holding only the point with the selected tool.
     */
    method PointerDown(point: Position, strokeId: string)
      modifies this
      ensures var clicked := FindClicked(old(state.objects), point);
        && (clicked.Some? ==>
              && selectedObject == Some(old(state.objects)[clicked.value])
              && isDragging && dragStart == Some(point)
              && isDrawing == old(isDrawing) && currentStroke == old(currentStroke))
        && (clicked.None? ==>
              && selectedObject == None && isDrawing
              && currentStroke == Some(EventHandlers.CreateStroke(strokeId, [point], selectedTool, None, None))
              && isDragging == old(isDragging) && dragStart == old(dragStart))
      ensures state == old(state) && selectedTool == old(selectedTool)
      ensures toolButtonPositions == old(toolButtonPositions)
    {
      var clicked := FindClicked(state.objects, point);
      if clicked.Some? {
        selectedObject := Some(state.objects[clicked.value]);
        isDragging := true;
        dragStart := Some(point);
        return;
      }
      selectedObject := None;
      // Both tools of the type draw.
      isDrawing := true;
      currentStroke := Some(EventHandlers.CreateStroke(strokeId, [point], selectedTool, None, None));
    }

    /**
     * `handlePointerMove`. While dragging, the object selected at pointer
     * down is moved by the pointer's offset from `dragStart`, the other
     * objects are overlap-resolved against it, and it is placed last; then
     * `dragStart` becomes the point. Otherwise, while drawing, the point is
     * appended to the current stroke.
     */
    method PointerMove(point: Position, now: int)
      requires isDragging && selectedObject.Some? && dragStart.Some? ==> state.canvas.gridSize != 0
      modifies this
      ensures var dragging := old(isDragging) && old(selectedObject).Some? && old(dragStart).Some?;
        && (dragging ==>
              && var moved := DragMoved(old(state), old(selectedObject).value, old(dragStart).value, point, now);
              && state == old(state).(objects := DragResult(old(state), old(selectedObject).value, moved))
              && dragStart == Some(point) && currentStroke == old(currentStroke))
        && (!dragging && old(isDrawing) && old(currentStroke).Some? ==>
              && currentStroke == Some(old(currentStroke).value.(points := old(currentStroke).value.points + [point]))
              && state == old(state) && dragStart == old(dragStart))
        && (!dragging && !(old(isDrawing) && old(currentStroke).Some?) ==>
              state == old(state) && dragStart == old(dragStart) && currentStroke == old(currentStroke))
      ensures isDrawing == old(isDrawing) && isDragging == old(isDragging)
      ensures selectedObject == old(selectedObject) && selectedTool == old(selectedTool)
      ensures toolButtonPositions == old(toolButtonPositions)
    {
      if isDragging && selectedObject.Some? && dragStart.Some? {
        var objects := DragStep(state, selectedObject.value, dragStart.value, point, now);
        state := state.(objects := objects);
        dragStart := Some(point);
      } else if isDrawing && currentStroke.Some? {
        currentStroke := Some(currentStroke.value.(points := currentStroke.value.points + [point]));
      }
    }

    /**
     * `handlePointerUp`: a stroke being drawn is appended after the existing
     * strokes and drawing stops; a drag ends.
     */
    method PointerUp()
      modifies this
      ensures old(isDrawing) && old(currentStroke).Some? ==>
                && state == old(state).(strokes := old(state).strokes + [old(currentStroke).value])
                && !isDrawing && currentStroke == None
      ensures !(old(isDrawing) && old(currentStroke).Some?) ==>
                state == old(state) && isDrawing == old(isDrawing) && currentStroke == old(currentStroke)
      ensures !isDragging
      ensures old(isDragging) ==> dragStart == None
      ensures !old(isDragging) ==> dragStart == old(dragStart)
      ensures selectedObject == old(selectedObject) && selectedTool == old(selectedTool)
      ensures toolButtonPositions == old(toolButtonPositions)
    {
      if isDrawing && currentStroke.Some? {
        isDrawing := false;
        state := state.(strokes := state.strokes + [currentStroke.value]);
        currentStroke := None;
      }
      if isDragging {
        isDragging := false;
        dragStart := None;
      }
    }

    /** `handleObjectDelete`: the objects with the id go, and the selection is cleared. */
    method ObjectDelete(objectId: string)
      modifies this
      ensures state == old(state).(objects := RemoveById(old(state).objects, objectId))
      ensures selectedObject == None
      ensures isDrawing == old(isDrawing) && currentStroke == old(currentStroke)
      ensures isDragging == old(isDragging) && dragStart == old(dragStart)
      ensures selectedTool == old(selectedTool) && toolButtonPositions == old(toolButtonPositions)
    {
      state := state.(objects := RemoveById(state.objects, objectId));
      selectedObject := None;
    }

    /** `handleObjectUpdate`: the objects with the id are replaced, and it becomes the selection. */
    method ObjectUpdate(updatedObject: CanvasObject)
      modifies this
      ensures state == old(state).(objects := ReplaceById(old(state).objects, updatedObject))
      ensures selectedObject == Some(updatedObject)
      ensures isDrawing == old(isDrawing) && currentStroke == old(currentStroke)
      ensures isDragging == old(isDragging) && dragStart == old(dragStart)
      ensures selectedTool == old(selectedTool) && toolButtonPositions == old(toolButtonPositions)
    {
      state := state.(objects := ReplaceById(state.objects, updatedObject));
      selectedObject := Some(updatedObject);
    }

    /** `handleToolSelect`. */
    method ToolSelect(toolType: ToolType)
      modifies this
      ensures selectedTool == toolType
      ensures state == old(state) && isDrawing == old(isDrawing) && currentStroke == old(currentStroke)
      ensures isDragging == old(isDragging) && dragStart == old(dragStart)
      ensures selectedObject == old(selectedObject) && toolButtonPositions == old(toolButtonPositions)
    {
      selectedTool := toolType;
    }

    /**
     * `handleToolButtonPositionChange`: the button's position, clamped to
     * the canvas rectangle `[0, width] x [0, height]`; the other button keeps
     * its position.
     */
    method ToolButtonPositionChange(toolType: ToolType, position: Position)
      modifies this
      ensures toolButtonPositions == old(toolButtonPositions)[toolType := BoundedPosition(position, old(state).canvas)]
      ensures state == old(state) && isDrawing == old(isDrawing) && currentStroke == old(currentStroke)
      ensures isDragging == old(isDragging) && dragStart == old(dragStart)
      ensures selectedObject == old(selectedObject) && selectedTool == old(selectedTool)
    {
      toolButtonPositions := toolButtonPositions[toolType := BoundedPosition(position, state.canvas)];
    }
  }

  /**
   * The bounded position of a tool button: within the canvas rectangle when
   * the canvas has a non-negative size, and the position itself when it
   * already lies there.
   */
  function BoundedPosition(position: Position, canvas: CanvasConfig): (r: Position)
    ensures r.x >= 0 && r.y >= 0
    ensures canvas.width >= 0 ==> r.x <= canvas.width
    ensures canvas.height >= 0 ==> r.y <= canvas.height
    ensures 0 <= position.x <= canvas.width ==> r.x == position.x
    ensures 0 <= position.y <= canvas.height ==> r.y == position.y
    ensures position.x < 0 ==> r.x == 0
    ensures position.y < 0 ==> r.y == 0
  {
    Position(Max(0, Min(position.x, canvas.width)), Max(0, Min(position.y, canvas.height)))
  }
}
