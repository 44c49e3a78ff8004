# Whiteboard placement and synchronisation rules, in Dafny

This project models the logic of a desktop whiteboard editor. The editor
places text, shape, image and tool-button objects on a grid. It draws
freehand strokes, keeps a local history and a backup, and synchronises an
editor window with a viewer through a watched file. The model covers:

- **Grid and geometry**: snapping, the closed-box collision test, and the
  canvas clamping of move and resize. Rotation uses JavaScript's truncating
  remainder.
- **Two overlap resolvers**, which disagree:
  - the object module's resolver is a one-pass, in-place push-up by one
    grid cell;
  - the event module's resolver copies. When nothing collides with the new
    object, it keeps every object and appends the new one. Otherwise it
    keeps only the colliding objects, moves them 20 up, and appends the new
    object.
- **Object factories**: `createObject`, `createStroke`, `createToolButton`
  and the editor page's "add object".
- **Synchronisation**:
  - structural-equality conflict detection;
  - the three resolution strategies;
  - the per-id last-writer-wins merge. The merge is modelled as written,
    with insertion-ordered maps. For lists whose ids are distinct on each
    side, it is proved equal to an independent reference definition. For
    any lists, every id is proved to appear exactly once.
- **Persistence bookkeeping** over an abstract key-value store: config
  overlay, the bounded history, backup gating, save and load, and the file
  watcher's mtime guard.
- **State machines** of three components: the conflict dialog of the sync
  manager, the canvas pointer and list handlers, and the editor page's
  object edits.

Coordinates and sizes are unbounded integers. `Math.round(v / g)` is
written out as a floor division. JavaScript's `%` is written out as a
truncating remainder, because Dafny's `%` is Euclidean. Clock readings
(`Date.now()`, `new Date().toISOString()`) and the ids made from them are
parameters. `JSON.stringify(a) === JSON.stringify(b)` is modelled as
equality of values. A stored JSON text is modelled by the value it parses
to. Text that does not parse is `Unparsable`. Text that parses to a value
of no known shape that is also not a list (`null`, a number, a string) is
`OtherValue`.

Modules follow the source files:

| module | source file |
|---|---|
| `Types` | `src/types/types.ts` |
| `JsMath` | the JavaScript number operations the other modules use |
| `ObjectUtils` | `src/lib/objectUtils.ts` |
| `DrawUtils` | `src/lib/drawUtils.ts` (`snapToGrid`, `calculateScale`) |
| `EventHandlers` | `src/lib/eventHandlers.ts` (`handleObjectOverlap`, `createStroke`, `createToolButton`) |
| `SyncUtils` | `src/lib/syncUtils.ts` |
| `Storage` | `src/lib/storage.ts` |
| `SyncManager` | `src/components/SyncManager.tsx` |
| `CanvasComponent` | `src/components/Canvas.tsx` |
| `AdminPage` | `src/pages/AdminPage.tsx` |

## Model

| member | source | states |
|---|---|---|
| JsMath.Round | src/lib/objectUtils.ts:5 | `Math.round(num/den)`: the integer k with k − 1/2 ≤ num/den < k + 1/2, so halves round toward +∞ |
| JsMath.Rem | src/lib/objectUtils.ts:165 | JavaScript `%`: `a = trunc(a/n)·n + r`, with \|r\| < \|n\| and r carrying the sign of the dividend |
| JsMath.RemUnique | src/lib/objectUtils.ts:165 | those conditions determine the remainder uniquely |
| JsMath.Max | src/lib/objectUtils.ts:124 | `Math.max` is an upper bound equal to one argument |
| JsMath.Min | src/lib/objectUtils.ts:124 | `Math.min` is a lower bound equal to one argument |
| ObjectUtils.SnapToGrid | src/lib/objectUtils.ts:4-6 | the result is a multiple of the grid size within half a cell of the value; a half-way value goes to the larger quotient |
| ObjectUtils.NearestMultipleUnique | src/lib/objectUtils.ts:4-6 | no other value has that property, so snapping is the nearest-multiple function |
| ObjectUtils.SnapToGridIdempotent | src/lib/objectUtils.ts:4-6 | snapping a snapped value returns it unchanged |
| ObjectUtils.SnapPositionToGrid | src/lib/objectUtils.ts:9-14 | each coordinate is its nearest grid multiple |
| ObjectUtils.SnapSizeToGrid | src/lib/objectUtils.ts:17-22 | width and height are each their nearest grid multiple |
| ObjectUtils.CheckCollision | src/lib/objectUtils.ts:25-37 | closed-interval box test: both the x ranges and the y ranges meet; a box of non-negative size whose corner lies in the other collides; symmetric and equal to a shared point by the two lemmas below |
| ObjectUtils.CollisionIsCommonPoint | src/lib/objectUtils.ts:25-37 | for boxes of non-negative size, a collision holds iff the closed boxes share a point, so touching edges collide |
| ObjectUtils.CollisionSymmetric | src/lib/objectUtils.ts:25-37 | the collision test is symmetric |
| ObjectUtils.OverlapResolved | src/lib/objectUtils.ts:45-57 | same length and slots; each object is shifted up by one cell exactly when the new object displaces it, judged once against its old position |
| ObjectUtils.OverlapResolvedAt | src/lib/objectUtils.ts:46-55 | per slot: id and x are kept; y drops by exactly gridSize iff other id, collision, and both rules `displace`; an object not displaced is unchanged |
| ObjectUtils.AllowMovesNothing | src/lib/objectUtils.ts:51 | a new object with rule `allow` moves nothing |
| ObjectUtils.HandleObjectOverlap | src/lib/objectUtils.ts:40-58 | returns a fresh array equal to the resolved list; the caller's array shows the same displacement, since the objects are shared |
| ObjectUtils.CreateObject | src/lib/objectUtils.ts:61-111 | snapped position and size, rotation 0, rule `displace`, z-index 0 and the per-type defaults (text, shape, tool button), every option overriding |
| ObjectUtils.ClampToCanvas | src/lib/objectUtils.ts:124-125 | a coordinate is clamped into [0, limit]; in-range values are kept; values past the limit go to max(0, limit) |
| ObjectUtils.MoveObject | src/lib/objectUtils.ts:114-133 | x, y ≥ 0; within canvas − size when the object fits; a snapped in-range target is kept; only position and lastModified change |
| ObjectUtils.MoveObjectStaysOnGrid | src/lib/objectUtils.ts:120-126 | with a grid-aligned canvas and size, the moved position is grid-aligned |
| ObjectUtils.MoveObjectClampsAtCorner | src/lib/objectUtils.ts:114-133 | a 100×100 object moved to (1905,1075) on a 1920×1080 canvas with grid 20 lands at (1820,980) |
| ObjectUtils.ResizeObject | src/lib/objectUtils.ts:136-156 | width and height ≥ gridSize; capped by the room to the canvas edge; in-range snapped sizes kept; only size and lastModified change |
| ObjectUtils.RotateObject | src/lib/objectUtils.ts:159-168 | rotation is `angle % 360` with truncation: in (−360, 360), sign of the angle; only rotation and lastModified change |
| ObjectUtils.RotateKeepsNegativeAngle | src/lib/objectUtils.ts:165 | −90 and −450 both become −90, not 270 |
| DrawUtils.SnapPoint | src/lib/drawUtils.ts:247-255 | each coordinate is a grid multiple within half a cell of the input |
| DrawUtils.SnapPointAgreesWithSnapPosition | src/lib/drawUtils.ts:251-254 | point snapping equals the object module's position snapping |
| DrawUtils.SnapPointIdempotent | src/lib/drawUtils.ts:247-255 | snapping a snapped point changes nothing |
| DrawUtils.CalculateScale | src/lib/drawUtils.ts:236-245 | the scale is at most both ratios and equal to one of them |
| DrawUtils.ScaledCanvasFits | src/lib/drawUtils.ts:236-245 | for positive canvas sizes, the scaled canvas fits the container and fills it in one direction |
| EventHandlers.Overlapping | src/lib/eventHandlers.ts:44-58 | keeps exactly the objects whose closed box meets the new object's, without looking at either rule |
| EventHandlers.ShiftedUp20 | src/lib/eventHandlers.ts:64-70 | y drops by exactly 20; x and every other field are kept |
| EventHandlers.ShiftAll | src/lib/eventHandlers.ts:64-70 | each object moved 20 up with x and every other field kept |
| EventHandlers.HandleObjectOverlap | src/lib/eventHandlers.ts:40-73 | new object last; without overlaps, objects + [new]; otherwise only the overlapping objects, displaced, then new |
| EventHandlers.OverlapKeepsOnlyColliding | src/lib/eventHandlers.ts:60-72 | with overlaps, every element but the last is a colliding object moved 20 up; every colliding object is there; non-colliding objects are gone |
| EventHandlers.OverlappingAppend | src/lib/eventHandlers.ts:44-58 | the filter distributes over concatenation, so the kept objects stay in list order |
| EventHandlers.FilterDropsOne | src/lib/eventHandlers.ts:44-58 | a non-colliding object makes the filtered list strictly shorter |
| EventHandlers.OverlapIgnoresNewRule | src/lib/eventHandlers.ts:44-58 | the new object's overlap rule never changes which objects are displaced |
| EventHandlers.OverlappingAgreesWithCheckCollision | src/lib/eventHandlers.ts:52-57 | the inline box test selects exactly the objects `checkCollision(new, o)` accepts |
| EventHandlers.CreateStroke | src/lib/eventHandlers.ts:75-88 | points and tool kept; color defaults to #000000 and width to 2 |
| EventHandlers.CreateToolButton | src/lib/eventHandlers.ts:90-105 | type tool-button, 50×50, rotation 0, rule `allow`, z-index 1000, given position and tool, pen or broom icon |
| SyncUtils.CompareStates | src/lib/syncUtils.ts:34-37 | equal exactly when canvas, objects, strokes, tool buttons and the whole-state timestamp are all equal |
| SyncUtils.DetectConflict | src/lib/syncUtils.ts:39-41 | a conflict exactly when any one of those parts differs |
| SyncUtils.ConflictIsInequality | src/lib/syncUtils.ts:34-41 | a state never conflicts with itself; a conflict is exactly a failed comparison; a timestamp-only difference is one |
| SyncUtils.Values | src/lib/syncUtils.ts:92 | `Array.from(map.values())` lists the values in key-insertion order |
| SyncUtils.MergeById | src/lib/syncUtils.ts:62-88 | the two `forEach` loops and the read-out compute the insertion-ordered merge |
| SyncUtils.SetAllWellFormed | src/lib/syncUtils.ts:66-69 | after the local loop each key appears once and holds an item with that id |
| SyncUtils.SetNewerWellFormed | src/lib/syncUtils.ts:72-77 | the remote loop keeps that shape |
| SyncUtils.SetAllKeys | src/lib/syncUtils.ts:66-69 | the local loop's keys are exactly the local ids |
| SyncUtils.SetNewerKeys | src/lib/syncUtils.ts:72-77 | the remote loop adds exactly the remote ids |
| SyncUtils.FindByKey | src/lib/syncUtils.ts:73 | the lookup returns the first item with the id, or reports that none has it |
| SyncUtils.RemoteOnly | src/lib/syncUtils.ts:72-77 | the remote items with ids unknown locally, in remote order |
| SyncUtils.MergeReference | src/lib/syncUtils.ts:62-92 | reference merge: local slots hold the winner of each local id, then the remote-only items follow |
| SyncUtils.SetAllInvariant | src/lib/syncUtils.ts:66-69 | with distinct local ids, the local loop yields the reference with no remote items |
| SyncUtils.SetNewerInvariant | src/lib/syncUtils.ts:72-77 | with distinct ids per side, each remote step keeps the map equal to the reference so far |
| SyncUtils.MergedIsValues | src/lib/syncUtils.ts:92 | the merged list is the values of a well-formed map |
| SyncUtils.MergedIsReference | src/lib/syncUtils.ts:62-92 | with distinct ids per side, the merge as written equals the reference merge |
| SyncUtils.MergedIdsExactlyOnce | src/lib/syncUtils.ts:62-92 | for any inputs, every id of either side appears exactly once in the merge and no other id does |
| SyncUtils.MergedObjectsLastWriterWins | src/lib/syncUtils.ts:72-77 | a shared id keeps the local slot; the remote object wins only with strictly greater lastModified; a tie keeps local |
| SyncUtils.MergedStrokesKeepLocal | src/lib/syncUtils.ts:79-88 | strokes have no lastModified: local strokes are all kept, and remote-only strokes are appended in order |
| SyncUtils.MergedState | src/lib/syncUtils.ts:62-96 | canvas and tool buttons from local, the given timestamp, and merged object and stroke lists holding every id of either side exactly once |
| SyncUtils.MergeStates | src/lib/syncUtils.ts:62-96 | merged objects and strokes; canvas and tool buttons from local; lastModified is the resolution time |
| SyncUtils.ResolveConflict | src/lib/syncUtils.ts:44-59 | 'local' and 'remote' return that state untouched, 'merge' merges, any other token is the unsupported-strategy error |
| Storage.Overlay | src/lib/storage.ts:24 | `{...base, ...partial}`: supplied keys override, absent keys keep the base value |
| Storage.Complete | src/lib/storage.ts:35 | a serialised full config supplies every key |
| Storage.OverlayLaws | src/lib/storage.ts:21-39 | a full config overrides any base, an empty one changes nothing, and overlaying twice equals overlaying once |
| Storage.PushHistory | src/lib/storage.ts:58-66 | the entry is put in front of the previous list; length +1 below the limit, otherwise unchanged |
| Storage.PushHistoryOrder | src/lib/storage.ts:58-66 | head is the entry and the old list follows in order; only the last entry is evicted; an over-long list stays over the limit |
| Storage.HistoryEvictsOldest | src/lib/storage.ts:52-72 | with limit 2, three saves leave the last two, newest first |
| Storage.HistoryNonPositiveLimit | src/lib/storage.ts:63-66 | a limit ≤ 0 drops the only entry |
| Storage.LocalStore.LoadConfig | src/lib/storage.ts:21-28 | defaults (5000, 10, true) when nothing usable is stored; otherwise stored keys over the defaults |
| Storage.LocalStore.LoadHistory | src/lib/storage.ts:42-49 | the stored list, or empty when the key is absent |
| Storage.LocalStore.RestoreFromBackup | src/lib/storage.ts:91-102 | the backed-up state, or null when no backup exists |
| Storage.LocalStore.LoadState | src/lib/storage.ts:105-114 | the saved state, or null when the key is absent |
| Storage.LocalStore.SaveConfig | src/lib/storage.ts:31-39 | stores the current config overlaid with the argument, so the next load returns it |
| Storage.LocalStore.SaveToHistory | src/lib/storage.ts:52-72 | only the history key changes, to the pushed list; a non-list value makes it fail with no write |
| Storage.LocalStore.CreateBackup | src/lib/storage.ts:75-88 | disabled backups leave the store unchanged; otherwise the backup slot holds the state and restoring returns it |
| Storage.LocalStore.SaveState | src/lib/storage.ts:117-134 | state key holds the stamped state, the history is pushed, backup is gated by config; other keys are unchanged |
| Storage.FileWatcher.constructor | src/lib/storage.ts:260 | the last seen mtime starts at 0 |
| Storage.FileWatcher.CheckFile | src/lib/storage.ts:262-277 | fires only on a successful stat with a strictly greater mtime and a loaded state; the last seen mtime never decreases |
| SyncManager.Manager.constructor | src/components/SyncManager.tsx:29-35 | no conflict, no error, not syncing |
| SyncManager.Manager.OnRemoteChange | src/components/SyncManager.tsx:37-58 | an equal remote is applied with no conflict; a differing one leaves the state and records (current, remote); isSyncing ends false |
| SyncManager.Manager.HandleConflictResolution | src/components/SyncManager.tsx:64-79 | no conflict: nothing changes; success installs the result from the captured states and clears the conflict; failure sets the error and keeps the conflict |
| SyncManager.Manager.CloseDialog | src/components/SyncManager.tsx:85 | clears the conflict and leaves the state alone |
| SyncManager.Manager.DismissError | src/components/SyncManager.tsx:150 | clears the error and nothing else |
| CanvasComponent.RemoveById | src/components/Canvas.tsx:310 | keeps exactly the objects with another id |
| CanvasComponent.RemoveByIdAppend | src/components/Canvas.tsx:310 | the filter distributes over concatenation, so order is kept |
| CanvasComponent.RemoveByIdAbsent | src/components/Canvas.tsx:310 | a list without the id is returned unchanged |
| CanvasComponent.CountId | src/components/Canvas.tsx:310 | counts the objects with an id; zero iff none has it |
| CanvasComponent.RemoveByIdCount | src/components/Canvas.tsx:307-314 | removes exactly the objects with the id, and none remain |
| CanvasComponent.ReplaceById | src/components/Canvas.tsx:319-321 | same length; each slot with the id holds the update, every other slot is unchanged |
| CanvasComponent.ReplaceByIdFilters | src/components/Canvas.tsx:319-321 | the other ids' objects and the count of the id are unchanged |
| CanvasComponent.ReplaceByIdEffect | src/components/Canvas.tsx:316-324 | as above, and an absent id changes nothing |
| CanvasComponent.FindClicked | src/components/Canvas.tsx:221-231 | the first object in list order whose closed box contains the point, or none when no box does |
| CanvasComponent.FindClickedFirst | src/components/Canvas.tsx:221-231 | any containing object is at or after the one found |
| CanvasComponent.DragKeepsCount | src/components/Canvas.tsx:256-282 | with the dragged id held once, a drag step keeps the object count, keeps the other objects' ids in their order, and puts the moved object last |
| CanvasComponent.ArrayOf | src/components/Canvas.tsx:273 | a fresh array holding the list |
| CanvasComponent.DragStep | src/components/Canvas.tsx:253-278 | the other objects, overlap-resolved against the moved object, then the moved object last |
| CanvasComponent.BoundedPosition | src/components/Canvas.tsx:339-342 | clamped into [0, width] × [0, height]; positions already inside are kept |
| CanvasComponent.Canvas.constructor | src/components/Canvas.tsx:51-85 | starts idle with the pen, no selection and the tool buttons at (50,50) and (50,100) |
| CanvasComponent.Canvas.PointerDown | src/components/Canvas.tsx:217-247 | on an object: select the first hit and start dragging, no stroke; on empty space: clear the selection and start a one-point stroke |
| CanvasComponent.Canvas.PointerMove | src/components/Canvas.tsx:250-289 | dragging: the drag step replaces the objects and dragStart moves; drawing: the point is appended and earlier points kept |
| CanvasComponent.Canvas.PointerUp | src/components/Canvas.tsx:291-305 | a drawn stroke is appended after the existing strokes and drawing stops; a drag ends |
| CanvasComponent.Canvas.ObjectDelete | src/components/Canvas.tsx:307-314 | the objects with the id are removed and the selection is cleared |
| CanvasComponent.Canvas.ObjectUpdate | src/components/Canvas.tsx:316-324 | the objects with the id are replaced and the update becomes the selection |
| CanvasComponent.Canvas.ToolSelect | src/components/Canvas.tsx:326-328 | only the selected tool changes |
| CanvasComponent.Canvas.ToolButtonPositionChange | src/components/Canvas.tsx:337-348 | that button gets the bounded position; the other button is unchanged |
| AdminPage.DefaultCanvasState | src/pages/AdminPage.tsx:11-21 | 1920×1080, grid 20, no objects, strokes or tool buttons |
| AdminPage.AddedObject | src/pages/AdminPage.tsx:85-111 | at the canvas centre, 100×100, rotation 0, rule `displace`, z-index = object count; text or shape defaults only for those types |
| AdminPage.AddedObjectMatchesFactory | src/pages/AdminPage.tsx:85-94 | on the default canvas it equals the factory's object except z-index and a tool button's tool |
| AdminPage.Admin.constructor | src/pages/AdminPage.tsx:24 | the page starts on the default document |
| AdminPage.Admin.ObjectAdd | src/pages/AdminPage.tsx:84-118 | exactly one object is appended; the existing objects are unchanged and in order |
| AdminPage.Admin.ObjectUpdate | src/pages/AdminPage.tsx:74-82 | replaces the object with the id, keeps the length and the other ids, and refreshes lastModified |

## Left out

- Rendering is not modelled: the 2D-context drawing in the drawing module, grid and selection drawing, and all React/MUI presentation.
- DOM geometry and trigonometry are not modelled: `getCanvasPoint`, `handleDragStart`, `handleDrag` and `isPointInObject` in the event module. The canvas handlers receive the pointer position as a parameter.
- Storage I/O and timers are not modelled: export/import to files, `setupAutoSave`, the Electron file calls and the interval loop of `watchFile`. The watcher's stats and load results are parameters of `CheckFile`. `localStorage` is a map, and a `setItem` that throws (quota) is not modelled.
- Storage.LocalStore.LoadHistory: a stored value that parses to something other than a list is returned as-is by the source; the model returns an empty list.
- Storage.LocalStore.SaveToHistory: a history text that parses to a list of values that are not states (`[1,2]`) is not modelled; the source would put the entry in front of those values. Stored values that are not lists are modelled: `saveToHistory` then fails without writing.
- Storage.LocalStore.LoadState: a stored value that parses to something other than a state is returned as-is by the source; the model returns no state.
- `syncState` in the sync module is not modelled: it is file I/O around the modelled functions.
- `src/store/toolbarStore.ts`, the Electron main and preload scripts, and the build configuration are not part of this model.
- `saveToLocalStorage`, `loadFromLocalStorage`, `watchFileChanges` and `../types/sync` are not part of this model. The sync manager receives remote states through `OnRemoteChange`. The editor page's auto-save effect, which calls `saveToLocalStorage`, is left out.
- SyncManager.Manager.OnRemoteChange: the `catch` branch, which sets the synchronisation error, is not modelled; nothing in the handler's `try` block (src/components/SyncManager.tsx:39-52) throws for a plain state value.
- Ids are clock readings in the source and need not be unique. No uniqueness is claimed; the merge and drag properties take distinct ids as a precondition where they need it.
- CanvasComponent.DragStep: the source filters the state's objects into a new array, but the objects are shared, so the in-place displacement also changes the objects of the previous state value. The model copies the objects into a fresh array and does not show that aliasing.
- ObjectUtils.HandleObjectOverlap: the model does not cover one object reference appearing twice in the input array. The source would shift that object twice.
- AdminPage.AddedObject and AdminPage.Admin.ObjectAdd: the centre `width / 2` is fractional for an odd canvas dimension, which integer coordinates cannot hold, so even canvas dimensions are required. The source's `type as any` can also carry a type string outside the declared union; the model takes one of the four declared types.
- EventHandlers.Overlapping: the source first skips objects whose rule is `'overlap'`, a value outside the declared `'allow' | 'displace'`. That test never holds for well-typed objects, so it is omitted.
- DrawUtils.CalculateScale is over exact reals, not IEEE doubles. A zero canvas dimension, which gives Infinity or NaN, is excluded.
- ObjectUtils.SnapToGrid and the other snapping functions require a non-zero grid size; a zero grid size gives NaN in the source.
- EventHandlers.CreateToolButton: `src/lib/eventHandlers.ts:1` imports `ToolButtonObject` from `src/types/types.ts`, which does not declare it; the model gives it its own record.
- SyncUtils.ConflictIsInequality: `JSON.stringify(a) === JSON.stringify(b)` is modelled as value equality. The source also reports a conflict for equal values whose object keys were inserted in a different order; the model does not.
- ObjectUtils.SnapToGrid: coordinates are integers. Pointer positions reaching the snapping functions, and stroke points, can be fractional in the source; the model covers integer inputs only.
