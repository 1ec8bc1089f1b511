# Canvas pointer-interaction state machine

This project models the pointer handling of a small drawing canvas. Three
interaction states, `DrawingState`, `SelectState` and `MoveState`, turn press,
move and release events into changes to a shared shape store. The store holds
the committed shapes and the current selection.

- **Drawing.** A press anchors a drag. Each move to a new point rebuilds a
  black preview shape that carries the next id. A release commits the preview.
- **Selection.** A press starts a rubber-band sweep. Each move to a new point
  recomputes the selection from scratch. The selection holds every committed
  shape whose normalised bounds meet the sweep box, edges included.
- **Moving.** A press snapshots the selection. Each move to a new point
  translates the selected shapes by the step since the last recorded point.
  A release always hands control to a fresh selection state.

How the model is laid out:

- `geometry.dfy` (module `Geometry`): inclusive axis-aligned boxes, built with
  the same inline `Math.min`/`Math.max` arithmetic and intersection test the
  source uses.
- `shapes.dfy` (module `Shapes`): the shape record, a stand-in for the shape
  factory, and the store's translate operation.
- `canvas_state.dfy` (module `CanvasState`): the state machine itself. It is
  one class, `CanvasViewModel`, holding:
  - the committed shapes `saved`;
  - the selection;
  - the toolbar's shape type;
  - the active state, a datatype with one variant per state class that carries
    that class's private fields.

  Each state class's handlers are methods of that class, and
  `HandleMouseDown`/`HandleMouseMove`/`HandleMouseUp` dispatch on the active
  variant the way the `ICanvasState` interface does. `setState(new XState(vm))`
  becomes `SetState(mode)`, which installs `Initial(mode)`: every field at its
  initialiser.
- `gestures.dfy` (module `Gestures`): whole gestures built from the per-event
  contracts. They cover a complete draw, a selection drag over any number of
  moves, and an example scenario: shape A drawn from (0,0) to (10,10),
  selected by a sweep from (2,2) to (8,8), then dragged by a press at (5,5)
  and a move to (7,6).

Modelling decisions:

- **The selection is kept as positions into `saved`.** In the source, the
  selection and the saved list share the same shape objects. None of these
  handlers removes or reorders a committed shape, so a position names an
  object exactly. As a result, moving the selection moves exactly those saved
  shapes.
- **The store is an assumed contract.** `moveSelectedShapes` adds `(dx, dy)` to
  all four coordinates of every selected shape and leaves the others as they
  were (`Shapes.Translated`). Its implementation is not part of this model.
- **`countShapes()` and `getShapeType()`** are read as `|saved|` and the
  `shapeType` field.
- **`Valid()` is the class invariant.** It says:
  - a committed shape's id equals its position;
  - the selection names committed shapes, in saved order, each at most once;
  - a drawing preview exists only during a drag, and it carries the next id.

Behaviour reproduced as the code is written:

- **`checkShapeClick` is always false.** Its `return true` only leaves the
  `forEach` callback. `CheckShapeClick` is therefore constant false, and a
  drawing press never switches to the moving state. The intended test is
  modelled separately as `ShapeAt`.
- **A release in the selection state changes nothing.** In particular it does
  not clear `selecting`, so later moves keep re-selecting
  (`Gestures.SweepContinuesAfterRelease`).
- **A press in the moving state does not reset `endX`/`endY`.** The moving
  handler also tests `moving` before the no-op point check, the reverse of the
  other two states. A drag whose moves all land on the end point left by the
  previous drag therefore moves nothing (`Gestures.DragSelection`).
- **`MoveState`'s snapshot is `Option<seq<Shape>>`.** An empty JavaScript
  array is truthy, so after any press the "snapshot present" test holds, even
  with an empty selection.

Sign of the move step:

- The code computes each step as previous point minus current point. In the
  example scenario (A spanning (0,0)-(10,10), a press at (5,5), a move to
  (7,6)) the step is (-2, -1), so under the translate contract above A ends
  at (-2,-1)-(8,9), not at (2,1)-(12,11) as the opposite sign would give.
- The model follows the code (`Gestures.DragExample`).

## Model

All source paths are in `src/viewModel/CanvasState.ts`.

| member | source | states |
|---|---|---|
| Geometry.Span | src/viewModel/CanvasState.ts:134-137 | The sweep box from two corners given in any order is normalised, contains both corners, and each of its edges is one of the corners' coordinates. |
| Geometry.SpanSymmetric | src/viewModel/CanvasState.ts:134-137 | Swapping the two sweep corners gives the same box. |
| Geometry.Intersects | src/viewModel/CanvasState.ts:145-147 | For normalised boxes, the source's "not strictly apart on either axis" test holds exactly when the two boxes overlap on both axes: the larger of the two minima is at most the smaller of the two maxima, on x and on y. |
| Geometry.IntersectsIffCommonPoint | src/viewModel/CanvasState.ts:145-147 | For normalised boxes, the source's "not strictly apart on either axis" test holds exactly when the boxes share a point (edges count). |
| Shapes.Bounds | src/viewModel/CanvasState.ts:140-143 | A shape's min/max bounds are a normalised box containing both of its corners, and each of its four edges is one of the corners' coordinates, so the box is the tightest one. |
| Shapes.CreateShape | src/viewModel/CanvasState.ts:47-57 | The preview the factory builds carries exactly the given type, id, corners and colour, and its bounds are the box spanned by those corners. |
| Shapes.Translate | src/viewModel/CanvasState.ts:192 | Moving one shape keeps its id, colour and type and adds (dx, dy) to both corners. |
| Shapes.TranslateShiftsBounds | src/viewModel/CanvasState.ts:192 | A moved shape's bounding box is its old box shifted by exactly (dx, dy). |
| Shapes.Translated | src/viewModel/CanvasState.ts:192 | The assumed moveSelectedShapes: same length and ids; the shape at each selected position is that shape moved by (dx, dy) on both corners, with its id, colour and type kept; every other shape is unchanged. |
| Shapes.TranslatedComposes | src/viewModel/CanvasState.ts:186-192 | Two successive moves of the same selection equal one move by the summed delta. |
| CanvasState.Initial | src/viewModel/CanvasState.ts:14-20 | A freshly constructed state object is of the requested class, with its fields at their initialisers (likewise SelectState :96-100 and MoveState :160-165). |
| CanvasState.CheckShapeClick | src/viewModel/CanvasState.ts:78-92 | As written, the hit test returns false for every point and every saved list: the callback's results are computed and discarded. |
| CanvasState.CallbackResults | src/viewModel/CanvasState.ts:80-89 | There is one callback result per saved shape, in order, and each is true exactly when the point lies in that shape's bounds. |
| CanvasState.ShapeAt | src/viewModel/CanvasState.ts:81-86 | The intended hit test: true exactly when some saved shape's bounds contain the point. |
| CanvasState.HitTestDiscardsCallbackResult | src/viewModel/CanvasState.ts:78-92 | Some callback returns true exactly when the intended hit test holds, yet checkShapeClick is false for every point and every saved list. |
| CanvasState.HitTestMissesShape | src/viewModel/CanvasState.ts:78-92 | Concrete witness: a press at (5,5) inside a shape spanning (0,0)-(10,10) is a hit, and checkShapeClick still reports none. |
| CanvasState.SelectionOfExact | src/viewModel/CanvasState.ts:131-152 | A position is selected exactly when it names a saved shape whose bounds intersect the sweep box; the positions are strictly increasing, so in saved order and each at most once. |
| CanvasState.SelectionOf | src/viewModel/CanvasState.ts:139-151 | The positions the forEach selects, in saved order; every one of them names a saved shape. |
| CanvasState.PickSelectionIsHits | src/viewModel/CanvasState.ts:139-151 | The selected positions are in range, and reading them back gives exactly the saved shapes that pass the intersection test, filtered in saved order. |
| CanvasState.SelectionSymmetric | src/viewModel/CanvasState.ts:134-137 | The selection does not depend on which corner the sweep starts from. |
| CanvasState.CanvasViewModel.GetSelectedShapes | src/viewModel/CanvasState.ts:174 | There is one selected shape per selected position, and the k-th is the committed shape at the k-th selected position; since the class invariant keeps positions strictly increasing, the shapes come in committed order. |
| CanvasState.CanvasViewModel.GetCurrentShapes | src/viewModel/CanvasState.ts:69-76 | What is drawn is the committed shapes, followed by the preview exactly when a drawing drag with a preview is in progress; otherwise it is the committed shapes alone (as SelectState :154-156 and MoveState :202-204 always return). |
| CanvasState.CanvasViewModel.AddShape | src/viewModel/CanvasState.ts:64 | Appends exactly one shape at the end of the committed list; nothing else changes. |
| CanvasState.CanvasViewModel.ClearSelectedShapes | src/viewModel/CanvasState.ts:110 | Empties the selection; nothing else changes. |
| CanvasState.CanvasViewModel.AddSelectedShape | src/viewModel/CanvasState.ts:149 | Appends one position to the selection; nothing else changes. |
| CanvasState.CanvasViewModel.MoveSelectedShapes | src/viewModel/CanvasState.ts:192 | Moves exactly the selected shapes by (dx, dy) and keeps the class invariant; the selection and the state are unchanged. |
| CanvasState.CanvasViewModel.SetState | src/viewModel/CanvasState.ts:199 | Installs a fresh state object of the given class; the store is unchanged. |
| CanvasState.CanvasViewModel.DrawingMouseDown | src/viewModel/CanvasState.ts:23-37 | A drawing press sets both the anchor and the end point to the press point and sets `drawing`; it stays in the drawing state and creates and commits no shape. |
| CanvasState.CanvasViewModel.DrawingMouseMove | src/viewModel/CanvasState.ts:39-58 | A move to the last end point, or one made while not drawing, changes nothing. Otherwise the end point becomes the move point and the preview becomes the shape from the anchor to that point, with id = number of committed shapes and colour black. The store is untouched. |
| CanvasState.CanvasViewModel.DrawingMouseUp | src/viewModel/CanvasState.ts:60-67 | When not drawing, nothing changes. While drawing with a preview, that exact preview is appended and discarded and `drawing` is cleared. While drawing without a preview, only `drawing` is cleared. |
| CanvasState.CanvasViewModel.SelectMouseDown | src/viewModel/CanvasState.ts:103-113 | A selection press empties the selection, sets both sweep corners to the press point and sets `selecting`; committed shapes are unchanged. |
| CanvasState.CanvasViewModel.SelectMouseMove | src/viewModel/CanvasState.ts:115-125 | A move to the last end point, or one made while not selecting, changes nothing. Otherwise the end point is updated and the selection becomes exactly the intersecting shapes for the sweep from the anchor to the move point. |
| CanvasState.CanvasViewModel.SelectMouseUp | src/viewModel/CanvasState.ts:127-129 | A selection release changes neither the state fields (`selecting` stays set) nor the store. |
| CanvasState.CanvasViewModel.SelectShapes | src/viewModel/CanvasState.ts:131-152 | The loop leaves as the selection exactly the intersecting positions (the function proved exact above). Reading them back gives the filter of the saved shapes. The saved shapes and the state are unchanged. |
| CanvasState.CanvasViewModel.MoveMouseDown | src/viewModel/CanvasState.ts:169-176 | A moving press sets only the anchor (the end point is kept), snapshots the current selected shapes and sets `moving`; the store is unchanged. |
| CanvasState.CanvasViewModel.MoveMouseMove | src/viewModel/CanvasState.ts:178-194 | While not moving, or at the last end point, nothing changes. Otherwise the anchor and end become the move point and, with a snapshot present, the selected shapes move once by (previous anchor − move point). The selection and ids are kept. |
| CanvasState.CanvasViewModel.MoveMouseUp | src/viewModel/CanvasState.ts:196-200 | A moving release always installs a fresh selection state (never the drawing state) and leaves the store unchanged. |
| CanvasState.CanvasViewModel.HandleMouseDown | src/viewModel/CanvasState.ts:7 | A press goes to the active state and never changes the active state, the committed shapes or the shape type. Drawing: the press anchors start and end at the point and starts a drag, keeping any earlier preview and the selection. Selecting: the same anchoring, the sweep starts, and the selection is cleared. Moving: the start is anchored but the end is not reset, the currently selected shapes are snapshotted, the drag starts, and the selection is kept. |
| CanvasState.CanvasViewModel.HandleMouseMove | src/viewModel/CanvasState.ts:8 | A move goes to the active state and never changes the active state, the shape type, the number of committed shapes or any id. Drawing: a repeat of the end point, or a move with no drag under way, changes nothing; otherwise the end moves there and the preview is rebuilt from the start to the point with the next id. Selecting: the same no-op cases; otherwise the end moves and the selection becomes the positions (and shapes) hit by the box from the start to the point. Moving: the same no-op cases; otherwise the drag is re-anchored at the point, and with a snapshot the selected shapes move by the old start minus the point. |
| CanvasState.CanvasViewModel.HandleMouseUp | src/viewModel/CanvasState.ts:9 | A release goes to the active state and never changes the selection or the shape type. Committed shapes are only ever extended by at most one. Drawing: with no drag nothing changes; with a preview it is committed and cleared and the drag ends; without one the drag just ends. Selecting: nothing changes, the sweep stays under way. Moving: a fresh selection state becomes active and no shape changes. |
| Gestures.DrawGesture | src/viewModel/CanvasState.ts:23-67 | Press, any number of moves and release, through the dispatching handlers. If some move leaves the press point, exactly one shape is committed, spanning the press point and the last point, with the next id, the toolbar's type and colour black. If none does, only a preview left by an earlier unfinished drag is committed, if there is one. Either way the drag is over, no preview is left, and the selection and shape type are unchanged. |
| Gestures.PressRelease | src/viewModel/CanvasState.ts:23-67 | With no drag under way, a press, any number of moves back to the press point and a release commit nothing and change no selection. |
| Gestures.InterruptedDragCommitsEarlierPreview | src/viewModel/CanvasState.ts:23-67 | A second press in mid-drag keeps the earlier preview, so the release commits the first drag's shape. |
| Gestures.DragStep | src/viewModel/CanvasState.ts:178-194 | One move of a drag, through the dispatching move handler: a repeat of the last recorded point changes nothing; any other point adds its step to the running shift of the selection since the press and re-anchors the drag at the point. Either way the saved list is the press-time list shifted by the running total. |
| Gestures.DragSelection | src/viewModel/CanvasState.ts:169-200 | Press, any number of moves and release in the moving state, through the dispatching handlers. The press does not reset the end point, so if every move stays at the end point recorded before the press, no shape moves. Otherwise the selected shapes move in total by the press point minus the last point. Either way the other shapes, the selection and the shape type are unchanged and a fresh selection state is active. |
| Gestures.ExampleValues | src/viewModel/CanvasState.ts:131-152 | For shape A spanning (0,0)-(10,10), the sweep (2,2)-(8,8) selects exactly position 0, that is, exactly A. A move by (-2,-1) gives A at (-2,-1)-(8,9). |
| Gestures.ExampleWithASelected | src/viewModel/CanvasState.ts:103-152 | Drawing A and then, in the selection state, a press at (2,2), a move to (8,8) and a release leave A committed and selected, with the selection state active. |
| Gestures.SweepExample | src/viewModel/CanvasState.ts:103-129 | Scenario: after drawing A, a selection press at (2,2), a move to (8,8) and a release select exactly [A]. |
| Gestures.SweepContinuesAfterRelease | src/viewModel/CanvasState.ts:103-129 | A release does not end a sweep: after a press, a move, a release and a further move, the selection is the one for the box from the press point to the last point that was not a repeat (empty if every point repeated the press point), and the sweep is still under way. |
| Gestures.DragExample | src/viewModel/CanvasState.ts:169-200 | Scenario: with A selected, a moving press at (5,5), a move to (7,6) and a release move A to (-2,-1)-(8,9) and end in the selection state. |
| Gestures.PressOnShapeStaysDrawing | src/viewModel/CanvasState.ts:23-37 | A drawing press inside a committed shape is a hit by the intended test, yet the canvas stays in the drawing state and starts a new drag. |

## Left out

- React event objects: each event is reduced to its integer offset point, and there is no rendering. `src/App.tsx` (component wiring) is not part of this model.
- Floating-point coordinates: the model uses unbounded integers, so the point-equality no-op checks are exact.
- The `console.log` in `SelectState.handleMouseUp` (:128): it is output only and changes no state.
- The internals of `CanvasViewModel`, `ShapeFactory` and `Shape` are not part of this model. The store is modelled by the contracts above, and the factory by `CreateShape`, a record holding exactly the given fields. Shape type and colour are opaque tags.
- Shapes.Translated: this is an assumed contract for `moveSelectedShapes` (it adds the delta to all four coordinates of each selected shape), not a model of code shown here.
- Changes of the toolbar's shape type: `shapeType` is fixed when the canvas is constructed.
- CanvasState.CanvasViewModel.MoveMouseDown: the snapshot holds copies of the selected shape values, not references to them. The snapshot is only ever tested for presence, so nothing observable depends on this.
- CanvasState.CanvasViewModel.constructor: how the store is first created (empty, in the drawing state) is assumed, since its source is not part of this model.
