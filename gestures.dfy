/**
  Whole gestures: what a sequence of press, move and release events does to
  the canvas, derived from the per-event contracts of the state machine.
 */
module Gestures {
  import opened Geometry
  import opened Shapes
  import opened CanvasState

  /** Whether some move in `points[..k]` goes to a point other than `p`. */
  ghost predicate LeavesBefore(p: (int, int), points: seq<(int, int)>, k: nat)
    requires k <= |points|
  {
    exists j :: 0 <= j < k && points[j] != p
  }

  /**
    A press at (x0, y0), the moves through `points` and a release, all
    dispatched to the drawing state. If some move leaves the press point,
    exactly one new shape is committed, spanning the press point and the
    last point, with the next id; a move that repeats the last point is
    ignored along the way. If no move leaves the press point, the release
    commits only a preview left over from an earlier, unfinished drag, if
    there is one. Either way the drag is over afterwards.
   */
  method DrawGesture(c: CanvasViewModel, x0: int, y0: int, points: seq<(int, int)>)
    requires c.Valid() && c.state.Drawing?
    modifies c
    ensures c.Valid() && c.state.Drawing? && !c.state.d.drawing && c.state.d.drawingShape.None?
    ensures LeavesBefore((x0, y0), points, |points|) ==>
              var last := points[|points| - 1];
              c.saved == old(c.saved) + [CreateShape(c.shapeType, |old(c.saved)|, x0, y0, last.0, last.1, DRAWING_COLOR)]
    ensures !LeavesBefore((x0, y0), points, |points|) ==>
              c.saved == old(c.saved) + (if old(c.state.d.drawingShape).Some? then [old(c.state.d.drawingShape).value] else [])
    ensures c.selection == old(c.selection) && c.shapeType == old(c.shapeType)
  {
    ghost var preview0 := c.state.d.drawingShape;
    c.HandleMouseDown(x0, y0);
    var k := 0;
    while k < |points|
      invariant 0 <= k <= |points|
      invariant c.Valid() && c.state.Drawing? && c.state.d.drawing
      invariant c.saved == old(c.saved) && c.selection == old(c.selection) && c.shapeType == old(c.shapeType)
      invariant c.state.d.startX == x0 && c.state.d.startY == y0
      invariant !LeavesBefore((x0, y0), points, k) ==>
                  (c.state.d.endX, c.state.d.endY) == (x0, y0) && c.state.d.drawingShape == preview0
      invariant LeavesBefore((x0, y0), points, k) ==>
                  && (c.state.d.endX, c.state.d.endY) == points[k - 1]
                  && c.state.d.drawingShape == Some(CreateShape(c.shapeType, |c.saved|, x0, y0, points[k - 1].0, points[k - 1].1, DRAWING_COLOR))
    {
      c.HandleMouseMove(points[k].0, points[k].1);
      k := k + 1;
    }
    c.HandleMouseUp();
  }

  /**
    A press, any number of moves back to the press point and a release
    commit nothing when no drag was under way.
   */
  method PressRelease(c: CanvasViewModel, x: int, y: int, n: nat)
    requires c.Valid() && c.state.Drawing? && !c.state.d.drawing
    modifies c
    ensures c.Valid() && c.state.Drawing? && !c.state.d.drawing
    ensures c.saved == old(c.saved) && c.selection == old(c.selection)
  {
    DrawGesture(c, x, y, seq(n, _ => (x, y)));
  }

  /**
    A second press during a drag (its release never arrived) keeps the
    earlier preview, so an immediate release commits the shape of the
    first drag, not one anchored at the second press.
   */
  method InterruptedDragCommitsEarlierPreview(c: CanvasViewModel, x0: int, y0: int, x1: int, y1: int, x2: int, y2: int)
    requires c.Valid() && c.state.Drawing?
    requires x1 != x0 || y1 != y0
    modifies c
    ensures c.saved == old(c.saved) + [CreateShape(c.shapeType, |old(c.saved)|, x0, y0, x1, y1, DRAWING_COLOR)]
  {
    c.HandleMouseDown(x0, y0);
    c.HandleMouseMove(x1, y1);
    c.HandleMouseDown(x2, y2);
    c.HandleMouseUp();
  }

  /**
    One move of a selection drag. A repeat of the last recorded point is
    ignored. Any other point adds the move's delta to the running shift of
    the selection since the press and re-anchors the drag at that point.
   */
  method DragStep(c: CanvasViewModel, x: int, y: int, ghost saved0: seq<Shape>, ghost sx: int, ghost sy: int)
      returns (ghost sx': int, ghost sy': int)
    requires c.Valid() && c.state.Moving? && c.state.m.moving && c.state.m.selectedShapes.Some?
    requires c.saved == Translated(saved0, c.selection, sx, sy)
    modifies c
    ensures c.Valid() && c.state.Moving? && c.state.m.moving && c.state.m.selectedShapes.Some?
    ensures c.selection == old(c.selection) && c.shapeType == old(c.shapeType)
    ensures (x, y) == old((c.state.m.endX, c.state.m.endY)) ==> c.state == old(c.state) && sx' == sx && sy' == sy
    ensures (x, y) != old((c.state.m.endX, c.state.m.endY)) ==>
              && c.state.m.startX == x && c.state.m.startY == y && c.state.m.endX == x && c.state.m.endY == y
              && sx' == sx + old(c.state.m.startX) - x && sy' == sy + old(c.state.m.startY) - y
    ensures c.saved == Translated(saved0, c.selection, sx', sy')
  {
    if (x, y) == (c.state.m.endX, c.state.m.endY) {
      c.HandleMouseMove(x, y);
      sx', sy' := sx, sy;
    } else {
      var dx, dy := c.state.m.startX - x, c.state.m.startY - y;
      ghost var before := c.saved;
      c.HandleMouseMove(x, y);
      assert c.saved == Translated(before, c.selection, dx, dy);
      TranslatedComposes(saved0, c.selection, sx, sy, dx, dy);
      sx', sy' := sx + dx, sy + dy;
    }
  }

  /** A release in the moving state hands control to a fresh selection state and changes no shape. */
  method EndDrag(c: CanvasViewModel)
    requires c.Valid() && c.state.Moving?
    modifies c
    ensures c.Valid() && c.state == Initial(SelectMode)
    ensures c.saved == old(c.saved) && c.selection == old(c.selection) && c.shapeType == old(c.shapeType)
  {
    c.HandleMouseUp();
  }

  /**
    Dragging the selection in the moving state: a press at (x0, y0), the
    moves through `points` and a release, all dispatched to the moving
    state. A press does not reset the last recorded point, so a move counts
    only once some move has left the point recorded before the press; from
    then on a repeat of the last point is ignored. If some move leaves that
    point, every selected shape moves by (x0, y0) minus the last point;
    otherwise no shape moves. Either way the other shapes, the selection and
    every id are kept, and control passes to a fresh selection state.
   */
  method DragSelection(c: CanvasViewModel, x0: int, y0: int, points: seq<(int, int)>)
    requires c.Valid() && c.state.Moving?
    modifies c
    ensures c.Valid() && c.state == Initial(SelectMode)
    ensures c.selection == old(c.selection) && c.shapeType == old(c.shapeType)
    ensures LeavesBefore(old((c.state.m.endX, c.state.m.endY)), points, |points|) ==>
              var last := points[|points| - 1];
              c.saved == Translated(old(c.saved), c.selection, x0 - last.0, y0 - last.1)
    ensures !LeavesBefore(old((c.state.m.endX, c.state.m.endY)), points, |points|) ==> c.saved == old(c.saved)
  {
    ghost var saved0 := c.saved;
    ghost var stale := (c.state.m.endX, c.state.m.endY);
    c.HandleMouseDown(x0, y0);
    ghost var sx, sy := 0, 0;
    ghost var moved := false;
    TranslatedZero(saved0, c.selection);
    var k := 0;
    while k < |points|
      invariant 0 <= k <= |points|
      invariant moved == LeavesBefore(stale, points, k)
      invariant c.Valid() && c.state.Moving? && c.state.m.moving && c.state.m.selectedShapes.Some?
      invariant c.selection == old(c.selection) && c.shapeType == old(c.shapeType)
      invariant !moved ==> (c.state.m.startX, c.state.m.startY) == (x0, y0) && (c.state.m.endX, c.state.m.endY) == stale
      invariant moved ==> (c.state.m.startX, c.state.m.startY) == (c.state.m.endX, c.state.m.endY) == points[k - 1]
      invariant sx == x0 - c.state.m.startX && sy == y0 - c.state.m.startY
      invariant c.saved == Translated(saved0, c.selection, sx, sy)
    {
      sx, sy := DragStep(c, points[k].0, points[k].1, saved0, sx, sy);
      moved := moved || points[k] != stale;
      k := k + 1;
    }
    assert moved ==> sx == x0 - points[|points| - 1].0 && sy == y0 - points[|points| - 1].1;
    assert !moved ==> c.saved == saved0;
    EndDrag(c);
  }

  /**
    The example scenario used below: shape A is drawn from (0,0) to
    (10,10) on an empty canvas, selected by a sweep from (2,2) to (8,8), and
    then dragged by a press at (5,5), a move to (7,6) and a release.
    This is shape A as drawn.
   */
  function ExampleShape(): (a: Shape) {
    CreateShape("rect", 0, 0, 0, 10, 10, DRAWING_COLOR)
  }

  /** On the values of the example scenario: the sweep selects A, and the drag moves it by (-2, -1). */
  lemma ExampleValues()
    ensures SelectionOf([ExampleShape()], Span(2, 2, 8, 8)) == [0]
    ensures Hits([ExampleShape()], Span(2, 2, 8, 8)) == [ExampleShape()]
    ensures Translated([ExampleShape()], [0], -2, -1) == [CreateShape("rect", 0, -2, -1, 8, 9, DRAWING_COLOR)]
  {
    var a := ExampleShape();
    assert Intersects(Bounds(a), Span(2, 2, 8, 8));
    assert [a][..0] == [];
    assert Translated([a], [0], -2, -1)[0] == Translate(a, -2, -1);
  }

  /**
    A fresh canvas holding shape A, drawn from (0,0) to (10,10) and then
    selected by a sweep in the selection state: a press at (2,2), a move to
    (8,8) and a release.
   */
  method ExampleWithASelected() returns (c: CanvasViewModel)
    ensures fresh(c) && c.Valid() && c.state.Selecting?
    ensures c.saved == [ExampleShape()] && c.selection == [0]
  {
    c := new CanvasViewModel("rect");
    assert LeavesBefore((0, 0), [(10, 10)], 1) by {
      assert [(10, 10)][0] != (0, 0);
    }
    DrawGesture(c, 0, 0, [(10, 10)]);
    assert c.saved == [ExampleShape()];
    c.SetState(SelectMode);
    c.HandleMouseDown(2, 2);
    c.HandleMouseMove(8, 8);
    c.HandleMouseUp();
    ExampleValues();
  }

  /** The example scenario, first half: the sweep from (2,2) to (8,8) selects exactly A. */
  method SweepExample() returns (selected: seq<Shape>)
    ensures selected == [ExampleShape()]
  {
    var c := ExampleWithASelected();
    selected := c.GetSelectedShapes();
  }

  /**
    A release in the selection state does not end the sweep: a press at
    (x0, y0), a move to (x1, y1), a release and a further move to (x2, y2)
    leave the selection recomputed for the box from the press point to the
    last point that was not a repeat.
   */
  method SweepContinuesAfterRelease(c: CanvasViewModel, x0: int, y0: int, x1: int, y1: int, x2: int, y2: int)
    requires c.Valid() && c.state.Selecting?
    modifies c
    ensures c.Valid() && c.state.Selecting? && c.state.s.selecting
    ensures c.saved == old(c.saved) && c.shapeType == old(c.shapeType)
    ensures (x2, y2) != (x1, y1) ==> c.selection == SelectionOf(c.saved, Span(x0, y0, x2, y2))
    ensures (x2, y2) == (x1, y1) && (x1, y1) != (x0, y0) ==> c.selection == SelectionOf(c.saved, Span(x0, y0, x1, y1))
    ensures (x2, y2) == (x1, y1) == (x0, y0) ==> c.selection == []
  {
    c.HandleMouseDown(x0, y0);
    c.HandleMouseMove(x1, y1);
    c.HandleMouseUp();
    c.HandleMouseMove(x2, y2);
  }

  /**
    The example scenario, second half: with A selected, a press at (5,5), a
    move to (7,6) and a release in the moving state move A by
    (5 - 7, 5 - 6) and hand control to the selection state.
   */
  method DragExample() returns (moved: seq<Shape>, finalMode: Mode)
    ensures moved == [CreateShape("rect", 0, -2, -1, 8, 9, DRAWING_COLOR)]
    ensures finalMode == SelectMode
  {
    var c := ExampleWithASelected();
    c.SetState(MoveMode);
    ghost var stale := (c.state.m.endX, c.state.m.endY);
    assert LeavesBefore(stale, [(7, 6)], 1) by {
      assert stale == (0, 0);
      assert [(7, 6)][0] != stale;
    }
    DragSelection(c, 5, 5, [(7, 6)]);
    assert c.saved == Translated([ExampleShape()], [0], -2, -1);
    ExampleValues();
    moved := c.saved;
    finalMode := ModeOf(c.state);
  }

  /**
    As written, a press inside a committed shape in the drawing state starts
    a new drag instead of switching to the moving state.
   */
  method PressOnShapeStaysDrawing() returns (hit: bool, mode: Mode, dragging: bool)
    ensures hit && mode == DrawMode && dragging
  {
    var c := new CanvasViewModel("rect");
    assert LeavesBefore((0, 0), [(10, 10)], 1) by {
      assert [(10, 10)][0] != (0, 0);
    }
    DrawGesture(c, 0, 0, [(10, 10)]);
    assert InBox(Bounds(c.saved[0]), 5, 5);
    hit := ShapeAt(c.saved, 5, 5);
    c.HandleMouseDown(5, 5);
    mode := ModeOf(c.state);
    dragging := c.state.Drawing? && c.state.d.drawing;
  }
}
