/**
  The canvas's pointer-interaction state machine. Three interaction states
  (drawing, rubber-band selection, moving the selection) turn press, move and
  release events into changes to a shared shape store. The store and the
  active state together are the class CanvasViewModel; each state's private
  fields live in the matching variant of InteractionState.
 */
module CanvasState {
  import opened Geometry
  import opened Shapes

  /** The colour every drawn shape gets (DrawingState's `color` field, never reassigned). */
  const DRAWING_COLOR := "black"

  /** DrawingState's private fields. */
  datatype DrawingState = DrawingState(startX: int, startY: int, endX: int, endY: int, drawingShape: Option<Shape>, drawing: bool)

  /** SelectState's private fields. */
  datatype SelectState = SelectState(startX: int, startY: int, endX: int, endY: int, selecting: bool)

  /** MoveState's private fields; `selectedShapes` is the snapshot taken on a press. */
  datatype MoveState = MoveState(selectedShapes: Option<seq<Shape>>, startX: int, startY: int, endX: int, endY: int, moving: bool)

  /** The active state object: exactly one of the three state classes. */
  datatype InteractionState =
    | Drawing(d: DrawingState)
    | Selecting(s: SelectState)
    | Moving(m: MoveState)

  /** Which state class a `setState(new ...)` call constructs. */
  datatype Mode = DrawMode | SelectMode | MoveMode

  function ModeOf(st: InteractionState): (m: Mode) {
    match st
    case Drawing(_) => DrawMode
    case Selecting(_) => SelectMode
    case Moving(_) => MoveMode
  }

  /** A freshly constructed state object: every field at its initialiser. */
  function Initial(m: Mode): (st: InteractionState)
    ensures ModeOf(st) == m
  {
    match m
    case DrawMode => Drawing(DrawingState(0, 0, 0, 0, None, false))
    case SelectMode => Selecting(SelectState(0, 0, 0, 0, false))
    case MoveMode => Moving(MoveState(None, 0, 0, 0, 0, false))
  }

  // ---------------------------------------------------------------------
  // Hit test (DrawingState.checkShapeClick)
  // ---------------------------------------------------------------------

  /** The callback checkShapeClick hands to forEach: true when (x, y) lies in the shape's bounds. */
  predicate HitCallback(s: Shape, x: int, y: int) {
    InBox(Bounds(s), x, y)
  }

  /** What the forEach callbacks return, one per saved shape, in order; forEach discards all of them. */
  function CallbackResults(shapes: seq<Shape>, x: int, y: int): (r: seq<bool>)
    ensures |r| == |shapes|
    ensures forall i :: 0 <= i < |r| ==> r[i] == HitCallback(shapes[i], x, y)
  {
    if shapes == [] then [] else [HitCallback(shapes[0], x, y)] + CallbackResults(shapes[1..], x, y)
  }

  /**
    checkShapeClick as written: the `return true` inside the callback leaves
    only the callback, whose result forEach drops, and the function then
    returns false.
   */
  function CheckShapeClick(shapes: seq<Shape>, x: int, y: int): (hit: bool)
    ensures !hit
  {
    var _ := CallbackResults(shapes, x, y);
    false
  }

  /** The intended hit test: some saved shape's bounds contain (x, y). */
  function ShapeAt(shapes: seq<Shape>, x: int, y: int): (r: bool)
    ensures r <==> exists i :: 0 <= i < |shapes| && InBox(Bounds(shapes[i]), x, y)
  {
    if shapes == [] then false
    else InBox(Bounds(shapes[0]), x, y) || ShapeAt(shapes[1..], x, y)
  }

  /**
    The callbacks do find every hit (one of them returns true exactly when
    the intended hit test holds), yet checkShapeClick reports no hit for any
    point and any saved list.
   */
  lemma HitTestDiscardsCallbackResult(shapes: seq<Shape>, x: int, y: int)
    ensures (true in CallbackResults(shapes, x, y)) <==> ShapeAt(shapes, x, y)
    ensures !CheckShapeClick(shapes, x, y)
  {
    var r := CallbackResults(shapes, x, y);
    if ShapeAt(shapes, x, y) {
      var i :| 0 <= i < |shapes| && InBox(Bounds(shapes[i]), x, y);
      assert r[i];
    }
  }

  /** A press inside a saved shape's bounds that checkShapeClick does not report. */
  lemma HitTestMissesShape()
    ensures var s := CreateShape("rect", 0, 0, 0, 10, 10, DRAWING_COLOR);
            ShapeAt([s], 5, 5) && !CheckShapeClick([s], 5, 5)
  {
    var s := CreateShape("rect", 0, 0, 0, 10, 10, DRAWING_COLOR);
    assert InBox(Bounds([s][0]), 5, 5);
  }

  // ---------------------------------------------------------------------
  // Rubber-band selection (SelectState.selectShapes)
  // ---------------------------------------------------------------------

  /** Strictly increasing positions: in saved order, each at most once. */
  predicate Increasing(s: seq<nat>) {
    forall j, k :: 0 <= j < k < |s| ==> s[j] < s[k]
  }

  /** Positions, in saved order, of the shapes whose bounds intersect the sweep box. */
  function SelectionOf(shapes: seq<Shape>, sweep: Box): (sel: seq<nat>)
    ensures forall k :: 0 <= k < |sel| ==> sel[k] < |shapes|
    decreases |shapes|
  {
    if shapes == [] then []
    else
      var n := |shapes| - 1;
      SelectionOf(shapes[..n], sweep) + (if Intersects(Bounds(shapes[n]), sweep) then [n] else [])
  }

  /**
    The selection holds exactly the positions of the intersecting shapes,
    in saved order and without repetition.
   */
  lemma {:induction false} SelectionOfExact(shapes: seq<Shape>, sweep: Box)
    ensures forall i: nat :: i in SelectionOf(shapes, sweep) <==> i < |shapes| && Intersects(Bounds(shapes[i]), sweep)
    ensures Increasing(SelectionOf(shapes, sweep))
    decreases |shapes|
  {
    if shapes != [] {
      var n := |shapes| - 1;
      var prefix := shapes[..n];
      SelectionOfExact(prefix, sweep);
      forall i: nat | i < n
        ensures shapes[i] == prefix[i]
      {
      }
    }
  }

  /** The intersecting shapes themselves, in saved order: a plain filter. */
  function Hits(shapes: seq<Shape>, sweep: Box): (hits: seq<Shape>)
  {
    if shapes == [] then []
    else (if Intersects(Bounds(shapes[0]), sweep) then [shapes[0]] else []) + Hits(shapes[1..], sweep)
  }

  lemma {:induction false} HitsAppend(shapes: seq<Shape>, s: Shape, sweep: Box)
    ensures Hits(shapes + [s], sweep) == Hits(shapes, sweep) + (if Intersects(Bounds(s), sweep) then [s] else [])
    decreases |shapes|
  {
    if shapes != [] {
      assert (shapes + [s])[1..] == shapes[1..] + [s];
      HitsAppend(shapes[1..], s, sweep);
    }
  }

  /** The shapes at the given positions, in the order of the positions. */
  function Pick(shapes: seq<Shape>, positions: seq<nat>): (r: seq<Shape>)
    requires forall k :: 0 <= k < |positions| ==> positions[k] < |shapes|
    ensures |r| == |positions|
    ensures forall k :: 0 <= k < |r| ==> r[k] == shapes[positions[k]]
  {
    seq(|positions|, k requires 0 <= k < |positions| => shapes[positions[k]])
  }

  /** Positions that lie in a prefix pick the same shapes from any extension of it. */
  lemma PickExtend(prefix: seq<Shape>, s: Shape, positions: seq<nat>)
    requires forall k :: 0 <= k < |positions| ==> positions[k] < |prefix|
    ensures Pick(prefix + [s], positions) == Pick(prefix, positions)
  {
    var lhs, rhs := Pick(prefix + [s], positions), Pick(prefix, positions);
    forall k | 0 <= k < |positions|
      ensures lhs[k] == rhs[k]
    {
    }
  }

  /** Picking one more position appends the shape found there. */
  lemma PickAppend(shapes: seq<Shape>, positions: seq<nat>, i: nat)
    requires forall k :: 0 <= k < |positions| ==> positions[k] < |shapes|
    requires i < |shapes|
    ensures Pick(shapes, positions + [i]) == Pick(shapes, positions) + [shapes[i]]
  {
  }

  /** Reading back the selected positions gives exactly the filter of the saved shapes. */
  lemma {:induction false} PickSelectionIsHits(shapes: seq<Shape>, sweep: Box)
    ensures forall k :: 0 <= k < |SelectionOf(shapes, sweep)| ==> SelectionOf(shapes, sweep)[k] < |shapes|
    ensures Pick(shapes, SelectionOf(shapes, sweep)) == Hits(shapes, sweep)
    decreases |shapes|
  {
    if shapes != [] {
      var n := |shapes| - 1;
      var prefix, last := shapes[..n], shapes[n];
      assert shapes == prefix + [last];
      PickSelectionIsHits(prefix, sweep);
      HitsAppend(prefix, last, sweep);
      var sel := SelectionOf(prefix, sweep);
      PickExtend(prefix, last, sel);
      if Intersects(Bounds(last), sweep) {
        PickAppend(shapes, sel, n);
      }
    }
  }

  /** Which corner the sweep starts from makes no difference to the selection. */
  lemma SelectionSymmetric(shapes: seq<Shape>, x0: int, y0: int, x1: int, y1: int)
    ensures SelectionOf(shapes, Span(x0, y0, x1, y1)) == SelectionOf(shapes, Span(x1, y1, x0, y0))
  {
    SpanSymmetric(x0, y0, x1, y1);
  }

  // ---------------------------------------------------------------------
  // The shared store together with the active state
  // ---------------------------------------------------------------------

  class CanvasViewModel {
    /** Committed shapes in draw order. */
    var saved: seq<Shape>
    /** The selected shapes, as positions in `saved` (each names the same shape object). */
    var selection: seq<nat>
    /** The shape type chosen in the toolbar. */
    var shapeType: string
    /** The active state object. */
    var state: InteractionState

    /**
      Shape ids are their positions (so unique), the selection names saved
      shapes in saved order, and a drawing preview exists only during a drag
      and carries the next id.
     */
    ghost predicate Valid()
      reads this
    {
      && (forall i :: 0 <= i < |saved| ==> saved[i].id == i)
      && (forall k :: 0 <= k < |selection| ==> selection[k] < |saved|)
      && Increasing(selection)
      && (state.Drawing? && state.d.drawingShape.Some? ==>
            state.d.drawing && state.d.drawingShape.value.id == |saved|)
    }

    /** A canvas with no shapes, starting in the drawing state. */
    constructor (shapeType: string)
      ensures Valid()
      ensures saved == [] && selection == [] && this.shapeType == shapeType
      ensures state == Initial(DrawMode)
    {
      saved := [];
      selection := [];
      this.shapeType := shapeType;
      state := Initial(DrawMode);
    }

    /**
      The selected shapes, in saved order: the k-th is the committed shape at
      the k-th selected position, and the positions strictly increase.
     */
    function GetSelectedShapes(): (r: seq<Shape>)
      reads this
      requires Valid()
      ensures |r| == |selection|
      ensures forall k :: 0 <= k < |r| ==> r[k] in saved
      ensures forall k :: 0 <= k < |r| ==> r[k] == saved[selection[k]]
    {
      Pick(saved, selection)
    }

    /**
      What the render surface draws: the committed shapes, followed by the
      preview exactly when a drawing drag with a preview is in progress.
     */
    function GetCurrentShapes(): (r: seq<Shape>)
      reads this
      ensures saved <= r && |r| <= |saved| + 1
      ensures |r| == |saved| + 1 <==> state.Drawing? && state.d.drawing && state.d.drawingShape.Some?
      ensures |r| == |saved| + 1 ==> state.Drawing? && r[|saved|] == state.d.drawingShape.value
    {
      match state
      case Drawing(d) =>
        if d.drawing then
          (if d.drawingShape.Some? then saved + [d.drawingShape.value] else saved)
        else saved
      case Selecting(_) => saved
      case Moving(_) => saved
    }

    // --- store operations ------------------------------------------------

    /** Appends a shape to the committed list. */
    method AddShape(s: Shape)
      modifies this
      ensures saved == old(saved) + [s]
      ensures selection == old(selection) && shapeType == old(shapeType) && state == old(state)
    {
      saved := saved + [s];
    }

    /** Empties the selection; the committed list is untouched. */
    method ClearSelectedShapes()
      modifies this
      ensures selection == []
      ensures saved == old(saved) && shapeType == old(shapeType) && state == old(state)
    {
      selection := [];
    }

    /** Adds the saved shape at position i to the selection. */
    method AddSelectedShape(i: nat)
      modifies this
      ensures selection == old(selection) + [i]
      ensures saved == old(saved) && shapeType == old(shapeType) && state == old(state)
    {
      selection := selection + [i];
    }

    /** Moves every selected shape by (dx, dy). */
    method MoveSelectedShapes(dx: int, dy: int)
      requires Valid()
      modifies this
      ensures Valid()
      ensures saved == Translated(old(saved), selection, dx, dy)
      ensures selection == old(selection) && shapeType == old(shapeType) && state == old(state)
    {
      saved := Translated(saved, selection, dx, dy);
    }

    /** Replaces the active state by a freshly constructed one. */
    method SetState(m: Mode)
      modifies this
      ensures state == Initial(m)
      ensures saved == old(saved) && selection == old(selection) && shapeType == old(shapeType)
    {
      state := Initial(m);
    }

    // --- DrawingState --------------------------------------------------------

    /**
      A press in the drawing state anchors a new drag at (x, y). Because the
      hit test never reports a hit, it never switches to the moving state,
      and it neither creates nor commits a shape.
     */
    method DrawingMouseDown(x: int, y: int)
      requires Valid() && state.Drawing?
      modifies this
      ensures Valid()
      ensures state == Drawing(old(state).d.(startX := x, startY := y, endX := x, endY := y, drawing := true))
      ensures saved == old(saved) && selection == old(selection) && shapeType == old(shapeType)
    {
      var d := state.d;
      // A hit would switch to a fresh moving state instead; CheckShapeClick never reports one.
      state := if CheckShapeClick(saved, x, y) then Initial(MoveMode)
               else Drawing(d.(startX := x, startY := y, endX := x, endY := y, drawing := true));
    }

    /**
      A move to a new point during a drag rebuilds the preview from the
      anchor to (x, y) with the next id; a move to the last recorded point,
      or outside a drag, changes nothing.
     */
    method DrawingMouseMove(x: int, y: int)
      requires Valid() && state.Drawing?
      modifies this
      ensures Valid()
      ensures saved == old(saved) && selection == old(selection) && shapeType == old(shapeType)
      ensures var d := old(state).d;
              (x == d.endX && y == d.endY) || !d.drawing ==> state == old(state)
      ensures var d := old(state).d;
              !(x == d.endX && y == d.endY) && d.drawing ==>
                state == Drawing(d.(endX := x, endY := y,
                  drawingShape := Some(CreateShape(shapeType, |saved|, d.startX, d.startY, x, y, DRAWING_COLOR))))
    {
      var d := state.d;
      if x == d.endX && y == d.endY {
        return;
      }
      if !d.drawing {
        return;
      }
      d := d.(endX := x, endY := y);
      var preview := CreateShape(shapeType, |saved|, d.startX, d.startY, d.endX, d.endY, DRAWING_COLOR);
      state := Drawing(d.(drawingShape := Some(preview)));
    }

    /**
      A release ends the drag: the preview, if any, is appended to the
      committed shapes and discarded. Outside a drag it changes nothing.
     */
    method DrawingMouseUp()
      requires Valid() && state.Drawing?
      modifies this
      ensures Valid()
      ensures selection == old(selection) && shapeType == old(shapeType)
      ensures var d := old(state).d;
              !d.drawing ==> saved == old(saved) && state == old(state)
      ensures var d := old(state).d;
              d.drawing && d.drawingShape.Some? ==>
                saved == old(saved) + [d.drawingShape.value] && state == Drawing(d.(drawing := false, drawingShape := None))
      ensures var d := old(state).d;
              d.drawing && d.drawingShape.None? ==>
                saved == old(saved) && state == Drawing(d.(drawing := false))
    {
      var d := state.d;
      if !d.drawing {
        return;
      }
      d := d.(drawing := false);
      state := Drawing(d);
      if d.drawingShape.Some? {
        AddShape(d.drawingShape.value);
        state := Drawing(d.(drawingShape := None));
      }
    }

    // --- SelectState ---------------------------------------------------------

    /** A press in the selection state empties the selection and starts a sweep at (x, y). */
    method SelectMouseDown(x: int, y: int)
      requires Valid() && state.Selecting?
      modifies this
      ensures Valid()
      ensures selection == []
      ensures state == Selecting(old(state).s.(startX := x, startY := y, endX := x, endY := y, selecting := true))
      ensures saved == old(saved) && shapeType == old(shapeType)
    {
      var s := state.s;
      s := s.(startX := x, startY := y, endX := x, endY := y);
      ClearSelectedShapes();
      state := Selecting(s.(selecting := true));
    }

    /**
      A move to a new point during a sweep recomputes the selection from
      scratch for the sweep from the anchor to (x, y); a move to the last
      recorded point, or while not sweeping, changes nothing.
     */
    method SelectMouseMove(x: int, y: int)
      requires Valid() && state.Selecting?
      modifies this
      ensures Valid()
      ensures saved == old(saved) && shapeType == old(shapeType)
      ensures var s := old(state).s;
              (x == s.endX && y == s.endY) || !s.selecting ==>
                state == old(state) && selection == old(selection)
      ensures var s := old(state).s;
              !(x == s.endX && y == s.endY) && s.selecting ==>
                && state == Selecting(s.(endX := x, endY := y))
                && selection == SelectionOf(saved, Span(s.startX, s.startY, x, y))
                && GetSelectedShapes() == Hits(saved, Span(s.startX, s.startY, x, y))
    {
      var s := state.s;
      if x == s.endX && y == s.endY {
        return;
      }
      if !s.selecting {
        return;
      }
      s := s.(endX := x, endY := y);
      state := Selecting(s);
      ClearSelectedShapes();
      SelectShapes(s.startX, s.startY, s.endX, s.endY);
    }

    /** A release in the selection state changes nothing: the sweep stays active and the selection is kept. */
    method SelectMouseUp()
      requires Valid() && state.Selecting?
      ensures Valid()
      ensures state == old(state) && saved == old(saved) && selection == old(selection)
    {
    }

    /**
      Replaces the selection by every saved shape whose bounds intersect the
      box swept from (startX, startY) to (endX, endY), edges included, in
      saved order.
     */
    method SelectShapes(startX: int, startY: int, endX: int, endY: int)
      requires Valid()
      modifies this
      ensures Valid()
      ensures selection == SelectionOf(saved, Span(startX, startY, endX, endY))
      ensures GetSelectedShapes() == Hits(saved, Span(startX, startY, endX, endY))
      ensures saved == old(saved) && shapeType == old(shapeType) && state == old(state)
    {
      ClearSelectedShapes();
      var sweep := Box(Min(startX, endX), Min(startY, endY), Max(startX, endX), Max(startY, endY));
      var i := 0;
      while i < |saved|
        invariant 0 <= i <= |saved|
        invariant saved == old(saved) && shapeType == old(shapeType) && state == old(state)
        invariant selection == SelectionOf(saved[..i], sweep)
      {
        var shape := saved[i];
        var bounds := Box(Min(shape.startX, shape.endX), Min(shape.startY, shape.endY),
                          Max(shape.startX, shape.endX), Max(shape.startY, shape.endY));
        if !(bounds.maxX < sweep.minX || sweep.maxX < bounds.minX) && !(bounds.maxY < sweep.minY || sweep.maxY < bounds.minY) {
          AddSelectedShape(i);
        }
        assert saved[..i + 1][..i] == saved[..i];
        i := i + 1;
      }
      assert saved[..i] == saved;
      SelectionOfExact(saved, sweep);
      PickSelectionIsHits(saved, sweep);
    }

    // --- MoveState -----------------------------------------------------------

    /**
      A press in the moving state anchors the drag at (x, y) and snapshots
      the selection; the last recorded point (endX, endY) is left as it was.
     */
    method MoveMouseDown(x: int, y: int)
      requires Valid() && state.Moving?
      modifies this
      ensures Valid()
      ensures state == Moving(old(state).m.(startX := x, startY := y, selectedShapes := Some(old(GetSelectedShapes())), moving := true))
      ensures saved == old(saved) && selection == old(selection) && shapeType == old(shapeType)
    {
      var m := state.m;
      m := m.(startX := x, startY := y);
      m := m.(selectedShapes := Some(GetSelectedShapes()));
      state := Moving(m.(moving := true));
    }

    /**
      A move to a new point during a drag translates the selection once by
      the anchor minus (x, y) and re-anchors at (x, y); while not moving, or
      at the last recorded point, it changes nothing.
     */
    method MoveMouseMove(x: int, y: int)
      requires Valid() && state.Moving?
      modifies this
      ensures Valid()
      ensures selection == old(selection) && shapeType == old(shapeType)
      ensures var m := old(state).m;
              !m.moving || (x == m.endX && y == m.endY) ==> state == old(state) && saved == old(saved)
      ensures var m := old(state).m;
              m.moving && !(x == m.endX && y == m.endY) ==>
                && state == Moving(m.(startX := x, startY := y, endX := x, endY := y))
                && saved == (if m.selectedShapes.Some?
                             then Translated(old(saved), selection, m.startX - x, m.startY - y)
                             else old(saved))
    {
      var m := state.m;
      if !m.moving {
        return;
      }
      if x == m.endX && y == m.endY {
        return;
      }
      m := m.(endX := x, endY := y);
      var dx := m.startX - m.endX;
      var dy := m.startY - m.endY;
      m := m.(startX := x, startY := y);
      state := Moving(m);
      if m.selectedShapes.Some? {
        MoveSelectedShapes(dx, dy);
      }
    }

    /** A release in the moving state always hands control to a fresh selection state. */
    method MoveMouseUp()
      requires Valid() && state.Moving?
      modifies this
      ensures Valid()
      ensures state == Initial(SelectMode)
      ensures saved == old(saved) && selection == old(selection) && shapeType == old(shapeType)
    {
      var m := state.m;
      state := Moving(m.(moving := false, selectedShapes := None));
      SetState(SelectMode);
    }

    // --- dispatch to the active state ---------------------------------------

    /**
      A press goes to the active state, which handles it as its own press
      handler does; no press changes which state is active or the committed
      shapes.
     */
    method HandleMouseDown(x: int, y: int)
      requires Valid()
      modifies this
      ensures Valid()
      ensures ModeOf(state) == ModeOf(old(state))
      ensures saved == old(saved) && shapeType == old(shapeType)
      ensures old(state).Drawing? ==>
                && selection == old(selection)
                && state == Drawing(old(state).d.(startX := x, startY := y, endX := x, endY := y, drawing := true))
      ensures old(state).Selecting? ==>
                && selection == []
                && state == Selecting(old(state).s.(startX := x, startY := y, endX := x, endY := y, selecting := true))
      ensures old(state).Moving? ==>
                && selection == old(selection)
                && state == Moving(old(state).m.(startX := x, startY := y, selectedShapes := Some(old(GetSelectedShapes())), moving := true))
    {
      match state
      case Drawing(_) => DrawingMouseDown(x, y);
      case Selecting(_) => SelectMouseDown(x, y);
      case Moving(_) => MoveMouseDown(x, y);
    }

    /**
      A move goes to the active state, which handles it as its own move
      handler does; it never changes which state is active, never adds or
      removes a committed shape and never changes an id.
     */
    method HandleMouseMove(x: int, y: int)
      requires Valid()
      modifies this
      ensures Valid()
      ensures ModeOf(state) == ModeOf(old(state)) && shapeType == old(shapeType)
      ensures |saved| == |old(saved)|
      ensures forall i :: 0 <= i < |saved| ==> saved[i].id == old(saved)[i].id
      ensures old(state).Drawing? ==>
                var d := old(state).d;
                && saved == old(saved) && selection == old(selection)
                && state == (if (x == d.endX && y == d.endY) || !d.drawing then old(state)
                             else Drawing(d.(endX := x, endY := y,
                                    drawingShape := Some(CreateShape(shapeType, |saved|, d.startX, d.startY, x, y, DRAWING_COLOR)))))
      ensures old(state).Selecting? ==>
                var s := old(state).s;
                && saved == old(saved)
                && ((x == s.endX && y == s.endY) || !s.selecting ==> state == old(state) && selection == old(selection))
                && (!(x == s.endX && y == s.endY) && s.selecting ==>
                      && state == Selecting(s.(endX := x, endY := y))
                      && selection == SelectionOf(saved, Span(s.startX, s.startY, x, y))
                      && GetSelectedShapes() == Hits(saved, Span(s.startX, s.startY, x, y)))
      ensures old(state).Moving? ==>
                var m := old(state).m;
                && selection == old(selection)
                && (!m.moving || (x == m.endX && y == m.endY) ==> state == old(state) && saved == old(saved))
                && (m.moving && !(x == m.endX && y == m.endY) ==>
                      && state == Moving(m.(startX := x, startY := y, endX := x, endY := y))
                      && saved == (if m.selectedShapes.Some?
                                   then Translated(old(saved), selection, m.startX - x, m.startY - y)
                                   else old(saved)))
    {
      match state
      case Drawing(_) => DrawingMouseMove(x, y);
      case Selecting(_) => SelectMouseMove(x, y);
      case Moving(_) => MoveMouseMove(x, y);
    }

    /**
      A release goes to the active state. Drawing commits its preview, if a
      drag with one is under way; selecting changes nothing; moving always
      gives way to a fresh selection state. Committed shapes are only ever
      appended to, never removed or changed.
     */
    method HandleMouseUp()
      requires Valid()
      modifies this
      ensures Valid()
      ensures selection == old(selection) && shapeType == old(shapeType)
      ensures !old(state).Moving? ==> ModeOf(state) == ModeOf(old(state))
      ensures old(saved) <= saved && |saved| <= |old(saved)| + 1
      ensures old(state).Drawing? ==>
                var d := old(state).d;
                && (!d.drawing ==> saved == old(saved) && state == old(state))
                && (d.drawing && d.drawingShape.Some? ==>
                      saved == old(saved) + [d.drawingShape.value] && state == Drawing(d.(drawing := false, drawingShape := None)))
                && (d.drawing && d.drawingShape.None? ==>
                      saved == old(saved) && state == Drawing(d.(drawing := false)))
      ensures old(state).Selecting? ==> state == old(state) && saved == old(saved)
      ensures old(state).Moving? ==> state == Initial(SelectMode) && saved == old(saved)
    {
      match state
      case Drawing(_) => DrawingMouseUp();
      case Selecting(_) => SelectMouseUp();
      case Moving(_) => MoveMouseUp();
    }
  }
}
