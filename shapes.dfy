/**
  Shapes as the canvas sees them: an identifier, an envelope given by two
  opposite corners (not normalised), a colour and a type tag. The shape
  factory and the store's translate operation are not part of this model;
  they are stood in for by CreateShape and Translated below.
 */
module Shapes {
  import opened Geometry

  datatype Option<T> = None | Some(value: T)

  /** A committed or preview shape; `kind` is the factory's type tag. */
  datatype Shape = Shape(id: int, startX: int, startY: int, endX: int, endY: int, color: string, kind: string)

  /** Stand-in for ShapeFactory.createShape: a shape carrying exactly the given fields. */
  function CreateShape(kind: string, id: int, startX: int, startY: int, endX: int, endY: int, color: string): (s: Shape)
    ensures s.id == id && s.color == color && s.kind == kind
    ensures s.startX == startX && s.startY == startY && s.endX == endX && s.endY == endY
    ensures Bounds(s) == Span(startX, startY, endX, endY)
  {
    Shape(id, startX, startY, endX, endY, color, kind)
  }

  /** The normalised bounding box of a shape's envelope. */
  function Bounds(s: Shape): (b: Box)
    ensures Normal(b)
    ensures InBox(b, s.startX, s.startY) && InBox(b, s.endX, s.endY)
    ensures (b.minX == s.startX || b.minX == s.endX) && (b.maxX == s.startX || b.maxX == s.endX)
    ensures (b.minY == s.startY || b.minY == s.endY) && (b.maxY == s.startY || b.maxY == s.endY)
  {
    Span(s.startX, s.startY, s.endX, s.endY)
  }

  /** A box moved by (dx, dy). */
  function Shift(b: Box, dx: int, dy: int): (moved: Box) {
    Box(b.minX + dx, b.minY + dy, b.maxX + dx, b.maxY + dy)
  }

  /** The shape moved by (dx, dy): same identity, colour and type, each corner moved. */
  function Translate(s: Shape, dx: int, dy: int): (t: Shape)
    ensures t.id == s.id && t.color == s.color && t.kind == s.kind
    ensures t.startX == s.startX + dx && t.startY == s.startY + dy && t.endX == s.endX + dx && t.endY == s.endY + dy
  {
    s.(startX := s.startX + dx, startY := s.startY + dy, endX := s.endX + dx, endY := s.endY + dy)
  }

  /** A moved shape's bounding box is the original box moved by the same delta. */
  lemma TranslateShiftsBounds(s: Shape, dx: int, dy: int)
    ensures Bounds(Translate(s, dx, dy)) == Shift(Bounds(s), dx, dy)
  {
  }

  /**
    The store's moveSelectedShapes, as assumed here: the shapes at the
    selected positions move by (dx, dy) on all four envelope coordinates,
    keeping id, colour and type; every other shape is untouched.
   */
  function Translated(shapes: seq<Shape>, selected: seq<nat>, dx: int, dy: int): (r: seq<Shape>)
    ensures |r| == |shapes|
    ensures forall i :: 0 <= i < |r| ==> r[i].id == shapes[i].id
    ensures forall i :: 0 <= i < |r| && i !in selected ==> r[i] == shapes[i]
    ensures forall i :: 0 <= i < |r| && i in selected ==> r[i] == Translate(shapes[i], dx, dy)
  {
    seq(|shapes|, i requires 0 <= i < |shapes| => if i in selected then Translate(shapes[i], dx, dy) else shapes[i])
  }

  /** Moving a shape twice is moving it once by the summed delta. */
  lemma TranslateTwice(s: Shape, dx0: int, dy0: int, dx1: int, dy1: int)
    ensures Translate(Translate(s, dx0, dy0), dx1, dy1) == Translate(s, dx0 + dx1, dy0 + dy1)
  {
  }

  /** A move by (0, 0) changes nothing. */
  lemma TranslatedZero(shapes: seq<Shape>, selected: seq<nat>)
    ensures Translated(shapes, selected, 0, 0) == shapes
  {
    var r := Translated(shapes, selected, 0, 0);
    forall i | 0 <= i < |shapes|
      ensures r[i] == shapes[i]
    {
    }
  }

  /** Two moves of the same selection are one move by the summed delta. */
  lemma TranslatedComposes(shapes: seq<Shape>, selected: seq<nat>, dx0: int, dy0: int, dx1: int, dy1: int)
    ensures Translated(Translated(shapes, selected, dx0, dy0), selected, dx1, dy1)
         == Translated(shapes, selected, dx0 + dx1, dy0 + dy1)
  {
    var mid := Translated(shapes, selected, dx0, dy0);
    var lhs := Translated(mid, selected, dx1, dy1);
    var rhs := Translated(shapes, selected, dx0 + dx1, dy0 + dy1);
    forall i | 0 <= i < |shapes|
      ensures lhs[i] == rhs[i]
    {
      if i in selected {
        TranslateTwice(shapes[i], dx0, dy0, dx1, dy1);
      }
    }
  }
}
