/** Screen and world coordinates of the whiteboard.

    The canvas camera only pans: there is no zoom and no rotation, so a world
    point is painted at its coordinates plus the pan offset, and a pointer
    position is mapped back into the world by subtracting the offset.
    Coordinates are exact reals; the source's Python floats are not modelled.
 */
module Geometry {

  datatype Point = Point(x: real, y: real)

  const Origin := Point(0.0, 0.0)

  function Plus(p: Point, q: Point): Point {
    Point(p.x + q.x, p.y + q.y)
  }

  function Minus(p: Point, q: Point): Point {
    Point(p.x - q.x, p.y - q.y)
  }

  /** Where the painter puts a world point: the offset is added at draw time. */
  function WorldToScreen(offset: Point, w: Point): Point {
    Plus(w, offset)
  }

  /** The world point under a screen position (the camera offset taken off). */
  function ScreenToWorld(offset: Point, s: Point): (w: Point)
    ensures WorldToScreen(offset, w) == s
  {
    Minus(s, offset)
  }

  lemma WorldScreenRoundTrip(offset: Point, w: Point)
    ensures ScreenToWorld(offset, WorldToScreen(offset, w)) == w
  {
  }

  /** A whole pointer path mapped into the world, position by position. */
  function ToWorld(offset: Point, ps: seq<Point>): (ws: seq<Point>)
    ensures |ws| == |ps|
    ensures forall i :: 0 <= i < |ps| ==> WorldToScreen(offset, ws[i]) == ps[i]
  {
    seq(|ps|, i requires 0 <= i < |ps| => ScreenToWorld(offset, ps[i]))
  }

  /** A stored stroke's points as the painter places them on screen. */
  function ToScreen(offset: Point, ws: seq<Point>): (ps: seq<Point>)
    ensures |ps| == |ws|
    ensures forall i :: 0 <= i < |ws| ==> ScreenToWorld(offset, ps[i]) == ws[i]
  {
    seq(|ws|, i requires 0 <= i < |ws| => WorldToScreen(offset, ws[i]))
  }

  /** Painting a path that was recorded under the same offset reproduces the
      pointer positions exactly. */
  lemma PathRoundTrip(offset: Point, ps: seq<Point>)
    ensures ToScreen(offset, ToWorld(offset, ps)) == ps
  {
  }

  /** Mapping a path is compositional over concatenation. */
  lemma ToWorldAppend(offset: Point, ps: seq<Point>, qs: seq<Point>)
    ensures ToWorld(offset, ps + qs) == ToWorld(offset, ps) + ToWorld(offset, qs)
  {
  }

  /** Mapping a path point by point: the first position, then the rest. */
  lemma ToWorldCons(offset: Point, prefix: seq<Point>, ps: seq<Point>)
    requires |ps| > 0
    ensures (prefix + [ScreenToWorld(offset, ps[0])]) + ToWorld(offset, ps[1..]) == prefix + ToWorld(offset, ps)
  {
  }

  /** Before any pan, world and screen coordinates coincide. */
  lemma ToWorldOrigin(ps: seq<Point>)
    ensures ToWorld(Origin, ps) == ps
  {
  }

  /** One panning step: the offset moves by the pointer's displacement from
      the pan anchor.  The world point that was under the anchor is then
      under the pointer, which is what makes panning a "grab and drag". */
  function PanStep(offset: Point, anchor: Point, pointer: Point): (o: Point)
    ensures Minus(o, offset) == Minus(pointer, anchor)
    ensures ScreenToWorld(o, pointer) == ScreenToWorld(offset, anchor)
  {
    Plus(offset, Minus(pointer, anchor))
  }
}
