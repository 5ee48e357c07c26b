/** The drawing area of the whiteboard: committed strokes, the stroke being
    drawn, the pan camera and the brush size, together with the pointer
    handlers that change them.

    Each handler is a pure transition from one board to the next.  The
    application-level fields the handlers read (background and brush colours,
    eraser mode) are passed in as `Settings`; the handlers return only a
    `Board`, so they cannot change those fields.  The `stop` flag of a
    `Reply` is the handler's answer to the toolkit: true when the event is
    consumed, false when it is passed on.
 */
module Canvas {
  import opened Geometry

  datatype Option<T> = None | Some(value: T)

  /** A colour as three channels in [0, 1]. */
  datatype Color = Rgb(r: real, g: real, b: real)

  const White := Rgb(1.0, 1.0, 1.0)
  const Black := Rgb(0.0, 0.0, 0.0)

  /** A freehand stroke; its points are in world coordinates, in drawing order. */
  datatype Stroke = Stroke(points: seq<Point>, color: Color, size: int, isEraser: bool)

  /** The application-level modes the drawing area reads. */
  datatype Settings = Settings(bgColor: Color, brushColor: Color, eraserMode: bool, darkMode: bool)

  datatype Board = Board(
    strokes: seq<Stroke>,
    draft: Option<Stroke>,
    brushSize: int,
    offset: Point,
    panning: bool,
    panStart: Point)

  datatype Reply = Reply(board: Board, stop: bool)

  /** Toolkit button numbers: 1 draws, 3 pans. */
  const DrawButton := 1
  const PanButton := 3

  const InitialBrushSize := 3

  const InitialBoard := Board([], None, InitialBrushSize, Origin, false, Origin)

  /** Two boards show the same camera and brush: everything but the drawing. */
  predicate SameView(a: Board, b: Board) {
    a.brushSize == b.brushSize && a.offset == b.offset
    && a.panning == b.panning && a.panStart == b.panStart
  }

  /** Erases the drawing: no committed strokes and no stroke in progress. */
  function Clear(b: Board): (r: Board)
    ensures r.strokes == [] && r.draft.None?
    ensures SameView(r, b)
  {
    b.(strokes := [], draft := None)
  }

  /** The colour a new stroke gets.  While the two colours differ, a new
      stroke is painted in the background colour, and so is invisible,
      exactly when erasing; otherwise it is painted in one of the two. */
  function InkColor(app: Settings): (c: Color)
    ensures app.bgColor != app.brushColor ==> (c == app.bgColor <==> app.eraserMode)
    ensures c == app.bgColor || c == app.brushColor
  {
    if app.eraserMode then app.bgColor else app.brushColor
  }

  /** Button press.  Button 3 starts a pan anchored at the pointer; button 1,
      unless a pan is in progress, starts a new stroke holding the single world
      point under the pointer (any stroke already in progress is dropped).
      Anything else is passed on untouched. */
  function OnButtonPress(b: Board, app: Settings, button: int, pos: Point): (r: Reply)
    ensures button == PanButton ==>
      r.stop && r.board.panning && r.board.panStart == pos
      && r.board.strokes == b.strokes && r.board.draft == b.draft
      && r.board.offset == b.offset && r.board.brushSize == b.brushSize
    ensures button == DrawButton && !b.panning ==>
      && r.stop
      && r.board.draft.Some?
      && |r.board.draft.value.points| == 1
      && WorldToScreen(b.offset, r.board.draft.value.points[0]) == pos
      && r.board.draft.value.size == b.brushSize
      && r.board.draft.value.isEraser == app.eraserMode
      && (app.eraserMode ==> r.board.draft.value.color == app.bgColor)
      && (!app.eraserMode ==> r.board.draft.value.color == app.brushColor)
      && r.board.strokes == b.strokes
      && SameView(r.board, b)
    ensures button != PanButton && (button != DrawButton || b.panning) ==>
      !r.stop && r.board == b
  {
    if button == PanButton then
      Reply(b.(panning := true, panStart := pos), true)
    else if button == DrawButton && !b.panning then
      var w := ScreenToWorld(b.offset, pos);
      Reply(b.(draft := Some(Stroke([w], InkColor(app), b.brushSize, app.eraserMode))), true)
    else
      Reply(b, false)
  }

  /** Pointer motion.  While panning, the camera follows the pointer and the
      anchor moves to it; the drawing is untouched.  Otherwise, with button 1
      held, the world point under the pointer is appended to the stroke in
      progress (every motion adds a point, repeated positions included). */
  function OnMotion(b: Board, pos: Point, button1Held: bool): (r: Reply)
    ensures b.panning ==>
      && r.stop
      && Minus(r.board.offset, b.offset) == Minus(pos, b.panStart)
      && ScreenToWorld(r.board.offset, pos) == ScreenToWorld(b.offset, b.panStart)
      && r.board.panStart == pos && r.board.panning
      && r.board.strokes == b.strokes && r.board.draft == b.draft
      && r.board.brushSize == b.brushSize
    ensures !b.panning && button1Held ==>
      && r.stop
      && r.board.strokes == b.strokes
      && SameView(r.board, b)
      && (b.draft.None? ==> r.board.draft.None?)
      && (b.draft.Some? ==>
            && r.board.draft.Some?
            && var d, d' := b.draft.value, r.board.draft.value;
            && |d'.points| == |d.points| + 1
            && d'.points[..|d.points|] == d.points
            && WorldToScreen(b.offset, d'.points[|d.points|]) == pos
            && d'.color == d.color && d'.size == d.size && d'.isEraser == d.isEraser)
    ensures !b.panning && !button1Held ==> !r.stop && r.board == b
  {
    if b.panning then
      Reply(b.(offset := PanStep(b.offset, b.panStart, pos), panStart := pos), true)
    else if button1Held then
      match b.draft
      case None => Reply(b, true)
      case Some(d) =>
        var w := ScreenToWorld(b.offset, pos);
        Reply(b.(draft := Some(d.(points := d.points + [w]))), true)
    else
      Reply(b, false)
  }

  /** Button release.  Button 3 ends the pan and nothing else.  Button 1 with
      a stroke in progress commits it at the end of the stroke list (when it
      has a point) and leaves no stroke in progress. */
  function OnButtonRelease(b: Board, button: int): (r: Reply)
    ensures button == PanButton ==>
      r.stop && !r.board.panning
      && r.board.strokes == b.strokes && r.board.draft == b.draft
      && r.board.offset == b.offset && r.board.panStart == b.panStart
      && r.board.brushSize == b.brushSize
    ensures button == DrawButton && b.draft.Some? ==>
      && r.stop
      && r.board.draft.None?
      && SameView(r.board, b)
      && (|b.draft.value.points| > 0 ==>
            && |r.board.strokes| == |b.strokes| + 1
            && r.board.strokes[..|b.strokes|] == b.strokes
            && r.board.strokes[|b.strokes|] == b.draft.value)
      && (|b.draft.value.points| == 0 ==> r.board.strokes == b.strokes)
    ensures button != PanButton && (button != DrawButton || b.draft.None?) ==>
      !r.stop && r.board == b
  {
    if button == PanButton then
      Reply(b.(panning := false), true)
    else if button == DrawButton && b.draft.Some? then
      var committed := if |b.draft.value.points| > 0 then b.strokes + [b.draft.value] else b.strokes;
      Reply(b.(strokes := committed, draft := None), true)
    else
      Reply(b, false)
  }

  /** Every committed stroke, and the stroke in progress, has a point. */
  predicate WellFormed(b: Board) {
    && (forall i :: 0 <= i < |b.strokes| ==> |b.strokes[i].points| > 0)
    && (b.draft.Some? ==> |b.draft.value.points| > 0)
  }

  lemma InitialWellFormed()
    ensures WellFormed(InitialBoard)
  {
  }

  /** A stroke in progress always has a point, so releasing button 1 never
      discards it: the emptiness test before the commit never fails. */
  lemma ReleaseCommitsDraft(b: Board)
    requires WellFormed(b) && b.draft.Some?
    ensures OnButtonRelease(b, DrawButton).board.strokes == b.strokes + [b.draft.value]
  {
  }

  lemma PressPreservesWellFormed(b: Board, app: Settings, button: int, pos: Point)
    requires WellFormed(b)
    ensures WellFormed(OnButtonPress(b, app, button, pos).board)
  {
  }

  lemma MotionPreservesWellFormed(b: Board, pos: Point, button1Held: bool)
    requires WellFormed(b)
    ensures WellFormed(OnMotion(b, pos, button1Held).board)
  {
  }

  lemma ReleasePreservesWellFormed(b: Board, button: int)
    requires WellFormed(b)
    ensures WellFormed(OnButtonRelease(b, button).board)
  {
  }

  /** The board after a run of pointer motions along a path. */
  function Drag(b: Board, ps: seq<Point>, button1Held: bool): Board
    decreases |ps|
  {
    if |ps| == 0 then b else Drag(OnMotion(b, ps[0], button1Held).board, ps[1..], button1Held)
  }

  /** While panning, a drag moves the camera by the pointer's total
      displacement from the anchor and leaves the drawing alone. */
  lemma {:induction false} PanDrag(b: Board, ps: seq<Point>, button1Held: bool)
    requires b.panning && |ps| > 0
    ensures var t := Drag(b, ps, button1Held);
      && Minus(t.offset, b.offset) == Minus(ps[|ps| - 1], b.panStart)
      && t.panStart == ps[|ps| - 1]
      && t.panning
      && t.strokes == b.strokes && t.draft == b.draft
      && t.brushSize == b.brushSize
    decreases |ps|
  {
    var b1 := OnMotion(b, ps[0], button1Held).board;
    if |ps| > 1 {
      PanDrag(b1, ps[1..], button1Held);
      assert ps[1..][|ps[1..]| - 1] == ps[|ps| - 1];
    }
  }

  /** One motion with button 1 held and no pan adds the world point under
      the pointer to the end of the stroke in progress. */
  lemma DrawStep(b: Board, pos: Point)
    requires !b.panning && b.draft.Some?
    ensures OnMotion(b, pos, true).board ==
      b.(draft := Some(b.draft.value.(points := b.draft.value.points + [ScreenToWorld(b.offset, pos)])))
  {
  }

  /** With button 1 held and no pan, a drag appends the world point under
      each pointer position to the stroke in progress, in order; nothing
      else on the board changes. */
  lemma {:induction false} DrawDrag(b: Board, ps: seq<Point>)
    requires !b.panning && b.draft.Some?
    ensures Drag(b, ps, true) ==
      b.(draft := Some(b.draft.value.(points := b.draft.value.points + ToWorld(b.offset, ps))))
    decreases |ps|
  {
    var d := b.draft.value;
    if |ps| == 0 {
      assert d.points + ToWorld(b.offset, ps) == d.points;
    } else {
      var b1 := b.(draft := Some(d.(points := d.points + [ScreenToWorld(b.offset, ps[0])])));
      DrawStep(b, ps[0]);
      DrawDrag(b1, ps[1..]);
      ToWorldCons(b.offset, d.points, ps);
    }
  }

  // Painting (not modelled) draws a stroke with fewer than two points as a
  // filled dot of diameter `size`, and a longer one as a polyline through
  // ToScreen(offset, points).
}
