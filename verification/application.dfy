/** The application-level mode toggles of the whiteboard: eraser mode, brush
    size and dark mode.  They act on the whole session state, which pairs the
    drawing area with the application's colour and mode fields.
 */
module Application {
  import opened Geometry
  import opened Canvas

  datatype State = State(board: Board, app: Settings)

  /** Light mode, drawing in black, eraser off, brush size 3, nothing drawn. */
  const Initial := State(InitialBoard, Settings(White, Black, false, false))

  /** The range of the brush-size slider, in steps of one. */
  const MinBrushSize := 1
  const MaxBrushSize := 50

  /** The colours dark mode imposes: white on black, and black on white when light. */
  predicate PaletteFits(app: Settings) {
    && (app.darkMode ==> app.bgColor == Black && app.brushColor == White)
    && (!app.darkMode ==> app.bgColor == White && app.brushColor == Black)
  }

  /** Flips eraser mode; nothing else changes. */
  function OnToggleEraser(s: State): (r: State)
    ensures r.app.eraserMode != s.app.eraserMode
    ensures r.board == s.board
    ensures r.app.bgColor == s.app.bgColor && r.app.brushColor == s.app.brushColor
    ensures r.app.darkMode == s.app.darkMode
  {
    s.(app := s.app.(eraserMode := !s.app.eraserMode))
  }

  lemma ToggleEraserTwice(s: State)
    ensures OnToggleEraser(OnToggleEraser(s)) == s
  {
  }

  /** The slider's value truncated to a whole size; nothing else changes. */
  function OnBrushSizeChanged(s: State, value: real): (r: State)
    requires MinBrushSize as real <= value <= MaxBrushSize as real
    ensures MinBrushSize <= r.board.brushSize <= MaxBrushSize
    ensures r.board.brushSize as real <= value < r.board.brushSize as real + 1.0
    ensures r.app == s.app
    ensures r.board.strokes == s.board.strokes && r.board.draft == s.board.draft
    ensures r.board.offset == s.board.offset
    ensures r.board.panning == s.board.panning && r.board.panStart == s.board.panStart
  {
    s.(board := s.board.(brushSize := value.Floor))
  }

  /** Every eraser stroke takes the given background colour; other strokes,
      and every point and size, are kept. */
  function RecolorErasers(strokes: seq<Stroke>, bg: Color): (r: seq<Stroke>)
    ensures |r| == |strokes|
    ensures forall i :: 0 <= i < |r| ==>
      && r[i].points == strokes[i].points
      && r[i].size == strokes[i].size
      && r[i].isEraser == strokes[i].isEraser
      && (r[i].isEraser ==> r[i].color == bg)
      && (!r[i].isEraser ==> r[i] == strokes[i])
  {
    seq(|strokes|, i requires 0 <= i < |strokes| =>
      if strokes[i].isEraser then strokes[i].(color := bg) else strokes[i])
  }

  /** Eraser strokes that already have the background colour are left as they are. */
  lemma RecolorErasersFixed(strokes: seq<Stroke>, bg: Color)
    requires forall i :: 0 <= i < |strokes| && strokes[i].isEraser ==> strokes[i].color == bg
    ensures RecolorErasers(strokes, bg) == strokes
  {
  }

  /** Flips dark mode, sets the palette to match, and recolours the committed
      eraser strokes with the new background.  The stroke in progress is not
      recoloured. */
  function OnToggleDarkMode(s: State): (r: State)
    ensures r.app.darkMode != s.app.darkMode
    ensures PaletteFits(r.app)
    ensures r.app.eraserMode == s.app.eraserMode
    ensures |r.board.strokes| == |s.board.strokes|
    ensures forall i :: 0 <= i < |r.board.strokes| ==>
      && r.board.strokes[i].points == s.board.strokes[i].points
      && r.board.strokes[i].size == s.board.strokes[i].size
      && r.board.strokes[i].isEraser == s.board.strokes[i].isEraser
      && (r.board.strokes[i].isEraser ==> r.board.strokes[i].color == r.app.bgColor)
      && (!r.board.strokes[i].isEraser ==> r.board.strokes[i] == s.board.strokes[i])
    ensures r.board.draft == s.board.draft
    ensures SameView(r.board, s.board)
  {
    var dark := !s.app.darkMode;
    var bg := if dark then Black else White;
    var brush := if dark then White else Black;
    State(s.board.(strokes := RecolorErasers(s.board.strokes, bg)),
          s.app.(darkMode := dark, bgColor := bg, brushColor := brush))
  }

  /** Toggling dark mode twice restores the colours and the mode. */
  lemma ToggleDarkTwiceColors(s: State)
    requires PaletteFits(s.app)
    ensures OnToggleDarkMode(OnToggleDarkMode(s)).app == s.app
  {
  }

  /** Every eraser stroke, committed or in progress, shows the background. */
  predicate ErasersMatchBackground(s: State) {
    && (forall i :: 0 <= i < |s.board.strokes| && s.board.strokes[i].isEraser ==>
          s.board.strokes[i].color == s.app.bgColor)
    && (s.board.draft.Some? && s.board.draft.value.isEraser ==>
          s.board.draft.value.color == s.app.bgColor)
  }

  /** The session's colours are coherent: the palette fits the mode and the
      eraser strokes show the background. */
  predicate Coherent(s: State) {
    PaletteFits(s.app) && ErasersMatchBackground(s)
  }

  lemma InitialCoherent()
    ensures Coherent(Initial)
  {
  }

  /** In a coherent session, toggling dark mode twice restores the whole state. */
  lemma ToggleDarkTwice(s: State)
    requires Coherent(s)
    ensures OnToggleDarkMode(OnToggleDarkMode(s)) == s
  {
  }
}
