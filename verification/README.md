# Whiteboard canvas interaction, modelled in Dafny

This project models the interaction core of the `aboard` whiteboard
(`main.py`). A user draws freehand strokes with button 1 and pans the camera
with button 3. Toolbar actions clear the board, toggle eraser mode, toggle dark
mode and set the brush size.

The model is an event-driven state machine over immutable values:

- `Geometry` (geometry.dfy): points with exact `real` coordinates. It holds the
  screen/world mapping (a world point is painted at itself plus the pan offset)
  and one panning step.
- `Canvas` (canvas.dfy): the drawing area (`WhiteboardArea`). A `Board` holds
  the committed strokes, the stroke in progress (`draft`), the brush size, the
  pan offset, the panning flag and the pan anchor. The three pointer handlers
  are pure functions. They read the application's colours and eraser mode
  (`Settings`) but can only return a new `Board`. Their `Reply.stop` flag is
  the toolkit answer: true means the event is consumed, false means it is
  passed on.
- `Application` (application.dfy): the session `State` (board plus
  `Settings`) and the toolbar handlers of `WhiteboardApp`: eraser toggle,
  brush-size change and dark-mode toggle. The dark-mode toggle recolours
  committed eraser strokes.
- `Interaction` (interaction.dfy): the `Event` type, one `Step` per event,
  `Run` over event sequences, and lemmas about whole gestures and about
  invariants every event keeps.

Python's in-place mutation of the stroke dictionaries is modelled with value
semantics. This is faithful because the source never shares one dictionary
between the draft and the committed list. On release, the draft is appended
and the draft reference is then dropped.

The dark-mode toggle recolours only committed strokes, never the stroke in
progress. An eraser stroke started in light mode and released after a switch
to dark mode is therefore committed in the old background colour.
`Interaction.StaleEraserDraft` exhibits this. "Eraser strokes show the
background" (`Application.Coherent`) is kept by every event except a dark-mode
toggle during an eraser stroke (`Interaction.StepPreservesCoherent`). So an
eraser stroke's colour need not equal the background when it is committed.

## Model

| member | source | states |
|---|---|---|
| Geometry.ScreenToWorld | main.py:40-42 | the world point under a screen position is painted back at that position |
| Geometry.WorldScreenRoundTrip | main.py:67-69 | mapping a painted world point back to the world gives the point itself |
| Geometry.ToWorld | main.py:127-128 | a pointer path mapped into the world has one point per position, each painted back at its position |
| Geometry.ToScreen | main.py:67-69 | painting a stored stroke gives one screen point per world point, each mapping back to its world point |
| Geometry.PathRoundTrip | main.py:67-69 | painting a path recorded under the same offset reproduces the pointer positions exactly |
| Geometry.ToWorldOrigin | main.py:21-22 | with the initial zero offset, world and screen coordinates coincide |
| Geometry.PanStep | main.py:116-119 | a pan step moves the offset by pointer minus anchor; the world point under the anchor ends up under the pointer |
| Canvas.Clear | main.py:35-38 | clear empties the strokes and drops the draft; offset, pan state and brush size are kept |
| Canvas.InkColor | main.py:98-102 | a new stroke takes one of the two app colours; while they differ, it takes the background colour (and is invisible) exactly when eraser mode is on |
| Canvas.OnButtonPress | main.py:88-112 | button 3 starts a pan at the pointer and keeps the drawing; button 1 without a pan starts a one-point draft under the pointer with the ink colour, brush size and eraser flag; any other press changes nothing and is passed on |
| Canvas.OnMotion | main.py:114-132 | while panning the offset grows by pointer minus anchor, the anchor moves to the pointer, and strokes and draft are unchanged; with button 1 held the draft gains exactly one point at its end, under the pointer, and keeps its earlier points, colour, size and flag; otherwise nothing changes and the event is passed on |
| Canvas.OnButtonRelease | main.py:134-147 | button 3 clears only the panning flag; button 1 with a draft appends it at the end of the strokes, keeps the earlier strokes, and drops the draft; otherwise nothing changes and the event is passed on |
| Canvas.InitialWellFormed | main.py:16-17 | a new board has no empty stroke |
| Canvas.ReleaseCommitsDraft | main.py:140-145 | on a well-formed board the emptiness test never fails, so a button-1 release always commits the draft |
| Canvas.PressPreservesWellFormed | main.py:103-108 | a press never creates an empty draft |
| Canvas.MotionPreservesWellFormed | main.py:125-130 | motions only add points to the draft |
| Canvas.ReleasePreservesWellFormed | main.py:140-145 | a release commits only non-empty strokes |
| Canvas.PanDrag | main.py:115-121 | during a pan, a run of motions moves the offset by the last position minus the anchor; strokes, draft and brush size are unchanged |
| Canvas.DrawStep | main.py:125-128 | one motion with button 1 held and no pan appends the world point under the pointer to the draft |
| Canvas.DrawDrag | main.py:125-130 | with button 1 held and no pan, a run of motions appends the world points of the path to the draft, in order, and changes nothing else |
| Application.OnToggleEraser | main.py:341-342 | the eraser toggle flips eraser mode and changes nothing else |
| Application.ToggleEraserTwice | main.py:341-342 | toggling eraser mode twice restores the state |
| Application.OnBrushSizeChanged | main.py:348-350 | the brush size becomes the slider value truncated to a whole number in 1..50; nothing else changes |
| Application.RecolorErasers | main.py:365-368 | every eraser stroke takes the new background colour; other strokes, and all points and sizes, are unchanged |
| Application.RecolorErasersFixed | main.py:366-368 | recolouring strokes whose eraser strokes already show the background changes nothing |
| Application.OnToggleDarkMode | main.py:353-369 | dark mode flips, the palette becomes white on black (or black on white), committed eraser strokes take the new background, other strokes and the draft are unchanged |
| Application.ToggleDarkTwiceColors | main.py:353-362 | toggling dark mode twice restores the mode and both colours |
| Application.InitialCoherent | main.py:154-158 | the session starts in light mode, black on white, with no eraser stroke out of colour |
| Application.ToggleDarkTwice | main.py:353-368 | in a coherent session, toggling dark mode twice restores the whole state |
| Interaction.Step | main.py:27-30 | pointer events and clear leave the application fields alone; toolbar toggles leave the draft alone |
| Interaction.StepPreservesWellFormed | main.py:88-147 | no single event can leave an empty stroke on the board |
| Interaction.RunPreservesWellFormed | main.py:103-145 | no event sequence can commit a stroke without points |
| Interaction.ReachableWellFormed | main.py:16-17 | every session reached from start has only non-empty strokes |
| Interaction.StepKeepsPalette | main.py:353-362 | no event breaks the rule that the colours are white on black in dark mode and black on white otherwise |
| Interaction.RunKeepsPalette | main.py:353-362 | over any event sequence the colours keep fitting the mode |
| Interaction.ReachablePaletteFits | main.py:154-157 | every session reached from start has colours that fit its mode, so toggling dark mode twice restores them |
| Interaction.StepKeepsHistory | main.py:140-145 | any event other than clear or dark-mode keeps the committed strokes as a prefix and adds at most one |
| Interaction.RunKeepsHistory | main.py:140-145 | over a run without clear or dark-mode, earlier strokes keep their order and contents, and at most one is added per event |
| Interaction.StepPreservesCoherent | main.py:99-107 | eraser strokes keep the background colour under every event except a dark-mode toggle during an eraser stroke |
| Interaction.StaleEraserDraft | main.py:364-368 | an eraser stroke started in light mode and released after switching to dark mode is committed white on black |
| Interaction.RunMoves | main.py:114-123 | a run of motion events changes only the board, as a drag along the path |
| Interaction.PanGesture | main.py:88-138 | a whole pan gesture moves the offset by the last pointer position minus the press position (not at all when there was no motion), ends the pan, and keeps strokes, draft, brush and colours |
| Interaction.DrawGesture | main.py:96-145 | a whole stroke gesture without a pan commits one stroke at the end; its points are the world points of the press and every motion, painted back exactly at those positions; it has the ink colour, brush size and eraser flag of the mode |
| Interaction.FirstStroke | main.py:18-22 | on a fresh session, a stroke gesture commits one black stroke of size 3 whose points are the pointer positions themselves |

## Left out

- Painting (`on_draw`, main.py:44-86): these are Cairo calls. The model keeps
  only the coordinate mapping it uses (`Geometry.ToScreen`). A stroke with
  fewer than two points is painted as a dot, a longer one as a polyline.
- Toolkit plumbing: widget construction, CSS, icons, menus, sidebar toggling,
  the About dialog, cursor changes, `queue_draw` and the size label text. None
  of these holds state the canvas reads.
- Application.OnBrushSizeChanged: the slider's 1..50 range is enforced by the
  widget, not by the code. The model takes it as a precondition.
- Coordinates are exact reals. Python floating-point rounding of the
  offset sums is not modelled.
- `on_clear` and the dark-mode toggle check that the board exists. The board
  is created when the application activates, so the model always has one.
- The `is_eraser` default of `stroke.get` is not modelled. Every stroke the
  code creates carries the key.
