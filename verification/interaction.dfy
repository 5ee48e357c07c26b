/** The whiteboard session as an event-driven state machine: every pointer
    event and toolbar action is one transition of the session state, and a
    sequence of events is run one after the other.  The lemmas here follow
    whole gestures (a pan, a stroke) and the invariants every event keeps.
 */
module Interaction {
  import opened Geometry
  import opened Canvas
  import opened Application

  datatype Event =
    | Press(button: int, pos: Point)
    | Motion(pos: Point, button1Held: bool)
    | Release(button: int)
    | ClearBoard
    | ToggleEraser
    | ToggleDark
    | BrushSizeChanged(value: real)

  /** The slider only delivers values in its range. */
  predicate Valid(ev: Event) {
    ev.BrushSizeChanged? ==> MinBrushSize as real <= ev.value <= MaxBrushSize as real
  }

  predicate AllValid(evs: seq<Event>) {
    forall i :: 0 <= i < |evs| ==> Valid(evs[i])
  }

  /** One event: pointer events go to the drawing area, which reads the
      application's colours; toolbar actions go to the application. */
  function Step(s: State, ev: Event): (r: State)
    requires Valid(ev)
    ensures ev.Press? || ev.Motion? || ev.Release? || ev.ClearBoard? ==> r.app == s.app
    ensures ev.ToggleEraser? || ev.ToggleDark? || ev.BrushSizeChanged? ==> r.board.draft == s.board.draft
  {
    match ev
    case Press(button, pos) => s.(board := OnButtonPress(s.board, s.app, button, pos).board)
    case Motion(pos, held) => s.(board := OnMotion(s.board, pos, held).board)
    case Release(button) => s.(board := OnButtonRelease(s.board, button).board)
    case ClearBoard => s.(board := Clear(s.board))
    case ToggleEraser => OnToggleEraser(s)
    case ToggleDark => OnToggleDarkMode(s)
    case BrushSizeChanged(value) => OnBrushSizeChanged(s, value)
  }

  function Run(s: State, evs: seq<Event>): State
    requires AllValid(evs)
    decreases |evs|
  {
    if |evs| == 0 then s else Run(Step(s, evs[0]), evs[1..])
  }

  /** Running a sequence that starts with one event is that event's step
      followed by the rest. */
  lemma RunCons(s: State, ev: Event, evs: seq<Event>)
    requires Valid(ev) && AllValid(evs)
    ensures AllValid([ev] + evs)
    ensures Run(s, [ev] + evs) == Run(Step(s, ev), evs)
  {
  }

  lemma {:induction false} RunAppend(s: State, a: seq<Event>, b: seq<Event>)
    requires AllValid(a) && AllValid(b)
    ensures AllValid(a + b)
    ensures Run(s, a + b) == Run(Run(s, a), b)
    decreases |a|
  {
    assert forall i :: 0 <= i < |a + b| ==> (a + b)[i] == if i < |a| then a[i] else b[i - |a|];
    if |a| > 0 {
      assert (a + b)[0] == a[0];
      assert (a + b)[1..] == a[1..] + b;
      assert AllValid(a[1..]) by {
        forall i | 0 <= i < |a[1..]| ensures Valid(a[1..][i]) {
          assert a[1..][i] == a[i + 1];
        }
      }
      RunAppend(Step(s, a[0]), a[1..], b);
    } else {
      assert a + b == b;
    }
  }

  /** Motion events following a pointer path, all with the given button state. */
  function Moves(ps: seq<Point>, held: bool): (evs: seq<Event>)
    ensures |evs| == |ps|
    ensures forall i :: 0 <= i < |ps| ==> evs[i] == Motion(ps[i], held)
    ensures AllValid(evs)
  {
    seq(|ps|, i requires 0 <= i < |ps| => Motion(ps[i], held))
  }

  // ---------------------------------------------------------------------------
  // Invariants kept by every event

  lemma StepPreservesWellFormed(s: State, ev: Event)
    requires Valid(ev) && WellFormed(s.board)
    ensures WellFormed(Step(s, ev).board)
  {
  }

  /** No event sequence can commit a stroke without points. */
  lemma {:induction false} RunPreservesWellFormed(s: State, evs: seq<Event>)
    requires AllValid(evs) && WellFormed(s.board)
    ensures WellFormed(Run(s, evs).board)
    decreases |evs|
  {
    if |evs| > 0 {
      StepPreservesWellFormed(s, evs[0]);
      assert AllValid(evs[1..]) by {
        forall i | 0 <= i < |evs[1..]| ensures Valid(evs[1..][i]) {
          assert evs[1..][i] == evs[i + 1];
        }
      }
      RunPreservesWellFormed(Step(s, evs[0]), evs[1..]);
    }
  }

  /** Every reachable session has only non-empty strokes. */
  lemma ReachableWellFormed(evs: seq<Event>)
    requires AllValid(evs)
    ensures WellFormed(Run(Initial, evs).board)
  {
    InitialWellFormed();
    RunPreservesWellFormed(Initial, evs);
  }

  /** Only the dark-mode toggle sets the colours, and it sets both to fit the mode. */
  lemma StepKeepsPalette(s: State, ev: Event)
    requires Valid(ev) && PaletteFits(s.app)
    ensures PaletteFits(Step(s, ev).app)
  {
  }

  lemma {:induction false} RunKeepsPalette(s: State, evs: seq<Event>)
    requires AllValid(evs) && PaletteFits(s.app)
    ensures PaletteFits(Run(s, evs).app)
    decreases |evs|
  {
    if |evs| > 0 {
      StepKeepsPalette(s, evs[0]);
      assert AllValid(evs[1..]) by {
        forall i | 0 <= i < |evs[1..]| ensures Valid(evs[1..][i]) {
          assert evs[1..][i] == evs[i + 1];
        }
      }
      RunKeepsPalette(Step(s, evs[0]), evs[1..]);
    }
  }

  /** Every reachable session draws white on black in dark mode and black on
      white otherwise, so toggling dark mode twice restores its colours. */
  lemma ReachablePaletteFits(evs: seq<Event>)
    requires AllValid(evs)
    ensures PaletteFits(Run(Initial, evs).app)
    ensures OnToggleDarkMode(OnToggleDarkMode(Run(Initial, evs))).app == Run(Initial, evs).app
  {
    InitialCoherent();
    RunKeepsPalette(Initial, evs);
    ToggleDarkTwiceColors(Run(Initial, evs));
  }

  /** Only clearing and the dark-mode toggle touch committed strokes: every
      other event keeps them as a prefix and adds at most one at the end. */
  predicate KeepsHistory(ev: Event) {
    !ev.ClearBoard? && !ev.ToggleDark?
  }

  lemma StepKeepsHistory(s: State, ev: Event)
    requires Valid(ev) && KeepsHistory(ev)
    ensures s.board.strokes <= Step(s, ev).board.strokes
    ensures |Step(s, ev).board.strokes| <= |s.board.strokes| + 1
  {
  }

  /** Over any run without clearing or dark-mode toggles, the strokes
      committed before it keep their order and contents, and each event
      commits at most one more. */
  lemma {:induction false} RunKeepsHistory(s: State, evs: seq<Event>)
    requires AllValid(evs)
    requires forall i :: 0 <= i < |evs| ==> KeepsHistory(evs[i])
    ensures s.board.strokes <= Run(s, evs).board.strokes
    ensures |Run(s, evs).board.strokes| <= |s.board.strokes| + |evs|
    decreases |evs|
  {
    if |evs| > 0 {
      StepKeepsHistory(s, evs[0]);
      RunCons(s, evs[0], evs[1..]);
      assert [evs[0]] + evs[1..] == evs;
      assert forall i :: 0 <= i < |evs[1..]| ==> evs[1..][i] == evs[i + 1];
      RunKeepsHistory(Step(s, evs[0]), evs[1..]);
    }
  }

  /** Eraser strokes keep the background colour under every event except a
      dark-mode toggle while an eraser stroke is being drawn. */
  lemma StepPreservesCoherent(s: State, ev: Event)
    requires Valid(ev) && Coherent(s)
    requires !(ev.ToggleDark? && s.board.draft.Some? && s.board.draft.value.isEraser)
    ensures Coherent(Step(s, ev))
  {
  }

  /** The dark-mode toggle does not recolour a stroke in progress: an eraser
      stroke started in light mode and finished after switching to dark mode
      is committed white on a black background. */
  lemma StaleEraserDraft(pos: Point)
    ensures var evs := [ToggleEraser, Press(DrawButton, pos), ToggleDark, Release(DrawButton)];
      && AllValid(evs)
      && var t := Run(Initial, evs);
      && |t.board.strokes| == 1
      && t.board.strokes[0].isEraser
      && t.board.strokes[0].color == White
      && t.app.bgColor == Black
      && !Coherent(t)
  {
    var s1 := State(InitialBoard, Settings(White, Black, true, false));
    assert Step(Initial, ToggleEraser) == s1;
    var d := Stroke([ScreenToWorld(Origin, pos)], White, InitialBrushSize, true);
    var s2 := s1.(board := InitialBoard.(draft := Some(d)));
    assert Step(s1, Press(DrawButton, pos)) == s2;
    var s3 := State(s2.board, Settings(Black, White, true, true));
    assert RecolorErasers([], Black) == [];
    assert Step(s2, ToggleDark) == s3;
    var s4 := s3.(board := s3.board.(strokes := [d], draft := None));
    assert Step(s3, Release(DrawButton)) == s4;
    RunCons(s3, Release(DrawButton), []);
    assert [Release(DrawButton)] + [] == [Release(DrawButton)];
    RunCons(s2, ToggleDark, [Release(DrawButton)]);
    RunCons(s1, Press(DrawButton, pos), [ToggleDark, Release(DrawButton)]);
    RunCons(Initial, ToggleEraser, [Press(DrawButton, pos), ToggleDark, Release(DrawButton)]);
    assert !ErasersMatchBackground(s4) by {
      assert s4.board.strokes[0].isEraser && s4.board.strokes[0].color != s4.app.bgColor;
    }
  }

  // ---------------------------------------------------------------------------
  // Panning

  /** A run of motion events changes only the board, as a drag along the path. */
  lemma {:induction false} RunMoves(s: State, ps: seq<Point>, held: bool)
    ensures Run(s, Moves(ps, held)) == s.(board := Drag(s.board, ps, held))
    decreases |ps|
  {
    if |ps| > 0 {
      assert Moves(ps, held) == [Motion(ps[0], held)] + Moves(ps[1..], held);
      RunCons(s, Motion(ps[0], held), Moves(ps[1..], held));
      RunMoves(Step(s, Motion(ps[0], held)), ps[1..], held);
    } else {
      assert Moves(ps, held) == [];
    }
  }

  /** A whole pan gesture (press button 3, move, release button 3) moves the
      camera by exactly the last pointer position minus the press position,
      and leaves the drawing, the brush and the colours as they were. */
  lemma PanGesture(s: State, start: Point, ps: seq<Point>, held: bool)
    ensures var evs := [Press(PanButton, start)] + Moves(ps, held) + [Release(PanButton)];
      && AllValid(evs)
      && var t := Run(s, evs);
      && var last := if |ps| == 0 then start else ps[|ps| - 1];
      && Minus(t.board.offset, s.board.offset) == Minus(last, start)
      && !t.board.panning
      && t.board.strokes == s.board.strokes && t.board.draft == s.board.draft
      && t.board.brushSize == s.board.brushSize && t.app == s.app
  {
    var pressed := [Press(PanButton, start)];
    var moves := Moves(ps, held);
    var released := [Release(PanButton)];
    RunAppend(s, pressed, moves);
    RunAppend(s, pressed + moves, released);
    var s1 := Run(s, pressed);
    assert s1 == Step(s, pressed[0]);
    RunMoves(s1, ps, held);
    if |ps| > 0 {
      PanDrag(s1.board, ps, held);
    }
    var s2 := Run(s1, moves);
    assert Run(s2, released) == Step(s2, released[0]);
  }

  // ---------------------------------------------------------------------------
  // Drawing

  /** A whole stroke gesture (press button 1, move with it held, release it)
      with no pan in progress commits exactly one new stroke at the end of the
      list.  Painted under the unchanged camera its points are exactly the
      press position followed by every motion position; it has the ink colour
      of the current mode, the brush size, and the eraser flag of the mode. */
  lemma DrawGesture(s: State, start: Point, ps: seq<Point>)
    requires !s.board.panning
    ensures var evs := [Press(DrawButton, start)] + Moves(ps, true) + [Release(DrawButton)];
      && AllValid(evs)
      && var t := Run(s, evs);
      && |t.board.strokes| == |s.board.strokes| + 1
      && t.board.strokes[..|s.board.strokes|] == s.board.strokes
      && var k := t.board.strokes[|s.board.strokes|];
      && k.points == ToWorld(s.board.offset, [start] + ps)
      && ToScreen(t.board.offset, k.points) == [start] + ps
      && k.color == InkColor(s.app)
      && k.size == s.board.brushSize
      && k.isEraser == s.app.eraserMode
      && t.board.draft.None?
      && SameView(t.board, s.board) && t.app == s.app
  {
    var pressed := [Press(DrawButton, start)];
    var moves := Moves(ps, true);
    var released := [Release(DrawButton)];
    RunAppend(s, pressed, moves);
    RunAppend(s, pressed + moves, released);
    var s1 := Run(s, pressed);
    assert s1 == Step(s, pressed[0]);
    RunMoves(s1, ps, true);
    DrawDrag(s1.board, ps);
    var s2 := Run(s1, moves);
    assert Run(s2, released) == Step(s2, released[0]);
    var off := s.board.offset;
    assert s1.board.draft.value.points == ToWorld(off, [start]);
    ToWorldAppend(off, [start], ps);
    PathRoundTrip(off, [start] + ps);
  }

  /** On a fresh session, whose camera has never moved, a stroke gesture
      commits exactly one stroke whose world points are the pointer
      positions themselves, drawn in black at brush size 3. */
  lemma FirstStroke(start: Point, ps: seq<Point>)
    ensures var evs := [Press(DrawButton, start)] + Moves(ps, true) + [Release(DrawButton)];
      && AllValid(evs)
      && Run(Initial, evs).board.strokes == [Stroke([start] + ps, Black, InitialBrushSize, false)]
  {
    DrawGesture(Initial, start, ps);
    var evs := [Press(DrawButton, start)] + Moves(ps, true) + [Release(DrawButton)];
    var t := Run(Initial, evs);
    var k := t.board.strokes[0];
    ToWorldOrigin([start] + ps);
    assert t.board.strokes == [k];
  }
}
