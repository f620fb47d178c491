/** The drawing widget: the canvas instructions, the undo and redo stacks,
    the keyframe log, the tool and brush settings and the playback flag, all
    updated in place by the touch handlers, the toolbar commands and the
    playback timer. */
module Canvas {
  import opened Drawing
  import opened Tools
  import History
  import Playback

  /** A touch as the handlers see it: its current position, and the line the
      touch-down started for it, if any (touch.ud['line']). */
  class Touch {
    var x: real
    var y: real
    var line: Line?

    constructor (x: real, y: real)
      ensures this.x == x && this.y == y && line == null
    {
      this.x := x;
      this.y := y;
      line := null;
    }
  }

  class CanvasWidget {
    var color: Rgba
    var width: int
    var tool: string
    var items: seq<Instr>
    var undoStack: seq<seq<Instr>>
    var redoStack: seq<seq<Instr>>
    var keyframes: seq<seq<Action>>
    var playing: bool

    /** The state the undo and redo commands work on. */
    function SessionState(): (s: History.Session)
      reads this
    {
      History.Session(items, undoStack, redoStack, keyframes)
    }

    /** The state the player works on, with the canvas seen as a picture. */
    ghost function PlayerState(): (p: Playback.Player)
      reads this, Lines(items)
    {
      Playback.Player(Picture(items), keyframes, playing)
    }

    /** A fresh widget: black soft brush of width 2, empty canvas, empty
        history and keyframe log, not playing. */
    constructor ()
      ensures color == Black && width == 2 && tool == SoftBrush
      ensures items == [] && undoStack == [] && redoStack == [] && keyframes == []
      ensures !playing
    {
      color := Black;
      width := 2;
      tool := SoftBrush;
      items := [];
      undoStack := [];
      redoStack := [];
      keyframes := [];
      playing := false;
    }

    /** new_canvas: the drawing is cleared; the size only reaches the
        background rectangle, and nothing is validated. */
    method NewCanvas(w: int, h: int)
      modifies this`items
      ensures items == []
    {
      items := [];
    }

    /** on_touch_down. `inside` is the widget's hit test of the touch. */
    method TouchDown(touch: Touch, inside: bool)
      modifies this`items, this`undoStack, this`redoStack, this`keyframes, touch`line
      ensures !inside ==> SessionState() == old(SessionState()) && touch.line == old(touch.line)
      ensures inside ==>
        var act := DownAction(tool, touch.x, touch.y, width, color);
        && SessionState() == History.Begin(old(SessionState()), items, if act.Some? then [act.value] else [])
        && (act.None? ==> items == old(items) && touch.line == old(touch.line))
        && (act.Some? ==>
              && fresh(touch.line)
              && touch.line.points == [touch.x, touch.y] && touch.line.width == width
              && items == (if tool == Fill then [] else old(items)) + [Paint(InkColor(tool, color)), Draw(touch.line)])
    {
      if inside {
        undoStack := undoStack + [items];
        redoStack := [];
        keyframes := keyframes + [[]];
        var act := DownAction(tool, touch.x, touch.y, width, color);
        if tool == Fill {
          items := [];
        }
        if act.Some? {
          var line := new Line([touch.x, touch.y], width);
          items := items + [Paint(InkColor(tool, color)), Draw(line)];
          touch.line := line;
          ghost var begun := keyframes;
          keyframes := History.AppendToLast(keyframes, act.value);
          assert begun[..|begun| - 1] == old(keyframes) && begun[|begun| - 1] == [];
          assert keyframes[|begun| - 1] == [act.value];
          assert keyframes == keyframes[..|begun| - 1] + [keyframes[|begun| - 1]];
        }
      }
    }

    /** on_touch_move. The line of the touch grows by the new position; a
        brush also records an action in the newest keyframe, which fails with
        an IndexError (ok == false) when the keyframe log has been emptied
        since the touch went down. */
    method TouchMove(touch: Touch, inside: bool) returns (ok: bool)
      modifies this`keyframes, touch.line
      ensures touch.line == null || !inside ==> ok && keyframes == old(keyframes)
      ensures touch.line != null && !inside ==> unchanged(touch.line)
      ensures touch.line != null && inside ==>
        var act := MoveAction(tool, touch.x, touch.y, width, color);
        && touch.line.points == old(touch.line.points) + [touch.x, touch.y]
        && ok == (act.None? || old(keyframes) != [])
        && keyframes == if act.Some? && ok then History.AppendToLast(old(keyframes), act.value) else old(keyframes)
    {
      ok := true;
      if touch.line != null && inside {
        touch.line.points := touch.line.points + [touch.x, touch.y];
        var act := MoveAction(tool, touch.x, touch.y, width, color);
        if act.Some? {
          if keyframes == [] {
            ok := false;
          } else {
            keyframes := History.AppendToLast(keyframes, act.value);
          }
        }
      }
    }

    /** on_touch_up. A line with at least two points is replaced by its
        smoothed version: `fit` stands for the spline fit and evaluation, and
        receives the points and the number of parameters to sample. A line
        of two or three points passes the gate but is refused by the fit,
        which raises (ok == false) and leaves the raw line on the canvas.
        Removing a line that is no longer on the canvas (a fill touch-down
        cleared it meanwhile) raises as well, before anything is drawn. */
    method TouchUp(touch: Touch, fit: (seq<real>, nat) -> seq<real>) returns (ok: bool)
      modifies this`items
      ensures touch.line == null || !ShouldSmooth(touch.line.points) ==> ok && items == old(items)
      ensures touch.line != null && ShouldSmooth(touch.line.points) && !FitAccepts(touch.line.points) ==>
        !ok && items == old(items)
      ensures touch.line != null && FitAccepts(touch.line.points) && Draw(touch.line) !in old(items) ==>
        !ok && items == old(items)
      ensures touch.line != null && FitAccepts(touch.line.points) && Draw(touch.line) in old(items) ==>
        && ok
        && |items| >= 2
        && items[..|items| - 2] == RemoveFirst(old(items), Draw(touch.line))
        && items[|items| - 2] == Paint(InkColor(tool, color))
        && items[|items| - 1].Draw?
        && fresh(items[|items| - 1].line)
        && items[|items| - 1].line.points == fit(touch.line.points, ResampleCount(touch.line.points))
        && items[|items| - 1].line.width == width
    {
      ok := true;
      if touch.line != null {
        var points := touch.line.points;
        if ShouldSmooth(points) {
          if !FitAccepts(points) {
            ok := false;
            return;
          }
          if Draw(touch.line) !in items {
            ok := false;
            return;
          }
          var smoothed := new Line(fit(points, ResampleCount(points)), width);
          items := RemoveFirst(items, Draw(touch.line)) + [Paint(InkColor(tool, color)), Draw(smoothed)];
        }
      }
    }

    /** set_tool: the tool changes, and the two brushes bring their width. */
    method SetTool(t: string)
      modifies this`tool, this`width
      ensures tool == t && width == ToolWidth(t, old(width))
    {
      tool := t;
      width := ToolWidth(t, width);
    }

    /** set_color. */
    method SetColor(c: Rgba)
      modifies this`color
      ensures color == c
    {
      color := c;
    }

    /** clear_canvas: the drawing and the keyframe log are emptied; the undo
        and redo stacks stay. */
    method ClearCanvas()
      modifies this`items, this`keyframes
      ensures items == [] && keyframes == []
    {
      items := [];
      keyframes := [];
    }

    /** undo. */
    method Undo()
      modifies this`items, this`undoStack, this`redoStack, this`keyframes
      ensures SessionState() == History.Undo(old(SessionState()))
    {
      if undoStack != [] {
        redoStack := redoStack + [items];
        var n := |undoStack| - 1;
        var last := undoStack[n];
        undoStack := undoStack[..n];
        items := last;
        if keyframes != [] {
          keyframes := keyframes[..|keyframes| - 1];
        }
      }
    }

    /** redo. */
    method Redo()
      modifies this`items, this`undoStack, this`redoStack
      ensures SessionState() == History.Redo(old(SessionState()))
    {
      if redoStack != [] {
        undoStack := undoStack + [items];
        var n := |redoStack| - 1;
        var next := redoStack[n];
        redoStack := redoStack[..n];
        items := next;
      }
    }

    /** start_playback. */
    method StartPlayback()
      modifies this`items, this`keyframes, this`playing
      ensures PlayerState() == Playback.Start(old(PlayerState()))
      ensures old(playing) ==> items == old(items) && keyframes == old(keyframes)
      ensures !old(playing) ==> items == [] && keyframes == []
    {
      if !playing {
        ClearCanvas();
        playing := true;
      }
    }

    /** stop_playback. */
    method StopPlayback()
      modifies this`playing
      ensures PlayerState() == Playback.Stop(old(PlayerState()))
    {
      assert Apart(items);
      if playing {
        playing := false;
      }
    }

    /** One colour change and a fresh one-point line drawn on top. */
    static method Stroke(r: seq<Instr>, c: Rgba, x: real, y: real, w: int) returns (s: seq<Instr>)
      ensures Picture(s) == old(Picture(r)) + [Tint(c), Trace([x, y], w)]
      ensures |s| == |r| + 2 && s[..|r|] == r && s[|r|] == Paint(c)
      ensures s[|r| + 1].Draw? && fresh(s[|r| + 1].line)
    {
      var line := new Line([x, y], w);
      assert Picture(r) == old(Picture(r)) by {
        assert line !in Lines(r);
      }
      PictureOfStroke(r, c, line);
      s := r + [Paint(c), Draw(line)];
    }

    /** One action of a replayed keyframe drawn on the canvas. */
    static method ReplayAction(r: seq<Instr>, a: Action) returns (s: seq<Instr>)
      ensures Picture(s) == Playback.Apply(old(Picture(r)), a)
      ensures !a.FillAction? ==> |s| == |r| + 2 && s[..|r|] == r
    {
      if a.FillAction? {
        s := [Paint(a.color), Backdrop];
        assert Picture(s) == [Tint(a.color), Plate];
      } else {
        var c := if a.LineAction? then a.color else White;
        s := Stroke(r, c, a.x, a.y, a.width);
      }
    }

    /** The loop of play_keyframes: the actions of one keyframe drawn in
        order on top of `shown`. */
    static method ReplayKeyframe(shown: seq<Instr>, keyframe: seq<Action>) returns (r: seq<Instr>)
      ensures Picture(r) == Playback.Replay(old(Picture(shown)), keyframe)
      ensures Playback.FillFree(keyframe) ==> |r| == |shown| + 2 * |keyframe| && r[..|shown|] == shown
    {
      r := shown;
      var i := 0;
      ghost var start := Picture(shown);
      ghost var fillFree := Playback.FillFree(keyframe);
      assert keyframe[..0] == [];
      while i < |keyframe|
        invariant 0 <= i <= |keyframe|
        invariant Picture(r) == Playback.Replay(start, keyframe[..i])
        invariant fillFree ==> |r| == |shown| + 2 * i && r[..|shown|] == shown
      {
        assert Playback.Replay(start, keyframe[..i + 1]) == Playback.Apply(Picture(r), keyframe[i]) by {
          assert keyframe[..i + 1][..i] == keyframe[..i];
        }
        ghost var before := r;
        r := ReplayAction(r, keyframe[i]);
        assert fillFree ==> r[..|shown|] == shown by {
          if fillFree {
            assert !keyframe[i].FillAction?;
            assert r[..|shown|] == before[..|shown|];
          }
        }
        i := i + 1;
      }
      assert keyframe[..i] == keyframe;
    }

    /** play_keyframes: one tick of the playback timer. */
    method PlayKeyframes()
      modifies this`items, this`keyframes, this`playing
      ensures PlayerState() == Playback.Tick(old(PlayerState()))
      ensures old(keyframes) == [] ==> items == old(items)
      ensures old(keyframes) != [] && Playback.FillFree(old(keyframes)[0]) ==>
        |items| == |old(items)| + 2 * |old(keyframes)[0]| && items[..|old(items)|] == old(items)
    {
      if keyframes == [] {
        StopPlayback();
        return;
      }
      var keyframe := keyframes[0];
      keyframes := keyframes[1..];
      assert Apart(items);
      var shown := ReplayKeyframe(items, keyframe);
      assert Apart(shown);
      items := shown;
    }

    /** A framing aid for `Picture`: the widget is none of the lines `s`
        refers to, so assigning the widget's fields leaves the picture of `s`
        unchanged. It holds by typing, since a line is never a widget. */
    ghost predicate Apart(s: seq<Instr>)
    {
      (this as object) !in (set l | l in Lines(s) :: l as object)
    }
  }
}
