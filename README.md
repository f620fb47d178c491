# Tearix2D drawing engine, modelled in Dafny

This project models the drawing and animation engine of Tearix2D, a touch-driven
2D drawing app. In the app, all of that engine is held by one widget,
`CanvasWidget` in `main.py`. It keeps:

- the ordered list of graphics instructions drawn on the canvas;
- an undo stack and a redo stack of whole-list snapshots of that list;
- a keyframe log with one list of recorded actions per gesture, where an action is
  `('line', x, y, width, color)`, `('eraser', x, y, width)` or `('fill', color)`;
- the current tool, brush width and colour;
- the playback timer, modelled as a `playing` flag.

Each of its handlers updates these in place. The model keeps that form. `Canvas.CanvasWidget`
is a class with those fields. Its methods are the widget's handlers, and each one states
its new state in terms of the old one. The behaviour is specified by value-level
functions in four modules, and the lemmas beside them prove its laws:

- `drawing.dfy` (module `Drawing`) holds colours, recorded actions and canvas
  instructions. Kivy's `Line` instruction is a class whose `points` a gesture extends in
  place, and the canvas holds references to it, as the app does. `Picture` is the
  picture a list of instructions shows at a given moment.
- `tools.dfy` (module `Tools`) holds the fixed tool table: width 5 for "Soft Brush",
  width 20 for "Eraser", and any other tool name keeps the width. It also holds the
  action a touch records for each tool and the smoothing gate and sample count.
- `history.dfy` (module `History`) holds undo and redo over the snapshot stacks. Undo
  also pops the newest keyframe.
- `playback.dfy` (module `Playback`) holds the keyframe player. A tick takes the oldest
  keyframe and replays its actions in order. A fill wipes what came before it.
- `canvas.dfy` (module `Canvas`) holds the widget and a `Touch`. The touch carries
  its position and the line its touch-down started (`touch.ud['line']`).

A few behaviours of the code are easy to miss:

- `undo` and `redo` return nothing.
- `new_canvas` checks nothing and leaves the history and the keyframe log alone.
- `redo` does not restore the keyframe that `undo` dropped.
- `start_playback` clears the keyframe log before it arms the timer. The first tick
  therefore finds nothing to play and stops, unless a gesture starts before it
  (`Playback.FirstTickAfterStartStops`).
- The smoothed line is sampled at twice the length of the flat coordinate list. That
  is four samples per raw point, not two (`Tools.SmoothingOfRawPoints`).
- A touch-down with the fill tool clears the canvas and starts an ordinary line at the
  touch point. Only playback paints a filled rectangle.
- A line of two or three points passes the smoothing gate, but the cubic spline fit
  refuses it. `on_touch_up` then raises before it removes anything, and the raw line
  stays on the canvas (`Canvas.CanvasWidget.TouchUp`, `Tools.FitAccepts`).
- A fill touch-down by a second finger clears the first finger's line. When the first
  finger lifts, `canvas.remove` raises, and no smoothed line is drawn.

## Model

| member | source | states |
|---|---|---|
| `Canvas.CanvasWidget.constructor` | main.py:142-150 | a new widget has a black soft brush of width 2, an empty canvas, empty stacks and log, and is not playing |
| `Canvas.CanvasWidget.NewCanvas` | main.py:161-166 | the canvas is emptied; the size is not checked, and history, keyframes, tool and playback are untouched |
| `Canvas.CanvasWidget.TouchDown` | main.py:168-187 | outside the widget nothing changes; inside, the session moves to `History.Begin` with the tool's action as the new keyframe; with an action, a fresh one-point line in the tool's ink is drawn on top of the old drawing (on an emptied canvas for Fill) and becomes the touch's line |
| `History.Begin` | main.py:169-172 | exactly one snapshot, the drawing before the gesture, is pushed on the undo stack; the redo stack is emptied; exactly one keyframe is appended and the older ones are kept |
| `Tools.DownAction` | main.py:174-181 | Soft Brush records a line action, Eraser an eraser action and Fill a fill action, each with the current position, width and colour; any other tool records nothing |
| `Tools.InkColor` | main.py:185 | lines are drawn in the current colour, except that the eraser draws white |
| `Canvas.CanvasWidget.TouchMove` | main.py:189-194 | a touch with a line, inside the widget, adds its position to the line; a brush appends its action to the newest keyframe, and with an empty log this fails (the IndexError) after the line has grown; otherwise nothing changes |
| `Tools.MoveAction` | main.py:192-193 | only the two brushes record on a move, and never a fill |
| `Tools.MoveRecordsAsDown` | main.py:174-194 | a move records the same action as a touch-down with the same tool, except for Fill, which records nothing on a move |
| `History.AppendToLast` | main.py:187 | the log keeps its length and its older keyframes; only the newest keyframe grows, by the one action |
| `Canvas.CanvasWidget.TouchUp` | main.py:196-215 | the drawing is untouched, with success, unless the touch's line passes the gate; a line the spline fit refuses fails (`ok == false`) and leaves the drawing as it was, and so does a line no longer on the canvas; otherwise that line (first occurrence) is removed, and the current ink and a fresh line of the fitted points, sampled at `ResampleCount` parameters, go on top |
| `Tools.SampleCount` | main.py:204 | the number of x coordinates, `len(points[0::2])`: half the flat length, rounded up |
| `Tools.ShouldSmooth` | main.py:199 | for a flat list of whole points, the gate passes exactly when the line has at least two points |
| `Tools.FitAccepts` | main.py:206 | the cubic fit needs more points than its degree, so it accepts only lines the gate passes, and for whole points exactly those with at least eight coordinates |
| `Tools.ResampleCount` | main.py:207 | for a flat list of whole points, the smoothed line is sampled at four parameters per point |
| `Tools.SmoothingOfRawPoints` | main.py:199-207 | for N raw points, the flat list holds N x coordinates, smoothing runs exactly when N >= 2, the fit accepts exactly when N >= 4, and the resample count is 4N |
| `Tools.Flatten` | main.py:204-205 | the flat list has 2N entries, with x at the even and y at the odd positions, as the code's `points[0::2]` and `points[1::2]` split it |
| `Drawing.RemoveFirst` | main.py:211 | a line that is on the canvas leaves a list one shorter; an absent line leaves the list as it was |
| `Drawing.RemoveFirstCount` | main.py:211 | exactly one copy of the line goes: the multiset of instructions loses that one element and nothing else |
| `Drawing.RemoveFirstAt` | main.py:211 | the removal cuts out exactly the position of the first occurrence, keeping everything else in order |
| `Canvas.CanvasWidget.SetTool` | main.py:217-219 | the tool is always set, and the width becomes `ToolWidth` of the tool and the old width |
| `Tools.ToolWidth` | main.py:219 | the table: 5 for Soft Brush, 20 for Eraser, the old width for any other tool |
| `Tools.ToolWidthSettles` | main.py:217-219 | choosing a tool twice equals choosing it once; the two brushes ignore the previous width |
| `Canvas.CanvasWidget.SetColor` | main.py:221-222 | the colour is set and nothing else changes |
| `Canvas.CanvasWidget.ClearCanvas` | main.py:224-230 | the drawing and the keyframe log are emptied; both history stacks stay |
| `Canvas.CanvasWidget.Undo` | main.py:232-244 | the session moves to `History.Undo`; tool, colour and playback are untouched |
| `History.Undo` | main.py:232-244 | with an empty undo stack nothing changes; otherwise the drawing goes on the redo stack, the top snapshot is popped and becomes the drawing, the newest keyframe if any is dropped, and the number of snapshots is conserved |
| `History.DropLast` | main.py:243-244 | popping drops exactly the last keyframe, and an empty log stays empty |
| `Canvas.CanvasWidget.Redo` | main.py:246-256 | the session moves to `History.Redo`; nothing else changes |
| `History.Redo` | main.py:246-256 | the mirror of `Undo` on the redo stack; the keyframe log is never touched |
| `History.RedoAfterUndo` | main.py:232-256 | an undo with something to undo, followed by a redo, restores the exact drawing and both stacks; only the dropped keyframe stays lost |
| `History.UndoAfterRedo` | main.py:232-256 | a redo with something to redo, followed by an undo, restores the drawing and both stacks, and the newest keyframe is dropped |
| `History.BeginInvalidatesRedo` | main.py:169-172 | after a new gesture, redo is a no-op |
| `History.UndoRevertsBegin` | main.py:232-244 | undoing a gesture brings back the drawing, the undo stack and the keyframe log from before it, with the gesture's drawing left to redo |
| `History.Undos` | main.py:232-244 | n undos shrink the undo stack to its n-shorter prefix and grow the redo stack by n |
| `History.Redos` | main.py:246-256 | n redos shrink the redo stack to its n-shorter prefix, grow the undo stack by n, and keep the keyframes |
| `History.DropLastN` | main.py:243-244 | popping n times keeps a prefix that is n shorter, or empty |
| `History.UndosKeyframes` | main.py:243-244 | n undos drop exactly the n newest keyframes |
| `History.RedosIgnoreKeyframes` | main.py:246-256 | redos never depend on or change the keyframe log |
| `History.RedosAfterUndo` | main.py:232-256 | an undo followed by n redos is the same as n - 1 redos, with the newest keyframe gone |
| `History.RedosAfterUndos` | main.py:232-256 | undoing n steps and then redoing n steps restores the drawing and both stacks; only the n newest keyframes are gone |
| `Canvas.CanvasWidget.StartPlayback` | main.py:258-261 | the player moves to `Playback.Start`; while playing, the instruction list and the log stay exactly as they were; otherwise clear_canvas empties both; the history stacks are untouched |
| `Playback.Start` | main.py:258-261 | while playing, nothing changes; otherwise the picture and the keyframe log are emptied and the player is playing |
| `Playback.StartIsIdempotent` | main.py:258-261 | a second start has no effect |
| `Canvas.CanvasWidget.StopPlayback` | main.py:263-266 | the player moves to `Playback.Stop`; only the flag changes |
| `Playback.Stop` | main.py:263-266 | afterwards the player is not playing, and the picture and the log are unchanged |
| `Playback.StopIsIdempotent` | main.py:263-266 | stopping twice is stopping once |
| `Canvas.CanvasWidget.PlayKeyframes` | main.py:268-287 | one timer tick moves the player to `Playback.Tick`; with an empty log the instruction list is unchanged; a fill-free keyframe keeps the old instructions as a prefix and adds two per action; the history stacks and brush settings are untouched |
| `Canvas.CanvasWidget.ReplayKeyframe` | main.py:274-287 | the loop draws a keyframe's actions so that the picture becomes `Playback.Replay` of the picture before the tick; a fill-free keyframe keeps the old instructions as a prefix and adds two per action |
| `Canvas.CanvasWidget.ReplayAction` | main.py:275-287 | one action changes the picture as `Playback.Apply` says; a line or eraser action keeps the old instructions and adds two |
| `Canvas.CanvasWidget.Stroke` | main.py:276-282 | the old instructions stay, then a colour and a fresh one-point line go on top, and what was drawn before shows unchanged |
| `Playback.Tick` | main.py:268-287 | with an empty log, the player stops and nothing else changes; otherwise the oldest keyframe is removed and replayed on the picture, and the flag is kept |
| `Playback.Apply` | main.py:275-287 | a line action adds its colour and a one-point line on top; an eraser action adds white and a one-point line on top; a fill leaves only its colour and a rectangle |
| `Playback.Replay` | main.py:274-287 | a keyframe's actions applied one after the other by `Apply`, in log order |
| `Playback.ReplayEmptyAndFill` | main.py:274-287 | replaying no actions leaves the picture as it was, and a keyframe that ends with a fill leaves only that fill's colour and rectangle |
| `Playback.ReplayFillFree` | main.py:274-282 | with no fill among the actions, replaying keeps the old picture as a prefix and each action adds two marks |
| `Playback.ReplayConcat` | main.py:274-287 | replaying two action lists one after the other is replaying their concatenation |
| `Playback.FillDiscardsEarlier` | main.py:283-287 | after a fill, the result no longer depends on anything drawn before it, in this tick or earlier |
| `Playback.ApplyOnTop` | main.py:275-282 | a line or eraser action draws the same marks whatever picture lies below |
| `Playback.ReplayOnlyAppends` | main.py:275-282 | line and eraser actions only draw on top of the existing picture |
| `Playback.FirstTickAfterStartStops` | main.py:258-271 | starting from a stopped player, the first tick finds the log empty and stops, leaving an empty canvas |
| `Playback.TicksPlayOldestFirst` | main.py:268-274 | after n ticks the n oldest keyframes are consumed, first in first out, and their actions are drawn in log order |
| `Playback.PlaybackRunsOut` | main.py:268-274 | with K keyframes, K ticks play them all, and the next tick stops the player |

## Left out

- The spline fit (`splprep` and `splev` from scipy, numpy arrays, floating point) is
  represented by the caller-supplied function `fit`. `TouchUp` passes it the line's
  points and the sample count. Of the fit's failures, only the one for too few points
  (no more points than the cubic degree) is modelled. Other numerical failures of the
  library, such as a fit through repeated points, are not.
- Kivy's graphics layer is not modelled: the `canvas.before` background group and the
  white `Rectangle` it holds, the widget's position and size, and `update_rect`.
  The `width` and `height` of `NewCanvas` only reach that rectangle and are unused. A
  replayed fill's rectangle is the instruction `Backdrop`, without geometry.
- `Clock.schedule_interval` and `cancel` are replaced by the `playing` flag.
  `PlayKeyframes` is the tick. The 0.1 s period is not modelled.
- `collide_point` hit testing is the `inside` parameter of the touch handlers. The
  touch's position is kept in `Touch.x` and `Touch.y`, which the caller sets.
- An exception raised by a handler is not propagated. Three exceptions are reported as
  `ok == false`, with the state left as the handler had changed it when it raised:
  - the IndexError of `on_touch_move` on an empty keyframe log;
  - the spline fit's refusal of a short line in `on_touch_up`;
  - the ValueError of `canvas.remove` in `on_touch_up`, when the touch's line is no
    longer on the canvas because a fill touch-down cleared it meanwhile.
- `Canvas.CanvasWidget.TouchMove`: a snapshot taken while a line was still being drawn
  shares that line object, so it sees the line grow, as in the app. No contract states
  this aliasing explicitly.
- The UI classes (buttons, popups, screens, the brush preview, the keyframe panel and
  its `add_keyframe`, which puts widgets into the keyframe log) are not part of this
  model. Neither are the empty file stubs or the callback wiring.
