/** The fixed per-tool policy of the canvas: the brush width a tool selects,
    the ink a stroke is drawn with, the action a touch records, and the gate
    and sample count of the stroke smoothing done when a finger lifts. */
module Tools {
  import opened Drawing

  datatype Option<T> = None | Some(value: T)

  const SoftBrush: string := "Soft Brush"
  const Eraser: string := "Eraser"
  const Fill: string := "Fill"

  /** The width after selecting `tool` when the width was `width`. */
  function ToolWidth(tool: string, width: int): (w: int)
    ensures tool == SoftBrush ==> w == 5
    ensures tool == Eraser ==> w == 20
    ensures tool != SoftBrush && tool != Eraser ==> w == width
  {
    if tool == SoftBrush then 5 else if tool == Eraser then 20 else width
  }

  /** Choosing a tool twice is the same as choosing it once, and the two
      brushes forget whatever width was set before. */
  lemma ToolWidthSettles(tool: string, width: int, other: int)
    ensures ToolWidth(tool, ToolWidth(tool, width)) == ToolWidth(tool, width)
    ensures tool == SoftBrush || tool == Eraser ==> ToolWidth(tool, width) == ToolWidth(tool, other)
  {
  }

  /** The colour a line of `tool` is drawn in: the eraser paints white. */
  function InkColor(tool: string, color: Rgba): (c: Rgba)
    ensures tool == Eraser ==> c == White
    ensures tool != Eraser ==> c == color
  {
    if tool != Eraser then color else White
  }

  /** The action a touch-down at (x, y) records; other tools record none. */
  function DownAction(tool: string, x: real, y: real, width: int, color: Rgba): (a: Option<Action>)
    ensures a.Some? <==> tool == SoftBrush || tool == Eraser || tool == Fill
    ensures tool == SoftBrush ==> a == Some(LineAction(x, y, width, color))
    ensures tool == Eraser ==> a == Some(EraserAction(x, y, width))
    ensures tool == Fill ==> a == Some(FillAction(color))
  {
    if tool == SoftBrush then Some(LineAction(x, y, width, color))
    else if tool == Eraser then Some(EraserAction(x, y, width))
    else if tool == Fill then Some(FillAction(color))
    else None
  }

  /** The action a touch-move records: only the two brushes record one. */
  function MoveAction(tool: string, x: real, y: real, width: int, color: Rgba): (a: Option<Action>)
    ensures a.Some? <==> tool == SoftBrush || tool == Eraser
    ensures a.Some? ==> !a.value.FillAction?
  {
    if tool == SoftBrush || tool == Eraser then
      Some(if tool == SoftBrush then LineAction(x, y, width, color) else EraserAction(x, y, width))
    else None
  }

  /** A move records the very action a touch-down with the same tool would,
      except that the fill tool records nothing while the finger moves. */
  lemma MoveRecordsAsDown(tool: string, x: real, y: real, width: int, color: Rgba)
    ensures tool != Fill ==> MoveAction(tool, x, y, width, color) == DownAction(tool, x, y, width, color)
    ensures tool == Fill ==> MoveAction(tool, x, y, width, color) == None
  {
  }

  /** The number of x coordinates in a flat coordinate list, the length of
      `points[0::2]`. */
  function SampleCount(points: seq<real>): (n: nat)
    ensures |points| == 2 * n || |points| == 2 * n - 1
  {
    (|points| + 1) / 2
  }

  /** Smoothing runs only on a line whose flat coordinate list holds at
      least four numbers, that is, on a line of at least two points. */
  predicate ShouldSmooth(points: seq<real>)
    ensures |points| % 2 == 0 ==> (ShouldSmooth(points) <==> SampleCount(points) >= 2)
  {
    |points| >= 4
  }

  /** The degree of the spline fitted to a line (the fitting routine's
      default, cubic). */
  const SplineDegree: nat := 3

  /** The spline fit accepts a line only when it has more points than the
      spline's degree; otherwise it raises before the line is touched. */
  predicate FitAccepts(points: seq<real>)
    ensures FitAccepts(points) ==> ShouldSmooth(points)
    ensures |points| % 2 == 0 ==> (FitAccepts(points) <==> |points| >= 8)
  {
    SampleCount(points) > SplineDegree
  }

  /** The number of spline parameters the smoothed line is sampled at:
      twice the length of the flat coordinate list, so four samples for
      every point of the line. */
  function ResampleCount(points: seq<real>): (n: nat)
    ensures |points| % 2 == 0 ==> n == 4 * SampleCount(points)
  {
    2 * |points|
  }

  /** A flat coordinate list [x0, y0, x1, y1, ...] of raw touch points. */
  function Flatten(raw: seq<(real, real)>): (flat: seq<real>)
    ensures |flat| == 2 * |raw|
    ensures forall k :: 0 <= k < |raw| ==> flat[2 * k] == raw[k].0 && flat[2 * k + 1] == raw[k].1
  {
    if raw == [] then []
    else
      var rest := Flatten(raw[..|raw| - 1]);
      rest + [raw[|raw| - 1].0, raw[|raw| - 1].1]
  }

  /** In terms of raw touch points: a line of N points passes the smoothing
      gate exactly when N >= 2, the fit accepts it exactly when N >= 4, and
      it is then resampled at 4N parameters, giving 8N coordinates once
      flattened. */
  lemma SmoothingOfRawPoints(raw: seq<(real, real)>)
    ensures SampleCount(Flatten(raw)) == |raw|
    ensures ShouldSmooth(Flatten(raw)) <==> |raw| >= 2
    ensures FitAccepts(Flatten(raw)) <==> |raw| >= 4
    ensures ResampleCount(Flatten(raw)) == 4 * |raw|
  {
  }
}
