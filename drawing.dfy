/** The values the drawing surface is made of: colours, the recorded keyframe
    actions, the Line instructions a gesture grows in place, and the ordered
    list of graphics instructions on the canvas. */
module Drawing {

  /** An RGBA colour as the colour picker hands it over. */
  datatype Rgba = Rgba(r: real, g: real, b: real, a: real)

  const Black := Rgba(0.0, 0.0, 0.0, 1.0)
  const White := Rgba(1.0, 1.0, 1.0, 1.0)

  /** One entry of a keyframe: ('line', x, y, width, color),
      ('eraser', x, y, width) or ('fill', color). */
  datatype Action =
    | LineAction(x: real, y: real, width: int, color: Rgba)
    | EraserAction(x: real, y: real, width: int)
    | FillAction(color: Rgba)

  /** A Line instruction. It is an object: a gesture keeps a reference to
      it and appends to its flat coordinate list while the finger moves. */
  class Line {
    var points: seq<real>
    const width: int

    constructor (points: seq<real>, width: int)
      ensures this.points == points && this.width == width
    {
      this.points := points;
      this.width := width;
    }
  }

  /** A graphics instruction on the canvas: a colour change, a line, or the
      rectangle a replayed fill paints over the whole widget. */
  datatype Instr = Paint(color: Rgba) | Draw(line: Line) | Backdrop

  /** What an instruction shows at a given moment: a Draw is seen through
      the current points of its line. */
  datatype Mark = Tint(color: Rgba) | Trace(points: seq<real>, width: int) | Plate

  /** The line objects a list of instructions refers to. */
  ghost function Lines(items: seq<Instr>): (ls: set<Line>)
  {
    set i | i in items && i.Draw? :: i.line
  }

  ghost function MarkOf(i: Instr): (m: Mark)
    reads if i.Draw? then {i.line} else {}
  {
    match i
    case Paint(c) => Tint(c)
    case Draw(l) => Trace(l.points, l.width)
    case Backdrop => Plate
  }

  /** The picture a list of instructions draws, instruction by instruction. */
  ghost function Picture(items: seq<Instr>): (p: seq<Mark>)
    reads Lines(items)
    ensures |p| == |items|
  {
    if items == [] then []
    else
      var n := |items| - 1;
      assert Lines(items[..n]) <= Lines(items) by {
        forall i | i in items[..n] ensures i in items { }
      }
      Picture(items[..n]) + [MarkOf(items[n])]
  }

  /** The picture of two instruction lists drawn one after the other. */
  lemma {:induction false} PictureAppend(items: seq<Instr>, more: seq<Instr>)
    ensures Picture(items + more) == Picture(items) + Picture(more)
    decreases |more|
  {
    if more != [] {
      var n := |more| - 1;
      assert (items + more)[..|items + more| - 1] == items + more[..n];
      PictureAppend(items, more[..n]);
    } else {
      assert items + more == items;
    }
  }

  /** Drawing a colour and a line on top adds their marks on top. */
  lemma PictureOfStroke(items: seq<Instr>, c: Rgba, line: Line)
    ensures Picture(items + [Paint(c), Draw(line)]) == Picture(items) + [Tint(c), Trace(line.points, line.width)]
  {
    PictureAppend(items, [Paint(c), Draw(line)]);
    assert [Paint(c), Draw(line)][..1] == [Paint(c)];
  }

  /** Removes the first occurrence of x, if there is one; everything else
      stays in order. */
  function RemoveFirst<T(==)>(s: seq<T>, x: T): (r: seq<T>)
    ensures x !in s ==> r == s
    ensures x in s ==> |r| == |s| - 1
  {
    if s == [] then []
    else if s[0] == x then s[1..]
    else [s[0]] + RemoveFirst(s[1..], x)
  }

  /** Exactly one copy of the element goes, if there is one. */
  lemma {:induction false} RemoveFirstCount<T>(s: seq<T>, x: T)
    ensures multiset(RemoveFirst(s, x)) == multiset(s) - multiset{x}
  {
    if s != [] {
      var rest := s[1..];
      assert s == [s[0]] + rest;
      assert multiset(s) == multiset{s[0]} + multiset(rest);
      if s[0] != x {
        RemoveFirstCount(rest, x);
        assert RemoveFirst(s, x) == [s[0]] + RemoveFirst(rest, x);
        assert multiset(RemoveFirst(s, x)) == multiset{s[0]} + (multiset(rest) - multiset{x});
      }
    }
  }

  /** Removing the first occurrence cuts out exactly that position. */
  lemma {:induction false} RemoveFirstAt<T>(s: seq<T>, x: T, i: nat)
    requires i < |s| && s[i] == x
    requires forall j :: 0 <= j < i ==> s[j] != x
    ensures RemoveFirst(s, x) == s[..i] + s[i + 1..]
  {
    if i == 0 {
      assert s[..0] + s[1..] == s[1..];
    } else {
      var t := s[1..];
      RemoveFirstAt(t, x, i - 1);
      assert RemoveFirst(s, x) == [s[0]] + RemoveFirst(t, x) by {
        assert s[0] != x;
      }
      assert [s[0]] + (t[..i - 1] + t[i..]) == s[..i] + s[i + 1..] by {
        assert [s[0]] + t[..i - 1] == s[..i];
        assert t[i..] == s[i + 1..];
      }
    }
  }
}
