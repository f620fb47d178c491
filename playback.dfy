/** The animation player: while playing, every timer tick takes the oldest
    keyframe off the log and draws its actions on the canvas, in order. */
module Playback {
  import opened Drawing

  /** What one replayed action does to the picture: a line or an eraser dot
      adds a colour and a one-point line on top, a fill clears the canvas and
      paints a rectangle in its colour. */
  function Apply(marks: seq<Mark>, a: Action): (r: seq<Mark>)
    ensures a.FillAction? ==> r == [Tint(a.color), Plate]
    ensures !a.FillAction? ==> |r| == |marks| + 2 && r[..|marks|] == marks
    ensures a.LineAction? ==> r[|marks|] == Tint(a.color) && r[|marks| + 1] == Trace([a.x, a.y], a.width)
    ensures a.EraserAction? ==> r[|marks|] == Tint(White) && r[|marks| + 1] == Trace([a.x, a.y], a.width)
  {
    match a
    case LineAction(x, y, w, c) => marks + [Tint(c), Trace([x, y], w)]
    case EraserAction(x, y, w) => marks + [Tint(White), Trace([x, y], w)]
    case FillAction(c) => [Tint(c), Plate]
  }

  /** No fill among the actions. */
  ghost predicate FillFree(kf: seq<Action>)
  {
    forall k :: 0 <= k < |kf| ==> !kf[k].FillAction?
  }

  /** The actions of `kf` applied one after the other to `marks`. */
  function Replay(marks: seq<Mark>, kf: seq<Action>): (r: seq<Mark>)
  {
    if kf == [] then marks
    else Apply(Replay(marks, kf[..|kf| - 1]), kf[|kf| - 1])
  }

  /** Replaying nothing leaves the picture as it was, and a keyframe that
      ends with a fill leaves only that fill on the canvas. */
  lemma ReplayEmptyAndFill(marks: seq<Mark>, kf: seq<Action>)
    ensures kf == [] ==> Replay(marks, kf) == marks
    ensures kf != [] && kf[|kf| - 1].FillAction? ==> Replay(marks, kf) == [Tint(kf[|kf| - 1].color), Plate]
  {
  }

  /** Without a fill, the old picture stays as a prefix and every action adds
      two marks. */
  lemma {:induction false} ReplayFillFree(marks: seq<Mark>, kf: seq<Action>)
    requires FillFree(kf)
    ensures |Replay(marks, kf)| == |marks| + 2 * |kf|
    ensures Replay(marks, kf)[..|marks|] == marks
  {
    if kf != [] {
      var n := |kf| - 1;
      var front := kf[..n];
      assert FillFree(front) by {
        forall k | 0 <= k < |front| ensures !front[k].FillAction? {
          assert front[k] == kf[k];
        }
      }
      ReplayFillFree(marks, front);
      assert !kf[n].FillAction?;
    }
  }

  /** Replaying two lists of actions is replaying their concatenation. */
  lemma {:induction false} ReplayConcat(marks: seq<Mark>, a: seq<Action>, b: seq<Action>)
    ensures Replay(marks, a + b) == Replay(Replay(marks, a), b)
    decreases |b|
  {
    if b == [] {
      assert a + b == a;
    } else {
      var n := |b| - 1;
      assert (a + b)[..|a + b| - 1] == a + b[..n];
      assert (a + b)[|a + b| - 1] == b[n];
      ReplayConcat(marks, a, b[..n]);
    }
  }

  /** A fill discards everything drawn before it, by earlier actions of the
      same keyframe and by earlier ticks alike. */
  lemma {:induction false} FillDiscardsEarlier(marks: seq<Mark>, before: seq<Action>, c: Rgba, after: seq<Action>)
    ensures Replay(marks, before + [FillAction(c)] + after) == Replay([Tint(c), Plate], after)
  {
    ReplayConcat(marks, before + [FillAction(c)], after);
    ReplayConcat(marks, before, [FillAction(c)]);
    assert [FillAction(c)][..0] == [];
  }

  /** A line or eraser action draws on top, whatever lies below. */
  lemma ApplyOnTop(below: seq<Mark>, marks: seq<Mark>, a: Action)
    requires !a.FillAction?
    ensures Apply(below + marks, a) == below + Apply(marks, a)
  {
  }

  /** Without a fill, replaying only draws on top of what is there. */
  lemma {:induction false} ReplayOnlyAppends(marks: seq<Mark>, kf: seq<Action>)
    requires FillFree(kf)
    ensures Replay(marks, kf) == marks + Replay([], kf)
  {
    if kf != [] {
      var n := |kf| - 1;
      var front := kf[..n];
      var inner := Replay([], front);
      assert Replay(marks, front) == marks + inner by {
        assert FillFree(front) by {
          forall k | 0 <= k < |front| ensures !front[k].FillAction? {
            assert front[k] == kf[k];
          }
        }
        ReplayOnlyAppends(marks, front);
      }
      assert Apply(marks + inner, kf[n]) == marks + Apply(inner, kf[n]) by {
        ApplyOnTop(marks, inner, kf[n]);
      }
    }
  }

  /** The player as the canvas holds it: the picture, the keyframe log, and
      whether the timer is armed. */
  datatype Player = Player(marks: seq<Mark>, keyframes: seq<seq<Action>>, playing: bool)

  /** start_playback: ignored while playing; otherwise the canvas and the
      keyframe log are cleared and the timer is armed. */
  function Start(p: Player): (r: Player)
    ensures p.playing ==> r == p
    ensures !p.playing ==> r.marks == [] && r.keyframes == [] && r.playing
  {
    if p.playing then p else Player([], [], true)
  }

  /** stop_playback: the timer is cancelled if armed. */
  function Stop(p: Player): (r: Player)
    ensures !r.playing && r.marks == p.marks && r.keyframes == p.keyframes
  {
    p.(playing := false)
  }

  /** play_keyframes: one timer tick. */
  function Tick(p: Player): (r: Player)
    ensures p.keyframes == [] ==> r == Stop(p)
    ensures p.keyframes != [] ==> r.keyframes == p.keyframes[1..] && r.playing == p.playing
    ensures p.keyframes != [] ==> r.marks == Replay(p.marks, p.keyframes[0])
  {
    if p.keyframes == [] then Stop(p)
    else Player(Replay(p.marks, p.keyframes[0]), p.keyframes[1..], p.playing)
  }

  /** n ticks in a row. */
  function Ticks(p: Player, n: nat): (q: Player)
    decreases n
  {
    if n == 0 then p else Ticks(Tick(p), n - 1)
  }

  /** The keyframes one after the other. */
  function Concat(kfs: seq<seq<Action>>): (all: seq<Action>)
  {
    if kfs == [] then [] else kfs[0] + Concat(kfs[1..])
  }

  lemma StopIsIdempotent(p: Player)
    ensures Stop(Stop(p)) == Stop(p)
  {
  }

  /** Starting takes effect only once. */
  lemma StartIsIdempotent(p: Player)
    ensures Start(Start(p)) == Start(p)
  {
  }

  /** Since starting empties the keyframe log, the first tick after a start
      finds nothing to play and stops the player on an empty canvas. */
  lemma FirstTickAfterStartStops(p: Player)
    requires !p.playing
    ensures Tick(Start(p)) == Player([], [], false)
  {
  }

  /** Ticks consume the keyframes oldest first: after n of them the n oldest
      keyframes are gone and their actions have been drawn in order. */
  lemma {:induction false} TicksPlayOldestFirst(p: Player, n: nat)
    requires n <= |p.keyframes|
    ensures Ticks(p, n) == Player(Replay(p.marks, Concat(p.keyframes[..n])), p.keyframes[n..], p.playing)
    decreases n
  {
    if n == 0 {
      assert p.keyframes[..0] == [];
      assert p.keyframes[0..] == p.keyframes;
    } else {
      var kfs := p.keyframes;
      var q := Tick(p);
      var later := Concat(kfs[1..][..n - 1]);
      assert Ticks(p, n) == Player(Replay(q.marks, later), kfs[n..], p.playing) by {
        TicksPlayOldestFirst(q, n - 1);
        assert kfs[1..][n - 1..] == kfs[n..];
      }
      assert Concat(kfs[..n]) == kfs[0] + later by {
        assert kfs[..n][0] == kfs[0] && kfs[..n][1..] == kfs[1..][..n - 1];
      }
      assert Replay(q.marks, later) == Replay(p.marks, kfs[0] + later) by {
        ReplayConcat(p.marks, kfs[0], later);
      }
    }
  }

  /** With K keyframes in the log, K ticks play them all and the next tick
      stops the player, with every keyframe drawn. */
  lemma {:induction false} PlaybackRunsOut(p: Player)
    ensures Ticks(p, |p.keyframes| + 1) == Player(Replay(p.marks, Concat(p.keyframes)), [], false)
  {
    var k := |p.keyframes|;
    TicksPlayOldestFirst(p, k);
    assert p.keyframes[..k] == p.keyframes;
    var q := Ticks(p, k);
    assert q.keyframes == [];
    TicksSplit(p, k, 1);
    assert Ticks(q, 1) == Ticks(Tick(q), 0);
  }

  lemma {:induction false} TicksSplit(p: Player, m: nat, n: nat)
    ensures Ticks(p, m + n) == Ticks(Ticks(p, m), n)
    decreases m
  {
    if m > 0 {
      TicksSplit(Tick(p), m - 1, n);
    }
  }
}
