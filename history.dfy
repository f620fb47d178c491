/** The undo/redo history of the canvas and the keyframe log it keeps in
    step with: whole-list snapshots of the canvas instructions on two stacks,
    and one list of recorded actions per gesture. */
module History {
  import opened Drawing

  /** The part of the canvas state the history operations touch. */
  datatype Session = Session(
    items: seq<Instr>,
    undo: seq<seq<Instr>>,
    redo: seq<seq<Instr>>,
    keyframes: seq<seq<Action>>)

  /** keyframes.pop() when the log is not empty, no change otherwise. */
  function DropLast<T>(s: seq<T>): (r: seq<T>)
    ensures s == [] ==> r == []
    ensures s != [] ==> r + [s[|s| - 1]] == s
  {
    if s == [] then [] else s[..|s| - 1]
  }

  /** keyframes[-1].append(a) on a non-empty log. */
  function AppendToLast(log: seq<seq<Action>>, a: Action): (r: seq<seq<Action>>)
    requires log != []
    ensures |r| == |log| && r[..|log| - 1] == log[..|log| - 1]
    ensures r[|log| - 1] == log[|log| - 1] + [a]
  {
    log[..|log| - 1] + [log[|log| - 1] + [a]]
  }

  /** The bookkeeping of a touch-down inside the canvas: the drawing before
      the gesture is pushed on the undo stack, the redo stack is emptied, and
      a keyframe holding `first` starts; the canvas then shows `drawn`. */
  function Begin(s: Session, drawn: seq<Instr>, first: seq<Action>): (r: Session)
    ensures |r.undo| == |s.undo| + 1 && r.undo[|s.undo|] == s.items && r.undo[..|s.undo|] == s.undo
    ensures r.redo == [] && r.items == drawn
    ensures |r.keyframes| == |s.keyframes| + 1 && r.keyframes[..|s.keyframes|] == s.keyframes
    ensures r.keyframes[|s.keyframes|] == first
  {
    Session(drawn, s.undo + [s.items], [], s.keyframes + [first])
  }

  /** undo(): with an empty undo stack nothing happens; otherwise the current
      drawing goes on the redo stack, the newest snapshot comes back, and the
      newest keyframe, if any, is dropped. */
  function Undo(s: Session): (r: Session)
    ensures s.undo == [] ==> r == s
    ensures s.undo != [] ==> r.undo + [r.items] == s.undo && r.redo == s.redo + [s.items]
    ensures s.undo != [] ==> r.keyframes == DropLast(s.keyframes)
    ensures |r.undo| + |r.redo| == |s.undo| + |s.redo|
  {
    if s.undo == [] then s
    else
      var n := |s.undo| - 1;
      Session(s.undo[n], s.undo[..n], s.redo + [s.items], DropLast(s.keyframes))
  }

  /** redo(): the mirror image of Undo on the other stack; the keyframe log
      is left alone. */
  function Redo(s: Session): (r: Session)
    ensures s.redo == [] ==> r == s
    ensures s.redo != [] ==> r.redo + [r.items] == s.redo && r.undo == s.undo + [s.items]
    ensures r.keyframes == s.keyframes
    ensures |r.undo| + |r.redo| == |s.undo| + |s.redo|
  {
    if s.redo == [] then s
    else
      var n := |s.redo| - 1;
      Session(s.redo[n], s.undo + [s.items], s.redo[..n], s.keyframes)
  }

  /** An undo that had something to undo is reverted by a redo, except for
      the keyframe it dropped. */
  lemma RedoAfterUndo(s: Session)
    requires s.undo != []
    ensures Redo(Undo(s)) == s.(keyframes := DropLast(s.keyframes))
  {
    var n := |s.undo| - 1;
    assert s.undo[..n] + [s.undo[n]] == s.undo;
  }

  /** A redo that had something to redo is reverted by an undo, which also
      drops the newest keyframe. */
  lemma UndoAfterRedo(s: Session)
    requires s.redo != []
    ensures Undo(Redo(s)) == s.(keyframes := DropLast(s.keyframes))
  {
    var n := |s.redo| - 1;
    assert s.redo[..n] + [s.redo[n]] == s.redo;
  }

  /** After a new gesture there is nothing to redo. */
  lemma BeginInvalidatesRedo(s: Session, drawn: seq<Instr>, first: seq<Action>)
    ensures Redo(Begin(s, drawn, first)) == Begin(s, drawn, first)
  {
  }

  /** Undoing a gesture brings back the drawing and the keyframe log from
      before it, with the gesture's drawing left to redo. */
  lemma UndoRevertsBegin(s: Session, drawn: seq<Instr>, first: seq<Action>)
    ensures Undo(Begin(s, drawn, first)) == Session(s.items, s.undo, [drawn], s.keyframes)
  {
    assert (s.undo + [s.items])[..|s.undo|] == s.undo;
  }

  /** n undos in a row. */
  function Undos(s: Session, n: nat): (r: Session)
    ensures n <= |s.undo| ==> |r.undo| == |s.undo| - n && |r.redo| == |s.redo| + n
    ensures n <= |s.undo| ==> r.undo == s.undo[..|s.undo| - n]
  {
    if n == 0 then s else Undo(Undos(s, n - 1))
  }

  /** n redos in a row. */
  function Redos(s: Session, n: nat): (r: Session)
    ensures r.keyframes == s.keyframes
    ensures n <= |s.redo| ==> |r.redo| == |s.redo| - n && |r.undo| == |s.undo| + n
    ensures n <= |s.redo| ==> r.redo == s.redo[..|s.redo| - n]
    decreases n
  {
    if n == 0 then s else Redos(Redo(s), n - 1)
  }

  /** keyframes.pop() done n times. */
  function DropLastN<T>(s: seq<T>, n: nat): (r: seq<T>)
    ensures |r| == if n <= |s| then |s| - n else 0
    ensures r == s[..|r|]
  {
    if n == 0 then s else DropLast(DropLastN(s, n - 1))
  }

  /** Redos never look at the keyframe log. */
  lemma {:induction false} RedosIgnoreKeyframes(s: Session, n: nat, log: seq<seq<Action>>)
    ensures Redos(s.(keyframes := log), n) == Redos(s, n).(keyframes := log)
    decreases n
  {
    if n > 0 {
      assert Redo(s.(keyframes := log)) == Redo(s).(keyframes := log);
      RedosIgnoreKeyframes(Redo(s), n - 1, log);
    }
  }

  /** One undo followed by n redos: the first redo reverts the undo. */
  lemma RedosAfterUndo(t: Session, n: nat)
    requires t.undo != [] && n > 0
    ensures Redos(Undo(t), n) == Redos(t, n - 1).(keyframes := DropLast(t.keyframes))
  {
    var kf := DropLast(t.keyframes);
    assert Redos(Undo(t), n) == Redos(Redo(Undo(t)), n - 1);
    RedoAfterUndo(t);
    RedosIgnoreKeyframes(t, n - 1, kf);
  }

  /** Undoing n gestures and redoing them again restores the drawing and
      both stacks exactly; only the n newest keyframes are gone. */
  lemma {:induction false} RedosAfterUndos(s: Session, n: nat)
    requires n <= |s.undo|
    ensures Redos(Undos(s, n), n) == s.(keyframes := DropLastN(s.keyframes, n))
  {
    if n > 0 {
      var t := Undos(s, n - 1);
      var base := DropLastN(s.keyframes, n - 1);
      assert t.undo != [];
      assert Redos(Undos(s, n), n) == Redos(t, n - 1).(keyframes := DropLast(t.keyframes)) by {
        assert Undos(s, n) == Undo(t);
        RedosAfterUndo(t, n);
      }
      assert Redos(t, n - 1) == s.(keyframes := base) by {
        RedosAfterUndos(s, n - 1);
      }
      assert t.keyframes == base by {
        UndosKeyframes(s, n - 1);
      }
    }
  }

  /** n undos drop the n newest keyframes (fewer if the log is shorter). */
  lemma {:induction false} UndosKeyframes(s: Session, n: nat)
    requires n <= |s.undo|
    ensures Undos(s, n).keyframes == DropLastN(s.keyframes, n)
  {
    if n > 0 {
      UndosKeyframes(s, n - 1);
    }
  }
}
