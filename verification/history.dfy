/**
 * The bounded undo history: a stack of layer-list snapshots holding at most
 * MaxHistory entries, the oldest evicted first.
 */
module History {

  const MaxHistory: nat := 50

  /** Appends `snapshot` as the newest entry; when that would exceed
      MaxHistory entries, the oldest entry is dropped instead. */
  function Push<T>(h: seq<T>, snapshot: T): (r: seq<T>)
    ensures |r| >= 1 && r[|r| - 1] == snapshot
    ensures |h| < MaxHistory ==> r[..|r| - 1] == h
    ensures |h| >= MaxHistory ==> r[..|r| - 1] == h[1..]
    ensures |h| <= MaxHistory ==> |r| <= MaxHistory
  {
    var grown := h + [snapshot];
    assert grown[..|grown| - 1] == h;
    if |grown| > MaxHistory then
      assert grown[1..] == h[1..] + [snapshot];
      grown[1..]
    else grown
  }

  /** The undoable part of the application state: the current value and the
      snapshots taken before it, newest last. */
  datatype Timeline<T> = Timeline(current: T, past: seq<T>)

  /** `saveToHistory`: the current value is pushed as the newest snapshot. */
  function Save<T>(t: Timeline<T>): (r: Timeline<T>)
    ensures r.current == t.current
    ensures |r.past| >= 1 && r.past[|r.past| - 1] == t.current
  {
    Timeline(t.current, Push(t.past, t.current))
  }

  /** `undo`: with no snapshot nothing changes; otherwise the newest snapshot
      becomes current and leaves the history. */
  function Undo<T>(t: Timeline<T>): (r: Timeline<T>)
    ensures t.past == [] ==> r == t
    ensures t.past != [] ==> r.current == t.past[|t.past| - 1]
    ensures t.past != [] ==> r.past + [r.current] == t.past
  {
    if t.past == [] then t
    else
      var last := t.past[|t.past| - 1];
      var rest := t.past[..|t.past| - 1];
      assert rest + [last] == t.past;
      Timeline(last, rest)
  }

  /** Saving, then replacing the current value with anything, then undoing,
      restores the value from before the save; the history itself is
      restored too unless the save evicted the oldest entry. */
  lemma UndoAfterSaveRestores<T>(t: Timeline<T>, edited: T)
    ensures Undo(Save(t).(current := edited)).current == t.current
    ensures |t.past| < MaxHistory ==> Undo(Save(t).(current := edited)) == t
  {
    var s := Save(t).(current := edited);
    assert s.past == Push(t.past, t.current);
  }

  /** The history never grows past MaxHistory through saves and undos. */
  lemma {:induction false} BoundKept<T>(t: Timeline<T>)
    requires |t.past| <= MaxHistory
    ensures |Save(t).past| <= MaxHistory
    ensures |Undo(t).past| <= MaxHistory
    ensures t.past != [] ==> |Undo(t).past| == |t.past| - 1
  {
    if t.past != [] {
      assert |Undo(t).past| + 1 == |t.past|;
    }
  }
}
