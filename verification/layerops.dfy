/**
 * The pure operations on the layer list that the application state applies
 * by id: property updates, visibility and lock toggles, deletion, the drag
 * replacement of a perspective point, and the lookup of a layer by id.
 */
module LayerOps {
  import opened Types

  /** `Array.prototype.filter`: the elements that pass `keep`, in order. */
  function Filter<T(!new)>(s: seq<T>, keep: T -> bool): (r: seq<T>)
    ensures |r| <= |s|
  {
    if s == [] then []
    else (if keep(s[0]) then [s[0]] else []) + Filter(s[1..], keep)
  }

  /** The filtered list holds exactly the elements that pass `keep`. */
  lemma {:induction false} FilterMembers<T(!new)>(s: seq<T>, keep: T -> bool)
    ensures forall x :: x in Filter(s, keep) <==> x in s && keep(x)
  {
    if s != [] {
      FilterMembers(s[1..], keep);
      assert s == [s[0]] + s[1..];
    }
  }

  /** Filtering distributes over concatenation, so the kept elements keep
      their relative order. */
  lemma {:induction false} FilterAppend<T(!new)>(a: seq<T>, b: seq<T>, keep: T -> bool)
    ensures Filter(a + b, keep) == Filter(a, keep) + Filter(b, keep)
  {
    if a == [] {
      assert a + b == b;
    } else {
      var t := a[1..];
      var head := if keep(a[0]) then [a[0]] else [];
      assert a + b == [a[0]] + (t + b);
      FilterCons(a[0], t + b, keep);
      FilterAppend(t, b, keep);
      assert head + (Filter(t, keep) + Filter(b, keep)) == (head + Filter(t, keep)) + Filter(b, keep);
    }
  }

  /** Filtering a list with a first element decides that element, then
      filters the rest. */
  lemma FilterCons<T(!new)>(x: T, s: seq<T>, keep: T -> bool)
    ensures Filter([x] + s, keep) == (if keep(x) then [x] else []) + Filter(s, keep)
  {
    assert ([x] + s)[1..] == s;
  }

  /** When every element passes, filtering changes nothing. */
  lemma {:induction false} FilterKeepsAll<T(!new)>(s: seq<T>, keep: T -> bool)
    requires forall i :: 0 <= i < |s| ==> keep(s[i])
    ensures Filter(s, keep) == s
  {
    if s != [] {
      FilterKeepsAll(s[1..], keep);
    }
  }

  /** The layers that are shown and exported: `layers.filter(l => l.visible)`. */
  function Visible(ls: seq<Layer>): (r: seq<Layer>)
    ensures forall l :: l in r <==> l in ls && l.visible
  {
    FilterMembers(ls, (l: Layer) => l.visible);
    Filter(ls, (l: Layer) => l.visible)
  }

  /** One more layer at the end is shown after the earlier ones exactly when
      it is visible. */
  lemma VisibleSnoc(ls: seq<Layer>, l: Layer)
    ensures Visible(ls + [l]) == Visible(ls) + (if l.visible then [l] else [])
  {
    FilterAppend(ls, [l], (x: Layer) => x.visible);
    assert [l][1..] == [];
  }

  /** A hidden layer anywhere in the list is skipped: the visible layers are
      those of the list without it, in the same order. */
  lemma VisibleSkipsHidden(a: seq<Layer>, l: Layer, b: seq<Layer>)
    requires !l.visible
    ensures Visible(a + [l] + b) == Visible(a + b)
  {
    var keep := (x: Layer) => x.visible;
    FilterAppend(a + [l], b, keep);
    FilterAppend(a, b, keep);
    VisibleSnoc(a, l);
    var before := Visible(a);
    assert before + [] == before;
  }

  /** `deleteLayer`: `layers.filter(l => l.id !== id)`. */
  function RemoveId(ls: seq<Layer>, id: string): (r: seq<Layer>)
    ensures forall l :: l in r ==> l.id != id
    ensures forall l :: l in ls && l.id != id ==> l in r
    ensures forall l :: l in r ==> l in ls
  {
    FilterMembers(ls, (l: Layer) => l.id != id);
    Filter(ls, (l: Layer) => l.id != id)
  }

  /** Deleting keeps the other layers in their order: it works piecewise on
      any split of the list, and an id that no layer carries deletes nothing. */
  lemma RemoveIdKeepsOrder(a: seq<Layer>, b: seq<Layer>, id: string)
    ensures RemoveId(a + b, id) == RemoveId(a, id) + RemoveId(b, id)
    ensures (forall i :: 0 <= i < |a| ==> a[i].id != id) ==> RemoveId(a, id) == a
  {
    FilterAppend(a, b, (l: Layer) => l.id != id);
    if forall i :: 0 <= i < |a| ==> a[i].id != id {
      FilterKeepsAll(a, (l: Layer) => l.id != id);
    }
  }

  /** `layers.map(l => l.id === id ? f(l) : l)`. */
  function MapId(ls: seq<Layer>, id: string, f: Layer -> Layer): (r: seq<Layer>)
    ensures |r| == |ls|
    ensures forall i :: 0 <= i < |ls| && ls[i].id != id ==> r[i] == ls[i]
    ensures forall i :: 0 <= i < |ls| && ls[i].id == id ==> r[i] == f(ls[i])
  {
    seq(|ls|, i requires 0 <= i < |ls| => if ls[i].id == id then f(ls[i]) else ls[i])
  }

  /** `toggleVisibility`: exactly the layers with the id flip their
      visibility; nothing else about any layer changes. */
  function ToggleVisible(ls: seq<Layer>, id: string): (r: seq<Layer>)
    ensures |r| == |ls|
    ensures forall i :: 0 <= i < |ls| ==> (r[i].visible != ls[i].visible <==> ls[i].id == id)
    ensures forall i :: 0 <= i < |ls| ==> r[i].(visible := ls[i].visible) == ls[i]
  {
    MapId(ls, id, (l: Layer) => l.(visible := !l.visible))
  }

  /** `toggleLock`: exactly the layers with the id flip their lock; nothing
      else about any layer changes. */
  function ToggleLocked(ls: seq<Layer>, id: string): (r: seq<Layer>)
    ensures |r| == |ls|
    ensures forall i :: 0 <= i < |ls| ==> (r[i].locked != ls[i].locked <==> ls[i].id == id)
    ensures forall i :: 0 <= i < |ls| ==> r[i].(locked := ls[i].locked) == ls[i]
  {
    MapId(ls, id, (l: Layer) => l.(locked := !l.locked))
  }

  /** Toggling the same id twice restores the original list. */
  lemma ToggleTwiceRestores(ls: seq<Layer>, id: string)
    ensures ToggleVisible(ToggleVisible(ls, id), id) == ls
    ensures ToggleLocked(ToggleLocked(ls, id), id) == ls
  {
    var v := ToggleVisible(ToggleVisible(ls, id), id);
    var k := ToggleLocked(ToggleLocked(ls, id), id);
    assert forall i :: 0 <= i < |ls| ==> v[i] == ls[i];
    assert forall i :: 0 <= i < |ls| ==> k[i] == ls[i];
  }

  /** The property edits the control panel sends: colour, density,
      horizontal density and stroke width, each optional. */
  datatype Patch = Patch(color: Option<string>, density: Option<int>, densityY: Option<int>, width: Option<real>)

  /** `{ ...l, ...updates }`: every field the patch carries overrides the
      layer's, every other field stays. */
  function ApplyPatch(l: Layer, u: Patch): (r: Layer)
    ensures r.id == l.id && r.name == l.name && r.kind == l.kind && r.points == l.points
    ensures r.visible == l.visible && r.locked == l.locked
    ensures r.color == (match u.color case Some(c) => c case None => l.color)
    ensures r.density == (match u.density case Some(d) => d case None => l.density)
    ensures u.densityY.Some? ==> r.densityY == u.densityY
    ensures u.densityY.None? ==> r.densityY == l.densityY
    ensures r.width == (match u.width case Some(w) => w case None => l.width)
  {
    var l1 := if u.color.Some? then l.(color := u.color.value) else l;
    var l2 := if u.density.Some? then l1.(density := u.density.value) else l1;
    var l3 := if u.densityY.Some? then l2.(densityY := u.densityY) else l2;
    if u.width.Some? then l3.(width := u.width.value) else l3
  }

  /** `updateActiveLayer`: patches the layers whose id is the active id; with
      no active layer (null never equals an id) nothing changes. */
  function UpdateActive(ls: seq<Layer>, active: Option<string>, u: Patch): (r: seq<Layer>)
    ensures active.None? ==> r == ls
    ensures |r| == |ls|
    ensures forall i :: 0 <= i < |ls| ==>
      r[i] == (if active == Some(ls[i].id) then ApplyPatch(ls[i], u) else ls[i])
  {
    match active
    case None => ls
    case Some(id) => MapId(ls, id, (l: Layer) => ApplyPatch(l, u))
  }

  /** The drag update: every layer with the id gets the single point `p`. */
  function DragTo(ls: seq<Layer>, id: string, p: Point): (r: seq<Layer>)
    ensures |r| == |ls|
    ensures forall i :: 0 <= i < |ls| && ls[i].id == id ==> r[i] == ls[i].(points := [p])
    ensures forall i :: 0 <= i < |ls| && ls[i].id != id ==> r[i] == ls[i]
  {
    MapId(ls, id, (l: Layer) => l.(points := [p]))
  }

  /** `layers.find(l => l.id === id)`, as the index of the first match. */
  function FindById(ls: seq<Layer>, id: string): (r: Option<nat>)
    ensures r.None? <==> forall k :: 0 <= k < |ls| ==> ls[k].id != id
    ensures r.Some? ==> r.value < |ls| && ls[r.value].id == id
    ensures r.Some? ==> forall k :: 0 <= k < r.value ==> ls[k].id != id
  {
    if ls == [] then None
    else if ls[0].id == id then Some(0)
    else
      match FindById(ls[1..], id)
      case None => None
      case Some(k) => Some(k + 1)
  }
}
