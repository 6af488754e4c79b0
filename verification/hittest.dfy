/**
 * Pointer hit-testing on the interactive canvas: which layer, and which
 * part of it, lies under a screen position. Layers are scanned from the
 * topmost (last) down; invisible and locked layers are skipped.
 */
module HitTest {
  import opened Types
  import opened Geometry

  /** Point hits need a distance strictly below 15 screen pixels; line hits
      a distance strictly below 6. */
  const PointTolerance: real := 15.0
  const LineTolerance: real := 6.0

  datatype Part = PointPart | LinePart
  datatype Hit = Hit(id: string, part: Part)

  /** Everything a hit test depends on: the pointer `m` and the view centre
      in canvas pixels, the zoom, the image's natural size, and the ray test.
      `rayHit(d, a)` says whether a pointer at offset `d` from a vanishing
      point is near the ray leaving it at `a` degrees; `checkCollision` computes
      it with sine and cosine, which this model does not interpret. */
  datatype Probe = Probe(m: Point, center: Point, zoom: real, natW: real, natH: real,
                         rayHit: (Point, real) -> bool)

  function Abs(a: real): real {
    if a < 0.0 then -a else a
  }

  function Offset(m: Point, s: Point): Point {
    Point(m.x - s.x, m.y - s.y)
  }

  /** `Math.sqrt(dx² + dy²) < 15`, compared on squares. */
  predicate NearPoint(m: Point, s: Point) {
    (m.x - s.x) * (m.x - s.x) + (m.y - s.y) * (m.y - s.y) < PointTolerance * PointTolerance
  }

  /** Some ray of the fan of `segments` rays around `s` is near the pointer. */
  predicate RaysHit(p: Probe, s: Point, segments: int) {
    exists i :: 0 <= i < segments && p.rayHit(Offset(p.m, s), RayAngle(i, segments))
  }

  /** The perspective part of the scan: points in order; at each point the
      point itself is tried first, then its rays. */
  function PointsHit(p: Probe, ps: seq<Point>, segments: int): Option<Part> {
    if ps == [] then None
    else
      var s := ScreenPos(p.center, ps[0], p.zoom);
      if NearPoint(p.m, s) then Some(PointPart)
      else if RaysHit(p, s, segments) then Some(LinePart)
      else PointsHit(p, ps[1..], segments)
  }

  /** The pointer is within tolerance of the vertical line at `x` and
      strictly inside the image's vertical span. */
  predicate NearColumn(m: Point, r: Rect, x: real) {
    Abs(m.x - x) < LineTolerance && r.y < m.y < r.y + r.h
  }

  /** The pointer is within tolerance of the horizontal line at `y` and
      strictly inside the image's horizontal span. */
  predicate NearRow(m: Point, r: Rect, y: real) {
    Abs(m.y - y) < LineTolerance && r.x < m.x < r.x + r.w
  }

  /** Vertical line `i` of a grid over `r`. With `density` 0 the single line
      `checkCollision` tests lies at `imgX + 0 * Infinity`, which is NaN and never hits;
      this model has no line there. */
  predicate ColumnHit(m: Point, r: Rect, density: int, i: int) {
    density != 0 && NearColumn(m, r, r.x + i as real * (r.w / density as real))
  }

  /** Horizontal line `j` of a grid over `r` with `rows` bands. */
  predicate RowHit(m: Point, r: Rect, rows: int, j: int)
    requires rows != 0
  {
    NearRow(m, r, r.y + j as real * (r.h / rows as real))
  }

  /** A grid is hit on a vertical line `0 .. density` or on a horizontal line
      `0 .. densityY || 1`, each only strictly inside the image along the
      line's own axis. */
  predicate GridHit(m: Point, r: Rect, density: int, densityY: Option<int>) {
    var rows := OptOr(densityY, 1);
    || (exists i :: 0 <= i <= density && ColumnHit(m, r, density, i))
    || (exists j :: 0 <= j <= rows && RowHit(m, r, rows, j))
  }

  /** The part of one layer under the pointer, if any. */
  function LayerHit(l: Layer, p: Probe): Option<Part> {
    match l.kind
    case Perspective => PointsHit(p, l.points, l.density * 4)
    case OrthoGrid =>
      if GridHit(p.m, Placement(p.center, p.natW, p.natH, p.zoom), l.density, l.densityY)
      then Some(LinePart) else None
  }

  /** Only visible, unlocked layers take part in hit-testing. */
  predicate Eligible(l: Layer) {
    l.visible && !l.locked
  }

  /** The reference scan: the topmost eligible layer that is hit. */
  function TopHit(ls: seq<Layer>, p: Probe): Option<Hit> {
    if ls == [] then None
    else
      var l := ls[|ls| - 1];
      if Eligible(l) && LayerHit(l, p).Some? then Some(Hit(l.id, LayerHit(l, p).value))
      else TopHit(ls[..|ls| - 1], p)
  }

  /** Layer `k` is the topmost eligible layer under the pointer. */
  predicate IsTopHit(ls: seq<Layer>, p: Probe, k: int) {
    && 0 <= k < |ls|
    && Eligible(ls[k]) && LayerHit(ls[k], p).Some?
    && forall j :: k < j < |ls| ==> !(Eligible(ls[j]) && LayerHit(ls[j], p).Some?)
  }

  /** The scan finds nothing exactly when no eligible layer is hit; what it
      finds comes from the topmost eligible layer that is hit, so a locked or
      invisible layer is never returned and no later layer also matches. */
  lemma {:induction false} TopHitMeaning(ls: seq<Layer>, p: Probe)
    ensures TopHit(ls, p).None? <==>
      forall k :: 0 <= k < |ls| ==> !(Eligible(ls[k]) && LayerHit(ls[k], p).Some?)
    ensures TopHit(ls, p).Some? ==>
      (exists k :: IsTopHit(ls, p, k) && TopHit(ls, p).value == Hit(ls[k].id, LayerHit(ls[k], p).value))
  {
    if ls != [] {
      var n := |ls| - 1;
      var init := ls[..n];
      TopHitMeaning(init, p);
      if Eligible(ls[n]) && LayerHit(ls[n], p).Some? {
        assert IsTopHit(ls, p, n);
      } else {
        assert forall k :: 0 <= k < n ==> init[k] == ls[k];
        assert TopHit(ls, p) == TopHit(init, p);
        if TopHit(init, p).Some? {
          var k :| IsTopHit(init, p, k) && TopHit(init, p).value == Hit(init[k].id, LayerHit(init[k], p).value);
          assert IsTopHit(ls, p, k);
        }
      }
    }
  }

  /** Hit-testing a point does not depend on zoom or pan: a pointer within
      15 pixels of where a layer's first point is drawn hits that point,
      whatever the zoom. */
  lemma PointHitAnyZoom(l: Layer, p: Probe, d: Point)
    requires l.kind == Perspective && |l.points| >= 1
    requires p.m == Point(ScreenPos(p.center, l.points[0], p.zoom).x + d.x, ScreenPos(p.center, l.points[0], p.zoom).y + d.y)
    requires d.x * d.x + d.y * d.y < 225.0
    ensures LayerHit(l, p) == Some(PointPart)
  {
  }

  /** Tests the rays of the fan around `s` in order (the inner `for` loop). */
  method HitRays(p: Probe, s: Point, segments: int) returns (hit: bool)
    ensures hit == RaysHit(p, s, segments)
  {
    if segments <= 0 {
      return false;
    }
    var step := 360.0 / segments as real;
    var i := 0;
    while i < segments
      invariant 0 <= i <= segments
      invariant forall j :: 0 <= j < i ==> !p.rayHit(Offset(p.m, s), RayAngle(j, segments))
    {
      assert RayAngle(i, segments) == i as real * step;
      if p.rayHit(Offset(p.m, s), i as real * step) {
        return true;
      }
      i := i + 1;
    }
    return false;
  }

  /** The perspective branch of `checkCollision`: for each point, the point
      test, then the ray test, returning at the first match. */
  method HitPoints(p: Probe, ps: seq<Point>, segments: int) returns (part: Option<Part>)
    ensures part == PointsHit(p, ps, segments)
  {
    var k := 0;
    while k < |ps|
      invariant 0 <= k <= |ps|
      invariant PointsHit(p, ps, segments) == PointsHit(p, ps[k..], segments)
    {
      assert ps[k..][0] == ps[k] && ps[k..][1..] == ps[k + 1..];
      var s := ScreenPos(p.center, ps[k], p.zoom);
      if NearPoint(p.m, s) {
        return Some(PointPart);
      }
      var onRay := HitRays(p, s, segments);
      if onRay {
        return Some(LinePart);
      }
      k := k + 1;
    }
    return None;
  }

  /** The vertical-line loop of the grid branch. */
  method HitColumns(m: Point, r: Rect, density: int) returns (hit: bool)
    ensures hit == exists i :: 0 <= i <= density && ColumnHit(m, r, density, i)
  {
    if density == 0 {
      return false;
    }
    var dx := r.w / density as real;
    var i := 0;
    while i <= density
      invariant 0 <= i && (density >= 0 ==> i <= density + 1) && (density < 0 ==> i == 0)
      invariant forall k :: 0 <= k < i ==> !ColumnHit(m, r, density, k)
    {
      var x := r.x + i as real * dx;
      if NearColumn(m, r, x) {
        assert ColumnHit(m, r, density, i);
        return true;
      }
      assert !ColumnHit(m, r, density, i);
      i := i + 1;
    }
    return false;
  }

  /** The horizontal-line loop of the grid branch. */
  method HitRows(m: Point, r: Rect, rows: int) returns (hit: bool)
    requires rows != 0
    ensures hit == exists j :: 0 <= j <= rows && RowHit(m, r, rows, j)
  {
    var dy := r.h / rows as real;
    var j := 0;
    while j <= rows
      invariant 0 <= j && (rows >= 0 ==> j <= rows + 1) && (rows < 0 ==> j == 0)
      invariant forall k :: 0 <= k < j ==> !RowHit(m, r, rows, k)
    {
      var y := r.y + j as real * dy;
      if NearRow(m, r, y) {
        assert RowHit(m, r, rows, j);
        return true;
      }
      assert !RowHit(m, r, rows, j);
      j := j + 1;
    }
    return false;
  }

  /** The grid branch of `checkCollision`: vertical lines, then horizontal
      lines, returning at the first line within tolerance. */
  method HitGrid(m: Point, r: Rect, density: int, densityY: Option<int>) returns (hit: bool)
    ensures hit == GridHit(m, r, density, densityY)
  {
    hit := HitColumns(m, r, density);
    if hit {
      return;
    }
    var rows := OptOr(densityY, 1);
    hit := HitRows(m, r, rows);
  }

  /** `checkCollision`: scans the layers from last to first, skipping
      invisible and locked ones, and returns the first layer hit. */
  method CheckCollision(ls: seq<Layer>, p: Probe) returns (hit: Option<Hit>)
    ensures hit == TopHit(ls, p)
  {
    var r := Placement(p.center, p.natW, p.natH, p.zoom);
    var i := |ls|;
    assert ls[..i] == ls;
    while i > 0
      invariant 0 <= i <= |ls|
      invariant TopHit(ls, p) == TopHit(ls[..i], p)
    {
      i := i - 1;
      assert ls[..i + 1][..i] == ls[..i];
      var layer := ls[i];
      if !layer.visible || layer.locked {
        continue;
      }
      if layer.kind == Perspective {
        var part := HitPoints(p, layer.points, layer.density * 4);
        if part.Some? {
          return Some(Hit(layer.id, part.value));
        }
      } else {
        var onLine := HitGrid(p.m, r, layer.density, layer.densityY);
        if onLine {
          return Some(Hit(layer.id, LinePart));
        }
      }
    }
    return None;
  }
}
