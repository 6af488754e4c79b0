/**
 * The geometric rules shared by the on-screen renderer and the exporter:
 * the view transform (image placement and the image-centred <-> screen
 * map), the angles of a perspective fan and the positions of grid lines,
 * and the loops that emit them as strokes.
 */
module Geometry {
  import opened Types

  /** The workspace zoom's clamp range and its reset value. */
  const MinZoom: real := 0.05
  const MaxZoom: real := 5.0
  const DefaultZoom: real := 0.6

  /** An axis-aligned rectangle: top-left corner and size. */
  datatype Rect = Rect(x: real, y: real, w: real, h: real)

  /** What a render pass draws: a straight segment, a ray of the given length
      leaving `from` at `angle` degrees, or a filled round marker. */
  datatype Stroke =
    | Line(from: Point, to: Point)
    | Ray(from: Point, angle: real, length: real)
    | Dot(center: Point, radius: real)

  function Max(a: real, b: real): real {
    if a >= b then a else b
  }

  /** The view centre: canvas centre moved by the pan offset. */
  function ViewCenter(canvasW: real, canvasH: real, pan: Point): (c: Point)
    ensures c.x - pan.x == canvasW / 2.0 && c.y - pan.y == canvasH / 2.0
  {
    Point(canvasW / 2.0 + pan.x, canvasH / 2.0 + pan.y)
  }

  /** Where the image is drawn: natural size scaled by zoom, centred on the
      view centre. */
  function Placement(center: Point, natW: real, natH: real, zoom: real): (r: Rect)
    ensures r.w == natW * zoom && r.h == natH * zoom
    ensures r.x + r.w / 2.0 == center.x && r.y + r.h / 2.0 == center.y
  {
    var w := natW * zoom;
    var h := natH * zoom;
    Rect(center.x - w / 2.0, center.y - h / 2.0, w, h)
  }

  /** Screen position of an image-centred point. */
  function ScreenPos(center: Point, vp: Point, zoom: real): Point {
    Point(center.x + vp.x * zoom, center.y + vp.y * zoom)
  }

  /** Image-centred position of a screen point (the inverse map). */
  function ImagePos(center: Point, s: Point, zoom: real): Point
    requires zoom != 0.0
  {
    Point((s.x - center.x) / zoom, (s.y - center.y) / zoom)
  }

  /** For any non-zero zoom the two maps are mutually inverse. */
  lemma ScreenImageRoundTrip(center: Point, vp: Point, s: Point, zoom: real)
    requires zoom != 0.0
    ensures ImagePos(center, ScreenPos(center, vp, zoom), zoom) == vp
    ensures ScreenPos(center, ImagePos(center, s, zoom), zoom) == s
  {
    assert (vp.x * zoom) / zoom == vp.x;
    assert (vp.y * zoom) / zoom == vp.y;
    assert ((s.x - center.x) / zoom) * zoom == s.x - center.x;
    assert ((s.y - center.y) / zoom) * zoom == s.y - center.y;
  }

  /** Panning by `d` translates the whole drawing by `d`: every point's
      screen position and the image placement move by exactly `d`, the
      placement keeps its size, and with no pan the image centre sits at the
      canvas centre. */
  lemma PanTranslatesView(canvasW: real, canvasH: real, pan: Point, d: Point,
                          vp: Point, zoom: real, natW: real, natH: real)
    ensures var c := ViewCenter(canvasW, canvasH, pan);
            var c' := ViewCenter(canvasW, canvasH, Point(pan.x + d.x, pan.y + d.y));
            var s := ScreenPos(c, vp, zoom);
            var r := Placement(c, natW, natH, zoom);
            ScreenPos(c', vp, zoom) == Point(s.x + d.x, s.y + d.y)
            && Placement(c', natW, natH, zoom) == Rect(r.x + d.x, r.y + d.y, r.w, r.h)
    ensures ScreenPos(ViewCenter(canvasW, canvasH, Point(0.0, 0.0)), Point(0.0, 0.0), zoom)
            == Point(canvasW / 2.0, canvasH / 2.0)
  {
  }

  /** Position of an image-centred point on the export surface, which has the
      image's native size and no pan or zoom. */
  function ExportPos(natW: real, natH: real, vp: Point): Point {
    Point(natW / 2.0 + vp.x, natH / 2.0 + vp.y)
  }

  /** Maps export-surface pixels into the view: scale by zoom, then move to
      the placement's corner. */
  function ToView(r: Rect, zoom: real, p: Point): Point {
    Point(r.x + zoom * p.x, r.y + zoom * p.y)
  }

  /** A point lies within [0, w] x [0, h]. */
  predicate InBounds(p: Point, w: real, h: real) {
    0.0 <= p.x <= w && 0.0 <= p.y <= h
  }

  /** Angle in degrees of ray `i` of a fan of `segments` evenly spaced rays. */
  function RayAngle(i: int, segments: int): real
    requires segments > 0
  {
    i as real * (360.0 / segments as real)
  }

  /** The fan of rays drawn around one point: `segments` rays, ray `i` at
      RayAngle(i, segments); no ray when `segments` is not positive. */
  function Fan(from: Point, segments: int, length: real): seq<Stroke> {
    if segments <= 0 then []
    else seq(segments, i requires 0 <= i < segments => Ray(from, RayAngle(i, segments), length))
  }

  /** A fan has exactly `segments` rays; the first points at 0 degrees, the
      angles stay within [0, 360) and consecutive rays are exactly
      360/segments degrees apart. */
  lemma FanShape(from: Point, segments: int, length: real, i: int)
    requires 0 <= i < segments
    ensures |Fan(from, segments, length)| == segments
    ensures Fan(from, segments, length)[i] == Ray(from, RayAngle(i, segments), length)
    ensures RayAngle(0, segments) == 0.0
    ensures 0.0 <= RayAngle(i, segments) < 360.0
    ensures i + 1 < segments ==> RayAngle(i + 1, segments) - RayAngle(i, segments) == 360.0 / segments as real
  {
    var n := segments as real;
    var step := 360.0 / n;
    assert step > 0.0;
    assert n * step == 360.0;
    assert i as real + 1.0 <= n;
    assert (i as real + 1.0) * step <= n * step;
    assert RayAngle(i, segments) + step == (i as real + 1.0) * step;
  }

  /** Emits the rays of one fan, in order (`for (let i = 0; i < totalSegments; i++)`). */
  method EmitRays(from: Point, segments: int, length: real) returns (rays: seq<Stroke>)
    ensures rays == Fan(from, segments, length)
  {
    rays := [];
    if segments > 0 {
      var step := 360.0 / segments as real;
      var i := 0;
      while i < segments
        invariant 0 <= i <= segments
        invariant rays == Fan(from, segments, length)[..i]
      {
        ghost var fan := Fan(from, segments, length);
        assert fan[..i + 1] == fan[..i] + [fan[i]];
        assert fan[i] == Ray(from, i as real * step, length);
        rays := rays + [Ray(from, i as real * step, length)];
        i := i + 1;
      }
    }
  }

  /** A grid line at `pos` along one axis, from `from` to `to` along the other. */
  function AxisLine(vertical: bool, pos: real, from: real, to: real): Stroke {
    if vertical then Line(Point(pos, from), Point(pos, to))
    else Line(Point(from, pos), Point(to, pos))
  }

  /** The lines `i = 0 .. last` at `origin + i * step`; none when `last` is
      negative. */
  function GridLines(vertical: bool, origin: real, step: real, last: int, from: real, to: real): seq<Stroke> {
    if last < 0 then []
    else seq(last + 1, i => AxisLine(vertical, origin + i as real * step, from, to))
  }

  /** Line `k` of a grid axis. */
  lemma GridLineAt(vertical: bool, origin: real, step: real, last: int, from: real, to: real, k: int)
    requires 0 <= k <= last
    ensures |GridLines(vertical, origin, step, last, from, to)| == last + 1
    ensures GridLines(vertical, origin, step, last, from, to)[k] == AxisLine(vertical, origin + k as real * step, from, to)
  {
    var pos := origin + k as real * step;
    assert GridLines(vertical, origin, step, last, from, to)[k] == AxisLine(vertical, pos, from, to);
  }

  /** Dividing an extent into `n` bands gives `n + 1` lines, the first on the
      extent's start, the last on its end, every one within the extent. */
  lemma GridSpan(vertical: bool, origin: real, extent: real, n: int, from: real, to: real, i: int)
    requires n >= 1 && 0 <= i <= n && extent >= 0.0
    ensures var ls := GridLines(vertical, origin, extent / n as real, n, from, to);
      && |ls| == n + 1
      && ls[0] == AxisLine(vertical, origin, from, to)
      && ls[n] == AxisLine(vertical, origin + extent, from, to)
      && ls[i] == AxisLine(vertical, origin + i as real * (extent / n as real), from, to)
      && origin <= origin + i as real * (extent / n as real) <= origin + extent
  {
    var step := extent / n as real;
    GridLineAt(vertical, origin, step, n, from, to, 0);
    GridLineAt(vertical, origin, step, n, from, to, n);
    GridLineAt(vertical, origin, step, n, from, to, i);
    BandOffset(extent, n, i);
  }

  /** Band `i` of `n` equal bands starts within the extent, band `n` on its end. */
  lemma BandOffset(extent: real, n: int, i: int)
    requires n >= 1 && 0 <= i <= n && extent >= 0.0
    ensures 0.0 * (extent / n as real) == 0.0
    ensures n as real * (extent / n as real) == extent
    ensures 0.0 <= i as real * (extent / n as real) <= extent
  {
    var step := extent / n as real;
    assert step >= 0.0;
    assert i as real * step <= n as real * step;
  }

  /** Emits the lines of one grid axis, in order (`for (let i = 0; i <= last; i++)`). */
  method EmitGridLines(vertical: bool, origin: real, step: real, last: int, from: real, to: real)
    returns (lines: seq<Stroke>)
    ensures lines == GridLines(vertical, origin, step, last, from, to)
  {
    lines := [];
    var i := 0;
    while i <= last
      invariant 0 <= i && (last >= 0 ==> i <= last + 1) && (last < 0 ==> i == 0)
      invariant lines == GridLines(vertical, origin, step, last, from, to)[..i]
    {
      ghost var all := GridLines(vertical, origin, step, last, from, to);
      var line := AxisLine(vertical, origin + i as real * step, from, to);
      GridLineAt(vertical, origin, step, last, from, to, i);
      assert all[..i + 1] == all[..i] + [line];
      lines := lines + [line];
      i := i + 1;
    }
  }

  /** The screen is the export surface scaled by zoom and moved to the image
      placement: a point's screen position, and a grid line's screen
      position, are the export positions mapped by ToView. What is drawn on
      screen therefore matches what is exported. */
  lemma ViewMatchesExport(center: Point, natW: real, natH: real, zoom: real, vp: Point, n: int, i: int)
    requires n != 0
    ensures var r := Placement(center, natW, natH, zoom);
      && ScreenPos(center, vp, zoom) == ToView(r, zoom, ExportPos(natW, natH, vp))
      && r.x + i as real * (r.w / n as real) == ToView(r, zoom, Point(i as real * (natW / n as real), 0.0)).x
      && r.y + i as real * (r.h / n as real) == ToView(r, zoom, Point(0.0, i as real * (natH / n as real))).y
  {
    var r := Placement(center, natW, natH, zoom);
    assert r.w / n as real == zoom * (natW / n as real);
    assert r.h / n as real == zoom * (natH / n as real);
  }
}
