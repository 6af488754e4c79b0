/**
 * The export renderer's per-layer geometry: the overlay drawn on a surface
 * of the image's native size, with no pan, zoom, hover or active state.
 */
module Export {
  import opened Types
  import opened Geometry

  /** How a layer is stroked: colour, opacity and line width. */
  datatype Style = Style(color: string, alpha: real, width: real)

  /** One layer as drawn on a surface: its style and its strokes. */
  datatype LayerImage = LayerImage(id: string, style: Style, strokes: seq<Stroke>)

  /** Rays are 20 times the longer surface side, so they always leave it. */
  const ExportRayScale: real := 20.0

  /** Marker radius for a stroke width: `width * 3 + 2`. */
  function MarkerRadius(width: real): real {
    width * 3.0 + 2.0
  }

  /** What one vanishing point contributes to the export: its fan, then its
      marker when the point lies on the surface. */
  function PointStrokes(vp: Point, segments: int, w: real, h: real, width: real): seq<Stroke> {
    var c := ExportPos(w, h, vp);
    Fan(c, segments, Max(w, h) * ExportRayScale)
      + (if InBounds(c, w, h) then [Dot(c, MarkerRadius(width))] else [])
  }

  /** The strokes of all points of a perspective layer, in point order. */
  function PerspectiveStrokes(ps: seq<Point>, segments: int, w: real, h: real, width: real): seq<Stroke> {
    if ps == [] then []
    else PerspectiveStrokes(ps[..|ps| - 1], segments, w, h, width) + PointStrokes(ps[|ps| - 1], segments, w, h, width)
  }

  /** `renderLayerToCanvas` on a `w` x `h` surface. A perspective layer
      draws `density * 4` rays per point; a grid draws vertical lines
      `0 .. density || 0` spaced `w / (density || 1)` and horizontal lines
      `0 .. densityY || 0` spaced `h / (densityY || 1)`. */
  function ExportLayerStrokes(l: Layer, w: real, h: real): seq<Stroke> {
    match l.kind
    case Perspective =>
      PerspectiveStrokes(l.points, l.density * 4, w, h, l.width)
    case OrthoGrid =>
      GridLines(true, 0.0, w / Or(l.density, 1) as real, Or(l.density, 0), 0.0, h)
        + GridLines(false, 0.0, h / OptOr(l.densityY, 1) as real, OptOr(l.densityY, 0), 0.0, w)
  }

  /** How the export strokes a layer: its own colour and width, at full
      opacity (the export surface never lowers its alpha) and with no
      active or hover highlight. */
  function ExportStyle(l: Layer): Style {
    Style(l.color, 1.0, l.width)
  }

  /** One layer as drawn on the export surface. */
  function ExportImage(l: Layer, w: real, h: real): LayerImage {
    LayerImage(l.id, ExportStyle(l), ExportLayerStrokes(l, w, h))
  }

  /** Every layer of `ls` drawn one after another on the same surface (the
      merged export). */
  function MergedImages(ls: seq<Layer>, w: real, h: real): seq<LayerImage> {
    if ls == [] then []
    else MergedImages(ls[..|ls| - 1], w, h) + [ExportImage(ls[|ls| - 1], w, h)]
  }

  /** The merged export holds one image per layer, in list order, and each
      keeps its own layer's colour, width and strokes. */
  lemma {:induction false} MergedImagesAt(ls: seq<Layer>, w: real, h: real)
    ensures |MergedImages(ls, w, h)| == |ls|
    ensures forall i :: 0 <= i < |ls| ==> MergedImages(ls, w, h)[i] == ExportImage(ls[i], w, h)
  {
    if ls != [] {
      var init := ls[..|ls| - 1];
      MergedImagesAt(init, w, h);
      var all := MergedImages(ls, w, h);
      assert all == MergedImages(init, w, h) + [ExportImage(ls[|ls| - 1], w, h)];
      forall i | 0 <= i < |ls|
        ensures all[i] == ExportImage(ls[i], w, h)
      {
        if i < |init| {
          assert ls[i] == init[i];
        }
      }
    }
  }

  /** One point of a perspective layer exports `density * 4` rays from its
      export position and a marker exactly when that position is on the
      surface. */
  lemma PointStrokesShape(vp: Point, density: int, w: real, h: real, width: real)
    requires density >= 1
    ensures var s := PointStrokes(vp, density * 4, w, h, width);
      var c := ExportPos(w, h, vp);
      && s[..density * 4] == Fan(c, density * 4, Max(w, h) * ExportRayScale)
      && (|s| == density * 4 + 1 <==> InBounds(c, w, h))
      && (InBounds(c, w, h) ==> s[density * 4] == Dot(c, MarkerRadius(width)))
      && (!InBounds(c, w, h) ==> |s| == density * 4)
  {
    var c := ExportPos(w, h, vp);
    var fan := Fan(c, density * 4, Max(w, h) * ExportRayScale);
    assert |fan| == density * 4;
  }

  /** A grid with `density >= 1` and `densityY >= 1` exports `density + 1`
      vertical lines from x = 0 to x = w, then `densityY + 1` horizontal
      lines from y = 0 to y = h, each spanning the whole surface. */
  lemma ExportGridShape(l: Layer, w: real, h: real, i: int, j: int)
    requires l.kind == OrthoGrid && l.density >= 1 && l.densityY.Some? && l.densityY.value >= 1
    requires w >= 0.0 && h >= 0.0
    requires 0 <= i <= l.density && 0 <= j <= l.densityY.value
    ensures var s := ExportLayerStrokes(l, w, h);
      var n := l.density;
      var m := l.densityY.value;
      && |s| == n + 1 + m + 1
      && s[0] == Line(Point(0.0, 0.0), Point(0.0, h))
      && s[n] == Line(Point(w, 0.0), Point(w, h))
      && s[i] == Line(Point(i as real * (w / n as real), 0.0), Point(i as real * (w / n as real), h))
      && 0.0 <= i as real * (w / n as real) <= w
      && s[n + 1] == Line(Point(0.0, 0.0), Point(w, 0.0))
      && s[n + 1 + m] == Line(Point(0.0, h), Point(w, h))
      && s[n + 1 + j] == Line(Point(0.0, j as real * (h / m as real)), Point(w, j as real * (h / m as real)))
  {
    var n := l.density;
    var m := l.densityY.value;
    GridSpan(true, 0.0, w, n, 0.0, h, i);
    GridSpan(false, 0.0, h, m, 0.0, w, j);
    var xs := GridLines(true, 0.0, w / n as real, n, 0.0, h);
    var ys := GridLines(false, 0.0, h / m as real, m, 0.0, w);
    assert ExportLayerStrokes(l, w, h) == xs + ys;
    assert ys[0] == AxisLine(false, 0.0, 0.0, w);
  }

  /** The `||` fallbacks of the export: a grid without `densityY` exports
      exactly one horizontal line, the top edge y = 0 (`|| 0` leaves one
      iteration, `|| 1` gives step h), and one with density 0 still exports
      the single vertical line x = 0. */
  lemma ExportGridFallbacks(l: Layer, w: real, h: real)
    requires l.kind == OrthoGrid
    ensures l.densityY.None? && l.density >= 0 ==>
      var s := ExportLayerStrokes(l, w, h);
      |s| == l.density + 2 && s[l.density + 1] == Line(Point(0.0, 0.0), Point(w, 0.0))
    ensures l.density == 0 ==> ExportLayerStrokes(l, w, h)[0] == Line(Point(0.0, 0.0), Point(0.0, h))
  {
    var xs := GridLines(true, 0.0, w / Or(l.density, 1) as real, Or(l.density, 0), 0.0, h);
    var ys := GridLines(false, 0.0, h / OptOr(l.densityY, 1) as real, OptOr(l.densityY, 0), 0.0, w);
    assert ExportLayerStrokes(l, w, h) == xs + ys;
    if l.density == 0 {
      assert xs[0] == AxisLine(true, 0.0 + 0.0 * (w / 1.0), 0.0, h);
    }
    if l.densityY.None? && l.density >= 0 {
      assert ys[0] == AxisLine(false, 0.0 + 0.0 * (h / 1.0), 0.0, w);
    }
  }

  /** A 1000 x 1000 image with a density-10 grid exports vertical lines at
      x = 0, 100, ..., 1000. */
  lemma ExportGridExample(l: Layer, i: int)
    requires l.kind == OrthoGrid && l.density == 10 && l.densityY == Some(10)
    requires 0 <= i <= 10
    ensures ExportLayerStrokes(l, 1000.0, 1000.0)[i] == Line(Point(100.0 * i as real, 0.0), Point(100.0 * i as real, 1000.0))
  {
    ExportGridShape(l, 1000.0, 1000.0, i, 0);
  }

  /** One vanishing point of the export: its ray loop, then its marker when
      the point lies on the surface. */
  method RenderPoint(vp: Point, segments: int, w: real, h: real, width: real) returns (strokes: seq<Stroke>)
    ensures strokes == PointStrokes(vp, segments, w, h, width)
  {
    var pos := ExportPos(w, h, vp);
    strokes := EmitRays(pos, segments, Max(w, h) * ExportRayScale);
    if pos.x >= 0.0 && pos.x <= w && pos.y >= 0.0 && pos.y <= h {
      strokes := strokes + [Dot(pos, MarkerRadius(width))];
    }
  }

  /** The per-point loop of a perspective layer. */
  method RenderPerspective(ps: seq<Point>, segments: int, w: real, h: real, width: real)
    returns (strokes: seq<Stroke>)
    ensures strokes == PerspectiveStrokes(ps, segments, w, h, width)
  {
    strokes := [];
    var k := 0;
    while k < |ps|
      invariant 0 <= k <= |ps|
      invariant strokes == PerspectiveStrokes(ps[..k], segments, w, h, width)
    {
      assert ps[..k + 1][..k] == ps[..k];
      var pointStrokes := RenderPoint(ps[k], segments, w, h, width);
      strokes := strokes + pointStrokes;
      k := k + 1;
    }
    assert ps[..k] == ps;
  }

  /** `renderLayerToCanvas`: the per-point loop with its ray loop for a
      perspective layer, the two line loops for a grid. */
  method RenderLayer(l: Layer, w: real, h: real) returns (strokes: seq<Stroke>)
    ensures strokes == ExportLayerStrokes(l, w, h)
  {
    if l.kind == Perspective {
      strokes := RenderPerspective(l.points, l.density * 4, w, h, l.width);
    } else {
      var dx := w / Or(l.density, 1) as real;
      var dy := h / OptOr(l.densityY, 1) as real;
      var columns := EmitGridLines(true, 0.0, dx, Or(l.density, 0), 0.0, h);
      var rows := EmitGridLines(false, 0.0, dy, OptOr(l.densityY, 0), 0.0, w);
      strokes := columns + rows;
    }
  }

  /** `renderLayerToCanvas` with the stroke style it sets. */
  method RenderImage(l: Layer, w: real, h: real) returns (image: LayerImage)
    ensures image == ExportImage(l, w, h)
  {
    var strokes := RenderLayer(l, w, h);
    image := LayerImage(l.id, Style(l.color, 1.0, l.width), strokes);
  }
}
