/**
 * The interactive canvas: what one render pass draws (image placement,
 * per-layer style and geometry, guide lines), and the pointer gesture state
 * machine (select, drag a vanishing point, pan, hover, draw guide lines,
 * wheel zoom, view reset) acting on the application state.
 */
module Canvas {
  import opened Types
  import opened History
  import opened Geometry
  import opened LayerOps
  import opened Export
  import opened HitTest
  import opened App

  /** Rays on screen are 10 times the longer canvas side. */
  const ScreenRayScale: real := 10.0

  /** Marker radii on screen: larger for the active layer. */
  const ActiveMarkerRadius: real := 8.0
  const ScreenMarkerRadius: real := 5.0

  /** Wheel sensitivity: zoom change per unit of wheel delta. */
  const WheelStep: real := 0.001

  /** A dashed guide segment in canvas pixels. */
  datatype GuideLine = GuideLine(start: Point, end: Point)

  /** An ongoing drag: the layer, where the pointer went down, and the
      layer's first point at that moment. */
  datatype Drag = Drag(layerId: string, startMouse: Point, originalPoint: Point)

  /** One render pass: where the image goes and at which opacity, each
      visible layer in list order, and the guide lines shown. */
  datatype Frame = Frame(image: Rect, imageAlpha: real, layers: seq<LayerImage>, guides: seq<GuideLine>)

  /** Everything a render pass reads besides the layers. */
  datatype View = View(center: Point, zoom: real, natW: real, natH: real,
                       canvasW: real, canvasH: real,
                       active: Option<string>, hovered: Option<string>, guide: bool)

  /** Opacity of a layer: 1 when active, 0.6 when hovered, 0.3 otherwise,
      all dimmed to a fifth in guide mode. */
  function LayerAlpha(isActive: bool, isHovered: bool, guide: bool): real {
    var base := if isActive then 1.0 else if isHovered then 0.6 else 0.3;
    if guide then base * 0.2 else base
  }

  /** An active or hovered layer is drawn one unit thicker. */
  function StrokeWidth(l: Layer, isActive: bool, isHovered: bool): real {
    if isActive || isHovered then l.width + 1.0 else l.width
  }

  /** The active layer is drawn the most opaque, a hovered one more opaque
      than a plain one; guide mode keeps that order while dimming every
      layer to exactly a fifth; every opacity lies in (0, 1]. A highlighted
      (active or hovered) layer is exactly one unit wider than a plain one. */
  lemma HighlightStyle(l: Layer, isHovered: bool, guide: bool)
    ensures LayerAlpha(false, isHovered, guide) < LayerAlpha(true, isHovered, guide)
    ensures LayerAlpha(false, false, guide) < LayerAlpha(false, true, guide)
    ensures LayerAlpha(true, isHovered, true) == LayerAlpha(true, isHovered, false) / 5.0
    ensures LayerAlpha(false, isHovered, true) == LayerAlpha(false, isHovered, false) / 5.0
    ensures 0.0 < LayerAlpha(false, isHovered, guide) <= 1.0 && 0.0 < LayerAlpha(true, isHovered, guide) <= 1.0
    ensures StrokeWidth(l, true, isHovered) == StrokeWidth(l, false, true) == StrokeWidth(l, false, false) + 1.0
  {
  }

  /** The export strokes a layer the way the screen strokes it with no
      highlight and no dimming: the same colour, the full opacity an active
      layer gets outside guide mode, and the plain width, which is the
      screen width whenever the layer is neither active nor hovered. */
  lemma ExportStyleMatchesScreen(l: Layer, v: View)
    ensures ExportStyle(l).color == ScreenLayer(l, v).style.color
    ensures ExportStyle(l).alpha == LayerAlpha(true, false, false)
    ensures ExportStyle(l).width == StrokeWidth(l, false, false)
    ensures v.active != Some(l.id) && v.hovered != Some(l.id) ==> ExportStyle(l).width == ScreenLayer(l, v).style.width
  {
  }

  /** What one vanishing point contributes on screen: its fan from the
      point's screen position, then, outside guide mode, its marker. */
  function ScreenPointStrokes(l: Layer, v: View, vp: Point): seq<Stroke> {
    var s := ScreenPos(v.center, vp, v.zoom);
    Fan(s, l.density * 4, Max(v.canvasW, v.canvasH) * ScreenRayScale)
      + (if v.guide then [] else [Dot(s, if v.active == Some(l.id) then ActiveMarkerRadius else ScreenMarkerRadius)])
  }

  /** The screen strokes of the points `ps` of layer `l`, in point order. */
  function ScreenPerspectiveStrokes(l: Layer, v: View, ps: seq<Point>): seq<Stroke> {
    if ps == [] then []
    else ScreenPerspectiveStrokes(l, v, ps[..|ps| - 1]) + ScreenPointStrokes(l, v, ps[|ps| - 1])
  }

  /** The screen strokes of one layer. A grid spans the image placement:
      vertical lines `0 .. density` spaced `imgW / density` (density 0 puts
      its one line at NaN, which draws nothing, so there is none here), and
      horizontal lines `0 .. densityY || 1` spaced `imgH / (densityY || 1)`. */
  function ScreenLayerStrokes(l: Layer, v: View): seq<Stroke> {
    match l.kind
    case Perspective => ScreenPerspectiveStrokes(l, v, l.points)
    case OrthoGrid =>
      var r := Placement(v.center, v.natW, v.natH, v.zoom);
      var rows := OptOr(l.densityY, 1);
      (if l.density == 0 then [] else GridLines(true, r.x, r.w / l.density as real, l.density, r.y, r.y + r.h))
        + GridLines(false, r.y, r.h / rows as real, rows, r.x, r.x + r.w)
  }

  /** One layer as drawn on screen. */
  function ScreenLayer(l: Layer, v: View): LayerImage {
    var isActive := v.active == Some(l.id);
    var isHovered := v.hovered == Some(l.id);
    LayerImage(l.id, Style(l.color, LayerAlpha(isActive, isHovered, v.guide), StrokeWidth(l, isActive, isHovered)),
               ScreenLayerStrokes(l, v))
  }

  /** The drawn layers: one image per visible layer, in list order. */
  function ScreenLayers(ls: seq<Layer>, v: View): (r: seq<LayerImage>)
    ensures |r| == |Visible(ls)|
    ensures forall i :: 0 <= i < |r| ==> r[i] == ScreenLayer(Visible(ls)[i], v)
  {
    var vs := Visible(ls);
    seq(|vs|, i requires 0 <= i < |vs| => ScreenLayer(vs[i], v))
  }

  /** The guide lines shown: the finished ones and the one being drawn, and
      only in guide mode. */
  function ShownGuides(guide: bool, lines: seq<GuideLine>, temp: Option<GuideLine>): (r: seq<GuideLine>)
    ensures !guide ==> r == []
    ensures guide ==> |r| == |lines| + (if temp.Some? then 1 else 0) && r[..|lines|] == lines
    ensures guide && temp.Some? ==> r[|lines|] == temp.value
  {
    if !guide then []
    else lines + (match temp case Some(g) => [g] case None => [])
  }

  /** A whole render pass. The image is drawn at 0.6 opacity in guide mode
      and 0.4 otherwise. */
  function RenderFrame(ls: seq<Layer>, v: View, lines: seq<GuideLine>, temp: Option<GuideLine>): Frame {
    Frame(Placement(v.center, v.natW, v.natH, v.zoom), if v.guide then 0.6 else 0.4,
          ScreenLayers(ls, v), ShownGuides(v.guide, lines, temp))
  }

  /** A hidden layer, wherever it sits in the list, changes nothing that is
      drawn. */
  lemma HiddenLayerNotDrawn(a: seq<Layer>, l: Layer, b: seq<Layer>, v: View)
    requires !l.visible
    ensures ScreenLayers(a + [l] + b, v) == ScreenLayers(a + b, v)
  {
    VisibleSkipsHidden(a, l, b);
  }

  /** One more layer at the end adds its image exactly when it is visible. */
  lemma ScreenLayersSnoc(ls: seq<Layer>, l: Layer, v: View)
    ensures ScreenLayers(ls + [l], v) == ScreenLayers(ls, v) + (if l.visible then [ScreenLayer(l, v)] else [])
  {
    VisibleSnoc(ls, l);
    var before := ScreenLayers(ls, v);
    assert before + [] == before;
  }

  /** One step of the draw loop: layer `k` adds its image to those of the
      layers before it exactly when it is visible. */
  lemma ScreenLayersStep(ls: seq<Layer>, k: int, v: View)
    requires 0 <= k < |ls|
    ensures ScreenLayers(ls[..k + 1], v) == ScreenLayers(ls[..k], v) + (if ls[k].visible then [ScreenLayer(ls[k], v)] else [])
  {
    assert ls[..k + 1] == ls[..k] + [ls[k]];
    ScreenLayersSnoc(ls[..k], ls[k], v);
  }

  /** A stroke on the export surface, mapped into the view: positions by
      ToView, lengths scaled by the zoom. */
  function MapStroke(r: Rect, zoom: real, s: Stroke): Stroke {
    match s
    case Line(a, b) => Line(ToView(r, zoom, a), ToView(r, zoom, b))
    case Ray(a, angle, length) => Ray(ToView(r, zoom, a), angle, length * zoom)
    case Dot(c, radius) => Dot(ToView(r, zoom, c), radius * zoom)
  }

  /** Vertical grid line `k` on screen is export line `k` mapped into the view. */
  lemma ColumnToView(r: Rect, zoom: real, natW: real, natH: real, n: int, k: int)
    requires r.w == natW * zoom && r.h == natH * zoom && n >= 1 && 0 <= k <= n
    ensures GridLines(true, r.x, r.w / n as real, n, r.y, r.y + r.h)[k]
         == MapStroke(r, zoom, GridLines(true, 0.0, natW / n as real, n, 0.0, natH)[k])
  {
    var q := natW / n as real;
    var x := k as real * q;
    var pos := r.x + k as real * (r.w / n as real);
    GridLineAt(true, 0.0, q, n, 0.0, natH, k);
    GridLineAt(true, r.x, r.w / n as real, n, r.y, r.y + r.h, k);
    ScaledStep(natW, zoom, n, k);
    assert pos == r.x + zoom * x;
    assert zoom * natH == r.h && zoom * 0.0 == 0.0;
    assert MapStroke(r, zoom, AxisLine(true, 0.0 + x, 0.0, natH)) == AxisLine(true, pos, r.y, r.y + r.h);
  }

  /** Step `k` of a grid over an extent scaled by `zoom` is step `k` of the
      unscaled grid, scaled. */
  lemma ScaledStep(extent: real, zoom: real, n: int, k: int)
    requires n >= 1
    ensures k as real * ((extent * zoom) / n as real) == zoom * (k as real * (extent / n as real))
  {
    var q := extent / n as real;
    assert q * n as real == extent;
    assert (extent * zoom) / n as real == zoom * q;
  }

  /** Horizontal grid line `k` on screen is export line `k` mapped into the view. */
  lemma RowToView(r: Rect, zoom: real, natW: real, natH: real, n: int, k: int)
    requires r.w == natW * zoom && r.h == natH * zoom && n >= 1 && 0 <= k <= n
    ensures GridLines(false, r.y, r.h / n as real, n, r.x, r.x + r.w)[k]
         == MapStroke(r, zoom, GridLines(false, 0.0, natH / n as real, n, 0.0, natW)[k])
  {
    var q := natH / n as real;
    var y := k as real * q;
    var pos := r.y + k as real * (r.h / n as real);
    GridLineAt(false, 0.0, q, n, 0.0, natW, k);
    GridLineAt(false, r.y, r.h / n as real, n, r.x, r.x + r.w, k);
    ScaledStep(natH, zoom, n, k);
    assert pos == r.y + zoom * y;
    assert zoom * natW == r.w && zoom * 0.0 == 0.0;
    assert MapStroke(r, zoom, AxisLine(false, 0.0 + y, 0.0, natW)) == AxisLine(false, pos, r.x, r.x + r.w);
  }

  /** A grid with positive densities is drawn as its columns, then its rows. */
  lemma ScreenGridParts(l: Layer, v: View)
    requires l.kind == OrthoGrid && l.density >= 1 && l.densityY.Some? && l.densityY.value >= 1
    ensures var r := Placement(v.center, v.natW, v.natH, v.zoom);
      var n := l.density;
      var m := l.densityY.value;
      ScreenLayerStrokes(l, v)
        == GridLines(true, r.x, r.w / n as real, n, r.y, r.y + r.h) + GridLines(false, r.y, r.h / m as real, m, r.x, r.x + r.w)
  {
  }

  /** A grid with positive densities is exported as its columns, then its rows. */
  lemma ExportGridParts(l: Layer, w: real, h: real)
    requires l.kind == OrthoGrid && l.density >= 1 && l.densityY.Some? && l.densityY.value >= 1
    ensures ExportLayerStrokes(l, w, h)
        == GridLines(true, 0.0, w / l.density as real, l.density, 0.0, h)
         + GridLines(false, 0.0, h / l.densityY.value as real, l.densityY.value, 0.0, w)
  {
  }

  /** A grid is drawn on screen exactly where it is exported, mapped into the
      view: the screen image has the export's lines, in the same order, each
      with both ends moved by ToView. */
  lemma ScreenGridMatchesExport(l: Layer, v: View, k: int)
    requires l.kind == OrthoGrid && l.density >= 1 && l.densityY.Some? && l.densityY.value >= 1
    ensures var c := ScreenLayerStrokes(l, v);
      var e := ExportLayerStrokes(l, v.natW, v.natH);
      && |c| == |e| == l.density + 1 + l.densityY.value + 1
      && (0 <= k < |c| ==> c[k] == MapStroke(Placement(v.center, v.natW, v.natH, v.zoom), v.zoom, e[k]))
  {
    var r := Placement(v.center, v.natW, v.natH, v.zoom);
    var n := l.density;
    var m := l.densityY.value;
    ScreenGridParts(l, v);
    ExportGridParts(l, v.natW, v.natH);
    if 0 <= k <= n {
      ColumnToView(r, v.zoom, v.natW, v.natH, n, k);
    } else if n < k <= n + 1 + m {
      RowToView(r, v.zoom, v.natW, v.natH, m, k - n - 1);
    }
  }

  /** The wheel handler's zoom: `zoom - deltaY * 0.001` clamped to
      [MinZoom, MaxZoom]. */
  function WheelZoom(zoom: real, deltaY: real): (z: real)
    ensures MinZoom <= z <= MaxZoom
  {
    var wanted := zoom - deltaY * WheelStep;
    var low := if wanted >= MinZoom then wanted else MinZoom;
    if low <= MaxZoom then low else MaxZoom
  }

  /** Wheeling down never zooms in and wheeling up never zooms out (from a
      zoom within range), and inside the range the step is exactly
      `deltaY / 1000`. */
  lemma WheelZoomDirection(zoom: real, deltaY: real)
    requires MinZoom <= zoom <= MaxZoom
    ensures deltaY >= 0.0 ==> WheelZoom(zoom, deltaY) <= zoom
    ensures deltaY <= 0.0 ==> WheelZoom(zoom, deltaY) >= zoom
    ensures MinZoom <= zoom - deltaY * WheelStep <= MaxZoom ==> WheelZoom(zoom, deltaY) == zoom - deltaY / 1000.0
  {
  }

  /** Where a drag puts the layer's point: the original point moved by the
      pointer's travel divided by the zoom. */
  function Dragged(d: Drag, m: Point, zoom: real): Point
    requires zoom != 0.0
  {
    Point(d.originalPoint.x + (m.x - d.startMouse.x) / zoom,
          d.originalPoint.y + (m.y - d.startMouse.y) / zoom)
  }

  /** The dragged point stays under the pointer: its screen position is the
      original point's screen position moved by exactly the pointer's
      travel, and with no travel the point does not move. */
  lemma DragTracksPointer(d: Drag, m: Point, center: Point, zoom: real)
    requires zoom != 0.0
    ensures ScreenPos(center, Dragged(d, m, zoom), zoom)
         == Point(ScreenPos(center, d.originalPoint, zoom).x + (m.x - d.startMouse.x),
                  ScreenPos(center, d.originalPoint, zoom).y + (m.y - d.startMouse.y))
    ensures Dragged(d, d.startMouse, zoom) == d.originalPoint
  {
    assert ((m.x - d.startMouse.x) / zoom) * zoom == m.x - d.startMouse.x;
    assert ((m.y - d.startMouse.y) / zoom) * zoom == m.y - d.startMouse.y;
  }

  /** Dragging (10, 10) by (20, 10) screen pixels at zoom 2 moves it to
      (20, 15). */
  lemma DragExample()
    ensures Dragged(Drag("vp-1", Point(0.0, 0.0), Point(10.0, 10.0)), Point(20.0, 10.0), 2.0) == Point(20.0, 15.0)
  {
  }

  /** A layer a pointer-down may start dragging: unlocked and perspective. */
  predicate Draggable(l: Layer) {
    !l.locked && l.kind == Perspective
  }

  /** The point a drag starts from: the layer's first point. A perspective
      layer without points has none (`mousedown` reads NaN); this model uses
      the image centre. */
  function DragOrigin(l: Layer): Point {
    if |l.points| > 0 then l.points[0] else Point(0.0, 0.0)
  }

  /** The drag a pointer-down at `m` on layer `id` starts: the first layer
      with that id is looked up, and only a draggable one is dragged. */
  function DragStart(ls: seq<Layer>, id: string, m: Point): Option<Drag> {
    match FindById(ls, id)
    case None => None
    case Some(k) => if Draggable(ls[k]) then Some(Drag(id, m, DragOrigin(ls[k]))) else None
  }

  /** With distinct ids, a pointer-down that hits a layer starts a drag
      exactly when that layer is a perspective layer, from that layer's
      first point; a grid is selected but never dragged. */
  lemma DragStartOnHit(ls: seq<Layer>, p: Probe, m: Point)
    requires forall a, b :: 0 <= a < b < |ls| ==> ls[a].id != ls[b].id
    requires TopHit(ls, p).Some?
    ensures exists k :: (
      && IsTopHit(ls, p, k)
      && (DragStart(ls, TopHit(ls, p).value.id, m).Some? <==> ls[k].kind == Perspective)
      && (ls[k].kind == Perspective ==>
            DragStart(ls, TopHit(ls, p).value.id, m) == Some(Drag(ls[k].id, m, ls[k].points[0]))))
  {
    TopHitMeaning(ls, p);
    var k :| IsTopHit(ls, p, k) && TopHit(ls, p).value == Hit(ls[k].id, LayerHit(ls[k], p).value);
    var f := FindById(ls, ls[k].id);
    assert f.Some? && f.value == k;
    if ls[k].kind == Perspective {
      assert LayerHit(ls[k], p) == PointsHit(p, ls[k].points, ls[k].density * 4);
      assert ls[k].points != [];
    }
  }

  /** The id a hit names, if any. */
  function HitId(h: Option<Hit>): Option<string> {
    match h
    case Some(x) => Some(x.id)
    case None => None
  }

  /** One vanishing point on screen: its fan, then its marker outside guide
      mode. */
  method DrawPoint(l: Layer, v: View, vp: Point) returns (strokes: seq<Stroke>)
    ensures strokes == ScreenPointStrokes(l, v, vp)
  {
    var s := ScreenPos(v.center, vp, v.zoom);
    strokes := EmitRays(s, l.density * 4, Max(v.canvasW, v.canvasH) * ScreenRayScale);
    if !v.guide {
      strokes := strokes + [Dot(s, if v.active == Some(l.id) then ActiveMarkerRadius else ScreenMarkerRadius)];
    }
  }

  /** One layer on screen: its strokes with its highlight style. */
  method DrawImage(l: Layer, v: View) returns (image: LayerImage)
    ensures image == ScreenLayer(l, v)
  {
    var strokes := DrawLayer(l, v);
    var isActive := v.active == Some(l.id);
    var isHovered := v.hovered == Some(l.id);
    image := LayerImage(l.id, Style(l.color, LayerAlpha(isActive, isHovered, v.guide), StrokeWidth(l, isActive, isHovered)), strokes);
  }

  /** The per-layer part of `draw`: for a perspective layer, each point's
      ray loop and marker; for a grid, the vertical then horizontal loops. */
  method DrawLayer(l: Layer, v: View) returns (strokes: seq<Stroke>)
    ensures strokes == ScreenLayerStrokes(l, v)
  {
    if l.kind == Perspective {
      strokes := [];
      var k := 0;
      while k < |l.points|
        invariant 0 <= k <= |l.points|
        invariant strokes == ScreenPerspectiveStrokes(l, v, l.points[..k])
      {
        assert l.points[..k + 1][..k] == l.points[..k];
        var pointStrokes := DrawPoint(l, v, l.points[k]);
        strokes := strokes + pointStrokes;
        k := k + 1;
      }
      assert l.points[..k] == l.points;
    } else {
      var r := Placement(v.center, v.natW, v.natH, v.zoom);
      var columns := [];
      if l.density != 0 {
        columns := EmitGridLines(true, r.x, r.w / l.density as real, l.density, r.y, r.y + r.h);
      }
      var rows := OptOr(l.densityY, 1);
      var lines := EmitGridLines(false, r.y, r.h / rows as real, rows, r.x, r.x + r.w);
      strokes := columns + lines;
    }
  }

  /** The layer loop of `draw`: each visible layer drawn in list order. */
  method DrawLayers(ls: seq<Layer>, v: View) returns (images: seq<LayerImage>)
    ensures images == ScreenLayers(ls, v)
  {
    images := [];
    var k := 0;
    while k < |ls|
      invariant 0 <= k <= |ls|
      invariant images == ScreenLayers(ls[..k], v)
    {
      ScreenLayersStep(ls, k, v);
      if ls[k].visible {
        var image := DrawImage(ls[k], v);
        images := images + [image];
      }
      k := k + 1;
    }
    assert ls[..k] == ls;
  }

  /** The canvas view state over an application state. */
  class CanvasView {
    const app: AppState
    const canvasW: real
    const canvasH: real
    /** The trigonometric ray test the hit-tester uses (see HitTest.Probe). */
    const rayHit: (Point, real) -> bool

    var drag: Option<Drag>
    var hovered: Option<string>
    var pan: Point
    var isPanning: bool
    var lastMousePos: Point
    var guideLines: seq<GuideLine>
    var tempGuide: Option<GuideLine>

    /** The canvas is only shown once an image is loaded. */
    ghost predicate Valid()
      reads this, app
    {
      app.Valid() && app.image.Some?
    }

    constructor (app: AppState, canvasW: real, canvasH: real, rayHit: (Point, real) -> bool)
      requires app.Valid() && app.image.Some?
      ensures Valid()
      ensures this.app == app && this.canvasW == canvasW && this.canvasH == canvasH && this.rayHit == rayHit
      ensures drag == None && hovered == None && pan == Point(0.0, 0.0) && !isPanning
      ensures lastMousePos == Point(0.0, 0.0) && guideLines == [] && tempGuide == None
    {
      this.app := app;
      this.canvasW := canvasW;
      this.canvasH := canvasH;
      this.rayHit := rayHit;
      drag := None;
      hovered := None;
      pan := Point(0.0, 0.0);
      isPanning := false;
      lastMousePos := Point(0.0, 0.0);
      guideLines := [];
      tempGuide := None;
    }

    /** The hit-test input for a pointer at `m` (canvas pixels). */
    function ProbeAt(m: Point): Probe
      reads this, app
      requires app.image.Some?
    {
      Probe(m, ViewCenter(canvasW, canvasH, pan), app.workspaceZoom,
            app.image.value.naturalWidth, app.image.value.naturalHeight, rayHit)
    }

    /** The render-pass input. */
    function ViewOf(): View
      reads this, app
      requires app.image.Some?
    {
      View(ViewCenter(canvasW, canvasH, pan), app.workspaceZoom,
           app.image.value.naturalWidth, app.image.value.naturalHeight,
           canvasW, canvasH, app.activeLayerId, hovered, app.isGuideMode)
    }

    /** `draw`: one render pass of the current state. */
    method Draw() returns (frame: Frame)
      requires Valid()
      ensures frame == RenderFrame(app.layers, ViewOf(), guideLines, tempGuide)
    {
      var v := ViewOf();
      var r := Placement(v.center, v.natW, v.natH, v.zoom);
      var images := DrawLayers(app.layers, v);
      var guides := if v.guide then guideLines + (if tempGuide.Some? then [tempGuide.value] else []) else [];
      assert guides == ShownGuides(v.guide, guideLines, tempGuide);
      frame := Frame(r, if v.guide then 0.6 else 0.4, images, guides);
    }

    /** `mousedown`. In guide mode it starts a guide line at the pointer.
        Otherwise Alt + primary button starts panning from `client`. Otherwise
        the layer under the pointer becomes active (none when nothing is hit)
        and, when it may be dragged, a snapshot is pushed and a drag starts. */
    method MouseDown(m: Point, client: Point, button: int, altKey: bool)
      requires Valid()
      modifies this, app
      ensures Valid()
      ensures app.image == old(app.image) && app.layers == old(app.layers)
      ensures app.workspaceZoom == old(app.workspaceZoom) && app.isGuideMode == old(app.isGuideMode)
      ensures hovered == old(hovered) && pan == old(pan) && guideLines == old(guideLines)
      ensures old(app.isGuideMode) ==>
        && tempGuide == Some(GuideLine(m, m))
        && drag == old(drag) && isPanning == old(isPanning) && lastMousePos == old(lastMousePos)
        && app.activeLayerId == old(app.activeLayerId) && app.history == old(app.history)
      ensures !old(app.isGuideMode) && button == 0 && altKey ==>
        && isPanning && lastMousePos == client
        && tempGuide == old(tempGuide) && drag == old(drag)
        && app.activeLayerId == old(app.activeLayerId) && app.history == old(app.history)
      ensures !old(app.isGuideMode) && !(button == 0 && altKey) ==>
        var hit := TopHit(old(app.layers), old(ProbeAt(m)));
        && tempGuide == old(tempGuide) && isPanning == old(isPanning) && lastMousePos == old(lastMousePos)
        && app.activeLayerId == HitId(hit)
        && (hit.Some? && DragStart(old(app.layers), hit.value.id, m).Some? ==>
              drag == DragStart(old(app.layers), hit.value.id, m) && app.history == Push(old(app.history), old(app.layers)))
        && (!(hit.Some? && DragStart(old(app.layers), hit.value.id, m).Some?) ==>
              drag == old(drag) && app.history == old(app.history))
    {
      if app.isGuideMode {
        tempGuide := Some(GuideLine(m, m));
        return;
      }
      if button == 0 && altKey {
        isPanning := true;
        lastMousePos := client;
        return;
      }
      var hit := CheckCollision(app.layers, ProbeAt(m));
      if hit.Some? {
        app.activeLayerId := Some(hit.value.id);
        var start := DragStart(app.layers, hit.value.id, m);
        if start.Some? {
          app.SaveToHistory();
          drag := start;
        }
      } else {
        app.activeLayerId := None;
      }
    }

    /** `mousemove`. While a guide line is being drawn only its end follows
        the pointer. Otherwise, when neither dragging nor panning, the hovered
        layer is re-computed; a drag moves the dragged layer's point to follow
        the pointer (no snapshot), and panning moves the view by the
        pointer's travel since the last event. */
    method MouseMove(m: Point, client: Point)
      requires Valid()
      modifies this, app
      ensures Valid()
      ensures app.image == old(app.image) && app.history == old(app.history)
      ensures app.activeLayerId == old(app.activeLayerId)
      ensures app.workspaceZoom == old(app.workspaceZoom) && app.isGuideMode == old(app.isGuideMode)
      ensures guideLines == old(guideLines) && drag == old(drag) && isPanning == old(isPanning)
      ensures old(app.isGuideMode) && old(tempGuide).Some? ==>
        && tempGuide == Some(old(tempGuide).value.(end := m))
        && hovered == old(hovered) && app.layers == old(app.layers)
        && pan == old(pan) && lastMousePos == old(lastMousePos)
      ensures !(old(app.isGuideMode) && old(tempGuide).Some?) ==>
        && tempGuide == old(tempGuide)
        && hovered == (if old(drag).None? && !old(isPanning) then HitId(TopHit(old(app.layers), old(ProbeAt(m)))) else old(hovered))
        && (old(drag).Some? ==>
              && app.layers == DragTo(old(app.layers), old(drag).value.layerId, Dragged(old(drag).value, m, old(app.workspaceZoom)))
              && pan == old(pan) && lastMousePos == old(lastMousePos))
        && (old(drag).None? && old(isPanning) ==>
              && pan == Point(old(pan).x + (client.x - old(lastMousePos).x), old(pan).y + (client.y - old(lastMousePos).y))
              && lastMousePos == client && app.layers == old(app.layers))
        && (old(drag).None? && !old(isPanning) ==>
              app.layers == old(app.layers) && pan == old(pan) && lastMousePos == old(lastMousePos))
    {
      if app.isGuideMode && tempGuide.Some? {
        tempGuide := Some(tempGuide.value.(end := m));
        return;
      }
      if drag.None? && !isPanning {
        var hit := CheckCollision(app.layers, ProbeAt(m));
        hovered := HitId(hit);
      }
      if drag.Some? {
        var d := drag.value;
        app.layers := DragTo(app.layers, d.layerId, Dragged(d, m, app.workspaceZoom));
      } else if isPanning {
        pan := Point(pan.x + (client.x - lastMousePos.x), pan.y + (client.y - lastMousePos.y));
        lastMousePos := client;
      }
    }

    /** `mouseup`, also bound to `mouseleave`. A guide line being drawn is
        kept; otherwise any drag or pan ends. */
    method MouseUp()
      requires Valid()
      modifies this
      ensures Valid()
      ensures hovered == old(hovered) && pan == old(pan) && lastMousePos == old(lastMousePos)
      ensures old(app.isGuideMode) && old(tempGuide).Some? ==>
        && guideLines == old(guideLines) + [old(tempGuide).value] && tempGuide == None
        && drag == old(drag) && isPanning == old(isPanning)
      ensures !(old(app.isGuideMode) && old(tempGuide).Some?) ==>
        && guideLines == old(guideLines) && tempGuide == old(tempGuide)
        && drag == None && !isPanning
    {
      if app.isGuideMode && tempGuide.Some? {
        guideLines := guideLines + [tempGuide.value];
        tempGuide := None;
        return;
      }
      drag := None;
      isPanning := false;
    }

    /** `wheel`: zooms by the wheel delta, within [MinZoom, MaxZoom]. */
    method Wheel(deltaY: real)
      requires Valid()
      modifies app`workspaceZoom
      ensures Valid()
      ensures app.workspaceZoom == WheelZoom(old(app.workspaceZoom), deltaY)
    {
      app.workspaceZoom := WheelZoom(app.workspaceZoom, deltaY);
    }

    /** The reset button: no pan and the default zoom. */
    method Reset()
      requires Valid()
      modifies this`pan, app`workspaceZoom
      ensures Valid()
      ensures pan == Point(0.0, 0.0) && app.workspaceZoom == DefaultZoom
    {
      pan := Point(0.0, 0.0);
      app.workspaceZoom := DefaultZoom;
    }
  }
}
