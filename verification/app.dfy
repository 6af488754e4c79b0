/**
 * The application state controller: the layer list, the undo history, the
 * active layer, the loaded image's size and the workspace zoom, with the
 * operations the control panel and the canvas invoke on them, and the
 * export of the visible layers.
 */
module App {
  import opened Types
  import opened History
  import opened Geometry
  import opened LayerOps
  import opened Export

  /** Colours given to new layers in turn. */
  const PresetColors: seq<string> := ["#3b82f6", "#ef4444", "#10b981", "#f59e0b", "#8b5cf6", "#ec4899"]

  /** Name prefixes of new layers ("vanishing point n", "reference grid n"). */
  const PerspectiveName: string := "消失點 "
  const GridName: string := "參考網格 "

  /** The decoded image, reduced to what the engine uses: its natural size. */
  datatype ImageSize = ImageSize(naturalWidth: real, naturalHeight: real)

  /** One exported raster: its download name and the overlay drawn on it,
      layer by layer with each layer's stroke style. */
  datatype ExportFile = ExportFile(filename: string, layers: seq<LayerImage>)

  /** A new layer's id, `vp-<ms timestamp>`; the timestamp is a parameter. */
  function LayerId(now: nat): string {
    "vp-" + NatToString(now)
  }

  /** The layer `addLayer` appends to a list of `count` layers. */
  function NewLayer(kind: LayerKind, count: nat, initialPoint: Option<Point>, now: nat): (l: Layer)
    ensures l.id == LayerId(now) && l.kind == kind
    ensures l.visible && !l.locked && l.width == 1.0
    ensures l.color == PresetColors[count % |PresetColors|]
    ensures kind == Perspective ==>
      && l.name == PerspectiveName + NatToString(count + 1)
      && l.points == [match initialPoint case Some(p) => p case None => Point(0.0, 0.0)]
      && l.density == 12 && l.densityY.None?
    ensures kind == OrthoGrid ==>
      && l.name == GridName + NatToString(count + 1)
      && l.points == [] && l.density == 10 && l.densityY == Some(10)
    ensures WellShaped(l)
  {
    var perspective := kind == Perspective;
    Layer(
      LayerId(now),
      (if perspective then PerspectiveName else GridName) + NatToString(count + 1),
      kind,
      if perspective then [if initialPoint.Some? then initialPoint.value else Point(0.0, 0.0)] else [],
      true,
      false,
      PresetColors[count % |PresetColors|],
      if perspective then 12 else 10,
      if kind == OrthoGrid then Some(10) else None,
      1.0)
  }

  /** The layer `loadImage` inserts into an empty list. */
  function FirstLayer(now: nat): Layer {
    Layer(LayerId(now), PerspectiveName + "1", Perspective, [Point(0.0, 0.0)],
          true, false, PresetColors[0], 12, None, 1.0)
  }

  /** The first image's default layer is exactly the perspective layer
      `addLayer` would create on an empty list. */
  lemma FirstLayerIsFirstAdded(now: nat)
    ensures FirstLayer(now) == NewLayer(Perspective, 0, None, now)
  {
    assert NatToString(1) == "1";
  }

  /** `data.layers[0]?.id || null`: the first id, unless the list is empty
      or that id is the (falsy) empty string. */
  function LoadedActive(ls: seq<Layer>): (r: Option<string>)
    ensures r.Some? <==> |ls| > 0 && ls[0].id != ""
    ensures r.Some? ==> r.value == ls[0].id
  {
    if |ls| > 0 && ls[0].id != "" then Some(ls[0].id) else None
  }

  /** Download name of the `index`-th (1-based) separated layer. */
  function SeparateName(index: nat, name: string): string {
    "layer_" + NatToString(index) + "_" + name + ".png"
  }

  /** Download name of the merged export. */
  function MergedName(now: nat): string {
    "perspective_merged_" + NatToString(now) + ".png"
  }

  /** A hidden layer, wherever it sits in the list, adds nothing to the
      merged export. */
  lemma HiddenLayerNotExported(a: seq<Layer>, l: Layer, b: seq<Layer>, w: real, h: real)
    requires !l.visible
    ensures MergedImages(Visible(a + [l] + b), w, h) == MergedImages(Visible(a + b), w, h)
  {
    VisibleSkipsHidden(a, l, b);
  }

  /** The undoable state cells of the application. */
  class AppState {
    var image: Option<ImageSize>
    var layers: seq<Layer>
    var history: seq<seq<Layer>>
    var activeLayerId: Option<string>
    var workspaceZoom: real
    var isGuideMode: bool

    /** The history stays bounded and the zoom stays in its clamp range. */
    ghost predicate Valid()
      reads this
    {
      |history| <= MaxHistory && MinZoom <= workspaceZoom <= MaxZoom
    }

    /** The state cells' initial values. */
    constructor ()
      ensures Valid()
      ensures image == None && layers == [] && history == [] && activeLayerId == None
      ensures workspaceZoom == DefaultZoom && !isGuideMode
    {
      image := None;
      layers := [];
      history := [];
      activeLayerId := None;
      workspaceZoom := DefaultZoom;
      isGuideMode := false;
    }

    /** `saveToHistory`: pushes a copy of the current layers. */
    method SaveToHistory()
      requires Valid()
      modifies this`history
      ensures Valid()
      ensures Timeline(layers, history) == Save(old(Timeline(layers, history)))
    {
      history := Push(history, layers);
    }

    /** `undo`: restores the newest snapshot, or does nothing when there is
        none; the active layer id is left as it is. */
    method Undo()
      requires Valid()
      modifies this`layers, this`history
      ensures Valid()
      ensures Timeline(layers, history) == History.Undo(old(Timeline(layers, history)))
    {
      if |history| == 0 {
        return;
      }
      var lastState := history[|history| - 1];
      layers := lastState;
      history := history[..|history| - 1];
    }

    /** `loadImage`'s completion: the image is replaced, and an empty list
        receives the default perspective layer, which becomes active. */
    method LoadImage(img: ImageSize, now: nat)
      requires Valid()
      modifies this`image, this`layers, this`activeLayerId
      ensures Valid()
      ensures image == Some(img)
      ensures old(layers) == [] ==> layers == [FirstLayer(now)] && activeLayerId == Some(LayerId(now))
      ensures old(layers) != [] ==> layers == old(layers) && activeLayerId == old(activeLayerId)
    {
      image := Some(img);
      if |layers| == 0 {
        var firstId := LayerId(now);
        layers := [FirstLayer(now)];
        activeLayerId := Some(firstId);
      }
    }

    /** `addLayer`: without an image nothing happens; otherwise a snapshot
        is pushed, one new layer is appended and becomes active. */
    method AddLayer(kind: LayerKind, initialPoint: Option<Point>, now: nat)
      requires Valid()
      modifies this`layers, this`history, this`activeLayerId
      ensures Valid()
      ensures old(image).None? ==>
        layers == old(layers) && history == old(history) && activeLayerId == old(activeLayerId)
      ensures old(image).Some? ==>
        && history == Push(old(history), old(layers))
        && layers == old(layers) + [NewLayer(kind, |old(layers)|, initialPoint, now)]
        && activeLayerId == Some(LayerId(now))
    {
      if image.None? {
        return;
      }
      SaveToHistory();
      var newId := LayerId(now);
      var newLayer := NewLayer(kind, |layers|, initialPoint, now);
      layers := layers + [newLayer];
      activeLayerId := Some(newId);
    }

    /** `updateActiveLayer`: patches the active layer; no snapshot. */
    method UpdateActiveLayer(u: Patch)
      requires Valid()
      modifies this`layers
      ensures Valid()
      ensures layers == UpdateActive(old(layers), activeLayerId, u)
    {
      layers := UpdateActive(layers, activeLayerId, u);
    }

    /** `deleteLayer`: drops every layer with the id; no snapshot, and the
        active id is left as it is. */
    method DeleteLayer(id: string)
      requires Valid()
      modifies this`layers
      ensures Valid()
      ensures layers == RemoveId(old(layers), id)
    {
      layers := RemoveId(layers, id);
    }

    /** `toggleVisibility`; no snapshot. */
    method ToggleVisibility(id: string)
      requires Valid()
      modifies this`layers
      ensures Valid()
      ensures layers == ToggleVisible(old(layers), id)
    {
      layers := ToggleVisible(layers, id);
    }

    /** `toggleLock`; no snapshot. */
    method ToggleLock(id: string)
      requires Valid()
      modifies this`layers
      ensures Valid()
      ensures layers == ToggleLocked(old(layers), id)
    {
      layers := ToggleLocked(layers, id);
    }

    /** `clearAllLayers`: empties the list when the user confirms; no
        snapshot, and the active id is left as it is. */
    method ClearAllLayers(confirmed: bool)
      requires Valid()
      modifies this`layers
      ensures Valid()
      ensures layers == if confirmed then [] else old(layers)
    {
      if confirmed {
        layers := [];
      }
    }

    /** `loadProject`'s completion. `data` is the parsed file's `layers`
        field, absent when the field is missing or the file does not parse.
        A present list, even an empty one, pushes a snapshot and replaces the
        layers; otherwise nothing changes. */
    method LoadProject(data: Option<seq<Layer>>)
      requires Valid()
      modifies this`layers, this`history, this`activeLayerId
      ensures Valid()
      ensures data.None? ==>
        layers == old(layers) && history == old(history) && activeLayerId == old(activeLayerId)
      ensures data.Some? ==>
        && history == Push(old(history), old(layers))
        && layers == data.value
        && activeLayerId == LoadedActive(data.value)
    {
      if data.Some? {
        SaveToHistory();
        layers := data.value;
        activeLayerId := LoadedActive(data.value);
      }
    }

    /** `handleExport`: renders the visible layers, in list order, on a
        surface of the image's natural size, either all onto one merged
        file or one file per layer numbered from 1. Nothing here depends on
        the view's pan or zoom. Without an image nothing is exported. */
    method Export(separate: bool, now: nat) returns (files: seq<ExportFile>)
      ensures image.None? ==> files == []
      ensures image.Some? && !separate ==>
        files == [ExportFile(MergedName(now),
                             MergedImages(Visible(layers), image.value.naturalWidth, image.value.naturalHeight))]
      ensures image.Some? && separate ==>
        && |files| == |Visible(layers)|
        && forall i :: 0 <= i < |files| ==>
             files[i] == ExportFile(SeparateName(i + 1, Visible(layers)[i].name),
                                    [ExportImage(Visible(layers)[i], image.value.naturalWidth, image.value.naturalHeight)])
    {
      if image.None? {
        return [];
      }
      var visibleLayers := Visible(layers);
      if separate {
        files := ExportSeparate(visibleLayers, image.value.naturalWidth, image.value.naturalHeight);
      } else {
        var merged := ExportMerged(visibleLayers, image.value.naturalWidth, image.value.naturalHeight);
        files := [ExportFile(MergedName(now), merged)];
      }
    }
  }

  /** The files of the separated export, one per layer in list order, the
      layer at position `i` saved as `layer_<i + 1>_<name>.png`. */
  function SeparateFiles(ls: seq<Layer>, w: real, h: real): seq<ExportFile> {
    if ls == [] then []
    else
      var last := ls[|ls| - 1];
      SeparateFiles(ls[..|ls| - 1], w, h) + [ExportFile(SeparateName(|ls|, last.name), [ExportImage(last, w, h)])]
  }

  /** File `i` of the separated export holds layer `i` alone, under its
      1-based position. */
  lemma {:induction false} SeparateFilesAt(ls: seq<Layer>, w: real, h: real)
    ensures |SeparateFiles(ls, w, h)| == |ls|
    ensures forall i :: 0 <= i < |ls| ==>
      SeparateFiles(ls, w, h)[i] == ExportFile(SeparateName(i + 1, ls[i].name), [ExportImage(ls[i], w, h)])
  {
    if ls != [] {
      var init := ls[..|ls| - 1];
      SeparateFilesAt(init, w, h);
      var all := SeparateFiles(ls, w, h);
      forall i | 0 <= i < |ls|
        ensures all[i] == ExportFile(SeparateName(i + 1, ls[i].name), [ExportImage(ls[i], w, h)])
      {
        if i < |init| {
          assert ls[i] == init[i];
        }
      }
    }
  }

  /** The separated export: each layer rendered on a cleared surface and
      saved under its 1-based position. */
  method ExportSeparate(ls: seq<Layer>, w: real, h: real) returns (files: seq<ExportFile>)
    ensures |files| == |ls|
    ensures forall i :: 0 <= i < |files| ==>
      files[i] == ExportFile(SeparateName(i + 1, ls[i].name), [ExportImage(ls[i], w, h)])
  {
    files := [];
    var i := 0;
    while i < |ls|
      invariant 0 <= i <= |ls|
      invariant files == SeparateFiles(ls[..i], w, h)
    {
      assert ls[..i + 1][..i] == ls[..i];
      var file := SeparateFile(ls[i], i + 1, w, h);
      files := files + [file];
      i := i + 1;
    }
    assert ls[..i] == ls;
    SeparateFilesAt(ls, w, h);
  }

  /** One file of the separated export: the layer on a cleared surface,
      named after its 1-based position. */
  method SeparateFile(l: Layer, index: nat, w: real, h: real) returns (file: ExportFile)
    ensures file == ExportFile(SeparateName(index, l.name), [ExportImage(l, w, h)])
  {
    var image := RenderImage(l, w, h);
    file := ExportFile(SeparateName(index, l.name), [image]);
  }

  /** The merged export: every layer rendered, in order, on one surface. */
  method ExportMerged(ls: seq<Layer>, w: real, h: real) returns (images: seq<LayerImage>)
    ensures images == MergedImages(ls, w, h)
  {
    images := [];
    var i := 0;
    while i < |ls|
      invariant 0 <= i <= |ls|
      invariant images == MergedImages(ls[..i], w, h)
    {
      assert ls[..i + 1][..i] == ls[..i];
      var image := RenderImage(ls[i], w, h);
      images := images + [image];
      i := i + 1;
    }
    assert ls[..i] == ls;
  }

  /** Adding a layer and undoing it restores the previous layer list, and
      the previous history too when it held fewer than MaxHistory entries. */
  method AddThenUndo(app: AppState, kind: LayerKind, now: nat)
    requires app.Valid() && app.image.Some?
    modifies app
    ensures app.Valid()
    ensures app.layers == old(app.layers)
    ensures |old(app.history)| < MaxHistory ==> app.history == old(app.history)
  {
    ghost var before := Timeline(app.layers, app.history);
    app.AddLayer(kind, None, now);
    UndoAfterSaveRestores(before, app.layers);
    app.Undo();
  }
}
