# Perspective overlay engine — a Dafny model

This project models the overlay-layer engine of a perspective-drawing aid. A user loads a
reference image. On top of it they place layers of two kinds:

- **perspective layers**: a fan of `density * 4` rays around each vanishing point;
- **orthogonal grids**: `density` columns by `densityY` rows over the image.

The user can select, drag, hide, lock, restyle and delete layers, pan and zoom the view,
undo through a bounded history, and export the visible layers at the image's native size.

The model follows the program's own structure:

- `types.dfy` (module `Types`) holds the layer data model from `types.ts`. It also defines
  JavaScript's `||` fallback on numbers (`Or`, `OptOr`) and decimal rendering of numbers
  in template strings (`NatToString`).
- `history.dfy` (module `History`) is the bounded undo stack: `MAX_HISTORY = 50`, with the
  oldest snapshot evicted first. `Save`/`Undo` act on a `Timeline` value.
- `geometry.dfy` (module `Geometry`) holds the rules shared by screen and export:
  - the view transform (placement of the image, screen ↔ image-centred map);
  - ray angles;
  - grid-line positions;
  - the counting loops that emit rays and grid lines.
- `layerops.dfy` (module `LayerOps`) holds the `map`/`filter` operations on the layer
  list, by id.
- `export.dfy` (module `Export`) is `renderLayerToCanvas`: each layer's geometry and the
  stroke style (colour, full opacity, width) it is drawn with.
- `hittest.dfy` (module `HitTest`) is `checkCollision`. It is a reverse scan, proved
  against a reference definition `TopHit`.
- `app.dfy` (module `App`) is the application state controller. Class `AppState` holds
  the fields `layers`, `history`, `activeLayerId`, the image size, `workspaceZoom` and
  `isGuideMode`. The module also holds the new-layer defaults and the export driver.
- `canvas.dfy` (module `Canvas`) is the interactive canvas:
  - the render pass, with per-layer alpha/width and grid placement;
  - class `CanvasView`, holding the gesture state (drag, hover, pan, guide lines) over an
    `AppState`, with the mouse, wheel and reset handlers.

Numbers are exact reals. Layer densities are integers.

## Model

| member | source | states |
|---|---|---|
| Types.NatToString | App.tsx:113 | a number renders as a non-empty string of decimal digits that denote exactly that number, with a leading `0` only for 0 itself; one digit exactly when it is below 10 |
| History.Push | App.tsx:20-26 | the snapshot becomes the newest entry; below 50 entries nothing else changes, at 50 only the oldest is dropped; a history of at most 50 stays at most 50 |
| History.Save | App.tsx:20-26 | saving keeps the current layers and makes them the newest snapshot |
| History.Undo | App.tsx:28-35 | empty history: nothing changes; otherwise the newest snapshot becomes current and the history loses exactly that entry |
| History.UndoAfterSaveRestores | App.tsx:20-35 | save, any edit, undo restores the layers from before the save, and the history too when it held fewer than 50 entries |
| History.BoundKept | App.tsx:8-35 | saves and undos keep the history within 50 entries; an undo on a non-empty history removes exactly one |
| Geometry.ViewCenter | components/PerspectiveCanvas.tsx:65-66 | the view centre is the canvas centre moved by the pan |
| Geometry.PanTranslatesView | components/PerspectiveCanvas.tsx:65-70 | panning by `d` moves every point's screen position and the image rectangle by exactly `d` and keeps the rectangle's size; with no pan the image centre is the canvas centre |
| Geometry.Placement | components/PerspectiveCanvas.tsx:67-70 | the image rectangle has the natural size times zoom and is centred on the view centre |
| Geometry.ScreenImageRoundTrip | components/PerspectiveCanvas.tsx:99-100 | for non-zero zoom the screen map and `(s - centre) / zoom` are inverse in both directions |
| Geometry.FanShape | App.tsx:145-156 | a fan has `segments` rays at angles `i * 360 / segments`: the first at 0, all in [0, 360), evenly spaced |
| Geometry.EmitRays | App.tsx:151-156 | the ray loop emits exactly the fan, in order |
| Geometry.GridSpan | App.tsx:167-177 | `n` bands give `n + 1` lines from the start of the extent to its end, each within it |
| Geometry.EmitGridLines | App.tsx:170-177 | the line loop emits exactly lines `0 .. last` at `origin + i * step`, in order |
| Geometry.ViewMatchesExport | components/PerspectiveCanvas.tsx:65-100 | screen positions of points and grid lines are the export positions scaled by zoom and moved to the image placement |
| LayerOps.FilterMembers | App.tsx:191 | a filtered list holds exactly the elements that pass the test |
| LayerOps.Visible | App.tsx:191 | exactly the visible layers are kept |
| LayerOps.VisibleSnoc | App.tsx:191 | visible layers keep list order: a layer added at the end is shown after the others exactly when it is visible |
| LayerOps.VisibleSkipsHidden | App.tsx:191 | a hidden layer anywhere in the list is skipped: the visible layers are those of the list without it, in the same order |
| LayerOps.RemoveId | App.tsx:248 | the result holds no layer with the id and every other layer of the input |
| LayerOps.RemoveIdKeepsOrder | App.tsx:248 | deletion works piecewise over any split of the list, so the order is kept; an absent id deletes nothing |
| LayerOps.MapId | App.tsx:252-253 | same length; layers with the id are transformed, all others are unchanged in place |
| LayerOps.ToggleVisible | App.tsx:252 | a layer's visibility flips exactly when its id matches; no other field of any layer changes |
| LayerOps.ToggleLocked | App.tsx:253 | a layer's lock flips exactly when its id matches; no other field of any layer changes |
| LayerOps.ToggleTwiceRestores | App.tsx:252-253 | toggling the same id twice restores the list |
| LayerOps.ApplyPatch | App.tsx:247 | each field the patch carries overrides the layer's; id, name, kind, points, visibility and lock never change |
| LayerOps.UpdateActive | App.tsx:247 | with no active id nothing changes; otherwise exactly the layers with the active id are patched, length and order kept |
| LayerOps.DragTo | components/PerspectiveCanvas.tsx:254 | layers with the id get the single point; all other layers are unchanged |
| LayerOps.FindById | components/PerspectiveCanvas.tsx:222 | the index of the first layer with the id; none exactly when no layer has it |
| Export.PointStrokesShape | App.tsx:147-164 | a point exports `density * 4` rays from its export position, then a marker exactly when that position is inside [0, w] × [0, h] |
| Export.ExportGridShape | App.tsx:166-177 | a grid exports `density + 1` vertical lines from x = 0 to x = w at `i * w / density`, then `densityY + 1` horizontal lines from y = 0 to y = h, each spanning the surface |
| Export.ExportGridFallbacks | App.tsx:167-177 | without `densityY` one horizontal line (y = 0) is exported; density 0 still exports the line x = 0 |
| Export.ExportGridExample | App.tsx:167-172 | a 1000 × 1000 image with density 10 gets vertical lines at x = 100 · i |
| Export.RenderPoint | App.tsx:147-164 | one point's ray loop and in-bounds marker produce exactly that point's export strokes |
| Export.RenderPerspective | App.tsx:144-165 | the per-point loop produces exactly the strokes of every point, in point order |
| Export.RenderLayer | App.tsx:137-179 | the per-point and per-line loops produce exactly the layer's export strokes |
| Export.RenderImage | App.tsx:137-140 | a layer is exported with its own colour and width at full opacity, and exactly its export strokes |
| Export.MergedImagesAt | App.tsx:200-203 | the merged surface holds one image per layer, in list order, each with its own layer's colour, width and strokes |
| HitTest.TopHitMeaning | components/PerspectiveCanvas.tsx:163-196 | no result exactly when no visible unlocked layer is hit; a result comes from a visible, unlocked layer that is hit, with no later layer also hit |
| HitTest.PointHitAnyZoom | components/PerspectiveCanvas.tsx:168-172 | a pointer closer than 15 px to where a perspective layer's first point is drawn hits that point, at any zoom |
| HitTest.HitRays | components/PerspectiveCanvas.tsx:174-181 | the ray loop reports a hit exactly when some ray of the fan is near the pointer |
| HitTest.HitPoints | components/PerspectiveCanvas.tsx:168-182 | the point loop tests each point before its rays and returns the first part hit |
| HitTest.HitColumns | components/PerspectiveCanvas.tsx:186-189 | the vertical-line loop reports a hit exactly when some line `0 .. density` is within 6 px and the pointer is strictly inside the image's height |
| HitTest.HitRows | components/PerspectiveCanvas.tsx:190-193 | the horizontal-line loop reports a hit exactly when some line `0 .. rows` (rows = `densityY`, falling back to 1) is within 6 px and the pointer is strictly inside the image's width |
| HitTest.HitGrid | components/PerspectiveCanvas.tsx:184-193 | a grid is hit exactly when the pointer is within 6 px of a line and strictly inside the image along that line |
| HitTest.CheckCollision | components/PerspectiveCanvas.tsx:157-197 | the reverse scan with early returns equals the topmost-eligible-hit definition |
| App.NewLayer | App.tsx:106-122 | new-layer defaults: id from the timestamp; colour `PRESET_COLORS[n mod 6]`; width 1; visible and unlocked; perspective has one point (given, else the image centre), density 12 and no `densityY`; grid has no points, density 10 and `densityY` 10; names numbered `n + 1` |
| App.FirstLayerIsFirstAdded | App.tsx:41-53 | the default layer of the first image equals the perspective layer `addLayer` would create on an empty list |
| App.LoadedActive | App.tsx:229 | the active id after a load is the first layer's id, or none when the list is empty or that id is empty |
| App.HiddenLayerNotExported | App.tsx:191-203 | a hidden layer, wherever it sits in the list, adds nothing to the merged export, neither strokes nor style |
| App.AppState.constructor | App.tsx:11-18 | initial state: no image, no layers, empty history, no active layer, zoom 0.6, guide mode off |
| App.AppState.SaveToHistory | App.tsx:20-26 | the history becomes `Save` of the old state; the bound is kept |
| App.AppState.Undo | App.tsx:28-35 | layers and history become `Undo` of the old state; the active id is untouched |
| App.AppState.LoadImage | App.tsx:37-58 | the image is replaced; only an empty list receives the default layer, which becomes active; no snapshot |
| App.AppState.AddLayer | App.tsx:106-125 | no image: nothing changes; otherwise one snapshot is pushed, exactly one new layer is appended and becomes active |
| App.AppState.UpdateActiveLayer | App.tsx:247 | layers become `UpdateActive` of the old ones; no snapshot |
| App.AppState.DeleteLayer | App.tsx:248 | layers become `RemoveId` of the old ones; no snapshot |
| App.AppState.ToggleVisibility | App.tsx:252 | layers become `ToggleVisible` of the old ones; no snapshot |
| App.AppState.ToggleLock | App.tsx:253 | layers become `ToggleLocked` of the old ones; no snapshot |
| App.AppState.ClearAllLayers | App.tsx:249 | a confirmed clear empties the list, otherwise nothing changes; no snapshot |
| App.AppState.LoadProject | App.tsx:219-235 | no layer list: nothing changes; otherwise one snapshot is pushed, the list is replaced and the first id becomes active |
| App.AppState.Export | App.tsx:127-206 | no image: nothing; merged: one file with every visible layer, in order, each with its colour, width, full opacity and strokes; separated: one file per visible layer holding that layer alone, named `layer_<i+1>_<name>.png`; independent of pan and zoom |
| App.SeparateFile | App.tsx:195-197 | one file of the separated export holds the layer alone, with its export style and strokes, and is named `layer_<index>_<name>.png` |
| App.SeparateFilesAt | App.tsx:193-199 | file `i` of the separated export holds layer `i` alone and is named with index `i + 1` |
| App.ExportSeparate | App.tsx:193-199 | one file per layer, in order, the i-th named with index i + 1 and holding only that layer, with its style and strokes |
| App.ExportMerged | App.tsx:200-203 | one surface holding every layer with its style and strokes, layer after layer, in list order |
| App.AddThenUndo | App.tsx:106-125 | adding a layer then undoing restores the layers, and the history when it held fewer than 50 entries |
| Canvas.ExportStyleMatchesScreen | App.tsx:138-139 | the export strokes a layer in the colour the screen uses, at the opacity of an active layer outside guide mode, and with the plain width, which is the screen width of a layer neither active nor hovered |
| Canvas.HighlightStyle | components/PerspectiveCanvas.tsx:90-93 | active is more opaque than hovered, hovered than plain; guide mode divides every alpha by 5; alphas lie in (0, 1]; a highlighted layer is one unit wider |
| Canvas.ScreenLayers | components/PerspectiveCanvas.tsx:83-86 | one drawn image per visible layer, in list order |
| Canvas.ShownGuides | components/PerspectiveCanvas.tsx:140-147 | guide lines are shown only in guide mode: the finished ones, then the one being drawn |
| Canvas.HiddenLayerNotDrawn | components/PerspectiveCanvas.tsx:83-84 | a hidden layer, wherever it sits in the list, changes nothing that is drawn |
| Canvas.ColumnToView | components/PerspectiveCanvas.tsx:126-130 | screen column `k` is export column `k` mapped into the view |
| Canvas.RowToView | components/PerspectiveCanvas.tsx:131-135 | screen row `k` is export row `k` mapped into the view |
| Canvas.ScreenGridMatchesExport | components/PerspectiveCanvas.tsx:123-135 | with positive densities a grid has as many lines on screen as in the export, and each screen line is the export line mapped into the view |
| Canvas.WheelZoom | components/PerspectiveCanvas.tsx:278 | the wheel zoom always lies in [0.05, 5] |
| Canvas.WheelZoomDirection | components/PerspectiveCanvas.tsx:278 | wheeling down never zooms in, wheeling up never zooms out, and inside the range the step is `deltaY / 1000` |
| Canvas.DragTracksPointer | components/PerspectiveCanvas.tsx:252-254 | the dragged point's screen position is the original's moved by exactly the pointer travel; no travel leaves it in place |
| Canvas.DragExample | components/PerspectiveCanvas.tsx:252-254 | (10, 10) dragged 20 × 10 px at zoom 2 lands on (20, 15) |
| Canvas.DragStartOnHit | components/PerspectiveCanvas.tsx:219-226 | with distinct ids, a hit starts a drag exactly when the hit layer is a perspective layer, from its first point |
| Canvas.DrawPoint | components/PerspectiveCanvas.tsx:98-120 | one point's ray loop and, outside guide mode, its marker (radius 8 when active, 5 otherwise) produce exactly that point's screen strokes |
| Canvas.DrawImage | components/PerspectiveCanvas.tsx:83-137 | one visible layer is drawn with its highlight style and exactly its screen strokes |
| Canvas.DrawLayers | components/PerspectiveCanvas.tsx:83-138 | the layer loop draws exactly one image per visible layer, in list order |
| Canvas.DrawLayer | components/PerspectiveCanvas.tsx:95-136 | the per-point and per-line loops produce exactly the layer's screen strokes |
| Canvas.CanvasView.constructor | components/PerspectiveCanvas.tsx:43-54 | no drag, no hover, no pan, no guide lines |
| Canvas.CanvasView.Draw | components/PerspectiveCanvas.tsx:56-148 | the frame is `RenderFrame` of the current state: image placed by the view transform at alpha 0.6 in guide mode and 0.4 otherwise; each visible layer drawn in order with its style and strokes; guides only in guide mode |
| Canvas.CanvasView.MouseDown | components/PerspectiveCanvas.tsx:199-230 | guide mode: only a guide starts at the pointer; alt + left: panning starts; otherwise the topmost hit becomes active (a miss deselects), and a draggable hit pushes one snapshot and starts a drag |
| Canvas.CanvasView.MouseMove | components/PerspectiveCanvas.tsx:232-259 | a guide being drawn follows the pointer; otherwise hover is recomputed only when idle; a drag moves the layer's point; panning adds the client delta to the pan |
| Canvas.CanvasView.MouseUp | components/PerspectiveCanvas.tsx:261-268 | a guide being drawn is kept and cleared; otherwise drag and panning end |
| Canvas.CanvasView.Wheel | components/PerspectiveCanvas.tsx:278 | the zoom becomes `WheelZoom` of the old zoom |
| Canvas.CanvasView.Reset | components/PerspectiveCanvas.tsx:285 | no pan and zoom 0.6 |

## Left out

- Trigonometry is not modelled. Ray endpoints (`Math.cos`/`Math.sin`) are kept as an angle
  and a length per ray. The ray-proximity test of `checkCollision` is the parameter
  `rayHit(offset, angle)`, so the model fixes which rays are tried and in what order, but
  not the distance formula.
- HitTest.HitRays: does not state the `distToLine < 6 && dot > -20` formula, because it
  depends on sine and cosine.
- `Math.sqrt` is replaced by the equivalent comparison of squares (d² < 225).
- Painting, on screen and on the export surface, is reduced to lists of lines, rays and
  markers with a colour, alpha and width. Line caps, dashes, fill colours, the marker outline (amber when locked, else white)
  and the marker's own opacity are left out.
- Browser I/O is left out:
  - image decoding;
  - `FileReader`, clipboard paste and the keyboard listener;
  - JSON parsing (a load is an optional layer list);
  - downloads and the 250 ms pause between separated files;
  - `confirm`/`alert` (a confirmation is a boolean parameter);
  - canvas resizing.
- `Date.now()` is a parameter. Layer ids are not claimed to be unique.
- React state batching and stale closures are not modelled. Each handler is a sequential
  state transition.
- Floating-point rounding is not modelled.
- Canvas.ScreenLayerStrokes: a grid with density 0 computes one vertical line at NaN,
  which is neither drawn nor hit; the model has no vertical line in that case.
- Canvas.DragOrigin: a perspective layer without points gives a NaN origin in `mousedown`;
  the model uses the image centre (0, 0). Such a layer can only come from a loaded file.
- The `isExporting` flag and `enableSnapping` are left out: they feed no computation.
- The unused `addVanishingPoint` prop is left out.
- The project-save operation is left out: it is only serialisation.
- Guide lines are only captured and shown: nothing else reads them.
