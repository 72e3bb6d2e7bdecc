# VirtualClothes core, modelled in Dafny

VirtualClothes is a browser garment viewer built on Three.js and React. A
user picks a garment model, and its parts are loaded from glTF files. Each
imported mesh gets a fabric material: a preset, a cotton default, or an
overlay for the front and back print areas. The user can paint those print
areas with a stack of texture layers. The layer panel composites the layers
onto a 1024x1024 canvas. A UV transform editor and two slider panels move,
rotate, scale, flip and tile the textures. Clicks select a garment part,
Escape clears the selection, and uploaded logos are stretched over the print
areas. Model loading also registers the glTF animation clips with a small
registry of mixers and actions.

The repository contains two generations of the loader and material code,
under `src/` and `src001/`. Both are modelled.

One Dafny module corresponds to one source file:

| module | source |
|---|---|
| `TextureContext` | `src/TextureContext.jsx` |
| `TextureLayerManager`, `Compositor` | `src/TextureLayerManager.jsx` (store operations; canvas compositing) |
| `UVEditor` | `src/UVEditor.jsx` |
| `TextureControlsDrag` | `src/textureControls.js` |
| `TextureControlsInput` | `src/textureControls.jsx` |
| `AnimationRegistry` | `src/modelControls.js` |
| `Materials` | `src/materialManager.js` |
| `LegacyMaterials` | `src001/materialManager.js` |
| `MaterialRegistry` | `src001/MaterialSystem.js` |
| `EventHandling` | `src/eventHandler.js` |
| `ModelLoading` | `src/modelLoader.js` |
| `LegacyModelLoading` | `src001/modelLoader.js` |

Some modules are shared rather than tied to one file:

- `Common` holds the JavaScript number semantics the core relies on: the truncated `%` and the clamp.
- `Scene` holds the Three.js entities the core reads and writes.
- `LayerModel` holds the layer record.
- `OffsetPad` holds the offset-pad arithmetic that both texture panels share.
- `TextureCache` holds the memoised "first extension that loads" lookup that all three material managers use.

How the source is represented:

- **Values and objects.** Textures and materials are values (datatypes). Scene nodes, the animation registry, the managers, the loaders, the editor and the control panels are classes. Their methods update fields in place.
- **Pure state updates.** React state updates that build new arrays from old ones are functions.
- **Numbers.** JavaScript numbers are modelled as `real`.
- **Loaders.** The texture loader and the glTF loader are oracle parameters, `string -> Option<...>`: what a path yields, if it loads.
- **Inputs.** Clocks (`Date.now()` layer ids), DOM rectangles and trigonometry (`atan2`, `hypot`) are inputs.

## Model

| member | source | states |
|---|---|---|
| Common.Rem360 | src/UVEditor.jsx:161 | JavaScript `% 360`: the remainder keeps the dividend's sign, lies strictly between -360 and 360, and leaves smaller angles unchanged |
| Common.Clamp | src/UVEditor.jsx:167 | `Math.max(lo, Math.min(hi, x))` lies within the bounds, is the identity inside them, and saturates at each end |
| Common.NatToString | src/TextureLayerManager.jsx:156 | a layer number is printed in decimal: a non-empty string of digits whose value is the number, with no leading zero |
| Common.NatToStringInjective | src/TextureLayerManager.jsx:156 | different layer numbers are printed differently |
| Scene.PhysicalOverlay | src/TextureLayerManager.jsx:122-133 | the overlay material: physical, transparent, front-sided, alpha test 0.1, roughness 0, clearcoat 1, clearcoat roughness 0, white |
| LayerModel.IndexOf | src/TextureLayerManager.jsx:241 | `findIndex`: -1 exactly when no layer has the id; otherwise the first layer with the id |
| LayerModel.Find | src/TextureLayerManager.jsx:142 | `find`: nothing exactly when no layer has the id; otherwise the first layer of the list with that id |
| TextureContext.InitialState | src/TextureContext.jsx:7-10 | no layers, no active layer, the "colors" workspace, with only "colors" expanded |
| TextureContext.Merge | src/TextureContext.jsx:18-21 | the object spread: each field given in the patch wins; every other field keeps its old value |
| TextureContext.MergeThen | src/TextureContext.jsx:18-21 | two successive merges equal one merge of the combined patch (the later patch wins) |
| TextureContext.MergeFull | src/TextureContext.jsx:18-21 | a patch that gives every field replaces the transformations entirely |
| TextureContext.UpdateTransformation | src/TextureContext.jsx:12-26 | keeps the length; layers with another id are untouched; layers with the id get the merged transformations |
| TextureContext.UpdateTransformationIgnoresKind | src/TextureContext.jsx:12 | the `type` argument has no effect on the result |
| TextureContext.UpdateTransformationIdempotent | src/TextureContext.jsx:12-26 | applying the same update twice equals applying it once |
| TextureContext.RemoveAll | src/TextureContext.jsx:32 | the filter keeps exactly the other sections, and never grows the list |
| TextureContext.ToggleSection | src/TextureContext.jsx:29-34 | the section is expanded afterwards iff it was not before; other sections are unaffected; a new section is appended at the end |
| TextureContext.RemoveAllAbsent | src/TextureContext.jsx:31-32 | filtering out an absent section leaves the list unchanged |
| TextureContext.RemoveAllAppend | src/TextureContext.jsx:32 | the filter distributes over concatenation |
| TextureContext.ToggleSectionTwice | src/TextureContext.jsx:29-34 | toggling twice restores the membership of every section, and restores the list itself when the section was absent |
| TextureContext.UseTextureContext | src/TextureContext.jsx:56-61 | succeeds exactly inside a provider and returns its value; otherwise fails with the source's error message |
| TextureLayerManager.NewLayer | src/TextureLayerManager.jsx:151-168 | a new layer: named "Layer n+1", fully opaque, visible, without a texture, with identity transformations; active iff the list was empty |
| TextureLayerManager.AddLayer | src/TextureLayerManager.jsx:151-171 | appends exactly one new layer and keeps the existing layers as they were; the new layer is active iff it is the first |
| TextureLayerManager.MountLayers | src/TextureLayerManager.jsx:11-15 | on mount, an empty panel gets one layer, which is the single active layer; a non-empty one is left alone |
| TextureLayerManager.SetActiveLayers | src/TextureLayerManager.jsx:145-148 | every layer keeps its data, and is active iff its id is the chosen one |
| TextureLayerManager.SetActiveCount | src/TextureLayerManager.jsx:145-148 | after activation, the number of active layers equals the number of layers with that id |
| TextureLayerManager.SetActiveExactlyOne | src/TextureLayerManager.jsx:141-148 | with unique ids, activating a present id leaves exactly one active layer, and an absent id leaves none |
| TextureLayerManager.HandleSetActive | src/TextureLayerManager.jsx:141-149 | the active layer becomes the found layer, the flags are reset, and the workspace and expanded sections are kept |
| TextureLayerManager.PrepareUpload | src/TextureLayerManager.jsx:187-191 | an uploaded texture is sRGB, not flipped, with premultiplied alpha, and keeps its image |
| TextureLayerManager.UploadedLayer | src/TextureLayerManager.jsx:198-214 | the replacement layer carries the file name and the prepared texture; it is active, visible and opaque, with identity transformations |
| TextureLayerManager.ApplyUpload | src/TextureLayerManager.jsx:216-218 | layers with the id are replaced; every other layer is deactivated; the length is kept |
| TextureLayerManager.HandleFileChange | src/TextureLayerManager.jsx:173-226 | a non-image file or a failed load leaves the state unchanged; otherwise the layer is replaced by the uploaded one, which becomes the active layer |
| TextureLayerManager.UploadActivation | src/TextureLayerManager.jsx:216-219 | with unique ids, a successful upload to a present layer leaves exactly one active layer, and it is the uploaded one |
| TextureLayerManager.ToggleVisibility | src/TextureLayerManager.jsx:228-232 | only layers with the id change, and only their visibility flips |
| TextureLayerManager.ToggleVisibilityTwice | src/TextureLayerManager.jsx:228-232 | toggling twice restores the list |
| TextureLayerManager.SetOpacity | src/TextureLayerManager.jsx:234-238 | only layers with the id change, and only their opacity |
| TextureLayerManager.SetOpacityLastWins | src/TextureLayerManager.jsx:234-238 | of two opacity updates, the second wins |
| TextureLayerManager.Moved | src/TextureLayerManager.jsx:240-251 | an unknown id, moving the first layer up and moving the last layer down leave the list as it is; otherwise the layer and its neighbour in that direction swap places and every other position is kept |
| TextureLayerManager.MoveLayer | src/TextureLayerManager.jsx:240-251 | the in-place swap on a copied array yields the specified move; an unknown id leaves the list unchanged |
| TextureLayerManager.MoveUpThenDown | src/TextureLayerManager.jsx:240-251 | moving a layer that is not first up and then down restores the list |
| TextureLayerManager.WithoutId | src/TextureLayerManager.jsx:255 | the filter keeps exactly the layers with other ids, in their order (`WithoutIdSingle`, `WithoutIdAppend`), and removes as many as carry the id |
| TextureLayerManager.WithoutIdSingle | src/TextureLayerManager.jsx:255 | a single layer is kept exactly when its id differs |
| TextureLayerManager.WithoutIdAppend | src/TextureLayerManager.jsx:255 | the filter distributes over concatenation, so the kept layers stay in their relative order |
| TextureLayerManager.WithoutIdAbsent | src/TextureLayerManager.jsx:255 | a list without the id is kept as it is |
| TextureLayerManager.DeleteUniqueKeepsOrder | src/TextureLayerManager.jsx:253-255 | deleting a layer whose id is unique leaves exactly the layers before and after it, in order |
| TextureLayerManager.DeleteLayer | src/TextureLayerManager.jsx:253-261 | no layer with the id remains and the others keep their order; when the deleted layer was active and layers remain, the new first layer is activated |
| TextureLayerManager.DeleteUniqueLayer | src/TextureLayerManager.jsx:253-261 | deleting a layer whose id is unique gives the layers before and after it, in order, with the first of them activated exactly when the deleted layer was active |
| TextureLayerManager.DeleteKeepsOneActive | src/TextureLayerManager.jsx:253-261 | with unique ids and one active layer, deleting leaves either no layers or exactly one active layer |
| Compositor.FlipOr1 | src/TextureLayerManager.jsx:70-71 | `flip \|\| 1` is never zero, and is the flip itself when that is non-zero |
| Compositor.PatternSize | src/TextureLayerManager.jsx:50 | the tile side is a quarter of the canvas times the scale |
| Compositor.CanvasDimension | src/TextureLayerManager.jsx:53-54 | assigning a size to a canvas side keeps its integer part for sizes in [0, 2^31), and falls back to the default for sizes from -2^31 to -1 |
| Compositor.PlacementOf | src/TextureLayerManager.jsx:48-98 | tiled layers: a pattern of that tile size on a tile canvas whose side is the size truncated, translated by offset times canvas size, with the flip signs (1 for a zero sign). Single layers: 80% of the canvas, centred on both axes, offset, and scaled by flip times scale. Either way the rotation is kept |
| Compositor.StepOf | src/TextureLayerManager.jsx:100-102 | a layer is painted with its own image at its own opacity |
| Compositor.DrawPlan | src/TextureLayerManager.jsx:37-103 | at most one draw step per layer |
| Compositor.DrawPlanAppend | src/TextureLayerManager.jsx:38 | layers are painted bottom to top: the plan of a concatenation is the later part's plan followed by the earlier part's |
| Compositor.TopLayerDrawnLast | src/TextureLayerManager.jsx:37-103 | a paintable first layer (top of the panel) is painted last, so it lies on top |
| Compositor.SkippedLayerIrrelevant | src/TextureLayerManager.jsx:39 | a hidden or image-less layer contributes nothing wherever it sits |
| Compositor.AdjacentSwapReordersPaint | src/TextureLayerManager.jsx:38-39 | swapping two adjacent paintable layers swaps exactly their two paint steps |
| Compositor.PlanAroundLayer | src/TextureLayerManager.jsx:38-39 | a layer's own step is painted after the layers that follow it and before the layers that precede it |
| Compositor.ActivateHeadKeepsPlan | src/TextureLayerManager.jsx:253-261 | making the first remaining layer active, as a deletion of the active layer does, leaves the painting unchanged |
| Compositor.DeleteKeepsPaintOrder | src/TextureLayerManager.jsx:253-261 | deleting a layer with a unique id removes only its own step: the other layers are painted in the same order as before, also when the deleted layer was active and the first remaining layer becomes active |
| Compositor.RepeatFactor | src/TextureLayerManager.jsx:111-116 | the texture repeat is the reciprocal of the active layer's scale when it tiles, and 1 otherwise |
| Compositor.CompositeTexture | src/TextureLayerManager.jsx:106-119 | the canvas texture shows the plan, wraps with repeat, is not flipped, and repeats by the factor on both axes |
| Compositor.ComposeCanvas | src/TextureLayerManager.jsx:35-103 | the loop over the reversed layers paints exactly the draw plan |
| Compositor.UpdateMaterials | src/TextureLayerManager.jsx:22-138 | every mesh target gets the overlay material carrying the composite and render order 1; non-meshes are untouched; names, kinds, the imported flag and the shadow flags are kept |
| UVEditor.Relative | src/UVEditor.jsx:139-141 | the pointer position relative to the canvas corner |
| UVEditor.MoveStep | src/UVEditor.jsx:149-152 | moving shifts the position by exactly the pointer delta and changes nothing else |
| UVEditor.RotateStep | src/UVEditor.jsx:153-162 | the rotation stays strictly within (-360, 360) and keeps the sign of the sum; a sum already in range is taken as is; the result is the sum minus its truncated multiple of 360 (JavaScript's `%`); nothing else changes |
| UVEditor.ScaleStep | src/UVEditor.jsx:163-168 | the scale stays in [0.1, 5], is the scaled value when that is in range, saturates at 5 above the range and at 0.1 below it, and nothing else changes |
| UVEditor.Flipped | src/UVEditor.jsx:190-194 | exactly the chosen axis's flip sign is negated |
| UVEditor.Normalized | src/UVEditor.jsx:175-185 | the published offset is the position divided by the canvas size; scale, rotation, flips and the tiling flag are carried over |
| UVEditor.MovesTelescope | src/UVEditor.jsx:143-144 | because the start point follows the pointer (line 172), two move events add up to one move over the whole path |
| UVEditor.FlipTwice | src/UVEditor.jsx:190-194 | flipping the same axis twice restores the transform |
| UVEditor.ResetPublishesIdentity | src/UVEditor.jsx:208-227 | the reset transform, normalised without tiling, is the identity placement |
| UVEditor.PublicationReplacesPlacement | src/UVEditor.jsx:187 | a publication applied through the provider sets the layer's transformations to exactly the published value |
| UVEditor.Editor.constructor | src/UVEditor.jsx:22-33 | the move tool, not dragging, start at the origin, not tiling, the identity transform |
| UVEditor.Editor.SelectTool | src/UVEditor.jsx:254 | only the tool changes |
| UVEditor.Editor.MouseDown | src/UVEditor.jsx:307-314 | dragging starts at the pointer's canvas-relative position |
| UVEditor.Editor.MouseUp | src/UVEditor.jsx:315-318 | dragging stops; nothing else changes |
| UVEditor.Editor.HandleTransform | src/UVEditor.jsx:136-188 | ignored unless dragging with an active layer. Otherwise one tool step by the pointer delta, the start point moves to the pointer, and the normalised transform is published for the active layer |
| UVEditor.Editor.HandleFlip | src/UVEditor.jsx:190-206 | the transform is flipped; a publication is made iff there is an active layer, and it carries the normalised flipped transform |
| UVEditor.Editor.HandleReset | src/UVEditor.jsx:208-228 | the transform and tiling are reset; a publication of the identity placement is made iff there is an active layer |
| UVEditor.Editor.HandleRepeatChange | src/UVEditor.jsx:230-243 | the tiling flag takes the checkbox value; a publication of the current transform with that flag is made iff there is an active layer |
| OffsetPad.PadPoint | src/textureControls.js:52-54 | the pointer mapped to pad coordinates: the left edge is -1 and the right edge 1; the top is 1 and the bottom -1 |
| OffsetPad.PadPointInRange | src/textureControls.js:52-54 | a pointer inside the pad maps into [-1, 1] on both axes |
| OffsetPad.PadCentreIsOrigin | src/textureControls.js:53-54 | the pad's centre maps to (0, 0) |
| OffsetPad.PadAxes | src/textureControls.js:53-54 | x grows to the right, y grows upwards |
| OffsetPad.CurrentOffset | src/textureControls.js:57 | the indicator offset is half the pad point; its partner is `IndicatorFollowsPointer` |
| OffsetPad.IndicatorFollowsPointer | src/textureControls.js:166-167 | the indicator is drawn at the pointer's position in the pad, in percent of its width and height; inside the pad its offset stays within [-0.5, 0.5] |
| OffsetPad.NudgedOffset | src/textureControls.js:60-63 | each interaction adds a hundredth of the pad point to the accumulated offset |
| OffsetPad.NudgeBounded | src/textureControls.js:60-63 | one interaction inside the pad moves the accumulated offset by at most 0.01 per axis |
| TextureControlsDrag.NextRotationAsWritten | src/textureControls.js:78-81 | the rotation update as written lies in (-540, 180); it is within [-180, 180) only when the shifted sum is non-negative, and otherwise at most -180 |
| TextureControlsDrag.NextRotation | src/textureControls.js:78-81 | the intended normalisation: the result always lies in [-180, 180), and a sum already in range is kept |
| TextureControlsDrag.NextRotationAgrees | src/textureControls.js:78-81 | where the shifted sum is non-negative, the written and the intended updates agree |
| TextureControlsDrag.NextRotationAsWrittenLeavesRange | src/textureControls.js:80 | from -180, a pointer move of -1 px (diff -0.5, diff × 0.1 = -0.05) yields -180.05 as written, and 179.95 intended |
| TextureControlsDrag.DragControls.constructor | src/textureControls.js:5-15 | zero offsets, total scale 1, zero rotation, zero indicator values, not dragging, no drag start |
| TextureControlsDrag.DragControls.PadInteraction | src/textureControls.js:51-64 | the indicator shows the pad point and the accumulated offset is nudged; the rest, the rotation included, is kept |
| TextureControlsDrag.DragControls.PadMouseDown | src/textureControls.js:154-157 | dragging starts and the pad interaction is applied |
| TextureControlsDrag.DragControls.PadMouseMove | src/textureControls.js:158 | a move applies the pad interaction only while dragging; otherwise nothing changes |
| TextureControlsDrag.DragControls.MouseUp | src/textureControls.js:159-160 | dragging stops; nothing else changes |
| TextureControlsDrag.DragControls.RotationMouseDown | src/textureControls.js:67-72 | dragging starts from the pointer's x |
| TextureControlsDrag.DragControls.RotationDrag | src/textureControls.js:74-83 | while dragging, half the movement drives the strip; the total rotation advances by a tenth of that and is wrapped into [-180, 180) by the corrected `NextRotation`, whatever it was before; the start follows the pointer. Otherwise nothing changes |
| TextureControlsDrag.DragControls.ScaleChange | src/textureControls.js:92-96 | the total scale takes the slider value, and the indicator shows it centred on 0 |
| TextureControlsDrag.DragControls.ResetAll | src/textureControls.js:99-106 | all totals and indicators return to their initial values |
| TextureControlsDrag.DragControls.SpringBack | src/textureControls.js:26-35 | once not dragging, the indicators return to zero and the totals are kept |
| TextureControlsInput.WithSettings | src/textureControls.jsx:126-130 | the colour map is centred; it repeats by the scale and takes the rotation and the offset; the image, encoding, wrapping and flip are kept |
| TextureControlsInput.WithMapSettings | src/textureControls.jsx:125-131 | a material without a colour map is untouched; otherwise only its colour map is re-set |
| TextureControlsInput.WithMapSettingsIdempotent | src/textureControls.jsx:122-133 | applying the same settings twice equals applying them once |
| TextureControlsInput.RotationInput | src/textureControls.jsx:149 | `parseFloat(v) \|\| 0`: the parsed number, or 0 when it does not parse |
| TextureControlsInput.InputControls.constructor | src/textureControls.jsx:94-102 | zero offsets, total scale 1, zero rotation, zero indicator scale, not dragging |
| TextureControlsInput.InputControls.PadInteraction | src/textureControls.jsx:135-146 | the indicator shows the pad point and the accumulated offset is nudged; the rest is kept |
| TextureControlsInput.InputControls.PadMouseDown | src/textureControls.jsx:207-210 | dragging starts and the pad interaction is applied |
| TextureControlsInput.InputControls.PadMouseMove | src/textureControls.jsx:211 | a move applies the pad interaction only while dragging |
| TextureControlsInput.InputControls.MouseUp | src/textureControls.jsx:212-213 | dragging stops; nothing else changes |
| TextureControlsInput.InputControls.RotationChange | src/textureControls.jsx:148-151 | the total rotation takes the parsed field value, or 0 |
| TextureControlsInput.InputControls.ScaleChange | src/textureControls.jsx:153-157 | the total scale takes the slider value, and the indicator shows it centred on 0 |
| TextureControlsInput.InputControls.ResetAll | src/textureControls.jsx:159-165 | all totals and indicators return to their initial values |
| TextureControlsInput.InputControls.SpringBack | src/textureControls.jsx:112-120 | once not dragging, the indicators return to zero |
| TextureControlsInput.InputControls.UpdateTextureProperties | src/textureControls.jsx:122-133 | every texture target's material gets the current totals in its colour map (if it has one); names, kinds, render orders, the imported flag and the shadow flags are kept, and nothing else changes |
| AnimationRegistry.ModelControls.constructor | src/modelControls.js:4-7 | no mixers and no actions |
| AnimationRegistry.ModelControls.AddMixer | src/modelControls.js:9-15 | a mixer and action pair is appended only when both are present; mixers and actions stay paired |
| AnimationRegistry.ModelControls.ClearMixers | src/modelControls.js:17-34 | every old action is stopped and reset; every old mixer is stopped and uncached; both lists become empty |
| AnimationRegistry.ModelControls.PauseAllAnimations | src/modelControls.js:36-44 | every action is paused with time scale 0; its time, weight and running flag are kept |
| AnimationRegistry.ModelControls.PlayAllAnimations | src/modelControls.js:46-58 | every action is reset to time 0, unpaused, running, with time scale and weight 1 |
| AnimationRegistry.ModelControls.GetCurrentMixers | src/modelControls.js:60-62 | returns the registered mixers |
| AnimationRegistry.ModelControls.GetCurrentActions | src/modelControls.js:64-66 | returns the registered actions |
| TextureCache.FirstSomeIndex | src/materialManager.js:117-152 | the index of the first candidate that loads, or -1 exactly when none does |
| TextureCache.FirstSome | src/materialManager.js:117-152 | nothing exactly when no candidate loads; otherwise one of the candidates' results |
| TextureCache.FirstSomeAfterFailures | src/materialManager.js:117-149 | after failures, the first candidate that loads is the one returned |
| TextureCache.CacheKeysDiffer | src/materialManager.js:109 | `${path}_${type}` keys of two types that differ near the end never collide, whatever the paths |
| TextureCache.ExtensionPaths | src/materialManager.js:115-118 | one candidate path per extension, in extension order |
| TextureCache.Attempts | src/materialManager.js:117-143 | a candidate succeeds iff the loader yields a texture for it, and it then yields the configured texture |
| TextureCache.CachedLoad | src/materialManager.js:108-153 | a hit returns the cached texture and leaves the cache as it was. A miss returns the first candidate that loads and caches it under the key. Failure means no hit and no candidate loads, and then nothing is cached |
| TextureCache.CachedLoadMemoised | src/materialManager.js:111-113 | after a successful lookup, the same key is served from the cache whatever the loader does then |
| TextureCache.CachedLoadGrows | src/materialManager.js:145 | a lookup never removes or changes a cached entry, and adds only its own key |
| TextureCache.LoadMany | src001/materialManager.js:140-165 | a batch of lookups yields one result per request |
| TextureCache.LoadManyGrows | src001/materialManager.js:140-165 | a batch keeps every cached entry and adds only keys it requested |
| TextureCache.LoadManyFresh | src001/MaterialSystem.js:80-98 | with distinct uncached keys, each request's result is its own first candidate that loads, so sequential order gives the concurrent outcome |
| TextureCache.LoadManyAllCached | src001/MaterialSystem.js:14-16 | a batch whose keys are all cached returns the cached textures and leaves the cache unchanged |
| Materials.OrDefault | src/materialManager.js:161-165 | `value \|\| fallback`: a missing or zero value takes the fallback |
| Materials.Given | src/materialManager.js:174 | a texture path counts as given iff it is present and non-empty |
| Materials.ColorSpaceFor | src/materialManager.js:126-132 | normal, ambient-occlusion and roughness maps carry no colour space; the rest are sRGB |
| Materials.Configured | src/materialManager.js:124-136 | a loaded texture takes its map type's colour space and repeat wrapping; its image and tiling are kept |
| Materials.Candidates | src/materialManager.js:115-118 | the candidates are png, jpg and jpeg under the texture root, in that order |
| Materials.TryLoadOrder | src/materialManager.js:108-153 | a hit returns the cached texture. Otherwise png is tried, then jpg, then jpeg; the first that loads is configured, cached and returned. When none loads the result is null and the cache is unchanged |
| Materials.WithPresetSettings | src/materialManager.js:202-210 | a map takes the preset's repeat, offset and rotation and keeps everything else |
| Materials.TiledSlot | src/materialManager.js:198-214 | a present map is tiled iff settings are given; an absent one stays absent |
| Materials.BaseMaterial | src/materialManager.js:156-170 | the preset's colour, roughness and metalness. Sheen, sheen roughness, clearcoat and transmission take their `\|\|` defaults. Double-sided, transparent, with no maps |
| Materials.LoadSlot | src/materialManager.js:174-195 | a slot whose path is not given makes no lookup; otherwise it makes exactly the cached lookup of its path and type |
| Materials.LoadPresetMaps | src/materialManager.js:172-195 | the three lookups keep every cached entry, and a slot whose path is not given stays empty |
| Materials.PresetMapsFresh | src/materialManager.js:172-195 | from a cache without the preset's keys, each map is its own path's first candidate that loads; the lookups cannot hit each other's entries |
| Materials.PresetMapsAgain | src/materialManager.js:172-195 | once every given map has loaded, repeating the lookups is served entirely from the cache |
| Materials.Created | src/materialManager.js:155-222 | the created material is the base material plus the maps. A normal map brings the normal scale and an ambient-occlusion map intensity 1. Without texture paths it is the base material and the cache is unchanged. Cached entries are kept |
| Materials.CreatedFromFreshCache | src/materialManager.js:172-214 | from a fresh cache, each map is present iff its path is given and a candidate loads; it is then that texture, configured and tiled |
| Materials.CreatedAgainFromCache | src/materialManager.js:155-222 | creating the same preset again, once its maps have loaded, gives the same material and cache without consulting the loader |
| Materials.MaterialManager.constructor | src/materialManager.js:4-8 | the texture cache starts empty |
| Materials.MaterialManager.TryLoadTexture | src/materialManager.js:108-153 | the extension loop returns, and caches, exactly the specified lookup |
| Materials.MaterialManager.CreateMaterialWithTextures | src/materialManager.js:155-222 | the slot-by-slot build yields exactly the specified material and cache |
| Materials.MaterialManager.UpdateMaterial | src/materialManager.js:323-350 | an unknown preset changes nothing. A known one gives the object a freshly created material that keeps its current colour (the preset colour when it has none). The object's name, kind, render order and flags are kept |
| LegacyMaterials.Configured | src001/materialManager.js:89-96 | every loaded texture is sRGB with repeat wrapping; its image and tiling are kept |
| LegacyMaterials.Requests | src001/materialManager.js:140-143 | one cached lookup per texture-path entry, keyed by path and map type, in entry order |
| LegacyMaterials.AssignSlot | src001/materialManager.js:146-160 | the switch: each of the four map types fills its own slot (the ambient-occlusion map also sets intensity 1); any other type changes nothing |
| LegacyMaterials.AssignAllSlot | src001/materialManager.js:140-165 | with each map type listed once, a slot ends up holding exactly its entry's texture when that loaded, and is untouched when no entry names it |
| LegacyMaterials.BaseMaterial | src001/materialManager.js:126-135 | the preset's colour, roughness, metalness, normal scale and sheen; double-sided, transparent, with no maps |
| LegacyMaterials.Created | src001/materialManager.js:123-170 | without texture paths: the base material, no textures, the cache unchanged. Otherwise only the map slots differ from the base material, and `hasTextures` says whether any texture loaded (the source keeps that flag in a local it only logs) |
| LegacyMaterials.CreatedSlots | src001/materialManager.js:140-165 | with unique map types, the slot an entry names holds that entry's loaded texture |
| LegacyMaterials.AssignAllKeepsRest | src001/materialManager.js:146-160 | assignments change only the four map slots and the ambient-occlusion intensity |
| LegacyMaterials.HasTexturesFresh | src001/materialManager.js:137-161 | from a cache without the entries' keys, `hasTextures` holds iff some entry's texture loads |
| LegacyMaterials.PresetPathsDistinct | src001/materialManager.js:13-56 | the four map types of a preset never give colliding cache keys, so concurrent lookups cannot interfere |
| LegacyMaterials.MaterialManager.constructor | src001/materialManager.js:4-10 | the texture cache starts empty |
| LegacyMaterials.MaterialManager.TryLoadTexture | src001/materialManager.js:68-121 | the extension loop returns, and caches, exactly the specified lookup |
| LegacyMaterials.MaterialManager.CreateMaterialWithTextures | src001/materialManager.js:123-170 | the entry loop yields exactly the specified material, `hasTextures` flag and cache |
| LegacyMaterials.MaterialManager.UpdateMaterial | src001/materialManager.js:219-249 | an unknown preset changes nothing; a known one gives the object a freshly created material that keeps its current colour. The object's name, kind, render order and flags are kept |
| MaterialRegistry.FormatPaths | src001/MaterialSystem.js:18-19 | one path per format: base path, material directory, texture name and extension |
| MaterialRegistry.LoadTextureFirstFormat | src001/MaterialSystem.js:12-44 | on a miss, the first format that loads is returned and cached as it is |
| MaterialRegistry.ValueOr | src001/MaterialSystem.js:47-53 | a missing setting takes its default |
| MaterialRegistry.ConfigureTexture | src001/MaterialSystem.js:46-63 | a missing texture is returned as is. A present one takes the repeat, wrapping and encoding settings (defaults 1, repeat, sRGB) and keeps its image |
| MaterialRegistry.ConfigureIdempotent | src001/MaterialSystem.js:46-63 | configuring twice with the same settings equals configuring once |
| MaterialRegistry.BaseMaterial | src001/MaterialSystem.js:65-76 | white unless a colour is given; roughness 0.5, metalness 0, normal scale 1, ambient-occlusion intensity 1, double-sided, no maps |
| MaterialRegistry.WithTexturesSlots | src001/MaterialSystem.js:100-122 | on the base material, each of the five slots holds exactly its own texture, and everything else is the base material |
| MaterialRegistry.Requests | src001/MaterialSystem.js:80-86 | the five lookups, diffuse, normal, roughness, ao and metalness, in that order, over the supported formats |
| MaterialRegistry.RequestsDistinct | src001/MaterialSystem.js:80-86 | the five texture names never give colliding cache keys |
| MaterialRegistry.Created | src001/MaterialSystem.js:65-144 | the new entry's material is the base material with the batch's configured textures in their slots; the cache is the batch's |
| MaterialRegistry.CreatedSlotsFresh | src001/MaterialSystem.js:80-122 | from a cache without the material's keys, each slot holds its own texture's first loading format, configured |
| MaterialRegistry.UpdateColor | src001/MaterialSystem.js:128-134 | the colour is set and the textures kept; the colour is linearised iff the material has a colour map |
| MaterialRegistry.UpdateColorLastWins | src001/MaterialSystem.js:128-134 | of two recolourings, the second wins |
| MaterialRegistry.MaterialSystem.constructor | src001/MaterialSystem.js:4-10 | no stored materials and an empty cache |
| MaterialRegistry.MaterialSystem.LoadTexture | src001/MaterialSystem.js:12-44 | the format loop returns, and caches, exactly the specified lookup; stored materials are kept |
| MaterialRegistry.MaterialSystem.CreateMaterial | src001/MaterialSystem.js:65-144 | stores, under the name, exactly the specified entry with the specified cache |
| MaterialRegistry.MaterialSystem.GetMaterial | src001/MaterialSystem.js:147-156 | a stored material is returned, recoloured when a colour is given; otherwise one is created with that colour (white by default) |
| MaterialRegistry.MaterialSystem.UpdateMaterialColor | src001/MaterialSystem.js:159-164 | an unknown name changes nothing; a known entry is recoloured; the cache is kept |
| EventHandling.TargetsNotSelectable | src/eventHandler.js:227-245 | a texture target is never selectable; a selectable object is an imported mesh without a shadow material |
| EventHandling.TextureTargets | src/eventHandler.js:237-245 | exactly the meshes whose name contains Fronttex or Backtex, in scene order |
| EventHandling.TextureTargetsAppend | src/eventHandler.js:239-243 | the traversal filter distributes over concatenation |
| EventHandling.Centred | src/eventHandler.js:262-264 | the texture is centred at (0.5, 0.5) and keeps its image and tiling |
| EventHandling.TargetMaterial | src/eventHandler.js:251-265 | a standard, transparent, front-sided material with alpha test 0.1, carrying the centred texture and no other maps |
| EventHandling.TargetMaterialCentred | src/eventHandler.js:262-263 | re-centring a texture that is already centred changes nothing |
| EventHandling.Uploaded | src/eventHandler.js:157-160 | an uploaded logo is sRGB, not flipped, and keeps its image and tiling |
| EventHandling.LabelColorFor | src/eventHandler.js:283-290 | the label is black iff the background's luminance exceeds 0.5 |
| EventHandling.LabelColorMonotone | src/eventHandler.js:283-290 | a brighter background never turns a black label white; white gives black, black gives white |
| EventHandling.FirstSelectableIndex | src/eventHandler.js:207-209 | the nearest selectable hit, or -1 exactly when none is selectable |
| EventHandling.EventHandler.constructor | src/eventHandler.js:4-25 | nothing selected and no stored texture |
| EventHandling.EventHandler.FindTextureObjects | src/eventHandler.js:237-245 | the traversal collects exactly the texture targets, in scene order |
| EventHandling.EventHandler.ApplyStoredTextureToObjects | src/eventHandler.js:247-268 | without a stored texture nothing changes. Otherwise every object gets the target material with that texture and render order 1, and the stored texture becomes centred (it is shared). Names, kinds, the imported flag and the shadow flags are kept |
| EventHandling.EventHandler.LogoUpload | src/eventHandler.js:146-166 | a non-image file or a failed load changes nothing. Otherwise the logo is stored (centred when there is a texture target), the texture targets get it and every other object is unchanged. The selection and its label are kept |
| EventHandling.EventHandler.UpdateModelNameDisplay | src/eventHandler.js:275-281 | the label reads "Selected: name" in white |
| EventHandling.EventHandler.UpdateModelNameDisplayColor | src/eventHandler.js:283-290 | the label colour follows the background's luminance |
| EventHandling.EventHandler.KeyDown | src/eventHandler.js:218-225 | Escape clears the selection and shows "Selected: None"; any other key changes nothing |
| EventHandling.EventHandler.Click | src/eventHandler.js:194-216 | clicks over the panels, or with no selectable hit, change nothing. Otherwise the nearest selectable hit is selected and named, with the label in white. A changed selection is always selectable |
| EventHandling.EventHandler.ModelChanged | src/eventHandler.js:98-121 | the selection is cleared; after a successful load a stored texture is re-applied to the texture targets and becomes centred, and every other object is unchanged; otherwise the scene objects and the stored texture are untouched |
| ModelLoading.ModelTable | src/modelLoader.js:5-42 | six models: models 5 and 6 keep their own materials and have no animations, the other four the reverse. Every model has a front print part |
| ModelLoading.CreatePresetMaterial | src/modelLoader.js:79-91 | no material exactly for an unknown preset; otherwise one of the preset's type with the preset's properties |
| ModelLoading.PresetMaterials | src/modelLoader.js:44-66 | the Avatar and Pants presets' colours, types and clearcoats; any other name has no preset |
| ModelLoading.MaterialRule | src/modelLoader.js:247-277 | print areas get the overlay. With default materials the rest keep their own. Otherwise cotton is applied exactly to non-print meshes that have no preset of their own |
| ModelLoading.AvatarPresetOnlyOnExactName | src/modelLoader.js:93-103 | the Avatar preset survives only on a node named exactly "Avatar". "Avatar_1" gets the preset and is then overwritten by cotton in the Avatar colour. Pants always keeps its own material |
| ModelLoading.PartPaths | src/modelLoader.js:129-130 | one path per part file, in order, under the model directory |
| ModelLoading.FirstFailure | src/modelLoader.js:128-134 | the first part that does not load, or -1 exactly when all load |
| ModelLoading.LoadedParts | src/modelLoader.js:128-134 | exactly the parts before the first failure, as the loader yields them |
| ModelLoading.ImportedIffMesh | src/modelLoader.js:156-164 | validation succeeds iff some loaded node is a mesh |
| ModelLoading.ModelLoader.constructor | src/modelLoader.js:69-77 | no loaded group and a fresh animation registry |
| ModelLoading.ModelLoader.ApplyPresetMaterial | src/modelLoader.js:93-103 | without default materials, a name containing "Avatar" gets the Avatar preset material; otherwise nothing changes. Names and flags are kept |
| ModelLoading.ModelLoader.ProcessMeshMaterial | src/modelLoader.js:247-282 | the material and render order follow the material rule. For cotton they are exactly the material manager's cotton material in the node's colour. Only cotton touches the texture cache |
| ModelLoading.ModelLoader.ClearCurrentModel | src/modelLoader.js:166-198 | a loaded group is removed together with its animations; without one the registry is kept |
| ModelLoading.ModelLoader.CreateNode | src/modelLoader.js:208-222 | an imported node is flagged imported (when a mesh), processed by the material rule, and shadow-casting |
| ModelLoading.ModelLoader.CreateNodes | src/modelLoader.js:208-222 | every node of a part is processed |
| ModelLoading.ModelLoader.RegisterAnimations | src/modelLoader.js:229-234 | one action per clip is registered, each with the group mixer |
| ModelLoading.ModelLoader.LoadModelPart | src/modelLoader.js:200-245 | the part's processed nodes are appended to the group, and its clips are registered iff the model is animated |
| ModelLoading.ModelLoader.ValidateModelLoaded | src/modelLoader.js:156-164 | true iff the group holds an imported mesh |
| ModelLoading.ModelLoader.LoadModels | src/modelLoader.js:105-154 | the corrected load, with progress calls the loading manager answers: an unknown model fails with "Invalid model selection" before anything changes. Otherwise the model set is loaded as `Loaded` describes |
| ModelLoading.ModelLoader.LoadModelsAsWritten | src/modelLoader.js:105-118 | as written: an unknown model fails with "Invalid model selection" and changes nothing; a known one records its directory and then fails with a TypeError from `startLoading`, leaving the group and the progress counters as they were |
| ModelLoading.ProgressCallsUndefined | src/loadingManager.js:3-31 | the loading manager defines neither `startLoading` nor `itemLoaded` |
| ModelLoading.ModelLoader.LoadModelSet | src/modelLoader.js:112-146 | the directory is recorded; the old model and its animations are cleared; parts load in order and stop at the first failure; the result is a success iff every part loaded and a mesh was imported |
| ModelLoading.ModelLoader.LoadParts | src/modelLoader.js:128-134 | the part loop stops at the first failure; the group holds the processed nodes of the parts before it, with one progress tick each and their clips registered |
| LegacyModelLoading.FileCategory | src001/modelLoader.js:112-128 | the first-match chain: print files first, then buttons, zippers, threads, metal, avatar and pants; everything else is other |
| LegacyModelLoading.SelectMaterial | src001/modelLoader.js:110-128 | print files get the simple material, other files the PBR material; a named material is used only when one is supplied |
| LegacyModelLoading.EveryOtherFileIsPbr | src001/modelLoader.js:112-128 | with no named materials (the loader never sets them), every non-print file gets the PBR material |
| LegacyModelLoading.StandardOverlay | src001/modelLoader.js:62-69 | the print-area material: standard, transparent, front-sided, alpha test 0.1, white, with no map |
| LegacyModelLoading.AnimatedParts | src001/modelLoader.js:96-100 | at most one animation per part file |
| LegacyModelLoading.ModelLoader.constructor | src001/modelLoader.js:26-31 | nothing loaded, a fresh registry, no material manager |
| LegacyModelLoading.ModelLoader.ProcessMesh | src001/modelLoader.js:55-91 | print meshes get the overlay with render order 1. Simple-material meshes get a double-sided clone. The rest get cotton from the manager if there is one, else a double-sided PBR clone. Names and flags are kept |
| LegacyModelLoading.ModelLoader.CreateNode | src001/modelLoader.js:55-91 | an imported node is processed and flagged |
| LegacyModelLoading.ModelLoader.CreateNodes | src001/modelLoader.js:55-91 | every node of a part is processed |
| LegacyModelLoading.ModelLoader.LoadPart | src001/modelLoader.js:52-103 | the part's processed nodes are appended; one action is registered iff the part has clips |
| LegacyModelLoading.ModelLoader.LoadFile | src001/modelLoader.js:47-105 | a file that fails to load changes nothing; otherwise it is loaded as a part with its chosen material |
| LegacyModelLoading.ModelLoader.LoadAll | src001/modelLoader.js:107-133 | every file is attempted. The loaded parts' nodes are processed, with one action per animated part. The result reports whether every file loaded |
| LegacyModelLoading.ModelLoader.LoadModels | src001/modelLoader.js:33-142 | loaded models and animations are cleared first; an unknown model then loads nothing; animations are running exactly when every part loaded (new actions start stopped); the controls are returned in every case |

## Left out

- Rendering, disposal (`dispose`, `needsUpdate`), console and loading-screen logs, timers, and `computeVertexNormals` are left out: they have no effect on the modelled state.
- Three.js colour management is left out. `THREE.Color` parsing, the sRGB-to-linear conversion and the luminance inputs are given as numbers, and linearisation is a flag.
- Texture encodings (`encoding = sRGBEncoding`) and colour spaces are modelled as one colour-space field.
- `generateMipmaps` and `depthWrite`/`depthTest` are left out.
- Asynchrony is modelled sequentially.
  - Concurrent texture lookups use distinct cache keys, and `TextureCache.LoadManyFresh` shows that this order gives the concurrent outcome.
  - In the legacy loader each part appends only its own nodes and action.
  - The cotton update inside `gltf.scene.traverse` is not awaited in the source; the model applies it before the part finishes.
- Errors thrown inside an async `traverse` callback (src/modelLoader.js:278-281) do not reach the caller in the source; the model has none to throw.
- Textures and materials are values. In-place mutation of a texture or material shared between objects is not captured, except the centring of the shared logo texture in `ApplyStoredTextureToObjects`. In the same way, the aliasing of the `MaterialSystem` entry's material with the caller's copy is not captured.
- `material === simpleMaterial` (src001/modelLoader.js:72) is modelled by the choice tag. This assumes the PBR and simple materials are distinct objects.
- An object without a material (`object.material?.color` in `updateMaterial`) is modelled as a non-mesh node, which takes the preset colour.
- Layer ids (`Date.now()`) and `window.currentModelDirectory` are parameters.
- The layer panel's `canvas.getContext` is assumed to succeed.
- The DOM elements the event handler writes to are assumed to exist.
- Compositor.RepeatFactor: requires a non-zero scale on a tiling active layer; the source would compute `1 / 0 = Infinity`. Compositor.UpdateMaterials inherits this requirement.
- UVEditor.Normalized: requires a canvas of positive size; the source would divide by zero. The same holds for UVEditor.Editor.HandleTransform, UVEditor.Editor.HandleFlip, UVEditor.Editor.HandleRepeatChange and OffsetPad.PadPoint.
- UVEditor.Editor.HandleTransform: the rotation angle (`atan2`) and the scale ratio (`hypot`) are inputs rather than computed, and the scale ratio of a drag that starts at the centre (a division by zero) is not modelled.
- UVEditor.Editor.HandleFlip: without an active layer the source throws after updating the transform; the model keeps the update and publishes nothing. The same holds for UVEditor.Editor.HandleReset and UVEditor.Editor.HandleRepeatChange.
- TextureControlsDrag.DragControls.RotationDrag: wraps the rotation with the corrected `NextRotation` from the Findings table, not the sign-keeping `%` the source uses; from -180 a pointer move of -1 px (diff -0.5) gives 179.95 here and -180.05 in the source. The drag methods therefore do not require the rotation to be in range beforehand.
- TextureControlsDrag.DragControls.RotationDrag: a limitation of the model: the handler reads the current dragging flag and drag start. The React closure that `handleRotationMouseDown` registers on the window (src/textureControls.js:70-75) is not modelled; that closure holds the flag and start of the render in which it was created, which this model does not capture.
- The drag panel's `updateTextureProperties` (src/textureControls.js:37-48) is not part of this model. `THREE` is not imported in that file, so the update would throw; the same update in src/textureControls.jsx is modelled.
- Radians: texture rotations are stored in degrees; `degToRad` is not modelled.
- The animation toggle button (src/eventHandler.js:76-93) is not part of this model. It calls `playAllAnimations`/`pauseAllAnimations` on the loader, which has no such methods; the registry's methods are modelled.
- The part colour picker (src/eventHandler.js:44-55) is not part of this model. It sets the selected part's colour with `setStyle`, darkens it by 0.8 when the material has a colour map, and flags the material for update; colours are kept as hex values here, while Three.js stores them as linear floating-point channels, which the darkening scales.
- The scene background set by the background colour picker (src/eventHandler.js:57-62) is not part of this model; the label colour it also updates is `EventHandling.EventHandler.UpdateModelNameDisplayColor`.
- The material select (src/eventHandler.js:64-73) forwards the selected part and preset name to `Materials.MaterialManager.UpdateMaterial`, which is modelled.
- Scene centring after a model change is not part of this model, and neither is `updateMaterialControls` (DOM sliders).
- EventHandling.EventHandler.ModelChanged: the outcome of `loadModels` is an input, and the `playAllAnimations` it triggers is covered by `AnimationRegistry.ModelControls.PlayAllAnimations`.
- src001/modelControls.js is not part of this model. The src/modelControls.js registry stands in for it in the legacy loader.
- The legacy loader's `this.materials` is never assigned in the source, so named materials are an optional input.
- The legacy loader's `materialManager` stays null in the source (src001/main.js never sets it); both branches are modelled.
- The material presets' UI (`initializeUI`, sliders) is not part of this model.
- `initMaterials` (src001/MaterialSystem.js:168-196) is not part of this model.
- Floating point: reals are exact; NaN and Infinity do not arise in the model.

## Findings

| source | as written | input that shows it | evidently intended | confidence | as-written member | corrected member |
|---|---|---|---|---|---|---|
| src/textureControls.js:78-81 | `((r + 180) % 360) - 180` with JavaScript's sign-keeping `%` | previous rotation -180, pointer move of -1 px (diff -0.5, diff × 0.1 = -0.05): the result is -180.05, outside the advertised range -180 to 180 | wrap into [-180, 180), giving 179.95 | not executed | TextureControlsDrag.NextRotationAsWrittenLeavesRange | TextureControlsDrag.NextRotation |
| src/modelLoader.js:117-132 | `this.loadingManager.startLoading(...)` and `this.loadingManager.itemLoaded()`, on a `LoadingManager` (src/loadingManager.js:3-31) that defines only `show`, `hide`, `updateLog` and `createThreeJSManager` | `loadModels(materialManager, 'model1')`: the directory is recorded, then the call throws a TypeError that the outer handler logs and rethrows; the old model is never cleared and no part loads | report progress, then clear the old model and load the parts | not executed | ModelLoading.ModelLoader.LoadModelsAsWritten, ModelLoading.ProgressCallsUndefined | ModelLoading.ModelLoader.LoadModels |
