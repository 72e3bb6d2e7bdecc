/** The model loader: the table of garment models and their part files, the
    two material presets, the rule that decides which material each imported
    mesh ends up with, and the loading sequence (clear the previous model,
    load the parts one after another, register their animations, then check
    that an imported mesh exists). The glTF loader is an oracle from a path
    to the parsed part, if it loads. */
module ModelLoading {
  import opened Common
  import opened Scene
  import opened AnimationRegistry
  import Materials

  /** One entry of `MODEL_PATHS`. */
  datatype ModelConfig = ModelConfig(directory: string, files: seq<string>, useDefaultMaterials: bool, hasAnimations: bool)

  const ModelPaths: map<string, ModelConfig> := map[
    "model1" := ModelConfig("/Models/Polo_T-shirt",
                            ["Backtex.glb", "Buttons.glb", "Fronttex.glb", "Polo_T-shirt.glb", "Threads.glb"], false, true),
    "model2" := ModelConfig("/Models/CrewNeck_HS_T-shirt_CasPants",
                            ["Backtex.glb", "Fronttex.glb", "Zipper.glb", "Avatar.glb", "Metal.glb", "CrewNeck_HS.glb", "Pants.glb"], false, true),
    "model3" := ModelConfig("/Models/VNeck_FS_CasPants",
                            ["Backtex.glb", "Fronttex.glb", "Zipper.glb", "Avatar.glb", "V-Neck.glb", "Pants.glb"], false, true),
    "model4" := ModelConfig("/Models/Hoodie_Pants",
                            ["Backtex.glb", "Fronttex.glb", "Zipper.glb", "Avatar.glb", "Metal.glb", "Pants.glb", "Threads.glb", "Hoodie.glb"], false, true),
    "model5" := ModelConfig("/Models/Kids_Tracksuite",
                            ["Fronttex.glb", "Zipper.glb", "Jacket.glb", "Pants.glb"], true, false),
    "model6" := ModelConfig("/Models/Kids_Turtleneck",
                            ["Fronttex.glb", "TurtleNeck.glb"], true, false)
  ]

  /** The six selectable models; the two kids' models keep their own
      materials and have no animations, the four adult ones the reverse, and
      every model has a front texture part. */
  lemma ModelTable()
    ensures ModelPaths.Keys == {"model1", "model2", "model3", "model4", "model5", "model6"}
    ensures forall id :: id in ModelPaths ==>
              ModelPaths[id].useDefaultMaterials == !ModelPaths[id].hasAnimations &&
              (ModelPaths[id].useDefaultMaterials <==> id == "model5" || id == "model6") &&
              "Fronttex.glb" in ModelPaths[id].files
  {
  }

  /** One entry of `MATERIAL_PRESETS`. */
  datatype PresetDef = PresetDef(typeName: string, color: int, roughness: real, metalness: real,
                                 sheen: real, sheenRoughness: real, clearcoat: Option<real>)

  const MaterialPresets: map<string, PresetDef> := map[
    "Avatar" := PresetDef("MeshPhysicalMaterial", 0xF5D0C5, 0.7, 0.0, 0.3, 1.0, Some(0.01)),
    "Pants" := PresetDef("MeshPhysicalMaterial", 0x1a237e, 1.0, 0.0, 0.01, 1.0, None)
  ]

  const AvatarColor: int := 0xF5D0C5

  /** `createPresetMaterial(presetName)`: no material for an unknown name;
      otherwise a physical or standard material (by the preset's type) with
      the preset's properties over the library defaults. */
  function CreatePresetMaterial(presetName: string): (m: Option<Material>)
    ensures m.None? <==> presetName !in MaterialPresets
    ensures m.Some? ==>
              var p := MaterialPresets[presetName];
              m.value.kind == (if p.typeName == "MeshPhysicalMaterial" then Physical else Standard) &&
              m.value.color == p.color && m.value.roughness == p.roughness && m.value.metalness == p.metalness &&
              m.value.sheen == p.sheen && m.value.sheenRoughness == p.sheenRoughness &&
              m.value.clearcoat == (if p.clearcoat.Some? then p.clearcoat.value else 0.0) &&
              m.value.side == FrontSide && !m.value.transparent && m.value.colorMap.None? && m.value.normalMap.None?
  {
    if presetName !in MaterialPresets then None
    else
      var p := MaterialPresets[presetName];
      var kind := if p.typeName == "MeshPhysicalMaterial" then Physical else Standard;
      var base := DefaultMaterial(kind).(color := p.color, roughness := p.roughness, metalness := p.metalness,
                                         sheen := p.sheen, sheenRoughness := p.sheenRoughness);
      Some(if p.clearcoat.Some? then base.(clearcoat := p.clearcoat.value) else base)
  }

  /** Both presets give skin- or cloth-like physical materials. */
  lemma PresetMaterials()
    ensures CreatePresetMaterial("Avatar").Some? && CreatePresetMaterial("Avatar").value.kind == Physical
    ensures CreatePresetMaterial("Avatar").value.color == AvatarColor && CreatePresetMaterial("Avatar").value.clearcoat == 0.01
    ensures CreatePresetMaterial("Pants").Some? && CreatePresetMaterial("Pants").value.kind == Physical
    ensures CreatePresetMaterial("Pants").value.color == 0x1a237e && CreatePresetMaterial("Pants").value.clearcoat == 0.0
    ensures CreatePresetMaterial("Jacket").None?
  {
  }

  /** What happens to an imported mesh's material. */
  datatype Rule =
    | Overlay       // the clear-coated texture overlay, drawn after the rest
    | KeepOwn       // the material in the glTF file is kept
    | AvatarPreset  // the Avatar preset material
    | Cotton        // the cotton material of the material manager

  /** The decision `processMeshMaterial` and `applyPresetMaterial` make
      together for a mesh called `name`. */
  function MaterialRule(name: string, useDefaultMaterials: bool): (r: Rule)
    ensures IsTextureTargetName(name) ==> r == Overlay
    ensures !IsTextureTargetName(name) && useDefaultMaterials ==> r == KeepOwn
    ensures r == Cotton <==> !IsTextureTargetName(name) && !useDefaultMaterials && name !in MaterialPresets
  {
    if IsTextureTargetName(name) then Overlay
    else if useDefaultMaterials then KeepOwn
    else if name in MaterialPresets then
      (if Includes(name, "Avatar") || name == "Avatar" then AvatarPreset else KeepOwn)
    else Cotton
  }

  /** The Avatar preset survives only on a mesh called exactly "Avatar": a
      mesh whose name merely contains it, such as "Avatar_1", gets the
      preset first and is then overwritten by cotton in the Avatar colour.
      The Pants preset is never applied, so "Pants" keeps its own material. */
  lemma AvatarPresetOnlyOnExactName(useDefaultMaterials: bool)
    ensures MaterialRule("Avatar", useDefaultMaterials) == (if useDefaultMaterials then KeepOwn else AvatarPreset)
    ensures !useDefaultMaterials ==> MaterialRule("Avatar_1", false) == Cotton && CottonColor(true, "Avatar_1", 0) == AvatarColor
    ensures MaterialRule("Pants", useDefaultMaterials) == KeepOwn
    ensures forall name :: MaterialRule(name, useDefaultMaterials) == AvatarPreset ==> name == "Avatar"
  {
    assert "Avatar"[..6] == "Avatar";
    assert "Avatar_1"[..6] == "Avatar";
    // None of these names holds an 'F' or a 'B', and "Pants" holds no 'v'.
    ExcludesMissingChar("Avatar", "Fronttex", 0);
    ExcludesMissingChar("Avatar", "Backtex", 0);
    ExcludesMissingChar("Avatar_1", "Fronttex", 0);
    ExcludesMissingChar("Avatar_1", "Backtex", 0);
    ExcludesMissingChar("Pants", "Fronttex", 0);
    ExcludesMissingChar("Pants", "Backtex", 0);
    ExcludesMissingChar("Pants", "Avatar", 1);
  }

  /** The colour the cotton material takes: a mesh keeps the colour of its
      current material, which is the Avatar colour once the Avatar preset
      was put on it; a node without a material gets cotton's own colour. */
  function CottonColor(isMesh: bool, name: string, ownColor: int): int {
    if !isMesh then Materials.Presets["cotton"].baseColor
    else if Includes(name, "Avatar") || name == "Avatar" then AvatarColor
    else ownColor
  }

  /** A cotton material in the given colour, whatever maps it carries. */
  predicate IsCottonMaterial(m: Material, color: int) {
    var base := Materials.BaseMaterial("cotton", Materials.Presets["cotton"].(baseColor := color));
    m.(colorMap := None, normalMap := None, aoMap := None, normalScale := base.normalScale,
       aoMapIntensity := base.aoMapIntensity) == base
  }

  /** The material manager's cotton material for a node, in the colour
      `CottonColor` picks, with the texture cache before and after. */
  predicate CottonCreated(m: Material, cacheAfter: map<string, Texture>, cacheBefore: map<string, Texture>,
                          isMesh: bool, name: string, ownColor: int, load: string -> Option<Texture>)
  {
    Materials.Creation(m, cacheAfter) ==
      Materials.Created(cacheBefore, "cotton", Materials.Presets["cotton"].(baseColor := CottonColor(isMesh, name, ownColor)), load)
  }

  /** A glTF node as the file describes it. */
  datatype NodeSpec = NodeSpec(name: string, isMesh: bool, material: Material)

  /** A parsed glTF part: its nodes in traversal order and how many
      animation clips it carries. */
  datatype Gltf = Gltf(nodes: seq<NodeSpec>, animations: nat)

  /** The material and render order a node ends up with, from its render
      order before. */
  predicate MaterialOutcome(m: Material, renderOrder: int, s: NodeSpec, renderOrderBefore: int, useDefaultMaterials: bool) {
    match MaterialRule(s.name, useDefaultMaterials)
    case Overlay => m == PhysicalOverlay(None) && renderOrder == 1
    case KeepOwn => m == s.material && renderOrder == renderOrderBefore
    case AvatarPreset => Some(m) == CreatePresetMaterial("Avatar") && renderOrder == renderOrderBefore
    case Cotton => IsCottonMaterial(m, CottonColor(s.isMesh, s.name, s.material.color)) && renderOrder == renderOrderBefore
  }

  /** A loaded node: meshes are marked imported, cast and receive shadows
      and get their material by the rule; other nodes are left as loaded. */
  predicate Processed(o: Object3D, s: NodeSpec, useDefaultMaterials: bool)
    reads o
  {
    o.name == s.name && o.isMesh == s.isMesh &&
    if s.isMesh then
      o.isImported && o.castShadow && o.receiveShadow && MaterialOutcome(o.material, o.renderOrder, s, 0, useDefaultMaterials)
    else
      !o.isImported && !o.castShadow && !o.receiveShadow && o.material == s.material && o.renderOrder == 0
  }

  /** Every node processed from its description, position by position. */
  predicate AllProcessed(objs: seq<Object3D>, specs: seq<NodeSpec>, useDefaultMaterials: bool)
    reads set o | o in objs
  {
    |objs| == |specs| && forall j :: 0 <= j < |objs| ==> Processed(objs[j], specs[j], useDefaultMaterials)
  }

  lemma AllProcessedAppend(a: seq<Object3D>, s: seq<NodeSpec>, b: seq<Object3D>, t: seq<NodeSpec>, useDefaultMaterials: bool)
    requires AllProcessed(a, s, useDefaultMaterials) && AllProcessed(b, t, useDefaultMaterials)
    ensures AllProcessed(a + b, s + t, useDefaultMaterials)
  {
    forall j | 0 <= j < |a + b|
      ensures Processed((a + b)[j], (s + t)[j], useDefaultMaterials)
    {
      if j < |a| {
        assert (a + b)[j] == a[j] && (s + t)[j] == s[j];
      } else {
        assert (a + b)[j] == b[j - |a|] && (s + t)[j] == t[j - |a|];
      }
    }
  }

  /** `${directory}/${filename}` for each part, in order. */
  function PartPaths(config: ModelConfig): (paths: seq<string>)
    ensures |paths| == |config.files|
    ensures forall i :: 0 <= i < |paths| ==> paths[i] == config.directory + "/" + config.files[i]
  {
    seq(|config.files|, i requires 0 <= i < |config.files| => config.directory + "/" + config.files[i])
  }

  /** Index of the first part that does not load, or -1. */
  function FirstFailure(paths: seq<string>, gltf: string -> Option<Gltf>): (k: int)
    ensures -1 <= k < |paths|
    ensures k == -1 <==> forall i :: 0 <= i < |paths| ==> gltf(paths[i]).Some?
    ensures k >= 0 ==> gltf(paths[k]).None? && forall i :: 0 <= i < k ==> gltf(paths[i]).Some?
  {
    if paths == [] then -1
    else if gltf(paths[0]).None? then 0
    else
      var k := FirstFailure(paths[1..], gltf);
      if k == -1 then -1 else k + 1
  }

  /** The parts loaded before the first failure. */
  function LoadedParts(paths: seq<string>, gltf: string -> Option<Gltf>): (parts: seq<Gltf>)
    ensures var k := FirstFailure(paths, gltf);
            |parts| == if k == -1 then |paths| else k
    ensures forall j :: 0 <= j < |parts| ==> gltf(paths[j]) == Some(parts[j])
  {
    var k := FirstFailure(paths, gltf);
    var n := if k == -1 then |paths| else k;
    seq(n, j requires 0 <= j < n => gltf(paths[j]).value)
  }

  /** All nodes of the parts, part after part. */
  function Nodes(parts: seq<Gltf>): seq<NodeSpec> {
    if parts == [] then [] else Nodes(parts[..|parts| - 1]) + parts[|parts| - 1].nodes
  }

  /** All animation clips of the parts. */
  function AnimationCount(parts: seq<Gltf>): nat {
    if parts == [] then 0 else AnimationCount(parts[..|parts| - 1]) + parts[|parts| - 1].animations
  }

  predicate HasMesh(nodes: seq<NodeSpec>) {
    exists i :: 0 <= i < |nodes| && nodes[i].isMesh
  }

  /** Why `loadModels` rejects: an unknown model id, a part that does not
      load, no mesh imported, or a call to a method the loading manager does
      not have (a `TypeError`). */
  datatype LoadError = InvalidModelSelection | PartFailed(path: string) | ModelFailedToLoad
                     | MissingProgressMethod(name: string)

  /** The methods the application's `LoadingManager`, the one handed to the
      loader, defines. */
  const LoadingManagerMethods: set<string> := {"show", "hide", "updateLog", "createThreeJSManager"}

  /** The two progress calls of `loadModels`, `startLoading` before the
      previous model is cleared and `itemLoaded` after each part, name no
      method of the loading manager. */
  lemma ProgressCallsUndefined()
    ensures "startLoading" !in LoadingManagerMethods && "itemLoaded" !in LoadingManagerMethods
  {
  }

  class ModelLoader {
    /** `window.currentModelDirectory` */
    var currentModelDirectory: string
    /** Whether `loadedModelGroup` exists, and the nodes it holds. */
    var hasGroup: bool
    var group: seq<Object3D>
    const modelControls: ModelControls
    /** The loading manager's progress. */
    var totalItems: nat
    var loadedItems: nat

    predicate Valid()
      reads this, modelControls
    {
      modelControls.Valid() && (!hasGroup ==> group == [])
    }

    constructor ()
      ensures Valid() && !hasGroup && group == [] && fresh(modelControls)
    {
      currentModelDirectory := "";
      hasGroup := false;
      group := [];
      modelControls := new ModelControls();
      totalItems := 0;
      loadedItems := 0;
    }

    /** `applyPresetMaterial(object, objectName, useDefaultMaterials)`: with
        default materials off, a name containing "Avatar" gets the Avatar
        preset; otherwise nothing changes. */
    static method ApplyPresetMaterial(obj: Object3D, objectName: string, useDefaultMaterials: bool)
      modifies obj
      ensures !useDefaultMaterials && (Includes(objectName, "Avatar") || objectName == "Avatar") ==>
                Some(obj.material) == CreatePresetMaterial("Avatar")
      ensures useDefaultMaterials || !(Includes(objectName, "Avatar") || objectName == "Avatar") ==> unchanged(obj)
      ensures obj.name == old(obj.name) && obj.isMesh == old(obj.isMesh) && obj.isImported == old(obj.isImported)
      ensures obj.renderOrder == old(obj.renderOrder) && obj.castShadow == old(obj.castShadow) && obj.receiveShadow == old(obj.receiveShadow)
    {
      if !useDefaultMaterials {
        if Includes(objectName, "Avatar") || objectName == "Avatar" {
          var material := CreatePresetMaterial("Avatar");
          if material.Some? {
            obj.material := material.value;
          }
        }
      }
    }

    /** `processMeshMaterial(object, materialManager, modelConfig)`: the
        material the rule chooses; the cotton material comes from the
        material manager, whose cache is used and filled as for any other
        request. */
    static method ProcessMeshMaterial(obj: Object3D, mm: Materials.MaterialManager, useDefaultMaterials: bool,
                                      load: string -> Option<Texture>)
      modifies obj, mm
      ensures MaterialOutcome(obj.material, obj.renderOrder,
                              NodeSpec(old(obj.name), old(obj.isMesh), old(obj.material)), old(obj.renderOrder), useDefaultMaterials)
      ensures MaterialRule(old(obj.name), useDefaultMaterials) == Cotton ==>
                CottonCreated(obj.material, mm.loadedTextures, old(mm.loadedTextures),
                              old(obj.isMesh), old(obj.name), old(obj.material.color), load)
      ensures MaterialRule(old(obj.name), useDefaultMaterials) != Cotton ==> mm.loadedTextures == old(mm.loadedTextures)
      ensures obj.name == old(obj.name) && obj.isMesh == old(obj.isMesh) && obj.isImported == old(obj.isImported)
      ensures obj.castShadow == old(obj.castShadow) && obj.receiveShadow == old(obj.receiveShadow)
    {
      if Includes(obj.name, "Fronttex") || Includes(obj.name, "Backtex") {
        obj.material := PhysicalOverlay(None);
        obj.renderOrder := 1;
      } else if !useDefaultMaterials {
        ApplyPresetMaterial(obj, obj.name, useDefaultMaterials);
        if obj.name !in MaterialPresets {
          mm.UpdateMaterial(obj, "cotton", load);
        }
      }
    }

    /** `clearCurrentModel()`: when a model is loaded, its animations are
        cleared and its group removed. */
    method ClearCurrentModel()
      requires Valid()
      modifies this, modelControls, set a | a in modelControls.actions, set m | m in modelControls.mixers
      ensures Valid() && !hasGroup && group == []
      ensures old(hasGroup) ==> modelControls.actions == [] && modelControls.mixers == []
      ensures !old(hasGroup) ==> modelControls.actions == old(modelControls.actions) && modelControls.mixers == old(modelControls.mixers)
      ensures currentModelDirectory == old(currentModelDirectory) && totalItems == old(totalItems) && loadedItems == old(loadedItems)
    {
      if hasGroup {
        modelControls.ClearMixers();
        group := [];
        hasGroup := false;
      }
    }

    /** One node of a loaded part, created from its description and, when
        it is a mesh, marked imported, processed and set to cast and receive
        shadows. */
    static method CreateNode(s: NodeSpec, useDefaultMaterials: bool,
                             mm: Materials.MaterialManager, load: string -> Option<Texture>)
      returns (o: Object3D)
      modifies mm
      ensures fresh(o) && Processed(o, s, useDefaultMaterials)
    {
      o := new Object3D(s.name, s.isMesh, s.material);
      if s.isMesh {
        ProcessImportedMesh(o, s, useDefaultMaterials, mm, load);
      }
    }

    /** A new mesh node: marked imported, its material processed, and set
        to cast and receive shadows. */
    static method ProcessImportedMesh(o: Object3D, s: NodeSpec, useDefaultMaterials: bool,
                                      mm: Materials.MaterialManager, load: string -> Option<Texture>)
      requires s.isMesh && s == NodeSpec(o.name, o.isMesh, o.material) && o.renderOrder == 0
      modifies o, mm
      ensures o.name == s.name && o.isMesh && o.isImported && o.castShadow && o.receiveShadow
      ensures MaterialOutcome(o.material, o.renderOrder, s, 0, useDefaultMaterials)
    {
      o.isImported := true;
      ProcessMeshMaterial(o, mm, useDefaultMaterials, load);
      o.castShadow := true;
      o.receiveShadow := true;
    }

    /** The nodes of a loaded part, each created from its description and,
        when it is a mesh, marked imported, processed and set to cast and
        receive shadows. */
    static method CreateNodes(specs: seq<NodeSpec>, useDefaultMaterials: bool,
                              mm: Materials.MaterialManager, load: string -> Option<Texture>)
      returns (nodes: seq<Object3D>)
      modifies mm
      ensures AllProcessed(nodes, specs, useDefaultMaterials)
      ensures forall j :: 0 <= j < |nodes| ==> fresh(nodes[j])
    {
      nodes := [];
      var i := 0;
      while i < |specs|
        invariant 0 <= i <= |specs|
        invariant AllProcessed(nodes, specs[..i], useDefaultMaterials)
        invariant forall j :: 0 <= j < |nodes| ==> fresh(nodes[j])
      {
        var o := CreateNode(specs[i], useDefaultMaterials, mm, load);
        AllProcessedAppend(nodes, specs[..i], [o], [specs[i]], useDefaultMaterials);
        assert specs[..i] + [specs[i]] == specs[..i + 1];
        nodes := nodes + [o];
        i := i + 1;
      }
      assert specs[..i] == specs;
    }

    /** One action per animation clip, each registered with the mixer. */
    method RegisterAnimations(mixer: AnimationMixer, count: nat)
      requires Valid()
      modifies modelControls
      ensures Valid()
      ensures |modelControls.actions| == |old(modelControls.actions)| + count
      ensures modelControls.mixers == old(modelControls.mixers) + seq(count, _ => mixer)
    {
      var k := 0;
      while k < count
        invariant 0 <= k <= count
        invariant Valid() && |modelControls.actions| == |old(modelControls.actions)| + k
        invariant modelControls.mixers == old(modelControls.mixers) + seq(k, _ => mixer)
      {
        var action := new AnimationAction();
        modelControls.AddMixer(mixer, action);
        k := k + 1;
      }
    }

    /** `loadModelPart(...)` after the file has loaded: the part's nodes are
        added to the group and, with a mixer, its animation clips are
        registered. */
    method LoadModelPart(part: Gltf, useDefaultMaterials: bool, mixer: AnimationMixer?,
                         mm: Materials.MaterialManager, load: string -> Option<Texture>, ghost specs: seq<NodeSpec>)
      requires Valid() && hasGroup
      requires AllProcessed(group, specs, useDefaultMaterials)
      modifies this, modelControls, mm
      ensures Valid() && hasGroup
      ensures AllProcessed(group, specs + part.nodes, useDefaultMaterials)
      ensures mixer != null ==> |modelControls.actions| == |old(modelControls.actions)| + part.animations
      ensures mixer == null ==> modelControls.actions == old(modelControls.actions) && modelControls.mixers == old(modelControls.mixers)
      ensures currentModelDirectory == old(currentModelDirectory)
      ensures totalItems == old(totalItems) && loadedItems == old(loadedItems)
    {
      var nodes := CreateNodes(part.nodes, useDefaultMaterials, mm, load);
      AllProcessedAppend(group, specs, nodes, part.nodes, useDefaultMaterials);
      group := group + nodes;
      if mixer != null && part.animations > 0 {
        RegisterAnimations(mixer, part.animations);
      }
    }

    /** `validateModelLoaded()`: whether some imported mesh is in the scene.
        Only the loaded group holds imported nodes. */
    method ValidateModelLoaded() returns (hasVisibleMeshes: bool)
      ensures hasVisibleMeshes <==> exists j :: 0 <= j < |group| && group[j].isMesh && group[j].isImported
    {
      hasVisibleMeshes := false;
      var j := 0;
      while j < |group|
        invariant 0 <= j <= |group|
        invariant hasVisibleMeshes <==> exists i :: 0 <= i < j && group[i].isMesh && group[i].isImported
      {
        if group[j].isMesh && group[j].isImported {
          hasVisibleMeshes := true;
        }
        j := j + 1;
      }
    }

    /** `loadModels(materialManager, selectedModel)` with progress calls the
        loading manager answers: an unknown model is rejected before anything
        happens; otherwise the model set is loaded. */
    method LoadModels(mm: Materials.MaterialManager, selectedModel: string,
                      gltf: string -> Option<Gltf>, load: string -> Option<Texture>)
      returns (r: Result<ModelControls, LoadError>)
      requires Valid()
      modifies this, modelControls, mm, set a | a in modelControls.actions, set m | m in modelControls.mixers
      ensures Valid()
      ensures selectedModel !in ModelPaths ==>
                r == Err(InvalidModelSelection) && unchanged(this) && unchanged(modelControls) && unchanged(mm)
      ensures selectedModel in ModelPaths ==> Loaded(ModelPaths[selectedModel], gltf, r, old(hasGroup), |old(modelControls.actions)|)
    {
      if selectedModel !in ModelPaths {
        return Err(InvalidModelSelection);
      }
      r := LoadModelSet(ModelPaths[selectedModel], mm, gltf, load);
    }

    /** `loadModels` as written: after recording the directory, it calls
        `startLoading` on a loading manager that has no such method, so every
        known model id ends in a `TypeError` that the outer handler rethrows;
        the previous model is never cleared and no part is loaded. */
    method LoadModelsAsWritten(mm: Materials.MaterialManager, selectedModel: string,
                               gltf: string -> Option<Gltf>, load: string -> Option<Texture>)
      returns (r: Result<ModelControls, LoadError>)
      requires Valid()
      modifies this
      ensures Valid()
      ensures selectedModel !in ModelPaths ==> r == Err(InvalidModelSelection) && unchanged(this)
      ensures selectedModel in ModelPaths ==>
                r == Err(MissingProgressMethod("startLoading")) &&
                currentModelDirectory == ModelPaths[selectedModel].directory
      ensures hasGroup == old(hasGroup) && group == old(group)
      ensures totalItems == old(totalItems) && loadedItems == old(loadedItems)
    {
      if selectedModel !in ModelPaths {
        return Err(InvalidModelSelection);
      }
      currentModelDirectory := ModelPaths[selectedModel].directory;
      ProgressCallsUndefined();
      r := Err(MissingProgressMethod("startLoading"));
    }

    /** The state after loading the model set `config` with the loader
        `gltf`: the directory is recorded and the group holds the processed
        nodes of the parts that loaded before the first failure, one
        progress tick each; the load fails at the first part that does not
        load, or when no mesh was imported, and succeeds otherwise; the
        previous animations are dropped when a model was loaded and the new
        parts' clips are registered when the model is animated. */
    ghost predicate Loaded(config: ModelConfig, gltf: string -> Option<Gltf>, r: Result<ModelControls, LoadError>,
                           hadGroup: bool, actionsBefore: nat)
      reads this, modelControls, set o | o in group
    {
      var paths := PartPaths(config);
      var parts := LoadedParts(paths, gltf);
      currentModelDirectory == config.directory && hasGroup &&
      totalItems == |config.files| && loadedItems == |parts| &&
      AllProcessed(group, Nodes(parts), config.useDefaultMaterials) &&
      (r == Ok(modelControls) <==> |parts| == |paths| && HasMesh(Nodes(parts))) &&
      (FirstFailure(paths, gltf) >= 0 ==> r == Err(PartFailed(paths[FirstFailure(paths, gltf)]))) &&
      (FirstFailure(paths, gltf) == -1 && !HasMesh(Nodes(parts)) ==> r == Err(ModelFailedToLoad)) &&
      |modelControls.actions| == (if hadGroup then 0 else actionsBefore) +
                                 (if config.hasAnimations then AnimationCount(parts) else 0)
    }

    /** Lines 113-146 of `loadModels`: the previous model is cleared, the
        parts load one after another and the result is validated. */
    method LoadModelSet(config: ModelConfig, mm: Materials.MaterialManager,
                        gltf: string -> Option<Gltf>, load: string -> Option<Texture>)
      returns (r: Result<ModelControls, LoadError>)
      requires Valid()
      modifies this, modelControls, mm, set a | a in modelControls.actions, set m | m in modelControls.mixers
      ensures Valid()
      ensures Loaded(config, gltf, r, old(hasGroup), |old(modelControls.actions)|)
    {
      currentModelDirectory := config.directory;
      totalItems := |config.files|;
      loadedItems := 0;
      ClearCurrentModel();
      hasGroup := true;
      group := [];
      var mixer: AnimationMixer? := null;
      if config.hasAnimations {
        mixer := new AnimationMixer();
      }
      var failedAt, done := LoadParts(config, mixer, mm, gltf, load);
      if failedAt >= 0 {
        return Err(PartFailed(config.directory + "/" + config.files[failedAt]));
      }
      var ok := ValidateModelLoaded();
      ImportedIffMesh(group, Nodes(done), config.useDefaultMaterials);
      if !ok {
        return Err(ModelFailedToLoad);
      }
      return Ok(modelControls);
    }

    /** The loop of `loadModels`: each part is loaded in list order and
        followed by a progress tick; loading stops at the first part that
        does not load, whose index is returned (-1 when all loaded). */
    method LoadParts(config: ModelConfig, mixer: AnimationMixer?, mm: Materials.MaterialManager,
                     gltf: string -> Option<Gltf>, load: string -> Option<Texture>)
      returns (failedAt: int, ghost done: seq<Gltf>)
      requires Valid() && hasGroup && group == [] && loadedItems == 0
      requires config.hasAnimations <==> mixer != null
      modifies this, modelControls, mm
      ensures Valid() && hasGroup
      ensures failedAt == FirstFailure(PartPaths(config), gltf)
      ensures done == LoadedParts(PartPaths(config), gltf)
      ensures loadedItems == |done| && AllProcessed(group, Nodes(done), config.useDefaultMaterials)
      ensures |modelControls.actions| == |old(modelControls.actions)| + (if config.hasAnimations then AnimationCount(done) else 0)
      ensures currentModelDirectory == old(currentModelDirectory) && totalItems == old(totalItems)
    {
      ghost var paths := PartPaths(config);
      done := [];
      var i := 0;
      while i < |config.files|
        invariant 0 <= i <= |config.files| && |done| == i && loadedItems == i
        invariant forall j :: 0 <= j < i ==> gltf(paths[j]) == Some(done[j])
        invariant AllProcessed(group, Nodes(done), config.useDefaultMaterials)
        invariant |modelControls.actions| == |old(modelControls.actions)| + (if config.hasAnimations then AnimationCount(done) else 0)
        invariant Valid() && hasGroup
        invariant currentModelDirectory == old(currentModelDirectory) && totalItems == old(totalItems)
      {
        var loaded := gltf(config.directory + "/" + config.files[i]);
        if loaded.None? {
          assert FirstFailure(paths, gltf) == i;
          assert LoadedParts(paths, gltf) == done;
          return i, done;
        }
        StepLoaded(done, loaded.value);
        LoadModelPart(loaded.value, config.useDefaultMaterials, mixer, mm, load, Nodes(done));
        done := done + [loaded.value];
        loadedItems := loadedItems + 1;
        i := i + 1;
      }
      assert FirstFailure(paths, gltf) == -1;
      assert LoadedParts(paths, gltf) == done;
      return -1, done;
    }
  }

  /** Nodes and clip counts of one more part. */
  lemma StepLoaded(done: seq<Gltf>, part: Gltf)
    ensures Nodes(done + [part]) == Nodes(done) + part.nodes
    ensures AnimationCount(done + [part]) == AnimationCount(done) + part.animations
  {
    assert (done + [part])[..|done|] == done;
  }

  /** Processing marks exactly the meshes imported. */
  lemma ImportedIffMesh(group: seq<Object3D>, nodes: seq<NodeSpec>, useDefaultMaterials: bool)
    requires AllProcessed(group, nodes, useDefaultMaterials)
    ensures (exists j :: 0 <= j < |group| && group[j].isMesh && group[j].isImported) <==> HasMesh(nodes)
  {
    if HasMesh(nodes) {
      var j :| 0 <= j < |nodes| && nodes[j].isMesh;
      assert Processed(group[j], nodes[j], useDefaultMaterials);
    }
    if exists j :: 0 <= j < |group| && group[j].isMesh && group[j].isImported {
      var j :| 0 <= j < |group| && group[j].isMesh && group[j].isImported;
      assert Processed(group[j], nodes[j], useDefaultMaterials);
    }
  }
}
