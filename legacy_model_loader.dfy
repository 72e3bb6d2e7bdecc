/** The earlier model loader: four garment models, a material chosen for
    each part file by its name, the per-mesh material rules, one animation
    action per animated file, and load errors that are logged and swallowed.
    The parts are requested together and settle in any order; the model
    processes them in list order (each part only adds its own nodes and its
    own action, so the final state does not depend on the order). */
module LegacyModelLoading {
  import opened Common
  import opened Scene
  import opened AnimationRegistry
  import LegacyMaterials
  import ModelLoading

  /** One entry of this loader's `MODEL_PATHS`. */
  datatype ModelConfig = ModelConfig(directory: string, files: seq<string>)

  const ModelPaths: map<string, ModelConfig> := map[
    "model1" := ModelConfig("/Models/Polo_T-shirt",
                            ["Backtex.glb", "Buttons.glb", "Fronttex.glb", "Polo_T-shirt.glb", "Threads.glb"]),
    "model2" := ModelConfig("/Models/CrewNeck_HS_T-shirt_CasPants",
                            ["Backtex.glb", "Fronttex.glb", "Zipper.glb", "Avatar.glb", "Metal.glb", "CrewNeck_HS.glb", "Pants.glb"]),
    "model3" := ModelConfig("/Models/VNeck_FS_CasPants",
                            ["Backtex.glb", "Fronttex.glb", "Zipper.glb", "Avatar.glb", "V-Neck.glb", "Pants.glb"]),
    "model4" := ModelConfig("/Models/Hoodie_Pants",
                            ["Backtex.glb", "Fronttex.glb", "Zipper.glb", "Avatar.glb", "Metal.glb", "Pants.glb", "Threads.glb", "Hoodie.glb"])
  ]

  /** The kind of part a file name announces, by the first word it contains
      in the order texture, Button, Zipper, Thread, Metal, Avatar, Pants. */
  datatype Category = TextureFile | ButtonFile | ZipperFile | ThreadFile | MetalFile | AvatarFile | PantsFile | OtherFile

  function FileCategory(filename: string): (c: Category)
    ensures c == TextureFile <==> IsTextureTargetName(filename)
    ensures c == ButtonFile <==> !IsTextureTargetName(filename) && Includes(filename, "Button")
    ensures c == OtherFile <==>
              !IsTextureTargetName(filename) && !Includes(filename, "Button") && !Includes(filename, "Zipper") &&
              !Includes(filename, "Thread") && !Includes(filename, "Metal") && !Includes(filename, "Avatar") &&
              !Includes(filename, "Pants")
  {
    if Includes(filename, "Fronttex") || Includes(filename, "Backtex") then TextureFile
    else if Includes(filename, "Button") then ButtonFile
    else if Includes(filename, "Zipper") then ZipperFile
    else if Includes(filename, "Thread") then ThreadFile
    else if Includes(filename, "Metal") then MetalFile
    else if Includes(filename, "Avatar") then AvatarFile
    else if Includes(filename, "Pants") then PantsFile
    else OtherFile
  }

  /** `this.materials`: the named materials the chain looks up. */
  datatype NamedMaterials = NamedMaterials(
    buttonMaterial: Option<Material>, zipperMaterial: Option<Material>, threadMaterial: Option<Material>,
    metalMaterial: Option<Material>, avatarMaterial: Option<Material>, pantsMaterial: Option<Material>)

  /** The material a part file is loaded with: the simple material, the
      PBR material, or one of the named materials. */
  datatype Choice = Simple | Pbr | Named(material: Material)

  /** `this.materials?.xMaterial || pbrMaterial` */
  function OrPbr(m: Option<Material>): Choice {
    if m.Some? then Named(m.value) else Pbr
  }

  /** The selection chain of `loadModels`. */
  function SelectMaterial(filename: string, materials: Option<NamedMaterials>): (c: Choice)
    ensures c == Simple <==> FileCategory(filename) == TextureFile
    ensures c.Named? ==> materials.Some?
    ensures FileCategory(filename) == OtherFile ==> c == Pbr
  {
    match FileCategory(filename)
    case TextureFile => Simple
    case ButtonFile => OrPbr(if materials.Some? then materials.value.buttonMaterial else None)
    case ZipperFile => OrPbr(if materials.Some? then materials.value.zipperMaterial else None)
    case ThreadFile => OrPbr(if materials.Some? then materials.value.threadMaterial else None)
    case MetalFile => OrPbr(if materials.Some? then materials.value.metalMaterial else None)
    case AvatarFile => OrPbr(if materials.Some? then materials.value.avatarMaterial else None)
    case PantsFile => OrPbr(if materials.Some? then materials.value.pantsMaterial else None)
    case OtherFile => Pbr
  }

  /** `this.materials` is never assigned, so every file that is not a
      texture part is loaded with the PBR material. */
  lemma EveryOtherFileIsPbr(filename: string)
    ensures SelectMaterial(filename, None) == if IsTextureTargetName(filename) then Simple else Pbr
  {
  }

  function ChosenMaterial(c: Choice, pbr: Material, simple: Material): Material {
    match c
    case Simple => simple
    case Pbr => pbr
    case Named(m) => m
  }

  /** The overlay given to texture-target meshes: a transparent, front-side
      white standard material with alpha test 0.1. */
  function StandardOverlay(): (m: Material)
    ensures m.kind == Standard && m.transparent && m.side == FrontSide && m.alphaTest == 0.1 && m.color == 0xffffff
    ensures m.colorMap.None?
  {
    DefaultMaterial(Standard).(transparent := true, side := FrontSide, alphaTest := 0.1, color := 0xffffff)
  }

  /** A cotton material of the earlier material manager in the given
      colour, whatever maps it carries. */
  predicate IsCottonMaterial(m: Material, color: int) {
    var base := LegacyMaterials.BaseMaterial("cotton", LegacyMaterials.Presets["cotton"].(baseColor := color));
    m.(normalMap := None, roughnessMap := None, aoMap := None, colorMap := None, aoMapIntensity := 1.0) ==
      base.(aoMapIntensity := 1.0)
  }

  /** The colour the cotton material keeps: the node's own, or cotton's
      when the node has no material of its own. */
  function CottonColor(s: ModelLoading.NodeSpec): int {
    if s.isMesh then s.material.color else LegacyMaterials.Presets["cotton"].baseColor
  }

  /** The material and render order of a mesh loaded with choice `c`, from
      its description and its render order before. */
  predicate MeshOutcome(m: Material, renderOrder: int, s: ModelLoading.NodeSpec, renderOrderBefore: int, c: Choice,
                        pbr: Material, simple: Material, hasManager: bool) {
    if IsTextureTargetName(s.name) then m == StandardOverlay() && renderOrder == 1
    else if c == Simple then m == simple.(side := DoubleSide) && renderOrder == renderOrderBefore
    else if hasManager then IsCottonMaterial(m, CottonColor(s)) && renderOrder == renderOrderBefore
    else m == ChosenMaterial(c, pbr, simple).(side := DoubleSide) && renderOrder == renderOrderBefore
  }

  /** A node together with the material its file was loaded with. */
  datatype Placed = Placed(spec: ModelLoading.NodeSpec, choice: Choice)

  /** A loaded node: meshes are marked imported, cast and receive shadows
      and get their material by the rules; other nodes stay as loaded. */
  predicate Processed(o: Object3D, p: Placed, pbr: Material, simple: Material, hasManager: bool)
    reads o
  {
    var s := p.spec;
    o.name == s.name && o.isMesh == s.isMesh &&
    if s.isMesh then
      o.isImported && o.castShadow && o.receiveShadow &&
      MeshOutcome(o.material, o.renderOrder, s, 0, p.choice, pbr, simple, hasManager)
    else
      !o.isImported && !o.castShadow && !o.receiveShadow && o.material == s.material && o.renderOrder == 0
  }

  predicate AllProcessed(objs: seq<Object3D>, ps: seq<Placed>, pbr: Material, simple: Material, hasManager: bool)
    reads set o | o in objs
  {
    |objs| == |ps| && forall j :: 0 <= j < |objs| ==> Processed(objs[j], ps[j], pbr, simple, hasManager)
  }

  lemma AllProcessedAppend(a: seq<Object3D>, s: seq<Placed>, b: seq<Object3D>, t: seq<Placed>,
                           pbr: Material, simple: Material, hasManager: bool)
    requires AllProcessed(a, s, pbr, simple, hasManager) && AllProcessed(b, t, pbr, simple, hasManager)
    ensures AllProcessed(a + b, s + t, pbr, simple, hasManager)
  {
    forall j | 0 <= j < |a + b|
      ensures Processed((a + b)[j], (s + t)[j], pbr, simple, hasManager)
    {
      if j < |a| {
        assert (a + b)[j] == a[j] && (s + t)[j] == s[j];
      } else {
        assert (a + b)[j] == b[j - |a|] && (s + t)[j] == t[j - |a|];
      }
    }
  }

  /** A part's nodes, each with the part's material. */
  function Placements(nodes: seq<ModelLoading.NodeSpec>, c: Choice): (ps: seq<Placed>)
    ensures |ps| == |nodes| && forall i :: 0 <= i < |nodes| ==> ps[i] == Placed(nodes[i], c)
  {
    seq(|nodes|, i requires 0 <= i < |nodes| => Placed(nodes[i], c))
  }

  function PartPath(directory: string, filename: string): string {
    directory + "/" + filename
  }

  /** The nodes of every part that loads, part after part; a part that
      fails adds nothing. */
  function Expected(directory: string, files: seq<string>, gltf: string -> Option<ModelLoading.Gltf>): seq<Placed> {
    if files == [] then []
    else
      var n := |files| - 1;
      var before := Expected(directory, files[..n], gltf);
      var part := gltf(PartPath(directory, files[n]));
      if part.None? then before else before + Placements(part.value.nodes, SelectMaterial(files[n], None))
  }

  /** How many parts load with at least one animation clip. */
  function AnimatedParts(directory: string, files: seq<string>, gltf: string -> Option<ModelLoading.Gltf>): (n: nat)
    ensures n <= |files|
  {
    if files == [] then 0
    else
      var k := |files| - 1;
      var part := gltf(PartPath(directory, files[k]));
      AnimatedParts(directory, files[..k], gltf) + if part.Some? && part.value.animations > 0 then 1 else 0
  }

  predicate AllLoad(directory: string, files: seq<string>, gltf: string -> Option<ModelLoading.Gltf>) {
    forall i :: 0 <= i < |files| ==> gltf(PartPath(directory, files[i])).Some?
  }

  /** One more file of the list. */
  lemma ExpectedStep(directory: string, files: seq<string>, i: int, gltf: string -> Option<ModelLoading.Gltf>)
    requires 0 <= i < |files|
    ensures var part := gltf(PartPath(directory, files[i]));
            Expected(directory, files[..i + 1], gltf) ==
              (if part.None? then Expected(directory, files[..i], gltf)
               else Expected(directory, files[..i], gltf) + Placements(part.value.nodes, SelectMaterial(files[i], None))) &&
            AnimatedParts(directory, files[..i + 1], gltf) ==
              AnimatedParts(directory, files[..i], gltf) + (if part.Some? && part.value.animations > 0 then 1 else 0) &&
            (AllLoad(directory, files[..i + 1], gltf) <==> AllLoad(directory, files[..i], gltf) && part.Some?)
  {
    assert files[..i + 1][..i] == files[..i];
  }

  class ModelLoader {
    /** The nodes of the loaded-model groups in the scene. */
    var loaded: seq<Object3D>
    const modelControls: ModelControls
    /** Never assigned by the application, so `null` in practice. */
    var materialManager: LegacyMaterials.MaterialManager?

    predicate Valid()
      reads this, modelControls
    {
      modelControls.Valid()
    }

    constructor ()
      ensures Valid() && loaded == [] && materialManager == null && fresh(modelControls)
    {
      loaded := [];
      modelControls := new ModelControls();
      materialManager := null;
    }

    /** The treatment of one mesh of a part loaded with choice `c`. */
    static method ProcessMesh(obj: Object3D, c: Choice, pbr: Material, simple: Material,
                              mm: LegacyMaterials.MaterialManager?, load: string -> Option<Texture>)
      modifies obj, mm
      ensures MeshOutcome(obj.material, obj.renderOrder, ModelLoading.NodeSpec(old(obj.name), old(obj.isMesh), old(obj.material)),
                          old(obj.renderOrder), c, pbr, simple, mm != null)
      ensures mm != null && !IsTextureTargetName(old(obj.name)) && c != Simple && old(obj.isMesh) ==>
                var cotton := LegacyMaterials.Presets["cotton"];
                var created := LegacyMaterials.Created(old(mm.loadedTextures), "cotton", cotton.(baseColor := old(obj.material.color)), load);
                obj.material == created.material && mm.loadedTextures == created.cache
      ensures obj.name == old(obj.name) && obj.isMesh == old(obj.isMesh) && obj.isImported == old(obj.isImported)
      ensures obj.castShadow == old(obj.castShadow) && obj.receiveShadow == old(obj.receiveShadow)
    {
      if Includes(obj.name, "Fronttex") || Includes(obj.name, "Backtex") {
        obj.material := StandardOverlay();
        obj.renderOrder := 1;
      } else if c == Simple {
        obj.material := simple.(side := DoubleSide);
      } else if mm != null {
        mm.UpdateMaterial(obj, "cotton", load);
      } else {
        obj.material := ChosenMaterial(c, pbr, simple).(side := DoubleSide);
      }
    }

    /** One node of a loaded part. */
    static method CreateNode(s: ModelLoading.NodeSpec, c: Choice, pbr: Material, simple: Material,
                             mm: LegacyMaterials.MaterialManager?, load: string -> Option<Texture>)
      returns (o: Object3D)
      modifies mm
      ensures fresh(o) && Processed(o, Placed(s, c), pbr, simple, mm != null)
    {
      o := new Object3D(s.name, s.isMesh, s.material);
      if s.isMesh {
        o.isImported := true;
        ProcessMesh(o, c, pbr, simple, mm, load);
        o.castShadow := true;
        o.receiveShadow := true;
      }
    }

    /** The nodes of a loaded part, in traversal order. */
    static method CreateNodes(specs: seq<ModelLoading.NodeSpec>, c: Choice, pbr: Material, simple: Material,
                              mm: LegacyMaterials.MaterialManager?, load: string -> Option<Texture>)
      returns (nodes: seq<Object3D>)
      modifies mm
      ensures AllProcessed(nodes, Placements(specs, c), pbr, simple, mm != null)
    {
      nodes := [];
      var i := 0;
      while i < |specs|
        invariant 0 <= i <= |specs|
        invariant AllProcessed(nodes, Placements(specs[..i], c), pbr, simple, mm != null)
      {
        var o := CreateNode(specs[i], c, pbr, simple, mm, load);
        AllProcessedAppend(nodes, Placements(specs[..i], c), [o], [Placed(specs[i], c)], pbr, simple, mm != null);
        assert Placements(specs[..i], c) + [Placed(specs[i], c)] == Placements(specs[..i + 1], c);
        nodes := nodes + [o];
        i := i + 1;
      }
      assert specs[..i] == specs;
    }

    /** The success callback of `loadModelWithAnimation`: the part's nodes
        join the scene and, when it has clips, a new mixer plays its first
        clip. */
    method LoadPart(part: ModelLoading.Gltf, c: Choice, pbr: Material, simple: Material,
                    load: string -> Option<Texture>, ghost specs: seq<Placed>)
      requires Valid() && AllProcessed(loaded, specs, pbr, simple, materialManager != null)
      modifies this, modelControls, materialManager
      ensures Valid() && materialManager == old(materialManager)
      ensures AllProcessed(loaded, specs + Placements(part.nodes, c), pbr, simple, materialManager != null)
      ensures |modelControls.actions| == |old(modelControls.actions)| + if part.animations > 0 then 1 else 0
      ensures forall a :: a in modelControls.actions ==> a in old(modelControls.actions) || (fresh(a) && !a.running)
    {
      var nodes := CreateNodes(part.nodes, c, pbr, simple, materialManager, load);
      AllProcessedAppend(loaded, specs, nodes, Placements(part.nodes, c), pbr, simple, materialManager != null);
      loaded := loaded + nodes;
      if part.animations > 0 {
        var mixer := new AnimationMixer();
        var action := new AnimationAction();
        modelControls.AddMixer(mixer, action);
      }
    }

    /** One file of the list: loaded and processed when it loads, skipped
        otherwise. Returns whether it loaded. */
    method LoadFile(directory: string, filename: string, pbr: Material, simple: Material,
                    gltf: string -> Option<ModelLoading.Gltf>, load: string -> Option<Texture>, ghost specs: seq<Placed>)
      returns (ok: bool)
      requires Valid() && AllProcessed(loaded, specs, pbr, simple, materialManager != null)
      modifies this, modelControls, materialManager
      ensures Valid() && materialManager == old(materialManager)
      ensures var part := gltf(PartPath(directory, filename));
              ok == part.Some? &&
              AllProcessed(loaded, if part.None? then specs else specs + Placements(part.value.nodes, SelectMaterial(filename, None)),
                           pbr, simple, materialManager != null) &&
              |modelControls.actions| == |old(modelControls.actions)| + if part.Some? && part.value.animations > 0 then 1 else 0
      ensures forall a :: a in modelControls.actions ==> a in old(modelControls.actions) || (fresh(a) && !a.running)
    {
      var c := SelectMaterial(filename, None);
      var part := gltf(PartPath(directory, filename));
      if part.None? {
        return false;
      }
      LoadPart(part.value, c, pbr, simple, load, specs);
      return true;
    }

    /** The parts of a model, each loaded and processed in list order; a
        part that does not load is skipped. Returns whether every part
        loaded. */
    method LoadAll(config: ModelConfig, pbr: Material, simple: Material,
                   gltf: string -> Option<ModelLoading.Gltf>, load: string -> Option<Texture>)
      returns (allLoaded: bool)
      requires Valid() && loaded == [] && modelControls.actions == []
      modifies this, modelControls, materialManager
      ensures Valid() && materialManager == old(materialManager)
      ensures AllProcessed(loaded, Expected(config.directory, config.files, gltf), pbr, simple, materialManager != null)
      ensures |modelControls.actions| == AnimatedParts(config.directory, config.files, gltf)
      ensures allLoaded <==> AllLoad(config.directory, config.files, gltf)
      ensures forall a :: a in modelControls.actions ==> fresh(a) && !a.running
    {
      allLoaded := true;
      var i := 0;
      while i < |config.files|
        invariant 0 <= i <= |config.files| && Valid() && materialManager == old(materialManager)
        invariant AllProcessed(loaded, Expected(config.directory, config.files[..i], gltf), pbr, simple, materialManager != null)
        invariant |modelControls.actions| == AnimatedParts(config.directory, config.files[..i], gltf)
        invariant allLoaded <==> AllLoad(config.directory, config.files[..i], gltf)
        invariant forall a :: a in modelControls.actions ==> fresh(a) && !a.running
      {
        allLoaded := LoadNext(config, i, pbr, simple, gltf, load, allLoaded);
        i := i + 1;
      }
      assert config.files[..i] == config.files;
    }

    /** The file at index `i`, loaded after the files before it: the state
        then describes the first `i + 1` files. */
    method LoadNext(config: ModelConfig, i: int, pbr: Material, simple: Material,
                    gltf: string -> Option<ModelLoading.Gltf>, load: string -> Option<Texture>, allBefore: bool)
      returns (allLoaded: bool)
      requires 0 <= i < |config.files| && Valid()
      requires AllProcessed(loaded, Expected(config.directory, config.files[..i], gltf), pbr, simple, materialManager != null)
      requires |modelControls.actions| == AnimatedParts(config.directory, config.files[..i], gltf)
      requires allBefore <==> AllLoad(config.directory, config.files[..i], gltf)
      modifies this, modelControls, materialManager
      ensures Valid() && materialManager == old(materialManager)
      ensures AllProcessed(loaded, Expected(config.directory, config.files[..i + 1], gltf), pbr, simple, materialManager != null)
      ensures |modelControls.actions| == AnimatedParts(config.directory, config.files[..i + 1], gltf)
      ensures allLoaded <==> AllLoad(config.directory, config.files[..i + 1], gltf)
      ensures forall a :: a in modelControls.actions ==> a in old(modelControls.actions) || (fresh(a) && !a.running)
    {
      ExpectedStep(config.directory, config.files, i, gltf);
      var ok := LoadFile(config.directory, config.files[i], pbr, simple, gltf, load,
                         Expected(config.directory, config.files[..i], gltf));
      assert ok == gltf(PartPath(config.directory, config.files[i])).Some?;
      allLoaded := allBefore && ok;
    }

    /** `loadModels(pbrMaterial, simpleMaterial, selectedModel)`: loaded
        groups and animations are cleared first; an unknown model then
        loads nothing; otherwise every part that loads is added, and the
        animations are started exactly when every part loaded (a part that
        fails rejects `Promise.all` before `playAllAnimations`, and new
        actions are not running). The controls are returned in every case. */
    method LoadModels(pbr: Material, simple: Material, selectedModel: string,
                      gltf: string -> Option<ModelLoading.Gltf>, load: string -> Option<Texture>)
      returns (r: ModelControls)
      requires Valid()
      modifies this, modelControls, materialManager, set a | a in modelControls.actions, set m | m in modelControls.mixers
      ensures Valid() && r == modelControls && materialManager == old(materialManager)
      ensures selectedModel !in ModelPaths ==> loaded == [] && modelControls.actions == [] && modelControls.mixers == []
      ensures selectedModel in ModelPaths ==>
                var config := ModelPaths[selectedModel];
                AllProcessed(loaded, Expected(config.directory, config.files, gltf), pbr, simple, materialManager != null) &&
                |modelControls.actions| == AnimatedParts(config.directory, config.files, gltf) &&
                (AllLoad(config.directory, config.files, gltf) ==>
                   forall a :: a in modelControls.actions ==> a.running && !a.paused && a.time == 0.0 && a.timeScale == 1.0) &&
                (!AllLoad(config.directory, config.files, gltf) ==> forall a :: a in modelControls.actions ==> !a.running)
      ensures forall a :: a in old(modelControls.actions) ==> !a.running || a in modelControls.actions
    {
      loaded := [];
      modelControls.ClearMixers();
      if selectedModel !in ModelPaths {
        return modelControls;
      }
      var allLoaded := LoadAll(ModelPaths[selectedModel], pbr, simple, gltf, load);
      if allLoaded {
        modelControls.PlayAllAnimations();
      }
      return modelControls;
    }
  }
}
