/** The earlier fabric material manager: three presets that each list four
    texture paths by map type, the same memoised png/jpg/jpeg loader (every
    texture sRGB and repeat-wrapped), and a switch that puts each loaded
    texture into the slot its map type names. */
module LegacyMaterials {
  import opened Common
  import opened Scene
  import opened TextureCache
  import Materials

  /** One `[mapType, path]` entry of a preset's texture paths. */
  datatype Entry = Entry(mapType: string, path: string)

  datatype Preset = Preset(
    displayName: string,
    baseColor: int,
    roughness: real,
    metalness: real,
    normalScale: real,
    sheen: real,
    texturePaths: Option<seq<Entry>>)

  function PresetPaths(fabric: string): seq<Entry> {
    [Entry("normalMap", fabric + "/normal"), Entry("roughnessMap", fabric + "/roughness"),
     Entry("aoMap", fabric + "/ao"), Entry("diffuseMap", fabric + "/diffuse")]
  }

  const Presets: map<string, Preset> := map[
    "cotton" := Preset("Cotton", 0xffffff, 0.9, 0.0, 1.0, 0.1, Some(PresetPaths("cotton"))),
    "nylon" := Preset("Nylon", 0xffffff, 0.4, 0.1, 0.5, 0.3, Some(PresetPaths("nylon"))),
    "leather" := Preset("Leather", 0xffffff, 0.7, 0.0, 1.5, 0.05, Some(PresetPaths("leather")))
  ]

  /** The load callback: sRGB encoding and repeat wrapping, whatever the map
      type. */
  function Configured(t: Texture): (u: Texture)
    ensures u.colorSpace == SRGBColorSpace && u.repeatWrap
    ensures u.source == t.source && u.repeat == t.repeat && u.offset == t.offset && u.rotation == t.rotation
  {
    t.(colorSpace := SRGBColorSpace, repeatWrap := true)
  }

  function LoadAttempts(basePath: string, load: string -> Option<Texture>): seq<Option<Texture>> {
    Attempts(Materials.Candidates(basePath), load, Configured)
  }

  /** The cache lookups the entries make, in entry order. */
  function Requests(entries: seq<Entry>, load: string -> Option<Texture>): (r: seq<Request>)
    ensures |r| == |entries|
    ensures forall i :: 0 <= i < |entries| ==>
              r[i] == Request(CacheKey(entries[i].path, entries[i].mapType), LoadAttempts(entries[i].path, load))
  {
    seq(|entries|, i requires 0 <= i < |entries| =>
      Request(CacheKey(entries[i].path, entries[i].mapType), LoadAttempts(entries[i].path, load)))
  }

  /** The slot a map type names: normal, roughness, ambient occlusion (with
      intensity 1) or colour; any other map type fills no slot. */
  function AssignSlot(m: Material, mapType: string, texture: Texture): (r: Material)
    ensures mapType == "normalMap" ==> r == m.(normalMap := Some(texture))
    ensures mapType == "roughnessMap" ==> r == m.(roughnessMap := Some(texture))
    ensures mapType == "aoMap" ==> r == m.(aoMap := Some(texture), aoMapIntensity := 1.0)
    ensures mapType == "diffuseMap" ==> r == m.(colorMap := Some(texture))
    ensures !IsSlotName(mapType) ==> r == m
  {
    match mapType
    case "normalMap" => m.(normalMap := Some(texture))
    case "roughnessMap" => m.(roughnessMap := Some(texture))
    case "aoMap" => m.(aoMap := Some(texture), aoMapIntensity := 1.0)
    case "diffuseMap" => m.(colorMap := Some(texture))
    case _ => m
  }

  predicate IsSlotName(mapType: string) {
    mapType == "normalMap" || mapType == "roughnessMap" || mapType == "aoMap" || mapType == "diffuseMap"
  }

  /** The slot a map type names, read back. */
  function SlotOf(m: Material, mapType: string): Option<Texture> {
    match mapType
    case "normalMap" => m.normalMap
    case "roughnessMap" => m.roughnessMap
    case "aoMap" => m.aoMap
    case "diffuseMap" => m.colorMap
    case _ => None
  }

  /** The entries' textures assigned one after another; a texture that did
      not load assigns nothing. */
  function AssignAll(m: Material, entries: seq<Entry>, textures: seq<Option<Texture>>): Material
    requires |textures| == |entries|
  {
    if entries == [] then m
    else
      var n := |entries| - 1;
      var before := AssignAll(m, entries[..n], textures[..n]);
      if textures[n].Some? then AssignSlot(before, entries[n].mapType, textures[n].value) else before
  }

  predicate UniqueMapTypes(entries: seq<Entry>) {
    forall i, j :: 0 <= i < j < |entries| ==> entries[i].mapType != entries[j].mapType
  }

  /** With each map type listed once, a slot ends up holding the texture of
      the entry that names it if that texture loaded, and keeps its earlier
      value otherwise; a slot no entry names is untouched. */
  lemma {:induction false} AssignAllSlot(m: Material, entries: seq<Entry>, textures: seq<Option<Texture>>, mapType: string)
    requires |textures| == |entries| && UniqueMapTypes(entries) && IsSlotName(mapType)
    ensures forall i :: 0 <= i < |entries| && entries[i].mapType == mapType ==>
              SlotOf(AssignAll(m, entries, textures), mapType) == if textures[i].Some? then textures[i] else SlotOf(m, mapType)
    ensures (forall i :: 0 <= i < |entries| ==> entries[i].mapType != mapType) ==>
              SlotOf(AssignAll(m, entries, textures), mapType) == SlotOf(m, mapType)
  {
    if entries != [] {
      var n := |entries| - 1;
      var before := AssignAll(m, entries[..n], textures[..n]);
      AssignAllSlot(m, entries[..n], textures[..n], mapType);
      if entries[n].mapType != mapType && textures[n].Some? {
        var after := AssignSlot(before, entries[n].mapType, textures[n].value);
        assert SlotOf(after, mapType) == SlotOf(before, mapType);
      }
    }
  }

  /** Whether any texture loaded. */
  predicate AnyLoaded(textures: seq<Option<Texture>>) {
    exists i :: 0 <= i < |textures| && textures[i].Some?
  }

  /** The parameters the physical material is created with: the preset's
      colour, roughness, metalness, normal scale and sheen, double-sided and
      transparent. */
  function BaseMaterial(name: string, preset: Preset): (m: Material)
    ensures m.kind == Physical && m.name == name && m.color == preset.baseColor
    ensures m.roughness == preset.roughness && m.metalness == preset.metalness
    ensures m.normalScale == preset.normalScale && m.sheen == preset.sheen
    ensures m.side == DoubleSide && m.transparent
    ensures m.colorMap.None? && m.normalMap.None? && m.aoMap.None? && m.roughnessMap.None? && m.metalnessMap.None?
  {
    DefaultMaterial(Physical).(
      name := name, color := preset.baseColor, roughness := preset.roughness, metalness := preset.metalness,
      normalScale := preset.normalScale, sheen := preset.sheen, side := DoubleSide, transparent := true)
  }

  /** A material, whether any texture loaded, and the cache afterwards. The
      source keeps `hasTextures` in a local that it only logs and returns
      the material alone; the flag is returned here so that it can be
      stated. */
  datatype Creation = Creation(material: Material, hasTextures: bool, cache: map<string, Texture>)

  /** `createMaterialWithTextures(name, preset)`: the base material with each
      entry's texture, if it loads, in the slot its map type names. */
  function Created(cache: map<string, Texture>, name: string, preset: Preset, load: string -> Option<Texture>): (c: Creation)
    ensures preset.texturePaths.None? ==> c == Creation(BaseMaterial(name, preset), false, cache)
    ensures preset.texturePaths.Some? ==>
              var b := LoadMany(cache, Requests(preset.texturePaths.value, load));
              c.cache == b.cache && (c.hasTextures <==> AnyLoaded(b.textures))
    ensures c.material.(normalMap := None, roughnessMap := None, aoMap := None, colorMap := None,
                        aoMapIntensity := 1.0) == BaseMaterial(name, preset).(aoMapIntensity := 1.0)
  {
    var base := BaseMaterial(name, preset);
    if preset.texturePaths.None? then Creation(base, false, cache)
    else
      var entries := preset.texturePaths.value;
      var b := LoadMany(cache, Requests(entries, load));
      AssignAllKeepsRest(base, entries, b.textures);
      Creation(AssignAll(base, entries, b.textures), AnyLoaded(b.textures), b.cache)
  }

  /** With each map type listed once, the slot an entry names holds that
      entry's lookup result: its texture when it loaded, nothing otherwise. */
  lemma CreatedSlots(cache: map<string, Texture>, name: string, preset: Preset, load: string -> Option<Texture>, i: int)
    requires preset.texturePaths.Some? && UniqueMapTypes(preset.texturePaths.value)
    requires 0 <= i < |preset.texturePaths.value| && IsSlotName(preset.texturePaths.value[i].mapType)
    ensures var entries := preset.texturePaths.value;
            var b := LoadMany(cache, Requests(entries, load));
            SlotOf(Created(cache, name, preset, load).material, entries[i].mapType) == b.textures[i]
  {
    var entries := preset.texturePaths.value;
    var b := LoadMany(cache, Requests(entries, load));
    AssignAllSlot(BaseMaterial(name, preset), entries, b.textures, entries[i].mapType);
  }

  /** Assigning slots changes nothing but the four map slots and the
      ambient-occlusion intensity. */
  lemma {:induction false} AssignAllKeepsRest(m: Material, entries: seq<Entry>, textures: seq<Option<Texture>>)
    requires |textures| == |entries|
    ensures AssignAll(m, entries, textures).(normalMap := None, roughnessMap := None, aoMap := None, colorMap := None,
                                             aoMapIntensity := 1.0)
            == m.(normalMap := None, roughnessMap := None, aoMap := None, colorMap := None, aoMapIntensity := 1.0)
  {
    if entries != [] {
      var n := |entries| - 1;
      AssignAllKeepsRest(m, entries[..n], textures[..n]);
    }
  }

  /** From a cache holding none of the entries' keys, with keys distinct (as
      they are when each map type is listed once among the four slot
      names), the material has textures exactly when some entry has a
      candidate that loads. */
  lemma HasTexturesFresh(cache: map<string, Texture>, name: string, preset: Preset, load: string -> Option<Texture>)
    requires preset.texturePaths.Some?
    requires var reqs := Requests(preset.texturePaths.value, load);
             DistinctKeys(reqs) && forall i :: 0 <= i < |reqs| ==> reqs[i].key !in cache
    ensures var entries := preset.texturePaths.value;
            Created(cache, name, preset, load).hasTextures <==>
              exists i :: 0 <= i < |entries| && FirstSome(LoadAttempts(entries[i].path, load)).Some?
  {
    var entries := preset.texturePaths.value;
    var reqs := Requests(entries, load);
    LoadManyFresh(cache, reqs);
    var b := LoadMany(cache, reqs);
    if AnyLoaded(b.textures) {
      var i :| 0 <= i < |b.textures| && b.textures[i].Some?;
      assert FirstSome(LoadAttempts(entries[i].path, load)).Some?;
    }
    if exists i :: 0 <= i < |entries| && FirstSome(LoadAttempts(entries[i].path, load)).Some? {
      var i :| 0 <= i < |entries| && FirstSome(LoadAttempts(entries[i].path, load)).Some?;
      assert b.textures[i].Some?;
    }
  }

  /** The four slot names never give colliding cache keys, so a preset that
      lists each once makes distinct requests. */
  lemma PresetPathsDistinct(fabric: string, load: string -> Option<Texture>)
    ensures DistinctKeys(Requests(PresetPaths(fabric), load))
  {
    var e := PresetPaths(fabric);
    forall i, j | 0 <= i < j < 4
      ensures CacheKey(e[i].path, e[i].mapType) != CacheKey(e[j].path, e[j].mapType)
    {
      CacheKeysDiffer(e[i].path, e[j].path, e[i].mapType, e[j].mapType, 4);
    }
  }

  /** One more entry's assignment. */
  lemma AssignAllStep(m: Material, entries: seq<Entry>, textures: seq<Option<Texture>>, i: int, t: Option<Texture>)
    requires 0 <= i < |entries| && |textures| == i
    ensures var before := AssignAll(m, entries[..i], textures);
            AssignAll(m, entries[..i + 1], textures + [t]) ==
              if t.Some? then AssignSlot(before, entries[i].mapType, t.value) else before
  {
    assert entries[..i + 1][..i] == entries[..i];
    assert (textures + [t])[..i] == textures;
  }

  lemma AnyLoadedAppend(textures: seq<Option<Texture>>, t: Option<Texture>)
    ensures AnyLoaded(textures + [t]) <==> AnyLoaded(textures) || t.Some?
  {
    var all := textures + [t];
    if AnyLoaded(all) && t.None? {
      var j :| 0 <= j < |all| && all[j].Some?;
      assert textures[j].Some?;
    }
    if AnyLoaded(textures) {
      var j :| 0 <= j < |textures| && textures[j].Some?;
      assert all[j].Some?;
    }
    if t.Some? {
      assert all[|textures|].Some?;
    }
  }

  class MaterialManager {
    var loadedTextures: map<string, Texture>

    constructor ()
      ensures loadedTextures == map[]
    {
      loadedTextures := map[];
    }

    /** `tryLoadTexture(basePath, mapType)` */
    method TryLoadTexture(basePath: string, mapType: string, load: string -> Option<Texture>) returns (r: Option<Texture>)
      modifies this
      ensures Lookup(r, loadedTextures) ==
              CachedLoad(old(loadedTextures), CacheKey(basePath, mapType), LoadAttempts(basePath, load))
    {
      var key := CacheKey(basePath, mapType);
      if key in loadedTextures {
        return Some(loadedTextures[key]);
      }
      var paths := Materials.Candidates(basePath);
      ghost var attempts := LoadAttempts(basePath, load);
      var i := 0;
      while i < |Materials.Extensions|
        invariant 0 <= i <= |Materials.Extensions|
        invariant loadedTextures == old(loadedTextures)
        invariant forall j :: 0 <= j < i ==> attempts[j].None?
      {
        var texture := load(paths[i]);
        if texture.Some? {
          var configured := Configured(texture.value);
          FirstSomeAfterFailures(attempts, i);
          loadedTextures := loadedTextures[key := configured];
          return Some(configured);
        }
        i := i + 1;
      }
      return None;
    }

    /** `createMaterialWithTextures(presetName, preset)`: every entry is
        looked up and, when its texture loads, switched into its slot; the
        result also tells whether any texture loaded (the source only logs
        that flag). */
    method CreateMaterialWithTextures(presetName: string, preset: Preset, load: string -> Option<Texture>)
      returns (m: Material, hasTextures: bool)
      modifies this
      ensures Creation(m, hasTextures, loadedTextures) == Created(old(loadedTextures), presetName, preset, load)
    {
      var base := BaseMaterial(presetName, preset);
      m := base;
      hasTextures := false;
      if preset.texturePaths.None? {
        return;
      }
      var entries := preset.texturePaths.value;
      ghost var reqs := Requests(entries, load);
      ghost var textures: seq<Option<Texture>> := [];
      var i := 0;
      while i < |entries|
        invariant 0 <= i <= |entries|
        invariant LoadMany(old(loadedTextures), reqs[..i]) == Batch(textures, loadedTextures)
        invariant m == AssignAll(base, entries[..i], textures)
        invariant hasTextures <==> AnyLoaded(textures)
      {
        ghost var cacheBefore := loadedTextures;
        var texture := TryLoadTexture(entries[i].path, entries[i].mapType, load);
        LoadManyStep(old(loadedTextures), reqs, i);
        AssignAllStep(base, entries, textures, i, texture);
        AnyLoadedAppend(textures, texture);
        if texture.Some? {
          m := AssignSlot(m, entries[i].mapType, texture.value);
          hasTextures := true;
        }
        textures := textures + [texture];
        i := i + 1;
      }
      assert reqs[..i] == reqs;
      assert entries[..i] == entries;
    }

    /** `updateMaterial(object, presetName)`: an unknown preset changes
        nothing; a known one replaces the object's material, keeping its
        current colour. */
    method UpdateMaterial(obj: Object3D, presetName: string, load: string -> Option<Texture>)
      modifies this, obj
      ensures presetName !in Presets ==> unchanged(obj) && loadedTextures == old(loadedTextures)
      ensures presetName in Presets ==>
                var preset := Presets[presetName];
                var color := if old(obj.isMesh) then old(obj.material.color) else preset.baseColor;
                var c := Created(old(loadedTextures), presetName, preset.(baseColor := color), load);
                obj.material == c.material && loadedTextures == c.cache
      ensures presetName in Presets && old(obj.isMesh) ==> obj.material.color == old(obj.material.color)
      ensures obj.name == old(obj.name) && obj.isMesh == old(obj.isMesh) && obj.renderOrder == old(obj.renderOrder)
      ensures obj.isImported == old(obj.isImported) && obj.castShadow == old(obj.castShadow) && obj.receiveShadow == old(obj.receiveShadow)
    {
      if presetName !in Presets {
        return;
      }
      var preset := Presets[presetName];
      var color := if obj.isMesh then obj.material.color else preset.baseColor;
      var material, _ := CreateMaterialWithTextures(presetName, preset.(baseColor := color), load);
      obj.material := material;
    }
  }
}
