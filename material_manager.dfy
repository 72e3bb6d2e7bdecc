/** The fabric material manager: named presets, a memoised texture loader
    that falls back from png to jpg to jpeg, and the construction of a
    physical material whose normal, ambient-occlusion and colour maps come
    from the preset's texture paths. */
module Materials {
  import opened Common
  import opened Scene
  import opened TextureCache

  /** How a preset's textures are tiled: repeat (scale, scale), an offset and
      a rotation in degrees. */
  datatype TextureSettings = TextureSettings(scale: real, offset: Vec2, rotation: real)

  /** Base paths (below the texture root, without extension) per map type. */
  datatype TexturePaths = TexturePaths(
    normalMap: Option<string>,
    roughnessMap: Option<string>,
    aoMap: Option<string>,
    diffuseMap: Option<string>)

  /** A material preset; optional fields are the ones some presets omit. */
  datatype Preset = Preset(
    displayName: string,
    baseColor: int,
    roughness: real,
    metalness: real,
    normalScale: real,
    sheen: Option<real>,
    sheenRoughness: Option<real>,
    clearcoat: Option<real>,
    clearcoatRoughness: Option<real>,
    transmission: Option<real>,
    ior: Option<real>,
    textureSettings: Option<TextureSettings>,
    texturePaths: Option<TexturePaths>)

  const Presets: map<string, Preset> := map[
    "cotton" := Preset("Cotton", 0xffffff, 1.0, 0.0, 1.0, Some(0.02), Some(0.8), Some(0.0), None, Some(0.0), None,
                       Some(TextureSettings(10.0, Vec2(0.0, 0.0), 0.0)),
                       Some(TexturePaths(Some("cotton/normal"), None, Some("cotton/ao"), Some("cotton/diffuse")))),
    "nylon" := Preset("Nylon", 0xffffff, 0.98, 0.0, 1.0, Some(0.3), None, Some(0.0), None, Some(0.0), None,
                      Some(TextureSettings(10.0, Vec2(0.0, 0.0), 0.0)),
                      Some(TexturePaths(Some("nylon/normal"), Some("nylon/roughness"), Some("nylon/ao"), Some("nylon/diffuse")))),
    "leather" := Preset("Leather", 0xffffff, 0.7, 0.0, 1.0, Some(0.05), Some(0.4), Some(0.5), Some(0.4), None, None,
                        Some(TextureSettings(2.0, Vec2(0.0, 0.2), 0.0)),
                        Some(TexturePaths(Some("leather/normal"), Some("leather/roughness"), Some("leather/ao"), Some("leather/diffuse")))),
    "metal" := Preset("Metal", 0x888888, 0.5, 1.0, 0.5, Some(0.0), None, None, None, None, None, None, None),
    "plastic" := Preset("Plastic", 0xcccccc, 0.3, 0.0, 0.3, Some(0.1), None, None, None, Some(0.1), Some(1.4), None, None)
  ]

  const TextureRoot: string := "/Textures/"

  /** Extensions tried, in this order, on a cache miss. */
  const Extensions: seq<string> := ["png", "jpg", "jpeg"]

  /** `value || fallback` on an optional number: a missing value or 0 gives
      the fallback. */
  function OrDefault(value: Option<real>, fallback: real): (r: real)
    ensures value.Some? && value.value != 0.0 ==> r == value.value
    ensures value.None? || value.value == 0.0 ==> r == fallback
  {
    if value.Some? && value.value != 0.0 then value.value else fallback
  }

  /** A path that is present and not empty (JavaScript truthiness). */
  function Given(path: Option<string>): (r: Option<string>)
    ensures r.Some? <==> path.Some? && path.value != ""
    ensures r.Some? ==> r == path
  {
    if path.Some? && path.value != "" then path else None
  }

  /** Normal, ambient-occlusion and roughness maps hold data, not colour, and
      get no colour space; every other map type is sRGB. */
  function ColorSpaceFor(mapType: string): (c: ColorSpace)
    ensures c == NoColorSpace <==> mapType == "normalMap" || mapType == "aoMap" || mapType == "roughnessMap"
  {
    if mapType == "normalMap" then NoColorSpace
    else if mapType == "aoMap" || mapType == "roughnessMap" then NoColorSpace
    else SRGBColorSpace
  }

  /** The load callback: colour space by map type and repeat wrapping. */
  function Configured(t: Texture, mapType: string): (u: Texture)
    ensures u.colorSpace == ColorSpaceFor(mapType) && u.repeatWrap
    ensures u.source == t.source && u.repeat == t.repeat && u.offset == t.offset && u.rotation == t.rotation
  {
    t.(colorSpace := ColorSpaceFor(mapType), repeatWrap := true)
  }

  /** The full paths tried for a base path. */
  function Candidates(basePath: string): (paths: seq<string>)
    ensures paths == [TextureRoot + basePath + ".png", TextureRoot + basePath + ".jpg", TextureRoot + basePath + ".jpeg"]
  {
    var paths := ExtensionPaths(TextureRoot + basePath, Extensions);
    assert paths[0] == TextureRoot + basePath + ".png";
    assert paths[1] == TextureRoot + basePath + ".jpg";
    assert paths[2] == TextureRoot + basePath + ".jpeg";
    paths
  }

  /** What each candidate path yields, configured for the map type. */
  function LoadAttempts(basePath: string, mapType: string, load: string -> Option<Texture>): seq<Option<Texture>> {
    Attempts(Candidates(basePath), load, t => Configured(t, mapType))
  }

  /** `tryLoadTexture` in terms of the loader: a hit returns the cached
      texture; a miss returns the png if it loads, else the jpg, else the
      jpeg, configured for the map type and cached; if none loads the result
      is null and the cache is unchanged. */
  lemma TryLoadOrder(cache: map<string, Texture>, basePath: string, mapType: string, load: string -> Option<Texture>)
    ensures var key := CacheKey(basePath, mapType);
            var r := CachedLoad(cache, key, LoadAttempts(basePath, mapType, load));
            var png := load(TextureRoot + basePath + ".png");
            var jpg := load(TextureRoot + basePath + ".jpg");
            var jpeg := load(TextureRoot + basePath + ".jpeg");
            (key in cache ==> r.texture == Some(cache[key]) && r.cache == cache) &&
            (key !in cache && png.Some? ==>
               r.texture == Some(Configured(png.value, mapType)) && r.cache == cache[key := Configured(png.value, mapType)]) &&
            (key !in cache && png.None? && jpg.Some? ==>
               r.texture == Some(Configured(jpg.value, mapType)) && r.cache == cache[key := Configured(jpg.value, mapType)]) &&
            (key !in cache && png.None? && jpg.None? && jpeg.Some? ==>
               r.texture == Some(Configured(jpeg.value, mapType)) && r.cache == cache[key := Configured(jpeg.value, mapType)]) &&
            (key !in cache && png.None? && jpg.None? && jpeg.None? ==> r.texture.None? && r.cache == cache)
  {
    var a := LoadAttempts(basePath, mapType, load);
    var paths := Candidates(basePath);
    if a[0].Some? {
      FirstSomeAfterFailures(a, 0);
    } else if a[1].Some? {
      FirstSomeAfterFailures(a, 1);
    } else if a[2].Some? {
      FirstSomeAfterFailures(a, 2);
    }
  }

  /** The tiling settings written into one map. */
  function WithPresetSettings(t: Texture, s: TextureSettings): (u: Texture)
    ensures u.repeat == Vec2(s.scale, s.scale) && u.offset == s.offset && u.rotation == s.rotation
    ensures u.source == t.source && u.colorSpace == t.colorSpace && u.repeatWrap == t.repeatWrap
  {
    t.(repeat := Vec2(s.scale, s.scale), offset := s.offset, rotation := s.rotation)
  }

  /** A map slot after the optional settings: an empty slot stays empty. */
  function TiledSlot(slot: Option<Texture>, settings: Option<TextureSettings>): (r: Option<Texture>)
    ensures r.Some? <==> slot.Some?
    ensures slot.Some? && settings.None? ==> r == slot
    ensures slot.Some? && settings.Some? ==> r == Some(WithPresetSettings(slot.value, settings.value))
  {
    if slot.Some? && settings.Some? then Some(WithPresetSettings(slot.value, settings.value)) else slot
  }

  /** The material parameters before any texture: a double-sided,
      transparent physical material with the preset's values and the falsy
      defaults (sheen 0, sheen roughness 0.8, clearcoat 0, transmission 0).
      The preset's clearcoat roughness and index of refraction are not
      passed on. */
  function BaseMaterial(name: string, preset: Preset): (m: Material)
    ensures m.kind == Physical && m.name == name && m.color == preset.baseColor
    ensures m.roughness == preset.roughness && m.metalness == preset.metalness
    ensures m.sheen == OrDefault(preset.sheen, 0.0) && m.sheenRoughness == OrDefault(preset.sheenRoughness, 0.8)
    ensures m.clearcoat == OrDefault(preset.clearcoat, 0.0) && m.transmission == OrDefault(preset.transmission, 0.0)
    ensures m.clearcoatRoughness == DefaultMaterial(Physical).clearcoatRoughness
    ensures m.side == DoubleSide && m.transparent
    ensures m.colorMap.None? && m.normalMap.None? && m.aoMap.None? && m.roughnessMap.None? && m.metalnessMap.None?
  {
    DefaultMaterial(Physical).(
      name := name, color := preset.baseColor, roughness := preset.roughness, metalness := preset.metalness,
      sheen := OrDefault(preset.sheen, 0.0), sheenRoughness := OrDefault(preset.sheenRoughness, 0.8),
      clearcoat := OrDefault(preset.clearcoat, 0.0), transmission := OrDefault(preset.transmission, 0.0),
      side := DoubleSide, transparent := true)
  }

  /** One optional slot's lookup: skipped when the preset gives no path. */
  function LoadSlot(cache: map<string, Texture>, path: Option<string>, mapType: string, load: string -> Option<Texture>): (r: Lookup)
    ensures Given(path).None? ==> r == Lookup(None, cache)
    ensures Given(path).Some? ==> r == CachedLoad(cache, CacheKey(path.value, mapType), LoadAttempts(path.value, mapType, load))
    ensures forall k :: k in cache ==> k in r.cache && r.cache[k] == cache[k]
  {
    if Given(path).Some? then
      CachedLoadGrows(cache, CacheKey(path.value, mapType), LoadAttempts(path.value, mapType, load));
      CachedLoad(cache, CacheKey(path.value, mapType), LoadAttempts(path.value, mapType, load))
    else Lookup(None, cache)
  }

  /** The three lookups in the order the source awaits them (normal,
      ambient occlusion, colour), each seeing the cache the previous one
      left. */
  datatype PresetMaps = PresetMaps(normal: Option<Texture>, ao: Option<Texture>, diffuse: Option<Texture>,
                                   cache: map<string, Texture>)

  function LoadPresetMaps(cache: map<string, Texture>, paths: TexturePaths, load: string -> Option<Texture>): (r: PresetMaps)
    ensures forall k :: k in cache ==> k in r.cache && r.cache[k] == cache[k]
    ensures Given(paths.normalMap).None? ==> r.normal.None?
    ensures Given(paths.aoMap).None? ==> r.ao.None?
    ensures Given(paths.diffuseMap).None? ==> r.diffuse.None?
  {
    var n := LoadSlot(cache, paths.normalMap, "normalMap", load);
    var a := LoadSlot(n.cache, paths.aoMap, "aoMap", load);
    var d := LoadSlot(a.cache, paths.diffuseMap, "diffuseMap", load);
    PresetMaps(n.texture, a.texture, d.texture, d.cache)
  }

  /** Whether the cache holds none of the keys the preset's paths map to. */
  predicate NoneCached(cache: map<string, Texture>, paths: TexturePaths) {
    (Given(paths.normalMap).Some? ==> CacheKey(paths.normalMap.value, "normalMap") !in cache) &&
    (Given(paths.aoMap).Some? ==> CacheKey(paths.aoMap.value, "aoMap") !in cache) &&
    (Given(paths.diffuseMap).Some? ==> CacheKey(paths.diffuseMap.value, "diffuseMap") !in cache)
  }

  /** With none of the keys cached, each map is the first candidate of its
      own path that loads: the three lookups cannot hit each other's
      entries. */
  lemma PresetMapsFresh(cache: map<string, Texture>, paths: TexturePaths, load: string -> Option<Texture>)
    requires NoneCached(cache, paths)
    ensures var r := LoadPresetMaps(cache, paths, load);
            (r.normal == if Given(paths.normalMap).Some? then FirstSome(LoadAttempts(paths.normalMap.value, "normalMap", load)) else None) &&
            (r.ao == if Given(paths.aoMap).Some? then FirstSome(LoadAttempts(paths.aoMap.value, "aoMap", load)) else None) &&
            (r.diffuse == if Given(paths.diffuseMap).Some? then FirstSome(LoadAttempts(paths.diffuseMap.value, "diffuseMap", load)) else None)
  {
    var n := LoadSlot(cache, paths.normalMap, "normalMap", load);
    var a := LoadSlot(n.cache, paths.aoMap, "aoMap", load);
    if Given(paths.normalMap).Some? {
      var key := CacheKey(paths.normalMap.value, "normalMap");
      CachedLoadGrows(cache, key, LoadAttempts(paths.normalMap.value, "normalMap", load));
      if Given(paths.aoMap).Some? {
        CacheKeysDiffer(paths.normalMap.value, paths.aoMap.value, "normalMap", "aoMap", 4);
      }
      if Given(paths.diffuseMap).Some? {
        CacheKeysDiffer(paths.normalMap.value, paths.diffuseMap.value, "normalMap", "diffuseMap", 4);
      }
    }
    if Given(paths.aoMap).Some? {
      var key := CacheKey(paths.aoMap.value, "aoMap");
      CachedLoadGrows(n.cache, key, LoadAttempts(paths.aoMap.value, "aoMap", load));
      if Given(paths.diffuseMap).Some? {
        CacheKeysDiffer(paths.aoMap.value, paths.diffuseMap.value, "aoMap", "diffuseMap", 4);
      }
    }
  }

  /** Once every given map has loaded, the same lookups again are all cache
      hits: whatever the loader now does, the maps and the cache are the
      same. */
  lemma PresetMapsAgain(cache: map<string, Texture>, paths: TexturePaths,
                        load: string -> Option<Texture>, later: string -> Option<Texture>)
    requires var r := LoadPresetMaps(cache, paths, load);
             (Given(paths.normalMap).Some? ==> r.normal.Some?) &&
             (Given(paths.aoMap).Some? ==> r.ao.Some?) &&
             (Given(paths.diffuseMap).Some? ==> r.diffuse.Some?)
    ensures var r := LoadPresetMaps(cache, paths, load);
            LoadPresetMaps(r.cache, paths, later) == r
  {
    var n := LoadSlot(cache, paths.normalMap, "normalMap", load);
    var a := LoadSlot(n.cache, paths.aoMap, "aoMap", load);
    var d := LoadSlot(a.cache, paths.diffuseMap, "diffuseMap", load);
    if Given(paths.normalMap).Some? {
      var key := CacheKey(paths.normalMap.value, "normalMap");
      assert key in n.cache && n.cache[key] == n.texture.value;
      assert key in d.cache && d.cache[key] == n.texture.value;
    }
    if Given(paths.aoMap).Some? {
      var key := CacheKey(paths.aoMap.value, "aoMap");
      assert key in a.cache && a.cache[key] == a.texture.value;
      assert key in d.cache && d.cache[key] == a.texture.value;
    }
  }

  /** The material built from the loaded maps: each map present is tiled by
      the preset's settings; a normal map brings the normal scale, an
      ambient-occlusion map intensity 1. */
  function Assemble(name: string, preset: Preset, maps: PresetMaps): Material {
    var base := BaseMaterial(name, preset);
    var s := preset.textureSettings;
    base.(normalMap := TiledSlot(maps.normal, s), aoMap := TiledSlot(maps.ao, s), colorMap := TiledSlot(maps.diffuse, s),
          normalScale := if maps.normal.Some? then OrDefault(Some(preset.normalScale), 1.0) else base.normalScale,
          aoMapIntensity := if maps.ao.Some? then 1.0 else base.aoMapIntensity)
  }

  /** A material and the texture cache after building it. */
  datatype Creation = Creation(material: Material, cache: map<string, Texture>)

  /** `createMaterialWithTextures(name, preset)`: the base material, then the
      normal map (with the preset's normal scale, 0 counting as 1), the
      ambient-occlusion map (intensity 1) and the colour map, each only when
      its path is given and it loads, and finally the tiling settings on
      every map present. A roughness map is never assigned. */
  function Created(cache: map<string, Texture>, name: string, preset: Preset, load: string -> Option<Texture>): (c: Creation)
    ensures var base := BaseMaterial(name, preset);
            c.material.(colorMap := None, normalMap := None, aoMap := None, normalScale := base.normalScale,
                        aoMapIntensity := base.aoMapIntensity) == base
    ensures c.material.roughnessMap.None? && c.material.metalnessMap.None?
    ensures c.material.normalMap.Some? ==> c.material.normalScale == OrDefault(Some(preset.normalScale), 1.0)
    ensures c.material.aoMap.Some? ==> c.material.aoMapIntensity == 1.0
    ensures preset.texturePaths.None? ==> c == Creation(BaseMaterial(name, preset), cache)
    ensures forall k :: k in cache ==> k in c.cache && c.cache[k] == cache[k]
  {
    if preset.texturePaths.None? then Creation(BaseMaterial(name, preset), cache)
    else
      var maps := LoadPresetMaps(cache, preset.texturePaths.value, load);
      Creation(Assemble(name, preset, maps), maps.cache)
  }

  /** From a cache holding none of the preset's keys, each map present is the
      first candidate of its own path that loads, configured for its type
      and tiled; a map is present exactly when its path is given and one of
      its candidates loads. */
  lemma CreatedFromFreshCache(cache: map<string, Texture>, name: string, preset: Preset, load: string -> Option<Texture>)
    requires preset.texturePaths.Some? && NoneCached(cache, preset.texturePaths.value)
    ensures var c := Created(cache, name, preset, load);
            var paths := preset.texturePaths.value;
            var s := preset.textureSettings;
            (c.material.normalMap ==
               if Given(paths.normalMap).Some? then TiledSlot(FirstSome(LoadAttempts(paths.normalMap.value, "normalMap", load)), s) else None) &&
            (c.material.aoMap ==
               if Given(paths.aoMap).Some? then TiledSlot(FirstSome(LoadAttempts(paths.aoMap.value, "aoMap", load)), s) else None) &&
            (c.material.colorMap ==
               if Given(paths.diffuseMap).Some? then TiledSlot(FirstSome(LoadAttempts(paths.diffuseMap.value, "diffuseMap", load)), s) else None)
  {
    PresetMapsFresh(cache, preset.texturePaths.value, load);
  }

  /** Once every given map has loaded, building the same preset again is
      served from the cache: the loader is not consulted and the result is
      the same material and cache. */
  lemma CreatedAgainFromCache(cache: map<string, Texture>, name: string, preset: Preset,
                              load: string -> Option<Texture>, later: string -> Option<Texture>)
    requires preset.texturePaths.Some?
    requires var c := Created(cache, name, preset, load);
             var paths := preset.texturePaths.value;
             (Given(paths.normalMap).Some? ==> c.material.normalMap.Some?) &&
             (Given(paths.aoMap).Some? ==> c.material.aoMap.Some?) &&
             (Given(paths.diffuseMap).Some? ==> c.material.colorMap.Some?)
    ensures var c := Created(cache, name, preset, load);
            Created(c.cache, name, preset, later) == c
  {
    PresetMapsAgain(cache, preset.texturePaths.value, load, later);
  }

  class MaterialManager {
    var loadedTextures: map<string, Texture>

    constructor ()
      ensures loadedTextures == map[]
    {
      loadedTextures := map[];
    }

    /** `tryLoadTexture(basePath, mapType)`: the cache is consulted first;
        on a miss each extension is tried in turn and the first texture that
        loads is configured, cached and returned. */
    method TryLoadTexture(basePath: string, mapType: string, load: string -> Option<Texture>) returns (r: Option<Texture>)
      modifies this
      ensures Lookup(r, loadedTextures) ==
              CachedLoad(old(loadedTextures), CacheKey(basePath, mapType), LoadAttempts(basePath, mapType, load))
    {
      var key := CacheKey(basePath, mapType);
      if key in loadedTextures {
        return Some(loadedTextures[key]);
      }
      var paths := Candidates(basePath);
      ghost var attempts := LoadAttempts(basePath, mapType, load);
      var i := 0;
      while i < |Extensions|
        invariant 0 <= i <= |Extensions|
        invariant loadedTextures == old(loadedTextures)
        invariant forall j :: 0 <= j < i ==> attempts[j].None?
      {
        var texture := load(paths[i]);
        if texture.Some? {
          var configured := Configured(texture.value, mapType);
          FirstSomeAfterFailures(attempts, i);
          loadedTextures := loadedTextures[key := configured];
          return Some(configured);
        }
        i := i + 1;
      }
      return None;
    }

    /** `createMaterialWithTextures(presetName, preset)`, slot by slot. */
    method CreateMaterialWithTextures(presetName: string, preset: Preset, load: string -> Option<Texture>) returns (m: Material)
      modifies this
      ensures Creation(m, loadedTextures) == Created(old(loadedTextures), presetName, preset, load)
    {
      m := BaseMaterial(presetName, preset);
      if preset.texturePaths.Some? {
        var paths := preset.texturePaths.value;
        if Given(paths.normalMap).Some? {
          var normalMap := TryLoadTexture(paths.normalMap.value, "normalMap", load);
          if normalMap.Some? {
            m := m.(normalMap := normalMap, normalScale := OrDefault(Some(preset.normalScale), 1.0));
          }
        }
        if Given(paths.aoMap).Some? {
          var aoMap := TryLoadTexture(paths.aoMap.value, "aoMap", load);
          if aoMap.Some? {
            m := m.(aoMap := aoMap, aoMapIntensity := 1.0);
          }
        }
        if Given(paths.diffuseMap).Some? {
          var diffuseMap := TryLoadTexture(paths.diffuseMap.value, "diffuseMap", load);
          if diffuseMap.Some? {
            m := m.(colorMap := diffuseMap);
          }
        }
        var s := preset.textureSettings;
        m := m.(colorMap := TiledSlot(m.colorMap, s), normalMap := TiledSlot(m.normalMap, s), aoMap := TiledSlot(m.aoMap, s));
      }
    }

    /** `updateMaterial(object, presetName)`: an unknown preset changes
        nothing; a known one replaces the object's material with a freshly
        built one that keeps the object's current colour (a node without a
        material takes the preset's base colour). */
    method UpdateMaterial(obj: Object3D, presetName: string, load: string -> Option<Texture>)
      modifies this, obj
      ensures presetName !in Presets ==> unchanged(obj) && loadedTextures == old(loadedTextures)
      ensures presetName in Presets ==>
                var preset := Presets[presetName];
                var color := if old(obj.isMesh) then old(obj.material.color) else preset.baseColor;
                Creation(obj.material, loadedTextures) ==
                  Created(old(loadedTextures), presetName, preset.(baseColor := color), load)
      ensures presetName in Presets && old(obj.isMesh) ==> obj.material.color == old(obj.material.color)
      ensures obj.name == old(obj.name) && obj.isMesh == old(obj.isMesh) && obj.renderOrder == old(obj.renderOrder)
      ensures obj.isImported == old(obj.isImported) && obj.castShadow == old(obj.castShadow) && obj.receiveShadow == old(obj.receiveShadow)
    {
      if presetName !in Presets {
        return;
      }
      var preset := Presets[presetName];
      var color := if obj.isMesh then obj.material.color else preset.baseColor;
      var material := CreateMaterialWithTextures(presetName, preset.(baseColor := color), load);
      obj.material := material;
    }
  }
}
