/** The get-or-create material registry: for a material name it loads up to
    five textures (`<name>/<texture>.<format>` under the texture root, formats
    tried in order, memoised per name and texture), builds a double-sided
    physical material with a slot for each texture that loaded, and keeps the
    result so later requests only recolour it. */
module MaterialRegistry {
  import opened Common
  import opened Scene
  import opened TextureCache

  const TextureBasePath: string := "/Textures/"

  /** `supportedFormats`, tried in this order. */
  const SupportedFormats: seq<string> := ["jpg", "png", "jpeg", "webp"]

  /** The textures requested for every material, in request order. */
  const TextureNames: seq<string> := ["diffuse", "normal", "roughness", "ao", "metalness"]

  /** The full paths tried for one texture of one material. */
  function FormatPaths(basePath: string, textureName: string, formats: seq<string>): (paths: seq<string>)
    ensures |paths| == |formats|
    ensures forall i :: 0 <= i < |formats| ==>
              paths[i] == TextureBasePath + basePath + "/" + textureName + "." + formats[i]
  {
    ExtensionPaths(TextureBasePath + basePath + "/" + textureName, formats)
  }

  /** What each format yields; the loader's texture is kept as it is. */
  function LoadAttempts(basePath: string, textureName: string, formats: seq<string>, load: string -> Option<Texture>): seq<Option<Texture>> {
    Attempts(FormatPaths(basePath, textureName, formats), load, t => t)
  }

  /** `loadTexture(basePath, textureName, formats)` in terms of the loader:
      a miss returns the texture of the first format whose path loads, and
      caches it; a total failure returns null and caches nothing. */
  lemma LoadTextureFirstFormat(cache: map<string, Texture>, basePath: string, textureName: string,
                               formats: seq<string>, load: string -> Option<Texture>, i: int)
    requires CacheKey(basePath, textureName) !in cache
    requires 0 <= i < |formats| && load(TextureBasePath + basePath + "/" + textureName + "." + formats[i]).Some?
    requires forall j :: 0 <= j < i ==> load(TextureBasePath + basePath + "/" + textureName + "." + formats[j]).None?
    ensures var t := load(TextureBasePath + basePath + "/" + textureName + "." + formats[i]);
            var r := CachedLoad(cache, CacheKey(basePath, textureName), LoadAttempts(basePath, textureName, formats, load));
            r.texture == t && r.cache == cache[CacheKey(basePath, textureName) := t.value]
  {
    var a := LoadAttempts(basePath, textureName, formats, load);
    FirstSomeAfterFailures(a, i);
  }

  /** The settings `configureTexture` accepts; a missing one takes its
      default (repeat 1 by 1, repeat wrapping, sRGB). */
  datatype TextureConfig = TextureConfig(
    repeatX: Option<real>,
    repeatY: Option<real>,
    repeatWrap: Option<bool>,
    encoding: Option<ColorSpace>)

  const DefaultConfig: TextureConfig := TextureConfig(None, None, None, None)

  function ValueOr<T>(o: Option<T>, fallback: T): (r: T)
    ensures o.Some? ==> r == o.value
    ensures o.None? ==> r == fallback
  {
    if o.Some? then o.value else fallback
  }

  /** `configureTexture(texture, settings)`: a missing texture is returned as
      it is; otherwise repeat, wrapping and encoding are set, each from the
      settings when given (0 included) and from the default otherwise. */
  function ConfigureTexture(texture: Option<Texture>, settings: TextureConfig): (r: Option<Texture>)
    ensures texture.None? <==> r.None?
    ensures texture.Some? ==>
              r.value.repeat == Vec2(ValueOr(settings.repeatX, 1.0), ValueOr(settings.repeatY, 1.0)) &&
              r.value.repeatWrap == ValueOr(settings.repeatWrap, true) &&
              r.value.colorSpace == ValueOr(settings.encoding, SRGBColorSpace) &&
              r.value.source == texture.value.source && r.value.offset == texture.value.offset &&
              r.value.rotation == texture.value.rotation
  {
    if texture.None? then None
    else
      Some(texture.value.(repeat := Vec2(ValueOr(settings.repeatX, 1.0), ValueOr(settings.repeatY, 1.0)),
                          repeatWrap := ValueOr(settings.repeatWrap, true),
                          colorSpace := ValueOr(settings.encoding, SRGBColorSpace)))
  }

  /** Configuring twice with the same settings is the same as once, so a
      cached texture that an earlier material already configured comes out
      the same. */
  lemma ConfigureIdempotent(texture: Option<Texture>, settings: TextureConfig)
    ensures ConfigureTexture(ConfigureTexture(texture, settings), settings) == ConfigureTexture(texture, settings)
  {
  }

  /** The loaded textures by name (`textureMap`); a texture that did not load
      is absent. */
  datatype TextureSet = TextureSet(
    diffuse: Option<Texture>,
    normal: Option<Texture>,
    roughness: Option<Texture>,
    ao: Option<Texture>,
    metalness: Option<Texture>)

  /** A stored preset: the material, its textures, and whether the last
      recolouring converted the colour from sRGB to linear (it does when the
      material has a colour map). */
  datatype PresetEntry = PresetEntry(material: Material, textures: TextureSet, colorLinearized: bool)

  /** The material before any texture: white unless a colour is given,
      roughness 0.5, metalness 0, normal scale 1, ambient-occlusion intensity
      1, double-sided. */
  function BaseMaterial(baseColor: Option<int>): (m: Material)
    ensures m.kind == Physical && m.color == ValueOr(baseColor, 0xffffff)
    ensures m.roughness == 0.5 && m.metalness == 0.0 && m.normalScale == 1.0 && m.aoMapIntensity == 1.0
    ensures m.side == DoubleSide
    ensures m.colorMap.None? && m.normalMap.None? && m.aoMap.None? && m.roughnessMap.None? && m.metalnessMap.None?
  {
    DefaultMaterial(Physical).(color := ValueOr(baseColor, 0xffffff), roughness := 0.5, metalness := 0.0,
                               normalScale := 1.0, aoMapIntensity := 1.0, side := DoubleSide)
  }

  /** Each loaded texture in its slot: diffuse as the colour map, then
      normal, roughness, ambient-occlusion and metalness maps. */
  function WithTextures(m: Material, t: TextureSet): Material {
    var withMap := if t.diffuse.Some? then m.(colorMap := t.diffuse) else m;
    var withNormal := if t.normal.Some? then withMap.(normalMap := t.normal) else withMap;
    var withRoughness := if t.roughness.Some? then withNormal.(roughnessMap := t.roughness) else withNormal;
    var withAo := if t.ao.Some? then withRoughness.(aoMap := t.ao) else withRoughness;
    if t.metalness.Some? then withAo.(metalnessMap := t.metalness) else withAo
  }

  /** On the base material every slot ends up holding exactly its own
      texture, or nothing when that texture did not load. */
  lemma WithTexturesSlots(baseColor: Option<int>, t: TextureSet)
    ensures var m := WithTextures(BaseMaterial(baseColor), t);
            m.colorMap == t.diffuse && m.normalMap == t.normal && m.roughnessMap == t.roughness &&
            m.aoMap == t.ao && m.metalnessMap == t.metalness &&
            m.(colorMap := None, normalMap := None, roughnessMap := None, aoMap := None, metalnessMap := None) ==
              BaseMaterial(baseColor)
  {
  }

  /** The five lookups a material makes, in request order. */
  function Requests(materialName: string, load: string -> Option<Texture>): (r: seq<Request>)
    ensures |r| == |TextureNames|
    ensures forall i :: 0 <= i < |TextureNames| ==>
              r[i] == Request(CacheKey(materialName, TextureNames[i]),
                              LoadAttempts(materialName, TextureNames[i], SupportedFormats, load))
  {
    seq(|TextureNames|, i requires 0 <= i < |TextureNames| =>
      Request(CacheKey(materialName, TextureNames[i]), LoadAttempts(materialName, TextureNames[i], SupportedFormats, load)))
  }

  /** The five texture names never give colliding cache keys. */
  lemma RequestsDistinct(materialName: string, load: string -> Option<Texture>)
    ensures DistinctKeys(Requests(materialName, load))
  {
    var r := Requests(materialName, load);
    forall i, j | 0 <= i < j < |r|
      ensures r[i].key != r[j].key
    {
      var k := if TextureNames[i] == "roughness" && TextureNames[j] == "metalness" then 5 else 1;
      CacheKeysDiffer(materialName, materialName, TextureNames[i], TextureNames[j], k);
    }
  }

  /** The textures of a batch, configured with the defaults. */
  function Configured(textures: seq<Option<Texture>>): TextureSet
    requires |textures| == 5
  {
    TextureSet(ConfigureTexture(textures[0], DefaultConfig), ConfigureTexture(textures[1], DefaultConfig),
               ConfigureTexture(textures[2], DefaultConfig), ConfigureTexture(textures[3], DefaultConfig),
               ConfigureTexture(textures[4], DefaultConfig))
  }

  /** A new preset entry and the texture cache after creating it. */
  datatype Creation = Creation(entry: PresetEntry, cache: map<string, Texture>)

  /** `createMaterial(materialName, baseColor)`: the five lookups, each
      loaded texture configured and put in its slot. */
  function Created(cache: map<string, Texture>, materialName: string, baseColor: Option<int>,
                   load: string -> Option<Texture>): (c: Creation)
    ensures var b := LoadMany(cache, Requests(materialName, load));
            c.cache == b.cache && !c.entry.colorLinearized
    ensures c.entry.material == WithTextures(BaseMaterial(baseColor), c.entry.textures)
  {
    var b := LoadMany(cache, Requests(materialName, load));
    var textures := Configured(b.textures);
    Creation(PresetEntry(WithTextures(BaseMaterial(baseColor), textures), textures, false), b.cache)
  }

  /** From a cache holding none of the material's keys, a slot is filled
      exactly when one of its texture's formats loads, and then holds that
      texture configured with the defaults. */
  lemma CreatedSlotsFresh(cache: map<string, Texture>, materialName: string, baseColor: Option<int>,
                          load: string -> Option<Texture>)
    requires forall i :: 0 <= i < |TextureNames| ==> CacheKey(materialName, TextureNames[i]) !in cache
    ensures var m := Created(cache, materialName, baseColor, load).entry.material;
            m.colorMap == ConfigureTexture(FirstSome(LoadAttempts(materialName, "diffuse", SupportedFormats, load)), DefaultConfig) &&
            m.normalMap == ConfigureTexture(FirstSome(LoadAttempts(materialName, "normal", SupportedFormats, load)), DefaultConfig) &&
            m.roughnessMap == ConfigureTexture(FirstSome(LoadAttempts(materialName, "roughness", SupportedFormats, load)), DefaultConfig) &&
            m.aoMap == ConfigureTexture(FirstSome(LoadAttempts(materialName, "ao", SupportedFormats, load)), DefaultConfig) &&
            m.metalnessMap == ConfigureTexture(FirstSome(LoadAttempts(materialName, "metalness", SupportedFormats, load)), DefaultConfig)
  {
    var r := Requests(materialName, load);
    RequestsDistinct(materialName, load);
    LoadManyFresh(cache, r);
    var b := LoadMany(cache, r);
    assert Created(cache, materialName, baseColor, load).entry.textures == Configured(b.textures);
    WithTexturesSlots(baseColor, Configured(b.textures));
    assert b.textures[0] == FirstSome(LoadAttempts(materialName, "diffuse", SupportedFormats, load));
    assert b.textures[1] == FirstSome(LoadAttempts(materialName, "normal", SupportedFormats, load));
    assert b.textures[2] == FirstSome(LoadAttempts(materialName, "roughness", SupportedFormats, load));
    assert b.textures[3] == FirstSome(LoadAttempts(materialName, "ao", SupportedFormats, load));
    assert b.textures[4] == FirstSome(LoadAttempts(materialName, "metalness", SupportedFormats, load));
  }

  /** `updateColor(color)`: the colour is set and, when the material has a
      colour map, converted from sRGB to linear; nothing else changes. */
  function UpdateColor(entry: PresetEntry, color: int): (r: PresetEntry)
    ensures r.material == entry.material.(color := color)
    ensures r.textures == entry.textures
    ensures r.colorLinearized <==> entry.material.colorMap.Some?
  {
    PresetEntry(entry.material.(color := color), entry.textures, entry.material.colorMap.Some?)
  }

  /** Recolouring twice is recolouring with the second colour. */
  lemma UpdateColorLastWins(entry: PresetEntry, c1: int, c2: int)
    ensures UpdateColor(UpdateColor(entry, c1), c2) == UpdateColor(entry, c2)
  {
  }

  class MaterialSystem {
    var materialPresets: map<string, PresetEntry>
    var loadedTextures: map<string, Texture>

    constructor ()
      ensures materialPresets == map[] && loadedTextures == map[]
    {
      materialPresets := map[];
      loadedTextures := map[];
    }

    /** `loadTexture(basePath, textureName, formats)`: the cache first, then
        each format in turn; the first texture that loads is cached and
        returned. */
    method LoadTexture(basePath: string, textureName: string, formats: seq<string>, load: string -> Option<Texture>)
      returns (r: Option<Texture>)
      modifies this
      ensures Lookup(r, loadedTextures) ==
              CachedLoad(old(loadedTextures), CacheKey(basePath, textureName), LoadAttempts(basePath, textureName, formats, load))
      ensures materialPresets == old(materialPresets)
    {
      var key := CacheKey(basePath, textureName);
      if key in loadedTextures {
        return Some(loadedTextures[key]);
      }
      var paths := FormatPaths(basePath, textureName, formats);
      ghost var attempts := LoadAttempts(basePath, textureName, formats, load);
      var i := 0;
      while i < |formats|
        invariant 0 <= i <= |formats|
        invariant loadedTextures == old(loadedTextures)
        invariant forall j :: 0 <= j < i ==> attempts[j].None?
      {
        var texture := load(paths[i]);
        if texture.Some? {
          FirstSomeAfterFailures(attempts, i);
          loadedTextures := loadedTextures[key := texture.value];
          return texture;
        }
        i := i + 1;
      }
      return None;
    }

    /** The texture loop of `createMaterial`: every texture of the
        material, in `TextureNames` order, through the cache. */
    method LoadTextures(materialName: string, load: string -> Option<Texture>)
      returns (loaded: seq<Option<Texture>>)
      modifies this
      ensures LoadMany(old(loadedTextures), Requests(materialName, load)) == Batch(loaded, loadedTextures)
      ensures materialPresets == old(materialPresets)
    {
      ghost var reqs := Requests(materialName, load);
      ghost var start := loadedTextures;
      loaded := [];
      var i := 0;
      while i < |TextureNames|
        invariant 0 <= i <= |TextureNames|
        invariant LoadMany(start, reqs[..i]) == Batch(loaded, loadedTextures)
        invariant materialPresets == old(materialPresets)
      {
        var texture := LoadTexture(materialName, TextureNames[i], SupportedFormats, load);
        LoadManyStep(start, reqs, i);
        loaded := loaded + [texture];
        i := i + 1;
      }
      assert reqs[..i] == reqs;
    }

    /** `createMaterial(materialName, baseColor)`: the five textures are
        requested, each one that loaded is configured and assigned, and the
        entry is stored under the material's name and returned. */
    method CreateMaterial(materialName: string, baseColor: Option<int>, load: string -> Option<Texture>)
      returns (entry: PresetEntry)
      modifies this
      ensures Creation(entry, loadedTextures) == Created(old(loadedTextures), materialName, baseColor, load)
      ensures materialPresets == old(materialPresets)[materialName := entry]
    {
      var loaded := LoadTextures(materialName, load);
      var textures := Configured(loaded);
      var material := BaseMaterial(baseColor);
      if textures.diffuse.Some? {
        material := material.(colorMap := textures.diffuse);
      }
      if textures.normal.Some? {
        material := material.(normalMap := textures.normal);
      }
      if textures.roughness.Some? {
        material := material.(roughnessMap := textures.roughness);
      }
      if textures.ao.Some? {
        material := material.(aoMap := textures.ao);
      }
      if textures.metalness.Some? {
        material := material.(metalnessMap := textures.metalness);
      }
      assert material == WithTextures(BaseMaterial(baseColor), textures);
      entry := PresetEntry(material, textures, false);
      materialPresets := materialPresets[materialName := entry];
    }

    /** `getMaterial(materialName, color)`: a stored preset is returned
        without being rebuilt (recoloured first when a colour is given); an
        unknown name is created and stored. */
    method GetMaterial(materialName: string, color: Option<int>, load: string -> Option<Texture>)
      returns (entry: PresetEntry)
      modifies this
      ensures materialName in old(materialPresets) ==>
                loadedTextures == old(loadedTextures) &&
                entry == (if color.Some? then UpdateColor(old(materialPresets)[materialName], color.value)
                          else old(materialPresets)[materialName])
      ensures materialName !in old(materialPresets) ==>
                Creation(entry, loadedTextures) == Created(old(loadedTextures), materialName, color, load)
      ensures materialPresets == old(materialPresets)[materialName := entry]
    {
      if materialName in materialPresets {
        if color.Some? {
          materialPresets := materialPresets[materialName := UpdateColor(materialPresets[materialName], color.value)];
        }
        return materialPresets[materialName];
      }
      entry := CreateMaterial(materialName, color, load);
    }

    /** `updateMaterialColor(materialName, color)`: an unknown name changes
        nothing. */
    method UpdateMaterialColor(materialName: string, color: int)
      modifies this
      ensures materialName !in old(materialPresets) ==> materialPresets == old(materialPresets)
      ensures materialName in old(materialPresets) ==>
                materialPresets == old(materialPresets)[materialName := UpdateColor(old(materialPresets)[materialName], color)]
      ensures loadedTextures == old(loadedTextures)
    {
      if materialName in materialPresets {
        materialPresets := materialPresets[materialName := UpdateColor(materialPresets[materialName], color)];
      }
    }
  }
}
