/** The few Three.js and canvas entities the core reads and writes: textures and
    materials as values, scene nodes as objects whose fields are assigned in
    place, and the draw commands a composite canvas is made of. */
module Scene {
  import opened Common

  datatype ColorSpace = NoColorSpace | SRGBColorSpace

  datatype Side = FrontSide | DoubleSide

  /** How one layer is placed on the 1024x1024 composite canvas. */
  datatype Placement =
    /** A single image: translate to the canvas centre, rotate, scale by
        flip*scale, then draw at (`x`, `y`) with size `w` x `h`. */
    | Single(x: real, y: real, w: real, h: real, rotation: real, scaleX: real, scaleY: real)
    /** A repeating pattern: the image drawn at `tileSize` x `tileSize` onto
        a tile canvas of `tileWidth` x `tileHeight` whole pixels (the pattern's
        period), whose frame is translated, rotated and flipped before
        filling the whole canvas. */
    | Tiled(tileSize: real, tileWidth: nat, tileHeight: nat,
            translateX: real, translateY: real, rotation: real, flipX: real, flipY: real)

  /** One layer's image painted onto the composite with `globalAlpha = alpha`. */
  datatype DrawStep = DrawStep(layerId: int, image: Texture, alpha: real, placement: Placement)

  /** Where a texture's pixels come from. */
  datatype TextureSource = FileSource(path: string) | CanvasSource(steps: seq<DrawStep>)

  /** A `THREE.Texture`, reduced to the fields the core sets. `rotation` is
      kept in degrees (the source converts with `degToRad`). */
  datatype Texture = Texture(
    source: TextureSource,
    hasImage: bool,
    colorSpace: ColorSpace,
    repeatWrap: bool,
    flipY: bool,
    premultiplyAlpha: bool,
    repeat: Vec2,
    offset: Vec2,
    center: Vec2,
    rotation: real)

  /** A freshly loaded texture, with Three.js defaults. */
  function LoadedTexture(path: string): (t: Texture)
    ensures t.source == FileSource(path) && t.hasImage && !t.repeatWrap
  {
    Texture(FileSource(path), true, NoColorSpace, false, true, false,
            Vec2(1.0, 1.0), Vec2(0.0, 0.0), Vec2(0.0, 0.0), 0.0)
  }

  datatype MaterialKind = Physical | Standard | ShadowMaterial

  /** A `MeshStandardMaterial` / `MeshPhysicalMaterial`, reduced to the
      parameters the core sets. `color` is a 24-bit hex value. */
  datatype Material = Material(
    kind: MaterialKind,
    name: string,
    color: int,
    roughness: real,
    metalness: real,
    sheen: real,
    sheenRoughness: real,
    clearcoat: real,
    clearcoatRoughness: real,
    transmission: real,
    transparent: bool,
    side: Side,
    alphaTest: real,
    colorMap: Option<Texture>,  // Three.js `map`, the diffuse colour texture
    normalMap: Option<Texture>,
    aoMap: Option<Texture>,
    roughnessMap: Option<Texture>,
    metalnessMap: Option<Texture>,
    aoMapIntensity: real,
    normalScale: real)

  /** `new THREE.Mesh…Material({})`: the library defaults. */
  function DefaultMaterial(kind: MaterialKind): (m: Material)
    ensures m.kind == kind && m.color == 0xffffff && m.side == FrontSide
    ensures m.colorMap.None? && m.normalMap.None? && m.aoMap.None? && m.roughnessMap.None? && m.metalnessMap.None?
  {
    Material(kind, "", 0xffffff, 1.0, 0.0, 0.0, 1.0, 0.0, 0.0, 0.0,
             false, FrontSide, 0.0, None, None, None, None, None, 1.0, 1.0)
  }

  /** The clear-coated overlay given to texture-target meshes: transparent,
      front side only, alpha test 0.1, roughness 0, clearcoat 1, clearcoat
      roughness 0, white, with `texture` as its colour map. */
  function PhysicalOverlay(texture: Option<Texture>): (m: Material)
    ensures m.kind == Physical && m.colorMap == texture && m.transparent && m.side == FrontSide
    ensures m.alphaTest == 0.1 && m.roughness == 0.0 && m.clearcoat == 1.0 && m.clearcoatRoughness == 0.0
    ensures m.color == 0xffffff
  {
    DefaultMaterial(Physical).(colorMap := texture, transparent := true, side := FrontSide, alphaTest := 0.1,
                               roughness := 0.0, clearcoat := 1.0, clearcoatRoughness := 0.0, color := 0xffffff)
  }

  /** A node visited by `scene.traverse`: a mesh or another kind of object. */
  class Object3D {
    var name: string
    var isMesh: bool
    /** `userData.isImported` */
    var isImported: bool
    var material: Material
    var renderOrder: int
    var castShadow: bool
    var receiveShadow: bool

    constructor (name: string, isMesh: bool, material: Material)
      ensures this.name == name && this.isMesh == isMesh && this.material == material
      ensures !isImported && renderOrder == 0 && !castShadow && !receiveShadow
    {
      this.name := name;
      this.isMesh := isMesh;
      this.material := material;
      isImported := false;
      renderOrder := 0;
      castShadow := false;
      receiveShadow := false;
    }
  }

  /** Names that mark a mesh as a receiver of the user's texture. */
  predicate IsTextureTargetName(name: string) {
    Includes(name, "Fronttex") || Includes(name, "Backtex")
  }
}
