/** The texture-layer record shared by the layer store, the provider state,
    the compositor and the transform editor. */
module LayerModel {
  import opened Common
  import opened Scene

  /** A layer's placement: offset in canvas-relative units, scale, rotation
      in degrees, tiling flag and the two flip signs. */
  datatype Transformations = Transformations(
    offset: Vec2,
    scale: real,
    rotation: real,
    repeat: bool,
    flipX: real,
    flipY: real)

  /** The placement every new or freshly loaded layer starts with. */
  const Identity := Transformations(Vec2(0.0, 0.0), 1.0, 0.0, false, 1.0, 1.0)

  /** The fields of a `value` object spread over `transformations`; an absent
      field is `None`. */
  datatype TransformPatch = TransformPatch(
    offset: Option<Vec2>,
    scale: Option<real>,
    rotation: Option<real>,
    repeat: Option<bool>,
    flipX: Option<real>,
    flipY: Option<real>)

  /** A patch that carries every field, as the transform editor sends. */
  function FullPatch(t: Transformations): (p: TransformPatch)
    ensures p.offset.Some? && p.scale.Some? && p.rotation.Some?
    ensures p.repeat.Some? && p.flipX.Some? && p.flipY.Some?
  {
    TransformPatch(Some(t.offset), Some(t.scale), Some(t.rotation), Some(t.repeat), Some(t.flipX), Some(t.flipY))
  }

  /** One entry of the layer stack. `texture` is `None` until an image is
      loaded; `modelDirectory` is the model folder current at creation. */
  datatype Layer = Layer(
    id: int,
    name: string,
    texture: Option<Texture>,
    opacity: real,
    visible: bool,
    isActive: bool,
    modelDirectory: Option<string>,
    transformations: Transformations)

  /** The source keys layers by `Date.now()`, so uniqueness is not guaranteed;
      lemmas that need it say so. */
  predicate UniqueIds(layers: seq<Layer>) {
    forall i, j :: 0 <= i < j < |layers| ==> layers[i].id != layers[j].id
  }

  /** Number of layers flagged active. */
  function ActiveCount(layers: seq<Layer>): (n: nat)
    ensures n <= |layers|
  {
    if layers == [] then 0
    else (if layers[0].isActive then 1 else 0) + ActiveCount(layers[1..])
  }

  /** Index of the first layer with `id`, or -1 (`findIndex`). */
  function IndexOf(layers: seq<Layer>, id: int): (k: int)
    ensures -1 <= k < |layers|
    ensures k == -1 <==> forall i :: 0 <= i < |layers| ==> layers[i].id != id
    ensures k >= 0 ==> layers[k].id == id && forall i :: 0 <= i < k ==> layers[i].id != id
  {
    if layers == [] then -1
    else if layers[0].id == id then 0
    else
      var k := IndexOf(layers[1..], id);
      if k == -1 then -1 else k + 1
  }

  /** The first layer with `id` (`find`). */
  function Find(layers: seq<Layer>, id: int): (r: Option<Layer>)
    ensures r.None? <==> forall i :: 0 <= i < |layers| ==> layers[i].id != id
    ensures r.Some? ==> r.value.id == id && r.value in layers
    ensures r.Some? ==> r.value == layers[IndexOf(layers, id)]
  {
    var k := IndexOf(layers, id);
    if k == -1 then None else Some(layers[k])
  }
}
