/** The compositing half of the layer panel: which layers are painted onto each
    target mesh's 1024x1024 canvas, in which order, with which placement and
    alpha, and the texture and material made from that canvas. Pixels are not
    modelled: a canvas is the list of draw steps painted onto it. */
module Compositor {
  import opened Common
  import opened Scene
  import opened LayerModel
  import TextureLayerManager

  /** Side of the composite canvas. */
  const CanvasSize: real := 1024.0

  /** A layer takes part in the composite only when it is visible and has a
      texture with an image. */
  predicate Paintable(layer: Layer) {
    layer.visible && layer.texture.Some? && layer.texture.value.hasImage
  }

  /** `value || 1` for a flip sign: a zero (falsy) sign counts as 1. */
  function FlipOr1(f: real): (r: real)
    ensures r != 0.0
    ensures f != 0.0 ==> r == f
  {
    if f == 0.0 then 1.0 else f
  }

  /** `canvas.width / (4 / scale)`. A zero scale makes `4 / scale` infinite
      and the quotient 0. */
  function PatternSize(scale: real): (r: real)
    ensures r == CanvasSize * scale / 4.0
  {
    if scale == 0.0 then 0.0 else CanvasSize / (4.0 / scale)
  }

  /** Assigning a number to a canvas's `width` or `height`: the WebIDL
      `unsigned long` conversion truncates toward zero and wraps modulo 2^32,
      and the HTML attribute then falls back to its default (300 wide, 150
      high) for a value above 2^31 - 1. */
  function CanvasDimension(x: real, default: nat): (k: nat)
    ensures k <= 0x7FFF_FFFF || k == default
    ensures 0.0 <= x < 2147483648.0 ==> k as real <= x < k as real + 1.0
    ensures x <= -1.0 && x > -2147483648.0 ==> k == default
  {
    var v := Trunc(x) % 0x1_0000_0000;
    if v <= 0x7FFF_FFFF then v else default
  }

  /** Where and how a paintable layer is drawn. */
  function PlacementOf(t: Transformations): (p: Placement)
    ensures t.repeat ==> p.Tiled? && p.tileSize == CanvasSize * t.scale / 4.0
    ensures t.repeat && 0.0 <= t.scale < 8388608.0 ==>
              p.tileWidth == p.tileHeight && p.tileWidth as real <= p.tileSize < p.tileWidth as real + 1.0
    ensures t.repeat ==> p.translateX == t.offset.x * CanvasSize && p.translateY == t.offset.y * CanvasSize
    ensures t.repeat ==> p.flipX == FlipOr1(t.flipX) && p.flipY == FlipOr1(t.flipY)
    ensures !t.repeat ==> p.Single? && p.w == 0.8 * CanvasSize && p.h == 0.8 * CanvasSize
    ensures !t.repeat ==> p.x == t.offset.x * CanvasSize - 0.4 * CanvasSize
    ensures !t.repeat ==> p.y == t.offset.y * CanvasSize - 0.4 * CanvasSize
    ensures !t.repeat ==> p.scaleX == FlipOr1(t.flipX) * t.scale && p.scaleY == FlipOr1(t.flipY) * t.scale
    ensures p.rotation == t.rotation
  {
    if t.repeat then
      var size := PatternSize(t.scale);
      Tiled(size, CanvasDimension(size, 300), CanvasDimension(size, 150),
            t.offset.x * CanvasSize, t.offset.y * CanvasSize,
            t.rotation, FlipOr1(t.flipX), FlipOr1(t.flipY))
    else
      var imgSize := CanvasSize * 0.8;
      Single(-imgSize / 2.0 + t.offset.x * CanvasSize, -imgSize / 2.0 + t.offset.y * CanvasSize,
             imgSize, imgSize, t.rotation, FlipOr1(t.flipX) * t.scale, FlipOr1(t.flipY) * t.scale)
  }

  /** The draw step of a paintable layer: its image at its own opacity. */
  function StepOf(layer: Layer): (s: DrawStep)
    requires layer.texture.Some?
    ensures s.layerId == layer.id && s.image == layer.texture.value && s.alpha == layer.opacity
  {
    DrawStep(layer.id, layer.texture.value, layer.opacity, PlacementOf(layer.transformations))
  }

  /** The draw steps of a composite, bottom first: the list is walked from its
      last layer to its first, so the first layer is painted last (on top). */
  function DrawPlan(layers: seq<Layer>): (plan: seq<DrawStep>)
    ensures |plan| <= |layers|
  {
    if layers == [] then []
    else DrawPlan(layers[1..]) + (if Paintable(layers[0]) then [StepOf(layers[0])] else [])
  }

  /** Painting order reverses the store order: a plan for `a + b` paints all
      of `b` before all of `a`. */
  lemma {:induction false} DrawPlanAppend(a: seq<Layer>, b: seq<Layer>)
    ensures DrawPlan(a + b) == DrawPlan(b) + DrawPlan(a)
  {
    if a == [] {
      assert a + b == b;
    } else {
      var ab := a + b;
      assert ab[0] == a[0];
      assert ab[1..] == a[1..] + b;
      var top: seq<DrawStep> := if Paintable(a[0]) then [StepOf(a[0])] else [];
      calc {
        DrawPlan(ab);
        DrawPlan(a[1..] + b) + top;
        { DrawPlanAppend(a[1..], b); }
        (DrawPlan(b) + DrawPlan(a[1..])) + top;
        DrawPlan(b) + (DrawPlan(a[1..]) + top);
        DrawPlan(b) + DrawPlan(a);
      }
    }
  }

  /** The first layer, when paintable, is the last one drawn (the top). */
  lemma TopLayerDrawnLast(layers: seq<Layer>)
    requires |layers| > 0 && Paintable(layers[0])
    ensures var plan := DrawPlan(layers); |plan| > 0 && plan[|plan| - 1] == StepOf(layers[0])
  {
  }

  /** A layer that is hidden or has no image does not affect the plan. */
  lemma SkippedLayerIrrelevant(a: seq<Layer>, l: Layer, b: seq<Layer>)
    requires !Paintable(l)
    ensures DrawPlan(a + [l] + b) == DrawPlan(a + b)
  {
    DrawPlanAppend(a + [l], b);
    DrawPlanAppend(a, [l]);
    DrawPlanAppend(a, b);
    assert DrawPlan([l]) == [];
  }

  /** Exchanging two adjacent paintable layers (what `moveLayer` does)
      exchanges the order in which they are painted, and nothing else. */
  lemma AdjacentSwapReordersPaint(a: seq<Layer>, x: Layer, y: Layer, b: seq<Layer>)
    requires Paintable(x) && Paintable(y)
    ensures DrawPlan(a + [x, y] + b) == DrawPlan(b) + [StepOf(y), StepOf(x)] + DrawPlan(a)
    ensures DrawPlan(a + [y, x] + b) == DrawPlan(b) + [StepOf(x), StepOf(y)] + DrawPlan(a)
  {
    PairPlan(x, y);
    PairPlan(y, x);
    DrawPlanAppend(a + [x, y], b);
    DrawPlanAppend(a, [x, y]);
    DrawPlanAppend(a + [y, x], b);
    DrawPlanAppend(a, [y, x]);
  }

  /** A layer's own step sits between the steps of the layers after it and
      those of the layers before it. */
  lemma PlanAroundLayer(a: seq<Layer>, l: Layer, b: seq<Layer>)
    ensures DrawPlan(a + [l] + b) == DrawPlan(b) + (if Paintable(l) then [StepOf(l)] else []) + DrawPlan(a)
  {
    var own: seq<DrawStep> := if Paintable(l) then [StepOf(l)] else [];
    assert DrawPlan([l]) == own by {
      assert [l][1..] == [];
    }
    calc {
      DrawPlan(a + [l] + b);
      { DrawPlanAppend(a + [l], b); }
      DrawPlan(b) + DrawPlan(a + [l]);
      { DrawPlanAppend(a, [l]); }
      DrawPlan(b) + (own + DrawPlan(a));
    }
  }

  /** Marking a layer active changes nothing in the painting: neither
      `Paintable` nor `StepOf` reads the flag. */
  lemma ActivateHeadKeepsPlan(layers: seq<Layer>)
    requires |layers| > 0
    ensures DrawPlan(layers[0 := layers[0].(isActive := true)]) == DrawPlan(layers)
  {
    var r := layers[0 := layers[0].(isActive := true)];
    assert r[1..] == layers[1..];
  }

  /** Deleting a layer whose id no other layer carries removes its own draw
      step (see `PlanAroundLayer`) and keeps the painting order of all the
      others, also when the deleted layer was active and the first remaining
      layer takes over. */
  lemma DeleteKeepsPaintOrder(a: seq<Layer>, l: Layer, b: seq<Layer>)
    requires forall i :: 0 <= i < |a| ==> a[i].id != l.id
    requires forall i :: 0 <= i < |b| ==> b[i].id != l.id
    ensures DrawPlan(TextureLayerManager.DeleteLayer(a + [l] + b, l.id)) == DrawPlan(b) + DrawPlan(a)
  {
    TextureLayerManager.DeleteUniqueLayer(a, l, b);
    if l.isActive && |a + b| > 0 {
      ActivateHeadKeepsPlan(a + b);
    }
    DrawPlanAppend(a, b);
  }

  lemma PairPlan(x: Layer, y: Layer)
    requires Paintable(x) && Paintable(y)
    ensures DrawPlan([x, y]) == [StepOf(y), StepOf(x)]
  {
    assert [x, y][1..] == [y];
    assert [y][1..] == [];
  }

  /** The texture repeat: `1 / scale` when the active layer repeats, else 1.
      The caller guarantees a non-zero scale for a repeating active layer. */
  function RepeatFactor(activeLayer: Option<Layer>): (f: real)
    requires activeLayer.Some? && activeLayer.value.transformations.repeat ==>
             activeLayer.value.transformations.scale != 0.0
    ensures activeLayer.Some? && activeLayer.value.transformations.repeat ==>
            f * activeLayer.value.transformations.scale == 1.0
    ensures !(activeLayer.Some? && activeLayer.value.transformations.repeat) ==> f == 1.0
  {
    if activeLayer.Some? && activeLayer.value.transformations.repeat
    then 1.0 / activeLayer.value.transformations.scale
    else 1.0
  }

  /** The `CanvasTexture` made from a composite: repeat wrapping, not flipped,
      repeated `factor` times in both directions. */
  function CompositeTexture(plan: seq<DrawStep>, factor: real): (t: Texture)
    ensures t.source == CanvasSource(plan) && t.hasImage && t.repeatWrap && !t.flipY
    ensures t.repeat == Vec2(factor, factor)
  {
    Texture(CanvasSource(plan), true, NoColorSpace, true, false, false,
            Vec2(factor, factor), Vec2(0.0, 0.0), Vec2(0.0, 0.0), 0.0)
  }

  /** The reversed walk over the layers that fills one canvas. */
  method ComposeCanvas(layers: seq<Layer>) returns (plan: seq<DrawStep>)
    ensures plan == DrawPlan(layers)
  {
    plan := [];
    var j := |layers|;
    while j > 0
      invariant 0 <= j <= |layers|
      invariant plan == DrawPlan(layers[j..])
    {
      j := j - 1;
      assert layers[j..][1..] == layers[j + 1..];
      if Paintable(layers[j]) {
        plan := plan + [StepOf(layers[j])];
      }
    }
    assert layers[0..] == layers;
  }

  /** `updateMaterials()`: every mesh among the texture targets gets a fresh
      overlay material carrying the composite, and render order 1; other
      objects are left alone. */
  method UpdateMaterials(objects: seq<Object3D>, layers: seq<Layer>, activeLayer: Option<Layer>)
    requires activeLayer.Some? && activeLayer.value.transformations.repeat ==>
             activeLayer.value.transformations.scale != 0.0
    modifies set o | o in objects
    ensures forall o :: o in objects && o.isMesh ==>
              o.material == PhysicalOverlay(Some(CompositeTexture(DrawPlan(layers), RepeatFactor(activeLayer))))
              && o.renderOrder == 1
    ensures forall o :: o in objects && !o.isMesh ==> unchanged(o)
    ensures forall o :: o in objects ==>
              o.isMesh == old(o.isMesh) && o.name == old(o.name) && o.isImported == old(o.isImported) &&
              o.castShadow == old(o.castShadow) && o.receiveShadow == old(o.receiveShadow)
  {
    var i := 0;
    while i < |objects|
      invariant 0 <= i <= |objects|
      invariant forall o :: o in objects[..i] && o.isMesh ==>
                  o.material == PhysicalOverlay(Some(CompositeTexture(DrawPlan(layers), RepeatFactor(activeLayer))))
                  && o.renderOrder == 1
      invariant forall o :: o in objects && o !in objects[..i] ==> unchanged(o)
      invariant forall o :: o in objects && !o.isMesh ==> unchanged(o)
      invariant forall o :: o in objects ==>
                  o.isMesh == old(o.isMesh) && o.name == old(o.name) && o.isImported == old(o.isImported) &&
                  o.castShadow == old(o.castShadow) && o.receiveShadow == old(o.receiveShadow)
    {
      var obj := objects[i];
      if obj.isMesh {
        var plan := ComposeCanvas(layers);
        var texture := CompositeTexture(plan, RepeatFactor(activeLayer));
        obj.material := PhysicalOverlay(Some(texture));
        obj.renderOrder := 1;
      }
      assert objects[..i + 1] == objects[..i] + [obj];
      i := i + 1;
    }
    assert objects[..i] == objects;
  }
}
