/** The viewer's event handling: which meshes can be selected, which receive
    the uploaded logo texture, how that texture is put on them, the colour of
    the selected-part label over a background colour, and the selection
    changes made by clicks, the Escape key and switching models. The scene is
    given as its nodes in traversal order; a click is given as the nodes the
    ray hit, nearest first. */
module EventHandling {
  import opened Common
  import opened Scene

  /** A mesh that receives the uploaded texture. */
  predicate IsTextureTarget(o: Object3D)
    reads o
  {
    o.isMesh && IsTextureTargetName(o.name)
  }

  /** `isSelectableObject(object)`: an imported mesh that is not a texture
      target and not a shadow catcher. */
  predicate IsSelectable(o: Object3D)
    reads o
  {
    o.isMesh && !Includes(o.name, "Fronttex") && !Includes(o.name, "Backtex") &&
    o.material.kind != ShadowMaterial && o.isImported
  }

  /** No texture target can be selected, and every selectable node is an
      imported mesh. */
  lemma TargetsNotSelectable(o: Object3D)
    ensures IsTextureTarget(o) ==> !IsSelectable(o)
    ensures IsSelectable(o) ==> o.isMesh && o.isImported && o.material.kind != ShadowMaterial
  {
  }

  /** The texture targets among `objs`, in order. */
  function TextureTargets(objs: seq<Object3D>): (r: seq<Object3D>)
    reads set o | o in objs
    ensures forall i :: 0 <= i < |r| ==> r[i] in objs && IsTextureTarget(r[i])
    ensures forall i :: 0 <= i < |objs| && IsTextureTarget(objs[i]) ==> objs[i] in r
    ensures |r| <= |objs|
  {
    if objs == [] then []
    else
      var n := |objs| - 1;
      TextureTargets(objs[..n]) + if IsTextureTarget(objs[n]) then [objs[n]] else []
  }

  /** Filtering keeps traversal order: targets found in a prefix come first. */
  lemma {:induction false} TextureTargetsAppend(a: seq<Object3D>, b: seq<Object3D>)
    ensures TextureTargets(a + b) == TextureTargets(a) + TextureTargets(b)
    decreases |b|
  {
    if b == [] {
      assert a + b == a;
    } else {
      var n := |b| - 1;
      assert (a + b)[..|a + b| - 1] == a + b[..n];
      TextureTargetsAppend(a, b[..n]);
    }
  }

  /** The uploaded texture as the targets show it: centred for scaling. */
  function Centred(t: Texture): (u: Texture)
    ensures u.center == Vec2(0.5, 0.5)
    ensures u.source == t.source && u.repeat == t.repeat && u.offset == t.offset && u.rotation == t.rotation
    ensures u.colorSpace == t.colorSpace && u.flipY == t.flipY
  {
    t.(center := Vec2(0.5, 0.5))
  }

  /** The material a texture target gets: a transparent, front-side standard
      material with alpha test 0.1 whose colour map is the centred texture. */
  function TargetMaterial(t: Texture): (m: Material)
    ensures m.kind == Standard && m.colorMap == Some(Centred(t))
    ensures m.transparent && m.side == FrontSide && m.alphaTest == 0.1
    ensures m.normalMap.None? && m.aoMap.None? && m.roughnessMap.None? && m.metalnessMap.None?
  {
    DefaultMaterial(Standard).(colorMap := Some(Centred(t)), transparent := true, side := FrontSide, alphaTest := 0.1)
  }

  /** Centring the shared texture again does not change the material. */
  lemma TargetMaterialCentred(t: Texture)
    ensures TargetMaterial(Centred(t)) == TargetMaterial(t)
  {
  }

  /** An uploaded texture after the load callback: sRGB and not flipped. */
  function Uploaded(t: Texture): (u: Texture)
    ensures u.colorSpace == SRGBColorSpace && !u.flipY
    ensures u.source == t.source && u.center == t.center && u.repeat == t.repeat
  {
    t.(colorSpace := SRGBColorSpace, flipY := false)
  }

  /** The label colour over a background. */
  datatype LabelColor = Black | White

  /** Relative luminance of a colour given by its components in [0, 1]. */
  function Luminance(r: real, g: real, b: real): real {
    0.2126 * r + 0.7152 * g + 0.0722 * b
  }

  /** `updateModelNameDisplayColor(backgroundColor)`: black on a background
      brighter than one half, white otherwise. */
  function LabelColorFor(r: real, g: real, b: real): (c: LabelColor)
    ensures c == Black <==> Luminance(r, g, b) > 0.5
  {
    if Luminance(r, g, b) > 0.5 then Black else White
  }

  /** A background at least as bright in every component never turns a
      black label white; white gives black and black gives white. */
  lemma LabelColorMonotone(r1: real, g1: real, b1: real, r2: real, g2: real, b2: real)
    requires r1 <= r2 && g1 <= g2 && b1 <= b2
    ensures LabelColorFor(r1, g1, b1) == Black ==> LabelColorFor(r2, g2, b2) == Black
    ensures LabelColorFor(1.0, 1.0, 1.0) == Black && LabelColorFor(0.0, 0.0, 0.0) == White
  {
  }

  /** Index of the first selectable hit, or -1. */
  function FirstSelectableIndex(hits: seq<Object3D>): (k: int)
    reads set o | o in hits
    ensures -1 <= k < |hits|
    ensures k == -1 <==> forall i :: 0 <= i < |hits| ==> !IsSelectable(hits[i])
    ensures k >= 0 ==> IsSelectable(hits[k]) && forall i :: 0 <= i < k ==> !IsSelectable(hits[i])
  {
    if hits == [] then -1
    else if IsSelectable(hits[0]) then 0
    else
      var k := FirstSelectableIndex(hits[1..]);
      if k == -1 then -1 else k + 1
  }

  class EventHandler {
    /** `window.selectedModelPart` */
    var selected: Object3D?
    /** The uploaded logo texture, if any. */
    var loadedTexture: Option<Texture>
    /** The selected-part label. */
    var labelText: string
    var labelColor: LabelColor

    constructor ()
      ensures selected == null && loadedTexture.None?
    {
      selected := null;
      loadedTexture := None;
      labelText := "";
      labelColor := White;
    }

    /** `findTextureObjects()`: the texture targets in traversal order. */
    method FindTextureObjects(sceneObjects: seq<Object3D>) returns (r: seq<Object3D>)
      ensures r == TextureTargets(sceneObjects)
    {
      r := [];
      var i := 0;
      while i < |sceneObjects|
        invariant 0 <= i <= |sceneObjects|
        invariant r == TextureTargets(sceneObjects[..i])
      {
        assert sceneObjects[..i + 1][..i] == sceneObjects[..i];
        if IsTextureTarget(sceneObjects[i]) {
          r := r + [sceneObjects[i]];
        }
        i := i + 1;
      }
      assert sceneObjects[..i] == sceneObjects;
    }

    /** `applyStoredTextureToObjects(objects)`: nothing without an uploaded
        texture; otherwise every object gets the target material and render
        order 1, and the shared texture is centred. */
    method ApplyStoredTextureToObjects(objects: seq<Object3D>)
      modifies this, set o | o in objects
      ensures old(loadedTexture).None? ==> unchanged(this) && forall o :: o in objects ==> unchanged(o)
      ensures old(loadedTexture).Some? ==>
                forall o :: o in objects ==> o.material == TargetMaterial(old(loadedTexture).value) && o.renderOrder == 1
      ensures old(loadedTexture).Some? && objects != [] ==> loadedTexture == Some(Centred(old(loadedTexture).value))
      ensures objects == [] ==> loadedTexture == old(loadedTexture)
      ensures forall o :: o in objects ==>
                o.name == old(o.name) && o.isMesh == old(o.isMesh) && o.isImported == old(o.isImported) &&
                o.castShadow == old(o.castShadow) && o.receiveShadow == old(o.receiveShadow)
      ensures selected == old(selected) && labelText == old(labelText) && labelColor == old(labelColor)
    {
      if loadedTexture.None? {
        return;
      }
      ghost var t := loadedTexture.value;
      var i := 0;
      while i < |objects|
        invariant 0 <= i <= |objects|
        invariant loadedTexture == if i == 0 then Some(t) else Some(Centred(t))
        invariant forall o :: o in objects[..i] ==> o.material == TargetMaterial(t) && o.renderOrder == 1
        invariant forall o :: o in objects ==>
                    o.name == old(o.name) && o.isMesh == old(o.isMesh) && o.isImported == old(o.isImported) &&
                    o.castShadow == old(o.castShadow) && o.receiveShadow == old(o.receiveShadow)
        invariant selected == old(selected) && labelText == old(labelText) && labelColor == old(labelColor)
      {
        var obj := objects[i];
        var current := loadedTexture.value;
        obj.material := TargetMaterial(current);
        obj.renderOrder := 1;
        loadedTexture := Some(Centred(current));
        assert objects[..i + 1] == objects[..i] + [obj];
        i := i + 1;
      }
      assert objects[..i] == objects;
    }

    /** The logo upload: a missing or non-image file is rejected and nothing
        changes; otherwise, once the texture has loaded, it is stored (sRGB,
        not flipped) and put on every texture target of the scene. */
    method LogoUpload(file: Option<FileInfo>, loaded: Option<Texture>, sceneObjects: seq<Object3D>)
      modifies this, set o | o in sceneObjects
      ensures !IsImageFile(file) || loaded.None? ==>
                unchanged(this) && forall o :: o in sceneObjects ==> unchanged(o)
      ensures IsImageFile(file) && loaded.Some? ==>
                forall o :: o in old(TextureTargets(sceneObjects)) ==>
                  o.material == TargetMaterial(Uploaded(loaded.value)) && o.renderOrder == 1
      ensures IsImageFile(file) && loaded.Some? ==>
                loadedTexture == Some(if old(TextureTargets(sceneObjects)) == [] then Uploaded(loaded.value)
                                      else Centred(Uploaded(loaded.value)))
      ensures forall o :: o in sceneObjects && o !in old(TextureTargets(sceneObjects)) ==> unchanged(o)
      ensures forall o :: o in sceneObjects ==>
                o.name == old(o.name) && o.isMesh == old(o.isMesh) && o.isImported == old(o.isImported) &&
                o.castShadow == old(o.castShadow) && o.receiveShadow == old(o.receiveShadow)
      ensures selected == old(selected) && labelText == old(labelText) && labelColor == old(labelColor)
    {
      if !IsImageFile(file) {
        return;
      }
      if loaded.None? {
        return;
      }
      loadedTexture := Some(Uploaded(loaded.value));
      var targets := FindTextureObjects(sceneObjects);
      ApplyStoredTextureToObjects(targets);
    }

    /** `updateModelNameDisplay(name)`: the label names the part, in white. */
    method UpdateModelNameDisplay(name: string)
      modifies this
      ensures labelText == "Selected: " + name && labelColor == White
      ensures selected == old(selected) && loadedTexture == old(loadedTexture)
    {
      labelText := "Selected: " + name;
      labelColor := White;
    }

    /** A change of background colour (given by its components). */
    method UpdateModelNameDisplayColor(r: real, g: real, b: real)
      modifies this
      ensures labelColor == LabelColorFor(r, g, b)
      ensures labelText == old(labelText) && selected == old(selected) && loadedTexture == old(loadedTexture)
    {
      labelColor := LabelColorFor(r, g, b);
    }

    /** A key press: Escape clears the selection; other keys do nothing. */
    method KeyDown(key: string)
      modifies this
      ensures key == "Escape" ==> selected == null && labelText == "Selected: None" && labelColor == White
      ensures key != "Escape" ==> unchanged(this)
      ensures loadedTexture == old(loadedTexture)
    {
      if key == "Escape" {
        selected := null;
        UpdateModelNameDisplay("None");
      }
    }

    /** A click on the canvas: ignored over the side panel or controls;
        otherwise the first selectable node the ray hit becomes the
        selection, and a click that hits nothing selectable changes
        nothing. */
    method Click(overPanel: bool, hits: seq<Object3D>)
      modifies this
      ensures overPanel ==> unchanged(this)
      ensures !overPanel && FirstSelectableIndex(hits) == -1 ==> unchanged(this)
      ensures !overPanel && FirstSelectableIndex(hits) >= 0 ==>
                selected == hits[FirstSelectableIndex(hits)] && labelText == "Selected: " + selected.name &&
                labelColor == White
      ensures selected != old(selected) ==> selected != null && IsSelectable(selected)
      ensures loadedTexture == old(loadedTexture)
    {
      if overPanel {
        return;
      }
      var i := 0;
      while i < |hits|
        invariant 0 <= i <= |hits|
        invariant forall j :: 0 <= j < i ==> !IsSelectable(hits[j])
      {
        if IsSelectable(hits[i]) {
          selected := hits[i];
          UpdateModelNameDisplay(hits[i].name);
          return;
        }
        i := i + 1;
      }
    }

    /** A change of model: the selection is cleared and, once the new model
        has loaded, an uploaded texture is put on its texture targets. */
    method ModelChanged(loadSucceeded: bool, sceneObjects: seq<Object3D>)
      modifies this, set o | o in sceneObjects
      ensures selected == null && labelText == "Selected: None"
      ensures loadSucceeded && old(loadedTexture).Some? ==>
                forall o :: o in old(TextureTargets(sceneObjects)) ==>
                  o.material == TargetMaterial(old(loadedTexture).value) && o.renderOrder == 1
      ensures !loadSucceeded || old(loadedTexture).None? ==> forall o :: o in sceneObjects ==> unchanged(o)
      ensures forall o :: o in sceneObjects && o !in old(TextureTargets(sceneObjects)) ==> unchanged(o)
      ensures forall o :: o in sceneObjects ==>
                o.name == old(o.name) && o.isMesh == old(o.isMesh) && o.isImported == old(o.isImported) &&
                o.castShadow == old(o.castShadow) && o.receiveShadow == old(o.receiveShadow)
      ensures loadSucceeded && old(loadedTexture).Some? && old(TextureTargets(sceneObjects)) != [] ==>
                loadedTexture == Some(Centred(old(loadedTexture).value))
      ensures !loadSucceeded || old(TextureTargets(sceneObjects)) == [] ==> loadedTexture == old(loadedTexture)
    {
      selected := null;
      UpdateModelNameDisplay("None");
      if loadSucceeded && loadedTexture.Some? {
        var targets := FindTextureObjects(sceneObjects);
        ApplyStoredTextureToObjects(targets);
      }
    }
  }
}
