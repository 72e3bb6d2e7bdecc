/** The slider-and-number-field texture panel: the same accumulated offset,
    scale and spring-back widget values as the drag panel, with the rotation
    typed into a number field, and the loop that writes the accumulated values
    into the colour map of every texture target. */
module TextureControlsInput {
  import opened Common
  import opened Scene
  import opened OffsetPad

  /** The fields `updateTextureProperties` sets on a target's colour map. */
  function WithSettings(t: Texture, scale: real, rotation: real, offset: Vec2): (u: Texture)
    ensures u.center == Vec2(0.5, 0.5) && u.repeat == Vec2(scale, scale)
    ensures u.rotation == rotation && u.offset == offset
    ensures u.source == t.source && u.colorSpace == t.colorSpace && u.repeatWrap == t.repeatWrap && u.flipY == t.flipY
  {
    t.(center := Vec2(0.5, 0.5), repeat := Vec2(scale, scale), rotation := rotation, offset := offset)
  }

  /** A material after the write: changed only when it has a colour map. */
  function WithMapSettings(m: Material, scale: real, rotation: real, offset: Vec2): (r: Material)
    ensures m.colorMap.None? ==> r == m
    ensures m.colorMap.Some? ==> r == m.(colorMap := Some(WithSettings(m.colorMap.value, scale, rotation, offset)))
  {
    if m.colorMap.Some? then m.(colorMap := Some(WithSettings(m.colorMap.value, scale, rotation, offset))) else m
  }

  /** Writing the same values a second time changes nothing. */
  lemma WithMapSettingsIdempotent(m: Material, scale: real, rotation: real, offset: Vec2)
    ensures WithMapSettings(WithMapSettings(m, scale, rotation, offset), scale, rotation, offset)
            == WithMapSettings(m, scale, rotation, offset)
  {
  }

  /** `parseFloat(e.target.value) || 0`: a number that does not parse (or
      parses to 0) gives 0. */
  function RotationInput(parsed: Option<real>): (r: real)
    ensures parsed.Some? ==> r == parsed.value
    ensures parsed.None? ==> r == 0.0
  {
    if parsed.Some? then parsed.value else 0.0
  }

  class InputControls {
    var totalOffset: Vec2
    var totalScale: real
    var totalRotation: real
    var currentOffset: Vec2
    var currentScale: real
    var isDragging: bool

    constructor ()
      ensures totalOffset == Vec2(0.0, 0.0) && totalScale == 1.0 && totalRotation == 0.0
      ensures currentOffset == Vec2(0.0, 0.0) && currentScale == 0.0 && !isDragging
    {
      totalOffset := Vec2(0.0, 0.0);
      totalScale := 1.0;
      totalRotation := 0.0;
      currentOffset := Vec2(0.0, 0.0);
      currentScale := 0.0;
      isDragging := false;
    }

    /** `handleOffsetPadInteraction(e)` */
    method PadInteraction(client: Vec2, rect: PadRect)
      requires rect.width > 0.0 && rect.height > 0.0
      modifies this
      ensures currentOffset == CurrentOffset(PadPoint(client, rect))
      ensures totalOffset == NudgedOffset(old(totalOffset), PadPoint(client, rect))
      ensures totalScale == old(totalScale) && totalRotation == old(totalRotation)
      ensures currentScale == old(currentScale) && isDragging == old(isDragging)
    {
      var p := PadPoint(client, rect);
      currentOffset := CurrentOffset(p);
      totalOffset := NudgedOffset(totalOffset, p);
    }

    /** Mouse down on the pad: dragging starts and the pointer is applied. */
    method PadMouseDown(client: Vec2, rect: PadRect)
      requires rect.width > 0.0 && rect.height > 0.0
      modifies this
      ensures isDragging
      ensures currentOffset == CurrentOffset(PadPoint(client, rect))
      ensures totalOffset == NudgedOffset(old(totalOffset), PadPoint(client, rect))
      ensures totalScale == old(totalScale) && totalRotation == old(totalRotation) && currentScale == old(currentScale)
    {
      isDragging := true;
      PadInteraction(client, rect);
    }

    /** Mouse move over the pad: applied only while dragging. */
    method PadMouseMove(client: Vec2, rect: PadRect)
      requires rect.width > 0.0 && rect.height > 0.0
      modifies this
      ensures !old(isDragging) ==> unchanged(this)
      ensures old(isDragging) ==>
                totalOffset == NudgedOffset(old(totalOffset), PadPoint(client, rect)) &&
                currentOffset == CurrentOffset(PadPoint(client, rect))
      ensures totalScale == old(totalScale) && totalRotation == old(totalRotation) && isDragging == old(isDragging)
    {
      if isDragging {
        PadInteraction(client, rect);
      }
    }

    /** Mouse up or leave on the pad. */
    method MouseUp()
      modifies this
      ensures !isDragging
      ensures totalOffset == old(totalOffset) && totalScale == old(totalScale) && totalRotation == old(totalRotation)
      ensures currentOffset == old(currentOffset) && currentScale == old(currentScale)
    {
      isDragging := false;
    }

    /** `handleRotationChange(e)`: the typed value is stored as is. */
    method RotationChange(parsed: Option<real>)
      modifies this
      ensures totalRotation == RotationInput(parsed)
      ensures totalOffset == old(totalOffset) && totalScale == old(totalScale)
      ensures currentOffset == old(currentOffset) && currentScale == old(currentScale) && isDragging == old(isDragging)
    {
      totalRotation := RotationInput(parsed);
    }

    /** `handleScaleChange(e)` with the slider's numeric value. */
    method ScaleChange(value: real)
      modifies this
      ensures totalScale == value && currentScale == value - 1.0
      ensures totalOffset == old(totalOffset) && totalRotation == old(totalRotation)
      ensures currentOffset == old(currentOffset) && isDragging == old(isDragging)
    {
      currentScale := value - 1.0;
      totalScale := value;
    }

    /** `handleResetAll()` */
    method ResetAll()
      modifies this
      ensures totalOffset == Vec2(0.0, 0.0) && totalScale == 1.0 && totalRotation == 0.0
      ensures currentOffset == Vec2(0.0, 0.0) && currentScale == 0.0
      ensures isDragging == old(isDragging)
    {
      totalOffset := Vec2(0.0, 0.0);
      totalScale := 1.0;
      totalRotation := 0.0;
      currentOffset := Vec2(0.0, 0.0);
      currentScale := 0.0;
    }

    /** The spring-back timer firing: when no drag is in progress the widget
        values return to zero. */
    method SpringBack()
      modifies this
      ensures old(isDragging) ==> unchanged(this)
      ensures !old(isDragging) ==> currentOffset == Vec2(0.0, 0.0) && currentScale == 0.0
      ensures totalOffset == old(totalOffset) && totalScale == old(totalScale) && totalRotation == old(totalRotation)
      ensures isDragging == old(isDragging)
    {
      if !isDragging {
        currentOffset := Vec2(0.0, 0.0);
        currentScale := 0.0;
      }
    }

    /** `updateTextureProperties()`: every target whose material has a colour
        map gets centre (0.5, 0.5), repeat (scale, scale), the rotation and
        the accumulated offset; targets without a map are left alone. */
    method UpdateTextureProperties(targets: seq<Object3D>)
      modifies set o | o in targets
      ensures forall o :: o in targets ==>
                o.material == WithMapSettings(old(o.material), totalScale, totalRotation, totalOffset)
      ensures forall o :: o in targets ==>
                o.name == old(o.name) && o.isMesh == old(o.isMesh) && o.renderOrder == old(o.renderOrder) &&
                o.isImported == old(o.isImported) && o.castShadow == old(o.castShadow) && o.receiveShadow == old(o.receiveShadow)
    {
      var i := 0;
      while i < |targets|
        invariant 0 <= i <= |targets|
        invariant forall o :: o in targets[..i] ==>
                    o.material == WithMapSettings(old(o.material), totalScale, totalRotation, totalOffset)
        invariant forall o :: o in targets && o !in targets[..i] ==> o.material == old(o.material)
        invariant forall o :: o in targets ==>
                    o.name == old(o.name) && o.isMesh == old(o.isMesh) && o.renderOrder == old(o.renderOrder) &&
                    o.isImported == old(o.isImported) && o.castShadow == old(o.castShadow) && o.receiveShadow == old(o.receiveShadow)
      {
        var target := targets[i];
        if target.material.colorMap.Some? {
          WithMapSettingsIdempotent(old(target.material), totalScale, totalRotation, totalOffset);
          target.material := target.material.(colorMap := Some(WithSettings(target.material.colorMap.value, totalScale, totalRotation, totalOffset)));
        }
        assert targets[..i + 1] == targets[..i] + [target];
        i := i + 1;
      }
      assert targets[..i] == targets;
    }
  }
}
