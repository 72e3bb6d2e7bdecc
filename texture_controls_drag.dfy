/** The slider-and-drag texture panel: accumulated ("total") offset, scale and
    rotation that are written to the texture targets, and "current" values
    that only drive the widgets and spring back to zero when a drag ends. The
    rotation is changed by dragging horizontally on a strip. */
module TextureControlsDrag {
  import opened Common
  import opened OffsetPad

  /** The rotation update exactly as written: the sum is shifted by 180,
      reduced with the truncating `% 360` and shifted back. A negative shifted
      sum keeps its sign through `%`, so the result can fall below -180. */
  function NextRotationAsWritten(prev: real, diff: real): (r: real)
    ensures -540.0 < r < 180.0
    ensures prev + diff * 0.1 + 180.0 >= 0.0 ==> -180.0 <= r < 180.0
    ensures prev + diff * 0.1 + 180.0 < 0.0 ==> r <= -180.0
  {
    Rem360(prev + diff * 0.1 + 180.0) - 180.0
  }

  /** The floored remainder by 360, always in [0, 360). */
  function Mod360(a: real): (r: real)
    ensures 0.0 <= r < 360.0
    ensures 0.0 <= a < 360.0 ==> r == a
    ensures a - r == (a / 360.0).Floor as real * 360.0
  {
    a - (a / 360.0).Floor as real * 360.0
  }

  /** The rotation update as intended ("normalise to -180 to 180"): the
      shifted sum reduced with a floored remainder. */
  function NextRotation(prev: real, diff: real): (r: real)
    ensures -180.0 <= r < 180.0
    ensures -180.0 <= prev + diff * 0.1 < 180.0 ==> r == prev + diff * 0.1
  {
    Mod360(prev + diff * 0.1 + 180.0) - 180.0
  }

  /** Both definitions agree whenever the shifted sum is not negative. */
  lemma NextRotationAgrees(prev: real, diff: real)
    requires prev + diff * 0.1 + 180.0 >= 0.0
    ensures NextRotationAsWritten(prev, diff) == NextRotation(prev, diff)
  {
    var a := prev + diff * 0.1 + 180.0;
    var k := Trunc(a / 360.0);
    assert k == (a / 360.0).Floor;
  }

  /** A pointer move one pixel to the left (diff -0.5) from -180 degrees
      leaves the intended range: the as-written update gives -180.05. */
  lemma NextRotationAsWrittenLeavesRange()
    ensures NextRotationAsWritten(-180.0, -0.5) == -180.05
    ensures NextRotation(-180.0, -0.5) == 179.95
  {
    assert Trunc(-0.05 / 360.0) == 0;
    assert (-0.05 / 360.0).Floor == -1;
  }

  /** `(e.clientX - dragStart)`: a missing drag start is coerced to 0. */
  function StartOr0(dragStart: Option<real>): real {
    if dragStart.Some? then dragStart.value else 0.0
  }

  class DragControls {
    var totalOffset: Vec2
    var totalScale: real
    var totalRotation: real
    var currentOffset: Vec2
    var currentScale: real
    var currentRotation: real
    var isDragging: bool
    var dragStart: Option<real>

    /** The accumulated rotation lies within [-180, 180). The methods do
        not require it: the source's own wrap can leave the range, and a
        rotation drag brings any rotation back into it. */
    predicate Valid()
      reads this
    {
      -180.0 <= totalRotation < 180.0
    }

    constructor ()
      ensures Valid()
      ensures totalOffset == Vec2(0.0, 0.0) && totalScale == 1.0 && totalRotation == 0.0
      ensures currentOffset == Vec2(0.0, 0.0) && currentScale == 0.0 && currentRotation == 0.0
      ensures !isDragging && dragStart.None?
    {
      totalOffset := Vec2(0.0, 0.0);
      totalScale := 1.0;
      totalRotation := 0.0;
      currentOffset := Vec2(0.0, 0.0);
      currentScale := 0.0;
      currentRotation := 0.0;
      isDragging := false;
      dragStart := None;
    }

    /** `handleOffsetPadInteraction(e)` */
    method PadInteraction(client: Vec2, rect: PadRect)
      requires rect.width > 0.0 && rect.height > 0.0
      modifies this
      ensures old(Valid()) ==> Valid()
      ensures currentOffset == CurrentOffset(PadPoint(client, rect))
      ensures totalOffset == NudgedOffset(old(totalOffset), PadPoint(client, rect))
      ensures totalScale == old(totalScale) && totalRotation == old(totalRotation)
      ensures currentScale == old(currentScale) && currentRotation == old(currentRotation)
      ensures isDragging == old(isDragging) && dragStart == old(dragStart)
    {
      var p := PadPoint(client, rect);
      currentOffset := CurrentOffset(p);
      totalOffset := NudgedOffset(totalOffset, p);
    }

    /** Mouse down on the pad: dragging starts and the pointer is applied. */
    method PadMouseDown(client: Vec2, rect: PadRect)
      requires rect.width > 0.0 && rect.height > 0.0
      modifies this
      ensures old(Valid()) ==> Valid()
      ensures isDragging
      ensures currentOffset == CurrentOffset(PadPoint(client, rect))
      ensures totalOffset == NudgedOffset(old(totalOffset), PadPoint(client, rect))
      ensures totalScale == old(totalScale) && totalRotation == old(totalRotation)
      ensures currentScale == old(currentScale) && currentRotation == old(currentRotation)
      ensures dragStart == old(dragStart)
    {
      isDragging := true;
      PadInteraction(client, rect);
    }

    /** Mouse move over the pad: applied only while dragging. */
    method PadMouseMove(client: Vec2, rect: PadRect)
      requires rect.width > 0.0 && rect.height > 0.0
      modifies this
      ensures old(Valid()) ==> Valid()
      ensures !old(isDragging) ==> unchanged(this)
      ensures old(isDragging) ==>
                totalOffset == NudgedOffset(old(totalOffset), PadPoint(client, rect)) &&
                currentOffset == CurrentOffset(PadPoint(client, rect))
      ensures totalScale == old(totalScale) && totalRotation == old(totalRotation) && isDragging == old(isDragging)
    {
      if isDragging {
        PadInteraction(client, rect);
      }
    }

    /** Mouse up or leave on the pad, and the window mouse-up after a
        rotation drag: dragging ends. */
    method MouseUp()
      modifies this
      ensures old(Valid()) ==> Valid()
      ensures !isDragging
      ensures totalOffset == old(totalOffset) && totalScale == old(totalScale) && totalRotation == old(totalRotation)
      ensures currentOffset == old(currentOffset) && currentScale == old(currentScale)
      ensures currentRotation == old(currentRotation) && dragStart == old(dragStart)
    {
      isDragging := false;
    }

    /** `handleRotationMouseDown(e)` */
    method RotationMouseDown(clientX: real)
      modifies this
      ensures old(Valid()) ==> Valid()
      ensures isDragging && dragStart == Some(clientX)
      ensures totalOffset == old(totalOffset) && totalScale == old(totalScale) && totalRotation == old(totalRotation)
      ensures currentOffset == old(currentOffset) && currentScale == old(currentScale)
      ensures currentRotation == old(currentRotation)
    {
      isDragging := true;
      dragStart := Some(clientX);
    }

    /** `handleRotationDrag(e)`: ignored unless dragging; otherwise half the
        horizontal movement since the last event drives the strip, a tenth of
        that is added to the rotation, and the drag start follows the
        pointer. */
    method RotationDrag(clientX: real)
      modifies this
      ensures old(isDragging) || old(Valid()) ==> Valid()
      ensures !old(isDragging) ==> unchanged(this)
      ensures old(isDragging) ==>
                var diff := (clientX - StartOr0(old(dragStart))) / 2.0;
                currentRotation == diff &&
                totalRotation == NextRotation(old(totalRotation), diff) &&
                dragStart == Some(clientX)
      ensures totalOffset == old(totalOffset) && totalScale == old(totalScale)
      ensures currentOffset == old(currentOffset) && currentScale == old(currentScale)
      ensures isDragging == old(isDragging)
    {
      if !isDragging {
        return;
      }
      var diff := (clientX - StartOr0(dragStart)) / 2.0;
      currentRotation := diff;
      totalRotation := NextRotation(totalRotation, diff);
      dragStart := Some(clientX);
    }

    /** `handleScaleChange(e)` with the slider's numeric value. */
    method ScaleChange(value: real)
      modifies this
      ensures old(Valid()) ==> Valid()
      ensures totalScale == value && currentScale == value - 1.0
      ensures totalOffset == old(totalOffset) && totalRotation == old(totalRotation)
      ensures currentOffset == old(currentOffset) && currentRotation == old(currentRotation)
      ensures isDragging == old(isDragging) && dragStart == old(dragStart)
    {
      currentScale := value - 1.0;
      totalScale := value;
    }

    /** `handleResetAll()` */
    method ResetAll()
      modifies this
      ensures Valid()
      ensures totalOffset == Vec2(0.0, 0.0) && totalScale == 1.0 && totalRotation == 0.0
      ensures currentOffset == Vec2(0.0, 0.0) && currentScale == 0.0 && currentRotation == 0.0
      ensures isDragging == old(isDragging) && dragStart == old(dragStart)
    {
      totalOffset := Vec2(0.0, 0.0);
      totalScale := 1.0;
      totalRotation := 0.0;
      currentOffset := Vec2(0.0, 0.0);
      currentScale := 0.0;
      currentRotation := 0.0;
    }

    /** The spring-back timer firing: when no drag is in progress the widget
        values return to zero; the accumulated values are kept. */
    method SpringBack()
      modifies this
      ensures old(Valid()) ==> Valid()
      ensures old(isDragging) ==> unchanged(this)
      ensures !old(isDragging) ==> currentOffset == Vec2(0.0, 0.0) && currentScale == 0.0 && currentRotation == 0.0
      ensures totalOffset == old(totalOffset) && totalScale == old(totalScale) && totalRotation == old(totalRotation)
      ensures isDragging == old(isDragging) && dragStart == old(dragStart)
    {
      if !isDragging {
        currentOffset := Vec2(0.0, 0.0);
        currentScale := 0.0;
        currentRotation := 0.0;
      }
    }
  }
}
