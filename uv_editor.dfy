/** The pointer-driven transform editor shown over the UV map: a small state
    machine (idle or dragging, with a move, rotate or scale tool) that keeps a
    pixel-space transform and publishes it, normalised to the canvas size, to
    the layer store. The trigonometry of the rotate and scale tools is taken
    as input: the angle swept since the last pointer event (in degrees) and
    the ratio of the current to the previous distance from the centre. */
module UVEditor {
  import opened Common
  import opened LayerModel
  import opened TextureContext

  datatype Tool = MoveTool | RotateTool | ScaleTool

  /** The editor's pixel-space transform. */
  datatype EditorTransform = EditorTransform(x: real, y: real, scale: real, rotation: real, flipX: real, flipY: real)

  const InitialTransform := EditorTransform(0.0, 0.0, 1.0, 0.0, 1.0, 1.0)

  /** The canvas's bounding client rectangle. */
  datatype Rect = Rect(left: real, top: real, width: real, height: real)

  /** A call of `onTransformChange(layerId, kind, value)`. */
  datatype Publication = Publication(layerId: int, kind: string, value: Transformations)

  const MinScale: real := 0.1
  const MaxScale: real := 5.0

  /** Pointer position relative to the canvas's top-left corner. */
  function Relative(client: Vec2, rect: Rect): (p: Vec2)
    ensures p.x + rect.left == client.x && p.y + rect.top == client.y
  {
    Vec2(client.x - rect.left, client.y - rect.top)
  }

  /** The move tool: the pointer delta is added to the position. */
  function MoveStep(t: EditorTransform, dx: real, dy: real): (r: EditorTransform)
    ensures r.x - t.x == dx && r.y - t.y == dy
    ensures r.scale == t.scale && r.rotation == t.rotation && r.flipX == t.flipX && r.flipY == t.flipY
  {
    t.(x := t.x + dx, y := t.y + dy)
  }

  /** The rotate tool: the swept angle is added and the sum reduced with the
      truncating `% 360`. */
  function RotateStep(t: EditorTransform, deltaAngle: real): (r: EditorTransform)
    ensures -360.0 < r.rotation < 360.0
    ensures t.rotation + deltaAngle >= 0.0 ==> r.rotation >= 0.0
    ensures t.rotation + deltaAngle <= 0.0 ==> r.rotation <= 0.0
    ensures -360.0 < t.rotation + deltaAngle < 360.0 ==> r.rotation == t.rotation + deltaAngle
    ensures (t.rotation + deltaAngle) - r.rotation == Trunc((t.rotation + deltaAngle) / 360.0) as real * 360.0
    ensures r.x == t.x && r.y == t.y && r.scale == t.scale && r.flipX == t.flipX && r.flipY == t.flipY
  {
    t.(rotation := Rem360(t.rotation + deltaAngle))
  }

  /** The scale tool: the scale is multiplied by the distance ratio and
      clamped to [0.1, 5]. */
  function ScaleStep(t: EditorTransform, ratio: real): (r: EditorTransform)
    ensures MinScale <= r.scale <= MaxScale
    ensures MinScale <= t.scale * ratio <= MaxScale ==> r.scale == t.scale * ratio
    ensures t.scale * ratio > MaxScale ==> r.scale == MaxScale
    ensures t.scale * ratio < MinScale ==> r.scale == MinScale
    ensures r.x == t.x && r.y == t.y && r.rotation == t.rotation && r.flipX == t.flipX && r.flipY == t.flipY
  {
    t.(scale := Clamp(MinScale, MaxScale, t.scale * ratio))
  }

  /** The transform after one handled pointer move with `tool`. */
  function ToolStep(t: EditorTransform, tool: Tool, delta: Vec2, deltaAngle: real, ratio: real): EditorTransform {
    match tool
    case MoveTool => MoveStep(t, delta.x, delta.y)
    case RotateTool => RotateStep(t, deltaAngle)
    case ScaleTool => ScaleStep(t, ratio)
  }

  /** `handleFlip(axis)`: one flip sign is negated. */
  function Flipped(t: EditorTransform, horizontal: bool): (r: EditorTransform)
    ensures horizontal ==> r.flipX == -t.flipX && r.flipY == t.flipY
    ensures !horizontal ==> r.flipY == -t.flipY && r.flipX == t.flipX
    ensures r.x == t.x && r.y == t.y && r.scale == t.scale && r.rotation == t.rotation
  {
    if horizontal then t.(flipX := t.flipX * -1.0) else t.(flipY := t.flipY * -1.0)
  }

  /** The value sent to the store: the position divided by the canvas size,
      everything else as is, with the editor's repeat flag. */
  function Normalized(t: EditorTransform, repeat: bool, rect: Rect): (v: Transformations)
    requires rect.width > 0.0 && rect.height > 0.0
    ensures v.offset.x * rect.width == t.x && v.offset.y * rect.height == t.y
    ensures v.scale == t.scale && v.rotation == t.rotation && v.repeat == repeat
    ensures v.flipX == t.flipX && v.flipY == t.flipY
  {
    Transformations(Vec2(t.x / rect.width, t.y / rect.height), t.scale, t.rotation, repeat, t.flipX, t.flipY)
  }

  /** Deltas are incremental: two moves, each measured from the previous
      pointer position, add up to one move by the whole displacement. */
  lemma MovesTelescope(t: EditorTransform, p0: Vec2, p1: Vec2, p2: Vec2)
    ensures MoveStep(MoveStep(t, p1.x - p0.x, p1.y - p0.y), p2.x - p1.x, p2.y - p1.y)
            == MoveStep(t, p2.x - p0.x, p2.y - p0.y)
  {
  }

  /** Flipping the same axis twice restores the transform. */
  lemma FlipTwice(t: EditorTransform, horizontal: bool)
    ensures Flipped(Flipped(t, horizontal), horizontal) == t
  {
  }

  /** The reset transform, published, is the store's identity placement. */
  lemma ResetPublishesIdentity(rect: Rect)
    requires rect.width > 0.0 && rect.height > 0.0
    ensures Normalized(InitialTransform, false, rect) == Identity
  {
  }

  /** A publication received by the store replaces the layer's whole
      placement with the published value. */
  lemma PublicationReplacesPlacement(layers: seq<Layer>, p: Publication, i: int)
    requires 0 <= i < |layers| && layers[i].id == p.layerId
    ensures UpdateTransformation(layers, p.layerId, p.kind, FullPatch(p.value))[i].transformations == p.value
  {
    MergeFull(layers[i].transformations, p.value);
  }

  class Editor {
    var tool: Tool
    var isDragging: bool
    var startPos: Vec2
    var isRepeating: bool
    var transform: EditorTransform

    /** The component's initial state. */
    constructor ()
      ensures tool == MoveTool && !isDragging && startPos == Vec2(0.0, 0.0)
      ensures !isRepeating && transform == InitialTransform
    {
      tool := MoveTool;
      isDragging := false;
      startPos := Vec2(0.0, 0.0);
      isRepeating := false;
      transform := InitialTransform;
    }

    /** A tool button. */
    method SelectTool(t: Tool)
      modifies this
      ensures tool == t
      ensures isDragging == old(isDragging) && startPos == old(startPos)
      ensures isRepeating == old(isRepeating) && transform == old(transform)
    {
      tool := t;
    }

    /** Mouse down: dragging starts at the pointer. */
    method MouseDown(client: Vec2, rect: Rect)
      modifies this
      ensures isDragging && startPos == Relative(client, rect)
      ensures tool == old(tool) && isRepeating == old(isRepeating) && transform == old(transform)
    {
      isDragging := true;
      startPos := Relative(client, rect);
    }

    /** Mouse up and mouse leave: back to idle. */
    method MouseUp()
      modifies this
      ensures !isDragging
      ensures tool == old(tool) && startPos == old(startPos)
      ensures isRepeating == old(isRepeating) && transform == old(transform)
    {
      isDragging := false;
    }

    /** `handleTransform(e)`: ignored unless dragging with an active layer;
        otherwise one tool step, the start point moved to the pointer, and
        the new transform published. */
    method HandleTransform(client: Vec2, rect: Rect, activeLayer: Option<Layer>,
                           deltaAngle: real, ratio: real) returns (pub: Option<Publication>)
      requires rect.width > 0.0 && rect.height > 0.0
      modifies this
      ensures !old(isDragging) || activeLayer.None? ==>
                pub.None? && transform == old(transform) && startPos == old(startPos)
      ensures old(isDragging) && activeLayer.Some? ==>
                var p := Relative(client, rect);
                var delta := Vec2(p.x - old(startPos).x, p.y - old(startPos).y);
                transform == ToolStep(old(transform), tool, delta, deltaAngle, ratio) &&
                startPos == p &&
                pub == Some(Publication(activeLayer.value.id, "transformations", Normalized(transform, isRepeating, rect)))
      ensures tool == old(tool) && isDragging == old(isDragging) && isRepeating == old(isRepeating)
    {
      if !isDragging || activeLayer.None? {
        return None;
      }
      var p := Relative(client, rect);
      var delta := Vec2(p.x - startPos.x, p.y - startPos.y);
      transform := ToolStep(transform, tool, delta, deltaAngle, ratio);
      startPos := p;
      pub := Some(Publication(activeLayer.value.id, "transformations", Normalized(transform, isRepeating, rect)));
    }

    /** `handleFlip(axis)`. The state changes even without an active layer;
        the publication then fails (the source dereferences a null layer),
        which is modelled as no publication. */
    method HandleFlip(horizontal: bool, rect: Rect, activeLayer: Option<Layer>) returns (pub: Option<Publication>)
      requires rect.width > 0.0 && rect.height > 0.0
      modifies this
      ensures transform == Flipped(old(transform), horizontal)
      ensures pub.Some? <==> activeLayer.Some?
      ensures pub.Some? ==> pub.value == Publication(activeLayer.value.id, "transformations", Normalized(transform, isRepeating, rect))
      ensures tool == old(tool) && isDragging == old(isDragging) && startPos == old(startPos) && isRepeating == old(isRepeating)
    {
      transform := Flipped(transform, horizontal);
      if activeLayer.None? {
        return None;
      }
      pub := Some(Publication(activeLayer.value.id, "transformations", Normalized(transform, isRepeating, rect)));
    }

    /** `handleReset()`: identity transform, repeat off, identity published. */
    method HandleReset(activeLayer: Option<Layer>) returns (pub: Option<Publication>)
      modifies this
      ensures transform == InitialTransform && !isRepeating
      ensures pub.Some? <==> activeLayer.Some?
      ensures pub.Some? ==> pub.value == Publication(activeLayer.value.id, "transformations", Identity)
      ensures tool == old(tool) && isDragging == old(isDragging) && startPos == old(startPos)
    {
      transform := InitialTransform;
      isRepeating := false;
      if activeLayer.None? {
        return None;
      }
      pub := Some(Publication(activeLayer.value.id, "transformations", Identity));
    }

    /** `handleRepeatChange(e)`: only the repeat flag changes; the current
        transform is published with the new flag. */
    method HandleRepeatChange(checked: bool, rect: Rect, activeLayer: Option<Layer>) returns (pub: Option<Publication>)
      requires rect.width > 0.0 && rect.height > 0.0
      modifies this
      ensures isRepeating == checked
      ensures pub.Some? <==> activeLayer.Some?
      ensures pub.Some? ==> pub.value == Publication(activeLayer.value.id, "transformations", Normalized(transform, checked, rect))
      ensures tool == old(tool) && isDragging == old(isDragging) && startPos == old(startPos) && transform == old(transform)
    {
      isRepeating := checked;
      if activeLayer.None? {
        return None;
      }
      pub := Some(Publication(activeLayer.value.id, "transformations", Normalized(transform, checked, rect)));
    }
  }
}
