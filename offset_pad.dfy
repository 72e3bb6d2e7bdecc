/** The square offset pad shared by both texture-control panels: a pointer
    position is mapped to pad coordinates in [-1, 1] (y pointing up), which
    set the indicator and nudge the accumulated offset. */
module OffsetPad {
  import opened Common

  /** The pad's bounding client rectangle. */
  datatype PadRect = PadRect(left: real, top: real, width: real, height: real)

  predicate Inside(client: Vec2, rect: PadRect) {
    rect.left <= client.x <= rect.left + rect.width && rect.top <= client.y <= rect.top + rect.height
  }

  lemma UnitRatio(a: real, w: real)
    requires w > 0.0 && 0.0 <= a <= w
    ensures 0.0 <= a / w <= 1.0
  {
  }

  /** Pad coordinates of a pointer: x from -1 (left edge) to 1 (right edge),
      y from 1 (top edge) to -1 (bottom edge). */
  function PadPoint(client: Vec2, rect: PadRect): (p: Vec2)
    requires rect.width > 0.0 && rect.height > 0.0
    ensures (p.x + 1.0) * rect.width == 2.0 * (client.x - rect.left)
    ensures (1.0 - p.y) * rect.height == 2.0 * (client.y - rect.top)
  {
    Vec2((client.x - rect.left) / rect.width * 2.0 - 1.0,
         -((client.y - rect.top) / rect.height) * 2.0 + 1.0)
  }

  /** A pointer inside the pad maps into [-1, 1] on both axes. */
  lemma PadPointInRange(client: Vec2, rect: PadRect)
    requires rect.width > 0.0 && rect.height > 0.0 && Inside(client, rect)
    ensures var p := PadPoint(client, rect); -1.0 <= p.x <= 1.0 && -1.0 <= p.y <= 1.0
  {
    UnitRatio(client.x - rect.left, rect.width);
    UnitRatio(client.y - rect.top, rect.height);
  }

  /** The pad's centre maps to the origin. */
  lemma PadCentreIsOrigin(rect: PadRect)
    requires rect.width > 0.0 && rect.height > 0.0
    ensures PadPoint(Vec2(rect.left + rect.width / 2.0, rect.top + rect.height / 2.0), rect) == Vec2(0.0, 0.0)
  {
  }

  /** The y axis is inverted: a pointer lower on the screen gives a smaller y,
      and a pointer further right gives a larger x. */
  lemma PadAxes(c1: Vec2, c2: Vec2, rect: PadRect)
    requires rect.width > 0.0 && rect.height > 0.0
    ensures c1.y < c2.y ==> PadPoint(c1, rect).y > PadPoint(c2, rect).y
    ensures c1.x < c2.x ==> PadPoint(c1, rect).x < PadPoint(c2, rect).x
  {
    var p1 := PadPoint(c1, rect);
    var p2 := PadPoint(c2, rect);
    if c1.y < c2.y {
      assert (p2.y - p1.y) * rect.height == 2.0 * (c1.y - c2.y);
    }
    if c1.x < c2.x {
      assert (p2.x - p1.x) * rect.width == 2.0 * (c2.x - c1.x);
    }
  }

  /** The indicator position for a pad point. */
  function CurrentOffset(p: Vec2): (c: Vec2)
    ensures c.x * 2.0 == p.x && c.y * 2.0 == p.y
  {
    Vec2(p.x * 0.5, p.y * 0.5)
  }

  /** The indicator's CSS position in percent of the pad, `left` and `top`,
      as the panel renders it from the indicator offset. */
  function IndicatorPosition(c: Vec2): Vec2 {
    Vec2((c.x / 0.5 + 1.0) * 50.0, (-c.y / 0.5 + 1.0) * 50.0)
  }

  /** The indicator is drawn under the pointer: its position is the
      pointer's position within the pad, in percent. Inside the pad the
      indicator offset stays within [-0.5, 0.5] on both axes. */
  lemma IndicatorFollowsPointer(client: Vec2, rect: PadRect)
    requires rect.width > 0.0 && rect.height > 0.0
    ensures IndicatorPosition(CurrentOffset(PadPoint(client, rect))) ==
            Vec2((client.x - rect.left) / rect.width * 100.0, (client.y - rect.top) / rect.height * 100.0)
    ensures Inside(client, rect) ==>
              var c := CurrentOffset(PadPoint(client, rect));
              -0.5 <= c.x <= 0.5 && -0.5 <= c.y <= 0.5
  {
    if Inside(client, rect) {
      PadPointInRange(client, rect);
    }
  }

  /** The accumulated offset after one pad event. */
  function NudgedOffset(total: Vec2, p: Vec2): (t: Vec2)
    ensures (t.x - total.x) * 100.0 == p.x && (t.y - total.y) * 100.0 == p.y
  {
    Vec2(total.x + p.x * 0.01, total.y + p.y * 0.01)
  }

  /** One pad event inside the pad moves the accumulated offset by at most
      0.01 on each axis. */
  lemma NudgeBounded(total: Vec2, client: Vec2, rect: PadRect)
    requires rect.width > 0.0 && rect.height > 0.0 && Inside(client, rect)
    ensures var t := NudgedOffset(total, PadPoint(client, rect));
            -0.01 <= t.x - total.x <= 0.01 && -0.01 <= t.y - total.y <= 0.01
  {
    PadPointInRange(client, rect);
  }
}
