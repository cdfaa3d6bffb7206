/** Map and viewport dimensions, the axis-aligned box test shared by every
    subsystem, position clamping and the camera transform. */
module Geometry {

  const MAP_WIDTH: real := 2400.0
  const MAP_HEIGHT: real := 1800.0
  const VIEW_WIDTH: real := 800.0
  const VIEW_HEIGHT: real := 600.0

  /** An axis-aligned box: top-left corner and extent. */
  datatype Box = Box(x: real, y: real, width: real, height: real)

  /** The collision test: strict overlap on both axes. */
  predicate Overlaps(a: Box, b: Box)
  {
    a.x < b.x + b.width && a.x + a.width > b.x &&
    a.y < b.y + b.height && a.y + a.height > b.y
  }

  function Shift(b: Box, dx: real, dy: real): Box
  {
    b.(x := b.x + dx, y := b.y + dy)
  }

  /** A point strictly inside a box. */
  predicate Inside(b: Box, px: real, py: real)
  {
    b.x < px < b.x + b.width && b.y < py < b.y + b.height
  }

  lemma OverlapsSymmetric(a: Box, b: Box)
    ensures Overlaps(a, b) <==> Overlaps(b, a)
  {
  }

  lemma OverlapsTranslationInvariant(a: Box, b: Box, dx: real, dy: real)
    ensures Overlaps(Shift(a, dx, dy), Shift(b, dx, dy)) <==> Overlaps(a, b)
  {
  }

  /** Boxes that only share an edge do not collide. */
  lemma SharedEdgeIsNoCollision(a: Box, b: Box)
    requires b.x == a.x + a.width || b.y == a.y + a.height
    ensures !Overlaps(a, b)
  {
  }

  /** Two boxes that both have no positive width never collide. */
  lemma FlatBoxesNeverCollide(a: Box, b: Box)
    requires a.width <= 0.0 && b.width <= 0.0
    ensures !Overlaps(a, b)
  {
  }

  /** A box of zero width strictly inside a wider box does collide with it. */
  lemma ZeroWidthInsideCollides()
    ensures Overlaps(Box(5.0, 5.0, 0.0, 0.0), Box(0.0, 0.0, 10.0, 10.0))
  {
  }

  lemma CollisionExamples()
    ensures Overlaps(Box(10.0, 10.0, 4.0, 4.0), Box(11.0, 11.0, 40.0, 40.0))
    ensures !Overlaps(Box(0.0, 0.0, 4.0, 4.0), Box(100.0, 100.0, 40.0, 40.0))
  {
  }

  function Max(a: real, b: real): real { if a >= b then a else b }
  function Min(a: real, b: real): real { if a <= b then a else b }

  /** For boxes of positive extent, the test holds exactly when the two boxes
      share an interior point. */
  lemma OverlapsIffCommonPoint(a: Box, b: Box)
    requires a.width > 0.0 && a.height > 0.0 && b.width > 0.0 && b.height > 0.0
    ensures Overlaps(a, b) <==> exists px, py :: Inside(a, px, py) && Inside(b, px, py)
  {
    if Overlaps(a, b) {
      var px := (Max(a.x, b.x) + Min(a.x + a.width, b.x + b.width)) / 2.0;
      var py := (Max(a.y, b.y) + Min(a.y + a.height, b.y + b.height)) / 2.0;
      assert Inside(a, px, py) && Inside(b, px, py);
    }
  }

  /** `Math.max(lo, Math.min(v, hi))`. */
  function Clamp(v: real, lo: real, hi: real): (r: real)
    requires lo <= hi
    ensures lo <= r <= hi
    ensures lo <= v <= hi ==> r == v
    ensures v < lo ==> r == lo
    ensures v > hi ==> r == hi
  {
    Max(lo, Min(v, hi))
  }

  datatype Point = Point(x: real, y: real)

  /** The camera's top-left corner in world coordinates. */
  datatype Camera = Camera(x: real, y: real)

  /** The camera centred on the player, then held inside the map. */
  function CameraFor(px: real, py: real): (c: Camera)
    ensures 0.0 <= c.x <= MAP_WIDTH - VIEW_WIDTH
    ensures 0.0 <= c.y <= MAP_HEIGHT - VIEW_HEIGHT
    ensures VIEW_WIDTH / 2.0 <= px <= MAP_WIDTH - VIEW_WIDTH / 2.0 ==> c.x + VIEW_WIDTH / 2.0 == px
    ensures VIEW_HEIGHT / 2.0 <= py <= MAP_HEIGHT - VIEW_HEIGHT / 2.0 ==> c.y + VIEW_HEIGHT / 2.0 == py
  {
    Camera(Clamp(px - VIEW_WIDTH / 2.0, 0.0, MAP_WIDTH - VIEW_WIDTH),
           Clamp(py - VIEW_HEIGHT / 2.0, 0.0, MAP_HEIGHT - VIEW_HEIGHT))
  }

  function WorldToScreen(c: Camera, w: Point): Point
  {
    Point(w.x - c.x, w.y - c.y)
  }

  function ScreenToWorld(c: Camera, s: Point): Point
  {
    Point(s.x + c.x, s.y + c.y)
  }

  lemma ScreenWorldInverse(c: Camera, p: Point)
    ensures ScreenToWorld(c, WorldToScreen(c, p)) == p
    ensures WorldToScreen(c, ScreenToWorld(c, p)) == p
  {
  }

  /** The player's centre is held at least half its own size away from the
      map border. */
  function ClampToMap(p: Point, width: real, height: real): (r: Point)
    requires 0.0 <= width <= MAP_WIDTH && 0.0 <= height <= MAP_HEIGHT
    ensures width / 2.0 <= r.x <= MAP_WIDTH - width / 2.0
    ensures height / 2.0 <= r.y <= MAP_HEIGHT - height / 2.0
    ensures width / 2.0 <= p.x <= MAP_WIDTH - width / 2.0 ==> r.x == p.x
    ensures height / 2.0 <= p.y <= MAP_HEIGHT - height / 2.0 ==> r.y == p.y
  {
    Point(Clamp(p.x, width / 2.0, MAP_WIDTH - width / 2.0),
          Clamp(p.y, height / 2.0, MAP_HEIGHT - height / 2.0))
  }

  predicate InMap(x: real, y: real)
  {
    0.0 <= x <= MAP_WIDTH && 0.0 <= y <= MAP_HEIGHT
  }
}
