/** The probe fired to open a portal at a distance: `PortalProjectile`. */
module Projectiles {
  import opened Wrappers
  import opened Geometry
  import opened Grid
  import opened Directions
  import opened Gates

  /** The controller's defaults: a 5 by 5 probe moving 10 pixels per frame. */
  const DefaultSize: nat := 5
  const DefaultSpeed: int := 10

  /** The value of a projectile: its rectangle, travel direction, colour and speed. */
  datatype Shot = Shot(rect: Rect, direction: Direction, kind: PortalType, speed: int)

  /**
   * The starting rectangle of a `w` by `h` probe fired from `source` in direction `d`:
   * centred on the source, then pushed half the source's width (sideways) or height
   * (up or down) in the travel direction.
   */
  function Launch(source: Rect, d: Direction, w: nat, h: nat): (r: Rect)
    ensures r.w == w && r.h == h
    ensures CenterX(r) == CenterX(source) + DX(d) * (source.w / 2)
    ensures CenterY(r) == CenterY(source) + DY(d) * (source.h / 2)
  {
    var centred := WithCenterY(WithCenterX(Rect(0, 0, w, h), CenterX(source)), CenterY(source));
    var xOffset, yOffset := source.w / 2, source.h / 2;
    match d
    case Left => WithCenterX(centred, CenterX(centred) - xOffset)
    case Right => WithCenterX(centred, CenterX(centred) + xOffset)
    case Up => WithCenterY(centred, CenterY(centred) - yOffset)
    case Down => WithCenterY(centred, CenterY(centred) + yOffset)
  }

  /** One `update`: the centre moves `speed` pixels along the travel direction's axis. */
  function Stepped(r: Rect, d: Direction, speed: int): (r': Rect)
    ensures r'.w == r.w && r'.h == r.h
    ensures CenterX(r') == CenterX(r) + DX(d) * speed
    ensures CenterY(r') == CenterY(r) + DY(d) * speed
    ensures r'.x == r.x + DX(d) * speed && r'.y == r.y + DY(d) * speed
  {
    match d
    case Left => WithCenterX(r, CenterX(r) - speed)
    case Right => WithCenterX(r, CenterX(r) + speed)
    case Up => WithCenterY(r, CenterY(r) - speed)
    case Down => WithCenterY(r, CenterY(r) + speed)
  }

  /** With a non-zero speed, one update changes exactly one of the two centre coordinates. */
  lemma StepMovesOneAxis(r: Rect, d: Direction, speed: int)
    requires speed != 0
    ensures (CenterX(Stepped(r, d, speed)) == CenterX(r)) != (CenterY(Stepped(r, d, speed)) == CenterY(r))
  {
  }

  /** `n` consecutive updates. */
  function Steps(r: Rect, d: Direction, speed: int, n: nat): Rect {
    if n == 0 then r else Stepped(Steps(r, d, speed, n - 1), d, speed)
  }

  /** `is_off_screen`: past the left or top edge, or more than its own size past the right or bottom edge. */
  predicate OffScreen(r: Rect, l: Layout) {
    r.x < 0 || r.y < 0 || r.x > l.width + r.w || r.y > l.height + r.h
  }

  /**
   * A probe whose corner is on the screen is never off screen, and one past the left or
   * top edge always is, whatever its size.
   */
  lemma OffScreenEdges(r: Rect, l: Layout)
    ensures 0 <= r.x <= l.width && 0 <= r.y <= l.height ==> !OffScreen(r, l)
    ensures r.x < 0 || r.y < 0 ==> OffScreen(r, l)
  {
  }

  /** After `n` updates the probe has moved `n * speed` pixels along one axis and kept its size. */
  lemma {:induction false} StepsDisplace(r: Rect, d: Direction, speed: int, n: nat)
    ensures Steps(r, d, speed, n) == Rect(r.x + n * (DX(d) * speed), r.y + n * (DY(d) * speed), r.w, r.h)
  {
    if n > 0 {
      StepsDisplace(r, d, speed, n - 1);
      var prev := Steps(r, d, speed, n - 1);
      var a, b := DX(d) * speed, DY(d) * speed;
      assert Steps(r, d, speed, n) == Stepped(prev, d, speed);
      Distribute(n, a);
      Distribute(n, b);
    }
  }

  lemma Distribute(n: int, a: int)
    ensures (n - 1) * a + a == n * a
  {
  }

  function Abs(v: int): nat { if v < 0 then -v else v }

  /** A number of updates after which a probe moving in direction `d` is off screen. */
  function FlightBound(r: Rect, d: Direction, l: Layout): nat {
    match d
    case Left => Abs(r.x) + 1
    case Up => Abs(r.y) + 1
    case Right => Abs(l.width + r.w - r.x) + 1
    case Down => Abs(l.height + r.h - r.y) + 1
  }

  /** A probe with positive speed that hits nothing leaves the screen within `FlightBound` updates. */
  lemma EventuallyOffScreen(r: Rect, d: Direction, speed: int, l: Layout)
    requires 0 < speed
    ensures OffScreen(Steps(r, d, speed, FlightBound(r, d, l)), l)
  {
    var n := FlightBound(r, d, l);
    StepsDisplace(r, d, speed, n);
    AtLeastOnce(n, speed);
    var m := n * speed;
    assert n * (DX(d) * speed) == DX(d) * m && n * (DY(d) * speed) == DY(d) * m by {
      match d
      case Left => Negate(n, speed);
      case Right =>
      case Up => Negate(n, speed);
      case Down =>
    }
  }

  lemma AtLeastOnce(n: nat, speed: int)
    requires 0 < speed
    ensures n * speed >= n
  {
    assert n * speed - n == n * (speed - 1);
  }

  lemma Negate(n: int, speed: int)
    ensures n * (-1 * speed) == -1 * (n * speed)
  {
  }

  /** The scenario of a probe fired rightward from x = 100 at speed 10: after 5 updates x = 150. */
  lemma FiveStepsRight(r: Rect)
    requires r.x == 100
    ensures Steps(r, Right, 10, 5).x == 150 && Steps(r, Right, 10, 5).y == r.y
  {
    StepsDisplace(r, Right, 10, 5);
  }

  /** A `PortalProjectile`: only its rectangle changes after construction. */
  class Projectile {
    var rect: Rect
    const direction: Direction
    const kind: PortalType
    const speed: int

    /** Its current value. */
    function Value(): Shot
      reads this
    {
      Shot(rect, direction, kind, speed)
    }

    constructor (source: Rect, direction: Direction, kind: PortalType, w: nat, h: nat, speed: int)
      ensures rect == Launch(source, direction, w, h)
      ensures this.direction == direction && this.kind == kind && this.speed == speed
    {
      rect := Launch(source, direction, w, h);
      this.direction := direction;
      this.kind := kind;
      this.speed := speed;
    }

    /** `update`: one step of flight. */
    method Update()
      modifies this
      ensures rect == Stepped(old(rect), direction, speed)
    {
      match direction
      case Left => rect := WithCenterX(rect, CenterX(rect) - speed);
      case Right => rect := WithCenterX(rect, CenterX(rect) + speed);
      case Up => rect := WithCenterY(rect, CenterY(rect) - speed);
      case Down => rect := WithCenterY(rect, CenterY(rect) + speed);
    }

    /** `is_off_screen`. */
    predicate IsOffScreen(l: Layout)
      reads this
    {
      OffScreen(rect, l)
    }
  }

  /** The value held in a projectile slot. */
  function SlotValue(p: Projectile?): Option<Shot>
    reads p
  {
    if p == null then None else Some(p.Value())
  }
}
