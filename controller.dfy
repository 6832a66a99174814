/**
 * `PortalController` and the objects it works on: the maze whose blocks it rewrites, the
 * user it fires from, and the entities it teleports.
 */
module Controller {
  import opened Wrappers
  import opened Geometry
  import opened Grid
  import opened Directions
  import opened Gates
  import opened Projectiles
  import opened PortalRules

  /** The part of the maze the controller uses: its blocks, in group order, and the tile size. */
  class Maze {
    var blocks: seq<Rect>
    const blockSize: TileSize

    constructor (blocks: seq<Rect>, blockSize: TileSize)
      ensures this.blocks == blocks && this.blockSize == blockSize
    {
      this.blocks := blocks;
      this.blockSize := blockSize;
    }
  }

  /** A sprite with a rectangle and, for the user, a facing direction (`None` when standing still). */
  class Actor {
    var rect: Rect
    var direction: Option<Direction>

    constructor (rect: Rect, direction: Option<Direction>)
      ensures this.rect == rect && this.direction == direction
    {
      this.rect := rect;
      this.direction := direction;
    }
  }

  /** The rectangles of a sequence of actors. */
  function RectsOf(actors: seq<Actor>): seq<Rect>
    reads actors
  {
    seq(|actors|, i requires 0 <= i < |actors| reads actors => actors[i].rect)
  }

  /** No actor appears twice. */
  predicate Distinct(actors: seq<Actor>) {
    forall i, j :: 0 <= i < |actors| && 0 <= j < |actors| && i != j ==> actors[i] != actors[j]
  }

  class PortalController {
    const layout: Layout
    const maze: Maze
    const user: Actor
    var bluePortal: Option<Gate>
    var orangePortal: Option<Gate>
    var blueProjectile: Projectile?
    var orangeProjectile: Projectile?
    /** Every cue handed to the sound manager, in order. */
    ghost var cues: seq<Cue>

    /** The controller's state as a value. */
    ghost function View(): Frame
      reads this, maze, blueProjectile, orangeProjectile
    {
      Frame(bluePortal, orangePortal, SlotValue(blueProjectile), SlotValue(orangeProjectile), maze.blocks, cues)
    }

    ghost predicate Valid()
      reads this, maze, blueProjectile, orangeProjectile
    {
      && layout.blockSize == maze.blockSize
      && (blueProjectile != null && orangeProjectile != null ==> blueProjectile != orangeProjectile)
      && Consistent(View(), layout)
    }

    constructor (width: nat, height: nat, user: Actor, maze: Maze)
      ensures Valid()
      ensures layout == Layout(width, height, maze.blockSize) && this.user == user && this.maze == maze
      ensures View() == Frame(None, None, None, None, maze.blocks, [])
    {
      layout := Layout(width, height, maze.blockSize);
      this.maze := maze;
      this.user := user;
      bluePortal, orangePortal := None, None;
      blueProjectile, orangeProjectile := null, null;
      cues := [];
    }

    /** `clear_portals`. */
    method Clear()
      requires Valid()
      modifies this
      ensures Valid()
      ensures View() == Cleared(old(View()))
    {
      bluePortal := None;
      orangePortal := None;
      blueProjectile := null;
      orangeProjectile := null;
    }

    /** `fire_b_portal_projectile` (blue) and `fire_o_portal_projectile` (orange). */
    method Fire(k: PortalType)
      requires Valid()
      modifies this
      ensures Valid()
      ensures View() == Fired(old(View()), k, user.rect, user.direction)
      ensures user.direction.Some? ==> fresh(if k == Blue then blueProjectile else orangeProjectile)
    {
      if user.direction.Some? {
        var p := new Projectile(user.rect, user.direction.value, k, DefaultSize, DefaultSize, DefaultSpeed);
        if k == Blue {
          blueProjectile := p;
        } else {
          orangeProjectile := p;
        }
      }
    }

    /** `create_blue_portal` (blue) and `create_orange_portal` (orange). */
    method CreatePortal(k: PortalType, x: int, y: int, facing: Direction)
      requires Valid()
      modifies this, maze
      ensures Valid()
      ensures View() == PlaceGate(old(View()), k, x, y, facing, layout)
      ensures blueProjectile == old(blueProjectile) && orangeProjectile == old(orangeProjectile)
    {
      var current := if k == Blue then bluePortal else orangePortal;
      if current.Some? {
        var oldX, oldY := current.value.rect.x, current.value.rect.y;
        maze.blocks := maze.blocks + [Rect(oldX, oldY, maze.blockSize, maze.blockSize)];
      }
      var gate := Gate(Rect(x, y, maze.blockSize, maze.blockSize), facing, k);
      if k == Blue {
        bluePortal := Some(gate);
      } else {
        orangePortal := Some(gate);
      }
    }

    /** `collide_portals`. */
    predicate CollidesWithPortals(other: Actor)
      reads this, other
      ensures (NonEmpty(other.rect) && GatesNonEmpty(bluePortal, orangePortal))
                ==> (CollidesWithPortals(other) <==>
                     exists i :: 0 <= i < |Placed(bluePortal, orangePortal)|
                                 && SharePixel(other.rect, Placed(bluePortal, orangePortal)[i].rect))
    {
      CollidesIffTouchesGate(bluePortal, orangePortal, other.rect);
      CollidesPortals(bluePortal, orangePortal, other.rect)
    }

    /** `portables_usable`. */
    predicate PortablesUsable()
      reads this
      ensures PortablesUsable() <==> |Placed(bluePortal, orangePortal)| == 2
    {
      Usable(bluePortal, orangePortal)
    }

    /** One colour's half of `update`; `stop` is the early `return` after a gate hit. */
    method ResolveProjectile(k: PortalType) returns (stop: bool)
      requires Valid()
      modifies this, maze, blueProjectile, orangeProjectile
      ensures Valid()
      ensures (View(), stop) == Resolve(old(View()), k, layout)
      ensures blueProjectile == null || blueProjectile == old(blueProjectile)
      ensures orangeProjectile == null || orangeProjectile == old(orangeProjectile)
    {
      var p := if k == Blue then blueProjectile else orangeProjectile;
      if p == null {
        return false;
      }
      p.Update();
      if CollidesPortals(bluePortal, orangePortal, p.rect) {
        if k == Blue { blueProjectile := null; } else { orangeProjectile := null; }
        return true;
      }
      var collision := FirstOverlap(maze.blocks, p.rect);
      if collision.Some? {
        var b := maze.blocks[collision.value];
        maze.blocks := RemoveAt(maze.blocks, collision.value);
        var facing := Opposite(p.direction);
        if k == Blue { blueProjectile := null; } else { orangeProjectile := null; }
        CreatePortal(k, b.x, b.y, facing);
        cues := cues + [Open];
      } else if p.IsOffScreen(layout) {
        if k == Blue { blueProjectile := null; } else { orangeProjectile := null; }
      }
      stop := false;
    }

    /** `update`: gate animations (no geometric effect), then blue, then orange. */
    method Update()
      requires Valid()
      modifies this, maze, blueProjectile, orangeProjectile
      ensures Valid()
      ensures View() == UpdateFrame(old(View()), layout)
    {
      var stop := ResolveProjectile(Blue);
      if stop {
        return;
      }
      stop := ResolveProjectile(Orange);
    }

    /** The body of `check_portals` for one entity; `moved` tells whether it went through a gate. */
    method TeleportOne(arg: Actor) returns (moved: bool)
      modifies this`cues, arg`rect
      ensures moved <==> Target(bluePortal, orangePortal, old(arg.rect), layout).Some?
      ensures arg.rect == Teleported(bluePortal, orangePortal, old(arg.rect), layout)
      ensures cues == old(cues) + Travels([moved])
    {
      moved := false;
      if bluePortal.Some? && Overlaps(arg.rect, bluePortal.value.rect) && orangePortal.Some? {
        var (x, y) := Exit(orangePortal.value, layout);
        arg.rect := arg.rect.(x := x, y := y);
        cues := cues + [Travel];
        moved := true;
      } else if orangePortal.Some? && Overlaps(arg.rect, orangePortal.value.rect) && bluePortal.Some? {
        var (x, y) := Exit(bluePortal.value, layout);
        arg.rect := arg.rect.(x := x, y := y);
        cues := cues + [Travel];
        moved := true;
      }
    }

    /** The loop of `check_portals`: each entity in turn goes through `TeleportOne`. */
    method TeleportEach(args: seq<Actor>)
      modifies this`cues, set a | a in args :: a`rect
      ensures Distinct(args) ==>
        forall i :: 0 <= i < |args| ==> args[i].rect == Teleported(bluePortal, orangePortal, old(args[i].rect), layout)
      ensures Distinct(args) ==>
        cues == old(cues) + TravelCues(bluePortal, orangePortal, old(RectsOf(args)), layout)
    {
      var blue, orange := bluePortal, orangePortal;
      ghost var before := RectsOf(args);
      ghost var distinct := Distinct(args);
      ghost var flags: seq<bool> := [];
      var i := 0;
      while i < |args|
        invariant 0 <= i <= |args| && |flags| == i
        invariant distinct ==>
          && (forall j :: 0 <= j < i ==> args[j].rect == Teleported(blue, orange, before[j], layout))
          && (forall j :: i <= j < |args| ==> args[j].rect == before[j])
          && (forall j :: 0 <= j < i ==> (flags[j] <==> Target(blue, orange, before[j], layout).Some?))
        invariant cues == old(cues) + Travels(flags)
      {
        assert args[i] in args;
        var moved := TeleportOne(args[i]);
        TravelsSnoc(flags, moved);
        flags := flags + [moved];
        i := i + 1;
      }
      if distinct {
        TravelCuesOfFlags(blue, orange, before, flags, layout);
      }
    }

    /** `check_portals`: teleports each touching entity through the gate pair, one `'travel'` per move. */
    method CheckPortals(args: seq<Actor>)
      requires Valid()
      modifies this`cues, set a | a in args :: a`rect
      ensures Valid()
      ensures View() == old(View()).(cues := cues)
      ensures Distinct(args) ==>
        forall i :: 0 <= i < |args| ==> args[i].rect == Teleported(bluePortal, orangePortal, old(args[i].rect), layout)
      ensures Distinct(args) ==>
        cues == old(cues) + TravelCues(bluePortal, orangePortal, old(RectsOf(args)), layout)
    {
      TeleportEach(args);
    }
  }
}
