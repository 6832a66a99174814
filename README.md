# Portal mechanic of a maze-chase game, in Dafny

This project models the portal mechanic of a Pac-Man clone and proves properties of it. The
player fires a blue or an orange projectile. When it hits a maze block, that block becomes a
portal (a gate) of its colour. An entity that touches one gate while the other gate exists is
moved to the cell next to the other gate, on the side that gate faces.

The source is `Portal.py`. The model follows its structure:

- `Wrappers`: `Option`. It stands for a `GroupSingle` slot or for a nullable field.
- `Geometry`: integer rectangles with the pygame `Rect` operations the core uses. These are
  the centre properties, `colliderect` (`Overlaps`), `spritecollideany` over a group in
  insertion order (`FirstOverlap`) and `sprite.kill()` (`RemoveAt`).
- `Grid`: the maze layout. Its origin is at (screen width / 5, screen height / 12) and every
  tile is `block_size` pixels wide. The module converts pixels to cells with floor division
  (`get_nearest_col`, `get_nearest_row`) and back (the formula used inside `check_portals`).
- `Directions`: the four directions and the projectile-to-portal direction map (`Opposite`).
- `Gates`: `Portal`, a datatype value that never changes after creation. `Exit` gives where
  a teleported entity lands.
- `Projectiles`: `PortalProjectile`. Its geometry is given as functions (`Launch`, `Stepped`,
  `OffScreen`). The class `Projectile` mutates its rectangle in `Update`.
- `PortalRules`: the controller's whole state as a value (`Frame`), with one function per
  controller operation and the lemmas about them. Functions that only compute (`Resolve`,
  `UpdateFrame`, `Teleported`, `Usable`, `CollidesPortals`) are specified by the lemmas named
  after them in the table below (`Resolve*`, `Update*`, `TeleportedLands`, `UsableIffTwoGates`,
  `CollidesIffTouchesGate`).
- `Controller`: the classes `Maze` (the block group the controller rewrites), `Actor` (the
  user and the teleported sprites) and `PortalController`. Each method of `PortalController`
  is proved to change the state (`View()`) exactly as its `PortalRules` function says.
  `Valid()` is the invariant that every public method requires and keeps: the layout's tile
  size is the maze's, each gate has its slot's colour and is one tile, each projectile has its
  slot's colour, the default size and the default speed, and the two projectile slots never hold
  the same object. The helpers `TeleportOne` and `TeleportEach` do not state `Valid()`; their frame
  (only the cue log and the entities' rectangles) leaves every part of it untouched, and
  `CheckPortals` re-establishes it.

The sound manager is reduced to a ghost log of cues (`'open'`, `'travel'`). Gate animation has
no effect on geometry, so it is left out of `update`.

The model follows the code exactly. Four of its behaviours are easy to miss:

- Firing while a projectile of that colour is in flight replaces it. It is not ignored
  (`Portal.py:139`, `145` assign unconditionally).
- A blue projectile that hits a gate ends `update` with `return`, so the orange projectile does
  not move in that frame (`Portal.py:178`). This is `UpdateBlueHitsGate`.
- A gate is placed with its top-left corner at the hit block's `(x, y)`. It is not centred.
- `clear_portals` does not put blocks back where the gates stood. `UpdateConservesTiles`
  proves that `update` keeps (blocks + gates) constant. `Cleared` keeps the blocks and drops
  both gates, so a clear loses one tile per gate that was placed.

## Model

| member | source | states |
|---|---|---|
| `Directions.Opposite` | Portal.py:127 | the portal direction reverses the projectile direction: both axis steps are negated, so it is never the same direction |
| `Directions.OppositeInvolution` | Portal.py:127 | the map is an involution: l and r swap, u and d swap |
| `Directions.SingleAxis` | Portal.py:79-86 | every direction moves along exactly one axis by one unit |
| `Grid.NearestCol` | Portal.py:44-46 | the column returned is the one whose pixel span contains `x` (floor division) |
| `Grid.NearestRow` | Portal.py:48-50 | the row returned is the one whose pixel span contains `y` |
| `Grid.ColRoundTrip` | Portal.py:233-234 | converting a column to pixels and back gives the same column |
| `Grid.RowRoundTrip` | Portal.py:250-251 | converting a row to pixels and back gives the same row |
| `Grid.ColSnap` | Portal.py:44-46 | pixel to column and back returns `x` exactly when `x` is the left edge of some cell |
| `Geometry.FirstOverlap` | Portal.py:179 | returns the first block the rectangle overlaps, or none when it overlaps no block |
| `Geometry.FirstOverlapFrom` | Portal.py:179 | the same first-match search, starting from a given position |
| `Geometry.OverlapsIffSharePixel` | Portal.py:172-179 | `Overlaps` (`colliderect`) holds whenever the two rectangles cover a common pixel, and for rectangles of positive size only then |
| `Geometry.RemoveAt` | Portal.py:182 | killing one block drops exactly that position and keeps the order of the rest |
| `Geometry.RemoveAtMultiset` | Portal.py:182 | killing a block removes exactly one copy of it from the blocks |
| `Geometry.WithCenterX` | Portal.py:76 | setting `centerx` puts the centre there and keeps the size and `y` |
| `Geometry.WithCenterY` | Portal.py:76 | setting `centery` puts the centre there and keeps the size and `x` |
| `Gates.GateOnCell` | Portal.py:15-50 | for a portal built (`GateAt`) at a cell's corner, `get_nearest_row` / `get_nearest_col` (`Row`, `Col`) give back that cell |
| `Gates.Exit` | Portal.py:222-234 | the landing cell is the gate's cell shifted one cell along its facing, and the landing point is that cell's corner |
| `Gates.AlignedExit` | Portal.py:239-251 | for a gate on a cell, the landing point is the gate's own `(x, y)` plus or minus one tile on its facing axis |
| `Projectiles.Launch` | Portal.py:75-86 | a new projectile has the given size; its centre is the source's centre moved `source.w/2` (for l/r) or `source.h/2` (for u/d) in its direction; the other centre coordinate is unchanged |
| `Projectiles.Stepped` | Portal.py:88-97 | one update moves the centre (and the corner) by `speed` along the direction's axis only, keeping the size |
| `Projectiles.StepMovesOneAxis` | Portal.py:88-97 | with a non-zero speed, an update changes exactly one centre coordinate |
| `Projectiles.StepsDisplace` | Portal.py:88-97 | after `n` updates the projectile has moved `n * speed` along one axis and kept its size |
| `Projectiles.FiveStepsRight` | Portal.py:88-97 | a projectile fired right from x = 100 at speed 10 is at x = 150 after five updates, with `y` unchanged |
| `Projectiles.OffScreenEdges` | Portal.py:99-105 | `OffScreen` (`is_off_screen`, which `Projectile.IsOffScreen` reads off the object) never holds for a corner on the screen and always holds past the left or top edge |
| `Projectiles.EventuallyOffScreen` | Portal.py:99-105 | a projectile with positive speed that hits nothing is off screen after a bounded number of updates |
| `Projectiles.Projectile.constructor` | Portal.py:63-86 | the rectangle is `Launch` of the source; direction, type and speed are the arguments |
| `Projectiles.Projectile.Update` | Portal.py:88-97 | the rectangle becomes `Stepped` of the old one |
| `PortalRules.Cleared` | Portal.py:129-134 | all four slots are empty; blocks and cues are untouched |
| `PortalRules.Fired` | Portal.py:136-146 | with no user direction nothing changes; otherwise the colour's projectile slot holds a new default probe launched from the user in that direction, replacing any old one, and nothing else changes |
| `PortalRules.PlaceGate` | Portal.py:148-166 | the colour's gate is one tile at `(x, y)` with the given facing; a replaced gate's position gets a plain block appended; nothing else changes |
| `PortalRules.Target` | Portal.py:219-237 | an entity moves exactly when both gates exist and it touches one; touching blue leads to orange's exit, touching only orange leads to blue's exit |
| `PortalRules.TravelCues` | Portal.py:236 | `check_portals` logs at most one cue per entity, and every cue is `'travel'` |
| `PortalRules.TravelCuesCount` | Portal.py:219-253 | the number of `'travel'` cues equals the number of entities that are moved |
| `PortalRules.TravelCuesOfFlags` | Portal.py:219-253 | the cues of `check_portals` are one `'travel'` per entity whose moved flag is set, in entity order |
| `PortalRules.TeleportedLands` | Portal.py:220-253 | `Teleported` keeps the entity's size; it moves the entity only when both gates exist and it touches one, and then to a cell corner one cell from the other gate along that gate's facing |
| `PortalRules.UsableIffTwoGates` | Portal.py:208-210 | `Usable` (`portables_usable`) holds exactly when two gates are placed |
| `PortalRules.CollidesIffTouchesGate` | Portal.py:212-215 | `CollidesPortals` (`collide_portals`) holds when the entity covers a pixel of a placed gate, and for rectangles of positive size only then |
| `PortalRules.TeleportNeedsPair` | Portal.py:208-215 | without both gates (`portables_usable`), or without touching a gate (`collide_portals`), the entity does not move |
| `PortalRules.ResolveGateHit` | Portal.py:172-178 | specifies `Resolve`: a projectile that touches either gate after its step is dropped, nothing else changes and `update` returns |
| `PortalRules.ResolveTileHit` | Portal.py:179-186 | specifies `Resolve`: otherwise, on the first block it touches, that block is removed; the colour's gate sits at its `(x, y)` facing opposite the flight; the old gate's tile is re-added; the projectile is gone; `'open'` is logged once; the other colour is untouched |
| `PortalRules.ResolveMiss` | Portal.py:187-189 | specifies `Resolve`: otherwise the projectile is dropped when off screen and kept, one step on, when not; nothing else changes |
| `PortalRules.ResolveConsistent` | Portal.py:172-189 | one colour's step keeps each slot's colour and the gate and probe sizes |
| `PortalRules.ResolveConservesTiles` | Portal.py:179-185 | one colour's step keeps the count of blocks plus gates |
| `PortalRules.ResolveCues` | Portal.py:186 | one colour's step logs nothing or exactly one `'open'` |
| `PortalRules.ResolveKeepsHeading` | Portal.py:172-189 | a step never creates a projectile, and a surviving one keeps its direction, type and speed |
| `PortalRules.UpdateBlueHitsGate` | Portal.py:172-178 | specifies `UpdateFrame`: a blue projectile hitting a gate is dropped and nothing else changes, so the orange projectile is not advanced that frame |
| `PortalRules.UpdateIdle` | Portal.py:168-171 | specifies `UpdateFrame`: with no projectiles `update` changes nothing |
| `PortalRules.UpdateConsistent` | Portal.py:168-206 | `update` keeps each slot's colour and the gate and probe sizes |
| `PortalRules.UpdateConservesTiles` | Portal.py:168-206 | `update` keeps the count of blocks plus gates: a new gate uses up a block, and a replaced gate gives one back |
| `PortalRules.UpdateCues` | Portal.py:168-206 | `update` only appends `'open'` cues, at most two |
| `PortalRules.UpdateKeepsHeading` | Portal.py:168-206 | `update` never launches a projectile, and a surviving one keeps its direction, type and speed |
| `PortalRules.FireConsistent` | Portal.py:136-146 | firing keeps each slot's colour and the probe size and speed |
| `PortalRules.TeleportToAlignedGate` | Portal.py:220-236 | an entity touching blue, with an orange gate on a cell, ends at orange's `(x, y)` moved one tile along orange's facing |
| `PortalRules.NoPairNoTravel` | Portal.py:219-253 | without both gates no entity moves and no `'travel'` is logged |
| `PortalRules.ClearedNeverTeleports` | Portal.py:129-134 | after `clear_portals`, `check_portals` moves nothing and logs nothing |
| `PortalRules.AllTouchingTravel` | Portal.py:219-253 | with both gates, entities that all touch a gate log one `'travel'` each |
| `Controller.PortalController.constructor` | Portal.py:116-127 | starts with no gates, no projectiles, no cues and the maze's blocks |
| `Controller.PortalController.PortablesUsable` | Portal.py:208-210 | holds exactly when both gate slots are filled |
| `Controller.PortalController.CollidesWithPortals` | Portal.py:212-215 | for rectangles of positive size, holds exactly when the entity covers a pixel of a placed gate |
| `Controller.PortalController.Clear` | Portal.py:129-134 | the new state is `Cleared` of the old one |
| `Controller.PortalController.Fire` | Portal.py:136-146 | the new state is `Fired` from the user's rectangle and direction; a new projectile is a fresh object |
| `Controller.PortalController.CreatePortal` | Portal.py:148-166 | the new state is `PlaceGate` of the old one |
| `Controller.PortalController.ResolveProjectile` | Portal.py:172-206 | the new state and the early-return flag are `Resolve` of the old state |
| `Controller.PortalController.Update` | Portal.py:168-206 | the new state is `UpdateFrame` of the old one |
| `Controller.PortalController.TeleportOne` | Portal.py:220-253 | one entity's rectangle becomes `Teleported` of its old one; the returned flag is set exactly when the entity has a `Target`, and `cues` grows by one `'travel'` exactly then; it may change nothing else |
| `Controller.PortalController.TeleportEach` | Portal.py:219-253 | for distinct entities, each rectangle becomes `Teleported` of its old one and `cues` grows by `TravelCues` of the old rectangles in order; only the cue log and the entities' rectangles may change |
| `Controller.PortalController.CheckPortals` | Portal.py:217-253 | keeps `Valid()`, changes only the cue log of the controller's state, and for distinct entities moves each rectangle to `Teleported` of its old one while `cues` grows by `TravelCues` of the old rectangles in order |

## Left out

- Sprite loading and animation (`ImageManager`), `blit` and surface fills are rendering. A
  gate's `update` only advances its animation frame, so the model's `update` skips it.
- Sound playback. Only a ghost log of cue names is kept. The sound manager's channel is not modelled.
- `Intro.py` is cut-scene presentation. It is not part of this model.
- `Maze.py` is not part of this model. A `Block(x, y, w, h, image)` is taken to have the
  rectangle `(x, y, w, h)`. The maze's block group is a sequence in insertion order.
- pygame internals. `colliderect` is the plain interval formula. pygame 2 also says that a
  rectangle of zero width or height collides with nothing; that rule is not modelled. Gates and
  probes always have positive size (`Valid()`). Maze blocks and teleported entities are not
  required to, and for a zero-width or zero-height block or entity the model's `Overlaps` can hold
  where pygame 2 reports no collision (for example an entity `(5, 5, 0, 3)` against a gate at
  `(0, 0)` of size 10 is teleported here). `OverlapsIffSharePixel` states where the two agree.
  Coordinates are unbounded integers, not pygame's 32-bit C ints. Widths and heights are
  natural numbers, so `int(w * 0.5)` is `w / 2`.
- Directions are a closed enum. The source's fallback of treating any other tag as "down",
  and the `KeyError` an unknown tag would raise in the direction map, cannot arise.
- `portables_usable` and `collide_portals` return truthy objects in the source. Here they
  return `bool` (`PortalController.PortablesUsable`, `PortalController.CollidesWithPortals`).
- Controller.PortalController.CheckPortals: rectangles and cues are specified only when the
  entities passed are distinct objects. With a sprite passed twice, the source processes it
  twice and the second pass sees the first move; the method does the same, but its contract
  says nothing about that case.
- Controller.PortalController.TeleportEach: the loop of `CheckPortals`, specified for distinct
  entities only, for the same reason.
