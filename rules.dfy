/**
 * The portal controller as a value: both gate slots, both projectile slots, the maze's
 * blocks and the log of sound cues, with one function per controller operation.
 */
module PortalRules {
  import opened Wrappers
  import opened Geometry
  import opened Grid
  import opened Directions
  import opened Gates
  import opened Projectiles

  /** The sound cues the controller plays: `'open'` and `'travel'`. */
  datatype Cue = Open | Travel

  /** The controller's state; each slot holds at most one gate or projectile. */
  datatype Frame = Frame(
    blue: Option<Gate>,
    orange: Option<Gate>,
    blueShot: Option<Shot>,
    orangeShot: Option<Shot>,
    blocks: seq<Rect>,
    cues: seq<Cue>)

  function GateOf(f: Frame, k: PortalType): Option<Gate> {
    if k == Blue then f.blue else f.orange
  }

  function ShotOf(f: Frame, k: PortalType): Option<Shot> {
    if k == Blue then f.blueShot else f.orangeShot
  }

  function WithGate(f: Frame, k: PortalType, g: Option<Gate>): Frame {
    if k == Blue then f.(blue := g) else f.(orange := g)
  }

  function WithShot(f: Frame, k: PortalType, s: Option<Shot>): Frame {
    if k == Blue then f.(blueShot := s) else f.(orangeShot := s)
  }

  /** Number of gates placed. */
  function GateCount(f: Frame): nat {
    (if f.blue.Some? then 1 else 0) + (if f.orange.Some? then 1 else 0)
  }

  /** Gates are one tile of their slot's colour; projectiles are default probes of their slot's colour. */
  predicate Consistent(f: Frame, l: Layout) {
    && (f.blue.Some? ==> f.blue.value.kind == Blue && f.blue.value.rect.w == l.blockSize && f.blue.value.rect.h == l.blockSize)
    && (f.orange.Some? ==> f.orange.value.kind == Orange && f.orange.value.rect.w == l.blockSize && f.orange.value.rect.h == l.blockSize)
    && (f.blueShot.Some? ==> f.blueShot.value.kind == Blue && f.blueShot.value.speed == DefaultSpeed
                             && f.blueShot.value.rect.w == DefaultSize && f.blueShot.value.rect.h == DefaultSize)
    && (f.orangeShot.Some? ==> f.orangeShot.value.kind == Orange && f.orangeShot.value.speed == DefaultSpeed
                               && f.orangeShot.value.rect.w == DefaultSize && f.orangeShot.value.rect.h == DefaultSize)
  }

  /** `clear_portals`: all four slots emptied; blocks and cues are left as they are. */
  function Cleared(f: Frame): (r: Frame)
    ensures GateCount(r) == 0 && r.blueShot.None? && r.orangeShot.None?
    ensures r.blocks == f.blocks && r.cues == f.cues
  {
    f.(blue := None, orange := None, blueShot := None, orangeShot := None)
  }

  /**
   * `fire_b_portal_projectile` / `fire_o_portal_projectile`: with no user direction nothing
   * changes; otherwise the colour's projectile slot gets a new probe launched from the user,
   * replacing whatever was in flight.
   */
  function Fired(f: Frame, k: PortalType, user: Rect, dir: Option<Direction>): (r: Frame)
    ensures dir.None? ==> r == f
    ensures dir.Some? ==> ShotOf(r, k) == Some(Shot(Launch(user, dir.value, DefaultSize, DefaultSize), dir.value, k, DefaultSpeed))
    ensures dir.Some? ==> WithShot(r, k, ShotOf(f, k)) == f
  {
    match dir
    case None => f
    case Some(d) => WithShot(f, k, Some(Shot(Launch(user, d, DefaultSize, DefaultSize), d, k, DefaultSpeed)))
  }

  /** The plain blocks put back where a replaced gate stood. */
  function RestoredTiles(g: Option<Gate>, l: Layout): seq<Rect> {
    match g
    case None => []
    case Some(prev) => [Rect(prev.rect.x, prev.rect.y, l.blockSize, l.blockSize)]
  }

  /**
   * `create_blue_portal` / `create_orange_portal`: a previous gate of that colour is replaced
   * and a plain block is appended at its position.
   */
  function PlaceGate(f: Frame, k: PortalType, x: int, y: int, facing: Direction, l: Layout): (r: Frame)
    ensures GateOf(r, k) == Some(GateAt(x, y, facing, k, l))
    ensures r.blocks == f.blocks + RestoredTiles(GateOf(f, k), l)
    ensures GateCount(r) == GateCount(f) + (if GateOf(f, k).Some? then 0 else 1)
    ensures WithGate(r, k, GateOf(f, k)).(blocks := f.blocks) == f
  {
    WithGate(f.(blocks := f.blocks + RestoredTiles(GateOf(f, k), l)), k, Some(GateAt(x, y, facing, k, l)))
  }

  /** `collide_portals`: `r` overlaps the blue or the orange gate. */
  predicate CollidesPortals(blue: Option<Gate>, orange: Option<Gate>, r: Rect) {
    (blue.Some? && Overlaps(r, blue.value.rect)) || (orange.Some? && Overlaps(r, orange.value.rect))
  }

  /** `portables_usable`: both gates are placed. */
  predicate Usable(blue: Option<Gate>, orange: Option<Gate>) {
    blue.Some? && orange.Some?
  }

  /** The gates placed, blue first. */
  function Placed(blue: Option<Gate>, orange: Option<Gate>): seq<Gate> {
    (if blue.Some? then [blue.value] else []) + (if orange.Some? then [orange.value] else [])
  }

  /** `portables_usable` holds exactly when two gates are placed. */
  lemma UsableIffTwoGates(f: Frame)
    ensures Usable(f.blue, f.orange) <==> GateCount(f) == 2
    ensures Usable(f.blue, f.orange) <==> |Placed(f.blue, f.orange)| == 2
  {
  }

  /** Each placed gate covers at least one pixel. */
  predicate GatesNonEmpty(blue: Option<Gate>, orange: Option<Gate>) {
    (blue.Some? ==> NonEmpty(blue.value.rect)) && (orange.Some? ==> NonEmpty(orange.value.rect))
  }

  /**
   * `r` collides with the portals when it covers a pixel of some placed gate, and for
   * rectangles of positive size only then.
   */
  lemma CollidesIffTouchesGate(blue: Option<Gate>, orange: Option<Gate>, r: Rect)
    ensures (exists i :: 0 <= i < |Placed(blue, orange)| && SharePixel(r, Placed(blue, orange)[i].rect))
              ==> CollidesPortals(blue, orange, r)
    ensures (NonEmpty(r) && GatesNonEmpty(blue, orange))
              ==> (CollidesPortals(blue, orange, r) <==>
                   exists i :: 0 <= i < |Placed(blue, orange)| && SharePixel(r, Placed(blue, orange)[i].rect))
  {
    var gs := Placed(blue, orange);
    forall i | 0 <= i < |gs| {
      OverlapsIffSharePixel(r, gs[i].rect);
    }
    if blue.Some? {
      OverlapsIffSharePixel(r, blue.value.rect);
      assert gs[0] == blue.value;
    }
    if orange.Some? {
      OverlapsIffSharePixel(r, orange.value.rect);
      assert gs[|gs| - 1] == orange.value;
    }
  }

  /** A shot after one `update`. */
  function Advance(s: Shot): Shot {
    s.(rect := Stepped(s.rect, s.direction, s.speed))
  }

  /**
   * One colour's part of `update`: step the projectile, then, in this order, discard it on
   * a gate (and report that `update` returns), turn the first overlapped block into a gate,
   * discard it off screen, or keep it in flight.
   */
  function Resolve(f: Frame, k: PortalType, l: Layout): (Frame, bool) {
    match ShotOf(f, k)
    case None => (f, false)
    case Some(s) =>
      var p := Advance(s);
      if CollidesPortals(f.blue, f.orange, p.rect) then (WithShot(f, k, None), true)
      else
        match FirstOverlap(f.blocks, p.rect)
        case Some(i) =>
          var b := f.blocks[i];
          var f1 := WithShot(f.(blocks := RemoveAt(f.blocks, i)), k, None);
          var f2 := PlaceGate(f1, k, b.x, b.y, Opposite(p.direction), l);
          (f2.(cues := f2.cues + [Open]), false)
        case None =>
          if OffScreen(p.rect, l) then (WithShot(f, k, None), false)
          else (WithShot(f, k, Some(p)), false)
  }

  /** `update`: blue first; a blue projectile that hits a gate ends the frame before orange moves. */
  function UpdateFrame(f: Frame, l: Layout): Frame {
    var (f1, stop) := Resolve(f, Blue, l);
    if stop then f1 else Resolve(f1, Orange, l).0
  }

  /**
   * The teleport rule of `check_portals` for one entity: touching the blue gate while an
   * orange gate exists leads to the orange gate's exit; otherwise touching the orange gate
   * while a blue gate exists leads to the blue gate's exit.
   */
  function Target(blue: Option<Gate>, orange: Option<Gate>, r: Rect, l: Layout): (t: Option<(int, int)>)
    ensures t.Some? <==> Usable(blue, orange) && CollidesPortals(blue, orange, r)
    ensures Usable(blue, orange) && Overlaps(r, blue.value.rect) ==> t == Some(Exit(orange.value, l))
    ensures (Usable(blue, orange) && !Overlaps(r, blue.value.rect) && Overlaps(r, orange.value.rect))
              ==> t == Some(Exit(blue.value, l))
  {
    if blue.Some? && Overlaps(r, blue.value.rect) && orange.Some? then Some(Exit(orange.value, l))
    else if orange.Some? && Overlaps(r, orange.value.rect) && blue.Some? then Some(Exit(blue.value, l))
    else None
  }

  /** An entity's rectangle after `check_portals`: moved to the exit, size kept. */
  function Teleported(blue: Option<Gate>, orange: Option<Gate>, r: Rect, l: Layout): Rect {
    match Target(blue, orange, r, l)
    case None => r
    case Some((x, y)) => r.(x := x, y := y)
  }

  /**
   * `check_portals` keeps an entity's size; it moves the entity exactly when both gates exist
   * and it touches one, and then onto a cell corner next to the other gate, on its facing side.
   */
  lemma TeleportedLands(blue: Option<Gate>, orange: Option<Gate>, r: Rect, l: Layout)
    ensures var t := Teleported(blue, orange, r, l);
      && t.w == r.w && t.h == r.h
      && (!(Usable(blue, orange) && CollidesPortals(blue, orange, r)) ==> t == r)
      && ((Usable(blue, orange) && CollidesPortals(blue, orange, r))
            ==> t.x == CellX(NearestCol(t.x, l), l) && t.y == CellY(NearestRow(t.y, l), l))
      && ((Usable(blue, orange) && Overlaps(r, blue.value.rect))
            ==> NearestCol(t.x, l) == Col(orange.value, l) + DX(orange.value.facing)
                && NearestRow(t.y, l) == Row(orange.value, l) + DY(orange.value.facing))
      && ((Usable(blue, orange) && !Overlaps(r, blue.value.rect) && Overlaps(r, orange.value.rect))
            ==> NearestCol(t.x, l) == Col(blue.value, l) + DX(blue.value.facing)
                && NearestRow(t.y, l) == Row(blue.value, l) + DY(blue.value.facing))
  {
  }

  /** The cue `check_portals` plays for one entity: `'travel'` when it is moved. */
  function TravelCue(blue: Option<Gate>, orange: Option<Gate>, r: Rect, l: Layout): seq<Cue> {
    if Target(blue, orange, r, l).Some? then [Travel] else []
  }

  /** The cues `check_portals` plays for entities `rs`: one `'travel'` per entity moved. */
  function TravelCues(blue: Option<Gate>, orange: Option<Gate>, rs: seq<Rect>, l: Layout): (cs: seq<Cue>)
    ensures |cs| <= |rs|
    ensures forall i :: 0 <= i < |cs| ==> cs[i] == Travel
    decreases |rs|
  {
    if rs == [] then []
    else
      TravelCues(blue, orange, rs[..|rs| - 1], l) + TravelCue(blue, orange, rs[|rs| - 1], l)
  }

  /** One `'travel'` per set flag, in order. */
  function Travels(moved: seq<bool>): seq<Cue>
    decreases |moved|
  {
    if moved == [] then []
    else Travels(moved[..|moved| - 1]) + (if moved[|moved| - 1] then [Travel] else [])
  }

  /** The cues for one more flag are appended after those for the flags before it. */
  lemma TravelsSnoc(moved: seq<bool>, b: bool)
    ensures Travels(moved + [b]) == Travels(moved) + Travels([b])
  {
    assert (moved + [b])[..|moved|] == moved;
    assert [b][..0] == [];
  }

  /** `TravelCues` plays the cues of the entities' moved flags. */
  lemma {:induction false} TravelCuesOfFlags(blue: Option<Gate>, orange: Option<Gate>, rs: seq<Rect>, moved: seq<bool>, l: Layout)
    requires |moved| == |rs|
    requires forall j :: 0 <= j < |rs| ==> (moved[j] <==> Target(blue, orange, rs[j], l).Some?)
    ensures TravelCues(blue, orange, rs, l) == Travels(moved)
    decreases |rs|
  {
    if rs != [] {
      var n := |rs| - 1;
      assert forall j :: 0 <= j < n ==> rs[..n][j] == rs[j] && moved[..n][j] == moved[j];
      TravelCuesOfFlags(blue, orange, rs[..n], moved[..n], l);
    }
  }

  /** The entities among `rs` that `check_portals` moves. */
  function MovedIndices(blue: Option<Gate>, orange: Option<Gate>, rs: seq<Rect>, l: Layout): set<int> {
    set i | 0 <= i < |rs| && Target(blue, orange, rs[i], l).Some?
  }

  /** `check_portals` plays exactly one `'travel'` per entity it moves. */
  /** The moved entities of `rs` are those of its front plus, possibly, its last position. */
  lemma MovedIndicesSnoc(blue: Option<Gate>, orange: Option<Gate>, rs: seq<Rect>, l: Layout)
    requires rs != []
    ensures MovedIndices(blue, orange, rs, l)
              == MovedIndices(blue, orange, rs[..|rs| - 1], l)
                 + (if Target(blue, orange, rs[|rs| - 1], l).Some? then {|rs| - 1} else {})
  {
    var n := |rs| - 1;
    assert forall i :: 0 <= i < n ==> rs[..n][i] == rs[i];
  }

  lemma {:induction false} TravelCuesCount(blue: Option<Gate>, orange: Option<Gate>, rs: seq<Rect>, l: Layout)
    ensures |TravelCues(blue, orange, rs, l)| == |MovedIndices(blue, orange, rs, l)|
    decreases |rs|
  {
    if rs != [] {
      var n := |rs| - 1;
      TravelCuesCount(blue, orange, rs[..n], l);
      MovedIndicesSnoc(blue, orange, rs, l);
      var before := MovedIndices(blue, orange, rs[..n], l);
      var last: set<int> := if Target(blue, orange, rs[n], l).Some? then {n} else {};
      assert n !in before;
      assert |before + last| == |before| + |last|;
    }
  }


  function Other(k: PortalType): PortalType {
    if k == Blue then Orange else Blue
  }

  // ----- One colour's step of `update` -----

  /** A projectile that, after its step, touches either gate is dropped and nothing else changes. */
  lemma ResolveGateHit(f: Frame, k: PortalType, l: Layout)
    requires ShotOf(f, k).Some?
    requires CollidesPortals(f.blue, f.orange, Advance(ShotOf(f, k).value).rect)
    ensures Resolve(f, k, l) == (WithShot(f, k, None), true)
  {
  }

  /**
   * A projectile that misses both gates but touches a block: that block is gone, the
   * colour's gate now stands at the block's corner facing back along the flight, the old
   * gate's tile is a block again, the projectile is gone and `'open'` is logged once.
   */
  lemma ResolveTileHit(f: Frame, k: PortalType, l: Layout)
    requires ShotOf(f, k).Some?
    requires !CollidesPortals(f.blue, f.orange, Advance(ShotOf(f, k).value).rect)
    requires FirstOverlap(f.blocks, Advance(ShotOf(f, k).value).rect).Some?
    ensures
      var s := ShotOf(f, k).value;
      var i := FirstOverlap(f.blocks, Advance(s).rect).value;
      var b := f.blocks[i];
      var (r, stop) := Resolve(f, k, l);
      && !stop
      && ShotOf(r, k).None? && ShotOf(r, Other(k)) == ShotOf(f, Other(k))
      && GateOf(r, k) == Some(GateAt(b.x, b.y, Opposite(s.direction), k, l))
      && GateOf(r, Other(k)) == GateOf(f, Other(k))
      && Overlaps(Advance(s).rect, b)
      && r.blocks == RemoveAt(f.blocks, i) + RestoredTiles(GateOf(f, k), l)
      && multiset(r.blocks) == multiset(f.blocks) - multiset{b} + multiset(RestoredTiles(GateOf(f, k), l))
      && r.cues == f.cues + [Open]
  {
    var s := ShotOf(f, k).value;
    var i := FirstOverlap(f.blocks, Advance(s).rect).value;
    RemoveAtMultiset(f.blocks, i);
  }

  /**
   * A projectile that touches nothing is dropped when off screen and otherwise stays in
   * flight one step further on; nothing else changes.
   */
  lemma ResolveMiss(f: Frame, k: PortalType, l: Layout)
    requires ShotOf(f, k).Some?
    requires !CollidesPortals(f.blue, f.orange, Advance(ShotOf(f, k).value).rect)
    requires FirstOverlap(f.blocks, Advance(ShotOf(f, k).value).rect).None?
    ensures
      var p := Advance(ShotOf(f, k).value);
      Resolve(f, k, l) == (WithShot(f, k, if OffScreen(p.rect, l) then None else Some(p)), false)
  {
  }

  /** One colour's step keeps the frame consistent. */
  lemma ResolveConsistent(f: Frame, k: PortalType, l: Layout)
    requires Consistent(f, l)
    ensures Consistent(Resolve(f, k, l).0, l)
  {
    match ShotOf(f, k)
    case None =>
    case Some(s) =>
      if CollidesPortals(f.blue, f.orange, Advance(s).rect) {
        ResolveGateHit(f, k, l);
      } else if FirstOverlap(f.blocks, Advance(s).rect).Some? {
        ResolveTileHit(f, k, l);
      } else {
        ResolveMiss(f, k, l);
      }
  }

  /** Blocks plus gates: a step never loses or gains a tile. */
  lemma ResolveConservesTiles(f: Frame, k: PortalType, l: Layout)
    ensures |Resolve(f, k, l).0.blocks| + GateCount(Resolve(f, k, l).0) == |f.blocks| + GateCount(f)
  {
    if ShotOf(f, k).Some? && !CollidesPortals(f.blue, f.orange, Advance(ShotOf(f, k).value).rect)
       && FirstOverlap(f.blocks, Advance(ShotOf(f, k).value).rect).Some? {
      ResolveTileHit(f, k, l);
    }
  }

  /** A step logs at most one cue, and it is `'open'`. */
  lemma ResolveCues(f: Frame, k: PortalType, l: Layout)
    ensures var r := Resolve(f, k, l).0;
      r.cues == f.cues || r.cues == f.cues + [Open]
  {
  }

  /** A step never creates a projectile and never changes a projectile's direction, colour or speed. */
  lemma ResolveKeepsHeading(f: Frame, k: PortalType, j: PortalType, l: Layout)
    ensures var r := Resolve(f, k, l).0;
      ShotOf(r, j).Some? ==>
        && ShotOf(f, j).Some?
        && ShotOf(r, j).value.direction == ShotOf(f, j).value.direction
        && ShotOf(r, j).value.kind == ShotOf(f, j).value.kind
        && ShotOf(r, j).value.speed == ShotOf(f, j).value.speed
  {
  }

  // ----- The whole `update` -----

  /** A blue projectile that hits a gate is dropped and the frame ends: orange does not move. */
  lemma UpdateBlueHitsGate(f: Frame, l: Layout)
    requires f.blueShot.Some?
    requires CollidesPortals(f.blue, f.orange, Advance(f.blueShot.value).rect)
    ensures UpdateFrame(f, l) == f.(blueShot := None)
  {
    ResolveGateHit(f, Blue, l);
  }

  /** With no projectile in flight `update` changes nothing but animation frames. */
  lemma UpdateIdle(f: Frame, l: Layout)
    requires f.blueShot.None? && f.orangeShot.None?
    ensures UpdateFrame(f, l) == f
  {
  }

  /** `update` keeps the frame consistent. */
  lemma UpdateConsistent(f: Frame, l: Layout)
    requires Consistent(f, l)
    ensures Consistent(UpdateFrame(f, l), l)
  {
    ResolveConsistent(f, Blue, l);
    ResolveConsistent(Resolve(f, Blue, l).0, Orange, l);
  }

  /** `update` keeps the number of blocks plus gates: every gate is a converted block. */
  lemma UpdateConservesTiles(f: Frame, l: Layout)
    ensures |UpdateFrame(f, l).blocks| + GateCount(UpdateFrame(f, l)) == |f.blocks| + GateCount(f)
  {
    ResolveConservesTiles(f, Blue, l);
    ResolveConservesTiles(Resolve(f, Blue, l).0, Orange, l);
  }

  /** `update` logs only `'open'` cues, at most one per colour. */
  lemma UpdateCues(f: Frame, l: Layout)
    ensures var r := UpdateFrame(f, l);
      && |f.cues| <= |r.cues| <= |f.cues| + 2
      && r.cues[..|f.cues|] == f.cues
      && forall i :: |f.cues| <= i < |r.cues| ==> r.cues[i] == Open
  {
    ResolveCues(f, Blue, l);
    ResolveCues(Resolve(f, Blue, l).0, Orange, l);
  }

  /** `update` never launches a projectile, and a surviving one keeps its direction, colour and speed. */
  lemma UpdateKeepsHeading(f: Frame, k: PortalType, l: Layout)
    ensures var r := UpdateFrame(f, l);
      ShotOf(r, k).Some? ==>
        && ShotOf(f, k).Some?
        && ShotOf(r, k).value.direction == ShotOf(f, k).value.direction
        && ShotOf(r, k).value.kind == ShotOf(f, k).value.kind
        && ShotOf(r, k).value.speed == ShotOf(f, k).value.speed
  {
    ResolveKeepsHeading(f, Blue, k, l);
    ResolveKeepsHeading(Resolve(f, Blue, l).0, Orange, k, l);
  }

  // ----- Firing and clearing -----

  /** Firing keeps the frame consistent. */
  lemma FireConsistent(f: Frame, k: PortalType, user: Rect, dir: Option<Direction>, l: Layout)
    requires Consistent(f, l)
    ensures Consistent(Fired(f, k, user, dir), l)
  {
  }

  // ----- Teleporting -----

  /**
   * `portables_usable` and `collide_portals` are exactly the conditions under which
   * `check_portals` moves an entity.
   */
  lemma TeleportNeedsPair(blue: Option<Gate>, orange: Option<Gate>, r: Rect, l: Layout)
    ensures !Usable(blue, orange) || !CollidesPortals(blue, orange, r) ==> Teleported(blue, orange, r, l) == r
    ensures Target(blue, orange, r, l).Some? ==> Usable(blue, orange) && CollidesPortals(blue, orange, r)
  {
  }

  /** An entity touching the blue gate is sent next to an aligned orange gate, one tile along its facing. */
  lemma TeleportToAlignedGate(blue: Option<Gate>, orange: Option<Gate>, r: Rect, l: Layout, row: int, col: int)
    requires Usable(blue, orange) && Overlaps(r, blue.value.rect)
    requires orange.value.rect.x == CellX(col, l) && orange.value.rect.y == CellY(row, l)
    ensures Teleported(blue, orange, r, l)
              == r.(x := orange.value.rect.x + DX(orange.value.facing) * l.blockSize,
                    y := orange.value.rect.y + DY(orange.value.facing) * l.blockSize)
  {
    AlignedExit(orange.value, l, row, col);
  }

  /** Without both gates no entity moves and no `'travel'` is logged. */
  lemma {:induction false} NoPairNoTravel(blue: Option<Gate>, orange: Option<Gate>, rs: seq<Rect>, l: Layout)
    requires !Usable(blue, orange)
    ensures TravelCues(blue, orange, rs, l) == []
    ensures forall i :: 0 <= i < |rs| ==> Teleported(blue, orange, rs[i], l) == rs[i]
    decreases |rs|
  {
    if rs != [] {
      NoPairNoTravel(blue, orange, rs[..|rs| - 1], l);
    }
  }

  /** After `clear_portals`, `check_portals` is a no-op for any entities. */
  lemma ClearedNeverTeleports(f: Frame, rs: seq<Rect>, l: Layout)
    ensures var c := Cleared(f);
      && TravelCues(c.blue, c.orange, rs, l) == []
      && forall i :: 0 <= i < |rs| ==> Teleported(c.blue, c.orange, rs[i], l) == rs[i]
  {
    NoPairNoTravel(None, None, rs, l);
  }

  /** With both gates placed, every entity touching one of them logs one `'travel'`. */
  lemma {:induction false} AllTouchingTravel(blue: Option<Gate>, orange: Option<Gate>, rs: seq<Rect>, l: Layout)
    requires Usable(blue, orange)
    requires forall i :: 0 <= i < |rs| ==> CollidesPortals(blue, orange, rs[i])
    ensures |TravelCues(blue, orange, rs, l)| == |rs|
    decreases |rs|
  {
    if rs != [] {
      AllTouchingTravel(blue, orange, rs[..|rs| - 1], l);
    }
  }
}
