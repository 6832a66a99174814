/** A placed portal: one maze tile that faces a direction and belongs to one colour. */
module Gates {
  import opened Geometry
  import opened Grid
  import opened Directions

  /** `Portal.P_TYPE_1` is the blue portal, `Portal.P_TYPE_2` the orange one. */
  datatype PortalType = Blue | Orange

  /**
   * A gate's rectangle, the direction its exit opens toward, and its colour.
   * None of these change after construction; the animation frame is not modelled.
   */
  datatype Gate = Gate(rect: Rect, facing: Direction, kind: PortalType)

  /** A new portal at pixel `(x, y)`, one tile in size. */
  function GateAt(x: int, y: int, facing: Direction, kind: PortalType, l: Layout): Gate {
    Gate(Rect(x, y, l.blockSize, l.blockSize), facing, kind)
  }

  /** `Portal.get_nearest_row`. */
  function Row(g: Gate, l: Layout): int { NearestRow(g.rect.y, l) }

  /** `Portal.get_nearest_col`. */
  function Col(g: Gate, l: Layout): int { NearestCol(g.rect.x, l) }

  /** A portal created on a cell reports that cell as its row and column. */
  lemma GateOnCell(row: int, col: int, facing: Direction, kind: PortalType, l: Layout)
    ensures Row(GateAt(CellX(col, l), CellY(row, l), facing, kind, l), l) == row
    ensures Col(GateAt(CellX(col, l), CellY(row, l), facing, kind, l), l) == col
  {
    ColRoundTrip(col, l);
    RowRoundTrip(row, l);
  }

  /**
   * Where an entity leaving through gate `g` lands: the gate's cell shifted one cell in the
   * gate's facing direction, converted back to pixels with the maze's formula.
   */
  function Exit(g: Gate, l: Layout): (p: (int, int))
    ensures NearestCol(p.0, l) == Col(g, l) + DX(g.facing)
    ensures NearestRow(p.1, l) == Row(g, l) + DY(g.facing)
    ensures p == (CellX(NearestCol(p.0, l), l), CellY(NearestRow(p.1, l), l))
  {
    var i, j := Row(g, l), Col(g, l);
    var (i', j') :=
      match g.facing
      case Left => (i, j - 1)
      case Right => (i, j + 1)
      case Up => (i - 1, j)
      case Down => (i + 1, j);
    ColRoundTrip(j', l);
    RowRoundTrip(i', l);
    (CellX(j', l), CellY(i', l))
  }

  /** For a gate that sits exactly on a cell, the exit is its own corner one tile over. */
  lemma AlignedExit(g: Gate, l: Layout, row: int, col: int)
    requires g.rect.x == CellX(col, l) && g.rect.y == CellY(row, l)
    ensures Exit(g, l) == (g.rect.x + DX(g.facing) * l.blockSize, g.rect.y + DY(g.facing) * l.blockSize)
  {
    ColRoundTrip(col, l);
    RowRoundTrip(row, l);
    var bs := l.blockSize;
    match g.facing
    case Left => assert CellX(col - 1, l) == CellX(col, l) - bs;
    case Right => assert CellX(col + 1, l) == CellX(col, l) + bs;
    case Up => assert CellY(row - 1, l) == CellY(row, l) - bs;
    case Down => assert CellY(row + 1, l) == CellY(row, l) + bs;
  }
}
