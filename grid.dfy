/**
 * The maze grid: the playfield origin is one fifth of the screen width from the left
 * and one twelfth of the screen height from the top; every cell is a square tile.
 */
module Grid {

  /** The maze's `block_size`, in pixels. */
  type TileSize = n: int | 0 < n witness 1

  /** Screen width and height and the maze's tile size. */
  datatype Layout = Layout(width: nat, height: nat, blockSize: TileSize)

  function OriginX(l: Layout): int { l.width / 5 }

  function OriginY(l: Layout): int { l.height / 12 }

  /** Left pixel edge of column `col`, the maze's own placement formula. */
  function CellX(col: int, l: Layout): int { OriginX(l) + col * l.blockSize }

  /** Top pixel edge of row `row`. */
  function CellY(row: int, l: Layout): int { OriginY(l) + row * l.blockSize }

  /** `get_nearest_col`: the column whose span contains pixel column `x` (floor division). */
  function NearestCol(x: int, l: Layout): (col: int)
    ensures CellX(col, l) <= x < CellX(col, l) + l.blockSize
  {
    (x - OriginX(l)) / l.blockSize
  }

  /** `get_nearest_row`: the row whose span contains pixel row `y`. */
  function NearestRow(y: int, l: Layout): (row: int)
    ensures CellY(row, l) <= y < CellY(row, l) + l.blockSize
  {
    (y - OriginY(l)) / l.blockSize
  }

  /** Scaling by a positive factor keeps order. */
  lemma ScaleMonotone(a: int, b: int, m: int)
    requires a < b && 0 < m
    ensures a * m + m <= b * m
  {
    assert b * m - a * m == (b - a) * m;
    assert (b - a) * m >= m by {
      assert (b - a) * m == (b - a - 1) * m + m;
      assert (b - a - 1) * m >= 0;
    }
  }

  /** Only one index `i` puts `v` in the span `[base + i*m, base + i*m + m)`. */
  lemma SpanUnique(i: int, j: int, base: int, m: int, v: int)
    requires 0 < m
    requires base + i * m <= v < base + i * m + m
    requires base + j * m <= v < base + j * m + m
    ensures i == j
  {
    if i < j { ScaleMonotone(i, j, m); }
    else if j < i { ScaleMonotone(j, i, m); }
  }

  /** Cell to pixel and back is the identity on columns. */
  lemma ColRoundTrip(col: int, l: Layout)
    ensures NearestCol(CellX(col, l), l) == col
  {
    var c := NearestCol(CellX(col, l), l);
    SpanUnique(c, col, OriginX(l), l.blockSize, CellX(col, l));
  }

  /** Cell to pixel and back is the identity on rows. */
  lemma RowRoundTrip(row: int, l: Layout)
    ensures NearestRow(CellY(row, l), l) == row
  {
    var r := NearestRow(CellY(row, l), l);
    SpanUnique(r, row, OriginY(l), l.blockSize, CellY(row, l));
  }

  /** Pixel to cell and back is the identity exactly on pixel columns that start a cell. */
  lemma ColSnap(x: int, l: Layout)
    ensures CellX(NearestCol(x, l), l) == x <==> exists col :: CellX(col, l) == x
  {
    if exists col :: CellX(col, l) == x {
      var col :| CellX(col, l) == x;
      ColRoundTrip(col, l);
    }
  }
}
