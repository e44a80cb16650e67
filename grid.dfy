/**
 * Row-major tile layout shared by the tileset generators: how many rows a
 * repertoire needs, which grid cell a character index lands in, the pixel
 * rectangle of that cell, and the integer formula that centres a glyph's
 * bounding box inside it.
 */
module Grid {

  /** A half-open pixel rectangle [x0, x1) x [y0, y1). */
  datatype Rect = Rect(x0: int, y0: int, x1: int, y1: int)

  /** The box returned by the font's text measurement, relative to the pen origin (0, 0). */
  datatype BBox = BBox(left: int, top: int, right: int, bottom: int)

  predicate Within(inner: Rect, outer: Rect)
  {
    outer.x0 <= inner.x0 && inner.x1 <= outer.x1 && outer.y0 <= inner.y0 && inner.y1 <= outer.y1
  }

  predicate Disjoint(a: Rect, b: Rect)
  {
    a.x1 <= b.x0 || b.x1 <= a.x0 || a.y1 <= b.y0 || b.y1 <= a.y0
  }

  lemma MulStep(a: int, b: int, w: nat)
    requires a < b
    ensures a * w + w <= b * w
  {
    assert b * w - a * w == (b - a) * w;
    assert (b - a) * w >= w by {
      assert b - a >= 1;
    }
  }

  /** Rows needed for n tiles at perRow per row, computed as (n + perRow - 1) // perRow. */
  function Rows(n: nat, perRow: nat): (rows: nat)
    requires perRow > 0
    ensures rows * perRow >= n
    ensures n > 0 ==> (rows - 1) * perRow < n
    ensures n == 0 ==> rows == 0
  {
    var q := (n + perRow - 1) / perRow;
    assert n + perRow - 1 == q * perRow + (n + perRow - 1) % perRow;
    q
  }

  /** The (column, row) of tile index i: column i % perRow, row i // perRow. */
  function CellOf(i: nat, perRow: nat): (cell: (nat, nat))
    requires perRow > 0
    ensures cell.0 < perRow
    ensures i == cell.1 * perRow + cell.0
  {
    (i % perRow, i / perRow)
  }

  /** The index a grid cell holds in row-major order. */
  function IndexOf(col: nat, row: nat, perRow: nat): nat
  {
    row * perRow + col
  }

  /** Every cell of a row-major grid holds exactly one index: CellOf inverts IndexOf. */
  lemma CellOfIndexOf(col: nat, row: nat, perRow: nat)
    requires col < perRow
    ensures CellOf(IndexOf(col, row, perRow), perRow) == (col, row)
  {
    var i := IndexOf(col, row, perRow);
    var (c, r) := CellOf(i, perRow);
    if r < row {
      MulStep(r, row, perRow);
      assert false;
    } else if row < r {
      MulStep(row, r, perRow);
      assert false;
    }
  }

  /** Distinct indices land in distinct cells, and every index below n lands inside the grid. */
  lemma CellInGrid(i: nat, n: nat, perRow: nat)
    requires perRow > 0 && i < n
    ensures CellOf(i, perRow).1 < Rows(n, perRow)
    ensures forall j: nat :: CellOf(j, perRow) == CellOf(i, perRow) ==> j == i
  {
    var row := CellOf(i, perRow).1;
    var rows := Rows(n, perRow);
    if row >= rows {
      assert row * perRow >= rows * perRow by {
        if row > rows { MulStep(rows, row, perRow); }
      }
      assert false;
    }
  }

  /** The pixel rectangle of tile i: [col*w, col*w + w) x [row*h, row*h + h). */
  function TileRect(i: nat, perRow: nat, w: nat, h: nat): Rect
    requires perRow > 0
  {
    var (col, row) := CellOf(i, perRow);
    Rect(col * w, row * h, col * w + w, row * h + h)
  }

  /** The whole sheet for n tiles: perRow * w wide and Rows(n, perRow) * h high. */
  function ImageRect(n: nat, perRow: nat, w: nat, h: nat): Rect
    requires perRow > 0
  {
    Rect(0, 0, perRow * w, Rows(n, perRow) * h)
  }

  lemma TileInsideImage(i: nat, n: nat, perRow: nat, w: nat, h: nat)
    requires perRow > 0 && i < n
    ensures Within(TileRect(i, perRow, w, h), ImageRect(n, perRow, w, h))
  {
    var (col, row) := CellOf(i, perRow);
    CellInGrid(i, n, perRow);
    MulStep(col, perRow, w);
    MulStep(row, Rows(n, perRow), h);
    assert 0 <= col * w && 0 <= row * h;
  }

  lemma TilesDisjoint(i: nat, j: nat, perRow: nat, w: nat, h: nat)
    requires perRow > 0 && i != j
    ensures Disjoint(TileRect(i, perRow, w, h), TileRect(j, perRow, w, h))
  {
    var (ci, ri) := CellOf(i, perRow);
    var (cj, rj) := CellOf(j, perRow);
    if ri < rj {
      MulStep(ri, rj, h);
    } else if rj < ri {
      MulStep(rj, ri, h);
    } else if ci < cj {
      MulStep(ci, cj, w);
    } else {
      assert cj < ci;
      MulStep(cj, ci, w);
    }
  }

  /**
   * The start coordinate offset + (cell - extent) // 2 that centres an extent in a cell.
   * The two margins differ by at most one pixel, the trailing one being the larger; a box
   * that fits stays inside the cell, and a box wider than the cell reaches or passes both edges.
   */
  function CenterStart(offset: int, cell: int, extent: int): (start: int)
    ensures var lead := start - offset;
            var trail := offset + cell - (start + extent);
            0 <= trail - lead <= 1
    ensures 0 <= extent <= cell ==> offset <= start && start + extent <= offset + cell
    ensures extent > cell ==> start < offset && offset + cell <= start + extent
  {
    offset + (cell - extent) / 2
  }

  /**
   * The pen position at which a glyph with box b is drawn in the w x h tile whose top-left
   * corner is (xOffset, yOffset): the box width is centred from the pen's x, and the
   * vertical extent is centred with the box's top taken into account.
   */
  function PlaceGlyph(xOffset: int, yOffset: int, w: int, h: int, b: BBox): (pen: (int, int))
    ensures var tw := b.right - b.left;
            0 <= (xOffset + w - (pen.0 + tw)) - (pen.0 - xOffset) <= 1 &&
            (0 <= tw <= w ==> xOffset <= pen.0 <= xOffset + w - tw)
    ensures var th := b.bottom - b.top;
            var top := pen.1 + b.top;
            0 <= (yOffset + h - (top + th)) - (top - yOffset) <= 1 &&
            (0 <= th <= h ==> yOffset <= top && pen.1 + b.bottom <= yOffset + h)
  {
    (CenterStart(xOffset, w, b.right - b.left), CenterStart(yOffset, h, b.bottom - b.top) - b.top)
  }
}
