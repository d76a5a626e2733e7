/** The tile grid: a fixed 16-row by 24-column map of tile kinds. */
module Tiles {

  datatype Tile = Floor | Wall | Resource | Terminal

  const MapW: nat := 24
  const MapH: nat := 16

  /** Number of cells; cell (x, y) has row-major index y * MapW + x. */
  const Cells: nat := MapW * MapH

  /** MapH rows of MapW tiles, indexed grid[y][x]. */
  predicate Shaped(g: seq<seq<Tile>>) {
    |g| == MapH && forall y :: 0 <= y < |g| ==> |g[y]| == MapW
  }

  type Grid = g: seq<seq<Tile>> | Shaped(g) witness seq(MapH, _ => seq(MapW, _ => Floor))

  predicate InBounds(x: int, y: int) {
    0 <= x < MapW && 0 <= y < MapH
  }

  /** The tile of the cell with row-major index k. */
  function CellAt(g: Grid, k: nat): Tile
    requires k < Cells
  {
    g[k / MapW][k % MapW]
  }

  /** Cell (x, y) is the cell of row-major index y * MapW + x. */
  lemma CellAtIndex(g: Grid, x: int, y: int)
    requires InBounds(x, y)
    ensures y * MapW + x < Cells && CellAt(g, y * MapW + x) == g[y][x]
  {
    var k := y * MapW + x;
    assert k / MapW == y && k % MapW == x;
  }

  /** The grid with cell (x, y) replaced by t (the source's `grid[y][x] = t`). */
  function Write(g: Grid, x: int, y: int, t: Tile): (r: Grid)
    requires InBounds(x, y)
    ensures r[y][x] == t
    ensures forall y', x' :: InBounds(x', y') && (x' != x || y' != y) ==> r[y'][x'] == g[y'][x']
  {
    g[y := g[y][x := t]]
  }

  /** Number of tiles equal to t in a row. */
  function CountRow(row: seq<Tile>, t: Tile): nat {
    if row == [] then 0
    else (if row[0] == t then 1 else 0) + CountRow(row[1..], t)
  }

  /** Number of tiles equal to t in the first n rows. */
  function CountRows(g: Grid, t: Tile, n: nat): nat
    requires n <= MapH
  {
    if n == 0 then 0 else CountRows(g, t, n - 1) + CountRow(g[n - 1], t)
  }

  /** Number of tiles equal to t in the grid. */
  function Count(g: Grid, t: Tile): nat {
    CountRows(g, t, MapH)
  }

  /** A row without t counts no t. */
  lemma {:induction false} CountRowNone(row: seq<Tile>, t: Tile)
    requires forall i :: 0 <= i < |row| ==> row[i] != t
    ensures CountRow(row, t) == 0
  {
    if row != [] {
      CountRowNone(row[1..], t);
    }
  }

  /** A row whose only t is at index j counts exactly one t. */
  lemma {:induction false} CountRowOne(row: seq<Tile>, t: Tile, j: nat)
    requires j < |row| && row[j] == t
    requires forall i :: 0 <= i < |row| && i != j ==> row[i] != t
    ensures CountRow(row, t) == 1
  {
    if j == 0 {
      CountRowNone(row[1..], t);
    } else {
      CountRowOne(row[1..], t, j - 1);
    }
  }

  /** Rows below y0 that hold no t contribute nothing; the count is one once row y0 is included. */
  lemma {:induction false} CountRowsOne(g: Grid, t: Tile, x0: int, y0: int, n: nat)
    requires InBounds(x0, y0) && g[y0][x0] == t
    requires forall y, x :: InBounds(x, y) && (x != x0 || y != y0) ==> g[y][x] != t
    requires n <= MapH
    ensures CountRows(g, t, n) == if n <= y0 then 0 else 1
  {
    if n > 0 {
      CountRowsOne(g, t, x0, y0, n - 1);
      if n - 1 == y0 {
        CountRowOne(g[n - 1], t, x0);
      } else {
        CountRowNone(g[n - 1], t);
      }
    }
  }

  /** A grid whose only t is at (x0, y0) holds exactly one t. */
  lemma ExactlyOne(g: Grid, t: Tile, x0: int, y0: int)
    requires InBounds(x0, y0) && g[y0][x0] == t
    requires forall y, x :: InBounds(x, y) && (x != x0 || y != y0) ==> g[y][x] != t
    ensures Count(g, t) == 1
  {
    CountRowsOne(g, t, x0, y0, MapH);
  }
}
