/**
 Map generation: a wall pass over every cell, a resource pass over the floor
 cells, and one forced terminal, all drawing from one generator stream in
 that order.
 */
module MapGen {
  import opened Rng
  import opened Tiles

  /** The two chance tests of generation, as thresholds: a draw passes a test when it is below its threshold. */
  datatype Odds = Odds(wall: nat, resource: nat)

  /** The thresholds the game uses: rnd() < 0.08 for walls and rnd() < 0.06 for resources. */
  const SourceOdds: Odds := Odds(WallThreshold, ResourceThreshold)

  /** A tile the resource pass may leave behind for `before`: itself, or a resource in place of a floor. */
  predicate Sprinkled(before: Tile, after: Tile) {
    after == before || (before == Floor && after == Resource)
  }

  /** First pass: cell (x, y) is a wall exactly when the draw numbered y * 24 + x passes the wall test. */
  function WallPass(draws: Stream, odds: Odds): (g: Grid)
    ensures forall y, x :: InBounds(x, y) ==> g[y][x] == Wall || g[y][x] == Floor
    ensures forall y, x :: InBounds(x, y) ==> (g[y][x] == Wall <==> draws(y * MapW + x) < odds.wall)
  {
    seq(MapH, (y: int) requires 0 <= y < MapH =>
      seq(MapW, (x: int) requires 0 <= x < MapW =>
        if draws(y * MapW + x) < odds.wall then Wall else Floor))
  }

  /** Number of floor cells with row-major index k or more. */
  function FloorsFrom(g: Grid, k: nat): nat
    requires k <= Cells
    decreases Cells - k
  {
    if k == Cells then 0
    else (if CellAt(g, k) == Floor then 1 else 0) + FloorsFrom(g, k + 1)
  }

  /** Two grids that agree from index k on hold the same number of floors there. */
  lemma {:induction false} FloorsFromAgree(g: Grid, g': Grid, k: nat)
    requires k <= Cells
    requires forall j :: k <= j < Cells ==> CellAt(g, j) == CellAt(g', j)
    ensures FloorsFrom(g, k) == FloorsFrom(g', k)
    decreases Cells - k
  {
    if k < Cells {
      FloorsFromAgree(g, g', k + 1);
    }
  }

  /** Writing cell (x, y) does not change cells of any other index. */
  lemma WriteOtherIndex(g: Grid, x: int, y: int, t: Tile, j: nat)
    requires InBounds(x, y) && j < Cells && j != y * MapW + x
    ensures CellAt(Write(g, x, y, t), j) == CellAt(g, j)
  {
  }

  /**
   Second pass, from cell index k on with the next unused draw at `cursor`:
   each floor cell consumes one draw and becomes a resource when it passes the
   resource test; other cells consume nothing. Returns the grid and the next
   unused draw.
   */
  function Sprinkle(g: Grid, draws: Stream, odds: Odds, k: nat, cursor: nat): (r: (Grid, nat))
    requires k <= Cells
    decreases Cells - k
  {
    if k == Cells then (g, cursor)
    else
      if CellAt(g, k) == Floor then
        Sprinkle(Visit(g, draws, odds, k, cursor), draws, odds, k + 1, cursor + 1)
      else
        Sprinkle(g, draws, odds, k + 1, cursor)
  }

  /** The pass from k on uses exactly one draw per floor cell from k on. */
  lemma {:induction false} SprinkleCursor(g: Grid, draws: Stream, odds: Odds, k: nat, cursor: nat)
    requires k <= Cells
    ensures Sprinkle(g, draws, odds, k, cursor).1 == cursor + FloorsFrom(g, k)
    decreases Cells - k
  {
    if k < Cells {
      if CellAt(g, k) == Floor {
        FloorsFromLater(g, draws, odds, k, cursor);
        SprinkleCursor(Visit(g, draws, odds, k, cursor), draws, odds, k + 1, cursor + 1);
      } else {
        SprinkleCursor(g, draws, odds, k + 1, cursor);
      }
    }
  }

  /** The resource pass at floor cell k: a resource when the draw at `cursor` passes, the cell left alone otherwise. */
  function Visit(g: Grid, draws: Stream, odds: Odds, k: nat, cursor: nat): Grid
    requires k < Cells
  {
    if draws(cursor) < odds.resource then Write(g, k % MapW, k / MapW, Resource) else g
  }

  /** A visit at index k leaves the floor count from k + 1 on unchanged. */
  lemma FloorsFromLater(g: Grid, draws: Stream, odds: Odds, k: nat, cursor: nat)
    requires k < Cells
    ensures FloorsFrom(Visit(g, draws, odds, k, cursor), k + 1) == FloorsFrom(g, k + 1)
  {
    forall j | k + 1 <= j < Cells
      ensures CellAt(g, j) == CellAt(Visit(g, draws, odds, k, cursor), j)
    {
      VisitKeepsOthers(g, draws, odds, k, cursor, j);
    }
    FloorsFromAgree(g, Visit(g, draws, odds, k, cursor), k + 1);
  }

  /** Number of floor cells with row-major index in [k, j). */
  function FloorsBetween(g: Grid, k: nat, j: nat): nat
    requires k <= j <= Cells
    decreases j - k
  {
    if k == j then 0
    else (if CellAt(g, k) == Floor then 1 else 0) + FloorsBetween(g, k + 1, j)
  }

  /** Two grids that agree on [k, j) hold the same number of floors there. */
  lemma {:induction false} FloorsBetweenAgree(g: Grid, g': Grid, k: nat, j: nat)
    requires k <= j <= Cells
    requires forall i :: k <= i < j ==> CellAt(g, i) == CellAt(g', i)
    ensures FloorsBetween(g, k, j) == FloorsBetween(g', k, j)
    decreases j - k
  {
    if k < j {
      FloorsBetweenAgree(g, g', k + 1, j);
    }
  }

  /** A visit changes no cell but its own. */
  lemma VisitKeepsOthers(g: Grid, draws: Stream, odds: Odds, k: nat, cursor: nat, i: nat)
    requires k < Cells && i < Cells && i != k
    ensures CellAt(Visit(g, draws, odds, k, cursor), i) == CellAt(g, i)
  {
    if draws(cursor) < odds.resource {
      WriteOtherIndex(g, k % MapW, k / MapW, Resource, i);
    }
  }

  /** A visited floor cell becomes a resource exactly when the draw at the cursor passes. */
  lemma VisitHere(g: Grid, draws: Stream, odds: Odds, k: nat, cursor: nat)
    requires k < Cells && CellAt(g, k) == Floor
    ensures CellAt(Visit(g, draws, odds, k, cursor), k) == Resource <==> draws(cursor) < odds.resource
  {
  }

  /** A visit of floor cell k turns at most that floor into a resource. */
  lemma VisitFrame(g: Grid, draws: Stream, odds: Odds, k: nat, cursor: nat)
    requires k < Cells && CellAt(g, k) == Floor
    ensures var g' := Visit(g, draws, odds, k, cursor);
      forall y, x :: InBounds(x, y) ==> Sprinkled(g[y][x], g'[y][x]) && (y * MapW + x != k ==> g'[y][x] == g[y][x])
  {
    var y, x := k / MapW, k % MapW;
    assert y * MapW + x == k;
  }

  /** The pass from k on only turns floors into resources, and leaves every cell before k as it was. */
  lemma {:induction false} SprinkleFrame(g: Grid, draws: Stream, odds: Odds, k: nat, cursor: nat)
    requires k <= Cells
    ensures var r := Sprinkle(g, draws, odds, k, cursor).0;
      forall y, x :: InBounds(x, y) ==> Sprinkled(g[y][x], r[y][x]) && (y * MapW + x < k ==> r[y][x] == g[y][x])
    decreases Cells - k
  {
    if k < Cells {
      if CellAt(g, k) == Floor {
        var g' := Visit(g, draws, odds, k, cursor);
        VisitFrame(g, draws, odds, k, cursor);
        SprinkleFrame(g', draws, odds, k + 1, cursor + 1);
      } else {
        SprinkleFrame(g, draws, odds, k + 1, cursor);
      }
    }
  }

  /** The pass from k on only turns a floor into a resource at index i, and leaves i alone when it lies before k. */
  lemma SprinkleAt(g: Grid, draws: Stream, odds: Odds, k: nat, cursor: nat, i: nat)
    requires k <= Cells && i < Cells
    ensures Sprinkled(CellAt(g, i), CellAt(Sprinkle(g, draws, odds, k, cursor).0, i))
    ensures i < k ==> CellAt(Sprinkle(g, draws, odds, k, cursor).0, i) == CellAt(g, i)
  {
    SprinkleFrame(g, draws, odds, k, cursor);
    var y, x := i / MapW, i % MapW;
    assert InBounds(x, y) && y * MapW + x == i;
  }

  /** The pass from a floor cell k decides k itself by the draw at the cursor. */
  lemma SprinkleHere(g: Grid, draws: Stream, odds: Odds, k: nat, cursor: nat)
    requires k < Cells && CellAt(g, k) == Floor
    ensures CellAt(Sprinkle(g, draws, odds, k, cursor).0, k) == Resource <==> draws(cursor) < odds.resource
  {
    VisitHere(g, draws, odds, k, cursor);
    SprinkleAt(Visit(g, draws, odds, k, cursor), draws, odds, k + 1, cursor + 1, k);
  }

  /** Past a floor cell k, a later floor cell j sees the visited grid, one draw further on, and one floor fewer before it. */
  lemma SprinkleFloorStep(g: Grid, draws: Stream, odds: Odds, k: nat, cursor: nat, j: nat)
    requires k < j < Cells && CellAt(g, k) == Floor && CellAt(g, j) == Floor
    ensures var g' := Visit(g, draws, odds, k, cursor);
      && CellAt(Sprinkle(g, draws, odds, k, cursor).0, j) == CellAt(Sprinkle(g', draws, odds, k + 1, cursor + 1).0, j)
      && CellAt(g', j) == Floor
      && FloorsBetween(g, k, j) == 1 + FloorsBetween(g', k + 1, j)
  {
    var g' := Visit(g, draws, odds, k, cursor);
    forall i | k + 1 <= i < j
      ensures CellAt(g, i) == CellAt(g', i)
    {
      VisitKeepsOthers(g, draws, odds, k, cursor, i);
    }
    FloorsBetweenAgree(g, g', k + 1, j);
    VisitKeepsOthers(g, draws, odds, k, cursor, j);
  }

  /** Past a cell k that is not a floor, nothing changes and no draw is used. */
  lemma SprinkleSkipStep(g: Grid, draws: Stream, odds: Odds, k: nat, cursor: nat, j: nat)
    requires k < j < Cells && CellAt(g, k) != Floor
    ensures CellAt(Sprinkle(g, draws, odds, k, cursor).0, j) == CellAt(Sprinkle(g, draws, odds, k + 1, cursor).0, j)
    ensures FloorsBetween(g, k, j) == FloorsBetween(g, k + 1, j)
  {
  }

  /**
   Which draw decides a floor cell: the floor cell of index j becomes a
   resource exactly when the draw after the cursor and one per earlier floor
   cell (from k on) passes the resource test.
   */
  lemma {:induction false} SprinkleResource(g: Grid, draws: Stream, odds: Odds, k: nat, cursor: nat, j: nat)
    requires k <= j < Cells && CellAt(g, j) == Floor
    ensures CellAt(Sprinkle(g, draws, odds, k, cursor).0, j) == Resource
      <==> draws(cursor + FloorsBetween(g, k, j)) < odds.resource
    decreases j - k
  {
    if k == j {
      SprinkleHere(g, draws, odds, k, cursor);
    } else if CellAt(g, k) == Floor {
      var g' := Visit(g, draws, odds, k, cursor);
      SprinkleFloorStep(g, draws, odds, k, cursor, j);
      SprinkleResource(g', draws, odds, k + 1, cursor + 1, j);
      assert cursor + FloorsBetween(g, k, j) == cursor + 1 + FloorsBetween(g', k + 1, j);
    } else {
      SprinkleSkipStep(g, draws, odds, k, cursor, j);
      SprinkleResource(g, draws, odds, k + 1, cursor, j);
      assert cursor + FloorsBetween(g, k, j) == cursor + FloorsBetween(g, k + 1, j);
    }
  }

  /**
   The draw numbers of the terminal's row and column: they follow the 384
   wall draws and the one draw per floor cell of the wall pass.
   */
  function TerminalDraw(draws: Stream, odds: Odds): nat {
    Cells + FloorsFrom(WallPass(draws, odds), 0)
  }

  /** The cell forced to be the terminal: row from the first draw, column from the second. */
  function TerminalCell(draws: Stream, odds: Odds): (c: (int, int))
    ensures InBounds(c.0, c.1)
  {
    var d := TerminalDraw(draws, odds);
    (Scaled(draws(d + 1), MapW), Scaled(draws(d), MapH))
  }

  /**
   The draw that decides whether cell (x, y), a floor after the wall pass,
   holds a resource: the one after the 384 wall draws and one draw per
   earlier floor cell.
   */
  function ResourceDrawOf(draws: Stream, odds: Odds, x: int, y: int): nat
    requires InBounds(x, y)
  {
    Cells + FloorsBetween(WallPass(draws, odds), 0, y * MapW + x)
  }

  /** What the draws make of cell (x, y) in the first two passes. */
  predicate PassedCell(draws: Stream, odds: Odds, t: Tile, x: int, y: int)
    requires InBounds(x, y)
  {
    && t != Terminal
    && (t == Wall <==> draws(y * MapW + x) < odds.wall)
    && (t == Resource <==> draws(y * MapW + x) >= odds.wall && draws(ResourceDrawOf(draws, odds, x, y)) < odds.resource)
  }

  /** One cell of the first two passes, by row-major index, for any wall grid. */
  lemma SprinkleCell(walls: Grid, draws: Stream, odds: Odds, i: nat)
    requires i < Cells && (CellAt(walls, i) == Wall || CellAt(walls, i) == Floor)
    ensures var t := CellAt(Sprinkle(walls, draws, odds, 0, Cells).0, i);
      && t != Terminal
      && (t == Wall <==> CellAt(walls, i) == Wall)
      && (t == Resource <==> CellAt(walls, i) == Floor && draws(Cells + FloorsBetween(walls, 0, i)) < odds.resource)
  {
    SprinkleAt(walls, draws, odds, 0, Cells, i);
    if CellAt(walls, i) == Floor {
      SprinkleResource(walls, draws, odds, 0, Cells, i);
    }
  }

  /** One cell of the first two passes, for any wall grid that holds the wall pass's tile there. */
  lemma PassedCellAt(walls: Grid, draws: Stream, odds: Odds, x: int, y: int)
    requires InBounds(x, y)
    requires walls[y][x] == if draws(y * MapW + x) < odds.wall then Wall else Floor
    ensures var t := Sprinkle(walls, draws, odds, 0, Cells).0[y][x];
      && t != Terminal
      && (t == Wall <==> draws(y * MapW + x) < odds.wall)
      && (t == Resource <==> draws(y * MapW + x) >= odds.wall && draws(Cells + FloorsBetween(walls, 0, y * MapW + x)) < odds.resource)
  {
    CellAtIndex(walls, x, y);
    CellAtIndex(Sprinkle(walls, draws, odds, 0, Cells).0, x, y);
    SprinkleCell(walls, draws, odds, y * MapW + x);
  }

  /** Every cell of the first two passes. */
  lemma PassedCells(draws: Stream, odds: Odds)
    ensures forall y, x :: InBounds(x, y) ==>
      PassedCell(draws, odds, Sprinkle(WallPass(draws, odds), draws, odds, 0, Cells).0[y][x], x, y)
  {
    var walls := WallPass(draws, odds);
    forall y, x | InBounds(x, y)
      ensures PassedCell(draws, odds, Sprinkle(walls, draws, odds, 0, Cells).0[y][x], x, y)
    {
      PassedCellAt(walls, draws, odds, x, y);
    }
  }

  /**
   The first two passes: the wall pass, then the resource pass from cell 0
   with the first draw after the wall draws. Returns the grid and the next
   unused draw, the terminal's row draw.
   */
  function ResourcePass(draws: Stream, odds: Odds): (r: (Grid, nat))
    ensures r.1 == TerminalDraw(draws, odds)
    ensures forall y, x :: InBounds(x, y) ==> PassedCell(draws, odds, r.0[y][x], x, y)
  {
    PassedCells(draws, odds);
    SprinkleCursor(WallPass(draws, odds), draws, odds, 0, Cells);
    Sprinkle(WallPass(draws, odds), draws, odds, 0, Cells)
  }

  /**
   The whole generator: walls, then resources, then one terminal overwriting
   whatever was drawn there. Every other cell is a wall exactly when its wall
   draw passes, a resource exactly when its wall draw fails and its resource
   draw passes, and a floor otherwise.
   */
  function BuildMap(draws: Stream, odds: Odds): (g: Grid)
    ensures g[TerminalCell(draws, odds).1][TerminalCell(draws, odds).0] == Terminal
    ensures forall y, x :: InBounds(x, y) && (x, y) != TerminalCell(draws, odds) ==> PassedCell(draws, odds, g[y][x], x, y)
  {
    var pass := ResourcePass(draws, odds);
    var row := Scaled(draws(pass.1), MapH);
    var col := Scaled(draws(pass.1 + 1), MapW);
    assert (col, row) == TerminalCell(draws, odds);
    TerminalOverwrite(draws, odds, pass.0, col, row);
    Write(pass.0, col, row, Terminal)
  }

  /** The last write keeps what the first two passes made of every other cell. */
  lemma TerminalOverwrite(draws: Stream, odds: Odds, pass: Grid, col: int, row: int)
    requires InBounds(col, row)
    requires forall y, x :: InBounds(x, y) ==> PassedCell(draws, odds, pass[y][x], x, y)
    ensures forall y, x :: InBounds(x, y) && (x, y) != (col, row) ==>
      PassedCell(draws, odds, Write(pass, col, row, Terminal)[y][x], x, y)
  {
    var g := Write(pass, col, row, Terminal);
    forall y, x | InBounds(x, y) && (x, y) != (col, row)
      ensures g[y][x] == pass[y][x]
    {
    }
  }

  /** Every generated map holds exactly one terminal, at an in-bounds cell. */
  lemma OneTerminal(draws: Stream, odds: Odds)
    ensures Count(BuildMap(draws, odds), Terminal) == 1
  {
    var (x, y) := TerminalCell(draws, odds);
    ExactlyOne(BuildMap(draws, odds), Terminal, x, y);
  }

  /** The map the game builds for a world seed: the Mulberry32 stream of that seed with the game's odds. */
  function GameMap(seed: nat): (g: Grid)
    ensures Count(g, Terminal) == 1
  {
    OneTerminal(Mulberry32(seed), SourceOdds);
    BuildMap(Mulberry32(seed), SourceOdds)
  }
}
