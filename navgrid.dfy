/** The navigation grid: the arena cut into GRID_CELL_SIZE squares, each a wall
    when its centre lies inside a barrier grown by half a tank width. */
module NavGrid {
  import opened Geometry

  const GRID_CELL_SIZE: nat := 30

  /** Walkability of every cell, `walls[y][x]`; `cols` and `rows` are the
      game's gridWidth and gridHeight. The per-search A* fields of a node
      (g, h, f, parent) are not stored here: the pathfinder keeps them in
      scratch maps that start empty on every search. */
  datatype Grid = Grid(cols: nat, rows: nat, walls: seq<seq<bool>>)
  {
    ghost predicate Valid()
    {
      |walls| == rows && forall y :: 0 <= y < rows ==> |walls[y]| == cols
    }

    predicate InBounds(x: int, y: int)
    {
      0 <= x < cols && 0 <= y < rows
    }

    /** A cell that exists and is a wall. */
    predicate IsWall(x: int, y: int)
    {
      0 <= y < |walls| && 0 <= x < |walls[y]| && walls[y][x]
    }

    /** A cell that exists and is not a wall. */
    predicate IsFree(x: int, y: int)
    {
      InBounds(x, y) && !IsWall(x, y)
    }
  }

  /** World coordinate of the centre of cell index i. */
  function CellCentre(i: int): real
  {
    (i * GRID_CELL_SIZE + GRID_CELL_SIZE / 2) as real
  }

  /** The wall rule: the cell's centre is strictly inside some barrier grown by
      half a tank width on every side. */
  predicate CellIsWall(barriers: seq<Rect>, tankWidth: real, x: int, y: int)
  {
    InsideAny(Point(CellCentre(x), CellCentre(y)), GrownAll(barriers, tankWidth / 2.0))
  }

  /** A cell is a wall exactly when a tank parked on its centre would
      overlap a barrier. */
  lemma WallWhereTankBlocked(barriers: seq<Rect>, tankWidth: real, x: int, y: int)
    ensures CellIsWall(barriers, tankWidth, x, y) <==>
              TankHitsBarriers(Point(CellCentre(x), CellCentre(y)), tankWidth, barriers)
  {
  }

  /** `g` is the grid createNavGrid builds for this arena and barrier set. */
  ghost predicate Describes(g: Grid, width: nat, height: nat, barriers: seq<Rect>, tankWidth: real)
  {
    && g.Valid()
    && g.cols == width / GRID_CELL_SIZE
    && g.rows == height / GRID_CELL_SIZE
    && forall y, x :: 0 <= y < g.rows && 0 <= x < g.cols ==>
         g.walls[y][x] == CellIsWall(barriers, tankWidth, x, y)
  }

  /** createNavGrid: floor(height / 30) rows of floor(width / 30) cells, built
      row by row; each cell scans the barriers and stops at the first hit. */
  method CreateNavGrid(width: nat, height: nat, barriers: seq<Rect>, tankWidth: real) returns (g: Grid)
    ensures Describes(g, width, height, barriers, tankWidth)
    ensures barriers == [] ==> forall y, x :: 0 <= y < g.rows && 0 <= x < g.cols ==> !g.walls[y][x]
  {
    var cols := width / GRID_CELL_SIZE;
    var rows := height / GRID_CELL_SIZE;
    var grid: seq<seq<bool>> := [];
    var checkRadius := tankWidth / 2.0;
    var y := 0;
    while y < rows
      invariant 0 <= y <= rows
      invariant |grid| == y
      invariant forall yy :: 0 <= yy < y ==> |grid[yy]| == cols
      invariant forall yy, x :: 0 <= yy < y && 0 <= x < cols ==>
                  grid[yy][x] == CellIsWall(barriers, tankWidth, x, yy)
    {
      var row: seq<bool> := [];
      var x := 0;
      while x < cols
        invariant 0 <= x <= cols
        invariant |row| == x
        invariant forall xx :: 0 <= xx < x ==> row[xx] == CellIsWall(barriers, tankWidth, xx, y)
      {
        var centre := Point(CellCentre(x), CellCentre(y));
        var isWall := false;
        var k := 0;
        while k < |barriers|
          invariant 0 <= k <= |barriers|
          invariant !isWall ==> forall j :: 0 <= j < k ==> !Inside(centre, Grow(barriers[j], checkRadius))
          invariant isWall ==> CellIsWall(barriers, tankWidth, x, y)
        {
          if Inside(centre, Grow(barriers[k], checkRadius)) {
            isWall := true;
            break;
          }
          k := k + 1;
        }
        row := row + [isWall];
        x := x + 1;
      }
      grid := grid + [row];
      y := y + 1;
    }
    g := Grid(cols, rows, grid);
  }
}
