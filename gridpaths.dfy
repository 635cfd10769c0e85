/** Cells of the navigation grid and the moves the pathfinder may make
    between them. */
module GridPaths {
  import opened NavGrid

  /** A grid node, identified by its column and row. */
  datatype Cell = Cell(x: int, y: int)

  predicate Free(g: Grid, c: Cell)
  {
    g.IsFree(c.x, c.y)
  }

  /** 8-neighbours: distinct cells at most one column and one row apart. */
  predicate Adjacent(a: Cell, b: Cell)
  {
    a != b && -1 <= a.x - b.x <= 1 && -1 <= a.y - b.y <= 1
  }

  /** A move A* may make: to an 8-neighbour, between free cells, and a diagonal
      move only when neither orthogonal corner cell is a wall. */
  predicate LegalStep(g: Grid, a: Cell, b: Cell)
  {
    && Adjacent(a, b) && Free(g, a) && Free(g, b)
    && (a.x != b.x && a.y != b.y ==> !g.IsWall(a.x, b.y) && !g.IsWall(b.x, a.y))
  }

  predicate LegalPath(g: Grid, p: seq<Cell>)
  {
    forall i :: 0 <= i < |p| - 1 ==> LegalStep(g, p[i], p[i + 1])
  }

  /** `p` is a legal path from `a` to `b`. */
  predicate Connects(g: Grid, p: seq<Cell>, a: Cell, b: Cell)
  {
    |p| > 0 && p[0] == a && p[|p| - 1] == b && LegalPath(g, p)
  }

  ghost function AllCells(g: Grid): set<Cell>
  {
    set x, y | 0 <= x < g.cols && 0 <= y < g.rows :: Cell(x, y)
  }

  lemma InAllCells(g: Grid, c: Cell)
    requires g.InBounds(c.x, c.y)
    ensures c in AllCells(g)
  {
    assert c == Cell(c.x, c.y);
  }
}
