/** The bookkeeping of one A* search and the invariant it keeps. */
module SearchState {
  import opened NavGrid
  import opened GridPaths

  /** A node's g, h or f score; a node the search has not touched reads 0,
      as the per-search reset of every node leaves it. */
  function Get(m: map<Cell, real>, c: Cell): real
  {
    if c in m then m[c] else 0.0
  }

  /** The A* bookkeeping: open list (in insertion order), closed set, parent
      links and the g, h and f scores. */
  datatype Search = Search(
    open: seq<Cell>,
    closed: set<Cell>,
    parent: map<Cell, Cell>,
    g: map<Cell, real>,
    h: map<Cell, real>,
    f: map<Cell, real>)

  predicate Distinct(s: seq<Cell>)
  {
    forall i, j :: 0 <= i < j < |s| ==> s[i] != s[j]
  }

  /** openSet.splice(k, 1) */
  function RemoveAt(s: seq<Cell>, k: nat): (r: seq<Cell>)
    requires k < |s|
    ensures |r| == |s| - 1
    ensures Distinct(s) ==> Distinct(r) && forall c :: c in r <==> c in s && c != s[k]
  {
    var r := s[..k] + s[k + 1..];
    assert forall i :: 0 <= i < |r| ==> r[i] == if i < k then s[i] else s[i + 1];
    r
  }

  /** The free cells of the grid. */
  ghost function FreeCells(gr: Grid): set<Cell>
  {
    set x, y | 0 <= x < gr.cols && 0 <= y < gr.rows && !gr.IsWall(x, y) :: Cell(x, y)
  }

  lemma InFreeCells(gr: Grid, c: Cell)
    ensures c in FreeCells(gr) <==> Free(gr, c)
  {
    if Free(gr, c) {
      assert c == Cell(c.x, c.y);
    }
  }

  /** What stays true of the search at every step. `rank` records when each
      closed cell was closed, `clock` the next closing time: a parent is
      always closed before its child, so following parent links from any
      cell ends, and ends at the start. */
  ghost predicate Core(gr: Grid, start: Cell, end: Cell, s: Search, rank: map<Cell, nat>, clock: nat)
  {
    && Lists(gr, start, end, s.open, s.closed)
    && Links(gr, start, s.open, s.closed, s.parent)
    && Ranks(s.closed, s.parent, rank, clock)
  }

  /** The open list and the closed set: free cells, disjoint, no repeats in
      the open list; the goal is never closed, and the start is closed from
      the first expansion on. */
  ghost predicate Lists(gr: Grid, start: Cell, end: Cell, open: seq<Cell>, closed: set<Cell>)
  {
    && (forall c :: c in open ==> c in FreeCells(gr) && c !in closed)
    && Distinct(open)
    && closed <= FreeCells(gr)
    && end !in closed
    && (start in closed || (open == [start] && closed == {}))
  }

  /** Every open or closed cell but the start has a parent: a closed cell it
      is a legal move away from. */
  ghost predicate Links(gr: Grid, start: Cell, open: seq<Cell>, closed: set<Cell>, parent: map<Cell, Cell>)
  {
    && start !in parent
    && (forall c {:trigger parent[c]} :: c in parent ==> parent[c] in closed && LegalStep(gr, parent[c], c))
    && (forall c :: (c in closed || c in open) && c != start ==> c in parent)
  }

  /** Closed cells are closed before `clock`, each after its parent. */
  ghost predicate Ranks(closed: set<Cell>, parent: map<Cell, Cell>, rank: map<Cell, nat>, clock: nat)
  {
    && rank.Keys == closed
    && (forall c :: c in closed ==> rank[c] < clock)
    && (forall c {:trigger parent[c]} :: c in closed && c in parent && parent[c] in rank ==> rank[parent[c]] < rank[c])
  }

  /** Every legal move out of a closed cell (other than those in `except`)
      leads to a cell that is open or closed. */
  ghost predicate Frontier(gr: Grid, s: Search, except: set<Cell>)
  {
    forall c, n :: c in s.closed && c !in except && LegalStep(gr, c, n) ==> n in s.closed || n in s.open
  }
}
