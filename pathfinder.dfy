/** The AI pathfinder: nearest-free-cell substitution by breadth-first search,
    A* over 8-neighbours without corner cutting, and greedy path smoothing. */
module Pathfinder {
  import opened Common
  import opened Geometry
  import opened NavGrid
  import opened GridPaths
  import opened SearchState
  import opened Smoothing

  // ---------------------------------------------------------------------------
  // Nearest free cell (findClosestValidNode)
  // ---------------------------------------------------------------------------

  /** The order in which the breadth-first search looks at neighbours. */
  const NEIGHBOUR_OFFSETS: seq<(int, int)> :=
    [(0, -1), (1, 0), (0, 1), (-1, 0), (-1, -1), (1, -1), (1, 1), (-1, 1)]

  function OffsetIndex(dx: int, dy: int): (k: nat)
    requires -1 <= dx <= 1 && -1 <= dy <= 1 && (dx, dy) != (0, 0)
    ensures k < |NEIGHBOUR_OFFSETS| && NEIGHBOUR_OFFSETS[k] == (dx, dy)
  {
    if (dx, dy) == (0, -1) then 0
    else if (dx, dy) == (1, 0) then 1
    else if (dx, dy) == (0, 1) then 2
    else if (dx, dy) == (-1, 0) then 3
    else if (dx, dy) == (-1, -1) then 4
    else if (dx, dy) == (1, -1) then 5
    else if (dx, dy) == (1, 1) then 6
    else 7
  }

  function NeighbourAt(c: Cell, k: nat): Cell
    requires k < |NEIGHBOUR_OFFSETS|
  {
    Cell(c.x + NEIGHBOUR_OFFSETS[k].0, c.y + NEIGHBOUR_OFFSETS[k].1)
  }

  /** One expansion of the search: every in-bounds neighbour not yet visited
      is marked visited and queued, in NEIGHBOUR_OFFSETS order. */
  method VisitNeighbours(g: Grid, current: Cell, queue: seq<Cell>, visited: set<Cell>)
    returns (q: seq<Cell>, vis: set<Cell>)
    ensures visited <= vis && vis - visited <= AllCells(g)
    ensures |q| >= |queue| && q[..|queue|] == queue
    ensures forall c :: c in vis && c !in visited ==> c in q
    ensures forall c :: c in q ==> c in queue || c in vis
    ensures forall n :: Adjacent(current, n) && g.InBounds(n.x, n.y) ==> n in vis
    ensures forall i :: |queue| <= i < |q| ==>
              Adjacent(current, q[i]) && q[i] !in visited && g.InBounds(q[i].x, q[i].y)
    ensures vis == visited ==> q == queue
  {
    q, vis := queue, visited;
    var k := 0;
    while k < |NEIGHBOUR_OFFSETS|
      invariant 0 <= k <= |NEIGHBOUR_OFFSETS|
      invariant visited <= vis && vis - visited <= AllCells(g)
      invariant |q| >= |queue| && q[..|queue|] == queue
      invariant forall c :: c in vis && c !in visited ==> c in q
      invariant forall c :: c in q ==> c in queue || c in vis
      invariant forall j :: 0 <= j < k && g.InBounds(NeighbourAt(current, j).x, NeighbourAt(current, j).y)
                  ==> NeighbourAt(current, j) in vis
      invariant forall i :: |queue| <= i < |q| ==>
                  Adjacent(current, q[i]) && q[i] !in visited && g.InBounds(q[i].x, q[i].y)
      invariant vis == visited ==> q == queue
    {
      var (dx, dy) := NEIGHBOUR_OFFSETS[k];
      var nx, ny := current.x + dx, current.y + dy;
      if 0 <= nx < g.cols && 0 <= ny < g.rows {
        var neighbour := Cell(nx, ny);
        if neighbour !in vis {
          InAllCells(g, neighbour);
          vis := vis + {neighbour};
          q := q + [neighbour];
        }
      }
      k := k + 1;
    }
    forall n | Adjacent(current, n) && g.InBounds(n.x, n.y) ensures n in vis {
      var j := OffsetIndex(n.x - current.x, n.y - current.y);
      assert n == NeighbourAt(current, j);
    }
  }

  /** A set that holds `root` and is closed under adjacency holds every cell. */
  lemma {:induction false} ClosedSetHoldsAll(g: Grid, root: Cell, s: set<Cell>, c: Cell)
    requires root in s && g.InBounds(root.x, root.y)
    requires forall a, n :: a in s && Adjacent(a, n) && g.InBounds(n.x, n.y) ==> n in s
    requires g.InBounds(c.x, c.y)
    ensures c in s
    decreases Dist(c.x, root.x) + Dist(c.y, root.y)
  {
    if c != root {
      var n := Cell(c.x + Toward(c.x, root.x), c.y + Toward(c.y, root.y));
      ClosedSetHoldsAll(g, root, s, n);
      assert Adjacent(n, c);
    }
  }

  function Dist(a: int, b: int): nat
  {
    if a < b then b - a else a - b
  }

  /** The number of 8-neighbour moves between two cells of an open grid. */
  function Steps(a: Cell, b: Cell): nat
  {
    var dx, dy := Dist(a.x, b.x), Dist(a.y, b.y);
    if dx < dy then dy else dx
  }

  /** `c` is a free cell that no free cell of the grid beats in moves from
      `root`. */
  ghost predicate NearestFree(g: Grid, root: Cell, c: Cell)
  {
    Free(g, c) && forall d: Cell :: g.InBounds(d.x, d.y) && Free(g, d) ==> Steps(root, c) <= Steps(root, d)
  }

  /** Neighbours are one move nearer or farther from any cell, or level. */
  lemma AdjacentSteps(root: Cell, a: Cell, b: Cell)
    requires Adjacent(a, b)
    ensures Steps(root, b) <= Steps(root, a) + 1 && Steps(root, a) <= Steps(root, b) + 1
  {
  }

  /** Every in-bounds cell other than `root` has an in-bounds neighbour one
      move nearer to `root`. */
  lemma StepToward(g: Grid, root: Cell, c: Cell) returns (n: Cell)
    requires g.InBounds(root.x, root.y) && g.InBounds(c.x, c.y) && c != root
    ensures g.InBounds(n.x, n.y) && Adjacent(n, c) && Steps(root, n) + 1 == Steps(root, c)
  {
    n := Cell(c.x + Toward(c.x, root.x), c.y + Toward(c.y, root.y));
  }

  /** The breadth-first queue in layers: its cells are in nondecreasing order
      of moves from the root and span at most two neighbouring layers; every
      cell nearer than the head has been expanded, and every cell as near as
      the head has been seen. */
  ghost predicate Layered(g: Grid, root: Cell, queue: seq<Cell>, visited: set<Cell>, done: set<Cell>)
  {
    && (forall i, j :: 0 <= i <= j < |queue| ==> Steps(root, queue[i]) <= Steps(root, queue[j]))
    && (|queue| > 0 ==>
          && Steps(root, queue[|queue| - 1]) <= Steps(root, queue[0]) + 1
          && (forall c :: c in AllCells(g) && Steps(root, c) < Steps(root, queue[0]) ==> c in done)
          && (forall c :: c in AllCells(g) && Steps(root, c) <= Steps(root, queue[0]) ==> c in visited))
  }

  /** Expanding the head of a layered queue keeps it layered: everything it
      adds is one move farther than the head. */
  lemma LayeredStep(g: Grid, root: Cell, queue: seq<Cell>, visited: set<Cell>, done: set<Cell>,
                    q: seq<Cell>, vis: set<Cell>)
    requires g.InBounds(root.x, root.y) && |queue| > 0
    requires Layered(g, root, queue, visited, done)
    requires forall c :: c in queue ==> c in visited
    requires forall c :: c in visited ==> c in done || c in queue
    requires forall c, n :: c in done && Adjacent(c, n) && g.InBounds(n.x, n.y) ==> n in visited
    requires visited <= vis
    requires |q| >= |queue| - 1 && q[..|queue| - 1] == queue[1..]
    requires forall i :: |queue| - 1 <= i < |q| ==>
               Adjacent(queue[0], q[i]) && q[i] !in visited && g.InBounds(q[i].x, q[i].y)
    requires forall n :: Adjacent(queue[0], n) && g.InBounds(n.x, n.y) ==> n in vis
    ensures Layered(g, root, q, vis, done + {queue[0]})
  {
    var current := queue[0];
    var k := Steps(root, current);
    var m := |queue| - 1;
    forall i | m <= i < |q| ensures Steps(root, q[i]) == k + 1 {
      AdjacentSteps(root, current, q[i]);
      InAllCells(g, q[i]);
    }
    forall i | 0 <= i < m ensures q[i] == queue[i + 1] {
      assert q[..m][i] == q[i];
    }
    if |q| > 0 {
      var h := Steps(root, q[0]);
      assert k <= h <= k + 1;
      forall c | c in AllCells(g) && Steps(root, c) < h ensures c in done + {current} {
        if Steps(root, c) == k && c != current {
          assert c in visited;
        }
      }
      forall c | c in AllCells(g) && Steps(root, c) <= h ensures c in vis {
        if Steps(root, c) == k + 1 {
          var n := StepToward(g, root, c);
          InAllCells(g, n);
          assert n in done + {current};
        }
      }
    }
  }

  function Toward(a: int, b: int): int
  {
    if a < b then 1 else if a > b then -1 else 0
  }

  /** findClosestValidNode: the root itself when it is free, otherwise the
      first free cell a breadth-first search over 8-neighbours reaches. The
      search also expands through wall cells, so it fails only when every cell
      of the grid is a wall. */
  method FindClosestValidNode(g: Grid, root: Cell) returns (r: Option<Cell>)
    requires g.Valid() && g.InBounds(root.x, root.y)
    ensures Free(g, root) ==> r == Some(root)
    ensures r.Some? ==> Free(g, r.value)
    ensures r.None? <==> forall x, y :: 0 <= x < g.cols && 0 <= y < g.rows ==> g.IsWall(x, y)
    ensures r.Some? ==> NearestFree(g, root, r.value)
  {
    if !g.walls[root.y][root.x] {
      assert !g.IsWall(root.x, root.y);
      return Some(root);
    }
    var queue := [root];
    var visited := {root};
    ghost var done: set<Cell> := {};
    InAllCells(g, root);
    while |queue| > 0
      invariant visited <= AllCells(g)
      invariant Bfs(g, root, queue, visited, done)
      decreases AllCells(g) - visited, |queue|
    {
      var current := queue[0];
      if !g.walls[current.y][current.x] {
        assert !g.IsWall(current.x, current.y);
        BfsFound(g, root, queue, visited, done);
        return Some(current);
      }
      queue, visited := Expand(g, root, queue, visited, done);
      done := done + {current};
    }
    BfsExhausted(g, root, visited, done);
    return None;
  }

  /** The state of the breadth-first search: the queue holds seen cells, a
      seen cell is expanded or queued, an expanded cell is a wall whose
      in-bounds neighbours have all been seen, and the queue is layered. */
  ghost predicate Bfs(g: Grid, root: Cell, queue: seq<Cell>, visited: set<Cell>, done: set<Cell>)
  {
    && visited <= AllCells(g)
    && root in visited
    && (forall c :: c in queue ==> c in visited)
    && (forall c :: c in visited ==> c in done || c in queue)
    && (forall c :: c in done ==> c in visited && g.IsWall(c.x, c.y))
    && (forall c, n :: c in done && Adjacent(c, n) && g.InBounds(n.x, n.y) ==> n in visited)
    && Layered(g, root, queue, visited, done)
  }

  /** One round of the search loop on a wall at the head of the queue: it is
      dequeued and its unseen in-bounds neighbours are seen and queued. */
  method Expand(g: Grid, root: Cell, queue: seq<Cell>, visited: set<Cell>, ghost done: set<Cell>)
    returns (q: seq<Cell>, vis: set<Cell>)
    requires g.InBounds(root.x, root.y) && |queue| > 0
    requires Bfs(g, root, queue, visited, done) && g.IsWall(queue[0].x, queue[0].y)
    ensures Bfs(g, root, q, vis, done + {queue[0]})
    ensures visited <= vis <= AllCells(g)
    ensures vis == visited ==> |q| < |queue|
  {
    q, vis := VisitNeighbours(g, queue[0], queue[1..], visited);
    BfsStep(g, root, queue, visited, done, q, vis);
  }

  /** Expanding a wall at the head of the queue keeps the search state. */
  lemma BfsStep(g: Grid, root: Cell, queue: seq<Cell>, visited: set<Cell>, done: set<Cell>,
                q: seq<Cell>, vis: set<Cell>)
    requires g.InBounds(root.x, root.y) && |queue| > 0
    requires Bfs(g, root, queue, visited, done) && g.IsWall(queue[0].x, queue[0].y)
    requires visited <= vis && vis - visited <= AllCells(g)
    requires |q| >= |queue| - 1 && q[..|queue| - 1] == queue[1..]
    requires forall c :: c in vis && c !in visited ==> c in q
    requires forall c :: c in q ==> c in queue[1..] || c in vis
    requires forall n :: Adjacent(queue[0], n) && g.InBounds(n.x, n.y) ==> n in vis
    requires forall i :: |queue| - 1 <= i < |q| ==>
               Adjacent(queue[0], q[i]) && q[i] !in visited && g.InBounds(q[i].x, q[i].y)
    ensures Bfs(g, root, q, vis, done + {queue[0]})
  {
    LayeredStep(g, root, queue, visited, done, q, vis);
    forall c | c in queue[1..] ensures c in vis {
      assert c in queue;
    }
  }

  /** A free cell at the head of the queue is a nearest free cell. */
  lemma BfsFound(g: Grid, root: Cell, queue: seq<Cell>, visited: set<Cell>, done: set<Cell>)
    requires |queue| > 0 && Bfs(g, root, queue, visited, done) && Free(g, queue[0])
    ensures NearestFree(g, root, queue[0])
  {
    forall d: Cell | g.InBounds(d.x, d.y) && Free(g, d) ensures Steps(root, queue[0]) <= Steps(root, d) {
      InAllCells(g, d);
    }
  }

  /** An exhausted search has seen, and found walls in, every cell. */
  lemma BfsExhausted(g: Grid, root: Cell, visited: set<Cell>, done: set<Cell>)
    requires g.InBounds(root.x, root.y) && Bfs(g, root, [], visited, done)
    ensures forall x, y :: 0 <= x < g.cols && 0 <= y < g.rows ==> g.IsWall(x, y)
  {
    forall x, y | 0 <= x < g.cols && 0 <= y < g.rows ensures g.IsWall(x, y) {
      ClosedSetHoldsAll(g, root, visited, Cell(x, y));
    }
  }

  // ---------------------------------------------------------------------------
  // A*
  // ---------------------------------------------------------------------------

  /** The open node with the lowest f, the first one on ties. */
  method LowestF(open: seq<Cell>, f: map<Cell, real>) returns (k: nat)
    requires |open| > 0
    ensures k < |open|
    ensures forall i :: 0 <= i < |open| ==> Get(f, open[k]) <= Get(f, open[i])
    ensures forall i :: 0 <= i < k ==> Get(f, open[i]) > Get(f, open[k])
  {
    k := 0;
    var i := 1;
    while i < |open|
      invariant 1 <= i <= |open| && k < i
      invariant forall j :: 0 <= j < i ==> Get(f, open[k]) <= Get(f, open[j])
      invariant forall j :: 0 <= j < k ==> Get(f, open[j]) > Get(f, open[k])
    {
      if Get(f, open[i]) < Get(f, open[k]) {
        k := i;
      }
      i := i + 1;
    }
  }

  /** The tests that skip a neighbour (current + (i, j)): the node itself,
      off the grid, already closed, a wall, or a diagonal that would cut a
      wall corner. What is left is exactly a legal move to a cell not closed. */
  method Admissible(gr: Grid, current: Cell, i: int, j: int, closed: set<Cell>) returns (ok: bool)
    requires gr.Valid() && Free(gr, current)
    requires -1 <= i <= 1 && -1 <= j <= 1
    ensures ok <==> LegalStep(gr, current, Offset(current, i, j)) && Offset(current, i, j) !in closed
  {
    if i == 0 && j == 0 {
      return false;
    }
    var nx, ny := current.x + i, current.y + j;
    if !(0 <= nx < gr.cols && 0 <= ny < gr.rows) {
      return false;
    }
    var neighbour := Cell(nx, ny);
    if neighbour in closed || gr.walls[ny][nx] {
      return false;
    }
    if i != 0 && j != 0 {
      if gr.walls[ny][current.x] || gr.walls[current.y][nx] {
        return false;
      }
    }
    return true;
  }

  /** One neighbour (current + (i, j)) of the node being expanded: skipped
      unless the move is admissible; otherwise opened (with its heuristic) or
      given a better parent when the new g score is lower. */
  method Relax(gr: Grid, hypot: (real, real) -> real, start: Cell, end: Cell, current: Cell,
               i: int, j: int, s: Search, ghost rank: map<Cell, nat>, ghost clock: nat)
    returns (s': Search)
    requires gr.Valid()
    requires Core(gr, start, end, s, rank, clock)
    requires current in s.closed && start in s.closed
    requires -1 <= i <= 1 && -1 <= j <= 1
    ensures Core(gr, start, end, s', rank, clock)
    ensures s'.closed == s.closed
    ensures forall c :: c in s.open ==> c in s'.open
    ensures LegalStep(gr, current, Offset(current, i, j)) ==>
              Offset(current, i, j) in s'.closed || Offset(current, i, j) in s'.open
  {
    var ok := Admissible(gr, current, i, j, s.closed);
    if ok {
      s' := Update(hypot, gr, start, end, current, Offset(current, i, j), i, j, s, rank, clock);
    } else {
      s' := s;
    }
  }

  /** The score update for an admissible neighbour: a node not yet open is
      opened with its heuristic; it gets `current` as parent and the new g
      and f when it was just opened or the new g is lower. */
  method Update(hypot: (real, real) -> real, gr: Grid, start: Cell, end: Cell, current: Cell, neighbour: Cell,
                i: int, j: int, s: Search, ghost rank: map<Cell, nat>, ghost clock: nat)
    returns (s': Search)
    requires Core(gr, start, end, s, rank, clock)
    requires current in s.closed && start in s.closed
    requires LegalStep(gr, current, neighbour) && neighbour !in s.closed
    ensures Core(gr, start, end, s', rank, clock)
    ensures s'.closed == s.closed
    ensures forall c :: c in s.open ==> c in s'.open
    ensures neighbour in s'.open
  {
    s' := s;
    var gScore := Get(s.g, current) + hypot(i as real, j as real);
    // gScoreIsBest: a newly opened node, or a lower g than the node had.
    if neighbour !in s.open {
      var h := hypot((neighbour.x - end.x) as real, (neighbour.y - end.y) as real);
      s' := s.(open := s.open + [neighbour], h := s.h[neighbour := h],
               parent := s.parent[neighbour := current], g := s.g[neighbour := gScore],
               f := s.f[neighbour := gScore + h]);
      OpenNeighbour(gr, start, end, s, s', rank, clock, current, neighbour);
    } else if gScore < Get(s.g, neighbour) {
      s' := s.(parent := s.parent[neighbour := current], g := s.g[neighbour := gScore],
               f := s.f[neighbour := gScore + Get(s.h, neighbour)]);
      Reparent(gr, start, end, s, s', rank, clock, current, neighbour);
    }
  }

  /** Opening a node reached by a legal move from a closed node keeps the
      invariant; the node's parent is the node it was reached from. */
  lemma OpenNeighbour(gr: Grid, start: Cell, end: Cell, s: Search, s': Search, rank: map<Cell, nat>, clock: nat,
                      current: Cell, n: Cell)
    requires Core(gr, start, end, s, rank, clock)
    requires current in s.closed && start in s.closed
    requires LegalStep(gr, current, n) && n !in s.closed && n !in s.open
    requires s'.open == s.open + [n] && s'.closed == s.closed && s'.parent == s.parent[n := current]
    ensures Core(gr, start, end, s', rank, clock)
  {
    InFreeCells(gr, n);
    OpenLists(gr, start, end, s.open, s.closed, n);
    OpenLinks(gr, start, s.open, s.closed, s.parent, current, n);
    NewParentRanks(s.closed, s.parent, rank, clock, current, n);
  }

  lemma OpenLists(gr: Grid, start: Cell, end: Cell, open: seq<Cell>, closed: set<Cell>, n: Cell)
    requires Lists(gr, start, end, open, closed) && start in closed
    requires n in FreeCells(gr) && n !in closed && n !in open
    ensures Lists(gr, start, end, open + [n], closed)
  {
    AppendDistinct(open, n);
  }

  lemma OpenLinks(gr: Grid, start: Cell, open: seq<Cell>, closed: set<Cell>, parent: map<Cell, Cell>,
                  current: Cell, n: Cell)
    requires Links(gr, start, open, closed, parent)
    requires current in closed && start in closed && LegalStep(gr, current, n) && n !in closed
    ensures Links(gr, start, open + [n], closed, parent[n := current])
  {
    var p' := parent[n := current];
    forall c | c in p' ensures p'[c] in closed && LegalStep(gr, p'[c], c) {
      if c != n {
        assert p'[c] == parent[c];
      }
    }
    forall c | (c in closed || c in open + [n]) && c != start ensures c in p' {
      if c != n {
        assert c in open + [n] ==> c in open by {
          if c in open + [n] {
            var i :| 0 <= i < |open + [n]| && (open + [n])[i] == c;
            assert i < |open|;
          }
        }
      }
    }
  }

  /** A new parent link into a cell that is not closed leaves the ranks
      alone. */
  lemma NewParentRanks(closed: set<Cell>, parent: map<Cell, Cell>, rank: map<Cell, nat>, clock: nat,
                       current: Cell, n: Cell)
    requires Ranks(closed, parent, rank, clock) && n !in closed
    ensures Ranks(closed, parent[n := current], rank, clock)
  {
    var p' := parent[n := current];
    forall c | c in closed && c in p' && p'[c] in rank ensures rank[p'[c]] < rank[c] {
      assert c != n && p'[c] == parent[c];
    }
  }

  /** Appending a new cell keeps the open list free of repeats. */
  lemma AppendDistinct(open: seq<Cell>, n: Cell)
    requires Distinct(open) && n !in open
    ensures Distinct(open + [n])
  {
    var open' := open + [n];
    forall a, b | 0 <= a < b < |open'| ensures open'[a] != open'[b] {
      if b == |open| {
        assert open'[a] == open[a];
      }
    }
  }

  /** Giving an open node a closed parent it is a legal move from keeps the
      invariant. */
  lemma Reparent(gr: Grid, start: Cell, end: Cell, s: Search, s': Search, rank: map<Cell, nat>, clock: nat,
                 current: Cell, n: Cell)
    requires Core(gr, start, end, s, rank, clock)
    requires current in s.closed && start in s.closed
    requires LegalStep(gr, current, n) && n in s.open
    requires s'.open == s.open && s'.closed == s.closed && s'.parent == s.parent[n := current]
    ensures Core(gr, start, end, s', rank, clock)
  {
    assert n !in s.closed && n != start;
    ReparentLinks(gr, start, s.open, s.closed, s.parent, current, n);
    NewParentRanks(s.closed, s.parent, rank, clock, current, n);
  }

  lemma ReparentLinks(gr: Grid, start: Cell, open: seq<Cell>, closed: set<Cell>, parent: map<Cell, Cell>,
                      current: Cell, n: Cell)
    requires Links(gr, start, open, closed, parent)
    requires current in closed && LegalStep(gr, current, n) && n != start
    ensures Links(gr, start, open, closed, parent[n := current])
  {
    var p' := parent[n := current];
    forall c | c in p' ensures p'[c] in closed && LegalStep(gr, p'[c], c) {
      if c != n {
        assert p'[c] == parent[c];
      }
    }
  }

  /** The neighbour of `c` at column offset i and row offset j. */
  function Offset(c: Cell, i: int, j: int): Cell
  {
    Cell(c.x + i, c.y + j)
  }

  /** The inner loop over j in -1 .. 1 for one column offset i. */
  method ExpandColumn(gr: Grid, hypot: (real, real) -> real, start: Cell, end: Cell, current: Cell, i: int,
                      s: Search, ghost rank: map<Cell, nat>, ghost clock: nat)
    returns (s': Search)
    requires gr.Valid() && -1 <= i <= 1
    requires Core(gr, start, end, s, rank, clock)
    requires current in s.closed && start in s.closed
    ensures Core(gr, start, end, s', rank, clock) && s'.closed == s.closed
    ensures forall c :: c in s.open ==> c in s'.open
    ensures forall n :: LegalStep(gr, current, n) && n.x - current.x == i ==> n in s'.closed || n in s'.open
  {
    s' := s;
    var j := -1;
    while j <= 1
      invariant -1 <= j <= 2
      invariant Core(gr, start, end, s', rank, clock) && s'.closed == s.closed
      invariant forall c :: c in s.open ==> c in s'.open
      invariant forall dy :: -1 <= dy < j && LegalStep(gr, current, Offset(current, i, dy))
                  ==> Offset(current, i, dy) in s'.closed || Offset(current, i, dy) in s'.open
    {
      ghost var before := s';
      s' := Relax(gr, hypot, start, end, current, i, j, s', rank, clock);
      ColumnStep(gr, current, i, j, s, before, s');
      j := j + 1;
    }
    ColumnDone(gr, current, i, s');
  }

  lemma ColumnDone(gr: Grid, current: Cell, i: int, s: Search)
    requires forall dy :: -1 <= dy < 2 && LegalStep(gr, current, Offset(current, i, dy))
               ==> Offset(current, i, dy) in s.closed || Offset(current, i, dy) in s.open
    ensures forall n :: LegalStep(gr, current, n) && n.x - current.x == i ==> n in s.closed || n in s.open
  {
    forall n | LegalStep(gr, current, n) && n.x - current.x == i ensures n in s.closed || n in s.open {
      assert n == Offset(current, i, n.y - current.y);
    }
  }

  /** One turn of the inner loop: the neighbours below row offset j stay
      covered, and the one at j is now covered too. */
  lemma ColumnStep(gr: Grid, current: Cell, i: int, j: int, s: Search, before: Search, after: Search)
    requires forall c :: c in s.open ==> c in before.open
    requires forall dy :: -1 <= dy < j && LegalStep(gr, current, Offset(current, i, dy))
               ==> Offset(current, i, dy) in before.closed || Offset(current, i, dy) in before.open
    requires after.closed == before.closed && forall c :: c in before.open ==> c in after.open
    requires LegalStep(gr, current, Offset(current, i, j)) ==>
               Offset(current, i, j) in after.closed || Offset(current, i, j) in after.open
    ensures forall dy :: -1 <= dy < j + 1 && LegalStep(gr, current, Offset(current, i, dy))
              ==> Offset(current, i, dy) in after.closed || Offset(current, i, dy) in after.open
    ensures forall c :: c in s.open ==> c in after.open
  {
    forall dy | -1 <= dy < j + 1 && LegalStep(gr, current, Offset(current, i, dy))
      ensures Offset(current, i, dy) in after.closed || Offset(current, i, dy) in after.open
    {
      if dy < j {
        var n := Offset(current, i, dy);
        assert n in before.closed || n in before.open;
      }
    }
  }

  /** The double loop over i, j in -1 .. 1 that relaxes every neighbour of the
      node just closed. Afterwards every legal move out of it is open or closed. */
  method ExpandNeighbours(gr: Grid, hypot: (real, real) -> real, start: Cell, end: Cell, current: Cell,
                          s: Search, ghost rank: map<Cell, nat>, ghost clock: nat)
    returns (s': Search)
    requires gr.Valid()
    requires Core(gr, start, end, s, rank, clock)
    requires current in s.closed && start in s.closed
    requires Frontier(gr, s, {current})
    ensures Core(gr, start, end, s', rank, clock) && Frontier(gr, s', {})
    ensures s'.closed == s.closed
  {
    s' := s;
    var i := -1;
    while i <= 1
      invariant -1 <= i <= 2
      invariant Core(gr, start, end, s', rank, clock) && s'.closed == s.closed
      invariant forall c :: c in s.open ==> c in s'.open
      invariant forall n :: LegalStep(gr, current, n) && n.x - current.x < i ==> n in s'.closed || n in s'.open
    {
      s' := ExpandColumn(gr, hypot, start, end, current, i, s', rank, clock);
      i := i + 1;
    }
  }

  /** Closing the selected node keeps the invariant, except that its own
      neighbours are still to be expanded. */
  lemma CloseNode(gr: Grid, start: Cell, end: Cell, s: Search, rank: map<Cell, nat>, clock: nat, k: nat)
    requires Core(gr, start, end, s, rank, clock) && Frontier(gr, s, {})
    requires k < |s.open| && s.open[k] != end
    ensures var c := s.open[k];
            var s' := s.(open := RemoveAt(s.open, k), closed := s.closed + {c});
            && Core(gr, start, end, s', rank[c := clock], clock + 1)
            && Frontier(gr, s', {c})
            && c in s'.closed && start in s'.closed
  {
    var c := s.open[k];
    var s' := s.(open := RemoveAt(s.open, k), closed := s.closed + {c});
    CloseLists(gr, start, end, s.open, s.closed, k);
    CloseLinks(gr, start, s.open, s.closed, s.parent, k);
    CloseRanks(s.closed, s.parent, rank, clock, c);
    forall x, n | x in s'.closed && x !in {c} && LegalStep(gr, x, n) ensures n in s'.closed || n in s'.open {
      assert n in s.closed || n in s.open;
    }
  }

  lemma CloseLists(gr: Grid, start: Cell, end: Cell, open: seq<Cell>, closed: set<Cell>, k: nat)
    requires Lists(gr, start, end, open, closed)
    requires k < |open| && open[k] != end
    ensures Lists(gr, start, end, RemoveAt(open, k), closed + {open[k]})
    ensures start in closed + {open[k]}
  {
    if start !in closed {
      assert open[k] == start;
    }
  }

  lemma CloseLinks(gr: Grid, start: Cell, open: seq<Cell>, closed: set<Cell>, parent: map<Cell, Cell>, k: nat)
    requires Links(gr, start, open, closed, parent)
    requires k < |open| && Distinct(open)
    ensures Links(gr, start, RemoveAt(open, k), closed + {open[k]}, parent)
  {
  }

  lemma CloseRanks(closed: set<Cell>, parent: map<Cell, Cell>, rank: map<Cell, nat>, clock: nat, c: Cell)
    requires Ranks(closed, parent, rank, clock) && c !in closed
    requires forall x {:trigger parent[x]} :: x in parent ==> parent[x] in closed
    ensures Ranks(closed + {c}, parent, rank[c := clock], clock + 1)
  {
    var rank' := rank[c := clock];
    forall x | x in closed + {c} && x in parent && parent[x] in rank' ensures rank'[parent[x]] < rank'[x] {
      assert parent[x] in closed;
    }
  }

  /** Following parent links from the goal back to the start (the game pushes
      each node and reverses; prepending gives the same sequence). */
  method Reconstruct(gr: Grid, start: Cell, end: Cell, s: Search, ghost rank: map<Cell, nat>, ghost clock: nat)
    returns (cells: seq<Cell>)
    requires Core(gr, start, end, s, rank, clock)
    requires end in s.open && start != end
    ensures |cells| >= 2 && Connects(gr, cells, start, end)
  {
    var temp := end;
    cells := [end];
    while temp in s.parent
      invariant temp in s.closed || temp == end
      invariant Connects(gr, cells, temp, end)
      decreases if temp in rank then rank[temp] else clock
    {
      var p := s.parent[temp];
      assert LegalStep(gr, p, temp);
      cells := [p] + cells;
      temp := p;
    }
  }

  /** A set that holds the start, misses the goal and is closed under legal
      moves proves that no legal path joins them. */
  lemma {:induction false} NoPathOut(gr: Grid, start: Cell, end: Cell, closed: set<Cell>)
    requires start in closed && end !in closed
    requires forall c, n :: c in closed && LegalStep(gr, c, n) ==> n in closed
    ensures forall p :: !Connects(gr, p, start, end)
  {
    forall p | |p| > 0 && p[0] == start && LegalPath(gr, p) ensures p[|p| - 1] in closed {
      PathStaysIn(gr, p, closed, |p| - 1);
    }
  }

  lemma {:induction false} PathStaysIn(gr: Grid, p: seq<Cell>, closed: set<Cell>, i: nat)
    requires |p| > 0 && p[0] in closed && LegalPath(gr, p)
    requires forall c, n :: c in closed && LegalStep(gr, c, n) ==> n in closed
    requires i < |p|
    ensures p[i] in closed
  {
    if i > 0 {
      PathStaysIn(gr, p, closed, i - 1);
      assert LegalStep(gr, p[i - 1], p[i]);
    }
  }

  /** The A* loop of findPath between two distinct free cells. It stops with the
      reconstructed path when the goal is selected and with [] when the open
      list runs out, which happens exactly when no legal path exists. */
  method AStar(gr: Grid, hypot: (real, real) -> real, start: Cell, end: Cell) returns (cells: seq<Cell>)
    requires gr.Valid() && Free(gr, start) && Free(gr, end) && start != end
    ensures cells != [] ==> |cells| >= 2 && Connects(gr, cells, start, end)
    ensures cells == [] <==> forall p :: !Connects(gr, p, start, end)
  {
    var s := Search([start], {}, map[], map[], map[], map[]);
    ghost var rank: map<Cell, nat> := map[];
    ghost var clock: nat := 0;
    while |s.open| > 0
      invariant Core(gr, start, end, s, rank, clock) && Frontier(gr, s, {})
      decreases AllCells(gr) - s.closed
    {
      var k := LowestF(s.open, s.f);
      var current := s.open[k];
      if current == end {
        cells := Reconstruct(gr, start, end, s, rank, clock);
        return;
      }
      CloseNode(gr, start, end, s, rank, clock, k);
      InAllCells(gr, current);
      s := s.(open := RemoveAt(s.open, k), closed := s.closed + {current});
      rank := rank[current := clock];
      clock := clock + 1;
      s := ExpandNeighbours(gr, hypot, start, end, current, s, rank, clock);
    }
    NoPathOut(gr, start, end, s.closed);
    cells := [];
  }

  // ---------------------------------------------------------------------------
  // findPath
  // ---------------------------------------------------------------------------

  /** Math.floor(v / GRID_CELL_SIZE) */
  function CellIndex(v: real): int
  {
    (v / GRID_CELL_SIZE as real).Floor
  }

  function CellAt(p: Point): Cell
  {
    Cell(CellIndex(p.x), CellIndex(p.y))
  }

  function Centre(c: Cell): Point
  {
    Point(CellCentre(c.x), CellCentre(c.y))
  }

  /** The world coordinates of the centres of a run of cells. */
  function Centres(cells: seq<Cell>): (ps: seq<Point>)
    ensures |ps| == |cells|
    ensures forall i :: 0 <= i < |cells| ==> ps[i] == Centre(cells[i])
  {
    seq(|cells|, i requires 0 <= i < |cells| => Centre(cells[i]))
  }

  /** The cells findPath plans between, for start cell `s` and end cell `e`:
      stand-ins `from` and `to` that are nearest free cells to them (the cells
      themselves when free); no path when the stand-ins coincide; otherwise a
      legal path joining them, empty exactly when none exists. */
  ghost predicate Resolved(gr: Grid, s: Cell, e: Cell, from: Cell, to: Cell, cells: seq<Cell>)
  {
    && NearestFree(gr, s, from) && NearestFree(gr, e, to)
    && (Free(gr, s) ==> from == s) && (Free(gr, e) ==> to == e)
    && (from == to ==> cells == [])
    && (from != to ==> (cells == [] <==> forall p :: !Connects(gr, p, from, to)))
    && (cells != [] ==> Connects(gr, cells, from, to))
  }

  /** What findPath promises of the cells of the path between two world
      points: none when either endpoint is off the grid, when the grid is all
      wall, or when a free start cell is also the end cell; otherwise a legal
      path of at least two cells that starts at the start cell and ends at the
      end cell whenever those are free; between two distinct free cells, none
      exactly when no legal path connects them; and in general, whenever both
      endpoints are on a grid with a free cell, the path is planned between
      their nearest free stand-ins as `Resolved` says. */
  ghost predicate Routes(gr: Grid, startPos: Point, endPos: Point, cells: seq<Cell>)
  {
    var s := CellAt(startPos);
    var e := CellAt(endPos);
    && (!gr.InBounds(s.x, s.y) || !gr.InBounds(e.x, e.y) ==> cells == [])
    && ((forall x, y :: 0 <= x < gr.cols && 0 <= y < gr.rows ==> gr.IsWall(x, y)) ==> cells == [])
    && (cells != [] ==> |cells| >= 2 && LegalPath(gr, cells))
    && (cells != [] && Free(gr, s) ==> cells[0] == s)
    && (cells != [] && Free(gr, e) ==> cells[|cells| - 1] == e)
    && (Free(gr, s) && s == e ==> cells == [])
    && (Free(gr, s) && Free(gr, e) && s != e ==> (cells == [] <==> forall p :: !Connects(gr, p, s, e)))
    && (gr.InBounds(s.x, s.y) && gr.InBounds(e.x, e.y) &&
        !(forall x, y :: 0 <= x < gr.cols && 0 <= y < gr.rows ==> gr.IsWall(x, y)) ==>
          exists from, to :: Resolved(gr, s, e, from, to, cells))
  }

  /** findPath: [] when either endpoint is off the grid, when no free cell can
      stand in for a walled endpoint, when both endpoints resolve to the same
      cell, or when A* exhausts its open list; otherwise the centres of a legal
      path of at least two cells between the (substituted) endpoints. */
  method FindPath(gr: Grid, hypot: (real, real) -> real, startPos: Point, endPos: Point)
    returns (path: seq<Point>, cells: seq<Cell>)
    requires gr.Valid()
    ensures path == Centres(cells)
    ensures Routes(gr, startPos, endPos, cells)
  {
    var startCell, endCell := CellAt(startPos), CellAt(endPos);
    if !gr.InBounds(startCell.x, startCell.y) || !gr.InBounds(endCell.x, endCell.y) {
      return [], [];
    }
    var startNode := FindClosestValidNode(gr, startCell);
    var endNode := FindClosestValidNode(gr, endCell);
    if startNode.None? || endNode.None? {
      return [], [];
    }
    if startNode.value == endNode.value {
      assert Resolved(gr, startCell, endCell, startNode.value, endNode.value, []);
      return [], [];
    }
    cells := AStar(gr, hypot, startNode.value, endNode.value);
    path := Centres(cells);
    assert Resolved(gr, startCell, endCell, startNode.value, endNode.value, cells);
  }

  // ---------------------------------------------------------------------------
  // smoothPath
  // ---------------------------------------------------------------------------

  /** smoothPath: paths of at most two points come back unchanged; longer ones
      are smoothed greedily. The loop keeps the first point, then scans forward:
      while the line of sight from the last kept point to path[i] is clear it
      skips, and when it is blocked it keeps path[i - 1]; the last point is
      always kept. `idx` names the input position of every kept point. */
  method SmoothPath(path: seq<Point>, clear: (Point, Point) -> bool) returns (r: seq<Point>, ghost idx: seq<int>)
    ensures |path| <= 2 ==> r == path
    ensures |path| > 2 ==> Smoothed(path, clear, idx) && r == Pick(path, idx)
    ensures |path| > 2 ==> |r| >= 2 && r[0] == path[0] && r[|r| - 1] == path[|path| - 1]
  {
    if |path| <= 2 {
      return path, [];
    }
    r := [path[0]];
    idx := [0];
    ScanStart(path, clear);
    var last := path[0];
    var i := 2;
    while i < |path|
      invariant 2 <= i <= |path|
      invariant Scanned(path, clear, idx, i)
      invariant r == Pick(path, idx)
      invariant last == path[idx[|idx| - 1]]
    {
      if !clear(last, path[i]) {
        ScanKeep(path, clear, idx, i);
        r := r + [path[i - 1]];
        idx := idx + [i - 1];
        last := path[i - 1];
      } else {
        ScanSkip(path, clear, idx, i);
      }
      i := i + 1;
    }
    ScanFinish(path, clear, idx);
    r := r + [path[|path| - 1]];
    idx := idx + [|path| - 1];
  }

  lemma ScanKeep(path: seq<Point>, clear: (Point, Point) -> bool, idx: seq<int>, i: int)
    requires Scanned(path, clear, idx, i) && i < |path|
    requires !clear(path[idx[|idx| - 1]], path[i])
    ensures Scanned(path, clear, idx + [i - 1], i + 1)
    ensures Pick(path, idx + [i - 1]) == Pick(path, idx) + [path[i - 1]]
  {
    var idx' := idx + [i - 1];
    assert forall k :: 0 <= k < |idx| ==> idx'[k] == idx[k];
    assert SkippedVisible(path, clear, idx'[|idx| - 1], idx'[|idx|]);
  }

  lemma ScanStart(path: seq<Point>, clear: (Point, Point) -> bool)
    requires |path| > 2
    ensures Scanned(path, clear, [0], 2) && Pick(path, [0]) == [path[0]]
  {
  }

  lemma ScanSkip(path: seq<Point>, clear: (Point, Point) -> bool, idx: seq<int>, i: int)
    requires Scanned(path, clear, idx, i) && i < |path|
    requires clear(path[idx[|idx| - 1]], path[i])
    ensures Scanned(path, clear, idx, i + 1)
  {
  }

  lemma ScanFinish(path: seq<Point>, clear: (Point, Point) -> bool, idx: seq<int>)
    requires Scanned(path, clear, idx, |path|)
    ensures Smoothed(path, clear, idx + [|path| - 1])
    ensures Pick(path, idx + [|path| - 1]) == Pick(path, idx) + [path[|path| - 1]]
  {
    var idx' := idx + [|path| - 1];
    assert forall k :: 0 <= k < |idx| ==> idx'[k] == idx[k];
    assert SkippedVisible(path, clear, idx'[|idx| - 1], idx'[|idx|]);
  }

  /** The greedy result never has more points than the path. */
  lemma {:induction false} SmoothedIsShorter(path: seq<Point>, clear: (Point, Point) -> bool, idx: seq<int>)
    requires Smoothed(path, clear, idx)
    ensures |idx| <= |path|
  {
    IncreasingBound(idx, |idx| - 1);
  }

  lemma {:induction false} IncreasingBound(idx: seq<int>, k: nat)
    requires StrictlyIncreasing(idx) && k < |idx| && idx[0] >= 0
    ensures idx[k] >= k
  {
    if k > 0 {
      IncreasingBound(idx, k - 1);
    }
  }

  /** Every segment of the smoothed path is either one step of the original
      path or a line of sight that was found clear. */
  lemma SmoothedSegments(path: seq<Point>, clear: (Point, Point) -> bool, idx: seq<int>, k: nat)
    requires Smoothed(path, clear, idx) && k + 1 < |idx|
    ensures idx[k + 1] == idx[k] + 1 || clear(path[idx[k]], path[idx[k + 1]])
  {
    assert SkippedVisible(path, clear, idx[k], idx[k + 1]);
  }

  /** When every point is visible from the first, smoothing leaves only the
      two endpoints. */
  lemma SmoothedAllClear(path: seq<Point>, clear: (Point, Point) -> bool, idx: seq<int>)
    requires Smoothed(path, clear, idx) && |path| > 2
    requires forall j :: 2 <= j < |path| ==> clear(path[0], path[j])
    ensures Pick(path, idx) == [path[0], path[|path| - 1]]
  {
    InnerPointBlocked(path, clear, idx);
  }

  /** An inner kept point is the witness of a blocked line of sight from the start. */
  lemma InnerPointBlocked(path: seq<Point>, clear: (Point, Point) -> bool, idx: seq<int>)
    requires Smoothed(path, clear, idx)
    ensures |idx| > 2 ==> exists j :: 2 <= j < |path| && !clear(path[0], path[j])
  {
    if |idx| > 2 {
      var j := idx[1] + 1;
      assert idx[1] < idx[2];
      assert !clear(path[idx[0]], path[j]);
    }
  }
}
