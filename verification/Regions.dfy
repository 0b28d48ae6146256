/** Regions as sets of cells, and the flood fill that decides whether one is connected. */
module Regions {
  import opened Boards
  import opened Finite

  datatype Cell = Cell(r: int, c: int)

  datatype Skip = NoCell | Without(cell: Cell)

  predicate OnBoard(n: nat, x: Cell) {
    0 <= x.r < n && 0 <= x.c < n
  }

  /** Neighbours up, down, left or right. */
  predicate Adjacent(a: Cell, b: Cell) {
    Abs(a.r - b.r) + Abs(a.c - b.c) == 1
  }

  function RegionCells(n: nat, g: Grid, id: int): set<Cell>
    requires Square(n, g)
  {
    set r, c | 0 <= r < n && 0 <= c < n && g[r][c] == id :: Cell(r, c)
  }

  ghost predicate ClosedIn(part: set<Cell>, whole: set<Cell>) {
    forall a, b :: a in part && b in whole && Adjacent(a, b) ==> b in part
  }

  /** One blob: no nonempty part is cut off from the rest. */
  ghost predicate Connected(s: set<Cell>) {
    s != {} && forall part: set<Cell> :: part <= s && part != {} && ClosedIn(part, s) ==> part == s
  }

  lemma SingleCellConnected(x: Cell)
    ensures Connected({x})
  {
    forall part: set<Cell> | part <= {x} && part != {}
      ensures part == {x}
    {
    }
  }

  lemma ConnectedGrows(s: set<Cell>, a: Cell, x: Cell)
    requires Connected(s) && a in s && Adjacent(a, x)
    ensures Connected(s + {x})
  {
    var whole := s + {x};
    forall part: set<Cell> | part <= whole && part != {} && ClosedIn(part, whole)
      ensures part == whole
    {
      assert x in part ==> a in part;
      var inner := part * s;
      assert inner != {};
      assert ClosedIn(inner, s);
      assert a in part && Adjacent(a, x);
    }
  }

  function Neighbours(x: Cell): seq<Cell> {
    [Cell(x.r + 1, x.c), Cell(x.r - 1, x.c), Cell(x.r, x.c + 1), Cell(x.r, x.c - 1)]
  }

  lemma NeighboursAreAdjacent(x: Cell, y: Cell)
    ensures y in Neighbours(x) <==> Adjacent(x, y)
  {
    var ns := Neighbours(x);
    if Adjacent(x, y) {
      assert y == ns[0] || y == ns[1] || y == ns[2] || y == ns[3];
    }
  }

  /** What the flood fill keeps while it works through its stack. */
  ghost predicate Filling(cells: set<Cell>, start: Cell, seen: set<Cell>, stack: seq<Cell>) {
    && start in seen && seen <= cells
    && (forall x :: x in stack ==> x in seen)
    && (forall a, b :: a in seen && a !in stack && b in cells && Adjacent(a, b) ==> b in seen)
    && (forall part: set<Cell> :: start in part && part <= cells && ClosedIn(part, cells) ==> seen <= part)
  }

  /** `region_connected`: true exactly when the cells of the region, without `skip`, form one blob. */
  method RegionConnected(n: nat, region: Grid, rid: int, skip: Skip) returns (yes: bool)
    requires Square(n, region)
    ensures yes <==> Connected(RegionCells(n, region, rid) - (if skip.Without? then {skip.cell} else {}))
  {
    var cells := RegionCells(n, region, rid) - (if skip.Without? then {skip.cell} else {});
    if cells == {} {
      return false;
    }
    var start :| start in cells;
    var seen, stack := {start}, [start];
    while stack != []
      invariant Filling(cells, start, seen, stack)
      decreases |cells - seen|, |stack|
    {
      var x := stack[|stack| - 1];
      ghost var seen0, stack0 := seen, stack;
      seen, stack := Visit(n, region, rid, skip, cells, x, seen, stack[..|stack| - 1]);
      VisitKeeps(cells, start, x, seen0, stack0, seen, stack);
    }
    FilledDecides(cells, start, seen);
    SubsetCard(seen, cells);
    return |seen| == |cells|;
  }

  /** Looks at the four neighbours of a cell taken off the stack. */
  method Visit(n: nat, region: Grid, rid: int, skip: Skip, ghost cells: set<Cell>, x: Cell, seen0: set<Cell>, stack0: seq<Cell>)
    returns (seen: set<Cell>, stack: seq<Cell>)
    requires Square(n, region)
    requires cells == RegionCells(n, region, rid) - (if skip.Without? then {skip.cell} else {})
    ensures seen == seen0 + (set y | y in cells && Adjacent(x, y))
    ensures |stack| == |stack0| + |seen - seen0|
    ensures forall y :: y in stack <==> y in stack0 || y in seen - seen0
  {
    seen, stack := seen0, stack0;
    var ns := Neighbours(x);
    for k := 0 to |ns|
      invariant Visited(cells, seen0, stack0, ns[..k], seen, stack)
    {
      var nb := ns[k];
      InRegion(n, region, rid, skip, nb);
      VisitOne(cells, seen0, stack0, ns, k, seen, stack);
      if nb !in seen && 0 <= nb.r < n && 0 <= nb.c < n && region[nb.r][nb.c] == rid && skip != Without(nb) {
        seen := seen + {nb};
        stack := stack + [nb];
      }
    }
    assert ns[..|ns|] == ns;
    forall y
      ensures y in ns <==> Adjacent(x, y)
    {
      NeighboursAreAdjacent(x, y);
    }
  }

  lemma InRegion(n: nat, region: Grid, rid: int, skip: Skip, x: Cell)
    requires Square(n, region)
    ensures x in RegionCells(n, region, rid) - (if skip.Without? then {skip.cell} else {}) <==>
      OnBoard(n, x) && region[x.r][x.c] == rid && skip != Without(x)
  {
  }

  ghost predicate Visited(cells: set<Cell>, seen0: set<Cell>, stack0: seq<Cell>, done: seq<Cell>, seen: set<Cell>, stack: seq<Cell>) {
    && seen == seen0 + (set y | y in cells && y in done)
    && |stack| == |stack0| + |seen - seen0|
    && (forall y :: y in stack <==> y in stack0 || y in seen - seen0)
  }

  lemma VisitOne(cells: set<Cell>, seen0: set<Cell>, stack0: seq<Cell>, ns: seq<Cell>, k: nat, seen: set<Cell>, stack: seq<Cell>)
    requires k < |ns| && Visited(cells, seen0, stack0, ns[..k], seen, stack)
    ensures if ns[k] in cells && ns[k] !in seen
      then Visited(cells, seen0, stack0, ns[..k + 1], seen + {ns[k]}, stack + [ns[k]])
      else Visited(cells, seen0, stack0, ns[..k + 1], seen, stack)
  {
    var nb := ns[k];
    assert ns[..k + 1] == ns[..k] + [nb];
    if nb in cells && nb !in seen {
      assert (seen + {nb}) - seen0 == (seen - seen0) + {nb};
    }
  }

  lemma VisitKeeps(cells: set<Cell>, start: Cell, x: Cell, seen0: set<Cell>, stack0: seq<Cell>, seen: set<Cell>, stack: seq<Cell>)
    requires Filling(cells, start, seen0, stack0) && stack0 != [] && x == stack0[|stack0| - 1]
    requires seen == seen0 + (set y | y in cells && Adjacent(x, y))
    requires |stack| == |stack0| - 1 + |seen - seen0|
    requires forall y :: y in stack <==> y in stack0[..|stack0| - 1] || y in seen - seen0
    ensures Filling(cells, start, seen, stack)
    ensures |cells - seen| < |cells - seen0| || (|cells - seen| == |cells - seen0| && |stack| < |stack0|)
  {
    assert stack0 == stack0[..|stack0| - 1] + [x];
    SubsetCard(cells - seen, cells - seen0);
    if |cells - seen| == |cells - seen0| {
      assert seen - seen0 <= (cells - seen0) - (cells - seen);
      assert seen - seen0 == {};
    }
    forall part: set<Cell> | start in part && part <= cells && ClosedIn(part, cells)
      ensures seen <= part
    {
      assert seen0 <= part;
    }
  }

  lemma FilledDecides(cells: set<Cell>, start: Cell, seen: set<Cell>)
    requires start in cells && Filling(cells, start, seen, [])
    ensures seen == cells <==> Connected(cells)
  {
    assert ClosedIn(seen, cells);
    if seen == cells {
      forall part: set<Cell> | part <= cells && part != {} && ClosedIn(part, cells)
        ensures part == cells
      {
        ComplementClosed(part, cells);
        assert start in cells - part ==> seen <= cells - part;
        assert start in part ==> seen <= part;
      }
    }
  }

  /** Adjacency goes both ways, so what is left of a closed part is closed too. */
  lemma ComplementClosed(part: set<Cell>, whole: set<Cell>)
    requires part <= whole && ClosedIn(part, whole)
    ensures ClosedIn(whole - part, whole)
  {
    forall a, b | a in whole - part && b in whole && Adjacent(a, b)
      ensures b in whole - part
    {
      assert b in part && Adjacent(b, a) ==> a in part;
    }
  }
}
