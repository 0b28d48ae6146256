/** Growing regions around a placement, and nudging their borders until the placement is the only
    solution. Random choices are arbitrary choices. */
module Generator {
  import opened Boards
  import opened Finite
  import opened Enumeration
  import opened Regions
  import Publishing

  const UNASSIGNED := -1

  /** Region ids 0..n-1, with UNASSIGNED for the cells not reached yet. */
  ghost predicate Growing(n: nat, g: Grid) {
    Square(n, g) && forall r, c :: 0 <= r < n && 0 <= c < n ==> UNASSIGNED <= g[r][c] < n
  }

  ghost predicate EveryRegionConnected(n: nat, g: Grid)
    requires Square(n, g)
  {
    forall k :: 0 <= k < n ==> Connected(RegionCells(n, g, k))
  }

  /** The queen of row r sits in region r. */
  ghost predicate Rooted(n: nat, g: Grid, queens: seq<int>)
    requires Square(n, g)
  {
    |queens| == n && forall r :: 0 <= r < n ==> 0 <= queens[r] < n && g[r][queens[r]] == r
  }

  function Recolour(g: Grid, x: Cell, id: int): Grid
    requires 0 <= x.r < |g| && 0 <= x.c < |g[x.r]|
  {
    g[x.r := g[x.r][x.c := id]]
  }

  lemma RecolourCells(n: nat, g: Grid, x: Cell, id: int, k: int)
    requires Square(n, g) && OnBoard(n, x)
    ensures Square(n, Recolour(g, x, id))
    ensures RegionCells(n, Recolour(g, x, id), k) ==
      if k == id then RegionCells(n, g, k) + {x} else RegionCells(n, g, k) - {x}
  {
    var h := Recolour(g, x, id);
    forall r, c | 0 <= r < n && 0 <= c < n
      ensures h[r][c] == if Cell(r, c) == x then id else g[r][c]
    {
    }
  }

  /** An assigned cell next to an unassigned one. */
  predicate IsFrontier(n: nat, g: Grid, a: Cell, b: Cell)
    requires Square(n, g)
  {
    && OnBoard(n, a) && OnBoard(n, b) && Adjacent(a, b)
    && g[a.r][a.c] >= 0 && g[b.r][b.c] < 0
  }

  /** While a cell is unassigned there is a frontier: its row holds a queen, so somewhere between
      the two an assigned and an unassigned cell meet. */
  lemma FrontierExists(n: nat, g: Grid, queens: seq<int>, x: Cell) returns (a: Cell, b: Cell)
    requires Growing(n, g) && Rooted(n, g, queens) && OnBoard(n, x) && g[x.r][x.c] < 0
    ensures IsFrontier(n, g, a, b)
  {
    var r := x.r;
    var c := queens[r];
    var step := if c < x.c then 1 else -1;
    while g[r][c + step] >= 0
      invariant 0 <= c < n && g[r][c] >= 0
      invariant if step == 1 then c < x.c else x.c < c
      invariant step == 1 || step == -1
      decreases Abs(x.c - c)
    {
      c := c + step;
    }
    a, b := Cell(r, c), Cell(r, c + step);
  }

  // ----- growth -----

  /** How many cells the region of a cell has. */
  ghost function RegionSize(n: nat, g: Grid, x: Cell): nat
    requires Square(n, g)
  {
    if OnBoard(n, x) then |RegionCells(n, g, g[x.r][x.c])| else 0
  }

  ghost predicate SizesOf(n: nat, g: Grid, sizes: seq<nat>)
    requires Square(n, g)
  {
    |sizes| == n && forall k :: 0 <= k < n ==> sizes[k] == |RegionCells(n, g, k)|
  }

  /** The unassigned cell b joins the region of its neighbour a; a region below the limit grows
      whenever one can. */
  ghost predicate Joins(n: nat, maxSize: nat, g: Grid, a: Cell, b: Cell, h: Grid) {
    && Square(n, g) && IsFrontier(n, g, a, b) && h == Recolour(g, b, g[a.r][a.c])
    && (RegionSize(n, g, a) < maxSize || forall x, y :: IsFrontier(n, g, x, y) ==> RegionSize(n, g, x) >= maxSize)
  }

  ghost predicate JoinTo(n: nat, maxSize: nat, g: Grid, h: Grid) {
    exists a, b :: Joins(n, maxSize, g, a, b, h)
  }

  /** Cell by cell from the queens alone. */
  ghost predicate Growth(n: nat, queens: seq<int>, maxSize: nat, grown: seq<Grid>) {
    && |grown| > 0 && |queens| == n && Square(n, grown[0])
    && (forall r, c :: 0 <= r < n && 0 <= c < n ==> grown[0][r][c] == if c == queens[r] then r else UNASSIGNED)
    && (forall k :: 0 <= k < |grown| - 1 ==> JoinTo(n, maxSize, grown[k], grown[k + 1]))
  }

  lemma GrowthContinues(n: nat, queens: seq<int>, maxSize: nat, grown: seq<Grid>, h: Grid)
    requires Growth(n, queens, maxSize, grown) && JoinTo(n, maxSize, grown[|grown| - 1], h)
    ensures Growth(n, queens, maxSize, grown + [h])
  {
  }

  lemma OneMoreCell(n: nat, g: Grid, sizes: seq<nat>, a: Cell, b: Cell)
    requires Growing(n, g) && SizesOf(n, g, sizes) && IsFrontier(n, g, a, b)
    ensures var id := g[a.r][a.c]; Square(n, Recolour(g, b, id)) && SizesOf(n, Recolour(g, b, id), sizes[id := sizes[id] + 1])
  {
    var id := g[a.r][a.c];
    forall k | 0 <= k < n
      ensures |RegionCells(n, Recolour(g, b, id), k)| == sizes[id := sizes[id] + 1][k]
    {
      RecolourCells(n, g, b, id, k);
      assert b !in RegionCells(n, g, k);
      assert RegionCells(n, g, k) - {b} == RegionCells(n, g, k);
    }
    RecolourCells(n, g, b, id, id);
  }

  // ----- border moves -----

  /** A region next to x that is not its own. */
  ghost predicate IsTarget(n: nat, g: Grid, x: Cell, id: int)
    requires Square(n, g) && OnBoard(n, x)
  {
    id != g[x.r][x.c] && exists y :: OnBoard(n, y) && Adjacent(x, y) && g[y.r][y.c] == id
  }

  /** x can change hands: another region is next to it, and its own stays in one piece without it. */
  ghost predicate Movable(n: nat, g: Grid, x: Cell)
    requires Square(n, g) && OnBoard(n, x)
  {
    (exists id :: IsTarget(n, g, x, id)) && Connected(RegionCells(n, g, g[x.r][x.c]) - {x})
  }

  /** A queen cell of `alt` that is not intended goes over to a region next to it. */
  ghost predicate HandedOver(n: nat, g: Grid, queens: seq<int>, alt: seq<int>, x: Cell, id: int, h: Grid)
    requires Square(n, g) && |queens| == |alt| == n
  {
    && OnBoard(n, x) && x.c == alt[x.r] != queens[x.r]
    && Movable(n, g, x) && IsTarget(n, g, x, id) && h == Recolour(g, x, id)
  }

  /** No queen cell of `alt` that is not intended can change hands. */
  ghost predicate NothingMovable(n: nat, g: Grid, queens: seq<int>, alt: seq<int>)
    requires Square(n, g) && |queens| == |alt| == n
  {
    forall r :: 0 <= r < n && alt[r] != queens[r] && 0 <= alt[r] < n ==> !Movable(n, g, Cell(r, alt[r]))
  }

  /** One move of `repair`: against a solution that is not the intended one. */
  ghost predicate Moves(n: nat, queens: seq<int>, g: Grid, alt: seq<int>, x: Cell, id: int, h: Grid) {
    && Square(n, g) && |queens| == n && IsSolution(n, g, alt) && alt != queens
    && HandedOver(n, g, queens, alt, x, id, h)
  }

  ghost predicate MoveTo(n: nat, queens: seq<int>, g: Grid, h: Grid) {
    exists alt, x, id :: Moves(n, queens, g, alt, x, id, h)
  }

  /** Where `repair` gives up: another solution, and none of its cells can change hands. */
  ghost predicate StuckOn(n: nat, queens: seq<int>, g: Grid, alt: seq<int>) {
    Square(n, g) && |queens| == n && IsSolution(n, g, alt) && alt != queens && NothingMovable(n, g, queens, alt)
  }

  ghost predicate StuckAt(n: nat, queens: seq<int>, g: Grid) {
    exists alt :: StuckOn(n, queens, g, alt)
  }

  /** The boards `repair` goes through, one move at a time. */
  ghost predicate MovesThrough(n: nat, queens: seq<int>, boards: seq<Grid>) {
    |boards| > 0 && forall k :: 0 <= k < |boards| - 1 ==> MoveTo(n, queens, boards[k], boards[k + 1])
  }

  lemma MovesOn(n: nat, queens: seq<int>, boards: seq<Grid>, h: Grid)
    requires MovesThrough(n, queens, boards) && MoveTo(n, queens, boards[|boards| - 1], h)
    ensures MovesThrough(n, queens, boards + [h])
  {
  }

  lemma NoneBelow(n: nat, g: Grid, maxSize: nat, cands: seq<(Cell, Cell)>, open: seq<(Cell, Cell)>)
    requires Square(n, g) && open == []
    requires forall x, y :: (x, y) in cands <==> IsFrontier(n, g, x, y)
    requires forall x, y :: (x, y) in open <==> (x, y) in cands && RegionSize(n, g, x) < maxSize
    ensures forall x, y :: IsFrontier(n, g, x, y) ==> RegionSize(n, g, x) >= maxSize
  {
    forall x, y | IsFrontier(n, g, x, y)
      ensures RegionSize(n, g, x) >= maxSize
    {
      assert (x, y) in cands && (x, y) !in open;
    }
  }

  class Generation {
    const n: nat
    var region: Grid

    constructor (n: nat)
      ensures this.n == n && region == seq(n, _ => seq(n, _ => UNASSIGNED))
    {
      this.n := n;
      region := seq(n, _ => seq(n, _ => UNASSIGNED));
    }

    /** Every pair of an assigned cell and an unassigned neighbour. */
    method FrontierPairs() returns (cands: seq<(Cell, Cell)>)
      requires Square(n, region)
      ensures forall a, b :: (a, b) in cands <==> IsFrontier(n, region, a, b)
    {
      cands := [];
      for r := 0 to n
        invariant forall a: Cell, b: Cell :: (a, b) in cands <==> IsFrontier(n, region, a, b) && a.r < r
      {
        for c := 0 to n
          invariant forall a: Cell, b: Cell :: (a, b) in cands <==>
            IsFrontier(n, region, a, b) && (a.r < r || (a.r == r && a.c < c))
        {
          var more := FrontierOf(Cell(r, c));
          cands := cands + more;
        }
      }
    }

    method FrontierOf(a: Cell) returns (cands: seq<(Cell, Cell)>)
      requires Square(n, region) && OnBoard(n, a)
      ensures forall x, y :: (x, y) in cands <==> x == a && IsFrontier(n, region, x, y)
    {
      cands := [];
      if region[a.r][a.c] >= 0 {
        var ns := Neighbours(a);
        for k := 0 to |ns|
          invariant forall x, y :: (x, y) in cands <==>
            x == a && y in ns[..k] && OnBoard(n, y) && region[y.r][y.c] < 0
        {
          var nb := ns[k];
          if 0 <= nb.r < n && 0 <= nb.c < n && region[nb.r][nb.c] < 0 {
            cands := cands + [(a, nb)];
          }
          assert ns[..k + 1] == ns[..k] + [nb];
        }
        assert ns[..|ns|] == ns;
        forall y
          ensures y in ns <==> Adjacent(a, y)
        {
          NeighboursAreAdjacent(a, y);
        }
      }
    }

    /** `grow_regions`: one random frontier pair at a time, preferring regions below `maxSize`. */
    method GrowRegions(queens: seq<int>, maxSize: nat) returns (ghost grown: seq<Grid>)
      requires |queens| == n && forall r :: 0 <= r < n ==> 0 <= queens[r] < n
      modifies this
      ensures Square(n, region) && IdsInRange(n, region)
      ensures Growth(n, queens, maxSize, grown) && grown[|grown| - 1] == region
      ensures Rooted(n, region, queens) && EveryRegionConnected(n, region)
    {
      region := seq(n, r requires 0 <= r < n => seq(n, c requires 0 <= c < n => if c == queens[r] then r else UNASSIGNED));
      SeedsConnected(n, region, queens);
      var sizes := seq(n, _ => 1);
      SeedSizes(n, region, queens);
      UnassignedCount(n, region, queens);
      var remaining := n * n - n;
      grown := [region];
      while remaining > 0
        invariant Growing(n, region) && Rooted(n, region, queens) && EveryRegionConnected(n, region)
        invariant SizesOf(n, region, sizes)
        invariant remaining == |RegionCells(n, region, UNASSIGNED)|
        invariant Growth(n, queens, maxSize, grown) && grown[|grown| - 1] == region
      {
        sizes := GrowCell(queens, maxSize, sizes);
        GrowthContinues(n, queens, maxSize, grown, region);
        grown := grown + [region];
        remaining := remaining - 1;
      }
      AllAssigned(n, region);
    }

    /** One random frontier pair, preferring regions below the limit. */
    method GrowCell(queens: seq<int>, maxSize: nat, sizes: seq<nat>) returns (sizes': seq<nat>)
      requires Growing(n, region) && Rooted(n, region, queens) && EveryRegionConnected(n, region)
      requires SizesOf(n, region, sizes) && |RegionCells(n, region, UNASSIGNED)| > 0
      modifies this
      ensures Growing(n, region) && Rooted(n, region, queens) && EveryRegionConnected(n, region)
      ensures SizesOf(n, region, sizes') && JoinTo(n, maxSize, old(region), region)
      ensures |RegionCells(n, region, UNASSIGNED)| == old(|RegionCells(n, region, UNASSIGNED)|) - 1
    {
      var cands := FrontierPairs();
      SomeFrontier(n, region, queens, cands);
      var open := BelowSize(cands, sizes, maxSize);
      if open != [] {
        cands := open;
      } else {
        NoneBelow(n, region, maxSize, cands, open);
      }
      assert cands[0] in cands;
      var pick :| pick in cands;
      var (a, b) := pick;
      GrowOne(n, region, queens, a, b);
      OneMoreCell(n, region, sizes, a, b);
      assert Joins(n, maxSize, region, a, b, Recolour(region, b, region[a.r][a.c]));
      sizes' := sizes[region[a.r][a.c] := sizes[region[a.r][a.c]] + 1];
      region := Recolour(region, b, region[a.r][a.c]);
    }

    /** `repair`: at most `maxSteps` border moves; true exactly when the intended placement has
        become the only solution. It gives up only when it is stuck or has made all its moves. */
    method Repair(queens: seq<int>, maxSteps: nat) returns (unique: bool, ghost boards: seq<Grid>)
      requires Repairable(n, region, queens)
      modifies this
      ensures Repairable(n, region, queens)
      ensures unique <==> UniquelySolvedBy(n, region, queens)
      ensures MovesThrough(n, queens, boards) && boards[0] == old(region) && boards[|boards| - 1] == region
      ensures |boards| <= maxSteps + 1
      ensures unique || |boards| == maxSteps + 1 || StuckAt(n, queens, region)
    {
      boards := [region];
      for step := 0 to maxSteps
        invariant Repairable(n, region, queens)
        invariant MovesThrough(n, queens, boards) && boards[0] == old(region) && boards[|boards| - 1] == region
        invariant |boards| == step + 1
      {
        var moved;
        unique, moved := RepairStep(queens);
        if unique || !moved {
          return;
        }
        MovesOn(n, queens, boards, region);
        boards := boards + [region];
      }
      unique := CountIsOne(queens);
    }

    /** Done, or one move against a solution that is not the intended one, or no such move. */
    method RepairStep(queens: seq<int>) returns (unique: bool, moved: bool)
      requires Repairable(n, region, queens)
      modifies this
      ensures Repairable(n, region, queens)
      ensures unique <==> old(UniquelySolvedBy(n, region, queens))
      ensures moved ==> !unique && MoveTo(n, queens, old(region), region)
      ensures !moved ==> region == old(region) && (unique || StuckAt(n, queens, region))
    {
      var sols := Solve(n, region, 2);
      TwoSolutions(n, region, queens, sols);
      if |sols| == 1 {
        return true, false;
      }
      // next(s for s in sols if s != queens): one of the two is not the intended one
      var alt := if sols[0] != queens then sols[0] else sols[1];
      unique := false;
      moved := MoveBorder(queens, alt);
      if !moved {
        assert StuckOn(n, queens, region, alt);
      }
    }

    method CountIsOne(queens: seq<int>) returns (unique: bool)
      requires Repairable(n, region, queens)
      ensures unique <==> UniquelySolvedBy(n, region, queens)
    {
      var sols := Solve(n, region, 2);
      TwoSolutions(n, region, queens, sols);
      unique := |sols| == 1;
    }

    /** Tries the queens of `alt` that are not intended, in any order, until one cell can change
        hands. A move keeps everything `repair` relies on and `alt` is no solution afterwards. */
    method MoveBorder(queens: seq<int>, alt: seq<int>) returns (moved: bool)
      requires Repairable(n, region, queens) && IsSolution(n, region, alt) && alt != queens
      modifies this
      ensures Repairable(n, region, queens)
      ensures moved ==> !IsSolution(n, region, alt) && MoveTo(n, queens, old(region), region)
      ensures !moved ==> region == old(region) && NothingMovable(n, region, queens, alt)
    {
      var diff := set r | 0 <= r < n && alt[r] != queens[r];
      while diff != {}
        invariant region == old(region)
        invariant forall r :: r in diff ==> 0 <= r < n && alt[r] != queens[r]
        invariant forall r :: 0 <= r < n && alt[r] != queens[r] && r !in diff ==> !Movable(n, region, Cell(r, alt[r]))
      {
        var r :| r in diff;
        diff := diff - {r};
        ghost var id;
        moved, id := HandOver(Cell(r, alt[r]));
        if moved {
          MoveKeeps(n, old(region), queens, alt, Cell(r, alt[r]), id);
          assert Moves(n, queens, old(region), alt, Cell(r, alt[r]), id, region);
          return;
        }
      }
      return false;
    }

    /** Hands a cell to any region next to it, unless its own would fall apart. */
    method HandOver(x: Cell) returns (moved: bool, ghost id: int)
      requires Square(n, region) && OnBoard(n, x)
      modifies this
      ensures moved <==> old(Movable(n, region, x))
      ensures moved ==> old(IsTarget(n, region, x, id)) && region == old(Recolour(region, x, id))
      ensures !moved ==> region == old(region)
    {
      var targets := TargetRegions(x);
      if targets != [] {
        var whole := RegionConnected(n, region, region[x.r][x.c], Without(x));
        if whole {
          var pick :| 0 <= pick < |targets|;
          var target := targets[pick];
          assert target in targets;
          region := Recolour(region, x, target);
          return true, target;
        }
      }
      return false, 0;
    }

    /** The other regions next to a cell. */
    method TargetRegions(x: Cell) returns (targets: seq<int>)
      requires Square(n, region) && OnBoard(n, x)
      ensures forall id :: id in targets <==> IsTarget(n, region, x, id)
    {
      targets := [];
      var ns := Neighbours(x);
      forall y
        ensures y in ns <==> Adjacent(x, y)
      {
        NeighboursAreAdjacent(x, y);
      }
      for k := 0 to |ns|
        invariant forall id :: id in targets <==>
          id != region[x.r][x.c] && exists y :: OnBoard(n, y) && y in ns[..k] && region[y.r][y.c] == id
      {
        var nb := ns[k];
        assert ns[..k + 1] == ns[..k] + [nb];
        assert nb in ns[..k + 1];
        if 0 <= nb.r < n && 0 <= nb.c < n && region[nb.r][nb.c] != region[x.r][x.c] {
          targets := targets + [region[nb.r][nb.c]];
        }
      }
      assert ns[..|ns|] == ns;
    }

    /** `open_cands`. */
    method BelowSize(cands: seq<(Cell, Cell)>, sizes: seq<nat>, maxSize: nat) returns (open: seq<(Cell, Cell)>)
      requires Growing(n, region) && SizesOf(n, region, sizes)
      requires forall x, y :: (x, y) in cands ==> IsFrontier(n, region, x, y)
      ensures forall x, y :: (x, y) in open <==> (x, y) in cands && RegionSize(n, region, x) < maxSize
    {
      open := [];
      for k := 0 to |cands|
        invariant forall x, y :: (x, y) in open <==> (x, y) in cands[..k] && RegionSize(n, region, x) < maxSize
      {
        var (a, b) := cands[k];
        assert (a, b) in cands;
        assert sizes[region[a.r][a.c]] == RegionSize(n, region, a);
        if sizes[region[a.r][a.c]] < maxSize {
          open := open + [cands[k]];
        }
      }
      assert cands[..|cands|] == cands;
    }
  }

  lemma SeedsConnected(n: nat, g: Grid, queens: seq<int>)
    requires |queens| == n && forall r :: 0 <= r < n ==> 0 <= queens[r] < n
    requires Square(n, g) && forall r, c :: 0 <= r < n && 0 <= c < n ==> g[r][c] == if c == queens[r] then r else UNASSIGNED
    ensures EveryRegionConnected(n, g)
  {
    forall k | 0 <= k < n
      ensures Connected(RegionCells(n, g, k))
    {
      assert RegionCells(n, g, k) == {Cell(k, queens[k])};
      SingleCellConnected(Cell(k, queens[k]));
    }
  }

  lemma SeedSizes(n: nat, g: Grid, queens: seq<int>)
    requires |queens| == n && forall r :: 0 <= r < n ==> 0 <= queens[r] < n
    requires Square(n, g) && forall r, c :: 0 <= r < n && 0 <= c < n ==> g[r][c] == if c == queens[r] then r else UNASSIGNED
    ensures SizesOf(n, g, seq(n, _ => 1))
  {
    forall k | 0 <= k < n
      ensures |RegionCells(n, g, k)| == 1
    {
      assert RegionCells(n, g, k) == {Cell(k, queens[k])};
    }
  }

  lemma SomeFrontier(n: nat, g: Grid, queens: seq<int>, cands: seq<(Cell, Cell)>)
    requires Growing(n, g) && Rooted(n, g, queens) && |RegionCells(n, g, UNASSIGNED)| > 0
    requires forall a, b :: (a, b) in cands <==> IsFrontier(n, g, a, b)
    ensures cands != []
  {
    var x :| x in RegionCells(n, g, UNASSIGNED);
    var a, b := FrontierExists(n, g, queens, x);
    assert (a, b) in cands;
  }

  /** One step of growth. */
  lemma GrowOne(n: nat, g: Grid, queens: seq<int>, a: Cell, b: Cell)
    requires Growing(n, g) && Rooted(n, g, queens) && EveryRegionConnected(n, g) && IsFrontier(n, g, a, b)
    ensures var h := Recolour(g, b, g[a.r][a.c]);
      && Growing(n, h) && Rooted(n, h, queens) && EveryRegionConnected(n, h)
      && |RegionCells(n, h, UNASSIGNED)| == |RegionCells(n, g, UNASSIGNED)| - 1
  {
    var id := g[a.r][a.c];
    var h := Recolour(g, b, id);
    RecolourCells(n, g, b, id, UNASSIGNED);
    assert b in RegionCells(n, g, UNASSIGNED);
    forall k | 0 <= k < n
      ensures Connected(RegionCells(n, h, k))
    {
      RecolourCells(n, g, b, id, k);
      if k == id {
        ConnectedGrows(RegionCells(n, g, k), a, b);
      } else {
        assert RegionCells(n, g, k) - {b} == RegionCells(n, g, k);
      }
    }
  }

  lemma AllAssigned(n: nat, g: Grid)
    requires Growing(n, g) && |RegionCells(n, g, UNASSIGNED)| == 0
    ensures IdsInRange(n, g)
  {
    forall r, c | 0 <= r < n && 0 <= c < n
      ensures 0 <= g[r][c]
    {
      assert Cell(r, c) !in RegionCells(n, g, UNASSIGNED);
    }
  }

  // ----- the number of cells -----

  /** The first n cells of row r. */
  ghost function RowCells(n: nat, r: int): (cells: set<Cell>)
    ensures forall x :: x in cells <==> x.r == r && 0 <= x.c < n
    ensures |cells| == n
  {
    if n == 0 then {} else RowCells(n - 1, r) + {Cell(r, n - 1)}
  }

  ghost function Times(k: nat, n: nat): nat {
    if k == 0 then 0 else Times(k - 1, n) + n
  }

  lemma {:induction false} TimesIsProduct(k: nat, n: nat)
    ensures Times(k, n) == k * n
  {
    if k > 0 {
      TimesIsProduct(k - 1, n);
      assert k * n == (k - 1) * n + n;
    }
  }

  /** The first k rows. */
  ghost function TopRows(n: nat, k: nat): (cells: set<Cell>)
    ensures forall x :: x in cells <==> 0 <= x.r < k && 0 <= x.c < n
    ensures |cells| == Times(k, n)
  {
    if k == 0 then {}
    else
      var above, row := TopRows(n, k - 1), RowCells(n, k - 1);
      assert above !! row;
      above + row
  }

  /** The queens of the first k rows. */
  ghost function QueenCells(queens: seq<int>, k: nat): (cells: set<Cell>)
    requires k <= |queens|
    ensures forall x :: x in cells <==> 0 <= x.r < k && x.c == queens[x.r]
    ensures |cells| == k
  {
    if k == 0 then {} else QueenCells(queens, k - 1) + {Cell(k - 1, queens[k - 1])}
  }

  lemma UnassignedCount(n: nat, g: Grid, queens: seq<int>)
    requires |queens| == n && forall r :: 0 <= r < n ==> 0 <= queens[r] < n
    requires Square(n, g) && forall r, c :: 0 <= r < n && 0 <= c < n ==> g[r][c] == if c == queens[r] then r else UNASSIGNED
    ensures |RegionCells(n, g, UNASSIGNED)| == n * n - n
  {
    var all, seeds := TopRows(n, n), QueenCells(queens, n);
    SeedsAreTheRest(n, g, queens);
    assert seeds <= all;
    DifferenceCard(all, seeds);
    TimesIsProduct(n, n);
  }

  lemma SeedsAreTheRest(n: nat, g: Grid, queens: seq<int>)
    requires |queens| == n && forall r :: 0 <= r < n ==> 0 <= queens[r] < n
    requires Square(n, g) && forall r, c :: 0 <= r < n && 0 <= c < n ==> g[r][c] == if c == queens[r] then r else UNASSIGNED
    ensures RegionCells(n, g, UNASSIGNED) == TopRows(n, n) - QueenCells(queens, n)
  {
    forall x
      ensures x in RegionCells(n, g, UNASSIGNED) <==> x in TopRows(n, n) - QueenCells(queens, n)
    {
      assert OnBoard(n, x) ==> g[x.r][x.c] == if x.c == queens[x.r] then x.r else UNASSIGNED;
    }
  }

  // ----- what a border move keeps -----

  /** What `repair` starts from and keeps: a full board of connected regions with the intended
      placement among its solutions. */
  ghost predicate Repairable(n: nat, g: Grid, queens: seq<int>) {
    && Square(n, g) && IdsInRange(n, g)
    && EveryRegionConnected(n, g)
    && IsSolution(n, g, queens)
  }

  /** With the limit at two: one means unique, otherwise two different ones were found. */
  lemma TwoSolutions(n: nat, g: Grid, queens: seq<int>, sols: seq<seq<int>>)
    requires Square(n, g) && IsSolution(n, g, queens) && sols == Capped(AllSolutions(n, g), 2)
    ensures |sols| == 1 <==> UniquelySolvedBy(n, g, queens)
    ensures |sols| != 1 ==> |sols| == 2 && sols[0] != sols[1] && IsSolution(n, g, sols[0]) && IsSolution(n, g, sols[1])
  {
    AllSolutionsExact(n, g);
    OneMeansUnique(n, g, queens);
    var all := AllSolutions(n, g);
    assert queens in all;
    assert |all| >= 2 ==> all[0] in all && all[1] in all && all[0] != all[1];
    assert |all| == 1 ==> all == [queens];
  }

  /** The region of the queen of row r. */
  ghost function IdAt(n: nat, g: Grid, s: seq<int>, r: nat): nat
    requires Square(n, g) && IdsInRange(n, g) && IsSolution(n, g, s)
    ensures r < n ==> IdAt(n, g, s, r) < n
  {
    if r < n then g[r][s[r]] else 0
  }

  /** A solution has a queen in every region. */
  lemma SolutionMeetsRegion(n: nat, g: Grid, s: seq<int>, id: int) returns (r: nat)
    requires Square(n, g) && IdsInRange(n, g) && IsSolution(n, g, s) && 0 <= id < n
    ensures r < n && g[r][s[r]] == id
  {
    IdsDiffer(n, g, s);
    r := OntoBelow(n, (r: nat) => IdAt(n, g, s, r), id);
  }

  lemma IdsDiffer(n: nat, g: Grid, s: seq<int>)
    requires Square(n, g) && IdsInRange(n, g) && IsSolution(n, g, s)
    ensures InjectiveOn(Below(n), (r: nat) => IdAt(n, g, s, r))
  {
    forall x: nat, y: nat | x < n && y < n && IdAt(n, g, s, x) == IdAt(n, g, s, y)
      ensures x == y
    {
    }
  }

  /** Handing one unintended queen's cell to a neighbouring region kills the alternative. */
  lemma MoveKills(n: nat, g: Grid, alt: seq<int>, x: Cell, id: int)
    requires Square(n, g) && IdsInRange(n, g) && IsSolution(n, g, alt) && OnBoard(n, x) && x.c == alt[x.r]
    requires 0 <= id < n && id != g[x.r][x.c]
    ensures Square(n, Recolour(g, x, id)) && !IsSolution(n, Recolour(g, x, id), alt)
  {
    RecolourCells(n, g, x, id, id);
    var h := Recolour(g, x, id);
    var a := SolutionMeetsRegion(n, g, alt, id);
    assert h[a][alt[a]] == h[x.r][alt[x.r]] == id;
    assert a < x.r || x.r < a;
  }

  lemma MoveKeeps(n: nat, g: Grid, queens: seq<int>, alt: seq<int>, x: Cell, id: int)
    requires Repairable(n, g, queens) && IsSolution(n, g, alt)
    requires OnBoard(n, x) && x.c == alt[x.r] && alt[x.r] != queens[x.r]
    requires IsTarget(n, g, x, id)
    requires Connected(RegionCells(n, g, g[x.r][x.c]) - {x})
    ensures Repairable(n, Recolour(g, x, id), queens)
    ensures !IsSolution(n, Recolour(g, x, id), alt)
  {
    MoveKills(n, g, alt, x, id);
    MoveKeepsConnected(n, g, x, id);
    var h := Recolour(g, x, id);
    forall a | 0 <= a < n
      ensures h[a][queens[a]] == g[a][queens[a]]
    {
    }
  }

  lemma MoveKeepsConnected(n: nat, g: Grid, x: Cell, id: int)
    requires Square(n, g) && IdsInRange(n, g) && EveryRegionConnected(n, g) && OnBoard(n, x)
    requires IsTarget(n, g, x, id)
    requires Connected(RegionCells(n, g, g[x.r][x.c]) - {x})
    ensures Square(n, Recolour(g, x, id)) && IdsInRange(n, Recolour(g, x, id))
    ensures EveryRegionConnected(n, Recolour(g, x, id))
  {
    var h := Recolour(g, x, id);
    var y :| OnBoard(n, y) && Adjacent(x, y) && g[y.r][y.c] == id;
    forall k | 0 <= k < n
      ensures Connected(RegionCells(n, h, k))
    {
      RecolourCells(n, g, x, id, k);
      if k == id {
        ConnectedGrows(RegionCells(n, g, k), y, x);
      } else if k != g[x.r][x.c] {
        assert RegionCells(n, g, k) - {x} == RegionCells(n, g, k);
      }
    }
  }

  // ----- one attempt -----

  /** What `random_queens` draws: a permutation with no two neighbours in adjacent columns. */
  ghost predicate QueensDrawn(n: nat, queens: seq<int>) {
    && |queens| == n
    && (forall r :: 0 <= r < n ==> 0 <= queens[r] < n)
    && (forall a, b :: 0 <= a < b < n ==> queens[a] != queens[b])
    && (forall r :: 0 < r < n ==> Abs(queens[r - 1] - queens[r]) > 1)
  }

  lemma DrawnIsSolution(n: nat, g: Grid, queens: seq<int>)
    requires Square(n, g) && QueensDrawn(n, queens) && Rooted(n, g, queens)
    ensures IsSolution(n, g, queens)
  {
    forall r: nat | r < n
      ensures FitsAt(n, g, queens, r)
    {
    }
    AdjacentRowsSuffice(n, g, queens);
  }

  /** One round of `generate`: a board it keeps is one the server publishes, and a board it throws
      away has another solution that 60 moves did not remove or no move could. */
  method Attempt(n: nat, queens: seq<int>, maxSize: nat)
    returns (kept: bool, region: Grid, ghost grown: seq<Grid>, ghost boards: seq<Grid>)
    requires QueensDrawn(n, queens)
    ensures Square(n, region) && (kept <==> UniquelySolvedBy(n, region, queens))
    ensures kept && 4 <= n <= 20 ==> Publishing.Publishable(n, region, queens)
    ensures Growth(n, queens, maxSize, grown) && MovesThrough(n, queens, boards)
    ensures boards[0] == grown[|grown| - 1] && boards[|boards| - 1] == region
    ensures kept || |boards| == 61 || StuckAt(n, queens, region)
  {
    var gen := new Generation(n);
    grown := gen.GrowRegions(queens, maxSize);
    DrawnIsSolution(n, gen.region, queens);
    kept, boards := gen.Repair(queens, 60);
    region := gen.region;
    forall k | 0 <= k < n
      ensures Publishing.IdUsed(n, region, k)
    {
      assert Connected(RegionCells(n, region, k));
      var x :| x in RegionCells(n, region, k);
      assert region[x.r][x.c] == k;
    }
  }
}
