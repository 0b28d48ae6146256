/** From a board to the solver's tables, and `rate`: the deductions checked against brute force. */
module Rating {
  import opened Boards
  import opened Finite
  import opened Enumeration
  import opened Puzzles
  import opened Deduction
  import opened Confluence
  import opened SolverSteps
  import opened HumanSolver

  datatype RateError = WrongRegionCount | SolversDisagree

  datatype Rated = Rated(status: Status, unique: bool, solution: Option<seq<int>>, steps: seq<Step>,
                         counts: map<Technique, nat>, hardest: Technique, stars: nat)

  datatype Result<+T> = Ok(value: T) | Err(error: RateError)

  // ----- region ids become 0..n-1 in sorted order -----

  function IdsOf(n: nat, g: Grid): set<int>
    requires Square(n, g)
  {
    set r, c | 0 <= r < n && 0 <= c < n :: g[r][c]
  }

  /** The position of an id in the sorted list of ids. */
  function Rank(ids: set<int>, v: int): nat {
    |set w | w in ids && w < v|
  }

  lemma RankOrders(ids: set<int>, v: int, w: int)
    requires v in ids && w in ids
    ensures Rank(ids, v) < |ids|
    ensures v < w ==> Rank(ids, v) < Rank(ids, w)
    ensures Rank(ids, v) == Rank(ids, w) <==> v == w
  {
    RankBelow(ids, v, w);
    RankBelow(ids, w, v);
    var below := set x | x in ids && x < v;
    SubsetCard(below, ids);
    assert v in ids && v !in below;
  }

  lemma RankBelow(ids: set<int>, v: int, w: int)
    requires v in ids
    ensures v < w ==> Rank(ids, v) < Rank(ids, w)
  {
    if v < w {
      var a := set x | x in ids && x < v;
      var b := set x | x in ids && x < w;
      SubsetCard(a, b);
      assert v in b && v !in a;
    }
  }

  // ----- the tables -----

  function Index(n: nat, r: nat, c: nat): nat {
    r * n + c
  }

  /** `p` is the puzzle of board `g`: cell numbers are row-major. */
  ghost predicate PuzzleOf(n: nat, g: Grid, p: Puzzle)
    requires Square(n, g)
  {
    && p.n == n && |p.rowOf| == |p.colOf| == |p.regOf| == n * n
    && (forall r: nat, c: nat :: r < n && c < n ==> CellAt(n, g, p, r, c))
    && (forall i :: 0 <= i < |p.rowOf| ==> p.rowOf[i] < n && p.colOf[i] < n && Index(n, p.rowOf[i], p.colOf[i]) == i)
  }

  ghost predicate CellAt(n: nat, g: Grid, p: Puzzle, r: nat, c: nat)
    requires Square(n, g) && r < n && c < n
  {
    && Index(n, r, c) < |p.rowOf| == |p.colOf| == |p.regOf|
    && p.rowOf[Index(n, r, c)] == r && p.colOf[Index(n, r, c)] == c
    && p.regOf[Index(n, r, c)] == Rank(IdsOf(n, g), g[r][c])
  }

  /** Row, column and region of every cell, in one pass over the board. */
  method NumberCells(n: nat, g: Grid) returns (rowOf: seq<nat>, colOf: seq<nat>, regOf: seq<nat>)
    requires Square(n, g)
    ensures PuzzleOf(n, g, Puzzle(n, rowOf, colOf, regOf, []))
  {
    var ids := IdsOf(n, g);
    rowOf, colOf, regOf := [], [], [];
    for r := 0 to n
      invariant |rowOf| == |colOf| == |regOf| == r * n
      invariant NumberedUpTo(n, g, r, 0, rowOf, colOf, regOf)
    {
      for c := 0 to n
        invariant |rowOf| == |colOf| == |regOf| == r * n + c
        invariant NumberedUpTo(n, g, r, c, rowOf, colOf, regOf)
      {
        NumberOneMore(n, g, r, c, rowOf, colOf, regOf);
        rowOf, colOf, regOf := rowOf + [r], colOf + [c], regOf + [Rank(ids, g[r][c])];
      }
      assert (r + 1) * n == r * n + n;
      RowDone(n, g, r, rowOf, colOf, regOf);
    }
    forall r: nat, c: nat | r < n && c < n
      ensures CellAt(n, g, Puzzle(n, rowOf, colOf, regOf, []), r, c)
    {
      assert Numbered(n, g, r, c, rowOf, colOf, regOf);
    }
  }

  ghost predicate Numbered(n: nat, g: Grid, r: nat, c: nat, rowOf: seq<nat>, colOf: seq<nat>, regOf: seq<nat>)
    requires Square(n, g) && r < n && c < n
  {
    CellAt(n, g, Puzzle(n, rowOf, colOf, regOf, []), r, c)
  }

  ghost predicate NumberedUpTo(n: nat, g: Grid, r: nat, c: nat, rowOf: seq<nat>, colOf: seq<nat>, regOf: seq<nat>)
    requires Square(n, g) && r <= n
  {
    && |rowOf| == |colOf| == |regOf|
    && (forall r': nat, c': nat :: r' < n && c' < n && (r' < r || (r' == r && c' < c)) ==>
      Numbered(n, g, r', c', rowOf, colOf, regOf))
    && (forall i :: 0 <= i < |rowOf| ==> rowOf[i] < n && colOf[i] < n && Index(n, rowOf[i], colOf[i]) == i)
  }

  lemma NumberOneMore(n: nat, g: Grid, r: nat, c: nat, rowOf: seq<nat>, colOf: seq<nat>, regOf: seq<nat>)
    requires Square(n, g) && r < n && c < n
    requires NumberedUpTo(n, g, r, c, rowOf, colOf, regOf) && |rowOf| == r * n + c
    ensures NumberedUpTo(n, g, r, c + 1, rowOf + [r], colOf + [c], regOf + [Rank(IdsOf(n, g), g[r][c])])
  {
    var k := Rank(IdsOf(n, g), g[r][c]);
    forall r': nat, c': nat | r' < n && c' < n && (r' < r || (r' == r && c' < c + 1))
      ensures Numbered(n, g, r', c', rowOf + [r], colOf + [c], regOf + [k])
    {
      if r' == r && c' == c {
      } else {
        assert Numbered(n, g, r', c', rowOf, colOf, regOf);
      }
    }
  }

  lemma RowDone(n: nat, g: Grid, r: nat, rowOf: seq<nat>, colOf: seq<nat>, regOf: seq<nat>)
    requires Square(n, g) && r < n && NumberedUpTo(n, g, r, n, rowOf, colOf, regOf)
    ensures NumberedUpTo(n, g, r + 1, 0, rowOf, colOf, regOf)
  {
  }

  /** The cells around (r, c), itself included, as the two small loops collect them. */
  method Around(n: nat, r: nat, c: nat) returns (m: set<nat>)
    requires r < n && c < n
    ensures forall r': nat, c': nat :: r' < n && c' < n && Touch(r, c, r', c') ==> Index(n, r', c') in m
    ensures forall i :: i in m ==> exists r': nat, c': nat :: r' < n && c' < n && Touch(r, c, r', c') && Index(n, r', c') == i
  {
    m := {};
    for dr := -1 to 2
      invariant forall r': nat, c': nat :: r' < n && c' < n && Touch(r, c, r', c') && r' - r < dr ==> Index(n, r', c') in m
      invariant forall i :: i in m ==> exists r': nat, c': nat :: r' < n && c' < n && Touch(r, c, r', c') && Index(n, r', c') == i
    {
      for dc := -1 to 2
        invariant forall r': nat, c': nat ::
          (r' < n && c' < n && Touch(r, c, r', c') && (r' - r < dr || (r' - r == dr && c' - c < dc))) ==>
          Index(n, r', c') in m
        invariant forall i :: i in m ==> exists r': nat, c': nat :: r' < n && c' < n && Touch(r, c, r', c') && Index(n, r', c') == i
      {
        var rr, cc := r + dr, c + dc;
        if 0 <= rr < n && 0 <= cc < n {
          m := m + {Index(n, rr, cc)};
        }
      }
    }
  }

  method MakePuzzle(n: nat, g: Grid) returns (res: Result<Puzzle>)
    requires Square(n, g)
    ensures res.Err? <==> |IdsOf(n, g)| != n
    ensures res.Ok? ==> res.value.Valid() && PuzzleOf(n, g, res.value)
    ensures res.Err? ==> res.error == WrongRegionCount
  {
    if |IdsOf(n, g)| != n {
      return Err(WrongRegionCount);
    }
    var rowOf, colOf, regOf := NumberCells(n, g);
    var p := WithAttacks(n, g, Puzzle(n, rowOf, colOf, regOf, []));
    return Ok(p);
  }

  method WithAttacks(n: nat, g: Grid, bare: Puzzle) returns (p: Puzzle)
    requires Square(n, g) && |IdsOf(n, g)| == n && PuzzleOf(n, g, bare)
    ensures p.Valid() && PuzzleOf(n, g, p)
  {
    LinesInRange(n, g, bare);
    var attack := AttackMasks(n, g, bare);
    p := Puzzle(n, bare.rowOf, bare.colOf, bare.regOf, attack);
    TablesAreValid(n, g, bare, p);
  }

  /** attack[i]: every cell, except i, that cannot hold a queen if i does. */
  method AttackMasks(n: nat, g: Grid, p: Puzzle) returns (attack: seq<set<nat>>)
    requires Square(n, g) && PuzzleOf(n, g, p)
    ensures |attack| == |p.rowOf|
    ensures forall i :: 0 <= i < |attack| ==> attack[i] == AttackedBy(p, i)
  {
    attack := [];
    for i := 0 to |p.rowOf|
      invariant |attack| == i
      invariant forall k :: 0 <= k < i ==> attack[k] == AttackedBy(p, k)
    {
      var around := Around(n, p.rowOf[i], p.colOf[i]);
      var m := p.Mask(Unit(Row, p.rowOf[i])) + p.Mask(Unit(Col, p.colOf[i])) + p.Mask(Unit(Region, p.regOf[i])) + around;
      AttackMask(n, g, p, i, around);
      attack := attack + [m - {i}];
    }
  }

  ghost function AttackedBy(p: Puzzle, i: nat): set<nat>
    requires |p.rowOf| == |p.colOf| == |p.regOf| && i < |p.rowOf|
  {
    set j: nat | j < |p.rowOf| && p.Attacks(i, j)
  }

  lemma LinesInRange(n: nat, g: Grid, p: Puzzle)
    requires Square(n, g) && |IdsOf(n, g)| == n && PuzzleOf(n, g, p)
    ensures forall i: nat, k: Kind :: i < |p.rowOf| ==> p.Line(k, i) < n
  {
    forall i: nat, k: Kind | i < |p.rowOf|
      ensures p.Line(k, i) < n
    {
      var r, c := p.rowOf[i], p.colOf[i];
      assert CellAt(n, g, p, r, c);
      RankOrders(IdsOf(n, g), g[r][c], g[r][c]);
    }
  }

  lemma AttackMask(n: nat, g: Grid, p: Puzzle, i: nat, around: set<nat>)
    requires Square(n, g) && PuzzleOf(n, g, p) && i < |p.rowOf|
    requires forall r': nat, c': nat :: r' < n && c' < n && Touch(p.rowOf[i], p.colOf[i], r', c') ==> Index(n, r', c') in around
    requires forall j :: j in around ==>
      exists r': nat, c': nat :: r' < n && c' < n && Touch(p.rowOf[i], p.colOf[i], r', c') && Index(n, r', c') == j
    ensures p.Mask(Unit(Row, p.rowOf[i])) + p.Mask(Unit(Col, p.colOf[i])) + p.Mask(Unit(Region, p.regOf[i])) + around - {i}
      == AttackedBy(p, i)
  {
    forall j | j in around
      ensures j < |p.rowOf| && Touch(p.rowOf[i], p.colOf[i], p.rowOf[j], p.colOf[j])
    {
      var r': nat, c': nat :| r' < n && c' < n && Touch(p.rowOf[i], p.colOf[i], r', c') && Index(n, r', c') == j;
      assert CellAt(n, g, p, r', c');
    }
    forall j: nat | j < |p.rowOf| && Touch(p.rowOf[i], p.colOf[i], p.rowOf[j], p.colOf[j])
      ensures j in around
    {
      assert Index(n, p.rowOf[j], p.colOf[j]) == j;
    }
  }

  lemma TablesAreValid(n: nat, g: Grid, bare: Puzzle, p: Puzzle)
    requires Square(n, g) && PuzzleOf(n, g, bare)
    requires p == Puzzle(n, bare.rowOf, bare.colOf, bare.regOf, p.attack) && |p.attack| == |p.rowOf|
    requires forall i: nat, k: Kind :: i < |bare.rowOf| ==> bare.Line(k, i) < n
    requires forall i :: 0 <= i < |p.rowOf| ==> p.attack[i] == AttackedBy(bare, i)
    ensures p.Valid() && PuzzleOf(n, g, p)
  {
    forall r: nat, c: nat | r < n && c < n
      ensures CellAt(n, g, p, r, c)
    {
      assert CellAt(n, g, bare, r, c);
    }
    forall i: nat, k: Kind | i < |p.rowOf|
      ensures p.Line(k, i) < n
    {
      assert p.Line(k, i) == bare.Line(k, i);
    }
    forall i: nat, j: nat | i < |p.rowOf| && j < |p.rowOf| && p.rowOf[i] == p.rowOf[j] && p.colOf[i] == p.colOf[j]
      ensures i == j
    {
      assert Index(n, p.rowOf[i], p.colOf[i]) == i;
      assert Index(n, p.rowOf[j], p.colOf[j]) == j;
    }
    forall i: nat, j: nat | i < |p.rowOf|
      ensures j in p.attack[i] <==> j < |p.rowOf| && p.Attacks(i, j)
    {
      assert j < |p.rowOf| ==> (p.Attacks(i, j) <==> bare.Attacks(i, j));
    }
  }

  // ----- placements as columns per row, and as sets of cells -----

  /** The grid with the normalised region numbers. */
  function IdGrid(n: nat, g: Grid): Grid
    requires Square(n, g)
  {
    seq(n, r requires 0 <= r < n => seq(n, c requires 0 <= c < n => Rank(IdsOf(n, g), g[r][c])))
  }

  lemma RenamingKeepsSolutions(n: nat, g: Grid, s: seq<int>)
    requires Square(n, g)
    ensures Square(n, IdGrid(n, g))
    ensures IsSolution(n, g, s) <==> IsSolution(n, IdGrid(n, g), s)
    ensures |IdsOf(n, g)| == n ==> IdsInRange(n, IdGrid(n, g))
  {
    forall r, c | 0 <= r < n && 0 <= c < n
      ensures IdGrid(n, g)[r][c] < |IdsOf(n, g)|
    {
      RankOrders(IdsOf(n, g), g[r][c], g[r][c]);
    }
    if |s| == n && forall r :: 0 <= r < n ==> 0 <= s[r] < n {
      forall a, b | 0 <= a < b < n
        ensures g[a][s[a]] == g[b][s[b]] <==> IdGrid(n, g)[a][s[a]] == IdGrid(n, g)[b][s[b]]
      {
        RankOrders(IdsOf(n, g), g[a][s[a]], g[b][s[b]]);
      }
    }
  }

  /** The cells of a placement given as one column per row. */
  ghost function CellsOf(n: nat, s: seq<int>): set<nat>
    requires |s| == n && forall r :: 0 <= r < n ==> 0 <= s[r] < n
  {
    set r | r in Below(n) :: Index(n, r, s[r])
  }

  lemma CellsApart(n: nat, g: Grid, p: Puzzle, r1: nat, c1: nat, r2: nat, c2: nat)
    requires Square(n, g) && p.Valid() && PuzzleOf(n, g, p)
    requires r1 < n && c1 < n && r2 < n && c2 < n
    ensures p.IsCell(Index(n, r1, c1)) && p.IsCell(Index(n, r2, c2))
    ensures Index(n, r1, c1) == Index(n, r2, c2) <==> r1 == r2 && c1 == c2
    ensures Index(n, r2, c2) in p.attack[Index(n, r1, c1)] <==>
      !(r1 == r2 && c1 == c2)
      && (r1 == r2 || c1 == c2 || g[r1][c1] == g[r2][c2] || Touch(r1, c1, r2, c2))
  {
    assert CellAt(n, g, p, r1, c1) && CellAt(n, g, p, r2, c2);
    RankOrders(IdsOf(n, g), g[r1][c1], g[r2][c2]);
  }

  /** A solution of the board is a full placement of the puzzle. */
  lemma SolutionIsFull(n: nat, g: Grid, p: Puzzle, s: seq<int>)
    requires Square(n, g) && p.Valid() && PuzzleOf(n, g, p) && IsSolution(n, g, s)
    ensures Full(p, CellsOf(n, s))
  {
    var cells := CellsOf(n, s);
    var f := (r: nat) => if r < n then Index(n, r, s[r]) else 0;
    forall x: nat, y: nat | x < n && y < n
      ensures f(x) == f(y) ==> x == y
      ensures p.IsCell(f(x)) && f(y) !in p.attack[f(x)]
    {
      CellsApart(n, g, p, x, s[x], y, s[y]);
      if x < y {
        assert !Touch(x, s[x], y, s[y]);
      } else if y < x {
        assert !Touch(y, s[y], x, s[x]);
      }
    }
    assert Image(Below(n), f) == cells;
    ImageCard(Below(n), f);
    BelowCard(n);
  }

  /** s gives the column of the queen of `cells` in every row. */
  ghost predicate ReadsAs(n: nat, cells: set<nat>, s: seq<int>) {
    |s| == n && forall r :: 0 <= r < n ==> 0 <= s[r] < n && Index(n, r, s[r]) in cells
  }

  /** A full placement, read row by row, is a solution of the board. */
  lemma FullIsSolution(n: nat, g: Grid, p: Puzzle, cells: set<nat>, s: seq<int>)
    requires Square(n, g) && p.Valid() && PuzzleOf(n, g, p) && Full(p, cells) && ReadsAs(n, cells, s)
    ensures IsSolution(n, g, s)
  {
    forall a, b | 0 <= a < b < n
      ensures s[a] != s[b] && g[a][s[a]] != g[b][s[b]] && !Touch(a, s[a], b, s[b])
    {
      CellsApart(n, g, p, a, s[a], b, s[b]);
    }
  }

  /** `solution[r] = c` for every queen. */
  method ReadSolution(n: nat, g: Grid, p: Puzzle, queens: set<nat>) returns (s: seq<int>)
    requires Square(n, g) && p.Valid() && PuzzleOf(n, g, p) && Full(p, queens)
    ensures ReadsAs(n, queens, s)
  {
    s := seq(n, _ => 0);
    for i := 0 to |p.rowOf|
      invariant |s| == n
      invariant forall j :: 0 <= j < i && j in queens ==> s[p.rowOf[j]] == p.colOf[j]
    {
      if i in queens {
        ghost var before := s;
        s := s[p.rowOf[i] := p.colOf[i]];
        forall j | 0 <= j < i && j in queens
          ensures p.rowOf[j] != p.rowOf[i]
        {
          assert j !in p.attack[i];
        }
      }
    }
    forall r | 0 <= r < n
      ensures 0 <= s[r] < n && Index(n, r, s[r]) in queens
    {
      UnitHasQueen(p, queens, Unit(Row, r));
      var q :| q in queens && q in p.Mask(Unit(Row, r));
      assert Index(n, p.rowOf[q], p.colOf[q]) == q;
    }
  }

  lemma StartIsOpen(n: nat, g: Grid, p: Puzzle)
    requires Square(n, g) && p.Valid() && PuzzleOf(n, g, p)
    ensures Inv(p, St(Below(|p.rowOf|), {}))
    ensures forall s :: IsSolution(n, g, s) ==> Completes(p, St(Below(|p.rowOf|), {}), CellsOf(n, s))
  {
    forall s | IsSolution(n, g, s)
      ensures Completes(p, St(Below(|p.rowOf|), {}), CellsOf(n, s))
    {
      SolutionIsFull(n, g, p, s);
    }
  }

  // ----- what is derived from the steps -----

  const TECHNIQUES: seq<Technique> := [Single, Confined, Common, Subset, Chain, Guess]

  const STARS: map<Technique, nat> :=
    map[Single := 1, Confined := 1, Common := 2, Subset := 3, Chain := 4, Guess := 5]

  ghost function StepsBy(steps: seq<Step>, t: Technique): set<nat> {
    set k: nat | k < |steps| && steps[k].technique == t
  }

  /** `counts`: how many main-line steps each technique took. */
  ghost predicate CountsSteps(steps: seq<Step>, counts: map<Technique, nat>) {
    forall t :: t in counts && counts[t] == |StepsBy(steps, t)|
  }

  /** `hardest`: the dearest technique among the steps, "single" when there are none. */
  ghost predicate HardestOf(steps: seq<Step>, t: Technique) {
    && (steps == [] ==> t == Single)
    && (steps != [] ==> exists k :: 0 <= k < |steps| && steps[k].technique == t)
    && (forall k :: 0 <= k < |steps| ==> CostRank(steps[k].technique) <= CostRank(t))
  }

  method CountSteps(steps: seq<Step>) returns (counts: map<Technique, nat>)
    ensures CountsSteps(steps, counts)
  {
    counts := map t | t in TECHNIQUES :: 0;
    forall t: Technique
      ensures t in counts && StepsBy([], t) == {}
    {
      assert t == TECHNIQUES[CostRank(t)];
    }
    assert steps[..0] == [];
    for k := 0 to |steps|
      invariant CountsSteps(steps[..k], counts)
    {
      OneStepMore(steps, k);
      var t := steps[k].technique;
      counts := counts[t := counts[t] + 1];
    }
    assert steps[..|steps|] == steps;
  }

  lemma OneStepMore(steps: seq<Step>, k: nat)
    requires k < |steps|
    ensures forall t :: |StepsBy(steps[..k + 1], t)| == |StepsBy(steps[..k], t)| + if steps[k].technique == t then 1 else 0
  {
    forall t
      ensures |StepsBy(steps[..k + 1], t)| == |StepsBy(steps[..k], t)| + if steps[k].technique == t then 1 else 0
    {
      var was := StepsBy(steps[..k], t);
      assert StepsBy(steps[..k + 1], t) == if steps[k].technique == t then was + {k} else was;
    }
  }

  method Hardest(steps: seq<Step>) returns (t: Technique)
    ensures HardestOf(steps, t)
  {
    t := Single;
    for k := 0 to |steps|
      invariant HardestOf(steps[..k], t)
    {
      if k == 0 || CostRank(t) < CostRank(steps[k].technique) {
        t := steps[k].technique;
        assert steps[..k + 1][k].technique == t;
      } else {
        var j :| 0 <= j < k && steps[..k][j].technique == t;
        assert steps[..k + 1][j].technique == t;
      }
    }
    assert steps[..|steps|] == steps;
  }

  /** `end` is how the solver leaves a board it gives this verdict on. */
  ghost predicate Verdict(p: Puzzle, ts: set<Technique>, trials: nat, end: St, status: Status)
    requires p.Valid()
  {
    match status
    case Contradiction => Dead(p, end)
    case Solved => !Dead(p, end) && |end.queens| == p.n
    case Stuck => Exhausted(p, ts, 4, trials, end)
  }

  /** The rating of a run: its steps lead from the empty board, with every cell open, to `end`, where
      its verdict holds, and the rest is read off the steps and off `end`. */
  ghost predicate RatedOn(n: nat, g: Grid, ts: set<Technique>, maxGuessDepth: int, r: Rated, p: Puzzle, end: St)
    requires Square(n, g)
  {
    && p.Valid() && PuzzleOf(n, g, p) && Inv(p, end)
    && Replays(p, ts, 4, Trials(maxGuessDepth, 0), St(Below(|p.rowOf|), {}), r.steps, end)
    && Verdict(p, ts, Trials(maxGuessDepth, 0), end, r.status)
    && (r.status == Solved ==> r.solution.Some? && ReadsAs(n, end.queens, r.solution.value))
    && Summarised(r)
  }

  ghost predicate Summarised(r: Rated) {
    CountsSteps(r.steps, r.counts) && HardestOf(r.steps, r.hardest) && StarsFor(r.hardest, r.stars)
  }

  /** One star up to "confined", and one more for every technique beyond. */
  predicate StarsFor(t: Technique, stars: nat) {
    1 <= stars <= 5 && (stars == 1 <==> t in {Single, Confined}) && (stars > 1 ==> t == TECHNIQUES[stars])
  }

  ghost predicate IsRating(n: nat, g: Grid, ts: set<Technique>, maxGuessDepth: int, r: Rated)
    requires Square(n, g)
  {
    exists p, end :: RatedOn(n, g, ts, maxGuessDepth, r, p, end)
  }

  /** A board has one rating under given options: not only how it ends but step for step. */
  lemma OneRating(n: nat, g: Grid, ts: set<Technique>, maxGuessDepth: int, a: Rated, b: Rated)
    requires Square(n, g) && IsRating(n, g, ts, maxGuessDepth, a) && IsRating(n, g, ts, maxGuessDepth, b)
    ensures a.steps == b.steps && a.status == b.status && a.counts == b.counts
    ensures a.hardest == b.hardest && a.stars == b.stars
    ensures a.status == Solved ==> a.solution == b.solution
  {
    var p, e :| RatedOn(n, g, ts, maxGuessDepth, a, p, e);
    var q, f :| RatedOn(n, g, ts, maxGuessDepth, b, q, f);
    OnePuzzlePerBoard(n, g, p, q);
    ReplaysOnce(p, ts, 4, Trials(maxGuessDepth, 0), St(Below(|p.rowOf|), {}), a.steps, e, b.steps, f);
    SummariesOnce(a, b);
    if a.status == Solved {
      SolvedIsFull(p, e);
      ReadOnce(n, g, p, e.queens, a.solution.value, b.solution.value);
    }
  }

  lemma ReadOnce(n: nat, g: Grid, p: Puzzle, cells: set<nat>, s: seq<int>, t: seq<int>)
    requires Square(n, g) && p.Valid() && PuzzleOf(n, g, p) && Full(p, cells) && ReadsAs(n, cells, s) && ReadsAs(n, cells, t)
    ensures s == t
  {
    forall r | 0 <= r < n
      ensures s[r] == t[r]
    {
      CellsApart(n, g, p, r, s[r], r, t[r]);
    }
  }

  lemma SummariesOnce(a: Rated, b: Rated)
    requires a.steps == b.steps && Summarised(a) && Summarised(b)
    ensures a.counts == b.counts && a.hardest == b.hardest && a.stars == b.stars
  {
    if a.steps != [] {
      assert CostRank(a.hardest) <= CostRank(b.hardest) <= CostRank(a.hardest);
    }
    assert forall t :: t in a.counts <==> t in b.counts;
  }

  method SolutionAt(n: nat, g: Grid, p: Puzzle, st: State) returns (s: seq<int>)
    requires Square(n, g) && p.Valid() && PuzzleOf(n, g, p) && Inv(p, st.Value()) && |st.queens| == n
    ensures ReadsAs(n, st.queens, s) && IsSolution(n, g, s)
  {
    SolvedIsFull(p, st.Value());
    s := ReadSolution(n, g, p, st.queens);
    FullIsSolution(n, g, p, st.queens, s);
  }

  method Summary(status: Status, unique: bool, solution: Option<seq<int>>, steps: seq<Step>) returns (r: Rated)
    ensures r.status == status && r.unique == unique && r.solution == solution && r.steps == steps && Summarised(r)
  {
    var counts := CountSteps(steps);
    var hardest := Hardest(steps);
    r := Rated(status, unique, solution, steps, counts, hardest, STARS[hardest]);
  }

  /** `rate`: what it reports about the board is true, whatever techniques are on, and the check
      against brute force never fires. */
  method Rate(n: nat, g: Grid, maxGuessDepth: int, techniques: set<Technique>) returns (res: Result<Rated>)
    requires Square(n, g)
    ensures res.Err? <==> |IdsOf(n, g)| != n
    ensures res.Err? ==> res.error == WrongRegionCount
    ensures res.Ok? ==> (res.value.unique <==> exists s :: UniquelySolvedBy(n, g, s))
    ensures res.Ok? && res.value.status == Solved ==> res.value.solution.Some? && IsSolution(n, g, res.value.solution.value)
    ensures res.Ok? && res.value.status == Contradiction ==> forall s :: !IsSolution(n, g, s)
    ensures res.Ok? ==> (res.value.solution.Some? <==> res.value.status == Solved)
    ensures res.Ok? ==> IsRating(n, g, techniques + {Single}, maxGuessDepth, res.value)
    ensures res.Ok? && n >= 1 && res.value.status == Solved ==> res.value.steps != []
    ensures res.Ok? && techniques <= {Single, Confined, Common} ==> RatesAs(n, g, techniques + {Single}, res.value.status)
  {
    var made := MakePuzzle(n, g);
    if made.Err? {
      return Err(made.error);
    }
    var p := made.value;
    var sols := BruteForce(n, g, 2);
    var solver := new Solver(p, maxGuessDepth, 4, techniques);
    StartIsOpen(n, g, p);
    var st := new State(Below(|p.rowOf|), {});
    ghost var start := st.Value();
    var status, steps := solver.Deduce(st, 0);
    var solution: Option<seq<int>> := None;
    if status == Solved {
      var s := SolutionAt(n, g, p, st);
      solution := Some(s);
      if |sols| == 1 && s != sols[0] {
        return Err(SolversDisagree);
      }
    }
    if status == Contradiction {
      NoSolutionLeft(n, g, p, start);
    }
    assert techniques <= {Single, Confined, Common} ==> RatesVia(n, g, techniques + {Single}, status, p, st.Value());
    var rated := Summary(status, |sols| == 1, solution, steps);
    assert RatedOn(n, g, techniques + {Single}, maxGuessDepth, rated, p, st.Value());
    return Ok(rated);
  }

  ghost predicate RatesVia(n: nat, g: Grid, ts: set<Technique>, status: Status, p: Puzzle, end: St)
    requires Square(n, g)
  {
    && p.Valid() && PuzzleOf(n, g, p)
    && Reaches(p, ts, St(Below(|p.rowOf|), {}), end) && Ends(p, ts, end, status)
  }

  /** Some run over the board with these techniques ends in `status`. */
  ghost predicate RatesAs(n: nat, g: Grid, ts: set<Technique>, status: Status)
    requires Square(n, g)
  {
    exists p, end :: RatesVia(n, g, ts, status, p, end)
  }

  lemma OnePuzzlePerBoard(n: nat, g: Grid, p: Puzzle, q: Puzzle)
    requires Square(n, g) && p.Valid() && q.Valid() && PuzzleOf(n, g, p) && PuzzleOf(n, g, q)
    ensures p == q
  {
    forall i: nat | i < n * n
      ensures p.rowOf[i] == q.rowOf[i] && p.colOf[i] == q.colOf[i] && p.regOf[i] == q.regOf[i]
    {
      var r, c := p.rowOf[i], p.colOf[i];
      assert Index(n, r, c) == i;
      assert CellAt(n, g, p, r, c) && CellAt(n, g, q, r, c);
    }
    SameAttacks(p, q);
  }

  lemma SameAttacks(p: Puzzle, q: Puzzle)
    requires p.Valid() && q.Valid() && p.rowOf == q.rowOf && p.colOf == q.colOf && p.regOf == q.regOf
    ensures p.attack == q.attack
  {
    forall i | 0 <= i < |p.attack|
      ensures p.attack[i] == q.attack[i]
    {
      forall j: nat
        ensures j in p.attack[i] <==> j in q.attack[i]
      {
        assert j < |p.rowOf| ==> (p.Attacks(i, j) <==> q.Attacks(i, j));
      }
    }
  }

  /** The claim beside the solver: switching "confined" on or off never changes how a board ends. */
  lemma CommonCoversConfined(n: nat, g: Grid, with: Status, without: Status)
    requires Square(n, g)
    requires RatesAs(n, g, {Single, Confined, Common}, with)
    requires RatesAs(n, g, {Single, Common}, without)
    ensures with == without
  {
    var p, a :| RatesVia(n, g, {Single, Confined, Common}, with, p, a);
    var q, b :| RatesVia(n, g, {Single, Common}, without, q, b);
    OnePuzzlePerBoard(n, g, p, q);
    StartIsOpen(n, g, p);
    RunsAgree(p, {Single, Confined, Common}, {Single, Common}, St(Below(|p.rowOf|), {}), a, with, b, without);
  }

  lemma NoSolutionLeft(n: nat, g: Grid, p: Puzzle, start: St)
    requires Square(n, g) && p.Valid() && PuzzleOf(n, g, p)
    requires start == St(Below(|p.rowOf|), {}) && Hopeless(p, start)
    ensures forall s :: !IsSolution(n, g, s)
  {
    StartIsOpen(n, g, p);
  }

  /** The reference solver: two solutions at most, from the original board. */
  method BruteForce(n: nat, g: Grid, limit: nat) returns (found: seq<seq<int>>)
    requires Square(n, g) && |IdsOf(n, g)| == n && limit >= 2
    ensures |found| == 1 <==> exists s :: UniquelySolvedBy(n, g, s)
    ensures forall s :: s in found ==> IsSolution(n, g, s)
    ensures |found| == 1 ==> UniquelySolvedBy(n, g, found[0])
  {
    ghost var zeros := seq(n, _ => 0);
    RenamingKeepsSolutions(n, g, zeros);
    var h := IdGrid(n, g);
    found := Solve(n, h, limit);
    AllSolutionsExact(n, h);
    forall s
      ensures IsSolution(n, g, s) <==> s in AllSolutions(n, h)
    {
      RenamingKeepsSolutions(n, g, s);
    }
    CappedUniqueness(n, g, AllSolutions(n, h), limit);
  }

  lemma CappedUniqueness(n: nat, g: Grid, all: seq<seq<int>>, limit: nat)
    requires Square(n, g) && limit >= 2 && Distinct(all)
    requires forall s :: IsSolution(n, g, s) <==> s in all
    ensures forall s :: s in Capped(all, limit) ==> IsSolution(n, g, s)
    ensures |Capped(all, limit)| == 1 <==> exists s :: UniquelySolvedBy(n, g, s)
    ensures |Capped(all, limit)| == 1 ==> UniquelySolvedBy(n, g, Capped(all, limit)[0])
  {
    if |all| == 1 {
      assert all[0] in all;
      assert UniquelySolvedBy(n, g, all[0]);
    }
    assert |all| >= 2 ==> all[0] in all && all[1] in all && all[0] != all[1];
  }
}
