/** Backtracking, row by row: the Go counter that guards publishing and the Python search used by
    the generator and as the reference of the human-style solver. All of them mark columns and
    regions in arrays and undo the marks on the way back. */
module Enumeration {
  import opened Boards

  /** What the loops test before they put a queen in column c of the next row: the column and the
      region are free, and the queen of the row above is not within one column. */
  predicate Fits(n: nat, g: Grid, prefix: seq<int>, c: int)
    requires Square(n, g) && |prefix| < n && 0 <= c < n
    requires forall a :: 0 <= a < |prefix| ==> 0 <= prefix[a] < n
  {
    && c !in prefix
    && (forall a :: 0 <= a < |prefix| ==> g[a][prefix[a]] != g[|prefix|][c])
    && (|prefix| > 0 ==> Abs(prefix[|prefix| - 1] - c) > 1)
  }

  ghost predicate InRange(n: nat, s: seq<int>) {
    |s| <= n && forall a :: 0 <= a < |s| ==> 0 <= s[a] < n
  }

  /** The queen of row r fits under the rows above it. */
  ghost predicate FitsAt(n: nat, g: Grid, s: seq<int>, r: nat)
    requires Square(n, g) && InRange(n, s) && r < |s|
  {
    && (forall a :: 0 <= a < r ==> s[a] != s[r] && g[a][s[a]] != g[r][s[r]])
    && (r > 0 ==> Abs(s[r - 1] - s[r]) > 1)
  }

  /** Every queen of `s` fitted when it was placed. */
  ghost predicate RowByRow(n: nat, g: Grid, s: seq<int>)
    requires Square(n, g)
  {
    InRange(n, s) && forall r: nat :: r < |s| ==> FitsAt(n, g, s, r)
  }

  /** Looking only at the row above is enough for the eight-neighbour rule. */
  lemma AdjacentRowsSuffice(n: nat, g: Grid, s: seq<int>)
    requires Square(n, g)
    ensures IsSolution(n, g, s) <==> |s| == n && RowByRow(n, g, s)
  {
    if IsSolution(n, g, s) {
      forall r: nat | r < n
        ensures FitsAt(n, g, s, r)
      {
        if r > 0 {
          assert !Touch(r - 1, s[r - 1], r, s[r]);
        }
      }
    }
    if |s| == n && RowByRow(n, g, s) {
      forall a, b | 0 <= a < b < n
        ensures s[a] != s[b] && g[a][s[a]] != g[b][s[b]] && !Touch(a, s[a], b, s[b])
      {
        assert FitsAt(n, g, s, b);
      }
    }
  }

  // ----- the reference: every completion of a prefix, in the order the loops find them -----

  ghost function Extensions(n: nat, g: Grid, prefix: seq<int>): seq<seq<int>>
    requires Square(n, g) && InRange(n, prefix)
    decreases n - |prefix|, n + 1
  {
    if |prefix| == n then [prefix] else FromColumn(n, g, prefix, 0)
  }

  ghost function FromColumn(n: nat, g: Grid, prefix: seq<int>, c: nat): seq<seq<int>>
    requires Square(n, g) && InRange(n, prefix) && |prefix| < n && c <= n
    decreases n - |prefix|, n - c
  {
    if c == n then [] else Here(n, g, prefix, c) + FromColumn(n, g, prefix, c + 1)
  }

  ghost function Here(n: nat, g: Grid, prefix: seq<int>, c: nat): seq<seq<int>>
    requires Square(n, g) && InRange(n, prefix) && |prefix| < n && c < n
    decreases n - |prefix|, 0
  {
    if Fits(n, g, prefix, c) then Extensions(n, g, prefix + [c]) else []
  }

  ghost function AllSolutions(n: nat, g: Grid): seq<seq<int>>
    requires Square(n, g)
  {
    Extensions(n, g, [])
  }

  ghost predicate Distinct<T(!new)>(xs: seq<T>) {
    forall i, j :: 0 <= i < j < |xs| ==> xs[i] != xs[j]
  }

  lemma FitsExtends(n: nat, g: Grid, prefix: seq<int>, c: int)
    requires Square(n, g) && RowByRow(n, g, prefix) && |prefix| < n && 0 <= c < n
    ensures RowByRow(n, g, prefix + [c]) <==> Fits(n, g, prefix, c)
  {
    var s := prefix + [c];
    forall r: nat | r < |prefix|
      ensures FitsAt(n, g, s, r)
    {
      assert FitsAt(n, g, prefix, r);
    }
    assert FitsAt(n, g, s, |prefix|) <==> Fits(n, g, prefix, c) by {
      if FitsAt(n, g, s, |prefix|) {
        forall a | 0 <= a < |prefix|
          ensures prefix[a] != c && g[a][prefix[a]] != g[|prefix|][c]
        {
          assert s[a] == prefix[a];
        }
      }
    }
  }

  /** A full placement that starts with `prefix`. */
  ghost predicate CompletesPrefix(n: nat, g: Grid, prefix: seq<int>, s: seq<int>)
    requires Square(n, g)
  {
    |s| == n && prefix <= s && RowByRow(n, g, s)
  }

  lemma NextRow(n: nat, g: Grid, prefix: seq<int>, s: seq<int>)
    requires Square(n, g) && RowByRow(n, g, prefix) && |prefix| < n && CompletesPrefix(n, g, prefix, s)
    ensures Fits(n, g, prefix, s[|prefix|]) && CompletesPrefix(n, g, prefix + [s[|prefix|]], s)
  {
    assert FitsAt(n, g, s, |prefix|);
    forall a | 0 <= a < |prefix|
      ensures prefix[a] == s[a]
    {
    }
  }

  /** Sound, complete and without repeats. */
  lemma {:induction false} ExtensionsExact(n: nat, g: Grid, prefix: seq<int>)
    requires Square(n, g) && RowByRow(n, g, prefix)
    ensures forall s :: s in Extensions(n, g, prefix) <==> CompletesPrefix(n, g, prefix, s)
    ensures Distinct(Extensions(n, g, prefix))
    decreases n - |prefix|, n + 1
  {
    if |prefix| == n {
      forall s | CompletesPrefix(n, g, prefix, s)
        ensures s == prefix
      {
      }
    } else {
      FromColumnExact(n, g, prefix, 0);
    }
  }

  ghost predicate CompletesFrom(n: nat, g: Grid, prefix: seq<int>, c: nat, s: seq<int>)
    requires Square(n, g) && |prefix| < n
  {
    CompletesPrefix(n, g, prefix, s) && c <= s[|prefix|]
  }

  lemma {:induction false} FromColumnExact(n: nat, g: Grid, prefix: seq<int>, c: nat)
    requires Square(n, g) && RowByRow(n, g, prefix) && |prefix| < n && c <= n
    ensures forall s :: s in FromColumn(n, g, prefix, c) <==> CompletesFrom(n, g, prefix, c, s)
    ensures Distinct(FromColumn(n, g, prefix, c))
    decreases n - |prefix|, n - c
  {
    if c < n {
      FromColumnExact(n, g, prefix, c + 1);
      var rest := FromColumn(n, g, prefix, c + 1);
      FitsExtends(n, g, prefix, c);
      var here := Here(n, g, prefix, c);
      if Fits(n, g, prefix, c) {
        ExtensionsExact(n, g, prefix + [c]);
      }
      ColumnSplit(n, g, prefix, c, here, rest);
    } else {
      forall s
        ensures !CompletesFrom(n, g, prefix, c, s)
      {
      }
    }
  }

  lemma ColumnSplit(n: nat, g: Grid, prefix: seq<int>, c: nat, here: seq<seq<int>>, rest: seq<seq<int>>)
    requires Square(n, g) && RowByRow(n, g, prefix) && |prefix| < n && c < n
    requires forall s :: s in rest <==> CompletesFrom(n, g, prefix, c + 1, s)
    requires if Fits(n, g, prefix, c) then forall s :: s in here <==> CompletesPrefix(n, g, prefix + [c], s) else here == []
    requires Distinct(here) && Distinct(rest)
    ensures forall s :: s in here + rest <==> CompletesFrom(n, g, prefix, c, s)
    ensures Distinct(here + rest)
  {
    forall s
      ensures s in here <==> CompletesPrefix(n, g, prefix, s) && s[|prefix|] == c
    {
      if CompletesPrefix(n, g, prefix, s) && s[|prefix|] == c {
        NextRow(n, g, prefix, s);
      }
      if s in here {
        assert CompletesPrefix(n, g, prefix + [c], s);
        assert prefix <= prefix + [c] <= s;
        assert s[|prefix|] == (prefix + [c])[|prefix|];
      }
    }
    forall i, j | 0 <= i < |here| && 0 <= j < |rest|
      ensures here[i] != rest[j]
    {
      assert here[i] in here && rest[j] in rest;
    }
  }

  /** The reference list is exactly the set of solutions under the eight-neighbour rule. */
  lemma AllSolutionsExact(n: nat, g: Grid)
    requires Square(n, g)
    ensures forall s :: s in AllSolutions(n, g) <==> IsSolution(n, g, s)
    ensures Distinct(AllSolutions(n, g))
  {
    ExtensionsExact(n, g, []);
    forall s
      ensures s in AllSolutions(n, g) <==> IsSolution(n, g, s)
    {
      AdjacentRowsSuffice(n, g, s);
    }
  }

  /** s comes first: it has the smaller column in the first row in which they differ. */
  ghost predicate ComesFirst(s: seq<int>, t: seq<int>) {
    exists r :: 0 <= r < |s| && r < |t| && s[..r] == t[..r] && s[r] < t[r]
  }

  ghost predicate Lexicographic(list: seq<seq<int>>) {
    forall i, j :: 0 <= i < j < |list| ==> ComesFirst(list[i], list[j])
  }

  lemma {:induction false} ExtensionsInOrder(n: nat, g: Grid, prefix: seq<int>)
    requires Square(n, g) && RowByRow(n, g, prefix)
    ensures Lexicographic(Extensions(n, g, prefix))
    decreases n - |prefix|, n + 1
  {
    if |prefix| < n {
      FromColumnInOrder(n, g, prefix, 0);
    }
  }

  lemma {:induction false} FromColumnInOrder(n: nat, g: Grid, prefix: seq<int>, c: nat)
    requires Square(n, g) && RowByRow(n, g, prefix) && |prefix| < n && c <= n
    ensures Lexicographic(FromColumn(n, g, prefix, c))
    decreases n - |prefix|, n - c
  {
    if c < n {
      var here, rest := Here(n, g, prefix, c), FromColumn(n, g, prefix, c + 1);
      FromColumnInOrder(n, g, prefix, c + 1);
      FitsExtends(n, g, prefix, c);
      if Fits(n, g, prefix, c) {
        ExtensionsInOrder(n, g, prefix + [c]);
        ExtensionsExact(n, g, prefix + [c]);
      }
      FromColumnExact(n, g, prefix, c + 1);
      forall s, t | s in here && t in rest
        ensures ComesFirst(s, t)
      {
        SmallerColumnFirst(n, g, prefix, c, s, t);
      }
      forall i, j | 0 <= i < j < |here + rest|
        ensures ComesFirst((here + rest)[i], (here + rest)[j])
      {
        assert i < |here| <= j ==> here[i] in here && rest[j - |here|] in rest;
      }
    }
  }

  lemma SmallerColumnFirst(n: nat, g: Grid, prefix: seq<int>, c: nat, s: seq<int>, t: seq<int>)
    requires Square(n, g) && |prefix| < n && c < n
    requires CompletesPrefix(n, g, prefix + [c], s) && CompletesFrom(n, g, prefix, c + 1, t)
    ensures ComesFirst(s, t)
  {
    var r := |prefix|;
    assert s[..r] == (prefix + [c])[..r] == prefix == t[..r];
    assert s[r] == (prefix + [c])[r];
  }

  /** The solutions are listed in lexicographic order. */
  lemma SolutionsInOrder(n: nat, g: Grid)
    requires Square(n, g)
    ensures Lexicographic(AllSolutions(n, g))
  {
    ExtensionsInOrder(n, g, []);
  }

  /** Two of them are enough to decide uniqueness. */
  lemma OneMeansUnique(n: nat, g: Grid, s: seq<int>)
    requires Square(n, g)
    ensures UniquelySolvedBy(n, g, s) <==> AllSolutions(n, g) == [s]
  {
    AllSolutionsExact(n, g);
    var all := AllSolutions(n, g);
    assert |all| >= 2 ==> all[0] != all[1];
    if UniquelySolvedBy(n, g, s) {
      assert s in all;
      forall i | 0 <= i < |all|
        ensures all[i] == s
      {
        assert all[i] in all;
      }
    }
    if all == [s] {
      assert all[0] == s && s in all;
      forall t | IsSolution(n, g, t)
        ensures t == s
      {
        assert t in all;
      }
    }
  }

  // ----- the loops -----

  ghost function RegionsUsed(n: nat, g: Grid, prefix: seq<int>): set<int>
    requires Square(n, g) && InRange(n, prefix)
  {
    set a | 0 <= a < |prefix| :: g[a][prefix[a]]
  }

  /** Exactly the columns and regions of the queens placed so far are marked. */
  ghost predicate Marked(n: nat, g: Grid, prefix: seq<int>, cols: seq<bool>, regs: seq<bool>)
    requires Square(n, g)
  {
    && RowByRow(n, g, prefix)
    && |cols| == n && |regs| == n
    && (forall c :: 0 <= c < n ==> (cols[c] <==> c in prefix))
    && (forall k :: 0 <= k < n ==> (regs[k] <==> k in RegionsUsed(n, g, prefix)))
  }

  lemma MarkOneMore(n: nat, g: Grid, prefix: seq<int>, c: int, cols: seq<bool>, regs: seq<bool>)
    requires Square(n, g) && IdsInRange(n, g)
    requires Marked(n, g, prefix, cols, regs) && |prefix| < n && 0 <= c < n
    ensures Fits(n, g, prefix, c) <==>
      !cols[c] && !regs[g[|prefix|][c]] && (|prefix| > 0 ==> Abs(prefix[|prefix| - 1] - c) > 1)
    ensures Fits(n, g, prefix, c) ==>
      Marked(n, g, prefix + [c], cols[c := true], regs[g[|prefix|][c] := true])
  {
    FitsExtends(n, g, prefix, c);
    var k := g[|prefix|][c];
    forall j
      ensures j in RegionsUsed(n, g, prefix + [c]) <==> j in RegionsUsed(n, g, prefix) || j == k
    {
      if j == k {
        assert (prefix + [c])[|prefix|] == c;
      }
      if j in RegionsUsed(n, g, prefix) {
        var a :| 0 <= a < |prefix| && g[a][prefix[a]] == j;
        assert (prefix + [c])[a] == prefix[a];
      }
    }
    forall a | 0 <= a < |prefix|
      ensures g[a][prefix[a]] in RegionsUsed(n, g, prefix)
    {
    }
  }

  function AddUpTo(found: int, limit: int, more: nat): int {
    if found >= limit then found else Min(limit, found + more)
  }

  /** `countSolutions` of the server: the closure's captured variables are the fields. */
  class SolutionCounter {
    const size: nat
    const regions: Grid
    const limit: int
    const cols: array<bool>
    const regs: array<bool>
    var found: int

    ghost predicate At(prefix: seq<int>)
      reads this, cols, regs
    {
      && cols != regs
      && Square(size, regions) && IdsInRange(size, regions)
      && Marked(size, regions, prefix, cols[..], regs[..])
    }

    constructor (size: nat, regions: Grid, limit: int)
      requires Square(size, regions) && IdsInRange(size, regions)
      ensures this.size == size && this.regions == regions && this.limit == limit
      ensures At([]) && found == 0 && fresh(cols) && fresh(regs)
    {
      this.size, this.regions, this.limit := size, regions, limit;
      cols := new bool[size](_ => false);
      regs := new bool[size](_ => false);
      found := 0;
    }

    /** Counts the completions of `prefix` on top of `found`, stopping at the limit, and leaves
        every mark as it was. */
    method Rec(r: nat, prev: int, ghost prefix: seq<int>)
      requires At(prefix) && r == |prefix|
      requires r > 0 ==> prev == prefix[r - 1]
      modifies `found, cols, regs
      ensures At(prefix)
      ensures cols[..] == old(cols[..]) && regs[..] == old(regs[..])
      ensures found == AddUpTo(old(found), limit, |Extensions(size, regions, prefix)|)
      decreases size - r, 1
    {
      if found >= limit {
        return;
      }
      if r == size {
        found := found + 1;
        return;
      }
      ghost var whole := |FromColumn(size, regions, prefix, 0)|;
      for c := 0 to size
        invariant At(prefix)
        invariant cols[..] == old(cols[..]) && regs[..] == old(regs[..])
        invariant AddUpTo(found, limit, |FromColumn(size, regions, prefix, c)|) == AddUpTo(old(found), limit, whole)
      {
        Try(r, prev, c, prefix);
      }
    }

    /** The loop body: a queen in column c of row r, if it fits, and everything below it. */
    method Try(r: nat, prev: int, c: nat, ghost prefix: seq<int>)
      requires At(prefix) && r == |prefix| < size && c < size
      requires r > 0 ==> prev == prefix[r - 1]
      modifies `found, cols, regs
      ensures cols[..] == old(cols[..]) && regs[..] == old(regs[..])
      ensures found == AddUpTo(old(found), limit, |Here(size, regions, prefix, c)|)
      decreases size - r, 0
    {
      var reg := regions[r][c];
      MarkOneMore(size, regions, prefix, c, cols[..], regs[..]);
      if cols[c] || regs[reg] || (r > 0 && Abs(prev - c) <= 1) {
        return;
      }
      ghost var cols0, regs0 := cols[..], regs[..];
      cols[c], regs[reg] := true, true;
      assert cols[..] == cols0[c := true] && regs[..] == regs0[reg := true];
      Rec(r + 1, c, prefix + [c]);
      cols[c], regs[reg] := false, false;
      assert cols[..] == cols0 && regs[..] == regs0;
    }
  }

  method CountSolutions(size: nat, regions: Grid, limit: int) returns (found: int)
    requires Square(size, regions) && IdsInRange(size, regions)
    ensures found == if limit <= 0 then 0 else Min(limit, |AllSolutions(size, regions)|)
  {
    var k := new SolutionCounter(size, regions, limit);
    k.Rec(0, -2, []);
    found := k.found;
  }

  /** The Python search: the same loop, but it keeps the placements it finds. `solve` of the
      generator reads the region of a cell from the grid, `brute_force` of the solver from its
      table of cell regions. */
  class Search {
    const n: nat
    const region: Grid
    const limit: nat
    const colsUsed: array<bool>
    const regUsed: array<bool>
    var placed: seq<int>
    var found: seq<seq<int>>

    ghost predicate Ready()
      reads this, colsUsed, regUsed
    {
      && colsUsed != regUsed
      && Square(n, region) && IdsInRange(n, region)
      && Marked(n, region, placed, colsUsed[..], regUsed[..])
    }

    constructor (n: nat, region: Grid, limit: nat)
      requires Square(n, region) && IdsInRange(n, region)
      ensures this.n == n && this.region == region && this.limit == limit
      ensures Ready() && placed == [] && found == [] && fresh(colsUsed) && fresh(regUsed)
    {
      this.n, this.region, this.limit := n, region, limit;
      colsUsed := new bool[n](_ => false);
      regUsed := new bool[n](_ => false);
      placed, found := [], [];
    }

    method Rec(r: nat)
      requires Ready() && r == |placed|
      requires |found| <= limit
      modifies `found, `placed, colsUsed, regUsed
      ensures Ready() && placed == old(placed)
      ensures colsUsed[..] == old(colsUsed[..]) && regUsed[..] == old(regUsed[..])
      ensures found == Capped(old(found) + Extensions(n, region, placed), limit)
      decreases n - r, 1
    {
      if |found| >= limit {
        assert Capped(found + Extensions(n, region, placed), limit) == found;
        return;
      }
      if r == n {
        found := found + [placed];
        return;
      }
      ghost var start := found;
      ghost var whole := found + FromColumn(n, region, placed, 0);
      for c := 0 to n
        invariant Ready() && placed == old(placed)
        invariant colsUsed[..] == old(colsUsed[..]) && regUsed[..] == old(regUsed[..])
        invariant |found| <= limit
        invariant Capped(found + FromColumn(n, region, placed, c), limit) == Capped(whole, limit)
      {
        ghost var before := found;
        Try(r, c);
        CappedInTwo(before, Here(n, region, placed, c), FromColumn(n, region, placed, c + 1), limit);
      }
      assert found + FromColumn(n, region, placed, n) == found;
    }

    method Try(r: nat, c: nat)
      requires Ready() && r == |placed| < n && c < n
      requires |found| <= limit
      modifies `found, `placed, colsUsed, regUsed
      ensures placed == old(placed)
      ensures colsUsed[..] == old(colsUsed[..]) && regUsed[..] == old(regUsed[..])
      ensures found == Capped(old(found) + Here(n, region, placed, c), limit)
      decreases n - r, 0
    {
      var k := region[r][c];
      MarkOneMore(n, region, placed, c, colsUsed[..], regUsed[..]);
      if colsUsed[c] || regUsed[k] {
        assert found + [] == found;
        return;
      }
      if r > 0 && Abs(placed[r - 1] - c) <= 1 {
        assert found + [] == found;
        return;
      }
      ghost var cols0, regs0 := colsUsed[..], regUsed[..];
      colsUsed[c], regUsed[k] := true, true;
      placed := placed + [c];
      assert colsUsed[..] == cols0[c := true] && regUsed[..] == regs0[k := true];
      Rec(r + 1);
      placed := placed[..|placed| - 1];
      colsUsed[c], regUsed[k] := false, false;
      assert colsUsed[..] == cols0[c := true][c := false] && regUsed[..] == regs0[k := true][k := false];
      Unmarked(cols0, c);
      Unmarked(regs0, k);
    }
  }

  lemma Unmarked(marks: seq<bool>, i: nat)
    requires i < |marks| && !marks[i]
    ensures marks[i := true][i := false] == marks
  {
  }

  ghost function Capped<T>(xs: seq<T>, limit: nat): seq<T> {
    if |xs| <= limit then xs else xs[..limit]
  }

  lemma CappedInTwo<T>(xs: seq<T>, ys: seq<T>, zs: seq<T>, limit: nat)
    requires |xs| <= limit
    ensures Capped(Capped(xs + ys, limit) + zs, limit) == Capped(xs + (ys + zs), limit)
  {
    assert xs + (ys + zs) == (xs + ys) + zs;
  }

  /** `solve` and `brute_force`: the first `limit` solutions in lexicographic order. */
  method Solve(n: nat, region: Grid, limit: nat) returns (found: seq<seq<int>>)
    requires Square(n, region) && IdsInRange(n, region)
    ensures found == Capped(AllSolutions(n, region), limit)
  {
    var s := new Search(n, region, limit);
    s.Rec(0);
    found := s.found;
    assert [] + AllSolutions(n, region) == AllSolutions(n, region);
  }
}
