/** The gate in front of publishing a level: a board is accepted only when it is a real puzzle
    whose stored solution is its only one. */
module Publishing {
  import opened Boards
  import opened Enumeration

  datatype BoardError =
    | ImplausibleSize
    | WrongShape
    | RowTooShortOrLong
    | RegionIdOutside
    | RegionWithoutCell
    | ColumnOutside
    | SharedColumn
    | SharedRegion
    | QueensTouch
    | NotUnique(solutions: int)

  datatype Verdict = Accepted | Rejected(error: BoardError)

  ghost predicate EveryIdUsed(n: nat, g: Grid)
    requires Square(n, g)
  {
    forall k :: 0 <= k < n ==> IdUsed(n, g, k)
  }

  ghost predicate IdUsed(n: nat, g: Grid, k: int)
    requires Square(n, g)
  {
    exists r, c :: 0 <= r < n && 0 <= c < n && g[r][c] == k
  }

  /** What a published level promises every device that downloads it. */
  ghost predicate Publishable(size: int, regions: Grid, solution: seq<int>) {
    && 4 <= size <= 20
    && Square(size, regions) && IdsInRange(size, regions) && EveryIdUsed(size, regions)
    && UniquelySolvedBy(size, regions, solution)
  }

  /** What is wrong with the regions when this is the error. */
  ghost predicate RegionError(size: nat, regions: Grid, e: BoardError)
    requires |regions| == size
  {
    match e
    case RowTooShortOrLong => exists r :: 0 <= r < size && |regions[r]| != size
    case RegionIdOutside => exists r, c :: 0 <= r < size && 0 <= c < |regions[r]| && !(0 <= regions[r][c] < size)
    case RegionWithoutCell => Square(size, regions) && exists k :: 0 <= k < size && !IdUsed(size, regions, k)
    case _ => false
  }

  /** What is wrong with the stored solution, in rows r and, where it takes two, a before r. */
  ghost predicate SolutionErrorAt(size: nat, regions: Grid, s: seq<int>, e: BoardError, a: nat, r: nat)
    requires Square(size, regions) && |s| == size
  {
    && r < size && (forall k :: 0 <= k < r ==> 0 <= s[k] < size)
    && match e
       case ColumnOutside => !(0 <= s[r] < size)
       case SharedColumn => a < r && s[a] == s[r]
       case SharedRegion => a < r && 0 <= s[r] < size && regions[a][s[a]] == regions[r][s[r]]
       case QueensTouch => a + 1 == r && Touch(a, s[a], r, s[r])
       case _ => false
  }

  ghost predicate SolutionError(size: nat, regions: Grid, s: seq<int>, e: BoardError)
    requires Square(size, regions) && |s| == size
  {
    exists a, r :: SolutionErrorAt(size, regions, s, e, a, r)
  }

  /** The error names what is wrong, and the checks before it passed. */
  ghost predicate Explains(size: int, regions: Grid, s: seq<int>, e: BoardError) {
    match e
    case ImplausibleSize => !(4 <= size <= 20)
    case WrongShape => 4 <= size <= 20 && (|regions| != size || |s| != size)
    case NotUnique(n) =>
      4 <= size <= 20 && Square(size, regions) && IsSolution(size, regions, s) && n == 2 && !UniquelySolvedBy(size, regions, s)
    case _ =>
      && 4 <= size <= 20 && |regions| == size == |s|
      && (RegionError(size, regions, e)
          || (Square(size, regions) && IdsInRange(size, regions) && EveryIdUsed(size, regions) && SolutionError(size, regions, s, e)))
  }

  /** The part of the check that does not look at the stored solution. */
  method CheckRegions(size: nat, regions: Grid) returns (v: Verdict)
    requires |regions| == size
    ensures v.Accepted? <==> Square(size, regions) && IdsInRange(size, regions) && EveryIdUsed(size, regions)
    ensures v.Rejected? ==> RegionError(size, regions, v.error)
  {
    var seen := new bool[size](_ => false);
    for r := 0 to size
      invariant forall i :: 0 <= i < r ==> |regions[i]| == size
      invariant forall i, c :: 0 <= i < r && 0 <= c < size ==> 0 <= regions[i][c] < size && seen[regions[i][c]]
      invariant forall k :: 0 <= k < size && seen[k] ==>
        exists i, c :: 0 <= i < r && 0 <= c < size && regions[i][c] == k
    {
      var row := regions[r];
      if |row| != size {
        return Rejected(RowTooShortOrLong);
      }
      for c := 0 to size
        invariant forall i, c :: 0 <= i < r && 0 <= c < size ==> 0 <= regions[i][c] < size && seen[regions[i][c]]
        invariant forall j :: 0 <= j < c ==> 0 <= row[j] < size && seen[row[j]]
        invariant forall k :: 0 <= k < size && seen[k] ==>
          exists i, j :: 0 <= i <= r && 0 <= j < size && regions[i][j] == k
      {
        var id := row[c];
        if id < 0 || id >= size {
          return Rejected(RegionIdOutside);
        }
        seen[id] := true;
      }
    }
    for id := 0 to size
      invariant forall k :: 0 <= k < id ==> seen[k]
    {
      if !seen[id] {
        assert !IdUsed(size, regions, id);
        return Rejected(RegionWithoutCell);
      }
    }
    forall k | 0 <= k < size
      ensures IdUsed(size, regions, k)
    {
      assert seen[k];
    }
    return Accepted;
  }

  /** The stored solution, row by row, with the same marks as the counter. */
  method CheckSolution(size: nat, regions: Grid, solution: seq<int>) returns (v: Verdict)
    requires Square(size, regions) && IdsInRange(size, regions) && |solution| == size
    ensures v.Accepted? <==> RowByRow(size, regions, solution)
    ensures v.Rejected? ==> SolutionError(size, regions, solution, v.error)
  {
    var cols := new bool[size](_ => false);
    var regs := new bool[size](_ => false);
    for r := 0 to size
      invariant Marked(size, regions, solution[..r], cols[..], regs[..])
    {
      var c := solution[r];
      if c < 0 || c >= size {
        assert SolutionErrorAt(size, regions, solution, ColumnOutside, 0, r);
        return Rejected(ColumnOutside);
      }
      NextFits(size, regions, solution, r);
      MarkOneMore(size, regions, solution[..r], c, cols[..], regs[..]);
      if cols[c] {
        var a :| 0 <= a < r && solution[..r][a] == c;
        assert SolutionErrorAt(size, regions, solution, SharedColumn, a, r);
        return Rejected(SharedColumn);
      }
      ghost var cols0, regs0 := cols[..], regs[..];
      cols[c] := true;
      var reg := regions[r][c];
      if regs[reg] {
        var a :| 0 <= a < r && regions[a][solution[..r][a]] == reg;
        assert SolutionErrorAt(size, regions, solution, SharedRegion, a, r);
        return Rejected(SharedRegion);
      }
      regs[reg] := true;
      if r > 0 && Abs(solution[r - 1] - c) <= 1 {
        assert SolutionErrorAt(size, regions, solution, QueensTouch, r - 1, r);
        return Rejected(QueensTouch);
      }
      assert cols[..] == cols0[c := true] && regs[..] == regs0[reg := true];
      assert solution[..r] + [c] == solution[..r + 1];
    }
    assert solution[..size] == solution;
    return Accepted;
  }

  lemma NextFits(n: nat, g: Grid, s: seq<int>, r: nat)
    requires Square(n, g) && |s| == n && r < n && RowByRow(n, g, s[..r]) && 0 <= s[r] < n
    ensures RowByRow(n, g, s) ==> Fits(n, g, s[..r], s[r])
  {
    if RowByRow(n, g, s) {
      assert FitsAt(n, g, s, r);
    }
  }

  /** Accepts exactly the publishable boards, and says what is wrong with the others. */
  method ValidateBoard(size: int, regions: Grid, solution: seq<int>) returns (v: Verdict)
    ensures v.Accepted? <==> Publishable(size, regions, solution)
    ensures v.Rejected? ==> Explains(size, regions, solution, v.error)
  {
    if size < 4 || size > 20 {
      return Rejected(ImplausibleSize);
    }
    if |regions| != size || |solution| != size {
      return Rejected(WrongShape);
    }
    v := CheckRegions(size, regions);
    if v.Rejected? {
      return;
    }
    v := CheckSolution(size, regions, solution);
    AdjacentRowsSuffice(size, regions, solution);
    if v.Rejected? {
      return;
    }
    var n := CountSolutions(size, regions, 2);
    CountDecides(size, regions, solution);
    if n != 1 {
      return Rejected(NotUnique(n));
    }
    return Accepted;
  }

  lemma CountDecides(n: nat, g: Grid, s: seq<int>)
    requires Square(n, g) && IsSolution(n, g, s)
    ensures |AllSolutions(n, g)| == 1 <==> UniquelySolvedBy(n, g, s)
    ensures |AllSolutions(n, g)| >= 1
  {
    AllSolutionsExact(n, g);
    OneMeansUnique(n, g, s);
    assert s in AllSolutions(n, g);
  }
}
