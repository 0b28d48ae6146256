/** The puzzle itself: a square board cut into colour regions, and what a solution is. */
module Boards {

  /** Region ids, row by row. */
  type Grid = seq<seq<int>>

  predicate Square(n: nat, g: Grid) {
    |g| == n && forall r :: 0 <= r < n ==> |g[r]| == n
  }

  /** Every region id is one of 0..n-1, so it can index an array of size n. */
  predicate IdsInRange(n: nat, g: Grid)
    requires Square(n, g)
  {
    forall r, c :: 0 <= r < n && 0 <= c < n ==> 0 <= g[r][c] < n
  }

  function Abs(x: int): nat {
    if x < 0 then -x else x
  }

  function Min(a: int, b: int): int {
    if a <= b then a else b
  }

  /** Two cells touch when they are the same or neighbours, diagonals included. */
  predicate Touch(r1: int, c1: int, r2: int, c2: int) {
    Abs(r1 - r2) <= 1 && Abs(c1 - c2) <= 1
  }

  /** `s[r]` is the column of the queen in row r. The rules, stated for every pair of rows:
      different columns, different regions, and no two queens within the eight neighbours. */
  ghost predicate IsSolution(n: nat, g: Grid, s: seq<int>)
    requires Square(n, g)
  {
    && |s| == n
    && (forall r :: 0 <= r < n ==> 0 <= s[r] < n)
    && forall a, b :: 0 <= a < b < n ==>
      && s[a] != s[b]
      && g[a][s[a]] != g[b][s[b]]
      && !Touch(a, s[a], b, s[b])
  }

  /** The board has `s` as its one and only solution. */
  ghost predicate UniquelySolvedBy(n: nat, g: Grid, s: seq<int>)
    requires Square(n, g)
  {
    IsSolution(n, g, s) && forall t :: IsSolution(n, g, t) ==> t == s
  }
}
