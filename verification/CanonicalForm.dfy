/** The key the generator uses to recognise a board it already has: the smallest, over the eight
    rotations and mirrorings, of the regions renamed in reading order. */
module CanonicalForm {
  import opened Boards

  // ----- renaming in reading order -----

  /** The dictionary after reading `s`: each new value gets the next number. */
  function Names(s: seq<int>): map<int, nat> {
    if s == [] then map[]
    else
      var m := Names(s[..|s| - 1]);
      var v := s[|s| - 1];
      if v in m then m else m[v := |m|]
  }

  lemma {:induction false} NamesCover(s: seq<int>)
    ensures forall i :: 0 <= i < |s| ==> s[i] in Names(s)
    ensures forall v :: v in Names(s) ==> Names(s)[v] < |Names(s)|
    ensures forall v, w :: v in Names(s) && w in Names(s) && Names(s)[v] == Names(s)[w] ==> v == w
  {
    if s != [] {
      NamesCover(s[..|s| - 1]);
      forall i | 0 <= i < |s|
        ensures s[i] in Names(s)
      {
        assert i < |s| - 1 ==> s[..|s| - 1][i] == s[i];
      }
    }
  }

  lemma NamesStay(s: seq<int>, k: nat)
    requires k <= |s|
    ensures forall v :: v in Names(s[..k]) ==> v in Names(s) && Names(s)[v] == Names(s[..k])[v]
    decreases |s| - k
  {
    if k == |s| {
      assert s[..k] == s;
    } else {
      NamesStay(s, k + 1);
      assert s[..k + 1][..k] == s[..k];
    }
  }

  function Labels(s: seq<int>): seq<nat> {
    NamesCover(s);
    seq(|s|, i requires 0 <= i < |s| => Names(s)[s[i]])
  }

  /** Numbered in reading order: a new value gets the number of values before it. */
  lemma LabelsCountUp(s: seq<int>, i: nat)
    requires i < |s|
    ensures (forall j :: 0 <= j < i ==> s[j] != s[i]) ==> Labels(s)[i] == |set j | 0 <= j < i :: s[j]|
    ensures |Labels(s)| == |s| && forall j :: 0 <= j < |s| && s[j] == s[i] ==> Labels(s)[j] == Labels(s)[i]
  {
    NamesCover(s);
    if forall j :: 0 <= j < i ==> s[j] != s[i] {
      var before := s[..i];
      NamesSeen(before, s[i]);
      NamesCard(before);
      assert (set j | 0 <= j < i :: s[j]) == set j | 0 <= j < |before| :: before[j];
      assert s[..i + 1][..i] == before;
      NamesStay(s, i + 1);
    }
  }

  lemma NamesCard(s: seq<int>)
    ensures |Names(s)| == |set j | 0 <= j < |s| :: s[j]|
  {
    forall v
      ensures v in Names(s) <==> v in set j | 0 <= j < |s| :: s[j]
    {
      NamesSeen(s, v);
    }
    assert Names(s).Keys == set j | 0 <= j < |s| :: s[j];
  }

  /** Equal values at the same places. */
  ghost predicate SamePattern(s: seq<int>, t: seq<int>) {
    |s| == |t| && forall i, j :: 0 <= i < |s| && 0 <= j < |s| ==> (s[i] == s[j] <==> t[i] == t[j])
  }

  /** The same number for the values at place i. */
  ghost predicate SameNameAt(s: seq<int>, t: seq<int>, m: map<int, nat>, n: map<int, nat>, i: nat)
    requires i < |s| && i < |t|
  {
    s[i] in m && t[i] in n && m[s[i]] == n[t[i]]
  }

  lemma {:induction false} SamePatternSameNames(s: seq<int>, t: seq<int>)
    requires SamePattern(s, t)
    ensures |Names(s)| == |Names(t)|
    ensures forall i :: 0 <= i < |s| ==> SameNameAt(s, t, Names(s), Names(t), i)
  {
    if s != [] {
      var k := |s| - 1;
      SamePatternSameNames(s[..k], t[..k]);
      forall i | 0 <= i < k
        ensures SameNameAt(s, t, Names(s[..k]), Names(t[..k]), i)
      {
        assert SameNameAt(s[..k], t[..k], Names(s[..k]), Names(t[..k]), i);
      }
      LastName(s, t);
    }
  }

  lemma LastName(s: seq<int>, t: seq<int>)
    requires SamePattern(s, t) && s != []
    requires var k := |s| - 1;
      && |Names(s[..k])| == |Names(t[..k])|
      && forall i :: 0 <= i < k ==> SameNameAt(s, t, Names(s[..k]), Names(t[..k]), i)
    ensures |Names(s)| == |Names(t)|
    ensures forall i :: 0 <= i < |s| ==> SameNameAt(s, t, Names(s), Names(t), i)
  {
    var k := |s| - 1;
    var m, n := Names(s[..k]), Names(t[..k]);
    SeenTogether(s, t);
    assert Names(s) == if s[k] in m then m else m[s[k] := |m|];
    assert Names(t) == if t[k] in n then n else n[t[k] := |n|];
    if s[k] in m {
      NamesSeen(s[..k], s[k]);
      var i :| 0 <= i < k && s[..k][i] == s[k];
      assert SameNameAt(s, t, m, n, i) && t[i] == t[k];
    }
    forall i: nat | i < |s|
      ensures SameNameAt(s, t, Names(s), Names(t), i)
    {
      if i < k {
        assert SameNameAt(s, t, m, n, i);
      }
    }
  }

  /** The last value is new on both sides or on neither. */
  lemma SeenTogether(s: seq<int>, t: seq<int>)
    requires SamePattern(s, t) && s != []
    ensures var k := |s| - 1; s[k] in Names(s[..k]) <==> t[k] in Names(t[..k])
  {
    var k := |s| - 1;
    NamesSeen(s[..k], s[k]);
    NamesSeen(t[..k], t[k]);
    assert forall i :: 0 <= i < k ==> s[..k][i] == s[i] && t[..k][i] == t[i];
  }

  lemma {:induction false} NamesSeen(s: seq<int>, v: int)
    ensures v in Names(s) <==> exists i :: 0 <= i < |s| && s[i] == v
  {
    if s != [] {
      var s0 := s[..|s| - 1];
      NamesSeen(s0, v);
      assert s == s0 + [s[|s| - 1]];
    }
  }

  /** The labels are equal exactly when one sequence is a renaming of the other. */
  lemma LabelsDecidePattern(s: seq<int>, t: seq<int>)
    ensures Labels(s) == Labels(t) <==> SamePattern(s, t)
  {
    NamesCover(s);
    NamesCover(t);
    if SamePattern(s, t) {
      SamePatternSameNames(s, t);
      forall i: nat | i < |s|
        ensures Labels(s)[i] == Labels(t)[i]
      {
        assert SameNameAt(s, t, Names(s), Names(t), i);
      }
    }
    if Labels(s) == Labels(t) {
      assert |Labels(s)| == |s| && |Labels(t)| == |t|;
      forall i, j | 0 <= i < |s| && 0 <= j < |s|
        ensures s[i] == s[j] <==> t[i] == t[j]
      {
        assert Labels(s)[i] == Labels(t)[i] && Labels(s)[j] == Labels(t)[j];
      }
    }
  }

  // ----- grids, rotations and mirrorings -----

  function Rotate(n: nat, g: Grid): (h: Grid)
    requires Square(n, g)
    ensures Square(n, h)
    ensures forall r, c :: 0 <= r < n && 0 <= c < n ==> h[r][c] == g[n - 1 - c][r]
  {
    seq(n, r requires 0 <= r < n => seq(n, c requires 0 <= c < n => g[n - 1 - c][r]))
  }

  function Mirror(n: nat, g: Grid): (h: Grid)
    requires Square(n, g)
    ensures Square(n, h)
    ensures forall r, c :: 0 <= r < n && 0 <= c < n ==> h[r][c] == g[r][n - 1 - c]
  {
    seq(n, r requires 0 <= r < n => seq(n, c requires 0 <= c < n => g[r][n - 1 - c]))
  }

  function Turn(n: nat, g: Grid, k: nat): (h: Grid)
    requires Square(n, g)
    ensures Square(n, h)
  {
    if k == 0 then g else Rotate(n, Turn(n, g, k - 1))
  }

  function Variant(n: nat, g: Grid, flip: bool, k: nat): (h: Grid)
    requires Square(n, g)
    ensures Square(n, h)
  {
    Turn(n, if flip then Mirror(n, g) else g, k)
  }

  lemma SameGrid(n: nat, g: Grid, h: Grid)
    requires Square(n, g) && Square(n, h)
    requires forall r, c :: 0 <= r < n && 0 <= c < n ==> g[r][c] == h[r][c]
    ensures g == h
  {
    forall r | 0 <= r < n
      ensures g[r] == h[r]
    {
    }
  }

  lemma FourTurns(n: nat, g: Grid)
    requires Square(n, g)
    ensures Rotate(n, Rotate(n, Rotate(n, Rotate(n, g)))) == g
  {
    var a := Rotate(n, g);
    var b := Rotate(n, a);
    var c := Rotate(n, b);
    var d := Rotate(n, c);
    forall i, j | 0 <= i < n && 0 <= j < n
      ensures b[i][j] == g[n - 1 - i][n - 1 - j]
    {
      assert b[i][j] == a[n - 1 - j][i];
    }
    forall i, j | 0 <= i < n && 0 <= j < n
      ensures d[i][j] == g[i][j]
    {
      assert d[i][j] == c[n - 1 - j][i] == b[n - 1 - i][n - 1 - j];
    }
    SameGrid(n, d, g);
  }

  lemma MirrorTwice(n: nat, g: Grid)
    requires Square(n, g)
    ensures Mirror(n, Mirror(n, g)) == g
  {
    SameGrid(n, Mirror(n, Mirror(n, g)), g);
  }

  /** Mirroring a turned grid is turning the mirrored one the other way. */
  lemma MirrorUndoesTurn(n: nat, g: Grid)
    requires Square(n, g)
    ensures Rotate(n, Mirror(n, Rotate(n, g))) == Mirror(n, g)
  {
    var a := Rotate(n, g);
    var b := Mirror(n, a);
    var c := Rotate(n, b);
    forall i, j | 0 <= i < n && 0 <= j < n
      ensures c[i][j] == Mirror(n, g)[i][j]
    {
      assert c[i][j] == b[n - 1 - j][i] == a[n - 1 - j][n - 1 - i];
    }
    SameGrid(n, c, Mirror(n, g));
  }

  lemma {:induction false} TurnAdds(n: nat, g: Grid, j: nat, k: nat)
    requires Square(n, g)
    ensures Turn(n, Turn(n, g, j), k) == Turn(n, g, j + k)
  {
    if k > 0 {
      TurnAdds(n, g, j, k - 1);
    }
  }

  lemma {:induction false} TurnModFour(n: nat, g: Grid, k: nat)
    requires Square(n, g)
    ensures Turn(n, g, k + 4) == Turn(n, g, k)
  {
    var t := Turn(n, g, k);
    assert Turn(n, g, k + 1) == Rotate(n, t);
    assert Turn(n, g, k + 2) == Rotate(n, Rotate(n, t));
    assert Turn(n, g, k + 3) == Rotate(n, Rotate(n, Rotate(n, t)));
    FourTurns(n, t);
  }

  /** k turns, a mirroring and k more turns are just the mirroring. */
  lemma {:induction false} MirrorUndoesTurns(n: nat, g: Grid, k: nat)
    requires Square(n, g)
    ensures Turn(n, Mirror(n, Turn(n, g, k)), k) == Mirror(n, g)
  {
    if k > 0 {
      var t := Turn(n, g, k - 1);
      MirrorUndoesTurn(n, t);
      TurnAdds(n, Mirror(n, Rotate(n, t)), 1, k - 1);
      assert Turn(n, Mirror(n, Rotate(n, t)), 1) == Rotate(n, Turn(n, Mirror(n, Rotate(n, t)), 0));
      MirrorUndoesTurns(n, g, k - 1);
    }
  }

  /** The variants the loops visit: one to four turns. */
  lemma {:induction false} SomeVariant(n: nat, g: Grid, flip: bool, k: nat) returns (j: nat)
    requires Square(n, g)
    ensures 1 <= j <= 4 && Variant(n, g, flip, j) == Variant(n, g, flip, k)
  {
    var h := if flip then Mirror(n, g) else g;
    if k == 0 {
      TurnModFour(n, h, 0);
      j := 4;
    } else if k <= 4 {
      j := k;
    } else {
      TurnModFour(n, h, k - 4);
      j := SomeVariant(n, g, flip, k - 4);
    }
  }

  /** A variant of a variant is a variant. */
  lemma VariantsCompose(n: nat, g: Grid, f1: bool, k1: nat, f2: bool, k2: nat) returns (f: bool, k: nat)
    requires Square(n, g) && k1 <= 4
    ensures 1 <= k <= 4 && Variant(n, Variant(n, g, f1, k1), f2, k2) == Variant(n, g, f, k)
  {
    var h := if f1 then Mirror(n, g) else g;
    if !f2 {
      TurnAdds(n, h, k1, k2);
      f := f1;
      k := SomeVariant(n, g, f, k1 + k2);
    } else {
      // Mirror . Turn k1 == Turn (4 - k1) . Mirror
      var m := Mirror(n, Turn(n, h, k1));
      MirrorUndoesTurns(n, h, k1);
      TurnAdds(n, m, k1, 4 - k1);
      TurnModFour(n, m, 0);
      assert m == Turn(n, Mirror(n, h), 4 - k1);
      TurnAdds(n, Mirror(n, h), 4 - k1, k2);
      MirrorTwice(n, g);
      f := !f1;
      k := SomeVariant(n, g, f, 4 - k1 + k2);
    }
  }

  lemma VariantUndone(n: nat, g: Grid, flip: bool, k: nat) returns (f: bool, j: nat)
    requires Square(n, g) && 1 <= k <= 4
    ensures 1 <= j <= 4 && Variant(n, Variant(n, g, flip, k), f, j) == g
  {
    if flip {
      MirrorUndoesTurns(n, Mirror(n, g), k);
      MirrorTwice(n, g);
      f, j := true, k;
    } else {
      TurnAdds(n, g, k, 4 - k);
      TurnModFour(n, g, 0);
      f := false;
      j := SomeVariant(n, Variant(n, g, flip, k), false, 4 - k);
    }
  }

  // ----- renamed grids -----

  /** Row-major reading order. */
  function Flat(n: nat, g: Grid): (s: seq<int>)
    requires Square(n, g)
    ensures |s| == n * n
  {
    seq(n * n, i requires 0 <= i < n * n => CellOf(n, g, i))
  }

  function CellOf(n: nat, g: Grid, i: nat): int
    requires Square(n, g) && i < n * n
  {
    RowColumn(n, i);
    g[i / n][i % n]
  }

  lemma LessByProduct(a: nat, b: nat, n: nat)
    requires a * n < b * n
    ensures a < b
  {
    assert (a - b) * n == a * n - b * n;
  }

  lemma RowColumn(n: nat, i: nat)
    requires i < n * n
    ensures n > 0 && i / n < n && i % n < n && (i / n) * n + i % n == i
  {
    LessByProduct(i / n, n, n);
  }

  lemma DivideBack(n: nat, r: nat, c: nat)
    requires c < n
    ensures (r * n + c) / n == r && (r * n + c) % n == c
  {
    var q, m := (r * n + c) / n, (r * n + c) % n;
    assert q * n + m == r * n + c;
    LessByProduct(q, r + 1, n);
    LessByProduct(r, q + 1, n);
  }

  lemma RowsFit(n: nat, r: nat)
    requires r < n
    ensures r * n + n == (r + 1) * n <= n * n
  {
    LessOrEqualProduct(r + 1, n, n);
  }

  lemma LessOrEqualProduct(a: nat, b: nat, n: nat)
    requires a <= b
    ensures a * n <= b * n
  {
    assert (b - a) * n == b * n - a * n;
  }

  lemma FlatAt(n: nat, g: Grid, r: nat, c: nat)
    requires Square(n, g) && r < n && c < n
    ensures r * n + c < n * n && Flat(n, g)[r * n + c] == g[r][c]
  {
    RowsFit(n, r);
    DivideBack(n, r, c);
  }

  lemma FlatRow(n: nat, g: Grid, r: nat)
    requires Square(n, g) && r < n
    ensures r * n <= (r + 1) * n <= n * n
    ensures Flat(n, g)[..(r + 1) * n] == Flat(n, g)[..r * n] + g[r]
  {
    RowsFit(n, r);
    var s, base := Flat(n, g), r * n;
    forall c | 0 <= c < n
      ensures s[base + c] == g[r][c]
    {
      FlatAt(n, g, r, c);
    }
    assert s[base..base + n] == g[r];
    assert s[..base + n] == s[..base] + s[base..base + n];
  }

  /** Same grid up to the names of its regions. */
  ghost predicate SameShape(n: nat, g: Grid, h: Grid)
    requires Square(n, g) && Square(n, h)
  {
    forall r1, c1, r2, c2 :: 0 <= r1 < n && 0 <= c1 < n && 0 <= r2 < n && 0 <= c2 < n ==>
      (g[r1][c1] == g[r2][c2] <==> h[r1][c1] == h[r2][c2])
  }

  lemma ShapeGivesPattern(n: nat, g: Grid, h: Grid)
    requires Square(n, g) && Square(n, h) && SameShape(n, g, h)
    ensures SamePattern(Flat(n, g), Flat(n, h))
  {
    var s, t := Flat(n, g), Flat(n, h);
    forall i, j | 0 <= i < |s| && 0 <= j < |s|
      ensures s[i] == s[j] <==> t[i] == t[j]
    {
      RowColumn(n, i);
      RowColumn(n, j);
    }
  }

  lemma PatternGivesShape(n: nat, g: Grid, h: Grid)
    requires Square(n, g) && Square(n, h) && SamePattern(Flat(n, g), Flat(n, h))
    ensures SameShape(n, g, h)
  {
    forall r1, c1, r2, c2 | 0 <= r1 < n && 0 <= c1 < n && 0 <= r2 < n && 0 <= c2 < n
      ensures g[r1][c1] == g[r2][c2] <==> h[r1][c1] == h[r2][c2]
    {
      FlatAt(n, g, r1, c1);
      FlatAt(n, g, r2, c2);
      FlatAt(n, h, r1, c1);
      FlatAt(n, h, r2, c2);
    }
  }

  lemma FlatKeepsPattern(n: nat, g: Grid, h: Grid)
    requires Square(n, g) && Square(n, h)
    ensures SamePattern(Flat(n, g), Flat(n, h)) <==> SameShape(n, g, h)
  {
    if SameShape(n, g, h) {
      ShapeGivesPattern(n, g, h);
    }
    if SamePattern(Flat(n, g), Flat(n, h)) {
      PatternGivesShape(n, g, h);
    }
  }

  lemma {:induction false} TurnKeepsShape(n: nat, g: Grid, h: Grid, k: nat)
    requires Square(n, g) && Square(n, h) && SameShape(n, g, h)
    ensures SameShape(n, Turn(n, g, k), Turn(n, h, k))
  {
    if k > 0 {
      TurnKeepsShape(n, g, h, k - 1);
    }
  }

  lemma VariantKeepsShape(n: nat, g: Grid, h: Grid, flip: bool, k: nat)
    requires Square(n, g) && Square(n, h) && SameShape(n, g, h)
    ensures SameShape(n, Variant(n, g, flip, k), Variant(n, h, flip, k))
  {
    TurnKeepsShape(n, if flip then Mirror(n, g) else g, if flip then Mirror(n, h) else h, k);
  }

  // ----- the key -----

  /** Tuple comparison. */
  predicate LexLess(a: seq<nat>, b: seq<nat>) {
    b != [] && (a == [] || a[0] < b[0] || (a[0] == b[0] && LexLess(a[1..], b[1..])))
  }

  lemma {:induction false} LexTotal(a: seq<nat>, b: seq<nat>)
    ensures a == b || LexLess(a, b) || LexLess(b, a)
  {
    if a != [] && b != [] && a[0] == b[0] {
      LexTotal(a[1..], b[1..]);
      assert a == [a[0]] + a[1..] && b == [b[0]] + b[1..];
    }
  }

  /** The first place where they differ decides, or that one is the beginning of the other. */
  ghost predicate SmallerAt(a: seq<nat>, b: seq<nat>, k: nat) {
    k <= |a| && k < |b| && a[..k] == b[..k] && (k == |a| || a[k] < b[k])
  }

  lemma {:induction false} LexMeans(a: seq<nat>, b: seq<nat>)
    ensures LexLess(a, b) <==> exists k: nat :: SmallerAt(a, b, k)
  {
    if a != [] && b != [] && a[0] == b[0] {
      LexMeans(a[1..], b[1..]);
      if LexLess(a, b) {
        var k: nat :| SmallerAt(a[1..], b[1..], k);
        assert a[..k + 1] == [a[0]] + a[1..][..k] && b[..k + 1] == [b[0]] + b[1..][..k];
        assert SmallerAt(a, b, k + 1);
      }
      if exists k: nat :: SmallerAt(a, b, k) {
        var k: nat :| SmallerAt(a, b, k);
        assert k > 0;
        assert a[1..][..k - 1] == a[..k][1..] && b[1..][..k - 1] == b[..k][1..];
        assert SmallerAt(a[1..], b[1..], k - 1);
      }
    } else {
      if LexLess(a, b) {
        assert SmallerAt(a, b, 0);
      }
      forall k: nat | SmallerAt(a, b, k)
        ensures k == 0
      {
        StartsAlike(a, b, k);
      }
    }
  }

  lemma StartsAlike(a: seq<nat>, b: seq<nat>, k: nat)
    requires k <= |a| && k <= |b| && a[..k] == b[..k]
    ensures k == 0 || (a != [] && b != [] && a[0] == b[0])
  {
    if k > 0 {
      assert a[..k][0] == b[..k][0];
    }
  }

  lemma {:induction false} LexTransitive(a: seq<nat>, b: seq<nat>, c: seq<nat>)
    requires LexLess(a, b) && LexLess(b, c)
    ensures LexLess(a, c)
  {
    if a != [] && a[0] == b[0] == c[0] {
      LexTransitive(a[1..], b[1..], c[1..]);
    }
  }

  lemma {:induction false} LexIrreflexive(a: seq<nat>)
    ensures !LexLess(a, a)
  {
    if a != [] {
      LexIrreflexive(a[1..]);
    }
  }

  function KeyOf(n: nat, g: Grid): seq<nat>
    requires Square(n, g)
  {
    Labels(Flat(n, g))
  }

  ghost predicate IsKey(n: nat, g: Grid, key: seq<nat>)
    requires Square(n, g)
  {
    exists flip, k: nat :: 1 <= k <= 4 && key == KeyOf(n, Variant(n, g, flip, k))
  }

  ghost predicate IsCanonical(n: nat, g: Grid, key: seq<nat>)
    requires Square(n, g)
  {
    IsKey(n, g, key) && forall other :: IsKey(n, g, other) ==> !LexLess(other, key)
  }

  /** One board is the other after a rotation or mirroring and a renaming of its regions. */
  ghost predicate SameBoard(n: nat, g: Grid, h: Grid)
    requires Square(n, g) && Square(n, h)
  {
    exists flip, k :: VariantHasShape(n, g, flip, k, h)
  }

  ghost predicate VariantHasShape(n: nat, g: Grid, flip: bool, k: nat, h: Grid)
    requires Square(n, g) && Square(n, h)
  {
    1 <= k <= 4 && SameShape(n, Variant(n, g, flip, k), h)
  }

  lemma SameShapeSameKey(n: nat, g: Grid, h: Grid)
    requires Square(n, g) && Square(n, h)
    ensures KeyOf(n, g) == KeyOf(n, h) <==> SameShape(n, g, h)
  {
    LabelsDecidePattern(Flat(n, g), Flat(n, h));
    FlatKeepsPattern(n, g, h);
  }

  /** Every key of the second board is a key of the first. */
  lemma KeysCarryOver(n: nat, g: Grid, h: Grid, key: seq<nat>)
    requires Square(n, g) && Square(n, h) && SameBoard(n, g, h) && IsKey(n, h, key)
    ensures IsKey(n, g, key)
  {
    var f1, k1 :| VariantHasShape(n, g, f1, k1, h);
    var f2: bool, k2: nat :| 1 <= k2 <= 4 && key == KeyOf(n, Variant(n, h, f2, k2));
    VariantKeepsShape(n, Variant(n, g, f1, k1), h, f2, k2);
    var f, k := VariantsCompose(n, g, f1, k1, f2, k2);
    SameShapeSameKey(n, Variant(n, g, f, k), Variant(n, h, f2, k2));
  }

  lemma SameBoardSymmetric(n: nat, g: Grid, h: Grid)
    requires Square(n, g) && Square(n, h) && SameBoard(n, g, h)
    ensures SameBoard(n, h, g)
  {
    var f1, k1 :| VariantHasShape(n, g, f1, k1, h);
    var f, k := VariantUndone(n, g, f1, k1);
    VariantKeepsShape(n, Variant(n, g, f1, k1), h, f, k);
    assert VariantHasShape(n, h, f, k, g);
  }

  lemma CommonKeySameBoard(n: nat, g: Grid, h: Grid, key: seq<nat>)
    requires Square(n, g) && Square(n, h) && IsKey(n, g, key) && IsKey(n, h, key)
    ensures SameBoard(n, g, h)
  {
    var f1: bool, k1: nat :| 1 <= k1 <= 4 && key == KeyOf(n, Variant(n, g, f1, k1));
    var f2: bool, k2: nat :| 1 <= k2 <= 4 && key == KeyOf(n, Variant(n, h, f2, k2));
    SameShapeSameKey(n, Variant(n, g, f1, k1), Variant(n, h, f2, k2));
    var f3, k3 := VariantUndone(n, h, f2, k2);
    VariantKeepsShape(n, Variant(n, g, f1, k1), Variant(n, h, f2, k2), f3, k3);
    var f, k := VariantsCompose(n, g, f1, k1, f3, k3);
    assert VariantHasShape(n, g, f, k, h);
  }

  /** The canonical key is a complete invariant of a board. */
  lemma CanonicalIsComplete(n: nat, g: Grid, h: Grid, kg: seq<nat>, kh: seq<nat>)
    requires Square(n, g) && Square(n, h) && IsCanonical(n, g, kg) && IsCanonical(n, h, kh)
    ensures kg == kh <==> SameBoard(n, g, h)
  {
    if kg == kh {
      CommonKeySameBoard(n, g, h, kg);
    }
    if SameBoard(n, g, h) {
      SameBoardSymmetric(n, g, h);
      KeysCarryOver(n, g, h, kh);
      KeysCarryOver(n, h, g, kg);
      LexTotal(kg, kh);
    }
  }

  /** What the shape relation says in terms of region names: a one-to-one renaming. */
  ghost predicate Renames(n: nat, g: Grid, h: Grid, names: map<int, int>)
    requires Square(n, g) && Square(n, h)
  {
    && (forall v, w :: v in names && w in names && names[v] == names[w] ==> v == w)
    && forall r, c :: 0 <= r < n && 0 <= c < n ==> g[r][c] in names && names[g[r][c]] == h[r][c]
  }

  lemma SameShapeIsRenaming(n: nat, g: Grid, h: Grid)
    requires Square(n, g) && Square(n, h)
    ensures SameShape(n, g, h) <==> exists names :: Renames(n, g, h, names)
  {
    if SameShape(n, g, h) {
      var ids := set r, c | 0 <= r < n && 0 <= c < n :: g[r][c];
      var names := map v | v in ids :: NewName(n, g, h, v);
      forall r, c | 0 <= r < n && 0 <= c < n
        ensures g[r][c] in names && names[g[r][c]] == h[r][c]
      {
      }
      forall v, w | v in names && w in names && names[v] == names[w]
        ensures v == w
      {
        var r1, c1 :| 0 <= r1 < n && 0 <= c1 < n && g[r1][c1] == v;
        var r2, c2 :| 0 <= r2 < n && 0 <= c2 < n && g[r2][c2] == w;
      }
      assert Renames(n, g, h, names);
    }
  }

  /** The name `v` gets, read off any of its cells. */
  ghost function NewName(n: nat, g: Grid, h: Grid, v: int): int
    requires Square(n, g) && Square(n, h) && exists r, c :: 0 <= r < n && 0 <= c < n && g[r][c] == v
  {
    var r, c :| 0 <= r < n && 0 <= c < n && g[r][c] == v;
    h[r][c]
  }

  // ----- the loops -----

  /** One pass over the rows with the dictionary of names. */
  method ReadKey(n: nat, g: Grid) returns (key: seq<nat>)
    requires Square(n, g)
    ensures key == KeyOf(n, g)
  {
    var names: map<int, nat> := map[];
    key := [];
    ghost var done: seq<int> := [];
    for r := 0 to n
      invariant r * n <= n * n && done == Flat(n, g)[..r * n]
      invariant names == Names(done) && key == Labels(done)
    {
      FlatRow(n, g, r);
      names, key := ReadRow(names, key, g[r], done);
      done := done + g[r];
    }
    assert Flat(n, g)[..n * n] == Flat(n, g);
  }

  method ReadRow(names0: map<int, nat>, key0: seq<nat>, row: seq<int>, ghost done: seq<int>)
    returns (names: map<int, nat>, key: seq<nat>)
    requires names0 == Names(done) && key0 == Labels(done)
    ensures names == Names(done + row) && key == Labels(done + row)
  {
    names, key := names0, key0;
    assert done + row[..0] == done;
    for c := 0 to |row|
      invariant names == Names(done + row[..c]) && key == Labels(done + row[..c])
    {
      var v := row[c];
      ghost var s := done + row[..c];
      assert done + row[..c + 1] == s + [v];
      LabelsGrow(s, v);
      if v !in names {
        names := names[v := |names|];
      }
      key := key + [names[v]];
    }
    assert row[..|row|] == row;
  }

  lemma LabelsGrow(s: seq<int>, v: int)
    ensures Names(s + [v]) == if v in Names(s) then Names(s) else Names(s)[v := |Names(s)|]
    ensures v in Names(s + [v]) && Labels(s + [v]) == Labels(s) + [Names(s + [v])[v]]
  {
    var t := s + [v];
    assert t[..|s|] == s;
    NamesCover(s);
    NamesCover(t);
    NamesStay(t, |s|);
    assert |Labels(t)| == |Labels(s)| + 1;
    forall i | 0 <= i < |s|
      ensures Labels(t)[i] == Labels(s)[i]
    {
      assert t[i] == s[i];
    }
  }

  /** None of the first `turns` turns has a smaller key than `best`. */
  ghost predicate NoneSmaller(n: nat, g: Grid, flip: bool, turns: nat, best: seq<nat>)
    requires Square(n, g)
  {
    forall k: nat :: 1 <= k <= turns ==> !LexLess(KeyOf(n, Variant(n, g, flip, k)), best)
  }

  lemma StillNoneSmaller(n: nat, g: Grid, flip: bool, turns: nat, best: seq<nat>, key: seq<nat>)
    requires Square(n, g) && NoneSmaller(n, g, flip, turns, best) && LexLess(key, best)
    ensures NoneSmaller(n, g, flip, turns, key)
  {
    KeepSmaller(best, key);
  }

  /** The smallest key over both flips and four turns each; None stands for "no key yet". */
  method Canonical(n: nat, region: Grid) returns (best: seq<nat>)
    requires Square(n, region)
    ensures IsCanonical(n, region, best)
  {
    var plain := FourRotations(n, region, false, None);
    var both := FourRotations(n, region, true, plain);
    best := both.value;
    forall other | IsKey(n, region, other)
      ensures !LexLess(other, best)
    {
      var flip: bool, k: nat :| 1 <= k <= 4 && other == KeyOf(n, Variant(n, region, flip, k));
      assert NoneSmaller(n, region, flip, 4, best);
    }
  }

  datatype Best = None | Some(value: seq<nat>)

  /** After `turns` turns: the best key so far is a key, and nothing seen was smaller. */
  ghost predicate BestSoFar(n: nat, g: Grid, flip: bool, turns: nat, start: Best, best: Best)
    requires Square(n, g)
  {
    && (best.None? ==> turns == 0 && start.None?)
    && (best.Some? ==> IsKey(n, g, best.value) && NoneSmaller(n, g, flip, turns, best.value))
    && (best.Some? && start.Some? && NoneSmaller(n, g, !flip, 4, start.value) ==> NoneSmaller(n, g, !flip, 4, best.value))
  }

  lemma BestAfterTurn(n: nat, g: Grid, flip: bool, turns: nat, start: Best, best: Best, key: seq<nat>)
    requires Square(n, g) && turns < 4 && BestSoFar(n, g, flip, turns, start, best)
    requires key == KeyOf(n, Variant(n, g, flip, turns + 1))
    ensures BestSoFar(n, g, flip, turns + 1, start, if best.None? || LexLess(key, best.value) then Some(key) else best)
  {
    assert IsKey(n, g, key);
    LexIrreflexive(key);
    if best.Some? && LexLess(key, best.value) {
      StillNoneSmaller(n, g, flip, turns, best.value, key);
      if NoneSmaller(n, g, !flip, 4, best.value) {
        StillNoneSmaller(n, g, !flip, 4, best.value, key);
      }
    }
  }

  /** One pass of the outer loop. */
  method FourRotations(n: nat, region: Grid, flip: bool, start: Best) returns (best: Best)
    requires Square(n, region)
    requires start.Some? ==> IsKey(n, region, start.value)
    ensures best.Some? && BestSoFar(n, region, flip, 4, start, best)
  {
    var g := if flip then Mirror(n, region) else region;
    best := start;
    for turn := 0 to 4
      invariant Square(n, g) && g == Variant(n, region, flip, turn)
      invariant BestSoFar(n, region, flip, turn, start, best)
    {
      g := Rotate(n, g);
      assert g == Variant(n, region, flip, turn + 1);
      var key := ReadKey(n, g);
      BestAfterTurn(n, region, flip, turn, start, best, key);
      if best.None? || LexLess(key, best.value) {
        best := Some(key);
      }
    }
  }

  lemma KeepSmaller(best: seq<nat>, key: seq<nat>)
    ensures !LexLess(key, key)
    ensures LexLess(key, best) ==> forall x :: !LexLess(x, best) ==> !LexLess(x, key)
  {
    LexIrreflexive(key);
    if LexLess(key, best) {
      forall x | LexLess(x, key)
        ensures LexLess(x, best)
      {
        LexTransitive(x, key, best);
      }
    }
  }
}
