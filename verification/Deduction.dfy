/** What a state of the human-style solver means, and why each of its deductions is sound. */
module Deduction {
  import opened Finite
  import opened Puzzles

  /** Cells that may still hold a queen, and cells that hold one. */
  datatype St = St(cand: set<nat>, queens: set<nat>)

  /** `s` is a full placement that keeps every placed queen and only adds candidates. */
  ghost predicate Completes(p: Puzzle, st: St, s: set<nat>)
    requires p.Valid()
  {
    Full(p, s) && st.queens <= s && s <= st.queens + st.cand
  }

  ghost predicate Hopeless(p: Puzzle, st: St)
    requires p.Valid()
  {
    forall s: set<nat> :: !Completes(p, st, s)
  }

  ghost predicate SameSolutions(p: Puzzle, a: St, b: St)
    requires p.Valid()
  {
    forall s: set<nat> :: Completes(p, a, s) <==> Completes(p, b, s)
  }

  lemma SameSolutionsChain(p: Puzzle, a: St, b: St, c: St)
    requires p.Valid() && SameSolutions(p, a, b) && SameSolutions(p, b, c)
    ensures SameSolutions(p, a, c)
  {
    forall s: set<nat>
      ensures Completes(p, a, s) <==> Completes(p, c, s)
    {
      assert Completes(p, a, s) <==> Completes(p, b, s);
    }
  }

  /** No candidate is removed that some solution needs. */
  ghost predicate Safe(p: Puzzle, st: St, elim: set<nat>)
    requires p.Valid()
  {
    forall s: set<nat> :: Completes(p, st, s) ==> s !! elim
  }

  /** What every state the solver visits keeps: candidates are empty cells no queen attacks. */
  ghost predicate Inv(p: Puzzle, st: St)
    requires p.Valid()
  {
    && (forall i :: i in st.cand ==> p.IsCell(i))
    && Apart(p, st.queens)
    && st.cand !! st.queens
    && (forall q, c :: q in st.queens && c in st.cand ==> c !in p.attack[q])
  }

  /** `b` comes after `a`: fewer candidates, and new queens only on former candidates. */
  ghost predicate Narrows(a: St, b: St) {
    b.cand <= a.cand && a.queens <= b.queens && b.queens <= a.queens + a.cand
  }

  function Place(p: Puzzle, st: St, i: nat): St
    requires i < |p.attack|
  {
    St(st.cand - (p.attack[i] + {i}), st.queens + {i})
  }

  function Remove(st: St, elim: set<nat>): St {
    St(st.cand - elim, st.queens)
  }

  predicate Open(p: Puzzle, st: St, u: Unit) {
    p.Mask(u) !! st.queens
  }

  function Cands(p: Puzzle, st: St, u: Unit): set<nat> {
    p.Mask(u) * st.cand
  }

  /** A unit without a queen and without a candidate. */
  ghost predicate Dead(p: Puzzle, st: St) {
    exists u :: p.IsUnit(u) && Open(p, st, u) && Cands(p, st, u) == {}
  }

  // ----- states -----

  lemma PlaceKeeps(p: Puzzle, st: St, i: nat)
    requires p.Valid() && Inv(p, st) && i in st.cand
    ensures Inv(p, Place(p, st, i))
    ensures Narrows(st, Place(p, st, i))
    ensures |Place(p, st, i).cand| < |st.cand|
    ensures forall s: set<nat> :: Completes(p, Place(p, st, i), s) <==> Completes(p, st, s) && i in s
  {
    var t := Place(p, st, i);
    forall a, b | a in t.queens && b in t.queens
      ensures b !in p.attack[a]
    {
      AttackSymmetric(p, a, b);
    }
    SubsetCard(t.cand, st.cand);
    assert i in st.cand && i !in t.cand;
    forall s: set<nat>
      ensures Completes(p, t, s) <==> Completes(p, st, s) && i in s
    {
      PlaceKeepsSolution(p, st, i, s);
    }
  }

  lemma PlaceKeepsSolution(p: Puzzle, st: St, i: nat, s: set<nat>)
    requires p.Valid() && Inv(p, st) && i in st.cand
    ensures Completes(p, Place(p, st, i), s) <==> Completes(p, st, s) && i in s
  {
    var t := Place(p, st, i);
    if Completes(p, st, s) && i in s {
      forall c | c in s
        ensures c in t.queens + t.cand
      {
        assert c !in p.attack[i];
      }
    }
  }

  lemma AttackSymmetric(p: Puzzle, i: nat, j: nat)
    requires p.Valid() && p.IsCell(i) && p.IsCell(j)
    ensures j in p.attack[i] <==> i in p.attack[j]
    ensures i !in p.attack[i]
  {
  }

  lemma RemoveKeeps(p: Puzzle, st: St, elim: set<nat>)
    requires p.Valid() && Inv(p, st) && elim <= st.cand && elim != {}
    ensures Inv(p, Remove(st, elim))
    ensures Narrows(st, Remove(st, elim))
    ensures |Remove(st, elim).cand| < |st.cand|
    ensures Safe(p, st, elim) ==> SameSolutions(p, st, Remove(st, elim))
  {
    var t := Remove(st, elim);
    SubsetCard(t.cand, st.cand);
    var x :| x in elim;
    assert x in st.cand && x !in t.cand;
    if Safe(p, st, elim) {
      forall s: set<nat>
        ensures Completes(p, st, s) <==> Completes(p, t, s)
      {
      }
    }
  }

  /** A candidate that no solution has a queen on, because trying it is hopeless. */
  lemma FailedTrialIsSafe(p: Puzzle, st: St, i: nat)
    requires p.Valid() && Inv(p, st) && i in st.cand && Hopeless(p, Place(p, st, i))
    ensures Safe(p, st, {i})
  {
    PlaceKeeps(p, st, i);
  }

  lemma CandidateOfOpenUnit(p: Puzzle, st: St, u: Unit, s: set<nat>) returns (i: nat)
    requires p.Valid() && p.IsUnit(u) && Open(p, st, u) && Completes(p, st, s)
    ensures i in s && i in Cands(p, st, u)
  {
    UnitHasQueen(p, s, u);
    i :| i in s && i in p.Mask(u);
  }

  lemma DeadIsHopeless(p: Puzzle, st: St)
    requires p.Valid() && Dead(p, st)
    ensures Hopeless(p, st)
  {
    var u :| p.IsUnit(u) && Open(p, st, u) && Cands(p, st, u) == {};
    forall s: set<nat>
      ensures !Completes(p, st, s)
    {
      if Completes(p, st, s) {
        var i := CandidateOfOpenUnit(p, st, u, s);
      }
    }
  }

  /** n placed queens are a solution, the only one left, and no candidate remains. */
  lemma SolvedIsFull(p: Puzzle, st: St)
    requires p.Valid() && Inv(p, st) && |st.queens| == p.n
    ensures Completes(p, st, st.queens)
    ensures forall s: set<nat> :: Completes(p, st, s) ==> s == st.queens
    ensures st.cand == {}
  {
    forall s: set<nat> | Completes(p, st, s)
      ensures s == st.queens
    {
      SubsetCard(st.queens, s);
    }
    forall c: nat | p.IsCell(c)
      ensures c !in st.cand
    {
      var q := QueenSeesEveryCell(p, st.queens, c);
    }
  }

  // ----- the six deductions -----

  ghost predicate SingleAt(p: Puzzle, st: St, u: Unit, i: nat) {
    p.IsUnit(u) && Open(p, st, u) && Cands(p, st, u) == {i}
  }

  lemma SingleIsForced(p: Puzzle, st: St, u: Unit, i: nat)
    requires p.Valid() && Inv(p, st) && SingleAt(p, st, u, i)
    ensures i in st.cand
    ensures SameSolutions(p, st, Place(p, st, i))
  {
    assert i in Cands(p, st, u);
    PlaceKeeps(p, st, i);
    forall s: set<nat>
      ensures Completes(p, st, s) <==> Completes(p, Place(p, st, i), s)
    {
      if Completes(p, st, s) {
        var x := CandidateOfOpenUnit(p, st, u, s);
        assert x == i;
      }
    }
  }

  ghost predicate CommonAt(p: Puzzle, st: St, u: Unit, elim: set<nat>) {
    && p.IsUnit(u) && Open(p, st, u) && Cands(p, st, u) != {}
    && elim != {}
    && elim == RuledOutByAll(p, st.cand, Cands(p, st, u))
  }

  /** The candidates every cell of `cm` attacks. */
  ghost function RuledOutByAll(p: Puzzle, cand: set<nat>, cm: set<nat>): set<nat> {
    set c | c in cand && forall i: nat :: i in cm ==> i < |p.attack| && c in p.attack[i]
  }

  lemma CommonIsSafe(p: Puzzle, st: St, u: Unit, elim: set<nat>)
    requires p.Valid() && Inv(p, st) && CommonAt(p, st, u, elim)
    ensures Safe(p, st, elim)
  {
    forall s: set<nat> | Completes(p, st, s)
      ensures s !! elim
    {
      var i := CandidateOfOpenUnit(p, st, u, s);
      assert forall c :: c in elim ==> c in p.attack[i];
    }
  }

  /** The kinds of line a unit of kind `k` is compared with. */
  predicate Crosses(k: Kind, line: Kind) {
    (k == Region) != (line == Region)
  }

  ghost predicate ConfinedAt(p: Puzzle, st: St, u: Unit, line: Unit, elim: set<nat>) {
    && p.IsUnit(u) && Open(p, st, u) && Cands(p, st, u) != {}
    && p.IsUnit(line) && Crosses(u.kind, line.kind)
    && Cands(p, st, u) <= p.Mask(line)
    && elim == st.cand * p.Mask(line) - Cands(p, st, u) && elim != {}
  }

  /** What "confined" crosses out is ruled out by every candidate of the unit. */
  lemma ConfinedIsCommon(p: Puzzle, st: St, u: Unit, line: Unit, elim: set<nat>)
    requires p.Valid() && Inv(p, st) && ConfinedAt(p, st, u, line, elim)
    ensures elim <= RuledOutByAll(p, st.cand, Cands(p, st, u))
    ensures CommonAt(p, st, u, RuledOutByAll(p, st.cand, Cands(p, st, u)))
  {
    var cm := Cands(p, st, u);
    forall c, i | c in elim && i in cm
      ensures c in p.attack[i]
    {
      assert p.Line(line.kind, c) == p.Line(line.kind, i) == line.idx;
    }
  }

  lemma ConfinedIsSafe(p: Puzzle, st: St, u: Unit, line: Unit, elim: set<nat>)
    requires p.Valid() && Inv(p, st) && ConfinedAt(p, st, u, line, elim)
    ensures Safe(p, st, elim)
  {
    ConfinedIsCommon(p, st, u, line, elim);
    CommonIsSafe(p, st, u, RuledOutByAll(p, st.cand, Cands(p, st, u)));
  }

  /** The candidates of the units `js` of one kind. */
  function CandsOfAll(p: Puzzle, st: St, kind: Kind, js: set<nat>): set<nat> {
    set c | c in st.cand && p.Line(kind, c) in js && p.IsCell(c)
  }

  /** The open units of a kind that have a candidate among `cells`. */
  function Covered(p: Puzzle, st: St, kind: Kind, cells: set<nat>): set<nat> {
    set j | j in Below(p.n) && Open(p, st, Unit(kind, j)) && Cands(p, st, Unit(kind, j)) * cells != {}
  }

  /** k open units whose candidates meet exactly k open units of a crossing kind. */
  ghost predicate SubsetAt(p: Puzzle, st: St, akind: Kind, js: set<nat>, bkind: Kind, elim: set<nat>) {
    && Crosses(akind, bkind)
    && (forall j :: j in js ==> j < p.n && Open(p, st, Unit(akind, j)))
    && var amask := CandsOfAll(p, st, akind, js);
    var covered := Covered(p, st, bkind, amask);
    && |covered| == |js|
    && elim == CandsOfAll(p, st, bkind, covered) - amask && elim != {}
  }

  /** The candidates of the units js lie on as many lines of the other kind, which are ks, and elim
      are the other candidates on those lines. */
  ghost predicate FitsInto(p: Puzzle, st: St, akind: Kind, js: set<nat>, bkind: Kind, ks: set<nat>, elim: set<nat>) {
    && |ks| == |js|
    && (forall b :: b in ks <==> exists c :: c in st.cand && p.Line(akind, c) in js && p.Line(bkind, c) == b)
    && (forall c :: c in elim <==> c in st.cand && p.Line(bkind, c) in ks && p.Line(akind, c) !in js)
  }

  /** What "subset" looks for, cell by cell. */
  lemma SubsetMeans(p: Puzzle, st: St, akind: Kind, js: set<nat>, bkind: Kind, elim: set<nat>)
    requires p.Valid() && Inv(p, st)
    ensures SubsetAt(p, st, akind, js, bkind, elim) <==>
      && Crosses(akind, bkind) && (forall j :: j in js ==> j < p.n && Open(p, st, Unit(akind, j)))
      && elim != {} && exists ks :: FitsInto(p, st, akind, js, bkind, ks, elim)
  {
    var amask := CandsOfAll(p, st, akind, js);
    var covered := Covered(p, st, bkind, amask);
    CoveredLines(p, st, akind, js, bkind);
    forall ks | FitsInto(p, st, akind, js, bkind, ks, elim)
      ensures ks == covered && elim == CandsOfAll(p, st, bkind, ks) - amask
    {
      assert forall b :: b in ks <==> b in covered;
    }
    if SubsetAt(p, st, akind, js, bkind, elim) {
      assert FitsInto(p, st, akind, js, bkind, covered, elim);
    }
  }

  lemma CoveredLines(p: Puzzle, st: St, akind: Kind, js: set<nat>, bkind: Kind)
    requires p.Valid() && Inv(p, st)
    ensures forall b :: b in Covered(p, st, bkind, CandsOfAll(p, st, akind, js)) <==>
      exists c :: c in st.cand && p.Line(akind, c) in js && p.Line(bkind, c) == b
  {
    var amask := CandsOfAll(p, st, akind, js);
    forall c | c in amask
      ensures p.Line(bkind, c) in Covered(p, st, bkind, amask)
    {
      CandidateIsOpen(p, st, bkind, c);
      assert c in Cands(p, st, Unit(bkind, p.Line(bkind, c))) * amask;
    }
    forall b | b in Covered(p, st, bkind, amask)
      ensures exists c :: c in st.cand && p.Line(akind, c) in js && p.Line(bkind, c) == b
    {
      var c :| c in Cands(p, st, Unit(bkind, b)) * amask;
      assert p.Line(bkind, c) == b;
    }
  }

  lemma CandidateIsOpen(p: Puzzle, st: St, kind: Kind, c: nat)
    requires p.Valid() && Inv(p, st) && c in st.cand
    ensures p.Line(kind, c) < p.n && Open(p, st, Unit(kind, p.Line(kind, c))) && c in Cands(p, st, Unit(kind, p.Line(kind, c)))
  {
    forall q | q in st.queens
      ensures q !in p.Mask(Unit(kind, p.Line(kind, c)))
    {
      assert c !in p.attack[q];
    }
  }

  lemma SubsetIsSafe(p: Puzzle, st: St, akind: Kind, js: set<nat>, bkind: Kind, elim: set<nat>)
    requires p.Valid() && Inv(p, st) && SubsetAt(p, st, akind, js, bkind, elim)
    ensures Safe(p, st, elim)
  {
    var amask := CandsOfAll(p, st, akind, js);
    var covered := Covered(p, st, bkind, amask);
    forall s: set<nat> | Completes(p, st, s)
      ensures s !! elim
    {
      SubsetUsesUp(p, st, akind, js, bkind, s);
      forall c | c in elim
        ensures c !in s
      {
        // The unit of c already has its queen inside amask.
        var b := p.Line(bkind, c);
        var x :| x in s * amask && p.Line(bkind, x) == b;
        assert p.Attacks(x, c);
      }
    }
  }

  /** The queens of the k units take one covered unit each, so all of them. */
  lemma SubsetUsesUp(p: Puzzle, st: St, akind: Kind, js: set<nat>, bkind: Kind, s: set<nat>)
    requires p.Valid() && Inv(p, st) && Completes(p, st, s)
    requires forall j :: j in js ==> j < p.n && Open(p, st, Unit(akind, j))
    requires |Covered(p, st, bkind, CandsOfAll(p, st, akind, js))| == |js|
    ensures forall b :: b in Covered(p, st, bkind, CandsOfAll(p, st, akind, js)) ==>
      exists x :: x in s * CandsOfAll(p, st, akind, js) && p.Line(bkind, x) == b
  {
    var amask := CandsOfAll(p, st, akind, js);
    var covered := Covered(p, st, bkind, amask);
    var qs := s * amask;
    QueensOfUnits(p, st, akind, js, s);
    OnePerLine(p, s, bkind);
    var f := (i: nat) => p.Line(bkind, i);
    assert InjectiveOn(qs, f);
    forall x | x in qs
      ensures f(x) in covered
    {
      CandidateIsOpen(p, st, bkind, x);
      assert x in Cands(p, st, Unit(bkind, f(x))) * amask;
    }
    forall b | b in covered
      ensures exists x :: x in s * amask && p.Line(bkind, x) == b
    {
      var x := Pigeonhole(qs, covered, f, b);
    }
  }

  lemma QueensOfUnits(p: Puzzle, st: St, akind: Kind, js: set<nat>, s: set<nat>)
    requires p.Valid() && Inv(p, st) && Completes(p, st, s)
    requires forall j :: j in js ==> j < p.n && Open(p, st, Unit(akind, j))
    ensures |s * CandsOfAll(p, st, akind, js)| == |js|
  {
    var qs := s * CandsOfAll(p, st, akind, js);
    var f := (i: nat) => p.Line(akind, i);
    OnePerLine(p, s, akind);
    assert InjectiveOn(qs, f);
    ImageCard(qs, f);
    forall j | j in js
      ensures j in Image(qs, f)
    {
      var i := CandidateOfOpenUnit(p, st, Unit(akind, j), s);
      assert i in qs && f(i) == j;
    }
    assert Image(qs, f) == js;
  }
}
