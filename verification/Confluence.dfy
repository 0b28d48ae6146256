/** Order does not matter: with "single" and "common" on, every run of the solver that takes its
    steps in any order, with or without "confined", ends the same way. */
module Confluence {
  import opened Finite
  import opened Puzzles
  import opened Deduction

  datatype Technique = Single | Confined | Common | Subset | Chain | Guess

  datatype Status = Solved | Stuck | Contradiction

  ghost predicate SingleStep(p: Puzzle, a: St, b: St, u: Unit, i: nat) {
    SingleAt(p, a, u, i) && i < |p.attack| && b == Place(p, a, i)
  }

  /** One application of one of the techniques in `ts` that only look at one unit. */
  ghost predicate StepBy(p: Puzzle, ts: set<Technique>, a: St, b: St) {
    || (exists u, i :: SingleStep(p, a, b, u, i))
    || (Confined in ts && exists u, line, e :: ConfinedAt(p, a, u, line, e) && b == Remove(a, e))
    || (Common in ts && exists u, e :: CommonAt(p, a, u, e) && b == Remove(a, e))
  }

  /** A run, state by state. */
  ghost predicate Run(p: Puzzle, ts: set<Technique>, trace: seq<St>) {
    && |trace| > 0
    && forall k :: 0 <= k < |trace| - 1 ==> StepBy(p, ts, trace[k], trace[k + 1])
  }

  ghost predicate RunBetween(p: Puzzle, ts: set<Technique>, a: St, b: St, trace: seq<St>) {
    Run(p, ts, trace) && trace[0] == a && trace[|trace| - 1] == b
  }

  ghost predicate Reaches(p: Puzzle, ts: set<Technique>, a: St, b: St) {
    exists trace :: RunBetween(p, ts, a, b, trace)
  }

  ghost predicate NoSingle(p: Puzzle, st: St) {
    forall u, i :: !SingleAt(p, st, u, i)
  }

  ghost predicate NoConfined(p: Puzzle, st: St) {
    forall u, line, e :: !ConfinedAt(p, st, u, line, e)
  }

  ghost predicate NoCommon(p: Puzzle, st: St) {
    forall u, e :: !CommonAt(p, st, u, e)
  }

  ghost predicate NothingFires(p: Puzzle, ts: set<Technique>, st: St) {
    && NoSingle(p, st)
    && (Confined in ts ==> NoConfined(p, st))
    && (Common in ts ==> NoCommon(p, st))
  }

  /** The solver stops in `st` and reports `status`. */
  ghost predicate Ends(p: Puzzle, ts: set<Technique>, st: St, status: Status) {
    match status
    case Contradiction => Dead(p, st)
    case Solved => !Dead(p, st) && |st.queens| == p.n
    case Stuck => !Dead(p, st) && |st.queens| != p.n && NothingFires(p, ts, st)
  }

  lemma ReachesItself(p: Puzzle, ts: set<Technique>, a: St)
    ensures Reaches(p, ts, a, a)
  {
    assert RunBetween(p, ts, a, a, [a]);
  }

  lemma ReachesOneMore(p: Puzzle, ts: set<Technique>, a: St, m: St, b: St)
    requires Reaches(p, ts, a, m) && StepBy(p, ts, m, b)
    ensures Reaches(p, ts, a, b)
  {
    var trace :| RunBetween(p, ts, a, m, trace);
    assert RunBetween(p, ts, a, b, trace + [b]);
  }

  // ----- what one step keeps -----

  lemma StepKeeps(p: Puzzle, ts: set<Technique>, a: St, b: St)
    requires p.Valid() && Inv(p, a) && StepBy(p, ts, a, b)
    ensures Inv(p, b) && Narrows(a, b) && SameSolutions(p, a, b)
  {
    if u, i :| SingleStep(p, a, b, u, i) {
      SingleIsForced(p, a, u, i);
      PlaceKeeps(p, a, i);
    } else if Confined in ts && exists u, line, e :: ConfinedAt(p, a, u, line, e) && b == Remove(a, e) {
      var u, line, e :| ConfinedAt(p, a, u, line, e) && b == Remove(a, e);
      ConfinedIsSafe(p, a, u, line, e);
      RemoveKeeps(p, a, e);
    } else {
      var u, e :| CommonAt(p, a, u, e) && b == Remove(a, e);
      CommonIsSafe(p, a, u, e);
      RemoveKeeps(p, a, e);
    }
  }

  lemma {:induction false} RunKeeps(p: Puzzle, ts: set<Technique>, trace: seq<St>, k: nat)
    requires p.Valid() && Run(p, ts, trace) && Inv(p, trace[0]) && k < |trace|
    ensures Inv(p, trace[k]) && Narrows(trace[0], trace[k]) && SameSolutions(p, trace[0], trace[k])
  {
    if k > 0 {
      RunKeeps(p, ts, trace, k - 1);
      StepKeeps(p, ts, trace[k - 1], trace[k]);
      SameSolutionsChain(p, trace[0], trace[k - 1], trace[k]);
    }
  }

  lemma ReachedKeeps(p: Puzzle, ts: set<Technique>, a: St, b: St)
    requires p.Valid() && Inv(p, a) && Reaches(p, ts, a, b)
    ensures Inv(p, b) && Narrows(a, b) && SameSolutions(p, a, b)
  {
    var trace :| RunBetween(p, ts, a, b, trace);
    RunKeeps(p, ts, trace, |trace| - 1);
  }

  // ----- every state of any run lies above a stuck state of another run -----

  lemma SingleStaysAbove(p: Puzzle, a: St, star: St, u: Unit, i: nat)
    requires p.Valid() && Inv(p, a) && Inv(p, star) && Narrows(a, star)
    requires !Dead(p, star) && NothingFires(p, {}, star)
    requires SingleAt(p, a, u, i) && i < |p.attack|
    ensures Narrows(Place(p, a, i), star)
  {
    assert !SingleAt(p, star, u, i);
    assert Cands(p, star, u) <= Cands(p, a, u) == {i};
    assert i in star.queens by {
      assert !Open(p, star, u);
      var q :| q in star.queens && q in p.Mask(u);
      assert q in Cands(p, a, u);
    }
  }

  lemma CommonStaysAbove(p: Puzzle, a: St, star: St, u: Unit, elim: set<nat>)
    requires p.Valid() && Inv(p, a) && Inv(p, star) && Narrows(a, star)
    requires !Dead(p, star) && NothingFires(p, {Common}, star)
    requires CommonAt(p, a, u, elim)
    ensures star.cand !! elim && star.queens !! elim
  {
    var cm := Cands(p, star, u);
    if Open(p, star, u) {
      assert cm <= Cands(p, a, u) && cm != {};
      assert !CommonAt(p, star, u, RuledOutByAll(p, star.cand, cm));
      assert RuledOutByAll(p, star.cand, cm) == {};
      var i :| i in cm;
      forall x | x in elim
        ensures x !in star.queens && x !in star.cand
      {
        assert x in p.attack[i];
        AttackSymmetric(p, x, i);
        assert x !in RuledOutByAll(p, star.cand, cm);
      }
    } else {
      var q :| q in star.queens && q in p.Mask(u);
      assert q in Cands(p, a, u);
      assert forall x :: x in elim ==> x in p.attack[q];
    }
  }

  lemma StepStaysAbove(p: Puzzle, ts: set<Technique>, a: St, b: St, star: St)
    requires p.Valid() && Inv(p, a) && Inv(p, star) && Narrows(a, star)
    requires !Dead(p, star) && NothingFires(p, {Common}, star)
    requires StepBy(p, ts, a, b)
    ensures Narrows(b, star)
  {
    if u, i :| SingleStep(p, a, b, u, i) {
      SingleStaysAbove(p, a, star, u, i);
    } else if Confined in ts && exists u, line, e :: ConfinedAt(p, a, u, line, e) && b == Remove(a, e) {
      var u, line, e :| ConfinedAt(p, a, u, line, e) && b == Remove(a, e);
      ConfinedIsCommon(p, a, u, line, e);
      CommonStaysAbove(p, a, star, u, RuledOutByAll(p, a.cand, Cands(p, a, u)));
    } else {
      var u, e :| CommonAt(p, a, u, e) && b == Remove(a, e);
      CommonStaysAbove(p, a, star, u, e);
    }
  }

  lemma {:induction false} RunStaysAbove(p: Puzzle, ts: set<Technique>, trace: seq<St>, star: St, k: nat)
    requires p.Valid() && Run(p, ts, trace) && Inv(p, trace[0]) && k < |trace|
    requires Inv(p, star) && Narrows(trace[0], star)
    requires !Dead(p, star) && NothingFires(p, {Common}, star)
    ensures Narrows(trace[k], star)
  {
    if k > 0 {
      RunKeeps(p, ts, trace, k - 1);
      RunStaysAbove(p, ts, trace, star, k - 1);
      StepStaysAbove(p, ts, trace[k - 1], trace[k], star);
    }
  }

  // ----- forced queens only -----

  /** Placing forced queens after a queen on i can end in an empty unit. */
  ghost predicate ChainFails(p: Puzzle, st: St, i: nat) {
    i < |p.attack| && exists b :: Reaches(p, {}, Place(p, st, i), b) && Dead(p, b)
  }

  lemma OnlySingles(p: Puzzle, a: St, b: St) returns (u: Unit, i: nat)
    requires StepBy(p, {}, a, b)
    ensures SingleStep(p, a, b, u, i)
  {
    u, i :| SingleStep(p, a, b, u, i);
  }

  lemma {:induction false} SinglesStayAbove(p: Puzzle, trace: seq<St>, star: St, k: nat)
    requires p.Valid() && Run(p, {}, trace) && Inv(p, trace[0]) && k < |trace|
    requires Inv(p, star) && Narrows(trace[0], star)
    requires !Dead(p, star) && NothingFires(p, {}, star)
    ensures Narrows(trace[k], star)
  {
    if k > 0 {
      RunKeeps(p, {}, trace, k - 1);
      SinglesStayAbove(p, trace, star, k - 1);
      var u, i := OnlySingles(p, trace[k - 1], trace[k]);
      SingleStaysAbove(p, trace[k - 1], star, u, i);
    }
  }

  /** When placing forced queens comes to rest without an empty unit, no order of placing them
      would have found one: one propagation decides the chain. */
  lemma RestDecidesChain(p: Puzzle, st: St, i: nat, star: St)
    requires p.Valid() && Inv(p, st) && i in st.cand && i < |p.attack|
    requires Reaches(p, {}, Place(p, st, i), star)
    ensures Dead(p, star) ==> ChainFails(p, st, i)
    ensures !Dead(p, star) && NothingFires(p, {}, star) ==> !ChainFails(p, st, i)
  {
    PlaceKeeps(p, st, i);
    ReachedKeeps(p, {}, Place(p, st, i), star);
    if !Dead(p, star) && NothingFires(p, {}, star) {
      forall b | Reaches(p, {}, Place(p, st, i), b)
        ensures !Dead(p, b)
      {
        var trace :| RunBetween(p, {}, Place(p, st, i), b, trace);
        SinglesStayAbove(p, trace, star, |trace| - 1);
        if Dead(p, b) {
          DeadStaysDead(p, b, star);
        }
      }
    }
  }

  lemma ChainFailureIsSafe(p: Puzzle, st: St, i: nat)
    requires p.Valid() && Inv(p, st) && i in st.cand && ChainFails(p, st, i)
    ensures Safe(p, st, {i})
  {
    PlaceKeeps(p, st, i);
    var b :| Reaches(p, {}, Place(p, st, i), b) && Dead(p, b);
    ReachedKeeps(p, {}, Place(p, st, i), b);
    DeadIsHopeless(p, b);
    FailedTrialIsSafe(p, st, i);
  }

  // ----- the two runs compared -----

  lemma DeadStaysDead(p: Puzzle, a: St, b: St)
    requires Dead(p, a) && Narrows(a, b)
    ensures Dead(p, b)
  {
    var u :| p.IsUnit(u) && Open(p, a, u) && Cands(p, a, u) == {};
    forall x | x in p.Mask(u)
      ensures x !in b.queens && x !in b.cand
    {
      assert x !in Cands(p, a, u) && x !in a.queens;
    }
  }

  lemma AtMostN(p: Puzzle, s: set<nat>)
    requires p.Valid() && Apart(p, s)
    ensures |s| <= p.n
  {
    OnePerLine(p, s, Row);
    var f := (i: nat) => p.Line(Row, i);
    ImageCard(s, f);
    BelowCard(p.n);
    forall x | x in s
      ensures f(x) in Below(p.n)
    {
      assert p.IsCell(x);
    }
    SubsetCard(Image(s, f), Below(p.n));
  }

  /** A run that can get stuck at `b` forces every finished run to be stuck, above `b`. */
  lemma StuckIsInevitable(p: Puzzle, t1: set<Technique>, t2: set<Technique>, s0: St, a: St, sa: Status, b: St)
    requires p.Valid() && Inv(p, s0) && Common in t2
    requires Reaches(p, t1, s0, a) && Ends(p, t1, a, sa)
    requires Reaches(p, t2, s0, b) && Ends(p, t2, b, Stuck)
    ensures sa == Stuck && Narrows(a, b)
  {
    ReachedKeeps(p, t1, s0, a);
    ReachedKeeps(p, t2, s0, b);
    var trace :| RunBetween(p, t1, s0, a, trace);
    RunStaysAbove(p, t1, trace, b, |trace| - 1);
    if sa == Contradiction {
      DeadStaysDead(p, a, b);
    }
    AtMostN(p, b.queens);
    SubsetCard(a.queens, b.queens);
  }

  lemma SolvedExcludesContradiction(p: Puzzle, t1: set<Technique>, t2: set<Technique>, s0: St, a: St, b: St, sb: Status)
    requires p.Valid() && Inv(p, s0)
    requires Reaches(p, t1, s0, a) && Ends(p, t1, a, Solved)
    requires Reaches(p, t2, s0, b) && Ends(p, t2, b, sb)
    ensures sb != Contradiction
    ensures sb == Solved ==> a == b
  {
    ReachedKeeps(p, t1, s0, a);
    ReachedKeeps(p, t2, s0, b);
    SolvedIsFull(p, a);
    assert Completes(p, s0, a.queens) && Completes(p, b, a.queens);
    if sb == Contradiction {
      DeadIsHopeless(p, b);
    }
    if sb == Solved {
      SolvedIsFull(p, b);
    }
  }

  /** Any two runs with "single" and "common" on, in any order of steps and of units, "confined" on
      or off in either, end with the same status; unless it is a contradiction, in the same state. */
  lemma RunsAgree(p: Puzzle, t1: set<Technique>, t2: set<Technique>, s0: St, a: St, sa: Status, b: St, sb: Status)
    requires p.Valid() && Inv(p, s0) && Common in t1 && Common in t2
    requires Reaches(p, t1, s0, a) && Ends(p, t1, a, sa)
    requires Reaches(p, t2, s0, b) && Ends(p, t2, b, sb)
    ensures sa == sb
    ensures sa != Contradiction ==> a == b
  {
    if sa == Stuck {
      StuckIsInevitable(p, t2, t1, s0, b, sb, a);
      StuckIsInevitable(p, t1, t2, s0, a, sa, b);
    } else if sb == Stuck {
      StuckIsInevitable(p, t1, t2, s0, a, sa, b);
    } else if sa == Solved {
      SolvedExcludesContradiction(p, t1, t2, s0, a, b, sb);
    } else if sb == Solved {
      SolvedExcludesContradiction(p, t2, t1, s0, b, a, sa);
    }
  }

  /** "confined" is a special case of "common": a board is solved with both exactly when it is
      solved without "confined". */
  lemma ConfinedIsRedundant(p: Puzzle, s0: St, a: St, sa: Status, b: St, sb: Status)
    requires p.Valid() && Inv(p, s0)
    requires Reaches(p, {Single, Confined, Common}, s0, a) && Ends(p, {Single, Confined, Common}, a, sa)
    requires Reaches(p, {Single, Common}, s0, b) && Ends(p, {Single, Common}, b, sb)
    ensures sa == Solved <==> sb == Solved
    ensures sa == Solved ==> a.queens == b.queens
  {
    RunsAgree(p, {Single, Confined, Common}, {Single, Common}, s0, a, sa, b, sb);
  }
}
