/** The human-style solver: a mutable state, one method per technique, nested trial and error, and
    the main loop that always takes the cheapest step that works. */
module HumanSolver {
  import opened Finite
  import opened Puzzles
  import opened Deduction
  import opened Confluence
  import opened SolverSteps

  class State {
    var cand: set<nat>
    var queens: set<nat>

    constructor (cand: set<nat>, queens: set<nat>)
      ensures Value() == St(cand, queens)
    {
      this.cand, this.queens := cand, queens;
    }

    ghost function Value(): St
      reads this
    {
      St(cand, queens)
    }

    method Copy() returns (s: State)
      ensures fresh(s) && s.Value() == Value()
    {
      s := new State(cand, queens);
    }
  }

  /** A full placement leaves no unit dead. */
  lemma SolvedIsAlive(p: Puzzle, st: St)
    requires p.Valid() && Inv(p, st) && |st.queens| == p.n
    ensures !Dead(p, st)
  {
    forall u | p.IsUnit(u)
      ensures !Open(p, st, u)
    {
      UnitHasQueen(p, st.queens, u);
    }
  }

  lemma OneElement(s: set<nat>, x: nat)
    requires |s| == 1 && x in s
    ensures s == {x}
  {
    SubsetCard({x}, s);
  }

  class Solver {
    const p: Puzzle
    const maxGuessDepth: int
    const maxSubset: int
    const techniques: set<Technique>

    ghost predicate Valid() {
      p.Valid() && Single in techniques
    }

    /** "single" is always on. */
    constructor (p: Puzzle, maxGuessDepth: int, maxSubset: int, techniques: set<Technique>)
      requires p.Valid()
      ensures this.p == p && this.maxGuessDepth == maxGuessDepth && this.maxSubset == maxSubset
      ensures this.techniques == techniques + {Single} && Valid()
    {
      this.p, this.maxGuessDepth, this.maxSubset := p, maxGuessDepth, maxSubset;
      this.techniques := techniques + {Single};
    }

    // ----- helpers -----

    method PlaceAt(st: State, i: nat)
      requires Valid() && i < |p.attack|
      modifies st
      ensures st.Value() == Place(p, old(st.Value()), i)
    {
      st.queens := st.queens + {i};
      st.cand := st.cand - (p.attack[i] + {i});
    }

    method ApplyStep(st: State, step: Step)
      requires Valid() && StepOk(p, st.Value(), step) && step.final.None?
      modifies st
      ensures st.Value() == After(p, old(st.Value()), step)
    {
      if step.place.Some? {
        PlaceAt(st, step.place.value);
      } else {
        st.cand := st.cand - step.eliminate;
      }
    }

    /** The units that do not hold a queen yet, in the order rows, columns, regions. */
    method OpenUnits(st: State) returns (out: seq<Unit>)
      requires Valid()
      ensures ListsOpen(p, st.Value(), out)
    {
      var us := Units(p);
      UnitsInOrder(p);
      out := [];
      for k := 0 to |us|
        invariant forall u :: u in out <==> u in us[..k] && Open(p, st.Value(), u)
        invariant InOrder(out)
      {
        assert forall u :: u in out ==> UnitBefore(u, us[k]);
        if Open(p, St(st.cand, st.queens), us[k]) {
          out := out + [us[k]];
        }
      }
      assert us[..|us|] == us;
      forall u
        ensures u in us <==> p.IsUnit(u)
      {
        UnitsAreListed(p, u);
      }
    }

    /** False is the exception: some open unit has no candidate left. */
    method Check(st: State) returns (ok: bool)
      requires Valid()
      ensures ok <==> !Dead(p, st.Value())
    {
      var open := OpenUnits(st);
      for k := 0 to |open|
        invariant forall j :: 0 <= j < k ==> Cands(p, st.Value(), open[j]) != {}
      {
        if Cands(p, St(st.cand, st.queens), open[k]) == {} {
          return false;
        }
      }
      return true;
    }

    // ----- techniques -----

    method TSingle(st: State) returns (r: Option<Step>)
      requires Valid() && Inv(p, st.Value())
      ensures r.None? ==> NoSingle(p, st.Value())
      ensures r.Some? ==> StepOk(p, st.Value(), r.value) && FindsSingle(p, st.Value(), r.value)
      ensures r.Some? ==> StepBy(p, {}, st.Value(), After(p, st.Value(), r.value))
    {
      var open := OpenUnits(st);
      ghost var v := st.Value();
      for k := 0 to |open|
        invariant forall j, i :: 0 <= j < k ==> !SingleAt(p, v, open[j], i)
      {
        var cm := Cands(p, St(st.cand, st.queens), open[k]);
        if |cm| == 1 {
          var i :| i in cm;
          OneElement(cm, i);
          SingleIsForced(p, v, open[k], i);
          assert SingleStep(p, v, Place(p, v, i), open[k], i);
          SingleIsFirst(p, v, open, k, i);
          return Some(Step(Single, Some(i), {}, [], None));
        }
      }
      return None;
    }

    method TConfined(st: State) returns (r: Option<Step>)
      requires Valid() && Inv(p, st.Value())
      ensures r.None? ==> NoConfined(p, st.Value())
      ensures r.Some? ==> StepOk(p, st.Value(), r.value) && FindsConfined(p, st.Value(), r.value)
      ensures r.Some? ==> StepBy(p, {Confined}, st.Value(), After(p, st.Value(), r.value))
    {
      var open := OpenUnits(st);
      ghost var v := st.Value();
      for k := 0 to |open|
        invariant forall j, line, e :: 0 <= j < k ==> !ConfinedAt(p, v, open[j], line, e)
      {
        var u := open[k];
        var cm := Cands(p, St(st.cand, st.queens), u);
        if cm != {} {
          var kinds := CrossingKinds(u.kind);
          for l := 0 to |kinds|
            invariant forall line: Unit, e :: line.kind in kinds[..l] ==> !ConfinedAt(p, v, u, line, e)
          {
            for j := 0 to p.n
              invariant forall line: Unit, e :: line.kind == kinds[l] && line.idx < j ==> !ConfinedAt(p, v, u, line, e)
            {
              var lm := p.Mask(Unit(kinds[l], j));
              if cm <= lm {
                var elim := st.cand * lm - cm;
                if elim != {} {
                  assert ConfinedAt(p, v, u, Unit(kinds[l], j), elim);
                  ConfinedIsSafe(p, v, u, Unit(kinds[l], j), elim);
                  ConfinedIsFirst(p, v, open, k, kinds, l, j, elim);
                  return Some(Step(Confined, None, elim, [], None));
                }
              }
            }
          }
          forall line: Unit, e
            ensures !ConfinedAt(p, v, u, line, e)
          {
            assert kinds[..|kinds|] == kinds;
            AllCrossing(u.kind, line.kind);
          }
        }
      }
      return None;
    }

    /** The candidates that every cell of a unit rules out. */
    method CommonOf(cand: set<nat>, cm: set<nat>) returns (common: set<nat>)
      requires Valid() && forall i :: i in cm ==> i < |p.attack|
      ensures common == RuledOutByAll(p, cand, cm)
    {
      common := cand;
      for i := 0 to |p.attack|
        invariant common == RuledOutByAll(p, cand, set c | c in cm && c < i)
      {
        ghost var earlier := set c | c in cm && c < i;
        assert i in cm ==> (set c | c in cm && c < i + 1) == earlier + {i};
        assert i !in cm ==> (set c | c in cm && c < i + 1) == earlier;
        if i in cm {
          common := common * p.attack[i];
          if common == {} {
            assert RuledOutByAll(p, cand, cm) <= RuledOutByAll(p, cand, earlier + {i});
            return;
          }
        }
      }
      assert (set c | c in cm && c < |p.attack|) == cm;
    }

    method TCommon(st: State) returns (r: Option<Step>)
      requires Valid() && Inv(p, st.Value())
      ensures r.None? ==> NoCommon(p, st.Value())
      ensures r.Some? ==> StepOk(p, st.Value(), r.value) && FindsCommon(p, st.Value(), r.value)
      ensures r.Some? ==> StepBy(p, {Common}, st.Value(), After(p, st.Value(), r.value))
    {
      var open := OpenUnits(st);
      ghost var v := st.Value();
      for k := 0 to |open|
        invariant forall j, e :: 0 <= j < k ==> !CommonAt(p, v, open[j], e)
      {
        var u := open[k];
        var cm := Cands(p, St(st.cand, st.queens), u);
        if cm != {} {
          var common := CommonOf(st.cand, cm);
          if common != {} {
            CommonIsSafe(p, v, u, common);
            assert CommonAt(p, v, u, common) && StepBy(p, {Common}, v, Remove(v, common));
            CommonIsFirst(p, v, open, k, common);
            return Some(Step(Common, None, common, [], None));
          }
        }
      }
      return None;
    }

    /** The open units of one kind, by number. */
    method OpenOfKind(st: State, kind: Kind) returns (a: seq<nat>)
      requires Valid()
      ensures forall j: nat :: j in a <==> j < p.n && Open(p, st.Value(), Unit(kind, j))
      ensures Ascending(a)
    {
      a := [];
      for j := 0 to p.n
        invariant forall i: nat :: i in a <==> i < j && Open(p, st.Value(), Unit(kind, i))
        invariant Ascending(a)
      {
        assert forall i :: 0 <= i < |a| ==> a[i] in a;
        if Open(p, St(st.cand, st.queens), Unit(kind, j)) {
          a := a + [j];
        }
      }
    }

    /** Looks for a combination of two up to maxSubset open units, but never all of them. */
    method TSubset(st: State) returns (r: Option<Step>)
      requires Valid() && Inv(p, st.Value())
      ensures r.None? ==> NoSubset(p, st.Value(), maxSubset)
      ensures r.Some? ==> StepOk(p, st.Value(), r.value) && FindsSubset(p, maxSubset, st.Value(), r.value)
    {
      var families: seq<(Kind, Kind)> := [(Region, Row), (Region, Col), (Row, Region), (Col, Region)];
      ghost var v := st.Value();
      for f := 0 to |families|
        invariant forall i :: 0 <= i < f ==> FamilyClear(p, v, maxSubset, families[i].0, families[i].1)
      {
        ghost var js;
        r, js := SubsetInFamily(st, families[f].0, families[f].1);
        if r.Some? {
          FamilyIsFirst(p, v, maxSubset, families, f, js, r.value.eliminate);
          return;
        }
      }
      forall akind: Kind, bkind: Kind | Crosses(akind, bkind)
        ensures FamilyClear(p, v, maxSubset, akind, bkind)
      {
        assert (akind, bkind) == families[0] || (akind, bkind) == families[1]
          || (akind, bkind) == families[2] || (akind, bkind) == families[3];
      }
      return None;
    }

    method SubsetInFamily(st: State, akind: Kind, bkind: Kind) returns (r: Option<Step>, ghost js: set<nat>)
      requires Valid() && Inv(p, st.Value()) && Crosses(akind, bkind)
      ensures r.None? ==> FamilyClear(p, st.Value(), maxSubset, akind, bkind)
      ensures r.Some? ==> StepOk(p, st.Value(), r.value) && SubsetStepOf(r.value)
      ensures r.Some? ==> FirstInFamily(p, st.Value(), maxSubset, akind, js, bkind, r.value.eliminate)
    {
      js := {};
      var a := OpenOfKind(st, akind);
      ghost var v := st.Value();
      var top := if maxSubset <= |a| - 1 then maxSubset else |a| - 1;
      if top >= 2 {
        for k := 2 to top + 1
          invariant forall l :: 2 <= l < k ==> ComboClear(p, v, akind, bkind, a, 0, {}, l)
        {
          r, js := Combinations(st, akind, bkind, a, 0, {}, k);
          if r.Some? {
            SizeIsFirst(p, v, maxSubset, akind, bkind, a, k, js, r.value.eliminate);
            return;
          }
        }
      }
      AllSizesClear(p, v, maxSubset, akind, bkind, a);
      return None, {};
    }

    /** itertools.combinations, depth first in list order: all ways to add `left` of a[start..]. */
    method Combinations(st: State, akind: Kind, bkind: Kind, a: seq<nat>, start: nat, chosen: set<nat>, left: nat)
      returns (r: Option<Step>, ghost js: set<nat>)
      requires Valid() && Inv(p, st.Value()) && Crosses(akind, bkind)
      requires forall j: nat :: j in a <==> j < p.n && Open(p, st.Value(), Unit(akind, j))
      requires Ascending(a)
      requires start <= |a| && chosen <= Elems(a[..start])
      ensures r.None? ==> ComboClear(p, st.Value(), akind, bkind, a, start, chosen, left)
      ensures r.Some? ==> StepOk(p, st.Value(), r.value) && SubsetStepOf(r.value)
      ensures r.Some? ==> FirstCombo(p, st.Value(), akind, bkind, a, start, chosen, left, js, r.value.eliminate)
      decreases left
    {
      ghost var v := st.Value();
      if left == 0 {
        ChosenAreElems(a, start, chosen);
        r := SubsetStep(st, akind, bkind, chosen);
        js := chosen;
        return;
      }
      for i := start to |a|
        invariant ComboClearUpTo(p, v, akind, bkind, a, start, i, chosen, left)
      {
        ChosenGrows(a, start, i, chosen);
        r, js := Combinations(st, akind, bkind, a, i + 1, chosen + {a[i]}, left - 1);
        if r.Some? {
          ComboIsFirst(p, v, akind, bkind, a, start, i, chosen, left, js, r.value.eliminate);
          return;
        }
        ComboSplits(p, v, akind, bkind, a, start, i, chosen, left);
      }
      ComboNeedsMore(p, v, akind, bkind, a, start, chosen, left);
      return None, {};
    }

    method SubsetStep(st: State, akind: Kind, bkind: Kind, js: set<nat>) returns (r: Option<Step>)
      requires Valid() && Inv(p, st.Value()) && Crosses(akind, bkind)
      requires forall j :: j in js ==> j < p.n && Open(p, st.Value(), Unit(akind, j))
      ensures r.None? ==> forall e :: !SubsetAt(p, st.Value(), akind, js, bkind, e)
      ensures r.Some? ==> StepOk(p, st.Value(), r.value) && SubsetStepOf(r.value)
      ensures r.Some? ==> SubsetAt(p, st.Value(), akind, js, bkind, r.value.eliminate)
    {
      var v := St(st.cand, st.queens);
      var amask := CandsOfAll(p, v, akind, js);
      var covered := Covered(p, v, bkind, amask);
      if |covered| == |js| {
        var elim := CandsOfAll(p, v, bkind, covered) - amask;
        if elim != {} {
          SubsetIsSafe(p, v, akind, js, bkind, elim);
          return Some(Step(Subset, None, elim, [], None));
        }
      }
      return None;
    }

    /** Places forced queens until nothing is forced; false is the exception. */
    method PropagateSingles(st: State) returns (ok: bool)
      requires Valid() && Inv(p, st.Value())
      modifies st
      ensures Inv(p, st.Value())
      ensures Reaches(p, {}, old(st.Value()), st.Value())
      ensures if ok then !Dead(p, st.Value()) && NothingFires(p, {}, st.Value()) else Dead(p, st.Value())
    {
      ghost var start := st.Value();
      ReachesItself(p, {}, start);
      while true
        invariant Inv(p, st.Value())
        invariant Reaches(p, {}, start, st.Value())
        decreases |st.cand|
      {
        ok := Check(st);
        if !ok {
          return;
        }
        var step := TSingle(st);
        if step.None? {
          return;
        }
        ghost var before := st.Value();
        StepAdvances(p, before, step.value);
        ApplyStep(st, step.value);
        ReachesOneMore(p, {}, start, before, st.Value());
      }
    }

    /** A queen on i in a copy, then forced queens only. */
    method ChainTrial(st: State, i: nat) returns (fails: bool)
      requires Valid() && Inv(p, st.Value()) && i in st.cand && i < |p.attack|
      ensures fails <==> ChainFails(p, st.Value(), i)
    {
      var s2 := st.Copy();
      PlaceKeeps(p, st.Value(), i);
      PlaceAt(s2, i);
      var ok := PropagateSingles(s2);
      RestDecidesChain(p, st.Value(), i, s2.Value());
      fails := !ok;
    }

    /** Crosses out exactly the candidates whose chain of forced queens fails. */
    method TChain(st: State) returns (r: Option<Step>)
      requires Valid() && Inv(p, st.Value())
      ensures r.None? ==> NoChain(p, st.Value())
      ensures r.Some? ==> StepOk(p, st.Value(), r.value) && FindsChain(p, st.Value(), r.value)
    {
      var elim := {};
      ghost var v := st.Value();
      for i := 0 to |p.attack|
        invariant forall j :: j in elim <==> j < i && j in v.cand && ChainFails(p, v, j)
      {
        if i in st.cand {
          var fails := ChainTrial(st, i);
          if fails {
            elim := elim + {i};
          }
        }
      }
      if elim != {} {
        forall i | i in elim
          ensures Safe(p, v, {i})
        {
          ChainFailureIsSafe(p, v, i);
        }
        SafeTogether(p, v, elim);
        return Some(Step(Chain, None, elim, [], None));
      }
      return None;
    }

    /** The open units with a candidate, fewest candidates first, ties in list order. */
    method UnitsByCount(st: State) returns (units: seq<Unit>)
      requires Valid()
      ensures forall u :: u in units <==> p.IsUnit(u) && Open(p, st.Value(), u) && Cands(p, st.Value(), u) != {}
      ensures ByCount(p, st.Value(), units)
    {
      var v := St(st.cand, st.queens);
      var open := OpenUnits(st);
      units := [];
      for k := 0 to |open|
        invariant forall u :: u in units <==> u in open[..k] && Cands(p, v, u) != {}
        invariant ByCount(p, v, units)
      {
        assert forall u :: u in open[..k] ==> UnitBefore(u, open[k]);
        if Cands(p, v, open[k]) != {} {
          units := InsertByCount(v, units, open[k]);
        }
      }
      assert open[..|open|] == open;
    }

    method InsertByCount(v: St, was: seq<Unit>, u: Unit) returns (units: seq<Unit>)
      requires ByCount(p, v, was) && forall x :: x in was ==> UnitBefore(x, u)
      ensures ByCount(p, v, units)
      ensures forall x :: x in units <==> x in was || x == u
    {
      var at := |was|;
      while at > 0 && |Cands(p, v, u)| < |Cands(p, v, was[at - 1])|
        invariant 0 <= at <= |was|
        invariant forall i :: at <= i < |was| ==> |Cands(p, v, u)| < |Cands(p, v, was[i])|
      {
        at := at - 1;
      }
      InsertKeepsOrder(p, v, was, u, at);
      InsertKeepsElements(was, u, at);
      units := was[..at] + [u] + was[at..];
    }

    /** Trial and error: the first candidate whose trial fails is crossed out, the first whose
        trial solves the board decides it. */
    method TGuess(st: State, depth: nat) returns (r: Option<Step>)
      requires Valid() && Inv(p, st.Value())
      ensures depth >= maxGuessDepth ==> r.None?
      ensures r.Some? ==> StepOk(p, st.Value(), r.value)
      ensures r.Some? ==> r.value.technique == Guess && depth < maxGuessDepth
      ensures r.Some? ==> FindsGuess(p, techniques, maxSubset, Trials(maxGuessDepth, depth + 1), st.Value(), r.value)
      ensures r.None? ==> NoGuess(p, techniques, maxSubset, Trials(maxGuessDepth, depth), st.Value())
      decreases maxGuessDepth - depth, 1
    {
      if depth >= maxGuessDepth {
        return None;
      }
      ghost var v := st.Value();
      ghost var left := Trials(maxGuessDepth, depth + 1);
      var units := UnitsByCount(st);
      for k := 0 to |units|
        invariant forall j :: 0 <= j < k ==> UnitStuck(p, techniques, maxSubset, left, v, units[j])
      {
        r := TryUnit(st, units, k, depth);
        if r.Some? {
          return;
        }
      }
      AllTrialsStuck(p, techniques, maxSubset, left, v, units);
      return None;
    }

    /** The trials of one unit, cell by cell. */
    method TryUnit(st: State, units: seq<Unit>, k: nat, depth: nat) returns (r: Option<Step>)
      requires Valid() && Inv(p, st.Value()) && ListsTried(p, st.Value(), units) && k < |units| && depth < maxGuessDepth
      requires forall j :: 0 <= j < k ==> UnitStuck(p, techniques, maxSubset, Trials(maxGuessDepth, depth + 1), st.Value(), units[j])
      ensures r.Some? ==> StepOk(p, st.Value(), r.value) && r.value.technique == Guess
      ensures r.Some? ==> FindsGuess(p, techniques, maxSubset, Trials(maxGuessDepth, depth + 1), st.Value(), r.value)
      ensures r.None? ==> UnitStuck(p, techniques, maxSubset, Trials(maxGuessDepth, depth + 1), st.Value(), units[k])
      decreases maxGuessDepth - depth, 0, 1
    {
      ghost var v, left := st.Value(), Trials(maxGuessDepth, depth + 1);
      var cm := Cands(p, St(st.cand, st.queens), units[k]);
      for i := 0 to |p.attack|
        invariant forall j :: j in cm && j < i ==> TrialStuck(p, techniques, maxSubset, left, v, j)
      {
        if i in cm {
          ghost var end;
          r, end := Trial(st, i, depth);
          if r.Some? {
            DecidedIsFound(p, techniques, maxSubset, left, v, units, k, i, end, r.value);
            return;
          }
        }
      }
      return None;
    }

    /** One trial: a queen on i in a copy, and everything that follows from it. */
    method Trial(st: State, i: nat, depth: nat) returns (r: Option<Step>, ghost end: St)
      requires Valid() && Inv(p, st.Value()) && i in st.cand && i < |p.attack| && depth < maxGuessDepth
      ensures r.Some? ==> StepOk(p, st.Value(), r.value)
      ensures r.Some? ==> Decides(p, techniques, maxSubset, Trials(maxGuessDepth, depth + 1), st.Value(), i, end, r.value)
      ensures r.None? ==> TrialStuck(p, techniques, maxSubset, Trials(maxGuessDepth, depth + 1), st.Value(), i)
      decreases maxGuessDepth - depth, 0, 0
    {
      ghost var v := st.Value();
      var s2 := st.Copy();
      PlaceKeeps(p, v, i);
      PlaceAt(s2, i);
      var status, inner := Deduce(s2, depth + 1);
      end := s2.Value();
      if status == Contradiction {
        FailedTrialIsSafe(p, v, i);
        return Some(Step(Guess, None, {i}, inner, None)), end;
      }
      if status == Solved {
        var f := St(s2.cand, s2.queens);
        SubsetCard(f.cand, Place(p, v, i).cand);
        return Some(Step(Guess, Some(i), {}, inner, Some(f))), end;
      }
      assert TrialEnds(p, techniques, maxSubset, Trials(maxGuessDepth, depth + 1), v, i, s2.Value(), inner);
      return None, end;
    }

    /** The main loop: the cheapest step that works, over and over. */
    method Deduce(st: State, depth: nat) returns (status: Status, steps: seq<Step>)
      requires Valid() && Inv(p, st.Value())
      modifies st
      ensures Inv(p, st.Value()) && Narrows(old(st.Value()), st.Value())
      ensures status == Contradiction ==> Hopeless(p, old(st.Value()))
      ensures status == Solved ==> |st.queens| == p.n
      ensures status == Stuck ==> SameSolutions(p, old(st.Value()), st.Value())
      ensures Ends(p, techniques, st.Value(), status)
      ensures status == Stuck ==> Exhausted(p, techniques, maxSubset, Trials(maxGuessDepth, depth), st.Value())
      ensures Replays(p, techniques, maxSubset, Trials(maxGuessDepth, depth), old(st.Value()), steps, st.Value())
      ensures techniques <= {Single, Confined, Common} ==> Reaches(p, techniques, old(st.Value()), st.Value())
      decreases maxGuessDepth - depth, 4
    {
      steps := [];
      ghost var start, left := st.Value(), Trials(maxGuessDepth, depth);
      ReachesItself(p, techniques, start);
      while true
        invariant Midway(p, techniques, maxSubset, left, start, steps, st.Value())
        decreases |st.cand|
      {
        MidwaySays(p, techniques, maxSubset, left, start, steps, st.Value());
        var ok := Check(st);
        if !ok {
          NotSolvedIfDead(p, st.Value());
          return Contradiction, steps;
        }
        if |st.queens| == p.n {
          return Solved, steps;
        }
        var step := NextStep(st, depth);
        if step.None? {
          return Stuck, steps;
        }
        MidwayNext(p, techniques, maxSubset, left, start, steps, st.Value(), step.value);
        if step.value.final.Some? {
          st.cand, st.queens := step.value.final.value.cand, step.value.final.value.queens;
        } else {
          ApplyStep(st, step.value);
        }
        steps := steps + [step.value];
      }
    }

    /** The techniques in use, cheapest first, until one returns a step. */
    method NextStep(st: State, depth: nat) returns (step: Option<Step>)
      requires Valid() && Inv(p, st.Value())
      ensures step.Some? ==> StepOk(p, st.Value(), step.value)
      ensures step.Some? ==> Takes(p, techniques, maxSubset, Trials(maxGuessDepth, depth), st.Value(), step.value)
      ensures step.None? ==> NothingApplies(p, techniques, maxSubset, Trials(maxGuessDepth, depth), st.Value())
      ensures step.Some? && techniques <= {Single, Confined, Common} ==>
        StepBy(p, techniques, st.Value(), After(p, st.Value(), step.value))
      decreases maxGuessDepth - depth, 3
    {
      step := OneUnitStep(st, Trials(maxGuessDepth, depth));
      if step.None? && !(techniques <= {Single, Confined, Common}) {
        step := CostlyStep(st, depth);
      }
    }

    /** The other three, in the same way. */
    method CostlyStep(st: State, depth: nat) returns (step: Option<Step>)
      requires Valid() && Inv(p, st.Value()) && NothingFires(p, techniques, st.Value())
      ensures step.Some? ==> StepOk(p, st.Value(), step.value)
      ensures step.Some? ==> Takes(p, techniques, maxSubset, Trials(maxGuessDepth, depth), st.Value(), step.value)
      ensures step.None? ==> NothingApplies(p, techniques, maxSubset, Trials(maxGuessDepth, depth), st.Value())
      decreases maxGuessDepth - depth, 2
    {
      ghost var v, left := st.Value(), Trials(maxGuessDepth, depth);
      step := SubsetOrChainStep(st, left);
      if step.None? && Guess in techniques {
        step := TGuess(st, depth);
        if step.Some? {
          GuessTaken(p, techniques, maxSubset, left, v, step.value);
        }
      }
    }

    method SubsetOrChainStep(st: State, ghost left: nat) returns (step: Option<Step>)
      requires Valid() && Inv(p, st.Value()) && NothingFires(p, techniques, st.Value())
      ensures step.Some? ==> StepOk(p, st.Value(), step.value)
      ensures step.Some? ==> Takes(p, techniques, maxSubset, left, st.Value(), step.value)
      ensures step.None? && Subset in techniques ==> NoSubset(p, st.Value(), maxSubset)
      ensures step.None? && Chain in techniques ==> NoChain(p, st.Value())
    {
      ghost var v := st.Value();
      step := None;
      if Subset in techniques {
        step := TSubset(st);
        if step.Some? {
          SubsetTaken(p, techniques, maxSubset, left, v, step.value);
          return;
        }
      }
      if Chain in techniques {
        step := TChain(st);
        if step.Some? {
          ChainTaken(p, techniques, maxSubset, left, v, step.value);
        }
      }
    }

    /** The three techniques that look at one unit at a time. */
    method OneUnitStep(st: State, ghost left: nat) returns (step: Option<Step>)
      requires Valid() && Inv(p, st.Value())
      ensures step.Some? ==> StepOk(p, st.Value(), step.value)
      ensures step.Some? ==> Takes(p, techniques, maxSubset, left, st.Value(), step.value)
      ensures step.None? ==> NothingFires(p, techniques, st.Value())
      ensures step.Some? ==> StepBy(p, techniques, st.Value(), After(p, st.Value(), step.value))
    {
      ghost var v := st.Value();
      step := TSingle(st);
      if step.Some? {
        MoreTechniques(p, {}, techniques, v, After(p, v, step.value));
        SingleTaken(p, techniques, maxSubset, left, v, step.value);
        return;
      }
      if Confined in techniques {
        step := TConfined(st);
        if step.Some? {
          MoreTechniques(p, {Confined}, techniques, v, After(p, v, step.value));
          ConfinedTaken(p, techniques, maxSubset, left, v, step.value);
          return;
        }
      }
      if Common in techniques {
        step := TCommon(st);
        if step.Some? {
          MoreTechniques(p, {Common}, techniques, v, After(p, v, step.value));
          CommonTaken(p, techniques, maxSubset, left, v, step.value);
        }
      }
    }
  }

  /** Every candidate is in an open unit: its row. */
  lemma RowIsOpen(p: Puzzle, st: St, i: nat)
    requires p.Valid() && Inv(p, st) && i in st.cand
    ensures i < |p.attack|
    ensures var u := Unit(Row, p.Line(Row, i)); p.IsUnit(u) && Open(p, st, u) && i in Cands(p, st, u)
  {
    assert p.IsCell(i);
    forall q | q in st.queens
      ensures q !in p.Mask(Unit(Row, p.Line(Row, i)))
    {
      assert p.IsCell(q) && i !in p.attack[q];
    }
  }

  lemma AllTrialsStuck(p: Puzzle, ts: set<Technique>, maxSubset: int, trials: nat, st: St, units: seq<Unit>)
    requires p.Valid() && Inv(p, st) && ListsTried(p, st, units)
    requires forall j :: 0 <= j < |units| ==> UnitStuck(p, ts, maxSubset, trials, st, units[j])
    ensures forall i :: i in st.cand ==> TrialStuck(p, ts, maxSubset, trials, st, i)
  {
    forall i | i in st.cand
      ensures TrialStuck(p, ts, maxSubset, trials, st, i)
    {
      RowIsOpen(p, st, i);
      assert Unit(Row, p.Line(Row, i)) in units;
    }
  }

  // ----- helpers of the loops above -----

  ghost function Elems(a: seq<nat>): set<nat> {
    set j | j in a
  }

  lemma {:induction false} ElemsCard(a: seq<nat>)
    requires Ascending(a)
    ensures |Elems(a)| == |a|
  {
    if a != [] {
      ElemsCard(a[1..]);
      assert Elems(a) == Elems(a[1..]) + {a[0]};
    }
  }

  ghost predicate Ascending(a: seq<nat>) {
    forall i, j :: 0 <= i < j < |a| ==> a[i] < a[j]
  }

  /** js is `chosen` and `left` more units of a[start..]. */
  ghost predicate ComboOf(a: seq<nat>, start: nat, chosen: set<nat>, left: nat, js: set<nat>)
    requires start <= |a|
  {
    chosen <= js && js - chosen <= Elems(a[start..]) && |js - chosen| == left
  }

  ghost predicate ComboClear(p: Puzzle, st: St, akind: Kind, bkind: Kind,
                             a: seq<nat>, start: nat, chosen: set<nat>, left: nat)
    requires start <= |a|
  {
    forall js, e :: ComboOf(a, start, chosen, left, js) ==> !SubsetAt(p, st, akind, js, bkind, e)
  }

  lemma ChosenAreElems(a: seq<nat>, start: nat, chosen: set<nat>)
    requires start <= |a| && chosen <= Elems(a[..start])
    ensures forall j :: j in chosen ==> j in a
    ensures forall js :: ComboOf(a, start, chosen, 0, js) ==> js == chosen
  {
    forall j | j in chosen
      ensures j in a
    {
      assert j in a[..start];
    }
    forall js | ComboOf(a, start, chosen, 0, js)
      ensures js == chosen
    {
      assert js - chosen == {};
    }
  }

  lemma ChosenGrows(a: seq<nat>, start: nat, i: nat, chosen: set<nat>)
    requires start <= i < |a| && chosen <= Elems(a[..start])
    ensures chosen + {a[i]} <= Elems(a[..i + 1])
  {
    forall j | j in chosen + {a[i]}
      ensures j in a[..i + 1]
    {
      if j in chosen {
        assert j in a[..start];
        assert a[..start] <= a[..i + 1];
      } else {
        assert a[..i + 1][i] == a[i];
      }
    }
  }

  lemma ElemsFrom(a: seq<nat>, i: nat)
    requires i < |a|
    ensures Elems(a[i..]) == Elems(a[i + 1..]) + {a[i]}
  {
    assert a[i..] == [a[i]] + a[i + 1..];
  }

  lemma ComboWith(a: seq<nat>, i: nat, chosen: set<nat>, left: nat, js: set<nat>)
    requires i < |a| && left > 0 && ComboOf(a, i, chosen, left, js) && a[i] in js - chosen
    ensures ComboOf(a, i + 1, chosen + {a[i]}, left - 1, js)
  {
    ElemsFrom(a, i);
    assert js - chosen == (js - (chosen + {a[i]})) + {a[i]};
  }

  lemma ComboWithout(a: seq<nat>, i: nat, chosen: set<nat>, left: nat, js: set<nat>)
    requires i < |a| && ComboOf(a, i, chosen, left, js) && a[i] !in js - chosen
    ensures ComboOf(a, i + 1, chosen, left, js)
  {
    ElemsFrom(a, i);
  }

  /** The combinations that use one of a[start..i] are done. */
  ghost predicate ComboClearUpTo(p: Puzzle, st: St, akind: Kind, bkind: Kind,
                                 a: seq<nat>, start: nat, i: nat, chosen: set<nat>, left: nat)
    requires start <= i <= |a|
  {
    forall js, e :: ComboOf(a, start, chosen, left, js) && !ComboOf(a, i, chosen, left, js) ==>
      !SubsetAt(p, st, akind, js, bkind, e)
  }

  lemma ComboSplits(p: Puzzle, st: St, akind: Kind, bkind: Kind, a: seq<nat>, start: nat, i: nat, chosen: set<nat>, left: nat)
    requires start <= i < |a| && left > 0 && ComboClearUpTo(p, st, akind, bkind, a, start, i, chosen, left)
    requires ComboClear(p, st, akind, bkind, a, i + 1, chosen + {a[i]}, left - 1)
    ensures ComboClearUpTo(p, st, akind, bkind, a, start, i + 1, chosen, left)
  {
    forall js | ComboOf(a, i, chosen, left, js)
      ensures ComboOf(a, i + 1, chosen, left, js) || ComboOf(a, i + 1, chosen + {a[i]}, left - 1, js)
    {
      if a[i] in js - chosen {
        ComboWith(a, i, chosen, left, js);
      } else {
        ComboWithout(a, i, chosen, left, js);
      }
    }
  }

  lemma ComboNeedsMore(p: Puzzle, st: St, akind: Kind, bkind: Kind, a: seq<nat>, start: nat, chosen: set<nat>, left: nat)
    requires start <= |a| && left > 0 && ComboClearUpTo(p, st, akind, bkind, a, start, |a|, chosen, left)
    ensures ComboClear(p, st, akind, bkind, a, start, chosen, left)
  {
    forall js
      ensures !ComboOf(a, |a|, chosen, left, js)
    {
      assert a[|a|..] == [];
      assert Elems([]) == {};
    }
  }

  /** A combination that works, the first in the order of combinations. */
  ghost predicate FirstCombo(p: Puzzle, st: St, akind: Kind, bkind: Kind, a: seq<nat>, start: nat, chosen: set<nat>,
                             left: nat, js: set<nat>, elim: set<nat>)
    requires start <= |a|
  {
    && ComboOf(a, start, chosen, left, js) && SubsetAt(p, st, akind, js, bkind, elim)
    && forall ks, e :: ComboOf(a, start, chosen, left, ks) && LexBefore(ks, js) ==> !SubsetAt(p, st, akind, ks, bkind, e)
  }

  lemma ComboBack(a: seq<nat>, start: nat, i: nat, chosen: set<nat>, left: nat, js: set<nat>)
    requires start <= i < |a| && left > 0 && Ascending(a) && chosen <= Elems(a[..start])
    requires ComboOf(a, i + 1, chosen + {a[i]}, left - 1, js)
    ensures ComboOf(a, start, chosen, left, js)
  {
    var more := js - (chosen + {a[i]});
    assert a[i] !in chosen;
    assert js - chosen == more + {a[i]};
    forall x | x in js - chosen
      ensures x in Elems(a[start..])
    {
      if x == a[i] {
        assert a[start..][i - start] == a[i];
      } else {
        assert x in a[i + 1..];
        var k :| 0 <= k < |a| - i - 1 && a[i + 1..][k] == x;
        assert a[start..][i + 1 + k - start] == x;
      }
    }
  }

  lemma RestIsLater(a: seq<nat>, i: nat, x: nat)
    requires i < |a| && Ascending(a) && x in Elems(a[i + 1..])
    ensures a[i] < x
  {
    var k :| 0 <= k < |a| - i - 1 && a[i + 1..][k] == x;
    assert a[i + 1 + k] == x;
  }

  /** Without a[i] a combination comes after all those with it. */
  lemma WithoutIsLater(a: seq<nat>, i: nat, chosen: set<nat>, left: nat, js: set<nat>, ks: set<nat>)
    requires i < |a| && left > 0 && Ascending(a)
    requires ComboOf(a, i + 1, chosen + {a[i]}, left - 1, js) && ComboOf(a, i + 1, chosen, left, ks) && a[i] !in ks
    ensures !LexBefore(ks, js)
  {
    forall m: nat
      ensures !FirstDifference(ks, js, m)
    {
      if m in ks && m !in js {
        RestIsLater(a, i, m);
        assert a[i] in js;
      }
    }
  }

  lemma ComboIsFirst(p: Puzzle, st: St, akind: Kind, bkind: Kind, a: seq<nat>, start: nat, i: nat, chosen: set<nat>,
                     left: nat, js: set<nat>, elim: set<nat>)
    requires start <= i < |a| && left > 0 && Ascending(a) && chosen <= Elems(a[..start])
    requires ComboClearUpTo(p, st, akind, bkind, a, start, i, chosen, left)
    requires FirstCombo(p, st, akind, bkind, a, i + 1, chosen + {a[i]}, left - 1, js, elim)
    ensures FirstCombo(p, st, akind, bkind, a, start, chosen, left, js, elim)
  {
    ComboBack(a, start, i, chosen, left, js);
    forall ks, e | ComboOf(a, start, chosen, left, ks) && LexBefore(ks, js)
      ensures !SubsetAt(p, st, akind, ks, bkind, e)
    {
      if ComboOf(a, i, chosen, left, ks) {
        if a[i] in ks - chosen {
          ComboWith(a, i, chosen, left, ks);
        } else {
          ComboWithout(a, i, chosen, left, ks);
          NotChosenYet(a, start, i, chosen);
          WithoutIsLater(a, i, chosen, left, js, ks);
        }
      }
    }
  }

  lemma NotChosenYet(a: seq<nat>, start: nat, i: nat, chosen: set<nat>)
    requires start <= i < |a| && Ascending(a) && chosen <= Elems(a[..start])
    ensures a[i] !in chosen
  {
  }

  // ----- the first thing a technique finds -----

  /** The open units, in order. */
  ghost predicate ListsOpen(p: Puzzle, st: St, open: seq<Unit>) {
    (forall u :: u in open <==> p.IsUnit(u) && Open(p, st, u)) && InOrder(open)
  }

  lemma SingleIsFirst(p: Puzzle, st: St, open: seq<Unit>, k: nat, i: nat)
    requires ListsOpen(p, st, open) && k < |open| && SingleAt(p, st, open[k], i)
    requires forall j, c :: 0 <= j < k ==> !SingleAt(p, st, open[j], c)
    ensures FirstSingle(p, st, open[k], i)
  {
    forall v, c | SingleAt(p, st, v, c)
      ensures !UnitBefore(v, open[k])
    {
      if UnitBefore(v, open[k]) {
        var j := EarlierInList(open, k, v);
      }
    }
  }

  lemma CommonIsFirst(p: Puzzle, st: St, open: seq<Unit>, k: nat, elim: set<nat>)
    requires ListsOpen(p, st, open) && k < |open| && CommonAt(p, st, open[k], elim)
    requires forall j, e :: 0 <= j < k ==> !CommonAt(p, st, open[j], e)
    ensures FirstCommon(p, st, open[k], elim)
  {
    forall v, e | CommonAt(p, st, v, e)
      ensures !UnitBefore(v, open[k])
    {
      if UnitBefore(v, open[k]) {
        var j := EarlierInList(open, k, v);
      }
    }
  }

  /** Regions are compared with rows, then columns; rows and columns with regions. */
  function CrossingKinds(k: Kind): seq<Kind> {
    if k == Region then [Row, Col] else [Region]
  }

  lemma AllCrossing(k: Kind, line: Kind)
    ensures Crosses(k, line) <==> line in CrossingKinds(k)
  {
    assert k == Region ==> CrossingKinds(k)[0] == Row && CrossingKinds(k)[1] == Col;
    assert k != Region ==> CrossingKinds(k)[0] == Region;
  }

  lemma ConfinedIsFirst(p: Puzzle, st: St, open: seq<Unit>, k: nat, kinds: seq<Kind>, l: nat, j: nat, elim: set<nat>)
    requires ListsOpen(p, st, open) && k < |open| && kinds == CrossingKinds(open[k].kind) && l < |kinds|
    requires ConfinedAt(p, st, open[k], Unit(kinds[l], j), elim)
    requires forall i, line, e :: 0 <= i < k ==> !ConfinedAt(p, st, open[i], line, e)
    requires forall line: Unit, e :: line.kind in kinds[..l] ==> !ConfinedAt(p, st, open[k], line, e)
    requires forall line: Unit, e :: line.kind == kinds[l] && line.idx < j ==> !ConfinedAt(p, st, open[k], line, e)
    ensures FirstConfined(p, st, open[k], Unit(kinds[l], j), elim)
  {
    var u, line := open[k], Unit(kinds[l], j);
    forall v, other, e | ConfinedAt(p, st, v, other, e)
      ensures !LineBefore(v, other, u, line)
    {
      if UnitBefore(v, u) {
        var i := EarlierInList(open, k, v);
      } else if v == u && UnitBefore(other, line) {
        AllCrossing(u.kind, other.kind);
      }
    }
  }

  predicate SubsetStepOf(step: Step) {
    step == Step(Subset, None, step.eliminate, [], None)
  }

  /** The first combination of a family that works, small ones first. */
  ghost predicate FirstInFamily(p: Puzzle, st: St, maxSubset: int, akind: Kind, js: set<nat>, bkind: Kind, elim: set<nat>) {
    && SubsetFound(p, st, maxSubset, akind, js, bkind, elim)
    && forall ks, e :: SubsetFound(p, st, maxSubset, akind, ks, bkind, e) ==> !SubsetBefore(akind, ks, bkind, akind, js, bkind)
  }

  lemma ComboInReach(p: Puzzle, st: St, maxSubset: int, akind: Kind, a: seq<nat>, k: nat, js: set<nat>)
    requires forall j: nat :: j in a <==> j < p.n && Open(p, st, Unit(akind, j))
    requires Ascending(a) && 2 <= k <= maxSubset && k <= |a| - 1 && ComboOf(a, 0, {}, k, js)
    ensures SubsetInReach(p, st, maxSubset, akind, js) && |js| == k
  {
    ElemsCard(a);
    ElemsAreOpen(p, st, akind, a);
    assert a[0..] == a && js - {} == js;
    assert Elems(a) <= js ==> js == Elems(a);
  }

  lemma ElemsAreOpen(p: Puzzle, st: St, kind: Kind, a: seq<nat>)
    requires forall j: nat :: j in a <==> j < p.n && Open(p, st, Unit(kind, j))
    ensures Elems(a) == OpenNumbers(p, st, kind)
  {
  }

  lemma SmallerIsClear(p: Puzzle, st: St, maxSubset: int, akind: Kind, bkind: Kind, a: seq<nat>, k: nat, ks: set<nat>)
    requires forall j: nat :: j in a <==> j < p.n && Open(p, st, Unit(akind, j))
    requires Ascending(a) && SubsetInReach(p, st, maxSubset, akind, ks) && |ks| < k
    requires forall l :: 2 <= l < k ==> ComboClear(p, st, akind, bkind, a, 0, {}, l)
    ensures forall e :: !SubsetAt(p, st, akind, ks, bkind, e)
  {
    ReachIsCombo(p, st, maxSubset, akind, a, ks);
    assert ComboClear(p, st, akind, bkind, a, 0, {}, |ks|);
  }

  lemma SizeIsFirst(p: Puzzle, st: St, maxSubset: int, akind: Kind, bkind: Kind, a: seq<nat>, k: nat, js: set<nat>, elim: set<nat>)
    requires forall j: nat :: j in a <==> j < p.n && Open(p, st, Unit(akind, j))
    requires Ascending(a) && 2 <= k <= maxSubset && k <= |a| - 1
    requires FirstCombo(p, st, akind, bkind, a, 0, {}, k, js, elim)
    requires forall l :: 2 <= l < k ==> ComboClear(p, st, akind, bkind, a, 0, {}, l)
    ensures FirstInFamily(p, st, maxSubset, akind, js, bkind, elim)
  {
    ComboInReach(p, st, maxSubset, akind, a, k, js);
    forall ks, e | SubsetFound(p, st, maxSubset, akind, ks, bkind, e)
      ensures !SubsetBefore(akind, ks, bkind, akind, js, bkind)
    {
      if |ks| < k {
        SmallerIsClear(p, st, maxSubset, akind, bkind, a, k, ks);
      } else {
        ReachIsCombo(p, st, maxSubset, akind, a, ks);
      }
    }
  }

  lemma FamilyAt(families: seq<(Kind, Kind)>, ak: Kind, bk: Kind)
    requires families == [(Region, Row), (Region, Col), (Row, Region), (Col, Region)] && Crosses(ak, bk)
    ensures FamilyRank(ak, bk) < 4 && families[FamilyRank(ak, bk)] == (ak, bk)
  {
  }

  lemma FamilyIsFirst(p: Puzzle, st: St, maxSubset: int, families: seq<(Kind, Kind)>, f: nat, js: set<nat>, elim: set<nat>)
    requires families == [(Region, Row), (Region, Col), (Row, Region), (Col, Region)] && f < 4
    requires forall i :: 0 <= i < f ==> FamilyClear(p, st, maxSubset, families[i].0, families[i].1)
    requires FirstInFamily(p, st, maxSubset, families[f].0, js, families[f].1, elim)
    ensures FirstSubset(p, st, maxSubset, families[f].0, js, families[f].1, elim)
  {
    var akind, bkind := families[f].0, families[f].1;
    FamilyAt(families, akind, bkind);
    assert FamilyRank(akind, bkind) == f;
    forall ak, ks, bk, e | SubsetFound(p, st, maxSubset, ak, ks, bk, e)
      ensures !SubsetBefore(ak, ks, bk, akind, js, bkind)
    {
      FamilyAt(families, ak, bk);
      if FamilyRank(ak, bk) < f {
        ClearFindsNothing(p, st, maxSubset, ak, ks, bk, e);
      }
    }
  }

  lemma ClearFindsNothing(p: Puzzle, st: St, maxSubset: int, akind: Kind, js: set<nat>, bkind: Kind, elim: set<nat>)
    requires FamilyClear(p, st, maxSubset, akind, bkind)
    ensures !SubsetFound(p, st, maxSubset, akind, js, bkind, elim)
  {
  }

  /** What a trial that does not get stuck decides. */
  ghost predicate Decides(p: Puzzle, ts: set<Technique>, maxSubset: int, trials: nat, st: St, i: nat, end: St, step: Step)
    requires p.Valid()
  {
    && i < |p.attack| && Replays(p, ts, maxSubset, trials, Place(p, st, i), step.inner, end)
    && (if Dead(p, end) then step == Step(Guess, None, {i}, step.inner, None)
        else |end.queens| == p.n && step == Step(Guess, Some(i), {}, step.inner, Some(end)))
  }

  /** The trial of every candidate of the unit gets stuck. */
  ghost predicate UnitStuck(p: Puzzle, ts: set<Technique>, maxSubset: int, trials: nat, st: St, u: Unit)
    requires p.Valid()
  {
    forall i :: i in Cands(p, st, u) ==> TrialStuck(p, ts, maxSubset, trials, st, i)
  }

  ghost predicate ListsTried(p: Puzzle, st: St, units: seq<Unit>) {
    && (forall u :: u in units <==> p.IsUnit(u) && Open(p, st, u) && Cands(p, st, u) != {})
    && ByCount(p, st, units)
  }

  lemma TrialsInOrder(p: Puzzle, ts: set<Technique>, maxSubset: int, trials: nat, st: St, units: seq<Unit>, k: nat, i: nat)
    requires p.Valid() && ListsTried(p, st, units) && k < |units|
    requires forall j :: 0 <= j < k ==> UnitStuck(p, ts, maxSubset, trials, st, units[j])
    requires forall c :: c in Cands(p, st, units[k]) && c < i ==> TrialStuck(p, ts, maxSubset, trials, st, c)
    ensures EarlierStuck(p, ts, maxSubset, trials, st, units[k], i)
  {
    forall v, c | Tried(p, st, v, c) && TrialBefore(p, st, v, c, units[k], i)
      ensures TrialStuck(p, ts, maxSubset, trials, st, c)
    {
      if v != units[k] {
        assert v in units;
        var j :| 0 <= j < |units| && units[j] == v;
        assert k < j ==> FewerFirst(p, st, units[k], v);
      }
    }
  }

  lemma DecidedIsFound(p: Puzzle, ts: set<Technique>, maxSubset: int, trials: nat, st: St, units: seq<Unit>, k: nat, i: nat,
                       end: St, step: Step)
    requires p.Valid() && ListsTried(p, st, units) && k < |units| && i in Cands(p, st, units[k])
    requires forall j :: 0 <= j < k ==> UnitStuck(p, ts, maxSubset, trials, st, units[j])
    requires forall c :: c in Cands(p, st, units[k]) && c < i ==> TrialStuck(p, ts, maxSubset, trials, st, c)
    requires Decides(p, ts, maxSubset, trials, st, i, end, step)
    ensures FindsGuess(p, ts, maxSubset, trials, st, step)
  {
    TrialsInOrder(p, ts, maxSubset, trials, st, units, k, i);
    assert FirstTrial(p, ts, maxSubset, trials, st, units[k], i, end, step);
  }

  // ----- the cheapest technique that finds something -----

  lemma SingleTaken(p: Puzzle, ts: set<Technique>, maxSubset: int, trials: nat, st: St, step: Step)
    requires p.Valid() && Single in ts && FindsSingle(p, st, step)
    ensures Takes(p, ts, maxSubset, trials, st, step)
  {
  }

  lemma ConfinedTaken(p: Puzzle, ts: set<Technique>, maxSubset: int, trials: nat, st: St, step: Step)
    requires p.Valid() && Confined in ts && NoSingle(p, st) && FindsConfined(p, st, step)
    ensures Takes(p, ts, maxSubset, trials, st, step)
  {
  }

  lemma CommonTaken(p: Puzzle, ts: set<Technique>, maxSubset: int, trials: nat, st: St, step: Step)
    requires p.Valid() && Common in ts && NoSingle(p, st) && (Confined in ts ==> NoConfined(p, st)) && FindsCommon(p, st, step)
    ensures Takes(p, ts, maxSubset, trials, st, step)
  {
  }

  lemma SubsetTaken(p: Puzzle, ts: set<Technique>, maxSubset: int, trials: nat, st: St, step: Step)
    requires p.Valid() && Subset in ts && NothingFires(p, ts, st) && FindsSubset(p, maxSubset, st, step)
    ensures Takes(p, ts, maxSubset, trials, st, step)
  {
    UnitsAreQuiet(p, ts, maxSubset, st);
    assert step.technique == Subset && Finds(p, ts, maxSubset, trials, st, step);
  }

  lemma UnitsAreQuiet(p: Puzzle, ts: set<Technique>, maxSubset: int, st: St)
    requires NothingFires(p, ts, st)
    ensures CheaperQuiet(p, ts, maxSubset, st, Subset)
  {
  }

  lemma ChainTaken(p: Puzzle, ts: set<Technique>, maxSubset: int, trials: nat, st: St, step: Step)
    requires p.Valid() && Chain in ts && NothingFires(p, ts, st) && (Subset in ts ==> NoSubset(p, st, maxSubset))
    requires FindsChain(p, st, step)
    ensures Takes(p, ts, maxSubset, trials, st, step)
  {
  }

  lemma GuessTaken(p: Puzzle, ts: set<Technique>, maxSubset: int, trials: nat, st: St, step: Step)
    requires p.Valid() && Guess in ts && NothingFires(p, ts, st) && (Subset in ts ==> NoSubset(p, st, maxSubset))
    requires (Chain in ts ==> NoChain(p, st)) && step.technique == Guess
    requires trials > 0 && FindsGuess(p, ts, maxSubset, trials - 1, st, step)
    ensures Takes(p, ts, maxSubset, trials, st, step)
  {
  }

  lemma AllSizesClear(p: Puzzle, st: St, maxSubset: int, akind: Kind, bkind: Kind, a: seq<nat>)
    requires forall j: nat :: j in a <==> j < p.n && Open(p, st, Unit(akind, j))
    requires Ascending(a)
    requires forall l :: 2 <= l <= maxSubset && l <= |a| - 1 ==> ComboClear(p, st, akind, bkind, a, 0, {}, l)
    ensures FamilyClear(p, st, maxSubset, akind, bkind)
  {
    forall js, e | SubsetInReach(p, st, maxSubset, akind, js)
      ensures !SubsetAt(p, st, akind, js, bkind, e)
    {
      ReachIsCombo(p, st, maxSubset, akind, a, js);
      assert ComboClear(p, st, akind, bkind, a, 0, {}, |js|);
    }
  }

  lemma ReachIsCombo(p: Puzzle, st: St, maxSubset: int, akind: Kind, a: seq<nat>, js: set<nat>)
    requires forall j: nat :: j in a <==> j < p.n && Open(p, st, Unit(akind, j))
    requires Ascending(a) && SubsetInReach(p, st, maxSubset, akind, js)
    ensures ComboOf(a, 0, {}, |js|, js) && |js| <= |a| - 1
  {
    ElemsCard(a);
    assert Elems(a) == OpenNumbers(p, st, akind);
    SubsetCard(js, Elems(a));
    assert a[0..] == a && js - {} == js;
  }

  lemma SafeTogether(p: Puzzle, st: St, elim: set<nat>)
    requires p.Valid() && forall i :: i in elim ==> Safe(p, st, {i})
    ensures Safe(p, st, elim)
  {
    forall s: set<nat>, i | Completes(p, st, s) && i in elim
      ensures i !in s
    {
      assert Safe(p, st, {i});
    }
  }

  /** Fewest candidates first, ties in the order of the units. */
  ghost predicate ByCount(p: Puzzle, st: St, units: seq<Unit>) {
    forall i, j :: 0 <= i < j < |units| ==> FewerFirst(p, st, units[i], units[j])
  }

  lemma InsertKeepsOrder(p: Puzzle, st: St, was: seq<Unit>, u: Unit, at: nat)
    requires ByCount(p, st, was) && at <= |was| && forall x :: x in was ==> UnitBefore(x, u)
    requires at > 0 ==> |Cands(p, st, was[at - 1])| <= |Cands(p, st, u)|
    requires forall i :: at <= i < |was| ==> |Cands(p, st, u)| < |Cands(p, st, was[i])|
    ensures ByCount(p, st, was[..at] + [u] + was[at..])
  {
    var now := was[..at] + [u] + was[at..];
    InsertedAt(was, u, at);
    forall i | 0 <= i < at
      ensures FewerFirst(p, st, was[i], u)
    {
      assert i < at - 1 ==> FewerFirst(p, st, was[i], was[at - 1]);
      assert was[i] in was;
    }
  }

  lemma InsertedAt(was: seq<Unit>, u: Unit, at: nat)
    requires at <= |was|
    ensures var now := was[..at] + [u] + was[at..];
      && |now| == |was| + 1 && now[at] == u
      && (forall k :: 0 <= k < at ==> now[k] == was[k])
      && (forall k :: at < k < |now| ==> now[k] == was[k - 1])
  {
  }

  lemma InsertKeepsElements(was: seq<Unit>, u: Unit, at: nat)
    requires at <= |was|
    ensures forall x :: x in was[..at] + [u] + was[at..] <==> x in was || x == u
  {
    assert was == was[..at] + was[at..];
  }

  lemma MoreTechniques(p: Puzzle, few: set<Technique>, many: set<Technique>, a: St, b: St)
    requires few <= many && StepBy(p, few, a, b)
    ensures StepBy(p, many, a, b)
  {
  }

  lemma NarrowsMore(a: St, b: St, c: St)
    requires Narrows(a, b) && Narrows(b, c)
    ensures Narrows(a, c)
  {
  }

  /** What the main loop keeps. */
  ghost predicate Midway(p: Puzzle, ts: set<Technique>, maxSubset: int, trials: nat, start: St, steps: seq<Step>, v: St)
    requires p.Valid()
  {
    && Inv(p, v) && Narrows(start, v) && (SameSolutions(p, start, v) || |v.queens| == p.n)
    && Replays(p, ts, maxSubset, trials, start, steps, v)
    && (ts <= {Single, Confined, Common} ==> Reaches(p, ts, start, v))
  }

  lemma MidwaySays(p: Puzzle, ts: set<Technique>, maxSubset: int, trials: nat, start: St, steps: seq<Step>, v: St)
    requires p.Valid() && Midway(p, ts, maxSubset, trials, start, steps, v)
    ensures Inv(p, v) && (Dead(p, v) && |v.queens| != p.n ==> Hopeless(p, start))
  {
    if Dead(p, v) && |v.queens| != p.n {
      DeadIsHopeless(p, v);
    }
  }

  lemma MidwayNext(p: Puzzle, ts: set<Technique>, maxSubset: int, trials: nat, start: St, steps: seq<Step>, v: St, step: Step)
    requires p.Valid() && Midway(p, ts, maxSubset, trials, start, steps, v)
    requires !Dead(p, v) && |v.queens| != p.n && StepOk(p, v, step) && Takes(p, ts, maxSubset, trials, v, step)
    requires ts <= {Single, Confined, Common} ==> StepBy(p, ts, v, After(p, v, step))
    ensures Midway(p, ts, maxSubset, trials, start, steps + [step], After(p, v, step))
    ensures |After(p, v, step).cand| < |v.cand|
  {
    StepAdvances(p, v, step);
    ReplaysOneMore(p, ts, maxSubset, trials, start, steps, v, step);
    NarrowsMore(start, v, After(p, v, step));
    if ts <= {Single, Confined, Common} {
      ReachesOneMore(p, ts, start, v, After(p, v, step));
    }
  }

  lemma NotSolvedIfDead(p: Puzzle, st: St)
    requires p.Valid() && Inv(p, st) && Dead(p, st)
    ensures |st.queens| != p.n && Hopeless(p, st)
  {
    DeadIsHopeless(p, st);
    if |st.queens| == p.n {
      SolvedIsAlive(p, st);
    }
  }
}
