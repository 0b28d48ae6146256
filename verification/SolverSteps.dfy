/** The steps of the human-style solver: which step it takes in a state, what a list of steps replays,
    and why both are determined. */
module SolverSteps {
  import opened Finite
  import opened Puzzles
  import opened Deduction
  import opened Confluence

  /** What a technique hands back: a queen to place or candidates to cross out; `inner` are the
      steps of a trial, and `final` is the finished state of a trial that solved the board. */
  datatype Step = Step(technique: Technique, place: Option<nat>, eliminate: set<nat>,
                       inner: seq<Step>, final: Option<St>)

  /** A step that may be taken in `st`: it loses no solution, or it jumps to a solved state. */
  ghost predicate StepOk(p: Puzzle, st: St, step: Step)
    requires p.Valid()
  {
    match step.final
    case Some(f) => Inv(p, f) && Narrows(st, f) && |f.cand| < |st.cand| && |f.queens| == p.n && !Dead(p, f)
    case None =>
      match step.place
      case Some(i) => i in st.cand && i < |p.attack| && step.eliminate == {} && SameSolutions(p, st, Place(p, st, i))
      case None => step.eliminate <= st.cand && step.eliminate != {} && Safe(p, st, step.eliminate)
  }

  /** The state after a step. */
  ghost function After(p: Puzzle, st: St, step: Step): St
    requires p.Valid() && StepOk(p, st, step)
  {
    match step.final
    case Some(f) => f
    case None => if step.place.Some? then Place(p, st, step.place.value) else Remove(st, step.eliminate)
  }

  lemma StepAdvances(p: Puzzle, st: St, step: Step)
    requires p.Valid() && Inv(p, st) && StepOk(p, st, step)
    ensures var next := After(p, st, step);
      && Inv(p, next) && Narrows(st, next) && |next.cand| < |st.cand|
      && (SameSolutions(p, st, next) || |next.queens| == p.n)
  {
    if step.final.None? {
      if step.place.Some? {
        PlaceKeeps(p, st, step.place.value);
      } else {
        RemoveKeeps(p, st, step.eliminate);
      }
    }
  }

  // ----- the order in which the techniques look -----

  function KindRank(k: Kind): nat {
    match k
    case Row => 0
    case Col => 1
    case Region => 2
  }

  /** Rows, then columns, then regions, each by number. */
  predicate UnitBefore(u: Unit, v: Unit) {
    KindRank(u.kind) < KindRank(v.kind) || (u.kind == v.kind && u.idx < v.idx)
  }

  ghost predicate InOrder(units: seq<Unit>) {
    forall i, j :: 0 <= i < j < |units| ==> UnitBefore(units[i], units[j])
  }

  lemma UnitsInOrder(p: Puzzle)
    ensures InOrder(Units(p))
  {
  }

  lemma EarlierInList(units: seq<Unit>, k: nat, v: Unit) returns (j: nat)
    requires InOrder(units) && k < |units| && v in units && UnitBefore(v, units[k])
    ensures j < k && units[j] == v
  {
    j :| 0 <= j < |units| && units[j] == v;
  }

  /** The first of the units with one candidate left. */
  ghost predicate FirstSingle(p: Puzzle, st: St, u: Unit, i: nat) {
    SingleAt(p, st, u, i) && forall v, j :: SingleAt(p, st, v, j) ==> !UnitBefore(v, u)
  }

  predicate LineBefore(u: Unit, line: Unit, v: Unit, other: Unit) {
    UnitBefore(u, v) || (u == v && UnitBefore(line, other))
  }

  /** The first unit that lies within a line with something else in it, and the first such line. */
  ghost predicate FirstConfined(p: Puzzle, st: St, u: Unit, line: Unit, elim: set<nat>) {
    && ConfinedAt(p, st, u, line, elim)
    && forall v, other, e :: ConfinedAt(p, st, v, other, e) ==> !LineBefore(v, other, u, line)
  }

  ghost predicate FirstCommon(p: Puzzle, st: St, u: Unit, elim: set<nat>) {
    CommonAt(p, st, u, elim) && forall v, e :: CommonAt(p, st, v, e) ==> !UnitBefore(v, u)
  }

  function OpenNumbers(p: Puzzle, st: St, kind: Kind): set<nat> {
    set j | j in Below(p.n) && Open(p, st, Unit(kind, j))
  }

  /** A set of at least two and at most maxSubset open units of a kind, not all of them. */
  ghost predicate SubsetInReach(p: Puzzle, st: St, maxSubset: int, akind: Kind, js: set<nat>) {
    2 <= |js| <= maxSubset && js < OpenNumbers(p, st, akind)
  }

  /** Regions into rows, regions into columns, rows into regions, columns into regions. */
  function FamilyRank(akind: Kind, bkind: Kind): nat {
    if akind == Region then (if bkind == Row then 0 else 1) else if akind == Row then 2 else 3
  }

  /** The order of combinations of one size: the first number that only one of them has decides. */
  ghost predicate LexBefore(ks: set<nat>, js: set<nat>) {
    exists m :: FirstDifference(ks, js, m)
  }

  ghost predicate FirstDifference(ks: set<nat>, js: set<nat>, m: nat) {
    m in ks && m !in js && forall x: nat :: x < m ==> (x in ks <==> x in js)
  }

  /** Families in order, small combinations first. */
  ghost predicate SubsetBefore(ak: Kind, ks: set<nat>, bk: Kind, akind: Kind, js: set<nat>, bkind: Kind) {
    || FamilyRank(ak, bk) < FamilyRank(akind, bkind)
    || (ak == akind && bk == bkind && (|ks| < |js| || (|ks| == |js| && LexBefore(ks, js))))
  }

  ghost predicate SubsetFound(p: Puzzle, st: St, maxSubset: int, akind: Kind, js: set<nat>, bkind: Kind, elim: set<nat>) {
    SubsetInReach(p, st, maxSubset, akind, js) && SubsetAt(p, st, akind, js, bkind, elim)
  }

  ghost predicate FirstSubset(p: Puzzle, st: St, maxSubset: int, akind: Kind, js: set<nat>, bkind: Kind, elim: set<nat>) {
    && SubsetFound(p, st, maxSubset, akind, js, bkind, elim)
    && forall ak, ks, bk, e :: SubsetFound(p, st, maxSubset, ak, ks, bk, e) ==> !SubsetBefore(ak, ks, bk, akind, js, bkind)
  }

  ghost predicate FamilyClear(p: Puzzle, st: St, maxSubset: int, akind: Kind, bkind: Kind) {
    forall js, e :: SubsetInReach(p, st, maxSubset, akind, js) ==> !SubsetAt(p, st, akind, js, bkind, e)
  }

  ghost predicate NoSubset(p: Puzzle, st: St, maxSubset: int) {
    forall akind: Kind, bkind: Kind :: Crosses(akind, bkind) ==> FamilyClear(p, st, maxSubset, akind, bkind)
  }

  ghost predicate NoChain(p: Puzzle, st: St) {
    forall i :: i in st.cand ==> !ChainFails(p, st, i)
  }

  /** A candidate of an open unit: what trial and error may try. */
  ghost predicate Tried(p: Puzzle, st: St, u: Unit, i: nat) {
    p.IsUnit(u) && Open(p, st, u) && i in Cands(p, st, u)
  }

  /** Units with few candidates first, ties in the order of the units, then the cells by number. */
  predicate TrialBefore(p: Puzzle, st: St, u: Unit, i: nat, v: Unit, j: nat) {
    || FewerFirst(p, st, u, v)
    || (u == v && i < j)
  }

  predicate FewerFirst(p: Puzzle, st: St, u: Unit, v: Unit) {
    || |Cands(p, st, u)| < |Cands(p, st, v)|
    || (|Cands(p, st, u)| == |Cands(p, st, v)| && UnitBefore(u, v))
  }

  // ----- the step taken -----

  function CostRank(t: Technique): nat {
    match t
    case Single => 0
    case Confined => 1
    case Common => 2
    case Subset => 3
    case Chain => 4
    case Guess => 5
  }

  /** The technique finds nothing. */
  ghost predicate Quiet(p: Puzzle, maxSubset: int, st: St, t: Technique) {
    match t
    case Single => NoSingle(p, st)
    case Confined => NoConfined(p, st)
    case Common => NoCommon(p, st)
    case Subset => NoSubset(p, st, maxSubset)
    case Chain => p.Valid() && NoChain(p, st)
    case Guess => true
  }

  /** Of the techniques in use, every one cheaper than t finds nothing. */
  ghost predicate CheaperQuiet(p: Puzzle, ts: set<Technique>, maxSubset: int, st: St, t: Technique) {
    forall s :: s in ts && CostRank(s) < CostRank(t) ==> Quiet(p, maxSubset, st, s)
  }

  /** The step the solver takes in `st`: the first thing the cheapest technique finds that finds
      anything. */
  ghost predicate Takes(p: Puzzle, ts: set<Technique>, maxSubset: int, trials: nat, st: St, step: Step)
    requires p.Valid()
    decreases trials, 2, 0
  {
    step.technique in ts && CheaperQuiet(p, ts, maxSubset, st, step.technique) && Finds(p, ts, maxSubset, trials, st, step)
  }

  ghost predicate Finds(p: Puzzle, ts: set<Technique>, maxSubset: int, trials: nat, st: St, step: Step)
    requires p.Valid()
    decreases trials, 1, 0
  {
    match step.technique
    case Single => FindsSingle(p, st, step)
    case Confined => FindsConfined(p, st, step)
    case Common => FindsCommon(p, st, step)
    case Subset => FindsSubset(p, maxSubset, st, step)
    case Chain => FindsChain(p, st, step)
    case Guess => trials > 0 && FindsGuess(p, ts, maxSubset, trials - 1, st, step)
  }

  ghost predicate FindsSingle(p: Puzzle, st: St, step: Step) {
    step.place.Some? && step == Step(Single, step.place, {}, [], None) && exists u :: FirstSingle(p, st, u, step.place.value)
  }

  ghost predicate FindsConfined(p: Puzzle, st: St, step: Step) {
    step == Step(Confined, None, step.eliminate, [], None) && exists u, line :: FirstConfined(p, st, u, line, step.eliminate)
  }

  ghost predicate FindsCommon(p: Puzzle, st: St, step: Step) {
    step == Step(Common, None, step.eliminate, [], None) && exists u :: FirstCommon(p, st, u, step.eliminate)
  }

  ghost predicate FindsSubset(p: Puzzle, maxSubset: int, st: St, step: Step) {
    && step == Step(Subset, None, step.eliminate, [], None)
    && exists akind, js, bkind :: FirstSubset(p, st, maxSubset, akind, js, bkind, step.eliminate)
  }

  /** All candidates whose chain fails, at once. */
  ghost predicate FindsChain(p: Puzzle, st: St, step: Step)
    requires p.Valid()
  {
    && step == Step(Chain, None, step.eliminate, [], None) && step.eliminate != {}
    && forall i :: i in step.eliminate <==> i in st.cand && ChainFails(p, st, i)
  }

  ghost predicate FindsGuess(p: Puzzle, ts: set<Technique>, maxSubset: int, trials: nat, st: St, step: Step)
    requires p.Valid()
    decreases trials, 8, 0
  {
    exists u, i, end :: FirstTrial(p, ts, maxSubset, trials, st, u, i, end, step)
  }

  /** The first trial that does not get stuck: it fails, and the candidate goes, or it solves the board,
      and its end is adopted. */
  ghost predicate FirstTrial(p: Puzzle, ts: set<Technique>, maxSubset: int, trials: nat, st: St,
                             u: Unit, i: nat, end: St, step: Step)
    requires p.Valid()
    decreases trials, 7, 0
  {
    && Tried(p, st, u, i) && i < |p.attack|
    && EarlierStuck(p, ts, maxSubset, trials, st, u, i)
    && Replays(p, ts, maxSubset, trials, Place(p, st, i), step.inner, end)
    && (if Dead(p, end) then step == Step(Guess, None, {i}, step.inner, None)
        else |end.queens| == p.n && step == Step(Guess, Some(i), {}, step.inner, Some(end)))
  }

  ghost predicate EarlierStuck(p: Puzzle, ts: set<Technique>, maxSubset: int, trials: nat, st: St, u: Unit, i: nat)
    requires p.Valid()
    decreases trials, 6, 0
  {
    forall v, j :: Tried(p, st, v, j) && TrialBefore(p, st, v, j, u, i) ==> TrialStuck(p, ts, maxSubset, trials, st, j)
  }

  /** From `st` the solver takes these steps, one after the other, and comes to `end`. */
  ghost predicate Replays(p: Puzzle, ts: set<Technique>, maxSubset: int, trials: nat, st: St, steps: seq<Step>, end: St)
    requires p.Valid()
    decreases trials, 3, |steps|
  {
    if steps == [] then st == end
    else
      && !Dead(p, st) && |st.queens| != p.n
      && StepOk(p, st, steps[0]) && Takes(p, ts, maxSubset, trials, st, steps[0])
      && Replays(p, ts, maxSubset, trials, After(p, st, steps[0]), steps[1..], end)
  }

  // ----- what "stuck" means -----

  /** How many trials may still be nested. */
  function Trials(maxGuessDepth: int, depth: nat): nat {
    if depth < maxGuessDepth then maxGuessDepth - depth else 0
  }

  /** No technique in use finds a step. */
  ghost predicate NothingApplies(p: Puzzle, ts: set<Technique>, maxSubset: int, trials: nat, st: St)
    requires p.Valid()
    decreases trials, 2, 0
  {
    && NothingFires(p, ts, st)
    && (Subset in ts ==> NoSubset(p, st, maxSubset))
    && (Chain in ts ==> NoChain(p, st))
    && (Guess in ts ==> NoGuess(p, ts, maxSubset, trials, st))
  }

  /** The trial of every candidate gets stuck, or no trial is allowed any more. */
  ghost predicate NoGuess(p: Puzzle, ts: set<Technique>, maxSubset: int, trials: nat, st: St)
    requires p.Valid()
    decreases trials, 1, 0
  {
    trials > 0 ==> forall i :: i in st.cand ==> TrialStuck(p, ts, maxSubset, trials - 1, st, i)
  }

  ghost predicate TrialStuck(p: Puzzle, ts: set<Technique>, maxSubset: int, trials: nat, st: St, i: nat)
    requires p.Valid()
    decreases trials, 5, 0
  {
    exists v, inner :: TrialEnds(p, ts, maxSubset, trials, st, i, v, inner)
  }

  /** The trial of i comes to v, having lost no solution through i, and is stuck there. */
  ghost predicate TrialEnds(p: Puzzle, ts: set<Technique>, maxSubset: int, trials: nat, st: St, i: nat, v: St, inner: seq<Step>)
    requires p.Valid()
    decreases trials, 4, 0
  {
    && i < |p.attack| && Inv(p, v) && Narrows(Place(p, st, i), v) && SameSolutions(p, Place(p, st, i), v)
    && Replays(p, ts, maxSubset, trials, Place(p, st, i), inner, v)
    && Exhausted(p, ts, maxSubset, trials, v)
  }

  /** Neither solved nor contradictory, and nothing applies. */
  ghost predicate Exhausted(p: Puzzle, ts: set<Technique>, maxSubset: int, trials: nat, st: St)
    requires p.Valid()
    decreases trials, 3, 0
  {
    !Dead(p, st) && |st.queens| != p.n && NothingApplies(p, ts, maxSubset, trials, st)
  }

  // ----- one more step -----

  lemma {:induction false} ReplaysOneMore(p: Puzzle, ts: set<Technique>, maxSubset: int, trials: nat,
                                          st: St, steps: seq<Step>, mid: St, step: Step)
    requires p.Valid() && Replays(p, ts, maxSubset, trials, st, steps, mid)
    requires !Dead(p, mid) && |mid.queens| != p.n && StepOk(p, mid, step) && Takes(p, ts, maxSubset, trials, mid, step)
    ensures Replays(p, ts, maxSubset, trials, st, steps + [step], After(p, mid, step))
    decreases |steps|
  {
    var more := steps + [step];
    if steps == [] {
      assert more[0] == step && more[1..] == [];
    } else {
      assert more[0] == steps[0] && more[1..] == steps[1..] + [step];
      ReplaysOneMore(p, ts, maxSubset, trials, After(p, st, steps[0]), steps[1..], mid, step);
    }
  }

  // ----- and only one -----

  lemma UnitsTotal(u: Unit, v: Unit)
    ensures u == v || UnitBefore(u, v) || UnitBefore(v, u)
  {
  }

  lemma SingleOnce(p: Puzzle, st: St, a: Step, b: Step)
    requires FindsSingle(p, st, a) && FindsSingle(p, st, b)
    ensures a == b
  {
    var u :| FirstSingle(p, st, u, a.place.value);
    var v :| FirstSingle(p, st, v, b.place.value);
    UnitsTotal(u, v);
    assert a.place.value in Cands(p, st, u);
  }

  lemma ConfinedOnce(p: Puzzle, st: St, a: Step, b: Step)
    requires FindsConfined(p, st, a) && FindsConfined(p, st, b)
    ensures a == b
  {
    var u, l :| FirstConfined(p, st, u, l, a.eliminate);
    var v, m :| FirstConfined(p, st, v, m, b.eliminate);
    UnitsTotal(u, v);
    UnitsTotal(l, m);
    assert !LineBefore(u, l, v, m) && !LineBefore(v, m, u, l);
  }

  lemma CommonOnce(p: Puzzle, st: St, a: Step, b: Step)
    requires FindsCommon(p, st, a) && FindsCommon(p, st, b)
    ensures a == b
  {
    var u :| FirstCommon(p, st, u, a.eliminate);
    var v :| FirstCommon(p, st, v, b.eliminate);
    UnitsTotal(u, v);
  }

  lemma {:induction false} LeastOf(s: set<nat>) returns (m: nat)
    requires s != {}
    ensures m in s && forall x :: x in s ==> m <= x
    decreases |s|
  {
    m :| m in s;
    assert s == (s - {m}) + {m};
    if s - {m} != {} {
      var rest := LeastOf(s - {m});
      if rest < m {
        m := rest;
      }
    }
  }

  /** Two combinations of one size: one comes first. */
  lemma LexTotal(ks: set<nat>, js: set<nat>)
    requires ks != js
    ensures LexBefore(ks, js) || LexBefore(js, ks)
  {
    var apart := (ks - js) + (js - ks);
    assert apart == {} ==> ks <= js && js <= ks;
    var m := LeastOf(apart);
    forall x: nat | x < m
      ensures x in ks <==> x in js
    {
      assert x !in apart;
    }
    assert FirstDifference(ks, js, m) || FirstDifference(js, ks, m);
  }

  lemma FamiliesApart(ak: Kind, bk: Kind, akind: Kind, bkind: Kind)
    requires Crosses(ak, bk) && Crosses(akind, bkind)
    ensures FamilyRank(ak, bk) == FamilyRank(akind, bkind) <==> ak == akind && bk == bkind
  {
  }

  lemma SubsetOnce(p: Puzzle, maxSubset: int, st: St, a: Step, b: Step)
    requires FindsSubset(p, maxSubset, st, a) && FindsSubset(p, maxSubset, st, b)
    ensures a == b
  {
    var ak, ks, bk :| FirstSubset(p, st, maxSubset, ak, ks, bk, a.eliminate);
    var ak', js, bk' :| FirstSubset(p, st, maxSubset, ak', js, bk', b.eliminate);
    FamiliesApart(ak, bk, ak', bk');
    assert !SubsetBefore(ak, ks, bk, ak', js, bk') && !SubsetBefore(ak', js, bk', ak, ks, bk);
    if ks != js {
      LexTotal(ks, js);
    }
  }

  lemma ChainOnce(p: Puzzle, st: St, a: Step, b: Step)
    requires p.Valid() && FindsChain(p, st, a) && FindsChain(p, st, b)
    ensures a == b
  {
    forall i
      ensures i in a.eliminate <==> i in b.eliminate
    {
    }
  }

  lemma TrialsTotal(p: Puzzle, st: St, u: Unit, i: nat, v: Unit, j: nat)
    ensures (u == v && i == j) || TrialBefore(p, st, u, i, v, j) || TrialBefore(p, st, v, j, u, i)
  {
    UnitsTotal(u, v);
  }

  /** The run is over: an empty unit, n queens, or nothing left to find. */
  ghost predicate Over(p: Puzzle, ts: set<Technique>, maxSubset: int, trials: nat, st: St)
    requires p.Valid()
  {
    Dead(p, st) || |st.queens| == p.n || Exhausted(p, ts, maxSubset, trials, st)
  }

  lemma StuckTrial(p: Puzzle, ts: set<Technique>, maxSubset: int, trials: nat, st: St, i: nat) returns (v: St, inner: seq<Step>)
    requires p.Valid() && TrialStuck(p, ts, maxSubset, trials, st, i)
    ensures i < |p.attack| && Replays(p, ts, maxSubset, trials, Place(p, st, i), inner, v)
    ensures Exhausted(p, ts, maxSubset, trials, v)
  {
    v, inner :| TrialEnds(p, ts, maxSubset, trials, st, i, v, inner);
  }

  /** The trial that decided, and those before it. */
  lemma DecidedTrial(p: Puzzle, ts: set<Technique>, maxSubset: int, trials: nat, st: St, a: Step) returns (u: Unit, i: nat, end: St)
    requires p.Valid() && FindsGuess(p, ts, maxSubset, trials, st, a)
    ensures Tried(p, st, u, i) && i < |p.attack| && EarlierStuck(p, ts, maxSubset, trials, st, u, i)
    ensures Replays(p, ts, maxSubset, trials, Place(p, st, i), a.inner, end) && (Dead(p, end) || |end.queens| == p.n)
    ensures a == if Dead(p, end) then Step(Guess, None, {i}, a.inner, None) else Step(Guess, Some(i), {}, a.inner, Some(end))
  {
    u, i, end :| FirstTrial(p, ts, maxSubset, trials, st, u, i, end, a);
  }

  lemma EarlierIsStuck(p: Puzzle, ts: set<Technique>, maxSubset: int, trials: nat, st: St, u: Unit, i: nat, v: Unit, j: nat)
    requires p.Valid() && EarlierStuck(p, ts, maxSubset, trials, st, u, i)
    requires Tried(p, st, v, j) && TrialBefore(p, st, v, j, u, i)
    ensures TrialStuck(p, ts, maxSubset, trials, st, j)
  {
  }

  /** A trial that is decided does not also get stuck. */
  lemma DecidedIsNotStuck(p: Puzzle, ts: set<Technique>, maxSubset: int, trials: nat, st: St, i: nat, inner: seq<Step>, end: St)
    requires p.Valid() && i < |p.attack| && Replays(p, ts, maxSubset, trials, Place(p, st, i), inner, end)
    requires Dead(p, end) || |end.queens| == p.n
    ensures !TrialStuck(p, ts, maxSubset, trials, st, i)
    decreases trials, 5, 0
  {
    if TrialStuck(p, ts, maxSubset, trials, st, i) {
      var v, other := StuckTrial(p, ts, maxSubset, trials, st, i);
      ReplaysOnce(p, ts, maxSubset, trials, Place(p, st, i), inner, end, other, v);
    }
  }

  lemma GuessOnce(p: Puzzle, ts: set<Technique>, maxSubset: int, trials: nat, st: St, a: Step, b: Step)
    requires p.Valid() && FindsGuess(p, ts, maxSubset, trials, st, a) && FindsGuess(p, ts, maxSubset, trials, st, b)
    ensures a == b
    decreases trials, 6, 0
  {
    var u, i, e := DecidedTrial(p, ts, maxSubset, trials, st, a);
    var v, j, f := DecidedTrial(p, ts, maxSubset, trials, st, b);
    TrialsTotal(p, st, u, i, v, j);
    DecidedIsNotStuck(p, ts, maxSubset, trials, st, i, a.inner, e);
    DecidedIsNotStuck(p, ts, maxSubset, trials, st, j, b.inner, f);
    if TrialBefore(p, st, u, i, v, j) {
      EarlierIsStuck(p, ts, maxSubset, trials, st, v, j, u, i);
    } else if TrialBefore(p, st, v, j, u, i) {
      EarlierIsStuck(p, ts, maxSubset, trials, st, u, i, v, j);
    }
    ReplaysOnce(p, ts, maxSubset, trials, Place(p, st, i), a.inner, e, b.inner, f);
  }

  /** What is taken is found. */
  lemma TakenIsFound(p: Puzzle, ts: set<Technique>, maxSubset: int, trials: nat, st: St, a: Step)
    requires p.Valid() && Takes(p, ts, maxSubset, trials, st, a)
    ensures a.technique != Guess ==> !Quiet(p, maxSubset, st, a.technique)
  {
    match a.technique
    case Subset =>
      var akind, js, bkind :| FirstSubset(p, st, maxSubset, akind, js, bkind, a.eliminate);
      assert !FamilyClear(p, st, maxSubset, akind, bkind);
    case Chain => var i :| i in a.eliminate;
    case _ =>
  }

  lemma OneTechnique(p: Puzzle, ts: set<Technique>, maxSubset: int, trials: nat, st: St, a: Step, b: Step)
    requires p.Valid() && Takes(p, ts, maxSubset, trials, st, a) && Takes(p, ts, maxSubset, trials, st, b)
    ensures a.technique == b.technique
  {
    TakenIsFound(p, ts, maxSubset, trials, st, a);
    TakenIsFound(p, ts, maxSubset, trials, st, b);
  }

  /** In a state the solver takes one step. */
  lemma TakesOnce(p: Puzzle, ts: set<Technique>, maxSubset: int, trials: nat, st: St, a: Step, b: Step)
    requires p.Valid() && Takes(p, ts, maxSubset, trials, st, a) && Takes(p, ts, maxSubset, trials, st, b)
    ensures a == b
    decreases trials, 2, 0
  {
    OneTechnique(p, ts, maxSubset, trials, st, a, b);
    match a.technique
    case Single => SingleOnce(p, st, a, b);
    case Confined => ConfinedOnce(p, st, a, b);
    case Common => CommonOnce(p, st, a, b);
    case Subset => SubsetOnce(p, maxSubset, st, a, b);
    case Chain => ChainOnce(p, st, a, b);
    case Guess => GuessOnce(p, ts, maxSubset, trials - 1, st, a, b);
  }

  lemma TakenGuess(p: Puzzle, ts: set<Technique>, maxSubset: int, trials: nat, st: St, a: Step)
    requires p.Valid() && Takes(p, ts, maxSubset, trials, st, a) && a.technique == Guess
    ensures trials > 0 && FindsGuess(p, ts, maxSubset, trials - 1, st, a)
  {
    assert Finds(p, ts, maxSubset, trials, st, a);
  }

  /** Where nothing applies no step is taken. */
  lemma NothingTaken(p: Puzzle, ts: set<Technique>, maxSubset: int, trials: nat, st: St, a: Step)
    requires p.Valid() && NothingApplies(p, ts, maxSubset, trials, st)
    ensures !Takes(p, ts, maxSubset, trials, st, a)
    decreases trials, 2, 0
  {
    if Takes(p, ts, maxSubset, trials, st, a) {
      TakenIsFound(p, ts, maxSubset, trials, st, a);
      if a.technique == Guess {
        TakenGuess(p, ts, maxSubset, trials, st, a);
        var u, i, e := DecidedTrial(p, ts, maxSubset, trials - 1, st, a);
        assert i in st.cand;
        DecidedIsNotStuck(p, ts, maxSubset, trials - 1, st, i, a.inner, e);
      }
    }
  }

  /** Every run from a state to its end takes the same steps to the same end: the list of steps is
      determined by the board and the options. */
  lemma {:induction false} ReplaysOnce(p: Puzzle, ts: set<Technique>, maxSubset: int, trials: nat,
                                       st: St, a: seq<Step>, e: St, b: seq<Step>, f: St)
    requires p.Valid()
    requires Replays(p, ts, maxSubset, trials, st, a, e) && Over(p, ts, maxSubset, trials, e)
    requires Replays(p, ts, maxSubset, trials, st, b, f) && Over(p, ts, maxSubset, trials, f)
    ensures a == b && e == f
    decreases trials, 3, |a|
  {
    if a == [] || b == [] {
      if a != [] {
        NothingTaken(p, ts, maxSubset, trials, st, a[0]);
      }
      if b != [] {
        NothingTaken(p, ts, maxSubset, trials, st, b[0]);
      }
    } else {
      TakesOnce(p, ts, maxSubset, trials, st, a[0], b[0]);
      ReplaysOnce(p, ts, maxSubset, trials, After(p, st, a[0]), a[1..], e, b[1..], f);
      assert a == [a[0]] + a[1..] && b == [b[0]] + b[1..];
    }
  }
}
