/** The deterministic opponents that top up a group: what a bot has played by some instant of its
    round, from a Park-Miller generator and integer arithmetic only. */
module Bots {
  import opened Arithmetic
  import opened BestOfRound

  const PM_MOD := 2147483647
  const PM_MUL := 48271
  const PM_INVERSE := 1899818559
  const INT64_MAX := 0x7FFF_FFFF_FFFF_FFFF

  datatype BotRule = NoBots | BotRule(fillTo: int, gameScore: int, gamesMax: int)

  function Pm(x: int): int {
    (x * PM_MUL) % PM_MOD
  }

  function PosMod(a: int, b: int): int
    requires b > 0
  {
    a % b
  }

  /** The generator's state space; 0 would be absorbing. */
  predicate GoodState(x: int) {
    1 <= x <= PM_MOD - 1
  }

  lemma MulCancels(x: int, q: int)
    requires x * PM_MUL == PM_MOD * q
    ensures x == PM_MOD * (q * PM_INVERSE - x * 42704)
  {
    assert PM_MUL * PM_INVERSE == 1 + PM_MOD * 42704;
    assert (x * PM_MUL) * PM_INVERSE == x * (PM_MUL * PM_INVERSE);
    assert (PM_MOD * q) * PM_INVERSE == PM_MOD * (q * PM_INVERSE);
    assert x * (1 + PM_MOD * 42704) == x + PM_MOD * (x * 42704);
  }

  /** The multiplier has an inverse modulo the prime, so the state never reaches 0; and the product
      fits a signed 64-bit integer. */
  lemma PmStaysGood(x: int)
    requires GoodState(x)
    ensures GoodState(Pm(x))
    ensures 0 <= x * PM_MUL <= INT64_MAX
  {
    var q := (x * PM_MUL) / PM_MOD;
    if Pm(x) == 0 {
      MulCancels(x, q);
      NoMultipleInside(x, q * PM_INVERSE - x * 42704);
    }
  }

  lemma NoMultipleInside(x: int, m: int)
    requires x == PM_MOD * m
    ensures !GoodState(x)
  {
  }

  /** n steps of the generator. */
  function PmTimes(x: int, n: nat): int {
    if n == 0 then x else Pm(PmTimes(x, n - 1))
  }

  lemma {:induction false} PmTimesGood(x: int, n: nat)
    requires GoodState(x)
    ensures GoodState(PmTimes(x, n))
  {
    if n > 0 {
      PmTimesGood(x, n - 1);
      PmStaysGood(PmTimes(x, n - 1));
    }
  }

  function FirstState(bot: int): (x: int)
    ensures GoodState(x)
  {
    PosMod(bot, PM_MOD - 1) + 1
  }

  // ----- the plan of one bot -----

  datatype Plan = Plan(total: int, skill: int, startPct: int, gameScore: int, state: int)

  function GamesMax(rule: BotRule): int {
    var g := if rule.NoBots? then 15 else rule.gamesMax;
    if g < 1 then 1 else g
  }

  function GameScore(rule: BotRule): int {
    var g := if rule.NoBots? then 400 else rule.gameScore;
    if g < 0 then 0 else g
  }

  /** Two warm-up steps, then activity, skill and start are drawn in that order. */
  function PlanOf(rule: BotRule, bot: int): Plan {
    var x := FirstState(bot);
    var activity := PmTimes(x, 3) % 100;
    var skill := 60 + PmTimes(x, 4) % 81;
    var startPct := PmTimes(x, 5) % 40;
    Plan(1 + activity * activity * (GamesMax(rule) - 1) / 9801, skill, startPct, GameScore(rule), PmTimes(x, 5))
  }

  ghost predicate GoodPlan(p: Plan) {
    p.total >= 1 && 60 <= p.skill <= 140 && 0 <= p.startPct < 40 && p.gameScore >= 0 && GoodState(p.state)
  }

  lemma ShareOf(a: int, m: int)
    requires 0 <= a <= 99 && m >= 0
    ensures 0 <= a * a * m / 9801 <= m
  {
    assert a * a <= 99 * a <= 9801;
    assert (9801 - a * a) * m >= 0;
    assert (9801 - a * a) * m == 9801 * m - a * a * m;
    assert a * a * m >= 0;
  }

  /** Every bot plays at least one game and at most its tier's maximum. */
  lemma PlanIsGood(rule: BotRule, bot: int)
    ensures GoodPlan(PlanOf(rule, bot)) && PlanOf(rule, bot).total <= GamesMax(rule)
  {
    var x := FirstState(bot);
    PmTimesGood(x, 3);
    PmTimesGood(x, 4);
    PmTimesGood(x, 5);
    ShareOf(PmTimes(x, 3) % 100, GamesMax(rule) - 1);
  }

  /** Without settings a bot plays up to 15 games worth 400, and settings that make no sense mean one
      game, or games worth nothing. */
  lemma PlanSettings(bot: int, fillTo: int, score: int, games: int)
    ensures PlanOf(NoBots, bot) == PlanOf(BotRule(fillTo, 400, 15), bot)
    ensures var p := PlanOf(BotRule(fillTo, score, games), bot);
      && (games <= 1 ==> p.total == 1) && (games >= 1 ==> 1 <= p.total <= games)
      && p.gameScore == if score <= 0 then 0 else score
  {
    PlanIsGood(BotRule(fillTo, score, games), bot);
  }

  function Length(roundStart: int, roundEnd: int): nat {
    if roundEnd - roundStart < 0 then 0 else roundEnd - roundStart
  }

  /** When game k of the plan is played. */
  function PlayTime(p: Plan, roundStart: int, length: nat, k: int): int
    requires p.total >= 1
  {
    roundStart + length * Share(p, k) / (100 * p.total)
  }

  /** The part of the round before game k, in units of 1 / (100 * total). */
  function Share(p: Plan, k: int): int {
    p.startPct * p.total + (100 - p.startPct) * k
  }

  function PlayScore(p: Plan, k: nat): int {
    p.gameScore * p.skill * (85 + PmTimes(p.state, k + 1) % 31) / 10000
  }

  /** Play times never go backwards, so stopping at the first one past `at` misses nothing. */
  lemma PlayTimesOrdered(p: Plan, roundStart: int, length: nat, j: int, k: int)
    requires GoodPlan(p) && j <= k
    ensures PlayTime(p, roundStart, length, j) <= PlayTime(p, roundStart, length, k)
  {
    ShareOrdered(p, j, k);
    ScaledQuotient(length, Share(p, j), Share(p, k), 100 * p.total);
  }

  lemma ShareOrdered(p: Plan, j: int, k: int)
    requires p.startPct < 40 && j <= k
    ensures Share(p, j) <= Share(p, k)
  {
    Scale(100 - p.startPct, j, k);
  }

  lemma ShareBelowWhole(startPct: int, total: int, k: int)
    requires 0 <= startPct < 40 && 0 <= k < total
    ensures 0 <= startPct * total + (100 - startPct) * k < 100 * total
  {
    Scale(startPct, 0, total);
    Scale(100 - startPct, 0, k);
    Scale(100 - startPct, k, total - 1);
    assert (100 - startPct) * (total - 1) == 100 * total - startPct * total - (100 - startPct);
  }

  /** Every game lies inside the round. */
  lemma PlayedInsideRound(p: Plan, roundStart: int, roundEnd: int, k: nat)
    requires GoodPlan(p) && k < p.total && roundStart < roundEnd
    ensures roundStart <= PlayTime(p, roundStart, Length(roundStart, roundEnd), k) < roundEnd
  {
    var length := Length(roundStart, roundEnd);
    var share := Share(p, k);
    ShareBelowWhole(p.startPct, p.total, k);
    Scale(length, 0, share);
    Scale(length, share + 1, 100 * p.total);
    assert length * (share + 1) == length * share + length;
    DivideBelow(length * share, 100 * p.total, length);
  }

  // ----- the loop -----

  datatype BotState = BotState(roundScore: int, games: nat, lastSubmitAt: int)

  /** The scores of the first n games. */
  function ScoresOf(p: Plan, n: nat): seq<int> {
    seq(n, k requires 0 <= k < n => PlayScore(p, k))
  }

  /** The games whose time has come, of the first n. */
  function GamesBy(p: Plan, roundStart: int, length: nat, at: int, n: nat): nat
    requires p.total >= 1
  {
    if n == 0 then 0
    else GamesBy(p, roundStart, length, at, n - 1) + (if PlayTime(p, roundStart, length, n - 1) <= at then 1 else 0)
  }

  method BotProgress(rule: BotRule, scoring: ScoreRule, bot: int, roundStart: int, roundEnd: int, at: int)
    returns (state: BotState)
    ensures GoodPlan(PlanOf(rule, bot))
    ensures var p := PlanOf(rule, bot);
      && state.games == GamesBy(p, roundStart, Length(roundStart, roundEnd), at, p.total) <= p.total
      && state.roundScore == RoundScoreOf(scoring, multiset(ScoresOf(p, state.games)))
      && state.lastSubmitAt == if state.games == 0 then 0 else PlayTime(p, roundStart, Length(roundStart, roundEnd), state.games - 1)
  {
    PlanIsGood(rule, bot);
    var gamesMax, gameScore := 15, 400;
    if rule.BotRule? {
      gamesMax, gameScore := rule.gamesMax, rule.gameScore;
    }
    if gamesMax < 1 {
      gamesMax := 1;
    }
    if gameScore < 0 {
      gameScore := 0;
    }
    var x := Pm(Pm(PosMod(bot, PM_MOD - 1) + 1));
    x := Pm(x);
    var activity := x % 100;
    x := Pm(x);
    var skill := 60 + x % 81;
    x := Pm(x);
    var startPct := x % 40;
    var total := 1 + activity * activity * (gamesMax - 1) / 9801;
    ghost var p := PlanOf(rule, bot);
    WarmUp(FirstState(bot));
    assert p == Plan(total, skill, startPct, gameScore, x);
    var length := roundEnd - roundStart;
    if length < 0 {
      length := 0;
    }
    var scores, last := PlayGames(p, total, skill, startPct, gameScore, x, roundStart, length, at);
    var score := RoundScore(scores, scoring);
    state := BotState(score, |scores|, last);
  }

  /** The game loop, with its `break`. */
  method PlayGames(ghost p: Plan, total: int, skill: int, startPct: int, gameScore: int, x0: int,
                   roundStart: int, length: nat, at: int) returns (scores: seq<int>, last: int)
    requires GoodPlan(p) && p == Plan(total, skill, startPct, gameScore, x0)
    ensures |scores| == GamesBy(p, roundStart, length, at, total) <= total
    ensures scores == ScoresOf(p, |scores|)
    ensures last == if scores == [] then 0 else PlayTime(p, roundStart, length, |scores| - 1)
  {
    var x := x0;
    scores, last := [], 0;
    var k: nat := 0;
    while k < total
      invariant k <= total && x == PmTimes(x0, k)
      invariant scores == ScoresOf(p, k) && k == GamesBy(p, roundStart, length, at, k)
      invariant last == if scores == [] then 0 else PlayTime(p, roundStart, length, k - 1)
    {
      x := Pm(x);
      var when := roundStart + length * (startPct * total + (100 - startPct) * k) / (100 * total);
      if when > at {
        NoneAfter(p, roundStart, length, at, k, total);
        break;
      }
      scores := scores + [gameScore * skill * (85 + x % 31) / 10000];
      last := when;
      k := k + 1;
    }
  }

  lemma WarmUp(x: int)
    ensures Pm(Pm(x)) == PmTimes(x, 2) && Pm(Pm(Pm(x))) == PmTimes(x, 3)
    ensures Pm(PmTimes(x, 3)) == PmTimes(x, 4) && Pm(PmTimes(x, 4)) == PmTimes(x, 5)
  {
    assert PmTimes(x, 1) == Pm(x);
  }

  lemma {:induction false} NoneAfter(p: Plan, roundStart: int, length: nat, at: int, k: nat, n: nat)
    requires GoodPlan(p) && k <= n && PlayTime(p, roundStart, length, k) > at
    ensures GamesBy(p, roundStart, length, at, n) == GamesBy(p, roundStart, length, at, k)
  {
    if k < n {
      NoneAfter(p, roundStart, length, at, k, n - 1);
      PlayTimesOrdered(p, roundStart, length, k, n - 1);
    }
  }

  // ----- a bot never unplays a game -----

  lemma {:induction false} GamesGrow(p: Plan, roundStart: int, length: nat, a: int, b: int, n: nat)
    requires GoodPlan(p) && a <= b
    ensures GamesBy(p, roundStart, length, a, n) <= GamesBy(p, roundStart, length, b, n) <= n
  {
    if n > 0 {
      GamesGrow(p, roundStart, length, a, b, n - 1);
    }
  }

  lemma PlayScoreNonNegative(p: Plan, k: nat)
    requires GoodPlan(p)
    ensures PlayScore(p, k) >= 0
  {
    var f := 85 + PmTimes(p.state, k + 1) % 31;
    Scale(p.gameScore, 0, p.skill);
    Scale(p.gameScore * p.skill, 0, f);
    DivideOrdered(0, p.gameScore * p.skill * f, 10000);
  }

  lemma ScoresNonNegative(p: Plan, n: nat)
    requires GoodPlan(p)
    ensures NonNegative(multiset(ScoresOf(p, n)))
  {
    forall s | s in multiset(ScoresOf(p, n))
      ensures s >= 0
    {
      assert s in ScoresOf(p, n);
      var k: nat :| k < n && ScoresOf(p, n)[k] == s;
      PlayScoreNonNegative(p, k);
    }
  }

  lemma OneMoreScore(scoring: ScoreRule, p: Plan, n: nat)
    requires GoodPlan(p)
    ensures RoundScoreOf(scoring, multiset(ScoresOf(p, n))) <= RoundScoreOf(scoring, multiset(ScoresOf(p, n + 1)))
  {
    var s := ScoresOf(p, n);
    var x := PlayScore(p, n);
    assert ScoresOf(p, n + 1) == s + [x];
    ScoresNonNegative(p, n);
    PlayScoreNonNegative(p, n);
    OneMoreNeverHurts(scoring, s, x);
  }

  ghost predicate Rises(f: nat -> int, k: nat) {
    f(k) <= f(k + 1)
  }

  lemma {:induction false} RisesOver(f: nat -> int, m: nat, n: nat)
    requires m <= n && forall k :: Rises(f, k)
    ensures f(m) <= f(n)
  {
    if m < n {
      RisesOver(f, m, n - 1);
      assert Rises(f, n - 1);
    }
  }

  lemma ScoresAddUp(scoring: ScoreRule, p: Plan, m: nat, n: nat)
    requires GoodPlan(p) && m <= n
    ensures RoundScoreOf(scoring, multiset(ScoresOf(p, m))) <= RoundScoreOf(scoring, multiset(ScoresOf(p, n)))
  {
    var score: nat -> int := (k: nat) => RoundScoreOf(scoring, multiset(ScoresOf(p, k)));
    forall k: nat
      ensures Rises(score, k)
    {
      OneMoreScore(scoring, p, k);
    }
    RisesOver(score, m, n);
  }

  /** Over the round the games and the score of a bot only grow. */
  lemma ProgressGrows(rule: BotRule, scoring: ScoreRule, bot: int, roundStart: int, roundEnd: int, a: int, b: int)
    requires a <= b
    ensures var p, length := PlanOf(rule, bot), Length(roundStart, roundEnd);
      GoodPlan(p)
      && (var ga, gb := GamesBy(p, roundStart, length, a, p.total), GamesBy(p, roundStart, length, b, p.total);
         ga <= gb && RoundScoreOf(scoring, multiset(ScoresOf(p, ga))) <= RoundScoreOf(scoring, multiset(ScoresOf(p, gb))))
  {
    PlanIsGood(rule, bot);
    var p, length := PlanOf(rule, bot), Length(roundStart, roundEnd);
    GamesGrow(p, roundStart, length, a, b, p.total);
    ScoresAddUp(scoring, p, GamesBy(p, roundStart, length, a, p.total), GamesBy(p, roundStart, length, b, p.total));
  }

  lemma {:induction false} AllInByEnd(p: Plan, roundStart: int, roundEnd: int, at: int, n: nat)
    requires GoodPlan(p) && roundStart < roundEnd <= at && n <= p.total
    ensures GamesBy(p, roundStart, Length(roundStart, roundEnd), at, n) == n
  {
    if n > 0 {
      AllInByEnd(p, roundStart, roundEnd, at, n - 1);
      PlayedInsideRound(p, roundStart, roundEnd, n - 1);
    }
  }

  /** Nothing is played before the round starts, and when it ends every game is in. */
  lemma {:induction false} NothingBeforeStart(p: Plan, roundStart: int, roundEnd: int, at: int, n: nat)
    requires GoodPlan(p) && at < roundStart < roundEnd && n <= p.total
    ensures GamesBy(p, roundStart, Length(roundStart, roundEnd), at, n) == 0
  {
    if n > 0 {
      NothingBeforeStart(p, roundStart, roundEnd, at, n - 1);
      PlayedInsideRound(p, roundStart, roundEnd, n - 1);
    }
  }
}
