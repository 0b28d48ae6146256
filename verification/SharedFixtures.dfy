/** Cases of the fixture file both runtimes share: the numbers of the shipped tier table, of its
    calendar and of its bots, as the file gives them. */
module SharedFixtures {
  import opened Tiers
  import opened Standings
  import opened Bots
  import opened Season

  const BRONZE: nat := 0
  const SILVER: nat := 1
  const GOLD: nat := 2
  const PLATINUM: nat := 3
  const DIAMOND: nat := 4
  const CHALLENGER: nat := 5

  /** Rounds of a week from Monday 1970-01-05 on, and none in the score tiers. */
  lemma RoundsOfTheTable(tier: nat, time: int)
    requires tier <= CHALLENGER
    ensures tier in {BRONZE, SILVER} ==> Index(SHIPPED, tier, time) == 0
    ensures tier >= GOLD ==>
      && Index(SHIPPED, tier, 0) == -1 && Index(SHIPPED, tier, 345600) == 0 && Index(SHIPPED, tier, 345601) == 0
      && Index(SHIPPED, tier, 1788739200) == 2957 && Index(SHIPPED, tier, 1789343999) == 2957
      && Index(SHIPPED, tier, 1789344000) == 2958
      && RoundStart(Cfg(SHIPPED, tier), 2957) == 1788739200 && RoundEnd(Cfg(SHIPPED, tier), 2957) == 1789344000
      && RoundStart(Cfg(SHIPPED, tier), 6900) == 4173465600 && RoundEnd(Cfg(SHIPPED, tier), 6900) == 4174070400
  {
  }

  /** The tier after every outcome in every tier. */
  lemma Transitions(outcome: Outcome)
    ensures var to := (t: nat) => if t <= CHALLENGER then Apply(SHIPPED.tiers, t, outcome) else t;
      match outcome
      case Promoted =>
        && to(BRONZE) == SILVER && to(SILVER) == GOLD && to(GOLD) == PLATINUM && to(PLATINUM) == DIAMOND
        && to(DIAMOND) == CHALLENGER && to(CHALLENGER) == CHALLENGER
      case Stayed => forall t :: to(t) == t
      case InactiveFrozen => forall t :: to(t) == t
      case _ =>
        && to(BRONZE) == BRONZE && to(SILVER) == BRONZE && to(GOLD) == GOLD && to(PLATINUM) == GOLD
        && to(DIAMOND) == PLATINUM && to(CHALLENGER) == DIAMOND
  {
  }

  lemma InactiveOutcomes(tier: nat)
    requires tier <= CHALLENGER
    ensures InactiveOutcome(SHIPPED.tiers[tier]) == if tier <= GOLD then InactiveFrozen else InactiveRelegated
  {
  }

  function CountsIn(tier: nat, n: int, leader: int, upCount: int): (int, int) {
    var c := Counts(n, Cfg(SHIPPED, tier).rule, SHIPPED.minGroupSize, leader, upCount);
    (c.up, c.down)
  }

  /** How many go up and down: by score, by percentage with its halves, in tiny groups, with openings. */
  lemma CountsOfGroups(leader: int)
    ensures CountsIn(BRONZE, 30, leader, -1) == CountsIn(SILVER, 4, leader, 3) == (0, 0)
    ensures CountsIn(GOLD, 31, leader, -1) == (6, 0)
    ensures CountsIn(PLATINUM, 29, leader, -1) == (4, 7)
    ensures CountsIn(PLATINUM, 30, leader, -1) == (5, 8)
    ensures CountsIn(PLATINUM, 30, leader, 3) == (3, 8)
    ensures CountsIn(PLATINUM, 4, 1500, -1) == (0, 0) && CountsIn(PLATINUM, 4, 2500, -1) == (1, 0)
    ensures CountsIn(GOLD, 4, 1500, 0) == CountsIn(GOLD, 4, 1499, 3) == (0, 0) && CountsIn(GOLD, 4, 1500, 3) == (1, 0)
    ensures CountsIn(DIAMOND, 2, 0, 3) == (1, 0)
    ensures CountsIn(DIAMOND, 30, leader, 0) == (0, 6) && CountsIn(DIAMOND, 30, leader, 3) == (3, 6)
    ensures CountsIn(CHALLENGER, 5, leader, 3) == (3, 2) && CountsIn(CHALLENGER, 31, leader, -1) == (0, 16)
  {
  }

  function SlotsFor(below: nat): int {
    Slots(Cfg(SHIPPED, CHALLENGER).slots, below)
  }

  lemma SlotsOfTheTop()
    ensures SlotsFor(0) == SlotsFor(49) == SlotsFor(51) == 5
    ensures SlotsFor(99) == 9 && SlotsFor(100) == 10 && SlotsFor(499) == 49
    ensures SlotsFor(500) == SlotsFor(501) == SlotsFor(1000) == 50
    ensures Slots(Cfg(SHIPPED, DIAMOND).slots, 1000) == -1
  {
  }

  function OpeningsFor(below: nat, members: nat): int {
    Openings(Cfg(SHIPPED, CHALLENGER), SHIPPED.minGroupSize, below, members)
  }

  lemma OneOpening(below: nat, members: nat, slots: int, leaving: int, openings: int)
    requires SlotsFor(below) == slots && 0 <= slots
    requires CountsIn(CHALLENGER, members, 0, -1).1 == leaving
    requires openings == if slots > members - leaving then slots - (members - leaving) else 0
    ensures OpeningsFor(below, members) == openings
  {
  }

  lemma OpeningsOverSix()
    ensures OpeningsFor(6, 0) == 5 && OpeningsFor(6, 3) == 2 && OpeningsFor(6, 5) == 3
  {
    OneOpening(6, 0, 5, 0, 5);
    OneOpening(6, 3, 5, 0, 2);
    OneOpening(6, 5, 5, 3, 3);
  }

  lemma OpeningsOverMore()
    ensures OpeningsFor(69, 10) == 1 && OpeningsFor(69, 50) == 0 && OpeningsFor(500, 50) == 25
  {
    OneOpening(69, 10, 6, 5, 1);
    OneOpening(69, 50, 6, 25, 0);
    OneOpening(500, 50, 50, 25, 25);
  }

  // ----- bots -----

  const GOLD_BOTS := BotRule(30, 380, 15)

  const WEEK := 604800

  /** Jonas of group seed 1 plans three games for a week of Gold. */
  lemma JonasPlans(bot: int)
    requires bot == 131
    ensures PlanOf(GOLD_BOTS, bot) == Plan(3, 66, 3, 380, 1653890243)
  {
    FiveSteps(FirstState(bot), 6371772, 481644691, 812916839, 1487537385, 1653890243);
  }

  /** He plays them at these times, for these scores. */
  lemma JonasPlays(p: Plan, roundStart: int)
    requires p == Plan(3, 66, 3, 380, 1653890243)
    ensures PlayTime(p, roundStart, WEEK, 0) == roundStart + 18144
    ensures PlayTime(p, roundStart, WEEK, 1) == roundStart + 213696
    ensures PlayTime(p, roundStart, WEEK, 2) == roundStart + 409248
    ensures ScoresOf(p, 1) == [245] && ScoresOf(p, 2) == [245, 283] && ScoresOf(p, 3) == [245, 283, 260]
  {
    assert Share(p, 0) == 9 && Share(p, 1) == 106 && Share(p, 2) == 203;
    ThreeSteps(p.state, 83858981, 2097680903, 1153429016);
    JonasScores(p);
  }

  lemma JonasScores(p: Plan)
    requires p == Plan(3, 66, 3, 380, 1653890243)
    requires PmTimes(p.state, 1) == 83858981 && PmTimes(p.state, 2) == 2097680903 && PmTimes(p.state, 3) == 1153429016
    ensures ScoresOf(p, 1) == [245] && ScoresOf(p, 2) == [245, 283] && ScoresOf(p, 3) == [245, 283, 260]
  {
    assert PlayScore(p, 0) == 245 && PlayScore(p, 1) == 283 && PlayScore(p, 2) == 260;
  }

  lemma FiveSteps(x: int, a: int, b: int, c: int, d: int, e: int)
    requires Pm(x) == a && Pm(a) == b && Pm(b) == c && Pm(c) == d && Pm(d) == e
    ensures PmTimes(x, 3) == c && PmTimes(x, 4) == d && PmTimes(x, 5) == e
  {
    assert PmTimes(x, 0) == x && PmTimes(x, 1) == a && PmTimes(x, 2) == b;
  }

  lemma ThreeSteps(x: int, a: int, b: int, c: int)
    requires Pm(x) == a && Pm(a) == b && Pm(b) == c
    ensures PmTimes(x, 1) == a && PmTimes(x, 2) == b && PmTimes(x, 3) == c
  {
    assert PmTimes(x, 0) == x;
  }
}
