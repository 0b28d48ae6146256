/** The tier ladder: calendars, moves up and down, absence, and the capped top tier. A tier is its
    position in the table, bottom first. */
module Tiers {
  import opened Arithmetic
  import opened Standings

  const DAY_SECONDS := 86400
  const ROUND_EPOCH_OFFSET := 345600

  datatype WhenInactive = Stay | Drop

  /** Present only for a capped tier; a missing minimum or a missing ratio has a default. */
  datatype SlotRule = Uncapped | Capped(maxSlots: int, minSlots: SlotSetting, playersPerSlot: SlotSetting)

  datatype SlotSetting = Missing | Given(value: int)

  /** `fillTo` is the size bots top a group up to, 0 where the tier has none. */
  datatype Tier = Tier(roundDays: nat, rule: TierRule, inactive: WhenInactive, floor: bool, global: bool, fillTo: nat,
                       slots: SlotRule)

  datatype Outcome = Promoted | Stayed | Relegated | InactiveFrozen | InactiveRelegated

  type Ladder = ts: seq<Tier> | ts != [] witness [Tier(0, TierRule(ByPercent, 0, 0, 0, 0), Stay, false, false, 0, Uncapped)]

  // ----- calendars -----

  predicate HasRounds(t: Tier) {
    t.roundDays > 0
  }

  function RoundSeconds(t: Tier): nat {
    t.roundDays * DAY_SECONDS
  }

  /** Floor division, also before the epoch; a tier without rounds lives in round 0. */
  function RoundIndex(t: Tier, time: int): int {
    if !HasRounds(t) then 0 else (time - ROUND_EPOCH_OFFSET) / RoundSeconds(t)
  }

  function RoundStart(t: Tier, index: int): int {
    if !HasRounds(t) then 0 else index * RoundSeconds(t) + ROUND_EPOCH_OFFSET
  }

  function RoundEnd(t: Tier, index: int): int {
    if !HasRounds(t) then 0 else RoundStart(t, index + 1)
  }

  /** Every instant lies in exactly the round its index names. */
  lemma RoundContains(t: Tier, time: int, k: int)
    requires HasRounds(t)
    ensures RoundIndex(t, time) == k <==> RoundStart(t, k) <= time < RoundEnd(t, k)
  {
    FloorUnique(time - ROUND_EPOCH_OFFSET, RoundSeconds(t), k);
  }

  /** Rounds of so many days, back to back, one of them starting on Monday 1970-01-05 at midnight; a tier
      without rounds has round 0 only. */
  lemma CalendarMeans(t: Tier, time: int, k: int)
    ensures t.roundDays > 0 ==>
      && RoundStart(t, 0) == 4 * 86400 && RoundEnd(t, k) == RoundStart(t, k + 1) == RoundStart(t, k) + t.roundDays * 86400
      && (RoundIndex(t, time) == k <==> RoundStart(t, k) <= time < RoundEnd(t, k))
    ensures t.roundDays == 0 ==> RoundIndex(t, time) == 0 && RoundStart(t, k) == 0 && RoundEnd(t, k) == 0
  {
    if t.roundDays > 0 {
      RoundContains(t, time, k);
      ProductOrder(k, k + 1, RoundSeconds(t));
    }
  }

  lemma StartsItsRound(t: Tier, k: int)
    requires HasRounds(t)
    ensures RoundIndex(t, RoundStart(t, k)) == k
    ensures RoundStart(t, k) < RoundEnd(t, k)
  {
    ProductOrder(k, k + 1, RoundSeconds(t));
    RoundContains(t, RoundStart(t, k), k);
  }

  /** A round has ended exactly when a later one is running. */
  lemma EndedBefore(t: Tier, k: int, time: int)
    requires HasRounds(t)
    ensures RoundEnd(t, k) <= time <==> k < RoundIndex(t, time)
  {
    var d, i := RoundSeconds(t), RoundIndex(t, time);
    RoundContains(t, time, i);
    ProductOrder(k + 1, i + 1, d);
    ProductOrder(i, k + 1, d);
  }

  lemma IndexOrdered(t: Tier, a: int, b: int)
    requires a <= b
    ensures RoundIndex(t, a) <= RoundIndex(t, b)
  {
    if HasRounds(t) {
      var k := RoundIndex(t, a) - 1;
      EndedBefore(t, k, a);
      EndedBefore(t, k, b);
    }
  }

  // ----- up and down the ladder -----

  function PromoteTier(ts: Ladder, i: nat): (r: nat)
    requires i < |ts|
    ensures r < |ts|
  {
    if i + 1 > |ts| - 1 then |ts| - 1 else i + 1
  }

  /** One down, except from the bottom and from a floor tier. */
  function RelegateTier(ts: Ladder, i: nat): (r: nat)
    requires i < |ts|
    ensures r < |ts|
  {
    if ts[i].floor then i else if i == 0 then 0 else i - 1
  }

  /** A round without a game; a floor tier never relegates, whatever its setting says. */
  function InactiveOutcome(t: Tier): Outcome {
    if t.floor then InactiveFrozen
    else if t.inactive == Drop then InactiveRelegated
    else InactiveFrozen
  }

  function Apply(ts: Ladder, i: nat, outcome: Outcome): (r: nat)
    requires i < |ts|
    ensures r < |ts|
  {
    match outcome
    case Promoted => PromoteTier(ts, i)
    case Relegated => RelegateTier(ts, i)
    case InactiveRelegated => RelegateTier(ts, i)
    case _ => i
  }

  function OutcomeForZone(zone: Zone): Outcome {
    match zone
    case Promote => Promoted
    case Relegate => Relegated
    case Safe => Stayed
  }

  // ----- absence -----

  /** The rounds missed one by one. */
  function MissOneByOne(ts: Ladder, i: nat, missed: nat): (r: nat)
    requires i < |ts|
    ensures r < |ts|
  {
    if missed == 0 then i else MissOneByOne(ts, Apply(ts, i, InactiveOutcome(ts[i])), missed - 1)
  }

  /** A tier whose inactive outcome changes nothing keeps its players for good. */
  lemma {:induction false} MissingChangesNothing(ts: Ladder, i: nat, missed: nat)
    requires i < |ts| && Apply(ts, i, InactiveOutcome(ts[i])) == i
    ensures MissOneByOne(ts, i, missed) == i
  {
    if missed > 0 {
      MissingChangesNothing(ts, i, missed - 1);
    }
  }

  /** `catchUp`, second half: all missed rounds in one shot. The walk down is bounded by the number
      of tiers, and that bound never cuts it short. */
  method CollapseAbsence(ts: Ladder, tier: nat, missedRounds: nat) returns (after: nat)
    requires tier < |ts|
    ensures after == MissOneByOne(ts, tier, missedRounds)
  {
    var outcome := InactiveOutcome(ts[tier]);
    var cur: nat := tier;
    var missed: nat := missedRounds;
    if outcome == InactiveRelegated {
      var steps := 0;
      while missed > 0 && steps < |ts|
        invariant cur < |ts| && steps + cur == tier && steps >= 0
        invariant MissOneByOne(ts, cur, missed) == MissOneByOne(ts, tier, missedRounds)
        decreases missed
      {
        if InactiveOutcome(ts[cur]) != InactiveRelegated {
          break;
        }
        var next := RelegateTier(ts, cur);
        if next == cur {
          break;
        }
        cur := next;
        missed := missed - 1;
        steps := steps + 1;
      }
    }
    if missed > 0 {
      MissingChangesNothing(ts, cur, missed);
    }
    after := cur;
  }

  /** Absence never takes a player from a floor tier or above to below it, and never up. */
  lemma {:induction false} FloorHolds(ts: Ladder, i: nat, missed: nat, floor: nat)
    requires floor <= i < |ts| && ts[floor].floor
    ensures floor <= MissOneByOne(ts, i, missed) <= i
  {
    if missed > 0 {
      FloorHolds(ts, Apply(ts, i, InactiveOutcome(ts[i])), missed - 1, floor);
    }
  }

  // ----- the capped top tier -----

  function Clamp(v: int, lo: int, hi: int): int {
    if v < lo then lo else if v > hi then hi else v
  }

  /** -1 when the tier is not capped. */
  function Slots(rule: SlotRule, belowPlayers: int): int
    requires belowPlayers >= 0
  {
    match rule
    case Uncapped => -1
    case Capped(maxSlots, minSlots, perSlot) =>
      var per := if perSlot.Given? && perSlot.value > 1 then perSlot.value else 10;
      var least := if minSlots.Given? then minSlots.value else 1;
      Clamp(belowPlayers / per, least, maxSlots)
  }

  predicate RatioIs(s: SlotSetting, d: nat) {
    if s == Missing || s.value <= 1 then d == 10 else d == s.value
  }

  predicate LeastIs(s: SlotSetting, lo: int) {
    if s == Missing then lo == 1 else lo == s.value
  }

  /** From the minimum to the maximum, in between one place per d players. */
  predicate PlacesFor(below: int, d: int, lo: int, hi: int, k: int) {
    lo <= k <= hi && (k > lo ==> k * d <= below) && (k < hi ==> below < (k + 1) * d)
  }

  /** d players per place, at least lo places, and a maximum that is not below that. */
  predicate SaneCap(rule: SlotRule, d: nat, lo: int) {
    && rule.Capped? && RatioIs(rule.playersPerSlot, d) && LeastIs(rule.minSlots, lo)
    && lo <= rule.maxSlots && 0 <= rule.maxSlots
  }

  lemma SlotsMean(rule: SlotRule, below: nat, d: nat, lo: int, k: int)
    requires rule.Capped? && RatioIs(rule.playersPerSlot, d) && LeastIs(rule.minSlots, lo) && lo <= rule.maxSlots
    ensures Slots(rule, below) == k <==> PlacesFor(below, d, lo, rule.maxSlots, k)
  {
    PlacesExist(below, d, lo, rule.maxSlots);
    if PlacesFor(below, d, lo, rule.maxSlots, k) {
      PlacesOnce(below, d, lo, rule.maxSlots, Slots(rule, below), k);
    }
  }

  lemma PlacesExist(below: nat, d: nat, lo: int, hi: int)
    requires d > 1 && lo <= hi
    ensures PlacesFor(below, d, lo, hi, Clamp(below / d, lo, hi))
  {
    var q, k := below / d, Clamp(below / d, lo, hi);
    FloorUnique(below, d, q);
    ProductOrder(q, k, d);
    ProductOrder(k, q, d);
    ProductOrder(q + 1, k + 1, d);
    ProductOrder(k + 1, q + 1, d);
  }

  lemma PlacesOnce(below: nat, d: nat, lo: int, hi: int, k: int, l: int)
    requires d > 1 && PlacesFor(below, d, lo, hi, k) && PlacesFor(below, d, lo, hi, l)
    ensures k == l
  {
    ProductOrder(k, l + 1, d);
    ProductOrder(l, k + 1, d);
  }

  function Leaving(capped: Tier, minGroupSize: int, members: nat): int {
    Counts(members, capped.rule, minGroupSize, 0, -1).down
  }

  function Openings(capped: Tier, minGroupSize: int, belowPlayers: nat, members: nat): int {
    var total := Slots(capped.slots, belowPlayers);
    if total < 0 then 0
    else
      var v := total - (members - Leaving(capped, minGroupSize, members));
      if v < 0 then 0 else v
  }

  /** v places are given out: with k in all and `stayed` of them taken, those that are left. */
  ghost predicate OpeningsAre(rule: SlotRule, below: nat, d: nat, lo: int, stayed: int, v: int) {
    rule.Capped? && exists k :: PlacesFor(below, d, lo, rule.maxSlots, k) && v == if k > stayed then k - stayed else 0
  }

  lemma OpeningsMean(capped: Tier, minGroupSize: int, below: nat, members: nat, d: nat, lo: int, v: int)
    requires SaneCap(capped.slots, d, lo)
    ensures Openings(capped, minGroupSize, below, members) == v <==>
      OpeningsAre(capped.slots, below, d, lo, members - Leaving(capped, minGroupSize, members), v)
    ensures Openings(capped.(slots := Uncapped), minGroupSize, below, members) == 0
  {
    PlacesLeft(capped.slots, below, d, lo, members - Leaving(capped, minGroupSize, members), v);
  }

  lemma PlacesLeft(rule: SlotRule, below: nat, d: nat, lo: int, stayed: int, v: int)
    requires SaneCap(rule, d, lo)
    ensures var k := Slots(rule, below);
      0 <= k && (OpeningsAre(rule, below, d, lo, stayed, v) <==> v == if k > stayed then k - stayed else 0)
  {
    var k := Slots(rule, below);
    SlotsMean(rule, below, d, lo, k);
    forall l | PlacesFor(below, d, lo, rule.maxSlots, l)
      ensures l == k
    {
      SlotsMean(rule, below, d, lo, l);
    }
  }

  /** The relegations the openings assume are the ones the close of the capped tier makes, whoever
      leads it. */
  lemma LeavingIsExact(capped: Tier, minGroupSize: int, inGroup: seq<Entry>)
    requires SaneRule(capped.rule)
    ensures CountsFor(inGroup, capped.rule, minGroupSize, -1).down == Leaving(capped, minGroupSize, |inGroup|)
    ensures RelegatedAmong(inGroup, CountsFor(inGroup, capped.rule, minGroupSize, -1), |inGroup|)
      == Leaving(capped, minGroupSize, |inGroup|)
  {
    CountsFit(|inGroup|, capped.rule, minGroupSize, LeaderScore(inGroup), -1);
    RelegatedExactly(inGroup, CountsFor(inGroup, capped.rule, minGroupSize, -1), |inGroup|);
  }

  /** The players of the capped tier after both tiers closed, one group each. */
  function CappedAfter(below: seq<Entry>, belowTier: Tier, inGroup: seq<Entry>, capped: Tier, minGroupSize: int): int {
    var up := Openings(capped, minGroupSize, |below|, |inGroup|);
    |inGroup|
      - RelegatedAmong(inGroup, CountsFor(inGroup, capped.rule, minGroupSize, -1), |inGroup|)
      + PromotedAmong(below, CountsFor(below, belowTier.rule, minGroupSize, up), |below|)
  }

  /** The close can fill every opening. */
  predicate CanFill(below: seq<Entry>, belowTier: Tier, minGroupSize: int, openings: int) {
    || openings == 0
    || (&& 0 < openings <= |below| && below[openings - 1].score > 0
        && (|below| >= minGroupSize || (openings == 1 && below[0].score >= belowTier.rule.minPromoScore)))
  }

  lemma PromotedFillOpenings(below: seq<Entry>, belowTier: Tier, minGroupSize: int, openings: int)
    requires Ranked(below) && belowTier.rule.upMode == ByOpenings && openings >= 0
    ensures var p := PromotedAmong(below, CountsFor(below, belowTier.rule, minGroupSize, openings), |below|);
      0 <= p <= openings && (p == openings <==> CanFill(below, belowTier, minGroupSize, openings))
  {
    var c := CountsFor(below, belowTier.rule, minGroupSize, openings);
    PromotedAtMost(below, c, |below|);
    if openings > 0 && openings <= |below| {
      var last := below[openings - 1];
      forall i | 0 <= i < openings - 1
        ensures below[i].score >= last.score
      {
        assert !Before(last, below[i]);
      }
      if last.score <= 0 {
        PromotedNeedScores(below, c, |below|, openings - 1);
      }
    }
  }

  lemma {:induction false} PromotedNeedScores(ranked: seq<Entry>, c: CountsResult, k: nat, i: nat)
    requires Ranked(ranked) && k <= |ranked| && i < |ranked| && ranked[i].score <= 0
    ensures PromotedAmong(ranked, c, k) <= i
  {
    if k > 0 {
      PromotedNeedScores(ranked, c, k - 1, i);
      if k - 1 < i {
        PromotedAtMost(ranked, c, k);
      } else {
        assert k - 1 > i ==> !Before(ranked[k - 1], ranked[i]);
      }
    }
  }

  /** Counted in slots: at most the slots, or what was left of the tier if that was more, and exactly
      that many when the tier below can fill the openings. */
  lemma CapInSlots(below: seq<Entry>, belowTier: Tier, inGroup: seq<Entry>, capped: Tier, minGroupSize: int)
    requires Ranked(below) && belowTier.rule.upMode == ByOpenings
    requires SaneRule(capped.rule) && capped.slots.Capped? && Slots(capped.slots, |below|) >= 0
    ensures var remaining := |inGroup| - Leaving(capped, minGroupSize, |inGroup|);
      var slots := Slots(capped.slots, |below|);
      var after := CappedAfter(below, belowTier, inGroup, capped, minGroupSize);
      && remaining <= after <= (if slots > remaining then slots else remaining)
      && (after == (if slots > remaining then slots else remaining) <==>
            CanFill(below, belowTier, minGroupSize, Openings(capped, minGroupSize, |below|, |inGroup|)))
  {
    LeavingIsExact(capped, minGroupSize, inGroup);
    PromotedFillOpenings(below, belowTier, minGroupSize, Openings(capped, minGroupSize, |below|, |inGroup|));
  }

  /** The cap, in players: a tier that took anybody in holds at most its maximum, and beyond its minimum
      has d players of the tier below for every place. */
  predicate CapKept(below: int, d: int, lo: int, hi: int, stayed: int, after: int) {
    after >= stayed && (after > stayed ==> after <= hi && (after > lo ==> after * d <= below))
  }

  /** And it is used up: nobody more may come in. */
  predicate CapReached(below: int, d: int, lo: int, hi: int, after: int) {
    after >= lo && (after < hi ==> below < (after + 1) * d)
  }

  /** The cap holds: after both closes the capped tier keeps its cap, and the cap is used up exactly
      when the tier below can fill the openings. */
  lemma CapHolds(below: seq<Entry>, belowTier: Tier, inGroup: seq<Entry>, capped: Tier, minGroupSize: int, d: nat, lo: int)
    requires Ranked(below) && belowTier.rule.upMode == ByOpenings
    requires SaneRule(capped.rule) && SaneCap(capped.slots, d, lo)
    ensures var stayed := |inGroup| - Leaving(capped, minGroupSize, |inGroup|);
      var after := CappedAfter(below, belowTier, inGroup, capped, minGroupSize);
      && CapKept(|below|, d, lo, capped.slots.maxSlots, stayed, after)
      && (CapReached(|below|, d, lo, capped.slots.maxSlots, after) <==>
            CanFill(below, belowTier, minGroupSize, Openings(capped, minGroupSize, |below|, |inGroup|)))
  {
    SlotsNotNegative(capped.slots, |below|, d, lo);
    CapInSlots(below, belowTier, inGroup, capped, minGroupSize);
    SlotsAreTheCap(capped.slots, |below|, d, lo, |inGroup| - Leaving(capped, minGroupSize, |inGroup|),
                   CappedAfter(below, belowTier, inGroup, capped, minGroupSize));
  }

  lemma SlotsNotNegative(rule: SlotRule, below: nat, d: nat, lo: int)
    requires SaneCap(rule, d, lo)
    ensures Slots(rule, below) >= 0
  {
    DivideOrdered(0, below, d);
  }

  lemma SlotsAreTheCap(rule: SlotRule, below: nat, d: nat, lo: int, stayed: int, after: int)
    requires SaneCap(rule, d, lo)
    requires stayed <= after <= (if Slots(rule, below) > stayed then Slots(rule, below) else stayed)
    ensures CapKept(below, d, lo, rule.maxSlots, stayed, after)
    ensures CapReached(below, d, lo, rule.maxSlots, after) <==>
      after == if Slots(rule, below) > stayed then Slots(rule, below) else stayed
  {
    SlotsMean(rule, below, d, lo, Slots(rule, below));
    CapInPlayers(below, d, lo, rule.maxSlots, Slots(rule, below), stayed, after);
  }

  lemma CapInPlayers(below: nat, d: nat, lo: int, hi: int, slots: int, stayed: int, after: int)
    requires d > 1 && PlacesFor(below, d, lo, hi, slots)
    requires stayed <= after <= (if slots > stayed then slots else stayed)
    ensures CapKept(below, d, lo, hi, stayed, after)
    ensures CapReached(below, d, lo, hi, after) <==> after == if slots > stayed then slots else stayed
  {
    ProductOrder(after, slots, d);
    ProductOrder(slots, after, d);
    ProductOrder(slots, after + 1, d);
  }
}
