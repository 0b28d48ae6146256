/** One player's season in the shipped table, from registration on: two runs at whose end the server
    does less than it promises. */
module SeasonExamples {
  import opened Tiers
  import opened Standings
  import opened Season
  import opened SeasonInvariant
  import opened SeasonRuns
  import opened SeasonCatchUp
  import opened SeasonClock

  const ANN := PlayerId(1)
  const GOLD: nat := 2
  const PLATINUM: nat := 3

  /** The k-th round change of every tier with rounds. */
  function Change(k: int): int {
    k * 7 * DAY_SECONDS + ROUND_EPOCH_OFFSET
  }

  lemma Calendar(t: nat, time: int, k: int)
    requires GOLD <= t < 6 && Change(k) <= time < Change(k + 1)
    ensures Index(SHIPPED, t, time) == k && Start(SHIPPED, t, k) == Change(k) && End(SHIPPED, RoundKey(t, k)) == Change(k + 1)
  {
    RoundContains(Cfg(SHIPPED, t), time, k);
  }

  lemma NoCalendar(t: nat, time: int)
    requires t < GOLD
    ensures Index(SHIPPED, t, time) == 0 && Start(SHIPPED, t, 0) == 0
  {
  }

  /** The tables of the story, but for the summaries. */
  ghost predicate Stands(w: World, clock: int, ann: Player, rounds: Rounds, groups: Groups, members: Members) {
    && w.clock == clock && w.db.players == map[ANN := ann]
    && w.db.rounds == rounds && w.db.groups == groups && w.db.members == members
  }

  /** Reached from an empty league. */
  ghost predicate Reached(w: World) {
    exists steps :: Leads(SHIPPED, EmptyLeague(Change(0)), steps, w)
  }

  ghost predicate HarmlessRun(steps: seq<Step>, w: World) {
    Leads(SHIPPED, EmptyLeague(Change(0)), steps, w) && AllHarmless(SHIPPED, EmptyLeague(Change(0)), steps)
  }

  /** Reached without anything coming too late. */
  ghost predicate ReachedInTime(w: World) {
    exists steps :: HarmlessRun(steps, w)
  }

  lemma ReachedNext(w: World, s: Step)
    requires ReachedInTime(w) && Enabled(SHIPPED, w, s) && Harmless(SHIPPED, w, s)
    ensures ReachedInTime(Next(SHIPPED, w, s))
  {
    var steps :| HarmlessRun(steps, w);
    RunExtends(SHIPPED, EmptyLeague(Change(0)), steps, w, s);
    HarmlessExtends(SHIPPED, EmptyLeague(Change(0)), steps, w, s);
    assert HarmlessRun(steps + [s], Next(SHIPPED, w, s));
  }

  lemma AnyNext(w: World, s: Step)
    requires ReachedInTime(w) && Enabled(SHIPPED, w, s)
    ensures Reached(Next(SHIPPED, w, s))
  {
    var steps :| HarmlessRun(steps, w);
    RunExtends(SHIPPED, EmptyLeague(Change(0)), steps, w, s);
  }

  // ----- from registration to Gold -----

  lemma Signs() returns (w: World)
    ensures ReachedInTime(w) && Stands(w, Change(0), Player(0, 0, 0), map[], map[], map[])
  {
    var w0 := EmptyLeague(Change(0));
    assert HarmlessRun([], w0);
    var s := Step(Change(0), Registers(ANN));
    NoCalendar(0, Change(0));
    ReachedNext(w0, s);
    w := Next(SHIPPED, w0, s);
  }

  /** A game: the points, and the member row where there is one. */
  lemma Plays(w: World, ann: Player, rounds: Rounds, groups: Groups, members: Members, index: int, points: nat, games: nat)
      returns (v: World)
    requires ReachedInTime(w) && Stands(w, w.clock, ann, rounds, groups, members) && Index(SHIPPED, ann.tier, w.clock) == index
    ensures ReachedInTime(v) && Stands(v, w.clock, ann.(points := ann.points + points), rounds, groups,
      var m := MemberKey(ANN, RoundKey(ann.tier, index));
      if m in members then members[m := members[m].(score := points, games := games, lastSubmit := w.clock)] else members)
  {
    var s := Step(w.clock, Scores(ANN, RoundKey(ann.tier, index), points, points, games, w.clock));
    ReachedNext(w, s);
    v := Next(SHIPPED, w, s);
  }

  lemma ClimbedRow(t: nat)
    requires t < GOLD
    ensures var from := Player(t, PromoScoreOf(SHIPPED.tiers[t].rule), 0);
      PromotesByScore(SHIPPED, from) && PromoteTier(SHIPPED.tiers, t) == t + 1
      && Moved(from, t + 1, Start(SHIPPED, t + 1, Index(SHIPPED, t + 1, Change(0)))) == Player(t + 1, 0, if t + 1 == GOLD then Change(0) else 0)
  {
    NoCalendar(t, Change(0));
    if t + 1 == GOLD {
      Calendar(GOLD, Change(0), 0);
    } else {
      NoCalendar(t + 1, Change(0));
    }
  }

  lemma Climbs(w: World, t: nat) returns (v: World)
    requires ReachedInTime(w) && t < GOLD
    requires Stands(w, Change(0), Player(t, PromoScoreOf(SHIPPED.tiers[t].rule), 0), map[], map[], map[])
    ensures ReachedInTime(v) && Stands(v, Change(0), Player(t + 1, 0, if t + 1 == GOLD then Change(0) else 0), map[], map[], map[])
  {
    ClimbedRow(t);
    ReachedNext(w, Step(Change(0), Promotes(ANN)));
    v := Next(SHIPPED, w, Step(Change(0), Promotes(ANN)));
  }

  lemma ReachesGold() returns (w: World)
    ensures ReachedInTime(w) && Stands(w, Change(0), Player(GOLD, 0, Change(0)), map[], map[], map[])
  {
    w := Signs();
    w := PlaysUp(w, 0);
    w := PlaysUp(w, 1);
  }

  lemma PlaysUp(w: World, t: nat) returns (v: World)
    requires ReachedInTime(w) && t < GOLD && Stands(w, Change(0), Player(t, 0, 0), map[], map[], map[])
    ensures ReachedInTime(v) && Stands(v, Change(0), Player(t + 1, 0, if t + 1 == GOLD then Change(0) else 0), map[], map[], map[])
  {
    NoCalendar(t, Change(0));
    v := Plays(w, Player(t, 0, 0), map[], map[], map[], 0, PromoScoreOf(SHIPPED.tiers[t].rule), 0);
    v := Climbs(v, t);
  }

  // ----- a round of Gold -----

  function OpenRound(k: int, groupSeq: nat): Round {
    Round(Open, Change(k + 1), groupSeq, NoPair, -1)
  }

  lemma RowOfNewRound(db: Db, key: RoundKey, now: int)
    requires GOLD <= key.tier < 6 && Change(key.index) <= now < Change(key.index + 1) && key !in db.rounds
    ensures EnsureRound(SHIPPED, db, key) == db.(rounds := db.rounds[key := OpenRound(key.index, 0)])
    ensures InRounds(SHIPPED, key.tier) && key.index == Index(SHIPPED, key.tier, now)
  {
    Calendar(key.tier, now, key.index);
  }

  lemma OpensRound(w: World, ann: Player, rounds: Rounds, groups: Groups, members: Members, now: int, key: RoundKey) returns (v: World)
    requires ReachedInTime(w) && Stands(w, w.clock, ann, rounds, groups, members) && w.clock <= now
    requires GOLD <= key.tier < 6 && Change(key.index) <= now < Change(key.index + 1) && key !in rounds
    ensures ReachedInTime(v) && Stands(v, now, ann, rounds[key := OpenRound(key.index, 0)], groups, members)
  {
    RowOfNewRound(w.db, key, now);
    ReachedNext(w, Step(now, Ensures(key)));
    v := Next(SHIPPED, w, Step(now, Ensures(key)));
  }

  function FirstGroup(key: RoundKey): GroupId {
    GroupId(key, 1)
  }

  const ROOM: Group := Group(false, Limited(30), 1, true)

  /** The first to join a round opens its first group. */
  lemma Enters(w: World, ann: Player, rounds: Rounds, groups: Groups, members: Members, key: RoundKey) returns (v: World)
    requires ReachedInTime(w) && Stands(w, w.clock, ann, rounds, groups, members)
    requires GOLD <= key.tier < 4 && key == RoundKey(ann.tier, Index(SHIPPED, ann.tier, w.clock))
    requires key in rounds && rounds[key] == OpenRound(key.index, 0) && MemberKey(ANN, key) !in members
    requires (forall g :: g in groups ==> g.round != key) && CaughtUp(SHIPPED, w.db, ANN, w.clock)
    requires Missed(SHIPPED, ann, w.clock) <= 0
    ensures ReachedInTime(v) && Stands(v, w.clock, ann, rounds[key := OpenRound(key.index, 1)], groups[FirstGroup(key) := ROOM],
                                 members[MemberKey(ANN, key) := NewMember(FirstGroup(key))])
  {
    var s := Step(w.clock, Joins(ANN, AllAt(w.clock), key, false, NoWish, FirstGroup(key)));
    assert Placement(SHIPPED, w.db, key, false, NoWish, FirstGroup(key));
    ReachedNext(w, s);
    v := Next(SHIPPED, w, s);
  }

  const LAST_WEEK := RoundKey(GOLD, 0)
  const LAST_WEEK_ABOVE := RoundKey(PLATINUM, 0)
  const ROUNDS: Rounds := map[LAST_WEEK := OpenRound(0, 1), LAST_WEEK_ABOVE := OpenRound(0, 0)]
  const GROUPS: Groups := map[FirstGroup(LAST_WEEK) := ROOM]
  const SEAT := MemberKey(ANN, LAST_WEEK)
  const MEMBERS: Members := map[SEAT := Member(FirstGroup(LAST_WEEK), 1500, 1, Change(0), false, Undecided)]

  const NEWCOMER := Player(GOLD, 0, Change(0))
  const FRESH: Rounds := map[LAST_WEEK_ABOVE := OpenRound(0, 0), LAST_WEEK := OpenRound(0, 0)]

  lemma TakesSeat() returns (w: World)
    ensures ReachedInTime(w) && Stands(w, Change(0), NEWCOMER, ROUNDS, GROUPS, map[SEAT := NewMember(FirstGroup(LAST_WEEK))])
  {
    w := ReachesGold();
    w := OpensRound(w, NEWCOMER, map[], map[], map[], Change(0), LAST_WEEK_ABOVE);
    w := OpensRound(w, NEWCOMER, map[LAST_WEEK_ABOVE := OpenRound(0, 0)], map[], map[], Change(0), LAST_WEEK);
    Calendar(GOLD, Change(0), 0);
    w := Enters(w, NEWCOMER, FRESH, map[], map[], LAST_WEEK);
    assert FRESH[LAST_WEEK := OpenRound(0, 1)] == ROUNDS;
  }

  /** In her first week in Gold Ann plays one game; somebody opens the same week of Platinum. */
  lemma PlaysInGold() returns (w: World)
    ensures ReachedInTime(w) && Stands(w, Change(0), Player(GOLD, 1500, Change(0)), ROUNDS, GROUPS, MEMBERS)
  {
    w := TakesSeat();
    Calendar(GOLD, Change(0), 0);
    w := Plays(w, NEWCOMER, ROUNDS, GROUPS, map[SEAT := NewMember(FirstGroup(LAST_WEEK))], 0, 1500, 1);
  }

  lemma ReachedIsSound(w: World)
    requires ReachedInTime(w)
    ensures SoundTable(SHIPPED) && Inv(SHIPPED, w)
  {
    var steps :| HarmlessRun(steps, w);
    ShippedIsSound();
    EmptyIsSound(SHIPPED, Change(0));
    RunKeeps(SHIPPED, EmptyLeague(Change(0)), steps, w);
  }

  // ----- the close that promotes her -----

  const BOTS: seq<Entry> := seq(29, i => Entry(100 + i, 380, 1, Change(0), false, true))
  const RANKED: seq<Entry> := [Entry(1, 1500, 1, Change(0), false, false)] + BOTS
  const FIRST: Verdicts := map[ANN := Decided(1, Promote)]

  lemma AnnLeads()
    ensures GroupRanking(MEMBERS, FirstGroup(LAST_WEEK), RANKED) && |RANKED| == 30
    ensures RANKED[0] == EntryOf(ANN, MEMBERS[SEAT]) && forall i :: 0 < i < 30 ==> RANKED[i].bot
  {
    assert forall i :: 0 < i < 30 ==> RANKED[i] == Entry(99 + i, 380, 1, Change(0), false, true);
    assert RANKED[0] in RANKED;
  }

  /** Of thirty, six go up. */
  lemma AnnIsPromoted(db: Db)
    requires db.members == MEMBERS && LAST_WEEK in db.rounds && db.rounds[LAST_WEEK].upCount == -1
    ensures Judged(SHIPPED, db, FirstGroup(LAST_WEEK), FIRST)
  {
    AnnLeads();
    var c := CountsFor(RANKED, SHIPPED.tiers[GOLD].rule, SHIPPED.minGroupSize, -1);
    assert c == CountsResult(6, 0);
    assert JudgedAs(SHIPPED, db, FirstGroup(LAST_WEEK), RANKED, FIRST);
  }

  const CLAIMED: Rounds := ROUNDS[LAST_WEEK := OpenRound(0, 1).(state := Closing)]
  const CLOSED: Rounds := ROUNDS[LAST_WEEK := OpenRound(0, 1).(state := Closed)]
  const PROMOTED := Player(PLATINUM, 0, Change(1))
  const EMPTIED: Groups := map[FirstGroup(LAST_WEEK) := ROOM.(open := false)]
  const JUDGED: Members := map[SEAT := MEMBERS[SEAT].(verdict := Decided(1, Promote))]

  lemma Claims(w: World) returns (v: World, s: Step)
    requires Stands(w, Change(0), Player(GOLD, 1500, Change(0)), ROUNDS, GROUPS, MEMBERS)
    ensures s == Step(Change(1), Season.Claims(LAST_WEEK)) && Enabled(SHIPPED, w, s) && v == Next(SHIPPED, w, s)
    ensures Stands(v, Change(1), Player(GOLD, 1500, Change(0)), CLAIMED, GROUPS, MEMBERS)
  {
    s := Step(Change(1), Season.Claims(LAST_WEEK));
    v := Next(SHIPPED, w, s);
  }

  lemma AnnIsStaying()
    ensures Staying(MEMBERS, FirstGroup(LAST_WEEK)) == {ANN} == InGroup(MEMBERS, FirstGroup(LAST_WEEK))
  {
    assert SEAT in MEMBERS && MEMBERS[SEAT].group == FirstGroup(LAST_WEEK) && SEAT.player == ANN;
  }

  lemma AnnWillHit(w: World)
    requires Inv(SHIPPED, w) && w.db.members == MEMBERS && w.db.groups == GROUPS
    ensures Hits(w.db, LAST_WEEK, ANN)
  {
    AnnIsStaying();
    SettlingHits(SHIPPED, w, FirstGroup(LAST_WEEK), ANN);
  }

  lemma GoldPromotes()
    ensures SettledPlayer(SHIPPED, Player(GOLD, 1500, Change(0)), LAST_WEEK, Decided(1, Promote), Change(1)) == PROMOTED
  {
    Calendar(PLATINUM, Change(1), 1);
  }

  lemma CloseMovesAnn(db: Db)
    requires db.players == map[ANN := Player(GOLD, 1500, Change(0))] && db.rounds == CLAIMED
    requires db.groups == GROUPS && db.members == MEMBERS && Hits(db, LAST_WEEK, ANN)
    ensures CloseGroup(SHIPPED, db, FirstGroup(LAST_WEEK), FIRST).players == map[ANN := PROMOTED]
  {
    AnnIsStaying();
    GoldPromotes();
  }

  lemma AnnGetsHerVerdict()
    ensures MembersAfter(MEMBERS, FirstGroup(LAST_WEEK), FIRST, {ANN}) == JUDGED
    ensures GROUPS[FirstGroup(LAST_WEEK) := GROUPS[FirstGroup(LAST_WEEK)].(open := false)] == EMPTIED
  {
  }

  lemma CloseJudgesAnn(db: Db)
    requires db.rounds == CLAIMED && db.groups == GROUPS && db.members == MEMBERS
    ensures var v := CloseGroup(SHIPPED, db, FirstGroup(LAST_WEEK), FIRST);
      v.rounds == CLAIMED && v.groups == EMPTIED && v.members == JUDGED
  {
    AnnIsStaying();
    AnnGetsHerVerdict();
  }

  lemma Closes(w: World) returns (v: World, s: Step)
    requires Inv(SHIPPED, w) && Stands(w, Change(1), Player(GOLD, 1500, Change(0)), CLAIMED, GROUPS, MEMBERS)
    ensures s == Step(Change(1), Season.Closes(FirstGroup(LAST_WEEK), FIRST)) && Enabled(SHIPPED, w, s) && v == Next(SHIPPED, w, s)
    ensures Stands(v, Change(1), PROMOTED, CLAIMED, EMPTIED, JUDGED)
  {
    AnnWillHit(w);
    AnnIsPromoted(w.db);
    CloseMovesAnn(w.db);
    CloseJudgesAnn(w.db);
    s := Step(Change(1), Season.Closes(FirstGroup(LAST_WEEK), FIRST));
    v := Next(SHIPPED, w, s);
  }

  /** A closer sees no open group, and finishes the round. */
  lemma Finishes(w: World, ann: Player, rounds: Rounds, groups: Groups, members: Members, key: RoundKey)
      returns (v: World, s: Step, t: Step)
    requires Stands(w, Change(1), ann, rounds, groups, members) && key in rounds && rounds[key].state == Closing
    requires NoOpenGroup(groups, key)
    ensures s == Step(Change(1), SeesNoGroup(key)) && t == Step(Change(1), Season.Finishes(key))
    ensures Enabled(SHIPPED, w, s) && Enabled(SHIPPED, Next(SHIPPED, w, s), t) && v == Next(SHIPPED, Next(SHIPPED, w, s), t)
    ensures Stands(v, Change(1), ann, rounds[key := rounds[key].(state := Closed)], groups, members)
  {
    s := Step(Change(1), SeesNoGroup(key));
    t := Step(Change(1), Season.Finishes(key));
    v := Next(SHIPPED, Next(SHIPPED, w, s), t);
  }

  /** Closing steps of Ann's week that lead from w to u. */
  ghost predicate ClosesHerWeek(w: World, steps: seq<Step>, u: World) {
    ReachedInTime(u) && Leads(SHIPPED, w, steps, u) && AllClosing(steps, LAST_WEEK, Change(1))
  }

  lemma ClosingOn(w: World, steps: seq<Step>, u: World, s: Step)
    requires ClosesHerWeek(w, steps, u) && Enabled(SHIPPED, u, s) && ClosingStep(s, LAST_WEEK) && s.now == Change(1)
    ensures ClosesHerWeek(w, steps + [s], Next(SHIPPED, u, s))
  {
    RunExtends(SHIPPED, w, steps, u, s);
    ReachedNext(u, s);
  }

  lemma FinishesHerWeek(w: World) returns (v: World, s: Step, t: Step)
    requires Stands(w, Change(1), PROMOTED, CLAIMED, EMPTIED, JUDGED)
    ensures s == Step(Change(1), SeesNoGroup(LAST_WEEK)) && t == Step(Change(1), Season.Finishes(LAST_WEEK))
    ensures Enabled(SHIPPED, w, s) && Enabled(SHIPPED, Next(SHIPPED, w, s), t) && v == Next(SHIPPED, Next(SHIPPED, w, s), t)
    ensures Stands(v, Change(1), PROMOTED, CLOSED, EMPTIED, JUDGED)
  {
    v, s, t := Finishes(w, PROMOTED, CLAIMED, EMPTIED, JUDGED, LAST_WEEK);
    assert CLAIMED[LAST_WEEK := CLAIMED[LAST_WEEK].(state := Closed)] == CLOSED;
  }

  /** From her seat in Gold through the close of that week. */
  lemma GoesUp(w: World) returns (steps: seq<Step>, v: World)
    requires ReachedInTime(w) && Stands(w, Change(0), Player(GOLD, 1500, Change(0)), ROUNDS, GROUPS, MEMBERS)
    ensures ClosesHerWeek(w, steps, v) && Stands(v, Change(1), PROMOTED, CLOSED, EMPTIED, JUDGED)
  {
    var u, a := Claims(w);
    ClosingOn(w, [], w, a);
    ReachedIsSound(u);
    var x, b := Closes(u);
    ClosingOn(w, [] + [a], u, b);
    var c, d;
    v, c, d := FinishesHerWeek(x);
    steps := [] + [a] + [b];
    ClosingOn(w, steps, x, c);
    steps := steps + [c];
    ClosingOn(w, steps, Next(SHIPPED, x, c), d);
    steps := steps + [d];
  }

  /** `catchUp` is not idempotent: it takes Ann from Gold into Platinum, where the same week is still
      open, and whatever a second call at the same instant does, it changes the tables. */
  lemma SecondCatchUpIsNotIdle() returns (w: World, steps: seq<Step>, v: World)
    ensures ReachedInTime(w) && CatchesUp(SHIPPED, w, ANN, AllAt(Change(1)), steps, v, v)
    ensures w.db.players[ANN].tier == GOLD && v.db.players[ANN].tier == PLATINUM
    ensures IsDue(v.db.rounds, PLATINUM, Change(1), LAST_WEEK_ABOVE)
    ensures forall steps2, u2, v2 :: CatchesUp(SHIPPED, v, ANN, AllAt(Change(1)), steps2, u2, v2) ==> v2.db != v.db
  {
    w := PlaysInGold();
    steps, v := GoesUp(w);
    Calendar(PLATINUM, Change(1), 1);
    assert forall i :: 0 <= i < |steps| ==> ClosesDueRound(w.db.rounds, GOLD, Change(1), steps[i], LAST_WEEK);
    ShippedIsSound();
    assert IsDue(v.db.rounds, PLATINUM, Change(1), LAST_WEEK_ABOVE);
    forall steps2, u2, v2 | CatchesUp(SHIPPED, v, ANN, AllAt(Change(1)), steps2, u2, v2)
      ensures v2.db != v.db
    {
      IdleIff(SHIPPED, v, ANN, AllAt(Change(1)), steps2, u2, v2);
    }
  }

  // ----- the start that loses its move -----

  const ALL_CLOSED: Rounds := CLOSED[LAST_WEEK_ABOVE := OpenRound(0, 0).(state := Closed)]

  const CLAIMED_ABOVE: Rounds := CLOSED[LAST_WEEK_ABOVE := OpenRound(0, 0).(state := Closing)]

  lemma ClaimsAbove(w: World) returns (v: World)
    requires ReachedInTime(w) && Stands(w, Change(1), PROMOTED, CLOSED, EMPTIED, JUDGED)
    ensures ReachedInTime(v) && Stands(v, Change(1), PROMOTED, CLAIMED_ABOVE, EMPTIED, JUDGED)
  {
    var s := Step(Change(1), Season.Claims(LAST_WEEK_ABOVE));
    ReachedNext(w, s);
    v := Next(SHIPPED, w, s);
  }

  lemma FinishesAbove(w: World) returns (v: World, s: Step, t: Step)
    requires Stands(w, Change(1), PROMOTED, CLAIMED_ABOVE, EMPTIED, JUDGED)
    ensures s.event.SeesNoGroup? && Enabled(SHIPPED, w, s)
    ensures t.event.Finishes? && Enabled(SHIPPED, Next(SHIPPED, w, s), t) && v == Next(SHIPPED, Next(SHIPPED, w, s), t)
    ensures Stands(v, Change(1), PROMOTED, ALL_CLOSED, EMPTIED, JUDGED)
  {
    v, s, t := Finishes(w, PROMOTED, CLAIMED_ABOVE, EMPTIED, JUDGED, LAST_WEEK_ABOVE);
    assert CLAIMED_ABOVE[LAST_WEEK_ABOVE := CLAIMED_ABOVE[LAST_WEEK_ABOVE].(state := Closed)] == ALL_CLOSED;
  }

  /** Nobody was in the first week of Platinum; it is closed as well. */
  lemma ClosesAbove(w: World) returns (v: World)
    requires ReachedInTime(w) && Stands(w, Change(1), PROMOTED, CLOSED, EMPTIED, JUDGED)
    ensures ReachedInTime(v) && Stands(v, Change(1), PROMOTED, ALL_CLOSED, EMPTIED, JUDGED)
  {
    var u := ClaimsAbove(w);
    var s, t;
    v, s, t := FinishesAbove(u);
    ReachedNext(u, s);
    ReachedNext(Next(SHIPPED, u, s), t);
  }

  const NEXT_WEEK := RoundKey(PLATINUM, 2)
  const NEXT_SEAT := MemberKey(ANN, NEXT_WEEK)

  lemma WaitsInPlatinum() returns (w: World)
    ensures ReachedInTime(w) && Stands(w, Change(1), PROMOTED, ALL_CLOSED, EMPTIED, JUDGED)
  {
    w := PlaysInGold();
    var steps;
    steps, w := GoesUp(w);
    w := ClosesAbove(w);
  }

  /** One second before the week of her promotion ends there is nothing to catch up on. */
  lemma CaughtUpBefore(w: World)
    requires Stands(w, Change(1), PROMOTED, ALL_CLOSED, EMPTIED, JUDGED)
    ensures CatchesUp(SHIPPED, w, ANN, AllAt(Change(2) - 1), [], w, w)
  {
    Calendar(PLATINUM, Change(1), 1);
    Calendar(PLATINUM, Change(2) - 1, 1);
  }

  /** From u Ann takes the first seat of the week just begun. */
  ghost predicate StartedAtMidnight(u: World, v: World) {
    && ReachedInTime(u) && Stands(u, Change(2), PROMOTED, ALL_CLOSED[NEXT_WEEK := OpenRound(2, 0)], EMPTIED, JUDGED)
    && Placement(SHIPPED, u.db, NEXT_WEEK, false, NoWish, FirstGroup(NEXT_WEEK))
    && ReachedInTime(v) && v.clock == Change(2) && NEXT_WEEK in u.db.rounds
    && v.db == Join(SHIPPED, u.db, ANN, NEXT_WEEK, false, FirstGroup(NEXT_WEEK))
  }

  const LATE_START := Step(Change(2), Joins(ANN, AllAt(Change(2) - 1), NEXT_WEEK, false, NoWish, FirstGroup(NEXT_WEEK)))

  lemma FirstSeat(db: Db)
    requires db.groups == EMPTIED && NEXT_WEEK in db.rounds && db.rounds[NEXT_WEEK].groupSeq == 0
    ensures Placement(SHIPPED, db, NEXT_WEEK, false, NoWish, FirstGroup(NEXT_WEEK))
  {
  }

  lemma NothingOpen(db: Db)
    requires db.groups == EMPTIED && db.members == JUDGED
    ensures forall m :: !Unsettled(db.groups, db.members, m)
  {
  }

  lemma MayStartLate(u: World)
    requires Stands(u, Change(2), PROMOTED, ALL_CLOSED[NEXT_WEEK := OpenRound(2, 0)], EMPTIED, JUDGED)
    ensures Enabled(SHIPPED, u, LATE_START) && Harmless(SHIPPED, u, LATE_START)
  {
    Calendar(PLATINUM, Change(2), 2);
    Calendar(PLATINUM, Change(2) - 1, 1);
    Calendar(PLATINUM, Change(1), 1);
    FirstSeat(u.db);
    NothingOpen(u.db);
  }

  lemma StartsAtMidnight(w: World) returns (u: World, v: World)
    requires ReachedInTime(w) && Stands(w, Change(1), PROMOTED, ALL_CLOSED, EMPTIED, JUDGED)
    ensures StartedAtMidnight(u, v)
  {
    u := OpensRound(w, PROMOTED, ALL_CLOSED, EMPTIED, JUDGED, Change(2), NEXT_WEEK);
    FirstSeat(u.db);
    MayStartLate(u);
    ReachedNext(u, LATE_START);
    v := Next(SHIPPED, u, LATE_START);
  }

  /** So Ann, caught up in one week, starts her game in the next. */
  lemma IsLateStart(u: World, v: World)
    requires StartedAtMidnight(u, v)
    ensures LateStart(SHIPPED, u, ANN, NEXT_WEEK, false, NoWish, FirstGroup(NEXT_WEEK), Change(2) - 1)
    ensures Index(SHIPPED, PLATINUM, Change(2) - 1) < Index(SHIPPED, PLATINUM, Change(2))
  {
    ReachedIsSound(u);
    Calendar(PLATINUM, Change(1), 1);
    Calendar(PLATINUM, Change(2) - 1, 1);
    Calendar(PLATINUM, Change(2), 2);
  }

  /** Closing a group whose only member was moved away: a summary that nothing follows. */
  lemma CloseMisses(db: Db, g: GroupId, vs: Verdicts, p: PlayerId)
    requires g in db.groups && g.round in db.rounds && db.groups[g].open && Staying(db.members, g) == {p}
    requires Inserts(db, g.round, p) && !Hits(db, g.round, p)
    ensures var after := CloseGroup(SHIPPED, db, g, vs);
      NewSummary(db, after, SummaryKey(p, g.round, ReasonRound)) && after.players == db.players
  {
    assert SummaryKey(p, g.round, ReasonRound) in NewSummaryKeys(db, g.round, {p});
  }

  lemma NothingDueAtMidnight(rounds: Rounds)
    requires rounds.Keys == {LAST_WEEK, LAST_WEEK_ABOVE, NEXT_WEEK} && rounds[LAST_WEEK_ABOVE].state == Closed
    requires rounds[NEXT_WEEK].endsAt == Change(3)
    ensures NothingDue(rounds, PLATINUM, Change(2))
  {
  }

  /** The absence a second start finds: she is charged with the week between. */
  lemma ChargedForTheWeekBetween(u: World, v: World)
    requires StartedAtMidnight(u, v)
    ensures ANN in v.db.players && Missed(SHIPPED, v.db.players[ANN], Change(2)) > 0
    ensures CatchesUp(SHIPPED, v, ANN, AllAt(Change(2)), [], v, AbsentWorld(SHIPPED, v, ANN, AllAt(Change(2))))
  {
    Calendar(PLATINUM, Change(1), 1);
    Calendar(PLATINUM, Change(2), 2);
    NothingDueAtMidnight(v.db.rounds);
  }

  lemma OnlySeat(db: Db)
    requires db.members == JUDGED && NEXT_WEEK in db.rounds
    ensures Staying(Join(SHIPPED, db, ANN, NEXT_WEEK, false, FirstGroup(NEXT_WEEK)).members, FirstGroup(NEXT_WEEK)) == {ANN}
  {
    var members := Join(SHIPPED, db, ANN, NEXT_WEEK, false, FirstGroup(NEXT_WEEK)).members;
    assert NEXT_SEAT in members && members[NEXT_SEAT].group == FirstGroup(NEXT_WEEK);
  }

  /** The close of g, whatever the verdict, writes p a summary whose tier move misses. */
  ghost predicate LosesMove(db: Db, g: GroupId, p: PlayerId) {
    && g in db.groups && g.round in db.rounds && Unsettled(db.groups, db.members, MemberKey(p, g.round))
    && !Hits(db, g.round, p)
    && forall vs :: var after := CloseGroup(SHIPPED, db, g, vs);
         NewSummary(db, after, SummaryKey(p, g.round, ReasonRound)) && after.players == db.players
  }

  lemma MissesForAnyVerdict(db: Db, g: GroupId, p: PlayerId)
    requires g in db.groups && g.round in db.rounds && Staying(db.members, g) == {p}
    requires Unsettled(db.groups, db.members, MemberKey(p, g.round)) && db.groups[g].open
    requires Inserts(db, g.round, p) && !Hits(db, g.round, p)
    ensures LosesMove(db, g, p)
  {
    forall vs
      ensures var after := CloseGroup(SHIPPED, db, g, vs);
        NewSummary(db, after, SummaryKey(p, g.round, ReasonRound)) && after.players == db.players
    {
      CloseMisses(db, g, vs, p);
    }
  }

  lemma AbsentAnn(u: World, v: World)
    requires StartedAtMidnight(u, v)
    ensures ANN in v.db.players && LosesMove(AbsentWorld(SHIPPED, v, ANN, AllAt(Change(2))).db, FirstGroup(NEXT_WEEK), ANN)
  {
    IsLateStart(u, v);
    AbsenceAfterStartIff(SHIPPED, u, ANN, NEXT_WEEK, false, NoWish, FirstGroup(NEXT_WEEK), Change(2) - 1, AllAt(Change(2)));
    OnlySeat(u.db);
    MissesForAnyVerdict(Absence(SHIPPED, v.db, ANN, AllAt(Change(2))), FirstGroup(NEXT_WEEK), ANN);
  }

  /** All of it happens: the absence is a step the server takes. */
  lemma AbsenceHappens(u: World, v: World)
    requires StartedAtMidnight(u, v) && ANN in v.db.players && Missed(SHIPPED, v.db.players[ANN], Change(2)) > 0
    ensures Reached(AbsentWorld(SHIPPED, v, ANN, AllAt(Change(2))))
  {
    Calendar(PLATINUM, Change(2), 2);
    forall m: MemberKey | Unsettled(v.db.groups, v.db.members, m)
      ensures Change(2) < End(SHIPPED, m.round)
    {
      assert m == NEXT_SEAT;
    }
    AnyNext(v, Step(Change(2), Misses(ANN, AllAt(Change(2)))));
  }

  /** A reachable league in which Ann is caught up, starts a game across midnight, and the next
      `catchUp` takes her down to Gold for the week between, with her seat in Platinum still open: the
      close of that week then writes a summary whose tier move misses. */
  lemma LostMove() returns (w: World, u: World, v: World)
    ensures ReachedInTime(w) && w.clock < Change(2) && CatchesUp(SHIPPED, w, ANN, AllAt(Change(2) - 1), [], w, w)
    ensures u.db.players == w.db.players && StartedAtMidnight(u, v) && ANN in v.db.players
    ensures var absent := AbsentWorld(SHIPPED, v, ANN, AllAt(Change(2)));
      && CatchesUp(SHIPPED, v, ANN, AllAt(Change(2)), [], v, absent) && Reached(absent)
      && LosesMove(absent.db, FirstGroup(NEXT_WEEK), ANN)
  {
    w := WaitsInPlatinum();
    CaughtUpBefore(w);
    u, v := StartsAtMidnight(w);
    ChargedForTheWeekBetween(u, v);
    AbsenceHappens(u, v);
    AbsentAnn(u, v);
  }
}
