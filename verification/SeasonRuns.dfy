/** Whole runs of the league, from an empty database: settlement is exactly once as long as no round ends
    in the middle of a transaction that it matters to, and nothing settled is ever touched again in any
    run. */
module SeasonRuns {
  import opened Tiers
  import opened Season
  import opened SeasonInvariant
  import opened SeasonOnTime

  /** The steps lead from one world to another. */
  ghost predicate Leads(tb: Table, w: World, steps: seq<Step>, v: World)
    decreases |steps|
  {
    if steps == [] then v == w
    else Enabled(tb, w, steps[0]) && Leads(tb, Next(tb, w, steps[0]), steps[1..], v)
  }

  /** A step of the close of one round. */
  predicate ClosingStep(s: Step, k: RoundKey) {
    match s.event
    case Claims(r) => r == k
    case SeesNoGroup(r) => r == k
    case Closes(g, vs) => g.round == k
    case Finishes(r) => r == k
    case _ => false
  }

  /** All of them steps of the close of k, at one instant. */
  ghost predicate AllClosing(steps: seq<Step>, k: RoundKey, now: int) {
    forall i :: 0 <= i < |steps| ==> ClosingStep(steps[i], k) && steps[i].now == now
  }

  function EmptyLeague(clock: int): World {
    World(Db(map[], map[], map[], map[], map[]), clock, {}, map[])
  }

  // ----- the runs in which no round end does harm -----

  /** No step of the run comes too late. */
  ghost predicate AllHarmless(tb: Table, w: World, steps: seq<Step>)
    decreases |steps|
  {
    steps == [] || (Enabled(tb, w, steps[0]) && Harmless(tb, w, steps[0]) && AllHarmless(tb, Next(tb, w, steps[0]), steps[1..]))
  }

  /** No round ends between two readings of one transaction, but for starts that find nothing to settle
      in it, in a tier that freezes absences. */
  ghost predicate AllTimely(tb: Table, w: World, steps: seq<Step>)
    decreases |steps|
  {
    steps == [] || (Enabled(tb, w, steps[0]) && Timely(tb, w, steps[0]) && AllTimely(tb, Next(tb, w, steps[0]), steps[1..]))
  }

  /** Transactions as they run, with their readings in one round; or any others that do no harm. */
  ghost predicate Fair(tb: Table, w: World, steps: seq<Step>) {
    (OnTime(tb, w.db) && AllTimely(tb, w, steps)) || AllHarmless(tb, w, steps)
  }

  /** The readings of the clock alone can tell. */
  lemma {:induction false} ReadInOneRound(tb: Table, w: World, steps: seq<Step>, v: World)
    requires Leads(tb, w, steps, v) && forall i :: 0 <= i < |steps| ==> InOneRound(tb, steps[i])
    ensures AllTimely(tb, w, steps)
    decreases |steps|
  {
    if steps != [] {
      ReadInOneRound(tb, Next(tb, w, steps[0]), steps[1..], v);
    }
  }

  /** A run in time meets no absence that takes anything, and no start with something left to settle. */
  lemma {:induction false} TimelyRunIsHarmless(tb: Table, w: World, steps: seq<Step>)
    requires SoundTable(tb) && Inv(tb, w) && OnTime(tb, w.db) && AllTimely(tb, w, steps)
    ensures AllHarmless(tb, w, steps)
    decreases |steps|
  {
    if steps != [] {
      TimelyIsHarmless(tb, w, steps[0]);
      StepKeeps(tb, w, steps[0]);
      TimelyKeeps(tb, w, steps[0]);
      TimelyRunIsHarmless(tb, Next(tb, w, steps[0]), steps[1..]);
    }
  }

  lemma {:induction false} HarmlessRunKeeps(tb: Table, w: World, steps: seq<Step>, v: World)
    requires SoundTable(tb) && Inv(tb, w) && Leads(tb, w, steps, v) && AllHarmless(tb, w, steps)
    ensures Inv(tb, v)
    decreases |steps|
  {
    if steps != [] {
      StepKeeps(tb, w, steps[0]);
      HarmlessRunKeeps(tb, Next(tb, w, steps[0]), steps[1..], v);
    }
  }

  lemma FairIsHarmless(tb: Table, w: World, steps: seq<Step>)
    requires SoundTable(tb) && Inv(tb, w) && Fair(tb, w, steps)
    ensures AllHarmless(tb, w, steps)
  {
    if !AllHarmless(tb, w, steps) {
      TimelyRunIsHarmless(tb, w, steps);
    }
  }

  lemma RunKeeps(tb: Table, w: World, steps: seq<Step>, v: World)
    requires SoundTable(tb) && Inv(tb, w) && Leads(tb, w, steps, v) && Fair(tb, w, steps)
    ensures Inv(tb, v)
  {
    FairIsHarmless(tb, w, steps);
    HarmlessRunKeeps(tb, w, steps, v);
  }

  /** Steps that neither charge an absence nor join are never late. */
  lemma OthersKeep(tb: Table, w: World, steps: seq<Step>, v: World)
    requires SoundTable(tb) && Inv(tb, w) && Leads(tb, w, steps, v)
    requires forall i :: 0 <= i < |steps| ==> !steps[i].event.Misses? && !steps[i].event.Joins?
    ensures Inv(tb, v)
  {
    var kept: World -> bool := u => Inv(tb, u);
    var kind: Step -> bool := (s: Step) => !s.event.Misses? && !s.event.Joins?;
    forall u, s | kept(u) && kind(s) && Enabled(tb, u, s)
      ensures kept(Next(tb, u, s))
    {
      StepKeeps(tb, u, s);
    }
    KeptAlong(tb, w, steps, v, kept, kind);
  }

  lemma {:induction false} RunKeepsTables(tb: Table, w: World, steps: seq<Step>, v: World)
    requires SoundTable(tb) && TablesOk(tb, w) && Leads(tb, w, steps, v)
    ensures TablesOk(tb, v)
    decreases |steps|
  {
    if steps != [] {
      StepKeepsTables(tb, w, steps[0]);
      RunKeepsTables(tb, Next(tb, w, steps[0]), steps[1..], v);
    }
  }

  lemma EmptyIsSound(tb: Table, clock: int)
    ensures Inv(tb, EmptyLeague(clock)) && OnTime(tb, EmptyLeague(clock).db)
  {
  }

  /** What steps of some kind keep holds after any run of them. */
  lemma {:induction false} KeptAlong(tb: Table, w: World, steps: seq<Step>, v: World, kept: World -> bool, kind: Step -> bool)
    requires forall u, s :: kept(u) && kind(s) && Enabled(tb, u, s) ==> kept(Next(tb, u, s))
    requires kept(w) && Leads(tb, w, steps, v) && forall i :: 0 <= i < |steps| ==> kind(steps[i])
    ensures kept(v)
    decreases |steps|
  {
    if steps != [] {
      KeptAlong(tb, Next(tb, w, steps[0]), steps[1..], v, kept, kind);
    }
  }

  lemma RunFirst(tb: Table, w: World, t: Step, steps: seq<Step>, v: World)
    ensures Leads(tb, w, [t] + steps, v) <==> Enabled(tb, w, t) && Leads(tb, Next(tb, w, t), steps, v)
  {
    assert ([t] + steps)[1..] == steps;
  }

  lemma FirstAndRest(s1: seq<Step>, s2: seq<Step>)
    requires s1 != []
    ensures s1 + s2 == [s1[0]] + (s1[1..] + s2)
  {
  }

  lemma {:induction false} RunsCompose(tb: Table, w: World, s1: seq<Step>, u: World, s2: seq<Step>, v: World)
    requires Leads(tb, w, s1, u) && Leads(tb, u, s2, v)
    ensures Leads(tb, w, s1 + s2, v)
    decreases |s1|
  {
    if s1 == [] {
      assert s1 + s2 == s2;
    } else {
      RunsCompose(tb, Next(tb, w, s1[0]), s1[1..], u, s2, v);
      FirstAndRest(s1, s2);
      RunFirst(tb, w, s1[0], s1[1..] + s2, v);
    }
  }

  lemma RunExtends(tb: Table, w: World, steps: seq<Step>, u: World, s: Step)
    requires Leads(tb, w, steps, u) && Enabled(tb, u, s)
    ensures Leads(tb, w, steps + [s], Next(tb, u, s))
  {
    var v := Next(tb, u, s);
    assert [s] + [] == [s];
    RunFirst(tb, u, s, [], v);
    RunsCompose(tb, w, steps, u, [s], v);
  }

  lemma {:induction false} HarmlessExtends(tb: Table, w: World, steps: seq<Step>, u: World, s: Step)
    requires Leads(tb, w, steps, u) && AllHarmless(tb, w, steps) && Enabled(tb, u, s) && Harmless(tb, u, s)
    ensures AllHarmless(tb, w, steps + [s])
    decreases |steps|
  {
    if steps == [] {
      assert ([] + [s])[1..] == [];
    } else {
      HarmlessExtends(tb, Next(tb, w, steps[0]), steps[1..], u, s);
      assert (steps + [s])[1..] == steps[1..] + [s];
    }
  }

  lemma {:induction false} RunSplits(tb: Table, w: World, s1: seq<Step>, s2: seq<Step>, v: World) returns (u: World)
    requires Leads(tb, w, s1 + s2, v)
    ensures Leads(tb, w, s1, u) && Leads(tb, u, s2, v)
    decreases |s1|
  {
    if s1 == [] {
      assert s1 + s2 == s2;
      u := w;
    } else {
      FirstAndRest(s1, s2);
      RunFirst(tb, w, s1[0], s1[1..] + s2, v);
      u := RunSplits(tb, Next(tb, w, s1[0]), s1[1..], s2, v);
    }
  }

  /** In every world a fair run from the empty league can reach, for every membership: while its group
      is open the round has no summary for that player, and once the group is closed it has exactly
      one, with the outcome of the verdict, and the tier move was applied exactly once. Every run is
      fair in which no round ends between two readings of one transaction. */
  lemma SettledExactlyOnce(tb: Table, clock: int, steps: seq<Step>, v: World, m: MemberKey)
    requires SoundTable(tb) && Leads(tb, EmptyLeague(clock), steps, v) && Fair(tb, EmptyLeague(clock), steps) && m in v.db.members
    ensures var s := SummaryKey(m.player, m.round, ReasonRound);
      var g := v.db.members[m].group;
      && g in v.db.groups
      && (v.db.groups[g].open <==> s !in v.db.summaries)
      && TimesApplied(v.applied, s) == (if v.db.groups[g].open then 0 else 1)
      && (!v.db.groups[g].open ==> v.db.summaries[s].outcome == OutcomeOf(v.db.members[m].verdict))
  {
    RunKeeps(tb, EmptyLeague(clock), steps, v);
    var g := v.db.members[m].group;
    assert v.db.groups[g].open ==> Unsettled(v.db.groups, v.db.members, m);
  }

  /** And in every such world a player has at most one membership left to settle, in the tier they
      are in; and a closed round has no open group. */
  lemma AtMostOneToSettle(tb: Table, clock: int, steps: seq<Step>, v: World, m: MemberKey, n: MemberKey)
    requires SoundTable(tb) && Leads(tb, EmptyLeague(clock), steps, v) && Fair(tb, EmptyLeague(clock), steps) && m.player == n.player
    requires Unsettled(v.db.groups, v.db.members, m) && Unsettled(v.db.groups, v.db.members, n)
    ensures m == n && m.player in v.db.players && v.db.players[m.player].tier == m.round.tier
    ensures m.round in v.db.rounds && v.db.rounds[m.round].state != Closed
  {
    RunKeeps(tb, EmptyLeague(clock), steps, v);
    OneUnsettled(tb, v, m, n);
  }

  /** In every world that any run reaches, fair or not, the stored count of an open group is the number of
      its rows, and never above the hard limit; and a global tier has one group per quarantine flag. */
  lemma CountsAreRows(tb: Table, clock: int, steps: seq<Step>, v: World, g: GroupId)
    requires SoundTable(tb) && Leads(tb, EmptyLeague(clock), steps, v) && g in v.db.groups
    ensures v.db.groups[g].open ==> v.db.groups[g].count == |RowsOf(v.db.members, g)|
    ensures v.db.groups[g].open && !Cfg(tb, g.round.tier).global ==> v.db.groups[g].count <= tb.groupMax
    ensures forall h :: SameGlobalRoom(tb, v.db.groups, g, h) ==> g == h
  {
    RunKeepsTables(tb, EmptyLeague(clock), steps, v);
  }

  /** Only friends push a group past the random-fill size: any other join leaves it within. */
  lemma RandomFillStops(tb: Table, db: Db, p: PlayerId, key: RoundKey, q: bool, wish: Wish, g: GroupId)
    requires 1 <= tb.groupSize && GroupsOk(tb, db.rounds, db.groups) && Placement(tb, db, key, q, wish, g)
    requires !TakesWish(tb, db.groups, key, wish) && !Cfg(tb, key.tier).global
    ensures Join(tb, db, p, key, q, g).groups[g].count <= tb.groupSize
  {
  }

  // ----- what is settled stays settled -----

  function Age(state: RoundState): nat {
    match state
    case Open => 0
    case Closing => 1
    case Closed => 2
  }

  /** Rounds only move forward, and the counts frozen by a claim never change. */
  ghost predicate RoundsAdvance(rounds: Rounds, after: Rounds) {
    forall k :: k in rounds ==>
      && k in after && Age(rounds[k].state) <= Age(after[k].state)
      && (rounds[k].state != Open ==> after[k].pair == rounds[k].pair && after[k].upCount == rounds[k].upCount)
  }

  ghost predicate GroupsAdvance(groups: Groups, after: Groups) {
    forall g :: g in groups ==> g in after && (after[g].open ==> groups[g].open)
  }

  /** A summary is never overwritten; only deleting the account takes it away. */
  ghost predicate SummariesStay(summaries: Summaries, after: Summaries, gone: set<PlayerId>) {
    forall s :: s in summaries && s.player !in gone ==> s in after && after[s] == summaries[s]
  }

  /** Not a member of a closed group. */
  predicate NotSettled(db: Db, m: MemberKey) {
    m in db.members && db.members[m].group in db.groups ==> db.groups[db.members[m].group].open
  }

  /** The row of a settled member, score and verdict, is never touched again. */
  ghost predicate SettledStay(db: Db, after: Members, gone: set<PlayerId>) {
    forall m :: m in db.members && m.player !in gone && !NotSettled(db, m) ==> m in after && after[m] == db.members[m]
  }

  ghost predicate Advances(w: World, v: World, gone: set<PlayerId>) {
    && w.clock <= v.clock
    && RoundsAdvance(w.db.rounds, v.db.rounds) && GroupsAdvance(w.db.groups, v.db.groups)
    && SummariesStay(w.db.summaries, v.db.summaries, gone) && SettledStay(w.db, v.db.members, gone)
  }

  function DeletedBy(s: Step): set<PlayerId> {
    if s.event.Deletes? then {s.event.p} else {}
  }

  lemma RoundsStep(tb: Table, w: World, s: Step)
    requires Enabled(tb, w, s)
    ensures RoundsAdvance(w.db.rounds, Next(tb, w, s).db.rounds)
  {
    match s.event
    case Ensures(key) => assert RoundsAdvance(w.db.rounds, EnsureRound(tb, w.db, key).rounds);
    case Claims(key) => assert RoundsAdvance(w.db.rounds, Claim(tb, w.db, key).rounds);
    case Finishes(key) => assert RoundsAdvance(w.db.rounds, Finish(w.db, key).rounds);
    case Joins(p, r, key, q, wish, g) => assert RoundsAdvance(w.db.rounds, Join(tb, w.db, p, key, q, g).rounds);
    case _ => assert Next(tb, w, s).db.rounds == w.db.rounds;
  }

  lemma GroupsStep(tb: Table, w: World, s: Step)
    requires Enabled(tb, w, s)
    ensures GroupsAdvance(w.db.groups, Next(tb, w, s).db.groups)
  {
    match s.event
    case Deletes(p) => assert GroupsAdvance(w.db.groups, Delete(w.db, p).groups);
    case Closes(g, vs) => assert GroupsAdvance(w.db.groups, CloseGroup(tb, w.db, g, vs).groups);
    case Joins(p, r, key, q, wish, g) => assert GroupsAdvance(w.db.groups, Join(tb, w.db, p, key, q, g).groups);
    case _ => assert Next(tb, w, s).db.groups == w.db.groups;
  }

  lemma SummariesStep(tb: Table, w: World, s: Step)
    requires Enabled(tb, w, s)
    ensures SummariesStay(w.db.summaries, Next(tb, w, s).db.summaries, DeletedBy(s))
  {
    match s.event
    case Deletes(p) => assert SummariesStay(w.db.summaries, Delete(w.db, p).summaries, {p});
    case Closes(g, vs) => assert SummariesStay(w.db.summaries, CloseGroup(tb, w.db, g, vs).summaries, {});
    case Misses(p, r) => assert SummariesStay(w.db.summaries, Absence(tb, w.db, p, r).summaries, {});
    case Promotes(p) => assert SummariesStay(w.db.summaries, PromoteByScore(tb, w.db, p, s.now).summaries, {});
    case _ => assert Next(tb, w, s).db.summaries == w.db.summaries;
  }

  /** The running round has no settled member. */
  lemma SettledIsPast(tb: Table, w: World, m: MemberKey, now: int)
    requires SoundTable(tb) && TablesOk(tb, w) && w.clock <= now && m in w.db.members
    requires !w.db.groups[w.db.members[m].group].open
    ensures m.round.index < Index(tb, m.round.tier, now)
  {
    IndexOrdered(Cfg(tb, m.round.tier), w.clock, now);
    EndedIff(tb, m.round, now);
  }

  lemma RunningIsNotSettled(tb: Table, w: World, m: MemberKey, now: int)
    requires SoundTable(tb) && TablesOk(tb, w) && w.clock <= now && m.round.index == Index(tb, m.round.tier, now)
    ensures NotSettled(w.db, m)
  {
    if m in w.db.members && !w.db.groups[w.db.members[m].group].open {
      SettledIsPast(tb, w, m, now);
    }
  }

  lemma ScoreStays(tb: Table, w: World, s: Step)
    requires SoundTable(tb) && TablesOk(tb, w) && Enabled(tb, w, s) && s.event.Scores?
    ensures SettledStay(w.db, Next(tb, w, s).db.members, {})
  {
    RunningIsNotSettled(tb, w, MemberKey(s.event.p, s.event.round), s.now);
  }

  lemma PromotionStays(tb: Table, w: World, s: Step)
    requires SoundTable(tb) && TablesOk(tb, w) && Enabled(tb, w, s) && s.event.Promotes?
    ensures Next(tb, w, s).db.members == w.db.members
  {
    TablesTick(tb, w, s.now);
    PromotionLeavesNothing(tb, w.(clock := s.now), s.event.p);
  }

  /** No other statement reaches the row of a settled member. */
  lemma OthersStay(tb: Table, w: World, s: Step)
    requires Enabled(tb, w, s) && !s.event.Scores? && !s.event.Promotes?
    ensures SettledStay(w.db, Next(tb, w, s).db.members, DeletedBy(s))
  {
    match s.event
    case Deletes(p) => assert SettledStay(w.db, Delete(w.db, p).members, {p});
    case Closes(g, vs) => assert SettledStay(w.db, CloseGroup(tb, w.db, g, vs).members, {});
    case Joins(p, r, key, q, wish, g) => assert SettledStay(w.db, Join(tb, w.db, p, key, q, g).members, {});
    case _ =>
  }

  lemma SettledStep(tb: Table, w: World, s: Step)
    requires SoundTable(tb) && TablesOk(tb, w) && Enabled(tb, w, s)
    ensures SettledStay(w.db, Next(tb, w, s).db.members, DeletedBy(s))
  {
    if s.event.Scores? {
      ScoreStays(tb, w, s);
    } else if s.event.Promotes? {
      PromotionStays(tb, w, s);
    } else {
      OthersStay(tb, w, s);
    }
  }

  lemma StepAdvances(tb: Table, w: World, s: Step)
    requires SoundTable(tb) && TablesOk(tb, w) && Enabled(tb, w, s)
    ensures Advances(w, Next(tb, w, s), DeletedBy(s))
  {
    RoundsStep(tb, w, s);
    GroupsStep(tb, w, s);
    SummariesStep(tb, w, s);
    SettledStep(tb, w, s);
  }

  lemma AdvancesTransitive(tb: Table, w: World, u: World, v: World, a: set<PlayerId>, b: set<PlayerId>)
    requires TablesOk(tb, w) && Advances(w, u, a) && Advances(u, v, b)
    ensures Advances(w, v, a + b)
  {
    forall m | m in w.db.members && m.player !in a + b && !NotSettled(w.db, m)
      ensures m in v.db.members && v.db.members[m] == w.db.members[m]
    {
      assert u.db.members[m] == w.db.members[m] && w.db.members[m].group in u.db.groups;
    }
  }

  function DeletedIn(steps: seq<Step>): set<PlayerId> {
    if steps == [] then {} else DeletedBy(steps[0]) + DeletedIn(steps[1..])
  }

  /** Along any run, fair or not, rounds only move on, frozen counts stay, closed groups stay closed, and the
      summaries and rows of settled members are never touched until the account is deleted. */
  lemma {:induction false} RunAdvances(tb: Table, w: World, steps: seq<Step>, v: World)
    requires SoundTable(tb) && TablesOk(tb, w) && Leads(tb, w, steps, v)
    ensures Advances(w, v, DeletedIn(steps))
    decreases |steps|
  {
    if steps != [] {
      var u := Next(tb, w, steps[0]);
      StepKeepsTables(tb, w, steps[0]);
      StepAdvances(tb, w, steps[0]);
      RunAdvances(tb, u, steps[1..], v);
      AdvancesTransitive(tb, w, u, v, DeletedBy(steps[0]), DeletedIn(steps[1..]));
    }
  }

  // ----- a summary and a tier move are one fact -----

  /** The row of p went from the tier the summary names as before to the one it names as after; the
      points restart exactly when that is another tier. */
  ghost predicate IsMove(before: Players, after: Players, s: SummaryKey, sum: Summary) {
    && s.player in before && s.player in after
    && before[s.player].tier == s.round.tier && after[s.player].tier == sum.after
    && after[s.player].points == if sum.after == s.round.tier then before[s.player].points else 0
  }

  ghost predicate NewSummary(w: Db, v: Db, s: SummaryKey) {
    s in v.summaries && s !in w.summaries
  }

  lemma CloseMoves(tb: Table, w: World, g: GroupId, vs: Verdicts, s: SummaryKey)
    requires SoundTable(tb) && Inv(tb, w) && ClosesWell(w, g, vs) && NewSummary(w.db, CloseGroup(tb, w.db, g, vs), s)
    ensures var v := CloseGroup(tb, w.db, g, vs); IsMove(w.db.players, v.players, s, v.summaries[s])
  {
    SettlingHits(tb, w, g, s.player);
    StayingIsUnsettled(tb, w, g, s.player);
  }

  lemma AbsenceMoves(tb: Table, w: World, p: PlayerId, r: Readings, s: SummaryKey)
    requires p in w.db.players && NewSummary(w.db, Absence(tb, w.db, p, r), s)
    ensures var v := Absence(tb, w.db, p, r); IsMove(w.db.players, v.players, s, v.summaries[s])
  {
  }

  lemma PromotionMoves(tb: Table, w: World, p: PlayerId, s: SummaryKey)
    requires p in w.db.players && PromotesByScore(tb, w.db.players[p])
    requires NewSummary(w.db, PromoteByScore(tb, w.db, p, w.clock), s)
    ensures var v := PromoteByScore(tb, w.db, p, w.clock); IsMove(w.db.players, v.players, s, v.summaries[s])
  {
  }

  /** Whenever a summary appears, its player makes the move it tells of in the same step. */
  lemma SummaryIsTheMove(tb: Table, w: World, t: Step, s: SummaryKey)
    requires SoundTable(tb) && Inv(tb, w) && Enabled(tb, w, t) && NewSummary(w.db, Next(tb, w, t).db, s)
    ensures var v := Next(tb, w, t).db; IsMove(w.db.players, v.players, s, v.summaries[s])
  {
    TickKeeps(tb, w, t.now);
    var u := w.(clock := t.now);
    match t.event
    case Closes(g, vs) =>
      JudgedCovers(tb, w.db, g, vs);
      CloseMoves(tb, u, g, vs, s);
    case Misses(p, r) => AbsenceMoves(tb, u, p, r, s);
    case Promotes(p) => PromotionMoves(tb, u, p, s);
    case _ =>
  }

  ghost predicate ChangesTier(before: Players, after: Players, p: PlayerId) {
    p in before && p in after && after[p].tier != before[p].tier
  }

  lemma CloseSummaryOf(tb: Table, w: World, g: GroupId, vs: Verdicts, p: PlayerId)
    requires Inv(tb, w) && ClosesWell(w, g, vs)
    requires ChangesTier(w.db.players, CloseGroup(tb, w.db, g, vs).players, p)
    ensures NewSummary(w.db, CloseGroup(tb, w.db, g, vs), SummaryKey(p, g.round, ReasonRound))
  {
    CloseWritesSummary(tb, w, g, vs, p);
    SettlingHits(tb, w, g, p);
  }

  lemma AbsenceSummaryOf(tb: Table, db: Db, q: PlayerId, r: Readings, p: PlayerId)
    requires q in db.players && AbsenceKey(tb, db, q, r.booked) !in db.summaries
    requires ChangesTier(db.players, Absence(tb, db, q, r).players, p)
    ensures p == q && NewSummary(db, Absence(tb, db, q, r), AbsenceKey(tb, db, q, r.booked))
  {
  }

  /** A player has not left their present tier by score before. */
  lemma PromotionIsNew(tb: Table, w: World, q: PlayerId, index: int)
    requires Inv(tb, w) && q in w.db.players
    ensures PromotionKey(w.db, q, index) !in w.db.summaries
  {
    var s := PromotionKey(w.db, q, index);
    assert s in w.db.summaries ==> SummaryFits(tb, w.db.players[q], s);
  }

  lemma PromotionSummaryOf(tb: Table, db: Db, q: PlayerId, now: int, p: PlayerId)
    requires q in db.players && PromotesByScore(tb, db.players[q])
    requires PromotionKey(db, q, Index(tb, db.players[q].tier, now)) !in db.summaries
    requires ChangesTier(db.players, PromoteByScore(tb, db, q, now).players, p)
    ensures p == q && NewSummary(db, PromoteByScore(tb, db, q, now), PromotionKey(db, q, Index(tb, db.players[q].tier, now)))
  {
  }

  lemma OthersMoveNobody(tb: Table, w: World, t: Step, p: PlayerId)
    requires Enabled(tb, w, t) && !t.event.Misses? && !t.event.Promotes?
    requires t.event.Closes? ==> !w.db.groups[t.event.group].open
    ensures !ChangesTier(w.db.players, Next(tb, w, t).db.players, p)
  {
    match t.event
    case Registers(q) =>
    case Deletes(q) =>
    case Scores(q, key, points, score, games, last) =>
    case _ =>
  }

  lemma MissHasSummary(tb: Table, w: World, t: Step, p: PlayerId) returns (s: SummaryKey)
    requires SoundTable(tb) && Inv(tb, w) && Enabled(tb, w, t) && t.event.Misses?
    requires ChangesTier(w.db.players, Next(tb, w, t).db.players, p)
    ensures s.player == p && NewSummary(w.db, Next(tb, w, t).db, s)
  {
    AbsenceIsNew(tb, w, t.event.p, t.event.read);
    AbsenceSummaryOf(tb, w.db, t.event.p, t.event.read, p);
    s := AbsenceKey(tb, w.db, p, t.event.read.booked);
  }

  lemma PromotionHasSummary(tb: Table, w: World, t: Step, p: PlayerId) returns (s: SummaryKey)
    requires SoundTable(tb) && Inv(tb, w) && Enabled(tb, w, t) && t.event.Promotes?
    requires ChangesTier(w.db.players, Next(tb, w, t).db.players, p)
    ensures s.player == p && NewSummary(w.db, Next(tb, w, t).db, s)
  {
    var q := t.event.p;
    PromotionIsNew(tb, w, q, Index(tb, w.db.players[q].tier, t.now));
    PromotionSummaryOf(tb, w.db, q, t.now, p);
    s := PromotionKey(w.db, q, Index(tb, w.db.players[q].tier, t.now));
  }

  lemma CloseHasSummary(tb: Table, w: World, t: Step, p: PlayerId) returns (s: SummaryKey)
    requires SoundTable(tb) && Inv(tb, w) && Enabled(tb, w, t) && t.event.Closes? && w.db.groups[t.event.group].open
    requires ChangesTier(w.db.players, Next(tb, w, t).db.players, p)
    ensures s.player == p && NewSummary(w.db, Next(tb, w, t).db, s)
  {
    JudgedCovers(tb, w.db, t.event.group, t.event.verdicts);
    CloseSummaryOf(tb, w, t.event.group, t.event.verdicts, p);
    s := SummaryKey(p, t.event.group.round, ReasonRound);
  }

  /** And nobody changes tier without a summary that appears in the same step. */
  lemma NoMoveWithoutSummary(tb: Table, w: World, t: Step, p: PlayerId) returns (s: SummaryKey)
    requires SoundTable(tb) && Inv(tb, w) && Enabled(tb, w, t) && ChangesTier(w.db.players, Next(tb, w, t).db.players, p)
    ensures s.player == p && NewSummary(w.db, Next(tb, w, t).db, s)
  {
    s := SummaryKey(p, RoundKey(0, 0), ReasonRound);
    if t.event.Misses? {
      s := MissHasSummary(tb, w, t, p);
    } else if t.event.Promotes? {
      s := PromotionHasSummary(tb, w, t, p);
    } else if t.event.Closes? && w.db.groups[t.event.group].open {
      s := CloseHasSummary(tb, w, t, p);
    } else {
      OthersMoveNobody(tb, w, t, p);
    }
  }
}
