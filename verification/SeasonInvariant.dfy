/** What every step of the league keeps, and so what holds in every run. */
module SeasonInvariant {
  import opened Tiers
  import opened Standings
  import opened Season

  ghost predicate PlayersOk(tb: Table, players: Players, clock: int) {
    forall p :: p in players ==>
      players[p].tier < |tb.tiers| && SettledIndex(tb, players[p]) <= Index(tb, players[p].tier, clock)
  }

  /** Rounds have begun; one that is being closed, or is closed, has ended. */
  ghost predicate RoundsOk(tb: Table, rounds: Rounds, clock: int) {
    forall k :: k in rounds ==>
      && InRounds(tb, k.tier) && rounds[k].endsAt == End(tb, k) && k.index <= Index(tb, k.tier, clock)
      && (rounds[k].state != Open ==> rounds[k].endsAt <= clock)
  }

  /** Only a claimed round has closed groups, and a closed round has no open one. */
  ghost predicate GroupsOk(tb: Table, rounds: Rounds, groups: Groups) {
    forall g :: g in groups ==>
      && g.round in rounds && 1 <= g.seqNo <= rounds[g.round].groupSeq
      && (rounds[g.round].state == Open ==> groups[g].open)
      && (rounds[g.round].state == Closed ==> !groups[g].open)
      && groups[g].capacity == if Cfg(tb, g.round.tier).global then Unlimited else Limited(tb.groupSize)
  }

  ghost predicate MembersOk(players: Players, groups: Groups, members: Members) {
    forall m :: m in members ==>
      && m.player in players && members[m].group in groups && members[m].group.round == m.round
      && !members[m].left
  }

  /** Whoever still has to be settled is in the tier of that round, and not settled past it. */
  ghost predicate UnsettledOk(tb: Table, players: Players, groups: Groups, members: Members) {
    forall m :: Unsettled(groups, members, m) ==>
      && m.player in players && players[m.player].tier == m.round.tier
      && SettledIndex(tb, players[m.player]) <= m.round.index
  }

  predicate BothUnsettled(groups: Groups, members: Members, m: MemberKey, n: MemberKey) {
    m.player == n.player && Unsettled(groups, members, m) && Unsettled(groups, members, n)
  }

  /** Nobody has two memberships to settle. */
  ghost predicate OnceUnsettled(groups: Groups, members: Members) {
    forall m, n :: BothUnsettled(groups, members, m, n) ==> m == n
  }

  ghost predicate IsSettled(m: MemberKey, verdict: Verdict, summaries: Summaries) {
    var s := SummaryKey(m.player, m.round, ReasonRound);
    verdict.Decided? && s in summaries && summaries[s].outcome == OutcomeOf(verdict)
  }

  /** Every member of a closed group has the summary of their round, with the outcome they were given. */
  ghost predicate SettledOk(groups: Groups, members: Members, summaries: Summaries) {
    forall m :: m in members && members[m].group in groups && !groups[members[m].group].open ==>
      IsSettled(m, members[m].verdict, summaries)
  }

  ghost predicate SummaryFits(tb: Table, p: Player, s: SummaryKey) {
    if s.reason == ReasonRound then InRounds(tb, p.tier) && s.round.index < SettledIndex(tb, p)
    else s.round.tier < tb.firstRound && s.round.tier < p.tier
  }

  /** Summaries lie behind their player: in rounds settled, or in score tiers left upwards. */
  ghost predicate SummariesOk(tb: Table, players: Players, summaries: Summaries) {
    forall s :: s in summaries ==> s.player in players && SummaryFits(tb, players[s.player], s)
  }

  function RowsOf(members: Members, g: GroupId): set<MemberKey> {
    set m | m in members && members[m].group == g
  }

  /** The stored count of an open group is the number of its rows, within the hard limit. */
  ghost predicate CountsOk(tb: Table, groups: Groups, members: Members) {
    forall g :: g in groups && groups[g].open ==>
      groups[g].count == |RowsOf(members, g)| && (groups[g].capacity.Limited? ==> groups[g].count <= tb.groupMax)
  }

  predicate SameGlobalRoom(tb: Table, groups: Groups, g: GroupId, h: GroupId) {
    && g in groups && h in groups && g.round == h.round && Cfg(tb, g.round.tier).global
    && groups[g].quarantine == groups[h].quarantine
  }

  /** A global tier has one group for everybody, and one for everybody in quarantine. */
  ghost predicate GlobalOk(tb: Table, groups: Groups) {
    forall g, h :: SameGlobalRoom(tb, groups, g, h) ==> g == h
  }

  /** Do rounds of these two tiers share their frozen counts? */
  ghost predicate ClaimedSiblings(tb: Table, rounds: Rounds, a: RoundKey, b: RoundKey) {
    && a in rounds && b in rounds && a.index == b.index && FrozenTiers(tb, a.tier) == FrozenTiers(tb, b.tier)
    && rounds[a].state != Open && rounds[b].state != Open
  }

  ghost predicate RoundFrozen(tb: Table, k: RoundKey, r: Round) {
    r.state != Open ==>
      && (r.pair.Frozen? <==> FrozenTiers(tb, k.tier).0 != FrozenTiers(tb, k.tier).1)
      && r.upCount == UpCountFor(tb, k.tier, r.pair)
  }

  /** Claimed sibling rounds froze the same populations. */
  ghost predicate PairsOk(tb: Table, rounds: Rounds) {
    && (forall k :: k in rounds ==> RoundFrozen(tb, k, rounds[k]))
    && (forall a, b :: ClaimedSiblings(tb, rounds, a, b) ==> rounds[a].pair == rounds[b].pair)
  }

  /** Each summary had exactly one tier move applied, and no move came without a summary. */
  ghost predicate AppliedOk(summaries: Summaries, applied: map<SummaryKey, nat>) {
    applied.Keys == summaries.Keys && forall s :: s in applied ==> applied[s] == 1
  }

  ghost predicate DrainedOk(rounds: Rounds, groups: Groups, drained: set<RoundKey>) {
    forall k :: k in drained ==> k in rounds && rounds[k].state != Open && NoOpenGroup(groups, k)
  }

  /** What every step keeps, late or not: rounds, groups and member rows fit together, and the counts
      are right. */
  ghost predicate TablesOk(tb: Table, w: World) {
    var db := w.db;
    && RoundsOk(tb, db.rounds, w.clock)
    && GroupsOk(tb, db.rounds, db.groups)
    && MembersOk(db.players, db.groups, db.members)
    && CountsOk(tb, db.groups, db.members)
    && GlobalOk(tb, db.groups)
    && PairsOk(tb, db.rounds)
    && DrainedOk(db.rounds, db.groups, w.drained)
  }

  ghost predicate Inv(tb: Table, w: World) {
    var db := w.db;
    && TablesOk(tb, w)
    && PlayersOk(tb, db.players, w.clock)
    && UnsettledOk(tb, db.players, db.groups, db.members)
    && OnceUnsettled(db.groups, db.members)
    && SettledOk(db.groups, db.members, db.summaries)
    && SummariesOk(tb, db.players, db.summaries)
    && AppliedOk(db.summaries, w.applied)
  }

  // ----- calendars of one length -----

  lemma SameCalendar(tb: Table, a: nat, b: nat, time: int)
    requires SoundTable(tb) && InRounds(tb, a) && InRounds(tb, b)
    ensures Index(tb, a, time) == Index(tb, b, time)
  {
  }

  lemma IndexOfStart(tb: Table, t: nat, k: int)
    requires SoundTable(tb)
    ensures InRounds(tb, t) ==> Index(tb, t, Start(tb, t, k)) == k
    ensures t < tb.firstRound ==> Index(tb, t, Start(tb, t, k)) == 0
  {
    if InRounds(tb, t) {
      StartsItsRound(Cfg(tb, t), k);
    }
  }

  lemma IndexAtEnd(tb: Table, k: RoundKey, t: nat)
    requires SoundTable(tb) && InRounds(tb, k.tier) && InRounds(tb, t)
    ensures Index(tb, t, End(tb, k)) == k.index + 1
  {
    IndexOfStart(tb, t, k.index + 1);
  }

  lemma EndedIff(tb: Table, k: RoundKey, time: int)
    requires SoundTable(tb) && InRounds(tb, k.tier)
    ensures End(tb, k) <= time <==> k.index < Index(tb, k.tier, time)
  {
    EndedBefore(Cfg(tb, k.tier), k.index, time);
  }

  // ----- the clock -----

  lemma PlayersTick(tb: Table, players: Players, clock: int, now: int)
    requires PlayersOk(tb, players, clock) && clock <= now
    ensures PlayersOk(tb, players, now)
  {
    forall p | p in players
      ensures SettledIndex(tb, players[p]) <= Index(tb, players[p].tier, now)
    {
      IndexOrdered(Cfg(tb, players[p].tier), clock, now);
    }
  }

  lemma RoundsTick(tb: Table, rounds: Rounds, clock: int, now: int)
    requires RoundsOk(tb, rounds, clock) && clock <= now
    ensures RoundsOk(tb, rounds, now)
  {
    forall k | k in rounds
      ensures k.index <= Index(tb, k.tier, now)
    {
      IndexOrdered(Cfg(tb, k.tier), clock, now);
    }
  }

  lemma TablesTick(tb: Table, w: World, now: int)
    requires TablesOk(tb, w) && w.clock <= now
    ensures TablesOk(tb, w.(clock := now))
  {
    RoundsTick(tb, w.db.rounds, w.clock, now);
  }

  lemma TickKeeps(tb: Table, w: World, now: int)
    requires SoundTable(tb) && Inv(tb, w) && w.clock <= now
    ensures Inv(tb, w.(clock := now))
  {
    PlayersTick(tb, w.db.players, w.clock, now);
    TablesTick(tb, w, now);
  }

  // ----- one row of the players table -----

  /** A new row for p that fits everything already stored about p. */
  ghost predicate RowFits(tb: Table, db: Db, clock: int, p: PlayerId, x: Player) {
    && x.tier < |tb.tiers| && SettledIndex(tb, x) <= Index(tb, x.tier, clock)
    && (forall m: MemberKey :: m.player == p && Unsettled(db.groups, db.members, m) ==>
          x.tier == m.round.tier && SettledIndex(tb, x) <= m.round.index)
    && (forall s: SummaryKey :: s.player == p && s in db.summaries ==> SummaryFits(tb, x, s))
  }

  lemma PlayerRowUnsettled(tb: Table, db: Db, clock: int, p: PlayerId, x: Player)
    requires UnsettledOk(tb, db.players, db.groups, db.members) && RowFits(tb, db, clock, p, x)
    ensures UnsettledOk(tb, db.players[p := x], db.groups, db.members)
  {
    var players := db.players[p := x];
    forall m | Unsettled(db.groups, db.members, m)
      ensures m.player in players && players[m.player].tier == m.round.tier
      ensures SettledIndex(tb, players[m.player]) <= m.round.index
    {
    }
  }

  lemma PlayerRowSummaries(tb: Table, db: Db, clock: int, p: PlayerId, x: Player)
    requires SummariesOk(tb, db.players, db.summaries) && RowFits(tb, db, clock, p, x)
    ensures SummariesOk(tb, db.players[p := x], db.summaries)
  {
    var players := db.players[p := x];
    forall s | s in db.summaries
      ensures s.player in players && SummaryFits(tb, players[s.player], s)
    {
    }
  }

  lemma PlayerRowKeeps(tb: Table, w: World, p: PlayerId, x: Player)
    requires SoundTable(tb) && Inv(tb, w) && RowFits(tb, w.db, w.clock, p, x)
    ensures Inv(tb, w.(db := w.db.(players := w.db.players[p := x])))
  {
    PlayerRowUnsettled(tb, w.db, w.clock, p, x);
    PlayerRowSummaries(tb, w.db, w.clock, p, x);
  }

  // ----- accounts -----

  /** Nobody leaves the players table. */
  lemma PlayersApart(tb: Table, w: World, after: Db, applied: map<SummaryKey, nat>)
    requires TablesOk(tb, w) && w.db.players.Keys <= after.players.Keys
    requires after.rounds == w.db.rounds && after.groups == w.db.groups && after.members == w.db.members
    ensures TablesOk(tb, w.(db := after, applied := applied))
  {
  }

  lemma RegisterKeeps(tb: Table, w: World, p: PlayerId)
    requires SoundTable(tb) && Inv(tb, w) && p !in w.db.players
    ensures Inv(tb, w.(db := Register(tb, w.db, p, w.clock)))
  {
    IndexOfStart(tb, 0, Index(tb, 0, w.clock));
    PlayerRowKeeps(tb, w, p, Player(0, 0, Start(tb, 0, Index(tb, 0, w.clock))));
  }

  lemma DeleteRows(db: Db, p: PlayerId, g: GroupId)
    requires MembersOk(db.players, db.groups, db.members)
    ensures var after := Delete(db, p);
      |RowsOf(after.members, g)| == |RowsOf(db.members, g)| - (if CountsPlayer(db.members, p, g) then 1 else 0)
  {
    var m := MemberKey(p, g.round);
    if CountsPlayer(db.members, p, g) {
      assert RowsOf(db.members, g) == RowsOf(Delete(db, p).members, g) + {m};
    } else {
      assert RowsOf(db.members, g) == RowsOf(Delete(db, p).members, g);
    }
  }

  lemma DeleteCounts(tb: Table, db: Db, p: PlayerId)
    requires CountsOk(tb, db.groups, db.members) && MembersOk(db.players, db.groups, db.members)
    ensures var after := Delete(db, p); CountsOk(tb, after.groups, after.members)
  {
    var after := Delete(db, p);
    forall g | g in after.groups && after.groups[g].open
      ensures after.groups[g].count == |RowsOf(after.members, g)|
    {
      DeleteRows(db, p, g);
    }
  }

  ghost predicate SameButCounts(groups: Groups, after: Groups) {
    after.Keys == groups.Keys && forall g :: g in groups ==> after[g] == groups[g].(count := after[g].count)
  }

  /** Counts appear in no clause but their own. */
  lemma CountsApart(tb: Table, db: Db, drained: set<RoundKey>, groups: Groups)
    requires SameButCounts(db.groups, groups)
    ensures GroupsOk(tb, db.rounds, db.groups) ==> GroupsOk(tb, db.rounds, groups)
    ensures DrainedOk(db.rounds, db.groups, drained) ==> DrainedOk(db.rounds, groups, drained)
    ensures GlobalOk(tb, db.groups) ==> GlobalOk(tb, groups)
  {
    forall g, h | SameGlobalRoom(tb, groups, g, h)
      ensures SameGlobalRoom(tb, db.groups, g, h)
    {
    }
  }

  /** With no new membership to settle there are not two of one player. */
  lemma OnceInLess(groups: Groups, members: Members, groups': Groups, members': Members)
    requires OnceUnsettled(groups, members)
    requires forall m :: Unsettled(groups', members', m) ==> Unsettled(groups, members, m)
    ensures OnceUnsettled(groups', members')
  {
    forall m, n | BothUnsettled(groups', members', m, n)
      ensures m == n
    {
      assert BothUnsettled(groups, members, m, n);
    }
  }

  lemma DeleteUnsettled(tb: Table, db: Db, p: PlayerId)
    requires UnsettledOk(tb, db.players, db.groups, db.members) && OnceUnsettled(db.groups, db.members)
    ensures var after := Delete(db, p); UnsettledOk(tb, after.players, after.groups, after.members)
    ensures var after := Delete(db, p); OnceUnsettled(after.groups, after.members)
  {
    var after := Delete(db, p);
    forall m | Unsettled(after.groups, after.members, m)
      ensures Unsettled(db.groups, db.members, m)
    {
    }
    OnceInLess(db.groups, db.members, after.groups, after.members);
  }

  lemma DeleteSettled(tb: Table, db: Db, p: PlayerId)
    requires SettledOk(db.groups, db.members, db.summaries) && MembersOk(db.players, db.groups, db.members)
    ensures var after := Delete(db, p); SettledOk(after.groups, after.members, after.summaries)
  {
  }

  lemma DeleteSummaries(tb: Table, w: World, p: PlayerId)
    requires SummariesOk(tb, w.db.players, w.db.summaries) && AppliedOk(w.db.summaries, w.applied)
    ensures var after := Delete(w.db, p);
      SummariesOk(tb, after.players, after.summaries) && AppliedOk(after.summaries, AppliedWithout(w.applied, p))
  {
  }

  lemma DeleteMembers(tb: Table, db: Db, p: PlayerId)
    requires MembersOk(db.players, db.groups, db.members)
    ensures var after := Delete(db, p); MembersOk(after.players, after.groups, after.members)
  {
  }

  lemma DeleteTables(tb: Table, w: World, p: PlayerId)
    requires TablesOk(tb, w)
    ensures TablesOk(tb, w.(db := Delete(w.db, p), applied := AppliedWithout(w.applied, p)))
  {
    CountsApart(tb, w.db, w.drained, Delete(w.db, p).groups);
    DeleteCounts(tb, w.db, p);
    DeleteMembers(tb, w.db, p);
  }

  lemma DeleteKeeps(tb: Table, w: World, p: PlayerId)
    requires SoundTable(tb) && Inv(tb, w)
    ensures Inv(tb, w.(db := Delete(w.db, p), applied := AppliedWithout(w.applied, p)))
  {
    DeleteTables(tb, w, p);
    DeleteUnsettled(tb, w.db, p);
    DeleteSettled(tb, w.db, p);
    DeleteSummaries(tb, w, p);
  }

  // ----- rounds -----

  lemma OpenRoundFits(tb: Table, db: Db, clock: int, drained: set<RoundKey>, key: RoundKey)
    requires InRounds(tb, key.tier) && key.index <= Index(tb, key.tier, clock) && key !in db.rounds
    requires RoundsOk(tb, db.rounds, clock) && GroupsOk(tb, db.rounds, db.groups)
    requires DrainedOk(db.rounds, db.groups, drained)
    ensures var rounds := EnsureRound(tb, db, key).rounds;
      RoundsOk(tb, rounds, clock) && GroupsOk(tb, rounds, db.groups) && DrainedOk(rounds, db.groups, drained)
  {
    var r := Round(Open, End(tb, key), 0, NoPair, -1);
    OneRoundFits(tb, db.rounds, clock, key, r);
    OneRoundMore(tb, db.rounds, db.groups, drained, key, r);
    assert EnsureRound(tb, db, key).rounds == db.rounds[key := r];
  }

  lemma OneRoundFits(tb: Table, rounds: Rounds, clock: int, key: RoundKey, r: Round)
    requires RoundsOk(tb, rounds, clock) && InRounds(tb, key.tier) && r.endsAt == End(tb, key) && r.state == Open
    requires key.index <= Index(tb, key.tier, clock)
    ensures RoundsOk(tb, rounds[key := r], clock)
  {
  }

  /** No group and no closer is concerned by a new round. */
  lemma OneRoundMore(tb: Table, rounds: Rounds, groups: Groups, drained: set<RoundKey>, key: RoundKey, r: Round)
    requires key !in rounds && GroupsOk(tb, rounds, groups) && DrainedOk(rounds, groups, drained)
    ensures GroupsOk(tb, rounds[key := r], groups) && DrainedOk(rounds[key := r], groups, drained)
  {
  }

  lemma OpenRoundFreezesNothing(tb: Table, db: Db, key: RoundKey)
    requires key !in db.rounds && PairsOk(tb, db.rounds)
    ensures PairsOk(tb, EnsureRound(tb, db, key).rounds)
  {
    var rounds := EnsureRound(tb, db, key).rounds;
    forall a, b | ClaimedSiblings(tb, rounds, a, b)
      ensures rounds[a].pair == rounds[b].pair
    {
      assert ClaimedSiblings(tb, db.rounds, a, b);
    }
  }

  lemma EnsureRoundTables(tb: Table, w: World, key: RoundKey)
    requires TablesOk(tb, w) && InRounds(tb, key.tier) && key.index <= Index(tb, key.tier, w.clock)
    ensures TablesOk(tb, w.(db := EnsureRound(tb, w.db, key)))
  {
    if key !in w.db.rounds {
      OpenRoundFits(tb, w.db, w.clock, w.drained, key);
      OpenRoundFreezesNothing(tb, w.db, key);
    }
  }

  lemma EnsureRoundKeeps(tb: Table, w: World, key: RoundKey)
    requires SoundTable(tb) && Inv(tb, w) && InRounds(tb, key.tier) && key.index <= Index(tb, key.tier, w.clock)
    ensures Inv(tb, w.(db := EnsureRound(tb, w.db, key)))
  {
    EnsureRoundTables(tb, w, key);
  }

  lemma EndsTogether(tb: Table, a: RoundKey, b: RoundKey)
    requires SoundTable(tb) && InRounds(tb, a.tier) && InRounds(tb, b.tier)
    ensures End(tb, a) == End(tb, b) <==> a.index == b.index
  {
    IndexAtEnd(tb, a, a.tier);
    IndexAtEnd(tb, b, a.tier);
  }

  lemma OnlyRoundEnding(tb: Table, rounds: Rounds, clock: int, b: RoundKey, endsAt: int, k: RoundKey)
    requires SoundTable(tb) && RoundsOk(tb, rounds, clock) && b in rounds && rounds[b].endsAt == endsAt
    ensures IsRoundEndingAt(rounds, b.tier, endsAt, k) <==> k == b
  {
    forall j | EndsThen(rounds, b.tier, endsAt, j)
      ensures j == b
    {
      EndsTogether(tb, j, b);
    }
  }

  /** Whichever sibling is claimed second freezes the pair of the first. */
  lemma PairIsShared(tb: Table, w: World, key: RoundKey, b: RoundKey)
    requires SoundTable(tb) && TablesOk(tb, w) && key in w.db.rounds && b in w.db.rounds && b != key
    requires FrozenTiers(tb, key.tier) == FrozenTiers(tb, b.tier) && key.index == b.index
    requires w.db.rounds[b].state != Open
    ensures PairFor(tb, w.db.players, w.db.rounds, key, w.db.rounds[key].endsAt) == w.db.rounds[b].pair
  {
    var (below, capped) := FrozenTiers(tb, key.tier);
    assert RoundFrozen(tb, b, w.db.rounds[b]);
    if below != capped {
      assert b.tier == if key.tier == below then capped else below;
      EndsTogether(tb, key, b);
      var endsAt := w.db.rounds[key].endsAt;
      forall k
        ensures IsRoundEndingAt(w.db.rounds, b.tier, endsAt, k) <==> k == b
      {
        OnlyRoundEnding(tb, w.db.rounds, w.clock, b, endsAt, k);
      }
    }
  }

  lemma ClaimFrozen(tb: Table, w: World, key: RoundKey)
    requires SoundTable(tb) && TablesOk(tb, w) && key in w.db.rounds && w.db.rounds[key].state == Open
    ensures PairsOk(tb, Claim(tb, w.db, key).rounds)
  {
    var rounds := Claim(tb, w.db, key).rounds;
    forall a, b | ClaimedSiblings(tb, rounds, a, b)
      ensures rounds[a].pair == rounds[b].pair
    {
      if a == key && b != key {
        PairIsShared(tb, w, key, b);
      } else if b == key && a != key {
        PairIsShared(tb, w, key, a);
      } else if a != key {
        assert ClaimedSiblings(tb, w.db.rounds, a, b);
      }
    }
  }

  /** The same round further on in its life. */
  ghost predicate RoundMovesOn(w: World, key: RoundKey, r: Round) {
    && key in w.db.rounds && r.endsAt == w.db.rounds[key].endsAt && r.groupSeq == w.db.rounds[key].groupSeq
    && r.state != Open && r.endsAt <= w.clock
    && (r.state == Closed ==> NoOpenGroup(w.db.groups, key))
  }

  lemma RoundRowTables(tb: Table, w: World, key: RoundKey, r: Round)
    requires TablesOk(tb, w) && RoundMovesOn(w, key, r) && PairsOk(tb, w.db.rounds[key := r])
    ensures TablesOk(tb, w.(db := w.db.(rounds := w.db.rounds[key := r])))
  {
    var rounds := w.db.rounds[key := r];
    assert GroupsOk(tb, rounds, w.db.groups);
    assert DrainedOk(rounds, w.db.groups, w.drained);
  }

  lemma ClaimTables(tb: Table, w: World, key: RoundKey)
    requires SoundTable(tb) && TablesOk(tb, w) && key in w.db.rounds && w.db.rounds[key].endsAt <= w.clock
    ensures TablesOk(tb, w.(db := Claim(tb, w.db, key)))
  {
    if w.db.rounds[key].state == Open {
      ClaimFrozen(tb, w, key);
      RoundRowTables(tb, w, key, Claim(tb, w.db, key).rounds[key]);
    }
  }

  lemma ClaimKeeps(tb: Table, w: World, key: RoundKey)
    requires SoundTable(tb) && Inv(tb, w) && key in w.db.rounds && w.db.rounds[key].endsAt <= w.clock
    ensures Inv(tb, w.(db := Claim(tb, w.db, key)))
  {
    ClaimTables(tb, w, key);
  }

  lemma FinishFrozen(tb: Table, rounds: Rounds, key: RoundKey)
    requires PairsOk(tb, rounds) && key in rounds && rounds[key].state == Closing
    ensures PairsOk(tb, rounds[key := rounds[key].(state := Closed)])
  {
    var after := rounds[key := rounds[key].(state := Closed)];
    forall a, b | ClaimedSiblings(tb, after, a, b)
      ensures after[a].pair == after[b].pair
    {
      assert ClaimedSiblings(tb, rounds, a, b);
    }
  }

  lemma FinishTables(tb: Table, w: World, key: RoundKey)
    requires TablesOk(tb, w) && key in w.db.rounds && key in w.drained
    ensures TablesOk(tb, w.(db := Finish(w.db, key)))
  {
    if w.db.rounds[key].state == Closing {
      FinishFrozen(tb, w.db.rounds, key);
      RoundRowTables(tb, w, key, w.db.rounds[key].(state := Closed));
    }
  }

  lemma FinishKeeps(tb: Table, w: World, key: RoundKey)
    requires Inv(tb, w) && key in w.db.rounds && key in w.drained
    ensures Inv(tb, w.(db := Finish(w.db, key)))
  {
    FinishTables(tb, w, key);
  }

  lemma SeesTables(tb: Table, w: World, key: RoundKey)
    requires TablesOk(tb, w) && key in w.db.rounds && w.db.rounds[key].state != Open && NoOpenGroup(w.db.groups, key)
    ensures TablesOk(tb, w.(drained := w.drained + {key}))
  {
  }

  lemma SeesKeeps(tb: Table, w: World, key: RoundKey)
    requires Inv(tb, w) && key in w.db.rounds && w.db.rounds[key].state != Open && NoOpenGroup(w.db.groups, key)
    ensures Inv(tb, w.(drained := w.drained + {key}))
  {
    SeesTables(tb, w, key);
  }

  // ----- one player moves -----

  lemma AddSummaryKeeps(tb: Table, w: World, s: SummaryKey, sum: Summary)
    requires Inv(tb, w) && s !in w.db.summaries && s.player in w.db.players
    requires SummaryFits(tb, w.db.players[s.player], s)
    ensures Inv(tb, w.(db := w.db.(summaries := w.db.summaries[s := sum]), applied := AppliedOnce(w.applied, {s})))
  {
    var summaries := w.db.summaries[s := sum];
    assert AppliedOk(summaries, AppliedOnce(w.applied, {s}));
  }

  /** The row of a player who moves to `after`, settled up to the running round there. */
  function MovedNow(tb: Table, p: Player, after: nat, now: int): Player {
    Moved(p, after, Start(tb, after, Index(tb, after, now)))
  }

  lemma MovedNowSettled(tb: Table, p: Player, after: nat, now: int)
    requires SoundTable(tb) && after < |tb.tiers|
    ensures var x := MovedNow(tb, p, after, now);
      x.tier == after && SettledIndex(tb, x) == Index(tb, after, now)
  {
    IndexOfStart(tb, after, Index(tb, after, now));
  }

  /** A round without a game changes nothing in such a tier. */
  predicate Freezes(tb: Table, tier: nat) {
    InactiveOutcome(Cfg(tb, tier)) == InactiveFrozen
  }

  /** An absence now takes nothing from a membership of p's that is still to be settled. */
  ghost predicate Spared(tb: Table, db: Db, p: PlayerId, now: int) {
    forall m: MemberKey :: m.player == p && Unsettled(db.groups, db.members, m) ==>
      now < End(tb, m.round) && Freezes(tb, m.round.tier)
  }

  /** What an absence may leave unsettled: a membership in a running round of a tier it does not
      take its player out of. */
  lemma AbsenceSpares(tb: Table, w: World, p: PlayerId, m: MemberKey, missed: int)
    requires SoundTable(tb) && Inv(tb, w) && p in w.db.players && Spared(tb, w.db, p, w.clock)
    requires m.player == p && Unsettled(w.db.groups, w.db.members, m)
    ensures w.db.players[p].tier == m.round.tier && Index(tb, m.round.tier, w.clock) <= m.round.index
    ensures TierAfterAbsence(tb, m.round.tier, missed) == m.round.tier
  {
    assert m.round in w.db.rounds;
    EndedIff(tb, m.round, w.clock);
    FrozenStays(tb, m.round.tier, missed);
  }

  lemma FrozenStays(tb: Table, tier: nat, missed: int)
    requires Freezes(tb, tier)
    ensures TierAfterAbsence(tb, tier, missed) == tier
  {
    if tier < |tb.tiers| && missed > 0 {
      MissingChangesNothing(tb.tiers, tier, missed);
    }
  }

  lemma AbsenceStays(tb: Table, p: Player, now: int)
    requires SoundTable(tb) && p.tier < |tb.tiers| && Missed(tb, p, now) > 0
    ensures InRounds(tb, p.tier) && InRounds(tb, TierAfterAbsence(tb, p.tier, Missed(tb, p, now)))
  {
    FloorHolds(tb.tiers, p.tier, Missed(tb, p, now), tb.firstRound);
  }

  /** A player who missed rounds, and is charged for them now. */
  ghost predicate MissesNow(tb: Table, w: World, p: PlayerId, r: Readings) {
    p in w.db.players && InOrder(r) && r.settled == w.clock && Missed(tb, w.db.players[p], r.counted) > 0
  }

  lemma AbsenceRowFits(tb: Table, w: World, p: PlayerId, r: Readings)
    requires SoundTable(tb) && Inv(tb, w) && MissesNow(tb, w, p, r) && Spared(tb, w.db, p, w.clock)
    ensures var x := Absence(tb, w.db, p, r).players[p];
      && RowFits(tb, w.db, w.clock, p, x) && InRounds(tb, x.tier)
      && SettledIndex(tb, x) == Index(tb, w.db.players[p].tier, w.clock)
  {
    var pl := w.db.players[p];
    var missed := Missed(tb, pl, r.counted);
    var after := TierAfterAbsence(tb, pl.tier, missed);
    AbsenceStays(tb, pl, r.counted);
    MovedNowSettled(tb, pl, after, w.clock);
    SameCalendar(tb, pl.tier, after, w.clock);
    AbsenceIsAhead(tb, pl, r);
    forall m: MemberKey | m.player == p && Unsettled(w.db.groups, w.db.members, m)
      ensures after == m.round.tier && Index(tb, after, w.clock) <= m.round.index
    {
      AbsenceSpares(tb, w, p, m, missed);
    }
  }

  /** The round an absence is booked for is not settled yet, and the one its player is settled up to is
      a later one. */
  lemma AbsenceIsAhead(tb: Table, p: Player, r: Readings)
    requires InOrder(r) && Missed(tb, p, r.counted) > 0
    ensures SettledIndex(tb, p) < Index(tb, p.tier, r.booked) <= Index(tb, p.tier, r.settled)
  {
    IndexOrdered(Cfg(tb, p.tier), r.counted, r.booked);
    IndexOrdered(Cfg(tb, p.tier), r.booked, r.settled);
  }

  /** The inactive summary is always inserted: the round before the running one has none yet. */
  lemma AbsenceIsNew(tb: Table, w: World, p: PlayerId, r: Readings)
    requires SoundTable(tb) && Inv(tb, w) && p in w.db.players
    requires InOrder(r) && Missed(tb, w.db.players[p], r.counted) > 0
    ensures AbsenceKey(tb, w.db, p, r.booked) !in w.db.summaries
  {
    AbsenceIsAhead(tb, w.db.players[p], r);
  }

  lemma AbsenceRowKeeps(tb: Table, w: World, p: PlayerId, r: Readings)
    requires SoundTable(tb) && Inv(tb, w) && MissesNow(tb, w, p, r) && Spared(tb, w.db, p, w.clock)
    ensures var after := Absence(tb, w.db, p, r).players;
      Inv(tb, w.(db := w.db.(players := after))) && SummaryFits(tb, after[p], AbsenceKey(tb, w.db, p, r.booked))
  {
    AbsenceRowFits(tb, w, p, r);
    AbsenceIsAhead(tb, w.db.players[p], r);
    PlayerRowKeeps(tb, w, p, Absence(tb, w.db, p, r).players[p]);
  }

  lemma AbsenceKeeps(tb: Table, w: World, p: PlayerId, r: Readings)
    requires SoundTable(tb) && Inv(tb, w) && MissesNow(tb, w, p, r) && Spared(tb, w.db, p, w.clock)
    ensures Inv(tb, AbsentWorld(tb, w, p, r))
  {
    AbsenceRowKeeps(tb, w, p, r);
    AbsenceIsNew(tb, w, p, r);
    var s := AbsenceKey(tb, w.db, p, r.booked);
    var after := Absence(tb, w.db, p, r);
    AddSummaryKeeps(tb, w.(db := w.db.(players := after.players)), s, after.summaries[s]);
  }

  /** The same rows in the same groups, settled or not. */
  ghost predicate SamePlaces(members: Members, after: Members) {
    after.Keys == members.Keys && forall m :: m in members ==>
      after[m].group == members[m].group && after[m].left == members[m].left && after[m].verdict == members[m].verdict
  }

  lemma SamePlacesCounts(tb: Table, groups: Groups, members: Members, after: Members)
    requires SamePlaces(members, after) && CountsOk(tb, groups, members)
    ensures CountsOk(tb, groups, after)
  {
    forall g | g in groups
      ensures RowsOf(after, g) == RowsOf(members, g)
    {
    }
  }

  lemma SamePlacesTables(tb: Table, w: World, after: Members)
    requires TablesOk(tb, w) && SamePlaces(w.db.members, after)
    ensures TablesOk(tb, w.(db := w.db.(members := after)))
  {
    SamePlacesCounts(tb, w.db.groups, w.db.members, after);
  }

  lemma SamePlacesKeeps(tb: Table, w: World, after: Members)
    requires Inv(tb, w) && SamePlaces(w.db.members, after)
    ensures Inv(tb, w.(db := w.db.(members := after)))
  {
    SamePlacesTables(tb, w, after);
    forall m | Unsettled(w.db.groups, after, m)
      ensures Unsettled(w.db.groups, w.db.members, m)
    {
    }
    OnceInLess(w.db.groups, w.db.members, w.db.groups, after);
  }

  lemma PointsFit(tb: Table, w: World, p: PlayerId, points: int)
    requires Inv(tb, w) && p in w.db.players
    ensures RowFits(tb, w.db, w.clock, p, w.db.players[p].(points := points))
  {
  }

  lemma ScorePlaces(db: Db, p: PlayerId, key: RoundKey, points: int, score: int, games: int, last: int)
    requires p in db.players
    ensures SamePlaces(db.members, Score(db, p, key, points, score, games, last).members)
  {
  }

  lemma ScoreTables(tb: Table, w: World, p: PlayerId, key: RoundKey, points: int, score: int, games: int, last: int)
    requires TablesOk(tb, w) && p in w.db.players
    ensures TablesOk(tb, w.(db := Score(w.db, p, key, points, score, games, last)))
  {
    var after := Score(w.db, p, key, points, score, games, last);
    PlayersApart(tb, w, w.db.(players := after.players), w.applied);
    ScorePlaces(w.db, p, key, points, score, games, last);
    SamePlacesTables(tb, w.(db := w.db.(players := after.players)), after.members);
  }

  lemma ScoreKeeps(tb: Table, w: World, p: PlayerId, key: RoundKey, points: int, score: int, games: int, last: int)
    requires SoundTable(tb) && Inv(tb, w) && p in w.db.players
    ensures Inv(tb, w.(db := Score(w.db, p, key, points, score, games, last)))
  {
    var after := Score(w.db, p, key, points, score, games, last);
    PointsFit(tb, w, p, after.players[p].points);
    PlayerRowKeeps(tb, w, p, after.players[p]);
    ScorePlaces(w.db, p, key, points, score, games, last);
    SamePlacesKeeps(tb, w.(db := w.db.(players := after.players)), after.members);
  }

  lemma PromotionRowFits(tb: Table, w: World, p: PlayerId)
    requires SoundTable(tb) && Inv(tb, w) && p in w.db.players && PromotesByScore(tb, w.db.players[p])
    ensures var s := PromotionKey(w.db, p, Index(tb, w.db.players[p].tier, w.clock));
      var x := PromoteByScore(tb, w.db, p, w.clock).players[p];
      RowFits(tb, w.db, w.clock, p, x) && s !in w.db.summaries && SummaryFits(tb, x, s)
  {
    var pl := w.db.players[p];
    var above := PromoteTier(tb.tiers, pl.tier);
    MovedNowSettled(tb, pl, above, w.clock);
    forall m: MemberKey | m.player == p
      ensures !Unsettled(w.db.groups, w.db.members, m)
    {
      assert m in w.db.members ==> m.round in w.db.rounds && InRounds(tb, m.round.tier);
    }
  }

  /** A score tier has no rounds, so there is no membership to leave. */
  lemma PromotionLeavesNothing(tb: Table, w: World, p: PlayerId)
    requires SoundTable(tb) && TablesOk(tb, w) && p in w.db.players && PromotesByScore(tb, w.db.players[p])
    ensures PromoteByScore(tb, w.db, p, w.clock).members == w.db.members
  {
    var m := MemberKey(p, RoundKey(w.db.players[p].tier, Index(tb, w.db.players[p].tier, w.clock)));
    assert m in w.db.members ==> m.round in w.db.rounds && InRounds(tb, m.round.tier);
  }

  lemma PromoteKeeps(tb: Table, w: World, p: PlayerId)
    requires SoundTable(tb) && Inv(tb, w) && p in w.db.players && PromotesByScore(tb, w.db.players[p])
    ensures Inv(tb, w.(db := PromoteByScore(tb, w.db, p, w.clock),
                       applied := AppliedOnce(w.applied, {PromotionKey(w.db, p, Index(tb, w.db.players[p].tier, w.clock))})))
  {
    PromotionRowFits(tb, w, p);
    PromotionLeavesNothing(tb, w, p);
    var after := PromoteByScore(tb, w.db, p, w.clock);
    var s := PromotionKey(w.db, p, Index(tb, w.db.players[p].tier, w.clock));
    PlayerRowKeeps(tb, w, p, after.players[p]);
    AddSummaryKeeps(tb, w.(db := w.db.(players := after.players)), s, after.summaries[s]);
  }

  // ----- joining -----

  /** A join of the running round by a player with nothing to settle in an ended one. */
  ghost predicate JoinsNow(tb: Table, db: Db, p: PlayerId, key: RoundKey, now: int) {
    JoinsRunning(tb, db, p, key, now) && CaughtUp(tb, db, p, now)
  }

  /** A step that joins the running round, taken now; and one that does so with nothing left behind. */
  ghost predicate JoinsAny(tb: Table, w: World, p: PlayerId, key: RoundKey, q: bool, wish: Wish, g: GroupId) {
    JoinsRunning(tb, w.db, p, key, w.clock) && Placement(tb, w.db, key, q, wish, g) && Listed(tb, w.db.groups, key, wish)
  }

  ghost predicate JoinsWell(tb: Table, w: World, p: PlayerId, key: RoundKey, q: bool, wish: Wish, g: GroupId) {
    JoinsAny(tb, w, p, key, q, wish, g) && CaughtUp(tb, w.db, p, w.clock)
  }

  lemma RunningRoundIsOpen(tb: Table, w: World, key: RoundKey)
    requires SoundTable(tb) && RoundsOk(tb, w.db.rounds, w.clock) && key in w.db.rounds && key.index == Index(tb, key.tier, w.clock)
    ensures w.db.rounds[key].state == Open
  {
    EndedIff(tb, key, w.clock);
  }

  /** Where the join ends up: an open group of that round with room, or one that did not exist. */
  lemma JoinTarget(tb: Table, w: World, p: PlayerId, key: RoundKey, q: bool, wish: Wish, g: GroupId)
    requires SoundTable(tb) && TablesOk(tb, w) && JoinsAny(tb, w, p, key, q, wish, g)
    ensures g.round == key
    ensures g in w.db.groups ==>
      w.db.groups[g].open && (w.db.groups[g].capacity.Limited? ==> w.db.groups[g].count < tb.groupMax)
    ensures g !in w.db.groups ==> g.seqNo == w.db.rounds[key].groupSeq + 1
  {
  }

  lemma JoinRows(members: Members, m: MemberKey, g: GroupId, h: GroupId)
    requires m !in members
    ensures |RowsOf(members[m := NewMember(g)], h)| == |RowsOf(members, h)| + if h == g then 1 else 0
  {
    var after := members[m := NewMember(g)];
    if h == g {
      assert RowsOf(after, h) == RowsOf(members, h) + {m};
    } else {
      assert RowsOf(after, h) == RowsOf(members, h);
    }
  }

  lemma OneRowMore(tb: Table, db: Db, p: PlayerId, key: RoundKey, q: bool, g: GroupId)
    requires CountsOk(tb, db.groups, db.members) && key in db.rounds && MemberKey(p, key) !in db.members && tb.groupMax >= 1
    requires g in db.groups ==> db.groups[g].capacity.Limited? ==> db.groups[g].count < tb.groupMax
    requires g !in db.groups ==> RowsOf(db.members, g) == {}
    ensures var after := Join(tb, db, p, key, q, g); CountsOk(tb, after.groups, after.members)
  {
    var after := Join(tb, db, p, key, q, g);
    forall h | h in after.groups && after.groups[h].open
      ensures after.groups[h].count == |RowsOf(after.members, h)|
      ensures after.groups[h].capacity.Limited? ==> after.groups[h].count <= tb.groupMax
    {
      JoinRows(db.members, MemberKey(p, key), g, h);
    }
  }

  lemma JoinCounts(tb: Table, w: World, p: PlayerId, key: RoundKey, q: bool, wish: Wish, g: GroupId)
    requires SoundTable(tb) && TablesOk(tb, w) && JoinsAny(tb, w, p, key, q, wish, g)
    ensures var after := Join(tb, w.db, p, key, q, g); CountsOk(tb, after.groups, after.members)
  {
    JoinTarget(tb, w, p, key, q, wish, g);
    if g !in w.db.groups {
      assert RowsOf(w.db.members, g) == {};
    }
    OneRowMore(tb, w.db, p, key, q, g);
  }

  ghost predicate NothingToSettle(db: Db, p: PlayerId) {
    forall m: MemberKey :: m.player == p ==> !Unsettled(db.groups, db.members, m)
  }

  /** Who joins is in the tier of the round, not settled past it, and has nothing else to settle. */
  lemma JoinsWhereSettled(tb: Table, w: World, p: PlayerId, key: RoundKey)
    requires SoundTable(tb) && Inv(tb, w) && JoinsNow(tb, w.db, p, key, w.clock)
    ensures w.db.players[p].tier == key.tier && SettledIndex(tb, w.db.players[p]) <= key.index
    ensures NothingToSettle(w.db, p)
  {
    forall m: MemberKey | m.player == p
      ensures !Unsettled(w.db.groups, w.db.members, m)
    {
      if Unsettled(w.db.groups, w.db.members, m) {
        RunningIsTheOnlyOne(tb, w, p, m);
        assert false;
      }
    }
  }

  /** A membership to settle in no ended round is one in the running round of the player's tier. */
  lemma RunningIsTheOnlyOne(tb: Table, w: World, p: PlayerId, m: MemberKey)
    requires SoundTable(tb) && Inv(tb, w) && CaughtUp(tb, w.db, p, w.clock)
    requires m.player == p && Unsettled(w.db.groups, w.db.members, m)
    ensures p in w.db.players && m.round == RoundKey(w.db.players[p].tier, Index(tb, w.db.players[p].tier, w.clock))
  {
    assert m.round in w.db.rounds;
    EndedIff(tb, m.round, w.clock);
  }

  lemma JoinUnsettled(tb: Table, db: Db, m: MemberKey, g: GroupId, gr: Group)
    requires UnsettledOk(tb, db.players, db.groups, db.members) && MembersOk(db.players, db.groups, db.members)
    requires m.player in db.players && db.players[m.player].tier == m.round.tier
    requires SettledIndex(tb, db.players[m.player]) <= m.round.index
    requires g in db.groups ==> db.groups[g].open
    ensures UnsettledOk(tb, db.players, db.groups[g := gr], db.members[m := NewMember(g)])
  {
    forall x | Unsettled(db.groups[g := gr], db.members[m := NewMember(g)], x) && x != m
      ensures Unsettled(db.groups, db.members, x)
    {
      assert x in db.members && db.members[x].group in db.groups;
    }
  }

  lemma JoinOnce(db: Db, m: MemberKey, g: GroupId, gr: Group)
    requires MembersOk(db.players, db.groups, db.members) && OnceUnsettled(db.groups, db.members)
    requires NothingToSettle(db, m.player) && (g in db.groups ==> db.groups[g].open)
    ensures OnceUnsettled(db.groups[g := gr], db.members[m := NewMember(g)])
  {
    var groups, members := db.groups[g := gr], db.members[m := NewMember(g)];
    forall x | Unsettled(groups, members, x) && x != m
      ensures Unsettled(db.groups, db.members, x)
    {
      assert x in db.members && db.members[x].group in db.groups;
    }
    forall x, y | BothUnsettled(groups, members, x, y)
      ensures x == y
    {
      if x != m && y != m {
        assert BothUnsettled(db.groups, db.members, x, y);
      }
    }
  }

  lemma JoinSettled(db: Db, m: MemberKey, g: GroupId, gr: Group)
    requires SettledOk(db.groups, db.members, db.summaries) && MembersOk(db.players, db.groups, db.members) && gr.open
    ensures SettledOk(db.groups[g := gr], db.members[m := NewMember(g)], db.summaries)
  {
  }

  lemma JoinMembers(db: Db, m: MemberKey, g: GroupId, gr: Group)
    requires MembersOk(db.players, db.groups, db.members) && m.player in db.players && g.round == m.round
    ensures MembersOk(db.players, db.groups[g := gr], db.members[m := NewMember(g)])
  {
  }

  /** A global tier opens a second group of one quarantine flag for nobody. */
  lemma JoinGlobal(tb: Table, w: World, key: RoundKey, q: bool, wish: Wish, g: GroupId)
    requires TablesOk(tb, w) && Placement(tb, w.db, key, q, wish, g) && g.round == key && w.db.rounds[key].state == Open
    ensures GlobalOk(tb, w.db.groups[g := GroupJoined(tb, w.db.groups, key.tier, q, g)])
  {
    var groups := w.db.groups[g := GroupJoined(tb, w.db.groups, key.tier, q, g)];
    forall a, b | SameGlobalRoom(tb, groups, a, b)
      ensures a == b
    {
      if g in w.db.groups || (a != g && b != g) {
        assert SameGlobalRoom(tb, w.db.groups, a, b);
      } else if a != b {
        NoGlobalGroup(tb, w, key, q, wish, g, if a == g then b else a);
      }
    }
  }

  lemma NoGlobalGroup(tb: Table, w: World, key: RoundKey, q: bool, wish: Wish, g: GroupId, h: GroupId)
    requires TablesOk(tb, w) && Placement(tb, w.db, key, q, wish, g) && g !in w.db.groups
    requires Cfg(tb, key.tier).global && w.db.rounds[key].state == Open
    requires h in w.db.groups && h.round == key
    ensures w.db.groups[h].quarantine != q
  {
    if w.db.groups[h].quarantine == q {
      assert Fillable(w.db.groups, key, q, h);
      forall j | Fillable(w.db.groups, key, q, j)
        ensures j == h
      {
        assert SameGlobalRoom(tb, w.db.groups, j, h);
      }
      assert IsFullest(w.db.groups, key, q, h);
      assert false;
    }
  }

  lemma JoinRounds(tb: Table, db: Db, clock: int, p: PlayerId, key: RoundKey, q: bool, g: GroupId)
    requires RoundsOk(tb, db.rounds, clock) && PairsOk(tb, db.rounds) && key in db.rounds
    ensures var after := Join(tb, db, p, key, q, g); RoundsOk(tb, after.rounds, clock) && PairsOk(tb, after.rounds)
  {
    var rounds := Join(tb, db, p, key, q, g).rounds;
    forall a, b | ClaimedSiblings(tb, rounds, a, b)
      ensures ClaimedSiblings(tb, db.rounds, a, b)
    {
    }
  }

  lemma JoinGroups(tb: Table, db: Db, drained: set<RoundKey>, p: PlayerId, key: RoundKey, q: bool, g: GroupId)
    requires GroupsOk(tb, db.rounds, db.groups) && DrainedOk(db.rounds, db.groups, drained)
    requires key in db.rounds && db.rounds[key].state == Open && g.round == key
    requires g !in db.groups ==> g.seqNo == db.rounds[key].groupSeq + 1
    ensures var after := Join(tb, db, p, key, q, g);
      GroupsOk(tb, after.rounds, after.groups) && DrainedOk(after.rounds, after.groups, drained)
  {
  }

  lemma JoinTables(tb: Table, w: World, p: PlayerId, key: RoundKey, q: bool, wish: Wish, g: GroupId)
    requires SoundTable(tb) && TablesOk(tb, w) && JoinsAny(tb, w, p, key, q, wish, g)
    ensures TablesOk(tb, w.(db := Join(tb, w.db, p, key, q, g)))
  {
    JoinCounts(tb, w, p, key, q, wish, g);
    JoinTarget(tb, w, p, key, q, wish, g);
    RunningRoundIsOpen(tb, w, key);
    JoinMembers(w.db, MemberKey(p, key), g, GroupJoined(tb, w.db.groups, key.tier, q, g));
    JoinGlobal(tb, w, key, q, wish, g);
    JoinRounds(tb, w.db, w.clock, p, key, q, g);
    JoinGroups(tb, w.db, w.drained, p, key, q, g);
  }

  lemma JoinKeeps(tb: Table, w: World, p: PlayerId, key: RoundKey, q: bool, wish: Wish, g: GroupId)
    requires SoundTable(tb) && Inv(tb, w) && JoinsWell(tb, w, p, key, q, wish, g)
    ensures Inv(tb, w.(db := Join(tb, w.db, p, key, q, g)))
  {
    JoinTables(tb, w, p, key, q, wish, g);
    JoinTarget(tb, w, p, key, q, wish, g);
    JoinsWhereSettled(tb, w, p, key);
    var gr := GroupJoined(tb, w.db.groups, key.tier, q, g);
    JoinUnsettled(tb, w.db, MemberKey(p, key), g, gr);
    JoinOnce(w.db, MemberKey(p, key), g, gr);
    JoinSettled(w.db, MemberKey(p, key), g, gr);
  }

  // ----- closing a group -----

  /** A group that a closer is about to settle, with a verdict for everybody in it. */
  ghost predicate ClosesWell(w: World, g: GroupId, vs: Verdicts) {
    && g in w.db.groups && g.round in w.db.rounds && w.db.rounds[g.round].state != Open
    && w.db.groups[g].open && Covered(w.db.members, g, vs)
  }

  /** Evaluating a group leaves nobody in it without a verdict. */
  lemma JudgedCovers(tb: Table, db: Db, g: GroupId, vs: Verdicts)
    requires g.round in db.rounds && Judged(tb, db, g, vs)
    ensures Covered(db.members, g, vs)
  {
    var ranked: seq<Entry> :| JudgedAs(tb, db, g, ranked, vs);
    forall m: MemberKey | m in db.members && db.members[m].group == g
      ensures m.player in vs && vs[m.player].Decided?
    {
      var i :| 0 <= i < |ranked| && ranked[i] == EntryOf(m.player, db.members[m]);
      assert PlayerId(ranked[i].player) == m.player && !ranked[i].bot;
    }
  }

  lemma StayingIsUnsettled(tb: Table, w: World, g: GroupId, p: PlayerId)
    requires Inv(tb, w) && g in w.db.groups && w.db.groups[g].open && p in Staying(w.db.members, g)
    ensures var m := MemberKey(p, g.round);
      Unsettled(w.db.groups, w.db.members, m) && w.db.members[m].group == g
  {
  }

  /** Settling a member always inserts the summary, and the tier move always finds the player in the
      tier of the round: the warning branch is never taken. */
  lemma SettlingHits(tb: Table, w: World, g: GroupId, p: PlayerId)
    requires Inv(tb, w) && g in w.db.groups && w.db.groups[g].open && p in Staying(w.db.members, g)
    ensures Inserts(w.db, g.round, p) && Hits(w.db, g.round, p)
    ensures SettledIndex(tb, w.db.players[p]) <= g.round.index
  {
    StayingIsUnsettled(tb, w, g, p);
  }

  lemma AfterInRounds(tb: Table, tier: nat, v: Verdict)
    requires SoundTable(tb) && InRounds(tb, tier)
    ensures InRounds(tb, After(tb, tier, v))
  {
  }

  /** The row of a settled player: in the tier of the outcome, settled past the round. */
  lemma SettledRow(tb: Table, p: Player, key: RoundKey, v: Verdict)
    requires SoundTable(tb) && InRounds(tb, key.tier) && p.tier == key.tier
    ensures var x := SettledPlayer(tb, p, key, v, End(tb, key));
      x.tier == After(tb, key.tier, v) && InRounds(tb, x.tier) && SettledIndex(tb, x) == key.index + 1
  {
    AfterInRounds(tb, key.tier, v);
    var after := After(tb, key.tier, v);
    IndexAtEnd(tb, key, after);
    IndexOfStart(tb, after, key.index + 1);
  }

  /** What closing does to the players, as the invariant needs it. */
  ghost predicate SettledAll(tb: Table, players: Players, after: Players, key: RoundKey, ps: set<PlayerId>) {
    && after.Keys == players.Keys
    && (forall p :: p in players && p !in ps ==> after[p] == players[p])
    && (forall p :: p in players && p in ps ==>
          players[p].tier == key.tier && SettledIndex(tb, players[p]) <= key.index
          && InRounds(tb, after[p].tier) && SettledIndex(tb, after[p]) == key.index + 1)
  }

  lemma CloseSettlesAll(tb: Table, w: World, g: GroupId, vs: Verdicts)
    requires SoundTable(tb) && Inv(tb, w) && ClosesWell(w, g, vs)
    ensures SettledAll(tb, w.db.players, CloseGroup(tb, w.db, g, vs).players, g.round, Staying(w.db.members, g))
  {
    var ps := Staying(w.db.members, g);
    forall p | p in w.db.players && p in ps
      ensures var x := SettledPlayer(tb, w.db.players[p], g.round, VerdictOf(vs, p), w.db.rounds[g.round].endsAt);
        && Hits(w.db, g.round, p) && w.db.players[p].tier == g.round.tier
        && SettledIndex(tb, w.db.players[p]) <= g.round.index
        && InRounds(tb, x.tier) && SettledIndex(tb, x) == g.round.index + 1
    {
      SettlingHits(tb, w, g, p);
      SettledRow(tb, w.db.players[p], g.round, VerdictOf(vs, p));
    }
  }

  lemma ClosePlayers(tb: Table, w: World, key: RoundKey, after: Players, ps: set<PlayerId>)
    requires SoundTable(tb) && Inv(tb, w) && SettledAll(tb, w.db.players, after, key, ps)
    requires key in w.db.rounds && w.db.rounds[key].state != Open
    ensures PlayersOk(tb, after, w.clock)
  {
    EndedIff(tb, key, w.clock);
    forall p | p in after
      ensures after[p].tier < |tb.tiers| && SettledIndex(tb, after[p]) <= Index(tb, after[p].tier, w.clock)
    {
      if p in ps {
        SameCalendar(tb, after[p].tier, key.tier, w.clock);
      }
    }
  }

  /** A player has at most one membership left to settle. */
  lemma OneUnsettled(tb: Table, w: World, m: MemberKey, n: MemberKey)
    requires Inv(tb, w) && m.player == n.player
    requires Unsettled(w.db.groups, w.db.members, m) && Unsettled(w.db.groups, w.db.members, n)
    ensures m == n && w.db.players[m.player].tier == m.round.tier
  {
    assert BothUnsettled(w.db.groups, w.db.members, m, n);
  }

  lemma StayingHere(tb: Table, w: World, g: GroupId, m: MemberKey)
    requires Inv(tb, w) && g in w.db.groups && w.db.groups[g].open && m.player in Staying(w.db.members, g)
    requires Unsettled(w.db.groups, w.db.members, m)
    ensures w.db.members[m].group == g
  {
    StayingIsUnsettled(tb, w, g, m.player);
    OneUnsettled(tb, w, m, MemberKey(m.player, g.round));
  }

  lemma CloseUnsettled(tb: Table, w: World, g: GroupId, after: Players, members: Members)
    requires Inv(tb, w) && g in w.db.groups && w.db.groups[g].open
    requires SettledAll(tb, w.db.players, after, g.round, Staying(w.db.members, g))
    requires SameGroups(w.db.members, members)
    ensures UnsettledOk(tb, after, w.db.groups[g := w.db.groups[g].(open := false)], members)
    ensures OnceUnsettled(w.db.groups[g := w.db.groups[g].(open := false)], members)
  {
    var groups := w.db.groups[g := w.db.groups[g].(open := false)];
    forall m | Unsettled(groups, members, m)
      ensures Unsettled(w.db.groups, w.db.members, m) && m.player !in Staying(w.db.members, g)
    {
      assert m in w.db.members && w.db.members[m].group != g;
      if m.player in Staying(w.db.members, g) {
        StayingHere(tb, w, g, m);
      }
    }
    OnceInLess(w.db.groups, w.db.members, groups, members);
  }

  ghost predicate SameGroups(members: Members, after: Members) {
    after.Keys == members.Keys && forall m :: m in members ==>
      after[m].group == members[m].group && after[m].left == members[m].left
  }

  /** The summary a closer writes for a member, with the outcome of their verdict. */
  lemma CloseWritesSummary(tb: Table, w: World, g: GroupId, vs: Verdicts, p: PlayerId)
    requires Inv(tb, w) && ClosesWell(w, g, vs) && p in Staying(w.db.members, g)
    ensures var s := SummaryKey(p, g.round, ReasonRound);
      var summaries := CloseGroup(tb, w.db, g, vs).summaries;
      s in summaries && summaries[s].outcome == OutcomeOf(VerdictOf(vs, p))
  {
    SettlingHits(tb, w, g, p);
    assert SummaryKey(p, g.round, ReasonRound) in NewSummaryKeys(w.db, g.round, Staying(w.db.members, g));
  }

  lemma CloseWritesVerdict(tb: Table, w: World, g: GroupId, vs: Verdicts, m: MemberKey)
    requires ClosesWell(w, g, vs) && m in w.db.members
    ensures var after := CloseGroup(tb, w.db, g, vs).members;
      m in after && after[m].verdict == if w.db.members[m].group == g then VerdictOf(vs, m.player) else w.db.members[m].verdict
    ensures w.db.members[m].group == g ==> VerdictOf(vs, m.player).Decided?
  {
    if w.db.members[m].group == g {
      assert m.player in InGroup(w.db.members, g);
    }
  }

  lemma CloseSettlesMember(tb: Table, w: World, g: GroupId, vs: Verdicts, m: MemberKey)
    requires Inv(tb, w) && ClosesWell(w, g, vs) && m in w.db.members
    requires w.db.members[m].group == g || !w.db.groups[w.db.members[m].group].open
    ensures var after := CloseGroup(tb, w.db, g, vs);
      m in after.members && IsSettled(m, after.members[m].verdict, after.summaries)
  {
    CloseWritesVerdict(tb, w, g, vs, m);
    if w.db.members[m].group == g {
      CloseWritesSummary(tb, w, g, vs, m.player);
    }
  }

  lemma ClosePlaces(tb: Table, db: Db, g: GroupId, vs: Verdicts)
    requires g in db.groups && g.round in db.rounds
    ensures SameGroups(db.members, CloseGroup(tb, db, g, vs).members)
  {
  }

  lemma CloseShape(tb: Table, w: World, g: GroupId, vs: Verdicts)
    requires Inv(tb, w) && ClosesWell(w, g, vs)
    ensures forall p :: p in Staying(w.db.members, g) ==> p in w.db.players
    ensures SameGroups(w.db.members, CloseGroup(tb, w.db, g, vs).members)
    ensures InRounds(tb, g.round.tier)
  {
    ClosePlaces(tb, w.db, g, vs);
  }

  ghost predicate SettlesThese(w: World, g: GroupId, after: Members, summaries: Summaries) {
    forall m :: m in w.db.members && m in after
      && (w.db.members[m].group == g || (w.db.members[m].group in w.db.groups && !w.db.groups[w.db.members[m].group].open))
      ==> IsSettled(m, after[m].verdict, summaries)
  }

  lemma SettledTogether(w: World, g: GroupId, after: Members, summaries: Summaries)
    requires g in w.db.groups && SameGroups(w.db.members, after) && SettlesThese(w, g, after, summaries)
    ensures SettledOk(w.db.groups[g := w.db.groups[g].(open := false)], after, summaries)
  {
  }

  lemma CloseSettled(tb: Table, w: World, g: GroupId, vs: Verdicts)
    requires Inv(tb, w) && ClosesWell(w, g, vs)
    ensures var after := CloseGroup(tb, w.db, g, vs); SettledOk(after.groups, after.members, after.summaries)
  {
    var after := CloseGroup(tb, w.db, g, vs);
    CloseShape(tb, w, g, vs);
    forall m | m in w.db.members
      && (w.db.members[m].group == g || (w.db.members[m].group in w.db.groups && !w.db.groups[w.db.members[m].group].open))
      ensures m in after.members && IsSettled(m, after.members[m].verdict, after.summaries)
    {
      CloseSettlesMember(tb, w, g, vs, m);
    }
    SettledTogether(w, g, after.members, after.summaries);
  }

  lemma CloseSummaries(tb: Table, w: World, g: GroupId, vs: Verdicts, after: Players)
    requires Inv(tb, w) && g in w.db.groups
    requires SettledAll(tb, w.db.players, after, g.round, Staying(w.db.members, g))
    requires forall p :: p in Staying(w.db.members, g) ==> p in w.db.players
    requires InRounds(tb, g.round.tier)
    ensures SummariesOk(tb, after, SummariesAfter(tb, w.db, g.round, vs, Staying(w.db.members, g)))
  {
    forall s | s in SummariesAfter(tb, w.db, g.round, vs, Staying(w.db.members, g))
      ensures s.player in after && SummaryFits(tb, after[s.player], s)
    {
      if s in w.db.summaries {
        assert SummaryFits(tb, w.db.players[s.player], s);
      }
    }
  }

  /** Every new summary comes with exactly one tier move. */
  lemma CloseApplied(tb: Table, w: World, g: GroupId, vs: Verdicts)
    requires Inv(tb, w) && ClosesWell(w, g, vs)
    ensures AppliedOk(CloseGroup(tb, w.db, g, vs).summaries, AppliedOnce(w.applied, HitKeys(w.db, g)))
  {
    var ps := Staying(w.db.members, g);
    forall p | p in ps
      ensures Inserts(w.db, g.round, p) && Hits(w.db, g.round, p)
    {
      SettlingHits(tb, w, g, p);
    }
    assert HitKeys(w.db, g) == NewSummaryKeys(w.db, g.round, ps);
  }

  lemma CloseCounts(tb: Table, w: World, g: GroupId, members: Members)
    requires TablesOk(tb, w) && g in w.db.groups && SameGroups(w.db.members, members)
    ensures CountsOk(tb, w.db.groups[g := w.db.groups[g].(open := false)], members)
  {
    forall h | h in w.db.groups
      ensures RowsOf(members, h) == RowsOf(w.db.members, h)
    {
    }
  }

  lemma CloseGroups(tb: Table, w: World, g: GroupId)
    requires TablesOk(tb, w) && g in w.db.groups && w.db.rounds[g.round].state != Open
    ensures var groups := w.db.groups[g := w.db.groups[g].(open := false)];
      GroupsOk(tb, w.db.rounds, groups) && GlobalOk(tb, groups) && DrainedOk(w.db.rounds, groups, w.drained)
  {
    var groups := w.db.groups[g := w.db.groups[g].(open := false)];
    forall a, b | SameGlobalRoom(tb, groups, a, b)
      ensures SameGlobalRoom(tb, w.db.groups, a, b)
    {
    }
  }

  lemma CloseMembers(tb: Table, w: World, g: GroupId, after: Db)
    requires TablesOk(tb, w) && g in w.db.groups && SameGroups(w.db.members, after.members)
    requires after.players.Keys == w.db.players.Keys && after.groups.Keys == w.db.groups.Keys
    ensures MembersOk(after.players, after.groups, after.members)
  {
  }

  /** Closing changes verdicts and nothing else in the member rows, and only the state of the group. */
  lemma CloseTables(tb: Table, w: World, g: GroupId, vs: Verdicts, applied: map<SummaryKey, nat>)
    requires TablesOk(tb, w) && g in w.db.groups && w.db.rounds[g.round].state != Open
    ensures TablesOk(tb, w.(db := CloseGroup(tb, w.db, g, vs), applied := applied))
  {
    if w.db.groups[g].open {
      var after := CloseGroup(tb, w.db, g, vs);
      ClosePlaces(tb, w.db, g, vs);
      CloseMembers(tb, w, g, after);
      CloseCounts(tb, w, g, after.members);
      CloseGroups(tb, w, g);
    }
  }

  lemma CloseKeeps(tb: Table, w: World, g: GroupId, vs: Verdicts)
    requires SoundTable(tb) && Inv(tb, w) && ClosesWell(w, g, vs)
    ensures Inv(tb, w.(db := CloseGroup(tb, w.db, g, vs), applied := AppliedOnce(w.applied, HitKeys(w.db, g))))
  {
    var after := CloseGroup(tb, w.db, g, vs);
    CloseShape(tb, w, g, vs);
    CloseTables(tb, w, g, vs, AppliedOnce(w.applied, HitKeys(w.db, g)));
    CloseSettlesAll(tb, w, g, vs);
    ClosePlayers(tb, w, g.round, after.players, Staying(w.db.members, g));
    CloseUnsettled(tb, w, g, after.players, after.members);
    CloseSettled(tb, w, g, vs);
    CloseSummaries(tb, w, g, vs, after.players);
    CloseApplied(tb, w, g, vs);
  }

  // ----- every step, every run -----

  lemma PromoteTables(tb: Table, w: World, p: PlayerId, applied: map<SummaryKey, nat>)
    requires SoundTable(tb) && TablesOk(tb, w) && p in w.db.players && PromotesByScore(tb, w.db.players[p])
    ensures TablesOk(tb, w.(db := PromoteByScore(tb, w.db, p, w.clock), applied := applied))
  {
    PromotionLeavesNothing(tb, w, p);
    PlayersApart(tb, w, PromoteByScore(tb, w.db, p, w.clock), applied);
  }

  /** Rounds, groups and member rows fit together after every step, late or not. */
  lemma StepKeepsTables(tb: Table, w: World, s: Step)
    requires SoundTable(tb) && TablesOk(tb, w) && Enabled(tb, w, s)
    ensures TablesOk(tb, Next(tb, w, s))
  {
    TablesTick(tb, w, s.now);
    var v := w.(clock := s.now);
    match s.event
    case Registers(p) => PlayersApart(tb, v, Register(tb, w.db, p, s.now), v.applied);
    case Deletes(p) => DeleteTables(tb, v, p);
    case Ensures(key) => EnsureRoundTables(tb, v, key);
    case Claims(key) => ClaimTables(tb, v, key);
    case SeesNoGroup(key) => SeesTables(tb, v, key);
    case Closes(g, vs) => CloseTables(tb, v, g, vs, Next(tb, w, s).applied);
    case Finishes(key) => FinishTables(tb, v, key);
    case Misses(p, r) => PlayersApart(tb, v, Absence(tb, w.db, p, r), AbsentWorld(tb, w, p, r).applied);
    case Joins(p, r, key, q, wish, g) => JoinTables(tb, v, p, key, q, wish, g);
    case Scores(p, key, points, score, games, last) => ScoreTables(tb, v, p, key, points, score, games, last);
    case Promotes(p) => PromoteTables(tb, v, p, Next(tb, w, s).applied);
  }

  /** A round that ended since `catchUp` asked for the rounds due does no harm to this step: an absence
      takes nothing from a membership to settle, and who joins has none in an ended round. */
  ghost predicate Harmless(tb: Table, w: World, s: Step) {
    match s.event
    case Misses(p, r) => Spared(tb, w.db, p, s.now)
    case Joins(p, r, key, q, wish, g) => CaughtUp(tb, w.db, p, s.now)
    case _ => true
  }

  lemma StepKeeps(tb: Table, w: World, s: Step)
    requires SoundTable(tb) && Inv(tb, w) && Enabled(tb, w, s) && Harmless(tb, w, s)
    ensures Inv(tb, Next(tb, w, s))
  {
    TickKeeps(tb, w, s.now);
    var v := w.(clock := s.now);
    match s.event
    case Registers(p) => RegisterKeeps(tb, v, p);
    case Deletes(p) => DeleteKeeps(tb, v, p);
    case Ensures(key) => EnsureRoundKeeps(tb, v, key);
    case Claims(key) => ClaimKeeps(tb, v, key);
    case SeesNoGroup(key) => SeesKeeps(tb, v, key);
    case Closes(g, vs) =>
      if w.db.groups[g].open {
        JudgedCovers(tb, w.db, g, vs);
        CloseKeeps(tb, v, g, vs);
      }
    case Finishes(key) => FinishKeeps(tb, v, key);
    case Misses(p, r) => AbsenceKeeps(tb, v, p, r);
    case Joins(p, r, key, q, wish, g) => JoinKeeps(tb, v, p, key, q, wish, g);
    case Scores(p, key, points, score, games, last) => ScoreKeeps(tb, v, p, key, points, score, games, last);
    case Promotes(p) => PromoteKeeps(tb, v, p);
  }
}
