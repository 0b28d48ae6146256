/** The cap of the top tier, in the tables: after both closes its population is what the arithmetic of
    the openings promised. */
module SeasonCap {
  import opened Finite
  import opened Tiers
  import opened Standings
  import opened Season
  import opened SeasonInvariant
  import opened SeasonRuns
  import opened SeasonOrder

  /** A group without bots that holds the whole tier, ranked. */
  ghost predicate WholeTier(db: Db, g: GroupId, ranked: seq<Entry>) {
    && GroupRanking(db.members, g, ranked) && (forall e :: e in ranked ==> !e.bot)
    && (forall p :: p in db.players && db.players[p].tier == g.round.tier ==> p in Staying(db.members, g))
  }

  function PlayersOf(ranked: seq<Entry>): set<PlayerId> {
    set e | e in ranked :: PlayerId(e.player)
  }

  lemma {:induction false} PlayersCard(ranked: seq<Entry>)
    requires OncePerPlayer(ranked)
    ensures |PlayersOf(ranked)| == |ranked|
  {
    if ranked != [] {
      var k := |ranked| - 1;
      PlayersCard(ranked[..k]);
      assert ranked == ranked[..k] + [ranked[k]];
      assert PlayersOf(ranked) == PlayersOf(ranked[..k]) + {PlayerId(ranked[k].player)};
      assert PlayerId(ranked[k].player) !in PlayersOf(ranked[..k]);
    }
  }

  /** The players among the first k with that zone, and how many they are. */
  function InZone(ranked: seq<Entry>, c: CountsResult, k: nat, z: Zone): set<PlayerId>
    requires k <= |ranked|
  {
    if k == 0 then {}
    else if ZoneAt(k - 1, ranked[k - 1].score, |ranked|, c) == z then
      InZone(ranked, c, k - 1, z) + {PlayerId(ranked[k - 1].player)}
    else InZone(ranked, c, k - 1, z)
  }

  function CountZone(ranked: seq<Entry>, c: CountsResult, k: nat, z: Zone): nat
    requires k <= |ranked|
  {
    if k == 0 then 0
    else CountZone(ranked, c, k - 1, z) + (if ZoneAt(k - 1, ranked[k - 1].score, |ranked|, c) == z then 1 else 0)
  }

  lemma {:induction false} InZoneAt(ranked: seq<Entry>, c: CountsResult, k: nat, z: Zone, p: PlayerId) returns (i: nat)
    requires k <= |ranked| && p in InZone(ranked, c, k, z)
    ensures i < k && PlayerId(ranked[i].player) == p && ZoneAt(i, ranked[i].score, |ranked|, c) == z
  {
    i := k - 1;
    if p in InZone(ranked, c, k - 1, z) {
      i := InZoneAt(ranked, c, k - 1, z, p);
    }
  }

  lemma {:induction false} AtInZone(ranked: seq<Entry>, c: CountsResult, k: nat, z: Zone, i: nat)
    requires i < k <= |ranked| && ZoneAt(i, ranked[i].score, |ranked|, c) == z
    ensures PlayerId(ranked[i].player) in InZone(ranked, c, k, z)
  {
    if i < k - 1 {
      AtInZone(ranked, c, k - 1, z, i);
    }
  }

  lemma NotEarlier(ranked: seq<Entry>, c: CountsResult, k: nat, z: Zone)
    requires OncePerPlayer(ranked) && k < |ranked|
    ensures PlayerId(ranked[k].player) !in InZone(ranked, c, k, z)
  {
    forall p | p in InZone(ranked, c, k, z)
      ensures p != PlayerId(ranked[k].player)
    {
      var i := InZoneAt(ranked, c, k, z, p);
    }
  }

  lemma InZoneIff(ranked: seq<Entry>, c: CountsResult, z: Zone, i: nat)
    requires OncePerPlayer(ranked) && i < |ranked|
    ensures PlayerId(ranked[i].player) in InZone(ranked, c, |ranked|, z) <==> ZoneAt(i, ranked[i].score, |ranked|, c) == z
  {
    if PlayerId(ranked[i].player) in InZone(ranked, c, |ranked|, z) {
      var j := InZoneAt(ranked, c, |ranked|, z, PlayerId(ranked[i].player));
      assert ranked[i].player == ranked[j].player;
    }
    if ZoneAt(i, ranked[i].score, |ranked|, c) == z {
      AtInZone(ranked, c, |ranked|, z, i);
    }
  }

  lemma {:induction false} ZoneCard(ranked: seq<Entry>, c: CountsResult, k: nat, z: Zone)
    requires OncePerPlayer(ranked) && k <= |ranked|
    ensures |InZone(ranked, c, k, z)| == CountZone(ranked, c, k, z)
  {
    if k > 0 {
      ZoneCard(ranked, c, k - 1, z);
      NotEarlier(ranked, c, k - 1, z);
    }
  }

  lemma {:induction false} ZoneCounts(ranked: seq<Entry>, c: CountsResult, k: nat)
    requires k <= |ranked|
    ensures CountZone(ranked, c, k, Promote) == PromotedAmong(ranked, c, k)
    ensures CountZone(ranked, c, k, Relegate) == RelegatedAmong(ranked, c, k)
  {
    if k > 0 {
      ZoneCounts(ranked, c, k - 1);
    }
  }

  function RuleOf(tb: Table, k: RoundKey): TierRule {
    Cfg(tb, k.tier).rule
  }

  /** The counts a ranked group is evaluated by when its round froze `pair`. */
  function CountsWith(tb: Table, k: RoundKey, ranked: seq<Entry>, pair: Pair): CountsResult {
    CountsFor(ranked, RuleOf(tb, k), tb.minGroupSize, UpCountFor(tb, k.tier, pair))
  }

  // ----- one group, judged -----

  lemma RankOf(tb: Table, db: Db, g: GroupId, ranked: seq<Entry>, vs: Verdicts, p: PlayerId) returns (i: nat)
    requires g.round in db.rounds && JudgedAs(tb, db, g, ranked, vs) && p in Staying(db.members, g)
    ensures i < |ranked| && PlayerId(ranked[i].player) == p
    ensures VerdictOf(vs, p) == Decided(i + 1,
      ZoneAt(i, ranked[i].score, |ranked|, CountsFor(ranked, RuleOf(tb, g.round), tb.minGroupSize, db.rounds[g.round].upCount)))
  {
    var m :| m in db.members && db.members[m].group == g && !db.members[m].left && m.player == p;
    assert EntryOf(p, db.members[m]) in ranked;
    i :| i < |ranked| && ranked[i] == EntryOf(p, db.members[m]);
    assert !ranked[i].bot && PlayerId(ranked[i].player) == p;
  }

  lemma ZoneOfVerdict(tb: Table, db: Db, g: GroupId, ranked: seq<Entry>, vs: Verdicts, p: PlayerId, z: Zone)
    requires g.round in db.rounds && JudgedAs(tb, db, g, ranked, vs) && p in Staying(db.members, g)
    ensures VerdictOf(vs, p).Decided?
    ensures var c := CountsFor(ranked, RuleOf(tb, g.round), tb.minGroupSize, db.rounds[g.round].upCount);
      VerdictOf(vs, p).zone == z <==> p in InZone(ranked, c, |ranked|, z)
  {
    var c := CountsFor(ranked, RuleOf(tb, g.round), tb.minGroupSize, db.rounds[g.round].upCount);
    var i := RankOf(tb, db, g, ranked, vs, p);
    InZoneIff(ranked, c, z, i);
  }

  /** Without bots there is only one ranking of the rows of a group. */
  lemma OnlyRanking(members: Members, g: GroupId, ranked: seq<Entry>, other: seq<Entry>)
    requires GroupRanking(members, g, ranked) && GroupRanking(members, g, other)
    requires (forall e :: e in ranked ==> !e.bot) && (forall e :: e in other ==> !e.bot)
    ensures ranked == other
  {
    forall e
      ensures e in Rows(ranked) <==> e in Rows(other)
    {
      if e in ranked {
        var m :| m in members && members[m].group == g && e == EntryOf(m.player, members[m]);
      }
      if e in other {
        var m :| m in members && members[m].group == g && e == EntryOf(m.player, members[m]);
      }
    }
    RankingUnique(ranked, other);
  }

  // ----- a group that is its whole tier -----

  lemma EntryStays(tb: Table, w: World, g: GroupId, ranked: seq<Entry>, e: Entry)
    requires Inv(tb, w) && WholeTier(w.db, g, ranked) && e in ranked
    ensures PlayerId(e.player) in Staying(w.db.members, g)
  {
    var m :| m in w.db.members && w.db.members[m].group == g && e == EntryOf(m.player, w.db.members[m]);
    assert PlayerId(e.player) == m.player && !w.db.members[m].left;
  }

  lemma RankedIffStaying(tb: Table, w: World, g: GroupId, ranked: seq<Entry>, p: PlayerId)
    requires Inv(tb, w) && WholeTier(w.db, g, ranked)
    ensures p in PlayersOf(ranked) <==> p in Staying(w.db.members, g)
  {
    if p in PlayersOf(ranked) {
      var e :| e in ranked && PlayerId(e.player) == p;
      EntryStays(tb, w, g, ranked, e);
    }
    if p in Staying(w.db.members, g) {
      var m :| m in w.db.members && w.db.members[m].group == g && !w.db.members[m].left && m.player == p;
      assert EntryOf(p, w.db.members[m]) in ranked;
    }
  }

  lemma SameSet(a: set<PlayerId>, b: set<PlayerId>)
    requires forall p :: p in a <==> p in b
    ensures a == b
  {
  }

  lemma RankedStay(tb: Table, w: World, g: GroupId, ranked: seq<Entry>)
    requires Inv(tb, w) && WholeTier(w.db, g, ranked)
    ensures PlayersOf(ranked) == Staying(w.db.members, g) && |Staying(w.db.members, g)| == |ranked|
  {
    PlayersCard(ranked);
    forall p
      ensures p in PlayersOf(ranked) <==> p in Staying(w.db.members, g)
    {
      RankedIffStaying(tb, w, g, ranked, p);
    }
    SameSet(PlayersOf(ranked), Staying(w.db.members, g));
  }

  lemma ZoneStays(tb: Table, w: World, g: GroupId, ranked: seq<Entry>, c: CountsResult, z: Zone)
    requires Inv(tb, w) && WholeTier(w.db, g, ranked)
    ensures InZone(ranked, c, |ranked|, z) <= Staying(w.db.members, g)
  {
    forall p | p in InZone(ranked, c, |ranked|, z)
      ensures p in Staying(w.db.members, g)
    {
      var i := InZoneAt(ranked, c, |ranked|, z, p);
      EntryStays(tb, w, g, ranked, ranked[i]);
    }
  }

  function InTier(players: Players, tier: nat): set<PlayerId> {
    set p | p in players && players[p].tier == tier
  }

  /** The whole population of a tier is in its group. */
  lemma TierIsGroup(tb: Table, w: World, g: GroupId, ranked: seq<Entry>)
    requires Inv(tb, w) && WholeTier(w.db, g, ranked) && g in w.db.groups && w.db.groups[g].open
    ensures InTier(w.db.players, g.round.tier) == Staying(w.db.members, g)
    ensures Population(w.db.players, g.round.tier) == |ranked|
  {
    RankedStay(tb, w, g, ranked);
    forall p
      ensures p in InTier(w.db.players, g.round.tier) <==> p in Staying(w.db.members, g)
    {
      if p in Staying(w.db.members, g) {
        SettlingHits(tb, w, g, p);
      }
    }
    SameSet(InTier(w.db.players, g.round.tier), Staying(w.db.members, g));
  }

  // ----- the two tiers before either is claimed -----

  /** The openings tier and the capped tier above it: each has one group for all its players. */
  datatype Top = Top(low: GroupId, lowRanked: seq<Entry>, high: GroupId, highRanked: seq<Entry>)

  ghost predicate OneGroupEach(groups: Groups, t: Top) {
    && t.low in groups && t.high in groups
    && (forall g :: g in groups && g.round == t.low.round ==> g == t.low)
    && (forall g :: g in groups && g.round == t.high.round ==> g == t.high)
  }

  ghost predicate TopTiers(tb: Table, t: Top) {
    && t.high.round.tier == t.low.round.tier + 1 && t.low.round.tier < |tb.tiers|
    && RuleOf(tb, t.low.round).upMode == ByOpenings
    && Cfg(tb, t.low.round.tier).fillTo == 0 && Cfg(tb, t.high.round.tier).fillTo == 0
  }

  /** Neither round is claimed yet. */
  ghost predicate Unclaimed(tb: Table, w: World, t: Top) {
    && TwinRounds(tb, w, t.low.round, t.high.round) && TopTiers(tb, t) && OneGroupEach(w.db.groups, t)
    && w.db.rounds[t.low.round].state == Open && w.db.rounds[t.high.round].state == Open
    && WholeTier(w.db, t.low, t.lowRanked) && WholeTier(w.db, t.high, t.highRanked)
  }

  /** The populations before, which both claims freeze. */
  function PairOf(tb: Table, w: World, t: Top): Pair {
    Frozen(Population(w.db.players, t.low.round.tier), Population(w.db.players, t.high.round.tier))
  }

  function GoUp(tb: Table, w: World, t: Top): set<PlayerId> {
    InZone(t.lowRanked, CountsWith(tb, t.low.round, t.lowRanked, PairOf(tb, w, t)), |t.lowRanked|, Promote)
  }

  function GoDown(tb: Table, w: World, t: Top): set<PlayerId> {
    InZone(t.highRanked, CountsWith(tb, t.high.round, t.highRanked, PairOf(tb, w, t)), |t.highRanked|, Relegate)
  }

  lemma TopFrozenTiers(tb: Table, t: Top)
    requires SoundTable(tb) && TopTiers(tb, t)
    ensures FrozenTiers(tb, t.low.round.tier) == FrozenTiers(tb, t.high.round.tier) == (t.low.round.tier, t.high.round.tier)
    ensures Cfg(tb, t.high.round.tier).slots.Capped? && RuleOf(tb, t.high.round).upMode != ByOpenings
  {
    assert tb.tiers[t.low.round.tier].rule.upMode == ByOpenings;
  }

  // ----- between the first claim and the last close -----

  /** Who is in the capped tier, as far as the two groups are closed. */
  function InTop(tb: Table, w0: World, t: Top, groups: Groups): set<PlayerId>
    requires t.low in groups && t.high in groups
  {
    (Staying(w0.db.members, t.high) - if groups[t.high].open then {} else GoDown(tb, w0, t))
      + if groups[t.low].open then {} else GoUp(tb, w0, t)
  }

  ghost predicate Claimed(rounds: Rounds, k: RoundKey, pair: Pair) {
    k in rounds && (rounds[k].state != Open ==> rounds[k].pair == pair)
  }

  /** In the middle of the two closes, in whatever order they have got this far. */
  ghost predicate Midway(tb: Table, w0: World, db: Db, t: Top) {
    && OneGroupEach(db.groups, t)
    && SameRowsOf(w0.db.members, db.members, t.low) && SameRowsOf(w0.db.members, db.members, t.high)
    && Claimed(db.rounds, t.low.round, PairOf(tb, w0, t)) && Claimed(db.rounds, t.high.round, PairOf(tb, w0, t))
    && (db.groups[t.low].open && db.groups[t.high].open ==> db.players == w0.db.players)
    && InTier(db.players, t.high.round.tier) == InTop(tb, w0, t, db.groups)
  }

  lemma SameStaying(members: Members, after: Members, g: GroupId)
    requires SameRowsOf(members, after, g)
    ensures Staying(after, g) == Staying(members, g)
  {
    forall p
      ensures p in Staying(after, g) <==> p in Staying(members, g)
    {
      if p in Staying(after, g) {
        var m :| m in after && after[m].group == g && !after[m].left && m.player == p;
        assert m in members && EntryOf(m.player, after[m]) == EntryOf(m.player, members[m]);
      }
      if p in Staying(members, g) {
        var m :| m in members && members[m].group == g && !members[m].left && m.player == p;
        assert m in after && EntryOf(m.player, after[m]) == EntryOf(m.player, members[m]);
      }
    }
    SameSet(Staying(after, g), Staying(members, g));
  }

  lemma BothOpenIsMidway(tb: Table, w: World, t: Top)
    requires OneGroupEach(w.db.groups, t) && t.low.round in w.db.rounds && t.high.round in w.db.rounds
    requires w.db.rounds[t.low.round].state == Open && w.db.rounds[t.high.round].state == Open
    requires w.db.groups[t.low].open && w.db.groups[t.high].open
    requires InTier(w.db.players, t.high.round.tier) == Staying(w.db.members, t.high)
    ensures Midway(tb, w, w.db, t)
  {
  }

  lemma GroupOfOpenRound(tb: Table, w: World, g: GroupId)
    requires Inv(tb, w) && g in w.db.groups && g.round in w.db.rounds && w.db.rounds[g.round].state == Open
    ensures w.db.groups[g].open
  {
  }

  lemma StartsMidway(tb: Table, w: World, t: Top)
    requires Unclaimed(tb, w, t)
    ensures Midway(tb, w, w.db, t)
  {
    GroupOfOpenRound(tb, w, t.low);
    GroupOfOpenRound(tb, w, t.high);
    TierIsGroup(tb, w, t.high, t.highRanked);
    BothOpenIsMidway(tb, w, t);
  }

  lemma BothUnclaimed(tb: Table, w0: World, w: World, t: Top)
    requires Inv(tb, w) && Midway(tb, w0, w.db, t)
    requires w.db.rounds[t.low.round].state == Open && w.db.rounds[t.high.round].state == Open
    ensures w.db.players == w0.db.players
  {
    GroupOfOpenRound(tb, w, t.low);
    GroupOfOpenRound(tb, w, t.high);
  }

  /** Whichever is claimed, it freezes the populations from before. */
  lemma ClaimFreezes(tb: Table, w0: World, w: World, t: Top, a: RoundKey, b: RoundKey)
    requires TopTiers(tb, t) && Midway(tb, w0, w.db, t) && TwinRounds(tb, w, a, b)
    requires (a == t.low.round && b == t.high.round) || (a == t.high.round && b == t.low.round)
    ensures Claim(tb, w.db, a) == w.db.(rounds := w.db.rounds[a := TwinRow(tb, w, a, b)])
    ensures TwinRow(tb, w, a, b).state != Open ==> TwinRow(tb, w, a, b).pair == PairOf(tb, w0, t)
  {
    ClaimOfTwin(tb, w, a, b);
    TopFrozenTiers(tb, t);
    if w.db.rounds[a].state == Open && w.db.rounds[b].state == Open {
      BothUnclaimed(tb, w0, w, t);
    }
  }

  lemma RoundsOnly(tb: Table, w0: World, db: Db, t: Top, a: RoundKey, r: Round)
    requires Midway(tb, w0, db, t) && (r.state != Open ==> r.pair == PairOf(tb, w0, t))
    ensures Midway(tb, w0, db.(rounds := db.rounds[a := r]), t)
  {
  }

  lemma MidwayClaim(tb: Table, w0: World, w: World, t: Top, a: RoundKey, b: RoundKey)
    requires TopTiers(tb, t) && Midway(tb, w0, w.db, t) && TwinRounds(tb, w, a, b)
    requires (a == t.low.round && b == t.high.round) || (a == t.high.round && b == t.low.round)
    ensures Midway(tb, w0, Claim(tb, w.db, a), t)
  {
    ClaimFreezes(tb, w0, w, t, a, b);
    RoundsOnly(tb, w0, w.db, t, a, TwinRow(tb, w, a, b));
  }

  lemma MidwayLook(tb: Table, w0: World, w: World, t: Top, s: Step)
    requires Midway(tb, w0, w.db, t) && Enabled(tb, w, s) && (s.event.SeesNoGroup? || s.event.Finishes?)
    ensures Midway(tb, w0, Next(tb, w, s).db, t)
  {
  }

  /** The group of a claimed round is judged by its only ranking and by the frozen count. */
  lemma JudgedByOnlyRanking(tb: Table, w0: World, w: World, g: GroupId, ranked: seq<Entry>, vs: Verdicts, pair: Pair)
    requires g.round in w.db.rounds && w.db.rounds[g.round].state != Open && RoundFrozen(tb, g.round, w.db.rounds[g.round])
    requires WholeTier(w0.db, g, ranked) && SameRowsOf(w0.db.members, w.db.members, g) && Cfg(tb, g.round.tier).fillTo == 0
    requires Judged(tb, w.db, g, vs) && Claimed(w.db.rounds, g.round, pair)
    ensures JudgedAs(tb, w.db, g, ranked, vs)
    ensures w.db.rounds[g.round].upCount == UpCountFor(tb, g.round.tier, pair)
  {
    var other: seq<Entry> :| JudgedAs(tb, w.db, g, other, vs);
    RankingMoves(w0.db.members, w.db.members, g, ranked);
    OnlyRanking(w.db.members, g, ranked, other);
  }

  // ----- closing one of the two groups -----

  /** Out of the lower tier only a promotion leads into the upper one; out of the upper tier only a
      relegation leads away. */
  ghost predicate TopRule(tb: Table, low: nat) {
    forall v: Verdict :: v.Decided? ==>
      (After(tb, low, v) == low + 1 <==> v.zone == Promote) && (After(tb, low + 1, v) == low + 1 <==> v.zone != Relegate)
  }

  lemma TopMoves(tb: Table, low: nat)
    requires SoundTable(tb) && low < |tb.tiers| && tb.tiers[low].rule.upMode == ByOpenings
    ensures TopRule(tb, low)
  {
    assert tb.tiers[low + 1].slots.Capped?;
  }

  lemma SettledTier(tb: Table, w: World, g: GroupId, vs: Verdicts, p: PlayerId)
    requires Inv(tb, w) && ClosesWell(w, g, vs) && p in w.db.players
    ensures var after := CloseGroup(tb, w.db, g, vs).players;
      p in after && after[p].tier == if p in Staying(w.db.members, g) then After(tb, g.round.tier, VerdictOf(vs, p)) else w.db.players[p].tier
  {
    ClosedPlayer(tb, w, g, vs, p);
  }

  /** In the group the verdicts give zone z to exactly the players of `zone`. */
  ghost predicate Zoned(stay: set<PlayerId>, vs: Verdicts, z: Zone, zone: set<PlayerId>) {
    zone <= stay && forall p :: p in stay ==> VerdictOf(vs, p).Decided? && (VerdictOf(vs, p).zone == z <==> p in zone)
  }

  /** Nothing but the members of g changes tier. */
  ghost predicate MovedBy(tb: Table, players: Players, after: Players, stay: set<PlayerId>, tier: nat, vs: Verdicts) {
    && (forall p :: p in after <==> p in players)
    && (forall p :: p in stay ==> p in players && players[p].tier == tier)
    && (forall p :: p in after ==> after[p].tier == if p in stay then After(tb, tier, VerdictOf(vs, p)) else players[p].tier)
  }

  lemma CloseMovesTier(tb: Table, w: World, g: GroupId, vs: Verdicts)
    requires Inv(tb, w) && ClosesWell(w, g, vs)
    ensures MovedBy(tb, w.db.players, CloseGroup(tb, w.db, g, vs).players, Staying(w.db.members, g), g.round.tier, vs)
  {
    var after := CloseGroup(tb, w.db, g, vs).players;
    assert after.Keys == w.db.players.Keys;
    forall p | p in w.db.players
      ensures after[p].tier == if p in Staying(w.db.members, g) then After(tb, g.round.tier, VerdictOf(vs, p)) else w.db.players[p].tier
    {
      SettledTier(tb, w, g, vs, p);
    }
    forall p | p in Staying(w.db.members, g)
      ensures p in w.db.players && w.db.players[p].tier == g.round.tier
    {
      SettlingHits(tb, w, g, p);
    }
  }

  /** Closing the lower group adds those who go up. */
  lemma UpJoins(tb: Table, players: Players, after: Players, low: nat, stay: set<PlayerId>, vs: Verdicts, up: set<PlayerId>)
    requires TopRule(tb, low)
    requires MovedBy(tb, players, after, stay, low, vs) && Zoned(stay, vs, Promote, up)
    ensures InTier(after, low + 1) == InTier(players, low + 1) + up
  {
    var here, there := InTier(after, low + 1), InTier(players, low + 1) + up;
    forall p
      ensures p in here <==> p in there
    {
      assert p in stay ==> VerdictOf(vs, p).Decided?;
    }
    SameSet(here, there);
  }

  /** Closing the upper group takes away those who go down. */
  lemma DownLeaves(tb: Table, players: Players, after: Players, low: nat, stay: set<PlayerId>, vs: Verdicts, down: set<PlayerId>)
    requires TopRule(tb, low)
    requires MovedBy(tb, players, after, stay, low + 1, vs) && Zoned(stay, vs, Relegate, down)
    ensures InTier(after, low + 1) == InTier(players, low + 1) - down
  {
    var here, there := InTier(after, low + 1), InTier(players, low + 1) - down;
    forall p
      ensures p in here <==> p in there
    {
      assert p in stay ==> VerdictOf(vs, p).Decided?;
    }
    SameSet(here, there);
  }

  lemma JudgedZones(tb: Table, w: World, g: GroupId, ranked: seq<Entry>, vs: Verdicts, pair: Pair, z: Zone, stay: set<PlayerId>)
    requires g.round in w.db.rounds && JudgedAs(tb, w.db, g, ranked, vs)
    requires w.db.rounds[g.round].upCount == UpCountFor(tb, g.round.tier, pair) && stay == Staying(w.db.members, g)
    requires InZone(ranked, CountsWith(tb, g.round, ranked, pair), |ranked|, z) <= stay
    ensures Zoned(stay, vs, z, InZone(ranked, CountsWith(tb, g.round, ranked, pair), |ranked|, z))
  {
    forall p | p in stay
      ensures VerdictOf(vs, p).Decided?
      ensures VerdictOf(vs, p).zone == z <==> p in InZone(ranked, CountsWith(tb, g.round, ranked, pair), |ranked|, z)
    {
      ZoneOfVerdict(tb, w.db, g, ranked, vs, p, z);
    }
  }

  lemma GroupsApart(tb: Table, w: World, g: GroupId, h: GroupId)
    requires Inv(tb, w) && g != h && g in w.db.groups && h in w.db.groups && w.db.groups[g].open && w.db.groups[h].open
    ensures Staying(w.db.members, g) !! Staying(w.db.members, h)
  {
    forall p | p in Staying(w.db.members, g)
      ensures p !in Staying(w.db.members, h)
    {
      NobodyInBoth(tb, w, g, h, p);
    }
  }

  lemma RowsKept(tb: Table, db: Db, g: GroupId, vs: Verdicts, h: GroupId)
    requires g in db.groups && g.round in db.rounds
    ensures SameRowsOf(db.members, CloseGroup(tb, db, g, vs).members, h)
  {
  }

  lemma RowsStillSame(members: Members, mid: Members, after: Members, h: GroupId)
    requires SameRowsOf(members, mid, h) && SameRowsOf(mid, after, h)
    ensures SameRowsOf(members, after, h)
  {
  }

  /** What the start settles once and for all: who goes up is in the lower group, who goes down in the
      upper one, and nobody is in both. */
  ghost predicate Apart(tb: Table, w0: World, t: Top) {
    && WholeTier(w0.db, t.low, t.lowRanked) && WholeTier(w0.db, t.high, t.highRanked)
    && GoUp(tb, w0, t) <= Staying(w0.db.members, t.low) && GoDown(tb, w0, t) <= Staying(w0.db.members, t.high)
    && Staying(w0.db.members, t.low) !! Staying(w0.db.members, t.high)
  }

  lemma StartsApart(tb: Table, w: World, t: Top)
    requires Unclaimed(tb, w, t)
    ensures Apart(tb, w, t)
  {
    GroupOfOpenRound(tb, w, t.low);
    GroupOfOpenRound(tb, w, t.high);
    ZoneStays(tb, w, t.low, t.lowRanked, CountsWith(tb, t.low.round, t.lowRanked, PairOf(tb, w, t)), Promote);
    ZoneStays(tb, w, t.high, t.highRanked, CountsWith(tb, t.high.round, t.highRanked, PairOf(tb, w, t)), Relegate);
    GroupsApart(tb, w, t.low, t.high);
  }

  lemma GroupZoned(tb: Table, w0: World, w: World, g: GroupId, ranked: seq<Entry>, vs: Verdicts, pair: Pair, z: Zone)
    requires g.round in w.db.rounds && w.db.rounds[g.round].state != Open && RoundFrozen(tb, g.round, w.db.rounds[g.round])
    requires WholeTier(w0.db, g, ranked) && SameRowsOf(w0.db.members, w.db.members, g) && Cfg(tb, g.round.tier).fillTo == 0
    requires Judged(tb, w.db, g, vs) && Claimed(w.db.rounds, g.round, pair)
    requires InZone(ranked, CountsWith(tb, g.round, ranked, pair), |ranked|, z) <= Staying(w0.db.members, g)
    ensures Zoned(Staying(w.db.members, g), vs, z, InZone(ranked, CountsWith(tb, g.round, ranked, pair), |ranked|, z))
  {
    JudgedByOnlyRanking(tb, w0, w, g, ranked, vs, pair);
    SameStaying(w0.db.members, w.db.members, g);
    JudgedZones(tb, w, g, ranked, vs, pair, z, Staying(w.db.members, g));
  }

  lemma LowZoned(tb: Table, w0: World, w: World, t: Top, vs: Verdicts)
    requires PairsOk(tb, w.db.rounds) && TopTiers(tb, t) && Midway(tb, w0, w.db, t) && Apart(tb, w0, t)
    requires w.db.rounds[t.low.round].state != Open && Judged(tb, w.db, t.low, vs)
    ensures Zoned(Staying(w.db.members, t.low), vs, Promote, GoUp(tb, w0, t))
  {
    GroupZoned(tb, w0, w, t.low, t.lowRanked, vs, PairOf(tb, w0, t), Promote);
  }

  lemma HighZoned(tb: Table, w0: World, w: World, t: Top, vs: Verdicts)
    requires PairsOk(tb, w.db.rounds) && TopTiers(tb, t) && Midway(tb, w0, w.db, t) && Apart(tb, w0, t)
    requires w.db.rounds[t.high.round].state != Open && Judged(tb, w.db, t.high, vs)
    ensures Zoned(Staying(w.db.members, t.high), vs, Relegate, GoDown(tb, w0, t))
  {
    GroupZoned(tb, w0, w, t.high, t.highRanked, vs, PairOf(tb, w0, t), Relegate);
  }

  lemma InTopAfter(tb: Table, w0: World, t: Top, groups: Groups, x: GroupId)
    requires Apart(tb, w0, t) && t.low in groups && t.high in groups && t.low != t.high && x in {t.low, t.high} && groups[x].open
    ensures InTop(tb, w0, t, groups[x := groups[x].(open := false)]) ==
      if x == t.low then InTop(tb, w0, t, groups) + GoUp(tb, w0, t) else InTop(tb, w0, t, groups) - GoDown(tb, w0, t)
  {
  }

  lemma TopAfterLow(tb: Table, w: World, t: Top, vs: Verdicts, up: set<PlayerId>)
    requires Inv(tb, w) && TopRule(tb, t.low.round.tier) && t.high.round.tier == t.low.round.tier + 1
    requires ClosesWell(w, t.low, vs) && Zoned(Staying(w.db.members, t.low), vs, Promote, up)
    ensures InTier(CloseGroup(tb, w.db, t.low, vs).players, t.high.round.tier) == InTier(w.db.players, t.high.round.tier) + up
  {
    CloseMovesTier(tb, w, t.low, vs);
    UpJoins(tb, w.db.players, CloseGroup(tb, w.db, t.low, vs).players, t.low.round.tier, Staying(w.db.members, t.low), vs, up);
  }

  lemma TopAfterHigh(tb: Table, w: World, low: nat, high: GroupId, vs: Verdicts, down: set<PlayerId>)
    requires Inv(tb, w) && high.round.tier == low + 1 && TopRule(tb, low)
    requires ClosesWell(w, high, vs) && Zoned(Staying(w.db.members, high), vs, Relegate, down)
    ensures InTier(CloseGroup(tb, w.db, high, vs).players, high.round.tier) == InTier(w.db.players, high.round.tier) - down
  {
    CloseMovesTier(tb, w, high, vs);
    DownLeaves(tb, w.db.players, CloseGroup(tb, w.db, high, vs).players, low, Staying(w.db.members, high), vs, down);
  }

  lemma LowClosed(tb: Table, w0: World, w: World, t: Top, vs: Verdicts)
    requires Inv(tb, w) && TopTiers(tb, t) && TopRule(tb, t.low.round.tier) && Midway(tb, w0, w.db, t) && Apart(tb, w0, t)
    requires ClosesWell(w, t.low, vs) && Judged(tb, w.db, t.low, vs)
    ensures InTier(CloseGroup(tb, w.db, t.low, vs).players, t.high.round.tier) ==
      InTier(w.db.players, t.high.round.tier) + GoUp(tb, w0, t)
  {
    LowZoned(tb, w0, w, t, vs);
    TopAfterLow(tb, w, t, vs, GoUp(tb, w0, t));
  }

  lemma HighClosed(tb: Table, w0: World, w: World, t: Top, vs: Verdicts)
    requires Inv(tb, w) && TopTiers(tb, t) && TopRule(tb, t.low.round.tier) && Midway(tb, w0, w.db, t) && Apart(tb, w0, t)
    requires ClosesWell(w, t.high, vs) && Judged(tb, w.db, t.high, vs)
    ensures InTier(CloseGroup(tb, w.db, t.high, vs).players, t.high.round.tier) ==
      InTier(w.db.players, t.high.round.tier) - GoDown(tb, w0, t)
  {
    HighZoned(tb, w0, w, t, vs);
    TopAfterHigh(tb, w, t.low.round.tier, t.high, vs, GoDown(tb, w0, t));
  }

  lemma TopAfterClose(tb: Table, w0: World, w: World, t: Top, x: GroupId, vs: Verdicts)
    requires Inv(tb, w) && TopTiers(tb, t) && TopRule(tb, t.low.round.tier) && Midway(tb, w0, w.db, t) && Apart(tb, w0, t)
    requires x in {t.low, t.high} && ClosesWell(w, x, vs) && Judged(tb, w.db, x, vs)
    ensures InTier(CloseGroup(tb, w.db, x, vs).players, t.high.round.tier) ==
      if x == t.low then InTier(w.db.players, t.high.round.tier) + GoUp(tb, w0, t)
      else InTier(w.db.players, t.high.round.tier) - GoDown(tb, w0, t)
  {
    if x == t.low {
      LowClosed(tb, w0, w, t, vs);
    } else {
      HighClosed(tb, w0, w, t, vs);
    }
  }

  lemma GroupsOnly(tb: Table, w0: World, db: Db, after: Db, t: Top, x: GroupId)
    requires Midway(tb, w0, db, t) && Apart(tb, w0, t) && t.low != t.high && x in {t.low, t.high} && db.groups[x].open
    requires after.rounds == db.rounds && after.groups == db.groups[x := db.groups[x].(open := false)]
    requires SameRowsOf(db.members, after.members, t.low) && SameRowsOf(db.members, after.members, t.high)
    requires InTier(after.players, t.high.round.tier) ==
      if x == t.low then InTier(db.players, t.high.round.tier) + GoUp(tb, w0, t)
      else InTier(db.players, t.high.round.tier) - GoDown(tb, w0, t)
    ensures Midway(tb, w0, after, t)
  {
    InTopAfter(tb, w0, t, db.groups, x);
    RowsStillSame(w0.db.members, db.members, after.members, t.low);
    RowsStillSame(w0.db.members, db.members, after.members, t.high);
  }

  lemma MidwayClose(tb: Table, w0: World, w: World, t: Top, x: GroupId, vs: Verdicts)
    requires SoundTable(tb) && Inv(tb, w) && TopTiers(tb, t) && Midway(tb, w0, w.db, t) && Apart(tb, w0, t)
    requires x in {t.low, t.high} && ClosesWell(w, x, vs) && Judged(tb, w.db, x, vs)
    ensures Midway(tb, w0, CloseGroup(tb, w.db, x, vs), t)
  {
    TopMoves(tb, t.low.round.tier);
    TopAfterClose(tb, w0, w, t, x, vs);
    RowsKept(tb, w.db, x, vs, t.low);
    RowsKept(tb, w.db, x, vs, t.high);
    GroupsOnly(tb, w0, w.db, CloseGroup(tb, w.db, x, vs), t, x);
  }

  lemma MidwayStep(tb: Table, w0: World, w: World, t: Top, s: Step)
    requires TopTiers(tb, t) && TwinRounds(tb, w, t.low.round, t.high.round)
    requires Midway(tb, w0, w.db, t) && Apart(tb, w0, t) && Enabled(tb, w, s)
    requires ClosingStep(s, t.low.round) || ClosingStep(s, t.high.round)
    ensures Midway(tb, w0, Next(tb, w, s).db, t)
  {
    match s.event
    case Claims(k) =>
      MidwayClaim(tb, w0, w, t, k, if k == t.low.round then t.high.round else t.low.round);
    case Closes(x, vs) =>
      if w.db.groups[x].open {
        JudgedCovers(tb, w.db, x, vs);
        MidwayClose(tb, w0, w, t, x, vs);
      }
    case _ => MidwayLook(tb, w0, w, t, s);
  }

  ghost predicate OnTheWay(tb: Table, w0: World, w: World, t: Top) {
    TwinRounds(tb, w, t.low.round, t.high.round) && Midway(tb, w0, w.db, t)
  }

  lemma MidwayNext(tb: Table, w0: World, w: World, t: Top, s: Step)
    requires TopTiers(tb, t) && Apart(tb, w0, t) && OnTheWay(tb, w0, w, t) && Enabled(tb, w, s)
    requires ClosingStep(s, t.low.round) || ClosingStep(s, t.high.round)
    ensures OnTheWay(tb, w0, Next(tb, w, s), t)
  {
    MidwayStep(tb, w0, w, t, s);
    TwinsStay(tb, w, s, t.low.round, t.high.round);
  }

  lemma MidwayRun(tb: Table, w0: World, w: World, t: Top, steps: seq<Step>, v: World)
    requires TopTiers(tb, t) && Apart(tb, w0, t) && OnTheWay(tb, w0, w, t)
    requires Leads(tb, w, steps, v) && BothClosing(steps, t.low.round, t.high.round)
    ensures Inv(tb, v) && Midway(tb, w0, v.db, t)
  {
    var kept: World -> bool := u => OnTheWay(tb, w0, u, t);
    var closing: Step -> bool := s => ClosingStep(s, t.low.round) || ClosingStep(s, t.high.round);
    forall u, s | kept(u) && closing(s) && Enabled(tb, u, s)
      ensures kept(Next(tb, u, s))
    {
      MidwayNext(tb, w0, u, t, s);
    }
    KeptAlong(tb, w, steps, v, kept, closing);
  }

  // ----- what is left at the end -----

  /** Counting a union of disjoint parts. */
  lemma PartsCard(stay: set<PlayerId>, down: set<PlayerId>, up: set<PlayerId>)
    requires down <= stay && stay !! up
    ensures |(stay - down) + up| == |stay| - |down| + |up|
  {
    DifferenceCard(stay, down);
  }

  lemma ZoneSize(ranked: seq<Entry>, c: CountsResult)
    requires OncePerPlayer(ranked)
    ensures |InZone(ranked, c, |ranked|, Promote)| == PromotedAmong(ranked, c, |ranked|)
    ensures |InZone(ranked, c, |ranked|, Relegate)| == RelegatedAmong(ranked, c, |ranked|)
  {
    ZoneCard(ranked, c, |ranked|, Promote);
    ZoneCard(ranked, c, |ranked|, Relegate);
    ZoneCounts(ranked, c, |ranked|);
  }

  /** With both groups closed, the top is those who stayed and those who came. */
  lemma TopAddsUp(tb: Table, w0: World, t: Top, db: Db)
    requires Inv(tb, w0) && Apart(tb, w0, t) && Midway(tb, w0, db, t)
    requires !db.groups[t.low].open && !db.groups[t.high].open
    ensures Population(db.players, t.high.round.tier) == |t.highRanked|
      - RelegatedAmong(t.highRanked, CountsWith(tb, t.high.round, t.highRanked, PairOf(tb, w0, t)), |t.highRanked|)
      + PromotedAmong(t.lowRanked, CountsWith(tb, t.low.round, t.lowRanked, PairOf(tb, w0, t)), |t.lowRanked|)
  {
    assert Population(db.players, t.high.round.tier) == |InTier(db.players, t.high.round.tier)|;
    PartsCard(Staying(w0.db.members, t.high), GoDown(tb, w0, t), GoUp(tb, w0, t));
    RankedStay(tb, w0, t.high, t.highRanked);
    ZoneSize(t.lowRanked, CountsWith(tb, t.low.round, t.lowRanked, PairOf(tb, w0, t)));
    ZoneSize(t.highRanked, CountsWith(tb, t.high.round, t.highRanked, PairOf(tb, w0, t)));
  }

  lemma GroupOfClosedRound(tb: Table, w: World, g: GroupId)
    requires Inv(tb, w) && g in w.db.groups && g.round in w.db.rounds && w.db.rounds[g.round].state == Closed
    ensures !w.db.groups[g].open
  {
  }

  lemma BothClosed(tb: Table, w0: World, v: World, t: Top)
    requires Inv(tb, w0) && Apart(tb, w0, t) && Inv(tb, v) && Midway(tb, w0, v.db, t)
    requires v.db.rounds[t.low.round].state == Closed && v.db.rounds[t.high.round].state == Closed
    ensures Population(v.db.players, t.high.round.tier) == |t.highRanked|
      - RelegatedAmong(t.highRanked, CountsWith(tb, t.high.round, t.highRanked, PairOf(tb, w0, t)), |t.highRanked|)
      + PromotedAmong(t.lowRanked, CountsWith(tb, t.low.round, t.lowRanked, PairOf(tb, w0, t)), |t.lowRanked|)
  {
    GroupOfClosedRound(tb, v, t.low);
    GroupOfClosedRound(tb, v, t.high);
    TopAddsUp(tb, w0, t, v.db);
  }

  /** The frozen pair decides the openings of the lower tier, and no count at all for the upper one. */
  lemma FrozenOpenings(tb: Table, w: World, t: Top)
    requires SoundTable(tb) && TopTiers(tb, t)
    ensures Cfg(tb, t.high.round.tier).slots.Capped? && UpCountFor(tb, t.high.round.tier, PairOf(tb, w, t)) == -1
    ensures UpCountFor(tb, t.low.round.tier, PairOf(tb, w, t)) == Openings(Cfg(tb, t.high.round.tier), tb.minGroupSize,
              Population(w.db.players, t.low.round.tier), Population(w.db.players, t.high.round.tier))
  {
    TopFrozenTiers(tb, t);
  }

  lemma GroupSizes(tb: Table, w: World, t: Top)
    requires Unclaimed(tb, w, t)
    ensures Population(w.db.players, t.low.round.tier) == |t.lowRanked|
    ensures Population(w.db.players, t.high.round.tier) == |t.highRanked|
  {
    GroupOfOpenRound(tb, w, t.low);
    GroupOfOpenRound(tb, w, t.high);
    TierIsGroup(tb, w, t.low, t.lowRanked);
    TierIsGroup(tb, w, t.high, t.highRanked);
  }

  lemma BothRoundsRun(tb: Table, w: World, t: Top, steps: seq<Step>, v: World)
    requires Unclaimed(tb, w, t) && Leads(tb, w, steps, v) && BothClosing(steps, t.low.round, t.high.round)
    ensures Inv(tb, v) && Midway(tb, w, v.db, t) && Apart(tb, w, t)
  {
    StartsMidway(tb, w, t);
    StartsApart(tb, w, t);
    MidwayRun(tb, w, w, t, steps, v);
  }

  lemma ClosesAddUp(tb: Table, w: World, t: Top, steps: seq<Step>, v: World)
    requires Unclaimed(tb, w, t) && Leads(tb, w, steps, v) && BothClosing(steps, t.low.round, t.high.round)
    requires t.low.round in v.db.rounds && v.db.rounds[t.low.round].state == Closed
    requires t.high.round in v.db.rounds && v.db.rounds[t.high.round].state == Closed
    ensures Population(w.db.players, t.low.round.tier) == |t.lowRanked|
    ensures Population(w.db.players, t.high.round.tier) == |t.highRanked|
    ensures Ranked(t.lowRanked) && Cfg(tb, t.low.round.tier).rule.upMode == ByOpenings
    ensures Population(v.db.players, t.high.round.tier)
      == CappedAfter(t.lowRanked, Cfg(tb, t.low.round.tier), t.highRanked, Cfg(tb, t.high.round.tier), tb.minGroupSize)
  {
    BothRoundsRun(tb, w, t, steps, v);
    BothClosed(tb, w, v, t);
    GroupSizes(tb, w, t);
    FrozenOpenings(tb, w, t);
  }

  /** From a state in which neither round is claimed, through the closes of both, their steps mixed in
      any way and at any times: if each tier has one group that holds all its players, the capped tier
      keeps its cap, counted in the players of the two tiers before, and uses it up precisely when the
      tier below can fill every opening. */
  lemma CapHoldsInTheTables(tb: Table, w: World, t: Top, steps: seq<Step>, v: World, d: nat, lo: int)
    requires Unclaimed(tb, w, t) && Leads(tb, w, steps, v) && BothClosing(steps, t.low.round, t.high.round)
    requires t.low.round in v.db.rounds && v.db.rounds[t.low.round].state == Closed
    requires t.high.round in v.db.rounds && v.db.rounds[t.high.round].state == Closed
    requires SaneRule(RuleOf(tb, t.high.round)) && SaneCap(Cfg(tb, t.high.round.tier).slots, d, lo)
    ensures var capped := Cfg(tb, t.high.round.tier);
      var below, members := Population(w.db.players, t.low.round.tier), Population(w.db.players, t.high.round.tier);
      var stayed := members - Leaving(capped, tb.minGroupSize, members);
      var after := Population(v.db.players, t.high.round.tier);
      && CapKept(below, d, lo, capped.slots.maxSlots, stayed, after)
      && (CapReached(below, d, lo, capped.slots.maxSlots, after) <==>
            CanFill(t.lowRanked, Cfg(tb, t.low.round.tier), tb.minGroupSize,
                    Openings(capped, tb.minGroupSize, below, members)))
  {
    ClosesAddUp(tb, w, t, steps, v);
    CapHolds(t.lowRanked, Cfg(tb, t.low.round.tier), t.highRanked, Cfg(tb, t.high.round.tier), tb.minGroupSize, d, lo);
  }
}
