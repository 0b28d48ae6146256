/** The league as a transition system. The tables change only by the guarded statements below; a
    transaction is a run of them, and a crash can fall between any two transactions. */
module Season {
  import opened Tiers
  import opened Standings
  import opened GroupIds

  // ----- the rows -----

  datatype PlayerId = PlayerId(number: int)

  datatype Player = Player(tier: nat, points: int, settled: int)

  datatype RoundKey = RoundKey(tier: nat, index: int)

  datatype RoundState = Open | Closing | Closed

  /** The two populations frozen at the claim, for the openings tier and the capped tier above it. */
  datatype Pair = NoPair | Frozen(below: nat, inTier: nat)

  /** `upCount` is -1 where the row holds NULL. */
  datatype Round = Round(state: RoundState, endsAt: int, groupSeq: nat, pair: Pair, upCount: int)

  datatype GroupId = GroupId(round: RoundKey, seqNo: nat)

  datatype Capacity = Unlimited | Limited(size: nat)

  datatype Group = Group(quarantine: bool, capacity: Capacity, count: int, open: bool)

  datatype MemberKey = MemberKey(player: PlayerId, round: RoundKey)

  datatype Verdict = Undecided | Decided(rank: nat, zone: Zone)

  datatype Member = Member(group: GroupId, score: int, games: int, lastSubmit: int, left: bool, verdict: Verdict)

  datatype Reason = ReasonRound | ReasonScore

  datatype SummaryKey = SummaryKey(player: PlayerId, round: RoundKey, reason: Reason)

  datatype Summary = Summary(after: nat, outcome: Outcome, rank: nat, roundScore: int, points: int)

  type Players = map<PlayerId, Player>
  type Rounds = map<RoundKey, Round>
  type Groups = map<GroupId, Group>
  type Members = map<MemberKey, Member>
  type Summaries = map<SummaryKey, Summary>

  datatype Db = Db(players: Players, rounds: Rounds, groups: Groups, members: Members, summaries: Summaries)

  /** The tables, the clock, and two things only the proofs keep: the rounds some closer has seen
      without an open group, and how often a tier move was applied on behalf of each summary. */
  datatype World = World(db: Db, clock: int, drained: set<RoundKey>, applied: map<SummaryKey, nat>)

  // ----- the tier table -----

  datatype Table = Table(tiers: Ladder, firstRound: nat, days: nat, groupSize: nat, groupMax: nat, minGroupSize: int)

  function Cfg(tb: Table, tier: nat): Tier {
    if tier < |tb.tiers| then tb.tiers[tier] else tb.tiers[0]
  }

  /** The shape of the shipped table: score tiers without rounds at the bottom, every other tier
      with rounds of one length, the first of them a floor; and only the top tier may be capped,
      over a tier that fills its openings. */
  ghost predicate SoundTable(tb: Table) {
    && tb.firstRound < |tb.tiers| && tb.days > 0
    && 1 <= tb.groupSize <= tb.groupMax
    && (forall i :: 0 <= i < |tb.tiers| ==> tb.tiers[i].roundDays == if i < tb.firstRound then 0 else tb.days)
    && (forall i :: 0 <= i < |tb.tiers| && PromoScoreOf(tb.tiers[i].rule) > 0 ==> i < tb.firstRound)
    && tb.tiers[tb.firstRound].floor
    && (forall i :: 0 <= i < |tb.tiers| && tb.tiers[i].slots.Capped? ==>
          i == |tb.tiers| - 1 && i > tb.firstRound && !tb.tiers[i].floor && tb.tiers[i].rule.upMode != ByOpenings)
    && (forall i :: 0 <= i < |tb.tiers| && tb.tiers[i].rule.upMode == ByOpenings ==>
          i == |tb.tiers| - 2 && i >= tb.firstRound && tb.tiers[i + 1].slots.Capped?)
  }

  /** Gold, Platinum, Diamond and Challenger over Bronze and Silver, as shipped. */
  const SHIPPED: Table :=
    var bronze := Tier(0, TierRule(UpMode.ByScore, 3000, 0, 0, 0), Stay, false, false, 0, Uncapped);
    var silver := Tier(0, TierRule(UpMode.ByScore, 10000, 0, 0, 0), Stay, false, false, 0, Uncapped);
    var gold := Tier(7, TierRule(ByPercent, 0, 20, 0, 1500), Stay, true, false, 30, Uncapped);
    var platinum := Tier(7, TierRule(ByPercent, 0, 15, 25, 2500), Drop, false, false, 30, Uncapped);
    var diamond := Tier(7, TierRule(ByOpenings, 0, 0, 20, 0), Drop, false, true, 0, Uncapped);
    var challenger := Tier(7, TierRule(ByPercent, 0, 0, 50, 0), Drop, false, true, 0, Capped(50, Given(5), Given(10)));
    Table([bronze, silver, gold, platinum, diamond, challenger], 2, 7, 30, 50, 5)

  lemma ShippedIsSound()
    ensures SoundTable(SHIPPED)
  {
    var ts := SHIPPED.tiers;
    assert |ts| == 6 && ts[2].floor;
    assert forall i :: 0 <= i < 6 ==> (ts[i].slots.Capped? <==> i == 5);
    assert forall i :: 0 <= i < 6 ==> (ts[i].rule.upMode == ByOpenings <==> i == 4);
  }

  function Index(tb: Table, tier: nat, time: int): int {
    RoundIndex(Cfg(tb, tier), time)
  }

  function End(tb: Table, key: RoundKey): int {
    RoundEnd(Cfg(tb, key.tier), key.index)
  }

  function Start(tb: Table, tier: nat, index: int): int {
    RoundStart(Cfg(tb, tier), index)
  }

  /** The round a player's outcomes are settled up to, in the calendar of their tier. */
  function SettledIndex(tb: Table, p: Player): int {
    Index(tb, p.tier, p.settled)
  }

  predicate InRounds(tb: Table, tier: nat) {
    tb.firstRound <= tier < |tb.tiers|
  }

  // ----- guarded statements -----

  /** `SetTier`, once its guard on the current tier has passed: points restart only on a change. */
  function Moved(p: Player, to: nat, settled: int): Player {
    if p.tier == to then p.(settled := settled) else Player(to, 0, settled)
  }

  function Register(tb: Table, db: Db, p: PlayerId, now: int): Db {
    db.(players := db.players[p := Player(0, 0, Start(tb, 0, Index(tb, 0, now)))])
  }

  function RowsOfPlayer(members: Members, p: PlayerId): set<MemberKey> {
    set m | m in members && m.player == p
  }

  function SummariesOfPlayer(summaries: Summaries, p: PlayerId): set<SummaryKey> {
    set s | s in summaries && s.player == p
  }

  /** The open groups `DecGroupCountsForPlayer` touches. */
  predicate CountsPlayer(members: Members, p: PlayerId, g: GroupId) {
    var m := MemberKey(p, g.round);
    m in members && members[m].group == g && !members[m].left
  }

  function GroupsWithout(groups: Groups, members: Members, p: PlayerId): Groups {
    map g | g in groups ::
      if groups[g].open && CountsPlayer(members, p, g) then groups[g].(count := groups[g].count - 1) else groups[g]
  }

  /** `DeleteAccount`: the counts first, then the player with everything that hangs off them. */
  function Delete(db: Db, p: PlayerId): Db {
    Db(db.players - {p}, db.rounds, GroupsWithout(db.groups, db.members, p),
       db.members - RowsOfPlayer(db.members, p), db.summaries - SummariesOfPlayer(db.summaries, p))
  }

  /** `EnsureRound`: insert on conflict do nothing. */
  function EnsureRound(tb: Table, db: Db, key: RoundKey): Db {
    if key in db.rounds then db
    else db.(rounds := db.rounds[key := Round(Open, End(tb, key), 0, NoPair, -1)])
  }

  function Population(players: Players, tier: nat): nat {
    |set p | p in players && players[p].tier == tier|
  }

  /** The tiers whose populations a round of this tier freezes: below and capped; equal for none. */
  function FrozenTiers(tb: Table, tier: nat): (nat, nat) {
    if tier >= |tb.tiers| then (0, 0)
    else if tb.tiers[tier].rule.upMode == ByOpenings then (tier, PromoteTier(tb.tiers, tier))
    else if tb.tiers[tier].slots.Capped? then (RelegateTier(tb.tiers, tier), tier)
    else (0, 0)
  }

  /** `RoundEndingAt`: among the rounds of a tier that end at one instant, the last. */
  predicate EndsThen(rounds: Rounds, tier: nat, endsAt: int, k: RoundKey) {
    k in rounds && k.tier == tier && rounds[k].endsAt == endsAt
  }

  ghost predicate IsRoundEndingAt(rounds: Rounds, tier: nat, endsAt: int, k: RoundKey) {
    EndsThen(rounds, tier, endsAt, k) && forall j :: EndsThen(rounds, tier, endsAt, j) ==> j.index <= k.index
  }

  /** The pair a claim freezes: the sibling's if it froze one, else the populations now. */
  ghost function PairFor(tb: Table, players: Players, rounds: Rounds, key: RoundKey, endsAt: int): Pair {
    var (below, capped) := FrozenTiers(tb, key.tier);
    var sibling := if key.tier == below then capped else below;
    if below == capped then NoPair
    else if exists k :: IsRoundEndingAt(rounds, sibling, endsAt, k) && rounds[k].state != Open && rounds[k].pair.Frozen? then
      var k :| IsRoundEndingAt(rounds, sibling, endsAt, k) && rounds[k].state != Open && rounds[k].pair.Frozen?;
      rounds[k].pair
    else Frozen(Population(players, below), Population(players, capped))
  }

  function UpCountFor(tb: Table, tier: nat, pair: Pair): int {
    if pair.Frozen? && Cfg(tb, tier).rule.upMode == ByOpenings then
      Openings(Cfg(tb, FrozenTiers(tb, tier).1), tb.minGroupSize, pair.below, pair.inTier)
    else -1
  }

  /** d players of this tier for every place of the capped tier above it, and at least lo places. */
  predicate FillsTierAbove(tb: Table, tier: nat, d: nat, lo: int) {
    tier + 1 < |tb.tiers| && tb.tiers[tier].rule.upMode == ByOpenings && SaneCap(tb.tiers[tier + 1].slots, d, lo)
  }

  /** A frozen pair lets in what is left of the places the players below give, after the relegations
      of the tier above. */
  lemma UpCountMeans(tb: Table, tier: nat, pair: Pair, d: nat, lo: int)
    requires FillsTierAbove(tb, tier, d, lo) && pair.Frozen?
    ensures var capped := tb.tiers[tier + 1];
      OpeningsAre(capped.slots, pair.below, d, lo, pair.inTier - Leaving(capped, tb.minGroupSize, pair.inTier),
                  UpCountFor(tb, tier, pair))
  {
    OpeningsMean(tb.tiers[tier + 1], tb.minGroupSize, pair.below, pair.inTier, d, lo, UpCountFor(tb, tier, pair));
  }

  /** `claimRound`: only an open round is claimed, and only the claimant writes the counts. */
  ghost function Claim(tb: Table, db: Db, key: RoundKey): Db
    requires key in db.rounds
  {
    var r := db.rounds[key];
    if r.state != Open then db
    else
      var pair := PairFor(tb, db.players, db.rounds, key, r.endsAt);
      db.(rounds := db.rounds[key := r.(state := Closing, pair := pair, upCount := UpCountFor(tb, key.tier, pair))])
  }

  function Finish(db: Db, key: RoundKey): Db
    requires key in db.rounds
  {
    if db.rounds[key].state == Closing then db.(rounds := db.rounds[key := db.rounds[key].(state := Closed)]) else db
  }

  // ----- closing a group -----

  type Verdicts = map<PlayerId, Verdict>

  function VerdictOf(vs: Verdicts, p: PlayerId): Verdict {
    if p in vs then vs[p] else Undecided
  }

  function OutcomeOf(v: Verdict): Outcome {
    if v.Decided? then OutcomeForZone(v.zone) else Stayed
  }

  function After(tb: Table, tier: nat, v: Verdict): nat {
    if tier < |tb.tiers| then Apply(tb.tiers, tier, OutcomeOf(v)) else tier
  }

  function EntryOf(p: PlayerId, m: Member): Entry {
    Entry(p.number, m.score, m.games, m.lastSubmit, m.left, false)
  }

  /** A ranking of the people of a group and any bots. */
  ghost predicate GroupRanking(members: Members, g: GroupId, ranked: seq<Entry>) {
    && Ranked(ranked) && OncePerPlayer(ranked)
    && (forall m :: m in members && members[m].group == g ==> EntryOf(m.player, members[m]) in ranked)
    && (forall e :: e in ranked && !e.bot ==>
          exists m :: m in members && members[m].group == g && e == EntryOf(m.player, members[m]))
  }

  /** Everyone in the group has a verdict. */
  ghost predicate Covered(members: Members, g: GroupId, vs: Verdicts) {
    forall m: MemberKey :: m in members && members[m].group == g ==> m.player in vs && vs[m.player].Decided?
  }

  /** Everyone is judged by the evaluation of that ranking. */
  ghost predicate JudgedBy(ranked: seq<Entry>, ev: Evaluation, vs: Verdicts) {
    && |ev.members| == |ranked|
    && (forall i :: 0 <= i < |ranked| && !ranked[i].bot ==>
          var p := PlayerId(ranked[i].player);
          p in vs && vs[p] == Decided(ev.members[i].rank, ev.members[i].zone))
  }

  /** Bots compete only where the tier has them. */
  ghost predicate BotsAllowed(tb: Table, tier: nat, entries: seq<Entry>) {
    Cfg(tb, tier).fillTo == 0 ==> forall e :: e in entries ==> !e.bot
  }

  /** The verdicts are those of the evaluation of this ranking of the group. */
  ghost predicate JudgedAs(tb: Table, db: Db, g: GroupId, ranked: seq<Entry>, vs: Verdicts)
    requires g.round in db.rounds
  {
    && GroupRanking(db.members, g, ranked) && BotsAllowed(tb, g.round.tier, ranked)
    && JudgedBy(ranked, EvaluationOf(ranked, Cfg(tb, g.round.tier).rule, tb.minGroupSize, db.rounds[g.round].upCount), vs)
  }

  ghost predicate Judged(tb: Table, db: Db, g: GroupId, vs: Verdicts)
    requires g.round in db.rounds
  {
    exists ranked :: JudgedAs(tb, db, g, ranked, vs)
  }

  /** The people of a group who have not left it. */
  function Staying(members: Members, g: GroupId): set<PlayerId> {
    set m | m in members && members[m].group == g && !members[m].left :: m.player
  }

  /** Does settling p insert the summary, and does the tier move then hit the row? */
  predicate Inserts(db: Db, key: RoundKey, p: PlayerId) {
    SummaryKey(p, key, ReasonRound) !in db.summaries
  }

  predicate Hits(db: Db, key: RoundKey, p: PlayerId) {
    Inserts(db, key, p) && p in db.players && db.players[p].tier == key.tier
  }

  function SettledPlayer(tb: Table, p: Player, key: RoundKey, v: Verdict, endsAt: int): Player {
    var after := After(tb, key.tier, v);
    Moved(p, after, Start(tb, after, Index(tb, after, endsAt)))
  }

  function SettledSummary(tb: Table, db: Db, key: RoundKey, p: PlayerId, v: Verdict): Summary {
    Summary(After(tb, key.tier, v), OutcomeOf(v), if v.Decided? then v.rank else 0,
            if MemberKey(p, key) in db.members then db.members[MemberKey(p, key)].score else 0,
            if p in db.players then db.players[p].points else 0)
  }

  function PlayersAfter(tb: Table, db: Db, key: RoundKey, vs: Verdicts, ps: set<PlayerId>, endsAt: int): Players {
    map p | p in db.players ::
      if p in ps && Hits(db, key, p) then SettledPlayer(tb, db.players[p], key, VerdictOf(vs, p), endsAt) else db.players[p]
  }

  function NewSummaryKeys(db: Db, key: RoundKey, ps: set<PlayerId>): set<SummaryKey> {
    set p | p in ps && Inserts(db, key, p) :: SummaryKey(p, key, ReasonRound)
  }

  function SummariesAfter(tb: Table, db: Db, key: RoundKey, vs: Verdicts, ps: set<PlayerId>): Summaries {
    map s | s in db.summaries.Keys + NewSummaryKeys(db, key, ps) ::
      if s in db.summaries then db.summaries[s] else SettledSummary(tb, db, key, s.player, VerdictOf(vs, s.player))
  }

  /** `SetMemberOutcome` for the given members of a group. */
  function MembersAfter(members: Members, g: GroupId, vs: Verdicts, ps: set<PlayerId>): Members {
    map m | m in members ::
      if m.player in ps && members[m].group == g then members[m].(verdict := VerdictOf(vs, m.player)) else members[m]
  }

  function InGroup(members: Members, g: GroupId): set<PlayerId> {
    set m | m in members && members[m].group == g :: m.player
  }

  /** `closeGroup`: the claim on the group first; then every member gets their verdict, and those
      who did not leave their summary and, if it was inserted, their new tier. */
  function CloseGroup(tb: Table, db: Db, g: GroupId, vs: Verdicts): Db
    requires g in db.groups && g.round in db.rounds
  {
    if !db.groups[g].open then db
    else
      var ps := Staying(db.members, g);
      Db(PlayersAfter(tb, db, g.round, vs, ps, db.rounds[g.round].endsAt), db.rounds,
         db.groups[g := db.groups[g].(open := false)],
         MembersAfter(db.members, g, vs, InGroup(db.members, g)),
         SummariesAfter(tb, db, g.round, vs, ps))
  }

  // ----- absence and joining -----

  function Missed(tb: Table, p: Player, now: int): int {
    Index(tb, p.tier, now) - SettledIndex(tb, p)
  }

  function TierAfterAbsence(tb: Table, tier: nat, missed: int): nat {
    if tier < |tb.tiers| && missed > 0 then MissOneByOne(tb.tiers, tier, missed) else tier
  }

  /** `catchUp` reads the clock up to four times: for the rounds due, for the number of rounds missed,
      for the round their summary names, and for the round the player is settled up to. */
  datatype Readings = Readings(due: int, counted: int, booked: int, settled: int)

  predicate InOrder(r: Readings) {
    r.due <= r.counted <= r.booked <= r.settled
  }

  function AllAt(now: int): Readings {
    Readings(now, now, now, now)
  }

  function AbsenceKey(tb: Table, db: Db, p: PlayerId, booked: int): SummaryKey
    requires p in db.players
  {
    var t := db.players[p].tier;
    SummaryKey(p, RoundKey(t, Index(tb, t, booked) - 1), ReasonRound)
  }

  /** The second half of `catchUp`: all missed rounds at once, one summary for them. */
  function Absence(tb: Table, db: Db, p: PlayerId, r: Readings): Db
    requires p in db.players
  {
    var pl := db.players[p];
    var after := TierAfterAbsence(tb, pl.tier, Missed(tb, pl, r.counted));
    var s := AbsenceKey(tb, db, p, r.booked);
    var sum := Summary(after, InactiveOutcome(Cfg(tb, pl.tier)), 0, 0, pl.points);
    db.(players := db.players[p := Moved(pl, after, Start(tb, after, Index(tb, after, r.settled)))],
        summaries := if s in db.summaries then db.summaries else db.summaries[s := sum])
  }

  function FreshGroup(tb: Table, tier: nat, quarantine: bool): Group {
    Group(quarantine, if Cfg(tb, tier).global then Unlimited else Limited(tb.groupSize), 1, true)
  }

  function NewMember(g: GroupId): Member {
    Member(g, 0, 0, 0, false, Undecided)
  }

  /** The group a player has just been put into: one more, or created for them. */
  function GroupJoined(tb: Table, groups: Groups, tier: nat, quarantine: bool, g: GroupId): Group {
    if g in groups then groups[g].(count := groups[g].count + 1) else FreshGroup(tb, tier, quarantine)
  }

  /** The membership row, in an existing group or in a new one, which takes the next number. */
  function Join(tb: Table, db: Db, p: PlayerId, key: RoundKey, quarantine: bool, g: GroupId): Db
    requires key in db.rounds
  {
    var r := db.rounds[key];
    Db(db.players, if g in db.groups then db.rounds else db.rounds[key := r.(groupSeq := r.groupSeq + 1)],
       db.groups[g := GroupJoined(tb, db.groups, key.tier, quarantine, g)],
       db.members[MemberKey(p, key) := NewMember(g)], db.summaries)
  }

  /** `IncGroupCount` finds room. */
  predicate HasRoom(gr: Group, limit: nat) {
    gr.open && (gr.capacity == Unlimited || gr.count < limit)
  }

  /** Fuller groups come first, and of equally full ones of a round the smaller id. */
  predicate SortsFirst(groups: Groups, g: GroupId, h: GroupId)
    requires g in groups && h in groups
  {
    groups[g].count > groups[h].count || (groups[g].count == groups[h].count && IdBefore(g.seqNo, h.seqNo))
  }

  /** `FindOpenGroup` may return it, but for the order. */
  predicate Fillable(groups: Groups, key: RoundKey, quarantine: bool, g: GroupId) {
    && g in groups && g.round == key && groups[g].quarantine == quarantine
    && groups[g].open && (groups[g].capacity == Unlimited || groups[g].count < groups[g].capacity.size)
  }

  ghost predicate IsFullest(groups: Groups, key: RoundKey, quarantine: bool, g: GroupId) {
    && Fillable(groups, key, quarantine, g)
    && forall h :: Fillable(groups, key, quarantine, h) && h != g ==> SortsFirst(groups, g, h)
  }

  /** A friend's group, or none: listed with room below the hard limit. */
  datatype Wish = NoWish | Wish(group: GroupId)

  predicate Listed(tb: Table, groups: Groups, key: RoundKey, wish: Wish) {
    wish.Wish? ==>
      && wish.group in groups && wish.group.round == key && groups[wish.group].open
      && groups[wish.group].capacity.Limited? && groups[wish.group].count < tb.groupMax
  }

  predicate TakesWish(tb: Table, groups: Groups, key: RoundKey, wish: Wish) {
    !Cfg(tb, key.tier).global && wish.Wish? && wish.group in groups && HasRoom(groups[wish.group], tb.groupMax)
  }

  /** Where `ensureMembership` puts a player: the wish, else the first of the fullest groups below the
      random-fill size, else a new group. */
  ghost predicate Placement(tb: Table, db: Db, key: RoundKey, quarantine: bool, wish: Wish, g: GroupId) {
    key in db.rounds && (
      if TakesWish(tb, db.groups, key, wish) then g == wish.group
      else if IsFullest(db.groups, key, quarantine, g) && HasRoom(db.groups[g], tb.groupSize) then true
      else
        && g == GroupId(key, db.rounds[key].groupSeq + 1)
        && forall h :: IsFullest(db.groups, key, quarantine, h) ==> !HasRoom(db.groups[h], tb.groupSize))
  }

  /** A submitted game: the points, and the member row where the tier has one. */
  function Score(db: Db, p: PlayerId, key: RoundKey, points: int, score: int, games: int, last: int): Db
    requires p in db.players
  {
    var m := MemberKey(p, key);
    db.(players := db.players[p := db.players[p].(points := db.players[p].points + points)],
        members := if m in db.members then
            db.members[m := db.members[m].(score := score, games := games, lastSubmit := last)]
          else db.members)
  }

  function PromotionKey(db: Db, p: PlayerId, index: int): SummaryKey
    requires p in db.players
  {
    SummaryKey(p, RoundKey(db.players[p].tier, index), ReasonScore)
  }

  predicate PromotesByScore(tb: Table, p: Player) {
    && p.tier < |tb.tiers| && PromoScoreOf(tb.tiers[p.tier].rule) > 0
    && p.points >= PromoScoreOf(tb.tiers[p.tier].rule) && PromoteTier(tb.tiers, p.tier) != p.tier
  }

  /** `promoteByScore`: the summary, the tier, and the running membership marked as left. */
  function PromoteByScore(tb: Table, db: Db, p: PlayerId, now: int): Db
    requires p in db.players && PromotesByScore(tb, db.players[p])
  {
    var pl := db.players[p];
    var above := PromoteTier(tb.tiers, pl.tier);
    var index := Index(tb, pl.tier, now);
    var s := PromotionKey(db, p, index);
    var m := MemberKey(p, RoundKey(pl.tier, index));
    var sum := Summary(above, Promoted, 0, if m in db.members then db.members[m].score else 0, pl.points);
    db.(players := db.players[p := Moved(pl, above, Start(tb, above, Index(tb, above, now)))],
        summaries := if s in db.summaries then db.summaries else db.summaries[s := sum],
        members := if m in db.members then db.members[m := db.members[m].(left := true)] else db.members)
  }

  // ----- steps and runs -----

  datatype Event =
    | Registers(p: PlayerId)
    | Deletes(p: PlayerId)
    | Ensures(round: RoundKey)
    | Claims(round: RoundKey)
    | SeesNoGroup(round: RoundKey)
    | Closes(group: GroupId, verdicts: Verdicts)
    | Finishes(round: RoundKey)
    | Misses(p: PlayerId, read: Readings)
    | Joins(p: PlayerId, read: Readings, round: RoundKey, quarantine: bool, wish: Wish, group: GroupId)
    | Scores(p: PlayerId, round: RoundKey, points: int, score: int, games: int, last: int)
    | Promotes(p: PlayerId)

  /** A step and the time on the clock when it happens. */
  datatype Step = Step(now: int, event: Event)

  /** A member of an open group who did not leave: the closer still has to settle them. */
  predicate Unsettled(groups: Groups, members: Members, m: MemberKey) {
    m in members && !members[m].left && members[m].group in groups && groups[members[m].group].open
  }

  /** Nothing of p's is left to settle in a round that has ended: what the first half of `catchUp`
      leaves behind. */
  ghost predicate CaughtUp(tb: Table, db: Db, p: PlayerId, now: int) {
    forall m: MemberKey :: m.player == p && Unsettled(db.groups, db.members, m) ==> now < End(tb, m.round)
  }

  /** What the code has read, in the same transaction or before, when it takes a step. An absence and a
      join follow a `catchUp`: nothing of theirs was left to settle in a round due when it asked. Whether a
      round has ended since is not read, and so not required. */
  ghost predicate Enabled(tb: Table, w: World, s: Step) {
    var db := w.db;
    && w.clock <= s.now
    && match s.event
       case Registers(p) => p !in db.players
       case Deletes(p) => true
       case Ensures(key) => InRounds(tb, key.tier) && key.index == Index(tb, key.tier, s.now)
       case Claims(key) => key in db.rounds && db.rounds[key].endsAt <= s.now
       case SeesNoGroup(key) => key in db.rounds && db.rounds[key].state != Open && NoOpenGroup(db.groups, key)
       case Closes(g, vs) =>
         && g in db.groups && g.round in db.rounds && db.rounds[g.round].state != Open
         && (db.groups[g].open ==> Judged(tb, db, g, vs))
       case Finishes(key) => key in db.rounds && key in w.drained
       case Misses(p, r) =>
         && p in db.players && InOrder(r) && r.settled == s.now
         && CaughtUp(tb, db, p, r.due) && Missed(tb, db.players[p], r.counted) > 0
       case Joins(p, r, key, q, wish, g) =>
         && JoinsRunning(tb, db, p, key, s.now) && InOrder(r) && r.settled <= s.now
         && CaughtUp(tb, db, p, r.due) && Missed(tb, db.players[p], r.counted) <= 0
         && Listed(tb, db.groups, key, wish) && Placement(tb, db, key, q, wish, g)
       case Scores(p, key, points, score, games, last) =>
         p in db.players && key == RoundKey(db.players[p].tier, Index(tb, db.players[p].tier, s.now))
       case Promotes(p) => p in db.players && PromotesByScore(tb, db.players[p])
  }

  /** `ensureMembership` is reached for the running round of the player's tier. */
  predicate JoinsRunning(tb: Table, db: Db, p: PlayerId, key: RoundKey, now: int) {
    && p in db.players && InRounds(tb, db.players[p].tier)
    && key == RoundKey(db.players[p].tier, Index(tb, db.players[p].tier, now))
    && MemberKey(p, key) !in db.members
  }

  /** The tables after the second half of `catchUp`, and the tier move it applied. */
  function AbsentWorld(tb: Table, w: World, p: PlayerId, r: Readings): World
    requires p in w.db.players
  {
    w.(db := Absence(tb, w.db, p, r), clock := r.settled,
       applied := AppliedOnce(w.applied, {AbsenceKey(tb, w.db, p, r.booked)}))
  }

  ghost predicate NoOpenGroup(groups: Groups, key: RoundKey) {
    forall g :: g in groups && g.round == key ==> !groups[g].open
  }

  function TimesApplied(applied: map<SummaryKey, nat>, s: SummaryKey): nat {
    if s in applied then applied[s] else 0
  }

  /** One more application for each of the summaries. */
  function AppliedOnce(applied: map<SummaryKey, nat>, keys: set<SummaryKey>): map<SummaryKey, nat> {
    map s | s in applied.Keys + keys :: TimesApplied(applied, s) + if s in keys then 1 else 0
  }

  function AppliedWithout(applied: map<SummaryKey, nat>, p: PlayerId): map<SummaryKey, nat> {
    map s | s in applied && s.player != p :: applied[s]
  }

  /** The summaries on whose behalf closing a group moves a player. */
  function HitKeys(db: Db, g: GroupId): set<SummaryKey> {
    HitKeysOf(db, g.round, Staying(db.members, g))
  }

  function HitKeysOf(db: Db, key: RoundKey, ps: set<PlayerId>): set<SummaryKey> {
    set p | p in ps && Hits(db, key, p) :: SummaryKey(p, key, ReasonRound)
  }

  ghost function Next(tb: Table, w: World, s: Step): World
    requires Enabled(tb, w, s)
  {
    var db := w.db;
    var v := w.(clock := s.now);
    match s.event
    case Registers(p) => v.(db := Register(tb, db, p, s.now))
    case Deletes(p) => v.(db := Delete(db, p), applied := AppliedWithout(w.applied, p))
    case Ensures(key) => v.(db := EnsureRound(tb, db, key))
    case Claims(key) => v.(db := Claim(tb, db, key))
    case SeesNoGroup(key) => v.(drained := w.drained + {key})
    case Closes(g, vs) =>
      v.(db := CloseGroup(tb, db, g, vs), applied := if db.groups[g].open then AppliedOnce(w.applied, HitKeys(db, g)) else w.applied)
    case Finishes(key) => v.(db := Finish(db, key))
    case Misses(p, r) => AbsentWorld(tb, w, p, r)
    case Joins(p, r, key, q, wish, g) => v.(db := Join(tb, db, p, key, q, g))
    case Scores(p, key, points, score, games, last) => v.(db := Score(db, p, key, points, score, games, last))
    case Promotes(p) =>
      v.(db := PromoteByScore(tb, db, p, s.now),
         applied := AppliedOnce(w.applied, {PromotionKey(db, p, Index(tb, db.players[p].tier, s.now))}))
  }
}
