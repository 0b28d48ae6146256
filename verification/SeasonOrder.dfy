/** Groups can be closed in any order, and so can the two tiers that share their frozen counts. */
module SeasonOrder {
  import opened Standings
  import opened Season
  import opened SeasonInvariant
  import opened SeasonRuns
  import opened SeasonCatchUp

  // ----- closing one group, row by row -----

  lemma ClosedPlayer(tb: Table, w: World, g: GroupId, vs: Verdicts, p: PlayerId)
    requires Inv(tb, w) && ClosesWell(w, g, vs) && p in w.db.players
    ensures var after := CloseGroup(tb, w.db, g, vs).players;
      p in after && after[p] ==
        if p in Staying(w.db.members, g) then
          SettledPlayer(tb, w.db.players[p], g.round, VerdictOf(vs, p), w.db.rounds[g.round].endsAt)
        else w.db.players[p]
  {
    if p in Staying(w.db.members, g) {
      SettlingHits(tb, w, g, p);
    }
  }

  /** The key of a summary that closing g writes. */
  predicate Writes(members: Members, g: GroupId, s: SummaryKey) {
    s == SummaryKey(s.player, g.round, ReasonRound) && s.player in Staying(members, g)
  }

  lemma ClosedSummary(tb: Table, w: World, g: GroupId, vs: Verdicts, s: SummaryKey)
    requires Inv(tb, w) && ClosesWell(w, g, vs)
    ensures var after := CloseGroup(tb, w.db, g, vs).summaries;
      && (s in after <==> s in w.db.summaries || Writes(w.db.members, g, s))
      && (Writes(w.db.members, g, s) ==>
            s !in w.db.summaries && after[s] == SettledSummary(tb, w.db, g.round, s.player, VerdictOf(vs, s.player)))
      && (s in w.db.summaries ==> after[s] == w.db.summaries[s])
  {
    if Writes(w.db.members, g, s) {
      SettlingHits(tb, w, g, s.player);
      assert s in NewSummaryKeys(w.db, g.round, Staying(w.db.members, g));
    }
  }

  lemma ClosedMember(tb: Table, w: World, g: GroupId, vs: Verdicts, m: MemberKey)
    requires ClosesWell(w, g, vs) && m in w.db.members
    ensures var after := CloseGroup(tb, w.db, g, vs).members;
      m in after && after[m] == if w.db.members[m].group == g then
          w.db.members[m].(verdict := VerdictOf(vs, m.player)) else w.db.members[m]
  {
    if w.db.members[m].group == g {
      assert m.player in InGroup(w.db.members, g);
    }
  }

  lemma ClosedApplied(tb: Table, w: World, g: GroupId, s: SummaryKey)
    requires Inv(tb, w) && g in w.db.groups && w.db.groups[g].open
    ensures s in HitKeys(w.db, g) <==> Writes(w.db.members, g, s)
  {
    if Writes(w.db.members, g, s) {
      SettlingHits(tb, w, g, s.player);
    }
  }

  // ----- two groups -----

  function ClosedWorld(tb: Table, w: World, g: GroupId, vs: Verdicts): World
    requires g in w.db.groups && g.round in w.db.rounds
  {
    w.(db := CloseGroup(tb, w.db, g, vs), applied := AppliedOnce(w.applied, HitKeys(w.db, g)))
  }

  /** Two groups about to be settled. */
  ghost predicate TwoGroups(tb: Table, w: World, g: GroupId, vs: Verdicts, h: GroupId, us: Verdicts) {
    SoundTable(tb) && Inv(tb, w) && g != h && ClosesWell(w, g, vs) && ClosesWell(w, h, us)
  }

  lemma NobodyInBoth(tb: Table, w: World, g: GroupId, h: GroupId, p: PlayerId)
    requires Inv(tb, w) && g != h && g in w.db.groups && h in w.db.groups && w.db.groups[g].open && w.db.groups[h].open
    requires p in Staying(w.db.members, g)
    ensures p !in Staying(w.db.members, h)
  {
    StayingIsUnsettled(tb, w, g, p);
    if p in Staying(w.db.members, h) {
      StayingHere(tb, w, h, MemberKey(p, g.round));
    }
  }

  lemma StayingElsewhere(tb: Table, db: Db, g: GroupId, vs: Verdicts, h: GroupId)
    requires g in db.groups && g.round in db.rounds && g != h
    ensures Staying(CloseGroup(tb, db, g, vs).members, h) == Staying(db.members, h)
  {
    var after := CloseGroup(tb, db, g, vs).members;
    forall m | m in db.members
      ensures m in after && after[m].group == db.members[m].group && after[m].left == db.members[m].left
    {
    }
    assert forall p :: p in Staying(after, h) <==> p in Staying(db.members, h);
  }

  /** The same rows of group h, but for the verdicts. */
  ghost predicate SameRowsOf(members: Members, after: Members, h: GroupId) {
    && (forall m :: m in members && members[m].group == h ==> m in after && EntryOf(m.player, after[m]) == EntryOf(m.player, members[m]))
    && (forall m :: m in members && members[m].group == h ==> after[m].group == h)
    && (forall m :: m in after && after[m].group == h ==> m in members && members[m].group == h)
  }

  lemma RankingMoves(members: Members, after: Members, h: GroupId, ranked: seq<Entry>)
    requires SameRowsOf(members, after, h) && GroupRanking(members, h, ranked)
    ensures GroupRanking(after, h, ranked)
  {
    forall e | e in ranked && !e.bot
      ensures exists m :: m in after && after[m].group == h && e == EntryOf(m.player, after[m])
    {
      var m :| m in members && members[m].group == h && e == EntryOf(m.player, members[m]);
      assert m in after;
    }
  }

  /** The judgement of a group depends on its own rows and on the frozen count only. */
  lemma JudgedMoves(tb: Table, db: Db, after: Db, h: GroupId, us: Verdicts)
    requires h.round in db.rounds && h.round in after.rounds && SameRowsOf(db.members, after.members, h)
    requires db.rounds[h.round].upCount == after.rounds[h.round].upCount && Judged(tb, db, h, us)
    ensures Judged(tb, after, h, us)
  {
    var ranked :| JudgedAs(tb, db, h, ranked, us);
    RankingMoves(db.members, after.members, h, ranked);
    assert JudgedAs(tb, after, h, ranked, us);
  }

  lemma RowsElsewhere(tb: Table, db: Db, g: GroupId, vs: Verdicts, h: GroupId)
    requires g in db.groups && g.round in db.rounds && g != h
    ensures SameRowsOf(db.members, CloseGroup(tb, db, g, vs).members, h)
    ensures SameRowsOf(CloseGroup(tb, db, g, vs).members, db.members, h)
  {
  }

  lemma CoveredElsewhere(members: Members, g: GroupId, vs: Verdicts, h: GroupId, us: Verdicts)
    requires Covered(members, h, us)
    ensures Covered(MembersAfter(members, g, vs, InGroup(members, g)), h, us)
  {
  }

  /** Once g is closed, h can still be. */
  lemma StillCloses(tb: Table, w: World, g: GroupId, vs: Verdicts, h: GroupId, us: Verdicts)
    requires TwoGroups(tb, w, g, vs, h, us)
    ensures Inv(tb, ClosedWorld(tb, w, g, vs)) && ClosesWell(ClosedWorld(tb, w, g, vs), h, us)
  {
    CloseKeeps(tb, w, g, vs);
    CoveredElsewhere(w.db.members, g, vs, h, us);
  }

  /** A player's row once both groups are closed. */
  function PlayerTwice(tb: Table, db: Db, g: GroupId, vs: Verdicts, h: GroupId, us: Verdicts, p: PlayerId): Player
    requires p in db.players && g.round in db.rounds && h.round in db.rounds
  {
    if p in Staying(db.members, g) then
      SettledPlayer(tb, db.players[p], g.round, VerdictOf(vs, p), db.rounds[g.round].endsAt)
    else if p in Staying(db.members, h) then
      SettledPlayer(tb, db.players[p], h.round, VerdictOf(us, p), db.rounds[h.round].endsAt)
    else db.players[p]
  }

  lemma PlayersCommute(tb: Table, w: World, g: GroupId, vs: Verdicts, h: GroupId, us: Verdicts, p: PlayerId)
    requires TwoGroups(tb, w, g, vs, h, us) && p in w.db.players
    requires Inv(tb, ClosedWorld(tb, w, g, vs)) && ClosesWell(ClosedWorld(tb, w, g, vs), h, us)
    ensures var after := CloseGroup(tb, CloseGroup(tb, w.db, g, vs), h, us).players;
      p in after && after[p] == PlayerTwice(tb, w.db, g, vs, h, us, p)
  {
    ClosedPlayer(tb, w, g, vs, p);
    ClosedPlayer(tb, ClosedWorld(tb, w, g, vs), h, us, p);
    StayingElsewhere(tb, w.db, g, vs, h);
    if p in Staying(w.db.members, g) {
      NobodyInBoth(tb, w, g, h, p);
    }
  }

  lemma SummaryElsewhere(tb: Table, w: World, g: GroupId, vs: Verdicts, h: GroupId, us: Verdicts, p: PlayerId)
    requires TwoGroups(tb, w, g, vs, h, us) && p in Staying(w.db.members, h)
    ensures SettledSummary(tb, CloseGroup(tb, w.db, g, vs), h.round, p, VerdictOf(us, p))
      == SettledSummary(tb, w.db, h.round, p, VerdictOf(us, p))
  {
    NobodyInBoth(tb, w, h, g, p);
    StayingIsUnsettled(tb, w, h, p);
    ClosedPlayer(tb, w, g, vs, p);
    ClosedMember(tb, w, g, vs, MemberKey(p, h.round));
  }

  lemma SummariesCommute(tb: Table, w: World, g: GroupId, vs: Verdicts, h: GroupId, us: Verdicts, s: SummaryKey)
    requires TwoGroups(tb, w, g, vs, h, us)
    requires Inv(tb, ClosedWorld(tb, w, g, vs)) && ClosesWell(ClosedWorld(tb, w, g, vs), h, us)
    ensures var after := CloseGroup(tb, CloseGroup(tb, w.db, g, vs), h, us).summaries;
      && (s in after <==> s in w.db.summaries || Writes(w.db.members, g, s) || Writes(w.db.members, h, s))
      && (s in w.db.summaries ==> after[s] == w.db.summaries[s])
      && (Writes(w.db.members, g, s) ==> after[s] == SettledSummary(tb, w.db, g.round, s.player, VerdictOf(vs, s.player)))
      && (Writes(w.db.members, h, s) ==> after[s] == SettledSummary(tb, w.db, h.round, s.player, VerdictOf(us, s.player)))
  {
    ClosedSummary(tb, w, g, vs, s);
    ClosedSummary(tb, ClosedWorld(tb, w, g, vs), h, us, s);
    StayingElsewhere(tb, w.db, g, vs, h);
    if Writes(w.db.members, h, s) {
      SummaryElsewhere(tb, w, g, vs, h, us, s.player);
    }
  }

  lemma SameMap<K, V>(a: map<K, V>, b: map<K, V>)
    requires forall k :: k in a <==> k in b
    requires forall k :: k in a && k in b ==> a[k] == b[k]
    ensures a == b
  {
  }

  lemma UpdatesCommute<K, V>(m: map<K, V>, k: K, v: V, l: K, u: V)
    requires k != l
    ensures m[k := v][l := u] == m[l := u][k := v]
  {
  }

  /** The verdicts of one group. */
  function Judge(members: Members, g: GroupId, vs: Verdicts): Members {
    MembersAfter(members, g, vs, InGroup(members, g))
  }

  function JudgedMember(m: Member, g: GroupId, v: Verdict): Member {
    if m.group == g then m.(verdict := v) else m
  }

  lemma JudgedRow(members: Members, g: GroupId, vs: Verdicts, m: MemberKey)
    ensures m in Judge(members, g, vs) <==> m in members
    ensures m in members ==> Judge(members, g, vs)[m] == JudgedMember(members[m], g, VerdictOf(vs, m.player))
  {
    if m in members && members[m].group == g {
      assert m.player in InGroup(members, g);
    }
  }

  lemma VerdictsCommute(members: Members, g: GroupId, vs: Verdicts, h: GroupId, us: Verdicts)
    requires g != h
    ensures Judge(Judge(members, g, vs), h, us) == Judge(Judge(members, h, us), g, vs)
  {
    forall m
      ensures m in Judge(Judge(members, g, vs), h, us) <==> m in Judge(Judge(members, h, us), g, vs)
      ensures m in members ==> Judge(Judge(members, g, vs), h, us)[m] == Judge(Judge(members, h, us), g, vs)[m]
    {
      JudgedRow(members, g, vs, m);
      JudgedRow(members, h, us, m);
      JudgedRow(Judge(members, g, vs), h, us, m);
      JudgedRow(Judge(members, h, us), g, vs, m);
    }
    SameMap(Judge(Judge(members, g, vs), h, us), Judge(Judge(members, h, us), g, vs));
  }

  lemma AppliedCommutes(tb: Table, w: World, g: GroupId, vs: Verdicts, h: GroupId, us: Verdicts, s: SummaryKey)
    requires TwoGroups(tb, w, g, vs, h, us)
    requires Inv(tb, ClosedWorld(tb, w, g, vs)) && ClosesWell(ClosedWorld(tb, w, g, vs), h, us)
    ensures var after := ClosedWorld(tb, ClosedWorld(tb, w, g, vs), h, us).applied;
      && (s in after <==> s in w.applied || Writes(w.db.members, g, s) || Writes(w.db.members, h, s))
      && TimesApplied(after, s) == TimesApplied(w.applied, s)
           + (if Writes(w.db.members, g, s) then 1 else 0) + (if Writes(w.db.members, h, s) then 1 else 0)
  {
    ClosedApplied(tb, w, g, s);
    ClosedApplied(tb, ClosedWorld(tb, w, g, vs), h, s);
    StayingElsewhere(tb, w.db, g, vs, h);
  }

  /** Either group can be closed first. */
  ghost predicate EitherFirst(tb: Table, w: World, g: GroupId, vs: Verdicts, h: GroupId, us: Verdicts) {
    && TwoGroups(tb, w, g, vs, h, us)
    && Inv(tb, ClosedWorld(tb, w, g, vs)) && ClosesWell(ClosedWorld(tb, w, g, vs), h, us)
    && Inv(tb, ClosedWorld(tb, w, h, us)) && ClosesWell(ClosedWorld(tb, w, h, us), g, vs)
  }

  lemma SamePlayer(tb: Table, w: World, g: GroupId, vs: Verdicts, h: GroupId, us: Verdicts, p: PlayerId)
    requires EitherFirst(tb, w, g, vs, h, us) && p in w.db.players
    ensures var a := CloseGroup(tb, CloseGroup(tb, w.db, g, vs), h, us).players;
      var b := CloseGroup(tb, CloseGroup(tb, w.db, h, us), g, vs).players;
      p in a && p in b && a[p] == b[p]
  {
    PlayersCommute(tb, w, g, vs, h, us, p);
    PlayersCommute(tb, w, h, us, g, vs, p);
    if p in Staying(w.db.members, g) {
      NobodyInBoth(tb, w, g, h, p);
    }
  }

  lemma SameSummary(tb: Table, w: World, g: GroupId, vs: Verdicts, h: GroupId, us: Verdicts, s: SummaryKey)
    requires EitherFirst(tb, w, g, vs, h, us)
    ensures var a := CloseGroup(tb, CloseGroup(tb, w.db, g, vs), h, us).summaries;
      var b := CloseGroup(tb, CloseGroup(tb, w.db, h, us), g, vs).summaries;
      (s in a <==> s in b) && (s in a ==> a[s] == b[s])
  {
    SummariesCommute(tb, w, g, vs, h, us, s);
    SummariesCommute(tb, w, h, us, g, vs, s);
  }

  lemma SameApplied(tb: Table, w: World, g: GroupId, vs: Verdicts, h: GroupId, us: Verdicts, s: SummaryKey)
    requires EitherFirst(tb, w, g, vs, h, us)
    ensures var a := ClosedWorld(tb, ClosedWorld(tb, w, g, vs), h, us).applied;
      var b := ClosedWorld(tb, ClosedWorld(tb, w, h, us), g, vs).applied;
      (s in a <==> s in b) && (s in a ==> a[s] == b[s])
  {
    AppliedCommutes(tb, w, g, vs, h, us, s);
    AppliedCommutes(tb, w, h, us, g, vs, s);
  }

  lemma SamePlayersTable(tb: Table, w: World, g: GroupId, vs: Verdicts, h: GroupId, us: Verdicts)
    requires EitherFirst(tb, w, g, vs, h, us)
    ensures CloseGroup(tb, CloseGroup(tb, w.db, g, vs), h, us).players
      == CloseGroup(tb, CloseGroup(tb, w.db, h, us), g, vs).players
  {
    var a := CloseGroup(tb, CloseGroup(tb, w.db, g, vs), h, us).players;
    var b := CloseGroup(tb, CloseGroup(tb, w.db, h, us), g, vs).players;
    assert a.Keys == w.db.players.Keys == b.Keys;
    forall p | p in a.Keys
      ensures a[p] == b[p]
    {
      SamePlayer(tb, w, g, vs, h, us, p);
    }
    SameMap(a, b);
  }

  lemma SameSummariesTable(tb: Table, w: World, g: GroupId, vs: Verdicts, h: GroupId, us: Verdicts)
    requires EitherFirst(tb, w, g, vs, h, us)
    ensures CloseGroup(tb, CloseGroup(tb, w.db, g, vs), h, us).summaries
      == CloseGroup(tb, CloseGroup(tb, w.db, h, us), g, vs).summaries
  {
    var a := CloseGroup(tb, CloseGroup(tb, w.db, g, vs), h, us).summaries;
    var b := CloseGroup(tb, CloseGroup(tb, w.db, h, us), g, vs).summaries;
    forall s
      ensures (s in a <==> s in b) && (s in a && s in b ==> a[s] == b[s])
    {
      SameSummary(tb, w, g, vs, h, us, s);
    }
    SameMap(a, b);
  }

  lemma SameAppliedTable(tb: Table, w: World, g: GroupId, vs: Verdicts, h: GroupId, us: Verdicts)
    requires EitherFirst(tb, w, g, vs, h, us)
    ensures ClosedWorld(tb, ClosedWorld(tb, w, g, vs), h, us).applied
      == ClosedWorld(tb, ClosedWorld(tb, w, h, us), g, vs).applied
  {
    var a := ClosedWorld(tb, ClosedWorld(tb, w, g, vs), h, us).applied;
    var b := ClosedWorld(tb, ClosedWorld(tb, w, h, us), g, vs).applied;
    forall s
      ensures (s in a <==> s in b) && (s in a && s in b ==> a[s] == b[s])
    {
      SameApplied(tb, w, g, vs, h, us, s);
    }
    SameMap(a, b);
  }

  lemma SameGroupsTable(tb: Table, db: Db, g: GroupId, vs: Verdicts, h: GroupId, us: Verdicts)
    requires g != h && g in db.groups && h in db.groups && g.round in db.rounds && h.round in db.rounds
    requires db.groups[g].open && db.groups[h].open
    ensures var a := CloseGroup(tb, CloseGroup(tb, db, g, vs), h, us);
      var b := CloseGroup(tb, CloseGroup(tb, db, h, us), g, vs);
      a.groups == b.groups && a.rounds == b.rounds
  {
    var one := db.groups[g := db.groups[g].(open := false)][h := db.groups[h].(open := false)];
    var two := db.groups[h := db.groups[h].(open := false)][g := db.groups[g].(open := false)];
    assert one == two;
  }

  /** Closing two groups in either order gives the same tables. */
  lemma ClosesCommute(tb: Table, w: World, g: GroupId, vs: Verdicts, h: GroupId, us: Verdicts)
    requires TwoGroups(tb, w, g, vs, h, us)
    ensures ClosedWorld(tb, ClosedWorld(tb, w, g, vs), h, us) == ClosedWorld(tb, ClosedWorld(tb, w, h, us), g, vs)
  {
    StillCloses(tb, w, g, vs, h, us);
    StillCloses(tb, w, h, us, g, vs);
    SamePlayersTable(tb, w, g, vs, h, us);
    VerdictsCommute(w.db.members, g, vs, h, us);
    SameSummariesTable(tb, w, g, vs, h, us);
    SameAppliedTable(tb, w, g, vs, h, us);
    SameGroupsTable(tb, w.db, g, vs, h, us);
  }

  // ----- the openings tier and the capped tier -----

  /** Rounds of the two tiers that share their frozen counts, ending at the same instant. */
  ghost predicate TwinRounds(tb: Table, w: World, a: RoundKey, b: RoundKey) {
    && SoundTable(tb) && Inv(tb, w) && a in w.db.rounds && b in w.db.rounds && a != b && a.index == b.index
    && FrozenTiers(tb, a.tier) == FrozenTiers(tb, b.tier) && FrozenTiers(tb, a.tier).0 != FrozenTiers(tb, a.tier).1
  }

  lemma PairWhenOpen(tb: Table, w: World, a: RoundKey, b: RoundKey)
    requires TwinRounds(tb, w, a, b) && w.db.rounds[b].state == Open
    ensures var (below, capped) := FrozenTiers(tb, a.tier);
      PairFor(tb, w.db.players, w.db.rounds, a, w.db.rounds[a].endsAt)
        == Frozen(Population(w.db.players, below), Population(w.db.players, capped))
  {
    EndsTogether(tb, a, b);
    forall k
      ensures IsRoundEndingAt(w.db.rounds, b.tier, w.db.rounds[a].endsAt, k) <==> k == b
    {
      OnlyRoundEnding(tb, w.db.rounds, w.clock, b, w.db.rounds[a].endsAt, k);
    }
  }

  function ClaimedRow(tb: Table, r: Round, tier: nat, pair: Pair): Round {
    r.(state := Closing, pair := pair, upCount := UpCountFor(tb, tier, pair))
  }

  /** The pair the twins freeze, whoever is first. */
  function TwinPair(tb: Table, w: World, a: RoundKey, b: RoundKey): Pair
    requires a in w.db.rounds && b in w.db.rounds
  {
    if w.db.rounds[b].state != Open then w.db.rounds[b].pair
    else if w.db.rounds[a].state != Open then w.db.rounds[a].pair
    else
      var (below, capped) := FrozenTiers(tb, a.tier);
      Frozen(Population(w.db.players, below), Population(w.db.players, capped))
  }

  /** What a claim makes of the row. */
  function TwinRow(tb: Table, w: World, a: RoundKey, b: RoundKey): Round
    requires a in w.db.rounds && b in w.db.rounds
  {
    if w.db.rounds[a].state != Open then w.db.rounds[a]
    else ClaimedRow(tb, w.db.rounds[a], a.tier, TwinPair(tb, w, a, b))
  }

  lemma ClaimOfTwin(tb: Table, w: World, a: RoundKey, b: RoundKey)
    requires TwinRounds(tb, w, a, b)
    ensures Claim(tb, w.db, a) == w.db.(rounds := w.db.rounds[a := TwinRow(tb, w, a, b)])
  {
    if w.db.rounds[a].state != Open {
      assert w.db.rounds[a := w.db.rounds[a]] == w.db.rounds;
    } else if w.db.rounds[b].state == Open {
      PairWhenOpen(tb, w, a, b);
    } else {
      PairIsShared(tb, w, a, b);
    }
  }

  lemma ClaimBoth(tb: Table, w: World, a: RoundKey, b: RoundKey)
    requires TwinRounds(tb, w, a, b) && w.db.rounds[a].endsAt <= w.clock
    ensures Claim(tb, Claim(tb, w.db, a), b)
      == w.db.(rounds := w.db.rounds[a := TwinRow(tb, w, a, b)][b := TwinRow(tb, w, b, a)])
  {
    ClaimOfTwin(tb, w, a, b);
    ClaimKeeps(tb, w, a);
    ClaimOfTwin(tb, w.(db := w.db.(rounds := w.db.rounds[a := TwinRow(tb, w, a, b)])), b, a);
  }

  /** Whichever of the two is claimed first, both freeze the same populations, and the one that fills
      openings the same number of them. */
  lemma ClaimsCommute(tb: Table, w: World, a: RoundKey, b: RoundKey)
    requires TwinRounds(tb, w, a, b) && w.db.rounds[a].endsAt <= w.clock && w.db.rounds[b].endsAt <= w.clock
    ensures Claim(tb, Claim(tb, w.db, a), b) == Claim(tb, Claim(tb, w.db, b), a)
  {
    ClaimBoth(tb, w, a, b);
    ClaimBoth(tb, w, b, a);
    UpdatesCommute(w.db.rounds, a, TwinRow(tb, w, a, b), b, TwinRow(tb, w, b, a));
  }

  /** Settling reads nothing of the rounds but the end of its own. */
  lemma ClosePlayersIgnoreRounds(tb: Table, db: Db, rounds: Rounds, key: RoundKey, vs: Verdicts, ps: set<PlayerId>, endsAt: int)
    ensures PlayersAfter(tb, db.(rounds := rounds), key, vs, ps, endsAt) == PlayersAfter(tb, db, key, vs, ps, endsAt)
  {
    assert forall p :: Hits(db.(rounds := rounds), key, p) == Hits(db, key, p);
  }

  lemma CloseSummariesIgnoreRounds(tb: Table, db: Db, rounds: Rounds, key: RoundKey, vs: Verdicts, ps: set<PlayerId>)
    ensures SummariesAfter(tb, db.(rounds := rounds), key, vs, ps) == SummariesAfter(tb, db, key, vs, ps)
  {
    assert NewSummaryKeys(db.(rounds := rounds), key, ps) == NewSummaryKeys(db, key, ps);
  }

  lemma CloseIgnoresRounds(tb: Table, db: Db, rounds: Rounds, g: GroupId, vs: Verdicts)
    requires g in db.groups && g.round in db.rounds && g.round in rounds
    requires rounds[g.round].endsAt == db.rounds[g.round].endsAt
    ensures CloseGroup(tb, db.(rounds := rounds), g, vs) == CloseGroup(tb, db, g, vs).(rounds := rounds)
    ensures HitKeys(db.(rounds := rounds), g) == HitKeys(db, g)
  {
    var ps := Staying(db.members, g);
    ClosePlayersIgnoreRounds(tb, db, rounds, g.round, vs, ps, db.rounds[g.round].endsAt);
    CloseSummariesIgnoreRounds(tb, db, rounds, g.round, vs, ps);
  }

  /** A claim does not notice that groups of its claimed twin have been settled meanwhile. */
  lemma ClaimAndCloseCommute(tb: Table, w: World, a: RoundKey, g: GroupId, vs: Verdicts)
    requires TwinRounds(tb, w, a, g.round) && w.db.rounds[a].endsAt <= w.clock && ClosesWell(w, g, vs)
    ensures CloseGroup(tb, Claim(tb, w.db, a), g, vs) == Claim(tb, CloseGroup(tb, w.db, g, vs), a)
    ensures HitKeys(Claim(tb, w.db, a), g) == HitKeys(w.db, g)
  {
    ClaimOfTwin(tb, w, a, g.round);
    CloseIgnoresRounds(tb, w.db, Claim(tb, w.db, a).rounds, g, vs);
    CloseKeeps(tb, w, g, vs);
    ClaimOfTwin(tb, ClosedWorld(tb, w, g, vs), a, g.round);
  }

  // ----- any interleaving of the two closes -----

  /** Round b and everything in it, as a closing step of another round leaves it. */
  ghost predicate Untouched(w: World, v: World, b: RoundKey) {
    && w.clock == v.clock
    && (b in w.db.rounds <==> b in v.db.rounds) && (b in w.db.rounds ==> v.db.rounds[b] == w.db.rounds[b])
    && (forall g: GroupId :: g.round == b ==> (g in w.db.groups <==> g in v.db.groups))
    && (forall g: GroupId :: g.round == b && g in w.db.groups ==> v.db.groups[g] == w.db.groups[g])
    && (b in w.drained <==> b in v.drained)
  }

  lemma UntouchedElsewhere(tb: Table, w: World, s: Step, a: RoundKey, b: RoundKey)
    requires Enabled(tb, w, s) && ClosingStep(s, a) && a != b && s.now == w.clock
    ensures Untouched(w, Next(tb, w, s), b)
  {
  }

  lemma RowsStay(tb: Table, w: World, s: Step, a: RoundKey, h: GroupId)
    requires Enabled(tb, w, s) && ClosingStep(s, a) && h.round != a
    ensures SameRowsOf(w.db.members, Next(tb, w, s).db.members, h)
    ensures SameRowsOf(Next(tb, w, s).db.members, w.db.members, h)
  {
    match s.event
    case Closes(g, vs) => RowsElsewhere(tb, w.db, g, vs, h);
    case _ =>
  }

  /** A closing step of one round neither enables nor disables one of another. */
  lemma EnabledElsewhere(tb: Table, w: World, s: Step, t: Step, a: RoundKey, b: RoundKey)
    requires Enabled(tb, w, s) && ClosingStep(s, a) && ClosingStep(t, b) && a != b && s.now == w.clock == t.now
    ensures Enabled(tb, w, t) <==> Enabled(tb, Next(tb, w, s), t)
  {
    UntouchedElsewhere(tb, w, s, a, b);
    var v := Next(tb, w, s);
    if t.event.Closes? && b in w.db.rounds {
      var h, us := t.event.group, t.event.verdicts;
      RowsStay(tb, w, s, a, h);
      if Judged(tb, w.db, h, us) {
        JudgedMoves(tb, w.db, v.db, h, us);
      }
      if Judged(tb, v.db, h, us) {
        JudgedMoves(tb, v.db, w.db, h, us);
      }
    }
  }

  /** Two closing steps, one of each round, both possible and in either order. */
  ghost predicate TwoSteps(tb: Table, w: World, s: Step, t: Step, a: RoundKey, b: RoundKey) {
    && TwinRounds(tb, w, a, b) && ClosingStep(s, a) && ClosingStep(t, b) && s.now == w.clock == t.now
    && Enabled(tb, w, s) && Enabled(tb, w, t)
    && Enabled(tb, Next(tb, w, s), t) && Enabled(tb, Next(tb, w, t), s)
  }

  ghost predicate Swaps(tb: Table, w: World, s: Step, t: Step)
    requires Enabled(tb, w, s) && Enabled(tb, w, t)
    requires Enabled(tb, Next(tb, w, s), t) && Enabled(tb, Next(tb, w, t), s)
  {
    Next(tb, Next(tb, w, s), t) == Next(tb, Next(tb, w, t), s)
  }

  lemma SwapLooking(tb: Table, w: World, s: Step, t: Step, a: RoundKey, b: RoundKey)
    requires TwoSteps(tb, w, s, t, a, b) && s.event.SeesNoGroup?
    ensures Swaps(tb, w, s, t)
  {
    if t.event.SeesNoGroup? {
      assert w.drained + {a} + {b} == w.drained + {b} + {a};
    }
  }

  lemma SwapFinishing(tb: Table, w: World, s: Step, t: Step, a: RoundKey, b: RoundKey)
    requires TwoSteps(tb, w, s, t, a, b) && s.event.Finishes? && t.event.Finishes?
    ensures Swaps(tb, w, s, t)
  {
    if w.db.rounds[a].state == Closing && w.db.rounds[b].state == Closing {
      UpdatesCommute(w.db.rounds, a, w.db.rounds[a].(state := Closed), b, w.db.rounds[b].(state := Closed));
    }
  }

  lemma SwapClaiming(tb: Table, w: World, s: Step, t: Step, a: RoundKey, b: RoundKey)
    requires TwoSteps(tb, w, s, t, a, b) && s.event.Claims? && t.event.Claims?
    ensures Swaps(tb, w, s, t)
  {
    ClaimsCommute(tb, w, a, b);
  }

  lemma FinishedTwin(tb: Table, w: World, a: RoundKey, b: RoundKey)
    requires TwinRounds(tb, w, a, b) && b in w.drained
    ensures Claim(tb, Finish(w.db, b), a) == Finish(Claim(tb, w.db, a), b)
  {
    FinishKeeps(tb, w, b);
    ClaimOfTwin(tb, w, a, b);
    ClaimOfTwin(tb, w.(db := Finish(w.db, b)), a, b);
    if w.db.rounds[b].state == Closing {
      UpdatesCommute(w.db.rounds, a, TwinRow(tb, w, a, b), b, w.db.rounds[b].(state := Closed));
    }
  }

  lemma SwapClaimFinish(tb: Table, w: World, s: Step, t: Step, a: RoundKey, b: RoundKey)
    requires TwoSteps(tb, w, s, t, a, b) && s.event.Claims? && t.event.Finishes?
    ensures Swaps(tb, w, s, t)
  {
    FinishedTwin(tb, w, a, b);
  }

  lemma SwapClaimClose(tb: Table, w: World, s: Step, t: Step, a: RoundKey, b: RoundKey)
    requires TwoSteps(tb, w, s, t, a, b) && s.event.Claims? && t.event.Closes?
    ensures Swaps(tb, w, s, t)
  {
    if w.db.groups[t.event.group].open {
      JudgedCovers(tb, w.db, t.event.group, t.event.verdicts);
      ClaimAndCloseCommute(tb, w, a, t.event.group, t.event.verdicts);
    }
  }

  lemma FinishAndCloseCommute(tb: Table, db: Db, a: RoundKey, g: GroupId, vs: Verdicts)
    requires a in db.rounds && g in db.groups && g.round in db.rounds && g.round != a
    ensures CloseGroup(tb, Finish(db, a), g, vs) == Finish(CloseGroup(tb, db, g, vs), a)
    ensures HitKeys(Finish(db, a), g) == HitKeys(db, g)
  {
    CloseIgnoresRounds(tb, db, Finish(db, a).rounds, g, vs);
  }

  lemma SwapFinishClose(tb: Table, w: World, s: Step, t: Step, a: RoundKey, b: RoundKey)
    requires TwoSteps(tb, w, s, t, a, b) && s.event.Finishes? && t.event.Closes?
    ensures Swaps(tb, w, s, t)
  {
    FinishAndCloseCommute(tb, w.db, a, t.event.group, t.event.verdicts);
  }

  lemma SwapClosing(tb: Table, w: World, s: Step, t: Step, a: RoundKey, b: RoundKey)
    requires TwoSteps(tb, w, s, t, a, b) && s.event.Closes? && t.event.Closes?
    ensures Swaps(tb, w, s, t)
  {
    var g, h := s.event.group, t.event.group;
    if w.db.groups[g].open && w.db.groups[h].open {
      JudgedCovers(tb, w.db, g, s.event.verdicts);
      JudgedCovers(tb, w.db, h, t.event.verdicts);
      ClosesCommute(tb, w, g, s.event.verdicts, h, t.event.verdicts);
    }
  }

  /** Steps of the two closes can be exchanged wherever they are next to each other. */
  lemma StepsCommute(tb: Table, w: World, s: Step, t: Step, a: RoundKey, b: RoundKey)
    requires TwinRounds(tb, w, a, b) && ClosingStep(s, a) && ClosingStep(t, b) && s.now == w.clock == t.now
    requires Enabled(tb, w, s) && Enabled(tb, Next(tb, w, s), t)
    ensures Enabled(tb, w, t) && Enabled(tb, Next(tb, w, t), s)
    ensures Next(tb, Next(tb, w, s), t) == Next(tb, Next(tb, w, t), s)
  {
    EnabledElsewhere(tb, w, s, t, a, b);
    EnabledElsewhere(tb, w, t, s, b, a);
    OneOrder(tb, w, s, t, a, b);
  }

  lemma OneOrder(tb: Table, w: World, s: Step, t: Step, a: RoundKey, b: RoundKey)
    requires TwoSteps(tb, w, s, t, a, b)
    ensures Swaps(tb, w, s, t)
  {
    if s.event.SeesNoGroup? {
      SwapLooking(tb, w, s, t, a, b);
    } else if t.event.SeesNoGroup? {
      SwapLooking(tb, w, t, s, b, a);
    } else if s.event.Claims? {
      if t.event.Claims? {
        SwapClaiming(tb, w, s, t, a, b);
      } else if t.event.Finishes? {
        SwapClaimFinish(tb, w, s, t, a, b);
      } else {
        SwapClaimClose(tb, w, s, t, a, b);
      }
    } else if t.event.Claims? {
      if s.event.Finishes? {
        SwapClaimFinish(tb, w, t, s, b, a);
      } else {
        SwapClaimClose(tb, w, t, s, b, a);
      }
    } else if s.event.Finishes? {
      if t.event.Finishes? {
        SwapFinishing(tb, w, s, t, a, b);
      } else {
        SwapFinishClose(tb, w, s, t, a, b);
      }
    } else if t.event.Finishes? {
      SwapFinishClose(tb, w, t, s, b, a);
    } else {
      SwapClosing(tb, w, s, t, a, b);
    }
  }

  lemma TwinsStay(tb: Table, w: World, s: Step, a: RoundKey, b: RoundKey)
    requires TwinRounds(tb, w, a, b) && Enabled(tb, w, s) && Harmless(tb, w, s)
    ensures TwinRounds(tb, Next(tb, w, s), a, b)
  {
    StepKeeps(tb, w, s);
    RoundsStep(tb, w, s);
  }

  lemma RestOfClosing(tb: Table, w: World, steps: seq<Step>, k: RoundKey)
    requires steps != [] && AllClosing(steps, k, w.clock) && Enabled(tb, w, steps[0])
    ensures ClosingStep(steps[0], k) && Next(tb, w, steps[0]).clock == w.clock
    ensures AllClosing(steps[1..], k, w.clock)
  {
  }

  lemma {:induction false} MoveToFront(tb: Table, w: World, sa: seq<Step>, t: Step, u: World, a: RoundKey, b: RoundKey)
    requires TwinRounds(tb, w, a, b) && AllClosing(sa, a, w.clock) && ClosingStep(t, b) && t.now == w.clock
    requires Leads(tb, w, sa + [t], u)
    ensures Leads(tb, w, [t] + sa, u)
    decreases |sa|
  {
    if sa == [] {
      assert sa + [t] == [t] + sa;
    } else {
      var s, rest := sa[0], sa[1..];
      assert (sa + [t])[1..] == rest + [t];
      TwinsStay(tb, w, s, a, b);
      RestOfClosing(tb, w, sa, a);
      MoveToFront(tb, Next(tb, w, s), rest, t, u, a, b);
      assert ([t] + rest)[1..] == rest;
      StepsCommute(tb, w, s, t, a, b);
      assert ([t] + sa)[1..] == sa;
    }
  }

  lemma FirstOfOther(tb: Table, w: World, sa: seq<Step>, t: Step, rest: seq<Step>, v: World, a: RoundKey, b: RoundKey)
    requires TwinRounds(tb, w, a, b) && AllClosing(sa, a, w.clock) && ClosingStep(t, b) && t.now == w.clock
    requires Leads(tb, w, sa + [t] + rest, v)
    ensures Enabled(tb, w, t) && Leads(tb, Next(tb, w, t), sa + rest, v)
  {
    var u := RunSplits(tb, w, sa + [t], rest, v);
    MoveToFront(tb, w, sa, t, u, a, b);
    RunFirst(tb, w, t, sa, u);
    RunsCompose(tb, Next(tb, w, t), sa, u, rest, v);
  }

  lemma Regroup(sa: seq<Step>, sb: seq<Step>)
    requires sb != []
    ensures sa + sb == sa + [sb[0]] + sb[1..] && sb + sa == [sb[0]] + (sb[1..] + sa)
  {
  }

  /** At one instant: the whole closes of the two twin rounds, one after the other, give the same world
      in the other order. */
  lemma {:induction false} EitherFirstAtOnce(tb: Table, w: World, sa: seq<Step>, sb: seq<Step>, v: World, a: RoundKey, b: RoundKey)
    requires TwinRounds(tb, w, a, b) && AllClosing(sa, a, w.clock) && AllClosing(sb, b, w.clock)
    requires Leads(tb, w, sa + sb, v)
    ensures Leads(tb, w, sb + sa, v)
    decreases |sb|
  {
    if sb == [] {
      assert sa + sb == sb + sa;
    } else {
      var t, rest := sb[0], sb[1..];
      Regroup(sa, sb);
      FirstOfOther(tb, w, sa, t, rest, v, a, b);
      TwinsStay(tb, w, t, a, b);
      RestOfClosing(tb, w, sb, b);
      EitherFirstAtOnce(tb, Next(tb, w, t), sa, rest, v, a, b);
      RunFirst(tb, w, t, rest + sa, v);
    }
  }

  // ----- at any times -----

  predicate SameEvents(steps: seq<Step>, timed: seq<Step>) {
    |steps| == |timed| && forall i :: 0 <= i < |steps| ==> steps[i].event == timed[i].event
  }

  /** A clock that starts at `from` and does not run backwards. */
  ghost predicate Rising(from: int, steps: seq<Step>)
    decreases |steps|
  {
    steps != [] ==> from <= steps[0].now && Rising(steps[0].now, steps[1..])
  }

  function LastTime(from: int, steps: seq<Step>): int {
    if steps == [] then from else steps[|steps| - 1].now
  }

  /** Steps of the two closes. */
  ghost predicate BothClosing(steps: seq<Step>, a: RoundKey, b: RoundKey) {
    forall i :: 0 <= i < |steps| ==> ClosingStep(steps[i], a) || ClosingStep(steps[i], b)
  }

  ghost predicate AllAfter(steps: seq<Step>, end: int) {
    forall i :: 0 <= i < |steps| ==> end <= steps[i].now
  }

  predicate EndedBy(rounds: Rounds, a: RoundKey, b: RoundKey, time: int) {
    a in rounds && b in rounds && rounds[a].endsAt <= time && rounds[b].endsAt <= time
  }

  /** What a closing step does depends on the time only in that the round must have ended. */
  lemma StepAnyTime(tb: Table, w: World, s: Step, clock: int, t: Step, a: RoundKey, b: RoundKey)
    requires Enabled(tb, w, s) && (ClosingStep(s, a) || ClosingStep(s, b)) && t.event == s.event && clock <= t.now
    requires EndedBy(w.db.rounds, a, b, t.now)
    ensures Enabled(tb, w.(clock := clock), t) && Next(tb, w.(clock := clock), t) == Next(tb, w, s).(clock := t.now)
    ensures EndedBy(Next(tb, w, s).db.rounds, a, b, t.now)
  {
    ClosingOnlyCloses(tb, w, s, if ClosingStep(s, a) then a else b);
  }

  lemma StillEnded(tb: Table, w: World, s: Step, a: RoundKey, b: RoundKey, end: int)
    requires Enabled(tb, w, s) && (ClosingStep(s, a) || ClosingStep(s, b)) && EndedBy(w.db.rounds, a, b, end)
    ensures EndedBy(Next(tb, w, s).db.rounds, a, b, end)
  {
    ClosingOnlyCloses(tb, w, s, if ClosingStep(s, a) then a else b);
  }

  /** So the same steps lead to the same tables at any times after the end. */
  lemma {:induction false} RunAnyTime(tb: Table, w: World, steps: seq<Step>, v: World, clock: int, timed: seq<Step>,
                                      a: RoundKey, b: RoundKey, end: int)
    requires Leads(tb, w, steps, v) && BothClosing(steps, a, b) && SameEvents(steps, timed)
    requires EndedBy(w.db.rounds, a, b, end) && Rising(clock, timed) && AllAfter(timed, end)
    ensures Leads(tb, w.(clock := clock), timed, v.(clock := LastTime(clock, timed)))
    decreases |steps|
  {
    if steps != [] {
      var s, t := steps[0], timed[0];
      StepAnyTime(tb, w, s, clock, t, a, b);
      StillEnded(tb, w, s, a, b, end);
      RunAnyTime(tb, Next(tb, w, s), steps[1..], v, t.now, timed[1..], a, b, end);
      assert LastTime(t.now, timed[1..]) == LastTime(clock, timed);
    }
  }

  function At(steps: seq<Step>, time: int): seq<Step> {
    seq(|steps|, i requires 0 <= i < |steps| => steps[i].(now := time))
  }

  lemma {:induction false} AtOnceRises(steps: seq<Step>, time: int)
    requires forall i :: 0 <= i < |steps| ==> steps[i].now == time
    ensures Rising(time, steps)
  {
    if steps != [] {
      AtOnceRises(steps[1..], time);
    }
  }

  ghost predicate AllOf(steps: seq<Step>, k: RoundKey) {
    forall i :: 0 <= i < |steps| ==> ClosingStep(steps[i], k)
  }

  lemma TwinsTick(tb: Table, w: World, a: RoundKey, b: RoundKey, now: int)
    requires TwinRounds(tb, w, a, b) && w.clock <= now
    ensures TwinRounds(tb, w.(clock := now), a, b)
  {
    TickKeeps(tb, w, now);
  }

  lemma AllAtOnce(tb: Table, w: World, sa: seq<Step>, sb: seq<Step>, v: World, a: RoundKey, b: RoundKey, now: int)
    requires EndedBy(w.db.rounds, a, b, now) && AllOf(sa, a) && AllOf(sb, b) && Leads(tb, w, sa + sb, v)
    ensures Leads(tb, w.(clock := now), At(sa, now) + At(sb, now), v.(clock := now))
  {
    AtOnceRises(At(sa, now) + At(sb, now), now);
    RunAnyTime(tb, w, sa + sb, v, now, At(sa, now) + At(sb, now), a, b, now);
  }

  /** The same closes in the other order, all at one late instant. */
  lemma SwappedAtOnce(tb: Table, w: World, sa: seq<Step>, sb: seq<Step>, v: World, a: RoundKey, b: RoundKey, now: int)
    requires TwinRounds(tb, w, a, b) && EndedBy(w.db.rounds, a, b, now) && w.clock <= now
    requires AllOf(sa, a) && AllOf(sb, b) && Leads(tb, w, sa + sb, v)
    ensures Leads(tb, w.(clock := now), At(sb, now) + At(sa, now), v.(clock := now))
  {
    AllAtOnce(tb, w, sa, sb, v, a, b, now);
    TwinsTick(tb, w, a, b, now);
    EitherFirstAtOnce(tb, w.(clock := now), At(sa, now), At(sb, now), v.(clock := now), a, b);
  }

  lemma TimedBack(tb: Table, w: World, sa: seq<Step>, sb: seq<Step>, v: World, a: RoundKey, b: RoundKey, now: int,
                  steps: seq<Step>, end: int)
    requires Leads(tb, w.(clock := now), At(sb, now) + At(sa, now), v) && EndedBy(w.db.rounds, a, b, end)
    requires AllOf(sa, a) && AllOf(sb, b) && SameEvents(sb + sa, steps) && Rising(w.clock, steps) && AllAfter(steps, end)
    ensures Leads(tb, w, steps, v.(clock := LastTime(w.clock, steps)))
  {
    RunAnyTime(tb, w.(clock := now), At(sb, now) + At(sa, now), v, w.clock, steps, a, b, end);
  }

  /** The whole closes of the two twin rounds, one after the other: in the other order, with the same
      steps at any times after the end, they give the same tables. */
  lemma EitherTierFirst(tb: Table, w: World, sa: seq<Step>, sb: seq<Step>, v: World, a: RoundKey, b: RoundKey,
                        steps: seq<Step>, end: int)
    requires TwinRounds(tb, w, a, b) && EndedBy(w.db.rounds, a, b, end)
    requires AllOf(sa, a) && AllOf(sb, b) && Leads(tb, w, sa + sb, v)
    requires SameEvents(sb + sa, steps) && Rising(w.clock, steps) && AllAfter(steps, end)
    ensures Leads(tb, w, steps, v.(clock := LastTime(w.clock, steps)))
  {
    var now := if w.clock < end then end else w.clock;
    SwappedAtOnce(tb, w, sa, sb, v, a, b, now);
    TimedBack(tb, w, sa, sb, v.(clock := now), a, b, now, steps, end);
  }
}
