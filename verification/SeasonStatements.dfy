/** What each statement of the league writes, row by row and column by column, and that it writes
    nothing else. */
module SeasonStatements {
  import opened Tiers
  import opened Standings
  import opened GroupIds
  import opened Season

  /** The tables agree but for the players, the members and the summaries named. */
  ghost predicate OthersStay(a: Db, b: Db, ps: set<PlayerId>, ms: set<MemberKey>, ss: set<SummaryKey>) {
    && (forall p :: p !in ps ==> SameRow(a.players, b.players, p))
    && (forall m :: m !in ms ==> SameRow(a.members, b.members, m))
    && (forall s :: s !in ss ==> SameRow(a.summaries, b.summaries, s))
  }

  ghost predicate SameRow<K(!new), V(!new)>(a: map<K, V>, b: map<K, V>, k: K) {
    (k in a <==> k in b) && (k in a && k in b ==> a[k] == b[k])
  }

  // ----- players -----

  /** A tier move restarts the points, and staying keeps them. */
  ghost predicate IsMoved(was: Player, now: Player, to: nat, settled: int) {
    now.tier == to && now.settled == settled && now.points == if was.tier == to then was.points else 0
  }

  lemma MovedMeans(p: Player, to: nat, settled: int)
    ensures IsMoved(p, Moved(p, to, settled), to, settled)
  {
  }

  /** A new player starts at the bottom with no points, settled up to the running round. */
  lemma RegisterMeans(tb: Table, db: Db, p: PlayerId, now: int)
    ensures var after := Register(tb, db, p, now);
      && p in after.players && after.players[p].tier == 0 && after.players[p].points == 0
      && SettledIndex(tb, after.players[p]) == Index(tb, 0, now)
      && after == db.(players := after.players) && OthersStay(db, after, {p}, {}, {})
  {
    if HasRounds(Cfg(tb, 0)) {
      StartsItsRound(Cfg(tb, 0), Index(tb, 0, now));
    }
  }

  /** Points of a game, and its membership row where there is one. */
  lemma ScoreMeans(tb: Table, db: Db, p: PlayerId, key: RoundKey, points: int, score: int, games: int, last: int)
    requires p in db.players
    ensures var after := Score(db, p, key, points, score, games, last);
      var m := MemberKey(p, key);
      && p in after.players && after.players[p].points == db.players[p].points + points
      && after.players[p].tier == db.players[p].tier && after.players[p].settled == db.players[p].settled
      && (m in db.members ==>
            && m in after.members && after.members[m].score == score && after.members[m].games == games
            && after.members[m].lastSubmit == last && after.members[m].group == db.members[m].group
            && after.members[m].left == db.members[m].left && after.members[m].verdict == db.members[m].verdict)
      && (m !in db.members ==> after.members == db.members)
      && OthersStay(db, after, {p}, {m}, {}) && after.rounds == db.rounds && after.groups == db.groups
  {
  }

  /** With the account goes everything that hangs off it: its memberships, its summaries, and its place in
      the count of every open group it had not left. */
  lemma DeleteMeans(db: Db, p: PlayerId)
    ensures var after := Delete(db, p);
      && after.players.Keys == db.players.Keys - {p} && after.rounds == db.rounds
      && (forall m :: m in after.members <==> m in db.members && m.player != p)
      && (forall s :: s in after.summaries <==> s in db.summaries && s.player != p)
      && after.groups.Keys == db.groups.Keys
      && (forall g :: g in db.groups ==> LosesPlaces(db.groups[g], after.groups[g], |PlacesOf(db, p, g)|))
  {
    forall g | g in db.groups
      ensures LosesPlaces(db.groups[g], Delete(db, p).groups[g], |PlacesOf(db, p, g)|)
    {
      var m := MemberKey(p, g.round);
      assert PlacesOf(db, p, g) == if db.groups[g].open && CountsPlayer(db.members, p, g) then {m} else {};
    }
  }

  ghost predicate LosesPlaces(was: Group, now: Group, places: nat) {
    now == was.(count := was.count - places)
  }

  lemma DeleteSparesOthers(db: Db, p: PlayerId)
    ensures var after := Delete(db, p);
      && (forall q :: q in after.players ==> after.players[q] == db.players[q])
      && (forall m :: m in after.members ==> after.members[m] == db.members[m])
      && (forall s :: s in after.summaries ==> after.summaries[s] == db.summaries[s])
  {
  }

  /** The places of an open group a player takes. */
  ghost function PlacesOf(db: Db, p: PlayerId, g: GroupId): set<MemberKey>
    requires g in db.groups
  {
    set m | m in db.members && m.player == p && m.round == g.round
            && db.members[m].group == g && !db.members[m].left && db.groups[g].open
  }

  // ----- rounds -----

  /** A round is opened once, to end where its calendar says. */
  lemma EnsureRoundMeans(tb: Table, db: Db, key: RoundKey)
    ensures var after := EnsureRound(tb, db, key);
      && after == db.(rounds := after.rounds) && after.rounds.Keys == db.rounds.Keys + {key}
      && (forall k :: k in db.rounds ==> after.rounds[k] == db.rounds[k])
      && (key !in db.rounds ==>
            && after.rounds[key].state == Open && after.rounds[key].endsAt == RoundEnd(Cfg(tb, key.tier), key.index)
            && after.rounds[key].groupSeq == 0 && after.rounds[key].pair == NoPair && after.rounds[key].upCount == -1)
  {
  }

  /** Only the tier that fills openings and the capped one above it freeze populations, both the same two. */
  lemma FrozenTiersMean(tb: Table, tier: nat)
    requires SoundTable(tb)
    ensures var (below, capped) := FrozenTiers(tb, tier);
      && (below != capped <==> tier < |tb.tiers| && (tb.tiers[tier].rule.upMode == ByOpenings || tb.tiers[tier].slots.Capped?))
      && (below != capped ==> capped == below + 1 < |tb.tiers| && tier in {below, capped} && tb.tiers[capped].slots.Capped?)
  {
  }

  /** A round goes from open to closing with its counts, and from closing to closed, and on neither way
      back; nothing else about it changes. */
  lemma ClaimMeans(tb: Table, db: Db, key: RoundKey)
    requires key in db.rounds
    ensures var after := Claim(tb, db, key);
      var was, now := db.rounds[key], after.rounds[key];
      && after == db.(rounds := after.rounds) && after.rounds.Keys == db.rounds.Keys
      && (forall k :: k in db.rounds && k != key ==> after.rounds[k] == db.rounds[k])
      && now.endsAt == was.endsAt && now.groupSeq == was.groupSeq
      && now.state == (if was.state == Closed then Closed else Closing)
      && (was.state != Open ==> now == was)
  {
  }

  lemma FinishMeans(db: Db, key: RoundKey)
    requires key in db.rounds
    ensures var after := Finish(db, key);
      var was, now := db.rounds[key], after.rounds[key];
      && after == db.(rounds := after.rounds) && after.rounds.Keys == db.rounds.Keys
      && (forall k :: k in db.rounds && k != key ==> after.rounds[k] == db.rounds[k])
      && (now.endsAt, now.groupSeq, now.pair, now.upCount) == (was.endsAt, was.groupSeq, was.pair, was.upCount)
      && now.state == (if was.state == Open then Open else Closed)
  {
  }

  // ----- closing a group -----

  /** Where a verdict takes a player of tier t: up at most to the top, down not from a floor tier. */
  ghost predicate TakenTo(tb: Table, t: nat, v: Verdict, outcome: Outcome, to: nat)
    requires t < |tb.tiers|
  {
    if v.Decided? && v.zone == Promote then outcome == Promoted && to == if t + 1 < |tb.tiers| then t + 1 else t
    else if v.Decided? && v.zone == Relegate then
      outcome == Relegated && to == if t > 0 && !tb.tiers[t].floor then t - 1 else t
    else outcome == Stayed && to == t
  }

  /** The summary of one player of a group that closes. */
  ghost predicate IsSettlement(tb: Table, db: Db, key: RoundKey, p: PlayerId, v: Verdict, s: Summary)
    requires key.tier < |tb.tiers|
  {
    && TakenTo(tb, key.tier, v, s.outcome, s.after)
    && s.rank == (if v.Decided? then v.rank else 0)
    && (MemberKey(p, key) in db.members ==> s.roundScore == db.members[MemberKey(p, key)].score)
    && (p in db.players ==> s.points == db.players[p].points)
  }

  lemma SettlementMeans(tb: Table, db: Db, key: RoundKey, p: PlayerId, v: Verdict)
    requires key.tier < |tb.tiers|
    ensures IsSettlement(tb, db, key, p, v, SettledSummary(tb, db, key, p, v))
  {
  }

  /** Everybody in the group gets their verdict, and whoever did not leave and has no summary yet gets
      that; nobody else's rows change. */
  lemma CloseGroupMeans(tb: Table, db: Db, g: GroupId, vs: Verdicts)
    requires g in db.groups && g.round in db.rounds && db.groups[g].open && g.round.tier < |tb.tiers|
    ensures var after := CloseGroup(tb, db, g, vs);
      && after.rounds == db.rounds && after.groups == db.groups[g := db.groups[g].(open := false)]
      && after.members.Keys == db.members.Keys && after.players.Keys == db.players.Keys
      && (forall m :: m in db.members ==>
            after.members[m] == if db.members[m].group == g then db.members[m].(verdict := VerdictOf(vs, m.player)) else db.members[m])
      && (forall s :: s in db.summaries ==> s in after.summaries && after.summaries[s] == db.summaries[s])
  {
    forall m | m in db.members && db.members[m].group == g
      ensures m.player in InGroup(db.members, g)
    {
    }
  }

  lemma CloseGroupSummaries(tb: Table, db: Db, g: GroupId, vs: Verdicts, s: SummaryKey)
    requires g in db.groups && g.round in db.rounds && db.groups[g].open && g.round.tier < |tb.tiers|
    requires s !in db.summaries
    ensures var after := CloseGroup(tb, db, g, vs);
      && (s in after.summaries <==>
            s.round == g.round && s.reason == ReasonRound
            && exists m :: m in db.members && db.members[m].group == g && !db.members[m].left && m.player == s.player)
      && (s in after.summaries ==>
            IsSettlement(tb, db, g.round, s.player, VerdictOf(vs, s.player), after.summaries[s]))
  {
    if s.round == g.round && s.reason == ReasonRound && s.player in Staying(db.members, g) {
      assert s == SummaryKey(s.player, g.round, ReasonRound);
      assert s in NewSummaryKeys(db, g.round, Staying(db.members, g));
    }
    SettlementMeans(tb, db, g.round, s.player, VerdictOf(vs, s.player));
  }

  /** And only the players who got a new summary move, to the tier it names, settled up to the end of the
      round. */
  lemma CloseGroupPlayers(tb: Table, db: Db, g: GroupId, vs: Verdicts, p: PlayerId)
    requires g in db.groups && g.round in db.rounds && db.groups[g].open && g.round.tier < |tb.tiers| && p in db.players
    ensures var after := CloseGroup(tb, db, g, vs);
      var s := SummaryKey(p, g.round, ReasonRound);
      if s in after.summaries && s !in db.summaries && db.players[p].tier == g.round.tier then
        var to := after.summaries[s].after;
        && IsMoved(db.players[p], after.players[p], to, after.players[p].settled)
        && SettledIndex(tb, after.players[p]) == Index(tb, to, db.rounds[g.round].endsAt)
      else after.players[p] == db.players[p]
  {
    var after := CloseGroup(tb, db, g, vs);
    var s := SummaryKey(p, g.round, ReasonRound);
    if s !in db.summaries {
      CloseGroupSummaries(tb, db, g, vs, s);
    }
    if p in Staying(db.members, g) && s !in db.summaries {
      var to := After(tb, g.round.tier, VerdictOf(vs, p));
      StartIsInRound(tb, to, Index(tb, to, db.rounds[g.round].endsAt));
    }
  }

  lemma StartIsInRound(tb: Table, t: nat, index: int)
    requires HasRounds(Cfg(tb, t)) || index == 0
    ensures Index(tb, t, Start(tb, t, index)) == index
  {
    if HasRounds(Cfg(tb, t)) {
      StartsItsRound(Cfg(tb, t), index);
    }
  }

  // ----- absence and joining -----

  /** Rounds missed take the player where missing them one by one would, with one summary under the round
      before the booked one, unless there is one. */
  lemma AbsenceMeans(tb: Table, db: Db, p: PlayerId, r: Readings)
    requires p in db.players && db.players[p].tier < |tb.tiers|
    ensures var was, after := db.players[p], Absence(tb, db, p, r);
      var missed := Index(tb, was.tier, r.counted) - Index(tb, was.tier, was.settled);
      var to := if missed > 0 then MissOneByOne(tb.tiers, was.tier, missed) else was.tier;
      var s := SummaryKey(p, RoundKey(was.tier, Index(tb, was.tier, r.booked) - 1), ReasonRound);
      && p in after.players && IsMoved(was, after.players[p], to, after.players[p].settled)
      && SettledIndex(tb, after.players[p]) == Index(tb, to, r.settled)
      && s in after.summaries
      && after.summaries[s] == (if s in db.summaries then db.summaries[s]
                                else Summary(to, AbsentOutcome(tb.tiers[was.tier]), 0, 0, was.points))
      && OthersStay(db, after, {p}, {}, {s}) && after.rounds == db.rounds && after.groups == db.groups
  {
    var was := db.players[p];
    var to := TierAfterAbsence(tb, was.tier, Missed(tb, was, r.counted));
    StartIsInRound(tb, to, Index(tb, to, r.settled));
  }

  /** A floor tier and one that lets its absent players stay freeze them. */
  ghost function AbsentOutcome(t: Tier): Outcome {
    if !t.floor && t.inactive.Drop? then InactiveRelegated else InactiveFrozen
  }

  /** A seat with nothing in it, in a group that counts one more, or in a new one for one, which takes
      the next number of the round. */
  lemma JoinMeans(tb: Table, db: Db, p: PlayerId, key: RoundKey, q: bool, g: GroupId)
    requires key in db.rounds
    ensures var after := Join(tb, db, p, key, q, g);
      var m := MemberKey(p, key);
      && m in after.members && after.members[m] == Member(g, 0, 0, 0, false, Undecided)
      && OthersStay(db, after, {}, {m}, {}) && after.groups.Keys == db.groups.Keys + {g}
      && (forall h :: h in db.groups && h != g ==> after.groups[h] == db.groups[h])
      && (g in db.groups ==> after.rounds == db.rounds && after.groups[g] == db.groups[g].(count := db.groups[g].count + 1))
      && (g !in db.groups ==>
            && after.groups[g] == Group(q, if Cfg(tb, key.tier).global then Unlimited else Limited(tb.groupSize), 1, true)
            && after.rounds == db.rounds[key := db.rounds[key].(groupSeq := db.rounds[key].groupSeq + 1)])
  {
  }

  /** An open group of the round, on the same side of quarantine, with room in it. */
  ghost predicate OnOffer(groups: Groups, key: RoundKey, q: bool, h: GroupId) {
    h in groups && h.round == key && groups[h].open && groups[h].quarantine == q && HasPlace(groups[h])
  }

  predicate HasPlace(gr: Group) {
    gr.capacity.Unlimited? || gr.count < gr.capacity.size
  }

  /** More full, or as full and of the smaller textual id. */
  ghost predicate Preferred(groups: Groups, g: GroupId, h: GroupId)
    requires g in groups && h in groups
  {
    groups[g].count > groups[h].count || (groups[g].count == groups[h].count && IdBefore(g.seqNo, h.seqNo))
  }

  lemma {:induction false} FullestExists(groups: Groups, key: RoundKey, q: bool, some: set<GroupId>) returns (g: GroupId)
    requires some != {} && some <= groups.Keys && forall h :: h in some ==> OnOffer(groups, key, q, h)
    ensures g in some && forall h :: h in some && h != g ==> SortsFirst(groups, g, h)
    decreases |some|
  {
    g :| g in some;
    if some != {g} {
      var rest := FullestExists(groups, key, q, some - {g});
      if groups[g].count == groups[rest].count {
        IdsApart(g.seqNo, rest.seqNo);
      }
      if SortsFirst(groups, rest, g) {
        g := rest;
      } else {
        FirstOverRest(groups, g, rest, some - {g});
      }
    }
  }

  lemma FirstOverRest(groups: Groups, g: GroupId, first: GroupId, rest: set<GroupId>)
    requires g in groups && first in groups && SortsFirst(groups, g, first)
    requires forall h :: h in rest ==> h in groups && (h != first ==> SortsFirst(groups, first, h))
    ensures forall h :: h in rest ==> SortsFirst(groups, g, h)
  {
    forall h | h in rest && h != first
      ensures SortsFirst(groups, g, h)
    {
      if IdBefore(g.seqNo, first.seqNo) && IdBefore(first.seqNo, h.seqNo) {
        IdsOnward(g.seqNo, first.seqNo, h.seqNo);
      }
    }
  }

  /** Where a player is put: into the wished group while it is open and below the hard limit, in a tier
      with groups to choose; else into the fullest group on offer; else, when none is, into a new one.
      Groups are stored with the random-fill size as their capacity, or with none. */
  lemma PlacementMeans(tb: Table, db: Db, key: RoundKey, q: bool, wish: Wish, g: GroupId)
    requires Placement(tb, db, key, q, wish, g)
    requires forall h :: h in db.groups && db.groups[h].capacity.Limited? ==> db.groups[h].capacity.size == tb.groupSize
    ensures if wish.Wish? && !Cfg(tb, key.tier).global && wish.group in db.groups && db.groups[wish.group].open
               && (db.groups[wish.group].capacity.Unlimited? || db.groups[wish.group].count < tb.groupMax) then g == wish.group
      else if exists h :: OnOffer(db.groups, key, q, h) then
        OnOffer(db.groups, key, q, g) && forall h :: OnOffer(db.groups, key, q, h) && h != g ==> Preferred(db.groups, g, h)
      else g == GroupId(key, db.rounds[key].groupSeq + 1)
  {
    if TakesWish(tb, db.groups, key, wish) {
    } else if h :| OnOffer(db.groups, key, q, h) {
      var f := FullestOnOffer(db.groups, key, q, h);
      assert HasRoom(db.groups[f], tb.groupSize);
      FullestMeans(db.groups, key, q, g);
    } else {
      FullestMeans(db.groups, key, q, g);
    }
  }

  lemma FullestOnOffer(groups: Groups, key: RoundKey, q: bool, h: GroupId) returns (f: GroupId)
    requires OnOffer(groups, key, q, h)
    ensures IsFullest(groups, key, q, f)
  {
    var all := set h | h in groups && OnOffer(groups, key, q, h);
    assert h in all;
    f := FullestExists(groups, key, q, all);
    assert forall h :: Fillable(groups, key, q, h) ==> h in all;
  }

  lemma FullestMeans(groups: Groups, key: RoundKey, q: bool, g: GroupId)
    ensures IsFullest(groups, key, q, g) <==>
      OnOffer(groups, key, q, g) && forall h :: OnOffer(groups, key, q, h) && h != g ==> Preferred(groups, g, h)
  {
    assert forall h :: Fillable(groups, key, q, h) <==> OnOffer(groups, key, q, h);
  }

  // ----- promotion by score -----

  /** Enough points in a tier that is left by score: the next tier, with no points in it, a summary, and
      the running membership marked as left. */
  lemma PromoteByScoreMeans(tb: Table, db: Db, p: PlayerId, now: int)
    requires p in db.players && PromotesByScore(tb, db.players[p])
    ensures var was, after := db.players[p], PromoteByScore(tb, db, p, now);
      var key := RoundKey(was.tier, Index(tb, was.tier, now));
      var s, m := SummaryKey(p, key, ReasonScore), MemberKey(p, key);
      && tb.tiers[was.tier].rule.upMode == ByScore && was.points >= tb.tiers[was.tier].rule.promoScore > 0
      && was.tier + 1 < |tb.tiers| && p in after.players
      && after.players[p].tier == was.tier + 1 && after.players[p].points == 0
      && SettledIndex(tb, after.players[p]) == Index(tb, was.tier + 1, now)
      && s in after.summaries
      && after.summaries[s] == (if s in db.summaries then db.summaries[s]
           else Summary(was.tier + 1, Promoted, 0, if m in db.members then db.members[m].score else 0, was.points))
      && (m in db.members ==> m in after.members && after.members[m] == db.members[m].(left := true))
      && (m !in db.members ==> after.members == db.members)
      && OthersStay(db, after, {p}, {m}, {s}) && after.rounds == db.rounds && after.groups == db.groups
  {
    var t := db.players[p].tier;
    StartIsInRound(tb, t + 1, Index(tb, t + 1, now));
  }

  /** And the threshold is exactly that, below the top of the table. */
  lemma PromotesExactly(tb: Table, p: Player)
    requires p.tier < |tb.tiers|
    ensures PromotesByScore(tb, p) <==>
      && tb.tiers[p.tier].rule.upMode == ByScore && p.points >= tb.tiers[p.tier].rule.promoScore > 0
      && p.tier + 1 < |tb.tiers|
  {
  }
}
