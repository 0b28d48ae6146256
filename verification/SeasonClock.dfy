/** One transaction reads the clock several times. `catchUp` asks for due rounds at one instant, and
    the absence it finds and the membership the caller adds belong to later ones. A round that ends in
    between does no harm but under the conditions stated here. */
module SeasonClock {
  import opened Tiers
  import opened Season
  import opened SeasonInvariant
  import opened SeasonOnTime

  /** The settings of a tier that takes a player down for a round without a game. */
  predicate Punishes(tb: Table, tier: nat) {
    Cfg(tb, tier).inactive == Drop && !Cfg(tb, tier).floor
  }

  /** What holds of a player after the first half of `catchUp`, read at `seen`, some time before. */
  ghost predicate CaughtUpEarlier(tb: Table, w: World, p: PlayerId, seen: int) {
    SoundTable(tb) && Inv(tb, w) && p in w.db.players && seen <= w.clock && CaughtUp(tb, w.db, p, seen)
  }

  // ----- an absence -----

  /** Closing the group of every membership p still has to be settled in will move p by its verdict. */
  ghost predicate AllWillHit(was: Db, db: Db, p: PlayerId) {
    forall m: MemberKey :: m.player == p && Unsettled(was.groups, was.members, m) ==> Hits(db, m.round, p)
  }

  /** No such membership is in a tier that punishes the absence, or in the very round the absence is
      booked for. */
  ghost predicate NoneTaken(tb: Table, db: Db, p: PlayerId, booked: int) {
    forall m: MemberKey :: m.player == p && Unsettled(db.groups, db.members, m) ==>
      !Punishes(tb, m.round.tier) && m.round.index != Index(tb, m.round.tier, booked) - 1
  }

  lemma DroppedByAbsence(tb: Table, tier: nat, missed: int)
    requires SoundTable(tb) && InRounds(tb, tier) && missed > 0 && Punishes(tb, tier)
    ensures TierAfterAbsence(tb, tier, missed) < tier
  {
    FloorHolds(tb.tiers, tier - 1, missed - 1, tb.firstRound);
  }

  lemma UnsettledWillHit(tb: Table, w: World, m: MemberKey)
    requires Inv(tb, w) && Unsettled(w.db.groups, w.db.members, m)
    ensures Hits(w.db, m.round, m.player) && m.round in w.db.rounds
    ensures InRounds(tb, m.round.tier) && w.db.members[m].group.round == m.round
  {
  }

  /** An absence, for a player whom the close of `key` would move. */
  lemma HitsAfterAbsence(tb: Table, db: Db, p: PlayerId, key: RoundKey, r: Readings)
    requires SoundTable(tb) && InRounds(tb, key.tier) && Hits(db, key, p) && Missed(tb, db.players[p], r.counted) > 0
    ensures var v := Absence(tb, db, p, r);
      && (Inserts(v, key, p) <==> key.index != Index(tb, key.tier, r.booked) - 1)
      && (Hits(v, key, p) <==> !Punishes(tb, key.tier) && key.index != Index(tb, key.tier, r.booked) - 1)
  {
    var missed := Missed(tb, db.players[p], r.counted);
    if Punishes(tb, key.tier) {
      DroppedByAbsence(tb, key.tier, missed);
    } else {
      FrozenStays(tb, key.tier, missed);
    }
  }

  /** Whatever the four readings are, an absence costs nobody the result of a game they played exactly
      when what they still have to be settled in lies in a tier that does not punish, and in another
      round than the one the absence is booked for. */
  lemma AbsenceIsSafeIff(tb: Table, w: World, p: PlayerId, r: Readings)
    requires SoundTable(tb) && Inv(tb, w) && p in w.db.players && Missed(tb, w.db.players[p], r.counted) > 0
    ensures AllWillHit(w.db, Absence(tb, w.db, p, r), p) <==> NoneTaken(tb, w.db, p, r.booked)
  {
    forall m: MemberKey | m.player == p && Unsettled(w.db.groups, w.db.members, m)
      ensures Hits(Absence(tb, w.db, p, r), m.round, p) <==>
        !Punishes(tb, m.round.tier) && m.round.index != Index(tb, m.round.tier, r.booked) - 1
    {
      UnsettledWillHit(tb, w, m);
      HitsAfterAbsence(tb, w.db, p, m.round, r);
    }
  }

  lemma SparedLosesNothing(tb: Table, w: World, p: PlayerId, booked: int)
    requires SoundTable(tb) && Inv(tb, w) && p in w.db.players && Spared(tb, w.db, p, w.clock) && booked <= w.clock
    ensures NoneTaken(tb, w.db, p, booked)
  {
    forall m: MemberKey | m.player == p && Unsettled(w.db.groups, w.db.members, m)
      ensures !Punishes(tb, m.round.tier) && m.round.index != Index(tb, m.round.tier, booked) - 1
    {
      AbsenceSpares(tb, w, p, m, 0);
      IndexOrdered(Cfg(tb, m.round.tier), booked, w.clock);
    }
  }

  /** As long as at most one round ends inside a transaction, and none between booking and settling, the
      absences that do harm are exactly those that take something. */
  lemma SparedIff(tb: Table, w: World, p: PlayerId, seen: int, booked: int)
    requires CaughtUpEarlier(tb, w, p, seen) && booked <= w.clock
    requires var t := w.db.players[p].tier; Index(tb, t, booked) == Index(tb, t, w.clock) <= Index(tb, t, seen) + 1
    ensures Spared(tb, w.db, p, w.clock) <==> NoneTaken(tb, w.db, p, booked)
  {
    if Spared(tb, w.db, p, w.clock) {
      SparedLosesNothing(tb, w, p, booked);
    }
    forall m: MemberKey | m.player == p && Unsettled(w.db.groups, w.db.members, m)
      ensures !Punishes(tb, m.round.tier) && m.round.index != Index(tb, m.round.tier, booked) - 1 ==>
        w.clock < End(tb, m.round)
    {
      UnsettledWillHit(tb, w, m);
      EndedIff(tb, m.round, seen);
      EndedIff(tb, m.round, w.clock);
    }
  }

  // ----- a start -----

  /** A start that joins the round running now, of a player caught up at `seen`. */
  ghost predicate LateStart(tb: Table, w: World, p: PlayerId, key: RoundKey, q: bool, wish: Wish, g: GroupId, seen: int) {
    && CaughtUpEarlier(tb, w, p, seen) && JoinsRunning(tb, w.db, p, key, w.clock)
    && Listed(tb, w.db.groups, key, wish) && Placement(tb, w.db, key, q, wish, g)
  }

  ghost predicate OneToSettle(db: Db, p: PlayerId) {
    forall m, n :: BothUnsettled(db.groups, db.members, m, n) && m.player == p ==> m == n
  }

  lemma PlaceIsOpen(tb: Table, db: Db, key: RoundKey, q: bool, wish: Wish, g: GroupId)
    requires GroupsOk(tb, db.rounds, db.groups) && Placement(tb, db, key, q, wish, g)
    ensures g in db.groups ==> db.groups[g].open
  {
  }

  lemma JoinedIsUnsettled(tb: Table, db: Db, p: PlayerId, key: RoundKey, q: bool, wish: Wish, g: GroupId)
    requires GroupsOk(tb, db.rounds, db.groups) && Placement(tb, db, key, q, wish, g)
    ensures var v := Join(tb, db, p, key, q, g); Unsettled(v.groups, v.members, MemberKey(p, key))
    ensures var v := Join(tb, db, p, key, q, g);
      forall m :: m != MemberKey(p, key) && Unsettled(db.groups, db.members, m) ==> Unsettled(v.groups, v.members, m)
  {
    PlaceIsOpen(tb, db, key, q, wish, g);
  }

  /** A start leaves its player with one membership to settle, exactly when they had none: so always
      when both readings of the clock fall in the same round. */
  lemma StartIsSafeIff(tb: Table, w: World, p: PlayerId, key: RoundKey, q: bool, wish: Wish, g: GroupId, seen: int)
    requires LateStart(tb, w, p, key, q, wish, g, seen)
    ensures OneToSettle(Join(tb, w.db, p, key, q, g), p) <==> NothingToSettle(w.db, p)
    ensures NothingToSettle(w.db, p) <==> CaughtUp(tb, w.db, p, w.clock)
    ensures NothingToSettle(w.db, p) ==> Inv(tb, w.(db := Join(tb, w.db, p, key, q, g)))
    ensures Index(tb, key.tier, seen) == Index(tb, key.tier, w.clock) ==> NothingToSettle(w.db, p)
  {
    if NothingToSettle(w.db, p) {
      JoinKeeps(tb, w, p, key, q, wish, g);
    } else {
      SecondOfTwo(tb, w, p, key, q, wish, g, seen);
    }
    if CaughtUp(tb, w.db, p, w.clock) {
      JoinsWhereSettled(tb, w, p, key);
    }
    InOneRoundIsSafe(tb, w, p, key, seen);
  }

  lemma InOneRoundIsSafe(tb: Table, w: World, p: PlayerId, key: RoundKey, seen: int)
    requires CaughtUpEarlier(tb, w, p, seen) && JoinsRunning(tb, w.db, p, key, w.clock)
    ensures Index(tb, key.tier, seen) == Index(tb, key.tier, w.clock) ==> NothingToSettle(w.db, p)
  {
    if Index(tb, key.tier, seen) == Index(tb, key.tier, w.clock) {
      SameCalendar(tb, key.tier, tb.firstRound, seen);
      SameCalendar(tb, key.tier, tb.firstRound, w.clock);
      StillCaughtUp(tb, w, p, seen, w.clock);
      JoinsWhereSettled(tb, w, p, key);
    }
  }

  lemma SecondOfTwo(tb: Table, w: World, p: PlayerId, key: RoundKey, q: bool, wish: Wish, g: GroupId, seen: int)
    requires LateStart(tb, w, p, key, q, wish, g, seen) && !NothingToSettle(w.db, p)
    ensures !OneToSettle(Join(tb, w.db, p, key, q, g), p)
  {
    var m: MemberKey :| m.player == p && Unsettled(w.db.groups, w.db.members, m);
    JoinedIsUnsettled(tb, w.db, p, key, q, wish, g);
    var v := Join(tb, w.db, p, key, q, g);
    assert BothUnsettled(v.groups, v.members, m, MemberKey(p, key)) && m != MemberKey(p, key);
  }

  lemma NoSummaryAhead(tb: Table, w: World, p: PlayerId, key: RoundKey)
    requires Inv(tb, w) && p in w.db.players && key.index >= SettledIndex(tb, w.db.players[p])
    ensures SummaryKey(p, key, ReasonRound) !in w.db.summaries
  {
  }

  lemma LateStartIsAhead(tb: Table, w: World, p: PlayerId, key: RoundKey, q: bool, wish: Wish, g: GroupId, seen: int)
    requires LateStart(tb, w, p, key, q, wish, g, seen)
    ensures key.tier == w.db.players[p].tier && SettledIndex(tb, w.db.players[p]) <= key.index
  {
  }

  /** Closed before anything else happens to the player, the round they started in settles them, even
      if the readings straddle a round end. */
  lemma StartWillHit(tb: Table, w: World, p: PlayerId, key: RoundKey, q: bool, wish: Wish, g: GroupId, seen: int)
    requires LateStart(tb, w, p, key, q, wish, g, seen)
    ensures var v := Join(tb, w.db, p, key, q, g);
      Unsettled(v.groups, v.members, MemberKey(p, key)) && Inserts(v, key, p) && Hits(v, key, p)
  {
    LateStartIsAhead(tb, w, p, key, q, wish, g, seen);
    NoSummaryAhead(tb, w, p, key);
    JoinedIsUnsettled(tb, w.db, p, key, q, wish, g);
  }

  /** With an absence in between, booked for the round before, the close still writes its summary; but
      its tier move hits exactly when the tier does not take a player down for an absence. */
  lemma AbsenceAfterStartIff(tb: Table, w: World, p: PlayerId, key: RoundKey, q: bool, wish: Wish, g: GroupId,
                             seen: int, later: Readings)
    requires LateStart(tb, w, p, key, q, wish, g, seen) && SettledIndex(tb, w.db.players[p]) < key.index
    requires Index(tb, key.tier, later.counted) == Index(tb, key.tier, later.booked) == key.index
    ensures var v := Absence(tb, Join(tb, w.db, p, key, q, g), p, later);
      && Unsettled(v.groups, v.members, MemberKey(p, key)) && Inserts(v, key, p)
      && (Hits(v, key, p) <==> !Punishes(tb, key.tier))
  {
    StartWillHit(tb, w, p, key, q, wish, g, seen);
    HitsAfterAbsence(tb, Join(tb, w.db, p, key, q, g), p, key, later);
  }

  /** With a membership of the round before still to be settled, it is that round's verdict which
      decides: the close of the new round hits exactly when the close of the old one left the player
      in their tier. */
  lemma OldVerdictDecides(tb: Table, w: World, p: PlayerId, key: RoundKey, q: bool, wish: Wish, g: GroupId,
                          seen: int, m: MemberKey, vs: Verdicts)
    requires LateStart(tb, w, p, key, q, wish, g, seen)
    requires m.player == p && Unsettled(w.db.groups, w.db.members, m)
    ensures var v := Join(tb, w.db, p, key, q, g);
      var h := w.db.members[m].group;
      && h in v.groups && h.round in v.rounds
      && (Hits(Season.CloseGroup(tb, v, h, vs), key, p) <==> After(tb, key.tier, VerdictOf(vs, p)) == key.tier)
  {
    StartWillHit(tb, w, p, key, q, wish, g, seen);
    JoinedIsUnsettled(tb, w.db, p, key, q, wish, g);
    NoSummaryAhead(tb, w, p, m.round);
    OldCloseMoves(tb, Join(tb, w.db, p, key, q, g), w.db.members[m].group, vs, p, m, key);
  }

  lemma OldCloseMoves(tb: Table, v: Db, h: GroupId, vs: Verdicts, p: PlayerId, m: MemberKey, key: RoundKey)
    requires m.player == p && Unsettled(v.groups, v.members, m) && v.members[m].group == h && h.round == m.round
    requires h.round in v.rounds && Hits(v, m.round, p) && Hits(v, key, p) && m.round != key
    ensures Hits(CloseGroup(tb, v, h, vs), key, p) <==> After(tb, m.round.tier, VerdictOf(vs, p)) == key.tier
  {
    assert p in Staying(v.members, h);
  }
}
