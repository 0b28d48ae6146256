/** Why an absence finds nobody in a round they played: as long as no round ends between the clock
    readings of one transaction, whoever has a membership to settle is settled up to that very round. */
module SeasonOnTime {
  import opened Tiers
  import opened Season
  import opened SeasonInvariant

  /** The player is settled up to the round of this membership, or in a tier that freezes absences. */
  predicate SeatOnTime(tb: Table, players: Players, m: MemberKey) {
    m.player in players && (SettledIndex(tb, players[m.player]) == m.round.index || Freezes(tb, m.round.tier))
  }

  ghost predicate OnTime(tb: Table, db: Db) {
    forall m :: Unsettled(db.groups, db.members, m) ==> SeatOnTime(tb, db.players, m)
  }

  /** The number of the round running at an instant, in all tiers with rounds. */
  function Week(tb: Table, time: int): int {
    Index(tb, tb.firstRound, time)
  }

  /** No round ends between the first reading of the step's transaction and the step. */
  predicate InOneRound(tb: Table, s: Step) {
    match s.event
    case Misses(p, r) => Week(tb, r.due) == Week(tb, s.now)
    case Joins(p, r, key, q, wish, g) => Week(tb, r.due) == Week(tb, s.now)
    case _ => true
  }

  /** So it is, or a round did end, but the step is a join that finds nothing to settle in it, and its
      tier freezes absences. */
  ghost predicate Timely(tb: Table, w: World, s: Step) {
    InOneRound(tb, s) || (s.event.Joins? && Freezes(tb, s.event.round.tier) && CaughtUp(tb, w.db, s.event.p, s.now))
  }

  // ----- an absence spares whoever is on time -----

  lemma UnsettledHasRound(tb: Table, w: World, m: MemberKey)
    requires Inv(tb, w) && Unsettled(w.db.groups, w.db.members, m)
    ensures m.round in w.db.rounds && InRounds(tb, m.round.tier) && m.player in w.db.players
    ensures w.db.players[m.player].tier == m.round.tier
  {
  }

  lemma StillCaughtUp(tb: Table, w: World, p: PlayerId, seen: int, now: int)
    requires SoundTable(tb) && Inv(tb, w) && CaughtUp(tb, w.db, p, seen) && Week(tb, seen) == Week(tb, now)
    ensures CaughtUp(tb, w.db, p, now)
  {
    forall m: MemberKey | m.player == p && Unsettled(w.db.groups, w.db.members, m)
      ensures now < End(tb, m.round)
    {
      UnsettledHasRound(tb, w, m);
      SameCalendar(tb, m.round.tier, tb.firstRound, seen);
      SameCalendar(tb, m.round.tier, tb.firstRound, now);
      EndedIff(tb, m.round, seen);
      EndedIff(tb, m.round, now);
    }
  }

  /** None of the missed rounds has a membership of the player's. */
  lemma OnTimeIsSpared(tb: Table, w: World, p: PlayerId, now: int)
    requires SoundTable(tb) && Inv(tb, w) && OnTime(tb, w.db) && CaughtUp(tb, w.db, p, now)
    requires p in w.db.players && Missed(tb, w.db.players[p], now) > 0
    ensures Spared(tb, w.db, p, now)
  {
    forall m: MemberKey | m.player == p && Unsettled(w.db.groups, w.db.members, m)
      ensures Freezes(tb, m.round.tier)
    {
      UnsettledHasRound(tb, w, m);
      EndedIff(tb, m.round, now);
      assert SeatOnTime(tb, w.db.players, m);
    }
  }

  lemma MissedStill(tb: Table, p: Player, counted: int, now: int)
    requires counted <= now
    ensures Missed(tb, p, counted) <= Missed(tb, p, now)
  {
    IndexOrdered(Cfg(tb, p.tier), counted, now);
  }

  /** A step taken in time does no harm. */
  lemma TimelyIsHarmless(tb: Table, w: World, s: Step)
    requires SoundTable(tb) && Inv(tb, w) && OnTime(tb, w.db) && Enabled(tb, w, s) && Timely(tb, w, s)
    ensures Harmless(tb, w, s)
  {
    match s.event
    case Misses(p, r) =>
      StillCaughtUp(tb, w, p, r.due, s.now);
      MissedStill(tb, w.db.players[p], r.counted, s.now);
      OnTimeIsSpared(tb, w, p, s.now);
    case Joins(p, r, key, q, wish, g) =>
      if InOneRound(tb, s) {
        StillCaughtUp(tb, w, p, r.due, s.now);
      }
    case _ =>
  }

  // ----- every step taken in time keeps everybody on time -----

  /** Whoever has something to settle afterwards had it before, and has not moved. */
  ghost predicate SeatsStay(w: Db, v: Db) {
    forall m :: Unsettled(v.groups, v.members, m) ==>
      && Unsettled(w.groups, w.members, m) && m.player in w.players && m.player in v.players
      && v.players[m.player].tier == w.players[m.player].tier && v.players[m.player].settled == w.players[m.player].settled
  }

  lemma SeatsStayOnTime(tb: Table, w: Db, v: Db)
    requires OnTime(tb, w) && SeatsStay(w, v)
    ensures OnTime(tb, v)
  {
    forall m | Unsettled(v.groups, v.members, m)
      ensures SeatOnTime(tb, v.players, m)
    {
      assert SeatOnTime(tb, w.players, m);
    }
  }

  lemma RegisterSeats(tb: Table, db: Db, p: PlayerId, now: int)
    requires MembersOk(db.players, db.groups, db.members) && p !in db.players
    ensures SeatsStay(db, Register(tb, db, p, now))
  {
  }

  lemma DeleteSeats(db: Db, p: PlayerId)
    requires MembersOk(db.players, db.groups, db.members)
    ensures SeatsStay(db, Delete(db, p))
  {
  }

  lemma ScoreSeats(db: Db, p: PlayerId, key: RoundKey, points: int, score: int, games: int, last: int)
    requires MembersOk(db.players, db.groups, db.members) && p in db.players
    ensures SeatsStay(db, Score(db, p, key, points, score, games, last))
  {
  }

  /** Who is promoted by score has no membership at all. */
  lemma PromotionSeats(tb: Table, w: World, p: PlayerId)
    requires SoundTable(tb) && Inv(tb, w) && p in w.db.players && PromotesByScore(tb, w.db.players[p])
    ensures SeatsStay(w.db, PromoteByScore(tb, w.db, p, w.clock))
  {
    PromotionLeavesNothing(tb, w, p);
    forall m | Unsettled(w.db.groups, w.db.members, m)
      ensures m.player != p
    {
      UnsettledHasRound(tb, w, m);
    }
  }

  /** Closing a group moves only those who have nothing to settle any more. */
  lemma CloseSeats(tb: Table, w: World, g: GroupId, vs: Verdicts)
    requires Inv(tb, w) && g in w.db.groups && g.round in w.db.rounds
    ensures SeatsStay(w.db, CloseGroup(tb, w.db, g, vs))
  {
    if w.db.groups[g].open {
      var v := CloseGroup(tb, w.db, g, vs);
      ClosePlaces(tb, w.db, g, vs);
      forall m | Unsettled(v.groups, v.members, m)
        ensures Unsettled(w.db.groups, w.db.members, m) && m.player !in Staying(w.db.members, g)
      {
        assert m in w.db.members && w.db.members[m].group != g;
        if m.player in Staying(w.db.members, g) {
          StayingHere(tb, w, g, m);
        }
      }
      OthersUnmoved(tb, w, g, vs);
    }
  }

  lemma OthersUnmoved(tb: Table, w: World, g: GroupId, vs: Verdicts)
    requires Inv(tb, w) && g in w.db.groups && g.round in w.db.rounds
    ensures var v := CloseGroup(tb, w.db, g, vs).players;
      v.Keys == w.db.players.Keys && forall p :: p in v && p !in Staying(w.db.members, g) ==> v[p] == w.db.players[p]
  {
  }

  lemma AbsenceOnTime(tb: Table, w: World, p: PlayerId, r: Readings)
    requires SoundTable(tb) && Inv(tb, w) && OnTime(tb, w.db) && MissesNow(tb, w, p, r) && Spared(tb, w.db, p, w.clock)
    ensures OnTime(tb, Absence(tb, w.db, p, r))
  {
    var v := Absence(tb, w.db, p, r);
    forall m | Unsettled(v.groups, v.members, m)
      ensures SeatOnTime(tb, v.players, m)
    {
      assert Unsettled(w.db.groups, w.db.members, m) && SeatOnTime(tb, w.db.players, m);
    }
  }

  /** Who joins in time joins the round they are settled up to. */
  lemma JoinIsOnTime(tb: Table, w: World, s: Step)
    requires SoundTable(tb) && Inv(tb, w) && Enabled(tb, w, s) && s.event.Joins? && Timely(tb, w, s)
    ensures SeatOnTime(tb, w.db.players, MemberKey(s.event.p, s.event.round))
  {
    var p := w.db.players[s.event.p];
    if InOneRound(tb, s) {
      IndexOrdered(Cfg(tb, p.tier), w.clock, s.now);
      IndexOrdered(Cfg(tb, p.tier), s.event.read.due, s.event.read.counted);
      SameCalendar(tb, p.tier, tb.firstRound, s.event.read.due);
      SameCalendar(tb, p.tier, tb.firstRound, s.now);
    }
  }

  lemma JoinOnTime(tb: Table, w: World, s: Step)
    requires SoundTable(tb) && Inv(tb, w) && OnTime(tb, w.db) && Enabled(tb, w, s) && s.event.Joins? && Timely(tb, w, s)
    ensures OnTime(tb, Next(tb, w, s).db)
  {
    JoinIsOnTime(tb, w, s);
    var v := Next(tb, w, s).db;
    forall m | Unsettled(v.groups, v.members, m)
      ensures SeatOnTime(tb, v.players, m)
    {
      if m != MemberKey(s.event.p, s.event.round) {
        assert Unsettled(w.db.groups, w.db.members, m);
        assert SeatOnTime(tb, w.db.players, m);
      }
    }
  }

  /** A step taken in time leaves everybody on time. */
  lemma TimelyKeeps(tb: Table, w: World, s: Step)
    requires SoundTable(tb) && Inv(tb, w) && OnTime(tb, w.db) && Enabled(tb, w, s) && Timely(tb, w, s)
    ensures OnTime(tb, Next(tb, w, s).db)
  {
    TickKeeps(tb, w, s.now);
    var u, v := w.(clock := s.now), Next(tb, w, s).db;
    match s.event
    case Registers(p) =>
      RegisterSeats(tb, w.db, p, s.now);
      SeatsStayOnTime(tb, w.db, v);
    case Deletes(p) =>
      DeleteSeats(w.db, p);
      SeatsStayOnTime(tb, w.db, v);
    case Closes(g, vs) =>
      CloseSeats(tb, w, g, vs);
      SeatsStayOnTime(tb, w.db, v);
    case Misses(p, r) =>
      TimelyIsHarmless(tb, w, s);
      AbsenceOnTime(tb, u, p, r);
    case Joins(p, r, key, q, wish, g) => JoinOnTime(tb, w, s);
    case Scores(p, key, points, score, games, last) =>
      ScoreSeats(w.db, p, key, points, score, games, last);
      SeatsStayOnTime(tb, w.db, v);
    case Promotes(p) =>
      PromotionSeats(tb, u, p);
      SeatsStayOnTime(tb, w.db, v);
    case _ =>
  }
}
