/** `catchUp` as a whole: it closes the due rounds of the player's tier, then collapses the rounds the
    player missed. The clock is read up to four times, so a round may end in the middle. */
module SeasonCatchUp {
  import opened Tiers
  import opened Season
  import opened SeasonInvariant
  import opened SeasonOnTime
  import opened SeasonRuns

  // ----- what closing rounds leaves alone -----

  /** Nobody joined or left, no round appeared, groups and rounds only moved on. */
  ghost predicate OnlyCloses(w: Db, v: Db) {
    && v.players.Keys == w.players.Keys && SameGroups(w.members, v.members) && v.groups.Keys == w.groups.Keys
    && (forall g :: g in w.groups && v.groups[g].open ==> w.groups[g].open)
    && v.rounds.Keys == w.rounds.Keys
    && (forall k :: k in w.rounds ==> Age(w.rounds[k].state) <= Age(v.rounds[k].state) && v.rounds[k].endsAt == w.rounds[k].endsAt)
  }

  lemma ClosingOnlyCloses(tb: Table, w: World, s: Step, k: RoundKey)
    requires Enabled(tb, w, s) && ClosingStep(s, k)
    ensures OnlyCloses(w.db, Next(tb, w, s).db)
  {
    match s.event
    case Closes(g, vs) => assert SameGroups(w.db.members, CloseGroup(tb, w.db, g, vs).members);
    case _ =>
  }

  lemma OnlyClosesTransitive(u: Db, v: Db, w: Db)
    requires OnlyCloses(u, v) && OnlyCloses(v, w)
    ensures OnlyCloses(u, w)
  {
  }

  // ----- both halves -----

  predicate IsDue(rounds: Rounds, tier: nat, now: int, k: RoundKey) {
    k in rounds && k.tier == tier && rounds[k].endsAt <= now && rounds[k].state != Closed
  }

  ghost predicate NothingDue(rounds: Rounds, tier: nat, now: int) {
    forall k :: !IsDue(rounds, tier, now, k)
  }

  predicate ClosesDueRound(rounds: Rounds, tier: nat, now: int, s: Step, k: RoundKey) {
    IsDue(rounds, tier, now, k) && ClosingStep(s, k) && s.now == now
  }

  ghost predicate ClosesSomeDue(rounds: Rounds, tier: nat, now: int, s: Step) {
    exists k :: ClosesDueRound(rounds, tier, now, s, k)
  }

  /** Steps of the closes of due rounds, all at one instant. */
  ghost predicate AllClosesDue(rounds: Rounds, tier: nat, now: int, steps: seq<Step>) {
    forall i :: 0 <= i < |steps| ==> ClosesSomeDue(rounds, tier, now, steps[i])
  }

  /** From `rounds` to `after` every round due has been closed. */
  ghost predicate DueClosed(rounds: Rounds, tier: nat, now: int, after: Rounds) {
    forall k :: IsDue(rounds, tier, now, k) ==> k in after && after[k].state == Closed
  }

  /** The second half: the rounds missed, if any, in one summary and one move. */
  function AfterAbsence(tb: Table, u: World, p: PlayerId, r: Readings): World
    requires p in u.db.players
  {
    if Missed(tb, u.db.players[p], r.counted) > 0 then AbsentWorld(tb, u, p, r) else u
  }

  /** From w by `catchUp` of p to v, with u what the closes left. */
  ghost predicate CatchesUp(tb: Table, w: World, p: PlayerId, r: Readings, steps: seq<Step>, u: World, v: World) {
    && p in w.db.players && p in u.db.players
    && Leads(tb, w, steps, u) && AllClosesDue(w.db.rounds, w.db.players[p].tier, r.due, steps)
    && DueClosed(w.db.rounds, w.db.players[p].tier, r.due, u.db.rounds)
    && v == AfterAbsence(tb, u, p, r)
  }

  lemma ClosesAreOthers(rounds: Rounds, tier: nat, now: int, steps: seq<Step>)
    requires AllClosesDue(rounds, tier, now, steps)
    ensures forall i :: 0 <= i < |steps| ==> !steps[i].event.Misses? && !steps[i].event.Joins?
  {
    forall i | 0 <= i < |steps|
      ensures !steps[i].event.Misses? && !steps[i].event.Joins?
    {
      assert ClosesSomeDue(rounds, tier, now, steps[i]);
      var k :| ClosesDueRound(rounds, tier, now, steps[i], k);
    }
  }

  lemma ClosesKeep(tb: Table, w: World, steps: seq<Step>, u: World, tier: nat, now: int)
    requires SoundTable(tb) && Inv(tb, w) && Leads(tb, w, steps, u) && AllClosesDue(w.db.rounds, tier, now, steps)
    ensures Inv(tb, u)
  {
    ClosesAreOthers(w.db.rounds, tier, now, steps);
    OthersKeep(tb, w, steps, u);
  }

  // ----- a second call -----

  lemma MissingMoves(tb: Table, w: World, p: PlayerId, r: Readings)
    requires SoundTable(tb) && p in w.db.players && w.db.players[p].tier < |tb.tiers|
    requires InOrder(r) && Missed(tb, w.db.players[p], r.counted) > 0
    ensures var x := AbsentWorld(tb, w, p, r).db.players[p];
      x != w.db.players[p] && x.tier < |tb.tiers| && Missed(tb, x, r.settled) == 0
  {
    var pl := w.db.players[p];
    var after := TierAfterAbsence(tb, pl.tier, Missed(tb, pl, r.counted));
    AbsenceStays(tb, pl, r.counted);
    MovedNowSettled(tb, pl, after, r.settled);
    SameCalendar(tb, pl.tier, after, r.settled);
    AbsenceIsAhead(tb, pl, r);
  }

  /** Nothing is left to count after the second half. */
  lemma NothingMissed(tb: Table, u: World, p: PlayerId, r: Readings)
    requires SoundTable(tb) && p in u.db.players && u.db.players[p].tier < |tb.tiers| && InOrder(r)
    ensures var v := AfterAbsence(tb, u, p, r);
      p in v.db.players && v.db.players[p].tier < |tb.tiers| && Missed(tb, v.db.players[p], r.counted) <= 0
  {
    if Missed(tb, u.db.players[p], r.counted) > 0 {
      MissingMoves(tb, u, p, r);
      MissedStill(tb, AbsentWorld(tb, u, p, r).db.players[p], r.counted, r.settled);
    }
  }

  /** `catchUp` leaves the tables as they are exactly when no round of the player's tier is due and
      none was missed. */
  lemma IdleIff(tb: Table, w: World, p: PlayerId, r: Readings, steps: seq<Step>, u: World, v: World)
    requires SoundTable(tb) && CatchesUp(tb, w, p, r, steps, u, v) && w.db.players[p].tier < |tb.tiers| && InOrder(r)
    ensures v.db == w.db <==>
      NothingDue(w.db.rounds, w.db.players[p].tier, r.due) && Missed(tb, w.db.players[p], r.counted) <= 0
  {
    var t := w.db.players[p].tier;
    if NothingDue(w.db.rounds, t, r.due) {
      assert steps != [] ==> !ClosesSomeDue(w.db.rounds, t, r.due, steps[0]);
      if Missed(tb, w.db.players[p], r.counted) > 0 {
        MissingMoves(tb, w, p, r);
      }
    } else {
      var k :| IsDue(w.db.rounds, t, r.due, k);
      assert v.db.rounds == u.db.rounds;
    }
  }

  lemma {:induction false} ClosesOnly(tb: Table, w: World, steps: seq<Step>, u: World, rounds: Rounds, tier: nat, now: int)
    requires Leads(tb, w, steps, u) && AllClosesDue(rounds, tier, now, steps)
    ensures OnlyCloses(w.db, u.db)
    decreases |steps|
  {
    if steps != [] {
      var k :| ClosesDueRound(rounds, tier, now, steps[0], k);
      ClosingOnlyCloses(tb, w, steps[0], k);
      ClosesOnly(tb, Next(tb, w, steps[0]), steps[1..], u, rounds, tier, now);
      OnlyClosesTransitive(w.db, Next(tb, w, steps[0]).db, u.db);
    }
  }

  /** With nobody moved, the rounds of the tier that had ended are all closed. */
  lemma NothingDueAfter(tb: Table, w: World, p: PlayerId, r: Readings, steps: seq<Step>, u: World, v: World)
    requires CatchesUp(tb, w, p, r, steps, u, v)
    ensures NothingDue(v.db.rounds, w.db.players[p].tier, r.due)
  {
    var t := w.db.players[p].tier;
    ClosesOnly(tb, w, steps, u, w.db.rounds, t, r.due);
    forall k
      ensures !IsDue(v.db.rounds, t, r.due, k)
    {
      if k in v.db.rounds && k.tier == t {
        assert IsDue(w.db.rounds, t, r.due, k) || w.db.rounds[k].state == Closed || w.db.rounds[k].endsAt > r.due;
      }
    }
  }

  /** A second `catchUp` at the same instant changes nothing exactly when the tier the first one left
      the player in has no ended round that is not closed; so it is idle whenever the first one left
      the player in their tier. */
  lemma SecondCatchUp(tb: Table, w: World, p: PlayerId, now: int, steps: seq<Step>, u: World, v: World,
                      steps2: seq<Step>, u2: World, v2: World)
    requires SoundTable(tb) && Inv(tb, w) && CatchesUp(tb, w, p, AllAt(now), steps, u, v)
    requires CatchesUp(tb, v, p, AllAt(now), steps2, u2, v2)
    ensures v2.db == v.db <==> NothingDue(v.db.rounds, v.db.players[p].tier, now)
    ensures v.db.players[p].tier == w.db.players[p].tier ==> v2.db == v.db
  {
    ClosesKeep(tb, w, steps, u, w.db.players[p].tier, now);
    NothingMissed(tb, u, p, AllAt(now));
    IdleIff(tb, v, p, AllAt(now), steps2, u2, v2);
    NothingDueAfter(tb, w, p, AllAt(now), steps, u, v);
  }

  // ----- what it leaves -----

  /** With the ended rounds of their tier closed, a player has nothing left to settle in an ended
      round, even if a close has just moved them to a tier with ended rounds of its own. */
  lemma CaughtUpAfter(tb: Table, w: World, p: PlayerId, r: Readings, steps: seq<Step>, u: World, v: World)
    requires SoundTable(tb) && Inv(tb, w) && CatchesUp(tb, w, p, r, steps, u, v)
    ensures Inv(tb, u) && CaughtUp(tb, u.db, p, r.due)
  {
    var t := w.db.players[p].tier;
    ClosesKeep(tb, w, steps, u, t, r.due);
    ClosesOnly(tb, w, steps, u, w.db.rounds, t, r.due);
    forall m: MemberKey | m.player == p && Unsettled(u.db.groups, u.db.members, m)
      ensures r.due < End(tb, m.round)
    {
      WasUnsettled(w.db, u.db, m);
      assert m.round.tier == t && m.round in w.db.rounds && u.db.rounds[m.round].state != Closed;
      assert !IsDue(w.db.rounds, t, r.due, m.round);
    }
  }

  lemma WasUnsettled(w: Db, u: Db, m: MemberKey)
    requires OnlyCloses(w, u) && Unsettled(u.groups, u.members, m)
    ensures Unsettled(w.groups, w.members, m)
  {
    assert m in w.members && u.members[m].group == w.members[m].group;
  }

  ghost predicate AllInOneRound(tb: Table, steps: seq<Step>) {
    forall i :: 0 <= i < |steps| ==> InOneRound(tb, steps[i])
  }

  lemma AbsenceExtends(tb: Table, w: World, p: PlayerId, r: Readings, steps: seq<Step>, u: World) returns (all: seq<Step>)
    requires Leads(tb, w, steps, u) && p in u.db.players && InOrder(r) && u.clock <= r.settled && CaughtUp(tb, u.db, p, r.due)
    requires AllInOneRound(tb, steps)
    ensures Leads(tb, w, all, AfterAbsence(tb, u, p, r))
    ensures Week(tb, r.due) == Week(tb, r.settled) ==> AllInOneRound(tb, all)
  {
    all := steps;
    if Missed(tb, u.db.players[p], r.counted) > 0 {
      var s := Step(r.settled, Misses(p, r));
      RunExtends(tb, w, steps, u, s);
      all := steps + [s];
    }
  }

  /** `catchUp` is a run of the system, whatever the clock shows. */
  lemma CatchUpIsARun(tb: Table, w: World, p: PlayerId, r: Readings, steps: seq<Step>, u: World, v: World)
      returns (all: seq<Step>)
    requires SoundTable(tb) && Inv(tb, w) && CatchesUp(tb, w, p, r, steps, u, v) && InOrder(r) && u.clock <= r.settled
    ensures Leads(tb, w, all, v)
    ensures Week(tb, r.due) == Week(tb, r.settled) ==> AllInOneRound(tb, all)
  {
    CaughtUpAfter(tb, w, p, r, steps, u, v);
    ClosesAreOthers(w.db.rounds, w.db.players[p].tier, r.due, steps);
    all := AbsenceExtends(tb, w, p, r, steps, u);
  }

  // ----- joining the running round -----

  /** The round running now in the tier of a player. */
  function RunningRound(tb: Table, players: Players, p: PlayerId, now: int): RoundKey
    requires p in players
  {
    RoundKey(players[p].tier, Index(tb, players[p].tier, now))
  }

  /** `ensureRound` and `ensureMembership`: a row already there stays, a new one goes to its place. */
  ghost predicate Sits(tb: Table, d: Db, p: PlayerId, key: RoundKey, q: bool, wish: Wish, g: GroupId, after: Db) {
    if MemberKey(p, key) in d.members then after == d
    else key in d.rounds && Listed(tb, d.groups, key, wish) && Placement(tb, d, key, q, wish, g) && after == Join(tb, d, p, key, q, g)
  }

  /** From w, with p caught up, into the running round of p's tier, if the tier has rounds. */
  ghost predicate Enters(tb: Table, w: World, p: PlayerId, q: bool, wish: Wish, g: GroupId, now: int, v: World) {
    && p in w.db.players
    && if HasRounds(Cfg(tb, w.db.players[p].tier)) then
         var key := RunningRound(tb, w.db.players, p, now);
         v == w.(db := v.db, clock := now) && Sits(tb, EnsureRound(tb, w.db, key), p, key, q, wish, g, v.db)
       else v == w
  }

  lemma EnsuresRound(tb: Table, w: World, key: RoundKey, now: int)
    requires w.clock <= now && InRounds(tb, key.tier) && key.index == Index(tb, key.tier, now)
    ensures var s := Step(now, Ensures(key));
      && Enabled(tb, w, s) && Leads(tb, w, [s], Next(tb, w, s))
      && Next(tb, w, s) == w.(clock := now, db := EnsureRound(tb, w.db, key)) && key in EnsureRound(tb, w.db, key).rounds
  {
    var s := Step(now, Ensures(key));
    RunExtends(tb, w, [], w, s);
    assert [] + [s] == [s];
  }

  /** What a `catchUp` with these readings leaves. */
  ghost predicate CaughtUpBy(tb: Table, db: Db, p: PlayerId, r: Readings) {
    p in db.players && db.players[p].tier < |tb.tiers| && CaughtUp(tb, db, p, r.due) && Missed(tb, db.players[p], r.counted) <= 0
  }

  lemma SitsByAStep(tb: Table, w: World, p: PlayerId, r: Readings, key: RoundKey, q: bool, wish: Wish, g: GroupId, after: Db)
      returns (steps: seq<Step>)
    requires CaughtUpBy(tb, w.db, p, r) && InOrder(r) && r.settled <= w.clock
    requires InRounds(tb, key.tier) && key == RunningRound(tb, w.db.players, p, w.clock) && Sits(tb, w.db, p, key, q, wish, g, after)
    ensures Leads(tb, w, steps, w.(db := after)) && MemberKey(p, key) in after.members
    ensures Week(tb, r.due) == Week(tb, w.clock) ==> AllInOneRound(tb, steps)
  {
    steps := [];
    if MemberKey(p, key) !in w.db.members {
      var t := Step(w.clock, Joins(p, r, key, q, wish, g));
      RunExtends(tb, w, [], w, t);
      steps := [] + [t];
    }
  }

  /** Joining after a `catchUp` is a run of the system, and it ends with a membership. */
  lemma EnteringIsARun(tb: Table, w: World, p: PlayerId, r: Readings, q: bool, wish: Wish, g: GroupId, now: int, v: World)
      returns (steps: seq<Step>)
    requires SoundTable(tb) && CaughtUpBy(tb, w.db, p, r) && InOrder(r) && r.settled <= now && w.clock <= now
    requires Enters(tb, w, p, q, wish, g, now, v)
    ensures Leads(tb, w, steps, v)
    ensures InRounds(tb, w.db.players[p].tier) ==> MemberKey(p, RunningRound(tb, w.db.players, p, now)) in v.db.members
    ensures Week(tb, r.due) == Week(tb, now) ==> AllInOneRound(tb, steps)
  {
    steps := [];
    if InRounds(tb, w.db.players[p].tier) {
      var key := RunningRound(tb, w.db.players, p, now);
      var s := Step(now, Ensures(key));
      EnsuresRound(tb, w, key, now);
      var u := Next(tb, w, s);
      var more := SitsByAStep(tb, u, p, r, key, q, wish, g, v.db);
      RunsCompose(tb, w, [s], u, more, v);
      steps := [s] + more;
    }
  }

  lemma AbsenceLeavesCaughtUp(tb: Table, w: World, p: PlayerId, r: Readings, steps: seq<Step>, u: World, v: World)
    requires SoundTable(tb) && Inv(tb, w) && CatchesUp(tb, w, p, r, steps, u, v) && InOrder(r)
    ensures CaughtUpBy(tb, v.db, p, r)
  {
    CaughtUpAfter(tb, w, p, r, steps, u, v);
    NothingMissed(tb, u, p, r);
    forall m: MemberKey | m.player == p && Unsettled(v.db.groups, v.db.members, m)
      ensures r.due < End(tb, m.round)
    {
      assert Unsettled(u.db.groups, u.db.members, m);
    }
  }

  /** Both together: a start, a submit or a join takes only steps of the system. With all readings of
      the clock in one round, no step of it is late. */
  lemma EntryIsARun(tb: Table, w: World, p: PlayerId, r: Readings, steps: seq<Step>, u: World, mid: World,
                    q: bool, wish: Wish, g: GroupId, at: int, v: World) returns (all: seq<Step>)
    requires SoundTable(tb) && Inv(tb, w) && CatchesUp(tb, w, p, r, steps, u, mid)
    requires InOrder(r) && u.clock <= r.settled <= at && Enters(tb, mid, p, q, wish, g, at, v)
    ensures Leads(tb, w, all, v)
    ensures InRounds(tb, mid.db.players[p].tier) ==> MemberKey(p, RunningRound(tb, mid.db.players, p, at)) in v.db.members
    ensures Week(tb, r.due) == Week(tb, at) ==> AllInOneRound(tb, all)
  {
    AbsenceLeavesCaughtUp(tb, w, p, r, steps, u, mid);
    var s1 := CatchUpIsARun(tb, w, p, r, steps, u, mid);
    var s2 := EnteringIsARun(tb, mid, p, r, q, wish, g, at, v);
    RunsCompose(tb, w, s1, mid, s2, v);
    all := s1 + s2;
    if Week(tb, r.due) == Week(tb, at) {
      SettledInBetween(tb, r, at);
    }
  }

  lemma SettledInBetween(tb: Table, r: Readings, at: int)
    requires InOrder(r) && r.settled <= at && Week(tb, r.due) == Week(tb, at)
    ensures Week(tb, r.due) == Week(tb, r.settled)
  {
    IndexOrdered(Cfg(tb, tb.firstRound), r.due, r.settled);
    IndexOrdered(Cfg(tb, tb.firstRound), r.settled, at);
  }
}
