/** Whole transactions, one after the other: as the server runs them, they are fair runs of the system, so
    settlement is exactly once after any history of them. */
module SeasonTransactions {
  import opened Season
  import opened SeasonInvariant
  import opened SeasonOnTime
  import opened SeasonRuns
  import opened SeasonCatchUp

  /** One statement that neither charges an absence nor joins; or `catchUp`; or `catchUp` and joining the
      running round. What a transaction does after that is further transactions of the first kind, and so
      is each part of the ticker's close. */
  datatype Transaction =
    | Alone(step: Step)
    | CatchUp(p: PlayerId, read: Readings, closes: seq<Step>, closed: World)
    | Entry(p: PlayerId, read: Readings, closes: seq<Step>, closed: World, caught: World,
            quarantine: bool, wish: Wish, group: GroupId, at: int)

  ghost predicate Transacts(tb: Table, w: World, t: Transaction, v: World) {
    match t
    case Alone(s) => Enabled(tb, w, s) && !s.event.Misses? && !s.event.Joins? && v == Next(tb, w, s)
    case CatchUp(p, r, closes, u) => CatchesUp(tb, w, p, r, closes, u, v) && InOrder(r) && u.clock <= r.settled
    case Entry(p, r, closes, u, mid, q, wish, g, at) =>
      && CatchesUp(tb, w, p, r, closes, u, mid) && InOrder(r) && u.clock <= r.settled <= at
      && Enters(tb, mid, p, q, wish, g, at, v)
  }

  /** All its readings of the clock lie in one round; or a round ends just before it joins, in a tier that
      freezes absences and with nothing of the player's to settle in that round. */
  ghost predicate ReadsTogether(tb: Table, t: Transaction) {
    match t
    case Alone(s) => true
    case CatchUp(p, r, closes, u) => Week(tb, r.due) == Week(tb, r.settled)
    case Entry(p, r, closes, u, mid, q, wish, g, at) =>
      || Week(tb, r.due) == Week(tb, at)
      || (Week(tb, r.due) == Week(tb, r.settled) && p in mid.db.players && Freezes(tb, mid.db.players[p].tier)
          && CaughtUp(tb, mid.db, p, at))
  }

  // ----- each is a run in time -----

  lemma {:induction false} TimelyCompose(tb: Table, w: World, s1: seq<Step>, u: World, s2: seq<Step>)
    requires Leads(tb, w, s1, u) && AllTimely(tb, w, s1) && AllTimely(tb, u, s2)
    ensures AllTimely(tb, w, s1 + s2)
    decreases |s1|
  {
    if s1 == [] {
      assert s1 + s2 == s2;
    } else {
      TimelyCompose(tb, Next(tb, w, s1[0]), s1[1..], u, s2);
      FirstAndRest(s1, s2);
      assert (s1 + s2)[1..] == s1[1..] + s2;
    }
  }

  lemma OneTimelyStep(tb: Table, w: World, s: Step)
    requires Enabled(tb, w, s) && Timely(tb, w, s)
    ensures Leads(tb, w, [s], Next(tb, w, s)) && AllTimely(tb, w, [s])
  {
    assert [s][1..] == [];
    assert Leads(tb, Next(tb, w, s), [], Next(tb, w, s));
  }

  /** Joining across the end of a round, in a tier that freezes absences. */
  lemma LateSeat(tb: Table, w: World, p: PlayerId, r: Readings, q: bool, wish: Wish, g: GroupId, v: World)
      returns (steps: seq<Step>)
    requires CaughtUpBy(tb, w.db, p, r) && InOrder(r) && r.settled <= w.clock && v == w.(db := v.db)
    requires Freezes(tb, w.db.players[p].tier) && CaughtUp(tb, w.db, p, w.clock) && InRounds(tb, w.db.players[p].tier)
    requires Sits(tb, w.db, p, RunningRound(tb, w.db.players, p, w.clock), q, wish, g, v.db)
    ensures Leads(tb, w, steps, v) && AllTimely(tb, w, steps)
  {
    var key := RunningRound(tb, w.db.players, p, w.clock);
    steps := [];
    if MemberKey(p, key) !in w.db.members {
      steps := [Step(w.clock, Joins(p, r, key, q, wish, g))];
      OneTimelyStep(tb, w, steps[0]);
    }
  }

  lemma LateEntry(tb: Table, w: World, p: PlayerId, r: Readings, q: bool, wish: Wish, g: GroupId, at: int, v: World)
      returns (steps: seq<Step>)
    requires SoundTable(tb) && CaughtUpBy(tb, w.db, p, r) && InOrder(r) && r.settled <= at && w.clock <= at
    requires Freezes(tb, w.db.players[p].tier) && CaughtUp(tb, w.db, p, at)
    requires Enters(tb, w, p, q, wish, g, at, v)
    ensures Leads(tb, w, steps, v) && AllTimely(tb, w, steps)
  {
    steps := [];
    if InRounds(tb, w.db.players[p].tier) {
      var key := RunningRound(tb, w.db.players, p, at);
      var s := Step(at, Ensures(key));
      EnsuresRound(tb, w, key, at);
      OneTimelyStep(tb, w, s);
      var more := LateSeat(tb, Next(tb, w, s), p, r, q, wish, g, v);
      RunsCompose(tb, w, [s], Next(tb, w, s), more, v);
      TimelyCompose(tb, w, [s], Next(tb, w, s), more);
      steps := [s] + more;
    }
  }

  lemma EntryIsTimely(tb: Table, w: World, t: Transaction, v: World) returns (steps: seq<Step>)
    requires SoundTable(tb) && Inv(tb, w) && t.Entry? && Transacts(tb, w, t, v) && ReadsTogether(tb, t)
    ensures Leads(tb, w, steps, v) && AllTimely(tb, w, steps)
  {
    var Entry(p, r, closes, u, mid, q, wish, g, at) := t;
    if Week(tb, r.due) == Week(tb, at) {
      steps := EntryIsARun(tb, w, p, r, closes, u, mid, q, wish, g, at, v);
      ReadInOneRound(tb, w, steps, v);
    } else {
      var s1 := CatchUpIsARun(tb, w, p, r, closes, u, mid);
      ReadInOneRound(tb, w, s1, mid);
      AbsenceLeavesCaughtUp(tb, w, p, r, closes, u, mid);
      var s2 := LateEntry(tb, mid, p, r, q, wish, g, at, v);
      RunsCompose(tb, w, s1, mid, s2, v);
      TimelyCompose(tb, w, s1, mid, s2);
      steps := s1 + s2;
    }
  }

  lemma TransactionIsTimely(tb: Table, w: World, t: Transaction, v: World) returns (steps: seq<Step>)
    requires SoundTable(tb) && Inv(tb, w) && Transacts(tb, w, t, v) && ReadsTogether(tb, t)
    ensures Leads(tb, w, steps, v) && AllTimely(tb, w, steps)
  {
    match t
    case Alone(s) =>
      steps := [s];
      OneTimelyStep(tb, w, s);
    case CatchUp(p, r, closes, u) =>
      steps := CatchUpIsARun(tb, w, p, r, closes, u, v);
      ReadInOneRound(tb, w, steps, v);
    case Entry(p, r, closes, u, mid, q, wish, g, at) =>
      steps := EntryIsTimely(tb, w, t, v);
  }

  // ----- and so is every history -----

  /** The worlds between the transactions of a history. */
  ghost predicate History(tb: Table, worlds: seq<World>, ts: seq<Transaction>) {
    && |worlds| == |ts| + 1
    && forall i :: 0 <= i < |ts| ==> Transacts(tb, worlds[i], ts[i], worlds[i + 1]) && ReadsTogether(tb, ts[i])
  }

  lemma {:induction false} HistoryIsARun(tb: Table, clock: int, worlds: seq<World>, ts: seq<Transaction>, n: nat)
      returns (steps: seq<Step>)
    requires SoundTable(tb) && History(tb, worlds, ts) && worlds[0] == EmptyLeague(clock) && n <= |ts|
    ensures Leads(tb, EmptyLeague(clock), steps, worlds[n]) && AllTimely(tb, EmptyLeague(clock), steps)
  {
    EmptyIsSound(tb, clock);
    if n == 0 {
      steps := [];
    } else {
      var before := HistoryIsARun(tb, clock, worlds, ts, n - 1);
      RunKeeps(tb, EmptyLeague(clock), before, worlds[n - 1]);
      var more := TransactionIsTimely(tb, worlds[n - 1], ts[n - 1], worlds[n]);
      RunsCompose(tb, EmptyLeague(clock), before, worlds[n - 1], more, worlds[n]);
      TimelyCompose(tb, EmptyLeague(clock), before, worlds[n - 1], more);
      steps := before + more;
    }
  }

  /** After any number of transactions, each with its clock readings in one round: a member of an open
      group has no summary of that round, a member of a closed one has exactly one, with the outcome of
      their verdict and one tier move applied for it; and nobody has two memberships to settle. */
  lemma HistorySettlesOnce(tb: Table, clock: int, worlds: seq<World>, ts: seq<Transaction>, n: nat, m: MemberKey)
    requires SoundTable(tb) && History(tb, worlds, ts) && worlds[0] == EmptyLeague(clock) && n <= |ts|
    requires m in worlds[n].db.members
    ensures var v, s := worlds[n], SummaryKey(m.player, m.round, ReasonRound);
      var g := v.db.members[m].group;
      && g in v.db.groups
      && (v.db.groups[g].open <==> s !in v.db.summaries)
      && TimesApplied(v.applied, s) == (if v.db.groups[g].open then 0 else 1)
      && (!v.db.groups[g].open ==> v.db.summaries[s].outcome == OutcomeOf(v.db.members[m].verdict))
    ensures var db := worlds[n].db;
      forall o :: BothUnsettled(db.groups, db.members, m, o) ==>
        o == m && m.player in db.players && db.players[m.player].tier == m.round.tier
  {
    var steps := HistoryIsARun(tb, clock, worlds, ts, n);
    EmptyIsSound(tb, clock);
    var v := worlds[n];
    SettledExactlyOnce(tb, clock, steps, v, m);
    forall o | BothUnsettled(v.db.groups, v.db.members, m, o)
      ensures o == m && m.player in v.db.players && v.db.players[m.player].tier == m.round.tier
    {
      AtMostOneToSettle(tb, clock, steps, v, m, o);
    }
  }
}
