/** The tables as a mutable store, and the service's transactions as methods over it. Every method
    says which steps of the transition system it takes. */
module SeasonStore {
  import opened Tiers
  import opened Standings
  import opened GroupIds
  import opened Season
  import opened SeasonInvariant
  import opened SeasonRuns
  import opened SeasonCatchUp
  import opened SeasonSettling

  // ----- in the middle of closing a round -----

  /** The steps so far are closing steps of the round, which is claimed; `gs` holds the groups that
      may still be open. */
  ghost predicate MidClose(tb: Table, was: World, w: World, key: RoundKey, gs: seq<GroupId>, steps: seq<Step>, now: int) {
    && Leads(tb, was, steps, w) && AllClosing(steps, key, now) && OnlyCloses(was.db, w.db)
    && key in w.db.rounds && w.db.rounds[key].state != Open
    && (forall g :: g in w.db.groups && g.round == key && w.db.groups[g].open ==> g in gs)
    && (forall g :: g in gs ==> g in w.db.groups && g.round == key)
  }

  /** One closing step more. */
  lemma CloseExtends(tb: Table, was: World, w: World, key: RoundKey, steps: seq<Step>, s: Step, now: int)
    requires Leads(tb, was, steps, w) && AllClosing(steps, key, now) && OnlyCloses(was.db, w.db)
    requires Enabled(tb, w, s) && ClosingStep(s, key) && s.now == now
    ensures var v := Next(tb, w, s);
      Leads(tb, was, steps + [s], v) && AllClosing(steps + [s], key, now) && OnlyCloses(was.db, v.db)
  {
    RunExtends(tb, was, steps, w, s);
    ClosingOnlyCloses(tb, w, s, key);
    OnlyClosesTransitive(was.db, w.db, Next(tb, w, s).db);
  }

  lemma GroupClosed(tb: Table, was: World, w: World, key: RoundKey, gs: seq<GroupId>, steps: seq<Step>, now: int, vs: Verdicts)
    requires gs != [] && MidClose(tb, was, w, key, gs, steps, now) && Enabled(tb, w, Step(now, Closes(gs[0], vs)))
    ensures var s := Step(now, Closes(gs[0], vs));
      MidClose(tb, was, Next(tb, w, s), key, gs[1..], steps + [s], now)
      && SameGroups(w.db.members, Next(tb, w, s).db.members)
  {
    var s := Step(now, Closes(gs[0], vs));
    CloseExtends(tb, was, w, key, steps, s, now);
    ClosingOnlyCloses(tb, w, s, key);
    assert gs == [gs[0]] + gs[1..];
  }

  /** The bots of each group fit it. */
  ghost predicate BotsReady(tb: Table, members: Members, bots: map<GroupId, seq<Entry>>) {
    forall g :: g in bots ==> BotsFit(tb, members, g, bots[g])
  }

  function BotsOf(bots: map<GroupId, seq<Entry>>, g: GroupId): seq<Entry> {
    if g in bots then bots[g] else []
  }

  /** A group is judged with its own bots. */
  ghost predicate UsesBots(tb: Table, w: World, s: Step, bots: map<GroupId, seq<Entry>>) {
    s.event.Closes? && s.event.group in w.db.groups && s.event.group.round in w.db.rounds && w.db.groups[s.event.group].open ==>
      JudgedWith(tb, w.db, s.event.group, BotsOf(bots, s.event.group), s.event.verdicts)
  }

  /** In step i of a run. */
  ghost predicate BotsUsedAt(tb: Table, was: World, steps: seq<Step>, bots: map<GroupId, seq<Entry>>, i: nat)
    requires i < |steps|
  {
    forall w :: Leads(tb, was, steps[..i], w) ==> UsesBots(tb, w, steps[i], bots)
  }

  /** In every step of it. */
  ghost predicate BotsUsed(tb: Table, was: World, steps: seq<Step>, bots: map<GroupId, seq<Entry>>) {
    forall i :: 0 <= i < |steps| ==> BotsUsedAt(tb, was, steps, bots, i)
  }

  /** The rest of a run starts where its beginning ends. */
  lemma {:induction false} LeadsOn(tb: Table, was: World, steps: seq<Step>, w: World, more: seq<Step>, v: World)
    requires Leads(tb, was, steps, w) && Leads(tb, was, steps + more, v)
    ensures Leads(tb, w, more, v)
    decreases |steps|
  {
    if steps == [] {
      assert steps + more == more;
    } else {
      assert (steps + more)[0] == steps[0] && (steps + more)[1..] == steps[1..] + more;
      LeadsOn(tb, Next(tb, was, steps[0]), steps[1..], w, more, v);
    }
  }

  lemma BotsCompose(tb: Table, was: World, steps: seq<Step>, w: World, more: seq<Step>, bots: map<GroupId, seq<Entry>>)
    requires Leads(tb, was, steps, w) && BotsUsed(tb, was, steps, bots) && BotsUsed(tb, w, more, bots)
    ensures BotsUsed(tb, was, steps + more, bots)
  {
    forall i | 0 <= i < |steps + more|
      ensures BotsUsedAt(tb, was, steps + more, bots, i)
    {
      if i < |steps| {
        BotsOfFirst(tb, was, steps, more, bots, i);
      } else {
        BotsOfRest(tb, was, steps, w, more, bots, i);
      }
    }
  }

  lemma BotsOfFirst(tb: Table, was: World, steps: seq<Step>, more: seq<Step>, bots: map<GroupId, seq<Entry>>, i: nat)
    requires i < |steps| && BotsUsedAt(tb, was, steps, bots, i)
    ensures BotsUsedAt(tb, was, steps + more, bots, i)
  {
    assert (steps + more)[..i] == steps[..i] && (steps + more)[i] == steps[i];
  }

  lemma BotsOfRest(tb: Table, was: World, steps: seq<Step>, w: World, more: seq<Step>, bots: map<GroupId, seq<Entry>>, i: nat)
    requires Leads(tb, was, steps, w) && |steps| <= i < |steps + more| && BotsUsedAt(tb, w, more, bots, i - |steps|)
    ensures BotsUsedAt(tb, was, steps + more, bots, i)
  {
    var rest := more[..i - |steps|];
    assert (steps + more)[..i] == steps + rest && (steps + more)[i] == more[i - |steps|];
    forall v | Leads(tb, was, steps + rest, v)
      ensures UsesBots(tb, v, more[i - |steps|], bots)
    {
      LeadsOn(tb, was, steps, w, rest, v);
    }
  }

  lemma BotsExtend(tb: Table, was: World, steps: seq<Step>, w: World, s: Step, bots: map<GroupId, seq<Entry>>)
    requires Leads(tb, was, steps, w) && BotsUsed(tb, was, steps, bots) && UsesBots(tb, w, s, bots)
    ensures BotsUsed(tb, was, steps + [s], bots)
  {
    assert [s][..0] == [];
    assert BotsUsedAt(tb, w, [s], bots, 0);
    BotsCompose(tb, was, steps, w, [s], bots);
  }

  lemma BotsStillFit(tb: Table, members: Members, after: Members, bots: map<GroupId, seq<Entry>>, g: GroupId)
    requires SameGroups(members, after) && BotsReady(tb, members, bots)
    ensures BotsFit(tb, after, g, BotsOf(bots, g))
  {
  }

  lemma BotsStillReady(tb: Table, members: Members, after: Members, bots: map<GroupId, seq<Entry>>)
    requires SameGroups(members, after) && BotsReady(tb, members, bots)
    ensures BotsReady(tb, after, bots)
  {
    forall g | g in bots
      ensures BotsFit(tb, after, g, bots[g])
    {
      BotsStillFit(tb, members, after, bots, g);
    }
  }

  lemma ClaimStarts(tb: Table, was: World, key: RoundKey, now: int)
    requires Enabled(tb, was, Step(now, Claims(key)))
    ensures var s := Step(now, Claims(key));
      var v := Next(tb, was, s);
      && Leads(tb, was, [s], v) && AllClosing([s], key, now) && OnlyCloses(was.db, v.db)
      && key in v.db.rounds && v.db.rounds[key].state != Open && v.db.members == was.db.members
  {
    var s := Step(now, Claims(key));
    assert [] + [s] == [s];
    CloseExtends(tb, was, was, key, [], s, now);
  }

  /** Seeing no open group, and finishing the round. */
  lemma CloseEnds(tb: Table, was: World, u: World, v: World, key: RoundKey, steps: seq<Step>, now: int)
    requires Leads(tb, was, steps, u) && AllClosing(steps, key, now) && OnlyCloses(was.db, u.db)
    requires var s := Step(now, SeesNoGroup(key));
      Enabled(tb, u, s) && v == Next(tb, u, s) && Enabled(tb, v, Step(now, Finishes(key)))
    ensures var all := steps + [Step(now, SeesNoGroup(key))] + [Step(now, Finishes(key))];
      var end := Next(tb, v, Step(now, Finishes(key)));
      Leads(tb, was, all, end) && AllClosing(all, key, now) && OnlyCloses(was.db, end.db)
  {
    CloseExtends(tb, was, u, key, steps, Step(now, SeesNoGroup(key)), now);
    CloseExtends(tb, was, v, key, steps + [Step(now, SeesNoGroup(key))], Step(now, Finishes(key)), now);
  }

  lemma BotsAtTheEnd(tb: Table, was: World, u: World, v: World, key: RoundKey, steps: seq<Step>, now: int,
                     bots: map<GroupId, seq<Entry>>)
    requires Leads(tb, was, steps, u) && BotsUsed(tb, was, steps, bots)
    requires var s := Step(now, SeesNoGroup(key)); Enabled(tb, u, s) && v == Next(tb, u, s)
    ensures BotsUsed(tb, was, steps + [Step(now, SeesNoGroup(key))] + [Step(now, Finishes(key))], bots)
  {
    BotsExtend(tb, was, steps, u, Step(now, SeesNoGroup(key)), bots);
    RunExtends(tb, was, steps, u, Step(now, SeesNoGroup(key)));
    BotsExtend(tb, was, steps + [Step(now, SeesNoGroup(key))], v, Step(now, Finishes(key)), bots);
  }

  // ----- in the middle of catching up -----

  /** Of the rounds due at first, those not in `due` are closed. */
  ghost predicate DueLeft(was: Db, db: Db, t: nat, due: seq<RoundKey>, now: int) {
    && (forall k :: k in due ==> IsDue(was.rounds, t, now, k))
    && (forall k :: IsDue(was.rounds, t, now, k) ==> k in due || (k in db.rounds && db.rounds[k].state == Closed))
  }

  ghost predicate MidCatchUp(tb: Table, was: World, w: World, t: nat, due: seq<RoundKey>, steps: seq<Step>, now: int) {
    && Leads(tb, was, steps, w) && OnlyCloses(was.db, w.db) && DueLeft(was.db, w.db, t, due, now)
    && AllClosesDue(was.db.rounds, t, now, steps)
  }

  lemma OneDueLess(was: Db, w: Db, v: Db, t: nat, due: seq<RoundKey>, now: int)
    requires DueLeft(was, w, t, due, now) && due != [] && OnlyCloses(w, v)
    requires due[0] in v.rounds && v.rounds[due[0]].state == Closed
    ensures DueLeft(was, v, t, due[1..], now)
  {
    assert due == [due[0]] + due[1..];
    forall k | IsDue(was.rounds, t, now, k)
      ensures k in due[1..] || (k in v.rounds && v.rounds[k].state == Closed)
    {
      assert k in w.rounds && w.rounds[k].state == Closed ==> Age(w.rounds[k].state) <= Age(v.rounds[k].state);
    }
  }

  lemma MoreClosesDue(rounds: Rounds, t: nat, now: int, steps: seq<Step>, more: seq<Step>, k: RoundKey)
    requires AllClosesDue(rounds, t, now, steps) && AllClosing(more, k, now) && IsDue(rounds, t, now, k)
    ensures AllClosesDue(rounds, t, now, steps + more)
  {
    forall i | 0 <= i < |more|
      ensures ClosesSomeDue(rounds, t, now, more[i])
    {
      assert ClosesDueRound(rounds, t, now, more[i], k);
    }
  }

  lemma DueRoundClosed(tb: Table, was: World, w: World, t: nat, due: seq<RoundKey>, steps: seq<Step>, now: int, v: World, more: seq<Step>)
    requires MidCatchUp(tb, was, w, t, due, steps, now) && due != []
    requires Leads(tb, w, more, v) && AllClosing(more, due[0], now) && OnlyCloses(w.db, v.db)
    requires due[0] in v.db.rounds && v.db.rounds[due[0]].state == Closed
    ensures MidCatchUp(tb, was, v, t, due[1..], steps + more, now)
  {
    RunsCompose(tb, was, steps, w, more, v);
    OnlyClosesTransitive(was.db, w.db, v.db);
    OneDueLess(was.db, w.db, v.db, t, due, now);
    MoreClosesDue(was.db.rounds, t, now, steps, more, due[0]);
  }

  // ----- in the middle of joining -----

  /** A group `FriendGroups` lists. */
  predicate HoldsFriend(tb: Table, db: Db, key: RoundKey, q: bool, friends: set<PlayerId>, g: GroupId) {
    && g in db.groups && g.round == key && db.groups[g].open && db.groups[g].quarantine == q
    && db.groups[g].capacity.Limited? && db.groups[g].count < tb.groupMax
    && exists f :: f in friends && MemberKey(f, key) in db.members
         && db.members[MemberKey(f, key)].group == g && !db.members[MemberKey(f, key)].left
  }

  /** The first group with a friend in it, in the order of the query, or none. */
  ghost predicate FirstFriends(tb: Table, db: Db, key: RoundKey, q: bool, friends: set<PlayerId>, wish: Wish) {
    && (wish.Wish? ==> HoldsFriend(tb, db, key, q, friends, wish.group))
    && (forall g :: HoldsFriend(tb, db, key, q, friends, g) ==>
          wish.Wish? && (g == wish.group || SortsFirst(db.groups, wish.group, g)))
  }

  /** What a player without a seat asks for: the group they picked, else the first with a friend in it. */
  ghost predicate AsksFor(tb: Table, db: Db, p: PlayerId, key: RoundKey, q: bool, friends: set<PlayerId>, prefer: Wish, wish: Wish) {
    MemberKey(p, key) !in db.members ==>
      if prefer.Wish? then wish == prefer else FirstFriends(tb, db, key, q, friends, wish)
  }

  /** Into the running round, with that wish. */
  ghost predicate EntersAsking(tb: Table, w: World, p: PlayerId, q: bool, friends: set<PlayerId>, prefer: Wish, at: int,
                               wish: Wish, g: GroupId, v: World) {
    && Enters(tb, w, p, q, wish, g, at, v)
    && (HasRounds(Cfg(tb, w.db.players[p].tier)) ==>
          AsksFor(tb, w.db, p, RunningRound(tb, w.db.players, p, at), q, friends, prefer, wish))
  }

  /** The checks of a join request: the tier has rounds, and a picked group is on offer, unless the
      player already sits in one. A global tier offers none. The options are those of the round running
      when they are listed. */
  predicate MayJoin(tb: Table, db: Db, p: PlayerId, q: bool, friends: set<PlayerId>, pick: Wish, at: int, listed: int)
    requires p in db.players
  {
    var key := RunningRound(tb, db.players, p, listed);
    && HasRounds(Cfg(tb, key.tier))
    && (pick.Wish? ==>
          !Cfg(tb, key.tier).global && (MemberKey(p, key) in db.members || HoldsFriend(tb, db, key, q, friends, pick.group)))
  }

  /** What a join request that passes them does to the round running at `at`. */
  ghost predicate JoinsPicked(tb: Table, w: World, p: PlayerId, q: bool, friends: set<PlayerId>, pick: Wish, at: int,
                              wish: Wish, g: GroupId, v: World)
    requires p in w.db.players
  {
    if pick.Wish? && MemberKey(p, RunningRound(tb, w.db.players, p, at)) in w.db.members then v == w
    else EntersAsking(tb, w, p, q, friends, pick, at, wish, g, v)
  }

  /** No group and no membership belongs to a round that has not begun. */
  ghost predicate NothingAhead(tb: Table, db: Db, now: int) {
    && GroupsOk(tb, db.rounds, db.groups) && MembersOk(db.players, db.groups, db.members)
    && forall k :: k in db.rounds ==> k.index <= Index(tb, k.tier, now)
  }

  lemma NothingAheadNow(tb: Table, u: World, at: int)
    requires TablesOk(tb, u) && u.clock <= at
    ensures NothingAhead(tb, u.db, at)
  {
    RoundsTick(tb, u.db.rounds, u.clock, at);
  }

  lemma NobodyAhead(tb: Table, u: World, p: PlayerId, r: Readings, at: int)
    requires p in u.db.players && NothingAhead(tb, u.db, at)
    ensures NothingAhead(tb, AfterAbsence(tb, u, p, r).db, at)
  {
  }

  /** So options listed after a round has ended are none: a pick on offer, and a seat found, are of the
      round to join. */
  lemma ListedIsRunning(tb: Table, db: Db, p: PlayerId, q: bool, friends: set<PlayerId>, pick: Wish, at: int, listed: int)
    requires p in db.players && NothingAhead(tb, db, at) && at <= listed && pick.Wish?
    requires MayJoin(tb, db, p, q, friends, pick, at, listed)
    ensures RunningRound(tb, db.players, p, listed) == RunningRound(tb, db.players, p, at)
  {
    IndexOrdered(Cfg(tb, db.players[p].tier), at, listed);
    var key := RunningRound(tb, db.players, p, listed);
    assert key in db.rounds;
  }

  lemma OneStepRun(tb: Table, w: World, s: Step)
    requires Enabled(tb, w, s)
    ensures Leads(tb, w, [s], Next(tb, w, s))
  {
    RunExtends(tb, w, [], w, s);
    assert [] + [s] == [s];
  }

  lemma GameSteps(tb: Table, was: World, s: Step, scored: World, promotes: bool, last: Step, v: World)
    requires Enabled(tb, was, s) && scored == Next(tb, was, s) && Leads(tb, scored, if promotes then [last] else [], v)
    ensures Leads(tb, was, if promotes then [s, last] else [s], v)
  {
    OneStepRun(tb, was, s);
    RunsCompose(tb, was, [s], scored, if promotes then [last] else [], v);
    assert [s] + [last] == [s, last] && [s] + [] == [s];
  }

  /** With the stored capacity equal to the random-fill size, a group found is a group with room. */
  lemma FillableHasRoom(tb: Table, db: Db, key: RoundKey, q: bool, h: GroupId)
    requires GroupsOk(tb, db.rounds, db.groups) && Fillable(db.groups, key, q, h)
    ensures HasRoom(db.groups[h], tb.groupSize)
  {
  }

  lemma NextSeqIsFree(tb: Table, db: Db, key: RoundKey)
    requires GroupsOk(tb, db.rounds, db.groups) && key in db.rounds
    ensures GroupId(key, db.rounds[key].groupSeq + 1) !in db.groups
  {
  }

  /** Of two groups of a round one sorts first. */
  lemma SortsOneWay(groups: Groups, g: GroupId, h: GroupId)
    requires g in groups && h in groups && g.round == h.round
    ensures g != h ==> (SortsFirst(groups, g, h) <==> !SortsFirst(groups, h, g))
  {
    if g != h {
      IdsApart(g.seqNo, h.seqNo);
    }
  }

  lemma SortsOnwards(groups: Groups, f: GroupId, g: GroupId)
    requires f in groups && g in groups && SortsFirst(groups, f, g)
    ensures forall h :: h in groups && SortsFirst(groups, g, h) ==> SortsFirst(groups, f, h)
  {
    forall h | h in groups && SortsFirst(groups, g, h)
      ensures SortsFirst(groups, f, h)
    {
      if IdBefore(f.seqNo, g.seqNo) && IdBefore(g.seqNo, h.seqNo) {
        IdsOnward(f.seqNo, g.seqNo, h.seqNo);
      }
    }
  }

  /** So where a player is placed is determined, whatever order rows come in. */
  lemma OnePlacement(tb: Table, db: Db, key: RoundKey, q: bool, wish: Wish, g: GroupId, h: GroupId)
    requires Placement(tb, db, key, q, wish, g) && Placement(tb, db, key, q, wish, h)
    ensures g == h
  {
    if IsFullest(db.groups, key, q, g) && IsFullest(db.groups, key, q, h) {
      SortsOneWay(db.groups, g, h);
    }
  }

  // ----- the store -----

  class League {
    const tb: Table
    var players: Players
    var rounds: Rounds
    var groups: Groups
    var members: Members
    var summaries: Summaries
    ghost var clock: int
    ghost var drained: set<RoundKey>
    ghost var applied: map<SummaryKey, nat>

    constructor (tb: Table, ghost now: int)
      ensures this.tb == tb && W() == EmptyLeague(now)
    {
      this.tb := tb;
      players, rounds, groups, members, summaries := map[], map[], map[], map[], map[];
      clock, drained, applied := now, {}, map[];
    }

    function Tables(): Db
      reads this
    {
      Db(players, rounds, groups, members, summaries)
    }

    ghost function W(): World
      reads this
    {
      World(Tables(), clock, drained, applied)
    }

    ghost predicate Consistent(now: int)
      reads this
    {
      SoundTable(tb) && Inv(tb, W()) && clock <= now
    }

    // ----- repository statements -----

    method SetMemberOutcome(m: MemberKey, rank: nat, zone: Zone)
      modifies `members
      ensures members == if m in old(members) then old(members)[m := old(members)[m].(verdict := Decided(rank, zone))] else old(members)
    {
      if m in members {
        members := members[m := members[m].(verdict := Decided(rank, zone))];
      }
    }

    /** On conflict do nothing. */
    method InsertSummary(s: SummaryKey, sum: Summary) returns (inserted: bool)
      modifies `summaries
      ensures inserted <==> s !in old(summaries)
      ensures summaries == if s in old(summaries) then old(summaries) else old(summaries)[s := sum]
    {
      inserted := s !in summaries;
      if inserted {
        summaries := summaries[s := sum];
      }
    }

    /** Guarded on the current tier. */
    method SetTier(p: PlayerId, from: nat, to: nat, settled: int) returns (ok: bool)
      modifies `players
      ensures ok <==> p in old(players) && old(players)[p].tier == from
      ensures players == if ok then old(players)[p := Moved(old(players)[p], to, settled)] else old(players)
    {
      ok := p in players && players[p].tier == from;
      if ok {
        if from == to {
          players := players[p := players[p].(settled := settled)];
        } else {
          players := players[p := Player(to, 0, settled)];
        }
      }
    }

    // ----- closing a group -----

    /** Some members of the group have their verdict, some their summary and tier. */
    ghost predicate Partly(was: World, g: GroupId, vs: Verdicts, done: set<PlayerId>, settled: set<PlayerId>, endsAt: int)
      reads this
    {
      && players == PlayersAfter(tb, was.db, g.round, vs, settled, endsAt)
      && summaries == SummariesAfter(tb, was.db, g.round, vs, settled)
      && members == MembersAfter(was.db.members, g, vs, done)
      && applied == AppliedOnce(was.applied, HitKeysOf(was.db, g.round, settled))
    }

    /** One turn of the closer's loop over the evaluated members. */
    method SettleMember(x: Placed, g: GroupId, endsAt: int, ghost was: World, ghost vs: Verdicts,
                        ghost done: set<PlayerId>, ghost settled: set<PlayerId>)
      requires settled <= done && Closable(tb, was.db, g) && TurnOf(was.db, g, x, vs, done)
      requires Partly(was, g, vs, done, settled, endsAt)
      modifies `players, `members, `summaries, `applied
      ensures Partly(was, g, vs, done + {PlayerId(x.entry.player)},
                     if x.entry.left then settled else settled + {PlayerId(x.entry.player)}, endsAt)
    {
      var p := PlayerId(x.entry.player);
      var key := g.round;
      OneMoreVerdict(was.db.members, g, vs, done, MemberKey(p, key));
      SetMemberOutcome(MemberKey(p, key), x.rank, x.zone);
      if x.entry.left {
        return;
      }
      OneMoreSummary(tb, was.db, key, vs, settled, p);
      OneMorePlayer(tb, was.db, key, vs, settled, p, endsAt);
      OneMoreHit(was.db, key, was.applied, settled, p);
      var outcome := OutcomeForZone(x.zone);
      var after := Apply(tb.tiers, key.tier, outcome);
      var pl := players[p];
      var inserted := InsertSummary(SummaryKey(p, key, ReasonRound),
                                    Summary(after, outcome, x.rank, members[MemberKey(p, key)].score, pl.points));
      if !inserted {
        return;
      }
      var ok := SetTier(p, key.tier, after, Start(tb, after, Index(tb, after, endsAt)));
      if ok {
        applied := AppliedOnce(applied, {SummaryKey(p, key, ReasonRound)});
      }
    }

    /** The people of a group plus its bots. */
    method GroupMembers(g: GroupId, bots: seq<Entry>) returns (entries: seq<Entry>)
      requires BotsApart(members, bots)
      requires forall n :: n in members && members[n].group == g ==> n.round == g.round
      ensures EntriesOf(members, g, bots, entries) && forall e :: e in bots ==> e in entries
    {
      entries := bots;
      var todo := set m | m in members && members[m].group == g;
      while todo != {}
        invariant Collected(members, g, bots, entries, todo)
        decreases |todo|
      {
        var m :| m in todo;
        CollectOne(members, g, bots, entries, todo, m);
        entries := entries + [EntryOf(m.player, members[m])];
        todo := todo - {m};
      }
    }

    /** The evaluation the closer settles by. */
    method EvaluateGroup(g: GroupId, bots: seq<Entry>) returns (ev: Evaluation, ghost ranked: seq<Entry>)
      requires BotsApart(members, bots) && g.round in rounds
      requires forall n :: n in members && members[n].group == g ==> n.round == g.round
      ensures GroupRanking(members, g, ranked) && WithBots(ranked, bots)
      ensures ev == EvaluationOf(ranked, Cfg(tb, g.round.tier).rule, tb.minGroupSize, rounds[g.round].upCount)
    {
      var entries := GroupMembers(g, bots);
      ev := Evaluate(entries, Cfg(tb, g.round.tier).rule, tb.minGroupSize, rounds[g.round].upCount);
      ranked :| RankingOf(ranked, entries) &&
        ev == EvaluationOf(ranked, Cfg(tb, g.round.tier).rule, tb.minGroupSize, rounds[g.round].upCount);
      RankedEntries(members, g, bots, entries, ranked);
    }

    method SettleTurn(placed: seq<Placed>, i: nat, g: GroupId, endsAt: int, ghost was: World, ghost ranked: seq<Entry>)
      requires i < |placed| && Settling(tb, was.db, g, ranked, placed)
      requires Partly(was, g, VerdictsOf(placed), PeopleIn(placed[..i]), StayingIn(placed[..i]), endsAt)
      modifies `players, `members, `summaries, `applied
      ensures Partly(was, g, VerdictsOf(placed), PeopleIn(placed[..i + 1]), StayingIn(placed[..i + 1]), endsAt)
    {
      OneMorePlaced(placed, i);
      if !placed[i].entry.bot {
        NextTurn(tb, was.db, g, ranked, placed, i);
        SettleMember(placed[i], g, endsAt, was, VerdictsOf(placed), PeopleIn(placed[..i]), StayingIn(placed[..i]));
      }
    }

    /** `closeGroup`: claim the group, evaluate it with its bots, settle everybody in it. */
    method CloseGroup(g: GroupId, bots: seq<Entry>, now: int) returns (ghost vs: Verdicts)
      requires Consistent(now) && g in groups && rounds[g.round].state != Open && BotsFit(tb, members, g, bots)
      modifies this
      ensures old(groups)[g].open ==> JudgedWith(tb, old(Tables()), g, bots, vs)
      ensures Enabled(tb, old(W()), Step(now, Closes(g, vs)))
      ensures W() == Next(tb, old(W()), Step(now, Closes(g, vs)))
      ensures Consistent(now)
    {
      ghost var was := W();
      OpenIsClosable(tb, W(), g);
      vs := TakeClosingStep(g, bots, now);
      StepKeeps(tb, was, Step(now, Closes(g, vs)));
    }

    method TakeClosingStep(g: GroupId, bots: seq<Entry>, now: int) returns (ghost vs: Verdicts)
      requires clock <= now && g in groups && g.round in rounds && rounds[g.round].state != Open
      requires (groups[g].open ==> Closable(tb, Tables(), g)) && BotsFit(tb, members, g, bots)
      modifies this
      ensures old(groups)[g].open ==> JudgedWith(tb, old(Tables()), g, bots, vs)
      ensures Enabled(tb, old(W()), Step(now, Closes(g, vs)))
      ensures W() == Next(tb, old(W()), Step(now, Closes(g, vs)))
    {
      vs := ClaimAndSettle(g, bots);
      clock := now;
    }

    /** The claim comes first: a group already closed is skipped. */
    method ClaimAndSettle(g: GroupId, bots: seq<Entry>) returns (ghost vs: Verdicts)
      requires g in groups && g.round in rounds && (groups[g].open ==> Closable(tb, Tables(), g)) && BotsFit(tb, members, g, bots)
      modifies `players, `groups, `members, `summaries, `applied
      ensures old(groups)[g].open ==> JudgedWith(tb, old(Tables()), g, bots, vs)
      ensures Tables() == Season.CloseGroup(tb, old(Tables()), g, vs)
      ensures applied == if old(groups)[g].open then AppliedOnce(old(applied), HitKeys(old(Tables()), g)) else old(applied)
    {
      if groups[g].open {
        vs := SettleGroup(g, bots);
      } else {
        vs := map[];
      }
    }

    /** The loop: afterwards everybody in the group has had their turn. */
    method SettleAll(placed: seq<Placed>, g: GroupId, endsAt: int, ghost was: World, ghost ranked: seq<Entry>)
      requires Settling(tb, was.db, g, ranked, placed) && Partly(was, g, VerdictsOf(placed), {}, {}, endsAt)
      modifies `players, `members, `summaries, `applied
      ensures Partly(was, g, VerdictsOf(placed), InGroup(was.db.members, g), Staying(was.db.members, g), endsAt)
    {
      assert PeopleIn(placed[..0]) == {} && StayingIn(placed[..0]) == {};
      for i := 0 to |placed|
        invariant Partly(was, g, VerdictsOf(placed), PeopleIn(placed[..i]), StayingIn(placed[..i]), endsAt)
      {
        SettleTurn(placed, i, g, endsAt, was, ranked);
      }
      AllPlaced(was.db.members, g, ranked, placed);
      assert placed[..|placed|] == placed;
    }

    method SettleGroup(g: GroupId, bots: seq<Entry>) returns (ghost vs: Verdicts)
      requires Closable(tb, Tables(), g) && BotsFit(tb, members, g, bots)
      modifies `players, `groups, `members, `summaries, `applied
      ensures JudgedWith(tb, old(Tables()), g, bots, vs)
      ensures Tables() == Season.CloseGroup(tb, old(Tables()), g, vs)
      ensures applied == AppliedOnce(old(applied), HitKeys(old(Tables()), g))
    {
      ghost var was := W();
      groups := groups[g := groups[g].(open := false)];
      var endsAt := rounds[g.round].endsAt;
      var ev, ranked := EvaluateGroup(g, bots);
      vs := VerdictsOf(ev.members);
      EvaluationJudges(tb, was.db, g, ranked, ev);
      assert JudgedAs(tb, was.db, g, ranked, vs) && WithBots(ranked, bots);
      NobodySettled(tb, was.db, g, g.round, vs, endsAt, applied);
      SettleAll(ev.members, g, endsAt, was, ranked);
    }

    // ----- claiming and finishing rounds -----

    method CountByTier(tier: nat) returns (n: nat)
      ensures n == Population(players, tier)
    {
      n := |set p | p in players && players[p].tier == tier|;
    }

    method RoundEndingAt(tier: nat, endsAt: int) returns (found: bool, k: RoundKey)
      ensures found ==> IsRoundEndingAt(rounds, tier, endsAt, k)
      ensures !found ==> forall j :: !EndsThen(rounds, tier, endsAt, j)
    {
      var todo := set j | j in rounds && EndsThen(rounds, tier, endsAt, j);
      found, k := false, RoundKey(tier, 0);
      while todo != {}
        invariant forall j :: j in todo ==> EndsThen(rounds, tier, endsAt, j)
        invariant found ==> EndsThen(rounds, tier, endsAt, k)
        invariant forall j :: EndsThen(rounds, tier, endsAt, j) ==> j in todo || (found && j.index <= k.index)
        decreases |todo|
      {
        var j :| j in todo;
        if !found || j.index > k.index {
          found, k := true, j;
        }
        todo := todo - {j};
      }
    }

    /** `freezeCounts`: the numbers that must not move while a round closes. */
    method FreezeCounts(key: RoundKey) returns (pair: Pair, up: int)
      requires key in rounds
      ensures pair == PairFor(tb, players, rounds, key, rounds[key].endsAt) && up == UpCountFor(tb, key.tier, pair)
      ensures pair == NoPair || Cfg(tb, key.tier).rule.upMode != ByOpenings ==> up == -1
      ensures forall d, lo :: pair.Frozen? && FillsTierAbove(tb, key.tier, d, lo) ==>
        var capped := tb.tiers[key.tier + 1];
        OpeningsAre(capped.slots, pair.below, d, lo, pair.inTier - Leaving(capped, tb.minGroupSize, pair.inTier), up)
    {
      var (below, capped) := FrozenTiers(tb, key.tier);
      pair := NoPair;
      if below != capped {
        var sibling := if key.tier == below then capped else below;
        var found, k := RoundEndingAt(sibling, rounds[key].endsAt);
        if found && rounds[k].state != Open && rounds[k].pair.Frozen? {
          pair := rounds[k].pair;
        } else {
          var b := CountByTier(below);
          var c := CountByTier(capped);
          pair := Frozen(b, c);
        }
      }
      up := UpCountFor(tb, key.tier, pair);
      forall d, lo | pair.Frozen? && FillsTierAbove(tb, key.tier, d, lo)
        ensures var capped := tb.tiers[key.tier + 1];
          OpeningsAre(capped.slots, pair.below, d, lo, pair.inTier - Leaving(capped, tb.minGroupSize, pair.inTier), up)
      {
        UpCountMeans(tb, key.tier, pair, d, lo);
      }
    }

    /** `claimRound`: exactly one claimant writes the counts. */
    method ClaimRound(key: RoundKey, now: int)
      requires Consistent(now) && key in rounds && rounds[key].endsAt <= now
      modifies `rounds, `clock
      ensures Enabled(tb, old(W()), Step(now, Claims(key))) && W() == Next(tb, old(W()), Step(now, Claims(key)))
      ensures Consistent(now)
    {
      StepKeeps(tb, W(), Step(now, Claims(key)));
      if rounds[key].state == Open {
        var pair, up := FreezeCounts(key);
        rounds := rounds[key := rounds[key].(state := Closing, pair := pair, upCount := up)];
      }
      clock := now;
    }

    method OpenGroups(key: RoundKey) returns (gs: seq<GroupId>)
      ensures forall g :: g in gs <==> g in groups && g.round == key && groups[g].open
    {
      gs := [];
      var todo := set g | g in groups && g.round == key && groups[g].open;
      while todo != {}
        invariant forall g :: g in gs || g in todo <==> g in groups && g.round == key && groups[g].open
        decreases |todo|
      {
        var g :| g in todo;
        gs := gs + [g];
        todo := todo - {g};
      }
    }

    /** The proofs remember that a closer has seen no open group: it may finish the round, then or
        later. */
    ghost method RememberDrained(key: RoundKey, now: int)
      requires Consistent(now) && key in rounds && rounds[key].state != Open && NoOpenGroup(groups, key)
      modifies `drained, `clock
      ensures Enabled(tb, old(W()), Step(now, SeesNoGroup(key))) && W() == Next(tb, old(W()), Step(now, SeesNoGroup(key)))
      ensures Consistent(now)
    {
      StepKeeps(tb, W(), Step(now, SeesNoGroup(key)));
      drained := drained + {key};
      clock := now;
    }

    /** `FinishRound`: only a round that is being closed. */
    method FinishRound(key: RoundKey, now: int)
      requires Consistent(now) && key in rounds && key in drained
      modifies `rounds, `clock
      ensures Enabled(tb, old(W()), Step(now, Finishes(key))) && W() == Next(tb, old(W()), Step(now, Finishes(key)))
      ensures Consistent(now) && rounds[key].state == Closed
    {
      StepKeeps(tb, W(), Step(now, Finishes(key)));
      if rounds[key].state == Closing {
        rounds := rounds[key := rounds[key].(state := Closed)];
      }
      clock := now;
    }

    // ----- closing a whole round -----

    /** One turn of the loop over the open groups. */
    method CloseFirst(ghost was: World, key: RoundKey, gs: seq<GroupId>, ghost steps: seq<Step>,
                      bots: map<GroupId, seq<Entry>>, now: int)
      returns (ghost more: seq<Step>)
      requires Consistent(now) && gs != [] && MidClose(tb, was, W(), key, gs, steps, now)
      requires BotsFit(tb, members, gs[0], BotsOf(bots, gs[0])) && BotsUsed(tb, was, steps, bots)
      modifies this
      ensures Consistent(now) && MidClose(tb, was, W(), key, gs[1..], more, now) && BotsUsed(tb, was, more, bots)
      ensures SameGroups(old(members), members)
    {
      ghost var before := W();
      var vs := CloseGroup(gs[0], BotsOf(bots, gs[0]), now);
      more := steps + [Step(now, Closes(gs[0], vs))];
      BotsExtend(tb, was, steps, before, Step(now, Closes(gs[0], vs)), bots);
      GroupClosed(tb, was, before, key, gs, steps, now, vs);
    }

    method CloseOpenGroups(ghost was: World, key: RoundKey, ghost before: seq<Step>, bots: map<GroupId, seq<Entry>>, now: int)
      returns (ghost steps: seq<Step>)
      requires Consistent(now) && BotsReady(tb, members, bots) && Leads(tb, was, before, W()) && AllClosing(before, key, now)
      requires OnlyCloses(was.db, Tables()) && key in rounds && rounds[key].state != Open && BotsUsed(tb, was, before, bots)
      modifies this
      ensures Consistent(now) && MidClose(tb, was, W(), key, [], steps, now) && BotsUsed(tb, was, steps, bots)
    {
      var gs := OpenGroups(key);
      ghost var rows := members;
      steps := before;
      while gs != []
        invariant Consistent(now) && MidClose(tb, was, W(), key, gs, steps, now) && SameGroups(rows, members)
        invariant BotsUsed(tb, was, steps, bots)
        decreases |gs|
      {
        BotsStillFit(tb, rows, members, bots, gs[0]);
        steps := CloseFirst(was, key, gs, steps, bots, now);
        gs := gs[1..];
      }
    }

    /** `closeRoundInTx`, the lazy path: the whole close inside the caller's transaction. */
    method CloseRoundInTx(key: RoundKey, bots: map<GroupId, seq<Entry>>, now: int) returns (ghost steps: seq<Step>)
      requires Consistent(now) && key in rounds && rounds[key].endsAt <= now && BotsReady(tb, members, bots)
      modifies this
      ensures Consistent(now) && Leads(tb, old(W()), steps, W()) && AllClosing(steps, key, now)
      ensures OnlyCloses(old(Tables()), Tables()) && rounds[key].state == Closed
      ensures BotsUsed(tb, old(W()), steps, bots)
    {
      ghost var was := W();
      ClaimRound(key, now);
      ClaimStarts(tb, was, key, now);
      BotsExtend(tb, was, [], was, Step(now, Claims(key)), bots);
      assert [] + [Step(now, Claims(key))] == [Step(now, Claims(key))];
      steps := CloseOpenGroups(was, key, [Step(now, Claims(key))], bots, now);
      ghost var u := W();
      RememberDrained(key, now);
      ghost var v := W();
      FinishRound(key, now);
      CloseEnds(tb, was, u, v, key, steps, now);
      BotsAtTheEnd(tb, was, u, v, key, steps, now, bots);
      steps := steps + [Step(now, SeesNoGroup(key))] + [Step(now, Finishes(key))];
    }

    // ----- catching up -----

    /** The rounds of a tier past their end that are not closed yet. */
    method DueRounds(tier: nat, now: int) returns (due: seq<RoundKey>)
      ensures forall k :: k in due <==> k in rounds && k.tier == tier && rounds[k].endsAt <= now && rounds[k].state != Closed
    {
      due := [];
      var todo := set k | k in rounds && k.tier == tier && rounds[k].endsAt <= now && rounds[k].state != Closed;
      while todo != {}
        invariant forall k :: k in due || k in todo <==>
          k in rounds && k.tier == tier && rounds[k].endsAt <= now && rounds[k].state != Closed
        decreases |todo|
      {
        var k :| k in todo;
        due := due + [k];
        todo := todo - {k};
      }
    }

    /** One turn of the loop over the due rounds. */
    method CloseFirstDue(ghost was: World, ghost t: nat, due: seq<RoundKey>, ghost steps: seq<Step>,
                         bots: map<GroupId, seq<Entry>>, now: int)
      returns (ghost more: seq<Step>)
      requires Consistent(now) && due != [] && MidCatchUp(tb, was, W(), t, due, steps, now) && BotsReady(tb, was.db.members, bots)
      requires BotsUsed(tb, was, steps, bots)
      modifies this
      ensures Consistent(now) && MidCatchUp(tb, was, W(), t, due[1..], more, now) && BotsUsed(tb, was, more, bots)
    {
      ghost var w := W();
      BotsStillReady(tb, was.db.members, members, bots);
      more := CloseRoundInTx(due[0], bots, now);
      DueRoundClosed(tb, was, w, t, due, steps, now, W(), more);
      BotsCompose(tb, was, steps, w, more, bots);
      more := steps + more;
    }

    /** First half of `catchUp`: close whatever of the player's tier has ended. */
    method CloseDueRoundsOf(p: PlayerId, bots: map<GroupId, seq<Entry>>, now: int) returns (ghost steps: seq<Step>)
      requires Consistent(now) && p in players && BotsReady(tb, members, bots)
      modifies this
      ensures Consistent(now) && Leads(tb, old(W()), steps, W()) && p in players
      ensures AllClosesDue(old(rounds), old(players)[p].tier, now, steps)
      ensures SeasonCatchUp.DueClosed(old(rounds), old(players)[p].tier, now, rounds)
      ensures BotsUsed(tb, old(W()), steps, bots)
    {
      ghost var was := W();
      var t := players[p].tier;
      var due := DueRounds(t, now);
      steps := [];
      while due != []
        invariant Consistent(now) && MidCatchUp(tb, was, W(), t, due, steps, now) && BotsUsed(tb, was, steps, bots)
        decreases |due|
      {
        steps := CloseFirstDue(was, t, due, steps, bots, now);
        due := due[1..];
      }
    }

    /** Second half: the rounds the player was absent for, collapsed into one outcome. The clock is read
        for their number, for the round of the summary, and for the round to settle up to. */
    method MissRounds(p: PlayerId, r: Readings)
      requires p in players && players[p].tier < |tb.tiers| && Missed(tb, players[p], r.counted) > 0
      modifies `players, `summaries, `applied
      ensures Tables() == Absence(tb, old(Tables()), p, r)
      ensures applied == AppliedOnce(old(applied), {AbsenceKey(tb, old(Tables()), p, r.booked)})
    {
      var pl := players[p];
      var missed := Missed(tb, pl, r.counted);
      ghost var s := AbsenceKey(tb, Tables(), p, r.booked);
      var after := CollapseAbsence(tb.tiers, pl.tier, missed);
      var inserted := InsertSummary(SummaryKey(p, RoundKey(pl.tier, Index(tb, pl.tier, r.booked) - 1), ReasonRound),
                                    Summary(after, InactiveOutcome(Cfg(tb, pl.tier)), 0, 0, pl.points));
      var ok := SetTier(p, pl.tier, after, Start(tb, after, Index(tb, after, r.settled)));
      if ok {
        applied := AppliedOnce(applied, {s});
      }
    }

    /** Only if rounds were missed. */
    method CollapseMissed(p: PlayerId, r: Readings)
      requires p in players && players[p].tier < |tb.tiers|
      modifies `players, `summaries, `applied, `clock
      ensures W() == AfterAbsence(tb, old(W()), p, r)
    {
      if Missed(tb, players[p], r.counted) > 0 {
        MissRounds(p, r);
        clock := r.settled;
      }
    }

    /** `catchUp`, with its readings of the clock. */
    method CatchUp(p: PlayerId, bots: map<GroupId, seq<Entry>>, r: Readings)
      returns (ghost steps: seq<Step>, ghost u: World)
      requires Consistent(r.due) && InOrder(r) && p in players && BotsReady(tb, members, bots)
      modifies this
      ensures CatchesUp(tb, old(W()), p, r, steps, u, W()) && Inv(tb, u) && u.clock <= r.due
      ensures BotsUsed(tb, old(W()), steps, bots)
      ensures p in players && Missed(tb, players[p], r.counted) <= 0
    {
      steps := CloseDueRoundsOf(p, bots, r.due);
      u := W();
      CollapseMissed(p, r);
      NothingMissed(tb, u, p, r);
    }

    // ----- joining a round -----

    /** Insert on conflict do nothing. */
    method EnsureRound(key: RoundKey)
      requires GroupsOk(tb, rounds, groups)
      modifies `rounds
      ensures Tables() == Season.EnsureRound(tb, old(Tables()), key)
      ensures key in rounds && GroupsOk(tb, rounds, groups)
    {
      if key !in rounds {
        rounds := rounds[key := Round(Open, End(tb, key), 0, NoPair, -1)];
      }
    }

    /** Conditional, so that a group never grows past the limit. */
    method IncGroupCount(g: GroupId, limit: nat) returns (ok: bool)
      modifies `groups
      ensures ok <==> g in old(groups) && HasRoom(old(groups)[g], limit)
      ensures groups == if ok then old(groups)[g := old(groups)[g].(count := old(groups)[g].count + 1)] else old(groups)
    {
      ok := g in groups && HasRoom(groups[g], limit);
      if ok {
        groups := groups[g := groups[g].(count := groups[g].count + 1)];
      }
    }

    /** The fullest open group with room, and of several the one with the smallest id: groups are filled,
        not spread. */
    method FindOpenGroup(key: RoundKey, q: bool) returns (found: bool, g: GroupId)
      ensures found ==> IsFullest(groups, key, q, g)
      ensures !found ==> forall h :: !Fillable(groups, key, q, h)
    {
      var todo := set h | h in groups && Fillable(groups, key, q, h);
      found, g := false, GroupId(key, 0);
      while todo != {}
        invariant forall h :: h in todo ==> Fillable(groups, key, q, h)
        invariant found ==> Fillable(groups, key, q, g)
        invariant forall h :: Fillable(groups, key, q, h) ==>
          h in todo || (found && (h == g || SortsFirst(groups, g, h)))
        decreases |todo|
      {
        var h :| h in todo;
        if !found || SortsFirst(groups, h, g) {
          if found {
            SortsOnwards(groups, h, g);
          }
          found, g := true, h;
        } else {
          SortsOneWay(groups, g, h);
        }
        todo := todo - {h};
      }
    }

    method NextGroupSeq(key: RoundKey) returns (n: nat)
      requires key in rounds
      modifies `rounds
      ensures n == old(rounds)[key].groupSeq + 1
      ensures rounds == old(rounds)[key := old(rounds)[key].(groupSeq := n)]
    {
      n := rounds[key].groupSeq + 1;
      rounds := rounds[key := rounds[key].(groupSeq := n)];
    }

    /** A place in a group: the friend's, else the fullest with room, else a new one. */
    method TakePlace(key: RoundKey, q: bool, wish: Wish) returns (g: GroupId)
      requires key in rounds && GroupId(key, rounds[key].groupSeq + 1) !in groups
      requires forall h :: Fillable(groups, key, q, h) ==> HasRoom(groups[h], tb.groupSize)
      modifies `rounds, `groups
      ensures Placement(tb, old(Tables()), key, q, wish, g)
      ensures groups == old(groups)[g := GroupJoined(tb, old(groups), key.tier, q, g)]
      ensures rounds == if g in old(groups) then old(rounds)
        else old(rounds)[key := old(rounds)[key].(groupSeq := old(rounds)[key].groupSeq + 1)]
    {
      if !Cfg(tb, key.tier).global && wish.Wish? {
        var ok := IncGroupCount(wish.group, tb.groupMax);
        if ok {
          return wish.group;
        }
      }
      var found, h := FindOpenGroup(key, q);
      if found {
        var ok := IncGroupCount(h, tb.groupSize);
        return h;
      }
      var n := NextGroupSeq(key);
      g := GroupId(key, n);
      groups := groups[g := FreshGroup(tb, key.tier, q)];
    }

    /** A place and the row in it. */
    method InsertMember(p: PlayerId, key: RoundKey, q: bool, wish: Wish) returns (g: GroupId)
      requires key in rounds && GroupId(key, rounds[key].groupSeq + 1) !in groups
      requires forall h :: Fillable(groups, key, q, h) ==> HasRoom(groups[h], tb.groupSize)
      modifies `rounds, `groups, `members
      ensures Placement(tb, old(Tables()), key, q, wish, g)
      ensures Tables() == Join(tb, old(Tables()), p, key, q, g)
    {
      g := TakePlace(key, q, wish);
      members := members[MemberKey(p, key) := NewMember(g)];
    }

    /** `ensureMembership`: idempotent; the group the player picked, or a friend's, is tried first. */
    method EnsureMembership(p: PlayerId, key: RoundKey, q: bool, friends: set<PlayerId>, prefer: Wish)
      returns (ghost wish: Wish, ghost g: GroupId)
      requires GroupsOk(tb, rounds, groups) && key in rounds && Listed(tb, groups, key, prefer)
      modifies `rounds, `groups, `members
      ensures Sits(tb, old(Tables()), p, key, q, wish, g, Tables())
      ensures MemberKey(p, key) in old(members) ==> Tables() == old(Tables())
      ensures AsksFor(tb, old(Tables()), p, key, q, friends, prefer, wish)
    {
      g := GroupId(key, 0);
      wish := prefer;
      if MemberKey(p, key) !in members {
        var candidate := prefer;
        if prefer.NoWish? {
          candidate := FriendGroup(key, q, friends);
        }
        AllowJoin(key, q);
        wish := candidate;
        g := InsertMember(p, key, q, candidate);
      }
    }

    lemma AllowJoin(key: RoundKey, q: bool)
      requires GroupsOk(tb, rounds, groups) && key in rounds
      ensures GroupId(key, rounds[key].groupSeq + 1) !in groups
      ensures forall h :: Fillable(groups, key, q, h) ==> HasRoom(groups[h], tb.groupSize)
    {
      NextSeqIsFree(tb, Tables(), key);
      forall h | Fillable(groups, key, q, h)
        ensures HasRoom(groups[h], tb.groupSize)
      {
        FillableHasRoom(tb, Tables(), key, q, h);
      }
    }

    // ----- the transactions of a player -----

    /** The first of the fullest open groups of the round that hold a friend and have room. */
    method FriendGroup(key: RoundKey, q: bool, friends: set<PlayerId>) returns (wish: Wish)
      ensures Listed(tb, groups, key, wish) && FirstFriends(tb, Tables(), key, q, friends, wish)
    {
      var todo := set g | g in groups && HoldsFriend(tb, Tables(), key, q, friends, g);
      wish := NoWish;
      while todo != {}
        invariant forall g :: g in todo ==> HoldsFriend(tb, Tables(), key, q, friends, g)
        invariant wish.Wish? ==> HoldsFriend(tb, Tables(), key, q, friends, wish.group)
        invariant forall g :: HoldsFriend(tb, Tables(), key, q, friends, g) ==>
          g in todo || (wish.Wish? && (g == wish.group || SortsFirst(groups, wish.group, g)))
        decreases |todo|
      {
        var g :| g in todo;
        if wish.NoWish? || SortsFirst(groups, g, wish.group) {
          if wish.Wish? {
            SortsOnwards(groups, g, wish.group);
          }
          wish := Wish(g);
        } else {
          SortsOneWay(groups, wish.group, g);
        }
        todo := todo - {g};
      }
    }

    /** The membership in the running round of the player's tier, if the tier has rounds. */
    method JoinRunning(p: PlayerId, q: bool, friends: set<PlayerId>, prefer: Wish, now: int)
      returns (ghost wish: Wish, ghost g: GroupId)
      requires p in players && GroupsOk(tb, rounds, groups)
      requires prefer.Wish? ==> Listed(tb, groups, RunningRound(tb, players, p, now), prefer)
      modifies `rounds, `groups, `members, `clock
      ensures EntersAsking(tb, old(W()), p, q, friends, prefer, now, wish, g, W())
    {
      wish, g := prefer, GroupId(RunningRound(tb, players, p, now), 0);
      if HasRounds(Cfg(tb, players[p].tier)) {
        var key := RunningRound(tb, players, p, now);
        EnsureRound(key);
        wish, g := EnsureMembership(p, key, q, friends, prefer);
        clock := now;
      }
    }

    /** Catch up, then join the running round: what a start and a submit do first. */
    method EnterRound(p: PlayerId, q: bool, friends: set<PlayerId>, bots: map<GroupId, seq<Entry>>, r: Readings, at: int)
      returns (ghost steps: seq<Step>, ghost u: World, ghost mid: World, ghost wish: Wish, ghost g: GroupId)
      requires Consistent(r.due) && InOrder(r) && r.settled <= at && p in players && BotsReady(tb, members, bots)
      modifies this
      ensures CatchesUp(tb, old(W()), p, r, steps, u, mid) && Inv(tb, u) && u.clock <= r.due && BotsUsed(tb, old(W()), steps, bots)
      ensures EntersAsking(tb, mid, p, q, friends, NoWish, at, wish, g, W())
    {
      steps, u := CatchUp(p, bots, r);
      mid := W();
      wish, g := JoinRunning(p, q, friends, NoWish, at);
    }

    /** An error inside `InTx` puts every row back. */
    method RollBack(before: Db, ghost was: World)
      requires was.db == before
      modifies this
      ensures W() == was
    {
      players, rounds, groups, members, summaries :=
        before.players, before.rounds, before.groups, before.members, before.summaries;
      clock, drained, applied := was.clock, was.drained, was.applied;
    }

    /** After the catch-up of a join request. The options are listed at a later reading than the round to
        join; but no group of a later round exists yet. */
    method JoinPicked(p: PlayerId, q: bool, friends: set<PlayerId>, pick: Wish, at: int, listed: int)
      returns (ok: bool, ghost wish: Wish, ghost g: GroupId)
      requires p in players && NothingAhead(tb, Tables(), at) && at <= listed
      modifies `rounds, `groups, `members, `clock
      ensures ok <==> MayJoin(tb, old(Tables()), p, q, friends, pick, at, listed)
      ensures ok ==> JoinsPicked(tb, old(W()), p, q, friends, pick, at, wish, g, W())
    {
      wish, g := pick, GroupId(RunningRound(tb, players, p, at), 0);
      ok := MayJoin(tb, Tables(), p, q, friends, pick, at, listed);
      if ok && pick.Wish? {
        ListedIsRunning(tb, Tables(), p, q, friends, pick, at, listed);
      }
      if ok && (pick.NoWish? || MemberKey(p, RunningRound(tb, players, p, listed)) !in members) {
        wish, g := JoinRunning(p, q, friends, pick, at);
      }
    }

    /** `JoinGroup`: the group the player picked must be one that `FriendGroups` lists for them; an
        error rolls back everything, the catch-up included. */
    method JoinGroup(p: PlayerId, q: bool, friends: set<PlayerId>, pick: Wish, bots: map<GroupId, seq<Entry>>,
                     r: Readings, at: int, listed: int)
      returns (ok: bool, ghost steps: seq<Step>, ghost u: World, ghost mid: World, ghost wish: Wish, ghost g: GroupId)
      requires Consistent(r.due) && InOrder(r) && r.settled <= at <= listed && p in players && BotsReady(tb, members, bots)
      modifies this
      ensures CatchesUp(tb, old(W()), p, r, steps, u, mid) && Inv(tb, u) && p in mid.db.players && BotsUsed(tb, old(W()), steps, bots)
      ensures ok <==> MayJoin(tb, mid.db, p, q, friends, pick, at, listed)
      ensures if ok then JoinsPicked(tb, mid, p, q, friends, pick, at, wish, g, W()) else W() == old(W())
    {
      var before := Tables();
      ghost var was := W();
      steps, u := CatchUp(p, bots, r);
      mid := W();
      NothingAheadNow(tb, u, at);
      NobodyAhead(tb, u, p, r, at);
      ok, wish, g := JoinPicked(p, q, friends, pick, at, listed);
      if !ok {
        RollBack(before, was);
      }
    }

    /** The league half of an accepted game: the points, the member row, and the promotion the points
        may have earned, which reads the clock once more for the round of the tier above. */
    method ApplyGame(p: PlayerId, points: int, score: int, games: int, last: int, now: int, later: int)
      returns (ghost steps: seq<Step>, ghost scored: World)
      requires Consistent(now) && now <= later && p in players
      modifies `players, `members, `summaries, `applied, `clock
      ensures Consistent(later) && Leads(tb, old(W()), steps, W())
      ensures p in players && !PromotesByScore(tb, players[p])
      ensures var s := Step(now, Scores(p, old(RunningRound(tb, players, p, now)), points, score, games, last));
        && Enabled(tb, old(W()), s) && scored == Next(tb, old(W()), s) && p in scored.db.players
        && steps == if PromotesByScore(tb, scored.db.players[p]) then [s, Step(later, Promotes(p))] else [s]
    {
      ghost var was := W();
      AddScore(p, points, score, games, last, now);
      scored := W();
      ghost var s := Step(now, Scores(p, RoundKey(was.db.players[p].tier, Index(tb, was.db.players[p].tier, now)), points, score, games, last));
      StepKeeps(tb, was, s);
      ghost var more := PromoteIfDue(p, later);
      GameSteps(tb, was, s, scored, PromotesByScore(tb, scored.db.players[p]), Step(later, Promotes(p)), W());
      steps := if PromotesByScore(tb, scored.db.players[p]) then [s, Step(later, Promotes(p))] else [s];
    }

    /** Only if the points have reached the threshold. */
    method PromoteIfDue(p: PlayerId, later: int) returns (ghost steps: seq<Step>)
      requires Consistent(later) && p in players
      modifies `players, `members, `summaries, `applied, `clock
      ensures Consistent(later) && Leads(tb, old(W()), steps, W())
      ensures p in players && !PromotesByScore(tb, players[p])
      ensures steps == if PromotesByScore(tb, old(players)[p]) then [Step(later, Promotes(p))] else []
    {
      steps := [];
      if PromotesByScore(tb, players[p]) {
        ghost var was := W();
        PromoteByScore(p, later);
        StepKeeps(tb, was, Step(later, Promotes(p)));
        OneStepRun(tb, was, Step(later, Promotes(p)));
        steps := [Step(later, Promotes(p))];
      }
    }

    method AddScore(p: PlayerId, points: int, score: int, games: int, last: int, now: int)
      requires p in players && clock <= now
      modifies `players, `members, `clock
      ensures var s := Step(now, Scores(p, old(RunningRound(tb, players, p, now)), points, score, games, last));
        Enabled(tb, old(W()), s) && W() == Next(tb, old(W()), s)
    {
      var m := MemberKey(p, RunningRound(tb, players, p, now));
      players := players[p := players[p].(points := players[p].points + points)];
      if m in members {
        members := members[m := members[m].(score := score, games := games, lastSubmit := last)];
      }
      clock := now;
    }

    /** `promoteByScore`: the summary, the tier, and the running membership marked as left. A score tier has
        no rounds, so its round index is the same at every reading. */
    method PromoteByScore(p: PlayerId, now: int)
      requires p in players && Season.PromotesByScore(tb, players[p]) && clock <= now
      modifies `players, `members, `summaries, `applied, `clock
      ensures var s := Step(now, Promotes(p)); Enabled(tb, old(W()), s) && W() == Next(tb, old(W()), s)
    {
      var pl := players[p];
      var above := PromoteTier(tb.tiers, pl.tier);
      var key := RunningRound(tb, players, p, now);
      var m := MemberKey(p, key);
      var inserted := InsertSummary(SummaryKey(p, key, ReasonScore),
                                    Summary(above, Promoted, 0, if m in members then members[m].score else 0, pl.points));
      var ok := SetTier(p, pl.tier, above, Start(tb, above, Index(tb, above, now)));
      if ok {
        applied := AppliedOnce(applied, {SummaryKey(p, key, ReasonScore)});
      }
      if m in members {
        members := members[m := members[m].(left := true)];
      }
      clock := now;
    }

    // ----- accounts -----

    method Register(p: PlayerId, now: int)
      requires p !in players && clock <= now
      modifies `players, `clock
      ensures var s := Step(now, Registers(p)); Enabled(tb, old(W()), s) && W() == Next(tb, old(W()), s)
    {
      players := players[p := Player(0, 0, Start(tb, 0, Index(tb, 0, now)))];
      clock := now;
    }

    /** The open groups are counted down first; then everything of the player goes. */
    method DeleteAccount(p: PlayerId, now: int)
      requires clock <= now
      modifies `players, `groups, `members, `summaries, `applied, `clock
      ensures var s := Step(now, Deletes(p)); Enabled(tb, old(W()), s) && W() == Next(tb, old(W()), s)
    {
      groups := GroupsWithout(groups, members, p);
      players := players - {p};
      members := members - RowsOfPlayer(members, p);
      summaries := summaries - SummariesOfPlayer(summaries, p);
      applied := AppliedWithout(applied, p);
      clock := now;
    }
  }
}
