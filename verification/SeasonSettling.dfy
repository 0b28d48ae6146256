/** The closer's loop over one evaluated group, step by step. */
module SeasonSettling {
  import opened Standings
  import opened Season
  import opened SeasonInvariant

  // ----- settling one more member -----

  lemma OneMorePlayer(tb: Table, db: Db, key: RoundKey, vs: Verdicts, ps: set<PlayerId>, p: PlayerId, endsAt: int)
    requires p !in ps
    ensures PlayersAfter(tb, db, key, vs, ps + {p}, endsAt) ==
      if Hits(db, key, p) then
        PlayersAfter(tb, db, key, vs, ps, endsAt)[p := SettledPlayer(tb, db.players[p], key, VerdictOf(vs, p), endsAt)]
      else PlayersAfter(tb, db, key, vs, ps, endsAt)
  {
  }

  lemma OneMoreSummary(tb: Table, db: Db, key: RoundKey, vs: Verdicts, ps: set<PlayerId>, p: PlayerId)
    requires p !in ps
    ensures var s := SummaryKey(p, key, ReasonRound);
      SummariesAfter(tb, db, key, vs, ps + {p}) ==
        if Inserts(db, key, p) then
          SummariesAfter(tb, db, key, vs, ps)[s := SettledSummary(tb, db, key, p, VerdictOf(vs, p))]
        else SummariesAfter(tb, db, key, vs, ps)
    ensures SummaryKey(p, key, ReasonRound) in SummariesAfter(tb, db, key, vs, ps) <==> !Inserts(db, key, p)
  {
    assert NewSummaryKeys(db, key, ps + {p}) == NewSummaryKeys(db, key, ps)
      + if Inserts(db, key, p) then {SummaryKey(p, key, ReasonRound)} else {};
  }

  lemma OneMoreVerdict(members: Members, g: GroupId, vs: Verdicts, ps: set<PlayerId>, m: MemberKey)
    requires m in members && members[m].group == g && m.player !in ps
    requires forall n :: n in members && members[n].group == g ==> n.round == m.round
    ensures MembersAfter(members, g, vs, ps + {m.player})
      == MembersAfter(members, g, vs, ps)[m := members[m].(verdict := VerdictOf(vs, m.player))]
  {
  }

  // ----- the verdicts of an evaluation -----

  function VerdictsOf(placed: seq<Placed>): Verdicts {
    if placed == [] then map[]
    else
      var last := placed[|placed| - 1];
      var rest := VerdictsOf(placed[..|placed| - 1]);
      if last.entry.bot then rest else rest[PlayerId(last.entry.player) := Decided(last.rank, last.zone)]
  }

  ghost predicate PlacedOnce(placed: seq<Placed>) {
    forall i, j :: 0 <= i < j < |placed| ==> placed[i].entry.player != placed[j].entry.player
  }

  lemma {:induction false} VerdictAt(placed: seq<Placed>, i: nat)
    requires PlacedOnce(placed) && i < |placed| && !placed[i].entry.bot
    ensures var p := PlayerId(placed[i].entry.player);
      p in VerdictsOf(placed) && VerdictsOf(placed)[p] == Decided(placed[i].rank, placed[i].zone)
  {
    var k := |placed| - 1;
    if i < k {
      assert placed[..k][i] == placed[i];
      VerdictAt(placed[..k], i);
    }
  }

  /** Among the entries the bots are exactly these. */
  ghost predicate WithBots(entries: seq<Entry>, bots: seq<Entry>) {
    forall e: Entry :: e in entries && e.bot <==> e in bots
  }

  /** The rows of a group, as the evaluation sees them, and its bots. */
  ghost predicate EntriesOf(members: Members, g: GroupId, bots: seq<Entry>, entries: seq<Entry>) {
    && OncePerPlayer(entries) && WithBots(entries, bots)
    && (forall m :: m in members && members[m].group == g ==> EntryOf(m.player, members[m]) in entries)
    && (forall e :: e in entries && !e.bot ==>
          exists m :: m in members && members[m].group == g && e == EntryOf(m.player, members[m]))
  }

  lemma RankedEntries(members: Members, g: GroupId, bots: seq<Entry>, entries: seq<Entry>, ranked: seq<Entry>)
    requires EntriesOf(members, g, bots, entries) && RankingOf(ranked, entries)
    ensures GroupRanking(members, g, ranked) && WithBots(ranked, bots)
  {
    SameRows(entries, ranked);
    assert forall e :: e in ranked <==> e in Rows(ranked);
    assert forall e :: e in entries <==> e in Rows(entries);
  }

  /** Bots have ids of their own. */
  ghost predicate BotsApart(members: Members, bots: seq<Entry>) {
    && OncePerPlayer(bots) && (forall e :: e in bots ==> e.bot)
    && (forall m: MemberKey, e :: m in members && e in bots ==> e.player != m.player.number)
  }

  /** The bots of a group: with ids of their own, and only where the tier has bots. */
  ghost predicate BotsFit(tb: Table, members: Members, g: GroupId, bots: seq<Entry>) {
    BotsApart(members, bots) && BotsAllowed(tb, g.round.tier, bots)
  }

  /** The bots and the rows listed so far; `todo` is still to come. */
  ghost predicate Collected(members: Members, g: GroupId, bots: seq<Entry>, entries: seq<Entry>, todo: set<MemberKey>) {
    && OncePerPlayer(entries) && WithBots(entries, bots)
    && (forall m :: m in todo ==> m in members && members[m].group == g)
    && (forall m :: m in members && members[m].group == g && m !in todo ==> EntryOf(m.player, members[m]) in entries)
    && (forall e :: e in entries && !e.bot ==>
          exists m :: m in members && members[m].group == g && e == EntryOf(m.player, members[m]))
    && (forall e, m: MemberKey :: e in entries && m in todo ==> e.player != m.player.number)
  }

  lemma CollectOne(members: Members, g: GroupId, bots: seq<Entry>, entries: seq<Entry>, todo: set<MemberKey>, m: MemberKey)
    requires Collected(members, g, bots, entries, todo) && m in todo
    requires forall n :: n in members && members[n].group == g ==> n.round == g.round
    ensures Collected(members, g, bots, entries + [EntryOf(m.player, members[m])], todo - {m})
  {
    var x := EntryOf(m.player, members[m]);
    var after := entries + [x];
    assert after[|entries|] == x;
    forall n: MemberKey | n in todo - {m}
      ensures n.player.number != x.player
    {
      assert n.player != m.player;
    }
    forall e | e in entries
      ensures e in after
    {
    }
  }

  /** The evaluation of the group gives everybody in it the verdicts the close needs. */
  lemma EvaluationJudges(tb: Table, db: Db, g: GroupId, ranked: seq<Entry>, ev: Evaluation)
    requires g.round in db.rounds && GroupRanking(db.members, g, ranked) && BotsAllowed(tb, g.round.tier, ranked)
    requires ev == EvaluationOf(ranked, Cfg(tb, g.round.tier).rule, tb.minGroupSize, db.rounds[g.round].upCount)
    ensures PlacedOnce(ev.members) && JudgedAs(tb, db, g, ranked, VerdictsOf(ev.members))
    ensures Judged(tb, db, g, VerdictsOf(ev.members)) && Covered(db.members, g, VerdictsOf(ev.members))
  {
    var vs := VerdictsOf(ev.members);
    forall i | 0 <= i < |ranked| && !ranked[i].bot
      ensures var p := PlayerId(ranked[i].player); p in vs && vs[p] == Decided(ev.members[i].rank, ev.members[i].zone)
    {
      VerdictAt(ev.members, i);
    }
    assert JudgedAs(tb, db, g, ranked, vs);
    JudgedCovers(tb, db, g, vs);
  }

  /** The close settles by the evaluation of its rows and of these bots. */
  ghost predicate JudgedWith(tb: Table, db: Db, g: GroupId, bots: seq<Entry>, vs: Verdicts)
    requires g.round in db.rounds
  {
    exists ranked :: JudgedAs(tb, db, g, ranked, vs) && WithBots(ranked, bots)
  }

  lemma OneMoreHit(db: Db, key: RoundKey, applied: map<SummaryKey, nat>, ps: set<PlayerId>, p: PlayerId)
    requires p !in ps
    ensures AppliedOnce(applied, HitKeysOf(db, key, ps + {p})) ==
      if Hits(db, key, p) then
        AppliedOnce(AppliedOnce(applied, HitKeysOf(db, key, ps)), {SummaryKey(p, key, ReasonRound)})
      else AppliedOnce(applied, HitKeysOf(db, key, ps))
  {
    var s := SummaryKey(p, key, ReasonRound);
    assert HitKeysOf(db, key, ps + {p}) == HitKeysOf(db, key, ps) + if Hits(db, key, p) then {s} else {};
    assert s !in HitKeysOf(db, key, ps);
  }

  // ----- the closer's loop -----

  ghost function PeopleIn(placed: seq<Placed>): set<PlayerId> {
    set x | x in placed && !x.entry.bot :: PlayerId(x.entry.player)
  }

  ghost function StayingIn(placed: seq<Placed>): set<PlayerId> {
    set x | x in placed && !x.entry.bot && !x.entry.left :: PlayerId(x.entry.player)
  }

  lemma OneMorePlaced(placed: seq<Placed>, i: nat)
    requires i < |placed|
    ensures StayingIn(placed[..i]) <= PeopleIn(placed[..i])
    ensures placed[i].entry.bot ==>
      PeopleIn(placed[..i + 1]) == PeopleIn(placed[..i]) && StayingIn(placed[..i + 1]) == StayingIn(placed[..i])
    ensures !placed[i].entry.bot ==>
      var p := PlayerId(placed[i].entry.player);
      && PeopleIn(placed[..i + 1]) == PeopleIn(placed[..i]) + {p}
      && StayingIn(placed[..i + 1]) == if placed[i].entry.left then StayingIn(placed[..i]) else StayingIn(placed[..i]) + {p}
  {
    assert placed[..i + 1] == placed[..i] + [placed[i]];
  }

  lemma NotYetPlaced(placed: seq<Placed>, i: nat)
    requires PlacedOnce(placed) && i < |placed|
    ensures PlayerId(placed[i].entry.player) !in PeopleIn(placed[..i])
  {
    forall x | x in placed[..i]
      ensures x.entry.player != placed[i].entry.player
    {
      var j :| 0 <= j < i && placed[..i][j] == x;
      assert placed[j] == x;
    }
  }

  /** The row behind a placed entry. */
  lemma PlacedRow(members: Members, g: GroupId, ranked: seq<Entry>, i: nat) returns (m: MemberKey)
    requires GroupRanking(members, g, ranked) && i < |ranked| && !ranked[i].bot
    ensures m in members && members[m].group == g && ranked[i] == EntryOf(m.player, members[m])
    ensures m.player == PlayerId(ranked[i].player)
  {
    assert ranked[i] in ranked;
    m :| m in members && members[m].group == g && ranked[i] == EntryOf(m.player, members[m]);
  }

  /** Once the loop is through, everybody in the group has had their turn. */
  lemma AllPlaced(members: Members, g: GroupId, ranked: seq<Entry>, placed: seq<Placed>)
    requires GroupRanking(members, g, ranked) && |placed| == |ranked|
    requires forall i :: 0 <= i < |placed| ==> placed[i].entry == ranked[i]
    ensures PeopleIn(placed) == InGroup(members, g) && StayingIn(placed) == Staying(members, g)
  {
    forall m: MemberKey | m in members && members[m].group == g
      ensures m.player in PeopleIn(placed) && (!members[m].left ==> m.player in StayingIn(placed))
    {
      var i :| 0 <= i < |ranked| && ranked[i] == EntryOf(m.player, members[m]);
      assert placed[i] in placed && PlayerId(placed[i].entry.player) == m.player;
    }
    forall x | x in placed && !x.entry.bot
      ensures PlayerId(x.entry.player) in InGroup(members, g)
      ensures !x.entry.left ==> PlayerId(x.entry.player) in Staying(members, g)
    {
      var i :| 0 <= i < |placed| && placed[i] == x;
      var m := PlacedRow(members, g, ranked, i);
    }
  }

  /** A group whose rows are all of its round, and belong to players. */
  ghost predicate Closable(tb: Table, db: Db, g: GroupId) {
    && g in db.groups && db.groups[g].open && g.round in db.rounds && InRounds(tb, g.round.tier)
    && (forall n :: n in db.members && db.members[n].group == g ==> n.round == g.round && n.player in db.players)
  }

  lemma OpenIsClosable(tb: Table, w: World, g: GroupId)
    requires Inv(tb, w) && g in w.db.groups
    ensures g.round in w.db.rounds && (w.db.groups[g].open ==> Closable(tb, w.db, g))
  {
  }

  /** What the loop knows about the evaluation while it settles. */
  ghost predicate Settling(tb: Table, db: Db, g: GroupId, ranked: seq<Entry>, placed: seq<Placed>) {
    && Closable(tb, db, g) && GroupRanking(db.members, g, ranked) && PlacedOnce(placed) && |placed| == |ranked|
    && (forall i :: 0 <= i < |placed| ==> placed[i].entry == ranked[i])
  }

  /** A member whose turn it is. */
  ghost predicate TurnOf(db: Db, g: GroupId, x: Placed, vs: Verdicts, done: set<PlayerId>) {
    var p := PlayerId(x.entry.player);
    var m := MemberKey(p, g.round);
    && !x.entry.bot && p !in done && p in db.players && VerdictOf(vs, p) == Decided(x.rank, x.zone)
    && m in db.members && db.members[m].group == g && db.members[m].left == x.entry.left
  }

  lemma NextTurn(tb: Table, db: Db, g: GroupId, ranked: seq<Entry>, placed: seq<Placed>, i: nat)
    requires i < |placed| && Settling(tb, db, g, ranked, placed) && !placed[i].entry.bot
    ensures TurnOf(db, g, placed[i], VerdictsOf(placed), PeopleIn(placed[..i]))
  {
    var m := PlacedRow(db.members, g, ranked, i);
    assert m == MemberKey(PlayerId(placed[i].entry.player), g.round);
    NotYetPlaced(placed, i);
    VerdictAt(placed, i);
  }

  lemma NobodySettled(tb: Table, db: Db, g: GroupId, key: RoundKey, vs: Verdicts, endsAt: int, applied: map<SummaryKey, nat>)
    ensures PlayersAfter(tb, db, key, vs, {}, endsAt) == db.players
    ensures SummariesAfter(tb, db, key, vs, {}) == db.summaries
    ensures MembersAfter(db.members, g, vs, {}) == db.members
    ensures AppliedOnce(applied, HitKeysOf(db, key, {})) == applied
  {
    assert NewSummaryKeys(db, key, {}) == {};
    assert HitKeysOf(db, key, {}) == {};
  }
}
