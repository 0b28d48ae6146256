/** A global group is never evaluated to be shown: rank, zone and promote count come from queries and from
    the stored member count. In every reachable league they are those the close will give. */
module SeasonStanding {
  import opened Standings
  import opened Season
  import opened SeasonInvariant
  import opened SeasonRuns

  /** The member rows of a group, as the queries see them. */
  function GroupRows(members: Members, g: GroupId): set<Entry> {
    set m | m in members && members[m].group == g :: EntryOf(m.player, members[m])
  }

  lemma RankedRows(members: Members, g: GroupId, ranked: seq<Entry>)
    requires GroupRanking(members, g, ranked) && forall e :: e in ranked ==> !e.bot
    ensures Rows(ranked) == GroupRows(members, g)
  {
    forall e
      ensures e in Rows(ranked) <==> e in GroupRows(members, g)
    {
      if e in ranked {
        var m :| m in members && members[m].group == g && e == EntryOf(m.player, members[m]);
      }
    }
  }

  lemma {:induction false} EntriesCard(members: Members, g: GroupId, keys: set<MemberKey>)
    requires forall m :: m in keys ==> m in members && members[m].group == g && m.round == g.round
    ensures |set m | m in keys :: EntryOf(m.player, members[m])| == |keys|
  {
    var entries := set m | m in keys :: EntryOf(m.player, members[m]);
    if keys != {} {
      var m :| m in keys;
      var e := EntryOf(m.player, members[m]);
      var rest := set n | n in keys - {m} :: EntryOf(n.player, members[n]);
      EntriesCard(members, g, keys - {m});
      forall n | n in keys - {m}
        ensures EntryOf(n.player, members[n]) != e
      {
        assert n.player != m.player;
      }
      assert entries == rest + {e};
    } else {
      assert entries == {};
    }
  }

  /** The stored count is the size of the ranking. */
  lemma CountIsSize(tb: Table, w: World, g: GroupId, ranked: seq<Entry>)
    requires TablesOk(tb, w) && g in w.db.groups && w.db.groups[g].open
    requires GroupRanking(w.db.members, g, ranked) && forall e :: e in ranked ==> !e.bot
    ensures w.db.groups[g].count == |ranked| == |GroupRows(w.db.members, g)|
  {
    RankedRows(w.db.members, g, ranked);
    RowsCard(ranked);
    EntriesCard(w.db.members, g, RowsOf(w.db.members, g));
    assert GroupRows(w.db.members, g) == set m | m in RowsOf(w.db.members, g) :: EntryOf(m.player, w.db.members[m]);
  }

  /** `placeMember` in a global group: with the stored count for the size, the queries give every member
      the rank and the zone, and the group the promote and relegate counts, of its evaluation. */
  lemma GlobalPlacement(tb: Table, clock: int, steps: seq<Step>, v: World, g: GroupId, ranked: seq<Entry>, i: nat, upCount: int)
    requires SoundTable(tb) && Leads(tb, EmptyLeague(clock), steps, v) && g in v.db.groups && v.db.groups[g].open
    requires GroupRanking(v.db.members, g, ranked) && (forall e :: e in ranked ==> !e.bot) && i < |ranked|
    ensures var rows, n, t := GroupRows(v.db.members, g), v.db.groups[g].count, Cfg(tb, g.round.tier).rule;
      var c := Counts(n, t, tb.minGroupSize, LeaderInSql(rows), upCount);
      var ev := EvaluationOf(ranked, t, tb.minGroupSize, upCount);
      var rank := MemberRank(rows, ranked[i]);
      && rank == ev.members[i].rank && ZoneFor(rank, ranked[i].score, n, c) == ev.members[i].zone
      && PromoteCountInSql(ranked, c.up) == ev.promoteCount && c.down == ev.relegateCount
  {
    EmptyIsSound(tb, clock);
    RunKeepsTables(tb, EmptyLeague(clock), steps, v);
    CountIsSize(tb, v, g, ranked);
    RankedRows(v.db.members, g, ranked);
    SqlStandingRefinesEvaluate(ranked, i, Cfg(tb, g.round.tier).rule, tb.minGroupSize, upCount);
    SqlPromoteCountRefinesEvaluate(ranked, Cfg(tb, g.round.tier).rule, tb.minGroupSize, upCount);
    LeaderIsFirst(ranked);
  }
}
