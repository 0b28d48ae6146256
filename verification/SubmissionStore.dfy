/** The result, session, player and member rows as a mutable store, and the submit transaction. */
module SubmissionStore {
  import opened Season
  import opened BestOfRound
  import opened RoundRuns
  import opened Submissions
  import opened SubmissionRuns

  /** How the transaction ends. */
  datatype Ending = Kept | RolledBack

  lemma CollectScore(m: map<ResultId, int>, done: set<ResultId>, r: ResultId)
    requires done <= m.Keys && r in m && r !in done
    ensures BagOn(m, done + {r}) == BagOn(m, done) + multiset{m[r]}
  {
    BagOnPick(m, done + {r}, r);
    assert done + {r} - {r} == done;
  }

  /** Reading only the top rows gives the tally of all of them. */
  lemma TallyFromTop(bestN: int, rows: Rows, m: MemberKey, sorted: seq<int>)
    requires bestN >= 1 && Descending(sorted) && multiset(sorted) == BagOf(CountedRows(rows, m))
    ensures Best(bestN, multiset(TopN(bestN, sorted))) == TallyOf(bestN, rows, m).score
  {
    var games := CountedRows(rows, m);
    BagOnNonNegative(games, games.Keys);
    TopRowsSuffice(bestN, sorted, 0);
  }

  class ResultStore {
    const tb: Table
    const bestN: int
    var rows: Rows
    var sessions: Sessions
    var stats: AllStats
    var tallies: Tallies

    constructor (tb: Table, bestN: int)
      ensures this.tb == tb && this.bestN == bestN && Desk() == EmptyHall().desk
    {
      this.tb, this.bestN := tb, bestN;
      rows, sessions, stats, tallies := map[], map[], map[], map[];
    }

    function Desk(): Desk
      reads this
    {
      Submissions.Desk(rows, sessions, stats, tallies)
    }

    // ----- repository statements -----

    /** The primary key refuses a second row. */
    method Insert(r: ResultId, row: Row) returns (ok: bool)
      modifies `rows
      ensures ok <==> r !in old(rows)
      ensures rows == if ok then old(rows)[r := row] else old(rows)
    {
      ok := r !in rows;
      if ok {
        rows := rows[r := row];
      }
    }

    /** Overwrites a stored forfeit, every column but the owner. */
    method ReplaceForfeit(r: ResultId, row: Row) returns (ok: bool)
      modifies `rows
      ensures ok <==> r in old(rows) && !old(rows)[r].completed
      ensures rows == if ok then old(rows)[r := row.(owner := old(rows)[r].owner)] else old(rows)
    {
      ok := r in rows && !rows[r].completed;
      if ok {
        rows := rows[r := row.(owner := rows[r].owner)];
      }
    }

    /** Single use. */
    method Consume(s: SessionId, r: ResultId) returns (ok: bool)
      modifies `sessions
      ensures ok <==> s in old(sessions) && old(sessions)[s].spent == Unspent
      ensures sessions == if ok then old(sessions)[s := old(sessions)[s].(spent := SpentBy(r))] else old(sessions)
    {
      ok := s in sessions && sessions[s].spent == Unspent;
      if ok {
        sessions := sessions[s := sessions[s].(spent := SpentBy(r))];
      }
    }

    method AddGameStats(p: PlayerId, flawless: nat, score: nat)
      modifies `stats
      ensures stats == if p !in old(stats) then old(stats) else old(stats)[p := Stats(old(stats)[p].games + 1,
        old(stats)[p].flawless + flawless, if old(stats)[p].best < score then score else old(stats)[p].best)]
    {
      if p in stats {
        var s := stats[p];
        stats := stats[p := Stats(s.games + 1, s.flawless + flawless, if s.best < score then score else s.best)];
      }
    }

    /** The best N counted scores of a membership, best first. */
    method RoundScores(m: MemberKey) returns (scores: seq<int>, ghost sorted: seq<int>)
      ensures Descending(sorted) && multiset(sorted) == BagOf(CountedRows(rows, m)) && scores == TopN(bestN, sorted)
    {
      var games := CountedRows(rows, m);
      var all: seq<int> := [];
      var todo := games.Keys;
      while todo != {}
        invariant todo <= games.Keys && multiset(all) == BagOn(games, games.Keys - todo)
        decreases |todo|
      {
        var r :| r in todo;
        CollectScore(games, games.Keys - todo, r);
        assert games.Keys - (todo - {r}) == games.Keys - todo + {r};
        all := all + [games[r]];
        todo := todo - {r};
      }
      assert games.Keys - {} == games.Keys;
      var best := SortDescending(all);
      sorted := best;
      scores := TopN(bestN, best);
    }

    method UpdateMemberScore(m: MemberKey, score: int, games: nat)
      modifies `tallies
      ensures tallies == if m in old(tallies) then old(tallies)[m := Tally(score, games)] else old(tallies)
    {
      if m in tallies {
        tallies := tallies[m := Tally(score, games)];
      }
    }

    // ----- the transaction -----

    /** `applyCompleted`: the stats, and the tally recomputed from the rows. */
    method ApplyCompleted(q: Request, f: Facts)
      requires bestN >= 1 && q.owner in stats
      requires HasRound(tb, f.round) ==> MemberKey(q.owner, f.round) in tallies
      modifies `stats, `tallies
      ensures stats == old(stats)[q.owner := Played(old(stats)[q.owner], f)]
      ensures tallies == if f.counted && HasRound(tb, f.round) then
          old(tallies)[MemberKey(q.owner, f.round) := TallyOf(bestN, rows, MemberKey(q.owner, f.round))]
        else old(tallies)
    {
      AddGameStats(q.owner, if f.flawless then 1 else 0, f.score);
      if f.counted && HasRound(tb, f.round) {
        var m := MemberKey(q.owner, f.round);
        var scores, sorted := RoundScores(m);
        var games := |CountedRows(rows, m).Keys|;
        var score := RoundScore(scores, ScoreRule(BestN, bestN));
        TallyFromTop(bestN, rows, m, sorted);
        UpdateMemberScore(m, score, games);
      }
    }

    /** The session's part: spent on this result, or the request is turned away. */
    method UseSession(q: Request) returns (ok: bool)
      modifies `sessions
      ensures ok <==> SessionAllows(old(sessions), q)
      ensures sessions == if ok then Spend(old(sessions), q) else old(sessions)
    {
      if q.token.NoToken? {
        return true;
      }
      var s := q.token.id;
      if s !in sessions || sessions[s].owner != q.owner {
        return false;
      }
      var consumed := Consume(s, q.result);
      ok := consumed || sessions[s].spent == SpentBy(q.result);
      if ok && !consumed {
        assert sessions[s := sessions[s].(spent := SpentBy(q.result))] == sessions;
      }
    }

    method JoinRound(m: MemberKey)
      modifies `tallies
      ensures tallies == WithMember(tb, old(tallies), m)
    {
      if HasRound(tb, m.round) && m !in tallies {
        tallies := tallies[m := Tally(0, 0)];
      }
    }

    /** The row and what hangs on it; without a row nothing is written. */
    method StoreResult(q: Request, replaceForfeit: bool, f: Facts) returns (stored: bool)
      requires bestN >= 1 && q.owner in stats
      requires HasRound(tb, f.round) ==> MemberKey(q.owner, f.round) in tallies
      modifies `rows, `stats, `tallies
      ensures stored <==> if replaceForfeit then q.result in old(rows) && !old(rows)[q.result].completed
                          else q.result !in old(rows)
      ensures stored ==> Desk() == Store(tb, bestN, old(Desk()), q, f)
      ensures !stored ==> Desk() == old(Desk())
    {
      var row := Row(q.owner, q.token, f.round, q.completed, f.counted, f.flawless, f.score, f.reply);
      if replaceForfeit {
        stored := ReplaceForfeit(q.result, row);
      } else {
        stored := Insert(q.result, row);
      }
      if stored && q.completed {
        ApplyCompleted(q, f);
      }
    }

    method SubmitInTx(q: Request, replaceForfeit: bool, f: Facts) returns (answer: Answer, ending: Ending)
      requires bestN >= 1
      modifies `rows, `sessions, `stats, `tallies
      ensures answer == Submit(tb, bestN, old(Desk()), q, replaceForfeit, f).1
      ensures ending.Kept? ==> Desk() == Submit(tb, bestN, old(Desk()), q, replaceForfeit, f).0
      ensures ending.RolledBack? ==> Submit(tb, bestN, old(Desk()), q, replaceForfeit, f).0 == old(Desk())
      ensures answer.Accepted? ==> ending.Kept? && q.result in rows && IsStored(old(rows), rows[q.result], q, f)
    {
      ghost var before := Desk();
      if q.owner !in stats {
        return Refused, RolledBack;
      }
      var ok := UseSession(q);
      if !ok || f.course == RollsBack {
        return Refused, RolledBack;
      }
      if f.course == StopsEarly {
        return Refused, Kept;
      }
      JoinRound(MemberKey(q.owner, f.round));
      if f.course == Impossible {
        return Refused, Kept;
      }
      var stored := StoreResult(q, replaceForfeit, f);
      if stored {
        AcceptedIsStored(tb, bestN, before, q, replaceForfeit, f);
        return Accepted(f.reply), Kept;
      }
      if replaceForfeit && q.result in rows {
        return Replayed(rows[q.result].reply), Kept;
      }
      return Refused, RolledBack;
    }

    /** `InTx` around it: an error puts every row back, `CommitAndFail` does not. */
    method SubmitResult(q: Request, replaceForfeit: bool, f: Facts) returns (answer: Answer)
      requires bestN >= 1
      modifies `rows, `sessions, `stats, `tallies
      ensures (Desk(), answer) == Submit(tb, bestN, old(Desk()), q, replaceForfeit, f)
      ensures answer.Accepted? ==> q.result in rows && IsStored(old(rows), rows[q.result], q, f)
      ensures answer.Accepted? && TalliesOk(tb, bestN, old(rows), old(tallies)) && !Misdirected(old(Desk()), q, replaceForfeit, f) ==>
        CountsTheGame(tb, bestN, old(Desk()), q, f, tallies)
    {
      var before := Desk();
      var reply, ending := SubmitInTx(q, replaceForfeit, f);
      answer := reply;
      if ending.RolledBack? {
        rows, sessions, stats, tallies := before.rows, before.sessions, before.stats, before.tallies;
      }
      if answer.Accepted? {
        AcceptedIsStored(tb, bestN, before, q, replaceForfeit, f);
        if TalliesOk(tb, bestN, before.rows, before.tallies) && !Misdirected(before, q, replaceForfeit, f) {
          AcceptedTallies(tb, bestN, before, q, replaceForfeit, f);
        }
      }
    }

    // ----- accounts -----

    /** Also for an id that belonged to somebody before; an id in use is refused. */
    method Register(p: PlayerId) returns (ok: bool)
      modifies `stats
      ensures ok <==> p !in old(stats)
      ensures stats == if ok then old(stats)[p := Stats(0, 0, 0)] else old(stats)
    {
      ok := p !in stats;
      if ok {
        stats := stats[p := Stats(0, 0, 0)];
      }
    }

    /** The player row with its cascades. */
    method DeleteAccount(p: PlayerId)
      modifies `rows, `sessions, `stats, `tallies
      ensures Desk() == Removed(old(Desk()), p)
    {
      var kept := map r | r in rows && rows[r].owner != p :: rows[r];
      rows := map r | r in kept ::
        if kept[r].session.Token? && OwnedBy(sessions, kept[r].session.id, p) then kept[r].(session := NoToken) else kept[r];
      sessions := map s | s in sessions && sessions[s].owner != p :: sessions[s];
      stats := stats - {p};
      tallies := map m | m in tallies && m.player != p :: tallies[m];
    }
  }
}
