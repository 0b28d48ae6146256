/** What every interleaving of submissions keeps: results only move forward, a completed result is
    answered by its stored response for good, and every denormalised number equals recomputation. */
module SubmissionRuns {
  import opened Season
  import opened BestOfRound
  import opened RoundRuns
  import opened Submissions

  // ----- the invariant -----

  ghost predicate RowsOk(rows: Rows, stats: AllStats) {
    forall r :: r in rows ==> rows[r].owner in stats
  }

  /** A result's session was spent on that result, by its owner: so no two results share one. */
  ghost predicate SessionsOk(rows: Rows, sessions: Sessions) {
    forall r :: r in rows && rows[r].session.Token? ==>
      && rows[r].session.id in sessions
      && sessions[rows[r].session.id] == Session(rows[r].owner, SpentBy(r))
  }

  function CompletedOf(rows: Rows, p: PlayerId): set<ResultId> {
    set r | r in rows && rows[r].owner == p && rows[r].completed
  }

  function FlawlessOf(rows: Rows, p: PlayerId): set<ResultId> {
    set r | r in rows && rows[r].owner == p && rows[r].completed && rows[r].flawless
  }

  /** The largest score of the completed results, or 0. */
  ghost predicate IsBest(rows: Rows, p: PlayerId, best: nat) {
    && (forall r :: r in CompletedOf(rows, p) ==> rows[r].score <= best)
    && (best == 0 || exists r :: r in CompletedOf(rows, p) && rows[r].score == best)
  }

  ghost predicate StatsFit(rows: Rows, p: PlayerId, s: Stats) {
    s.games == |CompletedOf(rows, p)| && s.flawless == |FlawlessOf(rows, p)| && IsBest(rows, p, s.best)
  }

  ghost predicate StatsOk(rows: Rows, stats: AllStats) {
    forall p :: p in stats ==> StatsFit(rows, p, stats[p])
  }

  /** Counted results of a tier with rounds have their membership, and its tally is recomputation. */
  ghost predicate TalliesOk(tb: Table, bestN: int, rows: Rows, tallies: Tallies) {
    && (forall m :: m in tallies ==> HasRound(tb, m.round) && tallies[m] == TallyOf(bestN, rows, m))
    && (forall r :: r in rows && rows[r].completed && rows[r].counted && HasRound(tb, rows[r].round) ==>
          MemberKey(rows[r].owner, rows[r].round) in tallies)
  }

  /** The tables, without the waiting requests. */
  ghost predicate DeskOk(tb: Table, bestN: int, d: Desk) {
    RowsOk(d.rows, d.stats) && SessionsOk(d.rows, d.sessions) && StatsOk(d.rows, d.stats) && TalliesOk(tb, bestN, d.rows, d.tallies)
  }

  // ----- storing a result -----

  /** What the transaction knows when it stores: the row is new, or the owner's own forfeit. */
  ghost predicate Storable(d: Desk, q: Request) {
    && q.owner in d.stats
    && (q.result in d.rows ==> !d.rows[q.result].completed && d.rows[q.result].owner == q.owner)
  }

  lemma StoredSets(rows: Rows, q: Request, f: Facts)
    requires q.completed
    requires q.result in rows ==> !rows[q.result].completed && rows[q.result].owner == q.owner
    ensures var after := rows[q.result := NewRow(rows, q, f)];
      && CompletedOf(after, q.owner) == CompletedOf(rows, q.owner) + {q.result}
      && FlawlessOf(after, q.owner) == (if f.flawless then FlawlessOf(rows, q.owner) + {q.result} else FlawlessOf(rows, q.owner))
      && q.result !in CompletedOf(rows, q.owner) && q.result !in FlawlessOf(rows, q.owner)
  {
  }

  lemma StoredStats(rows: Rows, q: Request, f: Facts, s: Stats)
    requires q.completed && StatsFit(rows, q.owner, s)
    requires q.result in rows ==> !rows[q.result].completed && rows[q.result].owner == q.owner
    ensures StatsFit(rows[q.result := NewRow(rows, q, f)], q.owner, Played(s, f))
  {
    StoredSets(rows, q, f);
    StoredBest(rows, q, f, s.best);
  }

  lemma StoredBest(rows: Rows, q: Request, f: Facts, best: nat)
    requires q.completed && IsBest(rows, q.owner, best)
    requires q.result in rows ==> !rows[q.result].completed && rows[q.result].owner == q.owner
    ensures IsBest(rows[q.result := NewRow(rows, q, f)], q.owner, if best < f.score then f.score else best)
  {
    var after := rows[q.result := NewRow(rows, q, f)];
    assert q.result in CompletedOf(after, q.owner) && after[q.result].score == f.score;
    if best != 0 && best >= f.score {
      var r :| r in CompletedOf(rows, q.owner) && rows[r].score == best;
      assert r in CompletedOf(after, q.owner) && after[r].score == best;
    }
  }

  /** The columns of a completed row that the denormalised numbers are made of. */
  datatype Game = NoGame | Game(owner: PlayerId, round: RoundKey, flawless: bool, counted: bool, score: nat)

  function GameOf(rows: Rows, r: ResultId): Game {
    if r in rows && rows[r].completed then
      Game(rows[r].owner, rows[r].round, rows[r].flawless, rows[r].counted, rows[r].score)
    else NoGame
  }

  ghost predicate SameGames(rows: Rows, after: Rows) {
    forall r :: GameOf(rows, r) == GameOf(after, r)
  }

  lemma SameStats(rows: Rows, after: Rows, p: PlayerId, s: Stats)
    requires StatsFit(rows, p, s)
    requires forall r :: r in CompletedOf(rows, p) || r in CompletedOf(after, p) ==> GameOf(rows, r) == GameOf(after, r)
    ensures StatsFit(after, p, s)
  {
    assert forall r :: r in CompletedOf(rows, p) <==> GameOf(rows, r).Game? && GameOf(rows, r).owner == p;
    assert forall r :: r in CompletedOf(after, p) <==> GameOf(after, r).Game? && GameOf(after, r).owner == p;
    assert forall r :: r in FlawlessOf(rows, p) <==> r in CompletedOf(rows, p) && GameOf(rows, r).flawless;
    assert forall r :: r in FlawlessOf(after, p) <==> r in CompletedOf(after, p) && GameOf(after, r).flawless;
    assert CompletedOf(rows, p) == CompletedOf(after, p);
    assert FlawlessOf(rows, p) == FlawlessOf(after, p);
    if s.best != 0 {
      var r :| r in CompletedOf(rows, p) && rows[r].score == s.best;
      assert r in CompletedOf(after, p) && after[r].score == s.best;
    }
  }

  /** Sweeping sessions and storing forfeits leave every game as it is. */
  lemma SameGamesSameNumbers(tb: Table, bestN: int, rows: Rows, after: Rows, stats: AllStats, tallies: Tallies)
    requires SameGames(rows, after) && StatsOk(rows, stats) && TalliesOk(tb, bestN, rows, tallies)
    ensures StatsOk(after, stats) && TalliesOk(tb, bestN, after, tallies)
  {
    forall p | p in stats
      ensures StatsFit(after, p, stats[p])
    {
      SameStats(rows, after, p, stats[p]);
    }
    forall m | m in tallies
      ensures CountedRows(rows, m) == CountedRows(after, m)
    {
      SameCounted(rows, after, m);
    }
    forall r | r in after && after[r].completed && after[r].counted && HasRound(tb, after[r].round)
      ensures MemberKey(after[r].owner, after[r].round) in tallies
    {
      assert GameOf(rows, r) == GameOf(after, r);
    }
  }

  lemma SameCounted(rows: Rows, after: Rows, m: MemberKey)
    requires forall r :: r in CompletedOf(rows, m.player) || r in CompletedOf(after, m.player) ==> GameOf(rows, r) == GameOf(after, r)
    ensures CountedRows(rows, m) == CountedRows(after, m)
  {
    forall r
      ensures r in CountedRows(rows, m) <==> r in CountedRows(after, m)
      ensures r in CountedRows(rows, m) ==> CountedRows(rows, m)[r] == CountedRows(after, m)[r]
    {
      assert r in CountedRows(rows, m) ==> r in CompletedOf(rows, m.player);
      assert r in CountedRows(after, m) ==> r in CompletedOf(after, m.player);
    }
  }

  /** Of the memberships, only the one credited notices a stored game. */
  lemma StoredCounted(rows: Rows, q: Request, f: Facts, m: MemberKey)
    requires q.result in rows ==> !rows[q.result].completed && rows[q.result].owner == q.owner
    requires m != MemberKey(q.owner, f.round) || !q.completed || !f.counted
    ensures CountedRows(rows[q.result := NewRow(rows, q, f)], m) == CountedRows(rows, m)
  {
  }

  lemma NoGamesNoTally(bestN: int, rows: Rows, m: MemberKey)
    requires CountedRows(rows, m) == map[]
    ensures TallyOf(bestN, rows, m) == Tally(0, 0)
  {
  }

  /** A player who joins a round has no counted game in it yet. */
  lemma JoinKeepsTallies(tb: Table, bestN: int, rows: Rows, tallies: Tallies, m: MemberKey)
    requires TalliesOk(tb, bestN, rows, tallies)
    ensures TalliesOk(tb, bestN, rows, WithMember(tb, tallies, m))
  {
    if HasRound(tb, m.round) && m !in tallies {
      assert CountedRows(rows, m) == map[];
      NoGamesNoTally(bestN, rows, m);
    }
  }

  lemma StoreKeepsTally(tb: Table, bestN: int, d: Desk, q: Request, f: Facts, m: MemberKey)
    requires TalliesOk(tb, bestN, d.rows, d.tallies) && Storable(d, q) && m in d.tallies
    ensures var after := Store(tb, bestN, d, q, f);
      m in after.tallies && after.tallies[m] == TallyOf(bestN, after.rows, m)
  {
    if m != MemberKey(q.owner, f.round) || !q.completed || !f.counted {
      StoredCounted(d.rows, q, f, m);
    }
  }

  lemma StoreKeepsMembers(tb: Table, bestN: int, d: Desk, q: Request, f: Facts, r: ResultId)
    requires TalliesOk(tb, bestN, d.rows, d.tallies) && Storable(d, q)
    requires HasRound(tb, f.round) ==> MemberKey(q.owner, f.round) in d.tallies
    ensures var after := Store(tb, bestN, d, q, f);
      r in after.rows && after.rows[r].completed && after.rows[r].counted && HasRound(tb, after.rows[r].round) ==>
        MemberKey(after.rows[r].owner, after.rows[r].round) in d.tallies
  {
  }

  lemma StoreKeepsTallies(tb: Table, bestN: int, d: Desk, q: Request, f: Facts)
    requires TalliesOk(tb, bestN, d.rows, d.tallies) && Storable(d, q)
    requires HasRound(tb, f.round) ==> MemberKey(q.owner, f.round) in d.tallies
    ensures var after := Store(tb, bestN, d, q, f); TalliesOk(tb, bestN, after.rows, after.tallies)
  {
    var after := Store(tb, bestN, d, q, f);
    assert after.tallies.Keys == d.tallies.Keys;
    forall m | m in after.tallies
      ensures HasRound(tb, m.round) && after.tallies[m] == TallyOf(bestN, after.rows, m)
    {
      StoreKeepsTally(tb, bestN, d, q, f, m);
    }
    forall r | r in after.rows && after.rows[r].completed && after.rows[r].counted && HasRound(tb, after.rows[r].round)
      ensures MemberKey(after.rows[r].owner, after.rows[r].round) in after.tallies
    {
      StoreKeepsMembers(tb, bestN, d, q, f, r);
    }
  }

  lemma StoreKeepsStats(tb: Table, bestN: int, d: Desk, q: Request, f: Facts)
    requires StatsOk(d.rows, d.stats) && Storable(d, q)
    ensures var after := Store(tb, bestN, d, q, f); StatsOk(after.rows, after.stats)
  {
    var after := Store(tb, bestN, d, q, f);
    forall p | p in after.stats
      ensures StatsFit(after.rows, p, after.stats[p])
    {
      if p == q.owner && q.completed {
        StoredStats(d.rows, q, f, d.stats[p]);
      } else {
        forall r | r in CompletedOf(d.rows, p) || r in CompletedOf(after.rows, p)
          ensures GameOf(d.rows, r) == GameOf(after.rows, r)
        {
        }
        SameStats(d.rows, after.rows, p, d.stats[p]);
      }
    }
  }

  lemma SpendKeeps(d: Desk, q: Request)
    requires SessionsOk(d.rows, d.sessions) && SessionAllows(d.sessions, q)
    ensures SessionsOk(d.rows, Spend(d.sessions, q))
  {
  }

  lemma StoreKeepsSessions(tb: Table, bestN: int, d: Desk, q: Request, f: Facts)
    requires SessionsOk(d.rows, d.sessions) && Storable(d, q)
    requires q.token.Token? ==> q.token.id in d.sessions && d.sessions[q.token.id] == Session(q.owner, SpentBy(q.result))
    ensures var after := Store(tb, bestN, d, q, f); SessionsOk(after.rows, after.sessions)
  {
  }

  lemma PreparedKeeps(tb: Table, bestN: int, d: Desk, q: Request, f: Facts)
    requires SessionAllows(d.sessions, q) && SessionsOk(d.rows, d.sessions) && TalliesOk(tb, bestN, d.rows, d.tallies)
    ensures var ready := Prepared(tb, d, q, f);
      && SessionsOk(ready.rows, ready.sessions) && TalliesOk(tb, bestN, ready.rows, ready.tallies)
      && (HasRound(tb, f.round) ==> MemberKey(q.owner, f.round) in ready.tallies)
      && (q.token.Token? ==>
            q.token.id in ready.sessions && ready.sessions[q.token.id] == Session(q.owner, SpentBy(q.result)))
  {
    SpendKeeps(d, q);
    JoinKeepsTallies(tb, bestN, d.rows, d.tallies, MemberKey(q.owner, f.round));
  }

  lemma StoreKeeps(tb: Table, bestN: int, d: Desk, q: Request, f: Facts)
    requires DeskOk(tb, bestN, d) && Storable(d, q)
    requires HasRound(tb, f.round) ==> MemberKey(q.owner, f.round) in d.tallies
    requires q.token.Token? ==> q.token.id in d.sessions && d.sessions[q.token.id] == Session(q.owner, SpentBy(q.result))
    ensures DeskOk(tb, bestN, Store(tb, bestN, d, q, f))
  {
    StoreKeepsTallies(tb, bestN, d, q, f);
    StoreKeepsStats(tb, bestN, d, q, f);
    StoreKeepsSessions(tb, bestN, d, q, f);
  }

  /** The commit writes over a forfeit. */
  predicate Overwrites(d: Desk, q: Request, replace: bool, f: Facts) {
    && replace && q.owner in d.stats && SessionAllows(d.sessions, q) && f.course == Proceeds
    && q.result in d.rows && !d.rows[q.result].completed
  }

  /** It writes over the forfeit of somebody else. */
  predicate Misdirected(d: Desk, q: Request, replace: bool, f: Facts) {
    Overwrites(d, q, replace, f) && d.rows[q.result].owner != q.owner
  }

  /** The desk after a transaction is the one before, with the session spent, prepared, or stored. */
  lemma SubmitCases(tb: Table, bestN: int, d: Desk, q: Request, replace: bool, f: Facts)
    ensures var after := Submit(tb, bestN, d, q, replace, f).0;
      || after == d
      || (SessionAllows(d.sessions, q) && after == d.(sessions := Spend(d.sessions, q)))
      || (SessionAllows(d.sessions, q) && after == Prepared(tb, d, q, f))
      || (SessionAllows(d.sessions, q) && q.owner in d.stats && (q.result in d.rows ==> Overwrites(d, q, replace, f))
          && after == Store(tb, bestN, Prepared(tb, d, q, f), q, f))
  {
  }

  lemma PreparedStoreKeeps(tb: Table, bestN: int, d: Desk, q: Request, f: Facts)
    requires DeskOk(tb, bestN, d) && SessionAllows(d.sessions, q)
    ensures DeskOk(tb, bestN, d.(sessions := Spend(d.sessions, q))) && DeskOk(tb, bestN, Prepared(tb, d, q, f))
    ensures Storable(d, q) ==> DeskOk(tb, bestN, Store(tb, bestN, Prepared(tb, d, q, f), q, f))
  {
    SpendKeeps(d, q);
    PreparedKeeps(tb, bestN, d, q, f);
    if Storable(d, q) {
      StoreKeeps(tb, bestN, Prepared(tb, d, q, f), q, f);
    }
  }

  lemma SubmitKeeps(tb: Table, bestN: int, d: Desk, q: Request, replace: bool, f: Facts)
    requires DeskOk(tb, bestN, d) && !Misdirected(d, q, replace, f)
    ensures DeskOk(tb, bestN, Submit(tb, bestN, d, q, replace, f).0)
  {
    SubmitCases(tb, bestN, d, q, replace, f);
    if SessionAllows(d.sessions, q) {
      PreparedStoreKeeps(tb, bestN, d, q, f);
    }
  }

  /** A game counted for one player and stored for another: the stats of the first no longer add up. */
  lemma MisdirectedBreaks(tb: Table, bestN: int, d: Desk, q: Request, replace: bool, f: Facts)
    requires StatsOk(d.rows, d.stats) && Misdirected(d, q, replace, f) && q.completed
    ensures var after := Submit(tb, bestN, d, q, replace, f).0;
      q.owner in after.stats && !StatsFit(after.rows, q.owner, after.stats[q.owner])
  {
    var after := Submit(tb, bestN, d, q, replace, f).0;
    assert CompletedOf(after.rows, q.owner) == CompletedOf(d.rows, q.owner);
  }

  /** A commit keeps the tables in order exactly when the forfeit it writes over, if it does write over
      one, is the requester's own. */
  lemma CommitKeepsIff(tb: Table, bestN: int, d: Desk, q: Request, replace: bool, f: Facts)
    requires DeskOk(tb, bestN, d) && (replace ==> q.completed)
    ensures DeskOk(tb, bestN, Submit(tb, bestN, d, q, replace, f).0) <==>
      (Overwrites(d, q, replace, f) ==> d.rows[q.result].owner == q.owner)
  {
    if Misdirected(d, q, replace, f) {
      MisdirectedBreaks(tb, bestN, d, q, replace, f);
    } else {
      SubmitKeeps(tb, bestN, d, q, replace, f);
    }
  }

  // ----- every move -----

  /** Owners are for good, and completed results too, but for a swept session, as long as the account
      is there. */
  ghost predicate RowsAdvance(rows: Rows, after: Rows, gone: set<PlayerId>) {
    forall r :: r in rows && rows[r].owner !in gone ==>
      && r in after && after[r].owner == rows[r].owner
      && (rows[r].completed ==> after[r] == rows[r] || after[r] == rows[r].(session := NoToken))
  }

  lemma SubmitAdvances(tb: Table, bestN: int, d: Desk, q: Request, replace: bool, f: Facts)
    ensures RowsAdvance(d.rows, Submit(tb, bestN, d, q, replace, f).0.rows, {})
  {
    SubmitCases(tb, bestN, d, q, replace, f);
  }

  lemma SweepLeavesGames(d: Desk, s: SessionId)
    ensures SameGames(d.rows, Swept(d, s).rows) && RowsAdvance(d.rows, Swept(d, s).rows, {})
  {
  }

  lemma SweepKeepsSessions(d: Desk, s: SessionId)
    requires SessionsOk(d.rows, d.sessions)
    ensures SessionsOk(Swept(d, s).rows, Swept(d, s).sessions)
  {
  }

  lemma SweepKeeps(tb: Table, bestN: int, d: Desk, s: SessionId)
    requires DeskOk(tb, bestN, d)
    ensures DeskOk(tb, bestN, Swept(d, s))
  {
    SweepLeavesGames(d, s);
    SweepKeepsSessions(d, s);
    SameGamesSameNumbers(tb, bestN, d.rows, Swept(d, s).rows, d.stats, d.tallies);
  }

  lemma RegisterKeeps(tb: Table, bestN: int, d: Desk, p: PlayerId)
    requires DeskOk(tb, bestN, d) && p !in d.stats
    ensures DeskOk(tb, bestN, d.(stats := d.stats[p := Stats(0, 0, 0)]))
  {
    assert CompletedOf(d.rows, p) == {} && FlawlessOf(d.rows, p) == {};
  }

  /** Deleting an account leaves everybody else's games as they are. */
  lemma OthersKeepTheirGames(d: Desk, p: PlayerId, o: PlayerId)
    requires o != p
    ensures var after := Removed(d, p).rows;
      forall r :: r in CompletedOf(d.rows, o) || r in CompletedOf(after, o) ==> GameOf(d.rows, r) == GameOf(after, r)
  {
  }

  lemma RemovalKeepsStats(d: Desk, p: PlayerId)
    requires StatsOk(d.rows, d.stats)
    ensures StatsOk(Removed(d, p).rows, Removed(d, p).stats)
  {
    forall o | o in d.stats && o != p
      ensures StatsFit(Removed(d, p).rows, o, d.stats[o])
    {
      OthersKeepTheirGames(d, p, o);
      SameStats(d.rows, Removed(d, p).rows, o, d.stats[o]);
    }
  }

  lemma RemovalKeepsTallies(tb: Table, bestN: int, d: Desk, p: PlayerId)
    requires TalliesOk(tb, bestN, d.rows, d.tallies)
    ensures TalliesOk(tb, bestN, Removed(d, p).rows, Removed(d, p).tallies)
  {
    var after := Removed(d, p);
    forall m | m in after.tallies
      ensures CountedRows(after.rows, m) == CountedRows(d.rows, m)
    {
      OthersKeepTheirGames(d, p, m.player);
      SameCounted(d.rows, after.rows, m);
    }
  }

  lemma RemovalKeepsRows(d: Desk, p: PlayerId)
    requires RowsOk(d.rows, d.stats) && SessionsOk(d.rows, d.sessions)
    ensures RowsOk(Removed(d, p).rows, Removed(d, p).stats) && SessionsOk(Removed(d, p).rows, Removed(d, p).sessions)
  {
  }

  lemma RemovalKeeps(tb: Table, bestN: int, d: Desk, p: PlayerId)
    requires DeskOk(tb, bestN, d)
    ensures DeskOk(tb, bestN, Removed(d, p))
  {
    RemovalKeepsRows(d, p);
    RemovalKeepsStats(d, p);
    RemovalKeepsTallies(tb, bestN, d, p);
  }

  /** A move that is not a commit over somebody else's forfeit. */
  predicate OwnRow(h: Hall, move: Move) {
    move.Commits? && move.c in h.pending ==>
      !Misdirected(h.desk, h.pending[move.c].request, h.pending[move.c].replaceForfeit, move.facts)
  }

  /** Every move keeps the tables in order, but for that one. */
  lemma MoveKeeps(tb: Table, bestN: int, h: Hall, move: Move)
    requires DeskOk(tb, bestN, h.desk) && CanMove(tb, h, move) && OwnRow(h, move)
    ensures DeskOk(tb, bestN, Moves(tb, bestN, h, move).desk)
  {
    match move
    case Registers(p) => RegisterKeeps(tb, bestN, h.desk, p);
    case Deletes(p) => RemovalKeeps(tb, bestN, h.desk, p);
    case Mints(s, p) =>
    case Sweeps(s) => SweepKeeps(tb, bestN, h.desk, s);
    case JoinsRound(m) => JoinKeepsTallies(tb, bestN, h.desk.rows, h.desk.tallies, m);
    case Asks(c, q) =>
    case Commits(c, f) => SubmitKeeps(tb, bestN, h.desk, h.pending[c].request, h.pending[c].replaceForfeit, f);
  }

  function GoneBy(move: Move): set<PlayerId> {
    if move.Deletes? then {move.p} else {}
  }

  /** And no move whatever takes a result back, but the deletion of its owner's account. */
  lemma MoveAdvances(tb: Table, bestN: int, h: Hall, move: Move)
    requires CanMove(tb, h, move)
    ensures RowsAdvance(h.desk.rows, Moves(tb, bestN, h, move).desk.rows, GoneBy(move))
  {
    match move
    case Sweeps(s) => SweepLeavesGames(h.desk, s);
    case Commits(c, f) => SubmitAdvances(tb, bestN, h.desk, h.pending[c].request, h.pending[c].replaceForfeit, f);
    case _ =>
  }

  // ----- whole runs -----

  ghost predicate Goes(tb: Table, bestN: int, h: Hall, moves: seq<Move>, v: Hall)
    decreases |moves|
  {
    if moves == [] then v == h
    else CanMove(tb, h, moves[0]) && Goes(tb, bestN, Moves(tb, bestN, h, moves[0]), moves[1..], v)
  }

  /** No commit of the run writes over somebody else's forfeit. */
  ghost predicate OwnRows(tb: Table, bestN: int, h: Hall, moves: seq<Move>)
    decreases |moves|
  {
    moves != [] && CanMove(tb, h, moves[0]) ==>
      OwnRow(h, moves[0]) && OwnRows(tb, bestN, Moves(tb, bestN, h, moves[0]), moves[1..])
  }

  function EmptyHall(): Hall {
    Hall(Desk(map[], map[], map[], map[]), map[])
  }

  lemma EmptyIsOk(tb: Table, bestN: int)
    ensures DeskOk(tb, bestN, EmptyHall().desk)
  {
  }

  lemma {:induction false} GoesKeeps(tb: Table, bestN: int, h: Hall, moves: seq<Move>, v: Hall)
    requires DeskOk(tb, bestN, h.desk) && Goes(tb, bestN, h, moves, v) && OwnRows(tb, bestN, h, moves)
    ensures DeskOk(tb, bestN, v.desk)
    decreases |moves|
  {
    if moves != [] {
      MoveKeeps(tb, bestN, h, moves[0]);
      GoesKeeps(tb, bestN, Moves(tb, bestN, h, moves[0]), moves[1..], v);
    }
  }

  ghost predicate NoSharedSession(rows: Rows) {
    forall r, s :: NamesSameSession(rows, r, s) ==> r == s
  }

  predicate NamesSameSession(rows: Rows, r: ResultId, s: ResultId) {
    r in rows && s in rows && rows[r].session.Token? && rows[r].session == rows[s].session
  }

  lemma SessionsNotShared(rows: Rows, sessions: Sessions)
    requires SessionsOk(rows, sessions)
    ensures NoSharedSession(rows)
  {
    forall r, s | NamesSameSession(rows, r, s)
      ensures r == s
    {
      assert sessions[rows[r].session.id].spent == SpentBy(r);
      assert sessions[rows[s].session.id].spent == SpentBy(s);
    }
  }

  /** In every state a run can reach without a commit over somebody else's forfeit: the stats are
      recomputation over the completed results, the tallies best-N and count over the counted ones, and
      two results never share a session. */
  lemma NumbersAreRecomputation(tb: Table, bestN: int, moves: seq<Move>, v: Hall)
    requires Goes(tb, bestN, EmptyHall(), moves, v) && OwnRows(tb, bestN, EmptyHall(), moves)
    ensures forall p :: p in v.desk.stats ==> StatsFit(v.desk.rows, p, v.desk.stats[p])
    ensures forall m :: m in v.desk.tallies ==> v.desk.tallies[m] == TallyOf(bestN, v.desk.rows, m)
    ensures NoSharedSession(v.desk.rows)
  {
    EmptyIsOk(tb, bestN);
    GoesKeeps(tb, bestN, EmptyHall(), moves, v);
    SessionsNotShared(v.desk.rows, v.desk.sessions);
  }

  // ----- requests that outlive an account -----

  /** A deletion that no replacing request of the player waits through. */
  ghost predicate NobodyWaits(h: Hall, move: Move) {
    move.Deletes? ==> forall c :: c in h.pending && h.pending[c].replaceForfeit ==> h.pending[c].request.owner != move.p
  }

  ghost predicate NobodyEverWaits(tb: Table, bestN: int, h: Hall, moves: seq<Move>)
    decreases |moves|
  {
    moves != [] && CanMove(tb, h, moves[0]) ==>
      NobodyWaits(h, moves[0]) && NobodyEverWaits(tb, bestN, Moves(tb, bestN, h, moves[0]), moves[1..])
  }

  /** A request that found a forfeit still finds its owner's row. */
  ghost predicate PendingOk(h: Hall) {
    forall c :: c in h.pending && h.pending[c].replaceForfeit ==>
      var q := h.pending[c].request;
      q.completed && q.result in h.desk.rows && h.desk.rows[q.result].owner == q.owner
  }

  lemma MoveKeepsPending(tb: Table, bestN: int, h: Hall, move: Move)
    requires PendingOk(h) && CanMove(tb, h, move) && NobodyWaits(h, move)
    ensures PendingOk(Moves(tb, bestN, h, move))
  {
    MoveAdvances(tb, bestN, h, move);
    var v := Moves(tb, bestN, h, move);
    forall c | c in v.pending && v.pending[c].replaceForfeit
      ensures var q := v.pending[c].request; q.completed && q.result in v.desk.rows && v.desk.rows[q.result].owner == q.owner
    {
      if c in h.pending {
        assert v.pending[c] == h.pending[c] && h.pending[c].request.owner !in GoneBy(move);
      }
    }
  }

  /** If no replacing request outlives its owner's account, no commit writes over somebody else's
      forfeit: the numbers are recomputation in all those runs. */
  lemma {:induction false} NobodyWaitsOwnRows(tb: Table, bestN: int, h: Hall, moves: seq<Move>)
    requires PendingOk(h) && NobodyEverWaits(tb, bestN, h, moves)
    ensures OwnRows(tb, bestN, h, moves)
    decreases |moves|
  {
    if moves != [] && CanMove(tb, h, moves[0]) {
      MoveKeepsPending(tb, bestN, h, moves[0]);
      NobodyWaitsOwnRows(tb, bestN, Moves(tb, bestN, h, moves[0]), moves[1..]);
    }
  }

  lemma NumbersWhenNobodyWaits(tb: Table, bestN: int, moves: seq<Move>, v: Hall)
    requires Goes(tb, bestN, EmptyHall(), moves, v) && NobodyEverWaits(tb, bestN, EmptyHall(), moves)
    ensures forall p :: p in v.desk.stats ==> StatsFit(v.desk.rows, p, v.desk.stats[p])
    ensures forall m :: m in v.desk.tallies ==> v.desk.tallies[m] == TallyOf(bestN, v.desk.rows, m)
    ensures NoSharedSession(v.desk.rows)
  {
    NobodyWaitsOwnRows(tb, bestN, EmptyHall(), moves);
    NumbersAreRecomputation(tb, bestN, moves, v);
  }

  // ----- finished for good -----

  datatype Stage = Absent | Forfeited | Finished

  function StageOf(rows: Rows, r: ResultId): Stage {
    if r !in rows then Absent else if rows[r].completed then Finished else Forfeited
  }

  /** The owner's every request for r is answered at once, with that response. */
  ghost predicate ReadsAs(rows: Rows, owner: PlayerId, r: ResultId, reply: Reply) {
    forall q: Request :: q.result == r && q.owner == owner ==> Read(rows, q) == Answers(Replayed(reply))
  }

  /** A transaction that still runs for r gives that response or none. */
  ghost predicate CommitsAs(tb: Table, bestN: int, h: Hall, r: ResultId, reply: Reply) {
    forall c, f :: c in h.pending && h.pending[c].request.result == r ==>
      AnswerTo(tb, bestN, h, Commits(c, f)) in {Refused, Replayed(reply)}
  }

  lemma FinishedCommits(tb: Table, bestN: int, h: Hall, r: ResultId)
    requires StageOf(h.desk.rows, r).Finished?
    ensures CommitsAs(tb, bestN, h, r, h.desk.rows[r].reply)
  {
    forall c, f | c in h.pending && h.pending[c].request.result == r
      ensures AnswerTo(tb, bestN, h, Commits(c, f)) in {Refused, Replayed(h.desk.rows[r].reply)}
    {
      var p := h.pending[c];
      assert Submit(tb, bestN, h.desk, p.request, p.replaceForfeit, f).1 in {Refused, Replayed(h.desk.rows[r].reply)};
    }
  }

  function GoneIn(moves: seq<Move>): set<PlayerId> {
    if moves == [] then {} else GoneBy(moves[0]) + GoneIn(moves[1..])
  }

  lemma AdvanceTransitive(rows: Rows, mid: Rows, after: Rows, a: set<PlayerId>, b: set<PlayerId>)
    requires RowsAdvance(rows, mid, a) && RowsAdvance(mid, after, b)
    ensures RowsAdvance(rows, after, a + b)
  {
  }

  lemma {:induction false} GoesAdvances(tb: Table, bestN: int, h: Hall, moves: seq<Move>, v: Hall)
    requires Goes(tb, bestN, h, moves, v)
    ensures RowsAdvance(h.desk.rows, v.desk.rows, GoneIn(moves))
    decreases |moves|
  {
    if moves != [] {
      var u := Moves(tb, bestN, h, moves[0]);
      MoveAdvances(tb, bestN, h, moves[0]);
      GoesAdvances(tb, bestN, u, moves[1..], v);
      AdvanceTransitive(h.desk.rows, u.desk.rows, v.desk.rows, GoneBy(moves[0]), GoneIn(moves[1..]));
    }
  }

  /** Along any run at all, as long as its owner's account is not deleted, a result only goes from
      absent to forfeited to finished; once finished, its stored response is what the owner's every
      later request reads, and what every request already waiting gets if it gets a response at all. */
  lemma FinishedForGood(tb: Table, bestN: int, h: Hall, moves: seq<Move>, v: Hall, r: ResultId)
    requires Goes(tb, bestN, h, moves, v) && r in h.desk.rows && h.desk.rows[r].owner !in GoneIn(moves)
    ensures StageOf(h.desk.rows, r).Forfeited? ==> !StageOf(v.desk.rows, r).Absent?
    ensures StageOf(h.desk.rows, r).Finished? ==>
      && StageOf(v.desk.rows, r).Finished?
      && ReadsAs(v.desk.rows, h.desk.rows[r].owner, r, h.desk.rows[r].reply)
      && CommitsAs(tb, bestN, v, r, h.desk.rows[r].reply)
  {
    GoesAdvances(tb, bestN, h, moves, v);
    if StageOf(h.desk.rows, r).Finished? {
      FinishedCommits(tb, bestN, v, r);
    }
  }

  // ----- what an answer means -----

  /** The request's session, if it names one, is the player's own and spent on no other result. */
  ghost predicate SessionIsFree(d: Desk, q: Request) {
    q.token == NoToken || exists s :: NamesFreeSession(d, q, s)
  }

  predicate NamesFreeSession(d: Desk, q: Request, s: SessionId) {
    && q.token == Token(s) && s in d.sessions
    && (d.sessions[s] == Session(q.owner, Unspent) || d.sessions[s] == Session(q.owner, SpentBy(q.result)))
  }

  lemma FreeIsAllowed(d: Desk, q: Request)
    ensures SessionIsFree(d, q) <==> SessionAllows(d.sessions, q)
  {
    if q.token.Token? && q.token.id in d.sessions {
      var s := d.sessions[q.token.id];
      assert s == Session(s.owner, s.spent);
      assert NamesFreeSession(d, q, q.token.id) <==> SessionAllows(d.sessions, q);
    }
  }

  /** A request is accepted exactly when its account is there, its session is the player's own and spent
      on no other result, the game is let through, and the row is new, or for a replacement a forfeit. */
  lemma AcceptedExactly(tb: Table, bestN: int, d: Desk, q: Request, replace: bool, f: Facts)
    ensures Submit(tb, bestN, d, q, replace, f).1.Accepted? <==>
      && q.owner in d.stats && f.course == Proceeds && SessionIsFree(d, q)
      && (if replace then q.result in d.rows && !d.rows[q.result].completed else q.result !in d.rows)
  {
    FreeIsAllowed(d, q);
  }

  /** The row of the game: what the request and the server say of it; a replaced forfeit keeps its owner. */
  ghost predicate IsStored(rows: Rows, row: Row, q: Request, f: Facts) {
    && row.owner == (if q.result in rows then rows[q.result].owner else q.owner) && row.session == q.token && row.round == f.round && row.completed == q.completed
    && row.counted == f.counted && row.flawless == f.flawless && row.score == f.score && row.reply == f.reply
  }

  /** An accepted request is stored, whole, and nothing else is: the response is the stored one, and the
      session is spent on it. */
  lemma AcceptedIsStored(tb: Table, bestN: int, d: Desk, q: Request, replace: bool, f: Facts)
    requires Submit(tb, bestN, d, q, replace, f).1.Accepted?
    ensures var (after, answer) := Submit(tb, bestN, d, q, replace, f);
      && answer.reply == f.reply
      && after.rows.Keys == d.rows.Keys + {q.result}
      && IsStored(d.rows, after.rows[q.result], q, f)
      && (forall r :: r in d.rows && r != q.result ==> after.rows[r] == d.rows[r])
      && after.sessions.Keys == d.sessions.Keys
      && (forall s :: s in d.sessions ==>
            after.sessions[s] == if q.token == Token(s) then Session(q.owner, SpentBy(q.result)) else d.sessions[s])
  {
  }

  ghost predicate SpendsSession(d: Desk, q: Request, after: Desk) {
    after.sessions == if q.token.Token? then d.sessions[q.token.id := Session(q.owner, SpentBy(q.result))] else d.sessions
  }

  /** The player has a seat in the round of the game, an empty one if they had none; nobody else's seat
      changes. */
  ghost predicate TakesSeat(tb: Table, d: Desk, q: Request, f: Facts, after: Desk) {
    var m := MemberKey(q.owner, f.round);
    && after.tallies.Keys == (if Cfg(tb, f.round.tier).roundDays > 0 then d.tallies.Keys + {m} else d.tallies.Keys)
    && (forall k :: k in d.tallies ==> after.tallies[k] == d.tallies[k])
    && (m in after.tallies && m !in d.tallies ==> after.tallies[m] == Tally(0, 0))
  }

  /** A request that is not accepted writes no row and counts nothing. Where it got to decides what is
      left of it: nothing at all when it was rolled back; the session is spent when its course stopped
      early; and the round is joined too when its score was impossible, or when the forfeit it meant to
      replace was completed meanwhile, whose response it then gets. */
  lemma TurnedAway(tb: Table, bestN: int, d: Desk, q: Request, replace: bool, f: Facts)
    requires !Submit(tb, bestN, d, q, replace, f).1.Accepted?
    ensures var (after, answer) := Submit(tb, bestN, d, q, replace, f);
      var allowed := q.owner in d.stats && SessionIsFree(d, q);
      && after.rows == d.rows && after.stats == d.stats
      && (!allowed || f.course == RollsBack ==> after == d && answer == Refused)
      && (allowed && f.course == StopsEarly ==> SpendsSession(d, q, after) && after.tallies == d.tallies && answer == Refused)
      && (allowed && f.course == Impossible ==> SpendsSession(d, q, after) && TakesSeat(tb, d, q, f, after) && answer == Refused)
      && (allowed && f.course == Proceeds ==>
            if replace && q.result in d.rows then
              SpendsSession(d, q, after) && TakesSeat(tb, d, q, f, after) && answer == Replayed(d.rows[q.result].reply)
            else after == d && answer == Refused)
  {
    FreeIsAllowed(d, q);
    if SessionAllows(d.sessions, q) {
      PreparedMeans(tb, d, q, f);
    }
  }

  lemma PreparedMeans(tb: Table, d: Desk, q: Request, f: Facts)
    requires SessionAllows(d.sessions, q)
    ensures SpendsSession(d, q, Prepared(tb, d, q, f)) && TakesSeat(tb, d, q, f, Prepared(tb, d, q, f))
  {
  }

  lemma OneMoreCounted(rows: Rows, q: Request, f: Facts)
    requires q.completed && f.counted
    requires q.result in rows ==> !rows[q.result].completed && rows[q.result].owner == q.owner
    ensures var m, after := MemberKey(q.owner, f.round), rows[q.result := NewRow(rows, q, f)];
      && BagOf(CountedRows(after, m)) == BagOf(CountedRows(rows, m)) + multiset{f.score}
      && |CountedRows(after, m).Keys| == |CountedRows(rows, m).Keys| + 1
  {
    var m, after := MemberKey(q.owner, f.round), rows[q.result := NewRow(rows, q, f)];
    var was, now := CountedRows(rows, m), CountedRows(after, m);
    assert now.Keys == was.Keys + {q.result} && q.result !in was.Keys;
    assert now.Keys - {q.result} == was.Keys;
    BagOnPick(now, now.Keys, q.result);
    BagOnSame(was, now, was.Keys);
  }

  /** The tally of the membership before: none is an empty one. */
  function TallyAt(tallies: Tallies, m: MemberKey): Tally {
    if m in tallies then tallies[m] else Tally(0, 0)
  }

  /** One more game: the best N of those that counted before and this one, which gains what the game
      scored above the N-th best. */
  ghost predicate GainsGame(bestN: int, bag: multiset<int>, before: Tally, after: Tally, score: nat) {
    && after == Tally(Best(bestN, bag + multiset{score}), before.games + 1)
    && (bestN >= 1 ==> after.score == before.score + Gain(score, Cut(bestN, bag)))
  }

  /** A counted game in a tier with rounds is one more game in its round, and every other tally stays. */
  ghost predicate CountsTheGame(tb: Table, bestN: int, d: Desk, q: Request, f: Facts, after: Tallies) {
    var m := MemberKey(q.owner, f.round);
    var rounds := Cfg(tb, f.round.tier).roundDays > 0;
    && after.Keys == (if rounds then d.tallies.Keys + {m} else d.tallies.Keys)
    && (forall k :: k in d.tallies && k != m ==> after[k] == d.tallies[k])
    && (rounds && !(q.completed && f.counted) ==> after[m] == TallyAt(d.tallies, m))
    && (rounds && q.completed && f.counted ==>
          GainsGame(bestN, BagOf(CountedRows(d.rows, m)), TallyAt(d.tallies, m), after[m], f.score))
  }

  /** What an accepted game does to the tallies. */
  lemma AcceptedTallies(tb: Table, bestN: int, d: Desk, q: Request, replace: bool, f: Facts)
    requires TalliesOk(tb, bestN, d.rows, d.tallies) && !Misdirected(d, q, replace, f)
    requires Submit(tb, bestN, d, q, replace, f).1.Accepted?
    ensures CountsTheGame(tb, bestN, d, q, f, Submit(tb, bestN, d, q, replace, f).0.tallies)
  {
    AcceptedStores(tb, bestN, d, q, replace, f);
    StoredTallies(tb, bestN, d, q, f);
  }

  lemma StoredTallies(tb: Table, bestN: int, d: Desk, q: Request, f: Facts)
    requires TalliesOk(tb, bestN, d.rows, d.tallies) && Storable(d, q) && SessionAllows(d.sessions, q)
    ensures CountsTheGame(tb, bestN, d, q, f, Store(tb, bestN, Prepared(tb, d, q, f), q, f).tallies)
  {
    var m := MemberKey(q.owner, f.round);
    var joined := WithMember(tb, d.tallies, m);
    if HasRound(tb, f.round) {
      JoinedTallies(tb, d.tallies, m);
      if q.completed && f.counted {
        CountedGameAdds(tb, bestN, d.rows, d.tallies, q, f);
        CountedTallies(tb, bestN, d, q, f, joined, TallyOf(bestN, d.rows[q.result := NewRow(d.rows, q, f)], m));
      }
    }
  }

  lemma JoinedTallies(tb: Table, tallies: Tallies, m: MemberKey)
    requires HasRound(tb, m.round)
    ensures var joined := WithMember(tb, tallies, m);
      && joined.Keys == tallies.Keys + {m} && joined[m] == TallyAt(tallies, m)
      && forall k :: k in tallies && k != m ==> joined[k] == tallies[k]
  {
  }

  lemma CountedTallies(tb: Table, bestN: int, d: Desk, q: Request, f: Facts, joined: Tallies, t: Tally)
    requires HasRound(tb, f.round) && q.completed && f.counted
    requires var m := MemberKey(q.owner, f.round);
      && joined.Keys == d.tallies.Keys + {m} && (forall k :: k in d.tallies && k != m ==> joined[k] == d.tallies[k])
      && GainsGame(bestN, BagOf(CountedRows(d.rows, m)), TallyAt(d.tallies, m), t, f.score)
    ensures CountsTheGame(tb, bestN, d, q, f, joined[MemberKey(q.owner, f.round) := t])
  {
  }

  lemma AcceptedStores(tb: Table, bestN: int, d: Desk, q: Request, replace: bool, f: Facts)
    requires Submit(tb, bestN, d, q, replace, f).1.Accepted? && !Misdirected(d, q, replace, f)
    ensures SessionAllows(d.sessions, q) && q.owner in d.stats
    ensures Submit(tb, bestN, d, q, replace, f).0 == Store(tb, bestN, Prepared(tb, d, q, f), q, f)
    ensures q.result in d.rows ==> !d.rows[q.result].completed && d.rows[q.result].owner == q.owner
  {
  }

  lemma CountedGameAdds(tb: Table, bestN: int, rows: Rows, tallies: Tallies, q: Request, f: Facts)
    requires TalliesOk(tb, bestN, rows, tallies) && HasRound(tb, f.round) && q.completed && f.counted
    requires q.result in rows ==> !rows[q.result].completed && rows[q.result].owner == q.owner
    ensures var m := MemberKey(q.owner, f.round);
      GainsGame(bestN, BagOf(CountedRows(rows, m)), TallyAt(tallies, m),
                TallyOf(bestN, rows[q.result := NewRow(rows, q, f)], m), f.score)
  {
    var m := MemberKey(q.owner, f.round);
    JoinKeepsTallies(tb, bestN, rows, tallies, m);
    assert TallyAt(tallies, m) == WithMember(tb, tallies, m)[m];
    OneMoreCounted(rows, q, f);
    var bag := BagOf(CountedRows(rows, m));
    BagOnNonNegative(CountedRows(rows, m), CountedRows(rows, m).Keys);
    if bestN >= 1 {
      NewGameAdds(bestN, bag, f.score);
    }
  }

  /** And to the stats: a completed one is one more game of its player, and nobody else's numbers move. */
  lemma AcceptedStats(tb: Table, bestN: int, d: Desk, q: Request, replace: bool, f: Facts)
    requires Submit(tb, bestN, d, q, replace, f).1.Accepted?
    ensures var after := Submit(tb, bestN, d, q, replace, f).0;
      && after.stats.Keys == d.stats.Keys && q.owner in d.stats
      && (forall p :: p in d.stats && (p != q.owner || !q.completed) ==> after.stats[p] == d.stats[p])
      && (q.completed ==>
            var was, now := d.stats[q.owner], after.stats[q.owner];
            && now.games == was.games + 1 && now.flawless == was.flawless + (if f.flawless then 1 else 0)
            && now.best >= was.best && now.best >= f.score && now.best in {was.best, f.score})
  {
  }

  /** The read before the transaction, by the stored row: somebody else's is refused, a finished one and
      a repeated forfeit are answered with their response, and only a completed game may replace a
      forfeit of its own. */
  lemma ReadMeans(rows: Rows, q: Request)
    ensures Read(rows, q) == GoesOn(false) <==> q.result !in rows
    ensures Read(rows, q) == GoesOn(true) <==>
      q.result in rows && rows[q.result].owner == q.owner && q.completed && !rows[q.result].completed
    ensures Read(rows, q) == Answers(Refused) <==> q.result in rows && rows[q.result].owner != q.owner
    ensures Read(rows, q).Answers? && Read(rows, q).answer != Refused ==>
      q.result in rows && Read(rows, q) == Answers(Replayed(rows[q.result].reply))
  {
  }

  /** Nothing of the account is left, and everybody else keeps everything, but for the name of a session
      that went with it. */
  lemma RemovalMeans(d: Desk, p: PlayerId)
    ensures var after := Removed(d, p);
      && (forall r :: r in after.rows <==> r in d.rows && d.rows[r].owner != p)
      && (forall r :: r in after.rows ==>
            after.rows[r] == d.rows[r] || (after.rows[r] == d.rows[r].(session := NoToken) && NamesSessionOf(d, r, p)))
      && (forall r :: r in after.rows && NamesSessionOf(d, r, p) ==> after.rows[r].session == NoToken)
      && (forall s :: s in after.sessions <==> s in d.sessions && d.sessions[s].owner != p)
      && (forall s :: s in after.sessions ==> after.sessions[s] == d.sessions[s])
      && after.stats.Keys == d.stats.Keys - {p} && (forall o :: o in after.stats ==> after.stats[o] == d.stats[o])
      && (forall m :: m in after.tallies <==> m in d.tallies && m.player != p)
      && (forall m :: m in after.tallies ==> after.tallies[m] == d.tallies[m])
  {
  }

  predicate NamesSessionOf(d: Desk, r: ResultId, p: PlayerId) {
    && r in d.rows && d.rows[r].session.Token?
    && d.rows[r].session.id in d.sessions && d.sessions[d.rows[r].session.id].owner == p
  }

  /** A swept session is gone, from the results that name it too, and nothing else. */
  lemma SweepMeans(d: Desk, s: SessionId)
    ensures var after := Swept(d, s);
      && after.sessions == d.sessions - {s} && after.stats == d.stats && after.tallies == d.tallies
      && after.rows.Keys == d.rows.Keys
      && forall r :: r in d.rows ==>
           after.rows[r] == (if d.rows[r].session == Token(s) then d.rows[r].(session := NoToken) else d.rows[r])
  {
  }
}
