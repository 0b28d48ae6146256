/** The league and the submission desk as one server: every score a close ranks by, and every round
    score a summary shows, is the best-N sum of the results stored for that round. */
module SeasonResults {
  import opened Standings
  import opened Season
  import opened SeasonInvariant
  import opened SeasonRuns
  import opened BestOfRound
  import opened RoundRuns
  import opened Submissions
  import SubmissionRuns

  datatype Server = Server(world: World, hall: Hall)

  /** What happens to both at once, in one transaction, and what happens to one of them. */
  datatype Act =
    | SignsUp(p: PlayerId, now: int)
    | SignsOff(p: PlayerId, now: int)
    | TakesSeat(step: Step)
    | Plays(c: Client, facts: Facts, now: int, last: int)
    | InLeague(step: Step)
    | AtDesk(move: Move)

  /** The commit stores a completed game that counts for the league. */
  ghost predicate Counts(tb: Table, bestN: int, h: Hall, c: Client, f: Facts)
    requires c in h.pending
  {
    var q := h.pending[c].request;
    q.completed && f.counted && Submit(tb, bestN, h.desk, q, h.pending[c].replaceForfeit, f).1.Accepted?
  }

  /** A commit that comes as far as the round bookkeeping has its player in the round: `ensureMembership`
      has run in the same transaction. */
  predicate Seated(tb: Table, s: Server, c: Client, f: Facts)
    requires c in s.hall.pending
  {
    var q := s.hall.pending[c].request;
    var reached := q.owner in s.hall.desk.stats && SessionAllows(s.hall.desk.sessions, q) && f.course in {Proceeds, Impossible};
    reached && HasRound(tb, f.round) ==> MemberKey(q.owner, f.round) in s.world.db.members
  }

  /** The points of the game, and the round score and the number of games recomputed from the results. */
  ghost function ScoreStep(tb: Table, bestN: int, h: Hall, c: Client, f: Facts, now: int, last: int): Step
    requires c in h.pending
  {
    var p := h.pending[c].request.owner;
    var tallies := Moves(tb, bestN, h, Commits(c, f)).desk.tallies;
    var t := if MemberKey(p, f.round) in tallies then tallies[MemberKey(p, f.round)] else Tally(0, 0);
    Step(now, Scores(p, f.round, f.score, t.score, t.games, last))
  }

  /** The step of the league in an act, if it has one, and the move at the desk. */
  ghost function StepOf(tb: Table, bestN: int, s: Server, a: Act): seq<Step> {
    match a
    case SignsUp(p, now) => [Step(now, Event.Registers(p))]
    case SignsOff(p, now) => [Step(now, Event.Deletes(p))]
    case TakesSeat(t) => [t]
    case Plays(c, f, now, last) => if c in s.hall.pending then [ScoreStep(tb, bestN, s.hall, c, f, now, last)] else []
    case InLeague(t) => [t]
    case AtDesk(move) => []
  }

  function MoveOf(a: Act): seq<Move> {
    match a
    case SignsUp(p, now) => [Move.Registers(p)]
    case SignsOff(p, now) => [Move.Deletes(p)]
    case TakesSeat(t) => if t.event.Joins? then [JoinsRound(MemberKey(t.event.p, t.event.round))] else []
    case Plays(c, f, now, last) => [Commits(c, f)]
    case InLeague(t) => []
    case AtDesk(move) => [move]
  }

  /** Accounts, seats and counted games concern both sides. */
  ghost predicate Fits(tb: Table, bestN: int, s: Server, a: Act) {
    match a
    case SignsUp(p, now) => true
    case SignsOff(p, now) => true
    case TakesSeat(t) => t.event.Joins?
    case Plays(c, f, now, last) => c in s.hall.pending && Seated(tb, s, c, f) && Counts(tb, bestN, s.hall, c, f)
    case InLeague(t) => !t.event.Registers? && !t.event.Deletes? && !t.event.Joins? && !t.event.Scores?
    case AtDesk(move) =>
      match move
      case Mints(_, _) => true
      case Sweeps(_) => true
      case Asks(_, _) => true
      case Commits(c, f) => c in s.hall.pending && Seated(tb, s, c, f) && !Counts(tb, bestN, s.hall, c, f)
      case _ => false
  }

  ghost predicate CanAct(tb: Table, bestN: int, s: Server, a: Act) {
    && Fits(tb, bestN, s, a)
    && (forall t :: t in StepOf(tb, bestN, s, a) ==> Enabled(tb, s.world, t))
    && (forall move :: move in MoveOf(a) ==> CanMove(tb, s.hall, move))
  }

  ghost function Acted(tb: Table, bestN: int, s: Server, a: Act): Server
    requires CanAct(tb, bestN, s, a)
  {
    var steps, moves := StepOf(tb, bestN, s, a), MoveOf(a);
    Server(if steps == [] then s.world else Next(tb, s.world, steps[0]),
           if moves == [] then s.hall else Moves(tb, bestN, s.hall, moves[0]))
  }

  function EmptyServer(clock: int): Server {
    Server(EmptyLeague(clock), SubmissionRuns.EmptyHall())
  }

  ghost predicate Serves(tb: Table, bestN: int, s: Server, acts: seq<Act>, v: Server)
    decreases |acts|
  {
    if acts == [] then v == s
    else CanAct(tb, bestN, s, acts[0]) && Serves(tb, bestN, Acted(tb, bestN, s, acts[0]), acts[1..], v)
  }

  // ----- its two sides -----

  ghost function StepsOf(tb: Table, bestN: int, s: Server, acts: seq<Act>): seq<Step>
    decreases |acts|
  {
    if acts == [] || !CanAct(tb, bestN, s, acts[0]) then []
    else StepOf(tb, bestN, s, acts[0]) + StepsOf(tb, bestN, Acted(tb, bestN, s, acts[0]), acts[1..])
  }

  function MovesOf(acts: seq<Act>): seq<Move> {
    if acts == [] then [] else MoveOf(acts[0]) + MovesOf(acts[1..])
  }

  lemma {:induction false} LeagueSide(tb: Table, bestN: int, s: Server, acts: seq<Act>, v: Server)
    requires Serves(tb, bestN, s, acts, v)
    ensures Leads(tb, s.world, StepsOf(tb, bestN, s, acts), v.world)
    decreases |acts|
  {
    if acts != [] {
      var u := Acted(tb, bestN, s, acts[0]);
      LeagueSide(tb, bestN, u, acts[1..], v);
      var here, rest := StepOf(tb, bestN, s, acts[0]), StepsOf(tb, bestN, u, acts[1..]);
      if here == [] {
        assert here + rest == rest;
      } else {
        assert here == [here[0]];
        RunFirst(tb, s.world, here[0], rest, v.world);
      }
    }
  }

  lemma {:induction false} DeskSide(tb: Table, bestN: int, s: Server, acts: seq<Act>, v: Server)
    requires Serves(tb, bestN, s, acts, v)
    ensures SubmissionRuns.Goes(tb, bestN, s.hall, MovesOf(acts), v.hall)
    decreases |acts|
  {
    if acts != [] {
      var u := Acted(tb, bestN, s, acts[0]);
      DeskSide(tb, bestN, u, acts[1..], v);
      var here, rest := MoveOf(acts[0]), MovesOf(acts[1..]);
      if here == [] {
        assert here + rest == rest;
      } else {
        assert here == [here[0]] && (here + rest)[1..] == rest;
      }
    }
  }

  // ----- what ties them together -----

  predicate SameTally(row: Member, t: Tally) {
    row.score == t.score && row.games == t.games
  }

  ghost predicate MembersLinked(members: Members, tallies: Tallies) {
    members.Keys == tallies.Keys && forall m :: m in members ==> SameTally(members[m], tallies[m])
  }

  /** The same accounts and the same memberships, with the same round score and number of games. */
  ghost predicate Linked(s: Server) {
    s.world.db.players.Keys == s.hall.desk.stats.Keys && MembersLinked(s.world.db.members, s.hall.desk.tallies)
  }

  /** The same memberships with the same score and games, and the same accounts. */
  ghost predicate KeepsScores(db: Db, after: Db) {
    && after.players.Keys == db.players.Keys && after.members.Keys == db.members.Keys
    && forall m :: m in db.members ==> after.members[m].score == db.members[m].score && after.members[m].games == db.members[m].games
  }

  lemma OthersKeepScores(tb: Table, w: World, t: Step)
    requires Enabled(tb, w, t) && !t.event.Registers? && !t.event.Deletes? && !t.event.Joins? && !t.event.Scores?
    ensures KeepsScores(w.db, Next(tb, w, t).db)
  {
    match t.event
    case Closes(g, vs) => assert KeepsScores(w.db, CloseGroup(tb, w.db, g, vs));
    case Misses(p, r) => assert KeepsScores(w.db, Absence(tb, w.db, p, r));
    case Promotes(p) => assert KeepsScores(w.db, PromoteByScore(tb, w.db, p, t.now));
    case _ =>
  }

  /** A commit that counts for nothing leaves every tally as it is, once the player has their seat. */
  lemma UncountedCommit(tb: Table, bestN: int, s: Server, c: Client, f: Facts)
    requires c in s.hall.pending && Seated(tb, s, c, f) && !Counts(tb, bestN, s.hall, c, f) && Linked(s)
    ensures var d := Moves(tb, bestN, s.hall, Commits(c, f)).desk;
      d.tallies == s.hall.desk.tallies && d.stats.Keys == s.hall.desk.stats.Keys
  {
  }

  /** One that counts writes the tally of its round, if the tier has rounds, and no other. */
  lemma CountedCommit(tb: Table, bestN: int, s: Server, c: Client, f: Facts)
    requires c in s.hall.pending && Seated(tb, s, c, f) && Counts(tb, bestN, s.hall, c, f) && Linked(s)
    ensures var d := Moves(tb, bestN, s.hall, Commits(c, f)).desk;
      var m := MemberKey(s.hall.pending[c].request.owner, f.round);
      && d.stats.Keys == s.hall.desk.stats.Keys && d.tallies.Keys == s.hall.desk.tallies.Keys
      && (forall k :: k in d.tallies && k != m ==> d.tallies[k] == s.hall.desk.tallies[k])
  {
  }

  lemma ScoreLinks(db: Db, tallies: Tallies, after: Tallies, p: PlayerId, key: RoundKey, points: int, last: int)
    requires p in db.players && MembersLinked(db.members, tallies) && after.Keys == tallies.Keys
    requires forall k :: k in after && k != MemberKey(p, key) ==> after[k] == tallies[k]
    ensures var t := if MemberKey(p, key) in after then after[MemberKey(p, key)] else Tally(0, 0);
      MembersLinked(Score(db, p, key, points, t.score, t.games, last).members, after)
  {
  }

  lemma PlaysLinked(tb: Table, bestN: int, s: Server, a: Act)
    requires Linked(s) && a.Plays? && CanAct(tb, bestN, s, a)
    ensures Linked(Acted(tb, bestN, s, a))
  {
    var Plays(c, f, now, last) := a;
    CountedCommit(tb, bestN, s, c, f);
    var t := ScoreStep(tb, bestN, s.hall, c, f, now, last);
    assert t in StepOf(tb, bestN, s, a);
    ScoreLinks(s.world.db, s.hall.desk.tallies, Moves(tb, bestN, s.hall, Commits(c, f)).desk.tallies,
               s.hall.pending[c].request.owner, f.round, f.score, last);
  }

  lemma SeatLinked(tb: Table, bestN: int, s: Server, a: Act)
    requires SoundTable(tb) && Linked(s) && a.TakesSeat? && CanAct(tb, bestN, s, a)
    ensures Linked(Acted(tb, bestN, s, a))
  {
    var t := a.step;
    assert t in StepOf(tb, bestN, s, a) && MoveOf(a)[0] in MoveOf(a);
    assert HasRound(tb, t.event.round);
  }

  lemma AccountLinked(tb: Table, bestN: int, s: Server, a: Act)
    requires Linked(s) && (a.SignsUp? || a.SignsOff?) && CanAct(tb, bestN, s, a)
    ensures Linked(Acted(tb, bestN, s, a))
  {
    assert StepOf(tb, bestN, s, a)[0] in StepOf(tb, bestN, s, a);
  }

  lemma DeskLinked(tb: Table, bestN: int, s: Server, a: Act)
    requires Linked(s) && a.AtDesk? && CanAct(tb, bestN, s, a)
    ensures Linked(Acted(tb, bestN, s, a))
  {
    if a.move.Commits? {
      UncountedCommit(tb, bestN, s, a.move.c, a.move.facts);
    }
  }

  lemma ActLinked(tb: Table, bestN: int, s: Server, a: Act)
    requires SoundTable(tb) && Linked(s) && CanAct(tb, bestN, s, a)
    ensures Linked(Acted(tb, bestN, s, a))
  {
    match a
    case SignsUp(p, now) => AccountLinked(tb, bestN, s, a);
    case SignsOff(p, now) => AccountLinked(tb, bestN, s, a);
    case TakesSeat(t) => SeatLinked(tb, bestN, s, a);
    case Plays(c, f, now, last) => PlaysLinked(tb, bestN, s, a);
    case InLeague(t) =>
      assert t in StepOf(tb, bestN, s, a);
      OthersKeepScores(tb, s.world, t);
    case AtDesk(move) => DeskLinked(tb, bestN, s, a);
  }

  lemma {:induction false} ServesLinked(tb: Table, bestN: int, s: Server, acts: seq<Act>, v: Server)
    requires SoundTable(tb) && Linked(s) && Serves(tb, bestN, s, acts, v)
    ensures Linked(v)
    decreases |acts|
  {
    if acts != [] {
      ActLinked(tb, bestN, s, acts[0]);
      ServesLinked(tb, bestN, Acted(tb, bestN, s, acts[0]), acts[1..], v);
    }
  }

  // ----- the scores of the league are recomputation -----

  /** The round score and the number of games of a membership, from the stored results. */
  ghost predicate IsRecomputed(bestN: int, rows: Submissions.Rows, m: MemberKey, score: int, games: int) {
    score == Best(bestN, BagOf(CountedRows(rows, m))) && games == |CountedRows(rows, m).Keys|
  }

  /** In every state the server can reach without a commit over somebody else's forfeit, the member rows
      of the league hold the best-N sum and the number of the counted results of their round. */
  lemma ScoresAreRecomputation(tb: Table, bestN: int, clock: int, acts: seq<Act>, v: Server, m: MemberKey)
    requires SoundTable(tb) && Serves(tb, bestN, EmptyServer(clock), acts, v)
    requires SubmissionRuns.OwnRows(tb, bestN, SubmissionRuns.EmptyHall(), MovesOf(acts)) && m in v.world.db.members
    ensures IsRecomputed(bestN, v.hall.desk.rows, m, v.world.db.members[m].score, v.world.db.members[m].games)
  {
    ServesLinked(tb, bestN, EmptyServer(clock), acts, v);
    DeskSide(tb, bestN, EmptyServer(clock), acts, v);
    SubmissionRuns.NumbersAreRecomputation(tb, bestN, MovesOf(acts), v.hall);
    assert m in v.hall.desk.tallies;
  }

  /** So a close ranks the people of a group by their stored results. */
  lemma CloseRanksResults(tb: Table, bestN: int, clock: int, acts: seq<Act>, v: Server, g: GroupId, ranked: seq<Entry>, e: Entry)
    requires SoundTable(tb) && Serves(tb, bestN, EmptyServer(clock), acts, v)
    requires SubmissionRuns.OwnRows(tb, bestN, SubmissionRuns.EmptyHall(), MovesOf(acts))
    requires GroupRanking(v.world.db.members, g, ranked) && e in ranked && !e.bot
    ensures IsRecomputed(bestN, v.hall.desk.rows, MemberKey(PlayerId(e.player), g.round), e.score, e.games)
  {
    var m :| m in v.world.db.members && v.world.db.members[m].group == g && e == EntryOf(m.player, v.world.db.members[m]);
    ScoresAreRecomputation(tb, bestN, clock, acts, v, m);
    LeagueSide(tb, bestN, EmptyServer(clock), acts, v);
    EmptyIsSound(tb, clock);
    RunKeepsTables(tb, EmptyLeague(clock), StepsOf(tb, bestN, EmptyServer(clock), acts), v.world);
    assert m == MemberKey(PlayerId(e.player), g.round);
  }

  // ----- and so are the scores the summaries show -----

  predicate Shown(db: Db, m: MemberKey)
    requires m in db.members
  {
    var s := SummaryKey(m.player, m.round, ReasonRound);
    s in db.summaries && db.summaries[s].roundScore == db.members[m].score
  }

  ghost predicate ShownOk(db: Db) {
    forall m :: m in db.members && !NotSettled(db, m) ==> Shown(db, m)
  }

  /** Nobody is settled now who was not before. */
  ghost predicate SettlesNobody(db: Db, after: Db) {
    forall m :: m in after.members && !NotSettled(after, m) ==> m in db.members && !NotSettled(db, m)
  }

  lemma CloseSettlesGroup(tb: Table, db: Db, g: GroupId, vs: Verdicts, m: MemberKey)
    requires g in db.groups && g.round in db.rounds && m in CloseGroup(tb, db, g, vs).members
    requires !NotSettled(CloseGroup(tb, db, g, vs), m) && NotSettled(db, m)
    ensures m in db.members && db.members[m].group == g && db.groups[g].open
  {
  }

  lemma JoinSettlesNobody(tb: Table, db: Db, p: PlayerId, key: RoundKey, q: bool, wish: Wish, g: GroupId)
    requires GroupsOk(tb, db.rounds, db.groups) && MembersOk(db.players, db.groups, db.members) && Placement(tb, db, key, q, wish, g)
    ensures SettlesNobody(db, Join(tb, db, p, key, q, g))
  {
  }

  lemma OthersSettleNobody(tb: Table, w: World, t: Step)
    requires Enabled(tb, w, t) && !t.event.Closes? && !t.event.Joins?
    ensures SettlesNobody(w.db, Next(tb, w, t).db)
  {
    match t.event
    case Deletes(p) => assert SettlesNobody(w.db, Delete(w.db, p));
    case Scores(p, key, points, score, games, last) =>
      assert SettlesNobody(w.db, Score(w.db, p, key, points, score, games, last));
    case Promotes(p) => assert SettlesNobody(w.db, PromoteByScore(tb, w.db, p, t.now));
    case _ =>
  }

  /** Only closing a group settles its members. */
  lemma SettledByClosing(tb: Table, w: World, t: Step, m: MemberKey)
    requires TablesOk(tb, w) && Enabled(tb, w, t) && m in Next(tb, w, t).db.members && !NotSettled(Next(tb, w, t).db, m)
    ensures m in w.db.members
    ensures NotSettled(w.db, m) ==>
      t.event.Closes? && w.db.members[m].group == t.event.group && w.db.groups[t.event.group].open
  {
    match t.event
    case Closes(g, vs) =>
      if NotSettled(w.db, m) {
        CloseSettlesGroup(tb, w.db, g, vs, m);
      }
    case Joins(p, r, key, q, wish, g) => JoinSettlesNobody(tb, w.db, p, key, q, wish, g);
    case _ => OthersSettleNobody(tb, w, t);
  }

  lemma ShownByClosing(tb: Table, w: World, g: GroupId, vs: Verdicts, m: MemberKey)
    requires Inv(tb, w) && ClosesWell(w, g, vs) && m in w.db.members && w.db.members[m].group == g
    ensures var v := CloseGroup(tb, w.db, g, vs); m in v.members && Shown(v, m)
  {
    var s := SummaryKey(m.player, g.round, ReasonRound);
    assert m.player in Staying(w.db.members, g);
    SettlingHits(tb, w, g, m.player);
    assert s in NewSummaryKeys(w.db, g.round, Staying(w.db.members, g));
  }

  lemma ShownStays(tb: Table, w: World, t: Step, m: MemberKey)
    requires SoundTable(tb) && TablesOk(tb, w) && Enabled(tb, w, t) && m in w.db.members && m in Next(tb, w, t).db.members
    requires !NotSettled(w.db, m) && Shown(w.db, m)
    ensures Shown(Next(tb, w, t).db, m)
  {
    StepAdvances(tb, w, t);
  }

  lemma ShownStep(tb: Table, w: World, t: Step)
    requires SoundTable(tb) && Inv(tb, w) && Enabled(tb, w, t) && ShownOk(w.db)
    ensures ShownOk(Next(tb, w, t).db)
  {
    var v := Next(tb, w, t).db;
    forall m | m in v.members && !NotSettled(v, m)
      ensures Shown(v, m)
    {
      SettledByClosing(tb, w, t, m);
      if NotSettled(w.db, m) {
        JudgedCovers(tb, w.db, t.event.group, t.event.verdicts);
        ShownByClosing(tb, w, t.event.group, t.event.verdicts, m);
      } else {
        ShownStays(tb, w, t, m);
      }
    }
  }

  lemma {:induction false} ShownAlong(tb: Table, w: World, steps: seq<Step>, v: World)
    requires SoundTable(tb) && Inv(tb, w) && ShownOk(w.db) && Leads(tb, w, steps, v) && AllHarmless(tb, w, steps)
    ensures ShownOk(v.db)
    decreases |steps|
  {
    if steps != [] {
      ShownStep(tb, w, steps[0]);
      StepKeeps(tb, w, steps[0]);
      ShownAlong(tb, Next(tb, w, steps[0]), steps[1..], v);
    }
  }

  /** Once a group is closed, the round score in each summary is the best-N sum of the results stored for
      that player and round, and stays so whatever is submitted later. */
  lemma SummariesAreRecomputation(tb: Table, bestN: int, clock: int, acts: seq<Act>, v: Server, m: MemberKey)
    requires SoundTable(tb) && Serves(tb, bestN, EmptyServer(clock), acts, v)
    requires Fair(tb, EmptyLeague(clock), StepsOf(tb, bestN, EmptyServer(clock), acts))
    requires SubmissionRuns.OwnRows(tb, bestN, SubmissionRuns.EmptyHall(), MovesOf(acts))
    requires m in v.world.db.members && !NotSettled(v.world.db, m)
    ensures var s := SummaryKey(m.player, m.round, ReasonRound);
      s in v.world.db.summaries
      && v.world.db.summaries[s].roundScore == Best(bestN, BagOf(CountedRows(v.hall.desk.rows, m)))
  {
    ScoresAreRecomputation(tb, bestN, clock, acts, v, m);
    LeagueSide(tb, bestN, EmptyServer(clock), acts, v);
    EmptyIsSound(tb, clock);
    var steps := StepsOf(tb, bestN, EmptyServer(clock), acts);
    FairIsHarmless(tb, EmptyLeague(clock), steps);
    ShownAlong(tb, EmptyLeague(clock), steps, v.world);
  }
}
