/** Submitting results: the idempotency read, the transaction, and what they write. The read and the
    transaction of one request are separate steps, and any number of requests interleave. */
module Submissions {
  import opened Tiers
  import opened Season
  import opened BestOfRound
  import opened RoundRuns

  datatype ResultId = ResultId(uuid: string)

  datatype SessionId = SessionId(token: string)

  datatype Token = NoToken | Token(id: SessionId)

  /** The stored response, byte for byte. */
  datatype Reply = Reply(body: string)

  datatype Row = Row(owner: PlayerId, session: Token, round: RoundKey, completed: bool, counted: bool,
                     flawless: bool, score: nat, reply: Reply)

  datatype Spent = Unspent | SpentBy(result: ResultId)

  datatype Session = Session(owner: PlayerId, spent: Spent)

  datatype Stats = Stats(games: nat, flawless: nat, best: nat)

  /** The two denormalised columns of a membership. */
  datatype Tally = Tally(score: int, games: nat)

  type Rows = map<ResultId, Row>
  type Sessions = map<SessionId, Session>
  type AllStats = map<PlayerId, Stats>
  type Tallies = map<MemberKey, Tally>

  datatype Desk = Desk(rows: Rows, sessions: Sessions, stats: AllStats, tallies: Tallies)

  datatype Request = Request(owner: PlayerId, result: ResultId, completed: bool, token: Token)

  /** How the transaction goes on after the session: it is rolled back (an unknown level, an impossible
      payload), stopped with the work so far committed (the payload names another player, or the round
      score is impossible), or accepted. */
  datatype Course = Proceeds | RollsBack | StopsEarly | Impossible

  /** What the server computes for the game. */
  datatype Facts = Facts(course: Course, round: RoundKey, counted: bool, flawless: bool, score: nat, reply: Reply)

  datatype Answer = Accepted(reply: Reply) | Replayed(reply: Reply) | Refused

  // ----- the idempotency read -----

  /** What the read before the transaction decides. */
  datatype Reading = Answers(answer: Answer) | GoesOn(replaceForfeit: bool)

  function Read(rows: Rows, q: Request): Reading {
    if q.result !in rows then GoesOn(false)
    else
      var stored := rows[q.result];
      if stored.owner != q.owner then Answers(Refused)
      else if stored.completed || !q.completed then Answers(Replayed(stored.reply))
      else GoesOn(true)
  }

  // ----- the transaction -----

  /** The session exists, is the player's own, and was not spent on another result. */
  predicate SessionAllows(sessions: Sessions, q: Request) {
    q.token.Token? ==>
      && q.token.id in sessions && sessions[q.token.id].owner == q.owner
      && (sessions[q.token.id].spent == Unspent || sessions[q.token.id].spent == SpentBy(q.result))
  }

  function Spend(sessions: Sessions, q: Request): Sessions
    requires SessionAllows(sessions, q)
  {
    if q.token.NoToken? then sessions else sessions[q.token.id := sessions[q.token.id].(spent := SpentBy(q.result))]
  }

  predicate HasRound(tb: Table, key: RoundKey) {
    HasRounds(Cfg(tb, key.tier))
  }

  /** `ensureMembership`, as far as the tally goes. */
  function WithMember(tb: Table, tallies: Tallies, m: MemberKey): Tallies {
    if !HasRound(tb, m.round) || m in tallies then tallies else tallies[m := Tally(0, 0)]
  }

  /** Replacing a forfeit rewrites every column but the owner. */
  function NewRow(rows: Rows, q: Request, f: Facts): Row {
    Row(if q.result in rows then rows[q.result].owner else q.owner,
        q.token, f.round, q.completed, f.counted, f.flawless, f.score, f.reply)
  }

  /** `AddGameStats`. */
  function Played(s: Stats, f: Facts): Stats {
    Stats(s.games + 1, s.flawless + (if f.flawless then 1 else 0), if s.best < f.score then f.score else s.best)
  }

  /** The completed results that count for a membership, by score. */
  function CountedRows(rows: Rows, m: MemberKey): map<ResultId, int> {
    map r | r in rows && rows[r].owner == m.player && rows[r].round == m.round && rows[r].completed && rows[r].counted ::
      rows[r].score
  }

  ghost function TallyOf(bestN: int, rows: Rows, m: MemberKey): Tally {
    Tally(Best(bestN, BagOf(CountedRows(rows, m))), |CountedRows(rows, m).Keys|)
  }

  /** The row is written; a completed game also counts in the stats and, if it counts for the league,
      in the tally of its round. */
  ghost function Store(tb: Table, bestN: int, d: Desk, q: Request, f: Facts): Desk
    requires q.owner in d.stats
  {
    var rows := d.rows[q.result := NewRow(d.rows, q, f)];
    var m := MemberKey(q.owner, f.round);
    Desk(rows, d.sessions,
         if q.completed then d.stats[q.owner := Played(d.stats[q.owner], f)] else d.stats,
         if q.completed && f.counted && HasRound(tb, f.round) then d.tallies[m := TallyOf(bestN, rows, m)] else d.tallies)
  }

  /** The desk with the session spent and the round joined, and no more. */
  function Prepared(tb: Table, d: Desk, q: Request, f: Facts): Desk
    requires SessionAllows(d.sessions, q)
  {
    d.(sessions := Spend(d.sessions, q), tallies := WithMember(tb, d.tallies, MemberKey(q.owner, f.round)))
  }

  /** `submitInTx` with what its `InTx` makes of it: an error rolls everything back, `CommitAndFail`
      keeps what was written before it. An account that is gone is the first error, in `catchUp`. */
  ghost function Submit(tb: Table, bestN: int, d: Desk, q: Request, replaceForfeit: bool, f: Facts): (Desk, Answer) {
    if q.owner !in d.stats || !SessionAllows(d.sessions, q) || f.course == RollsBack then (d, Refused)
    else if f.course == StopsEarly then (d.(sessions := Spend(d.sessions, q)), Refused)
    else
      var ready := Prepared(tb, d, q, f);
      if f.course == Impossible then (ready, Refused)
      else if replaceForfeit then
        if q.result !in d.rows then (d, Refused)
        else if d.rows[q.result].completed then (ready, Replayed(d.rows[q.result].reply))
        else (Store(tb, bestN, ready, q, f), Accepted(f.reply))
      else if q.result in d.rows then (d, Refused)
      else (Store(tb, bestN, ready, q, f), Accepted(f.reply))
  }

  // ----- steps -----

  datatype Client = Client(number: nat)

  /** A request that has been read and waits for its transaction. */
  datatype Pending = Pending(request: Request, replaceForfeit: bool)

  datatype Hall = Hall(desk: Desk, pending: map<Client, Pending>)

  datatype Move =
    | Registers(p: PlayerId)
    | Deletes(p: PlayerId)
    | Mints(s: SessionId, p: PlayerId)
    | Sweeps(s: SessionId)
    | JoinsRound(m: MemberKey)
    | Asks(c: Client, request: Request)
    | Commits(c: Client, facts: Facts)

  /** The sweepers delete sessions; the results that named one keep their row without it. */
  function Swept(d: Desk, s: SessionId): Desk {
    d.(sessions := d.sessions - {s},
       rows := map r | r in d.rows :: if d.rows[r].session == Token(s) then d.rows[r].(session := NoToken) else d.rows[r])
  }

  /** `Players.Delete` with its cascades: sessions, results and memberships go, and a result that named
      one of those sessions keeps its row without it. */
  function Removed(d: Desk, p: PlayerId): Desk {
    Desk(map r | r in d.rows && d.rows[r].owner != p ::
           if d.rows[r].session.Token? && OwnedBy(d.sessions, d.rows[r].session.id, p) then d.rows[r].(session := NoToken)
           else d.rows[r],
         map s | s in d.sessions && d.sessions[s].owner != p :: d.sessions[s],
         d.stats - {p},
         map m | m in d.tallies && m.player != p :: d.tallies[m])
  }

  predicate OwnedBy(sessions: Sessions, s: SessionId, p: PlayerId) {
    s in sessions && sessions[s].owner == p
  }

  ghost predicate CanMove(tb: Table, h: Hall, move: Move) {
    match move
    case Registers(p) => p !in h.desk.stats
    case Deletes(p) => true
    case Mints(s, p) => s !in h.desk.sessions && p in h.desk.stats
    case Sweeps(s) => true
    case JoinsRound(m) => HasRound(tb, m.round) && m.player in h.desk.stats
    case Asks(c, q) => c !in h.pending
    case Commits(c, f) => c in h.pending
  }

  /** The answer a move gives its client; Refused where it gives none. */
  ghost function AnswerTo(tb: Table, bestN: int, h: Hall, move: Move): Answer
    requires CanMove(tb, h, move)
  {
    match move
    case Asks(c, q) => (match Read(h.desk.rows, q) case Answers(a) => a case GoesOn(_) => Refused)
    case Commits(c, f) => Submit(tb, bestN, h.desk, h.pending[c].request, h.pending[c].replaceForfeit, f).1
    case _ => Refused
  }

  ghost function Moves(tb: Table, bestN: int, h: Hall, move: Move): Hall
    requires CanMove(tb, h, move)
  {
    var d := h.desk;
    match move
    case Registers(p) => h.(desk := d.(stats := d.stats[p := Stats(0, 0, 0)]))
    case Deletes(p) => h.(desk := Removed(d, p))
    case Mints(s, p) => h.(desk := d.(sessions := d.sessions[s := Session(p, Unspent)]))
    case Sweeps(s) => h.(desk := Swept(d, s))
    case JoinsRound(m) => h.(desk := d.(tallies := WithMember(tb, d.tallies, m)))
    case Asks(c, q) =>
      (match Read(d.rows, q)
       case Answers(_) => h
       case GoesOn(replace) => h.(pending := h.pending[c := Pending(q, replace)]))
    case Commits(c, f) =>
      var p := h.pending[c];
      Hall(Submit(tb, bestN, d, p.request, p.replaceForfeit, f).0, h.pending - {c})
  }
}
