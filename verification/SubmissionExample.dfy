/** A request that outlives its account: the run at whose end the stored numbers are wrong. */
module SubmissionExample {
  import opened Season
  import opened Submissions
  import opened SubmissionRuns

  const ANN := PlayerId(1)
  const BEN := PlayerId(2)
  const RESULT := ResultId("3f1c")
  const SCORE_TIER := RoundKey(0, 0)
  const GIVEN_UP := Facts(Proceeds, SCORE_TIER, false, false, 0, Reply("forfeit"))
  const WON := Facts(Proceeds, SCORE_TIER, true, true, 100, Reply("won"))

  function OneRow(owner: PlayerId, f: Facts, completed: bool): Rows {
    map[RESULT := Row(owner, NoToken, SCORE_TIER, completed, f.counted, f.flawless, f.score, f.reply)]
  }

  /** Two accounts with these stats, this one result, and Ann's completed request waiting or not. */
  function Scene(stats: AllStats, rows: Rows, pending: map<Client, Pending>): Hall {
    Hall(Desk(rows, map[], stats, map[]), pending)
  }

  const NEW := Stats(0, 0, 0)
  const WAITING := map[Client(1) := Pending(Request(ANN, RESULT, true, NoToken), true)]

  /** Ann gives up a game; her client sends the completed run, which is read but not committed. */
  const ANNS_PART := [Move.Registers(ANN), Move.Registers(BEN), Asks(Client(0), Request(ANN, RESULT, false, NoToken)),
                      Commits(Client(0), GIVEN_UP), Asks(Client(1), Request(ANN, RESULT, true, NoToken))]

  /** She deletes her account; Ben gives up a game under the same id; she registers again. */
  const BENS_PART := [Move.Deletes(ANN), Asks(Client(0), Request(BEN, RESULT, false, NoToken)), Commits(Client(0), GIVEN_UP),
                      Move.Registers(ANN)]

  lemma GoesFirst(tb: Table, bestN: int, h: Hall, move: Move, rest: seq<Move>, v: Hall)
    ensures Goes(tb, bestN, h, [move] + rest, v) <==> CanMove(tb, h, move) && Goes(tb, bestN, Moves(tb, bestN, h, move), rest, v)
  {
    assert ([move] + rest)[1..] == rest;
  }

  lemma {:induction false} GoesTogether(tb: Table, bestN: int, h: Hall, first: seq<Move>, u: Hall, second: seq<Move>, v: Hall)
    requires Goes(tb, bestN, h, first, u) && Goes(tb, bestN, u, second, v)
    ensures Goes(tb, bestN, h, first + second, v)
    decreases |first|
  {
    if first == [] {
      assert first + second == second;
    } else {
      GoesTogether(tb, bestN, Moves(tb, bestN, h, first[0]), first[1..], u, second, v);
      assert first + second == [first[0]] + (first[1..] + second);
      GoesFirst(tb, bestN, h, first[0], first[1..] + second, v);
    }
  }

  lemma OneMove(tb: Table, bestN: int, h: Hall, move: Move)
    requires CanMove(tb, h, move)
    ensures Goes(tb, bestN, h, [move], Moves(tb, bestN, h, move))
  {
    assert [move] + [] == [move];
    GoesFirst(tb, bestN, h, move, [], Moves(tb, bestN, h, move));
  }

  lemma TwoMoves(tb: Table, bestN: int, h: Hall, a: Move, b: Move)
    requires CanMove(tb, h, a) && CanMove(tb, Moves(tb, bestN, h, a), b)
    ensures Goes(tb, bestN, h, [a, b], Moves(tb, bestN, Moves(tb, bestN, h, a), b))
  {
    OneMove(tb, bestN, Moves(tb, bestN, h, a), b);
    assert [a, b] == [a] + [b];
    GoesFirst(tb, bestN, h, a, [b], Moves(tb, bestN, Moves(tb, bestN, h, a), b));
  }

  lemma AnnGivesUp(bestN: int)
    ensures Goes(SHIPPED, bestN, EmptyHall(), ANNS_PART, Scene(map[ANN := NEW, BEN := NEW], OneRow(ANN, GIVEN_UP, false), WAITING))
  {
    var both := Scene(map[ANN := NEW, BEN := NEW], map[], map[]);
    TwoMoves(SHIPPED, bestN, EmptyHall(), Move.Registers(ANN), Move.Registers(BEN));
    GivesUp(bestN, map[ANN := NEW, BEN := NEW], map[], ANN);
    GoesTogether(SHIPPED, bestN, EmptyHall(), [Move.Registers(ANN), Move.Registers(BEN)], both, GivingUp(ANN),
                 Scene(map[ANN := NEW, BEN := NEW], OneRow(ANN, GIVEN_UP, false), map[]));
    var last := Asks(Client(1), Request(ANN, RESULT, true, NoToken));
    var before := Scene(map[ANN := NEW, BEN := NEW], OneRow(ANN, GIVEN_UP, false), map[]);
    OneMove(SHIPPED, bestN, before, last);
    GoesTogether(SHIPPED, bestN, EmptyHall(), [Move.Registers(ANN), Move.Registers(BEN)] + GivingUp(ANN), before, [last],
                 Scene(map[ANN := NEW, BEN := NEW], OneRow(ANN, GIVEN_UP, false), WAITING));
    assert ANNS_PART == [Move.Registers(ANN), Move.Registers(BEN)] + GivingUp(ANN) + [last];
  }

  function GivingUp(p: PlayerId): seq<Move> {
    [Asks(Client(0), Request(p, RESULT, false, NoToken)), Commits(Client(0), GIVEN_UP)]
  }

  lemma GivesUp(bestN: int, stats: AllStats, pending: map<Client, Pending>, p: PlayerId)
    requires p in stats && Client(0) !in pending
    ensures Goes(SHIPPED, bestN, Scene(stats, map[], pending), GivingUp(p), Scene(stats, OneRow(p, GIVEN_UP, false), pending))
  {
    var h := Scene(stats, map[], pending);
    var a, b := GivingUp(p)[0], GivingUp(p)[1];
    assert !HasRound(SHIPPED, SCORE_TIER);
    var u := Moves(SHIPPED, bestN, h, a);
    assert u.pending - {Client(0)} == pending;
    TwoMoves(SHIPPED, bestN, h, a, b);
  }

  lemma BenTakesTheId(bestN: int)
    ensures Goes(SHIPPED, bestN, Scene(map[ANN := NEW, BEN := NEW], OneRow(ANN, GIVEN_UP, false), WAITING), BENS_PART,
                 Scene(map[BEN := NEW, ANN := NEW], OneRow(BEN, GIVEN_UP, false), WAITING))
  {
    var start := Scene(map[ANN := NEW, BEN := NEW], OneRow(ANN, GIVEN_UP, false), WAITING);
    var alone := Scene(map[BEN := NEW], map[], WAITING);
    var taken := Scene(map[BEN := NEW], OneRow(BEN, GIVEN_UP, false), WAITING);
    var end := Scene(map[BEN := NEW, ANN := NEW], OneRow(BEN, GIVEN_UP, false), WAITING);
    assert Removed(start.desk, ANN) == alone.desk;
    OneMove(SHIPPED, bestN, start, Move.Deletes(ANN));
    GivesUp(bestN, map[BEN := NEW], WAITING, BEN);
    OneMove(SHIPPED, bestN, taken, Move.Registers(ANN));
    GoesTogether(SHIPPED, bestN, start, [Move.Deletes(ANN)], alone, GivingUp(BEN), taken);
    GoesTogether(SHIPPED, bestN, start, [Move.Deletes(ANN)] + GivingUp(BEN), taken, [Move.Registers(ANN)], end);
    assert BENS_PART == [Move.Deletes(ANN)] + GivingUp(BEN) + [Move.Registers(ANN)];
  }

  /** A run from the empty server at whose end Ann's waiting request writes over Ben's forfeit: his
      result is now a completed game, and counted among hers, of which she has none. */
  lemma OvertakenRequest(bestN: int) returns (h: Hall, v: Hall)
    ensures Goes(SHIPPED, bestN, EmptyHall(), ANNS_PART + BENS_PART, h)
    ensures CanMove(SHIPPED, h, Commits(Client(1), WON)) && v == Moves(SHIPPED, bestN, h, Commits(Client(1), WON))
    ensures RESULT in v.desk.rows && v.desk.rows[RESULT].owner == BEN && v.desk.rows[RESULT].completed
    ensures ANN in v.desk.stats && v.desk.stats[ANN].games == 1 && CompletedOf(v.desk.rows, ANN) == {}
  {
    AnnGivesUp(bestN);
    BenTakesTheId(bestN);
    h := Scene(map[BEN := NEW, ANN := NEW], OneRow(BEN, GIVEN_UP, false), WAITING);
    GoesTogether(SHIPPED, bestN, EmptyHall(), ANNS_PART, Scene(map[ANN := NEW, BEN := NEW], OneRow(ANN, GIVEN_UP, false), WAITING),
                 BENS_PART, h);
    v := Moves(SHIPPED, bestN, h, Commits(Client(1), WON));
  }
}
