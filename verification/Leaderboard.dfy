/** Level leaderboards: conditional upserts keep each player's best row, and the rank query agrees
    with the numbered board. */
module Leaderboard {

  datatype Player = Player(id: int)

  /** One run on one level by one player. */
  datatype Run = Run(player: Player, resultId: int, score: int, wrong: int, time: real, achievedAt: int)

  datatype Kept = Nothing | Keeps(run: Run)

  type Order = (Run, Run) -> bool

  // ----- the three orders of the repository -----

  /** The condition under which `UpsertBest` overwrites. */
  predicate BetterRun(a: Run, b: Run) {
    || a.score > b.score
    || (a.score == b.score && a.wrong < b.wrong)
    || (a.score == b.score && a.wrong == b.wrong && a.time < b.time)
    || (a.score == b.score && a.wrong == b.wrong && a.time == b.time && a.achievedAt < b.achievedAt)
  }

  /** The fastest clean run: `UpsertFlawless`. */
  predicate FasterRun(a: Run, b: Run) {
    || a.time < b.time
    || (a.time == b.time && a.achievedAt < b.achievedAt)
  }

  /** The order of the player's own level record: a full tie keeps the older run. */
  predicate BetterRecord(a: Run, b: Run) {
    || a.score > b.score
    || (a.score == b.score && a.wrong < b.wrong)
    || (a.score == b.score && a.wrong == b.wrong && a.time < b.time)
  }

  /** Comparable up to ties, which are an equivalence. */
  ghost predicate WeakOrder(less: Order) {
    && (forall a, b :: less(a, b) ==> !less(b, a))
    && (forall a, b, c :: less(a, c) ==> less(a, b) || less(b, c))
  }

  lemma OrdersAreWeak()
    ensures WeakOrder(BetterRun) && WeakOrder(FasterRun) && WeakOrder(BetterRecord)
  {
  }

  ghost predicate Tied(less: Order, a: Run, b: Run) {
    !less(a, b) && !less(b, a)
  }

  // ----- upserts -----

  function Upsert(less: Order, stored: Kept, run: Run): Kept {
    if stored.Nothing? || less(run, stored.run) then Keeps(run) else stored
  }

  /** What is stored after the runs arrived in this order. */
  function AfterAll(less: Order, arrived: seq<Run>): Kept {
    if arrived == [] then Nothing
    else Upsert(less, AfterAll(less, arrived[..|arrived| - 1]), arrived[|arrived| - 1])
  }

  /** The stored row is the first of the best runs to have arrived. */
  lemma {:induction false} KeepsFirstBest(less: Order, arrived: seq<Run>) returns (k: nat)
    requires WeakOrder(less) && arrived != []
    ensures k < |arrived| && AfterAll(less, arrived) == Keeps(arrived[k])
    ensures forall i :: 0 <= i < |arrived| ==> !less(arrived[i], arrived[k])
    ensures forall i :: 0 <= i < k ==> less(arrived[k], arrived[i])
  {
    var n := |arrived| - 1;
    if n == 0 {
      assert AfterAll(less, arrived[..0]) == Nothing;
      k := 0;
    } else {
      var before := arrived[..n];
      var j := KeepsFirstBest(less, before);
      assert forall i :: 0 <= i < n ==> before[i] == arrived[i];
      if less(arrived[n], arrived[j]) {
        k := n;
        forall i | 0 <= i < n
          ensures less(arrived[n], arrived[i])
        {
          assert !less(before[i], before[j]);
        }
      } else {
        k := j;
      }
    }
  }

  /** Whatever order the same runs arrive in, the rows kept tie in every column of the order. */
  lemma ArrivalOrderOnlyBreaksTies(less: Order, one: seq<Run>, other: seq<Run>)
    requires WeakOrder(less) && one != [] && multiset(one) == multiset(other)
    ensures AfterAll(less, one).Keeps? && AfterAll(less, other).Keeps?
    ensures Tied(less, AfterAll(less, one).run, AfterAll(less, other).run)
  {
    assert one[0] in multiset(other);
    var j := KeepsFirstBest(less, one);
    var k := KeepsFirstBest(less, other);
    assert one[j] in multiset(other) && other[k] in multiset(one);
    var a :| 0 <= a < |other| && other[a] == one[j];
    var b :| 0 <= b < |one| && one[b] == other[k];
  }

  datatype Key = Key(player: Player, level: int)

  /** A row is filed under its player. */
  ghost predicate OwnRows(table: map<Key, Run>) {
    forall k :: k in table ==> table[k].player == k.player
  }

  /** The two tables of bests. */
  class BestTables {
    var bests: map<Key, Run>
    var flawless: map<Key, Run>

    ghost predicate Valid()
      reads this
    {
      OwnRows(bests) && OwnRows(flawless)
    }

    constructor ()
      ensures bests == map[] && flawless == map[] && Valid()
    {
      bests, flawless := map[], map[];
    }

    /** INSERT .. ON CONFLICT DO UPDATE .. WHERE the candidate sorts strictly first. */
    method UpsertBest(level: int, run: Run) returns (changed: bool)
      requires Valid()
      modifies `bests
      ensures var key := Key(run.player, level);
        bests == old(bests)[key := Upsert(BetterRun, Lookup(old(bests), key), run).run]
      ensures changed <==> (var was := Lookup(old(bests), Key(run.player, level)); was.Nothing? || BetterRun(run, was.run))
      ensures Valid()
    {
      var key := Key(run.player, level);
      changed := false;
      if key !in bests || BetterRun(run, bests[key]) {
        bests := bests[key := run];
        changed := true;
      }
    }

    method UpsertFlawless(level: int, run: Run) returns (changed: bool)
      requires Valid()
      modifies `flawless
      ensures var key := Key(run.player, level);
        flawless == old(flawless)[key := Upsert(FasterRun, Lookup(old(flawless), key), run).run]
      ensures changed <==> (var was := Lookup(old(flawless), Key(run.player, level)); was.Nothing? || FasterRun(run, was.run))
      ensures Valid()
    {
      var key := Key(run.player, level);
      changed := false;
      if key !in flawless || FasterRun(run, flawless[key]) {
        flawless := flawless[key := run];
        changed := true;
      }
    }

    function TableOf(scope: Scope): map<Key, Run>
      reads this
    {
      if scope.Flawless? then flawless else bests
    }

    /** `Rank`: 0 without a row of mine, else my row number on the board of that scope. */
    method Rank(level: int, scope: Scope, hidden: set<Player>, me: Player) returns (n: nat)
      requires Valid()
      ensures n == 0 <==> Key(me, level) !in TableOf(scope)
      ensures forall board :: IsBoard(OrderOf(scope), InScope(RowsOn(TableOf(scope), level), scope, hidden, me), board) && n > 0 ==>
        n <= |board| && board[n - 1] == TableOf(scope)[Key(me, level)]
    {
      var table := TableOf(scope);
      if Key(me, level) !in table {
        return 0;
      }
      n := RankIn(table, level, scope, hidden, me);
      forall board | IsBoard(OrderOf(scope), InScope(RowsOn(table, level), scope, hidden, me), board)
        ensures n <= |board| && board[n - 1] == table[Key(me, level)]
      {
        var k := RankIsRowNumber(table, level, scope, hidden, me, board);
      }
    }
  }

  function Lookup(m: map<Key, Run>, key: Key): Kept {
    if key in m then Keeps(m[key]) else Nothing
  }

  // ----- ORDER BY, column by column -----

  datatype Column = ScoreColumn | WrongColumn | TimeColumn | AchievedColumn | PlayerColumn

  datatype SortKey = Ascending(column: Column) | Descending(column: Column)

  const ORDER_BEST := [Descending(ScoreColumn), Ascending(WrongColumn), Ascending(TimeColumn), Ascending(AchievedColumn),
                       Ascending(PlayerColumn)]
  const ORDER_FLAWLESS := [Ascending(TimeColumn), Ascending(AchievedColumn), Ascending(PlayerColumn)]

  function Value(r: Run, c: Column): real {
    match c
    case ScoreColumn => r.score as real
    case WrongColumn => r.wrong as real
    case TimeColumn => r.time
    case AchievedColumn => r.achievedAt as real
    case PlayerColumn => r.player.id as real
  }

  /** The first column in which two rows differ decides. */
  predicate SortsBefore(keys: seq<SortKey>, a: Run, b: Run) {
    keys != [] &&
      var x, y := Value(a, keys[0].column), Value(b, keys[0].column);
      if x == y then SortsBefore(keys[1..], a, b) else if keys[0].Ascending? then x < y else x > y
  }

  /** The OR-chain of the rank query on the score board. */
  predicate AheadOnBest(b: Run, me: Run) {
    || b.score > me.score
    || (b.score == me.score && b.wrong < me.wrong)
    || (b.score == me.score && b.wrong == me.wrong && b.time < me.time)
    || (b.score == me.score && b.wrong == me.wrong && b.time == me.time && b.achievedAt < me.achievedAt)
    || (b.score == me.score && b.wrong == me.wrong && b.time == me.time && b.achievedAt == me.achievedAt
        && b.player.id < me.player.id)
  }

  /** The one on the flawless board. */
  predicate AheadOnFlawless(b: Run, me: Run) {
    || b.time < me.time
    || (b.time == me.time && b.achievedAt < me.achievedAt)
    || (b.time == me.time && b.achievedAt == me.achievedAt && b.player.id < me.player.id)
  }

  /** The columns after the first n, one at a time. */
  lemma TailOf(keys: seq<SortKey>, n: nat, a: Run, b: Run)
    requires n < |keys|
    ensures SortsBefore(keys[n..], a, b) ==
      var x, y := Value(a, keys[n].column), Value(b, keys[n].column);
      if x == y then SortsBefore(keys[n + 1..], a, b) else if keys[n].Ascending? then x < y else x > y
  {
    assert keys[n..][1..] == keys[n + 1..];
  }

  /** Flipped directions included, the two chains are the ORDER BY of their boards. */
  lemma ChainsAreTheOrders(a: Run, b: Run)
    ensures AheadOnBest(a, b) <==> SortsBefore(ORDER_BEST, a, b)
    ensures AheadOnFlawless(a, b) <==> SortsBefore(ORDER_FLAWLESS, a, b)
  {
    assert ORDER_BEST[0..] == ORDER_BEST && ORDER_FLAWLESS[0..] == ORDER_FLAWLESS;
    TailOf(ORDER_BEST, 0, a, b);
    TailOf(ORDER_BEST, 1, a, b);
    TailOf(ORDER_BEST, 2, a, b);
    TailOf(ORDER_BEST, 3, a, b);
    TailOf(ORDER_BEST, 4, a, b);
    TailOf(ORDER_FLAWLESS, 0, a, b);
    TailOf(ORDER_FLAWLESS, 1, a, b);
    TailOf(ORDER_FLAWLESS, 2, a, b);
  }

  /** And the upserts overwrite by the same orders, up to the player: my stored row is the one of mine
      that would stand first on the board. */
  lemma UpsertsFollowTheOrders(a: Run, b: Run)
    requires a.player == b.player
    ensures BetterRun(a, b) <==> SortsBefore(ORDER_BEST, a, b)
    ensures FasterRun(a, b) <==> SortsBefore(ORDER_FLAWLESS, a, b)
  {
    ChainsAreTheOrders(a, b);
  }

  lemma {:induction false} SortsOneWay(keys: seq<SortKey>, a: Run, b: Run)
    ensures SortsBefore(keys, a, b) ==> !SortsBefore(keys, b, a)
  {
    if keys != [] {
      SortsOneWay(keys[1..], a, b);
    }
  }

  lemma {:induction false} SortsOnward(keys: seq<SortKey>, a: Run, b: Run, c: Run)
    requires SortsBefore(keys, a, b) && SortsBefore(keys, b, c)
    ensures SortsBefore(keys, a, c)
  {
    var k := keys[0].column;
    if Value(a, k) == Value(b, k) == Value(c, k) {
      SortsOnward(keys[1..], a, b, c);
    }
  }

  lemma {:induction false} SortsApart(keys: seq<SortKey>, a: Run, b: Run)
    requires Ascending(PlayerColumn) in keys && a.player != b.player
    ensures SortsBefore(keys, a, b) || SortsBefore(keys, b, a)
  {
    var k := keys[0];
    assert a.player == Player(a.player.id) && b.player == Player(b.player.id);
    if Value(a, k.column) == Value(b, k.column) {
      assert keys == [k] + keys[1..];
      SortsApart(keys[1..], a, b);
    }
  }

  /** Rows of different players never tie on a board. */
  lemma BoardOrders(a: Run, b: Run)
    requires a.player != b.player
    ensures SortsBefore(ORDER_BEST, a, b) <==> !SortsBefore(ORDER_BEST, b, a)
    ensures SortsBefore(ORDER_FLAWLESS, a, b) <==> !SortsBefore(ORDER_FLAWLESS, b, a)
  {
    assert ORDER_BEST[4] in ORDER_BEST && ORDER_FLAWLESS[2] in ORDER_FLAWLESS;
    SortsApart(ORDER_BEST, a, b);
    SortsApart(ORDER_FLAWLESS, a, b);
    SortsOneWay(ORDER_BEST, a, b);
    SortsOneWay(ORDER_FLAWLESS, a, b);
  }

  // ----- boards and ranks -----

  /** What a board shows: everyone who is not hidden, and always myself; me and my friends; or everyone
      again, by their fastest clean run. */
  datatype Scope = Everyone | Friends(ids: set<Player>) | Flawless

  predicate Eligible(scope: Scope, hidden: set<Player>, me: Player, player: Player) {
    match scope
    case Friends(ids) => player == me || player in ids
    case _ => player !in hidden || player == me
  }

  function OrderOf(scope: Scope): seq<SortKey> {
    if scope.Flawless? then ORDER_FLAWLESS else ORDER_BEST
  }

  predicate Ahead(scope: Scope, b: Run, me: Run) {
    if scope.Flawless? then AheadOnFlawless(b, me) else AheadOnBest(b, me)
  }

  /** The rows of one level. */
  function RowsOn(table: map<Key, Run>, level: int): set<Run> {
    set k | k in table && k.level == level :: table[k]
  }

  /** The primary key: one row per player and level. */
  lemma OneRowEach(table: map<Key, Run>, level: int, a: Run, b: Run)
    requires OwnRows(table) && a in RowsOn(table, level) && b in RowsOn(table, level) && a.player == b.player
    ensures a == b && Key(a.player, level) in table && table[Key(a.player, level)] == a
  {
    var i :| i in table && i.level == level && table[i] == a;
    var j :| j in table && j.level == level && table[j] == b;
    assert i == Key(a.player, level) == j;
  }

  function InScope(rows: set<Run>, scope: Scope, hidden: set<Player>, me: Player): set<Run> {
    set r | r in rows && Eligible(scope, hidden, me, r.player)
  }

  /** The board: the rows in scope, sorted; the row number of position k is k + 1. */
  ghost predicate IsBoard(keys: seq<SortKey>, rows: set<Run>, board: seq<Run>) {
    (forall r :: r in rows <==> r in board) && Sorted(keys, board)
  }

  ghost predicate Sorted(keys: seq<SortKey>, board: seq<Run>) {
    forall i, j :: 0 <= i < j < |board| ==> SortsBefore(keys, board[i], board[j])
  }

  /** Who is on a board: the owners of the rows of its level, of them me and my friends, or me and
      everybody who is not hidden; each with the row of their own. */
  lemma BoardShows(table: map<Key, Run>, level: int, scope: Scope, hidden: set<Player>, me: Player, board: seq<Run>, p: Player)
    requires OwnRows(table) && IsBoard(OrderOf(scope), InScope(RowsOn(table, level), scope, hidden, me), board)
    ensures (exists k :: 0 <= k < |board| && board[k].player == p) <==>
      && Key(p, level) in table
      && (p == me || (scope.Friends? && p in scope.ids) || (!scope.Friends? && p !in hidden))
    ensures forall k :: 0 <= k < |board| && board[k].player == p ==> Key(p, level) in table && board[k] == table[Key(p, level)]
  {
    forall k | 0 <= k < |board| && board[k].player == p
      ensures Key(p, level) in table && board[k] == table[Key(p, level)] && Eligible(scope, hidden, me, p)
    {
      assert board[k] in board;
      OneRowEach(table, level, board[k], board[k]);
    }
    if Key(p, level) in table && Eligible(scope, hidden, me, p) {
      var row := table[Key(p, level)];
      assert row in RowsOn(table, level) && row.player == p;
      assert row in board;
      var k :| 0 <= k < |board| && board[k] == row;
    }
  }

  /** How the two boards read from top to bottom. */
  lemma BoardReads(rows: set<Run>, board: seq<Run>, i: nat, j: nat)
    requires i < j < |board|
    ensures IsBoard(ORDER_BEST, rows, board) ==>
      && board[i].score >= board[j].score
      && (board[i].score == board[j].score ==> board[i].wrong <= board[j].wrong)
      && (board[i].score == board[j].score && board[i].wrong == board[j].wrong ==> board[i].time <= board[j].time)
    ensures IsBoard(ORDER_FLAWLESS, rows, board) ==>
      && board[i].time <= board[j].time
      && (board[i].time == board[j].time ==> board[i].achievedAt <= board[j].achievedAt)
  {
    ChainsAreTheOrders(board[i], board[j]);
  }

  /** COUNT(*) + 1 of the rows in scope that the chain puts before mine. */
  function RankIn(table: map<Key, Run>, level: int, scope: Scope, hidden: set<Player>, me: Player): nat {
    if Key(me, level) !in table then 0
    else 1 + |set r | r in InScope(RowsOn(table, level), scope, hidden, me) && Ahead(scope, r, table[Key(me, level)])|
  }

  function Elements(board: seq<Run>): (s: set<Run>)
    ensures forall r :: r in s <==> r in board
  {
    set r | r in board
  }

  lemma NotBefore(keys: seq<SortKey>, board: seq<Run>, k: nat)
    requires k < |board| && Sorted(keys, board)
    ensures board[k] !in board[..k]
  {
    forall i | 0 <= i < k
      ensures board[i] != board[k]
    {
      SortsOneWay(keys, board[i], board[k]);
    }
  }

  lemma OneElementMore(board: seq<Run>, k: nat)
    requires k < |board|
    ensures Elements(board[..k + 1]) == Elements(board[..k]) + {board[k]}
  {
    assert board[..k + 1] == board[..k] + [board[k]];
  }

  lemma {:induction false} PrefixCard(keys: seq<SortKey>, board: seq<Run>, k: nat)
    requires k <= |board| && Sorted(keys, board)
    ensures |Elements(board[..k])| == k
  {
    if k > 0 {
      PrefixCard(keys, board, k - 1);
      NotBefore(keys, board, k - 1);
      OneElementMore(board, k - 1);
    }
  }

  /** Where a row sorts before position k it stands in the first k rows, and the other way round. */
  lemma BetterIsEarlier(keys: seq<SortKey>, board: seq<Run>, k: nat, r: Run)
    requires k < |board| && Sorted(keys, board)
    ensures r in board && SortsBefore(keys, r, board[k]) <==> r in board[..k]
  {
    if r in board[..k] {
      var i :| 0 <= i < k && board[..k][i] == r;
      assert board[i] == r;
    }
    if r in board && SortsBefore(keys, r, board[k]) {
      var i :| 0 <= i < |board| && board[i] == r;
      SortsOneWay(keys, board[i], board[k]);
      assert i < k;
      assert board[..k][i] == r;
    }
  }

  /** My rank is my row number on the board, and I am always on the board when I have a row; without
      one my rank is 0 and I am not on it. */
  lemma RankIsRowNumber(table: map<Key, Run>, level: int, scope: Scope, hidden: set<Player>, me: Player, board: seq<Run>)
      returns (k: nat)
    requires OwnRows(table) && IsBoard(OrderOf(scope), InScope(RowsOn(table, level), scope, hidden, me), board)
    ensures Key(me, level) in table ==>
      k < |board| && board[k] == table[Key(me, level)] && RankIn(table, level, scope, hidden, me) == k + 1
    ensures Key(me, level) !in table ==>
      RankIn(table, level, scope, hidden, me) == 0 && forall r :: r in board ==> r.player != me
  {
    k := 0;
    if Key(me, level) in table {
      var mine := table[Key(me, level)];
      assert mine in InScope(RowsOn(table, level), scope, hidden, me);
      assert mine in board;
      k :| k < |board| && board[k] == mine;
      CountIsPosition(InScope(RowsOn(table, level), scope, hidden, me), scope, board, k);
    } else {
      forall r | r in board
        ensures r.player != me
      {
        assert r in RowsOn(table, level);
        OneRowEach(table, level, r, r);
      }
    }
  }

  lemma CountIsPosition(rows: set<Run>, scope: Scope, board: seq<Run>, k: nat)
    requires IsBoard(OrderOf(scope), rows, board) && k < |board|
    ensures |set r | r in rows && Ahead(scope, r, board[k])| == k
  {
    PrefixCard(OrderOf(scope), board, k);
    var better := set r | r in rows && Ahead(scope, r, board[k]);
    forall r
      ensures r in better <==> r in board[..k]
    {
      ChainsAreTheOrders(r, board[k]);
      BetterIsEarlier(OrderOf(scope), board, k, r);
    }
    assert better == Elements(board[..k]);
  }

  /** A board exists for every state of the tables: the rows of a level can always be numbered. */
  lemma {:induction false} BoardExists(table: map<Key, Run>, level: int, keys: seq<SortKey>, rows: set<Run>) returns (board: seq<Run>)
    requires OwnRows(table) && rows <= RowsOn(table, level) && Ascending(PlayerColumn) in keys
    ensures IsBoard(keys, rows, board)
  {
    if rows == {} {
      board := [];
    } else {
      var r :| r in rows;
      var rest := BoardExists(table, level, keys, rows - {r});
      board := Inserted(table, level, keys, rest, r);
      assert forall x :: x in rows <==> x in rows - {r} || x == r;
    }
  }

  lemma {:induction false} Inserted(table: map<Key, Run>, level: int, keys: seq<SortKey>, board: seq<Run>, r: Run) returns (out: seq<Run>)
    requires OwnRows(table) && Ascending(PlayerColumn) in keys && Sorted(keys, board)
    requires r in RowsOn(table, level) && r !in board && forall x :: x in board ==> x in RowsOn(table, level)
    ensures Sorted(keys, out) && forall x :: x in out <==> x in board || x == r
    ensures out[0] == r || (board != [] && out[0] == board[0])
  {
    if board == [] {
      out := [r];
    } else {
      if board[0].player == r.player {
        OneRowEach(table, level, board[0], r);
      }
      SortsApart(keys, board[0], r);
      if SortsBefore(keys, r, board[0]) {
        out := [r] + board;
        forall j | 0 < j < |board|
          ensures SortsBefore(keys, r, board[j])
        {
          SortsOnward(keys, r, board[0], board[j]);
        }
      } else {
        var rest := Inserted(table, level, keys, board[1..], r);
        out := [board[0]] + rest;
        forall j | 0 <= j < |rest|
          ensures SortsBefore(keys, board[0], rest[j])
        {
          assert rest[j] in rest;
          if rest[j] != r {
            var i :| 0 <= i < |board| - 1 && board[1..][i] == rest[j];
            assert board[i + 1] == rest[j];
          }
        }
      }
    }
  }

  /** So there is always a board, and the rank says where on it I am. */
  lemma RankOnTheBoard(table: map<Key, Run>, level: int, scope: Scope, hidden: set<Player>, me: Player) returns (board: seq<Run>)
    requires OwnRows(table)
    ensures IsBoard(OrderOf(scope), InScope(RowsOn(table, level), scope, hidden, me), board)
    ensures RankIn(table, level, scope, hidden, me) == 0 <==> forall r :: r in board ==> r.player != me
    ensures Key(me, level) in table ==>
      var rank := RankIn(table, level, scope, hidden, me);
      1 <= rank <= |board| && board[rank - 1] == table[Key(me, level)]
  {
    board := BoardExists(table, level, OrderOf(scope), InScope(RowsOn(table, level), scope, hidden, me));
    var k := RankIsRowNumber(table, level, scope, hidden, me, board);
    if Key(me, level) in table {
      assert board[k] in board && board[k].player == me;
    }
  }
}
