/** Ranking a league group: the sort, the promotion and relegation counts, the zones, and the SQL
    shortcuts that must give every member the same rank and zone. */
module Standings {
  import opened Boards

  /** One row of a group: a member, or a bot that only competes. */
  datatype Entry = Entry(player: int, score: int, games: int, lastSubmit: int, left: bool, bot: bool)

  datatype Zone = Promote | Safe | Relegate

  datatype Placed = Placed(entry: Entry, rank: nat, zone: Zone)

  // ----- the order of a standing -----

  /** Higher score, then fewer games, then earlier submit, then player id. */
  predicate Before(a: Entry, b: Entry) {
    if a.score != b.score then a.score > b.score
    else if a.games != b.games then a.games < b.games
    else if a.lastSubmit != b.lastSubmit then a.lastSubmit < b.lastSubmit
    else a.player < b.player
  }

  /** The same comparison as the rank query spells it: one OR-chain with mixed directions. */
  predicate BeforeInSql(e: Entry, me: Entry) {
    || e.score > me.score
    || (e.score == me.score && e.games < me.games)
    || (e.score == me.score && e.games == me.games && e.lastSubmit < me.lastSubmit)
    || (e.score == me.score && e.games == me.games && e.lastSubmit == me.lastSubmit && e.player < me.player)
  }

  ghost predicate Ranked(s: seq<Entry>) {
    forall i, j :: 0 <= i < j < |s| ==> !Before(s[j], s[i])
  }

  /** No player twice: the primary key of the member rows; bot ids never collide. */
  ghost predicate OncePerPlayer(s: seq<Entry>) {
    forall i, j :: 0 <= i < j < |s| ==> s[i].player != s[j].player
  }

  /** Scores fall from place to place; among equals the games rise, then the times, then the ids. */
  lemma RankedMeans(s: seq<Entry>)
    ensures Ranked(s) <==> forall i, j :: 0 <= i < j < |s| ==>
      && s[i].score >= s[j].score
      && (s[i].score == s[j].score ==> s[i].games <= s[j].games)
      && (s[i].score == s[j].score && s[i].games == s[j].games ==> s[i].lastSubmit <= s[j].lastSubmit)
      && (s[i].score == s[j].score && s[i].games == s[j].games && s[i].lastSubmit == s[j].lastSubmit ==>
            s[i].player <= s[j].player)
  {
    if Ranked(s) {
      forall i, j | 0 <= i < j < |s|
        ensures !Before(s[j], s[i])
      {
      }
    }
  }

  method SortMembers(members: seq<Entry>) returns (out: seq<Entry>)
    ensures Ranked(out) && multiset(out) == multiset(members)
  {
    out := [];
    for k := 0 to |members|
      invariant Ranked(out) && multiset(out) == multiset(members[..k])
    {
      out := InsertRanked(out, members[k]);
      assert members[..k + 1] == members[..k] + [members[k]];
    }
    assert members[..|members|] == members;
  }

  /** Stable: a later entry goes behind the ones it does not beat. */
  method InsertRanked(s: seq<Entry>, x: Entry) returns (t: seq<Entry>)
    requires Ranked(s)
    ensures Ranked(t) && multiset(t) == multiset(s) + multiset{x}
  {
    var i := |s|;
    while i > 0 && Before(x, s[i - 1])
      invariant 0 <= i <= |s|
      invariant forall j :: i <= j < |s| ==> Before(x, s[j])
    {
      i := i - 1;
    }
    t := s[..i] + [x] + s[i..];
    InsertedRanked(s, i, x);
    assert s == s[..i] + s[i..];
  }

  lemma InsertedRanked(s: seq<Entry>, i: nat, x: Entry)
    requires Ranked(s) && i <= |s|
    requires i > 0 ==> !Before(x, s[i - 1])
    requires forall j :: i <= j < |s| ==> Before(x, s[j])
    ensures Ranked(s[..i] + [x] + s[i..])
  {
    var t := s[..i] + [x] + s[i..];
    assert forall j :: 0 <= j < i ==> t[j] == s[j];
    assert forall j :: i < j < |t| ==> t[j] == s[j - 1];
    forall j | 0 <= j < i
      ensures !Before(x, s[j])
    {
      assert j < i - 1 ==> !Before(s[i - 1], s[j]);
    }
  }

  ghost function Rows(s: seq<Entry>): set<Entry> {
    set e | e in s
  }

  lemma RankedStrictly(s: seq<Entry>, i: nat, j: nat)
    requires Ranked(s) && OncePerPlayer(s) && i < |s| && j < |s|
    ensures Before(s[j], s[i]) <==> j < i
  {
    if j < i {
      assert !Before(s[i], s[j]) && s[i].player != s[j].player;
    } else if i < j {
      assert !Before(s[j], s[i]);
    }
  }

  /** There is only one ranking of a set of rows. */
  lemma {:induction false} RankingUnique(s: seq<Entry>, t: seq<Entry>)
    requires Ranked(s) && Ranked(t) && OncePerPlayer(s) && OncePerPlayer(t) && Rows(s) == Rows(t)
    ensures s == t
  {
    RowsCard(s);
    RowsCard(t);
    forall i: nat | i < |s|
      ensures s[i] == t[i]
    {
      RankIsPosition(s, i);
      assert s[i] in Rows(t);
      var j: nat :| j < |t| && t[j] == s[i];
      RankIsPosition(t, j);
    }
  }

  lemma {:induction false} RowsCard(s: seq<Entry>)
    requires OncePerPlayer(s)
    ensures |Rows(s)| == |s|
  {
    if s != [] {
      var k := |s| - 1;
      RowsCard(s[..k]);
      assert Rows(s) == Rows(s[..k]) + {s[k]};
      assert s[k] !in s[..k];
    }
  }

  // ----- the rank query -----

  /** COUNT(*) + 1 of the rows that come before. */
  function MemberRank(rows: set<Entry>, me: Entry): nat {
    |set e | e in rows && BeforeInSql(e, me)| + 1
  }

  lemma RankIsPosition(s: seq<Entry>, i: nat)
    requires Ranked(s) && OncePerPlayer(s) && i < |s|
    ensures MemberRank(Rows(s), s[i]) == i + 1
  {
    var better := set e | e in Rows(s) && BeforeInSql(e, s[i]);
    forall e
      ensures e in better <==> e in Rows(s[..i])
    {
      if e in Rows(s) {
        var j: nat :| j < |s| && s[j] == e;
        RankedStrictly(s, i, j);
        assert j < i ==> s[..i][j] == e;
      }
      if e in Rows(s[..i]) {
        var j: nat :| j < i && s[..i][j] == e;
        RankedStrictly(s, i, j);
        assert s[j] == e;
      }
    }
    assert better == Rows(s[..i]);
    RowsCard(s[..i]);
  }

  // ----- how many go up and down -----

  datatype UpMode = ByPercent | ByOpenings | ByScore

  datatype TierRule = TierRule(upMode: UpMode, promoScore: int, upPct: int, downPct: int, minPromoScore: int)

  datatype CountsResult = CountsResult(up: int, down: int)

  /** pct% of n, halves rounded away from zero. */
  function PercentOf(pct: int, n: int): int {
    var x := pct * n;
    if x >= 0 then (2 * x + 100) / 200 else -((-2 * x + 100) / 200)
  }

  function PromoScoreOf(t: TierRule): int {
    if t.upMode != ByScore || t.promoScore < 0 then 0 else t.promoScore
  }

  /** `upCount` >= 0 replaces the percentage of the tier by a fixed number. */
  function Counts(n: int, t: TierRule, minGroupSize: int, leaderScore: int, upCount: int): CountsResult {
    if n <= 0 then CountsResult(0, 0)
    else
      var byScore := PromoScoreOf(t) > 0;
      var wantsUp := (if upCount >= 0 then upCount > 0 else t.upPct > 0) && !byScore;
      if n < minGroupSize then
        CountsResult(if leaderScore >= t.minPromoScore && wantsUp then 1 else 0, 0)
      else
        var up := if byScore then 0 else if upCount >= 0 then Min(upCount, n) else PercentOf(t.upPct, n);
        var down := PercentOf(t.downPct, n);
        CountsResult(up, if up + down > n then n - up else down)
  }

  /** r is the integer nearest to x hundredths, halves away from zero. */
  predicate IsRounded(x: int, r: int) {
    if x >= 0 then 100 * r - 50 <= x < 100 * r + 50 else 100 * r - 50 < x <= 100 * r + 50
  }

  lemma PercentRounds(pct: int, n: int, r: int)
    ensures PercentOf(pct, n) == r <==> IsRounded(pct * n, r)
  {
  }

  /** The numbers of a group: none for an empty one, one up at most for a tiny one, otherwise the
      nearest to the percentages, with fixed openings in place of the first and what is left of the
      group in place of a second that does not fit. */
  ghost predicate CountsAre(n: int, t: TierRule, minGroupSize: int, leaderScore: int, upCount: int, c: CountsResult) {
    var byScore := t.upMode == ByScore && t.promoScore > 0;
    && (n <= 0 ==> c.up == c.down == 0)
    && (0 < n < minGroupSize ==>
          && c.down == 0 && (c.up == 0 || c.up == 1)
          && (c.up == 1 <==> leaderScore >= t.minPromoScore && !byScore && (upCount > 0 || (upCount < 0 && t.upPct > 0))))
    && (n > 0 && n >= minGroupSize ==>
          && (byScore ==> c.up == 0)
          && (!byScore && upCount >= 0 ==> c.up <= upCount && c.up <= n && (c.up < n ==> c.up == upCount))
          && (!byScore && upCount < 0 ==> IsRounded(t.upPct * n, c.up))
          && c.up + c.down <= n
          && (c.up + c.down < n ==> IsRounded(t.downPct * n, c.down))
          && (c.up + c.down == n ==> exists d :: d >= c.down && IsRounded(t.downPct * n, d)))
  }

  /** They are the numbers of the group, and the only ones. */
  lemma CountsMean(n: int, t: TierRule, minGroupSize: int, leaderScore: int, upCount: int, c: CountsResult)
    ensures Counts(n, t, minGroupSize, leaderScore, upCount) == c <==> CountsAre(n, t, minGroupSize, leaderScore, upCount, c)
  {
    PercentRounds(t.upPct, n, c.up);
    PercentRounds(t.downPct, n, c.down);
    PercentRounds(t.upPct, n, PercentOf(t.upPct, n));
    PercentRounds(t.downPct, n, PercentOf(t.downPct, n));
  }

  /** Percentages as every shipped tier has them. */
  predicate SaneRule(t: TierRule) {
    0 <= t.upPct <= 100 && 0 <= t.downPct <= 100
  }

  lemma PercentInRange(pct: int, n: int)
    requires 0 <= pct <= 100 && n >= 0
    ensures 0 <= PercentOf(pct, n) <= n
  {
    ProductInRange(pct, n);
    var x := pct * n;
    assert (2 * x + 100) / 200 <= (200 * n + 100) / 200;
  }

  lemma ProductInRange(pct: int, n: int)
    requires 0 <= pct <= 100 && n >= 0
    ensures 0 <= pct * n <= 100 * n
  {
    assert (100 - pct) * n == 100 * n - pct * n;
  }

  /** The two bands never overlap and never leave the group. */
  lemma CountsFit(n: int, t: TierRule, minGroupSize: int, leaderScore: int, upCount: int)
    requires n >= 0 && SaneRule(t)
    ensures var c := Counts(n, t, minGroupSize, leaderScore, upCount);
      0 <= c.up && 0 <= c.down && c.up + c.down <= n
  {
    PercentInRange(t.upPct, n);
    PercentInRange(t.downPct, n);
  }

  // ----- evaluating a group -----

  /** The zone of the entry at position i of a ranked group of n. */
  function ZoneAt(i: int, score: int, n: int, c: CountsResult): Zone {
    if i < c.up && score > 0 then Promote
    else if i >= n - c.down then Relegate
    else Safe
  }

  function LeaderScore(ranked: seq<Entry>): int {
    if ranked == [] then 0 else ranked[0].score
  }

  datatype Evaluation = Evaluation(members: seq<Placed>, promoteCount: nat, relegateCount: int)

  /** Ranks and zones of the first k entries of a ranked group. */
  function PlacedRows(ranked: seq<Entry>, c: CountsResult, k: nat): seq<Placed>
    requires k <= |ranked|
  {
    seq(k, i requires 0 <= i < k => Placed(ranked[i], i + 1, ZoneAt(i, ranked[i].score, |ranked|, c)))
  }

  /** How many of the first k entries are promoted. */
  function PromotedAmong(ranked: seq<Entry>, c: CountsResult, k: nat): nat
    requires k <= |ranked|
  {
    if k == 0 then 0
    else PromotedAmong(ranked, c, k - 1) + (if ZoneAt(k - 1, ranked[k - 1].score, |ranked|, c) == Promote then 1 else 0)
  }

  function CountsFor(ranked: seq<Entry>, t: TierRule, minGroupSize: int, upCount: int): CountsResult {
    Counts(|ranked|, t, minGroupSize, LeaderScore(ranked), upCount)
  }

  /** The evaluation of a ranked group. */
  function EvaluationOf(ranked: seq<Entry>, t: TierRule, minGroupSize: int, upCount: int): Evaluation {
    var c := CountsFor(ranked, t, minGroupSize, upCount);
    Evaluation(PlacedRows(ranked, c, |ranked|), PromotedAmong(ranked, c, |ranked|), c.down)
  }

  ghost predicate RankingOf(ranked: seq<Entry>, entries: seq<Entry>) {
    Ranked(ranked) && multiset(ranked) == multiset(entries)
  }

  /** Which of the first k members go up. */
  ghost function GoingUp(ev: Evaluation, k: nat): set<nat> {
    set i: nat | i < k && i < |ev.members| && ev.members[i].zone == Promote
  }

  /** The evaluation of a ranked group: rank i + 1 for row i; the first c.up rows go up, as far as they
      scored, the last c.down go down; as many are reported to go up as do, and c.down to go down. */
  ghost predicate Assigns(ranked: seq<Entry>, c: CountsResult, ev: Evaluation) {
    && |ev.members| == |ranked| && ev.relegateCount == c.down
    && ev.promoteCount == |GoingUp(ev, |ranked|)|
    && forall i :: 0 <= i < |ranked| ==>
      && ev.members[i].entry == ranked[i] && ev.members[i].rank == i + 1
      && (ev.members[i].zone == Promote <==> i < c.up && ranked[i].score > 0)
      && (ev.members[i].zone == Relegate <==> !(i < c.up && ranked[i].score > 0) && i + c.down >= |ranked|)
  }

  lemma {:induction false} PromotedAreCounted(ranked: seq<Entry>, c: CountsResult, ev: Evaluation, k: nat)
    requires k <= |ranked| && ev.members == PlacedRows(ranked, c, |ranked|)
    ensures PromotedAmong(ranked, c, k) == |GoingUp(ev, k)|
  {
    if k > 0 {
      PromotedAreCounted(ranked, c, ev, k - 1);
      var before := GoingUp(ev, k - 1);
      assert GoingUp(ev, k) == if ev.members[k - 1].zone == Promote then before + {k - 1} else before;
    }
  }

  /** By the numbers of the group, with the score of the first row as the leader's. */
  ghost predicate EvaluatedBy(ranked: seq<Entry>, t: TierRule, minGroupSize: int, upCount: int, c: CountsResult, ev: Evaluation) {
    var leader := if ranked == [] then 0 else ranked[0].score;
    CountsAre(|ranked|, t, minGroupSize, leader, upCount, c) && Assigns(ranked, c, ev)
  }

  lemma EvaluationMeans(ranked: seq<Entry>, t: TierRule, minGroupSize: int, upCount: int)
    ensures EvaluatedBy(ranked, t, minGroupSize, upCount, CountsFor(ranked, t, minGroupSize, upCount),
                     EvaluationOf(ranked, t, minGroupSize, upCount))
  {
    var c := CountsFor(ranked, t, minGroupSize, upCount);
    CountsMean(|ranked|, t, minGroupSize, LeaderScore(ranked), upCount, c);
    PromotedAreCounted(ranked, c, EvaluationOf(ranked, t, minGroupSize, upCount), |ranked|);
  }

  /** Whatever order the entries arrive in, the result is the evaluation of their ranking. */
  method Evaluate(entries: seq<Entry>, t: TierRule, minGroupSize: int, upCount: int) returns (ev: Evaluation)
    ensures exists ranked :: RankingOf(ranked, entries) && ev == EvaluationOf(ranked, t, minGroupSize, upCount)
    ensures exists ranked, c :: RankingOf(ranked, entries) && EvaluatedBy(ranked, t, minGroupSize, upCount, c, ev)
  {
    var sorted := SortMembers(entries);
    var n := |sorted|;
    var leader := 0;
    if n > 0 {
      leader := sorted[0].score;
    }
    var c := Counts(n, t, minGroupSize, leader, upCount);
    var promoted: nat := 0;
    var out: seq<Placed> := [];
    for i := 0 to n
      invariant out == PlacedRows(sorted, c, i)
      invariant promoted == PromotedAmong(sorted, c, i)
    {
      var zone := Safe;
      if i < c.up && sorted[i].score > 0 {
        zone := Promote;
        promoted := promoted + 1;
      } else if i >= n - c.down {
        zone := Relegate;
      }
      out := out + [Placed(sorted[i], i + 1, zone)];
    }
    ev := Evaluation(out, promoted, c.down);
    EvaluationMeans(sorted, t, minGroupSize, upCount);
    assert RankingOf(sorted, entries) && ev == EvaluationOf(sorted, t, minGroupSize, upCount);
  }

  lemma SameRows(s: seq<Entry>, t: seq<Entry>)
    requires multiset(s) == multiset(t)
    ensures Rows(s) == Rows(t)
    ensures OncePerPlayer(s) ==> OncePerPlayer(t)
  {
    forall e
      ensures e in s <==> e in t
    {
      assert e in multiset(s) <==> e in multiset(t);
    }
    if OncePerPlayer(s) {
      OnceInBag(s);
      OnceFromBag(t);
    }
  }

  ghost predicate BagOnce(bag: multiset<Entry>) {
    && (forall a :: a in bag ==> bag[a] <= 1)
    && (forall a, b :: a in bag && b in bag && a.player == b.player ==> a == b)
  }

  lemma {:induction false} OnceInBag(s: seq<Entry>)
    requires OncePerPlayer(s)
    ensures BagOnce(multiset(s))
  {
    if s != [] {
      var k := |s| - 1;
      assert s == s[..k] + [s[k]];
      OnceInBag(s[..k]);
      forall a | a in multiset(s[..k])
        ensures a.player != s[k].player
      {
        assert a in s[..k];
      }
    }
  }

  lemma OnceFromBag(t: seq<Entry>)
    requires BagOnce(multiset(t))
    ensures OncePerPlayer(t)
  {
    forall i, j | 0 <= i < j < |t|
      ensures t[i].player != t[j].player
    {
      assert t == t[..i] + [t[i]] + t[i + 1..j] + [t[j]] + t[j + 1..];
      assert t[i] == t[j] ==> multiset(t)[t[i]] >= 2;
    }
  }

  /** The order the rows come in never matters. */
  lemma EvaluationIgnoresOrder(e1: seq<Entry>, e2: seq<Entry>, r1: seq<Entry>, r2: seq<Entry>)
    requires OncePerPlayer(e1) && multiset(e1) == multiset(e2) && RankingOf(r1, e1) && RankingOf(r2, e2)
    ensures r1 == r2
  {
    SameRows(e1, r1);
    SameRows(e1, r2);
    RankingUnique(r1, r2);
  }

  // ----- the shortcuts for a global group -----

  /** `zoneFor`: the branch order of the evaluation, from a rank. */
  function ZoneFor(rank: int, score: int, n: int, c: CountsResult): Zone {
    if rank <= c.up && score > 0 then Promote
    else if rank > n - c.down then Relegate
    else Safe
  }

  /** COALESCE(MAX(round_score), 0). */
  ghost function LeaderInSql(rows: set<Entry>): int {
    if rows == {} then 0 else MaxOfScores(rows)
  }

  ghost function MaxOfScores(rows: set<Entry>): int
    requires rows != {}
  {
    var x :| x in rows;
    if rows == {x} then x.score
    else
      var rest := MaxOfScores(rows - {x});
      if x.score >= rest then x.score else rest
  }

  lemma {:induction false} MaxIsReached(rows: set<Entry>)
    requires rows != {}
    ensures forall e :: e in rows ==> e.score <= MaxOfScores(rows)
    ensures exists e :: e in rows && e.score == MaxOfScores(rows)
  {
    var x :| x in rows && MaxOfScores(rows) == if rows == {x} then x.score
      else if x.score >= MaxOfScores(rows - {x}) then x.score else MaxOfScores(rows - {x});
    if rows != {x} {
      MaxIsReached(rows - {x});
      assert forall e :: e in rows ==> e == x || e in rows - {x};
    }
  }

  /** How many of the first k rows have a positive score. */
  function PositiveAmong(ranked: seq<Entry>, k: nat): nat
    requires k <= |ranked|
  {
    if k == 0 then 0 else PositiveAmong(ranked, k - 1) + (if ranked[k - 1].score > 0 then 1 else 0)
  }

  /** COUNT of the positive scores in ORDER BY .. LIMIT up. */
  function PromoteCountInSql(ranked: seq<Entry>, up: int): nat {
    if up <= 0 then 0 else PositiveAmong(ranked, Min(up, |ranked|))
  }

  lemma LeaderIsFirst(s: seq<Entry>)
    requires Ranked(s)
    ensures LeaderInSql(Rows(s)) == LeaderScore(s)
  {
    if s != [] {
      assert s[0] in Rows(s);
      MaxIsReached(Rows(s));
      forall e | e in Rows(s)
        ensures e.score <= s[0].score
      {
        var i: nat :| i < |s| && s[i] == e;
        assert i > 0 ==> !Before(s[i], s[0]);
      }
    } else {
      assert Rows(s) == {};
    }
  }

  /** The member a global standing shows in SQL has the rank and the zone the closer gives. */
  lemma SqlStandingRefinesEvaluate(s: seq<Entry>, i: nat, t: TierRule, minGroupSize: int, upCount: int)
    requires Ranked(s) && OncePerPlayer(s) && i < |s|
    ensures var rows := Rows(s);
      var c := Counts(|rows|, t, minGroupSize, LeaderInSql(rows), upCount);
      var shown := EvaluationOf(s, t, minGroupSize, upCount).members[i];
      && shown.entry == s[i]
      && MemberRank(rows, s[i]) == shown.rank
      && ZoneFor(MemberRank(rows, s[i]), s[i].score, |rows|, c) == shown.zone
  {
    RowsCard(s);
    LeaderIsFirst(s);
    RankIsPosition(s, i);
  }

  lemma {:induction false} PromotedAmongCounts(ranked: seq<Entry>, c: CountsResult, k: nat)
    requires k <= |ranked|
    ensures PromotedAmong(ranked, c, k) == if c.up <= 0 then 0 else PositiveAmong(ranked, Min(c.up, k))
  {
    if k > 0 {
      PromotedAmongCounts(ranked, c, k - 1);
    }
  }

  /** And the promote count is the one the closer reports. */
  lemma SqlPromoteCountRefinesEvaluate(s: seq<Entry>, t: TierRule, minGroupSize: int, upCount: int)
    requires Ranked(s) && OncePerPlayer(s)
    ensures var c := Counts(|Rows(s)|, t, minGroupSize, LeaderInSql(Rows(s)), upCount);
      PromoteCountInSql(s, c.up) == EvaluationOf(s, t, minGroupSize, upCount).promoteCount
  {
    RowsCard(s);
    LeaderIsFirst(s);
    PromotedAmongCounts(s, CountsFor(s, t, minGroupSize, upCount), |s|);
  }

  // ----- how many move -----

  function RelegatedAmong(ranked: seq<Entry>, c: CountsResult, k: nat): nat
    requires k <= |ranked|
  {
    if k == 0 then 0
    else RelegatedAmong(ranked, c, k - 1) + (if ZoneAt(k - 1, ranked[k - 1].score, |ranked|, c) == Relegate then 1 else 0)
  }

  /** Although the evaluation reports the intended number of relegations, it is the real one. */
  lemma {:induction false} RelegatedExactly(ranked: seq<Entry>, c: CountsResult, k: nat)
    requires 0 <= c.up && 0 <= c.down && c.up + c.down <= |ranked| && k <= |ranked|
    ensures RelegatedAmong(ranked, c, k) == if k <= |ranked| - c.down then 0 else k - (|ranked| - c.down)
  {
    if k > 0 {
      RelegatedExactly(ranked, c, k - 1);
    }
  }

  /** Promotions stop at the count, and reach it when enough of the group scored. */
  lemma {:induction false} PromotedAtMost(ranked: seq<Entry>, c: CountsResult, k: nat)
    requires k <= |ranked|
    ensures PromotedAmong(ranked, c, k) <= (if c.up < 0 then 0 else Min(c.up, k))
    ensures (forall i :: 0 <= i < k && i < c.up ==> ranked[i].score > 0) ==>
      PromotedAmong(ranked, c, k) == (if c.up < 0 then 0 else Min(c.up, k))
  {
    if k > 0 {
      PromotedAtMost(ranked, c, k - 1);
    }
  }
}
