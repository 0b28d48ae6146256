/** Two uses of the best-N sum: marking the games of a round that count, and the ceiling no
    possible round exceeds. */
module RoundRuns {
  import opened BestOfRound

  // ----- the run list -----

  /** One completed game of the round, as the list query returns it. */
  datatype Run = Run(score: int, counted: bool)

  function Scores(runs: seq<Run>): seq<int> {
    seq(|runs|, i requires 0 <= i < |runs| => runs[i].score)
  }

  function CountedScores(runs: seq<Run>): seq<int> {
    if runs == [] then []
    else
      var rest := CountedScores(runs[..|runs| - 1]);
      var last := runs[|runs| - 1];
      if last.counted then rest + [last.score] else rest
  }

  /** The places of the counted games with score x. */
  ghost function CountedAt(runs: seq<Run>, x: int): set<nat> {
    set i: nat | i < |runs| && runs[i].counted && runs[i].score == x
  }

  /** Every counted game is in the list, as often as it was played, and no other. */
  lemma {:induction false} CountedMeans(runs: seq<Run>, x: int)
    ensures multiset(CountedScores(runs))[x] == |CountedAt(runs, x)|
  {
    if runs != [] {
      var k := |runs| - 1;
      CountedMeans(runs[..k], x);
      var before := CountedAt(runs[..k], x);
      assert CountedAt(runs, x) == if runs[k].counted && runs[k].score == x then before + {k} else before;
    }
  }

  /** The sum of the marked games. */
  function MarkedSum(runs: seq<Run>, marks: seq<bool>): int
    requires |marks| == |runs|
  {
    if runs == [] then 0
    else
      var k := |runs| - 1;
      MarkedSum(runs[..k], marks[..k]) + (if marks[k] then runs[k].score else 0)
  }

  /** The list is best first, so the counted games come best first too. */
  lemma {:induction false} CountedDescend(runs: seq<Run>)
    requires Descending(Scores(runs))
    ensures Descending(CountedScores(runs))
    ensures runs != [] ==> forall x :: x in CountedScores(runs) ==> x >= runs[|runs| - 1].score
  {
    if runs != [] {
      var k := |runs| - 1;
      var s := Scores(runs);
      assert Scores(runs[..k]) == s[..k];
      CountedDescend(runs[..k]);
      var rest := CountedScores(runs[..k]);
      forall i | 0 <= i < |rest|
        ensures rest[i] >= runs[k].score
      {
        assert rest[i] in rest;
        assert s[k - 1] >= s[k];
      }
    }
  }

  lemma TopNGrows(n: int, s: seq<int>, x: int)
    ensures n > |s| ==> TopN(n, s + [x]) == TopN(n, s) + [x]
    ensures n <= |s| ==> TopN(n, s + [x]) == TopN(n, s)
  {
    if 0 < n <= |s| {
      assert (s + [x])[..n] == s[..n];
    }
  }

  /** A counted game; with rounds and a best N, only while fewer than N counted games came before it. */
  ghost predicate MarksGame(runs: seq<Run>, i: nat, hasRounds: bool, rule: ScoreRule)
    requires i < |runs|
  {
    runs[i].counted && (hasRounds && rule.mode == BestN ==> |CountedScores(runs[..i])| < rule.bestN)
  }

  /** The loop of `Runs`: in a tier with rounds the first N counted games are marked, in a tier
      without rounds every counted one. */
  method MarkRuns(runs: seq<Run>, hasRounds: bool, rule: ScoreRule) returns (marks: seq<bool>, counted: seq<int>)
    ensures |marks| == |runs| && counted == CountedScores(runs)
    ensures hasRounds && Descending(Scores(runs)) ==> MarkedSum(runs, marks) == RoundScoreOf(rule, multiset(counted))
    ensures !hasRounds ==> MarkedSum(runs, marks) == Sum(counted)
    ensures forall i :: 0 <= i < |runs| ==> (marks[i] <==> MarksGame(runs, i, hasRounds, rule))
  {
    var bestN := 0;
    if hasRounds {
      bestN := rule.bestN;
      if rule.mode == SumAll {
        bestN := |runs|;
      }
    }
    marks, counted := [], [];
    var inBest := 0;
    for k := 0 to |runs|
      invariant |marks| == k && counted == CountedScores(runs[..k]) && |counted| <= k
      invariant hasRounds ==> inBest == |TopN(bestN, counted)|
      invariant MarkedSum(runs[..k], marks) == if hasRounds then Sum(TopN(bestN, counted)) else Sum(counted)
      invariant forall i :: 0 <= i < k ==> (marks[i] <==> MarksGame(runs, i, hasRounds, rule))
    {
      var x := runs[k];
      assert runs[..k + 1][..k] == runs[..k];
      ghost var counted0, marks0 := counted, marks;
      TopNGrows(bestN, counted, x.score);
      SumAppend(TopN(bestN, counted), x.score);
      SumAppend(counted, x.score);
      var mark := false;
      if x.counted {
        counted := counted + [x.score];
        if !hasRounds || inBest < bestN {
          mark := true;
          inBest := inBest + 1;
        }
      }
      marks := marks + [mark];
      assert marks[..k] == marks0;
    }
    assert runs[..|runs|] == runs;
    if hasRounds && Descending(Scores(runs)) {
      CountedDescend(runs);
      SortedPrefixIsBest(bestN, counted);
      BestOfAll(|counted|, multiset(counted));
      if rule.mode == SumAll {
        BestOfAll(bestN, multiset(counted));
      }
    }
  }

  /** The list query stops after a fixed number of rows. The score of the rows that came back is
      the score of the whole round exactly when N counted games came back, or the counted games
      that were cut off are all worth nothing. */
  lemma TruncationExact(n: int, back: seq<int>, cutOff: seq<int>)
    requires n >= 1 && Descending(back + cutOff) && NonNegative(multiset(back + cutOff))
    ensures Best(n, multiset(back)) == Best(n, multiset(back + cutOff)) <==>
      |back| >= n || forall x :: x in cutOff ==> x == 0
  {
    PartsDescend(back, cutOff);
    BestOfParts(n, back, cutOff);
    if |back| < n {
      TopIsZero(n - |back|, cutOff);
    }
  }

  lemma BestOfParts(n: int, back: seq<int>, cutOff: seq<int>)
    requires n >= 1 && Descending(back) && Descending(back + cutOff)
    ensures |back| >= n ==> Best(n, multiset(back + cutOff)) == Best(n, multiset(back))
    ensures |back| < n ==> Best(n, multiset(back + cutOff)) == Best(n, multiset(back)) + Sum(TopN(n - |back|, cutOff))
  {
    SortedPrefixIsBest(n, back);
    SortedPrefixIsBest(n, back + cutOff);
    if |back| >= n {
      assert TopN(n, back + cutOff) == TopN(n, back);
    } else {
      TopOfParts(n, back, cutOff);
    }
  }

  /** Short of n games, the rest of the top comes from the rows cut off. */
  lemma TopOfParts(n: int, back: seq<int>, cutOff: seq<int>)
    requires |back| < n
    ensures Sum(TopN(n, back + cutOff)) == Sum(TopN(n, back)) + Sum(TopN(n - |back|, cutOff))
  {
    var more := TopN(n - |back|, cutOff);
    assert TopN(n, back + cutOff) == back + more && TopN(n, back) == back;
    SumOfTwo(back, more);
  }

  lemma TopIsZero(n: int, s: seq<int>)
    requires n >= 1 && forall i :: 0 <= i < |s| ==> s[0] >= s[i] >= 0
    ensures Sum(TopN(n, s)) == 0 <==> forall x :: x in s ==> x == 0
  {
    var top := TopN(n, s);
    forall x | x in top
      ensures x >= 0
    {
      var i :| 0 <= i < |top| && top[i] == x;
      assert s[i] == x;
    }
    ZeroSum(top);
    FirstDecides(s, top);
  }

  lemma PartsDescend(back: seq<int>, cutOff: seq<int>)
    requires Descending(back + cutOff) && NonNegative(multiset(back + cutOff))
    ensures Descending(back)
    ensures forall i :: 0 <= i < |cutOff| ==> cutOff[0] >= cutOff[i] >= 0
  {
    var all := back + cutOff;
    assert forall i :: 0 <= i < |back| ==> all[i] == back[i];
    forall i | 0 <= i < |cutOff|
      ensures cutOff[0] >= cutOff[i] >= 0
    {
      assert all[|back|] == cutOff[0] && all[|back| + i] == cutOff[i];
      assert all[|back| + i] in multiset(all);
    }
  }

  lemma FirstDecides(s: seq<int>, top: seq<int>)
    requires forall i :: 0 <= i < |s| ==> s[0] >= s[i] >= 0
    requires top <= s && (s != [] ==> top != [])
    ensures (forall x :: x in s ==> x == 0) <==> forall x :: x in top ==> x == 0
  {
    if s != [] {
      assert top[0] == s[0] && top[0] in top && s[0] in s;
      forall x | x in s
        ensures s[0] >= x >= 0
      {
        var i :| 0 <= i < |s| && s[i] == x;
      }
      forall x | x in top
        ensures x in s
      {
        var i :| 0 <= i < |top| && top[i] == x;
        assert s[i] == x;
      }
    }
  }

  lemma {:induction false} SumOfTwo(s: seq<int>, t: seq<int>)
    ensures Sum(s + t) == Sum(s) + Sum(t)
  {
    if s == [] {
      assert s + t == t;
    } else {
      assert (s + t)[1..] == s[1..] + t;
      SumOfTwo(s[1..], t);
    }
  }

  lemma {:induction false} ZeroSum(s: seq<int>)
    requires forall x :: x in s ==> x >= 0
    ensures Sum(s) >= 0
    ensures Sum(s) == 0 <==> forall x :: x in s ==> x == 0
  {
    if s != [] {
      assert s == [s[0]] + s[1..] && s[0] in s;
      assert forall x :: x in s <==> x == s[0] || x in s[1..];
      ZeroSum(s[1..]);
    }
  }

  // ----- scores by level -----

  /** The values of a map at some keys, repeats kept. */
  ghost function BagOn<L>(m: map<L, int>, ks: set<L>): multiset<int>
    requires ks <= m.Keys
  {
    if ks == {} then multiset{}
    else
      var k :| k in ks;
      BagOn(m, ks - {k}) + multiset{m[k]}
  }

  ghost function BagOf<L>(m: map<L, int>): multiset<int> {
    BagOn(m, m.Keys)
  }

  lemma {:induction false} BagOnPick<L>(m: map<L, int>, ks: set<L>, k: L)
    requires ks <= m.Keys && k in ks
    ensures BagOn(m, ks) == BagOn(m, ks - {k}) + multiset{m[k]}
  {
    var j :| j in ks && BagOn(m, ks) == BagOn(m, ks - {j}) + multiset{m[j]};
    if j != k {
      BagOnPick(m, ks - {j}, k);
      BagOnPick(m, ks - {k}, j);
      assert ks - {j} - {k} == ks - {k} - {j};
    }
  }

  lemma {:induction false} BagOnMember<L>(m: map<L, int>, ks: set<L>, x: int) returns (k: L)
    requires ks <= m.Keys && x in BagOn(m, ks)
    ensures k in ks && m[k] == x
  {
    var j :| j in ks && BagOn(m, ks) == BagOn(m, ks - {j}) + multiset{m[j]};
    if m[j] == x {
      k := j;
    } else {
      k := BagOnMember(m, ks - {j}, x);
    }
  }

  lemma {:induction false} BagOnSame<L>(m: map<L, int>, m': map<L, int>, ks: set<L>)
    requires ks <= m.Keys && ks <= m'.Keys && forall k :: k in ks ==> m[k] == m'[k]
    ensures BagOn(m, ks) == BagOn(m', ks)
  {
    if ks != {} {
      var k :| k in ks;
      BagOnPick(m, ks, k);
      BagOnPick(m', ks, k);
      BagOnSame(m, m', ks - {k});
    }
  }

  lemma BagOnNonNegative<L>(m: map<L, int>, ks: set<L>)
    requires ks <= m.Keys && forall k :: k in ks ==> m[k] >= 0
    ensures NonNegative(BagOn(m, ks))
  {
    forall x | x in BagOn(m, ks)
      ensures x >= 0
    {
      var k := BagOnMember(m, ks, x);
    }
  }

  ghost predicate AtMostTwiceBase<L>(games: map<L, int>, bases: map<L, int>) {
    && games.Keys <= bases.Keys
    && (forall l :: l in bases ==> bases[l] >= 0)
    && (forall l :: l in games ==> 0 <= games[l] <= 2 * bases[l])
  }

  lemma BestWithoutTop<L>(n: int, games: map<L, int>, gs: set<L>, l: L)
    requires n > 0 && gs <= games.Keys && l in gs && BagOn(games, gs) != multiset{} && games[l] == MaxOf(BagOn(games, gs))
    ensures Best(n, BagOn(games, gs)) == games[l] + Best(n - 1, BagOn(games, gs - {l}))
  {
    BagOnPick(games, gs, l);
    assert BagOn(games, gs) - multiset{games[l]} == BagOn(games, gs - {l});
  }

  lemma BestWithout<L>(n: int, bases: map<L, int>, bs: set<L>, l: L)
    requires n > 0 && bs <= bases.Keys && l in bs && NonNegative(BagOn(bases, bs))
    ensures bases[l] + Best(n - 1, BagOn(bases, bs - {l})) <= Best(n, BagOn(bases, bs))
  {
    BagOnPick(bases, bs, l);
    assert bases[l] in BagOn(bases, bs);
    assert BagOn(bases, bs) - multiset{bases[l]} == BagOn(bases, bs - {l});
    TakeOne(n, BagOn(bases, bs), bases[l]);
  }

  lemma NoGameFits<L>(n: int, games: map<L, int>, gs: set<L>, bases: map<L, int>, bs: set<L>)
    requires AtMostTwiceBase(games, bases) && gs <= games.Keys && bs <= bases.Keys
    requires n <= 0 || BagOn(games, gs) == multiset{}
    ensures Best(n, BagOn(games, gs)) <= 2 * Best(n, BagOn(bases, bs))
  {
    BagOnNonNegative(bases, bs);
    BestNonNegative(n, BagOn(bases, bs));
  }

  lemma BestGame<L>(games: map<L, int>, gs: set<L>) returns (l: L)
    requires gs <= games.Keys && BagOn(games, gs) != multiset{}
    ensures l in gs && games[l] == MaxOf(BagOn(games, gs))
  {
    l := BagOnMember(games, gs, MaxOf(BagOn(games, gs)));
  }

  /** With the best game and its level put aside, the rest decides. */
  lemma OneGameFits<L>(n: int, games: map<L, int>, gs: set<L>, bases: map<L, int>, bs: set<L>, l: L)
    requires AtMostTwiceBase(games, bases) && gs <= games.Keys && bs <= bases.Keys && l in gs && l in bs
    requires n > 0 && games[l] == MaxOf(BagOn(games, gs)) && BagOn(games, gs) != multiset{}
    requires Best(n - 1, BagOn(games, gs - {l})) <= 2 * Best(n - 1, BagOn(bases, bs - {l}))
    ensures Best(n, BagOn(games, gs)) <= 2 * Best(n, BagOn(bases, bs))
  {
    BagOnNonNegative(bases, bs);
    BestWithoutTop(n, games, gs, l);
    BestWithout(n, bases, bs, l);
  }

  /** Games on distinct eligible levels, each worth at most twice its level's base, never sum to
      more than twice the N largest eligible bases. */
  lemma {:induction false} PossibleRoundFits<L>(n: int, games: map<L, int>, gs: set<L>, bases: map<L, int>, bs: set<L>)
    requires AtMostTwiceBase(games, bases) && gs <= games.Keys && gs <= bs <= bases.Keys
    ensures Best(n, BagOn(games, gs)) <= 2 * Best(n, BagOn(bases, bs))
  {
    if n <= 0 || BagOn(games, gs) == multiset{} {
      NoGameFits(n, games, gs, bases, bs);
    } else {
      var l := BestGame(games, gs);
      PossibleRoundFits(n - 1, games, gs - {l}, bases, bs - {l});
      OneGameFits(n, games, gs, bases, bs, l);
    }
  }

  // ----- the ceiling -----

  /** `checkCeiling`: the candidate round score against twice the N largest bases. */
  method WithinCeiling(topScores: seq<int>, newScore: int, bases: seq<int>, rule: ScoreRule) returns (ok: bool)
    ensures ok <==> RoundScoreOf(rule, multiset(topScores) + multiset{newScore}) <= 2 * Best(rule.bestN, multiset(bases))
  {
    var candidate := RoundScore(topScores + [newScore], rule);
    var sorted := SortDescending(bases);
    var n := rule.bestN;
    if n > |sorted| {
      n := |sorted|;
    }
    var ceiling, i := 0, 0;
    while i < n
      invariant 0 <= i <= |sorted| && (n >= 0 ==> i <= n) && (n < 0 ==> i == 0)
      invariant ceiling == 2 * Sum(sorted[..i])
    {
      assert sorted[..i + 1] == sorted[..i] + [sorted[i]];
      SumAppend(sorted[..i], sorted[i]);
      ceiling := ceiling + 2 * sorted[i];
      i := i + 1;
    }
    assert sorted[..i] == TopN(rule.bestN, sorted);
    SortedPrefixIsBest(rule.bestN, sorted);
    ok := candidate <= ceiling;
  }

  /** The ceiling never rejects a possible round, although it reads only the top N stored scores:
      `stored` are the counted games so far by level, the new game is on another eligible level. */
  lemma CeilingNeverRejects<L>(rule: ScoreRule, stored: map<L, int>, level: L, newScore: int,
                               bases: map<L, int>, rows: seq<int>)
    requires rule.mode == BestN && rule.bestN >= 1
    requires level !in stored && AtMostTwiceBase(stored[level := newScore], bases)
    requires Descending(rows) && multiset(rows) == BagOf(stored)
    ensures RoundScoreOf(rule, multiset(TopN(rule.bestN, rows)) + multiset{newScore}) <= 2 * Best(rule.bestN, BagOf(bases))
  {
    assert forall l :: l in stored ==> stored[l] == stored[level := newScore][l];
    var games := stored[level := newScore];
    PossibleRoundFits(rule.bestN, games, games.Keys, bases, bases.Keys);
    BagOfOneMore(stored, level, newScore);
    BagOnNonNegative(stored, stored.Keys);
    assert level in games && games[level] == newScore;
    TopRowsSuffice(rule.bestN, rows, newScore);
  }

  lemma BagOfOneMore<L>(m: map<L, int>, k: L, x: int)
    requires k !in m
    ensures BagOf(m[k := x]) == BagOf(m) + multiset{x}
  {
    var big := m[k := x];
    BagOnPick(big, big.Keys, k);
    assert big.Keys - {k} == m.Keys;
    BagOnSame(big, m, m.Keys);
  }

  // ----- the same level twice in one round -----

  /** What the levels of some games are worth, repeats kept. */
  function WorthOf<L>(levels: seq<L>, worth: map<L, int>): seq<int>
    requires forall l :: l in levels ==> l in worth
  {
    seq(|levels|, i requires 0 <= i < |levels| => worth[levels[i]])
  }

  function LevelsOf<L>(levels: seq<L>): set<L> {
    set l | l in levels
  }

  /** Scores a player can reach on these levels: at most twice the base of each. */
  ghost predicate Honest(worths: seq<int>, scores: seq<int>) {
    |scores| == |worths| && forall i :: 0 <= i < |worths| ==> 0 <= scores[i] <= 2 * worths[i]
  }

  function Twice(s: seq<int>): seq<int> {
    seq(|s|, i requires 0 <= i < |s| => 2 * s[i])
  }

  lemma OneLarger(n: int, bag: multiset<int>, x: int, y: int)
    requires NonNegative(bag) && 0 <= x <= y
    ensures Best(n, bag + multiset{x}) <= Best(n, bag + multiset{y})
  {
    if n >= 1 {
      NewGameAdds(n, bag, x);
      NewGameAdds(n, bag, y);
    }
  }

  lemma MixedSplit(s: seq<int>, t: seq<int>, k: nat)
    requires |s| == |t| && k < |s|
    ensures var others := multiset(t[..k]) + multiset(s[k + 1..]);
      multiset(t[..k] + s[k..]) == others + multiset{s[k]} && multiset(t[..k + 1] + s[k + 1..]) == others + multiset{t[k]}
  {
    assert s[k..] == [s[k]] + s[k + 1..] && t[..k + 1] == t[..k] + [t[k]];
  }

  lemma OthersNonNegative(s: seq<int>, t: seq<int>)
    requires (forall x :: x in s ==> x >= 0) && forall x :: x in t ==> x >= 0
    ensures NonNegative(multiset(s) + multiset(t))
  {
    forall x | x in multiset(s) + multiset(t)
      ensures x >= 0
    {
      assert x in multiset(s) || x in multiset(t);
      assert x in s || x in t;
    }
  }

  lemma OneRaised(n: int, s: seq<int>, t: seq<int>, k: nat)
    requires |s| == |t| && k < |s| && forall i :: 0 <= i < |s| ==> 0 <= s[i] <= t[i]
    ensures Best(n, multiset(t[..k] + s[k..])) <= Best(n, multiset(t[..k + 1] + s[k + 1..]))
  {
    MixedSplit(s, t, k);
    OthersNonNegative(t[..k], s[k + 1..]);
    OneLarger(n, multiset(t[..k]) + multiset(s[k + 1..]), s[k], t[k]);
  }

  /** Raising the scores one after the other. */
  lemma {:induction false} LargerScores(n: int, s: seq<int>, t: seq<int>, k: nat)
    requires |s| == |t| && k <= |s| && forall i :: 0 <= i < |s| ==> 0 <= s[i] <= t[i]
    ensures Best(n, multiset(t[..k] + s[k..])) <= Best(n, multiset(t))
    decreases |s| - k
  {
    if k == |s| {
      assert t[..k] + s[k..] == t;
    } else {
      OneRaised(n, s, t, k);
      LargerScores(n, s, t, k + 1);
    }
  }

  lemma Without(s: seq<int>, i: nat)
    requires i < |s|
    ensures multiset(s) == multiset(s[..i] + s[i + 1..]) + multiset{s[i]}
  {
    assert s == s[..i] + [s[i]] + s[i + 1..];
  }

  lemma TwiceWithout(s: seq<int>, i: nat)
    requires i < |s|
    ensures var rest := s[..i] + s[i + 1..];
      && multiset(s) == multiset(rest) + multiset{s[i]}
      && multiset(Twice(s)) == multiset(Twice(rest)) + multiset{2 * s[i]}
  {
    assert Twice(s[..i] + s[i + 1..]) == Twice(s)[..i] + Twice(s)[i + 1..];
    Without(s, i);
    Without(Twice(s), i);
  }

  lemma LargestAt(s: seq<int>) returns (i: nat)
    requires s != []
    ensures i < |s| && s[i] in multiset(s) && s[i] == MaxOf(multiset(s))
  {
    assert s[0] in multiset(s);
    i :| 0 <= i < |s| && s[i] == MaxOf(multiset(s));
  }

  lemma TwiceTheLargest(n: int, s: seq<int>, i: nat)
    requires n >= 1 && i < |s| && s[i] in multiset(s) && s[i] == MaxOf(multiset(s))
    ensures var rest := s[..i] + s[i + 1..];
      && Best(n, multiset(s)) == s[i] + Best(n - 1, multiset(rest))
      && Best(n, multiset(Twice(s))) == 2 * s[i] + Best(n - 1, multiset(Twice(rest)))
  {
    var rest := s[..i] + s[i + 1..];
    TwiceWithout(s, i);
    TwiceTheMax(s, s[i]);
    TakeMax(n, multiset(s), s[i], multiset(rest));
    TakeMax(n, multiset(Twice(s)), 2 * s[i], multiset(Twice(rest)));
  }

  lemma {:induction false} BestOfTwice(n: int, s: seq<int>)
    ensures Best(n, multiset(Twice(s))) == 2 * Best(n, multiset(s))
    decreases |s|
  {
    if s != [] && n >= 1 {
      var i := LargestAt(s);
      TwiceTheLargest(n, s, i);
      BestOfTwice(n - 1, s[..i] + s[i + 1..]);
    }
  }

  lemma TwiceTheMax(s: seq<int>, m: int)
    requires s != [] && m in multiset(s) && m == MaxOf(multiset(s))
    ensures Twice(s)[0] in multiset(Twice(s)) && MaxOf(multiset(Twice(s))) == 2 * m
  {
    var d := Twice(s);
    assert d[0] in d;
    var i :| 0 <= i < |s| && s[i] == m;
    assert d[i] in multiset(d) && d[i] == 2 * m;
    var x := MaxOf(multiset(d));
    var j :| 0 <= j < |d| && d[j] == x;
    assert s[j] in multiset(s) && s[j] <= m;
  }

  /** Some honest scores on these levels are rejected. */
  ghost predicate CanBeRejected(n: int, worths: seq<int>, bases: multiset<int>) {
    exists scores :: Honest(worths, scores) && Best(n, multiset(scores)) > 2 * Best(n, bases)
  }

  /** Whatever levels the games were on, the same one twice included: an honest round can exceed the
      ceiling exactly when the N best worths of its games, counted per game, exceed the N largest
      bases, counted per level. */
  lemma HonestRoundRejectedIff<L>(n: int, levels: seq<L>, worth: map<L, int>, eligible: set<L>)
    requires (forall l :: l in levels ==> l in worth) && eligible <= worth.Keys && forall l :: l in worth ==> worth[l] >= 0
    ensures CanBeRejected(n, WorthOf(levels, worth), BagOn(worth, eligible)) <==>
      Best(n, multiset(WorthOf(levels, worth))) > Best(n, BagOn(worth, eligible))
  {
    var worths, bases := WorthOf(levels, worth), BagOn(worth, eligible);
    BestOfTwice(n, worths);
    if Best(n, multiset(worths)) > Best(n, bases) {
      assert Honest(worths, Twice(worths));
    }
    forall scores | Honest(worths, scores)
      ensures Best(n, multiset(scores)) <= 2 * Best(n, multiset(worths))
    {
      HonestIsAtMostTwice(n, worths, scores);
    }
  }

  lemma HonestIsAtMostTwice(n: int, worths: seq<int>, scores: seq<int>)
    requires Honest(worths, scores)
    ensures Best(n, multiset(scores)) <= 2 * Best(n, multiset(worths))
  {
    BestOfTwice(n, worths);
    LargerScores(n, scores, Twice(worths), 0);
    assert Twice(worths)[..0] + scores[0..] == scores;
  }

  /** Repeats are what it takes: games on different eligible levels never exceed it. */
  lemma DistinctNeverRejected<L>(n: int, levels: seq<L>, worth: map<L, int>, eligible: set<L>)
    requires (forall l :: l in levels ==> l in eligible) && eligible <= worth.Keys && forall l :: l in worth ==> worth[l] >= 0
    requires forall i, j :: 0 <= i < j < |levels| ==> levels[i] != levels[j]
    ensures !CanBeRejected(n, WorthOf(levels, worth), BagOn(worth, eligible))
  {
    HonestRoundRejectedIff(n, levels, worth, eligible);
    WorthsAreABag(levels, worth);
    FewerLevels(n, worth, LevelsOf(levels), eligible);
  }

  lemma LastLevel<L>(levels: seq<L>, worth: map<L, int>)
    requires levels != [] && forall l :: l in levels ==> l in worth
    requires forall i, j :: 0 <= i < j < |levels| ==> levels[i] != levels[j]
    ensures var k := |levels| - 1;
      && (forall l :: l in levels[..k] ==> l in worth) && levels[k] in LevelsOf(levels)
      && LevelsOf(levels) - {levels[k]} == LevelsOf(levels[..k])
      && WorthOf(levels, worth) == WorthOf(levels[..k], worth) + [worth[levels[k]]]
  {
    var k := |levels| - 1;
    assert levels == levels[..k] + [levels[k]];
    assert levels[k] !in levels[..k];
  }

  lemma {:induction false} WorthsAreABag<L>(levels: seq<L>, worth: map<L, int>)
    requires (forall l :: l in levels ==> l in worth) && forall i, j :: 0 <= i < j < |levels| ==> levels[i] != levels[j]
    ensures multiset(WorthOf(levels, worth)) == BagOn(worth, LevelsOf(levels))
  {
    if levels != [] {
      var k := |levels| - 1;
      LastLevel(levels, worth);
      WorthsAreABag(levels[..k], worth);
      BagOnPick(worth, LevelsOf(levels), levels[k]);
    }
  }

  lemma {:induction false} FewerLevels<L>(n: int, worth: map<L, int>, some: set<L>, all: set<L>)
    requires some <= all <= worth.Keys && forall l :: l in worth ==> worth[l] >= 0
    ensures Best(n, BagOn(worth, some)) <= Best(n, BagOn(worth, all))
  {
    if some != all {
      var l :| l in all && l !in some;
      FewerLevels(n, worth, some, all - {l});
      BagOnPick(worth, all, l);
      BagOnNonNegative(worth, all - {l});
      OneMoreGame(n, BagOn(worth, all - {l}), worth[l]);
    }
  }

  lemma OneMoreGame(n: int, bag: multiset<int>, x: int)
    requires NonNegative(bag) && x >= 0
    ensures Best(n, bag) <= Best(n, bag + multiset{x})
  {
    if n >= 1 {
      NewGameAdds(n, bag, x);
    }
  }

  /** The eligible levels, the one worth most first. */
  ghost predicate RankedByWorth<L>(ranked: seq<L>, worth: map<L, int>, eligible: set<L>) {
    && LevelsOf(ranked) == eligible && eligible <= worth.Keys && (forall l :: l in worth ==> worth[l] >= 0)
    && (forall l :: l in ranked ==> l in worth) && Descending(WorthOf(ranked, worth))
    && forall i, j :: 0 <= i < j < |ranked| ==> ranked[i] != ranked[j]
  }

  /** The first of n games once more, and the next best after it. */
  function FirstTwice<L>(n: int, ranked: seq<L>): seq<L>
    requires n >= 1 && ranked != []
  {
    [ranked[0]] + if n - 1 >= |ranked| then ranked else ranked[..n - 1]
  }

  lemma FirstTwiceWorth<L>(n: int, ranked: seq<L>, worth: map<L, int>)
    requires n >= 1 && ranked != [] && forall l :: l in ranked ==> l in worth
    ensures forall l :: l in FirstTwice(n, ranked) ==> l in worth
    ensures WorthOf(FirstTwice(n, ranked), worth) == [worth[ranked[0]]] + TopN(n - 1, WorthOf(ranked, worth))
  {
    var some := if n - 1 >= |ranked| then ranked else ranked[..n - 1];
    assert forall l :: l in some ==> l in ranked;
    assert WorthOf(some, worth) == TopN(n - 1, WorthOf(ranked, worth));
  }

  lemma TopAgain(n: int, s: seq<int>)
    requires Descending(s)
    ensures Descending(TopN(n, s)) && Best(n, multiset(TopN(n, s))) == Best(n, multiset(s))
  {
    SortedPrefixIsBest(n, s);
    SortedPrefixIsBest(n, TopN(n, s));
    assert TopN(n, TopN(n, s)) == TopN(n, s);
  }

  lemma FirstOnTop(n: int, x: int, t: seq<int>)
    requires n >= 1 && Descending(t) && (t != [] ==> x >= t[0])
    ensures Best(n, multiset([x] + t)) == x + Best(n - 1, multiset(t))
  {
    var u := [x] + t;
    assert u[1..] == t && Descending(u);
    BestOfSorted(n, u);
  }

  lemma FirstTwiceBest(n: int, s: seq<int>)
    requires n >= 1 && s != [] && Descending(s)
    ensures Best(n, multiset([s[0]] + TopN(n - 1, s))) == Best(n, multiset(s)) - Cut(n, multiset(s)) + s[0]
  {
    TopAgain(n - 1, s);
    FirstOnTop(n, s[0], TopN(n - 1, s));
    DropLast(n, multiset(s));
  }

  /** It does happen, with every level eligible: n games played on the best levels, the top one twice,
      once brought in from last week, can be rejected exactly when the top level is worth more than the
      n-th largest base, which is 0 if there are fewer levels. */
  lemma SameLevelTwice<L>(n: int, ranked: seq<L>, worth: map<L, int>, eligible: set<L>)
    requires n >= 1 && ranked != [] && RankedByWorth(ranked, worth, eligible)
    ensures forall l :: l in FirstTwice(n, ranked) ==> l in worth
    ensures CanBeRejected(n, WorthOf(FirstTwice(n, ranked), worth), BagOn(worth, eligible)) <==>
      worth[ranked[0]] > Cut(n, BagOn(worth, eligible))
  {
    FirstTwiceWorth(n, ranked, worth);
    HonestRoundRejectedIff(n, FirstTwice(n, ranked), worth, eligible);
    WorthsAreABag(ranked, worth);
    FirstTwiceBest(n, WorthOf(ranked, worth));
  }

  // ----- which levels could have been started inside the round -----

  /** The eligibility query; None: the level was never started. */
  datatype LastStart = Never | At(time: int)

  predicate Eligible(last: LastStart, roundStart: int, roundEnd: int, cooldown: int) {
    || last.Never?
    || last.time + cooldown < roundEnd
    || last.time >= roundStart
  }

  function CooldownRemaining(lastStartedAt: int, now: int, cooldown: int): int {
    if lastStartedAt <= 0 then 0
    else
      var r := cooldown - (now - lastStartedAt);
      if r < 0 then 0 else if r > cooldown then cooldown else r
  }

  /** A level never started is free. Over once the cooldown has passed since the start, and until then exactly the time to wait; a
      start in the future of the clock waits the whole cooldown. */
  lemma CooldownMeans(lastStartedAt: int, now: int, cooldown: int)
    requires cooldown >= 0
    ensures var left := CooldownRemaining(lastStartedAt, now, cooldown);
      && 0 <= left <= cooldown
      && (left == 0 <==> lastStartedAt <= 0 || cooldown == 0 || now >= lastStartedAt + cooldown)
      && (left > 0 && now >= lastStartedAt ==> now + left == lastStartedAt + cooldown)
      && (lastStartedAt > 0 && now <= lastStartedAt ==> left == cooldown)
  {
  }

  predicate MayStart(last: LastStart, now: int, cooldown: int) {
    last.Never? || CooldownRemaining(last.time, now, cooldown) <= 0
  }

  /** The query asks exactly what its comment says: the level was started inside the round, or
      there is a moment of the round at which the cooldown lets it start. */
  lemma EligibleMeansStartable(last: LastStart, roundStart: int, roundEnd: int, cooldown: int)
    requires roundStart < roundEnd && cooldown >= 0
    requires last.At? ==> last.time > 0
    ensures Eligible(last, roundStart, roundEnd, cooldown) <==>
      (last.At? && last.time >= roundStart)
      || exists now :: roundStart <= now < roundEnd && MayStart(last, now, cooldown)
  {
    if last.Never? || last.time + cooldown < roundEnd {
      assert MayStart(last, roundEnd - 1, cooldown);
    }
  }

  /** With a cooldown no longer than the round every level is eligible. */
  lemma ShortCooldownAllowsAll(roundStart: int, roundEnd: int, cooldown: int)
    ensures (forall l :: Eligible(l, roundStart, roundEnd, cooldown)) <==> cooldown <= roundEnd - roundStart
  {
    if cooldown > roundEnd - roundStart {
      assert !Eligible(At(roundStart - 1), roundStart, roundEnd, cooldown);
    }
  }
}
