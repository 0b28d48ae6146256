/** The round score: the sum of the best N games, what a new game adds to it, and why reading only the
    best rows is enough. */
module BestOfRound {

  datatype RoundMode = BestN | SumAll

  /** The two settings of the league config a score depends on. */
  datatype ScoreRule = ScoreRule(mode: RoundMode, bestN: int)

  ghost predicate NonNegative(bag: multiset<int>) {
    forall x :: x in bag ==> x >= 0
  }

  // ----- the reference: take the largest score, n times -----

  lemma EmptyOrNot(bag: multiset<int>)
    ensures bag == multiset{} || exists x :: x in bag
  {
    if forall x :: x !in bag {
      assert bag == multiset{};
    }
  }

  lemma {:induction false} MaxExists(bag: multiset<int>) returns (m: int)
    requires bag != multiset{}
    ensures m in bag && forall x :: x in bag ==> x <= m
    decreases |bag|
  {
    EmptyOrNot(bag);
    var a :| a in bag;
    var rest := bag - multiset{a};
    assert bag == rest + multiset{a};
    if rest == multiset{} {
      m := a;
    } else {
      var b := MaxExists(rest);
      m := if a >= b then a else b;
    }
  }

  ghost function MaxOf(bag: multiset<int>): (m: int)
    requires bag != multiset{}
    ensures m in bag && forall x :: x in bag ==> x <= m
  {
    assert exists m :: m in bag && forall x :: x in bag ==> x <= m by {
      var m := MaxExists(bag);
    }
    var m :| m in bag && forall x :: x in bag ==> x <= m;
    m
  }

  /** The sum of the n largest scores of a bag, or of all when there are fewer. */
  ghost function Best(n: int, bag: multiset<int>): int
    decreases |bag|
  {
    if n <= 0 || bag == multiset{} then 0
    else MaxOf(bag) + Best(n - 1, bag - multiset{MaxOf(bag)})
  }

  /** The n-th largest score once n games are in, else 0. */
  ghost function Cut(n: int, bag: multiset<int>): int
    decreases |bag|
  {
    if n <= 0 || |bag| < n then 0
    else if n == 1 then MaxOf(bag)
    else Cut(n - 1, bag - multiset{MaxOf(bag)})
  }

  lemma MaxOfMore(bag: multiset<int>, x: int)
    ensures MaxOf(bag + multiset{x}) == if bag == multiset{} || x >= MaxOf(bag) then x else MaxOf(bag)
  {
    var big := bag + multiset{x};
    var m := MaxOf(big);
    assert m in bag || m == x;
    assert x in big && (bag != multiset{} ==> MaxOf(bag) in big);
  }

  lemma {:induction false} DropLast(n: int, bag: multiset<int>)
    requires n >= 1
    ensures Best(n, bag) == Best(n - 1, bag) + Cut(n, bag)
    decreases |bag|
  {
    if bag != multiset{} && n > 1 {
      DropLast(n - 1, bag - multiset{MaxOf(bag)});
    }
  }

  lemma {:induction false} CutBelowMax(n: int, bag: multiset<int>)
    requires NonNegative(bag)
    ensures 0 <= Cut(n, bag)
    ensures bag != multiset{} ==> Cut(n, bag) <= MaxOf(bag)
    decreases |bag|
  {
    if n > 1 && |bag| >= n {
      var rest := bag - multiset{MaxOf(bag)};
      CutBelowMax(n - 1, rest);
      assert rest != multiset{} ==> MaxOf(rest) in bag;
    }
  }

  /** One step of the reference: take the largest. */
  lemma TakeMax(n: int, bag: multiset<int>, m: int, rest: multiset<int>)
    requires n >= 1 && bag == rest + multiset{m} && MaxOf(bag) == m
    ensures Best(n, bag) == m + Best(n - 1, rest)
    ensures n > 1 ==> Cut(n, bag) == Cut(n - 1, rest)
  {
    assert bag - multiset{m} == rest;
  }

  /** What the score gains. */
  function Gain(x: int, cut: int): int {
    if x > cut then x - cut else 0
  }

  lemma NewBestGame(n: int, bag: multiset<int>, x: int)
    requires n >= 1 && NonNegative(bag) && x >= 0 && (bag == multiset{} || x >= MaxOf(bag))
    ensures Best(n, bag + multiset{x}) == Best(n, bag) + Gain(x, Cut(n, bag))
  {
    MaxOfMore(bag, x);
    TakeMax(n, bag + multiset{x}, x, bag);
    DropLast(n, bag);
    CutBelowMax(n, bag);
  }

  /** A game below the largest changes what is taken after it. */
  lemma NewLesserGame(n: int, bag: multiset<int>, x: int, m: int, rest: multiset<int>)
    requires n >= 1 && bag == rest + multiset{m} && m == MaxOf(bag) && 0 <= x < m
    requires n > 1 ==> Best(n - 1, rest + multiset{x}) == Best(n - 1, rest) + Gain(x, Cut(n - 1, rest))
    ensures Best(n, bag + multiset{x}) == Best(n, bag) + Gain(x, Cut(n, bag))
  {
    MaxOfMore(bag, x);
    TakeMax(n, bag, m, rest);
    assert bag + multiset{x} == rest + multiset{x} + multiset{m};
    TakeMax(n, bag + multiset{x}, m, rest + multiset{x});
  }

  lemma WithoutMax(bag: multiset<int>, m: int)
    requires NonNegative(bag) && bag != multiset{} && m == MaxOf(bag)
    ensures var rest := bag - multiset{m};
      bag == rest + multiset{m} && NonNegative(rest) && |rest| < |bag|
  {
  }

  /** A new game adds exactly what it scores above the cut. */
  lemma {:induction false} NewGameAdds(n: int, bag: multiset<int>, x: int)
    requires n >= 1 && NonNegative(bag) && x >= 0
    ensures Best(n, bag + multiset{x}) == Best(n, bag) + Gain(x, Cut(n, bag))
    decreases |bag|
  {
    if bag == multiset{} || x >= MaxOf(bag) {
      NewBestGame(n, bag, x);
    } else {
      var m := MaxOf(bag);
      WithoutMax(bag, m);
      if n > 1 {
        NewGameAdds(n - 1, bag - multiset{m}, x);
      }
      NewLesserGame(n, bag, x, m, bag - multiset{m});
    }
  }

  lemma TakeOne(n: int, bag: multiset<int>, x: int)
    requires n >= 1 && NonNegative(bag) && x in bag
    ensures x + Best(n - 1, bag - multiset{x}) <= Best(n, bag)
  {
    var rest := bag - multiset{x};
    assert bag == rest + multiset{x};
    NewGameAdds(n, rest, x);
    DropLast(n, rest);
  }

  // ----- the round score is a maximum -----

  ghost function BagSum(bag: multiset<int>): int
    decreases |bag|
  {
    if bag == multiset{} then 0
    else
      var x := MaxOf(bag);
      x + BagSum(bag - multiset{x})
  }

  lemma {:induction false} BestOfAll(n: int, bag: multiset<int>)
    requires |bag| <= n
    ensures Best(n, bag) == BagSum(bag)
    decreases |bag|
  {
    if bag != multiset{} {
      BestOfAll(n - 1, bag - multiset{MaxOf(bag)});
    }
  }

  lemma {:induction false} BagSumGrows(bag: multiset<int>, x: int)
    ensures BagSum(bag + multiset{x}) == BagSum(bag) + x
    decreases |bag|
  {
    var big := bag + multiset{x};
    MaxOfMore(bag, x);
    if bag != multiset{} && x < MaxOf(bag) {
      var m := MaxOf(bag);
      assert big - multiset{m} == (bag - multiset{m}) + multiset{x};
      BagSumGrows(bag - multiset{m}, x);
    } else {
      assert big - multiset{x} == bag;
    }
  }

  /** No choice of at most n games sums to more. */
  lemma {:induction false} BestIsUpperBound(n: int, bag: multiset<int>, sub: multiset<int>)
    requires NonNegative(bag) && sub <= bag && |sub| <= n
    ensures BagSum(sub) <= Best(n, bag)
    decreases |sub|
  {
    if sub == multiset{} {
      BestNonNegative(n, bag);
    } else {
      var x := MaxOf(sub);
      assert x in bag;
      assert sub - multiset{x} <= bag - multiset{x};
      BestIsUpperBound(n - 1, bag - multiset{x}, sub - multiset{x});
      TakeOne(n, bag, x);
    }
  }

  lemma {:induction false} BestNonNegative(n: int, bag: multiset<int>)
    requires NonNegative(bag)
    ensures Best(n, bag) >= 0
    decreases |bag|
  {
    if n > 0 && bag != multiset{} {
      BestNonNegative(n - 1, bag - multiset{MaxOf(bag)});
    }
  }

  /** With the largest game on top of a choice from the others. */
  lemma OneMoreChosen(n: int, bag: multiset<int>, rest: multiset<int>)
    requires n >= 1 && bag != multiset{} && MaxOf(bag) in bag
    requires rest <= bag - multiset{MaxOf(bag)} && |rest| <= n - 1 && BagSum(rest) == Best(n - 1, bag - multiset{MaxOf(bag)})
    ensures var sub := rest + multiset{MaxOf(bag)};
      sub <= bag && |sub| <= n && BagSum(sub) == Best(n, bag)
  {
    BagSumGrows(rest, MaxOf(bag));
  }

  /** And some choice of at most n games reaches it. */
  lemma {:induction false} BestIsReached(n: int, bag: multiset<int>) returns (sub: multiset<int>)
    requires n >= 0
    ensures sub <= bag && |sub| <= n && BagSum(sub) == Best(n, bag)
    decreases |bag|
  {
    if n == 0 || bag == multiset{} {
      sub := multiset{};
    } else {
      var rest := BestIsReached(n - 1, bag - multiset{MaxOf(bag)});
      OneMoreChosen(n, bag, rest);
      sub := rest + multiset{MaxOf(bag)};
    }
  }

  // ----- sorted lists -----

  ghost predicate Descending(s: seq<int>) {
    forall i, j :: 0 <= i < j < |s| ==> s[i] >= s[j]
  }

  function Sum(s: seq<int>): int {
    if s == [] then 0 else s[0] + Sum(s[1..])
  }

  lemma {:induction false} SumAppend(s: seq<int>, x: int)
    ensures Sum(s + [x]) == Sum(s) + x
  {
    if s != [] {
      assert (s + [x])[1..] == s[1..] + [x];
      SumAppend(s[1..], x);
    }
  }

  function TopN(n: int, s: seq<int>): seq<int> {
    if n <= 0 then [] else if n >= |s| then s else s[..n]
  }

  lemma BestOfSorted(n: int, s: seq<int>)
    requires Descending(s) && n >= 1 && s != []
    ensures Best(n, multiset(s)) == s[0] + Best(n - 1, multiset(s[1..]))
  {
    FirstIsMax(s);
    TakeMax(n, multiset(s), s[0], multiset(s[1..]));
  }

  lemma NothingToSum(n: int, s: seq<int>)
    requires n <= 0 || s == []
    ensures Sum(TopN(n, s)) == Best(n, multiset(s))
  {
    assert TopN(n, s) == [];
    assert s == [] ==> multiset(s) == multiset{};
  }

  lemma OneSortedMore(n: int, s: seq<int>)
    requires Descending(s) && n >= 1 && s != []
    requires Sum(TopN(n - 1, s[1..])) == Best(n - 1, multiset(s[1..]))
    ensures Sum(TopN(n, s)) == Best(n, multiset(s))
  {
    BestOfSorted(n, s);
    SumTop(n, s);
  }

  lemma SumTop(n: int, s: seq<int>)
    requires n > 0 && s != []
    ensures Sum(TopN(n, s)) == s[0] + Sum(TopN(n - 1, s[1..]))
  {
    var t := TopN(n, s);
    assert t[0] == s[0] && t[1..] == TopN(n - 1, s[1..]);
  }

  /** On a list sorted best first the n largest are the first n. */
  lemma {:induction false} SortedPrefixIsBest(n: int, s: seq<int>)
    requires Descending(s)
    ensures Sum(TopN(n, s)) == Best(n, multiset(s))
  {
    if n <= 0 || s == [] {
      NothingToSum(n, s);
    } else {
      SortedPrefixIsBest(n - 1, s[1..]);
      OneSortedMore(n, s);
    }
  }

  lemma FirstIsMax(s: seq<int>)
    requires Descending(s) && s != []
    ensures multiset(s) == multiset(s[1..]) + multiset{s[0]} && MaxOf(multiset(s)) == s[0]
  {
    assert s == [s[0]] + s[1..];
    assert s[0] in multiset(s);
    var m := MaxOf(multiset(s));
    assert m in s;
  }

  lemma OneMoreOnTop(n: int, s: seq<int>)
    requires 1 <= n <= |s|
    ensures Sum(TopN(n, s)) == Sum(TopN(n - 1, s)) + s[n - 1]
  {
    assert TopN(n, s) == TopN(n - 1, s) + [s[n - 1]];
    SumAppend(TopN(n - 1, s), s[n - 1]);
  }

  lemma SortedCut(n: int, s: seq<int>)
    requires Descending(s) && 1 <= n <= |s|
    ensures Cut(n, multiset(s)) == s[n - 1]
  {
    SortedPrefixIsBest(n, s);
    SortedPrefixIsBest(n - 1, s);
    DropLast(n, multiset(s));
    OneMoreOnTop(n, s);
  }

  /** Reading only the first n rows from the database loses nothing, not even for the next game. */
  lemma TopRowsSuffice(n: int, s: seq<int>, x: int)
    requires Descending(s) && n >= 1 && x >= 0 && NonNegative(multiset(s))
    ensures Best(n, multiset(TopN(n, s))) == Best(n, multiset(s))
    ensures Best(n, multiset(TopN(n, s)) + multiset{x}) == Best(n, multiset(s) + multiset{x})
  {
    var t := TopN(n, s);
    SortedPrefixIsBest(n, s);
    SortedPrefixIsBest(n, t);
    assert TopN(n, t) == t;
    forall y | y in multiset(t)
      ensures y >= 0
    {
      assert y in t && y in s;
      assert y in multiset(s);
    }
    if |s| >= n {
      SortedCut(n, s);
      SortedCut(n, t);
    }
    NewGameAdds(n, multiset(s), x);
    NewGameAdds(n, multiset(t), x);
  }

  /** What both runtimes call the round score. */
  ghost function RoundScoreOf(rule: ScoreRule, bag: multiset<int>): int {
    if rule.mode == SumAll then BagSum(bag) else Best(rule.bestN, bag)
  }

  /** No game takes anything away from the score of a round. */
  lemma OneMoreNeverHurts(rule: ScoreRule, s: seq<int>, x: int)
    requires NonNegative(multiset(s)) && x >= 0
    ensures RoundScoreOf(rule, multiset(s)) <= RoundScoreOf(rule, multiset(s + [x]))
  {
    BagSumGrows(multiset(s), x);
    if rule.bestN >= 1 {
      NewGameAdds(rule.bestN, multiset(s), x);
    }
  }

  // ----- the functions of the league config -----

  method SortDescending(s: seq<int>) returns (t: seq<int>)
    ensures Descending(t) && multiset(t) == multiset(s)
  {
    t := [];
    for k := 0 to |s|
      invariant Descending(t) && multiset(t) == multiset(s[..k])
    {
      t := InsertDescending(t, s[k]);
      assert s[..k + 1] == s[..k] + [s[k]];
    }
    assert s[..|s|] == s;
  }

  method InsertDescending(s: seq<int>, x: int) returns (t: seq<int>)
    requires Descending(s)
    ensures Descending(t) && multiset(t) == multiset(s) + multiset{x}
  {
    var i := |s|;
    while i > 0 && s[i - 1] < x
      invariant 0 <= i <= |s|
      invariant forall j :: i <= j < |s| ==> s[j] < x
    {
      i := i - 1;
    }
    t := s[..i] + [x] + s[i..];
    InsertedDescends(s, i, x);
    InsertedBag(s, i, x);
  }

  lemma InsertedBag(s: seq<int>, i: nat, x: int)
    requires i <= |s|
    ensures multiset(s[..i] + [x] + s[i..]) == multiset(s) + multiset{x}
  {
    assert s == s[..i] + s[i..];
  }

  lemma InsertedDescends(s: seq<int>, i: nat, x: int)
    requires Descending(s) && i <= |s|
    requires i > 0 ==> s[i - 1] >= x
    requires forall j :: i <= j < |s| ==> s[j] < x
    ensures Descending(s[..i] + [x] + s[i..])
  {
    var t := s[..i] + [x] + s[i..];
    assert forall j :: 0 <= j < i ==> t[j] == s[j];
    assert forall j :: i < j < |t| ==> t[j] == s[j - 1];
    assert forall j :: 0 <= j < i ==> s[j] >= s[i - 1] || j == i - 1;
  }

  lemma PrefixSum(scores: seq<int>, k: nat)
    requires k < |scores|
    ensures BagSum(multiset(scores[..k + 1])) == BagSum(multiset(scores[..k])) + scores[k]
  {
    assert scores[..k + 1] == scores[..k] + [scores[k]];
    BagSumGrows(multiset(scores[..k]), scores[k]);
  }

  method SumOf(scores: seq<int>) returns (total: int)
    ensures total == BagSum(multiset(scores))
  {
    total := 0;
    for k := 0 to |scores|
      invariant total == BagSum(multiset(scores[..k]))
    {
      PrefixSum(scores, k);
      total := total + scores[k];
    }
    assert scores[..|scores|] == scores;
  }

  method SumOfFirst(sorted: seq<int>, bestN: int) returns (total: int)
    ensures total == Sum(TopN(bestN, sorted))
  {
    total := 0;
    var n := bestN;
    if n > |sorted| {
      n := |sorted|;
    }
    var i := 0;
    while i < n
      invariant 0 <= i <= |sorted| && (n >= 0 ==> i <= n) && (n < 0 ==> i == 0)
      invariant total == Sum(sorted[..i])
    {
      assert sorted[..i + 1] == sorted[..i] + [sorted[i]];
      SumAppend(sorted[..i], sorted[i]);
      total := total + sorted[i];
      i := i + 1;
    }
    assert sorted[..i] == TopN(bestN, sorted);
  }

  method RoundScore(scores: seq<int>, rule: ScoreRule) returns (total: int)
    ensures total == RoundScoreOf(rule, multiset(scores))
  {
    if rule.mode == SumAll {
      total := SumOf(scores);
    } else {
      var sorted := SortDescending(scores);
      total := SumOfFirst(sorted, rule.bestN);
      SortedPrefixIsBest(rule.bestN, sorted);
    }
  }

  method CutScore(scores: seq<int>, rule: ScoreRule) returns (cut: int)
    ensures cut == if rule.mode == SumAll then 0 else Cut(rule.bestN, multiset(scores))
  {
    if rule.mode == SumAll {
      return 0;
    }
    var n := rule.bestN;
    if n <= 0 || |scores| < n {
      return 0;
    }
    var sorted := SortDescending(scores);
    assert |sorted| == |multiset(sorted)| == |multiset(scores)|;
    SortedCut(n, sorted);
    return sorted[n - 1];
  }
}
