/** Separation of relevant from irrelevant scores: AUROC by pairwise comparison, and average precision. */
module BinaryRanking {
  import opened Support
  import opened Rounding
  import opened RankingMetrics

  datatype Pair = Pair(score: real, relevant: bool)

  function Scores(pairs: seq<Pair>, relevant: bool): seq<real> {
    if pairs == [] then []
    else (if pairs[0].relevant == relevant then [pairs[0].score] else []) + Scores(pairs[1..], relevant)
  }

  function Duel(positive: real, negative: real): real {
    if positive > negative then 1.0 else if positive == negative then 0.5 else 0.0
  }

  function WinsOfOne(positive: real, negatives: seq<real>): real {
    if negatives == [] then 0.0 else Duel(positive, negatives[0]) + WinsOfOne(positive, negatives[1..])
  }

  function Wins(positives: seq<real>, negatives: seq<real>): real {
    if positives == [] then 0.0 else WinsOfOne(positives[0], negatives) + Wins(positives[1..], negatives)
  }

  /** The share of the p * n comparisons that were won. */
  function WinRate(wins: real, p: nat, n: nat): real
    requires p > 0 && n > 0
  {
    assert p * n > 0;
    wins / (p * n) as real
  }

  function Auroc(pairs: seq<Pair>): real {
    var p, n := Scores(pairs, true), Scores(pairs, false);
    if p == [] || n == [] then 0.0 else WinRate(Wins(p, n), |p|, |n|)
  }

  /** Every relevant score is strictly above every irrelevant one. */
  predicate Separated(positives: seq<real>, negatives: seq<real>) {
    forall i, j :: 0 <= i < |positives| && 0 <= j < |negatives| ==> positives[i] > negatives[j]
  }

  lemma {:induction false} WinsOfOneBounds(positive: real, negatives: seq<real>)
    ensures 0.0 <= WinsOfOne(positive, negatives) <= |negatives| as real
    ensures WinsOfOne(positive, negatives) == |negatives| as real <==>
      forall j :: 0 <= j < |negatives| ==> positive > negatives[j]
  {
    if negatives != [] {
      var rest := negatives[1..];
      WinsOfOneBounds(positive, rest);
      if forall j :: 0 <= j < |rest| ==> positive > rest[j] {
        assert forall j :: 1 <= j < |negatives| ==> negatives[j] == rest[j - 1];
      }
    }
  }

  lemma AddRow(m: nat, n: nat)
    ensures ((m + 1) * n) as real == (m * n) as real + n as real
  {
  }

  lemma {:induction false} WinsBounds(positives: seq<real>, negatives: seq<real>)
    ensures 0.0 <= Wins(positives, negatives) <= (|positives| * |negatives|) as real
    ensures Wins(positives, negatives) == (|positives| * |negatives|) as real <==> Separated(positives, negatives)
  {
    if positives != [] {
      var rest := positives[1..];
      WinsBounds(rest, negatives);
      WinsOfOneBounds(positives[0], negatives);
      AddRow(|rest|, |negatives|);
      if Separated(rest, negatives) {
        assert forall i :: 1 <= i < |positives| ==> positives[i] == rest[i - 1];
      }
    }
  }

  /** AUROC is a fraction, and it is 1 exactly when the two classes are separated. */
  lemma AurocInUnit(pairs: seq<Pair>)
    ensures 0.0 <= Auroc(pairs) <= 1.0
    ensures Scores(pairs, true) != [] && Scores(pairs, false) != [] ==>
      (Auroc(pairs) == 1.0 <==> Separated(Scores(pairs, true), Scores(pairs, false)))
  {
    var p, n := Scores(pairs, true), Scores(pairs, false);
    if p != [] && n != [] {
      WinsBounds(p, n);
      assert |p| * |n| > 0;
      FractionInUnit(Wins(p, n), (|p| * |n|) as real);
    }
  }

  // ---- Swapping the classes ----

  function Flip(pairs: seq<Pair>): seq<Pair> {
    seq(|pairs|, i requires 0 <= i < |pairs| => Pair(pairs[i].score, !pairs[i].relevant))
  }

  lemma {:induction false} FlipSwapsScores(pairs: seq<Pair>, relevant: bool)
    ensures Scores(Flip(pairs), relevant) == Scores(pairs, !relevant)
  {
    if pairs != [] {
      assert Flip(pairs)[1..] == Flip(pairs[1..]);
      FlipSwapsScores(pairs[1..], relevant);
    }
  }

  /** What one score earns from the other side, summed from either end. */
  function LossesToOne(negatives: seq<real>, positive: real): real {
    if negatives == [] then 0.0 else Duel(negatives[0], positive) + LossesToOne(negatives[1..], positive)
  }

  lemma {:induction false} DuelsShare(positive: real, negatives: seq<real>)
    ensures WinsOfOne(positive, negatives) + LossesToOne(negatives, positive) == |negatives| as real
  {
    if negatives != [] { DuelsShare(positive, negatives[1..]); }
  }

  lemma {:induction false} WinsAddOpponent(winners: seq<real>, opponent: real, opponents: seq<real>)
    ensures Wins(winners, [opponent] + opponents) == LossesToOne(winners, opponent) + Wins(winners, opponents)
  {
    if winners != [] {
      assert ([opponent] + opponents)[1..] == opponents;
      WinsAddOpponent(winners[1..], opponent, opponents);
    }
  }

  lemma {:induction false} WinsWithoutOpponents(winners: seq<real>)
    ensures Wins(winners, []) == 0.0
  {
    if winners != [] { WinsWithoutOpponents(winners[1..]); }
  }

  /** Each of the pairwise comparisons is shared out between the two sides. */
  lemma {:induction false} WinsComplement(positives: seq<real>, negatives: seq<real>)
    ensures Wins(positives, negatives) + Wins(negatives, positives) == (|positives| * |negatives|) as real
  {
    if positives == [] {
      WinsWithoutOpponents(negatives);
    } else {
      var rest := positives[1..];
      assert positives == [positives[0]] + rest;
      WinsAddOpponent(negatives, positives[0], rest);
      DuelsShare(positives[0], negatives);
      WinsComplement(rest, negatives);
      AddRow(|rest|, |negatives|);
    }
  }

  lemma ComplementRate(a: real, b: real, c: real)
    requires c > 0.0 && a + b == c
    ensures b / c == 1.0 - a / c
  {
    assert b / c + a / c == (b + a) / c == c / c;
  }

  lemma RatesOfWhole(a: real, b: real, p: nat, n: nat)
    requires p > 0 && n > 0 && a + b == (p * n) as real
    ensures WinRate(b, n, p) == 1.0 - WinRate(a, p, n)
  {
    assert n * p == p * n > 0;
    ComplementRate(a, b, (p * n) as real);
  }

  /** Relabelling every item turns the value into its complement, ties included. */
  lemma AurocFlips(pairs: seq<Pair>)
    requires Scores(pairs, true) != [] && Scores(pairs, false) != []
    ensures Auroc(Flip(pairs)) == 1.0 - Auroc(pairs)
  {
    hide WinRate;
    var p, n := Scores(pairs, true), Scores(pairs, false);
    FlipSwapsScores(pairs, true);
    FlipSwapsScores(pairs, false);
    WinsComplement(p, n);
    RatesOfWhole(Wins(p, n), Wins(n, p), |p|, |n|);
  }

  // ---- Rescaling the scores ----

  ghost predicate StrictlyIncreasing(f: real -> real) {
    forall x, y :: x < y ==> f(x) < f(y)
  }

  function Rescale(pairs: seq<Pair>, f: real -> real): seq<Pair> {
    seq(|pairs|, i requires 0 <= i < |pairs| => Pair(f(pairs[i].score), pairs[i].relevant))
  }

  function Apply(f: real -> real, s: seq<real>): seq<real> {
    seq(|s|, i requires 0 <= i < |s| => f(s[i]))
  }

  lemma {:induction false} RescaleScores(pairs: seq<Pair>, f: real -> real, relevant: bool)
    ensures Scores(Rescale(pairs, f), relevant) == Apply(f, Scores(pairs, relevant))
  {
    if pairs != [] {
      assert Rescale(pairs, f)[1..] == Rescale(pairs[1..], f);
      RescaleScores(pairs[1..], f, relevant);
    }
  }

  lemma {:induction false} RescaleOne(positive: real, negatives: seq<real>, f: real -> real)
    requires StrictlyIncreasing(f)
    ensures WinsOfOne(f(positive), Apply(f, negatives)) == WinsOfOne(positive, negatives)
  {
    if negatives != [] {
      assert Apply(f, negatives)[1..] == Apply(f, negatives[1..]);
      RescaleOne(positive, negatives[1..], f);
      assert Duel(f(positive), f(negatives[0])) == Duel(positive, negatives[0]);
    }
  }

  lemma {:induction false} RescaleWins(positives: seq<real>, negatives: seq<real>, f: real -> real)
    requires StrictlyIncreasing(f)
    ensures Wins(Apply(f, positives), Apply(f, negatives)) == Wins(positives, negatives)
  {
    if positives != [] {
      assert Apply(f, positives)[1..] == Apply(f, positives[1..]);
      RescaleOne(positives[0], negatives, f);
      RescaleWins(positives[1..], negatives, f);
    }
  }

  /** Only the order of the scores matters. */
  lemma AurocRescales(pairs: seq<Pair>, f: real -> real)
    requires StrictlyIncreasing(f)
    ensures Auroc(Rescale(pairs, f)) == Auroc(pairs)
  {
    RescaleScores(pairs, f, true);
    RescaleScores(pairs, f, false);
    RescaleWins(Scores(pairs, true), Scores(pairs, false), f);
  }

  // ---- The ranked list and its average precision ----

  function InsertRanked(x: Pair, s: seq<Pair>): (r: seq<Pair>)
    ensures multiset(r) == multiset(s) + multiset{x}
  {
    if s == [] then
      [x]
    else if x.score >= s[0].score then
      [x] + s
    else
      assert s == [s[0]] + s[1..];
      [s[0]] + InsertRanked(x, s[1..])
  }

  /** sorted(pairs, key=score, reverse=True), which keeps equal scores in their given order. */
  function Ranked(pairs: seq<Pair>): (r: seq<Pair>)
    ensures multiset(r) == multiset(pairs)
  {
    if pairs == [] then []
    else
      assert pairs == [pairs[0]] + pairs[1..];
      InsertRanked(pairs[0], Ranked(pairs[1..]))
  }

  predicate DescendingScores(s: seq<Pair>) {
    |s| <= 1 || (s[0].score >= s[1].score && DescendingScores(s[1..]))
  }

  lemma {:induction false} InsertKeepsOrder(x: Pair, s: seq<Pair>)
    requires DescendingScores(s)
    ensures DescendingScores(InsertRanked(x, s))
    ensures InsertRanked(x, s)[0] == x || (s != [] && InsertRanked(x, s)[0] == s[0])
  {
    if s != [] && x.score >= s[0].score {
      assert ([x] + s)[1..] == s;
    } else if s != [] {
      InsertKeepsOrder(x, s[1..]);
      var rest := InsertRanked(x, s[1..]);
      assert ([s[0]] + rest)[1..] == rest;
    }
  }

  lemma {:induction false} RankedIsDescending(pairs: seq<Pair>)
    ensures DescendingScores(Ranked(pairs))
  {
    if pairs != [] {
      RankedIsDescending(pairs[1..]);
      InsertKeepsOrder(pairs[0], Ranked(pairs[1..]));
    }
  }

  function Flags(pairs: seq<Pair>): seq<bool> {
    seq(|pairs|, i requires 0 <= i < |pairs| => pairs[i].relevant)
  }

  lemma CountAfterFirst(x: Pair, s: seq<Pair>)
    ensures CountTrue(Flags([x] + s)) == CountTrue(Flags(s)) + if x.relevant then 1 else 0
  {
    assert Flags([x] + s)[1..] == Flags(s);
  }

  lemma {:induction false} InsertCounts(x: Pair, s: seq<Pair>)
    ensures CountTrue(Flags(InsertRanked(x, s))) == CountTrue(Flags(s)) + if x.relevant then 1 else 0
  {
    CountAfterFirst(x, s);
    if s == [] {
      assert [x] + s == [x];
    } else if x.score < s[0].score {
      InsertCounts(x, s[1..]);
      CountAfterFirst(s[0], InsertRanked(x, s[1..]));
      CountAfterFirst(s[0], s[1..]);
      assert [s[0]] + s[1..] == s;
    }
  }

  lemma {:induction false} RankedCounts(pairs: seq<Pair>)
    ensures CountTrue(Flags(Ranked(pairs))) == |Scores(pairs, true)|
  {
    if pairs != [] {
      RankedCounts(pairs[1..]);
      InsertCounts(pairs[0], Ranked(pairs[1..]));
    }
  }

  function AveragePrecision(pairs: seq<Pair>): real {
    var p, n := Scores(pairs, true), Scores(pairs, false);
    if p == [] || n == [] then 0.0 else PrecisionSum(Flags(Ranked(pairs)), 0, 0) / |p| as real
  }

  /** The average precision is a fraction, and it is 1 exactly when the ranking puts all relevant items first. */
  lemma AveragePrecisionInUnit(pairs: seq<Pair>)
    ensures 0.0 <= AveragePrecision(pairs) <= 1.0
    ensures Scores(pairs, true) != [] && Scores(pairs, false) != [] ==>
      (AveragePrecision(pairs) == 1.0 <==> LeadingTrue(Flags(Ranked(pairs))))
  {
    var p := Scores(pairs, true);
    if p != [] {
      RankedCounts(pairs);
      PrecisionSumBound(Flags(Ranked(pairs)), 0, 0);
      FractionInUnit(PrecisionSum(Flags(Ranked(pairs)), 0, 0), |p| as real);
    }
  }

  predicate PairsSeparated(s: seq<Pair>) {
    forall x, y :: x in s && y in s && x.relevant && !y.relevant ==> x.score > y.score
  }

  lemma {:induction false} ScoreOfMember(pairs: seq<Pair>, x: Pair)
    requires x in pairs
    ensures x.score in Scores(pairs, x.relevant)
  {
    if x != pairs[0] { ScoreOfMember(pairs[1..], x); }
  }

  lemma {:induction false} NoneBelowFirst(s: seq<Pair>, bound: real)
    requires DescendingScores(s) && (s == [] || s[0].score <= bound)
    requires forall x :: x in s && x.relevant ==> x.score > bound
    ensures CountTrue(Flags(s)) == 0
  {
    if s != [] {
      assert s[0] in s && Flags(s)[1..] == Flags(s[1..]);
      NoneBelowFirst(s[1..], bound);
    }
  }

  lemma {:induction false} SeparatedLeads(s: seq<Pair>)
    requires DescendingScores(s) && PairsSeparated(s)
    ensures LeadingTrue(Flags(s))
  {
    if s != [] {
      assert Flags(s)[1..] == Flags(s[1..]);
      if s[0].relevant {
        SeparatedLeads(s[1..]);
      } else {
        NoneBelowFirst(s, s[0].score);
      }
    }
  }

  /** Perfect separation by AUROC makes the sorted ranking perfect too. */
  lemma PerfectAurocMeansPerfectRanking(pairs: seq<Pair>)
    requires Auroc(pairs) == 1.0
    ensures AveragePrecision(pairs) == 1.0
  {
    AurocInUnit(pairs);
    var ranked := Ranked(pairs);
    RankedIsDescending(pairs);
    forall x, y | x in ranked && y in ranked && x.relevant && !y.relevant ensures x.score > y.score {
      assert x in multiset(pairs) && y in multiset(pairs);
      ScoreOfMember(pairs, x);
      ScoreOfMember(pairs, y);
    }
    SeparatedLeads(ranked);
    AveragePrecisionInUnit(pairs);
  }

  /** The comparisons of every positive with every negative, pair by pair. */
  method CountWins(positives: seq<real>, negatives: seq<real>) returns (wins: real)
    ensures wins == Wins(positives, negatives)
  {
    wins := 0.0;
    for i := 0 to |positives|
      invariant wins + Wins(positives[i..], negatives) == Wins(positives, negatives)
    {
      assert positives[i..][0] == positives[i] && positives[i..][1..] == positives[i + 1..];
      for j := 0 to |negatives|
        invariant wins + WinsOfOne(positives[i], negatives[j..]) + Wins(positives[i + 1..], negatives)
               == Wins(positives, negatives)
      {
        assert negatives[j..][0] == negatives[j] && negatives[j..][1..] == negatives[j + 1..];
        var positive, negative := positives[i], negatives[j];
        wins := wins + if positive > negative then 1.0 else if positive == negative then 0.5 else 0.0;
      }
    }
  }

  method BinaryRankingMetrics(pairs: seq<Pair>) returns (auroc: real, averagePrecision: real)
    ensures auroc == Round4(Auroc(pairs)) && averagePrecision == Round4(AveragePrecision(pairs))
    ensures 0.0 <= auroc <= 1.0 && 0.0 <= averagePrecision <= 1.0
  {
    hide Round4, WinRate;
    AurocInUnit(pairs);
    AveragePrecisionInUnit(pairs);
    Round4InUnit(Auroc(pairs));
    Round4InUnit(AveragePrecision(pairs));
    Round4InUnit(0.0);
    var positives, negatives := Scores(pairs, true), Scores(pairs, false);
    if positives == [] || negatives == [] {
      return 0.0, 0.0;
    }
    var precisionSum := SumPrecisions(Flags(Ranked(pairs)));
    var wins := CountWins(positives, negatives);
    auroc := Round4(WinRate(wins, |positives|, |negatives|));
    averagePrecision := Round4(precisionSum / |positives| as real);
  }
}
