/** The ranking metrics: discounted gain, its normalisation, average precision, reciprocal rank. */
module RankingMetrics {
  import opened Support
  import opened Sorting

  /** The weight of a rank. The program uses 1 / log2(rank + 1); only its shape matters here. */
  type Discount = nat -> real

  ghost predicate IsDiscount(d: Discount) {
    && (forall r: nat :: 1 <= r ==> d(r) > 0.0)
    && (forall r: nat, q: nat :: 1 <= r < q ==> d(r) > d(q))
  }

  function Gain(score: real): real {
    if score > 0.0 then score else 0.0
  }

  /** What a gain is worth at a rank of the given weight. */
  function Weigh(gain: real, weight: real): real {
    gain * weight
  }

  /** The discounted gain of scores whose first element has the given rank. */
  function DcgFrom(scores: seq<real>, d: Discount, rank: nat): real {
    if scores == [] then 0.0
    else Weigh(Gain(scores[0]), d(rank)) + DcgFrom(scores[1..], d, rank + 1)
  }

  method Dcg(scores: seq<real>, d: Discount) returns (value: real)
    ensures value == DcgFrom(scores, d, 1)
  {
    value := 0.0;
    for i := 0 to |scores|
      invariant value + DcgFrom(scores[i..], d, i + 1) == DcgFrom(scores, d, 1)
    {
      var gain := Gain(scores[i]);
      assert scores[i..][1..] == scores[i + 1..];
      if gain == 0.0 { continue; }
      value := value + Weigh(gain, d(i + 1));
    }
  }

  predicate AnyPositive(s: seq<real>) {
    s != [] && (s[0] > 0.0 || AnyPositive(s[1..]))
  }

  lemma {:induction false} DcgNonNegative(s: seq<real>, d: Discount, rank: nat)
    requires IsDiscount(d) && rank >= 1
    ensures DcgFrom(s, d, rank) >= 0.0
    ensures DcgFrom(s, d, rank) > 0.0 <==> AnyPositive(s)
  {
    if s != [] {
      DcgNonNegative(s[1..], d, rank + 1);
      assert d(rank) > 0.0;
      assert s[0] > 0.0 ==> s[0] * d(rank) > 0.0;
    }
  }

  lemma WeighDifference(a: real, b: real, w: real)
    ensures Weigh(a - b, w) == Weigh(a, w) - Weigh(b, w)
  {
  }

  /** Replacing one score moves the total by that rank's share alone. */
  lemma {:induction false} DcgUpdate(s: seq<real>, i: nat, x: real, d: Discount, rank: nat)
    requires i < |s|
    ensures DcgFrom(s[i := x], d, rank) == DcgFrom(s, d, rank) + Weigh(Gain(x) - Gain(s[i]), d(rank + i))
  {
    hide Weigh;
    var t := s[i := x];
    if i == 0 {
      assert t[1..] == s[1..];
      WeighDifference(Gain(x), Gain(s[0]), d(rank));
    } else {
      assert t[1..] == s[1..][i - 1 := x];
      DcgUpdate(s[1..], i - 1, x, d, rank + 1);
    }
  }

  lemma WeighSwap(gap: real, early: real, late: real)
    requires gap >= 0.0 && early >= late
    ensures Weigh(gap, early) + Weigh(-gap, late) >= 0.0
  {
    ProductMonotone(late, early, gap);
  }

  /** Bringing a score to the front past a smaller one cannot lower the total. */
  lemma SwapToFront(s: seq<real>, p: nat, d: Discount, rank: nat)
    requires IsDiscount(d) && rank >= 1 && p < |s| && s[p] >= s[0]
    ensures DcgFrom(s, d, rank) <= DcgFrom(s[p := s[0]][0 := s[p]], d, rank)
  {
    hide Weigh;
    if p == 0 {
      assert s[p := s[0]][0 := s[p]] == s;
    } else {
      DcgUpdate(s, p, s[0], d, rank);
      DcgUpdate(s[p := s[0]], 0, s[p], d, rank);
      assert d(rank) > d(rank + p);
      WeighSwap(Gain(s[p]) - Gain(s[0]), d(rank), d(rank + p));
    }
  }

  lemma SwapMultiset(s: seq<real>, p: nat)
    requires p < |s|
    ensures multiset(s[p := s[0]][0 := s[p]]) == multiset(s)
  {
    var u := s[p := s[0]];
    assert multiset(u) == multiset(s) - multiset{s[p]} + multiset{s[0]};
    assert multiset(u[0 := s[p]]) == multiset(u) - multiset{u[0]} + multiset{s[p]};
  }

  lemma FindBest(s: seq<real>, best: seq<real>) returns (p: nat)
    requires best != [] && Descending(best) && multiset(s) == multiset(best)
    ensures p < |s| && s[p] == best[0] && s[p] >= s[0]
  {
    assert |multiset(s)| == |multiset(best)|;
    assert best[0] in multiset(s) && s[0] in multiset(best);
    p :| 0 <= p < |s| && s[p] == best[0];
  }

  lemma BringBestToFront(s: seq<real>, best: seq<real>, d: Discount, rank: nat) returns (t: seq<real>)
    requires IsDiscount(d) && rank >= 1
    requires best != [] && Descending(best) && multiset(s) == multiset(best)
    ensures t != [] && t[0] == best[0] && multiset(t[1..]) == multiset(best[1..])
    ensures DcgFrom(s, d, rank) <= DcgFrom(t, d, rank)
  {
    var p := FindBest(s, best);
    t := s[p := s[0]][0 := s[p]];
    SwapToFront(s, p, d, rank);
    SwapMultiset(s, p);
    SameTails(t, best);
  }

  /** Rearrangement: no ordering of the scores beats the descending one. */
  lemma {:induction false} Rearrangement(s: seq<real>, best: seq<real>, d: Discount, rank: nat)
    requires IsDiscount(d) && rank >= 1
    requires Descending(best) && multiset(s) == multiset(best)
    ensures DcgFrom(s, d, rank) <= DcgFrom(best, d, rank)
    decreases |best|
  {
    if best == [] {
      assert |multiset(s)| == 0;
    } else {
      var t := BringBestToFront(s, best, d, rank);
      Rearrangement(t[1..], best[1..], d, rank + 1);
    }
  }

  function Truncated(scores: seq<real>, k: Option<int>): seq<real> {
    if k.Some? && k.value != 0 then PyTake(scores, k.value) else scores
  }

  function Limit(scores: seq<real>, k: Option<int>): int {
    if k.Some? && k.value != 0 then k.value else |Truncated(scores, k)|
  }

  /** The ranking that scores are compared with. */
  function Ideal(scores: seq<real>, k: Option<int>, totalRelevant: Option<int>): seq<real> {
    match totalRelevant
    case None => SortedDescending(Truncated(scores, k))
    case Some(total) =>
      var limit := Limit(scores, k);
      var ones := Repeat(1.0, if total < limit then total else limit);
      ones + Repeat(0.0, limit - |ones|)
  }

  /** What ndcg_at_k computes. */
  function Ndcg(scores: seq<real>, k: Option<int>, totalRelevant: Option<int>, d: Discount): real {
    var ideal := DcgFrom(Ideal(scores, k, totalRelevant), d, 1);
    if Truncated(scores, k) == [] || ideal == 0.0 then 0.0
    else DcgFrom(Truncated(scores, k), d, 1) / ideal
  }

  /** With no declared total the value is in [0, 1] for every list of scores, whatever their signs,
      and it is 1 exactly when some kept score is positive and no reordering would be better. */
  method NdcgAtK(scores: seq<real>, k: Option<int>, totalRelevant: Option<int>, d: Discount) returns (r: real)
    requires IsDiscount(d)
    ensures r == Ndcg(scores, k, totalRelevant, d)
    ensures totalRelevant.None? ==> 0.0 <= r <= 1.0
    ensures totalRelevant.None? ==>
      (r == 1.0 <==> AnyPositive(Truncated(scores, k)) &&
                     DcgFrom(Truncated(scores, k), d, 1) == DcgFrom(SortedDescending(Truncated(scores, k)), d, 1))
  {
    var truncated := Truncated(scores, k);
    if truncated == [] {
      return 0.0;
    }
    var idealDcg := Dcg(Ideal(scores, k, totalRelevant), d);
    if totalRelevant.None? {
      NdcgBounds(truncated, d);
    }
    if idealDcg == 0.0 {
      return 0.0;
    }
    var actual := Dcg(truncated, d);
    r := actual / idealDcg;
  }

  lemma NdcgBounds(s: seq<real>, d: Discount)
    requires IsDiscount(d)
    ensures var ideal := DcgFrom(SortedDescending(s), d, 1);
      && 0.0 <= DcgFrom(s, d, 1) <= ideal
      && (ideal > 0.0 ==> 0.0 <= DcgFrom(s, d, 1) / ideal <= 1.0)
      && (ideal > 0.0 ==> (DcgFrom(s, d, 1) / ideal == 1.0 <==> DcgFrom(s, d, 1) == ideal))
      && (AnyPositive(s) ==> ideal > 0.0)
      && (DcgFrom(s, d, 1) > 0.0 <==> AnyPositive(s))
  {
    var t := SortedDescending(s);
    Rearrangement(s, t, d, 1);
    DcgNonNegative(s, d, 1);
    if DcgFrom(t, d, 1) > 0.0 {
      FractionInUnit(DcgFrom(s, d, 1), DcgFrom(t, d, 1));
    }
  }

  // ---- The form with a declared number of relevant items ----

  predicate ZeroOne(s: seq<real>) {
    forall i :: 0 <= i < |s| ==> s[i] == 0.0 || s[i] == 1.0
  }

  function Ones(s: seq<real>): nat {
    if s == [] then 0 else (if s[0] == 1.0 then 1 else 0) + Ones(s[1..])
  }

  /** The discounted gain of n ones in the leading ranks. */
  function OnesDcg(n: nat, d: Discount, rank: nat): real {
    if n == 0 then 0.0 else d(rank) + OnesDcg(n - 1, d, rank + 1)
  }

  lemma {:induction false} OnesDcgGrows(n: nat, m: nat, d: Discount, rank: nat)
    requires IsDiscount(d) && rank >= 1 && n <= m
    ensures OnesDcg(n, d, rank) <= OnesDcg(m, d, rank)
    ensures n < m ==> OnesDcg(n, d, rank) < OnesDcg(m, d, rank)
    decreases m
  {
    if m > 0 {
      assert d(rank) > 0.0;
      if n > 0 {
        OnesDcgGrows(n - 1, m - 1, d, rank + 1);
      } else {
        OnesDcgGrows(0, m - 1, d, rank + 1);
      }
    }
  }

  lemma {:induction false} OnesDcgLater(n: nat, d: Discount, rank: nat)
    requires IsDiscount(d) && rank >= 1
    ensures OnesDcg(n, d, rank + 1) <= OnesDcg(n, d, rank)
  {
    if n > 0 {
      OnesDcgLater(n - 1, d, rank + 1);
      assert d(rank) > d(rank + 1);
    }
  }

  /** Any arrangement of n ones among zeros earns at most what n leading ones earn. */
  lemma {:induction false} ZeroOneBound(s: seq<real>, d: Discount, rank: nat)
    requires IsDiscount(d) && rank >= 1 && ZeroOne(s)
    ensures DcgFrom(s, d, rank) <= OnesDcg(Ones(s), d, rank)
  {
    if s != [] {
      ZeroOneBound(s[1..], d, rank + 1);
      if s[0] == 0.0 {
        OnesDcgLater(Ones(s[1..]), d, rank);
      } else {
        assert s[0] == 1.0;
      }
    }
  }

  lemma {:induction false} PaddedOnes(n: nat, zeros: nat, d: Discount, rank: nat)
    ensures DcgFrom(Repeat(1.0, n) + Repeat(0.0, zeros), d, rank) == OnesDcg(n, d, rank)
    ensures Ones(Repeat(1.0, n) + Repeat(0.0, zeros)) == n
  {
    var s := Repeat(1.0, n) + Repeat(0.0, zeros);
    if n > 0 {
      assert s[1..] == Repeat(1.0, n - 1) + Repeat(0.0, zeros);
      PaddedOnes(n - 1, zeros, d, rank + 1);
    } else if zeros > 0 {
      assert s[1..] == Repeat(1.0, 0) + Repeat(0.0, zeros - 1);
      PaddedOnes(0, zeros - 1, d, rank + 1);
    }
  }

  lemma {:induction false} OnesAtMostLength(s: seq<real>)
    ensures Ones(s) <= |s|
  {
    if s != [] { OnesAtMostLength(s[1..]); }
  }

  /** The kept lists of some length and number of ones that a cut-off k can leave. */
  ghost predicate KeptOnes(s: seq<real>, k: Option<int>, length: nat, ones: nat) {
    |Truncated(s, k)| == length && ZeroOne(Truncated(s, k)) && Ones(Truncated(s, k)) == ones
  }

  ghost predicate AllInUnit(k: Option<int>, total: int, length: nat, ones: nat, d: Discount) {
    forall s: seq<real> :: KeptOnes(s, k, length, ones) ==> 0.0 <= Ndcg(s, k, Some(total), d) <= 1.0
  }

  /** In the form that declares a total, at every k: all kept lists of a length and a number of ones have a value in
      [0, 1] if and only if the ones do not exceed the total. A total that is not positive, or a negative k, makes
      the ideal and the value zero. */
  lemma DeclaredTotalBound(length: nat, ones: nat, k: Option<int>, total: int, d: Discount)
    requires IsDiscount(d) && ones <= length && (k.Some? && k.value > 0 ==> length <= k.value)
    ensures AllInUnit(k, total, length, ones, d) <==> total <= 0 || (k.Some? && k.value < 0) || ones <= total
  {
    if total <= 0 || (k.Some? && k.value < 0) {
      forall s: seq<real> | KeptOnes(s, k, length, ones) ensures Ndcg(s, k, Some(total), d) == 0.0 {
        NothingIdeal(s, k, total, d);
      }
    } else if ones <= total {
      forall s: seq<real> | KeptOnes(s, k, length, ones) ensures 0.0 <= Ndcg(s, k, Some(total), d) <= 1.0 {
        DeclaredTotalHolds(s, k, total, d);
      }
    } else {
      var s := Repeat(1.0, ones) + Repeat(0.0, length - ones);
      PaddedOnes(ones, length - ones, d, 1);
      assert Truncated(s, k) == s && KeptOnes(s, k, length, ones);
      LeadingOnesExceed(s, k, ones, total, d);
    }
  }

  lemma NothingIdeal(s: seq<real>, k: Option<int>, total: int, d: Discount)
    requires total <= 0 || (k.Some? && k.value < 0)
    ensures Ndcg(s, k, Some(total), d) == 0.0
  {
    var limit := Limit(s, k);
    var zeros := if limit > 0 then limit else 0;
    assert Ideal(s, k, Some(total)) == Repeat(1.0, 0) + Repeat(0.0, zeros);
    PaddedOnes(0, zeros, d, 1);
  }

  /** More leading ones than declared give a value above 1, whatever the positive cut-off. */
  lemma LeadingOnesExceed(s: seq<real>, k: Option<int>, ones: nat, total: int, d: Discount)
    requires IsDiscount(d) && 1 <= total < ones <= |s| && !(k.Some? && k.value < 0) && Truncated(s, k) == s
    requires DcgFrom(s, d, 1) == OnesDcg(ones, d, 1)
    ensures Ndcg(s, k, Some(total), d) > 1.0
  {
    var limit := Limit(s, k);
    assert limit >= |s|;
    PaddedOnes(total, limit - total, d, 1);
    assert Ideal(s, k, Some(total)) == Repeat(1.0, total) + Repeat(0.0, limit - total);
    OnesDcgGrows(total, ones, d, 1);
    OnesDcgGrows(0, total, d, 1);
    ExcessFraction(OnesDcg(ones, d, 1), OnesDcg(total, d, 1));
  }

  lemma ExcessFraction(a: real, b: real)
    requires a > b > 0.0
    ensures a / b > 1.0
  {
    FractionMonotone(b, a, b);
    FractionInUnit(a, b);
  }

  /** With at most the declared number of ones the value is in [0, 1], at every cut-off k. */
  lemma DeclaredTotalHolds(s: seq<real>, k: Option<int>, total: int, d: Discount)
    requires IsDiscount(d) && ZeroOne(Truncated(s, k)) && Ones(Truncated(s, k)) <= total
    ensures 0.0 <= Ndcg(s, k, Some(total), d) <= 1.0
  {
    var kept, limit := Truncated(s, k), Limit(s, k);
    if kept != [] && limit > 0 {
      var n := if total < limit then total else limit;
      OnesAtMostLength(kept);
      ZeroOneBound(kept, d, 1);
      OnesDcgGrows(Ones(kept), n, d, 1);
      PaddedOnes(n, limit - n, d, 1);
      DcgNonNegative(kept, d, 1);
      DcgNonNegative(Ideal(s, k, Some(total)), d, 1);
      if OnesDcg(n, d, 1) > 0.0 {
        FractionInUnit(DcgFrom(kept, d, 1), OnesDcg(n, d, 1));
      }
    } else if kept != [] {
      assert Ideal(s, k, Some(total)) == [];
    }
  }

  // ---- Average precision and reciprocal rank ----

  function CountTrue(flags: seq<bool>): nat {
    if flags == [] then 0 else (if flags[0] then 1 else 0) + CountTrue(flags[1..])
  }

  /** The precision at each relevant rank, summed, when `seen` relevant items came in `before` ranks. */
  function PrecisionSum(flags: seq<bool>, seen: nat, before: nat): real {
    if flags == [] then 0.0
    else if flags[0] then (seen + 1) as real / (before + 1) as real + PrecisionSum(flags[1..], seen + 1, before + 1)
    else PrecisionSum(flags[1..], seen, before + 1)
  }

  lemma {:induction false} CountTrueAppend(flags: seq<bool>, f: bool)
    ensures CountTrue(flags + [f]) == CountTrue(flags) + if f then 1 else 0
  {
    if flags != [] {
      assert (flags + [f])[1..] == flags[1..] + [f];
      CountTrueAppend(flags[1..], f);
    }
  }

  /** The loop shared by both average-precision functions. */
  method SumPrecisions(flags: seq<bool>) returns (sum: real)
    ensures sum == PrecisionSum(flags, 0, 0)
  {
    sum := 0.0;
    var seen := 0;
    for i := 0 to |flags|
      invariant seen == CountTrue(flags[..i])
      invariant sum + PrecisionSum(flags[i..], seen, i) == PrecisionSum(flags, 0, 0)
    {
      assert flags[i..][1..] == flags[i + 1..];
      assert flags[..i + 1] == flags[..i] + [flags[i]];
      CountTrueAppend(flags[..i], flags[i]);
      if flags[i] {
        seen := seen + 1;
        sum := sum + seen as real / (i + 1) as real;
      }
    }
    assert flags[..|flags|] == flags;
  }

  /** Every relevant rank contributes at most 1, and exactly 1 only while nothing irrelevant came before. */
  lemma {:induction false} PrecisionSumBound(flags: seq<bool>, seen: nat, before: nat)
    requires seen <= before
    ensures 0.0 <= PrecisionSum(flags, seen, before) <= CountTrue(flags) as real
    ensures PrecisionSum(flags, seen, before) == CountTrue(flags) as real <==>
      CountTrue(flags) == 0 || (seen == before && LeadingTrue(flags))
  {
    if flags != [] {
      if flags[0] {
        FractionInUnit((seen + 1) as real, (before + 1) as real);
        PrecisionSumBound(flags[1..], seen + 1, before + 1);
      } else {
        PrecisionSumBound(flags[1..], seen, before + 1);
      }
    }
  }

  /** All relevant items come before all irrelevant ones. */
  predicate LeadingTrue(flags: seq<bool>) {
    flags == [] || (if flags[0] then LeadingTrue(flags[1..]) else CountTrue(flags) == 0)
  }

  function AveragePrecision(flags: seq<bool>, k: int, totalRelevant: int): real {
    var denominator := if totalRelevant < k then totalRelevant else k;
    if denominator <= 0 then 0.0 else PrecisionSum(PyTake(flags, k), 0, 0) / denominator as real
  }

  /** In [0, 1] whenever the kept list holds no more relevant items than declared, and then 1 exactly when it holds
      as many as the denominator and they lead the list. */
  method AveragePrecisionAtK(flags: seq<bool>, k: int, totalRelevant: int) returns (r: real)
    ensures totalRelevant <= 0 || k <= 0 ==> r == 0.0
    ensures r >= 0.0
    ensures r == AveragePrecision(flags, k, totalRelevant)
    ensures totalRelevant > 0 && k > 0 && CountTrue(PyTake(flags, k)) <= totalRelevant ==>
      && r <= 1.0
      && (r == 1.0 <==> CountTrue(PyTake(flags, k)) == (if totalRelevant < k then totalRelevant else k)
                        && LeadingTrue(PyTake(flags, k)))
  {
    var kept := PyTake(flags, k);
    var denominator := if totalRelevant < k then totalRelevant else k;
    if denominator <= 0 {
      return 0.0;
    }
    var sum := SumPrecisions(kept);
    r := sum / denominator as real;
    PrecisionSumBound(kept, 0, 0);
    CountAtMostLength(kept);
    FractionInUnit(sum, denominator as real);
  }

  lemma {:induction false} CountAtMostLength(flags: seq<bool>)
    ensures CountTrue(flags) <= |flags|
  {
    if flags != [] { CountAtMostLength(flags[1..]); }
  }

  lemma {:induction false} LeadingFlags(relevant: nat, others: nat)
    ensures var flags := Repeat(true, relevant) + Repeat(false, others);
      CountTrue(flags) == relevant && LeadingTrue(flags)
  {
    var flags := Repeat(true, relevant) + Repeat(false, others);
    if relevant > 0 {
      assert flags[1..] == Repeat(true, relevant - 1) + Repeat(false, others);
      LeadingFlags(relevant - 1, others);
    } else if others > 0 {
      assert flags[1..] == Repeat(true, 0) + Repeat(false, others - 1);
      LeadingFlags(0, others - 1);
    }
  }

  ghost predicate KeptRelevant(flags: seq<bool>, k: int, length: nat, relevant: nat) {
    |PyTake(flags, k)| == length && CountTrue(PyTake(flags, k)) == relevant
  }

  ghost predicate AllPrecisionsInUnit(k: int, totalRelevant: int, length: nat, relevant: nat) {
    forall flags :: KeptRelevant(flags, k, length, relevant) ==> 0.0 <= AveragePrecision(flags, k, totalRelevant) <= 1.0
  }

  /** At every k and total: all kept lists of a length and a number of relevant items have an average precision in
      [0, 1] if and only if the items do not exceed the total. Without a positive k and total the value is zero. */
  lemma RelevantTotalBound(length: nat, relevant: nat, k: int, totalRelevant: int)
    requires relevant <= length && (k > 0 ==> length <= k)
    ensures AllPrecisionsInUnit(k, totalRelevant, length, relevant)
      <==> totalRelevant <= 0 || k <= 0 || relevant <= totalRelevant
  {
    if totalRelevant > 0 && k > 0 && relevant > totalRelevant {
      var flags := Repeat(true, relevant) + Repeat(false, length - relevant);
      LeadingFlags(relevant, length - relevant);
      PrecisionSumBound(flags, 0, 0);
      assert PyTake(flags, k) == flags && KeptRelevant(flags, k, length, relevant);
      ExcessFraction(relevant as real, totalRelevant as real);
    } else if totalRelevant > 0 && k > 0 {
      forall flags | KeptRelevant(flags, k, length, relevant)
        ensures 0.0 <= AveragePrecision(flags, k, totalRelevant) <= 1.0
      {
        RelevantWithinTotal(flags, k, totalRelevant);
      }
    }
  }

  lemma RelevantWithinTotal(flags: seq<bool>, k: int, totalRelevant: int)
    requires totalRelevant > 0 && k > 0 && CountTrue(PyTake(flags, k)) <= totalRelevant
    ensures 0.0 <= AveragePrecision(flags, k, totalRelevant) <= 1.0
  {
    var kept := PyTake(flags, k);
    PrecisionSumBound(kept, 0, 0);
    CountAtMostLength(kept);
    FractionInUnit(PrecisionSum(kept, 0, 0), (if totalRelevant < k then totalRelevant else k) as real);
  }

  function ReciprocalRank(flags: seq<bool>, before: nat := 0): real {
    if flags == [] then 0.0
    else if flags[0] then 1.0 / (before + 1) as real
    else ReciprocalRank(flags[1..], before + 1)
  }

  method FirstReciprocalRank(flags: seq<bool>) returns (r: real)
    ensures r == ReciprocalRank(flags)
    ensures r == 0.0 <==> true !in flags
    ensures forall i :: 0 <= i < |flags| && flags[i] && true !in flags[..i] ==> r == 1.0 / (i + 1) as real
  {
    for i := 0 to |flags|
      invariant true !in flags[..i]
      invariant ReciprocalRank(flags) == ReciprocalRank(flags[i..], i)
    {
      assert flags[i..][1..] == flags[i + 1..];
      if flags[i] {
        assert forall j :: 0 <= j < |flags| && flags[j] && true !in flags[..j] ==> j == i;
        return 1.0 / (i + 1) as real;
      }
    }
    assert flags[..|flags|] == flags;
    r := 0.0;
  }
}
