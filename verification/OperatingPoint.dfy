/** Metrics of all records at one operating point, and their slices by format or language. */
module OperatingPoint {
  import opened Support
  import opened Rounding
  import opened RankingMetrics
  import opened Thresholds

  datatype Metrics = Metrics(
    threshold: real, scoreMargin: Option<real>, precision: real, recall: real, f1: real, negativeFpr: real,
    evidencePrecision: real, relevantRetained: nat, retained: nat, passageHit: real, mrr: real, ndcg: real,
    passagePrecision: real, macroContextPrecision: real, sourceHit: real, evidenceRecall: real, documentRecall: real)

  // ---- Counting ----

  predicate Expected(o: Outcome) { o.expected }

  predicate Hit(o: Outcome) { o.expected && o.Correct() }

  predicate Emits(o: Outcome) { o.Emitted() }

  predicate Miss(o: Outcome) { o.Emitted() && !Hit(o) }

  predicate FalseAlarm(o: Outcome) { !o.expected && o.Emitted() }

  function Count(os: seq<Outcome>, p: Outcome -> bool): nat {
    if os == [] then 0 else Count(os[..|os| - 1], p) + if p(os[|os| - 1]) then 1 else 0
  }

  function SumRetained(os: seq<Outcome>): nat {
    if os == [] then 0 else SumRetained(os[..|os| - 1]) + os[|os| - 1].retained
  }

  function SumFlagged(os: seq<Outcome>): nat {
    if os == [] then 0 else SumFlagged(os[..|os| - 1]) + os[|os| - 1].flagged
  }

  function Positives(os: seq<Outcome>): seq<Outcome> {
    if os == [] then []
    else Positives(os[..|os| - 1]) + if os[|os| - 1].expected then [os[|os| - 1]] else []
  }

  function Sum(os: seq<Outcome>, f: Outcome -> real): real {
    if os == [] then 0.0 else f(os[0]) + Sum(os[1..], f)
  }

  function Ratio(n: nat, total: nat, otherwise: real): real {
    if total == 0 then otherwise else n as real / total as real
  }

  function MeanOf(positives: seq<Outcome>, f: Outcome -> real): real {
    if positives == [] then 0.0 else Round4(Sum(positives, f) / |positives| as real)
  }

  function RecallOf(os: seq<Outcome>): real {
    Ratio(Count(os, Hit), Count(os, Expected), 0.0)
  }

  function NegativeFprOf(os: seq<Outcome>): real {
    Ratio(Count(os, FalseAlarm), |os| - CountPositives(os), 0.0)
  }

  function CountPositives(os: seq<Outcome>): (n: nat)
    ensures n == Count(os, Expected) <= |os|
  {
    if os == [] then 0 else CountPositives(os[..|os| - 1]) + if os[|os| - 1].expected then 1 else 0
  }

  function Harmonic(p: real, r: real): real {
    if p + r == 0.0 then 0.0 else 2.0 * p * r / (p + r)
  }

  /** The report made from the counters and the per-record values of the expected records. */
  function Report(tp: nat, fp: nat, expected: nat, alarms: nat, negatives: nat, flagged: nat, retained: nat,
                  ps: seq<Outcome>, threshold: real, margin: Option<real>): Metrics
  {
    var precision := Ratio(tp, tp + fp, 1.0);
    var recall := Ratio(tp, expected, 0.0);
    Metrics(
      Round4(threshold), margin, Round4(precision), Round4(recall), Round4(Harmonic(precision, recall)),
      Round4(Ratio(alarms, negatives, 0.0)), Round4(Ratio(flagged, retained, 1.0)), flagged, retained, Round4(recall),
      MeanOf(ps, (o: Outcome) => o.mrr), MeanOf(ps, (o: Outcome) => o.ndcg),
      MeanOf(ps, (o: Outcome) => o.passagePrecision), MeanOf(ps, (o: Outcome) => o.contextPrecision),
      MeanOf(ps, (o: Outcome) => o.sourceHit), MeanOf(ps, (o: Outcome) => o.evidenceRecall),
      MeanOf(ps, (o: Outcome) => o.documentRecall))
  }

  /** The reported metrics of a list of assessed records. */
  function MetricsOf(os: seq<Outcome>, threshold: real, margin: Option<real>): Metrics {
    Report(Count(os, Hit), Count(os, Miss), CountPositives(os), Count(os, FalseAlarm), |os| - CountPositives(os),
           SumFlagged(os), SumRetained(os), Positives(os), threshold, margin)
  }

  ghost function Assessments(records: seq<Record>, threshold: real, margin: Option<real>, d: Discount): seq<Outcome> {
    seq(|records|, i requires 0 <= i < |records| => Assess(records[i], threshold, margin, d))
  }

  ghost function MetricsAt(records: seq<Record>, threshold: real, margin: Option<real>, d: Discount): Metrics {
    MetricsOf(Assessments(records, threshold, margin, d), threshold, margin)
  }

  lemma CountPrefix(os: seq<Outcome>, i: nat, p: Outcome -> bool)
    requires i < |os|
    ensures Count(os[..i + 1], p) == Count(os[..i], p) + if p(os[i]) then 1 else 0
  {
    assert os[..i + 1][..i] == os[..i];
  }

  lemma SumsPrefix(os: seq<Outcome>, i: nat)
    requires i < |os|
    ensures SumRetained(os[..i + 1]) == SumRetained(os[..i]) + os[i].retained
    ensures SumFlagged(os[..i + 1]) == SumFlagged(os[..i]) + os[i].flagged
    ensures Positives(os[..i + 1]) == Positives(os[..i]) + if os[i].expected then [os[i]] else []
  {
    assert os[..i + 1][..i] == os[..i];
  }

  method CollectCounts(os: seq<Outcome>) returns (tp: nat, fp: nat, negativeEmissions: nat, retained: nat,
      flagged: nat, positives: seq<Outcome>)
    ensures tp == Count(os, Hit) && fp == Count(os, Miss) && negativeEmissions == Count(os, FalseAlarm)
    ensures retained == SumRetained(os) && flagged == SumFlagged(os) && positives == Positives(os)
  {
    tp, fp, negativeEmissions, retained, flagged, positives := 0, 0, 0, 0, 0, [];
    for i := 0 to |os|
      invariant tp == Count(os[..i], Hit) && fp == Count(os[..i], Miss)
      invariant negativeEmissions == Count(os[..i], FalseAlarm)
      invariant retained == SumRetained(os[..i]) && flagged == SumFlagged(os[..i]) && positives == Positives(os[..i])
    {
      var o := os[i];
      CountPrefix(os, i, Hit);
      CountPrefix(os, i, Miss);
      CountPrefix(os, i, FalseAlarm);
      SumsPrefix(os, i);
      retained := retained + o.retained;
      flagged := flagged + o.flagged;
      if o.expected && o.Correct() {
        tp := tp + 1;
      } else if o.Emitted() {
        fp := fp + 1;
      }
      if !o.expected && o.Emitted() {
        negativeEmissions := negativeEmissions + 1;
      }
      if o.expected {
        positives := positives + [o];
      }
    }
    assert os[..|os|] == os;
  }

  method AssessAll(records: seq<Record>, threshold: real, margin: Option<real>, d: Discount) returns (os: seq<Outcome>)
    requires IsDiscount(d)
    ensures os == Assessments(records, threshold, margin, d)
  {
    hide Assess;
    os := [];
    for i := 0 to |records|
      invariant |os| == i && forall j :: 0 <= j < i ==> os[j] == Assess(records[j], threshold, margin, d)
    {
      var o := AssessRecord(records[i], threshold, margin, d);
      os := os + [o];
    }
  }

  method ThresholdMetrics(records: seq<Record>, threshold: real, margin: Option<real>, d: Discount) returns (m: Metrics)
    requires IsDiscount(d)
    ensures m == MetricsAt(records, threshold, margin, d)
  {
    hide Assess, Assessments, Report, Count, SumRetained, SumFlagged, Positives;
    var os := AssessAll(records, threshold, margin, d);
    var tp, fp, negativeEmissions, retained, flagged, ps := CollectCounts(os);
    var positiveCount := CountPositives(os);
    m := Report(tp, fp, positiveCount, negativeEmissions, |os| - positiveCount, flagged, retained, ps, threshold,
        margin);
  }

  // ---- The report, figure by figure ----

  /** The records that are expected and of which a useful chunk was retained; those of which anything was; the expected
      ones; and those of which something was retained that should not have been. */
  function Hits(os: seq<Outcome>): set<nat> {
    set i | 0 <= i < |os| && os[i].expected && os[i].flagged > 0
  }

  function Emitting(os: seq<Outcome>): set<nat> {
    set i | 0 <= i < |os| && os[i].retained > 0
  }

  function Asked(os: seq<Outcome>): set<nat> {
    set i | 0 <= i < |os| && os[i].expected
  }

  function Unasked(os: seq<Outcome>): set<nat> {
    set i | 0 <= i < |os| && !os[i].expected
  }

  function Alarms(os: seq<Outcome>): set<nat> {
    set i | 0 <= i < |os| && !os[i].expected && os[i].retained > 0
  }

  /** A useful chunk is a retained chunk. */
  ghost predicate Sound(os: seq<Outcome>) {
    forall i :: 0 <= i < |os| && os[i].flagged > 0 ==> os[i].retained > 0
  }

  lemma SetsPrefix(os: seq<Outcome>, n: nat)
    requires n < |os|
    ensures Hits(os[..n + 1]) == Hits(os[..n]) + if os[n].expected && os[n].flagged > 0 then {n} else {}
    ensures Emitting(os[..n + 1]) == Emitting(os[..n]) + if os[n].retained > 0 then {n} else {}
    ensures Asked(os[..n + 1]) == Asked(os[..n]) + if os[n].expected then {n} else {}
    ensures Unasked(os[..n + 1]) == Unasked(os[..n]) + if os[n].expected then {} else {n}
    ensures Alarms(os[..n + 1]) == Alarms(os[..n]) + if !os[n].expected && os[n].retained > 0 then {n} else {}
  {
  }

  lemma CountsPrefix(os: seq<Outcome>, n: nat)
    requires n < |os|
    ensures Count(os[..n + 1], Hit) == Count(os[..n], Hit) + One(os[n].expected && os[n].flagged > 0)
    ensures Count(os[..n + 1], Miss)
         == Count(os[..n], Miss) + One(os[n].retained > 0 && !(os[n].expected && os[n].flagged > 0))
    ensures Count(os[..n + 1], FalseAlarm) == Count(os[..n], FalseAlarm) + One(!os[n].expected && os[n].retained > 0)
    ensures CountPositives(os[..n + 1]) == CountPositives(os[..n]) + One(os[n].expected)
  {
    CountPrefix(os, n, Hit);
    CountPrefix(os, n, Miss);
    CountPrefix(os, n, FalseAlarm);
    CountPrefix(os, n, Expected);
    hide Count;
  }

  lemma SizesPrefix(os: seq<Outcome>, n: nat)
    requires n < |os|
    ensures |Hits(os[..n + 1])| == |Hits(os[..n])| + One(os[n].expected && os[n].flagged > 0)
    ensures |Emitting(os[..n + 1])| == |Emitting(os[..n])| + One(os[n].retained > 0)
    ensures |Asked(os[..n + 1])| == |Asked(os[..n])| + One(os[n].expected)
    ensures |Unasked(os[..n + 1])| == |Unasked(os[..n])| + One(!os[n].expected)
    ensures |Alarms(os[..n + 1])| == |Alarms(os[..n])| + One(!os[n].expected && os[n].retained > 0)
  {
    SetsPrefix(os, n);
    assert n !in Hits(os[..n]) && n !in Emitting(os[..n]) && n !in Asked(os[..n]) && n !in Unasked(os[..n])
      && n !in Alarms(os[..n]);
    hide Hits, Emitting, Asked, Unasked, Alarms;
  }

  lemma {:induction false} CountsAreSizes(os: seq<Outcome>)
    requires Sound(os)
    ensures Count(os, Hit) == |Hits(os)| && Count(os, Hit) + Count(os, Miss) == |Emitting(os)|
    ensures CountPositives(os) == |Asked(os)| && |os| - CountPositives(os) == |Unasked(os)|
    ensures Count(os, FalseAlarm) == |Alarms(os)|
  {
    if os == [] {
      assert Hits(os) == {} && Emitting(os) == {} && Asked(os) == {} && Unasked(os) == {} && Alarms(os) == {};
    } else {
      var n := |os| - 1;
      CountsAreSizes(os[..n]);
      SizesPrefix(os, n);
      CountsPrefix(os, n);
      assert os[..n + 1] == os;
      hide Count, CountPositives, Hits, Emitting, Asked, Unasked, Alarms;
    }
  }

  /** A value of the expected records, summed in any order. */
  function ExpectedSum(os: seq<Outcome>, f: Outcome -> real): real {
    if os == [] then 0.0
    else ExpectedSum(os[..|os| - 1], f) + if os[|os| - 1].expected then f(os[|os| - 1]) else 0.0
  }

  lemma {:induction false} SumSnoc(os: seq<Outcome>, o: Outcome, f: Outcome -> real)
    ensures Sum(os + [o], f) == Sum(os, f) + f(o)
  {
    if os == [] {
      assert [o][1..] == [] && os + [o] == [o];
    } else {
      SumSnoc(os[1..], o, f);
      assert (os + [o])[1..] == os[1..] + [o];
    }
  }

  lemma {:induction false} PositivesSum(os: seq<Outcome>, f: Outcome -> real)
    ensures Sum(Positives(os), f) == ExpectedSum(os, f) && |Positives(os)| == CountPositives(os)
  {
    if os != [] {
      var front, last := os[..|os| - 1], os[|os| - 1];
      PositivesSum(front, f);
      SumSnoc(Positives(front), last, f);
      assert Positives(front) + [] == Positives(front);
    }
  }

  /** The mean of a value over the expected records, rounded, and zero without any. */
  function ExpectedMean(os: seq<Outcome>, f: Outcome -> real): real {
    if Asked(os) == {} then 0.0 else Round4(ExpectedSum(os, f) / |Asked(os)| as real)
  }

  lemma MeanIsExpectedMean(os: seq<Outcome>, f: Outcome -> real)
    requires Sound(os)
    ensures MeanOf(Positives(os), f) == ExpectedMean(os, f)
  {
    PositivesSum(os, f);
    CountsAreSizes(os);
    hide Sum, Positives, Round4, CountPositives, ExpectedSum, Asked;
  }

  /** A share of a whole, and what stands for it where there is no whole. */
  lemma RatioMeans(n: nat, total: nat, otherwise: real)
    ensures if total == 0 then Ratio(n, total, otherwise) == otherwise
            else Ratio(n, total, otherwise) * total as real == n as real
  {
  }

  /** The harmonic mean of two rates that are not both zero. */
  lemma HarmonicMeans(p: real, r: real)
    ensures if p + r == 0.0 then Harmonic(p, r) == 0.0 else Harmonic(p, r) * (p + r) == 2.0 * p * r
  {
    var product := 2.0 * p * r;
    if p + r != 0.0 {
      assert product / (p + r) * (p + r) == product;
    }
  }

  /** The rates of the report in terms of the assessed records. */
  ghost predicate ReportsRates(m: Metrics, os: seq<Outcome>, threshold: real, margin: Option<real>) {
    var precision, recall := Ratio(|Hits(os)|, |Emitting(os)|, 1.0), Ratio(|Hits(os)|, |Asked(os)|, 0.0);
    && m.threshold == Round4(threshold) && m.scoreMargin == margin
    && m.precision == Round4(precision) && m.recall == Round4(recall) && m.passageHit == m.recall
    && m.f1 == Round4(Harmonic(precision, recall))
    && m.negativeFpr == Round4(Ratio(|Alarms(os)|, |Unasked(os)|, 0.0))
    && m.evidencePrecision == Round4(Ratio(m.relevantRetained, m.retained, 1.0))
  }

  /** Its means, each over the expected records. */
  ghost predicate ReportsMeans(m: Metrics, os: seq<Outcome>) {
    && m.mrr == ExpectedMean(os, (o: Outcome) => o.mrr)
    && m.ndcg == ExpectedMean(os, (o: Outcome) => o.ndcg)
    && m.passagePrecision == ExpectedMean(os, (o: Outcome) => o.passagePrecision)
    && m.macroContextPrecision == ExpectedMean(os, (o: Outcome) => o.contextPrecision)
    && m.sourceHit == ExpectedMean(os, (o: Outcome) => o.sourceHit)
    && m.evidenceRecall == ExpectedMean(os, (o: Outcome) => o.evidenceRecall)
    && m.documentRecall == ExpectedMean(os, (o: Outcome) => o.documentRecall)
  }

  lemma AssessmentsSound(records: seq<Record>, threshold: real, margin: Option<real>, d: Discount)
    ensures Sound(Assessments(records, threshold, margin, d))
  {
    hide Assess;
    var os := Assessments(records, threshold, margin, d);
    forall i | 0 <= i < |os| && os[i].flagged > 0 ensures os[i].retained > 0 {
      CorrectIffUseful(records[i], threshold, margin, d);
    }
  }

  lemma RatesMean(os: seq<Outcome>, threshold: real, margin: Option<real>)
    requires Sound(os)
    ensures ReportsRates(MetricsOf(os, threshold, margin), os, threshold, margin)
  {
    CountsAreSizes(os);
    hide Sound, Count, CountPositives, Round4, SumFlagged, SumRetained, Positives, Hits, Emitting, Asked, Unasked,
      Alarms, Ratio, Harmonic, MeanOf;
  }

  lemma MeansMean(os: seq<Outcome>, threshold: real, margin: Option<real>)
    requires Sound(os)
    ensures ReportsMeans(MetricsOf(os, threshold, margin), os)
  {
    hide *;
    MeanIsExpectedMean(os, (o: Outcome) => o.mrr);
    MeanIsExpectedMean(os, (o: Outcome) => o.ndcg);
    MeanIsExpectedMean(os, (o: Outcome) => o.passagePrecision);
    MeanIsExpectedMean(os, (o: Outcome) => o.contextPrecision);
    MeanIsExpectedMean(os, (o: Outcome) => o.sourceHit);
    MeanIsExpectedMean(os, (o: Outcome) => o.evidenceRecall);
    MeanIsExpectedMean(os, (o: Outcome) => o.documentRecall);
    MeansOfReport(os, threshold, margin);
  }

  lemma MeansOfReport(os: seq<Outcome>, threshold: real, margin: Option<real>)
    requires MeanOf(Positives(os), (o: Outcome) => o.mrr) == ExpectedMean(os, (o: Outcome) => o.mrr)
    requires MeanOf(Positives(os), (o: Outcome) => o.ndcg) == ExpectedMean(os, (o: Outcome) => o.ndcg)
    requires MeanOf(Positives(os), (o: Outcome) => o.passagePrecision)
          == ExpectedMean(os, (o: Outcome) => o.passagePrecision)
    requires MeanOf(Positives(os), (o: Outcome) => o.contextPrecision)
          == ExpectedMean(os, (o: Outcome) => o.contextPrecision)
    requires MeanOf(Positives(os), (o: Outcome) => o.sourceHit) == ExpectedMean(os, (o: Outcome) => o.sourceHit)
    requires MeanOf(Positives(os), (o: Outcome) => o.evidenceRecall)
          == ExpectedMean(os, (o: Outcome) => o.evidenceRecall)
    requires MeanOf(Positives(os), (o: Outcome) => o.documentRecall)
          == ExpectedMean(os, (o: Outcome) => o.documentRecall)
    ensures ReportsMeans(MetricsOf(os, threshold, margin), os)
  {
    hide Count, CountPositives, MeanOf, ExpectedMean, Round4, SumFlagged, SumRetained, Positives, Ratio, Harmonic;
  }

  /** The report of the records at an operating point, figure by figure. */
  lemma MetricsMean(records: seq<Record>, threshold: real, margin: Option<real>, d: Discount)
    ensures ReportsRates(MetricsAt(records, threshold, margin, d), Assessments(records, threshold, margin, d),
                         threshold, margin)
    ensures ReportsMeans(MetricsAt(records, threshold, margin, d), Assessments(records, threshold, margin, d))
  {
    hide *;
    var os := Assessments(records, threshold, margin, d);
    AssessmentsSound(records, threshold, margin, d);
    RatesMean(os, threshold, margin);
    MeansMean(os, threshold, margin);
    MetricsOfAssessments(records, threshold, margin, d);
  }

  lemma MetricsOfAssessments(records: seq<Record>, threshold: real, margin: Option<real>, d: Discount)
    ensures MetricsAt(records, threshold, margin, d)
         == MetricsOf(Assessments(records, threshold, margin, d), threshold, margin)
  {
    hide MetricsOf, Assessments;
  }

  /** Its two totals, record by record. */
  lemma TotalsMean(records: seq<Record>, threshold: real, margin: Option<real>, d: Discount)
    ensures var m := MetricsAt(records, threshold, margin, d);
      if records == [] then m.retained == m.relevantRetained == 0
      else
        var n := |records| - 1;
        var o, before := Assess(records[n], threshold, margin, d), MetricsAt(records[..n], threshold, margin, d);
        m.retained == before.retained + o.retained && m.relevantRetained == before.relevantRetained + o.flagged
  {
    hide Assess;
    var os := Assessments(records, threshold, margin, d);
    TotalsOfReport(os, threshold, margin);
    if records != [] {
      var n := |records| - 1;
      assert os[..n] == Assessments(records[..n], threshold, margin, d);
      TotalsOfReport(os[..n], threshold, margin);
      assert os[..n + 1] == os;
      SumsPrefix(os, n);
    }
    hide MetricsOf;
  }

  lemma TotalsOfReport(os: seq<Outcome>, threshold: real, margin: Option<real>)
    ensures MetricsOf(os, threshold, margin).retained == SumRetained(os)
    ensures MetricsOf(os, threshold, margin).relevantRetained == SumFlagged(os)
  {
    hide Count, CountPositives, MeanOf, Round4, Ratio, Harmonic, Positives;
  }

  // ---- The mean nDCG ----

  lemma {:induction false} SumInUnit(os: seq<Outcome>, f: Outcome -> real)
    requires forall i :: 0 <= i < |os| ==> 0.0 <= f(os[i]) <= 1.0
    ensures 0.0 <= Sum(os, f) <= |os| as real
  {
    if os != [] {
      SumInUnit(os[1..], f);
    }
  }

  lemma {:induction false} PositivesAreExpected(os: seq<Outcome>)
    ensures forall o :: o in Positives(os) ==> o in os && o.expected
  {
    if os != [] {
      PositivesAreExpected(os[..|os| - 1]);
    }
  }

  lemma MeanInUnit(ps: seq<Outcome>, f: Outcome -> real)
    requires forall o :: o in ps ==> 0.0 <= f(o) <= 1.0
    ensures 0.0 <= MeanOf(ps, f) <= 1.0
  {
    SumInUnit(ps, f);
    if ps != [] {
      FractionInUnit(Sum(ps, f), |ps| as real);
      Round4InUnit(Sum(ps, f) / |ps| as real);
    }
    hide Round4, Sum;
  }

  /** The figure that the nDCG gate reads is a fraction if every expected record has evidence groups or at most one
      relevant chunk among the first three it retains. */
  lemma MeanNdcgInUnit(records: seq<Record>, threshold: real, margin: Option<real>, d: Discount)
    requires IsDiscount(d)
    requires forall r :: r in records && r.expected ==>
      r.evidenceGroups != [] || CountTrue(FirstFlags(r, threshold, margin)) <= 1
    ensures 0.0 <= MetricsAt(records, threshold, margin, d).ndcg <= 1.0
  {
    hide Assess, FirstFlags, CountTrue, MeanOf, Positives;
    var os := Assessments(records, threshold, margin, d);
    PositivesAreExpected(os);
    forall o | o in Positives(os) ensures 0.0 <= o.ndcg <= 1.0 {
      var i :| 0 <= i < |os| && os[i] == o;
      AssessedNdcgInUnit(records[i], threshold, margin, d);
    }
    MeanInUnit(Positives(os), (o: Outcome) => o.ndcg);
  }

  // ---- Conservation and monotonicity ----

  /** Every record that emits anything is a true or a false positive, and no other record is. */
  lemma {:induction false} EmissionsAreClassified(records: seq<Record>, threshold: real, margin: Option<real>,
      d: Discount)
    ensures var os := Assessments(records, threshold, margin, d);
      Count(os, Hit) + Count(os, Miss) == Count(os, Emits)
  {
    hide Assess;
    var os := Assessments(records, threshold, margin, d);
    if records != [] {
      var n := |records| - 1;
      EmissionsAreClassified(records[..n], threshold, margin, d);
      assert os[..n] == Assessments(records[..n], threshold, margin, d);
      CorrectIffUseful(records[n], threshold, margin, d);
      assert os[..n + 1] == os;
      CountPrefix(os, n, Hit);
      CountPrefix(os, n, Miss);
      CountPrefix(os, n, Emits);
    }
  }

  lemma {:induction false} CountMonotone(a: seq<Outcome>, b: seq<Outcome>, p: Outcome -> bool)
    requires |a| == |b| && forall i :: 0 <= i < |a| && p(a[i]) ==> p(b[i])
    ensures Count(a, p) <= Count(b, p)
    ensures (forall i :: 0 <= i < |a| ==> p(a[i]) == p(b[i])) ==> Count(a, p) == Count(b, p)
  {
    if a != [] {
      var n := |a| - 1;
      var x, y := a[..n], b[..n];
      assert forall i :: 0 <= i < n ==> x[i] == a[i] && y[i] == b[i];
      CountMonotone(x, y, p);
    }
  }

  ghost predicate AllDescending(records: seq<Record>) {
    forall i :: 0 <= i < |records| ==> Descending(records[i].chunks)
  }

  lemma RatioMonotone(a: nat, b: nat, total: nat)
    requires a <= b
    ensures Ratio(a, total, 0.0) <= Ratio(b, total, 0.0)
  {
    if total > 0 { FractionMonotone(a as real, b as real, total as real); }
  }

  lemma RatesOf(records: seq<Record>, threshold: real, margin: Option<real>, d: Discount)
    ensures var os, m := Assessments(records, threshold, margin, d), MetricsAt(records, threshold, margin, d);
      && m.recall == Round4(RecallOf(os)) && m.negativeFpr == Round4(NegativeFprOf(os)) && |os| == |records|
  {
  }

  /** One list of outcomes loses hits and false alarms against another over the same records. */
  ghost predicate Loses(strict: seq<Outcome>, loose: seq<Outcome>) {
    && |strict| == |loose|
    && (forall i :: 0 <= i < |strict| ==> strict[i].expected == loose[i].expected)
    && (forall i :: 0 <= i < |strict| && Hit(strict[i]) ==> Hit(loose[i]))
    && (forall i :: 0 <= i < |strict| && FalseAlarm(strict[i]) ==> FalseAlarm(loose[i]))
  }

  lemma RatesMonotone(strict: seq<Outcome>, loose: seq<Outcome>)
    requires Loses(strict, loose)
    ensures RecallOf(strict) <= RecallOf(loose) && NegativeFprOf(strict) <= NegativeFprOf(loose)
  {
    CountMonotone(strict, loose, Hit);
    CountMonotone(strict, loose, FalseAlarm);
    CountMonotone(strict, loose, Expected);
    hide Ratio, Count;
    RatioMonotone(Count(strict, Hit), Count(loose, Hit), Count(loose, Expected));
    RatioMonotone(Count(strict, FalseAlarm), Count(loose, FalseAlarm), |loose| - CountPositives(loose));
  }

  /** Raising the threshold or narrowing the margin never raises recall or the false-positive rate, and the
      margin has no influence on the false-positive rate. Both hold for the rounded figures as well. */
  lemma GateMonotone(records: seq<Record>, low: real, high: real, wide: Option<real>, narrow: Option<real>, d: Discount)
    requires AllDescending(records) && low <= high
    requires AtLeastAsWide(wide, narrow) && NonNegative(narrow) && NonNegative(wide)
    ensures MetricsAt(records, high, narrow, d).recall <= MetricsAt(records, low, wide, d).recall
    ensures MetricsAt(records, high, narrow, d).negativeFpr <= MetricsAt(records, low, wide, d).negativeFpr
    ensures RecallOf(Assessments(records, high, narrow, d)) <= RecallOf(Assessments(records, low, wide, d))
    ensures NegativeFprOf(Assessments(records, high, narrow, d)) <= NegativeFprOf(Assessments(records, low, wide, d))
  {
    var strict, loose := Assessments(records, high, narrow, d), Assessments(records, low, wide, d);
    AssessmentsMonotone(records, low, high, wide, narrow, d);
    RatesMonotone(strict, loose);
    RatesOf(records, high, narrow, d);
    RatesOf(records, low, wide, d);
    hide RecallOf, NegativeFprOf, Round4, Assessments, MetricsAt;
    Round4Monotone(RecallOf(strict), RecallOf(loose));
    Round4Monotone(NegativeFprOf(strict), NegativeFprOf(loose));
  }

  /** Whether anything is emitted, and so the false-positive rate, does not depend on the margin at all. */
  lemma MarginLeavesFalseAlarms(records: seq<Record>, threshold: real, m: Option<real>, n: Option<real>, d: Discount)
    requires AllDescending(records) && NonNegative(m) && NonNegative(n)
    ensures MetricsAt(records, threshold, m, d).negativeFpr == MetricsAt(records, threshold, n, d).negativeFpr
  {
    MarginAgainstNone(records, threshold, m, d);
    MarginAgainstNone(records, threshold, n, d);
  }

  lemma MarginAgainstNone(records: seq<Record>, threshold: real, m: Option<real>, d: Discount)
    requires AllDescending(records) && NonNegative(m)
    ensures MetricsAt(records, threshold, m, d).negativeFpr == MetricsAt(records, threshold, None, d).negativeFpr
  {
    hide Assess, Count, MetricsAt, Round4, Ratio;
    var a, b := Assessments(records, threshold, m, d), Assessments(records, threshold, None, d);
    forall i | 0 <= i < |records| ensures FalseAlarm(a[i]) == FalseAlarm(b[i]) {
      AssessMonotone(records[i], threshold, threshold, None, m, d);
    }
    CountMonotone(a, b, FalseAlarm);
    CountMonotone(a, b, Expected);
    RatesOf(records, threshold, m, d);
    RatesOf(records, threshold, None, d);
  }

  lemma AssessmentsMonotone(records: seq<Record>, low: real, high: real, wide: Option<real>, narrow: Option<real>,
      d: Discount)
    requires AllDescending(records) && low <= high
    requires AtLeastAsWide(wide, narrow) && NonNegative(narrow) && NonNegative(wide)
    ensures Loses(Assessments(records, high, narrow, d), Assessments(records, low, wide, d))
  {
    hide Assess;
    forall i | 0 <= i < |records|
      ensures Hit(Assess(records[i], high, narrow, d)) ==> Hit(Assess(records[i], low, wide, d))
      ensures FalseAlarm(Assess(records[i], high, narrow, d)) ==> FalseAlarm(Assess(records[i], low, wide, d))
    {
      AssessMonotone(records[i], low, high, wide, narrow, d);
    }
  }

  // ---- Slices ----

  datatype SliceKey = SourceFormat | Language

  datatype Slice = Slice(samples: nat, recall: real, evidencePrecision: real)

  function Label(record: Record, key: SliceKey): string {
    var value := if key.SourceFormat? then record.sourceFormat else record.language;
    if value == "" then "unknown" else value
  }

  predicate Belongs(record: Record, key: SliceKey, tag: string) {
    record.expected && Label(record, key) == tag
  }

  /** The expected records carrying one tag, in order. */
  function Members(records: seq<Record>, key: SliceKey, tag: string): seq<Record> {
    if records == [] then []
    else
      var last := records[|records| - 1];
      Members(records[..|records| - 1], key, tag) + if Belongs(last, key, tag) then [last] else []
  }

  function Labels(records: seq<Record>, key: SliceKey): set<string> {
    set i | 0 <= i < |records| && records[i].expected :: Label(records[i], key)
  }

  ghost function SliceOf(members: seq<Record>, threshold: real, margin: Option<real>, d: Discount): Slice {
    var os := Assessments(members, threshold, margin, d);
    Slice(|members|, Round4(Ratio(Count(os, Hit), |members|, 0.0)), Round4(Ratio(SumFlagged(os), SumRetained(os), 1.0)))
  }

  ghost function SlicesAt(records: seq<Record>, key: SliceKey, threshold: real, margin: Option<real>,
      d: Discount): map<string, Slice> {
    map tag | tag in Labels(records, key) :: SliceOf(Members(records, key, tag), threshold, margin, d)
  }

  /** The figures of a slice in terms of its members. */
  lemma SliceMeans(members: seq<Record>, threshold: real, margin: Option<real>, d: Discount)
    requires forall r :: r in members ==> r.expected
    ensures var s, os := SliceOf(members, threshold, margin, d), Assessments(members, threshold, margin, d);
      var m := MetricsAt(members, threshold, margin, d);
      && s.samples == |members|
      && s.recall == Round4(if members == [] then 0.0 else |Hits(os)| as real / |members| as real)
      && s.evidencePrecision == m.evidencePrecision
  {
    AssessmentsSound(members, threshold, margin, d);
    CountsAreSizes(Assessments(members, threshold, margin, d));
    hide Count, CountPositives, MeanOf, Round4, Harmonic, Positives, Assess, SumFlagged, SumRetained;
  }

  lemma MembersPrefix(records: seq<Record>, i: nat, key: SliceKey)
    requires i < |records|
    ensures forall tag :: (Members(records[..i + 1], key, tag) ==
      Members(records[..i], key, tag) + if Belongs(records[i], key, tag) then [records[i]] else [])
    ensures Labels(records[..i + 1], key) ==
      Labels(records[..i], key) + if records[i].expected then {Label(records[i], key)} else {}
  {
    var longer := records[..i + 1];
    assert longer[..i] == records[..i] && longer == records[..i] + [records[i]];
    assert longer[i] == records[i];
    forall j | 0 <= j < i && records[j].expected ensures Label(records[j], key) in Labels(longer, key) {
      assert longer[j] == records[j];
    }
  }

  lemma {:induction false} MembersBelong(records: seq<Record>, key: SliceKey, tag: string)
    ensures forall r :: r in Members(records, key, tag) ==> Belongs(r, key, tag)
    ensures Members(records, key, tag) != [] <==> tag in Labels(records, key)
  {
    if records == [] {
      assert Labels(records, key) == {};
    } else {
      var n := |records| - 1;
      MembersBelong(records[..n], key, tag);
      MembersPrefix(records, n, key);
      assert records[..n + 1] == records;
    }
  }

  /** There is a slice for every format, or language, of an expected record, an empty one counting as unknown; and its
      members are the expected records that have it. */
  lemma SlicesMean(records: seq<Record>, key: SliceKey, threshold: real, margin: Option<real>, d: Discount, tag: string)
    ensures tag in SlicesAt(records, key, threshold, margin, d) <==> exists r :: r in Members(records, key, tag)
    ensures forall r :: r in Members(records, key, tag) <==>
      && r in records && r.expected
      && var value := if key == SourceFormat then r.sourceFormat else r.language;
         (value != "" && value == tag) || (value == "" && tag == "unknown")
  {
    hide SliceOf;
    MembersBelong(records, key, tag);
    MembersAll(records, key, tag);
    if Members(records, key, tag) != [] {
      assert Members(records, key, tag)[0] in Members(records, key, tag);
    }
  }

  lemma {:induction false} MembersAll(records: seq<Record>, key: SliceKey, tag: string)
    ensures forall r :: r in Members(records, key, tag) <==> r in records && Belongs(r, key, tag)
  {
    if records != [] {
      MembersAll(records[..|records| - 1], key, tag);
      assert records == records[..|records| - 1] + [records[|records| - 1]];
    }
  }

  method Group(records: seq<Record>, key: SliceKey) returns (grouped: map<string, seq<Record>>)
    ensures grouped.Keys == Labels(records, key)
    ensures forall tag :: tag in grouped ==> grouped[tag] == Members(records, key, tag)
  {
    grouped := map[];
    for i := 0 to |records|
      invariant grouped.Keys == Labels(records[..i], key)
      invariant forall tag :: tag in grouped ==> grouped[tag] == Members(records[..i], key, tag)
    {
      MembersPrefix(records, i, key);
      var r := records[i];
      if r.expected {
        var tag := Label(r, key);
        MembersBelong(records[..i], key, tag);
        var soFar := if tag in grouped then grouped[tag] else [];
        grouped := grouped[tag := soFar + [r]];
      }
    }
    assert records[..|records|] == records;
  }

  lemma AssessCounts(record: Record, threshold: real, margin: Option<real>, d: Discount)
    ensures var kept := Retained(record.chunks, threshold, MarginFor(record, margin));
      var o := Assess(record, threshold, margin, d);
      o.retained == |kept| && o.flagged == CountTrue(EvidenceFlags(kept, record))
  {
  }

  method MeasureSlice(members: seq<Record>, threshold: real, margin: Option<real>, d: Discount) returns (s: Slice)
    requires members != [] && forall r :: r in members ==> r.expected
    ensures s == SliceOf(members, threshold, margin, d)
  {
    hide Assess, EvidenceFlags, Retained, Round4, Ratio;
    ghost var os := Assessments(members, threshold, margin, d);
    var correct, retained, relevant := 0, 0, 0;
    for i := 0 to |members|
      invariant correct == Count(os[..i], Hit) && retained == SumRetained(os[..i]) && relevant == SumFlagged(os[..i])
    {
      var kept := Retained(members[i].chunks, threshold, MarginFor(members[i], margin));
      var flags := EvidenceFlags(kept, members[i]);
      CountPrefix(os, i, Hit);
      SumsPrefix(os, i);
      CountPositive(flags);
      AssessCounts(members[i], threshold, margin, d);
      assert members[i] in members;
      correct := correct + if true in flags then 1 else 0;
      retained := retained + |kept|;
      relevant := relevant + CountTrue(flags);
    }
    assert os[..|os|] == os;
    s := Slice(|members|, Round4(Ratio(correct, |members|, 0.0)), Round4(Ratio(relevant, retained, 1.0)));
  }

  method PositiveThresholdSlices(records: seq<Record>, threshold: real, margin: Option<real>, key: SliceKey,
      d: Discount)
    returns (slices: map<string, Slice>)
    ensures slices == SlicesAt(records, key, threshold, margin, d)
  {
    hide Assess, SliceOf, Members, Labels;
    var grouped := Group(records, key);
    slices := map[];
    var todo := grouped.Keys;
    while todo != {}
      invariant todo <= grouped.Keys && slices.Keys == grouped.Keys - todo
      invariant forall tag :: tag in slices ==>
        slices[tag] == SliceOf(Members(records, key, tag), threshold, margin, d)
      decreases |todo|
    {
      var tag :| tag in todo;
      MembersBelong(records, key, tag);
      var s := MeasureSlice(grouped[tag], threshold, margin, d);
      slices := slices[tag := s];
      todo := todo - {tag};
    }
  }

  predicate Distinct(ks: seq<string>) {
    forall i, j :: 0 <= i < j < |ks| ==> ks[i] != ks[j]
  }

  /** A count taken slice by slice and added up. */
  ghost function SliceSum(ks: seq<string>, records: seq<Record>, key: SliceKey, threshold: real,
      margin: Option<real>, d: Discount, p: Outcome -> bool): nat {
    if ks == [] then 0
    else
      Count(Assessments(Members(records, key, ks[0]), threshold, margin, d), p) +
      SliceSum(ks[1..], records, key, threshold, margin, d, p)
  }

  lemma CountWithLast(members: seq<Record>, r: Record, threshold: real, margin: Option<real>, d: Discount,
      p: Outcome -> bool)
    ensures Count(Assessments(members + [r], threshold, margin, d), p) ==
      Count(Assessments(members, threshold, margin, d), p) + if p(Assess(r, threshold, margin, d)) then 1 else 0
  {
    hide Assess;
    var os := Assessments(members + [r], threshold, margin, d);
    assert os[..|members|] == Assessments(members, threshold, margin, d);
    CountPrefix(os, |members|, p);
    assert os[..|members| + 1] == os;
  }

  lemma {:induction false} SliceSumWithLast(ks: seq<string>, records: seq<Record>, key: SliceKey, threshold: real,
      margin: Option<real>, d: Discount, p: Outcome -> bool)
    requires records != [] && Distinct(ks) && forall o :: p(o) ==> o.expected
    ensures var r := records[|records| - 1];
      SliceSum(ks, records, key, threshold, margin, d, p) ==
        SliceSum(ks, records[..|records| - 1], key, threshold, margin, d, p) +
        if p(Assess(r, threshold, margin, d)) && Label(r, key) in ks then 1 else 0
  {
    hide Assess;
    if ks != [] {
      var r := records[|records| - 1];
      var before := Members(records[..|records| - 1], key, ks[0]);
      SliceSumWithLast(ks[1..], records, key, threshold, margin, d, p);
      CountWithLast(before, r, threshold, margin, d, p);
      assert before + [] == before;
      assert Label(r, key) in ks <==> Label(r, key) == ks[0] || Label(r, key) in ks[1..];
    }
  }

  lemma {:induction false} SliceSumOfNothing(ks: seq<string>, key: SliceKey, threshold: real, margin: Option<real>,
      d: Discount, p: Outcome -> bool)
    ensures SliceSum(ks, [], key, threshold, margin, d, p) == 0
  {
    hide Assess;
    if ks != [] { SliceSumOfNothing(ks[1..], key, threshold, margin, d, p); }
  }

  lemma {:induction false} SliceSumIsCount(ks: seq<string>, records: seq<Record>, key: SliceKey, threshold: real,
      margin: Option<real>, d: Discount, p: Outcome -> bool)
    requires Distinct(ks) && (forall o :: p(o) ==> o.expected)
    requires forall i :: 0 <= i < |records| && records[i].expected ==> Label(records[i], key) in ks
    ensures SliceSum(ks, records, key, threshold, margin, d, p) == Count(Assessments(records, threshold, margin, d), p)
  {
    hide Assess;
    if records == [] {
      SliceSumOfNothing(ks, key, threshold, margin, d, p);
    } else {
      var n := |records| - 1;
      SliceSumIsCount(ks, records[..n], key, threshold, margin, d, p);
      SliceSumWithLast(ks, records, key, threshold, margin, d, p);
      CountWithLast(records[..n], records[n], threshold, margin, d, p);
      assert records[..n] + [records[n]] == records;
    }
  }

  /** Slices reassemble the whole: listed without repetition, their sample counts add up to the expected
      records and their correct counts to the true positives. */
  lemma SlicesReassemble(ks: seq<string>, records: seq<Record>, key: SliceKey, threshold: real, margin: Option<real>,
      d: Discount)
    requires Distinct(ks) && (forall k :: k in ks <==> k in Labels(records, key))
    ensures var os := Assessments(records, threshold, margin, d);
      && SliceSum(ks, records, key, threshold, margin, d, Hit) == Count(os, Hit)
      && SliceSum(ks, records, key, threshold, margin, d, Expected) == Count(os, Expected)
  {
    hide Assess;
    SliceSumIsCount(ks, records, key, threshold, margin, d, Hit);
    SliceSumIsCount(ks, records, key, threshold, margin, d, Expected);
  }

  /** The slice reaches the bar: its correct count is at least the bar's share of its samples. */
  ghost predicate Reaches(k: string, records: seq<Record>, key: SliceKey, threshold: real, margin: Option<real>,
      d: Discount, bar: real) {
    var os := Assessments(Members(records, key, k), threshold, margin, d);
    Count(os, Hit) as real >= bar * Count(os, Expected) as real
  }

  lemma {:induction false} SliceSumsAtLeast(ks: seq<string>, records: seq<Record>, key: SliceKey, threshold: real,
      margin: Option<real>, d: Discount, bar: real)
    requires forall i :: 0 <= i < |ks| ==> Reaches(ks[i], records, key, threshold, margin, d, bar)
    ensures SliceSum(ks, records, key, threshold, margin, d, Hit) as real >=
      bar * SliceSum(ks, records, key, threshold, margin, d, Expected) as real
  {
    hide Assess, Members, Count;
    if ks != [] {
      SliceSumsAtLeast(ks[1..], records, key, threshold, margin, d, bar);
      assert Reaches(ks[0], records, key, threshold, margin, d, bar);
      var os := Assessments(Members(records, key, ks[0]), threshold, margin, d);
      SpreadProduct(bar, Count(os, Expected), SliceSum(ks[1..], records, key, threshold, margin, d, Expected));
    }
  }

  lemma SpreadProduct(bar: real, a: nat, b: nat)
    ensures bar * (a + b) as real == bar * a as real + bar * b as real
  {
  }

  lemma {:induction false} MembersAllExpected(members: seq<Record>, threshold: real, margin: Option<real>, d: Discount)
    requires forall r :: r in members ==> r.expected
    ensures Count(Assessments(members, threshold, margin, d), Expected) == |members|
  {
    hide Assess;
    if members != [] {
      var n := |members| - 1;
      MembersAllExpected(members[..n], threshold, margin, d);
      CountWithLast(members[..n], members[n], threshold, margin, d, Expected);
      assert members[..n] + [members[n]] == members;
    }
  }

  ghost function SliceRecall(records: seq<Record>, key: SliceKey, k: string, threshold: real, margin: Option<real>,
      d: Discount): real {
    var members := Members(records, key, k);
    Ratio(Count(Assessments(members, threshold, margin, d), Hit), |members|, 0.0)
  }

  lemma SliceReaches(records: seq<Record>, key: SliceKey, k: string, threshold: real, margin: Option<real>,
      d: Discount, bar: real)
    requires k in Labels(records, key) && SliceRecall(records, key, k, threshold, margin, d) >= bar
    ensures Reaches(k, records, key, threshold, margin, d, bar)
  {
    hide Assess, Count, Members, Labels, Ratio, Assessments;
    var members := Members(records, key, k);
    MembersBelong(records, key, k);
    MembersAllExpected(members, threshold, margin, d);
    RatioCleared(Count(Assessments(members, threshold, margin, d), Hit), |members|, bar);
  }

  /** A bar that every slice recall reaches is reached by the overall recall. */
  lemma RecallAtLeastWorstSlice(ks: seq<string>, records: seq<Record>, key: SliceKey, threshold: real,
      margin: Option<real>, d: Discount, bar: real)
    requires Distinct(ks) && ks != [] && (forall k :: k in ks <==> k in Labels(records, key))
    requires forall k :: k in ks ==> SliceRecall(records, key, k, threshold, margin, d) >= bar
    ensures RecallOf(Assessments(records, threshold, margin, d)) >= bar
  {
    hide Assess, Count, SliceSum, SliceRecall, Labels, Ratio;
    var os := Assessments(records, threshold, margin, d);
    forall i | 0 <= i < |ks| ensures Reaches(ks[i], records, key, threshold, margin, d, bar) {
      assert ks[i] in ks;
      SliceReaches(records, key, ks[i], threshold, margin, d, bar);
    }
    SliceSumsAtLeast(ks, records, key, threshold, margin, d, bar);
    SlicesReassemble(ks, records, key, threshold, margin, d);
    assert ks[0] in ks;
    SomeExpected(records, key, threshold, margin, d);
    RatioCleared(Count(os, Hit), Count(os, Expected), bar);
  }

  lemma RatioCleared(n: nat, total: nat, bar: real)
    requires total > 0
    ensures Ratio(n, total, 0.0) >= bar <==> n as real >= bar * total as real
  {
    hide Assess;
    assert n as real / total as real * total as real == n as real;
    SignOfFactor(n as real / total as real - bar, total as real);
  }

  lemma {:induction false} SomeExpected(records: seq<Record>, key: SliceKey, threshold: real, margin: Option<real>,
      d: Discount)
    ensures Labels(records, key) != {} ==> Count(Assessments(records, threshold, margin, d), Expected) > 0
  {
    hide Assess;
    if records == [] {
      assert Labels(records, key) == {};
    } else {
      var n := |records| - 1;
      SomeExpected(records[..n], key, threshold, margin, d);
      MembersPrefix(records, n, key);
      CountWithLast(records[..n], records[n], threshold, margin, d, Expected);
      assert records[..n] + [records[n]] == records && records[..n + 1] == records;
    }
  }
}
