/** Choosing the release operating point, and the release gates that judge the choice. */
module Calibration {
  import opened Support
  import opened Rounding
  import opened RankingMetrics
  import opened Thresholds
  import opened OperatingPoint

  const MIN_CALIBRATED_RERANK_SCORE := 0.80
  const MIN_PASSAGE_HIT_AT_3 := 0.92
  const MIN_SOURCE_HIT_AT_3 := 0.95
  const MIN_PASSAGE_MRR_AT_3 := 0.85
  const MIN_PASSAGE_NDCG_AT_3 := 0.87
  const MIN_MACRO_CONTEXT_EVIDENCE_PRECISION := 0.65
  const MIN_DEPLOYED_EVIDENCE_PRECISION := 0.55
  const MIN_EVIDENCE_GROUP_RECALL_AT_3 := 0.90
  const MIN_DOCUMENT_RECALL_AT_3 := 0.95
  const MIN_DEPLOYED_QUERY_PRECISION := 0.95
  const MIN_DEPLOYED_QUERY_RECALL := 0.90
  const MAX_UNANSWERABLE_FALSE_POSITIVE_RATE := 0.05
  const MIN_FORMAT_RECALL := 0.75
  const MIN_FORMAT_EVIDENCE_PRECISION := 0.45
  const MIN_LANGUAGE_RECALL := 0.85

  const MARGINS: seq<Option<real>> :=
    [Some(0.0), Some(0.01), Some(0.02), Some(0.03), Some(0.05), Some(0.08), Some(0.1), None]

  // ---- The least value of a dictionary ----

  lemma {:induction false} HasLeast(m: map<string, real>)
    requires m != map[]
    ensures exists k :: k in m && forall j :: j in m ==> m[k] <= m[j]
    decreases |m|
  {
    var k :| k in m;
    var rest := m - {k};
    assert forall j :: j in m ==> j == k || j in rest;
    if rest == map[] {
      assert forall j :: j in m ==> j == k;
    } else {
      assert rest.Keys == m.Keys - {k};
      HasLeast(rest);
      var r :| r in rest && forall j :: j in rest ==> rest[r] <= rest[j];
      assert r in m && rest[r] == m[r];
      var least := if m[k] <= m[r] then k else r;
      assert forall j :: j in m ==> m[least] <= m[j];
    }
  }

  /** min(m.values()) */
  ghost function Least(m: map<string, real>): (v: real)
    requires m != map[]
    ensures (forall j :: j in m ==> v <= m[j]) && exists k :: k in m && m[k] == v
  {
    HasLeast(m);
    var k :| k in m && forall j :: j in m ==> m[k] <= m[j];
    m[k]
  }

  method FindLeast(m: map<string, real>) returns (v: real)
    requires m != map[]
    ensures v == Least(m)
  {
    var first :| first in m;
    v := m[first];
    var todo := m.Keys;
    while todo != {}
      invariant todo <= m.Keys
      invariant exists k :: k in m && m[k] == v
      invariant forall j :: j in m && j !in todo ==> v <= m[j]
      decreases |todo|
    {
      var k :| k in todo;
      if m[k] < v { v := m[k]; }
      todo := todo - {k};
    }
  }

  function Recalls(slices: map<string, Slice>): map<string, real> {
    map k | k in slices :: slices[k].recall
  }

  function Precisions(slices: map<string, Slice>): map<string, real> {
    map k | k in slices :: slices[k].evidencePrecision
  }

  ghost predicate LeastAtLeast(m: map<string, real>, bar: real) {
    m != map[] && Least(m) >= bar
  }

  method CheckLeast(m: map<string, real>, bar: real) returns (ok: bool)
    ensures ok <==> LeastAtLeast(m, bar)
  {
    if m == map[] { return false; }
    var v := FindLeast(m);
    ok := v >= bar;
  }

  // ---- The release gates, in calibrated mode ----

  /** What a calibration reports. None and empty slices stand for the missing entries. */
  datatype Recommendation = Recommendation(metrics: Option<Metrics>, byFormat: map<string, Slice>,
      byLanguage: map<string, Slice>)

  /** The gates that read the calibration report. A missing figure reads as zero. */
  datatype Gates = Gates(
    passageHit: bool, sourceHit: bool, passageMrr: bool, passageNdcg: bool, macroContextPrecision: bool,
    evidenceGroupRecall: bool, documentRecall: bool, queryPrecision: bool, queryRecall: bool, evidencePrecision: bool,
    negativeFpr: bool, formatRecall: bool, formatEvidencePrecision: bool, languageRecall: bool)
  {
    predicate AllPass() {
      && passageHit && sourceHit && passageMrr && passageNdcg && macroContextPrecision && evidenceGroupRecall
      && documentRecall && queryPrecision && queryRecall && evidencePrecision && negativeFpr && formatRecall
      && formatEvidencePrecision && languageRecall
    }
  }

  function Figure(m: Option<Metrics>, read: Metrics -> real): real {
    if m.Some? then read(m.value) else 0.0
  }

  ghost function ReleaseGates(c: Recommendation): Gates {
    var t := c.metrics;
    Gates(
      Figure(t, (m: Metrics) => m.passageHit) >= MIN_PASSAGE_HIT_AT_3,
      Figure(t, (m: Metrics) => m.sourceHit) >= MIN_SOURCE_HIT_AT_3,
      Figure(t, (m: Metrics) => m.mrr) >= MIN_PASSAGE_MRR_AT_3,
      Figure(t, (m: Metrics) => m.ndcg) >= MIN_PASSAGE_NDCG_AT_3,
      Figure(t, (m: Metrics) => m.macroContextPrecision) >= MIN_MACRO_CONTEXT_EVIDENCE_PRECISION,
      Figure(t, (m: Metrics) => m.evidenceRecall) >= MIN_EVIDENCE_GROUP_RECALL_AT_3,
      Figure(t, (m: Metrics) => m.documentRecall) >= MIN_DOCUMENT_RECALL_AT_3,
      Figure(t, (m: Metrics) => m.precision) >= MIN_DEPLOYED_QUERY_PRECISION,
      Figure(t, (m: Metrics) => m.recall) >= MIN_DEPLOYED_QUERY_RECALL,
      Figure(t, (m: Metrics) => m.evidencePrecision) >= MIN_DEPLOYED_EVIDENCE_PRECISION,
      Figure(t, (m: Metrics) => m.negativeFpr) <= MAX_UNANSWERABLE_FALSE_POSITIVE_RATE,
      LeastAtLeast(Recalls(c.byFormat), MIN_FORMAT_RECALL),
      LeastAtLeast(Precisions(c.byFormat), MIN_FORMAT_EVIDENCE_PRECISION),
      LeastAtLeast(Recalls(c.byLanguage), MIN_LANGUAGE_RECALL))
  }

  // ---- Eligibility of a sweep point ----

  ghost predicate Eligible(records: seq<Record>, m: Metrics, d: Discount) {
    var byFormat := SlicesAt(records, SourceFormat, m.threshold, m.scoreMargin, d);
    var byLanguage := SlicesAt(records, Language, m.threshold, m.scoreMargin, d);
    && FiguresEligible(m)
    && byFormat != map[]
    && LeastAtLeast(Recalls(byFormat), MIN_FORMAT_RECALL)
    && LeastAtLeast(Precisions(byFormat), MIN_FORMAT_EVIDENCE_PRECISION)
    && byLanguage != map[]
    && LeastAtLeast(Recalls(byLanguage), MIN_LANGUAGE_RECALL)
  }

  predicate FiguresEligible(m: Metrics) {
    && m.threshold >= MIN_CALIBRATED_RERANK_SCORE
    && m.precision >= MIN_DEPLOYED_QUERY_PRECISION
    && m.recall >= MIN_DEPLOYED_QUERY_RECALL
    && m.negativeFpr <= MAX_UNANSWERABLE_FALSE_POSITIVE_RATE
    && m.evidencePrecision >= MIN_DEPLOYED_EVIDENCE_PRECISION
    && m.passageHit >= MIN_PASSAGE_HIT_AT_3
    && m.sourceHit >= MIN_SOURCE_HIT_AT_3
    && m.mrr >= MIN_PASSAGE_MRR_AT_3
    && m.ndcg >= MIN_PASSAGE_NDCG_AT_3
    && m.macroContextPrecision >= MIN_MACRO_CONTEXT_EVIDENCE_PRECISION
    && m.evidenceRecall >= MIN_EVIDENCE_GROUP_RECALL_AT_3
    && m.documentRecall >= MIN_DOCUMENT_RECALL_AT_3
  }

  /** The report that selecting a point produces. */
  ghost function Selecting(records: seq<Record>, m: Metrics, d: Discount): Recommendation {
    Recommendation(Some(m), SlicesAt(records, SourceFormat, m.threshold, m.scoreMargin, d),
            SlicesAt(records, Language, m.threshold, m.scoreMargin, d))
  }

  /** The two separately written checks agree on every report, up to the threshold floor that only one has. */
  lemma EligibleIffGates(records: seq<Record>, m: Metrics, d: Discount)
    ensures Eligible(records, m, d) <==>
      m.threshold >= MIN_CALIBRATED_RERANK_SCORE && ReleaseGates(Selecting(records, m, d)).AllPass()
  {
    hide SlicesAt;
    var byFormat := SlicesAt(records, SourceFormat, m.threshold, m.scoreMargin, d);
    var byLanguage := SlicesAt(records, Language, m.threshold, m.scoreMargin, d);
    EmptyTogether(byFormat);
    EmptyTogether(byLanguage);
  }

  lemma EmptyTogether(slices: map<string, Slice>)
    ensures slices == map[] <==> Recalls(slices) == map[]
  {
    if k :| k in slices {
      assert k in Recalls(slices);
    } else {
      assert slices == map[] && Recalls(slices) == map[];
    }
  }

  /** Every value reaches the bar, and there is one. */
  lemma LeastReaches(m: map<string, real>, bar: real)
    ensures LeastAtLeast(m, bar) <==> m != map[] && forall k :: k in m ==> m[k] >= bar
  {
  }

  /** Eligibility in figures: the floors of the operating point, and those of every slice by format and by language,
      of which there must be one each. */
  lemma EligibleInFigures(records: seq<Record>, m: Metrics, d: Discount)
    ensures var formats := SlicesAt(records, SourceFormat, m.threshold, m.scoreMargin, d);
      var languages := SlicesAt(records, Language, m.threshold, m.scoreMargin, d);
      Eligible(records, m, d) <==>
        && m.threshold >= 0.80
        && m.precision >= 0.95 && m.recall >= 0.90 && m.negativeFpr <= 0.05 && m.evidencePrecision >= 0.55
        && m.passageHit >= 0.92 && m.sourceHit >= 0.95 && m.mrr >= 0.85 && m.ndcg >= 0.87
        && m.macroContextPrecision >= 0.65 && m.evidenceRecall >= 0.90 && m.documentRecall >= 0.95
        && formats != map[] && languages != map[]
        && (forall k :: k in formats ==> formats[k].recall >= 0.75 && formats[k].evidencePrecision >= 0.45)
        && (forall k :: k in languages ==> languages[k].recall >= 0.85)
  {
    hide SlicesAt;
    var formats := SlicesAt(records, SourceFormat, m.threshold, m.scoreMargin, d);
    var languages := SlicesAt(records, Language, m.threshold, m.scoreMargin, d);
    SlicesReach(formats, 0.75, 0.45);
    SlicesReach(languages, 0.85, 0.0);
    hide LeastAtLeast;
  }

  lemma SlicesReach(slices: map<string, Slice>, recall: real, precision: real)
    ensures LeastAtLeast(Recalls(slices), recall) <==>
      slices != map[] && forall k :: k in slices ==> slices[k].recall >= recall
    ensures LeastAtLeast(Precisions(slices), precision) <==>
      slices != map[] && forall k :: k in slices ==> slices[k].evidencePrecision >= precision
  {
    LeastReaches(Recalls(slices), recall);
    LeastReaches(Precisions(slices), precision);
    hide LeastAtLeast;
    if k :| k in slices {
      assert k in Recalls(slices) && k in Precisions(slices);
      assert forall j :: j in slices ==> j in Recalls(slices) && j in Precisions(slices);
    } else {
      assert Recalls(slices) == map[] && Precisions(slices) == map[];
    }
  }

  method CheckEligible(records: seq<Record>, m: Metrics, d: Discount) returns (ok: bool)
    requires IsDiscount(d)
    ensures ok <==> Eligible(records, m, d)
  {
    hide SlicesAt;
    var byFormat := PositiveThresholdSlices(records, m.threshold, m.scoreMargin, SourceFormat, d);
    var byLanguage := PositiveThresholdSlices(records, m.threshold, m.scoreMargin, Language, d);
    var formatRecall := CheckLeast(Recalls(byFormat), MIN_FORMAT_RECALL);
    var formatPrecision := CheckLeast(Precisions(byFormat), MIN_FORMAT_EVIDENCE_PRECISION);
    var languageRecall := CheckLeast(Recalls(byLanguage), MIN_LANGUAGE_RECALL);
    ok := FiguresEligible(m) && byFormat != map[] && formatRecall && formatPrecision && byLanguage != map[]
      && languageRecall;
  }

  // ---- Selection ----

  /** The order of the selection key, first difference decides. */
  predicate Better(a: Metrics, b: Metrics) {
    if a.recall != b.recall then a.recall > b.recall
    else if a.evidencePrecision != b.evidencePrecision then a.evidencePrecision > b.evidencePrecision
    else if a.precision != b.precision then a.precision > b.precision
    else if a.retained != b.retained then a.retained < b.retained
    else a.threshold > b.threshold
  }

  /** The operating point of the sweep at position i. */
  function SweepThreshold(i: nat): real {
    (i / 8) as real / 100.0
  }

  function SweepMargin(i: nat): Option<real> {
    MARGINS[i % 8]
  }

  ghost function SweepPoint(records: seq<Record>, i: nat, d: Discount): Metrics {
    MetricsAt(records, SweepThreshold(i), SweepMargin(i), d)
  }

  /** Position i is chosen: eligible, ahead of every earlier eligible point and behind no later one. */
  ghost predicate Chosen(records: seq<Record>, i: nat, upTo: nat, d: Discount) {
    && i < upTo && Eligible(records, SweepPoint(records, i, d), d)
    && (forall j: nat :: j < i && Eligible(records, SweepPoint(records, j, d), d) ==>
         Better(SweepPoint(records, i, d), SweepPoint(records, j, d)))
    && (forall j: nat :: i < j < upTo && Eligible(records, SweepPoint(records, j, d), d) ==>
         !Better(SweepPoint(records, j, d), SweepPoint(records, i, d)))
  }

  ghost predicate NoneEligible(records: seq<Record>, upTo: nat, d: Discount) {
    forall j: nat :: j < upTo ==> !Eligible(records, SweepPoint(records, j, d), d)
  }

  lemma BetterIsStrictOrder(a: Metrics, b: Metrics, c: Metrics)
    ensures !Better(a, a)
    ensures Better(a, b) && !Better(c, b) ==> Better(a, c)
  {
  }

  /** The chosen point against any other eligible one, figure by figure: no smaller recall; at the same recall no
      smaller evidence precision; then no smaller precision, no more chunks retained, and no lower threshold. Of points
      that agree in all five it is the first. */
  lemma ChosenIsBest(records: seq<Record>, i: nat, j: nat, upTo: nat, d: Discount)
    requires Chosen(records, i, upTo, d) && j < upTo && Eligible(records, SweepPoint(records, j, d), d)
    ensures var m, q := SweepPoint(records, i, d), SweepPoint(records, j, d);
      && q.recall <= m.recall
      && (q.recall == m.recall ==>
            && q.evidencePrecision <= m.evidencePrecision
            && (q.evidencePrecision == m.evidencePrecision ==>
                  && q.precision <= m.precision
                  && (q.precision == m.precision ==>
                        && m.retained <= q.retained
                        && (m.retained == q.retained ==>
                              q.threshold <= m.threshold && (q.threshold == m.threshold ==> i <= j)))))
  {
    hide Eligible, SweepPoint;
  }

  /** The same of what a calibration recommends, over the whole sweep. */
  lemma RecommendedIsBest(records: seq<Record>, c: Recommendation, j: nat, d: Discount) returns (i: nat)
    requires Recommends(records, c, d) && c.metrics.Some?
    requires j < 800 && Eligible(records, SweepPoint(records, j, d), d)
    ensures i < 800 && c.metrics.value == SweepPoint(records, i, d) && Eligible(records, c.metrics.value, d)
    ensures var m, q := c.metrics.value, SweepPoint(records, j, d);
      && q.recall <= m.recall
      && (q.recall == m.recall ==>
            && q.evidencePrecision <= m.evidencePrecision
            && (q.evidencePrecision == m.evidencePrecision ==>
                  && q.precision <= m.precision
                  && (q.precision == m.precision ==>
                        && m.retained <= q.retained
                        && (m.retained == q.retained ==>
                              q.threshold <= m.threshold && (q.threshold == m.threshold ==> i <= j)))))
  {
    hide Eligible, SweepPoint, Selecting, MetricsAt;
    i :| i < 800 && c.metrics.value == SweepPoint(records, i, d) && Chosen(records, i, 800, d);
    ChosenIsBest(records, i, j, 800, d);
  }

  lemma ChosenAdvances(records: seq<Record>, i: nat, n: nat, d: Discount)
    requires i < n && Chosen(records, i, n, d)
    ensures var a, b := SweepPoint(records, i, d), SweepPoint(records, n, d);
      if Eligible(records, b, d) && Better(b, a) then Chosen(records, n, n + 1, d) else Chosen(records, i, n + 1, d)
  {
    hide Eligible, SweepPoint, Better;
    var a, b := SweepPoint(records, i, d), SweepPoint(records, n, d);
    if Eligible(records, b, d) && Better(b, a) {
      forall j: nat | j < n && Eligible(records, SweepPoint(records, j, d), d)
        ensures Better(b, SweepPoint(records, j, d))
      {
        BetterIsStrictOrder(b, a, SweepPoint(records, j, d));
        BetterIsStrictOrder(a, SweepPoint(records, j, d), a);
        if j < i { BetterAsymmetric(a, SweepPoint(records, j, d)); }
      }
    }
  }

  lemma BetterAsymmetric(a: Metrics, b: Metrics)
    requires Better(a, b)
    ensures !Better(b, a)
  {
  }

  /** A threshold of the sweep is reported unrounded, so the report names the point it measured. */
  lemma SweepThresholdExact(i: nat)
    requires i < 800
    ensures Round4(SweepThreshold(i)) == SweepThreshold(i) && 0.0 <= SweepThreshold(i) <= 0.99
  {
    Round4Fixed(100 * (i / 8));
    assert (100 * (i / 8)) as real / 10000.0 == (i / 8) as real / 100.0;
  }

  lemma SweepMarginRange(i: nat)
    ensures SweepMargin(i).Some? ==> 0.0 <= SweepMargin(i).value <= 0.1
  {
    assert 0 <= i % 8 < |MARGINS|;
  }

  /** The sweep has each of the hundred thresholds from 0.00 to 0.99 with each of the eight margins, at one position. */
  lemma SweepCovers(t: nat, g: nat, i: nat)
    requires t < 100 && g < 8 && i < 800
    ensures var margins := [Some(0.0), Some(0.01), Some(0.02), Some(0.03), Some(0.05), Some(0.08), Some(0.1), None];
      SweepThreshold(i) == t as real / 100.0 && SweepMargin(i) == margins[g] <==> i == 8 * t + g
  {
    assert SweepThreshold(i) == t as real / 100.0 <==> i / 8 == t;
    assert SweepMargin(i) == MARGINS[g] <==> i % 8 == g by { MarginsDiffer(i % 8, g); }
  }

  lemma MarginsDiffer(a: nat, b: nat)
    requires a < 8 && b < 8
    ensures MARGINS[a] == MARGINS[b] <==> a == b
  {
  }

  lemma SweepPointExact(records: seq<Record>, i: nat, d: Discount)
    requires i < 800
    ensures var m := SweepPoint(records, i, d);
      && m.threshold == SweepThreshold(i) && m.scoreMargin == SweepMargin(i)
      && m == MetricsAt(records, m.threshold, m.scoreMargin, d)
      && 0.0 <= m.threshold <= 0.99 && (m.scoreMargin.Some? ==> 0.0 <= m.scoreMargin.value <= 0.1)
  {
    hide Round4, SweepThreshold, SweepMargin, MetricsAt;
    SweepThresholdExact(i);
    SweepMarginRange(i);
    ReportNamesPoint(records, SweepThreshold(i), SweepMargin(i), d);
  }

  lemma ReportNamesPoint(records: seq<Record>, threshold: real, margin: Option<real>, d: Discount)
    ensures var m := MetricsAt(records, threshold, margin, d);
      m.threshold == Round4(threshold) && m.scoreMargin == margin
  {
  }

  method Sweep(records: seq<Record>, d: Discount) returns (points: seq<Metrics>)
    requires IsDiscount(d)
    ensures |points| == 800 && forall i :: 0 <= i < 800 ==> points[i] == SweepPoint(records, i, d)
  {
    hide MetricsAt;
    points := [];
    for i := 0 to 800
      invariant |points| == i && forall j :: 0 <= j < i ==> points[j] == SweepPoint(records, j, d)
    {
      var m := ThresholdMetrics(records, SweepThreshold(i), SweepMargin(i), d);
      points := points + [m];
    }
  }

  method Select(records: seq<Record>, points: seq<Metrics>, d: Discount) returns (choice: Option<nat>)
    requires IsDiscount(d)
    requires forall i :: 0 <= i < |points| ==> points[i] == SweepPoint(records, i, d)
    ensures choice.None? ==> NoneEligible(records, |points|, d)
    ensures choice.Some? ==> Chosen(records, choice.value, |points|, d)
  {
    hide Eligible, SweepPoint, Better;
    choice := None;
    for i := 0 to |points|
      invariant choice.None? ==> NoneEligible(records, i, d)
      invariant choice.Some? ==> Chosen(records, choice.value, i, d)
    {
      var ok := CheckEligible(records, points[i], d);
      if choice.Some? { ChosenAdvances(records, choice.value, i, d); }
      if ok && (choice.None? || Better(points[i], points[choice.value])) {
        choice := Some(i);
      }
    }
  }

  /** The choice among the points of the sweep: none exactly when no point is eligible; otherwise the first best
      eligible point, reported with the slices of that same point, and then every gate that reads the report passes. */
  method ChoosePoint(records: seq<Record>, points: seq<Metrics>, d: Discount) returns (c: Recommendation)
    requires IsDiscount(d)
    requires |points| == 800 && forall i :: 0 <= i < 800 ==> points[i] == SweepPoint(records, i, d)
    ensures Recommends(records, c, d)
    ensures c.metrics.Some? <==> ReleaseGates(c).AllPass()
  {
    hide Eligible, SweepPoint, MetricsAt, SlicesAt, Chosen, ReleaseGates;
    var choice := Select(records, points, d);
    if choice.None? {
      GatesNeedReport();
      return Recommendation(None, map[], map[]);
    }
    ChosenIsEligible(records, choice.value, 800, d);
    var m := points[choice.value];
    var byFormat := PositiveThresholdSlices(records, m.threshold, m.scoreMargin, SourceFormat, d);
    var byLanguage := PositiveThresholdSlices(records, m.threshold, m.scoreMargin, Language, d);
    c := Recommendation(Some(m), byFormat, byLanguage);
    SweepPointExact(records, choice.value, d);
    EligibleIffGates(records, m, d);
  }

  ghost predicate Recommends(records: seq<Record>, c: Recommendation, d: Discount) {
    && (c.metrics.None? <==> NoneEligible(records, 800, d))
    && (c.metrics.None? ==> c == Recommendation(None, map[], map[]))
    && (c.metrics.Some? ==>
          && c == Selecting(records, c.metrics.value, d)
          && (exists i: nat :: i < 800 && c.metrics.value == SweepPoint(records, i, d) && Chosen(records, i, 800, d))
          && c.metrics.value == MetricsAt(records, c.metrics.value.threshold, c.metrics.value.scoreMargin, d)
          && 0.80 <= c.metrics.value.threshold <= 0.99
          && (c.metrics.value.scoreMargin.Some? ==> 0.0 <= c.metrics.value.scoreMargin.value <= 0.1))
  }

  // ---- The calibration report ----

  datatype HeldOut = HeldOut(metrics: Metrics, byFormat: map<string, Slice>)

  /** What a calibration reports beside its choice: the sizes of the splits, the chosen point on the test split, and
      the part of the sweep that is shown. */
  datatype Calibrated = Calibrated(
    calibrationSamples: nat, testSamples: nat, choice: Recommendation, heldOut: Option<HeldOut>, shown: seq<Metrics>)

  const SHOWN_THRESHOLDS: set<real> := {0.0, 0.25, 0.5, 0.6, 0.7, 0.8, 0.85, 0.9, 0.95, 0.99}

  predicate IsShown(m: Metrics, choice: Recommendation) {
    && (m.threshold in SHOWN_THRESHOLDS || (choice.metrics.Some? && m.threshold == choice.metrics.value.threshold))
    && (m.scoreMargin.None? || m.scoreMargin.value == 0.0 || m.scoreMargin.value == 0.03 || m.scoreMargin.value == 0.05)
  }

  function Shown(points: seq<Metrics>, choice: Recommendation): seq<Metrics> {
    if points == [] then []
    else (if IsShown(points[0], choice) then [points[0]] else []) + Shown(points[1..], choice)
  }

  lemma {:induction false} ShownMembers(points: seq<Metrics>, choice: Recommendation, m: Metrics)
    ensures m in Shown(points, choice) <==> m in points && IsShown(m, choice)
  {
    if points != [] {
      ShownMembers(points[1..], choice, m);
      assert m in points <==> m == points[0] || m in points[1..];
    }
  }

  /** What is shown is exactly what the sweep has at the ten shown thresholds, and at the chosen one, with the margins
      0.00, 0.03 and 0.05 and without margin. */
  lemma ShownPoints(points: seq<Metrics>, choice: Recommendation, m: Metrics)
    ensures m in Shown(points, choice) <==>
      && m in points
      && (m.threshold in {0.0, 0.25, 0.5, 0.6, 0.7, 0.8, 0.85, 0.9, 0.95, 0.99}
          || (choice.metrics.Some? && m.threshold == choice.metrics.value.threshold))
      && m.scoreMargin in {None, Some(0.0), Some(0.03), Some(0.05)}
  {
    ShownMembers(points, choice, m);
    hide Shown;
  }

  ghost function OnTest(test: seq<Record>, c: Recommendation, d: Discount): Option<HeldOut> {
    if c.metrics.None? || test == [] then None
    else
      var m := c.metrics.value;
      Some(HeldOut(MetricsAt(test, m.threshold, m.scoreMargin, d),
          SlicesAt(test, SourceFormat, m.threshold, m.scoreMargin, d)))
  }

  /** The choice is made on the calibration split alone; only then is the chosen point measured on the test split. */
  method CalibrateThreshold(all: seq<Record>, d: Discount) returns (r: Calibrated, ghost sweep: seq<Metrics>)
    requires IsDiscount(d)
    ensures r.calibrationSamples == |InSplit(all, "calibration")| && r.testSamples == |InSplit(all, "test")|
    ensures Recommends(InSplit(all, "calibration"), r.choice, d)
    ensures r.choice.metrics.Some? <==> ReleaseGates(r.choice).AllPass()
    ensures r.heldOut == OnTest(InSplit(all, "test"), r.choice, d)
    ensures sweep == [] <==> InSplit(all, "calibration") == []
    ensures sweep != [] ==>
      |sweep| == 800 && forall i :: 0 <= i < 800 ==> sweep[i] == SweepPoint(InSplit(all, "calibration"), i, d)
    ensures r.shown == Shown(sweep, r.choice)
    ensures forall m :: m in r.shown <==> m in sweep && IsShown(m, r.choice)
  {
    hide Eligible, SweepPoint, MetricsAt, SlicesAt, Chosen, ReleaseGates, IsShown;
    var records, test := InSplit(all, "calibration"), InSplit(all, "test");
    if records == [] {
      NothingToCalibrate(d);
      GatesNeedReport();
      return Calibrated(0, |test|, Recommendation(None, map[], map[]), None, []), [];
    }
    var points := Sweep(records, d);
    var choice := ChoosePoint(records, points, d);
    var heldOut: Option<HeldOut> := None;
    if choice.metrics.Some? && test != [] {
      var m := choice.metrics.value;
      var metrics := ThresholdMetrics(test, m.threshold, m.scoreMargin, d);
      var byFormat := PositiveThresholdSlices(test, m.threshold, m.scoreMargin, SourceFormat, d);
      heldOut := Some(HeldOut(metrics, byFormat));
    }
    sweep := points;
    r := Calibrated(|records|, |test|, choice, heldOut, Shown(points, choice));
    forall m ensures m in r.shown <==> m in sweep && IsShown(m, choice) {
      ShownMembers(points, choice, m);
    }
  }

  function InSplit(records: seq<Record>, split: string): seq<Record> {
    if records == [] then []
    else (if records[0].split == split then [records[0]] else []) + InSplit(records[1..], split)
  }

  lemma SplitFirst(r: Record, rest: seq<Record>, split: string)
    ensures InSplit([r] + rest, split) == (if r.split == split then [r] else []) + InSplit(rest, split)
  {
    assert ([r] + rest)[1..] == rest;
  }

  /** A split keeps the order and the number of its records. */
  lemma {:induction false} SplitInOrder(a: seq<Record>, b: seq<Record>, r: Record, split: string)
    ensures InSplit(a + b, split) == InSplit(a, split) + InSplit(b, split)
    ensures InSplit([r], split) == if r.split == split then [r] else []
  {
    SplitFirst(r, [], split);
    assert [r] + [] == [r];
    assert InSplit([], split) == [];
    hide InSplit;
    if a == [] {
      assert a + b == b;
    } else {
      var rest := a[1..];
      SplitInOrder(rest, b, r, split);
      SplitFirst(a[0], rest, split);
      SplitFirst(a[0], rest + b, split);
      assert a == [a[0]] + rest && a + b == [a[0]] + (rest + b);
      Associate(if a[0].split == split then [a[0]] else [], InSplit(rest, split), InSplit(b, split));
    }
  }

  lemma ChosenIsEligible(records: seq<Record>, i: nat, upTo: nat, d: Discount)
    requires Chosen(records, i, upTo, d)
    ensures i < upTo && Eligible(records, SweepPoint(records, i, d), d) && !NoneEligible(records, upTo, d)
  {
  }

  lemma GatesNeedReport()
    ensures !ReleaseGates(Recommendation(None, map[], map[])).AllPass()
  {
  }

  lemma NothingToCalibrate(d: Discount)
    ensures NoneEligible([], 800, d)
  {
    forall j: nat | j < 800 ensures !Eligible([], SweepPoint([], j, d), d) {
      var m := SweepPoint([], j, d);
      assert Labels([], SourceFormat) == {};
      assert SlicesAt([], SourceFormat, m.threshold, m.scoreMargin, d) == map[];
    }
  }
}
