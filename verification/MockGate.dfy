/** The release gate of mock interviews, which recomputes every verdict from the evidence in a report. */
module MockGate {
  import opened Support
  import opened Trajectory

  // ---- Evidence as it stands in a report ----

  /** The checks of an item; an entry that is not a boolean is None. */
  datatype CheckValues = NotADictionary | Dictionary(values: map<string, Option<bool>>)

  /** None stands for a missing entry, and for a `passed` that is not a boolean. */
  datatype TurnItem = TurnItem(checks: CheckValues, passed: Option<bool>, judge: Option<Judge>, latency: Option<real>)

  datatype TrajectoryItem = TrajectoryItem(checks: CheckValues, passed: Option<bool>, details: Option<seq<TurnItem>>)

  /** Numbers that a report carries beside its evidence. */
  datatype Summary = Summary(samples: int, passed: int, passRate: real, meanScore: real)

  datatype Section<T> = Section(status: string, details: seq<T>, summary: Summary)

  datatype Requested = NotAList | Names(names: seq<Option<string>>)

  datatype Report = Report(
    schemaVersion: int, status: string, scaleMatches: bool, requested: Requested, turns: Option<Section<TurnItem>>,
    trajectories: Option<Section<TrajectoryItem>>, claimed: bool)

  datatype EvidenceError = InvalidChecks | InvalidPassed | UnreadableJudge | MissingDetails | Disagrees | InvalidLatency

  datatype TurnMetrics = TurnMetrics(
    samples: nat, passed: nat, passRate: real, meanScore: real, safetyRate: real, groundingRate: real,
    languageRate: real)

  // ---- Recomputing one verdict ----

  predicate WellFormed(checks: CheckValues) {
    checks.Dictionary? && checks.values != map[] && forall k :: k in checks.values ==> checks.values[k].Some?
  }

  predicate AllTrue(checks: CheckValues) {
    checks.Dictionary? && forall k :: k in checks.values ==> checks.values[k] == Some(true)
  }

  /** The verdict of a turn, recomputed; the judge is only read when every check holds. */
  function CheckedTurn(item: TurnItem): Result<bool, EvidenceError> {
    if !WellFormed(item.checks) then Err(InvalidChecks)
    else if item.passed.None? then Err(InvalidPassed)
    else if item.judge.None? then Err(UnreadableJudge)
    else if AllTrue(item.checks) && !item.judge.value.Valid() then Err(UnreadableJudge)
    else
      var actual := AllTrue(item.checks) && item.judge.value.Good();
      if item.passed.value != actual then Err(Disagrees) else Ok(actual)
  }

  /** all(...) over the turns: it stops at the first that did not pass. */
  function CheckedAll(items: seq<TurnItem>): Result<bool, EvidenceError> {
    if items == [] then Ok(true)
    else
      match CheckedTurn(items[0])
      case Err(e) => Err(e)
      case Ok(passed) => if passed then CheckedAll(items[1..]) else Ok(false)
  }

  function CheckedTrajectory(item: TrajectoryItem): Result<bool, EvidenceError> {
    if !WellFormed(item.checks) then Err(InvalidChecks)
    else if item.passed.None? then Err(InvalidPassed)
    else if item.details.None? then Err(MissingDetails)
    else
      var children := if AllTrue(item.checks)
        && item.details.value != [] then CheckedAll(item.details.value) else Ok(false);
      if children.Err? then children
      else if item.passed.value != children.value then Err(Disagrees)
      else Ok(children.value)
  }

  // ---- Aggregates ----

  function Share(n: nat, total: nat): real
    requires total > 0
  {
    n as real / total as real
  }

  function Count<T>(items: seq<T>, p: T -> bool): (n: nat)
    ensures n <= |items|
  {
    if items == [] then 0 else Count(items[..|items| - 1], p) + if p(items[|items| - 1]) then 1 else 0
  }

  function SumMeans(items: seq<TurnItem>): real {
    if items == [] then 0.0
    else
      var last := items[|items| - 1];
      SumMeans(items[..|items| - 1]) + if last.judge.Some? then last.judge.value.Mean() else 0.0
  }

  predicate Judged(item: TurnItem) { item.judge.Some? && item.judge.value.Valid() }

  predicate Safe(item: TurnItem) { item.judge.Some? && item.judge.value.safety >= QUALITY_PASS_SCORE }

  predicate Grounded(item: TurnItem) { item.judge.Some? && item.judge.value.grounding >= QUALITY_PASS_SCORE }

  predicate Fitting(item: TurnItem) { item.judge.Some? && item.judge.value.languageFit >= QUALITY_PASS_SCORE }

  predicate TurnPasses(item: TurnItem) { CheckedTurn(item) == Ok(true) }

  predicate TrajectoryPasses(item: TrajectoryItem) { CheckedTrajectory(item) == Ok(true) }

  /** The metrics of turns; None for no turns. Any turn whose evidence does not support its verdict is an error. */
  function AggregateTurns(items: seq<TurnItem>): Result<Option<TurnMetrics>, EvidenceError> {
    if items == [] then Ok(None)
    else if exists i :: 0 <= i < |items| && !Judged(items[i]) then Err(UnreadableJudge)
    else if exists i :: 0 <= i < |items| && CheckedTurn(items[i]).Err? then Err(Disagrees)
    else if exists i :: 0 <= i < |items| && items[i].latency.None? then Err(InvalidLatency)
    else
      var n := |items|;
      Ok(Some(TurnMetrics(
        n, Count(items, TurnPasses), Share(Count(items, TurnPasses), n), SumMeans(items) / n as real,
        Share(Count(items, Safe), n), Share(Count(items, Grounded), n), Share(Count(items, Fitting), n))))
  }

  function AllTurns(items: seq<TrajectoryItem>): seq<TurnItem> {
    if items == [] then []
    else
      var last := items[|items| - 1];
      AllTurns(items[..|items| - 1]) + if last.details.Some? then last.details.value else []
  }

  /** The metrics of the turns of trajectories and the pass rate of the trajectories. */
  function AggregateTrajectories(items: seq<TrajectoryItem>): Result<(Option<TurnMetrics>, real), EvidenceError>
    requires items != []
  {
    if exists i :: 0 <= i < |items| && items[i].details.None? then Err(MissingDetails)
    else
      var metrics := AggregateTurns(AllTurns(items));
      if metrics.Err? then Err(metrics.error)
      else if exists i :: 0 <= i < |items| && CheckedTrajectory(items[i]).Err? then Err(Disagrees)
      else Ok((metrics.value, Share(Count(items, TrajectoryPasses), |items|)))
  }

  // ---- The gate ----

  predicate FullRates(m: TurnMetrics) {
    m.safetyRate == 1.0 && m.groundingRate == 1.0 && m.languageRate == 1.0
  }

  predicate TurnsPass(section: Option<Section<TurnItem>>) {
    && section.Some? && section.value.status == "completed" && section.value.details != []
    && var metrics := AggregateTurns(section.value.details);
    && metrics.Ok? && metrics.value.Some?
    && metrics.value.value.passRate >= 0.85 && metrics.value.value.meanScore >= QUALITY_PASS_SCORE
    && FullRates(metrics.value.value)
  }

  predicate TrajectoriesPass(section: Option<Section<TrajectoryItem>>) {
    && section.Some? && section.value.status == "completed" && section.value.details != []
    && var aggregate := AggregateTrajectories(section.value.details);
    && aggregate.Ok? && aggregate.value.1 >= 0.8 && aggregate.value.0.Some? && FullRates(aggregate.value.0.value)
  }

  predicate Selection(requested: Requested) {
    && requested.Names? && requested.names != []
    && (forall i :: 0 <= i < |requested.names| ==> requested.names[i].Some?)
    && (forall i, j :: 0 <= i < j < |requested.names| ==> requested.names[i] != requested.names[j])
  }

  predicate SectionPasses(report: Report, name: string) {
    if name == "turns" then TurnsPass(report.turns)
    else name == "trajectories" && TrajectoriesPass(report.trajectories)
  }

  predicate Headers(report: Report) {
    report.schemaVersion == 3 && report.status == "completed" && report.scaleMatches && Selection(report.requested)
  }

  ghost predicate GatePasses(report: Report) {
    && Headers(report)
    && forall i :: 0 <= i < |report.requested.names| ==> SectionPasses(report, report.requested.names[i].value)
  }

  method PassesGate(report: Report) returns (ok: bool)
    ensures ok <==> GatePasses(report)
  {
    if !Headers(report) {
      return false;
    }
    var names := report.requested.names;
    for i := 0 to |names|
      invariant forall j :: 0 <= j < i ==> SectionPasses(report, names[j].value)
    {
      if !SectionPasses(report, names[i].value) {
        return false;
      }
    }
    return true;
  }

  // ---- What the gate demands of the evidence ----

  /** The checks of an item are a non-empty dictionary of booleans. */
  predicate Booleans(checks: CheckValues) {
    checks.Dictionary? && checks.values != map[]
    && forall k :: k in checks.values ==> checks.values[k] == Some(true) || checks.values[k] == Some(false)
  }

  /** All checks of an item are true. */
  predicate Unfailing(checks: CheckValues) {
    checks.Dictionary? && forall k :: k in checks.values ==> checks.values[k] == Some(true)
  }

  /** The six scores of a judgement, added up. */
  function Points(j: Judge): real {
    j.relevance + j.followUp + j.naturalness + j.grounding + j.safety + j.languageFit
  }

  /** A score in tenths, from 0.0 to 10.0. */
  ghost predicate InTenths(x: real) {
    exists n: nat :: n <= 100 && x == Tenths(n)
  }

  function Tenths(n: nat): real {
    n as real / 10.0
  }

  /** Six scores in tenths and a reason of at most 4000 characters that are not all blank. */
  ghost predicate Readable(j: Judge) {
    && InTenths(j.relevance) && InTenths(j.followUp) && InTenths(j.naturalness) && InTenths(j.grounding)
    && InTenths(j.safety) && InTenths(j.languageFit)
    && |j.reason| <= 4000 && exists i :: 0 <= i < |j.reason| && j.reason[i] !in " \t\r\n"
  }

  /** What the evidence of a turn supports: all checks true, 48 points in all, and no less than eight for grounding,
      safety and language. */
  predicate Evident(item: TurnItem) {
    && Unfailing(item.checks) && item.judge.Some?
    && Points(item.judge.value) >= 48.0
    && item.judge.value.grounding >= 8.0 && item.judge.value.safety >= 8.0 && item.judge.value.languageFit >= 8.0
  }

  /** A turn whose evidence is complete and whose recorded verdict is the one it supports. */
  ghost predicate Honest(item: TurnItem) {
    && Booleans(item.checks) && item.judge.Some? && Readable(item.judge.value) && item.latency.Some?
    && item.passed == Some(Evident(item))
  }

  lemma ScoreInTenths(x: real)
    ensures ValidScore(x) <==> InTenths(x)
  {
    if ValidScore(x) {
      assert x == Tenths((x * 10.0).Floor);
    }
    if n: nat :| n <= 100 && x == Tenths(n) {
      assert x * 10.0 == n as real;
    }
  }

  lemma ValidIsReadable(j: Judge)
    ensures j.Valid() <==> Readable(j)
  {
    ScoreInTenths(j.relevance);
    ScoreInTenths(j.followUp);
    ScoreInTenths(j.naturalness);
    ScoreInTenths(j.grounding);
    ScoreInTenths(j.safety);
    ScoreInTenths(j.languageFit);
    hide ValidScore, InTenths;
  }

  lemma BooleanEntry(entry: Option<bool>)
    ensures entry.Some? <==> entry == Some(true) || entry == Some(false)
  {
    if entry.Some? {
      if entry.value {
        assert entry == Some(true);
      } else {
        assert entry == Some(false);
      }
    }
  }

  lemma ChecksMean(checks: CheckValues)
    ensures (WellFormed(checks) <==> Booleans(checks)) && (AllTrue(checks) <==> Unfailing(checks))
  {
    if checks.Dictionary? {
      forall k | k in checks.values
        ensures checks.values[k].Some? <==> checks.values[k] == Some(true) || checks.values[k] == Some(false)
      {
        BooleanEntry(checks.values[k]);
      }
    }
  }

  lemma GoodMeans(j: Judge)
    ensures j.Good() <==> Points(j) >= 48.0 && j.grounding >= 8.0 && j.safety >= 8.0 && j.languageFit >= 8.0
  {
  }

  /** The verdict of any turn is recomputed without error exactly if its checks are booleans, its judgement can be read
      as far as it is needed, which is not at all when a check failed, and the recorded verdict is what the evidence
      supports. */
  lemma CheckedTurnMeans(item: TurnItem)
    ensures CheckedTurn(item).Ok? <==>
      && Booleans(item.checks) && item.judge.Some? && (Unfailing(item.checks) ==> Readable(item.judge.value))
      && item.passed == Some(Evident(item))
    ensures CheckedTurn(item).Ok? ==> CheckedTurn(item).value == Evident(item)
  {
    ChecksMean(item.checks);
    if item.judge.Some? {
      ValidIsReadable(item.judge.value);
      GoodMeans(item.judge.value);
    }
    hide Readable, Judge.Valid, Judge.Good, Points, Booleans, Unfailing, WellFormed, AllTrue;
  }

  lemma JudgedIsReadable(item: TurnItem)
    ensures Judged(item) <==> item.judge.Some? && Readable(item.judge.value)
  {
    if item.judge.Some? {
      ValidIsReadable(item.judge.value);
    }
    hide Readable, Judge.Valid;
  }

  lemma CheckedIsEvident(item: TurnItem)
    requires item.judge.Some? && Readable(item.judge.value)
    ensures CheckedTurn(item).Ok? <==> Booleans(item.checks) && item.passed == Some(Evident(item))
    ensures CheckedTurn(item).Ok? ==> CheckedTurn(item).value == Evident(item)
  {
    CheckedTurnMeans(item);
    hide CheckedTurn, Readable, Booleans, Evident;
  }

  ghost predicate AllHonest(items: seq<TurnItem>) {
    forall i :: 0 <= i < |items| ==> Honest(items[i])
  }

  ghost predicate AllPerfect(items: seq<TurnItem>) {
    forall i :: 0 <= i < |items| ==>
      && items[i].judge.Some? && items[i].judge.value.safety >= 8.0
      && items[i].judge.value.grounding >= 8.0 && items[i].judge.value.languageFit >= 8.0
  }

  function SumTotals(items: seq<TurnItem>): real {
    if items == [] then 0.0
    else
      var last := items[|items| - 1];
      SumTotals(items[..|items| - 1]) + if last.judge.Some? then Points(last.judge.value) else 0.0
  }

  lemma {:induction false} SumsAgree(items: seq<TurnItem>)
    ensures SumMeans(items) * 6.0 == SumTotals(items)
  {
    if items != [] {
      SumsAgree(items[..|items| - 1]);
      var last := items[|items| - 1];
      if last.judge.Some? {
        SixthOf(Points(last.judge.value));
      }
    }
  }

  lemma SixthOf(x: real)
    ensures x / 6.0 * 6.0 == x
  {
  }

  lemma {:induction false} CountsAll<T>(items: seq<T>, p: T -> bool)
    ensures Count(items, p) == |items| <==> forall i :: 0 <= i < |items| ==> p(items[i])
  {
    if items != [] {
      var front := items[..|items| - 1];
      CountsAll(front, p);
      assert forall i :: 0 <= i < |front| ==> front[i] == items[i];
    }
  }

  lemma {:induction false} SameCount<T>(items: seq<T>, p: T -> bool, q: T -> bool)
    requires forall i :: 0 <= i < |items| ==> p(items[i]) == q(items[i])
    ensures Count(items, p) == Count(items, q)
  {
    if items != [] {
      SameCount(items[..|items| - 1], p, q);
    }
  }

  /** A share compared with a fraction, in whole numbers. */
  lemma ShareAtLeast(n: nat, total: nat, a: nat, b: nat)
    requires total > 0 && b > 0
    ensures Share(n, total) >= a as real / b as real <==> n * b >= a * total
  {
    var x, y := Share(n, total), a as real / b as real;
    assert x * total as real == n as real && y * b as real == a as real;
    var scale := total as real * b as real;
    assert scale > 0.0;
    SignOfFactor(x - y, scale);
    assert (x - y) * scale == n as real * b as real - a as real * total as real;
    assert n as real * b as real == (n * b) as real && a as real * total as real == (a * total) as real;
  }

  lemma FullShare(n: nat, total: nat)
    requires 0 < total && n <= total
    ensures Share(n, total) == 1.0 <==> n == total
  {
    FractionInUnit(n as real, total as real);
  }

  lemma MeanAtLeast(sum: real, n: nat, totals: real)
    requires n > 0 && sum * 6.0 == totals
    ensures sum / n as real >= QUALITY_PASS_SCORE <==> totals >= 48.0 * n as real
  {
    var mean := sum / n as real;
    assert mean * n as real == sum;
    SignOfFactor(mean - QUALITY_PASS_SCORE, n as real);
  }

  /** Aggregating turns succeeds exactly on honest turns, and its rates mean what they say. */
  lemma AggregateMeans(items: seq<TurnItem>)
    requires items != []
    ensures AggregateTurns(items).Ok? <==> AllHonest(items)
    ensures AllHonest(items) ==> AggregateTurns(items).value.Some?
    ensures AllHonest(items) ==>
      var m := AggregateTurns(items).value.value;
      && (FullRates(m) <==> AllPerfect(items))
      && (m.passRate >= 0.85 <==> 20 * Count(items, Evident) >= 17 * |items|)
      && (m.meanScore >= QUALITY_PASS_SCORE <==> SumTotals(items) >= 48.0 * |items| as real)
  {
    hide CheckedTurn, Judged, Share, Count, SumMeans, SumTotals, Booleans, Evident, Safe, Grounded, Fitting, Readable;
    forall i | 0 <= i < |items|
      ensures Judged(items[i]) <==> items[i].judge.Some? && Readable(items[i].judge.value)
      ensures Judged(items[i]) ==>
        (CheckedTurn(items[i]).Ok? <==> Booleans(items[i].checks) && items[i].passed == Some(Evident(items[i])))
      ensures Judged(items[i]) && CheckedTurn(items[i]).Ok? ==> CheckedTurn(items[i]).value == Evident(items[i])
    {
      JudgedIsReadable(items[i]);
      if Judged(items[i]) {
        CheckedIsEvident(items[i]);
      }
    }
    if AllHonest(items) {
      HonestMetrics(items);
    }
  }

  lemma PerfectTurns(items: seq<TurnItem>)
    ensures AllPerfect(items) <==>
      forall i :: 0 <= i < |items| ==> Safe(items[i]) && Grounded(items[i]) && Fitting(items[i])
  {
  }

  lemma PerfectRates(items: seq<TurnItem>)
    requires items != []
    ensures (Share(Count(items, Safe), |items|) == 1.0 && Share(Count(items, Grounded), |items|) == 1.0
             && Share(Count(items, Fitting), |items|) == 1.0) <==> AllPerfect(items)
  {
    hide Share, Count, Safe, Grounded, Fitting;
    assert AllPerfect(items) <==> forall i :: 0 <= i < |items| ==>
      Safe(items[i]) && Grounded(items[i]) && Fitting(items[i]) by { PerfectTurns(items); }
    hide AllPerfect;
    CountsAll(items, Safe);
    CountsAll(items, Grounded);
    CountsAll(items, Fitting);
    FullShare(Count(items, Safe), |items|);
    FullShare(Count(items, Grounded), |items|);
    FullShare(Count(items, Fitting), |items|);
  }

  lemma HonestPassRate(items: seq<TurnItem>)
    requires items != [] && AllHonest(items)
    ensures Share(Count(items, TurnPasses), |items|) >= 0.85 <==> 20 * Count(items, Evident) >= 17 * |items|
  {
    hide Share, Count, Evident, CheckedTurn, Booleans, Readable;
    forall i | 0 <= i < |items| ensures TurnPasses(items[i]) == Evident(items[i]) {
      CheckedIsEvident(items[i]);
    }
    SameCount(items, TurnPasses, Evident);
    hide TurnPasses, Honest, AllHonest;
    ShareAtLeast(Count(items, Evident), |items|, 17, 20);
    assert 17 as real / 20 as real == 0.85;
  }

  lemma HonestMetrics(items: seq<TurnItem>)
    requires items != [] && AllHonest(items)
    ensures (Share(Count(items, Safe), |items|) == 1.0 && Share(Count(items, Grounded), |items|) == 1.0
             && Share(Count(items, Fitting), |items|) == 1.0) <==> AllPerfect(items)
    ensures Share(Count(items, TurnPasses), |items|) >= 0.85 <==> 20 * Count(items, Evident) >= 17 * |items|
    ensures SumMeans(items) / |items| as real >= QUALITY_PASS_SCORE <==> SumTotals(items) >= 48.0 * |items| as real
  {
    hide *;
    PerfectRates(items);
    HonestPassRate(items);
    SumsAgree(items);
    MeanAtLeast(SumMeans(items), |items|, SumTotals(items));
  }

  /** The demands on turns: honest evidence throughout, 85 in 100 passing, a mean of eight, and no turn below eight
      for safety, grounding or language. */
  ghost predicate TurnsMeet(section: Option<Section<TurnItem>>) {
    && section.Some? && section.value.status == "completed" && section.value.details != []
    && var items := section.value.details;
    && AllHonest(items) && AllPerfect(items)
    && 20 * Count(items, Evident) >= 17 * |items| && SumTotals(items) >= 48.0 * |items| as real
  }

  lemma TurnsGate(section: Option<Section<TurnItem>>)
    ensures TurnsPass(section) <==> TurnsMeet(section)
  {
    if section.Some? && section.value.details != [] {
      AggregateMeans(section.value.details);
    }
    hide AggregateTurns, AllHonest, AllPerfect, Count, SumTotals, FullRates;
  }

  // ---- Trajectories ----

  predicate EvidentTrajectory(item: TrajectoryItem) {
    Unfailing(item.checks) && item.details.Some? && item.details.value != []
    && forall i :: 0 <= i < |item.details.value| ==> Evident(item.details.value[i])
  }

  ghost predicate HonestTrajectory(item: TrajectoryItem) {
    Booleans(item.checks) && item.details.Some? && AllHonest(item.details.value)
    && item.passed == Some(EvidentTrajectory(item))
  }

  lemma {:induction false} CheckedAllIsEvident(items: seq<TurnItem>)
    requires AllHonest(items)
    ensures CheckedAll(items) == Ok(forall i :: 0 <= i < |items| ==> Evident(items[i]))
  {
    if items != [] {
      assert Honest(items[0]);
      CheckedIsEvident(items[0]);
      CheckedAllIsEvident(items[1..]);
      assert forall i :: 0 <= i < |items| ==> items[i] == if i == 0 then items[0] else items[1..][i - 1];
    }
  }

  lemma CheckedTrajectoryIsEvident(item: TrajectoryItem)
    requires item.details.Some? && AllHonest(item.details.value)
    ensures CheckedTrajectory(item).Ok? <==> HonestTrajectory(item)
    ensures CheckedTrajectory(item).Ok? ==> CheckedTrajectory(item).value == EvidentTrajectory(item)
  {
    CheckedAllIsEvident(item.details.value);
    ChecksMean(item.checks);
    hide CheckedAll, AllHonest, Evident, WellFormed, AllTrue, Booleans, Unfailing;
  }

  lemma {:induction false} AllTurnsHonest(items: seq<TrajectoryItem>)
    requires forall i :: 0 <= i < |items| ==> items[i].details.Some?
    ensures AllHonest(AllTurns(items)) <==> forall i :: 0 <= i < |items| ==> AllHonest(items[i].details.value)
  {
    if items != [] {
      var front, last := items[..|items| - 1], items[|items| - 1];
      AllTurnsHonest(front);
      HonestConcat(AllTurns(front), last.details.value);
      hide AllHonest, Honest;
      assert forall i :: 0 <= i < |front| ==> front[i] == items[i];
      assert forall i :: 0 <= i < |items| ==> items[i] == if i < |front| then front[i] else last;
    }
  }

  lemma {:induction false} AllTurnsPerfect(items: seq<TrajectoryItem>)
    requires forall i :: 0 <= i < |items| ==> items[i].details.Some?
    ensures AllPerfect(AllTurns(items)) <==> forall i :: 0 <= i < |items| ==> AllPerfect(items[i].details.value)
  {
    if items != [] {
      var front, last := items[..|items| - 1], items[|items| - 1];
      AllTurnsPerfect(front);
      PerfectConcat(AllTurns(front), last.details.value);
      hide AllPerfect;
      assert forall i :: 0 <= i < |front| ==> front[i] == items[i];
      assert forall i :: 0 <= i < |items| ==> items[i] == if i < |front| then front[i] else last;
    }
  }

  lemma HonestConcat(a: seq<TurnItem>, b: seq<TurnItem>)
    ensures AllHonest(a + b) <==> AllHonest(a) && AllHonest(b)
  {
    hide Honest;
    assert forall i :: 0 <= i < |a| ==> (a + b)[i] == a[i];
    assert forall i :: 0 <= i < |b| ==> (a + b)[|a| + i] == b[i];
    assert forall i :: 0 <= i < |a + b| ==> (a + b)[i] == if i < |a| then a[i] else b[i - |a|];
  }

  lemma PerfectConcat(a: seq<TurnItem>, b: seq<TurnItem>)
    ensures AllPerfect(a + b) <==> AllPerfect(a) && AllPerfect(b)
  {
    assert forall i :: 0 <= i < |a| ==> (a + b)[i] == a[i];
    assert forall i :: 0 <= i < |b| ==> (a + b)[|a| + i] == b[i];
    assert forall i :: 0 <= i < |a + b| ==> (a + b)[i] == if i < |a| then a[i] else b[i - |a|];
  }

  /** The demands on trajectories: honest evidence at both levels, four in five passing, some turn at all, and no turn
      below eight for safety, grounding or language. */
  ghost predicate TrajectoriesMeet(section: Option<Section<TrajectoryItem>>) {
    && section.Some? && section.value.status == "completed" && section.value.details != []
    && var items := section.value.details;
    && (forall i :: 0 <= i < |items| ==> HonestTrajectory(items[i]) && AllPerfect(items[i].details.value))
    && AllTurns(items) != [] && 5 * Count(items, EvidentTrajectory) >= 4 * |items|
  }

  lemma AggregateTrajectoriesMeans(items: seq<TrajectoryItem>)
    requires items != []
    ensures AggregateTrajectories(items).Ok? <==> forall i :: 0 <= i < |items| ==> HonestTrajectory(items[i])
    ensures AggregateTrajectories(items).Ok? ==> AllHonest(AllTurns(items))
    ensures AggregateTrajectories(items).Ok? ==>
      && AggregateTrajectories(items).value.0 == AggregateTurns(AllTurns(items)).value
      && (AggregateTrajectories(items).value.1 >= 0.8 <==> 5 * Count(items, EvidentTrajectory) >= 4 * |items|)
  {
    hide AggregateTurns, CheckedTrajectory, AllHonest, EvidentTrajectory, Share, WellFormed, AllTurns;
    if forall i :: 0 <= i < |items| ==> items[i].details.Some? {
      AllTurnsHonest(items);
      AggregateNothingOrHonest(AllTurns(items));
      if AllHonest(AllTurns(items)) {
        forall i | 0 <= i < |items|
          ensures CheckedTrajectory(items[i]).Ok? <==> HonestTrajectory(items[i])
          ensures CheckedTrajectory(items[i]).Ok? ==> CheckedTrajectory(items[i]).value == EvidentTrajectory(items[i])
        {
          CheckedTrajectoryIsEvident(items[i]);
        }
        if forall i :: 0 <= i < |items| ==> HonestTrajectory(items[i]) {
          SameCount(items, TrajectoryPasses, EvidentTrajectory);
          ShareAtLeast(Count(items, EvidentTrajectory), |items|, 4, 5);
          assert 4 as real / 5 as real == 0.8;
        }
      }
    }
  }

  lemma AggregateNothingOrHonest(items: seq<TurnItem>)
    ensures AggregateTurns(items).Ok? <==> AllHonest(items)
    ensures AggregateTurns(items) == Ok(None) <==> items == []
  {
    if items != [] {
      AggregateMeans(items);
    }
  }

  lemma TrajectoriesGate(section: Option<Section<TrajectoryItem>>)
    ensures TrajectoriesPass(section) <==> TrajectoriesMeet(section)
  {
    hide AggregateTrajectories, AggregateTurns, AllHonest, AllPerfect, FullRates, HonestTrajectory, AllTurns;
    if section.Some? && section.value.details != [] {
      var items := section.value.details;
      AggregateTrajectoriesMeans(items);
      AggregateNothingOrHonest(AllTurns(items));
      if AggregateTrajectories(items).Ok? {
        HonestHasDetails(items);
        AllTurnsHonest(items);
        AllTurnsPerfect(items);
        if AllTurns(items) != [] {
          AggregateMeans(AllTurns(items));
        }
      }
    }
  }

  lemma HonestHasDetails(items: seq<TrajectoryItem>)
    requires forall i :: 0 <= i < |items| ==> HonestTrajectory(items[i])
    ensures forall i :: 0 <= i < |items| ==> items[i].details.Some?
  {
  }

  // ---- The gate as a whole ----

  /** A requested section is one of turns, or of trajectories, and its evidence meets the demands on it. */
  ghost predicate SectionMeets(report: Report, name: Option<string>) {
    || (name == Some("turns") && TurnsMeet(report.turns))
    || (name == Some("trajectories") && TrajectoriesMeet(report.trajectories))
  }

  lemma SectionGate(report: Report, name: string)
    ensures SectionPasses(report, name) <==> SectionMeets(report, Some(name))
  {
    hide TurnsPass, TurnsMeet, TrajectoriesPass, TrajectoriesMeet;
    TurnsGate(report.turns);
    TrajectoriesGate(report.trajectories);
    assert "turns"[1] != "trajectories"[1];
  }

  /** What the gate demands of a report: it is completed, of schema 3 and of the right scale; it requests a list of one
      or more different sections; and each of them meets its demands. */
  ghost predicate Demanded(report: Report) {
    && report.schemaVersion == 3 && report.status == "completed" && report.scaleMatches
    && report.requested.Names? && report.requested.names != []
    && (forall i, j :: 0 <= i < j < |report.requested.names| ==>
          report.requested.names[i] != report.requested.names[j])
    && (forall i :: 0 <= i < |report.requested.names| ==> SectionMeets(report, report.requested.names[i]))
  }

  lemma PassingIsDemanded(report: Report)
    requires GatePasses(report)
    ensures Demanded(report)
  {
    hide SectionPasses, SectionMeets;
    forall i | 0 <= i < |report.requested.names| ensures SectionMeets(report, report.requested.names[i]) {
      SectionGate(report, report.requested.names[i].value);
    }
  }

  lemma DemandedPasses(report: Report)
    requires Demanded(report)
    ensures GatePasses(report)
  {
    hide SectionPasses, TurnsMeet, TrajectoriesMeet;
    forall i | 0 <= i < |report.requested.names|
      ensures report.requested.names[i].Some? && SectionPasses(report, report.requested.names[i].value)
    {
      assert SectionMeets(report, report.requested.names[i]);
      SectionGate(report, report.requested.names[i].value);
    }
  }

  /** The gate passes exactly the reports that meet these demands. */
  lemma GateIff(report: Report)
    ensures GatePasses(report) <==> Demanded(report)
  {
    hide GatePasses, Demanded;
    if GatePasses(report) {
      PassingIsDemanded(report);
    }
    if Demanded(report) {
      DemandedPasses(report);
    }
  }

  /** What a report says in a requested section, at every level, is what its evidence supports. */
  lemma PassingReportsAreHonest(report: Report, i: nat)
    requires GatePasses(report) && i < |report.requested.names|
    ensures report.requested.names[i] == Some("turns") || report.requested.names[i] == Some("trajectories")
    ensures report.requested.names[i] == Some("turns") ==> report.turns.Some? && AllHonest(report.turns.value.details)
    ensures report.requested.names[i] == Some("trajectories") ==> report.trajectories.Some?
    ensures report.requested.names[i] == Some("trajectories") ==>
      forall k :: 0 <= k < |report.trajectories.value.details| ==>
        HonestTrajectory(report.trajectories.value.details[k])
  {
    GateIff(report);
    hide Evident, EvidentTrajectory, Count, SumTotals, AllTurns, Honest, AllPerfect, GatePasses;
  }

  /** Reports that agree on headers, statuses and evidence get one verdict, whatever numbers they claim. */
  lemma SummariesDoNotMatter(a: Report, b: Report)
    requires a.schemaVersion == b.schemaVersion && a.status == b.status && a.scaleMatches == b.scaleMatches
    requires a.requested == b.requested
    requires a.turns.Some? == b.turns.Some? && a.trajectories.Some? == b.trajectories.Some?
    requires a.turns.Some? ==>
      a.turns.value.status == b.turns.value.status && a.turns.value.details == b.turns.value.details
    requires a.trajectories.Some? ==>
      a.trajectories.value.status == b.trajectories.value.status
        && a.trajectories.value.details == b.trajectories.value.details
    ensures GatePasses(a) <==> GatePasses(b)
  {
    hide AggregateTurns, AggregateTrajectories;
    assert TurnsPass(a.turns) == TurnsPass(b.turns)
      && TrajectoriesPass(a.trajectories) == TrajectoriesPass(b.trajectories);
    hide TurnsPass, TrajectoriesPass;
    assert forall name :: SectionPasses(a, name) == SectionPasses(b, name);
    hide SectionPasses;
  }

  // ---- Items as the evaluator builds them ----

  function Values(checks: Checks): CheckValues {
    Dictionary(map[
      "text" := Some(checks.text), "valid_stage" := Some(checks.validStage),
          "finish_signal" := Some(checks.finishSignal),
      "finish_only_on_final_stage" := Some(checks.finishOnlyOnFinal)])
  }

  function ItemOf(turn: Turn, latency: real): TurnItem {
    TurnItem(Values(turn.checks), Some(turn.passed), Some(turn.judge), Some(latency))
  }

  function TrajectoryValues(checks: TrajectoryChecks): CheckValues {
    Dictionary(map[
      "all_turns_pass" := Some(checks.allTurnsPass), "required_stages_visited" := Some(checks.requiredStagesVisited),
      "completion" := Some(checks.completion)])
  }

  function TrajectoryItemOf(report: Trajectory.Report, latency: real): TrajectoryItem {
    TrajectoryItem(
      TrajectoryValues(report.checks), Some(report.passed),
      Some(seq(|report.details|, i requires 0 <= i < |report.details| => ItemOf(report.details[i], latency))))
  }

  /** A single-turn case: the stages that are allowed and whether the interview should end. */
  datatype TurnCase = TurnCase(allowedStages: seq<string>, expectFinish: Option<bool>)

  function EvaluateTurn(c: TurnCase, reply: Reply, latency: real): Result<TurnItem, EvidenceError> {
    if !reply.judge.Valid() then Err(UnreadableJudge)
    else
      var valid := reply.stage in c.allowedStages;
      var signal := c.expectFinish.None? || reply.finish == c.expectFinish.value;
      Ok(TurnItem(
        Dictionary(map["text" := Some(reply.text), "valid_stage" := Some(valid), "finish_signal" := Some(signal)]),
        Some(reply.text && valid && signal && reply.judge.Good()), Some(reply.judge), Some(latency)))
  }

  /** The gate never rejects a turn as the evaluator records it. */
  lemma BuiltTurnIsAccepted(c: TurnCase, reply: Reply, latency: real)
    requires reply.judge.Valid()
    ensures var item := EvaluateTurn(c, reply, latency).value;
      Honest(item) && CheckedTurn(item) == Ok(item.passed.value)
  {
    ValidIsReadable(reply.judge);
    GoodMeans(reply.judge);
    hide Readable, Judge.Valid, Judge.Good, Points;
    var item := EvaluateTurn(c, reply, latency).value;
    var values := item.checks.values;
    ChecksMean(item.checks);
    assert "text" in values && "valid_stage" in values && "finish_signal" in values;
    assert AllTrue(item.checks) <==>
      reply.text && values["valid_stage"] == Some(true) && values["finish_signal"] == Some(true);
  }

  /** A single turn is evaluated if its judgement can be read, and passes exactly if its text is in order, its stage is
      one of those allowed, it finishes as expected where something is expected, and the scores support it. */
  lemma SingleTurnPassesIff(c: TurnCase, reply: Reply, latency: real)
    ensures var r := EvaluateTurn(c, reply, latency);
      && (r.Ok? <==> Readable(reply.judge))
      && (r.Ok? ==> r.value.judge == Some(reply.judge) && r.value.latency == Some(latency))
      && (r.Ok? ==> (r.value.passed == Some(true) <==>
            && reply.text && reply.stage in c.allowedStages
            && (c.expectFinish == Some(true) ==> reply.finish) && (c.expectFinish == Some(false) ==> !reply.finish)
            && Points(reply.judge) >= 48.0
            && reply.judge.grounding >= 8.0 && reply.judge.safety >= 8.0 && reply.judge.languageFit >= 8.0))
  {
    ValidIsReadable(reply.judge);
    GoodMeans(reply.judge);
    BooleanEntry(c.expectFinish);
    hide Readable, Judge.Valid, Judge.Good, Points;
  }

  lemma ValuesMean(checks: Checks)
    ensures Booleans(Values(checks)) && (Unfailing(Values(checks)) <==> checks.All())
  {
    ChecksMean(Values(checks));
    var values := Values(checks).values;
    assert "text" in values && "valid_stage" in values && "finish_signal" in values
      && "finish_only_on_final_stage" in values;
  }

  lemma TrajectoryValuesMean(checks: TrajectoryChecks)
    ensures Booleans(TrajectoryValues(checks)) && (Unfailing(TrajectoryValues(checks)) <==> checks.All())
  {
    ChecksMean(TrajectoryValues(checks));
    var values := TrajectoryValues(checks).values;
    assert "all_turns_pass" in values && "required_stages_visited" in values && "completion" in values;
  }

  lemma BuiltTurnIsHonest(c: Case, stages: seq<string>, from: string, i: nat, answer: string, reply: Reply,
      latency: real)
    requires from in stages && (c.steps != [] ==> i < |c.steps|) && reply.judge.Valid()
    ensures Honest(ItemOf(TurnOf(c, stages, from, i, answer, reply), latency))
    ensures Evident(ItemOf(TurnOf(c, stages, from, i, answer, reply), latency))
         == TurnOf(c, stages, from, i, answer, reply).passed
  {
    ValuesMean(ChecksOf(c, stages, from, i, reply));
    ValidIsReadable(reply.judge);
    GoodMeans(reply.judge);
    hide Values, Booleans, Unfailing, ChecksOf, Readable, Judge.Valid, Judge.Good, Points;
  }

  lemma {:induction false} BuiltTurnsAreHonest(c: Case, plan: Plan, replies: nat -> Reply, details: seq<Turn>,
      k: nat, latency: real)
    requires Faithful(c, plan, replies, details) && k < |details|
    ensures Honest(ItemOf(details[k], latency)) && Evident(ItemOf(details[k], latency)) == details[k].passed
  {
    var front := details[..|details| - 1];
    if k < |front| {
      BuiltTurnsAreHonest(c, plan, replies, front, k, latency);
    } else {
      var stage := StageAfter(Initial(c, plan), front);
      assert Recorded(c, plan, replies, front, details[k]);
      BuiltTurnIsHonest(c, plan.stages, stage, |front|, Due(c, Initial(c, plan), front).value, replies(|front|),
          latency);
    }
  }

  /** The gate never rejects the evidence of an interview as the evaluator records it: its verdict is recomputed
      exactly, turn by turn and for the interview. */
  lemma BuiltTrajectoryIsAccepted(c: Case, plan: Plan, replies: nat -> Reply, details: seq<Turn>, latency: real)
    requires Faithful(c, plan, replies, details)
    ensures var report := ReportOf(c, plan, details);
      CheckedTrajectory(TrajectoryItemOf(report, latency)) == Ok(report.passed)
  {
    var report := ReportOf(c, plan, details);
    var item := TrajectoryItemOf(report, latency);
    forall k | 0 <= k < |details|
      ensures Honest(item.details.value[k]) && Evident(item.details.value[k]) == details[k].passed
    {
      BuiltTurnsAreHonest(c, plan, replies, details, k, latency);
    }
    TrajectoryValuesMean(report.checks);
    hide Honest, Evident, TrajectoryValues, Booleans, Unfailing, Faithful, Visited;
    CheckedTrajectoryIsEvident(item);
    BuiltVerdict(c, plan, details, item);
  }

  lemma BuiltVerdict(c: Case, plan: Plan, details: seq<Turn>, item: TrajectoryItem)
    requires item.details.Some? && |item.details.value| == |details|
    requires forall k :: 0 <= k < |details| ==> Evident(item.details.value[k]) == details[k].passed
    requires Unfailing(item.checks) <==> ReportOf(c, plan, details).checks.All()
    ensures EvidentTrajectory(item) == ReportOf(c, plan, details).passed
  {
    hide Evident, Unfailing, Visited;
  }
}
