/** The score gate: which chunks a threshold and a margin retain, and what that does to the metrics. */
module Thresholds {
  import opened Support
  import opened Rounding
  import opened RankingMetrics
  import opened EvidenceDcg

  datatype Chunk = Chunk(score: real, nodeId: string, documentId: string, relevant: bool, sourceMatch: Option<bool>)

  datatype Record = Record(
    split: string, expected: bool, allowMargin: bool, chunks: seq<Chunk>,
    evidenceGroups: Groups, expectedDocuments: set<string>, sourceFormat: string, language: string)

  // ---- Retention ----

  /** The chunks scoring at least the bar, in order. */
  function Keep(chunks: seq<Chunk>, bar: real): seq<Chunk> {
    if chunks == [] then []
    else if chunks[0].score >= bar then [chunks[0]] + Keep(chunks[1..], bar)
    else Keep(chunks[1..], bar)
  }

  function Retained(chunks: seq<Chunk>, threshold: real, margin: Option<real>): seq<Chunk> {
    var kept := Keep(chunks, threshold);
    if margin.Some? && kept != [] then Keep(kept, kept[0].score - margin.value) else kept
  }

  predicate Descending(chunks: seq<Chunk>) {
    forall i, j :: 0 <= i < j < |chunks| ==> chunks[i].score >= chunks[j].score
  }

  /** A margin is at least as wide as another; no margin is the widest. */
  predicate AtLeastAsWide(wide: Option<real>, narrow: Option<real>) {
    wide.None? || (narrow.Some? && narrow.value <= wide.value)
  }

  predicate NonNegative(margin: Option<real>) {
    margin.Some? ==> margin.value >= 0.0
  }

  lemma {:induction false} KeepNothing(chunks: seq<Chunk>, bar: real)
    requires Descending(chunks) && (chunks == [] || chunks[0].score < bar)
    ensures Keep(chunks, bar) == []
  {
    if chunks != [] { KeepNothing(chunks[1..], bar); }
  }

  lemma {:induction false} KeepPrefixes(chunks: seq<Chunk>, low: real, high: real)
    requires Descending(chunks) && low <= high
    ensures Keep(chunks, high) <= Keep(chunks, low) <= chunks
    ensures Keep(chunks, low) == [] <==> chunks == [] || chunks[0].score < low
  {
    if chunks != [] {
      if chunks[0].score < low {
        KeepNothing(chunks, low);
        KeepNothing(chunks, high);
      } else {
        KeepPrefixes(chunks[1..], low, high);
        assert chunks == [chunks[0]] + chunks[1..];
        if chunks[0].score < high { KeepNothing(chunks, high); }
      }
    }
  }

  lemma {:induction false} KeepTwice(chunks: seq<Chunk>, low: real, high: real)
    requires low <= high
    ensures Keep(Keep(chunks, low), high) == Keep(chunks, high)
  {
    if chunks != [] {
      KeepTwice(chunks[1..], low, high);
      assert chunks[0].score >= low ==> Keep(chunks, low)[1..] == Keep(chunks[1..], low);
    }
  }

  lemma KeepAll(chunks: seq<Chunk>, bar: real)
    requires forall c :: c in chunks ==> c.score >= bar
    ensures Keep(chunks, bar) == chunks
  {
    if chunks != [] { KeepAll(chunks[1..], bar); }
  }

  lemma {:induction false} KeepMembers(chunks: seq<Chunk>, bar: real)
    ensures forall c :: c in Keep(chunks, bar) ==> c in chunks && c.score >= bar
  {
    if chunks != [] { KeepMembers(chunks[1..], bar); }
  }

  /** The single bar that a threshold and a margin amount to on a descending list. */
  function Bar(chunks: seq<Chunk>, threshold: real, margin: Option<real>): real {
    if margin.Some? && chunks != [] && chunks[0].score >= threshold && chunks[0].score - margin.value > threshold
    then chunks[0].score - margin.value
    else threshold
  }

  lemma MarginKeeps(chunks: seq<Chunk>, threshold: real, bar: real)
    requires Descending(chunks)
    ensures Keep(Keep(chunks, threshold), bar) == Keep(chunks, if bar > threshold then bar else threshold)
  {
    if bar > threshold {
      KeepTwice(chunks, threshold, bar);
    } else {
      KeepMembers(chunks, threshold);
      KeepAll(Keep(chunks, threshold), bar);
    }
  }

  lemma RetainedIsKeep(chunks: seq<Chunk>, threshold: real, margin: Option<real>)
    requires Descending(chunks) && NonNegative(margin)
    ensures Retained(chunks, threshold, margin) == Keep(chunks, Bar(chunks, threshold, margin))
    ensures Retained(chunks, threshold, margin) == [] <==> chunks == [] || chunks[0].score < threshold
  {
    hide Keep;
    KeepPrefixes(chunks, threshold, threshold);
    if margin.Some? && Keep(chunks, threshold) != [] {
      FirstKept(chunks, threshold);
      MarginKeeps(chunks, threshold, chunks[0].score - margin.value);
      var bar := Bar(chunks, threshold, margin);
      KeepPrefixes(chunks, bar, bar);
    }
  }

  lemma FirstKept(chunks: seq<Chunk>, bar: real)
    requires Keep(chunks, bar) != [] && Descending(chunks)
    ensures chunks != [] && Keep(chunks, bar)[0] == chunks[0] && chunks[0].score >= bar
  {
    KeepPrefixes(chunks, bar, bar);
  }

  /** On a descending list: a prefix, that a higher threshold shortens and a wider margin lengthens,
      and that is empty or not whatever the margin. */
  lemma RetainedMonotone(chunks: seq<Chunk>, low: real, high: real, wide: Option<real>, narrow: Option<real>)
    requires Descending(chunks) && low <= high
    requires AtLeastAsWide(wide, narrow) && NonNegative(narrow) && NonNegative(wide)
    ensures Retained(chunks, high, narrow) <= Retained(chunks, low, wide) <= chunks
    ensures Retained(chunks, low, wide) == [] <==> Retained(chunks, low, narrow) == []
  {
    RetainedIsKeep(chunks, high, narrow);
    RetainedIsKeep(chunks, low, wide);
    RetainedIsKeep(chunks, low, narrow);
    var b, c := Bar(chunks, low, wide), Bar(chunks, high, narrow);
    if b <= c {
      KeepPrefixes(chunks, b, c);
    } else {
      KeepPrefixes(chunks, c, b);
    }
  }

  /** Whatever the order of the chunks: what is retained reaches the threshold, and reaches the first chunk that does
      but for the margin. */
  lemma RetainedMeans(chunks: seq<Chunk>, threshold: real, margin: Option<real>, first: nat, c: Chunk)
    requires first < |chunks| && chunks[first].score >= threshold
    requires forall j :: 0 <= j < first ==> chunks[j].score < threshold
    ensures c in Retained(chunks, threshold, margin) <==>
      c in chunks && c.score >= threshold && (margin.Some? ==> c.score >= chunks[first].score - margin.value)
  {
    KeepIff(chunks, threshold, c);
    KeepsFirst(chunks, threshold, first);
    if margin.Some? {
      KeepIff(Keep(chunks, threshold), chunks[first].score - margin.value, c);
    }
    hide Keep;
  }

  lemma {:induction false} KeepIff(chunks: seq<Chunk>, bar: real, c: Chunk)
    ensures c in Keep(chunks, bar) <==> c in chunks && c.score >= bar
  {
    if chunks != [] {
      KeepIff(chunks[1..], bar, c);
      assert c in chunks <==> c == chunks[0] || c in chunks[1..];
    }
  }

  lemma {:induction false} KeepsFirst(chunks: seq<Chunk>, bar: real, first: nat)
    requires first < |chunks| && chunks[first].score >= bar && forall j :: 0 <= j < first ==> chunks[j].score < bar
    ensures Keep(chunks, bar) != [] && Keep(chunks, bar)[0] == chunks[first]
  {
    if first > 0 {
      KeepsFirst(chunks[1..], bar, first - 1);
    }
  }

  /** On a descending list exactly the chunks at the front are retained that reach the threshold and the best score but
      for the margin. */
  lemma RetainedFront(chunks: seq<Chunk>, threshold: real, margin: Option<real>, i: nat)
    requires Descending(chunks) && NonNegative(margin) && i < |chunks|
    ensures Retained(chunks, threshold, margin) <= chunks
    ensures i < |Retained(chunks, threshold, margin)| <==>
      chunks[i].score >= threshold && (margin.Some? ==> chunks[i].score >= chunks[0].score - margin.value)
  {
    RetainedIsKeep(chunks, threshold, margin);
    var bar := Bar(chunks, threshold, margin);
    KeepPrefixes(chunks, bar, bar);
    KeepLength(chunks, bar, i);
    hide Keep, Retained;
  }

  lemma {:induction false} KeepLength(chunks: seq<Chunk>, bar: real, i: nat)
    requires Descending(chunks) && i < |chunks|
    ensures i < |Keep(chunks, bar)| <==> chunks[i].score >= bar
  {
    if chunks[0].score < bar {
      KeepNothing(chunks, bar);
    } else if i > 0 {
      KeepLength(chunks[1..], bar, i - 1);
    }
  }

  // ---- Usefulness of what was retained ----

  function NodeIds(chunks: seq<Chunk>): seq<Node> {
    seq(|chunks|, i requires 0 <= i < |chunks| => chunks[i].nodeId)
  }

  function EvidenceFlags(chunks: seq<Chunk>, record: Record): (flags: seq<bool>)
    ensures |flags| == |chunks|
  {
    var gains := Gains(NodeIds(chunks), record.evidenceGroups);
    seq(|chunks|, i requires 0 <= i < |chunks| =>
      if record.evidenceGroups != [] then gains[i] > 0 else chunks[i].relevant)
  }

  function EvidenceRecall(chunks: seq<Chunk>, record: Record): real {
    if record.evidenceGroups != [] then Recall(NodeIds(chunks), record.evidenceGroups)
    else if true in EvidenceFlags(chunks, record) then 1.0 else 0.0
  }

  /** A chunk carries evidence the record asks for. */
  predicate Useful(chunk: Chunk, record: Record) {
    if record.evidenceGroups != [] then
      exists i :: 0 <= i < |record.evidenceGroups| && chunk.nodeId in record.evidenceGroups[i]
    else chunk.relevant
  }

  lemma {:induction false} TotalPositive(gains: seq<nat>)
    ensures Total(gains) > 0 <==> exists i :: 0 <= i < |gains| && gains[i] > 0
  {
    if gains != [] {
      var front := gains[..|gains| - 1];
      TotalPositive(front);
      if i :| 0 <= i < |front| && front[i] > 0 { assert gains[i] > 0; }
    }
  }

  lemma CoverageNonEmpty(nodes: seq<Node>, groups: Groups)
    ensures |Covered(nodes, groups)| > 0 <==>
      exists j, i :: 0 <= j < |nodes| && 0 <= i < |groups| && nodes[j] in groups[i]
  {
    if j, i :| 0 <= j < |nodes| && 0 <= i < |groups| && nodes[j] in groups[i] {
      assert i in Covered(nodes, groups);
    } else {
      assert Covered(nodes, groups) == {};
    }
  }

  /** Some retained chunk is flagged exactly when some retained chunk is useful: marking only the first
      chunk of each group never hides a success. */
  lemma FlaggedIffUseful(chunks: seq<Chunk>, record: Record)
    ensures true in EvidenceFlags(chunks, record) <==> exists c :: c in chunks && Useful(c, record)
  {
    var nodes, flags := NodeIds(chunks), EvidenceFlags(chunks, record);
    if record.evidenceGroups == [] {
      assert forall i :: 0 <= i < |chunks| ==> flags[i] == Useful(chunks[i], record);
    } else {
      var gains := Gains(nodes, record.evidenceGroups);
      GainsSumToCoverage(nodes, record.evidenceGroups);
      TotalPositive(gains);
      CoverageNonEmpty(nodes, record.evidenceGroups);
      assert forall i :: 0 <= i < |flags| ==> flags[i] == (gains[i] > 0);
      if i :| 0 <= i < |gains| && gains[i] > 0 {
        assert flags[i];
      }
      if c :| c in chunks && Useful(c, record) {
        var j :| 0 <= j < |chunks| && chunks[j] == c;
        assert nodes[j] == c.nodeId;
      }
      if j, i :| 0 <= j < |nodes| && 0 <= i < |record.evidenceGroups| && nodes[j] in record.evidenceGroups[i] {
        assert Useful(chunks[j], record);
      }
    }
  }

  // ---- One record at one operating point ----

  datatype Outcome = Outcome(
    expected: bool, retained: nat, flagged: nat, passagePrecision: real, contextPrecision: real,
    mrr: real, ndcg: real, sourceHit: real, evidenceRecall: real, documentRecall: real)
  {
    predicate Emitted() { retained > 0 }

    predicate Correct() { flagged > 0 }
  }

  function MarginFor(record: Record, margin: Option<real>): Option<real> {
    if record.allowMargin then margin else None
  }

  function SourceFlags(chunks: seq<Chunk>): seq<bool> {
    seq(|chunks|, i requires 0 <= i < |chunks| =>
      if chunks[i].sourceMatch.Some? then chunks[i].sourceMatch.value else chunks[i].relevant)
  }

  function FlagScores(flags: seq<bool>): seq<real> {
    seq(|flags|, i requires 0 <= i < |flags| => if flags[i] then 1.0 else 0.0)
  }

  function DocumentRecall(chunks: seq<Chunk>, expected: set<string>): real {
    var retrieved := set c | c in PyTake(chunks, 3) :: c.documentId;
    if expected == {} then 0.0 else |expected * retrieved| as real / |expected| as real
  }

  ghost function NdcgAt3(kept: seq<Chunk>, flags: seq<bool>, record: Record, d: Discount): real {
    if record.evidenceGroups != [] then EvidenceNdcg(NodeIds(kept), record.evidenceGroups, 3, d)
    else Ndcg(FlagScores(PyTake(flags, 3)), Some(3), Some(1), d)
  }

  function Measured(kept: seq<Chunk>, flags: seq<bool>, record: Record, mrr: real, ndcg: real): Outcome {
    Outcome(
      record.expected, |kept|, CountTrue(flags),
      CountTrue(PyTake(flags, 3)) as real / 3.0,
      if flags == [] then 0.0 else CountTrue(flags) as real / |flags| as real,
      mrr, ndcg,
      if true in PyTake(SourceFlags(kept), 3) then 1.0 else 0.0,
      EvidenceRecall(PyTake(kept, 3), record),
      DocumentRecall(kept, record.expectedDocuments))
  }

  ghost function Assess(record: Record, threshold: real, margin: Option<real>, d: Discount): (o: Outcome)
    ensures o.expected == record.expected
  {
    var kept := Retained(record.chunks, threshold, MarginFor(record, margin));
    var flags := EvidenceFlags(kept, record);
    Measured(kept, flags, record, ReciprocalRank(PyTake(flags, 3)), NdcgAt3(kept, flags, record, d))
  }

  lemma {:induction false} CountPositive(flags: seq<bool>)
    ensures CountTrue(flags) > 0 <==> true in flags
  {
    if flags != [] { CountPositive(flags[1..]); }
  }

  lemma CorrectIffUseful(record: Record, threshold: real, margin: Option<real>, d: Discount)
    ensures var kept := Retained(record.chunks, threshold, MarginFor(record, margin));
      && (Assess(record, threshold, margin, d).Correct() <==> exists c :: c in kept && Useful(c, record))
      && (Assess(record, threshold, margin, d).Emitted() <==> kept != [])
      && (Assess(record, threshold, margin, d).Correct() ==> Assess(record, threshold, margin, d).Emitted())
  {
    var kept := Retained(record.chunks, threshold, MarginFor(record, margin));
    FlaggedIffUseful(kept, record);
    CountPositive(EvidenceFlags(kept, record));
  }

  /** Raising the threshold or narrowing the margin can only lose emissions and correct answers; the margin
      alone never decides whether anything is emitted. */
  lemma AssessMonotone(record: Record, low: real, high: real, wide: Option<real>, narrow: Option<real>, d: Discount)
    requires Descending(record.chunks) && low <= high
    requires AtLeastAsWide(wide, narrow) && NonNegative(narrow) && NonNegative(wide)
    ensures Assess(record, high, narrow, d).Emitted() ==> Assess(record, low, wide, d).Emitted()
    ensures Assess(record, high, narrow, d).Correct() ==> Assess(record, low, wide, d).Correct()
    ensures Assess(record, low, narrow, d).Emitted() <==> Assess(record, low, wide, d).Emitted()
  {
    hide Assess, Useful;
    var w, n := MarginFor(record, wide), MarginFor(record, narrow);
    RetainedMonotone(record.chunks, low, high, w, n);
    CorrectIffUseful(record, low, wide, d);
    CorrectIffUseful(record, high, narrow, d);
    CorrectIffUseful(record, low, narrow, d);
    if c :| c in Retained(record.chunks, high, n) && Useful(c, record) {
      assert c in Retained(record.chunks, low, w);
    }
  }

  method RankingQuality(kept: seq<Chunk>, flags: seq<bool>, record: Record, d: Discount) returns (mrr: real, ndcg: real)
    requires IsDiscount(d)
    ensures mrr == ReciprocalRank(PyTake(flags, 3)) && ndcg == NdcgAt3(kept, flags, record, d)
  {
    mrr := FirstReciprocalRank(PyTake(flags, 3));
    if record.evidenceGroups != [] {
      ndcg := ComputeEvidenceNdcg(NodeIds(kept), record.evidenceGroups, 3, d);
    } else {
      ndcg := NdcgAtK(FlagScores(PyTake(flags, 3)), Some(3), Some(1), d);
    }
  }

  method AssessRecord(record: Record, threshold: real, margin: Option<real>, d: Discount) returns (o: Outcome)
    requires IsDiscount(d)
    ensures o == Assess(record, threshold, margin, d)
  {
    var kept := Retained(record.chunks, threshold, MarginFor(record, margin));
    var flags := EvidenceFlags(kept, record);
    var mrr, ndcg := RankingQuality(kept, flags, record, d);
    hide NdcgAt3, EvidenceFlags, EvidenceRecall, DocumentRecall, ReciprocalRank;
    o := Measured(kept, flags, record, mrr, ndcg);
  }

  // ---- The figures of a record, chunk by chunk ----

  /** The chunk at position i counts as evidence: it is the first to carry one of the groups that are asked for; or,
      when no groups are, it is relevant. */
  ghost predicate Counts(kept: seq<Chunk>, record: Record, i: nat)
    requires i < |kept|
  {
    if record.evidenceGroups != [] then
      exists g :: 0 <= g < |record.evidenceGroups| && CarriesFirst(kept, record.evidenceGroups[g], i)
    else kept[i].relevant
  }

  predicate CarriesFirst(kept: seq<Chunk>, group: set<Node>, i: nat)
    requires i < |kept|
  {
    kept[i].nodeId in group && forall j :: 0 <= j < i ==> kept[j].nodeId !in group
  }

  lemma FlagMeans(kept: seq<Chunk>, record: Record, i: nat)
    requires i < |kept|
    ensures EvidenceFlags(kept, record)[i] <==> Counts(kept, record, i)
  {
    if record.evidenceGroups != [] {
      GainMeans(kept, record.evidenceGroups, i);
    }
    hide FirstCovers;
  }

  lemma GainMeans(kept: seq<Chunk>, groups: Groups, i: nat)
    requires i < |kept|
    ensures FirstCovers(NodeIds(kept), groups, i) > 0 <==>
      exists g :: 0 <= g < |groups| && CarriesFirst(kept, groups[g], i)
  {
    var nodes := NodeIds(kept);
    var before := Covered(nodes[..i], groups);
    var novel := Covered(nodes[..i + 1], groups) - before;
    CoveredExtends(nodes, groups, i);
    forall g | 0 <= g < |groups| ensures g in novel <==> CarriesFirst(kept, groups[g], i) {
      SeenBefore(kept, groups, i, g);
      assert g in novel <==> g in Matched(nodes[i], groups) && g !in before;
    }
    hide Covered, CarriesFirst;
    if g :| 0 <= g < |groups| && CarriesFirst(kept, groups[g], i) {
      assert g in novel;
    }
    if g :| g in novel {
      assert 0 <= g < |groups| && CarriesFirst(kept, groups[g], i) by { InCoveredRange(nodes, groups, i + 1, g); }
    }
  }

  lemma InCoveredRange(nodes: seq<Node>, groups: Groups, n: nat, g: nat)
    requires n <= |nodes| && g in Covered(nodes[..n], groups)
    ensures g < |groups|
  {
  }

  lemma SeenBefore(kept: seq<Chunk>, groups: Groups, i: nat, g: nat)
    requires i < |kept| && g < |groups|
    ensures g in Covered(NodeIds(kept)[..i], groups) <==> exists j :: 0 <= j < i && kept[j].nodeId in groups[g]
  {
    var front := NodeIds(kept)[..i];
    assert forall j :: 0 <= j < i ==> front[j] == kept[j].nodeId;
  }

  function Positions(flags: seq<bool>): set<nat> {
    set i | 0 <= i < |flags| && flags[i]
  }

  lemma {:induction false} CountIsSize(flags: seq<bool>)
    ensures CountTrue(flags) == |Positions(flags)|
    decreases |flags|
  {
    if flags == [] {
      assert Positions(flags) == {};
    } else {
      var n := |flags| - 1;
      var front := flags[..n];
      CountIsSize(front);
      CountTrueAppend(front, flags[n]);
      assert front + [flags[n]] == flags;
      var top: set<nat> := if flags[n] then {n} else {};
      assert Positions(flags) == Positions(front) + top;
    }
  }

  lemma CountedPositions(kept: seq<Chunk>, record: Record, n: nat)
    requires n <= |kept|
    ensures CountTrue(EvidenceFlags(kept, record)[..n]) == |set i: nat | i < n && Counts(kept, record, i)|
  {
    var flags := EvidenceFlags(kept, record)[..n];
    CountIsSize(flags);
    hide EvidenceFlags, Counts;
    forall i: nat | i < n ensures flags[i] <==> Counts(kept, record, i) {
      FlagMeans(kept, record, i);
    }
    assert Positions(flags) == set i: nat | i < n && Counts(kept, record, i);
  }

  /** How many chunks the ranking figures look at. */
  function FirstThree(kept: seq<Chunk>): nat {
    if |kept| < 3 then |kept| else 3
  }

  /** The counts and the two precisions of a record. */
  lemma AssessedPrecisions(record: Record, threshold: real, margin: Option<real>, d: Discount)
    ensures var kept := Retained(record.chunks, threshold, if record.allowMargin then margin else None);
      var o := Assess(record, threshold, margin, d);
      && o.retained == |kept|
      && o.flagged == |set i: nat | i < |kept| && Counts(kept, record, i)|
      && o.passagePrecision == |set i: nat | i < FirstThree(kept) && Counts(kept, record, i)| as real / 3.0
      && o.contextPrecision == if kept == [] then 0.0 else o.flagged as real / |kept| as real
  {
    var kept := Retained(record.chunks, threshold, MarginFor(record, margin));
    CountedPositions(kept, record, |kept|);
    CountedPositions(kept, record, FirstThree(kept));
    var flags := EvidenceFlags(kept, record);
    assert flags[..|kept|] == flags && PyTake(flags, 3) == flags[..FirstThree(kept)];
    hide EvidenceFlags, Counts, Retained, EvidenceRecall, DocumentRecall, ReciprocalRank, NdcgAt3;
  }

  /** The rank of the first chunk that counts, among the first three. */
  lemma AssessedRank(record: Record, threshold: real, margin: Option<real>, d: Discount, i: nat)
    requires var kept := Retained(record.chunks, threshold, if record.allowMargin then margin else None);
      i < FirstThree(kept) && Counts(kept, record, i) && forall j: nat :: j < i ==> !Counts(kept, record, j)
    ensures Assess(record, threshold, margin, d).mrr == 1.0 / (i + 1) as real
  {
    var kept := Retained(record.chunks, threshold, MarginFor(record, margin));
    var flags := PyTake(EvidenceFlags(kept, record), 3);
    hide EvidenceFlags, Counts, Retained, EvidenceRecall, DocumentRecall, ReciprocalRank, NdcgAt3;
    assert |flags| == FirstThree(kept);
    forall j: nat | j <= i ensures flags[j] <==> j == i {
      FlagMeans(kept, record, j);
    }
    FirstFlagRank(flags, i, 0);
  }

  lemma {:induction false} FirstFlagRank(flags: seq<bool>, i: nat, before: nat)
    requires i < |flags| && flags[i] && forall j :: 0 <= j < i ==> !flags[j]
    ensures ReciprocalRank(flags, before) == 1.0 / (before + i + 1) as real
  {
    if i > 0 {
      FirstFlagRank(flags[1..], i - 1, before + 1);
    }
  }

  lemma AssessedNoRank(record: Record, threshold: real, margin: Option<real>, d: Discount)
    requires var kept := Retained(record.chunks, threshold, if record.allowMargin then margin else None);
      forall j: nat :: j < FirstThree(kept) ==> !Counts(kept, record, j)
    ensures Assess(record, threshold, margin, d).mrr == 0.0
  {
    var kept := Retained(record.chunks, threshold, MarginFor(record, margin));
    var flags := PyTake(EvidenceFlags(kept, record), 3);
    hide EvidenceFlags, Counts, Retained, EvidenceRecall, DocumentRecall, ReciprocalRank, NdcgAt3;
    forall j: nat | j < |flags| ensures !flags[j] {
      FlagMeans(kept, record, j);
    }
    NoFlagRank(flags, 0);
  }

  lemma {:induction false} NoFlagRank(flags: seq<bool>, before: nat)
    requires forall j :: 0 <= j < |flags| ==> !flags[j]
    ensures ReciprocalRank(flags, before) == 0.0
  {
    if flags != [] {
      NoFlagRank(flags[1..], before + 1);
    }
  }

  /** The expected documents, and the groups, that the first n chunks reach. */
  function DocumentsFound(kept: seq<Chunk>, n: nat, expected: set<string>): set<string>
    requires n <= |kept|
  {
    set e | e in expected && exists i :: 0 <= i < n && kept[i].documentId == e
  }

  function GroupsFound(kept: seq<Chunk>, n: nat, groups: Groups): set<nat>
    requires n <= |kept|
  {
    set g | 0 <= g < |groups| && exists i :: 0 <= i < n && kept[i].nodeId in groups[g]
  }

  /** The source hit, the document recall and the evidence recall over the first three retained chunks. */
  lemma AssessedHits(record: Record, threshold: real, margin: Option<real>, d: Discount)
    ensures var kept := Retained(record.chunks, threshold, if record.allowMargin then margin else None);
      var n := FirstThree(kept);
      var o := Assess(record, threshold, margin, d);
      && o.sourceHit == (if exists i :: 0 <= i < n && MatchesSource(kept[i]) then 1.0 else 0.0)
      && o.documentRecall == (if record.expectedDocuments == {} then 0.0
          else |DocumentsFound(kept, n, record.expectedDocuments)| as real / |record.expectedDocuments| as real)
      && o.evidenceRecall == (
          if record.evidenceGroups != [] then
            |GroupsFound(kept, n, record.evidenceGroups)| as real / |record.evidenceGroups| as real
          else if exists i :: 0 <= i < n && kept[i].relevant then 1.0 else 0.0)
  {
    var kept := Retained(record.chunks, threshold, MarginFor(record, margin));
    SourceHitMeans(kept);
    DocumentRecallMeans(kept, record.expectedDocuments);
    EvidenceRecallMeans(kept, record);
    hide EvidenceFlags, Counts, Retained, EvidenceRecall, DocumentRecall, ReciprocalRank, NdcgAt3, SourceFlags;
  }

  /** The annotation of the source decides if there is one. */
  predicate MatchesSource(c: Chunk) {
    c.sourceMatch == Some(true) || (c.sourceMatch.None? && c.relevant)
  }

  lemma SourceHitMeans(kept: seq<Chunk>)
    ensures true in PyTake(SourceFlags(kept), 3) <==> exists i :: 0 <= i < FirstThree(kept) && MatchesSource(kept[i])
  {
    var flags := PyTake(SourceFlags(kept), 3);
    assert forall i :: 0 <= i < FirstThree(kept) ==> flags[i] == MatchesSource(kept[i]);
    if i :| 0 <= i < FirstThree(kept) && MatchesSource(kept[i]) {
      assert flags[i];
    }
  }

  lemma DocumentRecallMeans(kept: seq<Chunk>, expected: set<string>)
    ensures DocumentRecall(kept, expected) == if expected == {} then 0.0
      else |DocumentsFound(kept, FirstThree(kept), expected)| as real / |expected| as real
  {
    var first := PyTake(kept, 3);
    var retrieved := set c | c in first :: c.documentId;
    forall e ensures e in retrieved <==> exists i :: 0 <= i < FirstThree(kept) && kept[i].documentId == e {
      if i :| 0 <= i < FirstThree(kept) && kept[i].documentId == e {
        assert first[i] in first;
      }
    }
    assert expected * retrieved == DocumentsFound(kept, FirstThree(kept), expected);
  }

  lemma EvidenceRecallMeans(kept: seq<Chunk>, record: Record)
    ensures EvidenceRecall(PyTake(kept, 3), record) ==
      if record.evidenceGroups != [] then
        |GroupsFound(kept, FirstThree(kept), record.evidenceGroups)| as real / |record.evidenceGroups| as real
      else if exists i :: 0 <= i < FirstThree(kept) && kept[i].relevant then 1.0 else 0.0
  {
    var first, groups := PyTake(kept, 3), record.evidenceGroups;
    if groups != [] {
      var nodes := NodeIds(first);
      forall g | 0 <= g < |groups|
        ensures g in Covered(nodes, groups) <==> exists i :: 0 <= i < |first| && kept[i].nodeId in groups[g]
      {
        assert forall i :: 0 <= i < |first| ==> nodes[i] == kept[i].nodeId;
      }
      assert Covered(nodes, groups) == GroupsFound(kept, FirstThree(kept), groups);
    } else {
      FlaggedIffUseful(first, record);
      if i :| 0 <= i < FirstThree(kept) && kept[i].relevant {
        assert first[i] in first && Useful(first[i], record);
      }
    }
  }

  // ---- When the per-record nDCG is a fraction ----

  /** The flags of the three chunks that the ranking metrics look at. */
  function FirstFlags(record: Record, threshold: real, margin: Option<real>): (flags: seq<bool>)
    ensures |flags| <= 3
  {
    PyTake(EvidenceFlags(Retained(record.chunks, threshold, MarginFor(record, margin)), record), 3)
  }

  function Earned(flags: seq<bool>, i: nat, d: Discount): real {
    if i < |flags| && flags[i] then d(i + 1) else 0.0
  }

  lemma {:induction false} FlagDcg(flags: seq<bool>, d: Discount, rank: nat)
    ensures DcgFrom(FlagScores(flags), d, rank)
         == if flags == [] then 0.0
           else (if flags[0] then d(rank) else 0.0) + DcgFrom(FlagScores(flags[1..]), d, rank + 1)
  {
    if flags != [] {
      assert FlagScores(flags)[1..] == FlagScores(flags[1..]);
    }
  }

  lemma FirstThreeDcg(flags: seq<bool>, d: Discount)
    requires |flags| <= 3
    ensures DcgFrom(FlagScores(flags), d, 1) == Earned(flags, 0, d) + Earned(flags, 1, d) + Earned(flags, 2, d)
  {
    FlagDcg(flags, d, 1);
    if flags != [] {
      FlagDcg(flags[1..], d, 2);
      if |flags| > 1 {
        FlagDcg(flags[2..], d, 3);
        assert flags[1..][1..] == flags[2..];
        if |flags| > 2 {
          FlagDcg(flags[3..], d, 4);
          assert flags[2..][1..] == flags[3..];
        }
      }
    }
  }

  lemma CountThree(flags: seq<bool>)
    requires |flags| <= 3
    ensures CountTrue(flags) == (if 0 < |flags| && flags[0] then 1 else 0) + (if 1 < |flags| && flags[1] then 1 else 0)
                                + (if 2 < |flags| && flags[2] then 1 else 0)
  {
    if |flags| > 0 {
      assert CountTrue(flags) == (if flags[0] then 1 else 0) + CountTrue(flags[1..]);
      if |flags| > 1 {
        assert flags[1..][1..] == flags[2..];
        if |flags| > 2 {
          assert flags[2..][1..] == [];
        }
      }
    }
  }

  /** With one declared item the value is the gain of the three flags over that of the first rank. */
  lemma FlagNdcg(flags: seq<bool>, d: Discount)
    requires IsDiscount(d) && |flags| <= 3
    ensures Ndcg(FlagScores(flags), Some(3), Some(1), d) == DcgFrom(FlagScores(flags), d, 1) / d(1)
  {
    var s := FlagScores(flags);
    assert Truncated(s, Some(3)) == s;
    assert Ideal(s, Some(3), Some(1)) == Repeat(1.0, 1) + Repeat(0.0, 2);
    PaddedOnes(1, 2, d, 1);
    assert OnesDcg(1, d, 1) == d(1) + OnesDcg(0, d, 2);
    FlagDcg(flags, d, 1);
    FractionInUnit(0.0, d(1));
  }

  /** Three flags earn more than the first rank alone exactly if two of them hold, unless these are the last two
      and the discount gives them no more than the first. */
  lemma ThreeFlagsExceed(flags: seq<bool>, d: Discount)
    requires IsDiscount(d) && |flags| <= 3
    ensures 0.0 <= DcgFrom(FlagScores(flags), d, 1)
    ensures DcgFrom(FlagScores(flags), d, 1) <= d(1) <==>
      CountTrue(flags) <= 1 || (flags == [false, true, true] && d(2) + d(3) <= d(1))
  {
    FirstThreeDcg(flags, d);
    CountThree(flags);
    assert d(1) > d(2) > d(3) > 0.0;
    hide DcgFrom, CountTrue, FlagScores, IsDiscount;
  }

  /** The nDCG of a record is in [0, 1] exactly if it has evidence groups or at most one of the first three retained
      chunks is relevant. For 1 / log2(rank + 1) the last two ranks outweigh the first; for a discount where they do
      not, the flags of exactly these two are the one further case. */
  lemma AssessedNdcgInUnit(record: Record, threshold: real, margin: Option<real>, d: Discount)
    requires IsDiscount(d)
    ensures var ndcg, flags := Assess(record, threshold, margin, d).ndcg, FirstFlags(record, threshold, margin);
      && 0.0 <= ndcg
      && (ndcg <= 1.0 <==> record.evidenceGroups != [] || CountTrue(flags) <= 1
                           || (flags == [false, true, true] && d(2) + d(3) <= d(1)))
      && (d(2) + d(3) > d(1) ==> (ndcg <= 1.0 <==> record.evidenceGroups != [] || CountTrue(flags) <= 1))
  {
    var kept := Retained(record.chunks, threshold, MarginFor(record, margin));
    var flags := FirstFlags(record, threshold, margin);
    if record.evidenceGroups != [] {
      EvidenceNdcgInUnit(NodeIds(kept), record.evidenceGroups, 3, d);
    } else {
      assert d(1) > 0.0;
      FlagNdcg(flags, d);
      ThreeFlagsExceed(flags, d);
      FractionAtMostOne(DcgFrom(FlagScores(flags), d, 1), d(1));
    }
    hide EvidenceFlags, EvidenceRecall, DocumentRecall, ReciprocalRank, CountTrue, EvidenceNdcg, Ndcg, Retained,
      IsDiscount;
  }

  lemma FractionAtMostOne(a: real, b: real)
    requires a >= 0.0 && b > 0.0
    ensures 0.0 <= a / b && (a / b <= 1.0 <==> a <= b)
  {
    FractionInUnit(a, b);
    if a > b {
      ExcessFraction(a, b);
    }
  }
}
