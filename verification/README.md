# Evaluation core: model and proofs

The evaluation suite decides which retrieval settings are released, pays language-model providers for planning,
answering and judging, and keeps files so that no call is paid for twice. This project models that core in Dafny and
proves what it promises. It has three parts.

**Ranking and calibration arithmetic.** Scores are `real`. The discount `1 / log2(rank + 1)` is any positive, strictly
decreasing function of the rank (`IsDiscount`). Loops of the program are methods with invariants, proved against a
specification function; the results are proved about that function. The bitmask dynamic program for the best
achievable evidence DCG is proved against trying every list of nodes. Rounding to four decimals is modelled
(`Rounding`), so the calibration results speak about the rounded figures that the gates compare.

**Paying at most once.** Log files hold one JSON record per line; an append that is cut off leaves any prefix of its
line (`JsonLines`), and for checkpoints any prefix of the bytes of its line (`Utf8`, `LogFiles`). Where several
processes, threads or tasks interleave, the files, locks and markers are the state of a transition system: a run is a
list of steps, a crash is a step that is possible anywhere, and the results are invariants of every run. Beside each
system there is a class with the fields and the update order of the program, whose methods are proved to take a run of
that system, or, for the logs and the planner snapshot, are proved directly for every point at which the process may
die. What the judging system takes its checkpoint files for is proved of the bytes themselves (`LogFiles`). In the
transition systems a provider call is a step with an arbitrary outcome.

**The mock interview and its gate.** The interview loop is a method; what it leaves behind is characterised turn by
turn, and the walk through the plan is derived from that. The gate is proved equivalent to a closed statement about
the evidence in the report.

Where the code does less than one might expect, the model follows the code, exhibits the case and says when the
property does hold:

- `JudgeScoring`: the checkpoint and the in-flight marker of a pair are named by the content of the sample, not by its
  id. Two samples of equal content share both, and then a pair can be paid twice without authorisation
  (`SharedNamePaysTwice`). The bound holds for a pair, in every run, exactly when no other sample shares its file
  (`PairBoundIffAlone`, `BoundIffDistinct`). A success that lost only its newline is found by the next run, but a later
  cut append can take it along, and then the pair is judged again without any forced run; `FinalIff` decides for every
  state between two runs whether a stored success is final. All of these runs take the metrics of a sample in the order
  of the program (`InOrder`), while the guarantees hold for interleaved metrics as well.
- `Checkpoint`: a cut inside a character of UTF-8 makes the file undecodable for good, with repair or without; a record
  that lost only its newline loads, but the next append is fused with it and the file is corrupt from then on. For a
  cut at every byte, and for every history, this is decided exactly (`AppendAfterCut`, `HistoryLoads`).
- `PlannerSnapshot`, `PlannerHistory`: the attempt ledger has no repair. After an append that was cut, the ledger is
  readable exactly if the cut fell on the end of a line, and further appends do not help (`CutLedgerStaysUnreadable`);
  over whole sequences of runs see `IntactIffCareful`.
- `CallJournal`: a started record that is written without error after a write that was cut short is fused with the
  remains of it; whether it can be read back at the time of the call depends on exactly that (`ReadableAtCall`).
- `TokenUsage`: a usage line that follows one without its newline is fused with it, and the log is corrupt from then
  on; over every history this is decided exactly (`HistoryReplays`). The cost of a whole run can be smaller than the sum
  over its requests; equality is characterised exactly (`WholeRunCost`).
- `HeldoutCampaign`: opening the held-out split once needs no lock, but that terminal reports stay terminal does
  (`FinalIffLocked`).
- `Trajectory`: a valid case whose stage scripts leave out the initial stage never takes a turn and never passes; an
  explicitly empty script next to steps is one such case (`NoTurnIffNoFirstAnswer`).
- `RankingMetrics`, `Thresholds`: in the form with a declared number of relevant items nDCG exceeds 1 for some list
  exactly when the list may hold more ones than declared, at every cut-off (`DeclaredTotalBound`). The metrics of a
  record without evidence groups declare one, so two relevant chunks among its first three push its nDCG above 1
  (`AssessedNdcgInUnit`). Average precision exceeds 1 in the same way (`RelevantTotalBound`).

Assumptions: SHA-256 tells its inputs apart; a proper prefix of an encoded record, or pieces of several records in
one line, are not JSON (`JsonLines.Faithful`; `Codecs` shows that any text that tells records apart meets this once it
is put in braces, and gives such texts for the records of the checkpoints, the planner ledger, the usage log and the
call journal); record texts hold no line separator other than the newline; `os.replace` is atomic and an exclusive
create fails if the file exists; file locks exclude each other and are released when their process ends.

`dafny verify dfyconfig.toml` checks the whole project.

## Model

| member | source | states |
|---|---|---|
| RankingMetrics.Dcg | evaluation/metrics.py:153-161 | the loop computes the discounted sum of the gains; scores below zero gain nothing |
| RankingMetrics.Rearrangement | evaluation/metrics.py:174-180 | no ordering of a list of scores has a larger DCG than the descending one, for any scores and any decreasing discount |
| RankingMetrics.NdcgBounds | evaluation/metrics.py:174-183 | DCG over ideal DCG is in [0, 1], the ideal is positive when some score is, and the quotient is 1 exactly when no ordering is better |
| RankingMetrics.NdcgAtK | evaluation/metrics.py:164-183 | nDCG at any k, None and negative k included; in [0, 1] when no total is declared, and 1 exactly for a kept list with a positive score that no ordering beats |
| RankingMetrics.DeclaredTotalHolds | evaluation/metrics.py:176-183 | with a declared total, nDCG of 0/1 scores with at most that many ones is in [0, 1], at every k |
| RankingMetrics.DeclaredTotalBound | evaluation/metrics.py:171-183 | at every k and total: all kept lists of a given length and number of ones have nDCG in [0, 1] if and only if the ones do not exceed the declared total, or the total is not positive or k negative |
| RankingMetrics.PrecisionSumBound | evaluation/metrics.py:144-149 | the precision sum is at most the number of relevant items, and reaches it exactly when they lead the list |
| RankingMetrics.AveragePrecisionAtK | evaluation/metrics.py:133-150 | average precision, zero for a non-positive denominator; at most 1 unless the kept list holds more relevant items than declared, and 1 exactly when the denominator's worth of relevant items leads the list |
| RankingMetrics.RelevantTotalBound | evaluation/metrics.py:133-150 | at every k and total: all kept lists of a given length and number of relevant items have average precision in [0, 1] if and only if the items do not exceed the declared total, or k or the total is not positive |
| RankingMetrics.FirstReciprocalRank | evaluation/metrics.py:125-130 | one over the rank of the first relevant item, zero exactly when there is none |
| Percentile.PercentilesAgree | evaluation/runners.py:98-107 | the two separately written percentiles agree on every sample and every whole percent, in exact arithmetic, errors included |
| Percentile.PercentileBetweenExtremes | evaluation/metrics.py:191-202 | a percentile of a non-empty sample lies between its least and greatest value |
| Percentile.PercentileMonotone | evaluation/metrics.py:191-202 | a larger p never gives a smaller percentile, across interpolation cells |
| Percentile.PercentileIgnoresOrder | evaluation/metrics.py:195-202 | the order of the sample does not matter |
| Percentile.PercentileIsLinear | evaluation/metrics.py:195-202 | at a whole position the percentile is that element of the sorted sample; between two neighbours it moves on a straight line |
| Percentile.PercentileOutside | evaluation/metrics.py:198-202 | which p outside [0, 1] are index errors, and what the others just below 0 give |
| Percentile.SmallSamples | evaluation/metrics.py:193-197 | a single value is every percentile of itself; those of nothing are zero |
| Bitmask.NewBitsIsDifference | evaluation/runners.py:347-348 | or, xor and bit count on masks are union and size of difference on sets of groups |
| EvidenceDcg.EvidenceGains | evaluation/runners.py:311-326 | the gain at each rank is the number of groups covered for the first time there, and the recall is the share covered |
| EvidenceDcg.GainsSumToCoverage | evaluation/runners.py:316-326 | the gains of a list add up to the number of groups it covers |
| EvidenceDcg.IdealEvidenceDcg | evaluation/runners.py:329-354 | the dynamic program over masks returns the maximum over every choice of a node or nothing at each of k ranks, whatever the overlaps |
| EvidenceDcg.NoListBeatsIdeal | evaluation/runners.py:329-354 | no list of at most k nodes, with duplicates and irrelevant nodes, has a larger evidence DCG than the program's result |
| EvidenceDcg.IdealIsAttained | evaluation/runners.py:329-354 | some list of at most k evidence nodes attains that result |
| EvidenceDcg.EvidenceNdcgInUnit | evaluation/runners.py:357-365 | evidence nDCG is in [0, 1], and 1 exactly for lists that no list of at most k nodes beats |
| EvidenceDcg.ComputeEvidenceNdcg | evaluation/runners.py:357-365 | the clamp to 1 never changes the value |
| BinaryRanking.AurocInUnit | evaluation/runners.py:519-528 | AUROC is in [0, 1], and with both classes present 1 exactly when every positive beats every negative |
| BinaryRanking.AurocFlips | evaluation/runners.py:524-528 | flipping the labels turns AUROC into one minus itself, ties included |
| BinaryRanking.AurocRescales | evaluation/runners.py:524-528 | a strictly increasing rescaling of the scores leaves AUROC unchanged |
| BinaryRanking.AveragePrecisionInUnit | evaluation/runners.py:529-538 | average precision of the ranking is in [0, 1], and with both classes present 1 exactly when the positives lead it |
| BinaryRanking.PerfectAurocMeansPerfectRanking | evaluation/runners.py:519-539 | AUROC of 1 implies average precision of 1 |
| BinaryRanking.CountWins | evaluation/runners.py:524-528 | the pairwise loop, ties half, computes the wins that AUROC is defined by |
| BinaryRanking.BinaryRankingMetrics | evaluation/runners.py:519-539 | the pairwise loop and the loop over the ranking compute these figures, rounded, zero when a class is empty |
| Thresholds.RetainedMonotone | evaluation/runners.py:382-394 | on descending chunks the retained ones are a prefix, shorter for a higher threshold, longer for a wider margin, and empty or not regardless of the margin |
| Thresholds.RetainedMeans | evaluation/runners.py:388-393 | whatever the order of the chunks, retained are those that reach the threshold, and the score of the first that does but for the margin |
| Thresholds.RetainedFront | evaluation/runners.py:388-393 | on descending chunks, which positions are retained |
| Thresholds.FlaggedIffUseful | evaluation/runners.py:302-308 | some chunk is flagged exactly when some chunk is useful, although only the first of each group is flagged |
| Thresholds.CorrectIffUseful | evaluation/runners.py:416-425 | a record is correct exactly when a retained chunk is useful, and emits exactly when a chunk is retained |
| Thresholds.AssessedNdcgInUnit | evaluation/runners.py:441-453 | the nDCG of a record is in [0, 1] if and only if it has evidence groups or at most one of its first three retained chunks is relevant, given a discount whose second and third rank outweigh the first; and the exact condition for any discount |
| Thresholds.AssessRecord | evaluation/runners.py:415-464 | the per-record part of the metrics loop |
| Thresholds.AssessedPrecisions | evaluation/runners.py:415-438 | how many chunks are retained and count as evidence, and the precision among the first three and among all, chunk by chunk |
| Thresholds.AssessedRank | evaluation/runners.py:439 | the reciprocal rank is that of the first of three chunks that counts |
| Thresholds.AssessedNoRank | evaluation/runners.py:439 | and zero when none does |
| Thresholds.AssessedHits | evaluation/runners.py:433-464 | source hit, document recall and evidence recall over the first three retained chunks, by documents and groups reached |
| OperatingPoint.ThresholdMetrics | evaluation/runners.py:397-516 | the loop over records computes the counters and means that all results below are about |
| OperatingPoint.MetricsMean | evaluation/runners.py:465-516 | every rate of the report as sizes of sets of records, and every mean over the expected records, each figure in its field |
| OperatingPoint.RatioMeans | evaluation/runners.py:465-470 | a rate times the number it is taken over is the number counted, and without anything to count it is the stated default |
| OperatingPoint.HarmonicMeans | evaluation/runners.py:475-480 | F1 times the sum of precision and recall is twice their product, and zero when both are zero |
| OperatingPoint.TotalsMean | evaluation/runners.py:420-421 | the totals of retained and of relevant chunks grow record by record |
| OperatingPoint.MeanNdcgInUnit | evaluation/runners.py:494 | the reported mean nDCG is in [0, 1] if that holds of every expected record |
| OperatingPoint.EmissionsAreClassified | evaluation/runners.py:426-429 | true plus false positives are the records that emit anything |
| OperatingPoint.GateMonotone | evaluation/runners.py:465-485 | recall and negative false-positive rate do not grow with the threshold nor shrink with the margin, before and after rounding |
| OperatingPoint.MarginLeavesFalseAlarms | evaluation/runners.py:430-431 | the margin does not influence the negative false-positive rate |
| OperatingPoint.PositiveThresholdSlices | evaluation/runners.py:542-578 | grouping and measuring give the figures of each label's expected records |
| OperatingPoint.SlicesMean | evaluation/runners.py:549-556 | which labels have a slice and which records are its members, empty labels counting as unknown |
| OperatingPoint.SliceMeans | evaluation/runners.py:557-578 | samples, recall and evidence precision of a slice in terms of its members |
| OperatingPoint.SlicesReassemble | evaluation/runners.py:549-578 | slice samples add up to the expected records and slice hits to the true positives |
| OperatingPoint.RecallAtLeastWorstSlice | evaluation/runners.py:570-577 | overall recall reaches every bar that all slice recalls reach |
| Calibration.EligibleIffGates | evaluation/retrieval_gates.py:69-117 | a sweep point is eligible exactly if it meets the threshold floor and passes every calibrated-mode gate that reads the calibration |
| Calibration.EligibleInFigures | evaluation/runners.py:609-662 | eligibility in figures: the floor of every metric, and those of every slice by format and by language |
| Calibration.Select | evaluation/runners.py:664-675 | the choice is eligible, ahead of every earlier eligible point and behind none in the order of the key, and absent exactly when no point is eligible |
| Calibration.ChosenIsBest | evaluation/runners.py:664-675 | against any other eligible point, figure by figure: recall, then evidence precision, then precision, then fewer chunks retained, then the threshold; the first of equals |
| Calibration.SweepCovers | evaluation/runners.py:603-607 | the sweep has each of 100 thresholds with each of eight margins at exactly one position |
| Calibration.ChoosePoint | evaluation/runners.py:664-704 | none exactly when no point of the sweep is eligible, else the first best one with the slices of that same point; all those gates pass exactly when something was selected; threshold in [0.80, 0.99] |
| Calibration.RecommendedIsBest | evaluation/runners.py:664-704 | the same figure-by-figure comparison for what is recommended, over the whole sweep |
| Calibration.CalibrateThreshold | evaluation/runners.py:581-729 | the choice is made on the calibration split alone; the chosen point is measured on the test split; split sizes, and the shown part of the sweep in its order |
| Calibration.SplitInOrder | evaluation/runners.py:582-583 | a split has exactly the records of its name, in their order and number |
| Calibration.ShownPoints | evaluation/runners.py:676-728 | what is shown is exactly what the sweep has at the ten shown thresholds and the chosen one, with three margins and without margin |
| Utf8.ReadBack | evaluation/ragas_runner.py:605-637 | every text is read back as it was written |
| Utf8.CutCharacterIsFinal | evaluation/ragas_runner.py:605 | bytes cut inside a character cannot be decoded, now or after whole characters are appended |
| JsonLines.ScanRendered | evaluation/ragas_runner.py:634-639 | what finished appends write reads back as the same records |
| JsonLines.TornLogHeals | evaluation/ragas_runner.py:624-628 | whatever text ends in a torn line, dropping that line leaves a terminated log of the same records |
| Codecs.FaithfulCanBeMet | evaluation/ragas_runner.py:637 | what is asked of JSON is met by every injective text without braces and newlines, put in braces |
| Codecs.LogsCanBeFaithful | evaluation/llm_factory.py:108 | checkpoint records, planner attempts, usage counters and journal events each have such a text, so the results about their logs are not vacuous |
| Checkpoint.CheckpointLog.Load | evaluation/ragas_runner.py:596-631 | decoding the bytes and loading line by line return the latest record of each pair or the first of four errors, and repair the file only for a torn last line and only when allowed |
| Checkpoint.CheckpointLog.Append | evaluation/ragas_runner.py:634-639 | a missing or healthy file becomes a healthy one with exactly this record more |
| Checkpoint.LatestIsLast | evaluation/ragas_runner.py:630 | the entry of a pair is the record that no later record of the pair follows |
| Checkpoint.TornAppendRecovers | evaluation/ragas_runner.py:605-629 | a cut inside the record: between two characters it is refused without repair, and with repair the complete records load and the file is byte for byte what it was; inside a character the load fails with or without repair |
| Checkpoint.LostNewlineLoads | evaluation/ragas_runner.py:607-631 | a record that lost only its newline loads like a complete one and is left so |
| Checkpoint.AppendAfterCut | evaluation/ragas_runner.py:596-639 | for a cut at every byte: after a repairing load a further append extends a loadable log if and only if the cut fell between two characters and did not remove exactly the newline; else which error |
| Checkpoint.HistoryKeepsBytes | evaluation/ragas_runner.py:596-639 | after any history of appends that arrive whole, in part or not at all, each followed by a repairing load, a log that can be extended is byte for byte the whole appends in order |
| Checkpoint.HistoryLoads | evaluation/ragas_runner.py:596-639 | after any such history the log loads, repair or not, if and only if no append was cut inside a character and none arrived whole after a record without its newline; and to which records |
| TokenUsage.Ledger.Replay | evaluation/llm_factory.py:48-75 | replaying restores the sum of the logged records or the error, repairs a torn tail only when allowed, and leaves counters in step with the file exactly when it ends with a newline |
| TokenUsage.Ledger.Record | evaluation/llm_factory.py:84-110 | every counter grows by its own number of the response, missing ones by none, then the line is appended; a full append keeps counters and file in step |
| TokenUsage.Ledger.Summarize | evaluation/llm_factory.py:121-154 | counters that added to the snapshot give those of now; a cost exactly for priced models, never negative for counters that grew |
| TokenUsage.CostOfModel | evaluation/llm_factory.py:26-29 | the cost of the two priced models: cached input, other input together with input no counter accounts for, and output, each at its price |
| TokenUsage.Round6Means | evaluation/llm_factory.py:149 | rounding to six decimals goes to the nearest, and to the even of two |
| TokenUsage.TotalFields | evaluation/llm_factory.py:77-82 | totals grow field by field |
| TokenUsage.ReplayRestores | evaluation/llm_factory.py:48-110 | replaying after any sequence of responses gives exactly the counters of the process that recorded them, one request a response |
| TokenUsage.TornResponseIsDropped | evaluation/llm_factory.py:57-75 | a response whose line was cut is refused, or dropped whole |
| TokenUsage.HistoryReplays | evaluation/llm_factory.py:48-110 | after any history of responses whose lines arrive whole, in part or not at all, and of reopenings with or without repair: the log is corrupt if and only if a line arrived whole in a log that did not end with a newline; else when it is refused, and that the replay counts every line that arrived whole |
| TokenUsage.SummariesTelescope | evaluation/llm_factory.py:112-130 | summaries over consecutive intervals add up, field by field, to the summary of the whole |
| TokenUsage.WholeRunCost | evaluation/llm_factory.py:131-146 | the unrounded cost of a whole is at most the sum over its requests, and equal if and only if the slack of all requests has one sign |
| AnswerCache.PaidAtMostOnce | evaluation/ragas_runner.py:481-520 | in every run of any number of processes the provider is called at most once more than invocations launched with retry or refresh took the lock; called, uncached and unmarked only after a retry |
| AnswerCache.PlainRunsPayOnce | evaluation/ragas_runner.py:491-517 | if no invocation is launched with retry or refresh, the provider is called at most once |
| AnswerCache.CallsAreMarked | evaluation/ragas_runner.py:491-517 | a call is made only by the holder of the lock, under the marker, and next to a cached answer only by an invocation launched with refresh; the cache never becomes empty and is only replaced after a refresh |
| AnswerCache.ReturnsAgree | evaluation/ragas_runner.py:491-517 | without a refresh whatever an invocation returned at any point of a run is what the cache still holds, so all of them return the same answer |
| AnswerCache.OnlyHolderWrites | evaluation/ragas_runner.py:496-516 | no step of a process outside the lock changes the files or calls the provider |
| AnswerCache.LaunchedAnywhere | evaluation/ragas_runner.py:481-496 | an invocation may be launched at any time by a process that runs none |
| AnswerCache.KilledAnywhere | evaluation/ragas_runner.py:481-520 | a running one may be killed at any time: cache and marker stay, the lock is free |
| AnswerCache.AnswerFiles.LoadCached | evaluation/ragas_runner.py:491-493 | the read before the lock ends the invocation exactly if it finds an answer and no refresh is asked for |
| AnswerCache.AnswerFiles.GenerateUnderLock | evaluation/ragas_runner.py:497-516 | the code under the lock takes a run of the protocol: its outcome, cache, marker and call count in every case |
| JudgeScoring.JudgedAtMostOnce | evaluation/ragas_runner.py:695-787 | in every run the judge is called for a pair whose file no other sample shares at most once more than runs are launched on its sample with retry or force |
| JudgeScoring.StepsCounted | evaluation/ragas_runner.py:643-648 | counters and flags of the model are those of the steps taken: calls made, runs launched with permission, and the flags and samples of the run under way |
| JudgeScoring.LaunchedAnywhere | evaluation/ragas_runner.py:643-648 | between two runs any run may be launched, which changes no file |
| JudgeScoring.StoppedAnywhere | evaluation/ragas_runner.py:786-800 | a run may stop at any time: checkpoints and markers stay |
| JudgeScoring.SuccessIsFinal | evaluation/ragas_runner.py:727-734 | a pair whose stored verdict is a success, not in an unterminated line, is not judged again by any later runs without force |
| JudgeScoring.CompleteSampleIsFinal | evaluation/ragas_runner.py:727-734 | nor is any pair of a sample that has a success for every metric, however its file ends |
| JudgeScoring.FinalIff | evaluation/ragas_runner.py:607-734 | in every state between two runs, a stored success is final without force if and only if its record is not an unterminated last line or every other metric of the sample has its success; the same over the runs that take the metrics in their order |
| JudgeScoring.SuccessTornAway | evaluation/ragas_runner.py:607-639 | from every other such state two runs without force, taking the metrics in the order of the program, judge the pair again |
| JudgeScoring.LostNewlineForgetsSuccess | evaluation/ragas_runner.py:634-639 | a first run that is stopped before a newline reaches such a state |
| JudgeScoring.SharedNamePaysTwice | evaluation/ragas_runner.py:200-210 | for any two samples of equal content and any metric there are two runs, with the metrics in order, that pay a pair twice with nothing authorised |
| JudgeScoring.PairBoundIffAlone | evaluation/ragas_runner.py:670-787 | the bound holds for a pair in every run, and in every run in order, if and only if no other sample shares its file |
| JudgeScoring.BoundIffDistinct | evaluation/ragas_runner.py:670-787 | the bound holds in every run, and in every run in order, if and only if no two samples share a file |
| JudgeScoring.Files.LoadCheckpoints | evaluation/ragas_runner.py:681-694 | all checkpoints of a run are loaded in order, each to the records its file held; the run ends exactly if one cannot be read, or is torn without permission to repair; exactly the torn files before that point are repaired |
| JudgeScoring.Files.ClearUnknown | evaluation/ragas_runner.py:702-710 | a run that finds a marker of its samples is refused, or removes exactly these markers |
| JudgeScoring.Files.ScorePair | evaluation/ragas_runner.py:727-784 | one pair is skipped, or marked, called and recorded, and unmarked exactly if it succeeded; as a run of the protocol |
| LogFiles.LineAppended | evaluation/ragas_runner.py:634-639 | appending the bytes of a line is the protocol's append, for clean, unterminated, torn and corrupt files |
| LogFiles.PieceAppended | evaluation/ragas_runner.py:634-639 | appending the first bytes of a record, up to any byte, is the protocol's cut append, for the same files |
| LogFiles.Loading | evaluation/ragas_runner.py:604-631 | reading the bytes finds the records and the end the protocol assumes, and dropping a torn line is the protocol's repair |
| LogFiles.LinesGrow | evaluation/planner_snapshot.py:166-172 | one write of the lines of several records, cut after any character, on a clean, unterminated, torn or corrupt file: which records and which ending it leaves |
| PlannerSnapshot.Serialize | evaluation/planner_snapshot.py:142-155 | the persisted list is in the order of the keys, one entry per key, and reads back as the same dictionary of plans |
| PlannerSnapshot.MissingRows | evaluation/planner_snapshot.py:230 | the missing rows are exactly the rows without a plan |
| PlannerSnapshot.MissingInOrder | evaluation/planner_snapshot.py:230 | they keep their order and their number |
| PlannerSnapshot.Store.RunBatch | evaluation/planner_snapshot.py:242-296 | marker, planner, ledger, snapshot, marker: the files after the process is killed before any of these effects; on an intact store every plan on disk has an attempt at each of these points |
| PlannerSnapshot.Store.LoadOrCreate | evaluation/planner_snapshot.py:221-315 | what is on disk, in the ledger and in the marker however far the run got; results in row order; rejected rows; a lost batch always leaves the marker; an intact store keeps an attempt for every plan and stays intact unless the ledger is left without a newline |
| PlannerSnapshot.EffectsMean | evaluation/planner_snapshot.py:241-296 | a run has ended by itself exactly after removing the marker and five effects for each of its batches |
| PlannerSnapshot.AddedPlans | evaluation/planner_snapshot.py:275-292 | a key gets a plan exactly if a missing row with it has a result without error and with a plan that did not fail; it then has that plan and the rounded latency of the last such row |
| PlannerSnapshot.AttemptsMean | evaluation/planner_snapshot.py:257-274 | what the ledger records of each row of a batch, usable or not |
| PlannerSnapshot.RejectedRows | evaluation/planner_snapshot.py:276-303 | the rejected ids are those of the rows with an error, no plan or a failed plan, in their order |
| PlannerSnapshot.DiskGrows | evaluation/planner_snapshot.py:276-295 | however far a run got, earlier plans are still there unchanged and new ones belong to its rows |
| PlannerSnapshot.RerunPlansNothing | evaluation/planner_snapshot.py:229-230 | once all rows have plans, a run on any of them plans nothing |
| PlannerSnapshot.ByRowMeans | evaluation/planner_snapshot.py:192-200 | grouping finds the attempts of a row, first attempt first |
| PlannerSnapshot.PlannerAttemptMetrics | evaluation/planner_snapshot.py:175-218 | counts, latency mean and latency at 95 in 100 read off the whole ledger, or which of three errors: unreadable ledger, missing attempt, no attempt at all |
| PlannerSnapshot.P95IndexMeans | evaluation/planner_snapshot.py:203 | the position nearest to 95 in 100, the even one of two |
| PlannerSnapshot.LatencySum | evaluation/planner_snapshot.py:214-217 | latencies add up attempt by attempt |
| PlannerSnapshot.ReturnedRowsAreReportable | evaluation/planner_snapshot.py:197-199 | for rows that a run returned, the ledger of an intact store is never incomplete |
| PlannerSnapshot.CutLedgerStaysUnreadable | evaluation/planner_snapshot.py:166-172 | a ledger whose append was cut is readable, now and after more appends, if and only if the cut fell on the end of a line |
| PlannerHistory.WholeIffCareful | evaluation/planner_snapshot.py:166-172 | after any sequence of runs, killed anywhere, the ledger can be read and extended if and only if it ends with a newline and nothing was ever appended to one that did not |
| PlannerHistory.CarefulRunsCover | evaluation/planner_snapshot.py:241-296 | while that holds of the appends, every plan on disk has an attempt at every crash point of every run |
| PlannerHistory.IntactIffCareful | evaluation/planner_snapshot.py:241-296 | the store is intact after a sequence of runs exactly under these two conditions |
| PlannerHistory.PlansOnlyGrow | evaluation/planner_snapshot.py:276-295 | over any sequence of runs every plan that was on disk stays, unchanged |
| HeldoutCampaign.HeldoutAtMostOnce | evaluation/rag_release.py:200-226 | in every run of any processes, campaigns and outputs, with or without the lock, the test rows of a campaign are retrieved at most once |
| HeldoutCampaign.RetrievedAfterLedger | evaluation/rag_release.py:420-441 | the retrieval is reached only with a whole ledger of the campaign the process was launched for, and none made before |
| HeldoutCampaign.LedgerIsForever | evaluation/rag_release.py:217-226 | a ledger never disappears, not even one cut off while it was written |
| HeldoutCampaign.CutClaimForfeits | evaluation/rag_release.py:217-226 | a process that dies while it writes the first ledger uses the campaign up: its test rows are never retrieved |
| HeldoutCampaign.StoppedAnywhere | evaluation/rag_release.py:506-507 | a process may stop at any time: files stay, the lock is free |
| HeldoutCampaign.CalibrationIsRecommended | evaluation/rag_release.py:398-416 | what a calibration recommends is a profile a campaign may be calibrated to |
| HeldoutCampaign.ReportsMoveForward | evaluation/rag_release.py:290-302 | under the lock no step turns a terminal report back; the only move from a terminal status is from the announced held-out run to its completion, with the same campaign and profile |
| HeldoutCampaign.WithoutLockReportsRevert | evaluation/rag_release.py:512-513 | without the lock a failed report can become running again |
| HeldoutCampaign.FinalIffLocked | evaluation/rag_release.py:290-302 | terminal reports are final in every run exactly if runs take the lock |
| HeldoutCampaign.ReadyReportsLoad | evaluation/rag_release.py:84-111 | of the reports runs leave, exactly the release-ready ones of the same code and runtime are accepted as a profile, with threshold and margin in the range of the calibration |
| HeldoutCampaign.LoadsUnlessLacking | evaluation/rag_release.py:84-111 | any report is accepted, as its profile, exactly if it lacks nothing; else the error is the first of what it lacks |
| HeldoutCampaign.Files.ClaimHeldoutOnce | evaluation/rag_release.py:200-226 | the ledger is created exactly if there was none |
| HeldoutCampaign.Files.Check | evaluation/rag_release.py:290-306 | what an existing report and ledger allow, in the order of the checks |
| HeldoutCampaign.Files.Run | evaluation/rag_release.py:229-461 | a whole run takes a run of the protocol; which files it changes in each outcome |
| CallJournal.InvocationsAreBounded | evaluation/mock_run.py:41-105 | in every interleaving, with failing writes and interrupts, at most `maximum` invocations, and identities in 1..maximum |
| CallJournal.LivesAreOrderly | evaluation/mock_run.py:51-75 | an identity is started, invoked and ended at most once each and in this order; threads hold distinct identities |
| CallJournal.InvokedAfterStarted | evaluation/mock_run.py:57-66 | when an identity is invoked, exactly its started record is complete |
| CallJournal.StartedIsReadable | evaluation/mock_run.py:41-66 | while no write was cut short, a call about to be made has its started record readable in the file |
| CallJournal.ReadableIffNotFused | evaluation/mock_run.py:44-48 | a started record written without error is readable right then if and only if the file did not end in a cut line |
| CallJournal.ReadableAtCall | evaluation/mock_run.py:44-90 | at every invocation in every run the same holds of the started record of the call, whatever was written or cut in between |
| CallJournal.WriteShows | evaluation/mock_run.py:41-50 | whatever characters of a line a write puts into the file, the lines that can then be read, and whether the next line will be fused, are those of the model |
| CallJournal.WritesShow | evaluation/mock_run.py:28-50 | the same for a new journal after any sequence of writes, each whole or cut anywhere |
| CallJournal.InterruptedAnywhere | evaluation/mock_run.py:87-105 | a thread may be interrupted at any time, which writes and invokes nothing |
| CallJournal.Journal.Open | evaluation/mock_run.py:28-39 | a journal is created for a maximum in 1..100000 and never over an existing file |
| CallJournal.Journal.Start | evaluation/mock_run.py:51-66 | the next identity, recorded before it is returned, or the limit or write error |
| CallJournal.Journal.Complete | evaluation/mock_run.py:87-105 | a recorded call invokes the model exactly if it was started, and records its ending; result, file, events and counter in every case |
| Trajectory.NextAnswer | evaluation/mock_interview_eval.py:285-302 | the next unused answer of the stage, or the answer of the step |
| Trajectory.ValidCases | evaluation/mock_contracts.py:99-109 | which cases are accepted: turns, steps and scripts |
| Trajectory.EvaluateTrajectory | evaluation/mock_interview_eval.py:305-465 | the turns taken are exactly those that were due, none after a finish; the report follows from them; it fails where a stage outside the plan or an invalid judgement is reached |
| Trajectory.TurnPassesIff | evaluation/mock_interview_eval.py:353-397 | when a turn passes: text, allowed stage, expected finish, finish in the last stage only, 48 points in all and eight for three scores |
| Trajectory.PassesIff | evaluation/mock_interview_eval.py:443-455 | an interview passes exactly if some turn was taken, all passed, all required stages were visited, and it finished exactly if it should |
| Trajectory.VisitedStages | evaluation/mock_interview_eval.py:431-433 | visited are the first stage and those that turns led to |
| Trajectory.EndsOneWay | evaluation/mock_interview_eval.py:333-441 | the turns of an interview and the way it ends are determined by the case, the plan and the replies |
| Trajectory.PassingWalksPlan | evaluation/mock_interview_eval.py:333-452 | with distinct stages, a passing interview visits a contiguous stretch of the plan from its initial stage, no stage twice, within max_turns, and to the last stage if it expects to complete |
| Trajectory.AnswersFollowScript | evaluation/mock_interview_eval.py:291-298 | the answers given in a stage are a prefix of its script |
| Trajectory.AnswersFollowSteps | evaluation/mock_interview_eval.py:299-302 | an interview by steps gives the answers of its first steps |
| Trajectory.NoTurnIffNoFirstAnswer | evaluation/mock_interview_eval.py:291-336 | a valid case takes no turn, and so never passes, if and only if its stage scripts have no entry for the initial stage |
| Trajectory.EmptyScriptNeverPasses | evaluation/mock_contracts.py:99-109 | in particular steps with an explicitly empty script, which are valid |
| MockGate.CheckedTurnMeans | evaluation/mock_interview_eval.py:468-496 | for every turn: a verdict is recomputed without error exactly if its checks are a non-empty dictionary of booleans, its judgement can be read as far as needed, and the recorded verdict is what checks and scores support |
| MockGate.AggregateMeans | evaluation/mock_interview_eval.py:499-533 | aggregation succeeds exactly on honest turns; its rates mean what they say |
| MockGate.TurnsGate | evaluation/mock_interview_eval.py:733-753 | the turns section passes exactly if completed and honest, 17 in 20 turns pass, the total score is 48 a turn, and no turn is below eight for safety, grounding or language |
| MockGate.TrajectoriesGate | evaluation/mock_interview_eval.py:740-753 | the trajectories section passes exactly if completed and honest at both levels, 4 in 5 pass, some turn was taken, and no turn is below eight for safety, grounding or language |
| MockGate.GateIff | evaluation/mock_interview_eval.py:711-756 | the gate passes exactly the completed reports of schema 3 and the right scale that request one or more different sections, each turns or trajectories, and whose evidence meets the demands of each |
| MockGate.PassingReportsAreHonest | evaluation/mock_interview_eval.py:711-756 | under a true verdict every recorded `passed` is the recomputed one, for turns, trajectories and the turns in them |
| MockGate.SummariesDoNotMatter | evaluation/mock_interview_eval.py:730-741 | reports with the same headers, statuses and details get the same verdict |
| MockGate.PassesGate | evaluation/mock_interview_eval.py:711-756 | the loop over the requested sections decides this |
| MockGate.SingleTurnPassesIff | evaluation/mock_interview_eval.py:247-272 | a single turn is evaluated if its judgement can be read, and when it passes |
| MockGate.BuiltTurnIsAccepted | evaluation/mock_interview_eval.py:247-272 | a turn as the evaluator builds it is never rejected |
| MockGate.BuiltTrajectoryIsAccepted | evaluation/mock_interview_eval.py:381-465 | nor is a trajectory; its recorded verdict is recomputed exactly |

## Left out

- Floating point and `log2`: arithmetic is exact, and the discount is any positive decreasing function.
- Thresholds of 0.80 and the like are exact decimals; the nearest binary fraction is not modelled.
- Gates that read figures outside the calibration report (candidate hit rates, raw hit rates, latency, AUROC) and the
  deployed mode: comparisons with constants that share nothing with calibration.
- `hit_at_k`, `recall_at_k`, aggregates of latencies: single expressions.
- PlannerSnapshot.CutLedgerStaysUnreadable: row ids are ASCII, as in the data set, so that a character of the ledger is
  a byte; so are the records of TokenUsage.Ledger.Record and of CallJournal.Journal.Record.
- Checkpoint.CheckpointLog.Append: texts that cannot be encoded in UTF-8 (lone surrogates) raise before anything is
  written and are not modelled.
- OperatingPoint.PositiveThresholdSlices: the slices are a map; the program inserts them in sorted order.
- PlannerSnapshot.Store.LoadOrCreate: one snapshot identity throughout; a file of another identity is ignored and
  overwritten by the program. The planner concurrency is at least 1, as the command line demands. The lock around it is
  not modelled: runs follow one another.
- AnswerCache.AnswerFiles.GenerateUnderLock: the read before the lock and the code under it are separate methods, since
  other processes may act between them; the error for a cache file of another identity cannot arise when hashes differ.
- JudgeScoring.JudgedAtMostOnce: sample ids are distinct and not empty, and a sample keeps its content over all runs;
  an empty id raises KeyError before any call. Tasks of a sample may interleave freely, which allows more runs than the
  program has; `InOrder` allows fewer, since there a marker that another sample of the same content holds also blocks
  later metrics. A call is one invocation of a metric, however many requests the metric sends.
- JudgeScoring.FinalIff: starts between two runs, that is when no run is under way.
- JudgeScoring.Files.ScorePair: the tasks around it are interleaved steps of the transition system, not a loop.
- CallJournal.Journal.Start: one role; timestamps, prompts' hashes and usage in the records are dropped.
- HeldoutCampaign.Files.Run: index preparation, planning and saving intermediate figures are steps without effect on
  the files that matter here; runs without CUDA end before anything is written.
- Trajectory.EvaluateTrajectory: the six checks that only read the text of a message are one flag; messages, latencies
  and recovery markers are dropped.
- The campaign call budget of the mock evaluation (at most one plan call, two generator calls and one judge call a
  turn): generate_plan and generate_next_turn are not part of this model.
- MockGate.PassesGate: entries of a wrong type that raise an uncaught AttributeError are not modelled; missing and
  malformed entries are.
- Providers, HTTP, RAGAS, embeddings, SQL, GPU, prompts, report texts, data set loading, tokenising, citation
  matching, migrations and user interfaces.
