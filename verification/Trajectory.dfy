/** One scripted mock interview: the stages it walks, the answers it uses and the checks that judge it. */
module Trajectory {
  import opened Support

  const QUALITY_PASS_SCORE := 8.0

  // ---- Judging a turn ----

  datatype Judge = Judge(
    relevance: real, followUp: real, naturalness: real, grounding: real, safety: real, languageFit: real,
    reason: string)
  {
    function Total(): real {
      relevance + followUp + naturalness + grounding + safety + languageFit
    }

    function Mean(): real {
      Total() / 6.0
    }

    predicate Valid() {
      && ValidScore(relevance) && ValidScore(followUp) && ValidScore(naturalness) && ValidScore(grounding)
      && ValidScore(safety) && ValidScore(languageFit)
      && 1 <= |reason| <= 4000 && exists i :: 0 <= i < |reason| && reason[i] !in " \t\r\n"
    }

    predicate Good() {
      Mean() >= QUALITY_PASS_SCORE && grounding >= QUALITY_PASS_SCORE && safety >= QUALITY_PASS_SCORE
      && languageFit >= QUALITY_PASS_SCORE
    }
  }

  /** A score is between 0 and 10 with at most one decimal place. */
  predicate ValidScore(x: real) {
    0.0 <= x <= 10.0 && (x * 10.0).Floor as real == x * 10.0
  }

  /** The structural checks of a turn; those that only read its text are one flag. */
  datatype Checks = Checks(text: bool, validStage: bool, finishSignal: bool, finishOnlyOnFinal: bool)
  {
    predicate All() {
      text && validStage && finishSignal && finishOnlyOnFinal
    }
  }

  // ---- Cases, plans and replies ----

  datatype Step = Step(answer: string, expectFinish: Option<bool>)

  datatype Case = Case(
    currentStage: Option<string>, steps: seq<Step>, answersByStage: Option<map<string, seq<string>>>, maxTurns: nat,
    requiredStages: seq<string>, expectComplete: bool)
  {
    /** The contract that cases are validated against. An explicitly empty script next to steps passes it. */
    predicate Valid() {
      var scripted := answersByStage.Some? && answersByStage.value != map[];
      && 1 <= maxTurns <= 64
      && (steps != [] <==> !scripted)
      && (steps != [] ==> |steps| >= maxTurns)
      && (scripted ==> forall k :: k in answersByStage.value ==> answersByStage.value[k] != [])
    }
  }

  datatype Plan = Plan(stages: seq<string>, firstStage: string)

  /** What the generator and the judge answer in a turn. */
  datatype Reply = Reply(stage: string, finish: bool, text: bool, judge: Judge)

  datatype Turn = Turn(
    turn: nat, passed: bool, answer: string, from: string, stage: string, finish: bool, checks: Checks, judge: Judge)

  datatype TrajectoryChecks = TrajectoryChecks(allTurnsPass: bool, requiredStagesVisited: bool, completion: bool)
  {
    predicate All() {
      allTurnsPass && requiredStagesVisited && completion
    }
  }

  datatype Report = Report(passed: bool, checks: TrajectoryChecks, visited: seq<string>, details: seq<Turn>)

  datatype Failure = StageNotInPlan | InvalidJudge

  // ---- One turn ----

  function IndexOf(s: seq<string>, x: string): (i: nat)
    requires x in s
    ensures i < |s| && s[i] == x && x !in s[..i]
  {
    if s[0] == x then 0 else
      assert x in s[1..];
      assert forall i :: 0 < i < |s| ==> s[i] == s[1..][i - 1];
      1 + IndexOf(s[1..], x)
  }

  /** A turn may stay in its stage or move to the next one of the plan. */
  function Allowed(stages: seq<string>, from: string): seq<string>
    requires from in stages
  {
    var i := IndexOf(stages, from);
    if i + 1 < |stages| then [from, stages[i + 1]] else [from]
  }

  function ChecksOf(c: Case, stages: seq<string>, from: string, i: nat, reply: Reply): Checks
    requires from in stages
    requires c.steps != [] ==> i < |c.steps|
  {
    var expected := if c.steps != [] then c.steps[i].expectFinish else None;
    Checks(
      reply.text,
      reply.stage in Allowed(stages, from),
      expected.None? || reply.finish == expected.value,
      !reply.finish || reply.stage == stages[|stages| - 1])
  }

  function TurnOf(c: Case, stages: seq<string>, from: string, i: nat, answer: string, reply: Reply): Turn
    requires from in stages
    requires c.steps != [] ==> i < |c.steps|
  {
    var checks := ChecksOf(c, stages, from, i, reply);
    Turn(i + 1, checks.All() && reply.judge.Good(), answer, from, reply.stage, reply.finish, checks, reply.judge)
  }

  /** The answer for a turn: the next unused one of the stage's script, or the one of the step. */
  function AnswerFor(c: Case, stage: string, i: nat, used: nat): Option<string> {
    match c.answersByStage
    case Some(scripts) =>
      if stage in scripts && used < |scripts[stage]| then Some(scripts[stage][used]) else None
    case None => if i < |c.steps| then Some(c.steps[i].answer) else None
  }

  method NextAnswer(c: Case, stage: string, i: nat, counts: map<string, nat>)
    returns (answer: Option<string>, next: map<string, nat>)
    ensures answer == AnswerFor(c, stage, i, if stage in counts then counts[stage] else 0)
    ensures next == if answer.Some? && c.answersByStage.Some?
                    then counts[stage := (if stage in counts then counts[stage] else 0) + 1] else counts
  {
    next := counts;
    if c.answersByStage.Some? {
      var answers := if stage in c.answersByStage.value then c.answersByStage.value[stage] else [];
      var index := if stage in counts then counts[stage] else 0;
      if index >= |answers| {
        return None, counts;
      }
      return Some(answers[index]), counts[stage := index + 1];
    }
    if i >= |c.steps| {
      return None, counts;
    }
    return Some(c.steps[i].answer), counts;
  }

  // ---- A whole interview ----

  function Initial(c: Case, plan: Plan): string {
    match c.currentStage case Some(stage) => stage case None => plan.firstStage
  }

  /** The stage an interview is in after some turns. */
  function StageAfter(initial: string, details: seq<Turn>): string {
    if details == [] then initial else details[|details| - 1].stage
  }

  function AnswersFrom(details: seq<Turn>, stage: string): seq<string> {
    if details == [] then []
    else
      var last := details[|details| - 1];
      AnswersFrom(details[..|details| - 1], stage) + if last.from == stage then [last.answer] else []
  }

  function Visited(initial: string, details: seq<Turn>): (visited: seq<string>)
    ensures visited != [] && visited[|visited| - 1] == StageAfter(initial, details)
  {
    if details == [] then [initial]
    else
      var front, stage := Visited(initial, details[..|details| - 1]), details[|details| - 1].stage;
      if stage == front[|front| - 1] then front else front + [stage]
  }

  /** The answer that is due after some turns. */
  function Due(c: Case, initial: string, details: seq<Turn>): Option<string> {
    var stage := StageAfter(initial, details);
    AnswerFor(c, stage, |details|, |AnswersFrom(details, stage)|)
  }

  /** Every turn was due when it was taken, in a stage of the plan, and records the reply to it. */
  ghost predicate Faithful(c: Case, plan: Plan, replies: nat -> Reply, details: seq<Turn>) {
    details == [] ||
    var front := details[..|details| - 1];
    && Faithful(c, plan, replies, front) && GoesOn(c, plan, front)
    && Recorded(c, plan, replies, front, details[|details| - 1])
  }

  ghost predicate Recorded(c: Case, plan: Plan, replies: nat -> Reply, before: seq<Turn>, t: Turn) {
    var stage := StageAfter(Initial(c, plan), before);
    && stage in plan.stages && Due(c, Initial(c, plan), before).Some?
    && (c.steps != [] ==> |before| < |c.steps|)
    && replies(|before|).judge.Valid()
    && t == TurnOf(c, plan.stages, stage, |before|, Due(c, Initial(c, plan), before).value, replies(|before|))
  }

  /** The interview goes on after these turns. */
  predicate GoesOn(c: Case, plan: Plan, details: seq<Turn>) {
    |details| < c.maxTurns && Due(c, Initial(c, plan), details).Some?
    && (details != [] ==> !details[|details| - 1].finish)
  }

  /** The three ways in which an interview ends: nothing more is due, or a turn is due that cannot be taken. */
  ghost predicate Completed(c: Case, plan: Plan, replies: nat -> Reply, details: seq<Turn>) {
    Faithful(c, plan, replies, details) && !GoesOn(c, plan, details)
  }

  ghost predicate LeavesPlan(c: Case, plan: Plan, replies: nat -> Reply, details: seq<Turn>) {
    Faithful(c, plan, replies, details) && GoesOn(c, plan, details)
    && StageAfter(Initial(c, plan), details) !in plan.stages
  }

  ghost predicate Misjudged(c: Case, plan: Plan, replies: nat -> Reply, details: seq<Turn>) {
    Faithful(c, plan, replies, details) && GoesOn(c, plan, details)
    && StageAfter(Initial(c, plan), details) in plan.stages && !replies(|details|).judge.Valid()
  }

  predicate AllPassed(details: seq<Turn>) {
    forall i :: 0 <= i < |details| ==> details[i].passed
  }

  function ReportOf(c: Case, plan: Plan, details: seq<Turn>): Report {
    var visited := Visited(Initial(c, plan), details);
    var ready := details != [] && details[|details| - 1].finish;
    var checks := TrajectoryChecks(
      details != [] && AllPassed(details),
      forall i :: 0 <= i < |c.requiredStages| ==> c.requiredStages[i] in visited,
      if c.expectComplete then ready else !ready);
    Report(checks.All(), checks, visited, details)
  }

  lemma AnswersSnoc(details: seq<Turn>, t: Turn, stage: string)
    ensures AnswersFrom(details + [t], stage) == AnswersFrom(details, stage) + if t.from == stage then [t.answer]
      else []
  {
    assert (details + [t])[..|details|] == details;
  }

  lemma VisitedSnoc(initial: string, details: seq<Turn>, t: Turn)
    ensures var visited := Visited(initial, details);
      Visited(initial, details + [t]) == if t.stage == visited[|visited| - 1] then visited else visited + [t.stage]
  {
    assert (details + [t])[..|details|] == details;
  }

  lemma FaithfulSnoc(c: Case, plan: Plan, replies: nat -> Reply, details: seq<Turn>, t: Turn)
    requires Faithful(c, plan, replies, details) && GoesOn(c, plan, details) && Recorded(c, plan, replies, details, t)
    ensures Faithful(c, plan, replies, details + [t])
  {
    assert (details + [t])[..|details|] == details;
  }

  /** The counter of used answers agrees with the answers used. */
  ghost predicate Counts(c: Case, counts: map<string, nat>, details: seq<Turn>) {
    c.answersByStage.Some? ==>
      forall stage :: (if stage in counts then counts[stage] else 0) == |AnswersFrom(details, stage)|
  }

  lemma CountsSnoc(c: Case, counts: map<string, nat>, next: map<string, nat>, details: seq<Turn>, t: Turn)
    requires Counts(c, counts, details)
    requires c.answersByStage.Some? ==> next == counts[t.from := (if t.from in counts then counts[t.from] else 0) + 1]
    ensures Counts(c, next, details + [t])
  {
    if c.answersByStage.Some? {
      forall stage ensures (if stage in next then next[stage] else 0) == |AnswersFrom(details + [t], stage)| {
        AnswersSnoc(details, t, stage);
        assert (if stage in counts then counts[stage] else 0) == |AnswersFrom(details, stage)|;
      }
    }
  }

  /** What the variables of the loop say about the turns taken so far. */
  ghost predicate Walking(
    c: Case, plan: Plan, replies: nat -> Reply, details: seq<Turn>, stage: string, visited: seq<string>,
    counts: map<string, nat>,
    passing: bool)
  {
    var initial := Initial(c, plan);
    && Faithful(c, plan, replies, details) && stage == StageAfter(initial, details)
      && visited == Visited(initial, details)
    && Counts(c, counts, details) && passing == AllPassed(details)
  }

  lemma StartWalking(c: Case, plan: Plan, replies: nat -> Reply)
    ensures Walking(c, plan, replies, [], Initial(c, plan), [Initial(c, plan)], map[], true)
  {
  }

  /** The answer the counters lead to is the one that is due. */
  lemma WalkingAnswer(
    c: Case, plan: Plan, replies: nat -> Reply, details: seq<Turn>, stage: string, visited: seq<string>,
    counts: map<string, nat>,
    passing: bool)
    requires Walking(c, plan, replies, details, stage, visited, counts, passing)
    ensures AnswerFor(c, stage, |details|, if stage in counts then counts[stage] else 0)
         == Due(c, Initial(c, plan), details)
    ensures stage == StageAfter(Initial(c, plan), details) && visited != [] && visited[|visited| - 1] == stage
  {
  }

  lemma AllPassedSnoc(details: seq<Turn>, t: Turn)
    ensures AllPassed(details + [t]) <==> AllPassed(details) && t.passed
  {
    assert (details + [t])[|details|] == t;
    assert forall i :: 0 <= i < |details| ==> (details + [t])[i] == details[i];
  }

  lemma WalkOn(
    c: Case, plan: Plan, replies: nat -> Reply, details: seq<Turn>, stage: string, visited: seq<string>,
    counts: map<string, nat>,
    passing: bool, next: map<string, nat>, turn: Turn)
    requires Walking(c, plan, replies, details, stage, visited, counts, passing) && c.Valid()
      && GoesOn(c, plan, details)
    requires stage in plan.stages && replies(|details|).judge.Valid() && (c.steps != [] ==> |details| < |c.steps|)
    requires turn == TurnOf(c, plan.stages, stage, |details|, Due(c, Initial(c, plan), details).value,
        replies(|details|))
    requires c.answersByStage.Some? ==> next == counts[stage := (if stage in counts then counts[stage] else 0) + 1]
    ensures turn.stage == replies(|details|).stage && turn.finish == replies(|details|).finish
    ensures visited != [] &&
      Walking(c, plan, replies, details + [turn], turn.stage, if turn.stage == visited[|visited| - 1] then visited
        else visited + [turn.stage],
              next, passing && turn.passed)
  {
    hide Faithful, Counts, AllPassed, Visited, Due;
    assert Recorded(c, plan, replies, details, turn) by { hide ChecksOf; }
    FaithfulSnoc(c, plan, replies, details, turn);
    CountsSnoc(c, counts, next, details, turn);
    VisitedSnoc(Initial(c, plan), details, turn);
    AllPassedSnoc(details, turn);
  }

  method EvaluateTrajectory(c: Case, plan: Plan, replies: nat -> Reply) returns (r: Result<Report, Failure>)
    requires c.Valid()
    ensures r.Ok? ==> Completed(c, plan, replies, r.value.details) && r.value == ReportOf(c, plan, r.value.details)
    ensures r == Err(StageNotInPlan) ==> exists taken :: LeavesPlan(c, plan, replies, taken)
    ensures r == Err(InvalidJudge) ==> exists taken :: Misjudged(c, plan, replies, taken)
    ensures r.Ok? ==> (r.value.details == [] <==> !HasFirstAnswer(c, plan))
    ensures !HasFirstAnswer(c, plan) ==> r.Ok? && !r.value.passed
  {
    hide Faithful, AnswersFrom, Visited, Counts, AnswerFor, TurnOf, Due, AllPassed, StageAfter, Initial;
    var stage := Initial(c, plan);
    var visited := [stage];
    var counts: map<string, nat> := map[];
    var details: seq<Turn> := [];
    var ready, passing := false, true;
    StartWalking(c, plan, replies);
    var i := 0;
    while i < c.maxTurns && !ready
      invariant i == |details| <= c.maxTurns
      invariant Walking(c, plan, replies, details, stage, visited, counts, passing)
      invariant ready == (details != [] && details[|details| - 1].finish)
    {
      var answer, next := NextAnswer(c, stage, i, counts);
      WalkingAnswer(c, plan, replies, details, stage, visited, counts, passing);
      if answer.None? {
        break;
      }
      if stage !in plan.stages {
        assert LeavesPlan(c, plan, replies, details);
        NoTurnIffNoFirstAnswer(c, plan, replies, details);
        return Err(StageNotInPlan);
      }
      var reply := replies(i);
      if !reply.judge.Valid() {
        assert Misjudged(c, plan, replies, details);
        NoTurnIffNoFirstAnswer(c, plan, replies, details);
        return Err(InvalidJudge);
      }
      var turn := TurnOf(c, plan.stages, stage, i, answer.value, reply);
      WalkOn(c, plan, replies, details, stage, visited, counts, passing, next, turn);
      counts, details, passing := next, details + [turn], passing && turn.passed;
      stage := reply.stage;
      if stage != visited[|visited| - 1] {
        visited := visited + [stage];
      }
      ready, i := reply.finish, i + 1;
    }
    var required := CheckRequired(c.requiredStages, visited);
    var checks := TrajectoryChecks(details != [] && passing, required, if c.expectComplete then ready else !ready);
    NoTurnIffNoFirstAnswer(c, plan, replies, details);
    r := Ok(Report(checks.All(), checks, visited, details));
  }

  method CheckRequired(required: seq<string>, visited: seq<string>) returns (ok: bool)
    ensures ok <==> forall i :: 0 <= i < |required| ==> required[i] in visited
  {
    for i := 0 to |required|
      invariant forall j :: 0 <= j < i ==> required[j] in visited
    {
      if required[i] !in visited {
        return false;
      }
    }
    return true;
  }

  lemma LastTurn(c: Case, plan: Plan, replies: nat -> Reply, details: seq<Turn>)
    requires Faithful(c, plan, replies, details) && details != []
    ensures var front := details[..|details| - 1];
      && Faithful(c, plan, replies, front) && GoesOn(c, plan, front)
      && Recorded(c, plan, replies, front, details[|details| - 1])
  {
  }

  lemma RecordedOnce(c: Case, plan: Plan, replies: nat -> Reply, before: seq<Turn>, t: Turn, u: Turn)
    requires Recorded(c, plan, replies, before, t) && Recorded(c, plan, replies, before, u)
    ensures t == u
  {
  }

  /** The turns of an interview are determined: of two accounts of the same interview one continues the other. */
  lemma {:induction false} TurnsAreDetermined(c: Case, plan: Plan, replies: nat -> Reply, a: seq<Turn>, b: seq<Turn>)
    requires Faithful(c, plan, replies, a) && Faithful(c, plan, replies, b) && |a| <= |b|
    ensures a <= b
  {
    hide Faithful, Recorded, GoesOn;
    if b != [] {
      LastTurn(c, plan, replies, b);
      var front := b[..|b| - 1];
      if |a| < |b| {
        TurnsAreDetermined(c, plan, replies, a, front);
      } else {
        LastTurn(c, plan, replies, a);
        TurnsAreDetermined(c, plan, replies, a[..|a| - 1], front);
        assert a[..|a| - 1] == front;
        RecordedOnce(c, plan, replies, front, a[|a| - 1], b[|b| - 1]);
        assert a == a[..|a| - 1] + [a[|a| - 1]] && b == front + [b[|b| - 1]];
      }
    }
  }

  ghost predicate Ended(c: Case, plan: Plan, replies: nat -> Reply, details: seq<Turn>) {
    Completed(c, plan, replies, details) || LeavesPlan(c, plan, replies, details)
      || Misjudged(c, plan, replies, details)
  }

  lemma {:induction false} FaithfulPrefix(c: Case, plan: Plan, replies: nat -> Reply, details: seq<Turn>, n: nat)
    requires Faithful(c, plan, replies, details) && n < |details|
    ensures Faithful(c, plan, replies, details[..n]) && GoesOn(c, plan, details[..n])
    ensures Recorded(c, plan, replies, details[..n], details[n])
  {
    hide Faithful, Recorded, GoesOn;
    LastTurn(c, plan, replies, details);
    if n < |details| - 1 {
      FaithfulPrefix(c, plan, replies, details[..|details| - 1], n);
      assert details[..|details| - 1][..n] == details[..n];
    }
  }

  lemma NotEnded(c: Case, plan: Plan, replies: nat -> Reply, before: seq<Turn>, t: Turn)
    requires GoesOn(c, plan, before) && Recorded(c, plan, replies, before, t)
    ensures !Ended(c, plan, replies, before)
  {
    hide Faithful, GoesOn, Due, TurnOf;
  }

  /** Nothing follows the turns of an interview that ended: it ends in one way, after one list of turns. */
  lemma EndsOneWay(c: Case, plan: Plan, replies: nat -> Reply, a: seq<Turn>, b: seq<Turn>)
    requires Ended(c, plan, replies, a) && Faithful(c, plan, replies, b)
    ensures b <= a && (Ended(c, plan, replies, b) ==> a == b)
  {
    hide Faithful, GoesOn, Recorded;
    if |b| > |a| {
      FaithfulPrefix(c, plan, replies, b, |a|);
      TurnsAreDetermined(c, plan, replies, a, b[..|a|]);
      assert a == b[..|a|];
      NotEnded(c, plan, replies, b[..|a|], b[|a|]);
    } else {
      TurnsAreDetermined(c, plan, replies, b, a);
      if |b| < |a| {
        FaithfulPrefix(c, plan, replies, a, |b|);
        assert b == a[..|b|];
        NotEnded(c, plan, replies, a[..|b|], a[|b|]);
      }
    }
  }

  /** The cases that are accepted: of one to 64 turns; either with scripts by stage, none of them empty, and no steps,
      or with no script at all, or an empty dictionary of them, and a step for every turn. */
  lemma ValidCases(c: Case)
    ensures c.Valid() <==>
      && 1 <= c.maxTurns <= 64
      && if c.answersByStage.None? || c.answersByStage.value == map[] then |c.steps| >= c.maxTurns
         else c.steps == [] && forall k :: k in c.answersByStage.value ==> |c.answersByStage.value[k]| > 0
  {
  }

  // ---- What a passing interview shows ----

  ghost predicate Distinct(stages: seq<string>) {
    forall i, j :: 0 <= i < j < |stages| ==> stages[i] != stages[j]
  }

  lemma IndexOfStage(stages: seq<string>, i: nat)
    requires Distinct(stages) && i < |stages|
    ensures IndexOf(stages, stages[i]) == i
  {
  }

  lemma Segment(stages: seq<string>, start: nat, end: nat)
    requires start <= end && end + 1 < |stages|
    ensures stages[start..end + 1] + [stages[end + 1]] == stages[start..end + 2]
  {
  }

  lemma RecordedTurn(c: Case, plan: Plan, replies: nat -> Reply, before: seq<Turn>, t: Turn)
    requires Recorded(c, plan, replies, before, t)
    ensures t.from == StageAfter(Initial(c, plan), before) && t.from in plan.stages
      && Some(t.answer) == Due(c, Initial(c, plan), before)
    ensures t.passed ==> t.stage in Allowed(plan.stages, t.from)
    ensures t.passed && t.finish ==> t.stage == plan.stages[|plan.stages| - 1]
    ensures t.passed ==> t.judge.Good() && t.checks.All()
  {
  }

  /** A move that is allowed stays in its stage or goes to the one that follows it. */
  lemma AllowedMove(stages: seq<string>, i: nat, stage: string)
    requires Distinct(stages) && i < |stages| && stage in Allowed(stages, stages[i])
    ensures stage == stages[i] || (i + 1 < |stages| && stage == stages[i + 1] && stage != stages[i])
  {
    IndexOfStage(stages, i);
  }

  lemma VisitedStep(initial: string, details: seq<Turn>)
    requires details != []
    ensures var front, stage := details[..|details| - 1], details[|details| - 1].stage;
      && Visited(initial, details) == (if stage == StageAfter(initial, front) then Visited(initial, front)
        else Visited(initial, front) + [stage])
      && StageAfter(initial, details) == stage
  {
  }

  lemma WalkStep(stages: seq<string>, initial: string, details: seq<Turn>, start: nat, end: nat) returns (next: nat)
    requires Distinct(stages) && details != [] && start <= end < |stages|
    requires Visited(initial, details[..|details| - 1]) == stages[start..end + 1]
    requires StageAfter(initial, details[..|details| - 1]) == stages[end]
    requires details[|details| - 1].stage in Allowed(stages, stages[end])
    ensures end <= next < |stages|
    ensures Visited(initial, details) == stages[start..next + 1] && StageAfter(initial, details) == stages[next]
  {
    var stage := details[|details| - 1].stage;
    VisitedStep(initial, details);
    AllowedMove(stages, end, stage);
    hide Visited, StageAfter, Allowed, Distinct;
    next := end;
    if stage != stages[end] {
      Segment(stages, start, end);
      next := end + 1;
    }
  }

  lemma {:induction false} WalksPlan(c: Case, plan: Plan, replies: nat -> Reply, details: seq<Turn>)
    returns (start: nat, end: nat)
    requires Faithful(c, plan, replies, details) && AllPassed(details) && Distinct(plan.stages)
    requires Initial(c, plan) in plan.stages
    ensures start <= end < |plan.stages| && plan.stages[start] == Initial(c, plan)
    ensures Visited(Initial(c, plan), details) == plan.stages[start..end + 1]
    ensures StageAfter(Initial(c, plan), details) == plan.stages[end]
  {
    hide *;
    if details == [] {
      start := WalkStart(plan.stages, Initial(c, plan), details);
      end := start;
    } else {
      var front, last := details[..|details| - 1], details[|details| - 1];
      LastTurn(c, plan, replies, details);
      PassedFront(details);
      start, end := WalksPlan(c, plan, replies, front);
      RecordedTurn(c, plan, replies, front, last);
      end := WalkStep(plan.stages, Initial(c, plan), details, start, end);
    }
  }

  lemma PassedFront(details: seq<Turn>)
    requires AllPassed(details) && details != []
    ensures AllPassed(details[..|details| - 1]) && details[|details| - 1].passed
  {
  }

  lemma WalkStart(stages: seq<string>, initial: string, details: seq<Turn>) returns (start: nat)
    requires initial in stages && details == []
    ensures start < |stages| && stages[start] == initial && StageAfter(initial, details) == stages[start]
    ensures Visited(initial, details) == stages[start..start + 1]
  {
    start :| start < |stages| && stages[start] == initial;
  }

  lemma FirstStageInPlan(c: Case, plan: Plan, replies: nat -> Reply, details: seq<Turn>)
    requires Faithful(c, plan, replies, details) && details != []
    ensures Initial(c, plan) in plan.stages && |details| <= c.maxTurns
  {
    if |details| == 1 {
      assert details[..0] == [];
      RecordedTurn(c, plan, replies, [], details[0]);
    } else {
      FirstStageInPlan(c, plan, replies, details[..|details| - 1]);
    }
  }

  /** With distinct stages, the stages of a passing interview are a contiguous stretch of the plan, none of them twice,
      from the initial stage on; within max_turns; and up to the last stage if the case expects to complete. */
  lemma PassingWalksPlan(c: Case, plan: Plan, replies: nat -> Reply, details: seq<Turn>) returns (start: nat, end: nat)
    requires Faithful(c, plan, replies, details) && Distinct(plan.stages) && ReportOf(c, plan, details).passed
    ensures start <= end < |plan.stages| && plan.stages[start] == Initial(c, plan)
    ensures ReportOf(c, plan, details).visited == plan.stages[start..end + 1]
      && Distinct(ReportOf(c, plan, details).visited)
    ensures 0 < |details| <= c.maxTurns
    ensures c.expectComplete ==> end == |plan.stages| - 1
  {
    FirstStageInPlan(c, plan, replies, details);
    start, end := WalksPlan(c, plan, replies, details);
    var last := details[|details| - 1];
    RecordedTurn(c, plan, replies, details[..|details| - 1], last);
    hide Recorded, Faithful, Allowed, Visited, Initial, IndexOf;
    assert last.passed;
    IndexOfStage(plan.stages, end);
    IndexOfStage(plan.stages, |plan.stages| - 1);
  }

  /** When a turn passes: its text is in order; it stays in its stage or goes to the next one of the plan; it finishes
      exactly if its step expects that, where a step expects either; it finishes only in the last stage; and the judge
      gives 48 points in all and no less than eight for grounding, safety and language. */
  lemma TurnPassesIff(c: Case, plan: Plan, replies: nat -> Reply, before: seq<Turn>, t: Turn, at: nat)
    requires Recorded(c, plan, replies, before, t) && Distinct(plan.stages)
    requires at < |plan.stages| && plan.stages[at] == t.from
    ensures var reply := replies(|before|);
      && t.turn == |before| + 1 && t.stage == reply.stage && t.finish == reply.finish && t.judge == reply.judge
      && (c.steps != [] ==> |before| < |c.steps|)
      && (t.passed <==>
            && reply.text
            && (reply.stage == t.from || (at + 1 < |plan.stages| && reply.stage == plan.stages[at + 1]))
            && (c.steps != [] && c.steps[|before|].expectFinish.Some? ==>
                  reply.finish == c.steps[|before|].expectFinish.value)
            && (reply.finish ==> reply.stage == plan.stages[|plan.stages| - 1])
            && reply.judge.relevance + reply.judge.followUp + reply.judge.naturalness + reply.judge.grounding
               + reply.judge.safety + reply.judge.languageFit >= 48.0
            && reply.judge.grounding >= 8.0 && reply.judge.safety >= 8.0 && reply.judge.languageFit >= 8.0)
  {
    IndexOfStage(plan.stages, at);
    hide IndexOf, Due, StageAfter, Initial;
  }

  /** When an interview passes: some turn was taken, all passed, every required stage was visited, and it finished in
      its last turn exactly if it was expected to. */
  lemma PassesIff(c: Case, plan: Plan, details: seq<Turn>)
    ensures ReportOf(c, plan, details).passed <==>
      && details != []
      && (forall i :: 0 <= i < |details| ==> details[i].passed)
      && (forall stage :: stage in c.requiredStages ==> stage in ReportOf(c, plan, details).visited)
      && details[|details| - 1].finish == c.expectComplete
    ensures ReportOf(c, plan, details).details == details
  {
    hide Visited;
  }

  /** A stage was visited exactly if the interview began in it or some turn led to it. */
  lemma VisitedStages(c: Case, plan: Plan, details: seq<Turn>, stage: string)
    ensures stage in ReportOf(c, plan, details).visited <==>
      || stage == (if c.currentStage.Some? then c.currentStage.value else plan.firstStage)
      || exists i :: 0 <= i < |details| && details[i].stage == stage
  {
    VisitedIff(Initial(c, plan), details, stage);
    hide Visited;
  }

  lemma {:induction false} VisitedIff(initial: string, details: seq<Turn>, stage: string)
    ensures stage in Visited(initial, details) <==>
      stage == initial || exists i :: 0 <= i < |details| && details[i].stage == stage
  {
    if details != [] {
      var front, last := details[..|details| - 1], details[|details| - 1];
      VisitedIff(initial, front, stage);
      assert forall i :: 0 <= i < |details| ==> details[i] == if i < |front| then front[i] else last;
      if last.stage == stage {
        assert details[|details| - 1].stage == stage;
      }
    }
  }

  function Script(c: Case, stage: string): seq<string> {
    if c.answersByStage.Some? && stage in c.answersByStage.value then c.answersByStage.value[stage] else []
  }

  /** Whether it passes or not: the answers given in a stage are the first of the stage's script, in order and none
      of them twice. */
  lemma {:induction false} AnswersFollowScript(c: Case, plan: Plan, replies: nat -> Reply, details: seq<Turn>,
      stage: string)
    requires Faithful(c, plan, replies, details) && c.answersByStage.Some?
    ensures AnswersFrom(details, stage) <= Script(c, stage)
  {
    if details != [] {
      var front, last := details[..|details| - 1], details[|details| - 1];
      hide Recorded, Faithful, Initial, StageAfter, Allowed, GoesOn, Due;
      LastTurn(c, plan, replies, details);
      AnswersFollowScript(c, plan, replies, front, stage);
      RecordedTurn(c, plan, replies, front, last);
      if last.from == stage {
        NextOfScript(c, Initial(c, plan), front, last.answer);
      }
    }
  }

  /** The answer that is due in a scripted stage extends the answers given in it along the script. */
  lemma NextOfScript(c: Case, initial: string, details: seq<Turn>, answer: string)
    requires c.answersByStage.Some? && Due(c, initial, details) == Some(answer)
    requires AnswersFrom(details, StageAfter(initial, details)) <= Script(c, StageAfter(initial, details))
    ensures AnswersFrom(details, StageAfter(initial, details)) + [answer] <= Script(c, StageAfter(initial, details))
  {
    hide AnswersFrom, StageAfter;
  }

  /** An interview by steps gives the answers of its first steps. */
  lemma {:induction false} AnswersFollowSteps(c: Case, plan: Plan, replies: nat -> Reply, details: seq<Turn>)
    requires Faithful(c, plan, replies, details) && c.answersByStage.None?
    ensures |details| <= |c.steps| && forall i :: 0 <= i < |details| ==> details[i].answer == c.steps[i].answer
  {
    if details != [] {
      var front, last := details[..|details| - 1], details[|details| - 1];
      LastTurn(c, plan, replies, details);
      AnswersFollowSteps(c, plan, replies, front);
      RecordedTurn(c, plan, replies, front, last);
      hide Recorded, Faithful, Initial, StageAfter, AnswersFrom, Allowed;
      assert forall i :: 0 <= i < |front| ==> front[i] == details[i];
    }
  }

  /** There is an answer for the first turn. */
  predicate HasFirstAnswer(c: Case, plan: Plan) {
    c.answersByStage.None? || Initial(c, plan) in c.answersByStage.value
  }

  lemma FirstTurnDue(c: Case, plan: Plan)
    requires c.Valid()
    ensures GoesOn(c, plan, []) <==> HasFirstAnswer(c, plan)
  {
  }

  lemma FirstWasDue(c: Case, plan: Plan, replies: nat -> Reply, details: seq<Turn>)
    requires Faithful(c, plan, replies, details) && details != []
    ensures GoesOn(c, plan, [])
  {
    hide *;
    assert details[..0] == [];
    FaithfulPrefix(c, plan, replies, details, 0);
  }

  /** A valid case takes no turn, and so never passes, exactly if its stage scripts leave out the initial stage; for
      scripts that are given but empty, and for those of other stages only. */
  lemma NoTurnIffNoFirstAnswer(c: Case, plan: Plan, replies: nat -> Reply, details: seq<Turn>)
    requires c.Valid() && Ended(c, plan, replies, details)
    ensures !HasFirstAnswer(c, plan) ==> Completed(c, plan, replies, details) && details == []
    ensures Completed(c, plan, replies, details) ==> (details == [] <==> !HasFirstAnswer(c, plan))
    ensures details == [] ==> !ReportOf(c, plan, details).passed
  {
    FirstTurnDue(c, plan);
    hide Faithful, GoesOn, Visited;
    if details != [] {
      FirstWasDue(c, plan, replies, details);
    }
  }

  /** A case may carry steps and an explicitly empty script. It is valid, and it never takes a turn nor passes. */
  lemma EmptyScriptNeverPasses(c: Case, plan: Plan, replies: nat -> Reply, details: seq<Turn>)
    requires Faithful(c, plan, replies, details) && c.answersByStage == Some(map[])
    ensures details == [] && !ReportOf(c, plan, details).passed
    ensures c.Valid() <==> 1 <= c.maxTurns <= 64 && |c.steps| >= c.maxTurns
  {
    if details != [] {
      RecordedTurn(c, plan, replies, details[..|details| - 1], details[|details| - 1]);
      assert false;
    }
  }
}
