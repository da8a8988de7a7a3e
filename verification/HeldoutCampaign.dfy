/** Release campaigns: calibration, the one opening of the held-out split, and the reports they leave. Any number
    of processes, campaigns and output paths; a process may stop between any two steps. */
module HeldoutCampaign {
  import opened Support
  import C = Calibration
  import RankingMetrics
  import Thresholds

  /** Everything that makes up the identity of a campaign; its hash is taken to tell campaigns apart. */
  datatype Campaign = Campaign(code: nat, runtime: nat, cuda: bool, rest: nat)

  /** The calibrated part of a profile, on top of the fixed part. */
  datatype Profile = Profile(fixed: bool, minScore: Option<real>, scoreMargin: Option<Option<real>>)

  datatype Status = Running | Failed | HeldoutRunning | Completed

  datatype Report = Report(
    campaign: Campaign, status: Status, ready: Option<bool>, profile: Option<Profile>, fingerprint: Option<Profile>)

  /** A ledger may be cut off while it is created; it then exists all the same. */
  datatype Ledger = Opened(whole: bool) | Closed(ready: bool)

  datatype Phase =
    | Waiting
    | Entered
    | Unopened
    | Planned
    | Reporting
    | Calibrated(profile: Profile)
    | Claimed(profile: Profile)
    | Announced(profile: Profile)
    | Retrieved(profile: Profile)
    | Reported(ready: bool)
    | Ended

  datatype Process = Process(campaign: Campaign, output: nat, phase: Phase)

  datatype State = State(
    locking: bool, lock: Option<nat>, ledgers: map<Campaign, Ledger>, outputs: map<nat, Report>,
    processes: map<nat, Process>, retrievals: map<Campaign, nat>)

  datatype Step =
    | Launch(p: nat, campaign: Campaign, output: nat)
    | Enter(p: nat)
    | CheckOutput(p: nat)
    | CheckLedger(p: nat)
    | SaveRunning(p: nat)
    | FailAlignment(p: nat)
    | FailCalibration(p: nat)
    | PassCalibration(p: nat, profile: Profile)
    | Claim(p: nat)
    | CutClaim(p: nat)
    | Announce(p: nat)
    | Retrieve(p: nat)
    | Complete(p: nat, ready: bool)
    | CloseLedger(p: nat)
    | Stop(p: nat)

  function Initial(locking: bool): State {
    State(locking, None, map[], map[], map[], map[])
  }

  /** What calibration may recommend. */
  predicate Recommended(profile: Profile) {
    && profile.fixed && profile.minScore.Some? && 0.80 <= profile.minScore.value <= 0.99
    && profile.scoreMargin.Some?
    && (profile.scoreMargin.value.Some? ==> 0.0 <= profile.scoreMargin.value.value <= 0.1)
  }

  function RetrievalsOf(s: State, c: Campaign): nat {
    if c in s.retrievals then s.retrievals[c] else 0
  }

  function ReportAt(s: State, output: nat): Option<Report> {
    if output in s.outputs then Some(s.outputs[output]) else None
  }

  predicate Terminal(status: Status) {
    status.Failed? || status.HeldoutRunning? || status.Completed?
  }

  predicate In(s: State, p: nat, phase: Phase) {
    p in s.processes && s.processes[p].phase == phase
  }

  predicate Enabled(s: State, step: Step) {
    match step
    case Launch(p, c, _) => c.cuda && (p in s.processes ==> s.processes[p].phase.Ended?)
    case Enter(p) => In(s, p, Waiting)
    case CheckOutput(p) => In(s, p, Entered)
    case CheckLedger(p) => In(s, p, Unopened)
    case SaveRunning(p) => In(s, p, Planned)
    case FailAlignment(p) => In(s, p, Reporting)
    case FailCalibration(p) => In(s, p, Reporting)
    case PassCalibration(p, profile) => In(s, p, Reporting) && Recommended(profile)
    case Claim(p) => p in s.processes && s.processes[p].phase.Calibrated?
    case CutClaim(p) => p in s.processes && s.processes[p].phase.Calibrated?
    case Announce(p) => p in s.processes && s.processes[p].phase.Claimed?
    case Retrieve(p) => p in s.processes && s.processes[p].phase.Announced?
    case Complete(p, _) => p in s.processes && s.processes[p].phase.Retrieved?
    case CloseLedger(p) => p in s.processes && s.processes[p].phase.Reported?
    case Stop(p) => p in s.processes && !s.processes[p].phase.Ended?
  }

  /** The process that a step is a step of, as it is when the step begins. */
  function Actor(s: State, step: Step): Process
    requires Enabled(s, step)
  {
    if step.Launch? then Process(step.campaign, step.output, Waiting) else s.processes[step.p]
  }

  /** An existing output is only built on if it is of the same campaign and its run was merely interrupted. */
  predicate Resumable(s: State, me: Process) {
    var report := ReportAt(s, me.output);
    report.Some? ==> report.value.campaign == me.campaign && !Terminal(report.value.status)
  }

  function PhaseAfter(s: State, step: Step): Phase
    requires Enabled(s, step)
  {
    var me := Actor(s, step);
    match step
    case Launch(_, _, _) => Waiting
    case Enter(_) => if s.locking && s.lock.Some? then Ended else Entered
    case CheckOutput(_) => if Resumable(s, me) then Unopened else Ended
    case CheckLedger(_) => if me.campaign in s.ledgers then Ended else Planned
    case SaveRunning(_) => Reporting
    case PassCalibration(_, profile) => Calibrated(profile)
    case Claim(_) => if me.campaign in s.ledgers then Ended else Claimed(me.phase.profile)
    case Announce(_) => Announced(me.phase.profile)
    case Retrieve(_) => Retrieved(me.phase.profile)
    case Complete(_, ready) => Reported(ready)
    case FailAlignment(_) | FailCalibration(_) | CutClaim(_) | CloseLedger(_) | Stop(_) => Ended
  }

  /** The ledger is created exclusively, and written once more when the run completes. */
  function LedgersAfter(s: State, step: Step): map<Campaign, Ledger>
    requires Enabled(s, step)
  {
    var me := Actor(s, step);
    match step
    case Claim(_) => if me.campaign in s.ledgers then s.ledgers else s.ledgers[me.campaign := Opened(true)]
    case CutClaim(_) => if me.campaign in s.ledgers then s.ledgers else s.ledgers[me.campaign := Opened(false)]
    case CloseLedger(_) => s.ledgers[me.campaign := Closed(me.phase.ready)]
    case _ => s.ledgers
  }

  /** The report that a step saves, if it saves one. */
  function Saved(s: State, step: Step): Option<Report>
    requires Enabled(s, step)
  {
    var me := Actor(s, step);
    match step
    case SaveRunning(_) => Some(Report(me.campaign, Running, None, None, None))
    case FailAlignment(_) | FailCalibration(_) => Some(Report(me.campaign, Failed, Some(false), None, None))
    case Announce(_) =>
      Some(Report(me.campaign, HeldoutRunning, None, Some(me.phase.profile), Some(me.phase.profile)))
    case Complete(_, ready) =>
      Some(Report(me.campaign, Completed, Some(ready), Some(me.phase.profile), Some(me.phase.profile)))
    case _ => None
  }

  function OutputsAfter(s: State, step: Step): map<nat, Report>
    requires Enabled(s, step)
  {
    if Saved(s, step).Some? then s.outputs[Actor(s, step).output := Saved(s, step).value] else s.outputs
  }

  function RetrievalsAfter(s: State, step: Step): map<Campaign, nat>
    requires Enabled(s, step)
  {
    var c := Actor(s, step).campaign;
    if step.Retrieve? then s.retrievals[c := RetrievalsOf(s, c) + 1] else s.retrievals
  }

  /** The lock is taken on entry and given back when the process ends, however it ends. */
  function LockAfter(s: State, step: Step): Option<nat>
    requires Enabled(s, step)
  {
    if step.Enter? && s.locking && s.lock.None? then Some(step.p)
    else if PhaseAfter(s, step).Ended? && s.lock == Some(step.p) then None
    else s.lock
  }

  function Apply(s: State, step: Step): State
    requires Enabled(s, step)
  {
    State(s.locking, LockAfter(s, step), LedgersAfter(s, step), OutputsAfter(s, step),
          s.processes[step.p := Actor(s, step).(phase := PhaseAfter(s, step))], RetrievalsAfter(s, step))
  }

  function After(s: State, steps: seq<Step>): Option<State> {
    if steps == [] then Some(s)
    else
      match After(s, steps[..|steps| - 1])
      case None => None
      case Some(t) => if Enabled(t, steps[|steps| - 1]) then Some(Apply(t, steps[|steps| - 1])) else None
  }

  // ---- The held-out split is opened once ----

  /** What a process holds of a campaign: nothing, its ledger and the right to retrieve, or its ledger only. */
  datatype Stake = Nothing | Unused | Spent

  function StakeOf(s: State, p: nat, c: Campaign): Stake {
    if p !in s.processes || s.processes[p].campaign != c then Nothing
    else
      match s.processes[p].phase
      case Claimed(_) | Announced(_) => Unused
      case Retrieved(_) | Reported(_) => Spent
      case _ => Nothing
  }

  function LedgerOf(s: State, c: Campaign): Option<Ledger> {
    if c in s.ledgers then Some(s.ledgers[c]) else None
  }

  ghost predicate OpenedOnce(s: State, c: Campaign) {
    && RetrievalsOf(s, c) <= 1
    && (RetrievalsOf(s, c) > 0 ==> LedgerOf(s, c).Some?)
    && (forall p :: StakeOf(s, p, c) != Nothing ==> LedgerOf(s, c) == Some(Opened(true)))
    && (forall p :: StakeOf(s, p, c) == Unused ==> RetrievalsOf(s, c) == 0)
    && (forall p, q :: StakeOf(s, p, c) != Nothing && StakeOf(s, q, c) != Nothing ==> p == q)
  }

  lemma OthersStake(s: State, step: Step, p: nat, c: Campaign)
    requires Enabled(s, step) && p != step.p
    ensures StakeOf(Apply(s, step), p, c) == StakeOf(s, p, c)
  {
    hide LockAfter, LedgersAfter, OutputsAfter, PhaseAfter, RetrievalsAfter, Enabled;
  }

  /** What a step may do to one campaign, as seen from the process that takes it. */
  predicate Change(s: State, t: State, p: nat, c: Campaign) {
    var stake, next := StakeOf(s, p, c), StakeOf(t, p, c);
    var sameLedger, sameCount := LedgerOf(t, c) == LedgerOf(s, c), RetrievalsOf(t, c) == RetrievalsOf(s, c);
    || (sameLedger && sameCount && (next == stake || next == Nothing))
    || (LedgerOf(s, c).None? && sameCount && LedgerOf(t, c) == Some(Opened(true)) && next == Unused)
    || (LedgerOf(s, c).None? && sameCount && LedgerOf(t, c) == Some(Opened(false)) && stake == next == Nothing)
    || (sameLedger && stake == Unused && next == Spent && RetrievalsOf(t, c) == RetrievalsOf(s, c) + 1)
    || (stake == Spent && next == Nothing && sameCount && LedgerOf(t, c).Some?)
  }

  lemma StepOnCampaign(s: State, step: Step, c: Campaign)
    requires Enabled(s, step)
    ensures Change(s, Apply(s, step), step.p, c)
  {
    hide LockAfter, OutputsAfter, Saved;
  }

  /** This needs no lock: the exclusive creation of the ledger suffices. */
  lemma StepOpensOnce(s: State, step: Step, c: Campaign)
    requires OpenedOnce(s, c) && Enabled(s, step)
    ensures OpenedOnce(Apply(s, step), c)
    ensures LedgerOf(s, c).Some? ==> LedgerOf(Apply(s, step), c).Some?
  {
    var t := Apply(s, step);
    StepOnCampaign(s, step, c);
    forall p | p != step.p ensures StakeOf(t, p, c) == StakeOf(s, p, c) {
      OthersStake(s, step, p, c);
    }
    hide Apply, Enabled, StakeOf, LedgerOf, RetrievalsOf;
  }

  lemma {:induction false} RunOpensOnce(locking: bool, steps: seq<Step>, c: Campaign)
    requires After(Initial(locking), steps).Some?
    ensures OpenedOnce(After(Initial(locking), steps).value, c)
  {
    hide Apply, Enabled, OpenedOnce;
    if steps == [] {
      InitialOpensOnce(locking, c);
    } else {
      RunOpensOnce(locking, steps[..|steps| - 1], c);
      StepOpensOnce(After(Initial(locking), steps[..|steps| - 1]).value, steps[|steps| - 1], c);
    }
  }

  lemma InitialOpensOnce(locking: bool, c: Campaign)
    ensures OpenedOnce(Initial(locking), c)
  {
  }

  /** The campaign and the output that a process was last launched with. */
  function LaunchOf(steps: seq<Step>, p: nat): Option<(Campaign, nat)> {
    if steps == [] then None
    else
      var last := steps[|steps| - 1];
      if last.Launch? && last.p == p then Some((last.campaign, last.output)) else LaunchOf(steps[..|steps| - 1], p)
  }

  /** How often the held-out split of a campaign is retrieved. */
  function RetrievalsIn(steps: seq<Step>, c: Campaign): nat {
    if steps == [] then 0
    else
      var front, last := steps[..|steps| - 1], steps[|steps| - 1];
      var launch := LaunchOf(front, last.p);
      RetrievalsIn(front, c) + One(last.Retrieve? && launch.Some? && launch.value.0 == c)
  }

  lemma StepRetrieves(s: State, step: Step, c: Campaign)
    requires Enabled(s, step)
    ensures step.Retrieve? ==> step.p in s.processes
    ensures RetrievalsOf(Apply(s, step), c)
         == RetrievalsOf(s, c) + One(step.Retrieve? && s.processes[step.p].campaign == c)
    ensures forall p :: p in Apply(s, step).processes ==>
      var me := Apply(s, step).processes[p];
      if step.Launch? && step.p == p then (me.campaign, me.output) == (step.campaign, step.output)
      else p in s.processes && (me.campaign, me.output) == (s.processes[p].campaign, s.processes[p].output)
  {
    hide PhaseAfter, LedgersAfter, OutputsAfter, LockAfter;
  }

  /** The counters of the state are those of the run, and every process works on what it was launched with. */
  lemma {:induction false} RetrievalsOfRun(locking: bool, steps: seq<Step>, c: Campaign)
    requires After(Initial(locking), steps).Some?
    ensures var s := After(Initial(locking), steps).value;
      && RetrievalsOf(s, c) == RetrievalsIn(steps, c)
      && forall p :: p in s.processes ==> LaunchOf(steps, p) == Some((s.processes[p].campaign, s.processes[p].output))
  {
    if steps != [] {
      var front, last := steps[..|steps| - 1], steps[|steps| - 1];
      hide Apply, Enabled, RetrievalsOf;
      RetrievalsOfRun(locking, front, c);
      StepRetrieves(After(Initial(locking), front).value, last, c);
    } else {
      assert RetrievalsOf(Initial(locking), c) == 0;
    }
  }

  /** However many processes run a campaign, on whatever outputs, with or without the lock: its held-out split is
      retrieved at most once. */
  lemma HeldoutAtMostOnce(locking: bool, steps: seq<Step>, c: Campaign)
    requires After(Initial(locking), steps).Some?
    ensures RetrievalsIn(steps, c) <= 1
  {
    RunOpensOnce(locking, steps, c);
    RetrievalsOfRun(locking, steps, c);
  }

  /** The retrieval always comes after a whole ledger of the campaign is in place, and never after an earlier one. */
  lemma RetrievedAfterLedger(locking: bool, steps: seq<Step>, p: nat)
    requires After(Initial(locking), steps).Some? && Enabled(After(Initial(locking), steps).value, Retrieve(p))
    ensures LaunchOf(steps, p).Some?
    ensures var c := LaunchOf(steps, p).value.0;
      LedgerOf(After(Initial(locking), steps).value, c) == Some(Opened(true)) && RetrievalsIn(steps, c) == 0
  {
    RetrievalsOfRun(locking, steps, After(Initial(locking), steps).value.processes[p].campaign);
    var s := After(Initial(locking), steps).value;
    var c := s.processes[p].campaign;
    RunOpensOnce(locking, steps, c);
    assert StakeOf(s, p, c) == Unused;
  }

  lemma {:induction false} AfterConcat(s: State, a: seq<Step>, b: seq<Step>)
    requires After(s, a + b).Some?
    ensures After(s, a).Some? && After(After(s, a).value, b) == After(s, a + b)
  {
    hide Apply, Enabled;
    if b == [] {
      assert a + b == a;
    } else {
      assert (a + b)[..|a + b| - 1] == a + b[..|b| - 1];
      AfterConcat(s, a, b[..|b| - 1]);
    }
  }

  lemma {:induction false} LedgerStays(s: State, more: seq<Step>, c: Campaign)
    requires OpenedOnce(s, c) && After(s, more).Some?
    ensures OpenedOnce(After(s, more).value, c)
    ensures LedgerOf(s, c).Some? ==> LedgerOf(After(s, more).value, c).Some?
  {
    hide Apply, Enabled, OpenedOnce, LedgerOf;
    if more != [] {
      LedgerStays(s, more[..|more| - 1], c);
      StepOpensOnce(After(s, more[..|more| - 1]).value, more[|more| - 1], c);
    }
  }

  /** A ledger never disappears, not even one that was cut off while it was written. */
  lemma LedgerIsForever(locking: bool, steps: seq<Step>, more: seq<Step>, c: Campaign)
    requires After(Initial(locking), steps + more).Some?
    ensures After(Initial(locking), steps).Some?
    ensures LedgerOf(After(Initial(locking), steps).value, c).Some? ==>
      LedgerOf(After(Initial(locking), steps + more).value, c).Some?
  {
    AfterConcat(Initial(locking), steps, more);
    RunOpensOnce(locking, steps, c);
    LedgerStays(After(Initial(locking), steps).value, more, c);
  }

  /** Nobody holds the ledger of the campaign, which was cut off while it was written, and nothing was retrieved. */
  ghost predicate Forfeited(s: State, c: Campaign) {
    OpenedOnce(s, c) && LedgerOf(s, c) == Some(Opened(false)) && RetrievalsOf(s, c) == 0
  }

  lemma StepKeepsForfeited(s: State, step: Step, c: Campaign)
    requires Forfeited(s, c) && Enabled(s, step)
    ensures Forfeited(Apply(s, step), c)
  {
    StepOpensOnce(s, step, c);
    StepOnCampaign(s, step, c);
    assert StakeOf(s, step.p, c) == Nothing;
    hide Apply, Enabled, StakeOf, LedgerOf, RetrievalsOf;
  }

  lemma {:induction false} StaysForfeited(s: State, more: seq<Step>, c: Campaign)
    requires Forfeited(s, c) && After(s, more).Some?
    ensures Forfeited(After(s, more).value, c)
  {
    hide Apply, Enabled, Forfeited;
    if more != [] {
      StaysForfeited(s, more[..|more| - 1], c);
      StepKeepsForfeited(After(s, more[..|more| - 1]).value, more[|more| - 1], c);
    }
  }

  lemma CutLeavesForfeited(s: State, p: nat, c: Campaign)
    requires OpenedOnce(s, c) && LedgerOf(s, c).None? && Enabled(s, CutClaim(p)) && s.processes[p].campaign == c
    ensures Forfeited(Apply(s, CutClaim(p)), c)
  {
    StepOpensOnce(s, CutClaim(p), c);
    assert RetrievalsOf(s, c) == 0;
    hide OpenedOnce, LockAfter, OutputsAfter;
  }

  /** A process that dies while it writes the first ledger of a campaign has used the campaign up: its held-out split
      is never retrieved, by no process and on no output. */
  lemma CutClaimForfeits(locking: bool, steps: seq<Step>, p: nat, more: seq<Step>)
    requires After(Initial(locking), steps).Some? && Enabled(After(Initial(locking), steps).value, CutClaim(p))
    requires LedgerOf(After(Initial(locking), steps).value,
                      After(Initial(locking), steps).value.processes[p].campaign).None?
    requires After(Initial(locking), steps + [CutClaim(p)] + more).Some?
    ensures LaunchOf(steps, p).Some?
    ensures RetrievalsIn(steps + [CutClaim(p)] + more, LaunchOf(steps, p).value.0) == 0
  {
    var s := After(Initial(locking), steps).value;
    var c := s.processes[p].campaign;
    RetrievalsOfRun(locking, steps, c);
    RunOpensOnce(locking, steps, c);
    CutLeavesForfeited(s, p, c);
    hide Apply, Enabled, OpenedOnce, LedgerOf, RetrievalsOf;
    var longer := steps + [CutClaim(p)];
    assert longer[..|steps|] == steps;
    AfterConcat(Initial(locking), longer, more);
    StaysForfeited(After(Initial(locking), longer).value, more, c);
    RetrievalsOfRun(locking, longer + more, c);
  }

  /** A process may stop at any time; ledgers, reports and retrievals stay as they are, and the lock is free again if it
      held it. */
  lemma StoppedAnywhere(s: State, p: nat)
    requires p in s.processes && !s.processes[p].phase.Ended?
    ensures Enabled(s, Stop(p))
    ensures var t := Apply(s, Stop(p));
      && t.ledgers == s.ledgers && t.outputs == s.outputs && t.retrievals == s.retrievals && In(t, p, Ended)
      && t.lock == if s.lock == Some(p) then None else s.lock
  {
  }

  /** What a calibration recommends is what a campaign may be calibrated to. */
  lemma CalibrationIsRecommended(records: seq<Thresholds.Record>, r: C.Recommendation, d: RankingMetrics.Discount)
    requires C.Recommends(records, r, d) && r.metrics.Some?
    ensures Recommended(Profile(true, Some(r.metrics.value.threshold), Some(r.metrics.value.scoreMargin)))
  {
    hide C.Eligible, C.SweepPoint, C.Selecting;
  }

  // ---- Reports ----

  /** The phases between entering and ending. */
  predicate Active(phase: Phase) {
    !phase.Waiting? && !phase.Ended?
  }

  /** What an active process knows about its own output. */
  predicate KnowsOutput(s: State, me: Process) {
    var report := ReportAt(s, me.output);
    match me.phase
    case Unopened | Planned => Resumable(s, me)
    case Reporting | Calibrated(_) | Claimed(_) =>
      report.Some? && report.value.campaign == me.campaign && report.value.status == Running
    case Announced(profile) =>
      report == Some(Report(me.campaign, HeldoutRunning, None, Some(profile), Some(profile)))
    case Retrieved(profile) =>
      report == Some(Report(me.campaign, HeldoutRunning, None, Some(profile), Some(profile)))
    case _ => true
  }

  ghost predicate Locked(s: State) {
    && s.locking
    && (forall p :: p in s.processes && Active(s.processes[p].phase) ==> s.lock == Some(p))
    && (s.lock.Some? ==> s.lock.value in s.processes && Active(s.processes[s.lock.value].phase))
    && (forall p :: p in s.processes ==> KnowsOutput(s, s.processes[p]))
  }

  lemma StepKeepsLock(s: State, step: Step)
    requires Locked(s) && Enabled(s, step)
    ensures Apply(s, step).locking
    ensures var t := Apply(s, step);
      && (forall p :: p in t.processes && Active(t.processes[p].phase) ==> t.lock == Some(p))
      && (t.lock.Some? ==> t.lock.value in t.processes && Active(t.processes[t.lock.value].phase))
  {
    hide OutputsAfter, LedgersAfter, RetrievalsAfter, Saved, Resumable, KnowsOutput;
  }

  lemma ActorAfter(s: State, step: Step)
    requires Enabled(s, step)
    ensures step.p in Apply(s, step).processes
    ensures Apply(s, step).processes[step.p] == Actor(s, step).(phase := PhaseAfter(s, step))
  {
  }

  lemma StepKeepsOwnOutput(s: State, step: Step)
    requires Locked(s) && Enabled(s, step)
    ensures step.p in Apply(s, step).processes && KnowsOutput(Apply(s, step), Apply(s, step).processes[step.p])
  {
    OutputOfActor(s, step);
    ActorAfter(s, step);
    assert !step.Launch? ==> KnowsOutput(s, Actor(s, step));
    hide Apply, LockAfter, LedgersAfter, RetrievalsAfter, OutputsAfter, ReportAt;
  }

  lemma OutputOfActor(s: State, step: Step)
    requires Enabled(s, step)
    ensures Saved(s, step).Some? ==> ReportAt(Apply(s, step), Actor(s, step).output) == Saved(s, step)
    ensures forall o :: Saved(s, step).None? || o != Actor(s, step).output ==>
      ReportAt(Apply(s, step), o) == ReportAt(s, o)
  {
  }

  lemma StepKeepsOtherOutput(s: State, step: Step, p: nat)
    requires Locked(s) && Enabled(s, step) && p != step.p && p in s.processes
    ensures p in Apply(s, step).processes && KnowsOutput(Apply(s, step), Apply(s, step).processes[p])
  {
    hide LockAfter, LedgersAfter, RetrievalsAfter;
  }

  lemma StepKeepsLocked(s: State, step: Step)
    requires Locked(s) && Enabled(s, step)
    ensures Locked(Apply(s, step))
  {
    StepKeepsLock(s, step);
    StepKeepsOwnOutput(s, step);
    forall p | p in s.processes && p != step.p
      ensures p in Apply(s, step).processes && KnowsOutput(Apply(s, step), Apply(s, step).processes[p])
    {
      StepKeepsOtherOutput(s, step, p);
    }
    hide LockAfter, LedgersAfter, RetrievalsAfter, OutputsAfter, PhaseAfter, KnowsOutput, Active;
  }

  /** How the report of one output may change: a terminal status stays, except that a held-out run that was
      announced completes, for the same campaign and with the same profile. */
  predicate Moves(before: Option<Report>, after: Option<Report>) {
    || after == before
    || (after.Some? && after.value.status == Running
        && (before.None? || (before.value.status == Running && before.value.campaign == after.value.campaign)))
    || (before.Some? && after.Some? && before.value.campaign == after.value.campaign
        && ((before.value.status == Running && (after.value.status.Failed? || after.value.status.HeldoutRunning?))
            || (before.value.status == HeldoutRunning && after.value.status == Completed
                && before.value.profile == after.value.profile)))
  }

  lemma StepMoves(s: State, step: Step, output: nat)
    requires Locked(s) && Enabled(s, step)
    ensures Moves(ReportAt(s, output), ReportAt(Apply(s, step), output))
  {
    OutputOfActor(s, step);
    hide Apply, LockAfter, LedgersAfter, RetrievalsAfter, PhaseAfter, OutputsAfter;
    assert !step.Launch? ==> KnowsOutput(s, Actor(s, step));
  }

  lemma {:induction false} RunKeepsLocked(steps: seq<Step>)
    requires After(Initial(true), steps).Some?
    ensures Locked(After(Initial(true), steps).value)
  {
    hide Apply, Enabled, Locked;
    if steps == [] {
      InitialLocked();
    } else {
      RunKeepsLocked(steps[..|steps| - 1]);
      StepKeepsLocked(After(Initial(true), steps[..|steps| - 1]).value, steps[|steps| - 1]);
    }
  }

  lemma InitialLocked()
    ensures Locked(Initial(true))
  {
  }

  /** Under the lock no step of any process turns a terminal report back. */
  lemma ReportsMoveForward(steps: seq<Step>, step: Step, output: nat)
    requires After(Initial(true), steps).Some? && Enabled(After(Initial(true), steps).value, step)
    ensures var s := After(Initial(true), steps).value;
      Moves(ReportAt(s, output), ReportAt(Apply(s, step), output))
  {
    RunKeepsLocked(steps);
    StepMoves(After(Initial(true), steps).value, step, output);
  }

  lemma Take(s: State, steps: seq<Step>, t: State, step: Step) returns (longer: seq<Step>, next: State)
    requires After(s, steps) == Some(t) && Enabled(t, step)
    ensures next == Apply(t, step) && After(s, longer) == Some(next)
  {
    longer, next := steps + [step], Apply(t, step);
    assert longer[..|steps|] == steps;
  }

  /** Without the lock, a process gets past its checks while nothing is written. */
  lemma Looks(steps: seq<Step>, s: State, p: nat, c: Campaign) returns (longer: seq<Step>, t: State)
    requires After(Initial(false), steps) == Some(s) && !s.locking && s.outputs == map[] && s.ledgers == map[]
    requires c.cuda && p !in s.processes
    ensures After(Initial(false), longer) == Some(t) && !t.locking && t.outputs == map[] && t.ledgers == map[]
    ensures t.processes == s.processes[p := Process(c, 7, Planned)]
  {
    hide After, RetrievalsAfter, LockAfter;
    longer, t := Take(Initial(false), steps, s, Launch(p, c, 7));
    longer, t := Take(Initial(false), longer, t, Enter(p));
    longer, t := Take(Initial(false), longer, t, CheckOutput(p));
    longer, t := Take(Initial(false), longer, t, CheckLedger(p));
  }

  /** Of two processes that looked at the output, the first fails its calibration. */
  lemma FirstFails(c: Campaign) returns (steps: seq<Step>, s: State)
    requires c.cuda
    ensures After(Initial(false), steps) == Some(s)
    ensures s.outputs == map[7 := Report(c, Failed, Some(false), None, None)]
    ensures 1 in s.processes && s.processes[1] == Process(c, 7, Planned)
  {
    assert After(Initial(false), []) == Some(Initial(false));
    steps, s := Looks([], Initial(false), 0, c);
    steps, s := Looks(steps, s, 1, c);
    hide After, RetrievalsAfter, LockAfter, LedgersAfter;
    steps, s := Take(Initial(false), steps, s, SaveRunning(0));
    steps, s := Take(Initial(false), steps, s, FailCalibration(0));
  }

  /** The lock is what makes a terminal report final: without it a second process can turn a failure back into a
      running campaign. */
  lemma WithoutLockReportsRevert(c: Campaign) returns (steps: seq<Step>, step: Step, s: State)
    requires c.cuda
    ensures After(Initial(false), steps) == Some(s) && Enabled(s, step)
    ensures ReportAt(s, 7).Some? && ReportAt(s, 7).value.status == Failed
    ensures ReportAt(Apply(s, step), 7).Some? && ReportAt(Apply(s, step), 7).value.status == Running
    ensures !Moves(ReportAt(s, 7), ReportAt(Apply(s, step), 7))
  {
    steps, s := FirstFails(c);
    hide After, RetrievalsAfter, LockAfter, LedgersAfter;
    step := SaveRunning(1);
  }

  /** No step of any run turns a terminal report back. */
  ghost predicate ReportsFinal(locking: bool) {
    forall steps, step, output: nat ::
      After(Initial(locking), steps).Some? && Enabled(After(Initial(locking), steps).value, step) ==>
        MovesAt(After(Initial(locking), steps).value, step, output)
  }

  predicate MovesAt(s: State, step: Step, output: nat)
    requires Enabled(s, step)
  {
    Moves(ReportAt(s, output), ReportAt(Apply(s, step), output))
  }

  /** Terminal reports are final exactly if runs take the lock. */
  lemma FinalIffLocked(locking: bool)
    ensures ReportsFinal(locking) <==> locking
  {
    hide After, Apply, Enabled, Moves, ReportAt;
    if locking {
      forall steps, step, output: nat
        | After(Initial(locking), steps).Some? && Enabled(After(Initial(locking), steps).value, step)
        ensures MovesAt(After(Initial(locking), steps).value, step, output)
      {
        ReportsMoveForward(steps, step, output);
      }
    } else {
      var steps, step, s := WithoutLockReportsRevert(Campaign(0, 0, true, 0));
      assert !MovesAt(s, step, 7);
    }
  }

  // ---- Using a report ----

  datatype LoadError =
    | NotReleaseReady
    | NoProfile
    | NotFixedProfile
    | NoEvidenceGate
    | ScoreOutOfRange
    | MarginOutOfRange
    | FingerprintMismatch
    | NotCuda
    | OtherCode
    | OtherRuntime

  /** The checks that stand between a report and its use as a release profile, in their order. */
  function LoadReleaseProfile(report: Report, code: nat, runtime: nat): Result<Profile, LoadError> {
    if report.ready != Some(true) || report.status != Completed then Err(NotReleaseReady)
    else if report.profile.None? then Err(NoProfile)
    else
      var profile := report.profile.value;
      if !profile.fixed then Err(NotFixedProfile)
      else if profile.minScore.None? || profile.scoreMargin.None? then Err(NoEvidenceGate)
      else if !(0.0 <= profile.minScore.value <= 1.0) then Err(ScoreOutOfRange)
      else if profile.scoreMargin.value.Some?
        && !(0.0 <= profile.scoreMargin.value.value <= 1.0) then Err(MarginOutOfRange)
      else if report.fingerprint != Some(profile) then Err(FingerprintMismatch)
      else if !report.campaign.cuda then Err(NotCuda)
      else if report.campaign.code != code then Err(OtherCode)
      else if report.campaign.runtime != runtime then Err(OtherRuntime)
      else Ok(profile)
  }

  predicate Sound(report: Report) {
    && report.campaign.cuda
    && (report.profile.Some? ==> Recommended(report.profile.value) && report.fingerprint == report.profile)
    && (report.status == Completed ==> report.profile.Some?)
    && (report.ready == Some(true) ==> report.status == Completed)
  }

  predicate CarriesRecommended(phase: Phase) {
    match phase
    case Calibrated(profile) => Recommended(profile)
    case Claimed(profile) => Recommended(profile)
    case Announced(profile) => Recommended(profile)
    case Retrieved(profile) => Recommended(profile)
    case _ => true
  }

  ghost predicate AllSound(s: State) {
    && (forall o :: o in s.outputs ==> Sound(s.outputs[o]))
    && (forall p :: p in s.processes ==> s.processes[p].campaign.cuda && CarriesRecommended(s.processes[p].phase))
  }

  lemma PhaseSound(s: State, step: Step)
    requires Enabled(s, step) && CarriesRecommended(Actor(s, step).phase)
    ensures CarriesRecommended(PhaseAfter(s, step))
  {
    hide Recommended, Resumable;
  }

  lemma SavedSound(s: State, step: Step)
    requires Enabled(s, step) && CarriesRecommended(Actor(s, step).phase) && Actor(s, step).campaign.cuda
    ensures Saved(s, step).Some? ==> Sound(Saved(s, step).value)
  {
    hide Recommended;
  }

  lemma StepKeepsSound(s: State, step: Step)
    requires AllSound(s) && Enabled(s, step)
    ensures AllSound(Apply(s, step))
  {
    var me := Actor(s, step);
    assert me.campaign.cuda && CarriesRecommended(me.phase);
    PhaseSound(s, step);
    SavedSound(s, step);
    hide LockAfter, LedgersAfter, RetrievalsAfter, PhaseAfter, Saved, CarriesRecommended, Sound, Enabled;
  }

  lemma {:induction false} RunKeepsSound(locking: bool, steps: seq<Step>)
    requires After(Initial(locking), steps).Some?
    ensures AllSound(After(Initial(locking), steps).value)
  {
    hide Apply, Enabled, AllSound;
    if steps == [] {
      InitialSound(locking);
    } else {
      RunKeepsSound(locking, steps[..|steps| - 1]);
      StepKeepsSound(After(Initial(locking), steps[..|steps| - 1]).value, steps[|steps| - 1]);
    }
  }

  lemma InitialSound(locking: bool)
    ensures AllSound(Initial(locking))
  {
  }

  /** Of the reports that runs leave, the ready ones are loaded by exactly the code and the runtime that produced
      them, with the calibrated profile; and no other report is loaded. */
  lemma ReadyReportsLoad(locking: bool, steps: seq<Step>, output: nat, code: nat, runtime: nat)
    requires After(Initial(locking), steps).Some? && output in After(Initial(locking), steps).value.outputs
    ensures var report := After(Initial(locking), steps).value.outputs[output];
      && (LoadReleaseProfile(report, code, runtime).Ok? <==>
           report.ready == Some(true) && report.campaign.code == code && report.campaign.runtime == runtime)
      && (LoadReleaseProfile(report, code, runtime).Ok? ==>
            var profile := LoadReleaseProfile(report, code, runtime).value;
            && report.profile == Some(profile) && profile.fixed
            && profile.minScore.Some? && 0.80 <= profile.minScore.value <= 0.99 && profile.scoreMargin.Some?
            && (profile.scoreMargin.value.Some? ==> 0.0 <= profile.scoreMargin.value.value <= 0.1))
  {
    RunKeepsSound(locking, steps);
    SoundReportsLoad(After(Initial(locking), steps).value.outputs[output], code, runtime);
  }

  lemma SoundReportsLoad(report: Report, code: nat, runtime: nat)
    requires Sound(report)
    ensures LoadReleaseProfile(report, code, runtime).Ok? <==>
      report.ready == Some(true) && report.campaign.code == code && report.campaign.runtime == runtime
    ensures LoadReleaseProfile(report, code, runtime).Ok? ==>
      && report.profile == Some(LoadReleaseProfile(report, code, runtime).value)
      && Recommended(LoadReleaseProfile(report, code, runtime).value)
  {
  }

  /** What each error says of a report, whatever else is wrong with it. */
  predicate Lacks(report: Report, code: nat, runtime: nat, e: LoadError) {
    match e
    case NotReleaseReady => report.status != Completed || report.ready != Some(true)
    case NoProfile => report.profile.None?
    case NotFixedProfile => report.profile.Some? && !report.profile.value.fixed
    case NoEvidenceGate =>
      report.profile.Some? && (report.profile.value.minScore.None? || report.profile.value.scoreMargin.None?)
    case ScoreOutOfRange =>
      report.profile.Some? && report.profile.value.minScore.Some?
      && (report.profile.value.minScore.value < 0.0 || report.profile.value.minScore.value > 1.0)
    case MarginOutOfRange =>
      report.profile.Some? && report.profile.value.scoreMargin.Some? && report.profile.value.scoreMargin.value.Some?
      && (report.profile.value.scoreMargin.value.value < 0.0 || report.profile.value.scoreMargin.value.value > 1.0)
    case FingerprintMismatch => report.fingerprint != report.profile
    case NotCuda => !report.campaign.cuda
    case OtherCode => report.campaign.code != code
    case OtherRuntime => report.campaign.runtime != runtime
  }

  const CHECKED: seq<LoadError> := [NotReleaseReady, NoProfile, NotFixedProfile, NoEvidenceGate, ScoreOutOfRange,
    MarginOutOfRange, FingerprintMismatch, NotCuda, OtherCode, OtherRuntime]

  /** Any report at all is loaded, as its profile, exactly if it lacks nothing; else the error is the first of what it
      lacks. */
  lemma LoadsUnlessLacking(report: Report, code: nat, runtime: nat, i: nat)
    requires i < |CHECKED|
    ensures var r := LoadReleaseProfile(report, code, runtime);
      && (r.Ok? ==> report.profile == Some(r.value) && !Lacks(report, code, runtime, CHECKED[i]))
      && (r == Err(CHECKED[i]) ==> Lacks(report, code, runtime, CHECKED[i])
                                   && forall j :: 0 <= j < i ==> !Lacks(report, code, runtime, CHECKED[j]))
      && (r.Err? ==> r.error in CHECKED)
  {
  }

  // ---- One run on the files ----

  datatype RunError =
    | OtherCampaign
    | TerminalCampaign
    | AlreadyOpened
    | AlignmentFailed
    | CalibrationFailed
    | RetrievalFailed

  predicate Blocked(outputs: map<nat, Report>, ledgers: map<Campaign, Ledger>, c: Campaign, output: nat) {
    (output in outputs && (outputs[output].campaign != c || Terminal(outputs[output].status))) || c in ledgers
  }

  /** What a blocked run returns: the report of a completed campaign, or an error. */
  function Refusal(outputs: map<nat, Report>, c: Campaign, output: nat): Result<Report, RunError> {
    if output in outputs && outputs[output].campaign != c then Err(OtherCampaign)
    else if output in outputs && outputs[output].status == Completed then Ok(outputs[output])
    else if output in outputs && Terminal(outputs[output].status) then Err(TerminalCampaign)
    else Err(AlreadyOpened)
  }

  function FinalReport(c: Campaign, aligned: bool, calibrated: Option<Profile>, heldout: Option<bool>): Report {
    if !aligned || calibrated.None? then Report(c, Failed, Some(false), None, None)
    else if heldout.None? then Report(c, HeldoutRunning, None, calibrated, calibrated)
    else Report(c, Completed, heldout, calibrated, calibrated)
  }

  function RunResult(c: Campaign, aligned: bool, calibrated: Option<Profile>, heldout: Option<bool>)
    : Result<Report, RunError>
  {
    if !aligned then Err(AlignmentFailed)
    else if calibrated.None? then Err(CalibrationFailed)
    else if heldout.None? then Err(RetrievalFailed)
    else Ok(FinalReport(c, aligned, calibrated, heldout))
  }

  /** The steps of the checks: they end the process exactly if something blocks it. */
  lemma CheckSteps(c: Campaign, output: nat, p: nat, s: State) returns (steps: seq<Step>, t: State)
    requires p !in s.processes && c.cuda && (s.locking ==> s.lock.None?)
    ensures After(s, steps) == Some(t) && t.locking == s.locking
    ensures t.ledgers == s.ledgers && t.outputs == s.outputs && t.retrievals == s.retrievals
    ensures In(t, p, if Blocked(s.outputs, s.ledgers, c, output) then Ended else Planned)
    ensures t.processes[p].campaign == c && t.processes[p].output == output
  {
    assert After(s, []) == Some(s);
    hide After, LockAfter;
    steps, t := Take(s, [], s, Launch(p, c, output));
    assert PhaseAfter(t, Enter(p)) == Entered;
    steps, t := Take(s, steps, t, Enter(p));
    steps, t := Take(s, steps, t, CheckOutput(p));
    if t.processes[p].phase == Unopened {
      steps, t := Take(s, steps, t, CheckLedger(p));
    }
  }

  class Files {
    var ledgers: map<Campaign, Ledger>
    var outputs: map<nat, Report>
    var retrievals: map<Campaign, nat>

    constructor ()
      ensures Matches(Initial(true))
    {
      ledgers, outputs, retrievals := map[], map[], map[];
    }

    ghost predicate Matches(s: State)
      reads this
    {
      s.ledgers == ledgers && s.outputs == outputs && s.retrievals == retrievals
    }

    /** Creates the ledger of a campaign, and only if there is none. */
    method ClaimHeldoutOnce(c: Campaign) returns (claimed: bool)
      modifies this`ledgers
      ensures claimed <==> c !in old(ledgers)
      ensures ledgers == if claimed then old(ledgers)[c := Opened(true)] else old(ledgers)
    {
      claimed := c !in ledgers;
      if claimed {
        ledgers := ledgers[c := Opened(true)];
      }
    }

    /** The checks before anything is written: what an existing report and an existing ledger allow. */
    method Check(c: Campaign, output: nat, ghost p: nat, ghost s: State)
      returns (refusal: Option<Result<Report, RunError>>, ghost steps: seq<Step>, ghost t: State)
      requires Matches(s) && p !in s.processes && c.cuda && (s.locking ==> s.lock.None?)
      ensures After(s, steps) == Some(t) && Matches(t) && t.locking == s.locking
      ensures refusal == if Blocked(outputs, ledgers, c, output) then Some(Refusal(outputs, c, output)) else None
      ensures In(t, p, if refusal.None? then Planned else Ended) && t.processes[p].campaign == c
        && t.processes[p].output == output
    {
      steps, t := CheckSteps(c, output, p, s);
      hide After;
      if output in outputs {
        if outputs[output].campaign != c {
          return Some(Err(OtherCampaign)), steps, t;
        }
        if outputs[output].status == Completed {
          return Some(Ok(outputs[output])), steps, t;
        }
        if outputs[output].status == Failed || outputs[output].status == HeldoutRunning {
          return Some(Err(TerminalCampaign)), steps, t;
        }
      }
      return if c in ledgers then Some(Err(AlreadyOpened)) else None, steps, t;
    }

    method Save(output: nat, report: Report)
      modifies this`outputs
      ensures outputs == old(outputs)[output := report]
    {
      outputs := outputs[output := report];
    }

    /** From the first report to the calibrated profile. */
    method Calibrate(c: Campaign, output: nat, aligned: bool, calibrated: Option<Profile>, ghost p: nat,
        ghost s: State, ghost before: seq<Step>, ghost u: State)
      returns (r: Result<Profile, RunError>, ghost steps: seq<Step>, ghost t: State)
      requires After(s, before) == Some(u) && Matches(u) && In(u, p, Planned)
      requires u.processes[p].campaign == c && u.processes[p].output == output
      requires calibrated.Some? ==> Recommended(calibrated.value)
      modifies this`outputs
      ensures After(s, steps) == Some(t) && Matches(t)
      ensures r == if !aligned then Err(AlignmentFailed) else if calibrated.None? then Err(CalibrationFailed)
        else Ok(calibrated.value)
      ensures outputs == old(outputs)[output := if r.Ok? then Report(c, Running, None, None, None)
        else Report(c, Failed, Some(false), None, None)]
      ensures In(t, p, if r.Ok? then Calibrated(r.value) else Ended) && t.processes[p].campaign == c
        && t.processes[p].output == output
    {
      hide After, LockAfter;
      steps, t := Take(s, before, u, SaveRunning(p));
      Save(output, Report(c, Running, None, None, None));
      if !aligned {
        steps, t := Take(s, steps, t, FailAlignment(p));
        Save(output, Report(c, Failed, Some(false), None, None));
        return Err(AlignmentFailed), steps, t;
      }
      if calibrated.None? {
        steps, t := Take(s, steps, t, FailCalibration(p));
        Save(output, Report(c, Failed, Some(false), None, None));
        return Err(CalibrationFailed), steps, t;
      }
      steps, t := Take(s, steps, t, PassCalibration(p, calibrated.value));
      return Ok(calibrated.value), steps, t;
    }

    /** Claims the ledger, announces the run in the report and only then retrieves the held-out split. */
    method OpenHeldout(c: Campaign, output: nat, profile: Profile, ghost p: nat, ghost s: State,
        ghost before: seq<Step>, ghost u: State)
      returns (claimed: bool, ghost steps: seq<Step>, ghost t: State)
      requires After(s, before) == Some(u) && Matches(u) && In(u, p, Calibrated(profile))
      requires u.processes[p].campaign == c && u.processes[p].output == output
      modifies this
      ensures After(s, steps) == Some(t) && Matches(t)
      ensures claimed <==> c !in old(ledgers)
      ensures !claimed ==> ledgers == old(ledgers) && outputs == old(outputs) && retrievals == old(retrievals)
      ensures claimed ==>
        && ledgers == old(ledgers)[c := Opened(true)]
        && outputs == old(outputs)[output := Report(c, HeldoutRunning, None, Some(profile), Some(profile))]
        && retrievals == old(retrievals)[c := (if c in old(retrievals) then old(retrievals)[c] else 0) + 1]
      ensures In(t, p, if claimed then Retrieved(profile) else Ended) && t.processes[p].campaign == c
        && t.processes[p].output == output
    {
      hide After, LockAfter;
      steps, t := Take(s, before, u, Claim(p));
      claimed := ClaimHeldoutOnce(c);
      if claimed {
        steps, t := Take(s, steps, t, Announce(p));
        Save(output, Report(c, HeldoutRunning, None, Some(profile), Some(profile)));
        steps, t := Take(s, steps, t, Retrieve(p));
        retrievals := retrievals[c := (if c in retrievals then retrievals[c] else 0) + 1];
      }
    }

    /** The report is completed before the ledger is closed. */
    method Finish(c: Campaign, output: nat, profile: Profile, ready: bool, ghost p: nat, ghost s: State,
        ghost before: seq<Step>, ghost u: State)
      returns (report: Report, ghost steps: seq<Step>, ghost t: State)
      requires After(s, before) == Some(u) && Matches(u) && In(u, p, Retrieved(profile))
      requires u.processes[p].campaign == c && u.processes[p].output == output
      modifies this
      ensures After(s, steps) == Some(t) && Matches(t) && In(t, p, Ended)
      ensures report == Report(c, Completed, Some(ready), Some(profile), Some(profile))
      ensures outputs == old(outputs)[output := report] && ledgers == old(ledgers)[c := Closed(ready)]
      ensures retrievals == old(retrievals)
    {
      hide After, LockAfter;
      report := Report(c, Completed, Some(ready), Some(profile), Some(profile));
      steps, t := Take(s, before, u, Complete(p, ready));
      Save(output, report);
      steps, t := Take(s, steps, t, CloseLedger(p));
      ledgers := ledgers[c := Closed(ready)];
    }

    /** A whole release run as a run of the protocol. The results of alignment, calibration and held-out retrieval,
        None for an error, come from outside. */
    method Run(c: Campaign, output: nat, aligned: bool, calibrated: Option<Profile>, heldout: Option<bool>,
        ghost p: nat, ghost s: State)
      returns (r: Result<Report, RunError>, ghost steps: seq<Step>, ghost t: State)
      requires Matches(s) && p !in s.processes && c.cuda && (s.locking ==> s.lock.None?)
      requires calibrated.Some? ==> Recommended(calibrated.value)
      modifies this
      ensures After(s, steps) == Some(t) && Matches(t) && In(t, p, Ended)
      ensures Blocked(old(outputs), old(ledgers), c, output) ==>
        && r == Refusal(old(outputs), c, output)
        && ledgers == old(ledgers) && outputs == old(outputs) && retrievals == old(retrievals)
      ensures !Blocked(old(outputs), old(ledgers), c, output) ==>
        && r == RunResult(c, aligned, calibrated, heldout)
        && outputs == old(outputs)[output := FinalReport(c, aligned, calibrated, heldout)]
        && (!aligned || calibrated.None? ==> ledgers == old(ledgers) && retrievals == old(retrievals))
        && (aligned && calibrated.Some? ==>
              ledgers == old(ledgers)[c := if heldout.None? then Opened(true) else Closed(heldout.value)]
              && retrievals == old(retrievals)[c := (if c in old(retrievals) then old(retrievals)[c] else 0) + 1])
    {
      var refusal: Option<Result<Report, RunError>>;
      refusal, steps, t := Check(c, output, p, s);
      hide After, Apply, Enabled, Blocked, Refusal, RunResult, FinalReport;
      if refusal.Some? {
        return refusal.value, steps, t;
      }
      r, steps, t := Proceed(c, output, aligned, calibrated, heldout, p, s, steps, t);
    }

    /** A run that nothing blocks. */
    method Proceed(c: Campaign, output: nat, aligned: bool, calibrated: Option<Profile>, heldout: Option<bool>,
        ghost p: nat, ghost s: State, ghost before: seq<Step>, ghost u: State)
      returns (r: Result<Report, RunError>, ghost steps: seq<Step>, ghost t: State)
      requires After(s, before) == Some(u) && Matches(u) && In(u, p, Planned) && c !in ledgers
      requires u.processes[p].campaign == c && u.processes[p].output == output
      requires calibrated.Some? ==> Recommended(calibrated.value)
      modifies this
      ensures After(s, steps) == Some(t) && Matches(t) && In(t, p, Ended)
      ensures r == RunResult(c, aligned, calibrated, heldout)
      ensures outputs == old(outputs)[output := FinalReport(c, aligned, calibrated, heldout)]
      ensures !aligned || calibrated.None? ==> ledgers == old(ledgers) && retrievals == old(retrievals)
      ensures aligned && calibrated.Some? ==>
        && ledgers == old(ledgers)[c := if heldout.None? then Opened(true) else Closed(heldout.value)]
        && retrievals == old(retrievals)[c := (if c in old(retrievals) then old(retrievals)[c] else 0) + 1]
    {
      hide After, Apply, Enabled, Recommended;
      var profile: Result<Profile, RunError>;
      profile, steps, t := Calibrate(c, output, aligned, calibrated, p, s, before, u);
      if profile.Err? {
        return Err(profile.error), steps, t;
      }
      ghost var written := outputs;
      r, steps, t := Release(c, output, profile.value, heldout, p, s, steps, t);
      assert written[output := FinalReport(c, aligned, calibrated, heldout)]
           == old(outputs)[output := FinalReport(c, aligned, calibrated, heldout)];
    }

    /** The part of a run after its calibration. */
    method Release(c: Campaign, output: nat, profile: Profile, heldout: Option<bool>, ghost p: nat, ghost s: State,
        ghost before: seq<Step>, ghost u: State)
      returns (r: Result<Report, RunError>, ghost steps: seq<Step>, ghost t: State)
      requires After(s, before) == Some(u) && Matches(u) && In(u, p, Calibrated(profile))
      requires u.processes[p].campaign == c && u.processes[p].output == output
      modifies this
      ensures After(s, steps) == Some(t) && Matches(t) && In(t, p, Ended)
      ensures c in old(ledgers) ==>
        r == Err(AlreadyOpened) && ledgers == old(ledgers) && outputs == old(outputs) && retrievals == old(retrievals)
      ensures c !in old(ledgers) ==>
        && r == (if heldout.None? then Err(RetrievalFailed)
          else Ok(Report(c, Completed, heldout, Some(profile), Some(profile))))
        && ledgers == old(ledgers)[c := if heldout.None? then Opened(true) else Closed(heldout.value)]
        && outputs == old(outputs)[output := if heldout.None? then Report(c, HeldoutRunning, None, Some(profile),
            Some(profile)) else r.value]
        && retrievals == old(retrievals)[c := (if c in old(retrievals) then old(retrievals)[c] else 0) + 1]
    {
      hide After, Apply, Enabled;
      var claimed;
      claimed, steps, t := OpenHeldout(c, output, profile, p, s, before, u);
      if !claimed {
        return Err(AlreadyOpened), steps, t;
      }
      if heldout.None? {
        steps, t := Fails(s, steps, t, p);
        return Err(RetrievalFailed), steps, t;
      }
      var report;
      report, steps, t := Finish(c, output, profile, heldout.value, p, s, steps, t);
      return Ok(report), steps, t;
    }
  }

  lemma Fails(s: State, steps: seq<Step>, t: State, p: nat) returns (longer: seq<Step>, next: State)
    requires After(s, steps) == Some(t) && p in t.processes && !t.processes[p].phase.Ended?
    ensures After(s, longer) == Some(next) && In(next, p, Ended)
    ensures next.ledgers == t.ledgers && next.outputs == t.outputs && next.retrievals == t.retrievals
  {
    longer, next := Take(s, steps, t, Stop(p));
  }
}
