/** Generating one paid answer: the cache file, the in-flight marker and the lock of a single identity,
    shared by any number of processes that may fail or be killed between any two steps. */
module AnswerCache {
  import opened Support

  type Measurement = string

  datatype Failure = AlreadyGenerating | UnknownPayment | Interrupted

  datatype Outcome = Returned(answer: Measurement, fromCache: bool) | Failed(failure: Failure) | Killed

  /** Where an invocation stands. Locked to Leaving are the phases that hold the lock. */
  datatype Phase =
    | Started
    | Waiting
    | Locked
    | Allowed
    | Cleared
    | Marked
    | Called
    | Answered(answer: Measurement)
    | Stored(answer: Measurement, fromCache: bool)
    | Leaving(outcome: Outcome)
    | Ended(outcome: Outcome)
  {
    predicate Critical() {
      !Started? && !Waiting? && !Ended?
    }
  }

  datatype Process = Process(retry: bool, refresh: bool, phase: Phase)

  datatype State = State(
    cache: Option<Measurement>, marker: bool, lock: Option<nat>, processes: map<nat, Process>,
    calls: nat, retries: nat, refreshes: nat, authorised: nat)

  datatype Step =
    | Launch(p: nat, retry: bool, refresh: bool)
    | Peek(p: nat)
    | Acquire(p: nat)
    | Check(p: nat)
    | Clear(p: nat)
    | Mark(p: nat)
    | Call(p: nat)
    | Answer(p: nat, answer: Measurement)
    | Save(p: nat)
    | Tidy(p: nat)
    | Raise(p: nat)
    | Release(p: nat)
    | Kill(p: nat)

  const INITIAL := State(None, false, None, map[], 0, 0, 0, 0)

  predicate At(s: State, p: nat, phase: Phase) {
    p in s.processes && s.processes[p].phase == phase
  }

  function Move(s: State, p: nat, phase: Phase): State
    requires p in s.processes
  {
    s.(processes := s.processes[p := s.processes[p].(phase := phase)])
  }

  predicate Enabled(s: State, step: Step) {
    match step
    case Launch(p, _, _) => p in s.processes ==> s.processes[p].phase.Ended?
    case Peek(p) => At(s, p, Started)
    case Acquire(p) => At(s, p, Waiting)
    case Check(p) => At(s, p, Locked)
    case Clear(p) => At(s, p, Allowed)
    case Mark(p) => At(s, p, Cleared)
    case Call(p) => At(s, p, Marked)
    case Answer(p, _) => At(s, p, Called)
    case Save(p) => p in s.processes && s.processes[p].phase.Answered?
    case Tidy(p) => p in s.processes && s.processes[p].phase.Stored?
    case Raise(p) => p in s.processes && s.processes[p].phase.Critical() && !s.processes[p].phase.Leaving?
    case Release(p) => p in s.processes && s.processes[p].phase.Leaving?
    case Kill(p) => p in s.processes && !s.processes[p].phase.Ended?
  }

  function End(s: State, p: nat, outcome: Outcome): State
    requires p in s.processes
  {
    Move(s, p, Ended(outcome)).(lock := if s.lock == Some(p) then None else s.lock)
  }

  function Apply(s: State, step: Step): State
    requires Enabled(s, step)
  {
    match step
    case Launch(p, retry, refresh) => s.(processes := s.processes[p := Process(retry, refresh, Started)])
    case Peek(p) =>
      if s.cache.Some? && !s.processes[p].refresh then End(s, p, Returned(s.cache.value, true))
      else Move(s, p, Waiting)
    case Acquire(p) =>
      if s.lock.Some? then End(s, p, Failed(AlreadyGenerating))
      else
        var me := s.processes[p];
        Move(s, p, Locked).(
          lock := Some(p), retries := s.retries + One(me.retry), refreshes := s.refreshes + One(me.refresh),
          authorised := s.authorised + One(me.retry || me.refresh))
    case Check(p) =>
      if s.cache.Some? && !s.processes[p].refresh then Move(s, p, Stored(s.cache.value, true))
      else if s.marker && !s.processes[p].retry then Move(s, p, Leaving(Failed(UnknownPayment)))
      else Move(s, p, Allowed)
    case Clear(p) => Move(s, p, Cleared).(marker := false)
    case Mark(p) => Move(s, p, Marked).(marker := true)
    case Call(p) => Move(s, p, Called).(calls := s.calls + 1)
    case Answer(p, answer) => Move(s, p, Answered(answer))
    case Save(p) =>
      var answer := s.processes[p].phase.answer;
      Move(s, p, Stored(answer, false)).(cache := Some(answer))
    case Tidy(p) =>
      var phase := s.processes[p].phase;
      Move(s, p, Leaving(Returned(phase.answer, phase.fromCache))).(marker := false)
    case Raise(p) => Move(s, p, Leaving(Failed(Interrupted)))
    case Release(p) => End(s, p, s.processes[p].phase.outcome)
    case Kill(p) => End(s, p, Killed)
  }

  /** The state after a run, or None if some step of it is not possible. */
  function After(s: State, run: seq<Step>): Option<State> {
    if run == [] then Some(s)
    else
      match After(s, run[..|run| - 1])
      case None => None
      case Some(t) => if Enabled(t, run[|run| - 1]) then Some(Apply(t, run[|run| - 1])) else None
  }

  // ---- What every step keeps ----

  /** The lock is held by the one process that is between acquiring and releasing it. */
  predicate Exclusive(s: State) {
    && (forall p :: p in s.processes && s.processes[p].phase.Critical() ==> s.lock == Some(p))
    && (s.lock.Some? ==> s.lock.value in s.processes && s.processes[s.lock.value].phase.Critical())
  }

  function Holder(s: State): Option<Process> {
    if s.lock.Some? && s.lock.value in s.processes then Some(s.processes[s.lock.value]) else None
  }

  /** What the holder of the lock knows about the files. */
  predicate HolderKnows(s: State, me: Process) {
    match me.phase
    case Allowed => (s.cache.None? || me.refresh) && (!s.marker || me.retry)
    case Cleared => (s.cache.None? || me.refresh) && !s.marker
    case Marked => (s.cache.None? || me.refresh) && s.marker
    case Called => (s.cache.None? || me.refresh) && s.marker && s.calls > 0
    case Answered(_) => (s.cache.None? || me.refresh) && s.marker && s.calls > 0
    case Stored(answer, _) => s.cache == Some(answer)
    case Leaving(outcome) => outcome.Returned? ==> s.cache == Some(outcome.answer)
    case _ => true
  }

  /** Calls that the files alone would still allow. */
  function FileCredit(s: State): nat {
    One(s.cache.None? && !s.marker)
  }

  /** Calls that may still be made before the next authorised acquisition of the lock. */
  function Credit(s: State): nat {
    match Holder(s)
    case None => FileCredit(s)
    case Some(me) =>
      match me.phase
      case Locked | Allowed => FileCredit(s) + One(me.retry || me.refresh)
      case Cleared | Marked => 1
      case Called | Answered(_) | Stored(_, _) => 0
      case _ => FileCredit(s)
  }

  predicate Counted(s: State) {
    && s.calls + Credit(s) <= 1 + s.authorised
    && (s.calls > 0 && s.cache.None? && !s.marker ==> s.retries > 0)
    && (s.authorised == 0 ==> s.retries == 0 && s.refreshes == 0)
    && match Holder(s)
       case None => true
       case Some(me) => (me.retry ==> s.retries > 0) && (me.refresh ==> s.refreshes > 0) && HolderKnows(s, me)
  }

  /** Without a refresh, whatever an invocation has returned is what the cache holds. */
  predicate Agreed(s: State) {
    s.refreshes == 0 ==> forall p :: p in s.processes && s.processes[p].phase.Ended? ==>
      (s.processes[p].phase.outcome.Returned? ==> s.cache == Some(s.processes[p].phase.outcome.answer))
  }

  predicate Inv(s: State) {
    Exclusive(s) && Counted(s) && Agreed(s)
  }

  lemma HolderStepExclusive(s: State, step: Step)
    requires Exclusive(s) && Enabled(s, step) && s.lock == Some(step.p)
    ensures Exclusive(Apply(s, step))
  {
  }

  lemma OtherStepExclusive(s: State, step: Step)
    requires Exclusive(s) && Enabled(s, step) && s.lock != Some(step.p)
    ensures Exclusive(Apply(s, step))
  {
  }

  lemma StepExclusive(s: State, step: Step)
    requires Exclusive(s) && Enabled(s, step)
    ensures Exclusive(Apply(s, step))
  {
    hide Exclusive, Apply, Enabled;
    if s.lock == Some(step.p) {
      HolderStepExclusive(s, step);
    } else {
      OtherStepExclusive(s, step);
    }
  }

  /** Only the holder of the lock changes the files or calls the provider. */
  lemma OnlyHolderWrites(s: State, step: Step)
    requires Exclusive(s) && Enabled(s, step) && s.lock != Some(step.p)
    ensures var t := Apply(s, step); t.cache == s.cache && t.marker == s.marker && t.calls == s.calls
  {
  }

  lemma HolderStepCounted(s: State, step: Step)
    requires Exclusive(s) && Counted(s) && Enabled(s, step) && s.lock == Some(step.p)
    ensures Counted(Apply(s, step))
  {
  }

  lemma AcquireCounted(s: State, p: nat)
    requires Exclusive(s) && Counted(s) && Enabled(s, Acquire(p)) && s.lock.None?
    ensures Counted(Apply(s, Acquire(p)))
  {
  }

  lemma OtherKeepsHolder(s: State, step: Step)
    requires Exclusive(s) && Enabled(s, step) && s.lock != Some(step.p) && !(step.Acquire? && s.lock.None?)
    ensures var t := Apply(s, step);
      && Holder(t) == Holder(s) && t.cache == s.cache && t.marker == s.marker && t.calls == s.calls
      && t.retries == s.retries && t.refreshes == s.refreshes && t.authorised == s.authorised
  {
  }

  lemma OtherStepCounted(s: State, step: Step)
    requires Exclusive(s) && Counted(s) && Enabled(s, step) && s.lock != Some(step.p)
    ensures Counted(Apply(s, step))
  {
    hide Exclusive, Enabled, Apply, Holder;
    if step.Acquire? && s.lock.None? {
      AcquireCounted(s, step.p);
    } else {
      OtherKeepsHolder(s, step);
    }
  }

  lemma StepCounted(s: State, step: Step)
    requires Exclusive(s) && Counted(s) && Enabled(s, step)
    ensures Counted(Apply(s, step))
  {
    hide Exclusive, Counted, Apply, Enabled;
    if s.lock == Some(step.p) {
      HolderStepCounted(s, step);
    } else {
      OtherStepCounted(s, step);
    }
  }

  lemma StepAgreed(s: State, step: Step)
    requires Exclusive(s) && Counted(s) && Agreed(s) && Enabled(s, step)
    ensures Agreed(Apply(s, step))
  {
  }

  lemma {:induction false} RunKeepsInv(run: seq<Step>)
    requires After(INITIAL, run).Some?
    ensures Inv(After(INITIAL, run).value)
  {
    hide Exclusive, Counted, Agreed, Apply, Enabled;
    if run == [] {
      InitialInv();
    } else {
      var s := After(INITIAL, run[..|run| - 1]).value;
      var step := run[|run| - 1];
      RunKeepsInv(run[..|run| - 1]);
      StepExclusive(s, step);
      StepCounted(s, step);
      StepAgreed(s, step);
    }
  }

  lemma InitialInv()
    ensures Inv(INITIAL)
  {
  }

  // ---- Over every run ----

  /** How often the provider is called. */
  function CallsIn(run: seq<Step>): nat {
    if run == [] then 0 else CallsIn(run[..|run| - 1]) + One(run[|run| - 1].Call?)
  }

  /** The last launch of a process. */
  function LaunchOf(run: seq<Step>, p: nat): (launch: Option<Step>)
    ensures launch.Some? ==> launch.value.Launch? && launch.value.p == p
  {
    if run == [] then None
    else
      var last := run[|run| - 1];
      if last.Launch? && last.p == p then Some(last) else LaunchOf(run[..|run| - 1], p)
  }

  /** The last step takes the lock, which was free. */
  predicate TakesLock(run: seq<Step>) {
    run != [] && run[|run| - 1].Acquire? &&
    var before := After(INITIAL, run[..|run| - 1]);
    before.Some? && before.value.lock.None?
  }

  /** It does so for an invocation that was launched with a retry; with a refresh; with either. */
  predicate TakesForRetry(run: seq<Step>) {
    TakesLock(run) && LaunchOf(run, run[|run| - 1].p).Some? && LaunchOf(run, run[|run| - 1].p).value.retry
  }

  predicate TakesForRefresh(run: seq<Step>) {
    TakesLock(run) && LaunchOf(run, run[|run| - 1].p).Some? && LaunchOf(run, run[|run| - 1].p).value.refresh
  }

  function RetriesIn(run: seq<Step>): nat {
    if run == [] then 0 else RetriesIn(run[..|run| - 1]) + One(TakesForRetry(run))
  }

  function RefreshesIn(run: seq<Step>): nat {
    if run == [] then 0 else RefreshesIn(run[..|run| - 1]) + One(TakesForRefresh(run))
  }

  function AuthorisedIn(run: seq<Step>): nat {
    if run == [] then 0 else AuthorisedIn(run[..|run| - 1]) + One(TakesForRetry(run) || TakesForRefresh(run))
  }

  /** Every process has the flags of its last launch. */
  ghost predicate AsLaunched(s: State, run: seq<Step>) {
    forall p :: p in s.processes ==>
      LaunchOf(run, p) == Some(Launch(p, s.processes[p].retry, s.processes[p].refresh))
  }

  lemma StepAsLaunched(s: State, run: seq<Step>)
    requires run != [] && AsLaunched(s, run[..|run| - 1]) && Enabled(s, run[|run| - 1])
    ensures AsLaunched(Apply(s, run[|run| - 1]), run)
  {
    var step, t := run[|run| - 1], Apply(s, run[|run| - 1]);
    forall p | p in t.processes
      ensures LaunchOf(run, p) == Some(Launch(p, t.processes[p].retry, t.processes[p].refresh))
    {
      if !(step.Launch? && step.p == p) {
        KeepsFlags(s, step, p);
      }
    }
  }

  lemma KeepsFlags(s: State, step: Step, p: nat)
    requires Enabled(s, step) && !(step.Launch? && step.p == p)
    ensures p in Apply(s, step).processes <==> p in s.processes
    ensures p in s.processes ==>
      var me, next := s.processes[p], Apply(s, step).processes[p]; next.retry == me.retry && next.refresh == me.refresh
  {
  }

  lemma StepCounters(s: State, step: Step)
    requires Enabled(s, step)
    ensures var t := Apply(s, step);
      var takes := step.Acquire? && s.lock.None?;
      && (step.Acquire? ==> step.p in s.processes)
      && t.calls == s.calls + One(step.Call?)
      && t.retries == s.retries + One(takes && s.processes[step.p].retry)
      && t.refreshes == s.refreshes + One(takes && s.processes[step.p].refresh)
      && t.authorised == s.authorised + One(takes && (s.processes[step.p].retry || s.processes[step.p].refresh))
  {
  }

  /** The counters of the state are those of the run, with the flags that were launched. */
  lemma {:induction false} CountersOfRun(run: seq<Step>)
    requires After(INITIAL, run).Some?
    ensures var s := After(INITIAL, run).value;
      && AsLaunched(s, run)
      && s.calls == CallsIn(run) && s.authorised == AuthorisedIn(run) && s.retries == RetriesIn(run)
      && s.refreshes == RefreshesIn(run)
  {
    if run != [] {
      var front, last := run[..|run| - 1], run[|run| - 1];
      CountersOfRun(front);
      var s := After(INITIAL, front).value;
      StepCounters(s, last);
      StepAsLaunched(s, run);
      hide Apply, Enabled;
      if last.Acquire? {
        assert LaunchOf(front, last.p) == LaunchOf(run, last.p);
      }
    }
  }

  /** However many processes compete and whenever they fail or are killed, the provider is called at most once
      beyond the times that an invocation launched with a retry or a refresh took the lock. */
  lemma PaidAtMostOnce(run: seq<Step>)
    requires After(INITIAL, run).Some?
    ensures var s := After(INITIAL, run).value;
      && CallsIn(run) <= 1 + AuthorisedIn(run) <= 1 + RetriesIn(run) + RefreshesIn(run)
      && (CallsIn(run) > 0 && s.cache.None? && !s.marker ==> RetriesIn(run) > 0)
  {
    RunKeepsInv(run);
    CountersOfRun(run);
    AuthorisedOnce(run);
  }

  lemma {:induction false} AuthorisedOnce(run: seq<Step>)
    ensures AuthorisedIn(run) <= RetriesIn(run) + RefreshesIn(run)
  {
    hide TakesForRetry, TakesForRefresh;
    if run != [] {
      AuthorisedOnce(run[..|run| - 1]);
    }
  }

  /** If no invocation asks for a retry or a refresh, the provider is called at most once. */
  lemma PlainRunsPayOnce(run: seq<Step>)
    requires After(INITIAL, run).Some?
    requires forall i :: 0 <= i < |run| && run[i].Launch? ==> !run[i].retry && !run[i].refresh
    ensures CallsIn(run) <= 1
  {
    PaidAtMostOnce(run);
    NobodyAsks(run);
  }

  lemma {:induction false} NobodyAsks(run: seq<Step>)
    requires forall i :: 0 <= i < |run| && run[i].Launch? ==> !run[i].retry && !run[i].refresh
    ensures AuthorisedIn(run) == 0
  {
    hide After;
    if run != [] {
      NobodyAsks(run[..|run| - 1]);
      LaunchIsStep(run, run[|run| - 1].p);
    }
  }

  lemma {:induction false} LaunchIsStep(run: seq<Step>, p: nat)
    ensures LaunchOf(run, p).Some? ==>
      LaunchOf(run, p).value.Launch? && exists i :: 0 <= i < |run| && run[i] == LaunchOf(run, p).value
  {
    if run != [] {
      LaunchIsStep(run[..|run| - 1], p);
    }
  }

  /** A call is only ever made by the holder of the lock, with the marker already in place, and with an answer in the
      cache only by an invocation that was launched with a refresh; the cache never becomes empty again, and an answer
      in it is only replaced after a refresh. */
  lemma CallsAreMarked(run: seq<Step>, step: Step)
    requires After(INITIAL, run).Some? && Enabled(After(INITIAL, run).value, step)
    ensures var s, t := After(INITIAL, run).value, Apply(After(INITIAL, run).value, step);
      && (step.Call? ==> s.marker && s.lock == Some(step.p))
      && (step.Call? ==> s.cache.None? || (LaunchOf(run, step.p).Some? && LaunchOf(run, step.p).value.refresh))
      && (s.cache.Some? ==> t.cache.Some?)
      && (t.cache != s.cache ==> s.cache.None? || RefreshesIn(run) > 0)
  {
    RunKeepsInv(run);
    CountersOfRun(run);
    CallIsMarked(After(INITIAL, run).value, step);
  }

  lemma CallIsMarked(s: State, step: Step)
    requires Exclusive(s) && Counted(s) && Enabled(s, step)
    ensures var t := Apply(s, step);
      && (step.Call? ==> step.p in s.processes && s.marker && s.lock == Some(step.p))
      && (step.Call? ==> s.cache.None? || s.processes[step.p].refresh)
      && (s.cache.Some? ==> t.cache.Some?)
      && (t.cache != s.cache ==> s.cache.None? || s.refreshes > 0)
  {
    if s.lock != Some(step.p) {
      OnlyHolderWrites(s, step);
    }
  }

  /** After the first i steps the invocation of process p had returned this answer. */
  predicate HasReturned(run: seq<Step>, i: nat, p: nat, answer: Measurement) {
    i <= |run| &&
    var s := After(INITIAL, run[..i]);
    && s.Some? && p in s.value.processes && s.value.processes[p].phase.Ended?
    && s.value.processes[p].phase.outcome.Returned? && s.value.processes[p].phase.outcome.answer == answer
  }

  /** Without a refresh every invocation that returns, whenever and in whichever process, returns one answer, and it is
      the one in the cache. */
  lemma ReturnsAgree(run: seq<Step>, i: nat, p: nat, answer: Measurement)
    requires After(INITIAL, run).Some? && RefreshesIn(run) == 0 && HasReturned(run, i, p, answer)
    ensures After(INITIAL, run).value.cache == Some(answer)
    decreases |run|
  {
    RunKeepsInv(run);
    CountersOfRun(run);
    if i < |run| {
      var front, last := run[..|run| - 1], run[|run| - 1];
      assert front[..i] == run[..i];
      ReturnsAgree(front, i, p, answer);
      CallsAreMarked(front, last);
      CountersOfRun(front);
    } else {
      assert run[..i] == run;
    }
  }

  // ---- What is possible at any time ----

  /** An invocation may be launched at any time by a process that is not running one. */
  lemma LaunchedAnywhere(s: State, p: nat, retry: bool, refresh: bool)
    requires p !in s.processes || s.processes[p].phase.Ended?
    ensures Enabled(s, Launch(p, retry, refresh))
    ensures var t := Apply(s, Launch(p, retry, refresh)); t.cache == s.cache && t.marker == s.marker && t.lock == s.lock
  {
  }

  /** A running one may be killed at any time; the cache and the marker stay as they are, and the lock is free again if
      the process held it. */
  lemma KilledAnywhere(s: State, p: nat)
    requires p in s.processes && !s.processes[p].phase.Ended?
    ensures Enabled(s, Kill(p))
    ensures var t := Apply(s, Kill(p));
      && t.cache == s.cache && t.marker == s.marker && t.calls == s.calls
      && p in t.processes && t.processes[p].phase == Ended(Killed)
      && t.lock == if s.lock == Some(p) then None else s.lock
  {
  }

  // ---- One invocation on the files ----

  /** A run extended by one possible step. */
  lemma Extend(s: State, run: seq<Step>, t: State, step: Step)
    requires After(s, run) == Some(t) && Enabled(t, step)
    ensures After(s, run + [step]) == Some(Apply(t, step))
  {
    assert (run + [step])[..|run|] == run;
  }

  /** The files of one identity, and the calls made for it. */
  class AnswerFiles {
    var cache: Option<Measurement>
    var marker: bool
    var calls: nat

    constructor ()
      ensures Matches(INITIAL)
    {
      cache, marker, calls := None, false, 0;
    }

    ghost predicate Matches(s: State)
      reads this
    {
      s.cache == cache && s.marker == marker && s.calls == calls
    }

    /** The read before the lock is taken. */
    method LoadCached(refresh: bool, ghost p: nat, ghost s: State) returns (answer: Option<Measurement>)
      requires Matches(s) && At(s, p, Started) && s.processes[p].refresh == refresh
      ensures answer == if refresh then None else cache
      ensures At(Apply(s, Peek(p)), p, if answer.Some? then Ended(Returned(answer.value, true)) else Waiting)
    {
      answer := if refresh then None else cache;
    }

    /** Everything done while the lock is held, as a run of the protocol from acquiring to releasing it. The answer
        of the provider, None for an error, comes from outside. */
    method GenerateUnderLock(retry: bool, refresh: bool, generated: Option<Measurement>, ghost p: nat, ghost s: State)
      returns (outcome: Outcome, ghost run: seq<Step>, ghost t: State)
      requires Matches(s) && At(s, p, Waiting) && s.lock.None?
      requires s.processes[p].retry == retry && s.processes[p].refresh == refresh
      modifies this
      ensures After(s, run) == Some(t) && Matches(t) && At(t, p, Ended(outcome)) && t.lock.None?
      ensures outcome ==
        if old(cache).Some? && !refresh then Returned(old(cache).value, true)
        else if old(marker) && !retry then Failed(UnknownPayment)
        else if generated.None? then Failed(Interrupted)
        else Returned(generated.value, false)
      ensures cache == if outcome.Returned? then Some(outcome.answer) else old(cache)
      ensures marker == !outcome.Returned?
      ensures calls == old(calls) + One(outcome == Failed(Interrupted) || (outcome.Returned? && !outcome.fromCache))
    {
      hide After;
      StartOfRun(s);
      run, t := Take(s, [], s, Acquire(p));
      if cache.Some? && !refresh {
        run, t := Take(s, run, t, Check(p));
        outcome := Returned(cache.value, true);
        marker := false;
        run, t := Take(s, run, t, Tidy(p));
      } else if marker && !retry {
        run, t := Take(s, run, t, Check(p));
        outcome := Failed(UnknownPayment);
      } else {
        run, t := Take(s, run, t, Check(p));
        outcome, run, t := Pay(generated, p, s, run, t);
      }
      run, t := Take(s, run, t, Release(p));
    }

    /** Clears a marker left behind, marks, calls and keeps the answer. */
    method Pay(generated: Option<Measurement>, ghost p: nat, ghost s: State, ghost before: seq<Step>, ghost u: State)
      returns (outcome: Outcome, ghost run: seq<Step>, ghost t: State)
      requires After(s, before) == Some(u) && Matches(u) && At(u, p, Allowed) && u.lock == Some(p)
      modifies this
      ensures After(s, run) == Some(t) && Matches(t) && At(t, p, Leaving(outcome)) && t.lock == Some(p)
      ensures outcome == if generated.None? then Failed(Interrupted) else Returned(generated.value, false)
      ensures cache == if generated.None? then old(cache) else generated
      ensures marker == generated.None? && calls == old(calls) + 1
    {
      hide After;
      marker := false;
      run, t := Take(s, before, u, Clear(p));
      marker := true;
      run, t := Take(s, run, t, Mark(p));
      calls := calls + 1;
      run, t := Take(s, run, t, Call(p));
      if generated.None? {
        run, t := Take(s, run, t, Raise(p));
        outcome := Failed(Interrupted);
      } else {
        run, t := Keep(generated.value, p, s, run, t);
        outcome := Returned(generated.value, false);
      }
    }

    /** Puts the answer in the cache and then removes the marker. */
    method Keep(answer: Measurement, ghost p: nat, ghost s: State, ghost before: seq<Step>, ghost u: State)
      returns (ghost run: seq<Step>, ghost t: State)
      requires After(s, before) == Some(u) && Matches(u) && At(u, p, Called) && u.lock == Some(p)
      modifies this
      ensures After(s, run) == Some(t) && Matches(t) && At(t, p, Leaving(Returned(answer, false))) && t.lock == Some(p)
      ensures cache == Some(answer) && !marker && calls == old(calls)
    {
      hide After;
      run, t := Take(s, before, u, Answer(p, answer));
      cache := Some(answer);
      run, t := Take(s, run, t, Save(p));
      marker := false;
      run, t := Take(s, run, t, Tidy(p));
    }
  }

  lemma StartOfRun(s: State)
    ensures After(s, []) == Some(s)
  {
  }

  lemma Take(s: State, run: seq<Step>, t: State, step: Step) returns (longer: seq<Step>, next: State)
    requires After(s, run) == Some(t) && Enabled(t, step)
    ensures next == Apply(t, step) && After(s, longer) == Some(next)
  {
    longer, next := run + [step], Apply(t, step);
    Extend(s, run, t, step);
  }
}
