/** The journal of model calls of one campaign, shared by threads that may be interrupted anywhere. */
module CallJournal {
  import opened Support
  import J = JsonLines

  datatype Ending = ResponseReceived | Unconfirmed

  datatype Event = Started(call: nat) | Ended(call: nat, ending: Ending)

  /** A line of the journal file; a cut or fused line cannot be read. */
  datatype Entry = Readable(event: Event) | Garbage

  datatype File = File(entries: seq<Entry>, open: bool)

  /** How a write ends: in full, or failing with nothing, the line without its newline, a piece of the
      record, or the full line in the file. */
  datatype Write = Written | NothingWritten | NewlineLost | PieceWritten | FlushFailed

  /** What becomes true of the world, in order: a record of the journal is complete, or the model is invoked. */
  datatype Happening = Recorded(event: Event) | Invoked(call: nat)

  /** Where a thread stands with the identity it holds. */
  datatype Phase = Idle | Numbered(call: nat) | Ready(call: nat) | Calling(call: nat)

  datatype State = State(
    maximum: nat, count: nat, events: seq<Event>, file: File, intact: bool, threads: map<nat, Phase>,
    log: seq<Happening>)

  datatype Step =
    | Reserve(thread: nat)
    | RecordStart(thread: nat, write: Write)
    | Invoke(thread: nat)
    | RecordEnd(thread: nat, ending: Ending, write: Write)
    | Interrupt(thread: nat)

  function Initial(maximum: nat): State {
    State(maximum, 0, [], File([], false), true, map[], [])
  }

  function PhaseOf(s: State, thread: nat): Phase {
    if thread in s.threads then s.threads[thread] else Idle
  }

  /** A line after a file that does not end with a newline is fused with its last line. */
  function WriteLine(f: File, event: Event, write: Write): File {
    if write == NothingWritten then f
    else if f.open && f.entries != [] then
      File(f.entries[..|f.entries| - 1] + [Garbage], write == NewlineLost || write == PieceWritten)
    else if write == PieceWritten then File(f.entries + [Garbage], true)
    else File(f.entries + [Readable(event)], write == NewlineLost)
  }

  function Happened(event: Event, write: Write): seq<Happening> {
    if write == NothingWritten || write == PieceWritten then [] else [Recorded(event)]
  }

  /** Appending an event: to the file first, and to the list in memory only when the file took it. */
  function Append(s: State, event: Event, write: Write): State {
    s.(file := WriteLine(s.file, event, write),
       events := if write == Written then s.events + [event] else s.events,
       intact := s.intact && write != PieceWritten && write != NewlineLost,
       log := s.log + Happened(event, write))
  }

  predicate Enabled(s: State, step: Step) {
    var phase := PhaseOf(s, step.thread);
    match step
    case Reserve(_) => phase.Idle?
    case RecordStart(_, _) => phase.Numbered?
    case Invoke(_) => phase.Ready?
    case RecordEnd(_, _, _) => phase.Calling?
    case Interrupt(_) => true
  }

  function Apply(s: State, step: Step): State
    requires Enabled(s, step)
  {
    var phase := PhaseOf(s, step.thread);
    match step
    case Reserve(t) =>
      if s.count >= s.maximum then s
      else s.(count := s.count + 1, threads := s.threads[t := Numbered(s.count + 1)])
    case RecordStart(t, write) =>
      Append(s, Started(phase.call),
          write).(threads := s.threads[t := if write == Written then Ready(phase.call) else Idle])
    case Invoke(t) => s.(threads := s.threads[t := Calling(phase.call)], log := s.log + [Invoked(phase.call)])
    case RecordEnd(t, ending, write) => Append(s, Ended(phase.call, ending), write).(threads := s.threads[t := Idle])
    case Interrupt(t) => s.(threads := s.threads[t := Idle])
  }

  function After(s: State, steps: seq<Step>): Option<State> {
    if steps == [] then Some(s)
    else
      match After(s, steps[..|steps| - 1])
      case None => None
      case Some(t) => if Enabled(t, steps[|steps| - 1]) then Some(Apply(t, steps[|steps| - 1])) else None
  }

  /** A thread may be interrupted at any time. It gives up its identity, and nothing is written or invoked. */
  lemma InterruptedAnywhere(s: State, thread: nat)
    ensures Enabled(s, Interrupt(thread))
    ensures var t := Apply(s, Interrupt(thread));
      && PhaseOf(t, thread).Idle? && t.count == s.count && t.file == s.file && t.events == s.events && t.log == s.log
      && forall u :: u != thread ==> PhaseOf(t, u) == PhaseOf(s, u)
  {
  }

  // ---- The life of an identity ----

  function CallOf(h: Happening): nat {
    match h case Recorded(e) => e.call case Invoked(c) => c
  }

  function Life(log: seq<Happening>, call: nat): seq<Happening> {
    if log == [] then []
    else
      var last := log[|log| - 1];
      Life(log[..|log| - 1], call) + if CallOf(last) == call then [last] else []
  }

  lemma LifeAppend(log: seq<Happening>, more: seq<Happening>, call: nat)
    requires |more| <= 1
    ensures Life(log + more, call) == Life(log, call) + if |more| == 1 && CallOf(more[0]) == call then more else []
  {
    if more == [] {
      assert log + more == log;
    } else {
      assert (log + more)[..|log|] == log;
    }
  }

  /** Nothing; or started; or started and invoked; or started, invoked and ended, once each and in this order. */
  predicate Orderly(life: seq<Happening>, call: nat) {
    || life == []
    || life == [Recorded(Started(call))]
    || life == [Recorded(Started(call)), Invoked(call)]
    || (|life| == 3 && life[..2] == [Recorded(Started(call)), Invoked(call)] && life[2].Recorded?
      && life[2].event.Ended?
        && life[2].event.call == call)
  }

  /** What a thread's phase says about the identity it holds. */
  predicate PhaseLife(phase: Phase, life: seq<Happening>) {
    match phase
    case Idle => true
    case Numbered(_) => life == []
    case Ready(c) => life == [Recorded(Started(c))]
    case Calling(c) => life == [Recorded(Started(c)), Invoked(c)]
  }

  /** The identities that threads hold are in range and pairwise distinct. */
  ghost predicate Numbering(s: State) {
    && s.count <= s.maximum
    && (forall t :: t in s.threads && !s.threads[t].Idle? ==> 0 < s.threads[t].call <= s.count)
    && (forall t, u :: t in s.threads && u in s.threads && t != u && !s.threads[t].Idle? && !s.threads[u].Idle? ==>
          s.threads[t].call != s.threads[u].call)
  }

  predicate LifeInv(s: State, call: nat) {
    Orderly(Life(s.log, call), call) && (call == 0 || call > s.count ==> Life(s.log, call) == [])
  }

  predicate ThreadInv(s: State, thread: nat) {
    var phase := PhaseOf(s, thread);
    phase.Idle? || PhaseLife(phase, Life(s.log, phase.call))
  }

  ghost predicate Inv(s: State) {
    Numbering(s) && (forall call :: LifeInv(s, call)) && (forall t :: ThreadInv(s, t))
  }

  /** What a step adds to the log. */
  function News(s: State, step: Step): (news: seq<Happening>)
    requires Enabled(s, step)
    ensures |news| <= 1
    ensures news != [] ==> !PhaseOf(s, step.thread).Idle? && CallOf(news[0]) == PhaseOf(s, step.thread).call
  {
    match step
    case RecordStart(_, write) => Happened(Started(PhaseOf(s, step.thread).call), write)
    case Invoke(_) => [Invoked(PhaseOf(s, step.thread).call)]
    case RecordEnd(_, ending, write) => Happened(Ended(PhaseOf(s, step.thread).call, ending), write)
    case _ => []
  }

  /** A step of a thread changes the life of the identity that the thread holds, and of no other. */
  lemma StepLives(s: State, step: Step, call: nat)
    requires Enabled(s, step)
    ensures Life(Apply(s, step).log, call)
         == Life(s.log, call) + if News(s, step) != [] && CallOf(News(s, step)[0]) == call then News(s, step) else []
  {
    assert Apply(s, step).log == s.log + News(s, step);
    hide Apply, News;
    LifeAppend(s.log, News(s, step), call);
  }

  lemma StepKeepsNumbering(s: State, step: Step)
    requires Numbering(s) && Enabled(s, step)
    ensures Numbering(Apply(s, step))
  {
    hide Append;
    assert forall e, w :: Append(s, e, w).threads == s.threads && Append(s, e, w).count == s.count
                          && Append(s, e, w).maximum == s.maximum by { JournalKeeps(s); }
  }

  lemma JournalKeeps(s: State)
    ensures forall e, w :: Append(s, e, w).threads == s.threads && Append(s, e, w).count == s.count
                          && Append(s, e, w).maximum == s.maximum
  {
  }

  /** The phase of a thread after a step of its own. */
  lemma OwnPhase(s: State, step: Step)
    requires Enabled(s, step)
    ensures var phase, next := PhaseOf(s, step.thread), PhaseOf(Apply(s, step), step.thread);
      && Apply(s, step).count == s.count + (if step.Reserve? && s.count < s.maximum then 1 else 0)
      && next == match step
                 case Reserve(_) => if s.count < s.maximum then Numbered(s.count + 1) else phase
                 case RecordStart(_, write) => if write == Written then Ready(phase.call) else Idle
                 case Invoke(_) => Calling(phase.call)
                 case RecordEnd(_, _, _) => Idle
                 case Interrupt(_) => Idle
  {
  }

  lemma OtherPhase(s: State, step: Step, thread: nat)
    requires Enabled(s, step) && thread != step.thread
    ensures PhaseOf(Apply(s, step), thread) == PhaseOf(s, thread)
  {
  }

  lemma StepKeepsLife(s: State, step: Step, call: nat)
    requires Numbering(s) && LifeInv(s, call) && ThreadInv(s, step.thread) && Enabled(s, step)
    ensures LifeInv(Apply(s, step), call)
  {
    StepLives(s, step, call);
    OwnPhase(s, step);
    hide Apply, Life;
  }

  lemma OwnThreadKept(s: State, step: Step)
    requires Inv(s) && Enabled(s, step)
    ensures ThreadInv(Apply(s, step), step.thread)
  {
    var next := PhaseOf(Apply(s, step), step.thread);
    OwnPhase(s, step);
    assert ThreadInv(s, step.thread);
    if !next.Idle? {
      StepLives(s, step, next.call);
      assert LifeInv(s, next.call);
    }
    hide Apply, Life, Inv;
  }

  lemma OtherThreadKept(s: State, step: Step, thread: nat)
    requires Inv(s) && Enabled(s, step) && thread != step.thread
    ensures ThreadInv(Apply(s, step), thread)
  {
    OtherPhase(s, step, thread);
    assert ThreadInv(s, thread);
    var phase := PhaseOf(s, thread);
    if !phase.Idle? {
      assert News(s, step) != [] ==> CallOf(News(s, step)[0]) != phase.call;
      StepLives(s, step, phase.call);
    }
    hide Apply, Life, Inv, News;
  }

  lemma StepKeepsThread(s: State, step: Step, thread: nat)
    requires Inv(s) && Enabled(s, step)
    ensures ThreadInv(Apply(s, step), thread)
  {
    hide *;
    if thread == step.thread {
      OwnThreadKept(s, step);
    } else {
      OtherThreadKept(s, step, thread);
    }
  }

  lemma StepKeepsInv(s: State, step: Step)
    requires Inv(s) && Enabled(s, step)
    ensures Inv(Apply(s, step))
  {
    hide Apply, LifeInv, ThreadInv, Numbering, Enabled;
    StepKeepsNumbering(s, step);
    forall call ensures LifeInv(Apply(s, step), call) {
      StepKeepsLife(s, step, call);
    }
    forall t ensures ThreadInv(Apply(s, step), t) {
      StepKeepsThread(s, step, t);
    }
  }

  // ---- Counting invocations ----

  function Invocations(log: seq<Happening>): nat {
    if log == [] then 0 else Invocations(log[..|log| - 1]) + if log[|log| - 1].Invoked? then 1 else 0
  }

  function InvokedCalls(log: seq<Happening>): set<nat> {
    if log == [] then {}
    else
      var last := log[|log| - 1];
      InvokedCalls(log[..|log| - 1]) + if last.Invoked? then {last.call} else {}
  }

  lemma {:induction false} InvokedIsInLife(log: seq<Happening>, call: nat)
    ensures call in InvokedCalls(log) <==> Invoked(call) in Life(log, call)
  {
    if log != [] {
      InvokedIsInLife(log[..|log| - 1], call);
    }
  }

  lemma {:induction false} SizeOfRange(calls: set<nat>, n: nat)
    requires forall c :: c in calls ==> 0 < c <= n
    ensures |calls| <= n
  {
    if n == 0 {
      assert calls == {};
    } else {
      SizeOfRange(calls - {n}, n - 1);
    }
  }

  /** Every identity is invoked at most once, so invocations are as many as invoked identities. */
  ghost predicate CountsCalls(s: State) {
    Invocations(s.log) == |InvokedCalls(s.log)|
  }

  lemma LogGrows(s: State, step: Step)
    requires Enabled(s, step)
    ensures var log, next := s.log, Apply(s, step).log;
      && Invocations(next) == Invocations(log) + (if step.Invoke? then 1 else 0)
      && InvokedCalls(next) == InvokedCalls(log) + (if step.Invoke? then {PhaseOf(s, step.thread).call} else {})
  {
    var log, news := s.log, News(s, step);
    assert Apply(s, step).log == log + news;
    assert news == [] ==> log + news == log;
    assert news != [] ==> (log + news)[..|log|] == log;
  }

  lemma StepCountsCalls(s: State, step: Step)
    requires Inv(s) && CountsCalls(s) && Enabled(s, step)
    ensures CountsCalls(Apply(s, step))
  {
    LogGrows(s, step);
    if step.Invoke? {
      assert ThreadInv(s, step.thread);
      InvokedIsInLife(s.log, PhaseOf(s, step.thread).call);
    }
    hide Apply, Life, Invocations, InvokedCalls, Inv;
  }

  lemma CallsInRange(s: State)
    requires Inv(s)
    ensures forall c :: c in InvokedCalls(s.log) ==> 0 < c <= s.count
  {
    forall c | c in InvokedCalls(s.log) ensures 0 < c <= s.count {
      InvokedIsInLife(s.log, c);
      assert LifeInv(s, c);
    }
  }

  // ---- The file ----

  function RecordedEvents(log: seq<Happening>): seq<Entry> {
    if log == [] then []
    else
      var last := log[|log| - 1];
      RecordedEvents(log[..|log| - 1]) + if last.Recorded? then [Readable(last.event)] else []
  }

  /** As long as no write was cut short, the file is exactly the recorded events; a readable entry was always
      recorded. */
  ghost predicate FileInv(s: State) {
    && (s.intact ==> !s.file.open && s.file.entries == RecordedEvents(s.log))
    && (s.file.open ==> s.file.entries != [])
    && (forall i :: 0 <= i < |s.file.entries| && s.file.entries[i].Readable? ==>
      Recorded(s.file.entries[i].event) in s.log)
  }

  lemma JournalKeepsFile(s: State, event: Event, write: Write)
    requires FileInv(s)
    ensures FileInv(Append(s, event, write))
  {
    var log, more := s.log, Happened(event, write);
    assert more == [] ==> log + more == log;
    assert more != [] ==> (log + more)[..|log|] == log && (log + more)[|log|] == Recorded(event);
  }

  lemma StepKeepsFile(s: State, step: Step)
    requires FileInv(s) && Enabled(s, step)
    ensures FileInv(Apply(s, step))
  {
    hide Append;
    var phase := PhaseOf(s, step.thread);
    match step
    case RecordStart(_, write) => JournalKeepsFile(s, Started(phase.call), write);
    case RecordEnd(_, ending, write) => JournalKeepsFile(s, Ended(phase.call, ending), write);
    case Invoke(_) => assert (s.log + [Invoked(phase.call)])[..|s.log|] == s.log;
    case _ =>
  }

  lemma {:induction false} RecordedInFile(log: seq<Happening>, event: Event)
    requires Recorded(event) in log
    ensures Readable(event) in RecordedEvents(log)
  {
    if log[|log| - 1] != Recorded(event) {
      RecordedInFile(log[..|log| - 1], event);
    }
  }

  lemma {:induction false} InLife(log: seq<Happening>, h: Happening)
    ensures h in log <==> h in Life(log, CallOf(h))
  {
    if log != [] {
      var front, last := log[..|log| - 1], log[|log| - 1];
      InLife(front, h);
      assert log == front + [last];
    }
  }

  // ---- Over every run ----

  lemma InitialKeeps(maximum: nat)
    ensures Inv(Initial(maximum)) && CountsCalls(Initial(maximum)) && FileInv(Initial(maximum))
  {
  }

  lemma {:induction false} RunKeepsInv(maximum: nat, steps: seq<Step>)
    requires After(Initial(maximum), steps).Some?
    ensures var s := After(Initial(maximum), steps).value;
      Inv(s) && CountsCalls(s) && FileInv(s) && s.maximum == maximum
  {
    hide Inv, CountsCalls, FileInv, Apply, Enabled;
    if steps == [] {
      InitialKeeps(maximum);
    } else {
      var front, last := steps[..|steps| - 1], steps[|steps| - 1];
      RunKeepsInv(maximum, front);
      var s := After(Initial(maximum), front).value;
      StepKeepsInv(s, last);
      StepCountsCalls(s, last);
      StepKeepsFile(s, last);
      SameMaximum(s, last);
    }
  }

  lemma SameMaximum(s: State, step: Step)
    requires Enabled(s, step)
    ensures Apply(s, step).maximum == s.maximum
  {
  }

  /** How often the model is invoked. */
  function InvokesIn(steps: seq<Step>): nat {
    if steps == [] then 0 else InvokesIn(steps[..|steps| - 1]) + if steps[|steps| - 1].Invoke? then 1 else 0
  }

  lemma {:induction false} InvocationsOfRun(maximum: nat, steps: seq<Step>)
    requires After(Initial(maximum), steps).Some?
    ensures Invocations(After(Initial(maximum), steps).value.log) == InvokesIn(steps)
  {
    if steps != [] {
      hide Apply, Enabled;
      InvocationsOfRun(maximum, steps[..|steps| - 1]);
      LogGrows(After(Initial(maximum), steps[..|steps| - 1]).value, steps[|steps| - 1]);
    }
  }

  /** However threads interleave, fail and are interrupted, the model is invoked at most `maximum` times, and every
      identity that anything happened to is in 1..maximum. */
  lemma InvocationsAreBounded(maximum: nat, steps: seq<Step>)
    requires After(Initial(maximum), steps).Some?
    ensures var s := After(Initial(maximum), steps).value;
      && InvokesIn(steps) <= s.count <= maximum
      && forall i :: 0 <= i < |s.log| ==> 0 < CallOf(s.log[i]) <= s.count
  {
    RunKeepsInv(maximum, steps);
    InvocationsOfRun(maximum, steps);
    var s := After(Initial(maximum), steps).value;
    CallsInRange(s);
    SizeOfRange(InvokedCalls(s.log), s.count);
    forall i | 0 <= i < |s.log| ensures 0 < CallOf(s.log[i]) <= s.count {
      InLife(s.log, s.log[i]);
      assert LifeInv(s, CallOf(s.log[i]));
    }
  }

  /** An identity is started at most once, then invoked at most once, then ended at most once; and no two threads
      hold one identity. */
  lemma LivesAreOrderly(maximum: nat, steps: seq<Step>, call: nat)
    requires After(Initial(maximum), steps).Some?
    ensures var s := After(Initial(maximum), steps).value;
      && Orderly(Life(s.log, call), call)
      && forall t, u :: !PhaseOf(s, t).Idle? && !PhaseOf(s, u).Idle? && t != u ==>
        PhaseOf(s, t).call != PhaseOf(s, u).call
  {
    RunKeepsInv(maximum, steps);
    assert LifeInv(After(Initial(maximum), steps).value, call);
  }

  lemma {:induction false} LifeOfPrefix(log: seq<Happening>, i: nat, call: nat)
    requires i <= |log|
    ensures Life(log[..i], call) <= Life(log, call)
  {
    if i < |log| {
      LifeOfPrefix(log[..|log| - 1], i, call);
      assert log[..|log| - 1][..i] == log[..i];
    } else {
      assert log[..i] == log;
    }
  }

  lemma BeforeInvocation(life: seq<Happening>, call: nat, before: seq<Happening>)
    requires Orderly(life, call) && before + [Invoked(call)] <= life
    ensures before == [Recorded(Started(call))]
  {
    var p := before + [Invoked(call)];
    assert life[|before|] == p[|before|] == Invoked(call);
    if |life| == 3 {
      assert life[0] == life[..2][0] && life[1] == life[..2][1];
    }
    assert |before| == 1;
    assert before[0] == p[0] == life[0];
  }

  /** When an identity is invoked, exactly its started record is complete. */
  lemma InvokedAfterStarted(maximum: nat, steps: seq<Step>, i: nat)
    requires After(Initial(maximum), steps).Some?
    requires i < |After(Initial(maximum), steps).value.log| && After(Initial(maximum), steps).value.log[i].Invoked?
    ensures var log := After(Initial(maximum), steps).value.log;
      Life(log[..i], log[i].call) == [Recorded(Started(log[i].call))]
  {
    var log := After(Initial(maximum), steps).value.log;
    var call := log[i].call;
    LivesAreOrderly(maximum, steps, call);
    LifeOfPrefix(log, i + 1, call);
    assert log[..i + 1][..i] == log[..i];
    assert Life(log[..i + 1], call) == Life(log[..i], call) + [Invoked(call)];
    hide Life, Orderly;
    BeforeInvocation(Life(log, call), call, Life(log[..i], call));
  }

  /** A write that leaves a line without its newline. */
  predicate CutShort(step: Step) {
    (step.RecordStart? || step.RecordEnd?) && (step.write == NewlineLost || step.write == PieceWritten)
  }

  lemma {:induction false} IntactIfNotCut(maximum: nat, steps: seq<Step>)
    requires After(Initial(maximum), steps).Some?
    ensures After(Initial(maximum), steps).value.intact <==> forall i :: 0 <= i < |steps| ==> !CutShort(steps[i])
  {
    if steps != [] {
      var front, last := steps[..|steps| - 1], steps[|steps| - 1];
      IntactIfNotCut(maximum, front);
      assert forall i :: 0 <= i < |steps| ==> steps[i] == if i < |front| then front[i] else last;
      StepCuts(After(Initial(maximum), front).value, last);
      hide Apply, CutShort, Enabled;
    }
  }

  lemma StepCuts(s: State, step: Step)
    requires Enabled(s, step)
    ensures Apply(s, step).intact <==> s.intact && !CutShort(step)
  {
  }

  /** While no write was cut short, a call that is about to be made has its started record readable in the file. */
  lemma StartedIsReadable(maximum: nat, steps: seq<Step>, thread: nat)
    requires After(Initial(maximum), steps).Some? && forall i :: 0 <= i < |steps| ==> !CutShort(steps[i])
    requires Enabled(After(Initial(maximum), steps).value, Invoke(thread))
    ensures var s := After(Initial(maximum), steps).value;
      Readable(Started(PhaseOf(s, thread).call)) in s.file.entries
  {
    RunKeepsInv(maximum, steps);
    IntactIfNotCut(maximum, steps);
    var s := After(Initial(maximum), steps).value;
    var event := Started(PhaseOf(s, thread).call);
    assert ThreadInv(s, thread);
    InLife(s.log, Recorded(event));
    RecordedInFile(s.log, event);
  }

  /** Whether a started record that was written without any error can be read back depends on exactly one thing:
      that the write before it was not cut short. */
  lemma ReadableIffNotFused(maximum: nat, steps: seq<Step>, thread: nat)
    requires After(Initial(maximum), steps).Some?
    requires PhaseOf(After(Initial(maximum), steps).value, thread).Numbered?
    ensures var s := After(Initial(maximum), steps).value;
      var t := Apply(s, RecordStart(thread, Written));
      && Enabled(t, Invoke(thread))
      && (Readable(Started(PhaseOf(s, thread).call)) in t.file.entries <==> !s.file.open)
  {
    RunKeepsInv(maximum, steps);
    var s := After(Initial(maximum), steps).value;
    var event := Started(PhaseOf(s, thread).call);
    assert ThreadInv(s, thread);
    InLife(s.log, Recorded(event));
    FusedOrReadable(s, thread, event);
  }

  lemma FusedOrReadable(s: State, thread: nat, event: Event)
    requires FileInv(s) && PhaseOf(s, thread).Numbered? && event == Started(PhaseOf(s, thread).call)
      && Recorded(event) !in s.log
    ensures var t := Apply(s, RecordStart(thread, Written));
      && Enabled(t, Invoke(thread))
      && (Readable(event) in t.file.entries <==> !s.file.open)
  {
    var entries := Apply(s, RecordStart(thread, Written)).file.entries;
    if s.file.open {
      forall i | 0 <= i < |entries| ensures entries[i] != Readable(event) {
        assert i < |entries| - 1 ==> entries[i] == s.file.entries[i];
      }
    } else {
      assert entries[|entries| - 1] == Readable(event);
    }
  }

  // ---- The started record at the time of the call ----

  /** For every call whose started record was written in full: whether the file then ended in a cut line. */
  function Starts(maximum: nat, steps: seq<Step>): map<nat, bool>
    requires After(Initial(maximum), steps).Some?
  {
    if steps == [] then map[]
    else
      var front, last := steps[..|steps| - 1], steps[|steps| - 1];
      StartsAfter(After(Initial(maximum), front).value, last, Starts(maximum, front))
  }

  /** The entries that no later write can take along. */
  function SecuredEntries(f: File): seq<Entry> {
    if f.open && f.entries != [] then f.entries[..|f.entries| - 1] else f.entries
  }

  ghost predicate StartsHold(s: State, starts: map<nat, bool>) {
    && (forall c :: c in starts ==> Recorded(Started(c)) in s.log)
    && (forall c :: c in starts && starts[c] ==> Readable(Started(c)) !in s.file.entries)
    && (forall c :: c in starts && !starts[c] ==> Readable(Started(c)) in SecuredEntries(s.file))
    && (forall t :: PhaseOf(s, t).Ready? ==> PhaseOf(s, t).call in starts)
  }

  /** A write keeps the entries that were secured and adds at most a readable entry of its own event. */
  lemma WriteKeepsSecured(f: File, event: Event, write: Write)
    ensures SecuredEntries(f) <= SecuredEntries(WriteLine(f, event, write))
    ensures forall e :: e in WriteLine(f, event, write).entries ==>
      e in f.entries || e == Garbage || e == Readable(event)
    ensures write == Written && !f.open ==> Readable(event) in SecuredEntries(WriteLine(f, event, write))
    ensures write == Written && f.open && f.entries != [] ==>
      forall e :: e in WriteLine(f, event, write).entries ==> e in f.entries || e == Garbage
  {
    var g := WriteLine(f, event, write);
    forall e | e in g.entries ensures e in f.entries || e == Garbage || e == Readable(event) {
      var i :| 0 <= i < |g.entries| && g.entries[i] == e;
      assert i < |g.entries| - 1 ==> i < |f.entries| && e == f.entries[i];
    }
    if write == Written && !f.open {
      assert g.entries[|g.entries| - 1] == Readable(event);
    }
    if write == Written && f.open && f.entries != [] {
      forall e | e in g.entries ensures e in f.entries || e == Garbage {
        var i :| 0 <= i < |g.entries| && g.entries[i] == e;
        assert i < |g.entries| - 1 ==> e == f.entries[i];
      }
    }
  }

  lemma PrefixKeeps(a: seq<Entry>, b: seq<Entry>, e: Entry)
    requires a <= b && e in a
    ensures e in b
  {
    var i :| 0 <= i < |a| && a[i] == e;
    assert b[i] == e;
  }

  /** Any write keeps what holds of the starts before it, unless it is the started record of one of them. */
  lemma JournalKeepsStarts(s: State, event: Event, write: Write, starts: map<nat, bool>)
    requires StartsHold(s, starts) && (event.Started? ==> event.call !in starts)
    ensures StartsHold(Append(s, event, write), starts)
  {
    var t := Append(s, event, write);
    WriteKeepsSecured(s.file, event, write);
    assert t.threads == s.threads && t.file == WriteLine(s.file, event, write);
    assert t.log == s.log + Happened(event, write);
    hide WriteLine, SecuredEntries, Append, Happened;
    forall c | c in starts ensures Recorded(Started(c)) in t.log {
      assert Recorded(Started(c)) in s.log;
    }
    forall c | c in starts && starts[c] ensures Readable(Started(c)) !in t.file.entries {
      assert Readable(Started(c)) !in s.file.entries && Readable(Started(c)) != Readable(event);
    }
    forall c | c in starts && !starts[c] ensures Readable(Started(c)) in SecuredEntries(t.file) {
      PrefixKeeps(SecuredEntries(s.file), SecuredEntries(t.file), Readable(Started(c)));
    }
    forall u | PhaseOf(t, u).Ready? ensures PhaseOf(t, u).call in starts {
      assert PhaseOf(t, u) == PhaseOf(s, u);
    }
  }

  /** A thread may move to any phase but that of a call whose start is not known. */
  lemma MoveKeepsStarts(s: State, thread: nat, phase: Phase, starts: map<nat, bool>)
    requires StartsHold(s, starts) && (phase.Ready? ==> phase.call in starts)
    ensures StartsHold(s.(threads := s.threads[thread := phase]), starts)
  {
    var t := s.(threads := s.threads[thread := phase]);
    forall u | PhaseOf(t, u).Ready? ensures PhaseOf(t, u).call in starts {
      assert PhaseOf(t, u) == if u == thread then phase else PhaseOf(s, u);
    }
    hide SecuredEntries;
  }

  lemma StartAddsStart(s: State, call: nat, starts: map<nat, bool>)
    requires StartsHold(s, starts) && FileInv(s) && Recorded(Started(call)) !in s.log
    ensures StartsHold(Append(s, Started(call), Written), starts[call := s.file.open])
  {
    var event := Started(call);
    var t := Append(s, event, Written);
    assert call !in starts;
    JournalKeepsStarts(s, event, Written, starts);
    WriteKeepsSecured(s.file, event, Written);
    ReadableWasRecorded(s, event);
    assert t.file == WriteLine(s.file, event, Written) && t.log == s.log + [Recorded(event)];
    assert s.file.open ==> s.file.entries != [];
    hide WriteLine, SecuredEntries, Append, FileInv;
    assert Recorded(event) in t.log;
    assert s.file.open ==> Readable(event) !in t.file.entries;
  }

  lemma ReadableWasRecorded(s: State, event: Event)
    requires FileInv(s)
    ensures Readable(event) in s.file.entries ==> Recorded(event) in s.log
  {
    if i :| 0 <= i < |s.file.entries| && s.file.entries[i] == Readable(event) {
      assert s.file.entries[i].Readable?;
    }
  }

  lemma LogMayGrow(s: State, u: State, starts: map<nat, bool>)
    requires StartsHold(s, starts) && u.file == s.file && u.threads == s.threads && s.log <= u.log
    ensures StartsHold(u, starts)
  {
    forall c | c in starts ensures Recorded(Started(c)) in u.log {
      var i :| 0 <= i < |s.log| && s.log[i] == Recorded(Started(c));
      assert u.log[i] == Recorded(Started(c));
    }
    forall t | PhaseOf(u, t).Ready? ensures PhaseOf(u, t).call in starts {
      assert PhaseOf(u, t) == PhaseOf(s, t);
    }
    hide SecuredEntries;
  }

  function StartsAfter(s: State, step: Step, starts: map<nat, bool>): map<nat, bool>
    requires Enabled(s, step)
  {
    if step.RecordStart? && step.write == Written then starts[PhaseOf(s, step.thread).call := s.file.open] else starts
  }

  lemma RecordKeepsStarts(s: State, step: Step, starts: map<nat, bool>)
    requires Inv(s) && FileInv(s) && StartsHold(s, starts) && Enabled(s, step) && step.RecordStart?
    ensures StartsHold(Apply(s, step), StartsAfter(s, step, starts))
  {
    var call := PhaseOf(s, step.thread).call;
    assert ThreadInv(s, step.thread);
    InLife(s.log, Recorded(Started(call)));
    assert Recorded(Started(call)) !in s.log;
    hide Inv, FileInv, StartsHold, Append, ThreadInv;
    if step.write == Written {
      StartAddsStart(s, call, starts);
    } else {
      NotAStart(s, starts, call);
      JournalKeepsStarts(s, Started(call), step.write, starts);
    }
    MoveKeepsStarts(Append(s, Started(call), step.write), step.thread,
                    if step.write == Written then Ready(call) else Idle, StartsAfter(s, step, starts));
    AppendKeepsThreads(s, Started(call), step.write);
  }

  lemma NotAStart(s: State, starts: map<nat, bool>, call: nat)
    requires StartsHold(s, starts) && Recorded(Started(call)) !in s.log
    ensures call !in starts
  {
  }

  lemma AppendKeepsThreads(s: State, event: Event, write: Write)
    ensures Append(s, event, write).threads == s.threads
  {
  }

  lemma StepKeepsStarts(s: State, step: Step, starts: map<nat, bool>)
    requires Inv(s) && FileInv(s) && StartsHold(s, starts) && Enabled(s, step)
    ensures StartsHold(Apply(s, step), StartsAfter(s, step, starts))
  {
    var phase := PhaseOf(s, step.thread);
    match step
    case RecordStart(_, _) => RecordKeepsStarts(s, step, starts); hide *;
    case RecordEnd(t, ending, write) =>
      hide Inv, FileInv, StartsHold, Append;
      JournalKeepsStarts(s, Ended(phase.call, ending), write, starts);
      AppendKeepsThreads(s, Ended(phase.call, ending), write);
      MoveKeepsStarts(Append(s, Ended(phase.call, ending), write), t, Idle, starts);
    case Invoke(t) =>
      hide Inv, FileInv, SecuredEntries;
      var u := s.(log := s.log + [Invoked(phase.call)]);
      hide StartsHold;
      LogMayGrow(s, u, starts);
      MoveKeepsStarts(u, t, Calling(phase.call), starts);
    case Reserve(t) =>
      hide Inv, FileInv, SecuredEntries;
      if s.count < s.maximum {
        var u := s.(count := s.count + 1);
        hide StartsHold;
        LogMayGrow(s, u, starts);
        MoveKeepsStarts(u, t, Numbered(s.count + 1), starts);
      }
    case Interrupt(t) =>
      hide Inv, FileInv, StartsHold;
      MoveKeepsStarts(s, t, Idle, starts);
  }

  lemma {:induction false} RunKeepsStarts(maximum: nat, steps: seq<Step>)
    requires After(Initial(maximum), steps).Some?
    ensures StartsHold(After(Initial(maximum), steps).value, Starts(maximum, steps))
  {
    hide StartsHold, Inv, FileInv, CountsCalls, Apply, Enabled;
    if steps == [] {
      NoStarts(maximum);
    } else {
      var front := steps[..|steps| - 1];
      RunKeepsStarts(maximum, front);
      RunKeepsInv(maximum, front);
      StepKeepsStarts(After(Initial(maximum), front).value, steps[|steps| - 1], Starts(maximum, front));
    }
  }

  lemma NoStarts(maximum: nat)
    ensures StartsHold(Initial(maximum), map[])
  {
  }

  /** What Starts says of a call is how its started record was written, at one step of the run. */
  lemma {:induction false} StartsMean(maximum: nat, steps: seq<Step>, call: nat) returns (i: nat)
    requires After(Initial(maximum), steps).Some? && call in Starts(maximum, steps)
    ensures i < |steps| && After(Initial(maximum), steps[..i]).Some?
    ensures steps[i].RecordStart? && steps[i].write == Written
    ensures var s := After(Initial(maximum), steps[..i]).value;
      PhaseOf(s, steps[i].thread) == Numbered(call) && Starts(maximum, steps)[call] == s.file.open
  {
    var front, last := steps[..|steps| - 1], steps[|steps| - 1];
    var s := After(Initial(maximum), front).value;
    if last.RecordStart? && last.write == Written && PhaseOf(s, last.thread).call == call {
      i := |steps| - 1;
    } else {
      i := StartsMean(maximum, front, call);
      assert front[..i] == steps[..i];
    }
  }

  /** At every invocation of the model in every run: the call's started record was written in full at some earlier
      step, and it can be read back at the time of the call if and only if the file did not end in a cut line when it
      was written; whatever was written or cut in between. */
  lemma ReadableAtCall(maximum: nat, steps: seq<Step>, thread: nat) returns (i: nat)
    requires After(Initial(maximum), steps).Some? && Enabled(After(Initial(maximum), steps).value, Invoke(thread))
    ensures i < |steps| && After(Initial(maximum), steps[..i]).Some?
    ensures steps[i].RecordStart? && steps[i].write == Written
    ensures var s, t := After(Initial(maximum), steps[..i]).value, After(Initial(maximum), steps).value;
      && PhaseOf(s, steps[i].thread) == Numbered(PhaseOf(t, thread).call)
      && (Readable(Started(PhaseOf(t, thread).call)) in t.file.entries <==> !s.file.open)
  {
    var t := After(Initial(maximum), steps).value;
    RunKeepsStarts(maximum, steps);
    i := StartsMean(maximum, steps, PhaseOf(t, thread).call);
    var event := Readable(Started(PhaseOf(t, thread).call));
    if event in SecuredEntries(t.file) {
      PrefixKeeps(SecuredEntries(t.file), t.file.entries, event);
    }
  }

  // ---- The text of the file ----

  /** The characters that a write of an event puts into the file. */
  ghost predicate Writes(c: J.Codec<Event>, event: Event, write: Write, t: string) {
    match write
    case Written | FlushFailed => t == c.encode(event) + "\n"
    case NothingWritten => t == ""
    case NewlineLost => t == c.encode(event)
    case PieceWritten => t != "" && t < c.encode(event)
  }

  ghost predicate LineShows(c: J.Codec<Event>, line: string, e: Entry) {
    match e
    case Readable(event) => c.decode(line) == Some(event)
    case Garbage => c.decode(line) == None
  }

  ghost predicate LinesShow(c: J.Codec<Event>, lines: seq<string>, entries: seq<Entry>) {
    |lines| == |entries| && forall i :: 0 <= i < |lines| ==> LineShows(c, lines[i], entries[i])
  }

  /** A text is what the file stands for: line by line it can be read or not, and it ends with a newline or in what
      writes that were cut short have left. */
  ghost predicate Shows(c: J.Codec<Event>, s: string, f: File) {
    && LinesShow(c, J.Lines(s), f.entries)
    && (!f.open ==> J.Terminated(s))
    && (f.open ==> f.entries != [] && exists body, ps ::
          s == body + J.Joined(c, ps) && J.Fits(c, ps) && LinesShow(c, J.Lines(body), f.entries[..|f.entries| - 1])
          && J.Terminated(body))
  }

  lemma ShowsNothing(c: J.Codec<Event>)
    ensures Shows(c, "", File([], false))
  {
  }

  lemma LinesShowConcat(c: J.Codec<Event>, a: seq<string>, b: seq<string>, x: seq<Entry>, y: seq<Entry>)
    requires LinesShow(c, a, x) && LinesShow(c, b, y)
    ensures LinesShow(c, a + b, x + y)
  {
    hide LineShows;
  }

  /** What the pieces of several records leave in one line is garbage, and so is a proper piece of one; a whole record
      can be read; with the newline or without. */
  lemma OneLineShows(c: J.Codec<Event>, ps: seq<J.Piece<Event>>, e: Entry, line: string)
    requires J.Faithful(c) && J.Fits(c, ps)
    requires line == J.Joined(c, ps) || (line == J.Joined(c, ps) + "\n" && (|ps| > 1 || e != Garbage))
    requires e == if |ps| > 1 || ps[0].length < |c.encode(ps[0].record)| then Garbage else Readable(ps[0].record)
    ensures J.Lines(line) == [line] && LinesShow(c, [line], [e])
  {
    J.JoinedLooks(c, ps);
    if line == J.Joined(c, ps) {
      J.NoNewline(line);
    } else {
      J.OneLine(J.Joined(c, ps));
    }
    if |ps| == 1 {
      J.JoinedOne(c, ps[0]);
      assert ps == [ps[0]];
    }
    assert e == Garbage ==> J.Scrap(c, ps);
    hide J.Lines, J.Joined;
  }

  predicate LeavesOpen(write: Write) {
    write == NewlineLost || write == PieceWritten
  }

  function EntryOf(alone: bool, event: Event, write: Write): Entry {
    if alone && write != PieceWritten then Readable(event) else Garbage
  }

  /** The line that a write makes together with the pieces that it is fused with. */
  lemma LineOfWrite(c: J.Codec<Event>, ps: seq<J.Piece<Event>>, event: Event, write: Write, t: string)
    returns (all: seq<J.Piece<Event>>)
    requires J.Faithful(c) && (ps == [] || J.Fits(c, ps))
    requires write != NothingWritten && Writes(c, event, write, t)
    ensures J.Fits(c, all)
    ensures J.Joined(c, ps) + t == J.Joined(c, all) + if LeavesOpen(write) then "" else "\n"
    ensures var line := J.Joined(c, ps) + t;
      J.Lines(line) == [line] && LinesShow(c, [line], [EntryOf(ps == [], event, write)])
  {
    var p := J.Piece(event, if write == PieceWritten then |t| else |c.encode(event)|);
    all := ps + [p];
    PieceText(c, event, write, t, p);
    J.JoinedSnoc(c, ps, p);
    assert J.Fits(c, all);
    hide J.Faithful, J.Fits, J.Joined, J.Text, Writes, LinesShow, J.Lines;
    Associate(J.Joined(c, ps), J.Text(c, p), if LeavesOpen(write) then "" else "\n");
    NothingAdded(J.Joined(c, all));
    OneLineShows(c, all, EntryOf(ps == [], event, write), J.Joined(c, ps) + t);
  }

  lemma NothingAdded(s: string)
    ensures s + "" == s
  {
  }

  /** A write after a terminated text, or after pieces that it is fused with. */
  lemma WriteToPieces(c: J.Codec<Event>, body: string, before: seq<Entry>, ps: seq<J.Piece<Event>>, event: Event,
      write: Write, t: string)
    requires J.Faithful(c) && J.Terminated(body) && LinesShow(c, J.Lines(body), before)
    requires ps == [] || J.Fits(c, ps)
    requires write != NothingWritten && Writes(c, event, write, t)
    ensures Shows(c, body + (J.Joined(c, ps) + t), File(before + [EntryOf(ps == [], event, write)], LeavesOpen(write)))
  {
    var all := LineOfWrite(c, ps, event, write, t);
    hide J.Faithful, J.Fits, J.Joined, J.Lines, J.Terminated, Writes, LinesShow, EntryOf, LeavesOpen;
    var line, e := J.Joined(c, ps) + t, EntryOf(ps == [], event, write);
    J.LinesAppend(body, line);
    LinesShowConcat(c, J.Lines(body), [line], before, [e]);
    assert (before + [e])[..|before|] == before;
    NothingAdded(J.Joined(c, all));
    if !LeavesOpen(write) {
      EndsWell(body + J.Joined(c, all));
      Associate(body, J.Joined(c, all), "\n");
    }
  }

  lemma EndsWell(s: string)
    ensures J.Terminated(s + "\n")
  {
  }

  lemma PieceText(c: J.Codec<Event>, event: Event, write: Write, t: string, p: J.Piece<Event>)
    requires J.Faithful(c) && write != NothingWritten && Writes(c, event, write, t)
    requires p == J.Piece(event, if write == PieceWritten then |t| else |c.encode(event)|)
    ensures 0 < p.length <= |c.encode(event)| && (write == PieceWritten ==> p.length < |c.encode(event)|)
    ensures t == J.Text(c, p) + if write == Written || write == FlushFailed then "\n" else ""
  {
    assert c.encode(event)[..|c.encode(event)|] == c.encode(event);
  }

  /** Whatever a write puts into the text is what WriteLine makes of the file: the entries that can be read back, and
      whether the next line will be fused. */
  lemma WriteShows(c: J.Codec<Event>, s: string, f: File, event: Event, write: Write, t: string)
    requires J.Faithful(c) && Shows(c, s, f) && Writes(c, event, write, t)
    ensures Shows(c, s + t, WriteLine(f, event, write))
  {
    hide J.Faithful, J.Fits, J.Joined, J.Lines, J.Terminated, LinesShow;
    if write == NothingWritten {
      assert s + t == s;
    } else if f.open {
      var body, ps :| s == body + J.Joined(c, ps) && J.Fits(c, ps)
        && LinesShow(c, J.Lines(body), f.entries[..|f.entries| - 1]) && J.Terminated(body);
      PiecesExist(c, ps);
      WriteToPieces(c, body, f.entries[..|f.entries| - 1], ps, event, write, t);
      Associate(body, J.Joined(c, ps), t);
    } else {
      WriteToPieces(c, s, f.entries, [], event, write, t);
      NoPieces(c, t);
    }
  }

  /** An event, how far its line was written, and the characters of it that reached the file. */
  datatype Attempt = Attempt(event: Event, write: Write, text: string)

  function TextOf(ws: seq<Attempt>): string {
    if ws == [] then "" else TextOf(ws[..|ws| - 1]) + ws[|ws| - 1].text
  }

  function FileOf(ws: seq<Attempt>): File {
    if ws == [] then File([], false) else WriteLine(FileOf(ws[..|ws| - 1]), ws[|ws| - 1].event, ws[|ws| - 1].write)
  }

  /** After any writes, each cut short anywhere or whole, the text of a new journal is what the model says of it. */
  lemma {:induction false} WritesShow(c: J.Codec<Event>, ws: seq<Attempt>)
    requires J.Faithful(c) && forall i :: 0 <= i < |ws| ==> Writes(c, ws[i].event, ws[i].write, ws[i].text)
    ensures Shows(c, TextOf(ws), FileOf(ws))
  {
    hide J.Faithful, Shows, Writes, WriteLine;
    if ws == [] {
      ShowsNothing(c);
    } else {
      var w := ws[|ws| - 1];
      WritesShow(c, ws[..|ws| - 1]);
      WriteShows(c, TextOf(ws[..|ws| - 1]), FileOf(ws[..|ws| - 1]), w.event, w.write, w.text);
    }
  }

  lemma PiecesExist(c: J.Codec<Event>, ps: seq<J.Piece<Event>>)
    requires J.Fits(c, ps)
    ensures ps != []
  {
  }

  lemma NoPieces(c: J.Codec<Event>, t: string)
    ensures J.Joined(c, []) + t == t
  {
  }

  // ---- The journal and its clients ----

  datatype OpenError = InvalidMaximum | FileExists

  datatype Failure = CampaignLimit | JournalFailed | ProviderFailed

  lemma Take(s: State, steps: seq<Step>, t: State, step: Step) returns (longer: seq<Step>, next: State)
    requires After(s, steps) == Some(t) && Enabled(t, step)
    ensures next == Apply(t, step) && After(s, longer) == Some(next)
  {
    longer, next := steps + [step], Apply(t, step);
    assert longer[..|steps|] == steps;
  }

  lemma ReserveEffect(s: State, thread: nat)
    requires PhaseOf(s, thread).Idle?
    ensures var t := Apply(s, Reserve(thread));
      && t.maximum == s.maximum && t.events == s.events && t.file == s.file
      && t.count == (if s.count >= s.maximum then s.count else s.count + 1)
      && PhaseOf(t, thread) == (if s.count >= s.maximum then PhaseOf(s, thread) else Numbered(s.count + 1))
  {
  }

  lemma RecordStartEffect(s: State, thread: nat, write: Write)
    requires PhaseOf(s, thread).Numbered?
    ensures var t, event := Apply(s, RecordStart(thread, write)), Started(PhaseOf(s, thread).call);
      && t.maximum == s.maximum && t.count == s.count && t.file == WriteLine(s.file, event, write)
      && t.events == (if write == Written then s.events + [event] else s.events)
      && PhaseOf(t, thread) == (if write == Written then Ready(event.call) else Idle)
  {
  }

  /** The steps of starting a call: reserving an identity and, when there is one left, recording it. */
  lemma StartSteps(s: State, thread: nat, write: Write) returns (steps: seq<Step>, t: State)
    requires PhaseOf(s, thread).Idle?
    ensures After(s, steps) == Some(t) && t.maximum == s.maximum && Invocations(t.log) == Invocations(s.log)
    ensures s.count >= s.maximum ==>
      t.count == s.count && t.events == s.events && t.file == s.file && PhaseOf(t, thread) == PhaseOf(s, thread)
    ensures s.count < s.maximum ==>
      var event := Started(s.count + 1);
      && t.count == s.count + 1 && t.file == WriteLine(s.file, event, write)
      && t.events == (if write == Written then s.events + [event] else s.events)
      && PhaseOf(t, thread) == (if write == Written then Ready(s.count + 1) else Idle)
  {
    assert After(s, []) == Some(s);
    hide After, WriteLine, Apply, Invocations, InvokedCalls;
    ReserveEffect(s, thread);
    LogGrows(s, Reserve(thread));
    steps, t := Take(s, [], s, Reserve(thread));
    if s.count < s.maximum {
      LogGrows(t, RecordStart(thread, write));
      RecordStartEffect(t, thread, write);
      steps, t := Take(s, steps, t, RecordStart(thread, write));
    }
  }

  class Journal {
    const maximum: nat
    var count: nat
    var events: seq<Event>
    var file: File

    constructor (maximum: nat)
      ensures Matches(Initial(maximum))
    {
      this.maximum := maximum;
      count, events, file := 0, [], File([], false);
    }

    ghost predicate Matches(s: State)
      reads this
    {
      s.maximum == maximum && s.count == count && s.events == events && s.file == file
    }

    /** A journal is created for a sensible maximum and never over an existing file. */
    static method Open(maximum: int, exists_: bool) returns (r: Result<Journal, OpenError>)
      ensures r.Ok? <==> 1 <= maximum <= 100000 && !exists_
      ensures r.Ok? ==> fresh(r.value) && r.value.Matches(Initial(maximum))
    {
      if !(1 <= maximum <= 100000) {
        return Err(InvalidMaximum);
      }
      if exists_ {
        return Err(FileExists);
      }
      var journal := new Journal(maximum);
      return Ok(journal);
    }

    method Record(event: Event, write: Write) returns (ok: bool)
      modifies this`file, this`events
      ensures ok <==> write == Written
      ensures file == WriteLine(old(file), event, write)
      ensures events == if ok then old(events) + [event] else old(events)
    {
      file := WriteLine(file, event, write);
      if write != Written {
        return false;
      }
      events := events + [event];
      return true;
    }

    /** Hands out the next identity and records it before returning it. */
    method Start(write: Write, ghost thread: nat, ghost s: State)
      returns (r: Result<nat, Failure>, ghost steps: seq<Step>, ghost t: State)
      requires Matches(s) && PhaseOf(s, thread).Idle?
      modifies this
      ensures After(s, steps) == Some(t) && Matches(t)
      ensures r == if old(count) >= maximum then Err(CampaignLimit)
                   else if write == Written then Ok(old(count) + 1) else Err(JournalFailed)
      ensures count == if old(count) >= maximum then old(count) else old(count) + 1
      ensures PhaseOf(t, thread) == if r.Ok? then Ready(r.value) else Idle
      ensures file == if r == Err(CampaignLimit) then old(file) else WriteLine(old(file), Started(count), write)
      ensures events == if r.Ok? then old(events) + [Started(r.value)] else old(events)
      ensures Invocations(t.log) == Invocations(s.log)
    {
      hide After, WriteLine, Apply, Invocations, PhaseOf, Enabled;
      steps, t := StartSteps(s, thread, write);
      if count >= maximum {
        r := Err(CampaignLimit);
      } else {
        count := count + 1;
        var identity := count;
        var ok := Record(Started(identity), write);
        r := if ok then Ok(identity) else Err(JournalFailed);
      }
    }

    /** One recorded call of the model. The model is invoked only after its start is recorded, and every
        invocation is followed by an attempt to record how it ended. */
    method Complete(start: Write, answered: bool, finish: Write, ghost thread: nat, ghost s: State)
      returns (r: Result<nat, Failure>, invoked: bool, ghost steps: seq<Step>, ghost t: State)
      requires Matches(s) && PhaseOf(s, thread).Idle?
      modifies this
      ensures After(s, steps) == Some(t) && Matches(t) && PhaseOf(t, thread).Idle?
      ensures invoked <==> old(count) < maximum && start == Written
      ensures count == if old(count) >= maximum then old(count) else old(count) + 1
      ensures r == if old(count) >= maximum then Err(CampaignLimit)
                   else if start != Written || finish != Written then Err(JournalFailed)
                   else if !answered then Err(ProviderFailed) else Ok(old(count) + 1)
      ensures Invocations(t.log) == Invocations(s.log) + if invoked then 1 else 0
      ensures !invoked ==> events == old(events)
      ensures !invoked && old(count) >= maximum ==> file == old(file)
      ensures !invoked && old(count) < maximum ==> file == WriteLine(old(file), Started(count), start)
      ensures invoked ==>
        var ending := Ended(count, if answered then ResponseReceived else Unconfirmed);
        && file == WriteLine(WriteLine(old(file), Started(count), Written), ending, finish)
        && events == old(events) + (if finish == Written then [Started(count), ending] else [Started(count)])
    {
      hide After, WriteLine, Invocations, InvokedCalls;
      r, steps, t := Start(start, thread, s);
      invoked := false;
      if r.Err? {
        return;
      }
      var identity := r.value;
      invoked := true;
      LogGrows(t, Invoke(thread));
      steps, t := Take(s, steps, t, Invoke(thread));
      var ending := if answered then ResponseReceived else Unconfirmed;
      LogGrows(t, RecordEnd(thread, ending, finish));
      steps, t := Take(s, steps, t, RecordEnd(thread, ending, finish));
      var ok := Record(Ended(identity, ending), finish);
      if !ok {
        r := Err(JournalFailed);
      } else if !answered {
        r := Err(ProviderFailed);
      }
    }
  }
}
