/** Judging every sample by every metric over many runs: markers before each paid call, checkpoint files after
    it, and runs that may stop anywhere. One run at a time holds the lock of the evaluation contract. */
module JudgeScoring {
  import opened Support
  import opened LogFiles

  const METRICS := 5

  /** A sample, by its id, and one of its metrics. */
  datatype Pair = Pair(sample: nat, metric: nat)

  /** A sample id is stored in a record, but the file and the marker are named by the content of the sample. */
  type Naming = nat -> nat

  datatype Slot = Slot(file: nat, metric: nat)

  datatype Record = Record(sample: nat, metric: nat, ok: bool)

  type Log = File<Record>

  datatype Flags = Flags(retryErrors: bool, retryUnknown: bool, force: bool)

  /** Where the work on a pair stands in a run; a pair that is not listed has not been started. */
  datatype Phase = Marked | Called | Judged(ok: bool) | Recorded | Finished | Broken

  datatype Stage = Loading | Clearing | Scoring

  datatype Run = Run(
    flags: Flags, samples: set<nat>, stage: Stage, loaded: map<nat, seq<Record>>, unknown: set<Slot>,
    tasks: map<Pair, Phase>)

  datatype Launched = Launched(flags: Flags, samples: set<nat>)

  datatype State = State(
    files: map<nat, Log>, markers: set<Slot>, calls: map<Pair, nat>, history: seq<Launched>, run: Option<Run>)

  datatype Step =
    | Launch(flags: Flags, samples: set<nat>)
    | Load(sample: nat)
    | FindMarkers
    | ClearMarker(slot: Slot)
    | Begin
    | Start(pair: Pair)
    | Call(pair: Pair)
    | Judge(pair: Pair, ok: bool)
    | Append(pair: Pair)
    | CutAppend(pair: Pair, cut: Cut)
    | Unmark(pair: Pair)
    | Stop

  const INITIAL := State(map[], {}, map[], [], None)

  // ---- What is stored ----

  function SlotOf(name: Naming, p: Pair): Slot {
    Slot(name(p.sample), p.metric)
  }

  function FileAt(s: State, file: nat): Log {
    if file in s.files then s.files[file] else File([], Clean)
  }

  function CallsOf(s: State, p: Pair): nat {
    if p in s.calls then s.calls[p] else 0
  }

  /** The pairs of a metric in the order of a dictionary: a stored sample keeps the place of its first record
      and has the verdict of its last. */
  function Entries(records: seq<Record>, metric: nat): seq<Record> {
    if records == [] then []
    else
      var front, last := Entries(records[..|records| - 1], metric), records[|records| - 1];
      if last.metric != metric then front else Put(front, last)
  }

  function Put(entries: seq<Record>, r: Record): seq<Record> {
    if entries == [] then [r]
    else if entries[0].sample == r.sample then [r] + entries[1..]
    else [entries[0]] + Put(entries[1..], r)
  }

  /** The verdict that a run finds for a metric: whatever id it was stored under, the last entry wins. */
  function Verdict(records: seq<Record>, metric: nat): Option<bool> {
    var entries := Entries(records, metric);
    if entries == [] then None else Some(entries[|entries| - 1].ok)
  }

  function Stored(name: Naming, s: State, p: Pair): Option<bool> {
    Verdict(FileAt(s, name(p.sample)).records, p.metric)
  }

  /** The verdict that no later append can take along. */
  function Durable(name: Naming, s: State, p: Pair): Option<bool> {
    Verdict(Secured(FileAt(s, name(p.sample))), p.metric)
  }

  // ---- Steps ----

  predicate InStage(s: State, stage: Stage) {
    s.run.Some? && s.run.value.stage == stage
  }

  predicate InPhase(s: State, p: Pair, phase: Phase) {
    InStage(s, Scoring) && p in s.run.value.tasks && s.run.value.tasks[p] == phase
  }

  predicate Enabled(name: Naming, s: State, step: Step) {
    match step
    case Launch(_, _) => s.run.None?
    case Load(sample) => InStage(s, Loading) && sample in s.run.value.samples && sample !in s.run.value.loaded
    case FindMarkers => InStage(s, Loading) && s.run.value.samples <= s.run.value.loaded.Keys
    case ClearMarker(slot) => InStage(s, Clearing) && slot in s.run.value.unknown
    case Begin => InStage(s, Clearing) && s.run.value.unknown == {}
    case Start(p) => InStage(s, Scoring) && p.sample in s.run.value.samples * s.run.value.loaded.Keys
                     && p.metric < METRICS && p !in s.run.value.tasks
    case Call(p) => InPhase(s, p, Marked)
    case Judge(p, ok) => InPhase(s, p, Called) || (!ok && InPhase(s, p, Marked))
    case Append(p) => InPhase(s, p, Judged(true)) || InPhase(s, p, Judged(false))
    case CutAppend(p, _) => InPhase(s, p, Judged(true)) || InPhase(s, p, Judged(false))
    case Unmark(p) => InPhase(s, p, Recorded)
    case Stop => s.run.Some?
  }

  function SetPhase(s: State, p: Pair, phase: Phase): State
    requires s.run.Some?
  {
    s.(run := Some(s.run.value.(tasks := s.run.value.tasks[p := phase])))
  }

  function Write(name: Naming, s: State, p: Pair, phase: Phase, file: Log): State
    requires s.run.Some?
  {
    SetPhase(s, p, phase).(files := s.files[name(p.sample) := file])
  }

  function UnknownMarkers(name: Naming, s: State, samples: set<nat>): set<Slot> {
    set slot | slot in s.markers && exists i :: i in samples && name(i) == slot.file
  }

  predicate Skips(run: Run, p: Pair)
    requires p.sample in run.loaded
  {
    var previous := Verdict(run.loaded[p.sample], p.metric);
    !run.flags.force && previous.Some? && (previous.value || !run.flags.retryErrors)
  }

  function Apply(name: Naming, s: State, step: Step): State
    requires Enabled(name, s, step)
  {
    match step
    case Launch(flags, samples) =>
      s.(history := s.history + [Launched(flags, samples)], run := Some(Run(flags, samples, Loading, map[], {}, map[])))
    case Load(sample) =>
      var file, run := FileAt(s, name(sample)), s.run.value;
      if file.tail == Corrupt || (file.tail == Torn && !run.flags.retryUnknown) then s.(run := None)
      else
        s.(files := if file.tail == Torn then s.files[name(sample) := Repaired(file)] else s.files,
           run := Some(run.(loaded := run.loaded[sample := file.records])))
    case FindMarkers =>
      var run := s.run.value;
      var unknown := UnknownMarkers(name, s, run.samples);
      if unknown != {} && !run.flags.retryUnknown then s.(run := None)
      else s.(run := Some(run.(stage := Clearing, unknown := unknown)))
    case ClearMarker(slot) =>
      var run := s.run.value;
      s.(markers := s.markers - {slot}, run := Some(run.(unknown := run.unknown - {slot})))
    case Begin => s.(run := Some(s.run.value.(stage := Scoring)))
    case Start(p) =>
      if Skips(s.run.value, p) then SetPhase(s, p, Finished)
      else SetPhase(s, p, Marked).(markers := s.markers + {SlotOf(name, p)})
    case Call(p) => SetPhase(s, p, Called).(calls := s.calls[p := CallsOf(s, p) + 1])
    case Judge(p, ok) => SetPhase(s, p, Judged(ok))
    case Append(p) =>
      var ok := s.run.value.tasks[p].ok;
      Write(name, s, p, if ok then Recorded else Finished,
            WithRecord(FileAt(s, name(p.sample)), Record(p.sample, p.metric, ok)))
    case CutAppend(p, cut) =>
      Write(name, s, p, Broken,
            WithPiece(FileAt(s, name(p.sample)), Record(p.sample, p.metric, s.run.value.tasks[p].ok), cut))
    case Unmark(p) => SetPhase(s, p, Finished).(markers := s.markers - {SlotOf(name, p)})
    case Stop => s.(run := None)
  }

  function After(name: Naming, s: State, steps: seq<Step>): Option<State> {
    if steps == [] then Some(s)
    else
      match After(name, s, steps[..|steps| - 1])
      case None => None
      case Some(t) =>
        if Enabled(name, t, steps[|steps| - 1]) then Some(Apply(name, t, steps[|steps| - 1])) else None
  }

  // ---- Verdicts ----

  ghost predicate Distinct(name: Naming) {
    forall i, j :: name(i) == name(j) ==> i == j
  }

  /** No other sample shares the file of this one. */
  ghost predicate Alone(name: Naming, sample: nat) {
    forall j :: name(j) == name(sample) ==> j == sample
  }

  /** Every record lies in the file that its sample names. */
  ghost predicate Filed(name: Naming, s: State) {
    forall f, k :: f in s.files && 0 <= k < |s.files[f].records| ==> name(s.files[f].records[k].sample) == f
  }

  predicate OnlyOf(records: seq<Record>, sample: nat) {
    forall k :: 0 <= k < |records| ==> records[k].sample == sample
  }

  lemma {:induction false} EntriesOfOne(records: seq<Record>, sample: nat, metric: nat)
    requires OnlyOf(records, sample)
    ensures |Entries(records, metric)| <= 1 && OnlyOf(Entries(records, metric), sample)
  {
    if records != [] {
      EntriesOfOne(records[..|records| - 1], sample, metric);
    }
  }

  /** A record of another metric leaves the verdict; a new record of a sample's own file is the new verdict. */
  lemma VerdictAfter(records: seq<Record>, r: Record, metric: nat)
    ensures r.metric != metric ==> Verdict(records + [r], metric) == Verdict(records, metric)
    ensures r.metric == metric && OnlyOf(records, r.sample) ==> Verdict(records + [r], metric) == Some(r.ok)
  {
    assert (records + [r])[..|records|] == records;
    if OnlyOf(records, r.sample) {
      EntriesOfOne(records, r.sample, metric);
    }
  }

  lemma StepFiled(name: Naming, s: State, step: Step)
    requires Filed(name, s) && Enabled(name, s, step)
    ensures Filed(name, Apply(name, s, step))
  {
  }

  // ---- What a run keeps, pair by pair ----

  predicate Authorises(f: Flags) {
    f.retryUnknown || f.force
  }

  /** How many of the runs on a sample an operator authorised to pay again. */
  function Authorised(history: seq<Launched>, sample: nat): nat {
    if history == [] then 0
    else
      var last := history[|history| - 1];
      Authorised(history[..|history| - 1], sample) + if sample in last.samples && Authorises(last.flags) then 1 else 0
  }

  /** What the files and the task say about a pair. */
  datatype View = View(
    marker: bool, stored: Option<bool>, durable: Option<bool>, corrupt: bool, calls: nat, authorised: nat,
    running: bool, selected: bool,
    stage: Stage, authorises: bool, force: bool, loaded: Option<Option<bool>>, unknown: bool, task: Option<Phase>)

  function ViewOf(name: Naming, s: State, p: Pair): View {
    var marker, file := SlotOf(name, p) in s.markers, FileAt(s, name(p.sample));
    var stored, durable := Verdict(file.records, p.metric), Verdict(Secured(file), p.metric);
    var calls, paid := CallsOf(s, p), Authorised(s.history, p.sample);
    match s.run
    case None =>
      View(marker, stored, durable, file.tail == Corrupt, calls, paid, false, false, Loading, false, false, None, false,
           None)
    case Some(r) =>
      View(marker, stored, durable, file.tail == Corrupt, calls, paid, true, p.sample in r.samples, r.stage,
           Authorises(r.flags), r.flags.force,
           if p.sample in r.loaded then Some(Verdict(r.loaded[p.sample], p.metric)) else None,
           SlotOf(name, p) in r.unknown, if p in r.tasks then Some(r.tasks[p]) else None)
  }

  /** Whether the files alone would let a run pay for the pair, now or after losing an unterminated record. */
  predicate Open(v: View) {
    !v.marker && !(v.stored == Some(true) && v.durable == Some(true))
  }

  /** Calls that may still be made before the next authorised run. */
  function Credit(v: View): nat {
    if !v.selected then One(Open(v) && !v.corrupt)
    else
      match v.task
      case None =>
        if v.authorises then 1
        else if v.loaded.None? then One(Open(v) && !v.corrupt)
        else One(Open(v) || (!v.marker && v.loaded.value != Some(true)))
      case Some(phase) =>
        match phase
        case Marked => 1
        case Finished => One(Open(v) && !v.corrupt)
        case _ => 0
  }

  /** Between the marker and the record of a pair. */
  predicate Unconfirmed(phase: Phase) {
    phase.Marked? || phase.Called? || phase.Judged? || phase.Broken?
  }

  predicate PairInv(v: View) {
    && v.calls + Credit(v) <= 1 + v.authorised
    && (v.loaded.Some? ==> v.selected)
    && (v.unknown ==> v.selected && v.authorises)
    && (v.selected && v.stage == Clearing && v.marker ==> v.unknown)
    && (v.selected && v.stage == Scoring && v.task.None? ==> !v.marker)
    && (v.task.Some? ==> v.selected && v.stage == Scoring)
    && (v.task.Some? && Unconfirmed(v.task.value) ==> v.marker)
    && (v.task == Some(Recorded) ==> (v.stored == Some(true) && v.durable == Some(true)) || v.corrupt)
  }

  lemma HistorySnoc(history: seq<Launched>, l: Launched, sample: nat)
    ensures Authorised(history + [l], sample)
         == Authorised(history, sample) + One(sample in l.samples && Authorises(l.flags))
  {
    assert (history + [l])[..|history|] == history;
  }

  lemma LaunchKeepsPair(name: Naming, s: State, p: Pair, step: Step)
    requires PairInv(ViewOf(name, s, p)) && Enabled(name, s, step) && step.Launch?
    ensures PairInv(ViewOf(name, Apply(name, s, step), p))
  {
    hide Authorised, Verdict, Authorises, Secured;
    HistorySnoc(s.history, Launched(step.flags, step.samples), p.sample);
  }

  lemma StopRuns(name: Naming, s: State)
    ensures Enabled(name, s, Stop) <==> s.run.Some?
    ensures s.run.Some? ==> Apply(name, s, Stop) == s.(run := None)
  {
  }

  lemma StopKeepsPair(name: Naming, s: State, p: Pair)
    requires PairInv(ViewOf(name, s, p)) && s.run.Some?
    ensures PairInv(ViewOf(name, s.(run := None), p)) && Enabled(name, s, Stop)
    ensures PairInv(ViewOf(name, Apply(name, s, Stop), p))
  {
    hide Authorised, Verdict, Authorises, Secured;
  }

  /** Repairing a torn tail takes back nothing that was loaded. */
  lemma RepairView(name: Naming, s: State, sample: nat, p: Pair)
    requires Alone(name, p.sample) && FileAt(s, name(sample)).tail == Torn && name(sample) in s.files
    ensures ViewOf(name, s.(files := s.files[name(sample) := Repaired(s.files[name(sample)])]), p) == ViewOf(name, s, p)
  {
    assert name(sample) == name(p.sample) ==> sample == p.sample;
    hide Authorised, Verdict, Authorises, Alone, SlotOf;
  }

  /** What a run finds in a file it can load. */
  lemma LoadedView(name: Naming, s: State, sample: nat, records: seq<Record>, p: Pair)
    requires s.run.Some?
    ensures ViewOf(name, s.(run := Some(s.run.value.(loaded := s.run.value.loaded[sample := records]))), p)
         == if sample == p.sample then ViewOf(name, s, p).(loaded := Some(Verdict(records, p.metric)))
           else ViewOf(name, s, p)
  {
    hide Authorised, Verdict, Authorises, Secured, SlotOf;
  }

  lemma LoadView(name: Naming, s: State, p: Pair, step: Step)
    requires Alone(name, p.sample) && Enabled(name, s, step) && step.Load? && Apply(name, s, step).run.Some?
    ensures var v, w := ViewOf(name, s, p), ViewOf(name, Apply(name, s, step), p);
      if step.sample == p.sample then w == v.(loaded := Some(v.stored)) && !v.corrupt && v.loaded.None? && v.selected
        && v.stage == Loading
      else w == v
  {
    var file := FileAt(s, name(step.sample));
    var t := if file.tail == Torn then s.(files := s.files[name(step.sample) := Repaired(file)]) else s;
    assert Apply(name, s, step)
         == t.(run := Some(t.run.value.(loaded := t.run.value.loaded[step.sample := file.records])));
    hide Apply, Verdict, Alone, Secured, Authorised;
    if file.tail == Torn {
      RepairView(name, s, step.sample, p);
    }
    LoadedView(name, t, step.sample, file.records, p);
  }

  lemma LoadKeepsPair(name: Naming, s: State, p: Pair, step: Step)
    requires Alone(name, p.sample) && PairInv(ViewOf(name, s, p)) && Enabled(name, s, step) && step.Load?
    ensures PairInv(ViewOf(name, Apply(name, s, step), p))
  {
    if Apply(name, s, step).run.None? {
      StopKeepsPair(name, s, p);
      assert Apply(name, s, step) == s.(run := None);
      hide Apply, ViewOf;
    } else {
      LoadView(name, s, p, step);
      hide Apply, ViewOf, Enabled, Alone;
    }
  }

  lemma FindKeepsPair(name: Naming, s: State, p: Pair, step: Step)
    requires Alone(name, p.sample) && PairInv(ViewOf(name, s, p)) && Enabled(name, s, step) && step.FindMarkers?
    ensures PairInv(ViewOf(name, Apply(name, s, step), p))
  {
    hide Authorised, Verdict;
    var r := s.run.value;
    var unknown := UnknownMarkers(name, s, r.samples);
    if unknown != {} && !r.flags.retryUnknown {
      StopKeepsPair(name, s, p);
    } else {
      assert SlotOf(name, p) in unknown <==> SlotOf(name, p) in s.markers && p.sample in r.samples;
      assert unknown != {} ==> Authorises(r.flags);
      hide UnknownMarkers, Authorises;
    }
  }

  lemma ClearKeepsPair(name: Naming, s: State, p: Pair, step: Step)
    requires PairInv(ViewOf(name, s, p)) && Enabled(name, s, step) && (step.ClearMarker? || step.Begin?)
    ensures PairInv(ViewOf(name, Apply(name, s, step), p))
  {
    hide Authorised, Verdict, Authorises, Secured;
  }

  lemma StartKeepsPair(name: Naming, s: State, p: Pair)
    requires PairInv(ViewOf(name, s, p)) && Enabled(name, s, Start(p))
    ensures PairInv(ViewOf(name, Apply(name, s, Start(p)), p))
  {
    hide Authorised, Verdict, Secured;
  }

  lemma OwnTaskKeepsPair(name: Naming, s: State, p: Pair, step: Step)
    requires PairInv(ViewOf(name, s, p)) && Enabled(name, s, step)
    requires step.Start? || step.Call? || step.Judge? || step.Unmark?
    requires step.pair == p
    ensures PairInv(ViewOf(name, Apply(name, s, step), p))
  {
    hide Authorised, Verdict, Secured, Authorises, Skips;
    if step.Start? {
      StartKeepsPair(name, s, p);
      hide *;
    }
  }

  lemma OwnWriteView(name: Naming, s: State, p: Pair, phase: Phase, file: Log)
    requires s.run.Some?
    ensures ViewOf(name, Write(name, s, p, phase, file), p)
         == ViewOf(name, s, p).(corrupt := file.tail == Corrupt, stored := Verdict(file.records, p.metric),
                                durable := Verdict(Secured(file), p.metric), task := Some(phase))
  {
    hide Authorised, Verdict, Authorises, Secured;
  }

  lemma OtherWriteView(name: Naming, s: State, q: Pair, phase: Phase, file: Log, p: Pair)
    requires Alone(name, p.sample) && s.run.Some? && p != q
    ensures ViewOf(name, Write(name, s, q, phase, file), p)
         == if q.sample == p.sample
            then ViewOf(name, s, p).(corrupt := file.tail == Corrupt, stored := Verdict(file.records, p.metric),
                                     durable := Verdict(Secured(file), p.metric))
            else ViewOf(name, s, p)
  {
    hide Authorised, Verdict, Authorises, Secured;
  }

  /** The file that an append of either kind leaves: what was secured stays, what was loaded stays or falls back to
      what was secured, and a full append is both or leaves a file that cannot be loaded. */
  lemma WrittenFile(f: Log, r: Record, metric: nat, g: Log)
    requires g == WithRecord(f, r) || exists cut :: g == WithPiece(f, r, cut)
    ensures f.tail == Corrupt ==> g.tail == Corrupt
    ensures r.metric != metric ==> Verdict(Secured(g), metric) == Verdict(Secured(f), metric)
    ensures r.metric != metric ==>
      Verdict(g.records, metric) == Verdict(f.records, metric)
        || Verdict(g.records, metric) == Verdict(Secured(f), metric)
    ensures r.metric == metric && OnlyOf(f.records, r.sample) && g == WithRecord(f, r) ==>
      g.tail == Corrupt || (Verdict(g.records, metric) == Some(r.ok) && Verdict(Secured(g), metric) == Some(r.ok))
  {
    VerdictAfter(f.records, r, metric);
    assert (f.records + [r])[..|f.records|] == f.records;
    hide Verdict, OnlyOf;
  }

  function Written(name: Naming, s: State, step: Step): Log
    requires Enabled(name, s, step) && (step.Append? || step.CutAppend?)
  {
    var f := FileAt(s, name(step.pair.sample));
    var r := Record(step.pair.sample, step.pair.metric, s.run.value.tasks[step.pair].ok);
    if step.Append? then WithRecord(f, r) else WithPiece(f, r, step.cut)
  }

  function PhaseWritten(step: Step, ok: bool): Phase {
    if step.CutAppend? then Broken else if ok then Recorded else Finished
  }

  lemma AppendIsWrite(name: Naming, s: State, step: Step)
    requires Enabled(name, s, step) && (step.Append? || step.CutAppend?)
    ensures s.run.Some? && step.pair in s.run.value.tasks && s.run.value.tasks[step.pair].Judged?
    ensures Apply(name, s, step)
         == Write(name, s, step.pair, PhaseWritten(step, s.run.value.tasks[step.pair].ok), Written(name, s, step))
    ensures var r := Record(step.pair.sample, step.pair.metric, s.run.value.tasks[step.pair].ok);
      var f, g := FileAt(s, name(step.pair.sample)), Written(name, s, step);
      && (g == WithRecord(f, r) || exists cut :: g == WithPiece(f, r, cut))
      && (step.Append? ==> g == WithRecord(f, r))
  {
    hide Write, WithRecord, WithPiece, FileAt;
  }

  lemma OwnAppendView(name: Naming, s: State, p: Pair, step: Step)
    requires Alone(name, p.sample) && Filed(name, s) && Enabled(name, s, step)
    requires step.Append? || step.CutAppend?
    requires step.pair == p
    ensures var v, w := ViewOf(name, s, p), ViewOf(name, Apply(name, s, step), p);
      var task := s.run.value.tasks[p];
      && v.task == Some(task) && task.Judged?
      && w == v.(corrupt := w.corrupt, stored := w.stored, durable := w.durable, task := w.task)
      && (v.corrupt ==> w.corrupt)
      && (w.corrupt || (w.stored == Some(task.ok) && w.durable == Some(task.ok)) || step.CutAppend?)
      && w.task == Some(if step.CutAppend? then Broken else if task.ok then Recorded else Finished)
  {
    var f := FileAt(s, name(p.sample));
    assert OnlyOf(f.records, p.sample);
    hide Verdict, OnlyOf, Filed, Alone, Write, WithRecord, WithPiece, Apply, Enabled, Written, Secured;
    AppendIsWrite(name, s, step);
    var r := Record(p.sample, p.metric, s.run.value.tasks[p].ok);
    var g := Written(name, s, step);
    OwnWriteView(name, s, p, PhaseWritten(step, r.ok), g);
    WrittenFile(f, r, p.metric, g);
  }

  lemma OwnAppendKeepsPair(name: Naming, s: State, p: Pair, step: Step)
    requires Alone(name, p.sample) && Filed(name, s) && PairInv(ViewOf(name, s, p)) && Enabled(name, s, step)
    requires step.Append? || step.CutAppend?
    requires step.pair == p
    ensures PairInv(ViewOf(name, Apply(name, s, step), p))
  {
    OwnAppendView(name, s, p, step);
    var v, w := ViewOf(name, s, p), ViewOf(name, Apply(name, s, step), p);
    JudgedPair(v, w, s.run.value.tasks[p].ok, step.CutAppend?);
    hide *;
  }

  lemma JudgedPair(v: View, w: View, ok: bool, cut: bool)
    requires PairInv(v) && v.task == Some(Judged(ok))
    requires w == v.(corrupt := w.corrupt, stored := w.stored, durable := w.durable, task := w.task)
    requires v.corrupt ==> w.corrupt
    requires w.corrupt || (w.stored == Some(ok) && w.durable == Some(ok)) || cut
    requires w.task == Some(if cut then Broken else if ok then Recorded else Finished)
    ensures PairInv(w)
  {
  }

  lemma OtherPhaseView(name: Naming, s: State, q: Pair, phase: Phase, markers: set<Slot>, calls: map<Pair, nat>,
      p: Pair)
    requires s.run.Some? && p != q
    requires SlotOf(name, p) in markers <==> SlotOf(name, p) in s.markers
    requires (if p in calls then calls[p] else 0) == CallsOf(s, p)
    ensures ViewOf(name, SetPhase(s, q, phase).(markers := markers, calls := calls), p) == ViewOf(name, s, p)
  {
    hide Authorised, Verdict, Authorises, SlotOf, Secured;
  }

  lemma OtherSlot(name: Naming, p: Pair, q: Pair)
    requires Alone(name, p.sample) && p != q
    ensures SlotOf(name, p) != SlotOf(name, q)
  {
    assert name(p.sample) == name(q.sample) ==> p.sample == q.sample;
  }

  lemma OtherTaskView(name: Naming, s: State, p: Pair, step: Step)
    requires Alone(name, p.sample) && Enabled(name, s, step)
    requires step.Start? || step.Call? || step.Judge? || step.Unmark?
    requires step.pair != p
    ensures ViewOf(name, Apply(name, s, step), p) == ViewOf(name, s, p)
  {
    OtherSlot(name, p, step.pair);
    hide ViewOf, SlotOf, Alone, Skips;
    var t := Apply(name, s, step);
    var phase := t.run.value.tasks[step.pair];
    assert t == SetPhase(s, step.pair, phase).(markers := t.markers, calls := t.calls);
    OtherPhaseView(name, s, step.pair, phase, t.markers, t.calls, p);
  }

  /** What an append of another pair can do: make the file unreadable, or take back an unterminated record. */
  predicate Sideways(v: View, w: View) {
    w == v.(corrupt := w.corrupt, stored := w.stored) && (v.corrupt ==> w.corrupt)
    && (w.stored == v.stored || w.stored == v.durable)
  }

  lemma ViewOfFile(name: Naming, s: State, p: Pair)
    ensures var v, file := ViewOf(name, s, p), FileAt(s, name(p.sample));
      && v.stored == Verdict(file.records, p.metric) && v.durable == Verdict(Secured(file), p.metric)
      && v.corrupt == (file.tail == Corrupt)
  {
  }

  lemma SidewaysOf(v: View, w: View)
    requires w == v.(corrupt := w.corrupt, stored := w.stored, durable := w.durable)
    requires (v.corrupt ==> w.corrupt) && w.durable == v.durable && (w.stored == v.stored || w.stored == v.durable)
    ensures Sideways(v, w)
  {
  }

  lemma OtherAppendView(name: Naming, s: State, p: Pair, step: Step)
    requires Alone(name, p.sample) && Enabled(name, s, step)
    requires step.Append? || step.CutAppend?
    requires step.pair != p
    ensures Sideways(ViewOf(name, s, p), ViewOf(name, Apply(name, s, step), p))
  {
    hide *;
    var o := step.pair;
    AppendIsWrite(name, s, step);
    var r := Record(o.sample, o.metric, s.run.value.tasks[o].ok);
    var g := Written(name, s, step);
    WrittenFile(FileAt(s, name(o.sample)), r, p.metric, g);
    OtherWriteView(name, s, o, PhaseWritten(step, r.ok), g, p);
    ViewOfFile(name, s, p);
    SidewaysOf(ViewOf(name, s, p), ViewOf(name, Apply(name, s, step), p));
  }

  lemma SidewaysKeepsPair(v: View, w: View)
    requires PairInv(v) && Sideways(v, w)
    ensures PairInv(w)
  {
  }

  lemma StepKeepsPair(name: Naming, s: State, p: Pair, step: Step)
    requires Alone(name, p.sample) && Filed(name, s) && PairInv(ViewOf(name, s, p)) && Enabled(name, s, step)
    ensures PairInv(ViewOf(name, Apply(name, s, step), p))
  {
    hide PairInv, ViewOf, Alone, Filed, Enabled, Apply;
    match step
    case Launch(_, _) => LaunchKeepsPair(name, s, p, step);
    case Load(_) => LoadKeepsPair(name, s, p, step);
    case FindMarkers => FindKeepsPair(name, s, p, step);
    case ClearMarker(_) | Begin => ClearKeepsPair(name, s, p, step);
    case Stop =>
      assert Enabled(name, s, Stop) ==> s.run.Some? by { StopRuns(name, s); }
      StopKeepsPair(name, s, p);
    case Append(_) | CutAppend(_, _) =>
      if step.pair == p {
        OwnAppendKeepsPair(name, s, p, step);
      } else {
        OtherAppendView(name, s, p, step);
        SidewaysKeepsPair(ViewOf(name, s, p), ViewOf(name, Apply(name, s, step), p));
      }
    case _ =>
      if step.pair == p {
        OwnTaskKeepsPair(name, s, p, step);
      } else {
        OtherTaskView(name, s, p, step);
      }
  }

  lemma InitialPair(name: Naming, p: Pair)
    ensures Filed(name, INITIAL) && PairInv(ViewOf(name, INITIAL, p))
  {
  }

  lemma {:induction false} RunsKeepPair(name: Naming, steps: seq<Step>, p: Pair)
    requires Alone(name, p.sample) && After(name, INITIAL, steps).Some?
    ensures Filed(name, After(name, INITIAL, steps).value)
      && PairInv(ViewOf(name, After(name, INITIAL, steps).value, p))
  {
    hide PairInv, ViewOf, Alone, Filed, Enabled, Apply;
    if steps == [] {
      InitialPair(name, p);
    } else {
      var front, last := steps[..|steps| - 1], steps[|steps| - 1];
      var s := After(name, INITIAL, front).value;
      RunsKeepPair(name, front, p);
      StepFiled(name, s, last);
      StepKeepsPair(name, s, p, last);
    }
  }

  // ---- Over all sequences of runs ----

  /** How often the judge is called for a pair. */
  function CallsIn(steps: seq<Step>, p: Pair): nat {
    if steps == [] then 0 else CallsIn(steps[..|steps| - 1], p) + One(steps[|steps| - 1] == Call(p))
  }

  /** How many runs are launched on a sample with the permission to pay again. */
  function AuthorisedIn(steps: seq<Step>, sample: nat): nat {
    if steps == [] then 0
    else
      var last := steps[|steps| - 1];
      AuthorisedIn(steps[..|steps| - 1], sample)
      + One(last.Launch? && sample in last.samples && (last.flags.retryUnknown || last.flags.force))
  }

  function LastLaunch(steps: seq<Step>): Option<Step> {
    if steps == [] then None
    else if steps[|steps| - 1].Launch? then Some(steps[|steps| - 1])
    else LastLaunch(steps[..|steps| - 1])
  }

  lemma StepCounted(name: Naming, s: State, step: Step, p: Pair)
    requires Enabled(name, s, step)
    ensures var t := Apply(name, s, step);
      && CallsOf(t, p) == CallsOf(s, p) + One(step == Call(p))
      && Authorised(t.history, p.sample) == Authorised(s.history, p.sample)
        + One(step.Launch? && p.sample in step.samples && (step.flags.retryUnknown || step.flags.force))
      && (t.run.Some? && !step.Launch? ==>
            s.run.Some? && t.run.value.flags == s.run.value.flags && t.run.value.samples == s.run.value.samples)
      && (step.Launch? ==>
            t.run.Some? && t.run.value.flags == step.flags && t.run.value.samples == step.samples)
  {
    if step.Launch? {
      HistorySnoc(s.history, Launched(step.flags, step.samples), p.sample);
    }
    hide Authorised, UnknownMarkers, Verdict;
  }

  /** The counters of the state are those of the steps, and the run under way has what it was launched with. */
  lemma {:induction false} StepsCounted(name: Naming, from: State, steps: seq<Step>, p: Pair)
    requires After(name, from, steps).Some?
    ensures var t := After(name, from, steps).value;
      && CallsOf(t, p) == CallsOf(from, p) + CallsIn(steps, p)
      && Authorised(t.history, p.sample) == Authorised(from.history, p.sample) + AuthorisedIn(steps, p.sample)
      && (from.run.None? && t.run.Some? ==>
            LastLaunch(steps) == Some(Launch(t.run.value.flags, t.run.value.samples)))
  {
    if steps != [] {
      var front, last := steps[..|steps| - 1], steps[|steps| - 1];
      hide Apply, Enabled, Authorised, CallsOf;
      StepsCounted(name, from, front, p);
      StepCounted(name, After(name, from, front).value, last, p);
    }
  }

  /** A pair whose file no other sample shares is judged at most once beyond the runs on its sample that were allowed
      to pay again, wherever runs stopped and however their tasks interleaved. */
  lemma JudgedAtMostOnce(name: Naming, steps: seq<Step>, p: Pair)
    requires Alone(name, p.sample) && After(name, INITIAL, steps).Some?
    ensures CallsIn(steps, p) <= 1 + AuthorisedIn(steps, p.sample)
  {
    RunsKeepPair(name, steps, p);
    StepsCounted(name, INITIAL, steps, p);
    hide Authorised, Alone;
    NothingYet(p);
  }

  /** Between two runs a run with any flags on any samples may be launched, and a run may stop at any time. Neither
      changes a file or a marker, and nothing is paid. */
  lemma LaunchedAnywhere(name: Naming, s: State, flags: Flags, samples: set<nat>)
    requires s.run.None?
    ensures Enabled(name, s, Launch(flags, samples))
    ensures var t := Apply(name, s, Launch(flags, samples));
      t.files == s.files && t.markers == s.markers && t.calls == s.calls && InStage(t, Loading)
  {
  }

  lemma StoppedAnywhere(name: Naming, s: State)
    requires s.run.Some?
    ensures Enabled(name, s, Stop)
    ensures var t := Apply(name, s, Stop);
      t.files == s.files && t.markers == s.markers && t.calls == s.calls && t.run.None?
  {
  }

  lemma NothingYet(p: Pair)
    ensures CallsOf(INITIAL, p) == 0 && Authorised(INITIAL.history, p.sample) == 0
  {
  }

  /** A success is stored, a run that is under way is not forced and has found it, and the pair is not being judged. */
  predicate Found(v: View) {
    && v.stored == Some(true) && !v.force && (v.task.None? || v.task == Some(Finished))
    && (v.loaded.Some? ==> v.loaded.value == Some(true))
  }

  /** No later append of another pair can take the success along. */
  predicate Settled(v: View) {
    Found(v) && v.durable == Some(true)
  }

  /** The steps of a run that are not those of a single pair. */
  predicate OfRun(step: Step) {
    step.Launch? || step.Load? || step.FindMarkers? || step.ClearMarker? || step.Begin? || step.Stop?
  }

  /** The success is still found, in the same line, and was not paid for. */
  predicate StaysFound(v: View, w: View) {
    Found(w) && w.durable == v.durable && w.calls == v.calls
  }

  lemma LaunchKeepsFound(name: Naming, s: State, p: Pair, step: Step)
    requires Found(ViewOf(name, s, p)) && Enabled(name, s, step) && step.Launch? && !step.flags.force
    ensures StaysFound(ViewOf(name, s, p), ViewOf(name, Apply(name, s, step), p))
  {
    hide Authorised, Verdict, Authorises, Secured, SlotOf;
  }

  lemma StopKeepsFound(name: Naming, s: State, p: Pair)
    requires Found(ViewOf(name, s, p)) && s.run.Some?
    ensures StaysFound(ViewOf(name, s, p), ViewOf(name, s.(run := None), p))
  {
    hide Authorised, Verdict, Authorises, Secured, SlotOf;
  }

  lemma LoadKeepsFound(name: Naming, s: State, p: Pair, step: Step)
    requires Alone(name, p.sample) && Found(ViewOf(name, s, p)) && Enabled(name, s, step) && step.Load?
    ensures StaysFound(ViewOf(name, s, p), ViewOf(name, Apply(name, s, step), p))
  {
    if Apply(name, s, step).run.None? {
      assert Apply(name, s, step) == s.(run := None);
      hide Apply, ViewOf, Alone;
      StopKeepsFound(name, s, p);
    } else {
      LoadView(name, s, p, step);
      hide Apply, ViewOf, Alone, Enabled;
    }
  }

  lemma FindKeepsFound(name: Naming, s: State, p: Pair)
    requires Found(ViewOf(name, s, p)) && Enabled(name, s, FindMarkers)
    ensures StaysFound(ViewOf(name, s, p), ViewOf(name, Apply(name, s, FindMarkers), p))
  {
    hide Authorised, Verdict, Authorises, Secured, SlotOf, UnknownMarkers;
  }

  lemma ClearKeepsFound(name: Naming, s: State, p: Pair, step: Step)
    requires Found(ViewOf(name, s, p)) && Enabled(name, s, step) && (step.ClearMarker? || step.Begin?)
    ensures StaysFound(ViewOf(name, s, p), ViewOf(name, Apply(name, s, step), p))
  {
    hide Authorised, Verdict, Authorises, Secured, SlotOf;
  }

  lemma RunStepKeepsFound(name: Naming, s: State, p: Pair, step: Step)
    requires Alone(name, p.sample) && Found(ViewOf(name, s, p)) && Enabled(name, s, step) && OfRun(step)
    requires step.Launch? ==> !step.flags.force
    ensures StaysFound(ViewOf(name, s, p), ViewOf(name, Apply(name, s, step), p))
  {
    hide Found, ViewOf, Alone, Enabled, Apply, StaysFound;
    match step
    case Launch(_, _) => LaunchKeepsFound(name, s, p, step);
    case Load(_) => LoadKeepsFound(name, s, p, step);
    case FindMarkers => FindKeepsFound(name, s, p);
    case ClearMarker(_) | Begin => ClearKeepsFound(name, s, p, step);
    case Stop =>
      StopRuns(name, s);
      StopKeepsFound(name, s, p);
  }

  /** The only thing a run does with a pair it found is to skip it. */
  lemma OwnStepSkips(name: Naming, s: State, p: Pair, step: Step)
    requires Found(ViewOf(name, s, p)) && Enabled(name, s, step)
    requires step.Start? || step.Call? || step.Judge? || step.Unmark? || step.Append? || step.CutAppend?
    requires step.pair == p
    ensures step.Start? && StaysFound(ViewOf(name, s, p), ViewOf(name, Apply(name, s, step), p))
  {
    hide Authorised, Verdict, Authorises, Secured;
  }

  lemma CallsInView(name: Naming, s: State, p: Pair)
    ensures ViewOf(name, s, p).calls == CallsOf(s, p)
  {
  }

  lemma StepKeepsSettled(name: Naming, s: State, p: Pair, step: Step)
    requires Alone(name, p.sample) && Settled(ViewOf(name, s, p)) && Enabled(name, s, step)
    requires step.Launch? ==> !step.flags.force
    ensures Settled(ViewOf(name, Apply(name, s, step), p)) && CallsOf(Apply(name, s, step), p) == CallsOf(s, p)
  {
    CallsInView(name, s, p);
    CallsInView(name, Apply(name, s, step), p);
    hide Alone, Enabled, Apply, ViewOf, CallsOf;
    if OfRun(step) {
      RunStepKeepsFound(name, s, p, step);
    } else if step.pair == p {
      OwnStepSkips(name, s, p, step);
    } else if step.Append? || step.CutAppend? {
      OtherAppendView(name, s, p, step);
    } else {
      OtherTaskView(name, s, p, step);
    }
  }

  predicate Unforced(steps: seq<Step>) {
    forall i :: 0 <= i < |steps| && steps[i].Launch? ==> !steps[i].flags.force
  }

  /** A pair whose stored verdict is a success between two runs, in a line that is complete, is never judged again
      without a forced run. */
  lemma SuccessIsFinal(name: Naming, s: State, more: seq<Step>, p: Pair)
    requires Alone(name, p.sample) && s.run.None? && After(name, s, more).Some? && Unforced(more)
    requires Stored(name, s, p) == Some(true) && Durable(name, s, p) == Some(true)
    ensures CallsIn(more, p) == 0
  {
    hide *;
    StaysSettled(name, s, more, p);
    StepsCounted(name, s, more, p);
  }

  lemma {:induction false} StaysSettled(name: Naming, s: State, more: seq<Step>, p: Pair)
    requires Alone(name, p.sample) && s.run.None? && After(name, s, more).Some? && Unforced(more)
    requires Stored(name, s, p) == Some(true) && Durable(name, s, p) == Some(true)
    ensures var t := After(name, s, more).value; CallsOf(t, p) == CallsOf(s, p) && Settled(ViewOf(name, t, p))
    decreases |more|
  {
    if more == [] {
      FoundBetweenRuns(name, s, p);
      hide *;
    } else {
      hide Alone, Enabled, Apply, Stored, Durable, Authorised, Verdict, Secured, ViewOf, CallsOf;
      var front, last := more[..|more| - 1], more[|more| - 1];
      StaysSettled(name, s, front, p);
      StepKeepsSettled(name, After(name, s, front).value, p, last);
    }
  }

  lemma FoundBetweenRuns(name: Naming, s: State, p: Pair)
    requires s.run.None? && Stored(name, s, p) == Some(true)
    ensures Found(ViewOf(name, s, p)) && After(name, s, []) == Some(s)
    ensures Durable(name, s, p) == Some(true) ==> Settled(ViewOf(name, s, p))
  {
  }

  // ---- A sample that has every verdict ----

  /** Every metric of the sample is found, so nothing more will be appended to its file. */
  ghost predicate AllFound(name: Naming, s: State, sample: nat) {
    && (forall m: nat :: m < METRICS ==> Found(ViewOf(name, s, Pair(sample, m))))
    && (s.run.Some? ==> forall q :: q in s.run.value.tasks ==> q.metric < METRICS)
  }

  lemma StepKeepsBounds(name: Naming, s: State, step: Step)
    requires s.run.Some? ==> forall q :: q in s.run.value.tasks ==> q.metric < METRICS
    requires Enabled(name, s, step)
    ensures Apply(name, s, step).run.Some? ==> forall q :: q in Apply(name, s, step).run.value.tasks ==>
      q.metric < METRICS
    ensures !OfRun(step) ==> step.pair.metric < METRICS
  {
  }

  /** An append of a pair of another sample goes to another file. */
  lemma OtherFileView(name: Naming, s: State, p: Pair, step: Step)
    requires Alone(name, p.sample) && Enabled(name, s, step) && (step.Append? || step.CutAppend?)
    requires step.pair.sample != p.sample
    ensures ViewOf(name, Apply(name, s, step), p) == ViewOf(name, s, p)
  {
    hide *;
    AppendIsWrite(name, s, step);
    OtherWriteView(name, s, step.pair, PhaseWritten(step, s.run.value.tasks[step.pair].ok), Written(name, s, step), p);
  }

  lemma StepKeepsMetric(name: Naming, s: State, p: Pair, step: Step)
    requires Alone(name, p.sample) && AllFound(name, s, p.sample) && p.metric < METRICS && Enabled(name, s, step)
    requires step.Launch? ==> !step.flags.force
    ensures Found(ViewOf(name, Apply(name, s, step), p))
    ensures ViewOf(name, Apply(name, s, step), p).calls == ViewOf(name, s, p).calls
  {
    assert Found(ViewOf(name, s, p));
    StepKeepsBounds(name, s, step);
    if OfRun(step) {
      RunStepKeepsFound(name, s, p, step);
      hide *;
    } else if step.pair == p {
      OwnStepSkips(name, s, p, step);
      hide *;
    } else {
      if step.pair.sample == p.sample {
        assert Found(ViewOf(name, s, step.pair));
        OwnStepSkips(name, s, step.pair, step);
      }
      hide Alone, Enabled, Apply, ViewOf, AllFound;
      if step.Append? || step.CutAppend? {
        OtherFileView(name, s, p, step);
      } else {
        OtherTaskView(name, s, p, step);
      }
    }
  }

  /** A sample with a success stored for every metric is never judged again without a forced run, however its file
      ends. */
  lemma CompleteSampleIsFinal(name: Naming, s: State, more: seq<Step>, sample: nat)
    requires Alone(name, sample) && s.run.None? && After(name, s, more).Some? && Unforced(more)
    requires forall m: nat :: m < METRICS ==> Stored(name, s, Pair(sample, m)) == Some(true)
    ensures forall m: nat :: m < METRICS ==> CallsIn(more, Pair(sample, m)) == 0
  {
    hide *;
    StaysComplete(name, s, more, sample);
    forall m: nat | m < METRICS ensures CallsIn(more, Pair(sample, m)) == 0 {
      StepsCounted(name, s, more, Pair(sample, m));
    }
  }

  lemma {:induction false} StaysComplete(name: Naming, s: State, more: seq<Step>, sample: nat)
    requires Alone(name, sample) && s.run.None? && After(name, s, more).Some? && Unforced(more)
    requires forall m: nat :: m < METRICS ==> Stored(name, s, Pair(sample, m)) == Some(true)
    ensures var t := After(name, s, more).value;
      && AllFound(name, t, sample)
      && forall m: nat :: m < METRICS ==> CallsOf(t, Pair(sample, m)) == CallsOf(s, Pair(sample, m))
    decreases |more|
  {
    hide Alone, Enabled, Apply, Stored, ViewOf, CallsOf;
    if more == [] {
      forall m: nat | m < METRICS ensures Found(ViewOf(name, s, Pair(sample, m))) {
        FoundBetweenRuns(name, s, Pair(sample, m));
      }
      FoundBetweenRuns(name, s, Pair(sample, 0));
    } else {
      var front, last := more[..|more| - 1], more[|more| - 1];
      StaysComplete(name, s, front, sample);
      var u := After(name, s, front).value;
      StepKeepsBounds(name, u, last);
      forall m: nat | m < METRICS
        ensures Found(ViewOf(name, Apply(name, u, last), Pair(sample, m)))
        ensures CallsOf(Apply(name, u, last), Pair(sample, m)) == CallsOf(u, Pair(sample, m))
      {
        StepKeepsMetric(name, u, Pair(sample, m), last);
        CallsInView(name, u, Pair(sample, m));
        CallsInView(name, Apply(name, u, last), Pair(sample, m));
      }
    }
  }

  // ---- The order of the program ----

  lemma Take(name: Naming, from: State, steps: seq<Step>, t: State, step: Step) returns (longer: seq<Step>, next: State)
    requires After(name, from, steps) == Some(t) && Enabled(name, t, step)
    ensures longer == steps + [step] && next == Apply(name, t, step) && After(name, from, longer) == Some(next)
  {
    longer, next := steps + [step], Apply(name, t, step);
    assert longer[..|steps|] == steps;
  }

  /** The metrics of a sample are started in their order, and none after one that failed and kept its marker. */
  predicate Orderly(name: Naming, s: State, step: Step) {
    step.Start? ==> forall m: nat :: m < step.pair.metric ==>
      InPhase(s, Pair(step.pair.sample, m), Finished) && SlotOf(name, Pair(step.pair.sample, m)) !in s.markers
  }

  ghost predicate OrderlyAt(name: Naming, s: State, steps: seq<Step>, i: nat)
    requires i < |steps|
  {
    After(name, s, steps[..i]).Some? ==> Orderly(name, After(name, s, steps[..i]).value, steps[i])
  }

  /** Steps in the order in which the program takes the metrics of a sample. */
  ghost predicate InOrder(name: Naming, s: State, steps: seq<Step>) {
    forall i :: 0 <= i < |steps| ==> OrderlyAt(name, s, steps, i)
  }

  /** The same in runs that are not forced. */
  ghost predicate Proper(name: Naming, s: State, steps: seq<Step>) {
    Unforced(steps) && InOrder(name, s, steps)
  }

  lemma NoSteps(name: Naming, s: State)
    ensures After(name, s, []) == Some(s) && Proper(name, s, [])
  {
  }

  lemma ProperSnoc(name: Naming, from: State, steps: seq<Step>, t: State, step: Step)
    requires After(name, from, steps) == Some(t) && Proper(name, from, steps)
    requires Orderly(name, t, step) && (step.Launch? ==> !step.flags.force)
    ensures Proper(name, from, steps + [step])
  {
    hide After, Orderly;
    var longer := steps + [step];
    forall i | 0 <= i < |longer| ensures OrderlyAt(name, from, longer, i) {
      if i < |steps| {
        assert longer[..i] == steps[..i];
        assert OrderlyAt(name, from, steps, i);
      } else {
        assert longer[..i] == steps;
      }
    }
  }

  lemma TakeProper(name: Naming, from: State, steps: seq<Step>, t: State, step: Step)
    returns (longer: seq<Step>, next: State)
    requires After(name, from, steps) == Some(t) && Proper(name, from, steps) && Enabled(name, t, step)
    requires Orderly(name, t, step) && (step.Launch? ==> !step.flags.force)
    ensures next == Apply(name, t, step) && After(name, from, longer) == Some(next) && Proper(name, from, longer)
  {
    longer, next := Take(name, from, steps, t, step);
    ProperSnoc(name, from, steps, t, step);
  }

  /** The work on a sample has taken its first metrics, and none of them failed. */
  ghost predicate Walked(name: Naming, s: State, sample: nat, done: nat) {
    && InStage(s, Scoring) && sample in s.run.value.samples * s.run.value.loaded.Keys
    && (forall m: nat :: m < done ==> InPhase(s, Pair(sample, m), Finished))
    && (forall m: nat :: m >= done ==> Pair(sample, m) !in s.run.value.tasks)
    && (forall slot :: slot in s.markers ==> slot.file != name(sample))
  }

  lemma WalkedOrderly(name: Naming, s: State, p: Pair)
    requires Walked(name, s, p.sample, p.metric)
    ensures Orderly(name, s, Start(p))
  {
  }

  lemma WalkedLoads(name: Naming, s: State, sample: nat, done: nat)
    requires Walked(name, s, sample, done)
    ensures InStage(s, Scoring) && sample in s.run.value.loaded
  {
  }

  lemma CanStart(name: Naming, s: State, p: Pair)
    requires p.metric < METRICS && Walked(name, s, p.sample, p.metric)
    ensures Enabled(name, s, Start(p)) && Orderly(name, s, Start(p))
    ensures Apply(name, s, Start(p)) ==
      if Skips(s.run.value, p) then SetPhase(s, p, Finished)
      else SetPhase(s, p, Marked).(markers := s.markers + {SlotOf(name, p)})
  {
    WalkedOrderly(name, s, p);
    hide Orderly, Skips, SlotOf;
  }

  lemma CanCall(name: Naming, s: State, p: Pair)
    requires InPhase(s, p, Marked)
    ensures Enabled(name, s, Call(p)) && Orderly(name, s, Call(p))
    ensures Apply(name, s, Call(p)) == SetPhase(s, p, Called).(calls := s.calls[p := CallsOf(s, p) + 1])
  {
  }

  lemma CanJudge(name: Naming, s: State, p: Pair, ok: bool)
    requires InPhase(s, p, Called)
    ensures Enabled(name, s, Judge(p, ok)) && Orderly(name, s, Judge(p, ok))
    ensures Apply(name, s, Judge(p, ok)) == SetPhase(s, p, Judged(ok))
  {
  }

  lemma CanAppend(name: Naming, s: State, p: Pair, ok: bool)
    requires InPhase(s, p, Judged(ok))
    ensures Enabled(name, s, Append(p)) && Orderly(name, s, Append(p))
    ensures Apply(name, s, Append(p)) == Write(name, s, p, if ok then Recorded else Finished,
        WithRecord(FileAt(s, name(p.sample)), Record(p.sample, p.metric, ok)))
  {
  }

  lemma CanUnmark(name: Naming, s: State, p: Pair)
    requires InPhase(s, p, Recorded)
    ensures Enabled(name, s, Unmark(p)) && Orderly(name, s, Unmark(p))
    ensures Apply(name, s, Unmark(p)) == SetPhase(s, p, Finished).(markers := s.markers - {SlotOf(name, p)})
  {
  }

  lemma SkipMetric(name: Naming, from: State, steps: seq<Step>, s: State, p: Pair)
    returns (longer: seq<Step>, t: State)
    requires After(name, from, steps) == Some(s) && Proper(name, from, steps)
    requires p.metric < METRICS && Walked(name, s, p.sample, p.metric) && Skips(s.run.value, p)
    ensures After(name, from, longer) == Some(t) && Proper(name, from, longer)
    ensures t == s.(run := Some(s.run.value.(tasks := s.run.value.tasks[p := Finished])))
    ensures Walked(name, t, p.sample, p.metric + 1)
  {
    CanStart(name, s, p);
    hide After, Proper, Skips, Enabled, Orderly, Apply;
    longer, t := TakeProper(name, from, steps, s, Start(p));
  }

  lemma CallMetric(name: Naming, from: State, steps: seq<Step>, s: State, p: Pair)
    returns (longer: seq<Step>, t: State)
    requires After(name, from, steps) == Some(s) && Proper(name, from, steps)
    requires p.metric < METRICS && Walked(name, s, p.sample, p.metric) && !Skips(s.run.value, p)
    ensures After(name, from, longer) == Some(t) && Proper(name, from, longer)
    ensures t == s.(markers := s.markers + {SlotOf(name, p)}, calls := s.calls[p := CallsOf(s, p) + 1],
                    run := Some(s.run.value.(tasks := s.run.value.tasks[p := Called])))
  {
    WalkedLoads(name, s, p.sample, p.metric);
    CanStart(name, s, p);
    hide After, Proper, Skips, SlotOf, Walked, Enabled, Orderly, Apply;
    longer, t := TakeProper(name, from, steps, s, Start(p));
    CanCall(name, t, p);
    longer, t := TakeProper(name, from, longer, t, Call(p));
    assert s.run.value.tasks[p := Marked][p := Called] == s.run.value.tasks[p := Called];
  }

  /** A verdict is stored; a success also gives up its marker. */
  lemma StoreMetric(name: Naming, from: State, steps: seq<Step>, s: State, p: Pair)
    returns (longer: seq<Step>, t: State)
    requires After(name, from, steps) == Some(s) && Proper(name, from, steps) && InPhase(s, p, Called)
    requires FileAt(s, name(p.sample)).tail == Clean
    ensures After(name, from, longer) == Some(t) && Proper(name, from, longer)
    ensures var file := File(FileAt(s, name(p.sample)).records + [Record(p.sample, p.metric, true)], Clean);
      t == s.(markers := s.markers - {SlotOf(name, p)}, files := s.files[name(p.sample) := file],
              run := Some(s.run.value.(tasks := s.run.value.tasks[p := Finished])))
  {
    hide After, Proper, SlotOf, Enabled, Orderly, Apply;
    CanJudge(name, s, p, true);
    longer, t := TakeProper(name, from, steps, s, Judge(p, true));
    CanAppend(name, t, p, true);
    longer, t := TakeProper(name, from, longer, t, Append(p));
    CanUnmark(name, t, p);
    longer, t := TakeProper(name, from, longer, t, Unmark(p));
    assert t.run.value.tasks == s.run.value.tasks[p := Finished];
  }

  lemma JudgeMetric(name: Naming, from: State, steps: seq<Step>, s: State, p: Pair)
    returns (longer: seq<Step>, t: State)
    requires After(name, from, steps) == Some(s) && Proper(name, from, steps)
    requires p.metric < METRICS && Walked(name, s, p.sample, p.metric) && !Skips(s.run.value, p)
    requires FileAt(s, name(p.sample)).tail == Clean
    ensures After(name, from, longer) == Some(t) && Proper(name, from, longer)
    ensures t.run == Some(s.run.value.(tasks := s.run.value.tasks[p := Finished]))
    ensures var records := FileAt(s, name(p.sample)).records;
      FileAt(t, name(p.sample)) == File(records + [Record(p.sample, p.metric, true)], Clean)
    ensures t.calls == s.calls[p := CallsOf(s, p) + 1] && t.history == s.history
    ensures Walked(name, t, p.sample, p.metric + 1)
  {
    hide After, Proper, Skips;
    longer, t := CallMetric(name, from, steps, s, p);
    longer, t := StoreMetric(name, from, longer, t, p);
    assert t.run.value.tasks == s.run.value.tasks[p := Finished];
  }

  /** The tasks of other samples are where they were. */
  predicate OthersAsBefore(s: State, t: State, sample: nat)
    requires s.run.Some? && t.run.Some?
  {
    forall q :: q in s.run.value.tasks.Keys + t.run.value.tasks.Keys && q.sample != sample ==>
      q in s.run.value.tasks && q in t.run.value.tasks && t.run.value.tasks[q] == s.run.value.tasks[q]
  }

  /** Only records of earlier metrics. */
  predicate Below(records: seq<Record>, metric: nat) {
    forall k :: 0 <= k < |records| ==> records[k].metric < metric
  }

  /** The metrics of a sample before a given one are skipped or judged a success, in their order. */
  lemma {:induction false} WalkTo(name: Naming, from: State, steps: seq<Step>, s: State, sample: nat, upTo: nat)
    returns (longer: seq<Step>, t: State)
    requires After(name, from, steps) == Some(s) && Proper(name, from, steps)
    requires upTo <= METRICS && Walked(name, s, sample, 0)
    requires FileAt(s, name(sample)).tail == Clean || forall m: nat :: m < upTo ==> Skips(s.run.value, Pair(sample, m))
    ensures After(name, from, longer) == Some(t) && Proper(name, from, longer) && Walked(name, t, sample, upTo)
    ensures t.run == Some(s.run.value.(tasks := t.run.value.tasks))
    ensures FileAt(s, name(sample)).tail == Clean ==> FileAt(t, name(sample)).tail == Clean
    ensures FileAt(s, name(sample)).tail != Clean ==> t.files == s.files && t.calls == s.calls
    ensures forall q: Pair :: q.metric >= upTo ==> CallsOf(t, q) == CallsOf(s, q)
    ensures OthersAsBefore(s, t, sample) && t.history == s.history
    ensures forall k :: k >= upTo && Below(FileAt(s, name(sample)).records, k) ==>
      Below(FileAt(t, name(sample)).records, k)
    decreases upTo
  {
    hide After, Proper, Skips, Walked;
    WalkedLoads(name, s, sample, 0);
    if upTo == 0 {
      longer, t := steps, s;
    } else {
      var p := Pair(sample, upTo - 1);
      longer, t := WalkTo(name, from, steps, s, sample, upTo - 1);
      SameSkips(s.run.value, t.run.value, sample);
      if Skips(t.run.value, p) {
        longer, t := SkipMetric(name, from, longer, t, p);
      } else {
        longer, t := JudgeMetric(name, from, longer, t, p);
      }
    }
  }

  lemma SameSkips(r: Run, q: Run, sample: nat)
    requires sample in r.loaded && q == r.(tasks := q.tasks)
    ensures forall m: nat :: Skips(q, Pair(sample, m)) <==> Skips(r, Pair(sample, m))
  {
  }

  // ---- Two samples under one name ----

  /** A run on two samples that finds no markers of theirs reaches the point where pairs are started. */
  lemma OpenRun(name: Naming, steps: seq<Step>, s: State, flags: Flags, i: nat, j: nat)
    returns (longer: seq<Step>, t: State)
    requires After(name, INITIAL, steps) == Some(s) && Proper(name, INITIAL, steps) && s.run.None? && !flags.force
    requires i != j && name(i) == name(j) && FileAt(s, name(i)).tail == Clean
    requires forall slot :: slot in s.markers ==> slot.file != name(i)
    ensures After(name, INITIAL, longer) == Some(t) && Proper(name, INITIAL, longer)
    ensures var records := FileAt(s, name(i)).records;
      t.run == Some(Run(flags, {i, j}, Scoring, map[i := records, j := records], {}, map[]))
    ensures t == s.(history := s.history + [Launched(flags, {i, j})], run := t.run)
    ensures Walked(name, t, i, 0) && Walked(name, t, j, 0)
  {
    hide After, Proper, UnknownMarkers;
    longer, t := TakeProper(name, INITIAL, steps, s, Launch(flags, {i, j}));
    longer, t := TakeProper(name, INITIAL, longer, t, Load(i));
    longer, t := TakeProper(name, INITIAL, longer, t, Load(j));
    assert t.run.value.loaded == map[i := FileAt(s, name(i)).records, j := FileAt(s, name(i)).records];
    NoUnknown(name, t, i, j);
    longer, t := TakeProper(name, INITIAL, longer, t, FindMarkers);
    longer, t := TakeProper(name, INITIAL, longer, t, Begin);
  }

  lemma NoUnknown(name: Naming, s: State, i: nat, j: nat)
    requires name(i) == name(j) && forall slot :: slot in s.markers ==> slot.file != name(i)
    ensures UnknownMarkers(name, s, {i, j}) == {}
  {
  }

  /** The earlier metrics of both samples are taken. */
  lemma WalkBoth(name: Naming, steps: seq<Step>, s: State, i: nat, j: nat, m: nat)
    returns (longer: seq<Step>, t: State)
    requires After(name, INITIAL, steps) == Some(s) && Proper(name, INITIAL, steps)
    requires i != j && name(i) == name(j) && m < METRICS && FileAt(s, name(i)).tail == Clean
    requires Walked(name, s, i, 0) && Walked(name, s, j, 0)
    ensures After(name, INITIAL, longer) == Some(t) && Proper(name, INITIAL, longer)
    ensures Walked(name, t, i, m) && Walked(name, t, j, m) && FileAt(t, name(i)).tail == Clean
    ensures t.run == Some(s.run.value.(tasks := t.run.value.tasks)) && t.history == s.history
    ensures CallsOf(t, Pair(i, m)) == CallsOf(s, Pair(i, m)) && CallsOf(t, Pair(j, m)) == CallsOf(s, Pair(j, m))
    ensures Below(FileAt(s, name(i)).records, m) ==> Below(FileAt(t, name(i)).records, m)
  {
    hide After, Proper, Walked, OthersAsBefore, Below;
    longer, t := WalkTo(name, INITIAL, steps, s, i, m);
    WalkedLoads(name, s, i, 0);
    OtherWalked(name, s, t, i, m, j, 0);
    var u: State;
    longer, u := WalkTo(name, INITIAL, longer, t, j, m);
    OtherWalked(name, t, u, j, m, i, m);
    t := u;
  }

  /** Walking through one sample leaves the place reached in another sample of the same name. */
  lemma OtherWalked(name: Naming, s: State, t: State, sample: nat, done: nat, other: nat, reached: nat)
    requires sample != other && name(sample) == name(other) && Walked(name, s, other, reached)
    requires Walked(name, t, sample, done) && t.run == Some(s.run.value.(tasks := t.run.value.tasks))
    requires OthersAsBefore(s, t, sample)
    ensures Walked(name, t, other, reached)
  {
  }

  /** Both samples are started, under one marker, and sent to the judge. */
  lemma CallBoth(name: Naming, steps: seq<Step>, s: State, a: Pair, b: Pair) returns (longer: seq<Step>, t: State)
    requires After(name, INITIAL, steps) == Some(s) && Proper(name, INITIAL, steps)
    requires a.sample != b.sample && name(a.sample) == name(b.sample) && a.metric == b.metric < METRICS
    requires Walked(name, s, a.sample, a.metric) && Walked(name, s, b.sample, b.metric)
    requires !Skips(s.run.value, a) && !Skips(s.run.value, b)
    ensures After(name, INITIAL, longer) == Some(t) && Proper(name, INITIAL, longer)
    ensures InPhase(t, a, Called) && InPhase(t, b, Called)
    ensures t.files == s.files && t.history == s.history && t.markers == s.markers + {SlotOf(name, a)}
    ensures CallsOf(t, b) == CallsOf(s, b) + 1
  {
    hide After, Proper, Skips;
    longer, t := TakeProper(name, INITIAL, steps, s, Start(a));
    SameSkips(s.run.value, t.run.value, b.sample);
    longer, t := TakeProper(name, INITIAL, longer, t, Start(b));
    hide Walked, Orderly, Enabled, Apply, SlotOf;
    CanCall(name, t, a);
    longer, t := TakeProper(name, INITIAL, longer, t, Call(a));
    CanCall(name, t, b);
    longer, t := TakeProper(name, INITIAL, longer, t, Call(b));
  }

  /** A failure is stored, and the run ends. */
  lemma FailMetric(name: Naming, steps: seq<Step>, s: State, p: Pair) returns (longer: seq<Step>, t: State)
    requires After(name, INITIAL, steps) == Some(s) && Proper(name, INITIAL, steps) && InPhase(s, p, Called)
    requires FileAt(s, name(p.sample)).tail == Clean
    ensures After(name, INITIAL, longer) == Some(t) && Proper(name, INITIAL, longer)
    ensures var file := File(FileAt(s, name(p.sample)).records + [Record(p.sample, p.metric, false)], Clean);
      t == s.(files := s.files[name(p.sample) := file], run := None)
  {
    hide After, Proper, Enabled, Orderly, Apply;
    CanJudge(name, s, p, false);
    longer, t := TakeProper(name, INITIAL, steps, s, Judge(p, false));
    CanAppend(name, t, p, false);
    longer, t := TakeProper(name, INITIAL, longer, t, Append(p));
    StopRuns(name, t);
    longer, t := TakeProper(name, INITIAL, longer, t, Stop);
  }

  /** A success is stored and removes the shared marker; then the other sample fails and the run ends. */
  lemma StoreBoth(name: Naming, steps: seq<Step>, s: State, a: Pair, b: Pair) returns (longer: seq<Step>, t: State)
    requires After(name, INITIAL, steps) == Some(s) && Proper(name, INITIAL, steps)
    requires a.sample != b.sample && name(a.sample) == name(b.sample) && a.metric == b.metric
    requires InPhase(s, a, Called) && InPhase(s, b, Called) && FileAt(s, name(a.sample)).tail == Clean
    ensures After(name, INITIAL, longer) == Some(t) && Proper(name, INITIAL, longer) && t.run.None?
    ensures FileAt(t, name(a.sample)) == File(FileAt(s, name(a.sample)).records
        + [Record(b.sample, b.metric, true)] + [Record(a.sample, a.metric, false)], Clean)
    ensures t.markers == s.markers - {SlotOf(name, a)} && t.calls == s.calls && t.history == s.history
  {
    hide After, Proper;
    longer, t := StoreMetric(name, INITIAL, steps, s, b);
    longer, t := FailMetric(name, longer, t, a);
  }

  /** After records of earlier metrics, a success of one sample and then a failure of the other. */
  lemma MixedVerdict(records: seq<Record>, ok: Record, bad: Record)
    requires Below(records, ok.metric) && ok.metric == bad.metric && ok.sample != bad.sample && !bad.ok
    ensures Verdict(records, ok.metric) == None && Verdict(records + [ok] + [bad], ok.metric) == Some(false)
  {
    NoEntries(records, ok.metric);
    assert (records + [ok])[..|records|] == records && (records + [ok] + [bad])[..|records| + 1] == records + [ok];
    assert Entries(records + [ok], ok.metric) == Put([], ok) == [ok];
    assert [ok][1..] == [];
    assert Put([ok], bad) == [ok] + Put([], bad) == [ok, bad];
    assert Entries(records + [ok] + [bad], ok.metric) == [ok, bad];
  }

  lemma {:induction false} NoEntries(records: seq<Record>, metric: nat)
    requires Below(records, metric)
    ensures Entries(records, metric) == []
  {
    if records != [] {
      NoEntries(records[..|records| - 1], metric);
    }
  }

  lemma NothingAuthorised(flags: Flags, more: Flags, samples: set<nat>, sample: nat)
    requires !Authorises(flags) && !Authorises(more)
    ensures Authorised([Launched(flags, samples), Launched(more, samples)], sample) == 0
  {
    HistorySnoc([], Launched(flags, samples), sample);
    HistorySnoc([Launched(flags, samples)], Launched(more, samples), sample);
    assert [Launched(flags, samples)] + [Launched(more, samples)]
         == [Launched(flags, samples), Launched(more, samples)];
  }

  /** A first run in which one sample succeeds and the other fails, and which leaves no marker. */
  lemma FirstRun(name: Naming, i: nat, j: nat, m: nat) returns (steps: seq<Step>, s: State)
    requires i != j && name(i) == name(j) && m < METRICS
    ensures After(name, INITIAL, steps) == Some(s) && Proper(name, INITIAL, steps) && s.run.None?
    ensures FileAt(s, name(i)).tail == Clean && Verdict(FileAt(s, name(i)).records, m) == Some(false)
    ensures forall slot :: slot in s.markers ==> slot.file != name(i)
    ensures CallsOf(s, Pair(j, m)) == 1 && s.history == [Launched(Flags(false, false, false), {i, j})]
  {
    var a, b := Pair(i, m), Pair(j, m);
    NoSteps(name, INITIAL);
    hide After, Proper, Verdict;
    steps, s := OpenRun(name, [], INITIAL, Flags(false, false, false), i, j);
    assert FileAt(s, name(i)).records == [] && Verdict([], m) == None by { NoEntries([], m); NothingStored(m); }
    steps, s := WalkBoth(name, steps, s, i, j, m);
    var records := FileAt(s, name(i)).records;
    MixedVerdict(records, Record(j, m, true), Record(i, m, false));
    steps, s := CallBoth(name, steps, s, a, b);
    steps, s := StoreBoth(name, steps, s, a, b);
  }

  lemma NothingStored(metric: nat)
    ensures Verdict([], metric) == None
  {
  }

  /** Two samples of one name: without any authorised run, and with the metrics taken in their order, a pair is paid
      twice, although its own last verdict was a success. */
  lemma SharedNamePaysTwice(name: Naming, i: nat, j: nat, m: nat) returns (steps: seq<Step>, s: State)
    requires i != j && name(i) == name(j) && m < METRICS
    ensures After(name, INITIAL, steps) == Some(s) && Proper(name, INITIAL, steps)
    ensures CallsIn(steps, Pair(j, m)) == 2 && AuthorisedIn(steps, j) == 0
  {
    var plain, again := Flags(false, false, false), Flags(true, false, false);
    steps, s := FirstRun(name, i, j, m);
    hide After, Proper, Authorised, Verdict, Walked;
    steps, s := OpenRun(name, steps, s, again, i, j);
    NothingAuthorised(plain, again, {i, j}, j);
    assert s.history == [Launched(plain, {i, j}), Launched(again, {i, j})];
    steps, s := WalkTo(name, INITIAL, steps, s, j, m);
    steps, s := CallMetric(name, INITIAL, steps, s, Pair(j, m));
    StepsCounted(name, INITIAL, steps, Pair(j, m));
    NothingYet(Pair(j, m));
  }

  /** In every run the pair is paid at most once beyond the authorised runs on its sample. */
  ghost predicate Bounded(name: Naming, p: Pair) {
    forall steps :: After(name, INITIAL, steps).Some? ==> WithinBound(steps, p)
  }

  predicate WithinBound(steps: seq<Step>, p: Pair) {
    CallsIn(steps, p) <= 1 + AuthorisedIn(steps, p.sample)
  }

  /** The same of the runs that take the metrics in their order. */
  ghost predicate BoundedInOrder(name: Naming, p: Pair) {
    forall steps :: After(name, INITIAL, steps).Some? && InOrder(name, INITIAL, steps) ==> WithinBound(steps, p)
  }

  lemma AloneIsBounded(name: Naming, p: Pair)
    requires Alone(name, p.sample)
    ensures Bounded(name, p) && BoundedInOrder(name, p)
  {
    hide After, AuthorisedIn, CallsIn, InOrder;
    forall steps | After(name, INITIAL, steps).Some? ensures WithinBound(steps, p) {
      JudgedAtMostOnce(name, steps, p);
    }
  }

  /** The bound holds for a pair, in every run, exactly when no other sample shares its file. It makes no difference
      whether the metrics of a sample interleave or are taken in their order. */
  lemma PairBoundIffAlone(name: Naming, p: Pair)
    requires p.metric < METRICS
    ensures Bounded(name, p) <==> Alone(name, p.sample)
    ensures BoundedInOrder(name, p) <==> Alone(name, p.sample)
  {
    hide After, AuthorisedIn, CallsIn, InOrder;
    if Alone(name, p.sample) {
      AloneIsBounded(name, p);
    } else {
      var i :| name(i) == name(p.sample) && i != p.sample;
      var steps, s := SharedNamePaysTwice(name, i, p.sample, p.metric);
      assert !WithinBound(steps, p);
    }
  }

  /** It holds for all pairs exactly when no two samples share a name. */
  lemma BoundIffDistinct(name: Naming)
    ensures Distinct(name) <==> forall p: Pair :: Bounded(name, p)
    ensures Distinct(name) <==> forall p: Pair :: BoundedInOrder(name, p)
  {
    hide Bounded, BoundedInOrder;
    if Distinct(name) {
      forall p: Pair ensures Bounded(name, p) && BoundedInOrder(name, p) {
        AloneIsBounded(name, p);
      }
    } else {
      var i, j :| name(i) == name(j) && i != j;
      assert !Alone(name, j);
      PairBoundIffAlone(name, Pair(j, 0));
    }
  }

  // ---- A success that can be lost ----

  /** A run that an operator allows to judge failures again and to clear markers, but that is not forced. */
  const AGAIN := Flags(true, true, false)

  lemma ClearAll(name: Naming, from: State, steps: seq<Step>, s: State) returns (longer: seq<Step>, t: State)
    requires After(name, from, steps) == Some(s) && Proper(name, from, steps) && InStage(s, Clearing)
    ensures After(name, from, longer) == Some(t) && Proper(name, from, longer)
    ensures t == s.(markers := s.markers - s.run.value.unknown, run := Some(s.run.value.(unknown := {})))
    decreases |s.run.value.unknown|
  {
    hide After, Proper;
    if s.run.value.unknown == {} {
      assert s.markers - {} == s.markers;
      longer, t := steps, s;
    } else {
      var slot :| slot in s.run.value.unknown;
      var u: State;
      longer, u := TakeProper(name, from, steps, s, ClearMarker(slot));
      longer, t := ClearAll(name, from, longer, u);
      assert s.markers - s.run.value.unknown == u.markers - u.run.value.unknown;
    }
  }

  /** A run on one sample clears its markers and reaches the point where pairs are started. */
  lemma OpenSingle(name: Naming, from: State, steps: seq<Step>, s: State, i: nat)
    returns (longer: seq<Step>, t: State)
    requires After(name, from, steps) == Some(s) && Proper(name, from, steps) && s.run.None?
    requires FileAt(s, name(i)).tail != Corrupt
    ensures After(name, from, longer) == Some(t) && Proper(name, from, longer)
    ensures t.run == Some(Run(AGAIN, {i}, Scoring, map[i := FileAt(s, name(i)).records], {}, map[]))
    ensures Walked(name, t, i, 0)
    ensures FileAt(t, name(i)) == Repaired(FileAt(s, name(i))) && t.calls == s.calls
  {
    hide After, Proper, UnknownMarkers;
    longer, t := TakeProper(name, from, steps, s, Launch(AGAIN, {i}));
    longer, t := TakeProper(name, from, longer, t, Load(i));
    assert t.run.value.loaded == map[i := FileAt(s, name(i)).records];
    SlotsOfSample(name, t, i);
    longer, t := TakeProper(name, from, longer, t, FindMarkers);
    longer, t := ClearAll(name, from, longer, t);
    longer, t := TakeProper(name, from, longer, t, Begin);
  }

  lemma SlotsOfSample(name: Naming, s: State, i: nat)
    ensures forall slot :: slot in s.markers - UnknownMarkers(name, s, {i}) ==> slot.file != name(i)
  {
    forall slot | slot in s.markers - UnknownMarkers(name, s, {i}) ensures slot.file != name(i) {
      assert i in {i};
    }
  }

  /** A pair of a run is judged and its record is cut off; then the run stops. */
  lemma JudgeAndCut(name: Naming, from: State, steps: seq<Step>, s: State, p: Pair, cut: Cut)
    returns (longer: seq<Step>, t: State)
    requires After(name, from, steps) == Some(s) && Proper(name, from, steps)
    requires p.metric < METRICS && Walked(name, s, p.sample, p.metric) && !Skips(s.run.value, p)
    ensures After(name, from, longer) == Some(t) && Proper(name, from, longer) && t.run.None?
    ensures t.calls == s.calls[p := CallsOf(s, p) + 1]
    ensures FileAt(t, name(p.sample)) == WithPiece(FileAt(s, name(p.sample)), Record(p.sample, p.metric, true), cut)
  {
    longer, t := CallMetric(name, from, steps, s, p);
    hide After, Proper, Skips, WithPiece;
    longer, t := TakeProper(name, from, longer, t, Judge(p, true));
    longer, t := TakeProper(name, from, longer, t, CutAppend(p, cut));
    longer, t := TakeProper(name, from, longer, t, Stop);
  }

  /** With these flags a run skips exactly the successes that it found. */
  lemma SkipsSuccess(r: Run, p: Pair)
    requires r.flags == AGAIN && p.sample in r.loaded
    ensures Skips(r, p) <==> Verdict(r.loaded[p.sample], p.metric) == Some(true)
  {
    hide Verdict;
  }

  /** The first metric of a sample for which no success is stored. */
  lemma FirstMissing(name: Naming, s: State, sample: nat, m: nat) returns (first: nat)
    requires Stored(name, s, Pair(sample, m)) != Some(true)
    ensures first <= m && Stored(name, s, Pair(sample, first)) != Some(true)
    ensures forall l: nat :: l < first ==> Stored(name, s, Pair(sample, l)) == Some(true)
  {
    hide Stored;
    first := 0;
    while Stored(name, s, Pair(sample, first)) == Some(true)
      invariant first <= m && forall l: nat :: l < first ==> Stored(name, s, Pair(sample, l)) == Some(true)
      decreases m - first
    {
      first := first + 1;
    }
  }

  /** The first run takes the success along: it skips the metrics before `first` and is cut off while it stores that
      one. */
  lemma TearAway(name: Naming, s: State, sample: nat, first: nat) returns (more: seq<Step>, t: State)
    requires s.run.None? && first < METRICS && FileAt(s, name(sample)).tail == NoNewline
    requires Stored(name, s, Pair(sample, first)) != Some(true)
    requires forall l: nat :: l < first ==> Stored(name, s, Pair(sample, l)) == Some(true)
    ensures After(name, s, more) == Some(t) && Proper(name, s, more) && t.run.None?
    ensures FileAt(t, name(sample)) == File(Secured(FileAt(s, name(sample))), Torn)
    ensures forall p: Pair :: p.metric != first ==> CallsOf(t, p) == CallsOf(s, p)
  {
    NoSteps(name, s);
    hide After, Proper, Verdict, Secured, Skips, Walked;
    var u: State;
    more, u := OpenSingle(name, s, [], s, sample);
    forall m: nat | m <= first ensures Skips(u.run.value, Pair(sample, m)) <==> m < first {
      SkipsSuccess(u.run.value, Pair(sample, m));
    }
    more, t := WalkTo(name, s, more, u, sample, first);
    SkipsSuccess(t.run.value, Pair(sample, first));
    more, t := JudgeAndCut(name, s, more, t, Pair(sample, first), InRecord);
  }

  /** The next run comes to the pair again and judges it. */
  lemma JudgeAgain(name: Naming, from: State, steps: seq<Step>, s: State, p: Pair) returns (more: seq<Step>, t: State)
    requires After(name, from, steps) == Some(s) && Proper(name, from, steps) && s.run.None? && p.metric < METRICS
    requires FileAt(s, name(p.sample)).tail == Torn && Stored(name, s, p) != Some(true)
    ensures After(name, from, more) == Some(t) && Proper(name, from, more) && CallsOf(t, p) == CallsOf(s, p) + 1
  {
    hide After, Proper, Verdict, Skips, Walked;
    more, t := OpenSingle(name, from, steps, s, p.sample);
    more, t := WalkTo(name, from, more, t, p.sample, p.metric);
    SkipsSuccess(t.run.value, p);
    more, t := CallMetric(name, from, more, t, p);
  }

  /** From any state between two runs in which a success is stored but can be lost, while another metric of the sample
      has none: two runs without force, which take the metrics in their order, judge the pair again. */
  lemma SuccessTornAway(name: Naming, s: State, p: Pair, other: Pair) returns (more: seq<Step>, t: State)
    requires s.run.None? && p.metric < METRICS && other.metric < METRICS
    requires other.sample == p.sample && other.metric != p.metric
    requires Stored(name, s, p) == Some(true) && Durable(name, s, p) != Some(true)
    requires Stored(name, s, other) != Some(true)
    ensures Proper(name, s, more) && After(name, s, more) == Some(t) && CallsIn(more, p) == 1
  {
    assert FileAt(s, name(p.sample)).tail == NoNewline;
    assert other == Pair(p.sample, other.metric);
    hide After, Proper, Verdict, Secured;
    var first := FirstMissing(name, s, p.sample, other.metric);
    assert p == Pair(p.sample, p.metric);
    var u: State;
    more, u := TearAway(name, s, p.sample, first);
    more, t := JudgeAgain(name, s, more, u, p);
    StepsCounted(name, s, more, p);
  }

  /** No continuation without a forced run calls the pair again. */
  ghost predicate Final(name: Naming, s: State, p: Pair) {
    forall more :: Unforced(more) && After(name, s, more).Some? ==> CallsIn(more, p) == 0
  }

  /** The same of the continuations that take the metrics in their order. */
  ghost predicate FinalInOrder(name: Naming, s: State, p: Pair) {
    forall more :: Proper(name, s, more) && After(name, s, more).Some? ==> CallsIn(more, p) == 0
  }

  lemma FinalForAll(name: Naming, s: State, p: Pair)
    requires Final(name, s, p)
    ensures FinalInOrder(name, s, p)
  {
    hide After, CallsIn;
  }

  ghost predicate OthersStored(name: Naming, s: State, p: Pair) {
    forall m: nat :: m < METRICS && m != p.metric ==> Stored(name, s, Pair(p.sample, m)) == Some(true)
  }

  /** A success stored between two runs is final if and only if no later append can take it along: because its record
      is not the one without a newline, or because every other metric of the sample has its success as well. It makes
      no difference whether the metrics of a sample interleave or are taken in their order. */
  lemma FinalIff(name: Naming, s: State, p: Pair)
    requires Alone(name, p.sample) && s.run.None? && p.metric < METRICS && Stored(name, s, p) == Some(true)
    ensures Final(name, s, p) <==> Durable(name, s, p) == Some(true) || OthersStored(name, s, p)
    ensures FinalInOrder(name, s, p) <==> Final(name, s, p)
  {
    hide Stored, Durable, After, CallsIn, Alone, FinalInOrder, Final;
    if Durable(name, s, p) == Some(true) || OthersStored(name, s, p) {
      SafeIsFinal(name, s, p);
      FinalForAll(name, s, p);
    } else {
      var m: nat :| m < METRICS && m != p.metric && Stored(name, s, Pair(p.sample, m)) != Some(true);
      var more, t := SuccessTornAway(name, s, p, Pair(p.sample, m));
      assert !FinalInOrder(name, s, p) by {
        hide *;
        NotFinal(name, s, p, more, t);
      }
      if Final(name, s, p) {
        FinalForAll(name, s, p);
      }
    }
  }

  lemma NotFinal(name: Naming, s: State, p: Pair, more: seq<Step>, t: State)
    requires Proper(name, s, more) && After(name, s, more) == Some(t) && CallsIn(more, p) == 1
    ensures !FinalInOrder(name, s, p)
  {
    hide After, CallsIn, Proper;
  }

  lemma SafeIsFinal(name: Naming, s: State, p: Pair)
    requires Alone(name, p.sample) && s.run.None? && p.metric < METRICS && Stored(name, s, p) == Some(true)
    requires Durable(name, s, p) == Some(true) || OthersStored(name, s, p)
    ensures Final(name, s, p)
  {
    hide Stored, Durable, After, Unforced, CallsIn, Alone;
    assert p == Pair(p.sample, p.metric);
    forall more | Unforced(more) && After(name, s, more).Some? ensures CallsIn(more, p) == 0 {
      if Durable(name, s, p) == Some(true) {
        SuccessIsFinal(name, s, more, p);
      } else {
        CompleteSampleIsFinal(name, s, more, p.sample);
      }
    }
  }

  lemma SingleVerdicts(i: nat)
    ensures Verdict([], 0) == None && Verdict([Record(i, 0, true)], 0) == Some(true)
      && Verdict([Record(i, 0, true)], 1) == None
  {
    var ok := Record(i, 0, true);
    assert [ok][..0] == [];
    assert Entries([ok], 0) == Put([], ok) == [ok];
    assert Entries([ok], 1) == [];
  }

  /** Such a state is reached by a first run that is stopped between a record and its newline. */
  lemma LostNewlineForgetsSuccess(name: Naming, i: nat)
    returns (steps: seq<Step>, s: State, more: seq<Step>, t: State)
    ensures Proper(name, INITIAL, steps) && After(name, INITIAL, steps) == Some(s) && s.run.None?
    ensures Stored(name, s, Pair(i, 0)) == Some(true) && Durable(name, s, Pair(i, 0)) == None
    ensures Proper(name, s, more) && After(name, s, more) == Some(t)
    ensures CallsIn(steps, Pair(i, 0)) == CallsIn(more, Pair(i, 0)) == 1
  {
    SingleVerdicts(i);
    NoSteps(name, INITIAL);
    hide After, Proper, Verdict, Walked, Skips;
    steps, s := OpenSingle(name, INITIAL, [], INITIAL, i);
    SkipsSuccess(s.run.value, Pair(i, 0));
    steps, s := JudgeAndCut(name, INITIAL, steps, s, Pair(i, 0), AtNewline);
    assert FileAt(s, name(i)).records == [Record(i, 0, true)];
    assert Secured(FileAt(s, name(i))) == [];
    StepsCounted(name, INITIAL, steps, Pair(i, 0));
    more, t := SuccessTornAway(name, s, Pair(i, 0), Pair(i, 1));
  }

  // ---- The work on the files ----

  datatype Scored = Skipped | Succeeded | Failing

  /** The files of the first n samples can all be loaded. */
  ghost predicate AllLoad(name: Naming, samples: seq<nat>, n: nat, retryUnknown: bool, files: map<nat, Log>) {
    forall i :: 0 <= i < n && i < |samples| && name(samples[i]) in files ==>
      files[name(samples[i])].tail != Corrupt && (files[name(samples[i])].tail == Torn ==> retryUnknown)
  }

  /** What was loaded for the first n samples is what their files held; a missing file holds nothing. */
  ghost predicate RecordsFrom(name: Naming, samples: seq<nat>, n: nat, files: map<nat, Log>,
      loaded: map<nat, seq<Record>>)
  {
    forall i :: 0 <= i < n && i < |samples| ==>
      samples[i] in loaded
      && loaded[samples[i]] == if name(samples[i]) in files then files[name(samples[i])].records else []
  }

  /** Of the files exactly those have changed that are torn and belong to one of the first n samples, with no file
      before it or at it that ends the run; they have lost their torn line and nothing else. */
  ghost predicate RepairedUpTo(name: Naming, samples: seq<nat>, n: nat, retryUnknown: bool, earlier: map<nat, Log>,
      later: map<nat, Log>)
  {
    && later.Keys == earlier.Keys
    && forall f :: f in earlier ==>
      later[f] == if earlier[f].tail == Torn && Reached(name, samples, n, retryUnknown, earlier, f)
                 then File(earlier[f].records, Clean) else earlier[f]
  }

  ghost predicate Reached(name: Naming, samples: seq<nat>, n: nat, retryUnknown: bool, files: map<nat, Log>, f: nat) {
    exists i ::
      0 <= i < n && i < |samples| && name(samples[i]) == f && AllLoad(name, samples, i + 1, retryUnknown, files)
  }

  lemma NothingLoaded(name: Naming, samples: seq<nat>, retryUnknown: bool, files: map<nat, Log>)
    ensures AllLoad(name, samples, 0, retryUnknown, files) && RecordsFrom(name, samples, 0, files, map[])
    ensures RepairedUpTo(name, samples, 0, retryUnknown, files, files)
  {
  }

  /** One more sample, whose file is read as the loading left it so far. */
  lemma LoadedNext(name: Naming, samples: seq<nat>, i: nat, retryUnknown: bool, earlier: map<nat, Log>,
      now: map<nat, Log>, done: map<nat, seq<Record>>)
    requires i < |samples| && forall j :: 0 <= j < i ==> samples[j] != samples[i]
    requires AllLoad(name, samples, i, retryUnknown, earlier) && RecordsFrom(name, samples, i, earlier, done)
    requires RepairedUpTo(name, samples, i, retryUnknown, earlier, now)
    ensures var slot := name(samples[i]);
      var file := if slot in now then now[slot] else File([], Clean);
      if file.tail == Corrupt || (file.tail == Torn && !retryUnknown) then
        !AllLoad(name, samples, |samples|, retryUnknown, earlier)
        && RepairedUpTo(name, samples, |samples|, retryUnknown, earlier, now)
      else
        && AllLoad(name, samples, i + 1, retryUnknown, earlier)
        && RecordsFrom(name, samples, i + 1, earlier, done[samples[i] := file.records])
        && RepairedUpTo(name, samples, i + 1, retryUnknown, earlier,
                        if file.tail == Torn then now[slot := Repaired(file)] else now)
  {
    var slot := name(samples[i]);
    var file := if slot in now then now[slot] else File([], Clean);
    if file.tail == Corrupt || (file.tail == Torn && !retryUnknown) {
      assert !AllLoad(name, samples, i + 1, retryUnknown, earlier);
      ReachedNoFurther(name, samples, i, retryUnknown, earlier);
    } else {
      assert AllLoad(name, samples, i + 1, retryUnknown, earlier);
      ReachedNext(name, samples, i, retryUnknown, earlier);
    }
    hide AllLoad, Reached;
  }

  lemma ReachedNext(name: Naming, samples: seq<nat>, i: nat, retryUnknown: bool, files: map<nat, Log>)
    requires i < |samples| && AllLoad(name, samples, i + 1, retryUnknown, files)
    ensures forall f :: Reached(name, samples, i + 1, retryUnknown, files, f) <==>
      f == name(samples[i]) || Reached(name, samples, i, retryUnknown, files, f)
  {
    hide AllLoad;
    assert Reached(name, samples, i + 1, retryUnknown, files, name(samples[i])) by {
      assert 0 <= i < i + 1 && name(samples[i]) == name(samples[i]);
    }
  }

  /** A file that ends the run is not passed. */
  lemma ReachedNoFurther(name: Naming, samples: seq<nat>, i: nat, retryUnknown: bool, files: map<nat, Log>)
    requires i < |samples| && !AllLoad(name, samples, i + 1, retryUnknown, files)
    ensures forall f :: Reached(name, samples, |samples|, retryUnknown, files, f) <==>
      Reached(name, samples, i, retryUnknown, files, f)
    ensures !AllLoad(name, samples, |samples|, retryUnknown, files)
  {
    AllLoadBefore(name, samples, i + 1, |samples|, retryUnknown, files);
    hide AllLoad;
    forall f | Reached(name, samples, |samples|, retryUnknown, files, f)
      ensures Reached(name, samples, i, retryUnknown, files, f)
    {
      var j :| 0 <= j < |samples| && name(samples[j]) == f && AllLoad(name, samples, j + 1, retryUnknown, files);
      AllLoadBefore(name, samples, i + 1, if j >= i then j + 1 else i + 1, retryUnknown, files);
      assert j < i && name(samples[j]) == f;
    }
  }

  lemma AllLoadBefore(name: Naming, samples: seq<nat>, n: nat, m: nat, retryUnknown: bool, files: map<nat, Log>)
    requires n <= m
    ensures AllLoad(name, samples, m, retryUnknown, files) ==> AllLoad(name, samples, n, retryUnknown, files)
  {
  }

  /** The checkpoint files and the markers, with the calls made. */
  class Files {
    var files: map<nat, Log>
    var markers: set<Slot>
    var calls: map<Pair, nat>

    constructor ()
      ensures Matches(INITIAL)
    {
      files, markers, calls := map[], {}, map[];
    }

    ghost predicate Matches(s: State)
      reads this
    {
      s.files == files && s.markers == markers && s.calls == calls
    }

    /** Loads the checkpoints of all samples, in their order, repairing torn ones if allowed. It ends the run exactly if
        one of them cannot be read, or is torn and may not be repaired; nothing after that one is touched. */
    method LoadCheckpoints(name: Naming, samples: seq<nat>, retryUnknown: bool, ghost from: State,
        ghost before: seq<Step>, ghost u: State)
      returns (loaded: Option<map<nat, seq<Record>>>, ghost steps: seq<Step>, ghost t: State)
      requires After(name, from, before) == Some(u) && Matches(u) && InStage(u, Loading)
      requires u.run.value.samples == (set i | i in samples) && u.run.value.loaded == map[]
      requires u.run.value.flags.retryUnknown == retryUnknown
      requires forall i, j :: 0 <= i < j < |samples| ==> samples[i] != samples[j]
      modifies this`files
      ensures After(name, from, steps) == Some(t) && Matches(t)
      ensures loaded.Some? ==>
        t.run == Some(u.run.value.(loaded := loaded.value)) && loaded.value.Keys == u.run.value.samples
      ensures loaded.None? ==> t.run.None?
      ensures loaded.Some? <==> AllLoad(name, samples, |samples|, retryUnknown, old(files))
      ensures loaded.Some? ==> RecordsFrom(name, samples, |samples|, old(files), loaded.value)
      ensures RepairedUpTo(name, samples, |samples|, retryUnknown, old(files), files)
    {
      hide After, AllLoad, RecordsFrom, RepairedUpTo;
      NothingLoaded(name, samples, retryUnknown, files);
      var done: map<nat, seq<Record>> := map[];
      steps, t := before, u;
      for i := 0 to |samples|
        invariant After(name, from, steps) == Some(t) && Matches(t)
        invariant t.run == Some(u.run.value.(loaded := done))
        invariant done.Keys == set j | 0 <= j < i :: samples[j]
        invariant AllLoad(name, samples, i, retryUnknown, old(files))
        invariant RecordsFrom(name, samples, i, old(files), done)
        invariant RepairedUpTo(name, samples, i, retryUnknown, old(files), files)
      {
        var slot := name(samples[i]);
        assert samples[i] in u.run.value.samples && samples[i] !in done;
        steps, t := Take(name, from, steps, t, Load(samples[i]));
        var file := if slot in files then files[slot] else File([], Clean);
        LoadedNext(name, samples, i, retryUnknown, old(files), files, done);
        if file.tail == Corrupt || (file.tail == Torn && !retryUnknown) {
          return None, steps, t;
        }
        if file.tail == Torn {
          files := files[slot := Repaired(file)];
        }
        done := done[samples[i] := file.records];
      }
      loaded := Some(done);
    }

    /** Refuses a run that finds a marker of its samples, or removes all of them. */
    method ClearUnknown(name: Naming, retryUnknown: bool, ghost from: State, ghost before: seq<Step>, ghost u: State,
        samples: set<nat>)
      returns (ok: bool, ghost steps: seq<Step>, ghost t: State)
      requires After(name, from, before) == Some(u) && Matches(u) && InStage(u, Loading)
      requires u.run.value.samples == samples && samples <= u.run.value.loaded.Keys && u.run.value.unknown == {}
      requires u.run.value.flags.retryUnknown == retryUnknown
      modifies this`markers
      ensures After(name, from, steps) == Some(t) && Matches(t)
      ensures ok <==> retryUnknown || UnknownMarkers(name, u, samples) == {}
      ensures markers == if ok then old(markers) - UnknownMarkers(name, u, samples) else old(markers)
      ensures t.run == if ok then Some(u.run.value.(stage := Scoring)) else None
    {
      var unknown := set slot | slot in markers && exists i :: i in samples && name(i) == slot.file;
      assert unknown == UnknownMarkers(name, u, samples);
      hide After, UnknownMarkers;
      steps, t := Take(name, from, before, u, FindMarkers);
      if unknown != {} && !retryUnknown {
        return false, steps, t;
      }
      var todo := unknown;
      while todo != {}
        invariant todo <= unknown && markers == old(markers) - (unknown - todo)
        invariant After(name, from, steps) == Some(t) && Matches(t)
        invariant t.run == Some(u.run.value.(stage := Clearing, unknown := todo))
        decreases |todo|
      {
        var slot :| slot in todo;
        steps, t := Take(name, from, steps, t, ClearMarker(slot));
        markers := markers - {slot};
        todo := todo - {slot};
      }
      steps, t := Take(name, from, steps, t, Begin);
      ok := true;
    }

    /** One pair: skipped, or marked, judged, recorded, and unmarked if it succeeded. */
    method ScorePair(name: Naming, p: Pair, flags: Flags, previous: Option<bool>, judged: bool, ghost from: State,
        ghost before: seq<Step>, ghost u: State)
      returns (r: Scored, ghost steps: seq<Step>, ghost t: State)
      requires After(name, from, before) == Some(u) && Matches(u) && Enabled(name, u, Start(p))
        && u.run.value.flags == flags
      requires previous == Verdict(u.run.value.loaded[p.sample], p.metric)
      modifies this
      ensures After(name, from, steps) == Some(t) && Matches(t)
      ensures t.run == Some(u.run.value.(tasks := u.run.value.tasks[p := Finished]))
      ensures r.Skipped? <==> !flags.force && previous.Some? && (previous.value || !flags.retryErrors)
      ensures r.Skipped? ==> files == old(files) && markers == old(markers) && calls == old(calls)
      ensures !r.Skipped? ==>
        && r == (if judged then Succeeded else Failing)
        && calls == old(calls)[p := (if p in old(calls) then old(calls)[p] else 0) + 1]
        && files == old(files)[name(p.sample) := WithRecord(FileAt(u, name(p.sample)),
            Record(p.sample, p.metric, judged))]
        && markers == (if judged then old(markers) - {SlotOf(name, p)} else old(markers) + {SlotOf(name, p)})
    {
      hide After, Verdict;
      steps, t := Take(name, from, before, u, Start(p));
      if !flags.force && previous.Some? && (previous.value || !flags.retryErrors) {
        return Skipped, steps, t;
      }
      markers := markers + {SlotOf(name, p)};
      assert t.run.value.tasks[p := Finished] == u.run.value.tasks[p := Finished];
      assert markers - {SlotOf(name, p)} == old(markers) - {SlotOf(name, p)};
      steps, t := JudgeMarked(name, p, judged, from, steps, t);
      r := if judged then Succeeded else Failing;
    }

    /** The judge is called and its verdict stored. */
    method JudgeMarked(name: Naming, p: Pair, judged: bool, ghost from: State, ghost before: seq<Step>, ghost u: State)
      returns (ghost steps: seq<Step>, ghost t: State)
      requires After(name, from, before) == Some(u) && Matches(u) && InPhase(u, p, Marked)
      modifies this
      ensures After(name, from, steps) == Some(t) && Matches(t)
      ensures t.run == Some(u.run.value.(tasks := u.run.value.tasks[p := Finished]))
      ensures calls == old(calls)[p := (if p in old(calls) then old(calls)[p] else 0) + 1]
      ensures files == old(files)[name(p.sample) := WithRecord(FileAt(u, name(p.sample)),
          Record(p.sample, p.metric, judged))]
      ensures markers == if judged then old(markers) - {SlotOf(name, p)} else old(markers)
    {
      hide After, WithRecord;
      steps, t := Take(name, from, before, u, Call(p));
      calls := calls[p := (if p in calls then calls[p] else 0) + 1];
      steps, t := Take(name, from, steps, t, Judge(p, judged));
      assert t.run.value.tasks[p := Finished] == u.run.value.tasks[p := Finished];
      steps, t := StoreVerdict(name, p, judged, from, steps, t);
    }

    /** The verdict is recorded before the marker is removed, and a failure keeps the marker. */
    method StoreVerdict(name: Naming, p: Pair, judged: bool, ghost from: State, ghost before: seq<Step>, ghost u: State)
      returns (ghost steps: seq<Step>, ghost t: State)
      requires After(name, from, before) == Some(u) && Matches(u) && InPhase(u, p, Judged(judged))
      modifies this`files, this`markers
      ensures After(name, from, steps) == Some(t) && Matches(t)
      ensures t.run == Some(u.run.value.(tasks := u.run.value.tasks[p := Finished]))
      ensures files == old(files)[name(p.sample) := WithRecord(FileAt(u, name(p.sample)),
          Record(p.sample, p.metric, judged))]
      ensures markers == if judged then old(markers) - {SlotOf(name, p)} else old(markers)
    {
      hide After, WithRecord;
      steps, t := Take(name, from, before, u, Append(p));
      var file := if name(p.sample) in files then files[name(p.sample)] else File([], Clean);
      files := files[name(p.sample) := WithRecord(file, Record(p.sample, p.metric, judged))];
      if judged {
        steps, t := Take(name, from, steps, t, Unmark(p));
        markers := markers - {SlotOf(name, p)};
        assert t.run.value.tasks == u.run.value.tasks[p := Finished];
      }
    }
  }
}
