/** The planner snapshot over any sequence of runs, each of which may be killed before any of its effects. */
module PlannerHistory {
  import opened Support
  import opened JsonLines
  import opened PlannerSnapshot
  import L = LogFiles

  const NOTHING := Files(map[], "", false)

  predicate Runnable(runs: seq<Run>) {
    forall i :: 0 <= i < |runs| ==> runs[i].concurrency >= 1
  }

  function AfterRuns(c: Codec<Attempt>, runs: seq<Run>): Files
    requires Runnable(runs)
  {
    if runs == [] then NOTHING else AfterRun(c, AfterRuns(c, runs[..|runs| - 1]), runs[|runs| - 1])
  }

  // ---- One batch and one run ----

  lemma BatchKeeps(c: Codec<Attempt>, f: Files, batch: seq<Row>, provider: nat -> Generated, lifetime: nat, cut: nat)
    requires Faithful(c) && Intact(c, f) && Keyed(f.plans)
    ensures var after := AfterBatch(c, f, batch, provider, lifetime, cut);
      && Keyed(after.plans) && Covered(after.plans, RecordsIn(c, after.ledger))
      && (lifetime != 2 || Terminated(after.ledger) ==> Intact(c, after))
  {
    BatchStaysIntact(c, f, batch, provider, lifetime, cut);
    ExtendedKeys(f.plans, batch, provider);
    hide Healthy, Covered, Faithful, LedgerText, RecordsIn, Terminated, Extended, Keyed;
  }

  lemma {:induction false} BatchesKeep(c: Codec<Attempt>, f: Files, missing: seq<Row>, from: nat, concurrency: nat,
      provider: nat -> Generated, lifetime: nat, cut: nat)
    requires Faithful(c) && Intact(c, f) && Keyed(f.plans) && concurrency >= 1
    ensures var after := AfterBatches(c, f, missing, from, concurrency, provider, lifetime, cut);
      && Keyed(after.plans) && Covered(after.plans, RecordsIn(c, after.ledger))
      && (Terminated(after.ledger) ==> Intact(c, after))
    decreases |missing| - from
  {
    hide Healthy, Faithful, RecordsIn, Terminated, Keyed, AfterBatch, AfterBatches, Covered;
    if from < |missing| {
      var next := if from + concurrency < |missing| then from + concurrency else |missing|;
      OneBatch(c, f, missing, from, next, concurrency, provider, lifetime, cut);
      BatchKeeps(c, f, missing[from..next], Shift(provider, from), lifetime, cut);
      if lifetime >= 5 {
        var after := AfterBatch(c, f, missing[from..next], Shift(provider, from), lifetime, cut);
        BatchesKeep(c, after, missing, next, concurrency, provider, lifetime - 5, cut);
      }
    } else {
      PastLastBatch(c, f, missing, from, concurrency, provider, lifetime, cut);
    }
  }

  lemma PastLastBatch(c: Codec<Attempt>, f: Files, missing: seq<Row>, from: nat, concurrency: nat,
      provider: nat -> Generated, lifetime: nat, cut: nat)
    requires concurrency >= 1 && from >= |missing|
    ensures AfterBatches(c, f, missing, from, concurrency, provider, lifetime, cut) == f
  {
  }

  /** From an intact store, every plan on disk has an attempt wherever a run stops, and the store is intact again
      unless the ledger is left without a newline at its end. */
  lemma RunKeeps(c: Codec<Attempt>, f: Files, run: Run)
    requires Faithful(c) && Intact(c, f) && Keyed(f.plans) && run.concurrency >= 1
    ensures var after := AfterRun(c, f, run);
      && Keyed(after.plans) && Covered(after.plans, RecordsIn(c, after.ledger))
      && (Terminated(after.ledger) ==> Intact(c, after))
  {
    RunCases(c, f, run);
    hide Healthy, Faithful, RecordsIn, Terminated, Keyed, Covered, AfterBatches, AfterRun;
    if !((f.marker && !run.retry) || run.lifetime == 0) {
      BatchesKeep(c, f.(marker := false), Missing(run.rows, f.plans), 0, run.concurrency, run.provider,
                  run.lifetime - 1, run.cut);
    }
  }

  // ---- What a run appends ----

  lemma BatchAppends(c: Codec<Attempt>, f: Files, batch: seq<Row>, provider: nat -> Generated, lifetime: nat, cut: nat)
    returns (attempts: seq<Attempt>, n: nat)
    ensures AfterBatch(c, f, batch, provider, lifetime, cut).ledger == f.ledger + PyTake(Render(c, attempts), n)
    ensures lifetime >= 5 ==> n == |Render(c, attempts)|
    ensures batch != [] && PyTake(Render(c, attempts), n) == "" ==>
      AfterBatch(c, f, batch, provider, lifetime, cut).plans == f.plans
  {
    attempts := Attempts(batch, provider);
    var text := Render(c, attempts);
    n := if lifetime < 2 then 0 else if lifetime == 2 then cut else |text|;
    if batch != [] {
      assert |Line(c, attempts[0])| > 0;
      assert text != "";
    }
  }

  lemma Together(c: Codec<Attempt>, ledger: string, a: seq<Attempt>, b: seq<Attempt>, n: nat)
    ensures ledger + Render(c, a) + PyTake(Render(c, b), n) == ledger + PyTake(Render(c, a + b), |Render(c, a)| + n)
  {
    RenderConcat(c, a, b);
    hide Render;
    var x, y := Render(c, a), Render(c, b);
    assert PyTake(x + y, |x| + n) == x + PyTake(y, n);
    Associate(ledger, x, PyTake(y, n));
  }

  lemma {:induction false} BatchesAppend(c: Codec<Attempt>, f: Files, missing: seq<Row>, from: nat, concurrency: nat,
      provider: nat -> Generated, lifetime: nat, cut: nat)
    returns (attempts: seq<Attempt>, n: nat)
    requires concurrency >= 1
    ensures var after := AfterBatches(c, f, missing, from, concurrency, provider, lifetime, cut);
      && after.ledger == f.ledger + PyTake(Render(c, attempts), n)
      && (after.ledger == f.ledger ==> after.plans == f.plans)
    decreases |missing| - from
  {
    hide Render, AfterBatch, AfterBatches, PyTake;
    if from < |missing| {
      var next := if from + concurrency < |missing| then from + concurrency else |missing|;
      var batch := missing[from..next];
      OneBatch(c, f, missing, from, next, concurrency, provider, lifetime, cut);
      attempts, n := BatchAppends(c, f, batch, Shift(provider, from), lifetime, cut);
      NothingAdded(f.ledger, PyTake(Render(c, attempts), n));
      if lifetime >= 5 {
        var after := AfterBatch(c, f, batch, Shift(provider, from), lifetime, cut);
        var more, m := BatchesAppend(c, after, missing, next, concurrency, provider, lifetime - 5, cut);
        TakeAll(Render(c, attempts));
        Together(c, f.ledger, attempts, more, m);
        GrowsBoth(f.ledger, Render(c, attempts), PyTake(Render(c, more), m));
        attempts, n := attempts + more, |Render(c, attempts)| + m;
      }
    } else {
      PastLastBatch(c, f, missing, from, concurrency, provider, lifetime, cut);
      attempts, n := [], 0;
      NothingRendered(c);
      NothingTaken(f.ledger, Render(c, []));
    }
  }

  lemma NothingAdded(s: string, t: string)
    ensures s + t == s <==> t == ""
  {
    assert |s + t| == |s| + |t|;
  }

  lemma TakeAll(s: string)
    ensures PyTake(s, |s|) == s
  {
  }

  lemma NothingTaken(s: string, t: string)
    ensures s + PyTake(t, 0) == s
  {
  }

  lemma GrowsBoth(s: string, t: string, u: string)
    ensures s + t + u == s <==> t == "" && u == ""
  {
    assert |s + t + u| == |s| + |t| + |u|;
  }

  /** A run appends the first characters of the attempts of some rows, and no plans without that. */
  lemma RunAppends(c: Codec<Attempt>, f: Files, run: Run) returns (attempts: seq<Attempt>, n: nat)
    requires run.concurrency >= 1
    ensures AfterRun(c, f, run).ledger == f.ledger + PyTake(Render(c, attempts), n)
    ensures AfterRun(c, f, run).ledger == f.ledger ==> AfterRun(c, f, run).plans == f.plans
  {
    RunCases(c, f, run);
    hide Render, AfterBatches, AfterRun, PyTake;
    if (f.marker && !run.retry) || run.lifetime == 0 {
      attempts, n := [], 0;
      NothingTaken(f.ledger, Render(c, []));
    } else {
      attempts, n := BatchesAppend(c, f.(marker := false), Missing(run.rows, f.plans), 0, run.concurrency, run.provider,
                                   run.lifetime - 1, run.cut);
    }
  }

  // ---- The ledger as a file of records ----

  lemma HealthyIffClean(c: Codec<Attempt>, s: string, f: L.File<Attempt>)
    requires Faithful(c) && L.Represents(c, s, f)
    ensures Healthy(c, s) <==> f.tail == L.Clean
  {
    hide L.Represents, Faithful, Scan, Lines, Terminated;
    L.ReadText(c, s, f);
    L.TailShows(c, s, f);
  }

  lemma EmptyLedger(c: Codec<Attempt>)
    ensures L.Represents(c, "", L.File([], L.Clean))
  {
  }

  // ---- Whole histories ----

  /** Nothing was ever appended to a ledger that did not end with a newline. */
  ghost predicate Careful(c: Codec<Attempt>, runs: seq<Run>)
    requires Runnable(runs)
  {
    forall i :: 0 <= i < |runs| ==>
      Terminated(AfterRuns(c, runs[..i]).ledger) || AfterRuns(c, runs[..i + 1]).ledger == AfterRuns(c, runs[..i]).ledger
  }

  lemma CarefulFront(c: Codec<Attempt>, runs: seq<Run>)
    requires Runnable(runs) && runs != []
    ensures var front := runs[..|runs| - 1];
      var before, after := AfterRuns(c, front).ledger, AfterRuns(c, runs).ledger;
      Careful(c, runs) <==> (Careful(c, front) && (Terminated(before) || after == before))
  {
    var front := runs[..|runs| - 1];
    hide AfterRuns, Terminated;
    assert runs[..|runs|] == runs;
    assert forall i :: 0 <= i <= |front| ==> front[..i] == runs[..i];
    if Careful(c, runs) {
      var last := |runs| - 1;
      assert runs[..last + 1] == runs;
      forall i | 0 <= i < |front|
        ensures Terminated(AfterRuns(c, front[..i]).ledger)
                || AfterRuns(c, front[..i + 1]).ledger == AfterRuns(c, front[..i]).ledger
      {
        assert front[..i + 1] == runs[..i + 1] && front[..i] == runs[..i];
      }
    }
    if Careful(c, front) && (Terminated(AfterRuns(c, front).ledger)
      || AfterRuns(c, runs).ledger == AfterRuns(c, front).ledger) {
      forall i | 0 <= i < |runs|
        ensures Terminated(AfterRuns(c, runs[..i]).ledger)
                || AfterRuns(c, runs[..i + 1]).ledger == AfterRuns(c, runs[..i]).ledger
      {
        if i < |front| {
          assert front[..i + 1] == runs[..i + 1] && front[..i] == runs[..i];
        } else {
          assert runs[..i + 1] == runs && runs[..i] == front;
        }
      }
    }
  }

  lemma NothingIsIntact(c: Codec<Attempt>)
    ensures Intact(c, NOTHING) && Keyed(NOTHING.plans)
  {
    NothingToRead(c);
  }

  /** The ledger of a history is a file of records that is not corrupt if every append was careful, and torn or corrupt
      if one was not. */
  lemma {:induction false} LedgerShapes(c: Codec<Attempt>, runs: seq<Run>) returns (f: L.File<Attempt>)
    requires Faithful(c) && Runnable(runs)
    ensures L.Represents(c, AfterRuns(c, runs).ledger, f)
    ensures if Careful(c, runs) then f.tail != L.Corrupt else f.tail in {L.Torn, L.Corrupt}
    decreases |runs|
  {
    if runs == [] {
      f := L.File([], L.Clean);
      EmptyLedger(c);
    } else {
      var front := runs[..|runs| - 1];
      f := LedgerShapes(c, front);
      CarefulFront(c, runs);
      var before := AfterRuns(c, front);
      var attempts, n := RunAppends(c, before, runs[|runs| - 1]);
      hide *;
      NothingAdded(before.ledger, PyTake(Render(c, attempts), n));
      L.TailShows(c, before.ledger, f);
      L.LinesGrow(c, before.ledger, f, attempts, n);
      L.GrownTail(c, f, attempts, n);
      AppendsIff(c, attempts, n);
      f := L.Grown(c, f, attempts, n);
    }
  }

  lemma AppendsIff(c: Codec<Attempt>, attempts: seq<Attempt>, n: nat)
    ensures PyTake(Render(c, attempts), n) != "" <==> attempts != [] && n > 0
    ensures attempts == [] || n == 0 ==> forall f :: L.Grown(c, f, attempts, n) == f
  {
  }

  /** The ledger is whole after a history exactly if it ends with a newline and nothing was ever appended to a ledger
      that did not. */
  lemma WholeIffCareful(c: Codec<Attempt>, runs: seq<Run>)
    requires Faithful(c) && Runnable(runs)
    ensures Healthy(c, AfterRuns(c, runs).ledger) <==> Careful(c, runs) && Terminated(AfterRuns(c, runs).ledger)
  {
    var f := LedgerShapes(c, runs);
    hide *;
    HealthyIffClean(c, AfterRuns(c, runs).ledger, f);
    L.TailShows(c, AfterRuns(c, runs).ledger, f);
  }

  /** While appends are careful, every plan on disk has an attempt in the ledger, at every crash point of every run. */
  lemma {:induction false} CarefulRunsCover(c: Codec<Attempt>, runs: seq<Run>)
    requires Faithful(c) && Runnable(runs) && Careful(c, runs)
    ensures var f := AfterRuns(c, runs);
      && Keyed(f.plans) && Covered(f.plans, RecordsIn(c, f.ledger))
      && (Terminated(f.ledger) ==> Intact(c, f))
    decreases |runs|
  {
    WholeIffCareful(c, runs);
    if runs == [] {
      NothingIsIntact(c);
    } else {
      var front, last := runs[..|runs| - 1], runs[|runs| - 1];
      CarefulFront(c, runs);
      hide Faithful, Careful, Terminated, AfterRun, Healthy, Covered, Keyed, RecordsIn;
      CarefulRunsCover(c, front);
      var f := AfterRuns(c, front);
      if Terminated(f.ledger) {
        RunKeeps(c, f, last);
      } else {
        var attempts, n := RunAppends(c, f, last);
      }
    }
  }

  /** The store is intact after a history, and every later run keeps it covered, exactly if the history was careful and
      left a newline at the end of the ledger. */
  lemma IntactIffCareful(c: Codec<Attempt>, runs: seq<Run>)
    requires Faithful(c) && Runnable(runs)
    ensures Intact(c, AfterRuns(c, runs)) <==> Careful(c, runs) && Terminated(AfterRuns(c, runs).ledger)
  {
    WholeIffCareful(c, runs);
    hide Faithful, Careful, Terminated, AfterRuns, Healthy, Covered, RecordsIn;
    if Careful(c, runs) {
      CarefulRunsCover(c, runs);
    }
  }

  // ---- The plans only grow ----

  lemma {:induction false} BatchesPlan(c: Codec<Attempt>, f: Files, plans: map<Key, Item>, missing: seq<Row>, from: nat,
      concurrency: nat, provider: nat -> Generated, lifetime: nat, cut: nat)
    returns (done: nat)
    requires concurrency >= 1 && from <= |missing| && f.plans == Extended(plans, missing[..from], provider)
    ensures from <= done <= |missing|
    ensures AfterBatches(c, f, missing, from, concurrency, provider, lifetime, cut).plans
         == Extended(plans, missing[..done], provider)
    decreases |missing| - from
  {
    hide AfterBatches, Extended, LedgerText, PyTake;
    done := from;
    if from < |missing| {
      var next := if from + concurrency < |missing| then from + concurrency else |missing|;
      OneBatch(c, f, missing, from, next, concurrency, provider, lifetime, cut);
      BatchExtends(c, plans, missing, from, next, provider);
      var after := AfterBatch(c, f, missing[from..next], Shift(provider, from), lifetime, cut);
      if lifetime >= 4 {
        done := next;
      }
      if lifetime >= 5 {
        done := BatchesPlan(c, after, plans, missing, next, concurrency, provider, lifetime - 5, cut);
      }
    } else {
      PastLastBatch(c, f, missing, from, concurrency, provider, lifetime, cut);
    }
  }

  predicate Extends(plans: map<Key, Item>, more: map<Key, Item>) {
    forall k :: k in plans ==> k in more && more[k] == plans[k]
  }

  lemma RunExtends(c: Codec<Attempt>, f: Files, run: Run)
    requires Keyed(f.plans) && run.concurrency >= 1
    ensures Keyed(AfterRun(c, f, run).plans) && Extends(f.plans, AfterRun(c, f, run).plans)
  {
    RunCases(c, f, run);
    hide AfterRun, AfterBatches, Keyed;
    if !((f.marker && !run.retry) || run.lifetime == 0) {
      var missing := Missing(run.rows, f.plans);
      RunStart(c, f, run.rows, missing, run.provider);
      var done := BatchesPlan(c, f.(marker := false), f.plans, missing, 0, run.concurrency, run.provider,
                              run.lifetime - 1, run.cut);
      DiskGrows(run.rows, f.plans, run.provider, done);
      ExtendedKeys(f.plans, missing[..done], run.provider);
    }
  }

  /** However many runs follow, and wherever they are killed: every plan that was on disk is still there, unchanged. */
  lemma {:induction false} PlansOnlyGrow(c: Codec<Attempt>, runs: seq<Run>, i: nat)
    requires Runnable(runs) && i <= |runs|
    ensures Keyed(AfterRuns(c, runs).plans) && Extends(AfterRuns(c, runs[..i]).plans, AfterRuns(c, runs).plans)
    decreases |runs|
  {
    if i == |runs| {
      assert runs[..i] == runs;
      if runs != [] {
        PlansOnlyGrow(c, runs[..|runs| - 1], 0);
        hide AfterRun, Keyed;
        RunExtends(c, AfterRuns(c, runs[..|runs| - 1]), runs[|runs| - 1]);
      }
    } else {
      var front := runs[..|runs| - 1];
      PlansOnlyGrow(c, front, i);
      assert front[..i] == runs[..i];
      hide AfterRun, Keyed;
      RunExtends(c, AfterRuns(c, front), runs[|runs| - 1]);
    }
  }
}
