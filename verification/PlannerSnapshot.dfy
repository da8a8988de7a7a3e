/** A snapshot of query plans that is extended batch by batch, with a ledger of every attempt and a marker
    around each paid batch. A run may be killed before any of its effects. */
module PlannerSnapshot {
  import opened Support
  import opened Rounding
  import opened Sorting
  import opened JsonLines

  /** A row, by its id and the hash of its query; the hash is taken to tell queries apart. */
  datatype Row = Row(id: string, query: string)

  type Key = (string, string)

  datatype Plan = Plan(text: string, failed: bool)

  /** What planning one row produced. */
  datatype Generated = Generated(plan: Option<Plan>, error: bool, latency: real)

  datatype Item = Item(key: Key, plan: Plan, latency: real)

  /** A line of the ledger; the latency is written rounded, in ten-thousandths. */
  datatype Attempt = Attempt(key: Key, latency: int, failed: bool, error: bool)

  datatype Outcome =
    | Planned(results: seq<Item>)
    | UnknownPayment
    | Rejected(ids: seq<string>)
    | Killed

  function KeyOf(row: Row): Key {
    (row.id, row.query)
  }

  predicate Usable(g: Generated) {
    !g.error && g.plan.Some? && !g.plan.value.failed
  }

  function AttemptOf(row: Row, g: Generated): Attempt {
    Attempt(KeyOf(row), Nearest(g.latency * 10000.0), g.plan.Some? && g.plan.value.failed, g.error)
  }

  function ItemOf(row: Row, g: Generated): Item
    requires Usable(g)
  {
    Item(KeyOf(row), g.plan.value, Round4(g.latency))
  }

  // ---- The snapshot file ----

  /** The plans of a snapshot by key; a missing file has none. */
  function Plans(items: seq<Item>): map<Key, Item> {
    if items == [] then map[] else var last := items[|items| - 1]; Plans(items[..|items| - 1])[last.key := last]
  }

  predicate Keyed(plans: map<Key, Item>) {
    forall k :: k in plans ==> plans[k].key == k
  }

  lemma {:induction false} PlansAreKeyed(items: seq<Item>)
    ensures Keyed(Plans(items))
  {
    if items != [] {
      PlansAreKeyed(items[..|items| - 1]);
    }
  }

  lemma PlansSnoc(items: seq<Item>, item: Item)
    ensures Plans(items + [item]) == Plans(items)[item.key := item]
  {
    assert (items + [item])[..|items|] == items;
  }

  // ---- The order of keys ----

  /** Strings compare character by character, a prefix before what it is a prefix of. */
  predicate TextLess(a: string, b: string) {
    b != "" && (a == "" || a[0] < b[0] || (a[0] == b[0] && TextLess(a[1..], b[1..])))
  }

  predicate KeyLess(a: Key, b: Key) {
    TextLess(a.0, b.0) || (a.0 == b.0 && TextLess(a.1, b.1))
  }

  lemma {:induction false} TextOrder(a: string, b: string)
    ensures !TextLess(a, a) && (a != b ==> TextLess(a, b) || TextLess(b, a))
  {
    if a != "" {
      TextOrder(a[1..], if b != "" then b[1..] else "");
      if b != "" && a[0] == b[0] && a[1..] == b[1..] {
        assert a == [a[0]] + a[1..] && b == [b[0]] + b[1..];
      }
    }
  }

  lemma {:induction false} TextOrderChains(a: string, b: string, c: string)
    requires TextLess(a, b) && TextLess(b, c)
    ensures TextLess(a, c)
  {
    if a != "" && a[0] == b[0] == c[0] {
      TextOrderChains(a[1..], b[1..], c[1..]);
    }
  }

  lemma KeyOrder(a: Key, b: Key)
    ensures !KeyLess(a, a) && (a != b ==> KeyLess(a, b) || KeyLess(b, a))
  {
    TextOrder(a.0, b.0);
    TextOrder(a.1, b.1);
    hide TextLess;
  }

  lemma KeyOrderChains(a: Key, b: Key, c: Key)
    requires KeyLess(a, b) && KeyLess(b, c)
    ensures KeyLess(a, c)
  {
    hide TextLess;
    if TextLess(a.0, b.0) && TextLess(b.0, c.0) {
      TextOrderChains(a.0, b.0, c.0);
    } else if a.0 == b.0 == c.0 {
      TextOrderChains(a.1, b.1, c.1);
    }
  }

  predicate InOrder(items: seq<Item>) {
    forall i, j :: 0 <= i < j < |items| ==> KeyLess(items[i].key, items[j].key)
  }

  method FindLeastKey(keys: set<Key>) returns (least: Key)
    requires keys != {}
    ensures least in keys && forall k :: k in keys && k != least ==> KeyLess(least, k)
  {
    hide KeyLess;
    least :| least in keys;
    var todo := keys - {least};
    while todo != {}
      invariant todo <= keys && least in keys && least !in todo
      invariant forall k :: k in keys && k !in todo && k != least ==> KeyLess(least, k)
      decreases |todo|
    {
      var k :| k in todo;
      KeyOrder(k, least);
      if KeyLess(k, least) {
        forall other | other in keys && other !in todo && other != least ensures KeyLess(k, other) {
          KeyOrderChains(k, least, other);
        }
        least := k;
      }
      todo := todo - {k};
    }
  }

  /** The list that is persisted for a dictionary of plans is in the order of the keys and reads back as that
      dictionary. */
  method Serialize(plans: map<Key, Item>) returns (items: seq<Item>)
    requires Keyed(plans)
    ensures Plans(items) == plans && |items| == |plans| && InOrder(items)
  {
    items := [];
    var todo := plans.Keys;
    assert Plans([]) == map[];
    hide Plans, KeyLess;
    while todo != {}
      invariant todo <= plans.Keys && |items| + |todo| == |plans.Keys|
      invariant forall k :: k in Plans(items) <==> k in plans && k !in todo
      invariant forall k :: k in Plans(items) ==> Plans(items)[k] == plans[k]
      invariant InOrder(items) && forall i, k :: 0 <= i < |items| && k in todo ==> KeyLess(items[i].key, k)
      decreases |todo|
    {
      var k := FindLeastKey(todo);
      PlansSnoc(items, plans[k]);
      items := items + [plans[k]];
      todo := todo - {k};
    }
  }

  function Missing(rows: seq<Row>, plans: map<Key, Item>): seq<Row> {
    if rows == [] then []
    else
      var last := rows[|rows| - 1];
      Missing(rows[..|rows| - 1], plans) + if KeyOf(last) in plans then [] else [last]
  }

  predicate AllIn(rows: seq<Row>, plans: map<Key, Item>) {
    forall i :: 0 <= i < |rows| ==> KeyOf(rows[i]) in plans
  }

  /** Rows are missing exactly if they have no plan, in their order. */
  lemma {:induction false} MissingRows(rows: seq<Row>, plans: map<Key, Item>)
    ensures forall row :: row in Missing(rows, plans) <==> row in rows && KeyOf(row) !in plans
    ensures Missing(rows, plans) == [] <==> AllIn(rows, plans)
  {
    if rows != [] {
      var front, last := rows[..|rows| - 1], rows[|rows| - 1];
      MissingRows(front, plans);
      assert rows == front + [last];
    }
  }

  /** They keep their order and their number: the missing rows of two lists are those of one and then of the other,
      and a single row is missing exactly if there is no plan for its id and query. */
  lemma MissingInOrder(a: seq<Row>, b: seq<Row>, row: Row, plans: map<Key, Item>)
    ensures Missing(a + b, plans) == Missing(a, plans) + Missing(b, plans)
    ensures Missing([row], plans) == if (row.id, row.query) in plans then [] else [row]
  {
    MissingConcat(a, b, plans);
    MissingSnoc([], row, plans);
    assert [] + [row] == [row];
    assert Missing([], plans) == [];
    hide Missing;
  }

  lemma MissingSnoc(rows: seq<Row>, row: Row, plans: map<Key, Item>)
    ensures Missing(rows + [row], plans) == Missing(rows, plans) + if KeyOf(row) in plans then [] else [row]
  {
    assert (rows + [row])[..|rows|] == rows;
  }

  lemma {:induction false} MissingConcat(a: seq<Row>, b: seq<Row>, plans: map<Key, Item>)
    ensures Missing(a + b, plans) == Missing(a, plans) + Missing(b, plans)
  {
    if b == [] {
      assert a + b == a;
    } else {
      var front, last := b[..|b| - 1], b[|b| - 1];
      hide Missing;
      MissingConcat(a, front, plans);
      MissingSnoc(a + front, last, plans);
      MissingSnoc(front, last, plans);
      assert a + b == (a + front) + [last] && b == front + [last];
      Associate(Missing(a, plans), Missing(front, plans), if KeyOf(last) in plans then [] else [last]);
    }
  }

  method FindMissing(rows: seq<Row>, plans: map<Key, Item>) returns (missing: seq<Row>)
    ensures missing == Missing(rows, plans)
  {
    missing := [];
    for i := 0 to |rows|
      invariant missing == Missing(rows[..i], plans)
    {
      assert rows[..i + 1][..i] == rows[..i];
      if KeyOf(rows[i]) !in plans {
        missing := missing + [rows[i]];
      }
    }
    assert rows[..|rows|] == rows;
  }

  // ---- The ledger ----

  /** Every plan has an attempt in the ledger. */
  ghost predicate Covered(plans: map<Key, Item>, attempts: seq<Attempt>) {
    forall k :: k in plans ==> exists i :: 0 <= i < |attempts| && attempts[i].key == k
  }

  ghost predicate Healthy(c: Codec<Attempt>, ledger: string) {
    Terminated(ledger) && Scan(c, Lines(ledger)).end == Complete
  }

  lemma HealthyAppends(c: Codec<Attempt>, s: string, attempts: seq<Attempt>)
    requires Faithful(c) && Healthy(c, s)
    ensures Healthy(c, s + Render(c, attempts))
    ensures RecordsIn(c, s + Render(c, attempts)) == RecordsIn(c, s) + attempts
  {
    hide Scan, Lines, Terminated, Faithful;
    RenderAppends(c, s, attempts);
  }

  /** Whatever follows a healthy ledger, its records are still the first to be read. */
  lemma RecordsStay(c: Codec<Attempt>, s: string, more: string)
    requires Healthy(c, s)
    ensures RecordsIn(c, s) <= RecordsIn(c, s + more)
  {
    LinesAppend(s, more);
    hide Lines, Terminated;
    ScanAppend(c, Lines(s), Lines(more));
  }

  lemma CoveredGrows(plans: map<Key, Item>, attempts: seq<Attempt>, more: seq<Attempt>)
    requires Covered(plans, attempts) && attempts <= more
    ensures Covered(plans, more)
  {
    assert forall i :: 0 <= i < |attempts| ==> attempts[i] == more[i];
  }

  // ---- One batch ----

  function Attempts(rows: seq<Row>, provider: nat -> Generated): (attempts: seq<Attempt>)
    ensures |attempts| == |rows|
    ensures forall i :: 0 <= i < |rows| ==> attempts[i] == AttemptOf(rows[i], provider(i))
  {
    seq(|rows|, i requires 0 <= i < |rows| => AttemptOf(rows[i], provider(i)))
  }

  /** What the ledger records of each row of a batch, usable or not: its id and query, the latency to the nearest
      ten-thousandth, and whether the plan failed or there was an error. */
  lemma AttemptsMean(rows: seq<Row>, provider: nat -> Generated, i: nat)
    requires i < |rows|
    ensures var a, g := Attempts(rows, provider)[i], provider(i);
      && a.key == (rows[i].id, rows[i].query)
      && g.latency * 10000.0 - 0.5 <= a.latency as real <= g.latency * 10000.0 + 0.5
      && (a.failed <==> g.plan.Some? && g.plan.value.failed) && a.error == g.error
  {
  }

  function LedgerText(c: Codec<Attempt>, rows: seq<Row>, provider: nat -> Generated): string {
    Render(c, Attempts(rows, provider))
  }

  /** The plans after the usable results of the first rows of a list have been added. */
  function Extended(plans: map<Key, Item>, rows: seq<Row>, provider: nat -> Generated): map<Key, Item> {
    if rows == [] then plans
    else
      var n := |rows| - 1;
      var front := Extended(plans, rows[..n], provider);
      if Usable(provider(n)) then front[KeyOf(rows[n]) := ItemOf(rows[n], provider(n))] else front
  }

  /** The ids of the rows whose result was not usable. */
  function Unusable(rows: seq<Row>, provider: nat -> Generated): seq<string> {
    if rows == [] then []
    else
      var n := |rows| - 1;
      Unusable(rows[..n], provider) + if Usable(provider(n)) then [] else [rows[n].id]
  }

  lemma {:induction false} ExtendedKeys(plans: map<Key, Item>, rows: seq<Row>, provider: nat -> Generated)
    requires Keyed(plans)
    ensures var extended := Extended(plans, rows, provider);
      && Keyed(extended) && plans.Keys <= extended.Keys
      && (forall i :: 0 <= i < |rows| && Usable(provider(i)) ==> KeyOf(rows[i]) in extended)
      && (forall k :: k in extended ==> k in plans || exists i :: 0 <= i < |rows| && KeyOf(rows[i]) == k)
  {
    if rows != [] {
      var n := |rows| - 1;
      ExtendedKeys(plans, rows[..n], provider);
      assert forall i :: 0 <= i < n ==> rows[..n][i] == rows[i];
    }
  }

  lemma {:induction false} ExtendedKeepsOld(plans: map<Key, Item>, rows: seq<Row>, provider: nat -> Generated)
    requires forall i :: 0 <= i < |rows| ==> KeyOf(rows[i]) !in plans
    ensures forall k :: k in plans ==>
      k in Extended(plans, rows, provider) && Extended(plans, rows, provider)[k] == plans[k]
  {
    if rows != [] {
      ExtendedKeepsOld(plans, rows[..|rows| - 1], provider);
    }
  }

  lemma {:induction false} UnusableRows(rows: seq<Row>, provider: nat -> Generated)
    ensures Unusable(rows, provider) == [] <==> forall i :: 0 <= i < |rows| ==> Usable(provider(i))
  {
    if rows != [] {
      UnusableRows(rows[..|rows| - 1], provider);
    }
  }

  /** The result is an error, has no plan, or has a failed plan. */
  predicate Refused(g: Generated) {
    g.error || g.plan.None? || g.plan.value.failed
  }

  ghost predicate SomeRejected(n: nat, provider: nat -> Generated) {
    exists i :: 0 <= i < n && Refused(provider(i))
  }

  lemma NoneRejected(rows: seq<Row>, provider: nat -> Generated)
    ensures Unusable(rows, provider) == [] <==> !SomeRejected(|rows|, provider)
  {
    UnusableRows(rows, provider);
    hide Unusable;
  }

  /** The results of the rows from some position on. */
  function Shift(provider: nat -> Generated, from: nat): nat -> Generated {
    (i: nat) => provider(from + i)
  }

  lemma {:induction false} ExtendedConcat(plans: map<Key, Item>, a: seq<Row>, b: seq<Row>, provider: nat -> Generated)
    ensures Extended(Extended(plans, a, provider), b, Shift(provider, |a|)) == Extended(plans, a + b, provider)
    ensures Unusable(a, provider) + Unusable(b, Shift(provider, |a|)) == Unusable(a + b, provider)
  {
    if b == [] {
      assert a + b == a;
    } else {
      var front := b[..|b| - 1];
      ExtendedConcat(plans, a, front, provider);
      assert (a + b)[..|a + b| - 1] == a + front;
      assert Shift(provider, |a|)(|b| - 1) == provider(|a + b| - 1);
    }
  }

  lemma {:induction false} RenderConcat(c: Codec<Attempt>, a: seq<Attempt>, b: seq<Attempt>)
    ensures Render(c, a + b) == Render(c, a) + Render(c, b)
  {
    if a == [] {
      assert a + b == b;
    } else {
      assert (a + b)[1..] == a[1..] + b && (a + b)[0] == a[0];
      RenderConcat(c, a[1..], b);
    }
  }

  /** One plan for each row, position by position, under the key of the row. */
  predicate Answers(rows: seq<Row>, plans: map<Key, Item>, results: seq<Item>) {
    |results| == |rows| &&
    forall i :: 0 <= i < |rows| ==>
      KeyOf(rows[i]) in plans && results[i] == plans[KeyOf(rows[i])] && results[i].key == KeyOf(rows[i])
  }

  /** The plans of the rows, position by position. */
  method Collect(rows: seq<Row>, plans: map<Key, Item>) returns (results: seq<Item>)
    requires AllIn(rows, plans)
    ensures |results| == |rows| && forall i :: 0 <= i < |rows| ==> results[i] == plans[KeyOf(rows[i])]
  {
    results := [];
    for i := 0 to |rows|
      invariant |results| == i && forall j :: 0 <= j < i ==> results[j] == plans[KeyOf(rows[j])]
    {
      results := results + [plans[KeyOf(rows[i])]];
    }
  }

  /** Adds the usable results of a batch to the plans and collects the ids of the others. */
  method Absorb(cached: map<Key, Item>, batch: seq<Row>, provider: nat -> Generated)
    returns (plans: map<Key, Item>, failures: seq<string>, added: bool)
    ensures plans == Extended(cached, batch, provider) && failures == Unusable(batch, provider)
    ensures !added ==> plans == cached
  {
    plans, failures, added := cached, [], false;
    for i := 0 to |batch|
      invariant plans == Extended(cached, batch[..i], provider) && failures == Unusable(batch[..i], provider)
      invariant !added ==> plans == cached
    {
      assert batch[..i + 1][..i] == batch[..i];
      var result := provider(i);
      if !Usable(result) {
        failures := failures + [batch[i].id];
      } else {
        plans := plans[KeyOf(batch[i]) := ItemOf(batch[i], result)];
        added := true;
      }
    }
    assert batch[..|batch|] == batch;
  }

  // ---- What a run leaves behind ----

  /** The plans on disk, the ledger and whether the marker is there. */
  datatype Files = Files(plans: map<Key, Item>, ledger: string, marker: bool)

  /** A run, and how far it gets: `lifetime` effects, and `cut` characters of an append during which it is killed. */
  datatype Run = Run(rows: seq<Row>, concurrency: nat, provider: nat -> Generated, retry: bool, lifetime: nat, cut: nat)

  function AfterBatch(c: Codec<Attempt>, f: Files, batch: seq<Row>, provider: nat -> Generated, lifetime: nat, cut: nat)
    : Files
  {
    var text := LedgerText(c, batch, provider);
    Files(
      if lifetime >= 4 then Extended(f.plans, batch, provider) else f.plans,
      f.ledger + PyTake(text, if lifetime < 2 then 0 else if lifetime == 2 then cut else |text|),
      1 <= lifetime < 5)
  }

  function AfterBatches(c: Codec<Attempt>, f: Files, missing: seq<Row>, from: nat, concurrency: nat,
      provider: nat -> Generated, lifetime: nat, cut: nat)
    : Files
    requires concurrency >= 1
    decreases |missing| - from
  {
    if from >= |missing| then f
    else
      var next := if from + concurrency < |missing| then from + concurrency else |missing|;
      var after := AfterBatch(c, f, missing[from..next], Shift(provider, from), lifetime, cut);
      if lifetime < 5 then after else AfterBatches(c, after, missing, next, concurrency, provider, lifetime - 5, cut)
  }

  /** Refused at a marker; otherwise the marker is removed first. */
  function AfterRun(c: Codec<Attempt>, f: Files, run: Run): Files
    requires run.concurrency >= 1
  {
    if (f.marker && !run.retry) || run.lifetime == 0 then f
    else
      AfterBatches(c, f.(marker := false), Missing(run.rows, f.plans), 0, run.concurrency, run.provider,
                   run.lifetime - 1, run.cut)
  }

  /** How many effects it takes to plan n rows: five for each batch. */
  function Effects(n: nat, concurrency: nat): nat
    requires concurrency >= 1
  {
    if n == 0 then 0 else 5 + Effects(if n <= concurrency then 0 else n - concurrency, concurrency)
  }

  /** Five for each batch, of which there are as many as it takes. */
  lemma {:induction false} EffectsMean(n: nat, concurrency: nat, batches: nat)
    requires concurrency >= 1 && batches * concurrency >= n
    requires batches > 0 ==> (batches - 1) * concurrency < n
    ensures Effects(n, concurrency) == 5 * batches
    decreases n
  {
    if batches > 0 {
      Distribute(batches, concurrency);
      if batches > 1 {
        Distribute(batches - 1, concurrency);
        EffectsMean(n - concurrency, concurrency, batches - 1);
      }
    }
  }

  lemma Distribute(batches: nat, concurrency: nat)
    requires batches > 0
    ensures batches * concurrency == (batches - 1) * concurrency + concurrency
    ensures (batches - 1) * concurrency >= 0 && (batches > 1 ==> (batches - 1) * concurrency >= concurrency)
  {
  }

  ghost predicate Intact(c: Codec<Attempt>, f: Files) {
    Healthy(c, f.ledger) && Covered(f.plans, RecordsIn(c, f.ledger))
  }

  // ---- The store ----

  class Store {
    const codec: Codec<Attempt>
    var snapshot: Option<seq<Item>>
    var ledger: string
    var marker: bool

    constructor (codec: Codec<Attempt>)
      ensures this.codec == codec && Valid() && Disk() == map[] && !marker
    {
      this.codec := codec;
      snapshot, ledger, marker := None, "", false;
      new;
      NothingToRead(codec);
    }

    function Disk(): map<Key, Item>
      reads this
    {
      if snapshot.None? then map[] else Plans(snapshot.value)
    }

    function Now(): Files
      reads this
    {
      Files(Disk(), ledger, marker)
    }

    /** The ledger can be extended, and holds an attempt for every plan of the snapshot. */
    ghost predicate Valid()
      reads this
    {
      Intact(codec, Now())
    }

    method Load() returns (plans: map<Key, Item>)
      ensures plans == Disk()
    {
      plans := map[];
      if snapshot.Some? {
        var items := snapshot.value;
        for i := 0 to |items|
          invariant plans == Plans(items[..i])
        {
          assert items[..i + 1] == items[..i] + [items[i]];
          PlansSnoc(items[..i], items[i]);
          plans := plans[items[i].key := items[i]];
        }
        assert items[..|items|] == items;
      }
    }

    method Persist(plans: map<Key, Item>)
      requires Keyed(plans)
      modifies this`snapshot
      ensures Disk() == plans && snapshot.Some?
    {
      var items := Serialize(plans);
      snapshot := Some(items);
    }

    /** One paid batch: marker, planner, ledger, snapshot, marker. The process is killed after `lifetime` of these
        effects; killed while it appends to the ledger, only the first `cut` characters arrive. */
    method RunBatch(batch: seq<Row>, provider: nat -> Generated, cached: map<Key, Item>, lifetime: nat, cut: nat)
      returns (alive: bool, plans: map<Key, Item>, failures: seq<string>)
      requires Keyed(cached) && cached == Disk() && !marker
      modifies this
      ensures alive <==> lifetime >= 5
      ensures alive ==> plans == Extended(cached, batch, provider) == Disk() && failures == Unusable(batch, provider)
      ensures Disk() == if lifetime >= 4 then Extended(cached, batch, provider) else cached
      ensures ledger == old(ledger) +
        PyTake(LedgerText(codec, batch, provider),
               if lifetime < 2 then 0 else if lifetime == 2 then cut else |LedgerText(codec, batch, provider)|)
      ensures marker <==> 1 <= lifetime < 5
      ensures Now() == AfterBatch(codec, old(Now()), batch, provider, lifetime, cut)
      ensures Faithful(codec) && old(Valid()) ==>
        Covered(Disk(), RecordsIn(codec, ledger)) && (lifetime != 2 ==> Valid())
      ensures Faithful(codec) && old(Valid()) && Terminated(ledger) ==> Valid()
    {
      plans, failures := cached, [];
      var attempts := Attempts(batch, provider);
      var text := Render(codec, attempts);
      alive := false;
      ghost var before := ledger;
      if Faithful(codec) && Valid() {
        BatchStaysIntact(codec, Now(), batch, provider, lifetime, cut);
      }
      hide Healthy, Covered, Faithful, Render, Plans, Terminated;
      if lifetime < 1 {
        assert before + PyTake(text, 0) == before;
        return;
      }
      marker := true;
      if lifetime < 2 {
        assert before + PyTake(text, 0) == before;
        return;
      }
      if lifetime == 2 {
        ledger := ledger + PyTake(text, cut);
        return;
      }
      ledger := ledger + text;
      if lifetime < 4 {
        return;
      }
      var added;
      plans, failures, added := Absorb(cached, batch, provider);
      ExtendedKeys(cached, batch, provider);
      if added {
        Persist(plans);
      }
      if lifetime < 5 {
        return;
      }
      marker := false;
      alive := true;
    }

    /** Plans the missing rows in batches. `done` counts the rows whose results are on disk, `planned` those that
        were handed to the planner. */
    method PlanMissing(missing: seq<Row>, loaded: map<Key, Item>, concurrency: nat, provider: nat -> Generated,
        lifetime: nat, cut: nat)
      returns (alive: bool, cached: map<Key, Item>, failures: seq<string>, planned: nat, ghost done: nat)
      requires !marker && Keyed(loaded) && loaded == Disk() && concurrency >= 1
      modifies this
      ensures done <= planned <= |missing|
      ensures Disk() == Extended(loaded, missing[..done], provider)
      ensures Faithful(codec) && old(Valid()) ==> Covered(Disk(), RecordsIn(codec, ledger)) && (alive ==> Valid())
      ensures Faithful(codec) && old(Valid()) && Terminated(ledger) ==> Valid()
      ensures Now() == AfterBatches(codec, old(Now()), missing, 0, concurrency, provider, lifetime, cut)
      ensures old(ledger) <= ledger
      ensures done < planned ==> marker
      ensures alive <==> lifetime >= Effects(|missing|, concurrency)
      ensures alive ==>
        && !marker && done == |missing| && cached == Disk() && failures == Unusable(missing, provider)
        && ledger == old(ledger) + LedgerText(codec, missing, provider)
    {
      hide Healthy, Covered, Faithful, Plans, Extended, Unusable, LedgerText, RecordsIn, Terminated, AfterBatch,
        AfterBatches;
      StartsEmpty(codec, loaded, missing, provider);
      cached, failures, planned, done, alive := loaded, [], 0, 0, true;
      var left: nat := lifetime;
      ghost var before := ledger;
      assert before + "" == before;
      while planned < |missing|
        invariant done == planned <= |missing| && alive
        invariant Faithful(codec) && old(Valid()) ==> Valid()
        invariant !marker && Keyed(cached) && cached == Disk() == Extended(loaded, missing[..planned], provider)
        invariant failures == Unusable(missing[..planned], provider)
        invariant ledger == before + LedgerText(codec, missing[..planned], provider)
        invariant left + Effects(|missing|, concurrency) == lifetime + Effects(|missing| - planned, concurrency)
        invariant AfterBatches(codec, old(Now()), missing, 0, concurrency, provider, lifetime, cut)
               == AfterBatches(codec, Now(), missing, planned, concurrency, provider, left, cut)
        decreases |missing| - planned
      {
        var next := if planned + concurrency < |missing| then planned + concurrency else |missing|;
        var batch := missing[planned..next];
        ghost var from := planned;
        var ids;
        BatchExtends(codec, loaded, missing, planned, next, provider);
        ExtendedKeys(cached, batch, Shift(provider, planned));
        var plans;
        OneBatch(codec, Now(), missing, planned, next, concurrency, provider, left, cut);
        alive, plans, ids := RunBatch(batch, Shift(provider, planned), cached, left, cut);
        if left >= 4 {
          done := next;
        }
        if left >= 2 {
          planned := next;
        }
        if !alive {
          return;
        }
        Associate(before, LedgerText(codec, missing[..from], provider),
            LedgerText(codec, batch, Shift(provider, from)));
        cached, failures, left := plans, failures + ids, left - 5;
      }
      assert missing[..planned] == missing;
      NoBatch(codec, Now(), missing, concurrency, provider, left, cut);
    }

    /** Plans every row that the snapshot lacks and returns the plans of all rows. */
    method LoadOrCreate(rows: seq<Row>, concurrency: nat, provider: nat -> Generated, retry: bool, lifetime: nat,
        cut: nat)
      returns (outcome: Outcome, planned: nat, ghost done: nat)
      requires concurrency >= 1
      modifies this
      ensures outcome == UnknownPayment <==> old(marker) && !retry
      ensures outcome == UnknownPayment ==> planned == 0 && ledger == old(ledger) && marker
      ensures done <= planned <= |Missing(rows, old(Disk()))|
      ensures Disk() == Extended(old(Disk()), Missing(rows, old(Disk()))[..done], provider)
      ensures Faithful(codec) && old(Valid()) ==>
        Covered(Disk(), RecordsIn(codec, ledger)) && (outcome != Killed ==> Valid())
      ensures Faithful(codec) && old(Valid()) && Terminated(ledger) ==> Valid()
      ensures Now() == AfterRun(codec, old(Now()), Run(rows, concurrency, provider, retry, lifetime, cut))
      ensures old(ledger) <= ledger
      ensures done < planned ==> marker
      ensures outcome == Killed <==>
        !(old(marker) && !retry) && lifetime < 1 + Effects(|Missing(rows, old(Disk()))|, concurrency)
      ensures outcome != Killed && outcome != UnknownPayment ==>
        && done == |Missing(rows, old(Disk()))| && !marker
        && ledger == old(ledger) + LedgerText(codec, Missing(rows, old(Disk())), provider)
      ensures outcome.Rejected? ==> outcome.ids == Unusable(Missing(rows, old(Disk())), provider) != []
      ensures outcome.Planned? ==>
        Unusable(Missing(rows, old(Disk())), provider) == [] && Answers(rows, Disk(), outcome.results)
      ensures outcome != Killed && outcome != UnknownPayment ==>
        (outcome.Rejected? <==> SomeRejected(|Missing(rows, old(Disk()))|, provider))
    {
      var loaded := Load();
      var missing := FindMissing(rows, loaded);
      RunStart(codec, Now(), rows, missing, provider);
      RunCases(codec, Now(), Run(rows, concurrency, provider, retry, lifetime, cut));
      if snapshot.Some? {
        PlansAreKeyed(snapshot.value);
      }
      assert Keyed(loaded);
      hide Intact, Healthy, Covered, Faithful, Plans, Extended, Unusable, Missing, LedgerText, RecordsIn, Terminated,
        AfterBatches, AfterRun, Keyed, Answers;
      if marker && !retry {
        outcome, planned, done := UnknownPayment, 0, 0;
      } else if lifetime == 0 {
        outcome, planned, done := Killed, 0, 0;
      } else {
        outcome, planned, done := Resume(rows, loaded, missing, concurrency, provider, lifetime - 1, cut);
        NoneRejected(missing, provider);
      }
    }

    /** Removes the marker, plans the missing rows and concludes. */
    method Resume(rows: seq<Row>, loaded: map<Key, Item>, missing: seq<Row>, concurrency: nat,
        provider: nat -> Generated, lifetime: nat, cut: nat)
      returns (outcome: Outcome, planned: nat, ghost done: nat)
      requires concurrency >= 1 && Keyed(loaded) && loaded == Disk() && missing == Missing(rows, loaded)
      modifies this
      ensures outcome != UnknownPayment
      ensures done <= planned <= |missing|
      ensures Disk() == Extended(loaded, missing[..done], provider)
      ensures Faithful(codec) && old(Valid()) ==>
        Covered(Disk(), RecordsIn(codec, ledger)) && (outcome != Killed ==> Valid())
      ensures Faithful(codec) && old(Valid()) && Terminated(ledger) ==> Valid()
      ensures Now() == AfterBatches(codec, old(Now()).(marker := false), missing, 0, concurrency, provider, lifetime,
          cut)
      ensures old(ledger) <= ledger
      ensures done < planned ==> marker
      ensures outcome == Killed <==> lifetime < Effects(|missing|, concurrency)
      ensures outcome != Killed ==>
        done == |missing| && !marker && ledger == old(ledger) + LedgerText(codec, missing, provider)
      ensures outcome.Rejected? ==> outcome.ids == Unusable(missing, provider) != []
      ensures outcome.Planned? ==> Unusable(missing, provider) == [] && Answers(rows, Disk(), outcome.results)
    {
      RunStart(codec, Now(), rows, missing, provider);
      hide Intact, Healthy, Covered, Faithful, Plans, Extended, Unusable, Missing, LedgerText, RecordsIn, Terminated,
        AfterBatches, Keyed, Answers;
      marker := false;
      var alive, cached, failures;
      alive, cached, failures, planned, done := PlanMissing(missing, loaded, concurrency, provider, lifetime, cut);
      if !alive {
        return Killed, planned, done;
      }
      assert missing[..done] == missing;
      outcome := Conclude(rows, loaded, missing, cached, failures, provider);
    }
  }

  lemma RunCases(c: Codec<Attempt>, f: Files, run: Run)
    requires run.concurrency >= 1
    ensures AfterRun(c, f, run) ==
      if (f.marker && !run.retry) || run.lifetime == 0 then f
      else AfterBatches(c, f.(marker := false), Missing(run.rows, f.plans), 0, run.concurrency, run.provider,
                        run.lifetime - 1, run.cut)
  {
  }

  lemma RunStart(c: Codec<Attempt>, f: Files, rows: seq<Row>, missing: seq<Row>, provider: nat -> Generated)
    ensures missing[..0] == [] && Extended(f.plans, missing[..0], provider) == f.plans
    ensures Intact(c, f) <==> Intact(c, f.(marker := false))
    ensures Intact(c, f) ==> Covered(f.plans, RecordsIn(c, f.ledger))
  {
  }

  /** The result of a run that handed every missing row to the planner. */
  method Conclude(rows: seq<Row>, loaded: map<Key, Item>, missing: seq<Row>, cached: map<Key, Item>,
      failures: seq<string>, provider: nat -> Generated)
    returns (outcome: Outcome)
    requires Keyed(loaded) && missing == Missing(rows, loaded) && cached == Extended(loaded, missing, provider)
    requires failures == Unusable(missing, provider)
    ensures outcome.Rejected? || outcome.Planned?
    ensures outcome.Rejected? <==> failures != []
    ensures outcome.Rejected? ==> outcome.ids == failures
    ensures outcome.Planned? ==> Answers(rows, cached, outcome.results)
  {
    hide Extended, Unusable, Missing;
    if failures != [] {
      return Rejected(failures);
    }
    EveryRowPlanned(rows, loaded, provider);
    var results := Collect(rows, cached);
    outcome := Planned(results);
  }

  lemma OneBatch(c: Codec<Attempt>, f: Files, missing: seq<Row>, from: nat, next: nat, concurrency: nat,
      provider: nat -> Generated, lifetime: nat, cut: nat)
    requires concurrency >= 1 && from < |missing|
    requires next == if from + concurrency < |missing| then from + concurrency else |missing|
    ensures var after := AfterBatch(c, f, missing[from..next], Shift(provider, from), lifetime, cut);
      AfterBatches(c, f, missing, from, concurrency, provider, lifetime, cut)
      == if lifetime < 5 then after else AfterBatches(c, after, missing, next, concurrency, provider, lifetime - 5, cut)
  {
  }

  lemma NoBatch(c: Codec<Attempt>, f: Files, missing: seq<Row>, concurrency: nat, provider: nat -> Generated,
      lifetime: nat, cut: nat)
    requires concurrency >= 1
    ensures AfterBatches(c, f, missing, |missing|, concurrency, provider, lifetime, cut) == f
  {
  }

  lemma StartsEmpty(c: Codec<Attempt>, plans: map<Key, Item>, missing: seq<Row>, provider: nat -> Generated)
    ensures missing[..0] == [] && Extended(plans, missing[..0], provider) == plans
      && Unusable(missing[..0], provider) == []
    ensures LedgerText(c, missing[..0], provider) == ""
  {
  }

  lemma BatchText(c: Codec<Attempt>, missing: seq<Row>, from: nat, to: nat, provider: nat -> Generated)
    requires from <= to <= |missing|
    ensures LedgerText(c, missing[..from], provider) + LedgerText(c, missing[from..to], Shift(provider, from))
         == LedgerText(c, missing[..to], provider)
  {
    var a, b := Attempts(missing[..from], provider), Attempts(missing[from..to], Shift(provider, from));
    assert a + b == Attempts(missing[..to], provider);
    RenderConcat(c, a, b);
  }

  lemma BatchExtends(c: Codec<Attempt>, plans: map<Key, Item>, missing: seq<Row>, from: nat, to: nat,
      provider: nat -> Generated)
    requires from <= to <= |missing|
    ensures var batch := missing[from..to];
      && Extended(Extended(plans, missing[..from], provider), batch, Shift(provider, from))
           == Extended(plans, missing[..to], provider)
      && Unusable(missing[..from], provider) + Unusable(batch, Shift(provider, from))
           == Unusable(missing[..to], provider)
      && LedgerText(c, missing[..from], provider) + LedgerText(c, batch, Shift(provider, from))
           == LedgerText(c, missing[..to], provider)
  {
    hide Extended, Unusable, LedgerText;
    assert missing[..from] + missing[from..to] == missing[..to];
    ExtendedConcat(plans, missing[..from], missing[from..to], provider);
    BatchText(c, missing, from, to, provider);
  }

  /** If every missing row was planned, every row has a plan under its own key. */
  lemma EveryRowPlanned(rows: seq<Row>, plans: map<Key, Item>, provider: nat -> Generated)
    requires Keyed(plans) && Unusable(Missing(rows, plans), provider) == []
    ensures var extended := Extended(plans, Missing(rows, plans), provider);
      Keyed(extended) && AllIn(rows, extended)
  {
    var missing := Missing(rows, plans);
    MissingRows(rows, plans);
    UnusableRows(missing, provider);
    ExtendedKeys(plans, missing, provider);
    forall i | 0 <= i < |rows| ensures KeyOf(rows[i]) in Extended(plans, missing, provider) {
      if KeyOf(rows[i]) !in plans {
        assert rows[i] in missing;
        var j :| 0 <= j < |missing| && missing[j] == rows[i];
      }
    }
  }

  /** One batch on an intact store: wherever it is killed every plan has an attempt, and the store is intact unless
      an append was cut inside a line. */
  lemma BatchStaysIntact(c: Codec<Attempt>, f: Files, batch: seq<Row>, provider: nat -> Generated, lifetime: nat,
      cut: nat)
    requires Faithful(c) && Intact(c, f) && Keyed(f.plans)
    ensures var after := AfterBatch(c, f, batch, provider, lifetime, cut);
      && Covered(after.plans, RecordsIn(c, after.ledger))
      && (lifetime != 2 || Terminated(after.ledger) ==> Intact(c, after))
  {
    hide Healthy, Covered, Faithful, Render, Terminated;
    var attempts := Attempts(batch, provider);
    var text := Render(c, attempts);
    if lifetime < 2 {
      assert f.ledger + PyTake(text, 0) == f.ledger;
    } else if lifetime == 2 {
      RecordsStay(c, f.ledger, PyTake(text, cut));
      CoveredGrows(f.plans, RecordsIn(c, f.ledger), RecordsIn(c, f.ledger + PyTake(text, cut)));
      CutHealthy(c, f.ledger, attempts, cut);
    } else {
      HealthyAppends(c, f.ledger, attempts);
      BatchIsCovered(f.plans, RecordsIn(c, f.ledger), batch, provider);
    }
  }

  /** With the attempts of a batch in the ledger, its plans may be added to the snapshot. */
  lemma BatchIsCovered(plans: map<Key, Item>, attempts: seq<Attempt>, batch: seq<Row>, provider: nat -> Generated)
    requires Keyed(plans) && Covered(plans, attempts)
    ensures Covered(plans, attempts + Attempts(batch, provider))
    ensures Covered(Extended(plans, batch, provider), attempts + Attempts(batch, provider))
  {
    var more := attempts + Attempts(batch, provider);
    CoveredGrows(plans, attempts, more);
    ExtendedKeys(plans, batch, provider);
    forall k | k in Extended(plans, batch, provider) ensures exists i :: 0 <= i < |more| && more[i].key == k {
      if k !in plans {
        var i :| 0 <= i < |batch| && KeyOf(batch[i]) == k;
        assert more[|attempts| + i].key == k;
      }
    }
  }

  // ---- What the results of the planner become ----

  /** The item in the snapshot that a result gives its row: its plan, with the latency in ten-thousandths. */
  predicate KeptAs(row: Row, g: Generated, item: Item) {
    !Refused(g) && item == Item((row.id, row.query), g.plan.value, Nearest(g.latency * 10000.0) as real / 10000.0)
  }

  /** Position i is the last one of a row with this key whose result is not refused. */
  ghost predicate LastKept(rows: seq<Row>, provider: nat -> Generated, k: Key, i: nat) {
    && i < |rows| && (rows[i].id, rows[i].query) == k && !Refused(provider(i))
    && forall j :: i < j < |rows| && (rows[j].id, rows[j].query) == k ==> Refused(provider(j))
  }

  lemma LastKeptSnoc(rows: seq<Row>, provider: nat -> Generated, k: Key, i: nat)
    requires rows != [] && ((rows[|rows| - 1].id, rows[|rows| - 1].query) == k ==> Refused(provider(|rows| - 1)))
    ensures LastKept(rows, provider, k, i) <==> LastKept(rows[..|rows| - 1], provider, k, i)
  {
    hide Refused;
    var front := rows[..|rows| - 1];
    assert forall j :: 0 <= j < |front| ==> front[j] == rows[j];
    if LastKept(front, provider, k, i) {
      forall j | i < j < |rows| && (rows[j].id, rows[j].query) == k ensures Refused(provider(j)) {
        assert j < |front| ==> front[j] == rows[j];
      }
    }
  }

  lemma ExtendedByLast(plans: map<Key, Item>, rows: seq<Row>, provider: nat -> Generated)
    requires rows != []
    ensures var n := |rows| - 1;
      var front, k := Extended(plans, rows[..n], provider), (rows[n].id, rows[n].query);
      && (Refused(provider(n)) ==> Extended(plans, rows, provider) == front)
      && (!Refused(provider(n)) ==>
            && k in Extended(plans, rows, provider)
            && KeptAs(rows[n], provider(n), Extended(plans, rows, provider)[k])
            && Extended(plans, rows, provider) == front[k := Extended(plans, rows, provider)[k]])
  {
    hide Nearest;
  }

  /** A key gets a plan exactly if some row with it has a result that is no error and has a plan that did not fail; it
      is then the plan of the last such row, with its latency, under this very key. */
  lemma {:induction false} AddedPlans(plans: map<Key, Item>, rows: seq<Row>, provider: nat -> Generated, k: Key)
    requires k !in plans
    ensures k in Extended(plans, rows, provider) <==> exists i: nat :: LastKept(rows, provider, k, i)
    ensures forall i: nat :: LastKept(rows, provider, k, i) ==>
      && i < |rows| && k in Extended(plans, rows, provider)
      && KeptAs(rows[i], provider(i), Extended(plans, rows, provider)[k])
  {
    hide Extended, KeptAs, Refused, LastKept;
    if rows == [] {
      NothingKept(plans, rows, provider, k);
    } else {
      var n := |rows| - 1;
      var front := rows[..n];
      AddedPlans(plans, front, provider, k);
      ExtendedByLast(plans, rows, provider);
      if (rows[n].id, rows[n].query) == k && !Refused(provider(n)) {
        LastIsKept(rows, provider, k);
        assert k in Extended(plans, rows, provider) && LastKept(rows, provider, k, n);
      } else {
        forall i: nat ensures LastKept(rows, provider, k, i) <==> LastKept(front, provider, k, i) {
          LastKeptSnoc(rows, provider, k, i);
        }
        forall i: nat | LastKept(front, provider, k, i)
          ensures i < |rows| && k in Extended(plans, rows, provider)
          ensures KeptAs(rows[i], provider(i), Extended(plans, rows, provider)[k])
        {
          KeptInFront(rows, provider, k, i);
        }
      }
    }
  }

  lemma KeptInFront(rows: seq<Row>, provider: nat -> Generated, k: Key, i: nat)
    requires rows != [] && LastKept(rows[..|rows| - 1], provider, k, i)
    ensures i < |rows| - 1 && rows[..|rows| - 1][i] == rows[i]
  {
  }

  lemma LastIsKept(rows: seq<Row>, provider: nat -> Generated, k: Key)
    requires rows != [] && (rows[|rows| - 1].id, rows[|rows| - 1].query) == k && !Refused(provider(|rows| - 1))
    ensures forall i: nat :: LastKept(rows, provider, k, i) <==> i == |rows| - 1
  {
    hide Refused;
    assert LastKept(rows, provider, k, |rows| - 1);
  }

  lemma NothingKept(plans: map<Key, Item>, rows: seq<Row>, provider: nat -> Generated, k: Key)
    requires rows == []
    ensures Extended(plans, rows, provider) == plans && forall i: nat :: !LastKept(rows, provider, k, i)
  {
  }

  predicate Ascends(js: seq<nat>) {
    forall x, y :: 0 <= x < y < |js| ==> js[x] < js[y]
  }

  /** The rejected ids are those of the rows whose result is an error, no plan or a failed plan, in their order. */
  lemma {:induction false} RejectedRows(rows: seq<Row>, provider: nat -> Generated) returns (js: seq<nat>)
    ensures Ascends(js) && |js| == |Unusable(rows, provider)|
    ensures forall x :: 0 <= x < |js| ==> js[x] < |rows| && Unusable(rows, provider)[x] == rows[js[x]].id
    ensures forall i: nat :: i in js <==> i < |rows| && Refused(provider(i))
  {
    js := [];
    if rows != [] {
      var n := |rows| - 1;
      js := RejectedRows(rows[..n], provider);
      if !Usable(provider(n)) {
        js := js + [n];
      }
    }
  }

  // ---- Over several runs ----

  /** However far a run got, the plans that were on disk before it are still there unchanged, and what it added
      belongs to rows it was given. */
  lemma DiskGrows(rows: seq<Row>, plans: map<Key, Item>, provider: nat -> Generated, n: nat)
    requires Keyed(plans) && n <= |Missing(rows, plans)|
    ensures var next := Extended(plans, Missing(rows, plans)[..n], provider);
      && (forall k :: k in plans ==> k in next && next[k] == plans[k])
      && (forall k :: k in next && k !in plans ==> exists row :: row in rows && KeyOf(row) == k)
  {
    var done := Missing(rows, plans)[..n];
    MissingRows(rows, plans);
    assert forall i :: 0 <= i < n ==> done[i] in Missing(rows, plans);
    ExtendedKeepsOld(plans, done, provider);
    ExtendedKeys(plans, done, provider);
  }

  /** After a run that returned, a run on any of its rows has nothing left to plan. */
  lemma RerunPlansNothing(rows: seq<Row>, some: seq<Row>, plans: map<Key, Item>)
    requires AllIn(rows, plans) && forall row :: row in some ==> row in rows
    ensures Missing(some, plans) == []
  {
    MissingRows(some, plans);
    forall i | 0 <= i < |some| ensures KeyOf(some[i]) in plans {
      assert some[i] in rows;
    }
  }

  // ---- The first attempts ----

  datatype AttemptMetrics = AttemptMetrics(
    rows: nat, attempts: nat, firstFailures: nat, firstFallbacks: nat, retriedRows: nat, meanLatency: real,
    p95Latency: real)

  datatype MetricsError = LedgerUnreadable | LedgerIncomplete | NoAttempts

  function Wanted(rows: seq<Row>): set<Key> {
    set row | row in rows :: KeyOf(row)
  }

  function Relevant(attempts: seq<Attempt>, wanted: set<Key>): seq<Attempt> {
    if attempts == [] then []
    else
      var last := attempts[|attempts| - 1];
      Relevant(attempts[..|attempts| - 1], wanted) + if last.key in wanted then [last] else []
  }

  /** The attempts of each wanted row, in the order of the ledger. */
  function ByRow(attempts: seq<Attempt>): map<Key, seq<Attempt>> {
    if attempts == [] then map[]
    else
      var last, front := attempts[|attempts| - 1], ByRow(attempts[..|attempts| - 1]);
      front[last.key := (if last.key in front then front[last.key] else []) + [last]]
  }

  function Latencies(attempts: seq<Attempt>): seq<real> {
    seq(|attempts|, i requires 0 <= i < |attempts| => attempts[i].latency as real / 10000.0)
  }

  function SumOf(xs: seq<real>): real {
    if xs == [] then 0.0 else SumOf(xs[..|xs| - 1]) + xs[|xs| - 1]
  }

  /** round((n - 1) * 0.95), which for a non-empty list is always one of its positions. */
  function P95Index(n: nat): (i: nat)
    requires n > 0
    ensures i < n
  {
    Nearest((n - 1) as real * 0.95)
  }

  /** It is the position nearest to 95 in 100 of the way, and the even one of two. */
  lemma P95IndexMeans(n: nat)
    requires n > 0
    ensures var off := 100 * P95Index(n) - 95 * (n - 1);
      -50 <= off <= 50 && (off == 50 || off == -50 ==> P95Index(n) % 2 == 0)
  {
    var x := (n - 1) as real * 0.95;
    assert x * 100.0 == (95 * (n - 1)) as real;
    var i := P95Index(n);
    assert (100 * i) as real == i as real * 100.0;
  }

  /** The latencies add up attempt by attempt, each as it was written in ten-thousandths. */
  lemma LatencySum(attempts: seq<Attempt>, a: Attempt)
    ensures SumOf(Latencies([])) == 0.0
    ensures SumOf(Latencies(attempts + [a])) == SumOf(Latencies(attempts)) + a.latency as real / 10000.0
  {
    var xs := Latencies(attempts + [a]);
    assert xs[..|xs| - 1] == Latencies(attempts);
  }

  lemma {:induction false} RelevantAttempts(attempts: seq<Attempt>, wanted: set<Key>)
    ensures forall a :: a in Relevant(attempts, wanted) <==> a in attempts && a.key in wanted
    ensures (forall a :: a in attempts ==> a.key !in wanted) <==> Relevant(attempts, wanted) == []
  {
    if attempts != [] {
      var front, last := attempts[..|attempts| - 1], attempts[|attempts| - 1];
      RelevantAttempts(front, wanted);
      assert attempts == front + [last];
    }
  }

  /** The attempts of a row are those with its key; the first of them is its first attempt in the ledger. */
  lemma {:induction false} ByRowMeans(attempts: seq<Attempt>, k: Key)
    ensures k in ByRow(attempts) <==> exists i :: 0 <= i < |attempts| && attempts[i].key == k
    ensures k in ByRow(attempts) ==> ByRow(attempts)[k] != []
    ensures k in ByRow(attempts) ==>
      exists i :: (0 <= i < |attempts| && attempts[i].key == k && ByRow(attempts)[k][0] == attempts[i]
                   && forall j :: 0 <= j < i ==> attempts[j].key != k)
  {
    if attempts != [] {
      var front := attempts[..|attempts| - 1];
      ByRowMeans(front, k);
      assert forall i :: 0 <= i < |front| ==> front[i] == attempts[i];
    }
  }

  /** The attempts of a row are all the attempts with its key. */
  lemma {:induction false} ByRowCounts(attempts: seq<Attempt>, k: Key)
    ensures (if k in ByRow(attempts) then ByRow(attempts)[k] else []) == Relevant(attempts, {k})
  {
    if attempts != [] {
      ByRowCounts(attempts[..|attempts| - 1], k);
    }
  }

  ghost predicate Attempted(attempts: seq<Attempt>, wanted: set<Key>) {
    forall k :: k in wanted ==> exists i :: 0 <= i < |attempts| && attempts[i].key == k
  }

  lemma {:induction false} RelevantOfOne(attempts: seq<Attempt>, wanted: set<Key>, k: Key)
    requires k in wanted
    ensures Relevant(Relevant(attempts, wanted), {k}) == Relevant(attempts, {k})
  {
    if attempts != [] {
      var front, last := attempts[..|attempts| - 1], attempts[|attempts| - 1];
      RelevantOfOne(front, wanted, k);
      RelevantSnoc(Relevant(front, wanted), last, {k});
      assert last.key !in wanted ==> Relevant(attempts, wanted) == Relevant(front, wanted);
    }
  }

  lemma RelevantSnoc(attempts: seq<Attempt>, a: Attempt, wanted: set<Key>)
    ensures Relevant(attempts + [a], wanted) == Relevant(attempts, wanted) + if a.key in wanted then [a] else []
  {
    assert (attempts + [a])[..|attempts|] == attempts;
  }

  function MetricsOf(attempts: seq<Attempt>, wanted: set<Key>): AttemptMetrics
    requires attempts != [] && wanted <= ByRow(attempts).Keys
    requires forall k :: k in wanted ==> ByRow(attempts)[k] != []
  {
    var byRow, latencies := ByRow(attempts), Latencies(attempts);
    AttemptMetrics(
      |wanted|, |attempts|,
      |set k | k in wanted && byRow[k][0].error|, |set k | k in wanted && byRow[k][0].failed|,
      |set k | k in wanted && |byRow[k]| > 1|,
      Round4(SumOf(latencies) / |latencies| as real), Round4(Sorted(latencies)[P95Index(|attempts|)]))
  }

  /** Groups the attempts row by row. */
  method Group(attempts: seq<Attempt>) returns (byRow: map<Key, seq<Attempt>>)
    ensures byRow == ByRow(attempts)
  {
    byRow := map[];
    for i := 0 to |attempts|
      invariant byRow == ByRow(attempts[..i])
    {
      assert attempts[..i + 1][..i] == attempts[..i];
      var a := attempts[i];
      if a.key !in byRow {
        byRow := byRow[a.key := []];
      }
      byRow := byRow[a.key := byRow[a.key] + [a]];
    }
    assert attempts[..|attempts|] == attempts;
  }

  /** Whether the first attempt of a row, and whether more than one, is as stated; read off the whole ledger. */
  function FirstFailed(records: seq<Attempt>, wanted: set<Key>): set<Key> {
    set k | k in wanted && Relevant(records, {k}) != [] && Relevant(records, {k})[0].error
  }

  function FirstFellBack(records: seq<Attempt>, wanted: set<Key>): set<Key> {
    set k | k in wanted && Relevant(records, {k}) != [] && Relevant(records, {k})[0].failed
  }

  function Retried(records: seq<Attempt>, wanted: set<Key>): set<Key> {
    set k | k in wanted && |Relevant(records, {k})| > 1
  }

  /** The mean of the latencies, and the one of their ascending order at 95 in 100 of the positions. */
  ghost predicate LatencyFigures(m: AttemptMetrics, attempts: seq<Attempt>) {
    attempts != [] &&
    var latencies, ordered := Latencies(attempts), Sorted(Latencies(attempts));
    && m.meanLatency == Round4(SumOf(latencies) / |attempts| as real)
    && Ascending(ordered) && multiset(ordered) == multiset(latencies)
    && m.p95Latency == Round4(ordered[P95Index(|attempts|)])
  }

  lemma MetricsLatency(attempts: seq<Attempt>, wanted: set<Key>)
    requires attempts != [] && wanted <= ByRow(attempts).Keys
    requires forall k :: k in wanted ==> ByRow(attempts)[k] != []
    ensures LatencyFigures(MetricsOf(attempts, wanted), attempts)
  {
    hide ByRow, Round4, SumOf, P95Index;
  }

  lemma MetricsAgree(records: seq<Attempt>, wanted: set<Key>)
    requires Relevant(records, wanted) != [] && Attempted(records, wanted)
    ensures var attempts := Relevant(records, wanted);
      && wanted <= ByRow(attempts).Keys && (forall k :: k in wanted ==> ByRow(attempts)[k] != [])
      && MetricsOf(attempts, wanted).rows == |wanted| && MetricsOf(attempts, wanted).attempts == |attempts|
      && MetricsOf(attempts, wanted).firstFailures == |FirstFailed(records, wanted)|
      && MetricsOf(attempts, wanted).firstFallbacks == |FirstFellBack(records, wanted)|
      && MetricsOf(attempts, wanted).retriedRows == |Retried(records, wanted)|
  {
    hide ByRow, Relevant, Latencies, SumOf, P95Index, Sorted, Round4;
    WantedAttempts(records, wanted);
    var byRow: map<Key, seq<Attempt>> := ByRow(Relevant(records, wanted));
    assert (set k: Key | k in wanted && byRow[k][0].error) == FirstFailed(records, wanted);
    assert (set k: Key | k in wanted && byRow[k][0].failed) == FirstFellBack(records, wanted);
    assert (set k: Key | k in wanted && |byRow[k]| > 1) == Retried(records, wanted);
  }

  /** Every wanted row has an attempt, and the ledger is whole. */
  ghost predicate Reportable(c: Codec<Attempt>, ledger: string, rows: seq<Row>) {
    Scan(c, Lines(ledger)).end == Complete && Attempted(RecordsIn(c, ledger), Wanted(rows))
  }

  /** Reports the first attempts of the wanted rows, or which of three things prevents it. */
  method PlannerAttemptMetrics(c: Codec<Attempt>, ledger: string, rows: seq<Row>)
    returns (r: Result<AttemptMetrics, MetricsError>)
    ensures r == Err(LedgerUnreadable) <==> Scan(c, Lines(ledger)).end != Complete
    ensures r.Ok? || r == Err(NoAttempts) <==> Reportable(c, ledger, rows)
    ensures r == Err(NoAttempts) <==> Scan(c, Lines(ledger)).end == Complete && rows == []
    ensures r.Ok? ==> r.value.rows == |Wanted(rows)|
    ensures r.Ok? ==> r.value.attempts == |Relevant(RecordsIn(c, ledger), Wanted(rows))|
    ensures r.Ok? ==> r.value.firstFailures == |FirstFailed(RecordsIn(c, ledger), Wanted(rows))|
    ensures r.Ok? ==> r.value.firstFallbacks == |FirstFellBack(RecordsIn(c, ledger), Wanted(rows))|
    ensures r.Ok? ==> r.value.retriedRows == |Retried(RecordsIn(c, ledger), Wanted(rows))|
    ensures r.Ok? ==> LatencyFigures(r.value, Relevant(RecordsIn(c, ledger), Wanted(rows)))
  {
    hide Lines, Scan, ByRow, Relevant, MetricsOf, FirstFailed, FirstFellBack, Retried, Wanted, LatencyFigures;
    var scan := Scan(c, Lines(ledger));
    if scan.end != Complete {
      return Err(LedgerUnreadable);
    }
    var wanted := Wanted(rows);
    WantedOfRows(rows);
    var attempts := Relevant(scan.records, wanted);
    WantedAttempts(scan.records, wanted);
    var byRow := Group(attempts);
    var missing := wanted - byRow.Keys;
    if missing != {} {
      assert exists k :: k in missing;
      return Err(LedgerIncomplete);
    }
    assert forall k :: k in wanted ==> k in byRow || k in missing;
    if attempts == [] {
      return Err(NoAttempts);
    }
    MetricsAgree(scan.records, wanted);
    MetricsLatency(attempts, wanted);
    r := Ok(MetricsOf(attempts, wanted));
  }

  lemma WantedOfRows(rows: seq<Row>)
    ensures Wanted(rows) == {} <==> rows == []
  {
    if rows != [] {
      assert rows[0] in rows && KeyOf(rows[0]) in Wanted(rows);
    }
  }

  /** Grouping the attempts of the wanted rows gives each of them all its attempts. */
  lemma WantedAttempts(records: seq<Attempt>, wanted: set<Key>)
    ensures var byRow := ByRow(Relevant(records, wanted));
      && (forall k :: k in wanted ==> (k in byRow <==> exists i :: 0 <= i < |records| && records[i].key == k))
      && (forall k :: k in wanted && k in byRow ==> byRow[k] != [] && byRow[k] == Relevant(records, {k}))
    ensures Relevant(records, wanted) == [] <==> forall k :: k in wanted ==> k !in ByRow(Relevant(records, wanted))
  {
    var attempts := Relevant(records, wanted);
    forall k | k in wanted
      ensures k in ByRow(attempts) <==> exists i :: 0 <= i < |records| && records[i].key == k
      ensures k in ByRow(attempts) ==> ByRow(attempts)[k] != [] && ByRow(attempts)[k] == Relevant(records, {k})
    {
      ByRowMeans(attempts, k);
      ByRowMeans(records, k);
      ByRowCounts(attempts, k);
      ByRowCounts(records, k);
      RelevantOfOne(records, wanted, k);
    }
    RelevantAttempts(records, wanted);
    NoRelevant(records, wanted);
  }

  lemma NoRelevant(records: seq<Attempt>, wanted: set<Key>)
    ensures Relevant(records, wanted) == [] <==> forall k :: k in wanted ==> k !in ByRow(Relevant(records, wanted))
  {
    var attempts := Relevant(records, wanted);
    if attempts == [] {
      assert ByRow(attempts) == map[];
    } else {
      RelevantAttempts(records, wanted);
      assert attempts[0] in attempts;
      ByRowMeans(attempts, attempts[0].key);
    }
  }

  /** For the rows of a run that returned on an intact store, every wanted attempt is there. */
  lemma ReturnedRowsAreReportable(c: Codec<Attempt>, ledger: string, plans: map<Key, Item>, rows: seq<Row>)
    requires Healthy(c, ledger) && Covered(plans, RecordsIn(c, ledger)) && AllIn(rows, plans)
    ensures Reportable(c, ledger, rows)
  {
    hide Lines, Scan, Terminated;
    forall k | k in Wanted(rows) ensures k in plans {
      var i :| 0 <= i < |rows| && KeyOf(rows[i]) == k;
    }
  }

  // ---- A ledger whose append was cut ----

  /** The first n characters of a rendering are some whole lines and a piece of the next. */
  lemma {:induction false} CutRendering(c: Codec<Attempt>, attempts: seq<Attempt>, n: nat) returns (whole: nat, m: nat)
    requires n < |Render(c, attempts)|
    ensures whole < |attempts| && m < |Line(c, attempts[whole])|
    ensures Render(c, attempts)[..n] == Render(c, attempts[..whole]) + Line(c, attempts[whole])[..m]
  {
    var line := Line(c, attempts[0]);
    if n < |line| {
      whole, m := 0, n;
      assert Render(c, attempts[..0]) == "";
      assert Render(c, attempts)[..n] == line[..n];
    } else {
      whole, m := CutRendering(c, attempts[1..], n - |line|);
      assert Render(c, attempts)[..n] == line + Render(c, attempts[1..])[..n - |line|];
      assert attempts[..whole + 1][1..] == attempts[1..][..whole];
      RenderFirst(c, attempts[0], attempts[1..][..whole]);
      assert attempts[..whole + 1] == [attempts[0]] + attempts[1..][..whole];
      Associate(line, Render(c, attempts[1..][..whole]), Line(c, attempts[1..][whole])[..m]);
      whole := whole + 1;
    }
  }

  lemma RenderFirst(c: Codec<Attempt>, a: Attempt, rest: seq<Attempt>)
    ensures Render(c, [a] + rest) == Line(c, a) + Render(c, rest)
  {
    assert ([a] + rest)[1..] == rest;
  }

  /** There is no repair for the ledger. After a run was killed while it appended, and a later run appended more,
      the ledger can be read if and only if the cut fell on the end of a line. */
  lemma CutLedgerStaysUnreadable(c: Codec<Attempt>, s: string, attempts: seq<Attempt>, n: nat, q: Attempt,
      more: seq<Attempt>)
    requires Faithful(c) && Healthy(c, s)
    ensures var cut := s + PyTake(Render(c, attempts), n);
      && (Healthy(c, cut) <==> Terminated(cut))
      && (Scan(c, Lines(cut + Render(c, [q] + more))).end == Complete <==> Terminated(cut))
  {
    hide Lines, Scan, Terminated, Faithful;
    if n >= |Render(c, attempts)| {
      HealthyAppends(c, s, attempts);
      HealthyAppends(c, s + Render(c, attempts), [q] + more);
    } else {
      var whole, m := CutRendering(c, attempts, n);
      var base := s + Render(c, attempts[..whole]);
      HealthyAppends(c, s, attempts[..whole]);
      Associate(s, Render(c, attempts[..whole]), Line(c, attempts[whole])[..m]);
      CutLine(c, base, attempts[whole], m, q, more);
    }
  }

  /** After a cut the ledger can still be extended if and only if it ends with a newline. */
  lemma CutHealthy(c: Codec<Attempt>, s: string, attempts: seq<Attempt>, n: nat)
    requires Faithful(c) && Healthy(c, s)
    ensures Healthy(c, s + PyTake(Render(c, attempts), n)) <==> Terminated(s + PyTake(Render(c, attempts), n))
  {
    hide *;
    if attempts == [] {
      NothingRendered(c);
      assert s + "" == s;
      HealthyTerminated(c, s);
    } else {
      CutLedgerStaysUnreadable(c, s, attempts, n, attempts[0], []);
    }
  }

  lemma NothingRendered(c: Codec<Attempt>)
    ensures Render(c, []) == ""
  {
  }

  lemma HealthyTerminated(c: Codec<Attempt>, s: string)
    requires Healthy(c, s)
    ensures Terminated(s)
  {
  }

  lemma CutLine(c: Codec<Attempt>, base: string, a: Attempt, m: nat, q: Attempt, more: seq<Attempt>)
    requires Faithful(c) && Healthy(c, base) && m < |Line(c, a)|
    ensures var cut := base + Line(c, a)[..m];
      && (Healthy(c, cut) <==> Terminated(cut))
      && (Scan(c, Lines(cut + Render(c, [q] + more))).end == Complete <==> Terminated(cut))
  {
    var cut := base + Line(c, a)[..m];
    if m == 0 {
      hide Lines, Scan, Terminated, Faithful, Render, Line;
      assert cut == base;
      HealthyAppends(c, base, [q] + more);
    } else {
      assert Line(c, a)[..m] == c.encode(a)[..m];
      NotTerminated(c, base, a, m);
      hide Lines, Scan, Terminated, Faithful, Line;
      FusedAppend(c, base, a, m, q);
      RenderFirst(c, q, more);
      Associate(cut, Line(c, q), Render(c, more));
      CorruptStays(c, cut + Line(c, q), Render(c, more));
    }
  }

  lemma NotTerminated(c: Codec<Attempt>, base: string, a: Attempt, m: nat)
    requires Faithful(c) && 0 < m <= |c.encode(a)|
    ensures !Terminated(base + c.encode(a)[..m])
  {
    assert (base + c.encode(a)[..m])[|base| + m - 1] == c.encode(a)[m - 1];
    assert c.encode(a)[m - 1] in c.encode(a);
  }

  /** A line that cannot be read stays so, whatever is appended after it. */
  lemma CorruptStays(c: Codec<Attempt>, s: string, more: string)
    requires Terminated(s) && Scan(c, Lines(s)).end == Corrupt
    ensures Scan(c, Lines(s + more)).end == Corrupt
  {
    hide Lines, Scan, Terminated;
    LinesAppend(s, more);
    CorruptScan(c, Lines(s), Lines(more));
  }
}
