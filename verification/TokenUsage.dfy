/** Counters of judge tokens, replayed from and appended to a usage log, and the cost estimated from them. */
module TokenUsage {
  import opened Support
  import opened Rounding
  import opened JsonLines
  import L = LogFiles

  datatype Counters = Counters(requests: int, input: int, hit: int, miss: int, output: int)

  /** The usage object of a response; each number may be missing. */
  datatype Usage = Usage(prompt: Option<int>, hit: Option<int>, miss: Option<int>, completion: Option<int>)

  datatype OpenError = CorruptLog | UnknownPayment

  datatype Pricing = Pricing(hit: real, miss: real, output: real)

  datatype Summary = Summary(counters: Counters, cost: Option<real>)

  const ZERO := Counters(0, 0, 0, 0, 0)

  function Plus(a: Counters, b: Counters): Counters {
    Counters(a.requests + b.requests, a.input + b.input, a.hit + b.hit, a.miss + b.miss, a.output + b.output)
  }

  function Minus(a: Counters, b: Counters): Counters {
    Counters(a.requests - b.requests, a.input - b.input, a.hit - b.hit, a.miss - b.miss, a.output - b.output)
  }

  function Total(cs: seq<Counters>): Counters {
    if cs == [] then ZERO else Plus(Total(cs[..|cs| - 1]), cs[|cs| - 1])
  }

  function OrZero(n: Option<int>): int {
    match n case None => 0 case Some(v) => v
  }

  /** What one response adds. */
  function Counted(usage: Option<Usage>): Counters {
    match usage
    case None => Counters(1, 0, 0, 0, 0)
    case Some(u) => Counters(1, OrZero(u.prompt), OrZero(u.hit), OrZero(u.miss), OrZero(u.completion))
  }

  function CountedAll(usages: seq<Option<Usage>>): seq<Counters> {
    seq(|usages|, i requires 0 <= i < |usages| => Counted(usages[i]))
  }

  // ---- Cost ----

  function PricingOf(model: string): (p: Option<Pricing>)
    ensures p.Some? ==> p.value.miss > 0.0 && p.value.hit > 0.0 && p.value.output > 0.0
  {
    if model == "deepseek-v4-flash" then Some(Pricing(0.0028, 0.14, 0.28))
    else if model == "deepseek-v4-pro" then Some(Pricing(0.003625, 0.435, 0.87))
    else None
  }

  /** Input tokens that no cache counter accounts for; negative when the cache counters exceed the input. */
  function Slack(c: Counters): int {
    c.input - c.hit - c.miss
  }

  function Uncategorized(c: Counters): nat {
    if Slack(c) > 0 then Slack(c) else 0
  }

  function Product(n: int, price: real): real {
    n as real * price
  }

  /** Micro-dollars. */
  function Price(c: Counters, p: Pricing): real {
    Product(c.hit, p.hit) + Product(c.miss + Uncategorized(c), p.miss) + Product(c.output, p.output)
  }

  function Round6(x: real): real {
    Nearest(x * 1000000.0) as real / 1000000.0
  }

  function SummaryOf(now: Counters, since: Counters, model: string): Summary {
    var c := Minus(now, since);
    Summary(c, match PricingOf(model) case None => None case Some(p) => Some(Round6(Price(c, p) / 1000000.0)))
  }

  // ---- The log ----

  function ReplayResult(c: Codec<Counters>, file: Option<string>, repair: bool): Result<Counters, OpenError> {
    match file
    case None => Ok(ZERO)
    case Some(s) =>
      var scan := Scan(c, Lines(s));
      if scan.end == Corrupt then Err(CorruptLog)
      else if scan.end == Torn && !repair then Err(UnknownPayment)
      else Ok(Total(scan.records))
  }

  function FileAfterReplay(c: Codec<Counters>, file: Option<string>, repair: bool): Option<string> {
    match file
    case None => None
    case Some(s) => if repair && Scan(c, Lines(s)).end == Torn then Some(WithoutLastLine(s)) else file
  }

  lemma TotalSnoc(cs: seq<Counters>, c: Counters)
    ensures Total(cs + [c]) == Plus(Total(cs), c)
  {
    assert (cs + [c])[..|cs|] == cs;
  }

  lemma AppendKeepsTotal(c: Codec<Counters>, s: string, e: Counters)
    requires Faithful(c) && Terminated(s) && Scan(c, Lines(s)).end == Complete
    ensures Terminated(s + Line(c, e)) && Scan(c, Lines(s + Line(c, e))).end == Complete
    ensures Total(RecordsIn(c, s + Line(c, e))) == Plus(Total(RecordsIn(c, s)), e)
  {
    hide Scan, Lines, Terminated, Faithful, Total;
    AppendRecord(c, s, e);
    TotalSnoc(RecordsIn(c, s), e);
  }

  function TextOf(file: Option<string>): string {
    match file case None => "" case Some(s) => s
  }

  class Ledger {
    const codec: Codec<Counters>
    const tracked: bool
    var requests: int
    var input: int
    var hit: int
    var miss: int
    var output: int
    var file: Option<string>

    constructor (codec: Codec<Counters>, tracked: bool, file: Option<string>)
      ensures this.codec == codec && this.tracked == tracked && this.file == file && Now() == ZERO
    {
      this.codec, this.tracked, this.file := codec, tracked, file;
      requests, input, hit, miss, output := 0, 0, 0, 0, 0;
    }

    function Now(): Counters
      reads this
    {
      Counters(requests, input, hit, miss, output)
    }

    /** The counters are those the log restores, and the next append starts on a new line. */
    ghost predicate Valid()
      reads this
    {
      tracked ==>
        && Terminated(TextOf(file)) && Scan(codec, Lines(TextOf(file))).end == Complete
        && Now() == Total(RecordsIn(codec, TextOf(file)))
    }

    method Apply(c: Counters)
      modifies this`requests, this`input, this`hit, this`miss, this`output
      ensures Now() == Plus(old(Now()), c)
    {
      requests := requests + c.requests;
      input := input + c.input;
      hit := hit + c.hit;
      miss := miss + c.miss;
      output := output + c.output;
    }

    /** Restores the counters of the log; a terminated log is then in step with them. */
    method Replay(repair: bool) returns (r: Result<Counters, OpenError>)
      requires tracked && Now() == ZERO
      modifies this
      ensures r == ReplayResult(codec, old(file), repair)
      ensures file == FileAfterReplay(codec, old(file), repair)
      ensures r.Ok? ==> Now() == r.value
      ensures r.Ok? ==> (Valid() <==> Terminated(TextOf(file)))
    {
      NothingToRead(codec);
      assert Total([]) == ZERO;
      if file.None? {
        return Ok(ZERO);
      }
      hide Lines, Total, Concat, Scan, ReadSoFar, Terminated, Blank;
      var lines := Lines(file.value);
      ghost var read: seq<Counters> := [];
      ReadStart(codec, lines);
      var index := 0;
      while index < |lines|
        invariant 0 <= index <= |lines| && file == old(file)
        invariant Now() == Total(read) && ReadSoFar(codec, lines, index, read)
      {
        ReadLine(codec, lines, index, read);
        if !Blank(lines[index]) {
          var decoded := codec.decode(lines[index]);
          if decoded.None? {
            if index < |lines| - 1 || Terminated(lines[index]) {
              return Err(CorruptLog);
            }
            if !repair {
              return Err(UnknownPayment);
            }
            TornLogHeals(codec, file.value);
            file := Some(Concat(lines[..index]));
            return Ok(Now());
          }
          Apply(decoded.value);
          TotalSnoc(read, decoded.value);
          read := read + [decoded.value];
        }
        index := index + 1;
      }
      ReadEnd(codec, lines, read);
      return Ok(Now());
    }

    /** Counts a response and appends it; a failing append leaves only the first characters of its line. */
    method Record(usage: Option<Usage>, written: nat) returns (ok: bool)
      modifies this
      ensures Now() == Plus(old(Now()), Counted(usage))
      ensures requests == old(requests) + 1
      ensures input == old(input) + if usage.Some? && usage.value.prompt.Some? then usage.value.prompt.value else 0
      ensures hit == old(hit) + if usage.Some? && usage.value.hit.Some? then usage.value.hit.value else 0
      ensures miss == old(miss) + if usage.Some? && usage.value.miss.Some? then usage.value.miss.value else 0
      ensures output
           == old(output) + if usage.Some? && usage.value.completion.Some? then usage.value.completion.value else 0
      ensures ok == (tracked ==> written >= |Line(codec, Counted(usage))|)
      ensures !tracked ==> file == old(file)
      ensures tracked ==> file == Some(TextOf(old(file)) + PyTake(Line(codec, Counted(usage)), written))
      ensures old(Valid()) && Faithful(codec) && ok ==> Valid()
    {
      var event := Counted(usage);
      hide Scan, Terminated, Lines, Total, Faithful, Line;
      Apply(event);
      if !tracked {
        return true;
      }
      var line := Line(codec, event);
      if old(Valid()) && Faithful(codec) {
        AppendKeepsTotal(codec, TextOf(file), event);
      }
      file := Some(TextOf(file) + PyTake(line, written));
      return written >= |line|;
    }

    method Snapshot() returns (c: Counters)
      ensures c == Now()
    {
      c := Counters(requests, input, hit, miss, output);
    }

    /** The counters since a snapshot, which added to the snapshot give those of now, and their cost: none for a model
        without a price, and never negative for counters that grew. */
    method Summarize(model: string, since: Option<Counters>) returns (s: Summary)
      ensures Plus(if since.Some? then since.value else ZERO, s.counters) == Now()
      ensures s.cost.Some? <==> PricingOf(model).Some?
      ensures s.cost.Some? && NonNegative(s.counters) ==> s.cost.value >= 0.0
      ensures s == SummaryOf(Now(), if since.Some? then since.value else ZERO, model)
    {
      var now := Snapshot();
      s := SummaryOf(now, if since.Some? then since.value else ZERO, model);
      if s.cost.Some? && NonNegative(s.counters) {
        PriceNonNegative(s.counters, PricingOf(model).value);
        RoundedNonNegative(Price(s.counters, PricingOf(model).value) / 1000000.0);
      }
      hide Price, Round6;
    }
  }

  predicate NonNegative(c: Counters) {
    c.requests >= 0 && c.input >= 0 && c.hit >= 0 && c.miss >= 0 && c.output >= 0
  }

  lemma PriceNonNegative(c: Counters, p: Pricing)
    requires NonNegative(c) && p.hit > 0.0 && p.miss > 0.0 && p.output > 0.0
    ensures Price(c, p) >= 0.0
  {
    ProductSign(c.hit, p.hit);
    ProductSign(c.miss + Uncategorized(c), p.miss);
    ProductSign(c.output, p.output);
    hide Product, Uncategorized;
  }

  lemma RoundedNonNegative(x: real)
    requires x >= 0.0
    ensures Round6(x) >= 0.0
  {
    assert Nearest(x * 1000000.0) >= 0;
  }

  /** What counters cost: cached input, other input, for which input that no counter accounts for is taken as well, and
      output, each at its price. */
  function Cost(c: Counters, hit: real, miss: real, output: real): real {
    var rest := c.input - c.hit - c.miss;
    c.hit as real * hit + (if rest > 0 then c.miss + rest else c.miss) as real * miss + c.output as real * output
  }

  /** The estimate in dollars, to six decimals, at the prices of the two models per million tokens. */
  lemma CostOfModel(now: Counters, since: Counters, model: string)
    ensures var s := SummaryOf(now, since, model);
      && (model == "deepseek-v4-flash" ==> s.cost == Some(Round6(Cost(s.counters, 0.0028, 0.14, 0.28) / 1000000.0)))
      && (model == "deepseek-v4-pro" ==> s.cost == Some(Round6(Cost(s.counters, 0.003625, 0.435, 0.87) / 1000000.0)))
      && (s.cost.Some? <==> model == "deepseek-v4-flash" || model == "deepseek-v4-pro")
  {
    var c := Minus(now, since);
    assert "deepseek-v4-flash"[12] != "deepseek-v4-pro"[12];
    CostIsPrice(c, Pricing(0.0028, 0.14, 0.28));
    CostIsPrice(c, Pricing(0.003625, 0.435, 0.87));
    hide Round6, Price, Cost;
  }

  lemma CostIsPrice(c: Counters, p: Pricing)
    ensures Price(c, p) == Cost(c, p.hit, p.miss, p.output)
  {
  }

  /** Rounding to six decimals: to the nearest millionth, and to the even one of two. */
  lemma Round6Means(x: real) returns (n: int)
    ensures Round6(x) == n as real / 1000000.0
    ensures x * 1000000.0 - 0.5 <= n as real <= x * 1000000.0 + 0.5
    ensures n as real == x * 1000000.0 + 0.5 || n as real == x * 1000000.0 - 0.5 ==> n % 2 == 0
  {
    n := Nearest(x * 1000000.0);
  }

  // ---- Replaying what was recorded ----

  /** Totals grow field by field. */
  lemma TotalFields(cs: seq<Counters>, c: Counters)
    ensures var before, after := Total(cs), Total(cs + [c]);
      && after.requests == before.requests + c.requests && after.input == before.input + c.input
      && after.hit == before.hit + c.hit && after.miss == before.miss + c.miss
      && after.output == before.output + c.output
    ensures Total([]) == Counters(0, 0, 0, 0, 0)
  {
    TotalSnoc(cs, c);
  }

  lemma {:induction false} TotalConcat(a: seq<Counters>, b: seq<Counters>)
    ensures Total(a + b) == Plus(Total(a), Total(b))
  {
    if b == [] {
      assert a + b == a;
    } else {
      TotalConcat(a, b[..|b| - 1]);
      TotalSnoc(a + b[..|b| - 1], b[|b| - 1]);
      assert a + b == (a + b[..|b| - 1]) + [b[|b| - 1]];
    }
  }

  lemma {:induction false} RequestsCounted(usages: seq<Option<Usage>>)
    ensures Total(CountedAll(usages)).requests == |usages|
  {
    if usages != [] {
      var n := |usages| - 1;
      RequestsCounted(usages[..n]);
      assert CountedAll(usages)[..n] == CountedAll(usages[..n]);
    }
  }

  /** Whatever the log held before, replaying it after any sequence of recorded responses gives the counters of
      then plus those of the responses: exactly the counters a process that recorded them holds. */
  lemma ReplayRestores(c: Codec<Counters>, s: string, usages: seq<Option<Usage>>, repair: bool)
    requires Faithful(c) && Terminated(s) && Scan(c, Lines(s)).end == Complete
    ensures ReplayResult(c, Some(s + Render(c, CountedAll(usages))), repair)
         == Ok(Plus(Total(RecordsIn(c, s)), Total(CountedAll(usages))))
    ensures Total(CountedAll(usages)).requests == |usages|
  {
    hide Scan, Lines, Terminated, Faithful, Total, CountedAll, Render;
    RequestsCounted(usages);
    RenderAppends(c, s, CountedAll(usages));
    TotalConcat(RecordsIn(c, s), CountedAll(usages));
  }

  /** A response whose append was cut inside its record is refused, or dropped together with the cut text. */
  lemma TornResponseIsDropped(c: Codec<Counters>, s: string, usage: Option<Usage>, n: nat)
    requires Faithful(c) && Terminated(s) && Scan(c, Lines(s)).end == Complete && 0 < n < |c.encode(Counted(usage))|
    ensures var file := Some(s + c.encode(Counted(usage))[..n]);
      && ReplayResult(c, file, false) == Err(UnknownPayment) && FileAfterReplay(c, file, false) == file
      && ReplayResult(c, file, true) == Ok(Total(RecordsIn(c, s))) && FileAfterReplay(c, file, true) == Some(s)
  {
    hide Scan, Lines, Terminated, Faithful, Total, Concat;
    CutAppend(c, s, Counted(usage), n);
  }

  // ---- Whole histories ----

  /** A response whose line arrives up to some character, or a log that is opened anew. */
  datatype Event = Recorded(usage: Option<Usage>, written: nat) | Reopened(repair: bool)

  function TextAfterEvent(c: Codec<Counters>, s: string, e: Event): string {
    match e
    case Recorded(usage, written) => s + PyTake(Line(c, Counted(usage)), written)
    case Reopened(repair) => TextOf(FileAfterReplay(c, Some(s), repair))
  }

  function TextAfter(c: Codec<Counters>, history: seq<Event>): string {
    if history == [] then "" else TextAfterEvent(c, TextAfter(c, history[..|history| - 1]), history[|history| - 1])
  }

  predicate Whole(c: Codec<Counters>, e: Event) {
    e.Recorded? && e.written >= |Line(c, Counted(e.usage))|
  }

  /** The responses whose line arrived whole. */
  function Finished(c: Codec<Counters>, history: seq<Event>): seq<Counters> {
    if history == [] then []
    else
      var e := history[|history| - 1];
      Finished(c, history[..|history| - 1]) + if Whole(c, e) then [Counted(e.usage)] else []
  }

  function ShapeAfterEvent(c: Codec<Counters>, f: L.File<Counters>, e: Event): L.File<Counters> {
    match e
    case Recorded(usage, written) => L.Grown(c, f, [Counted(usage)], written)
    case Reopened(repair) => if repair then L.Repaired(f) else f
  }

  /** What a history leaves: the records a replay finds, and how the log ends. */
  function ShapeAfter(c: Codec<Counters>, history: seq<Event>): L.File<Counters> {
    if history == [] then L.File([], L.Clean)
    else ShapeAfterEvent(c, ShapeAfter(c, history[..|history| - 1]), history[|history| - 1])
  }

  /** A line arrived whole in a log that did not end with a newline. */
  ghost predicate Fuses(c: Codec<Counters>, history: seq<Event>) {
    exists i :: 0 <= i < |history| && FusesAt(c, history, i)
  }

  ghost predicate FusesAt(c: Codec<Counters>, history: seq<Event>, i: nat)
    requires i < |history|
  {
    Whole(c, history[i]) && !Terminated(TextAfter(c, history[..i]))
  }

  lemma OneLineText(c: Codec<Counters>, r: Counters)
    ensures Render(c, [r]) == Line(c, r)
  {
    assert [r][1..] == [];
  }

  lemma EventShows(c: Codec<Counters>, s: string, f: L.File<Counters>, e: Event)
    requires Faithful(c) && L.Represents(c, s, f)
    ensures L.Represents(c, TextAfterEvent(c, s, e), ShapeAfterEvent(c, f, e))
  {
    hide L.Represents, Faithful, Scan, Lines, Render, Line, WithoutLastLine, L.Grown, PyTake;
    match e
    case Recorded(usage, written) =>
      OneLineText(c, Counted(usage));
      L.LinesGrow(c, s, f, [Counted(usage)], written);
    case Reopened(_) => L.ReadText(c, s, f);
  }

  lemma {:induction false} HistoryShows(c: Codec<Counters>, history: seq<Event>)
    requires Faithful(c)
    ensures L.Represents(c, TextAfter(c, history), ShapeAfter(c, history))
  {
    if history != [] {
      var n := |history| - 1;
      HistoryShows(c, history[..n]);
      hide L.Represents, Faithful, TextAfterEvent, ShapeAfterEvent;
      EventShows(c, TextAfter(c, history[..n]), ShapeAfter(c, history[..n]), history[n]);
    }
  }

  lemma EventTail(c: Codec<Counters>, f: L.File<Counters>, e: Event)
    ensures var g := ShapeAfterEvent(c, f, e);
      && (g.tail == L.Corrupt <==> f.tail == L.Corrupt || (Whole(c, e) && f.tail != L.Clean))
      && (g.tail != L.Corrupt ==>
            L.Secured(g) == L.Secured(f) + if Whole(c, e) then [Counted(e.usage)] else [])
  {
    hide Counted, L.Grown;
    if e.Recorded? {
      L.GrownByOne(c, f, Counted(e.usage), e.written);
      assert (f.records + [Counted(e.usage)])[..|f.records|] == f.records;
    }
  }

  lemma FusesFront(c: Codec<Counters>, history: seq<Event>)
    requires history != []
    ensures var n := |history| - 1; Fuses(c, history) <==> Fuses(c, history[..n]) || FusesAt(c, history, n)
  {
    hide TextAfter, Terminated, Whole;
    var n := |history| - 1;
    forall i | 0 <= i < n ensures FusesAt(c, history, i) <==> FusesAt(c, history[..n], i) {
      assert history[..n][..i] == history[..i];
    }
  }

  lemma {:induction false} ShapeIsFinished(c: Codec<Counters>, history: seq<Event>)
    requires Faithful(c)
    ensures var f := ShapeAfter(c, history);
      && (f.tail == L.Corrupt <==> Fuses(c, history))
      && (f.tail != L.Corrupt ==> L.Secured(f) == Finished(c, history))
  {
    hide Faithful, Fuses, Terminated, ShapeAfterEvent, Whole, Counted;
    if history == [] {
      NothingFuses(c);
    } else {
      var n := |history| - 1;
      ShapeIsFinished(c, history[..n]);
      EventTail(c, ShapeAfter(c, history[..n]), history[n]);
      FusesFront(c, history);
      HistoryShows(c, history[..n]);
      L.TailShows(c, TextAfter(c, history[..n]), ShapeAfter(c, history[..n]));
    }
  }

  lemma NothingFuses(c: Codec<Counters>)
    ensures !Fuses(c, [])
  {
  }

  /** After any history the log is corrupt if and only if some line arrived whole in a log that did not end with a
      newline. Until then a replay counts every line that arrived whole, and a last record that lost only its
      newline. */
  lemma HistoryReplays(c: Codec<Counters>, history: seq<Event>, repair: bool)
    requires Faithful(c)
    ensures var r, f := ReplayResult(c, Some(TextAfter(c, history)), repair), ShapeAfter(c, history);
      && (r == Err(CorruptLog) <==> Fuses(c, history))
      && (r == Err(UnknownPayment) <==> f.tail == L.Torn && !repair)
      && (r.Ok? ==> r.value == Total(f.records) && L.Secured(f) == Finished(c, history))
  {
    HistoryShows(c, history);
    ShapeIsFinished(c, history);
    hide Faithful, Fuses, L.Represents, Total, Scan, Lines, TextAfter, ShapeAfter, Finished, L.Secured;
    L.ReadText(c, TextAfter(c, history), ShapeAfter(c, history));
  }

  // ---- Intervals ----

  function Intervals(snapshots: seq<Counters>): seq<Counters>
    requires snapshots != []
  {
    seq(|snapshots| - 1, i requires 0 <= i < |snapshots| - 1 => Minus(snapshots[i + 1], snapshots[i]))
  }

  lemma {:induction false} IntervalsTelescope(snapshots: seq<Counters>)
    requires snapshots != []
    ensures Total(Intervals(snapshots)) == Minus(snapshots[|snapshots| - 1], snapshots[0])
  {
    if |snapshots| > 1 {
      var n := |snapshots| - 1;
      IntervalsTelescope(snapshots[..n]);
      assert Intervals(snapshots)[..n - 1] == Intervals(snapshots[..n]);
    }
  }

  /** The summaries of consecutive intervals add up, field by field, to the summary of the whole. */
  lemma SummariesTelescope(snapshots: seq<Counters>, model: string)
    requires snapshots != []
    ensures forall i :: 0 <= i < |snapshots| - 1 ==>
      SummaryOf(snapshots[i + 1], snapshots[i], model).counters == Intervals(snapshots)[i]
    ensures Total(Intervals(snapshots)) == SummaryOf(snapshots[|snapshots| - 1], snapshots[0], model).counters
  {
    hide Round6, Price, Total, Minus, PricingOf;
    IntervalsTelescope(snapshots);
  }

  // ---- Cost of a run and of its requests ----

  function TotalPrice(cs: seq<Counters>, p: Pricing): real {
    if cs == [] then 0.0 else TotalPrice(cs[..|cs| - 1], p) + Price(cs[|cs| - 1], p)
  }

  function TotalUncategorized(cs: seq<Counters>): nat {
    if cs == [] then 0 else TotalUncategorized(cs[..|cs| - 1]) + Uncategorized(cs[|cs| - 1])
  }

  /** The cache counters counted in excess of the input. */
  function TotalExcess(cs: seq<Counters>): nat {
    if cs == [] then 0
    else
      var slack := Slack(cs[|cs| - 1]);
      TotalExcess(cs[..|cs| - 1]) + if slack < 0 then -slack else 0
  }

  lemma ProductAdds(m: int, n: int, price: real)
    ensures Product(m + n, price) == Product(m, price) + Product(n, price)
  {
  }

  lemma ProductSign(n: nat, price: real)
    requires price > 0.0
    ensures Product(n, price) >= 0.0 && (Product(n, price) == 0.0 <==> n == 0)
  {
    if n > 0 {
      assert n as real >= 1.0;
      ProductMonotone(1.0, n as real, price);
    }
  }

  lemma PriceAdds(a: Counters, b: Counters, p: Pricing)
    ensures Price(Plus(a, b), p) + Product(Uncategorized(a) + Uncategorized(b) - Uncategorized(Plus(a, b)), p.miss)
         == Price(a, p) + Price(b, p)
  {
    hide Product;
    var u, v, w := Uncategorized(a), Uncategorized(b), Uncategorized(Plus(a, b));
    ProductAdds(a.hit, b.hit, p.hit);
    ProductAdds(a.output, b.output, p.output);
    ProductAdds(a.miss + u, b.miss + v, p.miss);
    ProductAdds(a.miss + b.miss + w, u + v - w, p.miss);
  }

  lemma ProductOfZero(price: real)
    ensures Product(0, price) == 0.0
  {
  }

  lemma PriceOfZero(p: Pricing)
    ensures Price(ZERO, p) == 0.0
  {
    hide Product, Uncategorized;
    var c := ZERO;
    assert Uncategorized(c) == 0 by { UncategorizedOfZero(); }
    assert c.hit == 0 && c.miss + Uncategorized(c) == 0 && c.output == 0;
    ProductOfZero(p.hit);
    ProductOfZero(p.miss);
    ProductOfZero(p.output);
  }

  lemma UncategorizedOfZero()
    ensures Uncategorized(ZERO) == 0
  {
  }

  lemma NothingCosts(p: Pricing)
    ensures Price(ZERO, p) + Product(0 - Uncategorized(ZERO), p.miss) == 0.0
  {
    hide *;
    UncategorizedOfZero();
    PriceOfZero(p);
    ProductOfZero(p.miss);
  }

  lemma PriceGapStep(front: seq<Counters>, last: Counters, p: Pricing)
    requires TotalPrice(front, p) == Price(Total(front), p)
             + Product(TotalUncategorized(front) - Uncategorized(Total(front)), p.miss)
    ensures TotalPrice(front, p) + Price(last, p) == Price(Plus(Total(front), last), p)
            + Product(TotalUncategorized(front) + Uncategorized(last) - Uncategorized(Plus(Total(front), last)), p.miss)
  {
    hide Price, Product, Uncategorized, Total, TotalPrice, TotalUncategorized, Plus;
    var whole := Uncategorized(Plus(Total(front), last));
    PriceAdds(Total(front), last, p);
    ProductAdds(TotalUncategorized(front) - Uncategorized(Total(front)),
                Uncategorized(Total(front)) + Uncategorized(last) - whole, p.miss);
  }

  lemma {:induction false} PriceGap(cs: seq<Counters>, p: Pricing)
    ensures TotalPrice(cs, p) == Price(Total(cs), p)
                                 + Product(TotalUncategorized(cs) - Uncategorized(Total(cs)), p.miss)
  {
    hide Price, Product, Uncategorized, Plus;
    if cs == [] {
      NothingCosts(p);
    } else {
      var front := cs[..|cs| - 1];
      PriceGap(front, p);
      PriceGapStep(front, cs[|cs| - 1], p);
    }
  }

  lemma {:induction false} SlackOfTotal(cs: seq<Counters>)
    ensures Slack(Total(cs)) == TotalUncategorized(cs) - TotalExcess(cs)
  {
    if cs != [] {
      SlackOfTotal(cs[..|cs| - 1]);
    }
  }

  ghost predicate NoExcess(cs: seq<Counters>) {
    forall i :: 0 <= i < |cs| ==> Slack(cs[i]) >= 0
  }

  ghost predicate NoRemainder(cs: seq<Counters>) {
    forall i :: 0 <= i < |cs| ==> Slack(cs[i]) <= 0
  }

  lemma SignsSnoc(cs: seq<Counters>)
    requires cs != []
    ensures NoExcess(cs) <==> NoExcess(cs[..|cs| - 1]) && Slack(cs[|cs| - 1]) >= 0
    ensures NoRemainder(cs) <==> NoRemainder(cs[..|cs| - 1]) && Slack(cs[|cs| - 1]) <= 0
  {
    var front := cs[..|cs| - 1];
    assert forall i :: 0 <= i < |front| ==> front[i] == cs[i];
    assert forall i :: 0 <= i < |cs| ==> cs[i] == if i < |front| then front[i] else cs[|cs| - 1];
  }

  lemma {:induction false} SignsOfSlack(cs: seq<Counters>)
    ensures TotalUncategorized(cs) == 0 <==> NoRemainder(cs)
    ensures TotalExcess(cs) == 0 <==> NoExcess(cs)
  {
    if cs != [] {
      SignsSnoc(cs);
      hide NoRemainder, NoExcess;
      SignsOfSlack(cs[..|cs| - 1]);
    }
  }

  /** A whole run never costs more than its requests one by one, and exactly as much if and only if no request
      left input uncategorised while another counted more cache tokens than input. */
  lemma WholeRunCost(cs: seq<Counters>, p: Pricing)
    requires p.miss > 0.0
    ensures Price(Total(cs), p) <= TotalPrice(cs, p)
    ensures Price(Total(cs), p) == TotalPrice(cs, p) <==>
      NoExcess(cs) || NoRemainder(cs)
  {
    hide NoRemainder, NoExcess, Total, TotalPrice, TotalUncategorized, TotalExcess, Price, Product;
    PriceGap(cs, p);
    SlackOfTotal(cs);
    SignsOfSlack(cs);
    var gap := TotalUncategorized(cs) - Uncategorized(Total(cs));
    assert gap >= 0 && (gap == 0 <==> TotalUncategorized(cs) == 0 || TotalExcess(cs) == 0);
    ProductSign(gap, p.miss);
  }
}
