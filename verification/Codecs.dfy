/** Encodings that keep what is asked of JSON: for records of any countable kind, and for those that the logs hold. */
module Codecs {
  import opened Support
  import J = JsonLines
  import C = Checkpoint
  import P = PlannerSnapshot
  import U = TokenUsage
  import K = CallJournal

  // ---- Braces around an injective text ----

  /** No braces and no newline. */
  predicate Plain(s: string) {
    '{' !in s && '}' !in s && '\n' !in s
  }

  ghost predicate Injective<R(!new)>(e: R -> string) {
    && (forall r :: Plain(e(r)))
    && (forall r, q :: e(r) == e(q) ==> r == q)
  }

  function Braced(s: string): string {
    "{" + s + "}"
  }

  ghost predicate Encodes<R>(e: R -> string, r: R, s: string) {
    s == Braced(e(r)) || s == Braced(e(r)) + "\n"
  }

  ghost function Decoded<R(!new)>(e: R -> string, s: string): Option<R> {
    if r :| Encodes(e, r, s) then Some(r) else None
  }

  ghost function CodecOf<R(!new)>(e: R -> string): J.Codec<R> {
    J.Codec((r: R) => Braced(e(r)), s => Decoded(e, s))
  }

  lemma BracedLooks(s: string)
    requires Plain(s)
    ensures var b := Braced(s);
      |b| == |s| + 2 && b[0] == '{' && b[|b| - 1] == '}' && '\n' !in b && b[1..|b| - 1] == s
    ensures forall i :: 0 < i < |s| + 2 ==> Braced(s)[i] != '{'
    ensures forall i :: 0 <= i < |s| + 1 ==> Braced(s)[i] != '}'
  {
    var b := Braced(s);
    assert forall i :: 0 < i < |s| + 1 ==> b[i] == s[i - 1];
    assert forall i :: 0 < i < |s| + 1 ==> b[i] in s;
  }

  lemma SameText<R(!new)>(e: R -> string, r: R, q: R, s: string)
    requires Injective(e) && Encodes(e, r, s) && Encodes(e, q, s)
    ensures r == q
  {
    BracedLooks(e(r));
    BracedLooks(e(q));
    assert s[|s| - 1] == '}' || s[|s| - 1] == '\n';
    assert (Braced(e(r)) + "\n")[..|e(r)| + 2] == Braced(e(r));
    assert (Braced(e(q)) + "\n")[..|e(q)| + 2] == Braced(e(q));
  }

  lemma DecodesOwn<R(!new)>(e: R -> string, r: R, s: string)
    requires Injective(e) && Encodes(e, r, s)
    ensures Decoded(e, s) == Some(r)
  {
    SameText(e, r, Decoded(e, s).value, s);
  }

  /** A record has a closing brace and, past its start, no opening one. */
  lemma RecordBraces<R(!new)>(e: R -> string, r: R, s: string, i: nat)
    requires Injective(e) && Encodes(e, r, s) && 0 < i < |s|
    ensures '}' in s && s[i] != '{'
  {
    BracedLooks(e(r));
    var b := Braced(e(r));
    assert s[|b| - 1] == b[|b| - 1];
    assert i < |b| ==> s[i] == b[i];
  }

  lemma NoRecord<R(!new)>(e: R -> string, s: string)
    requires Injective(e)
    requires '}' !in s || exists i :: 0 < i < |s| && s[i] == '{'
    ensures Decoded(e, s) == None
  {
    forall r ensures !Encodes(e, r, s) {
      NotEncoded(e, r, s);
    }
  }

  lemma NotEncoded<R(!new)>(e: R -> string, r: R, s: string)
    requires Injective(e)
    requires '}' !in s || exists i :: 0 < i < |s| && s[i] == '{'
    ensures !Encodes(e, r, s)
  {
    if |s| < 2 {
      BracedLooks(e(r));
    } else {
      var i := if j :| 0 < j < |s| && s[j] == '{' then j else 1;
      if Encodes(e, r, s) {
        hide *;
        RecordBraces(e, r, s, i);
      }
    }
  }

  lemma ProperPiece<R(!new)>(e: R -> string, r: R, n: nat)
    requires Injective(e) && n < |Braced(e(r))|
    ensures '}' !in Braced(e(r))[..n]
  {
    BracedLooks(e(r));
  }

  /** Of several pieces each begins with a brace. */
  lemma BraceInside<R(!new)>(e: R -> string, ps: seq<J.Piece<R>>)
    requires J.Fits(CodecOf(e), ps) && |ps| > 1
    ensures exists i :: 0 < i < |J.Joined(CodecOf(e), ps)| && J.Joined(CodecOf(e), ps)[i] == '{'
  {
    var c := CodecOf(e);
    var front, last := ps[..|ps| - 1], ps[|ps| - 1];
    assert J.Fits(c, front);
    JoinedGrows(c, front);
    assert J.Text(c, last)[0] == '{';
    assert J.Joined(c, ps)[|J.Joined(c, front)|] == '{';
  }

  lemma JoinedGrows<R>(c: J.Codec<R>, ps: seq<J.Piece<R>>)
    requires J.Fits(c, ps)
    ensures |J.Joined(c, ps)| > 0
  {
    assert |J.Text(c, ps[|ps| - 1])| > 0;
  }

  lemma ScrapsDecode<R(!new)>(e: R -> string, ps: seq<J.Piece<R>>)
    requires Injective(e) && J.Scrap(CodecOf(e), ps)
    ensures Decoded(e, J.Joined(CodecOf(e), ps)) == None
    ensures |ps| > 1 ==> Decoded(e, J.Joined(CodecOf(e), ps) + "\n") == None
  {
    var c := CodecOf(e);
    var text := J.Joined(c, ps);
    if |ps| == 1 {
      assert ps == [ps[0]];
      J.JoinedOne(c, ps[0]);
      ProperPiece(e, ps[0].record, ps[0].length);
    } else {
      BraceInside(e, ps);
      var i :| 0 < i < |text| && text[i] == '{';
      assert (text + "\n")[i] == '{';
      NoRecord(e, text + "\n");
    }
    NoRecord(e, text);
  }

  lemma OwnText<R(!new)>(e: R -> string, r: R)
    requires Injective(e)
    ensures var c := CodecOf(e);
      && |c.encode(r)| > 0 && c.encode(r)[0] == '{' && '\n' !in c.encode(r)
      && c.decode(c.encode(r)) == Some(r) && c.decode(c.encode(r) + "\n") == Some(r)
  {
    BracedLooks(e(r));
    DecodesOwn(e, r, Braced(e(r)));
    DecodesOwn(e, r, Braced(e(r)) + "\n");
    hide Injective, Decoded;
  }

  /** What is asked of an encoding is met by any text that tells records apart, put in braces. */
  lemma FaithfulCanBeMet<R(!new)>(e: R -> string)
    requires Injective(e)
    ensures J.Faithful(CodecOf(e))
  {
    var c := CodecOf(e);
    forall r ensures |c.encode(r)| > 0 && c.encode(r)[0] == '{' && '\n' !in c.encode(r)
      && c.decode(c.encode(r)) == Some(r) && c.decode(c.encode(r) + "\n") == Some(r)
    {
      OwnText(e, r);
    }
    forall ps | J.Scrap(c, ps)
      ensures c.decode(J.Joined(c, ps)) == None && (|ps| > 1 ==> c.decode(J.Joined(c, ps) + "\n") == None)
    {
      ScrapsDecode(e, ps);
    }
    hide Injective, Decoded, J.Joined, J.Scrap, Braced;
  }

  // ---- Texts that end by themselves ----

  function NatText(n: nat): string {
    if n == 0 then ";" else "i" + NatText(n - 1)
  }

  function IntText(i: int): string {
    if i < 0 then "-" + NatText(-i) else "+" + NatText(i)
  }

  function BoolText(b: bool): string {
    if b then "t" else "f"
  }

  function StringText(s: string): string {
    if s == "" then "." else "," + (NatText(s[0] as int) + StringText(s[1..]))
  }

  lemma PlainConcat(s: string, t: string)
    requires Plain(s) && Plain(t)
    ensures Plain(s + t)
  {
  }

  lemma {:induction false} PlainNat(n: nat)
    ensures Plain(NatText(n))
  {
    if n > 0 {
      PlainNat(n - 1);
    }
  }

  lemma PlainInt(i: int)
    ensures Plain(IntText(i))
  {
    PlainNat(if i < 0 then -i else i);
  }

  lemma {:induction false} PlainString(s: string)
    ensures Plain(StringText(s))
  {
    if s != "" {
      PlainNat(s[0] as int);
      PlainString(s[1..]);
      hide NatText;
      PlainConcat(NatText(s[0] as int), StringText(s[1..]));
      PlainConcat(",", NatText(s[0] as int) + StringText(s[1..]));
    }
  }

  lemma DropFirst(c: string, a: string, s: string)
    requires |c| == 1
    ensures ((c + a) + s)[0] == c[0] && ((c + a) + s)[1..] == a + s
  {
  }

  lemma {:induction false} SameNat(x: nat, y: nat, s: string, t: string)
    requires NatText(x) + s == NatText(y) + t
    ensures x == y && s == t
  {
    if x > 0 && y > 0 {
      DropFirst("i", NatText(x - 1), s);
      DropFirst("i", NatText(y - 1), t);
      SameNat(x - 1, y - 1, s, t);
    } else {
      NatStarts(x, s);
      NatStarts(y, t);
      assert x == 0 ==> (NatText(x) + s)[1..] == s;
      assert y == 0 ==> (NatText(y) + t)[1..] == t;
    }
  }

  lemma NatStarts(x: nat, s: string)
    ensures (NatText(x) + s)[0] == (if x == 0 then ';' else 'i')
  {
  }

  lemma SameInt(x: int, y: int, s: string, t: string)
    requires IntText(x) + s == IntText(y) + t
    ensures x == y && s == t
  {
    IntStarts(x, s);
    IntStarts(y, t);
    SameNat(if x < 0 then -x else x, if y < 0 then -y else y, s, t);
  }

  lemma IntStarts(x: int, s: string)
    ensures (IntText(x) + s)[0] == (if x < 0 then '-' else '+')
    ensures (IntText(x) + s)[1..] == NatText(if x < 0 then -x else x) + s
  {
    hide NatText;
    DropFirst(if x < 0 then "-" else "+", NatText(if x < 0 then -x else x), s);
  }

  lemma SameBool(x: bool, y: bool, s: string, t: string)
    requires BoolText(x) + s == BoolText(y) + t
    ensures x == y && s == t
  {
    assert (BoolText(x) + s)[0] == (BoolText(y) + t)[0];
    assert (BoolText(x) + s)[1..] == s && (BoolText(y) + t)[1..] == t;
  }

  lemma StringStarts(x: string, s: string)
    ensures (StringText(x) + s)[0] == (if x == "" then '.' else ',')
    ensures (StringText(x) + s)[1..] ==
      if x == "" then s else NatText(x[0] as int) + (StringText(x[1..]) + s)
  {
    hide NatText;
    if x != "" {
      DropFirst(",", NatText(x[0] as int) + StringText(x[1..]), s);
      Associate(NatText(x[0] as int), StringText(x[1..]), s);
    }
  }

  lemma {:induction false} SameString(x: string, y: string, s: string, t: string)
    requires StringText(x) + s == StringText(y) + t
    ensures x == y && s == t
  {
    StringStarts(x, s);
    StringStarts(y, t);
    hide StringText, NatText;
    if x != "" && y != "" {
      SameNat(x[0] as int, y[0] as int, StringText(x[1..]) + s, StringText(y[1..]) + t);
      SameString(x[1..], y[1..], s, t);
      assert x == [x[0]] + x[1..] && y == [y[0]] + y[1..];
    }
  }

  // ---- The records of the logs ----

  function StatusText(status: C.Status): string {
    match status
    case Failed => "f"
    case Success(v) => "s" + (IntText(v.mantissa) + IntText(v.exponent))
  }

  function RecordText(r: C.Record): string {
    StringText(r.fingerprint) + (StringText(r.sampleId) + (StringText(r.metric) + StatusText(r.status)))
  }

  function AttemptText(a: P.Attempt): string {
    StringText(a.key.0) + (StringText(a.key.1) + (IntText(a.latency) + (BoolText(a.failed) + BoolText(a.error))))
  }

  function CountersText(c: U.Counters): string {
    IntText(c.requests) + (IntText(c.input) + (IntText(c.hit) + (IntText(c.miss) + IntText(c.output))))
  }

  function EventText(e: K.Event): string {
    match e
    case Started(call) => "s" + NatText(call)
    case Ended(call, ResponseReceived) => "r" + NatText(call)
    case Ended(call, Unconfirmed) => "u" + NatText(call)
  }

  lemma SameStatus(x: C.Status, y: C.Status)
    requires StatusText(x) == StatusText(y)
    ensures x == y
  {
    hide IntText;
    assert StatusText(x)[0] == StatusText(y)[0];
    if x.Success? {
      assert StatusText(x)[1..] == IntText(x.value.mantissa) + IntText(x.value.exponent);
      assert StatusText(y)[1..] == IntText(y.value.mantissa) + IntText(y.value.exponent);
      SameInt(x.value.mantissa, y.value.mantissa, IntText(x.value.exponent), IntText(y.value.exponent));
      SameInts(x.value.exponent, y.value.exponent);
    }
  }

  lemma SameInts(x: int, y: int)
    requires IntText(x) == IntText(y)
    ensures x == y
  {
    assert IntText(x) + "" == IntText(y) + "";
    SameInt(x, y, "", "");
  }

  lemma PlainStatus(status: C.Status)
    ensures Plain(StatusText(status))
  {
    hide IntText;
    if status.Success? {
      PlainInt(status.value.mantissa);
      PlainInt(status.value.exponent);
      PlainConcat(IntText(status.value.mantissa), IntText(status.value.exponent));
    }
  }

  lemma RecordsAreTold()
    ensures Injective(RecordText)
  {
    hide StringText, StatusText;
    forall r ensures Plain(RecordText(r)) {
      PlainString(r.fingerprint);
      PlainString(r.sampleId);
      PlainString(r.metric);
      PlainStatus(r.status);
      PlainConcat(StringText(r.metric), StatusText(r.status));
      PlainConcat(StringText(r.sampleId), StringText(r.metric) + StatusText(r.status));
    }
    forall r, q | RecordText(r) == RecordText(q) ensures r == q {
      SameRecord(r, q);
    }
  }

  lemma SameRecord(r: C.Record, q: C.Record)
    requires RecordText(r) == RecordText(q)
    ensures r == q
  {
    hide StringText, StatusText;
    var r1, q1 := StringText(r.metric) + StatusText(r.status), StringText(q.metric) + StatusText(q.status);
    SameString(r.fingerprint, q.fingerprint, StringText(r.sampleId) + r1, StringText(q.sampleId) + q1);
    SameString(r.sampleId, q.sampleId, r1, q1);
    SameString(r.metric, q.metric, StatusText(r.status), StatusText(q.status));
    SameStatus(r.status, q.status);
  }

  lemma AttemptsAreTold()
    ensures Injective(AttemptText)
  {
    hide StringText, IntText;
    forall a ensures Plain(AttemptText(a)) {
      PlainString(a.key.0);
      PlainString(a.key.1);
      PlainInt(a.latency);
      PlainConcat(IntText(a.latency), BoolText(a.failed) + BoolText(a.error));
      PlainConcat(StringText(a.key.1), IntText(a.latency) + (BoolText(a.failed) + BoolText(a.error)));
    }
    forall a, b | AttemptText(a) == AttemptText(b) ensures a == b {
      SameAttempt(a, b);
    }
  }

  lemma SameAttempt(a: P.Attempt, b: P.Attempt)
    requires AttemptText(a) == AttemptText(b)
    ensures a == b
  {
    hide StringText, IntText;
    var a1, b1 := BoolText(a.failed) + BoolText(a.error), BoolText(b.failed) + BoolText(b.error);
    var a2, b2 := IntText(a.latency) + a1, IntText(b.latency) + b1;
    SameString(a.key.0, b.key.0, StringText(a.key.1) + a2, StringText(b.key.1) + b2);
    SameString(a.key.1, b.key.1, a2, b2);
    SameInt(a.latency, b.latency, a1, b1);
    SameBool(a.failed, b.failed, BoolText(a.error), BoolText(b.error));
  }

  lemma CountersAreTold()
    ensures Injective(CountersText)
  {
    hide IntText;
    forall c ensures Plain(CountersText(c)) {
      PlainInt(c.requests);
      PlainInt(c.input);
      PlainInt(c.hit);
      PlainInt(c.miss);
      PlainInt(c.output);
      PlainConcat(IntText(c.miss), IntText(c.output));
      PlainConcat(IntText(c.hit), IntText(c.miss) + IntText(c.output));
    }
    forall c, d | CountersText(c) == CountersText(d) ensures c == d {
      SameCounters(c, d);
    }
  }

  lemma SameCounters(c: U.Counters, d: U.Counters)
    requires CountersText(c) == CountersText(d)
    ensures c == d
  {
    hide IntText;
    var c1, d1 := IntText(c.miss) + IntText(c.output), IntText(d.miss) + IntText(d.output);
    var c2, d2 := IntText(c.hit) + c1, IntText(d.hit) + d1;
    SameInt(c.requests, d.requests, IntText(c.input) + c2, IntText(d.input) + d2);
    SameInt(c.input, d.input, c2, d2);
    SameInt(c.hit, d.hit, c1, d1);
    SameInt(c.miss, d.miss, IntText(c.output), IntText(d.output));
    SameInts(c.output, d.output);
  }

  lemma EventsAreTold()
    ensures Injective(EventText)
  {
    hide NatText;
    forall e ensures Plain(EventText(e)) {
      PlainNat(e.call);
    }
    forall e, f | EventText(e) == EventText(f) ensures e == f {
      assert EventText(e)[0] == EventText(f)[0];
      assert EventText(e)[1..] == NatText(e.call) && EventText(f)[1..] == NatText(f.call);
      assert NatText(e.call) + "" == NatText(f.call) + "";
      SameNat(e.call, f.call, "", "");
    }
  }

  /**
    * Checkpoint records, planner attempts, usage counters and journal events all have a text of the kind
    * that is asked of JSON.
    */
  lemma LogsCanBeFaithful()
    ensures exists c: J.Codec<C.Record> :: J.Faithful(c)
    ensures exists c: J.Codec<P.Attempt> :: J.Faithful(c)
    ensures exists c: J.Codec<U.Counters> :: J.Faithful(c)
    ensures exists c: J.Codec<K.Event> :: J.Faithful(c)
  {
    hide *;
    RecordsAreTold();
    FaithfulCanBeMet(RecordText);
    AttemptsAreTold();
    FaithfulCanBeMet(AttemptText);
    CountersAreTold();
    FaithfulCanBeMet(CountersText);
    EventsAreTold();
    FaithfulCanBeMet(EventText);
  }
}
