/** Append-only logs of one JSON record per line, and what a cut-off last append leaves behind. */
module JsonLines {
  import opened Support

  /** How a record is written and read. A blank or malformed text decodes to None. */
  datatype Codec<!R> = Codec(encode: R -> string, decode: string -> Option<R>)

  /** The first characters of an encoded record, as an append that was cut leaves them. */
  datatype Piece<R> = Piece(record: R, length: nat)

  ghost predicate Fits<R>(c: Codec<R>, ps: seq<Piece<R>>) {
    ps != [] && forall i :: 0 <= i < |ps| ==> 0 < ps[i].length <= |c.encode(ps[i].record)|
  }

  function Text<R>(c: Codec<R>, p: Piece<R>): string {
    if p.length <= |c.encode(p.record)| then c.encode(p.record)[..p.length] else c.encode(p.record)
  }

  /** What appends that were cut, one after the other, leave in one line. */
  function Joined<R>(c: Codec<R>, ps: seq<Piece<R>>): string {
    if ps == [] then "" else Joined(c, ps[..|ps| - 1]) + Text(c, ps[|ps| - 1])
  }

  /** More than one piece, or a piece that is not a whole record. */
  ghost predicate Scrap<R>(c: Codec<R>, ps: seq<Piece<R>>) {
    Fits(c, ps) && (|ps| > 1 || ps[0].length < |c.encode(ps[0].record)|)
  }

  /** What the JSON encoding of an object guarantees: it starts with a brace, holds no newline and reads back; a
      proper piece of it, or pieces of several objects in one line, are not JSON. */
  ghost predicate Faithful<R(!new)>(c: Codec<R>) {
    && (forall r :: |c.encode(r)| > 0 && c.encode(r)[0] == '{' && '\n' !in c.encode(r))
    && (forall r :: c.decode(c.encode(r)) == Some(r) && c.decode(c.encode(r) + "\n") == Some(r))
    && (forall ps :: Scrap(c, ps) ==> c.decode(Joined(c, ps)) == None)
    && (forall ps :: Scrap(c, ps) && |ps| > 1 ==> c.decode(Joined(c, ps) + "\n") == None)
  }

  lemma JoinedOne<R>(c: Codec<R>, p: Piece<R>)
    ensures Joined(c, [p]) == Text(c, p)
  {
    assert [p][..0] == [];
  }

  lemma JoinedSnoc<R>(c: Codec<R>, ps: seq<Piece<R>>, p: Piece<R>)
    ensures Joined(c, ps + [p]) == Joined(c, ps) + Text(c, p)
  {
    assert (ps + [p])[..|ps|] == ps;
  }

  /** A line of pieces starts with a brace and has no newline. */
  lemma {:induction false} JoinedLooks<R(!new)>(c: Codec<R>, ps: seq<Piece<R>>)
    requires Faithful(c) && Fits(c, ps)
    ensures |Joined(c, ps)| > 0 && Joined(c, ps)[0] == '{' && '\n' !in Joined(c, ps)
  {
    var front, last := ps[..|ps| - 1], ps[|ps| - 1];
    var piece := Text(c, last);
    assert piece[0] == c.encode(last.record)[0];
    assert forall k :: 0 <= k < |piece| ==> piece[k] == c.encode(last.record)[k];
    if front != [] {
      JoinedLooks(c, front);
    }
  }

  // ---- Splitting into lines ----

  function FirstNewline(s: string): (i: nat)
    ensures i <= |s| && '\n' !in s[..i] && (i < |s| ==> s[i] == '\n')
    ensures i == |s| <==> '\n' !in s
  {
    if s == "" || s[0] == '\n' then 0 else 1 + FirstNewline(s[1..])
  }

  /** splitlines(keepends=True), with the newline as the only separator. */
  function Lines(s: string): seq<string>
    decreases |s|
  {
    if s == "" then []
    else
      var i := FirstNewline(s);
      if i == |s| then [s] else [s[..i + 1]] + Lines(s[i + 1..])
  }

  function Concat(lines: seq<string>): string {
    if lines == [] then "" else lines[0] + Concat(lines[1..])
  }

  predicate Terminated(s: string) {
    s == "" || s[|s| - 1] == '\n'
  }

  lemma {:induction false} FirstNewlineAt(s: string, i: nat)
    requires i < |s| && s[i] == '\n' && '\n' !in s[..i]
    ensures FirstNewline(s) == i
  {
    if i > 0 {
      assert s[..i][0] == s[0] && s[..i][1..] == s[1..][..i - 1];
      FirstNewlineAt(s[1..], i - 1);
    }
  }

  /** What follows a text does not move its first line. */
  lemma SameFirstLine(s: string, t: string)
    requires '\n' in s
    ensures var i := FirstNewline(s);
      i < |s| && FirstNewline(s + t) == i && (s + t)[..i + 1] == s[..i + 1] && (s + t)[i + 1..] == s[i + 1..] + t
  {
    var i := FirstNewline(s);
    assert (s + t)[..i] == s[..i];
    FirstNewlineAt(s + t, i);
  }

  lemma FirstLine(s: string)
    requires '\n' in s
    ensures var i := FirstNewline(s); i < |s| && Lines(s) == [s[..i + 1]] + Lines(s[i + 1..])
  {
    assert s != "";
    hide FirstNewline;
  }

  lemma TerminatedRest(s: string, i: nat)
    requires Terminated(s) && s != "" && i == FirstNewline(s)
    ensures i < |s| && Terminated(s[i + 1..]) && '\n' in s
  {
    assert s[|s| - 1] in s;
  }

  lemma Prepend(first: string, a: seq<string>, b: seq<string>)
    ensures [first] + (a + b) == ([first] + a) + b
  {
  }

  lemma NoLines()
    ensures Lines("") == []
  {
  }

  lemma AppendToNothing(s: string, t: string)
    requires s == ""
    ensures Lines(s + t) == Lines(s) + Lines(t)
  {
    hide Lines;
    NoLines();
    assert s + t == t;
  }

  lemma AppendToFirstLine(s: string, t: string)
    requires '\n' in s
    requires var rest := s[FirstNewline(s) + 1..]; Lines(rest + t) == Lines(rest) + Lines(t)
    ensures Lines(s + t) == Lines(s) + Lines(t)
  {
    hide Lines;
    SameFirstLine(s, t);
    FirstLine(s);
    FirstLine(s + t);
    var i := FirstNewline(s);
    Prepend(s[..i + 1], Lines(s[i + 1..]), Lines(t));
  }

  /** A terminated text contributes its own lines, whatever follows it. */
  lemma {:induction false} LinesAppend(s: string, t: string)
    requires Terminated(s)
    ensures Lines(s + t) == Lines(s) + Lines(t)
    decreases |s|
  {
    hide Lines;
    if s == "" {
      AppendToNothing(s, t);
    } else {
      var i := FirstNewline(s);
      TerminatedRest(s, i);
      LinesAppend(s[i + 1..], t);
      AppendToFirstLine(s, t);
    }
  }

  lemma NoNewline(s: string)
    requires '\n' !in s && s != ""
    ensures Lines(s) == [s]
  {
    assert FirstNewline(s) == |s|;
  }

  lemma OneLine(s: string)
    requires '\n' !in s
    ensures Lines(s + "\n") == [s + "\n"]
  {
    var t := s + "\n";
    assert t[..|s|] == s;
    FirstNewlineAt(t, |s|);
    assert t[..|s| + 1] == t && t[|s| + 1..] == "";
  }

  lemma ConcatFirst(first: string, lines: seq<string>)
    ensures Concat([first] + lines) == first + Concat(lines)
  {
    assert ([first] + lines)[1..] == lines;
  }

  lemma RebuildOne(s: string)
    requires '\n' !in s
    ensures Concat(Lines(s)) == s
  {
    if s != "" {
      NoNewline(s);
      hide Lines;
      var one: seq<string> := [s];
      assert one[1..] == [];
    }
  }

  lemma {:induction false} LinesRebuild(s: string)
    ensures Concat(Lines(s)) == s
    decreases |s|
  {
    hide Lines, Concat;
    if '\n' in s {
      FirstLine(s);
      var i := FirstNewline(s);
      LinesRebuild(s[i + 1..]);
      ConcatFirst(s[..i + 1], Lines(s[i + 1..]));
      assert s[..i + 1] + s[i + 1..] == s;
    } else {
      RebuildOne(s);
    }
  }

  lemma ConcatTerminated(s: string, t: string)
    requires Terminated(s) && Terminated(t)
    ensures Terminated(s + t)
  {
  }

  /** Every text is a terminated body followed by a tail without newline. */
  lemma {:induction false} Split(s: string) returns (body: string, tail: string)
    ensures s == body + tail && Terminated(body) && '\n' !in tail
    decreases |s|
  {
    var i := FirstNewline(s);
    if i == |s| {
      body, tail := "", s;
    } else {
      var first := s[..i + 1];
      assert first[i] == '\n';
      body, tail := Split(s[i + 1..]);
      ConcatTerminated(first, body);
      assert s == first + s[i + 1..];
      assert s == (first + body) + tail;
      body := first + body;
    }
  }

  /** The log without its last line, if that line has no newline, is its terminated body. */
  lemma RepairKeepsBody(s: string, body: string, tail: string)
    requires s == body + tail && Terminated(body) && '\n' !in tail && tail != ""
    ensures Lines(s) == Lines(body) + [tail] && Concat(Lines(s)[..|Lines(s)| - 1]) == body
  {
    LinesAppend(body, tail);
    NoNewline(tail);
    LinesRebuild(body);
    assert Lines(s)[..|Lines(body)|] == Lines(body);
  }

  // ---- Reading the records ----

  datatype End = Complete | Torn | Corrupt

  datatype Scanned<R> = Scanned(records: seq<R>, end: End)

  predicate Blank(line: string) {
    forall i :: 0 <= i < |line| ==> line[i] in " \t\n\r"
  }

  /** Decodes line by line; stops at the first line that does not decode. Such a line is a torn tail only
      when it is the last one and has no newline. */
  function Scan<R>(c: Codec<R>, lines: seq<string>): Scanned<R> {
    if lines == [] then Scanned<R>.Scanned([], Complete)
    else if Blank(lines[0]) then Scan(c, lines[1..])
    else
      match c.decode(lines[0])
      case None => Scanned<R>.Scanned([], if |lines| == 1 && !Terminated(lines[0]) then Torn else Corrupt)
      case Some(r) =>
        var rest := Scan(c, lines[1..]);
        Scanned<R>.Scanned([r] + rest.records, rest.end)
  }

  lemma {:induction false} ScanAppend<R>(c: Codec<R>, a: seq<string>, b: seq<string>)
    requires Scan(c, a).end == Complete
    ensures Scan(c, a + b) == Scanned(Scan(c, a).records + Scan(c, b).records, Scan(c, b).end)
  {
    if a == [] {
      assert a + b == b;
    } else {
      assert (a + b)[1..] == a[1..] + b;
      ScanAppend(c, a[1..], b);
    }
  }

  /** Cutting a torn tail off leaves a complete log with the same records. */
  lemma {:induction false} ScanWithoutTail<R>(c: Codec<R>, lines: seq<string>)
    requires Scan(c, lines).end == Torn
    ensures lines != [] && Scan(c, lines[..|lines| - 1]) == Scanned(Scan(c, lines).records, Complete)
    ensures !Terminated(lines[|lines| - 1])
  {
    if Blank(lines[0]) || c.decode(lines[0]).Some? {
      ScanWithoutTail(c, lines[1..]);
      assert lines[..|lines| - 1][1..] == lines[1..][..|lines| - 2];
    }
  }

  /** The text of a record as it is appended. */
  function Line<R>(c: Codec<R>, r: R): string {
    c.encode(r) + "\n"
  }

  function Render<R>(c: Codec<R>, rs: seq<R>): string {
    if rs == [] then "" else Line(c, rs[0]) + Render(c, rs[1..])
  }

  lemma ScanLine<R(!new)>(c: Codec<R>, r: R)
    requires Faithful(c)
    ensures Lines(Line(c, r)) == [Line(c, r)] && Scan(c, Lines(Line(c, r))) == Scanned([r], Complete)
  {
    var line := Line(c, r);
    OneLine(c.encode(r));
    assert line[0] == '{' && !Blank(line);
    var one: seq<string> := [line];
    assert one[1..] == [];
    assert c.decode(line) == Some(r);
  }

  /** Appending to a terminated, complete log adds exactly the appended record. */
  lemma AppendRecord<R(!new)>(c: Codec<R>, s: string, r: R)
    requires Faithful(c) && Terminated(s) && Scan(c, Lines(s)).end == Complete
    ensures Terminated(s + Line(c, r))
    ensures Scan(c, Lines(s + Line(c, r))) == Scanned(Scan(c, Lines(s)).records + [r], Complete)
  {
    LinesAppend(s, Line(c, r));
    ScanLine(c, r);
    ScanAppend(c, Lines(s), Lines(Line(c, r)));
  }

  lemma PrependRecord<R(!new)>(c: Codec<R>, r: R, s: string)
    requires Faithful(c) && Terminated(s) && Scan(c, Lines(s)).end == Complete
    ensures Terminated(Line(c, r) + s)
    ensures Scan(c, Lines(Line(c, r) + s)) == Scanned([r] + Scan(c, Lines(s)).records, Complete)
  {
    ConcatTerminated(Line(c, r), s);
    hide Lines, Scan, Terminated;
    ScanLine(c, r);
    LinesAppend(Line(c, r), s);
    ScanAppend(c, Lines(Line(c, r)), Lines(s));
  }

  lemma {:induction false} ScanRendered<R(!new)>(c: Codec<R>, rs: seq<R>)
    requires Faithful(c)
    ensures Terminated(Render(c, rs)) && Scan(c, Lines(Render(c, rs))) == Scanned(rs, Complete)
  {
    if rs != [] {
      hide Lines, Scan, Terminated, Faithful;
      ScanRendered(c, rs[1..]);
      PrependRecord(c, rs[0], Render(c, rs[1..]));
      assert [rs[0]] + rs[1..] == rs;
    }
  }

  /** How a line of scraps reads on its own. */
  lemma ScanScrap<R(!new)>(c: Codec<R>, ps: seq<Piece<R>>)
    requires Faithful(c) && Scrap(c, ps)
    ensures var line := Joined(c, ps);
      '\n' !in line && line != "" && !Terminated(line) && Scan(c, [line]) == Scanned([], Torn)
  {
    var line := Joined(c, ps);
    JoinedLooks(c, ps);
    assert !Blank(line);
    assert line[|line| - 1] in line;
  }

  lemma WholeLine<R(!new)>(c: Codec<R>, r: R)
    requires Faithful(c)
    ensures !Blank(c.encode(r)) && !Terminated(c.encode(r)) && c.decode(c.encode(r)) == Some(r)
  {
    var text := c.encode(r);
    assert text[0] == '{';
    assert text[|text| - 1] in text;
  }

  /** How a cut-off line of n characters reads on its own. */
  lemma ScanPiece<R(!new)>(c: Codec<R>, r: R, n: nat)
    requires Faithful(c) && 0 < n <= |c.encode(r)|
    ensures var piece := c.encode(r)[..n];
      && '\n' !in piece && piece != "" && !Terminated(piece)
      && Scan(c, [piece]) == if n < |c.encode(r)| then Scanned([], Torn) else Scanned([r], Complete)
  {
    var piece := c.encode(r)[..n];
    var ps := [Piece(r, n)];
    JoinedOne(c, ps[0]);
    JoinedLooks(c, ps);
    if n < |c.encode(r)| {
      ScanScrap(c, ps);
    } else {
      assert piece == c.encode(r);
      WholeLine(c, r);
      var one: seq<string> := [piece];
      assert one[1..] == [];
    }
  }

  /** What a terminated, complete log reads as after its next append is cut to n characters. */
  lemma CutAppend<R(!new)>(c: Codec<R>, s: string, r: R, n: nat)
    requires Faithful(c) && Terminated(s) && Scan(c, Lines(s)).end == Complete && 0 < n <= |c.encode(r)|
    ensures var records := Scan(c, Lines(s)).records;
      Scan(c, Lines(s + c.encode(r)[..n])) ==
        if n < |c.encode(r)| then Scanned(records, Torn) else Scanned(records + [r], Complete)
    ensures Lines(s + c.encode(r)[..n]) == Lines(s) + [c.encode(r)[..n]]
    ensures Concat(Lines(s + c.encode(r)[..n])[..|Lines(s + c.encode(r)[..n])| - 1]) == s
  {
    var piece := c.encode(r)[..n];
    ScanPiece(c, r, n);
    RepairKeepsBody(s + piece, s, piece);
    ScanAppend(c, Lines(s), [piece]);
  }

  /** A line that starts with a brace and does not decode makes a log corrupt when it ends with a newline. */
  lemma ScanBadLine<R>(c: Codec<R>, text: string)
    requires '\n' !in text && text != "" && text[0] == '{' && c.decode(text + "\n") == None
    ensures Lines(text + "\n") == [text + "\n"] && Scan(c, Lines(text + "\n")) == Scanned([], Corrupt)
  {
    OneLine(text);
    var line := text + "\n";
    assert line[0] == '{' && !Blank(line);
    assert line[|line| - 1] == '\n';
  }

  lemma FusedScraps<R(!new)>(c: Codec<R>, ps: seq<Piece<R>>, q: R)
    requires Faithful(c) && Fits(c, ps)
    ensures var line := Joined(c, ps) + c.encode(q) + "\n";
      Lines(line) == [line] && Scan(c, Lines(line)) == Scanned([], Corrupt)
  {
    var last := Piece(q, |c.encode(q)|);
    var all := ps + [last];
    JoinedSnoc(c, ps, last);
    assert Text(c, last) == c.encode(q);
    JoinedLooks(c, all);
    assert Scrap(c, all);
    var fused := Joined(c, all);
    assert c.decode(fused + "\n") == None;
    hide Joined, Lines, Scan, Faithful, Scrap, Fits, Text;
    ScanBadLine(c, fused);
  }

  lemma FusedLine<R(!new)>(c: Codec<R>, r: R, n: nat, q: R)
    requires Faithful(c) && 0 < n <= |c.encode(r)|
    ensures var line := c.encode(r)[..n] + c.encode(q) + "\n";
      Lines(line) == [line] && Scan(c, Lines(line)) == Scanned([], Corrupt)
  {
    var ps := [Piece(r, n)];
    JoinedOne(c, ps[0]);
    FusedScraps(c, ps, q);
  }

  /** An append after a record that lost its newline, or more, fuses the two into a line that is not JSON. */
  lemma FusedAppend<R(!new)>(c: Codec<R>, s: string, r: R, n: nat, q: R)
    requires Faithful(c) && Terminated(s) && Scan(c, Lines(s)).end == Complete && 0 < n <= |c.encode(r)|
    ensures Scan(c, Lines(s + c.encode(r)[..n] + Line(c, q))) == Scanned(Scan(c, Lines(s)).records, Corrupt)
  {
    hide Lines, Scan, Terminated, Faithful;
    var line := c.encode(r)[..n] + c.encode(q) + "\n";
    assert s + c.encode(r)[..n] + Line(c, q) == s + line;
    FusedLine(c, r, n, q);
    LinesAppend(s, line);
    ScanAppend(c, Lines(s), Lines(line));
  }

  // ---- Files of records ----

  function RecordsIn<R>(c: Codec<R>, s: string): seq<R> {
    Scan(c, Lines(s)).records
  }

  lemma RenderSnoc<R>(c: Codec<R>, rs: seq<R>, r: R)
    ensures Render(c, rs + [r]) == Render(c, rs) + Line(c, r)
  {
    if rs == [] {
      assert [r][1..] == [];
      assert rs + [r] == [r];
    } else {
      RenderSnoc(c, rs[1..], r);
      assert (rs + [r])[1..] == rs[1..] + [r] && (rs + [r])[0] == rs[0];
    }
  }

  function WithoutLastLine(s: string): string {
    var lines := Lines(s);
    if lines == [] then "" else Concat(lines[..|lines| - 1])
  }

  /** The records of the first lines have been read and the rest is still to come. */
  ghost predicate ReadSoFar<R>(c: Codec<R>, lines: seq<string>, index: nat, read: seq<R>)
    requires index <= |lines|
  {
    var rest := Scan(c, lines[index..]);
    Scan(c, lines) == Scanned(read + rest.records, rest.end)
  }

  lemma ReadStart<R>(c: Codec<R>, lines: seq<string>)
    ensures ReadSoFar(c, lines, 0, [])
  {
    assert lines[0..] == lines;
  }

  lemma ReadLine<R>(c: Codec<R>, lines: seq<string>, index: nat, read: seq<R>)
    requires index < |lines| && ReadSoFar(c, lines, index, read)
    ensures Blank(lines[index]) ==> ReadSoFar(c, lines, index + 1, read)
    ensures !Blank(lines[index]) && c.decode(lines[index]).Some? ==>
      ReadSoFar(c, lines, index + 1, read + [c.decode(lines[index]).value])
    ensures !Blank(lines[index]) && c.decode(lines[index]).None? ==>
      Scan(c, lines) ==
        Scanned(read, if index == |lines| - 1 && !Terminated(lines[index]) then Torn else Corrupt)
  {
    hide Blank, Terminated;
    var rest := lines[index..];
    assert rest[0] == lines[index] && rest[1..] == lines[index + 1..];
    if !Blank(lines[index]) && c.decode(lines[index]).Some? {
      var tail := Scan(c, rest[1..]).records;
      var r := c.decode(lines[index]).value;
      assert read + ([r] + tail) == (read + [r]) + tail;
    }
  }

  lemma ReadEnd<R>(c: Codec<R>, lines: seq<string>, read: seq<R>)
    requires ReadSoFar(c, lines, |lines|, read)
    ensures Scan(c, lines) == Scanned(read, Complete)
  {
  }

  lemma FirstLineTerminated(s: string, i: nat)
    requires i == FirstNewline(s) && i < |s|
    ensures Terminated(s[..i + 1])
  {
    hide FirstNewline;
  }

  lemma {:induction false} LastLineTerminated(s: string)
    requires Terminated(s) && s != ""
    ensures Lines(s) != [] && Terminated(Lines(s)[|Lines(s)| - 1])
    decreases |s|
  {
    hide *;
    var i := FirstNewline(s);
    TerminatedRest(s, i);
    FirstLine(s);
    FirstLineTerminated(s, i);
    if s[i + 1..] == "" {
      NoLines();
    } else {
      LastLineTerminated(s[i + 1..]);
    }
  }

  /** Whatever a torn log holds, removing its last line leaves a terminated, complete log of the same records. */
  lemma TornLogHeals<R>(c: Codec<R>, s: string)
    requires Scan(c, Lines(s)).end == Torn
    ensures Terminated(WithoutLastLine(s))
    ensures Scan(c, Lines(WithoutLastLine(s))) == Scanned(RecordsIn(c, s), Complete)
  {
    ScanWithoutTail(c, Lines(s));
    hide Lines, Scan, Terminated, Concat;
    var body, tail := Split(s);
    if tail == "" {
      assert s == body;
      NoLines();
      LastLineTerminated(s);
      assert false;
    }
    RepairKeepsBody(s, body, tail);
    assert (Lines(body) + [tail])[..|Lines(body)|] == Lines(body);
  }

  lemma NothingToRead<R>(c: Codec<R>)
    ensures Lines("") == [] && Scan(c, Lines("")) == Scanned([], Complete) && Terminated("")
  {
  }

  /** Appending the lines of several records to a terminated, complete log adds exactly these records. */
  lemma RenderAppends<R(!new)>(c: Codec<R>, s: string, rs: seq<R>)
    requires Faithful(c) && Terminated(s) && Scan(c, Lines(s)).end == Complete
    ensures Terminated(s + Render(c, rs))
      && Scan(c, Lines(s + Render(c, rs))) == Scanned(RecordsIn(c, s) + rs, Complete)
  {
    ScanRendered(c, rs);
    ConcatTerminated(s, Render(c, rs));
    hide Scan, Lines, Terminated, Faithful;
    LinesAppend(s, Render(c, rs));
    ScanAppend(c, Lines(s), Lines(Render(c, rs)));
  }

  /** Whatever follows lines that cannot be read, the log stays corrupt with the same records. */
  lemma {:induction false} CorruptScan<R>(c: Codec<R>, a: seq<string>, b: seq<string>)
    requires Scan(c, a).end == Corrupt
    ensures Scan(c, a + b) == Scan(c, a)
  {
    assert (a + b)[1..] == a[1..] + b && (a + b)[0] == a[0];
    if Blank(a[0]) || c.decode(a[0]).Some? {
      CorruptScan(c, a[1..], b);
    }
  }
}
