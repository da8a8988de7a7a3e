/** Append-only files of records as bytes: what whole appends, appends that were cut at any byte, and repairs make
    of them, in four kinds of ending. */
module LogFiles {
  import opened Support
  import opened Utf8
  import J = JsonLines

  /** How a file ends: with a newline; in the middle of a record; after a record without its newline; or in a way
      that no load gets past, now or after any further append. */
  datatype Tail = Clean | Torn | NoNewline | Corrupt

  datatype File<R> = File(records: seq<R>, tail: Tail)

  /** Where an append stopped: between two characters of the record, right before its newline, or inside a
      character. */
  datatype Cut = InRecord | AtNewline | InCharacter

  /** The records that no later append can take with it. */
  function Secured<R>(f: File<R>): seq<R> {
    if f.tail == NoNewline && f.records != [] then f.records[..|f.records| - 1] else f.records
  }

  /** A full line: after a line without newline it is fused with it into a line that cannot be read. */
  function WithRecord<R>(f: File<R>, r: R): File<R> {
    if f.tail == Clean then File(f.records + [r], Clean) else File(Secured(f), Corrupt)
  }

  /** An append that was cut. After a line without newline it makes that line unreadable, the record in it included,
      but it still counts as a torn tail. */
  function WithPiece<R>(f: File<R>, r: R, cut: Cut): File<R> {
    if cut == InCharacter then File(Secured(f), Corrupt)
    else
      match f.tail
      case Clean => if cut == AtNewline then File(f.records + [r], NoNewline) else f.(tail := Torn)
      case NoNewline => File(Secured(f), Torn)
      case Torn => f
      case Corrupt => f
  }

  /** Dropping a torn last line. */
  function Repaired<R>(f: File<R>): File<R> {
    if f.tail == Torn then f.(tail := Clean) else f
  }

  // ---- The text of a file ----

  /** A text and what it is taken for. A torn tail may consist of several cut appends. */
  ghost predicate Represents<R(!new)>(c: J.Codec<R>, s: string, f: File<R>) {
    match f.tail
    case Clean => s == J.Render(c, f.records)
    case NoNewline =>
      f.records != [] &&
      var n := |f.records| - 1;
      s == J.Render(c, f.records[..n]) + c.encode(f.records[n])
    case Torn => exists ps :: J.Scrap(c, ps) && s == J.Render(c, f.records) + J.Joined(c, ps)
    case Corrupt => exists body, more :: s == body + more && Spoiled(c, body, f.records)
  }

  ghost predicate Spoiled<R>(c: J.Codec<R>, s: string, records: seq<R>) {
    J.Terminated(s) && J.Scan(c, J.Lines(s)) == J.Scanned(records, J.End.Corrupt)
  }

  lemma SpoiledByLine<R(!new)>(c: J.Codec<R>, records: seq<R>, ps: seq<J.Piece<R>>, r: R)
    requires J.Faithful(c) && J.Fits(c, ps)
    ensures Spoiled(c, J.Render(c, records) + J.Joined(c, ps) + J.Line(c, r), records)
  {
    var body, scraps, text := J.Render(c, records), J.Joined(c, ps), c.encode(r);
    J.ScanRendered(c, records);
    J.FusedScraps(c, ps, r);
    LineEnds(body, scraps, text, J.Line(c, r));
    EndsWithNewline(body + scraps + text);
    hide *;
    var line := scraps + text + "\n";
    J.LinesAppend(body, line);
    J.ScanAppend(c, J.Lines(body), J.Lines(line));
    NothingRead(records);
    IsSpoiled(c, body + line, records);
  }

  lemma NothingRead<R>(records: seq<R>)
    ensures records + [] == records
  {
  }

  lemma IsSpoiled<R>(c: J.Codec<R>, s: string, records: seq<R>)
    requires J.Terminated(s) && J.Scan(c, J.Lines(s)) == J.Scanned(records, J.End.Corrupt)
    ensures Spoiled(c, s, records)
  {
  }

  lemma LineEnds(a: string, b: string, c: string, line: string)
    requires line == c + "\n"
    ensures a + b + line == a + (b + c + "\n") && a + b + line == a + b + c + "\n"
  {
  }

  lemma EndsWithNewline(s: string)
    ensures J.Terminated(s + "\n")
  {
  }

  lemma WholeIsPiece<R(!new)>(c: J.Codec<R>, r: R)
    requires J.Faithful(c)
    ensures J.Fits(c, [J.Piece(r, |c.encode(r)|)]) && J.Joined(c, [J.Piece(r, |c.encode(r)|)]) == c.encode(r)
  {
    J.JoinedOne(c, J.Piece(r, |c.encode(r)|));
  }

  lemma ScrapGrows<R(!new)>(c: J.Codec<R>, ps: seq<J.Piece<R>>, p: J.Piece<R>)
    requires J.Fits(c, ps) && 0 < p.length <= |c.encode(p.record)|
    ensures J.Scrap(c, ps + [p]) && J.Joined(c, ps + [p]) == J.Joined(c, ps) + c.encode(p.record)[..p.length]
  {
    J.JoinedSnoc(c, ps, p);
  }

  lemma Corrupted<R(!new)>(c: J.Codec<R>, s: string, records: seq<R>)
    requires Spoiled(c, s, records)
    ensures Represents(c, s, File(records, Corrupt))
  {
    assert s == s + "";
  }

  lemma CorruptGrows<R(!new)>(c: J.Codec<R>, s: string, f: File<R>, t: string)
    requires f.tail == Corrupt && Represents(c, s, f)
    ensures Represents(c, s + t, f)
  {
    hide Spoiled;
    var body, more :| s == body + more && Spoiled(c, body, f.records);
    Associate(body, more, t);
    assert s + t == body + (more + t);
  }

  /** Appending a line to the text is a full append to the file. */
  lemma AppendLine<R(!new)>(c: J.Codec<R>, s: string, f: File<R>, r: R)
    requires J.Faithful(c) && Represents(c, s, f)
    ensures Represents(c, s + J.Line(c, r), WithRecord(f, r))
  {
    hide J.Faithful, J.Fits, J.Joined, J.Render, Spoiled;
    match f.tail
    case Clean => J.RenderSnoc(c, f.records, r);
    case NoNewline =>
      var n := |f.records| - 1;
      var last := f.records[n];
      WholeIsPiece(c, last);
      SpoiledByLine(c, f.records[..n], [J.Piece(last, |c.encode(last)|)], r);
      Corrupted(c, s + J.Line(c, r), f.records[..n]);
    case Torn =>
      var ps :| J.Scrap(c, ps) && s == J.Render(c, f.records) + J.Joined(c, ps);
      SpoiledByLine(c, f.records, ps, r);
      Corrupted(c, s + J.Line(c, r), f.records);
    case Corrupt => CorruptGrows(c, s, f, J.Line(c, r));
  }

  lemma AppendToUnterminated<R(!new)>(c: J.Codec<R>, records: seq<R>, last: R, r: R, n: nat)
    requires J.Faithful(c) && 0 < n <= |c.encode(r)|
    ensures Represents(c, J.Render(c, records) + c.encode(last) + c.encode(r)[..n], File(records, Torn))
  {
    hide J.Faithful, J.Joined, J.Render;
    var whole, p := J.Piece(last, |c.encode(last)|), J.Piece(r, n);
    WholeIsPiece(c, last);
    ScrapGrows(c, [whole], p);
    Associate(J.Render(c, records), c.encode(last), c.encode(r)[..n]);
    assert J.Render(c, records) + c.encode(last) + c.encode(r)[..n]
         == J.Render(c, records) + J.Joined(c, [whole] + [p]);
  }

  lemma AppendToTorn<R(!new)>(c: J.Codec<R>, s: string, f: File<R>, r: R, n: nat)
    requires f.tail == Torn && Represents(c, s, f) && 0 < n <= |c.encode(r)|
    ensures Represents(c, s + c.encode(r)[..n], f)
  {
    hide J.Joined, J.Render;
    var ps :| J.Scrap(c, ps) && s == J.Render(c, f.records) + J.Joined(c, ps);
    ScrapGrows(c, ps, J.Piece(r, n));
    Associate(J.Render(c, f.records), J.Joined(c, ps), c.encode(r)[..n]);
    assert s + c.encode(r)[..n] == J.Render(c, f.records) + J.Joined(c, ps + [J.Piece(r, n)]);
  }

  lemma AppendToClean<R(!new)>(c: J.Codec<R>, records: seq<R>, r: R, n: nat)
    requires J.Faithful(c) && 0 < n <= |c.encode(r)|
    ensures Represents(c, J.Render(c, records) + c.encode(r)[..n],
                       WithPiece(File(records, Clean), r, if n == |c.encode(r)| then AtNewline else InRecord))
  {
    hide J.Faithful, J.Joined, J.Render;
    if n == |c.encode(r)| {
      assert c.encode(r)[..n] == c.encode(r) && (records + [r])[..|records|] == records;
    } else {
      var p := J.Piece(r, n);
      J.JoinedOne(c, p);
      assert J.Scrap(c, [p]) && J.Joined(c, [p]) == c.encode(r)[..n];
    }
  }

  /** Appending the first characters of a record is a cut append to the file. */
  lemma AppendPiece<R(!new)>(c: J.Codec<R>, s: string, f: File<R>, r: R, n: nat)
    requires J.Faithful(c) && Represents(c, s, f) && 0 < n <= |c.encode(r)|
    ensures Represents(c, s + c.encode(r)[..n], WithPiece(f, r, if n == |c.encode(r)| then AtNewline else InRecord))
  {
    hide J.Faithful, J.Joined, J.Render, J.Scrap, Spoiled;
    match f.tail
    case Clean => AppendToClean(c, f.records, r, n);
    case NoNewline =>
      var k := |f.records| - 1;
      AppendToUnterminated(c, f.records[..k], f.records[k], r, n);
    case Torn => AppendToTorn(c, s, f, r, n);
    case Corrupt => CorruptGrows(c, s, f, c.encode(r)[..n]);
  }

  function EndOf(tail: Tail): J.End {
    match tail
    case Clean | NoNewline => J.End.Complete
    case Torn => J.End.Torn
    case Corrupt => J.End.Corrupt
  }

  /** Reading the text finds the records and the end of the file, and dropping the last line of a torn text is its
      repair. */
  lemma ReadText<R(!new)>(c: J.Codec<R>, s: string, f: File<R>)
    requires J.Faithful(c) && Represents(c, s, f)
    ensures J.Scan(c, J.Lines(s)) == J.Scanned(f.records, EndOf(f.tail))
    ensures f.tail == Torn ==> Represents(c, J.WithoutLastLine(s), Repaired(f))
  {
    hide J.Faithful, J.Joined, J.Render, J.Scrap, J.Lines, J.Scan, J.Terminated;
    match f.tail
    case Clean => J.ScanRendered(c, f.records);
    case NoNewline =>
      var n := |f.records| - 1;
      ReadUnterminated(c, f.records[..n], f.records[n]);
      assert f.records == f.records[..n] + [f.records[n]];
    case Torn =>
      var ps :| J.Scrap(c, ps) && s == J.Render(c, f.records) + J.Joined(c, ps);
      ReadTorn(c, f.records, ps);
    case Corrupt =>
      var body, more :| s == body + more && Spoiled(c, body, f.records);
      J.LinesAppend(body, more);
      J.CorruptScan(c, J.Lines(body), J.Lines(more));
  }

  lemma ReadUnterminated<R(!new)>(c: J.Codec<R>, records: seq<R>, r: R)
    requires J.Faithful(c)
    ensures J.Scan(c, J.Lines(J.Render(c, records) + c.encode(r))) == J.Scanned(records + [r], J.End.Complete)
  {
    var n := |c.encode(r)|;
    assert n > 0 && c.encode(r)[..n] == c.encode(r);
    hide J.Lines, J.Scan, J.Faithful, J.Terminated, J.Render;
    J.ScanRendered(c, records);
    J.CutAppend(c, J.Render(c, records), r, n);
  }

  lemma ReadTorn<R(!new)>(c: J.Codec<R>, records: seq<R>, ps: seq<J.Piece<R>>)
    requires J.Faithful(c) && J.Scrap(c, ps)
    ensures var s := J.Render(c, records) + J.Joined(c, ps);
      J.Scan(c, J.Lines(s)) == J.Scanned(records, J.End.Torn) && J.WithoutLastLine(s) == J.Render(c, records)
  {
    hide J.Lines, J.Scan, J.Faithful, J.Scrap, J.Joined, J.Render, J.Terminated, J.Concat;
    var body, line := J.Render(c, records), J.Joined(c, ps);
    J.ScanRendered(c, records);
    J.ScanScrap(c, ps);
    J.RepairKeepsBody(body + line, body, line);
    J.ScanAppend(c, J.Lines(body), [line]);
    assert records + [] == records;
  }

  // ---- Several lines at once ----

  /** A file after the first n characters of the lines of several records. */
  function Grown<R>(c: J.Codec<R>, f: File<R>, rs: seq<R>, n: nat): File<R>
    decreases |rs|
  {
    if rs == [] || n == 0 then f
    else
      var length := |c.encode(rs[0])|;
      if n > length then Grown(c, WithRecord(f, rs[0]), rs[1..], n - length - 1)
      else WithPiece(f, rs[0], if n == length then AtNewline else InRecord)
  }

  lemma GrownByOne<R>(c: J.Codec<R>, f: File<R>, r: R, n: nat)
    ensures Grown(c, f, [r], n) ==
      if n == 0 then f
      else if n > |c.encode(r)| then WithRecord(f, r)
      else WithPiece(f, r, if n == |c.encode(r)| then AtNewline else InRecord)
  {
    hide WithRecord, WithPiece;
    assert [r][1..] == [];
  }

  lemma TakePast(s: string, t: string, n: nat)
    requires n >= |s|
    ensures PyTake(s + t, n) == s + PyTake(t, n - |s|)
  {
  }

  lemma TakeWithin(s: string, t: string, n: nat)
    requires n <= |s|
    ensures PyTake(s + "\n" + t, n) == s[..n]
  {
  }

  lemma NothingTaken(s: string, n: nat)
    requires s == "" || n == 0
    ensures PyTake(s, n) == ""
  {
  }

  lemma Unchanged(s: string)
    ensures s + "" == s
  {
  }

  /** Appending the first characters of several lines, as one write that may be cut, makes the file grow so. */
  lemma {:induction false} LinesGrow<R(!new)>(c: J.Codec<R>, s: string, f: File<R>, rs: seq<R>, n: nat)
    requires J.Faithful(c) && Represents(c, s, f)
    ensures Represents(c, s + PyTake(J.Render(c, rs), n), Grown(c, f, rs, n))
    decreases |rs|
  {
    hide J.Faithful, Represents, PyTake, WithRecord, WithPiece;
    Unchanged(s);
    if rs == [] || n == 0 {
      NothingTaken(J.Render(c, rs), n);
    } else {
      var text, rest := c.encode(rs[0]), J.Render(c, rs[1..]);
      if n > |text| {
        AppendLine(c, s, f, rs[0]);
        LinesGrow(c, s + J.Line(c, rs[0]), WithRecord(f, rs[0]), rs[1..], n - |text| - 1);
        TakePast(J.Line(c, rs[0]), rest, n);
        Associate(s, J.Line(c, rs[0]), PyTake(rest, n - |text| - 1));
      } else {
        AppendPiece(c, s, f, rs[0], n);
        TakeWithin(text, rest, n);
      }
    }
  }

  /** A clean file does not become corrupt by one write, a corrupt one stays so, and one without a newline at its end
      is torn or corrupt after any further write. */
  lemma {:induction false} GrownTail<R>(c: J.Codec<R>, f: File<R>, rs: seq<R>, n: nat)
    ensures f.tail == Clean ==> Grown(c, f, rs, n).tail != Corrupt
    ensures f.tail == Corrupt ==> Grown(c, f, rs, n).tail == Corrupt
    ensures f.tail != Clean && rs != [] && n > 0 ==> Grown(c, f, rs, n).tail in {Torn, Corrupt}
    decreases |rs|
  {
    if rs != [] && n > |c.encode(rs[0])| {
      GrownTail(c, WithRecord(f, rs[0]), rs[1..], n - |c.encode(rs[0])| - 1);
    }
  }

  /** How the text of a file ends. */
  lemma TailShows<R(!new)>(c: J.Codec<R>, s: string, f: File<R>)
    requires J.Faithful(c) && Represents(c, s, f)
    ensures f.tail == Clean ==> J.Terminated(s)
    ensures f.tail in {NoNewline, Torn} ==> !J.Terminated(s)
  {
    match f.tail
    case Clean =>
      hide *;
      CleanText(c, s, f);
    case NoNewline =>
      var n := |f.records| - 1;
      J.WholeLine(c, f.records[n]);
      OpenEnd(J.Render(c, f.records[..n]), c.encode(f.records[n]));
    case Torn =>
      var ps :| J.Scrap(c, ps) && s == J.Render(c, f.records) + J.Joined(c, ps);
      J.ScanScrap(c, ps);
      OpenEnd(J.Render(c, f.records), J.Joined(c, ps));
    case Corrupt =>
  }

  lemma CleanText<R(!new)>(c: J.Codec<R>, s: string, f: File<R>)
    requires J.Faithful(c) && Represents(c, s, f) && f.tail == Clean
    ensures J.Terminated(s)
  {
    J.ScanRendered(c, f.records);
  }

  lemma OpenEnd(s: string, line: string)
    requires !J.Terminated(line)
    ensures !J.Terminated(s + line)
  {
  }

  // ---- The bytes of a file ----

  /** Somewhere a character is cut off and not gone on with. */
  ghost predicate Ruined(bytes: Bytes) {
    exists s, ch, m: nat, rest :: RuinedAt(bytes, s, ch, m, rest)
  }

  predicate RuinedAt(bytes: Bytes, s: string, ch: char, m: nat, rest: Bytes) {
    0 < m < |Encode(ch)| && bytes == EncodeText(s) + Encode(ch)[..m] + rest
    && (rest != [] ==> !Continues(rest[0]))
  }

  /** Bytes and what they are taken for. */
  ghost predicate Shows<R(!new)>(c: J.Codec<R>, bytes: Bytes, f: File<R>) {
    (exists s :: bytes == EncodeText(s) && Represents(c, s, f)) || (f.tail == Corrupt && Ruined(bytes))
  }

  lemma RuinedUnreadable(bytes: Bytes)
    requires Ruined(bytes)
    ensures DecodeText(bytes) == None
  {
    hide EncodeText, Encode, DecodeText;
    var s, ch, m: nat, rest :| RuinedAt(bytes, s, ch, m, rest);
    CutCharacterIsFinal(s, ch, m, rest);
  }

  lemma RuinedGrows(bytes: Bytes, t: Bytes)
    requires Ruined(bytes) && (t != [] ==> !Continues(t[0]))
    ensures Ruined(bytes + t)
  {
    hide EncodeText, Encode;
    var s, ch, m: nat, rest :| RuinedAt(bytes, s, ch, m, rest);
    Associate(EncodeText(s) + Encode(ch)[..m], rest, t);
    assert RuinedAt(bytes + t, s, ch, m, rest + t);
  }

  lemma ShowsText<R(!new)>(c: J.Codec<R>, s: string, f: File<R>)
    requires Represents(c, s, f)
    ensures Shows(c, EncodeText(s), f)
  {
  }

  lemma EmptyFile<R(!new)>(c: J.Codec<R>)
    ensures Shows(c, [], File([], Clean))
  {
    var none: seq<R> := [];
    assert J.Render(c, none) == "" && EncodeText("") == [];
    ShowsText(c, "", File(none, Clean));
  }

  lemma LineStarts<R(!new)>(c: J.Codec<R>, r: R, n: nat)
    requires J.Faithful(c) && n <= |EncodeText(J.Line(c, r))|
    ensures n > 0 ==> !Continues(EncodeText(J.Line(c, r))[..n][0])
  {
    assert J.Line(c, r) != "";
    if n > 0 {
      TextStarts(J.Line(c, r), n);
    }
  }

  /** Appending the bytes of a line is a full append to the file. */
  lemma LineAppended<R(!new)>(c: J.Codec<R>, bytes: Bytes, f: File<R>, r: R)
    requires J.Faithful(c) && Shows(c, bytes, f)
    ensures Shows(c, bytes + EncodeText(J.Line(c, r)), WithRecord(f, r))
  {
    var line := EncodeText(J.Line(c, r));
    LineStarts(c, r, |line|);
    assert line[..|line|] == line;
    hide J.Faithful, Represents, EncodeText, J.Line, Ruined;
    if s :| bytes == EncodeText(s) && Represents(c, s, f) {
      AppendLine(c, s, f, r);
      EncodeConcat(s, J.Line(c, r));
      ShowsText(c, s + J.Line(c, r), WithRecord(f, r));
    } else {
      RuinedGrows(bytes, line);
    }
  }

  /** Where the first n bytes of a record end. */
  ghost function CutAt<R>(c: J.Codec<R>, r: R, n: nat): Cut {
    if n == |EncodeText(c.encode(r))| then AtNewline else if Boundary(c.encode(r), n) then InRecord else InCharacter
  }

  lemma RecordStarts<R(!new)>(c: J.Codec<R>, r: R, n: nat)
    requires J.Faithful(c) && 0 < n <= |EncodeText(c.encode(r))|
    ensures !Continues(EncodeText(c.encode(r))[..n][0])
  {
    TextStarts(c.encode(r), n);
  }

  /** The first bytes of a record are its first characters, or those and a piece of the next. */
  lemma RecordCut<R(!new)>(c: J.Codec<R>, r: R, n: nat) returns (k: nat, m: nat)
    requires 0 < n <= |EncodeText(c.encode(r))|
    ensures var text := c.encode(r);
      && k <= |text| && (m > 0 ==> k < |text| && m < |Encode(text[k])|)
      && EncodeText(text)[..n] == EncodeText(text[..k]) + (if m > 0 then Encode(text[k])[..m] else [])
      && (CutAt(c, r, n) == InCharacter <==> m > 0)
      && (m == 0 ==> k > 0 && (CutAt(c, r, n) == AtNewline <==> k == |text|))
  {
    hide Encode, EncodeText;
    var text := c.encode(r);
    k, m := CutText(text, n);
    var piece := if m > 0 then Encode(text[k])[..m] else [];
    assert |EncodeText(text)[..n]| == n && n == |EncodeText(text[..k])| + |piece|;
    BoundaryMeans(text, n, k, m);
    assert text[..|text|] == text;
    WholeOrLess(text, k);
  }

  lemma WholeOrLess(s: string, k: nat)
    requires k <= |s|
    ensures |EncodeText(s[..k])| == |EncodeText(s)| <==> k == |s|
    ensures k == 0 ==> EncodeText(s[..k]) == []
  {
    assert s[..|s|] == s;
    PrefixLength(s, k, |s|);
    hide EncodeText;
    assert k == 0 ==> s[..k] == "";
    NoBytes();
  }

  lemma NoBytes()
    ensures EncodeText("") == []
  {
  }

  lemma PieceToText<R(!new)>(c: J.Codec<R>, s: string, f: File<R>, r: R, n: nat)
    requires J.Faithful(c) && Represents(c, s, f) && 0 < n <= |EncodeText(c.encode(r))|
    ensures Shows(c, EncodeText(s) + EncodeText(c.encode(r))[..n], WithPiece(f, r, CutAt(c, r, n)))
  {
    var k, m := RecordCut(c, r, n);
    var text := c.encode(r);
    EncodeConcat(s, text[..k]);
    if m == 0 {
      hide J.Faithful, Represents, EncodeText, Encode, Ruined, CutAt, WithPiece, Shows;
      AppendPiece(c, s, f, r, k);
      ShowsText(c, s + text[..k], WithPiece(f, r, if k == |text| then AtNewline else InRecord));
    } else {
      hide J.Faithful, Represents, EncodeText, Encode, Ruined, CutAt;
      RuinedHere(s + text[..k], text[k], m);
      Associate(EncodeText(s), EncodeText(text[..k]), Encode(text[k])[..m]);
    }
  }

  lemma PieceToRuins<R(!new)>(c: J.Codec<R>, bytes: Bytes, f: File<R>, r: R, n: nat)
    requires J.Faithful(c) && f.tail == Corrupt && Ruined(bytes) && 0 < n <= |EncodeText(c.encode(r))|
    ensures Shows(c, bytes + EncodeText(c.encode(r))[..n], WithPiece(f, r, CutAt(c, r, n)))
  {
    RecordStarts(c, r, n);
    StaysCorrupt(f, r, CutAt(c, r, n));
    hide J.Faithful, Represents, EncodeText, Ruined, CutAt, WithPiece, Continues;
    RuinedGrows(bytes, EncodeText(c.encode(r))[..n]);
  }

  /** Appending the first bytes of a record is a cut append to the file. */
  lemma PieceAppended<R(!new)>(c: J.Codec<R>, bytes: Bytes, f: File<R>, r: R, n: nat)
    requires J.Faithful(c) && Shows(c, bytes, f) && 0 < n <= |EncodeText(c.encode(r))|
    ensures Shows(c, bytes + EncodeText(c.encode(r))[..n], WithPiece(f, r, CutAt(c, r, n)))
  {
    if s :| bytes == EncodeText(s) && Represents(c, s, f) {
      hide *;
      PieceToText(c, s, f, r, n);
    } else {
      assert f.tail == Corrupt && Ruined(bytes);
      hide *;
      PieceToRuins(c, bytes, f, r, n);
    }
  }

  lemma StaysCorrupt<R>(f: File<R>, r: R, cut: Cut)
    requires f.tail == Corrupt
    ensures WithPiece(f, r, cut).tail == Corrupt
  {
  }

  lemma RuinedHere(s: string, ch: char, m: nat)
    requires 0 < m < |Encode(ch)|
    ensures Ruined(EncodeText(s) + Encode(ch)[..m])
  {
    var bytes := EncodeText(s) + Encode(ch)[..m];
    assert bytes == bytes + [];
    assert RuinedAt(bytes, s, ch, m, []);
  }

  /** Loading the bytes: a corrupt file cannot be decoded or holds a line that cannot be read; any other is decoded to
      its records and its end, and its repair is that of the file. */
  lemma Loading<R(!new)>(c: J.Codec<R>, bytes: Bytes, f: File<R>)
    requires J.Faithful(c) && Shows(c, bytes, f)
    ensures f.tail != Corrupt ==> DecodeText(bytes).Some?
    ensures DecodeText(bytes).Some? ==>
      J.Scan(c, J.Lines(DecodeText(bytes).value)) == J.Scanned(f.records, EndOf(f.tail))
    ensures f.tail == Torn ==> Shows(c, EncodeText(J.WithoutLastLine(DecodeText(bytes).value)), Repaired(f))
  {
    hide J.Faithful, Represents, EncodeText, DecodeText, J.Scan, J.Lines, Ruined, J.WithoutLastLine;
    if s :| bytes == EncodeText(s) && Represents(c, s, f) {
      ReadBack(s);
      ReadText(c, s, f);
      if f.tail == Torn {
        ShowsText(c, J.WithoutLastLine(s), Repaired(f));
      }
    } else {
      RuinedUnreadable(bytes);
    }
  }
}
