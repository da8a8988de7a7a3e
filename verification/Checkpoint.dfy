/** Checkpoint files of judged metrics: one record per line, in UTF-8; a later record of a pair replaces an earlier
    one. */
module Checkpoint {
  import opened Support
  import opened JsonLines
  import opened Utf8
  import L = LogFiles

  /** A finite float, as mantissa and exponent. */
  datatype Float = Float(mantissa: int, exponent: int)

  datatype Status = Success(value: Float) | Failed

  datatype Record = Record(fingerprint: string, sampleId: string, metric: string, status: Status)

  type Key = (string, string)

  datatype LoadError = Undecodable | FingerprintMismatch | CorruptLog | UnknownPayment

  type Loaded = Result<map<Key, Record>, LoadError>

  function KeyOf(r: Record): Key {
    (r.sampleId, r.metric)
  }

  /** The last record of every pair. */
  function Latest(rs: seq<Record>): map<Key, Record> {
    if rs == [] then map[] else var r := rs[|rs| - 1]; Latest(rs[..|rs| - 1])[KeyOf(r) := r]
  }

  predicate AllOf(fingerprint: string, rs: seq<Record>) {
    forall i :: 0 <= i < |rs| ==> rs[i].fingerprint == fingerprint
  }

  /** What loading the text of a checkpoint returns: a foreign record is reported before a bad line that follows it. */
  function TextResult(c: Codec<Record>, s: string, fingerprint: string, repair: bool): Loaded {
    var scan := Scan(c, Lines(s));
    if !AllOf(fingerprint, scan.records) then Err(FingerprintMismatch)
    else if scan.end == Corrupt then Err(CorruptLog)
    else if scan.end == Torn && !repair then Err(UnknownPayment)
    else Ok(Latest(scan.records))
  }

  predicate NeedsRepair(c: Codec<Record>, s: string, fingerprint: string) {
    Scan(c, Lines(s)).end == Torn && AllOf(fingerprint, Scan(c, Lines(s)).records)
  }

  function TextAfterLoad(c: Codec<Record>, s: string, fingerprint: string, repair: bool): string {
    if repair && NeedsRepair(c, s, fingerprint) then WithoutLastLine(s) else s
  }

  /** What loading a checkpoint file returns. Bytes that are not UTF-8 end the load before any line is read. */
  function LoadResult(c: Codec<Record>, content: Option<Bytes>, fingerprint: string, repair: bool): Loaded {
    match content
    case None => Ok(map[])
    case Some(bytes) =>
      match DecodeText(bytes)
      case None => Err(Undecodable)
      case Some(s) => TextResult(c, s, fingerprint, repair)
  }

  /** What loading a checkpoint leaves in the file. */
  function FileAfterLoad(c: Codec<Record>, content: Option<Bytes>, fingerprint: string, repair: bool): Option<Bytes> {
    match content
    case None => None
    case Some(bytes) =>
      match DecodeText(bytes)
      case None => content
      case Some(s) => Some(EncodeText(TextAfterLoad(c, s, fingerprint, repair)))
  }

  /** The bytes of an appended record. */
  function LineBytes(c: Codec<Record>, r: Record): Bytes {
    EncodeText(Line(c, r))
  }

  // ---- The file ----

  lemma LatestSnoc(rs: seq<Record>, r: Record)
    ensures Latest(rs + [r]) == Latest(rs)[KeyOf(r) := r]
  {
    assert (rs + [r])[..|rs|] == rs;
  }

  /** What the loop returns where it stops. */
  lemma ReadAll(c: Codec<Record>, s: string, fingerprint: string, repair: bool, read: seq<Record>, end: End)
    requires Scan(c, Lines(s)) == Scanned(read, end) && AllOf(fingerprint, read)
    ensures TextResult(c, s, fingerprint, repair)
      == if end == Corrupt then Err(CorruptLog) else if end == Torn && !repair then Err(UnknownPayment)
         else Ok(Latest(read))
    ensures TextAfterLoad(c, s, fingerprint, repair) == if end == Torn && repair then WithoutLastLine(s) else s
  {
  }

  lemma ReadBad(c: Codec<Record>, s: string, fingerprint: string, repair: bool, index: nat, read: seq<Record>)
    requires index < |Lines(s)| && ReadSoFar(c, Lines(s), index, read) && AllOf(fingerprint, read)
    requires !Blank(Lines(s)[index]) && c.decode(Lines(s)[index]).None?
    ensures var corrupt := index < |Lines(s)| - 1 || Terminated(Lines(s)[index]);
      && TextResult(c, s, fingerprint, repair)
         == (if corrupt then Err(CorruptLog) else if !repair then Err(UnknownPayment) else Ok(Latest(read)))
      && TextAfterLoad(c, s, fingerprint, repair) == if corrupt || !repair then s else Concat(Lines(s)[..index])
  {
    hide Lines, Concat, Blank, Terminated, AllOf, ReadSoFar, Scan, TextResult, TextAfterLoad, Latest;
    ReadLine(c, Lines(s), index, read);
    var torn := index == |Lines(s)| - 1 && !Terminated(Lines(s)[index]);
    ReadAll(c, s, fingerprint, repair, read, if torn then Torn else Corrupt);
  }

  lemma ReadForeign(
    c: Codec<Record>, s: string, fingerprint: string, repair: bool, index: nat, read: seq<Record>, r: Record)
    requires index <= |Lines(s)| && ReadSoFar(c, Lines(s), index, read + [r]) && r.fingerprint != fingerprint
    ensures TextResult(c, s, fingerprint, repair) == Err(FingerprintMismatch)
    ensures TextAfterLoad(c, s, fingerprint, repair) == s
  {
    hide Lines;
    assert Scan(c, Lines(s)).records[|read|] == r;
  }

  /** A log as finished appends leave it. */
  ghost predicate Healthy(c: Codec<Record>, s: string, fingerprint: string) {
    Terminated(s) && Scan(c, Lines(s)).end == Complete && AllOf(fingerprint, Scan(c, Lines(s)).records)
  }

  /** A missing file, or one that finished appends left. */
  ghost predicate HealthyFile(c: Codec<Record>, content: Option<Bytes>, fingerprint: string) {
    content.Some? ==> DecodeText(content.value).Some? && Healthy(c, DecodeText(content.value).value, fingerprint)
  }

  function RecordsOf(c: Codec<Record>, content: Option<Bytes>): seq<Record> {
    if content.None? || DecodeText(content.value).None? then [] else RecordsIn(c, DecodeText(content.value).value)
  }

  class CheckpointLog {
    const codec: Codec<Record>
    var content: Option<Bytes>

    constructor (codec: Codec<Record>, content: Option<Bytes>)
      ensures this.codec == codec && this.content == content
    {
      this.codec := codec;
      this.content := content;
    }

    method Load(fingerprint: string, repair: bool) returns (loaded: Loaded)
      modifies this`content
      ensures loaded == LoadResult(codec, old(content), fingerprint, repair)
      ensures content == FileAfterLoad(codec, old(content), fingerprint, repair)
    {
      if content.None? {
        return Ok(map[]);
      }
      var text := DecodeText(content.value);
      if text.None? {
        return Err(Undecodable);
      }
      WriteBack(content.value);
      var rest: Option<string>;
      loaded, rest := ReadLines(text.value, fingerprint, repair);
      if rest.Some? {
        content := Some(EncodeText(rest.value));
      }
    }

    /** The loop over the lines: the result, and what is written back when the torn last line is dropped. */
    method ReadLines(text: string, fingerprint: string, repair: bool) returns (loaded: Loaded, rest: Option<string>)
      ensures loaded == TextResult(codec, text, fingerprint, repair)
      ensures TextAfterLoad(codec, text, fingerprint, repair) == if rest.Some? then rest.value else text
    {
      assert Latest([]) == map[];
      assert AllOf(fingerprint, []);
      hide *;
      rest := None;
      var lines := Lines(text);
      var records: map<Key, Record> := map[];
      ghost var read: seq<Record> := [];
      ReadStart(codec, lines);
      var index := 0;
      while index < |lines|
        invariant 0 <= index <= |lines| && rest.None?
        invariant records == Latest(read) && AllOf(fingerprint, read) && ReadSoFar(codec, lines, index, read)
      {
        ReadLine(codec, lines, index, read);
        var line := lines[index];
        if !Blank(line) {
          var decoded := codec.decode(line);
          if decoded.None? {
            ReadBad(codec, text, fingerprint, repair, index, read);
            if index < |lines| - 1 || Terminated(line) {
              return Err(CorruptLog), None;
            }
            if !repair {
              return Err(UnknownPayment), None;
            }
            return Ok(records), Some(Concat(lines[..index]));
          }
          var record := decoded.value;
          if record.fingerprint != fingerprint {
            ReadForeign(codec, text, fingerprint, repair, index + 1, read, record);
            return Err(FingerprintMismatch), None;
          }
          LatestSnoc(read, record);
          AllOfSnoc(fingerprint, read, record);
          records := records[KeyOf(record) := record];
          read := read + [record];
        }
        index := index + 1;
      }
      ReadEnd(codec, lines, read);
      ReadAll(codec, text, fingerprint, repair, read, Complete);
      loaded := Ok(records);
    }

    /** The bytes of the line come last; a healthy file stays healthy and has exactly this record more. */
    method Append(record: Record)
      modifies this`content
      ensures content == Some((if old(content).Some? then old(content).value else []) + LineBytes(codec, record))
      ensures Faithful(codec) && HealthyFile(codec, old(content), record.fingerprint) ==>
        && HealthyFile(codec, content, record.fingerprint)
        && RecordsOf(codec, content) == RecordsOf(codec, old(content)) + [record]
    {
      if Faithful(codec) && HealthyFile(codec, content, record.fingerprint) {
        AppendKeepsHealthy(codec, content, record);
      }
      content := Some((if content.Some? then content.value else []) + LineBytes(codec, record));
    }
  }

  lemma AppendKeepsHealthy(c: Codec<Record>, content: Option<Bytes>, r: Record)
    requires Faithful(c) && HealthyFile(c, content, r.fingerprint)
    ensures var after := Some((if content.Some? then content.value else []) + LineBytes(c, r));
      HealthyFile(c, after, r.fingerprint) && RecordsOf(c, after) == RecordsOf(c, content) + [r]
  {
    var s := if content.Some? then DecodeText(content.value).value else "";
    var bytes := if content.Some? then content.value else [];
    NothingToRead(c);
    assert RecordsIn(c, "") == [];
    if content.Some? {
      WriteBack(bytes);
    }
    hide Faithful, Scan, Lines, Terminated, AllOf, DecodeText, Line;
    assert bytes == EncodeText(s);
    EncodeConcat(s, Line(c, r));
    ReadBack(s + Line(c, r));
    HealthyAppend(c, s, r.fingerprint, r);
  }

  // ---- What survives in the text ----

  /** A judgement of this sample by this metric. */
  predicate IsOf(r: Record, sampleId: string, metric: string) {
    r.sampleId == sampleId && r.metric == metric
  }

  /** The latest records are those of the list that no later record of the same pair follows. */
  lemma {:induction false} LatestIsLast(rs: seq<Record>, sampleId: string, metric: string)
    ensures (sampleId, metric) in Latest(rs) <==> exists i :: 0 <= i < |rs| && IsOf(rs[i], sampleId, metric)
    ensures (sampleId, metric) in Latest(rs) ==>
      exists i :: (0 <= i < |rs| && IsOf(rs[i], sampleId, metric) && Latest(rs)[(sampleId, metric)] == rs[i]
                   && forall j :: i < j < |rs| ==> !IsOf(rs[j], sampleId, metric))
  {
    if rs != [] {
      var front := rs[..|rs| - 1];
      LatestIsLast(front, sampleId, metric);
      assert forall i :: 0 <= i < |front| ==> front[i] == rs[i];
    }
  }

  lemma AllOfSnoc(fingerprint: string, rs: seq<Record>, r: Record)
    ensures AllOf(fingerprint, rs + [r]) <==> AllOf(fingerprint, rs) && r.fingerprint == fingerprint
  {
    assert (rs + [r])[|rs|] == r;
    assert forall i :: 0 <= i < |rs| ==> (rs + [r])[i] == rs[i];
  }

  /** A healthy text loads to its latest records and stays as it is. */
  lemma HealthyText(c: Codec<Record>, s: string, fingerprint: string, repair: bool)
    requires Healthy(c, s, fingerprint)
    ensures TextResult(c, s, fingerprint, repair) == Ok(Latest(RecordsIn(c, s)))
    ensures TextAfterLoad(c, s, fingerprint, repair) == s
  {
    hide Scan, Lines, Terminated;
  }

  lemma HealthyLoads(c: Codec<Record>, s: string, fingerprint: string, repair: bool)
    requires Healthy(c, s, fingerprint)
    ensures LoadResult(c, Some(EncodeText(s)), fingerprint, repair) == Ok(Latest(RecordsIn(c, s)))
    ensures FileAfterLoad(c, Some(EncodeText(s)), fingerprint, repair) == Some(EncodeText(s))
  {
    ReadBack(s);
    HealthyText(c, s, fingerprint, repair);
    hide TextResult, TextAfterLoad, Healthy, EncodeText, DecodeText;
  }

  lemma HealthyAppend(c: Codec<Record>, s: string, fingerprint: string, r: Record)
    requires Faithful(c) && Healthy(c, s, fingerprint) && r.fingerprint == fingerprint
    ensures Healthy(c, s + Line(c, r), fingerprint)
    ensures RecordsIn(c, s + Line(c, r)) == RecordsIn(c, s) + [r]
  {
    hide Scan, Lines, Terminated, Faithful, AllOf;
    AppendRecord(c, s, r);
    AllOfSnoc(fingerprint, RecordsIn(c, s), r);
  }

  /** The text of an append that stopped after k characters of its record. */
  lemma TornText(c: Codec<Record>, s: string, fingerprint: string, r: Record, k: nat)
    requires Faithful(c) && Healthy(c, s, fingerprint) && 0 < k < |c.encode(r)|
    ensures var torn := s + c.encode(r)[..k];
      && TextResult(c, torn, fingerprint, false) == Err(UnknownPayment)
      && TextAfterLoad(c, torn, fingerprint, false) == torn
      && TextResult(c, torn, fingerprint, true) == Ok(Latest(RecordsIn(c, s)))
      && TextAfterLoad(c, torn, fingerprint, true) == s
  {
    hide Scan, Lines, Terminated, Faithful, AllOf, Concat;
    CutAppend(c, s, r, k);
  }

  lemma WholeText(c: Codec<Record>, s: string, fingerprint: string, r: Record, repair: bool)
    requires Faithful(c) && Healthy(c, s, fingerprint) && r.fingerprint == fingerprint
    ensures var text := s + c.encode(r);
      && TextResult(c, text, fingerprint, repair) == Ok(Latest(RecordsIn(c, s) + [r]))
      && TextAfterLoad(c, text, fingerprint, repair) == text
  {
    var n := |c.encode(r)|;
    assert n > 0 && c.encode(r)[..n] == c.encode(r);
    hide Scan, Lines, Terminated, Faithful, AllOf, Concat, Latest;
    CutAppend(c, s, r, n);
    AllOfSnoc(fingerprint, RecordsIn(c, s), r);
  }

  lemma FusedText(c: Codec<Record>, s: string, fingerprint: string, r: Record, q: Record, repair: bool)
    requires Faithful(c) && Healthy(c, s, fingerprint)
    ensures TextResult(c, s + c.encode(r) + Line(c, q), fingerprint, repair) == Err(CorruptLog)
  {
    var n := |c.encode(r)|;
    assert n > 0 && c.encode(r)[..n] == c.encode(r);
    hide Scan, Lines, Terminated, Faithful, AllOf, Concat, Line;
    FusedAppend(c, s, r, n, q);
  }

  // ---- What survives in the bytes ----

  lemma LoadsText(c: Codec<Record>, s: string, fingerprint: string, repair: bool)
    ensures LoadResult(c, Some(EncodeText(s)), fingerprint, repair) == TextResult(c, s, fingerprint, repair)
    ensures FileAfterLoad(c, Some(EncodeText(s)), fingerprint, repair)
         == Some(EncodeText(TextAfterLoad(c, s, fingerprint, repair)))
  {
    ReadBack(s);
    hide EncodeText, DecodeText, TextResult, TextAfterLoad;
  }

  lemma UndecodableStays(c: Codec<Record>, bytes: Bytes, fingerprint: string, repair: bool)
    requires DecodeText(bytes) == None
    ensures LoadResult(c, Some(bytes), fingerprint, repair) == Err(Undecodable)
    ensures FileAfterLoad(c, Some(bytes), fingerprint, repair) == Some(bytes)
  {
  }

  /** A line is its record and one byte. */
  lemma LineOfBytes(c: Codec<Record>, r: Record)
    ensures LineBytes(c, r) == EncodeText(c.encode(r)) + EncodeText("\n")
    ensures |LineBytes(c, r)| == |EncodeText(c.encode(r))| + 1
  {
    EncodeConcat(c.encode(r), "\n");
    assert "\n"[1..] == "" && EncodeText("") == [];
    assert EncodeText("\n") == Encode('\n') + [];
    assert |Encode('\n')| == 1;
    hide EncodeText;
  }

  lemma LinePrefix(c: Codec<Record>, r: Record, n: nat)
    requires n <= |EncodeText(c.encode(r))|
    ensures n <= |LineBytes(c, r)| && LineBytes(c, r)[..n] == EncodeText(c.encode(r))[..n]
  {
    LineOfBytes(c, r);
    hide EncodeText;
  }

  /** What an append cut to n bytes of its record leaves: whole characters, or a file that cannot be decoded. */
  lemma CutBytes(c: Codec<Record>, s: string, r: Record, n: nat) returns (k: nat)
    requires Faithful(c) && 0 < n <= |EncodeText(c.encode(r))|
    ensures var bytes := EncodeText(s) + EncodeText(c.encode(r))[..n];
      if Boundary(c.encode(r), n) then
        0 < k <= |c.encode(r)| && bytes == EncodeText(s + c.encode(r)[..k])
        && (k == |c.encode(r)| <==> n == |EncodeText(c.encode(r))|)
      else L.Ruined(bytes)
  {
    var m;
    k, m := L.RecordCut(c, r, n);
    var text := c.encode(r);
    assert text[..|text|] == text;
    hide Faithful, EncodeText, Encode, L.Ruined;
    EncodeConcat(s, text[..k]);
    if m > 0 {
      L.RuinedHere(s + text[..k], text[k], m);
      Associate(EncodeText(s), EncodeText(text[..k]), Encode(text[k])[..m]);
    }
  }

  /** An append cut strictly inside its record. Cut between two characters it is refused without repair, and with
      repair the complete records are returned and the file is again exactly what it was before that append. Cut
      inside a character the file cannot be decoded, with repair or without, and stays as it is. */
  lemma TornAppendRecovers(c: Codec<Record>, s: string, fingerprint: string, r: Record, n: nat)
    requires Faithful(c) && Healthy(c, s, fingerprint) && 0 < n < |EncodeText(c.encode(r))|
    ensures n <= |LineBytes(c, r)|
    ensures var torn := Some(EncodeText(s) + LineBytes(c, r)[..n]);
      if Boundary(c.encode(r), n) then
        && LoadResult(c, torn, fingerprint, false) == Err(UnknownPayment)
        && FileAfterLoad(c, torn, fingerprint, false) == torn
        && LoadResult(c, torn, fingerprint, true) == Ok(Latest(RecordsIn(c, s)))
        && FileAfterLoad(c, torn, fingerprint, true) == Some(EncodeText(s))
      else
        forall repair :: LoadResult(c, torn, fingerprint, repair) == Err(Undecodable)
                         && FileAfterLoad(c, torn, fingerprint, repair) == torn
  {
    LinePrefix(c, r, n);
    var k := CutBytes(c, s, r, n);
    hide Faithful, EncodeText, LoadResult, FileAfterLoad, L.Ruined, Boundary, Healthy, LineBytes;
    var bytes := EncodeText(s) + EncodeText(c.encode(r))[..n];
    if Boundary(c.encode(r), n) {
      TornText(c, s, fingerprint, r, k);
      LoadsText(c, s + c.encode(r)[..k], fingerprint, false);
      LoadsText(c, s + c.encode(r)[..k], fingerprint, true);
    } else {
      L.RuinedUnreadable(bytes);
      UndecodableStays(c, bytes, fingerprint, false);
      UndecodableStays(c, bytes, fingerprint, true);
    }
  }

  /** A record that lost only its newline loads like a complete one, repair or not, and the file keeps it so. */
  lemma LostNewlineLoads(c: Codec<Record>, s: string, fingerprint: string, r: Record, repair: bool)
    requires Faithful(c) && Healthy(c, s, fingerprint) && r.fingerprint == fingerprint
    ensures var cut := Some(EncodeText(s) + EncodeText(c.encode(r)));
      && LoadResult(c, cut, fingerprint, repair) == Ok(Latest(RecordsIn(c, s) + [r]))
      && FileAfterLoad(c, cut, fingerprint, repair) == cut
  {
    EncodeConcat(s, c.encode(r));
    hide Faithful, EncodeText, LoadResult, FileAfterLoad, Healthy;
    WholeText(c, s, fingerprint, r, repair);
    LoadsText(c, s + c.encode(r), fingerprint, repair);
  }

  /** The file after an append that stopped after n bytes and the repairing load that followed. */
  function Recovered(c: Codec<Record>, s: string, fingerprint: string, r: Record, n: nat): Option<Bytes>
    requires n <= |LineBytes(c, r)|
  {
    FileAfterLoad(c, Some(EncodeText(s) + LineBytes(c, r)[..n]), fingerprint, true)
  }

  function Survivors(c: Codec<Record>, s: string, r: Record, n: nat): seq<Record> {
    if n == |LineBytes(c, r)| then RecordsIn(c, s) + [r] else RecordsIn(c, s)
  }

  /** What an append cut to n bytes does to the file. */
  ghost predicate Recoverable(c: Codec<Record>, r: Record, n: nat) {
    n == 0 || n >= |LineBytes(c, r)| || (n < |EncodeText(c.encode(r))| && Boundary(c.encode(r), n))
  }

  lemma RecoveredIsHealthy(c: Codec<Record>, s: string, fingerprint: string, r: Record, n: nat) returns (text: string)
    requires Faithful(c) && Healthy(c, s, fingerprint) && r.fingerprint == fingerprint
    requires n <= |LineBytes(c, r)| && Recoverable(c, r, n)
    ensures Recovered(c, s, fingerprint, r, n) == Some(EncodeText(text))
    ensures text == if n == |LineBytes(c, r)| then s + Line(c, r) else s
    ensures Healthy(c, text, fingerprint) && RecordsIn(c, text) == Survivors(c, s, r, n)
  {
    LineOfBytes(c, r);
    text := if n == |LineBytes(c, r)| then s + Line(c, r) else s;
    EncodeConcat(s, Line(c, r));
    hide Faithful, Healthy, FileAfterLoad, LoadResult, EncodeText, Boundary, Line;
    if n == 0 {
      HealthyLoads(c, s, fingerprint, true);
      assert EncodeText(s) + LineBytes(c, r)[..0] == EncodeText(s);
    } else if n == |LineBytes(c, r)| {
      HealthyAppend(c, s, fingerprint, r);
      HealthyLoads(c, s + Line(c, r), fingerprint, true);
      assert LineBytes(c, r)[..n] == LineBytes(c, r);
    } else {
      TornAppendRecovers(c, s, fingerprint, r, n);
    }
  }

  lemma AppendToUndecodable(c: Codec<Record>, bytes: Bytes, fingerprint: string, q: Record)
    requires Faithful(c) && L.Ruined(bytes)
    ensures LoadResult(c, Some(bytes + LineBytes(c, q)), fingerprint, false) == Err(Undecodable)
  {
    L.LineStarts(c, q, |LineBytes(c, q)|);
    assert LineBytes(c, q)[..|LineBytes(c, q)|] == LineBytes(c, q);
    hide Faithful, L.Ruined, LineBytes, LoadResult;
    L.RuinedGrows(bytes, LineBytes(c, q));
    L.RuinedUnreadable(bytes + LineBytes(c, q));
    UndecodableStays(c, bytes + LineBytes(c, q), fingerprint, false);
  }

  /** What a further append and load meet after an append cut to n bytes and a repairing load. */
  ghost function Outcome(c: Codec<Record>, s: string, r: Record, n: nat, q: Record): Loaded {
    if Recoverable(c, r, n) then Ok(Latest(Survivors(c, s, r, n))[KeyOf(q) := q])
    else if n == |EncodeText(c.encode(r))| then Err(CorruptLog)
    else Err(Undecodable)
  }

  /** After an append cut at any byte and a repairing load, a further append extends a loadable log if and only if
      the cut fell between two characters and did not remove exactly the newline; the log then holds every record
      appended in full. */
  lemma AppendAfterCut(c: Codec<Record>, s: string, fingerprint: string, r: Record, n: nat, q: Record)
    requires Faithful(c) && Healthy(c, s, fingerprint) && r.fingerprint == fingerprint && q.fingerprint == fingerprint
    requires n <= |LineBytes(c, r)|
    ensures Recovered(c, s, fingerprint, r, n).Some?
    ensures LoadResult(c, Some(Recovered(c, s, fingerprint, r, n).value + LineBytes(c, q)), fingerprint, false)
         == Outcome(c, s, r, n, q)
  {
    LineOfBytes(c, r);
    if Recoverable(c, r, n) {
      AppendAfterRecovery(c, s, fingerprint, r, n, q);
      hide *;
    } else if n == |EncodeText(c.encode(r))| {
      LinePrefix(c, r, n);
      assert EncodeText(c.encode(r))[..n] == EncodeText(c.encode(r));
      LostNewlineLoads(c, s, fingerprint, r, true);
      AppendAfterNewline(c, s, fingerprint, r, q);
      hide Faithful, Healthy, LoadResult, FileAfterLoad, EncodeText, LineBytes;
    } else {
      LinePrefix(c, r, n);
      AppendAfterRuin(c, s, fingerprint, r, n, q);
      hide Faithful, Healthy, LoadResult, FileAfterLoad, EncodeText, LineBytes;
    }
  }

  lemma AppendAfterRecovery(c: Codec<Record>, s: string, fingerprint: string, r: Record, n: nat, q: Record)
    requires Faithful(c) && Healthy(c, s, fingerprint) && r.fingerprint == fingerprint && q.fingerprint == fingerprint
    requires n <= |LineBytes(c, r)| && Recoverable(c, r, n)
    ensures Recovered(c, s, fingerprint, r, n).Some?
    ensures LoadResult(c, Some(Recovered(c, s, fingerprint, r, n).value + LineBytes(c, q)), fingerprint, false)
         == Outcome(c, s, r, n, q)
  {
    var text := RecoveredIsHealthy(c, s, fingerprint, r, n);
    EncodeConcat(text, Line(c, q));
    hide Faithful, Healthy, LoadResult, Recovered, EncodeText, Line, Latest, Survivors, Recoverable;
    HealthyAppend(c, text, fingerprint, q);
    HealthyLoads(c, text + Line(c, q), fingerprint, false);
    LatestSnoc(RecordsIn(c, text), q);
  }

  lemma AppendAfterNewline(c: Codec<Record>, s: string, fingerprint: string, r: Record, q: Record)
    requires Faithful(c) && Healthy(c, s, fingerprint)
    ensures LoadResult(c, Some(EncodeText(s) + EncodeText(c.encode(r)) + LineBytes(c, q)), fingerprint, false)
         == Err(CorruptLog)
  {
    EncodeConcat(s, c.encode(r));
    EncodeConcat(s + c.encode(r), Line(c, q));
    hide Faithful, Healthy, LoadResult, EncodeText, Line;
    FusedText(c, s, fingerprint, r, q, false);
    LoadsText(c, s + c.encode(r) + Line(c, q), fingerprint, false);
  }

  lemma AppendAfterRuin(c: Codec<Record>, s: string, fingerprint: string, r: Record, n: nat, q: Record)
    requires Faithful(c) && 0 < n < |EncodeText(c.encode(r))| && !Boundary(c.encode(r), n)
    ensures var bytes := EncodeText(s) + EncodeText(c.encode(r))[..n];
      && FileAfterLoad(c, Some(bytes), fingerprint, true) == Some(bytes)
      && LoadResult(c, Some(bytes + LineBytes(c, q)), fingerprint, false) == Err(Undecodable)
  {
    var bytes := EncodeText(s) + EncodeText(c.encode(r))[..n];
    var k := CutBytes(c, s, r, n);
    hide *;
    L.RuinedUnreadable(bytes);
    UndecodableStays(c, bytes, fingerprint, true);
    AppendToUndecodable(c, bytes, fingerprint, q);
  }

  // ---- Whole histories ----

  /** An append of which some bytes arrive, all of them if `written` is large enough, followed by a repairing load. */
  datatype Event = Event(record: Record, written: nat)

  predicate Whole(c: Codec<Record>, e: Event) {
    e.written >= |LineBytes(c, e.record)|
  }

  function Step(c: Codec<Record>, fingerprint: string, file: Bytes, e: Event): Bytes {
    var left := FileAfterLoad(c, Some(file + PyTake(LineBytes(c, e.record), e.written)), fingerprint, true);
    if left.Some? then left.value else []
  }

  function FileAfter(c: Codec<Record>, fingerprint: string, history: seq<Event>): Bytes {
    if history == [] then []
    else Step(c, fingerprint, FileAfter(c, fingerprint, history[..|history| - 1]), history[|history| - 1])
  }

  /** What an event makes of a file in its four kinds of ending. */
  ghost function ShapeStep(c: Codec<Record>, f: L.File<Record>, e: Event): L.File<Record> {
    if Whole(c, e) then L.Repaired(L.WithRecord(f, e.record))
    else if e.written == 0 then L.Repaired(f)
    else L.Repaired(L.WithPiece(f, e.record, L.CutAt(c, e.record, e.written)))
  }

  ghost function ShapeAfter(c: Codec<Record>, history: seq<Event>): L.File<Record> {
    if history == [] then L.File([], L.Clean)
    else ShapeStep(c, ShapeAfter(c, history[..|history| - 1]), history[|history| - 1])
  }

  /** The records whose append was complete. */
  function Finished(c: Codec<Record>, history: seq<Event>): seq<Record> {
    if history == [] then []
    else
      var e := history[|history| - 1];
      Finished(c, history[..|history| - 1]) + if Whole(c, e) then [e.record] else []
  }

  predicate OfOneFile(fingerprint: string, history: seq<Event>) {
    forall i :: 0 <= i < |history| ==> history[i].record.fingerprint == fingerprint
  }

  /** Loading the bytes of a file with each kind of ending. */
  lemma LoadsShape(c: Codec<Record>, bytes: Bytes, f: L.File<Record>, fingerprint: string, repair: bool)
    requires Faithful(c) && L.Shows(c, bytes, f) && AllOf(fingerprint, f.records)
    ensures var loaded := LoadResult(c, Some(bytes), fingerprint, repair);
      match f.tail
      case Clean => loaded == Ok(Latest(f.records))
      case NoNewline => loaded == Ok(Latest(f.records))
      case Torn => loaded == (if repair then Ok(Latest(f.records)) else Err(UnknownPayment))
      case Corrupt => loaded == Err(Undecodable) || loaded == Err(CorruptLog)
    ensures var left := FileAfterLoad(c, Some(bytes), fingerprint, true);
      left.Some? && L.Shows(c, left.value, L.Repaired(f))
  {
    L.Loading(c, bytes, f);
    WriteBack(bytes);
    hide Faithful, L.Shows, AllOf, Scan, Lines, DecodeText, EncodeText, Latest, WithoutLastLine;
  }

  lemma EventShows(c: Codec<Record>, bytes: Bytes, f: L.File<Record>, e: Event, fingerprint: string)
    requires Faithful(c) && L.Shows(c, bytes, f) && AllOf(fingerprint, f.records) && e.record.fingerprint == fingerprint
    ensures L.Shows(c, Step(c, fingerprint, bytes, e), ShapeStep(c, f, e))
    ensures AllOf(fingerprint, ShapeStep(c, f, e).records)
  {
    LineOfBytes(c, e.record);
    var piece := PyTake(LineBytes(c, e.record), e.written);
    var g := if Whole(c, e) then L.WithRecord(f, e.record)
      else if e.written == 0 then f else L.WithPiece(f, e.record, L.CutAt(c, e.record, e.written));
    WrittenRecords(f, e.record, fingerprint);
    hide Faithful, L.Shows, L.WithRecord, L.WithPiece, LineBytes, FileAfterLoad, LoadResult, AllOf, EncodeText, L.CutAt;
    if Whole(c, e) {
      L.LineAppended(c, bytes, f, e.record);
    } else if e.written == 0 {
      assert bytes + piece == bytes;
    } else {
      LinePrefix(c, e.record, e.written);
      L.PieceAppended(c, bytes, f, e.record, e.written);
    }
    LoadsShape(c, bytes + piece, g, fingerprint, true);
  }

  lemma WrittenRecords(f: L.File<Record>, r: Record, fingerprint: string)
    requires AllOf(fingerprint, f.records) && r.fingerprint == fingerprint
    ensures AllOf(fingerprint, L.WithRecord(f, r).records)
    ensures forall cut :: AllOf(fingerprint, L.WithPiece(f, r, cut).records)
  {
    AllOfSnoc(fingerprint, f.records, r);
  }

  lemma {:induction false} HistoryShows(c: Codec<Record>, fingerprint: string, history: seq<Event>)
    requires Faithful(c) && OfOneFile(fingerprint, history)
    ensures L.Shows(c, FileAfter(c, fingerprint, history), ShapeAfter(c, history))
    ensures AllOf(fingerprint, ShapeAfter(c, history).records)
  {
    L.EmptyFile(c);
    hide Faithful, Step, ShapeStep, L.Shows;
    if history != [] {
      var n := |history| - 1;
      HistoryShows(c, fingerprint, history[..n]);
      EventShows(c, FileAfter(c, fingerprint, history[..n]), ShapeAfter(c, history[..n]), history[n], fingerprint);
    }
  }

  lemma {:induction false} ShapeIsFinished(c: Codec<Record>, history: seq<Event>)
    ensures var f := ShapeAfter(c, history);
      && f.tail != L.Torn && (f.tail == L.NoNewline ==> f.records != [])
      && (f.tail != L.Corrupt ==> L.Secured(f) == Finished(c, history))
  {
    hide LineBytes, L.CutAt;
    if history != [] {
      ShapeIsFinished(c, history[..|history| - 1]);
      var f, e := ShapeAfter(c, history[..|history| - 1]), history[|history| - 1];
      assert (f.records + [e.record])[..|f.records|] == f.records;
    }
  }

  /** Whatever appends arrive whole, in part or not at all, a log that can still be extended is byte for byte the
      whole appends in their order. */
  lemma HistoryKeepsBytes(c: Codec<Record>, fingerprint: string, history: seq<Event>)
    requires Faithful(c) && OfOneFile(fingerprint, history) && ShapeAfter(c, history).tail == L.Clean
    ensures FileAfter(c, fingerprint, history) == EncodeText(Render(c, Finished(c, history)))
  {
    HistoryShows(c, fingerprint, history);
    ShapeIsFinished(c, history);
    hide Faithful, FileAfter, ShapeAfter, Finished, EncodeText;
  }

  /** Some append was cut inside a character, or arrived whole after a record that had lost only its newline. */
  ghost predicate Spoils(c: Codec<Record>, history: seq<Event>) {
    exists i :: 0 <= i < |history| && SpoilsAt(c, ShapeAfter(c, history[..i]), history[i])
  }

  ghost predicate SpoilsAt(c: Codec<Record>, f: L.File<Record>, e: Event) {
    if Whole(c, e) then f.tail == L.NoNewline
    else e.written > 0 && L.CutAt(c, e.record, e.written) == L.InCharacter
  }

  lemma SpoilsFront(c: Codec<Record>, history: seq<Event>)
    requires history != []
    ensures var n := |history| - 1;
      Spoils(c, history) <==> (Spoils(c, history[..n]) || SpoilsAt(c, ShapeAfter(c, history[..n]), history[n]))
  {
    hide SpoilsAt, ShapeAfter;
    var n := |history| - 1;
    assert forall i :: 0 <= i < n ==> history[..n][..i] == history[..i] && history[..n][i] == history[i];
    if i :| 0 <= i < |history| && SpoilsAt(c, ShapeAfter(c, history[..i]), history[i]) {
      if i < n {
        assert SpoilsAt(c, ShapeAfter(c, history[..n][..i]), history[..n][i]);
      }
    }
    if i :| 0 <= i < n && SpoilsAt(c, ShapeAfter(c, history[..n][..i]), history[..n][i]) {
      assert SpoilsAt(c, ShapeAfter(c, history[..i]), history[i]);
    }
  }

  lemma {:induction false} CorruptIffSpoiled(c: Codec<Record>, history: seq<Event>)
    ensures ShapeAfter(c, history).tail == L.Corrupt <==> Spoils(c, history)
  {
    hide LineBytes, L.CutAt, Spoils;
    if history == [] {
      NothingSpoils(c);
    } else {
      var n := |history| - 1;
      CorruptIffSpoiled(c, history[..n]);
      ShapeIsFinished(c, history[..n]);
      SpoilsFront(c, history);
    }
  }

  lemma NothingSpoils(c: Codec<Record>)
    ensures !Spoils(c, [])
  {
  }

  /** A checkpoint loads after a history, with repair or without, if and only if no append was cut inside a character
      and none arrived whole after a record without its newline. It then loads to the latest of the complete appends
      and of a last record that lost only its newline. */
  lemma HistoryLoads(c: Codec<Record>, fingerprint: string, history: seq<Event>, repair: bool)
    requires Faithful(c) && OfOneFile(fingerprint, history)
    ensures var loaded := LoadResult(c, Some(FileAfter(c, fingerprint, history)), fingerprint, repair);
      && (loaded.Ok? <==> !Spoils(c, history))
      && (loaded.Ok? ==> loaded.value == Latest(ShapeAfter(c, history).records))
      && (loaded.Ok? ==> L.Secured(ShapeAfter(c, history)) == Finished(c, history))
  {
    HistoryShows(c, fingerprint, history);
    ShapeIsFinished(c, history);
    CorruptIffSpoiled(c, history);
    hide Faithful, FileAfter, ShapeAfter, Finished, LoadResult, Spoils, L.Shows, Latest;
    LoadsShape(c, FileAfter(c, fingerprint, history), ShapeAfter(c, history), fingerprint, repair);
  }
}
