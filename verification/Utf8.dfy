/** Text files as bytes: the UTF-8 encoding, strict decoding, and what a cut inside a character leaves behind. */
module Utf8 {
  import opened Support

  type Byte = b: int | 0 <= b < 256

  type Bytes = seq<Byte>

  // ---- One character ----

  function Encode(c: char): (bytes: Bytes)
    ensures 1 <= |bytes| <= 4
  {
    var n := c as int;
    if n < 0x80 then [n]
    else if n < 0x800 then [0xC0 + n / 64, 0x80 + n % 64]
    else if n < 0x1_0000 then [0xE0 + n / 4096, 0x80 + n / 64 % 64, 0x80 + n % 64]
    else [0xF0 + n / 26_2144, 0x80 + n / 4096 % 64, 0x80 + n / 64 % 64, 0x80 + n % 64]
  }

  predicate Continues(b: Byte) {
    0x80 <= b < 0xC0
  }

  /** How many bytes a character with this first byte has; 0 if no character starts so. */
  function Width(lead: Byte): nat {
    if lead < 0x80 then 1 else if lead < 0xC0 then 0 else if lead < 0xE0 then 2 else if lead < 0xF0 then 3
    else if lead < 0xF8 then 4 else 0
  }

  /** The payload of a byte. */
  function Low(bytes: Bytes, i: nat, base: int): int
    requires i < |bytes|
  {
    bytes[i] as int - base
  }

  function CodePoint(bytes: Bytes): int {
    match |bytes|
    case 1 => Low(bytes, 0, 0)
    case 2 => Low(bytes, 0, 0xC0) * 64 + Low(bytes, 1, 0x80)
    case 3 => Low(bytes, 0, 0xE0) * 4096 + Low(bytes, 1, 0x80) * 64 + Low(bytes, 2, 0x80)
    case 4 => Low(bytes, 0, 0xF0) * 26_2144 + Low(bytes, 1, 0x80) * 4096 + Low(bytes, 2, 0x80) * 64
        + Low(bytes, 3, 0x80)
    case _ => -1
  }

  /** The character of some bytes, if they are its encoding. */
  function CharOf(bytes: Bytes): (c: Option<char>)
    ensures c.Some? ==> Encode(c.value) == bytes
  {
    var n := CodePoint(bytes);
    if (0 <= n < 0xD800 || 0xE000 <= n < 0x11_0000) && Encode(n as char) == bytes then Some(n as char) else None
  }

  lemma EncodeLooks(c: char)
    ensures |Encode(c)| == Width(Encode(c)[0])
    ensures forall i :: 1 <= i < |Encode(c)| ==> Continues(Encode(c)[i])
    ensures c as int < 0x80 <==> |Encode(c)| == 1
  {
  }

  lemma DecodeOne(c: char)
    ensures CharOf(Encode(c)) == Some(c)
  {
    var n := c as int;
    assert n == n / 64 * 64 + n % 64;
    assert n / 64 == n / 4096 * 64 + n / 64 % 64;
    assert n / 4096 == n / 26_2144 * 64 + n / 4096 % 64;
    assert CodePoint(Encode(c)) == n;
  }

  // ---- Texts ----

  function EncodeText(s: string): Bytes {
    if s == "" then [] else Encode(s[0]) + EncodeText(s[1..])
  }

  /** Strict decoding: None if any byte does not belong to the encoding of a character. */
  function DecodeText(bytes: Bytes): Option<string>
    decreases |bytes|
  {
    if bytes == [] then Some("")
    else
      var w := Width(bytes[0]);
      if w == 0 || w > |bytes| then None
      else
        var first, rest := CharOf(bytes[..w]), DecodeText(bytes[w..]);
        if first.None? || rest.None? then None else Some([first.value] + rest.value)
  }

  lemma DecodeFirst(c: char, rest: Bytes)
    ensures DecodeText(Encode(c) + rest) ==
      match DecodeText(rest) case None => None case Some(s) => Some([c] + s)
  {
    var w := |Encode(c)|;
    EncodeLooks(c);
    DecodeOne(c);
    assert (Encode(c) + rest)[..w] == Encode(c) && (Encode(c) + rest)[w..] == rest;
    hide Encode, Width, CharOf;
  }

  lemma NothingBefore(t: Option<string>)
    ensures t.Some? ==> "" + t.value == t.value
  {
  }

  lemma {:induction false} DecodeAfter(s: string, rest: Bytes)
    ensures DecodeText(EncodeText(s) + rest) ==
      match DecodeText(rest) case None => None case Some(t) => Some(s + t)
  {
    hide DecodeText, Encode;
    if s == "" {
      assert EncodeText(s) + rest == rest;
      NothingBefore(DecodeText(rest));
    } else {
      DecodeAfter(s[1..], rest);
      DecodeFirst(s[0], EncodeText(s[1..]) + rest);
      assert EncodeText(s) + rest == Encode(s[0]) + (EncodeText(s[1..]) + rest);
      if DecodeText(rest).Some? {
        assert [s[0]] + (s[1..] + DecodeText(rest).value) == s + DecodeText(rest).value;
      }
    }
  }

  /** Every text is read back as it was written. */
  lemma ReadBack(s: string)
    ensures DecodeText(EncodeText(s)) == Some(s)
  {
    DecodeAfter(s, []);
    assert EncodeText(s) + [] == EncodeText(s) && s + "" == s;
  }

  /** Bytes that can be read are the encoding of what is read. */
  lemma {:induction false} WriteBack(bytes: Bytes)
    ensures DecodeText(bytes).Some? ==> EncodeText(DecodeText(bytes).value) == bytes
    decreases |bytes|
  {
    hide Encode, CharOf, Width;
    if bytes != [] && DecodeText(bytes).Some? {
      var w := Width(bytes[0]);
      WriteBack(bytes[w..]);
      var s := DecodeText(bytes).value;
      assert s[1..] == DecodeText(bytes[w..]).value;
      assert bytes == bytes[..w] + bytes[w..];
    }
  }

  lemma {:induction false} EncodeConcat(a: string, b: string)
    ensures EncodeText(a + b) == EncodeText(a) + EncodeText(b)
  {
    hide Encode;
    if a == "" {
      assert a + b == b;
    } else {
      EncodeConcat(a[1..], b);
      assert (a + b)[1..] == a[1..] + b && (a + b)[0] == a[0];
    }
  }

  // ---- Cuts ----

  /** The first n bytes of a text are whole characters. */
  ghost predicate Boundary(s: string, n: nat) {
    exists k: nat :: k <= |s| && |EncodeText(s[..k])| == n
  }

  /** The first n bytes of a text: some whole characters, and possibly a piece of the next. */
  lemma {:induction false} CutText(s: string, n: nat) returns (k: nat, m: nat)
    requires n <= |EncodeText(s)|
    ensures k <= |s| && (m > 0 ==> k < |s| && m < |Encode(s[k])|)
    ensures EncodeText(s)[..n] == EncodeText(s[..k]) + if m > 0 then Encode(s[k])[..m] else []
  {
    hide Encode;
    if n == 0 {
      k, m := 0, 0;
      assert s[..0] == "";
    } else {
      var w := |Encode(s[0])|;
      if n < w {
        k, m := 0, n;
        assert s[..0] == "";
        assert EncodeText(s)[..n] == Encode(s[0])[..n];
      } else {
        k, m := CutText(s[1..], n - w);
        assert EncodeText(s)[..n] == Encode(s[0]) + EncodeText(s[1..])[..n - w];
        assert s[..k + 1][1..] == s[1..][..k];
        k := k + 1;
      }
    }
  }

  lemma {:induction false} PrefixLength(s: string, k: nat, j: nat)
    requires k <= j <= |s|
    ensures |EncodeText(s[..k])| <= |EncodeText(s[..j])|
    ensures k < j ==> |EncodeText(s[..k])| + |Encode(s[k])| <= |EncodeText(s[..j])|
  {
    assert s[..j] == s[..k] + s[k..j];
    EncodeConcat(s[..k], s[k..j]);
    if k < j {
      assert s[k..j][0] == s[k];
    }
  }

  /** A cut is on a boundary exactly if no piece of a character is left. */
  lemma BoundaryMeans(s: string, n: nat, k: nat, m: nat)
    requires k <= |s| && (m > 0 ==> k < |s| && m < |Encode(s[k])|) && n == |EncodeText(s[..k])| + m
    ensures Boundary(s, n) <==> m == 0
  {
    hide Encode, EncodeText;
    if Boundary(s, n) {
      var j: nat :| j <= |s| && |EncodeText(s[..j])| == n;
      if j <= k {
        PrefixLength(s, j, k);
      } else {
        PrefixLength(s, k, j);
      }
    }
  }

  predicate Stops(bytes: Bytes, i: nat) {
    i >= |bytes| || !Continues(bytes[i])
  }

  /** What starts with a piece of a character and does not go on with it cannot be read. */
  predicate Broken(bytes: Bytes) {
    && bytes != [] && Width(bytes[0]) > 1
    && exists i :: 0 < i < Width(bytes[0]) && Stops(bytes, i)
  }

  lemma WholeContinues(bytes: Bytes, w: nat)
    requires w <= |bytes| && CharOf(bytes[..w]).Some?
    ensures forall i :: 1 <= i < w ==> Continues(bytes[i])
  {
    EncodeLooks(CharOf(bytes[..w]).value);
    assert forall i :: 0 <= i < w ==> bytes[..w][i] == bytes[i];
    hide Encode;
  }

  lemma BrokenUnreadable(bytes: Bytes)
    requires Broken(bytes)
    ensures DecodeText(bytes) == None
  {
    hide CharOf, Width;
    var w := Width(bytes[0]);
    if w <= |bytes| && CharOf(bytes[..w]).Some? {
      WholeContinues(bytes, w);
    }
  }

  lemma PieceIsBroken(c: char, m: nat, rest: Bytes)
    requires 0 < m < |Encode(c)| && (rest != [] ==> !Continues(rest[0]))
    ensures Broken(Encode(c)[..m] + rest)
  {
    EncodeLooks(c);
    hide Encode, Width, Continues;
    var bytes := Encode(c)[..m] + rest;
    assert bytes[0] == Encode(c)[0];
    assert 0 < m < Width(bytes[0]);
    assert Stops(bytes, m);
  }

  /** A file cut inside a character cannot be read, and nothing that is appended as whole characters changes that. */
  lemma CutCharacterIsFinal(s: string, c: char, m: nat, rest: Bytes)
    requires 0 < m < |Encode(c)| && (rest != [] ==> !Continues(rest[0]))
    ensures DecodeText(EncodeText(s) + Encode(c)[..m] + rest) == None
  {
    hide DecodeText, Encode, EncodeText, Broken;
    var piece := Encode(c)[..m];
    PieceIsBroken(c, m, rest);
    BrokenUnreadable(piece + rest);
    DecodeAfter(s, piece + rest);
    var all := EncodeText(s) + (piece + rest);
    assert DecodeText(all) == None;
    assert EncodeText(s) + Encode(c)[..m] + rest == all;
  }

  /** A text does not begin in the middle of a character, however it is cut. */
  lemma TextStarts(s: string, n: nat)
    requires s != "" && 0 < n <= |EncodeText(s)|
    ensures !Continues(EncodeText(s)[..n][0])
  {
    EncodeLooks(s[0]);
    assert EncodeText(s)[0] == Encode(s[0])[0];
  }
}
