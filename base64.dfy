/**
  The browser's `btoa` and `atob`, which the capture path (bytes to text) and
  the protocol client (text to bytes) rely on.

  `btoa` encodes a binary string (characters 0..255) with the alphabet and the
  `=` padding of section 4 of RFC 4648. `atob` follows the forgiving-base64
  decode of the WHATWG Infra standard: ASCII whitespace is dropped, a final
  `=` or `==` is optional when the length is a multiple of four, a length of
  1 mod 4 or a character outside the alphabet is an error (`InvalidCharacterError`),
  and bits left over after the last full byte are discarded.
*/
module Base64 {
  import opened Wrappers

  type byte = x: int | 0 <= x < 256
  type index = x: int | 0 <= x < 64

  // ---------------------------------------------------------------------------
  // The alphabet of section 4 of RFC 4648
  // ---------------------------------------------------------------------------

  /** The character that stands for the 6-bit value `i`. */
  function Symbol(i: index): (c: char)
  {
    if i < 26 then ('A' as int + i) as char
    else if i < 52 then ('a' as int + (i - 26)) as char
    else if i < 62 then ('0' as int + (i - 52)) as char
    else if i == 62 then '+'
    else '/'
  }

  predicate IsSymbol(c: char)
  {
    ('A' <= c <= 'Z') || ('a' <= c <= 'z') || ('0' <= c <= '9') || c == '+' || c == '/'
  }

  /** The 6-bit value of an alphabet character. */
  function Value(c: char): (i: index)
    requires IsSymbol(c)
  {
    if 'A' <= c <= 'Z' then c as int - 'A' as int
    else if 'a' <= c <= 'z' then c as int - 'a' as int + 26
    else if '0' <= c <= '9' then c as int - '0' as int + 52
    else if c == '+' then 62
    else 63
  }

  lemma SymbolValue(i: index)
    ensures IsSymbol(Symbol(i)) && Value(Symbol(i)) == i
  {
  }

  lemma ValueSymbol(c: char)
    requires IsSymbol(c)
    ensures Symbol(Value(c)) == c
  {
  }

  predicate AllSymbols(s: string)
  {
    forall k :: 0 <= k < |s| ==> IsSymbol(s[k])
  }

  // ---------------------------------------------------------------------------
  // Encoding (btoa)
  // ---------------------------------------------------------------------------

  /** Four symbols for three bytes: 8+8+8 bits regrouped as 6+6+6+6. */
  function EncodeTriple(a: byte, b: byte, c: byte): string
  {
    [Symbol(a / 4), Symbol((a % 4) * 16 + b / 16), Symbol((b % 16) * 4 + c / 64), Symbol(c % 64)]
  }

  /** The symbols for `bytes` without the trailing `=` padding. */
  function EncodeUnpadded(bytes: seq<byte>): (s: string)
    decreases |bytes|
  {
    if |bytes| >= 3 then EncodeTriple(bytes[0], bytes[1], bytes[2]) + EncodeUnpadded(bytes[3..])
    else if |bytes| == 2 then
      [Symbol(bytes[0] / 4), Symbol((bytes[0] % 4) * 16 + bytes[1] / 16), Symbol((bytes[1] % 16) * 4)]
    else if |bytes| == 1 then
      [Symbol(bytes[0] / 4), Symbol((bytes[0] % 4) * 16)]
    else []
  }

  /** The padding that completes the last group of four characters. */
  function Padding(n: nat): string
  {
    if n % 3 == 1 then "==" else if n % 3 == 2 then "=" else ""
  }

  /** Base64 text of `bytes`, padded to a multiple of four characters. */
  function Encode(bytes: seq<byte>): string
  {
    EncodeUnpadded(bytes) + Padding(|bytes|)
  }

  lemma {:induction false} EncodeUnpaddedShape(bytes: seq<byte>)
    ensures AllSymbols(EncodeUnpadded(bytes))
    ensures |EncodeUnpadded(bytes)| == 4 * (|bytes| / 3) + (if |bytes| % 3 == 0 then 0 else |bytes| % 3 + 1)
    decreases |bytes|
  {
    if |bytes| >= 3 {
      EncodeUnpaddedShape(bytes[3..]);
      var t := EncodeTriple(bytes[0], bytes[1], bytes[2]);
      var rest := EncodeUnpadded(bytes[3..]);
      assert EncodeUnpadded(bytes) == t + rest;
      TripleRoundTrip(bytes[0], bytes[1], bytes[2]);
      AllSymbolsConcat(t, rest);
      assert |bytes[3..]| / 3 == |bytes| / 3 - 1 && |bytes[3..]| % 3 == |bytes| % 3;
    } else if |bytes| == 2 {
      SymbolValue(bytes[0] / 4);
      SymbolValue((bytes[0] % 4) * 16 + bytes[1] / 16);
      SymbolValue((bytes[1] % 16) * 4);
    } else if |bytes| == 1 {
      SymbolValue(bytes[0] / 4);
      SymbolValue((bytes[0] % 4) * 16);
    }
  }

  lemma AllSymbolsConcat(a: string, b: string)
    requires AllSymbols(a) && AllSymbols(b)
    ensures AllSymbols(a + b)
  {
    assert forall k :: 0 <= k < |a + b| ==> (a + b)[k] == if k < |a| then a[k] else b[k - |a|];
  }

  /** `btoa` yields only alphabet characters followed by at most two `=`, in groups of four. */
  lemma EncodeShape(bytes: seq<byte>)
    ensures |Encode(bytes)| % 4 == 0
    ensures |Encode(bytes)| == 4 * ((|bytes| + 2) / 3)
    ensures forall k :: 0 <= k < |Encode(bytes)| ==> IsSymbol(Encode(bytes)[k]) || Encode(bytes)[k] == '='
  {
    EncodeUnpaddedShape(bytes);
    var u := EncodeUnpadded(bytes);
    var p := Padding(|bytes|);
    var n, q := |bytes|, |bytes| / 3;
    assert |u + p| == 4 * ((n + 2) / 3) by {
      if n % 3 == 0 {
        assert |p| == 0 && (n + 2) / 3 == q;
      } else if n % 3 == 1 {
        assert |p| == 2 && (n + 2) / 3 == q + 1;
      } else {
        assert |p| == 1 && (n + 2) / 3 == q + 1;
      }
    }
    forall k | 0 <= k < |u + p| ensures IsSymbol((u + p)[k]) || (u + p)[k] == '=' {
      if k >= |u| { assert (u + p)[k] == p[k - |u|]; }
    }
  }

  // ---------------------------------------------------------------------------
  // Decoding (atob)
  // ---------------------------------------------------------------------------

  predicate IsAsciiWhitespace(c: char)
  {
    c == '\t' || c == '\n' || c == '\U{000C}' || c == '\r' || c == ' '
  }

  /** Step 1 of the forgiving decode: remove ASCII whitespace. */
  function StripWhitespace(s: string): (r: string)
    ensures |r| <= |s|
  {
    if s == [] then []
    else if IsAsciiWhitespace(s[0]) then StripWhitespace(s[1..])
    else [s[0]] + StripWhitespace(s[1..])
  }

  /** Step 2: when the length is a multiple of four, one or two final `=` are removed. */
  function StripPadding(s: string): (r: string)
  {
    if |s| % 4 == 0 && |s| >= 2 && s[|s| - 2] == '=' && s[|s| - 1] == '=' then s[..|s| - 2]
    else if |s| % 4 == 0 && |s| >= 1 && s[|s| - 1] == '=' then s[..|s| - 1]
    else s
  }

  /** Three bytes from four 6-bit values. */
  function DecodeQuad(w: index, x: index, y: index, z: index): seq<byte>
  {
    [w * 4 + x / 16, (x % 16) * 16 + y / 4, (y % 4) * 64 + z]
  }

  /** The bytes of a whitespace- and padding-free body; leftover bits are dropped. */
  function DecodeBody(s: string): seq<byte>
    requires AllSymbols(s) && |s| % 4 != 1
    decreases |s|
  {
    if |s| >= 4 then
      assert AllSymbols(s[4..]) by { assert forall k :: 0 <= k < |s| - 4 ==> s[4..][k] == s[k + 4]; }
      DecodeQuad(Value(s[0]), Value(s[1]), Value(s[2]), Value(s[3])) + DecodeBody(s[4..])
    else if |s| == 3 then
      [Value(s[0]) * 4 + Value(s[1]) / 16, (Value(s[1]) % 16) * 16 + Value(s[2]) / 4]
    else if |s| == 2 then
      [Value(s[0]) * 4 + Value(s[1]) / 16]
    else []
  }

  /** `atob` on the level of bytes: `None` is the `InvalidCharacterError` it throws. */
  function Decode(s: string): (r: Option<seq<byte>>)
  {
    var body := StripPadding(StripWhitespace(s));
    if |body| % 4 == 1 || !AllSymbols(body) then None
    else Some(DecodeBody(body))
  }

  // ---------------------------------------------------------------------------
  // Binary strings: the JavaScript strings btoa and atob work on
  // ---------------------------------------------------------------------------

  /** `String.fromCharCode` of each byte. */
  function BytesToBinary(bytes: seq<byte>): (s: string)
    ensures |s| == |bytes|
    ensures forall k :: 0 <= k < |s| ==> s[k] as int == bytes[k]
  {
    seq(|bytes|, k requires 0 <= k < |bytes| => bytes[k] as char)
  }

  predicate IsBinary(s: string)
  {
    forall k :: 0 <= k < |s| ==> s[k] as int < 256
  }

  /** `charCodeAt` of each character of a binary string. */
  function BinaryToBytes(s: string): (bytes: seq<byte>)
    requires IsBinary(s)
    ensures |bytes| == |s|
    ensures forall k :: 0 <= k < |s| ==> bytes[k] == s[k] as int
  {
    seq(|s|, k requires 0 <= k < |s| => s[k] as int)
  }

  /** `window.btoa`: throws (here `None`) on a character above 255. */
  function Btoa(binary: string): (r: Option<string>)
    ensures r.Some? <==> IsBinary(binary)
  {
    if IsBinary(binary) then Some(Encode(BinaryToBytes(binary))) else None
  }

  /** `atob`: the decoded bytes as a binary string, or `None` for `InvalidCharacterError`. */
  function Atob(s: string): (r: Option<string>)
    ensures r.Some? ==> IsBinary(r.value)
    ensures r.Some? <==> Decode(s).Some?
  {
    match Decode(s)
    case Some(bytes) => Some(BytesToBinary(bytes))
    case None => None
  }

  // ---------------------------------------------------------------------------
  // Round trip and rejection
  // ---------------------------------------------------------------------------

  /** Regrouping 6+6+6+6 bits back into 8+8+8 recovers the three bytes. */
  lemma TripleBits(a: byte, b: byte, c: byte)
    ensures DecodeQuad(a / 4, (a % 4) * 16 + b / 16, (b % 16) * 4 + c / 64, c % 64) == [a, b, c]
  {
    var x, y := (a % 4) * 16 + b / 16, (b % 16) * 4 + c / 64;
    assert x / 16 == a % 4 && x % 16 == b / 16;
    assert y / 4 == b % 16 && y % 4 == c / 64;
  }

  lemma TripleRoundTrip(a: byte, b: byte, c: byte)
    ensures var t := EncodeTriple(a, b, c);
      AllSymbols(t) && DecodeQuad(Value(t[0]), Value(t[1]), Value(t[2]), Value(t[3])) == [a, b, c]
  {
    var w, x, y, z := a / 4, (a % 4) * 16 + b / 16, (b % 16) * 4 + c / 64, c % 64;
    var t := EncodeTriple(a, b, c);
    SymbolValue(w); SymbolValue(x); SymbolValue(y); SymbolValue(z);
    assert t[0] == Symbol(w) && t[1] == Symbol(x) && t[2] == Symbol(y) && t[3] == Symbol(z);
    assert AllSymbols(t) by {
      forall k | 0 <= k < 4 ensures IsSymbol(t[k]) {
      }
    }
    TripleBits(a, b, c);
  }

  lemma PairRoundTrip(a: byte, b: byte)
    ensures var s := [Symbol(a / 4), Symbol((a % 4) * 16 + b / 16), Symbol((b % 16) * 4)];
      AllSymbols(s) && DecodeBody(s) == [a, b]
  {
    var x, y := a / 4, (a % 4) * 16 + b / 16;
    SymbolValue(x); SymbolValue(y); SymbolValue((b % 16) * 4);
    assert y / 16 == a % 4 && y % 16 == b / 16;
  }

  lemma SingleRoundTrip(a: byte)
    ensures var s := [Symbol(a / 4), Symbol((a % 4) * 16)];
      AllSymbols(s) && DecodeBody(s) == [a]
  {
    SymbolValue(a / 4); SymbolValue((a % 4) * 16);
  }

  /** A leading group of four symbols decodes on its own, ahead of the rest. */
  lemma QuadPrefix(t: string, rest: string)
    requires |t| == 4 && AllSymbols(t) && AllSymbols(rest) && |rest| % 4 != 1
    ensures AllSymbols(t + rest) && |t + rest| % 4 != 1
    ensures DecodeBody(t + rest) == DecodeQuad(Value(t[0]), Value(t[1]), Value(t[2]), Value(t[3])) + DecodeBody(rest)
  {
    var s := t + rest;
    assert forall k :: 0 <= k < |s| ==> s[k] == (if k < 4 then t[k] else rest[k - 4]);
    assert s[4..] == rest;
    assert |s| % 4 == |rest| % 4;
  }

  lemma {:induction false} DecodeEncodeBody(bytes: seq<byte>)
    ensures AllSymbols(EncodeUnpadded(bytes)) && |EncodeUnpadded(bytes)| % 4 != 1
    ensures DecodeBody(EncodeUnpadded(bytes)) == bytes
    decreases |bytes|
  {
    EncodeUnpaddedShape(bytes);
    if |bytes| >= 3 {
      DecodeEncodeBody(bytes[3..]);
      assert EncodeUnpadded(bytes) == EncodeTriple(bytes[0], bytes[1], bytes[2]) + EncodeUnpadded(bytes[3..]);
      TripleRoundTrip(bytes[0], bytes[1], bytes[2]);
      QuadPrefix(EncodeTriple(bytes[0], bytes[1], bytes[2]), EncodeUnpadded(bytes[3..]));
      assert [bytes[0], bytes[1], bytes[2]] + bytes[3..] == bytes;
    } else if |bytes| == 2 {
      PairRoundTrip(bytes[0], bytes[1]);
    } else if |bytes| == 1 {
      SingleRoundTrip(bytes[0]);
    }
  }

  /** Removing whitespace leaves a text without whitespace unchanged. */
  lemma {:induction false} StripWhitespaceNoop(s: string)
    requires forall k :: 0 <= k < |s| ==> !IsAsciiWhitespace(s[k])
    ensures StripWhitespace(s) == s
    decreases |s|
  {
    if s != [] {
      StripWhitespaceNoop(s[1..]);
      assert [s[0]] + s[1..] == s;
    }
  }

  /** The encoded text decodes back to exactly the same bytes. */
  lemma DecodeEncode(bytes: seq<byte>)
    ensures Decode(Encode(bytes)) == Some(bytes)
  {
    var e := Encode(bytes);
    assert StripWhitespace(e) == e by {
      EncodeShape(bytes);
      forall k | 0 <= k < |e| ensures !IsAsciiWhitespace(e[k]) { }
      StripWhitespaceNoop(e);
    }
    StripPaddingEncode(bytes);
    DecodeEncodeBody(bytes);
  }

  /** Step 2 of the forgiving decode removes exactly the padding `btoa` added. */
  lemma StripPaddingEncode(bytes: seq<byte>)
    ensures StripPadding(Encode(bytes)) == EncodeUnpadded(bytes)
  {
    var u := EncodeUnpadded(bytes);
    var e := Encode(bytes);
    var n := |bytes|;
    EncodeUnpaddedShape(bytes);
    assert |e| % 4 == 0 by { EncodeShape(bytes); }
    if n % 3 == 1 {
      assert e == u + "==";
      assert e[..|e| - 2] == u;
    } else if n % 3 == 2 {
      assert e == u + "=";
      assert e[|e| - 2] == u[|u| - 1];
      assert e[..|e| - 1] == u;
    } else {
      assert e == u;
      if |e| > 0 { assert IsSymbol(e[|e| - 1]); }
    }
  }

  /** A character that is neither in the alphabet, nor `=`, nor ASCII whitespace makes `atob` throw. */
  lemma {:induction false} DecodeRejectsForeign(s: string, i: nat)
    requires i < |s| && !IsSymbol(s[i]) && s[i] != '=' && !IsAsciiWhitespace(s[i])
    ensures Decode(s) == None
  {
    var w := StripWhitespace(s);
    StripWhitespaceKeeps(s, i);
    var j :| 0 <= j < |w| && w[j] == s[i];
    var body := StripPadding(w);
    assert j < |body| && body[j] == w[j];
  }

  /**
    An `=` is accepted only as one of the last two characters of a text whose
    length, once whitespace is removed, is a multiple of four, and as the
    second-to-last only when the last is `=` too; anywhere else `atob` throws.
  */
  lemma DecodeRejectsMisplacedPadding(s: string, j: nat)
    requires j < |StripWhitespace(s)| && StripWhitespace(s)[j] == '='
    requires var w := StripWhitespace(s);
      !(|w| % 4 == 0 && (j == |w| - 1 || (j == |w| - 2 && w[|w| - 1] == '=')))
    ensures Decode(s) == None
  {
  }

  /** A text whose length without whitespace is one more than a multiple of four makes `atob` throw. */
  lemma DecodeRejectsLength(s: string)
    requires |StripWhitespace(s)| % 4 == 1
    ensures Decode(s) == None
  {
  }

  lemma {:induction false} StripWhitespaceKeeps(s: string, i: nat)
    requires i < |s| && !IsAsciiWhitespace(s[i])
    ensures exists j :: 0 <= j < |StripWhitespace(s)| && StripWhitespace(s)[j] == s[i]
    decreases |s|
  {
    if i == 0 {
      assert StripWhitespace(s)[0] == s[0];
    } else {
      StripWhitespaceKeeps(s[1..], i - 1);
      var j :| 0 <= j < |StripWhitespace(s[1..])| && StripWhitespace(s[1..])[j] == s[1..][i - 1];
      if IsAsciiWhitespace(s[0]) {
        assert StripWhitespace(s)[j] == s[i];
      } else {
        assert StripWhitespace(s)[j + 1] == s[i];
      }
    }
  }

  /** `atob(btoa(x)) == x` for every binary string `x`. */
  lemma AtobBtoa(binary: string)
    requires IsBinary(binary)
    ensures Btoa(binary).Some? && Atob(Btoa(binary).value) == Some(binary)
  {
    var bytes := BinaryToBytes(binary);
    DecodeEncode(bytes);
    assert BytesToBinary(bytes) == binary;
  }
}
