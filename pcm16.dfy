/**
  Little-endian signed 16-bit PCM: the byte layout of an `Int16Array`'s buffer
  (what the capture worklet posts) and of the audio the protocol client
  receives (what `DataView.getInt16(i * 2, true)` reads in the playback scheduler).
*/
module Pcm16 {
  import opened Base64

  predicate IsInt16(v: int)
  {
    -32768 <= v <= 32767
  }

  /** The signed value of the little-endian byte pair `lo, hi`. */
  function Int16LE(lo: byte, hi: byte): (v: int)
    ensures IsInt16(v)
    ensures (v < 0) == (hi >= 128)
  {
    var u := lo + 256 * hi;
    if u >= 32768 then u - 65536 else u
  }

  /** The two little-endian bytes of a 16-bit value (two's complement). */
  function Int16Bytes(v: int): (b: seq<byte>)
    requires IsInt16(v)
    ensures |b| == 2
  {
    var u := if v < 0 then v + 65536 else v;
    [u % 256, u / 256]
  }

  lemma Int16RoundTrip(v: int)
    requires IsInt16(v)
    ensures Int16LE(Int16Bytes(v)[0], Int16Bytes(v)[1]) == v
  {
  }

  lemma Int16BytesRoundTrip(lo: byte, hi: byte)
    ensures Int16Bytes(Int16LE(lo, hi)) == [lo, hi]
  {
  }

  predicate AllInt16(s: seq<int>)
  {
    forall i :: 0 <= i < |s| ==> IsInt16(s[i])
  }

  /** Decoding: one sample per byte pair; a trailing odd byte is ignored. */
  function Decode(bytes: seq<byte>): (s: seq<int>)
  {
    seq(|bytes| / 2, i requires 0 <= i < |bytes| / 2 => Int16LE(bytes[2 * i], bytes[2 * i + 1]))
  }

  /** Encoding: the bytes of an `Int16Array` holding `s`. */
  function Encode(s: seq<int>): (bytes: seq<byte>)
    requires AllInt16(s)
  {
    if s == [] then [] else Int16Bytes(s[0]) + Encode(s[1..])
  }

  lemma {:induction false} EncodeAt(s: seq<int>, i: nat)
    requires AllInt16(s) && i < |s|
    ensures |Encode(s)| == 2 * |s|
    ensures Encode(s)[2 * i] == Int16Bytes(s[i])[0] && Encode(s)[2 * i + 1] == Int16Bytes(s[i])[1]
    decreases |s|
  {
    EncodeLength(s);
    if i > 0 {
      EncodeAt(s[1..], i - 1);
      assert Encode(s) == Int16Bytes(s[0]) + Encode(s[1..]);
    }
  }

  lemma {:induction false} EncodeLength(s: seq<int>)
    requires AllInt16(s)
    ensures |Encode(s)| == 2 * |s|
    decreases |s|
  {
    if s != [] { EncodeLength(s[1..]); }
  }

  /** Every sample survives encoding and decoding unchanged. */
  lemma DecodeEncode(s: seq<int>)
    requires AllInt16(s)
    ensures Decode(Encode(s)) == s
  {
    EncodeLength(s);
    forall i | 0 <= i < |s| ensures Decode(Encode(s))[i] == s[i] {
      EncodeAt(s, i);
      Int16RoundTrip(s[i]);
    }
  }

  /** Re-encoding decoded audio gives back the input, less a trailing odd byte. */
  lemma EncodeDecode(bytes: seq<byte>)
    ensures AllInt16(Decode(bytes))
    ensures Encode(Decode(bytes)) == bytes[..|bytes| - |bytes| % 2]
  {
    var s := Decode(bytes);
    var n := |bytes| - |bytes| % 2;
    EncodeLength(s);
    forall j | 0 <= j < n ensures Encode(s)[j] == bytes[j] {
      var i := j / 2;
      EncodeAt(s, i);
      Int16BytesRoundTrip(bytes[2 * i], bytes[2 * i + 1]);
      assert j == 2 * i || j == 2 * i + 1;
    }
  }
}
