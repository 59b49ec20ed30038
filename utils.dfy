/** `base64ToArrayBuffer`: the decoder the protocol client applies to inline audio data. */
module Utils {
  import opened Wrappers
  import opened Base64

  /**
    Decodes `base64` with `atob` and copies the character codes of the binary
    string into a fresh byte buffer. `atob`'s `InvalidCharacterError` is not
    caught, so the failure reaches the caller: here it is the `None` result.
  */
  method Base64ToArrayBuffer(base64: string) returns (r: Option<seq<byte>>)
    ensures r.Some? <==> Atob(base64).Some?
    ensures r.Some? ==> |r.value| == |Atob(base64).value|
    ensures r.Some? ==> forall i :: 0 <= i < |r.value| ==> r.value[i] == Atob(base64).value[i] as int
    ensures r == Decode(base64)
  {
    var decoded := Atob(base64);
    if decoded.None? {
      return None;
    }
    var binaryString := decoded.value;
    var len := |binaryString|;
    var bytes := new byte[len];
    for i := 0 to len
      invariant forall k :: 0 <= k < i ==> bytes[k] == binaryString[k] as int
    {
      bytes[i] := binaryString[i] as int;
    }
    assert bytes[..] == Decode(base64).value;
    return Some(bytes[..]);
  }
}
