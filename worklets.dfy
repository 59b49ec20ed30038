/**
  The two capture worklets. `AudioProcessingWorklet` converts each input
  sample to a 16-bit integer, collects them in a fixed 2048-slot buffer and
  posts every full buffer; the partial tail waits for the next call.
  `VolMeter` keeps an attack/decay envelope of the block RMS.

  Samples are exact reals: multiplying a 32-bit float by 32768 is exact in
  JavaScript's doubles, so the conversion below is the source's, less NaN.
*/
module Worklets {
  import Pcm16
  import opened Sequences

  /** `new Int16Array(2048)`: the number of samples in a posted frame. */
  const FrameSize := 2048

  /** Truncation toward zero, as an `Int16Array` store rounds. */
  function Truncate(r: real): (v: int)
    ensures r >= 0.0 ==> v as real <= r < v as real + 1.0
    ensures r < 0.0 ==> v as real - 1.0 < r <= v as real
  {
    if r >= 0.0 then r.Floor else -((-r).Floor)
  }

  /** `Math.max(-32768, Math.min(32767, x * 32768))`, stored in an `Int16Array`. */
  function ToInt16Sample(x: real): (v: int)
    ensures Pcm16.IsInt16(v)
  {
    var scaled := x * 32768.0;
    var clamped := if scaled < -32768.0 then -32768.0 else if scaled > 32767.0 then 32767.0 else scaled;
    Truncate(clamped)
  }

  /**
    A sample that playback produced from a 16-bit value (`int16 / 32768`)
    converts back to that value exactly.
  */
  lemma ToInt16SampleInverse(k: int)
    requires Pcm16.IsInt16(k)
    ensures ToInt16Sample(k as real / 32768.0) == k
  {
    assert k as real / 32768.0 * 32768.0 == k as real;
  }

  /** Out-of-range input saturates instead of wrapping around. */
  lemma ToInt16SampleSaturates(x: real)
    ensures x >= 1.0 ==> ToInt16Sample(x) == 32767
    ensures x <= -1.0 ==> ToInt16Sample(x) == -32768
  {
  }

  function Convert(chunk: seq<real>): (s: seq<int>)
    ensures |s| == |chunk|
    ensures Pcm16.AllInt16(s)
  {
    seq(|chunk|, i requires 0 <= i < |chunk| => ToInt16Sample(chunk[i]))
  }

  lemma ConvertSnoc(start: seq<int>, chunk: seq<real>, i: nat)
    requires i < |chunk|
    ensures start + Convert(chunk[..i + 1]) == start + Convert(chunk[..i]) + [ToInt16Sample(chunk[i])]
  {
    assert Convert(chunk[..i + 1]) == Convert(chunk[..i]) + [ToInt16Sample(chunk[i])];
  }

  /** The full frames of a pending stream of samples, in order. */
  function Frames(s: seq<int>): (frames: seq<seq<int>>)
    ensures |frames| == |s| / FrameSize
  {
    seq(|s| / FrameSize, j requires 0 <= j < |s| / FrameSize => s[j * FrameSize..(j + 1) * FrameSize])
  }

  /** What stays in the buffer after the full frames are posted. */
  function Rest(s: seq<int>): (r: seq<int>)
    ensures |r| == |s| % FrameSize
  {
    s[(|s| / FrameSize) * FrameSize..]
  }

  lemma {:induction false} FlattenSnoc(frames: seq<seq<int>>, f: seq<int>)
    ensures Flatten(frames + [f]) == Flatten(frames) + f
    decreases |frames|
  {
    if frames != [] {
      FlattenSnoc(frames[1..], f);
      assert (frames + [f])[1..] == frames[1..] + [f];
    }
  }

  lemma {:induction false} FlattenFrames(s: seq<int>, n: nat)
    requires n <= |s| / FrameSize
    ensures Flatten(Frames(s)[..n]) == s[..n * FrameSize]
    decreases n
  {
    if n > 0 {
      FlattenFrames(s, n - 1);
      assert Frames(s)[..n] == Frames(s)[..n - 1] + [Frames(s)[n - 1]];
      FlattenSnoc(Frames(s)[..n - 1], Frames(s)[n - 1]);
      assert s[..n * FrameSize] == s[..(n - 1) * FrameSize] + s[(n - 1) * FrameSize..n * FrameSize];
    }
  }

  /**
    Framing loses and reorders nothing: the frames followed by the rest are the
    input, every frame holds exactly `FrameSize` samples and the rest fewer.
  */
  lemma FramesSpec(s: seq<int>)
    ensures Flatten(Frames(s)) + Rest(s) == s
    ensures forall j :: 0 <= j < |Frames(s)| ==> |Frames(s)[j]| == FrameSize
    ensures |Rest(s)| < FrameSize
  {
    var n := |s| / FrameSize;
    FlattenFrames(s, n);
    assert Frames(s)[..n] == Frames(s);
    assert s[..n * FrameSize] + s[n * FrameSize..] == s;
  }

  /** One more sample either completes a frame, which is posted, or joins the rest. */
  lemma FramesSnoc(s: seq<int>, x: int)
    ensures |Rest(s)| + 1 == FrameSize ==>
      Frames(s + [x]) == Frames(s) + [Rest(s) + [x]] && Rest(s + [x]) == []
    ensures |Rest(s)| + 1 < FrameSize ==>
      Frames(s + [x]) == Frames(s) && Rest(s + [x]) == Rest(s) + [x]
  {
    var t := s + [x];
    var n := |s| / FrameSize;
    assert |Rest(s)| + 1 <= FrameSize;
    if |Rest(s)| + 1 == FrameSize {
      assert |t| / FrameSize == n + 1;
      forall j | 0 <= j < n ensures Frames(t)[j] == Frames(s)[j] {
        assert t[j * FrameSize..(j + 1) * FrameSize] == s[j * FrameSize..(j + 1) * FrameSize];
      }
      assert Frames(t)[n] == Rest(s) + [x];
    } else {
      assert |t| / FrameSize == n;
      forall j | 0 <= j < n ensures Frames(t)[j] == Frames(s)[j] {
        assert t[j * FrameSize..(j + 1) * FrameSize] == s[j * FrameSize..(j + 1) * FrameSize];
      }
    }
  }

  class AudioProcessingWorklet {
    const buffer: array<int>
    var bufferWriteIndex: nat
    /** The `int16arrayBuffer` payloads posted to the main thread, in order. */
    var posted: seq<seq<int>>

    /** Between calls the write index is always below the buffer's size. */
    ghost predicate Valid()
      reads this
    {
      buffer.Length == FrameSize && bufferWriteIndex < FrameSize
    }

    /** The samples collected and not yet posted. */
    function Pending(): seq<int>
      reads this, buffer
      requires bufferWriteIndex <= buffer.Length
    {
      buffer[..bufferWriteIndex]
    }

    constructor ()
      ensures Valid() && fresh(buffer)
      ensures Pending() == [] && posted == []
    {
      buffer := new int[FrameSize];
      bufferWriteIndex := 0;
      posted := [];
    }

    /**
      `process`: only the first channel of the first input is consumed, and only
      when it exists; the processor always asks to be kept alive.
    */
    method Process(inputs: seq<seq<seq<real>>>) returns (keepAlive: bool)
      requires Valid()
      modifies this, buffer
      ensures Valid() && keepAlive
      ensures var consumed := if |inputs| > 0 && |inputs[0]| > 0 then inputs[0][0] else [];
        && posted == old(posted) + Frames(old(Pending()) + Convert(consumed))
        && Pending() == Rest(old(Pending()) + Convert(consumed))
    {
      if |inputs| > 0 && |inputs[0]| > 0 {
        ProcessChunk(inputs[0][0]);
      } else {
        assert old(Pending()) + Convert([]) == old(Pending());
      }
      keepAlive := true;
    }

    /** `sendAndClearBuffer`: post the pending samples, if any, and empty the buffer. */
    method SendAndClearBuffer()
      requires bufferWriteIndex <= buffer.Length
      modifies this
      ensures bufferWriteIndex == 0
      ensures posted == old(posted) + (if old(bufferWriteIndex) > 0 then [old(Pending())] else [])
    {
      if bufferWriteIndex > 0 {
        posted := posted + [buffer[..bufferWriteIndex]];
        bufferWriteIndex := 0;
      }
    }

    /**
      `processChunk`: convert and append each sample; a full buffer is posted
      at once and the write index returns to 0. Posted frames followed by the
      new pending samples are the old pending samples followed by the chunk.
    */
    method ProcessChunk(chunk: seq<real>)
      requires Valid()
      modifies this, buffer
      ensures Valid()
      ensures posted == old(posted) + Frames(old(Pending()) + Convert(chunk))
      ensures Pending() == Rest(old(Pending()) + Convert(chunk))
      ensures |posted| == |old(posted)| + (old(bufferWriteIndex) + |chunk|) / FrameSize
    {
      ghost var start := Pending();
      for i := 0 to |chunk|
        invariant Valid()
        invariant posted == old(posted) + Frames(start + Convert(chunk[..i]))
        invariant Pending() == Rest(start + Convert(chunk[..i]))
      {
        ghost var before := start + Convert(chunk[..i]);
        var sample := ToInt16Sample(chunk[i]);
        ConvertSnoc(start, chunk, i);
        FramesSnoc(before, sample);
        ghost var framesBefore := posted;
        Push(sample);
        if |Rest(before)| + 1 == FrameSize {
          assert framesBefore + [Rest(before) + [sample]] == old(posted) + (Frames(before) + [Rest(before) + [sample]]);
        }
      }
      assert chunk[..|chunk|] == chunk;
    }

    /** One step of the loop of `processChunk`: store `sample`, posting the buffer once it is full. */
    method Push(sample: int)
      requires Valid()
      modifies this, buffer
      ensures Valid()
      ensures |old(Pending())| + 1 == FrameSize ==>
        posted == old(posted) + [old(Pending()) + [sample]] && Pending() == []
      ensures |old(Pending())| + 1 < FrameSize ==>
        posted == old(posted) && Pending() == old(Pending()) + [sample]
    {
      buffer[bufferWriteIndex] := sample;
      bufferWriteIndex := bufferWriteIndex + 1;
      assert Pending() == old(Pending()) + [sample];
      if bufferWriteIndex >= buffer.Length {
        SendAndClearBuffer();
      }
    }
  }

  /** `0.95 ^ k`. */
  function Power(b: real, k: nat): real
  {
    if k == 0 then 1.0 else b * Power(b, k - 1)
  }

  /** `smoothingFactor`. */
  const Smoothing: real := 0.95

  /** The envelope update `max(rms, volume * smoothingFactor)`. */
  function Envelope(volume: real, rms: real): real
  {
    if rms > volume * Smoothing then rms else volume * Smoothing
  }

  /**
    The meter jumps up at once and decays smoothly: the new level is never below
    the block's RMS nor below 95% of the old level, and is one of the two.
  */
  lemma EnvelopeBounds(volume: real, rms: real)
    ensures Envelope(volume, rms) >= rms
    ensures Envelope(volume, rms) >= volume * Smoothing
    ensures Envelope(volume, rms) == rms || Envelope(volume, rms) == volume * Smoothing
  {
  }

  /** Silence decays the level by the smoothing factor instead of dropping it to 0. */
  lemma SilenceDecays(volume: real)
    requires volume >= 0.0
    ensures Envelope(volume, 0.0) == volume * Smoothing
  {
  }

  function Silence(volume: real, k: nat): real
  {
    if k == 0 then volume else Envelope(Silence(volume, k - 1), 0.0)
  }

  /** After `k` silent blocks the level is `volume * 0.95^k`. */
  lemma {:induction false} SilenceDecaysGeometrically(volume: real, k: nat)
    requires volume >= 0.0
    ensures Silence(volume, k) == volume * Power(Smoothing, k)
    ensures Silence(volume, k) >= 0.0
  {
    if k > 0 {
      SilenceDecaysGeometrically(volume, k - 1);
      var v := Silence(volume, k - 1);
      assert Silence(volume, k) == v * Smoothing;
      assert volume * Power(Smoothing, k) == volume * Power(Smoothing, k - 1) * Smoothing;
    }
  }

  /** Sum of the squares of `samples`. */
  function SumOfSquares(samples: seq<real>): (r: real)
    ensures r >= 0.0
  {
    if samples == [] then 0.0 else SumOfSquares(samples[..|samples| - 1]) + samples[|samples| - 1] * samples[|samples| - 1]
  }

  /** The summing loop of the volume meter's `process`. */
  method SumSquares(samples: seq<real>) returns (sum: real)
    ensures sum == SumOfSquares(samples)
  {
    sum := 0.0;
    for i := 0 to |samples|
      invariant sum == SumOfSquares(samples[..i])
    {
      assert samples[..i + 1][..i] == samples[..i];
      sum := sum + samples[i] * samples[i];
    }
    assert samples[..|samples|] == samples;
  }

  class VolMeter {
    var volume: real
    /** The `volume` messages posted to the main thread, in order. */
    var posted: seq<real>

    ghost predicate Valid()
      reads this
    {
      volume >= 0.0
    }

    constructor ()
      ensures Valid() && volume == 0.0 && posted == []
    {
      volume := 0.0;
      posted := [];
    }

    /**
      `process`: for the first channel of the first input, when present,
      accumulate the sum of squares and move the level to
      `max(rms, volume * 0.95)`, posting it. `rms` is the square root the
      source computes with `Math.sqrt`, which the model takes as given.
    */
    method Process(inputs: seq<seq<seq<real>>>, rms: real) returns (keepAlive: bool)
      requires Valid() && rms >= 0.0
      requires |inputs| > 0 && |inputs[0]| > 0 ==> |inputs[0][0]| > 0
      requires |inputs| > 0 && |inputs[0]| > 0 ==>
        rms * rms * (|inputs[0][0]| as real) == SumOfSquares(inputs[0][0])
      modifies this
      ensures Valid() && keepAlive
      ensures |inputs| > 0 && |inputs[0]| > 0 ==>
        volume == Envelope(old(volume), rms) && posted == old(posted) + [volume]
      ensures !(|inputs| > 0 && |inputs[0]| > 0) ==> volume == old(volume) && posted == old(posted)
    {
      if |inputs| > 0 && |inputs[0]| > 0 {
        var sum := SumSquares(inputs[0][0]);
        // `rms` is `Math.sqrt(sum / samples.length)`.
        assert rms * rms * (|inputs[0][0]| as real) == sum;
        volume := Envelope(volume, rms);
        posted := posted + [volume];
      }
      keepAlive := true;
    }
  }
}
