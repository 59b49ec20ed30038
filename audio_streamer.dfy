/**
  The playback scheduler (`AudioStreamer`). Incoming 16-bit PCM is decoded,
  cut into pieces of at most 7680 samples and queued; queued pieces are
  started back to back on the output clock, keeping at most 0.2 s of audio
  scheduled ahead of the current time.

  Time is counted in sample ticks of the 24 kHz output context, so a piece's
  duration is its length and the source's constants become tick counts. The
  current clock reading `now` is a parameter of every call that reads it.
  Started sources are recorded in `sources`; a source is identified by its
  position there.
*/
module AudioStreamer {
  import opened Wrappers
  import opened Base64
  import Pcm16
  import opened Sequences

  const SampleRate := 24000
  /** `bufferSize`: the largest piece queued, in samples. */
  const BufferSize := 7680
  /** `initialBufferTime` (0.1 s). */
  const InitialBufferTicks := SampleRate / 10
  /** `SCHEDULE_AHEAD_TIME` (0.2 s). */
  const ScheduleAheadTicks := SampleRate / 5
  /** The 50 ms by which the retry timer fires before scheduled audio runs out. */
  const RetryLeadTicks := SampleRate / 20

  /** A `source.start(at)` call for a buffer holding `samples`. */
  datatype Start = Start(at: int, samples: seq<int>)

  /**
    The scheduler state that scheduling reads and writes: the queue, the
    started sources, the watermark, the pending retry delay, the playing flag
    and the end-of-queue source.
  */
  datatype Plan = Plan(queue: seq<seq<int>>, sources: seq<Start>, watermark: int,
                       timeout: Option<int>, playing: bool, endOfQueue: Option<nat>)

  function Max(a: int, b: int): int { if a < b then b else a }

  // ---------------------------------------------------------------------------
  // Slicing decoded audio into queue pieces
  // ---------------------------------------------------------------------------

  /** Queue pieces hold between 1 and `BufferSize` samples. */
  predicate PiecesOk(pieces: seq<seq<int>>)
  {
    forall i :: 0 <= i < |pieces| ==> 0 < |pieces[i]| <= BufferSize
  }

  /** The pieces the slicing loop of `addPCM16` pushes for `samples`. */
  function Slice(samples: seq<int>): (pieces: seq<seq<int>>)
    decreases |samples|
  {
    if |samples| >= BufferSize then [samples[..BufferSize]] + Slice(samples[BufferSize..])
    else if |samples| > 0 then [samples]
    else []
  }

  /**
    Slicing loses and reorders nothing: the pieces concatenate to the input,
    every piece but the last is exactly `BufferSize` long and none is empty.
  */
  lemma {:induction false} SliceSpec(samples: seq<int>)
    ensures Flatten(Slice(samples)) == samples
    ensures PiecesOk(Slice(samples))
    ensures forall i :: 0 <= i < |Slice(samples)| - 1 ==> |Slice(samples)[i]| == BufferSize
    ensures |Slice(samples)| == (|samples| + BufferSize - 1) / BufferSize
    decreases |samples|
  {
    if |samples| >= BufferSize {
      var rest := samples[BufferSize..];
      SliceSpec(rest);
      var p := Slice(samples);
      assert p == [samples[..BufferSize]] + Slice(rest);
      assert p[1..] == Slice(rest);
      assert samples[..BufferSize] + rest == samples;
      assert forall i :: 1 <= i < |p| ==> p[i] == Slice(rest)[i - 1];
    }
  }

  // ---------------------------------------------------------------------------
  // The scheduling loop as functions of the queue
  // ---------------------------------------------------------------------------

  /** Total duration (in ticks) of `pieces`. */
  function Duration(pieces: seq<seq<int>>): int
  {
    if pieces == [] then 0 else |pieces[0]| + Duration(pieces[1..])
  }

  /**
    How many pieces the loop of `scheduleNextBuffer` dequeues, starting at
    watermark `t`, before the queue is empty or the watermark reaches `horizon`.
  */
  function Taken(queue: seq<seq<int>>, t: int, horizon: int): (k: nat)
    ensures k <= |queue|
  {
    if queue == [] || t >= horizon then 0 else 1 + Taken(queue[1..], t + |queue[0]|, horizon)
  }

  /** The starts of `pieces` laid back to back from `t`. */
  function Lay(pieces: seq<seq<int>>, t: int): (starts: seq<Start>)
    ensures |starts| == |pieces|
  {
    seq(|pieces|, i requires 0 <= i < |pieces| => Start(t + Duration(pieces[..i]), pieces[i]))
  }

  lemma LaySnoc(pieces: seq<seq<int>>, x: seq<int>, t: int)
    ensures Lay(pieces + [x], t) == Lay(pieces, t) + [Start(t + Duration(pieces), x)]
  {
    var p := pieces + [x];
    assert forall i :: 0 <= i <= |pieces| ==> p[..i] == pieces[..i];
    assert p[..|pieces|] == pieces;
  }

  lemma {:induction false} DurationSnoc(pieces: seq<seq<int>>, x: seq<int>)
    ensures Duration(pieces + [x]) == Duration(pieces) + |x|
    decreases |pieces|
  {
    if pieces != [] {
      DurationSnoc(pieces[1..], x);
      assert (pieces + [x])[1..] == pieces[1..] + [x];
    }
  }

  /**
    Dequeued pieces are started in queue order and back to back: piece `i`
    starts where piece `i - 1` ends, the first at `t`.
  */
  lemma LayContiguous(pieces: seq<seq<int>>, t: int)
    ensures forall i :: 0 <= i < |pieces| ==> Lay(pieces, t)[i].samples == pieces[i]
    ensures forall i :: 0 <= i < |pieces| ==> Lay(pieces, t)[i].at == t + Duration(pieces[..i])
    ensures |pieces| > 0 ==> Lay(pieces, t)[0].at == t
    ensures forall i :: 0 < i < |pieces| ==>
      Lay(pieces, t)[i].at == Lay(pieces, t)[i - 1].at + |Lay(pieces, t)[i - 1].samples|
  {
    forall i | 0 < i < |pieces|
      ensures Lay(pieces, t)[i].at == Lay(pieces, t)[i - 1].at + |Lay(pieces, t)[i - 1].samples|
    {
      assert pieces[..i] == pieces[..i - 1] + [pieces[i - 1]];
      DurationSnoc(pieces[..i - 1], pieces[i - 1]);
    }
  }

  /**
    The loop's exit condition and horizon: every dequeued piece starts strictly
    before `horizon`, and the loop stops only with an empty queue or a
    watermark at or past `horizon`.
  */
  lemma {:induction false} TakenHorizon(queue: seq<seq<int>>, t: int, horizon: int)
    ensures var k := Taken(queue, t, horizon);
      forall i :: 0 <= i < k ==> t + Duration(queue[..i]) < horizon
    ensures var k := Taken(queue, t, horizon);
      k == |queue| || t + Duration(queue[..k]) >= horizon
    decreases |queue|
  {
    var k := Taken(queue, t, horizon);
    if queue != [] && t < horizon {
      var rest := queue[1..];
      var t' := t + |queue[0]|;
      TakenHorizon(rest, t', horizon);
      forall i | 0 <= i <= k ensures Duration(queue[..i]) == (if i == 0 then 0 else |queue[0]| + Duration(rest[..i - 1])) {
        if i > 0 {
          assert queue[..i][1..] == rest[..i - 1];
        }
      }
    }
  }

  /**
    One scheduling pass starts every piece inside the window: at or after the
    raised watermark `t`, strictly before `horizon`, and at strictly increasing
    times, since no queued piece is empty.
  */
  lemma ScheduleWindow(queue: seq<seq<int>>, t: int, horizon: int)
    requires PiecesOk(queue)
    ensures var laid := Lay(queue[..Taken(queue, t, horizon)], t);
      && (forall i :: 0 <= i < |laid| ==> t <= laid[i].at < horizon)
      && (forall i :: 0 < i < |laid| ==> laid[i - 1].at < laid[i].at)
  {
    var k := Taken(queue, t, horizon);
    var pieces := queue[..k];
    var laid := Lay(pieces, t);
    TakenHorizon(queue, t, horizon);
    LayContiguous(pieces, t);
    forall i | 0 <= i < |laid| ensures t <= laid[i].at < horizon {
      assert pieces[..i] == queue[..i];
      DurationNonNegative(pieces[..i]);
    }
    forall i | 0 < i < |laid| ensures laid[i - 1].at < laid[i].at {
      assert laid[i - 1].samples == queue[i - 1];
    }
  }

  /**
    When a pass leaves audio queued, the watermark has reached the horizon, so
    the retry delay is exactly the time until the scheduled audio runs out less
    the 50 ms lead, and at least 150 ms.
  */
  lemma RetryDelay(queue: seq<seq<int>>, t: int, now: int)
    requires t >= now
    ensures var k := Taken(queue, t, now + ScheduleAheadTicks);
      var watermark := t + Duration(queue[..k]);
      k < |queue| ==>
        && watermark >= now + ScheduleAheadTicks
        && Max(0, watermark - now - RetryLeadTicks) == watermark - now - RetryLeadTicks
        && now + Max(0, watermark - now - RetryLeadTicks) + RetryLeadTicks == watermark
        && Max(0, watermark - now - RetryLeadTicks) >= ScheduleAheadTicks - RetryLeadTicks
  {
    TakenHorizon(queue, t, now + ScheduleAheadTicks);
  }

  lemma {:induction false} TakenStep(queue: seq<seq<int>>, n: nat, t: int, horizon: int)
    requires n < |queue|
    requires t < horizon
    ensures Taken(queue[n..], t, horizon) == 1 + Taken(queue[n + 1..], t + |queue[n]|, horizon)
  {
    assert queue[n..][1..] == queue[n + 1..];
  }

  // ---------------------------------------------------------------------------
  // The scheduler's state
  // ---------------------------------------------------------------------------

  class AudioStreamer {
    var audioQueue: seq<seq<int>>
    var isPlaying: bool
    var isStreamComplete: bool
    /** The watermark: the output time up to which audio is committed. */
    var scheduledTime: int
    /** The pending retry timer, holding its delay in ticks; `None` when none is armed. */
    var scheduleTimeout: Option<int>
    /** The source whose `onended` may report the end of the queue. */
    var endOfQueueSource: Option<nat>
    /** Every `source.start` call so far, in call order. */
    var sources: seq<Start>
    /** How many times `onComplete` has been called. */
    var completions: nat
    /** The pieces enqueued and not discarded by `stop`, in enqueue order. */
    ghost var accepted: seq<seq<int>>

    /**
      Between calls: queue pieces are well formed, a retry timer is armed exactly
      while audio is queued, queued audio implies playing, and the started
      pieces followed by the queue are exactly what was accepted.
    */
    ghost predicate Valid()
      reads this
    {
      && Consistent()
      && (scheduleTimeout.Some? <==> audioQueue != [])
      && (audioQueue != [] ==> isPlaying)
    }

    /**
      The part of `Valid` that also holds in the middle of `addPCM16`, after
      queueing and before scheduling.
    */
    ghost predicate Consistent()
      reads this
    {
      && PiecesOk(audioQueue)
      && (endOfQueueSource.Some? ==> endOfQueueSource.value < |sources|)
      && Pieces(sources) + audioQueue == accepted
    }

    /** The part of the state that scheduling reads and writes. */
    function State(): Plan
      reads this
    {
      Plan(audioQueue, sources, scheduledTime, scheduleTimeout, isPlaying, endOfQueueSource)
    }

    constructor ()
      ensures Valid()
      ensures audioQueue == [] && !isPlaying && !isStreamComplete && scheduledTime == 0
      ensures scheduleTimeout == None && endOfQueueSource == None && sources == [] && completions == 0
    {
      audioQueue := [];
      isPlaying := false;
      isStreamComplete := false;
      scheduledTime := 0;
      scheduleTimeout := None;
      endOfQueueSource := None;
      sources := [];
      completions := 0;
      accepted := [];
    }

    /** `_processPCM16Chunk`: one sample per little-endian byte pair. */
    static method ProcessPCM16Chunk(chunk: seq<byte>) returns (samples: seq<int>)
      ensures samples == Pcm16.Decode(chunk)
      ensures |samples| == |chunk| / 2
      ensures forall i :: 0 <= i < |samples| ==> samples[i] == Pcm16.Int16LE(chunk[2 * i], chunk[2 * i + 1])
    {
      var a := new int[|chunk| / 2];
      for i := 0 to a.Length
        invariant forall k :: 0 <= k < i ==> a[k] == Pcm16.Int16LE(chunk[2 * k], chunk[2 * k + 1])
      {
        a[i] := Pcm16.Int16LE(chunk[2 * i], chunk[2 * i + 1]);
      }
      samples := a[..];
    }

    /**
      `scheduleNextBuffer`: raise the watermark to `now`, then start queued
      pieces in order at the watermark while the queue is non-empty and the
      watermark is before `now + ScheduleAheadTicks`; re-arm the retry timer
      while audio remains, and stop playing once the queue is drained and the
      stream is complete. It is also what the retry timer runs when it fires.
    */
    method ScheduleNextBuffer(now: int)
      requires Consistent() && (audioQueue != [] ==> isPlaying)
      modifies this
      ensures Valid()
      ensures State() == Schedule(old(State()), isStreamComplete, now)
      ensures scheduledTime >= old(scheduledTime) && scheduledTime >= now
      ensures isStreamComplete == old(isStreamComplete) && completions == old(completions) && accepted == old(accepted)
    {
      var next := SchedulePass(State(), isStreamComplete, now);
      ScheduleKeeps(State(), isStreamComplete, now);
      audioQueue, sources, scheduledTime := next.queue, next.sources, next.watermark;
      scheduleTimeout, isPlaying, endOfQueueSource := next.timeout, next.playing, next.endOfQueue;
    }

    /**
      `addPCM16`: clears the completion flag, appends the decoded chunk to the
      queue in pieces of at most `BufferSize` samples, and then schedules: from
      `now + InitialBufferTicks` when not playing, from the current watermark
      when playing with an empty queue before the call, and not at all when
      playing with audio still queued (the retry timer is then pending).
    */
    method AddPCM16(chunk: seq<byte>, now: int)
      requires Valid()
      modifies this
      ensures Valid()
      ensures !isStreamComplete && isPlaying && completions == old(completions)
      ensures accepted == old(accepted) + Slice(Pcm16.Decode(chunk))
      ensures var queued := old(State()).(queue := old(audioQueue) + Slice(Pcm16.Decode(chunk)));
        State() == if !old(isPlaying) then Schedule(queued.(watermark := now + InitialBufferTicks, playing := true), false, now)
                   else if old(audioQueue) == [] then Schedule(queued, false, now)
                   else queued
    {
      var queueWasEmpty := audioQueue == [];
      QueueChunk(chunk);
      ghost var queued := State();
      if !isPlaying {
        isPlaying := true;
        scheduledTime := now + InitialBufferTicks;
        assert State() == queued.(watermark := now + InitialBufferTicks, playing := true);
        ScheduleNextBuffer(now);
      } else if queueWasEmpty {
        assert State() == queued;
        ScheduleNextBuffer(now);
      }
    }

    /** The first half of `addPCM16`: clear the completion flag and queue the decoded, sliced chunk. */
    method QueueChunk(chunk: seq<byte>)
      requires Valid()
      modifies this
      ensures Consistent() && !isStreamComplete && completions == old(completions)
      ensures State() == old(State()).(queue := old(audioQueue) + Slice(Pcm16.Decode(chunk)))
      ensures accepted == old(accepted) + Slice(Pcm16.Decode(chunk))
    {
      isStreamComplete := false;
      var processingBuffer := ProcessPCM16Chunk(chunk);
      var q1 := Enqueue(audioQueue, processingBuffer);
      assert Pieces(sources) + q1 == accepted + Slice(processingBuffer);
      audioQueue := q1;
      accepted := accepted + Slice(processingBuffer);
    }

    /**
      `stop`: drop the queue, cancel the retry timer, reset the watermark to
      `now` and mark the stream complete. Sources already started and the
      end-of-queue source are left alone.
    */
    method Stop(now: int)
      requires Valid()
      modifies this
      ensures Valid()
      ensures audioQueue == [] && !isPlaying && isStreamComplete && scheduledTime == now && scheduleTimeout == None
      ensures sources == old(sources) && endOfQueueSource == old(endOfQueueSource) && completions == old(completions)
      ensures accepted == Pieces(sources)
    {
      isPlaying := false;
      isStreamComplete := true;
      audioQueue := [];
      scheduledTime := now;
      scheduleTimeout := None;
      accepted := Pieces(sources);
    }

    /** `resume`: clear the completion flag and restart the watermark `InitialBufferTicks` after `now`. */
    method Resume(now: int)
      requires Valid()
      modifies this
      ensures Valid()
      ensures !isStreamComplete && scheduledTime == now + InitialBufferTicks
      ensures audioQueue == old(audioQueue) && isPlaying == old(isPlaying) && scheduleTimeout == old(scheduleTimeout)
      ensures sources == old(sources) && endOfQueueSource == old(endOfQueueSource) && completions == old(completions)
      ensures accepted == old(accepted)
    {
      isStreamComplete := false;
      scheduledTime := now + InitialBufferTicks;
    }

    /** `complete`: mark the stream complete; `onComplete` fires at once if nothing is queued. */
    method Complete()
      requires Valid()
      modifies this
      ensures Valid()
      ensures isStreamComplete
      ensures completions == old(completions) + (if audioQueue == [] then 1 else 0)
      ensures audioQueue == old(audioQueue) && isPlaying == old(isPlaying) && scheduledTime == old(scheduledTime)
      ensures scheduleTimeout == old(scheduleTimeout) && sources == old(sources)
      ensures endOfQueueSource == old(endOfQueueSource) && accepted == old(accepted)
    {
      isStreamComplete := true;
      if audioQueue == [] {
        completions := completions + 1;
      }
    }

    /**
      The `onended` callback of started source `source`: only the current
      end-of-queue source, ending while nothing is queued, clears that marker
      and, when the stream is complete, fires `onComplete`.
    */
    method OnEnded(source: nat)
      requires Valid() && source < |sources|
      modifies this
      ensures Valid()
      ensures var last := audioQueue == [] && old(endOfQueueSource) == Some(source);
        && endOfQueueSource == (if last then None else old(endOfQueueSource))
        && completions == old(completions) + (if last && isStreamComplete then 1 else 0)
      ensures audioQueue == old(audioQueue) && isPlaying == old(isPlaying) && isStreamComplete == old(isStreamComplete)
      ensures scheduledTime == old(scheduledTime) && scheduleTimeout == old(scheduleTimeout)
      ensures sources == old(sources) && accepted == old(accepted)
    {
      if audioQueue == [] && endOfQueueSource == Some(source) {
        endOfQueueSource := None;
        if isStreamComplete {
          completions := completions + 1;
        }
      }
    }
  }

  /**
    The loop of `scheduleNextBuffer`: dequeue and start pieces at watermark `t`
    while the queue is non-empty and `t` is before `horizon`.
  */
  method DrainQueue(queue: seq<seq<int>>, t: int, horizon: int)
    returns (rest: seq<seq<int>>, laid: seq<Start>, watermark: int)
    ensures var k := Taken(queue, t, horizon);
      rest == queue[k..] && laid == Lay(queue[..k], t) && watermark == t + Duration(queue[..k])
  {
    rest, laid, watermark := queue, [], t;
    ghost var n: nat := 0;
    while rest != [] && watermark < horizon
      invariant n <= |queue| && rest == queue[n..]
      invariant laid == Lay(queue[..n], t)
      invariant watermark == t + Duration(queue[..n])
      invariant Taken(queue, t, horizon) == n + Taken(rest, watermark, horizon)
      decreases |rest|
    {
      TakenStep(queue, n, watermark, horizon);
      var audioData := rest[0];
      rest := rest[1..];
      assert queue[..n + 1] == queue[..n] + [audioData];
      LaySnoc(queue[..n], audioData, t);
      DurationSnoc(queue[..n], audioData);
      laid := laid + [Start(watermark, audioData)];
      watermark := watermark + |audioData|;
      n := n + 1;
    }
  }

  /** Slicing `samples` onto the end of a well-formed queue keeps it well formed. */
  method Enqueue(queue: seq<seq<int>>, samples: seq<int>) returns (q: seq<seq<int>>)
    requires PiecesOk(queue)
    ensures q == queue + Slice(samples) && PiecesOk(q)
  {
    var pieces := SliceBuffer(samples);
    SliceSpec(samples);
    q := queue + pieces;
    assert forall i :: 0 <= i < |q| ==> q[i] == if i < |queue| then queue[i] else pieces[i - |queue|];
  }

  /** The slicing loop of `addPCM16`. */
  method SliceBuffer(samples: seq<int>) returns (pieces: seq<seq<int>>)
    ensures pieces == Slice(samples)
  {
    var processingBuffer := samples;
    pieces := [];
    while |processingBuffer| >= BufferSize
      invariant pieces + Slice(processingBuffer) == Slice(samples)
      decreases |processingBuffer|
    {
      pieces := pieces + [processingBuffer[..BufferSize]];
      processingBuffer := processingBuffer[BufferSize..];
    }
    if |processingBuffer| > 0 {
      pieces := pieces + [processingBuffer];
    }
  }

  /** The sample buffers of a run of starts. */
  function Pieces(starts: seq<Start>): (pieces: seq<seq<int>>)
    ensures |pieces| == |starts|
  {
    seq(|starts|, i requires 0 <= i < |starts| => starts[i].samples)
  }

  lemma PiecesLay(pieces: seq<seq<int>>, t: int)
    ensures Pieces(Lay(pieces, t)) == pieces
  {
  }

  /** Moving the first `k` queued pieces to the started sources keeps their concatenation. */
  lemma PiecesDrain(srcs: seq<Start>, q: seq<seq<int>>, k: nat, t: int)
    requires k <= |q|
    ensures Pieces(srcs + Lay(q[..k], t)) + q[k..] == Pieces(srcs) + q
  {
    PiecesLay(q[..k], t);
    PiecesAppend(srcs, Lay(q[..k], t));
    assert q[..k] + q[k..] == q;
  }

  /**
    The scheduler state `scheduleNextBuffer` leaves behind, from state `p`, with
    the stream complete or not, at time `now`: the watermark is raised to
    `now`; the first `k` queued pieces (those starting before
    `now + ScheduleAheadTicks`) are laid out back to back from it and started;
    the rest stay queued; the watermark moves past the started audio; the
    retry timer is armed while audio remains, firing `RetryLeadTicks` before
    the scheduled audio runs out; a drained, complete stream stops playing;
    and the source started for the piece that emptied the queue becomes the
    end-of-queue source.
  */
  ghost function Schedule(p: Plan, complete: bool, now: int): Plan
  {
    var t := Max(p.watermark, now);
    var k := Taken(p.queue, t, now + ScheduleAheadTicks);
    var rest := p.queue[k..];
    var started := p.sources + Lay(p.queue[..k], t);
    var watermark := t + Duration(p.queue[..k]);
    Plan(rest, started, watermark,
         if rest != [] then Some(Max(0, watermark - now - RetryLeadTicks)) else None,
         if rest == [] && complete then false else p.playing,
         if k > 0 && rest == [] then Some(|started| - 1) else p.endOfQueue)
  }

  /**
    A pass keeps the queue well formed, arms the retry timer exactly while
    audio remains, keeps playing while audio remains, keeps the end-of-queue
    source among the started ones, never moves the watermark back, and keeps
    the started pieces followed by the queue intact: nothing is lost, nothing
    is duplicated, nothing is reordered.
  */
  lemma ScheduleKeeps(p: Plan, complete: bool, now: int)
    requires PiecesOk(p.queue) && (p.queue != [] ==> p.playing)
    requires p.endOfQueue.Some? ==> p.endOfQueue.value < |p.sources|
    ensures var next := Schedule(p, complete, now);
      && PiecesOk(next.queue) && (next.queue != [] ==> next.playing)
      && (next.timeout.Some? <==> next.queue != [])
      && (next.endOfQueue.Some? ==> next.endOfQueue.value < |next.sources|)
      && next.watermark >= p.watermark && next.watermark >= now
      && Pieces(next.sources) + next.queue == Pieces(p.sources) + p.queue
  {
    var t := Max(p.watermark, now);
    var k := Taken(p.queue, t, now + ScheduleAheadTicks);
    var rest := p.queue[k..];
    DurationNonNegative(p.queue[..k]);
    PiecesDrain(p.sources, p.queue, k, t);
    forall i | 0 <= i < |rest| ensures 0 < |rest[i]| <= BufferSize {
      assert rest[i] == p.queue[k + i];
    }
  }

  /** One pass of `scheduleNextBuffer`, on the scheduler state as a value. */
  method SchedulePass(p: Plan, complete: bool, now: int) returns (next: Plan)
    ensures next == Schedule(p, complete, now)
  {
    var t := p.watermark;
    if t < now {
      t := now;
    }
    var rest, laid, watermark := DrainQueue(p.queue, t, now + ScheduleAheadTicks);
    var started := p.sources + laid;
    // Re-arm the retry timer while audio is queued; a drained, complete stream stops playing.
    var timeout := if rest != [] then Some(Max(0, watermark - now - RetryLeadTicks)) else None;
    var playing := if rest == [] && complete then false else p.playing;
    // The source started for the piece that emptied the queue reports the end of the queue.
    var endOfQueue := if rest == [] && laid != [] then Some(|started| - 1) else p.endOfQueue;
    next := Plan(rest, started, watermark, timeout, playing, endOfQueue);
  }

  lemma PiecesAppend(a: seq<Start>, b: seq<Start>)
    ensures Pieces(a + b) == Pieces(a) + Pieces(b)
  {
  }

  lemma {:induction false} DurationNonNegative(pieces: seq<seq<int>>)
    ensures Duration(pieces) >= 0
    decreases |pieces|
  {
    if pieces != [] { DurationNonNegative(pieces[1..]); }
  }
}
