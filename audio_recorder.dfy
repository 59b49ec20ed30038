/**
  Microphone capture lifecycle: `start` requests the device and wires the two
  worklets; a start in flight is shared, a start while recording does nothing,
  and `stop` during a start waits until the start settles. The promise is
  modelled by an explicit `Settle` step carrying how the start ended.
*/
module AudioRecorder {
  import opened Wrappers
  import opened Base64
  import Pcm16

  /** `arrayBufferToBase64`: the bytes as a binary string, then `btoa`. */
  method ArrayBufferToBase64(bytes: seq<byte>) returns (s: string)
    ensures s == Encode(bytes)
    ensures |s| % 4 == 0 && |s| == 4 * ((|bytes| + 2) / 3)
  {
    var binary := "";
    for i := 0 to |bytes|
      invariant binary == BytesToBinary(bytes[..i])
    {
      binary := binary + [bytes[i] as char];
    }
    assert bytes[..|bytes|] == bytes;
    assert BinaryToBytes(binary) == bytes;
    var encoded := Btoa(binary);
    s := encoded.value;
    EncodeShape(bytes);
  }

  const NoMicrophoneMessage := "No microphone found. Please connect a microphone."
  const AccessDeniedMessage := "Microphone access denied. Please grant permission in browser settings."
  const GenericStartMessage := "Failed to start audio recording. Check connection and browser permissions."

  /** The message for a failed start, by the error's `name`. */
  function ClassifyError(name: string): (message: string)
    ensures message == NoMicrophoneMessage <==> name == "NotFoundError" || name == "DevicesNotFoundError"
    ensures message == AccessDeniedMessage <==> name == "NotAllowedError" || name == "PermissionDeniedError"
    ensures message == GenericStartMessage <==>
      !(name in {"NotFoundError", "DevicesNotFoundError", "NotAllowedError", "PermissionDeniedError"})
  {
    if name == "NotFoundError" || name == "DevicesNotFoundError" then NoMicrophoneMessage
    else if name == "NotAllowedError" || name == "PermissionDeniedError" then AccessDeniedMessage
    else GenericStartMessage
  }

  /**
    A captured frame survives the trip to the server: the `data` event's text
    decodes back to the frame's bytes, and those to the frame's samples.
  */
  lemma CaptureRoundTrip(frame: seq<int>)
    requires Pcm16.AllInt16(frame)
    ensures Decode(Encode(Pcm16.Encode(frame))) == Some(Pcm16.Encode(frame))
    ensures Pcm16.Decode(Decode(Encode(Pcm16.Encode(frame))).value) == frame
  {
    DecodeEncode(Pcm16.Encode(frame));
    Pcm16.DecodeEncode(frame);
  }

  datatype RecorderEvent = Data(base64: string) | Volume(level: real) | Error(message: string)

  /** How a call to `start` was answered. */
  datatype StartResult =
    | JoinedInFlight    // the pending start's promise was returned
    | AlreadyRecording  // nothing to do
    | Began             // a new start was launched

  /**
    How the asynchronous part of a start ended: every step succeeded, or one
    threw an error with `name`, after (`gotStream`) or before the microphone
    stream was obtained.
  */
  datatype StartOutcome = Succeeded | Failed(name: string, gotStream: bool)

  /**
    `Stuck`: `startingPromise` holds a start that already settled and that
    nothing will clear, because the start failed before its first `await`.
  */
  datatype Phase = Idle | Starting | Recording | Stuck

  class AudioRecorder {
    var isRecording: bool
    /** `startingPromise !== null`. */
    var starting: bool
    /** `startingPromise` holds a promise that has already settled. */
    var stuck: bool
    var hasStream: bool
    var recordingWorklet: bool
    var vuWorklet: bool
    /** Calls to `getUserMedia`. */
    var deviceRequests: nat
    /** Teardowns registered with `startingPromise.finally`. */
    var deferredStops: nat
    var events: seq<RecorderEvent>

    ghost predicate Valid()
      reads this
    {
      && !(starting && isRecording)
      && hasStream == isRecording
      && recordingWorklet == isRecording
      && vuWorklet == isRecording
      && (!starting ==> deferredStops == 0)
      && (stuck ==> starting && deferredStops == 0)
    }

    function Phase(): Phase
      reads this
    {
      if stuck then Stuck else if starting then Starting else if isRecording then Recording else Idle
    }

    constructor ()
      ensures Valid() && Phase() == Idle
      ensures deviceRequests == 0 && events == []
    {
      isRecording := false;
      starting := false;
      stuck := false;
      hasStream := false;
      recordingWorklet := false;
      vuWorklet := false;
      deviceRequests := 0;
      deferredStops := 0;
      events := [];
    }

    /**
      `start`: a start in flight, or a stuck one, is joined and the device is
      not requested again; while recording nothing happens; otherwise the
      device is requested and the recorder is starting. Without
      `navigator.mediaDevices` the request throws before the first `await`:
      the error is emitted and the teardown runs at once, while
      `startingPromise` is still null, and only then is the settled promise
      stored, so the recorder is stuck.
    */
    method Start(hasMediaDevices: bool) returns (r: StartResult)
      requires Valid()
      modifies this
      ensures Valid()
      ensures old(Phase()) in {Starting, Stuck} ==> r == JoinedInFlight && unchanged(this)
      ensures old(Phase()) == Recording ==> r == AlreadyRecording && unchanged(this)
      ensures old(Phase()) == Idle && hasMediaDevices ==>
        && r == Began && Phase() == Starting
        && deviceRequests == old(deviceRequests) + 1
        && events == old(events) && deferredStops == 0
        && !hasStream && !recordingWorklet && !vuWorklet
      ensures old(Phase()) == Idle && !hasMediaDevices ==>
        && r == Began && Phase() == Stuck
        && deviceRequests == old(deviceRequests)
        && events == old(events) + [Error(GenericStartMessage)]
        && !hasStream && !recordingWorklet && !vuWorklet
    {
      if starting {
        return JoinedInFlight;
      }
      if isRecording {
        return AlreadyRecording;
      }
      if !hasMediaDevices {
        events := events + [Error(ClassifyError("TypeError"))];
        Stop();
        starting := true;
        stuck := true;
        return Began;
      }
      starting := true;
      deviceRequests := deviceRequests + 1;
      r := Began;
    }

    /**
      The start settles. On success the stream and both worklets are wired
      and then recording begins; on failure the classified message is emitted
      once and a teardown is deferred. In either case the in-flight marker is
      cleared and the deferred teardowns then run, so a `stop` issued while
      starting leaves the recorder idle even after a successful start.
    */
    method Settle(outcome: StartOutcome)
      requires Valid() && Phase() == Starting
      modifies this
      ensures Valid() && Phase() != Starting && !stuck
      ensures isRecording <==> outcome.Succeeded? && old(deferredStops) == 0
      ensures outcome.Succeeded? ==> events == old(events)
      ensures outcome.Failed? ==> events == old(events) + [Error(ClassifyError(outcome.name))]
      ensures deviceRequests == old(deviceRequests)
    {
      match outcome {
        case Succeeded =>
          hasStream := true;
          recordingWorklet := true;
          vuWorklet := true;
          isRecording := true;
        case Failed(name, gotStream) =>
          if gotStream {
            hasStream := true;
          }
          events := events + [Error(ClassifyError(name))];
          deferredStops := deferredStops + 1;
      }
      starting := false;
      while deferredStops > 0
        invariant !starting && !stuck
        invariant deferredStops > 0 || (hasStream == isRecording && recordingWorklet == isRecording && vuWorklet == isRecording)
        invariant deferredStops < old(deferredStops) + (if outcome.Failed? then 1 else 0) ==>
          !isRecording && !hasStream && !recordingWorklet && !vuWorklet
        invariant deferredStops == old(deferredStops) + (if outcome.Failed? then 1 else 0) ==>
          (isRecording <==> outcome.Succeeded?)
        invariant deferredStops <= old(deferredStops) + (if outcome.Failed? then 1 else 0)
        invariant events == old(events) + (if outcome.Failed? then [Error(ClassifyError(outcome.name))] else [])
        invariant deviceRequests == old(deviceRequests)
      {
        PerformStop();
        deferredStops := deferredStops - 1;
      }
    }

    /**
      `stop`: deferred until the start settles while starting, otherwise
      immediate. On a stuck recorder the callback registered on the settled
      promise is run at once.
    */
    method Stop()
      requires Valid()
      modifies this
      ensures Valid() && stuck == old(stuck)
      ensures old(Phase()) == Starting ==> Phase() == Starting && deferredStops == old(deferredStops) + 1 && !isRecording
      ensures old(Phase()) != Starting ==> Phase() == (if old(stuck) then Stuck else Idle)
      ensures old(Phase()) != Starting ==> !hasStream && !recordingWorklet && !vuWorklet && deferredStops == 0
      ensures events == old(events) && deviceRequests == old(deviceRequests)
    {
      if starting && !stuck {
        deferredStops := deferredStops + 1;
        return;
      }
      PerformStop();
    }

    /**
      `_performStop`: release the stream, drop the worklets and stop recording.
      The result does not depend on the state before, so a second call changes
      nothing.
    */
    method PerformStop()
      modifies this
      ensures !isRecording && !hasStream && !recordingWorklet && !vuWorklet
      ensures starting == old(starting) && stuck == old(stuck) && deferredStops == old(deferredStops)
      ensures events == old(events) && deviceRequests == old(deviceRequests)
    {
      hasStream := false;
      recordingWorklet := false;
      vuWorklet := false;
      isRecording := false;
    }

    /**
      The recording worklet's message handler: a `data` event, carrying the
      base64 text of the buffer, only when the message has a buffer.
    */
    method OnRecorderMessage(buffer: Option<seq<byte>>)
      modifies this
      ensures buffer.Some? ==> events == old(events) + [Data(Encode(buffer.value))]
      ensures buffer.None? ==> events == old(events)
      ensures isRecording == old(isRecording) && starting == old(starting) && stuck == old(stuck)
      ensures hasStream == old(hasStream)
      ensures recordingWorklet == old(recordingWorklet) && vuWorklet == old(vuWorklet)
      ensures deviceRequests == old(deviceRequests) && deferredStops == old(deferredStops)
    {
      if buffer.Some? {
        var text := ArrayBufferToBase64(buffer.value);
        events := events + [Data(text)];
      }
    }

    /** The meter worklet's message handler forwards the level. */
    method OnVuMessage(level: real)
      modifies this
      ensures events == old(events) + [Volume(level)]
      ensures isRecording == old(isRecording) && starting == old(starting) && stuck == old(stuck)
      ensures hasStream == old(hasStream)
      ensures recordingWorklet == old(recordingWorklet) && vuWorklet == old(vuWorklet)
      ensures deviceRequests == old(deviceRequests) && deferredStops == old(deferredStops)
    {
      events := events + [Volume(level)];
    }
  }
}
