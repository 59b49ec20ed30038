# Real-time audio and live-session core, in Dafny

This project models the audio pipeline and session client of a browser console
for a live, bidirectional model session.

- **Playback scheduler** (`AudioStreamer`): decodes 16-bit little-endian PCM and cuts it into
  pieces of at most 7680 samples. It queues them and starts them back to back on the output
  clock, keeping at most 0.2 s scheduled ahead.
- **Capture worklets**: convert microphone samples to 16-bit integers, pack them into
  2048-sample frames, and keep a volume envelope.
- **Capture lifecycle** (`AudioRecorder`): start with de-duplication, stop deferred while
  starting, classification of device errors, and base64 forwarding of frames.
- **Base64**: `btoa`/`atob` and `base64ToArrayBuffer`.
- **Session client** (`GenAILiveClient`): status machine, status-gated sends and prioritised
  dispatch of server messages into events.
- **Log store**: coalesces repeats and keeps at most 100 entries.
- **Custom tool registry**: a name-unique list.

Modules:

- `Wrappers`: `Option`.
- `Base64`: encoding per section 4 of RFC 4648, and `atob` as the forgiving-base64 decode of the
  WHATWG HTML standard. Also binary strings.
- `Pcm16`: 16-bit little-endian sample codec.
- `Utils`: `base64ToArrayBuffer`.
- `AudioStreamer`: the playback scheduler class and the functions specifying its loop.
- `Worklets`: `AudioProcessingWorklet` with its 2048-slot array, and `VolMeter`.
- `AudioRecorder`: the capture lifecycle class and `arrayBufferToBase64`.
- `LiveClient`: the message datatypes, dispatch as functions, and the client class.
- `LoggerStore`: the updater as a function, and the store class.
- `CustomTools`: `addTool` and `removeTool` as functions.

## Modelling conventions

- **Time.** Playback time is counted in sample ticks of the 24 kHz output context. A piece's
  duration is its length, and 0.1 s, 0.2 s and 50 ms become 2400, 4800 and 1200 ticks. The
  clock reading `now` is a parameter of every call that reads it. The retry timer's delay is
  kept in ticks.
- **Playback samples** are the 16-bit integers themselves; the `/ 32768` scaling is not applied.
- **Capture samples** are exact reals. Multiplying a 32-bit float by 32768 is exact, and the
  `Int16Array` store truncates toward zero, so `ToInt16Sample` is the source's conversion.
- **Asynchronous steps** are explicit methods:
  - `AudioRecorder.Settle` is the end of the start promise.
  - `GenAILiveClient.ConnectSettled` is the end of the transport connect.
  - `AudioStreamer.OnEnded` is a source's `onended` callback.
  - The retry timer firing is a call to `ScheduleNextBuffer`.
- **Outputs.** Emitted events and log entries are appended to `outputs`/`events`. Transport
  calls are appended to `calls`. Started playback sources are appended to `sources`.
- **Errors.** A thrown `InvalidCharacterError` from `atob` is a `None` result. Inside the
  message handler it ends the handler's outputs at that point.

Some behaviour of the code that the model states as written:

- The scheduler's watermark `scheduledTime` is not monotone. `addPCM16` on an idle streamer and
  `resume` reset it to `now + 0.1 s`, even when audio of an earlier turn is scheduled beyond
  that point (`AddPCM16`, `Resume`).
- `stop` on the scheduler does not clear `endOfQueueAudioSource`. That source's `onended` can
  therefore still call `onComplete` after a stop (`OnEnded`).
- A recorder start that fails after its first `await` calls `stop()` while `startingPromise`
  is still set. Its teardown is therefore deferred to the moment the start settles, together
  with any `stop` the caller issued meanwhile (`Settle`).
- A recorder start that fails before its first `await` behaves differently. Without
  `navigator.mediaDevices`, reading `getUserMedia` throws a `TypeError` synchronously. The
  `catch` emits the generic message and `stop()` tears down at once, because `startingPromise`
  is still null. The `finally` clears the null marker, and only then is the settled promise
  stored in `startingPromise`. Nothing clears it afterwards, so every later `start` returns
  that promise without requesting the device, and the recorder cannot record again (`Start`,
  phase `Stuck`).

## Model

| member | source | states |
|---|---|---|
| Base64.EncodeShape | services/audioRecorder.ts:13 | `btoa` output is padded to a multiple of 4 characters, has length 4·⌈n/3⌉, and uses only alphabet symbols and `=` |
| Base64.Encode | services/audioRecorder.ts:13 | the RFC 4648 encoding of bytes; `DecodeEncode` proves `Decode` inverts it and `EncodeShape` gives its length and alphabet |
| Base64.Decode | services/utils.ts:61 | the forgiving decode: whitespace and up to two trailing `=` removed, then four symbols to three bytes; `DecodeEncode` gives what it accepts, and `DecodeRejectsForeign`, `DecodeRejectsMisplacedPadding` and `DecodeRejectsLength` what it rejects |
| Base64.Btoa | services/audioRecorder.ts:13 | `btoa` succeeds exactly when every character code is below 256 |
| Base64.Atob | services/utils.ts:61 | `atob` succeeds exactly when the text decodes, and its result is a binary string |
| Base64.StripPaddingEncode | services/utils.ts:61 | the forgiving decode's padding step removes exactly the `=` padding `btoa` added |
| Base64.DecodeEncode | services/utils.ts:60-68 | decoding the encoding of any byte sequence returns exactly those bytes |
| Base64.DecodeRejectsForeign | services/utils.ts:61 | a character that is not in the alphabet, not `=` and not whitespace makes decoding fail |
| Base64.DecodeRejectsMisplacedPadding | services/utils.ts:60-61 | with whitespace removed, an `=` anywhere but the last place, or the second-to-last before a final `=`, of a text whose length is a multiple of 4 makes decoding fail |
| Base64.DecodeRejectsLength | services/utils.ts:60-61 | a text whose length without whitespace is 1 more than a multiple of 4 makes decoding fail |
| Base64.StripWhitespaceNoop | services/utils.ts:61 | removing whitespace leaves a text without whitespace unchanged, so the two rejection rules apply to such a text as written |
| Base64.AtobBtoa | services/utils.ts:61 | `atob(btoa(s)) == s` for every binary string |
| Utils.Base64ToArrayBuffer | services/utils.ts:60-68 | fails exactly when `atob` fails; otherwise the byte count is the binary string's length, byte i is the code of character i, and the result is the base64 decoding of the input |
| Pcm16.Int16LE | services/audioStreamer.ts:52 | a little-endian byte pair gives a signed 16-bit value, negative exactly when the high byte's top bit is set |
| Pcm16.Int16RoundTrip | services/audioStreamer.ts:52 | the byte pair of any 16-bit value reads back as that value |
| Pcm16.Int16BytesRoundTrip | services/audioStreamer.ts:52 | any byte pair is the byte pair of the value it reads as |
| Pcm16.Decode | services/audioStreamer.ts:48-56 | the samples of a little-endian 16-bit byte stream; `DecodeEncode` and `EncodeDecode` make it the inverse of `Encode` |
| Pcm16.DecodeEncode | services/audioStreamer.ts:48-56 | decoding the encoding of 16-bit samples returns the samples |
| Pcm16.EncodeDecode | services/audioStreamer.ts:48-56 | decoded samples are 16-bit, and re-encoding them gives the input without its trailing odd byte |
| AudioStreamer.AudioStreamer.ProcessPCM16Chunk | services/audioStreamer.ts:48-56 | ⌊n/2⌋ samples; sample i is the little-endian 16-bit value of bytes 2i and 2i+1; a trailing odd byte is ignored |
| AudioStreamer.Slice | services/audioStreamer.ts:62-68 | the pieces the slicing loop queues; `SliceSpec` states their concatenation, sizes and count |
| AudioStreamer.SliceSpec | services/audioStreamer.ts:62-68 | the pieces concatenate to the samples; none is empty; all but the last hold exactly 7680 samples; there are ⌈n/7680⌉ of them |
| AudioStreamer.SliceBuffer | services/audioStreamer.ts:62-68 | the slicing loop pushes exactly the pieces of `Slice` |
| AudioStreamer.DrainQueue | services/audioStreamer.ts:89-121 | the scheduling loop removes the first `Taken` pieces and starts them back to back from the watermark, which advances by their total duration |
| AudioStreamer.LayContiguous | services/audioStreamer.ts:119-120 | pieces start in queue order; the first at the watermark; each where the previous one ends |
| AudioStreamer.TakenHorizon | services/audioStreamer.ts:89 | every dequeued piece starts before the horizon; the loop stops only with an empty queue or the watermark at or past the horizon |
| AudioStreamer.ScheduleWindow | services/audioStreamer.ts:86-121 | every start of a pass lies in [raised watermark, now + 0.2 s), and starts strictly increase |
| AudioStreamer.RetryDelay | services/audioStreamer.ts:126-128 | when audio remains queued, the timer delay is the scheduled lead time minus 50 ms, with no clamping needed, and at least 150 ms |
| AudioStreamer.Schedule | services/audioStreamer.ts:86-131 | the state one scheduling pass leaves; `ScheduleKeeps`, `ScheduleWindow`, `LayContiguous` and `TakenHorizon` state what it keeps and where pieces start |
| AudioStreamer.AudioStreamer.constructor | services/audioStreamer.ts:5-16 | empty queue; not playing; no timer; watermark 0 |
| AudioStreamer.SchedulePass | services/audioStreamer.ts:86-131 | one pass computes exactly `Schedule`: the watermark raised to `now`, the FIFO prefix that fits the horizon started back to back, the timer armed iff audio remains, playing stopped only when drained and complete, and the end-of-queue source set by the piece that empties the queue |
| AudioStreamer.ScheduleKeeps | services/audioStreamer.ts:84-132 | a pass keeps every queued piece non-empty and at most 7680 samples; arms the timer iff audio remains; never moves the watermark back; keeps the end-of-queue source among the started ones; the started pieces followed by the queue are unchanged, so nothing is lost, duplicated or reordered |
| AudioStreamer.AudioStreamer.ScheduleNextBuffer | services/audioStreamer.ts:84-132 | the new scheduling state is `Schedule` of the old one; the class invariant holds afterwards, so started pieces followed by the queue still equal everything accepted |
| AudioStreamer.Enqueue | services/audioStreamer.ts:62-68 | appending the slices of a chunk to a well-formed queue gives a well-formed queue with the slices at the end |
| AudioStreamer.AudioStreamer.QueueChunk | services/audioStreamer.ts:58-68 | clears `isStreamComplete` and appends the sliced chunk after the old queue; nothing else changes |
| AudioStreamer.AudioStreamer.AddPCM16 | services/audioStreamer.ts:58-76 | clears `isStreamComplete`; appends the sliced chunk after the old queue; schedules from `now + 0.1 s` when idle, from the watermark when playing with an empty queue, and not at all otherwise |
| AudioStreamer.AudioStreamer.Stop | services/audioStreamer.ts:134-142 | empty queue; not playing; complete; watermark `now`; no timer |
| AudioStreamer.AudioStreamer.Resume | services/audioStreamer.ts:151-158 | clears `isStreamComplete`; watermark `now + 0.1 s`; nothing else changes |
| AudioStreamer.AudioStreamer.Complete | services/audioStreamer.ts:160-165 | sets `isStreamComplete`; fires `onComplete` exactly when the queue is empty |
| AudioStreamer.AudioStreamer.OnEnded | services/audioStreamer.ts:98-105 | only the current end-of-queue source ending with an empty queue clears the marker, and it fires `onComplete` iff the stream is complete |
| Worklets.ToInt16Sample | services/worklets.ts:33 | every stored sample lies in [-32768, 32767] |
| Worklets.ToInt16SampleSaturates | services/worklets.ts:33 | input at or beyond ±1.0 clamps to 32767 or -32768 instead of wrapping |
| Worklets.ToInt16SampleInverse | services/worklets.ts:33 | a sample `k / 32768` produced by playback converts back to `k` |
| Worklets.FramesSpec | services/worklets.ts:30-38 | frames followed by the rest are the pending stream; every frame holds 2048 samples; the rest holds fewer |
| Worklets.FramesSnoc | services/worklets.ts:33-36 | one more sample either completes and posts a frame, emptying the buffer, or joins the rest |
| Worklets.AudioProcessingWorklet.constructor | services/worklets.ts:4-5 | a 2048-slot buffer with nothing pending or posted |
| Worklets.AudioProcessingWorklet.Process | services/worklets.ts:11-17 | consumes `inputs[0][0]` only when it exists; always returns true |
| Worklets.AudioProcessingWorklet.SendAndClearBuffer | services/worklets.ts:19-28 | posts the pending samples only when there are some; the index becomes 0 |
| Worklets.AudioProcessingWorklet.ProcessChunk | services/worklets.ts:30-38 | posted frames followed by the new pending samples equal the old pending samples followed by the converted chunk; (index + len) div 2048 frames are posted; the index stays below 2048 |
| Worklets.AudioProcessingWorklet.Push | services/worklets.ts:33-36 | stores the sample; when that fills the buffer, the full frame is posted and nothing stays pending; otherwise the sample joins the pending samples and nothing is posted |
| Worklets.Envelope | services/worklets.ts:58 | `max(rms, 0.95 × level)`; `EnvelopeBounds`, `SilenceDecays` and `SilenceDecaysGeometrically` state its attack and decay |
| Worklets.EnvelopeBounds | services/worklets.ts:58 | the new level is at least the RMS and at least 0.95 × the old level, and equals one of them |
| Worklets.SilenceDecays | services/worklets.ts:58 | a silent block decays the level by 0.95 instead of dropping it to 0 |
| Worklets.SilenceDecaysGeometrically | services/worklets.ts:58 | after k silent blocks the level is old × 0.95^k |
| Worklets.SumSquares | services/worklets.ts:53-56 | the summing loop yields the sum of the squares of the block's samples |
| Worklets.VolMeter.constructor | services/worklets.ts:44-46 | the level starts at 0 |
| Worklets.VolMeter.Process | services/worklets.ts:48-63 | with a first channel present, accumulates the sum of squares, moves the level to `max(rms, 0.95·old)` and posts it; otherwise nothing changes; always returns true |
| AudioRecorder.ArrayBufferToBase64 | services/audioRecorder.ts:6-14 | builds the binary string byte by byte; the result is the RFC 4648 encoding of the bytes |
| AudioRecorder.ClassifyError | services/audioRecorder.ts:89-94 | NotFoundError/DevicesNotFoundError give the no-microphone message; NotAllowedError/PermissionDeniedError give the access-denied message; any other name gives the generic message; each holds in both directions |
| AudioRecorder.CaptureRoundTrip | services/audioRecorder.ts:69-74 | the text of a `data` event decodes back to the frame's bytes and samples |
| AudioRecorder.AudioRecorder.constructor | services/audioRecorder.ts:29-35 | idle, with no device requested and no events |
| AudioRecorder.AudioRecorder.Start | services/audioRecorder.ts:55-61 | joins an in-flight or stuck start without requesting the device; does nothing while recording; otherwise requests the device once and is starting; without `navigator.mediaDevices` it requests nothing, emits the generic error, tears down at once and is stuck for good |
| AudioRecorder.AudioRecorder.Settle | services/audioRecorder.ts:59-101 | clears the in-flight marker; on failure emits exactly one classified error and never records; on success records unless a stop was deferred; deferred teardowns run |
| AudioRecorder.AudioRecorder.Stop | services/audioRecorder.ts:104-110 | defers teardown while a start is pending; otherwise tears down at once, leaving a stuck recorder stuck |
| AudioRecorder.AudioRecorder.PerformStop | services/audioRecorder.ts:112-119 | not recording; stream and both worklets cleared; the result is independent of the prior state, so it is idempotent |
| AudioRecorder.AudioRecorder.OnRecorderMessage | services/audioRecorder.ts:69-74 | emits `data` with the buffer's base64 text only when the message carries a buffer |
| AudioRecorder.AudioRecorder.OnVuMessage | services/audioRecorder.ts:81-83 | forwards the level as a `volume` event |
| LiveClient.HandleServerContent | services/genaiLiveClient.ts:124-162 | the outputs of one server content; `InterruptedAlone`, `TurnCompleteFirst`, `AudioEventsInOrder` and `ContentEventSpec` state them |
| LiveClient.PartitionMultiset | services/genaiLiveClient.ts:137-138 | every part goes to exactly one of the audio and other lists |
| LiveClient.AudioPartsAppend | services/genaiLiveClient.ts:137 | the audio filter preserves order: filtering a concatenation filters each half |
| LiveClient.OtherPartsAppend | services/genaiLiveClient.ts:138 | the non-audio filter preserves order: filtering a concatenation filters each half |
| LiveClient.AudioOutputsSpec | services/genaiLiveClient.ts:140-146 | one `audio` event per audio part with data, in order, carrying the decoded bytes; parts without data are dropped; the loop completes iff all data decodes |
| LiveClient.InterruptedAlone | services/genaiLiveClient.ts:125-129 | with `interrupted` present, the only event is `interrupted` |
| LiveClient.TurnCompleteFirst | services/genaiLiveClient.ts:130-133 | with `turnComplete` present, `turncomplete` is the first event and is not repeated |
| LiveClient.AudioEventsInOrder | services/genaiLiveClient.ts:135-146 | the `audio` events of a server content are the decoded data of its audio parts with data, in order |
| LiveClient.ContentEventSpec | services/genaiLiveClient.ts:148-161 | at most one `content` event; with a model turn it holds only the non-audio parts and the grounding, and occurs iff the audio decoded and there are other parts or grounding; without a model turn, grounding emits the server content unchanged |
| LiveClient.ModelTurnEventKinds | services/genaiLiveClient.ts:135-161 | the model-turn and grounding outputs emit only `audio` and `content` events |
| LiveClient.ModelTurnAudio | services/genaiLiveClient.ts:135-157 | the `audio` payloads of the model-turn outputs are exactly those of the audio parts' loop |
| LiveClient.ModelTurnContents | services/genaiLiveClient.ts:135-161 | the model-turn and grounding outputs hold the trimmed content as their one `content` event exactly when the audio decoded and there are other parts or grounding; without a model turn, grounding alone yields the server content |
| LiveClient.TrimmedContentSpec | services/genaiLiveClient.ts:149-154 | the emitted content carries no audio part and neither status key; it keeps the role and the grounding |
| LiveClient.Dispatch | services/genaiLiveClient.ts:106-122 | the outputs of one server message; `DispatchPriority` states its branches |
| LiveClient.DispatchPriority | services/genaiLiveClient.ts:106-122 | exactly one branch, in priority order setupComplete > toolCall > toolCallCancellation > serverContent; otherwise only a `server.unknown` log and no event |
| LiveClient.JoinMimeTypesLength | services/genaiLiveClient.ts:173 | the realtime log is as long as all MIME types together plus two characters for each ", " between neighbours |
| LiveClient.JoinMimeTypesLayout | services/genaiLiveClient.ts:173 | in the realtime log, item i's MIME type sits at the offset given by the earlier types and separators, and ", " follows it when another item comes next |
| LiveClient.GenAILiveClient.constructor | services/genaiLiveClient.ts:36-37 | disconnected, with no session |
| LiveClient.GenAILiveClient.Connect | services/genaiLiveClient.ts:65-67 | refused, changing nothing, unless disconnected; otherwise `connecting`, never `connected` |
| LiveClient.GenAILiveClient.ConnectSettled | services/genaiLiveClient.ts:87-94 | success stores the session and leaves the status alone; failure resets to disconnected and answers false |
| LiveClient.GenAILiveClient.OnOpen | services/genaiLiveClient.ts:70-74 | the only transition to `connected`; logs, then emits `open` |
| LiveClient.GenAILiveClient.OnError | services/genaiLiveClient.ts:76-79 | logs, then emits `error`; the status is unchanged |
| LiveClient.GenAILiveClient.OnClose | services/genaiLiveClient.ts:80-84 | disconnected; logs "Disconnected: " followed by the reason, or by "No reason given" when it is empty, then emits `close` |
| LiveClient.GenAILiveClient.Disconnect | services/genaiLiveClient.ts:97-104 | without a session, false and no change in any status; otherwise closes and clears the session, disconnects and logs, so a second call is a no-op |
| LiveClient.GenAILiveClient.OnMessage | services/genaiLiveClient.ts:75 | appends exactly the dispatched outputs |
| LiveClient.GenAILiveClient.SendRealtimeInput | services/genaiLiveClient.ts:164-174 | nothing unless connected; sends one inline-data part per media item, in order, with its MIME type and data, and `turnComplete` false; logs the MIME types joined by ", " |
| LiveClient.GenAILiveClient.SendToolResponse | services/genaiLiveClient.ts:176-184 | nothing unless connected; sends only when `functionResponses` is present; always logs |
| LiveClient.GenAILiveClient.Send | services/genaiLiveClient.ts:186-191 | nothing unless connected; sends a single part as a one-element turn list and an array as is, with the given `turnComplete` or `true` when it is omitted, and logs them |
| LoggerStore.Occurrences | store/loggerStore.ts:30 | `count or 1` is at least 1 and equals a positive count |
| LoggerStore.Logged | store/loggerStore.ts:20-41 | the updater `log` passes to `set`; `LogCoalesces`, `LogAppends` and `LogBounded` state its result |
| LoggerStore.LogCoalesces | store/loggerStore.ts:21-32 | a repeat of the last entry adds nothing; that entry's count becomes `(count or 1) + 1` and its date the new date; other entries are unchanged |
| LoggerStore.LogAppends | store/loggerStore.ts:35-38 | anything else is appended at the end; below the bound nothing is dropped; at the bound exactly the oldest entry is dropped |
| LoggerStore.LogBounded | store/loggerStore.ts:35-38 | the list never exceeds `maxLogs`; at the bound the survivors are all entries but the oldest |
| LoggerStore.LogTwice | store/loggerStore.ts:21-32 | the same new entry logged twice in a row is one entry with count 2 |
| LoggerStore.NonConsecutiveRepeatsStaySeparate | store/loggerStore.ts:21 | a, b, a leaves b and a separate a as the newest entries |
| LoggerStore.LoggerStore.constructor | store/loggerStore.ts:17-18 | empty, with bound 100 |
| LoggerStore.LoggerStore.Log | store/loggerStore.ts:19-41 | the new list is the updater's result, and the bound is kept |
| LoggerStore.LoggerStore.ClearLogs | store/loggerStore.ts:43-45 | the list is empty |
| CustomTools.AddTool | hooks/useCustomTools.ts:8-14 | the updater `addTool` passes to `setCustomTools`; `AddToolSpec`, `AddToolUnique` and `AddToolIdempotent` state its result |
| CustomTools.AddToolSpec | hooks/useCustomTools.ts:8-14 | existing entries stay in place; the name is registered afterwards; the list grows by the tool, at the end, exactly when the name was absent |
| CustomTools.AddToolUnique | hooks/useCustomTools.ts:8-14 | adding preserves unique names |
| CustomTools.AddToolIdempotent | hooks/useCustomTools.ts:8-14 | adding the same tool twice equals adding it once |
| CustomTools.RemoveTool | hooks/useCustomTools.ts:16-18 | the updater `removeTool` passes to `setCustomTools`; `RemoveKeepsOthers`, `RemoveAppend` and `RemoveLength` state its result |
| CustomTools.RemoveLength | hooks/useCustomTools.ts:17 | removing never grows the list, and strictly shrinks it when the name was present |
| CustomTools.RemoveAbsent | hooks/useCustomTools.ts:17 | removing an absent name changes nothing |
| CustomTools.RemoveAppend | hooks/useCustomTools.ts:17 | removing from a concatenation removes from each half, so survivors keep their original order |
| CustomTools.RemoveKeepsOthers | hooks/useCustomTools.ts:17 | a tool is in the result exactly when it was in the list under another name, so no tool with the name remains |
| CustomTools.RemoveUnique | hooks/useCustomTools.ts:17 | removing preserves unique names |
| CustomTools.RemoveUndoesAdd | hooks/useCustomTools.ts:8-18 | removing a freshly added tool by its name restores the list |

## Left out

- Web Audio plumbing is not modelled: audio contexts, `AudioBuffer` creation, connecting
  sources and worklet nodes, the worklet registry (`addWorklet`), the gain ramp and gain-node
  rebuild in `stop`, and `context.resume()`. These are foreign browser objects. Only the
  started buffers and their start times are recorded.
- Floating point is not modelled beyond what the model needs. Playback keeps 16-bit integers
  rather than `int16 / 32768` floats, durations are exact tick counts, and a NaN capture
  sample is not modelled.
- Worklets.VolMeter.Process: the square root is not computed. `rms` is an input whose square
  times the block length must equal the accumulated sum. A first channel with no samples is
  excluded, because its NaN level is not representable. Render quanta always carry samples.
- `_processPCM16Chunk` reads the chunk's whole underlying buffer through `DataView`. The model
  takes the chunk to start at offset 0 of that buffer, as the callers create it.
- Promise interleavings, `setTimeout` firing and `onended` timing are explicit steps. The
  recorder's deferred teardowns run within `Settle`, in the order they were registered.
- AudioRecorder.AudioRecorder.Stop: on a stuck recorder the teardown registered on the
  settled promise runs on the next microtask; the model runs it at once. The recorder is
  already torn down there, so nothing observable differs.
- Device stream acquisition, the audio context and worklet loading are collapsed into one
  `StartOutcome`, which records only whether the stream was obtained before a failure.
- Console output (`console.error`, `console.log`) is not modelled. The client's log outputs
  carry no date; the store's entry date is supplied by the caller of `log`.
- The transport (`GoogleGenAI`, `Session`) is a sink recording calls. The connect config is
  passed through by the source and is not represented.
- Tool call payloads, function-call arguments and grounding metadata are opaque strings.
- The log store's `persist` to localStorage is not modelled. Nor is the in-place mutation of
  the previous entry object, which aliases the prior state's array; the new entry is a new
  value.
- `useLocalStorageState` persistence of custom tools is not modelled.
- The microphone sample rate option (16 kHz) plays no part in the capture logic and is not
  represented.
