/**
  The session protocol client: a status machine around one live session,
  status-gated send operations, and the prioritised dispatch of server
  messages into events and log entries. The transport is a sink recording
  the calls made on it; events and log entries go, in order, to `outputs`.
*/
module LiveClient {
  import opened Wrappers
  import opened Base64

  // ---------------------------------------------------------------------------
  // Messages
  // ---------------------------------------------------------------------------

  datatype Blob = Blob(mimeType: Option<string>, data: Option<string>)
  datatype Part = Part(text: Option<string>, inlineData: Option<Blob>)
  /** A model turn; `parts` may be missing, which counts as no parts. */
  datatype Content = Content(role: Option<string>, parts: Option<seq<Part>>)
  /** The grounding metadata, carried through unread. */
  datatype Grounding = Grounding(payload: string)

  /** Each `Option` field is `Some` exactly when the key is present. */
  datatype ServerContent = ServerContent(
    interrupted: Option<bool>,
    turnComplete: Option<bool>,
    modelTurn: Option<Content>,
    groundingMetadata: Option<Grounding>)

  datatype FunctionCall = FunctionCall(id: Option<string>, name: string, args: string)
  datatype ToolCall = ToolCall(functionCalls: seq<FunctionCall>)
  datatype ToolCallCancellation = ToolCallCancellation(ids: seq<string>)
  datatype SetupComplete = SetupComplete

  datatype ServerMessage = ServerMessage(
    setupComplete: Option<SetupComplete>,
    toolCall: Option<ToolCall>,
    toolCallCancellation: Option<ToolCallCancellation>,
    serverContent: Option<ServerContent>)

  datatype FunctionResponse = FunctionResponse(id: Option<string>, name: string, response: string)
  datatype ToolResponse = ToolResponse(functionResponses: Option<seq<FunctionResponse>>)

  /** One item of realtime media: its MIME type and base64 data. */
  datatype Media = Media(mimeType: string, data: string)

  /** The argument of `send`: one part or an array of parts. */
  datatype PartsArg = One(part: Part) | Many(parts: seq<Part>)

  // ---------------------------------------------------------------------------
  // Outputs and transport calls
  // ---------------------------------------------------------------------------

  datatype ClientEvent =
    | Open
    | Close(reason: string)
    | Error(message: string)
    | SetupCompleted
    | ToolCallEvent(toolCall: ToolCall)
    | CancellationEvent(cancellation: ToolCallCancellation)
    | ContentEvent(content: ServerContent)
    | Interrupted
    | TurnComplete
    | Audio(bytes: seq<byte>)

  datatype LogMessage =
    | Text(text: string)
    | MessageLog(message: ServerMessage)
    | ToolCallLog(toolCall: ToolCall)
    | CancellationLog(cancellation: ToolCallCancellation)
    | ContentLog(serverContent: ServerContent)
    | ClientContentLog(turns: seq<Part>, turnComplete: bool)
    | ToolResponseLog(toolResponse: ToolResponse)

  datatype Output = Event(event: ClientEvent) | Log(kind: string, message: LogMessage)

  datatype TransportCall =
    | LiveConnect(model: string)
    | CloseSession(session: nat)
    | SendClientContent(turns: seq<Part>, turnComplete: bool)
    | SendToolResponses(functionResponses: seq<FunctionResponse>)

  datatype Status = Disconnected | Connecting | Connected

  // ---------------------------------------------------------------------------
  // Projections used to state properties
  // ---------------------------------------------------------------------------

  /** The events among `outs`, in order. */
  function Events(outs: seq<Output>): (events: seq<ClientEvent>)
    ensures |events| <= |outs|
  {
    if outs == [] then []
    else (if outs[0].Event? then [outs[0].event] else []) + Events(outs[1..])
  }

  lemma {:induction false} EventsAppend(a: seq<Output>, b: seq<Output>)
    ensures Events(a + b) == Events(a) + Events(b)
    decreases |a|
  {
    if a == [] {
      assert a + b == b;
    } else {
      EventsAppend(a[1..], b);
      var head := (if a[0].Event? then [a[0].event] else []);
      assert Events(a + b) == head + Events(a[1..] + b) by {
        assert (a + b)[0] == a[0];
        assert (a + b)[1..] == a[1..] + b;
      }
      assert head + (Events(a[1..]) + Events(b)) == (head + Events(a[1..])) + Events(b);
    }
  }

  /** The payloads of the `audio` events, in order. */
  function AudioPayloads(events: seq<ClientEvent>): seq<seq<byte>>
  {
    if events == [] then []
    else (if events[0].Audio? then [events[0].bytes] else []) + AudioPayloads(events[1..])
  }

  /** The `content` events, in order. */
  function ContentEvents(events: seq<ClientEvent>): seq<ClientEvent>
  {
    if events == [] then []
    else (if events[0].ContentEvent? then [events[0]] else []) + ContentEvents(events[1..])
  }

  lemma {:induction false} AudioPayloadsAppend(a: seq<ClientEvent>, b: seq<ClientEvent>)
    ensures AudioPayloads(a + b) == AudioPayloads(a) + AudioPayloads(b)
    decreases |a|
  {
    if a == [] {
      assert a + b == b;
    } else {
      AudioPayloadsAppend(a[1..], b);
      var head := (if a[0].Audio? then [a[0].bytes] else []);
      assert AudioPayloads(a + b) == head + AudioPayloads(a[1..] + b) by {
        assert (a + b)[0] == a[0];
        assert (a + b)[1..] == a[1..] + b;
      }
      assert head + (AudioPayloads(a[1..]) + AudioPayloads(b)) == (head + AudioPayloads(a[1..])) + AudioPayloads(b);
    }
  }

  lemma {:induction false} ContentEventsAppend(a: seq<ClientEvent>, b: seq<ClientEvent>)
    ensures ContentEvents(a + b) == ContentEvents(a) + ContentEvents(b)
    decreases |a|
  {
    if a == [] {
      assert a + b == b;
    } else {
      ContentEventsAppend(a[1..], b);
      var head := (if a[0].ContentEvent? then [a[0]] else []);
      assert ContentEvents(a + b) == head + ContentEvents(a[1..] + b) by {
        assert (a + b)[0] == a[0];
        assert (a + b)[1..] == a[1..] + b;
      }
      assert head + (ContentEvents(a[1..]) + ContentEvents(b)) == (head + ContentEvents(a[1..])) + ContentEvents(b);
    }
  }

  // ---------------------------------------------------------------------------
  // Server content
  // ---------------------------------------------------------------------------

  /** `inlineData?.mimeType?.startsWith("audio/")`. */
  predicate IsAudio(p: Part)
  {
    p.inlineData.Some? && p.inlineData.value.mimeType.Some? && "audio/" <= p.inlineData.value.mimeType.value
  }

  function AudioParts(parts: seq<Part>): (audio: seq<Part>)
    ensures forall i :: 0 <= i < |audio| ==> IsAudio(audio[i])
  {
    if parts == [] then []
    else (if IsAudio(parts[0]) then [parts[0]] else []) + AudioParts(parts[1..])
  }

  function OtherParts(parts: seq<Part>): (other: seq<Part>)
    ensures forall i :: 0 <= i < |other| ==> !IsAudio(other[i])
  {
    if parts == [] then []
    else (if IsAudio(parts[0]) then [] else [parts[0]]) + OtherParts(parts[1..])
  }

  /** The audio/other split is a partition: every part lands in exactly one side. */
  lemma {:induction false} PartitionMultiset(parts: seq<Part>)
    ensures multiset(AudioParts(parts)) + multiset(OtherParts(parts)) == multiset(parts)
    decreases |parts|
  {
    if parts != [] {
      PartitionMultiset(parts[1..]);
      assert parts == [parts[0]] + parts[1..];
    }
  }

  /** The split keeps order: splitting a concatenation splits each half. */
  lemma {:induction false} AudioPartsAppend(parts: seq<Part>, more: seq<Part>)
    ensures AudioParts(parts + more) == AudioParts(parts) + AudioParts(more)
    decreases |parts|
  {
    if parts == [] {
      assert parts + more == more;
    } else {
      AudioPartsAppend(parts[1..], more);
      var head := (if IsAudio(parts[0]) then [parts[0]] else []);
      assert AudioParts(parts + more) == head + AudioParts(parts[1..] + more) by {
        assert (parts + more)[0] == parts[0];
        assert (parts + more)[1..] == parts[1..] + more;
      }
      assert head + (AudioParts(parts[1..]) + AudioParts(more)) == (head + AudioParts(parts[1..])) + AudioParts(more);
    }
  }

  lemma {:induction false} OtherPartsAppend(parts: seq<Part>, more: seq<Part>)
    ensures OtherParts(parts + more) == OtherParts(parts) + OtherParts(more)
    decreases |parts|
  {
    if parts == [] {
      assert parts + more == more;
    } else {
      OtherPartsAppend(parts[1..], more);
      var head := (if IsAudio(parts[0]) then [] else [parts[0]]);
      assert OtherParts(parts + more) == head + OtherParts(parts[1..] + more) by {
        assert (parts + more)[0] == parts[0];
        assert (parts + more)[1..] == parts[1..] + more;
      }
      assert head + (OtherParts(parts[1..]) + OtherParts(more)) == (head + OtherParts(parts[1..])) + OtherParts(more);
    }
  }

  /** `p.inlineData?.data`, with the empty string for a missing (falsy) value. */
  function DataOf(p: Part): string
  {
    if p.inlineData.Some? && p.inlineData.value.data.Some? then p.inlineData.value.data.value else ""
  }

  /** Decimal digits of `n`, as a template literal prints it. */
  function Decimal(n: nat): (s: string)
    ensures |s| > 0
  {
    var digit := ['0' + (n % 10) as char];
    if n < 10 then digit else Decimal(n / 10) + digit
  }

  /**
    The audio parts' `forEach`: each part with data is decoded and yields an
    `audio` event and a `server.audio` log. A decoding failure throws out of
    the handler: the outputs stop there and `ok` is false.
  */
  function AudioOutputs(audio: seq<Part>): (res: (seq<Output>, bool))
  {
    if audio == [] then ([], true)
    else
      var data := DataOf(audio[0]);
      if data == "" then AudioOutputs(audio[1..])
      else match Decode(data)
        case None => ([], false)
        case Some(bytes) =>
          var rest := AudioOutputs(audio[1..]);
          ([Event(Audio(bytes)), Log("server.audio", Text("buffer (" + Decimal(|bytes|) + ")"))] + rest.0, rest.1)
  }

  /** Every part's data, when present, is valid base64. */
  predicate AllDecode(parts: seq<Part>)
  {
    forall p :: p in parts ==> DataOf(p) == "" || Decode(DataOf(p)).Some?
  }

  lemma AllDecodeCons(parts: seq<Part>)
    requires parts != []
    ensures AllDecode(parts) <==> (DataOf(parts[0]) == "" || Decode(DataOf(parts[0])).Some?) && AllDecode(parts[1..])
  {
    assert parts == [parts[0]] + parts[1..];
  }

  /** The decoded data of the parts that carry data, in order. */
  function ExpectedAudio(parts: seq<Part>): seq<seq<byte>>
    requires AllDecode(parts)
  {
    if parts == [] then []
    else if DataOf(parts[0]) == "" then ExpectedAudio(parts[1..])
    else [Decode(DataOf(parts[0])).value] + ExpectedAudio(parts[1..])
  }

  /**
    One `audio` event per audio part with data, in order, carrying the decoded
    bytes, and no other event; the handler completes exactly when all that
    data decodes.
  */
  lemma {:induction false} AudioOutputsSpec(audio: seq<Part>)
    ensures AudioOutputs(audio).1 <==> AllDecode(audio)
    ensures forall e :: e in Events(AudioOutputs(audio).0) ==> e.Audio?
    ensures AllDecode(audio) ==> AudioPayloads(Events(AudioOutputs(audio).0)) == ExpectedAudio(audio)
    decreases |audio|
  {
    if audio != [] {
      AudioOutputsSpec(audio[1..]);
      AllDecodeCons(audio);
      var data := DataOf(audio[0]);
      if data != "" && Decode(data).Some? {
        var bytes := Decode(data).value;
        var rest := AudioOutputs(audio[1..]).0;
        var head := [Event(Audio(bytes)), Log("server.audio", Text("buffer (" + Decimal(|bytes|) + ")"))];
        EventsAppend(head, rest);
        assert Events(head) == [Audio(bytes)];
        AudioPayloadsAppend([Audio(bytes)], Events(rest));
      }
    }
  }

  /** `handleServerContent`. */
  function HandleServerContent(sc: ServerContent): seq<Output>
  {
    if sc.interrupted.Some? then
      [Log("server.content", Text("interrupted")), Event(Interrupted)]
    else
      var head := if sc.turnComplete.Some? then [Log("server.content", Text("turnComplete")), Event(TurnComplete)] else [];
      head + ModelTurnOutputs(sc)
  }

  /** The content emitted for a model turn: its non-audio parts and the grounding. */
  function TrimmedContent(sc: ServerContent): ServerContent
    requires sc.modelTurn.Some?
  {
    var turn := sc.modelTurn.value;
    ServerContent(None, None, Some(Content(turn.role, Some(OtherParts(turn.parts.GetOr([]))))), sc.groundingMetadata)
  }

  function ModelTurnOutputs(sc: ServerContent): seq<Output>
  {
    match sc.modelTurn
    case Some(turn) =>
      var parts := turn.parts.GetOr([]);
      var (audioOuts, ok) := AudioOutputs(AudioParts(parts));
      if !ok then audioOuts
      else if |OtherParts(parts)| > 0 || sc.groundingMetadata.Some? then
        var content := TrimmedContent(sc);
        audioOuts + [Event(ContentEvent(content)), Log("server.content", ContentLog(content))]
      else audioOuts
    case None =>
      if sc.groundingMetadata.Some? then [Event(ContentEvent(sc)), Log("server.content", ContentLog(sc))] else []
  }

  /** `interrupted` pre-empts everything else in the same server content. */
  lemma InterruptedAlone(sc: ServerContent)
    requires sc.interrupted.Some?
    ensures Events(HandleServerContent(sc)) == [Interrupted]
  {
    assert Events([Event(Interrupted)]) == [Interrupted];
  }

  /** The model-turn and grounding outputs emit only `audio` and `content` events. */
  lemma ModelTurnEventKinds(sc: ServerContent)
    ensures forall e :: e in Events(ModelTurnOutputs(sc)) ==> e.Audio? || e.ContentEvent?
  {
    match sc.modelTurn
    case Some(turn) =>
      var parts := turn.parts.GetOr([]);
      var audioOuts := AudioOutputs(AudioParts(parts)).0;
      AudioOutputsSpec(AudioParts(parts));
      if AudioOutputs(AudioParts(parts)).1 && (|OtherParts(parts)| > 0 || sc.groundingMetadata.Some?) {
        var content := TrimmedContent(sc);
        var tail := [Event(ContentEvent(content)), Log("server.content", ContentLog(content))];
        EventsAppend(audioOuts, tail);
        assert Events(tail) == [ContentEvent(content)];
      }
    case None =>
      if sc.groundingMetadata.Some? {
        assert Events([Event(ContentEvent(sc)), Log("server.content", ContentLog(sc))]) == [ContentEvent(sc)];
      }
  }

  /** The `audio` payloads of the model-turn outputs are those of the audio parts' loop. */
  lemma ModelTurnAudio(sc: ServerContent)
    requires sc.modelTurn.Some?
    ensures AudioPayloads(Events(ModelTurnOutputs(sc)))
         == AudioPayloads(Events(AudioOutputs(AudioParts(sc.modelTurn.value.parts.GetOr([]))).0))
  {
    var parts := sc.modelTurn.value.parts.GetOr([]);
    var audioOuts := AudioOutputs(AudioParts(parts)).0;
    if AudioOutputs(AudioParts(parts)).1 && (|OtherParts(parts)| > 0 || sc.groundingMetadata.Some?) {
      var content := TrimmedContent(sc);
      var tail := [Event(ContentEvent(content)), Log("server.content", ContentLog(content))];
      EventsAppend(audioOuts, tail);
      assert Events(tail) == [ContentEvent(content)];
      AudioPayloadsAppend(Events(audioOuts), [ContentEvent(content)]);
    }
  }

  /**
    `turnComplete` is announced before any audio or content of the same
    server content, and only once.
  */
  lemma TurnCompleteFirst(sc: ServerContent)
    requires sc.interrupted.None? && sc.turnComplete.Some?
    ensures var events := Events(HandleServerContent(sc));
      |events| > 0 && events[0] == TurnComplete && TurnComplete !in events[1..]
  {
    var head := [Log("server.content", Text("turnComplete")), Event(TurnComplete)];
    var outs := ModelTurnOutputs(sc);
    assert HandleServerContent(sc) == head + outs;
    EventsAppend(head, outs);
    assert Events(head) == [TurnComplete];
    var events := Events(HandleServerContent(sc));
    assert events == [TurnComplete] + Events(outs);
    assert events[1..] == Events(outs);
    ModelTurnEventKinds(sc);
  }

  /**
    The `audio` events of a server content carry, in order, the decoded data of
    its audio parts that have data, whenever all that data is valid base64.
  */
  lemma AudioEventsInOrder(sc: ServerContent)
    requires sc.interrupted.None? && sc.modelTurn.Some?
    requires AllDecode(AudioParts(sc.modelTurn.value.parts.GetOr([])))
    ensures AudioPayloads(Events(HandleServerContent(sc))) == ExpectedAudio(AudioParts(sc.modelTurn.value.parts.GetOr([])))
  {
    var head := if sc.turnComplete.Some? then [Log("server.content", Text("turnComplete")), Event(TurnComplete)] else [];
    EventsAppend(head, ModelTurnOutputs(sc));
    AudioPayloadsAppend(Events(head), Events(ModelTurnOutputs(sc)));
    assert AudioPayloads(Events(head)) == [] by {
      if sc.turnComplete.Some? {
        assert Events(head) == [TurnComplete];
      }
    }
    ModelTurnAudio(sc);
    AudioOutputsSpec(AudioParts(sc.modelTurn.value.parts.GetOr([])));
  }

  /**
    At most one `content` event. With a model turn, it holds only the non-audio
    parts and the grounding, and occurs exactly when the audio data all decoded
    and there are non-audio parts or grounding. Without a model turn, grounding
    alone makes the server content itself the one `content` event.
  */
  lemma ContentEventSpec(sc: ServerContent)
    requires sc.interrupted.None?
    ensures var contents := ContentEvents(Events(HandleServerContent(sc)));
      && |contents| <= 1
      && (sc.modelTurn.Some? ==>
          var parts := sc.modelTurn.value.parts.GetOr([]);
          && (|contents| == 1 <==> AllDecode(AudioParts(parts)) && (|OtherParts(parts)| > 0 || sc.groundingMetadata.Some?))
          && (|contents| == 1 ==> contents[0] == ContentEvent(TrimmedContent(sc))))
      && (sc.modelTurn.None? ==> contents == if sc.groundingMetadata.Some? then [ContentEvent(sc)] else [])
  {
    var head := if sc.turnComplete.Some? then [Log("server.content", Text("turnComplete")), Event(TurnComplete)] else [];
    EventsAppend(head, ModelTurnOutputs(sc));
    ContentEventsAppend(Events(head), Events(ModelTurnOutputs(sc)));
    assert ContentEvents(Events(head)) == [] by {
      if sc.turnComplete.Some? {
        assert Events(head) == [TurnComplete];
      }
    }
    ModelTurnContents(sc);
  }

  /** The `content` events of the model-turn and grounding outputs alone. */
  lemma ModelTurnContents(sc: ServerContent)
    ensures ContentEvents(Events(ModelTurnOutputs(sc))) ==
      match sc.modelTurn
      case Some(turn) =>
        var parts := turn.parts.GetOr([]);
        if AllDecode(AudioParts(parts)) && (|OtherParts(parts)| > 0 || sc.groundingMetadata.Some?)
        then [ContentEvent(TrimmedContent(sc))] else []
      case None => if sc.groundingMetadata.Some? then [ContentEvent(sc)] else []
  {
    match sc.modelTurn
    case Some(turn) =>
      var parts := turn.parts.GetOr([]);
      var audioOuts := AudioOutputs(AudioParts(parts)).0;
      AudioOutputsSpec(AudioParts(parts));
      NoContentAmongAudio(Events(audioOuts));
      if AudioOutputs(AudioParts(parts)).1 && (|OtherParts(parts)| > 0 || sc.groundingMetadata.Some?) {
        var content := TrimmedContent(sc);
        var tail := [Event(ContentEvent(content)), Log("server.content", ContentLog(content))];
        EventsAppend(audioOuts, tail);
        assert Events(tail) == [ContentEvent(content)];
        ContentEventsAppend(Events(audioOuts), [ContentEvent(content)]);
      }
    case None =>
      if sc.groundingMetadata.Some? {
        assert Events([Event(ContentEvent(sc)), Log("server.content", ContentLog(sc))]) == [ContentEvent(sc)];
      }
  }

  lemma {:induction false} NoContentAmongAudio(events: seq<ClientEvent>)
    requires forall e :: e in events ==> e.Audio?
    ensures ContentEvents(events) == []
    decreases |events|
  {
    if events != [] {
      assert events[0] in events;
      assert forall e :: e in events[1..] ==> e in events;
      NoContentAmongAudio(events[1..]);
    }
  }

  /** The content emitted for a model turn holds no audio part and neither status key. */
  lemma TrimmedContentSpec(sc: ServerContent)
    requires sc.modelTurn.Some?
    ensures var c := TrimmedContent(sc);
      && c.interrupted.None? && c.turnComplete.None?
      && c.modelTurn.Some? && c.modelTurn.value.parts.Some?
      && (forall p :: p in c.modelTurn.value.parts.value ==> !IsAudio(p))
      && c.modelTurn.value.role == sc.modelTurn.value.role
      && c.groundingMetadata == sc.groundingMetadata
  {
  }

  // ---------------------------------------------------------------------------
  // Dispatch
  // ---------------------------------------------------------------------------

  /** `onMessage`: the first present field, in priority order, decides. */
  function Dispatch(msg: ServerMessage): seq<Output>
  {
    if msg.setupComplete.Some? then
      [Log("server.setupComplete", MessageLog(msg)), Event(SetupCompleted)]
    else if msg.toolCall.Some? then
      [Log("server.toolCall", ToolCallLog(msg.toolCall.value)), Event(ToolCallEvent(msg.toolCall.value))]
    else if msg.toolCallCancellation.Some? then
      [Log("server.toolCallCancellation", CancellationLog(msg.toolCallCancellation.value)),
       Event(CancellationEvent(msg.toolCallCancellation.value))]
    else if msg.serverContent.Some? then
      HandleServerContent(msg.serverContent.value)
    else
      [Log("server.unknown", MessageLog(msg))]
  }

  /**
    Exactly one branch is taken: a higher-priority field hides every lower one,
    and a message with none of the four only logs `server.unknown`.
  */
  lemma DispatchPriority(msg: ServerMessage)
    ensures msg.setupComplete.Some? ==> Events(Dispatch(msg)) == [SetupCompleted]
    ensures msg.setupComplete.None? && msg.toolCall.Some? ==>
      Events(Dispatch(msg)) == [ToolCallEvent(msg.toolCall.value)]
    ensures msg.setupComplete.None? && msg.toolCall.None? && msg.toolCallCancellation.Some? ==>
      Events(Dispatch(msg)) == [CancellationEvent(msg.toolCallCancellation.value)]
    ensures msg.setupComplete.None? && msg.toolCall.None? && msg.toolCallCancellation.None? && msg.serverContent.Some? ==>
      Dispatch(msg) == HandleServerContent(msg.serverContent.value)
    ensures msg.setupComplete.None? && msg.toolCall.None? && msg.toolCallCancellation.None? && msg.serverContent.None? ==>
      Events(Dispatch(msg)) == [] && |Dispatch(msg)| == 1 && Dispatch(msg)[0].Log? && Dispatch(msg)[0].kind == "server.unknown"
  {
    if msg.setupComplete.Some? {
      assert Events([Event(SetupCompleted)]) == [SetupCompleted];
    } else if msg.toolCall.Some? {
      assert Events([Event(ToolCallEvent(msg.toolCall.value))]) == [ToolCallEvent(msg.toolCall.value)];
    } else if msg.toolCallCancellation.Some? {
      var c := msg.toolCallCancellation.value;
      assert Events([Event(CancellationEvent(c))]) == [CancellationEvent(c)];
    }
  }

  // ---------------------------------------------------------------------------
  // Outbound payloads
  // ---------------------------------------------------------------------------

  /** `Array.isArray(parts) ? parts : [parts]`. */
  function Turns(arg: PartsArg): (turns: seq<Part>)
    ensures arg.One? ==> turns == [arg.part]
    ensures arg.Many? ==> turns == arg.parts
  {
    match arg
    case One(p) => [p]
    case Many(ps) => ps
  }

  /** One inline-data part per media item, in order. */
  function MediaParts(media: seq<Media>): (turns: seq<Part>)
    ensures |turns| == |media|
    ensures forall i :: 0 <= i < |media| ==>
      turns[i] == Part(None, Some(Blob(Some(media[i].mimeType), Some(media[i].data))))
  {
    seq(|media|, i requires 0 <= i < |media| => Part(None, Some(Blob(Some(media[i].mimeType), Some(media[i].data)))))
  }

  /** `media.map(m => m.mimeType).join(', ')`. */
  function JoinMimeTypes(media: seq<Media>): string
  {
    if media == [] then ""
    else if |media| == 1 then media[0].mimeType
    else media[0].mimeType + ", " + JoinMimeTypes(media[1..])
  }

  /**
    Where item `i`'s MIME type starts in the joined text: after every earlier
    MIME type and its ", ".
  */
  ghost function MimeOffset(media: seq<Media>, i: nat): nat
    requires i <= |media|
  {
    if i == 0 then 0 else |media[0].mimeType| + 2 + MimeOffset(media[1..], i - 1)
  }

  /** The realtime log is as long as all the MIME types plus ", " between neighbours. */
  lemma {:induction false} JoinMimeTypesLength(media: seq<Media>)
    ensures |JoinMimeTypes(media)| == if media == [] then 0 else MimeOffset(media, |media|) - 2
    decreases |media|
  {
    if |media| == 1 {
      assert MimeOffset(media, 1) == |media[0].mimeType| + 2 + MimeOffset(media[1..], 0);
    } else if |media| > 1 {
      JoinMimeTypesLength(media[1..]);
      assert MimeOffset(media, |media|) == |media[0].mimeType| + 2 + MimeOffset(media[1..], |media| - 1);
    }
  }

  /** A slice past the first part of a concatenation is a slice of the second part. */
  lemma SliceAfter(a: string, b: string, lo: nat, hi: nat)
    requires lo <= hi <= |b|
    ensures (a + b)[|a| + lo..|a| + hi] == b[lo..hi]
  {
  }

  /**
    The realtime log lists the MIME types in order: each sits at its offset,
    and ", " separates it from the next.
  */
  lemma {:induction false} JoinMimeTypesLayout(media: seq<Media>, i: nat)
    requires i < |media|
    ensures MimeOffset(media, i) + |media[i].mimeType| <= |JoinMimeTypes(media)|
    ensures JoinMimeTypes(media)[MimeOffset(media, i)..MimeOffset(media, i) + |media[i].mimeType|] == media[i].mimeType
    ensures i + 1 < |media| ==>
      && MimeOffset(media, i + 1) == MimeOffset(media, i) + |media[i].mimeType| + 2
      && MimeOffset(media, i + 1) <= |JoinMimeTypes(media)|
      && JoinMimeTypes(media)[MimeOffset(media, i) + |media[i].mimeType|..MimeOffset(media, i + 1)] == ", "
    decreases i
  {
    var head := media[0].mimeType;
    if i == 0 {
      assert MimeOffset(media, 0) == 0;
      if |media| > 1 {
        var joined := JoinMimeTypes(media);
        assert joined == head + ", " + JoinMimeTypes(media[1..]);
        assert MimeOffset(media, 1) == |head| + 2 + MimeOffset(media[1..], 0);
        assert joined[..|head|] == head;
        assert joined[|head|..|head| + 2] == ", ";
      }
    } else {
      JoinMimeTypesShift(media, i);
    }
  }

  /** The inductive step of `JoinMimeTypesLayout`: item `i` is item `i - 1` of the tail, shifted. */
  lemma {:induction false} JoinMimeTypesShift(media: seq<Media>, i: nat)
    requires 0 < i < |media|
    ensures MimeOffset(media, i) + |media[i].mimeType| <= |JoinMimeTypes(media)|
    ensures JoinMimeTypes(media)[MimeOffset(media, i)..MimeOffset(media, i) + |media[i].mimeType|] == media[i].mimeType
    ensures i + 1 < |media| ==>
      && MimeOffset(media, i + 1) == MimeOffset(media, i) + |media[i].mimeType| + 2
      && MimeOffset(media, i + 1) <= |JoinMimeTypes(media)|
      && JoinMimeTypes(media)[MimeOffset(media, i) + |media[i].mimeType|..MimeOffset(media, i + 1)] == ", "
    decreases i, 0
  {
    var rest := media[1..];
    var prefix := media[0].mimeType + ", ";
    JoinMimeTypesLayout(rest, i - 1);
    var tail := JoinMimeTypes(rest);
    var off := MimeOffset(rest, i - 1);
    var len := |media[i].mimeType|;
    assert JoinMimeTypes(media) == prefix + tail;
    assert MimeOffset(media, i) == |prefix| + off;
    assert rest[i - 1] == media[i];
    SliceAfter(prefix, tail, off, off + len);
    if i + 1 < |media| {
      assert MimeOffset(media, i + 1) == |prefix| + MimeOffset(rest, i);
      SliceAfter(prefix, tail, off + len, MimeOffset(rest, i));
    }
  }

  /** `e.reason || 'No reason given'`. */
  function CloseText(reason: string): (text: string)
    ensures reason != "" ==> text == "Disconnected: " + reason
    ensures reason == "" ==> text == "Disconnected: No reason given"
  {
    "Disconnected: " + (if reason == "" then "No reason given" else reason)
  }

  // ---------------------------------------------------------------------------
  // The client
  // ---------------------------------------------------------------------------

  class GenAILiveClient {
    var status: Status
    /** The handle of the open session, if any. */
    var session: Option<nat>
    /** Transport connects awaiting their result. */
    var pendingConnects: nat
    var outputs: seq<Output>
    var calls: seq<TransportCall>

    constructor ()
      ensures status == Disconnected && session == None && pendingConnects == 0
      ensures outputs == [] && calls == []
    {
      status := Disconnected;
      session := None;
      pendingConnects := 0;
      outputs := [];
      calls := [];
    }

    /**
      `connect`, up to its `await`: refused unless disconnected; otherwise the
      status becomes `connecting` (never `connected`) and the transport is asked
      to connect.
    */
    method Connect(model: string) returns (started: bool)
      modifies this
      ensures started <==> old(status) == Disconnected
      ensures !started ==> unchanged(this)
      ensures started ==>
        && status == Connecting && calls == old(calls) + [LiveConnect(model)]
        && pendingConnects == old(pendingConnects) + 1
        && session == old(session) && outputs == old(outputs)
    {
      if status != Disconnected {
        return false;
      }
      status := Connecting;
      calls := calls + [LiveConnect(model)];
      pendingConnects := pendingConnects + 1;
      started := true;
    }

    /**
      `connect` after its `await`: with a session handle it stores the session
      and answers true, leaving the status to `onopen`; a failed connect resets
      the status to `disconnected` and answers false.
    */
    method ConnectSettled(handle: Option<nat>) returns (connected: bool)
      requires pendingConnects > 0
      modifies this
      ensures pendingConnects == old(pendingConnects) - 1
      ensures connected <==> handle.Some?
      ensures connected ==> session == handle && status == old(status)
      ensures !connected ==> session == old(session) && status == Disconnected
      ensures outputs == old(outputs) && calls == old(calls)
    {
      pendingConnects := pendingConnects - 1;
      if handle.None? {
        status := Disconnected;
        return false;
      }
      session := handle;
      connected := true;
    }

    /** `onopen`: the only way to become connected. */
    method OnOpen()
      modifies this
      ensures status == Connected
      ensures outputs == old(outputs) + [Log("client.open", Text("Connected")), Event(Open)]
      ensures session == old(session) && calls == old(calls) && pendingConnects == old(pendingConnects)
    {
      status := Connected;
      outputs := outputs + [Log("client.open", Text("Connected")), Event(Open)];
    }

    /** `onerror`: logged and forwarded, status unchanged. */
    method OnError(message: string)
      modifies this
      ensures outputs == old(outputs) + [Log("server.error", Text(message)), Event(Error(message))]
      ensures status == old(status) && session == old(session)
      ensures calls == old(calls) && pendingConnects == old(pendingConnects)
    {
      outputs := outputs + [Log("server.error", Text(message)), Event(Error(message))];
    }

    /** `onclose`: disconnected; the session handle is kept. */
    method OnClose(reason: string)
      modifies this
      ensures status == Disconnected
      ensures outputs == old(outputs) + [Log("server.close", Text(CloseText(reason))), Event(Close(reason))]
      ensures session == old(session) && calls == old(calls) && pendingConnects == old(pendingConnects)
    {
      status := Disconnected;
      outputs := outputs + [Log("server.close", Text(CloseText(reason))), Event(Close(reason))];
    }

    /**
      `disconnect`: without a session nothing happens, whatever the status;
      otherwise the session is closed and cleared, so a second call is a no-op.
    */
    method Disconnect() returns (closed: bool)
      modifies this
      ensures closed <==> old(session).Some?
      ensures !closed ==> unchanged(this)
      ensures closed ==>
        && session == None && status == Disconnected
        && calls == old(calls) + [CloseSession(old(session).value)]
        && outputs == old(outputs) + [Log("client.close", Text("Disconnected"))]
        && pendingConnects == old(pendingConnects)
    {
      if session.None? {
        return false;
      }
      calls := calls + [CloseSession(session.value)];
      session := None;
      status := Disconnected;
      outputs := outputs + [Log("client.close", Text("Disconnected"))];
      closed := true;
    }

    /** `onmessage`: the dispatched outputs are appended. */
    method OnMessage(msg: ServerMessage)
      modifies this
      ensures outputs == old(outputs) + Dispatch(msg)
      ensures status == old(status) && session == old(session)
      ensures calls == old(calls) && pendingConnects == old(pendingConnects)
    {
      outputs := outputs + Dispatch(msg);
    }

    /**
      `sendRealtimeInput`: only when connected; one inline-data part per item
      sent with `turnComplete` false (when a session exists), then logged.
    */
    method SendRealtimeInput(media: seq<Media>)
      modifies this
      ensures old(status) != Connected ==> unchanged(this)
      ensures old(status) == Connected ==>
        && calls == old(calls) + (if session.Some? then [SendClientContent(MediaParts(media), false)] else [])
        && outputs == old(outputs) + [Log("client.realtimeInput", Text(JoinMimeTypes(media)))]
      ensures status == old(status) && session == old(session) && pendingConnects == old(pendingConnects)
    {
      if status != Connected {
        return;
      }
      var turns := MediaParts(media);
      if session.Some? {
        calls := calls + [SendClientContent(turns, false)];
      }
      outputs := outputs + [Log("client.realtimeInput", Text(JoinMimeTypes(media)))];
    }

    /**
      `sendToolResponse`: only when connected; the responses go out only when
      `functionResponses` is present, the log is written in any case.
    */
    method SendToolResponse(response: ToolResponse)
      modifies this
      ensures old(status) != Connected ==> unchanged(this)
      ensures old(status) == Connected ==>
        && calls == old(calls) + (if response.functionResponses.Some? && session.Some?
                                  then [SendToolResponses(response.functionResponses.value)] else [])
        && outputs == old(outputs) + [Log("client.toolResponse", ToolResponseLog(response))]
      ensures status == old(status) && session == old(session) && pendingConnects == old(pendingConnects)
    {
      if status != Connected {
        return;
      }
      if response.functionResponses.Some? && session.Some? {
        calls := calls + [SendToolResponses(response.functionResponses.value)];
      }
      outputs := outputs + [Log("client.toolResponse", ToolResponseLog(response))];
    }

    /**
      `send`: only when connected; a single part is wrapped in a one-element
      turn list, and an omitted `turnComplete` (`None`) means `true`.
    */
    method Send(parts: PartsArg, turnComplete: Option<bool>)
      modifies this
      ensures old(status) != Connected ==> unchanged(this)
      ensures old(status) == Connected ==>
        && calls == old(calls) + (if session.Some? then [SendClientContent(Turns(parts), turnComplete.GetOr(true))] else [])
        && outputs == old(outputs) + [Log("client.send", ClientContentLog(Turns(parts), turnComplete.GetOr(true)))]
      ensures status == old(status) && session == old(session) && pendingConnects == old(pendingConnects)
    {
      if status != Connected {
        return;
      }
      var turns := Turns(parts);
      var complete := turnComplete.GetOr(true);
      if session.Some? {
        calls := calls + [SendClientContent(turns, complete)];
      }
      outputs := outputs + [Log("client.send", ClientContentLog(turns, complete))];
    }
  }
}
