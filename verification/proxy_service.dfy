/** The decisions inside the HTTP handlers of src/services/proxy_service.rs:
    stream or not, which failure becomes which status, and what each chunk
    of an upstream event stream becomes downstream. The network, the
    request adapter in front of the backend and serde are parameters. */
module Proxy {
  import opened Base
  import Json
  import Text
  import OpenAI
  import CM = ClaudeMessages
  import CT = CountTokensModel
  import StreamAdapter
  import OpenAIResponseAdapter
  import TokenCounter

  /* ---------------------------------------------------------------------
     The streamed side: one upstream chunk, one downstream event
     --------------------------------------------------------------------- */

  /** One item of the upstream byte stream, already decoded to text. */
  datatype ChunkRead = Bytes(text: string) | ReadError

  /** A downstream server-sent event; only its data field is set. */
  datatype Event = Data(text: string)

  /** What handling one chunk leads to: an event, or a panic, in the stream
      adapter or in axum's `Event::data`, which ends the stream. */
  datatype ChunkOutcome = Emit(event: Event) | Abort

  /** The serde entry points on the streamed side:
      `from_str::<OpenAIStreamResponse>` and `to_string` of an event, each
      failing with `None`. */
  datatype StreamCodec = StreamCodec(
    parseChunk: string -> Option<OpenAI.OpenAIStreamResponse>,
    renderEvent: CM.ClaudeMessagesStreamResponse -> Option<string>)

  const DataPrefix: string := "data: "
  const DoneSignal: string := "[DONE]"
  const ReadFailureText: string := "error: failed to read chunk"
  const AdaptFailureText: string := "error: failed to adapt response"

  /** The payload of a data line: every leading "data: " removed, then
      surrounding whitespace trimmed. */
  function Payload(text: string): (p: string)
    ensures |p| <= |text|
    ensures |p| > 0 ==> !Text.IsWhitespace(p[0]) && !Text.IsWhitespace(p[|p| - 1])
  {
    Text.Trim(Text.TrimStartMatches(text, DataPrefix))
  }

  /** The text the closure mapped over the upstream byte stream hands to
      `Event::data`, for any stream adapter `adapt`; `None` when the
      adapter panics before any text is chosen. */
  function ForwardedText(
    codec: StreamCodec,
    adapt: OpenAI.OpenAIStreamResponse -> Outcome<CM.ClaudeMessagesStreamResponse>,
    read: ChunkRead)
    : (t: Option<string>)
    // a failed read is reported in the stream, not by ending it
    ensures read.ReadError? ==> t == Some(ReadFailureText)
    // anything but a data line passes through untouched
    ensures read.Bytes? && !Text.StartsWith(read.text, DataPrefix) ==> t == Some(read.text)
    // a data line ending the stream is forwarded as the bare signal
    ensures read.Bytes? && Text.StartsWith(read.text, DataPrefix) && Payload(read.text) == DoneSignal
      ==> t == Some(DoneSignal)
    // an unparsable payload passes through, trimmed
    ensures read.Bytes? && Text.StartsWith(read.text, DataPrefix) && Payload(read.text) != DoneSignal
         && codec.parseChunk(Payload(read.text)).None?
      ==> t == Some(Payload(read.text))
    // a parsed chunk goes through the adapter
    ensures read.Bytes? && Text.StartsWith(read.text, DataPrefix) && Payload(read.text) != DoneSignal
         && codec.parseChunk(Payload(read.text)).Some?
      ==> var out := adapt(codec.parseChunk(Payload(read.text)).value);
          && (out.Failed? ==> t == Some(AdaptFailureText))
          && (out.Done? ==> t == Some(codec.renderEvent(out.value).GetOr("")))
    // and no text exactly where the adapter panics
    ensures t.None? <==> AdapterPanics(codec, adapt, read)
  {
    match read
    case ReadError => Some(ReadFailureText)
    case Bytes(text) =>
      if !Text.StartsWith(text, DataPrefix) then Some(text)
      else
        var payload := Payload(text);
        if payload == DoneSignal then Some(DoneSignal)
        else
          match codec.parseChunk(payload)
          case None => Some(payload)
          case Some(chunk) =>
            match adapt(chunk)
            case Done(ev) => Some(codec.renderEvent(ev).GetOr(""))
            case Failed(_) => Some(AdaptFailureText)
            case Panic => None
  }

  /** The chunk is a data line, other than the signal, that parses and whose
      adaptation panics. */
  predicate AdapterPanics(
    codec: StreamCodec,
    adapt: OpenAI.OpenAIStreamResponse -> Outcome<CM.ClaudeMessagesStreamResponse>,
    read: ChunkRead)
  {
    && read.Bytes? && Text.StartsWith(read.text, DataPrefix) && Payload(read.text) != DoneSignal
    && codec.parseChunk(Payload(read.text)).Some?
    && adapt(codec.parseChunk(Payload(read.text)).value).Panic?
  }

  /** One step of the closure: the forwarded text becomes the event's data.
      axum's `Event::data` panics on a carriage return, so a text holding
      one ends the stream just as a panicking adapter does. */
  function ClassifyChunk(
    codec: StreamCodec,
    adapt: OpenAI.OpenAIStreamResponse -> Outcome<CM.ClaudeMessagesStreamResponse>,
    read: ChunkRead)
    : (o: ChunkOutcome)
    ensures o.Emit? ==> ForwardedText(codec, adapt, read) == Some(o.event.text) && '\r' !in o.event.text
    ensures o.Abort? <==>
      || AdapterPanics(codec, adapt, read)
      || (ForwardedText(codec, adapt, read).Some? && '\r' in ForwardedText(codec, adapt, read).value)
    // the fixed texts never end the stream
    ensures read.ReadError? ==> o == Emit(Data(ReadFailureText))
    ensures read.Bytes? && Text.StartsWith(read.text, DataPrefix) && Payload(read.text) == DoneSignal
      ==> o == Emit(Data(DoneSignal))
  {
    FixedTextsHaveNoCarriageReturn();
    match ForwardedText(codec, adapt, read)
    case None => Abort
    case Some(text) => if '\r' in text then Abort else Emit(Data(text))
  }

  lemma FixedTextsHaveNoCarriageReturn()
    ensures '\r' !in ReadFailureText && '\r' !in DoneSignal
  {
    assert forall i | 0 <= i < |ReadFailureText| :: ReadFailureText[i] != '\r';
    assert forall i | 0 <= i < |DoneSignal| :: DoneSignal[i] != '\r';
  }

  /** A passthrough line in CRLF form, such as an SSE comment, ends the
      stream whatever the adapter. */
  lemma CarriageReturnEndsStream(
    codec: StreamCodec,
    adapt: OpenAI.OpenAIStreamResponse -> Outcome<CM.ClaudeMessagesStreamResponse>)
    ensures ClassifyChunk(codec, adapt, Bytes(": ping\r\n\r\n")) == Abort
  {
    var text := ": ping\r\n\r\n";
    assert text[0] != DataPrefix[0];
    assert !Text.StartsWith(text, DataPrefix);
    assert text[6] == '\r';
  }

  /** The events of a run of chunk outcomes: each one emitted in order,
      up to the first abort. */
  function EventsUntilAbort(outcomes: seq<ChunkOutcome>): (events: seq<Event>)
    ensures |events| <= |outcomes|
    ensures forall i | 0 <= i < |events| :: outcomes[i] == Emit(events[i])
    ensures |events| < |outcomes| ==> outcomes[|events|].Abort?
  {
    if |outcomes| == 0 then []
    else
      match outcomes[0]
      case Abort => []
      case Emit(ev) =>
        var rest := EventsUntilAbort(outcomes[1..]);
        assert forall i | 1 <= i < 1 + |rest| :: outcomes[i] == outcomes[1..][i - 1];
        [ev] + rest
  }

  /** Outcomes before an abort-free prefix do not affect what follows. */
  lemma {:induction false} EventsUntilAbortAppend(a: seq<ChunkOutcome>, b: seq<ChunkOutcome>)
    requires forall i | 0 <= i < |a| :: a[i].Emit?
    ensures EventsUntilAbort(a + b) == EventsUntilAbort(a) + EventsUntilAbort(b)
    decreases |a|
  {
    if |a| == 0 {
      assert a + b == b;
    } else {
      assert (a + b)[0] == a[0];
      assert (a + b)[1..] == a[1..] + b;
      EventsUntilAbortAppend(a[1..], b);
    }
  }

  function Outcomes(
    codec: StreamCodec,
    adapt: OpenAI.OpenAIStreamResponse -> Outcome<CM.ClaudeMessagesStreamResponse>,
    chunks: seq<ChunkRead>)
    : (outcomes: seq<ChunkOutcome>)
    ensures |outcomes| == |chunks|
    ensures forall i | 0 <= i < |chunks| :: outcomes[i] == ClassifyChunk(codec, adapt, chunks[i])
  {
    seq(|chunks|, i requires 0 <= i < |chunks| => ClassifyChunk(codec, adapt, chunks[i]))
  }

  /** The downstream stream: one event per upstream chunk, in order, up to
      the first chunk that panics, in the adapter or in `Event::data`,
      where the stream ends. */
  function TranslateStream(
    codec: StreamCodec,
    adapt: OpenAI.OpenAIStreamResponse -> Outcome<CM.ClaudeMessagesStreamResponse>,
    chunks: seq<ChunkRead>)
    : (events: seq<Event>)
    ensures |events| <= |chunks|
    ensures forall i | 0 <= i < |events| :: ClassifyChunk(codec, adapt, chunks[i]) == Emit(events[i])
    ensures |events| < |chunks| ==> ClassifyChunk(codec, adapt, chunks[|events|]).Abort?
  {
    EventsUntilAbort(Outcomes(codec, adapt, chunks))
  }

  /** Without a panic, every chunk gives exactly one event, in order. */
  lemma OneEventPerChunk(
    codec: StreamCodec,
    adapt: OpenAI.OpenAIStreamResponse -> Outcome<CM.ClaudeMessagesStreamResponse>,
    chunks: seq<ChunkRead>)
    requires forall i | 0 <= i < |chunks| :: !ClassifyChunk(codec, adapt, chunks[i]).Abort?
    ensures |TranslateStream(codec, adapt, chunks)| == |chunks|
  {
  }

  /** Chunks are handled independently: the events for two streams one
      after the other are the events for each, unless the first ends early. */
  lemma TranslateStreamAppend(
    codec: StreamCodec,
    adapt: OpenAI.OpenAIStreamResponse -> Outcome<CM.ClaudeMessagesStreamResponse>,
    a: seq<ChunkRead>, b: seq<ChunkRead>)
    requires |TranslateStream(codec, adapt, a)| == |a|
    ensures TranslateStream(codec, adapt, a + b) == TranslateStream(codec, adapt, a) + TranslateStream(codec, adapt, b)
  {
    var oa := Outcomes(codec, adapt, a);
    var ob := Outcomes(codec, adapt, b);
    var ea := EventsUntilAbort(oa);
    assert |ea| == |oa|;
    assert forall i | 0 <= i < |oa| :: oa[i].Emit? by {
      forall i | 0 <= i < |oa| ensures oa[i].Emit? {
        assert oa[i] == Emit(ea[i]);
      }
    }
    OutcomesAppend(codec, adapt, a, b);
    EventsUntilAbortAppend(oa, ob);
  }

  lemma OutcomesAppend(
    codec: StreamCodec,
    adapt: OpenAI.OpenAIStreamResponse -> Outcome<CM.ClaudeMessagesStreamResponse>,
    a: seq<ChunkRead>, b: seq<ChunkRead>)
    ensures Outcomes(codec, adapt, a + b) == Outcomes(codec, adapt, a) + Outcomes(codec, adapt, b)
  {
    var o := Outcomes(codec, adapt, a + b);
    var oa := Outcomes(codec, adapt, a);
    var ob := Outcomes(codec, adapt, b);
    forall i | 0 <= i < |o| ensures o[i] == (oa + ob)[i] {
      if i < |a| {
        assert (a + b)[i] == a[i];
      } else {
        assert (a + b)[i] == b[i - |a|];
      }
    }
  }

  /** The stream adapter the proxy runs: `stream_adapter.adapt`, as written. */
  function AsWrittenStreamAdapter(json: Json.Codec): OpenAI.OpenAIStreamResponse -> Outcome<CM.ClaudeMessagesStreamResponse> {
    (chunk: OpenAI.OpenAIStreamResponse) => StreamAdapter.AdaptChunkAsWritten(json, chunk)
  }

  /** The stream adapter with the emptiness test in its place (see
      `StreamAdapter.AdaptChunk`). */
  function CorrectedStreamAdapter(json: Json.Codec): OpenAI.OpenAIStreamResponse -> Outcome<CM.ClaudeMessagesStreamResponse> {
    (chunk: OpenAI.OpenAIStreamResponse) => StreamAdapter.AdaptChunk(json, chunk)
  }

  /** A data line, other than the signal, that parses into a chunk with no
      choices; `usage` says whether that chunk carries a usage record. */
  predicate EmptyChunk(codec: StreamCodec, read: ChunkRead, usage: bool) {
    && read.Bytes? && Text.StartsWith(read.text, DataPrefix) && Payload(read.text) != DoneSignal
    && codec.parseChunk(Payload(read.text)).Some?
    && |codec.parseChunk(Payload(read.text)).value.choices| == 0
    && codec.parseChunk(Payload(read.text)).value.usage.Some? == usage
  }

  /** As written, the adapter never reports a failure, and it panics on
      every chunk without choices, the closing usage chunk included. */
  lemma AsWrittenAdapterPanicsOnEmptyChunks(codec: StreamCodec, json: Json.Codec, read: ChunkRead)
    ensures AdapterPanics(codec, AsWrittenStreamAdapter(json), read) <==>
      EmptyChunk(codec, read, false) || EmptyChunk(codec, read, true)
    ensures forall chunk :: !AsWrittenStreamAdapter(json)(chunk).Failed?
  {
  }

  /** With the corrected adapter the adaptation-failure text never appears
      either, and the adapter panics only on a chunk with neither choices
      nor usage. */
  lemma CorrectedAdapterPanicsOnlyOnEmptyChunk(codec: StreamCodec, json: Json.Codec, read: ChunkRead)
    ensures AdapterPanics(codec, CorrectedStreamAdapter(json), read) <==> EmptyChunk(codec, read, false)
    ensures forall chunk :: !CorrectedStreamAdapter(json)(chunk).Failed?
  {
  }

  /** The consequence of the stream adapter's misplaced emptiness test: the
      backend's closing usage chunk ends the stream as written, where the
      corrected adapter forwards the rendered usage event. */
  lemma UsageChunkEndsStreamAsWritten(codec: StreamCodec, json: Json.Codec, text: string)
    ensures EmptyChunk(codec, Bytes(text), true) ==>
      && ClassifyChunk(codec, AsWrittenStreamAdapter(json), Bytes(text)).Abort?
      && ForwardedText(codec, CorrectedStreamAdapter(json), Bytes(text))
         == Some(codec.renderEvent(StreamAdapter.UsageEvent(codec.parseChunk(Payload(text)).value.usage.value)).GetOr(""))
  {
    AsWrittenAbortsOnUsageChunk(codec, json, text);
    CorrectedForwardsUsage(codec, json, text);
  }

  lemma AsWrittenAbortsOnUsageChunk(codec: StreamCodec, json: Json.Codec, text: string)
    ensures EmptyChunk(codec, Bytes(text), true) ==> ClassifyChunk(codec, AsWrittenStreamAdapter(json), Bytes(text)).Abort?
  {
    AsWrittenAdapterPanicsOnEmptyChunks(codec, json, Bytes(text));
  }

  lemma CorrectedForwardsUsage(codec: StreamCodec, json: Json.Codec, text: string)
    ensures EmptyChunk(codec, Bytes(text), true) ==>
      ForwardedText(codec, CorrectedStreamAdapter(json), Bytes(text))
      == Some(codec.renderEvent(StreamAdapter.UsageEvent(codec.parseChunk(Payload(text)).value.usage.value)).GetOr(""))
  {
    if EmptyChunk(codec, Bytes(text), true) {
      var read := Bytes(text);
      var chunk := codec.parseChunk(Payload(text)).value;
      var out := CorrectedStreamAdapter(json)(chunk);
      assert out == Done(StreamAdapter.UsageEvent(chunk.usage.value));
      assert read.Bytes? && Text.StartsWith(read.text, DataPrefix) && Payload(read.text) != DoneSignal
             && codec.parseChunk(Payload(read.text)) == Some(chunk);
    }
  }

  /** Wherever the as-written adapter lets a chunk through, the corrected
      one forwards the same text. */
  lemma CorrectedAgreesWhereAsWrittenForwards(codec: StreamCodec, json: Json.Codec, read: ChunkRead)
    requires ForwardedText(codec, AsWrittenStreamAdapter(json), read).Some?
    ensures ForwardedText(codec, CorrectedStreamAdapter(json), read) == ForwardedText(codec, AsWrittenStreamAdapter(json), read)
  {
    if read.Bytes? && Text.StartsWith(read.text, DataPrefix) && Payload(read.text) != DoneSignal
       && codec.parseChunk(Payload(read.text)).Some?
    {
      var chunk := codec.parseChunk(Payload(read.text)).value;
      assert !AdapterPanics(codec, AsWrittenStreamAdapter(json), read);
      assert |chunk.choices| > 0;
      assert CorrectedStreamAdapter(json)(chunk) == AsWrittenStreamAdapter(json)(chunk);
    }
    SameAdaptationSameText(codec, CorrectedStreamAdapter(json), AsWrittenStreamAdapter(json), read);
  }

  /** What the closure forwards depends on the adapter only through its
      result for the chunk at hand. */
  lemma SameAdaptationSameText(
    codec: StreamCodec,
    a1: OpenAI.OpenAIStreamResponse -> Outcome<CM.ClaudeMessagesStreamResponse>,
    a2: OpenAI.OpenAIStreamResponse -> Outcome<CM.ClaudeMessagesStreamResponse>,
    read: ChunkRead)
    requires read.Bytes? && Text.StartsWith(read.text, DataPrefix) && Payload(read.text) != DoneSignal
             && codec.parseChunk(Payload(read.text)).Some?
      ==> a1(codec.parseChunk(Payload(read.text)).value) == a2(codec.parseChunk(Payload(read.text)).value)
    ensures ForwardedText(codec, a1, read) == ForwardedText(codec, a2, read)
  {
  }

  /** If the second run of outcomes emits whatever the first emits at the
      same place, the first run's events are a prefix of the second's. */
  lemma {:induction false} EventsUntilAbortPrefix(o1: seq<ChunkOutcome>, o2: seq<ChunkOutcome>)
    requires |o1| == |o2|
    requires forall i | 0 <= i < |o1| && o1[i].Emit? :: o2[i] == o1[i]
    ensures EventsUntilAbort(o1) <= EventsUntilAbort(o2)
    decreases |o1|
  {
    if |o1| > 0 && o1[0].Emit? {
      assert forall i | 0 <= i < |o1[1..]| && o1[1..][i].Emit? :: o2[1..][i] == o1[1..][i] by {
        forall i | 0 <= i < |o1[1..]| && o1[1..][i].Emit? ensures o2[1..][i] == o1[1..][i] {
          assert o1[1..][i] == o1[i + 1];
        }
      }
      EventsUntilAbortPrefix(o1[1..], o2[1..]);
    }
  }

  /** The stream the source sends is a prefix of the stream the corrected
      adapter would send; where it is shorter, it stopped at the backend's
      closing usage chunk. */
  lemma {:induction false} AsWrittenStreamIsPrefix(codec: StreamCodec, json: Json.Codec, chunks: seq<ChunkRead>)
    ensures var asWritten := TranslateStream(codec, AsWrittenStreamAdapter(json), chunks);
      var corrected := TranslateStream(codec, CorrectedStreamAdapter(json), chunks);
      && asWritten <= corrected
      && (|asWritten| < |corrected| ==> EmptyChunk(codec, chunks[|asWritten|], true))
  {
    var o1 := Outcomes(codec, AsWrittenStreamAdapter(json), chunks);
    var o2 := Outcomes(codec, CorrectedStreamAdapter(json), chunks);
    forall i | 0 <= i < |o1| && o1[i].Emit? ensures o2[i] == o1[i] {
      CorrectedAgreesWhereAsWrittenForwards(codec, json, chunks[i]);
    }
    EventsUntilAbortPrefix(o1, o2);
    var asWritten := TranslateStream(codec, AsWrittenStreamAdapter(json), chunks);
    var corrected := TranslateStream(codec, CorrectedStreamAdapter(json), chunks);
    if |asWritten| < |corrected| {
      var k := |asWritten|;
      var read := chunks[k];
      assert ClassifyChunk(codec, AsWrittenStreamAdapter(json), read).Abort?;
      assert ClassifyChunk(codec, CorrectedStreamAdapter(json), read).Emit?;
      if ForwardedText(codec, AsWrittenStreamAdapter(json), read).Some? {
        CorrectedAgreesWhereAsWrittenForwards(codec, json, read);
        assert false;
      }
      AsWrittenAdapterPanicsOnEmptyChunks(codec, json, read);
      CorrectedAdapterPanicsOnlyOnEmptyChunk(codec, json, read);
    }
  }

  /** A data line whose payload is the bare signal, under any number of
      prefixes, is forwarded as the bare [DONE] event. */
  lemma {:induction false} DoneSignalUnderPrefixes(
    codec: StreamCodec,
    adapt: OpenAI.OpenAIStreamResponse -> Outcome<CM.ClaudeMessagesStreamResponse>,
    n: nat)
    requires n > 0
    ensures ClassifyChunk(codec, adapt, Bytes(Text.Repeat(DataPrefix, n) + DoneSignal)) == Emit(Data(DoneSignal))
  {
    var text := Text.Repeat(DataPrefix, n) + DoneSignal;
    PrefixedSignalPayload(n);
    SignalLineForwardsSignal(codec, adapt, text);
  }

  /** Under `n > 0` prefixes the line is a data line whose payload is the
      bare signal. */
  lemma PrefixedSignalPayload(n: nat)
    requires n > 0
    ensures Text.StartsWith(Text.Repeat(DataPrefix, n) + DoneSignal, DataPrefix)
    ensures Payload(Text.Repeat(DataPrefix, n) + DoneSignal) == DoneSignal
  {
    var text := Text.Repeat(DataPrefix, n) + DoneSignal;
    assert text[..|DataPrefix|] == DataPrefix;
    StripPrefixes(n);
    DoneSignalIsTrimmed();
  }

  lemma DoneSignalIsTrimmed()
    ensures Text.Trim(DoneSignal) == DoneSignal
  {
    assert !Text.IsWhitespace(DoneSignal[0]) && !Text.IsWhitespace(DoneSignal[|DoneSignal| - 1]);
    Text.TrimKeepsTrimmed(DoneSignal);
  }

  lemma SignalLineForwardsSignal(
    codec: StreamCodec,
    adapt: OpenAI.OpenAIStreamResponse -> Outcome<CM.ClaudeMessagesStreamResponse>,
    text: string)
    ensures Text.StartsWith(text, DataPrefix) && Payload(text) == DoneSignal ==>
      ClassifyChunk(codec, adapt, Bytes(text)) == Emit(Data(DoneSignal))
  {
  }

  lemma StripPrefixes(n: nat)
    ensures Text.TrimStartMatches(Text.Repeat(DataPrefix, n) + DoneSignal, DataPrefix) == DoneSignal
  {
    assert DoneSignal[0] != DataPrefix[0];
    Text.TrimStartMatchesCopies(DataPrefix, n, DoneSignal);
  }

  /** Blank lines after the signal are trimmed away, so the usual
      "data: [DONE]\n\n" is forwarded as the bare [DONE] event. */
  lemma DoneSignalWithBlankLines(
    codec: StreamCodec,
    adapt: OpenAI.OpenAIStreamResponse -> Outcome<CM.ClaudeMessagesStreamResponse>)
    ensures ClassifyChunk(codec, adapt, Bytes(DataPrefix + DoneSignal + "\n\n")) == Emit(Data(DoneSignal))
  {
    var text := DataPrefix + DoneSignal + "\n\n";
    var rest := DoneSignal + "\n\n";
    assert text[..|DataPrefix|] == DataPrefix;
    assert text[|DataPrefix|..] == rest;
    assert rest[0] != DataPrefix[0];
    assert !Text.StartsWith(rest, DataPrefix);
    assert Text.TrimStartMatches(text, DataPrefix) == rest;
    TrimDropsTrailingBlankLines();
  }

  lemma TrimDropsTrailingBlankLines()
    ensures Text.Trim(DoneSignal + "\n\n") == DoneSignal
  {
    var t := DoneSignal + "\n\n";
    assert !Text.IsWhitespace(t[0]);
    assert Text.TrimStart(t) == t;
    assert t[..|t| - 1] == DoneSignal + "\n";
    assert (DoneSignal + "\n")[..|DoneSignal|] == DoneSignal;
    assert Text.TrimEnd(DoneSignal) == DoneSignal;
    assert Text.TrimEnd(DoneSignal + "\n") == DoneSignal;
  }

  /** The prefix test is literal: a data line without the space after the
      colon is forwarded untouched, signal or not. */
  lemma PrefixWithoutSpaceIsNotData(
    codec: StreamCodec,
    adapt: OpenAI.OpenAIStreamResponse -> Outcome<CM.ClaudeMessagesStreamResponse>)
    ensures ClassifyChunk(codec, adapt, Bytes("data:[DONE]")) == Emit(Data("data:[DONE]"))
  {
    var text := "data:[DONE]";
    assert text[5] != DataPrefix[5];
    assert !Text.StartsWith(text, DataPrefix);
  }

  /* ---------------------------------------------------------------------
     The handlers
     --------------------------------------------------------------------- */

  /** An upstream HTTP reply, read either as one body or as a chunk stream. */
  datatype Upstream = Upstream(body: string, chunks: seq<ChunkRead>)

  /** Everything the handlers call that this model does not define:
      `ClaudeMessagesToOpenAIAdapter` (not part of this model), the HTTP
      round trip, and serde. */
  datatype Env = Env(
    adaptRequest: CM.ClaudeMessagesRequest -> Result<OpenAI.OpenAIRequest, string>,
    send: OpenAI.OpenAIRequest -> Result<Upstream, string>,
    parseResponse: string -> Option<OpenAI.OpenAIResponse>,
    json: Json.Codec,
    stream: StreamCodec)

  /** A handler's reply. `Status` is a bare status code, `JsonError` a
      status with a JSON body, and `Crash` a panic inside the handler. */
  datatype Reply =
    | Message(response: CM.ClaudeMessagesResponse)
    | EventStream(events: seq<Event>)
    | TokenCount(count: CT.ClaudeCountTokensResponse)
    | Status(code: nat)
    | JsonError(code: nat, body: Json.Json)
    | Crash

  const BadRequest: nat := 400
  const InternalServerError: nat := 500
  const NotFoundCode: nat := 404

  /** `handle_claude_messages_non_stream` */
  function HandleNonStream(env: Env, req: CM.ClaudeMessagesRequest): (reply: Reply)
    ensures reply == Status(BadRequest) <==> env.adaptRequest(req).Err?
    ensures reply.Message? ==>
      && env.adaptRequest(req).Ok?
      && env.send(env.adaptRequest(req).value).Ok?
      && env.parseResponse(env.send(env.adaptRequest(req).value).value.body).Some?
      && var resp := env.parseResponse(env.send(env.adaptRequest(req).value).value.body).value;
         && |resp.choices| > 0
         && reply.response == OpenAIResponseAdapter.AdaptResponse(env.json, resp).value
  {
    match env.adaptRequest(req)
    case Err(_) => Status(BadRequest)
    case Ok(upstreamRequest) =>
      match env.send(upstreamRequest)
      case Err(_) => Status(InternalServerError)
      case Ok(upstream) =>
        match env.parseResponse(upstream.body)
        case None => Status(InternalServerError)
        case Some(resp) =>
          if |resp.choices| == 0 then Crash
          else
            match OpenAIResponseAdapter.AdaptResponse(env.json, resp)
            case Ok(m) => Message(m)
            case Err(_) => Status(InternalServerError)
  }

  /** `handle_claude_messages_stream`: the adapted request is sent with
      streaming switched on, whatever the adapter set. */
  function HandleStream(env: Env, req: CM.ClaudeMessagesRequest): (reply: Reply)
    ensures reply == Status(BadRequest) <==> env.adaptRequest(req).Err?
    ensures reply == Status(InternalServerError) <==>
      env.adaptRequest(req).Ok? && env.send(env.adaptRequest(req).value.(stream := Some(true))).Err?
    ensures reply.EventStream? <==>
      env.adaptRequest(req).Ok? && env.send(env.adaptRequest(req).value.(stream := Some(true))).Ok?
    ensures reply.EventStream? ==>
      reply.events == TranslateStream(env.stream, AsWrittenStreamAdapter(env.json),
                                      env.send(env.adaptRequest(req).value.(stream := Some(true))).value.chunks)
  {
    match env.adaptRequest(req)
    case Err(_) => Status(BadRequest)
    case Ok(upstreamRequest) =>
      var streaming := upstreamRequest.(stream := Some(true));
      match env.send(streaming)
      case Err(_) => Status(InternalServerError)
      case Ok(upstream) => EventStream(TranslateStream(env.stream, AsWrittenStreamAdapter(env.json), upstream.chunks))
  }

  /** `handle_claude_messages_stream` with the corrected stream adapter. */
  function HandleStreamCorrected(env: Env, req: CM.ClaudeMessagesRequest): (reply: Reply)
    ensures !HandleStream(env, req).EventStream? ==> reply == HandleStream(env, req)
    ensures HandleStream(env, req).EventStream? ==>
      && reply.EventStream?
      && HandleStream(env, req).events <= reply.events
  {
    match env.adaptRequest(req)
    case Err(_) => Status(BadRequest)
    case Ok(upstreamRequest) =>
      var streaming := upstreamRequest.(stream := Some(true));
      match env.send(streaming)
      case Err(_) => Status(InternalServerError)
      case Ok(upstream) =>
        AsWrittenStreamIsPrefix(env.stream, env.json, upstream.chunks);
        EventStream(TranslateStream(env.stream, CorrectedStreamAdapter(env.json), upstream.chunks))
  }

  /** `handle_claude_messages`: the stream flag, absent meaning false, picks
      the handler. */
  function HandleMessages(env: Env, req: CM.ClaudeMessagesRequest): (reply: Reply)
    ensures req.stream == Some(true) ==> reply == HandleStream(env, req)
    ensures req.stream != Some(true) ==> reply == HandleNonStream(env, req)
  {
    if req.stream.GetOr(false) then HandleStream(env, req) else HandleNonStream(env, req)
  }

  /** The request actually sent upstream for `req`, once adapted. */
  function SentRequest(req: CM.ClaudeMessagesRequest, adapted: OpenAI.OpenAIRequest): OpenAI.OpenAIRequest {
    if req.stream == Some(true) then adapted.(stream := Some(true)) else adapted
  }

  /** Failures and their status codes, in both directions: 400 exactly
      when the request cannot be adapted; 500 exactly when it was adapted
      but sending it failed or, without streaming, the reply did not parse;
      a panic exactly when a parsed non-streamed reply has no choices. */
  lemma StatusCodes(env: Env, req: CM.ClaudeMessagesRequest)
    ensures HandleMessages(env, req) == Status(BadRequest) <==> env.adaptRequest(req).Err?
    ensures HandleMessages(env, req) == Status(InternalServerError) <==>
      && env.adaptRequest(req).Ok?
      && var sent := SentRequest(req, env.adaptRequest(req).value);
         || env.send(sent).Err?
         || (req.stream != Some(true) && env.parseResponse(env.send(sent).value.body).None?)
    ensures HandleMessages(env, req).Crash? <==>
      && req.stream != Some(true)
      && env.adaptRequest(req).Ok?
      && env.send(env.adaptRequest(req).value).Ok?
      && env.parseResponse(env.send(env.adaptRequest(req).value).value.body).Some?
      && |env.parseResponse(env.send(env.adaptRequest(req).value).value.body).value.choices| == 0
    ensures HandleMessages(env, req).Status? ==> HandleMessages(env, req).code in {BadRequest, InternalServerError}
  {
  }

  /** The streamed reply does not depend on the stream flag the request
      adapter produced, only on the rest of the adapted request. */
  lemma StreamFlagForced(env1: Env, env2: Env, req: CM.ClaudeMessagesRequest)
    requires env1.send == env2.send && env1.json == env2.json && env1.stream == env2.stream
    requires env1.adaptRequest(req).Ok? && env2.adaptRequest(req).Ok?
    requires env1.adaptRequest(req).value.(stream := None) == env2.adaptRequest(req).value.(stream := None)
    ensures HandleStream(env1, req) == HandleStream(env2, req)
  {
    var a := env1.adaptRequest(req).value;
    var b := env2.adaptRequest(req).value;
    assert a.(stream := Some(true)) == a.(stream := None).(stream := Some(true));
    assert b.(stream := Some(true)) == b.(stream := None).(stream := Some(true));
  }

  /** `handle_count_tokens`: always answers, with the counter's total. */
  method HandleCountTokens(json: Json.Codec, req: CT.ClaudeCountTokensRequest) returns (reply: Reply)
    ensures reply.TokenCount?
    ensures reply.count.inputTokens
         == TokenCounter.SumEstimates(TokenCounter.CountedTexts(json, req))
            + TokenCounter.ToolSchemaTokens * |TokenCounter.OrEmpty(req.tools)|
  {
    var count := TokenCounter.CountTokens(json, req);
    TokenCounter.TotalIsSumOverTexts(json, req);
    reply := TokenCount(count);
  }

  /** The body every unmatched route gets. */
  const NotFoundBody: Json.Json :=
    Json.Object([("error", Json.Object([
      ("message", Json.String("Not Found")),
      ("type", Json.String("invalid_request_error")),
      ("param", Json.Null),
      ("code", Json.Null)]))])

  /** `handle_fallback`: method, path, headers and body are only logged;
      the reply is a 404 whose body is a single "error" object in the
      shape of an invalid-request error. */
  function Fallback(httpMethod: string, uri: string, headers: seq<(string, string)>, body: string): (reply: Reply)
    ensures reply.JsonError? && reply.code == NotFoundCode
    ensures reply.body.Object? && |reply.body.members| == 1
    ensures var err := Json.Field(reply.body, "error");
      && err.Some? && err.value.Object? && |err.value.members| == 4
      && Json.Field(err.value, "message") == Some(Json.String("Not Found"))
      && Json.Field(err.value, "type") == Some(Json.String("invalid_request_error"))
      && Json.Field(err.value, "param") == Some(Json.Null)
      && Json.Field(err.value, "code") == Some(Json.Null)
  {
    JsonError(NotFoundCode, NotFoundBody)
  }

  /** The fallback's reply is the same for every request. */
  lemma FallbackIgnoresRequest(m1: string, u1: string, h1: seq<(string, string)>, b1: string,
                               m2: string, u2: string, h2: seq<(string, string)>, b2: string)
    ensures Fallback(m1, u1, h1, b1) == Fallback(m2, u2, h2, b2)
  {
  }
}
