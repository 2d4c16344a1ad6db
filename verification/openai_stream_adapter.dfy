/** `OpenAIStreamToClaudeStreamAdapter` (src/adapters/openai_stream_adapter.rs):
    one streamed Chat Completions chunk becomes one Messages stream event.
    The adapter keeps no state between chunks, so it is a function of the
    chunk alone. */
module StreamAdapter {
  import opened Base
  import Json
  import Text
  import OpenAI
  import CM = ClaudeMessages

  /** A text content block carrying one fragment. */
  function TextBlock(text: string): CM.StreamContentBlock {
    CM.StreamContentBlock("text", Some(text), None, None, None)
  }

  /** A tool-use content block for one call fragment: id and name copied as
      given, arguments absent, parsed, or null where they do not parse. */
  function ToolBlock(codec: Json.Codec, call: OpenAI.OpenAIToolCallDelta): (b: CM.StreamContentBlock)
    requires call.func.Some?
    ensures b.contentType == "tool_use" && b.text.None?
    ensures b.id == call.id && b.name == call.func.value.name
    ensures call.func.value.arguments.None? ==> b.input.None?
    ensures call.func.value.arguments.Some? ==>
      b.input == Some(Json.ParseOrNull(codec, call.func.value.arguments.value))
  {
    var input := match call.func.value.arguments
      case Some(args) => Some(Json.ParseOrNull(codec, args))
      case None => None;
    CM.StreamContentBlock("tool_use", None, call.id, call.func.value.name, input)
  }

  /** `calls[j]` is the last call that carries a function. */
  predicate IsLastFunctionCall(calls: seq<OpenAI.OpenAIToolCallDelta>, j: int) {
    && 0 <= j < |calls|
    && calls[j].func.Some?
    && forall k | j < k < |calls| :: calls[k].func.None?
  }

  predicate NoFunctionCall(calls: seq<OpenAI.OpenAIToolCallDelta>) {
    forall k | 0 <= k < |calls| :: calls[k].func.None?
  }

  /** The tool-call loop: each call that carries a function replaces the
      block built so far, so the last such call wins; calls without a
      function are skipped. */
  function OverwriteWithToolCalls(codec: Json.Codec, block: Option<CM.StreamContentBlock>, calls: seq<OpenAI.OpenAIToolCallDelta>)
    : (r: Option<CM.StreamContentBlock>)
    ensures NoFunctionCall(calls) ==> r == block
    ensures forall j | IsLastFunctionCall(calls, j) :: r == Some(ToolBlock(codec, calls[j]))
    decreases |calls|
  {
    if |calls| == 0 then block
    else
      var next := if calls[0].func.Some? then Some(ToolBlock(codec, calls[0])) else block;
      var r := OverwriteWithToolCalls(codec, next, calls[1..]);
      assert forall j | IsLastFunctionCall(calls, j) && j > 0 :: IsLastFunctionCall(calls[1..], j - 1);
      r
  }

  /** Exactly one of "no call has a function" and "some call is the last
      one with a function" holds. */
  lemma {:induction false} LastFunctionCallExists(calls: seq<OpenAI.OpenAIToolCallDelta>)
    ensures NoFunctionCall(calls) || exists j :: IsLastFunctionCall(calls, j)
    decreases |calls|
  {
    if |calls| > 0 {
      var last := |calls| - 1;
      if calls[last].func.Some? {
        assert IsLastFunctionCall(calls, last);
      } else {
        var init := calls[..last];
        LastFunctionCallExists(init);
        if !NoFunctionCall(init) {
          var j :| IsLastFunctionCall(init, j);
          assert IsLastFunctionCall(calls, j);
        }
      }
    }
  }

  /** The event's content block: the last tool call with a function wins over
      the text fragment; the text fragment appears only when no such call
      exists; otherwise there is none. */
  function ContentBlockFor(codec: Json.Codec, delta: OpenAI.OpenAIDelta): (r: Option<CM.StreamContentBlock>)
    ensures var calls := if delta.toolCalls.Some? then delta.toolCalls.value else [];
      && (forall j | IsLastFunctionCall(calls, j) :: r == Some(ToolBlock(codec, calls[j])))
      && (NoFunctionCall(calls) && delta.content.Some? ==> r == Some(TextBlock(delta.content.value)))
      && (NoFunctionCall(calls) && delta.content.None? ==> r.None?)
  {
    var textBlock := match delta.content
      case Some(text) => Some(TextBlock(text))
      case None => None;
    match delta.toolCalls
    case Some(calls) => OverwriteWithToolCalls(codec, textBlock, calls)
    case None => textBlock
  }

  /** The body of `do_adapt` after `choices[0]` has been read. Fields are set
      in the source's order, later ones overriding the event type: text,
      tool calls, role, finish reason. */
  function TranslateChoice(codec: Json.Codec, chunkId: string, choice: OpenAI.OpenAIStreamChoice)
    : (ev: CM.ClaudeMessagesStreamResponse)
    // the event type by precedence: finish reason, then role, then a plain delta
    ensures ev.responseType == (if choice.finishReason.Some? then "message_stop"
                                else if choice.delta.role.Some? then "message_start"
                                else "content_block_delta")
    // a message start exactly when a role arrives
    ensures ev.message.Some? <==> choice.delta.role.Some?
    ensures choice.delta.role.Some? ==>
      ev.message.value == CM.StreamMessage(chunkId, "message", OpenAI.RoleName(choice.delta.role.value), [])
    // a stop delta exactly when a finish reason arrives
    ensures ev.delta.Some? <==> choice.finishReason.Some?
    ensures choice.finishReason.Some? ==> ev.delta.value == CM.Delta(choice.finishReason, None)
    ensures ev.contentBlock == ContentBlockFor(codec, choice.delta)
    ensures ev.index == Some(0)
    ensures ev.usage.None?
  {
    var delta := choice.delta;
    var base := CM.ClaudeMessagesStreamResponse("content_block_delta", None, None, ContentBlockFor(codec, delta), Some(0), None);
    var afterRole := (
      match delta.role
      case Some(role) =>
        OpenAI.LowercasedRoleName(role);
        base.(responseType := "message_start",
              message := Some(CM.StreamMessage(chunkId, "message", Text.ToLowercase(OpenAI.RoleName(role)), [])))
      case None => base);
    match choice.finishReason
    case Some(reason) => afterRole.(responseType := "message_stop", delta := Some(CM.Delta(Some(reason), None)))
    case None => afterRole
  }

  /** `do_adapt` as written: it indexes `choices[0]` before testing whether
      the list is empty, so an empty list panics and the branch meant for
      the final usage chunk is never reached. */
  function AdaptChunkAsWritten(codec: Json.Codec, chunk: OpenAI.OpenAIStreamResponse)
    : (r: Outcome<CM.ClaudeMessagesStreamResponse>)
    ensures r.Panic? <==> |chunk.choices| == 0
    ensures !r.Failed?
    ensures r.Done? ==> r.value.usage.None? && r.value.index == Some(0)
    ensures r.Done? ==> r.value == TranslateChoice(codec, chunk.id, chunk.choices[0])
  {
    if |chunk.choices| == 0 then Panic
    else Done(TranslateChoice(codec, chunk.id, chunk.choices[0]))
  }

  /** The event the final usage chunk was meant to produce. */
  function UsageEvent(usage: OpenAI.OpenAIUsage): CM.ClaudeMessagesStreamResponse {
    CM.ClaudeMessagesStreamResponse(
      "message_stop", None, None, None, None,
      Some(CM.Usage(usage.promptTokens, usage.completionTokens, None, None)))
  }

  /** `do_adapt` with the emptiness test moved before the index: a chunk
      with no choices and a usage record yields the usage event; everything
      else behaves as the source does. */
  function AdaptChunk(codec: Json.Codec, chunk: OpenAI.OpenAIStreamResponse)
    : (r: Outcome<CM.ClaudeMessagesStreamResponse>)
    ensures |chunk.choices| == 0 && chunk.usage.Some? ==>
      && r.Done? && r.value.responseType == "message_stop"
      && r.value.usage.Some?
      && r.value.usage.value.inputTokens == chunk.usage.value.promptTokens
      && r.value.usage.value.outputTokens == chunk.usage.value.completionTokens
      && r.value.index.None? && r.value.message.None? && r.value.contentBlock.None? && r.value.delta.None?
    ensures r.Panic? <==> |chunk.choices| == 0 && chunk.usage.None?
    ensures |chunk.choices| > 0 ==> r == AdaptChunkAsWritten(codec, chunk)
    ensures !r.Failed?
  {
    if |chunk.choices| == 0 && chunk.usage.Some? then Done(UsageEvent(chunk.usage.value))
    else AdaptChunkAsWritten(codec, chunk)
  }

  /** The discrepancy: for every terminal usage chunk (no choices, usage
      present) the source as written panics, while the corrected adapter
      reports the usage. */
  lemma UsageChunkLostAsWritten(codec: Json.Codec, chunk: OpenAI.OpenAIStreamResponse)
    requires |chunk.choices| == 0 && chunk.usage.Some?
    ensures AdaptChunkAsWritten(codec, chunk).Panic?
    ensures AdaptChunk(codec, chunk).Done? && AdaptChunk(codec, chunk).value.usage.Some?
  {
  }

  /** A chunk carrying both a text fragment and a tool call with a function
      yields only the tool block: the text fragment is dropped. */
  lemma ToolCallHidesText(codec: Json.Codec, choice: OpenAI.OpenAIStreamChoice, chunkId: string)
    requires choice.delta.content.Some?
    requires choice.delta.toolCalls.Some? && !NoFunctionCall(choice.delta.toolCalls.value)
    ensures var ev := TranslateChoice(codec, chunkId, choice);
      ev.contentBlock.Some? && ev.contentBlock.value.contentType == "tool_use"
      && ev.contentBlock.value.text.None?
  {
    var calls := choice.delta.toolCalls.value;
    LastFunctionCallExists(calls);
    var j :| IsLastFunctionCall(calls, j);
  }

  /** The four chunks of a short reply: a role, two text fragments and a
      finish reason give a message start, two text deltas carrying the
      fragments, then a stop carrying the reason. */
  lemma ShortReplyExample(codec: Json.Codec, id: string)
    ensures var none := OpenAI.OpenAIDelta(None, None, None);
      var start := TranslateChoice(codec, id, OpenAI.OpenAIStreamChoice(0, none.(role := Some(OpenAI.Assistant)), None));
      var first := TranslateChoice(codec, id, OpenAI.OpenAIStreamChoice(0, none.(content := Some("Hello")), None));
      var second := TranslateChoice(codec, id, OpenAI.OpenAIStreamChoice(0, none.(content := Some(" world")), None));
      var stop := TranslateChoice(codec, id, OpenAI.OpenAIStreamChoice(0, none, Some("stop")));
      && start.responseType == "message_start"
      && start.message == Some(CM.StreamMessage(id, "message", "assistant", []))
      && start.contentBlock.None? && start.delta.None?
      && first.responseType == "content_block_delta" && first.contentBlock == Some(TextBlock("Hello"))
      && first.message.None? && first.delta.None?
      && second.responseType == "content_block_delta" && second.contentBlock == Some(TextBlock(" world"))
      && second.message.None? && second.delta.None?
      && stop.responseType == "message_stop" && stop.delta == Some(CM.Delta(Some("stop"), None))
      && stop.message.None? && stop.contentBlock.None?
  {
  }
}
