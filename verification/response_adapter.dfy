/** `QwenToClaudeAdapter` (src/adapters/response_adapter.rs): a Qwen response
    becomes a legacy Claude response with exactly one choice. */
module ResponseAdapter {
  import opened Base
  import Json
  import Claude
  import Qwen

  datatype AdaptError = AdaptError(message: string)

  /** The fixed model name every adapted response reports. */
  const ModelName: string := "qwen3-coder"

  function MapToolCall(codec: Json.Codec, call: Qwen.ToolCallResponse): Claude.ToolCall {
    Claude.ToolCall(
      call.id,
      call.callType,
      Claude.ToolCallFunction(call.func.name, codec.render(call.func.arguments)))
  }

  /** Tool calls keep their order, id, type and name; the JSON arguments
      are printed to text. */
  function MapToolCalls(codec: Json.Codec, calls: seq<Qwen.ToolCallResponse>): (out: seq<Claude.ToolCall>)
    ensures |out| == |calls|
    ensures forall i | 0 <= i < |calls| ::
      && out[i].id == calls[i].id
      && out[i].callType == calls[i].callType
      && out[i].func.name == calls[i].func.name
      && out[i].func.arguments == codec.render(calls[i].func.arguments)
  {
    if |calls| == 0 then [] else [MapToolCall(codec, calls[0])] + MapToolCalls(codec, calls[1..])
  }

  /** `QwenToClaudeAdapter::do_adapt`. Only the first choice is read, so the
      source needs at least one; `uuid` is the freshly generated response id. */
  function AdaptResponse(codec: Json.Codec, resp: Qwen.QwenResponse, uuid: string)
    : (r: Result<Claude.ClaudeResponse, AdaptError>)
    requires |resp.output.choices| > 0
    ensures r.Ok?
    ensures r.value.id == uuid && r.value.model == ModelName
    ensures r.value.usage.inputTokens == resp.usage.inputTokens
    ensures r.value.usage.outputTokens == resp.usage.outputTokens
    ensures |r.value.choices| == 1
    ensures var c := r.value.choices[0]; var src := resp.output.choices[0];
      && c.index == 0
      && c.message.role == Claude.Assistant
      && c.message.content == Some(src.message.content)
      && c.finishReason == src.finishReason
      && (c.message.toolCalls.None? <==> src.toolCalls.None?)
      && (src.toolCalls.Some? ==>
            && |c.message.toolCalls.value| == |src.toolCalls.value|
            && forall i | 0 <= i < |src.toolCalls.value| ::
                 && c.message.toolCalls.value[i].id == src.toolCalls.value[i].id
                 && c.message.toolCalls.value[i].callType == src.toolCalls.value[i].callType
                 && c.message.toolCalls.value[i].func.name == src.toolCalls.value[i].func.name
                 && c.message.toolCalls.value[i].func.arguments
                      == codec.render(src.toolCalls.value[i].func.arguments))
  {
    var choice := resp.output.choices[0];
    var toolCalls := match choice.toolCalls
      case Some(calls) => Some(MapToolCalls(codec, calls))
      case None => None;
    var message := Claude.ClaudeMessageWithTools(Claude.Assistant, Some(choice.message.content), toolCalls);
    Ok(Claude.ClaudeResponse(
      uuid,
      ModelName,
      Claude.ClaudeUsage(resp.usage.inputTokens, resp.usage.outputTokens),
      [Claude.ClaudeChoice(message, choice.finishReason, 0)]))
  }

  /** Only the first choice and the input/output counts matter: later
      choices, the total count, the request id and the Qwen message's own
      role are never looked at. */
  lemma AdaptResponseReadsOnlyFirstChoice(codec: Json.Codec, a: Qwen.QwenResponse, b: Qwen.QwenResponse, uuid: string)
    requires |a.output.choices| > 0 && |b.output.choices| > 0
    requires a.output.choices[0].message.content == b.output.choices[0].message.content
    requires a.output.choices[0].finishReason == b.output.choices[0].finishReason
    requires a.output.choices[0].toolCalls == b.output.choices[0].toolCalls
    requires a.usage.inputTokens == b.usage.inputTokens
    requires a.usage.outputTokens == b.usage.outputTokens
    ensures AdaptResponse(codec, a, uuid) == AdaptResponse(codec, b, uuid)
  {
  }

  /** The source's own test case. */
  lemma AdaptResponseExample(codec: Json.Codec, uuid: string)
    requires |uuid| > 0
    ensures var resp := Qwen.QwenResponse(
              Qwen.QwenOutput([Qwen.QwenChoice(
                Qwen.QwenMessage(Qwen.Assistant, "Hello! How can I help you?"), Some("stop"), None)]),
              Qwen.QwenUsage(10, 15, 25),
              Some("test-id"));
            var c := AdaptResponse(codec, resp, uuid).value;
            && |c.id| > 0 && c.model == "qwen3-coder"
            && c.usage.inputTokens == 10 && c.usage.outputTokens == 15
            && |c.choices| == 1
            && c.choices[0].message.content == Some("Hello! How can I help you?")
            && c.choices[0].message.role == Claude.Assistant
  {
  }
}
