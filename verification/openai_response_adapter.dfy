/** `OpenAIToClaudeMessagesAdapter` (src/adapters/openai_response_adapter.rs):
    a non-streamed Chat Completions response becomes a Messages response. */
module OpenAIResponseAdapter {
  import opened Base
  import Json
  import Text
  import OpenAI
  import CM = ClaudeMessages

  datatype AdaptError = AdaptError(message: string)

  /** The text block: present exactly when the message has content, even
      when that content is the empty string. */
  function TextBlocks(content: Option<string>): (bs: seq<CM.ResponseContentBlock>)
    ensures |bs| == (if content.Some? then 1 else 0)
    ensures content.Some? ==> bs[0] == CM.ResponseText(content.value)
  {
    match content
    case Some(text) => [CM.ResponseText(text)]
    case None => []
  }

  function ToolUseBlock(codec: Json.Codec, call: OpenAI.OpenAIToolCall): CM.ResponseContentBlock {
    CM.ResponseToolUse(call.id, call.func.name, Json.ParseOrNull(codec, call.func.arguments))
  }

  /** One tool-use block per call, in order: id and name copied, arguments
      parsed as JSON, and JSON null where they do not parse. */
  function ToolUseBlocks(codec: Json.Codec, calls: seq<OpenAI.OpenAIToolCall>): (bs: seq<CM.ResponseContentBlock>)
    ensures |bs| == |calls|
    ensures forall i | 0 <= i < |calls| ::
      && bs[i].ResponseToolUse?
      && bs[i].id == calls[i].id
      && bs[i].name == calls[i].func.name
      && (codec.parse(calls[i].func.arguments).Some? ==> bs[i].input == codec.parse(calls[i].func.arguments).value)
      && (codec.parse(calls[i].func.arguments).None? ==> bs[i].input == Json.Null)
  {
    if |calls| == 0 then [] else [ToolUseBlock(codec, calls[0])] + ToolUseBlocks(codec, calls[1..])
  }

  /** The content list of the adapted message: the text block, if any,
      first, then the i-th call as the i-th tool-use block. */
  function AdaptContent(codec: Json.Codec, msg: OpenAI.OpenAIMessage): (bs: seq<CM.ResponseContentBlock>)
    ensures var calls := if msg.toolCalls.Some? then msg.toolCalls.value else [];
      var k := if msg.content.Some? then 1 else 0;
      && |bs| == k + |calls|
      && (msg.content.Some? ==> bs[0] == CM.ResponseText(msg.content.value))
      && (forall i | 0 <= i < |calls| ::
            && bs[k + i].ResponseToolUse?
            && bs[k + i].id == calls[i].id
            && bs[k + i].name == calls[i].func.name
            && bs[k + i].input == Json.ParseOrNull(codec, calls[i].func.arguments))
  {
    var toolBlocks := match msg.toolCalls
      case Some(calls) => ToolUseBlocks(codec, calls)
      case None => [];
    TextBlocks(msg.content) + toolBlocks
  }

  /** `OpenAIToClaudeMessagesAdapter::do_adapt`. Only the first choice is
      read, so the source needs at least one. */
  function AdaptResponse(codec: Json.Codec, resp: OpenAI.OpenAIResponse)
    : (r: Result<CM.ClaudeMessagesResponse, AdaptError>)
    requires |resp.choices| > 0
    ensures r.Ok?
    ensures r.value.content == AdaptContent(codec, resp.choices[0].message)
    ensures r.value.id == resp.id && r.value.model == resp.model
    ensures r.value.responseType == "message"
    ensures r.value.role == OpenAI.RoleName(resp.choices[0].message.role)
    ensures r.value.stopReason == resp.choices[0].finishReason
    ensures r.value.stopSequence.None? && r.value.container.None?
    ensures resp.usage.None? ==> r.value.usage.inputTokens == 0 && r.value.usage.outputTokens == 0
    ensures resp.usage.Some? ==>
      && r.value.usage.inputTokens == resp.usage.value.promptTokens
      && r.value.usage.outputTokens == resp.usage.value.completionTokens
    ensures r.value.usage.cacheCreationInputTokens.None? && r.value.usage.cacheReadInputTokens.None?
  {
    var choice := resp.choices[0];
    var usage := OpenAI.UsageOrDefault(resp.usage);
    OpenAI.LowercasedRoleName(choice.message.role);
    Ok(CM.ClaudeMessagesResponse(
      resp.id,
      AdaptContent(codec, choice.message),
      "message",
      resp.model,
      Text.ToLowercase(OpenAI.RoleName(choice.message.role)),
      choice.finishReason,
      None,
      CM.Usage(usage.promptTokens, usage.completionTokens, None, None),
      None))
  }

  /** The ids and names of the tool-use blocks of a content list, in order. */
  function ToolUseIds(bs: seq<CM.ResponseContentBlock>): seq<(string, string)> {
    if |bs| == 0 then []
    else (if bs[0].ResponseToolUse? then [(bs[0].id, bs[0].name)] else []) + ToolUseIds(bs[1..])
  }

  /** The ids and function names of a list of tool calls, in order. */
  function CallIds(calls: seq<OpenAI.OpenAIToolCall>): seq<(string, string)> {
    if |calls| == 0 then [] else [(calls[0].id, calls[0].func.name)] + CallIds(calls[1..])
  }

  lemma {:induction false} ToolUseIdsOfBlocks(codec: Json.Codec, calls: seq<OpenAI.OpenAIToolCall>)
    ensures ToolUseIds(ToolUseBlocks(codec, calls)) == CallIds(calls)
  {
    if |calls| > 0 {
      assert ToolUseBlocks(codec, calls)[1..] == ToolUseBlocks(codec, calls[1..]);
      ToolUseIdsOfBlocks(codec, calls[1..]);
    }
  }

  /** Reading the tool-use blocks of the adapted response back gives the
      calls' ids and names, in order; text never turns into a tool use. */
  lemma ToolUsesMatchCalls(codec: Json.Codec, resp: OpenAI.OpenAIResponse)
    requires |resp.choices| > 0
    ensures var msg := resp.choices[0].message;
      ToolUseIds(AdaptResponse(codec, resp).value.content)
        == (if msg.toolCalls.Some? then CallIds(msg.toolCalls.value) else [])
  {
    var msg := resp.choices[0].message;
    var content := AdaptResponse(codec, resp).value.content;
    var calls := if msg.toolCalls.Some? then msg.toolCalls.value else [];
    assert content == AdaptContent(codec, msg);
    assert content == TextBlocks(msg.content) + ToolUseBlocks(codec, calls);
    ToolUseIdsOfBlocks(codec, calls);
    if msg.content.Some? {
      assert content[1..] == ToolUseBlocks(codec, calls);
    } else {
      assert content == ToolUseBlocks(codec, calls);
    }
  }

  /** Only the first choice, id, model and usage matter. */
  lemma AdaptResponseReadsOnlyFirstChoice(codec: Json.Codec, a: OpenAI.OpenAIResponse, b: OpenAI.OpenAIResponse)
    requires |a.choices| > 0 && |b.choices| > 0
    requires a.choices[0].message.role == b.choices[0].message.role
    requires a.choices[0].message.content == b.choices[0].message.content
    requires a.choices[0].message.toolCalls == b.choices[0].message.toolCalls
    requires a.choices[0].finishReason == b.choices[0].finishReason
    requires a.id == b.id && a.model == b.model && a.usage == b.usage
    ensures AdaptResponse(codec, a) == AdaptResponse(codec, b)
  {
  }

  /** Malformed arguments never fail the response: when the parser rejects
      the arguments of any call, that call's block, after the text block if
      there is one, carries null and the result is still Ok. */
  lemma BadArgumentsBecomeNull(codec: Json.Codec, resp: OpenAI.OpenAIResponse, i: nat)
    requires |resp.choices| > 0
    requires resp.choices[0].message.toolCalls.Some? && i < |resp.choices[0].message.toolCalls.value|
    requires codec.parse(resp.choices[0].message.toolCalls.value[i].func.arguments).None?
    ensures var msg := resp.choices[0].message;
      var r := AdaptResponse(codec, resp);
      var k := |TextBlocks(msg.content)|;
      && r.Ok?
      && r.value.content[k + i].ResponseToolUse?
      && r.value.content[k + i].id == msg.toolCalls.value[i].id
      && r.value.content[k + i].input == Json.Null
  {
  }
}
