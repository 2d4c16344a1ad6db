/** The backend's OpenAI-compatible Chat Completions records (src/models/openai.rs). */
module OpenAI {
  import opened Base
  import Json
  import Text

  datatype OpenAIRole = System | User | Assistant | Tool

  /** The `Display` text of a role. */
  function RoleName(r: OpenAIRole): (name: string)
    ensures |name| > 0 && Text.HasNoUppercase(name)
  {
    match r
    case System => "system"
    case User => "user"
    case Assistant => "assistant"
    case Tool => "tool"
  }

  /** The role names serde accepts when reading a role (`rename_all = "lowercase"`). */
  function ParseRole(name: string): (r: Option<OpenAIRole>)
    ensures r.Some? ==> RoleName(r.value) == name
  {
    if name == "system" then Some(System)
    else if name == "user" then Some(User)
    else if name == "assistant" then Some(Assistant)
    else if name == "tool" then Some(Tool)
    else None
  }

  /** Display and deserialisation agree: every role reads back from its
      display name, so no two roles share a name. */
  lemma RoleNameRoundTrip(r: OpenAIRole)
    ensures ParseRole(RoleName(r)) == Some(r)
  {
  }

  lemma RoleNameInjective(r1: OpenAIRole, r2: OpenAIRole)
    ensures RoleName(r1) == RoleName(r2) ==> r1 == r2
  {
    RoleNameRoundTrip(r1);
    RoleNameRoundTrip(r2);
  }

  /** The adapters lowercase the display name; that changes nothing. */
  lemma LowercasedRoleName(r: OpenAIRole)
    ensures Text.ToLowercase(RoleName(r)) == RoleName(r)
  {
    Text.ToLowercaseOfLowercase(RoleName(r));
  }

  datatype OpenAIFunctionDefinition =
    OpenAIFunctionDefinition(name: string, description: Option<string>, parameters: Json.Json)

  datatype OpenAIToolDefinition =
    OpenAIToolDefinition(toolType: string, func: OpenAIFunctionDefinition)

  datatype OpenAIFunctionChoice = OpenAIFunctionChoice(name: string)

  /** Untagged on the wire: either a bare string ("auto", "none", "required")
      or an object naming one function. */
  datatype OpenAIToolChoice =
    | Named(value: string)
    | Function(choiceType: string, func: OpenAIFunctionChoice)

  datatype ResponseFormat = ResponseFormat(formatType: string, jsonSchema: Option<Json.Json>)

  datatype StreamOptions = StreamOptions(includeUsage: Option<bool>)

  datatype OpenAIToolCallFunction = OpenAIToolCallFunction(name: string, arguments: string)

  /** A completed tool call; its arguments are raw text, not yet JSON. */
  datatype OpenAIToolCall =
    OpenAIToolCall(id: string, toolType: string, func: OpenAIToolCallFunction)

  datatype OpenAIMessage = OpenAIMessage(
    role: OpenAIRole,
    content: Option<string>,
    toolCalls: Option<seq<OpenAIToolCall>>,
    toolCallId: Option<string>,
    name: Option<string>)

  datatype OpenAIRequest = OpenAIRequest(
    model: string,
    messages: seq<OpenAIMessage>,
    maxTokens: Option<U32>,
    temperature: Option<F32>,
    topP: Option<F32>,
    stream: Option<bool>,
    tools: Option<seq<OpenAIToolDefinition>>,
    toolChoice: Option<OpenAIToolChoice>,
    responseFormat: Option<ResponseFormat>,
    streamOptions: Option<StreamOptions>)

  datatype OpenAIUsage = OpenAIUsage(promptTokens: U32, completionTokens: U32, totalTokens: U32)

  /** `usage.unwrap_or_default()`: a missing usage record reads as all zeros
      (the derived `Default`), a present one as itself. */
  function UsageOrDefault(usage: Option<OpenAIUsage>): (u: OpenAIUsage)
    ensures usage.None? ==> u.promptTokens == 0 && u.completionTokens == 0 && u.totalTokens == 0
    ensures usage.Some? ==> u == usage.value
  {
    usage.GetOr(OpenAIUsage(0, 0, 0))
  }

  datatype OpenAIChoice = OpenAIChoice(index: U32, message: OpenAIMessage, finishReason: Option<string>)

  /** A non-streamed completion; `usage` may be missing. */
  datatype OpenAIResponse = OpenAIResponse(
    id: string,
    object: string,
    created: I64,
    model: string,
    choices: seq<OpenAIChoice>,
    usage: Option<OpenAIUsage>,
    systemFingerprint: Option<string>)

  /** A streamed tool-call fragment: every field may be missing. */
  datatype OpenAIToolCallFunctionDelta =
    OpenAIToolCallFunctionDelta(name: Option<string>, arguments: Option<string>)

  datatype OpenAIToolCallDelta = OpenAIToolCallDelta(
    index: Option<U32>,
    id: Option<string>,
    toolType: Option<string>,
    func: Option<OpenAIToolCallFunctionDelta>)

  /** A streamed delta: role, text and tool calls are each optional. */
  datatype OpenAIDelta = OpenAIDelta(
    role: Option<OpenAIRole>,
    content: Option<string>,
    toolCalls: Option<seq<OpenAIToolCallDelta>>)

  datatype OpenAIStreamChoice =
    OpenAIStreamChoice(index: U32, delta: OpenAIDelta, finishReason: Option<string>)

  /** One streamed chunk. */
  datatype OpenAIStreamResponse = OpenAIStreamResponse(
    id: string,
    object: string,
    created: I64,
    model: string,
    choices: seq<OpenAIStreamChoice>,
    usage: Option<OpenAIUsage>,
    systemFingerprint: Option<string>)
}
