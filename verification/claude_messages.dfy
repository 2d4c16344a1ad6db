/** The front-end Messages records (src/models/claude_messages.rs), together with
    the output shapes the adapters and the token counter build. */
module ClaudeMessages {
  import opened Base
  import Json

  /** Inbound roles: there is no System role, the system prompt travels apart. */
  datatype MessageRole = User | Assistant

  datatype ImageSource =
    ImageSource(sourceType: string, mediaType: string, data: string, cacheControl: Option<Json.Json>)

  /** The only two part kinds an inbound message can hold. */
  datatype InputMessageContentPart =
    | TextPart(text: string, cacheControl: Option<Json.Json>)
    | ImagePart(source: ImageSource)

  /** Untagged on the wire: one string, or an ordered list of parts. */
  datatype InputMessageContent =
    | PlainText(text: string)
    | Parts(parts: seq<InputMessageContentPart>)

  datatype InputMessage = InputMessage(role: MessageRole, content: InputMessageContent)

  /** One fragment of the system prompt. */
  datatype SystemMessage = SystemMessage(
    contentType: string,
    text: string,
    cacheControl: Option<Json.Json>,
    citations: Option<Json.Json>)

  datatype ToolDefinition = ToolDefinition(
    toolType: Option<string>,
    name: string,
    description: string,
    inputSchema: Json.Json,
    cacheControl: Option<Json.Json>,
    otherValues: Option<Json.Json>)

  /** A closed set; all but `ChoiceNone` carry `disable_parallel_tool_use`. */
  datatype ToolChoice =
    | ChoiceNone
    | ChoiceAuto(disableParallelToolUse: bool)
    | ChoiceAny(disableParallelToolUse: bool)
    | ChoiceTool(name: string, disableParallelToolUse: bool)

  /** Input and output counts are required, the cache counters optional. */
  datatype Usage = Usage(
    inputTokens: U32,
    outputTokens: U32,
    cacheReadInputTokens: Option<U32>,
    cacheCreationInputTokens: Option<U32>)

  datatype ClaudeMessagesRequest = ClaudeMessagesRequest(
    model: string,
    messages: seq<InputMessage>,
    maxTokens: Option<U32>,
    container: Option<string>,
    metadata: Option<Json.Json>,
    serviceTier: Option<string>,
    stopSequences: Option<seq<string>>,
    stream: Option<bool>,
    system: Option<seq<SystemMessage>>,
    temperature: Option<F32>,
    thinking: Option<Json.Json>,
    toolChoice: Option<ToolChoice>,
    tools: Option<seq<ToolDefinition>>,
    topP: Option<F32>)

  /* Output shapes, as the adapters construct them. */

  datatype ResponseContentBlock =
    | ResponseText(text: string)
    | ResponseToolUse(id: string, name: string, input: Json.Json)

  datatype ResponseContainer = ResponseContainer(expiresAt: string, id: string)

  datatype ClaudeMessagesResponse = ClaudeMessagesResponse(
    id: string,
    content: seq<ResponseContentBlock>,
    responseType: string,
    model: string,
    role: string,
    stopReason: Option<string>,
    stopSequence: Option<string>,
    usage: Usage,
    container: Option<ResponseContainer>)

  datatype StreamMessage =
    StreamMessage(id: string, messageType: string, role: string, content: seq<ResponseContentBlock>)

  datatype StreamContentBlock = StreamContentBlock(
    contentType: string,
    text: Option<string>,
    id: Option<string>,
    name: Option<string>,
    input: Option<Json.Json>)

  datatype Delta = Delta(stopReason: Option<string>, stopSequence: Option<string>)

  /** One event of the outbound stream. */
  datatype ClaudeMessagesStreamResponse = ClaudeMessagesStreamResponse(
    responseType: string,
    delta: Option<Delta>,
    message: Option<StreamMessage>,
    contentBlock: Option<StreamContentBlock>,
    index: Option<U32>,
    usage: Option<Usage>)

  /* The message shape the token counter walks. */

  datatype ContentBlock =
    | Text(text: string)
    | ToolUse(id: string, name: string, input: Json.Json)
    | ToolResult(toolUseId: string, content: string)

  datatype Message = Message(role: MessageRole, content: seq<ContentBlock>)
}
