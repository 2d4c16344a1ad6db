/** The legacy Claude-side records the Qwen adapters read and write (src/models/claude.rs). */
module Claude {
  import opened Base
  import Json

  datatype ClaudeRole = User | Assistant | System

  /** Content is a single string. */
  datatype ClaudeMessage = ClaudeMessage(role: ClaudeRole, content: string)

  datatype FunctionDefinition =
    FunctionDefinition(name: string, description: string, parameters: Json.Json)

  datatype ToolDefinition = ToolDefinition(toolType: string, func: FunctionDefinition)

  datatype FunctionChoice = FunctionChoice(name: string)

  /** A free-form type string and an optional function name. */
  datatype ToolChoice = ToolChoice(choiceType: string, func: Option<FunctionChoice>)

  /** The system prompt is one optional string. */
  datatype ClaudeRequest = ClaudeRequest(
    model: string,
    messages: seq<ClaudeMessage>,
    maxTokens: Option<U32>,
    temperature: Option<F32>,
    stream: Option<bool>,
    system: Option<string>,
    tools: Option<seq<ToolDefinition>>,
    toolChoice: Option<ToolChoice>)

  datatype ClaudeUsage = ClaudeUsage(inputTokens: U32, outputTokens: U32)

  /** Tool-call arguments are a string. */
  datatype ToolCallFunction = ToolCallFunction(name: string, arguments: string)

  datatype ToolCall = ToolCall(id: string, callType: string, func: ToolCallFunction)

  datatype ClaudeMessageWithTools = ClaudeMessageWithTools(
    role: ClaudeRole,
    content: Option<string>,
    toolCalls: Option<seq<ToolCall>>)

  datatype ClaudeChoice =
    ClaudeChoice(message: ClaudeMessageWithTools, finishReason: Option<string>, index: U32)

  datatype ClaudeResponse = ClaudeResponse(
    id: string,
    model: string,
    usage: ClaudeUsage,
    choices: seq<ClaudeChoice>)

  datatype ClaudeDelta = ClaudeDelta(content: Option<string>)

  datatype ClaudeStreamChoice =
    ClaudeStreamChoice(delta: ClaudeDelta, finishReason: Option<string>, index: U32)

  datatype ClaudeStreamResponse =
    ClaudeStreamResponse(id: string, model: string, choices: seq<ClaudeStreamChoice>)
}
