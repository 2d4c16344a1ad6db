/** The Qwen request and response records (src/models/qwen3.rs). */
module Qwen {
  import opened Base
  import Json

  datatype QwenRole = User | Assistant | System

  /** Content is a single string. */
  datatype QwenMessage = QwenMessage(role: QwenRole, content: string)

  datatype QwenInput = QwenInput(messages: seq<QwenMessage>)

  datatype FunctionDefinition =
    FunctionDefinition(name: string, description: string, parameters: Json.Json)

  datatype ToolDefinition = ToolDefinition(toolType: string, func: FunctionDefinition)

  datatype FunctionChoice = FunctionChoice(name: string)

  /** The same shape as the Claude-side tool choice. */
  datatype ToolChoice = ToolChoice(choiceType: string, func: Option<FunctionChoice>)

  /** Every generation parameter is optional. */
  datatype QwenParameters = QwenParameters(
    maxTokens: Option<U32>,
    temperature: Option<F32>,
    incrementalOutput: Option<bool>,
    resultFormat: Option<string>,
    tools: Option<seq<ToolDefinition>>,
    toolChoice: Option<ToolChoice>)

  datatype QwenRequest = QwenRequest(model: string, input: QwenInput, parameters: QwenParameters)

  /** Tool-call arguments arrive as a JSON value, not as text. */
  datatype ToolCallFunction = ToolCallFunction(name: string, arguments: Json.Json)

  datatype ToolCallResponse = ToolCallResponse(id: string, callType: string, func: ToolCallFunction)

  datatype QwenChoice = QwenChoice(
    message: QwenMessage,
    finishReason: Option<string>,
    toolCalls: Option<seq<ToolCallResponse>>)

  datatype QwenOutput = QwenOutput(choices: seq<QwenChoice>)

  datatype QwenUsage = QwenUsage(inputTokens: U32, outputTokens: U32, totalTokens: U32)

  datatype QwenResponse = QwenResponse(output: QwenOutput, usage: QwenUsage, requestId: Option<string>)

  datatype QwenStreamChoice = QwenStreamChoice(message: QwenMessage, finishReason: Option<string>)

  datatype QwenStreamOutput = QwenStreamOutput(choices: seq<QwenStreamChoice>)

  datatype QwenStreamResponse = QwenStreamResponse(output: QwenStreamOutput, usage: Option<QwenUsage>)
}
