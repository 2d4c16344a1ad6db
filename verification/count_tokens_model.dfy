/** The count-tokens endpoint's records (src/models/claude_count_tokens.rs). */
module CountTokensModel {
  import opened Base
  import ClaudeMessages

  datatype CacheControl = CacheControl(cacheType: string)

  /** One system-prompt fragment: its text and an optional cache hint. */
  datatype SystemPrompt =
    SystemPrompt(promptType: string, cacheControl: Option<CacheControl>, text: string)

  /** Messages, system and tools are each optional. The messages are walked
      block by block, as the token counter does. */
  datatype ClaudeCountTokensRequest = ClaudeCountTokensRequest(
    model: string,
    messages: Option<seq<ClaudeMessages.Message>>,
    system: Option<seq<SystemPrompt>>,
    tools: Option<seq<ClaudeMessages.ToolDefinition>>)

  /** The single count the endpoint answers with. */
  datatype ClaudeCountTokensResponse = ClaudeCountTokensResponse(inputTokens: nat)
}
